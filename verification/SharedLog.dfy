/**
 The shared state of one session in Redis: the sequence counter and the bounded replay
 buffer, changed only by two atomic scripts.
 */
module SharedLog {
  import opened StreamEvents

  const BUFFER_MAX: nat := 500

  /** The counter and the buffer, with every entry ever appended in this counter epoch. */
  datatype Log = Log(counter: nat, buffer: seq<Event>, history: seq<Event>)

  const EMPTY := Log(0, [], [])

  /** The last BUFFER_MAX entries. */
  function Trim(entries: seq<Event>): (kept: seq<Event>)
    ensures |kept| == if |entries| <= BUFFER_MAX then |entries| else BUFFER_MAX
  {
    if |entries| <= BUFFER_MAX then entries else entries[|entries| - BUFFER_MAX..]
  }

  function Append(l: Log, num: nat, msg: Message): Log {
    var entry := Event(num, msg);
    Log(num, Trim(l.buffer + [entry]), l.history + [entry])
  }

  /** What the scripts and the buffer's TTL can do to the log. */
  datatype Command = Publish(json: string) | PublishResync(floor: nat) | BufferExpires

  function Execute(l: Log, c: Command): Log {
    match c
    case Publish(json) => Append(l, l.counter + 1, Ordinary(json))
    case PublishResync(floor) => Append(l, (if l.counter < floor then floor else l.counter) + 1, Resync)
    case BufferExpires => l.(buffer := [])
  }

  function Run(l: Log, commands: seq<Command>): Log {
    if commands == [] then l
    else Execute(Run(l, commands[..|commands| - 1]), commands[|commands| - 1])
  }

  /** Seqs skip values only at resync entries. */
  ghost predicate JumpsOnlyAtResync(entries: seq<Event>) {
    forall i, j :: 0 <= i < j < |entries| && j == i + 1 ==>
      entries[j].num == entries[i].num + 1 || entries[j].msg.Resync?
  }

  ghost predicate Suffix(tail: seq<Event>, whole: seq<Event>) {
    && |tail| <= |whole|
    && forall i :: 0 <= i < |tail| ==> tail[i] == whole[|whole| - |tail| + i]
  }

  ghost predicate WellFormed(l: Log) {
    && Increasing(l.history)
    && Above(l.history, 0)
    && JumpsOnlyAtResync(l.history)
    && (l.history != [] ==> l.history[|l.history| - 1].num == l.counter)
    && Suffix(l.buffer, l.history)
    && |l.buffer| <= BUFFER_MAX
  }

  lemma HistoryEndsAtCounter(l: Log)
    requires WellFormed(l)
    ensures AtMost(l.history, l.counter)
  {
    forall i | 0 <= i < |l.history| ensures l.history[i].num <= l.counter {
      assert i == |l.history| - 1 || l.history[i].num < l.history[|l.history| - 1].num;
    }
  }

  lemma HistoryGrows(history: seq<Event>, counter: nat, e: Event)
    requires Increasing(history) && Above(history, 0) && JumpsOnlyAtResync(history) && AtMost(history, counter)
    requires history != [] ==> history[|history| - 1].num == counter
    requires counter < e.num && (e.num == counter + 1 || e.msg.Resync?)
    ensures Increasing(history + [e]) && Above(history + [e], 0) && JumpsOnlyAtResync(history + [e])
  {
  }

  lemma TrimmedSuffix(tail: seq<Event>, whole: seq<Event>, e: Event)
    requires Suffix(tail, whole)
    ensures Suffix(Trim(tail + [e]), whole + [e])
  {
    var grown, all := tail + [e], whole + [e];
    assert grown == all[|all| - |grown|..];
    var kept := Trim(grown);
    assert kept == all[|all| - |grown|..][|grown| - |kept|..] == all[|all| - |kept|..];
  }

  lemma LastAppended(history: seq<Event>, e: Event)
    ensures history + [e] != [] && (history + [e])[|history + [e]| - 1] == e
  {
  }

  lemma TrimShortens(entries: seq<Event>)
    ensures |Trim(entries)| <= BUFFER_MAX
  {
  }

  lemma AppendKeepsWellFormed(l: Log, num: nat, msg: Message)
    requires WellFormed(l) && l.counter < num && (num == l.counter + 1 || msg.Resync?)
    ensures WellFormed(Append(l, num, msg))
  {
    var entry := Event(num, msg);
    HistoryEndsAtCounter(l);
    hide Increasing, Above, AtMost, JumpsOnlyAtResync, Suffix, Trim;
    HistoryGrows(l.history, l.counter, entry);
    LastAppended(l.history, entry);
    TrimmedSuffix(l.buffer, l.history, entry);
    TrimShortens(l.buffer + [entry]);
    var grown, kept := l.history + [entry], Trim(l.buffer + [entry]);
    assert Append(l, num, msg) == Log(num, kept, grown);
  }

  lemma ExpiryKeepsWellFormed(l: Log)
    requires WellFormed(l)
    ensures WellFormed(Execute(l, BufferExpires))
  {
    hide Increasing, Above, JumpsOnlyAtResync;
  }

  lemma ExecuteKeepsWellFormed(l: Log, c: Command)
    requires WellFormed(l)
    ensures var after := Execute(l, c);
      WellFormed(after) && l.history <= after.history && l.counter <= after.counter
  {
    hide WellFormed, Trim;
    match c
    case Publish(json) => AppendKeepsWellFormed(l, l.counter + 1, Ordinary(json));
    case PublishResync(floor) => AppendKeepsWellFormed(l, (if l.counter < floor then floor else l.counter) + 1, Resync);
    case BufferExpires => ExpiryKeepsWellFormed(l);
  }

  lemma BufferEndsAtCounter(l: Log)
    requires WellFormed(l) && l.buffer != []
    ensures l.buffer[|l.buffer| - 1].num == l.counter
  {
    hide Increasing, Above, JumpsOnlyAtResync;
  }

  /**
   Over every run of the scripts, trims and expiries, the history is strictly increasing
   and jumps only at resync entries, and the buffer is its latest part, at most 500 long,
   ending at the counter.
   */
  lemma {:induction false} LogStaysWellFormed(l: Log, commands: seq<Command>)
    requires WellFormed(l)
    ensures var after := Run(l, commands);
      && WellFormed(after) && l.history <= after.history && l.counter <= after.counter
      && (after.buffer != [] ==> after.buffer[|after.buffer| - 1].num == after.counter)
  {
    if commands != [] {
      hide WellFormed, Execute;
      LogStaysWellFormed(l, commands[..|commands| - 1]);
      ExecuteKeepsWellFormed(Run(l, commands[..|commands| - 1]), commands[|commands| - 1]);
    }
    if Run(l, commands).buffer != [] {
      BufferEndsAtCounter(Run(l, commands));
    }
  }

  /** A resync entry is above its floor and above everything logged before it. */
  lemma ResyncClearsItsFloor(l: Log, floor: nat)
    requires WellFormed(l)
    ensures var after := Execute(l, PublishResync(floor));
      && after.history == l.history + [ResyncEvent(after.counter)]
      && floor < after.counter && AtMost(l.history, l.counter) && l.counter < after.counter
  {
    hide Trim, WellFormed, AtMost;
    HistoryEndsAtCounter(l);
  }

  // ---------------------------------------------------------------------------
  // What the buffer keeps
  // ---------------------------------------------------------------------------

  /** All of the entries, or the newest BUFFER_MAX of them. */
  ghost predicate KeepsNewest(kept: seq<Event>, entries: seq<Event>) {
    && |kept| == (if |entries| <= BUFFER_MAX then |entries| else BUFFER_MAX)
    && kept == entries[|entries| - |kept|..]
  }

  lemma AppendKeepsNewest(l: Log, num: nat, msg: Message)
    ensures var after := Append(l, num, msg);
      && after.counter == num && after.history == l.history + [Event(num, msg)]
      && KeepsNewest(after.buffer, l.buffer + [Event(num, msg)])
  {
  }

  /** How many entries the commands appended since the buffer last expired. */
  function SinceExpiry(commands: seq<Command>): nat {
    if commands == [] || commands[|commands| - 1].BufferExpires? then 0
    else SinceExpiry(commands[..|commands| - 1]) + 1
  }

  /** What a command publishes. */
  function MessagesOf(c: Command): seq<Message> {
    match c
    case Publish(json) => [Ordinary(json)]
    case PublishResync(_) => [Resync]
    case BufferExpires => []
  }

  function Published(commands: seq<Command>): seq<Message> {
    if commands == [] then [] else Published(commands[..|commands| - 1]) + MessagesOf(commands[|commands| - 1])
  }

  ghost predicate Carries(entries: seq<Event>, messages: seq<Message>) {
    |entries| == |messages| && forall i :: 0 <= i < |entries| ==> entries[i].msg == messages[i]
  }

  /** The history carries the messages, and the buffer the newest of its last n entries. */
  ghost predicate Shows(l: Log, messages: seq<Message>, n: nat) {
    && Carries(l.history, messages)
    && n <= |l.history| && KeepsNewest(l.buffer, l.history[|l.history| - n..])
  }

  /** The newest of the newest and one more are the newest of all. */
  lemma NewestOfMore(kept: seq<Event>, entries: seq<Event>, e: Event, after: seq<Event>)
    requires KeepsNewest(kept, entries) && KeepsNewest(after, kept + [e])
    ensures KeepsNewest(after, entries + [e])
  {
    assert kept + [e] == (entries + [e])[|entries| - |kept|..];
  }

  lemma LatestAfterAppend(l: Log, num: nat, msg: Message, n: nat)
    requires n <= |l.history| && KeepsNewest(l.buffer, l.history[|l.history| - n..])
    ensures var after := Append(l, num, msg);
      n + 1 <= |after.history| && KeepsNewest(after.buffer, after.history[|after.history| - (n + 1)..])
  {
    var e := Event(num, msg);
    AppendKeepsNewest(l, num, msg);
    NewestOfMore(l.buffer, l.history[|l.history| - n..], e, Append(l, num, msg).buffer);
    assert (l.history + [e])[|l.history| - n..] == l.history[|l.history| - n..] + [e];
  }

  lemma CarriesOneMore(entries: seq<Event>, messages: seq<Message>, e: Event)
    requires Carries(entries, messages)
    ensures Carries(entries + [e], messages + [e.msg])
  {
  }

  lemma AppendShows(l: Log, num: nat, msg: Message, messages: seq<Message>, n: nat)
    requires Shows(l, messages, n)
    ensures Shows(Append(l, num, msg), messages + [msg], n + 1)
  {
    hide KeepsNewest, Carries, Append;
    LatestAfterAppend(l, num, msg, n);
    CarriesOneMore(l.history, messages, Event(num, msg));
    AppendKeepsNewest(l, num, msg);
  }

  lemma EmptyBufferShows(l: Log, messages: seq<Message>)
    requires exists n: nat :: Shows(l, messages, n)
    ensures Shows(l.(buffer := []), messages, 0)
  {
    hide Carries;
    assert l.history[|l.history|..] == [];
  }

  lemma ExecuteShows(l: Log, c: Command, messages: seq<Message>, n: nat)
    requires Shows(l, messages, n)
    ensures Shows(Execute(l, c), messages + MessagesOf(c), if c.BufferExpires? then 0 else n + 1)
  {
    hide Shows, Append;
    match c
    case Publish(json) => AppendShows(l, l.counter + 1, Ordinary(json), messages, n);
    case PublishResync(floor) =>
      AppendShows(l, (if l.counter < floor then floor else l.counter) + 1, Resync, messages, n);
    case BufferExpires =>
      EmptyBufferShows(l, messages);
      assert messages + MessagesOf(c) == messages;
  }

  /**
   Over every run, the log carries exactly the published messages in order, and the buffer holds
   the newest 500 of those appended since it last expired, or all of them.
   */
  lemma {:induction false} BufferKeepsTheLatest(commands: seq<Command>)
    ensures Shows(Run(EMPTY, commands), Published(commands), SinceExpiry(commands))
  {
    if commands != [] {
      hide Shows, Execute;
      var init, last := commands[..|commands| - 1], commands[|commands| - 1];
      BufferKeepsTheLatest(init);
      ExecuteShows(Run(EMPTY, init), last, Published(init), SinceExpiry(init));
    }
  }

  /** The two keys of one session, updated in place by the scripts. */
  class SessionKeys {
    var counter: nat
    var buffer: seq<Event>
    ghost var history: seq<Event>

    ghost function Contents(): Log
      reads this
    {
      Log(counter, buffer, history)
    }

    constructor ()
      ensures Contents() == EMPTY && WellFormed(Contents())
    {
      counter, buffer, history := 0, [], [];
    }

    method Push(num: nat, msg: Message)
      requires counter == num
      modifies this`buffer, this`history
      ensures Contents() == Append(old(Contents()), num, msg)
      ensures history == old(history) + [Event(num, msg)]
      ensures KeepsNewest(buffer, old(buffer) + [Event(num, msg)])
    {
      buffer := buffer + [Event(num, msg)];
      if |buffer| > BUFFER_MAX {
        buffer := buffer[|buffer| - BUFFER_MAX..];
      }
      history := history + [Event(num, msg)];
    }

    method PublishScript(json: string) returns (num: nat)
      requires WellFormed(Contents())
      modifies this
      ensures Contents() == Execute(old(Contents()), Publish(json)) && WellFormed(Contents())
      ensures num == counter == old(counter) + 1
      ensures history == old(history) + [Event(num, Ordinary(json))]
      ensures KeepsNewest(buffer, old(buffer) + [Event(num, Ordinary(json))])
    {
      hide WellFormed, Trim, KeepsNewest;
      ExecuteKeepsWellFormed(Contents(), Publish(json));
      counter := counter + 1;
      num := counter;
      Push(num, Ordinary(json));
    }

    method ResyncScript(floor: nat) returns (num: nat)
      requires WellFormed(Contents())
      modifies this
      ensures Contents() == Execute(old(Contents()), PublishResync(floor)) && WellFormed(Contents())
      ensures num == counter == (if old(counter) < floor then floor else old(counter)) + 1
      ensures history == old(history) + [ResyncEvent(num)]
      ensures KeepsNewest(buffer, old(buffer) + [ResyncEvent(num)])
    {
      hide WellFormed, Trim, KeepsNewest;
      ExecuteKeepsWellFormed(Contents(), PublishResync(floor));
      if counter < floor {
        counter := floor;
      }
      counter := counter + 1;
      num := counter;
      Push(num, Resync);
    }

    method ExpireBuffer()
      requires WellFormed(Contents())
      modifies this`buffer
      ensures Contents() == Execute(old(Contents()), BufferExpires) && WellFormed(Contents())
      ensures buffer == [] && counter == old(counter) && history == old(history)
    {
      ExpiryKeepsWellFormed(Contents());
      buffer := [];
    }
  }
}
