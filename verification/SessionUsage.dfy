/**
 Token accounting of one session: the persisted totals, the live snapshot a turn keeps of them,
 and the snapshots shown to the client.
 */
module SessionUsage {

  datatype Usage = Usage(input: nat, output: nat, reasoning: nat, cacheRead: nat, modelCalls: nat,
                         subagentInput: nat, subagentOutput: nat, contextTokens: nat, contextWindow: nat)

  /** One addition; context values above 0 replace the stored ones. */
  datatype Delta = Delta(input: nat, output: nat, reasoning: nat, cacheRead: nat, modelCalls: nat,
                         subagentInput: nat, subagentOutput: nat, contextTokens: nat, contextWindow: nat)

  function Accrued(u: Usage, d: Delta): Usage {
    Usage(u.input + d.input, u.output + d.output, u.reasoning + d.reasoning, u.cacheRead + d.cacheRead,
          u.modelCalls + d.modelCalls, u.subagentInput + d.subagentInput, u.subagentOutput + d.subagentOutput,
          if d.contextTokens > 0 then d.contextTokens else u.contextTokens,
          if d.contextWindow > 0 then d.contextWindow else u.contextWindow)
  }

  /** No cumulative total is lower; the context values are no totals. */
  predicate AtMost(u: Usage, v: Usage) {
    && u.input <= v.input && u.output <= v.output && u.reasoning <= v.reasoning && u.cacheRead <= v.cacheRead
    && u.modelCalls <= v.modelCalls && u.subagentInput <= v.subagentInput && u.subagentOutput <= v.subagentOutput
  }

  // ---------------------------------------------------------------------------
  // The two ways to add a delta
  // ---------------------------------------------------------------------------

  /** The usage columns of a session row, or a snapshot of them in memory. */
  class UsageRecord {
    var input: nat
    var output: nat
    var reasoning: nat
    var cacheRead: nat
    var modelCalls: nat
    var subagentInput: nat
    var subagentOutput: nat
    var contextTokens: nat
    var contextWindow: nat

    function Value(): Usage
      reads this
    {
      Usage(input, output, reasoning, cacheRead, modelCalls,
            subagentInput, subagentOutput, contextTokens, contextWindow)
    }

    constructor (u: Usage)
      ensures Value() == u
    {
      input, output, reasoning, cacheRead := u.input, u.output, u.reasoning, u.cacheRead;
      modelCalls, subagentInput, subagentOutput := u.modelCalls, u.subagentInput, u.subagentOutput;
      contextTokens, contextWindow := u.contextTokens, u.contextWindow;
    }

    /** The UPDATE of the row: all columns at once, from their old values. */
    method AddUsage(d: Delta)
      modifies this
      ensures Value() == Accrued(old(Value()), d)
    {
      input, output, reasoning, cacheRead, modelCalls, subagentInput, subagentOutput, contextTokens, contextWindow :=
        input + d.input, output + d.output, reasoning + d.reasoning, cacheRead + d.cacheRead,
        modelCalls + d.modelCalls, subagentInput + d.subagentInput, subagentOutput + d.subagentOutput,
        if d.contextTokens > 0 then d.contextTokens else contextTokens,
        if d.contextWindow > 0 then d.contextWindow else contextWindow;
    }

    /** The same on a snapshot, field by field. */
    method ApplyUsageDelta(d: Delta)
      modifies this
      ensures Value() == Accrued(old(Value()), d)
    {
      input := input + d.input;
      output := output + d.output;
      reasoning := reasoning + d.reasoning;
      cacheRead := cacheRead + d.cacheRead;
      modelCalls := modelCalls + d.modelCalls;
      subagentInput := subagentInput + d.subagentInput;
      subagentOutput := subagentOutput + d.subagentOutput;
      if d.contextTokens > 0 {
        contextTokens := d.contextTokens;
      }
      if d.contextWindow > 0 {
        contextWindow := d.contextWindow;
      }
    }

    method Assign(u: Usage)
      modifies this
      ensures Value() == u
    {
      input, output, reasoning, cacheRead := u.input, u.output, u.reasoning, u.cacheRead;
      modelCalls, subagentInput, subagentOutput := u.modelCalls, u.subagentInput, u.subagentOutput;
      contextTokens, contextWindow := u.contextTokens, u.contextWindow;
    }
  }

  // ---------------------------------------------------------------------------
  // A session's turns, and the subagents that run inside their tool phases
  // ---------------------------------------------------------------------------

  datatype Shown = TokenUpdate(usage: Usage) | SubagentStatus(usage: Usage)

  /** readBacks: the totals subagents have read back and may publish at any later point of the phase. */
  datatype State = State(
    persisted: Usage, snapshot: Usage, inTurn: bool, inTools: bool, readBacks: seq<Usage>, shown: seq<Shown>)

  datatype Act =
    | StartTurn
    | Call(delta: Delta)
    | Compact(delta: Delta)
    | BeginTools
    | SubagentAdds(delta: Delta)
    | SubagentReads
    | SubagentPublishes(read: nat)
    | EndTools
    | EndTurn

  predicate Enabled(s: State, a: Act) {
    match a
    case StartTurn => !s.inTurn
    case Call(_) => s.inTurn && !s.inTools
    case Compact(_) => s.inTurn && !s.inTools
    case BeginTools => s.inTurn && !s.inTools
    case SubagentAdds(_) => s.inTools
    case SubagentReads => s.inTools
    case SubagentPublishes(read) => s.inTools && read < |s.readBacks|
    case EndTools => s.inTools
    case EndTurn => s.inTurn && !s.inTools
  }

  function Next(s: State, a: Act): State
    requires Enabled(s, a)
  {
    match a
    case StartTurn => s.(snapshot := s.persisted, inTurn := true)
    case Call(d) =>
      var snapshot := Accrued(s.snapshot, d);
      s.(persisted := Accrued(s.persisted, d), snapshot := snapshot, shown := s.shown + [TokenUpdate(snapshot)])
    case Compact(d) => s.(persisted := Accrued(s.persisted, d), snapshot := Accrued(s.snapshot, d))
    case BeginTools => s.(inTools := true)
    case SubagentAdds(d) => s.(persisted := Accrued(s.persisted, d))
    case SubagentReads => s.(readBacks := s.readBacks + [s.persisted])
    case SubagentPublishes(read) => s.(shown := s.shown + [SubagentStatus(s.readBacks[read])])
    case EndTools => s.(snapshot := s.persisted, inTools := false)
    case EndTurn => s.(inTurn := false)
  }

  ghost predicate Trace(states: seq<State>, acts: seq<Act>) {
    && |states| == |acts| + 1
    && forall i :: 0 <= i < |acts| ==> Enabled(states[i], acts[i]) && states[i + 1] == Next(states[i], acts[i])
  }

  predicate Start(s: State) {
    !s.inTurn && !s.inTools && s.readBacks == [] && s.shown == []
  }

  ghost predicate Synced(s: State) {
    && (s.inTools ==> s.inTurn)
    && (s.inTurn && !s.inTools ==> s.snapshot == s.persisted)
    && (forall i :: 0 <= i < |s.readBacks| ==> AtMost(s.readBacks[i], s.persisted))
    && (forall i :: 0 <= i < |s.shown| ==> AtMost(s.shown[i].usage, s.persisted))
  }

  /** A token update is at least everything shown before it. */
  ghost predicate NeverRegresses(shown: seq<Shown>) {
    forall i, j :: 0 <= i < j < |shown| && shown[j].TokenUpdate? ==> AtMost(shown[i].usage, shown[j].usage)
  }

  lemma NextKeepsSynced(s: State, a: Act)
    requires Synced(s) && Enabled(s, a)
    ensures Synced(Next(s, a))
    ensures NeverRegresses(s.shown) ==> NeverRegresses(Next(s, a).shown)
    ensures a.Call? ==> Next(s, a).shown == s.shown + [TokenUpdate(Next(s, a).persisted)]
  {
  }

  lemma {:induction false} TraceStaysSynced(states: seq<State>, acts: seq<Act>, n: nat)
    requires Trace(states, acts) && Start(states[0]) && n < |states|
    ensures Synced(states[n]) && NeverRegresses(states[n].shown)
  {
    if n > 0 {
      TraceStaysSynced(states, acts, n - 1);
      NextKeepsSynced(states[n - 1], acts[n - 1]);
    }
  }

  /** Every token update of every run shows the persisted totals, and none lies below anything shown before. */
  lemma {:induction false} TokenUpdatesShowPersistedTotals(states: seq<State>, acts: seq<Act>, n: nat)
    requires Trace(states, acts) && Start(states[0]) && n < |acts| && acts[n].Call?
    ensures states[n + 1].shown == states[n].shown + [TokenUpdate(states[n + 1].persisted)]
    ensures forall i :: 0 <= i < |states[n].shown| ==> AtMost(states[n].shown[i].usage, states[n + 1].persisted)
  {
    TraceStaysSynced(states, acts, n);
    NextKeepsSynced(states[n], acts[n]);
    TraceStaysSynced(states, acts, n + 1);
  }

  /** A turn with a model call, tools with a subagent that reports, and a compaction. */
  function FullTurn(call: Delta, added: Delta, compaction: Delta): seq<Act> {
    [StartTurn, Call(call), BeginTools, SubagentAdds(added), SubagentReads, SubagentPublishes(0), EndTools,
     Compact(compaction), EndTurn]
  }

  /** Such a turn runs to its end from every start, and shows the client the call's and the subagent's totals. */
  lemma FullTurnRuns(s: State, call: Delta, added: Delta, compaction: Delta) returns (states: seq<State>)
    requires Start(s)
    ensures Trace(states, FullTurn(call, added, compaction)) && states[0] == s
    ensures var end := states[|states| - 1];
      var called := Accrued(s.persisted, call);
      && !end.inTurn && end.shown == [TokenUpdate(called), SubagentStatus(Accrued(called, added))]
      && end.snapshot == end.persisted == Accrued(Accrued(called, added), compaction)
  {
    hide Accrued, Progress, Enabled, Next;
    var acts := FullTurn(call, added, compaction);
    states := [s];
    TurnBegins(s, call, added, compaction);
    for i := 0 to |acts|
      invariant |states| == i + 1 && states[0] == s
      invariant forall k :: 0 <= k < i ==> Enabled(states[k], acts[k]) && states[k + 1] == Next(states[k], acts[k])
      invariant Progress(s, states[i], call, added, compaction, i)
    {
      TurnGoesOn(s, states[i], call, added, compaction, i);
      states := states + [Next(states[i], acts[i])];
    }
    TurnHasEnded(s, states[|acts|], call, added, compaction);
  }

  lemma TurnBegins(s: State, call: Delta, added: Delta, compaction: Delta)
    requires Start(s)
    ensures Progress(s, s, call, added, compaction, 0)
  {
    hide Accrued;
  }

  lemma TurnGoesOn(s: State, now: State, call: Delta, added: Delta, compaction: Delta, i: nat)
    requires i < 9 && Progress(s, now, call, added, compaction, i)
    ensures var a := FullTurn(call, added, compaction)[i];
      Enabled(now, a) && Progress(s, Next(now, a), call, added, compaction, i + 1)
  {
    hide Accrued;
  }

  lemma TurnHasEnded(s: State, now: State, call: Delta, added: Delta, compaction: Delta)
    requires Progress(s, now, call, added, compaction, 9)
    ensures var called := Accrued(s.persisted, call);
      && !now.inTurn && now.shown == [TokenUpdate(called), SubagentStatus(Accrued(called, added))]
      && now.snapshot == now.persisted == Accrued(Accrued(called, added), compaction)
  {
    hide Accrued;
  }

  /** The state of such a turn after its first i acts. */
  ghost predicate Progress(s: State, now: State, call: Delta, added: Delta, compaction: Delta, i: nat) {
    var called := Accrued(s.persisted, call);
    var grown := Accrued(called, added);
    && now.inTurn == (1 <= i <= 8) && now.inTools == (3 <= i <= 6)
    && now.persisted == (if i <= 1 then s.persisted else if i <= 3 then called else if i <= 7 then grown
                         else Accrued(grown, compaction))
    && (1 <= i <= 3 || i >= 7 ==> now.snapshot == now.persisted)
    && now.readBacks == (if i <= 4 then [] else [grown])
    && now.shown == if i <= 1 then [] else if i <= 5 then [TokenUpdate(called)]
                    else [TokenUpdate(called), SubagentStatus(grown)]
  }

  // ---------------------------------------------------------------------------
  // Conservation
  // ---------------------------------------------------------------------------

  /** What an act adds: a model call, a compaction or a subagent. */
  function Added(a: Act): seq<Delta> {
    match a
    case Call(d) => [d]
    case Compact(d) => [d]
    case SubagentAdds(d) => [d]
    case _ => []
  }

  function Deltas(acts: seq<Act>): seq<Delta> {
    if acts == [] then [] else Deltas(acts[..|acts| - 1]) + Added(acts[|acts| - 1])
  }

  function Total(ds: seq<Delta>, column: Delta -> nat): nat {
    if ds == [] then 0 else Total(ds[..|ds| - 1], column) + column(ds[|ds| - 1])
  }

  function Input(d: Delta): nat { d.input }
  function Output(d: Delta): nat { d.output }
  function Reasoning(d: Delta): nat { d.reasoning }
  function CacheRead(d: Delta): nat { d.cacheRead }
  function ModelCalls(d: Delta): nat { d.modelCalls }
  function SubagentInput(d: Delta): nat { d.subagentInput }
  function SubagentOutput(d: Delta): nat { d.subagentOutput }
  function ContextTokens(d: Delta): nat { d.contextTokens }
  function ContextWindow(d: Delta): nat { d.contextWindow }

  /** Every cumulative column grows by the sum of what was added to it. */
  ghost predicate GrewBy(start: Usage, now: Usage, ds: seq<Delta>) {
    && now.input == start.input + Total(ds, Input)
    && now.output == start.output + Total(ds, Output)
    && now.reasoning == start.reasoning + Total(ds, Reasoning)
    && now.cacheRead == start.cacheRead + Total(ds, CacheRead)
    && now.modelCalls == start.modelCalls + Total(ds, ModelCalls)
    && now.subagentInput == start.subagentInput + Total(ds, SubagentInput)
    && now.subagentOutput == start.subagentOutput + Total(ds, SubagentOutput)
  }

  /** A context value is the last positive one, or the value at the start if there is none. */
  ghost predicate IsLatest(start: nat, now: nat, ds: seq<Delta>, column: Delta -> nat) {
    if forall i :: 0 <= i < |ds| ==> column(ds[i]) == 0 then now == start
    else exists i :: 0 <= i < |ds| && now == column(ds[i]) > 0 && forall j :: i < j < |ds| ==> column(ds[j]) == 0
  }

  lemma TotalOfAppend(ds: seq<Delta>, d: Delta, column: Delta -> nat)
    ensures Total(ds + [d], column) == Total(ds, column) + column(d)
  {
    assert (ds + [d])[..|ds|] == ds;
  }

  lemma AccruedGrows(start: Usage, u: Usage, ds: seq<Delta>, d: Delta)
    requires GrewBy(start, u, ds)
    ensures GrewBy(start, Accrued(u, d), ds + [d])
  {
    TotalOfAppend(ds, d, Input);
    TotalOfAppend(ds, d, Output);
    TotalOfAppend(ds, d, Reasoning);
    TotalOfAppend(ds, d, CacheRead);
    TotalOfAppend(ds, d, ModelCalls);
    TotalOfAppend(ds, d, SubagentInput);
    TotalOfAppend(ds, d, SubagentOutput);
    hide Total;
  }

  lemma LatestAfter(start: nat, now: nat, ds: seq<Delta>, d: Delta, column: Delta -> nat)
    requires IsLatest(start, now, ds, column)
    ensures IsLatest(start, if column(d) > 0 then column(d) else now, ds + [d], column)
  {
    var all := ds + [d];
    assert all[|ds|] == d;
    if column(d) == 0 {
      if exists i :: 0 <= i < |ds| && column(ds[i]) != 0 {
        var i :| 0 <= i < |ds| && now == column(ds[i]) > 0 && forall j :: i < j < |ds| ==> column(ds[j]) == 0;
        assert all[i] == ds[i];
        assert forall j :: i < j < |all| ==> column(all[j]) == 0;
      }
    }
  }

  ghost predicate Conserved(start: Usage, now: Usage, ds: seq<Delta>) {
    && GrewBy(start, now, ds)
    && IsLatest(start.contextTokens, now.contextTokens, ds, ContextTokens)
    && IsLatest(start.contextWindow, now.contextWindow, ds, ContextWindow)
  }

  lemma AccruedConserves(start: Usage, u: Usage, ds: seq<Delta>, d: Delta)
    requires Conserved(start, u, ds)
    ensures Conserved(start, Accrued(u, d), ds + [d])
  {
    hide GrewBy, IsLatest;
    AccruedGrows(start, u, ds, d);
    LatestAfter(start.contextTokens, u.contextTokens, ds, d, ContextTokens);
    LatestAfter(start.contextWindow, u.contextWindow, ds, d, ContextWindow);
  }

  lemma NextConserves(s: State, a: Act, start: Usage, ds: seq<Delta>)
    requires Enabled(s, a) && Conserved(start, s.persisted, ds)
    ensures Conserved(start, Next(s, a).persisted, ds + Added(a))
  {
    hide Conserved, Accrued;
    match a
    case Call(d) => AccruedConserves(start, s.persisted, ds, d);
    case Compact(d) => AccruedConserves(start, s.persisted, ds, d);
    case SubagentAdds(d) => AccruedConserves(start, s.persisted, ds, d);
    case _ => assert ds + [] == ds;
  }

  /**
   Over every run the persisted totals are the start plus everything the calls, compactions and
   subagents added, column by column, and the context values are the last positive ones reported.
   */
  lemma {:induction false} TotalsAreConserved(states: seq<State>, acts: seq<Act>, n: nat)
    requires Trace(states, acts) && n < |states|
    ensures Conserved(states[0].persisted, states[n].persisted, Deltas(acts[..n]))
  {
    if n == 0 {
      assert acts[..0] == [];
    } else {
      hide Conserved, Next;
      TotalsAreConserved(states, acts, n - 1);
      assert acts[..n][..n - 1] == acts[..n - 1];
      NextConserves(states[n - 1], acts[n - 1], states[0].persisted, Deltas(acts[..n - 1]));
    }
  }

  /** What subagents have read back are totals the row held before. */
  lemma {:induction false} ReadBacksWerePersisted(states: seq<State>, acts: seq<Act>, n: nat, i: nat)
    requires Trace(states, acts) && Start(states[0]) && n < |states| && i < |states[n].readBacks|
    ensures exists k :: 0 <= k <= n && states[n].readBacks[i] == states[k].persisted
  {
    assert n > 0;
    assert states[n] == Next(states[n - 1], acts[n - 1]);
    if i < |states[n - 1].readBacks| {
      ReadBacksWerePersisted(states, acts, n - 1, i);
    }
  }

  /** A subagent's status shows the client totals that the row held at some earlier point. */
  lemma StatusesShowEarlierTotals(states: seq<State>, acts: seq<Act>, n: nat)
    requires Trace(states, acts) && Start(states[0]) && n < |acts| && acts[n].SubagentPublishes?
    ensures exists k :: 0 <= k <= n && states[n + 1].shown == states[n].shown + [SubagentStatus(states[k].persisted)]
  {
    assert states[n + 1] == Next(states[n], acts[n]) && Enabled(states[n], acts[n]);
    ReadBacksWerePersisted(states, acts, n, acts[n].read);
    var k :| 0 <= k <= n && states[n].readBacks[acts[n].read] == states[k].persisted;
    assert states[n + 1].shown == states[n].shown + [SubagentStatus(states[k].persisted)];
  }

  // ---------------------------------------------------------------------------
  // The turn's own steps
  // ---------------------------------------------------------------------------

  class TurnUsage {
    const row: UsageRecord
    const usage: UsageRecord
    var shown: seq<Shown>

    ghost predicate Valid()
      reads this, row, usage
    {
      row != usage && row.Value() == usage.Value()
    }

    /** A turn starts with a copy of the row. */
    constructor (persisted: UsageRecord)
      ensures fresh(usage) && row == persisted && shown == [] && Valid()
    {
      row := persisted;
      usage := new UsageRecord(persisted.Value());
      shown := [];
    }

    ghost function Ledger(): State
      reads this, row, usage
    {
      State(row.Value(), usage.Value(), true, false, [], shown)
    }

    /** One model call: the row, the snapshot and the client all learn of it. */
    method CountCall(d: Delta)
      requires Valid()
      modifies this, row, usage
      ensures Valid() && Ledger() == Next(old(Ledger()), Call(d))
    {
      row.AddUsage(d);
      usage.ApplyUsageDelta(d);
      shown := shown + [TokenUpdate(usage.Value())];
    }

    /** The summariser's tokens of a compaction. */
    method CountCompaction(d: Delta)
      requires Valid()
      modifies row, usage
      ensures Valid() && Ledger() == Next(old(Ledger()), Compact(d))
    {
      row.AddUsage(d);
      usage.ApplyUsageDelta(d);
    }

    /** After the tools of a turn the snapshot is read back from the row. */
    method Refresh()
      requires row != usage
      modifies usage
      ensures Valid() && row.Value() == old(row.Value())
    {
      usage.Assign(row.Value());
    }
  }
}
