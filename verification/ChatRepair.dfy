/**
 Repairing a chat history before a model call: placeholders answer interrupted tool calls
 and tool messages without their call are dropped.
 */
module ChatRepair {
  import opened ChatMessages
  import opened Sequences

  // ---------------------------------------------------------------------------
  // Inserting and removing tool messages
  // ---------------------------------------------------------------------------

  function Shift(at: nat, i: nat): nat {
    if i < at then i else i + 1
  }

  lemma InsertKeepsAnswer(msgs: seq<Message>, at: nat, m: Message, c: nat, id: string)
    requires at <= |msgs| && m.role.Tool? && c < |msgs| && HasAnswer(msgs, c, id)
    ensures HasAnswer(Insert(msgs, at, m), Shift(at, c), id)
  {
    var all := Insert(msgs, at, m);
    var j: nat :| AnswersAt(msgs, c, id, j);
    assert AnswersAt(all, Shift(at, c), id, Shift(at, j));
  }

  lemma InsertBeforeAddsNoAnswer(msgs: seq<Message>, at: nat, m: Message, c: nat, id: string)
    requires at <= c < |msgs| && m.role.Tool? && HasAnswer(Insert(msgs, at, m), c + 1, id)
    ensures HasAnswer(msgs, c, id)
  {
    var all := Insert(msgs, at, m);
    var j: nat :| AnswersAt(all, c + 1, id, j);
    forall k | c < k < j - 1 ensures !Boundary(msgs[k]) {
      assert all[k + 1] == msgs[k];
    }
    assert AnswersAt(msgs, c, id, j - 1);
  }

  lemma InsertAddsNoMatch(msgs: seq<Message>, at: nat, m: Message, i: nat)
    requires at <= |msgs| && m.role.Tool? && i < |msgs| && Matched(Insert(msgs, at, m), Shift(at, i))
    ensures Matched(msgs, i)
  {
    var all := Insert(msgs, at, m);
    var j: nat :| MatchesAt(all, Shift(at, i), j);
    var source := if j < at then j else j - 1;
    forall k | source < k < i ensures !msgs[k].role.User? {
      assert all[Shift(at, k)] == msgs[k];
    }
    assert MatchesAt(msgs, i, source);
  }

  lemma InsertKeepsMatch(msgs: seq<Message>, at: nat, m: Message, i: nat)
    requires at <= |msgs| && m.role.Tool? && i < |msgs|
    ensures Matched(Insert(msgs, at, m), Shift(at, i)) <==> Matched(msgs, i)
  {
    if Matched(Insert(msgs, at, m), Shift(at, i)) {
      InsertAddsNoMatch(msgs, at, m, i);
    } else if Matched(msgs, i) {
      var j: nat :| MatchesAt(msgs, i, j);
      assert MatchesAt(Insert(msgs, at, m), Shift(at, i), Shift(at, j));
    }
  }

  // ---------------------------------------------------------------------------
  // What the repair keeps, drops and adds
  // ---------------------------------------------------------------------------

  /** The messages among lo..hi that are not orphaned tool results. */
  ghost function Kept(msgs: seq<Message>, lo: nat, hi: nat): seq<Message>
    requires hi <= |msgs|
    decreases hi
  {
    if lo >= hi then [] else Kept(msgs, lo, hi - 1) + if Keep(msgs, hi - 1) then [msgs[hi - 1]] else []
  }

  ghost function Retained(msgs: seq<Message>): seq<Message> {
    Kept(msgs, 0, |msgs|)
  }

  /** The calls of message c that no later tool message answers in time; an empty id never counts as answered. */
  ghost function Unanswered(msgs: seq<Message>, c: nat): set<string>
    requires c < |msgs|
  {
    set id | id in CallIds(msgs[c]) && (id == "" || !HasAnswer(msgs, c, id))
  }

  /** How many calls of the messages from c on lack their answer. */
  ghost function Missing(msgs: seq<Message>, c: nat): nat
    requires c <= |msgs|
    decreases |msgs| - c
  {
    if c == |msgs| then 0 else |Unanswered(msgs, c)| + Missing(msgs, c + 1)
  }

  /** The list without its marked elements. */
  ghost function Erase(msgs: seq<Message>, marks: seq<bool>): seq<Message>
    requires |msgs| == |marks|
  {
    if msgs == [] then []
    else Erase(msgs[..|msgs| - 1], marks[..|msgs| - 1]) + if marks[|msgs| - 1] then [] else [msgs[|msgs| - 1]]
  }

  ghost predicate IsPlaceholder(m: Message) {
    m == Placeholder(m.callId)
  }

  ghost predicate AddsAt(base: seq<Message>, full: seq<Message>, marks: seq<bool>) {
    && |marks| == |full| && Erase(full, marks) == base
    && forall i :: 0 <= i < |full| && marks[i] ==> IsPlaceholder(full[i])
  }

  /** The longer list is the shorter one, in order, with placeholders inserted. */
  ghost predicate Adds(base: seq<Message>, full: seq<Message>) {
    exists marks :: AddsAt(base, full, marks)
  }

  lemma EraseOfAppend(msgs: seq<Message>, marks: seq<bool>, m: Message, mark: bool)
    requires |msgs| == |marks|
    ensures Erase(msgs + [m], marks + [mark]) == Erase(msgs, marks) + if mark then [] else [m]
  {
    assert (msgs + [m])[..|msgs|] == msgs && (marks + [mark])[..|msgs|] == marks;
  }

  lemma InsertBeforeLast<T>(s: seq<T>, at: nat, x: T)
    requires at < |s|
    ensures Insert(s, at, x) == Insert(s[..|s| - 1], at, x) + [s[|s| - 1]]
    ensures s == s[..|s| - 1] + [s[|s| - 1]]
  {
  }

  lemma {:induction false} EraseOfInsert(msgs: seq<Message>, marks: seq<bool>, at: nat, m: Message)
    requires |msgs| == |marks| && at <= |msgs|
    ensures Erase(Insert(msgs, at, m), Insert(marks, at, true)) == Erase(msgs, marks)
  {
    if at == |msgs| {
      assert Insert(msgs, at, m) == msgs + [m] && Insert(marks, at, true) == marks + [true];
      EraseOfAppend(msgs, marks, m, true);
    } else {
      hide Erase, Insert;
      var init, initMarks := msgs[..|msgs| - 1], marks[..|msgs| - 1];
      var last, lastMark := msgs[|msgs| - 1], marks[|msgs| - 1];
      EraseOfInsert(init, initMarks, at, m);
      InsertBeforeLast(msgs, at, m);
      InsertBeforeLast(marks, at, true);
      SameLengthInserts(init, initMarks, at, m);
      EraseOfAppend(init, initMarks, last, lastMark);
      EraseOfAppend(Insert(init, at, m), Insert(initMarks, at, true), last, lastMark);
    }
  }

  lemma SameLengthInserts(msgs: seq<Message>, marks: seq<bool>, at: nat, m: Message)
    requires |msgs| == |marks| && at <= |msgs|
    ensures |Insert(msgs, at, m)| == |Insert(marks, at, true)|
  {
  }

  lemma InsertAddsOne(base: seq<Message>, full: seq<Message>, at: nat, m: Message)
    requires Adds(base, full) && at <= |full| && IsPlaceholder(m)
    ensures Adds(base, Insert(full, at, m))
  {
    var marks :| AddsAt(base, full, marks);
    EraseOfInsert(full, marks, at, m);
    assert AddsAt(base, Insert(full, at, m), Insert(marks, at, true));
  }

  lemma {:induction false} AddsNothing(base: seq<Message>)
    ensures Adds(base, base)
  {
    var marks := seq(|base|, i => false);
    EraseNothing(base, marks);
    assert AddsAt(base, base, marks);
  }

  lemma {:induction false} EraseNothing(base: seq<Message>, marks: seq<bool>)
    requires |base| == |marks| && forall i :: 0 <= i < |marks| ==> !marks[i]
    ensures Erase(base, marks) == base
  {
    if base != [] {
      EraseNothing(base[..|base| - 1], marks[..|base| - 1]);
    }
  }

  lemma {:induction false} KeptSplits(msgs: seq<Message>, lo: nat, mid: nat, hi: nat)
    requires lo <= mid <= hi <= |msgs|
    ensures Kept(msgs, lo, hi) == Kept(msgs, lo, mid) + Kept(msgs, mid, hi)
  {
    if mid < hi {
      KeptSplits(msgs, lo, mid, hi - 1);
    }
  }

  lemma {:induction false} KeptBefore(msgs: seq<Message>, at: nat, m: Message, hi: nat)
    requires hi <= at <= |msgs| && m.role.Tool?
    ensures Kept(Insert(msgs, at, m), 0, hi) == Kept(msgs, 0, hi)
  {
    if hi > 0 {
      KeptBefore(msgs, at, m, hi - 1);
      InsertKeepsMatch(msgs, at, m, hi - 1);
    }
  }

  lemma {:induction false} KeptAfter(msgs: seq<Message>, at: nat, m: Message, hi: nat)
    requires at <= hi <= |msgs| && m.role.Tool?
    ensures Kept(Insert(msgs, at, m), at + 1, hi + 1) == Kept(msgs, at, hi)
  {
    if hi > at {
      KeptAfter(msgs, at, m, hi - 1);
      InsertKeepsMatch(msgs, at, m, hi - 1);
    }
  }

  /** Inserting a matched tool message adds exactly that message to what is retained. */
  lemma RetainedOfInsert(msgs: seq<Message>, at: nat, m: Message)
    requires at <= |msgs| && m.role.Tool? && Keep(Insert(msgs, at, m), at)
    ensures var k := |Kept(msgs, 0, at)|;
      k <= |Retained(msgs)| && Retained(Insert(msgs, at, m)) == Insert(Retained(msgs), k, m)
  {
    hide Kept, Keep;
    var all := Insert(msgs, at, m);
    KeptSplits(msgs, 0, at, |msgs|);
    KeptSplits(all, 0, at, |all|);
    KeptSplits(all, at, at + 1, |all|);
    KeptBefore(msgs, at, m, at);
    KeptAfter(msgs, at, m, |msgs|);
    KeptOne(all, at);
  }

  lemma KeptOne(msgs: seq<Message>, i: nat)
    requires i < |msgs| && Keep(msgs, i)
    ensures Kept(msgs, i, i + 1) == [msgs[i]]
  {
  }

  lemma {:induction false} MissingOfInsert(msgs: seq<Message>, at: nat, m: Message, c: nat)
    requires at <= c <= |msgs| && m.role.Tool?
    ensures Missing(Insert(msgs, at, m), c + 1) == Missing(msgs, c)
    decreases |msgs| - c
  {
    if c < |msgs| {
      MissingOfInsert(msgs, at, m, c + 1);
      SameUnanswered(msgs, at, m, c);
    }
  }

  lemma SameUnanswered(msgs: seq<Message>, at: nat, m: Message, c: nat)
    requires at <= c < |msgs| && m.role.Tool?
    ensures Unanswered(Insert(msgs, at, m), c + 1) == Unanswered(msgs, c)
  {
    var all := Insert(msgs, at, m);
    forall id | id in CallIds(msgs[c]) ensures HasAnswer(all, c + 1, id) <==> HasAnswer(msgs, c, id) {
      if HasAnswer(msgs, c, id) {
        InsertKeepsAnswer(msgs, at, m, c, id);
      }
      if HasAnswer(all, c + 1, id) {
        InsertBeforeAddsNoAnswer(msgs, at, m, c, id);
      }
    }
  }

  lemma {:induction false} ToolsMissNothing(msgs: seq<Message>, lo: nat, hi: nat)
    requires lo <= hi <= |msgs| && forall k :: lo <= k < hi ==> msgs[k].role.Tool?
    ensures Missing(msgs, lo) == Missing(msgs, hi)
    decreases hi - lo
  {
    if lo < hi {
      ToolsMissNothing(msgs, lo + 1, hi);
      assert Unanswered(msgs, lo) == {};
    }
  }

  // ---------------------------------------------------------------------------
  // Answering interrupted calls
  // ---------------------------------------------------------------------------

  /** The list so far retains what the input does, plus all but the owed placeholders. */
  ghost predicate Progress(input: seq<Message>, msgs: seq<Message>, owed: nat) {
    && Adds(Retained(input), Retained(msgs))
    && |Retained(msgs)| + owed == |Retained(input)| + Missing(input, 0)
    && |msgs| + owed == |input| + Missing(input, 0)
  }

  ghost predicate AnsweredUpTo(msgs: seq<Message>, n: nat)
    requires n <= |msgs|
  {
    forall c :: 0 <= c < n ==> Answered(msgs, c)
  }

  lemma PlaceholderIsMatched(msgs: seq<Message>, ci: nat, at: nat, id: string)
    requires ci < at <= |msgs| && id in CallIds(msgs[ci]) && forall k :: ci < k < at ==> msgs[k].role.Tool?
    ensures var all := Insert(msgs, at, Placeholder(id));
      Keep(all, at) && HasAnswer(all, ci, id)
  {
    var all := Insert(msgs, at, Placeholder(id));
    assert MatchesAt(all, at, ci);
    assert AnswersAt(all, ci, id, at);
  }

  lemma PlaceholderProgress(input: seq<Message>, msgs: seq<Message>, at: nat, id: string, owed: nat)
    requires Progress(input, msgs, owed) && 0 < owed && at <= |msgs| && Keep(Insert(msgs, at, Placeholder(id)), at)
    ensures Progress(input, Insert(msgs, at, Placeholder(id)), owed - 1)
  {
    hide Adds, Retained, Keep, Missing;
    RetainedOfInsert(msgs, at, Placeholder(id));
    InsertAddsOne(Retained(input), Retained(msgs), |Kept(msgs, 0, at)|, Placeholder(id));
  }

  lemma PlaceholderKeepsMissing(msgs: seq<Message>, ci: nat, at: nat, id: string)
    requires ci < at <= |msgs| && forall k :: ci < k < at ==> msgs[k].role.Tool?
    ensures Missing(Insert(msgs, at, Placeholder(id)), ci + 1) == Missing(msgs, ci + 1)
  {
    var all := Insert(msgs, at, Placeholder(id));
    ToolsMissNothing(msgs, ci + 1, at);
    MissingOfInsert(msgs, at, Placeholder(id), at);
    ToolsMissNothing(all, ci + 1, at + 1);
  }

  lemma PlaceholderKeepsAnswered(msgs: seq<Message>, n: nat, at: nat, id: string)
    requires n <= at <= |msgs| && AnsweredUpTo(msgs, n)
    ensures AnsweredUpTo(Insert(msgs, at, Placeholder(id)), n)
  {
    var all := Insert(msgs, at, Placeholder(id));
    forall c | 0 <= c < n ensures Answered(all, c) {
      assert Answered(msgs, c);
      forall call | call in CallIds(all[c]) ensures HasAnswer(all, c, call) {
        InsertKeepsAnswer(msgs, at, Placeholder(id), c, call);
      }
    }
  }

  /** The ids of an assistant message's calls that are still unanswered. */
  method ExpectedIds(msgs: seq<Message>, ci: nat) returns (expected: set<string>)
    requires ci < |msgs| && msgs[ci].role.Assistant?
    ensures expected == Unanswered(msgs, ci)
  {
    expected := {};
    for t := 0 to |msgs[ci].calls|
      invariant expected == set k | 0 <= k < t :: msgs[ci].calls[k].id
    {
      expected := expected + {msgs[ci].calls[t].id};
    }
    assert expected == CallIds(msgs[ci]);
    var j := ci + 1;
    while j < |msgs|
      invariant ci < j <= |msgs|
      invariant forall k :: ci < k < j ==> !Boundary(msgs[k])
      invariant forall id :: id in expected <==>
        id in CallIds(msgs[ci]) && (id == "" || forall k :: ci < k < j ==> !AnswersAt(msgs, ci, id, k))
    {
      if msgs[j].role.Tool? && msgs[j].callId != "" {
        assert AnswersAt(msgs, ci, msgs[j].callId, j);
        expected := expected - {msgs[j].callId};
      } else if msgs[j].role.Assistant? || msgs[j].role.User? {
        break;
      }
      j := j + 1;
    }
    forall id | id in CallIds(msgs[ci]) ensures id in expected <==> id in Unanswered(msgs, ci) {
      if HasAnswer(msgs, ci, id) {
        var k: nat :| AnswersAt(msgs, ci, id, k);
        assert k < j;
      }
    }
  }

  /** The end of the run of tool messages right after the assistant message. */
  method RunEnd(msgs: seq<Message>, ci: nat) returns (at: nat)
    requires ci < |msgs|
    ensures ci < at <= |msgs| && forall k :: ci < k < at ==> msgs[k].role.Tool?
    ensures at < |msgs| ==> !msgs[at].role.Tool?
  {
    at := ci + 1;
    while at < |msgs| && msgs[at].role.Tool?
      invariant ci < at <= |msgs| && forall k :: ci < k < at ==> msgs[k].role.Tool?
    {
      at := at + 1;
    }
  }

  /** Inserts one placeholder after the assistant message's run of tool results. */
  method AnswerOne(ghost input: seq<Message>, start: seq<Message>, ci: nat, id: string, ghost owed: nat)
    returns (msgs: seq<Message>)
    requires ci < |start| && id in CallIds(start[ci]) && AnsweredUpTo(start, ci)
    requires Progress(input, start, owed) && 0 < owed
    ensures ci < |msgs| && msgs[..ci + 1] == start[..ci + 1] && AnsweredUpTo(msgs, ci)
    ensures Progress(input, msgs, owed - 1) && Missing(msgs, ci + 1) == Missing(start, ci + 1)
    ensures HasAnswer(msgs, ci, id) && forall other :: HasAnswer(start, ci, other) ==> HasAnswer(msgs, ci, other)
  {
    hide AnsweredUpTo, Progress, Missing, HasAnswer, Keep;
    var at := RunEnd(start, ci);
    PlaceholderIsMatched(start, ci, at, id);
    PlaceholderProgress(input, start, at, id, owed);
    PlaceholderKeepsMissing(start, ci, at, id);
    PlaceholderKeepsAnswered(start, ci, at, id);
    forall other | HasAnswer(start, ci, other) ensures HasAnswer(Insert(start, at, Placeholder(id)), ci, other) {
      InsertKeepsAnswer(start, at, Placeholder(id), ci, other);
    }
    msgs := start[..at] + [Placeholder(id)] + start[at..];
  }

  lemma OwedByCall(msgs: seq<Message>, ci: nat)
    requires ci < |msgs|
    ensures Missing(msgs, ci) == |Unanswered(msgs, ci)| + Missing(msgs, ci + 1)
    ensures Unanswered(msgs, ci) <= CallIds(msgs[ci])
    ensures forall id :: id in CallIds(msgs[ci]) && id !in Unanswered(msgs, ci) ==> HasAnswer(msgs, ci, id)
  {
  }

  lemma AnsweredNext(msgs: seq<Message>, ci: nat)
    requires ci < |msgs| && AnsweredUpTo(msgs, ci)
    requires forall id :: id in CallIds(msgs[ci]) ==> HasAnswer(msgs, ci, id)
    ensures AnsweredUpTo(msgs, ci + 1)
  {
    assert Answered(msgs, ci);
  }

  /** Answers the unanswered calls of one assistant message, in whatever order the ids come up. */
  method AnswerCalls(ghost input: seq<Message>, start: seq<Message>, ci: nat) returns (msgs: seq<Message>)
    requires ci < |start| && start[ci].role.Assistant?
    requires AnsweredUpTo(start, ci) && Progress(input, start, Missing(start, ci))
    ensures ci < |msgs| && AnsweredUpTo(msgs, ci + 1) && Progress(input, msgs, Missing(msgs, ci + 1))
    ensures msgs[..ci + 1] == start[..ci + 1]
    ensures Unanswered(start, ci) == {} ==> msgs == start
  {
    hide AnsweredUpTo, Progress, Missing, HasAnswer, Unanswered;
    OwedByCall(start, ci);
    msgs := start;
    var expected := ExpectedIds(msgs, ci);
    while expected != {}
      invariant ci < |msgs| && msgs[..ci + 1] == start[..ci + 1] && expected <= CallIds(start[ci])
      invariant AnsweredUpTo(msgs, ci)
      invariant forall id :: id in CallIds(start[ci]) && id !in expected ==> HasAnswer(msgs, ci, id)
      invariant Progress(input, msgs, |expected| + Missing(msgs, ci + 1))
      invariant Unanswered(start, ci) == {} ==> expected == {} && msgs == start
      decreases |expected|
    {
      var id :| id in expected;
      assert msgs[ci] == msgs[..ci + 1][ci] == start[ci];
      msgs := AnswerOne(input, msgs, ci, id, |expected| + Missing(msgs, ci + 1));
      expected := expected - {id};
    }
    assert msgs[ci] == msgs[..ci + 1][ci] == start[ci];
    AnsweredNext(msgs, ci);
  }

  lemma NothingUnanswered(msgs: seq<Message>, c: nat)
    requires AllAnswered(msgs) && NoEmptyIds(msgs) && c < |msgs|
    ensures Unanswered(msgs, c) == {}
  {
    assert Answered(msgs, c);
  }

  lemma NoCallsNothingOwed(msgs: seq<Message>, c: nat)
    requires c < |msgs| && CallIds(msgs[c]) == {} && AnsweredUpTo(msgs, c)
    ensures AnsweredUpTo(msgs, c + 1) && Missing(msgs, c + 1) == Missing(msgs, c)
  {
    assert Unanswered(msgs, c) == {};
  }

  /** The leading system messages are untouched. */
  ghost predicate LeadKept(input: seq<Message>, msgs: seq<Message>) {
    Lead(input) <= |msgs| && msgs[..Lead(input)] == input[..Lead(input)]
  }

  lemma LeadEndsBefore(input: seq<Message>, msgs: seq<Message>, ci: nat)
    requires LeadKept(input, msgs)
    requires ci < |msgs| && msgs[ci].role.Assistant?
    ensures Lead(input) <= ci
  {
    forall k | 0 <= k < Lead(input) ensures msgs[k].role.System? {
      assert msgs[k] == msgs[..Lead(input)][k] == input[k];
    }
  }

  lemma SameLead(input: seq<Message>, before: seq<Message>, after: seq<Message>, m: nat)
    requires LeadKept(input, before) && Lead(input) <= m <= |before| && m <= |after| && before[..m] == after[..m]
    ensures LeadKept(input, after)
  {
    assert after[..Lead(input)] == after[..m][..Lead(input)] == before[..m][..Lead(input)] == before[..Lead(input)];
  }

  lemma RepairStarts(input: seq<Message>)
    ensures AnsweredUpTo(input, 0) && Progress(input, input, Missing(input, 0)) && LeadKept(input, input)
  {
    AddsNothing(Retained(input));
  }

  lemma RepairIsOver(msgs: seq<Message>)
    requires AnsweredUpTo(msgs, |msgs|)
    ensures AllAnswered(msgs) && Missing(msgs, |msgs|) == 0
  {
  }

  lemma ProgressBoundsLength(input: seq<Message>, msgs: seq<Message>, owed: nat)
    requires Progress(input, msgs, owed)
    ensures |msgs| + owed == |input| + Missing(input, 0)
  {
  }

  /** The first pass: every assistant message in turn, over a list that grows as it goes. */
  method AnswerAllCalls(input: seq<Message>) returns (msgs: seq<Message>)
    ensures AllAnswered(msgs) && Progress(input, msgs, 0)
    ensures LeadKept(input, msgs)
    ensures AllAnswered(input) && NoEmptyIds(input) ==> msgs == input
  {
    hide *;
    msgs := input;
    RepairStarts(input);
    var ci := 0;
    while ci < |msgs|
      invariant ci <= |msgs| && AnsweredUpTo(msgs, ci) && Progress(input, msgs, Missing(msgs, ci))
      invariant LeadKept(input, msgs)
      invariant AllAnswered(input) && NoEmptyIds(input) ==> msgs == input
      decreases |input| + Missing(input, 0) - ci
    {
      ProgressBoundsLength(input, msgs, Missing(msgs, ci));
      if AllAnswered(input) && NoEmptyIds(input) {
        NothingUnanswered(msgs, ci);
      }
      if msgs[ci].role.Assistant? && msgs[ci].calls != [] {
        ghost var before := msgs;
        LeadEndsBefore(input, msgs, ci);
        msgs := AnswerCalls(input, msgs, ci);
        SameLead(input, before, msgs, ci + 1);
      } else {
        NoCallsNoIds(msgs[ci]);
        NoCallsNothingOwed(msgs, ci);
      }
      ci := ci + 1;
    }
    RepairIsOver(msgs);
  }

  lemma NoCallsNoIds(m: Message)
    requires !m.role.Assistant? || m.calls == []
    ensures CallIds(m) == {}
  {
  }

  // ---------------------------------------------------------------------------
  // Dropping orphaned tool messages
  // ---------------------------------------------------------------------------

  lemma RemoveThenInsert<T>(s: seq<T>, i: nat)
    requires i < |s|
    ensures Insert(Remove(s, i), i, s[i]) == s
  {
  }

  /** Dropping an orphan takes no call's answer away. */
  lemma RemoveKeepsAnswered(msgs: seq<Message>, i: nat)
    requires i < |msgs| && AllAnswered(msgs) && !Keep(msgs, i)
    ensures AllAnswered(Remove(msgs, i))
  {
    var less := Remove(msgs, i);
    forall c | 0 <= c < |less| ensures Answered(less, c) {
      assert Answered(msgs, Shift(i, c));
      forall id | id in CallIds(less[c]) ensures HasAnswer(less, c, id) {
        AnswerOutlivesOrphan(msgs, i, c, id);
      }
    }
  }

  lemma AnswerIsMatched(msgs: seq<Message>, c: nat, id: string, j: nat)
    requires AnswersAt(msgs, c, id, j) && id in CallIds(msgs[c])
    ensures Matched(msgs, j)
  {
    assert MatchesAt(msgs, j, c);
  }

  lemma AnswerOutlivesOrphan(msgs: seq<Message>, i: nat, c: nat, id: string)
    requires i < |msgs| && c < |msgs| - 1 && !Keep(msgs, i)
    requires id in CallIds(msgs[Shift(i, c)]) && HasAnswer(msgs, Shift(i, c), id)
    ensures HasAnswer(Remove(msgs, i), c, id)
  {
    var less := Remove(msgs, i);
    var j: nat :| AnswersAt(msgs, Shift(i, c), id, j);
    AnswerIsMatched(msgs, Shift(i, c), id, j);
    assert j != i;
    assert AnswersAt(less, c, id, if j < i then j else j - 1);
  }

  lemma RemoveKeepsKeep(msgs: seq<Message>, i: nat, k: nat)
    requires i < |msgs| && msgs[i].role.Tool? && k < |msgs| - 1
    ensures Keep(Remove(msgs, i), k) <==> Keep(msgs, Shift(i, k))
  {
    RemoveThenInsert(msgs, i);
    InsertKeepsMatch(Remove(msgs, i), i, msgs[i], k);
  }

  lemma KeepDependsOnPrefix(msgs: seq<Message>, other: seq<Message>, i: nat)
    requires i < |msgs| && i < |other| && msgs[..i + 1] == other[..i + 1]
    ensures Keep(msgs, i) <==> Keep(other, i)
  {
    assert forall k :: 0 <= k <= i ==> msgs[k] == msgs[..i + 1][k] == other[..i + 1][k] == other[k];
    if Matched(msgs, i) {
      var j: nat :| MatchesAt(msgs, i, j);
      assert MatchesAt(other, i, j);
    }
    if Matched(other, i) {
      var j: nat :| MatchesAt(other, i, j);
      assert MatchesAt(msgs, i, j);
    }
  }

  /** Looks backwards for the assistant message that issued the call, no further than a user message. */
  method HasMatch(msgs: seq<Message>, i: nat) returns (hasMatch: bool)
    requires i < |msgs|
    ensures hasMatch <==> Matched(msgs, i)
  {
    hasMatch := false;
    var j := i;
    while j > 0
      invariant 0 <= j <= i && !hasMatch
      invariant forall k :: j <= k < i ==> !msgs[k].role.User? && msgs[i].callId !in CallIds(msgs[k])
    {
      j := j - 1;
      if msgs[j].role.Assistant? {
        for t := 0 to |msgs[j].calls|
          invariant !hasMatch && forall k :: 0 <= k < t ==> msgs[j].calls[k].id != msgs[i].callId
        {
          if msgs[j].calls[t].id == msgs[i].callId {
            assert MatchesAt(msgs, i, j);
            return true;
          }
        }
      }
      if msgs[j].role.User? {
        assert forall k: nat :: j <= k < i ==> !MatchesAt(msgs, i, k);
        return false;
      }
    }
  }

  /** The second pass, backwards: drops every tool message without its call. */
  method DropOrphans(answered: seq<Message>) returns (msgs: seq<Message>)
    requires AllAnswered(answered)
    ensures Paired(msgs) && msgs == Retained(answered)
    ensures NoOrphans(answered) ==> msgs == answered
  {
    msgs := answered;
    var i := |msgs|;
    assert Kept(answered, |answered|, |answered|) == [];
    while i > 0
      invariant 0 <= i <= |answered| && i <= |msgs| && AllAnswered(msgs)
      invariant msgs == answered[..i] + Kept(answered, i, |answered|)
      invariant forall k :: i <= k < |msgs| ==> Keep(msgs, k)
      invariant NoOrphans(answered) ==> msgs == answered
    {
      hide AllAnswered, NoOrphans, Keep, Kept;
      ghost var before := msgs;
      i := i - 1;
      KeptFrom(answered, i);
      assert msgs[..i + 1] == answered[..i + 1];
      KeepDependsOnPrefix(msgs, answered, i);
      var keep := true;
      if msgs[i].role.Tool? && msgs[i].callId != "" {
        keep := HasMatch(msgs, i);
      }
      KeepMeans(msgs, i, keep);
      if !keep {
        RemoveKeepsAnswered(msgs, i);
        forall k | i <= k < |msgs| - 1 ensures Keep(Remove(msgs, i), k) {
          RemoveKeepsKeep(msgs, i, k);
        }
        OrphanFound(answered, i);
        msgs := msgs[..i] + msgs[i + 1..];
      }
    }
  }

  lemma KeptFrom(msgs: seq<Message>, i: nat)
    requires i < |msgs|
    ensures Kept(msgs, i, |msgs|) == (if Keep(msgs, i) then [msgs[i]] else []) + Kept(msgs, i + 1, |msgs|)
  {
    KeptSplits(msgs, i, i + 1, |msgs|);
  }

  lemma KeepMeans(msgs: seq<Message>, i: nat, keep: bool)
    requires i < |msgs|
    requires keep == (!msgs[i].role.Tool? || msgs[i].callId == "" || Matched(msgs, i))
    ensures keep == Keep(msgs, i)
    ensures !keep ==> msgs[i].role.Tool?
  {
  }

  lemma OrphanFound(msgs: seq<Message>, i: nat)
    requires i < |msgs| && !Keep(msgs, i)
    ensures !NoOrphans(msgs)
  {
  }

  // ---------------------------------------------------------------------------
  // The whole repair
  // ---------------------------------------------------------------------------

  /**
   Whatever the order in which unanswered ids come up: the result is paired, and it is the
   input without its orphaned tool messages, in order, with exactly one placeholder for each
   unanswered call.
   */
  method SanitizeChatMessages(input: seq<Message>) returns (msgs: seq<Message>)
    ensures Paired(msgs)
    ensures Adds(Retained(input), msgs)
    ensures |msgs| == |Retained(input)| + Missing(input, 0)
    ensures LeadKept(input, msgs)
    ensures Paired(input) && NoEmptyIds(input) ==> msgs == input
  {
    hide *;
    var answered := AnswerAllCalls(input);
    msgs := DropOrphans(answered);
    ProgressDone(input, answered);
    LeadSurvives(input, answered);
    PairedMeans(input);
    if Paired(input) && NoEmptyIds(input) {
      assert answered == input;
    }
  }

  lemma LeadSurvives(input: seq<Message>, msgs: seq<Message>)
    requires LeadKept(input, msgs)
    ensures LeadKept(input, Retained(msgs))
  {
    forall k | 0 <= k < Lead(input) ensures msgs[k].role.System? {
      assert msgs[k] == msgs[..Lead(input)][k] == input[k];
    }
    SystemsAreRetained(msgs, Lead(input));
  }

  lemma {:induction false} SystemsAreRetained(msgs: seq<Message>, n: nat)
    requires n <= |msgs| && forall k :: 0 <= k < n ==> msgs[k].role.System?
    ensures n <= |Retained(msgs)| && Retained(msgs)[..n] == msgs[..n]
  {
    KeptSplits(msgs, 0, n, |msgs|);
    SystemsAreKept(msgs, n);
  }

  lemma {:induction false} SystemsAreKept(msgs: seq<Message>, n: nat)
    requires n <= |msgs| && forall k :: 0 <= k < n ==> msgs[k].role.System?
    ensures Kept(msgs, 0, n) == msgs[..n]
  {
    if n > 0 {
      SystemsAreKept(msgs, n - 1);
    }
  }

  lemma PairedMeans(msgs: seq<Message>)
    ensures Paired(msgs) <==> AllAnswered(msgs) && NoOrphans(msgs)
  {
  }

  lemma ProgressDone(input: seq<Message>, msgs: seq<Message>)
    requires Progress(input, msgs, 0)
    ensures Adds(Retained(input), Retained(msgs)) && |Retained(msgs)| == |Retained(input)| + Missing(input, 0)
  {
  }

  /** The messages that are not tool results, in order. */
  function NonTools(msgs: seq<Message>): seq<Message> {
    if msgs == [] then []
    else
      var last := msgs[|msgs| - 1];
      NonTools(msgs[..|msgs| - 1]) + if last.role.Tool? then [] else [last]
  }

  lemma NonToolsOfAppend(msgs: seq<Message>, m: Message)
    ensures NonTools(msgs + [m]) == if m.role.Tool? then NonTools(msgs) else NonTools(msgs) + [m]
  {
    assert (msgs + [m])[..|msgs|] == msgs;
  }

  lemma EraseLast(msgs: seq<Message>, marks: seq<bool>)
    requires |msgs| == |marks| && msgs != []
    ensures var erased := Erase(msgs[..|msgs| - 1], marks[..|msgs| - 1]);
      Erase(msgs, marks) == if marks[|msgs| - 1] then erased else erased + [msgs[|msgs| - 1]]
  {
  }

  lemma {:induction false} NonToolsOfErase(msgs: seq<Message>, marks: seq<bool>)
    requires |msgs| == |marks| && forall i :: 0 <= i < |msgs| && marks[i] ==> IsPlaceholder(msgs[i])
    ensures NonTools(Erase(msgs, marks)) == NonTools(msgs)
  {
    if msgs != [] {
      var init, last, mark := msgs[..|msgs| - 1], msgs[|msgs| - 1], marks[|msgs| - 1];
      NonToolsOfErase(init, marks[..|msgs| - 1]);
      assert mark ==> last.role.Tool?;
      assert NonTools(msgs) == if last.role.Tool? then NonTools(init) else NonTools(init) + [last];
      EraseLast(msgs, marks);
      hide Erase, NonTools, IsPlaceholder;
      NonToolsOfAppend(Erase(init, marks[..|msgs| - 1]), last);
    }
  }

  lemma KeptStep(msgs: seq<Message>, n: nat)
    requires 0 < n <= |msgs|
    ensures Kept(msgs, 0, n) == Kept(msgs, 0, n - 1) + [msgs[n - 1]]
         || (Kept(msgs, 0, n) == Kept(msgs, 0, n - 1) && msgs[n - 1].role.Tool?)
    ensures msgs[..n] == msgs[..n - 1] + [msgs[n - 1]]
  {
  }

  lemma {:induction false} NonToolsOfKept(msgs: seq<Message>, n: nat)
    requires n <= |msgs|
    ensures NonTools(Kept(msgs, 0, n)) == NonTools(msgs[..n])
  {
    if n > 0 {
      hide Kept, NonTools;
      NonToolsOfKept(msgs, n - 1);
      KeptStep(msgs, n);
      NonToolsOfAppend(msgs[..n - 1], msgs[n - 1]);
      NonToolsOfAppend(Kept(msgs, 0, n - 1), msgs[n - 1]);
    }
  }

  /** The repair leaves every message that is not a tool result in place and in order. */
  lemma RepairKeepsNonTools(input: seq<Message>, msgs: seq<Message>)
    requires Adds(Retained(input), msgs)
    ensures NonTools(msgs) == NonTools(input)
  {
    var marks :| AddsAt(Retained(input), msgs, marks);
    NonToolsOfErase(msgs, marks);
    NonToolsOfKept(input, |input|);
    assert input[..|input|] == input;
  }

  lemma {:induction false} ErasedElements(full: seq<Message>, marks: seq<bool>)
    requires |full| == |marks| && forall i :: 0 <= i < |full| && marks[i] ==> IsPlaceholder(full[i])
    ensures forall m :: m in Erase(full, marks) ==> m in full
    ensures forall m :: m in full ==> m in Erase(full, marks) || IsPlaceholder(m)
  {
    if full != [] {
      ErasedElements(full[..|full| - 1], marks[..|full| - 1]);
      assert full == full[..|full| - 1] + [full[|full| - 1]];
    }
  }

  lemma {:induction false} KeptElements(msgs: seq<Message>, n: nat)
    requires n <= |msgs|
    ensures forall i :: 0 <= i < n && Keep(msgs, i) ==> msgs[i] in Kept(msgs, 0, n)
    ensures forall m :: m in Kept(msgs, 0, n) ==> m in msgs
  {
    if n > 0 {
      hide Keep;
      KeptElements(msgs, n - 1);
    }
  }

  /** Message j is a result of a call of message c, before the next assistant or user message. */
  ghost predicate IsAnswer(msgs: seq<Message>, c: nat, j: nat) {
    && c < |msgs| && j < |msgs|
    && msgs[j].callId in CallIds(msgs[c]) && AnswersAt(msgs, c, msgs[j].callId, j)
  }

  lemma AnswersAreNoOrphans(msgs: seq<Message>, c: nat, j: nat)
    requires IsAnswer(msgs, c, j)
    ensures Keep(msgs, j)
  {
    assert MatchesAt(msgs, j, c);
  }

  /** No result of a call is lost: the repaired history holds it, and nothing new but placeholders. */
  lemma RepairKeepsAnswers(input: seq<Message>, msgs: seq<Message>)
    requires Adds(Retained(input), msgs)
    ensures forall c: nat, j: nat :: IsAnswer(input, c, j) ==> input[j] in msgs
    ensures forall m :: m in msgs ==> m in input || (m.role.Tool? && m.content == INTERRUPTED)
  {
    var marks :| AddsAt(Retained(input), msgs, marks);
    ErasedElements(msgs, marks);
    KeptElements(input, |input|);
    hide Keep, CallIds, Erase, Kept, AnswersAt;
    forall c: nat, j: nat | IsAnswer(input, c, j) ensures input[j] in msgs {
      AnswersAreNoOrphans(input, c, j);
    }
  }

  lemma {:induction false} EmptyIdsAreInNonTools(msgs: seq<Message>)
    ensures NoEmptyIds(msgs) <==> NoEmptyIds(NonTools(msgs))
  {
    if msgs != [] {
      var init, last := msgs[..|msgs| - 1], msgs[|msgs| - 1];
      EmptyIdsAreInNonTools(init);
      NonToolsOfAppend(init, last);
      NoEmptyIdsOfAppend(init, last);
      NoEmptyIdsOfAppend(NonTools(init), last);
      assert init + [last] == msgs;
    }
  }

  lemma NoEmptyIdsOfAppend(msgs: seq<Message>, m: Message)
    ensures NoEmptyIds(msgs + [m]) <==> NoEmptyIds(msgs) && "" !in CallIds(m)
  {
    assert (msgs + [m])[|msgs|] == m;
    if NoEmptyIds(msgs + [m]) {
      forall c | 0 <= c < |msgs| ensures "" !in CallIds(msgs[c]) {
        assert (msgs + [m])[c] == msgs[c];
      }
    }
  }

  lemma {:induction false} PairedOwesOnlyEmptyIds(msgs: seq<Message>, c: nat)
    requires AllAnswered(msgs) && c <= |msgs|
    ensures Missing(msgs, c) == 0 <==> forall k :: c <= k < |msgs| ==> "" !in CallIds(msgs[k])
    decreases |msgs| - c
  {
    if c < |msgs| {
      PairedOwesOnlyEmptyIds(msgs, c + 1);
      assert Answered(msgs, c);
      assert "" in CallIds(msgs[c]) ==> "" in Unanswered(msgs, c);
      assert "" !in CallIds(msgs[c]) ==> Unanswered(msgs, c) == {};
    }
  }

  lemma {:induction false} NothingToDrop(msgs: seq<Message>, n: nat)
    requires NoOrphans(msgs) && n <= |msgs|
    ensures Kept(msgs, 0, n) == msgs[..n]
  {
    if n > 0 {
      NothingToDrop(msgs, n - 1);
      assert Keep(msgs, n - 1);
    }
  }

  /** Repairing a repaired history changes nothing, if and only if no tool call has an empty id. */
  method RepairTwice(input: seq<Message>) returns (once: seq<Message>, twice: seq<Message>)
    ensures twice == once <==> NoEmptyIds(input)
  {
    once := SanitizeChatMessages(input);
    twice := SanitizeChatMessages(once);
    RepairKeepsNonTools(input, once);
    EmptyIdsAreInNonTools(input);
    EmptyIdsAreInNonTools(once);
    PairedOwesOnlyEmptyIds(once, 0);
    NothingToDrop(once, |once|);
    assert once[..|once|] == once;
  }
}
