/**
 Queued subagent tasks run in parallel: one dispatcher, a semaphore of three slots, one goroutine
 per fetched task, a shared result list, the tasks' stored statuses and the session's totals.
 */
module SubagentTasks {

  import opened SessionUsage

  const MAX_SUBAGENT_PARALLELISM := 3

  datatype Result = Result(task: nat, error: string, tokensIn: nat, tokensOut: nat)

  datatype Status = Queued | Running | Completed | Failed

  /** Where a task is; the later phases carry the result of its loop. */
  datatype Phase =
    | Unseen
    | Skipped
    | Fetched
    | Spawned
    | Marked
    | Looped(r: Result)
    | Stored(r: Result)
    | Billed(r: Result)
    | Reported(r: Result)
    | Released(r: Result)
    | Done(r: Result)

  predicate HasResult(p: Phase) {
    p.Looped? || p.Stored? || p.Billed? || p.Reported? || p.Released? || p.Done?
  }

  /** The goroutine holds a slot of the semaphore. */
  predicate HoldsSlot(p: Phase) {
    p.Spawned? || p.Marked? || p.Looped? || p.Stored? || p.Billed? || p.Reported?
  }

  /** The goroutine is counted by the wait group. */
  predicate Counted(p: Phase) {
    HoldsSlot(p) || p.Released?
  }

  predicate IsListed(p: Phase) {
    p.Reported? || p.Released? || p.Done?
  }

  predicate IsStored(p: Phase) {
    p.Stored? || p.Billed? || IsListed(p)
  }

  function FinalStatus(r: Result): Status {
    if r.error != "" then Failed else Completed
  }

  function Bill(r: Result): Delta {
    Delta(0, 0, 0, 0, 1, r.tokensIn, r.tokensOut, 0, 0)
  }

  datatype State = State(next: nat, phases: seq<Phase>, statuses: seq<Status>, slots: nat, waiting: nat,
                         results: seq<Result>, usage: Usage, returned: bool)

  datatype Step =
    | Fetch(ok: bool)
    | Acquire
    | MarkRunning(task: nat)
    | Loop(task: nat, r: Result)
    | StoreFinal(task: nat)
    | BillSession(task: nat)
    | Report(task: nat)
    | Release(task: nat)
    | Finish(task: nat)
    | Return

  predicate At(s: State, task: nat) {
    task < |s.phases|
  }

  predicate Enabled(s: State, a: Step)
    requires |s.statuses| == |s.phases|
  {
    match a
    case Fetch(_) => At(s, s.next) && s.phases[s.next].Unseen?
    case Acquire => At(s, s.next) && s.phases[s.next].Fetched? && s.slots < MAX_SUBAGENT_PARALLELISM
    case MarkRunning(t) => At(s, t) && s.phases[t].Spawned?
    case Loop(t, r) => At(s, t) && s.phases[t].Marked? && r.task == t
    case StoreFinal(t) => At(s, t) && s.phases[t].Looped?
    case BillSession(t) => At(s, t) && s.phases[t].Stored?
    case Report(t) => At(s, t) && s.phases[t].Billed?
    case Release(t) => At(s, t) && s.phases[t].Reported? && s.slots > 0
    case Finish(t) => At(s, t) && s.phases[t].Released? && s.waiting > 0
    case Return => s.next == |s.phases| && s.waiting == 0
  }

  function Put(s: State, t: nat, p: Phase): State
    requires t < |s.phases|
  {
    s.(phases := s.phases[t := p])
  }

  function Next(s: State, a: Step): State
    requires |s.statuses| == |s.phases| && Enabled(s, a)
  {
    match a
    case Fetch(ok) => if ok then Put(s, s.next, Fetched) else Put(s, s.next, Skipped).(next := s.next + 1)
    case Acquire => Put(s, s.next, Spawned).(next := s.next + 1, slots := s.slots + 1, waiting := s.waiting + 1)
    case MarkRunning(t) => Put(s, t, Marked).(statuses := s.statuses[t := Running])
    case Loop(t, r) => Put(s, t, Looped(r))
    case StoreFinal(t) => Put(s, t, Stored(s.phases[t].r)).(statuses := s.statuses[t := FinalStatus(s.phases[t].r)])
    case BillSession(t) => Put(s, t, Billed(s.phases[t].r)).(usage := Accrued(s.usage, Bill(s.phases[t].r)))
    case Report(t) => Put(s, t, Reported(s.phases[t].r)).(results := s.results + [s.phases[t].r])
    case Release(t) => Put(s, t, Released(s.phases[t].r)).(slots := s.slots - 1)
    case Finish(t) => Put(s, t, Done(s.phases[t].r)).(waiting := s.waiting - 1)
    case Return => s.(returned := true)
  }

  // ---------------------------------------------------------------------------
  // Sums over the tasks
  // ---------------------------------------------------------------------------

  function Sum(phases: seq<Phase>, w: Phase -> nat): nat {
    if phases == [] then 0 else Sum(phases[..|phases| - 1], w) + w(phases[|phases| - 1])
  }

  lemma {:induction false} SumUpdate(phases: seq<Phase>, w: Phase -> nat, t: nat, p: Phase)
    requires t < |phases|
    ensures Sum(phases[t := p], w) + w(phases[t]) == Sum(phases, w) + w(p)
  {
    var n := |phases| - 1;
    if t == n {
      assert phases[t := p][..n] == phases[..n];
    } else {
      SumUpdate(phases[..n], w, t, p);
      assert phases[t := p][..n] == phases[..n][t := p];
    }
  }

  lemma {:induction false} SumBounds(phases: seq<Phase>, w: Phase -> nat, t: nat)
    requires t < |phases|
    ensures w(phases[t]) <= Sum(phases, w)
  {
    if t < |phases| - 1 {
      SumBounds(phases[..|phases| - 1], w, t);
    }
  }

  function Slot(p: Phase): nat { if HoldsSlot(p) then 1 else 0 }
  function Wait(p: Phase): nat { if Counted(p) then 1 else 0 }
  function Unlisted(p: Phase): nat { if p.Billed? then 1 else 0 }
  function UnlistedIn(p: Phase): nat { if p.Billed? then p.r.tokensIn else 0 }
  function UnlistedOut(p: Phase): nat { if p.Billed? then p.r.tokensOut else 0 }

  function TokensIn(results: seq<Result>): nat {
    if results == [] then 0 else TokensIn(results[..|results| - 1]) + results[|results| - 1].tokensIn
  }

  function TokensOut(results: seq<Result>): nat {
    if results == [] then 0 else TokensOut(results[..|results| - 1]) + results[|results| - 1].tokensOut
  }

  lemma TokensAppend(results: seq<Result>, r: Result)
    ensures TokensIn(results + [r]) == TokensIn(results) + r.tokensIn
    ensures TokensOut(results + [r]) == TokensOut(results) + r.tokensOut
  {
    assert (results + [r])[..|results|] == results;
  }

  // ---------------------------------------------------------------------------
  // What every interleaving keeps
  // ---------------------------------------------------------------------------

  /** The counters count, and at most three goroutines run. */
  ghost predicate CountersRight(s: State) {
    && s.slots == Sum(s.phases, Slot) && s.waiting == Sum(s.phases, Wait)
    && s.slots <= MAX_SUBAGENT_PARALLELISM
  }

  /** The dispatcher works through the tasks in order. */
  ghost predicate InOrder(next: nat, phases: seq<Phase>) {
    && next <= |phases|
    && (forall t :: 0 <= t < next ==> !phases[t].Unseen? && !phases[t].Fetched?)
    && (forall t :: next < t < |phases| ==> phases[t].Unseen?)
    && (next < |phases| ==> phases[next].Unseen? || phases[next].Fetched?)
  }

  /** A stored task has its final status, a running one is marked so. */
  predicate StatusRight(p: Phase, status: Status, t: nat) {
    && (HasResult(p) ==> p.r.task == t)
    && (IsStored(p) ==> status == FinalStatus(p.r))
    && (p.Marked? || p.Looped? ==> status == Running)
  }

  ghost predicate StatusesRight(s: State) {
    && |s.statuses| == |s.phases|
    && forall t :: 0 <= t < |s.phases| ==> StatusRight(s.phases[t], s.statuses[t], t)
  }

  /** The result list holds the result of each listed task, once, and nothing else. */
  ghost predicate ResultsRight(results: seq<Result>, phases: seq<Phase>) {
    && (forall i :: 0 <= i < |results| ==> var t := results[i].task;
         t < |phases| && IsListed(phases[t]) && phases[t].r == results[i])
    && (forall i, j :: 0 <= i < j < |results| ==> results[i].task != results[j].task)
    && (forall t :: 0 <= t < |phases| && IsListed(phases[t]) ==> phases[t].r in results)
  }

  /** The session has been billed for the listed results and for those about to be listed. */
  ghost predicate UsageRight(s: State, start: Usage) {
    s.usage == start.(subagentInput := start.subagentInput + TokensIn(s.results) + Sum(s.phases, UnlistedIn),
                      subagentOutput := start.subagentOutput + TokensOut(s.results) + Sum(s.phases, UnlistedOut),
                      modelCalls := start.modelCalls + |s.results| + Sum(s.phases, Unlisted))
  }

  ghost predicate Sound(s: State, start: Usage) {
    && CountersRight(s) && InOrder(s.next, s.phases) && StatusesRight(s)
    && ResultsRight(s.results, s.phases) && UsageRight(s, start)
  }

  /** The task a step moves and the phase it moves to; Return moves none. */
  function Mover(s: State, a: Step): nat {
    match a
    case Fetch(_) => s.next
    case Acquire => s.next
    case MarkRunning(t) => t
    case Loop(t, _) => t
    case StoreFinal(t) => t
    case BillSession(t) => t
    case Report(t) => t
    case Release(t) => t
    case Finish(t) => t
    case Return => 0
  }

  lemma MoverMoves(s: State, a: Step)
    requires |s.statuses| == |s.phases| && Enabled(s, a) && !a.Return?
    ensures var t := Mover(s, a); t < |s.phases| && Next(s, a).phases == s.phases[t := Next(s, a).phases[t]]
  {
  }

  lemma NextKeepsCounters(s: State, a: Step)
    requires StatusesRight(s) && CountersRight(s) && Enabled(s, a)
    ensures CountersRight(Next(s, a))
  {
    hide Sum, StatusRight;
    if !a.Return? {
      MoverMoves(s, a);
      SlotsMove(s, a);
      var t := Mover(s, a);
      SumUpdate(s.phases, Slot, t, Next(s, a).phases[t]);
      SumUpdate(s.phases, Wait, t, Next(s, a).phases[t]);
      hide StatusesRight, Next, Enabled, Mover, Slot, Wait;
    }
  }

  /** A step moves the counters as it moves its task. */
  lemma SlotsMove(s: State, a: Step)
    requires |s.statuses| == |s.phases| && Enabled(s, a) && !a.Return?
    ensures var p, q := s.phases[Mover(s, a)], Next(s, a).phases[Mover(s, a)];
      && Next(s, a).slots + Slot(p) == s.slots + Slot(q)
      && Next(s, a).waiting + Wait(p) == s.waiting + Wait(q)
    ensures Next(s, a).slots <= MAX_SUBAGENT_PARALLELISM || Next(s, a).slots <= s.slots
  {
  }

  /** A goroutine's step moves a task the dispatcher is done with. */
  lemma GoroutineKeepsOrder(next: nat, phases: seq<Phase>, t: nat, p: Phase)
    requires InOrder(next, phases) && t < |phases| && !phases[t].Unseen? && !phases[t].Fetched?
    requires !p.Unseen? && !p.Fetched?
    ensures InOrder(next, phases[t := p])
  {
  }

  lemma DispatcherKeepsOrder(next: nat, phases: seq<Phase>, p: Phase)
    requires InOrder(next, phases) && next < |phases| && !p.Unseen?
    ensures InOrder(if p.Fetched? then next else next + 1, phases[next := p])
  {
  }

  lemma NextKeepsOrder(s: State, a: Step)
    requires |s.statuses| == |s.phases| && InOrder(s.next, s.phases) && Enabled(s, a)
    ensures InOrder(Next(s, a).next, Next(s, a).phases)
  {
    hide InOrder;
    if !a.Return? {
      MoverMoves(s, a);
      var t := Mover(s, a);
      var p := Next(s, a).phases[t];
      if a.Fetch? || a.Acquire? {
        DispatcherKeepsOrder(s.next, s.phases, p);
      } else {
        GoroutineKeepsOrder(s.next, s.phases, t, p);
      }
    }
  }

  lemma MovedStatusIsRight(s: State, a: Step)
    requires StatusesRight(s) && Enabled(s, a) && !a.Return?
    ensures var t := Mover(s, a); StatusRight(Next(s, a).phases[t], Next(s, a).statuses[t], t)
  {
    assert StatusRight(s.phases[Mover(s, a)], s.statuses[Mover(s, a)], Mover(s, a));
    hide HasResult, IsStored, StatusesRight;
    StatusMovesOn(s, a);
  }

  lemma StatusMovesOn(s: State, a: Step)
    requires |s.statuses| == |s.phases| && Enabled(s, a) && !a.Return?
    requires StatusRight(s.phases[Mover(s, a)], s.statuses[Mover(s, a)], Mover(s, a))
    ensures var t := Mover(s, a); StatusRight(Next(s, a).phases[t], Next(s, a).statuses[t], t)
  {
  }

  lemma OtherStatusesStay(s: State, a: Step)
    requires |s.statuses| == |s.phases| && Enabled(s, a) && !a.Return?
    ensures |Next(s, a).statuses| == |s.statuses|
    ensures forall t :: 0 <= t < |s.statuses| && t != Mover(s, a) ==> Next(s, a).statuses[t] == s.statuses[t]
  {
  }

  lemma NextKeepsStatuses(s: State, a: Step)
    requires StatusesRight(s) && Enabled(s, a)
    ensures StatusesRight(Next(s, a))
  {
    if a.Return? {
    } else {
      MoverMoves(s, a);
      OtherStatusesStay(s, a);
      MovedStatusIsRight(s, a);
      hide Next, Enabled, Mover, StatusRight;
    }
  }

  lemma MoveKeepsResults(results: seq<Result>, phases: seq<Phase>, t: nat, p: Phase)
    requires ResultsRight(results, phases) && t < |phases|
    requires IsListed(p) == IsListed(phases[t]) && (IsListed(p) ==> p.r == phases[t].r)
    ensures ResultsRight(results, phases[t := p])
  {
  }

  lemma ReportKeepsResults(results: seq<Result>, phases: seq<Phase>, t: nat, r: Result)
    requires ResultsRight(results, phases) && t < |phases| && !IsListed(phases[t]) && r.task == t
    ensures ResultsRight(results + [r], phases[t := Reported(r)])
  {
    var after, list := phases[t := Reported(r)], results + [r];
    forall k | 0 <= k < |after| && IsListed(after[k]) ensures after[k].r in list {
      if k == t {
        assert list[|results|] == r;
      } else {
        assert after[k].r in results;
      }
    }
  }

  lemma NextKeepsResults(s: State, a: Step)
    requires StatusesRight(s) && ResultsRight(s.results, s.phases) && Enabled(s, a)
    ensures ResultsRight(Next(s, a).results, Next(s, a).phases)
  {
    hide ResultsRight;
    if a.Report? {
      ReportKeepsResults(s.results, s.phases, a.task, s.phases[a.task].r);
    } else if !a.Return? {
      MoverMoves(s, a);
      MoveKeepsResults(s.results, s.phases, Mover(s, a), Next(s, a).phases[Mover(s, a)]);
    }
  }

  lemma UnlistedMoves(phases: seq<Phase>, t: nat, p: Phase)
    requires t < |phases|
    ensures Sum(phases[t := p], Unlisted) + Unlisted(phases[t]) == Sum(phases, Unlisted) + Unlisted(p)
    ensures Sum(phases[t := p], UnlistedIn) + UnlistedIn(phases[t]) == Sum(phases, UnlistedIn) + UnlistedIn(p)
    ensures Sum(phases[t := p], UnlistedOut) + UnlistedOut(phases[t]) == Sum(phases, UnlistedOut) + UnlistedOut(p)
  {
    SumUpdate(phases, Unlisted, t, p);
    SumUpdate(phases, UnlistedIn, t, p);
    SumUpdate(phases, UnlistedOut, t, p);
  }

  /** Only billing changes the usage, only reporting the results; other steps move no billed task. */
  lemma OthersLeaveUsage(s: State, a: Step)
    requires |s.statuses| == |s.phases| && Enabled(s, a) && !a.Return? && !a.BillSession? && !a.Report?
    ensures Next(s, a).usage == s.usage && Next(s, a).results == s.results
    ensures !s.phases[Mover(s, a)].Billed? && !Next(s, a).phases[Mover(s, a)].Billed?
  {
  }

  lemma NextKeepsUsage(s: State, a: Step, start: Usage)
    requires StatusesRight(s) && UsageRight(s, start) && Enabled(s, a)
    ensures UsageRight(Next(s, a), start)
  {
    hide Sum, TokensIn, TokensOut, StatusRight;
    if !a.Return? {
      MoverMoves(s, a);
      UnlistedMoves(s.phases, Mover(s, a), Next(s, a).phases[Mover(s, a)]);
      if a.Report? {
        TokensAppend(s.results, s.phases[a.task].r);
      } else if !a.BillSession? {
        OthersLeaveUsage(s, a);
        hide Next, Enabled, Mover, StatusesRight;
      }
    }
  }

  ghost predicate Start(s: State) {
    && s.next == 0 && s.slots == 0 && s.waiting == 0 && s.results == [] && !s.returned
    && |s.statuses| == |s.phases|
    && forall t :: 0 <= t < |s.phases| ==> s.phases[t] == Unseen && s.statuses[t] == Queued
  }

  ghost predicate Trace(states: seq<State>, steps: seq<Step>) {
    && |states| == |steps| + 1
    && (forall i :: 0 <= i < |states| ==> |states[i].statuses| == |states[i].phases|)
    && forall i :: 0 <= i < |steps| ==>
         !states[i].returned && Enabled(states[i], steps[i]) && states[i + 1] == Next(states[i], steps[i])
  }

  lemma {:induction false} UnseenSum(phases: seq<Phase>, w: Phase -> nat)
    requires w(Unseen) == 0 && forall t :: 0 <= t < |phases| ==> phases[t] == Unseen
    ensures Sum(phases, w) == 0
  {
    if phases != [] {
      UnseenSum(phases[..|phases| - 1], w);
    }
  }

  lemma StartIsSound(s: State)
    requires Start(s)
    ensures Sound(s, s.usage)
  {
    UnseenSum(s.phases, Slot);
    UnseenSum(s.phases, Wait);
    UnseenSum(s.phases, Unlisted);
    UnseenSum(s.phases, UnlistedIn);
    UnseenSum(s.phases, UnlistedOut);
    hide Sum;
  }

  lemma TraceSteps(states: seq<State>, steps: seq<Step>, n: nat)
    requires Trace(states, steps) && n < |steps|
    ensures |states| == |steps| + 1 && |states[n].statuses| == |states[n].phases|
    ensures Enabled(states[n], steps[n]) && states[n + 1] == Next(states[n], steps[n])
  {
    assert |states[n].statuses| == |states[n].phases|;
  }

  /**
   In every interleaving at most three tasks hold a slot, statuses and results fit, and the
   session is billed exactly.
   */
  lemma {:induction false} TraceStaysSound(states: seq<State>, steps: seq<Step>, n: nat)
    requires Trace(states, steps) && Start(states[0]) && n < |states|
    ensures Sound(states[n], states[0].usage)
  {
    if n == 0 {
      StartIsSound(states[0]);
    } else {
      TraceStaysSound(states, steps, n - 1);
      var s, a := states[n - 1], steps[n - 1];
      assert |s.statuses| == |s.phases| && Enabled(s, a);
      assert states[n] == Next(s, a);
      hide CountersRight, InOrder, StatusesRight, ResultsRight, UsageRight, Enabled, Next;
      NextKeepsCounters(s, a);
      NextKeepsOrder(s, a);
      NextKeepsStatuses(s, a);
      NextKeepsResults(s, a);
      NextKeepsUsage(s, a, states[0].usage);
    }
  }

  // ---------------------------------------------------------------------------
  // On return
  // ---------------------------------------------------------------------------

  lemma NobodyCounted(phases: seq<Phase>)
    requires Sum(phases, Wait) == 0
    ensures forall t :: 0 <= t < |phases| ==> !Counted(phases[t])
  {
    forall t | 0 <= t < |phases| ensures !Counted(phases[t]) {
      SumBounds(phases, Wait, t);
    }
  }

  lemma {:induction false} NobodyUnlisted(phases: seq<Phase>)
    requires forall t :: 0 <= t < |phases| ==> !Counted(phases[t])
    ensures Sum(phases, Unlisted) == Sum(phases, UnlistedIn) == Sum(phases, UnlistedOut) == 0
  {
    if phases != [] {
      NobodyUnlisted(phases[..|phases| - 1]);
    }
  }

  /** Every task was skipped or is done, its status final and its result listed exactly once. */
  ghost predicate AllAnswered(s: State) {
    && |s.statuses| == |s.phases|
    && (forall t :: 0 <= t < |s.phases| ==>
         || s.phases[t].Skipped?
         || (s.phases[t].Done? && s.phases[t].r.task == t && s.phases[t].r in s.results
             && s.statuses[t] == if s.phases[t].r.error != "" then Failed else Completed))
    && (forall i :: 0 <= i < |s.results| ==> var t := s.results[i].task;
         t < |s.phases| && s.phases[t] == Done(s.results[i]))
    && (forall i, j :: 0 <= i < j < |s.results| ==> s.results[i].task != s.results[j].task)
  }

  lemma AllDone(s: State)
    requires InOrder(s.next, s.phases) && s.next == |s.phases|
    requires forall t :: 0 <= t < |s.phases| ==> !Counted(s.phases[t])
    ensures forall t :: 0 <= t < |s.phases| ==> s.phases[t].Skipped? || s.phases[t].Done?
  {
  }

  lemma AnsweredOnReturn(s: State)
    requires StatusesRight(s) && ResultsRight(s.results, s.phases)
    requires forall t :: 0 <= t < |s.phases| ==> s.phases[t].Skipped? || s.phases[t].Done?
    ensures AllAnswered(s)
  {
  }

  // ---------------------------------------------------------------------------
  // What the steps say
  // ---------------------------------------------------------------------------

  /** How the tasks' fetches went, in order. */
  function Fetches(steps: seq<Step>): seq<bool> {
    if steps == [] then []
    else
      var last := steps[|steps| - 1];
      Fetches(steps[..|steps| - 1]) + if last.Fetch? then [last.ok] else []
  }

  function Successes(fetches: seq<bool>): nat {
    if fetches == [] then 0
    else Successes(fetches[..|fetches| - 1]) + if fetches[|fetches| - 1] then 1 else 0
  }

  lemma FetchesOfAppend(steps: seq<Step>, a: Step)
    ensures Fetches(steps + [a]) == Fetches(steps) + if a.Fetch? then [a.ok] else []
  {
    assert (steps + [a])[..|steps|] == steps;
  }

  /** Exactly the tasks whose fetch failed are skipped. */
  ghost predicate FetchesRight(next: nat, phases: seq<Phase>, fetches: seq<bool>) {
    && next <= |phases|
    && |fetches| == next + (if next < |phases| && phases[next].Fetched? then 1 else 0)
    && (forall t :: 0 <= t < |fetches| ==> (fetches[t] <==> !phases[t].Skipped?))
  }

  /** A task's result is the one its loop gave. */
  ghost predicate LoopsRight(phases: seq<Phase>, steps: seq<Step>) {
    && (forall t: nat, r :: Loop(t, r) in steps ==> t < |phases| && HasResult(phases[t]) && phases[t].r == r)
    && (forall t :: 0 <= t < |phases| && HasResult(phases[t]) ==> Loop(t, phases[t].r) in steps)
  }

  function Listed(p: Phase): nat { if IsListed(p) then 1 else 0 }

  predicate BeforeRunning(p: Phase) {
    p.Unseen? || p.Skipped? || p.Fetched? || p.Spawned?
  }

  ghost predicate QueuedRight(s: State) {
    && |s.statuses| == |s.phases|
    && forall t :: 0 <= t < |s.phases| && BeforeRunning(s.phases[t]) ==> s.statuses[t] == Queued
  }

  /** The state agrees with the steps taken. */
  ghost predicate Recorded(s: State, steps: seq<Step>) {
    && FetchesRight(s.next, s.phases, Fetches(steps)) && LoopsRight(s.phases, steps)
    && QueuedRight(s) && |s.results| == Sum(s.phases, Listed)
  }

  lemma NextKeepsFetches(s: State, a: Step, fetches: seq<bool>)
    requires |s.statuses| == |s.phases| && Enabled(s, a) && InOrder(s.next, s.phases)
    requires FetchesRight(s.next, s.phases, fetches)
    ensures FetchesRight(Next(s, a).next, Next(s, a).phases, fetches + if a.Fetch? then [a.ok] else [])
  {
    if !a.Return? {
      assert a.Fetch? || fetches + [] == fetches;
      MoverMoves(s, a);
    }
  }

  lemma MoveKeepsLoops(phases: seq<Phase>, steps: seq<Step>, a: Step, t: nat, p: Phase)
    requires LoopsRight(phases, steps) && t < |phases|
    requires if a.Loop? then a.task == t && !HasResult(phases[t]) && p == Looped(a.r)
             else HasResult(p) == HasResult(phases[t]) && (HasResult(p) ==> p.r == phases[t].r)
    ensures LoopsRight(phases[t := p], steps + [a])
  {
  }

  lemma NextKeepsLoops(s: State, a: Step, steps: seq<Step>)
    requires |s.statuses| == |s.phases| && Enabled(s, a) && LoopsRight(s.phases, steps)
    ensures LoopsRight(Next(s, a).phases, steps + [a])
  {
    if !a.Return? {
      MoverMoves(s, a);
      hide LoopsRight;
      MoveKeepsLoops(s.phases, steps, a, Mover(s, a), Next(s, a).phases[Mover(s, a)]);
    }
  }

  lemma NextKeepsQueued(s: State, a: Step)
    requires QueuedRight(s) && Enabled(s, a)
    ensures QueuedRight(Next(s, a))
  {
    if !a.Return? {
      MoverMoves(s, a);
      OtherStatusesStay(s, a);
      MovedStaysQueued(s, a);
      hide Next, Enabled, Mover, BeforeRunning;
    }
  }

  lemma MovedStaysQueued(s: State, a: Step)
    requires QueuedRight(s) && Enabled(s, a) && !a.Return?
    ensures var t := Mover(s, a);
      BeforeRunning(Next(s, a).phases[t]) ==> t < |Next(s, a).statuses| && Next(s, a).statuses[t] == Queued
  {
  }

  lemma NextKeepsListed(s: State, a: Step)
    requires |s.statuses| == |s.phases| && Enabled(s, a) && |s.results| == Sum(s.phases, Listed)
    ensures |Next(s, a).results| == Sum(Next(s, a).phases, Listed)
  {
    if !a.Return? {
      MoverMoves(s, a);
      SumUpdate(s.phases, Listed, Mover(s, a), Next(s, a).phases[Mover(s, a)]);
      hide Sum;
    }
  }

  lemma NextKeepsRecorded(s: State, a: Step, steps: seq<Step>)
    requires Recorded(s, steps) && Enabled(s, a) && InOrder(s.next, s.phases)
    ensures Recorded(Next(s, a), steps + [a])
  {
    assert |s.statuses| == |s.phases|;
    hide FetchesRight, LoopsRight, QueuedRight, InOrder, Sum, Fetches, Next, Enabled;
    NextKeepsFetches(s, a, Fetches(steps));
    FetchesOfAppend(steps, a);
    NextKeepsLoops(s, a, steps);
    NextKeepsQueued(s, a);
    NextKeepsListed(s, a);
  }

  lemma StartIsRecorded(s: State)
    requires Start(s)
    ensures Recorded(s, [])
  {
    UnseenSum(s.phases, Listed);
  }

  lemma {:induction false} TraceIsRecorded(states: seq<State>, steps: seq<Step>, n: nat)
    requires |states| == |steps| + 1 && Trace(states, steps) && Start(states[0]) && n < |states|
    ensures Recorded(states[n], steps[..n])
  {
    hide Recorded, InOrder, StatusesRight, CountersRight, ResultsRight, UsageRight, Trace, Start, Next, Enabled;
    if n == 0 {
      StartIsRecorded(states[0]);
      assert steps[..0] == [];
    } else {
      TraceSteps(states, steps, n - 1);
      TraceIsRecorded(states, steps, n - 1);
      TraceStaysSound(states, steps, n - 1);
      assert steps[..n] == steps[..n - 1] + [steps[n - 1]];
      NextKeepsRecorded(states[n - 1], steps[n - 1], steps[..n - 1]);
    }
  }

  /** What the call must return for the given fetches and loops. */
  ghost predicate Answers(s: State, steps: seq<Step>) {
    var fetches := Fetches(steps);
    && |s.statuses| == |fetches| && |s.results| == Successes(fetches)
    && (forall i :: 0 <= i < |s.results| ==>
         var r := s.results[i]; r.task < |fetches| && fetches[r.task] && Loop(r.task, r) in steps)
    && (forall i, j :: 0 <= i < j < |s.results| ==> s.results[i].task != s.results[j].task)
    && (forall t: nat, r :: Loop(t, r) in steps ==>
         && t < |fetches| && fetches[t] && r in s.results
         && s.statuses[t] == if r.error != "" then Failed else Completed)
    && (forall t :: 0 <= t < |fetches| && !fetches[t] ==> s.statuses[t] == Queued)
    && (forall t :: 0 <= t < |fetches| && fetches[t] ==> exists r :: r in s.results && r.task == t)
  }

  lemma {:induction false} ListedAreSuccesses(phases: seq<Phase>, fetches: seq<bool>)
    requires |phases| == |fetches| && forall t :: 0 <= t < |phases| ==> (fetches[t] <==> IsListed(phases[t]))
    ensures Sum(phases, Listed) == Successes(fetches)
  {
    if phases != [] {
      ListedAreSuccesses(phases[..|phases| - 1], fetches[..|fetches| - 1]);
    }
  }

  lemma ResultsComeFromLoops(s: State, steps: seq<Step>, i: nat)
    requires FetchesRight(s.next, s.phases, Fetches(steps)) && LoopsRight(s.phases, steps)
    requires AllAnswered(s) && s.next == |s.phases| && i < |s.results|
    ensures var r := s.results[i];
      r.task < |Fetches(steps)| && Fetches(steps)[r.task] && Loop(r.task, r) in steps
  {
    hide Fetches;
    assert s.phases[s.results[i].task] == Done(s.results[i]);
  }

  lemma LoopsAreAnswered(s: State, steps: seq<Step>, t: nat, r: Result)
    requires FetchesRight(s.next, s.phases, Fetches(steps)) && LoopsRight(s.phases, steps)
    requires AllAnswered(s) && s.next == |s.phases| && Loop(t, r) in steps
    ensures t < |Fetches(steps)| && Fetches(steps)[t] && r in s.results && t < |s.statuses|
    ensures s.statuses[t] == if r.error != "" then Failed else Completed
  {
    hide Fetches;
    assert s.phases[t].r == r;
  }

  lemma RecordedAnswers(s: State, steps: seq<Step>)
    requires Recorded(s, steps) && AllAnswered(s) && s.next == |s.phases|
    requires forall t :: 0 <= t < |s.phases| ==> s.phases[t].Skipped? || s.phases[t].Done?
    ensures Answers(s, steps)
  {
    var fetches := Fetches(steps);
    ListedAreSuccesses(s.phases, fetches);
    hide Sum, Successes, Fetches, LoopsRight;
    forall i | 0 <= i < |s.results|
      ensures var r := s.results[i]; r.task < |fetches| && fetches[r.task] && Loop(r.task, r) in steps
    {
      hide AllAnswered, FetchesRight;
      ResultsComeFromLoops(s, steps, i);
    }
    forall t: nat, r | Loop(t, r) in steps
      ensures t < |fetches| && fetches[t] && r in s.results && t < |s.statuses|
      ensures s.statuses[t] == if r.error != "" then Failed else Completed
    {
      hide AllAnswered, FetchesRight;
      LoopsAreAnswered(s, steps, t, r);
    }
    forall t | 0 <= t < |s.phases| && fetches[t] ensures exists r :: r in s.results && r.task == t {
      assert s.phases[t].r in s.results;
    }
  }

  /** The last state before the return: everything answered, and billed. */
  lemma ReadyToReturn(s: State, start: Usage, steps: seq<Step>)
    requires Sound(s, start) && Recorded(s, steps) && Enabled(s, Return)
    ensures AllAnswered(s) && Answers(s, steps)
    ensures s.usage == start.(subagentInput := start.subagentInput + TokensIn(s.results),
                              subagentOutput := start.subagentOutput + TokensOut(s.results),
                              modelCalls := start.modelCalls + |s.results|)
  {
    NobodyCounted(s.phases);
    NobodyUnlisted(s.phases);
    AllDone(s);
    hide Recorded, Answers, AllAnswered, InOrder, StatusesRight, ResultsRight, Sum, TokensIn, TokensOut;
    AnsweredOnReturn(s);
    RecordedAnswers(s, steps);
  }

  /**
   When the call returns, it has a result for exactly the tasks whose fetch succeeded: the one the
   task's loop gave, once, with the task's status final; a task whose fetch failed stays queued.
   The session has grown by exactly the results.
   */
  lemma ReturnedResultsAreComplete(states: seq<State>, steps: seq<Step>, n: nat)
    requires Trace(states, steps) && Start(states[0]) && n < |steps| && steps[n] == Return
    ensures AllAnswered(states[n + 1]) && Answers(states[n + 1], steps[..n])
    ensures var start, end := states[0].usage, states[n + 1];
      end.usage == start.(subagentInput := start.subagentInput + TokensIn(end.results),
                          subagentOutput := start.subagentOutput + TokensOut(end.results),
                          modelCalls := start.modelCalls + |end.results|)
  {
    var s := states[n];
    hide Sound, Recorded, Answers, AllAnswered, Trace, Start, TokensIn, TokensOut, Next, Enabled;
    ReturnStep(states, steps, n);
    TraceStaysSound(states, steps, n);
    TraceIsRecorded(states, steps, n);
    HasReturned(s, states[0].usage, steps[..n]);
  }

  lemma HasReturned(s: State, start: Usage, steps: seq<Step>)
    requires Sound(s, start) && Recorded(s, steps) && |s.statuses| == |s.phases| && Enabled(s, Return)
    ensures var end := s.(returned := true);
      && AllAnswered(end) && Answers(end, steps)
      && end.usage == start.(subagentInput := start.subagentInput + TokensIn(end.results),
                             subagentOutput := start.subagentOutput + TokensOut(end.results),
                             modelCalls := start.modelCalls + |end.results|)
  {
    hide Sound, Recorded, Answers, AllAnswered, TokensIn, TokensOut, Enabled;
    ReadyToReturn(s, start, steps);
    AnsweredStays(s);
    AnswersStay(s, steps);
  }

  lemma ReturnStep(states: seq<State>, steps: seq<Step>, n: nat)
    requires Trace(states, steps) && n < |steps| && steps[n] == Return
    ensures |states| == |steps| + 1 && |states[n].statuses| == |states[n].phases| && Enabled(states[n], Return)
    ensures states[n + 1] == states[n].(returned := true)
  {
    TraceSteps(states, steps, n);
    hide Trace;
  }

  lemma AnswersStay(s: State, steps: seq<Step>)
    requires Answers(s, steps)
    ensures Answers(s.(returned := true), steps)
  {
  }

  lemma AnsweredStays(s: State)
    requires AllAnswered(s)
    ensures AllAnswered(s.(returned := true))
  {
  }

  /** A rising list of slot holders is no longer than their count. */
  lemma {:induction false} GroupFits(phases: seq<Phase>, group: seq<nat>)
    requires forall i :: 0 <= i < |group| ==> group[i] < |phases| && HoldsSlot(phases[group[i]])
    requires forall i, j :: 0 <= i < j < |group| ==> group[i] < group[j]
    ensures |group| <= Sum(phases, Slot)
  {
    if phases != [] {
      var front := phases[..|phases| - 1];
      if group != [] && group[|group| - 1] == |phases| - 1 {
        GroupFits(front, group[..|group| - 1]);
      } else {
        GroupFits(front, group);
      }
    }
  }

  /** In every reachable state, any group of tasks that are past the semaphore has at most three members. */
  lemma AtMostThreeRun(states: seq<State>, steps: seq<Step>, n: nat, group: seq<nat>)
    requires Trace(states, steps) && Start(states[0]) && n < |states|
    requires forall i :: 0 <= i < |group| ==> group[i] < |states[n].phases| && HoldsSlot(states[n].phases[group[i]])
    requires forall i, j :: 0 <= i < j < |group| ==> group[i] < group[j]
    ensures |group| <= MAX_SUBAGENT_PARALLELISM
  {
    TraceStaysSound(states, steps, n);
    GroupFits(states[n].phases, group);
  }

  lemma {:induction false} NobodyCountedSum(phases: seq<Phase>)
    requires forall t :: 0 <= t < |phases| ==> !Counted(phases[t])
    ensures Sum(phases, Slot) == Sum(phases, Wait) == 0
  {
    if phases != [] {
      NobodyCountedSum(phases[..|phases| - 1]);
    }
  }

  /** The step a running goroutine takes next. */
  function Onward(p: Phase, t: nat): Step
    requires Counted(p)
  {
    match p
    case Spawned => MarkRunning(t)
    case Marked => Loop(t, Result(t, "", 0, 0))
    case Looped(_) => StoreFinal(t)
    case Stored(_) => BillSession(t)
    case Billed(_) => Report(t)
    case Reported(_) => Release(t)
    case Released(_) => Finish(t)
  }

  lemma GoroutineMovesOn(s: State, t: nat)
    requires |s.statuses| == |s.phases| && CountersRight(s) && t < |s.phases| && Counted(s.phases[t])
    ensures Enabled(s, Onward(s.phases[t], t))
  {
    SumBounds(s.phases, Slot, t);
    SumBounds(s.phases, Wait, t);
  }

  /** No interleaving gets stuck before the call returns. */
  lemma NeverStuck(states: seq<State>, steps: seq<Step>, n: nat)
    requires Trace(states, steps) && Start(states[0]) && n < |states|
    ensures exists a :: Enabled(states[n], a)
  {
    var s := states[n];
    TraceStaysSound(states, steps, n);
    if t :| 0 <= t < |s.phases| && Counted(s.phases[t]) {
      GoroutineMovesOn(s, t);
    } else {
      NobodyCountedSum(s.phases);
      hide Sum, StatusesRight, ResultsRight, UsageRight;
      DispatcherMovesOn(s);
    }
  }

  /** How many steps a task still has before it. */
  function Rank(p: Phase): nat {
    match p
    case Unseen => 9
    case Fetched => 8
    case Spawned => 7
    case Marked => 6
    case Looped(_) => 5
    case Stored(_) => 4
    case Billed(_) => 3
    case Reported(_) => 2
    case Released(_) => 1
    case _ => 0
  }

  function Remaining(s: State): nat {
    Sum(s.phases, Rank) + if s.returned then 0 else 1
  }

  lemma MoverSinks(s: State, a: Step)
    requires |s.statuses| == |s.phases| && Enabled(s, a) && !a.Return?
    ensures Mover(s, a) < |s.phases|
    ensures Rank(Next(s, a).phases[Mover(s, a)]) < Rank(s.phases[Mover(s, a)]) && Next(s, a).returned == s.returned
  {
  }

  lemma StepsRunOut(s: State, a: Step)
    requires |s.statuses| == |s.phases| && Enabled(s, a) && !s.returned
    ensures Remaining(Next(s, a)) < Remaining(s)
  {
    if !a.Return? {
      MoverMoves(s, a);
      MoverSinks(s, a);
      SumUpdate(s.phases, Rank, Mover(s, a), Next(s, a).phases[Mover(s, a)]);
      hide Sum, Rank, Mover, Enabled;
    }
  }

  lemma {:induction false} UnseenRank(phases: seq<Phase>)
    ensures Sum(phases, Rank) <= 9 * |phases|
  {
    if phases != [] {
      UnseenRank(phases[..|phases| - 1]);
    }
  }

  lemma {:induction false} RemainingSinks(states: seq<State>, steps: seq<Step>, n: nat)
    requires Trace(states, steps) && n < |states|
    ensures Remaining(states[n]) + n <= Remaining(states[0])
  {
    if n > 0 {
      RemainingSinks(states, steps, n - 1);
      TraceSteps(states, steps, n - 1);
      assert !states[n - 1].returned;
      hide Trace, Remaining, Next, Enabled;
      StepsRunOut(states[n - 1], steps[n - 1]);
    }
  }

  /** Every interleaving ends: nine steps for each task and the return are the most there can be. */
  lemma EveryRunEnds(states: seq<State>, steps: seq<Step>)
    requires Trace(states, steps) && Start(states[0])
    ensures |steps| <= 9 * |states[0].phases| + 1
  {
    RemainingSinks(states, steps, |steps|);
    UnseenRank(states[0].phases);
    hide Sum;
  }

  lemma DispatcherMovesOn(s: State)
    requires |s.statuses| == |s.phases| && InOrder(s.next, s.phases) && s.slots == s.waiting == 0
    ensures exists a :: Enabled(s, a)
  {
    var a := if s.next == |s.phases| then Return else if s.phases[s.next].Unseen? then Fetch(true) else Acquire;
    assert Enabled(s, a);
  }
}
