/**
 The process-local seq counter of one stream: seeded from the shared counter by a compare-and-swap
 loop after each successful publish, incremented by each local fan-out. Each step is one atomic
 access; any number of goroutines interleave.
 */
module LocalCounter {

  /** A goroutine inside the seeding loop. */
  datatype Seeder = Reading(num: nat) | Comparing(num: nat, cur: nat)

  /** seeded holds the shared seqs whose seeding has returned, handed the local seqs given out, in order. */
  datatype State = State(counter: nat, seeders: map<nat, Seeder>, seeded: set<nat>, handed: seq<nat>)

  const START := State(0, map[], {}, [])

  datatype Step = Enter(t: nat, num: nat) | Load(t: nat) | Swap(t: nat) | Hand

  function Return(s: State, t: nat, num: nat): State {
    s.(seeders := s.seeders - {t}, seeded := s.seeded + {num})
  }

  function Next(s: State, step: Step): State {
    match step
    case Enter(t, num) => if t in s.seeders then s else s.(seeders := s.seeders[t := Reading(num)])
    case Load(t) =>
      if t !in s.seeders || !s.seeders[t].Reading? then s
      else if s.seeders[t].num <= s.counter then Return(s, t, s.seeders[t].num)
      else s.(seeders := s.seeders[t := Comparing(s.seeders[t].num, s.counter)])
    case Swap(t) =>
      if t !in s.seeders || !s.seeders[t].Comparing? then s
      else if s.counter == s.seeders[t].cur then Return(s.(counter := s.seeders[t].num), t, s.seeders[t].num)
      else s.(seeders := s.seeders[t := Reading(s.seeders[t].num)])
    case Hand => s.(counter := s.counter + 1, handed := s.handed + [s.counter + 1])
  }

  function Run(steps: seq<Step>): State {
    if steps == [] then START else Next(Run(steps[..|steps| - 1]), steps[|steps| - 1])
  }

  /** The counter is at or above everything seeded and handed out, and no pending swap would lower it. */
  ghost predicate Ahead(s: State) {
    && (forall num :: num in s.seeded ==> num <= s.counter)
    && (forall i :: 0 <= i < |s.handed| ==> s.handed[i] <= s.counter)
    && (forall i, j :: 0 <= i < j < |s.handed| ==> s.handed[i] < s.handed[j])
    && (forall t :: t in s.seeders && s.seeders[t].Comparing? ==> s.seeders[t].cur < s.seeders[t].num)
  }

  lemma NextKeepsAhead(s: State, step: Step)
    requires Ahead(s)
    ensures Ahead(Next(s, step)) && s.counter <= Next(s, step).counter
  {
  }

  /** Over every interleaving the counter only rises: no swap ever lowers it. */
  lemma {:induction false} RunStaysAhead(steps: seq<Step>, k: nat)
    requires k <= |steps|
    ensures Ahead(Run(steps)) && Run(steps[..k]).counter <= Run(steps).counter
    decreases |steps|
  {
    if steps == [] {
      assert Ahead(START);
    } else {
      hide Ahead, Next;
      var init := steps[..|steps| - 1];
      RunStaysAhead(init, if k < |steps| then k else 0);
      NextKeepsAhead(Run(init), steps[|steps| - 1]);
      assert k < |steps| ==> init[..k] == steps[..k];
      assert k == |steps| ==> steps[..k] == steps;
    }
  }

  /** Undisturbed, a goroutine that has read the counter returns with its seq seeded and the counter not below it. */
  lemma RoundSeeds(s: State, t: nat, num: nat)
    requires t in s.seeders && s.seeders[t] == Reading(num)
    ensures var after := Next(Next(s, Load(t)), Swap(t));
      && t !in after.seeders && num in after.seeded && after.handed == s.handed
      && after.counter == if num <= s.counter then s.counter else num
  {
  }

  /** A swap that lost the race to another goroutine leaves the counter alone, and the next round seeds. */
  lemma LostSwapTriesAgain(s: State, t: nat, num: nat, cur: nat)
    requires t in s.seeders && s.seeders[t] == Comparing(num, cur) && s.counter != cur
    ensures var lost := Next(s, Swap(t));
      && lost.counter == s.counter && lost.seeded == s.seeded
      && num in Next(Next(lost, Load(t)), Swap(t)).seeded
  {
    RoundSeeds(Next(s, Swap(t)), t, num);
  }

  /** Some seq seeded or handed out is at least num. */
  ghost predicate Reached(s: State, num: nat) {
    exists m :: (m in s.seeded || m in s.handed) && num <= m
  }

  /** The counter is never above everything seeded and handed out. */
  ghost predicate Attained(s: State) {
    s.counter > 0 ==> s.counter in s.seeded || s.counter in s.handed
  }

  lemma NextKeepsAttained(s: State, step: Step)
    requires Attained(s)
    ensures Attained(Next(s, step))
  {
  }

  lemma {:induction false} RunStaysAttained(steps: seq<Step>)
    ensures Attained(Run(steps))
  {
    if steps != [] {
      hide Attained, Next;
      RunStaysAttained(steps[..|steps| - 1]);
      NextKeepsAttained(Run(steps[..|steps| - 1]), steps[|steps| - 1]);
    } else {
      assert Attained(START);
    }
  }

  /** Over every interleaving the counter has reached a seq exactly if something seeded or handed out has. */
  lemma CounterReachesIff(steps: seq<Step>, num: nat)
    requires num > 0
    ensures num <= Run(steps).counter <==> Reached(Run(steps), num)
  {
    RunStaysAttained(steps);
    RunStaysAhead(steps, 0);
  }

  /** A local seq is above every shared seq seeded before it and every local seq handed out before it. */
  lemma LocalSeqIsAboveSeeded(steps: seq<Step>)
    ensures var before, after := Run(steps), Run(steps + [Hand]);
      && |after.handed| == |before.handed| + 1
      && (forall num :: num in before.seeded ==> num < after.handed[|before.handed|])
      && (forall i :: 0 <= i < |before.handed| ==> before.handed[i] < after.handed[|before.handed|])
  {
    RunStaysAhead(steps, 0);
    assert (steps + [Hand])[..|steps|] == steps;
  }
}
