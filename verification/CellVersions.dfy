/**
 Version history of a cell: a save merges into the newest version while the edit is small
 and that version is recent, and starts a new version otherwise.
 */
module CellVersions {
  import opened EditDistance

  const MERGE_MAX_DIST: nat := 50
  /** Sixty seconds, in nanoseconds. */
  const MERGE_WINDOW: int := 60_000_000_000

  datatype Save = Save(source: string, author: string, at: int)

  /** A version with the saves it absorbed; it is dated by the first and shows the last. */
  datatype Version = Version(saves: seq<Save>)

  function Since(v: Version): int
    requires v.saves != []
  {
    v.saves[0].at
  }

  function Shown(v: Version): Save
    requires v.saves != []
  {
    v.saves[|v.saves| - 1]
  }

  predicate Merges(v: Version, s: Save)
    requires v.saves != []
  {
    Dist(Shown(v).source, s.source) < MERGE_MAX_DIST && s.at - Since(v) < MERGE_WINDOW
  }

  predicate NonEmpty(vs: seq<Version>) {
    forall i :: 0 <= i < |vs| ==> vs[i].saves != []
  }

  function Record(vs: seq<Version>, s: Save): (after: seq<Version>)
    requires NonEmpty(vs)
    ensures NonEmpty(after) && after != []
  {
    if vs != [] && Merges(vs[|vs| - 1], s) then
      vs[..|vs| - 1] + [Version(vs[|vs| - 1].saves + [s])]
    else
      vs + [Version([s])]
  }

  /** The history after a run of saves. */
  function History(saves: seq<Save>): (vs: seq<Version>)
    ensures NonEmpty(vs) && (vs == [] <==> saves == [])
  {
    if saves == [] then [] else Record(History(saves[..|saves| - 1]), saves[|saves| - 1])
  }

  function Flatten(vs: seq<Version>): seq<Save> {
    if vs == [] then [] else Flatten(vs[..|vs| - 1]) + vs[|vs| - 1].saves
  }

  ghost predicate ClockRuns(saves: seq<Save>) {
    forall i, j :: 0 <= i < j < |saves| ==> saves[i].at < saves[j].at
  }

  /** Every absorbed save was close to the one before it and within the window of the first. */
  ghost predicate Coherent(v: Version) {
    && v.saves != []
    && ClockRuns(v.saves)
    && (forall i :: 0 < i < |v.saves| ==>
          && Dist(v.saves[i - 1].source, v.saves[i].source) < MERGE_MAX_DIST
          && v.saves[i].at - v.saves[0].at < MERGE_WINDOW)
  }

  /** Neighbouring versions were kept apart for a reason. */
  ghost predicate Split(v: Version, w: Version)
    requires v.saves != [] && w.saves != []
  {
    !Merges(v, w.saves[0])
  }

  ghost predicate WellFormed(vs: seq<Version>, saves: seq<Save>) {
    && NonEmpty(vs)
    && Flatten(vs) == saves
    && (forall i :: 0 <= i < |vs| ==> Coherent(vs[i]))
    && (forall i :: 0 < i < |vs| ==> Split(vs[i - 1], vs[i]))
  }

  lemma FlattenEndsWithShown(vs: seq<Version>)
    requires vs != [] && NonEmpty(vs)
    ensures Flatten(vs) != [] && Flatten(vs)[|Flatten(vs)| - 1] == Shown(vs[|vs| - 1])
  {
  }

  lemma RecordFlattens(vs: seq<Version>, s: Save)
    requires NonEmpty(vs)
    ensures Flatten(Record(vs, s)) == Flatten(vs) + [s]
  {
    var after := Record(vs, s);
    if vs != [] && Merges(vs[|vs| - 1], s) {
      assert after[..|after| - 1] == vs[..|vs| - 1];
      assert Flatten(after) == Flatten(vs[..|vs| - 1]) + (vs[|vs| - 1].saves + [s]);
    } else {
      assert after[..|after| - 1] == vs;
    }
  }

  lemma MergeStaysCoherent(v: Version, s: Save)
    requires Coherent(v) && Merges(v, s) && Shown(v).at < s.at
    ensures Coherent(Version(v.saves + [s]))
  {
  }

  lemma LaterSavesAreLater(saves: seq<Save>, i: nat, j: nat)
    requires ClockRuns(saves) && i < j < |saves|
    ensures saves[i].at < saves[j].at
  {
  }

  lemma {:induction false} NextSaveIsLater(vs: seq<Version>, saves: seq<Save>, s: Save)
    requires vs != [] && NonEmpty(vs) && Flatten(vs) == saves && ClockRuns(saves + [s])
    ensures Shown(vs[|vs| - 1]).at < s.at
  {
    FlattenEndsWithShown(vs);
    hide ClockRuns;
    LaterSavesAreLater(saves + [s], |saves| - 1, |saves|);
  }

  lemma FirstSaveIsCoherent(s: Save)
    ensures Coherent(Version([s]))
  {
  }

  lemma RecordKeepsWellFormed(vs: seq<Version>, saves: seq<Save>, s: Save)
    requires WellFormed(vs, saves) && ClockRuns(saves + [s])
    ensures WellFormed(Record(vs, s), saves + [s])
  {
    hide Coherent, ClockRuns, Flatten, Merges;
    RecordFlattens(vs, s);
    FirstSaveIsCoherent(s);
    if vs != [] {
      NextSaveIsLater(vs, saves, s);
      if Merges(vs[|vs| - 1], s) {
        MergeStaysCoherent(vs[|vs| - 1], s);
      }
    }
  }

  lemma NoSavesAreWellFormed()
    ensures WellFormed([], [])
  {
  }

  lemma EarlierClockRuns(saves: seq<Save>)
    requires saves != [] && ClockRuns(saves)
    ensures ClockRuns(saves[..|saves| - 1])
  {
  }

  /**
   The whole history, for any run of saves under an increasing clock: every save is kept in
   exactly one version in order, versions hold only close and recent saves, and neighbouring
   versions are apart because the next save was too far or too late.
   */
  lemma {:induction false} HistoryIsWellFormed(saves: seq<Save>)
    requires ClockRuns(saves)
    ensures WellFormed(History(saves), saves)
  {
    hide WellFormed, Record, ClockRuns;
    if saves == [] {
      NoSavesAreWellFormed();
    } else {
      var before, last := saves[..|saves| - 1], saves[|saves| - 1];
      EarlierClockRuns(saves);
      HistoryIsWellFormed(before);
      assert before + [last] == saves;
      RecordKeepsWellFormed(History(before), before, last);
    }
  }

  lemma PartitionsSaves(vs: seq<Version>, saves: seq<Save>)
    requires WellFormed(vs, saves)
    ensures NonEmpty(vs) && Flatten(vs) == saves && (saves != [] ==> vs != [])
  {
  }

  /** The newest version shows the last save. */
  lemma NewestShowsLastSave(saves: seq<Save>)
    requires saves != [] && ClockRuns(saves)
    ensures var vs := History(saves); Shown(vs[|vs| - 1]) == saves[|saves| - 1]
  {
    hide *;
    HistoryIsWellFormed(saves);
    PartitionsSaves(History(saves), saves);
    FlattenEndsWithShown(History(saves));
  }

  lemma VersionsAreCoherent(saves: seq<Save>, v: Version)
    requires ClockRuns(saves) && v in History(saves)
    ensures Coherent(v)
  {
    hide ClockRuns, History, Coherent, Split, Flatten, NonEmpty;
    HistoryIsWellFormed(saves);
    var i :| 0 <= i < |History(saves)| && History(saves)[i] == v;
  }

  /** Saves sixty seconds or more apart never share a version. */
  lemma DistantSavesNeverShare(saves: seq<Save>, v: Version, i: nat, j: nat)
    requires ClockRuns(saves) && v in History(saves) && i < |v.saves| && j < |v.saves|
    ensures v.saves[j].at - v.saves[i].at < MERGE_WINDOW
  {
    hide ClockRuns;
    VersionsAreCoherent(saves, v);
    WindowHolds(v, i, j);
  }

  lemma WindowHolds(v: Version, i: nat, j: nat)
    requires Coherent(v) && i < |v.saves| && j < |v.saves|
    ensures v.saves[j].at - v.saves[i].at < MERGE_WINDOW
  {
    assert i == 0 || v.saves[0].at < v.saves[i].at;
  }

  /** Each merge drifts by at most 49 characters, so k merges drift by at most 49k. */
  lemma {:induction false} DriftIsBounded(v: Version, i: nat, j: nat)
    requires Coherent(v) && i <= j < |v.saves|
    ensures Dist(v.saves[i].source, v.saves[j].source) <= (MERGE_MAX_DIST - 1) * (j - i)
  {
    if i == j {
      ZeroIffEqual(v.saves[i].source, v.saves[j].source);
    } else {
      DriftIsBounded(v, i, j - 1);
      Triangle(v.saves[i].source, v.saves[j - 1].source, v.saves[j].source);
    }
  }

  lemma VersionsStayNearTheirFirstContent(saves: seq<Save>, v: Version)
    requires ClockRuns(saves) && v in History(saves)
    ensures v.saves != [] && Dist(v.saves[0].source, Shown(v).source) <= (MERGE_MAX_DIST - 1) * (|v.saves| - 1)
  {
    VersionsAreCoherent(saves, v);
    DriftIsBounded(v, 0, |v.saves| - 1);
  }

  /** A stored row of cell_versions. */
  datatype Row = Row(id: nat, source: string, createdAt: int, createdBy: string)

  function RowOf(v: Version, id: nat): Row
    requires v.saves != []
  {
    Row(id, Shown(v).source, Since(v), Shown(v).author)
  }

  function RowsOf(vs: seq<Version>): (rows: seq<Row>)
    requires NonEmpty(vs)
    ensures |rows| == |vs|
  {
    seq(|vs|, i requires 0 <= i < |vs| => RowOf(vs[i], i))
  }

  /** A save replaces the newest row's text and author if close and recent enough, else adds a row. */
  ghost function RowsAfter(rows: seq<Row>, s: Save): seq<Row> {
    if rows != [] && Dist(rows[|rows| - 1].source, s.source) < MERGE_MAX_DIST
       && s.at - rows[|rows| - 1].createdAt < MERGE_WINDOW then
      rows[|rows| - 1 := rows[|rows| - 1].(source := s.source, createdBy := s.author)]
    else
      rows + [Row(|rows|, s.source, s.at, s.author)]
  }

  /** Saving on the rows is recording in the history. */
  lemma RecordedRows(vs: seq<Version>, s: Save)
    requires NonEmpty(vs)
    ensures RowsOf(Record(vs, s)) == RowsAfter(RowsOf(vs), s)
  {
    hide Dist;
  }

  lemma {:induction false} OneMoreSave(saves: seq<Save>, s: Save)
    requires ClockRuns(saves) && (saves != [] ==> saves[|saves| - 1].at < s.at)
    ensures ClockRuns(saves + [s])
    ensures RowsOf(History(saves + [s])) == RowsAfter(RowsOf(History(saves)), s)
  {
    assert (saves + [s])[..|saves|] == saves;
    RecordedRows(History(saves), s);
  }

  /** The version rows of one cell, oldest first. */
  class CellVersionTable {
    var rows: seq<Row>
    ghost var saves: seq<Save>

    ghost predicate Valid()
      reads this
    {
      ClockRuns(saves) && rows == RowsOf(History(saves))
    }

    constructor ()
      ensures Valid() && saves == []
    {
      rows, saves := [], [];
    }

    /** Called after each save; the clock has moved on since the previous one. */
    method UpsertCellVersion(newSource: string, userID: string, now: int)
      requires Valid()
      requires saves != [] ==> saves[|saves| - 1].at < now
      modifies this
      ensures Valid() && saves == old(saves) + [Save(newSource, userID, now)]
      ensures rows != [] && rows[|rows| - 1].source == newSource && rows[|rows| - 1].createdBy == userID
      ensures var merges := old(rows) != [] && now - old(rows[|rows| - 1].createdAt) < MERGE_WINDOW
                && Dist(old(rows[|rows| - 1].source), newSource) < MERGE_MAX_DIST;
        if merges then
          && |rows| == |old(rows)| && rows[..|rows| - 1] == old(rows[..|rows| - 1])
          && rows[|rows| - 1].createdAt == old(rows[|rows| - 1].createdAt)
        else
          |rows| == |old(rows)| + 1 && rows[..|rows| - 1] == old(rows) && rows[|rows| - 1].createdAt == now
    {
      hide Dist, IsEditDistance, History, ClockRuns, RowsOf;
      OneMoreSave(saves, Save(newSource, userID, now));
      if rows == [] {
        rows := [Row(0, newSource, now, userID)];
      } else {
        var last := rows[|rows| - 1];
        var dist := LevenshteinDistance(last.source, newSource);
        var age := now - last.createdAt;
        if dist < MERGE_MAX_DIST && age < MERGE_WINDOW {
          rows := rows[|rows| - 1 := last.(source := newSource, createdBy := userID)];
        } else {
          rows := rows + [Row(|rows|, newSource, now, userID)];
        }
      }
      saves := saves + [Save(newSource, userID, now)];
    }
  }
}
