/**
 The list of cells a notebook shows: creating, moving and swapping cells by rewriting positions
 is inserting, moving and swapping elements of that list.
 */
module CellOrder {

  import opened CellPositions
  import opened Sequences

  /** The order in which a notebook with these positions shows its cells. */
  ghost predicate Lists(order: seq<CellId>, m: map<CellId, int>) {
    && (forall a :: a in m <==> a in order)
    && Rising(order, m)
  }

  ghost predicate Rising(order: seq<CellId>, m: map<CellId, int>) {
    && (forall i :: 0 <= i < |order| ==> order[i] in m)
    && (forall i, j :: 0 <= i < j < |order| ==> m[order[i]] < m[order[j]])
  }

  /** Positions are exactly 0, 1, 2, ... */
  ghost predicate Contiguous(order: seq<CellId>, m: map<CellId, int>) {
    forall i :: 0 <= i < |order| ==> order[i] in m && m[order[i]] == i
  }

  function Swapped<T>(s: seq<T>, i: nat, j: nat): seq<T>
    requires i < |s| && j < |s|
  {
    s[i := s[j]][j := s[i]]
  }

  // ---------------------------------------------------------------------------
  // Unique positions determine exactly one list
  // ---------------------------------------------------------------------------

  lemma {:induction false} NextIsNoHigher(one: seq<CellId>, two: seq<CellId>, m: map<CellId, int>, i: nat)
    requires Lists(one, m) && Lists(two, m) && i < |one| && i < |two|
    requires forall j :: 0 <= j < i ==> one[j] == two[j]
    ensures m[two[i]] <= m[one[i]]
  {
    assert one[i] in m;
    var k :| 0 <= k < |two| && two[k] == one[i];
  }

  lemma {:induction false} ListsAgreeAt(one: seq<CellId>, two: seq<CellId>, m: map<CellId, int>, i: nat)
    requires Lists(one, m) && Lists(two, m) && i < |one| && i < |two|
    ensures one[i] == two[i]
    decreases i
  {
    forall j | 0 <= j < i ensures one[j] == two[j] {
      ListsAgreeAt(one, two, m, j);
    }
    NextIsNoHigher(one, two, m, i);
    NextIsNoHigher(two, one, m, i);
    ListedIsUnique(one, m);
    SamePositionSameCell(m, one[i], two[i]);
  }

  lemma SamePositionSameCell(m: map<CellId, int>, a: CellId, b: CellId)
    requires Unique(m) && a in m && b in m && m[a] == m[b]
    ensures a == b
  {
  }

  lemma {:induction false} LongerListHasMore(one: seq<CellId>, two: seq<CellId>, m: map<CellId, int>)
    requires Lists(one, m) && Lists(two, m)
    ensures |two| <= |one|
  {
    if |one| < |two| {
      var last := two[|one|];
      assert last in m;
      var j :| 0 <= j < |one| && one[j] == last;
      ListsAgreeAt(one, two, m, j);
      assert false;
    }
  }

  /** A table shows at most one list. */
  lemma {:induction false} ListIsUnique(one: seq<CellId>, two: seq<CellId>, m: map<CellId, int>)
    requires Lists(one, m) && Lists(two, m)
    ensures one == two
  {
    LongerListHasMore(one, two, m);
    LongerListHasMore(two, one, m);
    forall i | 0 <= i < |one| ensures one[i] == two[i] {
      ListsAgreeAt(one, two, m, i);
    }
  }

  /** Listed tables are the tables with unique positions. */
  lemma {:induction false} ListedIsUnique(order: seq<CellId>, m: map<CellId, int>)
    requires Lists(order, m)
    ensures Unique(m)
  {
    forall a, b | a in m && b in m && m[a] == m[b] ensures a == b {
      var i :| 0 <= i < |order| && order[i] == a;
      var j :| 0 <= j < |order| && order[j] == b;
    }
  }

  // ---------------------------------------------------------------------------
  // Inserting one cell into a rising list
  // ---------------------------------------------------------------------------

  /** The first r cells of the list, and no others, lie below p. */
  ghost predicate SplitsAt(order: seq<CellId>, m: map<CellId, int>, r: nat, p: int) {
    && r <= |order| && (forall i :: 0 <= i < |order| ==> order[i] in m)
    && (forall i :: 0 <= i < r ==> m[order[i]] < p)
    && (forall i :: r <= i < |order| ==> p < m[order[i]])
  }

  lemma InsertIsRising(order: seq<CellId>, m: map<CellId, int>, r: nat, cell: CellId)
    requires Rising(order, m) && cell in m && SplitsAt(order, m, r, m[cell])
    ensures Rising(Insert(order, r, cell), m)
  {
    var all := Insert(order, r, cell);
    forall i | 0 <= i < |all|
      ensures all[i] == if i < r then order[i] else if i == r then cell else order[i - 1]
    {
    }
  }

  lemma InsertHolds(order: seq<CellId>, r: nat, cell: CellId)
    requires r <= |order|
    ensures forall a :: a in Insert(order, r, cell) <==> a == cell || a in order
  {
    forall a ensures a in Insert(order, r, cell) <==> a == cell || a in order {
      assert order == order[..r] + order[r..];
    }
  }

  lemma InsertLists(order: seq<CellId>, m: map<CellId, int>, r: nat, cell: CellId)
    requires Rising(order, m) && cell in m && SplitsAt(order, m, r, m[cell])
    requires forall a :: a in m <==> a == cell || a in order
    ensures Lists(Insert(order, r, cell), m)
  {
    hide Rising, SplitsAt, Insert;
    SplitsWithin(order, m, r, m[cell]);
    InsertIsRising(order, m, r, cell);
    InsertHolds(order, r, cell);
  }

  lemma SplitsWithin(order: seq<CellId>, m: map<CellId, int>, r: nat, p: int)
    requires SplitsAt(order, m, r, p)
    ensures r <= |order|
  {
  }

  // ---------------------------------------------------------------------------
  // Create
  // ---------------------------------------------------------------------------

  /** How many cells of a listed table lie below p. */
  function Rank(order: seq<CellId>, m: map<CellId, int>, p: int): (r: nat)
    requires forall i :: 0 <= i < |order| ==> order[i] in m
    ensures r <= |order|
  {
    if order == [] || m[order[|order| - 1]] < p then |order| else Rank(order[..|order| - 1], m, p)
  }

  lemma {:induction false} RankSplits(order: seq<CellId>, m: map<CellId, int>, p: int)
    requires Rising(order, m)
    ensures var r := Rank(order, m, p);
      (forall i :: 0 <= i < r ==> m[order[i]] < p) && (forall i :: r <= i < |order| ==> p <= m[order[i]])
  {
    if order != [] && m[order[|order| - 1]] >= p {
      var front := order[..|order| - 1];
      assert forall i :: 0 <= i < |front| ==> front[i] == order[i];
      RankSplits(front, m, p);
      assert Rank(order, m, p) == Rank(front, m, p);
      forall i | Rank(order, m, p) <= i < |order| ensures p <= m[order[i]] {
        assert i < |front| ==> m[front[i]] == m[order[i]];
      }
    } else {
      forall i | 0 <= i < |order| ensures m[order[i]] < p {
        assert i < |order| - 1 ==> m[order[i]] < m[order[|order| - 1]];
      }
    }
  }

  /** A list of all cells but one grows to a list of all. */
  lemma {:induction false} OneMoreIsListed(m: map<CellId, int>, a: CellId, rest: seq<CellId>)
      returns (order: seq<CellId>)
    requires Unique(m) && a in m && Lists(rest, m - {a})
    ensures Lists(order, m)
  {
    WithoutOne(m, a, rest);
    RankSplits(rest, m, m[a]);
    order := Insert(rest, Rank(rest, m, m[a]), a);
    hide Rising, Rank, Insert, Unique;
    InsertLists(rest, m, Rank(rest, m, m[a]), a);
  }

  lemma WithoutOne(m: map<CellId, int>, a: CellId, rest: seq<CellId>)
    requires Unique(m) && a in m && Lists(rest, m - {a})
    ensures Rising(rest, m) && (forall x :: x in m <==> x == a || x in rest)
    ensures forall i :: 0 <= i < |rest| ==> m[rest[i]] != m[a]
  {
    forall i | 0 <= i < |rest| ensures rest[i] in m - {a} && m[rest[i]] != m[a] {
    }
    forall x ensures x in m <==> x == a || x in rest {
      assert x in m && x != a <==> x in m - {a};
    }
  }

  /** Every table with unique positions shows a list. */
  lemma {:induction false} UniqueIsListed(m: map<CellId, int>) returns (order: seq<CellId>)
    requires Unique(m)
    ensures Lists(order, m)
    decreases |m|
  {
    if m == map[] {
      order := [];
    } else {
      var a :| a in m;
      assert m.Keys == (m - {a}).Keys + {a};
      var rest := UniqueIsListed(m - {a});
      order := OneMoreIsListed(m, a, rest);
    }
  }

  /** Making room at k and inserting a row there inserts the cell before the first cell at or past k. */
  lemma CreateRefinesInsert(order: seq<CellId>, m: map<CellId, int>, cell: CellId, k: int)
    requires Lists(order, m) && cell !in m
    ensures Lists(Insert(order, Rank(order, m, k), cell), Shifted(m, k)[cell := k])
  {
    RankSplits(order, m, k);
    var after := Shifted(m, k)[cell := k];
    assert Rising(order, after);
    assert SplitsAt(order, after, Rank(order, m, k), k);
    InsertLists(order, after, Rank(order, m, k), cell);
  }

  /** A row after the last one appends the cell. */
  lemma AppendRefinesAppend(order: seq<CellId>, m: map<CellId, int>, cell: CellId, p: int)
    requires Lists(order, m) && cell !in m && IsEnd(m, p)
    ensures Lists(order + [cell], m[cell := p])
  {
    var after := m[cell := p];
    assert SplitsAt(order, after, |order|, p);
    InsertLists(order, after, |order|, cell);
    assert Insert(order, |order|, cell) == order + [cell];
  }

  /** A duplicate appears right after its original. */
  lemma DuplicateRefinesInsertAfter(order: seq<CellId>, m: map<CellId, int>, i: nat, cell: CellId)
    requires Lists(order, m) && cell !in m && i < |order|
    ensures var k := m[order[i]] + 1; Lists(Insert(order, i + 1, cell), Shifted(m, k)[cell := k])
  {
    var k := m[order[i]] + 1;
    CreateRefinesInsert(order, m, cell, k);
    RankSplits(order, m, k);
    var r := Rank(order, m, k);
    assert i + 1 < |order| ==> k <= m[order[i + 1]];
  }

  lemma {:induction false} RankInContiguous(order: seq<CellId>, m: map<CellId, int>, k: nat)
    requires Contiguous(order, m)
    ensures Rank(order, m, k) == if k <= |order| then k else |order|
  {
    if |order| > k {
      RankInContiguous(order[..|order| - 1], m, k);
    }
  }

  /** Creating at k keeps positions 0, 1, 2, ... if and only if k is at most one past the last. */
  lemma CreateKeepsContiguousIffInRange(order: seq<CellId>, m: map<CellId, int>, cell: CellId, k: nat)
    requires Lists(order, m) && Contiguous(order, m) && cell !in m
    ensures Contiguous(Insert(order, Rank(order, m, k), cell), Shifted(m, k)[cell := k]) <==> k <= |order|
    ensures k <= |order| ==> Rank(order, m, k) == k
  {
    RankInContiguous(order, m, k);
    var r := Rank(order, m, k);
    var all, after := Insert(order, r, cell), Shifted(m, k)[cell := k];
    InsertElements(order, r, cell);
    hide Insert, Rank;
    if k <= |order| {
      forall i | 0 <= i < |all| ensures all[i] in after && after[all[i]] == i {
        assert i < k ==> all[i] == order[i];
        assert i > k ==> all[i] == order[i - 1];
      }
    } else {
      assert all[r] == cell;
    }
  }

  // ---------------------------------------------------------------------------
  // Move
  // ---------------------------------------------------------------------------

  lemma RemoveHolds(order: seq<CellId>, m: map<CellId, int>, i: nat)
    requires Rising(order, m) && i < |order|
    ensures forall a :: a in Remove(order, i) <==> a in order && a != order[i]
  {
    var rest := Remove(order, i);
    hide Remove;
    RemoveElements(order, i);
    forall a | a in order && a != order[i] ensures a in rest {
      var j :| 0 <= j < |order| && order[j] == a;
      assert rest[if j < i then j else j - 1] == a;
    }
    forall a | a in rest ensures a in order && a != order[i] {
      var j :| 0 <= j < |rest| && rest[j] == a;
      assert a == order[if j < i then j else j + 1];
    }
  }

  lemma RemoveIsRising(order: seq<CellId>, m: map<CellId, int>, i: nat)
    requires Rising(order, m) && i < |order|
    ensures Rising(Remove(order, i), m)
  {
    var rest := Remove(order, i);
    hide Remove;
    RemoveElements(order, i);
  }

  lemma MovedIsRising(rest: seq<CellId>, m: map<CellId, int>, cell: CellId, to: int)
    requires Rising(rest, m) && cell in m && cell !in rest && forall i :: 0 <= i < |rest| ==> m[rest[i]] != m[cell]
    ensures Rising(rest, Moved(m, cell, to))
  {
  }

  /** Where a cell moved to a position lands among the others. */
  function Landing(rest: seq<CellId>, m: map<CellId, int>, from: int, to: int): nat
    requires forall i :: 0 <= i < |rest| ==> rest[i] in m
  {
    Rank(rest, m, if to > from then to + 1 else to)
  }

  lemma LandingSplits(rest: seq<CellId>, m: map<CellId, int>, cell: CellId, to: int)
    requires Rising(rest, m) && cell in m && cell !in rest && forall i :: 0 <= i < |rest| ==> m[rest[i]] != m[cell]
    requires to != m[cell]
    ensures SplitsAt(rest, Moved(m, cell, to), Landing(rest, m, m[cell], to), to)
  {
    RankSplits(rest, m, if to > m[cell] then to + 1 else to);
  }

  /** Moving a cell takes it out of the list and inserts it where its target position lies. */
  lemma MoveRefinesRemoveInsert(order: seq<CellId>, m: map<CellId, int>, i: nat, to: int)
    requires Lists(order, m) && i < |order| && order[i] in m && to != m[order[i]]
    ensures var rest := Remove(order, i);
      && (forall j :: 0 <= j < |rest| ==> rest[j] in m)
      && Lists(Insert(rest, Landing(rest, m, m[order[i]], to), order[i]), Moved(m, order[i], to))
  {
    hide Remove, Insert, Landing;
    var rest, cell := Remove(order, i), order[i];
    RemoveIsRising(order, m, i);
    RemoveHolds(order, m, i);
    ListedIsUnique(order, m);
    assert forall j :: 0 <= j < |rest| ==> rest[j] in rest;
    MovedIsRising(rest, m, cell, to);
    LandingSplits(rest, m, cell, to);
    InsertLists(rest, Moved(m, cell, to), Landing(rest, m, m[cell], to), cell);
  }

  lemma MoveToIndexCounts(order: seq<CellId>, m: map<CellId, int>, i: nat, to: nat)
    requires Contiguous(order, m) && i < |order| && to < |order| && to != i && order[i] in m
    ensures Contiguous(Insert(Remove(order, i), to, order[i]), Moved(m, order[i], to))
  {
    var moved, after := Insert(Remove(order, i), to, order[i]), Moved(m, order[i], to);
    RemoveElements(order, i);
    InsertElements(Remove(order, i), to, order[i]);
    hide Insert, Remove;
    forall j | 0 <= j < |moved| ensures moved[j] in after && after[moved[j]] == j {
      assert j < to ==> moved[j] == order[if j < i then j else j + 1];
      assert j > to ==> moved[j] == order[if j - 1 < i then j - 1 else j];
    }
  }

  lemma ContiguousIsListed(order: seq<CellId>, m: map<CellId, int>)
    requires Contiguous(order, m) && forall a :: a in m <==> a in order
    ensures Lists(order, m)
  {
  }

  /** With positions 0, 1, 2, ... a move to an existing position is a plain remove and insert. */
  lemma MoveToIndex(order: seq<CellId>, m: map<CellId, int>, i: nat, to: nat)
    requires Lists(order, m) && Contiguous(order, m) && i < |order| && to < |order| && to != i
    ensures var moved := Insert(Remove(order, i), to, order[i]);
      Contiguous(moved, Moved(m, order[i], to)) && Lists(moved, Moved(m, order[i], to))
  {
    MoveToIndexCounts(order, m, i, to);
    RemoveHolds(order, m, i);
    RemoveElements(order, i);
    InsertHolds(Remove(order, i), to, order[i]);
    hide Insert, Remove, Contiguous;
    ContiguousIsListed(Insert(Remove(order, i), to, order[i]), Moved(m, order[i], to));
  }

  /** Past the end a move leaves a hole: no list has these positions contiguous. */
  lemma MoveKeepsContiguousIffInRange(order: seq<CellId>, m: map<CellId, int>, i: nat, to: nat)
    requires Lists(order, m) && Contiguous(order, m) && i < |order| && to != i
    ensures (exists moved :: Lists(moved, Moved(m, order[i], to)) && Contiguous(moved, Moved(m, order[i], to)))
            <==> to < |order|
  {
    if to < |order| {
      MoveToIndex(order, m, i, to);
    } else {
      forall moved | Lists(moved, Moved(m, order[i], to)) ensures !Contiguous(moved, Moved(m, order[i], to)) {
        EndIsSkipped(order, m, i, to, moved);
      }
    }
  }

  lemma NobodyIsLast(order: seq<CellId>, m: map<CellId, int>, i: nat, to: nat)
    requires Lists(order, m) && Contiguous(order, m) && i < |order| <= to
    ensures forall a :: a in m ==> Moved(m, order[i], to)[a] != |order| - 1
  {
    forall a | a in m ensures Moved(m, order[i], to)[a] != |order| - 1 {
      var k :| 0 <= k < |order| && order[k] == a;
    }
  }

  lemma EndIsSkipped(order: seq<CellId>, m: map<CellId, int>, i: nat, to: nat, moved: seq<CellId>)
    requires Lists(order, m) && Contiguous(order, m) && i < |order| <= to
    requires Lists(moved, Moved(m, order[i], to))
    ensures !Contiguous(moved, Moved(m, order[i], to))
  {
    var after := Moved(m, order[i], to);
    NobodyIsLast(order, m, i, to);
    assert order[i] in after;
    var j :| 0 <= j < |moved| && moved[j] == order[i];
    var hole := if |moved| < |order| then j else |order| - 1;
    assert moved[hole] in moved && after[moved[hole]] != hole;
  }

  // ---------------------------------------------------------------------------
  // Swap
  // ---------------------------------------------------------------------------

  lemma SwappedHolds<T>(s: seq<T>, i: nat, j: nat)
    requires i < |s| && j < |s|
    ensures forall x :: x in Swapped(s, i, j) <==> x in s
  {
    forall x | x in s ensures x in Swapped(s, i, j) {
      var k :| 0 <= k < |s| && s[k] == x;
      assert Swapped(s, i, j)[if k == i then j else if k == j then i else k] == x;
    }
  }

  /** The table after two cells exchanged positions. */
  function Exchanged(m: map<CellId, int>, a: CellId, b: CellId): map<CellId, int>
    requires a in m && b in m
  {
    m[a := m[b]][b := m[a]]
  }

  lemma SwappedKeepsProfile(order: seq<CellId>, m: map<CellId, int>, i: nat, j: nat)
    requires Rising(order, m) && i < |order| && j < |order| && i != j
    ensures var swapped, after := Swapped(order, i, j), Exchanged(m, order[i], order[j]);
      forall k :: 0 <= k < |order| ==> swapped[k] in after && after[swapped[k]] == m[order[k]]
  {
    forall k | 0 <= k < |order| && k != i && k != j ensures order[k] != order[i] && order[k] != order[j] {
    }
  }

  lemma SameProfile(order: seq<CellId>, m: map<CellId, int>, other: seq<CellId>, after: map<CellId, int>)
    requires |other| == |order| && forall k :: 0 <= k < |order| ==> order[k] in m
    requires forall k :: 0 <= k < |order| ==> other[k] in after && after[other[k]] == m[order[k]]
    ensures Rising(order, m) ==> Rising(other, after)
    ensures Contiguous(order, m) ==> Contiguous(other, after)
  {
  }

  lemma ExchangedKeys(m: map<CellId, int>, a: CellId, b: CellId)
    requires a in m && b in m
    ensures forall c :: c in Exchanged(m, a, b) <==> c in m
  {
  }

  lemma SwappedLength<T>(s: seq<T>, i: nat, j: nat)
    requires i < |s| && j < |s|
    ensures |Swapped(s, i, j)| == |s|
  {
  }

  /** Swapping two cells' positions swaps the two elements. */
  lemma SwapRefinesSwap(order: seq<CellId>, m: map<CellId, int>, i: nat, j: nat)
    requires Lists(order, m) && i < |order| && j < |order| && i != j
    ensures var swapped, after := Swapped(order, i, j), Exchanged(m, order[i], order[j]);
      Lists(swapped, after) && (Contiguous(order, m) ==> Contiguous(swapped, after))
  {
    RisingHolds(order, m);
    hide *;
    var swapped, after := Swapped(order, i, j), Exchanged(m, order[i], order[j]);
    SwappedLength(order, i, j);
    SwappedKeepsProfile(order, m, i, j);
    SameProfile(order, m, swapped, after);
    SwappedHolds(order, i, j);
    ExchangedKeys(m, order[i], order[j]);
    SameCells(order, m, swapped, after);
  }

  lemma SameCells(order: seq<CellId>, m: map<CellId, int>, other: seq<CellId>, after: map<CellId, int>)
    requires Lists(order, m) && Rising(other, after)
    requires forall a :: a in other <==> a in order
    requires forall a :: a in after <==> a in m
    ensures Lists(other, after)
  {
    hide Rising;
  }

  lemma RisingHolds(order: seq<CellId>, m: map<CellId, int>)
    requires Lists(order, m)
    ensures Rising(order, m) && forall k :: 0 <= k < |order| ==> order[k] in m
  {
  }
}
