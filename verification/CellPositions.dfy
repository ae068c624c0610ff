/**
 Cell positions of one notebook under UNIQUE (notebook_id, position): the two-phase UPDATEs
 that shift, move and swap cells, row by row, and exactly when they do their work.
 */
module CellPositions {

  type CellId = nat

  ghost predicate Unique(m: map<CellId, int>) {
    forall a, b :: a in m && b in m && m[a] == m[b] ==> a == b
  }

  ghost predicate NonNegative(m: map<CellId, int>) {
    forall a :: a in m ==> 0 <= m[a]
  }

  /** No other row holds the position. */
  ghost predicate Free(m: map<CellId, int>, cell: CellId, p: int) {
    forall other :: other in m && other != cell ==> m[other] != p
  }

  // ---------------------------------------------------------------------------
  // One UPDATE statement, row by row
  // ---------------------------------------------------------------------------

  /** The table after the statement has rewritten the given rows. */
  function Updated(m: map<CellId, int>, rows: set<CellId>, f: int -> int): map<CellId, int> {
    map a | a in m :: if a in rows then f(m[a]) else m[a]
  }

  /** No rewritten row meets another row, rewritten or not. */
  ghost predicate Safe(m: map<CellId, int>, rows: set<CellId>, f: int -> int) {
    forall a, b :: a in m && b in m && a in rows && a != b ==> f(m[a]) != m[b] && (b in rows ==> f(m[a]) != f(m[b]))
  }

  lemma SafeKeepsUnique(m: map<CellId, int>, rows: set<CellId>, done: set<CellId>, f: int -> int)
    requires Unique(m) && Safe(m, rows, f) && done <= rows
    ensures Unique(Updated(m, done, f))
  {
    var after := Updated(m, done, f);
    forall a, b | a in after && b in after && a != b ensures after[a] != after[b] {
      assert f(m[a]) == after[a] || m[a] == after[a];
    }
  }

  /** Rows are visited in an unknown order; all orders respect UNIQUE if and only if the statement is safe. */
  lemma UniqueInEveryOrderIffSafe(m: map<CellId, int>, rows: set<CellId>, f: int -> int)
    requires Unique(m) && rows <= m.Keys
    ensures (forall done :: done <= rows ==> Unique(Updated(m, done, f))) <==> Safe(m, rows, f)
  {
    if Safe(m, rows, f) {
      forall done | done <= rows ensures Unique(Updated(m, done, f)) {
        SafeKeepsUnique(m, rows, done, f);
      }
    } else {
      var a, b :| a in m && b in m && a in rows && a != b && (f(m[a]) == m[b] || (b in rows && f(m[a]) == f(m[b])));
      if b in rows && f(m[a]) == f(m[b]) {
        var after := Updated(m, rows, f);
        assert after[a] == after[b];
        assert !Unique(Updated(m, rows, f));
      } else {
        var after := Updated(m, {a}, f);
        assert after[a] == after[b];
        assert {a} <= rows && !Unique(Updated(m, {a}, f));
      }
    }
  }

  function From(m: map<CellId, int>, k: int): set<CellId> {
    set a | a in m && m[a] >= k
  }

  function Between(m: map<CellId, int>, lo: int, hi: int, except: CellId): set<CellId> {
    set a | a in m && lo <= m[a] < hi && a != except
  }

  function Negatives(m: map<CellId, int>): set<CellId> {
    set a | a in m && m[a] < 0
  }

  function Away(p: int): int { -p - 1 }
  function BackUp(p: int): int { -p }
  function BackDown(p: int): int { -p - 2 }

  // ---------------------------------------------------------------------------
  // Making room
  // ---------------------------------------------------------------------------

  /** What making room at position k must do. */
  function Shifted(m: map<CellId, int>, k: int): map<CellId, int> {
    map a | a in m :: if m[a] >= k then m[a] + 1 else m[a]
  }

  /** The table between the two statements. */
  function ShiftedAway(m: map<CellId, int>, k: int): map<CellId, int> {
    Updated(m, From(m, k), Away)
  }

  /** The two statements that make room at position k. */
  function TwoPhaseShift(m: map<CellId, int>, k: int): map<CellId, int> {
    Updated(ShiftedAway(m, k), Negatives(ShiftedAway(m, k)), BackUp)
  }

  /** Both statements succeed in every row order and together make room. */
  ghost predicate ShiftWorks(m: map<CellId, int>, k: int) {
    && Safe(m, From(m, k), Away)
    && Safe(ShiftedAway(m, k), Negatives(ShiftedAway(m, k)), BackUp)
    && TwoPhaseShift(m, k) == Shifted(m, k)
  }

  /** No stored position is negative, or only -1 is, no cell is at 0 and all are moved. */
  ghost predicate Shiftable(m: map<CellId, int>, k: int) {
    NonNegative(m) || (k <= -1 && forall a :: a in m ==> m[a] == -1 || 1 <= m[a])
  }

  lemma ShiftableIsSafeAway(m: map<CellId, int>, k: int)
    requires Unique(m) && Shiftable(m, k)
    ensures Safe(m, From(m, k), Away)
  {
  }

  lemma ShiftableIsSafeBack(m: map<CellId, int>, k: int)
    requires Unique(m) && Shiftable(m, k)
    ensures Safe(ShiftedAway(m, k), Negatives(ShiftedAway(m, k)), BackUp)
  {
    var away := ShiftedAway(m, k);
    assert forall a :: a in m ==> away[a] == if m[a] >= k then -m[a] - 1 else m[a];
  }

  lemma ShiftableMakesRoom(m: map<CellId, int>, k: int)
    requires Shiftable(m, k)
    ensures TwoPhaseShift(m, k) == Shifted(m, k)
  {
  }

  lemma WorkingShiftIsShiftable(m: map<CellId, int>, k: int)
    requires ShiftWorks(m, k)
    ensures Shiftable(m, k)
  {
    if !NonNegative(m) {
      var a :| a in m && m[a] < 0;
      assert TwoPhaseShift(m, k)[a] == Shifted(m, k)[a];
      forall b | b in m ensures m[b] == -1 || 1 <= m[b] {
        assert TwoPhaseShift(m, k)[b] == Shifted(m, k)[b];
        assert b != a ==> Away(m[a]) != m[b];
      }
    }
  }

  /** The two-phase shift succeeds in every row order and makes room if and only if the table is shiftable. */
  lemma TwoPhaseShiftIffShiftable(m: map<CellId, int>, k: int)
    requires Unique(m)
    ensures ShiftWorks(m, k) <==> Shiftable(m, k)
  {
    if Shiftable(m, k) {
      ShiftableIsSafeAway(m, k);
      ShiftableIsSafeBack(m, k);
      ShiftableMakesRoom(m, k);
    }
    if ShiftWorks(m, k) {
      WorkingShiftIsShiftable(m, k);
    }
  }

  /** Behind an existing cell there is room to make exactly when no stored position is negative. */
  lemma RoomBehindIffNonNegative(m: map<CellId, int>, source: CellId)
    requires source in m
    ensures Shiftable(m, m[source] + 1) <==> NonNegative(m)
  {
    assert m[source] == -1 || 1 <= m[source] ==> 0 <= m[source] + 1;
  }

  lemma ShiftKeepsUnique(m: map<CellId, int>, k: int)
    requires Unique(m)
    ensures Unique(Shifted(m, k)) && (NonNegative(m) ==> NonNegative(Shifted(m, k)))
    ensures forall a :: a in m ==> Shifted(m, k)[a] != k
  {
  }

  // ---------------------------------------------------------------------------
  // Moving one cell
  // ---------------------------------------------------------------------------

  /** What moving a cell to a position must do to all the cells. */
  function Moved(m: map<CellId, int>, cell: CellId, to: int): map<CellId, int>
    requires cell in m
  {
    map a | a in m ::
      if a == cell then to
      else if m[cell] < m[a] <= to then m[a] - 1
      else if to <= m[a] < m[cell] then m[a] + 1
      else m[a]
  }

  /** The table with the cell parked on the position its own one maps to. */
  function Parked(m: map<CellId, int>, cell: CellId): map<CellId, int>
    requires cell in m
  {
    m[cell := -(m[cell] + 1)]
  }

  /** The rows between the cell's old position p and its target. */
  function Gap(m: map<CellId, int>, cell: CellId, p: int, to: int): set<CellId> {
    if to > p then Between(m, p + 1, to + 1, cell) else Between(m, to, p, cell)
  }

  function GapAway(m: map<CellId, int>, cell: CellId, p: int, to: int): map<CellId, int> {
    Updated(m, Gap(m, cell, p, to), Away)
  }

  function Back(p: int, to: int): int -> int {
    if to > p then BackDown else BackUp
  }

  function GapShifted(m: map<CellId, int>, cell: CellId, p: int, to: int): map<CellId, int> {
    var away := GapAway(m, cell, p, to);
    Updated(away, Negatives(away) - {cell}, Back(p, to))
  }

  /** The table after the four statements of a move. */
  function FourStatements(m: map<CellId, int>, cell: CellId, to: int): map<CellId, int>
    requires cell in m
  {
    GapShifted(Parked(m, cell), cell, m[cell], to)[cell := to]
  }

  /** The two statements on the gap succeed in every row order. */
  ghost predicate GapSucceeds(m: map<CellId, int>, cell: CellId, p: int, to: int) {
    var away := GapAway(m, cell, p, to);
    Safe(m, Gap(m, cell, p, to), Away) && Safe(away, Negatives(away) - {cell}, Back(p, to))
  }

  /** All four statements succeed in every row order. */
  ghost predicate MoveSucceeds(m: map<CellId, int>, cell: CellId, to: int)
    requires cell in m
  {
    var parked, p := Parked(m, cell), m[cell];
    && Free(m, cell, -(p + 1))
    && GapSucceeds(parked, cell, p, to)
    && Free(GapShifted(parked, cell, p, to), cell, to)
  }

  ghost predicate MoveWorks(m: map<CellId, int>, cell: CellId, to: int)
    requires cell in m
  {
    MoveSucceeds(m, cell, to) && FourStatements(m, cell, to) == Moved(m, cell, to)
  }

  /**
   Up the list no stored position may be negative. Down the list another cell may be at -1 if the
   cell is not at 0; a cell that is itself at a negative p needs -p - 1 free, and -p if it is in the gap.
   */
  ghost predicate Movable(m: map<CellId, int>, cell: CellId, to: int)
    requires cell in m
  {
    var p := m[cell];
    forall a :: a in m && a != cell ==>
      if to < p then 0 <= m[a]
      else if 0 <= p then 0 <= m[a] || (m[a] == -1 && p != 0)
      else 0 <= m[a] != -p - 1 && (m[a] == -p ==> to < -p)
  }

  lemma MovableParks(m: map<CellId, int>, cell: CellId, to: int)
    requires cell in m && 0 <= to != m[cell] && Movable(m, cell, to)
    ensures Free(m, cell, -(m[cell] + 1))
  {
  }

  lemma MovableIsSafeAway(m: map<CellId, int>, cell: CellId, to: int)
    requires Unique(m) && cell in m && 0 <= to != m[cell] && Movable(m, cell, to)
    ensures Safe(Parked(m, cell), Gap(Parked(m, cell), cell, m[cell], to), Away)
  {
  }

  /** A row of the gap before and after the first statement on it. */
  lemma GapRow(m: map<CellId, int>, cell: CellId, to: int, a: CellId)
    requires cell in m && 0 <= to != m[cell] && a in m
    ensures var away := GapAway(Parked(m, cell), cell, m[cell], to);
      && a in away
      && (a == cell ==> away[a] == -(m[cell] + 1))
      && (a != cell ==>
            away[a] == if m[cell] < m[a] <= to || to <= m[a] < m[cell] then -m[a] - 1 else m[a])
  {
  }

  lemma MovableIsSafeBackDown(m: map<CellId, int>, cell: CellId, to: int, a: CellId, b: CellId)
    requires Unique(m) && cell in m && 0 <= to && m[cell] < to && Movable(m, cell, to)
    requires var away := GapAway(Parked(m, cell), cell, m[cell], to);
      a in away && b in away && a != b && a != cell && away[a] < 0
    ensures var away := GapAway(Parked(m, cell), cell, m[cell], to);
      BackDown(away[a]) != away[b] && (b != cell && away[b] < 0 ==> BackDown(away[a]) != BackDown(away[b]))
  {
    GapRow(m, cell, to, a);
    GapRow(m, cell, to, b);
  }

  lemma MovableIsSafeBackUp(m: map<CellId, int>, cell: CellId, to: int, a: CellId, b: CellId)
    requires Unique(m) && cell in m && 0 <= to < m[cell] && Movable(m, cell, to)
    requires var away := GapAway(Parked(m, cell), cell, m[cell], to);
      a in away && b in away && a != b && a != cell && away[a] < 0
    ensures var away := GapAway(Parked(m, cell), cell, m[cell], to);
      BackUp(away[a]) != away[b] && (b != cell && away[b] < 0 ==> BackUp(away[a]) != BackUp(away[b]))
  {
    GapRow(m, cell, to, a);
    GapRow(m, cell, to, b);
  }

  lemma MovableIsSafeBack(m: map<CellId, int>, cell: CellId, to: int)
    requires Unique(m) && cell in m && 0 <= to != m[cell] && Movable(m, cell, to)
    ensures var away := GapAway(Parked(m, cell), cell, m[cell], to);
      Safe(away, Negatives(away) - {cell}, Back(m[cell], to))
  {
    hide Unique, Movable, GapAway, Parked;
    var away := GapAway(Parked(m, cell), cell, m[cell], to);
    forall a, b | a in away && b in away && a != b && a != cell && away[a] < 0
      ensures Back(m[cell], to)(away[a]) != away[b]
      ensures b != cell && away[b] < 0 ==> Back(m[cell], to)(away[a]) != Back(m[cell], to)(away[b])
    {
      if to > m[cell] {
        MovableIsSafeBackDown(m, cell, to, a, b);
      } else {
        MovableIsSafeBackUp(m, cell, to, a, b);
      }
    }
  }

  lemma MovableRow(m: map<CellId, int>, cell: CellId, to: int, a: CellId)
    requires cell in m && 0 <= to != m[cell] && Movable(m, cell, to) && a in m && a != cell
    ensures var shifted := GapShifted(Parked(m, cell), cell, m[cell], to);
      a in shifted && shifted[a] == Moved(m, cell, to)[a]
  {
    GapRow(m, cell, to, a);
  }

  lemma MovableIsMoved(m: map<CellId, int>, cell: CellId, to: int)
    requires cell in m && 0 <= to != m[cell] && Movable(m, cell, to)
    ensures FourStatements(m, cell, to) == Moved(m, cell, to)
  {
    hide Movable, Parked, GapShifted;
    GapKeepsRows(m, cell, to);
    forall a | a in m && a != cell
      ensures GapShifted(Parked(m, cell), cell, m[cell], to)[a] == Moved(m, cell, to)[a]
    {
      MovableRow(m, cell, to, a);
    }
  }

  lemma GapKeepsRows(m: map<CellId, int>, cell: CellId, to: int)
    requires cell in m
    ensures GapShifted(Parked(m, cell), cell, m[cell], to).Keys == m.Keys
  {
  }

  lemma MovedAvoids(m: map<CellId, int>, cell: CellId, to: int, a: CellId)
    requires Unique(m) && cell in m && a in m && a != cell
    ensures a in Moved(m, cell, to) && Moved(m, cell, to)[a] != to
  {
  }

  lemma MovableTargetIsFree(m: map<CellId, int>, cell: CellId, to: int)
    requires Unique(m) && cell in m && 0 <= to != m[cell] && Movable(m, cell, to)
    ensures Free(GapShifted(Parked(m, cell), cell, m[cell], to), cell, to)
  {
    hide Movable, GapShifted, Parked, Moved, Unique;
    GapKeepsRows(m, cell, to);
    var shifted := GapShifted(Parked(m, cell), cell, m[cell], to);
    forall a | a in shifted && a != cell ensures shifted[a] != to {
      MovableRow(m, cell, to, a);
      MovedAvoids(m, cell, to, a);
    }
  }

  /** Up the list a negative row comes back positive. */
  lemma WorkingMoveUp(m: map<CellId, int>, cell: CellId, to: int, a: CellId)
    requires cell in m && 0 <= to < m[cell] && a in m && a != cell
    requires FourStatements(m, cell, to) == Moved(m, cell, to)
    ensures 0 <= m[a]
  {
    GapRow(m, cell, to, a);
    assert FourStatements(m, cell, to)[a] == Moved(m, cell, to)[a];
  }

  /** Down the list only -1 comes back to itself, and it must not meet the parked cell. */
  lemma WorkingMoveDown(m: map<CellId, int>, cell: CellId, to: int, a: CellId)
    requires cell in m && 0 <= m[cell] < to && a in m && a != cell
    requires FourStatements(m, cell, to) == Moved(m, cell, to) && Free(m, cell, -(m[cell] + 1))
    ensures 0 <= m[a] || (m[a] == -1 && m[cell] != 0)
  {
    GapRow(m, cell, to, a);
    assert FourStatements(m, cell, to)[a] == Moved(m, cell, to)[a];
  }

  /** A cell moved out of the negatives: other negative rows do not come back to themselves. */
  lemma WorkingMoveOut(m: map<CellId, int>, cell: CellId, to: int, a: CellId)
    requires Unique(m) && cell in m && m[cell] < 0 <= to && a in m && a != cell
    requires FourStatements(m, cell, to) == Moved(m, cell, to)
    ensures 0 <= m[a]
  {
    GapRow(m, cell, to, a);
    assert FourStatements(m, cell, to)[a] == Moved(m, cell, to)[a];
  }

  /** It is parked among the others, and must meet none of them. */
  lemma ParkedOutMeetsNone(m: map<CellId, int>, cell: CellId, to: int, a: CellId)
    requires cell in m && m[cell] < 0 <= to && a in m && a != cell && 0 <= m[a]
    requires MoveSucceeds(m, cell, to)
    ensures m[a] != -m[cell] - 1 && (m[a] == -m[cell] ==> to < -m[cell])
  {
    GapRow(m, cell, to, a);
    GapRow(m, cell, to, cell);
    var away := GapAway(Parked(m, cell), cell, m[cell], to);
    hide GapAway, GapShifted, Parked;
    assert away[a] < 0 ==> a in Negatives(away) - {cell};
    assert away[a] < 0 ==> Back(m[cell], to)(away[a]) != away[cell];
  }

  lemma WorkingMoveIsMovable(m: map<CellId, int>, cell: CellId, to: int)
    requires Unique(m) && cell in m && 0 <= to != m[cell] && MoveWorks(m, cell, to)
    ensures Movable(m, cell, to)
  {
    assert Free(m, cell, -(m[cell] + 1));
    hide Unique, MoveSucceeds, FourStatements, Moved, Free;
    forall a | a in m && a != cell
      ensures if to < m[cell] then 0 <= m[a]
              else if 0 <= m[cell] then 0 <= m[a] || (m[a] == -1 && m[cell] != 0)
              else 0 <= m[a] != -m[cell] - 1 && (m[a] == -m[cell] ==> to < -m[cell])
    {
      if to < m[cell] {
        WorkingMoveUp(m, cell, to, a);
      } else if 0 <= m[cell] {
        WorkingMoveDown(m, cell, to, a);
      } else {
        WorkingMoveOut(m, cell, to, a);
        ParkedOutMeetsNone(m, cell, to, a);
      }
    }
  }

  lemma MovableSucceeds(m: map<CellId, int>, cell: CellId, to: int)
    requires Unique(m) && cell in m && 0 <= to != m[cell] && Movable(m, cell, to)
    ensures MoveSucceeds(m, cell, to)
  {
    hide Unique, Movable, Free, Safe, GapAway, GapShifted, Parked;
    MovableParks(m, cell, to);
    MovableIsSafeAway(m, cell, to);
    MovableIsSafeBack(m, cell, to);
    MovableTargetIsFree(m, cell, to);
  }

  /** The four statements of a move succeed in every row order and move the cell if and only if it is movable. */
  lemma MoveWorksIffMovable(m: map<CellId, int>, cell: CellId, to: int)
    requires Unique(m) && cell in m && 0 <= to != m[cell]
    ensures MoveWorks(m, cell, to) <==> Movable(m, cell, to)
  {
    hide Unique, Movable, MoveSucceeds, FourStatements, Moved;
    if Movable(m, cell, to) {
      MovableSucceeds(m, cell, to);
      MovableIsMoved(m, cell, to);
    }
    if MoveWorks(m, cell, to) {
      WorkingMoveIsMovable(m, cell, to);
    }
  }

  /** Without negative positions everything can be shifted, moved and swapped, and nothing becomes negative. */
  lemma NonNegativeIsEnough(m: map<CellId, int>, cell: CellId, to: int)
    requires NonNegative(m) && cell in m && 0 <= to
    ensures Shiftable(m, to) && Movable(m, cell, to) && Free(m, cell, -(m[cell] + 1))
    ensures NonNegative(Shifted(m, to)) && NonNegative(Moved(m, cell, to))
  {
  }

  // ---------------------------------------------------------------------------
  // The handlers
  // ---------------------------------------------------------------------------

  /** One past the highest position, 0 for an empty notebook. */
  ghost predicate IsEnd(m: map<CellId, int>, p: int) {
    && (forall a :: a in m ==> m[a] < p)
    && (if m == map[] then p == 0 else exists a :: a in m && m[a] == p - 1)
  }

  /** A copy behind its original, in a table where room was made for it. */
  function Copied(room: (map<CellId, int>, int) -> map<CellId, int>, m: map<CellId, int>, source: CellId, copy: CellId):
      map<CellId, int>
    requires source in m
  {
    room(m, m[source] + 1)[copy := m[source] + 1]
  }

  /** Conflict: a statement met another row's position. */
  datatype MoveResult = InvalidPosition | CellNotFound | NoChange | Conflict | Done

  class CellTable {
    var position: map<CellId, int>

    constructor (initial: map<CellId, int>)
      ensures position == initial
    {
      position := initial;
    }

    /** One row written or inserted; refused if another row holds the position. */
    method Write(cell: CellId, p: int) returns (ok: bool)
      modifies this
      ensures ok <==> Free(old(position), cell, p)
      ensures position == if ok then old(position)[cell := p] else old(position)
      ensures Unique(old(position)) ==> Unique(position)
    {
      ok := forall other :: other in position && other != cell ==> position[other] != p;
      if ok {
        position := position[cell := p];
      }
    }

    /** An UPDATE over the rows selected when it starts, visited in any order; a refused row undoes the statement. */
    method Update(rows: set<CellId>, f: int -> int) returns (ok: bool)
      requires rows <= position.Keys && Unique(position)
      modifies this
      ensures Unique(position)
      ensures position == if ok then Updated(old(position), rows, f) else old(position)
      ensures Safe(old(position), rows, f) ==> ok
    {
      var before := position;
      var rest := rows;
      ok := true;
      NothingUpdated(before, rows, f);
      while rest != {}
        invariant rest <= rows && position == Updated(before, rows - rest, f) && Unique(position)
        decreases rest
      {
        var a :| a in rest;
        OneMoreUpdated(before, rows, rest, a, f);
        ok := Write(a, f(position[a]));
        if !ok {
          SafeWrites(before, rows, rest, a, f);
          position := before;
          return;
        }
        rest := rest - {a};
      }
      assert rows - rest == rows;
      ok := true;
    }

    /**
     Makes room at position k. In a transaction a refused statement undoes the other one; the
     HTTP handlers run the statements on their own.
     */
    method ShiftFrom(k: int, transaction: bool) returns (ok: bool)
      requires Unique(position)
      modifies this
      ensures Unique(position)
      ensures ok ==> position == TwoPhaseShift(old(position), k)
      ensures !ok ==> position == old(position) || (!transaction && position == ShiftedAway(old(position), k))
      ensures Shiftable(old(position), k) ==> ok && position == Shifted(old(position), k)
    {
      TwoPhaseShiftIffShiftable(position, k);
      hide Unique, Safe, Updated, Shifted, Shiftable;
      var before := position;
      ok := Update(From(position, k), Away);
      if ok {
        ok := Update(Negatives(position), BackUp);
        if !ok && transaction {
          position := before;
        }
      }
    }

    /** The notebook tool's move, in a transaction: positions in requests count from one. */
    method MoveCell(cell: CellId, newPosition: int) returns (r: MoveResult)
      requires Unique(position)
      modifies this
      ensures Unique(position)
      ensures if newPosition <= 0 then r == InvalidPosition
              else if cell !in old(position) then r == CellNotFound
              else if newPosition - 1 == old(position)[cell] then r == NoChange
              else r == Done || (r == Conflict && !Movable(old(position), cell, newPosition - 1))
      ensures if r == Done then position == FourStatements(old(position), cell, newPosition - 1)
              else position == old(position)
      ensures r == Done && Movable(old(position), cell, newPosition - 1) ==>
                position == Moved(old(position), cell, newPosition - 1)
    {
      hide *;
      if newPosition <= 0 {
        return InvalidPosition;
      }
      var newPos := newPosition - 1;
      if cell !in position {
        return CellNotFound;
      }
      if newPos == position[cell] {
        return NoChange;
      }
      var ok := Relocate(cell, newPos);
      r := if ok then Done else Conflict;
    }

    /** The transaction of a move. */
    method Relocate(cell: CellId, newPos: int) returns (ok: bool)
      requires Unique(position) && cell in position && 0 <= newPos != position[cell]
      modifies this
      ensures Unique(position)
      ensures position == if ok then FourStatements(old(position), cell, newPos) else old(position)
      ensures Movable(old(position), cell, newPos) ==> ok && position == Moved(old(position), cell, newPos)
    {
      var before := position;
      MoveWorksIffMovable(before, cell, newPos);
      hide Unique, Movable, MoveSucceeds, FourStatements, Moved;
      ok := RunStatements(cell, newPos);
      if !ok {
        position := before;
      }
    }

    /** The cell is parked, its neighbours shifted, the cell put down; a refused write ends the run. */
    method RunStatements(cell: CellId, newPos: int) returns (ok: bool)
      requires Unique(position) && cell in position && 0 <= newPos != position[cell]
      modifies this
      ensures ok ==> Unique(position) && position == FourStatements(old(position), cell, newPos)
      ensures MoveSucceeds(old(position), cell, newPos) ==> ok
    {
      hide *;
      var oldPos := position[cell];
      StatementsOfMove(position, cell, newPos);
      ok := Write(cell, -(oldPos + 1));
      if ok {
        ok := ShiftGap(cell, oldPos, newPos);
      }
      if ok {
        ok := Write(cell, newPos);
      }
    }

    /** The two statements on the rows between the positions. */
    method ShiftGap(cell: CellId, oldPos: int, newPos: int) returns (ok: bool)
      requires Unique(position) && newPos != oldPos
      modifies this
      ensures ok ==> Unique(position) && position == GapShifted(old(position), cell, oldPos, newPos)
      ensures GapSucceeds(old(position), cell, oldPos, newPos) ==> ok
    {
      hide Unique, Safe, Updated;
      if newPos > oldPos {
        ok := Update(Between(position, oldPos + 1, newPos + 1, cell), Away);
        if ok {
          ok := Update(Negatives(position) - {cell}, BackDown);
        }
      } else {
        ok := Update(Between(position, newPos, oldPos, cell), Away);
        if ok {
          ok := Update(Negatives(position) - {cell}, BackUp);
        }
      }
    }

    /** The notebook tool's swap, in a transaction, which parks the first cell. */
    method SwapCells(a: CellId, b: CellId) returns (ok: bool)
      requires Unique(position)
      modifies this
      ensures Unique(position)
      ensures ok <==> && a != b && a in old(position) && b in old(position)
                      && Free(old(position), a, -(old(position)[a] + 1))
      ensures position == if ok then old(position)[a := old(position)[b]][b := old(position)[a]] else old(position)
    {
      if a == b || a !in position || b !in position {
        return false;
      }
      var before, posA, posB := position, position[a], position[b];
      ok := Write(a, -(posA + 1));
      if !ok {
        return;
      }
      SwapIsFree(before, a, b);
      ok := Write(b, posA);
      ok := Write(a, posB);
    }

    method MaxPosition() returns (top: int)
      ensures forall a :: a in position ==> position[a] <= top
      ensures if position == map[] then top == -1 else exists a :: a in position && position[a] == top
    {
      top := -1;
      var rest := position.Keys;
      var first := true;
      while rest != {}
        invariant rest <= position.Keys && (first <==> rest == position.Keys)
        invariant first ==> top == -1
        invariant forall a :: a in position && a !in rest ==> position[a] <= top
        invariant !first ==> exists a :: a in position && position[a] == top
        decreases rest
      {
        var a :| a in rest;
        if first || position[a] > top {
          top := position[a];
        }
        first := false;
        rest := rest - {a};
      }
    }

    /** Creates a cell at a position with room made for it. */
    method CreateCellAt(cell: CellId, at: int, transaction: bool) returns (ok: bool)
      requires Unique(position) && cell !in position
      modifies this
      ensures Unique(position)
      ensures ok ==> position == TwoPhaseShift(old(position), at)[cell := at]
      ensures !ok ==> cell !in position && position.Keys == old(position).Keys
      ensures Shiftable(old(position), at) ==> ok && position == Shifted(old(position), at)[cell := at]
      ensures NonNegative(old(position)) ==> (NonNegative(position) <==> 0 <= at)
    {
      RoomIsFree(position, cell, at);
      StaysNonNegative(position, cell, at);
      hide Unique, NonNegative, Free, Updated, Shifted, Shiftable;
      ok := ShiftFrom(at, transaction);
      if ok {
        ok := Write(cell, at);
      }
    }

    /** Creates a cell after the last one. */
    method AppendCell(cell: CellId) returns (p: int)
      requires Unique(position) && cell !in position
      modifies this
      ensures Unique(position) && IsEnd(old(position), p) && position == old(position)[cell := p]
      ensures NonNegative(old(position)) ==> NonNegative(position)
    {
      var top := MaxPosition();
      p := top + 1;
      var _ := Write(cell, p);
    }

    /** Duplicates a cell: the copy takes the place right after the original. */
    method DuplicateCell(source: CellId, copy: CellId) returns (ok: bool)
      requires Unique(position) && copy !in position
      modifies this
      ensures Unique(position)
      ensures ok ==> source in old(position) && position == Copied(TwoPhaseShift, old(position), source, copy)
      ensures !ok ==> copy !in position && position.Keys == old(position).Keys
      ensures source in old(position) && NonNegative(old(position)) ==>
                ok && NonNegative(position) && position == Copied(Shifted, old(position), source, copy)
    {
      if source !in position {
        return false;
      }
      ok := CreateCellAt(copy, position[source] + 1, false);
    }
  }

  lemma StatementsOfMove(m: map<CellId, int>, cell: CellId, to: int)
    requires cell in m
    ensures var parked := m[cell := -(m[cell] + 1)];
      var shifted := GapShifted(parked, cell, m[cell], to);
      && FourStatements(m, cell, to) == shifted[cell := to]
      && (MoveSucceeds(m, cell, to) ==>
           Free(m, cell, -(m[cell] + 1)) && GapSucceeds(parked, cell, m[cell], to) && Free(shifted, cell, to))
  {
    hide GapSucceeds, GapShifted, Free;
  }

  lemma NothingUpdated(m: map<CellId, int>, rows: set<CellId>, f: int -> int)
    ensures Updated(m, rows - rows, f) == m
  {
  }

  lemma OneMoreUpdated(m: map<CellId, int>, rows: set<CellId>, rest: set<CellId>, a: CellId, f: int -> int)
    requires rest <= rows <= m.Keys && a in rest
    ensures var before := Updated(m, rows - rest, f);
      a in before && before[a] == m[a] && before[a := f(m[a])] == Updated(m, rows - (rest - {a}), f)
  {
  }

  /** A safe statement has no refused row. */
  lemma SafeWrites(m: map<CellId, int>, rows: set<CellId>, rest: set<CellId>, a: CellId, f: int -> int)
    requires rest <= rows <= m.Keys && a in rest && !Free(Updated(m, rows - rest, f), a, f(m[a]))
    ensures !Safe(m, rows, f)
  {
    var now := Updated(m, rows - rest, f);
    var b :| b in now && b != a && now[b] == f(m[a]);
    assert m[b] == f(m[a]) || (b in rows && f(m[b]) == f(m[a]));
  }

  /** With the first cell parked both writes of a swap find their position free. */
  lemma SwapIsFree(m: map<CellId, int>, a: CellId, b: CellId)
    requires Unique(m) && a in m && b in m && a != b && Free(m, a, -(m[a] + 1))
    ensures var parked := m[a := -(m[a] + 1)];
      Free(parked, b, m[a]) && Free(parked[b := m[a]], a, m[b])
  {
  }

  lemma RoomIsFree(m: map<CellId, int>, cell: CellId, at: int)
    requires Unique(m) && cell !in m
    ensures Free(Shifted(m, at), cell, at) && cell !in TwoPhaseShift(m, at) && cell !in ShiftedAway(m, at)
    ensures TwoPhaseShift(m, at).Keys == m.Keys && ShiftedAway(m, at).Keys == m.Keys
  {
    ShiftKeepsUnique(m, at);
  }

  lemma StaysNonNegative(m: map<CellId, int>, cell: CellId, at: int)
    ensures NonNegative(m) ==> Shiftable(m, at) && (NonNegative(Shifted(m, at)[cell := at]) <==> 0 <= at)
  {
    assert Shifted(m, at)[cell := at][cell] == at;
  }
}
