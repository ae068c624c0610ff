/**
 The edit distance between two versions of a cell: the dynamic-programming table against the
 least number of single-character edits leading from one text to the other.
 */
module EditDistance {

  // ---------------------------------------------------------------------------
  // Single-character edits
  // ---------------------------------------------------------------------------

  datatype Edit = Insert(at: nat, c: char) | Delete(at: nat) | Substitute(at: nat, c: char)

  ghost predicate Applicable(e: Edit, s: string) {
    match e
    case Insert(at, _) => at <= |s|
    case Delete(at) => at < |s|
    case Substitute(at, _) => at < |s|
  }

  ghost function Apply(e: Edit, s: string): string
    requires Applicable(e, s)
  {
    match e
    case Insert(at, c) => s[..at] + [c] + s[at..]
    case Delete(at) => s[..at] + s[at + 1..]
    case Substitute(at, c) => s[at := c]
  }

  /** The edits, applied in order, lead from a to b. */
  ghost predicate Leads(edits: seq<Edit>, a: string, b: string)
    decreases |edits|
  {
    if edits == [] then a == b
    else Applicable(edits[0], a) && Leads(edits[1..], Apply(edits[0], a), b)
  }

  // ---------------------------------------------------------------------------
  // The recurrence
  // ---------------------------------------------------------------------------

  function Min(a: nat, b: nat): nat {
    if b < a then b else a
  }

  function Min3(a: nat, b: nat, c: nat): nat {
    Min(Min(a, b), c)
  }

  function Init(s: string): string
    requires s != ""
  {
    s[..|s| - 1]
  }

  function Last(s: string): char
    requires s != ""
  {
    s[|s| - 1]
  }

  /** The cost of turning one last character into the other. */
  function Swap(a: string, b: string): nat
    requires a != "" && b != ""
  {
    if Last(a) == Last(b) then 0 else 1
  }

  /** The least of deleting, inserting or matching the last characters, with no greedy step. */
  function Dist(a: string, b: string): nat
    decreases |a| + |b|
  {
    if a == "" then |b|
    else if b == "" then |a|
    else Min3(1 + Dist(Init(a), b), 1 + Dist(a, Init(b)), Swap(a, b) + Dist(Init(a), Init(b)))
  }

  // ---------------------------------------------------------------------------
  // Metric
  // ---------------------------------------------------------------------------

  lemma {:induction false} Symmetric(a: string, b: string)
    ensures Dist(a, b) == Dist(b, a)
    decreases |a| + |b|
  {
    if a != "" && b != "" {
      Symmetric(Init(a), b);
      Symmetric(a, Init(b));
      Symmetric(Init(a), Init(b));
    }
  }

  lemma {:induction false} ZeroIffEqual(a: string, b: string)
    ensures Dist(a, b) == 0 <==> a == b
    decreases |a| + |b|
  {
    if a != "" && b != "" {
      ZeroIffEqual(Init(a), Init(b));
      assert a == Init(a) + [Last(a)] && b == Init(b) + [Last(b)];
    }
  }

  /** Dropping the last character moves the distance by at most one. */
  lemma {:induction false} Neighbours(a: string, b: string)
    requires a != ""
    ensures Dist(a, b) <= Dist(Init(a), b) + 1
    ensures Dist(Init(a), b) <= Dist(a, b) + 1
    decreases |a| + |b|
  {
    if b != "" {
      Neighbours(a, Init(b));
      if Init(a) != "" {
        Neighbours(Init(a), Init(b));
      }
    }
  }

  /** With equal last characters the diagonal alone is already least: the greedy step is sound. */
  lemma GreedyStep(a: string, b: string)
    requires a != "" && b != "" && Last(a) == Last(b)
    ensures Dist(a, b) == Dist(Init(a), Init(b))
  {
    Neighbours(a, Init(b));
    Neighbours(b, Init(a));
    Symmetric(b, Init(a));
    Symmetric(Init(b), Init(a));
  }

  lemma {:induction false} Triangle(a: string, b: string, c: string)
    ensures Dist(a, c) <= Dist(a, b) + Dist(b, c)
    decreases |a| + |b| + |c|
  {
    if a == "" {
      LengthBound(b, c);
    } else if c == "" {
      LengthBound(b, a);
      Symmetric(a, b);
    } else if b != "" {
      Triangle(Init(a), b, c);
      Triangle(a, b, Init(c));
      Triangle(a, Init(b), c);
      Triangle(a, Init(b), Init(c));
      Triangle(Init(a), Init(b), c);
      Triangle(Init(a), Init(b), Init(c));
    } else {
      UpperBound(a, c);
    }
  }

  lemma {:induction false} LengthBound(a: string, b: string)
    ensures |b| <= |a| + Dist(a, b)
    decreases |a| + |b|
  {
    if a != "" && b != "" {
      LengthBound(Init(a), b);
      LengthBound(a, Init(b));
      LengthBound(Init(a), Init(b));
    }
  }

  lemma {:induction false} UpperBound(a: string, b: string)
    ensures Dist(a, b) <= |a| + |b|
    decreases |a| + |b|
  {
    if a != "" && b != "" {
      UpperBound(Init(a), b);
    }
  }

  // ---------------------------------------------------------------------------
  // The distance is the least number of edits
  // ---------------------------------------------------------------------------

  lemma {:induction false} CommonSuffix(a: string, b: string, tail: string)
    ensures Dist(a + tail, b + tail) == Dist(a, b)
  {
    if tail == "" {
      assert a + tail == a && b + tail == b;
    } else {
      assert Init(a + tail) == a + Init(tail) && Init(b + tail) == b + Init(tail);
      GreedyStep(a + tail, b + tail);
      CommonSuffix(a, b, Init(tail));
    }
  }

  lemma AppendCostsOne(a: string, c: char)
    ensures Dist(a, a + [c]) <= 1 && Dist(a + [c], a) <= 1
  {
    ZeroIffEqual(a, a);
    assert Init(a + [c]) == a;
    Neighbours(a + [c], a);
  }

  lemma InsertionCostsOne(p: string, c: char, q: string)
    ensures Dist(p + q, p + [c] + q) <= 1 && Dist(p + [c] + q, p + q) <= 1
  {
    AppendCostsOne(p, c);
    CommonSuffix(p, p + [c], q);
    CommonSuffix(p + [c], p, q);
  }

  lemma SubstitutionCostsOne(p: string, x: char, y: char, q: string)
    ensures Dist(p + [x] + q, p + [y] + q) <= 1
  {
    ZeroIffEqual(p, p);
    assert Init(p + [x]) == p && Init(p + [y]) == p;
    CommonSuffix(p + [x], p + [y], q);
  }

  /** One edit moves a text by a distance of at most one. */
  lemma EditCostsAtMostOne(s: string, e: Edit)
    requires Applicable(e, s)
    ensures Dist(s, Apply(e, s)) <= 1
  {
    hide Dist;
    match e
    case Insert(at, c) =>
      InsertionCostsOne(s[..at], c, s[at..]);
      assert s == s[..at] + s[at..];
    case Delete(at) =>
      InsertionCostsOne(s[..at], s[at], s[at + 1..]);
      assert s == s[..at] + [s[at]] + s[at + 1..];
    case Substitute(at, c) =>
      SubstitutionCostsOne(s[..at], s[at], c, s[at + 1..]);
      assert s == s[..at] + [s[at]] + s[at + 1..] && s[at := c] == s[..at] + [c] + s[at + 1..];
  }

  /** No sequence of edits is shorter than the distance. */
  lemma {:induction false} NoShorterScript(edits: seq<Edit>, a: string, b: string)
    requires Leads(edits, a, b)
    ensures Dist(a, b) <= |edits|
    decreases |edits|
  {
    if edits == [] {
      ZeroIffEqual(a, b);
    } else {
      var mid := Apply(edits[0], a);
      NoShorterScript(edits[1..], mid, b);
      EditCostsAtMostOne(a, edits[0]);
      Triangle(a, mid, b);
    }
  }

  lemma {:induction false} LeadsThrough(first: seq<Edit>, second: seq<Edit>, a: string, mid: string, b: string)
    requires Leads(first, a, mid) && Leads(second, mid, b)
    ensures Leads(first + second, a, b)
    decreases |first|
  {
    if first == [] {
      assert first + second == second;
    } else {
      LeadsThrough(first[1..], second, Apply(first[0], a), mid, b);
      assert (first + second)[1..] == first[1..] + second;
    }
  }

  lemma LeadsByOne(e: Edit, a: string)
    requires Applicable(e, a)
    ensures Leads([e], a, Apply(e, a))
  {
    assert [e][1..] == [];
  }

  lemma {:induction false} LeadsBeforeSuffix(edits: seq<Edit>, a: string, b: string, c: char)
    requires Leads(edits, a, b)
    ensures Leads(edits, a + [c], b + [c])
    decreases |edits|
  {
    if edits != [] {
      assert Apply(edits[0], a + [c]) == Apply(edits[0], a) + [c];
      LeadsBeforeSuffix(edits[1..], Apply(edits[0], a), b, c);
    }
  }

  lemma DeleteLastThen(edits: seq<Edit>, a: string, b: string)
    requires a != "" && Leads(edits, Init(a), b)
    ensures Leads([Delete(|a| - 1)] + edits, a, b)
  {
    assert Apply(Delete(|a| - 1), a) == Init(a);
    LeadsByOne(Delete(|a| - 1), a);
    LeadsThrough([Delete(|a| - 1)], edits, a, Init(a), b);
  }

  lemma ThenInsertLast(edits: seq<Edit>, a: string, b: string)
    requires b != "" && Leads(edits, a, Init(b))
    ensures Leads(edits + [Insert(|b| - 1, Last(b))], a, b)
  {
    assert Apply(Insert(|b| - 1, Last(b)), Init(b)) == b;
    LeadsByOne(Insert(|b| - 1, Last(b)), Init(b));
    LeadsThrough(edits, [Insert(|b| - 1, Last(b))], a, Init(b), b);
  }

  lemma MatchLastThen(edits: seq<Edit>, a: string, b: string)
    requires a != "" && b != "" && Leads(edits, Init(a), Init(b))
    ensures Leads((if Last(a) == Last(b) then [] else [Substitute(|a| - 1, Last(b))]) + edits, a, b)
  {
    hide Leads;
    LeadsBeforeSuffix(edits, Init(a), Init(b), Last(b));
    assert b == Init(b) + [Last(b)] && a[|a| - 1 := Last(b)] == Init(a) + [Last(b)];
    if Last(a) == Last(b) {
      assert a == Init(a) + [Last(b)];
      assert [] + edits == edits;
    } else {
      LeadsByOne(Substitute(|a| - 1, Last(b)), a);
      LeadsThrough([Substitute(|a| - 1, Last(b))], edits, a, Init(a) + [Last(b)], b);
    }
  }

  /** A sequence of exactly that many edits exists. */
  lemma {:induction false} SomeScript(a: string, b: string) returns (edits: seq<Edit>)
    ensures Leads(edits, a, b) && |edits| == Dist(a, b)
    decreases |a| + |b|
  {
    if a == "" && b == "" {
      edits := [];
    } else if a != "" && (b == "" || Dist(a, b) == 1 + Dist(Init(a), b)) {
      edits := SomeScript(Init(a), b);
      DeleteLastThen(edits, a, b);
      edits := [Delete(|a| - 1)] + edits;
    } else if a == "" || Dist(a, b) == 1 + Dist(a, Init(b)) {
      edits := SomeScript(a, Init(b));
      ThenInsertLast(edits, a, b);
      edits := edits + [Insert(|b| - 1, Last(b))];
    } else {
      edits := SomeScript(Init(a), Init(b));
      MatchLastThen(edits, a, b);
      edits := (if Last(a) == Last(b) then [] else [Substitute(|a| - 1, Last(b))]) + edits;
    }
  }

  /** The distance is exactly the least number of single-character edits. */
  ghost predicate IsEditDistance(d: nat, a: string, b: string) {
    && (exists edits :: Leads(edits, a, b) && |edits| == d)
    && (forall edits :: Leads(edits, a, b) ==> d <= |edits|)
  }

  lemma DistIsLeast(a: string, b: string)
    ensures IsEditDistance(Dist(a, b), a, b)
  {
    var edits := SomeScript(a, b);
    forall others | Leads(others, a, b) ensures Dist(a, b) <= |others| {
      NoShorterScript(others, a, b);
    }
  }

  // ---------------------------------------------------------------------------
  // The table
  // ---------------------------------------------------------------------------

  lemma PrefixCell(ra: string, rb: string, i: nat, j: nat)
    requires 0 < i <= |ra| && 0 < j <= |rb|
    ensures var a, b := ra[..i], rb[..j];
      && Init(a) == ra[..i - 1] && Init(b) == rb[..j - 1] && Last(a) == ra[i - 1] && Last(b) == rb[j - 1]
      && Dist(a, b) == if ra[i - 1] == rb[j - 1] then Dist(ra[..i - 1], rb[..j - 1])
                       else 1 + Min3(Dist(ra[..i - 1], b), Dist(a, rb[..j - 1]), Dist(ra[..i - 1], rb[..j - 1]))
  {
    var a, b := ra[..i], rb[..j];
    assert Init(a) == ra[..i - 1] && Init(b) == rb[..j - 1];
    if Last(a) == Last(b) {
      GreedyStep(a, b);
    }
  }

  lemma BorderCells(ra: string, rb: string)
    ensures forall p :: 0 <= p <= |ra| ==> Dist(ra[..p], rb[..0]) == p
    ensures forall q :: 0 <= q <= |rb| ==> Dist(ra[..0], rb[..q]) == q
    ensures ra[..|ra|] == ra && rb[..|rb|] == rb
  {
  }

  /** Rows below i, and row i up to column j, hold the distances of the prefixes. */
  ghost predicate Filled(dp: array2<nat>, ra: string, rb: string, i: nat, j: nat)
    requires dp.Length0 == |ra| + 1 && dp.Length1 == |rb| + 1
    reads dp
  {
    forall p, q :: 0 <= p <= |ra| && 0 <= q <= |rb| && (p < i || (p == i && q < j)) ==>
      dp[p, q] == Dist(ra[..p], rb[..q])
  }

  ghost predicate Borders(dp: array2<nat>, ra: string, rb: string)
    requires dp.Length0 == |ra| + 1 && dp.Length1 == |rb| + 1
    reads dp
  {
    && (forall p :: 0 <= p <= |ra| ==> dp[p, 0] == p)
    && (forall q :: 0 <= q <= |rb| ==> dp[0, q] == q)
  }

  /** The cell that the recurrence asks for from its three neighbours. */
  function CellFrom(same: bool, up: nat, left: nat, diagonal: nat): nat {
    if same then diagonal else 1 + Min3(up, left, diagonal)
  }

  lemma CellIsDist(dp: array2<nat>, ra: string, rb: string, i: nat, j: nat)
    requires dp.Length0 == |ra| + 1 && dp.Length1 == |rb| + 1 && 0 < i <= |ra| && 0 < j <= |rb|
    requires Filled(dp, ra, rb, i, j)
    ensures CellFrom(ra[i - 1] == rb[j - 1], dp[i - 1, j], dp[i, j - 1], dp[i - 1, j - 1]) == Dist(ra[..i], rb[..j])
  {
    PrefixCell(ra, rb, i, j);
    hide Dist;
    assert dp[i - 1, j] == Dist(ra[..i - 1], rb[..j]);
    assert dp[i, j - 1] == Dist(ra[..i], rb[..j - 1]);
    assert dp[i - 1, j - 1] == Dist(ra[..i - 1], rb[..j - 1]);
  }

  /** One inner cell, copying the diagonal where the characters agree. */
  method FillCell(dp: array2<nat>, ra: string, rb: string, i: nat, j: nat)
    requires dp.Length0 == |ra| + 1 && dp.Length1 == |rb| + 1 && 0 < i <= |ra| && 0 < j <= |rb|
    requires Borders(dp, ra, rb) && Filled(dp, ra, rb, i, j)
    modifies dp
    ensures Borders(dp, ra, rb) && Filled(dp, ra, rb, i, j + 1)
  {
    CellIsDist(dp, ra, rb, i, j);
    hide Dist;
    if ra[i - 1] == rb[j - 1] {
      dp[i, j] := dp[i - 1, j - 1];
    } else {
      var m := dp[i - 1, j];
      if dp[i, j - 1] < m {
        m := dp[i, j - 1];
      }
      if dp[i - 1, j - 1] < m {
        m := dp[i - 1, j - 1];
      }
      dp[i, j] := 1 + m;
    }
  }

  lemma RowDone(dp: array2<nat>, ra: string, rb: string, i: nat)
    requires dp.Length0 == |ra| + 1 && dp.Length1 == |rb| + 1 && i <= |ra|
    requires Filled(dp, ra, rb, i, |rb| + 1)
    ensures Filled(dp, ra, rb, i + 1, 0)
    ensures Borders(dp, ra, rb) ==> Filled(dp, ra, rb, i + 1, 1)
  {
    BorderCells(ra, rb);
    hide Dist;
  }

  /** Fills the table row by row. */
  method LevenshteinDistance(ra: string, rb: string) returns (d: nat)
    ensures IsEditDistance(d, ra, rb)
    ensures d == Dist(ra, rb)
  {
    DistIsLeast(ra, rb);
    BorderCells(ra, rb);
    hide Dist, IsEditDistance;
    var la, lb := |ra|, |rb|;
    if la == 0 {
      return lb;
    }
    if lb == 0 {
      return la;
    }
    var dp := new nat[la + 1, lb + 1]((p, q) => 0);
    for i := 0 to la + 1
      invariant forall p :: 0 <= p < i ==> dp[p, 0] == p
    {
      dp[i, 0] := i;
    }
    for j := 0 to lb + 1
      invariant forall p :: 0 <= p <= la ==> dp[p, 0] == p
      invariant forall q :: 0 <= q < j ==> dp[0, q] == q
    {
      dp[0, j] := j;
    }
    assert Filled(dp, ra, rb, 0, lb + 1);
    RowDone(dp, ra, rb, 0);
    hide Borders, Filled;
    for i := 1 to la + 1
      invariant Borders(dp, ra, rb) && Filled(dp, ra, rb, i, 1)
    {
      for j := 1 to lb + 1
        invariant Borders(dp, ra, rb) && Filled(dp, ra, rb, i, j)
      {
        FillCell(dp, ra, rb, i, j);
      }
      RowDone(dp, ra, rb, i);
    }
    d := ReadCorner(dp, ra, rb);
  }

  method ReadCorner(dp: array2<nat>, ra: string, rb: string) returns (d: nat)
    requires dp.Length0 == |ra| + 1 && dp.Length1 == |rb| + 1
    requires Filled(dp, ra, rb, |ra| + 1, 1)
    ensures d == Dist(ra, rb)
  {
    assert ra[..|ra|] == ra && rb[..|rb|] == rb;
    d := dp[|ra|, |rb|];
  }
}
