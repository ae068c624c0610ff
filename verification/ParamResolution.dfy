/**
 Query parameters: every {{key}} is replaced by the key's value, one key after another, in the
 unknown iteration order of a map.
 */
module ParamResolution {

  // ---------------------------------------------------------------------------
  // The loop
  // ---------------------------------------------------------------------------

  /** Replaces every non-overlapping occurrence, leftmost first; the pattern is never empty. */
  function ReplaceAll(text: string, pattern: string, value: string): string
    requires pattern != ""
    decreases |text|
  {
    if text == "" then ""
    else if pattern <= text then value + ReplaceAll(text[|pattern|..], pattern, value)
    else [text[0]] + ReplaceAll(text[1..], pattern, value)
  }

  function Quoted(key: string): string {
    "{{" + key + "}}"
  }

  /** The text after the first n keys of an order. */
  function Replaced(text: string, params: map<string, string>, order: seq<string>, n: nat): string
    requires n <= |order| && forall i :: 0 <= i < |order| ==> order[i] in params
  {
    if n == 0 then text
    else ReplaceAll(Replaced(text, params, order, n - 1), Quoted(order[n - 1]), params[order[n - 1]])
  }

  /** The keys of a map, each once. */
  ghost predicate IsOrder(order: seq<string>, params: map<string, string>) {
    && (forall i :: 0 <= i < |order| ==> order[i] in params)
    && (forall k :: k in params ==> k in order)
    && (forall i, j :: 0 <= i < j < |order| ==> order[i] != order[j])
  }

  /** The map is visited in an order the caller does not choose. */
  method ResolveParams(query: string, params: map<string, string>) returns (resolved: string)
    ensures exists order :: IsOrder(order, params) && resolved == Replaced(query, params, order, |order|)
    ensures forall template ::
              Text(template) == query && AllPlain(template) && PlainKeys(params) && Harmless(params) ==>
                resolved == Substituted(template, params)
  {
    resolved := query;
    ghost var order: seq<string> := [];
    var rest := params.Keys;
    while rest != {}
      invariant rest <= params.Keys
      invariant forall i :: 0 <= i < |order| ==> order[i] in params && order[i] !in rest
      invariant forall k :: k in params && k !in rest ==> k in order
      invariant forall i, j :: 0 <= i < j < |order| ==> order[i] != order[j]
      invariant resolved == Replaced(query, params, order, |order|)
      decreases rest
    {
      var k :| k in rest;
      ReplacedPrefix(query, params, order, order + [k], |order|);
      resolved := ReplaceAll(resolved, "{{" + k + "}}", params[k]);
      order := order + [k];
      rest := rest - {k};
    }
    assert IsOrder(order, params);
    forall template | Text(template) == query && AllPlain(template) && PlainKeys(params) && Harmless(params)
      ensures resolved == Substituted(template, params)
    {
      hide *;
      AnyOrderSubstitutes(template, params, order);
    }
  }

  lemma {:induction false} ReplacedPrefix(text: string, params: map<string, string>,
                                          one: seq<string>, two: seq<string>, n: nat)
    requires n <= |one| && one <= two
    requires forall i :: 0 <= i < |two| ==> two[i] in params
    ensures forall i :: 0 <= i < |one| ==> one[i] == two[i]
    ensures Replaced(text, params, one, n) == Replaced(text, params, two, n)
  {
    if n > 0 {
      ReplacedPrefix(text, params, one, two, n - 1);
    }
  }

  // ---------------------------------------------------------------------------
  // Templates
  // ---------------------------------------------------------------------------

  datatype Piece = Literal(text: string) | Placeholder(key: string)

  function Shown(p: Piece): string {
    match p
    case Literal(text) => text
    case Placeholder(key) => Quoted(key)
  }

  function Text(template: seq<Piece>): string {
    if template == [] then "" else Shown(template[0]) + Text(template[1..])
  }

  /** Literals hold no opening brace, placeholder keys no brace at all. */
  predicate Plain(p: Piece) {
    match p
    case Literal(text) => '{' !in text
    case Placeholder(key) => '{' !in key && '}' !in key
  }

  ghost predicate AllPlain(template: seq<Piece>) {
    forall i :: 0 <= i < |template| ==> Plain(template[i])
  }

  ghost predicate PlainKeys(params: map<string, string>) {
    forall k :: k in params ==> '{' !in k && '}' !in k
  }

  /** Every placeholder with a value at once; nothing that a value brings in is looked at again. */
  function Substituted(template: seq<Piece>, params: map<string, string>): string {
    if template == [] then ""
    else (if template[0].Placeholder? && template[0].key in params then params[template[0].key] else Shown(template[0]))
         + Substituted(template[1..], params)
  }

  // ---------------------------------------------------------------------------
  // One replacement fills exactly the placeholders of its key
  // ---------------------------------------------------------------------------

  lemma SkipChar(c: char, rest: string, key: string, value: string)
    requires c != '{'
    ensures ReplaceAll([c] + rest, Quoted(key), value) == [c] + ReplaceAll(rest, Quoted(key), value)
  {
    assert ([c] + rest)[1..] == rest;
    assert ([c] + rest)[0] != Quoted(key)[0];
  }

  lemma Regroup(text: string, rest: string)
    requires text != ""
    ensures text + rest == [text[0]] + (text[1..] + rest)
  {
  }

  lemma {:induction false} SkipText(text: string, rest: string, key: string, value: string)
    requires '{' !in text
    ensures ReplaceAll(text + rest, Quoted(key), value) == text + ReplaceAll(rest, Quoted(key), value)
  {
    hide ReplaceAll;
    if text == "" {
      assert text + rest == rest;
    } else {
      SkipText(text[1..], rest, key, value);
      SkipChar(text[0], text[1..] + rest, key, value);
      Regroup(text, rest);
      Regroup(text, ReplaceAll(rest, Quoted(key), value));
    }
  }

  lemma TakeMatch(rest: string, key: string, value: string)
    ensures ReplaceAll(Quoted(key) + rest, Quoted(key), value) == value + ReplaceAll(rest, Quoted(key), value)
  {
    assert (Quoted(key) + rest)[|Quoted(key)|..] == rest;
  }

  /** Two quoted keys differ before either ends. */
  lemma QuotedKeysClash(one: string, two: string, rest: string)
    requires '}' !in one && '}' !in two && one != two
    ensures !(Quoted(one) <= Quoted(two) + rest)
  {
    var a, b := Quoted(one), Quoted(two) + rest;
    assert |one| == |two| && (forall k :: 0 <= k < |one| ==> one[k] == two[k]) ==> one == two;
    if k :| 0 <= k < |one| && k < |two| && one[k] != two[k] {
      assert a[2 + k] == one[k] && b[2 + k] == two[k];
    } else if |one| < |two| {
      assert a[2 + |one|] == '}' && b[2 + |one|] == two[|one|];
    } else if |two| < |one| {
      assert a[2 + |two|] == one[|two|] && b[2 + |two|] == '}';
    }
  }

  /** One brace into a quoted key no quoted key can start. */
  lemma SecondBraceClashes(one: string, two: string, rest: string)
    requires '{' !in two
    ensures !(Quoted(one) <= ("{" + (two + "}}")) + rest)
  {
    var b := ("{" + (two + "}}")) + rest;
    assert Quoted(one)[1] == '{';
    assert b[1] == (two + "}}")[0] != '{';
  }

  lemma SkipOther(other: string, rest: string, key: string, value: string)
    requires '{' !in other && '}' !in other && '}' !in key && other != key
    ensures ReplaceAll(Quoted(other) + rest, Quoted(key), value) == Quoted(other) + ReplaceAll(rest, Quoted(key), value)
  {
    var tail := other + "}}";
    var inner := ("{" + tail) + rest;
    QuotedKeysClash(key, other, rest);
    assert (Quoted(other) + rest)[0] == '{' && (Quoted(other) + rest)[1..] == inner;
    SecondBraceClashes(key, other, rest);
    assert inner[0] == '{' && inner[1..] == tail + rest;
    SkipText(tail, rest, key, value);
    Unfold(Quoted(other) + rest, key, value);
    Unfold(inner, key, value);
    hide ReplaceAll;
    assert Quoted(other) == ['{'] + (['{'] + tail);
    var done := ReplaceAll(rest, Quoted(key), value);
    assert ['{'] + (['{'] + (tail + done)) == Quoted(other) + done;
  }

  lemma Unfold(text: string, key: string, value: string)
    requires text != "" && !(Quoted(key) <= text)
    ensures ReplaceAll(text, Quoted(key), value) == [text[0]] + ReplaceAll(text[1..], Quoted(key), value)
  {
  }

  // ---------------------------------------------------------------------------
  // When values are harmless
  // ---------------------------------------------------------------------------

  predicate Agree(s: string, t: string) {
    s <= t || t <= s
  }

  /** Two opening braces followed by the start of the quoted key, as far as the text reaches. */
  predicate OpensAt(text: string, key: string, i: nat) {
    i + 2 <= |text| && text[i] == '{' && text[i + 1] == '{' && Agree(text[i + 2..], key + "}}")
  }

  predicate Opens(text: string, key: string) {
    exists i :: 0 <= i < |text| && OpensAt(text, key, i)
  }

  /** Neither a value nor two values side by side begin the quoted key. */
  predicate Quiet(values: map<string, string>, key: string) {
    forall a, b :: a in values && b in values ==> !Opens(values[a], key) && !Opens(values[a] + values[b], key)
  }

  /**
   What a caller can check before the call: no value, and no two values side by side, begin a
   quoted key of another parameter, unless that parameter stands for its own quoted key.
   */
  predicate Harmless(params: map<string, string>) {
    forall k :: k in params && params[k] != Quoted(k) ==> Quiet(params - {k}, k)
  }

  /** Values that never bring two opening braces together, such as JSON objects, are harmless. */
  lemma SingleBracesAreHarmless(params: map<string, string>)
    requires forall a, b, i :: a in params && b in params && 0 <= i < |params[a] + params[b]| - 1 ==>
               (params[a] + params[b])[i] != '{' || (params[a] + params[b])[i + 1] != '{'
    ensures Harmless(params)
  {
    forall k, a, b | k in params && a in params - {k} && b in params - {k}
      ensures !Opens(params[a], k) && !Opens(params[a] + params[b], k)
    {
      forall i | 0 <= i < |params[a]| ensures !OpensAt(params[a], k, i) {
        assert (params[a] + params[b])[i] == params[a][i];
        assert i + 1 < |params[a]| ==> (params[a] + params[b])[i + 1] == params[a][i + 1];
      }
    }
  }

  // ---------------------------------------------------------------------------
  // One replacement in a partly filled template
  // ---------------------------------------------------------------------------

  /** Text in which no occurrence starts is passed over. */
  lemma {:induction false} SkipUnmatched(text: string, rest: string, pattern: string, value: string)
    requires pattern != "" && forall i :: 0 <= i < |text| ==> !(pattern <= (text + rest)[i..])
    ensures ReplaceAll(text + rest, pattern, value) == text + ReplaceAll(rest, pattern, value)
  {
    if text == "" {
      assert text + rest == rest;
    } else {
      var all, shorter := text + rest, text[1..] + rest;
      assert all[0..] == all && all[1..] == shorter;
      forall i | 0 <= i < |text[1..]| ensures !(pattern <= shorter[i..]) {
        assert shorter[i..] == all[i + 1..];
      }
      SkipUnmatched(text[1..], rest, pattern, value);
      SkipFirst(all, pattern, value);
      hide ReplaceAll;
      Regroup(text, ReplaceAll(rest, pattern, value));
    }
  }

  lemma SkipFirst(text: string, pattern: string, value: string)
    requires pattern != "" && text != "" && !(pattern <= text)
    ensures ReplaceAll(text, pattern, value) == [text[0]] + ReplaceAll(text[1..], pattern, value)
  {
  }

  lemma PrefixOfTwo(t: string, x: string, y: string)
    requires t <= x + y
    ensures Agree(x, t)
  {
    assert |t| <= |x| ==> t == (x + y)[..|t|] == x[..|t|];
    assert |t| > |x| ==> x == (x + y)[..|x|] == t[..|x|];
  }

  /** A text that goes on with one brace and the rest of a quoted key starts with a value that does. */
  lemma {:induction false} BraceComesFromValue(template: seq<Piece>, values: map<string, string>, key: string)
      returns (b: string)
    requires AllPlain(template) && '{' !in key
    requires "{" + (key + "}}") <= Substituted(template, values)
    ensures b in values && values[b] != "" && values[b][0] == '{' && Agree(values[b][1..], key + "}}")
  {
    var p, rest := template[0], Substituted(template[1..], values);
    var text, want := Substituted(template, values), "{" + (key + "}}");
    var head := if p.Placeholder? && p.key in values then values[p.key] else Shown(p);
    assert text == head + rest;
    assert want[0] == '{' && want[1] != '{' && text[0] == '{' && text[1] == want[1];
    if head == "" {
      assert text == rest;
      b := BraceComesFromValue(template[1..], values, key);
    } else {
      assert head[0] == '{';
      PlainPieceStarts(p);
      b := p.key;
      assert head[1..] + rest == text[1..];
      assert key + "}}" == want[1..];
      PrefixOfTwo(key + "}}", head[1..], rest);
    }
  }

  lemma PlainPieceStarts(p: Piece)
    requires Plain(p)
    ensures p.Literal? ==> p.text == "" || p.text[0] != '{'
    ensures p.Placeholder? ==> |Shown(p)| > 1 && Shown(p)[1] == '{'
  {
    assert p.Literal? && p.text != "" ==> p.text[0] in p.text;
  }

  /** An occurrence that starts inside a value is one the value, alone or with a neighbour, begins. */
  lemma MatchOpens(values: map<string, string>, a: string, after: seq<Piece>, key: string, i: nat)
    requires a in values && i < |values[a]| && AllPlain(after) && '{' !in key
    requires Quoted(key) <= (values[a] + Substituted(after, values))[i..]
    ensures Opens(values[a], key) || exists b :: b in values && Opens(values[a] + values[b], key)
  {
    var v, rest := values[a], Substituted(after, values);
    var seen := (v + rest)[i..];
    assert Quoted(key)[0] == '{' && Quoted(key)[1] == '{' && Quoted(key)[2..] == key + "}}";
    assert seen[0] == v[i] == '{' && seen[1] == '{' && key + "}}" <= seen[2..];
    if i + 2 <= |v| {
      assert seen[2..] == v[i + 2..] + rest;
      PrefixOfTwo(key + "}}", v[i + 2..], rest);
      assert OpensAt(v, key, i);
    } else {
      assert rest == seen[1..];
      assert "{" + (key + "}}") <= rest;
      var b := BraceComesFromValue(after, values, key);
      assert (v + values[b])[i + 2..] == values[b][1..];
      assert OpensAt(v + values[b], key, i);
    }
  }

  /** Inside a value of a quiet map no occurrence of the quoted key starts. */
  lemma NoMatchInValue(values: map<string, string>, a: string, after: seq<Piece>, key: string, i: nat)
    requires a in values && i < |values[a]| && AllPlain(after) && '{' !in key && Quiet(values, key)
    ensures !(Quoted(key) <= (values[a] + Substituted(after, values))[i..])
  {
    hide Opens, Substituted, Quoted;
    if Quoted(key) <= (values[a] + Substituted(after, values))[i..] {
      MatchOpens(values, a, after, key, i);
    }
  }

  /** Replacing a key fills its placeholders and nothing else when the values filled in so far are quiet. */
  lemma {:induction false} ReplaceFills(template: seq<Piece>, values: map<string, string>, key: string, value: string)
    requires AllPlain(template) && '{' !in key && '}' !in key && key !in values && Quiet(values, key)
    ensures ReplaceAll(Substituted(template, values), Quoted(key), value) == Substituted(template, values[key := value])
  {
    if template != [] {
      ReplaceFills(template[1..], values, key, value);
      ReplacePiece(template[0], template[1..], values, key, value);
    }
  }

  lemma ReplacePiece(p: Piece, after: seq<Piece>, values: map<string, string>, key: string, value: string)
    requires Plain(p) && AllPlain(after) && '{' !in key && '}' !in key && key !in values && Quiet(values, key)
    ensures ReplaceAll(Substituted([p] + after, values), Quoted(key), value) ==
            (if p.Placeholder? && p.key in values[key := value] then values[key := value][p.key] else Shown(p))
            + ReplaceAll(Substituted(after, values), Quoted(key), value)
  {
    var rest := Substituted(after, values);
    assert ([p] + after)[1..] == after;
    if p.Literal? {
      SkipText(p.text, rest, key, value);
    } else if p.key == key {
      TakeMatch(rest, key, value);
    } else if p.key !in values {
      SkipOther(p.key, rest, key, value);
    } else {
      forall i | 0 <= i < |values[p.key]| ensures !(Quoted(key) <= (values[p.key] + rest)[i..]) {
        NoMatchInValue(values, p.key, after, key, i);
      }
      SkipUnmatched(values[p.key], rest, Quoted(key), value);
    }
  }

  // ---------------------------------------------------------------------------
  // Any order of harmless parameters is simultaneous substitution
  // ---------------------------------------------------------------------------

  lemma {:induction false} TextIsUnfilled(template: seq<Piece>)
    ensures Text(template) == Substituted(template, map[])
  {
    if template != [] {
      TextIsUnfilled(template[1..]);
    }
  }

  /** The parameters visited first. */
  ghost function Visited(params: map<string, string>, order: seq<string>, n: nat): map<string, string>
    requires n <= |order| && forall i :: 0 <= i < |order| ==> order[i] in params
  {
    if n == 0 then map[] else Visited(params, order, n - 1)[order[n - 1] := params[order[n - 1]]]
  }

  lemma {:induction false} VisitedHolds(params: map<string, string>, order: seq<string>, n: nat)
    requires n <= |order| && forall i :: 0 <= i < |order| ==> order[i] in params
    ensures forall k :: k in Visited(params, order, n) <==> exists i :: 0 <= i < n && order[i] == k
    ensures forall k :: k in Visited(params, order, n) ==> k in params && Visited(params, order, n)[k] == params[k]
  {
    if n > 0 {
      VisitedHolds(params, order, n - 1);
    }
  }

  lemma QuietInPart(part: map<string, string>, whole: map<string, string>, key: string)
    requires Quiet(whole, key) && forall k :: k in part ==> k in whole && part[k] == whole[k]
    ensures Quiet(part, key)
  {
  }

  lemma {:induction false} ReplaceSame(text: string, pattern: string)
    requires pattern != ""
    ensures ReplaceAll(text, pattern, pattern) == text
    decreases |text|
  {
    if text == "" {
    } else if pattern <= text {
      ReplaceSame(text[|pattern|..], pattern);
      assert text == pattern + text[|pattern|..];
    } else {
      ReplaceSame(text[1..], pattern);
      assert text == [text[0]] + text[1..];
    }
  }

  lemma {:induction false} FilledWithItself(template: seq<Piece>, values: map<string, string>, key: string)
    requires key !in values
    ensures Substituted(template, values[key := Quoted(key)]) == Substituted(template, values)
  {
    if template != [] {
      FilledWithItself(template[1..], values, key);
    }
  }

  /** The next key in an order is new, and quiet among those before it. */
  lemma NextKey(params: map<string, string>, order: seq<string>, n: nat)
    requires PlainKeys(params) && Harmless(params) && IsOrder(order, params) && n < |order|
    ensures var k, before := order[n], Visited(params, order, n);
      && k in params && '{' !in k && '}' !in k && k !in before
      && Visited(params, order, n + 1) == before[k := params[k]]
      && (params[k] == Quoted(k) || Quiet(before, k))
  {
    var k := order[n];
    VisitedHolds(params, order, n);
    if params[k] != Quoted(k) {
      hide Quoted;
      QuietInPart(Visited(params, order, n), params - {k}, k);
    }
  }

  /** Filling one more key, which may stand for its own quoted key. */
  lemma FillOneMore(template: seq<Piece>, values: map<string, string>, key: string, value: string)
    requires AllPlain(template) && '{' !in key && '}' !in key && key !in values
    requires value == Quoted(key) || Quiet(values, key)
    ensures Quoted(key) != ""
    ensures ReplaceAll(Substituted(template, values), Quoted(key), value) == Substituted(template, values[key := value])
  {
    if value == Quoted(key) {
      ReplaceSame(Substituted(template, values), Quoted(key));
      FilledWithItself(template, values, key);
    } else {
      ReplaceFills(template, values, key, value);
    }
  }

  lemma {:induction false} ReplacedFills(template: seq<Piece>, params: map<string, string>, order: seq<string>, n: nat)
    requires AllPlain(template) && PlainKeys(params) && Harmless(params) && IsOrder(order, params) && n <= |order|
    ensures Replaced(Text(template), params, order, n) == Substituted(template, Visited(params, order, n))
  {
    hide ReplaceAll, Text, Substituted, Harmless, Quiet, AllPlain, Quoted, PlainKeys;
    TextIsUnfilled(template);
    if n > 0 {
      ReplacedFills(template, params, order, n - 1);
      NextKey(params, order, n - 1);
      FillOneMore(template, Visited(params, order, n - 1), order[n - 1], params[order[n - 1]]);
    }
  }

  /** Whatever order harmless parameters are visited in, the result is simultaneous substitution. */
  lemma AnyOrderSubstitutes(template: seq<Piece>, params: map<string, string>, order: seq<string>)
    requires AllPlain(template) && PlainKeys(params) && Harmless(params) && IsOrder(order, params)
    ensures Replaced(Text(template), params, order, |order|) == Substituted(template, params)
  {
    ReplacedFills(template, params, order, |order|);
    VisitedHolds(params, order, |order|);
    assert Visited(params, order, |order|) == params;
  }

  // ---------------------------------------------------------------------------
  // Harmful parameters make the order matter
  // ---------------------------------------------------------------------------

  /** Two orders of the same parameters resolve some plain template differently. */
  ghost predicate OrderMatters(params: map<string, string>) {
    exists template, one, two ::
      && AllPlain(template) && IsOrder(one, params) && IsOrder(two, params)
      && Replaced(Text(template), params, one, |one|) != Replaced(Text(template), params, two, |two|)
  }

  ghost predicate Occurs(text: string, pattern: string) {
    exists i :: 0 <= i <= |text| && pattern <= text[i..]
  }

  lemma {:induction false} ReplaceLength(text: string, pattern: string, value: string)
    requires pattern != ""
    ensures |value| >= |pattern| ==> |ReplaceAll(text, pattern, value)| >= |text|
    ensures |value| <= |pattern| ==> |ReplaceAll(text, pattern, value)| <= |text|
    decreases |text|
  {
    if text == "" {
    } else if pattern <= text {
      ReplaceLength(text[|pattern|..], pattern, value);
    } else {
      ReplaceLength(text[1..], pattern, value);
    }
  }

  /** Not the text any more, longer after longer values and shorter after shorter ones. */
  ghost predicate Changed(after: string, text: string, pattern: string, value: string) {
    && after != text
    && (|value| > |pattern| ==> |after| > |text|)
    && (|value| < |pattern| ==> |after| < |text|)
  }

  lemma ChangedBehind(c: char, after: string, text: string, pattern: string, value: string)
    requires Changed(after, text, pattern, value)
    ensures Changed([c] + after, [c] + text, pattern, value)
  {
    assert ([c] + after)[1..] == after && ([c] + text)[1..] == text;
  }

  lemma ChangedInFront(rest: string, pattern: string, value: string)
    requires pattern != "" && value != pattern
    ensures Changed(value + ReplaceAll(rest, pattern, value), pattern + rest, pattern, value)
  {
    ReplaceLength(rest, pattern, value);
    hide ReplaceAll;
    var after := ReplaceAll(rest, pattern, value);
    assert (value + after)[..|value|] == value && (pattern + rest)[..|pattern|] == pattern;
  }

  lemma FirstMatch(text: string, pattern: string, value: string)
    requires pattern != "" && pattern <= text
    ensures text == pattern + text[|pattern|..]
    ensures ReplaceAll(text, pattern, value) == value + ReplaceAll(text[|pattern|..], pattern, value)
  {
  }

  /** Replacing something that occurs by something else changes the text. */
  lemma {:induction false} ReplaceChanges(text: string, pattern: string, value: string)
    requires pattern != "" && value != pattern && Occurs(text, pattern)
    ensures Changed(ReplaceAll(text, pattern, value), text, pattern, value)
    decreases |text|
  {
    hide ReplaceAll, Changed, Occurs;
    if pattern <= text {
      FirstMatch(text, pattern, value);
      ChangedInFront(text[|pattern|..], pattern, value);
    } else {
      OccursLater(text, pattern);
      ReplaceChanges(text[1..], pattern, value);
      SkipFirst(text, pattern, value);
      ChangedBehind(text[0], ReplaceAll(text[1..], pattern, value), text[1..], pattern, value);
      assert text == [text[0]] + text[1..];
    }
  }

  lemma OccursLater(text: string, pattern: string)
    requires pattern != "" && Occurs(text, pattern) && !(pattern <= text)
    ensures text != "" && Occurs(text[1..], pattern)
  {
    var i :| 0 <= i <= |text| && pattern <= text[i..];
    assert text[0..] == text;
    assert text[1..][i - 1..] == text[i..];
  }

  lemma {:induction false} ReplacedInParts(text: string, params: map<string, string>,
                                           one: seq<string>, two: seq<string>, n: nat)
    requires n <= |two| && (forall i :: 0 <= i < |one| ==> one[i] in params)
    requires forall i :: 0 <= i < |two| ==> two[i] in params
    ensures Replaced(text, params, one + two, |one| + n) == Replaced(Replaced(text, params, one, |one|), params, two, n)
  {
    if n == 0 {
      ReplacedPrefix(text, params, one, one + two, |one|);
    } else {
      ReplacedInParts(text, params, one, two, n - 1);
      assert (one + two)[|one| + n - 1] == two[n - 1];
    }
  }

  /** No placeholder of the template is among the keys visited: the text stays. */
  lemma {:induction false} ReplacedUntouched(template: seq<Piece>, params: map<string, string>,
                                             order: seq<string>, n: nat)
    requires AllPlain(template) && PlainKeys(params) && n <= |order|
    requires forall i :: 0 <= i < |order| ==> order[i] in params && Placeholder(order[i]) !in template
    ensures Replaced(Text(template), params, order, n) == Text(template)
  {
    if n > 0 {
      ReplacedUntouched(template, params, order, n - 1);
      TextIsUnfilled(template);
      ReplaceFills(template, map[], order[n - 1], params[order[n - 1]]);
      UnusedFill(template, order[n - 1], params[order[n - 1]]);
    }
  }

  lemma {:induction false} UnusedFill(template: seq<Piece>, key: string, value: string)
    requires Placeholder(key) !in template
    ensures Substituted(template, map[key := value]) == Text(template)
  {
    if template != [] {
      UnusedFill(template[1..], key, value);
    }
  }

  lemma OrderOf(keys: set<string>) returns (order: seq<string>)
    ensures (forall k :: k in keys <==> k in order)
    ensures forall i, j :: 0 <= i < j < |order| ==> order[i] != order[j]
  {
    if keys == {} {
      order := [];
    } else {
      var k :| k in keys;
      var rest := OrderOf(keys - {k});
      order := rest + [k];
    }
  }

  /** Some keys first, one more key before or after them, the others before all of these. */
  ghost predicate Listed(first: seq<string>, k: string, params: map<string, string>) {
    && (forall i :: 0 <= i < |first| ==> first[i] in params && first[i] != k)
    && (forall i, j :: 0 <= i < j < |first| ==> first[i] != first[j])
    && k in params
  }

  lemma OthersThen(params: map<string, string>, rest: seq<string>, last: seq<string>)
    requires forall i :: 0 <= i < |last| ==> last[i] in params
    requires forall x :: x in rest <==> x in params && x !in last
    requires forall i, j :: 0 <= i < j < |rest| ==> rest[i] != rest[j]
    requires forall i, j :: 0 <= i < j < |last| ==> last[i] != last[j]
    ensures IsOrder(rest + last, params)
  {
    var all := rest + last;
    forall i | 0 <= i < |all| ensures all[i] in params {
      assert all[i] in rest || all[i] in last;
    }
    forall i, j | 0 <= i < j < |all| ensures all[i] != all[j] {
      assert i < |rest| ==> all[i] in rest;
      assert j >= |rest| ==> all[j] in last;
    }
  }

  lemma EndsAreOrders(params: map<string, string>, rest: seq<string>, first: seq<string>, k: string)
    requires Listed(first, k, params)
    requires forall x :: x in rest <==> x in params && x != k && x !in first
    requires forall i, j :: 0 <= i < j < |rest| ==> rest[i] != rest[j]
    ensures IsOrder(rest + (first + [k]), params) && IsOrder(rest + ([k] + first), params)
  {
    OthersThen(params, rest, first + [k]);
    OthersThen(params, rest, [k] + first);
  }

  lemma VisitedLast(text: string, params: map<string, string>, rest: seq<string>, first: seq<string>, k: string)
    requires k in params && (forall i :: 0 <= i < |rest| ==> rest[i] in params)
    requires forall i :: 0 <= i < |first| ==> first[i] in params
    requires Replaced(text, params, rest, |rest|) == text
    ensures var order := rest + (first + [k]);
      && (forall i :: 0 <= i < |order| ==> order[i] in params)
      && Replaced(text, params, order, |order|)
         == ReplaceAll(Replaced(text, params, first, |first|), Quoted(k), params[k])
  {
    ReplacedInParts(text, params, rest, first + [k], |first| + 1);
    ReplacedPrefix(text, params, first, first + [k], |first|);
    assert (first + [k])[|first|] == k;
    hide ReplaceAll, Quoted;
  }

  lemma VisitedFirst(text: string, params: map<string, string>, rest: seq<string>, first: seq<string>, k: string)
    requires k in params && (forall i :: 0 <= i < |rest| ==> rest[i] in params)
    requires forall i :: 0 <= i < |first| ==> first[i] in params
    requires Replaced(text, params, rest, |rest|) == text && Replaced(text, params, [k], 1) == text
    ensures var order := rest + ([k] + first);
      && (forall i :: 0 <= i < |order| ==> order[i] in params)
      && Replaced(text, params, order, |order|) == Replaced(text, params, first, |first|)
  {
    hide Replaced;
    ReplacedInParts(text, params, rest, [k] + first, |first| + 1);
    ReplacedInParts(text, params, [k], first, |first|);
  }

  /** The literal that completes a quoted key some text begins. */
  function Completion(text: string, key: string, i: nat): string
    requires OpensAt(text, key, i)
  {
    if key + "}}" <= text[i + 2..] then "" else (key + "}}")[|text| - i - 2..]
  }

  lemma Completes(text: string, key: string, i: nat)
    requires OpensAt(text, key, i)
    ensures key + "}}" <= text[i + 2..] + Completion(text, key, i)
    ensures '{' !in key ==> '{' !in Completion(text, key, i)
  {
    var rest, tail := text[i + 2..], key + "}}";
    if !(tail <= rest) {
      assert rest + tail[|rest|..] == tail;
    }
  }

  /** Behind two opening braces the completed key occurs. */
  lemma CompletedOccurs(text: string, key: string, i: nat)
    requires OpensAt(text, key, i)
    ensures Occurs(text + Completion(text, key, i), Quoted(key))
  {
    Completes(text, key, i);
    var c := Completion(text, key, i);
    hide Completion, Agree;
    var all, tail := text + c, key + "}}";
    assert all[i + 2..] == text[i + 2..] + c;
    assert all[i..][0] == '{' && all[i..][1] == '{' && all[i..][2..] == all[i + 2..];
    assert Quoted(key) == "{{" + tail && all[i..] == "{{" + all[i + 2..];
    assert Quoted(key) <= all[i..];
  }

  lemma RestIsUntouched(template: seq<Piece>, params: map<string, string>,
                        rest: seq<string>, first: seq<string>, k: string)
    requires AllPlain(template) && PlainKeys(params) && Listed(first, k, params)
    requires forall x :: Placeholder(x) in template ==> x in first
    requires forall x :: x in rest <==> x in params && x != k && x !in first
    ensures Replaced(Text(template), params, rest, |rest|) == Text(template)
    ensures Replaced(Text(template), params, [k], 1) == Text(template)
  {
    forall i | 0 <= i < |rest| ensures rest[i] in params && Placeholder(rest[i]) !in template {
      assert rest[i] in rest;
    }
    hide Replaced, Text, AllPlain;
    ReplacedUntouched(template, params, rest, |rest|);
    ReplacedUntouched(template, params, [k], 1);
  }

  lemma TwoOrders(params: map<string, string>, template: seq<Piece>, one: seq<string>, two: seq<string>)
    requires AllPlain(template) && IsOrder(one, params) && IsOrder(two, params)
    requires Replaced(Text(template), params, one, |one|) != Replaced(Text(template), params, two, |two|)
    ensures OrderMatters(params)
  {
  }

  lemma OthersOf(params: map<string, string>, first: seq<string>, k: string) returns (rest: seq<string>)
    ensures forall x :: x in rest <==> x in params && x != k && x !in first
    ensures forall i, j :: 0 <= i < j < |rest| ==> rest[i] != rest[j]
  {
    rest := OrderOf(set x | x in params && x != k && x !in first);
  }

  /** If the first keys bring the quoted key k about, it matters whether k is visited before or after them. */
  lemma DifferentEnds(params: map<string, string>, template: seq<Piece>, first: seq<string>, k: string)
    requires AllPlain(template) && PlainKeys(params) && Listed(first, k, params) && params[k] != Quoted(k)
    requires forall x :: Placeholder(x) in template ==> x in first
    requires Occurs(Replaced(Text(template), params, first, |first|), Quoted(k))
    ensures OrderMatters(params)
  {
    assert forall i :: 0 <= i < |first| ==> first[i] in params;
    assert Quoted(k) != "";
    var rest := OthersOf(params, first, k);
    assert forall i :: 0 <= i < |rest| ==> rest[i] in rest;
    var one, two := rest + (first + [k]), rest + ([k] + first);
    RestIsUntouched(template, params, rest, first, k);
    EndsAreOrders(params, rest, first, k);
    VisitedLast(Text(template), params, rest, first, k);
    VisitedFirst(Text(template), params, rest, first, k);
    ReplaceChanges(Replaced(Text(template), params, first, |first|), Quoted(k), params[k]);
    hide *;
    TwoOrders(params, template, one, two);
  }

  lemma FirstVisit(template: seq<Piece>, params: map<string, string>, a: string)
    requires AllPlain(template) && PlainKeys(params) && a in params
    ensures Replaced(Text(template), params, [a], 1) == Substituted(template, map[a := params[a]])
  {
    TextIsUnfilled(template);
    ReplaceFills(template, map[], a, params[a]);
    assert Replaced(Text(template), params, [a], 0) == Text(template);
  }

  lemma SecondVisit(template: seq<Piece>, params: map<string, string>, a: string, b: string)
    requires AllPlain(template) && PlainKeys(params) && a in params && b in params && a != b
    requires params[b] == Quoted(b) || Quiet(map[a := params[a]], b)
    ensures Replaced(Text(template), params, [a, b], 2) == Substituted(template, map[a := params[a], b := params[b]])
  {
    hide ReplaceAll, Text, Substituted, Quiet, AllPlain, Quoted;
    FirstVisit(template, params, a);
    ReplacedPrefix(Text(template), params, [a], [a, b], 1);
    FillOneMore(template, map[a := params[a]], b, params[b]);
    assert map[a := params[a]][b := params[b]] == map[a := params[a], b := params[b]];
  }

  lemma SubstitutedLiteral(values: map<string, string>, c: string)
    ensures Substituted([Literal(c)], values) == c
  {
    assert [Literal(c)][1..] == [];
  }

  lemma SubstitutedValue(a: string, after: seq<Piece>, values: map<string, string>)
    requires a in values
    ensures Substituted([Placeholder(a)] + after, values) == values[a] + Substituted(after, values)
  {
    assert ([Placeholder(a)] + after)[1..] == after;
  }

  /** A literal that completes the quoted key some text begins. */
  lemma CompletionOf(text: string, key: string) returns (c: string)
    requires Opens(text, key) && '{' !in key
    ensures '{' !in c && Occurs(text + c, Quoted(key))
  {
    var i: nat :| i < |text| && OpensAt(text, key, i);
    c := Completion(text, key, i);
    Completes(text, key, i);
    CompletedOccurs(text, key, i);
  }

  /** One value that begins another key's quote. */
  lemma OneValueMatters(params: map<string, string>, a: string, k: string)
    requires PlainKeys(params) && a in params && k in params && a != k && params[k] != Quoted(k)
    requires Opens(params[a], k)
    ensures OrderMatters(params)
  {
    var c := CompletionOf(params[a], k);
    var template := [Placeholder(a)] + [Literal(c)];
    assert AllPlain(template) && Listed([a], k, params);
    hide Replaced, Text, Substituted, Occurs, Opens, Quoted, AllPlain, PlainKeys, OrderMatters, Listed;
    FirstVisit(template, params, a);
    SubstitutedValue(a, [Literal(c)], map[a := params[a]]);
    SubstitutedLiteral(map[a := params[a]], c);
    DifferentEnds(params, template, [a], k);
  }

  lemma SubstitutedPair(a: string, b: string, c: string, values: map<string, string>)
    requires a in values && b in values
    ensures Substituted([Placeholder(a), Placeholder(b), Literal(c)], values) == values[a] + values[b] + c
  {
    assert [Placeholder(a), Placeholder(b), Literal(c)] == [Placeholder(a)] + ([Placeholder(b)] + [Literal(c)]);
    SubstitutedValue(a, [Placeholder(b)] + [Literal(c)], values);
    SubstitutedValue(b, [Literal(c)], values);
    SubstitutedLiteral(values, c);
  }

  /** One value twice side by side. */
  lemma TwiceMatters(params: map<string, string>, a: string, k: string)
    requires PlainKeys(params) && a in params && k in params && k != a && params[k] != Quoted(k)
    requires Opens(params[a] + params[a], k)
    ensures OrderMatters(params)
  {
    var c := CompletionOf(params[a] + params[a], k);
    var template := [Placeholder(a), Placeholder(a), Literal(c)];
    assert AllPlain(template) && Listed([a], k, params);
    hide Replaced, Text, Substituted, Occurs, Opens, Quoted, AllPlain, PlainKeys, OrderMatters, Listed;
    FirstVisit(template, params, a);
    SubstitutedPair(a, a, c, map[a := params[a]]);
    DifferentEnds(params, template, [a], k);
  }

  /** Two values side by side. */
  lemma NeighboursMatter(params: map<string, string>, a: string, b: string, k: string)
    requires PlainKeys(params) && a in params && b in params && k in params && k != a && k != b && a != b
    requires params[k] != Quoted(k) && Opens(params[a] + params[b], k)
    requires params[b] == Quoted(b) || Quiet(map[a := params[a]], b)
    ensures OrderMatters(params)
  {
    var c := CompletionOf(params[a] + params[b], k);
    var template := [Placeholder(a), Placeholder(b), Literal(c)];
    assert AllPlain(template) && Listed([a, b], k, params);
    hide Replaced, Text, Substituted, Occurs, Opens, Quoted, Quiet, AllPlain, PlainKeys, OrderMatters, Listed;
    SecondVisit(template, params, a, b);
    SubstitutedPair(a, b, c, map[a := params[a], b := params[b]]);
    DifferentEnds(params, template, [a, b], k);
  }

  lemma HarmfulMatters(params: map<string, string>)
    requires PlainKeys(params) && !Harmless(params)
    ensures OrderMatters(params)
  {
    hide OrderMatters, Opens, PlainKeys, Quoted;
    if a, k :| a in params && k in params && a != k && params[k] != Quoted(k) && Opens(params[a], k) {
      OneValueMatters(params, a, k);
    } else {
      var k :| k in params && params[k] != Quoted(k) && !Quiet(params - {k}, k);
      var a, b :| a in params - {k} && b in params - {k} && Opens(params[a] + params[b], k);
      if a == b {
        TwiceMatters(params, a, k);
      } else if params[b] != Quoted(b) && Opens(params[a] + params[a], b) {
        TwiceMatters(params, a, b);
      } else {
        NeighboursMatter(params, a, b, k);
      }
    }
  }

  /** Every plain template is resolved by simultaneous substitution, whatever the order. */
  ghost predicate AlwaysSubstitutes(params: map<string, string>) {
    forall template, order :: AllPlain(template) && IsOrder(order, params) ==>
      Replaced(Text(template), params, order, |order|) == Substituted(template, params)
  }

  lemma HarmlessSubstitutes(params: map<string, string>)
    requires PlainKeys(params) && Harmless(params)
    ensures AlwaysSubstitutes(params)
  {
    hide PlainKeys, Harmless, Replaced, Text, Substituted;
    forall template, order | AllPlain(template) && IsOrder(order, params)
      ensures Replaced(Text(template), params, order, |order|) == Substituted(template, params)
    {
      AnyOrderSubstitutes(template, params, order);
    }
  }

  lemma SubstitutionHasNoOrder(params: map<string, string>)
    requires AlwaysSubstitutes(params)
    ensures !OrderMatters(params)
  {
    hide Replaced, Text, Substituted;
  }

  /**
   Two orders of the parameters resolve some plain template differently if and only if the
   parameters are not harmless; harmless ones, and only those, always give simultaneous substitution.
   */
  lemma OrderMattersIffHarmful(params: map<string, string>)
    requires PlainKeys(params)
    ensures OrderMatters(params) <==> !Harmless(params)
    ensures AlwaysSubstitutes(params) <==> Harmless(params)
  {
    hide OrderMatters, AlwaysSubstitutes, Harmless;
    if AlwaysSubstitutes(params) {
      SubstitutionHasNoOrder(params);
    }
    if Harmless(params) {
      HarmlessSubstitutes(params);
      SubstitutionHasNoOrder(params);
    } else {
      HarmfulMatters(params);
    }
  }

  /** With an opening brace in a value the order shows. */
  lemma BracesMakeOrderMatter()
    ensures var params := map["a" := "{{b}}", "b" := "x"];
      && IsOrder(["a", "b"], params) && IsOrder(["b", "a"], params)
      && Replaced("{{a}}", params, ["a", "b"], 2) == "x"
      && Replaced("{{a}}", params, ["b", "a"], 2) == "{{b}}"
  {
    hide ReplaceAll;
    var params := map["a" := "{{b}}", "b" := "x"];
    WholeMatch("a", "{{b}}");
    WholeMatch("b", "x");
    OtherKey("a", "b", "x");
    var one, two := ["a", "b"], ["b", "a"];
    assert Quoted("a") == "{{a}}" && Quoted("b") == "{{b}}";
    assert Replaced("{{a}}", params, one, 0) == "{{a}}" == Replaced("{{a}}", params, two, 0);
    assert Replaced("{{a}}", params, one, 1) == "{{b}}";
    assert Replaced("{{a}}", params, two, 1) == "{{a}}";
  }

  lemma WholeMatch(key: string, value: string)
    ensures ReplaceAll(Quoted(key), Quoted(key), value) == value
  {
    TakeMatch("", key, value);
    assert Quoted(key) + "" == Quoted(key);
    assert ReplaceAll("", Quoted(key), value) == "";
  }

  lemma OtherKey(other: string, key: string, value: string)
    requires '{' !in other && '}' !in other && '}' !in key && other != key
    ensures ReplaceAll(Quoted(other), Quoted(key), value) == Quoted(other)
  {
    SkipOther(other, "", key, value);
    assert Quoted(other) + "" == Quoted(other);
    assert ReplaceAll("", Quoted(key), value) == "";
  }
}
