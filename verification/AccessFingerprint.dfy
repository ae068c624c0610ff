/**
 The access fingerprint that keys the shared dashboard cache: a length-prefixed encoding of the
 viewer's table grants under a hash, and the cases that never share. A char stands for one byte.
 */
module AccessFingerprint {

  import opened Options

  datatype Grant = Grant(database: string, table: string)

  // ---------------------------------------------------------------------------
  // Encoding
  // ---------------------------------------------------------------------------

  const DIGITS := "0123456789"

  function Decimal(n: nat): (s: string)
    ensures s != ""
  {
    if n < 10 then [DIGITS[n]] else Decimal(n / 10) + [DIGITS[n % 10]]
  }

  function Field(s: string): string {
    Decimal(|s|) + ":" + s
  }

  function EncodeGrant(g: Grant): string {
    Field(g.database) + ":" + Field(g.table) + "\n"
  }

  function Encode(grants: seq<Grant>, n: nat): string
    requires n <= |grants|
  {
    if n == 0 then "" else Encode(grants, n - 1) + EncodeGrant(grants[n - 1])
  }

  // ---------------------------------------------------------------------------
  // A decoder, to show that the encoding loses nothing
  // ---------------------------------------------------------------------------

  datatype Parsed<T> = Failed | Parsed(value: T, rest: string)

  function DigitValue(c: char): (d: int)
    ensures -1 <= d <= 9
  {
    if '0' <= c <= '9' then c as int - '0' as int else -1
  }

  /** Digits up to a colon. */
  function ReadNumber(s: string, sofar: nat): (p: Parsed<nat>)
    ensures p.Parsed? ==> |p.rest| < |s|
  {
    if s == "" then Failed
    else if s[0] == ':' then Parsed(sofar, s[1..])
    else if DigitValue(s[0]) < 0 then Failed
    else ReadNumber(s[1..], 10 * sofar + DigitValue(s[0]))
  }

  function ReadField(s: string): (p: Parsed<string>)
    ensures p.Parsed? ==> |p.rest| < |s|
  {
    match ReadNumber(s, 0)
    case Failed => Failed
    case Parsed(n, rest) => if n <= |rest| then Parsed(rest[..n], rest[n..]) else Failed
  }

  function ReadGrant(s: string): (p: Parsed<Grant>)
    ensures p.Parsed? ==> |p.rest| < |s|
  {
    match ReadField(s)
    case Failed => Failed
    case Parsed(database, rest) =>
      if rest == "" || rest[0] != ':' then Failed
      else match ReadField(rest[1..])
        case Failed => Failed
        case Parsed(table, end) =>
          if end == "" || end[0] != '\n' then Failed else Parsed(Grant(database, table), end[1..])
  }

  function Decode(s: string): Option<seq<Grant>>
    decreases |s|
  {
    if s == "" then Some([])
    else match ReadGrant(s)
      case Failed => None
      case Parsed(g, rest) =>
        match Decode(rest)
        case None => None
        case Some(more) => Some([g] + more)
  }

  lemma DigitsAreDigits(n: nat)
    requires n < 10
    ensures DigitValue(DIGITS[n]) == n && DIGITS[n] != ':'
  {
    assert DIGITS[0] == '0' && DIGITS[1] == '1' && DIGITS[2] == '2' && DIGITS[3] == '3' && DIGITS[4] == '4';
    assert DIGITS[5] == '5' && DIGITS[6] == '6' && DIGITS[7] == '7' && DIGITS[8] == '8' && DIGITS[9] == '9';
  }

  lemma ReadDigit(n: nat, rest: string, sofar: nat)
    requires n < 10
    ensures ReadNumber([DIGITS[n]] + rest, sofar) == ReadNumber(rest, 10 * sofar + n)
  {
    DigitsAreDigits(n);
    assert ([DIGITS[n]] + rest)[1..] == rest;
  }

  lemma {:induction false} ReadDecimal(n: nat, rest: string)
    ensures ReadNumber(Decimal(n) + rest, 0) == ReadNumber(rest, n)
  {
    ReadDigit(n % 10, rest, n / 10);
    if n >= 10 {
      ReadDecimal(n / 10, [DIGITS[n % 10]] + rest);
      assert Decimal(n) + rest == Decimal(n / 10) + ([DIGITS[n % 10]] + rest);
    }
  }

  lemma ReadBackField(s: string, rest: string)
    ensures ReadField(Field(s) + rest) == Parsed(s, rest)
  {
    var tail := ":" + (s + rest);
    ReadDecimal(|s|, tail);
    assert Field(s) + rest == Decimal(|s|) + tail;
    assert tail[1..] == s + rest;
    assert (s + rest)[..|s|] == s && (s + rest)[|s|..] == rest;
  }

  lemma ReadBackGrant(g: Grant, rest: string)
    ensures ReadGrant(EncodeGrant(g) + rest) == Parsed(g, rest)
  {
    var end := "\n" + rest;
    var middle := ":" + (Field(g.table) + end);
    hide ReadField, Field;
    ReadBackField(g.database, middle);
    ReadBackField(g.table, end);
    assert EncodeGrant(g) + rest == Field(g.database) + middle;
    assert middle[1..] == Field(g.table) + end;
    assert end[1..] == rest;
  }

  lemma {:induction false} DecodeOne(g: Grant, rest: string)
    requires Decode(rest).Some?
    ensures Decode(EncodeGrant(g) + rest) == Some([g] + Decode(rest).value)
  {
    ReadBackGrant(g, rest);
  }

  lemma {:induction false} EncodeFirst(grants: seq<Grant>, n: nat)
    requires 0 < n <= |grants|
    ensures Encode(grants, n) == EncodeGrant(grants[0]) + Encode(grants[1..], n - 1)
  {
    if n == 1 {
      assert Encode(grants, 0) == "";
    } else {
      EncodeFirst(grants, n - 1);
      var front, last := Encode(grants[1..], n - 2), EncodeGrant(grants[n - 1]);
      assert grants[1..][n - 2] == grants[n - 1];
      assert (EncodeGrant(grants[0]) + front) + last == EncodeGrant(grants[0]) + (front + last);
    }
  }

  lemma DecodeNone()
    ensures Decode(Encode([], 0)) == Some([])
  {
  }

  /** Decoding takes every encoded grant list back. */
  lemma {:induction false} DecodeEncode(grants: seq<Grant>)
    ensures Decode(Encode(grants, |grants|)) == Some(grants)
  {
    hide *;
    if grants == [] {
      DecodeNone();
    } else {
      DecodeEncode(grants[1..]);
      EncodeFirst(grants, |grants|);
      DecodeOne(grants[0], Encode(grants[1..], |grants| - 1));
      assert grants == [grants[0]] + grants[1..];
    }
  }

  /** Distinct grant lists have distinct encodings. */
  lemma EncodeIsInjective(one: seq<Grant>, two: seq<Grant>)
    requires Encode(one, |one|) == Encode(two, |two|)
    ensures one == two
  {
    DecodeEncode(one);
    DecodeEncode(two);
  }

  // ---------------------------------------------------------------------------
  // Fingerprints
  // ---------------------------------------------------------------------------

  const UNMANAGED := "unmanaged"
  const PUBLIC := "public"
  const PER_USER := "user:"

  /**
   What one run of a viewer on a connector finds: the public-token scope (empty for an
   authenticated viewer), the permission check (None: it failed), whether the connector has a
   warehouse under management, and the effective grants (None: they could not be loaded).
   */
  datatype Viewer = Viewer(
    cacheScope: string, userId: string, mayUse: Option<bool>, managed: bool, grants: Option<seq<Grant>>)

  /** The hash is taken to be injective and hexadecimal. */
  ghost predicate IsHash(hash: string -> string) {
    && (forall a, b :: hash(a) == hash(b) ==> a == b)
    && (forall a :: hash(a) != "" && (DigitValue(hash(a)[0]) >= 0 || 'a' <= hash(a)[0] <= 'f'))
  }

  function AccessHash(v: Viewer, hash: string -> string): Option<string> {
    if !v.managed then Some(UNMANAGED)
    else match v.grants
      case None => None
      case Some(grants) => Some(hash(Encode(grants, |grants|)))
  }

  function Fingerprint(v: Viewer, hash: string -> string): string {
    if v.cacheScope != "" then PUBLIC
    else if v.mayUse != Some(true) then PER_USER + v.userId
    else match AccessHash(v, hash)
      case None => PER_USER + v.userId
      case Some(computed) => computed
  }

  /** The loop that writes the grants into a builder. */
  method DashboardAccessFingerprint(v: Viewer, hash: string -> string) returns (r: Option<string>)
    ensures r == AccessHash(v, hash)
  {
    if !v.managed {
      return Some(UNMANAGED);
    }
    if v.grants.None? {
      return None;
    }
    var keys := v.grants.value;
    var b := "";
    for i := 0 to |keys|
      invariant b == Encode(keys, i)
    {
      var k := keys[i];
      var line := Decimal(|k.database|) + ":" + k.database + ":" + Decimal(|k.table|) + ":" + k.table + "\n";
      assert line == EncodeGrant(k);
      b := b + line;
    }
    return Some(hash(b));
  }

  method DashboardQueryAccessFingerprint(v: Viewer, hash: string -> string) returns (key: string)
    ensures key == Fingerprint(v, hash)
  {
    if v.cacheScope != "" {
      return PUBLIC;
    }
    var perUser := PER_USER + v.userId;
    if v.mayUse != Some(true) {
      return perUser;
    }
    var computed := DashboardAccessFingerprint(v, hash);
    if computed.None? {
      return perUser;
    }
    return computed.value;
  }

  // ---------------------------------------------------------------------------
  // Who shares a fingerprint
  // ---------------------------------------------------------------------------

  /** The viewer's key is a shared one: access was granted and could be computed. */
  predicate Shares(v: Viewer) {
    v.mayUse == Some(true) && (!v.managed || v.grants.Some?)
  }

  predicate SameAccess(v: Viewer, w: Viewer) {
    v.managed == w.managed && (v.managed ==> v.grants == w.grants)
  }

  lemma KeysByKind(v: Viewer, hash: string -> string)
    requires v.cacheScope == "" && IsHash(hash)
    ensures var key := Fingerprint(v, hash);
      && key != ""
      && (!Shares(v) ==> key == PER_USER + v.userId && key[0] == 'u')
      && (Shares(v) && !v.managed ==> key == UNMANAGED && key[0] == 'u')
      && (Shares(v) && v.managed ==> key[0] != 'u' && key[0] != 'p')
  {
  }

  lemma PerUserIsInjective(one: string, two: string)
    requires PER_USER + one == PER_USER + two
    ensures one == two
  {
    assert (PER_USER + one)[|PER_USER|..] == one && (PER_USER + two)[|PER_USER|..] == two;
  }

  lemma PerUserIsNotUnmanaged(id: string)
    ensures PER_USER + id != UNMANAGED
  {
    assert (PER_USER + id)[1] == 's' && UNMANAGED[1] == 'n';
  }

  /**
   Two authenticated viewers share a key if and only if they are one user without a shared key,
   or both have shared keys and equal access.
   */
  lemma SameFingerprintIff(v: Viewer, w: Viewer, hash: string -> string)
    requires IsHash(hash) && v.cacheScope == "" && w.cacheScope == ""
    ensures Fingerprint(v, hash) == Fingerprint(w, hash) <==>
            if Shares(v) then Shares(w) && SameAccess(v, w) else !Shares(w) && v.userId == w.userId
  {
    KeysByKind(v, hash);
    KeysByKind(w, hash);
    PerUserIsNotUnmanaged(v.userId);
    PerUserIsNotUnmanaged(w.userId);
    if Shares(v) && Shares(w) {
      SharedKeysAgree(v, w, hash);
    } else if !Shares(v) && !Shares(w) && Fingerprint(v, hash) == Fingerprint(w, hash) {
      PerUserIsInjective(v.userId, w.userId);
    }
  }

  lemma SharedKeysAgree(v: Viewer, w: Viewer, hash: string -> string)
    requires IsHash(hash) && v.cacheScope == "" && w.cacheScope == "" && Shares(v) && Shares(w)
    ensures Fingerprint(v, hash) == Fingerprint(w, hash) <==> SameAccess(v, w)
  {
    if v.managed && w.managed && Fingerprint(v, hash) == Fingerprint(w, hash) {
      assert Encode(v.grants.value, |v.grants.value|) == Encode(w.grants.value, |w.grants.value|);
      EncodeIsInjective(v.grants.value, w.grants.value);
    }
    KeysByKind(v, hash);
    KeysByKind(w, hash);
  }

  /** Viewers of equal key are the same user, or both may use the connector with equal access. */
  lemma SharingIsSafe(v: Viewer, w: Viewer, hash: string -> string)
    requires IsHash(hash) && v.cacheScope == "" && w.cacheScope == ""
    requires Fingerprint(v, hash) == Fingerprint(w, hash)
    ensures v.userId == w.userId
         || (v.mayUse == w.mayUse == Some(true)
             && ((!v.managed && !w.managed) || (v.managed && w.managed && v.grants.Some? && v.grants == w.grants)))
  {
    SameFingerprintIff(v, w, hash);
  }

  /** No authenticated viewer has the key of public-token runs. */
  lemma PublicStaysApart(v: Viewer, hash: string -> string)
    requires IsHash(hash)
    ensures Fingerprint(v, hash) == PUBLIC <==> v.cacheScope != ""
  {
    if v.cacheScope == "" {
      KeysByKind(v, hash);
      assert PUBLIC[0] == 'p';
    }
  }
}
