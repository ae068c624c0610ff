/** Inserting into and removing from a sequence at an index. */
module Sequences {

  function Insert<T>(s: seq<T>, at: nat, x: T): seq<T>
    requires at <= |s|
  {
    s[..at] + [x] + s[at..]
  }

  function Remove<T>(s: seq<T>, i: nat): seq<T>
    requires i < |s|
  {
    s[..i] + s[i + 1..]
  }

  lemma InsertElements<T>(s: seq<T>, at: nat, x: T)
    requires at <= |s|
    ensures |Insert(s, at, x)| == |s| + 1
    ensures forall k :: 0 <= k <= |s| ==>
              Insert(s, at, x)[k] == if k < at then s[k] else if k == at then x else s[k - 1]
  {
  }

  lemma RemoveElements<T>(s: seq<T>, i: nat)
    requires i < |s|
    ensures |Remove(s, i)| == |s| - 1
    ensures forall k :: 0 <= k < |s| - 1 ==> Remove(s, i)[k] == s[if k < i then k else k + 1]
  {
  }
}
