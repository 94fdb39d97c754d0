/** Sequence helpers the bot relies on implicitly: an insertion-ordered dict
    used as a "seen" set, list filtering, concatenation of chunks and
    Python's str.join. */
module Sequences {

  function Min(a: int, b: int): int
  {
    if a <= b then a else b
  }

  /** No element occurs twice. */
  predicate NoDuplicates<T(==)>(s: seq<T>)
  {
    forall i, j :: 0 <= i < j < |s| ==> s[i] != s[j]
  }

  /** Position of the first occurrence of x in s. */
  function FirstIndex<T(==)>(s: seq<T>, x: T): (i: nat)
    requires x in s
    ensures i < |s| && s[i] == x && x !in s[..i]
  {
    if s[0] == x then 0
    else
      var j := FirstIndex(s[1..], x);
      assert s[..j + 1] == [s[0]] + s[1..][..j];
      j + 1
  }

  /** The elements of s, each once, in the order in which they first occur:
      what inserting s into a Python dict and reading back its keys yields. */
  function Dedup<T(==,!new)>(s: seq<T>): (r: seq<T>)
    ensures NoDuplicates(r)
    ensures forall x :: x in r <==> x in s
    ensures |r| <= |s|
  {
    if s == [] then []
    else
      var p := s[..|s| - 1];
      var d := Dedup(p);
      assert s == p + [s[|s| - 1]];
      if s[|s| - 1] in d then d else d + [s[|s| - 1]]
  }

  /** Appending to the input only appends to the de-duplicated output. */
  lemma {:induction false} DedupPrefix<T(!new)>(a: seq<T>, b: seq<T>)
    ensures Dedup(a) <= Dedup(a + b)
  {
    if b == [] {
      assert a + b == a;
    } else {
      var c := a + b[..|b| - 1];
      DedupPrefix(a, b[..|b| - 1]);
      assert (a + b)[..|a + b| - 1] == c;
      assert Dedup(c) <= Dedup(a + b);
    }
  }

  /** A prefix of a duplicate-free sequence is duplicate-free. */
  lemma PrefixNoDuplicates<T>(s: seq<T>, n: nat)
    requires n <= |s| && NoDuplicates(s)
    ensures NoDuplicates(s[..n]) && forall i :: 0 <= i < n ==> s[..n][i] == s[i]
  {
    assert forall i :: 0 <= i < n ==> s[..n][i] == s[i];
  }

  /** Extending a sequence does not move the first occurrence of an element
      it already holds. */
  lemma FirstIndexExtend<T(!new)>(p: seq<T>, y: T, x: T)
    requires x in p
    ensures FirstIndex(p + [y], x) == FirstIndex(p, x)
  {
    var i1, i2 := FirstIndex(p + [y], x), FirstIndex(p, x);
    assert forall k :: 0 <= k < i1 ==> (p + [y])[..i1][k] != x;
    assert forall k :: 0 <= k < i2 ==> p[..i2][k] != x;
    assert (p + [y])[i2] == x;
  }

  /** Dedup lists the elements in the order of their first occurrence. */
  lemma {:induction false} DedupFirstAppearance<T(!new)>(s: seq<T>, i: nat, j: nat)
    requires i < j < |Dedup(s)|
    ensures FirstIndex(s, Dedup(s)[i]) < FirstIndex(s, Dedup(s)[j])
  {
    var p, y := s[..|s| - 1], s[|s| - 1];
    assert s == p + [y];
    var d := Dedup(p);
    if j < |d| {
      DedupFirstAppearance(p, i, j);
      FirstIndexExtend(p, y, d[i]);
      FirstIndexExtend(p, y, d[j]);
    } else {
      FirstIndexExtend(p, y, d[i]);
    }
  }

  /** The elements of s that satisfy p, in their order in s. */
  function Filter<T(==,!new)>(s: seq<T>, p: T -> bool): (r: seq<T>)
    ensures |r| <= |s|
    ensures forall x :: x in r <==> x in s && p(x)
  {
    if s == [] then []
    else
      var q := s[..|s| - 1];
      assert s == q + [s[|s| - 1]];
      Filter(q, p) + if p(s[|s| - 1]) then [s[|s| - 1]] else []
  }

  /** The concatenation of a sequence of sequences. */
  function Flatten<T>(ss: seq<seq<T>>): seq<T>
  {
    if ss == [] then [] else Flatten(ss[..|ss| - 1]) + ss[|ss| - 1]
  }

  /** Python's sep.join(parts). */
  function Join(parts: seq<string>, sep: string): string
  {
    if parts == [] then ""
    else if |parts| == 1 then parts[0]
    else Join(parts[..|parts| - 1], sep) + sep + parts[|parts| - 1]
  }

  /** A joined string begins with its first part. */
  lemma {:induction false} JoinStartsWithFirst(parts: seq<string>, sep: string)
    requires parts != []
    ensures parts[0] <= Join(parts, sep)
  {
    if |parts| > 1 {
      var q := parts[..|parts| - 1];
      JoinStartsWithFirst(q, sep);
      assert Join(parts, sep) == Join(q, sep) + (sep + parts[|parts| - 1]);
    }
  }
}
