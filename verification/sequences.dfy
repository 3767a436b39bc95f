/** What several modules need to know about sequences: taking one out, flattening, and order-preserving parts. */
module Sequences {
  ghost predicate Distinct<T>(s: seq<T>) {
    forall i, j | 0 <= i < j < |s| :: s[i] != s[j]
  }

  function Elements<T>(s: seq<T>): set<T> {
    set x | x in s
  }

  lemma {:induction false} DistinctSize<T>(s: seq<T>)
    requires Distinct(s)
    ensures |Elements(s)| == |s|
  {
    if s != [] {
      var n := |s| - 1;
      assert s == s[..n] + [s[n]];
      DistinctSize(s[..n]);
      assert Elements(s) == Elements(s[..n]) + {s[n]};
    }
  }

  lemma {:induction false} SubsetSize<T>(a: set<T>, b: set<T>)
    requires a <= b
    ensures |a| <= |b|
    ensures |a| == |b| ==> a == b
  {
    if a != {} {
      var x :| x in a;
      SubsetSize(a - {x}, b - {x});
    }
  }

  lemma {:induction false} SameSize<T>(a: seq<T>, b: seq<T>)
    requires multiset(a) == multiset(b)
    ensures |a| == |b|
  {
    assert |multiset(a)| == |a| && |multiset(b)| == |b|;
  }

  // ---------------------------------------------------------------------------------------------
  // Taking one out, flattening
  // ---------------------------------------------------------------------------------------------

  function Without<T>(s: seq<T>, i: nat): seq<T>
    requires i < |s|
  {
    s[..i] + s[i + 1..]
  }

  lemma {:induction false} WithoutOne<T>(s: seq<T>, i: nat)
    requires i < |s|
    ensures multiset(s) == multiset(Without(s, i)) + multiset{s[i]}
  {
    assert s == s[..i] + ([s[i]] + s[i + 1..]);
  }

  function Flatten<T>(parts: seq<seq<T>>): seq<T> {
    if parts == [] then [] else parts[0] + Flatten(parts[1..])
  }

  lemma {:induction false} FlattenAppend<T>(a: seq<seq<T>>, b: seq<seq<T>>)
    ensures Flatten(a + b) == Flatten(a) + Flatten(b)
  {
    if a == [] {
      assert a + b == b;
    } else {
      assert (a + b)[1..] == a[1..] + b;
      FlattenAppend(a[1..], b);
    }
  }

  lemma {:induction false} FlattenOne<T>(part: seq<T>)
    ensures Flatten([part]) == part
  {
    assert [part][1..] == [];
  }

  /** Where part i is, and what is left without it. */
  lemma {:induction false} FlattenSplit<T>(parts: seq<seq<T>>, i: nat)
    requires i < |parts|
    ensures Flatten(parts) == Flatten(parts[..i]) + parts[i] + Flatten(parts[i + 1..])
    ensures Flatten(Without(parts, i)) == Flatten(parts[..i]) + Flatten(parts[i + 1..])
  {
    assert parts == parts[..i] + parts[i..];
    FlattenAppend(parts[..i], parts[i..]);
    FlattenAppend(parts[..i], parts[i + 1..]);
    assert parts[i..][1..] == parts[i + 1..];
  }

  lemma {:induction false} FlattenWithout<T>(parts: seq<seq<T>>, i: nat)
    requires i < |parts|
    ensures multiset(Flatten(parts)) == multiset(Flatten(Without(parts, i))) + multiset(parts[i])
  {
    hide Flatten, Without;
    FlattenSplit(parts, i);
  }

  // ---------------------------------------------------------------------------------------------
  // Order-preserving parts
  // ---------------------------------------------------------------------------------------------

  /** f picks the positions of a in b, in increasing order. */
  ghost predicate Embeds<T>(a: seq<T>, b: seq<T>, f: seq<int>) {
    && |f| == |a|
    && (forall i | 0 <= i < |f| :: 0 <= f[i] < |b| && a[i] == b[f[i]])
    && forall i, j | 0 <= i < j < |f| :: f[i] < f[j]
  }

  /** a is b with some elements left out. */
  ghost predicate Subsequence<T>(a: seq<T>, b: seq<T>) {
    exists f :: Embeds(a, b, f)
  }

  lemma {:induction false} SubsequenceOfNone<T>()
    ensures Subsequence<T>([], [])
  {
    var none: seq<T> := [];
    assert Embeds(none, none, []);
  }

  lemma {:induction false} SubsequenceMore<T>(a: seq<T>, b: seq<T>, x: T)
    requires Subsequence(a, b)
    ensures Subsequence(a + [x], b + [x])
  {
    var f :| Embeds(a, b, f);
    assert Embeds(a + [x], b + [x], f + [|b|]);
  }

  lemma {:induction false} SubsequenceCut<T>(p: seq<T>, q: seq<T>, r: seq<T>, b: seq<T>)
    requires Subsequence(p + q + r, b)
    ensures Subsequence(p + r, b)
  {
    var f :| Embeds(p + q + r, b, f);
    var g := f[..|p|] + f[|p| + |q|..];
    forall i | 0 <= i < |g|
      ensures 0 <= g[i] < |b| && (p + r)[i] == b[g[i]]
    {
      assert g[i] == if i < |p| then f[i] else f[i + |q|];
      assert (p + r)[i] == (p + q + r)[if i < |p| then i else i + |q|];
    }
    assert Embeds(p + r, b, g);
  }

  lemma {:induction false} SubsequenceOfSameLength<T>(a: seq<T>, b: seq<T>)
    requires Subsequence(a, b) && |a| == |b|
    ensures a == b
  {
    var f :| Embeds(a, b, f);
    forall i | 0 <= i < |a|
      ensures a[i] == b[i]
    {
      Climbs(f, |b|, i);
    }
  }

  lemma {:induction false} Climbs(f: seq<int>, n: int, i: nat)
    requires |f| == n && i < n
    requires forall j | 0 <= j < |f| :: 0 <= f[j] < n
    requires forall j, k | 0 <= j < k < |f| :: f[j] < f[k]
    ensures f[i] == i
  {
    var j := 0;
    while j < i
      invariant 0 <= j <= i && f[j] >= j
    {
      j := j + 1;
    }
    j := n - 1;
    while j > i
      invariant i <= j < n && f[j] <= j
    {
      j := j - 1;
    }
  }
}
