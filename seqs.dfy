/** The JavaScript array operations the client builds its list updates from:
    `filter`, filtering by position, and the two uses of `splice`
    (remove one element, insert one element) that make up a drag-reorder. */
module Seqs {

  /** `s.filter(p)`. */
  function Filter<T>(s: seq<T>, p: T -> bool): (r: seq<T>)
    ensures |r| <= |s|
    ensures forall x :: x in r ==> x in s && p(x)
    ensures forall x :: x in s && p(x) ==> x in r
    ensures multiset(r) <= multiset(s)
    ensures |r| == |s| <==> forall i :: 0 <= i < |s| ==> p(s[i])
  {
    if s == [] then []
    else
      var rest := Filter(s[1..], p);
      assert s == [s[0]] + s[1..];
      assert forall i :: 1 <= i < |s| ==> s[i] == s[1..][i - 1];
      if p(s[0]) then [s[0]] + rest else rest
  }

  /** Filtering distributes over concatenation, so the kept elements stay in
      their original order. */
  lemma {:induction false} FilterAppend<T>(a: seq<T>, b: seq<T>, p: T -> bool)
    ensures Filter(a + b, p) == Filter(a, p) + Filter(b, p)
  {
    if a == [] {
      assert a + b == b;
    } else {
      assert (a + b)[1..] == a[1..] + b;
      FilterAppend(a[1..], b, p);
    }
  }

  /** `s.filter((_, i) => i !== k)`: drops position `k`, if there is one. */
  function RemoveAt<T>(s: seq<T>, k: nat): (r: seq<T>)
    ensures k < |s| ==> |r| == |s| - 1
    ensures k < |s| ==> forall i :: 0 <= i < k ==> r[i] == s[i]
    ensures k < |s| ==> forall i :: k <= i < |r| ==> r[i] == s[i + 1]
    ensures k >= |s| ==> r == s
  {
    if k < |s| then s[..k] + s[k + 1..] else s
  }

  /** `s.splice(k, 0, x)`: inserts `x` before position `k`, or at the end when
      `k` is past it. */
  function InsertAt<T>(s: seq<T>, k: nat, x: T): (r: seq<T>)
    ensures |r| == |s| + 1
    ensures multiset(r) == multiset(s) + multiset{x}
    ensures r[if k < |s| then k else |s|] == x
    ensures forall i :: 0 <= i < k && i < |s| ==> r[i] == s[i]
    ensures forall i :: k <= i < |s| ==> r[i + 1] == s[i]
  {
    var j := if k < |s| then k else |s|;
    assert s == s[..j] + s[j..];
    s[..j] + [x] + s[j..]
  }

  /** A drag-reorder: `const [x] = s.splice(from, 1); s.splice(to, 0, x)`.
      When `from` is past the end, `splice` removes nothing and `x` is
      `undefined`, which `hole` stands for. */
  function Reorder<T>(s: seq<T>, from: nat, to: nat, hole: T): (r: seq<T>)
    ensures |r| == if from < |s| then |s| else |s| + 1
    ensures from < |s| ==> r[if to < |s| - 1 then to else |s| - 1] == s[from]
    ensures from >= |s| ==> r[if to < |s| then to else |s|] == hole
  {
    if from < |s| then InsertAt(RemoveAt(s, from), to, s[from]) else InsertAt(s, to, hole)
  }

  /** Moving an element that exists keeps the length and the contents. */
  lemma ReorderIsPermutation<T>(s: seq<T>, from: nat, to: nat, hole: T)
    requires from < |s|
    ensures |Reorder(s, from, to, hole)| == |s|
    ensures multiset(Reorder(s, from, to, hole)) == multiset(s)
  {
    assert s == s[..from] + [s[from]] + s[from + 1..];
    assert multiset(s) == multiset(RemoveAt(s, from)) + multiset{s[from]};
  }

  /** Where each position of the reordered sequence comes from. */
  function ReorderSource(n: nat, from: nat, to: nat, i: nat): nat
    requires from < n
  {
    var t := if to < n - 1 then to else n - 1;
    if i == t then from
    else
      var j := if i < t then i else i - 1;
      if j < from then j else j + 1
  }

  lemma ReorderAt<T>(s: seq<T>, from: nat, to: nat, hole: T, i: nat)
    requires from < |s| && i < |s|
    ensures ReorderSource(|s|, from, to, i) < |s|
    ensures Reorder(s, from, to, hole)[i] == s[ReorderSource(|s|, from, to, i)]
  {
    var rest := RemoveAt(s, from);
    var r := InsertAt(rest, to, s[from]);
    var t := if to < |rest| then to else |rest|;
    if i != t {
      var j := if i < t then i else i - 1;
      assert r[i] == rest[j];
    }
  }

  /** The pairs of two sequences, position by position. */
  function Zip<A, B>(a: seq<A>, b: seq<B>): (r: seq<(A, B)>)
    requires |a| == |b|
    ensures |r| == |a|
    ensures forall i :: 0 <= i < |a| ==> r[i] == (a[i], b[i])
  {
    seq(|a|, i requires 0 <= i < |a| => (a[i], b[i]))
  }

  /** Reordering two aligned sequences the same way keeps them aligned: it is
      the same as reordering their pairs. */
  lemma ReorderKeepsAlignment<A, B>(a: seq<A>, b: seq<B>, from: nat, to: nat, holeA: A, holeB: B)
    requires |a| == |b| && from < |a|
    ensures |Reorder(a, from, to, holeA)| == |Reorder(b, from, to, holeB)| == |a|
    ensures Zip(Reorder(a, from, to, holeA), Reorder(b, from, to, holeB))
         == Reorder(Zip(a, b), from, to, (holeA, holeB))
  {
    var ra, rb := Reorder(a, from, to, holeA), Reorder(b, from, to, holeB);
    var rz := Reorder(Zip(a, b), from, to, (holeA, holeB));
    ReorderIsPermutation(a, from, to, holeA);
    ReorderIsPermutation(b, from, to, holeB);
    ReorderIsPermutation(Zip(a, b), from, to, (holeA, holeB));
    forall i | 0 <= i < |a|
      ensures Zip(ra, rb)[i] == rz[i]
    {
      ReorderAt(a, from, to, holeA, i);
      ReorderAt(b, from, to, holeB, i);
      ReorderAt(Zip(a, b), from, to, (holeA, holeB), i);
    }
  }
}
