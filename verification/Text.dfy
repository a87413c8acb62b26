/** Go's string order, and the contract of the `sort` package calls.

    Go compares strings byte by byte; UTF-8 keeps code-point order, so the model
    compares characters. `sort.Strings` and `sort.Slice` promise an ordered
    permutation and nothing about ties: `Sort` below stands for both, and only its
    contract is used elsewhere. */
module Text {

  predicate Less(a: string, b: string) {
    b != "" && (a == "" || a[0] < b[0] || (a[0] == b[0] && Less(a[1..], b[1..])))
  }

  lemma {:induction false} LessIrreflexive(a: string)
    ensures !Less(a, a)
  {
    if a != "" {
      LessIrreflexive(a[1..]);
    }
  }

  lemma {:induction false} LessTransitive(a: string, b: string, c: string)
    requires Less(a, b) && Less(b, c)
    ensures Less(a, c)
  {
    if a != "" && a[0] == b[0] == c[0] {
      LessTransitive(a[1..], b[1..], c[1..]);
    }
  }

  lemma {:induction false} LessTotal(a: string, b: string)
    ensures Less(a, b) || a == b || Less(b, a)
  {
    if a != "" && b != "" && a[0] == b[0] {
      LessTotal(a[1..], b[1..]);
      assert a == [a[0]] + a[1..] && b == [b[0]] + b[1..];
    }
  }

  /** `less` may be handed to `sort.Slice`: asymmetric, and "not less" is transitive. */
  ghost predicate StrictWeakOrder<T(!new)>(less: (T, T) -> bool) {
    && (forall x, y :: less(x, y) ==> !less(y, x))
    && (forall x, y, z :: !less(y, x) && !less(z, y) ==> !less(z, x))
  }

  lemma LessIsStrictWeakOrder()
    ensures StrictWeakOrder(Less)
  {
    forall x: string, y: string | Less(x, y) ensures !Less(y, x) {
      if Less(y, x) {
        LessTransitive(x, y, x);
        LessIrreflexive(x);
      }
    }
    forall x: string, y: string, z: string | !Less(y, x) && !Less(z, y) ensures !Less(z, x) {
      LessTotal(x, y);
      LessTotal(y, z);
      LessIrreflexive(x);
      if x != y && y != z {
        LessTransitive(x, y, z);
      }
      if Less(z, x) && Less(x, z) {
        LessTransitive(z, x, z);
        LessIrreflexive(z);
      }
    }
  }

  /** No later element ranks before an earlier one. */
  ghost predicate Ordered<T(!new)>(s: seq<T>, less: (T, T) -> bool) {
    forall i, j :: 0 <= i < j < |s| ==> !less(s[j], s[i])
  }

  lemma OrderedTail<T(!new)>(s: seq<T>, less: (T, T) -> bool)
    requires Ordered(s, less) && s != []
    ensures Ordered(s[1..], less)
  {
  }

  /** Everything but the travelling element at `hole` is in order. */
  ghost predicate OrderedExcept<T(!new)>(a: array<T>, less: (T, T) -> bool, n: int, hole: int)
    requires n <= a.Length
    reads a
  {
    forall i, j :: 0 <= i < j < n && j != hole ==> !less(a[j], a[i])
  }

  method Sort<T(!new)>(a: array<T>, less: (T, T) -> bool)
    requires StrictWeakOrder(less)
    modifies a
    ensures multiset(a[..]) == multiset(old(a[..]))
    ensures Ordered(a[..], less)
  {
    var n := 0;
    while n < a.Length
      invariant 0 <= n <= a.Length
      invariant multiset(a[..]) == multiset(old(a[..]))
      invariant OrderedExcept(a, less, n, -1)
    {
      Sink(a, n, less);
      n := n + 1;
    }
  }

  /** Moves element `n` down into the ordered prefix before it. */
  method Sink<T(!new)>(a: array<T>, n: nat, less: (T, T) -> bool)
    requires StrictWeakOrder(less)
    requires n < a.Length && OrderedExcept(a, less, n, -1)
    modifies a
    ensures multiset(a[..]) == multiset(old(a[..]))
    ensures OrderedExcept(a, less, n + 1, -1)
  {
    var hole := n;
    while hole > 0 && less(a[hole], a[hole - 1])
      invariant 0 <= hole <= n
      invariant multiset(a[..]) == multiset(old(a[..]))
      invariant OrderedExcept(a, less, n + 1, hole)
    {
      SwapDown(a, n + 1, less, hole);
      hole := hole - 1;
    }
    HoleFits(a, less, n + 1, hole);
  }

  method SwapDown<T(!new)>(a: array<T>, n: nat, less: (T, T) -> bool, hole: nat)
    requires StrictWeakOrder(less)
    requires 0 < hole < n <= a.Length && less(a[hole], a[hole - 1])
    requires OrderedExcept(a, less, n, hole)
    modifies a
    ensures multiset(a[..]) == multiset(old(a[..]))
    ensures OrderedExcept(a, less, n, hole - 1)
  {
    a[hole], a[hole - 1] := a[hole - 1], a[hole];
  }

  lemma HoleFits<T(!new)>(a: array<T>, less: (T, T) -> bool, n: nat, hole: nat)
    requires StrictWeakOrder(less) && hole < n <= a.Length
    requires OrderedExcept(a, less, n, hole)
    requires hole > 0 ==> !less(a[hole], a[hole - 1])
    ensures OrderedExcept(a, less, n, -1)
  {
    if hole > 0 {
      forall i | 0 <= i < hole ensures !less(a[hole], a[i]) {
        assert i < hole - 1 ==> !less(a[hole - 1], a[i]);
      }
    }
  }

  ghost predicate StrictlyAscending(s: seq<string>) {
    forall i, j :: 0 <= i < j < |s| ==> Less(s[i], s[j])
  }

  lemma {:induction false} LeastExists(s: set<string>) returns (m: string)
    requires s != {}
    ensures m in s && forall x :: x in s && x != m ==> Less(m, x)
  {
    var y :| y in s;
    m := y;
    if s != {y} {
      var rest := LeastExists(s - {y});
      LessTotal(y, rest);
      if Less(rest, y) {
        m := rest;
      } else {
        forall x | x in s && x != y ensures Less(y, x) {
          if x != rest {
            LessTransitive(y, rest, x);
          }
        }
      }
    }
  }

  ghost predicate IsLeast(m: string, s: set<string>) {
    m in s && forall x :: x in s && x != m ==> Less(m, x)
  }

  lemma LeastInFront(m: string, s: set<string>, tail: seq<string>)
    requires IsLeast(m, s) && StrictlyAscending(tail) && forall x :: x in tail <==> x in s - {m}
    ensures StrictlyAscending([m] + tail)
    ensures forall x :: x in [m] + tail <==> x in s
  {
    forall i | 0 <= i < |tail| ensures Less(m, tail[i]) {
      assert tail[i] in tail;
    }
  }

  /** The members of `s` in ascending order: what sorting any listing of `s` gives. */
  ghost function Ascending(s: set<string>): (r: seq<string>)
    ensures StrictlyAscending(r)
    ensures forall x :: x in r <==> x in s
    ensures |r| == |s|
  {
    if s == {} then []
    else
      assert exists m :: IsLeast(m, s) by {
        var m := LeastExists(s);
        assert IsLeast(m, s);
      }
      var m :| IsLeast(m, s);
      var tail := Ascending(s - {m});
      LeastInFront(m, s, tail);
      [m] + tail
  }

  /** There is only one strictly ascending listing of a set. */
  lemma {:induction false} AscendingUnique(a: seq<string>, b: seq<string>)
    requires StrictlyAscending(a) && StrictlyAscending(b)
    requires forall x :: x in a <==> x in b
    ensures a == b
  {
    assert a != [] ==> a[0] in a;
    assert b != [] ==> b[0] in b;
    if a != [] && b != [] {
      HeadsAgree(a, b);
      var u, v := a[1..], b[1..];
      forall x ensures x in u <==> x in v {
        TailMembers(a, x);
        TailMembers(b, x);
      }
      AscendingUnique(u, v);
      assert a == [a[0]] + u && b == [b[0]] + v;
    }
  }

  lemma HeadsAgree(a: seq<string>, b: seq<string>)
    requires StrictlyAscending(a) && StrictlyAscending(b) && a != [] && b != []
    requires forall x :: x in a <==> x in b
    ensures a[0] == b[0]
  {
    assert a[0] in b && b[0] in a;
    var i :| 0 <= i < |b| && b[i] == a[0];
    var j :| 0 <= j < |a| && a[j] == b[0];
    if i > 0 && j > 0 {
      LessTransitive(a[0], b[0], a[0]);
      LessIrreflexive(a[0]);
    }
  }

  lemma TailMembers(a: seq<string>, x: string)
    requires StrictlyAscending(a) && a != []
    ensures x in a[1..] <==> x in a && x != a[0]
  {
    if x in a[1..] {
      var i :| 1 <= i < |a| && a[i] == x;
      LessIrreflexive(a[0]);
    }
  }

  /** No finite set holds every string. */
  lemma {:induction false} FreshName(taken: set<string>) returns (x: string)
    ensures x != "" && x !in taken
    ensures forall t :: t in taken ==> |t| < |x|
  {
    if taken == {} {
      x := "x";
    } else {
      var t :| t in taken;
      var y := FreshName(taken - {t});
      x := y + t + "x";
    }
  }

  /** Go's order, said without recursion: at the first place where they differ, the
      smaller string has the smaller character or has ended. */
  lemma {:induction false} LessExactly(a: string, b: string)
    ensures Less(a, b) <==> exists k :: DiffersAt(a, b, k)
  {
    if a != "" && b != "" && a[0] == b[0] {
      LessExactly(a[1..], b[1..]);
      if k :| DiffersAt(a[1..], b[1..], k) {
        assert a[..k + 1] == [a[0]] + a[1..][..k] && b[..k + 1] == [b[0]] + b[1..][..k];
        assert DiffersAt(a, b, k + 1);
      }
      if k :| DiffersAt(a, b, k) {
        assert k > 0;
        assert a[1..][..k - 1] == a[..k][1..] && b[1..][..k - 1] == b[..k][1..];
        assert DiffersAt(a[1..], b[1..], k - 1);
      }
    } else if b != "" {
      assert a[..0] == b[..0];
      assert DiffersAt(a, b, 0) <==> a == "" || a[0] < b[0];
    }
  }

  ghost predicate DiffersAt(a: string, b: string, k: int) {
    0 <= k < |b| && k <= |a| && a[..k] == b[..k] && (k == |a| || a[k] < b[k])
  }
}
