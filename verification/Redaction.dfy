/** `Redact`: replace every secret by a mask, one secret after the other. */
module Redaction {

  const MASK := "[REDACTED]"

  ghost predicate OccursAt(s: string, w: string, k: int) {
    0 <= k <= |s| - |w| && s[k..k + |w|] == w
  }

  ghost predicate Contains(s: string, w: string) {
    exists k :: OccursAt(s, w, k)
  }

  /** `strings.ReplaceAll(s, secret, MASK)`: leftmost matches first, without overlap. */
  function ReplaceAll(s: string, secret: string): string
    requires secret != ""
    decreases |s|
  {
    if |s| < |secret| then s
    else if s[..|secret|] == secret then MASK + ReplaceAll(s[|secret|..], secret)
    else [s[0]] + ReplaceAll(s[1..], secret)
  }

  function Redacted(value: string, secrets: seq<string>): string {
    if secrets == [] then value
    else
      var last := secrets[|secrets| - 1];
      var out := Redacted(value, secrets[..|secrets| - 1]);
      if last == "" then out else ReplaceAll(out, last)
  }

  method Redact(value: string, secrets: seq<string>) returns (out: string)
    ensures out == Redacted(value, secrets)
  {
    out := value;
    for i := 0 to |secrets|
      invariant out == Redacted(value, secrets[..i])
    {
      assert secrets[..i + 1][..i] == secrets[..i];
      if secrets[i] == "" {
        continue;
      }
      out := ReplaceAll(out, secrets[i]);
    }
    assert secrets[..|secrets|] == secrets;
  }

  /** Laid over the mask at distance `d`, the secret agrees with it wherever the two
      overlap, and they do overlap. Covers all four ways to clash: either contains the
      other, or an end of one is an end of the other. */
  predicate ClashesAt(w: string, d: int) {
    -|w| < d < |MASK| && forall i :: 0 <= i < |w| && 0 <= d + i < |MASK| ==> w[i] == MASK[d + i]
  }

  predicate Clashes(w: string) {
    exists d | -|w| < d < |MASK| :: ClashesAt(w, d)
  }

  lemma MaskSuppliesRest(w: string, j: nat, rest: string)
    requires j < |w| && w[j..] <= MASK + rest
    ensures Clashes(w)
  {
    forall i | 0 <= i < |w| && 0 <= i - j < |MASK| ensures w[i] == MASK[i - j] {
      assert w[i] == w[j..][i - j] == (MASK + rest)[i - j];
    }
    assert ClashesAt(w, 0 - j);
  }

  lemma MaskSuppliesPart(w: string, k: nat, rest: string)
    requires w != "" && k < |MASK| && OccursAt(MASK + rest, w, k)
    ensures Clashes(w)
  {
    var out := MASK + rest;
    forall i | 0 <= i < |w| && 0 <= k + i < |MASK| ensures w[i] == MASK[k + i] {
      assert w[i] == out[k..k + |w|][i] == out[k + i];
    }
    assert ClashesAt(w, k);
  }

  /** No step of a clash-free secret's text can be supplied by a mask: what reads as the
      rest of `w` at the front of the output was already there in the input. */
  lemma {:induction false} PrefixWasThere(s: string, v: string, w: string, j: nat)
    requires v != "" && j <= |w| && !Clashes(w)
    requires w[j..] <= ReplaceAll(s, v)
    ensures w[j..] <= s
    decreases |s|
  {
    var out := ReplaceAll(s, v);
    if |s| >= |v| && j < |w| {
      if s[..|v|] == v {
        MaskSuppliesRest(w, j, ReplaceAll(s[|v|..], v));
      } else {
        assert w[j] == w[j..][0] == out[0] == s[0];
        assert w[j + 1..] == w[j..][1..] && out[1..] == ReplaceAll(s[1..], v);
        PrefixWasThere(s[1..], v, w, j + 1);
        assert w[j..] == [w[j]] + w[j + 1..] && s == [s[0]] + s[1..];
      }
    }
  }

  lemma ContainsTail(s: string, w: string, n: nat)
    requires n <= |s| && Contains(s[n..], w)
    ensures Contains(s, w)
  {
    var k :| OccursAt(s[n..], w, k);
    assert s[n..][k..k + |w|] == s[n + k..n + k + |w|];
    assert OccursAt(s, w, n + k);
  }

  /** An occurrence in `MASK + rest` lies inside `rest`. */
  lemma SkipsMask(rest: string, w: string)
    requires !Clashes(w) && Contains(MASK + rest, w)
    ensures Contains(rest, w)
  {
    var out := MASK + rest;
    var k :| OccursAt(out, w, k);
    if k < |MASK| && w != "" {
      MaskSuppliesPart(w, k, rest);
    } else if w == "" {
      assert OccursAt(rest, w, 0);
    } else {
      assert out[k..k + |w|] == rest[k - |MASK|..k - |MASK| + |w|];
      assert OccursAt(rest, w, k - |MASK|);
    }
  }

  lemma FrontWasThere(s: string, v: string, w: string)
    requires v != "" && !Clashes(w) && OccursAt(ReplaceAll(s, v), w, 0)
    ensures OccursAt(s, w, 0)
  {
    assert w[0..] == w;
    PrefixWasThere(s, v, w, 0);
  }

  /** Replacing any secret `v` never creates an occurrence of a clash-free `w`, and
      replacing `w` itself leaves none. */
  lemma {:induction false} ReplaceLeavesNone(s: string, v: string, w: string)
    requires v != "" && w != "" && !Clashes(w)
    requires v == w || !Contains(s, w)
    ensures !Contains(ReplaceAll(s, v), w)
    decreases |s|
  {
    var out := ReplaceAll(s, v);
    if |s| < |v| {
      assert out == s;
    } else if s[..|v|] == v {
      if v != w && Contains(s[|v|..], w) {
        ContainsTail(s, w, |v|);
      }
      ReplaceLeavesNone(s[|v|..], v, w);
      if Contains(out, w) {
        SkipsMask(ReplaceAll(s[|v|..], v), w);
      }
    } else {
      if v != w && Contains(s[1..], w) {
        ContainsTail(s, w, 1);
      }
      ReplaceLeavesNone(s[1..], v, w);
      if k :| OccursAt(out, w, k) {
        if k == 0 {
          FrontWasThere(s, v, w);
        } else {
          assert out[1..][k - 1..k - 1 + |w|] == out[k..k + |w|];
          assert OccursAt(out[1..], w, k - 1);
        }
      }
    }
  }

  /** Redaction is complete: every listed secret that does not clash with the mask is
      absent from the output, whatever the other secrets and their order. */
  lemma {:induction false} RedactionComplete(value: string, secrets: seq<string>, w: string)
    requires w in secrets && w != "" && !Clashes(w)
    ensures !Contains(Redacted(value, secrets), w)
  {
    var n := |secrets| - 1;
    var last, before := secrets[n], secrets[..n];
    if w in before {
      RedactionComplete(value, before, w);
      if last != "" {
        ReplaceLeavesNone(Redacted(value, before), last, w);
      }
    } else {
      assert last == w;
      ReplaceLeavesNone(Redacted(value, before), w, w);
    }
  }

  /** Pieces with `w` between them. */
  function Glue(pieces: seq<string>, w: string): string
    requires pieces != []
  {
    if |pieces| == 1 then pieces[0] else pieces[0] + w + Glue(pieces[1..], w)
  }

  /** The first `secret` in what comes after a piece is right behind it. */
  ghost predicate EndsBefore(piece: string, secret: string) {
    forall k :: 0 <= k < |piece| ==> !OccursAt(piece + secret, secret, k)
  }

  ghost predicate Cut(pieces: seq<string>, secret: string) {
    && pieces != []
    && (forall i :: 0 <= i < |pieces| - 1 ==> EndsBefore(pieces[i], secret))
    && !Contains(pieces[|pieces| - 1], secret)
  }

  lemma GlueLonger(c: char, pieces: seq<string>, w: string)
    requires pieces != []
    ensures Glue([[c] + pieces[0]] + pieces[1..], w) == [c] + Glue(pieces, w)
  {
    var longer := [[c] + pieces[0]] + pieces[1..];
    assert longer[1..] == pieces[1..];
    if |pieces| > 1 {
      assert ([c] + pieces[0]) + w + Glue(pieces[1..], w) == [c] + (pieces[0] + w + Glue(pieces[1..], w));
    }
  }

  lemma GlueNone(pieces: seq<string>, w: string)
    requires pieces != []
    ensures Glue([""] + pieces, w) == w + Glue(pieces, w)
  {
    assert ([""] + pieces)[1..] == pieces;
    assert "" + w == w;
  }

  lemma OccursInTail(s: string, w: string, k: int)
    requires s != "" && k > 0
    ensures OccursAt(s, w, k) <==> OccursAt(s[1..], w, k - 1)
  {
    assert 0 <= k <= |s| - |w| ==> s[1..][k - 1..k - 1 + |w|] == s[k..k + |w|];
  }

  /** Nothing at the front and nothing behind it. */
  lemma StillAbsent(s: string, secret: string)
    requires |s| >= |secret| > 0 && s[..|secret|] != secret && !Contains(s[1..], secret)
    ensures !Contains(s, secret)
  {
    forall k ensures !OccursAt(s, secret, k) {
      if k > 0 {
        OccursInTail(s, secret, k);
      }
    }
  }

  lemma StillEndsBefore(s: string, piece: string, secret: string)
    requires |s| >= |secret| > 0 && s[..|secret|] != secret
    requires EndsBefore(piece, secret) && piece + secret <= s[1..]
    ensures EndsBefore([s[0]] + piece, secret)
  {
    var front := [s[0]] + piece + secret;
    assert front == s[..|front|] && front[1..] == piece + secret;
    assert front[..|secret|] == s[..|secret|];
    forall k | 0 <= k < |piece| + 1 ensures !OccursAt(front, secret, k) {
      if k > 0 {
        OccursInTail(front, secret, k);
      }
    }
  }

  lemma CutLonger(s: string, secret: string, rest: seq<string>)
    requires |s| >= |secret| > 0 && s[..|secret|] != secret
    requires Cut(rest, secret) && Glue(rest, secret) == s[1..]
    ensures Cut([[s[0]] + rest[0]] + rest[1..], secret)
  {
    var pieces := [[s[0]] + rest[0]] + rest[1..];
    if |rest| == 1 {
      assert [s[0]] + rest[0] == s;
      StillAbsent(s, secret);
    } else {
      assert rest[0] + secret <= s[1..] by {
        assert s[1..] == rest[0] + secret + Glue(rest[1..], secret);
      }
      StillEndsBefore(s, rest[0], secret);
      forall i | 1 <= i < |pieces| ensures pieces[i] == rest[i] {
      }
    }
  }

  lemma CutNone(secret: string, rest: seq<string>)
    requires Cut(rest, secret)
    ensures Cut([""] + rest, secret)
  {
    var pieces := [""] + rest;
    forall i | 1 <= i < |pieces| ensures pieces[i] == rest[i - 1] {
    }
  }

  /** What a replacement does to a text: cut at the secrets, leftmost first, the text is
      the pieces with secrets between them, and the result the same pieces with masks. */
  lemma {:induction false} ReplaceCuts(s: string, secret: string) returns (pieces: seq<string>)
    requires secret != ""
    ensures Cut(pieces, secret)
    ensures Glue(pieces, secret) == s && Glue(pieces, MASK) == ReplaceAll(s, secret)
    decreases |s|
  {
    if |s| < |secret| {
      pieces := [s];
    } else if s[..|secret|] == secret {
      var rest := ReplaceCuts(s[|secret|..], secret);
      pieces := [""] + rest;
      CutNone(secret, rest);
      GlueNone(rest, secret);
      GlueNone(rest, MASK);
      assert s == secret + s[|secret|..];
    } else {
      var rest := ReplaceCuts(s[1..], secret);
      pieces := [[s[0]] + rest[0]] + rest[1..];
      CutLonger(s, secret, rest);
      GlueLonger(s[0], rest, secret);
      GlueLonger(s[0], rest, MASK);
      assert s == [s[0]] + s[1..];
    }
  }

  /** And nothing else is touched: a text in which no listed secret occurs comes back as
      it was. */
  lemma {:induction false} RedactionHarmless(value: string, secrets: seq<string>)
    requires forall i :: 0 <= i < |secrets| ==> secrets[i] == "" || !Contains(value, secrets[i])
    ensures Redacted(value, secrets) == value
  {
    if secrets != [] {
      var n := |secrets| - 1;
      RedactionHarmless(value, secrets[..n]);
      if secrets[n] != "" {
        ReplaceAbsent(value, secrets[n]);
      }
    }
  }

  // The other direction: for a clashing secret there are a value and a second secret
  // that make the mask itself supply the missing part.

  function Repeat(c: char, n: nat): (s: string)
    ensures |s| == n && forall i :: 0 <= i < n ==> s[i] == c
  {
    if n == 0 then "" else [c] + Repeat(c, n - 1)
  }

  lemma FrontOccurs(s: string, v: string)
    requires |v| <= |s| && s[..|v|] == v
    ensures Contains(s, v)
  {
    assert OccursAt(s, v, 0);
  }

  lemma {:induction false} ReplaceAbsent(s: string, v: string)
    requires v != "" && !Contains(s, v)
    ensures ReplaceAll(s, v) == s
    decreases |s|
  {
    if |s| >= |v| {
      if s[..|v|] == v {
        FrontOccurs(s, v);
      } else {
        if Contains(s[1..], v) {
          ContainsTail(s, v, 1);
        }
        ReplaceAbsent(s[1..], v);
        assert s == [s[0]] + s[1..];
      }
    }
  }

  lemma NotYetTheRun(left: string, run: string, right: string, c: char)
    requires run == Repeat(c, |run|) && |run| > |left| > 0 && left[|left| - 1] != c
    ensures (left + run + right)[..|run|] != run
  {
    var front := (left + run + right)[..|run|];
    assert front[|left| - 1] == left[|left| - 1];
    assert run[|left| - 1] == c;
  }

  lemma Uncons(a: string, b: string, c: string)
    requires a != ""
    ensures a + b + c == [a[0]] + (a[1..] + b + c)
    ensures (a + b + c)[0] == a[0] && (a + b + c)[1..] == a[1..] + b + c
  {
    assert a == [a[0]] + a[1..];
  }

  /** A single run of `c` in the middle, too long to occur anywhere else, is the one match. */
  lemma {:induction false} ReplaceRun(left: string, run: string, right: string, c: char)
    requires run == Repeat(c, |run|) && |run| > |right|
    requires left != "" ==> left[|left| - 1] != c
    requires |run| > |left|
    ensures ReplaceAll(left + run + right, run) == left + MASK + right
    decreases |left|
  {
    var s := left + run + right;
    if left == "" {
      assert s[..|run|] == run && s[|run|..] == right;
      ReplaceAbsent(right, run);
      assert MASK + right == left + MASK + right;
    } else {
      NotYetTheRun(left, run, right, c);
      Uncons(left, run, right);
      Uncons(left, MASK, right);
      ReplaceRun(left[1..], run, right, c);
    }
  }

  /** What `w` has on either side of the mask it overlaps. */
  function Before(w: string, d: int): string
    requires -|w| < d < |MASK|
  {
    if d < 0 then w[..-d] else ""
  }

  function After(w: string, d: int): string
    requires -|w| < d < |MASK|
  {
    if |w| + d > |MASK| then w[|MASK| - d..] else ""
  }

  /** Every occurrence of `w` would need a mask character where the run stands. */
  lemma RunHides(w: string, d: int, run: string, c: char)
    requires w != "" && ClashesAt(w, d)
    requires c !in MASK && |run| > |w| && run == Repeat(c, |run|)
    ensures !Contains(Before(w, d) + run + After(w, d), w)
  {
    var left, right := Before(w, d), After(w, d);
    var value := left + run + right;
    forall k | 0 <= k <= |value| - |w| ensures !OccursAt(value, w, k) {
      var i := |left|;
      assert w[i] == MASK[d + i];
      assert k + i < |left| + |run|;
      assert value[k + i] == c;
      assert value[k..k + |w|][i] == value[k + i];
    }
  }

  lemma MaskCompletes(w: string, d: int)
    requires w != "" && ClashesAt(w, d)
    ensures Contains(Before(w, d) + MASK + After(w, d), w)
  {
    var left, right := Before(w, d), After(w, d);
    var out := left + MASK + right;
    var at := if d < 0 then 0 else d;
    forall i | 0 <= i < |w| ensures out[at + i] == w[i] {
    }
    assert out[at..at + |w|] == w;
    assert OccursAt(out, w, at);
  }

  lemma RedactedPair(value: string, a: string, b: string)
    requires a != "" && b != ""
    ensures Redacted(value, [a, b]) == ReplaceAll(ReplaceAll(value, a), b)
  {
    assert [a, b][..1] == [a] && [a][..0] == [];
    assert Redacted(value, []) == value;
    assert Redacted(value, [a]) == ReplaceAll(value, a);
  }

  ghost predicate LeftBehind(value: string, secrets: seq<string>, w: string) {
    w in secrets && Contains(Redacted(value, secrets), w)
  }

  /** The value and the pair of secrets that get a clashing `w` through. */
  lemma ClashGetsThrough(w: string, d: int)
    returns (value: string, secrets: seq<string>)
    requires w != "" && ClashesAt(w, d)
    ensures LeftBehind(value, secrets, w)
  {
    var left, right := Before(w, d), After(w, d);
    var c := if left != "" && left[|left| - 1] == 'a' then 'b' else 'a';
    var run := Repeat(c, |w| + 1);
    value, secrets := left + run + right, [w, run];
    RunHides(w, d, run, c);
    ReplaceAbsent(value, w);
    ReplaceRun(left, run, right, c);
    RedactedPair(value, w, run);
    MaskCompletes(w, d);
    assert w in secrets;
  }

  /** Exactly the secrets that do not clash with the mask are never left behind. The
      condition needs only the secret, not the text. */
  lemma RedactionExact(w: string)
    requires w != ""
    ensures (forall value, secrets :: !LeftBehind(value, secrets, w)) <==> !Clashes(w)
  {
    if Clashes(w) {
      var d :| -|w| < d < |MASK| && ClashesAt(w, d);
      var value, secrets := ClashGetsThrough(w, d);
    } else {
      forall value, secrets ensures !LeftBehind(value, secrets, w) {
        if w in secrets {
          RedactionComplete(value, secrets, w);
        }
      }
    }
  }
}
