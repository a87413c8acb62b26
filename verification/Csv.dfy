/** The comma-separated namespace lists of the configuration: written by the Helm
    chart as a comma join, read back by `splitCSV`. */
module Csv {
  import opened Wrappers

  const COMMA := ','

  /** `unicode.IsSpace`. */
  predicate IsSpace(c: char) {
    || '\t' <= c <= '\r' || c == ' ' || c == '\U{0085}' || c == '\U{00A0}' || c == '\U{1680}'
    || '\U{2000}' <= c <= '\U{200A}' || c == '\U{2028}' || c == '\U{2029}' || c == '\U{202F}'
    || c == '\U{205F}' || c == '\U{3000}'
  }

  function TrimLeft(s: string): string {
    if s != "" && IsSpace(s[0]) then TrimLeft(s[1..]) else s
  }

  function TrimRight(s: string): string {
    if s != "" && IsSpace(s[|s| - 1]) then TrimRight(s[..|s| - 1]) else s
  }

  /** `strings.TrimSpace`. */
  function Trim(s: string): string {
    TrimRight(TrimLeft(s))
  }

  predicate Trimmed(s: string) {
    s == "" || (!IsSpace(s[0]) && !IsSpace(s[|s| - 1]))
  }

  /** `strings.Split(s, ",")`. */
  function Split(s: string): (parts: seq<string>)
    ensures parts != []
  {
    if s == "" then [""]
    else
      var tail := Split(s[1..]);
      if s[0] == COMMA then [""] + tail else [[s[0]] + tail[0]] + tail[1..]
  }

  /** The chart's `join ","`. */
  function Join(names: seq<string>): string {
    if names == [] then ""
    else if |names| == 1 then names[0]
    else names[0] + [COMMA] + Join(names[1..])
  }

  /** A part contributes its trimmed text, unless nothing is left of it. */
  function Entry(part: string): seq<string> {
    var name := Trim(part);
    if name != "" then [name] else []
  }

  function Keep(parts: seq<string>): seq<string> {
    if parts == [] then [] else Entry(parts[0]) + Keep(parts[1..])
  }

  /** The names a configuration value stands for. */
  function Names(value: string): seq<string> {
    Keep(Split(value))
  }

  predicate ProperName(n: string) {
    n != "" && Trimmed(n) && COMMA !in n
  }

  ghost predicate Proper(names: seq<string>) {
    forall i :: 0 <= i < |names| ==> ProperName(names[i])
  }

  lemma AppendAssociates<T>(a: seq<T>, b: seq<T>, c: seq<T>)
    ensures a + (b + c) == a + b + c
  {
  }

  lemma {:induction false} KeepAppend(p: seq<string>, q: seq<string>)
    ensures Keep(p + q) == Keep(p) + Keep(q)
  {
    if p == [] {
      assert p + q == q;
    } else {
      KeepAppend(p[1..], q);
      assert (p + q)[0] == p[0] && (p + q)[1..] == p[1..] + q;
      AppendAssociates(Entry(p[0]), Keep(p[1..]), Keep(q));
    }
  }

  lemma KeepNext(parts: seq<string>, i: nat)
    requires i < |parts|
    ensures Keep(parts[..i + 1]) == Keep(parts[..i]) + Entry(parts[i])
  {
    KeepAppend(parts[..i], [parts[i]]);
    assert parts[..i + 1] == parts[..i] + [parts[i]];
    assert Keep([parts[i]]) == Entry(parts[i]) + Keep([]);
  }

  /** Go's nil slice, which only the empty value yields, is `None`. */
  method SplitCsv(value: string) returns (names: Option<seq<string>>)
    ensures value == "" ==> names == None
    ensures value != "" ==> names == Some(Names(value))
  {
    if value == "" {
      return None;
    }
    var out := KeepAll(Split(value));
    return Some(out);
  }

  method KeepAll(parts: seq<string>) returns (out: seq<string>)
    ensures out == Keep(parts)
  {
    out := [];
    for i := 0 to |parts|
      invariant out == Keep(parts[..i])
    {
      KeepNext(parts, i);
      var part := Trim(parts[i]);
      if part != "" {
        out := out + [part];
      }
    }
    assert parts[..|parts|] == parts;
  }

  lemma {:induction false} TrimLeftShape(s: string)
    ensures TrimLeft(s) == "" || !IsSpace(TrimLeft(s)[0])
    ensures exists k :: 0 <= k <= |s| && TrimLeft(s) == s[k..]
  {
    if s != "" && IsSpace(s[0]) {
      TrimLeftShape(s[1..]);
      var k :| 0 <= k <= |s| - 1 && TrimLeft(s[1..]) == s[1..][k..];
      assert s[1..][k..] == s[k + 1..];
    } else {
      assert s == s[0..];
    }
  }

  lemma {:induction false} TrimRightShape(s: string)
    ensures TrimRight(s) == "" || !IsSpace(TrimRight(s)[|TrimRight(s)| - 1])
    ensures TrimRight(s) <= s
  {
    if s != "" && IsSpace(s[|s| - 1]) {
      TrimRightShape(s[..|s| - 1]);
    }
  }

  lemma TrimIsTrimmed(s: string)
    ensures Trimmed(Trim(s))
    ensures forall c :: c in Trim(s) ==> c in s
    ensures Trimmed(s) ==> Trim(s) == s
  {
    TrimLeftShape(s);
    TrimRightShape(TrimLeft(s));
  }

  lemma {:induction false} SplitHasNoComma(s: string)
    ensures forall i :: 0 <= i < |Split(s)| ==> COMMA !in Split(s)[i]
  {
    if s != "" {
      SplitHasNoComma(s[1..]);
    }
  }

  lemma {:induction false} KeepIsProper(parts: seq<string>)
    requires forall i :: 0 <= i < |parts| ==> COMMA !in parts[i]
    ensures Proper(Keep(parts))
  {
    if parts != [] {
      TrimIsTrimmed(parts[0]);
      KeepIsProper(parts[1..]);
    }
  }

  lemma {:induction false} SplitOne(a: string)
    requires COMMA !in a
    ensures Split(a) == [a]
  {
    if a != "" {
      SplitOne(a[1..]);
      assert [a[0]] + a[1..] == a;
    }
  }

  lemma GlueFirst(c: char, p: seq<string>, q: seq<string>)
    requires p != []
    ensures [""] + (p + q) == ([""] + p) + q
    ensures [[c] + (p + q)[0]] + (p + q)[1..] == ([[c] + p[0]] + p[1..]) + q
  {
  }

  lemma {:induction false} SplitAtComma(a: string, rest: string)
    ensures Split(a + [COMMA] + rest) == Split(a) + Split(rest)
  {
    var s := a + [COMMA] + rest;
    if a == "" {
      assert s[1..] == rest;
    } else {
      SplitAtComma(a[1..], rest);
      assert s[1..] == a[1..] + [COMMA] + rest && s[0] == a[0];
      GlueFirst(s[0], Split(a[1..]), Split(rest));
    }
  }

  /** The names a list contributes: an item may be blank, padded, or hold commas itself. */
  function NamesIn(items: seq<string>): seq<string> {
    if items == [] then [] else Names(items[0]) + NamesIn(items[1..])
  }

  /** What the agent reads back of any list at all the chart may join. */
  lemma {:induction false} NamesJoin(items: seq<string>)
    ensures Names(Join(items)) == NamesIn(items)
  {
    if |items| == 1 {
      assert NamesIn(items[1..]) == [];
    } else if items != [] {
      NamesJoin(items[1..]);
      SplitAtComma(items[0], Join(items[1..]));
      KeepAppend(Split(items[0]), Split(Join(items[1..])));
    } else {
      assert Keep([""]) == Entry("") + Keep([]);
    }
  }

  lemma {:induction false} NamesInProper(names: seq<string>)
    requires Proper(names)
    ensures NamesIn(names) == names
  {
    if names != [] {
      assert ProperName(names[0]);
      SplitOne(names[0]);
      TrimIsTrimmed(names[0]);
      assert Keep([names[0]]) == Entry(names[0]) + Keep([]);
      NamesInProper(names[1..]);
    }
  }

  /** What the chart joins, the agent reads back: for every list of non-empty,
      trimmed, comma-free names. */
  lemma RoundTrip(names: seq<string>)
    requires Proper(names)
    ensures Names(Join(names)) == names
  {
    NamesJoin(names);
    NamesInProper(names);
  }

  ghost predicate Blank(s: string) {
    forall i :: 0 <= i < |s| ==> IsSpace(s[i])
  }

  lemma {:induction false} TrimLeftPad(pad: string, s: string)
    requires Blank(pad) && (s == "" || !IsSpace(s[0]))
    ensures TrimLeft(pad + s) == s
    decreases |pad|
  {
    if pad == "" {
      assert pad + s == s;
    } else {
      TrimLeftPad(pad[1..], s);
      assert (pad + s)[1..] == pad[1..] + s;
    }
  }

  lemma {:induction false} TrimRightPad(s: string, pad: string)
    requires Blank(pad) && (s == "" || !IsSpace(s[|s| - 1]))
    ensures TrimRight(s + pad) == s
    decreases |pad|
  {
    if pad == "" {
      assert s + pad == s;
    } else {
      var n := |pad| - 1;
      TrimRightPad(s, pad[..n]);
      assert (s + pad)[..|s + pad| - 1] == s + pad[..n];
    }
  }

  /** Blanks around an item do not count. */
  lemma PaddedName(left: string, name: string, right: string)
    requires Blank(left) && Blank(right) && ProperName(name)
    ensures Names(left + name + right) == [name]
  {
    var item := left + name + right;
    assert item == left + (name + right) && (name + right)[0] == name[0];
    TrimLeftPad(left, name + right);
    TrimRightPad(name, right);
    assert COMMA !in left && COMMA !in right;
    SplitOne(item);
    assert Keep([item]) == Entry(item) + Keep([]);
  }

  /** What the chart joins, padded or not, the agent reads back without the padding. */
  lemma {:induction false} PaddedRoundTrip(left: seq<string>, names: seq<string>, right: seq<string>, items: seq<string>)
    requires |left| == |names| == |right| == |items| && Proper(names)
    requires forall i :: 0 <= i < |names| ==>
      Blank(left[i]) && Blank(right[i]) && items[i] == left[i] + names[i] + right[i]
    ensures Names(Join(items)) == names
  {
    NamesJoin(items);
    PaddedNames(left, names, right, items);
  }

  lemma {:induction false} PaddedNames(left: seq<string>, names: seq<string>, right: seq<string>, items: seq<string>)
    requires |left| == |names| == |right| == |items| && Proper(names)
    requires forall i :: 0 <= i < |names| ==>
      Blank(left[i]) && Blank(right[i]) && items[i] == left[i] + names[i] + right[i]
    ensures NamesIn(items) == names
    decreases |names|
  {
    if names != [] {
      PaddedName(left[0], names[0], right[0]);
      PaddedNames(left[1..], names[1..], right[1..], items[1..]);
    }
  }

  /** Any value whatever is normalised in one pass. */
  lemma NamesProper(value: string)
    ensures Proper(Names(value))
    ensures Names(Join(Names(value))) == Names(value)
  {
    SplitHasNoComma(value);
    KeepIsProper(Split(value));
    RoundTrip(Names(value));
  }
}
