/** The namespace guard: allowlist minus denylist, and the configuration it is
    built from. */
module Guard {
  import opened Wrappers
  import opened Text
  import Csv

  const KUBE_SYSTEM := "kube-system"
  const KUBE_PUBLIC := "kube-public"
  const KUBE_NODE_LEASE := "kube-node-lease"
  const SYSTEM_NAMESPACES: seq<string> := [KUBE_SYSTEM, KUBE_PUBLIC, KUBE_NODE_LEASE]
  const DEFAULT_DENYLIST := KUBE_SYSTEM + [Csv.COMMA] + (KUBE_PUBLIC + [Csv.COMMA] + KUBE_NODE_LEASE)

  datatype Refusal = Denied | NotAllowed

  datatype NamespaceGuard = NamespaceGuard(allowlist: set<string>, denylist: set<string>) {
    function Check(ns: string): Option<Refusal> {
      if ns == "" then None
      else if ns in denylist then Some(Denied)
      else if allowlist == {} then None
      else if ns !in allowlist then Some(NotAllowed)
      else None
    }

    predicate Passes(ns: string) {
      Check(ns) == None
    }

    ghost predicate WellFormed() {
      "" !in allowlist && "" !in denylist
    }

    /** What a fan-out over "all" namespaces visits, in order. */
    ghost function Visited(): seq<string> {
      Ascending(allowlist - denylist)
    }
  }

  ghost function NonEmpty(names: seq<string>): set<string> {
    set n | n in names && n != ""
  }

  method Collect(names: seq<string>) returns (s: set<string>)
    ensures s == NonEmpty(names)
  {
    s := {};
    for i := 0 to |names|
      invariant s == NonEmpty(names[..i])
    {
      if names[i] != "" {
        s := s + {names[i]};
      }
      assert names[..i + 1] == names[..i] + [names[i]];
    }
    assert names[..|names|] == names;
  }

  method NewNamespaceGuard(allowed: Option<seq<string>>, denied: Option<seq<string>>)
    returns (g: NamespaceGuard)
    ensures g.WellFormed()
    ensures g.allowlist == if allowed == None then {} else NonEmpty(allowed.value)
    ensures g.denylist == NonEmpty(if denied == None then SYSTEM_NAMESPACES else denied.value)
  {
    var allow := [];
    if allowed != None {
      allow := allowed.value;
    }
    var deny := SYSTEM_NAMESPACES;
    if denied != None {
      deny := denied.value;
    }
    var a := Collect(allow);
    var d := Collect(deny);
    g := NamespaceGuard(a, d);
  }

  /** A map range visits the allowlist in an unknown order; sorting hides it. */
  method AllowedNamespaces(g: NamespaceGuard) returns (out: seq<string>)
    requires g.WellFormed()
    ensures out == g.Visited()
    ensures StrictlyAscending(out)
    ensures forall ns :: ns in out <==> ns in g.allowlist && g.Passes(ns)
  {
    var todo := g.allowlist;
    var found: seq<string> := [];
    while todo != {}
      invariant todo <= g.allowlist
      invariant forall ns :: ns in found <==> ns in g.allowlist - todo && g.Passes(ns)
      invariant forall i, j :: 0 <= i < j < |found| ==> found[i] != found[j]
      decreases todo
    {
      var ns :| ns in todo;
      todo := todo - {ns};
      if g.Passes(ns) {
        found := found + [ns];
      }
    }
    var slots := new string[|found|](i requires 0 <= i < |found| => found[i]);
    assert slots[..] == found;
    LessIsStrictWeakOrder();
    Sort(slots, Less);
    out := slots[..];
    PermutationFacts(found, out);
    OrderedDistinct(out);
    assert forall ns :: ns in out <==> ns in g.allowlist - g.denylist;
    AscendingUnique(out, g.Visited());
  }

  ghost predicate Distinct(s: seq<string>) {
    forall i, j :: 0 <= i < j < |s| ==> s[i] != s[j]
  }

  lemma {:induction false} DistinctCounts(s: seq<string>)
    ensures Distinct(s) <==> forall x :: multiset(s)[x] <= 1
  {
    if s != [] {
      var n := |s| - 1;
      var init := s[..n];
      assert s == init + [s[n]];
      DistinctCounts(init);
      assert multiset(s) == multiset(init) + multiset{s[n]};
      if Distinct(s) {
        assert Distinct(init) && s[n] !in init;
        assert multiset(init)[s[n]] == 0;
      } else if Distinct(init) {
        assert s[n] in init;
        assert s[n] in multiset(init);
        assert multiset(s)[s[n]] >= 2;
      } else {
        var x :| multiset(init)[x] > 1;
        assert multiset(s)[x] > 1;
      }
    }
  }

  lemma PermutationFacts(a: seq<string>, b: seq<string>)
    requires multiset(a) == multiset(b)
    ensures forall x :: x in a <==> x in b
    ensures Distinct(a) ==> Distinct(b)
  {
    forall x ensures x in a <==> x in b {
      assert x in a <==> x in multiset(a);
      assert x in b <==> x in multiset(b);
    }
    DistinctCounts(a);
    DistinctCounts(b);
  }

  lemma OrderedDistinct(s: seq<string>)
    requires Ordered(s, Less) && Distinct(s)
    ensures StrictlyAscending(s)
  {
    forall i, j | 0 <= i < j < |s| ensures Less(s[i], s[j]) {
      LessTotal(s[i], s[j]);
    }
  }

  /** The inventory and the check tell the same story exactly when an allowlist is
      configured: an empty allowlist checks everything through but lists nothing. */
  lemma InventoryAgreesWithCheck(g: NamespaceGuard)
    requires g.WellFormed()
    ensures (forall ns :: ns != "" ==> (ns in g.Visited() <==> g.Passes(ns))) <==> g.allowlist != {}
  {
    if g.allowlist == {} {
      var ns := FreshName(g.denylist);
      assert ns !in g.Visited() && g.Passes(ns);
    }
  }

  /** `splitCSV(getenv(key, default))` never sees the empty string. */
  function DenyNames(value: string): seq<string> {
    Csv.Names(if value == "" then DEFAULT_DENYLIST else value)
  }

  /** The guard an agent builds from the two environment values. */
  ghost function Configured(allowValue: string, denyValue: string): NamespaceGuard {
    NamespaceGuard(NonEmpty(Csv.Names(allowValue)), NonEmpty(DenyNames(denyValue)))
  }

  lemma {:induction false} JoinEmpty(items: seq<string>)
    ensures Csv.Join(items) == "" <==> items == [] || items == [""]
  {
  }

  lemma JoinThree(a: string, b: string, c: string)
    ensures Csv.Join([a, b, c]) == a + [Csv.COMMA] + (b + [Csv.COMMA] + c)
  {
    assert [b, c][1..] == [c] && Csv.Join([b, c]) == b + [Csv.COMMA] + c;
    assert [a, b, c][1..] == [b, c];
  }

  lemma SystemNamesProper()
    ensures Csv.ProperName(KUBE_SYSTEM) && Csv.ProperName(KUBE_PUBLIC) && Csv.ProperName(KUBE_NODE_LEASE)
  {
    assert KUBE_SYSTEM[0] == 'k' && KUBE_SYSTEM[10] == 'm';
    assert KUBE_PUBLIC[0] == 'k' && KUBE_PUBLIC[10] == 'c';
    assert KUBE_NODE_LEASE[0] == 'k' && KUBE_NODE_LEASE[14] == 'e';
  }

  lemma DefaultDenylist()
    ensures Csv.Proper(SYSTEM_NAMESPACES)
    ensures Csv.Names(DEFAULT_DENYLIST) == SYSTEM_NAMESPACES
  {
    SystemNamesProper();
    JoinThree(KUBE_SYSTEM, KUBE_PUBLIC, KUBE_NODE_LEASE);
    Csv.RoundTrip(SYSTEM_NAMESPACES);
  }

  lemma NamesAreProper(value: string)
    ensures NonEmpty(Csv.Names(value)) == set n | n in Csv.Names(value)
  {
    Csv.NamesProper(value);
    forall n | n in Csv.Names(value) ensures n != "" {
      assert Csv.ProperName(n);
    }
  }

  /** The denylist a value stands for, without the detour through the default text. */
  function NamesDenied(value: string): seq<string> {
    if value == "" then SYSTEM_NAMESPACES else Csv.Names(value)
  }

  lemma DeniedNames(value: string)
    ensures NonEmpty(DenyNames(value)) == set n | n in NamesDenied(value)
  {
    NamesAreProper(if value == "" then DEFAULT_DENYLIST else value);
    DefaultDenylist();
  }

  /** From the chart's two lists, whatever they hold, to the fan-out: exactly the names in
      the one that are not in the other, where a denylist that joins to nothing means the
      three system namespaces. A blank item such as " " denies nothing, and is enough to
      lift that default. */
  lemma ConfiguredGuard(allow: seq<string>, deny: seq<string>)
    ensures var g := Configured(Csv.Join(allow), Csv.Join(deny));
      && g.WellFormed()
      && forall ns :: ns in g.Visited() <==>
           ns in Csv.NamesIn(allow) && ns !in if deny == [] || deny == [""] then SYSTEM_NAMESPACES else Csv.NamesIn(deny)
  {
    Csv.NamesJoin(allow);
    Csv.NamesJoin(deny);
    JoinEmpty(deny);
    NamesAreProper(Csv.Join(allow));
    DeniedNames(Csv.Join(deny));
  }

  /** The README says system namespaces are always blocked. They are, under every
      allowlist, exactly when the denylist value is empty or names all three: any other
      value replaces the default, even one that holds no name. */
  lemma SystemNamespacesBlocked(denyValue: string)
    ensures (forall allowValue: string, ns: string | ns in SYSTEM_NAMESPACES :: !Configured(allowValue, denyValue).Passes(ns))
      <==> denyValue == "" || forall ns :: ns in SYSTEM_NAMESPACES ==> ns in Csv.Names(denyValue)
  {
    DeniedNames(denyValue);
    if denyValue != "" {
      forall ns | ns in SYSTEM_NAMESPACES && ns !in Csv.Names(denyValue)
        ensures Configured(ns, denyValue).Passes(ns)
      {
        AllowsItself(ns);
      }
    }
  }

  lemma AllowsItself(ns: string)
    requires ns in SYSTEM_NAMESPACES
    ensures NonEmpty(Csv.Names(ns)) == {ns}
  {
    SystemNamesProper();
    assert Csv.Join([ns]) == ns;
    Csv.RoundTrip([ns]);
  }

  /** A denylist of one blank is accepted by the chart, and lets every system namespace
      an allowlist names through. */
  lemma BlankDenylistBlocksNothing(ns: string)
    requires ns in SYSTEM_NAMESPACES
    ensures Configured(ns, Csv.Join([" "])).Passes(ns)
  {
    AllowsItself(ns);
    DeniedNames(" ");
    Csv.SplitOne(" ");
    assert Csv.TrimLeft(" ") == Csv.TrimLeft("");
    assert Csv.Keep([" "]) == Csv.Entry(" ") + Csv.Keep([]);
  }
}
