/** The twenty most telling events of a pod: `fetchPodEvents` and `sortAndLimitEvents`. */
module Events {
  import opened Wrappers
  import opened Text
  import opened Seqs

  const EVENT_LIMIT := 20

  /** A Kubernetes timestamp: unset, or its text in the layout the agent prints. */
  datatype Stamp = Unset | At(text: string)

  datatype RawEvent = RawEvent(
    namespace: string, name: string, kind: string, involved: string,
    severity: string, reason: string, message: string, count: int,
    lastTimestamp: Stamp, eventTime: Stamp)

  datatype Event = Event(
    namespace: string, name: string, severity: string, reason: string,
    message: string, subject: string, count: int, lastSeen: string)

  function Printed(s: Stamp): string {
    if s.Unset? then "0001-01-01T00:00:00Z" else s.text
  }

  function ToEventItem(e: RawEvent): Event {
    Event(e.namespace, e.name, e.severity, e.reason, e.message, e.kind + "/" + e.involved, e.count,
          Printed(if e.lastTimestamp.Unset? then e.eventTime else e.lastTimestamp))
  }

  /** All the order looks at. */
  datatype Key = Key(warning: bool, lastSeen: string)

  function KeyOf(e: Event): Key {
    Key(e.severity == "Warning", e.lastSeen)
  }

  predicate KeyBefore(a: Key, b: Key) {
    if a.warning != b.warning then a.warning else Less(b.lastSeen, a.lastSeen)
  }

  /** Warnings first, then newest first. */
  predicate Before(a: Event, b: Event) {
    KeyBefore(KeyOf(a), KeyOf(b))
  }

  lemma KeyOrder(a: Key, b: Key, c: Key)
    ensures !KeyBefore(a, a)
    ensures KeyBefore(a, b) || a == b || KeyBefore(b, a)
    ensures KeyBefore(a, b) && KeyBefore(b, c) ==> KeyBefore(a, c)
  {
    LessIrreflexive(a.lastSeen);
    LessTotal(a.lastSeen, b.lastSeen);
    if Less(b.lastSeen, a.lastSeen) && Less(c.lastSeen, b.lastSeen) {
      LessTransitive(c.lastSeen, b.lastSeen, a.lastSeen);
    }
  }

  lemma BeforeIsStrictWeakOrder()
    ensures StrictWeakOrder(Before)
  {
    forall x: Event, y: Event | Before(x, y) ensures !Before(y, x) {
      KeyOrder(KeyOf(x), KeyOf(y), KeyOf(x));
    }
    forall x: Event, y: Event, z: Event | !Before(y, x) && !Before(z, y) ensures !Before(z, x) {
      var a, b, c := KeyOf(x), KeyOf(y), KeyOf(z);
      KeyOrder(a, b, c);
      KeyOrder(b, c, a);
      KeyOrder(c, a, b);
    }
  }

  /** `kept` is a right answer for `input`: in order, drawn from the input, as many as
      the limit lets through, and nothing left out outranks anything kept. */
  ghost predicate IsTop(input: multiset<Event>, kept: seq<Event>, limit: nat) {
    && Ordered(kept, Before)
    && multiset(kept) <= input
    && |kept| == (if |input| <= limit then |input| else limit)
    && forall x, y :: x in kept && y in input - multiset(kept) ==> !Before(y, x)
  }

  method SortAndLimitEvents(events: array<Event>, limit: nat) returns (kept: seq<Event>)
    modifies events
    ensures multiset(events[..]) == multiset(old(events[..])) && Ordered(events[..], Before)
    ensures kept <= events[..]
    ensures IsTop(multiset(old(events[..])), kept, limit)
  {
    BeforeIsStrictWeakOrder();
    Sort(events, Before);
    if events.Length > limit {
      kept := events[..limit];
    } else {
      kept := events[..];
    }
    PrefixIsTop(events[..], |kept|, limit);
    assert kept == events[..][..|kept|];
  }

  lemma PrefixIsTop(sorted: seq<Event>, n: nat, limit: nat)
    requires Ordered(sorted, Before)
    requires n == if |sorted| <= limit then |sorted| else limit
    ensures IsTop(multiset(sorted), sorted[..n], limit)
  {
    var kept, dropped := sorted[..n], sorted[n..];
    SplitContents(sorted, n);
    forall x, y | x in kept && y in multiset(dropped) ensures !Before(y, x) {
      var i :| 0 <= i < n && sorted[i] == x;
      assert y in dropped;
      var j :| n <= j < |sorted| && sorted[j] == y;
    }
  }

  function Items(raw: seq<RawEvent>): seq<Event> {
    Map(ToEventItem, raw)
  }

  predicate ConcernsPod(e: RawEvent, pod: string) {
    e.kind == "Pod" && e.involved == pod
  }

  function Matching(raw: seq<RawEvent>, pod: string): seq<RawEvent> {
    if raw == [] then []
    else
      var last := raw[|raw| - 1];
      Matching(raw[..|raw| - 1], pod) + if ConcernsPod(last, pod) then [last] else []
  }

  /** The list calls answer `selected` (with the field selector) and `all` (without). */
  method FetchPodEvents(selected: Result<seq<RawEvent>, string>, all: Result<seq<RawEvent>, string>, pod: string)
    returns (kept: seq<Event>)
    ensures selected.Ok? ==> IsTop(multiset(Items(selected.value)), kept, 20)
    ensures selected.Err? && all.Ok? ==> IsTop(multiset(Items(Matching(all.value, pod))), kept, 20)
    ensures selected.Err? && all.Err? ==> kept == []
  {
    var out: seq<Event> := [];
    if selected.Ok? {
      var items := selected.value;
      for i := 0 to |items|
        invariant out == Items(items[..i])
      {
        assert items[..i + 1][..i] == items[..i];
        out := out + [ToEventItem(items[i])];
      }
      assert items[..|items|] == items;
    } else if all.Err? {
      return [];
    } else {
      var items := all.value;
      for i := 0 to |items|
        invariant out == Items(Matching(items[..i], pod))
      {
        assert items[..i + 1][..i] == items[..i];
        if ConcernsPod(items[i], pod) {
          out := out + [ToEventItem(items[i])];
        }
      }
      assert items[..|items|] == items;
    }
    var slots := new Event[|out|](i requires 0 <= i < |out| => out[i]);
    assert slots[..] == out;
    kept := SortAndLimitEvents(slots, EVENT_LIMIT);
  }

  // The ranks shown do not depend on which path or which sorting algorithm was used.

  function Keys(s: seq<Event>): seq<Key> {
    Map(KeyOf, s)
  }

  lemma KeysOrdered(s: seq<Event>)
    requires Ordered(s, Before)
    ensures Ordered(Keys(s), KeyBefore)
  {
    forall i, j | 0 <= i < j < |s| ensures !KeyBefore(Keys(s)[j], Keys(s)[i]) {
      assert !Before(s[j], s[i]);
    }
  }

  lemma FirstKeysAgree(a: seq<Key>, b: seq<Key>)
    requires multiset(a) == multiset(b) && a != [] && b != []
    requires Ordered(a, KeyBefore) && Ordered(b, KeyBefore)
    ensures a[0] == b[0]
  {
    assert a[0] in multiset(a) && b[0] in multiset(b);
    var i := Find(a[0], b);
    var j := Find(b[0], a);
    KeyOrder(a[0], b[0], a[0]);
  }

  lemma {:induction false} OrderedKeysUnique(a: seq<Key>, b: seq<Key>)
    requires multiset(a) == multiset(b)
    requires Ordered(a, KeyBefore) && Ordered(b, KeyBefore)
    ensures a == b
  {
    SameLength(a, b);
    if a != [] {
      FirstKeysAgree(a, b);
      SameRest(a, b);
      OrderedTail(a, KeyBefore);
      OrderedTail(b, KeyBefore);
      OrderedKeysUnique(a[1..], b[1..]);
      assert a == [a[0]] + a[1..] && b == [b[0]] + b[1..];
    }
  }

  lemma SameRest(a: seq<Key>, b: seq<Key>)
    requires multiset(a) == multiset(b) && a != [] && b != [] && a[0] == b[0]
    ensures multiset(a[1..]) == multiset(b[1..])
  {
    assert RemoveAt(a, 0) == a[1..] && RemoveAt(b, 0) == b[1..];
    RemoveAtContents(a, 0);
    RemoveAtContents(b, 0);
    Cancel(multiset(RemoveAt(a, 0)), multiset(RemoveAt(b, 0)), multiset{a[0]});
  }

  lemma {:induction false} SortedListingExists(m: multiset<Event>) returns (s: seq<Event>)
    ensures multiset(s) == m && Ordered(s, Before)
    decreases |m|
  {
    if m == multiset{} {
      s := [];
    } else {
      var first := FirstExists(m);
      var tail := SortedListingExists(m - multiset{first});
      s := [first] + tail;
      forall i, j | 0 <= i < j < |s| ensures !Before(s[j], s[i]) {
        assert s[j] == tail[j - 1] && tail[j - 1] in multiset(tail);
        if i > 0 {
          assert s[i] == tail[i - 1];
        }
      }
    }
  }

  lemma {:induction false} FirstExists(m: multiset<Event>) returns (first: Event)
    requires m != multiset{}
    ensures first in m && forall y :: y in m ==> !Before(y, first)
    decreases |m|
  {
    var x :| x in m;
    var others := m - multiset{x};
    KeyOrder(KeyOf(x), KeyOf(x), KeyOf(x));
    if others == multiset{} {
      first := x;
      assert m == multiset{x};
    } else {
      var f := FirstExists(others);
      first := if Before(x, f) then x else f;
      forall y | y in m ensures !Before(y, first) {
        BeforeIsStrictWeakOrder();
        assert y == x || y in others;
      }
    }
  }

  /** Any two right answers show the same ranks, position by position. */
  lemma TopKeysUnique(input: multiset<Event>, a: seq<Event>, b: seq<Event>, limit: nat)
    requires IsTop(input, a, limit) && IsTop(input, b, limit)
    ensures Keys(a) == Keys(b)
  {
    var x := Completed(input, a, limit);
    var y := Completed(input, b, limit);
    MapPermutes(KeyOf, x, y);
    KeysOrdered(x);
    KeysOrdered(y);
    OrderedKeysUnique(Keys(x), Keys(y));
    assert Keys(a) == Keys(x)[..|a|] && Keys(b) == Keys(y)[..|b|];
  }

  /** A right answer is the front of some full sort. */
  lemma Completed(input: multiset<Event>, kept: seq<Event>, limit: nat) returns (full: seq<Event>)
    requires IsTop(input, kept, limit)
    ensures kept <= full && multiset(full) == input && Ordered(full, Before)
  {
    var rest := SortedListingExists(input - multiset(kept));
    full := kept + rest;
    forall i, j | 0 <= i < j < |full| ensures !Before(full[j], full[i]) {
      if i < |kept| <= j {
        assert full[j] == rest[j - |kept|] && full[j] in multiset(rest);
        assert full[i] in kept;
      }
    }
  }

  /** If the server's field selector means the in-process filter, the fallback path
      shows the same ranks as the primary path. */
  lemma PathsAgree(selected: seq<RawEvent>, all: seq<RawEvent>, pod: string, viaServer: seq<Event>, viaFilter: seq<Event>)
    requires multiset(selected) == multiset(Matching(all, pod))
    requires IsTop(multiset(Items(selected)), viaServer, EVENT_LIMIT)
    requires IsTop(multiset(Items(Matching(all, pod))), viaFilter, EVENT_LIMIT)
    ensures Keys(viaServer) == Keys(viaFilter)
  {
    MapPermutes(ToEventItem, selected, Matching(all, pod));
    TopKeysUnique(multiset(Items(selected)), viaServer, viaFilter, EVENT_LIMIT);
  }

  /** What a right selection looks like: warnings before the rest, newest first among
      either; no warning dropped for something that is not one, and nothing for something
      older of its own sort. */
  lemma WarningsFirstThenNewest(input: multiset<Event>, kept: seq<Event>, limit: nat)
    requires IsTop(input, kept, limit)
    ensures forall i, j :: 0 <= i < j < |kept| && kept[j].severity == "Warning" ==> kept[i].severity == "Warning"
    ensures forall i, j :: 0 <= i < j < |kept| && (kept[i].severity == "Warning" <==> kept[j].severity == "Warning") ==>
      !Less(kept[i].lastSeen, kept[j].lastSeen)
    ensures forall x, y :: x in kept && y in input - multiset(kept) && y.severity == "Warning" ==> x.severity == "Warning"
    ensures forall x, y :: x in kept && y in input - multiset(kept) && (x.severity == "Warning" <==> y.severity == "Warning") ==>
      !Less(x.lastSeen, y.lastSeen)
  {
    forall i, j | 0 <= i < j < |kept|
      ensures kept[j].severity == "Warning" ==> kept[i].severity == "Warning"
      ensures (kept[i].severity == "Warning" <==> kept[j].severity == "Warning") ==> !Less(kept[i].lastSeen, kept[j].lastSeen)
    {
      assert !Before(kept[j], kept[i]);
    }
    forall x, y | x in kept && y in input - multiset(kept)
      ensures y.severity == "Warning" ==> x.severity == "Warning"
      ensures (x.severity == "Warning" <==> y.severity == "Warning") ==> !Less(x.lastSeen, y.lastSeen)
    {
      assert !Before(y, x);
    }
  }

  /** The fallback keeps each event of the pod as often as it was listed, and no other. */
  lemma {:induction false} MatchingExactly(raw: seq<RawEvent>, pod: string, e: RawEvent)
    ensures multiset(Matching(raw, pod))[e] == if e.kind == "Pod" && e.involved == pod then multiset(raw)[e] else 0
  {
    if raw != [] {
      MatchingExactly(raw[..|raw| - 1], pod, e);
      assert raw == raw[..|raw| - 1] + [raw[|raw| - 1]];
    }
  }

  /** An event is shown at its last timestamp; only one that has none at its event time. */
  lemma ShownAt(e: RawEvent, last: string, first: string)
    ensures e.lastTimestamp == At(last) ==> ToEventItem(e).lastSeen == last
    ensures e.lastTimestamp.Unset? && e.eventTime == At(first) ==> ToEventItem(e).lastSeen == first
    ensures ToEventItem(e).severity == e.severity && ToEventItem(e).name == e.name
  {
  }
}
