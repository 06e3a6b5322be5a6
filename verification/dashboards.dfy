/** Dashboards, their widgets, and the metric set a dashboard requires. */
module Dashboards {

  datatype Option<+T> = None | Some(value: T)

  /** A widget shows exactly one metric, referenced by its identifier. */
  datatype Widget = Widget(id: string, title: string, subtitle: string, metric: string)

  /** A dashboard definition; `widgets` is the order in which the widget
      object's values are enumerated. The grid layouts are presentation only. */
  datatype Definition = Definition(widgets: seq<Widget>)

  /** One entry of the dashboard listing, before its definition is loaded. */
  datatype Summary = Summary(id: string, name: string)

  /** A dashboard entry of the session state: the listing fields it was spread
      from (absent when the entry was created by a selection alone) and its
      definition once loaded. */
  datatype Dashboard = Dashboard(summary: Option<Summary>, definition: Option<Definition>)

  /** The listing object returned by the dashboards endpoint: its keys in
      enumeration order and the entry under each key. */
  datatype Listing = Listing(keys: seq<string>, entries: map<string, Summary>)

  /** The string a JavaScript computed property key `[undefined]` becomes. */
  const UndefinedKey := "undefined"

  ghost predicate NoDuplicates(s: seq<string>)
  {
    forall i, j :: 0 <= i < j < |s| ==> s[i] != s[j]
  }

  /** A listing is what a JSON object is: distinct keys, each with an entry. */
  ghost predicate WellFormed(l: Listing)
  {
    NoDuplicates(l.keys) && (forall k :: k in l.entries <==> k in l.keys)
  }

  /** The first key of the listing, if any. */
  function FirstKey(l: Listing): (r: Option<string>)
    requires WellFormed(l)
    ensures r.None? <==> l.entries == map[]
    ensures r.Some? ==> r.value in l.entries && r.value == l.keys[0]
  {
    if |l.keys| == 0 then None
    else
      assert l.keys[0] in l.entries;
      Some(l.keys[0])
  }

  /** The property key a possibly undefined dashboard id turns into. */
  function PropertyKey(id: Option<string>): (key: string)
    ensures id.Some? ==> key == id.value
    ensures id.None? ==> key == "undefined"
  {
    if id.Some? then id.value else UndefinedKey
  }

  /** The listing as session dashboards: every entry, none with a definition. */
  function FromListing(l: Listing): (r: map<string, Dashboard>)
    ensures r.Keys == l.entries.Keys
    ensures forall k :: k in r ==> r[k].summary == Some(l.entries[k]) && r[k].definition.None?
  {
    map k | k in l.entries :: Dashboard(Some(l.entries[k]), None)
  }

  /** Stores a loaded definition under `id`, keeping the entry's listing fields
      when the entry exists and every other entry as it was. */
  function AttachDefinition(ds: map<string, Dashboard>, id: string, def: Definition): (r: map<string, Dashboard>)
    ensures r.Keys == ds.Keys + {id}
    ensures r[id].definition == Some(def)
    ensures id in ds ==> r[id].summary == ds[id].summary
    ensures id !in ds ==> r[id].summary.None?
    ensures forall k :: k in ds && k != id ==> r[k] == ds[k]
  {
    var summary := if id in ds then ds[id].summary else None;
    ds[id := Dashboard(summary, Some(def))]
  }

  /** The elements of `s` in order of first occurrence, each once: the
      spread of a set built from `s`. */
  function Distinct(s: seq<string>): (r: seq<string>)
    ensures NoDuplicates(r)
    ensures forall x :: x in r <==> x in s
    ensures |r| <= |s|
  {
    if s == [] then []
    else
      var prefix := Distinct(s[..|s| - 1]);
      var last := s[|s| - 1];
      if last in prefix then prefix else prefix + [last]
  }

  /** A sequence that already has no duplicates is left as it is. */
  lemma {:induction false} DistinctOfDistinct(s: seq<string>)
    requires NoDuplicates(s)
    ensures Distinct(s) == s
  {
    if s != [] {
      var init := s[..|s| - 1];
      assert NoDuplicates(init);
      DistinctOfDistinct(init);
      assert s[|s| - 1] !in init;
      assert init + [s[|s| - 1]] == s;
    }
  }

  /** Insertion order is stable: appending elements never reorders or drops
      the ones already collected. */
  lemma {:induction false} DistinctPrefix(a: seq<string>, b: seq<string>)
    ensures Distinct(a) <= Distinct(a + b)
  {
    if b == [] {
      assert a + b == a;
    } else {
      var shorter := b[..|b| - 1];
      DistinctPrefix(a, shorter);
      assert (a + b)[..|a + b| - 1] == a + shorter;
    }
  }

  /** Collapsing repeats twice is the same as collapsing them once. */
  lemma DistinctIdempotent(s: seq<string>)
    ensures Distinct(Distinct(s)) == Distinct(s)
  {
  }

  /** The metric of every widget, in widget order, repeats included. */
  function WidgetMetrics(widgets: seq<Widget>): (r: seq<string>)
    ensures |r| == |widgets|
    ensures forall i :: 0 <= i < |r| ==> r[i] == widgets[i].metric
  {
    seq(|widgets|, i requires 0 <= i < |widgets| => widgets[i].metric)
  }

  /** The metrics a dashboard requires: each metric some widget displays,
      exactly once, in order of first use. */
  function MetricsFromWidgets(widgets: seq<Widget>): (r: seq<string>)
    ensures NoDuplicates(r)
    ensures forall m :: m in r <==> exists w :: w in widgets && w.metric == m
  {
    var all := WidgetMetrics(widgets);
    assert forall w :: w in widgets ==> w.metric in all by {
      forall w | w in widgets ensures w.metric in all {
        var i :| 0 <= i < |widgets| && widgets[i] == w;
        assert all[i] == w.metric;
      }
    }
    Distinct(all)
  }

  /** Two widgets on the same metric need one subscription, not two. */
  lemma SharedMetricSubscribedOnce()
    ensures MetricsFromWidgets([Widget("w1", "", "", "live-calls"), Widget("w2", "", "", "live-calls")]) == ["live-calls"]
  {
  }
}
