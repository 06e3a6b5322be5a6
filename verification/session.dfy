/** The dashboard session: the state of the App component and the
    transitions that change it. */
module AppSession {
  import opened Dashboards
  import opened Streams
  import opened Health
  import opened MetricStore

  class App {
    var ready: bool
    var dashboards: map<string, Dashboard>
    var selectedDashboardId: Option<string>
    var metrics: map<string, Metric>
    var subscriptions: map<string, EventSource>
    var messages: map<string, Message>

    /** Every subscription is an open stream to its own metric's origin that
        nobody has closed, and every message sits under its own origin. */
    ghost predicate Valid()
      reads this, subscriptions.Values
    {
      && (forall k :: k in subscriptions ==> subscriptions[k].url == SubscribeUrl(k))
      && (forall k :: k in subscriptions ==> !subscriptions[k].closed && subscriptions[k].closeCalls == 0)
      && KeyedByOrigin(messages)
    }

    /** The initial state: not ready, nothing listed, nothing subscribed. */
    constructor ()
      ensures Valid()
      ensures !ready && dashboards == map[] && selectedDashboardId == None
      ensures metrics == InitialMetrics() && subscriptions == map[] && messages == map[]
    {
      ready := false;
      dashboards := map[];
      selectedDashboardId := None;
      metrics := InitialMetrics();
      subscriptions := map[];
      messages := map[];
    }

    /** The message handler of a stream: stores the raw data of the event. */
    method UpdateMetric(id: string, data: string)
      requires Valid()
      modifies this`metrics
      ensures Valid()
      ensures metrics == StoreValue(old(metrics), id, data)
    {
      metrics := StoreValue(metrics, id, data);
    }

    /** The error handler of `source`, with the transport state it reports. */
    method OnError(source: EventSource, state: ReadyState)
      requires Valid()
      modifies this`messages
      ensures Valid()
      ensures messages == RecordError(old(messages), source.url, state)
    {
      HandlersKeepKeying(messages, source.url, state);
      messages := RecordError(messages, source.url, state);
    }

    /** The open handler of `source`. */
    method OnOpen(source: EventSource)
      requires Valid()
      modifies this`messages
      ensures Valid()
      ensures messages == RecordOpen(old(messages), source.url)
    {
      HandlersKeepKeying(messages, source.url, Open);
      messages := RecordOpen(messages, source.url);
    }

    /** Rebuilds the subscriptions from `required`: a metric already
        subscribed keeps its handle, any other gets a newly opened stream to
        its origin. Handles of metrics not in `required` are dropped from the
        map without being closed. */
    method SubscribeMetrics(required: seq<string>)
      requires Valid()
      modifies this`subscriptions
      ensures Valid() && Injective(subscriptions)
      ensures subscriptions.Keys == set m | m in required
      ensures forall k :: k in subscriptions && k in old(subscriptions) ==> subscriptions[k] == old(subscriptions)[k]
      ensures forall k :: k in subscriptions && k !in old(subscriptions) ==> fresh(subscriptions[k])
    {
      var current := subscriptions;
      var updated: map<string, EventSource> := map[];
      var i := 0;
      while i < |required|
        invariant 0 <= i <= |required|
        invariant updated.Keys == set j | 0 <= j < i :: required[j]
        invariant forall k :: k in updated ==> updated[k].url == SubscribeUrl(k)
        invariant forall k :: k in updated ==> !updated[k].closed && updated[k].closeCalls == 0
        invariant forall k :: k in updated && k in current ==> updated[k] == current[k]
        invariant forall k :: k in updated && k !in current ==> fresh(updated[k])
      {
        var metricId := required[i];
        if metricId in current {
          updated := updated[metricId := current[metricId]];
        } else {
          var source := new EventSource(SubscribeUrl(metricId));
          updated := updated[metricId := source];
        }
        i := i + 1;
      }
      assert (set j | 0 <= j < |required| :: required[j]) == set m | m in required by {
        forall m | m in required ensures exists j :: 0 <= j < |required| && required[j] == m {
          var j :| 0 <= j < |required| && required[j] == m;
        }
      }
      subscriptions := updated;
      OriginsMakeHandlesDistinct(subscriptions);
    }

    /** Keeps the subscriptions of metrics in `required` and closes every
        other one, each exactly once. */
    method UnsubscribeMetrics(required: seq<string>)
      requires Valid()
      modifies this`subscriptions, subscriptions.Values
      ensures Valid() && Injective(subscriptions)
      ensures subscriptions == map k | k in old(subscriptions) && k in required :: old(subscriptions)[k]
      ensures forall k :: k in old(subscriptions) && k !in required ==>
        old(subscriptions)[k].closed && old(subscriptions)[k].closeCalls == old(subscriptions[k].closeCalls) + 1
    {
      var current := subscriptions;
      OriginsMakeHandlesDistinct(current);
      var pending := current.Keys;
      var kept: map<string, EventSource> := map[];
      while pending != {}
        invariant pending <= current.Keys
        invariant kept == map k | k in current && k !in pending && k in required :: current[k]
        invariant forall k :: k in current && k !in pending && k !in required ==>
          current[k].closed && current[k].closeCalls == 1
        invariant forall k :: k in current && (k in pending || k in required) ==>
          !current[k].closed && current[k].closeCalls == 0
        decreases pending
      {
        var metricId :| metricId in pending;
        if metricId in required {
          kept := kept[metricId := current[metricId]];
        } else {
          current[metricId].Close();
        }
        pending := pending - {metricId};
      }
      subscriptions := kept;
      OriginsMakeHandlesDistinct(subscriptions);
    }

    /** The first load: lists the dashboards, attaches the first one's
        definition, selects it, subscribes to its metrics and becomes ready. */
    method Prepare(listing: Listing, definition: Definition)
      requires Valid() && WellFormed(listing)
      modifies this`dashboards, this`selectedDashboardId, this`subscriptions, this`ready
      ensures Valid() && Injective(subscriptions)
      ensures ready
      ensures selectedDashboardId == FirstKey(listing)
      ensures dashboards == AttachDefinition(FromListing(listing), PropertyKey(FirstKey(listing)), definition)
      ensures subscriptions.Keys == set m | m in MetricsFromWidgets(definition.widgets)
      ensures forall k :: k in subscriptions && k in old(subscriptions) ==> subscriptions[k] == old(subscriptions)[k]
      ensures forall k :: k in subscriptions && k !in old(subscriptions) ==> fresh(subscriptions[k])
    {
      var selected := FirstKey(listing);
      dashboards := AttachDefinition(FromListing(listing), PropertyKey(selected), definition);
      selectedDashboardId := selected;
      var required := MetricsFromWidgets(definition.widgets);
      SubscribeMetrics(required);
      ready := true;
    }

    /** A dashboard switch: attaches the fetched definition, selects the
        dashboard and reconciles the subscriptions with its metrics. Metrics
        of both dashboards keep their handle, exactly the dropped ones are
        closed (once each), exactly the added ones get new handles, and
        readiness is left as it was. */
    method SelectDashboard(dashboardId: string, definition: Definition)
      requires Valid()
      modifies this`dashboards, this`selectedDashboardId, this`subscriptions, subscriptions.Values
      ensures Valid() && Injective(subscriptions)
      ensures ready == old(ready)
      ensures selectedDashboardId == Some(dashboardId)
      ensures dashboards == AttachDefinition(old(dashboards), dashboardId, definition)
      ensures subscriptions.Keys == set m | m in MetricsFromWidgets(definition.widgets)
      ensures forall k :: k in subscriptions && k in old(subscriptions) ==> subscriptions[k] == old(subscriptions)[k]
      ensures forall k :: k in subscriptions && k !in old(subscriptions) ==> fresh(subscriptions[k])
      ensures forall k :: k in old(subscriptions) && k !in subscriptions ==>
        old(subscriptions)[k].closed && old(subscriptions)[k].closeCalls == old(subscriptions[k].closeCalls) + 1
    {
      dashboards := AttachDefinition(dashboards, dashboardId, definition);
      selectedDashboardId := Some(dashboardId);
      var required := MetricsFromWidgets(definition.widgets);
      UnsubscribeMetrics(required);
      SubscribeMetrics(required);
    }
  }
}
