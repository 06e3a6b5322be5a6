# Live dashboards: subscription and health core

This project models the session logic of the live-dashboards App component in Dafny and proves properties about it. A dashboard is a set of widgets, and each widget shows one metric. The session keeps one server-sent event stream per metric that the selected dashboard needs. On a dashboard switch it reuses, closes and opens streams as needed. Stream errors and reconnections become health messages keyed by the stream's origin. Values pushed by a stream go into a metric store.

Modules:

- `Dashboards` (`dashboards.dfy`): widgets, definitions, the dashboard listing, and how definitions are attached. It also derives the required metric list `MetricsFromWidgets`, which models `[...new Set(...)]` as `Distinct`, keeping the order of first occurrence.
- `Streams` (`streams.dfy`): the subscribe origin `https://localhost:8443/subscribe/<metric>`, and the `EventSource` class. An `EventSource` is a handle whose identity is the object itself, with a `closed` flag and a ghost count of `close()` calls.
- `Health` (`health.dfy`): the message map as a pure reducer. `RecordError` is the error handler and `RecordOpen` is the open handler.
- `MetricStore` (`metric_store.dfy`): the initial store and the overwrite of one metric.
- `AppSession` (`session.dfy`): class `App`, which holds the component's state fields (`ready`, `dashboards`, `selectedDashboardId`, `metrics`, `subscriptions`, `messages`). Each `setState` becomes a sequential assignment. `Valid()` holds three facts:
  - every subscription connects to its own metric's origin;
  - no subscribed handle has been closed;
  - every message is stored under its own origin.
  
  From the first fact, `OriginsMakeHandlesDistinct` proves that no two metrics share a handle.

Inputs that the browser or the network supplies become method parameters:

- the listing and the definition returned by the two fetches;
- the transport state seen by the error handler;
- the raw data of a stream message.

Behaviour the code does not have, which the model does not add:

- Message payloads are stored raw. No frame is parsed or dropped.
- Unsubscribing closes the handle but leaves that origin's health message in place.
- `close()` has no idempotence guard, so the model counts every call.
- A stale definition fetch is not discarded.

## Model

| member | source | states |
|---|---|---|
| `Dashboards.MetricsFromWidgets` | src/App.js:186-191 | The required metrics have no duplicates, and a metric is in them exactly when some widget displays it |
| `Dashboards.Distinct` | src/App.js:188 | Spreading a Set keeps each element once, loses none and adds none |
| `Dashboards.DistinctOfDistinct` | src/App.js:188 | A list that has no duplicates comes back unchanged |
| `Dashboards.DistinctPrefix` | src/App.js:188 | Insertion order is stable: appending elements never reorders the earlier distinct ones |
| `Dashboards.DistinctIdempotent` | src/App.js:188 | Collapsing duplicates a second time changes nothing |
| `Dashboards.SharedMetricSubscribedOnce` | src/App.js:186-191 | Two widgets on `live-calls` need a single subscription |
| `Dashboards.WidgetMetrics` | src/App.js:187 | One metric per widget, in widget order, repeats kept: each position holds that widget's metric |
| `Dashboards.PropertyKey` | src/App.js:94 | An id used as a computed key stays itself, and an undefined id becomes the key `"undefined"` |
| `Dashboards.FirstKey` | src/App.js:89 | The selected id is the listing's first key, and there is none exactly when the listing is empty |
| `Dashboards.FromListing` | src/App.js:92-93 | The listed dashboards become session entries under the same keys, all without a definition |
| `Dashboards.AttachDefinition` | src/App.js:197-206 | Only the selected entry changes: it gets the definition and keeps its listing fields, and the key is added when it was absent |
| `Streams.SubscribeUrl` | src/App.js:122 | A stream's origin is the subscribe prefix `https://localhost:8443/subscribe/` followed by exactly the metric id |
| `Streams.SubscribeUrlInjective` | src/App.js:122 | Distinct metrics have distinct stream origins |
| `Streams.OriginsMakeHandlesDistinct` | src/App.js:114-152 | When every handle connects to its own key's origin, no two keys share a handle |
| `Streams.EventSource.constructor` | src/App.js:122 | A new stream targets the given origin and is not closed |
| `Streams.EventSource.Close` | src/App.js:167 | Closing marks the handle closed and counts one more call |
| `Health.RecordError` | src/App.js:126-141 | Exactly the origin's entry is upserted, with danger and the refresh text if and only if the transport is closed, and otherwise warning and the unstable text; all other entries are unchanged |
| `Health.RecordOpen` | src/App.js:142-148 | The origin's entry is removed (nothing happens if it is absent), and all other entries are unchanged |
| `Health.HandlersKeepKeying` | src/App.js:130-146 | Both handlers keep every message under its own origin, so there is at most one message per origin |
| `Health.OpenClearsError` | src/App.js:126-148 | An open after an error leaves no stale message for that origin |
| `Health.ErrorThenOpenIsNoOp` | src/App.js:126-148 | For a healthy origin, error then open leaves the messages as they were |
| `Health.LatestErrorWins` | src/App.js:130-139 | A later error overwrites the earlier message of the same origin |
| `Health.OpenIdempotent` | src/App.js:146 | Opening twice is the same as opening once |
| `Health.DifferentOriginsCommute` | src/App.js:126-148 | An open and an error of different origins give the same messages in either order |
| `Health.ErrorsOfDifferentOriginsCommute` | src/App.js:126-141 | Two errors of different origins give the same messages in either order |
| `Health.OpensOfDifferentOriginsCommute` | src/App.js:142-148 | Two opens of different origins give the same messages in either order |
| `MetricStore.InitialMetrics` | src/App.js:70-77 | The store starts with `live-calls` and `live-users` at zero |
| `MetricStore.StoreValue` | src/App.js:176-184 | The metric gets the raw data, and every other metric is unchanged |
| `MetricStore.StoreIdempotent` | src/App.js:176-184 | Storing the same value twice is storing it once |
| `MetricStore.LastStoreWins` | src/App.js:176-184 | Only the last value stored for a metric remains |
| `MetricStore.DifferentMetricsCommute` | src/App.js:176-184 | Updates of different metrics commute |
| `AppSession.App.constructor` | src/App.js:64-81 | The session starts not ready, with no dashboards, no subscriptions, no messages and the initial metrics |
| `AppSession.App.UpdateMetric` | src/App.js:176-184 | The message handler stores the event data under its metric, and nothing else in the state changes |
| `AppSession.App.OnError` | src/App.js:126-141 | The error handler applies `RecordError` for the source's origin and keeps the session valid |
| `AppSession.App.OnOpen` | src/App.js:142-148 | The open handler applies `RecordOpen` for the source's origin and keeps the session valid |
| `AppSession.App.SubscribeMetrics` | src/App.js:112-155 | The subscription keys become exactly the required metrics. An already-subscribed metric keeps its handle. A new metric gets a fresh handle to its own origin, distinct from every existing one. No key shares a handle |
| `AppSession.App.UnsubscribeMetrics` | src/App.js:157-174 | The subscriptions become the old ones restricted to the required metrics, with the same handles. Every dropped handle is closed exactly once, and no kept handle is closed |
| `AppSession.App.Prepare` | src/App.js:87-110 | The listing is stored with the first dashboard's definition attached, that dashboard is selected, its metrics are subscribed, and `ready` becomes true |
| `AppSession.App.SelectDashboard` | src/App.js:193-213 | The definition is attached and the dashboard is selected. Metrics in old ∩ new keep identical handles. Exactly old − new are closed, once each. Exactly new − old get fresh handles. No key shares a handle, and `ready` is unchanged |

## Left out

- Rendering: the dashboard grid, the widget cards, the dropdown and the message banner are presentation only. The grid layouts of a definition are not modelled.
- Network: the dashboards and definition fetches are parameters of `Prepare` and `SelectDashboard`. A network or JSON parse failure rejects before any state is set, so it leaves the session unchanged and has no member.
- Prepare, SelectDashboard: a definition fetch can resolve to a body without `widgets` (an HTTP error answered with a JSON body; on an empty listing the first load asks for the dashboard `undefined`). The code then stores that body as the definition and selects the dashboard, and the widget enumeration throws before subscriptions are reconciled and, on the first load, before `ready` is set. `Definition` always has widgets, so the model does not capture this path or the mismatch between selection and subscriptions it leaves behind.
- The EventSource transport: connecting, reconnecting and the browser's own `readyState` changes are not modelled. The state the error handler reads is a parameter of `OnError`, and open and message events are calls of `OnOpen` and `UpdateMetric`.
- Concurrency: overlapping `selectDashboard` calls interleave at their `await` points, and the code has no guard against that. The model is one sequential session.
- React batching: `setState` is modelled as immediate assignment. If batching let `subscribeMetrics` read the subscriptions from before `unsubscribeMetrics`, the result would be the same, because it only reuses keys that are in the new list. That variant has no member of its own.
- Logging: `console.log` and `console.error` are side effects only.
- Widgets: the widget object is modelled as the sequence of its values in enumeration order.
- Metric ids that are names of `Object.prototype` properties, such as `constructor`: these would make the plain-object lookups in `subscribeMetrics` and `unsubscribeMetrics` behave differently, and are not modelled.
- Streams.EventSource.constructor: the handle keeps its url exactly as built, whereas a browser reports the parsed URL (spaces and other characters percent-encoded, `.` and `..` segments resolved), and health messages are keyed by that reported URL. The model is faithful only for metric ids that URL parsing leaves unchanged; for example, no space, `"`, `<`, `>`, `` ` ``, `{`, `}`, tab, newline or other control character, `%`, `?`, `#`, `\`, non-ASCII character or dot segment. For other ids two metrics can share one message key (`a b` and `a%20b`; the empty id and `.`), so that `Streams.SubscribeUrlInjective` does not carry over to the reported URL.
- AppSession.App.SubscribeMetrics: the contract does not state that a list with a repeated, not-yet-subscribed metric opens a second stream and drops the first one unclosed. The only callers pass lists with no duplicates.
