/** The latest value of each metric, as the widgets read it. */
module MetricStore {

  /** A metric value: the number it starts at, or the raw data of the last
      stream message (stored unparsed). */
  datatype Value = Number(n: int) | Data(raw: string)

  datatype Metric = Metric(value: Value)

  /** The store the session starts with. */
  function InitialMetrics(): (r: map<string, Metric>)
    ensures r.Keys == {"live-calls", "live-users"}
    ensures forall k :: k in r ==> r[k].value == Number(0)
  {
    map["live-calls" := Metric(Number(0)), "live-users" := Metric(Number(0))]
  }

  /** A stream message for `id`: overwrites that metric's value with the raw
      data and leaves every other metric alone. */
  function StoreValue(metrics: map<string, Metric>, id: string, data: string): (r: map<string, Metric>)
    ensures r.Keys == metrics.Keys + {id}
    ensures r[id].value == Data(data)
    ensures forall k :: k in metrics && k != id ==> r[k] == metrics[k]
  {
    metrics[id := Metric(Data(data))]
  }

  /** Storing the same value twice is storing it once. */
  lemma StoreIdempotent(metrics: map<string, Metric>, id: string, data: string)
    ensures StoreValue(StoreValue(metrics, id, data), id, data) == StoreValue(metrics, id, data)
  {
  }

  /** Only the last message of a metric counts. */
  lemma LastStoreWins(metrics: map<string, Metric>, id: string, first: string, second: string)
    ensures StoreValue(StoreValue(metrics, id, first), id, second) == StoreValue(metrics, id, second)
  {
  }

  /** Messages of different metrics may arrive in either order. */
  lemma DifferentMetricsCommute(metrics: map<string, Metric>, a: string, x: string, b: string, y: string)
    requires a != b
    ensures StoreValue(StoreValue(metrics, a, x), b, y) == StoreValue(StoreValue(metrics, b, y), a, x)
  {
  }
}
