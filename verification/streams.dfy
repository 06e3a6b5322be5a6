/** Live metric streams: the server-sent event source opened per metric. */
module Streams {

  const ApiUrl := "https://localhost:8443"
  const SubscribePath := "/subscribe/"

  /** The origin a metric's stream connects to: the subscribe prefix
      followed by the metric id, taken as the URL the handle reports (the
      metric ids modelled are those URL parsing leaves unchanged). */
  function SubscribeUrl(metricId: string): (url: string)
    ensures |url| == |ApiUrl + SubscribePath| + |metricId|
    ensures url[..|ApiUrl + SubscribePath|] == ApiUrl + SubscribePath
    ensures url[|ApiUrl + SubscribePath|..] == metricId
  {
    ApiUrl + SubscribePath + metricId
  }

  /** Distinct metrics connect to distinct origins, so, for metric ids that
      URL parsing leaves unchanged, an origin identifies its metric and the
      health message keyed by it. */
  lemma SubscribeUrlInjective(a: string, b: string)
    requires SubscribeUrl(a) == SubscribeUrl(b)
    ensures a == b
  {
  }

  /** The transport's connection state, as the error handler observes it. */
  datatype ReadyState = Connecting | Open | Closed

  /** One event source. Its identity is the object itself; `closed` records
      that `close()` was called and `closeCalls` counts those calls. */
  class EventSource {
    const url: string
    var closed: bool
    ghost var closeCalls: nat

    /** Opening a stream: a new connection to `url`, not yet closed. */
    constructor (url: string)
      ensures this.url == url && !closed && closeCalls == 0
    {
      this.url := url;
      closed := false;
      closeCalls := 0;
    }

    /** Releases the connection; no guard against a second call. */
    method Close()
      modifies this
      ensures closed && closeCalls == old(closeCalls) + 1
    {
      closed := true;
      closeCalls := closeCalls + 1;
    }
  }

  /** No two keys share one handle. */
  ghost predicate Injective(subs: map<string, EventSource>)
  {
    forall a, b :: a in subs && b in subs && a != b ==> subs[a] != subs[b]
  }

  /** When every handle connects to the origin of its own key, no two keys
      can share a handle. */
  lemma OriginsMakeHandlesDistinct(subs: map<string, EventSource>)
    requires forall k :: k in subs ==> subs[k].url == SubscribeUrl(k)
    ensures Injective(subs)
  {
    forall a, b | a in subs && b in subs && subs[a] == subs[b]
      ensures a == b
    {
      SubscribeUrlInjective(a, b);
    }
  }
}
