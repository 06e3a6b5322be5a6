/** Connection-health messages, one per stream origin. */
module Health {
  import opened Streams

  datatype Severity = Warning | Danger

  datatype Message = Message(id: string, severity: Severity, text: string)

  const DangerText := "The connection was unexpectedly closed. Please refresh the browser."
  const WarningText := "The connection is a bit unstable."

  /** Every message is stored under its own origin. */
  ghost predicate KeyedByOrigin(messages: map<string, Message>)
  {
    forall k :: k in messages ==> messages[k].id == k
  }

  /** The error handler: upserts the message for `url`; a transport that is
      closed is a danger, anything else a warning. */
  function RecordError(messages: map<string, Message>, url: string, state: ReadyState): (r: map<string, Message>)
    ensures r.Keys == messages.Keys + {url}
    ensures r[url].id == url
    ensures r[url].severity == Danger <==> state == Closed
    ensures r[url].severity == Warning <==> state != Closed
    ensures r[url].text == (if state == Closed then DangerText else WarningText)
    ensures forall k :: k in messages && k != url ==> r[k] == messages[k]
  {
    var closed := state == Closed;
    messages[url := Message(url, if closed then Danger else Warning, if closed then DangerText else WarningText)]
  }

  /** The open handler: drops the message for `url`, if any. */
  function RecordOpen(messages: map<string, Message>, url: string): (r: map<string, Message>)
    ensures r.Keys == messages.Keys - {url}
    ensures forall k :: k in r ==> r[k] == messages[k]
  {
    map k | k in messages && k != url :: messages[k]
  }

  /** Both handlers keep every message under its own origin. */
  lemma HandlersKeepKeying(messages: map<string, Message>, url: string, state: ReadyState)
    requires KeyedByOrigin(messages)
    ensures KeyedByOrigin(RecordError(messages, url, state))
    ensures KeyedByOrigin(RecordOpen(messages, url))
  {
  }

  /** A recovery leaves no stale message: open after an error is as if the
      error never happened. */
  lemma OpenClearsError(messages: map<string, Message>, url: string, state: ReadyState)
    ensures RecordOpen(RecordError(messages, url, state), url) == RecordOpen(messages, url)
  {
  }

  /** A stream that was healthy, errors and reopens leaves the messages as
      they were. */
  lemma ErrorThenOpenIsNoOp(messages: map<string, Message>, url: string, state: ReadyState)
    requires url !in messages
    ensures RecordOpen(RecordError(messages, url, state), url) == messages
  {
  }

  /** Only the latest error of an origin is shown: a closed transport
      overwrites an earlier warning, and the reverse. */
  lemma LatestErrorWins(messages: map<string, Message>, url: string, first: ReadyState, second: ReadyState)
    ensures RecordError(RecordError(messages, url, first), url, second) == RecordError(messages, url, second)
  {
  }

  /** Opening twice removes no more than opening once. */
  lemma OpenIdempotent(messages: map<string, Message>, url: string)
    ensures RecordOpen(RecordOpen(messages, url), url) == RecordOpen(messages, url)
  {
  }

  /** Events of different origins touch different entries, so the order of
      an open and an error of different origins does not matter. */
  lemma DifferentOriginsCommute(messages: map<string, Message>, u: string, v: string, s: ReadyState)
    requires u != v
    ensures RecordError(RecordOpen(messages, u), v, s) == RecordOpen(RecordError(messages, v, s), u)
  {
  }

  /** Nor does the order of two errors of different origins. */
  lemma ErrorsOfDifferentOriginsCommute(messages: map<string, Message>, u: string, v: string, s: ReadyState, t: ReadyState)
    requires u != v
    ensures RecordError(RecordError(messages, u, s), v, t) == RecordError(RecordError(messages, v, t), u, s)
  {
  }

  /** Nor does the order of two opens of different origins. */
  lemma OpensOfDifferentOriginsCommute(messages: map<string, Message>, u: string, v: string)
    requires u != v
    ensures RecordOpen(RecordOpen(messages, u), v) == RecordOpen(RecordOpen(messages, v), u)
  {
  }
}
