/**
 * The two HTTP middlewares: the API-key gate in front of a handler, and
 * the logging wrapper whose response writer remembers the status code the
 * handler wrote.
 */
module Middleware {
  import opened HttpStatus

  const APIKeyHeader := "X-API-KEY"
  const ValidAPIKey := "secret12345"

  /** The gate's test on the `X-API-KEY` value (empty when the header is absent). */
  predicate Rejects(apiKey: string)
  {
    apiKey == "" || apiKey != ValidAPIKey
  }

  /** The emptiness test adds nothing: the key is refused exactly when it is not the valid one. */
  lemma RejectsExactlyWrongKeys(apiKey: string)
    ensures Rejects(apiKey) <==> apiKey != ValidAPIKey
  {
  }

  /** What the gate does with a request: answer it itself, or pass it on. */
  datatype Gate<B> = Rejected(status: int, error: string) | Forwarded(response: B)

  /**
   * `APIKey(next)` serving request `r` whose key header reads `apiKey`: a
   * 401 "unauthorized" without calling `next`, or what `next` answers to
   * the same request.
   */
  function APIKey<R, B>(next: R -> B, apiKey: string, r: R): (g: Gate<B>)
    ensures g.Rejected? <==> apiKey != ValidAPIKey
    ensures g.Rejected? ==> g == Rejected(StatusUnauthorized, "unauthorized")
    ensures g.Forwarded? ==> g.response == next(r)
  {
    if Rejects(apiKey) then Rejected(StatusUnauthorized, "unauthorized") else Forwarded(next(r))
  }

  /** A refused request gets the same answer whichever handler stands behind the gate. */
  lemma RejectionIgnoresNext<R, B>(next1: R -> B, next2: R -> B, apiKey: string, r: R)
    requires apiKey != ValidAPIKey
    ensures APIKey(next1, apiKey, r) == APIKey(next2, apiKey, r) == Rejected(StatusUnauthorized, "unauthorized")
  {
  }

  /** A missing header is refused. */
  lemma MissingKeyIsRejected<R, B>(next: R -> B, r: R)
    ensures APIKey(next, "", r).Rejected?
  {
  }

  /** The underlying `http.ResponseWriter`, reduced to the status codes written to it, in order. */
  class ResponseRecorder {
    var codes: seq<int>

    constructor ()
      ensures codes == []
    {
      codes := [];
    }

    method WriteHeader(code: int)
      modifies this
      ensures codes == old(codes) + [code]
    {
      codes := codes + [code];
    }
  }

  /** `loggingResponseWriter`: the wrapped writer and the status code last written through it. */
  class LoggingResponseWriter {
    const inner: ResponseRecorder
    var statusCode: int

    /** Made with status 200, which stands until the handler writes a header. */
    constructor (w: ResponseRecorder)
      ensures inner == w && statusCode == StatusOK
    {
      inner := w;
      statusCode := StatusOK;
    }

    /** Records the code and forwards the same code to the wrapped writer. */
    method WriteHeader(code: int)
      modifies this, inner
      ensures statusCode == code
      ensures inner.codes == old(inner.codes) + [code]
    {
      statusCode := code;
      inner.WriteHeader(code);
    }
  }

  /** The status a wrapper reports after the given WriteHeader calls: the last code, or 200 if there was none. */
  function Recorded(codes: seq<int>): int
  {
    if codes == [] then StatusOK else codes[|codes| - 1]
  }

  /**
   * `Logging(next)` serving one request: `next` makes the WriteHeader calls
   * `handlerCodes` on the wrapper, in order. Every code reaches the
   * underlying writer unchanged, and the status the log line reports is
   * the last one written, or 200 when the handler wrote none.
   */
  method Logging(w: ResponseRecorder, handlerCodes: seq<int>) returns (logged: int)
    modifies w
    ensures logged == Recorded(handlerCodes)
    ensures w.codes == old(w.codes) + handlerCodes
  {
    var lrw := new LoggingResponseWriter(w);
    var i := 0;
    while i < |handlerCodes|
      invariant 0 <= i <= |handlerCodes|
      invariant lrw.inner == w
      invariant lrw.statusCode == Recorded(handlerCodes[..i])
      invariant w.codes == old(w.codes) + handlerCodes[..i]
      modifies lrw, w
    {
      assert handlerCodes[..i + 1] == handlerCodes[..i] + [handlerCodes[i]];
      lrw.WriteHeader(handlerCodes[i]);
      i := i + 1;
    }
    assert handlerCodes[..i] == handlerCodes;
    logged := lrw.statusCode;
  }

  /** Only the last write counts: extra calls before it do not change the logged status. */
  lemma RecordedIsLastWrite(before: seq<int>, code: int)
    ensures Recorded(before + [code]) == code
    ensures Recorded([]) == StatusOK
  {
  }
}
