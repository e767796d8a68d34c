/** Plain HTTP requests, with the default interceptors and a response writer whose writes succeed. */
module PlainHttp {
  import opened Wrappers
  import opened Results

  datatype HttpError = QueryRejected | BadPayload | BadOperation(code: int) | LoopEnded(ending: Ending)

  datatype Part = ResultLine(result: Result) | ErrorBody(error: HttpError)

  /** JSON encoding: which results can be encoded, and how long the encodings are. A result line
      ends in a newline, so it is never empty. */
  datatype Encoding = Encoding(encodes: Result -> bool, lineSize: Result -> nat, errorSize: HttpError -> nat)

  ghost predicate Sensible(enc: Encoding) {
    forall r :: enc.lineSize(r) > 0
  }

  const NOT_ENCODED := 1
  const BAD_REQUEST: nat := 400

  /** What decoding, parsing and execution make of a request; a query or mutation yields exactly one
      result. */
  datatype Request = Undecodable | Unacceptable(code: int) | Executed(subscription: bool, results: seq<Result>)

  predicate Legal(request: Request) {
    request.Executed? && !request.subscription ==> |request.results| == 1
  }

  /** Nothing is cancelled and every result can be encoded. */
  ghost predicate Unhindered(enc: Encoding, env: nat -> Tick) {
    (forall k :: !env(k).done) && (forall r :: enc.encodes(r))
  }

  function Size(enc: Encoding, body: seq<Part>): nat {
    if body == [] then 0
    else
      var last := body[|body| - 1];
      Size(enc, body[..|body| - 1])
          + (if last.ResultLine? then enc.lineSize(last.result) else enc.errorSize(last.error))
  }

  function Lines(results: seq<Result>): (r: seq<Part>)
    ensures |r| == |results|
  {
    seq(|results|, k requires 0 <= k < |results| => ResultLine(results[k]))
  }

  predicate AllLines(body: seq<Part>) {
    forall k :: 0 <= k < |body| ==> body[k].ResultLine?
  }

  lemma SizeOne(enc: Encoding, part: Part)
    ensures Size(enc, [part]) == if part.ResultLine? then enc.lineSize(part.result) else enc.errorSize(part.error)
  {
    assert [part][..0] == [];
  }

  lemma {:induction false} FirstLineIsAllIffAlone(enc: Encoding, body: seq<Part>)
    requires Sensible(enc) && AllLines(body) && |body| > 0
    ensures Size(enc, body) >= enc.lineSize(body[0].result)
    ensures Size(enc, body) == enc.lineSize(body[0].result) <==> |body| == 1
  {
    if |body| > 1 {
      FirstLineIsAllIffAlone(enc, body[..|body| - 1]);
    } else {
      assert body[..0] == [];
    }
  }

  /** A subscription over a connection that cannot be flushed: the length announced with the first
      line is that of the first line. */
  predicate AnnouncesFirst(request: Request, canFlush: bool) {
    request.Executed? && request.subscription && !canFlush
  }

  class Response {
    const enc: Encoding
    var contentLength: Option<nat>
    var status: Option<nat>
    var body: seq<Part>
    /** ContextKeyHTTPResponseStarted on the request context. */
    var started: bool

    constructor (enc: Encoding)
      ensures this.enc == enc && contentLength == None && status == None && body == [] && !started
    {
      this.enc := enc;
      contentLength, status, body, started := None, None, [], false;
    }

    method WritePlainResult(result: Result, flusher: bool) returns (error: Option<int>)
      modifies this
      ensures error == if enc.encodes(result) then None else Some(NOT_ENCODED)
      ensures body == old(body) + (if error == None then [ResultLine(result)] else [])
      ensures started == (old(started) || error == None)
      ensures status == old(status)
      ensures contentLength ==
                if error == None && !old(started) && !flusher then Some(enc.lineSize(result)) else old(contentLength)
    {
      if !enc.encodes(result) { return Some(NOT_ENCODED); }
      if !started && !flusher {
        contentLength := Some(enc.lineSize(result));
      }
      body := body + [ResultLine(result)];
      started := true;
      return None;
    }

    /** WriteError: nothing happens without an error, or once a response body was begun. */
    method WriteError(error: Option<HttpError>)
      modifies this
      ensures started == old(started)
      ensures error == None || old(started) ==>
                body == old(body) && status == old(status) && contentLength == old(contentLength)
      ensures error != None && !old(started) ==>
                && body == old(body) + [ErrorBody(error.value)]
                && status == Some(BAD_REQUEST)
                && contentLength == Some(enc.errorSize(error.value))
    {
      if error == None || started { return; }
      contentLength := Some(enc.errorSize(error.value));
      status := Some(BAD_REQUEST);
      body := body + [ErrorBody(error.value)];
    }

    /** The write calls processResults makes: all but possibly the last encode. */
    method WriteAll(results: seq<Result>, flusher: bool)
      requires body == [] && !started && contentLength == None
      requires forall k :: 0 <= k < |results| - 1 ==> enc.encodes(results[k])
      modifies this
      ensures body == Lines(Encodable(enc, results)) && started == (body != []) && status == old(status)
      ensures contentLength == if flusher || body == [] then None else Some(enc.lineSize(body[0].result))
    {
      for k := 0 to |results|
        invariant body == Lines(Encodable(enc, results[..k])) && started == (body != []) && status == old(status)
        invariant contentLength == if flusher || body == [] then None else Some(enc.lineSize(body[0].result))
      {
        assert results[..k + 1][..k] == results[..k];
        var error := WritePlainResult(results[k], flusher);
      }
      assert results[..|results|] == results;
    }

    /** A plain request from decoding to the response. `failed` is what the HTTP request interceptor
        gets back from the handler. */
    method Serve(config: Config, rejectQueries: bool, request: Request, canFlush: bool, env: nat -> Tick)
      returns (failed: Option<HttpError>)
      requires Legal(request) && (forall k :: !env(k).stopped)
      requires body == [] && !started && contentLength == None && status == None
      modifies this
      ensures if failed != None && !started then body == [ErrorBody(failed.value)] && status == Some(BAD_REQUEST)
              else AllLines(body) && status == None
      ensures started <==> body != [] && AllLines(body)
      ensures body == [] ==> request.Executed? && request.subscription
      ensures !(request.Executed? && request.subscription) ==>
                |body| == 1 && contentLength == Some(Size(enc, body))
      ensures started ==>
                contentLength == if request.Executed? && request.subscription && canFlush then None
                                 else Some(enc.lineSize(body[0].result))
      ensures rejectQueries || !request.Executed? ==> failed != None
      ensures request.Executed? && !rejectQueries && Unhindered(enc, env) ==>
                body == Lines(UpToErrors(ProcessAll(config, request.results)))
      ensures AnnouncesFirst(request, canFlush) && !rejectQueries && Unhindered(enc, env) && Sensible(enc) &&
              body != [] ==>
                (contentLength == Some(Size(enc, body)) <==> |UpToErrors(ProcessAll(config, request.results))| == 1)
    {
      failed := Handle(config, rejectQueries, request, canFlush, env);
      WriteError(failed);
      if AllLines(body) && body != [] && Sensible(enc) { FirstLineIsAllIffAlone(enc, body); }
      if |body| == 1 {
        assert body == [body[0]];
        SizeOne(enc, body[0]);
      }
    }

    /** handleHTTPRequest for a plain request: servePlainRequest and plainRequestOperation. */
    method Handle(config: Config, rejectQueries: bool, request: Request, canFlush: bool, env: nat -> Tick)
      returns (failed: Option<HttpError>)
      requires Legal(request) && (forall k :: !env(k).stopped)
      requires body == [] && !started && contentLength == None && status == None
      modifies this
      ensures AllLines(body) && status == None && started == (body != [])
      ensures rejectQueries || !request.Executed? ==> failed != None && body == []
      ensures request.Executed? && !request.subscription ==> |body| <= 1 && (body == [] ==> failed != None)
      ensures contentLength == if body == [] || (request.Executed? && request.subscription && canFlush) then None
                               else Some(enc.lineSize(body[0].result))
      ensures body != [] ==> request.Executed?
      ensures request.Executed? && !rejectQueries && Unhindered(enc, env) ==>
                body == Lines(UpToErrors(ProcessAll(config, request.results))) && (failed != None ==> body != [])
    {
      if rejectQueries { return Some(QueryRejected); }
      if request.Undecodable? { return Some(BadPayload); }
      if request.Unacceptable? { return Some(BadOperation(request.code)); }
      var flusher := request.subscription && canFlush;
      var encodes := enc.encodes;
      var written, ending :=
        ProcessResults(config, request.results, env, r => if encodes(r) then None else Some(NOT_ENCODED));
      EncodableOnly(enc, written, if ending.WriteFailed? then 1 else 0);
      WriteAll(written, flusher);
      failed := if ending.Drained? || ending.StoppedByClient? then None else Some(LoopEnded(ending));
    }
  }

  /** A subscription with two results, of which only the first one's length is announced. */
  method LengthFallsShort(enc: Encoding, first: int, second: int) returns (announced: Option<nat>, body: seq<Part>)
    requires Sensible(enc) && forall r :: enc.encodes(r)
    ensures body == [ResultLine(Result(Resolved(first), [])), ResultLine(Result(Resolved(second), []))]
    ensures announced.Some? && announced.value < Size(enc, body)
  {
    var results := [Result(Resolved(first), []), Result(Resolved(second), [])];
    var config := Config(r => r, e => e);
    var response := new Response(enc);
    var failed := response.Serve(config, false, Executed(true, results), false, k => Tick(false, false, false));
    assert ProcessAll(config, results) == results;
    UpToErrorsIsPrefix(results);
    body := response.body;
    announced := response.contentLength;
    FirstLineIsAllIffAlone(enc, body);
  }

  /** Without a last result that cannot be encoded. */
  function Encodable(enc: Encoding, results: seq<Result>): seq<Result> {
    if results == [] then []
    else
      var last := results[|results| - 1];
      if enc.encodes(last) then results else results[..|results| - 1]
  }

  lemma EncodableOnly(enc: Encoding, results: seq<Result>, bad: nat)
    requires bad <= |results| && bad <= 1
    requires forall k :: 0 <= k < |results| - bad ==> enc.encodes(results[k])
    requires bad == 1 ==> !enc.encodes(results[|results| - 1])
    ensures Encodable(enc, results) == results[..|results| - bad]
  {
    assert results[..|results|] == results;
  }
}
