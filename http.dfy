/** The part of a Node/Express HTTP response that the session transport
    relies on: the status code, whether the head has gone out, the body chunks
    put on the wire, whether the response is finished, and which
    implementation its replaceable `end` field currently holds.

    The functions below give the meaning of each response operation on a
    snapshot of that state; the `Response` class performs them in place and
    is proved against them. */
module Http {

  datatype Option<T> = None | Some(value: T)

  /** One body chunk: plain text, the JSON acknowledgment `{status: 'ok'}`,
      or the health report with its connection count. */
  datatype Body = Text(text: string) | StatusOk | HealthReport(connections: nat)

  /** What the response's `end` field holds: the framework's own finishing
      function, or the capturing replacement installed around a handler. */
  datatype EndImpl = Original | Shim

  datatype ResponseState = ResponseState(
    statusCode: nat,
    headersSent: bool,
    endImpl: EndImpl,
    written: seq<Body>,
    finished: bool)

  /** A response as the framework hands it to a route: default status 200,
      nothing sent, the original `end` in place. */
  const Fresh := ResponseState(200, false, Original, [], false)

  /** Nothing has been sent or finished, and `end` is the original one. */
  predicate Unanswered(s: ResponseState) {
    !s.headersSent && !s.finished && s.endImpl == Original
  }

  /** The first argument of a call, if there is one. */
  function FirstOf(args: seq<Body>): seq<Body> {
    if |args| > 0 then [args[0]] else []
  }

  /** `res.status(code)` only records the code. */
  function WithStatus(s: ResponseState, code: nat): ResponseState {
    s.(statusCode := code)
  }

  /** `res.writeHead(code, ...)` sends the head with that code. */
  function AfterWriteHead(s: ResponseState, code: nat): ResponseState
    requires !s.headersSent
  {
    s.(statusCode := code, headersSent := true)
  }

  /** `res.write(chunk)` sends the head implicitly and appends the chunk; a
      write after the response finished puts nothing on the wire. */
  function AfterWrite(s: ResponseState, chunk: Body): ResponseState {
    if s.finished then s else s.(headersSent := true, written := s.written + [chunk])
  }

  /** `res.end(args...)` through whatever the `end` field holds. The original
      sends its first argument, if any, and finishes the response (a second
      end is a no-op); the shim only writes its first argument and returns. */
  function AfterEnd(s: ResponseState, args: seq<Body>): ResponseState {
    match s.endImpl
    case Shim => if |args| > 0 then AfterWrite(s, args[0]) else s
    case Original =>
      if s.finished then s
      else s.(headersSent := true, finished := true, written := s.written + FirstOf(args))
  }

  /** While the shim is installed, `end(x, ...)` appends exactly `x` and
      `end()` writes nothing; neither finishes the response nor removes the
      shim. */
  lemma ShimEndOnlyWritesFirstArgument(s: ResponseState, args: seq<Body>)
    requires s.endImpl == Shim && !s.finished
    ensures AfterEnd(s, args).written == s.written + FirstOf(args)
    ensures !AfterEnd(s, args).finished && AfterEnd(s, args).endImpl == Shim
    ensures AfterEnd(s, args).statusCode == s.statusCode
    ensures AfterEnd(s, args).headersSent == (s.headersSent || |args| > 0)
  {
  }

  /** The original `end` finishes an unfinished response and sends its head;
      calling it again changes nothing. */
  lemma OriginalEndFinishesOnce(s: ResponseState, args: seq<Body>, more: seq<Body>)
    requires s.endImpl == Original && !s.finished
    ensures AfterEnd(s, args).finished && AfterEnd(s, args).headersSent
    ensures AfterEnd(s, args).written == s.written + FirstOf(args)
    ensures AfterEnd(AfterEnd(s, args), more) == AfterEnd(s, args)
  {
  }

  /** A response object whose fields route handlers update in place. */
  class Response {
    var statusCode: nat
    var headersSent: bool
    var endImpl: EndImpl
    var written: seq<Body>
    var finished: bool

    function State(): ResponseState
      reads this
    {
      ResponseState(statusCode, headersSent, endImpl, written, finished)
    }

    constructor ()
      ensures State() == Fresh
    {
      statusCode := 200;
      headersSent := false;
      endImpl := Original;
      written := [];
      finished := false;
    }

    method Status(code: nat)
      modifies this
      ensures State() == WithStatus(old(State()), code)
    {
      statusCode := code;
    }

    method WriteHead(code: nat)
      requires !headersSent
      modifies this
      ensures State() == AfterWriteHead(old(State()), code)
    {
      statusCode := code;
      headersSent := true;
    }

    method Write(chunk: Body)
      modifies this
      ensures State() == AfterWrite(old(State()), chunk)
    {
      if !finished {
        headersSent := true;
        written := written + [chunk];
      }
    }

    /** Calls whatever `end` currently is. */
    method End(args: seq<Body>)
      modifies this
      ensures State() == AfterEnd(old(State()), args)
    {
      match endImpl
      case Shim =>
        if |args| > 0 {
          Write(args[0]);
        }
      case Original =>
        if !finished {
          headersSent := true;
          finished := true;
          written := written + FirstOf(args);
        }
    }

    /** `res.send(body)` and `res.json(body)`: both set the content headers,
        which is only possible before the head has gone out, and then hand
        the body to the response's current `end`. */
    method Send(body: Body)
      requires !headersSent
      modifies this
      ensures State() == AfterEnd(old(State()), [body])
    {
      End([body]);
    }
  }
}
