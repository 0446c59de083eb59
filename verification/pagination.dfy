/** The generator `get_paginated_resource` as a pure state machine: one resumption
    of the generator is `StepFn`, and running it until it stops is `Drain`. The
    Bitbucket server is a finite script of responses, answered in request order;
    a request past the end of the script is answered 404. */
module Pagination {
  import opened JsonValues
  import opened RateLimit

  /** What one request gets back: a decoded 2xx body, or the status code of the
      error that `raise_for_status` raises. `Status` stands only for 4xx and 5xx
      codes: a 1xx or 3xx answer, which `raise_for_status` lets through, is not
      part of this model. */
  datatype Reply = Body(page: Json) | Status(code: int)

  /** A scripted response: how long the request takes (seconds) and its reply. */
  datatype Response = Response(latency: nat, reply: Reply)

  const Exhausted := Response(0, Status(404))

  function Head(server: seq<Response>): Response
  {
    if server == [] then Exhausted else server[0]
  }

  function Tail(server: seq<Response>): seq<Response>
  {
    if server == [] then [] else server[1..]
  }

  /** The arguments `page_size` and `full_response`. */
  datatype Call = Call(pageSize: int, full: bool)

  /** Where the generator stands: not yet started, suspended at `yield` after the
      given page, or finished. */
  datatype Phase = Fresh | Suspended(page: Json) | Over

  /** What one `next()` on the generator produces. */
  datatype Yield = Batch(items: Json) | Stop | Raise(exc: Exc)

  /** The generator together with what it reads and writes: the content of the
      `params` dict, the rate window and the rest of the server script. */
  datatype Gen = Gen(phase: Phase, params: map<string, Json>, window: Window, server: seq<Response>)

  /** One resumption: what it yields, the state after it, and the query of the
      request it sent, if it sent one. */
  datatype Step = Step(out: Yield, next: Gen, request: Option<map<string, Json>>)

  /** What a successful page yields: the whole page, or its `values`. */
  function Payload(page: Json, call: Call): Result<Json>
  {
    if call.full then Ok(page) else Sub(page, "values")
  }

  /** `page_json.get("nextPageStart")`. */
  function NextCursor(page: Json): Result<Json>
  {
    Get(page, "nextPageStart", JNull)
  }

  /** The counter effect of one reply: only a successful page is counted. */
  function Served(r: Reply): nat
  {
    if r.Body? then 1 else 0
  }

  /** One pass of the `while True` body: write a truthy cursor into `params["start"]`,
      send the request, count a successful page and yield its payload; a 404 ends the
      generator quietly, any other error status is raised. */
  function Fetch(g: Gen, cursor: Json, call: Call): (s: Step)
    ensures s.request == Some(s.next.params)
    ensures s.next.params == if Truthy(cursor) then g.params["start" := cursor] else g.params
    ensures s.next.server == Tail(g.server)
    ensures s.next.window == Window(g.window.count + Served(Head(g.server).reply), g.window.start,
                                    g.window.now + Head(g.server).latency)
    ensures s.out.Batch? <==> Head(g.server).reply.Body? && Payload(Head(g.server).reply.page, call).Ok?
    ensures s.out.Batch? ==>
              s.out.items == Payload(Head(g.server).reply.page, call).value
              && s.next.phase == Suspended(Head(g.server).reply.page)
    ensures !s.out.Batch? ==> s.next.phase == Over
    ensures s.out.Stop? <==> Head(g.server).reply == Status(404)
    ensures s.out.Raise? && Head(g.server).reply.Status? ==> s.out.exc == HttpError(Head(g.server).reply.code)
    ensures s.out.Raise? && Head(g.server).reply.Body? ==> s.out.exc == Payload(Head(g.server).reply.page, call).exc
  {
    var params := if Truthy(cursor) then g.params["start" := cursor] else g.params;
    var r := Head(g.server);
    var rest := Tail(g.server);
    var w := Window(g.window.count + Served(r.reply), g.window.start, g.window.now + r.latency);
    match r.reply
    case Status(code) =>
      Step(if code == 404 then Stop else Raise(HttpError(code)), Gen(Over, params, w, rest), Some(params))
    case Body(page) =>
      match Payload(page, call)
      case Ok(items) => Step(Batch(items), Gen(Suspended(page), params, w, rest), Some(params))
      case Err(e) => Step(Raise(e), Gen(Over, params, w, rest), Some(params))
  }

  /** The state in which a fresh generator sends its first request: the rate gate has
      been passed and `params["limit"]` is set; no cursor is written. */
  function Started(g: Gen, call: Call): Gen
  {
    g.(params := g.params["limit" := JInt(call.pageSize)], window := Gate(g.window))
  }

  /** One `next()` on the generator. */
  function StepFn(g: Gen, call: Call): (s: Step)
    ensures g.phase.Over? ==> s == Step(Stop, g, None)
    ensures s.out.Batch? ==> |g.server| > 0 && s.next.server == g.server[1..] && s.next.phase.Suspended?
    ensures !s.out.Batch? ==> s.next.phase.Over?
    ensures s.request.None? ==> s.next.server == g.server && s.next.params == g.params
                                && s.next.window == g.window
    ensures |s.next.server| <= |g.server|
  {
    match g.phase
    case Over => Step(Stop, g, None)
    case Fresh => Fetch(Started(g, call), JNull, call)
    case Suspended(page) =>
      match NextCursor(page)
      case Err(e) => Step(Raise(e), g.(phase := Over), None)
      case Ok(c) => if Truthy(c) then Fetch(g, c, call) else Step(Stop, g.(phase := Over), None)
  }

  /** Everything a generator does when it is consumed to the end: the batches it
      yields, the exception it ends with (if any), the queries it sends, and its
      final state. */
  datatype Drained = Drained(batches: seq<Json>, err: Option<Exc>, requests: seq<map<string, Json>>, last: Gen)

  function Drain(g: Gen, call: Call): Drained
    decreases |g.server|
  {
    if g.phase.Over? then Drained([], None, [], g)
    else
      var s := StepFn(g, call);
      var sent := if s.request.Some? then [s.request.value] else [];
      match s.out
      case Stop => Drained([], None, sent, s.next)
      case Raise(e) => Drained([], Some(e), sent, s.next)
      case Batch(items) =>
        var d := Drain(s.next, call);
        Drained([items] + d.batches, d.err, sent + d.requests, d.last)
  }

  /** The rate window a generator's requests are counted against: a fresh generator
      passes the gate before its first request. */
  function Entry(g: Gen): Window
  {
    if g.phase.Fresh? then Gate(g.window) else g.window
  }

  /** Total time spent in the first `n` requests against the scripted server. */
  function Latency(server: seq<Response>, n: nat): nat
  {
    if n == 0 then 0 else Head(server).latency + Latency(Tail(server), n - 1)
  }

  /** The page whose cursor decides the request after `k` batches: the page the
      generator was suspended at, or the last page that produced a batch. */
  function PageBefore(g: Gen, k: nat): Json
    requires k <= |g.server|
  {
    if k == 0 then (if g.phase.Suspended? then g.phase.page else JNull)
    else if g.server[k - 1].reply.Body? then g.server[k - 1].reply.page else JNull
  }

  /** Pagination yields one batch per successful page, in server order, and each batch
      is that page's payload; there is at most one request beyond the batches, so a
      finite server is drained in at most `|server| + 1` requests. The `params` dict
      ends as the last query sent. */
  lemma {:induction false} DrainShape(g: Gen, call: Call)
    ensures var d := Drain(g, call);
            && |d.batches| <= |g.server|
            && (forall i :: 0 <= i < |d.batches| ==>
                  g.server[i].reply.Body? && Payload(g.server[i].reply.page, call) == Ok(d.batches[i]))
            && |d.batches| <= |d.requests| <= |d.batches| + 1
            && d.last.phase.Over?
            && d.last.params == (if |d.requests| == 0 then g.params else d.requests[|d.requests| - 1])
            && d.last.server == (if |d.requests| == |d.batches| then g.server[|d.batches|..]
                                 else Tail(g.server[|d.batches|..]))
    decreases |g.server|
  {
    var d := Drain(g, call);
    if !g.phase.Over? {
      var s := StepFn(g, call);
      if s.out.Batch? {
        var e := Drain(s.next, call);
        DrainShape(s.next, call);
        assert d.batches == [s.out.items] + e.batches;
        assert d.requests == [s.request.value] + e.requests;
        assert g.server[1..][|e.batches|..] == g.server[|d.batches|..];
      }
    }
  }

  /** The first request of a generator: a fresh one always sends one, carrying
      `limit=page_size` on top of whatever the caller's dict already held (a stale
      `start` included); a suspended one sends one only when the cursor of the page it
      stopped at is truthy, and then carries that cursor as `start`. */
  lemma DrainFirstRequest(g: Gen, call: Call)
    ensures var d := Drain(g, call);
            && (g.phase.Fresh? ==>
                  |d.requests| >= 1 && d.requests[0] == g.params["limit" := JInt(call.pageSize)])
            && (g.phase.Suspended? && |d.requests| >= 1 ==>
                  NextCursor(g.phase.page).Ok? && Truthy(NextCursor(g.phase.page).value)
                  && d.requests[0] == g.params["start" := NextCursor(g.phase.page).value])
            && (g.phase.Over? ==> d.requests == [])
  {
  }

  /** Request `after` follows request `before` in cursor order: the `i`-th page came
      back, its `nextPageStart` is truthy, and the new query is the old one with
      `start` set to that cursor. */
  predicate CursorStep(server: seq<Response>, i: nat, before: map<string, Json>, after: map<string, Json>)
  {
    && i < |server| && server[i].reply.Body?
    && NextCursor(server[i].reply.page).Ok?
    && Truthy(NextCursor(server[i].reply.page).value)
    && after == before["start" := NextCursor(server[i].reply.page).value]
  }

  /** Every request after the first carries `start=` the `nextPageStart` of the page
      before it, and is sent only when that cursor is truthy (so `0`, `None` and a
      missing key all end the loop); nothing else in the query changes. */
  lemma {:induction false} DrainCursorChain(g: Gen, call: Call)
    ensures var d := Drain(g, call);
            forall i :: 1 <= i < |d.requests| ==> CursorStep(g.server, i - 1, d.requests[i - 1], d.requests[i])
    decreases |g.server|
  {
    var d := Drain(g, call);
    if !g.phase.Over? {
      var s := StepFn(g, call);
      if s.out.Batch? {
        var e := Drain(s.next, call);
        DrainCursorChain(s.next, call);
        DrainFirstRequest(s.next, call);
        assert d.requests == [s.request.value] + e.requests;
        forall i | 1 <= i < |d.requests|
          ensures CursorStep(g.server, i - 1, d.requests[i - 1], d.requests[i])
        {
          if i > 1 {
            assert d.requests[i] == e.requests[i - 1] && d.requests[i - 1] == e.requests[i - 2];
            assert CursorStep(s.next.server, i - 2, e.requests[i - 2], e.requests[i - 1]);
            assert g.server[i - 1] == s.next.server[i - 2];
          }
        }
      }
    }
  }

  /** How a request that produced no batch ends the generator: a 404 ends it quietly,
      any other status is raised as an HTTP error, and a page without `values` raises
      the lookup error. */
  predicate ReplyEnds(reply: Reply, call: Call, err: Option<Exc>)
  {
    && (err.None? <==> reply == Status(404))
    && (reply.Status? && reply.code != 404 ==> err == Some(HttpError(reply.code)))
    && (reply.Body? ==> Payload(reply.page, call).Err? && err == Some(Payload(reply.page, call).exc))
  }

  /** How the cursor of a page ends the generator without a further request: an
      unreadable cursor is raised, a falsy one ends it quietly. */
  predicate CursorEnds(page: Json, err: Option<Exc>)
  {
    match NextCursor(page)
    case Err(e) => err == Some(e)
    case Ok(c) => !Truthy(c) && err.None?
  }

  /** The last step of a drain: the step that yields no batch. */
  lemma FinalStep(g: Gen, call: Call)
    requires !g.phase.Over? && !StepFn(g, call).out.Batch?
    ensures var d := Drain(g, call);
            && d.batches == []
            && (|d.requests| == 1 ==> ReplyEnds(Head(g.server).reply, call, d.err))
            && (|d.requests| == 0 ==> g.phase.Suspended? && CursorEnds(g.phase.page, d.err))
  {
  }

  /** How a drained generator ends. If its last request got no batch, the reply to
      that request decides; if no request follows the last batch, the cursor of the
      page before decides. */
  lemma {:induction false} DrainEnd(g: Gen, call: Call)
    requires !g.phase.Over?
    ensures var d := Drain(g, call);
            var k := |d.batches|;
            && k <= |g.server|
            && (|d.requests| == k + 1 ==> ReplyEnds(Head(g.server[k..]).reply, call, d.err))
            && (|d.requests| == k ==> (k > 0 || g.phase.Suspended?) && CursorEnds(PageBefore(g, k), d.err))
    decreases |g.server|
  {
    var s := StepFn(g, call);
    var d := Drain(g, call);
    assert |d.batches| <= |g.server| by {
      DrainShape(g, call);
    }
    if s.out.Batch? {
      var e := Drain(s.next, call);
      assert d.batches == [s.out.items] + e.batches && d.requests == [s.request.value] + e.requests && d.err == e.err;
      var k := |d.batches|;
      assert g.server[1..][k - 1..] == g.server[k..];
      assert PageBefore(s.next, k - 1) == PageBefore(g, k);
      DrainEnd(s.next, call);
    } else {
      FinalStep(g, call);
      assert g.server[0..] == g.server;
    }
  }

  /** The rate window across a drained generator: the window start is untouched after
      the gate, the count rises by exactly the number of pages that came back (each
      batch, plus a page whose payload could not be read) and not for a failed
      request, and the clock advances by the time the requests took. */
  lemma {:induction false} DrainCount(g: Gen, call: Call)
    ensures var d := Drain(g, call);
            var k := |d.batches|;
            k <= |g.server| &&
            var extra := if |d.requests| == k + 1 && Head(g.server[k..]).reply.Body? then 1 else 0;
            && d.last.window.count == Entry(g).count + k + extra
            && d.last.window.start == Entry(g).start
            && d.last.window.now == Entry(g).now + Latency(g.server, |d.requests|)
    decreases |g.server|
  {
    DrainShape(g, call);
    if !g.phase.Over? {
      var s := StepFn(g, call);
      if s.out.Batch? {
        var d := Drain(g, call);
        var e := Drain(s.next, call);
        DrainCount(s.next, call);
        DrainShape(s.next, call);
        assert d.batches == [s.out.items] + e.batches;
        assert d.requests == [s.request.value] + e.requests;
        var k := |d.batches|;
        assert g.server[1..][k - 1..] == g.server[k..];
        assert Latency(g.server, |d.requests|) == g.server[0].latency + Latency(g.server[1..], |e.requests|);
      } else {
        FinalCount(g, call);
      }
    }
  }

  /** `DrainCount` for a generator whose next step yields no batch. */
  lemma FinalCount(g: Gen, call: Call)
    requires !g.phase.Over? && !StepFn(g, call).out.Batch?
    ensures var d := Drain(g, call);
            var extra := if |d.requests| == 1 && Head(g.server).reply.Body? then 1 else 0;
            && d.last.window.count == Entry(g).count + extra
            && d.last.window.start == Entry(g).start
            && d.last.window.now == Entry(g).now + Latency(g.server, |d.requests|)
  {
  }

  /** Every request of a fresh generator carries `limit=page_size`, and every key of
      the caller's dict other than `limit` and `start` is sent unchanged. */
  lemma RequestsCarryLimit(g: Gen, call: Call, i: nat)
    requires g.phase.Fresh? && i < |Drain(g, call).requests|
    ensures var q := Drain(g, call).requests[i];
            && "limit" in q && q["limit"] == JInt(call.pageSize)
            && forall key :: key in g.params && key != "limit" && key != "start" ==>
                 key in q && q[key] == g.params[key]
  {
    DrainFirstRequest(g, call);
    RequestsFromFirst(g, call, i);
  }

  lemma {:induction false} RequestsFromFirst(g: Gen, call: Call, i: nat)
    requires i < |Drain(g, call).requests|
    ensures var rs := Drain(g, call).requests;
            && rs[i].Keys == rs[0].Keys + (if i == 0 then {} else {"start"})
            && forall key :: key in rs[0] && key != "start" ==> rs[i][key] == rs[0][key]
  {
    if i > 0 {
      RequestsFromFirst(g, call, i - 1);
      DrainCursorChain(g, call);
      var rs := Drain(g, call).requests;
      assert CursorStep(g.server, i - 1, rs[i - 1], rs[i]);
    }
  }

  /** A `start` left in a dict by one drained generator is sent by the next generator
      that is handed the same dict: when the first one paged at least once, the second
      one's first request asks for the first one's last cursor, not the first page. */
  lemma StaleStart(g: Gen, call: Call, call2: Call)
    requires g.phase.Fresh?
    ensures var d := Drain(g, call);
            var n := |d.requests|;
            var g2 := Gen(Fresh, d.last.params, d.last.window, d.last.server);
            n >= 2 ==>
              && n - 2 < |g.server| && g.server[n - 2].reply.Body?
              && NextCursor(g.server[n - 2].reply.page).Ok?
              && Truthy(NextCursor(g.server[n - 2].reply.page).value)
              && "start" in Drain(g2, call2).requests[0]
              && Drain(g2, call2).requests[0]["start"] == NextCursor(g.server[n - 2].reply.page).value
  {
    var d := Drain(g, call);
    var n := |d.requests|;
    if n >= 2 {
      DrainShape(g, call);
      DrainCursorChain(g, call);
      assert CursorStep(g.server, n - 2, d.requests[n - 2], d.requests[n - 1]);
      DrainFirstRequest(Gen(Fresh, d.last.params, d.last.window, d.last.server), call2);
    }
  }
}
