/**
 * The per-job delivery loop of a webhook worker (`Worker.DispatchHook`).
 *
 * The HTTP client is replaced by an oracle: given the position of an attempt
 * within the job and the request, it yields either a transport error or a
 * response status. The hook registry and the configured timeout are inputs.
 */
module Delivery {
  import opened Common
  import HttpStatus

  /** One job: an event of `eventType` for game `gameID`, with its serialised payload. */
  datatype Dispatch = Dispatch(gameID: string, eventType: int, payload: seq<byte>)

  /** A registered endpoint. */
  datatype Hook = Hook(url: string)

  /** The hook registry: game ID, then event type, then the hooks in registration order. */
  type Registry = map<string, map<int, seq<Hook>>>

  /** The settings a delivery reads: `webhooks.timeout` (seconds) and the service version. */
  datatype Config = Config(timeoutSeconds: int, version: string)

  /** One outbound request as handed to the HTTP client. */
  datatype Request = Request(verb: string, url: string, body: seq<byte>, timeoutSeconds: int, clientName: string)

  /** What the HTTP client reports for one request. */
  datatype Outcome = TransportError | Status(code: int)

  /** The network: the outcome of the k-th attempt of a job, given its request. */
  type Oracle = (nat, Request) -> Outcome

  datatype Attempt = Attempt(request: Request, outcome: Outcome)

  /**
   * The observable effect of one job: the requests made with their outcomes,
   * how many times the application's error counter was bumped, and the
   * returned error value.
   */
  datatype Report = Report(attempts: seq<Attempt>, errors: nat, err: Option<string>)

  /** A delivery that counts as failed: a transport error or a status above 399. */
  predicate IsFailure(o: Outcome) {
    o.TransportError? || HttpStatus.IsError(o.code)
  }

  /** The positions of the failed attempts. */
  ghost function FailedIndices(attempts: seq<Attempt>): set<int> {
    set k | 0 <= k < |attempts| && IsFailure(attempts[k].outcome)
  }

  /** The hooks registered for the job's game and event type; none when either key is missing. */
  function HooksFor(reg: Registry, d: Dispatch): seq<Hook> {
    if d.gameID in reg && d.eventType in reg[d.gameID] then reg[d.gameID][d.eventType] else []
  }

  /** The request sent to one hook: a POST of the payload, with the shared timeout. */
  function Post(h: Hook, d: Dispatch, cfg: Config): Request {
    Request("POST", h.url, d.payload, cfg.timeoutSeconds, "khan-" + cfg.version)
  }

  /** Appending one attempt adds its position to the failed set exactly when it failed. */
  lemma FailedIndicesSnoc(attempts: seq<Attempt>, a: Attempt)
    ensures FailedIndices(attempts + [a])
            == FailedIndices(attempts) + (if IsFailure(a.outcome) then {|attempts|} else {})
    ensures |attempts| !in FailedIndices(attempts)
  {
  }

  /** Loop state after some iterations: the attempts so far and the error count. */
  datatype Progress = Progress(attempts: seq<Attempt>, errors: nat)

  /**
   * The `for ... range` loop over the hooks: one attempt per hook, in order;
   * a failure bumps the error count and the loop continues with the next hook.
   */
  function DeliverAll(hooks: seq<Hook>, d: Dispatch, cfg: Config, oracle: Oracle): (p: Progress)
    decreases |hooks|
    ensures |p.attempts| == |hooks|
    ensures forall k :: 0 <= k < |hooks| ==>
              p.attempts[k].request == Post(hooks[k], d, cfg)
              && p.attempts[k].outcome == oracle(k, p.attempts[k].request)
    ensures p.errors == |FailedIndices(p.attempts)|
    ensures p.errors <= |hooks|
  {
    if hooks == [] then Progress([], 0)
    else
      var prev := DeliverAll(hooks[..|hooks| - 1], d, cfg, oracle);
      var req := Post(hooks[|hooks| - 1], d, cfg);
      var a := Attempt(req, oracle(|hooks| - 1, req));
      FailedIndicesSnoc(prev.attempts, a);
      Progress(prev.attempts + [a], prev.errors + if IsFailure(a.outcome) then 1 else 0)
  }

  /**
   * `Worker.DispatchHook`: an unknown game or event type means no work;
   * otherwise every registered hook gets one POST of the payload, in order,
   * failures are counted and never stop the rest, and the result is nil.
   */
  function DispatchHook(reg: Registry, d: Dispatch, cfg: Config, oracle: Oracle): (r: Report)
    ensures d.gameID !in reg ==> r.attempts == [] && r.errors == 0
    ensures d.gameID in reg && d.eventType !in reg[d.gameID] ==> r.attempts == [] && r.errors == 0
    ensures |r.attempts| == |HooksFor(reg, d)|
    ensures forall k :: 0 <= k < |r.attempts| ==>
              && r.attempts[k].request.verb == "POST"
              && r.attempts[k].request.url == HooksFor(reg, d)[k].url
              && r.attempts[k].request.body == d.payload
              && r.attempts[k].request.timeoutSeconds == cfg.timeoutSeconds
              && r.attempts[k].outcome == oracle(k, r.attempts[k].request)
    ensures r.errors == |FailedIndices(r.attempts)|
    ensures r.errors <= |r.attempts|
    ensures r.err == None
  {
    if d.gameID !in reg then Report([], 0, None)
    else if d.eventType !in reg[d.gameID] then Report([], 0, None)
    else
      var p := DeliverAll(reg[d.gameID][d.eventType], d, cfg, oracle);
      Report(p.attempts, p.errors, None)
  }

  /** The error count is 0 exactly when every delivery succeeded. */
  lemma NoErrorsIffAllDelivered(reg: Registry, d: Dispatch, cfg: Config, oracle: Oracle)
    ensures var r := DispatchHook(reg, d, cfg, oracle);
            r.errors == 0 <==> forall k :: 0 <= k < |r.attempts| ==> !IsFailure(r.attempts[k].outcome)
  {
    var r := DispatchHook(reg, d, cfg, oracle);
    if r.errors == 0 {
      assert FailedIndices(r.attempts) == {};
      forall k | 0 <= k < |r.attempts|
        ensures !IsFailure(r.attempts[k].outcome)
      {
        assert k !in FailedIndices(r.attempts);
      }
    } else {
      var k :| k in FailedIndices(r.attempts);
      assert IsFailure(r.attempts[k].outcome);
    }
  }

  /**
   * Failures never cut the loop short: whatever the network answers, the
   * requests made are the same, one per registered hook.
   */
  lemma RequestsIndependentOfOutcomes(reg: Registry, d: Dispatch, cfg: Config, o1: Oracle, o2: Oracle)
    ensures var r1 := DispatchHook(reg, d, cfg, o1);
            var r2 := DispatchHook(reg, d, cfg, o2);
            |r1.attempts| == |r2.attempts|
            && forall k :: 0 <= k < |r1.attempts| ==> r1.attempts[k].request == r2.attempts[k].request
  {
  }

  /**
   * Partial-failure isolation: three hooks where the second times out; all
   * three are still attempted, in order, and exactly one error is recorded.
   */
  lemma PartialFailureIsolated()
    ensures var d := Dispatch("game1", 1, [1, 2]);
            var hooks := [Hook("http://h1"), Hook("http://h2"), Hook("http://h3")];
            var reg := map["game1" := map[1 := hooks]];
            var oracle: Oracle := (k, req) => if k == 1 then TransportError else Status(200);
            var r := DispatchHook(reg, d, Config(5, "1.0"), oracle);
            && |r.attempts| == 3
            && r.attempts[0].request.url == "http://h1"
            && r.attempts[1].request.url == "http://h2"
            && r.attempts[2].request.url == "http://h3"
            && r.errors == 1
            && r.err == None
  {
    var d := Dispatch("game1", 1, [1, 2]);
    var hooks := [Hook("http://h1"), Hook("http://h2"), Hook("http://h3")];
    var reg := map["game1" := map[1 := hooks]];
    var oracle: Oracle := (k, req) => if k == 1 then TransportError else Status(200);
    var r := DispatchHook(reg, d, Config(5, "1.0"), oracle);
    assert HooksFor(reg, d) == hooks;
    assert FailedIndices(r.attempts) == {1};
  }
}
