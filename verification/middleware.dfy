/**
 * The status-driven decisions of the HTTP middlewares: transaction commit or
 * rollback, the request logger's level, when Sentry captures, the version
 * header, and the lookup of the request's database handle.
 *
 * A request context carries the `db` slot, the response status and body, the
 * response headers and the request URI. The rest of the handler chain is an
 * arbitrary function from context to context.
 */
module Middleware {
  import opened Common
  import HttpStatus
  import Delivery

  /** What the `db` slot can hold: the application's connection pool or an open transaction. */
  datatype Db = AppDb | Transaction

  datatype Ctx = Ctx(db: Option<Db>, status: int, body: string, headers: map<string, string>, uri: string)

  /** The downstream handlers (`c.Next()`). */
  type Handler = Ctx -> Ctx

  /** The outcome of opening a transaction. */
  datatype Begin = Began | BeginFailed(message: string)

  datatype TxAction = Committed | RolledBack | NotStarted

  /** The context after the middleware, what it did with the transaction, and the context downstream saw. */
  datatype TxResult = TxResult(ctx: Ctx, action: TxAction, downstream: Option<Ctx>)

  /**
   * `TransactionMiddleware.Serve`: the `db` slot is set to the application's
   * pool; if a transaction opens, it replaces the pool while the downstream
   * handlers run, and is then rolled back on a status above 399 (leaving the
   * slot as downstream left it) or committed with the slot set back to the
   * pool. If it fails to open, the status becomes 500, the error text is
   * written and the downstream handlers do not run.
   */
  function TransactionServe(c: Ctx, begin: Begin, next: Handler): (r: TxResult)
    ensures r.downstream.Some? <==> begin.Began?
    ensures r.downstream.Some? ==> r.downstream.value == c.(db := Some(Transaction))
    ensures r.action == RolledBack <==> begin.Began? && HttpStatus.IsError(next(c.(db := Some(Transaction))).status)
    ensures r.action == Committed <==> begin.Began? && !HttpStatus.IsError(next(c.(db := Some(Transaction))).status)
    ensures r.action == RolledBack ==> r.ctx == next(c.(db := Some(Transaction)))
    ensures r.action == Committed ==> r.ctx == next(c.(db := Some(Transaction))).(db := Some(AppDb))
    ensures begin.BeginFailed? ==>
              r.action == NotStarted && r.ctx == c.(db := Some(AppDb), status := 500, body := c.body + begin.message)
  {
    var withPool := c.(db := Some(AppDb));
    match begin
    case Began =>
      var inner := withPool.(db := Some(Transaction));
      var after := next(inner);
      if HttpStatus.IsError(after.status) then TxResult(after, RolledBack, Some(inner))
      else TxResult(after.(db := Some(AppDb)), Committed, Some(inner))
    case BeginFailed(message) =>
      TxResult(withPool.(status := 500, body := withPool.body + message), NotStarted, None)
  }

  /** The error `GetCtxDB` returns when the slot is empty. */
  const MissingDbMessage := "Could not find database instance in request context."

  /** `GetCtxDB`: the stored handle when there is one, otherwise an error. */
  function GetCtxDB(c: Ctx): (r: Result<Db, string>)
    ensures r.Success? <==> c.db.Some?
    ensures r.Success? ==> r.value == c.db.value
    ensures r.Failure? ==> r.error == MissingDbMessage
  {
    match c.db
    case Some(db) => Success(db)
    case None => Failure(MissingDbMessage)
  }

  /**
   * Downstream handlers that find the transaction see it through `GetCtxDB`;
   * after a commit, or when no transaction could be opened, the request's
   * handle is the application's pool again.
   */
  lemma TransactionVisibleThroughGetCtxDB(c: Ctx, begin: Begin, next: Handler)
    ensures var r := TransactionServe(c, begin, next);
            && (r.downstream.Some? ==> GetCtxDB(r.downstream.value) == Success(Transaction))
            && (r.action != RolledBack ==> GetCtxDB(r.ctx) == Success(AppDb))
  {
  }

  datatype Level = Debug | Info | Warn | Error

  datatype LogEntry = LogEntry(level: Level, message: string)

  /** The level of the per-request log line. */
  function RequestLevel(status: int): (l: Level)
    ensures l != Debug
    ensures l == Info <==> !HttpStatus.IsError(status)
    ensures l == Error <==> HttpStatus.IsServerError(status)
    ensures l == Warn <==> HttpStatus.IsError(status) && !HttpStatus.IsServerError(status)
  {
    if status > 399 && status < 500 then Warn
    else if status > 499 then Error
    else Info
  }

  const StartMessage := "Starting middleware execution..."

  /** The request line's message for each level. */
  function RequestMessage(l: Level): (m: string)
    ensures l == Warn ==> m == "Request failed."
    ensures l == Error ==> m == "Response failed."
    ensures l == Info ==> m == "Request successful."
  {
    match l
    case Warn => "Request failed."
    case Error => "Response failed."
    case _ => "Request successful."
  }

  /**
   * `LoggerMiddleware.Serve`: after the downstream handlers, exactly one
   * request line is logged, at Warn for 400..499, Error from 500 and Info
   * otherwise; the other lines are debug lines, and only the Info path logs a
   * closing one.
   */
  function LoggerServe(c: Ctx, next: Handler): (r: (Ctx, seq<LogEntry>))
    ensures r.0 == next(c)
    ensures |r.1| >= 2 && r.1[0] == LogEntry(Debug, StartMessage)
    ensures r.1[1].level == RequestLevel(next(c).status)
    ensures forall i :: 0 <= i < |r.1| && i != 1 ==> r.1[i].level == Debug
    ensures |r.1| == if RequestLevel(next(c).status) == Info then 3 else 2
    ensures r.1[1].message == RequestMessage(r.1[1].level)
    ensures |r.1| == 3 ==> r.1[2] == LogEntry(Debug, StartMessage)
  {
    var after := next(c);
    var level := RequestLevel(after.status);
    var line := LogEntry(level, RequestMessage(level));
    var closing := if level == Info then [LogEntry(Debug, StartMessage)] else [];
    (after, [LogEntry(Debug, StartMessage), line] + closing)
  }

  /** A Sentry event: the response body as the error text, with its tags. */
  datatype Capture = Capture(message: string, tags: map<string, string>)

  /**
   * `SentryMiddleware.Serve`: after the downstream handlers, an error is
   * captured exactly when the status is above 499, carrying the response
   * body and the request URI.
   */
  function SentryServe(c: Ctx, next: Handler): (r: (Ctx, Option<Capture>))
    ensures r.0 == next(c)
    ensures r.1.Some? <==> HttpStatus.IsServerError(next(c).status)
    ensures r.1.Some? ==>
              && r.1.value.message == next(c).body
              && r.1.value.tags == map["source" := "app", "type" := "Internal server error", "url" := next(c).uri]
  {
    var after := next(c);
    if after.status > 499 then
      (after, Some(Capture(after.body, map["source" := "app", "type" := "Internal server error", "url" := after.uri])))
    else (after, None)
  }

  const VersionHeader := "KHAN-VERSION"

  /** `VersionMiddleware.Serve`: the downstream handlers run with the version header already set. */
  function VersionServe(c: Ctx, version: string, next: Handler): (r: (Ctx, Ctx))
    ensures VersionHeader in r.1.headers && r.1.headers[VersionHeader] == version
    ensures r.1 == c.(headers := c.headers[VersionHeader := version])
    ensures r.0 == next(r.1)
  {
    var inner := c.(headers := c.headers[VersionHeader := version]);
    (next(inner), inner)
  }

  /**
   * The middlewares agree on their thresholds, and with the webhook worker: a
   * status rolls back the transaction exactly when the logger reports it
   * above Info and exactly when a hook answering with it counts as a failed
   * delivery; Sentry captures exactly the requests the logger reports at Error.
   */
  lemma ThresholdsAgree(c: Ctx, next: Handler)
    ensures var status := next(c.(db := Some(Transaction))).status;
            && (TransactionServe(c, Began, next).action == RolledBack <==> RequestLevel(status) != Info)
            && (TransactionServe(c, Began, next).action == RolledBack <==> Delivery.IsFailure(Delivery.Status(status)))
    ensures (SentryServe(c, next).1.Some?) <==> LoggerServe(c, next).1[1].level == Error
  {
  }
}
