/**
  What an error means: its weight for the circuit breaker (internal/circuitbreaker/classify.go)
  and whether it ends the failover (`isClientError` in internal/app/proxy.go).
 */
module ErrorClasses {

  datatype Sentinel =
    | BadRequest | Unauthorized | Forbidden | ModelNotAllowed | KeyExpired | KeyBlocked
    | NotFound | Conflict | RateLimited | QuotaExceeded | ProviderError

  datatype Status = NoStatus | Status(code: int)

  /** An error by what its chain holds: a deadline, an HTTP status, a network failure, sentinels. */
  datatype Error = Error(deadline: bool, status: Status, network: bool, sentinels: set<Sentinel>)

  function StatusWeight(code: int): real {
    if code == 429 then 0.5
    else if 500 <= code <= 504 then 1.0
    else if 400 <= code < 500 then 0.0
    else 0.0
  }

  function Weight(e: Error): real {
    if e.deadline then 1.5
    else if e.status.Status? then StatusWeight(e.status.code)
    else if e.network then 1.0
    else 1.0
  }

  predicate IsClientError(e: Error) {
    if e.status.Status? then 400 <= e.status.code < 500
    else e.sentinels * {BadRequest, Unauthorized, Forbidden, ModelNotAllowed, KeyExpired, KeyBlocked} != {}
  }

  predicate ClientSide(s: Sentinel) {
    s.BadRequest? || s.Unauthorized? || s.Forbidden? || s.ModelNotAllowed? || s.KeyExpired? || s.KeyBlocked?
  }

  /** Which errors stop the failover, and which of them the provider is not blamed for: only a 4xx that is
      neither a 429 nor a timeout does both. An error that is passed over without blame carries a
      status that is neither 4xx nor 500 to 504. Every error without a status is blamed, client sentinels included. */
  lemma BlameAndStop(e: Error)
    ensures IsClientError(e) && Weight(e) == 0.0 <==>
      !e.deadline && e.status.Status? && 400 <= e.status.code < 500 && e.status.code != 429
    ensures !IsClientError(e) && Weight(e) == 0.0 <==>
      !e.deadline && e.status.Status? && (e.status.code < 400 || e.status.code > 504)
    ensures Weight(e) >= 0.0 && (e.status.NoStatus? ==> Weight(e) >= 1.0)
    ensures Weight(e) == 1.5 <==> e.deadline
    ensures Weight(e) == 0.5 <==> !e.deadline && e.status == Status(429)
    ensures !e.deadline && e.status.Status? && 500 <= e.status.code <= 504 ==> Weight(e) == 1.0
    ensures !e.deadline && e.status.NoStatus? ==> Weight(e) == 1.0
    ensures e.status.Status? ==> (IsClientError(e) <==> e.status.code / 100 == 4)
    ensures e.status.NoStatus? ==> (IsClientError(e) <==> exists s :: s in e.sentinels && ClientSide(s))
  {
    var client := {BadRequest, Unauthorized, Forbidden, ModelNotAllowed, KeyExpired, KeyBlocked};
    if e.status.NoStatus? && IsClientError(e) {
      var s :| s in e.sentinels * client;
    }
    assert forall s :: s in e.sentinels && s in client ==> s in e.sentinels * client;
  }
}
