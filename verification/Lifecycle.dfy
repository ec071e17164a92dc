/**
 What the gateway shares with its environment: the lifecycle callbacks an
 observer receives, the cancellation event, and the exceptions collaborators
 may raise (src/cyrene_exchange/gateway.py and capabilities.py).

 The two parties the gateway cannot predict are oracles. `answers(k)` is what
 the k-th read of the cancellation event returns, so the event may flip between
 any two reads; `replies(k)` says whether the k-th observer callback returns
 normally. Every theorem holds for all oracles.
 */
module Lifecycle {
  import opened Prelude
  import opened Capabilities

  datatype Principal = Principal(actorId: string, workspaceId: string, credentialRef: string, organizationId: Option<string>)

  datatype Metadata = Metadata(
    requestId: string, model: string, stream: bool, routeId: string, providerRef: string, principal: Principal)

  datatype Status = Completed | Failed | Cancelled | Rejected

  /** One lifecycle callback and whether it returned normally. */
  datatype Call =
    | Started(meta: Metadata, ok: bool)
    | Finished(meta: Metadata, status: Status, usage: Option<Usage>, errorType: Option<string>, ok: bool)
    | Refused(requestId: string, principal: Option<Principal>, status: Status, reason: string,
              model: Option<string>, stream: Option<bool>, ok: bool)

  /** The error codes of a typed embeddings failure. */
  type EmbeddingCode = c: nat | 1 <= c <= 5 witness 1

  function EmbeddingErrorType(code: EmbeddingCode): string {
    match code
    case 1 => "invalid_request_error"
    case 2 => "model_not_found"
    case 5 => "rate_limit_error"
    case _ => PROVIDER_TYPE
  }

  /** An exception a collaborator of the gateway raises. */
  datatype Fault =
    | RequestCancelled(usage: Option<Usage>)
    | InvocationCancelled
    | LifecycleError
    | EmbeddingRefusal(code: EmbeddingCode)
    | OtherError(name: string, usage: Option<Usage>)

  const CANCELLED_TYPE := "request_cancelled"
  const PROVIDER_TYPE := "provider_error"

  /** `_audit_error_type`: gateway errors have a stable type, other exceptions their class name. */
  function AuditErrorType(f: Fault): string {
    match f
    case RequestCancelled(_) => CANCELLED_TYPE
    case InvocationCancelled => "ProviderInvocationCancelled"
    case LifecycleError => "gateway_lifecycle_error"
    case EmbeddingRefusal(_) => "ProviderEmbeddingError"
    case OtherError(name, _) => name
  }

  /** `threading.Event` as seen by its readers. */
  class CancelFlag {
    const answers: nat -> bool
    var readCount: nat

    constructor (answers: nat -> bool)
      ensures this.answers == answers && readCount == 0
    {
      this.answers := answers;
      readCount := 0;
    }

    method IsSet() returns (b: bool)
      modifies this
      ensures b == answers(old(readCount)) && readCount == old(readCount) + 1
    {
      b := answers(readCount);
      readCount := readCount + 1;
    }
  }

  /** A lifecycle observer; `calls` is everything it was ever asked. */
  class Observer {
    const replies: nat -> bool
    var calls: seq<Call>

    constructor (replies: nat -> bool)
      ensures this.replies == replies && calls == []
    {
      this.replies := replies;
      calls := [];
    }

    method OnRequestStarted(meta: Metadata) returns (ok: bool)
      modifies this
      ensures ok == replies(|old(calls)|) && calls == old(calls) + [Started(meta, ok)]
    {
      ok := replies(|calls|);
      calls := calls + [Started(meta, ok)];
    }

    method OnRequestFinished(meta: Metadata, status: Status, usage: Option<Usage>, errorType: Option<string>)
      returns (ok: bool)
      modifies this
      ensures ok == replies(|old(calls)|)
      ensures calls == old(calls) + [Finished(meta, status, usage, errorType, ok)]
    {
      ok := replies(|calls|);
      calls := calls + [Finished(meta, status, usage, errorType, ok)];
    }

    method OnRequestRejected(requestId: string, principal: Option<Principal>, status: Status, errorType: string,
                             model: Option<string>, stream: Option<bool>)
      returns (ok: bool)
      modifies this
      ensures ok == replies(|old(calls)|)
      ensures calls == old(calls) + [Refused(requestId, principal, status, errorType, model, stream, ok)]
    {
      ok := replies(|calls|);
      calls := calls + [Refused(requestId, principal, status, errorType, model, stream, ok)];
    }
  }
}
