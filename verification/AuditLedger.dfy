/**
 The durable request audit: the `request_audits` table of the Product store
 (product/src/cyrene_exchange_product/store.py) and the recorder that joins it
 to the gateway's callbacks (product/src/cyrene_exchange_product/audit.py).
 Timestamps are not part of this model.
 */
module AuditLedger {
  import opened Prelude
  import opened Capabilities
  import opened Lifecycle

  datatype RowStatus = InFlight | Terminal(status: Status)

  datatype Row = Row(
    routeId: Option<string>, bindingId: Option<string>, model: Option<string>, stream: Option<bool>,
    principal: Option<Principal>, status: RowStatus,
    usageState: UsageState, prompt: Option<nat>, completion: Option<nat>, total: Option<nat>, source: Option<string>,
    errorType: Option<string>)

  /** A token-usage event for the billing plugin. */
  datatype Bill = Bill(
    requestId: string, tenantId: string, workspaceId: string, model: string, status: Status,
    prompt: Option<nat>, completion: Option<nat>, total: Option<nat>, source: string)

  datatype Ledger = Ledger(rows: map<string, Row>, bills: seq<Bill>)

  function StartedRow(meta: Metadata): Row {
    Row(Some(meta.routeId), Some(meta.providerRef), Some(meta.model), Some(meta.stream), Some(meta.principal),
      InFlight, Unknown, None, None, None, None, None)
  }

  function RejectedRow(principal: Option<Principal>, status: Status, reason: string,
                       model: Option<string>, stream: Option<bool>): Row {
    Row(None, None, model, stream, principal, Terminal(status), Unknown, None, None, None, None, Some(reason))
  }

  /** The columns a terminal report sets; the identity columns stay. */
  function FinishedRow(row: Row, status: Status, usage: Option<Usage>, errorType: Option<string>): Row {
    var u := usage.GetOr(Usage(None, None, None, ""));
    row.(status := Terminal(status), usageState := UsageStateOf(usage),
         prompt := u.prompt, completion := u.completion, total := u.total,
         source := if usage.Some? then Some(u.source) else None, errorType := errorType)
  }

  /** `observed_token_usage_event`: an event exists only for a usage with at least one fact. */
  function BillOf(meta: Metadata, status: Status, usage: Option<Usage>): seq<Bill> {
    if HasFacts(usage) then
      [Bill(meta.requestId, meta.principal.actorId, meta.principal.workspaceId, meta.model, status,
            usage.value.prompt, usage.value.completion, usage.value.total, usage.value.source)]
    else []
  }

  /** What the recorder does with one callback. */
  function Record(l: Ledger, call: Call): Ledger {
    match call
    case Started(meta, _) =>
      if meta.requestId in l.rows then l else l.(rows := l.rows[meta.requestId := StartedRow(meta)])
    case Refused(id, principal, status, reason, model, stream, _) =>
      if id in l.rows then l else l.(rows := l.rows[id := RejectedRow(principal, status, reason, model, stream)])
    case Finished(meta, status, usage, errorType, _) =>
      if meta.requestId !in l.rows then l
      else
        var row := l.rows[meta.requestId];
        Ledger(
          if row.status == InFlight then l.rows[meta.requestId := FinishedRow(row, status, usage, errorType)] else l.rows,
          l.bills + BillOf(meta, status, usage))
  }

  /** The answer the recorder gives; only a billing failure is outside its control. */
  ghost predicate Faithful(l: Ledger, call: Call) {
    match call
    case Started(meta, ok) => ok <==> meta.requestId !in l.rows
    case Refused(_, _, _, _, _, _, ok) => ok
    case Finished(meta, _, usage, _, ok) =>
      && (ok ==> meta.requestId in l.rows)
      && (!ok && meta.requestId in l.rows ==> HasFacts(usage))
  }

  function RecordAll(l: Ledger, calls: seq<Call>): Ledger
    decreases |calls|
  {
    if calls == [] then l else RecordAll(Record(l, calls[0]), calls[1..])
  }

  ghost predicate FaithfulAll(l: Ledger, calls: seq<Call>)
    decreases |calls|
  {
    calls != [] ==> Faithful(l, calls[0]) && FaithfulAll(Record(l, calls[0]), calls[1..])
  }

  /** The audit table; each method is one atomic mutation that rolls back when it raises. */
  class AuditStore {
    var rows: map<string, Row>

    constructor ()
      ensures rows == map[]
    {
      rows := map[];
    }

    method BeginRequest(meta: Metadata) returns (ok: bool)
      modifies this
      ensures ok <==> meta.requestId !in old(rows)
      ensures rows == if ok then old(rows)[meta.requestId := StartedRow(meta)] else old(rows)
    {
      ok := meta.requestId !in rows;
      if ok {
        rows := rows[meta.requestId := StartedRow(meta)];
      }
    }

    /** An insert that does nothing on conflict. */
    method RecordRejection(id: string, principal: Option<Principal>, status: Status, reason: string,
                           model: Option<string>, stream: Option<bool>)
      modifies this
      ensures rows == if id in old(rows) then old(rows)
                      else old(rows)[id := RejectedRow(principal, status, reason, model, stream)]
    {
      if id !in rows {
        rows := rows[id := RejectedRow(principal, status, reason, model, stream)];
      }
    }

    /** Only a row that is still in flight takes a terminal outcome. */
    method FinishRequest(meta: Metadata, status: Status, usage: Option<Usage>, errorType: Option<string>) returns (ok: bool)
      modifies this
      ensures ok <==> meta.requestId in old(rows)
      ensures rows == if ok && old(rows)[meta.requestId].status == InFlight
        then old(rows)[meta.requestId := FinishedRow(old(rows)[meta.requestId], status, usage, errorType)]
        else old(rows)
    {
      if meta.requestId !in rows {
        return false;
      }
      if rows[meta.requestId].status != InFlight {
        return true;
      }
      rows := rows[meta.requestId := FinishedRow(rows[meta.requestId], status, usage, errorType)];
      return true;
    }

    /** The requests left in flight, as reported for gate reconciliation (their order is not modelled). */
    method ListActiveActivityTasks() returns (tasks: set<string>)
      ensures forall id :: id in tasks <==> id in rows && rows[id].status == InFlight
    {
      tasks := set id | id in rows && rows[id].status == InFlight;
    }
  }

  /** The recorder; `billing` answers the k-th usage event, None when no billing client is configured. */
  class RequestAuditRecorder {
    const store: AuditStore
    const billing: Option<nat -> bool>
    var bills: seq<Bill>

    constructor (store: AuditStore, billing: Option<nat -> bool>)
      ensures this.store == store && this.billing == billing && bills == []
    {
      this.store := store;
      this.billing := billing;
      bills := [];
    }

    ghost function State(): Ledger
      reads this, store
    {
      Ledger(store.rows, bills)
    }

    method OnRequestStarted(meta: Metadata) returns (ok: bool)
      modifies this, store
      ensures State() == Record(old(State()), Started(meta, ok)) && Faithful(old(State()), Started(meta, ok))
    {
      ok := store.BeginRequest(meta);
    }

    /** The terminal row is committed before the billing event is sent. */
    method OnRequestFinished(meta: Metadata, status: Status, usage: Option<Usage>, errorType: Option<string>)
      returns (ok: bool)
      modifies this, store
      ensures var call := Finished(meta, status, usage, errorType, ok);
        && Faithful(old(State()), call)
        && State().rows == Record(old(State()), call).rows
        && State().bills == if billing.Some? then Record(old(State()), call).bills else old(bills)
    {
      ok := store.FinishRequest(meta, status, usage, errorType);
      if ok && billing.Some? && HasFacts(usage) {
        ok := billing.value(|bills|);
        bills := bills + BillOf(meta, status, usage);
      }
    }

    method OnRequestRejected(id: string, principal: Option<Principal>, status: Status, reason: string,
                             model: Option<string>, stream: Option<bool>)
      modifies this, store
      ensures State() == Record(old(State()), Refused(id, principal, status, reason, model, stream, true))
    {
      store.RecordRejection(id, principal, status, reason, model, stream);
    }
  }
}
