// Pending actions, their audit log, and the transactions on them
// (server/services/pending_actions.py, server/services/retention.py).
//
// Each transaction is a function on the stored tables; class ActionStore performs the same
// transactions by assigning row fields.  `now` is the clock reading a transaction decides by, `at`
// the later one it stamps rows with.

module ActionRows {
  import opened Common
  import opened ActionPayloads
  import ActionHandlers

  type ActionId = nat
  type UserId = nat
  type Token = nat
  type Hash = int
  type Code = ActionHandlers.Code

  datatype Status = Pending | Processing | ReconciliationRequired | Succeeded | Failed | Rejected | Expired

  predicate Resolved(status: Status) {
    status.Succeeded? || status.Failed? || status.Rejected? || status.Expired?
  }

  datatype Row = Row(
    owner: UserId,
    kind: Kind,
    payload: Payload,
    payloadHash: Hash,
    commandKey: string,
    createdAt: Time,
    expiresAt: Time,
    status: Status,
    approvedAt: Option<Time>,
    processedAt: Option<Time>,
    attemptToken: Option<Token>,
    attemptCount: nat,
    attemptStartedAt: Option<Time>,
    leaseExpiresAt: Option<Time>,
    result: Option<string>,
    errorCode: Option<Code>,
    reconciliationReason: Option<Code>,
    reconciliationRequiredAt: Option<Time>)

  datatype EventType =
    | Claimed | RejectedByOwner | ExpiredUnapproved | MarkedForReconciliation | OperatorPromotedExpiredLease
    | OperatorReconciled | PreDispatchFailed | ConfirmedFailure | OutcomeAmbiguous | ExecutionInterrupted | SucceededByExecutor

  datatype Event = Event(
    eventType: EventType, oldStatus: Status, newStatus: Status,
    actor: Option<UserId>, token: Option<Token>, reason: Option<Code>)

  // `nextToken` models secrets.token_urlsafe; deleting an action cascades to its audit events.
  datatype Tables = Tables(actions: map<ActionId, Row>, audit: map<ActionId, seq<Event>>, nextToken: Token) {
    function Log(id: ActionId): seq<Event> {
      if id in audit then audit[id] else []
    }

    // The row is replaced and one event is added.
    function With(id: ActionId, row: Row, event: Event): Tables {
      this.(actions := actions[id := row], audit := audit[id := Log(id) + [event]])
    }
  }

  // Canonicalization and hashing of payloads.
  datatype Codec = Codec(lib: Library, hash: Payload -> Hash)

  datatype Error = NotFound | InvalidState | CommandConflict | InvalidCommand

  const MINUTE: Time := 60_000_000
  const PENDING_ACTION_TTL := 15 * MINUTE
  const PROCESSING_LEASE := 2 * MINUTE

  // ---------- Creation ----------

  predicate SameCommand(row: Row, owner: UserId, key: string) {
    row.owner == owner && row.commandKey == key
  }

  function Staged(owner: UserId, kind: Kind, payload: Payload, hash: Hash, key: string, now: Time): Row {
    Row(owner, kind, payload, hash, key, now, now + PENDING_ACTION_TTL, Pending, None, None, None, 0, None, None,
        None, None, None, None)
  }

  // The unique (owner, command key) index makes the lookup and the insertion one step.
  function Create(codec: Codec, db: Tables, owner: UserId, kind: Kind, payload: Payload, key: string,
                  newId: ActionId, now: Time): (Tables, Result<ActionId, Error>)
  {
    var canonical := Canonicalize(codec.lib, kind, payload);
    if !ActionHandlers.ValidCommandKey(key) || canonical.None? then (db, Err(InvalidCommand))
    else
      var hash := codec.hash(canonical.value);
      var existing := set id | id in db.actions && SameCommand(db.actions[id], owner, key);
      if existing != {} then
        if Unanimous(db, existing, kind, hash) then (db, Ok(Least(existing))) else (db, Err(CommandConflict))
      else
        (db.(actions := db.actions[newId := Staged(owner, kind, canonical.value, hash, key, now)],
             audit := db.audit[newId := []]),
         Ok(newId))
  }

  predicate Unanimous(db: Tables, ids: set<ActionId>, kind: Kind, hash: Hash)
    requires forall id <- ids :: id in db.actions
  {
    forall id <- ids :: db.actions[id].kind == kind && db.actions[id].payloadHash == hash
  }

  // The existing row; the unique index admits only one.
  function Least(ids: set<ActionId>): (id: ActionId)
    requires ids != {}
    ensures IsLeast(ids, id)
  {
    LeastExists(ids);
    var id :| id in ids && IsLeast(ids, id);
    id
  }

  predicate IsLeast(ids: set<ActionId>, id: ActionId) {
    id in ids && forall i <- ids :: id <= i
  }

  lemma {:induction false} LeastExists(ids: set<ActionId>)
    requires ids != {}
    ensures exists id <- ids :: IsLeast(ids, id)
  {
    var x :| x in ids;
    if ids == {x} {
      assert IsLeast(ids, x);
    } else {
      LeastExists(ids - {x});
      var z :| z in ids - {x} && IsLeast(ids - {x}, z);
      assert forall i <- ids :: i == x || i in ids - {x};
      assert IsLeast(ids, if x < z then x else z);
    }
  }

  // ---------- Transitions ----------

  // `_mark_reconciliation_required`
  function MarkUnknown(db: Tables, id: ActionId, reason: Code, at: Time, actor: Option<UserId>,
                       eventType: EventType): (r: Tables)
    requires id in db.actions
    ensures r.actions.Keys == db.actions.Keys
  {
    var row := db.actions[id];
    db.With(id,
            row.(status := ReconciliationRequired, errorCode := Some(reason), reconciliationReason := Some(reason),
                 reconciliationRequiredAt := Some(at), processedAt := Some(at)),
            Event(eventType, row.status, ReconciliationRequired, actor, row.attemptToken, Some(reason)))
  }

  predicate LeaseOver(row: Row, now: Time) {
    row.leaseExpiresAt.None? || row.leaseExpiresAt.value <= now
  }

  // `_require_canonical_payload` does not raise.
  predicate Intact(codec: Codec, row: Row) {
    var canonical := Canonicalize(codec.lib, row.kind, row.payload);
    canonical.Some? && codec.hash(canonical.value) == row.payloadHash
  }

  function RejectAction(db: Tables, id: ActionId, user: UserId, at: Time): (Tables, Result<Row, Error>) {
    if id !in db.actions || db.actions[id].owner != user then (db, Err(NotFound))
    else
      var row := db.actions[id];
      if row.status.Pending? then
        var row' := row.(status := Rejected, processedAt := Some(at));
        (db.With(id, row', Event(RejectedByOwner, Pending, Rejected, Some(user), row.attemptToken, None)), Ok(row'))
      else if row.status.Rejected? || row.status.Expired? then (db, Ok(row))
      else (db, Err(InvalidState))
  }

  function ClaimAction(codec: Codec, db: Tables, id: ActionId, user: UserId, now: Time, at: Time)
    : (Tables, Result<(Row, bool), Error>)
  {
    if id !in db.actions || db.actions[id].owner != user then (db, Err(NotFound))
    else
      var row := db.actions[id];
      if row.status.Processing? && LeaseOver(row, now) then
        var db' := MarkUnknown(db, id, ActionHandlers.ProcessingLeaseExpired, at, None, MarkedForReconciliation);
        (db', Ok((db'.actions[id], false)))
      else if row.status.Pending? && row.expiresAt <= now then
        var row' := row.(status := Expired, processedAt := Some(now));
        (db.With(id, row', Event(ExpiredUnapproved, Pending, Expired, None, row.attemptToken, None)), Ok((row', false)))
      else if !row.status.Pending? then (db, Ok((row, false)))
      else if !Intact(codec, row) then
        var db' := MarkUnknown(db, id, ActionHandlers.PayloadIntegrityMismatch, at, None, MarkedForReconciliation);
        (db', Ok((db'.actions[id], false)))
      else
        var token := Some(db.nextToken);
        var row' := row.(status := Processing, approvedAt := Some(now), attemptToken := token,
                         attemptCount := row.attemptCount + 1, attemptStartedAt := Some(now),
                         leaseExpiresAt := Some(now + PROCESSING_LEASE));
        (db.With(id, row', Event(Claimed, Pending, Processing, Some(user), token, None)).(nextToken := db.nextToken + 1),
         Ok((row', true)))
  }

  // What a finalizer asks for.
  datatype Request = Request(status: Status, result: Option<string>, errorCode: Option<Code>, eventType: EventType)

  function RequestFor(outcome: ActionHandlers.Outcome): Request {
    match outcome
    case Done(externalId) => Request(Succeeded, Some(externalId), None, SucceededByExecutor)
    case ConfirmedFailure(code) => Request(Failed, None, Some(code), ConfirmedFailure)
    case Ambiguous(code) => Request(ReconciliationRequired, None, Some(code), OutcomeAmbiguous)
    case Interrupted => Request(ReconciliationRequired, None, Some(ActionHandlers.ExecutionInterrupted),
                                ExecutionInterrupted)
  }

  function PreDispatchRequest(code: Code): Request {
    Request(Failed, None, Some(code), PreDispatchFailed)
  }

  // `_finalize_claimed_action`: fenced on status, attempt token and lease.
  function Finalize(db: Tables, id: ActionId, token: Option<Token>, request: Request, now: Time, at: Time)
    : (Tables, Result<Row, Error>)
  {
    if token.None? then (db, Err(InvalidState))
    else if id !in db.actions then (db, Err(NotFound))
    else
      var row := db.actions[id];
      if !row.status.Processing? || row.attemptToken != token then (db, Ok(row))
      else if LeaseOver(row, now) then
        var db' := MarkUnknown(db, id, ActionHandlers.ProcessingLeaseExpired, at, None, MarkedForReconciliation);
        (db', Ok(db'.actions[id]))
      else if request.status.ReconciliationRequired? then
        var db' := MarkUnknown(db, id, request.errorCode.GetOr(ActionHandlers.ProviderOutcomeUnknown), at, None,
                               request.eventType);
        (db', Ok(db'.actions[id]))
      else
        var row' := row.(status := request.status, result := request.result, errorCode := request.errorCode,
                         processedAt := Some(at));
        (db.With(id, row',
                 Event(request.eventType, Processing, request.status, None, row.attemptToken, request.errorCode)),
         Ok(row'))
  }

  // The first transaction of `reconcile_pending_action`.
  function OpenReconciliation(db: Tables, id: ActionId, operator: UserId, now: Time, at: Time)
    : (Tables, Result<Row, Error>)
  {
    if id !in db.actions then (db, Err(NotFound))
    else
      var row := db.actions[id];
      if row.status.Processing? && LeaseOver(row, now) then
        var db' := MarkUnknown(db, id, ActionHandlers.ProcessingLeaseExpired, at, Some(operator),
                               OperatorPromotedExpiredLease);
        (db', Ok(db'.actions[id]))
      else if row.status.ReconciliationRequired? then (db, Ok(row))
      else (db, Err(InvalidState))
  }

  function ErrorOf(verdict: ActionHandlers.Verdict): Option<Code> {
    match verdict
    case Found(_) => None
    case NotFound => Some(ActionHandlers.ProviderNotFound)
    case StillUnknown(code) => Some(code)
  }

  // The second transaction of `reconcile_pending_action`.
  function CloseReconciliation(db: Tables, id: ActionId, operator: UserId, verdict: ActionHandlers.Verdict, at: Time)
    : (Tables, Result<Row, Error>)
  {
    if id !in db.actions then (db, Err(NotFound))
    else
      var row := db.actions[id];
      if !row.status.ReconciliationRequired? then (db, Ok(row))
      else
        var row' :=
          match verdict
          case Found(externalId) =>
            row.(status := Succeeded, result := Some(externalId), errorCode := None, processedAt := Some(at))
          case NotFound => row.(status := Failed, result := None, errorCode := ErrorOf(verdict),
                                processedAt := Some(at))
          case StillUnknown(code) =>
            row.(errorCode := Some(code), reconciliationReason := Some(code), reconciliationRequiredAt := Some(at));
        (db.With(id, row', Event(OperatorReconciled, ReconciliationRequired, row'.status, Some(operator),
                                 row.attemptToken, ErrorOf(verdict))),
         Ok(row'))
  }

  // ---------- Expiry sweep and retention ----------

  // Pending past its expiry, and not locked by an approval under way.
  predicate Stale(db: Tables, locked: set<ActionId>, id: ActionId, now: Time) {
    id in db.actions && id !in locked && db.actions[id].status.Pending? && db.actions[id].expiresAt <= now
  }

  function StaleIds(db: Tables, locked: set<ActionId>, now: Time): set<ActionId> {
    set id | id in db.actions && Stale(db, locked, id, now)
  }

  function SetOf(ids: seq<ActionId>): set<ActionId> {
    set id | id in ids
  }

  const SWEPT_EVENT := Event(ExpiredUnapproved, Pending, Expired, None, None, Some(ActionHandlers.SweptAfterExpiry))

  function Swept(row: Row, now: Time): Row {
    row.(status := Expired, processedAt := Some(now))
  }

  // `expire_stale_actions`: every row of the set expires, with one audit event each.
  function ExpireAll(db: Tables, ids: set<ActionId>, now: Time): Tables
    requires ids <= db.actions.Keys
  {
    db.(actions := map id | id in db.actions :: if id in ids then Swept(db.actions[id], now) else db.actions[id],
        audit := map id | id in db.audit.Keys + ids :: if id in ids then db.Log(id) + [SWEPT_EVENT] else db.audit[id])
  }

  predicate Deletable(row: Row, cutoff: Time) {
    Resolved(row.status) && row.processedAt.Some? && row.processedAt.value < cutoff
  }

  function DeletableIds(db: Tables, cutoff: Time): set<ActionId> {
    set id | id in db.actions && Deletable(db.actions[id], cutoff)
  }

  function DeleteResolved(db: Tables, cutoff: Time): Tables {
    db.(actions := map id | id in db.actions && !Deletable(db.actions[id], cutoff) :: db.actions[id],
        audit := map id | id in db.audit && !(id in db.actions && Deletable(db.actions[id], cutoff)) :: db.audit[id])
  }

  // `cleanup_retained_records`, as far as pending actions are concerned.
  function Cleanup(db: Tables, locked: set<ActionId>, now: Time, retention: Time): Tables {
    DeleteResolved(ExpireAll(db, StaleIds(db, locked, now), now), now - retention)
  }
}
