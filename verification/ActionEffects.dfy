// What each transaction on a pending action does to the tables and answers, written out
// (server/services/pending_actions.py), and what a stored rejection or operator's verdict goes back
// to, for every run.

module ActionEffects {
  import opened Common
  import opened ActionPayloads
  import ActionHandlers
  import ActionVerdicts
  import opened ActionRows
  import opened ActionProtocol
  import opened ActionSafety
  import opened ActionTheorems

  // ---------- What a transaction changes ----------

  // One row is now `row`, and one event was added to its log.
  ghost predicate Moved(db: Tables, db': Tables, id: ActionId, row: Row, event: Event) {
    && db'.actions.Keys == db.actions.Keys + {id} && db'.actions[id] == row
    && (forall other <- db.actions :: other != id ==> db'.actions[other] == db.actions[other])
    && db'.Log(id) == db.Log(id) + [event]
    && (forall other :: other != id ==> db'.Log(other) == db.Log(other))
  }

  // The caller is told the stored row, or an error and nothing changed.
  ghost predicate Answers(db: Tables, db': Tables, id: ActionId, r: Result<Row, Error>) {
    match r
    case Ok(row) => id in db'.actions && db'.actions[id] == row
    case Err(_) => db' == db
  }

  // `row` with the outcome unknown for this reason.
  predicate BecameUnknown(row: Row, row': Row, reason: Code, at: Time) {
    && row'.status.ReconciliationRequired? && row'.errorCode == Some(reason)
    && row'.reconciliationReason == Some(reason) && row'.reconciliationRequiredAt == Some(at)
    && row'.processedAt == Some(at)
    && SameAttempt(row, row') && row'.result == row.result
  }

  // Command, approval and attempt are as they were.
  predicate SameAttempt(row: Row, row': Row) {
    && SameCommandRow(row, row') && row'.payload == row.payload
    && row'.approvedAt == row.approvedAt && row'.attemptToken == row.attemptToken
    && row'.attemptCount == row.attemptCount && row'.attemptStartedAt == row.attemptStartedAt
    && row'.leaseExpiresAt == row.leaseExpiresAt
  }

  predicate SameReason(row: Row, row': Row) {
    && row'.reconciliationReason == row.reconciliationReason
    && row'.reconciliationRequiredAt == row.reconciliationRequiredAt
  }

  predicate Owned(db: Tables, id: ActionId, user: UserId) {
    id in db.actions && db.actions[id].owner == user
  }

  // ---------- Transaction by transaction ----------

  // A new command is stored canonical, pending and unattempted for 15 minutes, with an empty log.
  lemma StagedExactly(codec: Codec, db: Tables, owner: UserId, kind: Kind, payload: Payload, key: string,
                      newId: ActionId, now: Time)
    requires newId !in db.actions && newId !in db.audit
    requires forall id <- db.actions :: !SameCommand(db.actions[id], owner, key)
    ensures var (db', r) := Create(codec, db, owner, kind, payload, key, newId, now);
            var canonical := Canonicalize(codec.lib, kind, payload);
            if ActionHandlers.ValidCommandKey(key) && canonical.Some? then
              && r == Ok(newId) && db'.actions.Keys == db.actions.Keys + {newId} && db'.nextToken == db.nextToken
              && db'.actions[newId] ==
                   Row(owner, kind, canonical.value, codec.hash(canonical.value), key, now, now + 900_000_000, Pending,
                       None, None, None, 0, None, None, None, None, None, None)
              && newId in db'.audit && db'.audit[newId] == []
              && (forall id <- db.actions :: db'.actions[id] == db.actions[id])
              && (forall id <- db.audit :: id in db'.audit && db'.audit[id] == db.audit[id])
            else r == Err(InvalidCommand) && db' == db
  {
  }

  // The owner's rejection takes a pending action out of circulation; repeated, or after the expiry,
  // it changes nothing.
  lemma RejectedExactly(db: Tables, id: ActionId, user: UserId, at: Time)
    ensures var (db', r) := RejectAction(db, id, user, at);
            && Answers(db, db', id, r) && db'.nextToken == db.nextToken
            && (r == Err(Error.NotFound) <==> !Owned(db, id, user))
            && (Owned(db, id, user) ==>
                  var row := db.actions[id];
                  && (r.Ok? <==> row.status.Pending? || row.status.Rejected? || row.status.Expired?)
                  && (row.status.Pending? ==>
                        && r.value.status.Rejected? && r.value.processedAt == Some(at)
                        && SameAttempt(row, r.value) && SameReason(row, r.value)
                        && r.value.result == row.result && r.value.errorCode == row.errorCode
                        && Moved(db, db', id, r.value,
                                 Event(RejectedByOwner, Pending, Rejected, Some(user), row.attemptToken, None)))
                  && (!row.status.Pending? ==> db' == db))
  {
  }

  // The owner's approval.
  lemma ClaimedExactly(codec: Codec, db: Tables, id: ActionId, user: UserId, now: Time, at: Time)
    requires Owned(db, id, user)
    ensures var (db', r) := ClaimAction(codec, db, id, user, now, at);
            var row := db.actions[id];
            && r.Ok? && id in db'.actions && r.value.0 == db'.actions[id]
            && (r.value.1 <==> row.status.Pending? && now < row.expiresAt && Intact(codec, row))
            && if r.value.1 then Approved(db, db', id, user, now)
               else
                 && db'.nextToken == db.nextToken
                 && if row.status.Pending? && row.expiresAt <= now then
                      && r.value.0.status.Expired? && r.value.0.processedAt == Some(now)
                      && SameAttempt(row, r.value.0) && SameReason(row, r.value.0)
                      && r.value.0.result == row.result && r.value.0.errorCode == row.errorCode
                      && Moved(db, db', id, r.value.0,
                               Event(ExpiredUnapproved, Pending, Expired, None, row.attemptToken, None))
                    else if row.status.Pending? then
                      GaveUp(db, db', id, ActionHandlers.PayloadIntegrityMismatch, at, None, MarkedForReconciliation)
                    else if row.status.Processing? && LeaseOver(row, now) then
                      GaveUp(db, db', id, ActionHandlers.ProcessingLeaseExpired, at, None, MarkedForReconciliation)
                    else db' == db
  {
    hide Intact;
  }

  // The first attempt begins under a fresh token and a lease of two minutes.
  ghost predicate Approved(db: Tables, db': Tables, id: ActionId, user: UserId, now: Time)
    requires id in db.actions && id in db'.actions
  {
    var row, row' := db.actions[id], db'.actions[id];
    && row'.status.Processing? && row'.approvedAt == Some(now) && row'.attemptToken == Some(db.nextToken)
    && row'.attemptCount == row.attemptCount + 1 && row'.attemptStartedAt == Some(now)
    && row'.leaseExpiresAt == Some(now + 120_000_000)
    && SameCommandRow(row, row') && row'.payload == row.payload && SameReason(row, row')
    && row'.result == row.result && row'.errorCode == row.errorCode && row'.processedAt == row.processedAt
    && Moved(db, db', id, row', Event(Claimed, Pending, Processing, Some(user), Some(db.nextToken), None))
    && db'.nextToken == db.nextToken + 1
  }

  // The action now waits for an operator, for this reason.
  ghost predicate GaveUp(db: Tables, db': Tables, id: ActionId, reason: Code, at: Time, actor: Option<UserId>,
                         eventType: EventType)
  {
    && id in db.actions && id in db'.actions && BecameUnknown(db.actions[id], db'.actions[id], reason, at)
    && Moved(db, db', id, db'.actions[id],
             Event(eventType, db.actions[id].status, ReconciliationRequired, actor, db.actions[id].attemptToken,
                   Some(reason)))
  }

  // Outcome and time of a row that was resolved.
  predicate Settled(row: Row, row': Row, status: Status, result: Option<string>, errorCode: Option<Code>, at: Time) {
    && row'.status == status && row'.result == result && row'.errorCode == errorCode && row'.processedAt == Some(at)
    && SameAttempt(row, row') && SameReason(row, row')
  }

  // A finalizer acts for the attempt under way alone, and within its lease stores what it asks for.
  lemma FinalizedExactly(db: Tables, id: ActionId, token: Token, request: Request, now: Time, at: Time)
    requires id in db.actions
    ensures var (db', r) := Finalize(db, id, Some(token), request, now, at);
            var row := db.actions[id];
            && r.Ok? && Answers(db, db', id, r) && db'.nextToken == db.nextToken
            && if !row.status.Processing? || row.attemptToken != Some(token) then db' == db
               else if LeaseOver(row, now) then
                 GaveUp(db, db', id, ActionHandlers.ProcessingLeaseExpired, at, None, MarkedForReconciliation)
               else if request.status.ReconciliationRequired? then
                 GaveUp(db, db', id, request.errorCode.GetOr(ActionHandlers.ProviderOutcomeUnknown), at, None,
                        request.eventType)
               else
                 && Settled(row, r.value, request.status, request.result, request.errorCode, at)
                 && Moved(db, db', id, r.value,
                          Event(request.eventType, Processing, request.status, None, Some(token), request.errorCode))
  {
  }

  // An operator takes up an action whose outcome is unknown or whose lease ran out, and no other.
  lemma OpenedExactly(db: Tables, id: ActionId, operator: UserId, now: Time, at: Time)
    requires id in db.actions
    ensures var (db', r) := OpenReconciliation(db, id, operator, now, at);
            var row := db.actions[id];
            && Answers(db, db', id, r) && db'.nextToken == db.nextToken
            && (r.Ok? <==> row.status.ReconciliationRequired? || (row.status.Processing? && LeaseOver(row, now)))
            && (row.status.Processing? && LeaseOver(row, now) ==>
                  GaveUp(db, db', id, ActionHandlers.ProcessingLeaseExpired, at, Some(operator),
                         OperatorPromotedExpiredLease))
            && (!row.status.Processing? ==> db' == db)
  {
  }

  // The operator's verdict is stored while the outcome is unknown, and only then.
  lemma ReconciledExactly(db: Tables, id: ActionId, operator: UserId, verdict: ActionHandlers.Verdict, at: Time)
    requires id in db.actions
    ensures var (db', r) := CloseReconciliation(db, id, operator, verdict, at);
            var row := db.actions[id];
            && r.Ok? && Answers(db, db', id, r) && db'.nextToken == db.nextToken
            && if !row.status.ReconciliationRequired? then db' == db
               else
                 && Told(row, r.value, verdict, at)
                 && var reason := if verdict.Found? then None else r.value.errorCode;
                    Moved(db, db', id, r.value,
                          Event(OperatorReconciled, ReconciliationRequired, r.value.status, Some(operator),
                                row.attemptToken, reason))
  {
  }

  predicate Told(row: Row, row': Row, verdict: ActionHandlers.Verdict, at: Time) {
    match verdict
    case Found(externalId) => Settled(row, row', Succeeded, Some(externalId), None, at)
    case NotFound => Settled(row, row', Failed, None, Some(ActionHandlers.ProviderNotFound), at)
    case StillUnknown(code) =>
      && row'.status.ReconciliationRequired? && row'.errorCode == Some(code) && row'.reconciliationReason == Some(code)
      && row'.reconciliationRequiredAt == Some(at) && row'.processedAt == row.processedAt
      && row'.result == row.result && SameAttempt(row, row')
  }

  // Unknown actions, and attempts without a token, are refused.
  lemma UnknownIsRefused(codec: Codec, db: Tables, id: ActionId, user: UserId, request: Request,
                         verdict: ActionHandlers.Verdict, now: Time, at: Time)
    ensures !Owned(db, id, user) ==> ClaimAction(codec, db, id, user, now, at) == (db, Err(Error.NotFound))
    ensures Finalize(db, id, None, request, now, at) == (db, Err(InvalidState))
    ensures id !in db.actions ==>
              && (forall token: Token :: Finalize(db, id, Some(token), request, now, at) == (db, Err(Error.NotFound)))
              && OpenReconciliation(db, id, user, now, at) == (db, Err(Error.NotFound))
              && CloseReconciliation(db, id, user, verdict, at) == (db, Err(Error.NotFound))
  {
  }

  // A clean-up expires the pending actions past their expiry that no approval holds locked, and
  // deletes the actions resolved before the retention period, with their events; all else stays.
  lemma CleanedExactly(db: Tables, locked: set<ActionId>, now: Time, retention: Time)
    requires retention > 0 && db.audit.Keys == db.actions.Keys
    ensures var db' := Cleanup(db, locked, now, retention);
            && db'.nextToken == db.nextToken
            && (forall id :: id in db'.actions <==>
                  && id in db.actions
                  && !(&& Resolved(db.actions[id].status) && db.actions[id].processedAt.Some?
                       && db.actions[id].processedAt.value + retention < now))
            && db'.audit.Keys == db'.actions.Keys
            && forall id <- db'.actions ::
                 if db.actions[id].status.Pending? && db.actions[id].expiresAt <= now && id !in locked then
                   && db'.actions[id] == db.actions[id].(status := Expired, processedAt := Some(now))
                   && db'.audit[id] == db.audit[id] +
                        [Event(ExpiredUnapproved, Pending, Expired, None, None, Some(ActionHandlers.SweptAfterExpiry))]
                 else db'.actions[id] == db.actions[id] && db'.audit[id] == db.audit[id]
  {
  }

  // ---------- A rejected action is never executed ----------

  lemma {:induction false} NotEnteredUpTo(states: seq<Sys>, actions: seq<Action>, i: nat, j: nat, id: ActionId)
    requires IsRun(states, actions) && j <= i < |states| && Entries(states, actions, i, id) == 0
    ensures Entries(states, actions, j, id) == 0
  {
    if j < i {
      hide IsRun, Enters;
      NotEnteredUpTo(states, actions, i - 1, j, id);
    }
  }

  lemma RejectionCloses(s: Sys, id: ActionId, user: UserId, at: Time)
    requires Inv(s) && id in s.db.actions && s.db.actions[id].owner == user && s.db.actions[id].status.Pending?
    ensures var s' := Act(s, OwnerRejects(id, user, at));
            && id !in s.effects && Closed(s', id) && Unsent(s', id)
            && id in s'.db.actions && s'.db.actions[id].status.Rejected?
  {
    hide GrantOk, Replays, RequestOk, ArtifactsOk;
    var s' := Act(s, OwnerRejects(id, user, at));
    assert RowOk(s, id);
    forall p: ProcId ensures !(s'.PcOf(p).Holding? && s'.PcOf(p).id == id) {
      assert PcOk(s, p) && s'.PcOf(p) == s.PcOf(p);
    }
  }

  // Once the owner has rejected a pending action, its execution is entered nowhere in the run, and
  // while it is stored it stays rejected.
  lemma RejectedIsNeverEntered(states: seq<Sys>, actions: seq<Action>, i: nat, j: nat, id: ActionId)
    requires IsRun(states, actions) && i < |actions| && j < |actions| && actions[i].OwnerRejects? && actions[i].id == id
    requires Owned(states[i].db, id, actions[i].user) && states[i].db.actions[id].status.Pending?
    ensures !Enters(states[j], actions[j], id) && actions[j] != Send(id)
    ensures i < j && (forall k :: i < k <= j ==> id in states[k].db.actions) ==>
              states[j].db.actions[id].status.Rejected?
  {
    RunsKeepInv(states, actions, i);
    hide Inv;
    RejectionCloses(states[i], id, actions[i].user, actions[i].at);
    if i < j {
      hide Act, Init, Unsent, Closed;
      UnsentForEver(states, actions, i + 1, j, id);
      UnsentIsIdle(states[j], actions[j], id);
      if forall k :: i < k <= j ==> id in states[k].db.actions {
        ResolvedStays(states, actions, i + 1, j, id);
      }
    } else if j < i {
      MarksCount(states, actions, i, id);
      hide IsRun, Act, Enters;
      NotEnteredUpTo(states, actions, i, j, id);
      NotEnteredUpTo(states, actions, i, j + 1, id);
      MarksCount(states, actions, j, id);
      UnenteredIsUnsent(states, actions, j, id);
    }
  }

  lemma UnsentIsIdle(s: Sys, a: Action, id: ActionId)
    requires Unsent(s, id) && Enabled(s, a)
    ensures !Enters(s, a, id) && a != Send(id)
  {
  }

  lemma UnenteredIsUnsent(states: seq<Sys>, actions: seq<Action>, j: nat, id: ActionId)
    requires IsRun(states, actions) && j < |actions| && EntryMark(states[j], id) == 0
    ensures actions[j] != Send(id)
  {
    assert Enabled(states[j], actions[j]);
  }

  // ---------- What a stored outcome goes back to ----------

  // The step in which a handler of the action came to ask for this outcome, and why.
  ghost predicate Asked(s: Sys, a: Action, id: ActionId, request: Request) {
    && Enabled(s, a)
    && match a
       case ServicesMissing(p, code) =>
         s.PcOf(p).id == id && request == Request(Failed, None, Some(code), PreDispatchFailed)
       case CallerGivesUp(p) =>
         s.PcOf(p).id == id && request.status.ReconciliationRequired? && request.eventType.OutcomeAmbiguous?
       case EndExecution(p, available, world) =>
         s.PcOf(p).id == id && Reported(s, s.PcOf(p).row, available, world, request)
       case _ => false
  }

  // What the executor asks for after what the provider answered.
  ghost predicate Reported(s: Sys, row: Row, available: bool, world: ActionHandlers.World, request: Request)
    requires ActionHandlers.Chain(world.lists)
  {
    var canonical := Canonical(s, row);
    var sent := ActionVerdicts.SendsAny(row.kind, canonical, available, world);
    match request.status
    case Succeeded =>
      && request.eventType.SucceededByExecutor? && request.errorCode.None?
      && sent && request.result.Some? && request.result.value != ""
      && world.write == ActionHandlers.Answered(request.result)
    case Failed =>
      && request.eventType.ConfirmedFailure? && request.errorCode.Some? && request.result.None?
      && if sent then world.write.Rejected? && !(row.kind.CreateEvent? && world.write.status == Some(409))
         else ActionVerdicts.RefusedBefore(row.kind, canonical, available, world)
    case ReconciliationRequired => request.eventType.OutcomeAmbiguous? || request.eventType.ExecutionInterrupted?
    case _ => false
  }

  lemma ReportIs(s: Sys, row: Row, available: bool, world: ActionHandlers.World)
    requires ActionHandlers.Chain(world.lists)
    ensures Reported(s, row, available, world,
                     RequestFor(ActionHandlers.Execute(row.kind, Canonical(s, row), available, world).0))
  {
    hide Canonical, ActionHandlers.Execute, ActionHandlers.Chain, ActionVerdicts.SendsAny, ActionVerdicts.RefusedBefore;
    var outcome := ActionHandlers.Execute(row.kind, Canonical(s, row), available, world).0;
    var id := if outcome.Done? then outcome.externalId else "";
    ActionVerdicts.OutcomeIs(row.kind, Canonical(s, row), available, world, id);
  }

  // The lookup that an operator's verdict rests on.
  ghost predicate Judged(s: Sys, a: Action, id: ActionId, verdict: ActionHandlers.Verdict) {
    && Enabled(s, a) && a.LookUp? && s.PcOf(a.p).id == id
    && var row := s.PcOf(a.p).row;
       var canonical := CanonicalOf(s, row);
       match verdict
       case Found(externalId) =>
         && canonical.Some?
         && ActionVerdicts.Present(row.kind, canonical.value, row.commandKey, a.evidence, externalId)
       case NotFound => canonical.Some? && ActionVerdicts.Absent(row.kind, a.evidence)
       case StillUnknown(_) => true
  }

  lemma LookUpJudges(s: Sys, a: Action)
    requires Enabled(s, a) && a.LookUp?
    ensures var pc := Act(s, a).PcOf(a.p);
            pc.Deciding? && pc.id == s.PcOf(a.p).id && Judged(s, a, pc.id, pc.verdict)
  {
    hide Canonicalize, ActionVerdicts.Present, ActionVerdicts.Absent, ActionHandlers.Reconcile, Truthful,
         ActionHandlers.Fits;
    var row := s.PcOf(a.p).row;
    var canonical := CanonicalOf(s, row);
    var verdict := ActionHandlers.Reconcile(row.kind, canonical, row.commandKey, a.evidence);
    assert Act(s, a).PcOf(a.p).verdict == verdict;
    ActionVerdicts.NotFoundIff(row.kind, canonical, row.commandKey, a.evidence);
    if verdict.Found? {
      ActionVerdicts.FoundIff(row.kind, canonical, row.commandKey, a.evidence, verdict.externalId);
    }
  }

  // A handler that has something to store got it in the step before, or had it already.
  ghost predicate Informed(s: Sys, a: Action, pc: Pc) {
    && (pc.Finishing? ==> Asked(s, a, pc.id, pc.request))
    && (pc.Deciding? ==> Judged(s, a, pc.id, pc.verdict))
  }

  lemma HandlersAreInformed(s: Sys, a: Action, p: ProcId)
    requires Enabled(s, a)
    ensures Act(s, a).PcOf(p) == s.PcOf(p) || Informed(s, a, Act(s, a).PcOf(p))
  {
    hide Create, ClaimAction, RejectAction, Cleanup, Finalize, OpenReconciliation, CloseReconciliation, Consistent,
         Canonical, ActionHandlers.Execute, Truthful, Foreign, Written, ActionHandlers.Reconcile, Reported, Judged,
         RequestFor, ActionHandlers.Fits;
    if a.LookUp? {
      LookUpJudges(s, a);
    } else if a.EndExecution? {
      ReportIs(s, s.PcOf(a.p).row, a.available, a.world);
    } else if a.CallerGivesUp? {
      GivenUp();
    }
  }

  lemma GivenUp()
    ensures var request := RequestFor(ActionHandlers.Ambiguous(ActionHandlers.ProviderOutcomeUnknown));
            request.status.ReconciliationRequired? && request.eventType.OutcomeAmbiguous?
  {
  }

  ghost predicate WasInformed(states: seq<Sys>, actions: seq<Action>, i: nat, pc: Pc)
    requires |states| == |actions| + 1 && i < |states|
  {
    exists k :: 0 <= k < i && Informed(states[k], actions[k], pc)
  }

  lemma {:induction false} HandlersWereInformed(states: seq<Sys>, actions: seq<Action>, i: nat, p: ProcId)
    requires IsRun(states, actions) && i < |states| && (states[i].PcOf(p).Finishing? || states[i].PcOf(p).Deciding?)
    ensures WasInformed(states, actions, i, states[i].PcOf(p))
  {
    hide Act, Enabled, Informed;
    if i > 0 {
      HandlersAreInformed(states[i - 1], actions[i - 1], p);
      if states[i].PcOf(p) == states[i - 1].PcOf(p) {
        HandlersWereInformed(states, actions, i - 1, p);
      }
    }
  }

  // ---------- Success and failure ----------

  predicate Concluded(row: Row) {
    row.status.Succeeded? || row.status.Failed?
  }

  // What is told of an outcome.
  predicate SameConclusion(db: Tables, db': Tables, id: ActionId) {
    && id in db.actions && id in db'.actions
    && db'.actions[id].status == db.actions[id].status && db'.actions[id].result == db.actions[id].result
    && db'.actions[id].errorCode == db.actions[id].errorCode && db'.Log(id) == db.Log(id)
  }

  predicate LastIs(db: Tables, id: ActionId, eventType: EventType) {
    db.Log(id) != [] && db.Log(id)[|db.Log(id)| - 1].eventType == eventType
  }

  // The handler that stored the outcome had this verdict or request.
  predicate StoredBy(db: Tables, id: ActionId, pc: Pc)
    requires id in db.actions
  {
    var row := db.actions[id];
    match pc
    case Finishing(id', _, request) =>
      && id' == id && request == Request(row.status, row.result, row.errorCode, request.eventType)
      && LastIs(db, id, request.eventType)
    case Deciding(id', _, _, verdict) =>
      && id' == id && LastIs(db, id, OperatorReconciled)
      && if row.status.Succeeded? then
           row.errorCode.None? && row.result.Some? && verdict == ActionHandlers.Found(row.result.value)
         else row.errorCode == Some(ActionHandlers.ProviderNotFound) && row.result.None? && verdict.NotFound?
    case _ => false
  }

  lemma FinalizedConclusion(db: Tables, id: ActionId, pc: Pc, now: Time, at: Time)
    requires pc.Finishing?
    ensures var db' := Finalize(db, pc.id, pc.token, pc.request, now, at).0;
            id in db'.actions && Concluded(db'.actions[id]) ==> SameConclusion(db, db', id) || StoredBy(db', id, pc)
  {
  }

  lemma ReconciledConclusion(db: Tables, id: ActionId, pc: Pc, at: Time)
    requires pc.Deciding?
    ensures var db' := CloseReconciliation(db, pc.id, pc.operator, pc.verdict, at).0;
            id in db'.actions && Concluded(db'.actions[id]) ==> SameConclusion(db, db', id) || StoredBy(db', id, pc)
  {
  }

  lemma OtherTransactionsConcludeNothing(codec: Codec, db: Tables, id: ActionId, other: ActionId, user: UserId,
                                         now: Time, at: Time)
    ensures var db' := RejectAction(db, other, user, at).0;
            id in db'.actions && Concluded(db'.actions[id]) ==> SameConclusion(db, db', id)
    ensures var db' := ClaimAction(codec, db, other, user, now, at).0;
            id in db'.actions && Concluded(db'.actions[id]) ==> SameConclusion(db, db', id)
    ensures var db' := OpenReconciliation(db, other, user, now, at).0;
            id in db'.actions && Concluded(db'.actions[id]) ==> SameConclusion(db, db', id)
  {
    hide Intact;
  }

  lemma NewIdsAreNew(s: Sys, a: Action)
    requires Inv(s) && Enabled(s, a)
    ensures s.db.audit.Keys == s.db.actions.Keys
    ensures a.StagePayload? ==> a.newId !in s.db.actions
  {
    hide GrantOk, Unsent, Replays, PcOk, ArtifactsOk;
    forall id <- s.db.actions ensures id in s.used {
      assert RowOk(s, id);
    }
  }

  lemma StagingConcludesNothing(s: Sys, a: Action, id: ActionId)
    requires Enabled(s, a) && a.StagePayload? && a.newId !in s.db.actions && s.db.audit.Keys == s.db.actions.Keys
    ensures var db' := Act(s, a).db;
            id in db'.actions && Concluded(db'.actions[id]) ==> SameConclusion(s.db, db', id)
  {
    hide Canonicalize, ActionHandlers.ValidCommandKey;
  }

  lemma CleaningConcludesNothing(db: Tables, id: ActionId, locked: set<ActionId>, now: Time, retention: Time)
    requires retention > 0 && db.audit.Keys == db.actions.Keys
    ensures var db' := Cleanup(db, locked, now, retention);
            id in db'.actions && Concluded(db'.actions[id]) ==> SameConclusion(db, db', id)
  {
  }

  lemma ConcludingStep(s: Sys, a: Action, id: ActionId)
    requires Inv(s) && Enabled(s, a) && id in Act(s, a).db.actions && Concluded(Act(s, a).db.actions[id])
    ensures var db' := Act(s, a).db;
            || SameConclusion(s.db, db', id)
            || ((a.FinalizeAttempt? || a.EndReconciliation?) && StoredBy(db', id, s.PcOf(a.p)))
  {
    hide Create, ClaimAction, RejectAction, Cleanup, Finalize, OpenReconciliation, CloseReconciliation, Consistent,
         Canonical, ActionHandlers.Execute, GrantOk, Unsent, Truthful, Foreign, Written, ActionHandlers.Reconcile,
         Inv, StoredBy, Concluded;
    NewIdsAreNew(s, a);
    match a
    case StagePayload(_, _, _, _, _, _) => StagingConcludesNothing(s, a, id);
    case OwnerRejects(other, user, at) => OtherTransactionsConcludeNothing(s.codec, s.db, id, other, user, 0, at);
    case CleanUp(locked, now, retention) => CleaningConcludesNothing(s.db, id, locked, now, retention);
    case Approve(p, other, user, now, at) => OtherTransactionsConcludeNothing(s.codec, s.db, id, other, user, now, at);
    case FinalizeAttempt(p, now, at) => FinalizedConclusion(s.db, id, s.PcOf(p), now, at);
    case BeginReconciliation(p, other, operator, now, at) =>
      OtherTransactionsConcludeNothing(s.codec, s.db, id, other, operator, now, at);
    case EndReconciliation(p, at) => ReconciledConclusion(s.db, id, s.PcOf(p), at);
    case EditPayload(_, _) =>
    case _ => assert Act(s, a).db == s.db;
  }

  // ---------- The grounds of a conclusion ----------

  // This step found what the stored success or failure says: an operator's lookup showed the
  // command's own artifact, or said that there is none; the provider answered the marked write with
  // an ID, or refused it, or nothing had been sent.
  ghost predicate Grounds(s: Sys, a: Action, id: ActionId, row: Row, last: EventType) {
    && Enabled(s, a)
    && match a
       case LookUp(p, e) =>
         var found := s.PcOf(p).row;
         var canonical := CanonicalOf(s, found);
         && s.PcOf(p).id == id && last.OperatorReconciled? && canonical.Some?
         && if row.status.Succeeded? then
              && row.errorCode.None? && row.result.Some?
              && ActionVerdicts.Present(found.kind, canonical.value, found.commandKey, e, row.result.value)
            else
              && row.errorCode == Some(ActionHandlers.ProviderNotFound) && row.result.None?
              && ActionVerdicts.Absent(found.kind, e)
       case EndExecution(p, available, world) =>
         && s.PcOf(p).id == id
         && Reported(s, s.PcOf(p).row, available, world, Request(row.status, row.result, row.errorCode, last))
       case ServicesMissing(p, code) =>
         && s.PcOf(p).id == id && last.PreDispatchFailed?
         && row.status.Failed? && row.errorCode == Some(code) && row.result.None?
       case _ => false
  }

  lemma InformedIsGrounds(s: Sys, a: Action, db: Tables, id: ActionId, pc: Pc)
    requires id in db.actions && Concluded(db.actions[id]) && StoredBy(db, id, pc) && Informed(s, a, pc)
    ensures Grounds(s, a, id, db.actions[id], db.Log(id)[|db.Log(id)| - 1].eventType)
  {
    hide Reported, Enabled, CanonicalOf, ActionVerdicts.Present, ActionVerdicts.Absent;
  }

  ghost predicate HasGrounds(states: seq<Sys>, actions: seq<Action>, i: nat, id: ActionId, row: Row, last: EventType)
    requires |states| == |actions| + 1 && i < |states|
  {
    exists k :: 0 <= k < i && Grounds(states[k], actions[k], id, row, last)
  }

  // Main result.  A success or a failure is stored with its event, and its result and error are
  // those of an earlier step of a handler of this action that found it so.
  lemma {:induction false} ConclusionsHaveGrounds(states: seq<Sys>, actions: seq<Action>, i: nat, id: ActionId)
    requires IsRun(states, actions) && i < |states|
    requires id in states[i].db.actions && Concluded(states[i].db.actions[id])
    ensures var db := states[i].db;
            && db.Log(id) != []
            && HasGrounds(states, actions, i, id, db.actions[id], db.Log(id)[|db.Log(id)| - 1].eventType)
  {
    hide Act, Enabled, Inv, Grounds, StoredBy, Informed, Concluded;
    if i == 0 {
      assert false;
    } else {
      var s, a := states[i - 1], actions[i - 1];
      RunsKeepInv(states, actions, i - 1);
      ConcludingStep(s, a, id);
      if SameConclusion(s.db, states[i].db, id) {
        ConcludedToo(s.db, states[i].db, id);
        ConclusionsHaveGrounds(states, actions, i - 1, id);
        SameGrounds(states, actions, i, id, s.db.actions[id], states[i].db.actions[id]);
      } else {
        var pc := s.PcOf(a.p);
        StorersHaveSomething(states[i].db, id, pc);
        HandlersWereInformed(states, actions, i - 1, a.p);
        var k :| 0 <= k < i - 1 && Informed(states[k], actions[k], pc);
        InformedIsGrounds(states[k], actions[k], states[i].db, id, pc);
      }
    }
  }

  lemma ConcludedToo(db: Tables, db': Tables, id: ActionId)
    requires SameConclusion(db, db', id) && Concluded(db'.actions[id])
    ensures Concluded(db.actions[id])
  {
  }

  lemma StorersHaveSomething(db: Tables, id: ActionId, pc: Pc)
    requires id in db.actions && StoredBy(db, id, pc)
    ensures pc.Finishing? || pc.Deciding?
    ensures db.Log(id) != []
  {
  }

  lemma SameGrounds(states: seq<Sys>, actions: seq<Action>, i: nat, id: ActionId, row: Row, row': Row)
    requires 0 < i < |states| && |states| == |actions| + 1
    requires row'.status == row.status && row'.result == row.result && row'.errorCode == row.errorCode
    ensures forall last ::
              HasGrounds(states, actions, i - 1, id, row, last) ==> HasGrounds(states, actions, i, id, row', last)
  {
    forall k: nat, last | k < i && Grounds(states[k], actions[k], id, row, last)
      ensures Grounds(states[k], actions[k], id, row', last)
    {
      GroundsOf(states[k], actions[k], id, row, row', last);
    }
  }

  lemma GroundsOf(s: Sys, a: Action, id: ActionId, row: Row, row': Row, last: EventType)
    requires Grounds(s, a, id, row, last)
    requires row'.status == row.status && row'.result == row.result && row'.errorCode == row.errorCode
    ensures Grounds(s, a, id, row', last)
  {
    hide Enabled, Reported, CanonicalOf, ActionVerdicts.Present, ActionVerdicts.Absent;
  }

  // In particular, an operator's `failed` goes back to a lookup of this action whose search was
  // answered without a match, or to which the provider said 404.
  lemma OperatorFailuresAreAbsences(states: seq<Sys>, actions: seq<Action>, i: nat, id: ActionId) returns (k: nat)
    requires IsRun(states, actions) && i < |states| && id in states[i].db.actions
    requires states[i].db.actions[id].status.Failed? && LastIs(states[i].db, id, OperatorReconciled)
    ensures k < i && Enabled(states[k], actions[k]) && actions[k].LookUp?
    ensures var pc := states[k].PcOf(actions[k].p);
            && pc.id == id && CanonicalOf(states[k], pc.row).Some?
            && ActionVerdicts.Absent(pc.row.kind, actions[k].evidence)
  {
    ConclusionsHaveGrounds(states, actions, i, id);
    var db := states[i].db;
    hide IsRun, CanonicalOf, ActionVerdicts.Absent, ActionVerdicts.Present;
    k :| k < i && Grounds(states[k], actions[k], id, db.actions[id], OperatorReconciled);
  }
}
