// The main results about pending actions, for every run.

module ActionTheorems {
  import opened Common
  import opened ActionPayloads
  import ActionHandlers
  import opened ActionRows
  import opened ActionProtocol
  import opened ActionSafety

  // ---------- Every reachable state ----------

  lemma InitIsOk(s: Sys)
    requires Init(s)
    ensures Inv(s)
  {
  }

  lemma {:induction false} RunsKeepInv(states: seq<Sys>, actions: seq<Action>, i: nat)
    requires IsRun(states, actions) && i < |states|
    ensures Inv(states[i])
  {
    hide Inv, Enabled, Act;
    if i == 0 {
      InitIsOk(states[0]);
    } else {
      RunsKeepInv(states, actions, i - 1);
      ActKeepsInv(states[i - 1], actions[i - 1]);
    }
  }

  // The audit log of every stored action starts at pending, is a chain along the status graph, and
  // ends at the stored status; processing is entered at most once, from pending, by the first event.
  lemma AuditReplaysStatus(states: seq<Sys>, actions: seq<Action>, i: nat, id: ActionId)
    requires IsRun(states, actions) && i < |states| && id in states[i].db.actions
    ensures id in states[i].db.audit && Chained(states[i].db.audit[id], states[i].db.actions[id].status)
    ensures var log := states[i].db.audit[id];
            && (forall k :: 0 <= k < |log| && log[k].oldStatus == log[k].newStatus ==>
                  log[k].newStatus.ReconciliationRequired?)
            && (forall k :: 0 <= k < |log| && log[k].newStatus.Processing? ==> k == 0 && log[k].oldStatus.Pending?)
  {
    RunsKeepInv(states, actions, i);
    hide PcOk, HistoryOk, Unsent, IsRun, Replays;
    assert RowOk(states[i], id);
    ReplayIsChained(states[i].db.audit[id], states[i].db.actions[id].status);
    ProcessingComesFirst(states[i].db.audit[id], states[i].db.actions[id].status);
  }

  // No edge of the status graph leads back to pending.
  lemma ProcessingComesFirst(log: seq<Event>, status: Status)
    requires Chained(log, status)
    ensures forall k :: 0 <= k < |log| && log[k].newStatus.Processing? ==> k == 0 && log[k].oldStatus.Pending?
  {
    hide StatusEdge;
    forall k | 0 <= k < |log| ensures log[k].newStatus.Processing? ==> k == 0 && log[k].oldStatus.Pending? {
      EdgeFacts(log[k].oldStatus, log[k].newStatus);
      if k > 0 {
        EdgeFacts(log[k - 1].oldStatus, log[k - 1].newStatus);
      }
    }
  }

  lemma EdgeFacts(a: Status, b: Status)
    requires StatusEdge(a, b)
    ensures !b.Pending? && (b.Processing? ==> a.Pending?)
  {
  }

  // ---------- At most one dispatch ----------

  predicate Enters(s: Sys, a: Action, id: ActionId) {
    a.EnterExecution? && s.PcOf(a.p).Holding? && s.PcOf(a.p).id == id
  }

  // How often the execution of the action was entered, and how often its write was sent.
  function Entries(states: seq<Sys>, actions: seq<Action>, i: nat, id: ActionId): nat
    requires |states| == |actions| + 1 && i < |states|
  {
    if i == 0 then 0
    else Entries(states, actions, i - 1, id) + (if Enters(states[i - 1], actions[i - 1], id) then 1 else 0)
  }

  function Sends(states: seq<Sys>, actions: seq<Action>, i: nat, id: ActionId): nat
    requires |states| == |actions| + 1 && i < |states|
  {
    if i == 0 then 0
    else Sends(states, actions, i - 1, id) + (if actions[i - 1] == Send(id) then 1 else 0)
  }

  // The execution was entered; the write was sent.
  function EntryMark(s: Sys, id: ActionId): nat {
    if id in s.effects then 1 else 0
  }

  function SendMark(s: Sys, id: ActionId): nat {
    if id in s.effects && !s.effects[id].NotSent? then 1 else 0
  }

  lemma EffectsStep(s: Sys, a: Action, id: ActionId)
    requires Inv(s) && Enabled(s, a)
    ensures EntryMark(Act(s, a), id) == EntryMark(s, id) + (if Enters(s, a, id) then 1 else 0)
    ensures SendMark(Act(s, a), id) == SendMark(s, id) + (if a == Send(id) then 1 else 0)
  {
    hide Create, ClaimAction, RejectAction, Cleanup, Finalize, OpenReconciliation, CloseReconciliation, Consistent,
         Canonical, ActionHandlers.Execute, RowOk, GrantOk, Truthful, Foreign, Written, ActionHandlers.Reconcile;
    if a.EnterExecution? {
      assert PcOk(s, a.p);
    }
  }

  lemma {:induction false} MarksCount(states: seq<Sys>, actions: seq<Action>, i: nat, id: ActionId)
    requires IsRun(states, actions) && i < |states|
    ensures Entries(states, actions, i, id) == EntryMark(states[i], id)
    ensures Sends(states, actions, i, id) == SendMark(states[i], id)
  {
    if i > 0 {
      RunsKeepInv(states, actions, i - 1);
      hide Inv, Enabled, Act;
      MarksCount(states, actions, i - 1, id);
      EffectsStep(states[i - 1], actions[i - 1], id);
    }
  }

  // Main result.  Whatever interleaving of approvals, rejections, finalizations, reconciliations,
  // sweeps and crashes: one attempt, one execution, one dispatch.
  lemma AtMostOneDispatch(states: seq<Sys>, actions: seq<Action>, i: nat, id: ActionId)
    requires IsRun(states, actions) && i < |states|
    ensures Sends(states, actions, i, id) <= Entries(states, actions, i, id) <= 1
    ensures id in states[i].db.actions ==> states[i].db.actions[id].attemptCount <= 1
  {
    MarksCount(states, actions, i, id);
    RunsKeepInv(states, actions, i);
    hide IsRun, PcOk, HistoryOk, Unsent, Replays;
  }

  // The write of a finished execution was sent as often as its call trace has a marked call: at most
  // once, by OneMarkedWrite.
  lemma SendsAreTheTrace(states: seq<Sys>, actions: seq<Action>, i: nat)
    requires IsRun(states, actions) && i < |actions| && actions[i].EndExecution?
    ensures var a, s := actions[i], states[i];
            && s.PcOf(a.p).Executing? && ActionHandlers.Chain(a.world.lists)
            && var pc := s.PcOf(a.p);
               var calls := ActionHandlers.Execute(pc.row.kind, Canonical(s, pc.row), a.available, a.world).1;
               Sends(states, actions, i, pc.id) == ActionHandlers.MarkedCount(calls)
  {
    var a, s := actions[i], states[i];
    assert Enabled(s, a);
    MarksCount(states, actions, i, s.PcOf(a.p).id);
    ActionHandlers.OneMarkedWrite(s.PcOf(a.p).row.kind, Canonical(s, s.PcOf(a.p).row), a.available, a.world);
    hide IsRun, ActionHandlers.Execute, Canonical, Sends;
  }

  // The approval that returned True: by the owner, strictly before expiry, of a pending row whose
  // payload matches its stored hash.
  predicate Commits(s: Sys, a: Action, p: ProcId, id: ActionId, payload: Payload) {
    && a.Approve? && a.p == p && a.id == id
    && id in s.db.actions
    && var row := s.db.actions[id];
       && row.status.Pending? && row.owner == a.user && a.now < row.expiresAt
       && Intact(s.codec, row) && row.payload == payload
  }

  lemma GrantStep(s: Sys, a: Action, id: ActionId)
    requires Inv(s) && Enabled(s, a) && id in Act(s, a).grants
    ensures || (id in s.grants && Act(s, a).grants[id] == s.grants[id])
            || Commits(s, a, Act(s, a).grants[id].proc, id, Act(s, a).grants[id].row.payload)
  {
    hide Inv, Create, RejectAction, Cleanup, Finalize, OpenReconciliation, CloseReconciliation, Consistent, Canonical,
         ActionHandlers.Execute, Intact, MarkUnknown, Truthful, Foreign, Written, ActionHandlers.Reconcile;
  }

  lemma {:induction false} GrantsWereCommitted(states: seq<Sys>, actions: seq<Action>, i: nat, id: ActionId)
    requires IsRun(states, actions) && i < |states| && id in states[i].grants
    ensures exists j :: 0 <= j < i
              && Commits(states[j], actions[j], states[i].grants[id].proc, id, states[i].grants[id].row.payload)
  {
    hide Enabled, Act, Inv, Commits;
    if i > 0 {
      RunsKeepInv(states, actions, i - 1);
      GrantStep(states[i - 1], actions[i - 1], id);
      if id in states[i - 1].grants && states[i].grants[id] == states[i - 1].grants[id] {
        GrantsWereCommitted(states, actions, i - 1, id);
      }
    }
  }

  // Execution is entered only after such an approval, by the handler that made it, and with the
  // payload that was approved.
  lemma ExecutionWasApproved(states: seq<Sys>, actions: seq<Action>, i: nat, p: ProcId)
    requires IsRun(states, actions) && i < |actions| && actions[i] == EnterExecution(p)
    ensures states[i].PcOf(p).Holding?
    ensures var pc := states[i].PcOf(p);
            exists j :: 0 <= j < i && Commits(states[j], actions[j], p, pc.id, pc.row.payload)
  {
    assert Enabled(states[i], actions[i]);
    RunsKeepInv(states, actions, i);
    assert PcOk(states[i], p);
    hide IsRun, RowOk, HistoryOk, Enabled, Commits;
    GrantsWereCommitted(states, actions, i, states[i].PcOf(p).id);
  }

  // ---------- What one step does to rows ----------

  predicate SameCommandRow(a: Row, b: Row) {
    && b.owner == a.owner && b.kind == a.kind && b.payloadHash == a.payloadHash && b.commandKey == a.commandKey
    && b.createdAt == a.createdAt && b.expiresAt == a.expiresAt
  }

  // Only resolved rows disappear; statuses move along the graph; a resolved row keeps its verdict.
  predicate Lawful(db: Tables, db': Tables) {
    forall id <- db.actions ::
      var row := db.actions[id];
      if id !in db'.actions then Resolved(row.status)
      else
        && SameCommandRow(row, db'.actions[id])
        && (db'.actions[id].status == row.status || StatusEdge(row.status, db'.actions[id].status))
        && (Resolved(row.status) ==> db'.actions[id] == row.(payload := db'.actions[id].payload))
  }

  lemma ClaimIsLawful(codec: Codec, db: Tables, id: ActionId, user: UserId, now: Time, at: Time)
    ensures Lawful(db, ClaimAction(codec, db, id, user, now, at).0)
  {
    hide Intact;
    var db' := ClaimAction(codec, db, id, user, now, at).0;
    if db' != db {
      OneRowIsLawful(db, db', id);
    }
  }

  lemma RejectIsLawful(db: Tables, id: ActionId, user: UserId, at: Time)
    ensures Lawful(db, RejectAction(db, id, user, at).0)
  {
  }

  lemma FinalizeIsLawful(db: Tables, id: ActionId, token: Option<Token>, request: Request, now: Time, at: Time)
    requires StatusEdge(Processing, request.status)
    ensures Lawful(db, Finalize(db, id, token, request, now, at).0)
  {
    var db' := Finalize(db, id, token, request, now, at).0;
    if db' != db {
      OneRowIsLawful(db, db', id);
    }
  }

  lemma ReconcileIsLawful(db: Tables, id: ActionId, operator: UserId, verdict: ActionHandlers.Verdict, now: Time,
                          at: Time)
    ensures Lawful(db, OpenReconciliation(db, id, operator, now, at).0)
    ensures Lawful(db, CloseReconciliation(db, id, operator, verdict, at).0)
  {
    OpeningIsLawful(db, id, operator, now, at);
    hide OpenReconciliation;
    if id in db.actions && db.actions[id].status.ReconciliationRequired? {
      var db' := CloseReconciliation(db, id, operator, verdict, at).0;
      OneRowIsLawful(db, db', id);
    }
  }

  // One row changes lawfully.
  lemma OneRowIsLawful(db: Tables, db': Tables, id: ActionId)
    requires id in db.actions && id in db'.actions && db'.actions == db.actions[id := db'.actions[id]]
    requires var row, row' := db.actions[id], db'.actions[id];
             SameCommandRow(row, row') && StatusEdge(row.status, row'.status)
    ensures Lawful(db, db')
  {
  }

  lemma OpeningIsLawful(db: Tables, id: ActionId, operator: UserId, now: Time, at: Time)
    ensures Lawful(db, OpenReconciliation(db, id, operator, now, at).0)
  {
    var db' := OpenReconciliation(db, id, operator, now, at).0;
    if db' != db {
      OneRowIsLawful(db, db', id);
    }
  }

  lemma CreateIsLawful(codec: Codec, db: Tables, owner: UserId, kind: Kind, payload: Payload, key: string,
                       newId: ActionId, now: Time)
    requires newId !in db.actions
    ensures Lawful(db, Create(codec, db, owner, kind, payload, key, newId, now).0)
  {
    hide Canonicalize;
  }

  lemma CleanupIsLawful(db: Tables, locked: set<ActionId>, now: Time, retention: Time)
    requires retention > 0
    ensures Lawful(db, Cleanup(db, locked, now, retention))
  {
  }

  lemma EveryStepIsLawful(s: Sys, a: Action)
    requires Inv(s) && Enabled(s, a)
    ensures Lawful(s.db, Act(s, a).db)
  {
    hide Lawful, Create, ClaimAction, RejectAction, Cleanup, Finalize, OpenReconciliation, CloseReconciliation,
         Consistent, Canonical, ActionHandlers.Execute, GrantOk, Unsent, Truthful, Foreign, Written,
         ActionHandlers.Reconcile;
    match a
    case StagePayload(owner, kind, payload, key, newId, now) =>
      assert newId in s.db.actions ==> RowOk(s, newId);
      CreateIsLawful(s.codec, s.db, owner, kind, payload, key, newId, now);
    case OwnerRejects(id, user, at) => RejectIsLawful(s.db, id, user, at);
    case CleanUp(locked, now, retention) => CleanupIsLawful(s.db, locked, now, retention);
    case Approve(p, id, user, now, at) => ClaimIsLawful(s.codec, s.db, id, user, now, at);
    case FinalizeAttempt(p, now, at) =>
      assert PcOk(s, p);
      FinalizeIsLawful(s.db, s.PcOf(p).id, s.PcOf(p).token, s.PcOf(p).request, now, at);
    case BeginReconciliation(p, id, operator, now, at) =>
      ReconcileIsLawful(s.db, id, operator, ActionHandlers.NotFound, now, at);
    case EndReconciliation(p, at) =>
      ReconcileIsLawful(s.db, s.PcOf(p).id, s.PcOf(p).operator, s.PcOf(p).verdict, 0, at);
    case EditPayload(id, payload) => EditIsLawful(s.db, id, payload);
    case _ =>
      SameIsLawful(s.db);
      assert Act(s, a).db == s.db;
  }

  lemma SameIsLawful(db: Tables)
    ensures Lawful(db, db)
  {
  }

  lemma EditIsLawful(db: Tables, id: ActionId, payload: Payload)
    requires id in db.actions
    ensures Lawful(db, db.(actions := db.actions[id := db.actions[id].(payload := payload)]))
  {
  }

  lemma StepsAreLawful(states: seq<Sys>, actions: seq<Action>, i: nat)
    requires IsRun(states, actions) && i < |actions|
    ensures Lawful(states[i].db, states[i + 1].db)
  {
    RunsKeepInv(states, actions, i);
    hide Inv, Lawful, Enabled, Act;
    EveryStepIsLawful(states[i], actions[i]);
  }

  // succeeded, failed, rejected and expired are left only by deletion; until then status, result,
  // error, lease and time stamps stay as they were when the action was resolved.
  lemma {:induction false} ResolvedStays(states: seq<Sys>, actions: seq<Action>, i: nat, j: nat, id: ActionId)
    requires IsRun(states, actions) && i <= j < |states|
    requires forall k :: i <= k <= j ==> id in states[k].db.actions
    requires Resolved(states[i].db.actions[id].status)
    ensures states[j].db.actions[id] == states[i].db.actions[id].(payload := states[j].db.actions[id].payload)
  {
    hide Enabled, Act, Init, StatusEdge;
    if i < j {
      ResolvedStays(states, actions, i, j - 1, id);
      StepsAreLawful(states, actions, j - 1);
      assert id in states[j - 1].db.actions && id in states[j].db.actions;
    }
  }

  // Retention and everything else keep unresolved actions.
  lemma UnresolvedIsKept(states: seq<Sys>, actions: seq<Action>, i: nat, id: ActionId)
    requires IsRun(states, actions) && i < |actions|
    requires id in states[i].db.actions && !Resolved(states[i].db.actions[id].status)
    ensures id in states[i + 1].db.actions
  {
    hide Enabled, Act, Init;
    StepsAreLawful(states, actions, i);
  }

  // A finalizer that comes after its lease ran out, or after an operator's or another handler's
  // transition, does not resolve the action; and only reconciliation leaves
  // reconciliation_required.
  lemma OutcomesAreNotOverwritten(s: Sys, a: Action, id: ActionId)
    requires Inv(s) && Enabled(s, a) && id in s.db.actions && id in Act(s, a).db.actions
    ensures var row, row' := s.db.actions[id], Act(s, a).db.actions[id];
            && (row.status.ReconciliationRequired? && row'.status != row.status ==>
                  a.EndReconciliation? && s.PcOf(a.p).Deciding? && s.PcOf(a.p).id == id)
            && (a.FinalizeAttempt? && row' != row ==>
                  && row.status.Processing? && s.PcOf(a.p).id == id && row.attemptToken == s.PcOf(a.p).token
                  && (LeaseOver(row, a.now) ==> row'.status.ReconciliationRequired?))
  {
    hide Inv, Canonicalize, Consistent, Canonical, ActionHandlers.Execute, ActionHandlers.Reconcile, Truthful,
         Foreign, ActionHandlers.Fits, Written;
    if a.StagePayload? {
      hide Create, RejectAction, Cleanup, ClaimAction, Finalize, OpenReconciliation, CloseReconciliation;
      StagingLeavesOthers(s, a, id);
    } else {
      hide Create;
    }
  }

  lemma StagingLeavesOthers(s: Sys, a: Action, id: ActionId)
    requires Inv(s) && Enabled(s, a) && a.StagePayload? && id in s.db.actions
    ensures id in Act(s, a).db.actions && Act(s, a).db.actions[id] == s.db.actions[id]
  {
    assert RowOk(s, id);
    CreateShape(s.codec, s.db, a.owner, a.kind, a.payload, a.key, a.newId, a.now);
    hide Create;
  }

  // ---------- Verdicts ----------

  // Only staging adds rows, under a fresh ID.
  predicate NoNewRows(db: Tables, db': Tables) {
    forall id <- db'.actions :: id in db.actions
  }

  lemma TransactionsAddNoRows(s: Sys, id: ActionId, user: UserId, token: Option<Token>, request: Request,
                              verdict: ActionHandlers.Verdict, locked: set<ActionId>, retention: Time, now: Time,
                              at: Time)
    ensures NoNewRows(s.db, ClaimAction(s.codec, s.db, id, user, now, at).0)
    ensures NoNewRows(s.db, RejectAction(s.db, id, user, at).0)
    ensures NoNewRows(s.db, Finalize(s.db, id, token, request, now, at).0)
    ensures NoNewRows(s.db, OpenReconciliation(s.db, id, user, now, at).0)
    ensures NoNewRows(s.db, CloseReconciliation(s.db, id, user, verdict, at).0)
    ensures NoNewRows(s.db, Cleanup(s.db, locked, now, retention))
  {
    hide Intact;
  }

  lemma OthersAddNoRows(s: Sys, a: Action)
    requires Enabled(s, a) && !a.StagePayload?
    ensures NoNewRows(s.db, Act(s, a).db)
  {
    hide ClaimAction, RejectAction, Cleanup, Finalize, OpenReconciliation, CloseReconciliation, Consistent, Canonical,
         ActionHandlers.Execute, Create, Truthful, Foreign, Written, ActionHandlers.Reconcile;
    var blank := Request(Failed, None, None, Claimed);
    if a.OwnerRejects? {
      TransactionsAddNoRows(s, a.id, a.user, None, blank, ActionHandlers.NotFound, {}, 0, 0, a.at);
    } else if a.CleanUp? {
      TransactionsAddNoRows(s, 0, 0, None, blank, ActionHandlers.NotFound, a.locked, a.retention, a.now, 0);
    } else if a.Approve? {
      TransactionsAddNoRows(s, a.id, a.user, None, blank, ActionHandlers.NotFound, {}, 0, a.now, a.at);
    } else if a.FinalizeAttempt? {
      TransactionsAddNoRows(s, s.PcOf(a.p).id, 0, s.PcOf(a.p).token, s.PcOf(a.p).request, ActionHandlers.NotFound, {},
                            0, a.now, a.at);
    } else if a.BeginReconciliation? {
      TransactionsAddNoRows(s, a.id, a.operator, None, blank, ActionHandlers.NotFound, {}, 0, a.now, a.at);
    } else if a.EndReconciliation? {
      TransactionsAddNoRows(s, s.PcOf(a.p).id, s.PcOf(a.p).operator, None, blank, s.PcOf(a.p).verdict, {}, 0, 0, a.at);
    }
  }

  lemma RowsAreNotRevived(s: Sys, a: Action, id: ActionId)
    requires Enabled(s, a) && id in s.used && id !in s.db.actions
    ensures id in Act(s, a).used && id !in Act(s, a).db.actions
  {
    UsedGrows(s, a);
    hide Create;
    if a.StagePayload? {
      StagedOnly(s, a, id);
    } else {
      OthersAddNoRows(s, a);
      hide Act, Enabled;
    }
  }

  lemma StagedOnly(s: Sys, a: Action, id: ActionId)
    requires Enabled(s, a) && a.StagePayload? && id in s.used && id !in s.db.actions
    ensures id !in Act(s, a).db.actions
  {
    CreateShape(s.codec, s.db, a.owner, a.kind, a.payload, a.key, a.newId, a.now);
    hide Create;
  }

  lemma EffectsLast(s: Sys, a: Action, id: ActionId)
    requires Inv(s) && Enabled(s, a) && HasEffect(s, id)
    ensures HasEffect(Act(s, a), id)
  {
    hide Create, ClaimAction, RejectAction, Cleanup, Finalize, OpenReconciliation, CloseReconciliation, Consistent,
         Canonical, ActionHandlers.Execute, RowOk, GrantOk, Truthful, Foreign, Written, ActionHandlers.Reconcile;
    if a.EnterExecution? {
      assert PcOk(s, a.p);
    }
  }

  // Resolved, or gone for good.
  predicate Closed(s: Sys, id: ActionId) {
    id in s.used && (id in s.db.actions ==> Resolved(s.db.actions[id].status))
  }

  lemma ClosedStays(s: Sys, a: Action, id: ActionId)
    requires Inv(s) && Enabled(s, a) && Closed(s, id)
    ensures Closed(Act(s, a), id)
  {
    if id in s.db.actions {
      EveryStepIsLawful(s, a);
      UsedGrows(s, a);
      hide Inv, Act, Enabled;
    } else {
      RowsAreNotRevived(s, a, id);
    }
  }

  lemma UsedGrows(s: Sys, a: Action)
    requires Enabled(s, a)
    ensures s.used <= Act(s, a).used
  {
    hide Create, ClaimAction, RejectAction, Cleanup, Finalize, OpenReconciliation, CloseReconciliation, Consistent,
         Canonical, ActionHandlers.Execute, Truthful, Foreign, Written, ActionHandlers.Reconcile;
  }

  lemma UnsentLasts(s: Sys, a: Action, id: ActionId)
    requires Inv(s) && Enabled(s, a) && Closed(s, id) && Unsent(s, id)
    ensures Unsent(Act(s, a), id)
  {
    var s' := Act(s, a);
    UnsentEffect(s, a, id);
    forall q: ProcId ensures !(s'.PcOf(q).Holding? && s'.PcOf(q).id == id) {
      assert !(s.PcOf(q).Holding? && s.PcOf(q).id == id);
      NobodyStartsHolding(s, a, id, q);
    }
  }

  lemma UnsentEffect(s: Sys, a: Action, id: ActionId)
    requires Inv(s) && Enabled(s, a) && Unsent(s, id)
    ensures var s' := Act(s, a);
            id in s'.effects ==> s'.effects[id].Refused? || (s'.effects[id].NotSent? && id !in s'.live)
  {
    hide Create, ClaimAction, RejectAction, Cleanup, Finalize, OpenReconciliation, CloseReconciliation, Consistent,
         Canonical, ActionHandlers.Execute, RowOk, GrantOk, PcOk, Truthful, Foreign, Written,
         ActionHandlers.Reconcile;
    if a.EnterExecution? {
      assert !(s.PcOf(a.p).Holding? && s.PcOf(a.p).id == id);
    }
  }

  lemma NobodyStartsHolding(s: Sys, a: Action, id: ActionId, q: ProcId)
    requires Enabled(s, a) && Closed(s, id) && !(s.PcOf(q).Holding? && s.PcOf(q).id == id)
    ensures !(Act(s, a).PcOf(q).Holding? && Act(s, a).PcOf(q).id == id)
  {
    hide Create, RejectAction, Cleanup, Finalize, OpenReconciliation, CloseReconciliation, Consistent, Canonical,
         ActionHandlers.Execute, Intact, MarkUnknown, Truthful, Foreign, Written, ActionHandlers.Reconcile;
  }

  lemma {:induction false} EffectLastsForEver(states: seq<Sys>, actions: seq<Action>, i: nat, j: nat, id: ActionId)
    requires IsRun(states, actions) && i <= j < |states| && HasEffect(states[i], id)
    ensures HasEffect(states[j], id)
  {
    hide Enabled, Act, Init, HasEffect, Inv;
    if i < j {
      EffectLastsForEver(states, actions, i, j - 1, id);
      RunsKeepInv(states, actions, j - 1);
      EffectsLast(states[j - 1], actions[j - 1], id);
    }
  }

  lemma {:induction false} UnsentForEver(states: seq<Sys>, actions: seq<Action>, i: nat, j: nat, id: ActionId)
    requires IsRun(states, actions) && i <= j < |states| && Closed(states[i], id) && Unsent(states[i], id)
    ensures Closed(states[j], id) && Unsent(states[j], id) && !HasEffect(states[j], id)
  {
    if i < j {
      hide Enabled, Act, Init, Inv, Closed, Unsent;
      UnsentForEver(states, actions, i, j - 1, id);
      RunsKeepInv(states, actions, j - 1);
      ClosedStays(states[j - 1], actions[j - 1], id);
      UnsentLasts(states[j - 1], actions[j - 1], id);
      UnsentHasNoEffect(states[j], id);
    }
  }

  lemma UnsentHasNoEffect(s: Sys, id: ActionId)
    requires Unsent(s, id)
    ensures !HasEffect(s, id)
  {
  }

  // ---------- What a success stands for ----------

  // An accepted write of some action of the row's command: same owner, same command key.
  predicate Performed(s: Sys, row: Row) {
    exists id <- s.effects :: HasEffect(s, id) && Ordered(s, id, row)
  }

  predicate Ordered(s: Sys, id: ActionId, row: Row) {
    id in s.grants && SameCommand(s.grants[id].row, row.owner, row.commandKey)
  }

  // Something in the owner's account shows the marker of a command it was not written for.
  predicate Stray(s: Sys, row: Row) {
    exists a <- s.artifacts :: Carries(a, row) && !WrittenFor(s, a, row)
  }

  predicate WrittenFor(s: Sys, a: Artifact, row: Row) {
    a.author.Some? && Ordered(s, a.author.value, row)
  }

  // No header and no private property is set by others, so only a task can be stray.
  lemma OnlyTasksStray(s: Sys, a: Artifact, row: Row)
    requires ArtifactsOk(s) && a in s.artifacts && Carries(a, row)
    ensures WrittenFor(s, a, row) ==> Performed(s, row)
    ensures !WrittenFor(s, a, row) ==> row.kind.CreateTask?
  {
    hide ActionHandlers.Contains, NotesOf;
    assert Foreign(a) || Authored(s, a);
  }

  lemma EvidenceIsOwnOrStray(s: Sys, row: Row)
    requires ArtifactsOk(s) && Evident(s, row)
    ensures Performed(s, row) || (row.kind.CreateTask? && Stray(s, row))
  {
    var a :| a in s.artifacts && Carries(a, row);
    OnlyTasksStray(s, a, row);
    hide Performed, Carries;
    if !WrittenFor(s, a, row) {
      assert Stray(s, row);
    }
  }

  lemma {:induction false} EvidenceLasts(states: seq<Sys>, actions: seq<Action>, i: nat, j: nat, row: Row)
    requires IsRun(states, actions) && i <= j < |states| && Evident(states[i], row)
    ensures Evident(states[j], row)
  {
    if i < j {
      hide Enabled, Act, Init, Evident, Inv;
      EvidenceLasts(states, actions, i, j - 1, row);
      ArtifactsGrow(states[j - 1], actions[j - 1]);
      EvidenceStays(states[j - 1], states[j], row);
    }
  }

  lemma ArtifactsGrow(s: Sys, a: Action)
    requires Enabled(s, a)
    ensures s.artifacts <= Act(s, a).artifacts
  {
    hide Create, ClaimAction, RejectAction, Cleanup, Finalize, OpenReconciliation, CloseReconciliation, Consistent,
         Canonical, ActionHandlers.Execute, ActionHandlers.Reconcile, Truthful;
  }

  lemma SuccessIsEvident(s: Sys, id: ActionId)
    requires Inv(s) && id in s.db.actions && s.db.actions[id].status.Succeeded?
    ensures Evident(s, s.db.actions[id])
  {
    hide PcOk, HistoryOk, ArtifactsOk, Evident;
    assert RowOk(s, id);
  }

  lemma ArtifactsAreOk(s: Sys)
    requires Inv(s)
    ensures ArtifactsOk(s)
  {
  }

  lemma SuccessIsPerformed(states: seq<Sys>, actions: seq<Action>, i: nat, j: nat, id: ActionId)
    requires IsRun(states, actions) && i <= j < |states| && id in states[i].db.actions
    requires states[i].db.actions[id].status.Succeeded?
    ensures var row := states[i].db.actions[id];
            Performed(states[j], row) || (row.kind.CreateTask? && Stray(states[j], row))
  {
    var row := states[i].db.actions[id];
    RunsKeepInv(states, actions, i);
    RunsKeepInv(states, actions, j);
    SuccessIsEvident(states[i], id);
    ArtifactsAreOk(states[j]);
    hide Inv, Evident, ArtifactsOk;
    EvidenceLasts(states, actions, i, j, row);
    EvidenceIsOwnOrStray(states[j], row);
  }

  // Main result.  A stored `succeeded`, whoever decided it, stands from then on for an accepted write
  // of its command; for a task that an operator reconciled, or for a stray task that shows its marker.
  // An executor's `succeeded` stands for its own write, and its `failed` for none, then or ever.
  lemma VerdictsAreSound(states: seq<Sys>, actions: seq<Action>, i: nat, j: nat, id: ActionId)
    requires IsRun(states, actions) && i <= j < |states| && id in states[i].db.actions
    ensures var row := states[i].db.actions[id];
            && id in states[i].db.audit
            && (row.status.Succeeded? ==>
                  Performed(states[j], row) || (row.kind.CreateTask? && Stray(states[j], row)))
            && (row.status.Succeeded? && ExecutorSucceeded(states[i].db.audit[id]) ==> HasEffect(states[j], id))
            && (row.status.Failed? && ExecutorFailed(states[i].db.audit[id]) ==> !HasEffect(states[j], id))
  {
    RunsKeepInv(states, actions, i);
    hide PcOk, HistoryOk, ArtifactsOk, Replays, Unsent, HasEffect, ExecutorFailed, ExecutorSucceeded, Performed,
         Stray, Evident, Init, Enabled, Act;
    assert RowOk(states[i], id);
    if states[i].db.actions[id].status.Succeeded? {
      SuccessIsPerformed(states, actions, i, j, id);
      if ExecutorSucceeded(states[i].db.audit[id]) {
        EffectLastsForEver(states, actions, i, j, id);
      }
    } else if states[i].db.actions[id].status.Failed? && ExecutorFailed(states[i].db.audit[id]) {
      UnsentForEver(states, actions, i, j, id);
    }
  }

  lemma OneStoredAction(states: seq<Sys>, actions: seq<Action>, i: nat, id: ActionId, other: ActionId)
    requires IsRun(states, actions) && i < |states| && id in states[i].db.actions
    requires Ordered(states[i], other, states[i].db.actions[id])
    ensures other in states[i].db.actions ==> other == id
  {
    RunsKeepInv(states, actions, i);
    CommandsAreUnique(states, actions, i);
    hide IsRun, PcOk, ArtifactsOk, Replays, Evident, Unsent;
    if other in states[i].db.actions {
      assert RowOk(states[i], other);
    }
  }

  // The write a success stands for is the action's own, unless an earlier action of the same command
  // was approved; such an action is no longer stored.
  lemma SuccessIsOwn(states: seq<Sys>, actions: seq<Action>, i: nat, id: ActionId)
    requires IsRun(states, actions) && i < |states| && id in states[i].db.actions
    requires states[i].db.actions[id].status.Succeeded? && !states[i].db.actions[id].kind.CreateTask?
    ensures var s := states[i];
            || HasEffect(s, id)
            || exists other <- s.grants ::
                 other != id && other !in s.db.actions && HasEffect(s, other) && Ordered(s, other, s.db.actions[id])
  {
    SuccessIsPerformed(states, actions, i, i, id);
    hide IsRun, HasEffect;
    var s := states[i];
    var other :| other in s.effects && HasEffect(s, other) && Ordered(s, other, s.db.actions[id]);
    OneStoredAction(states, actions, i, id, other);
  }

  // ---------- Lookups of an action's own write ----------

  // A lookup in the owner's account that finds the row's command.
  predicate Finds(s: Sys, row: Row, canonical: Option<Payload>, e: ActionHandlers.Evidence) {
    && ActionHandlers.Fits(row.kind, e) && Truthful(s.artifacts, row.owner, e)
    && ActionHandlers.Reconcile(row.kind, canonical, row.commandKey, e).Found?
  }

  function CanonicalOf(s: Sys, row: Row): Option<Payload> {
    Canonicalize(s.codec.lib, row.kind, row.payload)
  }

  // Something in the account that a lookup cannot tell from the write of the row: it carries the
  // command's marker, and a message has its recipient and, for a reply, its thread.
  predicate Resembles(s: Sys, a: Artifact, row: Row) {
    && CanonicalOf(s, row).Some? && Carries(a, row)
    && (a.mark.OnMessage? ==> ActionHandlers.TextAt(CanonicalOf(s, row).value, RecipientEmail) in a.mark.recipients)
    && (row.kind.SendReply? ==> a.mark.thread == ActionHandlers.TextAt(CanonicalOf(s, row).value, ThreadId))
  }

  // Something of the kind was written by another action, or by others.
  predicate HasDouble(s: Sys, id: ActionId, row: Row) {
    exists a <- s.artifacts :: Resembles(s, a, row) && a.author != Some(id)
  }

  // Whether every lookup that finds the command may report the action's own write.
  ghost predicate LookupsAreRight(s: Sys, id: ActionId, row: Row) {
    forall e: ActionHandlers.Evidence :: Finds(s, row, CanonicalOf(s, row), e) ==> HasEffect(s, id)
  }

  lemma HeldResembles(s: Sys, row: Row, mark: Mark)
    requires Holds(s.artifacts, row.owner, mark) && Resembles(s, Artifact(row.owner, None, mark), row)
    ensures exists a <- s.artifacts :: Resembles(s, a, row)
  {
    hide CanonicalOf, ActionHandlers.TextAt, ActionHandlers.Contains;
    var a :| a in s.artifacts && a.account == row.owner && a.mark == mark;
    assert Resembles(s, a, row);
  }

  // What a lookup finds resembles the write.
  lemma FoundResembles(s: Sys, row: Row, e: ActionHandlers.Evidence)
    requires Finds(s, row, CanonicalOf(s, row), e)
    ensures exists a <- s.artifacts :: Resembles(s, a, row)
  {
    ActionHandlers.FoundCarriesMarker(row.kind, CanonicalOf(s, row), row.commandKey, e);
    hide ActionHandlers.Reconcile, ActionHandlers.Contains, ActionHandlers.TextAt, CanonicalOf;
    match e
    case NoService =>
    case MailEvidence(_, found) =>
      HeldResembles(s, row, OnMessage(found.value.marker, found.value.recipients, found.value.thread));
    case EventEvidence(event) => HeldResembles(s, row, OnEvent(event.value.value.marker));
    case TaskEvidence(scan) =>
      var t: ActionHandlers.Task :|
        ActionHandlers.Shows(scan.value, t)
        && ActionHandlers.Contains(t.notes, ActionHandlers.TaskMarker(row.commandKey));
      ShownIsHeld(s.artifacts, row.owner, scan.value, t);
      HeldResembles(s, row, InTask(t.notes));
  }

  // A lookup that shows this and nothing else.
  function OnlySeen(mark: Mark): ActionHandlers.Evidence {
    match mark
    case OnMessage(marker, recipients, thread) => OneMailSeen(marker, recipients, thread)
    case OnEvent(marker) =>
      ActionHandlers.EventEvidence(ActionHandlers.Answered(Some(ActionHandlers.Event("event", true, marker))))
    case InTask(notes) => OneTaskSeen(notes)
  }

  function OneMailSeen(marker: Option<string>, recipients: set<string>, thread: string): ActionHandlers.Evidence {
    ActionHandlers.MailEvidence([ActionHandlers.Answered(ActionHandlers.Page(["message"], false))],
                                ActionHandlers.Answered(ActionHandlers.Message("message", marker, true, recipients, thread)))
  }

  // A scan that shows one task and no failure.
  function OneTaskSeen(notes: string): ActionHandlers.Evidence {
    var page := ActionHandlers.Page([ActionHandlers.Task("task", notes)], false);
    ActionHandlers.TaskEvidence(ActionHandlers.Answered(
      [ActionHandlers.ScannedList(ActionHandlers.TaskList(Some("list"), ""), [ActionHandlers.Answered(page)])]))
  }

  lemma OneTaskIsFound(notes: string, canonical: Option<Payload>, commandKey: string)
    requires canonical.Some? && ActionHandlers.Contains(notes, ActionHandlers.TaskMarker(commandKey))
    ensures var e := OneTaskSeen(notes);
            ActionHandlers.Fits(CreateTask, e) && ActionHandlers.Reconcile(CreateTask, canonical, commandKey, e).Found?
  {
    hide ActionHandlers.Contains, ActionHandlers.TaskMarker;
    var marker := ActionHandlers.TaskMarker(commandKey);
    var task := ActionHandlers.Task("task", notes);
    var page := ActionHandlers.Page([task], false);
    var tasks := [ActionHandlers.Answered(page)];
    var last := ActionHandlers.ScannedList(ActionHandlers.TaskList(Some("list"), ""), tasks);
    assert tasks[..0] == [] && [last][..0] == [] && [task][..0] == [];
    assert ActionHandlers.AllItems(tasks) == [task];
    assert ActionHandlers.Matching([task], marker) == [task];
    assert ActionHandlers.ScanLists([last], marker) == ActionHandlers.Answered([] + [task]);
  }

  lemma OneMailIsFound(kind: Kind, canonical: Option<Payload>, marker: Option<string>, recipients: set<string>,
                       thread: string, commandKey: string)
    requires (kind.SendEmail? || kind.SendReply?) && canonical.Some? && marker == Some(commandKey)
    requires ActionHandlers.TextAt(canonical.value, RecipientEmail) in recipients
    requires kind.SendReply? ==> thread == ActionHandlers.TextAt(canonical.value, ThreadId)
    ensures var e := OneMailSeen(marker, recipients, thread);
            ActionHandlers.Fits(kind, e) && ActionHandlers.Reconcile(kind, canonical, commandKey, e).Found?
  {
    hide ActionHandlers.TextAt;
    var pages := OneMailSeen(marker, recipients, thread).pages;
    assert pages[..0] == [] && pages[..1] == pages;
    assert ActionHandlers.AllItems(pages) == ["message"];
    ActionHandlers.NoConflict(pages, 1);
  }

  lemma OneIsTruthful(artifacts: set<Artifact>, account: UserId, mark: Mark)
    requires Holds(artifacts, account, mark)
    ensures Truthful(artifacts, account, OnlySeen(mark))
  {
  }

  lemma ResemblingIsFound(s: Sys, a: Artifact, row: Row)
    requires a in s.artifacts && Resembles(s, a, row)
    ensures Finds(s, row, CanonicalOf(s, row), OnlySeen(a.mark))
  {
    assert Holds(s.artifacts, row.owner, a.mark);
    OneIsTruthful(s.artifacts, row.owner, a.mark);
    hide CanonicalOf, ActionHandlers.Contains, ActionHandlers.TaskMarker, ActionHandlers.TextAt, Truthful, OneTaskSeen,
         OneMailSeen;
    match row.kind
    case CreateEvent =>
    case CreateTask =>
      hide ActionHandlers.Reconcile, ActionHandlers.Fits;
      OneTaskIsFound(a.mark.notes, CanonicalOf(s, row), row.commandKey);
    case _ =>
      hide ActionHandlers.Reconcile, ActionHandlers.Fits;
      OneMailIsFound(row.kind, CanonicalOf(s, row), a.mark.marker, a.mark.recipients, a.mark.thread, row.commandKey);
  }

  // Main result.  For mails, events and tasks alike, an operator's success can be trusted to be about
  // this action if and only if its write was accepted, or nothing else in the account resembles it.
  lemma LookupsAreRightIff(s: Sys, id: ActionId, row: Row)
    requires Inv(s)
    ensures LookupsAreRight(s, id, row) <==> HasEffect(s, id) || !HasDouble(s, id, row)
  {
    ArtifactsAreOk(s);
    hide Inv, Finds, Resembles, Written, Foreign;
    if !HasEffect(s, id) && HasDouble(s, id, row) {
      var a :| a in s.artifacts && Resembles(s, a, row) && a.author != Some(id);
      ResemblingIsFound(s, a, row);
    }
    if !HasDouble(s, id, row) {
      forall e: ActionHandlers.Evidence | Finds(s, row, CanonicalOf(s, row), e) ensures HasEffect(s, id) {
        FoundResembles(s, row, e);
        var a :| a in s.artifacts && Resembles(s, a, row);
        assert Foreign(a) || Authored(s, a);
        ForeignIsNobodys(a, id);
      }
    }
  }

  lemma ForeignIsNobodys(a: Artifact, id: ActionId)
    ensures Foreign(a) ==> a.author != Some(id)
  {
  }

  // Other than for tasks, what resembles the write of a stored action is the accepted write of an
  // earlier action of its command, which is no longer stored.
  lemma DoublesAreDeleted(states: seq<Sys>, actions: seq<Action>, i: nat, id: ActionId, a: Artifact)
    requires IsRun(states, actions) && i < |states| && id in states[i].db.actions
    requires !states[i].db.actions[id].kind.CreateTask? && a in states[i].artifacts
    requires Resembles(states[i], a, states[i].db.actions[id]) && a.author != Some(id)
    ensures var s := states[i];
            && a.author.Some? && HasEffect(s, a.author.value) && a.author.value !in s.db.actions
            && Ordered(s, a.author.value, s.db.actions[id])
  {
    var s := states[i];
    RunsKeepInv(states, actions, i);
    ArtifactsAreOk(s);
    OnlyTasksStray(s, a, s.db.actions[id]);
    hide IsRun, Inv, HasEffect, Written, Carries, CanonicalOf;
    assert Foreign(a) || Authored(s, a);
    OneStoredAction(states, actions, i, id, a.author.value);
  }

  // ---------- Tasks ----------

  // Whether every scan of the account that finds the command is right to.
  ghost predicate TaskScansAreRight(s: Sys, row: Row)
    requires row.kind.CreateTask?
  {
    forall e: ActionHandlers.Evidence :: Finds(s, row, Some(row.payload), e) ==> Performed(s, row)
  }

  // A task scan searches notes for the marker, and anyone may write it there.  So an operator's success
  // stands for a write of the command exactly if one was performed, or no other task in the account
  // shows the marker.
  lemma TaskSuccessIsRightIff(s: Sys, row: Row)
    requires Inv(s) && row.kind.CreateTask?
    ensures TaskScansAreRight(s, row) <==> Performed(s, row) || !Stray(s, row)
  {
    ArtifactsAreOk(s);
    hide Inv, ArtifactsOk, Performed, Stray, Finds;
    if !Performed(s, row) && Stray(s, row) {
      StrayIsFound(s, row);
    }
    if !Stray(s, row) {
      UnquotedScansAreRight(s, row);
    }
  }

  lemma UnquotedScansAreRight(s: Sys, row: Row)
    requires ArtifactsOk(s) && row.kind.CreateTask? && !Stray(s, row)
    ensures TaskScansAreRight(s, row)
  {
    hide ArtifactsOk, Performed, Evident, Stray;
    forall e: ActionHandlers.Evidence | Finds(s, row, Some(row.payload), e) ensures Performed(s, row) {
      FoundIsEvidence(s, row, Some(row.payload), e);
      EvidenceIsOwnOrStray(s, row);
    }
  }

  lemma StrayIsFound(s: Sys, row: Row)
    requires row.kind.CreateTask? && Stray(s, row) && !Performed(s, row)
    ensures !TaskScansAreRight(s, row)
  {
    var a :| a in s.artifacts && Carries(a, row) && !WrittenFor(s, a, row);
    OneTaskIsFound(a.mark.notes, Some(row.payload), row.commandKey);
    OneIsTruthful(s.artifacts, row.owner, a.mark);
    hide Performed, Truthful, ActionHandlers.Reconcile, ActionHandlers.Fits, OneTaskSeen;
    assert Finds(s, row, Some(row.payload), OneTaskSeen(a.mark.notes));
  }

  // ---------- Command keys ----------

  predicate KeysOk(s: Sys) {
    && (forall id <- s.db.actions :: ActionHandlers.ValidCommandKey(s.db.actions[id].commandKey))
    && (forall id <- s.grants :: ActionHandlers.ValidCommandKey(s.grants[id].row.commandKey))
  }

  lemma CreateKeys(codec: Codec, db: Tables, owner: UserId, kind: Kind, payload: Payload, key: string,
                   newId: ActionId, now: Time)
    requires forall id <- db.actions :: ActionHandlers.ValidCommandKey(db.actions[id].commandKey)
    ensures var db' := Create(codec, db, owner, kind, payload, key, newId, now).0;
            forall id <- db'.actions :: ActionHandlers.ValidCommandKey(db'.actions[id].commandKey)
  {
    hide Canonicalize, ActionHandlers.ValidCommandKey;
  }

  lemma GrantKeys(s: Sys, a: Action)
    requires Enabled(s, a) && KeysOk(s)
    ensures forall id <- Act(s, a).grants :: ActionHandlers.ValidCommandKey(Act(s, a).grants[id].row.commandKey)
  {
    hide Create, ClaimAction, RejectAction, Cleanup, Finalize, OpenReconciliation, CloseReconciliation, Consistent,
         Canonical, ActionHandlers.Execute, ActionHandlers.Reconcile, Truthful, ActionHandlers.ValidCommandKey;
  }

  lemma KeysStay(s: Sys, a: Action)
    requires Inv(s) && Enabled(s, a) && KeysOk(s)
    ensures KeysOk(Act(s, a))
  {
    GrantKeys(s, a);
    if a.StagePayload? {
      CreateKeys(s.codec, s.db, a.owner, a.kind, a.payload, a.key, a.newId, a.now);
      hide Inv, Create, ActionHandlers.ValidCommandKey;
    } else {
      EveryStepIsLawful(s, a);
      OthersAddNoRows(s, a);
      hide Act, Inv, Enabled, ActionHandlers.ValidCommandKey;
    }
  }

  lemma {:induction false} KeysAreValid(states: seq<Sys>, actions: seq<Action>, i: nat)
    requires IsRun(states, actions) && i < |states|
    ensures KeysOk(states[i])
  {
    hide Enabled, Act, Inv;
    if i > 0 {
      KeysAreValid(states, actions, i - 1);
      RunsKeepInv(states, actions, i - 1);
      hide KeysOk;
      KeysStay(states[i - 1], actions[i - 1]);
    }
  }

  // A stray task was written by others, or its own approved notes quoted the marker.
  lemma StrayTasksQuoteTheMarker(states: seq<Sys>, actions: seq<Action>, i: nat, a: Artifact, id: ActionId)
    requires IsRun(states, actions) && i < |states| && id in states[i].db.actions && a in states[i].artifacts
    requires Carries(a, states[i].db.actions[id]) && !WrittenFor(states[i], a, states[i].db.actions[id])
    ensures var s := states[i];
            || Foreign(a)
            || (a.author.Some? && a.author.value in s.grants
                && ActionHandlers.Contains(NotesOf(s.codec.lib, s.grants[a.author.value].row),
                                           ActionHandlers.TaskMarker(s.db.actions[id].commandKey)))
  {
    var s := states[i];
    RunsKeepInv(states, actions, i);
    KeysAreValid(states, actions, i);
    hide IsRun, PcOk, RowOk, HistoryOk, ActionHandlers.ValidCommandKey, ActionHandlers.Contains, NotesOf,
         ActionHandlers.TaskMarker, ActionHandlers.TaskNotes;
    OnlyTasksStray(s, a, s.db.actions[id]);
    if !Foreign(a) {
      assert Authored(s, a);
      var row := s.grants[a.author.value].row;
      ActionHandlers.MarkersDoNotClash(NotesOf(s.codec.lib, row), row.commandKey, s.db.actions[id].commandKey);
    }
  }

  // ---------- The operator's verdict ----------

  ghost predicate EnabledAll(s: Sys, actions: seq<Action>)
    decreases |actions|
  {
    actions == [] || (Enabled(s, actions[0]) && EnabledAll(Act(s, actions[0]), actions[1..]))
  }

  ghost function After(s: Sys, actions: seq<Action>): Sys
    requires EnabledAll(s, actions)
    decreases |actions|
  {
    if actions == [] then s else After(Act(s, actions[0]), actions[1..])
  }

  ghost predicate CanStillBeAccepted(s: Sys, id: ActionId) {
    exists actions: seq<Action> :: EnabledAll(s, actions) && HasEffect(After(s, actions), id)
  }

  lemma {:induction false} StaysUnsent(s: Sys, actions: seq<Action>, id: ActionId)
    requires Inv(s) && EnabledAll(s, actions) && Closed(s, id) && Unsent(s, id)
    ensures !HasEffect(After(s, actions), id)
    decreases |actions|
  {
    hide Inv, Enabled, Act, Closed, Unsent;
    UnsentHasNoEffect(s, id);
    if actions != [] {
      ActKeepsInv(s, actions[0]);
      ClosedStays(s, actions[0], id);
      UnsentLasts(s, actions[0], id);
      StaysUnsent(Act(s, actions[0]), actions[1..], id);
    }
  }

  lemma DecidedNow(s: Sys, id: ActionId)
    requires id in s.effects && s.effects[id].InFlight? && id in s.grants
    ensures CanStillBeAccepted(s, id)
  {
    var a := ProviderDecides(id, true, "");
    AcceptedAlready(Act(s, a), id);
    hide CanStillBeAccepted;
    Prepend(s, a, id);
  }

  lemma Prepend(s: Sys, a: Action, id: ActionId)
    requires Enabled(s, a) && CanStillBeAccepted(Act(s, a), id)
    ensures CanStillBeAccepted(s, id)
  {
    hide Enabled, Act;
    var actions :| EnabledAll(Act(s, a), actions) && HasEffect(After(Act(s, a), actions), id);
    assert ([a] + actions)[1..] == actions;
    assert EnabledAll(s, [a] + actions) && HasEffect(After(s, [a] + actions), id);
  }

  lemma SendableCanLand(s: Sys, id: ActionId)
    requires id in s.effects && s.effects[id].NotSent? && id in s.live && id in s.grants
    ensures CanStillBeAccepted(s, id)
  {
    hide CanStillBeAccepted;
    DecidedNow(Act(s, Send(id)), id);
    Prepend(s, Send(id), id);
  }

  // A handler that holds its claim can still enter the execution and send: it does not look at its
  // lease again.
  lemma HolderCanSend(s: Sys, p: ProcId)
    requires Inv(s) && s.PcOf(p).Holding?
    ensures CanStillBeAccepted(s, s.PcOf(p).id)
  {
    HolderIsCanonical(s, p);
    EnteredCanSend(s, p);
    hide *;
    SendableCanLand(Act(s, EnterExecution(p)), s.PcOf(p).id);
    Prepend(s, EnterExecution(p), s.PcOf(p).id);
  }

  lemma EnteredCanSend(s: Sys, p: ProcId)
    requires s.PcOf(p).Holding? && Canonical(s, s.PcOf(p).row) && s.PcOf(p).id in s.grants
    ensures Enabled(s, EnterExecution(p))
    ensures var s', id := Act(s, EnterExecution(p)), s.PcOf(p).id;
            id in s'.effects && s'.effects[id].NotSent? && id in s'.live && id in s'.grants
  {
    hide Canonical;
  }

  lemma HolderIsCanonical(s: Sys, p: ProcId)
    requires Inv(s) && s.PcOf(p).Holding?
    ensures Canonical(s, s.PcOf(p).row) && s.PcOf(p).id in s.grants
  {
    hide RowOk, Canonicalize;
    assert PcOk(s, p);
  }

  // A resolved verdict of failure can be trusted for good exactly if no handler is still to send
  // the write, none is under way, and none was accepted.  An executor's verdict always is; an
  // operator's `failed` is not if the lookup came before the write landed.
  lemma FailureIsFinalIff(s: Sys, id: ActionId)
    requires Inv(s) && Closed(s, id)
    ensures Unsent(s, id) <==> !CanStillBeAccepted(s, id)
  {
    hide CanStillBeAccepted, Closed, Inv;
    if Unsent(s, id) {
      hide Unsent;
      NeverAccepted(s, id);
    } else if p: ProcId :| s.PcOf(p).Holding? && s.PcOf(p).id == id {
      HolderCanSend(s, p);
    } else {
      EffectWasGranted(s, id);
      if s.effects[id].Accepted? {
        AcceptedAlready(s, id);
      } else if s.effects[id].NotSent? {
        SendableCanLand(s, id);
      } else {
        DecidedNow(s, id);
      }
    }
  }

  lemma NeverAccepted(s: Sys, id: ActionId)
    requires Inv(s) && Closed(s, id) && Unsent(s, id)
    ensures !CanStillBeAccepted(s, id)
  {
    hide Inv, Closed, Unsent;
    forall actions: seq<Action> | EnabledAll(s, actions) ensures !HasEffect(After(s, actions), id) {
      StaysUnsent(s, actions, id);
    }
  }

  lemma AcceptedAlready(s: Sys, id: ActionId)
    requires HasEffect(s, id)
    ensures CanStillBeAccepted(s, id)
  {
    assert EnabledAll(s, []) && HasEffect(After(s, []), id);
  }

  // ---------- Commands ----------

  // The unique index: one row per owner and command key.
  predicate UniqueCommands(db: Tables) {
    forall a, b | a in db.actions && b in db.actions ::
      SameCommand(db.actions[b], db.actions[a].owner, db.actions[a].commandKey) ==> a == b
  }

  lemma CreateKeepsUnique(codec: Codec, db: Tables, owner: UserId, kind: Kind, payload: Payload, key: string,
                          newId: ActionId, now: Time)
    requires UniqueCommands(db) && newId !in db.actions
    ensures UniqueCommands(Create(codec, db, owner, kind, payload, key, newId, now).0)
  {
    hide Canonicalize;
    var db' := Create(codec, db, owner, kind, payload, key, newId, now).0;
    if db' != db {
      var existing := set id | id in db.actions && SameCommand(db.actions[id], owner, key);
      assert existing == {};
      assert forall id <- db.actions :: SameCommand(db.actions[id], owner, key) ==> id in existing;
    }
  }

  lemma UniqueStays(s: Sys, a: Action)
    requires Inv(s) && Enabled(s, a) && UniqueCommands(s.db)
    ensures UniqueCommands(Act(s, a).db)
  {
    if a.StagePayload? {
      assert a.newId in s.db.actions ==> RowOk(s, a.newId);
      CreateKeepsUnique(s.codec, s.db, a.owner, a.kind, a.payload, a.key, a.newId, a.now);
      hide Create, Inv, UniqueCommands;
    } else {
      EveryStepIsLawful(s, a);
      OthersAddNoRows(s, a);
      hide Act, Inv, Enabled;
    }
  }

  lemma {:induction false} CommandsAreUnique(states: seq<Sys>, actions: seq<Action>, i: nat)
    requires IsRun(states, actions) && i < |states|
    ensures UniqueCommands(states[i].db)
  {
    hide Enabled, Act, Inv;
    if i > 0 {
      CommandsAreUnique(states, actions, i - 1);
      RunsKeepInv(states, actions, i - 1);
      hide UniqueCommands;
      UniqueStays(states[i - 1], actions[i - 1]);
    }
  }

  // A retry of a command finds the action it staged, and the same key with another payload is
  // refused; nothing is stored either way.
  lemma RetryFindsTheAction(codec: Codec, db: Tables, id: ActionId, owner: UserId, kind: Kind, payload: Payload,
                            key: string,
                            newId: ActionId, now: Time)
    requires UniqueCommands(db) && id in db.actions && SameCommand(db.actions[id], owner, key)
    ensures var canonical := Canonicalize(codec.lib, kind, payload);
            Create(codec, db, owner, kind, payload, key, newId, now) ==
            (db, if !ActionHandlers.ValidCommandKey(key) || canonical.None? then Err(InvalidCommand)
                 else if db.actions[id].kind == kind && db.actions[id].payloadHash == codec.hash(canonical.value) then Ok(id)
                 else Err(CommandConflict))
  {
    hide Canonicalize, ActionHandlers.ValidCommandKey;
    var existing := set other | other in db.actions && SameCommand(db.actions[other], owner, key);
    assert existing == {id};
    assert Least(existing) == id;
  }

  // ---------- Staged payloads pass the integrity check ----------

  // A staged, unmodified action passes the check, unless folding made one of its addresses too long.
  lemma StagedIsIntactIff(codec: Codec, db: Tables, owner: UserId, kind: Kind, payload: Payload, key: string,
                          newId: ActionId, now: Time)
    requires codec.lib.WellBehaved() && newId !in db.actions
    ensures var db' := Create(codec, db, owner, kind, payload, key, newId, now).0;
            newId in db'.actions ==>
              (Intact(codec, db'.actions[newId]) <==> AddressesFit(db'.actions[newId].payload))
  {
    hide Canonicalize, Library.WellBehaved, AddressesFit;
    CanonicalizeIsIdempotentIff(codec.lib, kind, payload);
  }

  lemma PayloadStays(s: Sys, a: Action, id: ActionId)
    requires Inv(s) && Enabled(s, a) && id in s.db.actions && id in Act(s, a).db.actions
    requires !(a.EditPayload? && a.id == id)
    ensures Act(s, a).db.actions[id].payload == s.db.actions[id].payload && Act(s, a).codec == s.codec
  {
    hide Inv, Create, RejectAction, Cleanup, ClaimAction, Finalize, OpenReconciliation, CloseReconciliation,
         Consistent, Canonical, ActionHandlers.Execute, Truthful, Foreign, Written, ActionHandlers.Reconcile;
    var blank := Request(Failed, None, None, Claimed);
    if a.StagePayload? {
      StagingLeavesOthers(s, a, id);
    } else if a.OwnerRejects? {
      TransactionsKeepPayloads(s, a.id, a.user, None, blank, ActionHandlers.NotFound, {}, 0, 0, a.at);
    } else if a.CleanUp? {
      TransactionsKeepPayloads(s, 0, 0, None, blank, ActionHandlers.NotFound, a.locked, a.retention, a.now, 0);
    } else if a.Approve? {
      TransactionsKeepPayloads(s, a.id, a.user, None, blank, ActionHandlers.NotFound, {}, 0, a.now, a.at);
    } else if a.FinalizeAttempt? {
      TransactionsKeepPayloads(s, s.PcOf(a.p).id, 0, s.PcOf(a.p).token, s.PcOf(a.p).request, ActionHandlers.NotFound,
                               {}, 0, a.now, a.at);
    } else if a.BeginReconciliation? {
      TransactionsKeepPayloads(s, a.id, a.operator, None, blank, ActionHandlers.NotFound, {}, 0, a.now, a.at);
    } else if a.EndReconciliation? {
      TransactionsKeepPayloads(s, s.PcOf(a.p).id, s.PcOf(a.p).operator, None, blank, s.PcOf(a.p).verdict, {}, 0, 0,
                               a.at);
    }
  }

  predicate SamePayloads(db: Tables, db': Tables) {
    forall id <- db.actions :: id in db'.actions ==> db'.actions[id].payload == db.actions[id].payload
  }

  lemma TransactionsKeepPayloads(s: Sys, id: ActionId, user: UserId, token: Option<Token>, request: Request,
                                 verdict: ActionHandlers.Verdict, locked: set<ActionId>, retention: Time, now: Time,
                              at: Time)
    ensures SamePayloads(s.db, ClaimAction(s.codec, s.db, id, user, now, at).0)
    ensures SamePayloads(s.db, RejectAction(s.db, id, user, at).0)
    ensures SamePayloads(s.db, Finalize(s.db, id, token, request, now, at).0)
    ensures SamePayloads(s.db, OpenReconciliation(s.db, id, user, now, at).0)
    ensures SamePayloads(s.db, CloseReconciliation(s.db, id, user, verdict, at).0)
    ensures SamePayloads(s.db, Cleanup(s.db, locked, now, retention))
  {
    ApprovalKeepsPayloads(s, id, user, now, at);
    SettlingKeepsPayloads(s, id, user, token, request, verdict, now, at);
    hide ClaimAction, RejectAction, Finalize, OpenReconciliation, CloseReconciliation;
  }

  lemma ApprovalKeepsPayloads(s: Sys, id: ActionId, user: UserId, now: Time, at: Time)
    ensures SamePayloads(s.db, ClaimAction(s.codec, s.db, id, user, now, at).0)
    ensures SamePayloads(s.db, RejectAction(s.db, id, user, at).0)
  {
    hide Intact, SamePayloads;
    OneRowKeepsPayload(s.db, ClaimAction(s.codec, s.db, id, user, now, at).0, id);
    OneRowKeepsPayload(s.db, RejectAction(s.db, id, user, at).0, id);
  }

  lemma OneRowKeepsPayload(db: Tables, db': Tables, id: ActionId)
    requires db' == db || (id in db.actions && id in db'.actions && db'.actions == db.actions[id := db'.actions[id]]
                           && db'.actions[id].payload == db.actions[id].payload)
    ensures SamePayloads(db, db')
  {
  }

  lemma SettlingKeepsPayloads(s: Sys, id: ActionId, user: UserId, token: Option<Token>, request: Request,
                              verdict: ActionHandlers.Verdict, now: Time, at: Time)
    ensures SamePayloads(s.db, Finalize(s.db, id, token, request, now, at).0)
    ensures SamePayloads(s.db, OpenReconciliation(s.db, id, user, now, at).0)
    ensures SamePayloads(s.db, CloseReconciliation(s.db, id, user, verdict, at).0)
  {
    hide SamePayloads;
    OneRowKeepsPayload(s.db, Finalize(s.db, id, token, request, now, at).0, id);
    OneRowKeepsPayload(s.db, OpenReconciliation(s.db, id, user, now, at).0, id);
    OneRowKeepsPayload(s.db, CloseReconciliation(s.db, id, user, verdict, at).0, id);
  }

  // A row whose payload nobody edits keeps passing the check, up to its approval.
  lemma {:induction false} UneditedStaysIntact(states: seq<Sys>, actions: seq<Action>, i: nat, j: nat, id: ActionId)
    requires IsRun(states, actions) && i <= j < |states|
    requires forall k :: i <= k <= j ==> id in states[k].db.actions
    requires forall k :: i <= k < j ==> !(actions[k].EditPayload? && actions[k].id == id)
    requires Intact(states[i].codec, states[i].db.actions[id])
    ensures Intact(states[j].codec, states[j].db.actions[id])
  {
    hide Enabled, Act, Init, Inv, Canonicalize;
    if i < j {
      UneditedStaysIntact(states, actions, i, j - 1, id);
      RunsKeepInv(states, actions, j - 1);
      assert id in states[j - 1].db.actions && id in states[j].db.actions;
      StepsAreLawful(states, actions, j - 1);
      PayloadStays(states[j - 1], actions[j - 1], id);
    }
  }
}
