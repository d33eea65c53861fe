// What holds of pending actions in every reachable state, and over every run.

module ActionSafety {
  import opened Common
  import opened ActionPayloads
  import ActionHandlers
  import opened ActionRows
  import opened ActionProtocol

  // ---------- The audit log ----------

  // The status graph.  Resolved statuses have no way out, and only reconciliation_required has a
  // self-loop.
  predicate StatusEdge(a: Status, b: Status) {
    match a
    case Pending => b.Processing? || b.Rejected? || b.Expired? || b.ReconciliationRequired?
    case Processing => b.Succeeded? || b.Failed? || b.ReconciliationRequired?
    case ReconciliationRequired => b.Succeeded? || b.Failed? || b.ReconciliationRequired?
    case _ => false
  }

  // The log replays the status from `pending`.
  predicate Replays(log: seq<Event>, status: Status) {
    if log == [] then status.Pending?
    else
      var last := log[|log| - 1];
      && last.newStatus == status && StatusEdge(last.oldStatus, status)
      && Replays(log[..|log| - 1], last.oldStatus)
  }

  // The same, event by event.
  predicate Chained(log: seq<Event>, status: Status) {
    && (forall i :: 0 <= i < |log| ==> StatusEdge(log[i].oldStatus, log[i].newStatus))
    && (forall i :: 0 < i < |log| ==> log[i].oldStatus == log[i - 1].newStatus)
    && (if log == [] then status.Pending? else log[0].oldStatus.Pending? && log[|log| - 1].newStatus == status)
  }

  lemma {:induction false} ReplayIsChained(log: seq<Event>, status: Status)
    ensures Replays(log, status) <==> Chained(log, status)
  {
    if log != [] {
      var init, last := log[..|log| - 1], log[|log| - 1];
      ReplayIsChained(init, last.oldStatus);
      if init != [] {
        assert init[|init| - 1] == log[|log| - 2];
      }
    }
  }

  lemma OneMoreEvent(log: seq<Event>, event: Event)
    requires Replays(log, event.oldStatus) && StatusEdge(event.oldStatus, event.newStatus)
    ensures Replays(log + [event], event.newStatus)
  {
    assert (log + [event])[..|log|] == log;
  }

  // ---------- The invariant ----------

  ghost predicate RowOk(s: Sys, id: ActionId)
    requires id in s.db.actions
  {
    var row := s.db.actions[id];
    && id in s.used && id in s.db.audit
    && Replays(s.db.audit[id], row.status)
    && (id in s.grants <==> row.attemptCount == 1)
    && row.attemptCount <= 1
    && (row.status.Pending? ==> id !in s.grants)
    && (row.status.Processing? ==> id in s.grants)
    && row.attemptToken == (if id in s.grants then Some(s.grants[id].token) else None)
    && (Resolved(row.status) ==> row.processedAt.Some?)
    && (row.status.Succeeded? ==> Evident(s, row))
    && (ExecutorSucceeded(s.db.audit[id]) ==> HasEffect(s, id))
    && (id in s.grants ==> SameIdentity(s.grants[id].row, row))
    && (ExecutorFailed(s.db.audit[id]) ==> row.status.Failed? && Unsent(s, id))
  }

  // The command a row stands for.
  predicate SameIdentity(a: Row, b: Row) {
    a.owner == b.owner && a.kind == b.kind && a.commandKey == b.commandKey
  }

  // An artifact in the owner's account that carries the command's marker.
  predicate Carries(a: Artifact, row: Row) {
    && a.account == row.owner
    && match row.kind
       case SendEmail => a.mark.OnMessage? && a.mark.marker == Some(row.commandKey)
       case SendReply => a.mark.OnMessage? && a.mark.marker == Some(row.commandKey)
       case CreateEvent => a.mark == OnEvent(Some(row.commandKey))
       case CreateTask =>
         a.mark.InTask? && ActionHandlers.Contains(a.mark.notes, ActionHandlers.TaskMarker(row.commandKey))
  }

  predicate Evident(s: Sys, row: Row) {
    exists a <- s.artifacts :: Carries(a, row)
  }

  predicate HasEffect(s: Sys, id: ActionId) {
    id in s.effects && s.effects[id].Accepted?
  }

  // The write of this action was not accepted, and never will be.
  ghost predicate Unsent(s: Sys, id: ActionId) {
    && (id in s.effects ==> s.effects[id].Refused? || (s.effects[id].NotSent? && id !in s.live))
    && (forall p: ProcId :: !(s.PcOf(p).Holding? && s.PcOf(p).id == id))
  }

  // The last word on the action was an executor's failure verdict.
  predicate ExecutorFailed(log: seq<Event>) {
    log != [] && (log[|log| - 1].eventType.ConfirmedFailure? || log[|log| - 1].eventType.PreDispatchFailed?)
  }

  // The last word on the action was an executor's success verdict.
  predicate ExecutorSucceeded(log: seq<Event>) {
    log != [] && log[|log| - 1].eventType.SucceededByExecutor?
  }

  // Every accepted write left its artifact, and every artifact is of such a write or of others.
  predicate ArtifactsOk(s: Sys) {
    && (forall id <- s.effects :: s.effects[id].Accepted? ==>
          id in s.grants && Written(s.codec, id, s.grants[id].row, s.effects[id].thread) in s.artifacts)
    && (forall a <- s.artifacts :: Foreign(a) || Authored(s, a))
  }

  predicate Authored(s: Sys, a: Artifact) {
    && a.author.Some? && HasEffect(s, a.author.value) && a.author.value in s.grants
    && a == Written(s.codec, a.author.value, s.grants[a.author.value].row, s.effects[a.author.value].thread)
  }

  // Execution is entered only under a claim by the owner, before expiry, of an intact payload.
  predicate GrantOk(codec: Codec, g: Grant) {
    g.row.status.Pending? && g.row.owner == g.user && g.now < g.row.expiresAt && Intact(codec, g.row)
  }

  predicate HistoryOk(s: Sys) {
    && (forall id <- s.grants :: id in s.used && s.grants[id].token < s.db.nextToken && GrantOk(s.codec, s.grants[id]))
    && (forall id <- s.effects :: id in s.grants)
    && (forall id <- s.live :: id in s.effects)
    && s.db.audit.Keys == s.db.actions.Keys
  }

  // The dictionary an executing handler carries is the claimed row.
  predicate Claims(s: Sys, p: ProcId, id: ActionId, token: Option<Token>) {
    id in s.grants && s.grants[id].proc == p && token == Some(s.grants[id].token)
  }

  ghost predicate RequestOk(s: Sys, id: ActionId, request: Request) {
    && StatusEdge(Processing, request.status)
    && (request.status.Succeeded? ==> HasEffect(s, id))
    && (request.eventType.SucceededByExecutor? ==> request.status.Succeeded?)
    && (request.eventType.ConfirmedFailure? || request.eventType.PreDispatchFailed? ==>
          request.status.Failed? && Unsent(s, id))
    && (request.status.ReconciliationRequired? || request.status.Succeeded? ==>
          !request.eventType.ConfirmedFailure? && !request.eventType.PreDispatchFailed?)
  }

  ghost predicate PcOk(s: Sys, p: ProcId) {
    match s.PcOf(p)
    case Free => true
    case Holding(id, row) =>
      && Claims(s, p, id, row.attemptToken) && id !in s.effects
      && row.payload == s.grants[id].row.payload && row.kind == s.grants[id].row.kind
      && row.payloadHash == s.grants[id].row.payloadHash
    case Executing(id, row) =>
      && Claims(s, p, id, row.attemptToken) && id in s.effects
      && row.payload == s.grants[id].row.payload && row.kind == s.grants[id].row.kind
      && row.payloadHash == s.grants[id].row.payloadHash
    case Finishing(id, token, request) => Claims(s, p, id, token) && RequestOk(s, id, request)
    case Reconciling(id, row, _) => Identified(s, id, row)
    case Deciding(id, row, _, verdict) => Identified(s, id, row) && (verdict.Found? ==> Evident(s, row))
  }

  // The dictionary a reconciling handler carries is of the stored command.
  predicate Identified(s: Sys, id: ActionId, row: Row) {
    id in s.used && (id in s.db.actions ==> SameIdentity(row, s.db.actions[id]))
  }

  ghost predicate Inv(s: Sys) {
    && HistoryOk(s) && ArtifactsOk(s)
    && (forall id <- s.db.actions :: RowOk(s, id))
    && (forall p: ProcId :: PcOk(s, p))
  }

  // ---------- Steps that leave the tables alone ----------

  // What is known about effects stays true.
  ghost predicate Stable(s: Sys, s': Sys) {
    && (forall id: ActionId :: HasEffect(s, id) ==> HasEffect(s', id))
    && (forall id: ActionId :: Unsent(s, id) ==> Unsent(s', id))
    && s.artifacts <= s'.artifacts
  }

  // Stored rows keep their identity, and no used ID comes back.
  predicate Lineage(s: Sys, s': Sys) {
    && s.used <= s'.used
    && (forall id <- s'.db.actions :: id in s.used ==>
          id in s.db.actions && SameIdentity(s.db.actions[id], s'.db.actions[id]))
  }

  lemma EvidenceStays(s: Sys, s': Sys, row: Row)
    requires Evident(s, row) && s.artifacts <= s'.artifacts
    ensures Evident(s', row)
  {
  }

  lemma ArtifactsStay(s: Sys, s': Sys)
    requires ArtifactsOk(s) && s'.artifacts == s.artifacts && s'.codec == s.codec
    requires forall id: ActionId :: HasEffect(s', id) <==> HasEffect(s, id)
    requires forall id: ActionId :: HasEffect(s, id) ==> id in s'.effects && s'.effects[id] == s.effects[id]
    requires forall id <- s.grants :: id in s'.grants && s'.grants[id] == s.grants[id]
    ensures ArtifactsOk(s')
  {
    hide Written, Foreign;
    forall id <- s'.effects ensures s'.effects[id].Accepted? ==>
        id in s'.grants && Written(s'.codec, id, s'.grants[id].row, s'.effects[id].thread) in s'.artifacts {
      assert HasEffect(s', id) ==> HasEffect(s, id);
    }
  }

  // An accepted write is evidence for its row.
  lemma EffectIsEvident(s: Sys, id: ActionId)
    requires ArtifactsOk(s) && HasEffect(s, id) && id in s.db.actions && RowOk(s, id)
    ensures Evident(s, s.db.actions[id])
  {
    hide Replays, Unsent;
    var row := s.grants[id].row;
    ActionHandlers.CreatedTaskIsFound(NotesOf(s.codec.lib, row), row.commandKey);
    assert Carries(Written(s.codec, id, row, s.effects[id].thread), s.db.actions[id]);
  }

  ghost predicate OnlyMoves(s: Sys, s': Sys, p: ProcId) {
    forall q: ProcId :: q != p ==> s'.PcOf(q) == s.PcOf(q)
  }

  // Another handler's knowledge survives: nobody enters an execution but the holder of its claim.
  lemma OthersStayOk(s: Sys, s': Sys, q: ProcId)
    requires PcOk(s, q) && Stable(s, s') && s'.PcOf(q) == s.PcOf(q) && Lineage(s, s')
    requires forall id <- s.grants :: id in s'.grants && s'.grants[id] == s.grants[id]
    requires forall id <- s.effects :: id in s'.effects
    requires s.PcOf(q).Holding? && s.PcOf(q).id in s'.effects ==> s.PcOf(q).id in s.effects
    ensures PcOk(s', q)
  {
    hide Intact, GrantOk, Carries;
  }

  lemma HandlerStep(s: Sys, s': Sys, p: ProcId)
    requires Inv(s) && Stable(s, s') && OnlyMoves(s, s', p)
    requires s'.db == s.db && s'.grants == s.grants && s'.used == s.used && s'.codec == s.codec
    requires forall id <- s.effects :: id in s'.effects
    requires forall id <- s'.effects :: id in s.effects || (id in s.grants && s.grants[id].proc == p)
    requires forall id <- s'.live :: id in s'.effects
    requires PcOk(s', p) && ArtifactsOk(s')
    ensures Inv(s')
  {
    hide Replays, GrantOk, Unsent, ExecutorFailed, RequestOk, HasEffect, ArtifactsOk;
    forall q: ProcId ensures PcOk(s', q) {
      if q != p {
        assert PcOk(s, q) && s'.PcOf(q) == s.PcOf(q);
        OthersStayOk(s, s', q);
      }
    }
    forall id <- s'.db.actions ensures RowOk(s', id) {
      assert RowOk(s, id);
      RowStable(s, s', id);
    }
  }

  lemma RowStable(s: Sys, s': Sys, id: ActionId)
    requires id in s.db.actions && RowOk(s, id) && id in s'.db.actions && id in s'.db.audit
    requires s'.db.actions[id] == s.db.actions[id] && s'.db.audit[id] == s.db.audit[id]
    requires (id in s.grants <==> id in s'.grants) && (id in s.grants ==> s'.grants[id] == s.grants[id])
    requires s.used <= s'.used && (HasEffect(s, id) ==> HasEffect(s', id)) && (Unsent(s, id) ==> Unsent(s', id))
    requires s.artifacts <= s'.artifacts
    ensures RowOk(s', id)
  {
    hide Replays, HasEffect, Unsent, ExecutorFailed, ExecutorSucceeded, Carries;
  }

  // Only one handler holds the claim of an action.
  lemma OnlyHolder(s: Sys, p: ProcId, q: ProcId, id: ActionId)
    requires PcOk(s, q) && id in s.grants && s.grants[id].proc == p && s.PcOf(q).Holding? && s.PcOf(q).id == id
    ensures q == p
  {
  }

  lemma ServicesMissingKeeps(s: Sys, p: ProcId, code: Code)
    requires Inv(s) && Enabled(s, ServicesMissing(p, code))
    ensures Inv(Act(s, ServicesMissing(p, code)))
  {
    var s' := Act(s, ServicesMissing(p, code));
    var id := s.PcOf(p).id;
    assert PcOk(s, p);
    NobodyElseHolds(s, s', p, id);
    FewerHolders(s, s', p);
    MissingIsOk(s, s', p, code);
    ArtifactsStay(s, s');
    hide PcOk, ArtifactsOk, RowOk, Stable;
    HandlerStep(s, s', p);
  }

  lemma MissingIsOk(s: Sys, s': Sys, p: ProcId, code: Code)
    requires Inv(s) && Enabled(s, ServicesMissing(p, code)) && s' == Act(s, ServicesMissing(p, code))
    requires forall q: ProcId :: !(s'.PcOf(q).Holding? && s'.PcOf(q).id == s.PcOf(p).id)
    ensures PcOk(s', p)
  {
    hide RowOk, ArtifactsOk, GrantOk;
    assert PcOk(s, p);
    assert RequestOk(s', s.PcOf(p).id, PreDispatchRequest(code));
  }

  lemma NobodyElseHolds(s: Sys, s': Sys, p: ProcId, id: ActionId)
    requires (forall q: ProcId :: PcOk(s, q)) && OnlyMoves(s, s', p)
    requires id in s.grants && s.grants[id].proc == p && !s'.PcOf(p).Holding?
    ensures forall q: ProcId :: !(s'.PcOf(q).Holding? && s'.PcOf(q).id == id)
  {
    forall q: ProcId ensures !(s'.PcOf(q).Holding? && s'.PcOf(q).id == id) {
      if q != p && s.PcOf(q).Holding? && s.PcOf(q).id == id {
        OnlyHolder(s, p, q, id);
      }
    }
  }

  // Steps that change no effect keep what is known, as long as nobody new holds a claim.
  lemma FewerHolders(s: Sys, s': Sys, p: ProcId)
    requires OnlyMoves(s, s', p) && s'.effects == s.effects && s'.live <= s.live && s.artifacts <= s'.artifacts
    requires s'.PcOf(p).Holding? ==> s'.PcOf(p) == s.PcOf(p)
    ensures Stable(s, s')
  {
    forall id: ActionId, q: ProcId | Unsent(s, id) ensures !(s'.PcOf(q).Holding? && s'.PcOf(q).id == id) {
      assert !(s.PcOf(q).Holding? && s.PcOf(q).id == id);
    }
  }

  lemma EnterExecutionKeeps(s: Sys, p: ProcId)
    requires Inv(s) && Enabled(s, EnterExecution(p))
    ensures Inv(Act(s, EnterExecution(p)))
  {
    hide Canonical, RowOk, GrantOk;
    var s' := Act(s, EnterExecution(p));
    assert PcOk(s, p);
    assert PcOk(s', p);
    hide PcOk;
    forall id: ActionId | Unsent(s, id) ensures Unsent(s', id) {
      assert !(s.PcOf(p).Holding? && s.PcOf(p).id == id);
      assert forall q: ProcId :: s'.PcOf(q).Holding? ==> s.PcOf(q) == s'.PcOf(q);
    }
    assert Stable(s, s');
    hide Stable;
    HandlerStep(s, s', p);
  }

  lemma EffectStepKeeps(s: Sys, s': Sys, id: ActionId, d: Dispatch)
    requires Inv(s) && id in s.effects && !s.effects[id].Accepted? && id in s.grants
    requires s.effects[id].NotSent? ==> id in s.live
    requires !s.effects[id].Refused?
    requires s' == s.(effects := s.effects[id := d], artifacts := s'.artifacts)
    requires s'.artifacts ==
             if d.Accepted? then s.artifacts + {Written(s.codec, id, s.grants[id].row, d.thread)} else s.artifacts
    ensures Inv(s')
  {
    hide Replays, Written, Carries, GrantOk;
    forall other: ActionId | Unsent(s, other) ensures Unsent(s', other) {
      assert forall q: ProcId :: s'.PcOf(q) == s.PcOf(q);
    }
    EffectArtifacts(s, s', id, d);
    hide ArtifactsOk, Foreign;
    assert Stable(s, s');
    forall q: ProcId ensures PcOk(s', q) {
      assert PcOk(s, q);
      OthersStayOk(s, s', q);
    }
    forall i <- s'.db.actions ensures RowOk(s', i) {
      assert RowOk(s, i);
      RowStable(s, s', i);
    }
  }

  lemma EffectArtifacts(s: Sys, s': Sys, id: ActionId, d: Dispatch)
    requires ArtifactsOk(s) && id in s.effects && !s.effects[id].Accepted? && id in s.grants
    requires s' == s.(effects := s.effects[id := d], artifacts := s'.artifacts)
    requires s'.artifacts ==
             if d.Accepted? then s.artifacts + {Written(s.codec, id, s.grants[id].row, d.thread)} else s.artifacts
    ensures ArtifactsOk(s')
  {
    assert d.Accepted? ==> Written(s.codec, id, s.grants[id].row, d.thread).author == Some(id);
    hide Written, Foreign;
    forall a <- s'.artifacts ensures Foreign(a) || Authored(s', a) {
      assert a in s.artifacts ==> Foreign(a) || Authored(s, a);
    }
  }

  lemma OthersWriteKeeps(s: Sys, artifact: Artifact)
    requires Inv(s) && Foreign(artifact)
    ensures Inv(s.(artifacts := s.artifacts + {artifact}))
  {
    var s' := s.(artifacts := s.artifacts + {artifact});
    hide Replays, Written, Carries, GrantOk, Foreign;
    forall a <- s'.artifacts ensures Foreign(a) || Authored(s', a) {
      assert a in s.artifacts ==> Foreign(a) || Authored(s, a);
    }
    FewerHolders(s, s', 0);
    assert PcOk(s, 0);
    OthersStayOk(s, s', 0);
    HandlerStep(s, s', 0);
  }

  // What a lookup finds is evidence: the verdict rests on something in the owner's account that
  // carries the command's marker.
  lemma FoundIsEvidence(s: Sys, row: Row, canonical: Option<Payload>, e: ActionHandlers.Evidence)
    requires ActionHandlers.Fits(row.kind, e) && Truthful(s.artifacts, row.owner, e)
    requires ActionHandlers.Reconcile(row.kind, canonical, row.commandKey, e).Found?
    ensures Evident(s, row)
  {
    ActionHandlers.FoundCarriesMarker(row.kind, canonical, row.commandKey, e);
    hide ActionHandlers.Reconcile, ActionHandlers.Contains;
    match e
    case NoService =>
    case MailEvidence(_, found) => HeldIsEvidence(s, row, OnMessage(found.value.marker, found.value.recipients, found.value.thread));
    case EventEvidence(event) => HeldIsEvidence(s, row, OnEvent(event.value.value.marker));
    case TaskEvidence(scan) =>
      var t: ActionHandlers.Task :|
        ActionHandlers.Shows(scan.value, t)
        && ActionHandlers.Contains(t.notes, ActionHandlers.TaskMarker(row.commandKey));
      ShownIsHeld(s.artifacts, row.owner, scan.value, t);
      HeldIsEvidence(s, row, InTask(t.notes));
  }

  lemma ShownIsHeld(artifacts: set<Artifact>, account: UserId, lists: seq<ActionHandlers.ScannedList>,
                    t: ActionHandlers.Task)
    requires Truthful(artifacts, account, ActionHandlers.TaskEvidence(ActionHandlers.Answered(lists)))
    requires ActionHandlers.Shows(lists, t)
    ensures Holds(artifacts, account, InTask(t.notes))
  {
    var l :| l in lists && ActionHandlers.InPages(l.tasks, t);
    var p :| p in l.tasks && p.Answered? && t in p.value.items;
  }

  lemma HeldIsEvidence(s: Sys, row: Row, mark: Mark)
    requires Holds(s.artifacts, row.owner, mark) && Carries(Artifact(row.owner, None, mark), row)
    ensures Evident(s, row)
  {
    var a :| a in s.artifacts && a.account == row.owner && a.mark == mark;
    assert Carries(a, row);
  }

  lemma LookUpKeeps(s: Sys, p: ProcId, e: ActionHandlers.Evidence)
    requires Inv(s) && Enabled(s, LookUp(p, e))
    ensures Inv(LookUpStep(s, p, e))
  {
    var pc := s.PcOf(p);
    assert PcOk(s, p);
    var canonical := Canonicalize(s.codec.lib, pc.row.kind, pc.row.payload);
    var verdict := ActionHandlers.Reconcile(pc.row.kind, canonical, pc.row.commandKey, e);
    if verdict.Found? {
      FoundIsEvidence(s, pc.row, canonical, e);
    }
    hide Inv, ActionHandlers.Reconcile, Truthful, ActionHandlers.Fits, Canonicalize, Evident;
    var s' := LookUpStep(s, p, e);
    EvidenceUnmoved(s, s', pc.row);
    assert PcOk(s', p);
    hide PcOk;
    QuietHandlerKeeps(s, p, Deciding(pc.id, pc.row, pc.operator, verdict));
  }

  lemma EvidenceUnmoved(s: Sys, s': Sys, row: Row)
    requires s' == s.(procs := s'.procs)
    ensures Evident(s', row) <==> Evident(s, row)
  {
  }

  // An outcome asks only for what the provider's state bears out.
  lemma OutcomeIsSound(s: Sys, p: ProcId, available: bool, world: ActionHandlers.World)
    requires Inv(s) && Enabled(s, EndExecution(p, available, world))
    ensures var pc := s.PcOf(p);
            var outcome := ActionHandlers.Execute(pc.row.kind, Canonical(s, pc.row), available, world).0;
            && (outcome.Done? ==> s.effects[pc.id].Accepted?)
            && (outcome.ConfirmedFailure? ==> s.effects[pc.id].NotSent? || s.effects[pc.id].Refused?)
  {
    var pc := s.PcOf(p);
    var d := s.effects[pc.id];
    ActionHandlers.VerdictsAreSound(pc.row.kind, Canonical(s, pc.row), available, world, d.Accepted?);
    if d.InFlight? {
      UndecidedIsUnclear(pc.row.kind, Canonical(s, pc.row), available, world);
    }
  }

  lemma UndecidedIsUnclear(kind: Kind, canonical: bool, available: bool, world: ActionHandlers.World)
    requires ActionHandlers.Chain(world.lists) && world.write.Unclear?
    requires ActionHandlers.MarkedCount(ActionHandlers.Execute(kind, canonical, available, world).1) > 0
    ensures ActionHandlers.Execute(kind, canonical, available, world).0.Ambiguous?
  {
    var (outcome, calls) := ActionHandlers.Execute(kind, canonical, available, world);
    if !outcome.Ambiguous? {
      assert forall c <- calls :: !ActionHandlers.Marked(c);
      ActionHandlers.Unmarked(calls);
    }
  }

  lemma EndExecutionKeeps(s: Sys, p: ProcId, available: bool, world: ActionHandlers.World)
    requires Inv(s) && Enabled(s, EndExecution(p, available, world))
    ensures Inv(Act(s, EndExecution(p, available, world)))
  {
    OutcomeIsSound(s, p, available, world);
    hide ActionHandlers.Execute, Consistent, Canonical, RowOk, HistoryOk;
    assert PcOk(s, p);
    hide PcOk;
    var outcome := ActionHandlers.Execute(s.PcOf(p).row.kind, Canonical(s, s.PcOf(p).row), available, world).0;
    OutcomeKeeps(s, p, outcome);
  }

  function Ended(s: Sys, p: ProcId, outcome: ActionHandlers.Outcome): Sys
    requires s.PcOf(p).Executing?
  {
    var pc := s.PcOf(p);
    s.(live := s.live - {pc.id}).To(p, Finishing(pc.id, pc.row.attemptToken, RequestFor(outcome)))
  }

  lemma OutcomeRequest(s: Sys, p: ProcId, outcome: ActionHandlers.Outcome)
    requires Inv(s) && s.PcOf(p).Executing? && s.PcOf(p).id in s.effects
    requires outcome.Done? ==> s.effects[s.PcOf(p).id].Accepted?
    requires outcome.ConfirmedFailure? ==> s.effects[s.PcOf(p).id].NotSent? || s.effects[s.PcOf(p).id].Refused?
    ensures PcOk(Ended(s, p, outcome), p)
  {
    hide RowOk, HistoryOk;
    assert PcOk(s, p);
    NobodyElseHolds(s, Ended(s, p, outcome), p, s.PcOf(p).id);
  }

  lemma OutcomeKeeps(s: Sys, p: ProcId, outcome: ActionHandlers.Outcome)
    requires Inv(s) && s.PcOf(p).Executing? && s.PcOf(p).id in s.effects
    requires outcome.Done? ==> s.effects[s.PcOf(p).id].Accepted?
    requires outcome.ConfirmedFailure? ==> s.effects[s.PcOf(p).id].NotSent? || s.effects[s.PcOf(p).id].Refused?
    ensures Inv(Ended(s, p, outcome))
  {
    hide RowOk, PcOk, GrantOk;
    OutcomeRequest(s, p, outcome);
    FewerHolders(s, Ended(s, p, outcome), p);
    hide Stable;
    HandlerStep(s, Ended(s, p, outcome), p);
  }

  lemma QuietHandlerKeeps(s: Sys, p: ProcId, pc: Pc)
    requires Inv(s) && (pc.Holding? ==> pc == s.PcOf(p)) && PcOk(s.To(p, pc), p)
    ensures Inv(s.To(p, pc))
  {
    FewerHolders(s, s.To(p, pc), p);
    HandlerStep(s, s.To(p, pc), p);
  }

  // ---------- Steps on the tables ----------

  // One row moves along an edge of the status graph, with the event that says so.
  ghost predicate RowMoves(db: Tables, db': Tables, id: ActionId, event: Event) {
    && id in db.actions && id in db'.actions
    && db' == db.With(id, db'.actions[id], event).(nextToken := db'.nextToken) && db.nextToken <= db'.nextToken
    && event.oldStatus == db.actions[id].status && event.newStatus == db'.actions[id].status
    && StatusEdge(event.oldStatus, event.newStatus)
  }

  predicate SameRow(db: Tables, db': Tables, id: ActionId) {
    && id in db.actions && id in db'.actions && db'.actions[id] == db.actions[id]
    && id in db.audit && id in db'.audit && db'.audit[id] == db.audit[id]
  }

  // A transaction that claims nothing keeps the invariant if the rows it changes are right.
  lemma TablesStep(s: Sys, s': Sys, p: ProcId)
    requires Inv(s) && s' == s.(db := s'.db, used := s'.used, procs := s'.procs) && s.used <= s'.used
    requires OnlyMoves(s, s', p) && (s'.PcOf(p).Holding? ==> s'.PcOf(p) == s.PcOf(p)) && PcOk(s', p)
    requires s.db.nextToken <= s'.db.nextToken && s'.db.audit.Keys == s'.db.actions.Keys
    requires forall id <- s'.db.actions :: SameRow(s.db, s'.db, id) || RowOk(s', id)
    requires Lineage(s, s')
    ensures Inv(s')
  {
    hide RowOk, GrantOk, Unsent, RequestOk, Lineage, Authored, Written, Foreign;
    ArtifactsStay(s, s');
    hide HasEffect, ArtifactsOk;
    FewerHolders(s, s', p);
    forall q: ProcId ensures PcOk(s', q) {
      if q != p {
        assert PcOk(s, q);
        OthersStayOk(s, s', q);
      }
    }
    hide PcOk;
    forall id <- s'.db.actions ensures RowOk(s', id) {
      if SameRow(s.db, s'.db, id) {
        assert RowOk(s, id);
        RowStable(s, s', id);
      }
    }
  }

  lemma LogGrows(db: Tables, db': Tables, id: ActionId, event: Event)
    requires RowMoves(db, db', id, event) && id in db.audit && Replays(db.audit[id], db.actions[id].status)
    ensures id in db'.actions && id in db'.audit && Replays(db'.audit[id], db'.actions[id].status)
  {
    OneMoreEvent(db.audit[id], event);
  }

  // A row other than the claimed one moves; attempts and leases stay.
  lemma RowMoveKeeps(s: Sys, s': Sys, id: ActionId, event: Event, p: ProcId)
    requires Inv(s) && RowMoves(s.db, s'.db, id, event)
    requires s' == s.(db := s'.db, procs := s'.procs) && OnlyMoves(s, s', p)
    requires s'.db.nextToken == s.db.nextToken
    requires !event.newStatus.Processing?
    requires var row, row' := s.db.actions[id], s'.db.actions[id];
             && row'.attemptToken == row.attemptToken && row'.attemptCount == row.attemptCount
             && SameIdentity(row, row')
    requires Resolved(event.newStatus) ==> s'.db.actions[id].processedAt.Some?
    requires event.newStatus.Succeeded? ==> Evident(s, s.db.actions[id])
    requires event.eventType.SucceededByExecutor? ==> HasEffect(s, id)
    requires event.eventType.ConfirmedFailure? || event.eventType.PreDispatchFailed? ==>
               event.newStatus.Failed? && Unsent(s, id)
    requires (s'.PcOf(p).Holding? ==> s'.PcOf(p) == s.PcOf(p)) && PcOk(s', p)
    ensures Inv(s')
  {
    hide Replays, GrantOk, Unsent, RequestOk;
    FewerHolders(s, s', p);
    assert RowOk(s, id);
    LogGrows(s.db, s'.db, id, event);
    assert RowOk(s', id);
    assert s'.db.audit.Keys == s'.db.actions.Keys;
    hide StatusEdge, ExecutorFailed, PcOk, RowOk, HistoryOk;
    TablesStep(s, s', p);
  }

  // Nothing in the tables changes.
  lemma SameTablesKeeps(s: Sys, s': Sys, p: ProcId)
    requires Inv(s) && s' == s.(procs := s'.procs) && OnlyMoves(s, s', p)
    requires (s'.PcOf(p).Holding? ==> s'.PcOf(p) == s.PcOf(p)) && PcOk(s', p)
    ensures Inv(s')
  {
    FewerHolders(s, s', p);
    HandlerStep(s, s', p);
  }

  lemma OwnerRejectsKeeps(s: Sys, id: ActionId, user: UserId, at: Time)
    requires Inv(s)
    ensures Inv(Act(s, OwnerRejects(id, user, at)))
  {
    hide Inv;
    var s' := Act(s, OwnerRejects(id, user, at));
    HandlersUnmoved(s, s');
    hide PcOk;
    if s'.db != s.db {
      var event := Event(RejectedByOwner, Pending, Rejected, Some(user), s.db.actions[id].attemptToken, None);
      RowMoveKeeps(s, s', id, event, 0);
    } else {
      SameTablesKeeps(s, s', 0);
    }
  }

  lemma MarkedUnknown(s: Sys, id: ActionId, reason: Code, at: Time, actor: Option<UserId>, eventType: EventType)
    requires id in s.db.actions && !Resolved(s.db.actions[id].status)
    ensures var db' := MarkUnknown(s.db, id, reason, at, actor, eventType);
            RowMoves(s.db, db', id,
              Event(eventType, s.db.actions[id].status, ReconciliationRequired, actor, s.db.actions[id].attemptToken,
                    Some(reason)))
  {
  }

  lemma UnknownKeeps(s: Sys, s': Sys, id: ActionId, reason: Code, at: Time, actor: Option<UserId>,
                     eventType: EventType, p: ProcId)
    requires Inv(s) && id in s.db.actions && !Resolved(s.db.actions[id].status)
    requires !eventType.ConfirmedFailure? && !eventType.PreDispatchFailed? && !eventType.SucceededByExecutor?
    requires s' == s.(db := MarkUnknown(s.db, id, reason, at, actor, eventType), procs := s'.procs)
    requires OnlyMoves(s, s', p)
    requires (s'.PcOf(p).Holding? ==> s'.PcOf(p) == s.PcOf(p)) && PcOk(s', p)
    ensures Inv(s')
  {
    hide Inv, PcOk;
    MarkedUnknown(s, id, reason, at, actor, eventType);
    RowMoveKeeps(s, s', id,
      Event(eventType, s.db.actions[id].status, ReconciliationRequired, actor, s.db.actions[id].attemptToken,
            Some(reason)), p);
  }

  lemma PcIsOk(s: Sys, p: ProcId)
    requires Inv(s)
    ensures PcOk(s, p)
  {
  }

  lemma FreeIsOk(s: Sys, p: ProcId)
    requires s.PcOf(p).Free?
    ensures PcOk(s, p)
  {
  }

  lemma FinalizeKeeps(s: Sys, p: ProcId, now: Time, at: Time)
    requires Inv(s) && Enabled(s, FinalizeAttempt(p, now, at))
    ensures Inv(Act(s, FinalizeAttempt(p, now, at)))
  {
    hide Create, ClaimAction, RejectAction, Cleanup, OpenReconciliation, CloseReconciliation, Consistent, Canonical,
         ActionHandlers.Execute, Truthful, Foreign, Written, ActionHandlers.Reconcile;
    var s' := Act(s, FinalizeAttempt(p, now, at));
    var pc := s.PcOf(p);
    PcIsOk(s, p);
    FreeIsOk(s', p);
    assert OnlyMoves(s, s', p);
    hide Inv, MarkUnknown, OnlyMoves, Enabled;
    assert RequestOk(s, pc.id, pc.request);
    hide PcOk, Unsent, HasEffect;
    if pc.token.None? || pc.id !in s.db.actions || !s.db.actions[pc.id].status.Processing?
       || s.db.actions[pc.id].attemptToken != pc.token {
      SameTablesKeeps(s, s', p);
    } else if LeaseOver(s.db.actions[pc.id], now) {
      UnknownKeeps(s, s', pc.id, ActionHandlers.ProcessingLeaseExpired, at, None, MarkedForReconciliation, p);
    } else if pc.request.status.ReconciliationRequired? {
      UnknownKeeps(s, s', pc.id, pc.request.errorCode.GetOr(ActionHandlers.ProviderOutcomeUnknown), at, None,
                   pc.request.eventType, p);
    } else {
      ResolvedByExecutor(s, s', p, at);
    }
  }

  // The executor's word is stored.
  lemma ResolvedByExecutor(s: Sys, s': Sys, p: ProcId, at: Time)
    requires Inv(s) && s.PcOf(p).Finishing? && RequestOk(s, s.PcOf(p).id, s.PcOf(p).request)
    requires OnlyMoves(s, s', p) && s'.PcOf(p).Free? && PcOk(s', p)
    requires var pc := s.PcOf(p);
             && pc.id in s.db.actions && s.db.actions[pc.id].status.Processing?
             && !pc.request.status.ReconciliationRequired?
             && s' == s.(db := s.db.With(
                           pc.id,
                           s.db.actions[pc.id].(status := pc.request.status, result := pc.request.result,
                                                errorCode := pc.request.errorCode, processedAt := Some(at)),
                           Event(pc.request.eventType, Processing, pc.request.status, None,
                                 s.db.actions[pc.id].attemptToken, pc.request.errorCode)),
                         procs := s'.procs)
    ensures Inv(s')
  {
    var pc := s.PcOf(p);
    if pc.request.status.Succeeded? {
      ExecutedIsEvident(s, pc.id);
    }
    hide Inv, HasEffect, Unsent, Evident, PcOk, OnlyMoves;
    var event := Event(pc.request.eventType, Processing, pc.request.status, None, s.db.actions[pc.id].attemptToken,
                       pc.request.errorCode);
    RowMoveKeeps(s, s', pc.id, event, p);
  }

  lemma ExecutedIsEvident(s: Sys, id: ActionId)
    requires Inv(s) && HasEffect(s, id) && id in s.db.actions
    ensures Evident(s, s.db.actions[id])
  {
    hide PcOk, HistoryOk;
    EffectIsEvident(s, id);
  }

  lemma BeginReconciliationKeeps(s: Sys, p: ProcId, id: ActionId, operator: UserId, now: Time, at: Time)
    requires Inv(s) && Enabled(s, BeginReconciliation(p, id, operator, now, at))
    ensures Inv(Act(s, BeginReconciliation(p, id, operator, now, at)))
  {
    hide Create, ClaimAction, RejectAction, Cleanup, Finalize, CloseReconciliation, Consistent, Canonical,
         ActionHandlers.Execute, Truthful, Foreign, Written, ActionHandlers.Reconcile;
    var s' := Act(s, BeginReconciliation(p, id, operator, now, at));
    OpenedIsOk(s, s', p, id, operator, now, at);
    assert OnlyMoves(s, s', p);
    hide Inv, PcOk, MarkUnknown, OnlyMoves, Enabled;
    if id in s.db.actions && s.db.actions[id].status.Processing? && LeaseOver(s.db.actions[id], now) {
      UnknownKeeps(s, s', id, ActionHandlers.ProcessingLeaseExpired, at, Some(operator), OperatorPromotedExpiredLease,
                   p);
    } else {
      SameTablesKeeps(s, s', p);
    }
  }

  lemma OpenedIsOk(s: Sys, s': Sys, p: ProcId, id: ActionId, operator: UserId, now: Time, at: Time)
    requires Inv(s) && Enabled(s, BeginReconciliation(p, id, operator, now, at))
    requires s' == Act(s, BeginReconciliation(p, id, operator, now, at))
    ensures PcOk(s', p)
  {
    assert id in s.db.actions ==> RowOk(s, id);
    hide RowOk, PcOk;
    if s'.PcOf(p).Free? {
      FreeIsOk(s', p);
    } else {
      ReconcilingIsOk(s', p);
    }
  }

  lemma ReconcilingIsOk(s: Sys, p: ProcId)
    requires s.PcOf(p).Reconciling? && Identified(s, s.PcOf(p).id, s.PcOf(p).row)
    ensures PcOk(s, p)
  {
  }

  lemma ReconciledRow(db: Tables, id: ActionId, operator: UserId, verdict: ActionHandlers.Verdict, at: Time)
    requires id in db.actions && db.actions[id].status.ReconciliationRequired?
    ensures var db' := CloseReconciliation(db, id, operator, verdict, at).0;
            && id in db'.actions
            && var row, row' := db.actions[id], db'.actions[id];
               && RowMoves(db, db', id, Event(OperatorReconciled, ReconciliationRequired, row'.status, Some(operator),
                                              row.attemptToken, ErrorOf(verdict)))
               && db'.nextToken == db.nextToken
               && row'.attemptToken == row.attemptToken && row'.attemptCount == row.attemptCount
               && (Resolved(row'.status) ==> row'.processedAt.Some?)
               && (row'.status.Succeeded? <==> verdict.Found?) && !row'.status.Processing? && SameIdentity(row, row')
  {
  }

  lemma EndReconciliationKeeps(s: Sys, p: ProcId, at: Time)
    requires Inv(s) && Enabled(s, EndReconciliation(p, at))
    ensures Inv(Act(s, EndReconciliation(p, at)))
  {
    hide Create, ClaimAction, RejectAction, Cleanup, Finalize, OpenReconciliation, Consistent, Canonical,
         ActionHandlers.Execute, Truthful, Foreign, Written, ActionHandlers.Reconcile;
    var s' := Act(s, EndReconciliation(p, at));
    var pc := s.PcOf(p);
    PcIsOk(s, p);
    FreeIsOk(s', p);
    hide Inv, Enabled, HasEffect, Unsent, RowMoves;
    assert pc.verdict.Found? ==> Evident(s, pc.row);
    assert Identified(s, pc.id, pc.row);
    hide PcOk;
    if pc.id in s.db.actions && s.db.actions[pc.id].status.ReconciliationRequired? {
      ReconciledRow(s.db, pc.id, pc.operator, pc.verdict, at);
      hide CloseReconciliation;
      var row := s.db.actions[pc.id];
      var event := Event(OperatorReconciled, ReconciliationRequired, s'.db.actions[pc.id].status, Some(pc.operator),
                         row.attemptToken, ErrorOf(pc.verdict));
      RowMoveKeeps(s, s', pc.id, event, p);
    } else {
      SameTablesKeeps(s, s', p);
    }
  }

  // A claim that returns True: the row was pending, owned, unexpired and intact, and its first
  // attempt is recorded under a fresh token.
  ghost predicate ClaimRecorded(s: Sys, s': Sys, p: ProcId, id: ActionId, row': Row, g: Grant) {
    && id in s.db.actions && s.db.actions[id].status.Pending?
    && GrantOk(s.codec, g) && g == Grant(p, g.user, s.db.nextToken, g.now, s.db.actions[id])
    && row' == s.db.actions[id].(
                 status := Processing, approvedAt := Some(g.now), attemptToken := Some(s.db.nextToken),
                 attemptCount := s.db.actions[id].attemptCount + 1, attemptStartedAt := Some(g.now),
                 leaseExpiresAt := Some(g.now + PROCESSING_LEASE))
    && s' == s.(db := s.db.With(id, row', ClaimEvent(g)).(nextToken := s.db.nextToken + 1), grants := s.grants[id := g])
              .To(p, Holding(id, row'))
  }

  function ClaimEvent(g: Grant): Event {
    Event(Claimed, Pending, Processing, Some(g.user), Some(g.token), None)
  }

  lemma ClaimShape(s: Sys, p: ProcId, id: ActionId, user: UserId, now: Time, at: Time)
    requires Enabled(s, Approve(p, id, user, now, at))
    ensures var r := ClaimAction(s.codec, s.db, id, user, now, at).1;
            var s' := Act(s, Approve(p, id, user, now, at));
            r.Ok? && r.value.1 ==>
              && id in s.db.actions && id in s'.db.actions
              && ClaimRecorded(s, s', p, id, s'.db.actions[id], Grant(p, user, s.db.nextToken, now, s.db.actions[id]))
  {
    hide Intact, MarkUnknown;
  }

  lemma ClaimedRow(s: Sys, s': Sys, p: ProcId, id: ActionId, row': Row, g: Grant)
    requires Inv(s) && ClaimRecorded(s, s', p, id, row', g)
    ensures RowOk(s', id)
  {
    hide Replays, PcOk, HistoryOk, Unsent, HasEffect, GrantOk;
    assert RowOk(s, id);
    LogGrows(s.db, s'.db, id, ClaimEvent(g));
  }

  lemma ClaimedHistory(s: Sys, s': Sys, p: ProcId, id: ActionId, row': Row, g: Grant)
    requires Inv(s) && ClaimRecorded(s, s', p, id, row', g)
    ensures HistoryOk(s') && id !in s.grants
  {
    hide PcOk, GrantOk;
    assert RowOk(s, id);
  }

  lemma ClaimedOthers(s: Sys, s': Sys, p: ProcId, id: ActionId, row': Row, g: Grant, other: ActionId)
    requires Inv(s) && ClaimRecorded(s, s', p, id, row', g) && other in s'.db.actions && other != id
    ensures RowOk(s', other)
  {
    hide Replays, PcOk, Unsent, GrantOk;
    NewHolder(s, s', p, id);
    assert RowOk(s, other);
    RowStable(s, s', other);
  }

  lemma ClaimedPcs(s: Sys, s': Sys, p: ProcId, id: ActionId, row': Row, g: Grant)
    requires Inv(s) && ClaimRecorded(s, s', p, id, row', g)
    ensures forall q: ProcId :: PcOk(s', q)
  {
    ClaimedHistory(s, s', p, id, row', g);
    NewHolder(s, s', p, id);
    hide Unsent, GrantOk, RowOk;
    assert PcOk(s', p);
    ClaimedFrame(s, s', p, id, row', g);
    hide PcOk, HistoryOk, ClaimRecorded;
    forall q: ProcId ensures PcOk(s', q) {
      if q != p {
        assert PcOk(s, q);
        ClaimedOtherPc(s, s', q, id);
      }
    }
  }

  lemma ClaimedFrame(s: Sys, s': Sys, p: ProcId, id: ActionId, row': Row, g: Grant)
    requires Inv(s) && ClaimRecorded(s, s', p, id, row', g)
    ensures OnlyMoves(s, s', p) && s'.effects == s.effects && s'.artifacts == s.artifacts && Lineage(s, s')
    ensures id !in s.grants ==> forall other <- s.grants :: other in s'.grants && s'.grants[other] == s.grants[other]
  {
    hide Inv, GrantOk;
  }

  lemma ClaimedOtherPc(s: Sys, s': Sys, q: ProcId, id: ActionId)
    requires PcOk(s, q) && s'.PcOf(q) == s.PcOf(q) && id !in s.grants && s'.effects == s.effects
    requires Lineage(s, s') && s'.artifacts == s.artifacts
    requires forall other <- s.grants :: other in s'.grants && s'.grants[other] == s.grants[other]
    requires forall other: ActionId :: other != id && Unsent(s, other) ==> Unsent(s', other)
    ensures PcOk(s', q)
  {
    hide Unsent, Carries;
  }

  lemma ClaimedArtifacts(s: Sys, s': Sys, p: ProcId, id: ActionId, row': Row, g: Grant)
    requires Inv(s) && ClaimRecorded(s, s', p, id, row', g) && id !in s.grants
    ensures ArtifactsOk(s')
  {
    hide PcOk, RowOk, GrantOk;
    ArtifactsStay(s, s');
  }

  lemma ClaimedKeeps(s: Sys, p: ProcId, id: ActionId, user: UserId, now: Time, at: Time)
    requires Inv(s) && Enabled(s, Approve(p, id, user, now, at))
    requires var r := ClaimAction(s.codec, s.db, id, user, now, at).1; r.Ok? && r.value.1
    ensures Inv(Act(s, Approve(p, id, user, now, at)))
  {
    var s' := Act(s, Approve(p, id, user, now, at));
    ClaimShape(s, p, id, user, now, at);
    var row', g := s'.db.actions[id], Grant(p, user, s.db.nextToken, now, s.db.actions[id]);
    hide Act, Enabled, ClaimAction, ClaimRecorded, RowOk, PcOk, HistoryOk, ArtifactsOk;
    ClaimedRow(s, s', p, id, row', g);
    ClaimedHistory(s, s', p, id, row', g);
    ClaimedArtifacts(s, s', p, id, row', g);
    ClaimedPcs(s, s', p, id, row', g);
    forall other <- s'.db.actions ensures RowOk(s', other) {
      if other != id {
        ClaimedOthers(s, s', p, id, row', g, other);
      }
    }
  }

  lemma NewHolder(s: Sys, s': Sys, p: ProcId, id: ActionId)
    requires OnlyMoves(s, s', p) && s'.effects == s.effects && s'.live == s.live
    requires s'.PcOf(p).Holding? ==> s'.PcOf(p).id == id
    ensures forall other: ActionId :: other != id && Unsent(s, other) ==> Unsent(s', other)
  {
    forall other: ActionId | other != id && Unsent(s, other) ensures Unsent(s', other) {
      assert forall q: ProcId :: s'.PcOf(q).Holding? && s'.PcOf(q).id == other ==> s.PcOf(q) == s'.PcOf(q);
    }
  }

  // A claim that returns False: a transition, or nothing.
  ghost predicate RefusedClaim(s: Sys, s': Sys, id: ActionId, now: Time, at: Time) {
    && s' == s.(db := s'.db)
    && (s'.db != s.db ==>
          && id in s.db.actions
          && var row := s.db.actions[id];
             || (row.status.Processing?
                 && s'.db == MarkUnknown(s.db, id, ActionHandlers.ProcessingLeaseExpired, at, None,
                                         MarkedForReconciliation))
             || (row.status.Pending?
                 && s'.db == MarkUnknown(s.db, id, ActionHandlers.PayloadIntegrityMismatch, at, None,
                                         MarkedForReconciliation))
             || (row.status.Pending?
                 && s'.db == s.db.With(id, row.(status := Expired, processedAt := Some(now)),
                                       Event(ExpiredUnapproved, Pending, Expired, None, row.attemptToken, None))))
  }

  lemma RefusalShape(s: Sys, p: ProcId, id: ActionId, user: UserId, now: Time, at: Time)
    requires Enabled(s, Approve(p, id, user, now, at))
    requires var r := ClaimAction(s.codec, s.db, id, user, now, at).1; r.Err? || !r.value.1
    ensures RefusedClaim(s, Act(s, Approve(p, id, user, now, at)), id, now, at)
  {
    hide Intact, MarkUnknown;
  }

  lemma MarkedLineage(s: Sys, s': Sys, id: ActionId, reason: Code, at: Time)
    requires id in s.db.actions
    requires s' == s.(db := MarkUnknown(s.db, id, reason, at, None, MarkedForReconciliation))
    ensures Lineage(s, s')
  {
  }

  lemma MarkedKeeps(s: Sys, s': Sys, id: ActionId, reason: Code, at: Time)
    requires Inv(s) && id in s.db.actions && !Resolved(s.db.actions[id].status)
    requires s' == s.(db := MarkUnknown(s.db, id, reason, at, None, MarkedForReconciliation))
    ensures Inv(s')
  {
    MarkedLineage(s, s', id, reason, at);
    hide Inv, MarkUnknown, Lineage;
    HandlersUnmoved(s, s');
    hide PcOk, OnlyMoves;
    UnknownKeeps(s, s', id, reason, at, None, MarkedForReconciliation, 0);
  }

  lemma ExpiredKeeps(s: Sys, s': Sys, id: ActionId, now: Time)
    requires Inv(s) && id in s.db.actions && s.db.actions[id].status.Pending?
    requires var row := s.db.actions[id];
             s' == s.(db := s.db.With(id, row.(status := Expired, processedAt := Some(now)),
                                      Event(ExpiredUnapproved, Pending, Expired, None, row.attemptToken, None)))
    ensures Inv(s')
  {
    assert Lineage(s, s');
    hide Inv, Lineage;
    HandlersUnmoved(s, s');
    hide PcOk, OnlyMoves, Evident, HasEffect, Unsent;
    RowMoveKeeps(s, s', id, Event(ExpiredUnapproved, Pending, Expired, None, s.db.actions[id].attemptToken, None), 0);
  }

  lemma ApproveKeeps(s: Sys, p: ProcId, id: ActionId, user: UserId, now: Time, at: Time)
    requires Inv(s) && Enabled(s, Approve(p, id, user, now, at))
    ensures Inv(Act(s, Approve(p, id, user, now, at)))
  {
    var s' := Act(s, Approve(p, id, user, now, at));
    var r := ClaimAction(s.codec, s.db, id, user, now, at).1;
    if r.Ok? && r.value.1 {
      ClaimedKeeps(s, p, id, user, now, at);
    } else {
      RefusalShape(s, p, id, user, now, at);
      RefusalKeeps(s, s', id, now, at);
    }
  }

  lemma RefusalKeeps(s: Sys, s': Sys, id: ActionId, now: Time, at: Time)
    requires Inv(s) && RefusedClaim(s, s', id, now, at)
    ensures Inv(s')
  {
    hide Inv, MarkUnknown;
    if s'.db != s.db {
      if s'.db == MarkUnknown(s.db, id, ActionHandlers.ProcessingLeaseExpired, at, None, MarkedForReconciliation) {
        MarkedKeeps(s, s', id, ActionHandlers.ProcessingLeaseExpired, at);
      } else if s'.db == MarkUnknown(s.db, id, ActionHandlers.PayloadIntegrityMismatch, at, None,
                                     MarkedForReconciliation) {
        MarkedKeeps(s, s', id, ActionHandlers.PayloadIntegrityMismatch, at);
      } else {
        ExpiredKeeps(s, s', id, now);
      }
    }
  }

  lemma StageKeeps(s: Sys, owner: UserId, kind: Kind, payload: Payload, key: string, newId: ActionId, now: Time)
    requires Inv(s) && Enabled(s, StagePayload(owner, kind, payload, key, newId, now))
    ensures Inv(Act(s, StagePayload(owner, kind, payload, key, newId, now)))
  {
    hide Inv, Create;
    CreateShape(s.codec, s.db, owner, kind, payload, key, newId, now);
    StagedKeeps(s, Act(s, StagePayload(owner, kind, payload, key, newId, now)), owner, kind, key, newId, now);
  }

  lemma StagedKeeps(s: Sys, s': Sys, owner: UserId, kind: Kind, key: string, newId: ActionId, now: Time)
    requires Inv(s) && newId !in s.used && s' == s.(db := s'.db, used := s.used + {newId})
    requires s'.db == s.db || OnlyStages(s.db, s'.db, owner, kind, key, newId, now)
    ensures Inv(s')
  {
    hide GrantOk, Replays;
    StagingLineage(s, s', owner, kind, key, newId, now);
    HandlersUnmoved(s, s');
    hide PcOk;
    if s'.db != s.db {
      NothingHappenedYet();
      assert newId !in s.grants;
      assert RowOk(s', newId);
    }
    hide RowOk;
    TablesStep(s, s', 0);
  }

  lemma StagingLineage(s: Sys, s': Sys, owner: UserId, kind: Kind, key: string, newId: ActionId, now: Time)
    requires newId !in s.used && s' == s.(db := s'.db, used := s.used + {newId})
    requires s'.db == s.db || OnlyStages(s.db, s'.db, owner, kind, key, newId, now)
    ensures Lineage(s, s')
  {
  }

  lemma HandlersUnmoved(s: Sys, s': Sys)
    requires Inv(s) && s' == s.(db := s'.db, used := s'.used) && Lineage(s, s')
    ensures PcOk(s', 0) && OnlyMoves(s, s', 0)
  {
    hide RowOk, GrantOk, HistoryOk;
    assert PcOk(s, 0);
    FewerHolders(s, s', 0);
    OthersStayOk(s, s', 0);
  }

  lemma NothingHappenedYet()
    ensures Replays([], Pending)
  {
  }

  // Either nothing is stored, or one new row in its initial state.
  lemma CreateShape(codec: Codec, db: Tables, owner: UserId, kind: Kind, payload: Payload, key: string,
                    newId: ActionId, now: Time)
    ensures var db' := Create(codec, db, owner, kind, payload, key, newId, now).0;
            db' == db || OnlyStages(db, db', owner, kind, key, newId, now)
  {
    hide Canonicalize;
  }

  predicate OnlyStages(db: Tables, db': Tables, owner: UserId, kind: Kind, key: string, newId: ActionId, now: Time) {
    && newId in db'.actions
    && db'.actions[newId] == Staged(owner, kind, db'.actions[newId].payload, db'.actions[newId].payloadHash, key, now)
    && db' == db.(actions := db.actions[newId := db'.actions[newId]], audit := db.audit[newId := []])
  }

  lemma EditKeeps(s: Sys, id: ActionId, payload: Payload)
    requires Inv(s) && id in s.db.actions
    ensures Inv(Act(s, EditPayload(id, payload)))
  {
    var s' := s.(db := s.db.(actions := s.db.actions[id := s.db.actions[id].(payload := payload)]));
    EditedRow(s, s', id, payload);
    hide Inv;
    HandlersUnmoved(s, s');
    hide PcOk, RowOk;
    TablesStep(s, s', 0);
  }

  lemma EditedRow(s: Sys, s': Sys, id: ActionId, payload: Payload)
    requires Inv(s) && id in s.db.actions
    requires s' == s.(db := s.db.(actions := s.db.actions[id := s.db.actions[id].(payload := payload)]))
    ensures RowOk(s', id) && Lineage(s, s') && s'.db.audit.Keys == s'.db.actions.Keys
    ensures forall other <- s'.db.actions :: other != id ==> SameRow(s.db, s'.db, other)
  {
    hide Replays, GrantOk, PcOk;
    assert RowOk(s, id);
    FewerHolders(s, s', 0);
    EvidenceOfCommand(s, s', s.db.actions[id], s'.db.actions[id]);
    hide Evident;
  }

  // Evidence is about the command, not about the rest of the row.
  lemma EvidenceOfCommand(s: Sys, s': Sys, a: Row, b: Row)
    requires SameIdentity(a, b) && s'.artifacts == s.artifacts
    ensures Evident(s, a) <==> Evident(s', b)
  {
    hide ActionHandlers.Contains, ActionHandlers.TaskMarker;
    if Evident(s, a) {
      var x :| x in s.artifacts && Carries(x, a);
      assert Carries(x, b);
    }
    if Evident(s', b) {
      var x :| x in s.artifacts && Carries(x, b);
      assert Carries(x, a);
    }
  }

  lemma SweepKeeps(s: Sys, ids: set<ActionId>, now: Time)
    requires Inv(s) && ids <= s.db.actions.Keys && forall id <- ids :: s.db.actions[id].status.Pending?
    ensures Inv(s.(db := ExpireAll(s.db, ids, now)))
  {
    hide GrantOk, Replays;
    var s' := s.(db := ExpireAll(s.db, ids, now));
    HandlersUnmoved(s, s');
    hide PcOk, Unsent;
    forall id <- ids ensures RowOk(s', id) {
      assert RowOk(s, id);
      OneMoreEvent(s.db.audit[id], SWEPT_EVENT);
    }
    hide RowOk;
    TablesStep(s, s', 0);
  }

  lemma DeleteKeeps(s: Sys, cutoff: Time)
    requires Inv(s)
    ensures Inv(s.(db := DeleteResolved(s.db, cutoff)))
  {
    hide GrantOk, Replays, Deletable;
    var s' := s.(db := DeleteResolved(s.db, cutoff));
    HandlersUnmoved(s, s');
    hide PcOk, RowOk;
    TablesStep(s, s', 0);
  }

  lemma CleanUpKeeps(s: Sys, locked: set<ActionId>, now: Time, retention: Time)
    requires Inv(s) && Enabled(s, CleanUp(locked, now, retention))
    ensures Inv(Act(s, CleanUp(locked, now, retention)))
  {
    hide Inv, ExpireAll, DeleteResolved;
    var stale := StaleIds(s.db, locked, now);
    SweepKeeps(s, stale, now);
    DeleteKeeps(s.(db := ExpireAll(s.db, stale, now)), now - retention);
  }

  lemma ActKeepsInv(s: Sys, a: Action)
    requires Inv(s) && Enabled(s, a)
    ensures Inv(Act(s, a))
  {
    hide Inv;
    match a
    case Tick(clock) => TickKeeps(s, clock);
    case StagePayload(owner, kind, payload, key, newId, now) => StageKeeps(s, owner, kind, payload, key, newId, now);
    case EditPayload(id, payload) => EditKeeps(s, id, payload);
    case OwnerRejects(id, user, at) => OwnerRejectsKeeps(s, id, user, at);
    case CleanUp(locked, now, retention) => CleanUpKeeps(s, locked, now, retention);
    case Approve(p, id, user, now, at) => ApproveKeeps(s, p, id, user, now, at);
    case ServicesMissing(p, code) => ServicesMissingKeeps(s, p, code);
    case EnterExecution(p) => EnterExecutionKeeps(s, p);
    case Send(id) => SendKeeps(s, id);
    case ProviderDecides(id, accept, thread) =>
      EffectStepKeeps(s, Act(s, a), id, if accept then Accepted(thread) else Refused);
    case EndExecution(p, available, world) => EndExecutionKeeps(s, p, available, world);
    case CallerGivesUp(p) => GivesUpKeeps(s, p);
    case FinalizeAttempt(p, now, at) => FinalizeKeeps(s, p, now, at);
    case BeginReconciliation(p, id, operator, now, at) => BeginReconciliationKeeps(s, p, id, operator, now, at);
    case LookUp(p, evidence) => LookUpKeeps(s, p, evidence);
    case OthersWrite(artifact) => OthersWriteKeeps(s, artifact);
    case EndReconciliation(p, at) => EndReconciliationKeeps(s, p, at);
    case Crash(p) => QuietHandlerKeeps(s, p, Free);
  }

  lemma SendKeeps(s: Sys, id: ActionId)
    requires Inv(s) && id in s.live && id in s.effects && s.effects[id].NotSent?
    ensures Inv(s.(effects := s.effects[id := InFlight]))
  {
    EffectWasGranted(s, id);
    hide Inv;
    EffectStepKeeps(s, s.(effects := s.effects[id := InFlight]), id, InFlight);
  }

  lemma EffectWasGranted(s: Sys, id: ActionId)
    requires Inv(s) && id in s.effects
    ensures id in s.grants
  {
    hide RowOk, PcOk, ArtifactsOk;
  }

  lemma TickKeeps(s: Sys, clock: Time)
    requires Inv(s)
    ensures Inv(s.(clock := clock))
  {
    var s' := s.(clock := clock);
    FewerHolders(s, s', 0);
    assert PcOk(s, 0);
    OthersStayOk(s, s', 0);
    HandlerStep(s, s', 0);
  }

  lemma GivenUpIsOk(s: Sys, p: ProcId)
    requires Inv(s) && Enabled(s, CallerGivesUp(p))
    ensures PcOk(Act(s, CallerGivesUp(p)), p)
  {
    hide Create, ClaimAction, RejectAction, Cleanup, Finalize, OpenReconciliation, CloseReconciliation, Consistent,
         Canonical, ActionHandlers.Execute, Inv, Unsent, HasEffect, Truthful, Foreign, Written,
         ActionHandlers.Reconcile;
    PcIsOk(s, p);
  }

  lemma GivesUpKeeps(s: Sys, p: ProcId)
    requires Inv(s) && Enabled(s, CallerGivesUp(p))
    ensures Inv(Act(s, CallerGivesUp(p)))
  {
    GivenUpIsOk(s, p);
    hide Inv, PcOk, Enabled;
    var s' := Act(s, CallerGivesUp(p));
    assert s' == s.To(p, s'.PcOf(p));
    QuietHandlerKeeps(s, p, s'.PcOf(p));
  }
}
