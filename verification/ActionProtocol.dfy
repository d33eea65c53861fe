// The life of pending actions as a state machine over its transactions
// (server/services/pending_actions.py, server/routes/agent_router.py:172-192).
//
// Any number of request handlers create, approve, reject, execute, finalize and reconcile actions,
// one transaction or provider call at a time, interleaved with each other, with the expiry sweep,
// retention, crashes, and edits of stored payloads behind the service's back.  A provider call may
// go on in its thread after its caller gave up.

module ActionProtocol {
  import opened Common
  import opened ActionPayloads
  import ActionHandlers
  import opened ActionRows

  type ProcId = nat

  // ---------- The provider ----------

  // The marked write of one action: not sent, sent, and what came of it.  Gmail says which thread it
  // put a message in.
  datatype Dispatch = NotSent | InFlight | Accepted(thread: string) | Refused

  // What the provider's answers promise (see ActionHandlers.Honest); a call it has not decided yet
  // has not been answered.
  predicate Consistent(kind: Kind, canonical: bool, available: bool, world: ActionHandlers.World, d: Dispatch)
    requires ActionHandlers.Chain(world.lists)
  {
    var calls := ActionHandlers.Execute(kind, canonical, available, world).1;
    && (d.NotSent? <==> ActionHandlers.MarkedCount(calls) == 0)
    && (d.InFlight? ==> world.write.Unclear?)
    && ActionHandlers.Honest(kind, calls, world, d.Accepted?)
  }

  // What a lookup sees of a message, an event or a task.
  datatype Mark =
    | OnMessage(marker: Option<string>, recipients: set<string>, thread: string)
    | OnEvent(marker: Option<string>)
    | InTask(notes: string)

  // Something in a user's Google account: written by the approved action `author`, or by others.
  datatype Artifact = Artifact(account: UserId, author: Option<ActionId>, mark: Mark)

  // A field of the canonical payload.
  function FieldOf(lib: Library, row: Row, field: Field): string {
    var canonical := Canonicalize(lib, row.kind, row.payload);
    if canonical.Some? then ActionHandlers.TextAt(canonical.value, field) else ""
  }

  function NotesOf(lib: Library, row: Row): string {
    FieldOf(lib, row, Notes)
  }

  // What the marked write of a row leaves in its owner's account.
  function Written(codec: Codec, id: ActionId, row: Row, thread: string): Artifact {
    Artifact(row.owner, Some(id),
             match row.kind
             case SendEmail => OnMessage(Some(row.commandKey), {FieldOf(codec.lib, row, RecipientEmail)}, thread)
             case SendReply => OnMessage(Some(row.commandKey), {FieldOf(codec.lib, row, RecipientEmail)}, thread)
             case CreateEvent => OnEvent(Some(row.commandKey))
             case CreateTask => InTask(ActionHandlers.TaskNotes(NotesOf(codec.lib, row), row.commandKey)))
  }

  // Others set no OneBox header and no OneBox property; the notes of their tasks may say anything.
  predicate Foreign(a: Artifact) {
    a.author.None? && match a.mark
                      case OnMessage(marker, _, _) => marker.None?
                      case OnEvent(marker) => marker.None?
                      case InTask(_) => true
  }

  predicate Holds(artifacts: set<Artifact>, account: UserId, mark: Mark) {
    exists a <- artifacts :: a.account == account && a.mark == mark
  }

  // A lookup in an account returns only what is there; it may miss some of it.
  predicate Truthful(artifacts: set<Artifact>, account: UserId, e: ActionHandlers.Evidence) {
    match e
    case NoService => true
    case MailEvidence(_, found) =>
      found.Answered? ==>
        Holds(artifacts, account, OnMessage(found.value.marker, found.value.recipients, found.value.thread))
    case EventEvidence(event) =>
      event.Answered? && event.value.Some? ==> Holds(artifacts, account, OnEvent(event.value.value.marker))
    case TaskEvidence(scan) =>
      scan.Answered? ==>
        forall l <- scan.value, p <- l.tasks ::
          p.Answered? ==> forall t <- p.value.items :: Holds(artifacts, account, InTask(t.notes))
  }

  // ---------- Handlers ----------

  datatype Pc =
    | Free
    | Holding(id: ActionId, row: Row)                                  // its claim returned True
    | Executing(id: ActionId, row: Row)                                // inside execute_action
    | Finishing(id: ActionId, token: Option<Token>, request: Request)
    | Reconciling(id: ActionId, row: Row, operator: UserId)
    | Deciding(id: ActionId, row: Row, operator: UserId, verdict: ActionHandlers.Verdict)

  // History: the claim of an action that returned True, with the row it found.
  datatype Grant = Grant(proc: ProcId, user: UserId, token: Token, now: Time, row: Row)

  datatype Sys = Sys(
    codec: Codec,
    db: Tables,
    clock: Time,
    procs: map<ProcId, Pc>,
    used: set<ActionId>,               // IDs are UUIDs: never used twice
    grants: map<ActionId, Grant>,
    effects: map<ActionId, Dispatch>,  // one entry for every action whose execution was entered
    live: set<ActionId>,               // executions whose thread may still send the write
    artifacts: set<Artifact>)          // everything that ever was in a Google account
  {
    function PcOf(p: ProcId): Pc {
      if p in procs then procs[p] else Free
    }

    function To(p: ProcId, pc: Pc): Sys {
      this.(procs := procs[p := pc])
    }
  }

  // ---------- Steps ----------

  datatype Action =
    | Tick(clock: Time)
    | StagePayload(owner: UserId, kind: Kind, payload: Payload, key: string, newId: ActionId, now: Time)
    | EditPayload(id: ActionId, payload: Payload)
    | OwnerRejects(id: ActionId, user: UserId, at: Time)
    | CleanUp(locked: set<ActionId>, now: Time, retention: Time)
    | Approve(p: ProcId, id: ActionId, user: UserId, now: Time, at: Time)
    | ServicesMissing(p: ProcId, code: Code)
    | EnterExecution(p: ProcId)
    | Send(id: ActionId)
    | ProviderDecides(id: ActionId, accept: bool, thread: string)
    | EndExecution(p: ProcId, available: bool, world: ActionHandlers.World)
    | CallerGivesUp(p: ProcId)
    | FinalizeAttempt(p: ProcId, now: Time, at: Time)
    | BeginReconciliation(p: ProcId, id: ActionId, operator: UserId, now: Time, at: Time)
    | LookUp(p: ProcId, evidence: ActionHandlers.Evidence)
    | OthersWrite(artifact: Artifact)
    | EndReconciliation(p: ProcId, at: Time)
    | Crash(p: ProcId)

  predicate Canonical(s: Sys, row: Row) {
    Canonicalize(s.codec.lib, row.kind, row.payload).Some?
  }

  predicate Enabled(s: Sys, a: Action) {
    match a
    case Tick(clock) => s.clock <= clock
    case StagePayload(_, _, _, _, newId, now) => newId !in s.used && now <= s.clock
    case EditPayload(id, _) => id in s.db.actions
    case OwnerRejects(_, _, _) => true
    case CleanUp(_, now, retention) => now <= s.clock && retention > 0
    case Approve(p, _, _, now, _) => s.PcOf(p).Free? && now <= s.clock
    case ServicesMissing(p, _) => s.PcOf(p).Holding?
    case EnterExecution(p) => s.PcOf(p).Holding?
    // One send for one execution: the call trace has at most one marked call (ActionHandlers.OneMarkedWrite),
    // and an execution ends with as many sends as its trace has (ActionTheorems.SendsAreTheTrace).
    case Send(id) => id in s.live && id in s.effects && s.effects[id].NotSent?
    case ProviderDecides(id, _, _) => id in s.effects && s.effects[id].InFlight? && id in s.grants
    case EndExecution(p, available, world) =>
      && s.PcOf(p).Executing? && s.PcOf(p).id in s.effects && ActionHandlers.Chain(world.lists)
      && Consistent(s.PcOf(p).row.kind, Canonical(s, s.PcOf(p).row), available, world, s.effects[s.PcOf(p).id])
    case CallerGivesUp(p) => s.PcOf(p).Executing?
    case FinalizeAttempt(p, now, _) => s.PcOf(p).Finishing? && now <= s.clock
    case BeginReconciliation(p, _, _, now, _) => s.PcOf(p).Free? && now <= s.clock
    case LookUp(p, evidence) =>
      && s.PcOf(p).Reconciling? && ActionHandlers.Fits(s.PcOf(p).row.kind, evidence)
      && Truthful(s.artifacts, s.PcOf(p).row.owner, evidence)
    case OthersWrite(artifact) => Foreign(artifact)
    case EndReconciliation(p, _) => s.PcOf(p).Deciding?
    case Crash(p) => true
  }

  function ApproveStep(s: Sys, p: ProcId, id: ActionId, user: UserId, now: Time, at: Time): Sys {
    var (db, r) := ClaimAction(s.codec, s.db, id, user, now, at);
    if r.Err? || !r.value.1 || id !in s.db.actions then s.(db := db)
    else
      s.(db := db, grants := s.grants[id := Grant(p, user, s.db.nextToken, now, s.db.actions[id])])
      .To(p, Holding(id, r.value.0))
  }

  // `reconcile_action`, on the row as the first transaction returned it.
  function LookUpStep(s: Sys, p: ProcId, evidence: ActionHandlers.Evidence): Sys
    requires s.PcOf(p).Reconciling? && ActionHandlers.Fits(s.PcOf(p).row.kind, evidence)
  {
    var pc := s.PcOf(p);
    var canonical := Canonicalize(s.codec.lib, pc.row.kind, pc.row.payload);
    var verdict := ActionHandlers.Reconcile(pc.row.kind, canonical, pc.row.commandKey, evidence);
    s.To(p, Deciding(pc.id, pc.row, pc.operator, verdict))
  }

  function Act(s: Sys, a: Action): Sys
    requires Enabled(s, a)
  {
    match a
    case Tick(clock) => s.(clock := clock)
    case StagePayload(owner, kind, payload, key, newId, now) =>
      s.(db := Create(s.codec, s.db, owner, kind, payload, key, newId, now).0, used := s.used + {newId})
    case EditPayload(id, payload) =>
      s.(db := s.db.(actions := s.db.actions[id := s.db.actions[id].(payload := payload)]))
    case OwnerRejects(id, user, at) => s.(db := RejectAction(s.db, id, user, at).0)
    case CleanUp(locked, now, retention) => s.(db := Cleanup(s.db, locked, now, retention))
    case Approve(p, id, user, now, at) => ApproveStep(s, p, id, user, now, at)
    case ServicesMissing(p, code) =>
      s.To(p, Finishing(s.PcOf(p).id, s.PcOf(p).row.attemptToken, PreDispatchRequest(code)))
    case EnterExecution(p) =>
      var id := s.PcOf(p).id;
      s.(effects := s.effects[id := NotSent], live := if Canonical(s, s.PcOf(p).row) then s.live + {id} else s.live)
      .To(p, Executing(id, s.PcOf(p).row))
    case Send(id) => s.(effects := s.effects[id := InFlight])
    case ProviderDecides(id, accept, thread) =>
      if accept then
        s.(effects := s.effects[id := Accepted(thread)],
           artifacts := s.artifacts + {Written(s.codec, id, s.grants[id].row, thread)})
      else s.(effects := s.effects[id := Refused])
    case EndExecution(p, available, world) =>
      var pc := s.PcOf(p);
      var outcome := ActionHandlers.Execute(pc.row.kind, Canonical(s, pc.row), available, world).0;
      s.(live := s.live - {pc.id}).To(p, Finishing(pc.id, pc.row.attemptToken, RequestFor(outcome)))
    case CallerGivesUp(p) =>
      var unknown := RequestFor(ActionHandlers.Ambiguous(ActionHandlers.ProviderOutcomeUnknown));
      s.To(p, Finishing(s.PcOf(p).id, s.PcOf(p).row.attemptToken, unknown))
    case FinalizeAttempt(p, now, at) =>
      var pc := s.PcOf(p);
      s.(db := Finalize(s.db, pc.id, pc.token, pc.request, now, at).0).To(p, Free)
    case BeginReconciliation(p, id, operator, now, at) =>
      var (db, r) := OpenReconciliation(s.db, id, operator, now, at);
      s.(db := db).To(p, if r.Ok? then Reconciling(id, r.value, operator) else Free)
    case LookUp(p, evidence) => LookUpStep(s, p, evidence)
    case OthersWrite(artifact) => s.(artifacts := s.artifacts + {artifact})
    case EndReconciliation(p, at) =>
      var pc := s.PcOf(p);
      s.(db := CloseReconciliation(s.db, pc.id, pc.operator, pc.verdict, at).0).To(p, Free)
    case Crash(p) => s.To(p, Free)
  }

  // ---------- Runs ----------

  ghost predicate Init(s: Sys) {
    && s.db == Tables(map[], map[], 0)
    && s.procs == map[] && s.used == {} && s.grants == map[] && s.effects == map[] && s.live == {}
    && s.artifacts == {}
  }

  ghost predicate IsRun(states: seq<Sys>, actions: seq<Action>) {
    && |states| == |actions| + 1
    && Init(states[0])
    && (forall i :: 0 <= i < |actions| ==> Enabled(states[i], actions[i]))
    && (forall i :: 0 <= i < |actions| ==> states[i + 1] == Act(states[i], actions[i]))
  }
}
