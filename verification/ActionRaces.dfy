// Runs in which an operator's verdict is wrong: the exceptions of VerdictsAreSound, of
// LookupsAreRightIff and of FailureIsFinalIff are real.

module ActionRaces {
  import opened Common
  import opened PythonText
  import opened ActionPayloads
  import ActionHandlers
  import opened ActionRows
  import opened ActionProtocol
  import opened ActionSafety
  import opened ActionTheorems

  // ---------- Reachable states ----------

  // A run leads from `o` to `s`.
  ghost predicate Reachable(o: Sys, s: Sys) {
    exists states: seq<Sys>, actions: seq<Action> :: IsRun(states, actions) && states[0] == o && states[|actions|] == s
  }

  lemma InitIsReachable(s: Sys)
    requires Init(s)
    ensures Reachable(s, s)
  {
    assert IsRun([s], []);
  }

  lemma Step(o: Sys, s: Sys, a: Action) returns (s': Sys)
    requires Reachable(o, s) && Enabled(s, a)
    ensures s' == Act(s, a) && Reachable(o, s')
  {
    hide Init, Enabled, Act;
    s' := Act(s, a);
    var states, actions :| IsRun(states, actions) && states[0] == o && states[|actions|] == s;
    var states', actions' := states + [s'], actions + [a];
    assert IsRun(states', actions') && states'[0] == o && states'[|actions'|] == s';
  }

  // ---------- Commands that are their own canonical form ----------

  predicate Fixed(s: Sys, kind: Kind, payload: Payload) {
    Canonicalize(s.codec.lib, kind, payload) == Some(payload)
  }

  predicate Fresh(s: Sys, id: ActionId, key: string) {
    && id !in s.used && id !in s.db.actions && ActionHandlers.ValidCommandKey(key)
    && (forall i <- s.db.actions :: !SameCommand(s.db.actions[i], 0, key))
  }

  // A row of the command.
  predicate OfCommand(row: Row, kind: Kind, payload: Payload, key: string) {
    row.owner == 0 && row.kind == kind && row.payload == payload && row.commandKey == key
  }

  predicate Approvable(s: Sys, row: Row) {
    row.status.Pending? && row.attemptCount == 0 && s.clock < row.expiresAt && row.payloadHash == s.codec.hash(row.payload)
  }

  // A handler works on the row under a running lease.
  predicate Leased(s: Sys, row: Row) {
    row.status.Processing? && row.attemptToken.Some? && row.leaseExpiresAt == Some(s.clock + PROCESSING_LEASE)
  }

  // Only row `id` of the actions differs.
  predicate RowSet(db: Tables, db': Tables, id: ActionId) {
    id in db'.actions && db'.actions == db.actions[id := db'.actions[id]]
  }

  lemma Stages(s: Sys, id: ActionId, kind: Kind, payload: Payload, key: string)
    requires Fixed(s, kind, payload) && Fresh(s, id, key)
    ensures var a := StagePayload(0, kind, payload, key, id, s.clock);
            && Enabled(s, a)
            && var s' := Act(s, a);
               && s' == s.(db := s'.db, used := s.used + {id}) && RowSet(s.db, s'.db, id)
               && OfCommand(s'.db.actions[id], kind, payload, key) && Approvable(s', s'.db.actions[id])
  {
    hide Canonicalize, ActionHandlers.ValidCommandKey;
    var existing := set i | i in s.db.actions && SameCommand(s.db.actions[i], 0, key);
    assert existing == {};
  }

  // Handler `id` approves action `id`.
  lemma Claims(s: Sys, id: ActionId, kind: Kind, payload: Payload, key: string)
    requires Fixed(s, kind, payload) && id in s.db.actions && OfCommand(s.db.actions[id], kind, payload, key)
    requires Approvable(s, s.db.actions[id]) && s.PcOf(id).Free?
    ensures var a := Approve(id, id, 0, s.clock, s.clock);
            && Enabled(s, a)
            && var s' := Act(s, a);
               && s' == s.(db := s'.db, grants := s'.grants, procs := s'.procs) && RowSet(s.db, s'.db, id)
               && OfCommand(s'.db.actions[id], kind, payload, key) && Leased(s', s'.db.actions[id])
               && id in s'.grants && s'.grants == s.grants[id := s'.grants[id]]
               && OfCommand(s'.grants[id].row, kind, payload, key)
               && s'.procs == s.procs[id := Holding(id, s'.db.actions[id])]
  {
    hide Canonicalize;
  }

  lemma Enters(s: Sys, id: ActionId)
    requires s.PcOf(id).Holding? && s.PcOf(id).id == id && Fixed(s, s.PcOf(id).row.kind, s.PcOf(id).row.payload)
    ensures var a := EnterExecution(id);
            && Enabled(s, a)
            && Act(s, a) == s.(effects := s.effects[id := NotSent], live := s.live + {id})
                             .To(id, Executing(id, s.PcOf(id).row))
  {
    hide Canonicalize;
  }

  // ---------- A success that is not the command's ----------

  const KEY_A := "aaaaaaaaaaaaaaaa"
  const KEY_B := "bbbbbbbbbbbbbbbb"

  function TaskPayload(notes: string): Payload {
    Header(CreateTask)[Title := Text("t")][Notes := Text(notes)]
  }

  lemma KeysAreFine()
    ensures ActionHandlers.ValidCommandKey(KEY_A) && ActionHandlers.ValidCommandKey(KEY_B) && KEY_A != KEY_B
  {
  }

  // Text that no trimming touches.
  predicate Tight(t: string) {
    0 < |t| <= 200 && '\0' !in t && !SpaceChar(t[0]) && !SpaceChar(t[|t| - 1])
  }

  lemma TightIsClean(t: string)
    requires Tight(t)
    ensures Trim(t) == t && Strip(t) == t
  {
  }

  lemma TaskIsFixed(s: Sys, notes: string)
    requires Tight(notes)
    ensures Fixed(s, CreateTask, TaskPayload(notes))
    ensures forall row: Row :: OfCommand(row, CreateTask, TaskPayload(notes), row.commandKey) ==>
              NotesOf(s.codec.lib, row) == notes
  {
    TightIsClean(notes);
    TightIsClean("t");
    var p := TaskPayload(notes);
    assert RequiredText(p, Title, 1_024) == Some("t");
    assert RequiredText(p, Notes, MAX_TEXT) == Some(notes);
    assert Canonicalize(s.codec.lib, CreateTask, p) == Some(p);
  }

  lemma MarkerIsTight()
    ensures Tight(ActionHandlers.TaskMarker(KEY_A)) && Tight("n")
  {
    var t := ActionHandlers.TaskMarker(KEY_A);
    assert forall i :: 0 <= i < |t| ==> t[i] != '\0';
  }

  // The listing of the task lists fails, and nothing was written.
  const FAILED_LISTING := ActionHandlers.World(false, ActionHandlers.Unclear, [ActionHandlers.Unclear],
                                               ActionHandlers.Unclear)

  lemma EndsUnsent(s: Sys, id: ActionId)
    requires s.PcOf(id).Executing? && s.PcOf(id).id == id && id in s.effects && s.effects[id].NotSent?
    requires Fixed(s, CreateTask, s.PcOf(id).row.payload) && s.PcOf(id).row.kind.CreateTask?
    ensures var a := EndExecution(id, true, FAILED_LISTING);
            && Enabled(s, a)
            && Act(s, a) == s.(live := s.live - {id}).To(id, Finishing(id, s.PcOf(id).row.attemptToken,
                              RequestFor(ActionHandlers.Ambiguous(ActionHandlers.ProviderOutcomeUnknown))))
  {
    hide Canonicalize;
    ActionHandlers.Unmarked([ActionHandlers.ListTaskLists]);
    assert seq(1, _ => ActionHandlers.ListTaskLists) == [ActionHandlers.ListTaskLists];
  }

  function MarkedRow(s: Sys, row: Row): Row {
    var reason := Some(ActionHandlers.ProviderOutcomeUnknown);
    row.(status := ReconciliationRequired, errorCode := reason, reconciliationReason := reason,
         reconciliationRequiredAt := Some(s.clock), processedAt := Some(s.clock))
  }

  lemma FinalizesUnknown(s: Sys, id: ActionId)
    requires id in s.db.actions && s.db.actions[id].status.Processing? && !LeaseOver(s.db.actions[id], s.clock)
    requires s.db.actions[id].attemptToken.Some?
    requires s.PcOf(id) == Finishing(id, s.db.actions[id].attemptToken,
                             RequestFor(ActionHandlers.Ambiguous(ActionHandlers.ProviderOutcomeUnknown)))
    ensures var a, row := FinalizeAttempt(id, s.clock, s.clock), s.db.actions[id];
            && Enabled(s, a)
            && Act(s, a) == s.(db := s.db.With(id, MarkedRow(s, row),
                                               Event(OutcomeAmbiguous, Processing, ReconciliationRequired, None,
                                                     row.attemptToken, Some(ActionHandlers.ProviderOutcomeUnknown))))
                             .To(id, Free)
  {
  }

  // One action of user 0 is stored; `row` is its row.
  predicate OnlyAction(s: Sys, row: Row, kind: Kind, payload: Payload, key: string) {
    && s.db.actions == map[0 := row] && s.used == {0} && s.grants.Keys <= {0} && s.artifacts == {}
    && row.kind == kind && row.owner == 0 && row.commandKey == key && row.payload == payload
    && (0 in s.grants ==> OfCommand(s.grants[0].row, kind, payload, key))
  }

  // Handler `id` is inside the execution of action `id`, and has sent nothing yet.
  ghost predicate Launched(s0: Sys, s: Sys, id: ActionId, kind: Kind, payload: Payload, key: string) {
    && s.codec == s0.codec && s.clock == s0.clock && s.artifacts == s0.artifacts && s.used == s0.used + {id}
    && RowSet(s0.db, s.db, id) && OfCommand(s.db.actions[id], kind, payload, key) && Leased(s, s.db.actions[id])
    && id in s.grants && s.grants == s0.grants[id := s.grants[id]] && OfCommand(s.grants[id].row, kind, payload, key)
    && s.effects == s0.effects[id := NotSent] && s.live == s0.live + {id}
    && s.procs == s0.procs[id := Executing(id, s.db.actions[id])]
  }

  lemma Launches(o: Sys, s0: Sys, id: ActionId, kind: Kind, payload: Payload, key: string) returns (s: Sys)
    requires Reachable(o, s0) && Fixed(s0, kind, payload) && Fresh(s0, id, key) && s0.PcOf(id).Free?
    ensures Reachable(o, s) && Fixed(s, kind, payload) && Launched(s0, s, id, kind, payload, key)
  {
    hide Enabled, Act, Reachable, Fixed, Approvable, Leased, OfCommand, Fresh;
    Stages(s0, id, kind, payload, key);
    var s1 := Step(o, s0, StagePayload(0, kind, payload, key, id, s0.clock));
    FixedStays(s0, s1, kind, payload);
    Claims(s1, id, kind, payload, key);
    var s2 := Step(o, s1, Approve(id, id, 0, s1.clock, s1.clock));
    FixedStays(s0, s2, kind, payload);
    CommandIs(s2.db.actions[id], kind, payload, key);
    Enters(s2, id);
    s := Step(o, s2, EnterExecution(id));
    FixedStays(s0, s, kind, payload);
    LeaseRuns(s2, s, s.db.actions[id]);
  }

  lemma CommandIs(row: Row, kind: Kind, payload: Payload, key: string)
    requires OfCommand(row, kind, payload, key)
    ensures row.kind == kind && row.payload == payload && row.owner == 0 && row.commandKey == key
  {
  }

  lemma LeaseRuns(s: Sys, s': Sys, row: Row)
    requires Leased(s, row) && s'.clock == s.clock
    ensures Leased(s', row)
  {
  }

  // Handler 0 executes the only action, and has sent nothing yet.
  ghost predicate Running(o: Sys, s: Sys, row: Row, kind: Kind, payload: Payload, key: string) {
    && Reachable(o, s) && OnlyAction(s, row, kind, payload, key) && s.grants.Keys == {0} && s.procs.Keys == {0}
    && s.PcOf(0) == Executing(0, row) && s.effects == map[0 := NotSent] && s.live == {0}
    && Leased(s, row) && Fixed(s, kind, payload)
  }

  lemma RunsFirst(s0: Sys, kind: Kind, payload: Payload, key: string) returns (s: Sys, row: Row)
    requires Init(s0) && Fixed(s0, kind, payload) && ActionHandlers.ValidCommandKey(key)
    ensures Running(s0, s, row, kind, payload, key)
  {
    InitIsReachable(s0);
    FreshAtFirst(s0, key);
    hide *;
    s := Launches(s0, s0, 0, kind, payload, key);
    row := FirstIsRunning(s0, s, kind, payload, key);
  }

  lemma FreshAtFirst(s: Sys, key: string)
    requires Init(s) && ActionHandlers.ValidCommandKey(key)
    ensures Fresh(s, 0, key) && s.PcOf(0).Free?
  {
  }

  lemma FirstIsRunning(s0: Sys, s: Sys, kind: Kind, payload: Payload, key: string) returns (row: Row)
    requires Init(s0) && Reachable(s0, s) && Launched(s0, s, 0, kind, payload, key) && Fixed(s, kind, payload)
    ensures Running(s0, s, row, kind, payload, key)
  {
    hide Reachable, Fixed, Leased;
    row := s.db.actions[0];
    assert s.db.actions == map[0 := row] && s.effects == map[0 := NotSent];
    assert s.procs.Keys == {0} && s.grants.Keys == {0} && s.live == {0} && s.used == {0};
  }

  lemma FixedStays(s: Sys, s': Sys, kind: Kind, payload: Payload)
    requires Fixed(s, kind, payload) && s'.codec == s.codec
    ensures Fixed(s', kind, payload)
  {
  }

  // Task A is approved and executed, its task lists cannot be listed, and nothing is written.
  ghost predicate NeverWritten(o: Sys, s: Sys, row: Row) {
    && Reachable(o, s) && OnlyAction(s, row, CreateTask, TaskPayload("n"), KEY_A)
    && s.effects == map[0 := NotSent] && s.live == {} && s.procs.Keys == {0} && s.PcOf(0).Free?
    && row.status.ReconciliationRequired? && s.grants.Keys == {0}
  }

  lemma TaskAIsLost(s0: Sys) returns (s: Sys, row: Row)
    requires Init(s0)
    ensures NeverWritten(s0, s, row)
  {
    KeysAreFine();
    MarkerIsTight();
    TaskIsFixed(s0, "n");
    hide Init, Enabled, Act, Reachable, ActionHandlers.ValidCommandKey, Tight, NotesOf, TaskPayload, Fixed,
         Canonicalize;
    s, row := RunsFirst(s0, CreateTask, TaskPayload("n"), KEY_A);
    EndsUnsent(s, 0);
    s := Step(s0, s, EndExecution(0, true, FAILED_LISTING));
    FinalizesUnknown(s, 0);
    s := Step(s0, s, FinalizeAttempt(0, s.clock, s.clock));
    row := s.db.actions[0];
  }

  // Task B quotes A's marker in its notes; it is approved and written.
  lemma Sends(s: Sys, id: ActionId)
    requires id in s.live && id in s.effects && s.effects[id].NotSent?
    ensures Enabled(s, Send(id)) && Act(s, Send(id)) == s.(effects := s.effects[id := InFlight])
  {
  }

  lemma Lands(s: Sys, id: ActionId)
    requires id in s.effects && s.effects[id].InFlight? && id in s.grants
    ensures var a := ProviderDecides(id, true, "");
            && Enabled(s, a)
            && Act(s, a) == s.(effects := s.effects[id := Accepted("")],
                               artifacts := s.artifacts + {Written(s.codec, id, s.grants[id].row, "")})
  {
  }

  // Task A as before, and an artifact of B that shows A's marker.
  ghost predicate Quoted(o: Sys, s: Sys, row: Row) {
    && Reachable(o, s) && 0 in s.db.actions && s.db.actions[0] == row && s.PcOf(2).Free? && s.PcOf(0).Free?
    && 0 in s.effects && s.effects[0].NotSent? && 0 !in s.live && s.grants.Keys == {0, 1}
    && s.grants[1].row.commandKey == KEY_B
    && Holds(s.artifacts, 0, InTask(ActionHandlers.TaskNotes(ActionHandlers.TaskMarker(KEY_A), KEY_B)))
  }

  lemma TaskBQuotesA(o: Sys, s0: Sys, row: Row) returns (s: Sys)
    requires NeverWritten(o, s0, row)
    ensures Quoted(o, s, row)
  {
    MarkerIsTight();
    var notes := ActionHandlers.TaskMarker(KEY_A);
    TaskIsFixed(s0, notes);
    var payload := TaskPayload(notes);
    FreshForB(o, s0, row);
    hide *;
    var s1 := Launches(o, s0, 1, CreateTask, payload, KEY_B);
    LaunchedIsLive(s0, s1, payload);
    Sends(s1, 1);
    var s2 := Step(o, s1, Send(1));
    Lands(s2, 1);
    s := Step(o, s2, ProviderDecides(1, true, ""));
    BIsQuoted(o, s0, row, s1, s, notes);
  }

  lemma FreshForB(o: Sys, s: Sys, row: Row)
    requires NeverWritten(o, s, row)
    ensures Reachable(o, s) && Fresh(s, 1, KEY_B) && s.PcOf(1).Free?
  {
    KeysAreFine();
    hide Reachable, ActionHandlers.ValidCommandKey;
  }

  lemma LaunchedIsLive(s0: Sys, s: Sys, payload: Payload)
    requires Launched(s0, s, 1, CreateTask, payload, KEY_B)
    ensures 1 in s.live && 1 in s.effects && s.effects[1].NotSent? && 1 in s.grants
    ensures (s.effects[1 := InFlight])[1].InFlight?
  {
  }

  lemma BIsQuoted(o: Sys, s0: Sys, row: Row, s1: Sys, s: Sys, notes: string)
    requires NeverWritten(o, s0, row) && notes == ActionHandlers.TaskMarker(KEY_A) && Tight(notes) && Reachable(o, s)
    requires Launched(s0, s1, 1, CreateTask, TaskPayload(notes), KEY_B)
    requires s == s1.(effects := s1.effects[1 := InFlight][1 := Accepted("")],
                      artifacts := s1.artifacts + {Written(s1.codec, 1, s1.grants[1].row, "")})
    ensures Quoted(o, s, row)
  {
    hide Reachable, ActionHandlers.ValidCommandKey, Tight, Canonicalize, ActionHandlers.TaskMarker, TaskPayload,
         Written, Leased;
    NotesAreQuoted(s, notes);
    assert s.PcOf(2) == s0.PcOf(2) && s.PcOf(0) == s0.PcOf(0);
  }

  lemma NotesAreQuoted(s: Sys, notes: string)
    requires Tight(notes) && 1 in s.grants && Written(s.codec, 1, s.grants[1].row, "") in s.artifacts
    requires var row := s.grants[1].row;
             row.kind.CreateTask? && row.owner == 0 && row.commandKey == KEY_B && row.payload == TaskPayload(notes)
    ensures Holds(s.artifacts, 0, InTask(ActionHandlers.TaskNotes(notes, KEY_B)))
  {
    TaskIsFixed(s, notes);
    hide Tight, Canonicalize;
    assert NotesOf(s.codec.lib, s.grants[1].row) == notes;
  }

  // ---------- The operator's lookup ----------

  lemma Opens(s: Sys, p: ProcId, id: ActionId)
    requires id in s.db.actions && s.db.actions[id].status.ReconciliationRequired? && s.PcOf(p).Free?
    ensures var a := BeginReconciliation(p, id, 0, s.clock, s.clock);
            && Enabled(s, a)
            && Act(s, a) == s.To(p, Reconciling(id, s.db.actions[id], 0))
  {
  }

  lemma Looks(s: Sys, p: ProcId, e: ActionHandlers.Evidence)
    requires s.PcOf(p).Reconciling? && ActionHandlers.Fits(s.PcOf(p).row.kind, e)
    requires Truthful(s.artifacts, s.PcOf(p).row.owner, e)
    requires Fixed(s, s.PcOf(p).row.kind, s.PcOf(p).row.payload)
    ensures var pc := s.PcOf(p);
            && Enabled(s, LookUp(p, e))
            && Act(s, LookUp(p, e)) ==
               s.To(p, Deciding(pc.id, pc.row, pc.operator,
                                ActionHandlers.Reconcile(pc.row.kind, Some(pc.row.payload), pc.row.commandKey, e)))
  {
    hide Canonicalize, Truthful, ActionHandlers.Fits, ActionHandlers.Reconcile;
  }

  lemma Closes(s: Sys, p: ProcId)
    requires s.PcOf(p).Deciding? && s.PcOf(p).id in s.db.actions
    requires s.db.actions[s.PcOf(p).id].status.ReconciliationRequired?
    ensures var a, id := EndReconciliation(p, s.clock), s.PcOf(p).id;
            && Enabled(s, a)
            && var s' := Act(s, a);
               && id in s'.db.actions && SameCommandRow(s.db.actions[id], s'.db.actions[id])
               && (s.PcOf(p).verdict.Found? ==> s'.db.actions[id].status.Succeeded?)
               && (s.PcOf(p).verdict.NotFound? ==> s'.db.actions[id].status.Failed?)
               && s'.effects == s.effects && s'.live == s.live && s'.grants == s.grants && s'.artifacts == s.artifacts
               && (forall q: ProcId :: q != p ==> s'.PcOf(q) == s.PcOf(q)) && s'.PcOf(p).Free?
  {
  }

  // A stored success without a write of its command, now or ever.
  ghost predicate WronglySucceeded(o: Sys, s: Sys, id: ActionId) {
    && Reachable(o, s) && id in s.db.actions && s.db.actions[id].status.Succeeded?
    && !Performed(s, s.db.actions[id]) && !CanStillBeAccepted(s, id)
  }

  lemma ReachableIsOk(o: Sys, s: Sys)
    requires Reachable(o, s)
    ensures Inv(s)
  {
    var states, actions :| IsRun(states, actions) && states[0] == o && states[|actions|] == s;
    RunsKeepInv(states, actions, |actions|);
  }

  // A write that was not sent, by an execution that ended, never will be.
  lemma EndedIsUnsent(s: Sys, id: ActionId)
    requires Inv(s) && id in s.effects && s.effects[id].NotSent? && id !in s.live
    ensures Unsent(s, id)
  {
    hide RowOk, ArtifactsOk, HistoryOk;
    forall p: ProcId ensures !(s.PcOf(p).Holding? && s.PcOf(p).id == id) {
      assert PcOk(s, p);
    }
  }

  lemma QuotesItself(marker: string, key: string)
    ensures ActionHandlers.Contains(ActionHandlers.TaskNotes(marker, key), marker)
  {
    hide ActionHandlers.TaskMarker;
    assert ActionHandlers.At(ActionHandlers.TaskNotes(marker, key), marker, 0);
  }

  lemma LookupFindsB(o: Sys, s0: Sys, row: Row) returns (s: Sys)
    requires Quoted(o, s0, row) && OnlyKind(row)
    ensures Reachable(o, s) && 0 in s.db.actions && s.db.actions[0].status.Succeeded? && SameCommandRow(row, s.db.actions[0])
    ensures s.effects == s0.effects && s.live == s0.live && s.grants == s0.grants
  {
    var marker := ActionHandlers.TaskMarker(KEY_A);
    var notes := ActionHandlers.TaskNotes(marker, KEY_B);
    QuotesItself(marker, KEY_B);
    OneTaskIsFound(notes, Some(row.payload), KEY_A);
    OneIsTruthful(s0.artifacts, 0, InTask(notes));
    MarkerIsTight();
    TaskIsFixed(s0, "n");
    hide Enabled, Act, Reachable, Fixed, Tight, ActionHandlers.Contains, ActionHandlers.Reconcile, Truthful,
         ActionHandlers.Fits, OneTaskSeen, TaskPayload, ActionHandlers.TaskMarker, SameCommandRow, NotesOf;
    Opens(s0, 2, 0);
    var s1 := Step(o, s0, BeginReconciliation(2, 0, 0, s0.clock, s0.clock));
    FixedStays(s0, s1, CreateTask, row.payload);
    Looks(s1, 2, OneTaskSeen(notes));
    var s2 := Step(o, s1, LookUp(2, OneTaskSeen(notes)));
    Closes(s2, 2);
    s := Step(o, s2, EndReconciliation(2, s2.clock));
  }

  // The row of task A.
  predicate OnlyKind(row: Row) {
    && row.kind.CreateTask? && row.owner == 0 && row.commandKey == KEY_A && row.payload == TaskPayload("n")
    && row.status.ReconciliationRequired?
  }

  // Why a task's success has its exception: from every initial state one is reachable in which task A
  // succeeded although nothing was or ever will be written for it.  Task B quotes A's marker in its
  // notes, and the operator's scan finds B alone.
  lemma TaskSuccessCanBeWrong(s0: Sys)
    requires Init(s0)
    ensures exists s: Sys :: WronglySucceeded(s0, s, 0)
  {
    var s1, row := TaskAIsLost(s0);
    RowOfA(s0, s1, row);
    var s2 := TaskBQuotesA(s0, s1, row);
    var s := LookupFindsB(s0, s2, row);
    NothingPerformed(s0, s2, s, row);
    assert WronglySucceeded(s0, s, 0);
  }

  lemma RowOfA(o: Sys, s: Sys, row: Row)
    requires NeverWritten(o, s, row)
    ensures OnlyKind(row)
  {
    hide Reachable, TaskPayload;
  }

  lemma NothingPerformed(o: Sys, s0: Sys, s: Sys, row: Row)
    requires Quoted(o, s0, row) && OnlyKind(row) && Reachable(o, s)
    requires 0 in s.db.actions && s.db.actions[0].status.Succeeded? && SameCommandRow(row, s.db.actions[0])
    requires s.effects == s0.effects && s.live == s0.live && s.grants == s0.grants
    ensures !Performed(s, s.db.actions[0]) && !CanStillBeAccepted(s, 0)
  {
    KeysAreFine();
    ReachableIsOk(o, s);
    EndedIsUnsent(s, 0);
    ActionIsUsed(s, 0);
    hide Inv, Reachable, Unsent, CanStillBeAccepted, ActionHandlers.ValidCommandKey, TaskPayload, Holds;
    FailureIsFinalIff(s, 0);
  }

  lemma ActionIsUsed(s: Sys, id: ActionId)
    requires Inv(s) && id in s.db.actions
    ensures id in s.used
  {
    assert RowOk(s, id);
  }

  // ---------- A success that is an older write ----------

  // The provider answers with the ID of the message it sent.
  const SENT := ActionHandlers.World(false, ActionHandlers.Answered(Some("message")), [ActionHandlers.Unclear],
                                     ActionHandlers.Unclear)

  lemma EndsSent(s: Sys, id: ActionId)
    requires s.PcOf(id).Executing? && s.PcOf(id).id == id && id in s.effects && s.effects[id].Accepted?
    requires Fixed(s, SendEmail, s.PcOf(id).row.payload) && s.PcOf(id).row.kind.SendEmail?
    ensures var a := EndExecution(id, true, SENT);
            && Enabled(s, a)
            && Act(s, a) == s.(live := s.live - {id}).To(id, Finishing(id, s.PcOf(id).row.attemptToken,
                              RequestFor(ActionHandlers.Done("message"))))
  {
    hide Canonicalize;
    assert [ActionHandlers.SendMessage][..0] == [];
    assert ActionHandlers.MarkedCount([ActionHandlers.SendMessage]) == 1;
  }

  lemma FinalizesSent(s: Sys, id: ActionId)
    requires id in s.db.actions && s.db.actions[id].status.Processing? && !LeaseOver(s.db.actions[id], s.clock)
    requires s.db.actions[id].attemptToken.Some?
    requires s.PcOf(id) == Finishing(id, s.db.actions[id].attemptToken, RequestFor(ActionHandlers.Done("message")))
    ensures var a := FinalizeAttempt(id, s.clock, s.clock);
            && Enabled(s, a)
            && var s' := Act(s, a);
               && s' == s.(db := s'.db, procs := s.procs[id := Free]) && RowSet(s.db, s'.db, id)
               && s'.db.actions[id].status.Succeeded? && s'.db.actions[id].processedAt == Some(s.clock)
  {
  }

  lemma Ages(s: Sys, time: Time)
    requires time > 0
    ensures Enabled(s, Tick(s.clock + time)) && Act(s, Tick(s.clock + time)) == s.(clock := s.clock + time)
  {
  }

  // Retention deletes the only action.
  lemma IsDeleted(s: Sys)
    requires s.db.actions.Keys == {0} && s.db.actions[0].status.Succeeded?
    requires s.db.actions[0].processedAt == Some(s.clock - 2)
    ensures var a := CleanUp({}, s.clock, 1);
            Enabled(s, a) && Act(s, a) == s.(db := Act(s, a).db) && Act(s, a).db.actions == map[]
  {
    assert StaleIds(s.db, {}, s.clock) == {};
    assert Act(s, CleanUp({}, s.clock, 1)).db.actions.Keys == {};
  }

  ghost predicate Idle(s: Sys) {
    forall p: ProcId :: s.PcOf(p).Free?
  }

  lemma IdleAt(s: Sys, p: ProcId)
    requires Idle(s)
    ensures s.PcOf(p).Free?
  {
  }

  lemma OthersIdle(s: Sys, s': Sys, p: ProcId)
    requires Idle(s) && p in s'.procs && s'.procs == s.procs[p := s'.procs[p]]
    ensures forall q: ProcId :: q != p ==> s'.PcOf(q).Free?
  {
    assert forall q: ProcId :: q != p ==> s'.PcOf(q) == s.PcOf(q);
  }

  // The mail was sent by action 0, which is no longer stored.
  ghost predicate MailIsSent(o: Sys, s: Sys, payload: Payload) {
    && Reachable(o, s) && Fixed(s, SendEmail, payload) && s.db.actions == map[] && s.used == {0} && s.live == {}
    && s.grants.Keys == {0} && OfCommand(s.grants[0].row, SendEmail, payload, KEY_A)
    && s.effects == map[0 := Accepted("")] && s.artifacts == {Written(s.codec, 0, s.grants[0].row, "")}
    && Idle(s)
  }

  lemma SendsFirst(s0: Sys, payload: Payload) returns (s: Sys)
    requires Init(s0) && Fixed(s0, SendEmail, payload)
    ensures MailIsSent(s0, s, payload)
  {
    KeysAreFine();
    hide Init, Enabled, Act, Reachable, ActionHandlers.ValidCommandKey, Fixed, Written, Canonicalize;
    var s1, row := RunsFirst(s0, SendEmail, payload, KEY_A);
    Sends(s1, 0);
    s := Step(s0, s1, Send(0));
    Lands(s, 0);
    s := Step(s0, s, ProviderDecides(0, true, ""));
    FixedStays(s1, s, SendEmail, payload);
    EndsSent(s, 0);
    s := Step(s0, s, EndExecution(0, true, SENT));
    FinalizesSent(s, 0);
    s := Step(s0, s, FinalizeAttempt(0, s.clock, s.clock));
    Ages(s, 2);
    s := Step(s0, s, Tick(s.clock + 2));
    IsDeleted(s);
    s := Step(s0, s, CleanUp({}, s.clock, 1));
    FixedStays(s1, s, SendEmail, payload);
    assert s.effects == map[0 := Accepted("")];
  }

  // The command is staged again and approved, and its handler stops before it enters the execution.
  ghost predicate Abandoned(o: Sys, s: Sys, payload: Payload) {
    && Reachable(o, s) && Fixed(s, SendEmail, payload)
    && 1 in s.db.actions && OfCommand(s.db.actions[1], SendEmail, payload, KEY_A)
    && s.db.actions[1].status.Processing? && LeaseOver(s.db.actions[1], s.clock)
    && 0 in s.grants && OfCommand(s.grants[0].row, SendEmail, payload, KEY_A)
    && s.effects == map[0 := Accepted("")] && s.artifacts == {Written(s.codec, 0, s.grants[0].row, "")}
    && Idle(s)
  }

  lemma Crashes(s: Sys, p: ProcId)
    ensures Enabled(s, Crash(p)) && Act(s, Crash(p)) == s.To(p, Free)
  {
  }

  lemma IsAbandoned(o: Sys, s0: Sys, payload: Payload) returns (s: Sys)
    requires MailIsSent(o, s0, payload)
    ensures Abandoned(o, s, payload)
  {
    KeysAreFine();
    hide Enabled, Act, Reachable, ActionHandlers.ValidCommandKey, Fixed, Written, Canonicalize;
    assert s0.PcOf(1).Free?;
    Stages(s0, 1, SendEmail, payload, KEY_A);
    var s1 := Step(o, s0, StagePayload(0, SendEmail, payload, KEY_A, 1, s0.clock));
    FixedStays(s0, s1, SendEmail, payload);
    Claims(s1, 1, SendEmail, payload, KEY_A);
    var s2 := Step(o, s1, Approve(1, 1, 0, s1.clock, s1.clock));
    Crashes(s2, 1);
    var s3 := Step(o, s2, Crash(1));
    TimePasses(s3);
    s := Step(o, s3, Tick(s3.clock + PROCESSING_LEASE));
    FixedStays(s0, s, SendEmail, payload);
    forall q: ProcId ensures s.PcOf(q).Free? {
      assert s0.PcOf(q).Free?;
    }
  }

  // The old message cannot be told from the one that was never sent.
  lemma OldMailIsFound(s: Sys, payload: Payload, row: Row)
    requires Fixed(s, SendEmail, payload) && OfCommand(row, SendEmail, payload, KEY_A)
    requires 0 in s.grants && OfCommand(s.grants[0].row, SendEmail, payload, KEY_A)
    requires s.artifacts == {Written(s.codec, 0, s.grants[0].row, "")}
    ensures var a := Written(s.codec, 0, s.grants[0].row, "");
            Finds(s, row, Some(payload), OnlySeen(a.mark))
  {
    hide Canonicalize, ActionHandlers.TextAt, Finds;
    ResemblingIsFound(s, Written(s.codec, 0, s.grants[0].row, ""), row);
  }

  // A stored success whose action wrote nothing, now or ever.
  ghost predicate SucceededByAnother(o: Sys, s: Sys, id: ActionId) {
    && Reachable(o, s) && id in s.db.actions && s.db.actions[id].status.Succeeded?
    && !HasEffect(s, id) && !CanStillBeAccepted(s, id)
  }

  lemma NothingOfItsOwn(o: Sys, s: Sys, id: ActionId)
    requires Reachable(o, s) && id in s.db.actions && s.db.actions[id].status.Succeeded? && id !in s.effects
    requires Idle(s)
    ensures SucceededByAnother(o, s, id)
  {
    ReachableIsOk(o, s);
    ActionIsUsed(s, id);
    hide Inv, Reachable, CanStillBeAccepted;
    FailureIsFinalIff(s, id);
  }

  // An operator looks action 1 up.
  ghost predicate LookedUp(o: Sys, s: Sys, payload: Payload, e: ActionHandlers.Evidence) {
    && Reachable(o, s) && Fixed(s, SendEmail, payload) && 1 in s.db.actions && 1 !in s.effects
    && s.db.actions[1].status.ReconciliationRequired? && s.PcOf(2).Reconciling? && s.PcOf(2).id == 1
    && OfCommand(s.PcOf(2).row, SendEmail, payload, KEY_A) && Finds(s, s.PcOf(2).row, Some(payload), e)
    && forall q: ProcId :: q != 2 ==> s.PcOf(q).Free?
  }

  lemma OperatorComes(o: Sys, s0: Sys, payload: Payload) returns (s: Sys, e: ActionHandlers.Evidence)
    requires Abandoned(o, s0, payload)
    ensures LookedUp(o, s, payload, e)
  {
    e := OnlySeen(Written(s0.codec, 0, s0.grants[0].row, "").mark);
    hide Enabled, Act, Reachable, Fixed, Written, Canonicalize, Finds, OnlySeen, Idle;
    IdleAt(s0, 2);
    Promotes(s0, 2, 1);
    s := Step(o, s0, BeginReconciliation(2, 1, 0, s0.clock, s0.clock));
    FixedStays(s0, s, SendEmail, payload);
    OldMailIsFound(s, payload, s.PcOf(2).row);
    OthersIdle(s0, s, 2);
  }

  lemma OldMailIsReported(o: Sys, s0: Sys, payload: Payload, e: ActionHandlers.Evidence) returns (s: Sys)
    requires LookedUp(o, s0, payload, e)
    ensures SucceededByAnother(o, s, 1)
  {
    hide Enabled, Act, Reachable, Fixed, Canonicalize, ActionHandlers.Reconcile, ActionHandlers.Fits, Truthful,
         CanStillBeAccepted, HasEffect, SucceededByAnother;
    Looks(s0, 2, e);
    var s1 := Step(o, s0, LookUp(2, e));
    Closes(s1, 2);
    s := Step(o, s1, EndReconciliation(2, s1.clock));
    forall q: ProcId ensures s.PcOf(q).Free? {
      assert q != 2 ==> s.PcOf(q) == s1.PcOf(q) == s0.PcOf(q);
    }
    NothingOfItsOwn(o, s, 1);
  }

  // Why a success may be another action's: from every initial state one is reachable in which an
  // action succeeded that sent nothing and never will.  The mail was sent under the same command key
  // by an action that retention has deleted since.
  lemma SuccessCanBeAnOlderWrite(s0: Sys, payload: Payload)
    requires Init(s0) && Fixed(s0, SendEmail, payload)
    ensures exists s: Sys :: SucceededByAnother(s0, s, 1)
  {
    hide *;
    var s1 := SendsFirst(s0, payload);
    var s2 := IsAbandoned(s0, s1, payload);
    var s3, e := OperatorComes(s0, s2, payload);
    var s := OldMailIsReported(s0, s3, payload, e);
  }

  // ---------- A failure that is overtaken ----------

  lemma TimePasses(s: Sys)
    ensures var a := Tick(s.clock + PROCESSING_LEASE);
            Enabled(s, a) && Act(s, a) == s.(clock := s.clock + PROCESSING_LEASE)
  {
  }

  lemma Promotes(s: Sys, p: ProcId, id: ActionId)
    requires id in s.db.actions && s.db.actions[id].status.Processing? && LeaseOver(s.db.actions[id], s.clock)
    requires s.PcOf(p).Free?
    ensures var a := BeginReconciliation(p, id, 0, s.clock, s.clock);
            && Enabled(s, a)
            && var s' := Act(s, a);
               && id in s'.db.actions && s'.db.actions[id].status.ReconciliationRequired?
               && s' == s.(db := s'.db).To(p, Reconciling(id, s'.db.actions[id], 0))
               && s'.db.actions[id].payload == s.db.actions[id].payload
               && SameCommandRow(s.db.actions[id], s'.db.actions[id])
  {
  }

  // The search answers with an empty page.
  const NO_MESSAGES := ActionHandlers.MailEvidence([ActionHandlers.Answered(ActionHandlers.Page([], false))],
                                                   ActionHandlers.Unclear)

  lemma NothingFound(payload: Payload, key: string)
    ensures ActionHandlers.Fits(SendEmail, NO_MESSAGES)
    ensures ActionHandlers.Reconcile(SendEmail, Some(payload), key, NO_MESSAGES).NotFound?
  {
    var pages := NO_MESSAGES.pages;
    assert pages[..0] == [] && pages[..1] == pages;
    assert ActionHandlers.AllItems(pages) == [];
    ActionHandlers.NoConflict(pages, 1);
  }

  // A stored failure whose write the provider may still accept.
  ghost predicate WronglyFailed(o: Sys, s: Sys, id: ActionId) {
    Reachable(o, s) && id in s.db.actions && s.db.actions[id].status.Failed? && CanStillBeAccepted(s, id)
  }

  // The mail is sent and not yet decided when its lease runs out.
  lemma MailIsUnderWay(s0: Sys, payload: Payload) returns (s: Sys, row: Row)
    requires Init(s0) && Fixed(s0, SendEmail, payload)
    ensures Reachable(s0, s) && Fixed(s, SendEmail, payload) && OnlyAction(s, row, SendEmail, payload, KEY_A)
    ensures row.status.Processing? && LeaseOver(row, s.clock) && s.PcOf(1).Free?
    ensures 0 in s.effects && s.effects[0].InFlight? && 0 in s.grants
  {
    KeysAreFine();
    hide Init, Enabled, Act, Reachable, ActionHandlers.ValidCommandKey, Fixed;
    var s1: Sys;
    s1, row := RunsFirst(s0, SendEmail, payload, KEY_A);
    Sends(s1, 0);
    var s2 := Step(s0, s1, Send(0));
    TimePasses(s2);
    s := Step(s0, s2, Tick(s2.clock + PROCESSING_LEASE));
    FixedStays(s1, s, SendEmail, payload);
  }

  // The race: the operator does not find the write while it is in flight and stores `failed`, and the
  // provider may still accept it.  Such a state is reachable for every mail.
  lemma OperatorFailureCanBeWrong(s0: Sys, payload: Payload)
    requires Init(s0) && Fixed(s0, SendEmail, payload)
    ensures exists s: Sys :: WronglyFailed(s0, s, 0)
  {
    var s, row := MailIsUnderWay(s0, payload);
    NothingFound(payload, KEY_A);
    hide Init, Enabled, Act, Reachable, Fixed, ActionHandlers.Fits, ActionHandlers.Reconcile, CanStillBeAccepted;
    Promotes(s, 1, 0);
    var s1 := Step(s0, s, BeginReconciliation(1, 0, 0, s.clock, s.clock));
    FixedStays(s, s1, SendEmail, payload);
    Looks(s1, 1, NO_MESSAGES);
    var s2 := Step(s0, s1, LookUp(1, NO_MESSAGES));
    Closes(s2, 1);
    var s3 := Step(s0, s2, EndReconciliation(1, s2.clock));
    DecidedNow(s3, 0);
    assert WronglyFailed(s0, s3, 0);
  }

  function MailPayload(): Payload {
    Header(SendEmail)[SenderEmail := Text("a@b")][RecipientEmail := Text("a@b")][Subject := Text("s")]
    [EmailBody := Text("b")]
  }

  lemma AddressIsFixed(lib: Library)
    requires lib.parseAddress("a@b") == "a@b" && lib.fold("a@b") == "a@b"
    ensures CanonicalEmail(lib, "a@b") == Some("a@b") && Trim("a@b") == "a@b"
  {
    TightIsClean("a@b");
    assert AtSign("a@b", 1);
  }

  lemma MailIsFixed(lib: Library)
    requires lib.parseAddress("a@b") == "a@b" && lib.fold("a@b") == "a@b"
    ensures Canonicalize(lib, SendEmail, MailPayload()) == Some(MailPayload())
  {
    AddressIsFixed(lib);
    TightIsClean("s");
    TightIsClean("b");
    hide Strip, Trim, CanonicalEmail;
    var p := MailPayload();
    assert EmailField(lib, p, SenderEmail) == Some("a@b") && EmailField(lib, p, RecipientEmail) == Some("a@b");
    assert RequiredText(p, Subject, 998) == Some("s") && RequiredText(p, EmailBody, MAX_TEXT) == Some("b");
    hide EmailField, RequiredText;
    assert CanonicalSendEmail(lib, p) == Some(p);
  }

  // There are such mails.
  lemma MailsExist()
    ensures exists s: Sys, payload: Payload :: Init(s) && Fixed(s, SendEmail, payload)
  {
    var lib := Library(s => s, s => s, _ => None, _ => "", _ => true);
    MailIsFixed(lib);
    hide Canonicalize, MailPayload;
    var s := Sys(Codec(lib, _ => 0), Tables(map[], map[], 0), 0, map[], {}, map[], map[], {}, {});
    assert Init(s) && Fixed(s, SendEmail, MailPayload());
  }
}
