// The main results about the notification protocol, for every run.

module NotificationTheorems {
  import opened Common
  import opened NotificationRows
  import opened HistoryScan
  import opened NotificationProtocol
  import opened NotificationTransactions
  import opened NotificationLeases
  import opened NotificationInvariant
  import opened NotificationSteps
  import opened NotificationSafety

  // ---------- Only a completion ends recovery ----------

  predicate StaysBusy(db: Tables, db': Tables) {
    forall m <- db.mailboxes :: db.mailboxes[m].resync.state.Processing? ==>
      m in db'.mailboxes && !db'.mailboxes[m].resync.state.Idle?
  }

  // The message count of a recovery is reset when it starts, and otherwise stays.
  predicate CountsKept(db: Tables, db': Tables) {
    forall m <- db'.mailboxes :: Counted(db', m) == Carried(db, db', m)
  }

  function Counted(db: Tables, m: Email): nat {
    if m in db.mailboxes then db.mailboxes[m].resync.messageCount else 0
  }

  function Carried(db: Tables, db': Tables, m: Email): nat {
    if m in db.mailboxes && m in db'.mailboxes
       && db.mailboxes[m].resync.state.Idle? && !db'.mailboxes[m].resync.state.Idle?
    then 0
    else Counted(db, m)
  }

  predicate Undisturbed(db: Tables, db': Tables) {
    StaysBusy(db, db') && CountsKept(db, db') && TokensKept(db, db')
  }

  // A page token stays with the recovery it belongs to.
  predicate TokensKept(db: Tables, db': Tables) {
    forall m <- db'.mailboxes :: db'.mailboxes[m].resync.pageToken.Some? ==>
      && m in db.mailboxes && db'.mailboxes[m].resync.pageToken == db.mailboxes[m].resync.pageToken
      && db'.mailboxes[m].resync.generation == db.mailboxes[m].resync.generation
  }

  predicate RowUndisturbed(a: Mailbox, b: Mailbox) {
    && (a.resync.state.Processing? ==> !b.resync.state.Idle?)
    && b.resync.messageCount == (if a.resync.state.Idle? && !b.resync.state.Idle? then 0 else a.resync.messageCount)
    && (b.resync.pageToken.Some? ==>
          b.resync.pageToken == a.resync.pageToken && b.resync.generation == a.resync.generation)
  }

  lemma OneMailboxBusy(db: Tables, db': Tables, m: Email, row: Mailbox)
    requires db'.mailboxes == db.mailboxes[m := row]
    requires if m in db.mailboxes then RowUndisturbed(db.mailboxes[m], row) else row.resync == BLANK_RESYNC
    ensures Undisturbed(db, db')
  {
  }

  lemma SameMailboxesBusy(db: Tables, db': Tables)
    requires db'.mailboxes == db.mailboxes
    ensures Undisturbed(db, db')
  {
  }

  lemma ClaimJobBusy(cfg: Config, db: Tables, id: JobId, now: Time, at: Time)
    requires id in db.jobs && db.jobs[id].mailbox in db.mailboxes
    ensures Undisturbed(db, ClaimJob(cfg, db, id, now, at).0)
  {
    hide Undisturbed;
    var db' := ClaimJob(cfg, db, id, now, at).0;
    OneMailboxBusy(db, db', db.jobs[id].mailbox, db'.mailboxes[db.jobs[id].mailbox]);
  }

  lemma CompleteJobBusy(cfg: Config, db: Tables, claim: JobClaim, upTo: int, at: Time)
    ensures Undisturbed(db, CompleteJob(cfg, db, claim, upTo, at).0)
  {
    hide Undisturbed;
    var db' := CompleteJob(cfg, db, claim, upTo, at).0;
    if db'.mailboxes == db.mailboxes {
      SameMailboxesBusy(db, db');
    } else {
      OneMailboxBusy(db, db', claim.mailbox, db'.mailboxes[claim.mailbox]);
    }
  }

  lemma FailRowsBusy(cfg: Config, job: Job, mailbox: Mailbox, claim: JobClaim, code: ErrorCode, deadLetter: bool,
                     requireResync: bool, now: Time, at: Time)
    ensures RowUndisturbed(mailbox, FailRows(cfg, job, mailbox, claim, code, deadLetter, requireResync, now, at).1)
  {
    hide RetryAt;
  }

  lemma FailJobBusy(cfg: Config, db: Tables, claim: JobClaim, code: ErrorCode, deadLetter: bool, requireResync: bool,
                    now: Time, at: Time)
    ensures Undisturbed(db, FailJob(cfg, db, claim, code, deadLetter, requireResync, now, at))
  {
    hide Undisturbed, FailRows, RowUndisturbed;
    var db' := FailJob(cfg, db, claim, code, deadLetter, requireResync, now, at);
    if !OwnsJob(db, claim) || claim.mailbox !in db.mailboxes {
      SameMailboxesBusy(db, db');
    } else {
      FailRowsBusy(cfg, db.jobs[claim.id], db.mailboxes[claim.mailbox], claim, code, deadLetter, requireResync, now, at);
      OneMailboxBusy(db, db', claim.mailbox, db'.mailboxes[claim.mailbox]);
    }
  }

  lemma ClaimResyncBusy(cfg: Config, db: Tables, m: Email, owner: UserId, now: Time, at: Time)
    ensures Undisturbed(db, ClaimResync(cfg, db, m, owner, now, at).0)
  {
    hide Undisturbed;
    var db' := ClaimResync(cfg, db, m, owner, now, at).0;
    if db'.mailboxes == db.mailboxes {
      SameMailboxesBusy(db, db');
    } else {
      OneMailboxBusy(db, db', m, db'.mailboxes[m]);
    }
  }

  lemma CheckpointBusy(db: Tables, claim: ResyncClaim, nextPage: string, processed: nat, at: Time)
    ensures StaysBusy(db, CheckpointResync(db, claim, nextPage, processed, at).0)
  {
  }

  lemma ReleaseBusy(cfg: Config, db: Tables, claim: ResyncClaim, code: ErrorCode, at: Time)
    ensures Undisturbed(db, ReleaseResync(cfg, db, claim, code, at).0)
  {
    hide Undisturbed;
    var db' := ReleaseResync(cfg, db, claim, code, at).0;
    if OwnsResync(db, claim) {
      OneMailboxBusy(db, db', claim.mailbox, db'.mailboxes[claim.mailbox]);
    } else {
      SameMailboxesBusy(db, db');
    }
  }

  lemma ManualBusy(db: Tables, claim: ResyncClaim, code: ErrorCode)
    ensures Undisturbed(db, RequireManual(db, claim, code).0)
  {
    hide Undisturbed;
    var db' := RequireManual(db, claim, code).0;
    if OwnsResync(db, claim) {
      OneMailboxBusy(db, db', claim.mailbox, db'.mailboxes[claim.mailbox]);
    } else {
      SameMailboxesBusy(db, db');
    }
  }

  lemma WatchBusy(cfg: Config, db: Tables, m: Email, owner: UserId, token: Token, historyId: int, t: Time,
                  code: ErrorCode)
    ensures Undisturbed(db, ClaimWatch(cfg, db, m, owner, t).0)
    ensures Undisturbed(db, CompleteWatch(db, m, token, historyId, t).0)
    ensures Undisturbed(db, FailWatch(cfg, db, m, token, code, t))
  {
    hide Undisturbed;
    var db1, db2 := ClaimWatch(cfg, db, m, owner, t).0, CompleteWatch(db, m, token, historyId, t).0;
    var db3 := FailWatch(cfg, db, m, token, code, t);
    SameMailboxesBusy(db, db);
    if db1 != db {
      OneMailboxBusy(db, db1, m, db1.mailboxes[m]);
    }
    if OwnsWatch(db, m, token) {
      OneMailboxBusy(db, db2, m, db2.mailboxes[m]);
      OneMailboxBusy(db, db3, m, db3.mailboxes[m]);
    }
  }

  lemma BranchBusy(s: Sys, w: WorkerId, now: Time, at: Time)
    requires Enabled(s, Branch(w, now, at))
    ensures Undisturbed(s.db, BranchStep(s, w, now, at).db)
  {
    hide Undisturbed, ClaimResync, FailJob, CompleteJob;
    var job, read := s.PcOf(w).job, s.PcOf(w).snapshot;
    FailJobBusy(s.cfg, s.db, job, MailboxStateMissing, true, false, now, at);
    FailJobBusy(s.cfg, s.db, job, HistoryCursorMissing, true, true, now, at);
    if read.Some? {
      ClaimResyncBusy(s.cfg, s.db, job.mailbox, read.value.userId, now, at);
      CompleteJobBusy(s.cfg, s.db, job, read.value.historyCursor.GetOr(0), at);
    }
    SameMailboxesBusy(s.db, DeadLetterJob(s.db, job, ResyncManualRequired, at));
  }

  predicate JobStep(a: Action) {
    a.LeaseJob? || a.Branch? || a.HistoryFailed? || a.FinishFail? || a.CompleteHistory? || a.CompleteAfterRecovery?
  }

  lemma JobStepsStayBusy(s: Sys, a: Action)
    requires Enabled(s, a) && JobStep(a)
    ensures Undisturbed(s.db, Act(s, a).db)
  {
    hide Undisturbed, ClaimJob, FailJob, CompleteJob, BranchStep;
    match a
    case LeaseJob(w, owner, id, now, at) => ClaimJobBusy(s.cfg, s.db, id, now, at);
    case Branch(w, now, at) => BranchBusy(s, w, now, at);
    case HistoryFailed(w, failure, now, at) =>
      var (code, deadLetter, requireResync) := FailArguments(failure);
      FailJobBusy(s.cfg, s.db, s.PcOf(w).job, code, deadLetter, requireResync, now, at);
    case FinishFail(w, now, at) => FailJobBusy(s.cfg, s.db, s.PcOf(w).job, s.PcOf(w).code, false, false, now, at);
    case CompleteHistory(w, at) =>
      CompleteJobBusy(s.cfg, s.db, s.PcOf(w).job, Max(s.PcOf(w).purpose.cursor, s.PcOf(w).job.historyId), at);
    case CompleteAfterRecovery(w, at) => CompleteJobBusy(s.cfg, s.db, s.PcOf(w).job, s.PcOf(w).job.historyId, at);
  }

  lemma OthersStayBusy(s: Sys, a: Action)
    requires Enabled(s, a) && !a.FinishRecovery? && !a.SettlePage?
    ensures Undisturbed(s.db, Next(s, a).db)
  {
    hide Undisturbed, Act, Enabled;
    if JobStep(a) {
      JobStepsStayBusy(s, a);
    } else {
      MailboxStepsStayBusy(s, a);
    }
  }

  lemma MailboxStepsStayBusy(s: Sys, a: Action)
    requires Enabled(s, a) && !a.FinishRecovery? && !a.SettlePage? && !JobStep(a)
    ensures Undisturbed(s.db, Act(s, a).db)
  {
    hide Undisturbed, CheckpointResync, ReleaseResync, RequireManual, ClaimWatch, CompleteWatch, FailWatch;
    SameMailboxesBusy(s.db, s.db);
    if a.LeaseWatch? {
      WatchBusy(s.cfg, s.db, a.mailbox, a.owner, 0, 0, a.now, WatchInternal);
    } else if a.RenewWatch? {
      WatchBusy(s.cfg, s.db, s.PcOf(a.w).mailbox, 0, s.PcOf(a.w).token, a.historyId, a.expiresAt, WatchInternal);
    } else if a.AbandonWatch? {
      WatchBusy(s.cfg, s.db, s.PcOf(a.w).mailbox, 0, s.PcOf(a.w).token, 0, a.at, a.code);
    } else if a.HitCap? {
      ManualBusy(s.db, s.PcOf(a.w).resync, ResyncTotalLimitReached);
    } else if a.ReleaseRecovery? {
      ReleaseBusy(s.cfg, s.db, s.PcOf(a.w).resync, s.PcOf(a.w).code, a.at);
    } else {
      SameMailboxesBusy(s.db, Act(s, a).db);
    }
  }

  // A page is committed: its listed messages are added to the count of its recovery.
  predicate Commits(s: Sys, a: Action, m: Email) {
    && a.SettlePage? && AtPageEnd(s.PcOf(a.w)) && s.PcOf(a.w).purpose.nextPage.Some?
    && s.PcOf(a.w).purpose.resync.mailbox == m && OwnsResync(s.db, s.PcOf(a.w).purpose.resync)
    && s.PcOf(a.w).purpose.resync.messageCount + s.PcOf(a.w).purpose.listed < s.cfg.resyncMaxMessages
  }

  lemma SettlePageCounts(s: Sys, a: Action, m: Email)
    requires Enabled(s, a) && a.SettlePage?
    ensures StaysBusy(s.db, Next(s, a).db)
    ensures Counted(Next(s, a).db, m) == Counted(s.db, m) + (if Commits(s, a, m) then s.PcOf(a.w).purpose.listed else 0)
  {
    hide StaysBusy;
    var p := s.PcOf(a.w).purpose;
    CheckpointBusy(s.db, p.resync, p.nextPage.value, p.listed, a.at);
    ManualBusy(s.db, p.resync, ResyncTotalLimitReached);
  }

  // ---------- Cursors ----------

  // While recovery is not idle the cursor only changes in the step that completes the recovery, and
  // that step holds the recovery lease.
  lemma FrozenDuringRecovery(s: Sys, a: Action, m: Email)
    requires Inv(s) && Enabled(s, a) && m in s.db.mailboxes
    requires !s.db.mailboxes[m].resync.state.Idle?
    ensures m in Next(s, a).db.mailboxes
    ensures var row' := Next(s, a).db.mailboxes[m];
            row'.historyCursor != s.db.mailboxes[m].historyCursor ==>
              && a.FinishRecovery? && s.PcOf(a.w).resync.mailbox == m && OwnsResync(s.db, s.PcOf(a.w).resync)
              && row'.historyCursor == Some(s.PcOf(a.w).cursor) && row'.resync.state.Idle?
  {
    hide Inv;
    EveryStepLegal(s, a);
    if a.SettlePage? {
      SettlePageCounts(s, a, m);
    } else if !a.FinishRecovery? {
      OthersStayBusy(s, a);
    }
  }

  // History IDs of the provider never decrease, and neither does a cursor: not even in the
  // assignment without `max` that completes a recovery.
  lemma CursorsAdvance(s: Sys, a: Action, m: Email)
    requires Inv(s) && Enabled(s, a) && m in s.db.mailboxes
    ensures m in Next(s, a).db.mailboxes && MailboxAdvances(s.db.mailboxes[m], Next(s, a).db.mailboxes[m])
  {
    hide Inv, Act, Enabled;
    EveryStepLegal(s, a);
    var row, row' := s.db.mailboxes[m], Next(s, a).db.mailboxes[m];
    assert LegalMove(row, row');
    hide Legal;
    if !row.resync.state.Idle? && row'.historyCursor != row.historyCursor {
      FrozenDuringRecovery(s, a, m);
      ProfileIsCurrent(s, a.w);
    }
  }

  // The completing worker's profile is at least the cursor it replaces.
  lemma ProfileIsCurrent(s: Sys, w: WorkerId)
    requires Inv(s) && Enabled(s, FinishRecovery(w)) && OwnsResync(s.db, s.PcOf(w).resync)
    ensures s.db.mailboxes[s.PcOf(w).resync.mailbox].historyCursor.Some?
    ensures s.db.mailboxes[s.PcOf(w).resync.mailbox].historyCursor.value <= s.PcOf(w).cursor
  {
    hide TablesOk, GrantsOk, WorldOk;
    assert WorkerOk(s, w);
  }

  lemma CursorStep(states: seq<Sys>, actions: seq<Action>, i: nat, m: Email)
    requires IsRun(states, actions) && i + 1 < |states| && m in states[i].db.mailboxes
    ensures m in states[i + 1].db.mailboxes
    ensures MailboxAdvances(states[i].db.mailboxes[m], states[i + 1].db.mailboxes[m])
  {
    RunsKeepInv(states, actions, i);
    hide Inv, Enabled, Next, MailboxAdvances;
    CursorsAdvance(states[i], actions[i], m);
  }

  lemma AdvancesOn(a: Mailbox, b: Mailbox, c: Mailbox)
    requires MailboxAdvances(a, b) && MailboxAdvances(b, c)
    ensures MailboxAdvances(a, c)
  {
  }

  lemma {:induction false} CursorNeverDecreases(states: seq<Sys>, actions: seq<Action>, i: nat, j: nat, m: Email)
    requires IsRun(states, actions) && i <= j < |states| && m in states[i].db.mailboxes
    ensures m in states[j].db.mailboxes && MailboxAdvances(states[i].db.mailboxes[m], states[j].db.mailboxes[m])
  {
    hide IsRun;
    if i < j {
      CursorNeverDecreases(states, actions, i, j - 1, m);
      CursorStep(states, actions, j - 1, m);
      AdvancesOn(states[i].db.mailboxes[m], states[j - 1].db.mailboxes[m], states[j].db.mailboxes[m]);
    }
  }

  // A job that ever succeeded has its history ID at or below the cursor from then on.
  lemma SucceededJobsReached(states: seq<Sys>, actions: seq<Action>, i: nat, j: nat, id: JobId)
    requires IsRun(states, actions) && i <= j < |states|
    requires id in states[i].db.jobs && states[i].db.jobs[id].state.JobSucceeded?
    ensures var job := states[i].db.jobs[id];
            && job.mailbox in states[j].db.mailboxes
            && states[j].db.mailboxes[job.mailbox].historyCursor.Some?
            && job.historyId <= states[j].db.mailboxes[job.mailbox].historyCursor.value
  {
    RunsKeepInv(states, actions, i);
    hide TablesOk, GrantsOk, WorkerOk, IsRun;
    assert JobReached(states[i], states[i].db.jobs[id]);
    CursorNeverDecreases(states, actions, i, j, states[i].db.jobs[id].mailbox);
  }

  // ---------- Coverage ----------

  // The coverage start set by a step: the first cursor of a mailbox, or the cursor of a completed
  // recovery.
  function NewStart(s: Sys, a: Action, m: Email): Option<int> {
    if a.RenewWatch? && s.PcOf(a.w).WatchLeased? && s.PcOf(a.w).mailbox == m && OwnsWatch(s.db, m, s.PcOf(a.w).token)
       && NoBaseline(s.db.mailboxes[m].historyCursor)
    then Some(a.historyId)
    else if a.FinishRecovery? && s.PcOf(a.w).Profiled? && s.PcOf(a.w).resync.mailbox == m
            && OwnsResync(s.db, s.PcOf(a.w).resync)
    then Some(s.PcOf(a.w).cursor)
    else None
  }

  // The last coverage start of the mailbox before state i.
  function LastStart(states: seq<Sys>, actions: seq<Action>, i: nat, m: Email): Option<int>
    requires |states| == |actions| + 1 && i < |states|
  {
    if i == 0 then None
    else
      var start := NewStart(states[i - 1], actions[i - 1], m);
      if start.Some? then start else LastStart(states, actions, i - 1, m)
  }

  // A triage call of the message finalizes.
  predicate Concludes(s: Sys, a: Action, key: TriageKey) {
    a.SettleTriage? && s.PcOf(a.w).InTriage? && s.PcOf(a.w).triage.key == key
  }

  // It finds its row still under its token.
  predicate Finalizes(s: Sys, a: Action, key: TriageKey) {
    Concludes(s, a, key) && OwnsTriage(s.db, s.PcOf(a.w).triage)
  }

  // It finds its row unfinished and no longer under its token, and does nothing.
  predicate Misses(s: Sys, a: Action, key: TriageKey) {
    Concludes(s, a, key) && !OwnsTriage(s.db, s.PcOf(a.w).triage) && Unfinished(s.db, key)
  }

  predicate LeaseRanOut(s: Sys, w: WorkerId) {
    && s.PcOf(w).InTriage? && s.PcOf(w).triage.token in s.grants
    && s.grants[s.PcOf(w).triage.token].expiresAt <= s.clock
  }

  ghost predicate HadRow(states: seq<Sys>, i: nat, m: Email, message: MessageId)
    requires i < |states|
  {
    exists j :: 0 <= j <= i && (m, message) in states[j].db.triage
  }

  ghost predicate HadTerminalRow(states: seq<Sys>, i: nat, m: Email, message: MessageId)
    requires i < |states|
  {
    exists j :: 0 <= j <= i && (m, message) in states[j].db.triage && states[j].db.triage[(m, message)].Terminal()
  }

  ghost predicate WasFinalized(states: seq<Sys>, actions: seq<Action>, i: nat, m: Email, message: MessageId)
    requires |states| == |actions| + 1 && i < |states|
  {
    exists k :: 0 <= k < i && Finalizes(states[k], actions[k], (m, message))
  }

  ghost predicate WasMissed(states: seq<Sys>, actions: seq<Action>, i: nat, m: Email, message: MessageId)
    requires |states| == |actions| + 1 && i < |states|
  {
    exists k :: 0 <= k < i && Misses(states[k], actions[k], (m, message))
  }

  // How the history variables change.
  predicate SameHistory(s: Sys, s': Sys) {
    && s'.recorded == s.recorded && s'.settled == s.settled && s'.missed == s.missed && s'.baselines == s.baselines
    && s'.chains == s.chains && s'.providers == s.providers
  }

  lemma FailHistory(s: Sys, w: WorkerId, job: JobClaim, code: ErrorCode, deadLetter: bool, requireResync: bool,
                    now: Time, at: Time)
    ensures SameHistory(s, FailStep(s, w, job, code, deadLetter, requireResync, now, at))
  {
    hide FailJob;
  }

  lemma CompleteHistoryVars(s: Sys, w: WorkerId, job: JobClaim, upTo: int, at: Time)
    ensures SameHistory(s, CompleteStep(s, w, job, upTo, at))
  {
    hide CompleteJob;
  }

  lemma ManualHistory(s: Sys, w: WorkerId, job: JobClaim, resync: ResyncClaim)
    ensures SameHistory(s, ManualStep(s, w, job, resync))
  {
    hide RequireManual;
  }

  lemma BranchHistory(s: Sys, w: WorkerId, now: Time, at: Time)
    requires s.PcOf(w).Read?
    ensures SameHistory(s, BranchStep(s, w, now, at))
  {
    hide FailStep, CompleteStep, ClaimResync, DeadLetterJob, OwnsJob;
    var job, read := s.PcOf(w).job, s.PcOf(w).snapshot;
    FailHistory(s, w, job, MailboxStateMissing, true, false, now, at);
    FailHistory(s, w, job, HistoryCursorMissing, true, true, now, at);
    if read.Some? {
      CompleteHistoryVars(s, w, job, read.value.historyCursor.GetOr(0), at);
    }
  }

  // Checkpointing writes down the committed listing.
  lemma SettlePageHistory(s: Sys, w: WorkerId, at: Time, m: Email)
    requires Enabled(s, SettlePage(w, at))
    ensures SameHistory(s, SettlePageStep(s, w, at).(chains := s.chains))
    ensures var s' := SettlePageStep(s, w, at);
            s'.ChainOf(m) ==
            if Commits(s, SettlePage(w, at), m) then s.PcOf(w).purpose.listing else s.ChainOf(m)
    ensures m in s.chains || Commits(s, SettlePage(w, at), m) ==> m in SettlePageStep(s, w, at).chains
  {
    hide ManualStep, CheckpointResync, OwnsResync;
    ManualHistory(s, w, s.PcOf(w).job, s.PcOf(w).purpose.resync);
  }

  lemma JobStepsWriteNoHistory(s: Sys, a: Action)
    requires Enabled(s, a)
    requires TakesAStep(a)
    ensures SameHistory(s, Act(s, a))
  {
    hide FailStep, CompleteStep, ManualStep, BranchStep, SameHistory;
    match a
    case Branch(w, now, at) => BranchHistory(s, w, now, at);
    case HistoryFailed(w, failure, now, at) =>
      var (code, deadLetter, requireResync) := FailArguments(failure);
      FailHistory(s, w, s.PcOf(w).job, code, deadLetter, requireResync, now, at);
    case CompleteHistory(w, at) =>
      CompleteHistoryVars(s, w, s.PcOf(w).job, Max(s.PcOf(w).purpose.cursor, s.PcOf(w).job.historyId), at);
    case HitCap(w) => ManualHistory(s, w, s.PcOf(w).job, s.PcOf(w).resync);
    case CompleteAfterRecovery(w, at) => CompleteHistoryVars(s, w, s.PcOf(w).job, s.PcOf(w).job.historyId, at);
    case FinishFail(w, now, at) => FailHistory(s, w, s.PcOf(w).job, s.PcOf(w).code, false, false, now, at);
  }

  predicate TakesAStep(a: Action) {
    a.Branch? || a.HistoryFailed? || a.CompleteHistory? || a.HitCap? || a.CompleteAfterRecovery? || a.FinishFail?
  }

  lemma FinishWritesNoHistory(s: Sys, a: Action)
    requires Enabled(s, a) && Finishing(a) && !TakesAStep(a) && !a.FinishRecovery? && !a.SettlePage?
    ensures SameHistory(s, FinishAct(s, a))
  {
    hide ReleaseResync, RequeueJob, DeadLetterJob, Distinct, OwnsJob, OwnsResync, AtPageEnd, InRecovery, Enabled;
  }

  lemma EnvironmentWritesNoHistory(s: Sys, a: Action)
    requires Enabled(s, a) && (a.Tick? || a.PushArrives? || a.Prune? || a.Crash?)
    ensures SameHistory(s, Act(s, a))
  {
    hide Enqueue, PruneQueue, Enabled;
  }

  lemma LeaseWatchWritesNoHistory(s: Sys, a: Action)
    requires Enabled(s, a) && a.LeaseWatch?
    ensures SameHistory(s, Act(s, a))
  {
    hide ClaimWatch, Enabled;
  }

  lemma LeaseJobWritesNoHistory(s: Sys, a: Action)
    requires Enabled(s, a) && a.LeaseJob?
    ensures SameHistory(s, Act(s, a))
  {
    hide ClaimJob, Enabled, Act;
    LeaseJobAct(s, a.w, a.owner, a.id, a.now, a.at);
  }

  lemma ReadsWriteNoHistory(s: Sys, a: Action)
    requires Enabled(s, a)
    requires a.ReadMailbox? || a.HistoryListed? || a.ProbeTriage?
    ensures SameHistory(s, Act(s, a))
  {
    hide Scan, TriageIsTerminal, WantsHistory, Stuck;
  }

  lemma GivingUpWritesNoHistory(s: Sys, a: Action)
    requires Enabled(s, a) && (a.AbandonWatch? || a.GiveUpTriage?)
    ensures SameHistory(s, Act(s, a))
  {
    hide FailWatch, ReleaseTriage, OwnsTriage, OwnsWatch, Stuck;
  }

  predicate WritesHistory(a: Action) {
    a.LeaseTriage? || a.SettleTriage? || a.RenewWatch? || a.FinishRecovery? || a.SettlePage? || a.MailboxChanges?
  }

  lemma OtherStepsWriteNoHistory(s: Sys, a: Action)
    requires Enabled(s, a) && !WritesHistory(a)
    ensures SameHistory(s, Act(s, a))
  {
    if TakesAStep(a) {
      hide *;
      JobStepsWriteNoHistory(s, a);
    } else if Finishing(a) {
      hide SameHistory, FinishAct, Enabled;
      FinishWritesNoHistory(s, a);
    } else {
      hide *;
      if a.Tick? || a.PushArrives? || a.Prune? || a.Crash? {
        EnvironmentWritesNoHistory(s, a);
      } else if a.LeaseWatch? {
        LeaseWatchWritesNoHistory(s, a);
      } else if a.LeaseJob? {
        LeaseJobWritesNoHistory(s, a);
      } else if a.AbandonWatch? || a.GiveUpTriage? {
        GivingUpWritesNoHistory(s, a);
      } else {
        ReadsWriteNoHistory(s, a);
      }
    }
  }

  lemma LeaseTriageHistory(s: Sys, w: WorkerId, now: Time)
    requires s.PcOf(w).Triaging? && s.PcOf(w).todo != []
    ensures var s' := LeaseTriageStep(s, w, now);
            && SameHistory(s, s'.(recorded := s.recorded)) && s.recorded <= s'.recorded
            && (forall key <- s'.recorded :: key in s.recorded || key in s'.db.triage)
  {
    var pc := s.PcOf(w);
    var key := (pc.job.mailbox, pc.todo[0]);
    ClaimedRowExists(s.cfg, s.db, key, Source(pc.purpose), now);
    hide ClaimTriage, Source;
  }

  lemma ClaimedRowExists(cfg: Config, db: Tables, key: TriageKey, source: int, now: Time)
    ensures var (db', claim) := ClaimTriage(cfg, db, key, source, now); claim.Some? ==> key in db'.triage
  {
  }

  lemma SettleTriageHistory(s: Sys, a: Action)
    requires Enabled(s, a) && a.SettleTriage?
    ensures var s' := Act(s, a);
            && SameHistory(s, s'.(settled := s.settled, missed := s.missed))
            && s.settled <= s'.settled && s.missed <= s'.missed
            && (forall key <- s'.settled :: key in s.settled || Finalizes(s, a, key))
            && (forall key <- s'.missed :: key in s.missed || Misses(s, a, key))
  {
  }

  // The stored coverage start, as a lookup.
  function StoredStart(s: Sys, m: Email): Option<int> {
    if m in s.baselines then Some(s.baselines[m]) else None
  }

  lemma BaselineHistory(s: Sys, a: Action, m: Email)
    requires Enabled(s, a) && (a.RenewWatch? || a.FinishRecovery?)
    ensures var s' := Act(s, a);
            && SameHistory(s, s'.(baselines := s.baselines))
            && StoredStart(s', m) == (if NewStart(s, a, m).Some? then NewStart(s, a, m) else StoredStart(s, m))
  {
    hide CompleteWatch, CompleteResync;
  }

  ghost predicate HistoryMoves(s: Sys, a: Action, s': Sys, key: TriageKey, m: Email) {
    && (key in s'.recorded && key !in s.recorded ==> key in s'.db.triage)
    && (key in s'.settled && key !in s.settled ==> Finalizes(s, a, key))
    && (key in s'.missed && key !in s.missed ==> Misses(s, a, key))
    && StoredStart(s', m) == (if NewStart(s, a, m).Some? then NewStart(s, a, m) else StoredStart(s, m))
  }

  lemma QuietHistory(s: Sys, a: Action, s': Sys, key: TriageKey, m: Email)
    requires s'.recorded == s.recorded && s'.settled == s.settled && s'.missed == s.missed
    requires s'.baselines == s.baselines && !a.RenewWatch? && !a.FinishRecovery?
    ensures HistoryMoves(s, a, s', key, m)
  {
  }

  lemma WritingStep(s: Sys, a: Action, key: TriageKey, m: Email)
    requires Enabled(s, a) && WritesHistory(a) && !a.MailboxChanges? && !a.SettlePage?
    ensures HistoryMoves(s, a, Next(s, a), key, m)
  {
    hide Enabled, Act;
    if a.LeaseTriage? {
      ActIsLeaseTriage(s, a);
      LeaseTriageHistory(s, a.w, a.now);
    } else if a.SettleTriage? {
      SettleTriageHistory(s, a);
    } else {
      BaselineHistory(s, a, m);
    }
  }

  lemma HistoryStep(s: Sys, a: Action, key: TriageKey, m: Email)
    requires Enabled(s, a)
    ensures HistoryMoves(s, a, Next(s, a), key, m)
  {
    hide HistoryMoves, Act, Enabled;
    if a.MailboxChanges? {
      ActIsChange(s, a);
      QuietHistory(s, a, Next(s, a), key, m);
    } else if a.SettlePage? {
      ActIsSettlePage(s, a, m);
      QuietHistory(s, a, Next(s, a), key, m);
    } else if WritesHistory(a) {
      WritingStep(s, a, key, m);
    } else {
      OtherStepsWriteNoHistory(s, a);
      QuietHistory(s, a, Next(s, a), key, m);
    }
  }

  lemma ActIsLeaseTriage(s: Sys, a: Action)
    requires Enabled(s, a) && a.LeaseTriage?
    ensures s.PcOf(a.w).Triaging? && s.PcOf(a.w).todo != [] && Act(s, a) == LeaseTriageStep(s, a.w, a.now)
  {
    hide LeaseTriageStep;
  }

  lemma ActIsChange(s: Sys, a: Action)
    requires Enabled(s, a) && a.MailboxChanges?
    ensures SameHistory(s, Act(s, a).(providers := s.providers)) && Act(s, a).db == s.db
  {
  }

  lemma ActIsSettlePage(s: Sys, a: Action, m: Email)
    requires Enabled(s, a) && a.SettlePage?
    ensures Act(s, a) == SettlePageStep(s, a.w, a.at) && SameHistory(s, Act(s, a).(chains := s.chains))
    ensures NewStart(s, a, m).None?
  {
    hide SettlePageStep, SameHistory;
    SettlePageHistory(s, a.w, a.at, m);
  }

  lemma {:induction false} RecordedRowsExisted(states: seq<Sys>, actions: seq<Action>, i: nat, key: TriageKey)
    requires IsRun(states, actions) && i < |states| && key in states[i].recorded
    ensures exists j :: 0 <= j <= i && key in states[j].db.triage
  {
    hide Enabled, Next;
    if i > 0 {
      HistoryStep(states[i - 1], actions[i - 1], key, "");
      if key in states[i - 1].recorded {
        RecordedRowsExisted(states, actions, i - 1, key);
      }
    }
  }

  lemma {:induction false} SettledWereFinalized(states: seq<Sys>, actions: seq<Action>, i: nat, m: Email,
                                                message: MessageId)
    requires IsRun(states, actions) && i < |states| && (m, message) in states[i].settled
    ensures WasFinalized(states, actions, i, m, message)
  {
    hide Enabled, Next, Finalizes;
    if i > 0 {
      HistoryStep(states[i - 1], actions[i - 1], (m, message), "");
      if (m, message) in states[i - 1].settled {
        SettledWereFinalized(states, actions, i - 1, m, message);
      }
    }
  }

  lemma {:induction false} MissedWereMissed(states: seq<Sys>, actions: seq<Action>, i: nat, m: Email,
                                            message: MessageId)
    requires IsRun(states, actions) && i < |states| && (m, message) in states[i].missed
    ensures WasMissed(states, actions, i, m, message)
  {
    hide Enabled, Next, Misses;
    if i > 0 {
      HistoryStep(states[i - 1], actions[i - 1], (m, message), "");
      if (m, message) in states[i - 1].missed {
        MissedWereMissed(states, actions, i - 1, m, message);
      }
    }
  }

  lemma FinalizedRowIsTerminal(s: Sys, a: Action, key: TriageKey)
    requires Enabled(s, a) && Finalizes(s, a, key)
    ensures key in Next(s, a).db.triage && Next(s, a).db.triage[key].Terminal()
  {
    FinalizeTriageTables(s.db, s.PcOf(a.w).triage, a.state, a.summary, a.error, a.at);
    hide FinalizeTriage, OwnsTriage;
  }

  lemma TerminalIsSettled(s: Sys, key: TriageKey)
    requires Inv(s) && key in s.db.triage && s.db.triage[key].Terminal()
    ensures key in s.settled
  {
  }

  // Exactly when a message has had a terminal triage row: some triage call still held its row when
  // it finalized.
  lemma TerminalIffFinalized(states: seq<Sys>, actions: seq<Action>, i: nat, m: Email, message: MessageId)
    requires IsRun(states, actions) && i < |states|
    ensures HadTerminalRow(states, i, m, message) <==> WasFinalized(states, actions, i, m, message)
  {
    var key := (m, message);
    if HadTerminalRow(states, i, m, message) {
      var j :| 0 <= j <= i && key in states[j].db.triage && states[j].db.triage[key].Terminal();
      RunsKeepInv(states, actions, j);
      hide IsRun, Inv, Finalizes;
      TerminalIsSettled(states[j], key);
      SettledWereFinalized(states, actions, j, m, message);
    }
    if WasFinalized(states, actions, i, m, message) {
      hide Enabled, Next, Finalizes;
      var k :| 0 <= k < i && Finalizes(states[k], actions[k], key);
      FinalizedRowIsTerminal(states[k], actions[k], key);
      assert states[k + 1] == Next(states[k], actions[k]);
    }
  }

  // A triage call misses its message only after its lease ran out.
  lemma MissesAreLate(states: seq<Sys>, actions: seq<Action>, i: nat, key: TriageKey)
    requires IsRun(states, actions) && i < |actions| && Misses(states[i], actions[i], key)
    ensures LeaseRanOut(states[i], actions[i].w)
  {
    var s, w := states[i], actions[i].w;
    RunsKeepInv(states, actions, i);
    hide IsRun, TablesOk, WorldOk, TriageLoopOk;
    assert WorkerOk(s, w);
    hide GrantsOk, OwnsTriage;
    InTimeSettles(s, w, s.PcOf(w).triage);
  }

  lemma {:induction false} BaselineIsLastStart(states: seq<Sys>, actions: seq<Action>, i: nat, m: Email)
    requires IsRun(states, actions) && i < |states|
    ensures StoredStart(states[i], m) == LastStart(states, actions, i, m)
  {
    if i > 0 {
      hide Enabled, Next, NewStart;
      BaselineIsLastStart(states, actions, i - 1, m);
      HistoryStep(states[i - 1], actions[i - 1], ("", ""), m);
    }
  }

  lemma SeenIsTold(states: seq<Sys>, actions: seq<Action>, i: nat, m: Email, message: MessageId)
    requires IsRun(states, actions) && i < |states| && Seen(states[i], m, message)
    ensures HadRow(states, i, m, message)
    ensures HadTerminalRow(states, i, m, message) || WasMissed(states, actions, i, m, message)
  {
    hide IsRun, HadTerminalRow, WasMissed, WasFinalized;
    RecordedRowsExisted(states, actions, i, (m, message));
    if (m, message) in states[i].settled {
      SettledWereFinalized(states, actions, i, m, message);
      TerminalIffFinalized(states, actions, i, m, message);
    } else {
      MissedWereMissed(states, actions, i, m, message);
    }
  }

  // Main result.  In every reachable state of every run, every message that entered the mailbox
  // after the last coverage start and up to the stored history cursor has had a triage row, and a
  // terminal one unless a triage call of that message lost the row before it finalized.
  lemma HistoryIsCovered(states: seq<Sys>, actions: seq<Action>, i: nat, m: Email, from: int, message: MessageId,
                         at: int)
    requires IsRun(states, actions) && i < |states|
    requires LastStart(states, actions, i, m) == Some(from)
    requires m in states[i].db.mailboxes && states[i].db.mailboxes[m].historyCursor.Some?
    requires Addition(message, at) in states[i].ProviderOf(m).additions
    requires from < at <= states[i].db.mailboxes[m].historyCursor.value
    ensures HadRow(states, i, m, message)
    ensures HadTerminalRow(states, i, m, message) || WasMissed(states, actions, i, m, message)
  {
    var s := states[i];
    RunsKeepInv(states, actions, i);
    BaselineIsLastStart(states, actions, i, m);
    hide IsRun, TablesOk, GrantsOk, WorkerOk;
    assert MailboxCovered(s, m);
    assert Seen(s, m, message);
    hide Inv, WorldOk, MailboxCovered, Seen, HadRow, HadTerminalRow, WasMissed;
    SeenIsTold(states, actions, i, m, message);
  }

  // The claim is never vacuous: a mailbox with a cursor has a coverage start.
  lemma CursorsHaveACoverageStart(states: seq<Sys>, actions: seq<Action>, i: nat, m: Email)
    requires IsRun(states, actions) && i < |states|
    requires m in states[i].db.mailboxes && states[i].db.mailboxes[m].historyCursor.Some?
    ensures LastStart(states, actions, i, m).Some?
  {
    RunsKeepInv(states, actions, i);
    hide IsRun, TablesOk, GrantsOk, WorkerOk;
    assert MailboxCovered(states[i], m);
    BaselineIsLastStart(states, actions, i, m);
  }
}
