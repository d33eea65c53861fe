// Safety of the notification protocol over whole runs.

module NotificationSafety {
  import opened Common
  import opened NotificationRows
  import opened HistoryScan
  import opened NotificationProtocol
  import opened NotificationTransactions
  import opened NotificationLeases
  import opened NotificationInvariant
  import opened NotificationSteps

  // ---------- Every reachable state ----------

  lemma NextKeepsInv(s: Sys, a: Action)
    requires Inv(s) && Enabled(s, a)
    ensures Inv(Next(s, a))
  {
    hide Inv, Act;
    ActKeepsInv(s, a);
    HistoryDoesNotMatter(Act(s, a), Next(s, a));
  }

  lemma {:induction false} RunsKeepInv(states: seq<Sys>, actions: seq<Action>, i: nat)
    requires IsRun(states, actions) && i < |states|
    ensures Inv(states[i]) && states[i].steps == i
  {
    if i > 0 {
      RunsKeepInv(states, actions, i - 1);
      hide Inv;
      NextKeepsInv(states[i - 1], actions[i - 1]);
    }
  }

  // ---------- What one step may do to rows ----------

  // Recovery moves along its graph, the generation grows by one exactly when recovery starts, no
  // cursor of an idle mailbox goes back, cursors are frozen while recovery is under way, and
  // terminal rows never change while they are stored.
  predicate Legal(db: Tables, db': Tables) {
    && MailboxesMove(db, db')
    && RowsStep(db, db')
  }

  lemma KeptLegal(cfg: Config, db: Tables, db': Tables, touched: set<Resource>)
    requires Kept(cfg, db, db', touched)
    ensures Legal(db, db')
  {
  }

  lemma EndsLegal(cfg: Config, db: Tables, db': Tables, owned: bool, r: Resource, token: Token, touched: set<Resource>)
    requires EndsLease(cfg, db, db', owned, r, token, touched)
    ensures Legal(db, db')
  {
    hide TablesOk, LeasesStep;
  }

  lemma SameLegal(db: Tables)
    ensures Legal(db, db)
  {
  }

  lemma FailLegal(s: Sys, w: WorkerId, code: ErrorCode, deadLetter: bool, requireResync: bool, now: Time, at: Time)
    requires Inv(s) && !s.PcOf(w).Resting? && !s.PcOf(w).WatchLeased?
    ensures Legal(s.db, FailJob(s.cfg, s.db, s.PcOf(w).job, code, deadLetter, requireResync, now, at))
  {
    hide TablesOk, GrantsOk, WorldOk, WorkerOk, EndsLease, Legal, FailJob;
    ClaimOfWorker(s, w);
    var job := s.PcOf(w).job;
    FailJobKept(s.cfg, s.db, job, code, deadLetter, requireResync, now, at);
    EndsLegal(s.cfg, s.db, FailJob(s.cfg, s.db, job, code, deadLetter, requireResync, now, at), OwnsJob(s.db, job),
              JobRow(job.id), job.token, {JobRow(job.id), RecoveryOf(job.mailbox)});
  }

  lemma CompleteLegal(s: Sys, w: WorkerId, upTo: int, at: Time)
    requires Inv(s) && !s.PcOf(w).Resting? && !s.PcOf(w).WatchLeased?
    ensures Legal(s.db, CompleteJob(s.cfg, s.db, s.PcOf(w).job, upTo, at).0)
  {
    hide TablesOk, GrantsOk, WorldOk, WorkerOk, EndsLease, Legal, CompleteJob;
    ClaimOfWorker(s, w);
    var job := s.PcOf(w).job;
    CompleteJobKept(s.cfg, s.db, job, upTo, at);
    EndsLegal(s.cfg, s.db, CompleteJob(s.cfg, s.db, job, upTo, at).0, OwnsJob(s.db, job),
              JobRow(job.id), job.token, {JobRow(job.id), RecoveryOf(job.mailbox)});
  }

  lemma DeadLetterLegal(s: Sys, job: JobClaim, code: ErrorCode, at: Time)
    requires TablesOk(s.cfg, s.db)
    ensures Legal(s.db, DeadLetterJob(s.db, job, code, at))
  {
    hide TablesOk, EndsLease, Legal, DeadLetterJob;
    DeadLetterJobKept(s.cfg, s.db, job, code, at);
    EndsLegal(s.cfg, s.db, DeadLetterJob(s.db, job, code, at), OwnsJob(s.db, job), JobRow(job.id), job.token,
              {JobRow(job.id)});
  }

  lemma ManualLegal(s: Sys, resync: ResyncClaim)
    requires TablesOk(s.cfg, s.db)
    ensures Legal(s.db, RequireManual(s.db, resync, ResyncTotalLimitReached).0)
  {
    hide TablesOk, EndsLease, Legal, RequireManual;
    var r := RecoveryOf(resync.mailbox);
    RequireManualKept(s.cfg, s.db, resync, ResyncTotalLimitReached);
    EndsLegal(s.cfg, s.db, RequireManual(s.db, resync, ResyncTotalLimitReached).0, OwnsResync(s.db, resync), r,
              resync.token, {r});
  }

  lemma SettlePageLegal(s: Sys, w: WorkerId, at: Time)
    requires Inv(s) && Enabled(s, SettlePage(w, at))
    ensures Legal(s.db, SettlePageStep(s, w, at).db)
  {
    hide TablesOk, GrantsOk, WorldOk, EndsLease, Legal, RequireManual, CheckpointResync;
    assert WorkerOk(s, w);
    var p := s.PcOf(w).purpose;
    if p.resync.messageCount + p.listed >= s.cfg.resyncMaxMessages {
      ManualLegal(s, p.resync);
    } else {
      var r := RecoveryOf(p.resync.mailbox);
      CheckpointResyncKept(s.cfg, s.db, p.resync, p.nextPage.value, p.listed, at);
      EndsLegal(s.cfg, s.db, CheckpointResync(s.db, p.resync, p.nextPage.value, p.listed, at).0,
                OwnsResync(s.db, p.resync), r, p.resync.token, {r});
    }
  }

  lemma BranchLegal(s: Sys, w: WorkerId, now: Time, at: Time)
    requires Inv(s) && Enabled(s, Branch(w, now, at))
    ensures Legal(s.db, BranchStep(s, w, now, at).db)
  {
    hide TablesOk, GrantsOk, WorldOk, WorkerOk, Legal, Kept, ClaimResync, FailJob, CompleteJob, DeadLetterJob;
    var job, read := s.PcOf(w).job, s.PcOf(w).snapshot;
    if read.None? {
      FailLegal(s, w, MailboxStateMissing, true, false, now, at);
    } else if Shuttered(read.value) {
      if read.value.resync.state.ManualRequired? {
        DeadLetterLegal(s, job, ResyncManualRequired, at);
      } else {
        ClaimResyncKept(s.cfg, s.db, job.mailbox, read.value.userId, now, at);
        KeptLegal(s.cfg, s.db, ClaimResync(s.cfg, s.db, job.mailbox, read.value.userId, now, at).0,
                  {RecoveryOf(job.mailbox)});
      }
    } else if read.value.historyCursor.None? {
      FailLegal(s, w, HistoryCursorMissing, true, true, now, at);
    } else {
      CompleteLegal(s, w, read.value.historyCursor.value, at);
    }
  }

  lemma JobStepLegal(s: Sys, a: Action)
    requires Inv(s) && Enabled(s, a)
    requires a.LeaseJob? || a.Branch? || a.HistoryFailed? || a.CompleteHistory? || a.CompleteAfterRecovery?
          || a.FinishRequeue? || a.FinishDeadLetter? || a.FinishFail?
    ensures Legal(s.db, Act(s, a).db)
  {
    hide TablesOk, GrantsOk, WorldOk, WorkerOk, Legal, Kept, EndsLease, ClaimJob, FailJob, CompleteJob, RequeueJob,
         DeadLetterJob, BranchStep;
    match a
    case LeaseJob(w, owner, id, now, at) =>
      ClaimJobKept(s.cfg, s.db, owner, id, now, at);
      KeptLegal(s.cfg, s.db, ClaimJob(s.cfg, s.db, id, now, at).0, {JobRow(id), RecoveryOf(s.db.jobs[id].mailbox)});
    case Branch(w, now, at) => BranchLegal(s, w, now, at);
    case HistoryFailed(w, failure, now, at) =>
      var (code, deadLetter, requireResync) := FailArguments(failure);
      FailLegal(s, w, code, deadLetter, requireResync, now, at);
    case CompleteHistory(w, at) => CompleteLegal(s, w, Max(s.PcOf(w).purpose.cursor, s.PcOf(w).job.historyId), at);
    case CompleteAfterRecovery(w, at) => CompleteLegal(s, w, s.PcOf(w).job.historyId, at);
    case FinishRequeue(w, at) =>
      var pc := s.PcOf(w);
      var next := if pc.atOnce then Some(at) else Option.None;
      RequeueJobKept(s.cfg, s.db, pc.job, pc.code, next, at);
      EndsLegal(s.cfg, s.db, RequeueJob(s.cfg, s.db, pc.job, pc.code, next, at), OwnsJob(s.db, pc.job),
                JobRow(pc.job.id), pc.job.token, {JobRow(pc.job.id)});
    case FinishDeadLetter(w, at) => DeadLetterLegal(s, s.PcOf(w).job, s.PcOf(w).code, at);
    case FinishFail(w, now, at) => FailLegal(s, w, s.PcOf(w).code, false, false, now, at);
  }

  lemma LeaseStepLegal(s: Sys, a: Action)
    requires Inv(s) && Enabled(s, a)
    requires a.LeaseWatch? || a.RenewWatch? || a.AbandonWatch? || a.LeaseTriage? || a.SettleTriage? || a.GiveUpTriage?
          || a.HitCap? || a.SettlePage? || a.FinishRecovery? || a.ReleaseRecovery?
    ensures Legal(s.db, Act(s, a).db)
  {
    hide TablesOk, GrantsOk, WorldOk, Legal, Kept, EndsLease, ClaimWatch, CompleteWatch, FailWatch, ClaimTriage,
         FinalizeTriage, ReleaseTriage, CompleteResync, ReleaseResync, RequireManual, SettlePageStep, TriageLoopOk;
    SameLegal(s.db);
    match a
    case LeaseWatch(w, m, owner, now) =>
      ClaimWatchKept(s.cfg, s.db, m, owner, now);
      KeptLegal(s.cfg, s.db, ClaimWatch(s.cfg, s.db, m, owner, now).0, {WatchOf(m)});
    case RenewWatch(w, historyId, expiresAt) =>
      var m, token := s.PcOf(w).mailbox, s.PcOf(w).token;
      CompleteWatchKept(s.cfg, s.db, m, token, historyId, expiresAt);
      EndsLegal(s.cfg, s.db, CompleteWatch(s.db, m, token, historyId, expiresAt).0, OwnsWatch(s.db, m, token),
                WatchOf(m), token, {WatchOf(m)});
    case AbandonWatch(w, code, at) =>
      var m, token := s.PcOf(w).mailbox, s.PcOf(w).token;
      FailWatchKept(s.cfg, s.db, m, token, code, at);
      EndsLegal(s.cfg, s.db, FailWatch(s.cfg, s.db, m, token, code, at), OwnsWatch(s.db, m, token), WatchOf(m), token,
                {WatchOf(m)});
    case LeaseTriage(w, now) =>
      var pc := s.PcOf(w);
      var key := (pc.job.mailbox, pc.todo[0]);
      ClaimTriageKept(s.cfg, s.db, key, Source(pc.purpose), now);
      KeptLegal(s.cfg, s.db, ClaimTriage(s.cfg, s.db, key, Source(pc.purpose), now).0, {TriageRow(key)});
    case SettleTriage(w, state, summary, error, at) =>
      var c := s.PcOf(w).triage;
      FinalizeTriageKept(s.cfg, s.db, c, state, summary, error, at);
      EndsLegal(s.cfg, s.db, FinalizeTriage(s.db, c, state, summary, error, at), OwnsTriage(s.db, c),
                TriageRow(c.key), c.token, {TriageRow(c.key)});
    case GiveUpTriage(w, code, at) =>
      var c := s.PcOf(w).triage;
      ReleaseTriageKept(s.cfg, s.db, c, code, at);
      EndsLegal(s.cfg, s.db, ReleaseTriage(s.cfg, s.db, c, code, at), OwnsTriage(s.db, c), TriageRow(c.key), c.token,
                {TriageRow(c.key)});
    case HitCap(w) => ManualLegal(s, s.PcOf(w).resync);
    case SettlePage(w, at) => SettlePageLegal(s, w, at);
    case FinishRecovery(w) =>
      var c := s.PcOf(w).resync;
      assert WorkerOk(s, w);
      CompleteResyncKept(s.cfg, s.db, c, s.PcOf(w).cursor);
      EndsLegal(s.cfg, s.db, CompleteResync(s.db, c, s.PcOf(w).cursor).0, OwnsResync(s.db, c), RecoveryOf(c.mailbox),
                c.token, {RecoveryOf(c.mailbox)});
    case ReleaseRecovery(w, at) =>
      var c := s.PcOf(w).resync;
      ReleaseResyncKept(s.cfg, s.db, c, s.PcOf(w).code, at);
      EndsLegal(s.cfg, s.db, ReleaseResync(s.cfg, s.db, c, s.PcOf(w).code, at).0, OwnsResync(s.db, c),
                RecoveryOf(c.mailbox), c.token, {RecoveryOf(c.mailbox)});
  }

  lemma EveryStepLegal(s: Sys, a: Action)
    requires Inv(s) && Enabled(s, a)
    ensures Legal(s.db, Next(s, a).db)
  {
    hide TablesOk, GrantsOk, WorldOk, WorkerOk, Legal, Kept;
    match a
    case PushArrives(envelope, owner, configured, newId, now) =>
      EnqueueKept(s.cfg, s.db, envelope, owner, configured, newId, now);
      KeptLegal(s.cfg, s.db, Enqueue(s.db, envelope, owner, configured, newId, now).0, {});
    case Prune(jobsCutoff, triageCutoff) =>
      PruneKept(s.cfg, s.db, jobsCutoff, triageCutoff);
      KeptLegal(s.cfg, s.db, PruneQueue(s.db, jobsCutoff, triageCutoff), {});
    case _ =>
      hide Act, Enabled;
      OtherStepLegal(s, a);
  }

  lemma OtherStepLegal(s: Sys, a: Action)
    requires Inv(s) && Enabled(s, a) && !a.PushArrives? && !a.Prune?
    ensures Legal(s.db, Act(s, a).db)
  {
    hide TablesOk, GrantsOk, WorldOk, WorkerOk, Legal, Enabled;
    if a.LeaseJob? || a.Branch? || a.HistoryFailed? || a.CompleteHistory? || a.CompleteAfterRecovery?
       || a.FinishRequeue? || a.FinishDeadLetter? || a.FinishFail? {
      JobStepLegal(s, a);
    } else if a.LeaseWatch? || a.RenewWatch? || a.AbandonWatch? || a.LeaseTriage? || a.SettleTriage? || a.GiveUpTriage?
              || a.HitCap? || a.SettlePage? || a.FinishRecovery? || a.ReleaseRecovery? {
      LeaseStepLegal(s, a);
    } else {
      assert Act(s, a).db == s.db;
      SameLegal(s.db);
    }
  }
}
