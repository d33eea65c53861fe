// Which queue rows end in the dead-letter state, and which rows may be deleted.

module NotificationRetention {
  import opened Common
  import opened NotificationRows
  import opened HistoryScan
  import opened NotificationProtocol
  import opened NotificationTransactions
  import opened NotificationLeases
  import opened NotificationInvariant
  import opened NotificationSteps
  import opened NotificationSafety
  import opened NotificationTheorems
  import opened NotificationRuns
  import opened NotificationRecovery

  predicate ManualRow(db: Tables, m: Email) {
    m in db.mailboxes && db.mailboxes[m].resync.state.ManualRequired?
  }

  // Rows newly dead-lettered belong to a mailbox that waits for its operator, and no row disappears.
  predicate JobsFair(db: Tables, db': Tables) {
    && db'.triage == db.triage && db'.jobs.Keys == db.jobs.Keys
    && (forall id <- db'.jobs ::
          && db'.jobs[id].mailbox == db.jobs[id].mailbox
          && (db'.jobs[id].state.JobDeadLetter? ==>
                db.jobs[id].state.JobDeadLetter? || ManualRow(db, db.jobs[id].mailbox)))
  }

  predicate JobFair(db: Tables, job: Job, job': Job) {
    && job'.mailbox == job.mailbox
    && (job'.state.JobDeadLetter? ==> job.state.JobDeadLetter? || ManualRow(db, job.mailbox))
  }

  lemma SameRowsFair(db: Tables, db': Tables)
    requires db'.jobs == db.jobs && db'.triage == db.triage
    ensures JobsFair(db, db')
  {
  }

  lemma OneRowFair(db: Tables, db': Tables, id: JobId)
    requires id in db.jobs && id in db'.jobs && db'.jobs == db.jobs[id := db'.jobs[id]] && db'.triage == db.triage
    requires JobFair(db, db.jobs[id], db'.jobs[id])
    ensures JobsFair(db, db')
  {
  }

  lemma ClaimJobFair(cfg: Config, db: Tables, id: JobId, now: Time, at: Time)
    requires id in db.jobs && db.jobs[id].mailbox in db.mailboxes
    ensures JobsFair(db, ClaimJob(cfg, db, id, now, at).0)
  {
    hide RetryAt, BackOffRecovery, JobsFair;
    OneRowFair(db, ClaimJob(cfg, db, id, now, at).0, id);
  }

  lemma CompleteJobFair(cfg: Config, db: Tables, claim: JobClaim, upTo: int, at: Time)
    requires claim.mailbox in db.mailboxes
    ensures JobsFair(db, CompleteJob(cfg, db, claim, upTo, at).0)
  {
    hide RetryAt, JobsFair;
    var db' := CompleteJob(cfg, db, claim, upTo, at).0;
    if OwnsJob(db, claim) {
      OneRowFair(db, db', claim.id);
    } else {
      SameRowsFair(db, db');
    }
  }

  lemma FailJobFair(cfg: Config, db: Tables, claim: JobClaim, code: ErrorCode, deadLetter: bool,
                    requireResync: bool, now: Time, at: Time)
    requires claim.mailbox in db.mailboxes
    ensures JobsFair(db, FailJob(cfg, db, claim, code, deadLetter, requireResync, now, at))
  {
    hide JobsFair, FailRows;
    var db' := FailJob(cfg, db, claim, code, deadLetter, requireResync, now, at);
    if OwnsJob(db, claim) {
      FailRowsQuiet(cfg, db.jobs[claim.id], db.mailboxes[claim.mailbox], claim, code, deadLetter, requireResync, now, at);
      OneRowFair(db, db', claim.id);
    } else {
      SameRowsFair(db, db');
    }
  }

  lemma RequeueFair(cfg: Config, db: Tables, claim: JobClaim, code: ErrorCode, next: Option<Time>, at: Time)
    ensures JobsFair(db, RequeueJob(cfg, db, claim, code, next, at))
  {
    hide RetryAt, JobsFair;
    var db' := RequeueJob(cfg, db, claim, code, next, at);
    if OwnsJob(db, claim) {
      OneRowFair(db, db', claim.id);
    } else {
      SameRowsFair(db, db');
    }
  }

  lemma DeadLetterFair(db: Tables, claim: JobClaim, code: ErrorCode, at: Time)
    requires ClaimFits(db, claim) && ManualRow(db, claim.mailbox)
    ensures JobsFair(db, DeadLetterJob(db, claim, code, at))
  {
    hide JobsFair;
    var db' := DeadLetterJob(db, claim, code, at);
    if OwnsJob(db, claim) {
      OneRowFair(db, db', claim.id);
    } else {
      SameRowsFair(db, db');
    }
  }

  lemma ReadManual(s: Sys, w: WorkerId)
    requires s.PcOf(w).Read? && s.PcOf(w).snapshot.Some? && KnowsOk(s, Knows(s.PcOf(w)))
    requires s.PcOf(w).snapshot.value.resync.state.ManualRequired?
    ensures ManualRow(s.db, s.PcOf(w).job.mailbox)
  {
  }

  lemma BranchFair(s: Sys, w: WorkerId, now: Time, at: Time)
    requires s.PcOf(w).Read? && JobClaimOk(s, w, s.PcOf(w).job) && KnowsOk(s, Knows(s.PcOf(w)))
    ensures JobsFair(s.db, BranchStep(s, w, now, at).db)
  {
    var job, read := s.PcOf(w).job, s.PcOf(w).snapshot;
    JobFacts(s, w, job);
    hide JobsFair, FailJob, CompleteJob, DeadLetterJob, JobClaimOk, ClaimFits, KnowsOk, Knows, ManualRow, Baseline,
         Sys.ChainOf, OwnsJob, ClaimResync;
    FailJobFair(s.cfg, s.db, job, MailboxStateMissing, true, false, now, at);
    FailJobFair(s.cfg, s.db, job, HistoryCursorMissing, true, true, now, at);
    if read.Some? {
      CompleteJobFair(s.cfg, s.db, job, read.value.historyCursor.GetOr(0), at);
      ClaimResyncFair(s.cfg, s.db, job.mailbox, read.value.userId, now, at);
      if read.value.resync.state.ManualRequired? {
        ReadManual(s, w);
        DeadLetterFair(s.db, job, ResyncManualRequired, at);
      }
    }
  }

  lemma ClaimResyncFair(cfg: Config, db: Tables, m: Email, owner: UserId, now: Time, at: Time)
    ensures JobsFair(db, ClaimResync(cfg, db, m, owner, now, at).0)
  {
    hide JobsFair;
    SameRowsFair(db, ClaimResync(cfg, db, m, owner, now, at).0);
  }

  lemma JobFacts(s: Sys, w: WorkerId, job: JobClaim)
    requires JobClaimOk(s, w, job)
    ensures ClaimFits(s.db, job) && job.mailbox in s.db.mailboxes
  {
  }

  lemma DeadLetterManual(s: Sys, w: WorkerId)
    requires s.PcOf(w).DeadLettering? && KnowsOk(s, Knows(s.PcOf(w)))
    ensures ManualRow(s.db, s.PcOf(w).job.mailbox)
  {
  }

  lemma LeaseJobFair(s: Sys, a: Action)
    requires Enabled(s, a) && a.LeaseJob?
    ensures JobsFair(s.db, Act(s, a).db)
  {
    hide JobsFair, ClaimJob;
    ClaimJobFair(s.cfg, s.db, a.id, a.now, a.at);
  }

  lemma FinishFair(s: Sys, a: Action)
    requires Enabled(s, a) && (a.FinishRequeue? || a.FinishDeadLetter?)
    requires KnowsOk(s, Knows(s.PcOf(a.w))) && JobClaimOk(s, a.w, s.PcOf(a.w).job)
    ensures JobsFair(s.db, Act(s, a).db)
  {
    var pc := s.PcOf(a.w);
    JobFacts(s, a.w, pc.job);
    hide JobsFair, RequeueJob, DeadLetterJob, ClaimFits, JobClaimOk, KnowsOk, Knows, ManualRow, OwnsJob;
    if a.FinishDeadLetter? {
      DeadLetterManual(s, a.w);
      DeadLetterFair(s.db, pc.job, pc.code, a.at);
    } else {
      RequeueFair(s.cfg, s.db, pc.job, pc.code, if pc.atOnce then Some(a.at) else Option.None, a.at);
    }
  }

  lemma BranchActFair(s: Sys, a: Action)
    requires Enabled(s, a) && a.Branch?
    requires KnowsOk(s, Knows(s.PcOf(a.w))) && JobClaimOk(s, a.w, s.PcOf(a.w).job)
    ensures JobsFair(s.db, Act(s, a).db)
  {
    hide JobsFair, BranchStep, JobClaimOk, KnowsOk, Knows;
    BranchFair(s, a.w, a.now, a.at);
  }

  lemma FinishedFair(s: Sys, a: Action)
    requires Enabled(s, a) && (a.FinishFail? || a.CompleteAfterRecovery?) && JobClaimOk(s, a.w, s.PcOf(a.w).job)
    ensures JobsFair(s.db, Act(s, a).db)
  {
    JobFacts(s, a.w, s.PcOf(a.w).job);
    hide JobsFair, FailJob, CompleteJob, ClaimFits, JobClaimOk, OwnsJob;
    match a
    case FinishFail(w, now, at) => FailJobFair(s.cfg, s.db, s.PcOf(w).job, s.PcOf(w).code, false, false, now, at);
    case CompleteAfterRecovery(w, at) => CompleteJobFair(s.cfg, s.db, s.PcOf(w).job, s.PcOf(w).job.historyId, at);
  }

  lemma ScannedFair(s: Sys, a: Action)
    requires Enabled(s, a) && (a.HistoryFailed? || a.CompleteHistory?) && JobClaimOk(s, a.w, s.PcOf(a.w).job)
    ensures JobsFair(s.db, Act(s, a).db)
  {
    JobFacts(s, a.w, s.PcOf(a.w).job);
    hide JobsFair, FailJob, CompleteJob, ClaimFits, JobClaimOk, OwnsJob;
    match a
    case HistoryFailed(w, failure, now, at) =>
      var (code, deadLetter, requireResync) := FailArguments(failure);
      FailJobFair(s.cfg, s.db, s.PcOf(w).job, code, deadLetter, requireResync, now, at);
    case CompleteHistory(w, at) =>
      CompleteJobFair(s.cfg, s.db, s.PcOf(w).job, Max(s.PcOf(w).purpose.cursor, s.PcOf(w).job.historyId), at);
  }

  lemma AtWork(s: Sys, a: Action)
    requires Enabled(s, a) && ((JobStep(a) && !a.LeaseJob?) || a.FinishRequeue? || a.FinishDeadLetter?)
    ensures !s.PcOf(a.w).Resting? && !s.PcOf(a.w).WatchLeased?
  {
  }

  lemma JobStepFair(s: Sys, a: Action)
    requires Inv(s) && Enabled(s, a) && (JobStep(a) || a.FinishRequeue? || a.FinishDeadLetter?)
    requires KnowsOk(s, Knows(s.PcOf(a.w)))
    ensures JobsFair(s.db, Act(s, a).db)
  {
    if !a.LeaseJob? {
      AtWork(s, a);
      ClaimOfWorker(s, a.w);
    }
    hide Inv, Act, Enabled, JobsFair, JobClaimOk, KnowsOk, Knows;
    if a.LeaseJob? {
      LeaseJobFair(s, a);
    } else if a.FinishRequeue? || a.FinishDeadLetter? {
      FinishFair(s, a);
    } else if a.Branch? {
      BranchActFair(s, a);
    } else if a.FinishFail? || a.CompleteAfterRecovery? {
      FinishedFair(s, a);
    } else {
      ScannedFair(s, a);
    }
  }

  // ---------- Triage rows ----------

  predicate TriageStep(a: Action) {
    a.LeaseTriage? || a.SettleTriage? || a.GiveUpTriage?
  }

  lemma TriageRowsStay(s: Sys, a: Action)
    requires Enabled(s, a) && TriageStep(a)
    ensures s.db.triage.Keys <= Act(s, a).db.triage.Keys
  {
  }

  lemma FinishTriage(s: Sys, a: Action)
    requires Enabled(s, a) && Finishing(a) && !TriageStep(a) && !a.FinishRequeue? && !a.FinishDeadLetter?
    ensures Act(s, a).db.triage == s.db.triage
  {
    if a.SettlePage? || a.HitCap? {
      hide OwnsResync, Enabled;
    } else {
      hide OwnsResync, Enabled, SettlePageStep, ManualStep;
    }
  }

  lemma OtherTriage(s: Sys, a: Action)
    requires Enabled(s, a) && !a.PushArrives? && !a.Prune? && !JobStep(a) && !TriageStep(a)
    requires !a.FinishRequeue? && !a.FinishDeadLetter?
    ensures Act(s, a).db.triage == s.db.triage
  {
    if Finishing(a) {
      hide Enabled, Act;
      FinishTriage(s, a);
    } else {
      hide Enabled, FinishAct;
    }
  }

  // ---------- Every run ----------

  predicate DeadAreManual(s: Sys) {
    forall id <- s.db.jobs :: s.db.jobs[id].state.JobDeadLetter? ==> ManualAt(s, s.db.jobs[id].mailbox)
  }

  // No unfinished row is deleted.
  predicate UnfinishedKept(db: Tables, db': Tables) {
    && (forall id <- db.jobs :: !db.jobs[id].Terminal() ==> id in db'.jobs)
    && (forall key <- db.triage :: !db.triage[key].Terminal() ==> key in db'.triage)
  }

  lemma PruneFair(s: Sys, a: Action)
    requires Enabled(s, a) && a.Prune? && DeadAreManual(s)
    ensures DeadAreManual(Next(s, a)) && UnfinishedKept(s.db, Next(s, a).db)
  {
  }

  lemma FairStep(s: Sys, a: Action)
    requires Inv(s) && RecoveryOk(s) && Enabled(s, a) && DeadAreManual(s)
    ensures DeadAreManual(Next(s, a)) && UnfinishedKept(s.db, Next(s, a).db)
  {
    EverythingGrows(s, a);
    if a.PushArrives? {
      EnqueueFair(s, a);
    } else if a.Prune? {
      PruneFair(s, a);
    } else {
      assert KnowsOk(s, Knows(s.PcOf(if ActorOf(a).Some? then a.w else 0)));
      hide Inv, Act, Enabled, RecoveryOk;
      if JobStep(a) || a.FinishRequeue? || a.FinishDeadLetter? {
        JobStepFair(s, a);
      } else {
        OtherStepDeliveries(s, a);
        if TriageStep(a) {
          TriageRowsStay(s, a);
        } else {
          OtherTriage(s, a);
        }
      }
    }
  }

  lemma EnqueueFair(s: Sys, a: Action)
    requires Enabled(s, a) && a.PushArrives? && DeadAreManual(s)
    ensures DeadAreManual(Next(s, a)) && UnfinishedKept(s.db, Next(s, a).db)
  {
  }

  // A dead-lettered job belongs to a mailbox that waits for its operator, for as long as it is stored.
  lemma {:induction false} DeadJobsWaitForTheOperator(states: seq<Sys>, actions: seq<Action>, i: nat)
    requires IsRun(states, actions) && i < |states|
    ensures DeadAreManual(states[i])
  {
    if i > 0 {
      DeadJobsWaitForTheOperator(states, actions, i - 1);
      RunsKeepInv(states, actions, i - 1);
      RunsKeepRecoveryOk(states, actions, i - 1);
      hide Inv, RecoveryOk, Next, Enabled, DeadAreManual;
      FairStep(states[i - 1], actions[i - 1]);
    }
  }

  // Retention and everything else keep unfinished queue and triage rows.
  lemma UnfinishedRowsAreKept(states: seq<Sys>, actions: seq<Action>, i: nat)
    requires IsRun(states, actions) && i < |actions|
    ensures UnfinishedKept(states[i].db, states[i + 1].db)
  {
    DeadJobsWaitForTheOperator(states, actions, i);
    RunsKeepInv(states, actions, i);
    RunsKeepRecoveryOk(states, actions, i);
    hide Inv, RecoveryOk, Next, Enabled, DeadAreManual;
    FairStep(states[i], actions[i]);
  }
}
