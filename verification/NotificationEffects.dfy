// What the transactions on the queue leave behind: when a row can be claimed again, what the next
// claim then carries, and what a finished row says.

module NotificationEffects {
  import opened Common
  import opened NotificationRows
  import opened NotificationProtocol
  import opened NotificationTransactions
  import opened NotificationInvariant
  import opened NotificationSteps
  import opened NotificationSafety
  import opened NotificationTheorems
  import opened NotificationRuns
  import opened NotificationRecovery
  import opened NotificationRetention

  // ---------- Claimable from a time on ----------

  // The claiming query finds the job for the owner of its mailbox exactly from `when` on.
  ghost predicate JobDueFrom(db: Tables, id: JobId, when: Time) {
    && id in db.jobs && db.jobs[id].mailbox in db.mailboxes
    && forall owner: UserId, now: Time ::
         Due(db, owner, id, now) <==> owner == db.mailboxes[db.jobs[id].mailbox].userId && when <= now
  }

  ghost predicate TriageDueFrom(cfg: Config, db: Tables, key: TriageKey, when: Time) {
    forall source: int, now: Time :: ClaimTriage(cfg, db, key, source, now).1.Some? <==> when <= now
  }

  ghost predicate RecoveryDueFrom(cfg: Config, db: Tables, m: Email, when: Time) {
    && m in db.mailboxes
    && forall owner: UserId, now: Time, at: Time ::
         ClaimResync(cfg, db, m, owner, now, at).1.Some? <==> owner == db.mailboxes[m].userId && when <= now
  }

  ghost predicate NeverRecovers(cfg: Config, db: Tables, m: Email) {
    forall owner: UserId, now: Time, at: Time :: ClaimResync(cfg, db, m, owner, now, at) == (db, None)
  }

  ghost predicate WatchDueFrom(cfg: Config, db: Tables, m: Email, when: Time) {
    && m in db.mailboxes
    && forall owner: UserId, now: Time ::
         ClaimWatch(cfg, db, m, owner, now).1.Some? <==> owner == db.mailboxes[m].userId && when <= now
  }

  // The next claim of the recovery, whenever it comes, goes on from here.
  ghost predicate ResumesAt(cfg: Config, db: Tables, m: Email, generation: nat, page: Option<string>, count: nat) {
    forall owner: UserId, now: Time, at: Time ::
      var claim := ClaimResync(cfg, db, m, owner, now, at).1;
      claim.Some? ==>
        && claim.value.mailbox == m && claim.value.generation == generation
        && claim.value.pageToken == page && claim.value.messageCount == count
  }

  // ---------- Jobs ----------

  lemma EnqueueOutcomes(db: Tables, envelope: Envelope, owner: UserId, configured: Email, newId: JobId, now: Time)
    requires newId !in db.jobs
    ensures var (db', outcome) := Enqueue(db, envelope, owner, configured, newId, now);
            var m := envelope.mailbox;
            && (outcome.Created? <==>
                  && m == configured && m in db.mailboxes && db.mailboxes[m].historyCursor.Some?
                  && db.mailboxes[m].userId == owner
                  && forall id <- db.jobs :: db.jobs[id].pubsubId != envelope.pubsubId)
            && (!outcome.Created? ==> db' == db)
            && (outcome.Created? ==>
                  && db'.jobs.Keys == db.jobs.Keys + {newId} && (forall id <- db.jobs :: db'.jobs[id] == db.jobs[id])
                  && db'.jobs[newId].pubsubId == envelope.pubsubId && db'.jobs[newId].historyId == envelope.historyId
                  && db'.jobs[newId].mailbox == m && db'.jobs[newId].attemptCount == 0
                  && (forall later: Time :: Due(db', owner, newId, later)))
  {
  }

  // A recovery was started: a new generation, from the first page.
  predicate Restarts(before: Mailbox, after: Mailbox) {
    && after.resync.state.Required? && after.resync.generation == before.resync.generation + 1
    && after.resync.pageToken.None? && after.resync.messageCount == 0 && after.resync.attemptCount == 0
    && after.historyCursor == before.historyCursor && after.watch == before.watch
  }

  function Backoff(cfg: Config, attempts: nat, at: Time): Time {
    at + RetryDelay(cfg, Max(1, attempts))
  }

  // What a claim of a due row does: lease it, or say why not.
  lemma ClaimOutcomes(cfg: ValidConfig, db: Tables, owner: UserId, id: JobId, now: Time, at: Time)
    requires TablesOk(cfg, db) && Due(db, owner, id, now)
    ensures var (db', claim) := ClaimJob(cfg, db, id, now, at);
            var job, m := db.jobs[id], db.jobs[id].mailbox;
            var job', before, after := db'.jobs[id], db.mailboxes[m], db'.mailboxes[m];
            if job.state.JobProcessing? then
              && claim.None? && JobDueFrom(db', id, Backoff(cfg, job.attemptCount, at))
              && job'.lastError == Some(JobLeaseExpired) && job'.attemptCount == job.attemptCount
              && (after != before ==> RecoveryLeaseExpired(before, now) && after.lastError == Some(ResyncLeaseExpired))
              && (RecoveryLeaseExpired(before, now) ==>
                    RecoveryDueFrom(cfg, db', m, Backoff(cfg, before.resync.attemptCount + 1, at)))
            else if before.resync.state.ManualRequired? then
              && claim.None? && job'.state.JobDeadLetter? && job'.lastError == Some(ResyncManualRequired)
              && job'.processedAt == Some(now) && after == before
            else if job.attemptCount >= cfg.maxAttempts && before.resync.state.Idle? then
              && claim.None? && Restarts(before, after) && after.lastError == Some(AttemptLimitExceeded)
              && RecoveryDueFrom(cfg, db', m, now) && JobDueFrom(db', id, now)
            else
              && claim == Some(JobClaim(id, m, job.historyId, db.nextToken, before.resync.generation))
              && job'.attemptCount == job.attemptCount + 1 && JobDueFrom(db', id, now + cfg.leaseSeconds)
              && after == before
  {
    hide RetryDelay, TablesOk;
    if db.jobs[id].state.JobProcessing? {
      ExpiredClaim(cfg, db, id, now, at);
    }
  }

  lemma ExpiredClaim(cfg: ValidConfig, db: Tables, id: JobId, now: Time, at: Time)
    requires id in db.jobs && db.jobs[id].mailbox in db.mailboxes && db.jobs[id].state.JobProcessing?
    ensures var db', m := ClaimJob(cfg, db, id, now, at).0, db.jobs[id].mailbox;
            && JobDueFrom(db', id, Backoff(cfg, db.jobs[id].attemptCount, at))
            && (RecoveryLeaseExpired(db.mailboxes[m], now) ==>
                  RecoveryDueFrom(cfg, db', m, Backoff(cfg, db.mailboxes[m].resync.attemptCount + 1, at)))
  {
    hide RetryDelay;
  }

  // A failed job goes back to the queue: at once with a recovery, or after its back-off.
  lemma FailedJobIsRetried(cfg: ValidConfig, db: Tables, claim: JobClaim, code: ErrorCode, deadLetter: bool,
                           requireResync: bool, now: Time, at: Time)
    requires OwnsJob(db, claim) && ClaimFits(db, claim) && claim.mailbox in db.mailboxes
    ensures var db', id, m := FailJob(cfg, db, claim, code, deadLetter, requireResync, now, at), claim.id, claim.mailbox;
            var job, before := db.jobs[id], db.mailboxes[m];
            && id in db'.jobs && m in db'.mailboxes && db'.jobs[id].attemptCount == job.attemptCount
            && if !before.resync.state.Idle? || before.resync.generation != claim.generation then
                 && db'.mailboxes == db.mailboxes && JobDueFrom(db', id, Backoff(cfg, job.attemptCount, at))
                 && db'.jobs[id].lastError == Some(MailboxRecoveryChanged)
               else if requireResync || deadLetter || job.attemptCount >= cfg.maxAttempts then
                 && Restarts(before, db'.mailboxes[m]) && db'.mailboxes[m].lastError == Some(code)
                 && RecoveryDueFrom(cfg, db', m, now) && JobDueFrom(db', id, now)
                 && db'.jobs[id].lastError == Some(code)
               else
                 && db'.mailboxes == db.mailboxes && JobDueFrom(db', id, Backoff(cfg, job.attemptCount, at))
                 && db'.jobs[id].lastError == Some(code)
  {
    hide RetryDelay;
    var db' := FailJob(cfg, db, claim, code, deadLetter, requireResync, now, at);
    assert db'.mailboxes[claim.mailbox] == db.mailboxes[claim.mailbox] ==> db'.mailboxes == db.mailboxes;
  }

  lemma RequeuedJobIsDue(cfg: ValidConfig, db: Tables, claim: JobClaim, code: ErrorCode, next: Option<Time>, at: Time)
    requires OwnsJob(db, claim) && ClaimFits(db, claim) && claim.mailbox in db.mailboxes
    ensures var db', id := RequeueJob(cfg, db, claim, code, next, at), claim.id;
            && JobDueFrom(db', id, if next.Some? then next.value else Backoff(cfg, db.jobs[id].attemptCount, at))
            && db'.jobs[id].lastError == Some(code) && db'.jobs[id].attemptCount == db.jobs[id].attemptCount
            && db'.mailboxes == db.mailboxes
  {
    hide RetryDelay;
  }

  // A dead-lettered job is over: no claim ever finds it.
  lemma DeadLetteredJobIsOver(db: Tables, claim: JobClaim, code: ErrorCode, at: Time)
    requires OwnsJob(db, claim)
    ensures var db', id := DeadLetterJob(db, claim, code, at), claim.id;
            && id in db'.jobs && db'.jobs[id].state.JobDeadLetter?
            && db'.jobs[id].lastError == Some(code) && db'.jobs[id].processedAt == Some(at)
            && db'.mailboxes == db.mailboxes
            && (forall owner: UserId, now: Time :: !Due(db', owner, id, now))
  {
  }

  lemma CompletedJobIsOver(cfg: ValidConfig, db: Tables, claim: JobClaim, upTo: int, at: Time)
    requires OwnsJob(db, claim) && ClaimFits(db, claim) && claim.mailbox in db.mailboxes
    ensures var (db', done) := CompleteJob(cfg, db, claim, upTo, at);
            var id, before := claim.id, db.mailboxes[claim.mailbox];
            && id in db'.jobs && claim.mailbox in db'.mailboxes
            && (done <==> before.resync.state.Idle? && before.resync.generation == claim.generation)
            && (done ==>
                  && db'.jobs[id].state.JobSucceeded? && db'.jobs[id].processedAt == Some(at)
                  && db'.jobs[id].lastError.None? && db'.mailboxes[claim.mailbox].lastError.None?)
            && (!done ==>
                  && JobDueFrom(db', id, Backoff(cfg, db.jobs[id].attemptCount, at))
                  && db'.jobs[id].lastError == Some(MailboxRecoveryChanged) && db'.mailboxes == db.mailboxes)
  {
    hide RetryDelay;
  }

  // ---------- Recoveries ----------

  lemma CheckpointResumes(cfg: ValidConfig, db: Tables, claim: ResyncClaim, nextPage: string, processed: nat, at: Time)
    requires OwnsResync(db, claim)
    ensures var (db', stored) := CheckpointResync(db, claim, nextPage, processed, at);
            var m, before := claim.mailbox, db.mailboxes[claim.mailbox].resync;
            && stored && RecoveryDueFrom(cfg, db', m, at)
            && ResumesAt(cfg, db', m, before.generation, Some(nextPage), before.messageCount + processed)
            && db'.mailboxes[m].historyCursor == db.mailboxes[m].historyCursor
            && db'.jobs == db.jobs && db'.mailboxes[m].lastError.None?
  {
  }

  lemma ReleaseResumes(cfg: ValidConfig, db: Tables, claim: ResyncClaim, code: ErrorCode, at: Time)
    requires OwnsResync(db, claim)
    ensures var (db', released) := ReleaseResync(cfg, db, claim, code, at);
            var m, before := claim.mailbox, db.mailboxes[claim.mailbox].resync;
            && released && RecoveryDueFrom(cfg, db', m, Backoff(cfg, before.attemptCount + 1, at))
            && ResumesAt(cfg, db', m, before.generation, before.pageToken, before.messageCount)
            && db'.mailboxes[m].lastError == Some(code) && db'.mailboxes[m].resync.attemptCount == before.attemptCount + 1
            && db'.mailboxes[m].historyCursor == db.mailboxes[m].historyCursor && db'.jobs == db.jobs
  {
    hide RetryDelay;
  }

  // A recovery whose lease ran out is handed back by the next claim, and goes on where it was after
  // its back-off.
  lemma LapsedRecoveryResumes(cfg: ValidConfig, db: Tables, m: Email, now: Time, at: Time)
    requires m in db.mailboxes && RecoveryLeaseExpired(db.mailboxes[m], now)
    ensures var before := db.mailboxes[m].resync;
            var (db', claim) := ClaimResync(cfg, db, m, db.mailboxes[m].userId, now, at);
            && claim.None? && RecoveryDueFrom(cfg, db', m, Backoff(cfg, before.attemptCount + 1, at))
            && ResumesAt(cfg, db', m, before.generation, before.pageToken, before.messageCount)
            && db'.mailboxes[m].lastError == Some(ResyncLeaseExpired)
            && db'.mailboxes[m].historyCursor == db.mailboxes[m].historyCursor && db'.jobs == db.jobs
  {
    hide RetryDelay;
  }

  // Neither a completed nor an abandoned recovery is claimed again.
  lemma RecoveryEnds(cfg: ValidConfig, db: Tables, claim: ResyncClaim, upTo: int, code: ErrorCode)
    requires OwnsResync(db, claim)
    ensures var (done, ok) := CompleteResync(db, claim, upTo);
            && ok && NeverRecovers(cfg, done, claim.mailbox) && done.jobs == db.jobs
            && done.mailboxes[claim.mailbox].resync.state.Idle? && done.mailboxes[claim.mailbox].lastError.None?
            && done.mailboxes[claim.mailbox].resync.generation == claim.generation
    ensures var (manual, ok) := RequireManual(db, claim, code);
            && ok && NeverRecovers(cfg, manual, claim.mailbox) && manual.jobs == db.jobs
            && manual.mailboxes[claim.mailbox].resync.state.ManualRequired?
            && manual.mailboxes[claim.mailbox].lastError == Some(code)
  {
  }

  // ---------- The watch ----------

  // A renewed watch is due again when its new expiration comes near.
  lemma RenewedWatchLasts(cfg: ValidConfig, db: Tables, m: Email, token: Token, historyId: int, expiresAt: Time)
    requires OwnsWatch(db, m, token)
    ensures var (db', renewed) := CompleteWatch(db, m, token, historyId, expiresAt);
            && renewed && WatchDueFrom(cfg, db', m, expiresAt - cfg.watchRenewalSeconds)
            && db'.mailboxes[m].watch.historyId == Some(historyId) && db'.mailboxes[m].watch.lastError.None?
            && db'.mailboxes[m].resync == db.mailboxes[m].resync
  {
  }

  lemma FailedWatchBacksOff(cfg: ValidConfig, db: Tables, m: Email, token: Token, code: ErrorCode, at: Time)
    requires OwnsWatch(db, m, token)
    ensures var db', watch := FailWatch(cfg, db, m, token, code, at), db.mailboxes[m].watch;
            var next := Backoff(cfg, watch.attemptCount + 1, at);
            && WatchDueFrom(cfg, db', m,
                            if watch.expiresAt.None? then next else Max(next, watch.expiresAt.value - cfg.watchRenewalSeconds))
            && db'.mailboxes[m].watch.lastError == Some(code)
            && db'.mailboxes[m].watch.attemptCount == watch.attemptCount + 1
            && db'.mailboxes[m].historyCursor == db.mailboxes[m].historyCursor
  {
    hide RetryDelay;
  }

  // ---------- Triage rows ----------

  lemma ReleasedTriageIsDue(cfg: ValidConfig, db: Tables, claim: TriageClaim, code: ErrorCode, at: Time)
    requires OwnsTriage(db, claim)
    ensures var db', row := ReleaseTriage(cfg, db, claim, code, at), db.triage[claim.key];
            && TriageDueFrom(cfg, db', claim.key, Backoff(cfg, row.attemptCount, at))
            && claim.key in db'.triage && db'.triage[claim.key].lastError == Some(code)
            && db'.triage[claim.key].attemptCount == row.attemptCount
  {
    hide RetryDelay;
  }

  lemma ClaimedTriageIsLeased(cfg: ValidConfig, db: Tables, key: TriageKey, source: int, now: Time)
    requires ClaimTriage(cfg, db, key, source, now).1.Some?
    ensures var db' := ClaimTriage(cfg, db, key, source, now).0;
            && TriageDueFrom(cfg, db', key, now + cfg.leaseSeconds) && key in db'.triage
            && (key !in db.triage ==>
                  db'.triage[key].sourceHistoryId == source && db'.triage[key].attemptCount == 1)
            && (key in db.triage ==>
                  && db'.triage[key].sourceHistoryId == db.triage[key].sourceHistoryId
                  && db'.triage[key].attemptCount == db.triage[key].attemptCount + 1)
  {
  }

  // The summary stored for the one given: nothing for none, and at most the first 4,000 characters.
  predicate Shortened(stored: Option<string>, given: Option<string>) {
    if given.None? || |given.value| == 0 then stored.None?
    else stored == Some(if |given.value| <= 4_000 then given.value else given.value[..4_000])
  }

  // The row says what the triage call that finalized it reported.
  predicate Reports(row: Triage, state: TriageState, summary: Option<string>, error: Option<ErrorCode>, at: Time) {
    row.state == state && Shortened(row.summary, summary) && row.lastError == error && row.processedAt == Some(at)
  }

  lemma FinalizedTriageReports(db: Tables, claim: TriageClaim, state: TriageState, summary: Option<string>,
                               error: Option<ErrorCode>, at: Time)
    requires OwnsTriage(db, claim) && !state.TriageProcessing?
    ensures var db' := FinalizeTriage(db, claim, state, summary, error, at);
            && db'.triage.Keys == db.triage.Keys && claim.key in db.triage
            && Reports(db'.triage[claim.key], state, summary, error, at)
            && db'.triage[claim.key].sourceHistoryId == db.triage[claim.key].sourceHistoryId
            && (forall key <- db.triage :: key != claim.key ==> db'.triage[key] == db.triage[key])
  {
  }

  // ---------- Terminal rows over a run ----------

  // Step `a` finalized the row with this report.
  predicate ReportedBy(s: Sys, a: Action, key: TriageKey, row: Triage) {
    Finalizes(s, a, key) && Reports(row, a.state, a.summary, a.error, a.at)
  }

  lemma TriageStays(s: Sys, a: Action)
    requires Inv(s) && RecoveryOk(s) && Enabled(s, a) && !TriageStep(a) && !a.Prune?
    ensures Act(s, a).db.triage == s.db.triage
  {
    if a.PushArrives? {
    } else {
      assert KnowsOk(s, Knows(s.PcOf(if ActorOf(a).Some? then a.w else 0)));
      hide Inv, Act, Enabled, RecoveryOk;
      if JobStep(a) || a.FinishRequeue? || a.FinishDeadLetter? {
        JobStepFair(s, a);
      } else {
        OtherTriage(s, a);
      }
    }
  }

  predicate NewlyTerminal(db: Tables, db': Tables, key: TriageKey) {
    && (key in db.triage ==> !db.triage[key].Terminal())
    && key in db'.triage && db'.triage[key].Terminal()
  }

  lemma SettlingReports(s: Sys, a: Action, key: TriageKey)
    requires Enabled(s, a) && a.SettleTriage? && NewlyTerminal(s.db, Act(s, a).db, key)
    ensures ReportedBy(s, a, key, Act(s, a).db.triage[key])
  {
    var claim := s.PcOf(a.w).triage;
    assert Act(s, a).db == FinalizeTriage(s.db, claim, a.state, a.summary, a.error, a.at);
    if OwnsTriage(s.db, claim) {
      FinalizedTriageReports(s.db, claim, a.state, a.summary, a.error, a.at);
    }
    hide Act, Reports;
  }

  lemma LeasingSettlesNothing(s: Sys, a: Action, key: TriageKey)
    requires Enabled(s, a) && (a.LeaseTriage? || a.GiveUpTriage? || a.Prune?)
    ensures !NewlyTerminal(s.db, Act(s, a).db, key)
  {
    hide RetryDelay;
    if a.LeaseTriage? {
      hide PruneQueue, ReleaseTriage;
    } else if a.GiveUpTriage? {
      hide PruneQueue, ClaimTriage;
    } else {
      hide ClaimTriage, ReleaseTriage;
    }
  }

  // Only finalization makes a row terminal.
  lemma TurnsTerminal(s: Sys, a: Action, key: TriageKey)
    requires Inv(s) && RecoveryOk(s) && Enabled(s, a) && NewlyTerminal(s.db, Act(s, a).db, key)
    ensures ReportedBy(s, a, key, Act(s, a).db.triage[key])
  {
    hide Inv, RecoveryOk, Enabled, Act, ReportedBy;
    if a.SettleTriage? {
      SettlingReports(s, a, key);
    } else if a.LeaseTriage? || a.GiveUpTriage? || a.Prune? {
      LeasingSettlesNothing(s, a, key);
    } else {
      TriageStays(s, a);
    }
  }

  predicate StillTerminal(db: Tables, db': Tables, key: TriageKey) {
    key in db.triage && db.triage[key].Terminal() && key in db'.triage && db'.triage[key] == db.triage[key]
  }

  lemma TerminalRowKept(db: Tables, db': Tables, key: TriageKey)
    requires Legal(db, db') && key in db.triage && db.triage[key].Terminal() && key in db'.triage
    ensures StillTerminal(db, db', key)
  {
  }

  lemma TerminalStep(states: seq<Sys>, actions: seq<Action>, i: nat, key: TriageKey)
    requires IsRun(states, actions) && i < |actions|
    requires key in states[i + 1].db.triage && states[i + 1].db.triage[key].Terminal()
    ensures || StillTerminal(states[i].db, states[i + 1].db, key)
            || ReportedBy(states[i], actions[i], key, states[i + 1].db.triage[key])
  {
    var s, a := states[i], actions[i];
    RunsKeepInv(states, actions, i);
    RunsKeepRecoveryOk(states, actions, i);
    assert states[i + 1].db == Act(s, a).db;
    hide Inv, RecoveryOk, Enabled, Act, Next, ReportedBy, Legal;
    if key in s.db.triage && s.db.triage[key].Terminal() {
      StepsAreLegal(states, actions, i);
      TerminalRowKept(s.db, states[i + 1].db, key);
    } else {
      TurnsTerminal(s, a, key);
    }
  }

  ghost predicate WasReported(states: seq<Sys>, actions: seq<Action>, i: nat, key: TriageKey, row: Triage)
    requires |states| == |actions| + 1 && i < |states|
  {
    exists k :: 0 <= k < i && ReportedBy(states[k], actions[k], key, row)
  }

  lemma NothingReportedYet(s: Sys)
    requires Init(s)
    ensures s.db.triage == map[]
  {
  }

  // Main result.  A stored terminal triage row carries the state, the summary and the error of the
  // triage call that finalized it.
  lemma {:induction false} TerminalRowsAreReports(states: seq<Sys>, actions: seq<Action>, i: nat, key: TriageKey)
    requires IsRun(states, actions) && i < |states| && key in states[i].db.triage && states[i].db.triage[key].Terminal()
    ensures WasReported(states, actions, i, key, states[i].db.triage[key])
  {
    hide Init, Enabled, Next, ReportedBy;
    if i == 0 {
      NothingReportedYet(states[0]);
    } else {
      TerminalStep(states, actions, i - 1, key);
      if StillTerminal(states[i - 1].db, states[i].db, key) {
        TerminalRowsAreReports(states, actions, i - 1, key);
      }
    }
  }

  // ---------- Retention ----------

  predicate Overdue(processedAt: Option<Time>, cutoff: Time) {
    processedAt.Some? && processedAt.value < cutoff
  }

  lemma PrunedExactly(db: Tables, jobsCutoff: Time, triageCutoff: Time)
    ensures var db' := PruneQueue(db, jobsCutoff, triageCutoff);
            && (forall id :: id in db'.jobs <==>
                  id in db.jobs && !(Overdue(db.jobs[id].processedAt, jobsCutoff)
                                     && (db.jobs[id].state.JobSucceeded? || db.jobs[id].state.JobDeadLetter?)))
            && (forall key :: key in db'.triage <==>
                  key in db.triage && !(Overdue(db.triage[key].processedAt, triageCutoff)
                                        && !db.triage[key].state.TriageProcessing?))
            && db'.mailboxes == db.mailboxes
  {
  }
}
