// The transactions of server/services/notification_jobs.py as code that loads a row, assigns its
// columns one by one and writes it back.  Each method is proved against the function of
// NotificationRows that the protocol proofs use.

module NotificationStore {
  import opened Common
  import opened NotificationRows

  class Store {
    const cfg: ValidConfig
    var jobs: map<JobId, Job>
    var mailboxes: map<Email, Mailbox>
    var triage: map<TriageKey, Triage>
    var nextToken: Token

    function Contents(): Tables
      reads this
    {
      Tables(jobs, mailboxes, triage, nextToken)
    }

    constructor (cfg: ValidConfig)
      ensures this.cfg == cfg
      ensures Contents() == Tables(map[], map[], map[], 0)
    {
      this.cfg := cfg;
      jobs, mailboxes, triage, nextToken := map[], map[], map[], 0;
    }

    method IssueToken() returns (token: Token)
      modifies this`nextToken
      ensures token == old(nextToken) && nextToken == token + 1
    {
      token := nextToken;
      nextToken := nextToken + 1;
    }

    // `_retry_at`
    method RetryDeadline(attemptCount: int, at: Time) returns (deadline: Time)
      ensures deadline == RetryAt(cfg, attemptCount, at)
    {
      var exponent := Max(0, Min(attemptCount - 1, 30));
      var power := 1;
      for i := 0 to exponent
        invariant power == Pow2(i)
      {
        power := 2 * power;
      }
      var delay := Min(cfg.backoffInitial * power, cfg.backoffMax);
      deadline := at + delay;
    }

    method EnqueueNotification(envelope: Envelope, owner: UserId, configured: Email, newId: JobId, now: Time)
      returns (outcome: EnqueueOutcome)
      requires newId !in jobs
      modifies this`jobs
      ensures (Contents(), outcome) == Enqueue(old(Contents()), envelope, owner, configured, newId, now)
    {
      if envelope.mailbox != configured {
        return MailboxRejected;
      }
      if envelope.mailbox !in mailboxes || mailboxes[envelope.mailbox].historyCursor.None? {
        return BaselineUnavailable;
      }
      if mailboxes[envelope.mailbox].userId != owner {
        return OwnerRejected;
      }
      if exists id <- jobs :: jobs[id].pubsubId == envelope.pubsubId {
        return Duplicate;  // the unique index on pubsub_message_id
      }
      jobs := jobs[newId := Job(envelope.pubsubId, envelope.mailbox, envelope.historyId, JobPending, 0,
                                None, None, None, None, now, None)];
      return Created;
    }

    method ClaimNotificationJob(id: JobId, owner: UserId, now: Time, at: Time) returns (claim: Option<JobClaim>)
      requires Due(Contents(), owner, id, now)
      modifies this`jobs, this`mailboxes, this`nextToken
      ensures (Contents(), claim) == ClaimJob(cfg, old(Contents()), id, now, at)
    {
      var job := jobs[id];
      var email := job.mailbox;
      var mailbox := mailboxes[email];
      if job.state.JobProcessing? {
        job := job.(state := JobPending);
        job := job.(leaseToken := None);
        job := job.(leaseExpiresAt := None);
        job := job.(lastError := Some(JobLeaseExpired));
        var next := RetryDeadline(Max(1, job.attemptCount), at);
        job := job.(nextAttemptAt := Some(next));
        var r := mailbox.resync;
        if r.state.Processing? && r.leaseExpiresAt.Some? && r.leaseExpiresAt.value <= now {
          r := r.(state := Required);
          r := r.(required := true);
          r := r.(leaseToken := None);
          r := r.(leaseExpiresAt := None);
          r := r.(attemptCount := r.attemptCount + 1);
          next := RetryDeadline(r.attemptCount, at);
          r := r.(nextAttemptAt := Some(next));
          mailbox := mailbox.(resync := r, lastError := Some(ResyncLeaseExpired));
        }
        jobs, mailboxes := jobs[id := job], mailboxes[email := mailbox];
        return None;
      }
      if mailbox.resync.state.ManualRequired? {
        job := job.(state := JobDeadLetter);
        job := job.(lastError := Some(ResyncManualRequired));
        job := job.(nextAttemptAt := None);
        job := job.(processedAt := Some(now));
        jobs := jobs[id := job];
        return None;
      }
      if job.attemptCount >= cfg.maxAttempts && mailbox.resync.state.Idle? {
        var r := mailbox.resync;
        r := r.(state := Required);
        r := r.(required := true);
        r := r.(generation := r.generation + 1);
        r := r.(pageToken := None);
        r := r.(messageCount := 0);
        r := r.(attemptCount := 0);
        r := r.(nextAttemptAt := Some(now));
        mailbox := mailbox.(resync := r, lastError := Some(AttemptLimitExceeded));
        job := job.(lastError := Some(AttemptLimitExceeded));
        job := job.(nextAttemptAt := Some(now));
        jobs, mailboxes := jobs[id := job], mailboxes[email := mailbox];
        return None;
      }
      job := job.(state := JobProcessing);
      job := job.(attemptCount := job.attemptCount + 1);
      var token := IssueToken();
      job := job.(leaseToken := Some(token));
      job := job.(leaseExpiresAt := Some(now + cfg.leaseSeconds));
      job := job.(nextAttemptAt := None);
      jobs := jobs[id := job];
      return Some(JobClaim(id, job.mailbox, job.historyId, token, mailbox.resync.generation));
    }

    method CompleteJobAndAdvanceCursor(claim: JobClaim, historyCursor: int, at: Time) returns (advanced: bool)
      modifies this`jobs, this`mailboxes
      ensures (Contents(), advanced) == CompleteJob(cfg, old(Contents()), claim, historyCursor, at)
    {
      if claim.id !in jobs || !jobs[claim.id].HeldBy(claim.token) {
        return false;
      }
      var job := jobs[claim.id];
      if claim.mailbox !in mailboxes {
        job := job.(state := JobDeadLetter);
        job := job.(lastError := Some(MailboxStateMissing));
        job := job.(nextAttemptAt := None);
        job := job.(processedAt := Some(at));
        jobs := jobs[claim.id := job];
        return false;
      }
      var mailbox := mailboxes[claim.mailbox];
      if !mailbox.resync.state.Idle? || mailbox.resync.generation != claim.generation {
        job := job.(state := JobPending);
        job := job.(leaseToken := None);
        job := job.(leaseExpiresAt := None);
        job := job.(lastError := Some(MailboxRecoveryChanged));
        var next := RetryDeadline(Max(1, job.attemptCount), at);
        job := job.(nextAttemptAt := Some(next));
        job := job.(processedAt := None);
        jobs := jobs[claim.id := job];
        return false;
      }
      mailbox := mailbox.(historyCursor := Some(Max(mailbox.historyCursor.GetOr(0), historyCursor)));
      mailbox := mailbox.(lastError := None);
      job := job.(state := JobSucceeded);
      job := job.(lastError := None);
      job := job.(processedAt := Some(at));
      job := job.(nextAttemptAt := None);
      jobs, mailboxes := jobs[claim.id := job], mailboxes[claim.mailbox := mailbox];
      return true;
    }

    method StartResyncLocked(email: Email, code: ErrorCode, now: Time)
      requires email in mailboxes
      modifies this`mailboxes
      ensures mailboxes == old(mailboxes)[email := StartRecovery(old(mailboxes[email]), code, now)]
    {
      var mailbox := mailboxes[email];
      var r := mailbox.resync;
      if r.state == Idle {
        r := r.(generation := r.generation + 1);
        r := r.(pageToken := None);
        r := r.(messageCount := 0);
        r := r.(attemptCount := 0);
        mailbox := mailbox.(resync := r);
      }
      if r.state != ManualRequired {
        r := r.(state := Required);
        r := r.(required := true);
        r := r.(leaseToken := None);
        r := r.(leaseExpiresAt := None);
        r := r.(nextAttemptAt := Some(now));
        mailbox := mailbox.(resync := r, lastError := Some(code));
      }
      mailboxes := mailboxes[email := mailbox];
    }

    // `fail_job`.  Even with `dead_letter` set the source starts a recovery and puts the row back
    // to `pending`: its dead-letter branch needs a mailbox that is idle and manual_required at once.
    method Fail(claim: JobClaim, code: ErrorCode, deadLetter: bool, requireResync: bool, now: Time, at: Time)
      modifies this`jobs, this`mailboxes
      ensures Contents() == FailJob(cfg, old(Contents()), claim, code, deadLetter, requireResync, now, at)
    {
      hide StartRecovery, RetryAt;
      if claim.id !in jobs || !jobs[claim.id].HeldBy(claim.token) {
        return;
      }
      var job := jobs[claim.id];
      if claim.mailbox !in mailboxes {
        job := job.(state := JobDeadLetter);
        job := job.(lastError := Some(MailboxStateMissing));
        job := job.(nextAttemptAt := None);
        job := job.(processedAt := Some(now));
        jobs := jobs[claim.id := job];
        return;
      }
      FailHeld(claim, code, deadLetter, requireResync, now, at);
    }

    // The row is held and its mailbox row locked.
    method FailHeld(claim: JobClaim, code: ErrorCode, deadLetter: bool, requireResync: bool, now: Time, at: Time)
      requires claim.id in jobs && claim.mailbox in mailboxes
      modifies this`jobs, this`mailboxes
      ensures var (job', mailbox') :=
                FailRows(cfg, old(jobs[claim.id]), old(mailboxes[claim.mailbox]), claim, code, deadLetter,
                         requireResync, now, at);
              jobs == old(jobs)[claim.id := job'] && mailboxes == old(mailboxes)[claim.mailbox := mailbox']
    {
      hide StartRecovery, RetryAt;
      var job := jobs[claim.id];
      var mailbox := mailboxes[claim.mailbox];
      var backedOff := RetryDeadline(Max(1, job.attemptCount), at);
      if mailbox.resync.generation != claim.generation || mailbox.resync.state != Idle {
        job := job.(state := JobPending, leaseToken := None, leaseExpiresAt := None,
                    nextAttemptAt := Some(backedOff), lastError := Some(MailboxRecoveryChanged), processedAt := None);
        jobs := jobs[claim.id := job];
        return;
      }
      var needsResync := requireResync || deadLetter || job.attemptCount >= cfg.maxAttempts;
      if needsResync {
        StartResyncLocked(claim.mailbox, code, now);
        var state := mailboxes[claim.mailbox].resync.state;
        if state == ManualRequired {
          job := job.(state := JobDeadLetter, nextAttemptAt := None, lastError := Some(code), processedAt := Some(now));
        } else {
          job := job.(state := JobPending, leaseToken := None, leaseExpiresAt := None,
                      nextAttemptAt := Some(now), lastError := Some(code), processedAt := None);
        }
      } else {
        job := job.(state := JobPending, leaseToken := None, leaseExpiresAt := None,
                    nextAttemptAt := Some(backedOff), lastError := Some(code));
      }
      jobs := jobs[claim.id := job];
    }

    method Requeue(claim: JobClaim, code: ErrorCode, next: Option<Time>, at: Time)
      modifies this`jobs
      ensures Contents() == RequeueJob(cfg, old(Contents()), claim, code, next, at)
    {
      if claim.id !in jobs || !jobs[claim.id].HeldBy(claim.token) {
        return;
      }
      var job := jobs[claim.id];
      job := job.(state := JobPending);
      job := job.(leaseToken := None);
      job := job.(leaseExpiresAt := None);
      var backedOff := RetryDeadline(Max(1, job.attemptCount), at);
      job := job.(nextAttemptAt := Some(if next.Some? then next.value else backedOff));
      job := job.(lastError := Some(code));
      jobs := jobs[claim.id := job];
    }

    method DeadLetter(claim: JobClaim, code: ErrorCode, at: Time)
      modifies this`jobs
      ensures Contents() == DeadLetterJob(old(Contents()), claim, code, at)
    {
      if claim.id !in jobs || !jobs[claim.id].HeldBy(claim.token) {
        return;
      }
      var job := jobs[claim.id];
      job := job.(state := JobDeadLetter);
      job := job.(leaseToken := None);
      job := job.(leaseExpiresAt := None);
      job := job.(nextAttemptAt := None);
      job := job.(lastError := Some(code));
      job := job.(processedAt := Some(at));
      jobs := jobs[claim.id := job];
    }

    method ClaimTriageWork(key: TriageKey, sourceHistoryId: int, now: Time) returns (claim: Option<TriageClaim>)
      modifies this`triage, this`nextToken
      ensures (Contents(), claim) == ClaimTriage(cfg, old(Contents()), key, sourceHistoryId, now)
    {
      if key !in triage {
        var token := IssueToken();
        triage := triage[key := Triage(sourceHistoryId, TriageProcessing, 1, Some(token),
                                       Some(now + cfg.leaseSeconds), None, None, None, None)];
        return Some(TriageClaim(key, token));
      }
      var row := triage[key];
      if row.state in {TriageSucceeded, TriageNoop, TriageDeadLetter} {
        return None;
      }
      if row.leaseExpiresAt.Some? && row.leaseExpiresAt.value > now {
        return None;
      }
      if row.nextAttemptAt.Some? && row.nextAttemptAt.value > now {
        return None;
      }
      row := row.(attemptCount := row.attemptCount + 1);
      var token := IssueToken();
      row := row.(leaseToken := Some(token));
      row := row.(leaseExpiresAt := Some(now + cfg.leaseSeconds));
      row := row.(nextAttemptAt := None);
      triage := triage[key := row];
      return Some(TriageClaim(key, token));
    }

    method FinalizeTriageWork(claim: TriageClaim, state: TriageState, summary: Option<string>,
                              code: Option<ErrorCode>, at: Time)
      requires state in {TriageSucceeded, TriageNoop, TriageDeadLetter}
      modifies this`triage
      ensures Contents() == FinalizeTriage(old(Contents()), claim, state, summary, code, at)
    {
      if claim.key !in triage || !triage[claim.key].HeldBy(claim.token) {
        return;
      }
      var row := triage[claim.key];
      row := row.(state := state);
      row := row.(summary := Truncated(summary));
      row := row.(lastError := code);
      row := row.(nextAttemptAt := None);
      row := row.(processedAt := Some(at));
      triage := triage[claim.key := row];
    }

    method ReleaseTriageWork(claim: TriageClaim, code: ErrorCode, at: Time)
      modifies this`triage
      ensures Contents() == ReleaseTriage(cfg, old(Contents()), claim, code, at)
    {
      if claim.key !in triage || !triage[claim.key].HeldBy(claim.token) {
        return;
      }
      var row := triage[claim.key];
      row := row.(leaseToken := None);
      row := row.(leaseExpiresAt := None);
      var next := RetryDeadline(Max(1, row.attemptCount), at);
      row := row.(nextAttemptAt := Some(next));
      row := row.(lastError := Some(code));
      triage := triage[claim.key := row];
    }

    method ClaimMailboxResync(email: Email, owner: UserId, now: Time, at: Time) returns (claim: Option<ResyncClaim>)
      modifies this`mailboxes, this`nextToken
      ensures (Contents(), claim) == ClaimResync(cfg, old(Contents()), email, owner, now, at)
    {
      if email !in mailboxes || mailboxes[email].userId != owner {
        return None;
      }
      var mailbox := mailboxes[email];
      var r := mailbox.resync;
      if r.state in {Idle, ManualRequired} {
        return None;
      }
      if r.state == Processing {
        if r.leaseExpiresAt.Some? && r.leaseExpiresAt.value <= now {
          r := r.(state := Required);
          r := r.(required := true);
          r := r.(leaseToken := None);
          r := r.(leaseExpiresAt := None);
          r := r.(attemptCount := r.attemptCount + 1);
          var next := RetryDeadline(r.attemptCount, at);
          r := r.(nextAttemptAt := Some(next));
          mailboxes := mailboxes[email := mailbox.(resync := r, lastError := Some(ResyncLeaseExpired))];
        }
        return None;
      }
      if r.nextAttemptAt.Some? && r.nextAttemptAt.value > now {
        return None;
      }
      var token := IssueToken();
      r := r.(state := Processing);
      r := r.(required := true);
      r := r.(leaseToken := Some(token));
      r := r.(leaseExpiresAt := Some(now + cfg.leaseSeconds));
      r := r.(nextAttemptAt := None);
      mailboxes := mailboxes[email := mailbox.(resync := r)];
      return Some(ResyncClaim(email, mailbox.userId, token, r.generation, r.pageToken, r.messageCount));
    }

    method CheckpointBoundedResync(claim: ResyncClaim, nextPage: string, processed: nat, at: Time)
      returns (persisted: bool)
      modifies this`mailboxes
      ensures (Contents(), persisted) == CheckpointResync(old(Contents()), claim, nextPage, processed, at)
    {
      if !OwnsResync(Contents(), claim) {
        return false;
      }
      var mailbox := mailboxes[claim.mailbox];
      var r := mailbox.resync;
      r := r.(state := Required);
      r := r.(required := true);
      r := r.(leaseToken := None);
      r := r.(leaseExpiresAt := None);
      r := r.(pageToken := Some(nextPage));
      r := r.(messageCount := r.messageCount + processed);
      r := r.(nextAttemptAt := Some(at));
      mailboxes := mailboxes[claim.mailbox := mailbox.(resync := r, lastError := None)];
      return true;
    }

    method CompleteBoundedResync(claim: ResyncClaim, historyCursor: int) returns (persisted: bool)
      modifies this`mailboxes
      ensures (Contents(), persisted) == CompleteResync(old(Contents()), claim, historyCursor)
    {
      if !OwnsResync(Contents(), claim) {
        return false;
      }
      var mailbox := mailboxes[claim.mailbox];
      mailbox := mailbox.(historyCursor := Some(historyCursor));
      var r := mailbox.resync;
      r := r.(state := Idle);
      r := r.(required := false);
      r := r.(leaseToken := None);
      r := r.(leaseExpiresAt := None);
      r := r.(pageToken := None);
      r := r.(messageCount := 0);
      r := r.(attemptCount := 0);
      r := r.(nextAttemptAt := None);
      mailboxes := mailboxes[claim.mailbox := mailbox.(resync := r, lastError := None)];
      return true;
    }

    method ReleaseMailboxResync(claim: ResyncClaim, code: ErrorCode, at: Time) returns (persisted: bool)
      modifies this`mailboxes
      ensures (Contents(), persisted) == ReleaseResync(cfg, old(Contents()), claim, code, at)
    {
      if !OwnsResync(Contents(), claim) {
        return false;
      }
      var mailbox := mailboxes[claim.mailbox];
      var r := mailbox.resync;
      r := r.(state := Required);
      r := r.(required := true);
      r := r.(leaseToken := None);
      r := r.(leaseExpiresAt := None);
      r := r.(attemptCount := r.attemptCount + 1);
      var next := RetryDeadline(r.attemptCount, at);
      r := r.(nextAttemptAt := Some(next));
      mailboxes := mailboxes[claim.mailbox := mailbox.(resync := r, lastError := Some(code))];
      return true;
    }

    method RequireManualResync(claim: ResyncClaim, code: ErrorCode) returns (persisted: bool)
      modifies this`mailboxes
      ensures (Contents(), persisted) == RequireManual(old(Contents()), claim, code)
    {
      if !OwnsResync(Contents(), claim) {
        return false;
      }
      var mailbox := mailboxes[claim.mailbox];
      var r := mailbox.resync;
      r := r.(state := ManualRequired);
      r := r.(required := true);
      r := r.(leaseToken := None);
      r := r.(leaseExpiresAt := None);
      r := r.(nextAttemptAt := None);
      mailboxes := mailboxes[claim.mailbox := mailbox.(resync := r, lastError := Some(code))];
      return true;
    }

    method ClaimWatchRenewal(email: Email, owner: UserId, now: Time) returns (token: Option<Token>)
      modifies this`mailboxes, this`nextToken
      ensures (Contents(), token) == ClaimWatch(cfg, old(Contents()), email, owner, now)
    {
      var mailbox := BlankMailbox(owner);
      if email in mailboxes {
        mailbox := mailboxes[email];
        if mailbox.userId != owner {
          return None;
        }
      }
      if !WatchDue(cfg, mailbox, now) {
        return None;
      }
      if email !in mailboxes && OwnsAMailbox(Contents(), owner) {
        return None;  // the commit violates the unique index on user_id
      }
      var issued := IssueToken();
      mailbox := mailbox.(watch := mailbox.watch.(leaseToken := Some(issued)));
      mailbox := mailbox.(watch := mailbox.watch.(leaseExpiresAt := Some(now + cfg.leaseSeconds)));
      mailboxes := mailboxes[email := mailbox];
      return Some(issued);
    }

    method CompleteWatchRenewal(email: Email, token: Token, historyId: int, expiresAt: Time) returns (renewed: bool)
      modifies this`mailboxes
      ensures (Contents(), renewed) == CompleteWatch(old(Contents()), email, token, historyId, expiresAt)
    {
      if email !in mailboxes || mailboxes[email].watch.leaseToken != Some(token) {
        return false;
      }
      var mailbox := mailboxes[email];
      var cursor := historyId;
      if mailbox.historyCursor.Some? && mailbox.historyCursor.value != 0 {
        cursor := mailbox.historyCursor.value;
      }
      mailbox := mailbox.(historyCursor := Some(cursor));
      var watch := mailbox.watch;
      watch := watch.(historyId := Some(historyId));
      watch := watch.(expiresAt := Some(expiresAt));
      watch := watch.(leaseToken := None);
      watch := watch.(leaseExpiresAt := None);
      watch := watch.(attemptCount := 0);
      watch := watch.(nextAttemptAt := None);
      watch := watch.(lastError := None);
      mailboxes := mailboxes[email := mailbox.(watch := watch, lastError := None)];
      return true;
    }

    method FailWatchRenewal(email: Email, token: Token, code: ErrorCode, at: Time)
      modifies this`mailboxes
      ensures Contents() == FailWatch(cfg, old(Contents()), email, token, code, at)
    {
      if email !in mailboxes || mailboxes[email].watch.leaseToken != Some(token) {
        return;
      }
      var mailbox := mailboxes[email];
      var watch := mailbox.watch;
      watch := watch.(lastError := Some(code));
      watch := watch.(leaseToken := None);
      watch := watch.(leaseExpiresAt := None);
      watch := watch.(attemptCount := watch.attemptCount + 1);
      var next := RetryDeadline(watch.attemptCount, at);
      watch := watch.(nextAttemptAt := Some(next));
      mailboxes := mailboxes[email := mailbox.(watch := watch, lastError := Some(code))];
    }

    // The deletes of `cleanup_retained_records` on the queue tables.
    method DeleteRetained(jobsCutoff: Time, triageCutoff: Time) returns (jobsDeleted: nat, triageDeleted: nat)
      modifies this`jobs, this`triage
      ensures Contents() == PruneQueue(old(Contents()), jobsCutoff, triageCutoff)
      ensures jobsDeleted == |set id | id in old(jobs) && JobExpired(old(jobs)[id], jobsCutoff)|
      ensures triageDeleted == |set key | key in old(triage) && TriageExpired(old(triage)[key], triageCutoff)|
    {
      var oldJobs := set id | id in jobs && JobExpired(jobs[id], jobsCutoff);
      var oldTriage := set key | key in triage && TriageExpired(triage[key], triageCutoff);
      jobsDeleted, triageDeleted := |oldJobs|, |oldTriage|;
      jobs := map id | id in jobs && id !in oldJobs :: jobs[id];
      triage := map key | key in triage && key !in oldTriage :: triage[key];
    }
  }
}
