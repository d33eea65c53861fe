// The three tables of the Gmail notification queue and the transactions on them
// (server/models.py:105-220, server/services/notification_jobs.py).
//
// Every transaction is a function from the stored tables to the stored tables.  Class
// NotificationStore performs the same transactions by assigning row fields in place and is
// proved against these functions.  `now` is read before the row lock is granted, so it may lag
// the clock of the commit; `at` is the later clock reading used for back-off deadlines.

module NotificationRows {
  import opened Common

  type Email = string
  type UserId = nat
  type JobId = nat
  type MessageId = string
  type Token = nat
  type TriageKey = (Email, MessageId)

  // The numeric settings the queue depends on, with the bounds of server/config.py.
  datatype Config = Config(
    leaseSeconds: int,
    maxAttempts: int,
    backoffInitial: int,
    backoffMax: int,
    resyncMaxMessages: int,
    historyMaxMessages: int,
    historyMaxPages: int,
    watchRenewalSeconds: int)
  {
    predicate Valid() {
      && 10 <= leaseSeconds <= 3_600
      && 1 <= maxAttempts <= 100
      && 1 <= backoffInitial <= backoffMax <= 86_400
      && 1 <= resyncMaxMessages <= 1_000
      && 1 <= historyMaxMessages <= 1_000
      && 1 <= historyMaxPages <= 100
      && 300 <= watchRenewalSeconds <= 604_800
    }
  }

  type ValidConfig = c: Config | c.Valid() witness Config(120, 5, 5, 300, 100, 100, 10, 86_400)

  datatype ErrorCode =
    | MailboxStateMissing | JobLeaseExpired | ResyncLeaseExpired | ResyncManualRequired
    | AttemptLimitExceeded | MailboxRecoveryChanged | HistoryCursorMissing
    | HistoryWorkLimitReached | HistoryCursorExpired | HistoryRejected | CredentialsUnavailable
    | HistoryUnavailable | HistoryInternal | TriageInProgress | ResyncWaiting
    | ResyncUnavailable | ResyncInternal | ResyncCheckpointed | ResyncTotalLimitReached
    | ResyncIncomplete | ResyncLeaseLost | MessagePayloadInvalid | MessageNotFound
    | TriageProviderRejected | TriageProviderUnavailable | TriageLlmUnavailable | TriageFailed
    | WatchResponseInvalid | WatchCredentialsUnavailable | WatchProviderUnavailable | WatchInternal

  datatype JobState = JobPending | JobProcessing | JobSucceeded | JobDeadLetter

  datatype Job = Job(
    pubsubId: string,
    mailbox: Email,
    historyId: int,
    state: JobState,
    attemptCount: nat,
    leaseToken: Option<Token>,
    leaseExpiresAt: Option<Time>,
    nextAttemptAt: Option<Time>,
    lastError: Option<ErrorCode>,
    receivedAt: Time,
    processedAt: Option<Time>)
  {
    predicate Terminal() { state.JobSucceeded? || state.JobDeadLetter? }

    predicate HeldBy(token: Token) {
      state.JobProcessing? && leaseToken == Some(token)
    }
  }

  datatype ResyncState = Idle | Required | Processing | ManualRequired

  datatype Resync = Resync(
    required: bool,
    state: ResyncState,
    generation: nat,
    leaseToken: Option<Token>,
    leaseExpiresAt: Option<Time>,
    attemptCount: nat,
    nextAttemptAt: Option<Time>,
    pageToken: Option<string>,
    messageCount: nat)

  datatype Watch = Watch(
    historyId: Option<int>,
    expiresAt: Option<Time>,
    leaseToken: Option<Token>,
    leaseExpiresAt: Option<Time>,
    attemptCount: nat,
    nextAttemptAt: Option<Time>,
    lastError: Option<ErrorCode>)

  datatype Mailbox = Mailbox(
    userId: UserId,
    historyCursor: Option<int>,
    resync: Resync,
    watch: Watch,
    lastError: Option<ErrorCode>)

  datatype TriageState = TriageProcessing | TriageSucceeded | TriageNoop | TriageDeadLetter

  datatype Triage = Triage(
    sourceHistoryId: int,
    state: TriageState,
    attemptCount: nat,
    leaseToken: Option<Token>,
    leaseExpiresAt: Option<Time>,
    nextAttemptAt: Option<Time>,
    summary: Option<string>,
    lastError: Option<ErrorCode>,
    processedAt: Option<Time>)
  {
    predicate Terminal() { !state.TriageProcessing? }

    predicate HeldBy(token: Token) {
      state.TriageProcessing? && leaseToken == Some(token)
    }
  }

  // `nextToken` models secrets.token_urlsafe: every token issued is fresh.
  datatype Tables = Tables(
    jobs: map<JobId, Job>,
    mailboxes: map<Email, Mailbox>,
    triage: map<TriageKey, Triage>,
    nextToken: Token)

  // The frozen dataclasses a worker carries between transactions.
  datatype Envelope = Envelope(pubsubId: string, mailbox: Email, historyId: int)
  datatype JobClaim = JobClaim(id: JobId, mailbox: Email, historyId: int, token: Token, generation: nat)
  datatype TriageClaim = TriageClaim(key: TriageKey, token: Token)
  datatype ResyncClaim = ResyncClaim(
    mailbox: Email, userId: UserId, token: Token, generation: nat,
    pageToken: Option<string>, messageCount: nat)

  const BLANK_RESYNC := Resync(false, Idle, 0, None, None, 0, None, None, 0)
  const BLANK_WATCH := Watch(None, None, None, None, 0, None, None)

  function BlankMailbox(owner: UserId): Mailbox {
    Mailbox(owner, None, BLANK_RESYNC, BLANK_WATCH, None)
  }

  // ---------- Back-off ----------

  function Pow2(n: nat): nat {
    if n == 0 then 1 else 2 * Pow2(n - 1)
  }

  function RetryDelay(cfg: Config, attemptCount: int): int {
    Min(cfg.backoffInitial * Pow2(Max(0, Min(attemptCount - 1, 30))), cfg.backoffMax)
  }

  function RetryAt(cfg: Config, attemptCount: int, at: Time): Time {
    at + RetryDelay(cfg, attemptCount)
  }

  lemma {:induction false} Pow2Grows(n: nat)
    ensures Pow2(n) >= 1
  {
    if n > 0 {
      Pow2Grows(n - 1);
    }
  }

  // Delays start at the configured minimum, double with every attempt, and stop at the maximum.
  lemma RetryDelayDoubles(cfg: ValidConfig, attemptCount: nat)
    ensures cfg.backoffInitial <= RetryDelay(cfg, attemptCount) <= cfg.backoffMax
    ensures attemptCount <= 1 ==> RetryDelay(cfg, attemptCount) == cfg.backoffInitial
    ensures 1 <= attemptCount <= 30 ==>
              RetryDelay(cfg, attemptCount + 1) == Min(2 * RetryDelay(cfg, attemptCount), cfg.backoffMax)
    ensures attemptCount > 30 ==> RetryDelay(cfg, attemptCount + 1) == RetryDelay(cfg, attemptCount)
  {
    var e := if attemptCount <= 1 then 0 else if attemptCount <= 31 then attemptCount - 1 else 30;
    Pow2Grows(e);
    Scaled(cfg.backoffInitial, Pow2(e));
    var doubled := Pow2(e + 1);
    assert doubled == 2 * Pow2(e);
    hide Pow2;
    assert Max(0, Min(attemptCount - 1, 30)) == e;
    assert 1 <= attemptCount <= 30 ==> Max(0, Min(attemptCount, 30)) == e + 1;
  }

  lemma Scaled(b: int, p: int)
    requires b >= 1 && p >= 1
    ensures b * p >= b && b * (2 * p) == 2 * (b * p)
  {
  }

  // ---------- Queue rows ----------

  datatype EnqueueOutcome = Created | Duplicate | BaselineUnavailable | MailboxRejected | OwnerRejected

  function Enqueue(db: Tables, envelope: Envelope, owner: UserId, configured: Email, newId: JobId, now: Time)
    : (Tables, EnqueueOutcome)
  {
    if envelope.mailbox != configured then (db, MailboxRejected)
    else if envelope.mailbox !in db.mailboxes || db.mailboxes[envelope.mailbox].historyCursor.None? then
      (db, BaselineUnavailable)
    else if db.mailboxes[envelope.mailbox].userId != owner then (db, OwnerRejected)
    else if exists id <- db.jobs :: db.jobs[id].pubsubId == envelope.pubsubId then (db, Duplicate)
    else
      var job := Job(envelope.pubsubId, envelope.mailbox, envelope.historyId, JobPending, 0,
                     None, None, None, None, now, None);
      (db.(jobs := db.jobs[newId := job]), Created)
  }

  // The WHERE clause of the claiming query.
  predicate Due(db: Tables, owner: UserId, id: JobId, now: Time) {
    && id in db.jobs
    && db.jobs[id].mailbox in db.mailboxes
    && db.mailboxes[db.jobs[id].mailbox].userId == owner
    && var job := db.jobs[id];
       || (job.state.JobPending? && (job.nextAttemptAt.None? || job.nextAttemptAt.value <= now))
       || (job.state.JobProcessing? && job.leaseExpiresAt.Some? && job.leaseExpiresAt.value <= now)
  }

  function ReturnToQueue(job: Job, code: ErrorCode, next: Time): Job {
    job.(state := JobPending, leaseToken := None, leaseExpiresAt := None,
         lastError := Some(code), nextAttemptAt := Some(next))
  }

  predicate RecoveryLeaseExpired(mailbox: Mailbox, now: Time) {
    && mailbox.resync.state.Processing?
    && mailbox.resync.leaseExpiresAt.Some?
    && mailbox.resync.leaseExpiresAt.value <= now
  }

  // An expired or released recovery lease: back to `required` with a later next attempt.
  function BackOffRecovery(cfg: Config, mailbox: Mailbox, code: ErrorCode, at: Time): Mailbox {
    var attempts := mailbox.resync.attemptCount + 1;
    mailbox.(
      resync := mailbox.resync.(
        state := Required, required := true, leaseToken := None, leaseExpiresAt := None,
        attemptCount := attempts, nextAttemptAt := Some(RetryAt(cfg, attempts, at))),
      lastError := Some(code))
  }

  // `_start_resync_locked`
  function StartRecovery(mailbox: Mailbox, code: ErrorCode, now: Time): (after: Mailbox)
    ensures !mailbox.resync.state.ManualRequired? ==> !after.resync.state.ManualRequired?
  {
    var r := if mailbox.resync.state.Idle?
             then mailbox.resync.(generation := mailbox.resync.generation + 1, pageToken := None,
                                  messageCount := 0, attemptCount := 0)
             else mailbox.resync;
    if r.state.ManualRequired? then mailbox.(resync := r)
    else
      mailbox.(
        resync := r.(state := Required, required := true, leaseToken := None, leaseExpiresAt := None,
                     nextAttemptAt := Some(now)),
        lastError := Some(code))
  }

  function ClaimJob(cfg: Config, db: Tables, id: JobId, now: Time, at: Time): (Tables, Option<JobClaim>)
    requires id in db.jobs && db.jobs[id].mailbox in db.mailboxes
  {
    var job := db.jobs[id];
    var mailbox := db.mailboxes[job.mailbox];
    if job.state.JobProcessing? then
      var job' := ReturnToQueue(job, JobLeaseExpired, RetryAt(cfg, Max(1, job.attemptCount), at));
      var mailbox' := if RecoveryLeaseExpired(mailbox, now)
                      then BackOffRecovery(cfg, mailbox, ResyncLeaseExpired, at) else mailbox;
      (db.(jobs := db.jobs[id := job'], mailboxes := db.mailboxes[job.mailbox := mailbox']), None)
    else if mailbox.resync.state.ManualRequired? then
      var job' := job.(state := JobDeadLetter, lastError := Some(ResyncManualRequired),
                       nextAttemptAt := None, processedAt := Some(now));
      (db.(jobs := db.jobs[id := job']), None)
    else if job.attemptCount >= cfg.maxAttempts && mailbox.resync.state.Idle? then
      // Unlike `_start_resync_locked`, this branch leaves the lease columns alone.
      var mailbox' := mailbox.(
        resync := mailbox.resync.(
          state := Required, required := true, generation := mailbox.resync.generation + 1,
          pageToken := None, messageCount := 0, attemptCount := 0, nextAttemptAt := Some(now)),
        lastError := Some(AttemptLimitExceeded));
      var job' := job.(lastError := Some(AttemptLimitExceeded), nextAttemptAt := Some(now));
      (db.(jobs := db.jobs[id := job'], mailboxes := db.mailboxes[job.mailbox := mailbox']), None)
    else
      var job' := job.(state := JobProcessing, attemptCount := job.attemptCount + 1,
                       leaseToken := Some(db.nextToken), leaseExpiresAt := Some(now + cfg.leaseSeconds),
                       nextAttemptAt := None);
      (db.(jobs := db.jobs[id := job'], nextToken := db.nextToken + 1),
       Some(JobClaim(id, job.mailbox, job.historyId, db.nextToken, mailbox.resync.generation)))
  }

  predicate OwnsJob(db: Tables, claim: JobClaim) {
    claim.id in db.jobs && db.jobs[claim.id].HeldBy(claim.token)
  }

  predicate RecoveryChanged(mailbox: Mailbox, claim: JobClaim) {
    !mailbox.resync.state.Idle? || mailbox.resync.generation != claim.generation
  }

  function CompleteJob(cfg: Config, db: Tables, claim: JobClaim, historyCursor: int, at: Time): (Tables, bool) {
    if !OwnsJob(db, claim) then (db, false)
    else
      var job := db.jobs[claim.id];
      if claim.mailbox !in db.mailboxes then
        var job' := job.(state := JobDeadLetter, lastError := Some(MailboxStateMissing),
                         nextAttemptAt := None, processedAt := Some(at));
        (db.(jobs := db.jobs[claim.id := job']), false)
      else
        var mailbox := db.mailboxes[claim.mailbox];
        if RecoveryChanged(mailbox, claim) then
          var job' := ReturnToQueue(job, MailboxRecoveryChanged, RetryAt(cfg, Max(1, job.attemptCount), at))
                      .(processedAt := None);
          (db.(jobs := db.jobs[claim.id := job']), false)
        else
          var mailbox' := mailbox.(
            historyCursor := Some(Max(mailbox.historyCursor.GetOr(0), historyCursor)), lastError := None);
          var job' := job.(state := JobSucceeded, lastError := None,
                           processedAt := Some(at), nextAttemptAt := None);
          (db.(jobs := db.jobs[claim.id := job'], mailboxes := db.mailboxes[claim.mailbox := mailbox']), true)
  }

  // `fail_job` on the locked rows: fenced, recovered, or backed off.
  function FailRows(cfg: Config, job: Job, mailbox: Mailbox, claim: JobClaim, code: ErrorCode,
                    deadLetter: bool, requireResync: bool, now: Time, at: Time): (r: (Job, Mailbox))
    ensures r.0.state.JobPending?
  {
    if RecoveryChanged(mailbox, claim) then
      (ReturnToQueue(job, MailboxRecoveryChanged, RetryAt(cfg, Max(1, job.attemptCount), at)).(processedAt := None),
       mailbox)
    else if requireResync || deadLetter || job.attemptCount >= cfg.maxAttempts then
      var mailbox' := StartRecovery(mailbox, code, now);
      (if mailbox'.resync.state.ManualRequired?
       then job.(state := JobDeadLetter, nextAttemptAt := None, lastError := Some(code), processedAt := Some(now))
       else ReturnToQueue(job, code, now).(processedAt := None),
       mailbox')
    else (ReturnToQueue(job, code, RetryAt(cfg, Max(1, job.attemptCount), at)), mailbox)
  }

  function FailJob(cfg: Config, db: Tables, claim: JobClaim, code: ErrorCode,
                   deadLetter: bool, requireResync: bool, now: Time, at: Time): Tables
  {
    if !OwnsJob(db, claim) then db
    else
      var job := db.jobs[claim.id];
      if claim.mailbox !in db.mailboxes then
        var job' := job.(state := JobDeadLetter, lastError := Some(MailboxStateMissing),
                         nextAttemptAt := None, processedAt := Some(now));
        db.(jobs := db.jobs[claim.id := job'])
      else
        var (job', mailbox') := FailRows(cfg, job, db.mailboxes[claim.mailbox], claim, code, deadLetter,
                                         requireResync, now, at);
        db.(jobs := db.jobs[claim.id := job'], mailboxes := db.mailboxes[claim.mailbox := mailbox'])
  }

  function RequeueJob(cfg: Config, db: Tables, claim: JobClaim, code: ErrorCode,
                      next: Option<Time>, at: Time): Tables
  {
    if !OwnsJob(db, claim) then db
    else
      var job := db.jobs[claim.id];
      var when := next.GetOr(RetryAt(cfg, Max(1, job.attemptCount), at));
      db.(jobs := db.jobs[claim.id := ReturnToQueue(job, code, when)])
  }

  function DeadLetterJob(db: Tables, claim: JobClaim, code: ErrorCode, at: Time): Tables {
    if !OwnsJob(db, claim) then db
    else
      var job' := db.jobs[claim.id].(
        state := JobDeadLetter, leaseToken := None, leaseExpiresAt := None, nextAttemptAt := None,
        lastError := Some(code), processedAt := Some(at));
      db.(jobs := db.jobs[claim.id := job'])
  }

  // ---------- Triage rows ----------

  function ClaimTriage(cfg: Config, db: Tables, key: TriageKey, sourceHistoryId: int, now: Time)
    : (Tables, Option<TriageClaim>)
  {
    if key !in db.triage then
      var row := Triage(sourceHistoryId, TriageProcessing, 1, Some(db.nextToken),
                        Some(now + cfg.leaseSeconds), None, None, None, None);
      (db.(triage := db.triage[key := row], nextToken := db.nextToken + 1),
       Some(TriageClaim(key, db.nextToken)))
    else
      var row := db.triage[key];
      if row.Terminal()
      || (row.leaseExpiresAt.Some? && row.leaseExpiresAt.value > now)
      || (row.nextAttemptAt.Some? && row.nextAttemptAt.value > now)
      then (db, None)
      else
        var row' := row.(attemptCount := row.attemptCount + 1, leaseToken := Some(db.nextToken),
                         leaseExpiresAt := Some(now + cfg.leaseSeconds), nextAttemptAt := None);
        (db.(triage := db.triage[key := row'], nextToken := db.nextToken + 1),
         Some(TriageClaim(key, db.nextToken)))
  }

  predicate OwnsTriage(db: Tables, claim: TriageClaim) {
    claim.key in db.triage && db.triage[claim.key].HeldBy(claim.token)
  }

  const SUMMARY_LIMIT := 4_000

  function Truncated(summary: Option<string>): Option<string> {
    if summary.None? || summary.value == "" then None
    else if |summary.value| > SUMMARY_LIMIT then Some(summary.value[..SUMMARY_LIMIT])
    else summary
  }

  function FinalizeTriage(db: Tables, claim: TriageClaim, state: TriageState, summary: Option<string>,
                          code: Option<ErrorCode>, at: Time): Tables
    requires !state.TriageProcessing?
  {
    if !OwnsTriage(db, claim) then db
    else
      var row' := db.triage[claim.key].(
        state := state, summary := Truncated(summary), lastError := code,
        nextAttemptAt := None, processedAt := Some(at));
      db.(triage := db.triage[claim.key := row'])
  }

  function ReleaseTriage(cfg: Config, db: Tables, claim: TriageClaim, code: ErrorCode, at: Time): Tables {
    if !OwnsTriage(db, claim) then db
    else
      var row := db.triage[claim.key];
      var row' := row.(leaseToken := None, leaseExpiresAt := None,
                       nextAttemptAt := Some(RetryAt(cfg, Max(1, row.attemptCount), at)),
                       lastError := Some(code));
      db.(triage := db.triage[claim.key := row'])
  }

  predicate TriageIsTerminal(db: Tables, key: TriageKey) {
    key in db.triage && db.triage[key].Terminal()
  }

  // ---------- Bounded recovery ----------

  function ClaimResync(cfg: Config, db: Tables, mailbox: Email, owner: UserId, now: Time, at: Time)
    : (Tables, Option<ResyncClaim>)
  {
    if mailbox !in db.mailboxes || db.mailboxes[mailbox].userId != owner then (db, None)
    else
      var row := db.mailboxes[mailbox];
      var r := row.resync;
      match r.state
      case Idle => (db, None)
      case ManualRequired => (db, None)
      case Processing =>
        if RecoveryLeaseExpired(row, now) then
          (db.(mailboxes := db.mailboxes[mailbox := BackOffRecovery(cfg, row, ResyncLeaseExpired, at)]), None)
        else (db, None)
      case Required =>
        if r.nextAttemptAt.Some? && r.nextAttemptAt.value > now then (db, None)
        else
          var row' := row.(resync := r.(
            state := Processing, required := true, leaseToken := Some(db.nextToken),
            leaseExpiresAt := Some(now + cfg.leaseSeconds), nextAttemptAt := None));
          (db.(mailboxes := db.mailboxes[mailbox := row'], nextToken := db.nextToken + 1),
           Some(ResyncClaim(mailbox, row.userId, db.nextToken, r.generation, r.pageToken, r.messageCount)))
  }

  predicate OwnsResync(db: Tables, claim: ResyncClaim) {
    && claim.mailbox in db.mailboxes
    && var row := db.mailboxes[claim.mailbox];
       && row.userId == claim.userId
       && row.resync.state.Processing?
       && row.resync.generation == claim.generation
       && row.resync.leaseToken == Some(claim.token)
  }

  function CheckpointResync(db: Tables, claim: ResyncClaim, nextPage: string, processed: nat, at: Time)
    : (Tables, bool)
  {
    if !OwnsResync(db, claim) then (db, false)
    else
      var row := db.mailboxes[claim.mailbox];
      var row' := row.(
        resync := row.resync.(
          state := Required, required := true, leaseToken := None, leaseExpiresAt := None,
          pageToken := Some(nextPage), messageCount := row.resync.messageCount + processed,
          nextAttemptAt := Some(at)),
        lastError := None);
      (db.(mailboxes := db.mailboxes[claim.mailbox := row']), true)
  }

  function CompleteResync(db: Tables, claim: ResyncClaim, historyCursor: int): (Tables, bool) {
    if !OwnsResync(db, claim) then (db, false)
    else
      var row := db.mailboxes[claim.mailbox];
      var row' := row.(
        historyCursor := Some(historyCursor),
        resync := BLANK_RESYNC.(generation := row.resync.generation),
        lastError := None);
      (db.(mailboxes := db.mailboxes[claim.mailbox := row']), true)
  }

  function ReleaseResync(cfg: Config, db: Tables, claim: ResyncClaim, code: ErrorCode, at: Time): (Tables, bool) {
    if !OwnsResync(db, claim) then (db, false)
    else
      var row := db.mailboxes[claim.mailbox];
      (db.(mailboxes := db.mailboxes[claim.mailbox := BackOffRecovery(cfg, row, code, at)]), true)
  }

  function RequireManual(db: Tables, claim: ResyncClaim, code: ErrorCode): (Tables, bool) {
    if !OwnsResync(db, claim) then (db, false)
    else
      var row := db.mailboxes[claim.mailbox];
      var row' := row.(
        resync := row.resync.(
          state := ManualRequired, required := true, leaseToken := None, leaseExpiresAt := None,
          nextAttemptAt := None),
        lastError := Some(code));
      (db.(mailboxes := db.mailboxes[claim.mailbox := row']), true)
  }

  // ---------- Watch lease ----------

  predicate WatchDue(cfg: Config, mailbox: Mailbox, now: Time) {
    && (mailbox.watch.nextAttemptAt.Some? ==> mailbox.watch.nextAttemptAt.value <= now)
    && (mailbox.watch.expiresAt.Some? ==> mailbox.watch.expiresAt.value <= now + cfg.watchRenewalSeconds)
    && (mailbox.watch.leaseExpiresAt.Some? ==> mailbox.watch.leaseExpiresAt.value <= now)
  }

  predicate OwnsAMailbox(db: Tables, owner: UserId) {
    exists m <- db.mailboxes :: db.mailboxes[m].userId == owner
  }

  function ClaimWatch(cfg: Config, db: Tables, mailbox: Email, owner: UserId, now: Time): (Tables, Option<Token>) {
    var row := if mailbox in db.mailboxes then db.mailboxes[mailbox] else BlankMailbox(owner);
    if row.userId != owner || !WatchDue(cfg, row, now) then (db, None)
    else if mailbox !in db.mailboxes && OwnsAMailbox(db, owner) then (db, None)  // unique user_id
    else
      var row' := row.(watch := row.watch.(
        leaseToken := Some(db.nextToken), leaseExpiresAt := Some(now + cfg.leaseSeconds)));
      (db.(mailboxes := db.mailboxes[mailbox := row'], nextToken := db.nextToken + 1), Some(db.nextToken))
  }

  predicate OwnsWatch(db: Tables, mailbox: Email, token: Token) {
    mailbox in db.mailboxes && db.mailboxes[mailbox].watch.leaseToken == Some(token)
  }

  // Python's `cursor or history_id`: an absent or zero cursor takes the watch baseline.
  predicate NoBaseline(cursor: Option<int>) {
    cursor.None? || cursor.value == 0
  }

  function Baseline(cursor: Option<int>, historyId: int): int {
    if NoBaseline(cursor) then historyId else cursor.value
  }

  function CompleteWatch(db: Tables, mailbox: Email, token: Token, historyId: int, expiresAt: Time): (Tables, bool) {
    if !OwnsWatch(db, mailbox, token) then (db, false)
    else
      var row := db.mailboxes[mailbox];
      var row' := row.(
        historyCursor := Some(Baseline(row.historyCursor, historyId)),
        watch := Watch(Some(historyId), Some(expiresAt), None, None, 0, None, None),
        lastError := None);
      (db.(mailboxes := db.mailboxes[mailbox := row']), true)
  }

  function FailWatch(cfg: Config, db: Tables, mailbox: Email, token: Token, code: ErrorCode, at: Time): Tables {
    if !OwnsWatch(db, mailbox, token) then db
    else
      var row := db.mailboxes[mailbox];
      var attempts := row.watch.attemptCount + 1;
      var row' := row.(
        watch := row.watch.(
          lastError := Some(code), leaseToken := None, leaseExpiresAt := None,
          attemptCount := attempts, nextAttemptAt := Some(RetryAt(cfg, attempts, at))),
        lastError := Some(code));
      db.(mailboxes := db.mailboxes[mailbox := row'])
  }

  // ---------- Retention (server/services/retention.py:57-70) ----------

  predicate JobExpired(job: Job, cutoff: Time) {
    job.Terminal() && job.processedAt.Some? && job.processedAt.value < cutoff
  }

  predicate TriageExpired(row: Triage, cutoff: Time) {
    row.Terminal() && row.processedAt.Some? && row.processedAt.value < cutoff
  }

  function PruneQueue(db: Tables, jobsCutoff: Time, triageCutoff: Time): Tables {
    db.(jobs := map id | id in db.jobs && !JobExpired(db.jobs[id], jobsCutoff) :: db.jobs[id],
        triage := map key | key in db.triage && !TriageExpired(db.triage[key], triageCutoff) :: db.triage[key])
  }
}
