// What every single transaction on the queue tables keeps, whoever runs it and whatever stale
// claim it is run with.

module NotificationTransactions {
  import opened Common
  import opened NotificationRows
  import opened NotificationProtocol

  // ---------- Well-formed tables ----------

  // The recovery columns of a mailbox: a bounded, single-lease state machine.
  predicate BoundedRecovery(cfg: Config, row: Mailbox) {
    var r := row.resync;
    && (r.state.Processing? <==> r.leaseToken.Some? && r.leaseExpiresAt.Some?)
    && (r.leaseToken.Some? <==> r.leaseExpiresAt.Some?)
    && (r.required <==> !r.state.Idle?)
    && r.messageCount < cfg.resyncMaxMessages
  }

  predicate MailboxOk(cfg: Config, row: Mailbox, next: Token) {
    && BoundedRecovery(cfg, row)
    && (row.historyCursor.Some? ==> row.historyCursor.value > 0)
    && (row.historyCursor.None? ==> row.resync.state.Idle?)
    && (row.resync.leaseToken.Some? ==> row.resync.leaseToken.value < next)
    && (row.watch.leaseToken.Some? <==> row.watch.leaseExpiresAt.Some?)
    && (row.watch.leaseToken.Some? ==> row.watch.leaseToken.value < next)
  }

  predicate JobOk(db: Tables, job: Job) {
    && job.historyId > 0
    && job.mailbox in db.mailboxes && db.mailboxes[job.mailbox].historyCursor.Some?
    && (job.state.JobProcessing? ==> job.leaseToken.Some? && job.leaseExpiresAt.Some?)
    && (job.state.JobPending? ==> job.leaseToken.None? && job.leaseExpiresAt.None?)
    && (job.leaseToken.Some? ==> job.leaseToken.value < db.nextToken)
  }

  predicate TriageOk(row: Triage, next: Token) {
    && (row.leaseToken.Some? <==> row.leaseExpiresAt.Some?)
    && (row.leaseToken.Some? ==> row.leaseToken.value < next)
  }

  predicate TablesOk(cfg: Config, db: Tables) {
    && (forall m <- db.mailboxes :: MailboxOk(cfg, db.mailboxes[m], db.nextToken))
    && (forall id <- db.jobs :: JobOk(db, db.jobs[id]))
    && (forall key <- db.triage :: TriageOk(db.triage[key], db.nextToken))
  }

  // ---------- Legal changes ----------

  // The recovery graph: idle -> required -> processing -> required, idle or manual_required.
  predicate RecoveryEdge(a: ResyncState, b: ResyncState) {
    || a == b
    || (a.Idle? && b.Required?)
    || (a.Required? && b.Processing?)
    || (a.Processing? && !b.Processing?)
  }

  predicate LegalMove(a: Mailbox, b: Mailbox) {
    && b.userId == a.userId
    && RecoveryEdge(a.resync.state, b.resync.state)
    && b.resync.generation ==
       a.resync.generation + (if a.resync.state.Idle? && b.resync.state.Required? then 1 else 0)
    && (a.historyCursor.Some? ==> b.historyCursor.Some?)
    && (a.resync.state.Idle? && a.historyCursor.Some? ==> b.historyCursor.value >= a.historyCursor.value)
    && (!a.resync.state.Idle? && b.historyCursor != a.historyCursor ==>
          a.resync.state.Processing? && b.resync.state.Idle?)
  }

  // What identifies the work under a lease.
  predicate SameWork(db: Tables, db': Tables, r: Resource) {
    match r
    case JobRow(id) =>
      && id in db.jobs && id in db'.jobs
      && db'.jobs[id].mailbox == db.jobs[id].mailbox && db'.jobs[id].historyId == db.jobs[id].historyId
    case RecoveryOf(m) =>
      && m in db.mailboxes && m in db'.mailboxes
      && db'.mailboxes[m].resync == db.mailboxes[m].resync
      && db'.mailboxes[m].historyCursor == db.mailboxes[m].historyCursor
    case TriageRow(_) => true
    case WatchOf(_) => true
  }

  predicate MailboxesMove(db: Tables, db': Tables) {
    && (forall m <- db.mailboxes :: m in db'.mailboxes && LegalMove(db.mailboxes[m], db'.mailboxes[m]))
    && (forall m <- db'.mailboxes :: m !in db.mailboxes ==> db'.mailboxes[m].resync == BLANK_RESYNC)
  }

  // Terminal rows stay as they are for as long as they are stored.
  predicate RowsStep(db: Tables, db': Tables) {
    && (forall id <- db.jobs :: id in db'.jobs ==>
          && db'.jobs[id].mailbox == db.jobs[id].mailbox && db'.jobs[id].historyId == db.jobs[id].historyId
          && (db.jobs[id].Terminal() ==> db'.jobs[id] == db.jobs[id]))
    && (forall key <- db.triage :: key in db'.triage && db.triage[key].Terminal() ==>
          db'.triage[key] == db.triage[key])
  }

  // A lease that survives was there before, over the same work.
  ghost predicate LeasesStep(db: Tables, db': Tables) {
    forall r: Resource :: Holder(db', r).Some? && Holder(db', r).value.token < db.nextToken ==>
      Holder(db, r) == Holder(db', r) && SameWork(db, db', r)
  }

  // Everything together; `touched` bounds the resources whose lease changes.
  ghost predicate Kept(cfg: Config, db: Tables, db': Tables, touched: set<Resource>) {
    && TablesOk(cfg, db')
    && db.nextToken <= db'.nextToken
    && MailboxesMove(db, db')
    && RowsStep(db, db')
    && LeasesStep(db, db')
    && (forall r: Resource :: r !in touched ==> Holder(db', r) == Holder(db, r))
  }

  // A row of `jobs` is rewritten.
  lemma JobRewritten(cfg: Config, db: Tables, db': Tables, id: JobId, job': Job, next: Token)
    requires TablesOk(cfg, db) && id in db.jobs && !db.jobs[id].Terminal()
    requires db' == db.(jobs := db.jobs[id := job'], nextToken := next) && db.nextToken <= next
    requires job'.mailbox == db.jobs[id].mailbox && job'.historyId == db.jobs[id].historyId
    requires JobOk(db', job')
    requires Holder(db', JobRow(id)).Some? ==> Holder(db', JobRow(id)).value.token >= db.nextToken
    ensures Kept(cfg, db, db', {JobRow(id)})
  {
    assert TablesOk(cfg, db') && MailboxesMove(db, db') && RowsStep(db, db');
    hide TablesOk, MailboxesMove, RowsStep;
    forall r: Resource
      ensures r != JobRow(id) ==> Holder(db', r) == Holder(db, r) && (Holder(db, r).Some? ==> SameWork(db, db', r))
    {
      match r
      case JobRow(id') =>
      case TriageRow(key) =>
      case RecoveryOf(m) =>
      case WatchOf(m) =>
    }
  }

  lemma MailboxMoves(db: Tables, db': Tables, m: Email, row: Mailbox, next: Token)
    requires m in db.mailboxes && LegalMove(db.mailboxes[m], row)
    requires db' == db.(mailboxes := db.mailboxes[m := row], nextToken := next)
    ensures MailboxesMove(db, db') && RowsStep(db, db')
  {
  }

  // A row of `mailboxes` is rewritten, changing the recovery or the watch lease.
  lemma MailboxRewritten(cfg: Config, db: Tables, db': Tables, m: Email, row: Mailbox, next: Token, r: Resource)
    requires TablesOk(cfg, db) && m in db.mailboxes && LegalMove(db.mailboxes[m], row)
    requires db' == db.(mailboxes := db.mailboxes[m := row], nextToken := next) && db.nextToken <= next
    requires MailboxOk(cfg, row, next)
    requires r == RecoveryOf(m) || r == WatchOf(m)
    requires r == RecoveryOf(m) ==> row.watch == db.mailboxes[m].watch
    requires r == WatchOf(m) ==> row.resync == db.mailboxes[m].resync
    requires r == WatchOf(m) && !row.resync.state.Idle? ==> row.historyCursor == db.mailboxes[m].historyCursor
    requires Holder(db', r).Some? ==> Holder(db', r).value.token >= db.nextToken
    ensures Kept(cfg, db, db', {r})
  {
    MailboxMoves(db, db', m, row, next);
    hide MailboxesMove, RowsStep, LegalMove;
    assert TablesOk(cfg, db');
    hide TablesOk, MailboxOk;
    forall q: Resource
      ensures q != r ==> Holder(db', q) == Holder(db, q) && (Holder(db, q).Some? ==> SameWork(db, db', q))
    {
      match q
      case JobRow(id') =>
      case TriageRow(key) =>
      case RecoveryOf(m) =>
      case WatchOf(m) =>
    }
  }

  lemma TriageRewritten(cfg: Config, db: Tables, db': Tables, key: TriageKey, row: Triage, next: Token)
    requires TablesOk(cfg, db) && (key in db.triage ==> !db.triage[key].Terminal())
    requires db' == db.(triage := db.triage[key := row], nextToken := next) && db.nextToken <= next
    requires TriageOk(row, next)
    requires Holder(db', TriageRow(key)).Some? ==> Holder(db', TriageRow(key)).value.token >= db.nextToken
    ensures Kept(cfg, db, db', {TriageRow(key)})
  {
  }

  // Two rewrites in one transaction.
  lemma KeptTwice(cfg: Config, a: Tables, b: Tables, c: Tables, touched: set<Resource>, touched': set<Resource>)
    requires Kept(cfg, a, b, touched) && Kept(cfg, b, c, touched') && b.nextToken == a.nextToken
    requires a.jobs.Keys == b.jobs.Keys == c.jobs.Keys && a.triage.Keys == b.triage.Keys
    requires a.mailboxes.Keys == b.mailboxes.Keys
    requires forall m <- a.mailboxes :: LegalMove(a.mailboxes[m], c.mailboxes[m])
    ensures Kept(cfg, a, c, touched + touched')
  {
    forall r: Resource | Holder(c, r).Some? && Holder(c, r).value.token < a.nextToken
      ensures Holder(a, r) == Holder(c, r) && SameWork(a, c, r)
    {
      assert SameWork(b, c, r) && SameWork(a, b, r);
    }
  }

  // ---------- How a transaction changes a lease ----------

  predicate Ended(db: Tables, db': Tables, r: Resource, token: Token) {
    && Holder(db, r).Some? && Holder(db, r).value.token == token
    && Holder(db', r).None?
  }

  predicate Lapsed(db: Tables, db': Tables, r: Resource, now: Time) {
    && Holder(db, r).Some? && Holder(db, r).value.expiresAt <= now
    && Holder(db', r).None?
  }

  predicate Taken(db: Tables, db': Tables, r: Resource, now: Time, expiresAt: Time) {
    && (Holder(db, r).Some? ==> Holder(db, r).value.expiresAt <= now)
    && Holder(db', r) == Some(Lease(db.nextToken, expiresAt))
    && db'.nextToken == db.nextToken + 1
  }

  // The claim still describes the row it would act on.
  predicate ClaimFits(db: Tables, claim: JobClaim) {
    OwnsJob(db, claim) ==>
      db.jobs[claim.id].mailbox == claim.mailbox && db.jobs[claim.id].historyId == claim.historyId
  }

  // Either the lease was lost and nothing happened, or it was held and is over.
  ghost predicate EndsLease(cfg: Config, db: Tables, db': Tables, owned: bool, r: Resource, token: Token,
                            touched: set<Resource>) {
    && (!owned ==> db' == db)
    && (owned ==> Ended(db, db', r, token))
    && (forall q <- touched :: q != r ==> Holder(db', q) == Holder(db, q))
    && Kept(cfg, db, db', touched)
    && db'.nextToken == db.nextToken
  }

  lemma EnqueueKept(cfg: Config, db: Tables, envelope: Envelope, owner: UserId, configured: Email, newId: JobId,
                    now: Time)
    requires TablesOk(cfg, db) && newId !in db.jobs && envelope.historyId > 0
    ensures Kept(cfg, db, Enqueue(db, envelope, owner, configured, newId, now).0, {})
  {
    var (db', outcome) := Enqueue(db, envelope, owner, configured, newId, now);
    if outcome.Created? {
      JobInserted(cfg, db, db', newId, db'.jobs[newId]);
    } else {
      NothingChanged(cfg, db, {});
    }
  }

  lemma NothingChanged(cfg: Config, db: Tables, touched: set<Resource>)
    requires TablesOk(cfg, db)
    ensures Kept(cfg, db, db, touched)
  {
    assert forall r: Resource :: Holder(db, r).Some? ==> SameWork(db, db, r);
  }

  lemma JobInserted(cfg: Config, db: Tables, db': Tables, id: JobId, job: Job)
    requires TablesOk(cfg, db) && id !in db.jobs && JobOk(db, job) && job.state.JobPending?
    requires db' == db.(jobs := db.jobs[id := job])
    ensures Kept(cfg, db, db', {})
  {
    forall r: Resource ensures Holder(db', r) == Holder(db, r) && (Holder(db, r).Some? ==> SameWork(db, db', r)) {
      match r
      case JobRow(_) =>
      case TriageRow(_) =>
      case RecoveryOf(_) =>
      case WatchOf(_) =>
    }
  }

  lemma PruneKept(cfg: Config, db: Tables, jobsCutoff: Time, triageCutoff: Time)
    requires TablesOk(cfg, db)
    ensures Kept(cfg, db, PruneQueue(db, jobsCutoff, triageCutoff), {})
  {
    var db' := PruneQueue(db, jobsCutoff, triageCutoff);
    forall r: Resource ensures Holder(db', r) == Holder(db, r) && (Holder(db, r).Some? ==> SameWork(db, db', r)) {
      match r
      case JobRow(_) =>
      case TriageRow(_) =>
      case RecoveryOf(_) =>
      case WatchOf(_) =>
    }
  }

  lemma ClaimJobKept(cfg: ValidConfig, db: Tables, owner: UserId, id: JobId, now: Time, at: Time)
    requires TablesOk(cfg, db) && Due(db, owner, id, now)
    ensures var (db', claim) := ClaimJob(cfg, db, id, now, at);
            var recovery := RecoveryOf(db.jobs[id].mailbox);
            && Kept(cfg, db, db', {JobRow(id), recovery})
            && (claim.None? ==>
                  && db'.nextToken == db.nextToken
                  && (Holder(db', JobRow(id)) == Holder(db, JobRow(id)) || Lapsed(db, db', JobRow(id), now))
                  && (Holder(db', recovery) == Holder(db, recovery) || Lapsed(db, db', recovery, now)))
            && (claim.Some? ==>
                  && Taken(db, db', JobRow(id), now, now + cfg.leaseSeconds)
                  && Holder(db', recovery) == Holder(db, recovery))
  {
    hide RetryAt, Kept;
    var job := db.jobs[id];
    var mailbox := db.mailboxes[job.mailbox];
    if job.state.JobProcessing? {
      ClaimExpired(cfg, db, id, now, at);
    } else {
      var (db', claim) := ClaimJob(cfg, db, id, now, at);
      var mid := db.(jobs := db'.jobs, nextToken := db'.nextToken);
      JobRewritten(cfg, db, mid, id, db'.jobs[id], db'.nextToken);
      if claim.None? && !mailbox.resync.state.ManualRequired? {
        BothRewritten(cfg, db, mid, db', id, job.mailbox);
      } else {
        assert db' == mid;
        KeptWider(cfg, db, mid, {JobRow(id)}, {JobRow(id), RecoveryOf(job.mailbox)});
        RecoveryUntouched(cfg, db, mid, {JobRow(id)}, job.mailbox);
      }
    }
  }

  lemma KeptWider(cfg: Config, db: Tables, db': Tables, touched: set<Resource>, wider: set<Resource>)
    requires Kept(cfg, db, db', touched) && touched <= wider
    ensures Kept(cfg, db, db', wider)
  {
    hide TablesOk, MailboxesMove, RowsStep, LeasesStep;
  }

  lemma RecoveryUntouched(cfg: Config, db: Tables, db': Tables, touched: set<Resource>, m: Email)
    requires Kept(cfg, db, db', touched) && RecoveryOf(m) !in touched
    ensures Holder(db', RecoveryOf(m)) == Holder(db, RecoveryOf(m))
  {
    hide TablesOk, MailboxesMove, RowsStep, LeasesStep;
  }

  // The claimed row's lease had expired: it goes back to the queue, and an expired recovery lease
  // of its mailbox with it.
  lemma ClaimExpired(cfg: ValidConfig, db: Tables, id: JobId, now: Time, at: Time)
    requires TablesOk(cfg, db) && id in db.jobs && db.jobs[id].state.JobProcessing?
    requires db.jobs[id].leaseExpiresAt.Some? && db.jobs[id].leaseExpiresAt.value <= now
    ensures var (db', claim) := ClaimJob(cfg, db, id, now, at);
            var recovery := RecoveryOf(db.jobs[id].mailbox);
            && claim.None? && db'.nextToken == db.nextToken
            && Kept(cfg, db, db', {JobRow(id), recovery})
            && Lapsed(db, db', JobRow(id), now)
            && (Holder(db', recovery) == Holder(db, recovery) || Lapsed(db, db', recovery, now))
  {
    var db' := ClaimJob(cfg, db, id, now, at).0;
    var m := db.jobs[id].mailbox;
    var mid := db.(jobs := db'.jobs);
    JobRewritten(cfg, db, mid, id, db'.jobs[id], db.nextToken);
    if RecoveryLeaseExpired(db.mailboxes[m], now) {
      BothRewritten(cfg, db, mid, db', id, m);
    } else {
      assert db'.mailboxes == db.mailboxes;
    }
  }

  // A queue row was rewritten into `mid`, and then the recovery columns of its mailbox.
  lemma BothRewritten(cfg: ValidConfig, db: Tables, mid: Tables, db': Tables, id: JobId, m: Email)
    requires Kept(cfg, db, mid, {JobRow(id)}) && m in db.mailboxes && m in db'.mailboxes
    requires mid.nextToken == db.nextToken && mid.mailboxes == db.mailboxes && mid.triage == db.triage
    requires mid.jobs.Keys == db.jobs.Keys
    requires db' == mid.(mailboxes := mid.mailboxes[m := db'.mailboxes[m]])
    requires LegalMove(db.mailboxes[m], db'.mailboxes[m]) && MailboxOk(cfg, db'.mailboxes[m], db.nextToken)
    requires db'.mailboxes[m].watch == db.mailboxes[m].watch
    requires !db'.mailboxes[m].resync.state.Processing?
    ensures Kept(cfg, db, db', {JobRow(id), RecoveryOf(m)})
    ensures Holder(db', JobRow(id)) == Holder(mid, JobRow(id))
  {
    MailboxRewritten(cfg, mid, db', m, db'.mailboxes[m], db.nextToken, RecoveryOf(m));
    KeptTwice(cfg, db, mid, db', {JobRow(id)}, {RecoveryOf(m)});
    assert {JobRow(id)} + {RecoveryOf(m)} == {JobRow(id), RecoveryOf(m)};
  }

  lemma JobLeaseEnds(cfg: Config, db: Tables, mid: Tables, claim: JobClaim, job': Job)
    requires OwnsJob(db, claim) && JobOk(db, db.jobs[claim.id]) && !job'.state.JobProcessing?
    requires mid == db.(jobs := db.jobs[claim.id := job'])
    requires Kept(cfg, db, mid, {JobRow(claim.id)})
    ensures Ended(db, mid, JobRow(claim.id), claim.token)
    ensures forall r: Resource :: r != JobRow(claim.id) ==> Holder(mid, r) == Holder(db, r)
    ensures forall touched: set<Resource> :: JobRow(claim.id) in touched ==> Kept(cfg, db, mid, touched)
  {
    hide TablesOk, MailboxesMove, RowsStep, LeasesStep;
  }

  // A job lease ends, and its idle mailbox moves with it.
  lemma JobAndMailboxRewritten(cfg: ValidConfig, db: Tables, db': Tables, claim: JobClaim, job': Job, row: Mailbox)
    requires TablesOk(cfg, db) && OwnsJob(db, claim) && claim.mailbox in db.mailboxes
    requires db' == db.(jobs := db.jobs[claim.id := job'], mailboxes := db.mailboxes[claim.mailbox := row])
    requires !job'.state.JobProcessing? && JobOk(db, job')
    requires job'.mailbox == db.jobs[claim.id].mailbox && job'.historyId == db.jobs[claim.id].historyId
    requires row == db.mailboxes[claim.mailbox]
          || (LegalMove(db.mailboxes[claim.mailbox], row) && MailboxOk(cfg, row, db.nextToken)
              && row.watch == db.mailboxes[claim.mailbox].watch
              && db.mailboxes[claim.mailbox].resync.state.Idle? && !row.resync.state.Processing?)
    ensures EndsLease(cfg, db, db', true, JobRow(claim.id), claim.token, {JobRow(claim.id), RecoveryOf(claim.mailbox)})
  {
    assert JobOk(db, db.jobs[claim.id]);
    hide TablesOk, Kept, LegalMove, MailboxOk;
    var mid := db.(jobs := db'.jobs);
    JobRewritten(cfg, db, mid, claim.id, job', db.nextToken);
    JobLeaseEnds(cfg, db, mid, claim, job');
    if row == db.mailboxes[claim.mailbox] {
      assert db' == mid;
    } else {
      BothRewritten(cfg, db, mid, db', claim.id, claim.mailbox);
    }
  }

  lemma CompleteJobKept(cfg: ValidConfig, db: Tables, claim: JobClaim, cursor: int, at: Time)
    requires TablesOk(cfg, db) && ClaimFits(db, claim)
    ensures EndsLease(cfg, db, CompleteJob(cfg, db, claim, cursor, at).0, OwnsJob(db, claim), JobRow(claim.id),
                      claim.token, {JobRow(claim.id), RecoveryOf(claim.mailbox)})
  {
    if !OwnsJob(db, claim) {
      NothingChanged(cfg, db, {JobRow(claim.id), RecoveryOf(claim.mailbox)});
    } else {
      var db' := CompleteJob(cfg, db, claim, cursor, at).0;
      assert db'.mailboxes == db.mailboxes[claim.mailbox := db'.mailboxes[claim.mailbox]];
      JobAndMailboxRewritten(cfg, db, db', claim, db'.jobs[claim.id], db'.mailboxes[claim.mailbox]);
    }
  }

  lemma FailRowsOk(cfg: ValidConfig, db: Tables, job: Job, row: Mailbox, claim: JobClaim, code: ErrorCode,
                   deadLetter: bool, requireResync: bool, now: Time, at: Time)
    requires JobOk(db, job) && MailboxOk(cfg, row, db.nextToken) && row.historyCursor.Some?
    ensures var (job', row') := FailRows(cfg, job, row, claim, code, deadLetter, requireResync, now, at);
            && !job'.state.JobProcessing? && JobOk(db, job')
            && job'.mailbox == job.mailbox && job'.historyId == job.historyId
            && (row' == row
                || (LegalMove(row, row') && MailboxOk(cfg, row', db.nextToken) && row'.watch == row.watch
                    && row.resync.state.Idle? && !row'.resync.state.Processing?))
  {
    hide RetryAt, StartRecovery;
    if row.resync.state.Idle? {
      StartIsLegal(cfg, row, code, now, db.nextToken);
    }
    hide LegalMove, MailboxOk;
  }

  lemma StartIsLegal(cfg: ValidConfig, row: Mailbox, code: ErrorCode, now: Time, next: Token)
    requires MailboxOk(cfg, row, next) && row.resync.state.Idle? && row.historyCursor.Some?
    ensures var row' := StartRecovery(row, code, now);
            LegalMove(row, row') && MailboxOk(cfg, row', next) && row'.watch == row.watch && !row'.resync.state.Processing?
  {
  }

  lemma FailJobKept(cfg: ValidConfig, db: Tables, claim: JobClaim, code: ErrorCode, deadLetter: bool,
                    requireResync: bool, now: Time, at: Time)
    requires TablesOk(cfg, db) && ClaimFits(db, claim)
    ensures EndsLease(cfg, db, FailJob(cfg, db, claim, code, deadLetter, requireResync, now, at), OwnsJob(db, claim),
                      JobRow(claim.id), claim.token, {JobRow(claim.id), RecoveryOf(claim.mailbox)})
  {
    if !OwnsJob(db, claim) {
      NothingChanged(cfg, db, {JobRow(claim.id), RecoveryOf(claim.mailbox)});
    } else {
      var db' := FailJob(cfg, db, claim, code, deadLetter, requireResync, now, at);
      assert JobOk(db, db.jobs[claim.id]);
      hide TablesOk, EndsLease, LegalMove, MailboxOk, FailRows;
      FailRowsOk(cfg, db, db.jobs[claim.id], db.mailboxes[claim.mailbox], claim, code, deadLetter, requireResync, now,
                 at);
      hide JobOk;
      JobAndMailboxRewritten(cfg, db, db', claim, db'.jobs[claim.id], db'.mailboxes[claim.mailbox]);
    }
  }

  lemma RequeueJobKept(cfg: ValidConfig, db: Tables, claim: JobClaim, code: ErrorCode, next: Option<Time>, at: Time)
    requires TablesOk(cfg, db)
    ensures EndsLease(cfg, db, RequeueJob(cfg, db, claim, code, next, at), OwnsJob(db, claim),
                      JobRow(claim.id), claim.token, {JobRow(claim.id)})
  {
    if OwnsJob(db, claim) {
      var db' := RequeueJob(cfg, db, claim, code, next, at);
      JobRewritten(cfg, db, db', claim.id, db'.jobs[claim.id], db.nextToken);
    }
  }

  lemma DeadLetterJobKept(cfg: ValidConfig, db: Tables, claim: JobClaim, code: ErrorCode, at: Time)
    requires TablesOk(cfg, db)
    ensures EndsLease(cfg, db, DeadLetterJob(db, claim, code, at), OwnsJob(db, claim),
                      JobRow(claim.id), claim.token, {JobRow(claim.id)})
  {
    if OwnsJob(db, claim) {
      var db' := DeadLetterJob(db, claim, code, at);
      JobRewritten(cfg, db, db', claim.id, db'.jobs[claim.id], db.nextToken);
    }
  }

  lemma ClaimTriageKept(cfg: ValidConfig, db: Tables, key: TriageKey, source: int, now: Time)
    requires TablesOk(cfg, db)
    ensures var (db', claim) := ClaimTriage(cfg, db, key, source, now);
            && Kept(cfg, db, db', {TriageRow(key)})
            && key in db'.triage
            && (claim.None? ==> db' == db)
            && (claim.Some? ==> Taken(db, db', TriageRow(key), now, now + cfg.leaseSeconds))
  {
    var (db', claim) := ClaimTriage(cfg, db, key, source, now);
    if claim.Some? {
      TriageRewritten(cfg, db, db', key, db'.triage[key], db'.nextToken);
    }
  }

  lemma FinalizeTriageKept(cfg: ValidConfig, db: Tables, claim: TriageClaim, state: TriageState,
                           summary: Option<string>, code: Option<ErrorCode>, at: Time)
    requires TablesOk(cfg, db) && !state.TriageProcessing?
    ensures EndsLease(cfg, db, FinalizeTriage(db, claim, state, summary, code, at), OwnsTriage(db, claim),
                      TriageRow(claim.key), claim.token, {TriageRow(claim.key)})
  {
    if OwnsTriage(db, claim) {
      var db' := FinalizeTriage(db, claim, state, summary, code, at);
      TriageRewritten(cfg, db, db', claim.key, db'.triage[claim.key], db.nextToken);
    }
  }

  lemma ReleaseTriageKept(cfg: ValidConfig, db: Tables, claim: TriageClaim, code: ErrorCode, at: Time)
    requires TablesOk(cfg, db)
    ensures EndsLease(cfg, db, ReleaseTriage(cfg, db, claim, code, at), OwnsTriage(db, claim),
                      TriageRow(claim.key), claim.token, {TriageRow(claim.key)})
  {
    if OwnsTriage(db, claim) {
      var db' := ReleaseTriage(cfg, db, claim, code, at);
      TriageRewritten(cfg, db, db', claim.key, db'.triage[claim.key], db.nextToken);
    }
  }

  lemma ClaimResyncKept(cfg: ValidConfig, db: Tables, m: Email, owner: UserId, now: Time, at: Time)
    requires TablesOk(cfg, db)
    ensures var (db', claim) := ClaimResync(cfg, db, m, owner, now, at);
            && Kept(cfg, db, db', {RecoveryOf(m)})
            && (claim.None? ==>
                  && db'.nextToken == db.nextToken
                  && (Holder(db', RecoveryOf(m)) == Holder(db, RecoveryOf(m)) || Lapsed(db, db', RecoveryOf(m), now)))
            && (claim.Some? ==> Taken(db, db', RecoveryOf(m), now, now + cfg.leaseSeconds))
  {
    hide RetryAt, Kept;
    var (db', claim) := ClaimResync(cfg, db, m, owner, now, at);
    if db' == db {
      NothingChanged(cfg, db, {RecoveryOf(m)});
    } else {
      MailboxRewritten(cfg, db, db', m, db'.mailboxes[m], db'.nextToken, RecoveryOf(m));
    }
  }

  lemma CheckpointResyncKept(cfg: ValidConfig, db: Tables, claim: ResyncClaim, nextPage: string, processed: nat,
                             at: Time)
    requires TablesOk(cfg, db)
    requires OwnsResync(db, claim) ==>
               db.mailboxes[claim.mailbox].resync.messageCount + processed < cfg.resyncMaxMessages
    ensures EndsLease(cfg, db, CheckpointResync(db, claim, nextPage, processed, at).0, OwnsResync(db, claim),
                      RecoveryOf(claim.mailbox), claim.token, {RecoveryOf(claim.mailbox)})
  {
    if OwnsResync(db, claim) {
      var db' := CheckpointResync(db, claim, nextPage, processed, at).0;
      MailboxRewritten(cfg, db, db', claim.mailbox, db'.mailboxes[claim.mailbox], db.nextToken,
                       RecoveryOf(claim.mailbox));
    }
  }

  lemma CompleteResyncKept(cfg: ValidConfig, db: Tables, claim: ResyncClaim, cursor: int)
    requires TablesOk(cfg, db) && cursor > 0
    ensures EndsLease(cfg, db, CompleteResync(db, claim, cursor).0, OwnsResync(db, claim),
                      RecoveryOf(claim.mailbox), claim.token, {RecoveryOf(claim.mailbox)})
  {
    if OwnsResync(db, claim) {
      var db' := CompleteResync(db, claim, cursor).0;
      MailboxRewritten(cfg, db, db', claim.mailbox, db'.mailboxes[claim.mailbox], db.nextToken,
                       RecoveryOf(claim.mailbox));
    }
  }

  lemma ReleaseResyncKept(cfg: ValidConfig, db: Tables, claim: ResyncClaim, code: ErrorCode, at: Time)
    requires TablesOk(cfg, db)
    ensures EndsLease(cfg, db, ReleaseResync(cfg, db, claim, code, at).0, OwnsResync(db, claim),
                      RecoveryOf(claim.mailbox), claim.token, {RecoveryOf(claim.mailbox)})
  {
    if OwnsResync(db, claim) {
      var db' := ReleaseResync(cfg, db, claim, code, at).0;
      MailboxRewritten(cfg, db, db', claim.mailbox, db'.mailboxes[claim.mailbox], db.nextToken,
                       RecoveryOf(claim.mailbox));
    }
  }

  lemma RequireManualKept(cfg: ValidConfig, db: Tables, claim: ResyncClaim, code: ErrorCode)
    requires TablesOk(cfg, db)
    ensures EndsLease(cfg, db, RequireManual(db, claim, code).0, OwnsResync(db, claim),
                      RecoveryOf(claim.mailbox), claim.token, {RecoveryOf(claim.mailbox)})
  {
    if OwnsResync(db, claim) {
      var db' := RequireManual(db, claim, code).0;
      MailboxRewritten(cfg, db, db', claim.mailbox, db'.mailboxes[claim.mailbox], db.nextToken,
                       RecoveryOf(claim.mailbox));
    }
  }

  // The row is new: a blank mailbox under its first watch lease.
  lemma FirstWatchKept(cfg: ValidConfig, db: Tables, m: Email, owner: UserId, now: Time)
    requires TablesOk(cfg, db) && m !in db.mailboxes && ClaimWatch(cfg, db, m, owner, now).1.Some?
    ensures Kept(cfg, db, ClaimWatch(cfg, db, m, owner, now).0, {WatchOf(m)})
  {
    var db' := ClaimWatch(cfg, db, m, owner, now).0;
    assert MailboxOk(cfg, db'.mailboxes[m], db'.nextToken);
    assert TablesOk(cfg, db') && MailboxesMove(db, db') && RowsStep(db, db');
    hide TablesOk, MailboxesMove, RowsStep, MailboxOk;
    forall q: Resource
      ensures q != WatchOf(m) ==> Holder(db', q) == Holder(db, q) && (Holder(db, q).Some? ==> SameWork(db, db', q))
    {
      match q
      case JobRow(_) =>
      case TriageRow(_) =>
      case RecoveryOf(_) =>
      case WatchOf(_) =>
    }
  }

  lemma ClaimWatchKept(cfg: ValidConfig, db: Tables, m: Email, owner: UserId, now: Time)
    requires TablesOk(cfg, db)
    ensures var (db', token) := ClaimWatch(cfg, db, m, owner, now);
            && Kept(cfg, db, db', {WatchOf(m)})
            && (token.None? ==> db' == db)
            && (token.Some? ==> token.value == db.nextToken && Taken(db, db', WatchOf(m), now, now + cfg.leaseSeconds))
  {
    var (db', token) := ClaimWatch(cfg, db, m, owner, now);
    if token.Some? {
      if m in db.mailboxes {
        MailboxRewritten(cfg, db, db', m, db'.mailboxes[m], db'.nextToken, WatchOf(m));
      } else {
        FirstWatchKept(cfg, db, m, owner, now);
      }
    }
  }

  lemma CompleteWatchKept(cfg: ValidConfig, db: Tables, m: Email, token: Token, historyId: int, expiresAt: Time)
    requires TablesOk(cfg, db) && historyId > 0
    ensures EndsLease(cfg, db, CompleteWatch(db, m, token, historyId, expiresAt).0, OwnsWatch(db, m, token),
                      WatchOf(m), token, {WatchOf(m)})
  {
    if OwnsWatch(db, m, token) {
      var db' := CompleteWatch(db, m, token, historyId, expiresAt).0;
      MailboxRewritten(cfg, db, db', m, db'.mailboxes[m], db.nextToken, WatchOf(m));
    }
  }

  lemma FailWatchKept(cfg: ValidConfig, db: Tables, m: Email, token: Token, code: ErrorCode, at: Time)
    requires TablesOk(cfg, db)
    ensures EndsLease(cfg, db, FailWatch(cfg, db, m, token, code, at), OwnsWatch(db, m, token),
                      WatchOf(m), token, {WatchOf(m)})
  {
    if OwnsWatch(db, m, token) {
      var db' := FailWatch(cfg, db, m, token, code, at);
      MailboxRewritten(cfg, db, db', m, db'.mailboxes[m], db.nextToken, WatchOf(m));
    }
  }
}
