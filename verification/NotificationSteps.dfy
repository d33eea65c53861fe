// Every step of the protocol keeps the invariant.

module NotificationSteps {
  import opened Common
  import opened NotificationRows
  import opened HistoryScan
  import opened NotificationProtocol
  import opened NotificationTransactions
  import opened NotificationLeases
  import opened NotificationInvariant

  // ---------- Transactions that move no cursor ----------

  // Every cursor stays, no job succeeds, no triage row appears or becomes terminal, and none that is
  // not terminal disappears.
  predicate QuietTables(db: Tables, db': Tables) {
    && (forall m <- db.mailboxes :: m in db'.mailboxes)
    && (forall m <- db'.mailboxes ::
          db'.mailboxes[m].historyCursor == if m in db.mailboxes then db.mailboxes[m].historyCursor else Option.None)
    && (forall id <- db'.jobs ::
          && id in db.jobs && db'.jobs[id].mailbox == db.jobs[id].mailbox
          && db'.jobs[id].historyId == db.jobs[id].historyId
          && (db'.jobs[id].state.JobSucceeded? ==> db.jobs[id].state.JobSucceeded?))
    && (forall key <- db'.triage :: key in db.triage && (db'.triage[key].Terminal() ==> db.triage[key].Terminal()))
    && (forall key <- db.triage :: key in db'.triage || db.triage[key].Terminal())
  }

  lemma QuietAdvances(s: Sys, s': Sys, touched: set<Resource>)
    requires Kept(s.cfg, s.db, s'.db, touched) && QuietTables(s.db, s'.db)
    requires s'.cfg == s.cfg && s'.clock == s.clock && s'.providers == s.providers
    requires s'.recorded == s.recorded && s'.settled == s.settled && s'.missed == s.missed
    ensures Advances(s, s')
  {
  }

  lemma QuietTablesWorld(s: Sys, s': Sys)
    requires WorldOk(s) && Advances(s, s') && QuietTables(s.db, s'.db)
    requires s'.providers == s.providers && s'.baselines == s.baselines
    requires s'.recorded == s.recorded && s'.settled == s.settled && s'.missed == s.missed
    ensures WorldOk(s')
  {
    QuietWorld(s, s');
  }

  // ---------- Shapes of steps ----------

  // The worker ran a transaction that ends the lease `token` if it still holds it.
  function EndAndGo(s: Sys, w: WorkerId, owned: bool, token: Token, db': Tables, pc: Pc): Sys {
    s.EndingIf(owned, token).(db := db').To(w, pc)
  }

  lemma EndingStep(s: Sys, s': Sys, owned: bool, r: Resource, token: Token, w: WorkerId, touched: set<Resource>)
    requires EndsLease(s.cfg, s.db, s'.db, owned, r, token, touched)
    requires HasGrant(s, w, token, r) && s'.grants == s.EndingIf(owned, token).grants
    requires s'.clock == s.clock
    ensures TablesOk(s.cfg, s'.db)
    ensures LeaseStep(s, s', if owned then EndedBy(token) else NoneTaken)
    ensures forall t <- s.grants :: t != token ==> t in s'.grants && s'.grants[t] == s.grants[t]
  {
  }

  lemma EndAndGoAdvances(s: Sys, w: WorkerId, owned: bool, r: Resource, token: Token, touched: set<Resource>,
                         db': Tables, pc: Pc)
    requires HasGrant(s, w, token, r) && EndsLease(s.cfg, s.db, db', owned, r, token, touched) && QuietTables(s.db, db')
    ensures var s' := EndAndGo(s, w, owned, token, db', pc);
            && Advances(s, s')
            && LeaseStep(s, s', if owned then EndedBy(token) else NoneTaken)
            && (forall t <- s.grants :: t != token ==> t in s'.grants && s'.grants[t] == s.grants[t])
  {
    var s' := EndAndGo(s, w, owned, token, db', pc);
    QuietAdvances(s, s', touched);
    EndingStep(s, s', owned, r, token, w, touched);
  }

  lemma EndAndGoKeeps(s: Sys, w: WorkerId, owned: bool, r: Resource, token: Token, touched: set<Resource>,
                      db': Tables, pc: Pc)
    requires Inv(s) && HasGrant(s, w, token, r)
    requires EndsLease(s.cfg, s.db, db', owned, r, token, touched) && QuietTables(s.db, db')
    requires WorkerOk(EndAndGo(s, w, owned, token, db', pc), w)
    ensures Inv(EndAndGo(s, w, owned, token, db', pc))
  {
    hide WorldOk, TablesOk, GrantsOk, WorkerOk, QuietTables, LeaseStep;
    var s' := EndAndGo(s, w, owned, token, db', pc);
    EndAndGoAdvances(s, w, owned, r, token, touched, db', pc);
    QuietTablesWorld(s, s');
    StepKeepsInv(s, s', Some(w), if owned then EndedBy(token) else NoneTaken);
  }

  // ... and keeps its job lease.
  lemma JobOutlives(s: Sys, w: WorkerId, job: JobClaim, owned: bool, r: Resource, token: Token,
                    touched: set<Resource>, db': Tables, pc: Pc)
    requires Inv(s) && JobClaimOk(s, w, job) && HasGrant(s, w, token, r) && r != JobRow(job.id)
    requires EndsLease(s.cfg, s.db, db', owned, r, token, touched) && QuietTables(s.db, db')
    ensures JobClaimOk(EndAndGo(s, w, owned, token, db', pc), w, job)
  {
    EndAndGoAdvances(s, w, owned, r, token, touched, db', pc);
    ClaimStays(s, EndAndGo(s, w, owned, token, db', pc), w, job);
  }

  // The worker ran a transaction that granted it a lease.
  function TakeAndGo(s: Sys, w: WorkerId, r: Resource, expiresAt: Time, db': Tables, pc: Pc): Sys {
    s.Granting(w, r, expiresAt).(db := db').To(w, pc)
  }

  lemma TakingStep(s: Sys, s': Sys, w: WorkerId, r: Resource, expiresAt: Time, now: Time, touched: set<Resource>)
    requires GrantsOk(s) && now <= s.clock && Kept(s.cfg, s.db, s'.db, touched)
    requires Taken(s.db, s'.db, r, now, expiresAt) && s'.grants == s.Granting(w, r, expiresAt).grants
    requires s'.clock == s.clock
    requires forall q <- touched :: q != r ==> Holder(s'.db, q) == Holder(s.db, q)
    ensures LeaseStep(s, s', Granted(w, r, expiresAt)) && HasGrant(s', w, s.db.nextToken, r)
    ensures forall t <- s.grants :: t in s'.grants && s'.grants[t] == s.grants[t]
  {
    hide LeasesStep, TablesOk, RowsStep, MailboxesMove, DisjointWindows, StoredTokensAreLatest, LiveLeasesAreStored;
    assert s.db.nextToken !in s.grants;
  }

  lemma TakeAndGoAdvances(s: Sys, w: WorkerId, r: Resource, expiresAt: Time, now: Time, touched: set<Resource>,
                          db': Tables, pc: Pc)
    requires GrantsOk(s) && now <= s.clock && Kept(s.cfg, s.db, db', touched) && QuietTables(s.db, db')
    requires Taken(s.db, db', r, now, expiresAt)
    requires forall q <- touched :: q != r ==> Holder(db', q) == Holder(s.db, q)
    ensures var s' := TakeAndGo(s, w, r, expiresAt, db', pc);
            && Advances(s, s') && LeaseStep(s, s', Granted(w, r, expiresAt)) && HasGrant(s', w, s.db.nextToken, r)
            && (forall t <- s.grants :: t in s'.grants && s'.grants[t] == s.grants[t])
  {
    hide GrantsOk, LeaseStep, HasGrant, Taken, QuietTables;
    var s' := TakeAndGo(s, w, r, expiresAt, db', pc);
    TakingStep(s, s', w, r, expiresAt, now, touched);
    QuietAdvances(s, s', touched);
  }

  lemma TakeAndGoKeeps(s: Sys, w: WorkerId, r: Resource, expiresAt: Time, now: Time, touched: set<Resource>,
                       db': Tables, pc: Pc)
    requires Inv(s) && now <= s.clock && Kept(s.cfg, s.db, db', touched) && QuietTables(s.db, db')
    requires Taken(s.db, db', r, now, expiresAt)
    requires forall q <- touched :: q != r ==> Holder(db', q) == Holder(s.db, q)
    requires WorkerOk(TakeAndGo(s, w, r, expiresAt, db', pc), w)
    ensures Inv(TakeAndGo(s, w, r, expiresAt, db', pc))
  {
    hide WorldOk, TablesOk, GrantsOk, WorkerOk, QuietTables, LeaseStep, Taken;
    var s' := TakeAndGo(s, w, r, expiresAt, db', pc);
    TakeAndGoAdvances(s, w, r, expiresAt, now, touched, db', pc);
    QuietTablesWorld(s, s');
    StepKeepsInv(s, s', Some(w), Granted(w, r, expiresAt));
  }

  // A transaction that at most cleared expired leases.
  lemma LapseKeeps(s: Sys, s': Sys, w: WorkerId, now: Time, touched: set<Resource>)
    requires Inv(s) && now <= s.clock && Kept(s.cfg, s.db, s'.db, touched) && QuietTables(s.db, s'.db)
    requires forall q <- touched :: Holder(s'.db, q) == Holder(s.db, q) || Lapsed(s.db, s'.db, q, now)
    requires s' == s.(db := s'.db, workers := s'.workers) && OnlyMoves(s, s', Some(w))
    requires WorkerOk(s', w)
    ensures Inv(s')
  {
    hide WorldOk, TablesOk, GrantsOk, WorkerOk, QuietTables, LeasesStep, RowsStep, MailboxesMove;
    QuietAdvances(s, s', touched);
    QuietTablesWorld(s, s');
    StepKeepsInv(s, s', Some(w), NoneTaken);
  }

  // ---------- Jobs ----------

  lemma RowsQuiet(db: Tables, db': Tables, id: JobId, job': Job, m: Email, row: Mailbox)
    requires id in db.jobs && m in db.mailboxes
    requires db'.jobs == db.jobs[id := job'] && db'.mailboxes == db.mailboxes[m := row] && db'.triage == db.triage
    requires job'.mailbox == db.jobs[id].mailbox && job'.historyId == db.jobs[id].historyId && !job'.state.JobSucceeded?
    requires row.historyCursor == db.mailboxes[m].historyCursor
    ensures QuietTables(db, db')
  {
  }

  lemma FailRowsQuiet(cfg: Config, row: Job, mailbox: Mailbox, job: JobClaim, code: ErrorCode, deadLetter: bool,
                      requireResync: bool, now: Time, at: Time)
    ensures var (job', mailbox') := FailRows(cfg, row, mailbox, job, code, deadLetter, requireResync, now, at);
            && job'.mailbox == row.mailbox && job'.historyId == row.historyId && !job'.state.JobSucceeded?
            && mailbox'.historyCursor == mailbox.historyCursor
  {
    hide RetryAt;
  }

  lemma FailJobQuiet(cfg: Config, db: Tables, job: JobClaim, code: ErrorCode, deadLetter: bool, requireResync: bool,
                     now: Time, at: Time)
    requires job.mailbox in db.mailboxes
    ensures QuietTables(db, FailJob(cfg, db, job, code, deadLetter, requireResync, now, at))
  {
    hide FailRows;
    var db' := FailJob(cfg, db, job, code, deadLetter, requireResync, now, at);
    if OwnsJob(db, job) {
      FailRowsQuiet(cfg, db.jobs[job.id], db.mailboxes[job.mailbox], job, code, deadLetter, requireResync, now, at);
      assert db'.mailboxes == db.mailboxes[job.mailbox := db'.mailboxes[job.mailbox]];
      RowsQuiet(db, db', job.id, db'.jobs[job.id], job.mailbox, db'.mailboxes[job.mailbox]);
    }
  }

  lemma FailStepKeeps(s: Sys, w: WorkerId, job: JobClaim, code: ErrorCode, deadLetter: bool, requireResync: bool,
                      now: Time, at: Time)
    requires Inv(s) && JobClaimOk(s, w, job)
    ensures Inv(FailStep(s, w, job, code, deadLetter, requireResync, now, at))
  {
    hide WorldOk, GrantsOk, QuietTables, EndsLease, FailJob, TablesOk;
    FailJobKept(s.cfg, s.db, job, code, deadLetter, requireResync, now, at);
    FailJobQuiet(s.cfg, s.db, job, code, deadLetter, requireResync, now, at);
    EndAndGoKeeps(s, w, OwnsJob(s.db, job), JobRow(job.id), job.token, {JobRow(job.id), RecoveryOf(job.mailbox)},
                  FailJob(s.cfg, s.db, job, code, deadLetter, requireResync, now, at), Resting);
  }

  lemma JobQuiet(db: Tables, db': Tables, id: JobId, job': Job)
    requires id in db.jobs
    requires db' == db.(jobs := db.jobs[id := job'])
    requires job'.mailbox == db.jobs[id].mailbox && job'.historyId == db.jobs[id].historyId && !job'.state.JobSucceeded?
    ensures QuietTables(db, db')
  {
  }

  lemma DeadLetterStepKeeps(s: Sys, w: WorkerId, job: JobClaim, code: ErrorCode, at: Time)
    requires Inv(s) && JobClaimOk(s, w, job)
    ensures Inv(EndAndGo(s, w, OwnsJob(s.db, job), job.token, DeadLetterJob(s.db, job, code, at), Resting))
  {
    hide WorldOk, GrantsOk, QuietTables, EndsLease, TablesOk;
    var db' := DeadLetterJob(s.db, job, code, at);
    DeadLetterJobKept(s.cfg, s.db, job, code, at);
    if OwnsJob(s.db, job) {
      JobQuiet(s.db, db', job.id, db'.jobs[job.id]);
    } else {
      SameQuiet(s.db);
    }
    EndAndGoKeeps(s, w, OwnsJob(s.db, job), JobRow(job.id), job.token, {JobRow(job.id)}, db', Resting);
  }

  lemma SameQuiet(db: Tables)
    ensures QuietTables(db, db)
  {
  }

  lemma RequeueStepKeeps(s: Sys, w: WorkerId, job: JobClaim, code: ErrorCode, next: Option<Time>, at: Time)
    requires Inv(s) && JobClaimOk(s, w, job)
    ensures Inv(EndAndGo(s, w, OwnsJob(s.db, job), job.token, RequeueJob(s.cfg, s.db, job, code, next, at), Resting))
  {
    hide WorldOk, GrantsOk, QuietTables, EndsLease, TablesOk;
    var db' := RequeueJob(s.cfg, s.db, job, code, next, at);
    RequeueJobKept(s.cfg, s.db, job, code, next, at);
    if OwnsJob(s.db, job) {
      JobQuiet(s.db, db', job.id, db'.jobs[job.id]);
    } else {
      SameQuiet(s.db);
    }
    EndAndGoKeeps(s, w, OwnsJob(s.db, job), JobRow(job.id), job.token, {JobRow(job.id)}, db', Resting);
  }

  lemma ClaimJobQuiet(cfg: ValidConfig, db: Tables, id: JobId, now: Time, at: Time)
    requires id in db.jobs && db.jobs[id].mailbox in db.mailboxes && !db.jobs[id].Terminal()
    ensures QuietTables(db, ClaimJob(cfg, db, id, now, at).0)
  {
    var db' := ClaimJob(cfg, db, id, now, at).0;
    var m := db.jobs[id].mailbox;
    assert db'.mailboxes == db.mailboxes[m := db'.mailboxes[m]];
    RowsQuiet(db, db', id, db'.jobs[id], m, db'.mailboxes[m]);
  }

  lemma JobGranted(s: Sys, w: WorkerId, owner: UserId, id: JobId, now: Time, at: Time)
    requires Inv(s) && Enabled(s, LeaseJob(w, owner, id, now, at)) && ClaimJob(s.cfg, s.db, id, now, at).1.Some?
    ensures var (db', claim) := ClaimJob(s.cfg, s.db, id, now, at);
            Inv(TakeAndGo(s, w, JobRow(id), now + s.cfg.leaseSeconds, db', Claimed(claim.value)))
  {
    hide GrantsOk, QuietTables, TablesOk, ProvidersOk, MailboxCovered, Kept, Taken, ClaimJob, Advances, LeaseStep,
         WorkerOk;
    assert JobReached(s, s.db.jobs[id]);
    var (db', claim) := ClaimJob(s.cfg, s.db, id, now, at);
    ClaimJobKept(s.cfg, s.db, owner, id, now, at);
    ClaimJobQuiet(s.cfg, s.db, id, now, at);
    var touched := {JobRow(id), RecoveryOf(s.db.jobs[id].mailbox)};
    var expiresAt := now + s.cfg.leaseSeconds;
    TakeAndGoAdvances(s, w, JobRow(id), expiresAt, now, touched, db', Claimed(claim.value));
    ClaimedJobOk(s, TakeAndGo(s, w, JobRow(id), expiresAt, db', Claimed(claim.value)), w, id, now, at);
    TakeAndGoKeeps(s, w, JobRow(id), expiresAt, now, touched, db', Claimed(claim.value));
  }

  lemma LeaseJobKeeps(s: Sys, w: WorkerId, owner: UserId, id: JobId, now: Time, at: Time)
    requires Inv(s) && Enabled(s, LeaseJob(w, owner, id, now, at))
    ensures Inv(Act(s, LeaseJob(w, owner, id, now, at)))
  {
    hide GrantsOk, QuietTables, TablesOk, ProvidersOk, MailboxCovered, Act, Kept, ClaimJob, Lapsed, WorkerOk;
    var (db', claim) := ClaimJob(s.cfg, s.db, id, now, at);
    LeaseJobAct(s, w, owner, id, now, at);
    if claim.None? {
      ClaimJobKept(s.cfg, s.db, owner, id, now, at);
      ClaimJobQuiet(s.cfg, s.db, id, now, at);
      WorkerRests(s, s.(db := db'), w);
      LapseKeeps(s, s.(db := db'), w, now, {JobRow(id), RecoveryOf(s.db.jobs[id].mailbox)});
    } else {
      JobGranted(s, w, owner, id, now, at);
    }
  }

  lemma WorkerRests(s: Sys, s': Sys, w: WorkerId)
    requires s.PcOf(w).Resting? && s'.PcOf(w) == s.PcOf(w)
    ensures WorkerOk(s', w)
  {
  }

  lemma ClaimedJobOk(s: Sys, s': Sys, w: WorkerId, id: JobId, now: Time, at: Time)
    requires TablesOk(s.cfg, s.db) && id in s.db.jobs && JobReached(s, s.db.jobs[id])
    requires s.db.jobs[id].mailbox in s.db.mailboxes
    requires var (db', claim) := ClaimJob(s.cfg, s.db, id, now, at);
             && claim.Some? && s'.db == db' && s'.PcOf(w) == Claimed(claim.value)
             && s'.providers == s.providers && HasGrant(s', w, s.db.nextToken, JobRow(id))
    ensures WorkerOk(s', w)
  {
    hide HasGrant, ProvidersOk;
    assert JobOk(s.db, s.db.jobs[id]);
  }

  lemma LeaseJobAct(s: Sys, w: WorkerId, owner: UserId, id: JobId, now: Time, at: Time)
    requires Enabled(s, LeaseJob(w, owner, id, now, at))
    ensures var (db', claim) := ClaimJob(s.cfg, s.db, id, now, at);
            Act(s, LeaseJob(w, owner, id, now, at)) ==
            if claim.None? then s.(db := db')
            else TakeAndGo(s, w, JobRow(id), now + s.cfg.leaseSeconds, db', Claimed(claim.value))
  {
  }

  // ---------- The history cursor advances ----------

  lemma CursorWorld(s: Sys, s': Sys, m: Email, upTo: int)
    requires WorldOk(s) && Advances(s, s')
    requires s'.providers == s.providers && s'.baselines == s.baselines && s'.db.triage == s.db.triage
    requires s'.recorded == s.recorded && s'.settled == s.settled && s'.missed == s.missed
    requires m in s.db.mailboxes && s.db.mailboxes[m].historyCursor.Some?
    requires upTo <= s.ProviderOf(m).head && Covered(s, m, s.db.mailboxes[m].historyCursor.value, upTo)
    requires s'.db.mailboxes.Keys == s.db.mailboxes.Keys
    requires forall n <- s.db.mailboxes :: n != m ==> s'.db.mailboxes[n].historyCursor == s.db.mailboxes[n].historyCursor
    requires s'.db.mailboxes[m].historyCursor == Some(Max(s.db.mailboxes[m].historyCursor.value, upTo))
    requires forall id <- s'.db.jobs :: id in s.db.jobs
               && s'.db.jobs[id].mailbox == s.db.jobs[id].mailbox && s'.db.jobs[id].historyId == s.db.jobs[id].historyId
               && (s'.db.jobs[id].state.JobSucceeded? ==>
                     (s.db.jobs[id].state.JobSucceeded?
                      || (s.db.jobs[id].mailbox == m
                          && s.db.jobs[id].historyId <= s'.db.mailboxes[m].historyCursor.value)))
    ensures WorldOk(s')
  {
    forall n <- s'.db.mailboxes ensures MailboxCovered(s', n) {
      assert MailboxCovered(s, n);
    }
    forall id <- s'.db.jobs ensures JobReached(s', s'.db.jobs[id]) {
      assert JobReached(s, s.db.jobs[id]);
    }
  }

  lemma CompleteAdvances(s: Sys, s': Sys, touched: set<Resource>, m: Email, upTo: int)
    requires Kept(s.cfg, s.db, s'.db, touched)
    requires s'.cfg == s.cfg && s'.clock == s.clock && s'.providers == s.providers
    requires s'.recorded == s.recorded && s'.settled == s.settled && s'.missed == s.missed
    requires m in s.db.mailboxes && s.db.mailboxes[m].historyCursor.Some?
    requires forall n <- s.db.mailboxes :: n in s'.db.mailboxes
               && (n != m ==> s'.db.mailboxes[n].historyCursor == s.db.mailboxes[n].historyCursor)
    requires s'.db.mailboxes[m].historyCursor == Some(Max(s.db.mailboxes[m].historyCursor.value, upTo))
    ensures Advances(s, s')
  {
    hide TablesOk, RowsStep;
  }

  // Either the recovery changed meanwhile and no cursor moves, or the cursor reaches `upTo`.
  lemma CompleteJobMoves(cfg: ValidConfig, db: Tables, job: JobClaim, upTo: int, at: Time)
    requires OwnsJob(db, job) && ClaimFits(db, job)
    requires job.mailbox in db.mailboxes && db.mailboxes[job.mailbox].historyCursor.Some?
    ensures var (db', advanced) := CompleteJob(cfg, db, job, upTo, at);
            && db'.triage == db.triage && db'.mailboxes.Keys == db.mailboxes.Keys && db'.jobs.Keys == db.jobs.Keys
            && (forall n <- db.mailboxes :: n != job.mailbox ==> db'.mailboxes[n] == db.mailboxes[n])
            && (forall id <- db.jobs :: id != job.id ==> db'.jobs[id] == db.jobs[id])
            && db'.jobs[job.id].mailbox == job.mailbox && db'.jobs[job.id].historyId == job.historyId
            && (advanced <==> !RecoveryChanged(db.mailboxes[job.mailbox], job))
            && (advanced ==>
                  && db'.mailboxes[job.mailbox].historyCursor == Some(Max(db.mailboxes[job.mailbox].historyCursor.value, upTo))
                  && db'.jobs[job.id].state.JobSucceeded?)
            && (!advanced ==> QuietTables(db, db'))
  {
    var (db', advanced) := CompleteJob(cfg, db, job, upTo, at);
    if !advanced {
      JobQuiet(db, db', job.id, db'.jobs[job.id]);
    }
  }

  // The one place a history cursor advances: everything up to the new cursor is accounted for.
  lemma CompleteStepKeeps(s: Sys, w: WorkerId, job: JobClaim, upTo: int, at: Time)
    requires Inv(s) && JobClaimOk(s, w, job)
    requires job.historyId <= upTo || job.historyId <= s.db.mailboxes[job.mailbox].historyCursor.value
    requires upTo <= s.ProviderOf(job.mailbox).head
    requires Covered(s, job.mailbox, s.db.mailboxes[job.mailbox].historyCursor.value, upTo)
    ensures Inv(CompleteStep(s, w, job, upTo, at))
  {
    hide TablesOk, GrantsOk, WorldOk, WorkerOk, CompleteJob, QuietTables, LeaseStep, Covered, EndsLease;
    var (db', advanced) := CompleteJob(s.cfg, s.db, job, upTo, at);
    var s' := CompleteStep(s, w, job, upTo, at);
    var owned := OwnsJob(s.db, job);
    var touched := {JobRow(job.id), RecoveryOf(job.mailbox)};
    CompleteJobKept(s.cfg, s.db, job, upTo, at);
    if !owned {
      NotOwnedSame(s.cfg, s.db, job, upTo, at);
      SameQuiet(s.db);
      EndAndRestKeeps(s, w, owned, JobRow(job.id), job.token, touched, db');
    } else {
      CompleteJobMoves(s.cfg, s.db, job, upTo, at);
      if advanced {
        CompletingKeeps(s, w, job, upTo, db', touched);
      } else {
        EndAndRestKeeps(s, w, owned, JobRow(job.id), job.token, touched, db');
      }
    }
  }

  lemma NotOwnedSame(cfg: ValidConfig, db: Tables, job: JobClaim, upTo: int, at: Time)
    requires !OwnsJob(db, job)
    ensures CompleteJob(cfg, db, job, upTo, at) == (db, false)
  {
  }

  lemma EndAndRestKeeps(s: Sys, w: WorkerId, owned: bool, r: Resource, token: Token, touched: set<Resource>,
                        db': Tables)
    requires Inv(s) && HasGrant(s, w, token, r)
    requires EndsLease(s.cfg, s.db, db', owned, r, token, touched) && QuietTables(s.db, db')
    ensures Inv(EndAndGo(s, w, owned, token, db', Resting))
  {
    hide WorldOk, TablesOk, GrantsOk, QuietTables, EndsLease, HasGrant;
    EndAndGoKeeps(s, w, owned, r, token, touched, db', Resting);
  }

  lemma CompletingKeeps(s: Sys, w: WorkerId, job: JobClaim, upTo: int, db': Tables, touched: set<Resource>)
    requires Inv(s) && JobClaimOk(s, w, job)
    requires job.historyId <= upTo || job.historyId <= s.db.mailboxes[job.mailbox].historyCursor.value
    requires upTo <= s.ProviderOf(job.mailbox).head
    requires Covered(s, job.mailbox, s.db.mailboxes[job.mailbox].historyCursor.value, upTo)
    requires EndsLease(s.cfg, s.db, db', true, JobRow(job.id), job.token, touched)
    requires db'.triage == s.db.triage && db'.mailboxes.Keys == s.db.mailboxes.Keys && db'.jobs.Keys == s.db.jobs.Keys
    requires forall n <- s.db.mailboxes :: n != job.mailbox ==> db'.mailboxes[n] == s.db.mailboxes[n]
    requires forall id <- s.db.jobs :: id != job.id ==> db'.jobs[id] == s.db.jobs[id]
    requires job.id in s.db.jobs && s.db.jobs[job.id].mailbox == job.mailbox
    requires s.db.jobs[job.id].historyId == job.historyId
    requires db'.jobs[job.id].mailbox == job.mailbox && db'.jobs[job.id].historyId == job.historyId
    requires db'.mailboxes[job.mailbox].historyCursor ==
             Some(Max(s.db.mailboxes[job.mailbox].historyCursor.value, upTo))
    ensures Inv(EndAndGo(s, w, true, job.token, db', Resting))
  {
    hide TablesOk, GrantsOk, WorldOk, LeaseStep, Covered, WorkerOk, Advances;
    var s' := EndAndGo(s, w, true, job.token, db', Resting);
    var m := job.mailbox;
    CompleteAdvances(s, s', touched, m, upTo);
    EndingStep(s, s', true, JobRow(job.id), job.token, w, touched);
    CursorWorld(s, s', m, upTo);
    RestingOk(s', w);
    StepKeepsInv(s, s', Some(w), EndedBy(job.token));
  }

  lemma RestingOk(s: Sys, w: WorkerId)
    requires s.PcOf(w).Resting?
    ensures WorkerOk(s, w)
  {
  }

  // ---------- Steps of the environment ----------

  lemma TickKeeps(s: Sys, clock: Time)
    requires Inv(s) && s.clock <= clock
    ensures Inv(s.(clock := clock))
  {
    hide TablesOk, GrantsOk, WorkerOk;
    var s' := s.(clock := clock);
    NothingChanged(s.cfg, s.db, {});
    SameQuiet(s.db);
    QuietTablesWorld(s, s');
    StepKeepsInv(s, s', Option.None, NoneTaken);
  }

  lemma MailboxChangesKeeps(s: Sys, m: Email, message: Option<MessageId>, leaving: set<MessageId>, at: int)
    requires Inv(s) && Enabled(s, MailboxChanges(m, message, leaving, at))
    ensures Inv(Act(s, MailboxChanges(m, message, leaving, at)))
  {
    hide TablesOk, GrantsOk, WorkerOk;
    var s' := Act(s, MailboxChanges(m, message, leaving, at));
    NothingChanged(s.cfg, s.db, {});
    assert forall n: Email :: n != m ==> s'.ProviderOf(n) == s.ProviderOf(n);
    assert Advances(s, s');
    ProviderWorld(s, s');
    StepKeepsInv(s, s', Option.None, NoneTaken);
  }

  // New mail arrives above the current history ID, so nothing claimed so far is about it.
  lemma ProviderWorld(s: Sys, s': Sys)
    requires WorldOk(s) && Advances(s, s') && ProvidersOk(s')
    requires s' == s.(providers := s'.providers)
    ensures WorldOk(s')
  {
    forall n <- s'.db.mailboxes ensures MailboxCovered(s', n) {
      assert MailboxCovered(s, n);
      assert ProviderAdvances(s.ProviderOf(n), s'.ProviderOf(n));
    }
    forall id <- s'.db.jobs ensures JobReached(s', s'.db.jobs[id]) {
      assert JobReached(s, s.db.jobs[id]);
      assert ProviderAdvances(s.ProviderOf(s.db.jobs[id].mailbox), s'.ProviderOf(s.db.jobs[id].mailbox));
    }
  }

  lemma PushArrivesKeeps(s: Sys, envelope: Envelope, owner: UserId, configured: Email, newId: JobId, now: Time)
    requires Inv(s) && Enabled(s, PushArrives(envelope, owner, configured, newId, now))
    ensures Inv(s.(db := Enqueue(s.db, envelope, owner, configured, newId, now).0))
  {
    hide TablesOk, GrantsOk, WorkerOk;
    var (db', outcome) := Enqueue(s.db, envelope, owner, configured, newId, now);
    var s' := s.(db := db');
    EnqueueKept(s.cfg, s.db, envelope, owner, configured, newId, now);
    assert db'.mailboxes == s.db.mailboxes;
    hide Enqueue;
    EnqueueStep(s, s');
    hide Advances, LeaseStep, Kept, WorldOk;
    EnqueueWorld(s, envelope, owner, configured, newId, now);
    StepKeepsInv(s, s', Option.None, NoneTaken);
  }

  lemma EnqueueStep(s: Sys, s': Sys)
    requires Kept(s.cfg, s.db, s'.db, {}) && s' == s.(db := s'.db) && s'.db.mailboxes == s.db.mailboxes
    ensures Advances(s, s') && LeaseStep(s, s', NoneTaken)
    ensures TablesOk(s'.cfg, s'.db)
  {
    hide TablesOk, RowsStep;
  }

  lemma EnqueueWorld(s: Sys, envelope: Envelope, owner: UserId, configured: Email, newId: JobId, now: Time)
    requires WorldOk(s) && envelope.historyId <= s.ProviderOf(envelope.mailbox).head
    ensures WorldOk(s.(db := Enqueue(s.db, envelope, owner, configured, newId, now).0))
  {
    var s' := s.(db := Enqueue(s.db, envelope, owner, configured, newId, now).0);
    forall m <- s'.db.mailboxes ensures MailboxCovered(s', m) {
      assert MailboxCovered(s, m);
    }
    forall id <- s'.db.jobs ensures JobReached(s', s'.db.jobs[id]) {
      if id in s.db.jobs && s'.db.jobs[id] == s.db.jobs[id] {
        assert JobReached(s, s.db.jobs[id]);
      }
    }
  }

  lemma PruneKeeps(s: Sys, jobsCutoff: Time, triageCutoff: Time)
    requires Inv(s)
    ensures Inv(s.(db := PruneQueue(s.db, jobsCutoff, triageCutoff)))
  {
    hide TablesOk, GrantsOk, WorkerOk, WorldOk;
    var s' := s.(db := PruneQueue(s.db, jobsCutoff, triageCutoff));
    PruneKept(s.cfg, s.db, jobsCutoff, triageCutoff);
    PruneQuiet(s.db, jobsCutoff, triageCutoff);
    QuietAdvances(s, s', {});
    QuietTablesWorld(s, s');
    StepKeepsInv(s, s', Option.None, NoneTaken);
  }

  lemma PruneQuiet(db: Tables, jobsCutoff: Time, triageCutoff: Time)
    ensures QuietTables(db, PruneQueue(db, jobsCutoff, triageCutoff))
  {
  }

  // ---------- The watch ----------

  lemma WatchQuiet(db: Tables, db': Tables, m: Email)
    requires m in db'.mailboxes && db' == db.(mailboxes := db.mailboxes[m := db'.mailboxes[m]],
                                              nextToken := db'.nextToken)
    requires db'.mailboxes[m].historyCursor == if m in db.mailboxes then db.mailboxes[m].historyCursor else Option.None
    ensures QuietTables(db, db')
  {
  }

  lemma LeaseWatchKeeps(s: Sys, w: WorkerId, m: Email, owner: UserId, now: Time)
    requires Inv(s) && Enabled(s, LeaseWatch(w, m, owner, now))
    ensures Inv(Act(s, LeaseWatch(w, m, owner, now)))
  {
    hide TablesOk, GrantsOk, WorldOk, Kept, Taken, QuietTables;
    var (db', token) := ClaimWatch(s.cfg, s.db, m, owner, now);
    ClaimWatchKept(s.cfg, s.db, m, owner, now);
    if token.Some? {
      WatchQuiet(s.db, db', m);
      var expiresAt := now + s.cfg.leaseSeconds;
      TakeAndGoAdvances(s, w, WatchOf(m), expiresAt, now, {WatchOf(m)}, db', WatchLeased(m, token.value));
      TakeAndGoKeeps(s, w, WatchOf(m), expiresAt, now, {WatchOf(m)}, db', WatchLeased(m, token.value));
    }
  }

  lemma AbandonWatchKeeps(s: Sys, w: WorkerId, code: ErrorCode, at: Time)
    requires Inv(s) && Enabled(s, AbandonWatch(w, code, at))
    ensures Inv(Act(s, AbandonWatch(w, code, at)))
  {
    hide TablesOk, GrantsOk, WorldOk, Kept, QuietTables, EndsLease;
    assert WorkerOk(s, w);
    var m, token := s.PcOf(w).mailbox, s.PcOf(w).token;
    var db' := FailWatch(s.cfg, s.db, m, token, code, at);
    FailWatchKept(s.cfg, s.db, m, token, code, at);
    if OwnsWatch(s.db, m, token) {
      WatchQuiet(s.db, db', m);
    } else {
      SameQuiet(s.db);
    }
    EndAndRestKeeps(s, w, OwnsWatch(s.db, m, token), WatchOf(m), token, {WatchOf(m)}, db');
  }

  // The first watch ID becomes the baseline of the coverage claim.
  lemma RenewWatchKeeps(s: Sys, w: WorkerId, historyId: int, expiresAt: Time)
    requires Inv(s) && Enabled(s, RenewWatch(w, historyId, expiresAt))
    ensures Inv(RenewWatchStep(s, w, historyId, expiresAt))
  {
    hide TablesOk, GrantsOk, WorldOk, Covered, LeaseStep, EndsLease;
    assert WorkerOk(s, w);
    var m, token := s.PcOf(w).mailbox, s.PcOf(w).token;
    var s' := RenewWatchStep(s, w, historyId, expiresAt);
    var owned := OwnsWatch(s.db, m, token);
    CompleteWatchKept(s.cfg, s.db, m, token, historyId, expiresAt);
    EndingStep(s, s', owned, WatchOf(m), token, w, {WatchOf(m)});
    RenewAdvances(s, s', m, token, historyId, expiresAt);
    RenewWorld(s, s', m, token, historyId, expiresAt);
    RestingOk(s', w);
    hide WorkerOk;
    StepKeepsInv(s, s', Some(w), if owned then EndedBy(token) else NoneTaken);
  }

  lemma RenewAdvances(s: Sys, s': Sys, m: Email, token: Token, historyId: int, expiresAt: Time)
    requires TablesOk(s.cfg, s.db)
    requires EndsLease(s.cfg, s.db, s'.db, OwnsWatch(s.db, m, token), WatchOf(m), token, {WatchOf(m)})
    requires s' == s.(db := s'.db, workers := s'.workers, grants := s'.grants, baselines := s'.baselines)
    requires s'.db == CompleteWatch(s.db, m, token, historyId, expiresAt).0
    ensures Advances(s, s')
  {
    hide RowsStep;
  }

  lemma RenewWorld(s: Sys, s': Sys, m: Email, token: Token, historyId: int, expiresAt: Time)
    requires WorldOk(s) && TablesOk(s.cfg, s.db) && Advances(s, s')
    requires historyId <= s.ProviderOf(m).head
    requires s' == s.(db := s'.db, workers := s'.workers, grants := s'.grants, baselines := s'.baselines)
    requires s'.db == CompleteWatch(s.db, m, token, historyId, expiresAt).0
    requires s'.baselines == if OwnsWatch(s.db, m, token) && NoBaseline(s.db.mailboxes[m].historyCursor)
                             then s.baselines[m := historyId] else s.baselines
    ensures WorldOk(s')
  {
    hide LeasesStep;
    forall n <- s'.db.mailboxes ensures MailboxCovered(s', n) {
      assert MailboxCovered(s, n) && MailboxOk(s.cfg, s.db.mailboxes[n], s.db.nextToken);
    }
    forall id <- s'.db.jobs ensures JobReached(s', s'.db.jobs[id]) {
      assert JobReached(s, s.db.jobs[id]);
    }
  }

  // ---------- Triage ----------

  // The worker moves within its triage loop and keeps its claims.
  lemma LoopMoves(s: Sys, s': Sys, w: WorkerId, job: JobClaim, purpose: Purpose, todo: seq<MessageId>,
                  done: set<MessageId>)
    requires TablesOk(s.cfg, s.db) && TablesOk(s'.cfg, s'.db) && Advances(s, s')
    requires TriageLoopOk(s, w, job, purpose, todo, done)
    requires forall t <- s.grants :: s.grants[t].resource == JobRow(job.id) || s.grants[t].resource.RecoveryOf? ==>
               t in s'.grants && s'.grants[t] == s.grants[t]
    ensures TriageLoopOk(s', w, job, purpose, todo, done)
  {
    hide TablesOk, ScanOk, ClaimFits, LeasesStep;
    TriageLoopStays(s, s', w, job, purpose, todo, done);
  }

  // One more message is seen.
  lemma LoopProceeds(s: Sys, w: WorkerId, job: JobClaim, purpose: Purpose, todo: seq<MessageId>, done: set<MessageId>)
    requires TriageLoopOk(s, w, job, purpose, todo, done) && todo != [] && Seen(s, job.mailbox, todo[0])
    ensures TriageLoopOk(s, w, job, purpose, todo[1..], done + {todo[0]})
  {
    assert todo == [todo[0]] + todo[1..];
  }

  lemma StuckOk(s: Sys, w: WorkerId, job: JobClaim, purpose: Purpose, todo: seq<MessageId>, done: set<MessageId>)
    requires TriageLoopOk(s, w, job, purpose, todo, done) && s.PcOf(w) == Stuck(job, purpose)
    ensures WorkerOk(s, w)
  {
  }

  lemma TriageWorld(s: Sys, s': Sys, key: TriageKey)
    requires WorldOk(s) && Advances(s, s')
    requires s'.providers == s.providers && s'.baselines == s.baselines
    requires s'.db == s.db.(triage := s'.db.triage, nextToken := s'.db.nextToken)
    requires key in s'.db.triage && s'.db.triage == s.db.triage[key := s'.db.triage[key]]
    requires key in s'.recorded && s'.recorded <= s.recorded + {key}
    requires s'.db.triage[key].Terminal() ==> key in s'.settled
    ensures WorldOk(s')
  {
    forall m <- s'.db.mailboxes ensures MailboxCovered(s', m) {
      assert MailboxCovered(s, m);
    }
    forall id <- s'.db.jobs ensures JobReached(s', s'.db.jobs[id]) {
      assert JobReached(s, s.db.jobs[id]);
    }
  }

  lemma TriageAdvances(s: Sys, s': Sys, touched: set<Resource>)
    requires Kept(s.cfg, s.db, s'.db, touched)
    requires s'.cfg == s.cfg && s'.clock == s.clock && s'.providers == s.providers && s'.db.mailboxes == s.db.mailboxes
    requires s.recorded <= s'.recorded && s.settled <= s'.settled && s.missed <= s'.missed
    ensures Advances(s, s')
  {
    hide TablesOk, RowsStep;
  }

  lemma ClaimedRow(cfg: ValidConfig, db: Tables, key: TriageKey, source: int, now: Time)
    requires ClaimTriage(cfg, db, key, source, now).1.Some?
    ensures var (db', claim) := ClaimTriage(cfg, db, key, source, now);
            && claim.value == TriageClaim(key, db.nextToken) && key in db'.triage && !db'.triage[key].Terminal()
            && db' == db.(triage := db.triage[key := db'.triage[key]], nextToken := db'.nextToken)
  {
  }

  lemma LeaseTriageKeeps(s: Sys, w: WorkerId, now: Time)
    requires Inv(s) && Enabled(s, LeaseTriage(w, now))
    ensures Inv(LeaseTriageStep(s, w, now))
  {
    hide TablesOk, GrantsOk, WorldOk, TriageLoopOk, LeaseStep, Kept, Taken, ClaimTriage;
    assert WorkerOk(s, w);
    var pc := s.PcOf(w);
    var key := (pc.job.mailbox, pc.todo[0]);
    var s' := LeaseTriageStep(s, w, now);
    var (db', claim) := ClaimTriage(s.cfg, s.db, key, Source(pc.purpose), now);
    ClaimTriageKept(s.cfg, s.db, key, Source(pc.purpose), now);
    if claim.None? {
      RecordedRow(s, key);
      ProbingOk(s, s', w, pc);
      IdleStep(s, s', w);
    } else {
      ClaimedRow(s.cfg, s.db, key, Source(pc.purpose), now);
      TriageGranted(s, s', w, pc, key, now, claim.value);
    }
  }

  lemma TriageGranted(s: Sys, s': Sys, w: WorkerId, pc: Pc, key: TriageKey, now: Time, claim: TriageClaim)
    requires Inv(s) && now <= s.clock && pc == s.PcOf(w) && pc.Triaging? && pc.todo != []
    requires key == (pc.job.mailbox, pc.todo[0]) && claim == TriageClaim(key, s.db.nextToken)
    requires key in s'.db.triage
    requires s'.db == s.db.(triage := s.db.triage[key := s'.db.triage[key]], nextToken := s'.db.nextToken)
    requires !s'.db.triage[key].Terminal()
    requires Kept(s.cfg, s.db, s'.db, {TriageRow(key)})
    requires Taken(s.db, s'.db, TriageRow(key), now, now + s.cfg.leaseSeconds)
    requires s' == s.Granting(w, TriageRow(key), now + s.cfg.leaseSeconds)
                   .(db := s'.db, recorded := s.recorded + {key})
                   .To(w, InTriage(pc.job, pc.purpose, pc.todo, pc.done, claim))
    ensures Inv(s')
  {
    hide TablesOk, GrantsOk, WorldOk, TriageLoopOk, LeaseStep, Kept, Taken;
    assert WorkerOk(s, w);
    var expiresAt := now + s.cfg.leaseSeconds;
    TriageKeptTables(s.cfg, s.db, s'.db, key);
    TriageAdvances(s, s', {TriageRow(key)});
    TakingStep(s, s', w, TriageRow(key), expiresAt, now, {TriageRow(key)});
    TriageWorld(s, s', key);
    LoopMoves(s, s', w, pc.job, pc.purpose, pc.todo, pc.done);
    assert WorkerOk(s', w);
    hide WorkerOk;
    StepKeepsInv(s, s', Some(w), Granted(w, TriageRow(key), expiresAt));
  }

  lemma TriageKeptTables(cfg: Config, db: Tables, db': Tables, key: TriageKey)
    requires Kept(cfg, db, db', {TriageRow(key)})
    ensures TablesOk(cfg, db')
  {
  }

  lemma RecordedRow(s: Sys, key: TriageKey)
    requires WorldOk(s) && key in s.db.triage
    ensures key in s.recorded
  {
  }

  lemma ProbingOk(s: Sys, s': Sys, w: WorkerId, pc: Pc)
    requires TablesOk(s.cfg, s.db) && pc.Triaging? && TriageLoopOk(s, w, pc.job, pc.purpose, pc.todo, pc.done)
    requires pc.todo != [] && (pc.job.mailbox, pc.todo[0]) in s.recorded
    requires s' == s.To(w, Probing(pc.job, pc.purpose, pc.todo, pc.done))
    ensures WorkerOk(s', w)
  {
    hide TriageLoopOk;
    LoopUnmoved(s, s', w, pc.job, pc.purpose, pc.todo, pc.done);
  }

  // A step that only moves program counters changes no one's knowledge.
  lemma LoopUnmoved(s: Sys, s': Sys, w: WorkerId, job: JobClaim, purpose: Purpose, todo: seq<MessageId>,
                    done: set<MessageId>)
    requires TriageLoopOk(s, w, job, purpose, todo, done)
    requires s' == s.(workers := s'.workers)
    ensures TriageLoopOk(s', w, job, purpose, todo, done)
  {
    assert s'.ProviderOf(job.mailbox) == s.ProviderOf(job.mailbox);
  }

  lemma ProbedOk(s: Sys, w: WorkerId)
    requires WorldOk(s) && WorkerOk(s, w) && Enabled(s, ProbeTriage(w))
    ensures WorkerOk(ProbeTriageStep(s, w), w)
  {
    hide TablesOk, TriageLoopOk, ProvidersOk, MailboxCovered, JobReached;
    var pc := s.PcOf(w);
    var s' := ProbeTriageStep(s, w);
    LoopUnmoved(s, s', w, pc.job, pc.purpose, pc.todo, pc.done);
    if TriageIsTerminal(s.db, (pc.job.mailbox, pc.todo[0])) {
      LoopProceeds(s', w, pc.job, pc.purpose, pc.todo, pc.done);
    } else {
      StuckOk(s', w, pc.job, pc.purpose, pc.todo, pc.done);
    }
  }

  lemma ProbeTriageKeeps(s: Sys, w: WorkerId)
    requires Inv(s) && Enabled(s, ProbeTriage(w))
    ensures Inv(ProbeTriageStep(s, w))
  {
    hide TablesOk, GrantsOk, WorldOk, WorkerOk;
    ProbedOk(s, w);
    IdleStep(s, ProbeTriageStep(s, w), w);
  }

  // Finalizing within the lease finds the row still held, and settles the message.
  lemma FinalizedInTime(s: Sys, w: WorkerId, claim: TriageClaim)
    requires LiveLeasesAreStored(s) && HasGrant(s, w, claim.token, TriageRow(claim.key))
    requires s.grants[claim.token].expiresAt > s.clock
    ensures OwnsTriage(s.db, claim)
  {
    assert Holder(s.db, TriageRow(claim.key)) == Some(Lease(claim.token, s.grants[claim.token].expiresAt));
  }

  lemma FinalizeTriageTables(db: Tables, claim: TriageClaim, state: TriageState, summary: Option<string>,
                             code: Option<ErrorCode>, at: Time)
    requires OwnsTriage(db, claim) && !state.TriageProcessing?
    ensures var db' := FinalizeTriage(db, claim, state, summary, code, at);
            && claim.key in db'.triage && db' == db.(triage := db.triage[claim.key := db'.triage[claim.key]])
            && db'.triage[claim.key].Terminal()
  {
  }

  // A recorded row that is gone was terminal.
  lemma LostRow(s: Sys, key: TriageKey)
    requires WorldOk(s) && key in s.recorded
    ensures key in s.settled || Unfinished(s.db, key)
  {
  }

  lemma SettledWorld(s: Sys, w: WorkerId, state: TriageState, summary: Option<string>, error: Option<ErrorCode>,
                     at: Time)
    requires Inv(s) && Enabled(s, SettleTriage(w, state, summary, error, at))
    ensures var s' := SettleTriageStep(s, w, state, summary, error, at);
            Advances(s, s') && WorldOk(s') && Seen(s', s.PcOf(w).job.mailbox, s.PcOf(w).todo[0])
  {
    hide TablesOk, GrantsOk, WorldOk, TriageLoopOk, FinalizeTriage, Advances;
    assert WorkerOk(s, w);
    var pc := s.PcOf(w);
    var s' := SettleTriageStep(s, w, state, summary, error, at);
    var owned := OwnsTriage(s.db, pc.triage);
    FinalizeTriageKept(s.cfg, s.db, pc.triage, state, summary, error, at);
    hide EndsLease;
    if owned {
      FinalizeTriageTables(s.db, pc.triage, state, summary, error, at);
      SettleAdvances(s, s', owned, pc.triage.key, pc.triage.token);
      TriageWorld(s, s', pc.triage.key);
    } else {
      NotOwnedTriage(s.db, pc.triage, state, summary, error, at);
      SettleAdvances(s, s', owned, pc.triage.key, pc.triage.token);
      HistoryWorld(s, s');
      LostRow(s, pc.triage.key);
    }
  }

  lemma SettledOk(s: Sys, w: WorkerId, state: TriageState, summary: Option<string>, error: Option<ErrorCode>, at: Time)
    requires TablesOk(s.cfg, s.db) && WorkerOk(s, w) && Enabled(s, SettleTriage(w, state, summary, error, at))
    requires var s' := SettleTriageStep(s, w, state, summary, error, at);
             && Advances(s, s') && TablesOk(s'.cfg, s'.db)
             && Seen(s', s.PcOf(w).job.mailbox, s.PcOf(w).todo[0])
    ensures WorkerOk(SettleTriageStep(s, w, state, summary, error, at), w)
  {
    hide TablesOk, TriageLoopOk, FinalizeTriage, Advances, Seen;
    var pc := s.PcOf(w);
    var s' := SettleTriageStep(s, w, state, summary, error, at);
    LoopMoves(s, s', w, pc.job, pc.purpose, pc.todo, pc.done);
    LoopProceeds(s', w, pc.job, pc.purpose, pc.todo, pc.done);
  }

  lemma SettledLease(s: Sys, w: WorkerId, state: TriageState, summary: Option<string>, error: Option<ErrorCode>,
                     at: Time)
    requires Inv(s) && Enabled(s, SettleTriage(w, state, summary, error, at))
    ensures var s', pc := SettleTriageStep(s, w, state, summary, error, at), s.PcOf(w);
            && TablesOk(s'.cfg, s'.db) && OnlyMoves(s, s', Some(w))
            && pc.triage.token in s.grants && s.grants[pc.triage.token].holder == w
            && LeaseStep(s, s', if OwnsTriage(s.db, pc.triage) then EndedBy(pc.triage.token) else NoneTaken)
  {
    hide TablesOk, GrantsOk, WorldOk, TriageLoopOk, LeaseStep, EndsLease, FinalizeTriage;
    assert WorkerOk(s, w);
    var claim := s.PcOf(w).triage;
    var s' := SettleTriageStep(s, w, state, summary, error, at);
    FinalizeTriageKept(s.cfg, s.db, claim, state, summary, error, at);
    EndingStep(s, s', OwnsTriage(s.db, claim), TriageRow(claim.key), claim.token, w, {TriageRow(claim.key)});
  }

  lemma SettleTriageKeeps(s: Sys, w: WorkerId, state: TriageState, summary: Option<string>, error: Option<ErrorCode>,
                          at: Time)
    requires Inv(s) && Enabled(s, SettleTriage(w, state, summary, error, at))
    ensures Inv(SettleTriageStep(s, w, state, summary, error, at))
  {
    hide TablesOk, GrantsOk, WorldOk, LeaseStep, Advances, Seen, WorkerOk, SettleTriageStep, OnlyMoves, OwnsTriage;
    SettledLease(s, w, state, summary, error, at);
    SettledWorld(s, w, state, summary, error, at);
    assert WorkerOk(s, w);
    SettledOk(s, w, state, summary, error, at);
    var claim := s.PcOf(w).triage;
    StepKeepsInv(s, SettleTriageStep(s, w, state, summary, error, at), Some(w),
                 if OwnsTriage(s.db, claim) then EndedBy(claim.token) else NoneTaken);
  }

  lemma InTimeSettles(s: Sys, w: WorkerId, claim: TriageClaim)
    requires GrantsOk(s) && HasGrant(s, w, claim.token, TriageRow(claim.key)) && !OwnsTriage(s.db, claim)
    ensures s.grants[claim.token].expiresAt <= s.clock
  {
    hide DisjointWindows, StoredTokensAreLatest;
    if s.grants[claim.token].expiresAt > s.clock {
      FinalizedInTime(s, w, claim);
    }
  }

  lemma NotOwnedTriage(db: Tables, claim: TriageClaim, state: TriageState, summary: Option<string>,
                       code: Option<ErrorCode>, at: Time)
    requires !OwnsTriage(db, claim) && !state.TriageProcessing?
    ensures FinalizeTriage(db, claim, state, summary, code, at) == db
  {
  }

  // Only history variables grow.
  lemma HistoryWorld(s: Sys, s': Sys)
    requires WorldOk(s) && Advances(s, s')
    requires s'.db == s.db && s'.providers == s.providers && s'.baselines == s.baselines
    requires s'.recorded == s.recorded
    ensures WorldOk(s')
  {
    QuietWorld(s, s');
  }

  lemma SettleAdvances(s: Sys, s': Sys, owned: bool, key: TriageKey, token: Token)
    requires EndsLease(s.cfg, s.db, s'.db, owned, TriageRow(key), token, {TriageRow(key)})
    requires s'.cfg == s.cfg && s'.clock == s.clock && s'.providers == s.providers && s'.db.mailboxes == s.db.mailboxes
    requires s.recorded <= s'.recorded && s.settled <= s'.settled && s.missed <= s'.missed
    ensures Advances(s, s')
  {
    hide TablesOk, RowsStep;
    TriageAdvances(s, s', {TriageRow(key)});
  }

  lemma TriageQuiet(db: Tables, db': Tables, key: TriageKey, row: Triage)
    requires key in db.triage && db' == db.(triage := db.triage[key := row]) && !row.Terminal()
    ensures QuietTables(db, db')
  {
  }

  lemma GiveUpTriageKeeps(s: Sys, w: WorkerId, code: ErrorCode, at: Time)
    requires Inv(s) && Enabled(s, GiveUpTriage(w, code, at))
    ensures Inv(Act(s, GiveUpTriage(w, code, at)))
  {
    hide TablesOk, GrantsOk, WorldOk, TriageLoopOk, LeaseStep, EndsLease, QuietTables;
    assert WorkerOk(s, w);
    var pc := s.PcOf(w);
    var claim := pc.triage;
    var owned := OwnsTriage(s.db, claim);
    var db' := ReleaseTriage(s.cfg, s.db, claim, code, at);
    var s' := EndAndGo(s, w, owned, claim.token, db', Stuck(pc.job, pc.purpose));
    ReleaseTriageKept(s.cfg, s.db, claim, code, at);
    if owned {
      TriageQuiet(s.db, db', claim.key, db'.triage[claim.key]);
    } else {
      SameQuiet(s.db);
    }
    EndAndGoAdvances(s, w, owned, TriageRow(claim.key), claim.token, {TriageRow(claim.key)}, db',
                     Stuck(pc.job, pc.purpose));
    EndingStep(s, s', owned, TriageRow(claim.key), claim.token, w, {TriageRow(claim.key)});
    LoopMoves(s, s', w, pc.job, pc.purpose, pc.todo, pc.done);
    StuckOk(s', w, pc.job, pc.purpose, pc.todo, pc.done);
    hide WorkerOk;
    EndAndGoKeeps(s, w, owned, TriageRow(claim.key), claim.token, {TriageRow(claim.key)}, db',
                  Stuck(pc.job, pc.purpose));
  }

  // ---------- Bounded recovery ----------

  lemma RecoveryQuiet(db: Tables, db': Tables, m: Email, row: Mailbox)
    requires m in db.mailboxes
    requires db'.mailboxes == db.mailboxes[m := row] && db'.jobs == db.jobs && db'.triage == db.triage
    requires row.historyCursor == db.mailboxes[m].historyCursor
    ensures QuietTables(db, db')
  {
  }

  // A recovery lease ends and the worker goes on with its job lease alone.
  lemma RecoveryEnds(s: Sys, w: WorkerId, job: JobClaim, resync: ResyncClaim, owned: bool, db': Tables, pc: Pc)
    requires Inv(s) && JobClaimOk(s, w, job) && ResyncClaimOk(s, w, job, resync)
    requires EndsLease(s.cfg, s.db, db', owned, RecoveryOf(resync.mailbox), resync.token, {RecoveryOf(resync.mailbox)})
    requires QuietTables(s.db, db')
    requires (pc.Requeueing? || pc.DeadLettering?) && pc.job == job
    ensures Inv(EndAndGo(s, w, owned, resync.token, db', pc))
  {
    hide TablesOk, GrantsOk, WorldOk, EndsLease, QuietTables, JobClaimOk;
    var r := RecoveryOf(resync.mailbox);
    JobOutlives(s, w, job, owned, r, resync.token, {r}, db', pc);
    assert WorkerOk(EndAndGo(s, w, owned, resync.token, db', pc), w);
    hide WorkerOk;
    EndAndGoKeeps(s, w, owned, r, resync.token, {r}, db', pc);
  }

  lemma ManualStepKeeps(s: Sys, w: WorkerId, job: JobClaim, resync: ResyncClaim)
    requires Inv(s) && JobClaimOk(s, w, job) && ResyncClaimOk(s, w, job, resync)
    ensures Inv(ManualStep(s, w, job, resync))
  {
    hide TablesOk, GrantsOk, WorldOk, WorkerOk, EndsLease, QuietTables, JobClaimOk, ResyncClaimOk;
    var db' := RequireManual(s.db, resync, ResyncTotalLimitReached).0;
    RequireManualKept(s.cfg, s.db, resync, ResyncTotalLimitReached);
    if OwnsResync(s.db, resync) {
      RecoveryQuiet(s.db, db', resync.mailbox, db'.mailboxes[resync.mailbox]);
      RecoveryEnds(s, w, job, resync, true, db', DeadLettering(job, ResyncTotalLimitReached));
    } else {
      SameQuiet(s.db);
      RecoveryEnds(s, w, job, resync, false, db', Requeueing(job, ResyncLeaseLost, false));
    }
  }

  lemma CheckpointKeeps(s: Sys, w: WorkerId, job: JobClaim, resync: ResyncClaim, nextPage: string, listed: nat,
                        at: Time)
    requires Inv(s) && JobClaimOk(s, w, job) && ResyncClaimOk(s, w, job, resync)
    requires resync.messageCount + listed < s.cfg.resyncMaxMessages
    ensures var owned := OwnsResync(s.db, resync);
            Inv(EndAndGo(s, w, owned, resync.token, CheckpointResync(s.db, resync, nextPage, listed, at).0,
                         if owned then Requeueing(job, ResyncCheckpointed, true)
                         else Requeueing(job, ResyncLeaseLost, false)))
  {
    hide TablesOk, GrantsOk, WorldOk, WorkerOk, EndsLease, QuietTables, JobClaimOk;
    var db' := CheckpointResync(s.db, resync, nextPage, listed, at).0;
    CheckpointResyncKept(s.cfg, s.db, resync, nextPage, listed, at);
    hide ResyncClaimOk;
    if OwnsResync(s.db, resync) {
      RecoveryQuiet(s.db, db', resync.mailbox, db'.mailboxes[resync.mailbox]);
      RecoveryEnds(s, w, job, resync, true, db', Requeueing(job, ResyncCheckpointed, true));
    } else {
      SameQuiet(s.db);
      RecoveryEnds(s, w, job, resync, false, db', Requeueing(job, ResyncLeaseLost, false));
    }
  }

  lemma ReleaseRecoveryKeeps(s: Sys, w: WorkerId, job: JobClaim, resync: ResyncClaim, code: ErrorCode, at: Time)
    requires Inv(s) && JobClaimOk(s, w, job) && ResyncClaimOk(s, w, job, resync)
    ensures Inv(EndAndGo(s, w, OwnsResync(s.db, resync), resync.token,
                         ReleaseResync(s.cfg, s.db, resync, code, at).0, Requeueing(job, code, false)))
  {
    hide TablesOk, GrantsOk, WorldOk, WorkerOk, EndsLease, QuietTables, JobClaimOk, ResyncClaimOk;
    var owned := OwnsResync(s.db, resync);
    var db' := ReleaseResync(s.cfg, s.db, resync, code, at).0;
    ReleaseResyncKept(s.cfg, s.db, resync, code, at);
    if owned {
      RecoveryQuiet(s.db, db', resync.mailbox, db'.mailboxes[resync.mailbox]);
    } else {
      SameQuiet(s.db);
    }
    RecoveryEnds(s, w, job, resync, owned, db', Requeueing(job, code, false));
  }

  // Recovery completes: the cursor takes the profile's history ID without `max`, and the coverage
  // claim of the mailbox starts again there.
  lemma FinishRecoveryKeeps(s: Sys, w: WorkerId)
    requires Inv(s) && Enabled(s, FinishRecovery(w))
    ensures Inv(FinishRecoveryStep(s, w))
  {
    hide TablesOk, GrantsOk, WorldOk, EndsLease, QuietTables;
    assert WorkerOk(s, w);
    var pc := s.PcOf(w);
    var job, resync, cursor := pc.job, pc.resync, pc.cursor;
    var owned := OwnsResync(s.db, resync);
    var db' := CompleteResync(s.db, resync, cursor).0;
    CompleteResyncKept(s.cfg, s.db, resync, cursor);
    if owned {
      RecoveryCompletes(s, w, job, resync, cursor, db');
    } else {
      hide WorkerOk, JobClaimOk, ResyncClaimOk;
      SameQuiet(s.db);
      RecoveryEnds(s, w, job, resync, false, db', Requeueing(job, ResyncLeaseLost, false));
    }
  }

  function Completed(s: Sys, w: WorkerId, job: JobClaim, resync: ResyncClaim, cursor: int, db': Tables): Sys {
    EndAndGo(s, w, true, resync.token, db', Recovered(job)).(baselines := s.baselines[resync.mailbox := cursor])
  }

  lemma CompletedKnowledge(s: Sys, w: WorkerId, job: JobClaim, resync: ResyncClaim, cursor: int, db': Tables)
    requires TablesOk(s.cfg, s.db) && TablesOk(s.cfg, db') && JobClaimOk(s, w, job) && OwnsResync(s.db, resync)
    requires resync.mailbox == job.mailbox && HasGrant(s, w, resync.token, RecoveryOf(resync.mailbox))
    requires job.historyId <= cursor && db' == CompleteResync(s.db, resync, cursor).0
    requires Advances(s, Completed(s, w, job, resync, cursor, db'))
    ensures WorkerOk(Completed(s, w, job, resync, cursor, db'), w)
  {
    hide TablesOk, Advances;
    ClaimStays(s, Completed(s, w, job, resync, cursor, db'), w, job);
  }

  lemma RecoveryCompletes(s: Sys, w: WorkerId, job: JobClaim, resync: ResyncClaim, cursor: int, db': Tables)
    requires Inv(s) && JobClaimOk(s, w, job) && ResyncClaimOk(s, w, job, resync) && OwnsResync(s.db, resync)
    requires job.historyId <= cursor <= s.ProviderOf(job.mailbox).head
    requires s.db.mailboxes[job.mailbox].historyCursor.value <= cursor
    requires db' == CompleteResync(s.db, resync, cursor).0
    requires EndsLease(s.cfg, s.db, db', true, RecoveryOf(resync.mailbox), resync.token, {RecoveryOf(resync.mailbox)})
    ensures Inv(Completed(s, w, job, resync, cursor, db'))
  {
    hide TablesOk, GrantsOk, WorldOk, LeaseStep, Advances, WorkerOk;
    var m := resync.mailbox;
    var r := RecoveryOf(m);
    var s' := Completed(s, w, job, resync, cursor, db');
    EndingStep(s, s', true, r, resync.token, w, {r});
    CompleteAdvances(s, s', {r}, m, cursor);
    RebaseWorld(s, s', m, cursor);
    CompletedKnowledge(s, w, job, resync, cursor, db');
    hide EndsLease, CompleteResync, JobClaimOk, ResyncClaimOk;
    StepKeepsInv(s, s', Some(w), EndedBy(resync.token));
  }

  lemma RebaseWorld(s: Sys, s': Sys, m: Email, cursor: int)
    requires WorldOk(s) && Advances(s, s')
    requires s'.providers == s.providers && s'.baselines == s.baselines[m := cursor]
    requires s'.recorded == s.recorded && s'.settled == s.settled && s'.missed == s.missed
    requires m in s.db.mailboxes && cursor <= s.ProviderOf(m).head
    requires s'.db.jobs == s.db.jobs && s'.db.triage == s.db.triage
    requires s'.db.mailboxes == s.db.mailboxes[m := s'.db.mailboxes[m]]
    requires s'.db.mailboxes[m].historyCursor == Some(cursor)
    ensures WorldOk(s')
  {
    forall n <- s'.db.mailboxes ensures MailboxCovered(s', n) {
      assert MailboxCovered(s, n);
    }
    forall id <- s'.db.jobs ensures JobReached(s', s'.db.jobs[id]) {
      assert JobReached(s, s.db.jobs[id]);
    }
  }

  // ---------- Steps that only read ----------

  lemma ClaimUnmoved(s: Sys, s': Sys, w: WorkerId, job: JobClaim)
    requires JobClaimOk(s, w, job) && s' == s.(workers := s'.workers)
    ensures JobClaimOk(s', w, job)
    ensures s'.ProviderOf(job.mailbox) == s.ProviderOf(job.mailbox)
  {
  }

  lemma ReadMailboxKeeps(s: Sys, w: WorkerId)
    requires Inv(s) && Enabled(s, ReadMailbox(w))
    ensures Inv(Act(s, ReadMailbox(w)))
  {
    hide GrantsOk, WorldOk;
    assert WorkerOk(s, w);
    var job := s.PcOf(w).job;
    var s' := Act(s, ReadMailbox(w));
    ClaimUnmoved(s, s', w, job);
    assert MailboxOk(s.cfg, s.db.mailboxes[job.mailbox], s.db.nextToken);
    assert WorkerOk(s', w);
    hide TablesOk, WorkerOk;
    IdleStep(s, s', w);
  }

  // The scan accounts for every addition up to the cursor it returns.
  lemma HistoryListedKeeps(s: Sys, w: WorkerId, pages: seq<Page>)
    requires Inv(s) && Enabled(s, HistoryListed(w, pages))
    ensures Inv(HistoryListedStep(s, w, pages))
  {
    hide GrantsOk, WorldOk, TablesOk, WithinBounds, Top, AllIds;
    assert WorkerOk(s, w);
    var pc := s.PcOf(w);
    var job := pc.job;
    var s' := HistoryListedStep(s, w, pages);
    ClaimUnmoved(s, s', w, job);
    assert WorkerOk(s', w);
    hide WorkerOk;
    IdleStep(s, s', w);
  }

  lemma ListInboxKeeps(s: Sys, w: WorkerId, ids: seq<MessageId>, nextPage: Option<string>)
    requires Inv(s) && Enabled(s, ListInbox(w, ids, nextPage))
    ensures Inv(ListInboxStep(s, w, ids, nextPage))
  {
    hide GrantsOk, WorldOk, TablesOk;
    assert WorkerOk(s, w);
    var pc := s.PcOf(w);
    var s' := ListInboxStep(s, w, ids, nextPage);
    ClaimUnmoved(s, s', w, pc.job);
    DistinctShorter(ids);
    assert WorkerOk(s', w);
    hide WorkerOk;
    IdleStep(s, s', w);
  }

  lemma {:induction false} DistinctShorter(ids: seq<MessageId>)
    ensures |Distinct(ids)| <= |ids|
  {
    if ids != [] {
      DistinctShorter(ids[..|ids| - 1]);
    }
  }

  lemma RecoveryFailsKeeps(s: Sys, w: WorkerId, code: ErrorCode)
    requires Inv(s) && Enabled(s, RecoveryFails(w, code))
    ensures Inv(RecoveryFailsStep(s, w, code))
  {
    hide GrantsOk, WorldOk, TablesOk, ScanOk;
    assert WorkerOk(s, w);
    var s' := RecoveryFailsStep(s, w, code);
    ClaimUnmoved(s, s', w, s.PcOf(w).job);
    assert WorkerOk(s', w);
    hide WorkerOk;
    IdleStep(s, s', w);
  }

  // The profile is no older than any notification or cursor of the mailbox.
  lemma ReadProfileKeeps(s: Sys, w: WorkerId, reported: Option<int>)
    requires Inv(s) && Enabled(s, ReadProfile(w, reported))
    ensures Inv(ReadProfileStep(s, w, reported))
  {
    hide GrantsOk, TablesOk, ProvidersOk, JobReached;
    assert WorkerOk(s, w);
    var job := s.PcOf(w).job;
    var s' := ReadProfileStep(s, w, reported);
    ClaimUnmoved(s, s', w, job);
    assert MailboxCovered(s, job.mailbox);
    assert WorkerOk(s', w);
    hide WorkerOk, WorldOk;
    IdleStep(s, s', w);
  }

  lemma CrashKeeps(s: Sys, w: WorkerId)
    requires Inv(s)
    ensures Inv(s.To(w, Resting))
  {
    hide GrantsOk, TablesOk, WorldOk;
    RestingOk(s.To(w, Resting), w);
    hide WorkerOk;
    IdleStep(s, s.To(w, Resting), w);
  }

  // ---------- The branch after the unlocked read ----------

  lemma ClaimResyncQuiet(cfg: ValidConfig, db: Tables, m: Email, owner: UserId, now: Time, at: Time)
    ensures QuietTables(db, ClaimResync(cfg, db, m, owner, now, at).0)
  {
    var db' := ClaimResync(cfg, db, m, owner, now, at).0;
    if db'.mailboxes == db.mailboxes {
    } else {
      RecoveryQuiet(db, db', m, db'.mailboxes[m]);
    }
  }

  lemma ClaimResyncShape(cfg: ValidConfig, db: Tables, m: Email, owner: UserId, now: Time, at: Time)
    ensures var (db', claim) := ClaimResync(cfg, db, m, owner, now, at);
            claim.Some? ==>
              && m in db'.mailboxes && db'.mailboxes[m].resync.messageCount == claim.value.messageCount
              && claim.value.mailbox == m && claim.value.token == db.nextToken
  {
  }

  lemma EnterRecoveryKeeps(s: Sys, w: WorkerId, owner: UserId, source: int, now: Time, at: Time)
    requires Inv(s) && s.PcOf(w).Read? && now <= s.clock
    ensures var job := s.PcOf(w).job;
            var (db', claim) := ClaimResync(s.cfg, s.db, job.mailbox, owner, now, at);
            Inv(if claim.None? then s.(db := db').To(w, Requeueing(job, ResyncWaiting, false))
                else TakeAndGo(s, w, RecoveryOf(job.mailbox), now + s.cfg.leaseSeconds, db',
                               Recovering(job, claim.value, source, s.ChainOf(job.mailbox))))
  {
    hide TablesOk, GrantsOk, WorldOk, Kept, Taken, QuietTables, ClaimResync, SnapshotOk, Lapsed, LeaseStep, Advances;
    assert WorkerOk(s, w);
    var job := s.PcOf(w).job;
    var r := RecoveryOf(job.mailbox);
    var (db', claim) := ClaimResync(s.cfg, s.db, job.mailbox, owner, now, at);
    ClaimResyncKept(s.cfg, s.db, job.mailbox, owner, now, at);
    ClaimResyncQuiet(s.cfg, s.db, job.mailbox, owner, now, at);
    KeptTables(s.cfg, s.db, db', {r});
    if claim.None? {
      var s' := s.(db := db').To(w, Requeueing(job, ResyncWaiting, false));
      QuietAdvances(s, s', {r});
      GrantCarries(s, s', w, job);
      ClaimStays(s, s', w, job);
      assert WorkerOk(s', w);
      hide WorkerOk;
      LapseKeeps(s, s', w, now, {r});
    } else {
      var pc := Recovering(job, claim.value, source, s.ChainOf(job.mailbox));
      var expiresAt := now + s.cfg.leaseSeconds;
      TakeAndGoAdvances(s, w, r, expiresAt, now, {r}, db', pc);
      var s' := TakeAndGo(s, w, r, expiresAt, db', pc);
      ClaimStays(s, s', w, job);
      ClaimResyncShape(s.cfg, s.db, job.mailbox, owner, now, at);
      assert WorkerOk(s', w);
      hide WorkerOk;
      TakeAndGoKeeps(s, w, r, expiresAt, now, {r}, db', pc);
    }
  }

  lemma GrantCarries(s: Sys, s': Sys, w: WorkerId, job: JobClaim)
    requires JobClaimOk(s, w, job) && s'.grants == s.grants && s.db.nextToken <= s'.db.nextToken
    ensures HasGrant(s', w, job.token, JobRow(job.id))
  {
  }

  lemma KeptTables(cfg: Config, db: Tables, db': Tables, touched: set<Resource>)
    requires Kept(cfg, db, db', touched)
    ensures TablesOk(cfg, db') && db.nextToken <= db'.nextToken
  {
  }

  lemma BranchKeeps(s: Sys, w: WorkerId, now: Time, at: Time)
    requires Inv(s) && Enabled(s, Branch(w, now, at))
    ensures Inv(BranchStep(s, w, now, at))
  {
    hide TablesOk, GrantsOk, WorldOk, ClaimResync, FailStep, CompleteStep, DeadLetterJob;
    assert WorkerOk(s, w);
    var job, read := s.PcOf(w).job, s.PcOf(w).snapshot.value;
    if Shuttered(read) {
      if read.resync.state.ManualRequired? {
        DeadLetterStepKeeps(s, w, job, ResyncManualRequired, at);
      } else {
        EnterRecoveryKeeps(s, w, read.userId, Baseline(read.historyCursor, 1), now, at);
      }
    } else {
      CompleteFromSnapshot(s, w, job, read, at);
    }
  }

  lemma CompleteFromSnapshot(s: Sys, w: WorkerId, job: JobClaim, read: Mailbox, at: Time)
    requires Inv(s) && JobClaimOk(s, w, job) && SnapshotOk(s, job, read) && job.historyId <= read.historyCursor.value
    ensures Inv(CompleteStep(s, w, job, read.historyCursor.value, at))
  {
    hide TablesOk, GrantsOk, WorkerOk, ProvidersOk, JobReached, CompleteStep;
    assert MailboxCovered(s, job.mailbox);
    CompleteStepKeeps(s, w, job, read.historyCursor.value, at);
  }

  lemma CompleteFromScan(s: Sys, w: WorkerId, at: Time)
    requires Inv(s) && Enabled(s, CompleteHistory(w, at))
    ensures Inv(CompleteStep(s, w, s.PcOf(w).job, Max(s.PcOf(w).purpose.cursor, s.PcOf(w).job.historyId), at))
  {
    hide TablesOk, GrantsOk, WorldOk, CompleteStep;
    assert WorkerOk(s, w);
    CompleteStepKeeps(s, w, s.PcOf(w).job, s.PcOf(w).purpose.cursor, at);
  }

  lemma CompleteFromRecovery(s: Sys, w: WorkerId, at: Time)
    requires Inv(s) && Enabled(s, CompleteAfterRecovery(w, at))
    ensures Inv(CompleteStep(s, w, s.PcOf(w).job, s.PcOf(w).job.historyId, at))
  {
    hide TablesOk, GrantsOk, WorldOk, CompleteStep;
    assert WorkerOk(s, w);
    CompleteStepKeeps(s, w, s.PcOf(w).job, s.PcOf(w).job.historyId, at);
  }

  lemma SettlePageKeeps(s: Sys, w: WorkerId, at: Time)
    requires Inv(s) && Enabled(s, SettlePage(w, at))
    ensures Inv(SettlePageStep(s, w, at))
  {
    hide TablesOk, GrantsOk, WorldOk, CheckpointResync, ManualStep;
    assert WorkerOk(s, w);
    var job, p := s.PcOf(w).job, s.PcOf(w).purpose;
    if p.resync.messageCount + p.listed >= s.cfg.resyncMaxMessages {
      ManualStepKeeps(s, w, job, p.resync);
    } else {
      CheckpointKeeps(s, w, job, p.resync, p.nextPage.value, p.listed, at);
      var s' := SettlePageStep(s, w, at);
      HistoryDoesNotMatter(s'.(chains := s.chains), s');
    }
  }

  // The invariant is about neither the counter of steps nor the listings of past pages.
  lemma HistoryDoesNotMatter(s: Sys, s': Sys)
    requires Inv(s) && s' == s.(steps := s'.steps, chains := s'.chains)
    ensures Inv(s')
  {
    hide TablesOk, GrantsOk, WorkerOk, WorldOk;
    NothingChanged(s.cfg, s.db, {});
    SameQuiet(s.db);
    QuietAdvances(s, s', {});
    QuietTablesWorld(s, s');
    StepKeepsInv(s, s', Option.None, NoneTaken);
  }

  // ---------- All steps ----------

  lemma FinishActKeepsInv(s: Sys, a: Action)
    requires Inv(s) && Finishing(a) && Enabled(s, a)
    ensures Inv(FinishAct(s, a))
  {
    hide Inv, FailStep, CompleteStep, ManualStep, BranchStep, LeaseTriageStep, SettleTriageStep, SettlePageStep,
         RenewWatchStep, HistoryListedStep, ProbeTriageStep, ListInboxStep, RecoveryFailsStep, ReadProfileStep,
         FinishRecoveryStep;
    match a
    case ListInbox(w, ids, nextPage) => ListInboxKeeps(s, w, ids, nextPage);
    case HitCap(w) =>
      ClaimOfWorker(s, w);
      ManualStepKeeps(s, w, s.PcOf(w).job, s.PcOf(w).resync);
    case RecoveryFails(w, code) => RecoveryFailsKeeps(s, w, code);
    case SettlePage(w, at) => SettlePageKeeps(s, w, at);
    case ReadProfile(w, reported) => ReadProfileKeeps(s, w, reported);
    case FinishRecovery(w) => FinishRecoveryKeeps(s, w);
    case CompleteAfterRecovery(w, at) => CompleteFromRecovery(s, w, at);
    case ReleaseRecovery(w, at) =>
      ClaimOfWorker(s, w);
      ReleaseRecoveryKeeps(s, w, s.PcOf(w).job, s.PcOf(w).resync, s.PcOf(w).code, at);
    case FinishRequeue(w, at) =>
      ClaimOfWorker(s, w);
      RequeueStepKeeps(s, w, s.PcOf(w).job, s.PcOf(w).code, if s.PcOf(w).atOnce then Some(at) else Option.None, at);
    case FinishDeadLetter(w, at) =>
      ClaimOfWorker(s, w);
      DeadLetterStepKeeps(s, w, s.PcOf(w).job, s.PcOf(w).code, at);
    case FinishFail(w, now, at) =>
      ClaimOfWorker(s, w);
      FailStepKeeps(s, w, s.PcOf(w).job, s.PcOf(w).code, false, false, now, at);
  }

  lemma ActKeepsInv(s: Sys, a: Action)
    requires Inv(s) && Enabled(s, a)
    ensures Inv(Act(s, a))
  {
    hide Inv, FailStep, CompleteStep, ManualStep, BranchStep, LeaseTriageStep, SettleTriageStep, SettlePageStep,
         RenewWatchStep, HistoryListedStep, ProbeTriageStep, ListInboxStep, RecoveryFailsStep, ReadProfileStep,
         FinishRecoveryStep, FinishAct;
    match a
    case Tick(clock) => TickKeeps(s, clock);
    case MailboxChanges(m, message, leaving, at) => MailboxChangesKeeps(s, m, message, leaving, at);
    case PushArrives(envelope, owner, configured, newId, now) =>
      PushArrivesKeeps(s, envelope, owner, configured, newId, now);
    case Prune(jobsCutoff, triageCutoff) => PruneKeeps(s, jobsCutoff, triageCutoff);
    case Crash(w) => CrashKeeps(s, w);
    case LeaseWatch(w, m, owner, now) => LeaseWatchKeeps(s, w, m, owner, now);
    case RenewWatch(w, historyId, expiresAt) => RenewWatchKeeps(s, w, historyId, expiresAt);
    case AbandonWatch(w, code, at) => AbandonWatchKeeps(s, w, code, at);
    case LeaseJob(w, owner, id, now, at) => LeaseJobKeeps(s, w, owner, id, now, at);
    case ReadMailbox(w) => ReadMailboxKeeps(s, w);
    case Branch(w, now, at) => BranchKeeps(s, w, now, at);
    case HistoryListed(w, pages) => HistoryListedKeeps(s, w, pages);
    case HistoryFailed(w, failure, now, at) =>
      var (code, deadLetter, requireResync) := FailArguments(failure);
      ClaimOfWorker(s, w);
      FailStepKeeps(s, w, s.PcOf(w).job, code, deadLetter, requireResync, now, at);
    case LeaseTriage(w, now) => LeaseTriageKeeps(s, w, now);
    case ProbeTriage(w) => ProbeTriageKeeps(s, w);
    case SettleTriage(w, state, summary, error, at) => SettleTriageKeeps(s, w, state, summary, error, at);
    case GiveUpTriage(w, code, at) => GiveUpTriageKeeps(s, w, code, at);
    case CompleteHistory(w, at) => CompleteFromScan(s, w, at);
    case _ => FinishActKeepsInv(s, a);
  }

  lemma ClaimOfWorker(s: Sys, w: WorkerId)
    requires Inv(s) && !s.PcOf(w).Resting? && !s.PcOf(w).WatchLeased?
    ensures JobClaimOk(s, w, s.PcOf(w).job)
    ensures s.PcOf(w).Recovering? || s.PcOf(w).Releasing? ==> ResyncClaimOk(s, w, s.PcOf(w).job, s.PcOf(w).resync)
  {
    hide TablesOk, GrantsOk, WorldOk;
    assert WorkerOk(s, w);
  }
}
