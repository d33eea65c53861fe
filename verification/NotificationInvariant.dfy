// The invariant of the notification protocol: what the tables, the leases, the history variables
// and the stale knowledge of every worker have in common in every reachable state.

module NotificationInvariant {
  import opened Common
  import opened NotificationRows
  import opened HistoryScan
  import opened NotificationProtocol
  import opened NotificationTransactions
  import opened NotificationLeases

  // ---------- The world ----------

  // A triage row was recorded for the message, and it became terminal or a triage call missed it.
  predicate Seen(s: Sys, m: Email, message: MessageId) {
    (m, message) in s.recorded && ((m, message) in s.settled || (m, message) in s.missed)
  }

  // Every message added after `from`, up to `to`, was seen.
  predicate Covered(s: Sys, m: Email, from: int, to: int) {
    forall a <- s.ProviderOf(m).additions :: from < a.at <= to ==> Seen(s, m, a.message)
  }

  predicate ProvidersOk(s: Sys) {
    forall m <- s.providers :: s.providers[m].head >= 0
      && forall a <- s.providers[m].additions :: a.at <= s.providers[m].head
  }

  predicate MailboxCovered(s: Sys, m: Email)
    requires m in s.db.mailboxes
  {
    var cursor := s.db.mailboxes[m].historyCursor;
    cursor.Some? ==>
      && cursor.value <= s.ProviderOf(m).head
      && m in s.baselines
      && Covered(s, m, s.baselines[m], cursor.value)
  }

  predicate JobReached(s: Sys, job: Job) {
    && job.historyId <= s.ProviderOf(job.mailbox).head
    && (job.state.JobSucceeded? ==>
          && job.mailbox in s.db.mailboxes
          && s.db.mailboxes[job.mailbox].historyCursor.Some?
          && job.historyId <= s.db.mailboxes[job.mailbox].historyCursor.value)
  }

  predicate WorldOk(s: Sys) {
    && ProvidersOk(s)
    && (forall m <- s.db.mailboxes :: MailboxCovered(s, m))
    && (forall id <- s.db.jobs :: JobReached(s, s.db.jobs[id]))
    && (forall key <- s.db.triage :: key in s.recorded && (s.db.triage[key].Terminal() ==> key in s.settled))
    && (forall key <- s.recorded :: key in s.db.triage || key in s.settled)
  }

  // ---------- Workers ----------

  predicate HasGrant(s: Sys, w: WorkerId, token: Token, r: Resource) {
    && token in s.grants && token < s.db.nextToken
    && s.grants[token].holder == w && s.grants[token].resource == r && s.grants[token].releasedAt.None?
  }

  predicate JobClaimOk(s: Sys, w: WorkerId, job: JobClaim) {
    && HasGrant(s, w, job.token, JobRow(job.id))
    && ClaimFits(s.db, job)
    && job.mailbox in s.db.mailboxes
    && s.db.mailboxes[job.mailbox].historyCursor.Some?
    && job.generation <= s.db.mailboxes[job.mailbox].resync.generation
    && 0 < job.historyId <= s.ProviderOf(job.mailbox).head
  }

  // The cursor and the generation of a mailbox never went backwards since it was read.
  predicate SnapshotOk(s: Sys, job: JobClaim, snapshot: Mailbox)
    requires job.mailbox in s.db.mailboxes && s.db.mailboxes[job.mailbox].historyCursor.Some?
  {
    && snapshot.historyCursor.Some?
    && 0 < snapshot.historyCursor.value <= s.db.mailboxes[job.mailbox].historyCursor.value
    && job.generation <= snapshot.resync.generation <= s.db.mailboxes[job.mailbox].resync.generation
  }

  predicate ResyncClaimOk(s: Sys, w: WorkerId, job: JobClaim, resync: ResyncClaim) {
    && resync.mailbox == job.mailbox
    && HasGrant(s, w, resync.token, RecoveryOf(resync.mailbox))
    && (OwnsResync(s.db, resync) ==>
          s.db.mailboxes[resync.mailbox].resync.messageCount == resync.messageCount)
  }

  predicate Finished(s: Sys, m: Email, done: set<MessageId>) {
    forall message <- done :: Seen(s, m, message)
  }

  // A history scan from the snapshot's cursor: every addition it must account for is done or to do.
  predicate ScanOk(s: Sys, job: JobClaim, purpose: Purpose, todo: seq<MessageId>, done: set<MessageId>)
    requires purpose.FromHistory? && job.mailbox in s.db.mailboxes && s.db.mailboxes[job.mailbox].historyCursor.Some?
  {
    && SnapshotOk(s, job, purpose.snapshot)
    && !Shuttered(purpose.snapshot)
    && job.historyId <= purpose.cursor <= s.ProviderOf(job.mailbox).head
    && (forall a <- s.ProviderOf(job.mailbox).additions ::
          purpose.snapshot.historyCursor.value < a.at <= purpose.cursor ==> a.message in done || a.message in todo)
  }

  predicate TriageLoopOk(s: Sys, w: WorkerId, job: JobClaim, purpose: Purpose, todo: seq<MessageId>,
                         done: set<MessageId>) {
    && JobClaimOk(s, w, job)
    && Finished(s, job.mailbox, done)
    && match purpose
       case FromHistory(_, _, _) => ScanOk(s, job, purpose, todo, done)
       case FromRecovery(resync, _, _, listed, _) =>
         && ResyncClaimOk(s, w, job, resync)
         && resync.messageCount + listed <= s.cfg.resyncMaxMessages
         && |todo| <= listed
  }

  predicate WorkerOk(s: Sys, w: WorkerId) {
    match s.PcOf(w)
    case Resting => true
    case WatchLeased(m, token) => HasGrant(s, w, token, WatchOf(m))
    case Claimed(job) => JobClaimOk(s, w, job)
    case Read(job, snapshot, _, headBefore) =>
      && JobClaimOk(s, w, job)
      && job.historyId <= headBefore <= s.ProviderOf(job.mailbox).head
      && snapshot.Some? && SnapshotOk(s, job, snapshot.value)
    case Triaging(job, purpose, todo, done) => TriageLoopOk(s, w, job, purpose, todo, done)
    case Probing(job, purpose, todo, done) =>
      TriageLoopOk(s, w, job, purpose, todo, done) && todo != [] && (job.mailbox, todo[0]) in s.recorded
    case InTriage(job, purpose, todo, done, triage) =>
      && TriageLoopOk(s, w, job, purpose, todo, done)
      && todo != [] && triage.key == (job.mailbox, todo[0]) && triage.key in s.recorded
      && HasGrant(s, w, triage.token, TriageRow(triage.key))
    case Recovering(job, resync, _, _) => JobClaimOk(s, w, job) && ResyncClaimOk(s, w, job, resync)
    case Profiled(job, resync, listed, cursor, _) =>
      && JobClaimOk(s, w, job) && ResyncClaimOk(s, w, job, resync)
      && resync.messageCount + listed <= s.cfg.resyncMaxMessages
      && job.historyId <= cursor <= s.ProviderOf(job.mailbox).head
      && (OwnsResync(s.db, resync) ==> s.db.mailboxes[job.mailbox].historyCursor.value <= cursor)
    case Recovered(job) =>
      JobClaimOk(s, w, job) && job.historyId <= s.db.mailboxes[job.mailbox].historyCursor.value
    case Releasing(job, resync, _) => JobClaimOk(s, w, job) && ResyncClaimOk(s, w, job, resync)
    case Requeueing(job, _, _) => JobClaimOk(s, w, job)
    case DeadLettering(job, _) => JobClaimOk(s, w, job)
    case Failing(job, _) => JobClaimOk(s, w, job)
  }

  ghost predicate Inv(s: Sys) {
    && TablesOk(s.cfg, s.db)
    && GrantsOk(s)
    && WorldOk(s)
    && (forall w: WorkerId :: WorkerOk(s, w))
  }

  // ---------- What a worker may rely on while others step ----------

  predicate MailboxAdvances(a: Mailbox, b: Mailbox) {
    && a.userId == b.userId
    && a.resync.generation <= b.resync.generation
    && (a.historyCursor.Some? ==> b.historyCursor.Some? && a.historyCursor.value <= b.historyCursor.value)
  }

  predicate ProviderAdvances(p: Provider, q: Provider) {
    && p.head <= q.head
    && (forall a <- q.additions :: a in p.additions || a.at > p.head)
  }

  ghost predicate Advances(s: Sys, s': Sys) {
    && s'.cfg == s.cfg && s.clock <= s'.clock && s.db.nextToken <= s'.db.nextToken
    && (forall m <- s.db.mailboxes :: m in s'.db.mailboxes && MailboxAdvances(s.db.mailboxes[m], s'.db.mailboxes[m]))
    && (forall m: Email :: ProviderAdvances(s.ProviderOf(m), s'.ProviderOf(m)))
    && s.recorded <= s'.recorded && s.settled <= s'.settled && s.missed <= s'.missed
    && LeasesStep(s.db, s'.db)
  }

  lemma SeenStays(s: Sys, s': Sys, m: Email, message: MessageId)
    requires Advances(s, s') && Seen(s, m, message)
    ensures Seen(s', m, message)
  {
  }

  lemma ClaimStays(s: Sys, s': Sys, w: WorkerId, job: JobClaim)
    requires TablesOk(s.cfg, s.db) && TablesOk(s'.cfg, s'.db) && Advances(s, s') && JobClaimOk(s, w, job)
    requires HasGrant(s', w, job.token, JobRow(job.id))
    ensures JobClaimOk(s', w, job)
  {
    if OwnsJob(s'.db, job) {
      assert Holder(s'.db, JobRow(job.id)).Some?;
    }
  }

  lemma ResyncClaimStays(s: Sys, s': Sys, w: WorkerId, job: JobClaim, resync: ResyncClaim)
    requires TablesOk(s.cfg, s.db) && TablesOk(s'.cfg, s'.db) && Advances(s, s') && ResyncClaimOk(s, w, job, resync)
    requires HasGrant(s', w, resync.token, RecoveryOf(resync.mailbox))
    ensures ResyncClaimOk(s', w, job, resync)
    ensures OwnsResync(s'.db, resync) ==>
              OwnsResync(s.db, resync)
              && s'.db.mailboxes[resync.mailbox].historyCursor == s.db.mailboxes[resync.mailbox].historyCursor
  {
    if OwnsResync(s'.db, resync) {
      assert Holder(s'.db, RecoveryOf(resync.mailbox)).Some?;
    }
  }

  lemma TriageLoopStays(s: Sys, s': Sys, w: WorkerId, job: JobClaim, purpose: Purpose, todo: seq<MessageId>,
                        done: set<MessageId>)
    requires TablesOk(s.cfg, s.db) && TablesOk(s'.cfg, s'.db) && Advances(s, s')
    requires TriageLoopOk(s, w, job, purpose, todo, done)
    requires HasGrant(s', w, job.token, JobRow(job.id))
    requires purpose.FromRecovery? ==> HasGrant(s', w, purpose.resync.token, RecoveryOf(purpose.resync.mailbox))
    ensures TriageLoopOk(s', w, job, purpose, todo, done)
  {
    ClaimStays(s, s', w, job);
    forall message <- done ensures Seen(s', job.mailbox, message) {
      SeenStays(s, s', job.mailbox, message);
    }
    match purpose
    case FromHistory(_, _, _) =>
      assert ProviderAdvances(s.ProviderOf(job.mailbox), s'.ProviderOf(job.mailbox));
    case FromRecovery(resync, _, _, _, _) =>
      ResyncClaimStays(s, s', w, job, resync);
  }

  // A worker's knowledge survives every step of the others.
  lemma WorkerStays(s: Sys, s': Sys, w: WorkerId)
    requires TablesOk(s.cfg, s.db) && TablesOk(s'.cfg, s'.db) && Advances(s, s') && WorkerOk(s, w)
    requires s'.PcOf(w) == s.PcOf(w)
    requires forall t <- s.grants :: s.grants[t].holder == w ==> t in s'.grants && s'.grants[t] == s.grants[t]
    ensures WorkerOk(s', w)
  {
    match s.PcOf(w)
    case Resting =>
    case WatchLeased(m, token) =>
    case Claimed(job) =>
      ClaimStays(s, s', w, job);
    case Read(job, snapshot, _, headBefore) =>
      ClaimStays(s, s', w, job);
      assert ProviderAdvances(s.ProviderOf(job.mailbox), s'.ProviderOf(job.mailbox));
    case Triaging(job, purpose, todo, done) =>
      TriageLoopStays(s, s', w, job, purpose, todo, done);
    case Probing(job, purpose, todo, done) =>
      TriageLoopStays(s, s', w, job, purpose, todo, done);
    case InTriage(job, purpose, todo, done, triage) =>
      TriageLoopStays(s, s', w, job, purpose, todo, done);
    case Recovering(job, resync, _, _) =>
      ClaimStays(s, s', w, job);
      ResyncClaimStays(s, s', w, job, resync);
    case Profiled(job, resync, _, cursor, _) =>
      ClaimStays(s, s', w, job);
      ResyncClaimStays(s, s', w, job, resync);
      assert ProviderAdvances(s.ProviderOf(job.mailbox), s'.ProviderOf(job.mailbox));
    case Recovered(job) =>
      ClaimStays(s, s', w, job);
    case Releasing(job, resync, _) =>
      ClaimStays(s, s', w, job);
      ResyncClaimStays(s, s', w, job, resync);
    case Requeueing(job, _, _) =>
      ClaimStays(s, s', w, job);
    case DeadLettering(job, _) =>
      ClaimStays(s, s', w, job);
    case Failing(job, _) =>
      ClaimStays(s, s', w, job);
  }

  // ---------- From one step to the invariant ----------

  // Everyone but `actor` stays where it is.
  ghost predicate OnlyMoves(s: Sys, s': Sys, actor: Option<WorkerId>) {
    forall w: WorkerId :: actor != Some(w) ==> s'.PcOf(w) == s.PcOf(w)
  }

  lemma StepKeepsInv(s: Sys, s': Sys, actor: Option<WorkerId>, c: LeaseChange)
    requires Inv(s)
    requires TablesOk(s'.cfg, s'.db) && LeaseStep(s, s', c) && Advances(s, s') && WorldOk(s')
    requires OnlyMoves(s, s', actor)
    requires c.EndedBy? ==> actor == Some(s.grants[c.token].holder)
    requires actor.Some? ==> WorkerOk(s', actor.value)
    ensures Inv(s')
  {
    LeaseStepKeepsGrants(s, s', c);
    forall w: WorkerId ensures WorkerOk(s', w) {
      if actor != Some(w) {
        assert s.PcOf(w) == s'.PcOf(w);
        assert WorkerOk(s, w);
        WorkerStays(s, s', w);
      }
    }
  }

  // Steps that change no cursor, no baseline and no provider, and finish no job.
  predicate QuietMailboxes(s: Sys, s': Sys) {
    && s'.providers == s.providers && s'.baselines == s.baselines
    && (forall m <- s'.db.mailboxes ::
          if m in s.db.mailboxes then s'.db.mailboxes[m].historyCursor == s.db.mailboxes[m].historyCursor
          else s'.db.mailboxes[m].historyCursor.None?)
  }

  lemma QuietWorld(s: Sys, s': Sys)
    requires WorldOk(s) && Advances(s, s') && QuietMailboxes(s, s')
    requires forall id <- s'.db.jobs ::
               && id in s.db.jobs && s'.db.jobs[id].mailbox == s.db.jobs[id].mailbox
               && s'.db.jobs[id].historyId == s.db.jobs[id].historyId
               && (s'.db.jobs[id].state.JobSucceeded? ==> s.db.jobs[id].state.JobSucceeded?)
    requires forall key <- s'.db.triage ::
               key in s'.recorded && (s'.db.triage[key].Terminal() ==> key in s'.settled)
    requires forall key <- s'.recorded :: key in s'.db.triage || key in s'.settled
    ensures WorldOk(s')
  {
    forall m <- s'.db.mailboxes ensures MailboxCovered(s', m) {
      assert m in s.db.mailboxes ==> MailboxCovered(s, m);
    }
    forall id <- s'.db.jobs ensures JobReached(s', s'.db.jobs[id]) {
      assert JobReached(s, s.db.jobs[id]);
    }
  }

  // Only workers and counters change.
  lemma IdleStep(s: Sys, s': Sys, w: WorkerId)
    requires Inv(s) && s' == s.(workers := s'.workers, steps := s'.steps)
    requires OnlyMoves(s, s', Some(w)) && WorkerOk(s', w)
    ensures Inv(s')
  {
    NothingChanged(s.cfg, s.db, {});
    assert Advances(s, s');
    StepKeepsInv(s, s', Some(w), NoneTaken);
  }
}
