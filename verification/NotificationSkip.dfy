// A run in which a recovery passes over mail: the exception of EveryMessageIsAccountedFor is real.

module NotificationSkip {
  import opened Common
  import opened NotificationRows
  import opened HistoryScan
  import opened NotificationProtocol

  // ---------- Reachable states ----------

  // A run leads from `o` to `s`.
  ghost predicate Reachable(o: Sys, s: Sys) {
    exists states: seq<Sys>, actions: seq<Action> :: IsRun(states, actions) && states[0] == o && states[|actions|] == s
  }

  lemma InitIsReachable(s: Sys)
    requires Init(s)
    ensures Reachable(s, s)
  {
    assert IsRun([s], []);
  }

  lemma StepIsReachable(o: Sys, s: Sys, a: Action)
    requires Reachable(o, s) && Enabled(s, a)
    ensures Reachable(o, Next(s, a))
  {
    hide Init, Enabled, Next;
    var states, actions :| IsRun(states, actions) && states[0] == o && states[|actions|] == s;
    var states', actions' := states + [Next(s, a)], actions + [a];
    assert IsRun(states', actions') && states'[0] == o && states'[|actions'|] == Next(s, a);
  }

  // ---------- The run ----------

  // Only worker 0 is there, at `pc`; there is one mailbox, of owner 0, and no triage row was ever
  // recorded.
  predicate Scene(s: Sys, m: Email, cursor: Option<int>, resync: Resync, head: int, pc: Pc) {
    && s.db.mailboxes.Keys == {m} && s.db.mailboxes[m].userId == 0
    && s.db.mailboxes[m].historyCursor == cursor && s.db.mailboxes[m].resync == resync
    && s.recorded == {} && s.settled == {} && s.db.triage == map[]
    && s.ProviderOf(m).head == head && s.PcOf(0) == pc && s.workers.Keys == {0}
  }

  predicate NoMail(s: Sys, m: Email) {
    s.ProviderOf(m).additions == {} && s.ProviderOf(m).outside == {}
  }

  lemma WatchStarts(s: Sys, m: Email)
    requires Init(s) && m !in s.providers
    ensures var a := LeaseWatch(0, m, 0, s.clock);
            && Enabled(s, a)
            && Scene(Next(s, a), m, None, BLANK_RESYNC, 0, WatchLeased(m, 0)) && NoMail(Next(s, a), m)
            && Next(s, a).db.jobs == map[] && Next(s, a).db.mailboxes[m].watch.leaseToken == Some(0)
  {
  }

  lemma HeadMoves(s: Sys, m: Email, cursor: Option<int>, resync: Resync, head: int, pc: Pc)
    requires Scene(s, m, cursor, resync, head, pc) && NoMail(s, m)
    ensures var a := MailboxChanges(m, None, {}, head + 1);
            && Enabled(s, a)
            && Scene(Next(s, a), m, cursor, resync, head + 1, pc) && NoMail(Next(s, a), m) && Next(s, a).db == s.db
  {
  }

  lemma WatchRenewed(s: Sys, m: Email)
    requires Scene(s, m, None, BLANK_RESYNC, 1, WatchLeased(m, 0)) && NoMail(s, m) && s.db.jobs == map[]
    requires s.db.mailboxes[m].watch.leaseToken == Some(0)
    ensures var a := RenewWatch(0, 1, 0);
            && Enabled(s, a)
            && Scene(Next(s, a), m, Some(1), BLANK_RESYNC, 1, Resting) && NoMail(Next(s, a), m)
            && Next(s, a).db.jobs == map[]
  {
  }

  // The only job is row 0, about history ID 2; a pending one is due.
  predicate OneJob(s: Sys, m: Email, state: JobState, attempts: nat) {
    && s.db.jobs.Keys == {0}
    && var job := s.db.jobs[0];
       && job.mailbox == m && job.historyId == 2 && job.state == state && job.attemptCount == attempts
       && (state.JobPending? ==> job.nextAttemptAt.None? || job.nextAttemptAt.value <= s.clock)
  }

  lemma PushArrived(s: Sys, m: Email)
    requires Scene(s, m, Some(1), BLANK_RESYNC, 2, Resting) && NoMail(s, m) && s.db.jobs == map[]
    ensures var a := PushArrives(Envelope("", m, 2), 0, m, 0, s.clock);
            && Enabled(s, a)
            && Scene(Next(s, a), m, Some(1), BLANK_RESYNC, 2, Resting) && NoMail(Next(s, a), m)
            && OneJob(Next(s, a), m, JobPending, 0)
  {
  }

  // The claim of the job, and the recovery columns a claim leaves alone.
  function ClaimOf(s: Sys, m: Email): JobClaim {
    JobClaim(0, m, 2, s.db.nextToken, if m in s.db.mailboxes then s.db.mailboxes[m].resync.generation else 0)
  }

  lemma JobClaimed(s: Sys, m: Email, resync: Resync, attempts: nat)
    requires Scene(s, m, Some(1), resync, 2, Resting) && NoMail(s, m) && OneJob(s, m, JobPending, attempts)
    requires attempts == 0 || resync.state.Required?
    requires !resync.state.ManualRequired?
    ensures var a := LeaseJob(0, 0, 0, s.clock, s.clock);
            && Enabled(s, a)
            && Scene(Next(s, a), m, Some(1), resync, 2, Claimed(ClaimOf(s, m))) && NoMail(Next(s, a), m)
            && OneJob(Next(s, a), m, JobProcessing, attempts + 1)
            && Next(s, a).db.jobs[0].leaseToken == Some(s.db.nextToken) && Next(s, a).clock == s.clock
  {
  }

  lemma MailboxRead(s: Sys, m: Email, resync: Resync, job: JobClaim)
    requires Scene(s, m, Some(1), resync, 2, Claimed(job)) && NoMail(s, m) && job.mailbox == m
    ensures var a := ReadMailbox(0);
            && Enabled(s, a)
            && Scene(Next(s, a), m, Some(1), resync, 2, Read(job, Some(s.db.mailboxes[m]), s.steps, 2))
            && NoMail(Next(s, a), m) && Next(s, a).db == s.db && Next(s, a).clock == s.clock
  {
  }

  function Started(at: Time): Resync {
    BLANK_RESYNC.(required := true, state := Required, generation := 1, nextAttemptAt := Some(at))
  }

  // The history cursor is too old: recovery starts.
  lemma HistoryGone(s: Sys, m: Email, job: JobClaim, row: Mailbox, readAt: nat)
    requires Scene(s, m, Some(1), BLANK_RESYNC, 2, Read(job, Some(row), readAt, 2)) && NoMail(s, m)
    requires row == s.db.mailboxes[m] && OneJob(s, m, JobProcessing, 1)
    requires job == JobClaim(0, m, 2, job.token, 0) && s.db.jobs[0].leaseToken == Some(job.token)
    ensures var a := HistoryFailed(0, CursorGone, s.clock, s.clock);
            && Enabled(s, a)
            && Scene(Next(s, a), m, Some(1), Started(s.clock), 2, Resting) && NoMail(Next(s, a), m)
            && OneJob(Next(s, a), m, JobPending, 1) && Next(s, a).clock == s.clock
  {
  }

  lemma RecoveryClaimed(s: Sys, m: Email, job: JobClaim, row: Mailbox, readAt: nat)
    requires Scene(s, m, Some(1), Started(s.clock), 2, Read(job, Some(row), readAt, 2)) && NoMail(s, m)
    requires row == s.db.mailboxes[m] && job.mailbox == m
    ensures var a := Branch(0, s.clock, s.clock);
            && Enabled(s, a)
            && var s' := Next(s, a);
               && s'.PcOf(0).Recovering? && s'.PcOf(0).job == job
               && s'.PcOf(0).resync == ResyncClaim(m, 0, s.db.nextToken, 1, None, 0)
               && Scene(s', m, Some(1), s'.db.mailboxes[m].resync, 2, s'.PcOf(0)) && NoMail(s', m)
               && OwnsResync(s'.db, s'.PcOf(0).resync)
  {
  }

  // The inbox is listed while it is empty.
  lemma InboxListed(s: Sys, m: Email, resync: Resync)
    requires Scene(s, m, Some(1), resync, 2, s.PcOf(0)) && NoMail(s, m)
    requires s.PcOf(0).Recovering? && s.PcOf(0).job.mailbox == m && OwnsResync(s.db, s.PcOf(0).resync)
    requires s.PcOf(0).resync.mailbox == m && s.PcOf(0).resync.pageToken.None? && s.PcOf(0).resync.messageCount == 0
    ensures var a := ListInbox(0, [], None);
            && Enabled(s, a)
            && var s' := Next(s, a);
               && AtPageEnd(s'.PcOf(0)) && s'.PcOf(0).purpose.nextPage.None? && s'.PcOf(0).job.mailbox == m
               && s'.PcOf(0).purpose.resync == s.PcOf(0).resync && s'.PcOf(0).purpose.listing.since == 2
               && Scene(s', m, Some(1), resync, 2, s'.PcOf(0)) && NoMail(s', m)
               && OwnsResync(s'.db, s'.PcOf(0).purpose.resync)
  {
  }

  // A message arrives.
  lemma MailArrives(s: Sys, m: Email, message: MessageId, resync: Resync)
    requires Scene(s, m, Some(1), resync, 2, s.PcOf(0)) && NoMail(s, m) && message != ""
    ensures var a := MailboxChanges(m, Some(message), {}, 3);
            && Enabled(s, a)
            && var s' := Next(s, a);
               && s'.db == s.db && s'.recorded == {} && s'.PcOf(0) == s.PcOf(0)
               && s'.ProviderOf(m) == Provider(3, {Addition(message, 3)}, {})
  {
  }

  lemma ProfileIsRead(s: Sys, m: Email)
    requires AtPageEnd(s.PcOf(0)) && s.PcOf(0).purpose.nextPage.None? && s.PcOf(0).job.mailbox == m
    requires s.ProviderOf(m).head == 3
    ensures var a := ReadProfile(0, Some(3));
            && Enabled(s, a)
            && var s' := Next(s, a);
               && s'.PcOf(0).Profiled? && s'.PcOf(0).resync == s.PcOf(0).purpose.resync && s'.PcOf(0).cursor == 3
               && s'.PcOf(0).listing == s.PcOf(0).purpose.listing
               && s'.db == s.db && s'.recorded == s.recorded && s'.ProviderOf(m) == s.ProviderOf(m)
  {
  }

  lemma RecoveryFinishes(s: Sys, m: Email)
    requires s.PcOf(0).Profiled? && s.PcOf(0).resync.mailbox == m && OwnsResync(s.db, s.PcOf(0).resync)
    ensures var a := FinishRecovery(0);
            && Enabled(s, a)
            && var s' := Next(s, a);
               && m in s'.db.mailboxes && s'.db.mailboxes[m].historyCursor == Some(s.PcOf(0).cursor)
               && s'.recorded == s.recorded && s'.ProviderOf(m) == s.ProviderOf(m)
               && s'.db.triage == s.db.triage
  {
  }

  // ---------- The run, put together ----------

  ghost predicate Skipped(o: Sys, s: Sys, m: Email, message: MessageId) {
    && Reachable(o, s) && m in s.db.mailboxes && s.db.mailboxes[m].historyCursor == Some(3)
    && Addition(message, 3) in s.ProviderOf(m).additions && message !in s.ProviderOf(m).outside
    && (m, message) !in s.recorded
  }

  lemma UpToTheWatch(s0: Sys, m: Email) returns (s: Sys)
    requires Init(s0) && m !in s0.providers
    ensures Reachable(s0, s) && Scene(s, m, Some(1), BLANK_RESYNC, 1, Resting) && NoMail(s, m) && s.db.jobs == map[]
  {
    InitIsReachable(s0);
    WatchStarts(s0, m);
    hide Init, Enabled, Next, Reachable, Scene, NoMail, OneJob;
    s := Step(s0, s0, LeaseWatch(0, m, 0, s0.clock));
    HeadMoves(s, m, None, BLANK_RESYNC, 0, WatchLeased(m, 0));
    s := Step(s0, s, MailboxChanges(m, None, {}, 1));
    WatchRenewed(s, m);
    s := Step(s0, s, RenewWatch(0, 1, 0));
  }

  lemma UpToTheJob(s0: Sys, m: Email) returns (s: Sys)
    requires Init(s0) && m !in s0.providers
    ensures Reachable(s0, s) && Scene(s, m, Some(1), BLANK_RESYNC, 2, Resting) && NoMail(s, m)
    ensures OneJob(s, m, JobPending, 0)
  {
    s := UpToTheWatch(s0, m);
    hide Init, Enabled, Next, Reachable, Scene, NoMail, OneJob;
    HeadMoves(s, m, Some(1), BLANK_RESYNC, 1, Resting);
    s := Step(s0, s, MailboxChanges(m, None, {}, 2));
    PushArrived(s, m);
    s := Step(s0, s, PushArrives(Envelope("", m, 2), 0, m, 0, s.clock));
  }

  lemma Step(o: Sys, s: Sys, a: Action) returns (s': Sys)
    requires Reachable(o, s) && Enabled(s, a)
    ensures s' == Next(s, a) && Reachable(o, s')
  {
    s' := Next(s, a);
    StepIsReachable(o, s, a);
  }

  lemma UpToRecovery(s0: Sys, m: Email) returns (s: Sys)
    requires Init(s0) && m !in s0.providers
    ensures Reachable(s0, s) && NoMail(s, m) && m in s.db.mailboxes
    ensures Scene(s, m, Some(1), s.db.mailboxes[m].resync, 2, s.PcOf(0))
    ensures s.PcOf(0).Recovering? && s.PcOf(0).job.mailbox == m && OwnsResync(s.db, s.PcOf(0).resync)
    ensures s.PcOf(0).resync.mailbox == m && s.PcOf(0).resync.pageToken.None? && s.PcOf(0).resync.messageCount == 0
  {
    s := UpToTheJob(s0, m);
    hide Init, Enabled, Next, Reachable, NoMail, OwnsResync;
    JobClaimed(s, m, BLANK_RESYNC, 0);
    var job := ClaimOf(s, m);
    s := Step(s0, s, LeaseJob(0, 0, 0, s.clock, s.clock));
    MailboxRead(s, m, BLANK_RESYNC, job);
    s := Step(s0, s, ReadMailbox(0));
    HistoryGone(s, m, job, s.PcOf(0).snapshot.value, s.PcOf(0).readAt);
    var at := s.clock;
    s := Step(s0, s, HistoryFailed(0, CursorGone, s.clock, s.clock));
    JobClaimed(s, m, Started(at), 1);
    job := ClaimOf(s, m);
    s := Step(s0, s, LeaseJob(0, 0, 0, s.clock, s.clock));
    MailboxRead(s, m, Started(at), job);
    s := Step(s0, s, ReadMailbox(0));
    RecoveryClaimed(s, m, job, s.PcOf(0).snapshot.value, s.PcOf(0).readAt);
    s := Step(s0, s, Branch(0, s.clock, s.clock));
  }

  // Why coverage has a gap at every completed recovery: from every initial state with an unused
  // mailbox a state is reachable whose cursor passed a message that no triage row was ever recorded
  // for.  The inbox is listed, the message arrives, the profile is read.
  lemma RecoverySkipsLateMail(s0: Sys, m: Email, message: MessageId)
    requires Init(s0) && m !in s0.providers && message != ""
    ensures exists s: Sys :: Skipped(s0, s, m, message)
  {
    var s := UpToRecovery(s0, m);
    hide Init, Enabled, Next, Reachable, AtPageEnd, Scene, NoMail, OwnsResync;
    var resync := s.db.mailboxes[m].resync;
    InboxListed(s, m, resync);
    s := Step(s0, s, ListInbox(0, [], None));
    MailArrives(s, m, message, resync);
    s := Step(s0, s, MailboxChanges(m, Some(message), {}, 3));
    ProfileIsRead(s, m);
    s := Step(s0, s, ReadProfile(0, Some(3)));
    RecoveryFinishes(s, m);
    s := Step(s0, s, FinishRecovery(0));
    assert Skipped(s0, s, m, message);
  }
}
