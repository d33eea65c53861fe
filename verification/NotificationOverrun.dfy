// A run in which the cursor passes a message whose triage row never became terminal: the exception of
// HistoryIsCovered is real.

module NotificationOverrun {
  import opened Common
  import opened NotificationRows
  import opened HistoryScan
  import opened NotificationProtocol
  import opened NotificationInvariant
  import opened NotificationSafety
  import opened NotificationTheorems
  import opened NotificationRecovery
  import opened NotificationSkip

  // ---------- The scene ----------

  // One mailbox, read up to 1, with one message, and jobs 0 and 1 about it; nothing was finalized.
  predicate TwoJobs(s: Sys, m: Email, message: MessageId) {
    && s.db.mailboxes.Keys == {m} && s.db.mailboxes[m].userId == 0
    && s.db.mailboxes[m].historyCursor == Some(1) && s.db.mailboxes[m].resync == BLANK_RESYNC
    && s.ProviderOf(m) == Provider(2, {Addition(message, 2)}, {}) && s.settled == {}
    && s.db.jobs.Keys == {0, 1} && s.db.triage.Keys <= {(m, message)}
    && (forall id <- s.db.jobs :: s.db.jobs[id].mailbox == m && s.db.jobs[id].historyId == 2)
  }

  // Worker `w` has not taken job `w` yet.
  predicate Waits(s: Sys, w: WorkerId) {
    && s.PcOf(w).Resting? && w in s.db.jobs && s.db.jobs[w].state.JobPending? && s.db.jobs[w].attemptCount == 0
    && s.db.jobs[w].nextAttemptAt.None?
  }

  // It holds job `w`, and triages the message for it.
  predicate Works(s: Sys, m: Email, message: MessageId, w: WorkerId, pc: Pc) {
    && s.PcOf(w) == pc && (pc.Triaging? || pc.InTriage?) && OwnsJob(s.db, pc.job)
    && pc.job == JobClaim(w, m, 2, pc.job.token, 0) && pc.purpose.FromHistory? && pc.purpose.cursor == 2
    && pc.todo == [message] && pc.done == {}
  }

  lemma MailComes(s: Sys, m: Email, message: MessageId)
    requires Scene(s, m, Some(1), BLANK_RESYNC, 1, Resting) && NoMail(s, m) && s.db.jobs == map[] && message != ""
    ensures var a := MailboxChanges(m, Some(message), {}, 2);
            && Enabled(s, a)
            && Next(s, a).ProviderOf(m) == Provider(2, {Addition(message, 2)}, {})
            && Next(s, a) == s.(providers := Next(s, a).providers, steps := s.steps + 1)
  {
  }

  function Fresh(pubsubId: string, m: Email, now: Time): Job {
    Job(pubsubId, m, 2, JobPending, 0, None, None, None, None, now, None)
  }

  lemma PushComes(s: Sys, m: Email, pubsubId: string, id: JobId)
    requires s.db.mailboxes.Keys == {m} && s.db.mailboxes[m].userId == 0 && s.db.mailboxes[m].historyCursor.Some?
    requires id !in s.db.jobs && (forall i <- s.db.jobs :: s.db.jobs[i].pubsubId != pubsubId)
    requires s.ProviderOf(m).head == 2
    ensures var a := PushArrives(Envelope(pubsubId, m, 2), 0, m, id, s.clock);
            && Enabled(s, a)
            && Next(s, a) == s.(db := s.db.(jobs := s.db.jobs[id := Fresh(pubsubId, m, s.clock)]), steps := s.steps + 1)
  {
  }

  lemma UpToTwoJobs(s0: Sys, m: Email, message: MessageId) returns (s: Sys)
    requires Init(s0) && m !in s0.providers && message != ""
    ensures Reachable(s0, s) && TwoJobs(s, m, message) && Waits(s, 0) && Waits(s, 1) && s.db.triage == map[]
  {
    var s1 := UpToTheWatch(s0, m);
    hide Init, Enabled, Next, Reachable;
    MailComes(s1, m, message);
    var s2 := Step(s0, s1, MailboxChanges(m, Some(message), {}, 2));
    MailIsThere(s1, s2, m);
    hide Scene, NoMail;
    PushComes(s2, m, "a", 0);
    var s3 := Step(s0, s2, PushArrives(Envelope("a", m, 2), 0, m, 0, s2.clock));
    PushComes(s3, m, "b", 1);
    s := Step(s0, s3, PushArrives(Envelope("b", m, 2), 0, m, 1, s3.clock));
    JobsAreThere(s2, s, m, message);
  }

  predicate Unread(s: Sys, m: Email) {
    && s.db.mailboxes.Keys == {m} && s.db.mailboxes[m].userId == 0
    && s.db.mailboxes[m].historyCursor == Some(1) && s.db.mailboxes[m].resync == BLANK_RESYNC
    && s.settled == {} && s.db.jobs == map[] && s.db.triage == map[]
    && s.PcOf(0).Resting? && s.PcOf(1).Resting?
  }

  lemma MailIsThere(s: Sys, s': Sys, m: Email)
    requires Scene(s, m, Some(1), BLANK_RESYNC, 1, Resting) && s.db.jobs == map[]
    requires s' == s.(providers := s'.providers, steps := s'.steps)
    ensures Unread(s', m)
  {
  }

  lemma JobsAreThere(s: Sys, s': Sys, m: Email, message: MessageId)
    requires Unread(s, m) && s.ProviderOf(m) == Provider(2, {Addition(message, 2)}, {})
    requires s' == s.(db := s.db.(jobs := s.db.jobs[0 := Fresh("a", m, s.clock)][1 := Fresh("b", m, s.clock)]),
                      steps := s'.steps)
    ensures TwoJobs(s', m, message) && Waits(s', 0) && Waits(s', 1)
  {
  }

  // ---------- A worker takes its job ----------

  // Only worker `w` moved, and job `w`.
  predicate OnlyJob(s: Sys, s': Sys, w: WorkerId) {
    && w in s'.db.jobs && s'.db == s.db.(jobs := s.db.jobs[w := s'.db.jobs[w]], nextToken := s'.db.nextToken)
    && w in s'.workers && s'.workers == s.workers[w := s'.workers[w]]
    && s' == s.(db := s'.db, workers := s'.workers, grants := s'.grants, steps := s'.steps)
  }

  lemma JobIsTaken(s: Sys, m: Email, message: MessageId, w: WorkerId)
    requires TwoJobs(s, m, message) && Waits(s, w)
    ensures var a := LeaseJob(w, 0, w, s.clock, s.clock);
            && Enabled(s, a)
            && var s', job := Next(s, a), JobClaim(w, m, 2, s.db.nextToken, 0);
               && OwnsJob(s'.db, job) && s'.PcOf(w) == Claimed(job)
               && OnlyJob(s, s', w) && s'.db.mailboxes == s.db.mailboxes && s'.providers == s.providers
               && s'.db.jobs[w].mailbox == m && s'.db.jobs[w].historyId == 2
  {
  }

  lemma MailboxIsRead(s: Sys, m: Email, w: WorkerId, job: JobClaim)
    requires s.PcOf(w) == Claimed(job) && job.mailbox == m && m in s.db.mailboxes
    ensures var a := ReadMailbox(w);
            && Enabled(s, a)
            && Next(s, a) == s.(workers := s.workers[w := Read(job, Some(s.db.mailboxes[m]), s.steps,
                                                               s.ProviderOf(m).head)], steps := s.steps + 1)
  {
  }

  function TheMail(message: MessageId): seq<Page> {
    [Page(Some(2), [Entry(Some(2), [Some(message)])], false)]
  }

  lemma OneEntry(message: MessageId)
    requires message != ""
    ensures AllIds(TheMail(message)) == [message] && Top(1, TheMail(message)) == 2
  {
    var page := TheMail(message)[0];
    assert TheMail(message)[..0] == [] && page.history[..0] == [] && page.history[0].added[..0] == [];
    assert Usable(page.history[0].added) == Usable([]) + [message];
    assert HistoryIds(page.history) == [message];
    assert HistoryTop(2, page.history) == 2;
  }

  lemma MailIsListed(cfg: ValidConfig, message: MessageId)
    requires message != ""
    ensures Answers(TheMail(message), cfg.historyMaxPages)
    ensures Scan(TheMail(message), 1, cfg.historyMaxMessages, cfg.historyMaxPages) == Listed([message], 2)
  {
    OneEntry(message);
    hide AllIds, Top;
    assert [message][..0] == [];
    assert Distinct([message]) == [message];
  }

  lemma MailIsHonoured(message: MessageId)
    requires message != ""
    ensures Honours(Provider(2, {Addition(message, 2)}, {}), TheMail(message), 1, 2)
  {
    OneEntry(message);
    hide AllIds, Top;
  }

  lemma HistoryIsListed(s: Sys, m: Email, message: MessageId, w: WorkerId, job: JobClaim, row: Mailbox, readAt: nat)
    requires s.PcOf(w) == Read(job, Some(row), readAt, 2) && job.mailbox == m && job.historyId == 2 && message != ""
    requires row.historyCursor == Some(1) && row.resync == BLANK_RESYNC
    requires s.ProviderOf(m) == Provider(2, {Addition(message, 2)}, {})
    ensures var a := HistoryListed(w, TheMail(message));
            && Enabled(s, a)
            && Next(s, a) == s.(workers := s.workers[w := Triaging(job, FromHistory(row, readAt, 2), [message], {})],
                                steps := s.steps + 1)
  {
    MailIsListed(s.cfg, message);
    MailIsHonoured(message);
    hide Scan, Answers, Honours, TheMail;
  }

  lemma TakesItsJob(o: Sys, s0: Sys, m: Email, message: MessageId, w: WorkerId) returns (s: Sys)
    requires Reachable(o, s0) && TwoJobs(s0, m, message) && Waits(s0, w) && message != ""
    ensures Reachable(o, s) && TwoJobs(s, m, message) && OnlyJob(s0, s, w)
    ensures Works(s, m, message, w, s.PcOf(w)) && s.PcOf(w).Triaging?
  {
    hide Enabled, Next, Reachable, OnlyJob;
    JobIsTaken(s0, m, message, w);
    var s1 := Step(o, s0, LeaseJob(w, 0, w, s0.clock, s0.clock));
    var job := JobClaim(w, m, 2, s0.db.nextToken, 0);
    MailboxIsRead(s1, m, w, job);
    var s2 := Step(o, s1, ReadMailbox(w));
    HistoryIsListed(s2, m, message, w, job, s1.db.mailboxes[m], s1.steps);
    s := Step(o, s2, HistoryListed(w, TheMail(message)));
    OnlyJobMoved(s0, s1, s, m, message, w);
  }

  lemma OnlyJobMoved(s: Sys, s1: Sys, s': Sys, m: Email, message: MessageId, w: WorkerId)
    requires TwoJobs(s, m, message) && w in s.db.jobs && OnlyJob(s, s1, w) && w in s'.workers
    requires s' == s1.(workers := s1.workers[w := s'.workers[w]], steps := s'.steps)
    requires s1.db.jobs[w].mailbox == m && s1.db.jobs[w].historyId == 2
    ensures TwoJobs(s', m, message) && OnlyJob(s, s', w)
  {
  }

  // ---------- The row changes hands ----------

  lemma RowIsLeased(s: Sys, m: Email, message: MessageId, w: WorkerId)
    requires Works(s, m, message, w, s.PcOf(w)) && s.PcOf(w).Triaging?
    requires var key := (m, message);
             key in s.db.triage ==>
               && s.db.triage[key].state.TriageProcessing? && s.db.triage[key].nextAttemptAt.None?
               && s.db.triage[key].leaseExpiresAt.Some? && s.db.triage[key].leaseExpiresAt.value <= s.clock
    ensures var a, key := LeaseTriage(w, s.clock), (m, message);
            && Enabled(s, a)
            && var s', pc := Next(s, a), s.PcOf(w);
               && key in s'.db.triage && s'.db.triage == s.db.triage[key := s'.db.triage[key]]
               && s'.db.triage[key].HeldBy(s.db.nextToken) && s'.db.triage[key].nextAttemptAt.None?
               && s'.db.triage[key].leaseExpiresAt == Some(s.clock + s.cfg.leaseSeconds)
               && s'.db == s.db.(triage := s'.db.triage, nextToken := s.db.nextToken + 1)
               && s' == s.(db := s'.db, grants := s'.grants, recorded := s'.recorded, steps := s.steps + 1,
                           workers := s.workers[w := InTriage(pc.job, pc.purpose, pc.todo, pc.done,
                                                              TriageClaim(key, s.db.nextToken))])
  {
  }

  lemma TimeGoesBy(s: Sys)
    ensures var a := Tick(s.clock + s.cfg.leaseSeconds);
            Enabled(s, a) && Next(s, a) == s.(clock := s.clock + s.cfg.leaseSeconds, steps := s.steps + 1)
  {
  }

  // Worker 0 finalizes after worker 1 took the row: nothing happens, and the message counts as done.
  lemma NothingIsFinalized(s: Sys, m: Email, message: MessageId, token: Token)
    requires Works(s, m, message, 0, s.PcOf(0)) && s.PcOf(0).InTriage?
    requires s.PcOf(0).triage == TriageClaim((m, message), token)
    requires (m, message) in s.db.triage && s.db.triage[(m, message)].leaseToken != Some(token)
    ensures var a := SettleTriage(0, TriageSucceeded, None, None, s.clock);
            && Enabled(s, a)
            && var s', pc := Next(s, a), s.PcOf(0);
               && s' == s.(missed := s'.missed, steps := s.steps + 1,
                           workers := s.workers[0 := Triaging(pc.job, pc.purpose, [], {message})])
  {
    assert [message][1..] == [] && {} + {message} == {message};
    assert s.PcOf(0).todo[1..] == [] && s.PcOf(0).done + {s.PcOf(0).todo[0]} == {message};
  }

  lemma JobIsCompleted(s: Sys, m: Email, message: MessageId, pc: Pc)
    requires TwoJobs(s, m, message) && s.PcOf(0) == pc && pc.Triaging? && pc.todo == [] && pc.purpose.FromHistory?
    requires pc.purpose.cursor == 2 && pc.job == JobClaim(0, m, 2, pc.job.token, 0) && OwnsJob(s.db, pc.job)
    ensures var a := CompleteHistory(0, s.clock);
            && Enabled(s, a)
            && var s' := Next(s, a);
               && m in s'.db.mailboxes && s'.db.mailboxes[m].historyCursor == Some(2)
               && s'.db.triage == s.db.triage && s'.settled == s.settled && s'.providers == s.providers
  {
  }

  // ---------- The run, put together ----------

  // Worker 0 triages the message under an expired lease, and worker 1 has taken the row.
  predicate TakenOver(s: Sys, m: Email, message: MessageId) {
    && TwoJobs(s, m, message) && Works(s, m, message, 0, s.PcOf(0)) && s.PcOf(0).InTriage?
    && s.PcOf(0).triage.key == (m, message) && Unfinished(s.db, (m, message))
    && s.db.triage[(m, message)].leaseToken != Some(s.PcOf(0).triage.token)
  }

  // The row of the message is under worker 0's lease, and worker 1 is about to take it.
  predicate Leased(s: Sys, m: Email, message: MessageId) {
    && TwoJobs(s, m, message) && Works(s, m, message, 0, s.PcOf(0)) && s.PcOf(0).InTriage?
    && s.PcOf(0).triage.key == (m, message) && s.PcOf(0).triage.token < s.db.nextToken
    && (m, message) in s.db.triage
    && var row := s.db.triage[(m, message)];
       && row.state.TriageProcessing? && row.nextAttemptAt.None?
       && row.leaseExpiresAt == Some(s.clock + s.cfg.leaseSeconds)
  }

  lemma BothTakeTheirJobs(s0: Sys, m: Email, message: MessageId) returns (s: Sys)
    requires Init(s0) && m !in s0.providers && message != ""
    ensures Reachable(s0, s) && TwoJobs(s, m, message) && s.db.triage == map[]
    ensures Works(s, m, message, 0, s.PcOf(0)) && s.PcOf(0).Triaging?
    ensures Works(s, m, message, 1, s.PcOf(1)) && s.PcOf(1).Triaging?
  {
    hide Init, Reachable, TwoJobs;
    var s1 := UpToTwoJobs(s0, m, message);
    var s2 := TakesItsJob(s0, s1, m, message, 0);
    s := TakesItsJob(s0, s2, m, message, 1);
  }

  lemma FirstLeases(o: Sys, s0: Sys, m: Email, message: MessageId) returns (s: Sys)
    requires Reachable(o, s0) && TwoJobs(s0, m, message) && s0.db.triage == map[]
    requires Works(s0, m, message, 0, s0.PcOf(0)) && s0.PcOf(0).Triaging?
    requires Works(s0, m, message, 1, s0.PcOf(1)) && s0.PcOf(1).Triaging?
    ensures Reachable(o, s) && Leased(s, m, message)
    ensures Works(s, m, message, 1, s.PcOf(1)) && s.PcOf(1).Triaging?
  {
    hide Enabled, Next, Reachable;
    RowIsLeased(s0, m, message, 0);
    s := Step(o, s0, LeaseTriage(0, s0.clock));
  }

  lemma SecondLeases(o: Sys, s0: Sys, m: Email, message: MessageId) returns (s: Sys)
    requires Reachable(o, s0) && Leased(s0, m, message)
    requires Works(s0, m, message, 1, s0.PcOf(1)) && s0.PcOf(1).Triaging?
    ensures Reachable(o, s) && TakenOver(s, m, message)
  {
    hide Enabled, Next, Reachable;
    TimeGoesBy(s0);
    var s1 := Step(o, s0, Tick(s0.clock + s0.cfg.leaseSeconds));
    RowIsLeased(s1, m, message, 1);
    s := Step(o, s1, LeaseTriage(1, s1.clock));
  }

  // The cursor has reached the message, and its row is not terminal and never was.
  ghost predicate Overrun(o: Sys, s: Sys, m: Email, message: MessageId) {
    && Reachable(o, s) && m in s.db.mailboxes && s.db.mailboxes[m].historyCursor == Some(2)
    && Addition(message, 2) in s.ProviderOf(m).additions && message !in s.ProviderOf(m).outside
    && Unfinished(s.db, (m, message)) && (m, message) !in s.settled
  }

  lemma CursorPasses(o: Sys, s0: Sys, m: Email, message: MessageId) returns (s: Sys)
    requires Reachable(o, s0) && TakenOver(s0, m, message)
    ensures Overrun(o, s, m, message)
  {
    hide Enabled, Next, Reachable;
    NothingIsFinalized(s0, m, message, s0.PcOf(0).triage.token);
    var s1 := Step(o, s0, SettleTriage(0, TriageSucceeded, None, None, s0.clock));
    JobIsCompleted(s1, m, message, s1.PcOf(0));
    s := Step(o, s1, CompleteHistory(0, s1.clock));
  }

  lemma SettledGrows(states: seq<Sys>, actions: seq<Action>, i: nat)
    requires IsRun(states, actions) && i + 1 < |states|
    ensures states[i].settled <= states[i + 1].settled
  {
    hide Enabled, Next;
    HistoryGrows(states[i], actions[i]);
  }

  lemma {:induction false} SettledLasts(states: seq<Sys>, actions: seq<Action>, i: nat, j: nat)
    requires IsRun(states, actions) && i <= j < |states|
    ensures states[i].settled <= states[j].settled
  {
    hide IsRun;
    if i < j {
      SettledLasts(states, actions, i, j - 1);
      SettledGrows(states, actions, j - 1);
    }
  }

  lemma NeverTerminal(states: seq<Sys>, actions: seq<Action>, i: nat, m: Email, message: MessageId)
    requires IsRun(states, actions) && i < |states| && (m, message) !in states[i].settled
    ensures !HadTerminalRow(states, i, m, message)
  {
    var key := (m, message);
    if HadTerminalRow(states, i, m, message) {
      var j :| 0 <= j <= i && key in states[j].db.triage && states[j].db.triage[key].Terminal();
      RunsKeepInv(states, actions, j);
      SettledLasts(states, actions, j, i);
      hide IsRun, Inv;
      TerminalIsSettled(states[j], key);
    }
  }

  // Why a covered message may be without a terminal row: from every initial state with an unused
  // mailbox a run leads to a cursor that has passed one.  Two workers triage the message for two jobs;
  // the first one's lease expires, the second takes the row, and the first finalizes nothing, reports
  // the message as done and completes its job.
  lemma OverrunLeavesTheMessage(s0: Sys, m: Email, message: MessageId)
    requires Init(s0) && m !in s0.providers && message != ""
    ensures exists states: seq<Sys>, actions: seq<Action> ::
              && IsRun(states, actions) && states[0] == s0 && Overrun(s0, states[|actions|], m, message)
              && !HadTerminalRow(states, |actions|, m, message)
  {
    hide Init, TwoJobs, Leased, TakenOver, IsRun, HadTerminalRow;
    var s1 := BothTakeTheirJobs(s0, m, message);
    var s2 := FirstLeases(s0, s1, m, message);
    var s3 := SecondLeases(s0, s2, m, message);
    var s := CursorPasses(s0, s3, m, message);
    var states, actions := RunTo(s0, s);
    NeverTerminal(states, actions, |actions|, m, message);
  }

  lemma RunTo(o: Sys, s: Sys) returns (states: seq<Sys>, actions: seq<Action>)
    requires Reachable(o, s)
    ensures IsRun(states, actions) && |states| == |actions| + 1 && states[0] == o && states[|actions|] == s
  {
    states, actions :| IsRun(states, actions) && states[0] == o && states[|actions|] == s;
  }
}
