// Generation fence, bounded recovery, lease exclusivity and terminal rows, for every run.

module NotificationRuns {
  import opened Common
  import opened NotificationRows
  import opened HistoryScan
  import opened NotificationProtocol
  import opened NotificationTransactions
  import opened NotificationLeases
  import opened NotificationInvariant
  import opened NotificationSteps
  import opened NotificationSafety
  import opened NotificationTheorems

  predicate IdleAt(s: Sys, m: Email) {
    m in s.db.mailboxes && s.db.mailboxes[m].resync.state.Idle?
  }

  function GenerationAt(s: Sys, m: Email): nat {
    if m in s.db.mailboxes then s.db.mailboxes[m].resync.generation else 0
  }

  lemma StepsAreLegal(states: seq<Sys>, actions: seq<Action>, i: nat)
    requires IsRun(states, actions) && i < |actions|
    ensures Legal(states[i].db, states[i + 1].db)
  {
    RunsKeepInv(states, actions, i);
    hide Inv, Legal, Enabled, Next;
    EveryStepLegal(states[i], actions[i]);
  }

  // ---------- The generation fence ----------

  // What a worker on the history path remembers: the step at which it read the mailbox without a
  // lock, and the row it saw.
  datatype Memory = Memory(mailbox: Email, readAt: nat, row: Mailbox)

  function Remembers(pc: Pc): Option<Memory> {
    if pc.Read? && pc.snapshot.Some? then Some(Memory(pc.job.mailbox, pc.readAt, pc.snapshot.value))
    else if (pc.Triaging? || pc.Probing? || pc.InTriage?) && pc.purpose.FromHistory? then
      Some(Memory(pc.job.mailbox, pc.purpose.readAt, pc.purpose.snapshot))
    else None
  }

  // Memories are made by the unlocked read, and only carried along after that.
  predicate MemoryKept(s: Sys, s': Sys, w: WorkerId) {
    var memory := Remembers(s'.PcOf(w));
    && (memory.Some? ==>
          || memory == Remembers(s.PcOf(w))
          || (memory.value.readAt == s.steps && memory.value.mailbox in s.db.mailboxes
              && memory.value.row == s.db.mailboxes[memory.value.mailbox]))
  }

  lemma FailMemory(s: Sys, v: WorkerId, job: JobClaim, code: ErrorCode, deadLetter: bool, requireResync: bool,
                   now: Time, at: Time, w: WorkerId)
    ensures MemoryKept(s, FailStep(s, v, job, code, deadLetter, requireResync, now, at), w)
  {
    hide FailJob;
  }

  lemma CompleteMemory(s: Sys, v: WorkerId, job: JobClaim, upTo: int, at: Time, w: WorkerId)
    ensures MemoryKept(s, CompleteStep(s, v, job, upTo, at), w)
  {
    hide CompleteJob;
  }

  lemma ManualMemory(s: Sys, v: WorkerId, job: JobClaim, resync: ResyncClaim, w: WorkerId)
    ensures MemoryKept(s, ManualStep(s, v, job, resync), w)
  {
    hide RequireManual;
  }

  lemma BranchMemory(s: Sys, v: WorkerId, now: Time, at: Time, w: WorkerId)
    requires s.PcOf(v).Read?
    ensures MemoryKept(s, BranchStep(s, v, now, at), w)
  {
    hide FailStep, CompleteStep, ClaimResync, DeadLetterJob, OwnsJob, Baseline, MemoryKept, Remembers;
    var job, read := s.PcOf(v).job, s.PcOf(v).snapshot;
    FailMemory(s, v, job, MailboxStateMissing, true, false, now, at, w);
    FailMemory(s, v, job, HistoryCursorMissing, true, true, now, at, w);
    if read.Some? {
      CompleteMemory(s, v, job, read.value.historyCursor.GetOr(0), at, w);
      if Shuttered(read.value) {
        NoMemory(s, BranchStep(s, v, now, at), v, w);
      }
    }
  }

  lemma NoMemory(s: Sys, s': Sys, v: WorkerId, w: WorkerId)
    requires s'.workers == s.workers[v := s'.PcOf(v)] && v in s'.workers
    requires var pc := s'.PcOf(v); pc.Resting? || pc.Requeueing? || pc.Recovering?
    ensures MemoryKept(s, s', w)
  {
  }

  lemma SettlePageMemory(s: Sys, v: WorkerId, at: Time, w: WorkerId)
    requires Enabled(s, SettlePage(v, at))
    ensures MemoryKept(s, SettlePageStep(s, v, at), w)
  {
    hide ManualStep, CheckpointResync, OwnsResync;
    ManualMemory(s, v, s.PcOf(v).job, s.PcOf(v).purpose.resync, w);
  }

  lemma JobStepsForget(s: Sys, a: Action, w: WorkerId)
    requires Enabled(s, a)
    requires a.Branch? || a.HistoryFailed? || a.CompleteHistory? || a.HitCap? || a.SettlePage?
             || a.CompleteAfterRecovery? || a.FinishFail?
    ensures MemoryKept(s, Act(s, a), w)
  {
    hide FailStep, CompleteStep, ManualStep, BranchStep, SettlePageStep, MemoryKept;
    match a
    case Branch(v, now, at) => BranchMemory(s, v, now, at, w);
    case HistoryFailed(v, failure, now, at) =>
      var (code, deadLetter, requireResync) := FailArguments(failure);
      FailMemory(s, v, s.PcOf(v).job, code, deadLetter, requireResync, now, at, w);
    case CompleteHistory(v, at) =>
      CompleteMemory(s, v, s.PcOf(v).job, Max(s.PcOf(v).purpose.cursor, s.PcOf(v).job.historyId), at, w);
    case HitCap(v) => ManualMemory(s, v, s.PcOf(v).job, s.PcOf(v).resync, w);
    case SettlePage(v, at) => SettlePageMemory(s, v, at, w);
    case CompleteAfterRecovery(v, at) => CompleteMemory(s, v, s.PcOf(v).job, s.PcOf(v).job.historyId, at, w);
    case FinishFail(v, now, at) => FailMemory(s, v, s.PcOf(v).job, s.PcOf(v).code, false, false, now, at, w);
  }

  lemma TriageStepsRemember(s: Sys, a: Action, w: WorkerId)
    requires Enabled(s, a) && (a.LeaseTriage? || a.ProbeTriage? || a.SettleTriage?)
    ensures MemoryKept(s, Act(s, a), w)
  {
    hide LeaseTriageStep, SettleTriageStep, ProbeTriageStep, MemoryKept;
    if a.LeaseTriage? {
      LeaseTriageRemembers(s, a.w, a.now, w);
    } else if a.ProbeTriage? {
      ProbeTriageRemembers(s, a.w, w);
    } else {
      SettleTriageRemembers(s, a, w);
    }
  }

  lemma LeaseTriageRemembers(s: Sys, v: WorkerId, now: Time, w: WorkerId)
    requires s.PcOf(v).Triaging? && s.PcOf(v).todo != []
    ensures MemoryKept(s, LeaseTriageStep(s, v, now), w)
  {
    hide ClaimTriage;
  }

  lemma ProbeTriageRemembers(s: Sys, v: WorkerId, w: WorkerId)
    requires s.PcOf(v).Probing? && s.PcOf(v).todo != []
    ensures MemoryKept(s, ProbeTriageStep(s, v), w)
  {
    hide TriageIsTerminal;
  }

  lemma SettleTriageRemembers(s: Sys, a: Action, w: WorkerId)
    requires a.SettleTriage? && Enabled(s, a)
    ensures MemoryKept(s, SettleTriageStep(s, a.w, a.state, a.summary, a.error, a.at), w)
  {
    hide FinalizeTriage, OwnsTriage;
  }

  lemma ReadStepsRemember(s: Sys, a: Action, w: WorkerId)
    requires Enabled(s, a)
    requires a.ReadMailbox? || a.HistoryListed? || a.ListInbox? || a.RecoveryFails? || a.ReadProfile? || a.Crash?
    ensures MemoryKept(s, Act(s, a), w)
  {
    hide Scan, Answers, Honours, Distinct, FailStep, CompleteStep, ManualStep, BranchStep, SettlePageStep,
         LeaseTriageStep, SettleTriageStep;
  }

  // Steps that read no history: queue traffic, leases, and what ends a worker's turn.
  predicate Forgets(a: Action) {
    a.LeaseWatch? || a.LeaseJob? || a.Tick? || a.MailboxChanges? || a.PushArrives? || a.Prune? || Ends(a)
  }

  predicate Ends(a: Action) {
    a.RenewWatch? || a.AbandonWatch? || a.FinishRecovery? || a.GiveUpTriage? || a.ReleaseRecovery?
    || a.FinishRequeue? || a.FinishDeadLetter?
  }

  lemma FinishForgets(s: Sys, a: Action, w: WorkerId)
    requires Enabled(s, a) && (a.ReleaseRecovery? || a.FinishRequeue? || a.FinishDeadLetter? || a.FinishRecovery?)
    ensures MemoryKept(s, FinishAct(s, a), w)
  {
    hide ReleaseResync, RequeueJob, DeadLetterJob, OwnsJob, OwnsResync, CompleteResync, Enabled;
  }

  lemma EndsForget(s: Sys, a: Action, w: WorkerId)
    requires Enabled(s, a) && Ends(a)
    ensures MemoryKept(s, Act(s, a), w)
  {
    if Finishing(a) {
      hide FinishAct, MemoryKept, Enabled;
      FinishForgets(s, a, w);
    } else {
      hide FailWatch, ReleaseTriage, OwnsTriage, OwnsWatch, CompleteWatch, NoBaseline, Enabled, FinishAct;
    }
  }

  lemma LeaseStepsForget(s: Sys, a: Action, w: WorkerId)
    requires Enabled(s, a) && Forgets(a)
    ensures MemoryKept(s, Act(s, a), w)
  {
    if Ends(a) {
      hide Enabled, Act;
      EndsForget(s, a, w);
    } else if a.LeaseWatch? || a.LeaseJob? {
      hide Enabled, Act, Forgets, MemoryKept;
      ClaimsForget(s, a, w);
    } else {
      hide Enqueue, PruneQueue, Enabled, FinishAct;
    }
  }

  lemma ClaimsForget(s: Sys, a: Action, w: WorkerId)
    requires Enabled(s, a) && (a.LeaseWatch? || a.LeaseJob?)
    ensures MemoryKept(s, Act(s, a), w)
  {
    if a.LeaseWatch? {
      hide ClaimWatch, Enabled;
    } else {
      hide Enabled, Act, MemoryKept;
      JobClaimForgets(s, a, w);
    }
  }

  lemma JobClaimForgets(s: Sys, a: Action, w: WorkerId)
    requires Enabled(s, a) && a.LeaseJob?
    ensures MemoryKept(s, Act(s, a), w)
  {
    hide ClaimJob, Enabled;
  }

  lemma MemoriesAreReads(s: Sys, a: Action, w: WorkerId)
    requires Enabled(s, a)
    ensures MemoryKept(s, Next(s, a), w)
  {
    if a.Branch? || a.HistoryFailed? || a.CompleteHistory? || a.HitCap? || a.SettlePage? || a.CompleteAfterRecovery?
       || a.FinishFail? {
      hide Enabled, Act;
      JobStepsForget(s, a, w);
    } else if a.LeaseTriage? || a.ProbeTriage? || a.SettleTriage? {
      hide Enabled, Act;
      TriageStepsRemember(s, a, w);
    } else if a.ReadMailbox? || a.HistoryListed? || a.ListInbox? || a.RecoveryFails? || a.ReadProfile? || a.Crash? {
      hide Enabled, Act;
      ReadStepsRemember(s, a, w);
    } else {
      hide Enabled, Act;
      LeaseStepsForget(s, a, w);
    }
  }

  // A remembered row is the stored row of an earlier state of the run.
  lemma {:induction false} MemoriesAreTrue(states: seq<Sys>, actions: seq<Action>, i: nat, w: WorkerId)
    requires IsRun(states, actions) && i < |states|
    ensures var memory := Remembers(states[i].PcOf(w));
            memory.Some? ==>
              && memory.value.readAt < i
              && memory.value.mailbox in states[memory.value.readAt].db.mailboxes
              && memory.value.row == states[memory.value.readAt].db.mailboxes[memory.value.mailbox]
  {
    if i > 0 {
      hide Enabled, Next, Inv;
      MemoriesAreTrue(states, actions, i - 1, w);
      MemoriesAreReads(states[i - 1], actions[i - 1], w);
      RunsKeepInv(states, actions, i - 1);
    }
  }

  // The generation never decreases, and has grown if a mailbox that was idle is not idle any more.
  lemma {:induction false} GenerationGrows(states: seq<Sys>, actions: seq<Action>, i: nat, j: nat, m: Email)
    requires IsRun(states, actions) && i <= j < |states| && m in states[i].db.mailboxes
    ensures m in states[j].db.mailboxes && GenerationAt(states[i], m) <= GenerationAt(states[j], m)
    ensures IdleAt(states[i], m) && !IdleAt(states[j], m) ==> GenerationAt(states[i], m) < GenerationAt(states[j], m)
  {
    hide Enabled, Next, Init;
    if i < j {
      GenerationGrows(states, actions, i, j - 1, m);
      StepsAreLegal(states, actions, j - 1);
    }
  }

  // A completion on the history path, whether the notification was stale or scanned.
  predicate CompletesOnHistoryPath(s: Sys, a: Action) {
    || a.CompleteHistory?
    || (a.Branch? && s.PcOf(a.w).Read? && s.PcOf(a.w).snapshot.Some? && !Shuttered(s.PcOf(a.w).snapshot.value)
        && s.PcOf(a.w).snapshot.value.historyCursor.Some?)
  }

  // The boolean `complete_job_and_advance_cursor` returns to that worker.
  predicate Returned(s: Sys, claim: JobClaim) {
    OwnsJob(s.db, claim) && claim.mailbox in s.db.mailboxes && !RecoveryChanged(s.db.mailboxes[claim.mailbox], claim)
  }

  predicate IdleThroughout(states: seq<Sys>, i: nat, j: nat, m: Email)
    requires i <= j < |states|
  {
    forall k :: i <= k <= j ==> IdleAt(states[k], m)
  }

  // The fence.  A worker that still owns its job gets True exactly when the mailbox was idle in
  // every state from its unlocked read to its commit, in the generation in which the job was
  // claimed.
  lemma FenceHolds(states: seq<Sys>, actions: seq<Action>, i: nat)
    requires IsRun(states, actions) && i < |actions| && CompletesOnHistoryPath(states[i], actions[i])
    requires OwnsJob(states[i].db, states[i].PcOf(actions[i].w).job)
    ensures var pc := states[i].PcOf(actions[i].w);
            && Remembers(pc).Some?
            && var read := Remembers(pc).value;
               && read.readAt < i
               && (Returned(states[i], pc.job) <==>
                     && IdleThroughout(states, read.readAt, i, pc.job.mailbox)
                     && GenerationAt(states[read.readAt], pc.job.mailbox) == pc.job.generation)
  {
    var w := actions[i].w;
    var pc := states[i].PcOf(w);
    HistoryCompletion(states, actions, i);
    MemoriesAreTrue(states, actions, i, w);
    hide IsRun, Inv, OwnsJob;
    var m, r := pc.job.mailbox, Remembers(pc).value.readAt;
    forall k | r <= k <= i
      ensures m in states[k].db.mailboxes && (GenerationAt(states[r], m) == GenerationAt(states[i], m) ==> IdleAt(states[k], m))
    {
      GenerationGrows(states, actions, r, k, m);
      GenerationGrows(states, actions, k, i, m);
    }
    if IdleThroughout(states, r, i, m) {
      IdleKeepsGeneration(states, actions, r, i, m);
    }
  }

  lemma HistoryCompletion(states: seq<Sys>, actions: seq<Action>, i: nat)
    requires IsRun(states, actions) && i < |actions| && CompletesOnHistoryPath(states[i], actions[i])
    ensures var pc := states[i].PcOf(actions[i].w);
            && Remembers(pc).Some? && Remembers(pc).value.mailbox == pc.job.mailbox
            && !Shuttered(Remembers(pc).value.row)
            && pc.job.mailbox in states[i].db.mailboxes
            && pc.job.generation <= Remembers(pc).value.row.resync.generation
                 <= states[i].db.mailboxes[pc.job.mailbox].resync.generation
  {
    RunsKeepInv(states, actions, i);
    hide TablesOk, GrantsOk, WorldOk, Act;
    assert Enabled(states[i], actions[i]);
    assert WorkerOk(states[i], actions[i].w);
  }

  lemma {:induction false} IdleKeepsGeneration(states: seq<Sys>, actions: seq<Action>, i: nat, j: nat, m: Email)
    requires IsRun(states, actions) && i <= j < |states| && IdleThroughout(states, i, j, m)
    ensures GenerationAt(states[i], m) == GenerationAt(states[j], m)
  {
    hide Enabled, Next, Init;
    if i < j {
      IdleKeepsGeneration(states, actions, i, j - 1, m);
      assert IdleAt(states[j - 1], m) && IdleAt(states[j], m);
      StepsAreLegal(states, actions, j - 1);
    }
  }

  // ---------- Bounded recovery ----------

  lemma RecoveryIsBounded(states: seq<Sys>, actions: seq<Action>, i: nat, m: Email)
    requires IsRun(states, actions) && i < |states| && m in states[i].db.mailboxes
    ensures BoundedRecovery(states[i].cfg, states[i].db.mailboxes[m])
  {
    RunsKeepInv(states, actions, i);
    hide GrantsOk, WorldOk, WorkerOk;
  }

  // How often recovery of the mailbox went from idle to required between two states.
  function RecoveriesStarted(states: seq<Sys>, i: nat, j: nat, m: Email): nat
    requires i <= j < |states|
  {
    if i == j then 0
    else RecoveriesStarted(states, i, j - 1, m) + (if IdleAt(states[j - 1], m) && !IdleAt(states[j], m) then 1 else 0)
  }

  // The generation counts the recoveries started: it grows by one for each, and only then.
  lemma {:induction false} GenerationCountsRecoveries(states: seq<Sys>, actions: seq<Action>, i: nat, j: nat, m: Email)
    requires IsRun(states, actions) && i <= j < |states| && m in states[i].db.mailboxes
    ensures m in states[j].db.mailboxes
    ensures GenerationAt(states[j], m) == GenerationAt(states[i], m) + RecoveriesStarted(states, i, j, m)
  {
    hide Enabled, Next, Init;
    if i < j {
      GenerationCountsRecoveries(states, actions, i, j - 1, m);
      StepsAreLegal(states, actions, j - 1);
    }
  }

  // manual_required is never left, and freezes the cursor for good.
  lemma {:induction false} ManualIsForEver(states: seq<Sys>, actions: seq<Action>, i: nat, j: nat, m: Email)
    requires IsRun(states, actions) && i <= j < |states|
    requires m in states[i].db.mailboxes && states[i].db.mailboxes[m].resync.state.ManualRequired?
    ensures m in states[j].db.mailboxes && states[j].db.mailboxes[m].resync.state.ManualRequired?
    ensures states[j].db.mailboxes[m].historyCursor == states[i].db.mailboxes[m].historyCursor
    ensures GenerationAt(states[j], m) == GenerationAt(states[i], m)
  {
    hide Enabled, Next, Init;
    if i < j {
      ManualIsForEver(states, actions, i, j - 1, m);
      StepsAreLegal(states, actions, j - 1);
    }
  }

  // The messages on the pages committed so far in the recovery under way.
  function CommittedMessages(states: seq<Sys>, actions: seq<Action>, i: nat, m: Email): nat
    requires |states| == |actions| + 1 && i < |states|
  {
    if i == 0 || m !in states[i].db.mailboxes || IdleAt(states[i], m) then 0
    else
      CommittedMessages(states, actions, i - 1, m)
      + (if Commits(states[i - 1], actions[i - 1], m) then states[i - 1].PcOf(actions[i - 1].w).purpose.listed else 0)
  }

  lemma FinishCounts(s: Sys, w: WorkerId, m: Email)
    requires Enabled(s, FinishRecovery(w))
    ensures var s' := Next(s, FinishRecovery(w));
            && (Counted(s'.db, m) == Counted(s.db, m) || (IdleAt(s', m) && Counted(s'.db, m) == 0))
            && (IdleAt(s, m) ==> IdleAt(s', m) && Counted(s'.db, m) == Counted(s.db, m))
            && (m in s'.db.mailboxes ==> m in s.db.mailboxes)
            && (IdleAt(s', m) && !IdleAt(s, m) ==> Counted(s'.db, m) == 0)
  {
  }

  // Recovery becomes idle only by completing, with its count cleared.
  predicate CountsStep(s: Sys, a: Action, s': Sys, m: Email) {
    && (IdleAt(s', m) && Counted(s.db, m) == 0 && IdleAt(s, m) ==> Counted(s'.db, m) == 0)
    && (IdleAt(s', m) && !IdleAt(s, m) ==> Counted(s'.db, m) == 0)
    && (m in s'.db.mailboxes && !IdleAt(s', m) && (IdleAt(s, m) ==> Counted(s.db, m) == 0) ==>
          Counted(s'.db, m) == Counted(s.db, m) + (if Commits(s, a, m) then s.PcOf(a.w).purpose.listed else 0))
  }

  lemma CommitsInRecovery(s: Sys, a: Action, m: Email)
    requires Commits(s, a, m)
    ensures m in s.db.mailboxes && !IdleAt(s, m)
  {
  }

  lemma CountsMove(s: Sys, a: Action, m: Email)
    requires Inv(s) && Enabled(s, a)
    ensures CountsStep(s, a, Next(s, a), m)
  {
    hide Inv, Enabled, Act;
    EveryStepLegal(s, a);
    if a.FinishRecovery? {
      FinishCounts(s, a.w, m);
    } else if a.SettlePage? {
      SettlePageCounts(s, a, m);
      if Commits(s, a, m) {
        CommitsInRecovery(s, a, m);
      }
    } else {
      OthersStayBusy(s, a);
    }
    hide Commits;
  }

  lemma CountsOfRun(states: seq<Sys>, actions: seq<Action>, i: nat, m: Email)
    requires IsRun(states, actions) && i < |actions|
    ensures CountsStep(states[i], actions[i], states[i + 1], m)
  {
    RunsKeepInv(states, actions, i);
    hide Inv, Enabled, Next, CountsStep;
    CountsMove(states[i], actions[i], m);
  }

  // The stored message count is the number of messages committed in the recovery under way.
  lemma {:induction false} CountIsCommitted(states: seq<Sys>, actions: seq<Action>, i: nat, m: Email)
    requires IsRun(states, actions) && i < |states| && m in states[i].db.mailboxes
    ensures states[i].db.mailboxes[m].resync.messageCount == CommittedMessages(states, actions, i, m)
  {
    if i > 0 {
      hide IsRun, Commits, RowsStep;
      CountsOfRun(states, actions, i - 1, m);
      StepsAreLegal(states, actions, i - 1);
      if m in states[i - 1].db.mailboxes {
        CountIsCommitted(states, actions, i - 1, m);
      }
    }
  }

  lemma OwnedPage(s: Sys, w: WorkerId)
    requires Inv(s) && s.PcOf(w).Profiled? && OwnsResync(s.db, s.PcOf(w).resync)
    ensures var pc := s.PcOf(w);
            s.db.mailboxes[pc.resync.mailbox].resync.messageCount + pc.listed <= s.cfg.resyncMaxMessages
  {
    hide TablesOk, GrantsOk, WorldOk;
    assert WorkerOk(s, w);
  }

  // A recovery that completes listed at most the configured number of messages: those of its
  // committed pages and those of its last page.
  lemma CompletedRecoveryIsBounded(states: seq<Sys>, actions: seq<Action>, i: nat, w: WorkerId)
    requires IsRun(states, actions) && i < |actions| && actions[i] == FinishRecovery(w) && states[i].PcOf(w).Profiled?
    requires OwnsResync(states[i].db, states[i].PcOf(w).resync)
    ensures CommittedMessages(states, actions, i, states[i].PcOf(w).resync.mailbox) + states[i].PcOf(w).listed
              <= states[i].cfg.resyncMaxMessages
  {
    var resync := states[i].PcOf(w).resync;
    hide IsRun;
    RunsKeepInv(states, actions, i);
    hide Inv;
    CountIsCommitted(states, actions, i, resync.mailbox);
    OwnedPage(states[i], w);
  }

  // ---------- Leases ----------

  // Two claims of one job, triage row, recovery or watch never hold it at the same time.
  lemma ClaimsNeverOverlap(states: seq<Sys>, actions: seq<Action>, i: nat, earlier: Token, later: Token)
    requires IsRun(states, actions) && i < |states|
    requires earlier in states[i].grants && later in states[i].grants && earlier < later
    requires states[i].grants[earlier].resource == states[i].grants[later].resource
    ensures OverBy(states[i].grants[earlier], states[i].grants[later].grantedAt)
  {
    RunsKeepInv(states, actions, i);
    hide TablesOk, WorldOk, WorkerOk, StoredTokensAreLatest, LiveLeasesAreStored;
  }

  // The token is the last one ever handed out for the resource, and was not released.
  predicate IsLatest(s: Sys, r: Resource, token: Token) {
    && token in s.grants && s.grants[token].resource == r && s.grants[token].releasedAt.None?
    && (forall t <- s.grants :: s.grants[t].resource == r ==> t <= token)
  }

  // Every transaction that finalizes, checkpoints, completes or releases tests ownership first;
  // only the latest token passes the test, however stale the claim it is run with.
  lemma OnlyTheLatestTokenActs(states: seq<Sys>, actions: seq<Action>, i: nat)
    requires IsRun(states, actions) && i < |states|
    ensures forall c: JobClaim :: OwnsJob(states[i].db, c) ==> IsLatest(states[i], JobRow(c.id), c.token)
    ensures forall c: TriageClaim :: OwnsTriage(states[i].db, c) ==> IsLatest(states[i], TriageRow(c.key), c.token)
    ensures forall c: ResyncClaim :: OwnsResync(states[i].db, c) ==> IsLatest(states[i], RecoveryOf(c.mailbox), c.token)
    ensures forall m: Email, token: Token ::
              OwnsWatch(states[i].db, m, token) ==> IsLatest(states[i], WatchOf(m), token)
  {
    RunsKeepInv(states, actions, i);
    var s := states[i];
    hide WorldOk, WorkerOk, DisjointWindows, LiveLeasesAreStored, IsRun;
    forall c: JobClaim | OwnsJob(s.db, c) ensures IsLatest(s, JobRow(c.id), c.token) {
      assert Holder(s.db, JobRow(c.id)).Some?;
    }
    forall c: TriageClaim | OwnsTriage(s.db, c) ensures IsLatest(s, TriageRow(c.key), c.token) {
      assert Holder(s.db, TriageRow(c.key)).Some?;
    }
    forall c: ResyncClaim | OwnsResync(s.db, c) ensures IsLatest(s, RecoveryOf(c.mailbox), c.token) {
      assert Holder(s.db, RecoveryOf(c.mailbox)).Some?;
    }
    forall m: Email, token: Token | OwnsWatch(s.db, m, token) ensures IsLatest(s, WatchOf(m), token) {
      assert Holder(s.db, WatchOf(m)).Some?;
    }
  }

  // ---------- Terminal rows ----------

  lemma {:induction false} TerminalJobsStay(states: seq<Sys>, actions: seq<Action>, i: nat, j: nat, id: JobId)
    requires IsRun(states, actions) && i <= j < |states|
    requires forall k :: i <= k <= j ==> id in states[k].db.jobs
    requires states[i].db.jobs[id].Terminal()
    ensures states[j].db.jobs[id] == states[i].db.jobs[id]
  {
    hide Enabled, Next, Init;
    if i < j {
      TerminalJobsStay(states, actions, i, j - 1, id);
      StepsAreLegal(states, actions, j - 1);
      assert id in states[j].db.jobs;
    }
  }

  lemma {:induction false} TerminalTriageStays(states: seq<Sys>, actions: seq<Action>, i: nat, j: nat, key: TriageKey)
    requires IsRun(states, actions) && i <= j < |states|
    requires forall k :: i <= k <= j ==> key in states[k].db.triage
    requires states[i].db.triage[key].Terminal()
    ensures states[j].db.triage[key] == states[i].db.triage[key]
  {
    hide Enabled, Next, Init;
    if i < j {
      TerminalTriageStays(states, actions, i, j - 1, key);
      StepsAreLegal(states, actions, j - 1);
      assert key in states[j].db.triage;
    }
  }

  // ---------- Deduplication ----------

  // At most one queue row per Pub/Sub message.
  predicate UniqueDeliveries(db: Tables) {
    forall a, b :: a in db.jobs && b in db.jobs && db.jobs[a].pubsubId == db.jobs[b].pubsubId ==> a == b
  }

  // No row is added, and none changes its message ID.
  predicate SameDeliveries(db: Tables, db': Tables) {
    forall id <- db'.jobs :: id in db.jobs && db'.jobs[id].pubsubId == db.jobs[id].pubsubId
  }

  lemma SameJobs(db: Tables, db': Tables)
    requires db'.jobs == db.jobs
    ensures SameDeliveries(db, db')
  {
  }

  lemma OneJobKeepsDeliveries(db: Tables, db': Tables, id: JobId)
    requires db'.jobs == db.jobs
          || (id in db.jobs && id in db'.jobs && db'.jobs == db.jobs[id := db'.jobs[id]]
              && db'.jobs[id].pubsubId == db.jobs[id].pubsubId)
    ensures SameDeliveries(db, db')
  {
  }

  lemma ClaimJobDeliveries(cfg: Config, db: Tables, id: JobId, now: Time, at: Time)
    requires id in db.jobs && db.jobs[id].mailbox in db.mailboxes
    ensures SameDeliveries(db, ClaimJob(cfg, db, id, now, at).0)
  {
    hide RetryAt, BackOffRecovery, SameDeliveries;
    OneJobKeepsDeliveries(db, ClaimJob(cfg, db, id, now, at).0, id);
  }

  lemma CompleteJobDeliveries(cfg: Config, db: Tables, claim: JobClaim, upTo: int, at: Time)
    ensures SameDeliveries(db, CompleteJob(cfg, db, claim, upTo, at).0)
  {
    hide RetryAt, SameDeliveries;
    OneJobKeepsDeliveries(db, CompleteJob(cfg, db, claim, upTo, at).0, claim.id);
  }

  lemma FailJobDeliveries(cfg: Config, db: Tables, claim: JobClaim, code: ErrorCode, deadLetter: bool,
                          requireResync: bool, now: Time, at: Time)
    ensures SameDeliveries(db, FailJob(cfg, db, claim, code, deadLetter, requireResync, now, at))
  {
    hide RetryAt, StartRecovery, SameDeliveries;
    OneJobKeepsDeliveries(db, FailJob(cfg, db, claim, code, deadLetter, requireResync, now, at), claim.id);
  }

  lemma RequeueDeliveries(cfg: Config, db: Tables, claim: JobClaim, code: ErrorCode, next: Option<Time>, at: Time)
    ensures SameDeliveries(db, RequeueJob(cfg, db, claim, code, next, at))
    ensures SameDeliveries(db, DeadLetterJob(db, claim, code, at))
  {
    hide RetryAt, SameDeliveries;
    OneJobKeepsDeliveries(db, RequeueJob(cfg, db, claim, code, next, at), claim.id);
    OneJobKeepsDeliveries(db, DeadLetterJob(db, claim, code, at), claim.id);
  }

  lemma BranchDeliveries(s: Sys, w: WorkerId, now: Time, at: Time)
    requires Enabled(s, Branch(w, now, at))
    ensures SameDeliveries(s.db, BranchStep(s, w, now, at).db)
  {
    hide SameDeliveries, FailJob, CompleteJob, DeadLetterJob;
    var job, read := s.PcOf(w).job, s.PcOf(w).snapshot;
    FailJobDeliveries(s.cfg, s.db, job, MailboxStateMissing, true, false, now, at);
    FailJobDeliveries(s.cfg, s.db, job, HistoryCursorMissing, true, true, now, at);
    RequeueDeliveries(s.cfg, s.db, job, ResyncManualRequired, Option.None, at);
    if read.Some? {
      CompleteJobDeliveries(s.cfg, s.db, job, read.value.historyCursor.GetOr(0), at);
      SameJobs(s.db, ClaimResync(s.cfg, s.db, job.mailbox, read.value.userId, now, at).0);
    }
  }

  lemma JobStepDeliveries(s: Sys, a: Action)
    requires Enabled(s, a) && (JobStep(a) || a.FinishRequeue? || a.FinishDeadLetter?)
    ensures SameDeliveries(s.db, Act(s, a).db)
  {
    hide SameDeliveries, ClaimJob, FailJob, CompleteJob, BranchStep, RequeueJob, DeadLetterJob;
    match a
    case LeaseJob(w, owner, id, now, at) => ClaimJobDeliveries(s.cfg, s.db, id, now, at);
    case Branch(w, now, at) => BranchDeliveries(s, w, now, at);
    case HistoryFailed(w, failure, now, at) =>
      var (code, deadLetter, requireResync) := FailArguments(failure);
      FailJobDeliveries(s.cfg, s.db, s.PcOf(w).job, code, deadLetter, requireResync, now, at);
    case FinishFail(w, now, at) => FailJobDeliveries(s.cfg, s.db, s.PcOf(w).job, s.PcOf(w).code, false, false, now, at);
    case CompleteHistory(w, at) =>
      CompleteJobDeliveries(s.cfg, s.db, s.PcOf(w).job, Max(s.PcOf(w).purpose.cursor, s.PcOf(w).job.historyId), at);
    case CompleteAfterRecovery(w, at) => CompleteJobDeliveries(s.cfg, s.db, s.PcOf(w).job, s.PcOf(w).job.historyId, at);
    case FinishRequeue(w, at) =>
      var pc := s.PcOf(w);
      RequeueDeliveries(s.cfg, s.db, pc.job, pc.code, if pc.atOnce then Some(at) else Option.None, at);
    case FinishDeadLetter(w, at) => RequeueDeliveries(s.cfg, s.db, s.PcOf(w).job, s.PcOf(w).code, Option.None, at);
  }

  lemma OtherStepDeliveries(s: Sys, a: Action)
    requires Enabled(s, a) && !a.PushArrives? && !a.Prune? && !JobStep(a) && !a.FinishRequeue? && !a.FinishDeadLetter?
    ensures Act(s, a).db.jobs == s.db.jobs
  {
    if Finishing(a) {
      hide Enabled, Act;
      FinishDeliveries(s, a);
    } else {
      hide Enabled, FinishAct;
    }
  }

  lemma FinishDeliveries(s: Sys, a: Action)
    requires Enabled(s, a) && Finishing(a) && !JobStep(a) && !a.FinishRequeue? && !a.FinishDeadLetter?
    ensures Act(s, a).db.jobs == s.db.jobs
  {
    if a.SettlePage? || a.HitCap? {
      hide OwnsResync, Enabled;
    } else {
      hide OwnsResync, Enabled, SettlePageStep, ManualStep;
    }
  }

  lemma DeliveriesStep(s: Sys, a: Action)
    requires Inv(s) && Enabled(s, a) && UniqueDeliveries(s.db)
    ensures UniqueDeliveries(Next(s, a).db)
  {
    hide Inv;
    if a.PushArrives? {
      EnqueueDeliveries(s.db, a.envelope, a.owner, a.configured, a.newId, a.now);
    } else if a.Prune? {
    } else {
      hide Act, Enabled;
      if JobStep(a) || a.FinishRequeue? || a.FinishDeadLetter? {
        JobStepDeliveries(s, a);
      } else {
        OtherStepDeliveries(s, a);
      }
    }
  }

  lemma EnqueueDeliveries(db: Tables, envelope: Envelope, owner: UserId, configured: Email, newId: JobId, now: Time)
    requires UniqueDeliveries(db) && newId !in db.jobs
    ensures UniqueDeliveries(Enqueue(db, envelope, owner, configured, newId, now).0)
  {
  }

  // While its row is retained, a Pub/Sub message is queued once, however often it is delivered.
  lemma {:induction false} DeliveriesAreUnique(states: seq<Sys>, actions: seq<Action>, i: nat)
    requires IsRun(states, actions) && i < |states|
    ensures UniqueDeliveries(states[i].db)
  {
    hide Enabled, Next, Inv;
    if i > 0 {
      DeliveriesAreUnique(states, actions, i - 1);
      RunsKeepInv(states, actions, i - 1);
      hide UniqueDeliveries;
      DeliveriesStep(states[i - 1], actions[i - 1]);
    }
  }
}
