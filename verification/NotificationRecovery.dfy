// What a bounded recovery accounts for, for every run (server/workers/mail_notifications.py:248-304).

module NotificationRecovery {
  import opened Common
  import opened NotificationRows
  import opened HistoryScan
  import opened NotificationProtocol
  import opened NotificationTransactions
  import opened NotificationLeases
  import opened NotificationInvariant
  import opened NotificationSteps
  import opened NotificationSafety
  import opened NotificationTheorems
  import opened NotificationRuns

  // ---------- What a worker knows ----------

  // Of a recovery: the token of the next page, if any, the messages listed so far, and those of them
  // still to triage.  Of a mailbox that waits for its operator: just that.
  datatype Knowledge =
    | Nothing
    | InPages(mailbox: Email, generation: nat, token: Option<string>, listing: Listing, todo: seq<MessageId>)
    | Manual(mailbox: Email)

  function Knows(pc: Pc): Knowledge {
    match pc
    case Read(job, snapshot, _, _) =>
      if snapshot.Some? && snapshot.value.resync.state.ManualRequired? then Manual(job.mailbox) else Nothing
    case Triaging(job, purpose, todo, _) => KnowsOf(job, purpose, todo)
    case Probing(job, purpose, todo, _) => KnowsOf(job, purpose, todo)
    case InTriage(job, purpose, todo, _, _) => KnowsOf(job, purpose, todo)
    case Recovering(job, resync, _, committed) =>
      if resync.pageToken.Some? then InPages(job.mailbox, resync.generation, resync.pageToken, committed, []) else Nothing
    case Profiled(job, resync, _, _, listing) => InPages(job.mailbox, resync.generation, None, listing, [])
    case DeadLettering(job, _) => Manual(job.mailbox)
    case _ => Nothing
  }

  function KnowsOf(job: JobClaim, purpose: Purpose, todo: seq<MessageId>): Knowledge {
    match purpose
    case FromHistory(_, _, _) => Nothing
    case FromRecovery(resync, _, nextPage, _, listing) =>
      InPages(job.mailbox, resync.generation, nextPage, listing, todo)
  }

  function ActorOf(a: Action): Option<WorkerId> {
    if a.Tick? || a.MailboxChanges? || a.PushArrives? || a.Prune? then None else Some(a.w)
  }

  // Whoever acts, the others stay where they are, and the actor ends up at `pc`.
  predicate Goes(s: Sys, s': Sys, w: WorkerId, pc: Pc) {
    s'.workers == s.workers[w := pc]
  }

  // The actor keeps its knowledge or drops it.
  ghost predicate Forgetful(s: Sys, s': Sys, w: WorkerId) {
    && (forall v: WorkerId :: v != w ==> s'.PcOf(v) == s.PcOf(v))
    && (Knows(s'.PcOf(w)).Nothing? || Knows(s'.PcOf(w)) == Knows(s.PcOf(w)))
  }

  lemma GoesForgets(s: Sys, s': Sys, w: WorkerId, pc: Pc)
    requires Goes(s, s', w, pc) && (Knows(pc).Nothing? || Knows(pc) == Knows(s.PcOf(w)))
    ensures Forgetful(s, s', w)
  {
  }

  lemma StaysForgets(s: Sys, s': Sys, w: WorkerId)
    requires s'.workers == s.workers
    ensures Forgetful(s, s', w)
  {
  }

  lemma FailForgets(s: Sys, w: WorkerId, job: JobClaim, code: ErrorCode, deadLetter: bool, requireResync: bool,
                    now: Time, at: Time)
    ensures Forgetful(s, FailStep(s, w, job, code, deadLetter, requireResync, now, at), w)
  {
    hide FailJob;
  }

  lemma CompleteForgets(s: Sys, w: WorkerId, job: JobClaim, upTo: int, at: Time)
    ensures Forgetful(s, CompleteStep(s, w, job, upTo, at), w)
  {
    hide CompleteJob;
  }

  lemma JobStepsForgetPages(s: Sys, a: Action)
    requires Enabled(s, a)
    requires a.HistoryFailed? || a.CompleteHistory? || a.CompleteAfterRecovery? || a.FinishFail?
    ensures Forgetful(s, Act(s, a), a.w)
  {
    hide FailStep, CompleteStep, Forgetful;
    match a
    case HistoryFailed(w, failure, now, at) =>
      var (code, deadLetter, requireResync) := FailArguments(failure);
      FailForgets(s, w, s.PcOf(w).job, code, deadLetter, requireResync, now, at);
    case CompleteHistory(w, at) =>
      CompleteForgets(s, w, s.PcOf(w).job, Max(s.PcOf(w).purpose.cursor, s.PcOf(w).job.historyId), at);
    case CompleteAfterRecovery(w, at) => CompleteForgets(s, w, s.PcOf(w).job, s.PcOf(w).job.historyId, at);
    case FinishFail(w, now, at) => FailForgets(s, w, s.PcOf(w).job, s.PcOf(w).code, false, false, now, at);
  }

  // Leases on jobs and watches, and what ends a worker's turn.
  lemma LeaseStepsForgetPages(s: Sys, a: Action)
    requires Enabled(s, a) && (a.LeaseWatch? || a.LeaseJob? || a.RenewWatch? || a.AbandonWatch? || a.Crash?)
    ensures Forgetful(s, Act(s, a), a.w)
  {
    hide ClaimJob, ClaimWatch, FailWatch, CompleteWatch, OwnsWatch, NoBaseline, Enabled, Forgetful;
    if Act(s, a).workers == s.workers {
      StaysForgets(s, Act(s, a), a.w);
    } else {
      GoesForgets(s, Act(s, a), a.w, Act(s, a).PcOf(a.w));
    }
  }

  lemma TriageStepsForgetPages(s: Sys, a: Action)
    requires Enabled(s, a) && (a.LeaseTriage? || a.GiveUpTriage?)
    ensures Forgetful(s, Act(s, a), a.w)
  {
    hide ClaimTriage, ReleaseTriage, OwnsTriage, Source, Forgetful;
    GoesForgets(s, Act(s, a), a.w, Act(s, a).PcOf(a.w));
  }

  lemma HistoryListedForgetsPages(s: Sys, a: Action)
    requires Enabled(s, a) && a.HistoryListed?
    ensures Forgetful(s, Act(s, a), a.w)
  {
    hide Scan, WantsHistory, Forgetful;
    GoesForgets(s, Act(s, a), a.w, Act(s, a).PcOf(a.w));
  }

  lemma RecoveryStepsForgetPages(s: Sys, a: Action)
    requires Enabled(s, a) && (a.RecoveryFails? || a.ReadProfile? || a.FinishRecovery?)
    ensures Forgetful(s, FinishAct(s, a), a.w)
  {
    hide CompleteResync, OwnsResync, Forgetful;
    GoesForgets(s, FinishAct(s, a), a.w, FinishAct(s, a).PcOf(a.w));
  }

  lemma FinishStepsForgetPages(s: Sys, a: Action)
    requires Enabled(s, a) && (a.ReleaseRecovery? || a.FinishRequeue? || a.FinishDeadLetter?)
    ensures Forgetful(s, FinishAct(s, a), a.w)
  {
    hide ReleaseResync, RequeueJob, DeadLetterJob, OwnsJob, OwnsResync, Forgetful;
    GoesForgets(s, FinishAct(s, a), a.w, FinishAct(s, a).PcOf(a.w));
  }

  // The steps by which a worker learns.
  predicate Learns(a: Action) {
    a.ReadMailbox? || a.Branch? || a.ListInbox? || a.ProbeTriage? || a.SettleTriage? || a.HitCap? || a.SettlePage?
  }

  lemma OthersForget(s: Sys, a: Action)
    requires Enabled(s, a) && ActorOf(a).Some? && !Learns(a)
    ensures Forgetful(s, Act(s, a), a.w)
  {
    hide Enabled, Act, Forgetful;
    if a.HistoryFailed? || a.CompleteHistory? || a.CompleteAfterRecovery? || a.FinishFail? {
      JobStepsForgetPages(s, a);
    } else if a.LeaseWatch? || a.LeaseJob? || a.RenewWatch? || a.AbandonWatch? || a.Crash? {
      LeaseStepsForgetPages(s, a);
    } else if a.LeaseTriage? || a.GiveUpTriage? {
      TriageStepsForgetPages(s, a);
    } else if a.HistoryListed? {
      HistoryListedForgetsPages(s, a);
    } else {
      FinishingAct(s, a);
      if a.RecoveryFails? || a.ReadProfile? || a.FinishRecovery? {
        RecoveryStepsForgetPages(s, a);
      } else {
        FinishStepsForgetPages(s, a);
      }
    }
  }

  lemma FinishingAct(s: Sys, a: Action)
    requires Enabled(s, a) && Finishing(a)
    ensures Act(s, a) == FinishAct(s, a)
  {
    hide FinishAct, Enabled;
  }

  // ---------- The invariant ----------

  predicate ManualAt(s: Sys, m: Email) {
    m in s.db.mailboxes && s.db.mailboxes[m].resync.state.ManualRequired?
  }

  // Every listed message was seen, or is still to do.
  predicate SeenOrTodo(s: Sys, m: Email, ids: set<MessageId>, todo: seq<MessageId>) {
    forall id <- ids :: Seen(s, m, id) || id in todo
  }

  predicate KnowsOk(s: Sys, k: Knowledge) {
    match k
    case Nothing => true
    case InPages(m, generation, token, listing, todo) =>
      && listing.generation == generation && listing.next == token && listing.since <= s.ProviderOf(m).head
      && SeenOrTodo(s, m, listing.ids, todo)
      && (token.None? ==> ListsAll(s.ProviderOf(m), listing))
    case Manual(m) => ManualAt(s, m)
  }

  // The stored page token belongs to the pages committed in the current recovery.
  predicate ChainOk(s: Sys, m: Email) {
    && SeenOrTodo(s, m, s.ChainOf(m).ids, []) && s.ChainOf(m).since <= s.ProviderOf(m).head
    && (m in s.db.mailboxes && s.db.mailboxes[m].resync.pageToken.Some? ==>
          && m in s.chains && s.ChainOf(m).generation == s.db.mailboxes[m].resync.generation
          && s.ChainOf(m).next == s.db.mailboxes[m].resync.pageToken)
  }

  ghost predicate RecoveryOk(s: Sys) {
    && (forall m: Email :: ChainOk(s, m))
    && (forall w: WorkerId :: KnowsOk(s, Knows(s.PcOf(w))))
  }

  // ---------- What never goes back ----------

  predicate ProviderGrows(p: Provider, q: Provider) {
    && p.head <= q.head && p.outside <= q.outside && p.additions <= q.additions
    && (forall a <- q.additions :: a in p.additions || a.at > p.head)
  }

  ghost predicate Grows(s: Sys, s': Sys) {
    && s.recorded <= s'.recorded && s.settled <= s'.settled && s.missed <= s'.missed
    && (forall m: Email :: ProviderGrows(s.ProviderOf(m), s'.ProviderOf(m)))
    && (forall m: Email :: ManualAt(s, m) ==> ManualAt(s', m))
  }

  lemma ManualStays(s: Sys, a: Action, m: Email)
    requires Inv(s) && Enabled(s, a) && ManualAt(s, m)
    ensures ManualAt(Next(s, a), m)
  {
    hide Inv, Enabled, Next;
    EveryStepLegal(s, a);
    assert LegalMove(s.db.mailboxes[m], Next(s, a).db.mailboxes[m]);
  }

  lemma HistoryGrows(s: Sys, a: Action)
    requires Enabled(s, a)
    ensures var s' := Next(s, a);
            s.recorded <= s'.recorded && s.settled <= s'.settled && s.missed <= s'.missed
    ensures !a.MailboxChanges? ==> Next(s, a).providers == s.providers
    ensures !a.SettlePage? ==> Next(s, a).chains == s.chains
  {
    if a.MailboxChanges? {
      ActIsChange(s, a);
    } else {
      hide Enabled, Act;
      if a.LeaseTriage? {
        ActIsLeaseTriage(s, a);
        LeaseTriageHistory(s, a.w, a.now);
      } else if a.SettleTriage? {
        SettleTriageHistory(s, a);
      } else if a.RenewWatch? || a.FinishRecovery? {
        BaselineHistory(s, a, "");
      } else if a.SettlePage? {
        ActIsSettlePage(s, a, "");
      } else {
        OtherStepsWriteNoHistory(s, a);
      }
    }
  }

  lemma ProvidersGrow(s: Sys, a: Action)
    requires Inv(s) && Enabled(s, a) && a.MailboxChanges?
    ensures forall m: Email :: ProviderGrows(s.ProviderOf(m), Next(s, a).ProviderOf(m))
  {
    assert forall n: Email :: n != a.mailbox ==> Next(s, a).ProviderOf(n) == s.ProviderOf(n);
  }

  lemma EverythingGrows(s: Sys, a: Action)
    requires Inv(s) && Enabled(s, a)
    ensures Grows(s, Next(s, a))
  {
    HistoryGrows(s, a);
    forall m: Email ensures ManualAt(s, m) ==> ManualAt(Next(s, a), m) {
      if ManualAt(s, m) {
        ManualStays(s, a, m);
      }
    }
    if a.MailboxChanges? {
      ProvidersGrow(s, a);
    }
    hide Inv, Enabled, Next, ManualAt;
  }

  lemma SeenGrows(s: Sys, s': Sys, m: Email, ids: set<MessageId>, todo: seq<MessageId>)
    requires Grows(s, s') && SeenOrTodo(s, m, ids, todo)
    ensures SeenOrTodo(s', m, ids, todo)
  {
  }

  lemma KnowledgeStays(s: Sys, s': Sys, k: Knowledge)
    requires Grows(s, s') && KnowsOk(s, k)
    ensures KnowsOk(s', k)
  {
    match k
    case Nothing =>
    case Manual(m) =>
    case InPages(m, _, _, listing, todo) =>
      SeenGrows(s, s', m, listing.ids, todo);
      hide SeenOrTodo;
      assert ProviderGrows(s.ProviderOf(m), s'.ProviderOf(m));
  }

  // ---------- The steps by which a worker learns ----------

  ghost predicate OthersStay(s: Sys, s': Sys, w: WorkerId) {
    forall v: WorkerId :: v != w ==> s'.PcOf(v) == s.PcOf(v)
  }

  lemma GoesAlone(s: Sys, s': Sys, w: WorkerId, pc: Pc)
    requires Goes(s, s', w, pc)
    ensures OthersStay(s, s', w) && s'.PcOf(w) == pc
  {
  }

  lemma ReadMailboxLearns(s: Sys, w: WorkerId)
    requires Enabled(s, ReadMailbox(w))
    ensures var s' := Next(s, ReadMailbox(w));
            && OthersStay(s, s', w)
            && (Knows(s'.PcOf(w)).Nothing?
                || (Knows(s'.PcOf(w)) == Manual(s.PcOf(w).job.mailbox) && ManualAt(s, s.PcOf(w).job.mailbox)))
  {
    var s' := Next(s, ReadMailbox(w));
    GoesAlone(s, s', w, s'.PcOf(w));
  }

  predicate EntersPage(s: Sys, w: WorkerId, pc: Pc)
    requires s.PcOf(w).Read?
  {
    var m := s.PcOf(w).job.mailbox;
    && m in s.db.mailboxes && s.db.mailboxes[m].resync.pageToken.Some?
    && Knows(pc) == InPages(m, s.db.mailboxes[m].resync.generation, s.db.mailboxes[m].resync.pageToken, s.ChainOf(m), [])
  }

  lemma BranchLearns(s: Sys, w: WorkerId, now: Time, at: Time)
    requires s.PcOf(w).Read?
    ensures var s' := BranchStep(s, w, now, at);
            OthersStay(s, s', w) && (Knows(s'.PcOf(w)).Nothing? || EntersPage(s, w, s'.PcOf(w)))
  {
    hide FailStep, CompleteStep, DeadLetterJob, OwnsJob, ClaimResync, OthersStay, EntersPage, Shuttered, Sys.PcOf;
    var job, read := s.PcOf(w).job, s.PcOf(w).snapshot;
    FailForgetsAll(s, w, job, MailboxStateMissing, true, false, now, at);
    FailForgetsAll(s, w, job, HistoryCursorMissing, true, true, now, at);
    if read.Some? {
      CompleteForgetsAll(s, w, job, read.value.historyCursor.GetOr(0), at);
      if Shuttered(read.value) {
        ShutteredLearns(s, w, now, at);
      }
    }
  }

  lemma ShutteredLearns(s: Sys, w: WorkerId, now: Time, at: Time)
    requires s.PcOf(w).Read? && s.PcOf(w).snapshot.Some? && Shuttered(s.PcOf(w).snapshot.value)
    ensures var s' := BranchStep(s, w, now, at);
            OthersStay(s, s', w) && (Knows(s'.PcOf(w)).Nothing? || EntersPage(s, w, s'.PcOf(w)))
  {
    hide FailStep, CompleteStep, DeadLetterJob, OwnsJob, Baseline, ClaimResync, OthersStay, EntersPage, Sys.ChainOf,
         Shuttered;
    var s' := BranchStep(s, w, now, at);
    GoesAlone(s, s', w, s'.PcOf(w));
    if s'.PcOf(w).Recovering? {
      RecoveringPage(s, w, s.PcOf(w).snapshot.value.userId, now, at, s'.PcOf(w));
    }
  }

  lemma RecoveringPage(s: Sys, w: WorkerId, owner: UserId, now: Time, at: Time, pc: Pc)
    requires s.PcOf(w).Read? && pc.Recovering?
    requires ClaimResync(s.cfg, s.db, s.PcOf(w).job.mailbox, owner, now, at).1 == Some(pc.resync)
    requires pc.job == s.PcOf(w).job && pc.committed == s.ChainOf(pc.job.mailbox)
    ensures Knows(pc).Nothing? || EntersPage(s, w, pc)
  {
    ClaimedPage(s.cfg, s.db, pc.job.mailbox, owner, now, at);
    hide ClaimResync;
  }

  lemma ClaimedPage(cfg: Config, db: Tables, m: Email, owner: UserId, now: Time, at: Time)
    ensures var claim := ClaimResync(cfg, db, m, owner, now, at).1;
            claim.Some? ==>
              && m in db.mailboxes && claim.value.pageToken == db.mailboxes[m].resync.pageToken
              && claim.value.generation == db.mailboxes[m].resync.generation
  {
  }

  lemma FailForgetsAll(s: Sys, w: WorkerId, job: JobClaim, code: ErrorCode, deadLetter: bool, requireResync: bool,
                       now: Time, at: Time)
    ensures var s' := FailStep(s, w, job, code, deadLetter, requireResync, now, at);
            OthersStay(s, s', w) && s'.PcOf(w).Resting?
  {
    hide FailJob;
  }

  lemma CompleteForgetsAll(s: Sys, w: WorkerId, job: JobClaim, upTo: int, at: Time)
    ensures var s' := CompleteStep(s, w, job, upTo, at); OthersStay(s, s', w) && s'.PcOf(w).Resting?
  {
    hide CompleteJob;
  }

  lemma ListInboxLearns(s: Sys, w: WorkerId, ids: seq<MessageId>, nextPage: Option<string>)
    requires s.PcOf(w).Recovering?
    ensures var s' := ListInboxStep(s, w, ids, nextPage);
            && OthersStay(s, s', w)
            && Knows(s'.PcOf(w)) == InPages(s.PcOf(w).job.mailbox, s.PcOf(w).resync.generation, nextPage,
                                            Extended(s, w, ids, nextPage), Distinct(ids))
  {
    hide Extended, Distinct;
  }

  // A triage call returns True: the message at the head of the list is done.
  predicate HeadDone(pc: Pc, pc': Pc) {
    && (pc.Probing? || pc.InTriage?) && pc.todo != []
    && pc' == Triaging(pc.job, pc.purpose, pc.todo[1..], pc.done + {pc.todo[0]})
  }

  lemma ProbeTriageLearns(s: Sys, w: WorkerId)
    requires s.PcOf(w).Probing? && s.PcOf(w).todo != []
    ensures var s' := ProbeTriageStep(s, w);
            OthersStay(s, s', w) && (Knows(s'.PcOf(w)).Nothing? || HeadDone(s.PcOf(w), s'.PcOf(w)))
  {
    hide TriageIsTerminal;
  }

  lemma SettleTriageLearns(s: Sys, w: WorkerId, state: TriageState, summary: Option<string>, code: Option<ErrorCode>,
                           at: Time)
    requires s.PcOf(w).InTriage? && s.PcOf(w).todo != [] && !state.TriageProcessing?
    ensures var s' := SettleTriageStep(s, w, state, summary, code, at);
            OthersStay(s, s', w) && HeadDone(s.PcOf(w), s'.PcOf(w))
  {
    hide FinalizeTriage, OwnsTriage;
  }

  lemma ManualLearns(s: Sys, w: WorkerId, job: JobClaim, resync: ResyncClaim)
    requires resync.mailbox == job.mailbox
    ensures var s' := ManualStep(s, w, job, resync);
            && OthersStay(s, s', w)
            && (Knows(s'.PcOf(w)).Nothing? || (Knows(s'.PcOf(w)) == Manual(job.mailbox) && ManualAt(s', job.mailbox)))
  {
  }

  lemma SettlePageLearns(s: Sys, w: WorkerId, at: Time)
    requires Enabled(s, SettlePage(w, at)) && s.PcOf(w).purpose.resync.mailbox == s.PcOf(w).job.mailbox
    ensures var s' := SettlePageStep(s, w, at);
            var m := s.PcOf(w).job.mailbox;
            && OthersStay(s, s', w)
            && (Knows(s'.PcOf(w)).Nothing? || (Knows(s'.PcOf(w)) == Manual(m) && ManualAt(s', m)))
  {
    hide ManualStep, CheckpointResync, OwnsResync, ManualAt, OthersStay;
    var job, p := s.PcOf(w).job, s.PcOf(w).purpose;
    var s' := SettlePageStep(s, w, at);
    if p.resync.messageCount + p.listed >= s.cfg.resyncMaxMessages {
      ManualLearns(s, w, job, p.resync);
    } else {
      GoesAlone(s, s', w, s'.PcOf(w));
    }
  }

  // ---------- Every step keeps the invariant ----------

  // The worker's claims are about one mailbox, and what it has triaged was seen.
  lemma LoopFacts(s: Sys, w: WorkerId)
    requires Inv(s)
    ensures var pc := s.PcOf(w);
            && (pc.Triaging? ==> Finished(s, pc.job.mailbox, pc.done))
            && ((pc.Triaging? || pc.Probing? || pc.InTriage?) && pc.purpose.FromRecovery? ==>
                  pc.purpose.resync.mailbox == pc.job.mailbox)
            && (pc.Recovering? || pc.Profiled? ==> pc.resync.mailbox == pc.job.mailbox)
  {
    hide TablesOk, GrantsOk, WorldOk;
    assert WorkerOk(s, w);
  }

  // What holds when a worker is about to step from s to s'.
  ghost predicate Stepping(s: Sys, s': Sys) {
    Inv(s) && Inv(s') && RecoveryOk(s) && Grows(s, s')
  }

  // The worker listed the first page of a recovery: no page token, and the listing starts at the
  // mailbox's current history ID.
  predicate Opens(s: Sys, s': Sys, w: WorkerId, m: Email, listing: Listing) {
    var pc := s.PcOf(w);
    && pc.Recovering? && pc.resync.pageToken.None? && pc.job.mailbox == m && s'.PcOf(w).Triaging?
    && listing.since == s.ProviderOf(m).head && listing.generation == pc.resync.generation
  }

  // A listing is opened by its worker, carried on by it, or taken over from the committed pages.
  predicate Traced(s: Sys, s': Sys, w: WorkerId) {
    var k, k' := Knows(s.PcOf(w)), Knows(s'.PcOf(w));
    k'.InPages? ==>
      || (k.InPages? && k.mailbox == k'.mailbox && SameChain(k.listing, k'.listing))
      || (k'.mailbox in s.chains && k'.listing == s.chains[k'.mailbox])
      || Opens(s, s', w, k'.mailbox, k'.listing)
  }

  predicate SameChain(a: Listing, b: Listing) {
    a.since == b.since && a.generation == b.generation
  }

  // The actor moved alone, and what it knows is right.
  ghost predicate ActorOk(s: Sys, s': Sys, w: WorkerId) {
    OthersStay(s, s', w) && KnowsOk(s', Knows(s'.PcOf(w))) && Traced(s, s', w)
  }

  lemma ReadMailboxKnows(s: Sys, w: WorkerId)
    requires Enabled(s, ReadMailbox(w)) && Stepping(s, Next(s, ReadMailbox(w)))
    ensures ActorOk(s, Next(s, ReadMailbox(w)), w)
  {
    ReadMailboxLearns(s, w);
    hide Inv, RecoveryOk, OthersStay, Act, Enabled;
  }

  lemma BranchKnows(s: Sys, s': Sys, w: WorkerId, now: Time, at: Time)
    requires s.PcOf(w).Read? && s' == BranchStep(s, w, now, at).(steps := s.steps + 1) && Stepping(s, s')
    ensures ActorOk(s, s', w)
  {
    BranchLearns(s, w, now, at);
    hide Inv, OthersStay, BranchStep, Grows;
    var m := s.PcOf(w).job.mailbox;
    if EntersPage(s, w, s'.PcOf(w)) {
      assert ChainOk(s, m);
      var k := InPages(m, s.db.mailboxes[m].resync.generation, s.db.mailboxes[m].resync.pageToken, s.ChainOf(m), []);
      assert KnowsOk(s, k);
      KnowledgeStays(s, s', k);
    }
  }

  lemma ListInboxKnows(s: Sys, s': Sys, w: WorkerId, ids: seq<MessageId>, nextPage: Option<string>)
    requires Enabled(s, ListInbox(w, ids, nextPage)) && Stepping(s, s')
    requires s' == ListInboxStep(s, w, ids, nextPage).(steps := s.steps + 1)
    ensures ActorOk(s, s', w)
  {
    ListInboxLearns(s, w, ids, nextPage);
    hide Inv, ListsAll, Seen, ChainOk, OthersStay, ListInboxStep, Grows;
    var m := s.PcOf(w).job.mailbox;
    var listing := Extended(s, w, ids, nextPage);
    assert KnowsOk(s, Knows(s.PcOf(w)));
    if s.PcOf(w).resync.pageToken.Some? {
      SeenGrows(s, s', m, s.PcOf(w).committed.ids, []);
    }
    forall id <- listing.ids ensures Seen(s', m, id) || id in Distinct(ids) {
      assert id in ids || (id in s.PcOf(w).committed.ids && s.PcOf(w).resync.pageToken.Some?);
    }
    ProvidersListed(s, w, ids, nextPage, s');
  }

  lemma ProvidersListed(s: Sys, w: WorkerId, ids: seq<MessageId>, nextPage: Option<string>, s': Sys)
    requires Enabled(s, ListInbox(w, ids, nextPage)) && s' == ListInboxStep(s, w, ids, nextPage).(steps := s.steps + 1)
    ensures var m := s.PcOf(w).job.mailbox;
            && s'.ProviderOf(m) == s.ProviderOf(m)
            && (nextPage.None? && Follows(s.PcOf(w)) ==> ListsAll(s'.ProviderOf(m), Extended(s, w, ids, nextPage)))
  {
    hide ListsAll, Extended, Distinct;
  }

  lemma HeadDoneKnows(s: Sys, s': Sys, w: WorkerId)
    requires Stepping(s, s') && HeadDone(s.PcOf(w), s'.PcOf(w))
    ensures KnowsOk(s', Knows(s'.PcOf(w)))
  {
    LoopFacts(s', w);
    hide Inv;
    assert KnowsOk(s, Knows(s.PcOf(w)));
    KnowledgeStays(s, s', Knows(s.PcOf(w)));
    var pc := s.PcOf(w);
    assert pc.todo[0] in s'.PcOf(w).done;
    assert Seen(s', pc.job.mailbox, pc.todo[0]);
    assert pc.todo == [pc.todo[0]] + pc.todo[1..];
    hide Grows, Seen, ListsAll, RecoveryOk;
  }

  lemma CountingMovesNobody(s: Sys, s1: Sys, s': Sys, w: WorkerId)
    requires s' == s1.(steps := s'.steps) && OthersStay(s, s1, w)
    ensures OthersStay(s, s', w) && s'.PcOf(w) == s1.PcOf(w)
    ensures forall m: Email :: ManualAt(s1, m) ==> ManualAt(s', m)
  {
  }

  lemma LeavesThePages(s: Sys, s': Sys, w: WorkerId)
    requires OthersStay(s, s', w)
    requires var k := Knows(s'.PcOf(w)); k.Nothing? || (k.Manual? && ManualAt(s', k.mailbox))
    ensures ActorOk(s, s', w)
  {
    hide ManualAt, OthersStay, Sys.PcOf, Knows;
  }

  lemma HeadDoneOk(s: Sys, s': Sys, w: WorkerId)
    requires Stepping(s, s') && OthersStay(s, s', w) && HeadDone(s.PcOf(w), s'.PcOf(w))
    ensures ActorOk(s, s', w)
  {
    HeadDoneKnows(s, s', w);
    hide Stepping, OthersStay, KnowsOk;
  }

  lemma ProbeTriageKnows(s: Sys, s': Sys, w: WorkerId)
    requires s.PcOf(w).Probing? && s.PcOf(w).todo != [] && s' == ProbeTriageStep(s, w).(steps := s.steps + 1)
    requires Stepping(s, s')
    ensures ActorOk(s, s', w)
  {
    hide Stepping, OthersStay, ProbeTriageStep, ActorOk, HeadDone, Sys.PcOf, Knows;
    ProbeTriageLearns(s, w);
    CountingMovesNobody(s, ProbeTriageStep(s, w), s', w);
    if Knows(s'.PcOf(w)).Nothing? {
      LeavesThePages(s, s', w);
    } else {
      HeadDoneOk(s, s', w);
    }
  }

  lemma SettleTriageKnows(s: Sys, s': Sys, a: Action)
    requires a.SettleTriage? && Enabled(s, a) && Stepping(s, s')
    requires s' == SettleTriageStep(s, a.w, a.state, a.summary, a.error, a.at).(steps := s.steps + 1)
    ensures ActorOk(s, s', a.w)
  {
    hide Stepping, OthersStay, SettleTriageStep, ActorOk, HeadDone, Sys.PcOf, Knows;
    SettleTriageLearns(s, a.w, a.state, a.summary, a.error, a.at);
    CountingMovesNobody(s, SettleTriageStep(s, a.w, a.state, a.summary, a.error, a.at), s', a.w);
    HeadDoneOk(s, s', a.w);
  }

  lemma HitCapKnows(s: Sys, s': Sys, w: WorkerId)
    requires Enabled(s, HitCap(w)) && Stepping(s, s')
    requires s' == ManualStep(s, w, s.PcOf(w).job, s.PcOf(w).resync).(steps := s.steps + 1)
    ensures ActorOk(s, s', w)
  {
    LoopFacts(s, w);
    hide Stepping, OthersStay, ManualStep, ActorOk, Sys.PcOf, Knows, ManualAt;
    ManualLearns(s, w, s.PcOf(w).job, s.PcOf(w).resync);
    CountingMovesNobody(s, ManualStep(s, w, s.PcOf(w).job, s.PcOf(w).resync), s', w);
    LeavesThePages(s, s', w);
  }

  lemma SettlePageKnows(s: Sys, s': Sys, w: WorkerId, at: Time)
    requires Enabled(s, SettlePage(w, at)) && Stepping(s, s')
    requires s' == SettlePageStep(s, w, at).(steps := s.steps + 1)
    ensures ActorOk(s, s', w)
  {
    LoopFacts(s, w);
    hide Stepping, OthersStay, SettlePageStep, ActorOk, Sys.PcOf, Knows, ManualAt;
    SettlePageLearns(s, w, at);
    CountingMovesNobody(s, SettlePageStep(s, w, at), s', w);
    LeavesThePages(s, s', w);
  }

  lemma LearnerKnows(s: Sys, a: Action)
    requires Enabled(s, a) && Learns(a) && Stepping(s, Next(s, a))
    ensures ActorOk(s, Next(s, a), a.w)
  {
    hide Stepping, ActorOk, BranchStep, ListInboxStep, ProbeTriageStep, SettleTriageStep, ManualStep, SettlePageStep;
    var s' := Next(s, a);
    match a
    case ReadMailbox(w) => ReadMailboxKnows(s, w);
    case Branch(w, now, at) => BranchKnows(s, s', w, now, at);
    case ListInbox(w, ids, nextPage) => ListInboxKnows(s, s', w, ids, nextPage);
    case ProbeTriage(w) => ProbeTriageKnows(s, s', w);
    case SettleTriage(_, _, _, _, _) => SettleTriageKnows(s, s', a);
    case HitCap(w) => HitCapKnows(s, s', w);
    case SettlePage(w, at) => SettlePageKnows(s, s', w, at);
  }

  lemma ActorKnows(s: Sys, a: Action)
    requires Enabled(s, a) && ActorOf(a).Some? && Stepping(s, Next(s, a))
    ensures ActorOk(s, Next(s, a), a.w)
  {
    hide Act, Enabled, Inv, Grows, ChainOk;
    var s' := Next(s, a);
    if Learns(a) {
      LearnerKnows(s, a);
    } else {
      OthersForget(s, a);
      assert KnowsOk(s, Knows(s.PcOf(a.w)));
      KnowledgeStays(s, s', Knows(s.PcOf(a.w)));
      hide RecoveryOk, Knows;
      NothingIsKnown(s');
    }
  }

  lemma NothingIsKnown(s: Sys)
    ensures KnowsOk(s, Nothing)
  {
  }

  // ---------- The committed pages ----------

  lemma TokensStay(s: Sys, a: Action, m: Email)
    requires Enabled(s, a) && !a.SettlePage? && m in Next(s, a).db.mailboxes
    requires Next(s, a).db.mailboxes[m].resync.pageToken.Some?
    ensures m in s.db.mailboxes && s.db.mailboxes[m].resync.pageToken.Some?
    ensures Next(s, a).db.mailboxes[m].resync.generation == s.db.mailboxes[m].resync.generation
    ensures Next(s, a).db.mailboxes[m].resync.pageToken == s.db.mailboxes[m].resync.pageToken
  {
    if a.FinishRecovery? {
      FinishDropsToken(s, a.w, m);
    } else {
      hide Act, Enabled;
      OthersStayBusy(s, a);
    }
  }

  lemma FinishDropsToken(s: Sys, w: WorkerId, m: Email)
    requires Enabled(s, FinishRecovery(w)) && m in Next(s, FinishRecovery(w)).db.mailboxes
    requires Next(s, FinishRecovery(w)).db.mailboxes[m].resync.pageToken.Some?
    ensures m in s.db.mailboxes && Next(s, FinishRecovery(w)).db.mailboxes[m].resync == s.db.mailboxes[m].resync
  {
  }

  lemma CommitTokens(s: Sys, w: WorkerId, at: Time, m: Email)
    requires Enabled(s, SettlePage(w, at))
    ensures var s' := SettlePageStep(s, w, at);
            m in s'.db.mailboxes ==>
              && m in s.db.mailboxes
              && s'.db.mailboxes[m].resync.generation == s.db.mailboxes[m].resync.generation
              && (if Commits(s, SettlePage(w, at), m)
                  then s.db.mailboxes[m].resync.generation == s.PcOf(w).purpose.resync.generation
                       && s'.db.mailboxes[m].resync.pageToken == s.PcOf(w).purpose.nextPage
                  else s'.db.mailboxes[m].resync.pageToken == s.db.mailboxes[m].resync.pageToken)
  {
  }

  lemma SettlePageChain(s: Sys, s': Sys, w: WorkerId, at: Time, m: Email)
    requires Enabled(s, SettlePage(w, at)) && Stepping(s, s')
    requires s' == SettlePageStep(s, w, at).(steps := s.steps + 1)
    ensures ChainOk(s', m)
  {
    LoopFacts(s, w);
    hide Inv, SettlePageStep, Seen, Grows;
    CommitTokens(s, w, at, m);
    SettlePageHistory(s, w, at, m);
    assert ChainOk(s, m);
    SeenGrows(s, s', m, s.ChainOf(m).ids, []);
    var pc := s.PcOf(w);
    assert KnowsOk(s, Knows(pc));
    if Commits(s, SettlePage(w, at), m) {
      SeenGrows(s, s', m, pc.purpose.listing.ids, []);
    }
  }

  lemma ChainStays(s: Sys, a: Action, m: Email)
    requires Enabled(s, a) && Stepping(s, Next(s, a)) && !a.SettlePage?
    ensures ChainOk(Next(s, a), m)
  {
    var s' := Next(s, a);
    hide Act, Enabled, Inv, Seen;
    HistoryGrows(s, a);
    assert ChainOk(s, m);
    SeenGrows(s, s', m, s.ChainOf(m).ids, []);
    assert ProviderGrows(s.ProviderOf(m), s'.ProviderOf(m));
    hide SeenOrTodo;
    if m in s'.db.mailboxes && s'.db.mailboxes[m].resync.pageToken.Some? {
      TokensStay(s, a, m);
    }
  }

  lemma ChainsOk(s: Sys, a: Action, m: Email)
    requires Enabled(s, a) && Stepping(s, Next(s, a))
    ensures ChainOk(Next(s, a), m)
  {
    if a.SettlePage? {
      hide Stepping, SettlePageStep, ChainOk;
      SettlePageChain(s, Next(s, a), a.w, a.at, m);
    } else {
      hide Stepping, Act, Enabled, ChainOk;
      ChainStays(s, a, m);
    }
  }

  lemma EnvironmentMovesNobody(s: Sys, a: Action)
    requires Enabled(s, a) && ActorOf(a).None?
    ensures Next(s, a).workers == s.workers
  {
    hide Enqueue, PruneQueue;
  }

  lemma NextKeepsRecoveryOk(s: Sys, a: Action)
    requires Inv(s) && RecoveryOk(s) && Enabled(s, a)
    ensures RecoveryOk(Next(s, a))
  {
    var s' := Next(s, a);
    NextKeepsInv(s, a);
    EverythingGrows(s, a);
    if ActorOf(a).Some? {
      hide Act, Enabled, Inv, Grows, ChainOk;
      ActorKnows(s, a);
    } else {
      EnvironmentMovesNobody(s, a);
    }
    hide Act, Enabled, Inv, Grows, ChainOk, Knows;
    forall m: Email ensures ChainOk(s', m) {
      ChainsOk(s, a, m);
    }
    forall w: WorkerId ensures KnowsOk(s', Knows(s'.PcOf(w))) {
      if ActorOf(a) != Some(w) {
        assert s'.PcOf(w) == s.PcOf(w);
        assert KnowsOk(s, Knows(s.PcOf(w)));
        KnowledgeStays(s, s', Knows(s.PcOf(w)));
      }
    }
  }

  lemma {:induction false} RunsKeepRecoveryOk(states: seq<Sys>, actions: seq<Action>, i: nat)
    requires IsRun(states, actions) && i < |states|
    ensures RecoveryOk(states[i])
  {
    if i > 0 {
      RunsKeepRecoveryOk(states, actions, i - 1);
      RunsKeepInv(states, actions, i - 1);
      hide Inv, RecoveryOk, Next, Enabled;
      NextKeepsRecoveryOk(states[i - 1], actions[i - 1]);
    }
  }
}
