// The notification worker as a state machine over its transactions
// (server/workers/mail_notifications.py:185-416).
//
// Any number of workers run `process_notification_job` and the watch renewal, one transaction or
// provider call at a time, interleaved with each other, with arriving mail and push deliveries,
// with retention and with crashes.  Between its steps a worker holds only its program counter: the
// claims and unlocked reads it carries may be stale.

module NotificationProtocol {
  import opened Common
  import opened NotificationRows
  import opened HistoryScan

  type WorkerId = nat

  // ---------- The provider ----------

  // A message that entered the mailbox, with the history ID of its `messageAdded` record.
  datatype Addition = Addition(message: MessageId, at: int)

  // `head` is the mailbox's current history ID; `outside` holds the messages that ever were outside
  // the inbox: filed elsewhere on arrival, archived, or deleted.
  datatype Provider = Provider(head: int, additions: set<Addition>, outside: set<MessageId>)

  // What the Gmail documentation promises of `history.list` from `cursor`, followed to its last
  // page: it reports a history ID no older than the call, and every addition up to that ID.
  predicate Honours(provider: Provider, pages: seq<Page>, cursor: int, headBefore: int)
    requires |pages| > 0
  {
    && !pages[|pages| - 1].more
    && headBefore <= Top(cursor, pages) <= provider.head
    && (forall a <- provider.additions ::
          cursor < a.at <= Top(cursor, pages) ==> a.message in AllIds(pages))
  }

  // History: what a recovery has listed so far.  `since` is the mailbox's history ID when the first
  // page was listed, `ids` the messages on all its pages, `next` the token of the page after them.
  datatype Listing = Listing(since: int, generation: nat, ids: set<MessageId>, next: Option<string>)

  // What the Gmail documentation promises of `messages.list`, followed by its tokens to the last
  // page: it lists every message that entered the inbox before the first page was listed and never
  // was outside it.
  predicate ListsAll(provider: Provider, listing: Listing) {
    forall a <- provider.additions ::
      a.at <= listing.since && a.message !in provider.outside ==> a.message in listing.ids
  }

  // ---------- Leases ----------

  datatype Resource = JobRow(id: JobId) | TriageRow(key: TriageKey) | RecoveryOf(mailbox: Email) | WatchOf(mailbox: Email)

  datatype Lease = Lease(token: Token, expiresAt: Time)

  // The lease a resource is under according to its row.
  function Holder(db: Tables, r: Resource): Option<Lease> {
    match r
    case JobRow(id) =>
      if id in db.jobs && db.jobs[id].state.JobProcessing? then
        LeaseOf(db.jobs[id].leaseToken, db.jobs[id].leaseExpiresAt) else None
    case TriageRow(key) =>
      if key in db.triage && db.triage[key].state.TriageProcessing? then
        LeaseOf(db.triage[key].leaseToken, db.triage[key].leaseExpiresAt) else None
    case RecoveryOf(m) =>
      if m in db.mailboxes && db.mailboxes[m].resync.state.Processing? then
        LeaseOf(db.mailboxes[m].resync.leaseToken, db.mailboxes[m].resync.leaseExpiresAt) else None
    case WatchOf(m) =>
      if m in db.mailboxes then
        LeaseOf(db.mailboxes[m].watch.leaseToken, db.mailboxes[m].watch.leaseExpiresAt) else None
  }

  function LeaseOf(token: Option<Token>, expiresAt: Option<Time>): Option<Lease> {
    if token.Some? && expiresAt.Some? then Some(Lease(token.value, expiresAt.value)) else None
  }

  // History: one entry for every lease token ever handed out.
  datatype Grant = Grant(holder: WorkerId, resource: Resource, grantedAt: Time, expiresAt: Time,
                         releasedAt: Option<Time>)

  // ---------- Workers ----------

  datatype Purpose =
    | FromHistory(snapshot: Mailbox, readAt: nat, cursor: int)
    | FromRecovery(resync: ResyncClaim, source: int, nextPage: Option<string>, listed: nat, listing: Listing)

  datatype Pc =
    | Resting
    | WatchLeased(mailbox: Email, token: Token)
    | Claimed(job: JobClaim)
    | Read(job: JobClaim, snapshot: Option<Mailbox>, readAt: nat, headBefore: int)
    | Triaging(job: JobClaim, purpose: Purpose, todo: seq<MessageId>, done: set<MessageId>)
    | Probing(job: JobClaim, purpose: Purpose, todo: seq<MessageId>, done: set<MessageId>)
    | InTriage(job: JobClaim, purpose: Purpose, todo: seq<MessageId>, done: set<MessageId>, triage: TriageClaim)
    | Recovering(job: JobClaim, resync: ResyncClaim, source: int, committed: Listing)
    | Profiled(job: JobClaim, resync: ResyncClaim, listed: nat, cursor: int, listing: Listing)
    | Recovered(job: JobClaim)
    | Releasing(job: JobClaim, resync: ResyncClaim, code: ErrorCode)
    | Requeueing(job: JobClaim, code: ErrorCode, atOnce: bool)
    | DeadLettering(job: JobClaim, code: ErrorCode)
    | Failing(job: JobClaim, code: ErrorCode)

  datatype HistoryFailure = WorkLimit | CursorGone | Rejected | NoCredentials | Outage | Unexpected

  // The error code, `dead_letter` and `require_resync` arguments of `fail_job` for each failure.
  function FailArguments(f: HistoryFailure): (ErrorCode, bool, bool) {
    match f
    case WorkLimit => (HistoryWorkLimitReached, false, true)
    case CursorGone => (HistoryCursorExpired, false, true)
    case Rejected => (ErrorCode.HistoryRejected, true, false)
    case NoCredentials => (CredentialsUnavailable, false, false)
    case Outage => (HistoryUnavailable, false, false)
    case Unexpected => (HistoryInternal, false, false)
  }

  datatype Sys = Sys(
    cfg: ValidConfig,
    db: Tables,
    clock: Time,
    steps: nat,
    workers: map<WorkerId, Pc>,
    providers: map<Email, Provider>,
    // History variables.
    baselines: map<Email, int>,    // where the coverage claim of a mailbox starts
    recorded: set<TriageKey>,      // messages that ever had a triage row
    settled: set<TriageKey>,       // messages whose triage row ever was terminal
    missed: set<TriageKey>,        // messages that a triage call reported as done without finalizing them
    chains: map<Email, Listing>,   // the committed pages of the last recovery
    grants: map<Token, Grant>)
  {
    function PcOf(w: WorkerId): Pc {
      if w in workers then workers[w] else Resting
    }

    function ProviderOf(m: Email): Provider {
      if m in providers then providers[m] else Provider(0, {}, {})
    }

    function ChainOf(m: Email): Listing {
      if m in chains then chains[m] else Listing(0, 0, {}, None)
    }

    function To(w: WorkerId, pc: Pc): Sys {
      this.(workers := workers[w := pc])
    }

    function Granting(w: WorkerId, r: Resource, expiresAt: Time): Sys {
      this.(grants := grants[db.nextToken := Grant(w, r, clock, expiresAt, None)])
    }

    function Ending(token: Token): Sys {
      if token in grants then this.(grants := grants[token := grants[token].(releasedAt := Some(clock))]) else this
    }

    function EndingIf(owned: bool, token: Token): Sys {
      if owned then Ending(token) else this
    }
  }

  // ---------- Steps ----------

  datatype Action =
    | Tick(clock: Time)
    | MailboxChanges(mailbox: Email, message: Option<MessageId>, leaving: set<MessageId>, at: int)
    | PushArrives(envelope: Envelope, owner: UserId, configured: Email, newId: JobId, now: Time)
    | Prune(jobsCutoff: Time, triageCutoff: Time)
    | Crash(w: WorkerId)
    | LeaseWatch(w: WorkerId, mailbox: Email, owner: UserId, now: Time)
    | RenewWatch(w: WorkerId, historyId: int, expiresAt: Time)
    | AbandonWatch(w: WorkerId, code: ErrorCode, at: Time)
    | LeaseJob(w: WorkerId, owner: UserId, id: JobId, now: Time, at: Time)
    | ReadMailbox(w: WorkerId)
    | Branch(w: WorkerId, now: Time, at: Time)
    | HistoryListed(w: WorkerId, pages: seq<Page>)
    | HistoryFailed(w: WorkerId, failure: HistoryFailure, now: Time, at: Time)
    | LeaseTriage(w: WorkerId, now: Time)
    | ProbeTriage(w: WorkerId)
    | SettleTriage(w: WorkerId, state: TriageState, summary: Option<string>, error: Option<ErrorCode>, at: Time)
    | GiveUpTriage(w: WorkerId, code: ErrorCode, at: Time)
    | CompleteHistory(w: WorkerId, at: Time)
    | ListInbox(w: WorkerId, ids: seq<MessageId>, nextPage: Option<string>)
    | HitCap(w: WorkerId)
    | RecoveryFails(w: WorkerId, code: ErrorCode)
    | SettlePage(w: WorkerId, at: Time)
    | ReadProfile(w: WorkerId, reported: Option<int>)
    | FinishRecovery(w: WorkerId)
    | CompleteAfterRecovery(w: WorkerId, at: Time)
    | ReleaseRecovery(w: WorkerId, at: Time)
    | FinishRequeue(w: WorkerId, at: Time)
    | FinishDeadLetter(w: WorkerId, at: Time)
    | FinishFail(w: WorkerId, now: Time, at: Time)

  predicate Shuttered(snapshot: Mailbox) {
    !snapshot.resync.state.Idle? || snapshot.resync.required
  }

  // The worker will read Gmail history: nothing earlier in `process_notification_job` applies.
  predicate WantsHistory(job: JobClaim, snapshot: Option<Mailbox>) {
    && snapshot.Some?
    && !Shuttered(snapshot.value)
    && snapshot.value.historyCursor.Some?
    && job.historyId > snapshot.value.historyCursor.value
  }

  predicate InRecovery(pc: Pc) {
    || pc.Recovering?
    || ((pc.Triaging? || pc.Probing? || pc.InTriage?) && pc.purpose.FromRecovery?)
    || pc.Profiled?
  }

  predicate AtPageEnd(pc: Pc) {
    pc.Triaging? && pc.purpose.FromRecovery? && pc.todo == []
  }

  predicate Enabled(s: Sys, a: Action) {
    match a
    case Tick(clock) => s.clock <= clock
    case MailboxChanges(m, message, _, at) =>
      at > s.ProviderOf(m).head && (message.Some? ==> message.value != "")
    case PushArrives(envelope, owner, configured, newId, now) =>
      newId !in s.db.jobs && 0 < envelope.historyId <= s.ProviderOf(envelope.mailbox).head
    case Prune(_, _) => true
    case Crash(w) => true
    case LeaseWatch(w, m, owner, now) => s.PcOf(w).Resting? && now <= s.clock
    case RenewWatch(w, historyId, _) =>
      s.PcOf(w).WatchLeased? && 0 < historyId <= s.ProviderOf(s.PcOf(w).mailbox).head
    case AbandonWatch(w, _, _) => s.PcOf(w).WatchLeased?
    case LeaseJob(w, owner, id, now, at) => s.PcOf(w).Resting? && now <= s.clock && Due(s.db, owner, id, now)
    case ReadMailbox(w) => s.PcOf(w).Claimed?
    case Branch(w, now, at) =>
      s.PcOf(w).Read? && now <= s.clock && !WantsHistory(s.PcOf(w).job, s.PcOf(w).snapshot)
    case HistoryListed(w, pages) =>
      && s.PcOf(w).Read? && WantsHistory(s.PcOf(w).job, s.PcOf(w).snapshot)
      && var cursor := s.PcOf(w).snapshot.value.historyCursor.value;
         && Answers(pages, s.cfg.historyMaxPages)
         && Honours(s.ProviderOf(s.PcOf(w).job.mailbox), pages, cursor, s.PcOf(w).headBefore)
         && Scan(pages, cursor, s.cfg.historyMaxMessages, s.cfg.historyMaxPages).Listed?
    case HistoryFailed(w, _, _, _) => s.PcOf(w).Read? && WantsHistory(s.PcOf(w).job, s.PcOf(w).snapshot)
    case LeaseTriage(w, now) => s.PcOf(w).Triaging? && s.PcOf(w).todo != [] && now <= s.clock
    case ProbeTriage(w) => s.PcOf(w).Probing? && s.PcOf(w).todo != []
    case SettleTriage(w, state, _, _, _) =>
      s.PcOf(w).InTriage? && s.PcOf(w).todo != [] && !state.TriageProcessing?
    case GiveUpTriage(w, _, _) => s.PcOf(w).InTriage?
    case CompleteHistory(w, _) =>
      s.PcOf(w).Triaging? && s.PcOf(w).purpose.FromHistory? && s.PcOf(w).todo == []
    case ListInbox(w, ids, nextPage) =>  // the provider honours maxResults
      && s.PcOf(w).Recovering?
      && (nextPage.None? && Follows(s.PcOf(w)) ==>
            ListsAll(s.ProviderOf(s.PcOf(w).job.mailbox), Extended(s, w, ids, nextPage)))
      && var remaining := s.cfg.resyncMaxMessages - s.PcOf(w).resync.messageCount;
         remaining > 0 && |ids| <= Min(100, remaining)
    case HitCap(w) => s.PcOf(w).Recovering? && s.PcOf(w).resync.messageCount >= s.cfg.resyncMaxMessages
    case RecoveryFails(w, _) => InRecovery(s.PcOf(w))
    case SettlePage(w, _) => AtPageEnd(s.PcOf(w)) && s.PcOf(w).purpose.nextPage.Some?
    case ReadProfile(w, historyId) =>  // the profile reports the current history ID
      && AtPageEnd(s.PcOf(w)) && s.PcOf(w).purpose.nextPage.None?
      && (historyId.Some? ==> 0 < historyId.value == s.ProviderOf(s.PcOf(w).job.mailbox).head)
    case FinishRecovery(w) => s.PcOf(w).Profiled?
    case CompleteAfterRecovery(w, _) => s.PcOf(w).Recovered?
    case ReleaseRecovery(w, _) => s.PcOf(w).Releasing?
    case FinishRequeue(w, _) => s.PcOf(w).Requeueing?
    case FinishDeadLetter(w, _) => s.PcOf(w).DeadLettering?
    case FinishFail(w, _, _) => s.PcOf(w).Failing?
  }

  // The page asked for is the first one, or the one after the committed pages.
  predicate Follows(pc: Pc) {
    pc.Recovering? && (pc.resync.pageToken.None? || pc.resync.pageToken == pc.committed.next)
  }

  // The pages listed before this one.
  function Begun(s: Sys, w: WorkerId): Listing
    requires s.PcOf(w).Recovering?
  {
    var pc := s.PcOf(w);
    if pc.resync.pageToken.None? then Listing(s.ProviderOf(pc.job.mailbox).head, pc.resync.generation, {}, None)
    else pc.committed
  }

  function Extended(s: Sys, w: WorkerId, ids: seq<MessageId>, nextPage: Option<string>): Listing
    requires s.PcOf(w).Recovering?
  {
    Begun(s, w).(ids := Begun(s, w).ids + (set id | id in ids), next := nextPage)
  }

  // A triage call returned False.
  function Stuck(job: JobClaim, purpose: Purpose): Pc {
    match purpose
    case FromHistory(_, _, _) => Failing(job, TriageInProgress)
    case FromRecovery(resync, _, _, _, _) => Releasing(job, resync, ResyncIncomplete)
  }

  function Source(purpose: Purpose): int {
    match purpose
    case FromHistory(_, _, cursor) => cursor
    case FromRecovery(_, source, _, _, _) => source
  }

  function FailStep(s: Sys, w: WorkerId, job: JobClaim, code: ErrorCode, deadLetter: bool, requireResync: bool,
                    now: Time, at: Time): Sys
  {
    s.EndingIf(OwnsJob(s.db, job), job.token)
    .(db := FailJob(s.cfg, s.db, job, code, deadLetter, requireResync, now, at)).To(w, Resting)
  }

  function CompleteStep(s: Sys, w: WorkerId, job: JobClaim, cursor: int, at: Time): Sys {
    s.EndingIf(OwnsJob(s.db, job), job.token)
    .(db := CompleteJob(s.cfg, s.db, job, cursor, at).0).To(w, Resting)
  }

  function ManualStep(s: Sys, w: WorkerId, job: JobClaim, resync: ResyncClaim): Sys {
    var owned := OwnsResync(s.db, resync);
    s.EndingIf(owned, resync.token)
    .(db := RequireManual(s.db, resync, ResyncTotalLimitReached).0)
    .To(w, if owned then DeadLettering(job, ResyncTotalLimitReached) else Requeueing(job, ResyncLeaseLost, false))
  }

  // The first transaction after the unlocked read, when that is not a history scan.
  function BranchStep(s: Sys, w: WorkerId, now: Time, at: Time): Sys
    requires s.PcOf(w).Read?
  {
    var job, read := s.PcOf(w).job, s.PcOf(w).snapshot;
    if read.None? then FailStep(s, w, job, MailboxStateMissing, true, false, now, at)
    else if Shuttered(read.value) then
      if read.value.resync.state.ManualRequired? then
        s.EndingIf(OwnsJob(s.db, job), job.token)
        .(db := DeadLetterJob(s.db, job, ResyncManualRequired, at)).To(w, Resting)
      else
        var (db, claim) := ClaimResync(s.cfg, s.db, job.mailbox, read.value.userId, now, at);
        if claim.None? then s.(db := db).To(w, Requeueing(job, ResyncWaiting, false))
        else
          s.Granting(w, RecoveryOf(job.mailbox), now + s.cfg.leaseSeconds)
          .(db := db)
          .To(w, Recovering(job, claim.value, Baseline(read.value.historyCursor, 1), s.ChainOf(job.mailbox)))
    else if read.value.historyCursor.None? then FailStep(s, w, job, HistoryCursorMissing, true, true, now, at)
    else CompleteStep(s, w, job, read.value.historyCursor.value, at)
  }

  function LeaseTriageStep(s: Sys, w: WorkerId, now: Time): Sys
    requires s.PcOf(w).Triaging? && s.PcOf(w).todo != []
  {
    var pc := s.PcOf(w);
    var key := (pc.job.mailbox, pc.todo[0]);
    var (db, claim) := ClaimTriage(s.cfg, s.db, key, Source(pc.purpose), now);
    if claim.None? then s.To(w, Probing(pc.job, pc.purpose, pc.todo, pc.done))
    else
      s.Granting(w, TriageRow(key), now + s.cfg.leaseSeconds)
      .(db := db, recorded := s.recorded + {key})
      .To(w, InTriage(pc.job, pc.purpose, pc.todo, pc.done, claim.value))
  }

  predicate Unfinished(db: Tables, key: TriageKey) {
    key in db.triage && !db.triage[key].Terminal()
  }

  // A finalization by a worker that lost its row does nothing; the triage call returns True even so.
  function SettleTriageStep(s: Sys, w: WorkerId, state: TriageState, summary: Option<string>,
                            code: Option<ErrorCode>, at: Time): Sys
    requires s.PcOf(w).InTriage? && s.PcOf(w).todo != [] && !state.TriageProcessing?
  {
    var pc := s.PcOf(w);
    var owned := OwnsTriage(s.db, pc.triage);
    s.EndingIf(owned, pc.triage.token)
    .(db := FinalizeTriage(s.db, pc.triage, state, summary, code, at),
      settled := if owned then s.settled + {pc.triage.key} else s.settled,
      missed := if !owned && Unfinished(s.db, pc.triage.key) then s.missed + {pc.triage.key} else s.missed)
    .To(w, Triaging(pc.job, pc.purpose, pc.todo[1..], pc.done + {pc.todo[0]}))
  }

  function SettlePageStep(s: Sys, w: WorkerId, at: Time): Sys
    requires AtPageEnd(s.PcOf(w)) && s.PcOf(w).purpose.nextPage.Some?
  {
    var job, p := s.PcOf(w).job, s.PcOf(w).purpose;
    if p.resync.messageCount + p.listed >= s.cfg.resyncMaxMessages then ManualStep(s, w, job, p.resync)
    else
      var owned := OwnsResync(s.db, p.resync);
      s.EndingIf(owned, p.resync.token)
      .(db := CheckpointResync(s.db, p.resync, p.nextPage.value, p.listed, at).0,
        chains := if owned then s.chains[p.resync.mailbox := p.listing] else s.chains)
      .To(w, if owned then Requeueing(job, ResyncCheckpointed, true) else Requeueing(job, ResyncLeaseLost, false))
  }

  function RenewWatchStep(s: Sys, w: WorkerId, historyId: int, expiresAt: Time): Sys
    requires s.PcOf(w).WatchLeased?
  {
    var m, token := s.PcOf(w).mailbox, s.PcOf(w).token;
    var owned := OwnsWatch(s.db, m, token);
    var first := owned && NoBaseline(s.db.mailboxes[m].historyCursor);
    s.EndingIf(owned, token)
    .(db := CompleteWatch(s.db, m, token, historyId, expiresAt).0,
      baselines := if first then s.baselines[m := historyId] else s.baselines)
    .To(w, Resting)
  }

  function HistoryListedStep(s: Sys, w: WorkerId, pages: seq<Page>): Sys
    requires s.PcOf(w).Read? && WantsHistory(s.PcOf(w).job, s.PcOf(w).snapshot) && |pages| > 0
    requires Scan(pages, s.PcOf(w).snapshot.value.historyCursor.value, s.cfg.historyMaxMessages,
                  s.cfg.historyMaxPages).Listed?
  {
    var pc := s.PcOf(w);
    var listed := Scan(pages, pc.snapshot.value.historyCursor.value, s.cfg.historyMaxMessages, s.cfg.historyMaxPages);
    s.To(w, Triaging(pc.job, FromHistory(pc.snapshot.value, pc.readAt, listed.cursor), listed.ids, {}))
  }

  function ProbeTriageStep(s: Sys, w: WorkerId): Sys
    requires s.PcOf(w).Probing? && s.PcOf(w).todo != []
  {
    var pc := s.PcOf(w);
    if TriageIsTerminal(s.db, (pc.job.mailbox, pc.todo[0]))
    then s.To(w, Triaging(pc.job, pc.purpose, pc.todo[1..], pc.done + {pc.todo[0]}))
    else s.To(w, Stuck(pc.job, pc.purpose))
  }

  function ListInboxStep(s: Sys, w: WorkerId, ids: seq<MessageId>, nextPage: Option<string>): Sys
    requires s.PcOf(w).Recovering?
  {
    var pc := s.PcOf(w);
    var distinct := Distinct(ids);
    var purpose := FromRecovery(pc.resync, pc.source, nextPage, |distinct|, Extended(s, w, ids, nextPage));
    s.To(w, Triaging(pc.job, purpose, distinct, {}))
  }

  function RecoveryFailsStep(s: Sys, w: WorkerId, code: ErrorCode): Sys
    requires InRecovery(s.PcOf(w))
  {
    var pc := s.PcOf(w);
    var resync := if pc.Recovering? || pc.Profiled? then pc.resync else pc.purpose.resync;
    s.To(w, Releasing(pc.job, resync, code))
  }

  function ReadProfileStep(s: Sys, w: WorkerId, historyId: Option<int>): Sys
    requires AtPageEnd(s.PcOf(w))
  {
    var job, p := s.PcOf(w).job, s.PcOf(w).purpose;
    s.To(w, if historyId.Some? then Profiled(job, p.resync, p.listed, historyId.value, p.listing)
            else Releasing(job, p.resync, ResyncIncomplete))
  }

  function FinishRecoveryStep(s: Sys, w: WorkerId): Sys
    requires s.PcOf(w).Profiled?
  {
    var pc := s.PcOf(w);
    var owned := OwnsResync(s.db, pc.resync);
    s.EndingIf(owned, pc.resync.token)
    .(db := CompleteResync(s.db, pc.resync, pc.cursor).0,
      baselines := if owned then s.baselines[pc.resync.mailbox := pc.cursor] else s.baselines)
    .To(w, if owned then Recovered(pc.job) else Requeueing(pc.job, ResyncLeaseLost, false))
  }

  // The steps of a recovery, and those that hand the job back.
  predicate Finishing(a: Action) {
    a.ListInbox? || a.HitCap? || a.RecoveryFails? || a.SettlePage? || a.ReadProfile? || a.FinishRecovery? ||
    a.CompleteAfterRecovery? || a.ReleaseRecovery? || a.FinishRequeue? || a.FinishDeadLetter? || a.FinishFail?
  }

  function FinishAct(s: Sys, a: Action): Sys
    requires Finishing(a) && Enabled(s, a)
  {
    match a
    case ListInbox(w, ids, nextPage) => ListInboxStep(s, w, ids, nextPage)
    case HitCap(w) => ManualStep(s, w, s.PcOf(w).job, s.PcOf(w).resync)
    case RecoveryFails(w, code) => RecoveryFailsStep(s, w, code)
    case SettlePage(w, at) => SettlePageStep(s, w, at)
    case ReadProfile(w, historyId) => ReadProfileStep(s, w, historyId)
    case FinishRecovery(w) => FinishRecoveryStep(s, w)
    case CompleteAfterRecovery(w, at) => CompleteStep(s, w, s.PcOf(w).job, s.PcOf(w).job.historyId, at)
    case ReleaseRecovery(w, at) =>
      var pc := s.PcOf(w);
      s.EndingIf(OwnsResync(s.db, pc.resync), pc.resync.token)
      .(db := ReleaseResync(s.cfg, s.db, pc.resync, pc.code, at).0).To(w, Requeueing(pc.job, pc.code, false))
    case FinishRequeue(w, at) =>
      var pc := s.PcOf(w);
      s.EndingIf(OwnsJob(s.db, pc.job), pc.job.token)
      .(db := RequeueJob(s.cfg, s.db, pc.job, pc.code, if pc.atOnce then Some(at) else None, at)).To(w, Resting)
    case FinishDeadLetter(w, at) =>
      var pc := s.PcOf(w);
      s.EndingIf(OwnsJob(s.db, pc.job), pc.job.token)
      .(db := DeadLetterJob(s.db, pc.job, pc.code, at)).To(w, Resting)
    case FinishFail(w, now, at) => FailStep(s, w, s.PcOf(w).job, s.PcOf(w).code, false, false, now, at)
  }

  function Act(s: Sys, a: Action): Sys
    requires Enabled(s, a)
  {
    match a
    case Tick(clock) => s.(clock := clock)
    case MailboxChanges(m, message, leaving, at) =>
      var p := s.ProviderOf(m);
      var additions := if message.Some? then p.additions + {Addition(message.value, at)} else p.additions;
      s.(providers := s.providers[m := Provider(at, additions, p.outside + leaving)])
    case PushArrives(envelope, owner, configured, newId, now) =>
      s.(db := Enqueue(s.db, envelope, owner, configured, newId, now).0)
    case Prune(jobsCutoff, triageCutoff) => s.(db := PruneQueue(s.db, jobsCutoff, triageCutoff))
    case Crash(w) => s.To(w, Resting)
    case LeaseWatch(w, m, owner, now) =>
      var (db, token) := ClaimWatch(s.cfg, s.db, m, owner, now);
      if token.None? then s
      else s.Granting(w, WatchOf(m), now + s.cfg.leaseSeconds).(db := db).To(w, WatchLeased(m, token.value))
    case RenewWatch(w, historyId, expiresAt) => RenewWatchStep(s, w, historyId, expiresAt)
    case AbandonWatch(w, code, at) =>
      var m, token := s.PcOf(w).mailbox, s.PcOf(w).token;
      s.EndingIf(OwnsWatch(s.db, m, token), token).(db := FailWatch(s.cfg, s.db, m, token, code, at)).To(w, Resting)
    case LeaseJob(w, owner, id, now, at) =>
      var (db, claim) := ClaimJob(s.cfg, s.db, id, now, at);
      if claim.None? then s.(db := db)
      else s.Granting(w, JobRow(id), now + s.cfg.leaseSeconds).(db := db).To(w, Claimed(claim.value))
    case ReadMailbox(w) =>
      var job := s.PcOf(w).job;
      var row := if job.mailbox in s.db.mailboxes then Some(s.db.mailboxes[job.mailbox]) else None;
      s.To(w, Read(job, row, s.steps, s.ProviderOf(job.mailbox).head))
    case Branch(w, now, at) => BranchStep(s, w, now, at)
    case HistoryListed(w, pages) => HistoryListedStep(s, w, pages)
    case HistoryFailed(w, failure, now, at) =>
      var (code, deadLetter, requireResync) := FailArguments(failure);
      FailStep(s, w, s.PcOf(w).job, code, deadLetter, requireResync, now, at)
    case LeaseTriage(w, now) => LeaseTriageStep(s, w, now)
    case ProbeTriage(w) => ProbeTriageStep(s, w)
    case SettleTriage(w, state, summary, code, at) => SettleTriageStep(s, w, state, summary, code, at)
    case GiveUpTriage(w, code, at) =>
      var pc := s.PcOf(w);
      s.EndingIf(OwnsTriage(s.db, pc.triage), pc.triage.token)
      .(db := ReleaseTriage(s.cfg, s.db, pc.triage, code, at)).To(w, Stuck(pc.job, pc.purpose))
    case CompleteHistory(w, at) =>
      var pc := s.PcOf(w);
      CompleteStep(s, w, pc.job, Max(pc.purpose.cursor, pc.job.historyId), at)
    case _ => FinishAct(s, a)
  }

  function Next(s: Sys, a: Action): Sys
    requires Enabled(s, a)
  {
    Act(s, a).(steps := s.steps + 1)
  }

  // ---------- Runs ----------

  ghost predicate Init(s: Sys) {
    && s.db == Tables(map[], map[], map[], 0)
    && s.steps == 0
    && s.workers == map[]
    && (forall m <- s.providers :: s.providers[m].head >= 0
          && forall a <- s.providers[m].additions :: a.at <= s.providers[m].head)
    && s.baselines == map[] && s.recorded == {} && s.settled == {} && s.missed == {} && s.grants == map[]
    && s.chains == map[]
  }

  ghost predicate IsRun(states: seq<Sys>, actions: seq<Action>) {
    && |states| == |actions| + 1
    && Init(states[0])
    && (forall i :: 0 <= i < |actions| ==> Enabled(states[i], actions[i]))
    && (forall i :: 0 <= i < |actions| ==> states[i + 1] == Next(states[i], actions[i]))
  }
}
