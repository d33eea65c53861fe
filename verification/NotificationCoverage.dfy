// What became of every message that entered a mailbox, for every run: recoveries included.

module NotificationCoverage {
  import opened Common
  import opened NotificationRows
  import opened HistoryScan
  import opened NotificationProtocol
  import opened NotificationTransactions
  import opened NotificationLeases
  import opened NotificationInvariant
  import opened NotificationSteps
  import opened NotificationSafety
  import opened NotificationTheorems
  import opened NotificationRuns
  import opened NotificationRecovery

  // ---------- Triage rows over a run ----------

  // The message has had a triage row, and a terminal one unless a triage call of it lost the row.
  ghost predicate AccountedFor(states: seq<Sys>, actions: seq<Action>, i: nat, m: Email, message: MessageId)
    requires |states| == |actions| + 1 && i < |states|
  {
    HadRow(states, i, m, message) && (HadTerminalRow(states, i, m, message) || WasMissed(states, actions, i, m, message))
  }

  lemma SeenIsAccountedFor(states: seq<Sys>, actions: seq<Action>, i: nat, m: Email, message: MessageId)
    requires IsRun(states, actions) && i < |states| && Seen(states[i], m, message)
    ensures AccountedFor(states, actions, i, m, message)
  {
    SeenIsTold(states, actions, i, m, message);
  }

  lemma StillAccountedFor(states: seq<Sys>, actions: seq<Action>, i: nat, j: nat, m: Email, message: MessageId)
    requires |states| == |actions| + 1 && i <= j < |states| && AccountedFor(states, actions, i, m, message)
    ensures AccountedFor(states, actions, j, m, message)
  {
  }

  // ---------- Where a listing starts ----------

  predicate OpensAt(states: seq<Sys>, j: nat, w: WorkerId, m: Email, listing: Listing)
    requires j + 1 < |states|
  {
    Opens(states[j], states[j + 1], w, m, listing)
  }

  // Some worker listed the first page of this recovery before state i, when the mailbox's history ID
  // was `listing.since`.
  ghost predicate Opened(states: seq<Sys>, i: nat, m: Email, listing: Listing)
    requires i < |states|
  {
    exists j: nat, w: WorkerId :: j < i && OpensAt(states, j, w, m, listing)
  }

  lemma OpenedEarlier(states: seq<Sys>, i: nat, j: nat, m: Email, a: Listing, b: Listing)
    requires i <= j < |states| && Opened(states, i, m, a) && SameChain(a, b)
    ensures Opened(states, j, m, b)
  {
    var k: nat, w: WorkerId :| k < i && OpensAt(states, k, w, m, a);
    assert OpensAt(states, k, w, m, b);
  }

  lemma StepIsTraced(states: seq<Sys>, actions: seq<Action>, i: nat, w: WorkerId)
    requires IsRun(states, actions) && i < |actions|
    ensures Traced(states[i], states[i + 1], w) || Knows(states[i + 1].PcOf(w)) == Knows(states[i].PcOf(w))
  {
    RunsKeepRecoveryOk(states, actions, i);
    RunsKeepInv(states, actions, i);
    hide Inv, RecoveryOk, Enabled, Act, Traced, Knows;
    var s, a := states[i], actions[i];
    NextKeepsInv(s, a);
    EverythingGrows(s, a);
    if ActorOf(a).Some? {
      ActorKnows(s, a);
      assert a.w != w ==> states[i + 1].PcOf(w) == s.PcOf(w);
    } else {
      EnvironmentMovesNobody(s, a);
    }
  }

  // The case that is not traced to an earlier state.
  lemma OpenedHere(states: seq<Sys>, i: nat, w: WorkerId, m: Email, listing: Listing)
    requires i + 1 < |states| && Opens(states[i], states[i + 1], w, m, listing)
    ensures Opened(states, i + 1, m, listing)
  {
    assert OpensAt(states, i, w, m, listing);
  }

  predicate CarriedOn(k: Knowledge, k': Knowledge) {
    k.InPages? && k'.InPages? && k.mailbox == k'.mailbox && SameChain(k.listing, k'.listing)
  }

  predicate TakenOver(s: Sys, k: Knowledge) {
    k.InPages? && k.mailbox in s.chains && k.listing == s.chains[k.mailbox]
  }

  lemma TraceCases(states: seq<Sys>, actions: seq<Action>, i: nat, w: WorkerId)
    requires IsRun(states, actions) && i < |actions| && Knows(states[i + 1].PcOf(w)).InPages?
    ensures var k, k' := Knows(states[i].PcOf(w)), Knows(states[i + 1].PcOf(w));
            CarriedOn(k, k') || TakenOver(states[i], k') || Opened(states, i + 1, k'.mailbox, k'.listing)
  {
    StepIsTraced(states, actions, i, w);
    hide IsRun, Knows, Opens, Opened, Sys.PcOf;
    var k' := Knows(states[i + 1].PcOf(w));
    if Opens(states[i], states[i + 1], w, k'.mailbox, k'.listing) {
      OpenedHere(states, i, w, k'.mailbox, k'.listing);
    }
  }

  lemma NothingAtFirst(states: seq<Sys>, actions: seq<Action>, w: WorkerId)
    requires IsRun(states, actions)
    ensures |states| == |actions| + 1 && Knows(states[0].PcOf(w)).Nothing? && states[0].chains == map[]
  {
  }

  lemma {:induction false} ListingWasOpened(states: seq<Sys>, actions: seq<Action>, i: nat, w: WorkerId)
    requires IsRun(states, actions) && i < |states| && Knows(states[i].PcOf(w)).InPages?
    ensures Opened(states, i, Knows(states[i].PcOf(w)).mailbox, Knows(states[i].PcOf(w)).listing)
    decreases i, 0
  {
    NothingAtFirst(states, actions, w);
    hide *;
    if i > 0 {
      TraceCases(states, actions, i - 1, w);
      var k, k' := Knows(states[i - 1].PcOf(w)), Knows(states[i].PcOf(w));
      if CarriedOn(k, k') {
        CarriedCase(states, actions, i, w, k, k');
      } else if TakenOver(states[i - 1], k') {
        TakenCase(states, actions, i, k');
      }
    }
  }

  lemma CarriedCase(states: seq<Sys>, actions: seq<Action>, i: nat, w: WorkerId, k: Knowledge, k': Knowledge)
    requires IsRun(states, actions) && 0 < i < |states| && k == Knows(states[i - 1].PcOf(w)) && CarriedOn(k, k')
    ensures Opened(states, i, k'.mailbox, k'.listing)
    decreases i - 1, 1
  {
    hide IsRun, Knows, Opened;
    ListingWasOpened(states, actions, i - 1, w);
    OpenedEarlier(states, i - 1, i, k'.mailbox, k.listing, k'.listing);
  }

  lemma TakenCase(states: seq<Sys>, actions: seq<Action>, i: nat, k: Knowledge)
    requires IsRun(states, actions) && 0 < i < |states| && TakenOver(states[i - 1], k)
    ensures Opened(states, i, k.mailbox, k.listing)
    decreases i - 1, 1
  {
    hide IsRun, Knows, Opened;
    ChainWasOpened(states, actions, i - 1, k.mailbox);
    OpenedEarlier(states, i - 1, i, k.mailbox, k.listing, k.listing);
  }

  lemma SameAsItself(listing: Listing)
    ensures SameChain(listing, listing)
  {
  }

  lemma PageChain(s: Sys, a: Action, m: Email)
    requires Inv(s) && Enabled(s, a) && a.SettlePage? && m in Next(s, a).chains
    ensures || (m in s.chains && Next(s, a).chains[m] == s.chains[m])
            || (Knows(s.PcOf(a.w)).InPages? && Knows(s.PcOf(a.w)).mailbox == m
                && Knows(s.PcOf(a.w)).listing == Next(s, a).chains[m])
  {
    ActIsSettlePage(s, a, m);
    LoopFacts(s, a.w);
    hide Inv, Act;
    CommittedChain(s, a.w, a.at, m);
    hide SettlePageStep;
  }

  // A chain changes only by the commit of a page.
  lemma ChainSource(s: Sys, a: Action, m: Email)
    requires Inv(s) && Enabled(s, a) && m in Next(s, a).chains
    ensures || (m in s.chains && Next(s, a).chains[m] == s.chains[m])
            || (a.SettlePage? && Knows(s.PcOf(a.w)).InPages? && Knows(s.PcOf(a.w)).mailbox == m
                && Knows(s.PcOf(a.w)).listing == Next(s, a).chains[m])
  {
    if a.SettlePage? {
      hide Inv, Act, SettlePageStep;
      PageChain(s, a, m);
    } else {
      HistoryGrows(s, a);
      hide Inv, Act, Enabled;
    }
  }

  lemma CommittedChain(s: Sys, w: WorkerId, at: Time, m: Email)
    requires Enabled(s, SettlePage(w, at)) && m in SettlePageStep(s, w, at).chains
    ensures var s' := SettlePageStep(s, w, at);
            || (m in s.chains && s'.chains[m] == s.chains[m])
            || (s.PcOf(w).purpose.resync.mailbox == m && s'.chains[m] == s.PcOf(w).purpose.listing)
    ensures AtPageEnd(s.PcOf(w))
  {
    hide RequireManual, CheckpointResync, OwnsResync;
  }

  lemma {:induction false} ChainWasOpened(states: seq<Sys>, actions: seq<Action>, i: nat, m: Email)
    requires IsRun(states, actions) && i < |states| && m in states[i].chains
    ensures Opened(states, i, m, states[i].chains[m])
    decreases i, 0
  {
    if i > 0 {
      var s, a := states[i - 1], actions[i - 1];
      ChainOfRun(states, actions, i - 1, m);
      hide *;
      SameAsItself(states[i].chains[m]);
      if m in s.chains && states[i].chains[m] == s.chains[m] {
        ChainWasOpened(states, actions, i - 1, m);
      } else {
        ListingWasOpened(states, actions, i - 1, a.w);
      }
      OpenedEarlier(states, i - 1, i, m, states[i].chains[m], states[i].chains[m]);
    }
  }

  lemma ChainOfRun(states: seq<Sys>, actions: seq<Action>, i: nat, m: Email)
    requires IsRun(states, actions) && i < |actions| && m in states[i + 1].chains
    ensures var s, a := states[i], actions[i];
            || (m in s.chains && states[i + 1].chains[m] == s.chains[m])
            || (a.SettlePage? && Knows(s.PcOf(a.w)).InPages? && Knows(s.PcOf(a.w)).mailbox == m
                && Knows(s.PcOf(a.w)).listing == states[i + 1].chains[m])
  {
    RunsKeepInv(states, actions, i);
    hide Inv, Knows, Enabled, Next, Init;
    ChainSource(states[i], actions[i], m);
  }

  // ---------- A completed recovery ----------

  // The worker that completes a recovery by this step.
  predicate Completes(s: Sys, a: Action) {
    a.FinishRecovery? && s.PcOf(a.w).Profiled? && OwnsResync(s.db, s.PcOf(a.w).resync)
  }

  // Main result.  A completed recovery triaged what it listed, on every one of its pages, and it
  // listed every inbox message that was there when its first page was listed.
  lemma RecoveryCoversInbox(states: seq<Sys>, actions: seq<Action>, i: nat)
    requires IsRun(states, actions) && i < |actions| && Completes(states[i], actions[i])
    ensures var pc := states[i].PcOf(actions[i].w);
            var m := pc.resync.mailbox;
            && Opened(states, i, m, pc.listing) && pc.listing.generation == pc.resync.generation
            && (forall id <- pc.listing.ids :: AccountedFor(states, actions, i, m, id))
            && (forall a <- states[i].ProviderOf(m).additions ::
                  a.at <= pc.listing.since && a.message !in states[i].ProviderOf(m).outside ==>
                    AccountedFor(states, actions, i, m, a.message))
  {
    var s, w := states[i], actions[i].w;
    var pc := s.PcOf(w);
    var m := pc.resync.mailbox;
    RunsKeepInv(states, actions, i);
    LoopFacts(s, w);
    RunsKeepRecoveryOk(states, actions, i);
    assert KnowsOk(s, Knows(pc));
    ListingWasOpened(states, actions, i, w);
    hide IsRun, Inv, RecoveryOk, AccountedFor, Opened, Seen;
    forall id <- pc.listing.ids ensures AccountedFor(states, actions, i, m, id) {
      SeenIsAccountedFor(states, actions, i, m, id);
    }
  }

  // The cursor it stores is the history ID of its profile, read after the last page.
  lemma CompletionStoresProfile(states: seq<Sys>, actions: seq<Action>, i: nat)
    requires IsRun(states, actions) && i < |actions| && Completes(states[i], actions[i])
    ensures var pc := states[i].PcOf(actions[i].w);
            var m := pc.resync.mailbox;
            && m in states[i + 1].db.mailboxes && states[i + 1].db.mailboxes[m].historyCursor == Some(pc.cursor)
            && states[i + 1].providers == states[i].providers && states[i + 1].db.triage == states[i].db.triage
  {
    assert Enabled(states[i], actions[i]);
  }

  // Every inbox message added after `from` and up to `to` has had a triage row.
  ghost predicate RowsBetween(states: seq<Sys>, i: nat, m: Email, from: int, to: int)
    requires i < |states|
  {
    forall a <- states[i].ProviderOf(m).additions ::
      from < a.at <= to && a.message !in states[i].ProviderOf(m).outside ==> HadRow(states, i, m, a.message)
  }

  ghost predicate RowsUpTo(states: seq<Sys>, i: nat, m: Email, to: int)
    requires i < |states|
  {
    forall a <- states[i].ProviderOf(m).additions ::
      a.at <= to && a.message !in states[i].ProviderOf(m).outside ==> HadRow(states, i, m, a.message)
  }

  // Its new cursor passes no inbox message without a triage row if and only if it passes none that
  // arrived between the listing of its first page and the profile.
  lemma RecoveryCoversCursorIff(states: seq<Sys>, actions: seq<Action>, i: nat)
    requires IsRun(states, actions) && i < |actions| && Completes(states[i], actions[i])
    ensures var pc := states[i].PcOf(actions[i].w);
            var m := pc.resync.mailbox;
            && m in states[i + 1].db.mailboxes && states[i + 1].db.mailboxes[m].historyCursor == Some(pc.cursor)
            && (RowsUpTo(states, i + 1, m, pc.cursor) <==> RowsBetween(states, i + 1, m, pc.listing.since, pc.cursor))
  {
    RecoveryCoversInbox(states, actions, i);
    CompletionStoresProfile(states, actions, i);
    hide IsRun, Opened, Completes;
    var pc := states[i].PcOf(actions[i].w);
    var m := pc.resync.mailbox;
    if RowsBetween(states, i + 1, m, pc.listing.since, pc.cursor) {
      forall a <- states[i + 1].ProviderOf(m).additions
        | a.at <= pc.cursor && a.message !in states[i + 1].ProviderOf(m).outside
        ensures HadRow(states, i + 1, m, a.message)
      {
        if a.at <= pc.listing.since {
          assert AccountedFor(states, actions, i, m, a.message);
        }
      }
    }
  }

  // What the worker can check: if the profile still reports the history ID of its first page, nothing
  // is skipped.
  lemma QuietRecoveryCoversCursor(states: seq<Sys>, actions: seq<Action>, i: nat)
    requires IsRun(states, actions) && i < |actions| && Completes(states[i], actions[i])
    requires states[i].PcOf(actions[i].w).cursor == states[i].PcOf(actions[i].w).listing.since
    ensures RowsUpTo(states, i + 1, states[i].PcOf(actions[i].w).resync.mailbox, states[i].PcOf(actions[i].w).cursor)
  {
    RecoveryCoversCursorIff(states, actions, i);
    hide IsRun, Completes, HadRow;
  }

  // ---------- Every message ----------

  // The step that set the last coverage start of the mailbox.
  function LastStartAt(states: seq<Sys>, actions: seq<Action>, i: nat, m: Email): (k: Option<nat>)
    requires |states| == |actions| + 1 && i < |states|
    ensures k.Some? ==> k.value < i && NewStart(states[k.value], actions[k.value], m) == LastStart(states, actions, i, m)
    ensures k.Some? <==> LastStart(states, actions, i, m).Some?
  {
    if i == 0 then None
    else if NewStart(states[i - 1], actions[i - 1], m).Some? then Some(i - 1)
    else LastStartAt(states, actions, i - 1, m)
  }

  lemma ProviderMoves(states: seq<Sys>, actions: seq<Action>, i: nat, m: Email)
    requires IsRun(states, actions) && i + 1 < |states|
    ensures ProviderGrows(states[i].ProviderOf(m), states[i + 1].ProviderOf(m))
  {
    RunsKeepInv(states, actions, i);
    hide Inv, Enabled, Next, ProviderGrows;
    ProviderStep(states[i], actions[i], m);
  }

  lemma {:induction false} OldMailWasThere(states: seq<Sys>, actions: seq<Action>, i: nat, j: nat, m: Email)
    requires IsRun(states, actions) && i <= j < |states|
    ensures ProviderGrows(states[i].ProviderOf(m), states[j].ProviderOf(m))
  {
    hide IsRun;
    if i < j {
      OldMailWasThere(states, actions, i, j - 1, m);
      ProviderMoves(states, actions, j - 1, m);
      hide ProviderGrows;
      GrowsOn(states[i].ProviderOf(m), states[j - 1].ProviderOf(m), states[j].ProviderOf(m));
    }
  }

  lemma ProviderStep(s: Sys, a: Action, m: Email)
    requires Inv(s) && Enabled(s, a)
    ensures ProviderGrows(s.ProviderOf(m), Next(s, a).ProviderOf(m))
  {
    EverythingGrows(s, a);
  }

  lemma GrowsOn(p: Provider, q: Provider, r: Provider)
    requires ProviderGrows(p, q) && ProviderGrows(q, r)
    ensures ProviderGrows(p, r)
  {
  }

  // Mail the last completed recovery may have missed: it came after the first page was listed, and
  // no later than the profile.
  predicate InGap(s: Sys, a: Action, at: int) {
    a.FinishRecovery? && s.PcOf(a.w).Profiled? && s.PcOf(a.w).listing.since < at <= s.PcOf(a.w).cursor
  }

  // Mail that was there before the mailbox was first watched.
  predicate BeforeWatch(a: Action, at: int) {
    a.RenewWatch? && at <= a.historyId
  }

  // Main result.  In every reachable state, every message that entered the inbox at or below the
  // stored cursor has had its triage row, through history scans and recoveries alike, except mail
  // older than the first watch and mail in the gap of the last completed recovery.
  lemma EveryMessageIsAccountedFor(states: seq<Sys>, actions: seq<Action>, i: nat, m: Email, message: MessageId,
                                   at: int)
    requires IsRun(states, actions) && i < |states|
    requires m in states[i].db.mailboxes && states[i].db.mailboxes[m].historyCursor.Some?
    requires Addition(message, at) in states[i].ProviderOf(m).additions
    requires at <= states[i].db.mailboxes[m].historyCursor.value && message !in states[i].ProviderOf(m).outside
    ensures var k := LastStartAt(states, actions, i, m);
            && k.Some?
            && (AccountedFor(states, actions, i, m, message)
                || BeforeWatch(actions[k.value], at) || InGap(states[k.value], actions[k.value], at))
  {
    CursorsHaveACoverageStart(states, actions, i, m);
    var k := LastStartAt(states, actions, i, m).value;
    var s, a := states[k], actions[k];
    var from := LastStart(states, actions, i, m).value;
    if at > from {
      HistoryIsCovered(states, actions, i, m, from, message, at);
    } else if a.FinishRecovery? && !InGap(s, a, at) {
      RecoveryCoversInbox(states, actions, k);
      RunsKeepInv(states, actions, k);
      ListedBeforeHead(states, actions, k);
      OldMailWasThere(states, actions, k, i, m);
      hide IsRun, Inv;
      assert Addition(message, at) in s.ProviderOf(m).additions;
      StillAccountedFor(states, actions, k, i, m, message);
    }
  }

  lemma ListedBeforeHead(states: seq<Sys>, actions: seq<Action>, i: nat)
    requires IsRun(states, actions) && i < |actions| && Completes(states[i], actions[i])
    ensures var pc := states[i].PcOf(actions[i].w); pc.listing.since <= states[i].ProviderOf(pc.resync.mailbox).head
  {
    RunsKeepRecoveryOk(states, actions, i);
    RunsKeepInv(states, actions, i);
    LoopFacts(states[i], actions[i].w);
    hide IsRun, Inv;
    assert KnowsOk(states[i], Knows(states[i].PcOf(actions[i].w)));
  }
}
