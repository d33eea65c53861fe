// `_history_message_ids` (server/workers/mail_notifications.py:134-182): the bounded, paged,
// de-duplicating scan of the Gmail history list.

module HistoryScan {
  import opened Common
  import opened NotificationRows

  // One element of a response's `history` list.  `id` is the validated history ID, if any, and
  // `added` holds the message IDs of its `messagesAdded` list (None where the shape is wrong).
  datatype Entry = NotAnObject | Entry(id: Option<int>, added: seq<Option<MessageId>>)

  datatype Page = Page(historyId: Option<int>, history: seq<Entry>, more: bool)

  datatype ScanResult = Listed(ids: seq<MessageId>, cursor: int) | LimitExceeded

  // `pages` holds every response the scan can ask for: a chain that ends at the first page
  // without a next-page token, or reaches the page limit.
  predicate Answers(pages: seq<Page>, maxPages: int) {
    && |pages| > 0
    && (forall i :: 0 <= i < |pages| - 1 ==> pages[i].more)
    && (pages[|pages| - 1].more ==> |pages| >= maxPages)
  }

  // ---------- What the scan collects, without its control flow ----------

  function Usable(added: seq<Option<MessageId>>): (ids: seq<MessageId>) {
    if added == [] then []
    else
      var last := added[|added| - 1];
      Usable(added[..|added| - 1]) + (if last.Some? && last.value != "" then [last.value] else [])
  }

  function EntryIds(entry: Entry): seq<MessageId> {
    if entry.NotAnObject? then [] else Usable(entry.added)
  }

  function HistoryIds(history: seq<Entry>): seq<MessageId> {
    if history == [] then [] else HistoryIds(history[..|history| - 1]) + EntryIds(history[|history| - 1])
  }

  function AllIds(pages: seq<Page>): seq<MessageId> {
    if pages == [] then [] else AllIds(pages[..|pages| - 1]) + HistoryIds(pages[|pages| - 1].history)
  }

  // First occurrences, in order.
  function Distinct(ids: seq<MessageId>): (d: seq<MessageId>)
    ensures forall id :: id in d <==> id in ids
    ensures forall i, j :: 0 <= i < j < |d| ==> d[i] != d[j]
  {
    if ids == [] then []
    else
      var last := ids[|ids| - 1];
      var d := Distinct(ids[..|ids| - 1]);
      assert ids == ids[..|ids| - 1] + [last];
      if last in d then d else d + [last]
  }

  function HistoryTop(cursor: int, history: seq<Entry>): int {
    if history == [] then cursor
    else
      var entry := history[|history| - 1];
      var top := HistoryTop(cursor, history[..|history| - 1]);
      if entry.Entry? && entry.id.Some? then Max(top, entry.id.value) else top
  }

  function Top(cursor: int, pages: seq<Page>): int {
    if pages == [] then cursor
    else
      var page := pages[|pages| - 1];
      var before := Top(cursor, pages[..|pages| - 1]);
      HistoryTop(if page.historyId.Some? then Max(before, page.historyId.value) else before, page.history)
  }

  // The scan succeeds exactly when the chain ends within the page limit, at most `maxMessages`
  // distinct messages were listed, and the limit was not already reached before the last page.
  predicate WithinBounds(pages: seq<Page>, maxMessages: int, maxPages: int)
    requires |pages| > 0
  {
    && !pages[|pages| - 1].more
    && |pages| <= maxPages
    && |Distinct(AllIds(pages))| <= maxMessages
    && (|pages| > 1 ==> |Distinct(AllIds(pages[..|pages| - 1]))| < maxMessages)
  }

  function Scan(pages: seq<Page>, cursor: int, maxMessages: int, maxPages: int): ScanResult
    requires |pages| > 0
  {
    if WithinBounds(pages, maxMessages, maxPages)
    then Listed(Distinct(AllIds(pages)), Top(cursor, pages))
    else LimitExceeded
  }

  // ---------- Growth of prefixes ----------

  lemma {:induction false} DistinctExtends(a: seq<MessageId>, b: seq<MessageId>)
    ensures |Distinct(a)| <= |Distinct(a + b)|
    ensures Distinct(a) <= Distinct(a + b)
  {
    if b == [] {
      assert a + b == a;
    } else {
      DistinctExtends(a, b[..|b| - 1]);
      assert (a + b)[..|a + b| - 1] == a + b[..|b| - 1];
    }
  }

  lemma {:induction false} AllIdsPrefix(pages: seq<Page>, n: nat)
    requires n <= |pages|
    ensures AllIds(pages[..n]) <= AllIds(pages)
  {
    if n == |pages| {
      assert pages[..n] == pages;
    } else {
      AllIdsPrefix(pages[..|pages| - 1], n);
      assert pages[..|pages| - 1][..n] == pages[..n];
    }
  }

  lemma DistinctPrefix(a: seq<MessageId>, b: seq<MessageId>)
    requires a <= b
    ensures |Distinct(a)| <= |Distinct(b)|
  {
    assert b == a + b[|a|..];
    DistinctExtends(a, b[|a|..]);
  }

  // Too many messages, or too many pages, before the end of the chain can only be a limit error.
  lemma StoppedAt(pages: seq<Page>, n: nat, listed: seq<MessageId>, maxMessages: int, maxPages: int)
    requires Answers(pages, maxPages) && 0 < n <= |pages|
    requires listed <= AllIds(pages[..n])
    requires |Distinct(listed)| > maxMessages
          || (pages[n - 1].more && (n >= maxPages || |Distinct(listed)| >= maxMessages))
    ensures !WithinBounds(pages, maxMessages, maxPages)
  {
    AllIdsPrefix(pages, n);
    if |Distinct(listed)| > maxMessages {
      DistinctPrefix(listed, AllIds(pages));
    } else if n < |pages| {
      AllIdsPrefix(pages[..|pages| - 1], n);
      assert pages[..|pages| - 1][..n] == pages[..n];
      DistinctPrefix(listed, AllIds(pages[..|pages| - 1]));
    }
  }

  lemma {:induction false} HistoryIdsPrefix(history: seq<Entry>, h: nat)
    requires h <= |history|
    ensures HistoryIds(history[..h]) <= HistoryIds(history)
  {
    if h == |history| {
      assert history[..h] == history;
    } else {
      HistoryIdsPrefix(history[..|history| - 1], h);
      assert history[..|history| - 1][..h] == history[..h];
    }
  }

  lemma {:induction false} UsablePrefix(added: seq<Option<MessageId>>, a: nat)
    requires a <= |added|
    ensures Usable(added[..a]) <= Usable(added)
  {
    if a == |added| {
      assert added[..a] == added;
    } else {
      UsablePrefix(added[..|added| - 1], a);
      assert added[..|added| - 1][..a] == added[..a];
    }
  }

  // ---------- The loop ----------

  // One `messagesAdded` list.  `full` reports a new message that no longer fits.
  method TakeAdded(added: seq<Option<MessageId>>, ghost listed: seq<MessageId>,
                   ids: seq<MessageId>, seen: set<MessageId>, maxMessages: int)
    returns (messageIds: seq<MessageId>, seen': set<MessageId>, full: bool, taken: nat)
    requires ids == Distinct(listed) && |ids| <= maxMessages
    requires forall id :: id in seen <==> id in ids
    ensures taken <= |added| && (!full ==> taken == |added|)
    ensures full ==> |Distinct(listed + Usable(added[..taken]))| > maxMessages
    ensures !full ==> messageIds == Distinct(listed + Usable(added)) && |messageIds| <= maxMessages
    ensures forall id :: id in seen' <==> id in messageIds
  {
    messageIds, seen', full, taken := ids, seen, false, 0;
    assert listed + Usable(added[..0]) == listed;
    while taken < |added|
      invariant taken <= |added|
      invariant messageIds == Distinct(listed + Usable(added[..taken])) && |messageIds| <= maxMessages
      invariant forall id :: id in seen' <==> id in messageIds
    {
      var messageId := added[taken];
      taken := taken + 1;
      UsableStep(listed, added, taken);
      if messageId.Some? && messageId.value != "" && messageId.value !in seen' {
        if |messageIds| >= maxMessages {
          full := true;
          return;
        }
        seen' := seen' + {messageId.value};
        messageIds := messageIds + [messageId.value];
      }
    }
    assert added[..taken] == added;
  }

  lemma UsableStep(listed: seq<MessageId>, added: seq<Option<MessageId>>, n: nat)
    requires 0 < n <= |added|
    ensures var last := added[n - 1];
            var before := listed + Usable(added[..n - 1]);
            Distinct(listed + Usable(added[..n])) ==
            if last.Some? && last.value != "" && last.value !in Distinct(before)
            then Distinct(before) + [last.value] else Distinct(before)
  {
    var last := added[n - 1];
    var before := listed + Usable(added[..n - 1]);
    assert added[..n][..n - 1] == added[..n - 1];
    if last.Some? && last.value != "" {
      var after := before + [last.value];
      assert listed + Usable(added[..n]) == after;
      assert after[..|after| - 1] == before;
    } else {
      assert Usable(added[..n]) == Usable(added[..n - 1]);
    }
  }

  // One response's `history` list.
  method TakeHistory(history: seq<Entry>, ghost before: seq<MessageId>, cursor: int,
                     ids: seq<MessageId>, seen: set<MessageId>, maxMessages: int)
    returns (messageIds: seq<MessageId>, seen': set<MessageId>, latestCursor: int, full: bool,
             ghost listed: seq<MessageId>)
    requires ids == Distinct(before) && |ids| <= maxMessages
    requires forall id :: id in seen <==> id in ids
    ensures full ==> |Distinct(listed)| > maxMessages && listed <= before + HistoryIds(history)
    ensures !full ==> messageIds == Distinct(before + HistoryIds(history)) && |messageIds| <= maxMessages
    ensures !full ==> latestCursor == HistoryTop(cursor, history)
    ensures forall id :: id in seen' <==> id in messageIds
  {
    messageIds, seen', latestCursor, full := ids, seen, cursor, false;
    listed := before;
    var h := 0;
    assert before + HistoryIds(history[..0]) == before;
    while h < |history|
      invariant h <= |history|
      invariant listed == before + HistoryIds(history[..h])
      invariant messageIds == Distinct(listed) && |messageIds| <= maxMessages
      invariant forall id :: id in seen' <==> id in messageIds
      invariant latestCursor == HistoryTop(cursor, history[..h])
    {
      var entry := history[h];
      h := h + 1;
      HistoryStep(history, before, listed, cursor, h);
      if entry.NotAnObject? {
        continue;
      }
      var historyCursor := if entry.id.Some? then entry.id.value else latestCursor;
      latestCursor := Max(latestCursor, historyCursor);
      var taken;
      messageIds, seen', full, taken := TakeAdded(entry.added, listed, messageIds, seen', maxMessages);
      if full {
        FullEntry(history, before, listed, h, taken);
        listed := listed + Usable(entry.added[..taken]);
        return;
      }
      listed := listed + Usable(entry.added);
    }
    assert history[..h] == history;
  }

  lemma HistoryStep(history: seq<Entry>, before: seq<MessageId>, listed: seq<MessageId>, cursor: int, h: nat)
    requires 0 < h <= |history| && listed == before + HistoryIds(history[..h - 1])
    ensures var entry := history[h - 1];
            var top := HistoryTop(cursor, history[..h - 1]);
            && before + HistoryIds(history[..h]) ==
               (if entry.NotAnObject? then listed else listed + Usable(entry.added))
            && HistoryTop(cursor, history[..h]) ==
               (if entry.Entry? && entry.id.Some? then Max(top, entry.id.value) else top)
  {
    assert history[..h][..h - 1] == history[..h - 1];
    var ids, added := HistoryIds(history[..h - 1]), EntryIds(history[h - 1]);
    assert HistoryIds(history[..h]) == ids + added by {
      hide Usable, EntryIds, HistoryTop;
    }
    hide HistoryIds, Usable;
    assert before + (ids + added) == (before + ids) + added;
  }

  lemma FullEntry(history: seq<Entry>, before: seq<MessageId>, listed: seq<MessageId>, h: nat, taken: nat)
    requires 0 < h <= |history| && listed == before + HistoryIds(history[..h - 1])
    requires history[h - 1].Entry? && taken <= |history[h - 1].added|
    ensures listed + Usable(history[h - 1].added[..taken]) <= before + HistoryIds(history)
  {
    var all := Usable(history[h - 1].added);
    var some := Usable(history[h - 1].added[..taken]);
    assert some <= all by { UsablePrefix(history[h - 1].added, taken); }
    var upTo := HistoryIds(history[..h]);
    assert before + upTo == listed + all by { HistoryStep(history, before, listed, 0, h); }
    assert upTo <= HistoryIds(history) by { HistoryIdsPrefix(history, h); }
    PrefixChain(listed, some, all, before, upTo, HistoryIds(history));
  }

  lemma PrefixChain<T>(a: seq<T>, b: seq<T>, c: seq<T>, d: seq<T>, e: seq<T>, f: seq<T>)
    requires b <= c && d + e == a + c && e <= f
    ensures a + b <= d + f
  {
    assert a + c == a + b + c[|b|..];
    assert d + f == d + e + f[|e|..];
  }

  method HistoryMessageIds(pages: seq<Page>, cursor: int, maxMessages: int, maxPages: int)
    returns (r: ScanResult)
    requires maxMessages >= 1 && maxPages >= 1
    requires Answers(pages, maxPages)
    ensures r == Scan(pages, cursor, maxMessages, maxPages)
  {
    var messageIds: seq<MessageId> := [];
    var seen: set<MessageId> := {};
    var latestCursor := cursor;
    var pageCount := 0;
    while true
      invariant 0 <= pageCount < |pages| && pageCount < maxPages
      invariant messageIds == Distinct(AllIds(pages[..pageCount]))
      invariant forall id :: id in seen <==> id in messageIds
      invariant |messageIds| <= maxMessages
      invariant pageCount > 0 ==> |messageIds| < maxMessages
      invariant latestCursor == Top(cursor, pages[..pageCount])
      decreases |pages| - pageCount
    {
      var response := pages[pageCount];
      ghost var before := AllIds(pages[..pageCount]);
      pageCount := pageCount + 1;
      assert pages[..pageCount][..pageCount - 1] == pages[..pageCount - 1];
      if response.historyId.Some? {
        latestCursor := Max(latestCursor, response.historyId.value);
      }
      var full;
      ghost var listed;
      messageIds, seen, latestCursor, full, listed :=
        TakeHistory(response.history, before, latestCursor, messageIds, seen, maxMessages);
      if full {
        StoppedAt(pages, pageCount, listed, maxMessages, maxPages);
        return LimitExceeded;
      }
      if !response.more {
        assert pages[..pageCount] == pages;
        assert pageCount > 1 ==> pages[..pageCount - 1][pageCount - 2].more;
        return Listed(messageIds, latestCursor);
      }
      if pageCount >= maxPages || |messageIds| >= maxMessages {
        StoppedAt(pages, pageCount, AllIds(pages[..pageCount]), maxMessages, maxPages);
        return LimitExceeded;
      }
    }
  }

  // ---------- What a scan reports, in terms of its pages ----------

  predicate Names(entry: Entry, id: MessageId) {
    entry.Entry? && id != "" && Some(id) in entry.added
  }

  predicate OnPage(page: Page, id: MessageId) {
    exists entry <- page.history :: Names(entry, id)
  }

  // A history ID that the page reports, for itself or for one of its entries.
  predicate Dated(page: Page, n: int) {
    page.historyId == Some(n) || InHistory(page.history, n)
  }

  predicate InHistory(history: seq<Entry>, n: int) {
    exists entry <- history :: entry.Entry? && entry.id == Some(n)
  }

  lemma {:induction false} UsableExactly(added: seq<Option<MessageId>>)
    ensures forall id :: id in Usable(added) <==> id != "" && Some(id) in added
  {
    if added != [] {
      var init, last := added[..|added| - 1], added[|added| - 1];
      UsableExactly(init);
      assert added == init + [last];
    }
  }

  lemma {:induction false} HistoryIdsExactly(history: seq<Entry>)
    ensures forall id :: id in HistoryIds(history) <==> exists entry <- history :: Names(entry, id)
  {
    if history != [] {
      var init, last := history[..|history| - 1], history[|history| - 1];
      HistoryIdsExactly(init);
      assert history == init + [last];
      assert last in history && forall entry <- init :: entry in history;
      if last.Entry? {
        UsableExactly(last.added);
      }
      forall id ensures id in HistoryIds(history) <==> id in HistoryIds(init) || Names(last, id) {
      }
    }
  }

  lemma {:induction false} AllIdsExactly(pages: seq<Page>)
    ensures forall id :: id in AllIds(pages) <==> exists page <- pages :: OnPage(page, id)
  {
    if pages != [] {
      var init, last := pages[..|pages| - 1], pages[|pages| - 1];
      AllIdsExactly(init);
      HistoryIdsExactly(last.history);
      assert pages == init + [last];
      assert forall id :: id in HistoryIds(last.history) <==> OnPage(last, id);
      hide OnPage, HistoryIds;
    }
  }

  lemma {:induction false} HistoryTopIsGreatest(cursor: int, history: seq<Entry>)
    ensures var top := HistoryTop(cursor, history);
            && cursor <= top && (top == cursor || InHistory(history, top))
            && (forall n :: InHistory(history, n) ==> n <= top)
  {
    if history != [] {
      var init, last := history[..|history| - 1], history[|history| - 1];
      HistoryTopIsGreatest(cursor, init);
      assert history == init + [last];
      forall n ensures InHistory(history, n) <==> InHistory(init, n) || (last.Entry? && last.id == Some(n)) {
      }
    }
  }

  lemma {:induction false} TopIsGreatest(cursor: int, pages: seq<Page>)
    ensures var top := Top(cursor, pages);
            && cursor <= top && (top == cursor || exists page <- pages :: Dated(page, top))
            && (forall page <- pages, n :: Dated(page, n) ==> n <= top)
  {
    if pages != [] {
      var init, last := pages[..|pages| - 1], pages[|pages| - 1];
      var before := Top(cursor, init);
      TopIsGreatest(cursor, init);
      HistoryTopIsGreatest(if last.historyId.Some? then Max(before, last.historyId.value) else before, last.history);
      assert pages == init + [last];
      assert last in pages && forall page <- init :: page in pages;
      hide InHistory, HistoryTop;
    }
  }

  // A scan that succeeds lists every usable message ID of its pages exactly once, and nothing else,
  // and its cursor is the greatest history ID it met, its own start included.
  lemma ScanIsExact(pages: seq<Page>, cursor: int, maxMessages: int, maxPages: int)
    requires |pages| > 0 && Scan(pages, cursor, maxMessages, maxPages).Listed?
    ensures var r := Scan(pages, cursor, maxMessages, maxPages);
            && (forall id :: id in r.ids <==> exists page <- pages :: OnPage(page, id))
            && (forall i, j :: 0 <= i < j < |r.ids| ==> r.ids[i] != r.ids[j]) && |r.ids| <= maxMessages
            && cursor <= r.cursor && (r.cursor == cursor || exists page <- pages :: Dated(page, r.cursor))
            && (forall page <- pages, n :: Dated(page, n) ==> n <= r.cursor)
  {
    AllIdsExactly(pages);
    TopIsGreatest(cursor, pages);
    hide OnPage, Dated, AllIds, Top;
  }
}
