// Keyset listing of one owner's actions (server/services/pending_actions.py:376-432): following the
// page tokens gives the whole sorted list.

module ActionListing {
  import opened Common
  import ActionRows
  import opened PageTokens

  // ---------- Order ----------

  // (created_at, id) < (created_at, id)
  predicate Before(a: Key, b: Key) {
    a.createdAt < b.createdAt || (a.createdAt == b.createdAt && a.id < b.id)
  }

  predicate IsGreatest(keys: set<Key>, k: Key) {
    k in keys && forall other <- keys :: other == k || Before(other, k)
  }

  lemma {:induction false} GreatestExists(keys: set<Key>)
    requires keys != {}
    ensures exists k <- keys :: IsGreatest(keys, k)
  {
    var x :| x in keys;
    if keys == {x} {
      assert IsGreatest(keys, x);
    } else {
      GreatestExists(keys - {x});
      var z :| z in keys - {x} && IsGreatest(keys - {x}, z);
      assert forall k <- keys :: k == x || k in keys - {x};
      assert IsGreatest(keys, if Before(x, z) then z else x);
    }
  }

  function Greatest(keys: set<Key>): (k: Key)
    requires keys != {}
    ensures IsGreatest(keys, k)
  {
    GreatestExists(keys);
    var k :| k in keys && IsGreatest(keys, k);
    k
  }

  // ORDER BY created_at DESC, id DESC
  function Descending(keys: set<Key>): seq<Key> {
    if keys == {} then [] else [Greatest(keys)] + Descending(keys - {Greatest(keys)})
  }

  ghost predicate Sorts(d: seq<Key>, keys: set<Key>) {
    && |d| == |keys|
    && (forall k :: k in d <==> k in keys)
    && (forall i, j :: 0 <= i < j < |d| ==> Before(d[j], d[i]))
  }

  lemma GreatestPrepends(keys: set<Key>, d: seq<Key>)
    requires keys != {} && Sorts(d, keys - {Greatest(keys)})
    ensures Sorts([Greatest(keys)] + d, keys)
  {
    hide Before, Greatest;
    assert forall j :: 0 <= j < |d| ==> d[j] in d;
  }

  lemma {:induction false} DescendingSorts(keys: set<Key>)
    ensures |Descending(keys)| == |keys|
    ensures forall k :: k in Descending(keys) <==> k in keys
    ensures forall i, j :: 0 <= i < j < |Descending(keys)| ==> Before(Descending(keys)[j], Descending(keys)[i])
  {
    hide Before, Greatest;
    if keys != {} {
      var rest := keys - {Greatest(keys)};
      DescendingSorts(rest);
      GreatestPrepends(keys, Descending(rest));
    }
  }

  // ---------- One page ----------

  function Matching(db: ActionRows.Tables, owner: ActionRows.UserId, status: ActionRows.Status): set<Key> {
    set id | id in db.actions && db.actions[id].owner == owner && db.actions[id].status == status ::
      Key(db.actions[id].createdAt, id)
  }

  // The rows after the position of a token.
  function Remaining(keys: set<Key>, cursor: Option<Key>): set<Key> {
    if cursor.None? then keys else After(keys, cursor.value)
  }

  function After(keys: set<Key>, k: Key): set<Key> {
    set x | x in keys && Before(x, k)
  }

  function Take<T>(s: seq<T>, n: nat): seq<T> {
    if |s| <= n then s else s[..n]
  }

  datatype Summary = Summary(key: Key, isExpired: bool)
  datatype Listing = Listing(items: seq<Summary>, next: Option<string>)

  // The query reads one row more than a page to see whether another page exists.
  function Page(keys: set<Key>, cursor: Option<Key>, limit: nat): (seq<Key>, Option<Key>)
    requires limit > 0
  {
    var rows := Take(Descending(Remaining(keys, cursor)), limit + 1);
    var page := Take(rows, limit);
    (page, if |rows| > limit then Some(page[|page| - 1]) else None)
  }

  function Summarize(db: ActionRows.Tables, page: seq<Key>, now: Time): seq<Summary>
    requires forall k <- page :: k.id in db.actions
  {
    seq(|page|, i requires 0 <= i < |page| =>
      assert page[i] in page;
      var row := db.actions[page[i].id];
      Summary(page[i], row.status.Pending? && row.expiresAt <= now))
  }

  lemma {:induction false} PageRowsMatch(db: ActionRows.Tables, owner: ActionRows.UserId, status: ActionRows.Status,
                                         cursor: Option<Key>, limit: nat)
    requires limit > 0
    ensures forall k <- Page(Matching(db, owner, status), cursor, limit).0 ::
              && k.id in db.actions && db.actions[k.id].owner == owner && db.actions[k.id].status == status
              && db.actions[k.id].createdAt == k.createdAt
  {
    var left := Remaining(Matching(db, owner, status), cursor);
    DescendingSorts(left);
    var page := Page(Matching(db, owner, status), cursor, limit).0;
    assert forall k <- page :: k in Descending(left);
    assert forall k <- left :: k in Matching(db, owner, status);
    hide Page, Descending;
  }

  // The position a token stands for: none for no token, and none for one that cannot be read.
  function PositionOf(lib: Library, token: Option<string>): Option<Key> {
    if token.None? then None else DecodePageToken(lib, token.value)
  }

  function ListPendingActions(lib: Library, db: ActionRows.Tables, owner: ActionRows.UserId, status: ActionRows.Status,
                              limit: nat, token: Option<string>, now: Time): Option<Listing>
    requires limit > 0
  {
    var cursor := PositionOf(lib, token);
    if token.Some? && cursor.None? then None  // InvalidPageToken
    else
      var (page, last) := Page(Matching(db, owner, status), cursor, limit);
      PageRowsMatch(db, owner, status, cursor, limit);
      Some(Listing(Summarize(db, page, now), if last.None? then None else Some(EncodePageToken(lib, last.value))))
  }

  // A token moves the position; it never widens the owner or status filter.  An item says when its
  // row was created, and whether it is pending past its expiry.
  lemma ListingStaysWithOwner(lib: Library, db: ActionRows.Tables, owner: ActionRows.UserId, status: ActionRows.Status,
                              limit: nat, token: Option<string>, now: Time)
    requires limit > 0 && ListPendingActions(lib, db, owner, status, limit, token, now).Some?
    ensures var listing := ListPendingActions(lib, db, owner, status, limit, token, now).value;
            |listing.items| <= limit
            && forall item <- listing.items ::
                 && item.key.id in db.actions
                 && var row := db.actions[item.key.id];
                    && row.owner == owner && row.status == status && row.createdAt == item.key.createdAt
                    && (item.isExpired <==> row.status.Pending? && row.expiresAt <= now)
  {
    var cursor := PositionOf(lib, token);
    PageRowsMatch(db, owner, status, cursor, limit);
    var page := Page(Matching(db, owner, status), cursor, limit).0;
    assert forall i :: 0 <= i < |page| ==> page[i] in page;
    hide Page, Matching;
  }

  // ---------- Following the tokens ----------

  // The keys of every page from a position on, following the positions themselves.
  function Pages(keys: set<Key>, cursor: Option<Key>, limit: nat): seq<seq<Key>>
    requires limit > 0
    decreases |Remaining(keys, cursor)|
  {
    var (page, last) := Page(keys, cursor, limit);
    if last.None? then [page]
    else
      PageProgress(keys, cursor, limit);
      [page] + Pages(keys, last, limit)
  }

  lemma FullPage(keys: set<Key>, cursor: Option<Key>, limit: nat)
    requires limit > 0 && Page(keys, cursor, limit).1.Some?
    ensures var (page, last) := Page(keys, cursor, limit);
            var all := Descending(Remaining(keys, cursor));
            |all| > limit && page == all[..limit] && last.value == all[limit - 1]
  {
  }

  // After a full page the remaining rows are exactly those not shown yet.
  lemma PageProgress(keys: set<Key>, cursor: Option<Key>, limit: nat)
    requires limit > 0 && Page(keys, cursor, limit).1.Some?
    ensures var (page, last) := Page(keys, cursor, limit);
            && |page| == limit && |Remaining(keys, cursor)| > limit
            && |Remaining(keys, last)| == |Remaining(keys, cursor)| - limit
            && Descending(Remaining(keys, cursor)) == page + Descending(Remaining(keys, last))
  {
    FullPage(keys, cursor, limit);
    hide Page, Descending;
    var left := Remaining(keys, cursor);
    var last := Page(keys, cursor, limit).1.value;
    DescendingSorts(left);
    assert last in left;
    assert Remaining(keys, Some(last)) == After(left, last);
    SplitAt(left, limit);
  }

  // The rows after the n-th of a descending list.
  lemma {:induction false} SplitAt(keys: set<Key>, n: nat)
    requires 0 < n <= |Descending(keys)|
    ensures var all := Descending(keys);
            var rest := After(keys, all[n - 1]);
            |rest| == |keys| - n && all == all[..n] + Descending(rest)
  {
    hide Descending, After;
    DescendingLength(keys);
    GreatestFirst(keys);
    var top := Greatest(keys);
    var others := keys - {top};
    var tail := Descending(others);
    if n == 1 {
      AfterTop(keys);
    } else {
      DescendingLength(others);
      SplitAt(others, n - 1);
      DescendingMember(others, n - 2);
      AfterWithoutTop(keys, tail[n - 2]);
      Rotate(top, tail, n - 1, Descending(After(others, tail[n - 2])));
    }
  }

  lemma DescendingLength(keys: set<Key>)
    ensures |Descending(keys)| == |keys|
  {
    DescendingSorts(keys);
  }

  lemma DescendingMember(keys: set<Key>, i: nat)
    requires i < |Descending(keys)|
    ensures Descending(keys)[i] in keys
  {
    DescendingSorts(keys);
    assert Descending(keys)[i] in Descending(keys);
  }

  lemma Rotate<T>(x: T, tail: seq<T>, n: nat, rest: seq<T>)
    requires n <= |tail| && tail == tail[..n] + rest
    ensures [x] + tail == ([x] + tail)[..n + 1] + rest
  {
    assert ([x] + tail)[..n + 1] == [x] + tail[..n];
  }

  lemma GreatestFirst(keys: set<Key>)
    requires keys != {}
    ensures Descending(keys) == [Greatest(keys)] + Descending(keys - {Greatest(keys)})
  {
  }

  lemma AfterTop(keys: set<Key>)
    requires keys != {}
    ensures After(keys, Greatest(keys)) == keys - {Greatest(keys)}
  {
  }

  lemma AfterWithoutTop(keys: set<Key>, x: Key)
    requires keys != {} && x in keys - {Greatest(keys)}
    ensures After(keys, x) == After(keys - {Greatest(keys)}, x)
  {
    assert Before(x, Greatest(keys));
  }

  function Flatten<T>(pages: seq<seq<T>>): seq<T> {
    if pages == [] then [] else pages[0] + Flatten(pages[1..])
  }

  // The number of pages: one for an empty list.
  function PageCount(n: nat, limit: nat): nat
    requires limit > 0
  {
    if n <= limit then 1 else 1 + PageCount(n - limit, limit)
  }

  // It is ceil(n / limit) for a list that is not empty.
  lemma {:induction false} PageCountIsCeiling(n: nat, limit: nat)
    requires limit > 0
    ensures PageCount(n, limit) >= 1
    ensures n <= PageCount(n, limit) * limit
    ensures n > 0 ==> (PageCount(n, limit) - 1) * limit < n
  {
    if n > limit {
      PageCountIsCeiling(n - limit, limit);
      var p := PageCount(n - limit, limit);
      assert (1 + p) * limit == limit + p * limit;
      assert p * limit == limit + (p - 1) * limit;
    }
  }

  lemma LastPage(keys: set<Key>, cursor: Option<Key>, limit: nat)
    requires limit > 0 && Page(keys, cursor, limit).1.None?
    ensures Page(keys, cursor, limit).0 == Descending(Remaining(keys, cursor)) && |Remaining(keys, cursor)| <= limit
  {
    DescendingSorts(Remaining(keys, cursor));
  }

  lemma FlattenOne<T>(page: seq<T>, rest: seq<seq<T>>)
    ensures Flatten([page] + rest) == page + Flatten(rest)
  {
    assert ([page] + rest)[1..] == rest;
  }

  // Main result: every row exactly once, newest first, in ceil(n / limit) pages.
  lemma {:induction false} PagesAreTheSortedList(keys: set<Key>, cursor: Option<Key>, limit: nat)
    requires limit > 0
    ensures Flatten(Pages(keys, cursor, limit)) == Descending(Remaining(keys, cursor))
    ensures |Pages(keys, cursor, limit)| == PageCount(|Remaining(keys, cursor)|, limit)
    decreases |Remaining(keys, cursor)|
  {
    hide Page, Remaining, Descending, Flatten;
    var (page, last) := Page(keys, cursor, limit);
    if last.None? {
      LastPage(keys, cursor, limit);
      FlattenOne(page, []);
      FlattenNothing<Key>();
      assert [page] + [] == [page];
      assert page + [] == page;
    } else {
      PageProgress(keys, cursor, limit);
      PagesAreTheSortedList(keys, last, limit);
      FlattenOne(page, Pages(keys, last, limit));
    }
  }

  lemma FlattenNothing<T>()
    ensures Flatten<T>([]) == []
  {
  }

  lemma SamePage(keys: set<Key>, newer: set<Key>, cursor: Key, limit: nat)
    requires limit > 0 && forall k <- newer :: Before(cursor, k)
    ensures Page(keys + newer, Some(cursor), limit) == Page(keys, Some(cursor), limit)
  {
    assert Remaining(keys + newer, Some(cursor)) == Remaining(keys, Some(cursor));
  }

  lemma LaterPosition(keys: set<Key>, cursor: Key, limit: nat)
    requires limit > 0 && Page(keys, Some(cursor), limit).1.Some?
    ensures Before(Page(keys, Some(cursor), limit).1.value, cursor)
  {
    var left := Remaining(keys, Some(cursor));
    DescendingSorts(left);
    assert Page(keys, Some(cursor), limit).1.value in Descending(left);
  }

  // Rows newer than the position do not change the remaining pages.
  lemma {:induction false} NewerRowsChangeNothing(keys: set<Key>, newer: set<Key>, cursor: Key, limit: nat)
    requires limit > 0 && forall k <- newer :: Before(cursor, k)
    ensures Pages(keys + newer, Some(cursor), limit) == Pages(keys, Some(cursor), limit)
    decreases |Remaining(keys, Some(cursor))|
  {
    SamePage(keys, newer, cursor, limit);
    var last := Page(keys, Some(cursor), limit).1;
    if last.Some? {
      PageProgress(keys, Some(cursor), limit);
      LaterPosition(keys, cursor, limit);
      hide Page, Remaining;
      NewerRowsChangeNothing(keys, newer, last.value, limit);
    }
  }

  // ---------- Rows that change between requests ----------

  // The pages of a client whose i-th request meets the i-th set of matching rows: rows are added,
  // deleted, or change status in between.
  function ShiftingPages(sets: seq<set<Key>>, cursor: Option<Key>, limit: nat): seq<seq<Key>>
    requires limit > 0
  {
    if sets == [] then []
    else
      var (page, last) := Page(sets[0], cursor, limit);
      if last.None? then [page] else [page] + ShiftingPages(sets[1..], last, limit)
  }

  // The client got to a page without a next token.
  predicate ReachesEnd(sets: seq<set<Key>>, cursor: Option<Key>, limit: nat)
    requires limit > 0
  {
    sets != [] && (Page(sets[0], cursor, limit).1.None? || ReachesEnd(sets[1..], Page(sets[0], cursor, limit).1, limit))
  }

  predicate Falling(keys: seq<Key>) {
    forall i, j :: 0 <= i < j < |keys| ==> Before(keys[j], keys[i])
  }

  // A page is falling, after its position, and made of matching rows; what it leaves out comes after
  // its last row.
  lemma PageFacts(keys: set<Key>, cursor: Option<Key>, limit: nat)
    requires limit > 0
    ensures var (page, last) := Page(keys, cursor, limit);
            && Falling(page) && (forall k <- page :: k in Remaining(keys, cursor))
            && (forall k <- Remaining(keys, cursor) :: k in page || (last.Some? && Before(k, last.value)))
            && (last.Some? ==> page != [] && last.value == page[|page| - 1])
  {
    var all := Descending(Remaining(keys, cursor));
    DescendingSorts(Remaining(keys, cursor));
    hide Descending, Remaining;
    var (page, last) := Page(keys, cursor, limit);
    assert page <= all;
    assert forall i :: 0 <= i < |page| ==> page[i] == all[i] && all[i] in all;
    forall k <- Remaining(keys, cursor) ensures k in page || (last.Some? && Before(k, last.value)) {
      var i :| 0 <= i < |all| && all[i] == k;
      if i < |page| {
        assert page[i] == k;
      }
    }
  }

  lemma FallingOn(page: seq<Key>, rest: seq<Key>)
    requires Falling(page) && Falling(rest)
    requires page != [] ==> forall k <- rest :: Before(k, page[|page| - 1])
    ensures Falling(page + rest)
  {
    var all := page + rest;
    forall i, j | 0 <= i < j < |all| ensures Before(all[j], all[i]) {
      if i < |page| <= j {
        assert rest[j - |page|] in rest;
        assert Before(all[j], page[|page| - 1]) && (i == |page| - 1 || Before(page[|page| - 1], page[i]));
      }
    }
  }

  // Even then no row is shown twice or out of order, nothing is shown that did not match when it was
  // asked for, and a client that reaches the end has seen every row that matched throughout.
  lemma {:induction false} ShiftingPagesAreSound(sets: seq<set<Key>>, cursor: Option<Key>, limit: nat)
    requires limit > 0
    ensures var shown := Flatten(ShiftingPages(sets, cursor, limit));
            && Falling(shown)
            && (forall k <- shown :: exists i :: 0 <= i < |sets| && k in Remaining(sets[i], cursor))
            && (ReachesEnd(sets, cursor, limit) ==>
                  forall k: Key :: (forall i :: 0 <= i < |sets| ==> k in Remaining(sets[i], cursor)) ==> k in shown)
  {
    if sets != [] {
      var (page, last) := Page(sets[0], cursor, limit);
      PageFacts(sets[0], cursor, limit);
      hide Page, Flatten;
      if last.None? {
        FlattenOne(page, []);
        FlattenNothing<Key>();
        assert [page] + [] == [page] && page + [] == page;
      } else {
        var rest := ShiftingPages(sets[1..], last, limit);
        ShiftingPagesAreSound(sets[1..], last, limit);
        FlattenOne(page, rest);
        LaterRows(sets, cursor, last, Flatten(rest));
        FallingOn(page, Flatten(rest));
        if ReachesEnd(sets, cursor, limit) {
          SeenThroughout(sets, cursor, limit);
        }
      }
    } else {
      FlattenNothing<Key>();
    }
  }

  lemma LaterRows(sets: seq<set<Key>>, cursor: Option<Key>, last: Option<Key>, shown: seq<Key>)
    requires sets != [] && last.Some? && last.value in Remaining(sets[0], cursor)
    requires forall k <- shown :: exists i :: 0 <= i < |sets[1..]| && k in Remaining(sets[1..][i], last)
    ensures forall k <- shown :: Before(k, last.value)
    ensures forall k <- shown :: exists i :: 0 <= i < |sets| && k in Remaining(sets[i], cursor)
  {
    forall k <- shown ensures exists i :: 0 <= i < |sets| && k in Remaining(sets[i], cursor) {
      var i :| 0 <= i < |sets[1..]| && k in Remaining(sets[1..][i], last);
      assert k in Remaining(sets[i + 1], cursor);
    }
  }

  lemma SeenThroughout(sets: seq<set<Key>>, cursor: Option<Key>, limit: nat)
    requires limit > 0 && sets != [] && Page(sets[0], cursor, limit).1.Some?
    requires var (page, last) := Page(sets[0], cursor, limit);
             && (forall k <- Remaining(sets[0], cursor) :: k in page || Before(k, last.value))
             && last.value in Remaining(sets[0], cursor)
    requires forall k: Key ::
               (forall i :: 0 <= i < |sets[1..]| ==> k in Remaining(sets[1..][i], Page(sets[0], cursor, limit).1)) ==>
                 k in Flatten(ShiftingPages(sets[1..], Page(sets[0], cursor, limit).1, limit))
    ensures forall k: Key :: (forall i :: 0 <= i < |sets| ==> k in Remaining(sets[i], cursor)) ==>
              k in Page(sets[0], cursor, limit).0
              || k in Flatten(ShiftingPages(sets[1..], Page(sets[0], cursor, limit).1, limit))
  {
    var (page, last) := Page(sets[0], cursor, limit);
    hide Page, Flatten, ShiftingPages;
    forall k: Key | (forall i :: 0 <= i < |sets| ==> k in Remaining(sets[i], cursor)) && k !in page
      ensures k in Flatten(ShiftingPages(sets[1..], last, limit))
    {
      assert k in Remaining(sets[0], cursor);
      forall i | 0 <= i < |sets[1..]| ensures k in Remaining(sets[1..][i], last) {
        assert k in Remaining(sets[i + 1], cursor);
      }
    }
  }

  // ---------- The same with opaque tokens ----------

  function Keys(items: seq<Summary>): seq<Key> {
    seq(|items|, i requires 0 <= i < |items| => items[i].key)
  }

  // The next token stands for a later position.
  lemma TokenProgress(lib: Library, db: ActionRows.Tables, owner: ActionRows.UserId, status: ActionRows.Status,
                      limit: nat, token: Option<string>, now: Time)
    requires lib.WellBehaved() && limit > 0
    requires var listing := ListPendingActions(lib, db, owner, status, limit, token, now);
             listing.Some? && listing.value.next.Some?
    ensures var keys, next := Matching(db, owner, status),
                              ListPendingActions(lib, db, owner, status, limit, token, now).value.next;
            |Remaining(keys, PositionOf(lib, next))| < |Remaining(keys, PositionOf(lib, token))|
  {
    hide Page, Library.WellBehaved, Matching, Remaining, DecodePageToken, EncodePageToken;
    var keys, cursor := Matching(db, owner, status), PositionOf(lib, token);
    TokensRoundTrip(lib, Page(keys, cursor, limit).1.value);
    PageProgress(keys, cursor, limit);
  }

  // What a client sees that follows next_page_token to the end.
  function Follow(lib: Library, db: ActionRows.Tables, owner: ActionRows.UserId, status: ActionRows.Status, limit: nat,
                  token: Option<string>, now: Time): Option<seq<seq<Key>>>
    requires lib.WellBehaved() && limit > 0
    decreases |Remaining(Matching(db, owner, status), PositionOf(lib, token))|
  {
    var listing := ListPendingActions(lib, db, owner, status, limit, token, now);
    if listing.None? then None
    else if listing.value.next.None? then Some([Keys(listing.value.items)])
    else
      TokenProgress(lib, db, owner, status, limit, token, now);
      var rest := Follow(lib, db, owner, status, limit, listing.value.next, now);
      if rest.None? then None else Some([Keys(listing.value.items)] + rest.value)
  }

  lemma {:induction false} TokensFollowPositions(lib: Library, db: ActionRows.Tables, owner: ActionRows.UserId,
                                                 status: ActionRows.Status, limit: nat, cursor: Option<Key>, now: Time)
    requires lib.WellBehaved() && limit > 0
    ensures var token := if cursor.None? then None else Some(EncodePageToken(lib, cursor.value));
            Follow(lib, db, owner, status, limit, token, now) == Some(Pages(Matching(db, owner, status), cursor, limit))
    decreases |Remaining(Matching(db, owner, status), cursor)|
  {
    hide Page, EncodePageToken, Library.WellBehaved, Matching, ListPendingActions, Remaining;
    var keys := Matching(db, owner, status);
    var last := Page(keys, cursor, limit).1;
    ListingIsPage(lib, db, owner, status, limit, cursor, now);
    if last.Some? {
      PageProgress(keys, cursor, limit);
      TokensFollowPositions(lib, db, owner, status, limit, last, now);
    }
  }

  lemma ListingIsPage(lib: Library, db: ActionRows.Tables, owner: ActionRows.UserId, status: ActionRows.Status,
                      limit: nat,
                      cursor: Option<Key>, now: Time)
    requires lib.WellBehaved() && limit > 0
    ensures var token := if cursor.None? then None else Some(EncodePageToken(lib, cursor.value));
            var listing := ListPendingActions(lib, db, owner, status, limit, token, now);
            var (page, last) := Page(Matching(db, owner, status), cursor, limit);
            && listing.Some? && Keys(listing.value.items) == page
            && listing.value.next == (if last.None? then None else Some(EncodePageToken(lib, last.value)))
  {
    if cursor.Some? {
      TokensRoundTrip(lib, cursor.value);
    }
    PageRowsMatch(db, owner, status, cursor, limit);
    hide EncodePageToken, DecodePageToken, Library.WellBehaved, Page, Matching;
    var page := Page(Matching(db, owner, status), cursor, limit).0;
    assert Keys(Summarize(db, page, now)) == page;
  }

  // A client that follows the tokens from the start sees exactly the sorted list of its actions.
  lemma FollowingTokensListsEverything(lib: Library, db: ActionRows.Tables, owner: ActionRows.UserId,
                                       status: ActionRows.Status, limit: nat, now: Time)
    requires lib.WellBehaved() && limit > 0
    ensures var keys := Matching(db, owner, status);
            var pages := Follow(lib, db, owner, status, limit, None, now);
            pages.Some? && Flatten(pages.value) == Descending(keys) && |pages.value| == PageCount(|keys|, limit)
  {
    hide Follow, Pages, Flatten, Descending, PageCount, Library.WellBehaved;
    var keys := Matching(db, owner, status);
    PagesAreTheSortedList(keys, None, limit);
    TokensFollowPositions(lib, db, owner, status, limit, None, now);
  }

  // The same while the tables change: the i-th request meets the i-th state of the tables.
  function FollowChanging(lib: Library, dbs: seq<ActionRows.Tables>, owner: ActionRows.UserId,
                          status: ActionRows.Status, limit: nat, token: Option<string>, now: Time)
    : Option<seq<seq<Key>>>
    requires limit > 0
  {
    if dbs == [] then Some([])
    else
      var listing := ListPendingActions(lib, dbs[0], owner, status, limit, token, now);
      if listing.None? then None
      else if listing.value.next.None? then Some([Keys(listing.value.items)])
      else
        var rest := FollowChanging(lib, dbs[1..], owner, status, limit, listing.value.next, now);
        if rest.None? then None else Some([Keys(listing.value.items)] + rest.value)
  }

  function MatchingSets(dbs: seq<ActionRows.Tables>, owner: ActionRows.UserId, status: ActionRows.Status)
    : seq<set<Key>>
  {
    seq(|dbs|, i requires 0 <= i < |dbs| => Matching(dbs[i], owner, status))
  }

  lemma {:induction false} ChangingTokensFollow(lib: Library, dbs: seq<ActionRows.Tables>, owner: ActionRows.UserId,
                                                status: ActionRows.Status, limit: nat, cursor: Option<Key>, now: Time)
    requires lib.WellBehaved() && limit > 0
    ensures var token := if cursor.None? then None else Some(EncodePageToken(lib, cursor.value));
            FollowChanging(lib, dbs, owner, status, limit, token, now) ==
            Some(ShiftingPages(MatchingSets(dbs, owner, status), cursor, limit))
  {
    hide Page, EncodePageToken, Library.WellBehaved, Matching, ListPendingActions;
    if dbs != [] {
      var keys := Matching(dbs[0], owner, status);
      var last := Page(keys, cursor, limit).1;
      ListingIsPage(lib, dbs[0], owner, status, limit, cursor, now);
      assert MatchingSets(dbs, owner, status)[0] == keys;
      assert MatchingSets(dbs, owner, status)[1..] == MatchingSets(dbs[1..], owner, status);
      if last.Some? {
        ChangingTokensFollow(lib, dbs[1..], owner, status, limit, last, now);
      }
    }
  }

  // A client that follows the tokens while rows come, go and change status sees no row twice, every
  // row in order, and none that did not match; and if it gets to the end, every row that matched at
  // each of its requests.
  lemma ChangingTablesAreListed(lib: Library, dbs: seq<ActionRows.Tables>, owner: ActionRows.UserId,
                                status: ActionRows.Status, limit: nat, now: Time)
    requires lib.WellBehaved() && limit > 0
    ensures var sets := MatchingSets(dbs, owner, status);
            var pages := FollowChanging(lib, dbs, owner, status, limit, None, now);
            && pages.Some? && Falling(Flatten(pages.value))
            && (forall k <- Flatten(pages.value) :: exists i :: 0 <= i < |dbs| && k in sets[i])
            && (ReachesEnd(sets, None, limit) ==>
                  forall k: Key :: (forall i :: 0 <= i < |dbs| ==> k in sets[i]) ==> k in Flatten(pages.value))
  {
    hide Page, Library.WellBehaved, Matching, Flatten, Falling, ShiftingPages, FollowChanging, ReachesEnd;
    var sets := MatchingSets(dbs, owner, status);
    ChangingTokensFollow(lib, dbs, owner, status, limit, None, now);
    ShiftingPagesAreSound(sets, None, limit);
    assert forall i :: 0 <= i < |sets| ==> Remaining(sets[i], None) == sets[i];
  }
}
