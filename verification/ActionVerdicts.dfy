// What an execution and a lookup answer, spelled out on the provider's replies
// (server/services/action_handlers.py:88-407).

module ActionVerdicts {
  import opened Common
  import opened ActionPayloads
  import opened ActionHandlers

  // ---------- What a chain of pages lists ----------

  // The `a`-th item of page `i` of what was answered.
  ghost predicate Hit<T>(pages: seq<Reply<Page<T>>>, i: int, a: int) {
    0 <= i < |pages| && pages[i].Answered? && 0 <= a < |pages[i].value.items|
  }

  ghost predicate NoHit<T>(pages: seq<Reply<Page<T>>>) {
    forall i, a :: !Hit(pages, i, a)
  }

  ghost predicate AtMostOneHit<T>(pages: seq<Reply<Page<T>>>) {
    forall i, a, j, b :: Hit(pages, i, a) && Hit(pages, j, b) ==> i == j && a == b
  }

  // The last page was answered, and with it all of them.
  predicate ReadToEnd<T>(pages: seq<Reply<Page<T>>>)
    requires Chain(pages)
  {
    pages[|pages| - 1].Answered?
  }

  // A listing is the pages' items in order: those of a page follow those of the pages before it.
  lemma {:induction false} ItemsAreAt<T>(pages: seq<Reply<Page<T>>>, i: nat)
    requires (forall p <- pages :: p.Answered?) && i < |pages|
    ensures var before := |AllItems(pages[..i])|;
            && before + |pages[i].value.items| <= |AllItems(pages)|
            && AllItems(pages)[before..before + |pages[i].value.items|] == pages[i].value.items
            && (i == |pages| - 1 ==> before + |pages[i].value.items| == |AllItems(pages)|)
  {
    var init := pages[..|pages| - 1];
    if i < |init| {
      ItemsAreAt(init, i);
      assert init[..i] == pages[..i];
      var before := |AllItems(pages[..i])|;
      var end := before + |pages[i].value.items|;
      assert AllItems(pages)[before..end] == AllItems(init)[before..end];
    }
  }

  lemma {:induction false} CountHits<T>(pages: seq<Reply<Page<T>>>)
    requires forall p <- pages :: p.Answered?
    ensures AllItems(pages) == [] <==> NoHit(pages)
    ensures |AllItems(pages)| <= 1 <==> AtMostOneHit(pages)
  {
    if pages != [] {
      var n := |pages| - 1;
      var init, last := pages[..n], pages[n].value.items;
      CountHits(init);
      assert forall i, a :: i < n ==> (Hit(pages, i, a) <==> Hit(init, i, a));
      assert forall a :: Hit(pages, n, a) <==> 0 <= a < |last|;
      if last != [] {
        assert Hit(pages, n, 0);
      }
      if |last| > 1 {
        assert Hit(pages, n, 1);
      }
      if i, a :| Hit(init, i, a) {
        assert Hit(pages, i, a);
      }
      if !AtMostOneHit(init) {
        var i, a, j, b :| Hit(init, i, a) && Hit(init, j, b) && !(i == j && a == b);
        assert Hit(pages, i, a) && Hit(pages, j, b);
      }
    }
  }

  // The answered pages of a chain: all of them, or all but the last.
  lemma AnsweredHits(pages: seq<Reply<Page<string>>>)
    requires Chain(pages)
    ensures Conflict(pages) <==> !AtMostOneHit(pages)
    ensures ReadToEnd(pages) ==> (Listing(pages) == Answered([]) <==> NoHit(pages))
  {
    var k := if ReadToEnd(pages) then |pages| else |pages| - 1;
    var answered := pages[..k];
    CountHits(answered);
    assert forall i, a :: Hit(pages, i, a) <==> Hit(answered, i, a);
    assert AnsweredBefore(pages, k);
    if |AllItems(answered)| <= 1 {
      NoConflict(pages, k);
    } else {
      assert ConflictBy(pages, k);
    }
    if k == |pages| {
      assert answered == pages;
    }
  }

  // ---------- The task scan ----------

  // A task whose notes contain the marker, by page and place, and, in a list with an ID, by list.
  ghost predicate TaskHit(pages: seq<Reply<Page<Task>>>, marker: string, i: int, a: int) {
    Hit(pages, i, a) && Contains(pages[i].value.items[a].notes, marker)
  }

  ghost predicate MarkedIn(lists: seq<ScannedList>, marker: string, l: int, i: int, a: int) {
    0 <= l < |lists| && Usable(lists[l].list.id) && TaskHit(lists[l].tasks, marker, i, a)
  }

  ghost predicate OnlyMarked(lists: seq<ScannedList>, marker: string, l: int, i: int, a: int) {
    && MarkedIn(lists, marker, l, i, a)
    && forall l', i', a' :: MarkedIn(lists, marker, l', i', a') ==> l == l' && i == i' && a == a'
  }

  ghost predicate MarkedAt(tasks: seq<Task>, marker: string, a: int) {
    0 <= a < |tasks| && Contains(tasks[a].notes, marker)
  }

  lemma {:induction false} CountMatching(tasks: seq<Task>, marker: string)
    ensures Matching(tasks, marker) == [] <==> forall a :: !MarkedAt(tasks, marker, a)
    ensures |Matching(tasks, marker)| <= 1 <==>
            forall a, b :: MarkedAt(tasks, marker, a) && MarkedAt(tasks, marker, b) ==> a == b
    ensures forall a :: MarkedAt(tasks, marker, a) ==> tasks[a] in Matching(tasks, marker)
  {
    hide Contains;
    if tasks != [] {
      var n := |tasks| - 1;
      var init := tasks[..n];
      CountMatching(init, marker);
      assert forall a :: a != n ==> (MarkedAt(tasks, marker, a) <==> MarkedAt(init, marker, a));
      assert forall a :: MarkedAt(init, marker, a) ==> init[a] == tasks[a];
      if Contains(tasks[n].notes, marker) {
        assert MarkedAt(tasks, marker, n);
      }
    }
  }

  lemma {:induction false} MatchingAppends(s: seq<Task>, t: seq<Task>, marker: string)
    ensures Matching(s + t, marker) == Matching(s, marker) + Matching(t, marker)
  {
    hide Contains;
    if t == [] {
      assert s + t == s;
    } else {
      MatchingAppends(s, t[..|t| - 1], marker);
      assert (s + t)[..|s + t| - 1] == s + t[..|t| - 1];
    }
  }

  lemma {:induction false} CountMarked(pages: seq<Reply<Page<Task>>>, marker: string)
    requires forall p <- pages :: p.Answered?
    ensures var found := Matching(AllItems(pages), marker);
            && (found == [] <==> forall i, a :: !TaskHit(pages, marker, i, a))
            && (|found| <= 1 <==>
                  forall i, a, j, b ::
                    TaskHit(pages, marker, i, a) && TaskHit(pages, marker, j, b) ==> i == j && a == b)
            && forall i, a :: TaskHit(pages, marker, i, a) ==> pages[i].value.items[a] in found
  {
    hide Contains, Matching;
    if pages == [] {
      CountMatching([], marker);
    } else {
      var n := |pages| - 1;
      var init, last := pages[..n], pages[n].value.items;
      CountMarked(init, marker);
      CountMatching(last, marker);
      MatchingAppends(AllItems(init), last, marker);
      assert forall i, a :: i != n ==> (TaskHit(pages, marker, i, a) <==> TaskHit(init, marker, i, a));
      assert forall i, a :: TaskHit(init, marker, i, a) ==> init[i] == pages[i];
      assert forall a :: TaskHit(pages, marker, n, a) <==> MarkedAt(last, marker, a);
    }
  }

  // Every list with an ID was read to its end.
  ghost predicate AllRead(lists: seq<ScannedList>)
    requires forall l <- lists :: Chain(l.tasks)
  {
    forall l <- lists :: Usable(l.list.id) ==> ReadToEnd(l.tasks)
  }

  lemma {:induction false} CountScan(lists: seq<ScannedList>, marker: string)
    requires forall l <- lists :: Chain(l.tasks)
    ensures ScanLists(lists, marker).Answered? <==> AllRead(lists)
    ensures AllRead(lists) ==>
              var found := ScanLists(lists, marker).value;
              && (found == [] <==> forall l, i, a :: !MarkedIn(lists, marker, l, i, a))
              && (|found| <= 1 <==> forall l, i, a, k, j, b ::
                    MarkedIn(lists, marker, l, i, a) && MarkedIn(lists, marker, k, j, b) ==> l == k && i == j && a == b)
              && forall l, i, a :: MarkedIn(lists, marker, l, i, a) ==> lists[l].tasks[i].value.items[a] in found
  {
    hide Matching, TaskHit, Chain, ReadToEnd;
    if lists != [] {
      var n := |lists| - 1;
      var init, last := lists[..n], lists[n];
      CountScan(init, marker);
      assert AllRead(lists) <==> AllRead(init) && (Usable(last.list.id) ==> ReadToEnd(last.tasks));
      assert forall l, i, a :: l != n ==> (MarkedIn(lists, marker, l, i, a) <==> MarkedIn(init, marker, l, i, a));
      assert forall l, i, a :: MarkedIn(init, marker, l, i, a) ==> init[l] == lists[l];
      ChainIsRead(last.tasks);
      if AllRead(lists) && Usable(last.list.id) {
        CountMarked(last.tasks, marker);
        assert forall i, a :: MarkedIn(lists, marker, n, i, a) <==> TaskHit(last.tasks, marker, i, a);
      }
    }
  }

  lemma ChainIsRead(pages: seq<Reply<Page<Task>>>)
    requires Chain(pages)
    ensures ReadToEnd(pages) <==> Listing(pages).Answered?
    ensures ReadToEnd(pages) ==> (forall p <- pages :: p.Answered?) && Listing(pages) == Answered(AllItems(pages))
  {
  }

  // ---------- Lookups ----------

  // The call that decides the lookup of a mail: the page the search ended in, or the fetch of the
  // single match.
  ghost predicate Absence(pages: seq<Reply<Page<string>>>, found: Reply<Message>)
    requires Chain(pages)
  {
    if !ReadToEnd(pages) then pages[|pages| - 1] == Rejected(Some(404))
    else NoHit(pages) || found == Rejected(Some(404))
  }

  // The provider said that there is no such mail or event.
  ghost predicate Absent(kind: Kind, e: Evidence)
    requires Fits(kind, e)
  {
    match e
    case NoService => false
    case MailEvidence(pages, found) => AtMostOneHit(pages) && Absence(pages, found)
    case EventEvidence(event) => event == Rejected(Some(404))
    case TaskEvidence(_) => false
  }

  // A single match was found and fetched.
  ghost predicate Fetched(pages: seq<Reply<Page<string>>>, found: Reply<Message>)
    requires Chain(pages)
  {
    ReadToEnd(pages) && AtMostOneHit(pages) && !NoHit(pages) && found.Answered?
  }

  predicate OwnEvent(event: Option<Event>, commandKey: string) {
    event.Some? && event.value.idMatches && event.value.marker == Some(commandKey)
  }

  ghost predicate ScannedAll(scan: Reply<seq<ScannedList>>)
    requires scan.Answered? ==> forall l <- scan.value :: Chain(l.tasks)
  {
    scan.Answered? && AllRead(scan.value)
  }

  // The provider showed the command's own artifact, with this ID.
  ghost predicate Present(kind: Kind, payload: Payload, commandKey: string, e: Evidence, id: string)
    requires Fits(kind, e)
  {
    match e
    case NoService => false
    case MailEvidence(pages, found) =>
      Fetched(pages, found) && Bears(kind, payload, found.value, commandKey) && id == found.value.id
    case EventEvidence(event) =>
      event.Answered? && OwnEvent(event.value, commandKey) && id == event.value.value.id
    case TaskEvidence(scan) =>
      && ScannedAll(scan)
      && exists l, i, a :: OnlyMarked(scan.value, TaskMarker(commandKey), l, i, a)
                           && id == scan.value[l].tasks[i].value.items[a].id
  }

  lemma MailLookup(kind: Kind, payload: Payload, commandKey: string, pages: seq<Reply<Page<string>>>,
                   found: Reply<Message>)
    requires Chain(pages) && !kind.CreateTask?
    ensures var v := GmailVerdict(kind, payload, commandKey, pages, found);
            && (v.NotFound? <==> AtMostOneHit(pages) && Absence(pages, found))
            && (v.Found? <==> Fetched(pages, found) && Bears(kind, payload, found.value, commandKey))
            && (v.Found? ==> v.externalId == found.value.id)
            && (v == StillUnknown(MarkerConflict) <==> !AtMostOneHit(pages))
  {
    hide Bears, Chain, Conflict, AtMostOneHit, NoHit;
    AnsweredHits(pages);
  }

  // A lookup declares a mail or an event absent exactly when the search was answered without a
  // match, or the provider answered 404; an outage or another rejection never does, and no task is
  // ever declared absent.
  lemma NotFoundIff(kind: Kind, canonical: Option<Payload>, commandKey: string, e: Evidence)
    requires Fits(kind, e)
    ensures Reconcile(kind, canonical, commandKey, e).NotFound? <==> canonical.Some? && Absent(kind, e)
  {
    if canonical.Some? {
      match e
      case NoService =>
      case MailEvidence(pages, found) => MailLookup(kind, canonical.value, commandKey, pages, found);
      case EventEvidence(_) =>
      case TaskEvidence(_) =>
    }
  }

  // It declares an artifact found exactly when the provider showed a single one that is the
  // command's own, and answers its ID.
  lemma FoundIff(kind: Kind, canonical: Option<Payload>, commandKey: string, e: Evidence, id: string)
    requires Fits(kind, e)
    ensures Reconcile(kind, canonical, commandKey, e) == Found(id) <==>
            canonical.Some? && Present(kind, canonical.value, commandKey, e, id)
  {
    if canonical.Some? {
      match e
      case NoService =>
      case MailEvidence(pages, found) => MailLookup(kind, canonical.value, commandKey, pages, found);
      case EventEvidence(_) =>
      case TaskEvidence(scan) => TaskFound(scan, commandKey, id);
    }
  }

  lemma TaskFound(scan: Reply<seq<ScannedList>>, commandKey: string, id: string)
    requires scan.Answered? ==> forall l <- scan.value :: Chain(l.tasks)
    ensures TaskVerdict(Scanned(scan, commandKey)) == Found(id) <==>
            && ScannedAll(scan)
            && exists l, i, a :: OnlyMarked(scan.value, TaskMarker(commandKey), l, i, a)
                                 && id == scan.value[l].tasks[i].value.items[a].id
  {
    hide TaskMarker, ScanLists, AllRead, MarkedIn, Chain;
    if scan.Answered? {
      var lists, marker := scan.value, TaskMarker(commandKey);
      CountScan(lists, marker);
      if ScanLists(lists, marker).Answered? && |ScanLists(lists, marker).value| == 1 {
        var l, i, a :| MarkedIn(lists, marker, l, i, a);
        assert OnlyMarked(lists, marker, l, i, a);
      }
    }
  }

  // ---------- Executions ----------

  ghost predicate TitledAt(lists: seq<TaskList>, a: int) {
    0 <= a < |lists| && lists[a].title == "Executive Agent Tasks"
  }

  // A task list of the reserved title, by page and place.
  ghost predicate TitledHit(pages: seq<Reply<Page<TaskList>>>, i: int, a: int) {
    Hit(pages, i, a) && pages[i].value.items[a].title == "Executive Agent Tasks"
  }

  lemma {:induction false} CountTitled(lists: seq<TaskList>)
    ensures var titled := Titled(lists, TASK_LIST_TITLE);
            && (titled == [] <==> forall a :: !TitledAt(lists, a))
            && (|titled| <= 1 <==> forall a, b :: TitledAt(lists, a) && TitledAt(lists, b) ==> a == b)
            && forall a :: TitledAt(lists, a) ==> lists[a] in titled
  {
    if lists != [] {
      var n := |lists| - 1;
      var init := lists[..n];
      CountTitled(init);
      assert forall a :: a != n ==> (TitledAt(lists, a) <==> TitledAt(init, a));
      assert forall a :: TitledAt(init, a) ==> init[a] == lists[a];
      if lists[n].title == TASK_LIST_TITLE {
        assert TitledAt(lists, n);
      }
    }
  }

  lemma {:induction false} TitledAppends(s: seq<TaskList>, t: seq<TaskList>)
    ensures Titled(s + t, TASK_LIST_TITLE) == Titled(s, TASK_LIST_TITLE) + Titled(t, TASK_LIST_TITLE)
  {
    if t == [] {
      assert s + t == s;
    } else {
      TitledAppends(s, t[..|t| - 1]);
      assert (s + t)[..|s + t| - 1] == s + t[..|t| - 1];
    }
  }

  lemma {:induction false} CountTitledHits(pages: seq<Reply<Page<TaskList>>>)
    requires forall p <- pages :: p.Answered?
    ensures var titled := Titled(AllItems(pages), TASK_LIST_TITLE);
            && (titled == [] <==> forall i, a :: !TitledHit(pages, i, a))
            && (|titled| <= 1 <==>
                  forall i, a, j, b :: TitledHit(pages, i, a) && TitledHit(pages, j, b) ==> i == j && a == b)
            && forall i, a :: TitledHit(pages, i, a) ==> pages[i].value.items[a] in titled
  {
    hide Titled;
    if pages == [] {
      CountTitled([]);
    } else {
      var n := |pages| - 1;
      var init, last := pages[..n], pages[n].value.items;
      CountTitledHits(init);
      CountTitled(last);
      TitledAppends(AllItems(init), last);
      assert forall i, a :: i != n ==> (TitledHit(pages, i, a) <==> TitledHit(init, i, a));
      assert forall i, a :: TitledHit(init, i, a) ==> init[i] == pages[i];
      assert forall a :: TitledHit(pages, n, a) <==> TitledAt(last, a);
    }
  }

  ghost predicate NoneTitled(pages: seq<Reply<Page<TaskList>>>) {
    forall i, a :: !TitledHit(pages, i, a)
  }

  // A list of the reserved title, and the only one.
  ghost predicate OnlyTitled(pages: seq<Reply<Page<TaskList>>>, list: TaskList) {
    && (exists i, a :: TitledHit(pages, i, a) && pages[i].value.items[a] == list)
    && forall i, a, j, b :: TitledHit(pages, i, a) && TitledHit(pages, j, b) ==> i == j && a == b
  }

  lemma DestinationIs(pages: seq<Reply<Page<TaskList>>>)
    requires Chain(pages)
    ensures Listing(pages).Answered? <==> ReadToEnd(pages)
    ensures ReadToEnd(pages) ==>
              var d := DestinationOf(Listing(pages).value);
              && (d.New? <==> NoneTitled(pages))
              && (d.Undecided? <==> !NoneTitled(pages) && !exists list :: OnlyTitled(pages, list))
              && forall list :: d == Existing(list) <==> OnlyTitled(pages, list)
  {
    if ReadToEnd(pages) {
      assert forall p <- pages :: p.Answered?;
      hide Titled, Chain;
      CountTitledHits(pages);
      var titled := Titled(AllItems(pages), TASK_LIST_TITLE);
      if |titled| == 1 {
        var i, a :| TitledHit(pages, i, a);
        assert OnlyTitled(pages, titled[0]);
      }
    }
  }

  // The task goes to the only list of that title, or to the list just created as there was none.
  ghost predicate GoesTo(world: World, id: string)
    requires Chain(world.lists)
  {
    && ReadToEnd(world.lists) && id != ""
    && if NoneTitled(world.lists) then world.insertList == Answered(Some(id))
       else exists list :: OnlyTitled(world.lists, list) && list.id == Some(id)
  }

  // The marked call that the execution makes.
  ghost predicate Sends(kind: Kind, canonical: bool, available: bool, world: World, call: Call)
    requires Chain(world.lists)
  {
    && canonical && available
    && match kind
       case SendEmail => !world.buildFails && call == SendMessage
       case SendReply => !world.buildFails && call == SendMessage
       case CreateEvent => !world.buildFails && call == InsertEvent
       case CreateTask => call.InsertTask? && GoesTo(world, call.list)
  }

  // Nothing marked was sent, and the handler knows it.
  ghost predicate RefusedBefore(kind: Kind, canonical: bool, available: bool, world: World)
    requires Chain(world.lists)
  {
    || !canonical || !available
    || (kind.CreateTask? &&
          if !ReadToEnd(world.lists) then world.lists[|world.lists| - 1].Rejected?
          else if NoneTitled(world.lists) then world.insertList.Rejected?
          else forall list :: OnlyTitled(world.lists, list) ==> !Usable(list.id))
  }

  lemma TaskCalls(world: World, call: Call)
    requires Chain(world.lists)
    ensures Marked(call) && call in ExecuteTask(world).1 <==> call.InsertTask? && GoesTo(world, call.list)
    ensures InsertTaskList in ExecuteTask(world).1 <==> ReadToEnd(world.lists) && NoneTitled(world.lists)
  {
    hide DestinationOf, Listing, OnlyTitled, NoneTitled, Chain, ReadToEnd;
    DestinationIs(world.lists);
  }

  // The marked calls are the kind's own, each for the canonical payload of a reachable provider: a
  // message for mails, an event for events, and a task in its list for tasks.
  lemma MarkedCallIs(kind: Kind, canonical: bool, available: bool, world: World, call: Call)
    requires Chain(world.lists)
    ensures var calls := Execute(kind, canonical, available, world).1;
            && (Marked(call) && call in calls <==> Sends(kind, canonical, available, world, call))
            && (InsertTaskList in calls <==>
                  canonical && available && kind.CreateTask? && ReadToEnd(world.lists) && NoneTitled(world.lists))
  {
    hide ExecuteTask, GoesTo;
    TaskCalls(world, call);
  }

  ghost predicate SendsAny(kind: Kind, canonical: bool, available: bool, world: World)
    requires Chain(world.lists)
  {
    exists call :: Sends(kind, canonical, available, world, call)
  }

  lemma TaskOutcome(world: World, id: string)
    requires Chain(world.lists)
    ensures var outcome := ExecuteTask(world).0;
            && (outcome == Done(id) <==>
                  (exists list :: GoesTo(world, list)) && world.write == Answered(Some(id)) && id != "")
            && (outcome.ConfirmedFailure? <==>
                  if exists list :: GoesTo(world, list) then world.write.Rejected?
                  else RefusedBefore(CreateTask, true, true, world))
            && !outcome.Interrupted?
  {
    hide DestinationOf, Listing, OnlyTitled, NoneTitled, Chain, ReadToEnd;
    DestinationIs(world.lists);
    ListingFailure(world.lists);
    var answered := world.insertList;
    if answered.Answered? && answered.value.Some? {
      assert GoesTo(world, answered.value.value) || !GoesTo(world, answered.value.value);
    }
    if Listing(world.lists).Answered? {
      var d := DestinationOf(Listing(world.lists).value);
      if d.Existing? {
        assert OnlyTitled(world.lists, d.list);
        if Usable(d.list.id) {
          assert GoesTo(world, d.list.id.value);
        }
      }
    }
  }

  lemma ListingFailure(pages: seq<Reply<Page<TaskList>>>)
    requires Chain(pages)
    ensures Listing(pages).Rejected? <==> pages[|pages| - 1].Rejected?
  {
  }

  // A success is an answer with an ID to the marked call; a confirmed failure is a rejection of that
  // call, except a Calendar conflict, or a refusal before it.  All else is ambiguous, but for a
  // request that could not be composed.
  lemma OutcomeIs(kind: Kind, canonical: bool, available: bool, world: World, id: string)
    requires Chain(world.lists)
    ensures var outcome := Execute(kind, canonical, available, world).0;
            && (outcome == Done(id) <==>
                  && SendsAny(kind, canonical, available, world)
                  && world.write == Answered(Some(id)) && id != "")
            && (outcome.ConfirmedFailure? <==>
                  if SendsAny(kind, canonical, available, world)
                  then world.write.Rejected? && !(kind.CreateEvent? && world.write.status == Some(409))
                  else RefusedBefore(kind, canonical, available, world))
            && (outcome.Interrupted? <==> canonical && available && !kind.CreateTask? && world.buildFails)
  {
    hide ExecuteTask, GoesTo;
    TaskOutcome(world, id);
    var call := if kind.CreateEvent? then InsertEvent else SendMessage;
    assert !kind.CreateTask? ==>
        (SendsAny(kind, canonical, available, world) <==> Sends(kind, canonical, available, world, call));
    if kind.CreateTask? && canonical && available {
      if list :| GoesTo(world, list) {
        assert Sends(kind, canonical, available, world, InsertTask(list));
      }
    }
  }
}
