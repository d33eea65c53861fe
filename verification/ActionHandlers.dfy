// Provider dispatch and reconciliation of approved actions (server/services/action_handlers.py).
//
// The provider's answers are inputs; the calls a handler makes are recorded in a trace.

module ActionHandlers {
  import opened Common
  import opened ActionPayloads

  // One finished provider call: an answer, a rejection (GoogleOperationRejected), or any other
  // GoogleProviderError, after which nothing is known.
  datatype Reply<+T> = Answered(value: T) | Rejected(status: Option<int>) | Unclear

  datatype Page<+T> = Page(items: seq<T>, more: bool)

  // `id` is None where the answer has no usable ID.
  datatype TaskList = TaskList(id: Option<string>, title: string)
  datatype Task = Task(id: string, notes: string)

  datatype Code =
    | PayloadInvalid | UnavailableBeforeDispatch | ProviderRejected(status: Option<int>) | TaskListAmbiguous
    | TaskListNotConfirmed | Unconfirmed | TaskListUnconfirmed | CalendarIdConflict | ProviderOutcomeUnknown
    | ProviderNotFound | LookupUnavailable | LookupRejected | MarkerConflict | MarkerMismatch | MarkerNotUnique
    | MarkerNotFound | ExecutionInterrupted | ProcessingLeaseExpired | PayloadIntegrityMismatch
    | CredentialsUnavailableBeforeDispatch | SweptAfterExpiry

  // How `execute_action` ends: a return value, ConfirmedActionFailure, AmbiguousActionOutcome, or
  // any other exception.
  datatype Outcome = Done(externalId: string) | ConfirmedFailure(code: Code) | Ambiguous(code: Code) | Interrupted

  datatype Call = SendMessage | InsertEvent | ListTaskLists | InsertTaskList | InsertTask(list: string)

  // The calls that carry the command's marker to the provider.
  predicate Marked(c: Call) {
    c.SendMessage? || c.InsertEvent? || c.InsertTask?
  }

  function MarkedCount(calls: seq<Call>): nat {
    if calls == [] then 0 else (if Marked(calls[|calls| - 1]) then 1 else 0) + MarkedCount(calls[..|calls| - 1])
  }

  // What the provider answers to each call the handler may make.
  datatype World = World(
    buildFails: bool,                            // composing the request raises
    write: Reply<Option<string>>,                // messages.send, events.insert, tasks.insert
    lists: seq<Reply<Page<TaskList>>>,           // tasklists.list, page by page
    insertList: Reply<Option<string>>)           // tasklists.insert

  const TASK_LIST_TITLE := "Executive Agent Tasks"

  // ---------- Paging ----------

  // A chain of pages: only its last element is a failure or has no next page.
  predicate Chain<T>(pages: seq<Reply<Page<T>>>) {
    && |pages| > 0
    && (forall i :: 0 <= i < |pages| - 1 ==> pages[i].Answered? && pages[i].value.more)
    && (pages[|pages| - 1].Answered? ==> !pages[|pages| - 1].value.more)
  }

  function AllItems<T>(pages: seq<Reply<Page<T>>>): seq<T>
    requires forall p <- pages :: p.Answered?
  {
    if pages == [] then [] else AllItems(pages[..|pages| - 1]) + pages[|pages| - 1].value.items
  }

  // Everything the chain lists, or the failure it ends in.
  function Listing<T>(pages: seq<Reply<Page<T>>>): Reply<seq<T>>
    requires Chain(pages)
  {
    match pages[|pages| - 1]
    case Rejected(status) => Rejected(status)
    case Unclear => Unclear
    case Answered(_) =>
      assert forall p <- pages :: p.Answered?;
      Answered(AllItems(pages))
  }

  // `_list_all_tasklists_sync`, `_list_all_tasks_sync`
  method ListAll<T>(pages: seq<Reply<Page<T>>>) returns (r: Reply<seq<T>>)
    requires Chain(pages)
    ensures r == Listing(pages)
  {
    var items: seq<T> := [];
    var i := 0;
    while true
      invariant 0 <= i < |pages|
      invariant forall p <- pages[..i] :: p.Answered?
      invariant items == AllItems(pages[..i])
      decreases |pages| - i
    {
      var response := pages[i];
      if response.Rejected? {
        return Rejected(response.status);
      }
      if response.Unclear? {
        return Unclear;
      }
      items := items + response.value.items;
      i := i + 1;
      assert pages[..i][..i - 1] == pages[..i - 1];
      if !response.value.more {
        assert pages[..i] == pages;
        return Answered(items);
      }
    }
  }

  // ---------- Dispatch ----------

  function Titled(lists: seq<TaskList>, title: string): seq<TaskList> {
    if lists == [] then []
    else
      var last := lists[|lists| - 1];
      Titled(lists[..|lists| - 1], title) + (if last.title == title then [last] else [])
  }

  // The outcome of the marked write.
  function WriteOutcome(kind: Kind, reply: Reply<Option<string>>): Outcome {
    match reply
    case Answered(None) => Ambiguous(Unconfirmed)
    case Answered(Some(id)) => if id == "" then Ambiguous(Unconfirmed) else Done(id)
    case Rejected(status) =>
      if kind.CreateEvent? && status == Some(409) then Ambiguous(CalendarIdConflict)
      else ConfirmedFailure(ProviderRejected(status))
    case Unclear => Ambiguous(ProviderOutcomeUnknown)
  }

  // The task list a task goes to: the single list of that title, or a new one.
  datatype Destination = Existing(list: TaskList) | New | Undecided

  function DestinationOf(lists: seq<TaskList>): Destination {
    var matching := Titled(lists, TASK_LIST_TITLE);
    if |matching| > 1 then Undecided else if |matching| == 1 then Existing(matching[0]) else New
  }

  predicate Usable(id: Option<string>) {
    id.Some? && id.value != ""
  }

  // `execute_action` and the calls it makes.
  function Execute(kind: Kind, canonical: bool, available: bool, world: World): (Outcome, seq<Call>)
    requires Chain(world.lists)
  {
    if !canonical then (ConfirmedFailure(PayloadInvalid), [])
    else if !available then (ConfirmedFailure(UnavailableBeforeDispatch), [])
    else if kind.CreateTask? then ExecuteTask(world)
    else if world.buildFails then (Interrupted, [])
    else (WriteOutcome(kind, world.write), [if kind.CreateEvent? then InsertEvent else SendMessage])
  }

  function ExecuteTask(world: World): (Outcome, seq<Call>)
    requires Chain(world.lists)
  {
    var listed := seq(|world.lists|, _ => ListTaskLists);
    match Listing(world.lists)
    case Rejected(status) => (ConfirmedFailure(ProviderRejected(status)), listed)
    case Unclear => (Ambiguous(ProviderOutcomeUnknown), listed)
    case Answered(lists) =>
      match DestinationOf(lists)
      case Undecided => (ConfirmedFailure(TaskListAmbiguous), listed)
      case Existing(list) =>
        if !Usable(list.id) then (ConfirmedFailure(TaskListNotConfirmed), listed)
        else (WriteOutcome(CreateTask, world.write), listed + [InsertTask(list.id.value)])
      case New =>
        var created := listed + [InsertTaskList];
        match world.insertList
        case Rejected(status) => (ConfirmedFailure(ProviderRejected(status)), created)
        case Unclear => (Ambiguous(ProviderOutcomeUnknown), created)
        case Answered(id) =>
          if !Usable(id) then (Ambiguous(TaskListUnconfirmed), created)
          else (WriteOutcome(CreateTask, world.write), created + [InsertTask(id.value)])
  }

  method CreateTaskSync(world: World) returns (outcome: Outcome, calls: seq<Call>)
    requires Chain(world.lists)
    ensures (outcome, calls) == ExecuteTask(world)
  {
    calls := seq(|world.lists|, _ => ListTaskLists);
    var listing := ListAll(world.lists);
    if listing.Rejected? {
      return ConfirmedFailure(ProviderRejected(listing.status)), calls;
    }
    if listing.Unclear? {
      return Ambiguous(ProviderOutcomeUnknown), calls;
    }
    var tasklists := listing.value;
    var matching: seq<TaskList> := [];
    var i := 0;
    while i < |tasklists|
      invariant 0 <= i <= |tasklists|
      invariant matching == Titled(tasklists[..i], TASK_LIST_TITLE)
    {
      assert tasklists[..i + 1][..i] == tasklists[..i];
      if tasklists[i].title == TASK_LIST_TITLE {
        matching := matching + [tasklists[i]];
      }
      i := i + 1;
    }
    assert tasklists[..i] == tasklists;
    if |matching| > 1 {
      return ConfirmedFailure(TaskListAmbiguous), calls;
    }
    var createdTaskList := matching == [];
    var taskListId: Option<string> := None;
    if createdTaskList {
      calls := calls + [InsertTaskList];
      if world.insertList.Rejected? {
        return ConfirmedFailure(ProviderRejected(world.insertList.status)), calls;
      }
      if world.insertList.Unclear? {
        return Ambiguous(ProviderOutcomeUnknown), calls;
      }
      taskListId := world.insertList.value;
    } else {
      taskListId := matching[0].id;
    }
    if !Usable(taskListId) {
      if createdTaskList {
        return Ambiguous(TaskListUnconfirmed), calls;
      }
      return ConfirmedFailure(TaskListNotConfirmed), calls;
    }
    calls := calls + [InsertTask(taskListId.value)];
    if world.write.Answered? {
      if !Usable(world.write.value) {
        return Ambiguous(Unconfirmed), calls;
      }
      return Done(world.write.value.value), calls;
    }
    if world.write.Rejected? {
      return ConfirmedFailure(ProviderRejected(world.write.status)), calls;
    }
    return Ambiguous(ProviderOutcomeUnknown), calls;
  }

  method ExecuteAction(lib: Library, kind: Kind, payload: Payload, available: bool, world: World)
    returns (outcome: Outcome, calls: seq<Call>)
    requires Chain(world.lists)
    ensures (outcome, calls) == Execute(kind, Canonicalize(lib, kind, payload).Some?, available, world)
  {
    calls := [];
    if Canonicalize(lib, kind, payload).None? {
      return ConfirmedFailure(PayloadInvalid), calls;
    }
    if !available {
      return ConfirmedFailure(UnavailableBeforeDispatch), calls;
    }
    if kind.CreateTask? {
      outcome, calls := CreateTaskSync(world);
      return;
    }
    if world.buildFails {
      return Interrupted, calls;
    }
    calls := [if kind.CreateEvent? then InsertEvent else SendMessage];
    if world.write.Answered? {
      if !Usable(world.write.value) {
        return Ambiguous(Unconfirmed), calls;
      }
      return Done(world.write.value.value), calls;
    }
    if world.write.Rejected? {
      // The deterministic event ID may already exist: reconcile instead of declaring failure.
      if kind.CreateEvent? && world.write.status == Some(409) {
        return Ambiguous(CalendarIdConflict), calls;
      }
      return ConfirmedFailure(ProviderRejected(world.write.status)), calls;
    }
    return Ambiguous(ProviderOutcomeUnknown), calls;
  }

  // ---------- What the outcomes mean ----------

  // The provider's promise about the marked write, `accepted` telling whether it took effect: an
  // answer with an ID means it did; a rejection means it did not, except a Calendar conflict, which
  // says that an event with this ID exists.  Without a marked call there is no effect.
  predicate Honest(kind: Kind, calls: seq<Call>, world: World, accepted: bool) {
    if MarkedCount(calls) == 0 then !accepted
    else
      && (world.write.Answered? && Usable(world.write.value) ==> accepted)
      && (world.write.Rejected? && !(kind.CreateEvent? && world.write.status == Some(409)) ==> !accepted)
  }

  // At most one call is marked, and it is the last.
  predicate AtMostOneWrite(calls: seq<Call>) {
    && MarkedCount(calls) <= 1
    && (forall i :: 0 <= i < |calls| && Marked(calls[i]) ==> i == |calls| - 1)
    && (MarkedCount(calls) == 1 <==> calls != [] && Marked(calls[|calls| - 1]))
  }

  lemma {:induction false} Unmarked(calls: seq<Call>)
    requires forall c <- calls :: !Marked(c)
    ensures MarkedCount(calls) == 0 && AtMostOneWrite(calls)
  {
    if calls != [] {
      assert calls[|calls| - 1] in calls;
      Unmarked(calls[..|calls| - 1]);
    }
  }

  lemma Appended(calls: seq<Call>, last: Call)
    requires forall c <- calls :: !Marked(c)
    ensures AtMostOneWrite(calls + [last])
  {
    Unmarked(calls);
    assert (calls + [last])[..|calls|] == calls;
  }

  lemma OneMarkedWrite(kind: Kind, canonical: bool, available: bool, world: World)
    requires Chain(world.lists)
    ensures AtMostOneWrite(Execute(kind, canonical, available, world).1)
  {
    hide AtMostOneWrite, Listing, DestinationOf, WriteOutcome;
    var listed := seq(|world.lists|, _ => ListTaskLists);
    var created := listed + [InsertTaskList];
    Unmarked([]);
    Unmarked(listed);
    Unmarked(created);
    Appended([], InsertEvent);
    Appended([], SendMessage);
    assert [] + [InsertEvent] == [InsertEvent] && [] + [SendMessage] == [SendMessage];
    forall list: string ensures AtMostOneWrite(listed + [InsertTask(list)]) && AtMostOneWrite(created + [InsertTask(list)]) {
      Appended(listed, InsertTask(list));
      Appended(created, InsertTask(list));
    }
  }

  // A reported success is an accepted effect, and a confirmed failure is a dispatch that was not
  // accepted; everything else stays ambiguous.
  lemma VerdictsAreSound(kind: Kind, canonical: bool, available: bool, world: World, accepted: bool)
    requires Chain(world.lists)
    requires Honest(kind, Execute(kind, canonical, available, world).1, world, accepted)
    ensures Execute(kind, canonical, available, world).0.Done? ==> accepted
    ensures Execute(kind, canonical, available, world).0.ConfirmedFailure? ==> !accepted
  {
    OneMarkedWrite(kind, canonical, available, world);
  }

  // ---------- Reconciliation ----------

  datatype Verdict = Found(externalId: string) | NotFound | StillUnknown(code: Code)

  // The metadata of a message found by its Message-ID: its ID, its marker header, whether its
  // Message-ID is the command's, the folded addresses of its To header, and its thread.
  datatype Message = Message(id: string, marker: Option<string>, idMatches: bool, recipients: set<string>,
                             thread: string)

  function TextAt(p: Payload, field: Field): string {
    if field in p && p[field].Text? then p[field].text else ""
  }

  // The message is the one the command dispatches.
  predicate Bears(kind: Kind, payload: Payload, m: Message, commandKey: string) {
    && m.marker == Some(commandKey) && m.idMatches && TextAt(payload, RecipientEmail) in m.recipients
    && (kind.SendReply? ==> m.thread == TextAt(payload, ThreadId))
  }

  // A failed lookup call: only a 404 outside the task scan counts as absence.
  function LookupFailed<T>(kind: Kind, reply: Reply<T>): Verdict
    requires !reply.Answered?
  {
    match reply
    case Rejected(status) => if !kind.CreateTask? && status == Some(404) then NotFound else StillUnknown(LookupRejected)
    case Unclear => StillUnknown(LookupUnavailable)
  }

  predicate AnsweredBefore<T(==)>(pages: seq<Reply<Page<T>>>, n: nat)
    requires n <= |pages|
  {
    forall p <- pages[..n] :: p.Answered?
  }

  predicate ConflictBy(pages: seq<Reply<Page<string>>>, n: nat)
    requires n <= |pages| && AnsweredBefore(pages, n)
  {
    |AllItems(pages[..n])| > 1
  }

  // Some answered part of the chain already holds two matches.
  predicate Conflict(pages: seq<Reply<Page<string>>>) {
    exists n :: 0 <= n <= |pages| && AnsweredBefore(pages, n) && ConflictBy(pages, n)
  }

  // `_reconcile_gmail`: `found` is the answer to fetching the single match.
  function GmailVerdict(kind: Kind, payload: Payload, commandKey: string, pages: seq<Reply<Page<string>>>,
                        found: Reply<Message>): Verdict
    requires Chain(pages)
  {
    if Conflict(pages) then StillUnknown(MarkerConflict)
    else if !Listing(pages).Answered? then LookupFailed(kind, pages[|pages| - 1])
    else if Listing(pages).value == [] then NotFound
    else if !found.Answered? then LookupFailed(kind, found)
    else if Bears(kind, payload, found.value, commandKey) then Found(found.value.id)
    else StillUnknown(MarkerMismatch)
  }

  method ReconcileGmail(kind: Kind, payload: Payload, commandKey: string, pages: seq<Reply<Page<string>>>,
                        found: Reply<Message>)
    returns (verdict: Verdict)
    requires Chain(pages)
    ensures verdict == GmailVerdict(kind, payload, commandKey, pages, found)
  {
    var matches: seq<string> := [];
    var i := 0;
    while true
      invariant 0 <= i < |pages|
      invariant AnsweredBefore(pages, i) && matches == AllItems(pages[..i]) && |matches| <= 1
      decreases |pages| - i
    {
      var response := pages[i];
      if !response.Answered? {
        NoConflict(pages, i);
        return LookupFailed(kind, response);
      }
      matches := matches + response.value.items;
      i := i + 1;
      assert pages[..i][..i - 1] == pages[..i - 1];
      if |matches| > 1 {
        assert ConflictBy(pages, i);
        return StillUnknown(MarkerConflict);
      }
      if !response.value.more {
        NoConflict(pages, i);
        assert pages[..i] == pages;
        break;
      }
    }
    if matches == [] {
      return NotFound;
    }
    if !found.Answered? {
      return LookupFailed(kind, found);
    }
    if !Bears(kind, payload, found.value, commandKey) {
      return StillUnknown(MarkerMismatch);
    }
    return Found(found.value.id);
  }

  // Matches only accumulate: without a conflict after all answered pages there is none before.
  lemma {:induction false} FewerBefore(pages: seq<Reply<Page<string>>>, m: nat, n: nat)
    requires m <= n <= |pages| && AnsweredBefore(pages, n)
    ensures AnsweredBefore(pages, m) && |AllItems(pages[..m])| <= |AllItems(pages[..n])|
  {
    if m < n {
      assert pages[..n][..n - 1] == pages[..n - 1];
      FewerBefore(pages, m, n - 1);
    } else {
      assert AnsweredBefore(pages, m);
    }
  }

  lemma NoConflict(pages: seq<Reply<Page<string>>>, i: nat)
    requires Chain(pages) && i <= |pages| && AnsweredBefore(pages, i) && |AllItems(pages[..i])| <= 1
    requires i < |pages| ==> !pages[i].Answered?
    ensures !Conflict(pages)
  {
    forall n | 0 <= n <= |pages| && AnsweredBefore(pages, n) ensures !ConflictBy(pages, n) {
      if n <= i {
        FewerBefore(pages, n, i);
      }
    }
  }

  // A verdict of success rests on the single match, and it is the message this command dispatches.
  lemma FoundIsExact(kind: Kind, payload: Payload, commandKey: string, pages: seq<Reply<Page<string>>>,
                     found: Reply<Message>)
    requires Chain(pages) && GmailVerdict(kind, payload, commandKey, pages, found).Found?
    ensures Listing(pages).Answered? && |Listing(pages).value| == 1
    ensures found.Answered? && Bears(kind, payload, found.value, commandKey)
  {
    assert pages[..|pages|] == pages;
    assert Listing(pages).Answered? ==> AnsweredBefore(pages, |pages|);
    assert Listing(pages).Answered? ==> !ConflictBy(pages, |pages|);
  }

  // ---------- Task markers ----------

  predicate KeyChar(c: char) {
    IdChar(c)
  }

  // ^[A-Za-z0-9_-]{16,128}$
  predicate ValidCommandKey(key: string) {
    16 <= |key| <= 128 && forall i :: 0 <= i < |key| ==> KeyChar(key[i])
  }

  const MARKER_PREFIX := "[onebox-command-key:"

  function TaskMarker(key: string): string {
    MARKER_PREFIX + key + "]"
  }

  predicate At(s: string, t: string, i: nat) {
    i + |t| <= |s| && s[i..i + |t|] == t
  }

  // Python's `t in s`.
  predicate Contains(s: string, t: string) {
    exists i :: 0 <= i <= |s| - |t| && At(s, t, i)
  }

  function TaskNotes(notes: string, key: string): string {
    notes + "\n\n" + TaskMarker(key)
  }

  // A created task is found by the scan for its own key...
  lemma CreatedTaskIsFound(notes: string, key: string)
    ensures Contains(TaskNotes(notes, key), TaskMarker(key))
  {
    assert At(TaskNotes(notes, key), TaskMarker(key), |notes| + 2);
  }

  // ... and its marker is found by the scan for another key only if the approved notes already
  // contained that other marker.
  lemma MarkersDoNotClash(notes: string, key: string, other: string)
    requires ValidCommandKey(key) && ValidCommandKey(other)
    requires Contains(TaskNotes(notes, key), TaskMarker(other))
    ensures other == key || Contains(notes, TaskMarker(other))
  {
    var s, t := TaskNotes(notes, key), TaskMarker(other);
    var i :| 0 <= i <= |s| - |t| && At(s, t, i);
    var start := |notes| + 2;
    if i == start {
      SameStart(s, start, key, other);
    } else if i + |t| <= |notes| {
      assert notes[i..i + |t|] == s[i..i + |t|];
      assert At(notes, t, i);
    } else {
      NotAcross(notes, key, other, i);
    }
  }

  lemma BracketOnlyAtStart(key: string, j: nat)
    requires ValidCommandKey(key) && 0 < j < |TaskMarker(key)|
    ensures TaskMarker(key)[j] != '['
    ensures j < |TaskMarker(key)| - 1 ==> TaskMarker(key)[j] != ']'
    ensures TaskMarker(key)[j] != '\n'
  {
    if |MARKER_PREFIX| <= j < |MARKER_PREFIX| + |key| {
      assert TaskMarker(key)[j] == key[j - |MARKER_PREFIX|];
      assert KeyChar(key[j - |MARKER_PREFIX|]);
    }
  }

  // No marker straddles the line break or starts inside the appended marker.
  lemma NotAcross(notes: string, key: string, other: string, i: nat)
    requires ValidCommandKey(key) && ValidCommandKey(other)
    requires i != |notes| + 2 && |notes| < i + |TaskMarker(other)| <= |TaskNotes(notes, key)|
    ensures !At(TaskNotes(notes, key), TaskMarker(other), i)
  {
    var s, t := TaskNotes(notes, key), TaskMarker(other);
    var j := if i <= |notes| then |notes| - i else 0;
    assert s[|notes|] == '\n' && s[|notes| + 1] == '\n' && t[0] == '[';
    if i > |notes| + 2 {
      BracketOnlyAtStart(key, i - (|notes| + 2));
      assert s[i] == TaskMarker(key)[i - (|notes| + 2)];
    } else if j > 0 {
      BracketOnlyAtStart(other, j);
    }
    assert s[i + j] != t[j];
    assert s[i..i + |t|][j] == s[i + j];
  }

  lemma SameStart(s: string, start: nat, key: string, other: string)
    requires ValidCommandKey(key) && ValidCommandKey(other)
    requires start + |TaskMarker(key)| == |s| && s[start..] == TaskMarker(key)
    requires At(s, TaskMarker(other), start)
    ensures other == key
  {
    var a, b := TaskMarker(key), TaskMarker(other);
    assert b == s[start..start + |b|];
    assert forall j :: 0 <= j < |b| ==> b[j] == s[start..][j] == a[j];
    if |b| < |a| {
      BracketOnlyAtStart(key, |b| - 1);
    }
    assert key == a[|MARKER_PREFIX|..|a| - 1];
    assert other == b[|MARKER_PREFIX|..|b| - 1];
    assert a == b;
  }

  // ---------- The task scan ----------

  // One task list and the pages of its tasks.
  datatype ScannedList = ScannedList(list: TaskList, tasks: seq<Reply<Page<Task>>>)

  function Matching(tasks: seq<Task>, marker: string): seq<Task> {
    if tasks == [] then []
    else
      var last := tasks[|tasks| - 1];
      Matching(tasks[..|tasks| - 1], marker) + (if Contains(last.notes, marker) then [last] else [])
  }

  // The scan of every list with an ID, in order; it ends at the first failure.
  function ScanLists(lists: seq<ScannedList>, marker: string): Reply<seq<Task>>
    requires forall l <- lists :: Chain(l.tasks)
  {
    if lists == [] then Answered([])
    else
      var last := lists[|lists| - 1];
      var before := ScanLists(lists[..|lists| - 1], marker);
      if !before.Answered? || !Usable(last.list.id) then before
      else
        match Listing(last.tasks)
        case Answered(tasks) => Answered(before.value + Matching(tasks, marker))
        case Rejected(status) => Rejected(status)
        case Unclear => Unclear
  }

  method ScanTaskMarker(lists: seq<ScannedList>, marker: string) returns (r: Reply<seq<Task>>)
    requires forall l <- lists :: Chain(l.tasks)
    ensures r == ScanLists(lists, marker)
  {
    var matches: seq<Task> := [];
    var i := 0;
    while i < |lists|
      invariant 0 <= i <= |lists|
      invariant ScanLists(lists[..i], marker) == Answered(matches)
    {
      var taskList := lists[i];
      assert lists[..i + 1][..i] == lists[..i];
      i := i + 1;
      if !Usable(taskList.list.id) {
        continue;
      }
      var listing := ListAll(taskList.tasks);
      if !listing.Answered? {
        r := if listing.Rejected? then Rejected(listing.status) else Unclear;
        FailureSticks(lists, i, marker);
        return;
      }
      var found := FilterTasks(listing.value, marker);
      matches := matches + found;
    }
    assert lists[..i] == lists;
    return Answered(matches);
  }

  method FilterTasks(tasks: seq<Task>, marker: string) returns (found: seq<Task>)
    ensures found == Matching(tasks, marker)
  {
    found := [];
    var i := 0;
    while i < |tasks|
      invariant 0 <= i <= |tasks|
      invariant found == Matching(tasks[..i], marker)
    {
      assert tasks[..i + 1][..i] == tasks[..i];
      if Contains(tasks[i].notes, marker) {
        found := found + [tasks[i]];
      }
      i := i + 1;
    }
    assert tasks[..i] == tasks;
  }

  lemma {:induction false} FailureSticks(lists: seq<ScannedList>, i: nat, marker: string)
    requires i <= |lists| && (forall l <- lists :: Chain(l.tasks))
    requires !ScanLists(lists[..i], marker).Answered?
    ensures ScanLists(lists, marker) == ScanLists(lists[..i], marker)
  {
    if i < |lists| {
      assert lists[..|lists| - 1][..i] == lists[..i];
      FailureSticks(lists[..|lists| - 1], i, marker);
    } else {
      assert lists[..i] == lists;
    }
  }

  // `_reconcile_task`: absence may be delayed visibility, so only exact uniqueness decides.
  function TaskVerdict(scan: Reply<seq<Task>>): Verdict {
    if !scan.Answered? then LookupFailed(CreateTask, scan)
    else if |scan.value| == 1 then Found(scan.value[0].id)
    else StillUnknown(if scan.value == [] then MarkerNotFound else MarkerNotUnique)
  }

  // A Calendar event: whether its ID is the command's deterministic one, and its private marker.
  datatype Event = Event(id: string, idMatches: bool, marker: Option<string>)

  // `_reconcile_calendar`: the event fetched by its deterministic ID.
  function CalendarVerdict(event: Reply<Option<Event>>, commandKey: string): Verdict {
    if !event.Answered? then LookupFailed(CreateEvent, event)
    else if event.value.Some? && event.value.value.idMatches && event.value.value.marker == Some(commandKey)
    then Found(event.value.value.id)
    else StillUnknown(MarkerMismatch)
  }

  lemma {:induction false} MatchingBears(tasks: seq<Task>, marker: string)
    ensures forall t <- Matching(tasks, marker) :: t in tasks && Contains(t.notes, marker)
    ensures forall t <- tasks :: Contains(t.notes, marker) ==> t in Matching(tasks, marker)
  {
    if tasks != [] {
      MatchingBears(tasks[..|tasks| - 1], marker);
      assert tasks == tasks[..|tasks| - 1] + [tasks[|tasks| - 1]];
    }
  }

  // ---------- `reconcile_action` ----------

  // What the provider answers to a lookup; NoService when its client cannot be built.
  datatype Evidence =
    | NoService
    | MailEvidence(pages: seq<Reply<Page<string>>>, found: Reply<Message>)
    | EventEvidence(event: Reply<Option<Event>>)
    | TaskEvidence(scan: Reply<seq<ScannedList>>)

  predicate Fits(kind: Kind, e: Evidence) {
    match e
    case NoService => true
    case MailEvidence(pages, _) => (kind.SendEmail? || kind.SendReply?) && Chain(pages)
    case EventEvidence(_) => kind.CreateEvent?
    case TaskEvidence(scan) => kind.CreateTask? && (scan.Answered? ==> forall l <- scan.value :: Chain(l.tasks))
  }

  function Reconcile(kind: Kind, canonical: Option<Payload>, commandKey: string, e: Evidence): Verdict
    requires Fits(kind, e)
  {
    if canonical.None? then StillUnknown(PayloadInvalid)
    else
      match e
      case NoService => StillUnknown(LookupUnavailable)
      case MailEvidence(pages, found) => GmailVerdict(kind, canonical.value, commandKey, pages, found)
      case EventEvidence(event) => CalendarVerdict(event, commandKey)
      case TaskEvidence(scan) => TaskVerdict(Scanned(scan, commandKey))
  }

  // The tasks whose notes contain the marker, or the failure of the scan.
  function Scanned(scan: Reply<seq<ScannedList>>, commandKey: string): Reply<seq<Task>>
    requires scan.Answered? ==> forall l <- scan.value :: Chain(l.tasks)
  {
    match scan
    case Answered(lists) => ScanLists(lists, TaskMarker(commandKey))
    case Rejected(status) => Rejected(status)
    case Unclear => Unclear
  }

  method ReconcileAction(lib: Library, kind: Kind, payload: Payload, commandKey: string, e: Evidence)
    returns (verdict: Verdict)
    requires Fits(kind, e)
    ensures verdict == Reconcile(kind, Canonicalize(lib, kind, payload), commandKey, e)
  {
    var canonical := Canonicalize(lib, kind, payload);
    if canonical.None? {
      return StillUnknown(PayloadInvalid);
    }
    if e.NoService? {
      return StillUnknown(LookupUnavailable);
    }
    if kind.CreateEvent? {
      if !e.event.Answered? {
        return LookupFailed(kind, e.event);
      }
      if e.event.value.None? || !e.event.value.value.idMatches || e.event.value.value.marker != Some(commandKey) {
        return StillUnknown(MarkerMismatch);
      }
      return Found(e.event.value.value.id);
    }
    if kind.CreateTask? {
      if !e.scan.Answered? {
        return LookupFailed(kind, e.scan);
      }
      var matches := ScanTaskMarker(e.scan.value, TaskMarker(commandKey));
      if !matches.Answered? {
        return LookupFailed(kind, matches);
      }
      if |matches.value| != 1 {
        return StillUnknown(if matches.value == [] then MarkerNotFound else MarkerNotUnique);
      }
      return Found(matches.value[0].id);
    }
    verdict := ReconcileGmail(kind, canonical.value, commandKey, e.pages, e.found);
  }

  // The task was on an answered page of the scan.
  predicate Shows(lists: seq<ScannedList>, t: Task) {
    exists l <- lists :: InPages(l.tasks, t)
  }

  predicate InPages(pages: seq<Reply<Page<Task>>>, t: Task) {
    exists p <- pages :: p.Answered? && t in p.value.items
  }

  lemma {:induction false} ItemsAreInPages(pages: seq<Reply<Page<Task>>>)
    requires forall p <- pages :: p.Answered?
    ensures forall t <- AllItems(pages) :: InPages(pages, t)
  {
    if pages != [] {
      var init, last := pages[..|pages| - 1], pages[|pages| - 1];
      ItemsAreInPages(init);
      assert last in pages;
      forall t <- AllItems(pages) ensures InPages(pages, t) {
        if t in AllItems(init) {
          assert InPages(init, t);
        }
      }
    }
  }

  lemma {:induction false} ScanBears(lists: seq<ScannedList>, marker: string)
    requires forall l <- lists :: Chain(l.tasks)
    requires ScanLists(lists, marker).Answered?
    ensures forall t <- ScanLists(lists, marker).value :: Shows(lists, t) && Contains(t.notes, marker)
  {
    if lists != [] {
      var init, last := lists[..|lists| - 1], lists[|lists| - 1];
      ScanBears(init, marker);
      assert forall t: Task :: Shows(init, t) ==> Shows(lists, t);
      assert last in lists;
      if Usable(last.list.id) {
        MatchingBears(Listing(last.tasks).value, marker);
        assert forall p <- last.tasks :: p.Answered?;
        ItemsAreInPages(last.tasks);
        assert forall t: Task :: InPages(last.tasks, t) ==> Shows(lists, t);
      }
    }
  }

  // A verdict of success rests on something that carries the command's marker; on a message, that it
  // also has the payload's recipient and, for a reply, thread.
  lemma FoundCarriesMarker(kind: Kind, canonical: Option<Payload>, commandKey: string, e: Evidence)
    requires Fits(kind, e) && Reconcile(kind, canonical, commandKey, e).Found?
    ensures !e.NoService? && canonical.Some?
    ensures e.MailEvidence? ==> e.found.Answered? && Bears(kind, canonical.value, e.found.value, commandKey)
    ensures e.EventEvidence? ==>
              e.event.Answered? && e.event.value.Some? && e.event.value.value.marker == Some(commandKey)
    ensures e.TaskEvidence? ==>
              && e.scan.Answered?
              && exists t: Task :: Shows(e.scan.value, t) && Contains(t.notes, TaskMarker(commandKey))
  {
    match e
    case NoService =>
    case MailEvidence(pages, found) => FoundIsExact(kind, canonical.value, commandKey, pages, found);
    case EventEvidence(_) =>
    case TaskEvidence(scan) =>
      if scan.Answered? {
        hide Shows, Contains;
        ScanBears(scan.value, TaskMarker(commandKey));
        var found := ScanLists(scan.value, TaskMarker(commandKey)).value;
        assert found[0] in found;
      }
  }

  // The task scan never reports absence: a task command is never failed by reconciliation.
  lemma TasksAreNeverDeclaredAbsent(scan: Reply<seq<Task>>)
    ensures !TaskVerdict(scan).NotFound?
    ensures TaskVerdict(scan).Found? <==> scan.Answered? && |scan.value| == 1
  {
  }
}
