// The generational mail cache (server/redis_cache.py) under the request handlers of
// server/routes/google_mail.py:52-66, :86-100, :121-132, :246-254.
//
// One user's cache.  Handlers interleave at every Redis or provider call; entries may vanish at any
// time (expiry, eviction), and every Redis call may fail.

module MailCache {
  import opened Common

  type RequestId = nat
  type View = string      // "page:inbox:20:...", "detail:<id>", ...

  // What the provider returned: the mailbox version it shows.  Versions count mutations.
  type Version = nat

  datatype Pc =
    | Absent
    | Asked(view: View)                                                 // a read request arrived
    | Keyed(view: View, generation: nat, reliable: bool, readAt: nat)   // it read the generation
    | Missed(view: View, generation: nat, reliable: bool, readAt: nat)
    | Fetched(view: View, generation: nat, reliable: bool, readAt: nat, content: Version)
    | Answered(reliable: bool, readAt: nat, content: Version)
    | Mutating                                                          // a mutation request arrived
    | Applied(version: Version)                                         // the provider applied it
    | Finished

  datatype Sys = Sys(
    generation: Option<nat>,                  // the counter in Redis
    entries: map<(nat, View), Version>,       // generation-qualified entries
    version: Version,                         // the provider's mailbox
    requests: map<RequestId, Pc>,
    steps: nat,
    floor: nat -> Version)                    // history: what a generation promises
  {
    function PcOf(r: RequestId): Pc {
      if r in requests then requests[r] else Absent
    }

    function To(r: RequestId, pc: Pc): Sys {
      this.(requests := requests[r := pc])
    }
  }

  function Current(generation: Option<nat>): nat {
    generation.GetOr(0)
  }

  datatype Action =
    | Arrive(r: RequestId, view: View)
    | ReadGeneration(r: RequestId, ok: bool)       // a failed read counts as generation 0
    | Look(r: RequestId, ok: bool)                 // cache_get; failure and corruption are a miss
    | Fetch(r: RequestId)
    | Store(r: RequestId, ok: bool)                // cache_set, then the answer
    | ArriveMutation(r: RequestId)
    | Apply(r: RequestId)
    | Increment(r: RequestId, ok: bool)
    | Lose(generation: nat, view: View)
    | Abort(r: RequestId)

  predicate Enabled(s: Sys, a: Action) {
    match a
    case Arrive(r, _) => s.PcOf(r).Absent?
    case ReadGeneration(r, _) => s.PcOf(r).Asked?
    case Look(r, _) => s.PcOf(r).Keyed?
    case Fetch(r) => s.PcOf(r).Missed?
    case Store(r, _) => s.PcOf(r).Fetched?
    case ArriveMutation(r) => s.PcOf(r).Absent?
    case Apply(r) => s.PcOf(r).Mutating?
    case Increment(r, _) => s.PcOf(r).Applied?
    case Lose(_, _) => true
    case Abort(r) => !s.PcOf(r).Absent? && !s.PcOf(r).Answered?
  }

  function Raise(floor: nat -> Version, g: nat, version: Version): nat -> Version {
    (k: nat) => if k < g then floor(k) else if floor(k) >= version then floor(k) else version
  }

  function Act(s: Sys, a: Action): Sys
    requires Enabled(s, a)
  {
    match a
    case Arrive(r, view) => s.To(r, Asked(view))
    case ReadGeneration(r, ok) =>
      s.To(r, Keyed(s.PcOf(r).view, if ok then Current(s.generation) else 0, ok, s.steps))
    case Look(r, ok) =>
      var pc := s.PcOf(r);
      if ok && (pc.generation, pc.view) in s.entries
      then s.To(r, Answered(pc.reliable, pc.readAt, s.entries[(pc.generation, pc.view)]))
      else s.To(r, Missed(pc.view, pc.generation, pc.reliable, pc.readAt))
    case Fetch(r) =>
      var pc := s.PcOf(r);
      s.To(r, Fetched(pc.view, pc.generation, pc.reliable, pc.readAt, s.version))
    case Store(r, ok) =>
      var pc := s.PcOf(r);
      s.(entries := if ok then s.entries[(pc.generation, pc.view) := pc.content] else s.entries)
      .To(r, Answered(pc.reliable, pc.readAt, pc.content))
    case ArriveMutation(r) => s.To(r, Mutating)
    case Apply(r) => s.(version := s.version + 1).To(r, Applied(s.version + 1))
    case Increment(r, ok) =>
      if ok then
        var g := Current(s.generation) + 1;
        s.(generation := Some(g), floor := Raise(s.floor, g, s.PcOf(r).version)).To(r, Finished)
      else s.To(r, Finished)
    case Lose(g, view) => s.(entries := s.entries - {(g, view)})
    case Abort(r) => s.To(r, Finished)
  }

  function Next(s: Sys, a: Action): Sys
    requires Enabled(s, a)
  {
    Act(s, a).(steps := s.steps + 1)
  }

  ghost predicate Init(s: Sys) {
    && s.generation == None && s.entries == map[] && s.requests == map[] && s.steps == 0
    && forall g: nat :: s.floor(g) == 0
  }

  ghost predicate IsRun(states: seq<Sys>, actions: seq<Action>) {
    && |states| == |actions| + 1
    && Init(states[0])
    && (forall i :: 0 <= i < |actions| ==> Enabled(states[i], actions[i]))
    && (forall i :: 0 <= i < |actions| ==> states[i + 1] == Next(states[i], actions[i]))
  }

  // ---------- The invariant ----------

  // The floor of a generation is the newest mutation whose increment led to it or to an earlier
  // generation; everything stored under the generation shows at least that.
  ghost predicate Inv(s: Sys) {
    && (forall g: nat :: s.floor(g) <= s.version)
    && (forall g: nat, h: nat :: g <= h ==> s.floor(g) <= s.floor(h))
    && (forall k <- s.entries :: s.floor(k.0) <= s.entries[k] && k.0 <= Current(s.generation))
    && (forall r <- s.requests :: RequestOk(s, r))
  }

  ghost predicate RequestOk(s: Sys, r: RequestId)
    requires r in s.requests
  {
    match s.requests[r]
    case Absent => true
    case Asked(_) => true
    case Keyed(_, g, _, _) => g <= Current(s.generation)
    case Missed(_, g, _, _) => g <= Current(s.generation)
    case Fetched(_, g, _, _, content) => g <= Current(s.generation) && s.floor(g) <= content
    case Answered(_, _, _) => true
    case Mutating => true
    case Applied(version) => version <= s.version
    case Finished => true
  }

  lemma IncrementKeeps(s: Sys, r: RequestId)
    requires Inv(s) && Enabled(s, Increment(r, true))
    ensures Inv(Act(s, Increment(r, true)))
  {
    var s' := Act(s, Increment(r, true));
    assert RequestOk(s, r);
    assert forall g: nat :: g <= Current(s.generation) ==> s'.floor(g) == s.floor(g);
    forall q <- s'.requests ensures RequestOk(s', q) {
      if q != r {
        assert RequestOk(s, q);
      }
    }
  }

  // The other steps change neither the counter nor any promise, and touch one request.
  lemma OtherStepKeeps(s: Sys, s': Sys, r: RequestId)
    requires Inv(s) && s'.generation == s.generation && s'.floor == s.floor && s.version <= s'.version
    requires || s'.requests == s.requests
             || (r in s'.requests && s'.requests == s.requests[r := s'.requests[r]] && RequestOk(s', r))
    requires forall k <- s'.entries :: s.floor(k.0) <= s'.entries[k] && k.0 <= Current(s.generation)
    ensures Inv(s')
  {
    forall q <- s'.requests ensures RequestOk(s', q) {
      if q in s.requests {
        assert RequestOk(s, q);
      }
    }
  }

  lemma NextKeepsInv(s: Sys, a: Action)
    requires Inv(s) && Enabled(s, a)
    ensures Inv(Next(s, a))
  {
    var s' := Next(s, a);
    if a.Increment? && a.ok {
      IncrementKeeps(s, a.r);
      hide Act;
      OtherStepKeeps(Act(s, a), s', a.r);
    } else if a.Lose? {
      OtherStepKeeps(s, s', 0);
    } else {
      assert a.r in s.requests ==> RequestOk(s, a.r);
      assert RequestOk(s', a.r);
      assert forall k <- s'.entries :: s.floor(k.0) <= s'.entries[k] && k.0 <= Current(s.generation);
      hide Inv, RequestOk;
      OtherStepKeeps(s, s', a.r);
    }
  }

  lemma InitIsOk(s: Sys)
    requires Init(s)
    ensures Inv(s)
  {
  }

  lemma {:induction false} RunsKeepInv(states: seq<Sys>, actions: seq<Action>, i: nat)
    requires IsRun(states, actions) && i < |states|
    ensures Inv(states[i]) && states[i].steps == i
  {
    hide Inv, Enabled, Act;
    if i == 0 {
      InitIsOk(states[0]);
    } else {
      RunsKeepInv(states, actions, i - 1);
      NextKeepsInv(states[i - 1], actions[i - 1]);
    }
  }

  // ---------- Freshness ----------

  // The newest mutation whose successful increment was among the first n steps.
  function Published(states: seq<Sys>, actions: seq<Action>, n: nat): Version
    requires |states| == |actions| + 1 && n <= |actions|
  {
    if n == 0 then 0
    else
      var before := Published(states, actions, n - 1);
      var a := actions[n - 1];
      if a.Increment? && a.ok && states[n - 1].PcOf(a.r).Applied? && states[n - 1].PcOf(a.r).version > before
      then states[n - 1].PcOf(a.r).version
      else before
  }

  // Generations not reached yet promise what the current one does.
  lemma {:induction false} FloorIsPublished(states: seq<Sys>, actions: seq<Action>, n: nat, ahead: nat)
    requires IsRun(states, actions) && n <= |actions| && ahead >= Current(states[n].generation)
    ensures states[n].floor(ahead) == Published(states, actions, n)
  {
    if n > 0 {
      FloorIsPublished(states, actions, n - 1, ahead);
    }
  }

  // What a reader that reached generation g may answer with.
  ghost predicate Promised(s: Sys, pc: Pc, floor: Version) {
    match pc
    case Keyed(_, g, true, _) => floor <= s.floor(g)
    case Missed(_, g, true, _) => floor <= s.floor(g)
    case Fetched(_, g, true, _, content) => floor <= content
    case Answered(true, _, content) => floor <= content
    case _ => true
  }

  function ReadAt(pc: Pc): Option<nat> {
    match pc
    case Keyed(_, _, _, at) => Some(at)
    case Missed(_, _, _, at) => Some(at)
    case Fetched(_, _, _, at, _) => Some(at)
    case Answered(_, at, _) => Some(at)
    case _ => None
  }

  lemma PromiseStep(s: Sys, a: Action, r: RequestId, floor: Version)
    requires Inv(s) && Enabled(s, a) && Promised(s, s.PcOf(r), floor)
    requires !(a.ReadGeneration? && a.r == r)
    ensures Promised(Next(s, a), Next(s, a).PcOf(r), floor)
    ensures ReadAt(Next(s, a).PcOf(r)).Some? ==> ReadAt(s.PcOf(r)) == ReadAt(Next(s, a).PcOf(r))
  {
    if r in s.requests {
      assert RequestOk(s, r);
    }
  }

  lemma {:induction false} PromisesAreKept(states: seq<Sys>, actions: seq<Action>, i: nat, r: RequestId)
    requires IsRun(states, actions) && i < |states|
    ensures var at := ReadAt(states[i].PcOf(r));
            at.Some? ==> at.value < i && Promised(states[i], states[i].PcOf(r), Published(states, actions, at.value))
  {
    if i > 0 {
      RunsKeepInv(states, actions, i - 1);
      PromisesAreKept(states, actions, i - 1, r);
      if ReadAt(states[i].PcOf(r)).Some? {
        hide Act;
        var s, a := states[i - 1], actions[i - 1];
        if a.ReadGeneration? && a.r == r {
          FloorIsPublished(states, actions, i - 1, Current(s.generation));
          hide IsRun, Inv, Promised, Published;
          ReadPromises(s, a);
        } else {
          hide IsRun, Inv, Promised, Published;
          if ReadAt(s.PcOf(r)).Some? {
            PromiseStep(s, a, r, Published(states, actions, ReadAt(s.PcOf(r)).value));
          } else {
            NothingReadYet(s, a, r);
          }
        }
      }
    }
  }

  lemma NothingReadYet(s: Sys, a: Action, r: RequestId)
    requires Enabled(s, a) && !(a.ReadGeneration? && a.r == r) && ReadAt(s.PcOf(r)).None?
    ensures ReadAt(Next(s, a).PcOf(r)).None?
  {
  }

  lemma ReadPromises(s: Sys, a: Action)
    requires Enabled(s, a) && a.ReadGeneration?
    ensures var pc := Next(s, a).PcOf(a.r);
            ReadAt(pc) == Some(s.steps) && Promised(Next(s, a), pc, s.floor(Current(s.generation)))
  {
  }

  // Main result.  Whatever is lost or fails elsewhere, and however readers and mutators interleave:
  // a request that read the generation successfully never answers with content older than a
  // mutation whose increment succeeded before that read.
  lemma AnswersAreFresh(states: seq<Sys>, actions: seq<Action>, i: nat, j: nat, k: nat, m: RequestId, r: RequestId)
    requires IsRun(states, actions) && i < j < |actions| && j < k < |states|
    requires actions[i] == Increment(m, true) && states[i].PcOf(m).Applied?
    requires actions[j] == ReadGeneration(r, true)
    requires states[k].PcOf(r).Answered? && states[k].PcOf(r).reliable && states[k].PcOf(r).readAt == j
    ensures states[i].PcOf(m).version <= states[k].PcOf(r).content
  {
    PromisesAreKept(states, actions, k, r);
    PublishedGrows(states, actions, i, j);
  }

  lemma {:induction false} PublishedGrows(states: seq<Sys>, actions: seq<Action>, i: nat, j: nat)
    requires |states| == |actions| + 1 && i < j <= |actions|
    requires actions[i].Increment? && actions[i].ok && states[i].PcOf(actions[i].r).Applied?
    ensures states[i].PcOf(actions[i].r).version <= Published(states, actions, j)
  {
    if i + 1 < j {
      PublishedGrows(states, actions, i, j - 1);
    }
  }

  // ---------- Where the promise ends ----------

  ghost predicate EnabledAll(s: Sys, actions: seq<Action>)
    decreases |actions|
  {
    actions == [] || (Enabled(s, actions[0]) && EnabledAll(Next(s, actions[0]), actions[1..]))
  }

  ghost function After(s: Sys, actions: seq<Action>): Sys
    requires EnabledAll(s, actions)
    decreases |actions|
  {
    if actions == [] then s else After(Next(s, actions[0]), actions[1..])
  }

  ghost predicate AnswersAtLeast(pc: Pc, floor: Version) {
    pc.Answered? ==> floor <= pc.content
  }

  // Whatever happens from here on, the request does not answer with older content.
  ghost predicate AlwaysFresh(s: Sys, r: RequestId, floor: Version) {
    forall actions: seq<Action> :: EnabledAll(s, actions) ==> AnswersAtLeast(After(s, actions).PcOf(r), floor)
  }

  // Neither an entry for the view under the generation, nor a fetch of it that is about to be stored
  // there, is older.
  predicate NothingStale(s: Sys, g: nat, view: View, floor: Version) {
    && ((g, view) in s.entries ==> floor <= s.entries[(g, view)])
    && (forall q <- s.requests :: FetchIsFresh(s.requests[q], g, view, floor))
  }

  predicate FetchIsFresh(pc: Pc, g: nat, view: View, floor: Version) {
    pc.Fetched? && pc.generation == g && pc.view == view ==> floor <= pc.content
  }

  // The request is under way with this key, and has nothing older in hand.
  predicate OnItsWay(pc: Pc, g: nat, view: View, floor: Version) {
    match pc
    case Keyed(v, h, _, _) => v == view && h == g
    case Missed(v, h, _, _) => v == view && h == g
    case Fetched(v, h, _, _, content) => v == view && h == g && floor <= content
    case Answered(_, _, content) => floor <= content
    case Finished => true
    case _ => false
  }

  lemma FreshnessStep(s: Sys, a: Action, r: RequestId, g: nat, view: View, floor: Version)
    requires Enabled(s, a) && floor <= s.version && NothingStale(s, g, view, floor) && OnItsWay(s.PcOf(r), g, view, floor)
    ensures var s' := Next(s, a);
            floor <= s'.version && NothingStale(s', g, view, floor) && OnItsWay(s'.PcOf(r), g, view, floor)
  {
    var s' := Next(s, a);
    forall q <- s'.requests ensures FetchIsFresh(s'.requests[q], g, view, floor) {
      if q in s.requests {
        assert FetchIsFresh(s.requests[q], g, view, floor);
      }
    }
    if a.Store? {
      assert FetchIsFresh(s.requests[a.r], g, view, floor);
    }
  }

  lemma {:induction false} FreshForEver(s: Sys, actions: seq<Action>, r: RequestId, g: nat, view: View, floor: Version)
    requires EnabledAll(s, actions) && floor <= s.version && NothingStale(s, g, view, floor)
    requires OnItsWay(s.PcOf(r), g, view, floor)
    ensures AnswersAtLeast(After(s, actions).PcOf(r), floor)
    decreases |actions|
  {
    hide Enabled, Next, NothingStale;
    if actions != [] {
      FreshnessStep(s, actions[0], r, g, view, floor);
      FreshForEver(Next(s, actions[0]), actions[1..], r, g, view, floor);
    }
  }

  lemma StaleEntryIsServed(s: Sys, r: RequestId, g: nat, view: View, floor: Version)
    requires s.PcOf(r).Keyed? && s.PcOf(r).generation == g && s.PcOf(r).view == view
    requires (g, view) in s.entries && s.entries[(g, view)] < floor
    ensures !AlwaysFresh(s, r, floor)
  {
    var s' := Next(s, Look(r, true));
    assert EnabledAll(s', []) && After(s', []) == s';
    assert EnabledAll(s, [Look(r, true)]) by {
      assert [Look(r, true)][1..] == [];
    }
    assert After(s, [Look(r, true)]) == s' by {
      assert [Look(r, true)][1..] == [];
    }
    assert !AnswersAtLeast(s'.PcOf(r), floor);
  }

  lemma StaleFetchIsServed(s: Sys, r: RequestId, q: RequestId, g: nat, view: View, floor: Version)
    requires s.PcOf(r).Keyed? && s.PcOf(r).generation == g && s.PcOf(r).view == view
    requires q in s.requests && !FetchIsFresh(s.requests[q], g, view, floor)
    ensures !AlwaysFresh(s, r, floor)
  {
    var s' := Next(s, Store(q, true));
    StaleEntryIsServed(s', r, g, view, floor);
    var rest :| EnabledAll(s', rest) && !AnswersAtLeast(After(s', rest).PcOf(r), floor);
    hide Next, Enabled;
    assert ([Store(q, true)] + rest)[1..] == rest;
    assert Enabled(s, Store(q, true)) && Next(s, Store(q, true)) == s';
    assert EnabledAll(s, [Store(q, true)] + rest);
    assert After(s, [Store(q, true)] + rest) == After(s', rest);
  }

  // Main result, for failed reads too.  A request that read the generation, or fell back to
  // generation 0 because the read failed, never answers with content older than the newest published
  // mutation, if and only if no entry for its view and no fetch of it under way is stale under that
  // generation.
  lemma ReadIsFreshIff(s: Sys, r: RequestId, view: View, ok: bool)
    requires Inv(s) && s.PcOf(r) == Asked(view)
    ensures var newest := s.floor(Current(s.generation));
            var g := if ok then Current(s.generation) else 0;
            AlwaysFresh(Next(s, ReadGeneration(r, ok)), r, newest) <==> NothingStale(s, g, view, newest)
  {
    var newest := s.floor(Current(s.generation));
    var g := if ok then Current(s.generation) else 0;
    var s1 := Next(s, ReadGeneration(r, ok));
    KeyedIsTheSame(s, r, view, ok, newest);
    hide Inv, AlwaysFresh, AnswersAtLeast, Next;
    if NothingStale(s1, g, view, newest) {
      hide NothingStale;
      StaysFresh(s1, r, g, view, newest);
    } else if (g, view) in s1.entries && s1.entries[(g, view)] < newest {
      StaleEntryIsServed(s1, r, g, view, newest);
    } else {
      var q :| q in s1.requests && !FetchIsFresh(s1.requests[q], g, view, newest);
      StaleFetchIsServed(s1, r, q, g, view, newest);
    }
  }

  lemma StaysFresh(s: Sys, r: RequestId, g: nat, view: View, floor: Version)
    requires floor <= s.version && NothingStale(s, g, view, floor) && OnItsWay(s.PcOf(r), g, view, floor)
    ensures AlwaysFresh(s, r, floor)
  {
    hide AnswersAtLeast, NothingStale, OnItsWay;
    forall actions: seq<Action> | EnabledAll(s, actions) ensures AnswersAtLeast(After(s, actions).PcOf(r), floor) {
      FreshForEver(s, actions, r, g, view, floor);
    }
  }

  lemma KeyedIsTheSame(s: Sys, r: RequestId, view: View, ok: bool, floor: Version)
    requires Inv(s) && s.PcOf(r) == Asked(view) && floor == s.floor(Current(s.generation))
    ensures var s1 := Next(s, ReadGeneration(r, ok));
            var g := if ok then Current(s.generation) else 0;
            && s1.PcOf(r) == Keyed(view, g, ok, s.steps) && floor <= s1.version
            && (NothingStale(s1, g, view, floor) <==> NothingStale(s, g, view, floor))
  {
    var s1 := Next(s, ReadGeneration(r, ok));
    forall q ensures q in s1.requests && q != r <==> q in s.requests && q != r {
    }
    assert forall q <- s.requests :: q != r ==> s1.requests[q] == s.requests[q];
  }

  // What a caller can check: a read that succeeded, or one while the counter was never advanced.
  lemma CheckedReadIsFresh(s: Sys, r: RequestId, view: View, ok: bool)
    requires Inv(s) && s.PcOf(r) == Asked(view) && (ok || Current(s.generation) == 0)
    ensures AlwaysFresh(Next(s, ReadGeneration(r, ok)), r, s.floor(Current(s.generation)))
  {
    var g := Current(s.generation);
    forall q <- s.requests ensures FetchIsFresh(s.requests[q], g, view, s.floor(g)) {
      assert RequestOk(s, q);
    }
    assert NothingStale(s, g, view, s.floor(g));
    hide Inv, AlwaysFresh, Next, NothingStale;
    ReadIsFreshIff(s, r, view, ok);
  }

  // The exception is real: from every initial state a run leads to an answer older than the newest
  // published mutation.  One reader fills generation 0, a mutation publishes, and the generation read
  // of another reader fails.
  lemma StaleAnswersAreReachable(s0: Sys, view: View)
    requires Init(s0)
    ensures exists states: seq<Sys>, actions: seq<Action> :: IsRun(states, actions) && states[0] == s0
              && var s := states[|actions|];
                 s.PcOf(2).Answered? && s.PcOf(2).content < s.floor(Current(s.generation))
  {
    var s1 := Next(s0, Arrive(0, view));
    var s2 := Next(s1, ReadGeneration(0, true));
    var s3 := Next(s2, Look(0, true));
    var s4 := Next(s3, Fetch(0));
    var s5 := Next(s4, Store(0, true));
    var s6 := Next(s5, ArriveMutation(1));
    var s7 := Next(s6, Apply(1));
    var s8 := Next(s7, Increment(1, true));
    var s9 := Next(s8, Arrive(2, view));
    var s10 := Next(s9, ReadGeneration(2, false));
    var s11 := Next(s10, Look(2, true));
    var states := [s0, s1, s2, s3, s4, s5, s6, s7, s8, s9, s10, s11];
    var actions := [Arrive(0, view), ReadGeneration(0, true), Look(0, true), Fetch(0), Store(0, true),
                    ArriveMutation(1), Apply(1), Increment(1, true), Arrive(2, view), ReadGeneration(2, false),
                    Look(2, true)];
    assert s8.entries[(0, view)] == s0.version;
    assert s8.floor(1) == s0.version + 1;
    assert s11.PcOf(2) == Answered(false, s9.steps, s0.version) && s11.floor == s8.floor;
    assert IsRun(states, actions);
    assert states[|actions|] == s11;
  }

  // ---------- The adapter's operations on Redis ----------

  // The key of a request that read the generation.
  function KeyOf(pc: Pc): (nat, View)
    requires pc.Keyed? || pc.Fetched?
  {
    (pc.generation, pc.view)
  }

  // The steps that do not touch Redis.
  predicate Elsewhere(a: Action) {
    a.Arrive? || a.Fetch? || a.ArriveMutation? || a.Apply? || a.Abort?
  }

  // Redis, under the handlers of one user.  `sys` is the state of the protocol, of which the counter
  // and the entries are the stored part.
  class Cache {
    var generation: Option<nat>
    var entries: map<(nat, View), Version>
    ghost var sys: Sys

    ghost predicate Valid()
      reads this
    {
      sys.generation == generation && sys.entries == entries && Inv(sys)
    }

    constructor (ghost initial: Sys)
      requires Init(initial)
      ensures Valid() && sys == initial
    {
      generation, entries, sys := None, map[], initial;
      new;
      InitIsOk(sys);
    }

    // Handlers and the provider move on; entries expire.
    ghost method Observe(a: Action)
      requires Valid() && Enabled(sys, a) && Elsewhere(a)
      modifies this`sys
      ensures Valid() && sys == Next(old(sys), a)
    {
      NextKeepsInv(sys, a);
      sys := Next(sys, a);
    }

    method Expire(key: (nat, View))
      requires Valid()
      modifies this`entries, this`sys
      ensures Valid() && sys == Next(old(sys), Lose(key.0, key.1))
    {
      NextKeepsInv(sys, Lose(key.0, key.1));
      entries := entries - {key};
      sys := Next(sys, Lose(key.0, key.1));
    }

    // get_user_mail_cache_generation, user_mail_cache_key
    method Key(r: RequestId, view: View, available: bool) returns (key: (nat, View))
      requires Valid() && sys.PcOf(r) == Asked(view)
      modifies this`sys
      ensures Valid() && sys == Next(old(sys), ReadGeneration(r, available))
      ensures sys.PcOf(r).Keyed? && key == KeyOf(sys.PcOf(r))
      ensures available ==> AlwaysFresh(sys, r, sys.floor(Current(generation)))
    {
      ghost var before := sys;
      NextKeepsInv(sys, ReadGeneration(r, available));
      sys := Next(sys, ReadGeneration(r, available));
      if available {
        CheckedReadIsFresh(before, r, view, true);
      }
      if !available || generation.None? {
        return (0, view);
      }
      return (generation.value, view);
    }

    // cache_get: an answer is at least what the generation of its key promises.
    method Get(r: RequestId, key: (nat, View), available: bool) returns (content: Option<Version>)
      requires Valid() && sys.PcOf(r).Keyed? && key == KeyOf(sys.PcOf(r))
      modifies this`sys
      ensures Valid() && sys == Next(old(sys), Look(r, available))
      ensures sys.PcOf(r).Answered? <==> content.Some?
      ensures content.Some? ==> sys.PcOf(r).content == content.value && sys.floor(key.0) <= content.value
      ensures content.None? ==> sys.PcOf(r).Missed?
    {
      NextKeepsInv(sys, Look(r, available));
      sys := Next(sys, Look(r, available));
      if !available || key !in entries {
        return None;
      }
      return Some(entries[key]);
    }

    // cache_set: what is stored keeps the promise of its generation.
    method Set(r: RequestId, key: (nat, View), content: Version, available: bool) returns (stored: bool)
      requires Valid() && sys.PcOf(r).Fetched? && key == KeyOf(sys.PcOf(r)) && content == sys.PcOf(r).content
      modifies this`entries, this`sys
      ensures Valid() && sys == Next(old(sys), Store(r, available))
      ensures stored ==> key in entries && entries[key] == content && sys.floor(key.0) <= content
      ensures !stored ==> entries == old(entries)
      ensures sys.PcOf(r).Answered? && sys.PcOf(r).content == content
    {
      NextKeepsInv(sys, Store(r, available));
      sys := Next(sys, Store(r, available));
      if !available {
        return false;
      }
      entries := entries[key := content];
      return true;
    }

    // INCR creates the key with value 1; nothing is scanned or deleted, yet no entry of the new
    // generation exists, and the generation promises the mutation.
    method Invalidate(r: RequestId, available: bool) returns (advanced: bool)
      requires Valid() && sys.PcOf(r).Applied?
      modifies this`generation, this`sys
      ensures Valid() && sys == Next(old(sys), Increment(r, available))
      ensures advanced ==> old(sys).PcOf(r).version <= sys.floor(Current(generation))
      ensures advanced ==> forall key <- entries :: key.0 < Current(generation)
      ensures !advanced ==> generation == old(generation)
    {
      ghost var before := sys;
      NextKeepsInv(sys, Increment(r, available));
      sys := Next(sys, Increment(r, available));
      if !available {
        return false;
      }
      generation := Some(if generation.Some? then generation.value + 1 else 1);
      return true;
    }
  }
}
