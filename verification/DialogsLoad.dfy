/** Loading the chats lists: one state per list, a list request and a pinned request beside each other, and a state
    that removes itself when both parts have arrived. */
module DialogsLoad {
  import opened Wrappers
  import opened DialogsPage

  type Folder = nat
  /** The main list, or the list of a folder. */
  type Key = Option<Folder>
  type RequestId = nat

  const MAIN: Key := None

  datatype Load = Load(offset: Offset, requestId: RequestId, listReceived: bool,
                       pinnedRequestId: RequestId, pinnedReceived: bool)
  const FRESH := Load(NOWHERE, 0, false, 0, false)

  const FIRST_LOAD := 20
  const PER_PAGE := 500

  /** A list is asked for by the part: from where on, and how many. */
  datatype Request = List(key: Key, offset: Offset, count: nat) | Pinned(key: Key) | PinnedReload(key: Key)
  datatype Reply = NotModified | Whole | Slice(page: Page)

  /** `done` lists the finished notifications, `born` counts the states made for each list. */
  datatype State = State(loads: map<Key, Load>, till: int, blocked: bool, reloads: set<Key>,
                         inFlight: map<RequestId, Request>, next: RequestId, done: seq<Key>, born: map<Key, nat>)

  const INITIAL := State(map[MAIN := FRESH], 0, false, {}, map[], 1, [], map[MAIN := 1])

  /** What the rest of the session says when more is asked for: the exceptions of a filter come first, or the
      loaded archive is needed. */
  datatype World = World(loadsExceptions: bool, archive: Option<Folder>)

  // ---- The operations ----

  function Refreshed(s: State): State {
    s.(blocked := MAIN in s.loads && var l := s.loads[MAIN];
        !l.listReceived && l.requestId == 0 && s.till > 0 && 0 < l.offset.date <= s.till)
  }

  function Finished(s: State, key: Key): State {
    if key in s.loads && s.loads[key].listReceived && s.loads[key].pinnedReceived
    then s.(loads := s.loads - {key}, done := s.done + [key])
    else s
  }

  function AskPinned(s: State, key: Key): State {
    if key !in s.loads || s.loads[key].pinnedReceived || s.loads[key].pinnedRequestId != 0 then s
    else s.(loads := s.loads[key := s.loads[key].(pinnedRequestId := s.next)],
            inFlight := s.inFlight[s.next := Pinned(key)], next := s.next + 1)
  }

  function CountFrom(offset: Offset): nat { if offset.date == 0 then FIRST_LOAD else PER_PAGE }

  function AskList(s: State, key: Key): State
    requires key in s.loads
  {
    s.(loads := s.loads[key := s.loads[key].(requestId := s.next)],
       inFlight := s.inFlight[s.next := List(key, s.loads[key].offset, CountFrom(s.loads[key].offset))],
       next := s.next + 1)
  }

  function AskMore(s: State, key: Key): State {
    if key !in s.loads || s.loads[key].requestId != 0 || s.blocked then s
    else
      var s1 := AskList(s, key);
      var s2 := if s1.loads[key].pinnedReceived then s1 else AskPinned(s1, key);
      if key == MAIN then Refreshed(s2) else s2
  }

  function Born(s: State, key: Key): nat { if key in s.born then s.born[key] else 0 }

  function AskDialogs(s: State, key: Key): State {
    var s1 := if key.Some? && key !in s.loads
              then s.(loads := s.loads[key := FRESH], born := s.born[key := Born(s, key) + 1]) else s;
    AskMore(s1, key)
  }

  function AskIfNeeded(s: State, w: World): State {
    if w.loadsExceptions then s
    else if MAIN in s.loads && !s.loads[MAIN].listReceived then
      if s.loads[MAIN].requestId != 0 then s else AskDialogs(s, MAIN)
    else if w.archive.Some? then AskMore(s, w.archive)
    else s
  }

  predicate Moves(reply: Reply) { reply.Slice? && LastOffset(reply.page).date != 0 }

  /** The part of the list reply's handler that changes the state of its list. */
  function ListArrived(s: State, key: Key, reply: Reply): State {
    if reply.NotModified? || key !in s.loads then s
    else if Moves(reply) then
      s.(loads := s.loads[key := s.loads[key].(offset := LastOffset(reply.page), requestId := 0)])
    else Finished(s.(loads := s.loads[key := s.loads[key].(listReceived := true)]), key)
  }

  function Unblocked(s: State, key: Key): State {
    if key == MAIN && (MAIN !in s.loads || !s.loads[MAIN].listReceived) then Refreshed(s) else s
  }

  function AfterListDone(s: State, id: RequestId, reply: Reply, w: World): State
    requires id in s.inFlight
  {
    var key := s.inFlight[id].key;
    var s1 := ListArrived(s.(inFlight := s.inFlight - {id}), key, reply);
    AskIfNeeded(Unblocked(s1, key), w)
  }

  /** The fail handler looks the state up again and does not check that it is there. */
  function AfterListFail(s: State, id: RequestId): State
    requires id in s.inFlight && s.inFlight[id].key in s.loads
  {
    var key := s.inFlight[id].key;
    s.(inFlight := s.inFlight - {id}, loads := s.loads[key := s.loads[key].(requestId := 0)])
  }

  /** Both handlers of a pinned request do the same. */
  function AfterPinned(s: State, id: RequestId): State
    requires id in s.inFlight
  {
    var key := s.inFlight[id].key;
    var s1 := s.(inFlight := s.inFlight - {id});
    if key !in s1.loads then s1
    else Finished(s1.(loads := s1.loads[key := s1.loads[key].(pinnedRequestId := 0, pinnedReceived := true)]), key)
  }

  function Reloaded(s: State, key: Key): State {
    if key in s.reloads then s
    else s.(reloads := s.reloads + {key}, inFlight := s.inFlight[s.next := PinnedReload(key)], next := s.next + 1)
  }

  function AfterReload(s: State, id: RequestId): State
    requires id in s.inFlight
  {
    s.(inFlight := s.inFlight - {id}, reloads := s.reloads - {s.inFlight[id].key})
  }

  // ---- Runs ----

  datatype Step =
    | RequestDialogs(key: Key)
    | RequestMore(key: Key)
    | RequestPinned(key: Key)
    | ListDone(id: RequestId, reply: Reply, world: World)
    | ListFail(id: RequestId)
    | PinnedReply(id: RequestId)
    | ReloadPinned(key: Key)
    | ReloadReply(id: RequestId)
    | LoadTill(till: int)

  predicate Enabled(s: State, step: Step) {
    match step
    case ListDone(id, _, _) => id in s.inFlight && s.inFlight[id].List?
    case ListFail(id) => id in s.inFlight && s.inFlight[id].List?
    case PinnedReply(id) => id in s.inFlight && s.inFlight[id].Pinned?
    case ReloadReply(id) => id in s.inFlight && s.inFlight[id].PinnedReload?
    case _ => true
  }

  /** While a list request is in flight its state exists, holds that id and still waits for the list; likewise
      the pinned request; and a state that has both parts is gone. */
  ghost predicate Sound(s: State) {
    && s.next > 0
    && (forall id :: id in s.inFlight ==> 0 < id < s.next)
    && (forall id :: id in s.inFlight && s.inFlight[id].List? ==>
          var key := s.inFlight[id].key;
          key in s.loads && s.loads[key].requestId == id && !s.loads[key].listReceived)
    && (forall key :: key in s.loads && s.loads[key].listReceived ==> s.loads[key].requestId != 0)
    && (forall id :: id in s.inFlight && s.inFlight[id].Pinned? ==>
          var key := s.inFlight[id].key;
          key in s.loads && s.loads[key].pinnedRequestId == id && !s.loads[key].pinnedReceived)
    && (forall key :: key in s.loads ==> !(s.loads[key].listReceived && s.loads[key].pinnedReceived))
    && (forall key :: key in s.loads ==> s.loads[key].pinnedRequestId < s.next && s.loads[key].requestId < s.next)
  }

  /** Every state ever made is still there or was announced, once. */
  ghost predicate Announced(s: State) {
    forall key :: Born(s, key) == multiset(s.done)[key] + (if key in s.loads then 1 else 0)
  }

  predicate Lists(request: Request, key: Key) { request.List? && request.key == key }

  /** A list that is not complete and holds a request id, although that request is not in flight. */
  predicate Stalled(s: State, key: Key) {
    && key in s.loads && !s.loads[key].listReceived && s.loads[key].requestId != 0
    && !(s.loads[key].requestId in s.inFlight && Lists(s.inFlight[s.loads[key].requestId], key))
  }

  ghost predicate NotStalled(s: State) { forall key :: key in s.loads ==> !Stalled(s, key) }

  function Next(s: State, step: Step): State
    requires Enabled(s, step) && (step.ListFail? ==> s.inFlight[step.id].key in s.loads)
  {
    match step
    case RequestDialogs(key) => AskDialogs(s, key)
    case RequestMore(key) => AskMore(s, key)
    case RequestPinned(key) => AskPinned(s, key)
    case ListDone(id, reply, w) => AfterListDone(s, id, reply, w)
    case ListFail(id) => AfterListFail(s, id)
    case PinnedReply(id) => AfterPinned(s, id)
    case ReloadPinned(key) => Reloaded(s, key)
    case ReloadReply(id) => AfterReload(s, id)
    case LoadTill(till) => Refreshed(s.(till := till))
  }

  lemma StartIsSound()
    ensures Sound(INITIAL) && Announced(INITIAL) && NotStalled(INITIAL)
  {}

  /** The fail handler's state is always there. */
  lemma FailHandlerIsSafe(s: State, id: RequestId)
    requires Sound(s) && Enabled(s, ListFail(id))
    ensures s.inFlight[id].key in s.loads && s.loads[s.inFlight[id].key].requestId == id
  {}

  lemma AskPinnedKeeps(s: State, key: Key)
    requires Sound(s)
    ensures Sound(AskPinned(s, key))
    ensures NotStalled(s) ==> NotStalled(AskPinned(s, key))
  {}

  lemma AskListKeeps(s: State, key: Key)
    requires Sound(s) && key in s.loads && s.loads[key].requestId == 0
    ensures Sound(AskList(s, key))
    ensures NotStalled(s) ==> NotStalled(AskList(s, key))
  {}

  lemma RefreshedKeeps(s: State)
    ensures Sound(s) ==> Sound(Refreshed(s))
    ensures NotStalled(s) ==> NotStalled(Refreshed(s))
  {}

  lemma AskMoreKeeps(s: State, key: Key)
    requires Sound(s)
    ensures Sound(AskMore(s, key))
    ensures NotStalled(s) ==> NotStalled(AskMore(s, key))
  {
    if !(key !in s.loads || s.loads[key].requestId != 0 || s.blocked) {
      AskListKeeps(s, key);
      AskPinnedKeeps(AskList(s, key), key);
      var s1 := AskList(s, key);
      RefreshedKeeps(if s1.loads[key].pinnedReceived then s1 else AskPinned(s1, key));
      hide Sound, NotStalled, Refreshed;
    }
  }

  lemma BirthKeeps(s: State, key: Key)
    requires Sound(s) && key !in s.loads
    ensures var r := s.(loads := s.loads[key := FRESH], born := s.born[key := Born(s, key) + 1]);
            Sound(r) && (NotStalled(s) ==> NotStalled(r)) && (Announced(s) ==> Announced(r))
  {}

  lemma AskDialogsKeeps(s: State, key: Key)
    requires Sound(s)
    ensures Sound(AskDialogs(s, key))
    ensures NotStalled(s) ==> NotStalled(AskDialogs(s, key))
  {
    hide Sound, NotStalled, AskMore, Announced;
    if key.Some? && key !in s.loads {
      BirthKeeps(s, key);
      AskMoreKeeps(s.(loads := s.loads[key := FRESH], born := s.born[key := Born(s, key) + 1]), key);
    } else {
      AskMoreKeeps(s, key);
    }
  }

  lemma AskIfNeededKeeps(s: State, w: World)
    requires Sound(s)
    ensures Sound(AskIfNeeded(s, w))
    ensures NotStalled(s) ==> NotStalled(AskIfNeeded(s, w))
  {
    AskDialogsKeeps(s, MAIN);
    if w.archive.Some? { AskMoreKeeps(s, w.archive); }
    hide Sound, NotStalled, AskDialogs, AskMore;
  }

  /** A state that has both parts goes away, and is announced. */
  lemma FinishedKeeps(s: State, key: Key)
    requires s.next > 0 && forall id :: id in s.inFlight ==> 0 < id < s.next
    requires forall id :: id in s.inFlight && s.inFlight[id].List? ==>
      var k := s.inFlight[id].key; k in s.loads && s.loads[k].requestId == id && !s.loads[k].listReceived
    requires forall id :: id in s.inFlight && s.inFlight[id].Pinned? ==>
      var k := s.inFlight[id].key; k in s.loads && s.loads[k].pinnedRequestId == id && !s.loads[k].pinnedReceived
    requires forall k :: k in s.loads && s.loads[k].listReceived ==> s.loads[k].requestId != 0
    requires forall k :: k in s.loads && k != key ==> !(s.loads[k].listReceived && s.loads[k].pinnedReceived)
    requires forall k :: k in s.loads ==> s.loads[k].pinnedRequestId < s.next && s.loads[k].requestId < s.next
    ensures Sound(Finished(s, key)) && (NotStalled(s) ==> NotStalled(Finished(s, key)))
  {}

  lemma FinishedAnnounces(s: State, key: Key)
    requires Announced(s)
    ensures Announced(Finished(s, key))
  {
    assert multiset(s.done + [key]) == multiset(s.done) + multiset{key};
  }

  lemma SameAnnounced(s: State, r: State)
    requires Announced(s) && r.loads.Keys == s.loads.Keys && r.done == s.done && r.born == s.born
    ensures Announced(r)
  {
    assert forall key :: Born(r, key) == Born(s, key);
  }

  lemma WholeListKeeps(s: State, id: RequestId)
    requires Sound(s) && id in s.inFlight && s.inFlight[id].List?
    ensures var r := ListArrived(s.(inFlight := s.inFlight - {id}), s.inFlight[id].key, Whole);
            Sound(r) && (NotStalled(s) ==> NotStalled(r))
  {
    hide Finished;
    var key := s.inFlight[id].key;
    FinishedKeeps(s.(inFlight := s.inFlight - {id},
                     loads := s.loads[key := s.loads[key].(listReceived := true)]), key);
  }

  lemma SliceKeeps(s: State, id: RequestId, reply: Reply)
    requires Sound(s) && id in s.inFlight && s.inFlight[id].List? && Moves(reply)
    ensures var r := ListArrived(s.(inFlight := s.inFlight - {id}), s.inFlight[id].key, reply);
            Sound(r) && (NotStalled(s) ==> NotStalled(r))
  {}

  lemma NotModifiedStalls(s: State, id: RequestId)
    requires Sound(s) && id in s.inFlight && s.inFlight[id].List?
    ensures var r := ListArrived(s.(inFlight := s.inFlight - {id}), s.inFlight[id].key, NotModified);
            Sound(r) && !NotStalled(r)
  {}

  /** A list reply leaves the state sound. It leaves a list stalled only if it says that nothing was modified. */
  lemma ListArrivedKeeps(s: State, id: RequestId, reply: Reply)
    requires Sound(s) && id in s.inFlight && s.inFlight[id].List?
    ensures var r := ListArrived(s.(inFlight := s.inFlight - {id}), s.inFlight[id].key, reply);
            Sound(r) && (NotStalled(s) ==> (NotStalled(r) <==> !reply.NotModified?))
  {
    hide Sound, NotStalled, Finished;
    WholeListKeeps(s, id);
    NotModifiedStalls(s, id);
    if Moves(reply) { SliceKeeps(s, id, reply); }
  }

  // A stalled list stays as it is.

  /** The list's part of the state is left alone, and no request is reused. */
  ghost predicate LeavesList(s: State, r: State, key: Key) {
    && key in s.loads && key in r.loads && r.next >= s.next
    && r.loads[key].requestId == s.loads[key].requestId && r.loads[key].listReceived == s.loads[key].listReceived
    && forall id :: id in r.inFlight ==> (id in s.inFlight && r.inFlight[id] == s.inFlight[id]) || id >= s.next
  }

  lemma LeftStalled(s: State, r: State, key: Key)
    requires Stalled(s, key) && LeavesList(s, r, key) && s.loads[key].requestId < s.next
    ensures Stalled(r, key)
  {}

  lemma LeavesBoth(s: State, r: State, t: State, key: Key)
    requires LeavesList(s, r, key) && LeavesList(r, t, key)
    ensures LeavesList(s, t, key)
  {}

  lemma AskPinnedLeaves(s: State, asked: Key, key: Key)
    requires key in s.loads
    ensures LeavesList(s, AskPinned(s, asked), key)
  {}

  lemma AskMoreLeaves(s: State, asked: Key, key: Key)
    requires key in s.loads && s.loads[key].requestId != 0
    ensures LeavesList(s, AskMore(s, asked), key)
  {
    if asked in s.loads && s.loads[asked].requestId == 0 && !s.blocked {
      var s1 := AskList(s, asked);
      assert LeavesList(s, s1, key);
      AskPinnedLeaves(s1, asked, key);
      var s2 := if s1.loads[asked].pinnedReceived then s1 else AskPinned(s1, asked);
      hide AskList, AskPinned;
      LeavesBoth(s, s1, s2, key);
      assert LeavesList(s, Refreshed(s2), key);
    }
  }

  lemma AskDialogsLeaves(s: State, asked: Key, key: Key)
    requires key in s.loads && s.loads[key].requestId != 0
    ensures LeavesList(s, AskDialogs(s, asked), key)
  {
    hide AskMore;
    AskMoreLeaves(s, asked, key);
    if asked.Some? && asked !in s.loads {
      var s1 := s.(loads := s.loads[asked := FRESH], born := s.born[asked := Born(s, asked) + 1]);
      AskMoreLeaves(s1, asked, key);
      assert LeavesList(s, s1, key);
      LeavesBoth(s, s1, AskMore(s1, asked), key);
    }
  }

  lemma AskIfNeededLeaves(s: State, w: World, key: Key)
    requires key in s.loads && s.loads[key].requestId != 0
    ensures LeavesList(s, AskIfNeeded(s, w), key)
  {
    AskDialogsLeaves(s, MAIN, key);
    AskMoreLeaves(s, w.archive, key);
    hide AskMore, AskDialogs;
  }

  lemma ListArrivedLeaves(s: State, id: RequestId, reply: Reply, key: Key)
    requires id in s.inFlight && s.inFlight[id].key != key && key in s.loads
    ensures var arrived := s.inFlight[id].key;
      LeavesList(s, Unblocked(ListArrived(s.(inFlight := s.inFlight - {id}), arrived, reply), arrived), key)
  {
    hide LastOffset, Moves;
  }

  /** The reply to another list. */
  lemma ListDoneLeaves(s: State, id: RequestId, reply: Reply, w: World, key: Key)
    requires id in s.inFlight && s.inFlight[id].key != key && key in s.loads && s.loads[key].requestId != 0
    ensures LeavesList(s, AfterListDone(s, id, reply, w), key)
  {
    var s1 := Unblocked(ListArrived(s.(inFlight := s.inFlight - {id}), s.inFlight[id].key, reply), s.inFlight[id].key);
    ListArrivedLeaves(s, id, reply, key);
    AskIfNeededLeaves(s1, w, key);
    hide ListArrived, Unblocked, AskIfNeeded, Refreshed;
    LeavesBoth(s, s1, AskIfNeeded(s1, w), key);
  }

  lemma NotAsked(s: State, step: Step, key: Key)
    requires Sound(s) && Enabled(s, step) && Stalled(s, key)
    ensures step.ListDone? || step.ListFail? ==> s.inFlight[step.id].key != key
  {}

  /** A list that is stalled stays stalled in every step: no later reply, request or reload gets it going again. */
  lemma StalledStays(s: State, step: Step, key: Key)
    requires Sound(s) && Enabled(s, step) && (step.ListFail? ==> s.inFlight[step.id].key in s.loads) && Stalled(s, key)
    ensures Stalled(Next(s, step), key)
  {
    NotAsked(s, step, key);
    assert s.loads[key].requestId < s.next;
    hide Sound, AskMore, AskDialogs, AfterListDone;
    match step {
      case RequestDialogs(asked) => AskDialogsLeaves(s, asked, key);
      case RequestMore(asked) => AskMoreLeaves(s, asked, key);
      case RequestPinned(asked) => AskPinnedLeaves(s, asked, key);
      case ListDone(id, reply, w) => ListDoneLeaves(s, id, reply, w, key);
      case _ => assert LeavesList(s, Next(s, step), key);
    }
    hide Next;
    LeftStalled(s, Next(s, step), key);
  }

  /** And so it does in every run. */
  lemma {:induction false} StalledForGood(s: State, steps: seq<Step>, key: Key)
    requires Sound(s) && Possible(s, steps) && Stalled(s, key)
    ensures Stalled(Run(s, steps), key)
    decreases |steps|
  {
    hide Sound, Stalled, Next, Enabled;
    if steps != [] {
      StepKeeps(s, steps[0]);
      StalledStays(s, steps[0], key);
      StalledForGood(Next(s, steps[0]), steps[1..], key);
    }
  }

  lemma ListDoneStalls(s: State, id: RequestId, w: World)
    requires Sound(s) && id in s.inFlight && s.inFlight[id].List?
    ensures Stalled(AfterListDone(s, id, NotModified, w), s.inFlight[id].key)
  {
    var key := s.inFlight[id].key;
    var s1 := Unblocked(s.(inFlight := s.inFlight - {id}), key);
    assert Stalled(s1, key) && s1.loads[key].requestId < s1.next;
    hide Sound, AskIfNeeded, Unblocked;
    AskIfNeededLeaves(s1, w, key);
    LeftStalled(s1, AskIfNeeded(s1, w), key);
  }

  lemma ListDoneKeeps(s: State, id: RequestId, reply: Reply, w: World)
    requires Sound(s) && id in s.inFlight && s.inFlight[id].List?
    ensures Sound(AfterListDone(s, id, reply, w))
    ensures NotStalled(s) ==> (NotStalled(AfterListDone(s, id, reply, w)) <==> !reply.NotModified?)
  {
    if reply.NotModified? {
      ListDoneStalls(s, id, w);
      assert !NotStalled(AfterListDone(s, id, reply, w));
    }
    hide Sound, NotStalled, Refreshed, AskIfNeeded, ListArrived;
    ListArrivedKeeps(s, id, reply);
    var key := s.inFlight[id].key;
    var s1 := ListArrived(s.(inFlight := s.inFlight - {id}), key, reply);
    RefreshedKeeps(s1);
    AskIfNeededKeeps(s1, w);
    AskIfNeededKeeps(Refreshed(s1), w);
  }

  lemma PinnedReplyKeeps(s: State, id: RequestId)
    requires Sound(s) && id in s.inFlight && s.inFlight[id].Pinned?
    ensures Sound(AfterPinned(s, id)) && (NotStalled(s) ==> NotStalled(AfterPinned(s, id)))
  {
    var key := s.inFlight[id].key;
    var s1 := s.(inFlight := s.inFlight - {id},
                 loads := s.loads[key := s.loads[key].(pinnedRequestId := 0, pinnedReceived := true)]);
    FinishedKeeps(s1, key);
  }

  lemma ListFailKeeps(s: State, id: RequestId)
    requires Sound(s) && Enabled(s, ListFail(id))
    ensures s.inFlight[id].key in s.loads
    ensures Sound(AfterListFail(s, id)) && (NotStalled(s) ==> NotStalled(AfterListFail(s, id)))
  {}

  lemma OtherStepsKeep(s: State, step: Step)
    requires Sound(s) && Enabled(s, step) && (step.ReloadPinned? || step.ReloadReply? || step.LoadTill?)
    ensures Sound(Next(s, step)) && (NotStalled(s) ==> NotStalled(Next(s, step)))
  {
    if step.LoadTill? {
      RefreshedKeeps(s.(till := step.till));
      assert Sound(s.(till := step.till)) && (NotStalled(s) ==> NotStalled(s.(till := step.till)));
      hide Refreshed, Sound, NotStalled;
    }
  }

  // The same steps, for the announcements.

  lemma AskMoreAnnounced(s: State, key: Key)
    requires Announced(s)
    ensures Announced(AskMore(s, key))
  {
    AskMoreLists(s, key);
    hide AskMore, Announced;
    SameAnnounced(s, AskMore(s, key));
  }

  lemma AskMoreLists(s: State, key: Key)
    ensures var r := AskMore(s, key); r.loads.Keys == s.loads.Keys && r.done == s.done && r.born == s.born
  {}

  lemma AskDialogsAnnounced(s: State, key: Key)
    requires Announced(s)
    ensures Announced(AskDialogs(s, key))
  {
    hide AskMore;
    if key.Some? && key !in s.loads {
      var r := s.(loads := s.loads[key := FRESH], born := s.born[key := Born(s, key) + 1]);
      assert Announced(r) by { assert forall k :: Born(r, k) == Born(s, k) + (if k == key then 1 else 0); }
      AskMoreAnnounced(r, key);
    } else {
      AskMoreAnnounced(s, key);
    }
  }

  lemma AskIfNeededAnnounced(s: State, w: World)
    requires Announced(s)
    ensures Announced(AskIfNeeded(s, w))
  {
    hide AskMore, AskDialogs, Announced;
    AskDialogsAnnounced(s, MAIN);
    AskMoreAnnounced(s, w.archive);
  }

  lemma ListArrivedAnnounced(s: State, key: Key, reply: Reply)
    requires Announced(s)
    ensures Announced(ListArrived(s, key, reply))
  {
    hide Announced, Finished;
    if key in s.loads {
      var r := s.(loads := s.loads[key := s.loads[key].(listReceived := true)]);
      SameAnnounced(s, r);
      FinishedAnnounces(r, key);
      if Moves(reply) { SameAnnounced(s, ListArrived(s, key, reply)); }
    }
  }

  lemma StepAnnounced(s: State, step: Step)
    requires Enabled(s, step) && (step.ListFail? ==> s.inFlight[step.id].key in s.loads) && Announced(s)
    ensures Announced(Next(s, step))
  {
    hide AskMore, AskDialogs, AskIfNeeded, ListArrived, Announced;
    match step
    case RequestDialogs(key) => AskDialogsAnnounced(s, key);
    case RequestMore(key) => AskMoreAnnounced(s, key);
    case ListDone(id, reply, w) =>
      var key := s.inFlight[id].key;
      var s0 := s.(inFlight := s.inFlight - {id});
      SameAnnounced(s, s0);
      ListArrivedAnnounced(s0, key, reply);
      var s1 := ListArrived(s0, key, reply);
      SameAnnounced(s1, Refreshed(s1));
      AskIfNeededAnnounced(s1, w);
      AskIfNeededAnnounced(Refreshed(s1), w);
    case PinnedReply(id) =>
      var key := s.inFlight[id].key;
      var s0 := s.(inFlight := s.inFlight - {id});
      if key in s.loads {
        var r := s0.(loads := s.loads[key := s.loads[key].(pinnedRequestId := 0, pinnedReceived := true)]);
        SameAnnounced(s, r);
        FinishedAnnounces(r, key);
      } else {
        SameAnnounced(s, s0);
      }
    case _ => SameAnnounced(s, Next(s, step));
  }

  lemma StepKeeps(s: State, step: Step)
    requires Sound(s) && Enabled(s, step)
    ensures (step.ListFail? ==> s.inFlight[step.id].key in s.loads) && Sound(Next(s, step))
    ensures NotStalled(s) ==> (NotStalled(Next(s, step)) <==> !SaysNotModified(step))
  {
    match step
    case RequestDialogs(key) => AskDialogsKeeps(s, key);
    case RequestMore(key) => AskMoreKeeps(s, key);
    case RequestPinned(key) => AskPinnedKeeps(s, key);
    case ListDone(id, reply, w) => ListDoneKeeps(s, id, reply, w);
    case ListFail(id) => ListFailKeeps(s, id);
    case PinnedReply(id) => PinnedReplyKeeps(s, id);
    case ReloadPinned(_) => OtherStepsKeep(s, step);
    case ReloadReply(_) => OtherStepsKeep(s, step);
    case LoadTill(_) => OtherStepsKeep(s, step);
  }

  ghost predicate Possible(s: State, steps: seq<Step>)
    decreases |steps|
  {
    steps != [] ==>
      Enabled(s, steps[0]) && (steps[0].ListFail? ==> s.inFlight[steps[0].id].key in s.loads)
      && Possible(Next(s, steps[0]), steps[1..])
  }

  ghost function Run(s: State, steps: seq<Step>): State
    requires Possible(s, steps)
    decreases |steps|
  {
    if steps == [] then s else Run(Next(s, steps[0]), steps[1..])
  }

  predicate SaysNotModified(step: Step) { step.ListDone? && step.reply.NotModified? }

  /** In every reachable state; and in a run that starts with no list stalled, one is in the end if and only if some
      reply said that nothing was modified. */
  lemma {:induction false} EveryRunKeeps(s: State, steps: seq<Step>)
    requires Sound(s) && Announced(s) && Possible(s, steps)
    ensures Sound(Run(s, steps)) && Announced(Run(s, steps))
    ensures NotStalled(s) ==> (NotStalled(Run(s, steps)) <==> forall step :: step in steps ==> !SaysNotModified(step))
    decreases |steps|
  {
    hide Sound, Announced, NotStalled, Next, Enabled, SaysNotModified;
    if steps != [] {
      var s1 := Next(s, steps[0]);
      StepKeeps(s, steps[0]);
      StepAnnounced(s, steps[0]);
      EveryRunKeeps(s1, steps[1..]);
      assert forall step :: step in steps <==> step == steps[0] || step in steps[1..];
      if !NotStalled(s1) {
        StalledAlways(s1, steps[1..]);
      }
    }
  }

  lemma StalledAlways(s: State, steps: seq<Step>)
    requires Sound(s) && Possible(s, steps) && !NotStalled(s)
    ensures !NotStalled(Run(s, steps))
  {
    var key :| key in s.loads && Stalled(s, key);
    StalledForGood(s, steps, key);
  }

  /** A list has at most one list request and one pinned request of its own in flight. */
  lemma OneOfEach(s: State, id: RequestId, other: RequestId)
    requires Sound(s) && id in s.inFlight && other in s.inFlight && s.inFlight[id].key == s.inFlight[other].key
    ensures s.inFlight[id].List? && s.inFlight[other].List? ==> id == other
    ensures s.inFlight[id].Pinned? && s.inFlight[other].Pinned? ==> id == other
  {}

  /** Asking takes no state away and announces nothing. */
  lemma AskingKeepsStates(s: State, key: Key, w: World)
    ensures s.loads.Keys <= AskMore(s, key).loads.Keys && AskMore(s, key).done == s.done
    ensures s.loads.Keys <= AskDialogs(s, key).loads.Keys && AskDialogs(s, key).done == s.done
  {}

  lemma AskIfNeededKeepsStates(s: State, w: World)
    ensures s.loads.Keys <= AskIfNeeded(s, w).loads.Keys && AskIfNeeded(s, w).done == s.done
  {
    hide AskMore, AskDialogs;
    AskingKeepsStates(s, MAIN, w);
    AskingKeepsStates(s, w.archive, w);
  }

  lemma ListArrivedGone(s: State, arrived: Key, reply: Reply, key: Key)
    requires key in s.loads && key !in ListArrived(s, arrived, reply).loads
    ensures arrived == key && s.loads[key].pinnedReceived && !reply.NotModified?
    ensures ListArrived(s, arrived, reply).done == s.done + [key]
  {}

  lemma ListDoneGone(s: State, id: RequestId, reply: Reply, w: World, key: Key)
    requires id in s.inFlight && key in s.loads && key !in AfterListDone(s, id, reply, w).loads
    ensures s.inFlight[id].key == key && s.loads[key].pinnedReceived && !reply.NotModified?
    ensures AfterListDone(s, id, reply, w).done == s.done + [key]
  {
    var s0 := s.(inFlight := s.inFlight - {id});
    var s1 := ListArrived(s0, s.inFlight[id].key, reply);
    hide ListArrived, AskIfNeeded, Refreshed;
    AskIfNeededKeepsStates(s1, w);
    AskIfNeededKeepsStates(Refreshed(s1), w);
    assert Refreshed(s1).loads == s1.loads && Refreshed(s1).done == s1.done by { RefreshedLists(s1); }
    ListArrivedGone(s0, s.inFlight[id].key, reply, key);
  }

  lemma RefreshedLists(s: State)
    ensures Refreshed(s).loads == s.loads && Refreshed(s).done == s.done
  {}

  lemma PinnedGone(s: State, id: RequestId, key: Key)
    requires id in s.inFlight && key in s.loads && key !in AfterPinned(s, id).loads
    ensures s.inFlight[id].key == key && s.loads[key].listReceived
    ensures AfterPinned(s, id).done == s.done + [key]
  {}

  /** A state goes away only by the reply that brings its second part, and that step announces it. */
  lemma GoneWithBothParts(s: State, step: Step, key: Key)
    requires Enabled(s, step) && key in s.loads
    requires (step.ListFail? ==> s.inFlight[step.id].key in s.loads) && key !in Next(s, step).loads
    ensures step.ListDone? || step.PinnedReply?
    ensures s.inFlight[step.id].key == key && Next(s, step).done == s.done + [key]
    ensures step.ListDone? ==> s.loads[key].pinnedReceived && !step.reply.NotModified?
    ensures step.PinnedReply? ==> s.loads[key].listReceived
  {
    hide AskMore, AskDialogs, AfterListDone, AfterPinned;
    match step
    case RequestDialogs(k) => AskingKeepsStates(s, k, World(true, None));
    case RequestMore(k) => AskingKeepsStates(s, k, World(true, None));
    case ListDone(id, reply, w) => ListDoneGone(s, id, reply, w, key);
    case PinnedReply(id) => PinnedGone(s, id, key);
    case _ =>
  }

  // ---- Part after part ----

  /** Every list request in flight asks for the part that its state has come to: twenty dialogs the first time, and
      five hundred after that. */
  ghost predicate Carrying(s: State) {
    forall id :: id in s.inFlight && s.inFlight[id].List? && s.inFlight[id].key in s.loads ==>
      var request := s.inFlight[id];
      && request.offset == s.loads[request.key].offset
      && request.count == if request.offset.date == 0 then 20 else 500
  }

  ghost predicate SameOffsets(s: State, r: State) {
    && (forall key :: key in s.loads && key in r.loads ==> r.loads[key].offset == s.loads[key].offset)
    && (forall key :: key in r.loads && key !in s.loads ==> r.loads[key].offset == NOWHERE)
  }

  lemma SameOffsetsBoth(s: State, r: State, t: State)
    requires SameOffsets(s, r) && SameOffsets(r, t) && s.loads.Keys <= r.loads.Keys
    ensures SameOffsets(s, t)
  {}

  lemma AskPinnedCarries(s: State, key: Key)
    requires Carrying(s)
    ensures Carrying(AskPinned(s, key)) && SameOffsets(s, AskPinned(s, key))
  {}

  lemma AskListCarries(s: State, key: Key)
    requires Carrying(s) && key in s.loads
    ensures Carrying(AskList(s, key)) && SameOffsets(s, AskList(s, key))
  {}

  lemma RefreshedCarries(s: State)
    ensures Carrying(s) ==> Carrying(Refreshed(s))
    ensures SameOffsets(s, Refreshed(s)) && Refreshed(s).loads == s.loads
  {}

  lemma AskMoreCarries(s: State, key: Key)
    requires Carrying(s)
    ensures Carrying(AskMore(s, key)) && SameOffsets(s, AskMore(s, key))
  {
    if key in s.loads && s.loads[key].requestId == 0 && !s.blocked {
      var s1 := AskList(s, key);
      AskListCarries(s, key);
      AskPinnedCarries(s1, key);
      var s2 := if s1.loads[key].pinnedReceived then s1 else AskPinned(s1, key);
      assert s.loads.Keys <= s1.loads.Keys && s1.loads.Keys <= s2.loads.Keys;
      RefreshedCarries(s2);
      hide AskList, AskPinned, Refreshed, Carrying;
    }
  }

  lemma AskDialogsCarries(s: State, key: Key)
    requires Carrying(s) && Sound(s)
    ensures Carrying(AskDialogs(s, key)) && SameOffsets(s, AskDialogs(s, key))
  {
    hide AskMore, Carrying, Sound;
    if key.Some? && key !in s.loads {
      var s1 := s.(loads := s.loads[key := FRESH], born := s.born[key := Born(s, key) + 1]);
      BirthCarries(s, key);
      AskMoreCarries(s1, key);
      SameOffsetsBoth(s, s1, AskMore(s1, key));
    } else {
      AskMoreCarries(s, key);
    }
  }

  lemma BirthCarries(s: State, key: Key)
    requires Carrying(s) && Sound(s) && key !in s.loads
    ensures var r := s.(loads := s.loads[key := FRESH], born := s.born[key := Born(s, key) + 1]);
      Carrying(r) && SameOffsets(s, r)
  {}

  lemma AskIfNeededCarries(s: State, w: World)
    requires Carrying(s) && Sound(s)
    ensures Carrying(AskIfNeeded(s, w)) && SameOffsets(s, AskIfNeeded(s, w))
  {
    AskDialogsCarries(s, MAIN);
    AskMoreCarries(s, w.archive);
    hide AskMore, AskDialogs, Carrying, Sound;
  }

  /** How far each list has come, by the replies alone: the end of the last part received for its state that has one. */
  ghost function Ends(s: State, ends: map<Key, Offset>, step: Step): map<Key, Offset>
    requires Enabled(s, step) && (step.ListFail? ==> s.inFlight[step.id].key in s.loads)
  {
    var after := if step.ListDone? && Moves(step.reply)
                 then ends[s.inFlight[step.id].key := LastOffset(step.reply.page)] else ends;
    map key | key in after && key in s.loads && key in Next(s, step).loads :: after[key]
  }

  function EndOf(ends: map<Key, Offset>, key: Key): Offset { if key in ends then ends[key] else NOWHERE }

  ghost predicate Paged(s: State, ends: map<Key, Offset>) {
    && ends.Keys <= s.loads.Keys && Carrying(s)
    && forall key :: key in s.loads ==> s.loads[key].offset == EndOf(ends, key)
  }

  lemma ListArrivedPages(s: State, id: RequestId, reply: Reply)
    requires Sound(s) && Carrying(s) && id in s.inFlight && s.inFlight[id].List?
    ensures var key, r := s.inFlight[id].key, ListArrived(s.(inFlight := s.inFlight - {id}), s.inFlight[id].key, reply);
      && Carrying(r) && r.loads.Keys <= s.loads.Keys
      && forall k :: k in r.loads ==>
           r.loads[k].offset == if k == key && Moves(reply) then LastOffset(reply.page) else s.loads[k].offset
  {
    hide LastOffset;
  }

  lemma UnblockedCarries(s: State, key: Key)
    ensures Carrying(s) ==> Carrying(Unblocked(s, key))
    ensures Unblocked(s, key).loads == s.loads && (Sound(s) ==> Sound(Unblocked(s, key)))
  {
    RefreshedCarries(s);
    RefreshedKeeps(s);
    hide Refreshed, Carrying, Sound;
  }

  lemma ListDonePages(s: State, id: RequestId, reply: Reply, w: World)
    requires Sound(s) && Carrying(s) && id in s.inFlight && s.inFlight[id].List?
    ensures var key, r := s.inFlight[id].key, AfterListDone(s, id, reply, w);
      && Carrying(r)
      && forall k :: k in r.loads ==>
           r.loads[k].offset == if k !in s.loads then NOWHERE
                                else if k == key && Moves(reply) then LastOffset(reply.page) else s.loads[k].offset
  {
    var s0, key := s.(inFlight := s.inFlight - {id}), s.inFlight[id].key;
    var s1 := ListArrived(s0, key, reply);
    ListArrivedPages(s, id, reply);
    ListArrivedKeeps(s, id, reply);
    UnblockedCarries(s1, key);
    AskIfNeededCarries(Unblocked(s1, key), w);
    AskIfNeededReturns(Unblocked(s1, key), w);
    hide ListArrived, Unblocked, AskIfNeeded, Carrying, Sound, LastOffset, NotStalled;
  }

  /** Asking where needed makes no state that was not there. */
  lemma AskIfNeededReturns(s: State, w: World)
    ensures AskIfNeeded(s, w).loads.Keys == s.loads.Keys
  {
    AskMoreLists(s, MAIN);
    AskMoreLists(s, w.archive);
    hide AskMore;
  }

  lemma PinnedPages(s: State, id: RequestId)
    requires Carrying(s) && id in s.inFlight && s.inFlight[id].Pinned?
    ensures Carrying(AfterPinned(s, id)) && SameOffsets(s, AfterPinned(s, id))
  {}

  lemma OthersPage(s: State, step: Step)
    requires Carrying(s) && Enabled(s, step) && (step.ListFail? ==> s.inFlight[step.id].key in s.loads)
    requires step.ListFail? || step.ReloadPinned? || step.ReloadReply? || step.LoadTill?
    ensures Carrying(Next(s, step)) && SameOffsets(s, Next(s, step))
  {}

  /** Every step keeps: a list has come to where the last part received for it ends, and is asked for from there on. */
  lemma StepPages(s: State, ends: map<Key, Offset>, step: Step)
    requires Sound(s) && Paged(s, ends)
    requires Enabled(s, step) && (step.ListFail? ==> s.inFlight[step.id].key in s.loads)
    ensures Paged(Next(s, step), Ends(s, ends, step))
  {
    hide AskMore, AskDialogs, AskPinned, AfterListDone, AfterPinned, LastOffset, Carrying;
    match step {
      case RequestDialogs(key) => AskDialogsCarries(s, key);
      case RequestMore(key) => AskMoreCarries(s, key);
      case RequestPinned(key) => AskPinnedCarries(s, key);
      case ListDone(id, reply, w) => ListDonePages(s, id, reply, w);
      case PinnedReply(id) => PinnedPages(s, id);
      case _ => OthersPage(s, step);
    }
    hide Sound, Next;
  }

  ghost function RunEnds(s: State, ends: map<Key, Offset>, steps: seq<Step>): map<Key, Offset>
    requires Possible(s, steps)
    decreases |steps|
  {
    if steps == [] then ends else RunEnds(Next(s, steps[0]), Ends(s, ends, steps[0]), steps[1..])
  }

  lemma {:induction false} EveryRunPages(s: State, ends: map<Key, Offset>, steps: seq<Step>)
    requires Sound(s) && Paged(s, ends) && Possible(s, steps)
    ensures Paged(Run(s, steps), RunEnds(s, ends, steps)) && Sound(Run(s, steps))
    decreases |steps|
  {
    hide Sound, Paged, Next, Enabled, Ends;
    if steps != [] {
      StepKeeps(s, steps[0]);
      StepPages(s, ends, steps[0]);
      EveryRunPages(Next(s, steps[0]), Ends(s, ends, steps[0]), steps[1..]);
    }
  }

  /** In every run from the start, every list request in flight asks for what follows the last part received for its
      state that has an end, and for the first part if there was none. */
  lemma AsksWhatFollows(steps: seq<Step>, id: RequestId)
    requires Possible(INITIAL, steps)
    requires var s := Run(INITIAL, steps); id in s.inFlight && s.inFlight[id].List?
    ensures var request, ends := Run(INITIAL, steps).inFlight[id], RunEnds(INITIAL, map[], steps);
      && request.offset == EndOf(ends, request.key)
      && request.count == if request.key in ends then 500 else 20
  {
    StartIsSound();
    EveryRunPages(INITIAL, map[], steps);
    RunEndsDated(INITIAL, map[], steps);
    hide RunEnds, Run, LastOffset;
  }

  lemma {:induction false} RunEndsDated(s: State, ends: map<Key, Offset>, steps: seq<Step>)
    requires Possible(s, steps) && forall key :: key in ends ==> ends[key].date != 0
    ensures forall key :: key in RunEnds(s, ends, steps) ==> RunEnds(s, ends, steps)[key].date != 0
    decreases |steps|
  {
    hide Next, LastOffset;
    if steps != [] {
      RunEndsDated(Next(s, steps[0]), Ends(s, ends, steps[0]), steps[1..]);
    }
  }

  /** Asking for more of a list that is idle, while loading is not blocked, puts its list request in flight, and with
      it the pinned one that it lacks. */
  lemma AskingSends(s: State, key: Key)
    requires key in s.loads && s.loads[key].requestId == 0 && !s.blocked
    ensures var r := AskMore(s, key);
      && key in r.loads && r.loads[key].requestId == s.next && s.next in r.inFlight && Lists(r.inFlight[s.next], key)
      && r.inFlight[s.next].offset == s.loads[key].offset
      && (!s.loads[key].pinnedReceived && s.loads[key].pinnedRequestId == 0 ==>
            && r.loads[key].pinnedRequestId == s.next + 1
            && s.next + 1 in r.inFlight && r.inFlight[s.next + 1] == Pinned(key))
  {}

  /** A folder that has no state yet is asked for from its beginning. */
  lemma NewFolderIsAsked(s: State, key: Key)
    requires key.Some? && key !in s.loads && !s.blocked
    ensures var r := AskDialogs(s, key);
      && key in r.loads && r.loads[key].requestId == s.next && Born(r, key) == Born(s, key) + 1
      && s.next in r.inFlight && r.inFlight[s.next] == List(key, NOWHERE, 20)
      && s.next + 1 in r.inFlight && r.inFlight[s.next + 1] == Pinned(key)
  {
    AskingSends(s.(loads := s.loads[key := FRESH], born := s.born[key := Born(s, key) + 1]), key);
  }

  // ---- Blocking by date ----

  /** Loading is blocked only while the main list waits at a date that need not be passed. */
  ghost predicate BlockedByDate(s: State) {
    s.blocked ==>
      && MAIN in s.loads && !s.loads[MAIN].listReceived && s.loads[MAIN].requestId == 0
      && 0 < s.loads[MAIN].offset.date <= s.till
  }

  lemma AskMoreBlocks(s: State, key: Key)
    requires BlockedByDate(s)
    ensures BlockedByDate(AskMore(s, key)) && (s.blocked ==> AskMore(s, key) == s)
  {}

  lemma AskIfNeededBlocks(s: State, w: World)
    requires BlockedByDate(s)
    ensures BlockedByDate(AskIfNeeded(s, w))
  {
    AskMoreBlocks(s, MAIN);
    AskMoreBlocks(s, w.archive);
    hide AskMore;
  }

  lemma StepBlocks(s: State, step: Step)
    requires Sound(s) && BlockedByDate(s)
    requires Enabled(s, step) && (step.ListFail? ==> s.inFlight[step.id].key in s.loads)
    ensures BlockedByDate(Next(s, step))
  {
    hide AskMore, AskIfNeeded, ListArrived, LastOffset;
    match step {
      case RequestDialogs(key) =>
        var s1 := if key.Some? && key !in s.loads
                  then s.(loads := s.loads[key := FRESH], born := s.born[key := Born(s, key) + 1]) else s;
        AskMoreBlocks(s1, key);
      case RequestMore(key) => AskMoreBlocks(s, key);
      case ListDone(id, reply, w) =>
        var s0, key := s.(inFlight := s.inFlight - {id}), s.inFlight[id].key;
        ListArrivedBlocks(s, id, reply);
        AskIfNeededBlocks(Unblocked(ListArrived(s0, key, reply), key), w);
      case PinnedReply(id) => PinnedBlocks(s, id);
      case _ =>
    }
  }

  lemma PinnedBlocks(s: State, id: RequestId)
    requires Sound(s) && BlockedByDate(s) && id in s.inFlight && s.inFlight[id].Pinned?
    ensures BlockedByDate(AfterPinned(s, id))
  {}

  lemma ListArrivedBlocks(s: State, id: RequestId, reply: Reply)
    requires Sound(s) && BlockedByDate(s) && id in s.inFlight && s.inFlight[id].List?
    ensures var s1 := ListArrived(s.(inFlight := s.inFlight - {id}), s.inFlight[id].key, reply);
      BlockedByDate(Unblocked(s1, s.inFlight[id].key))
  {
    hide LastOffset;
  }

  lemma {:induction false} EveryRunBlocksByDate(s: State, steps: seq<Step>)
    requires Sound(s) && BlockedByDate(s) && Possible(s, steps)
    ensures BlockedByDate(Run(s, steps))
    decreases |steps|
  {
    hide Sound, BlockedByDate, Next, Enabled;
    if steps != [] {
      StepKeeps(s, steps[0]);
      StepBlocks(s, steps[0]);
      EveryRunBlocksByDate(Next(s, steps[0]), steps[1..]);
    }
  }

  /** After a part of the main list with an end, and no exceptions to load first, either that end need not be passed,
      and loading is blocked, or the part that follows is asked for at once. */
  lemma LoadingGoesOn(s: State, id: RequestId, reply: Reply, w: World)
    requires Sound(s) && id in s.inFlight && s.inFlight[id].List? && s.inFlight[id].key == MAIN
    requires Moves(reply) && !w.loadsExceptions
    ensures var r, end := AfterListDone(s, id, reply, w), LastOffset(reply.page);
      MAIN in r.loads &&
      if 0 < end.date <= s.till then r.blocked && r.loads[MAIN].requestId == 0
      else
        var next := r.loads[MAIN].requestId;
        next == s.next && next in r.inFlight && r.inFlight[next] == List(MAIN, end, 500)
  {
    var s1 := Unblocked(ListArrived(s.(inFlight := s.inFlight - {id}), MAIN, reply), MAIN);
    assert MAIN in s1.loads && s1.loads[MAIN].requestId == 0 && s1.loads[MAIN].offset == LastOffset(reply.page);
    assert !s1.loads[MAIN].listReceived && s1.next == s.next;
    assert s1.blocked <==> 0 < LastOffset(reply.page).date <= s.till;
    hide Sound, LastOffset, Unblocked, ListArrived;
    if !s1.blocked {
      AskingSends(s1, MAIN);
    }
  }

  /** Once the main list is complete, more of the archive is asked for where it is needed. */
  lemma ArchiveFollows(s: State, w: World)
    requires !w.loadsExceptions && (MAIN in s.loads ==> s.loads[MAIN].listReceived) && !s.blocked
    requires w.archive.Some? && w.archive in s.loads && s.loads[w.archive].requestId == 0
    ensures var r := AskIfNeeded(s, w); s.next in r.inFlight && Lists(r.inFlight[s.next], w.archive)
  {
    AskingSends(s, w.archive);
  }

  // ---- The methods ----

  /** The states of all lists: the main one, and those of the folders. */
  ghost function LoadsOf(main: Option<Load>, folders: map<Folder, Load>): (loads: map<Key, Load>)
    ensures forall key :: key in loads <==> if key == MAIN then main.Some? else key.value in folders
    ensures forall key :: key in loads ==> loads[key] == if key == MAIN then main.value else folders[key.value]
  {
    var keys := set folder | folder in folders :: Some(folder);
    assert forall key: Key :: key.Some? ==> key == Some(key.value) && (key in keys <==> key.value in folders);
    map key | key in keys + (if main.Some? then {MAIN} else {}) ::
      if key == MAIN then main.value else folders[key.value]
  }

  class ApiDialogs {
    var dialogsLoadState: Option<Load>
    var foldersLoadState: map<Folder, Load>
    var dialogsLoadTill: int
    var dialogsLoadBlockedByDate: bool
    var pinnedDialogsReloads: set<Key>
    // The network's side, and the notifications.
    var inFlight: map<RequestId, Request>
    var nextId: RequestId
    var done: seq<Key>
    ghost var born: map<Key, nat>

    ghost function Loads(): map<Key, Load>
      reads this
    {
      LoadsOf(dialogsLoadState, foldersLoadState)
    }

    ghost function Abs(): State
      reads this
    {
      State(Loads(), dialogsLoadTill, dialogsLoadBlockedByDate, pinnedDialogsReloads, inFlight, nextId, done, born)
    }

    constructor ()
      ensures Abs() == INITIAL
    {
      dialogsLoadState, foldersLoadState, dialogsLoadTill := Some(FRESH), map[], 0;
      dialogsLoadBlockedByDate, pinnedDialogsReloads := false, {};
      inFlight, nextId, done, born := map[], 1, [], map[MAIN := 1];
      new;
      assert Loads() == map[MAIN := FRESH];
    }

    method DialogsLoadState(folder: Key) returns (state: Option<Load>)
      ensures state.Some? <==> folder in Loads()
      ensures state.Some? ==> state.value == Loads()[folder]
    {
      if folder.None? { return dialogsLoadState; }
      if folder.value in foldersLoadState { return Some(foldersLoadState[folder.value]); }
      return None;
    }

    /** The writes to the state that `dialogsLoadState` gives access to. */
    method StoreState(folder: Key, state: Load)
      modifies this`dialogsLoadState, this`foldersLoadState
      ensures Abs() == old(Abs()).(loads := old(Loads())[folder := state])
    {
      hide LoadsOf;
      if folder.None? {
        dialogsLoadState := Some(state);
      } else {
        foldersLoadState := foldersLoadState[folder.value := state];
      }
      assert Loads() == old(Loads())[folder := state];
    }

    method RemoveState(folder: Key)
      modifies this`dialogsLoadState, this`foldersLoadState
      ensures Abs() == old(Abs()).(loads := old(Loads()) - {folder})
    {
      hide LoadsOf;
      if folder.None? {
        dialogsLoadState := None;
      } else {
        foldersLoadState := foldersLoadState - {folder.value};
      }
      assert Loads() == old(Loads()) - {folder};
    }

    method Send(request: Request) returns (id: RequestId)
      modifies this`inFlight, this`nextId
      ensures id == old(nextId) && Abs() == old(Abs()).(inFlight := old(inFlight)[id := request], next := id + 1)
    {
      id := nextId;
      inFlight := inFlight[id := request];
      nextId := nextId + 1;
    }

    method RefreshDialogsLoadBlocked()
      modifies this`dialogsLoadBlockedByDate
      ensures Abs() == Refreshed(old(Abs()))
    {
      dialogsLoadBlockedByDate := dialogsLoadState.Some?
        && !dialogsLoadState.value.listReceived
        && dialogsLoadState.value.requestId == 0
        && dialogsLoadTill > 0
        && dialogsLoadState.value.offset.date > 0
        && dialogsLoadState.value.offset.date <= dialogsLoadTill;
    }

    method DialogsLoadFinish(folder: Key)
      modifies this`dialogsLoadState, this`foldersLoadState, this`done
      ensures Abs() == Finished(old(Abs()), folder)
    {
      var state := DialogsLoadState(folder);
      if state.None? || !state.value.listReceived || !state.value.pinnedReceived { return; }
      RemoveState(folder);
      done := done + [folder];
    }

    method RequestPinnedDialogs(folder: Key)
      modifies this`dialogsLoadState, this`foldersLoadState, this`inFlight, this`nextId
      ensures Abs() == AskPinned(old(Abs()), folder)
    {
      var state := DialogsLoadState(folder);
      if state.None? || state.value.pinnedReceived || state.value.pinnedRequestId != 0 { return; }
      var id := Send(Pinned(folder));
      StoreState(folder, state.value.(pinnedRequestId := id));
    }

    method RequestMoreDialogs(folder: Key)
      modifies this
      ensures Abs() == AskMore(old(Abs()), folder)
    {
      hide AskPinned, Refreshed;
      var state := DialogsLoadState(folder);
      if state.None? || state.value.requestId != 0 || dialogsLoadBlockedByDate { return; }
      var firstLoad := state.value.offset.date == 0;
      var loadCount := if firstLoad then FIRST_LOAD else PER_PAGE;
      var id := Send(List(folder, state.value.offset, loadCount));
      StoreState(folder, state.value.(requestId := id));
      assert Abs() == AskList(old(Abs()), folder);
      if !state.value.pinnedReceived {
        RequestPinnedDialogs(folder);
      }
      if folder.None? {
        RefreshDialogsLoadBlocked();
      }
    }

    method RequestDialogs(folder: Key)
      modifies this
      ensures Abs() == AskDialogs(old(Abs()), folder)
    {
      hide AskMore;
      var known := DialogsLoadState(folder);
      if folder.Some? && known.None? {
        StoreState(folder, FRESH);
        born := born[folder := (if folder in born then born[folder] else 0) + 1];
      }
      RequestMoreDialogs(folder);
    }

    method RequestMoreDialogsIfNeeded(w: World)
      modifies this
      ensures Abs() == AskIfNeeded(old(Abs()), w)
    {
      hide AskMore, AskDialogs;
      if w.loadsExceptions {
        return;
      } else if dialogsLoadState.Some? && !dialogsLoadState.value.listReceived {
        if dialogsLoadState.value.requestId != 0 { return; }
        RequestDialogs(MAIN);
      } else if w.archive.Some? {
        RequestMoreDialogs(w.archive);
      }
    }

    method UpdateDialogsOffset(folder: Key, page: Page)
      modifies this`dialogsLoadState, this`foldersLoadState, this`done
      ensures Abs() == ListArrived(old(Abs()), folder, Slice(page))
    {
      hide Finished;
      var last := FindOffset(page);
      var state := DialogsLoadState(folder);
      if state.Some? {
        if last.date != 0 {
          StoreState(folder, state.value.(offset := last, requestId := 0));
        } else {
          StoreState(folder, state.value.(listReceived := true));
          DialogsLoadFinish(folder);
        }
      }
    }

    method ReceiveList(folder: Key, reply: Reply)
      modifies this`dialogsLoadState, this`foldersLoadState, this`done
      ensures Abs() == ListArrived(old(Abs()), folder, reply)
    {
      hide Finished;
      match reply
      case NotModified =>
      case Whole =>
        var state := DialogsLoadState(folder);
        if state.Some? {
          StoreState(folder, state.value.(listReceived := true));
          DialogsLoadFinish(folder);
        }
      case Slice(page) => UpdateDialogsOffset(folder, page);
    }

    method RefreshIfMain(folder: Key)
      modifies this`dialogsLoadBlockedByDate
      ensures Abs() == Unblocked(old(Abs()), folder)
    {
      hide Refreshed;
      if folder.None? && (dialogsLoadState.None? || !dialogsLoadState.value.listReceived) {
        RefreshDialogsLoadBlocked();
      }
    }

    method OnListDone(id: RequestId, reply: Reply, w: World)
      requires id in inFlight
      modifies this
      ensures Abs() == AfterListDone(old(Abs()), id, reply, w)
    {
      hide ListArrived, AskIfNeeded, Unblocked;
      var folder := inFlight[id].key;
      inFlight := inFlight - {id};
      ReceiveList(folder, reply);
      RefreshIfMain(folder);
      RequestMoreDialogsIfNeeded(w);
    }

    /** The state is dereferenced without a check; the precondition is what every reachable state gives. */
    method OnListFail(id: RequestId)
      requires id in inFlight && inFlight[id].List? && Sound(Abs())
      modifies this
      ensures id in old(Abs()).inFlight && old(Abs()).inFlight[id].key in old(Abs()).loads
      ensures Abs() == AfterListFail(old(Abs()), id)
    {
      FailHandlerIsSafe(Abs(), id);
      hide Sound;
      var folder := inFlight[id].key;
      var state := DialogsLoadState(folder);
      inFlight := inFlight - {id};
      StoreState(folder, state.value.(requestId := 0));
    }

    method OnPinnedReply(id: RequestId)
      requires id in inFlight
      modifies this
      ensures Abs() == AfterPinned(old(Abs()), id)
    {
      hide Finished;
      var folder := inFlight[id].key;
      inFlight := inFlight - {id};
      var state := DialogsLoadState(folder);
      if state.Some? {
        StoreState(folder, state.value.(pinnedRequestId := 0, pinnedReceived := true));
        DialogsLoadFinish(folder);
      }
    }
  }
}
