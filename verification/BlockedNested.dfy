/** Blocking and unblocking when the callbacks, and those that hear of a peer or of the list, block and unblock
    themselves: small steps, with a stack of what is still to run. */
module BlockedNested {
  import opened Wrappers
  import opened BlockedPeers

  /** What is still to run: the rest of a loop over callbacks, of which one is running; the rest of the handler of a
      reply after the peer or the list was changed, while those who hear of that run; or the rest of a call after it has
      told the callbacks of the request that it supersedes. */
  datatype Frame =
    | Calling(rest: seq<Callback>, own: RequestId, success: bool)
    | PeerTold(ask: Sending, taken: Option<Entry>, now: int)
    | ListTold(taken: Option<Entry>, success: bool)
    | Resume(peer: Peer, blocking: bool, callback: Option<Callback>)

  datatype Nested = Nested(s: State, stack: seq<Frame>)

  // ---- The operations ----

  /** A loop over callbacks runs its first one, or is over. */
  function Begun(n: Nested, callbacks: seq<Callback>, own: RequestId, success: bool): Nested {
    if callbacks == [] then n
    else Nested(n.s.(called := n.s.called + [Call(callbacks[0], own, success)]),
                n.stack + [Calling(callbacks[1..], own, success)])
  }

  function Cut(s: State, i: nat): State
    requires i < |s.entries|
  {
    s.(entries := s.entries[..i] + s.entries[i + 1..])
  }

  /** The request goes out. Its entry is stored only if there is none by now; the callback joins the one there is. */
  function SendNow(s: State, peer: Peer, blocking: bool, callback: Option<Callback>): State {
    var i := Find(s.entries, peer);
    if i < |s.entries| then
      Joined(s, peer, callback).(inFlight := s.inFlight[s.next := Sending(peer, blocking)], next := s.next + 1)
    else
      s.(entries := s.entries + [Entry(peer, s.next, blocking, Asked(callback))],
         registered := s.registered + Asked(callback),
         inFlight := s.inFlight[s.next := Sending(peer, blocking)], next := s.next + 1)
  }

  function Superseding(n: Nested, peer: Peer, blocking: bool, callback: Option<Callback>): Nested {
    var i := Find(n.s.entries, peer);
    if i == |n.s.entries| then n.(s := SendNow(n.s, peer, blocking, callback))
    else if n.s.entries[i].callbacks == [] then n.(s := SendNow(Cut(n.s, i), peer, blocking, callback))
    else Begun(Nested(Cut(n.s, i), n.stack + [Resume(peer, blocking, callback)]), n.s.entries[i].callbacks,
               n.s.entries[i].id, false)
  }

  function AfterCall(n: Nested, step: Step): Nested
    requires step.Block? || step.Unblock?
  {
    var peer, blocking := step.peer, step.Block?;
    var callback := if step.Block? then None else step.callback;
    if (if step.Block? then peer in n.s.blocked else !step.force && peer !in n.s.blocked) then n
    else if AlreadySent(n.s, peer, blocking) then n.(s := Joined(n.s, peer, callback))
    else Superseding(n, peer, blocking, callback)
  }

  function CallbacksOf(taken: Option<Entry>): seq<Callback> { if taken.None? then [] else taken.value.callbacks }

  function OwnOf(taken: Option<Entry>): RequestId { if taken.None? then 0 else taken.value.id }

  /** The end of the handler of a reply: the callbacks of the entry that it has taken. */
  function Answering(n: Nested, taken: Option<Entry>, success: bool): Nested {
    Begun(n, CallbacksOf(taken), OwnOf(taken), success)
  }

  /** Before that, the list is changed and announced, if there is one. */
  function Listing(n: Nested, ask: Sending, taken: Option<Entry>, now: int): Nested {
    if n.s.slice.None? then Answering(n, taken, !ask.blocking)
    else
      var slice := if ask.blocking then WithBlocked(n.s.slice.value, ask.peer, now)
                   else WithoutBlocked(n.s.slice.value, ask.peer);
      Nested(Announced(n.s, slice), n.stack + [ListTold(taken, !ask.blocking)])
  }

  function Marked(s: State, ask: Sending): State {
    s.(blocked := if ask.blocking then s.blocked + {ask.peer} else s.blocked - {ask.peer})
  }

  /** And before that the peer, which tells only if it was not so already. */
  function Marking(n: Nested, ask: Sending, taken: Option<Entry>, now: int): Nested {
    if Marked(n.s, ask) == n.s then Listing(n, ask, taken, now)
    else Nested(Marked(n.s, ask), n.stack + [PeerTold(ask, taken, now)])
  }

  function EntryOf(s: State, peer: Peer): Option<Entry> {
    var i := Find(s.entries, peer);
    if i < |s.entries| then Some(s.entries[i]) else None
  }

  /** The state without the request and without the entry that its reply takes. */
  function Replied(s: State, id: RequestId, ok: bool): State
    requires id in s.inFlight
  {
    s.(inFlight := s.inFlight - {id}, outcomes := s.outcomes[id := ok],
       entries := CutOut(s.entries, Find(s.entries, s.inFlight[id].peer)))
  }

  function AfterAnswer(n: Nested, id: RequestId, ok: bool, now: int): Nested
    requires id in n.s.inFlight
  {
    var ask := n.s.inFlight[id];
    var taken, replied := EntryOf(n.s, ask.peer), n.(s := Replied(n.s, id, ok));
    if ok then Marking(replied, ask, taken, now) else Answering(replied, taken, false)
  }

  /** What is running returns, and what was waiting for it goes on. */
  function AfterReturn(n: Nested): Nested
    requires n.stack != []
  {
    var below := n.(stack := n.stack[..|n.stack| - 1]);
    match n.stack[|n.stack| - 1]
    case Calling(rest, own, success) => Begun(below, rest, own, success)
    case PeerTold(ask, taken, now) => Listing(below, ask, taken, now)
    case ListTold(taken, success) => Answering(below, taken, success)
    case Resume(peer, blocking, callback) => below.(s := SendNow(n.s, peer, blocking, callback))
  }

  // ---- Moves ----

  datatype Move = Do(step: Step) | Return

  /** Calls come from outside or from what is running; replies come from outside only. */
  predicate CanMove(n: Nested, move: Move) {
    match move
    case Return => n.stack != []
    case Do(step) =>
      Enabled(n.s, step)
      && (n.stack == [] || (!n.stack[|n.stack| - 1].Resume? && !step.Reply? && !step.Fetched?))
  }

  function Moved(n: Nested, move: Move): Nested
    requires CanMove(n, move)
  {
    match move
    case Return => AfterReturn(n)
    case Do(step) =>
      match step
      case Block(_) => AfterCall(n, step)
      case Unblock(_, _, _) => AfterCall(n, step)
      case Reply(id, ok, now) => AfterAnswer(n, id, ok, now)
      case _ => n.(s := Next(n.s, step))
  }

  // ---- What every run keeps ----

  /** The callbacks still to run in a frame. */
  function ToRun(frame: Frame): seq<Callback> {
    match frame
    case Calling(rest, _, _) => rest
    case PeerTold(_, taken, _) => CallbacksOf(taken)
    case ListTold(taken, _) => CallbacksOf(taken)
    case Resume(_, _, _) => []
  }

  function Pending(stack: seq<Frame>): multiset<Callback> {
    if stack == [] then multiset{} else Pending(stack[..|stack| - 1]) + multiset(ToRun(stack[|stack| - 1]))
  }

  /** Every callback stored waits in one entry, is still to run in a handler or loop that is under way, or has run,
      once. */
  ghost predicate Accounted(n: Nested) {
    multiset(n.s.registered) == Waiting(n.s.entries) + multiset(Names(n.s.called)) + Pending(n.stack)
  }

  ghost predicate Kept(n: Nested) { Accounted(n) && Tracked(n.s) && SliceSound(n.s) }

  lemma PendingPush(stack: seq<Frame>, top: Frame)
    ensures Pending(stack + [top]) == Pending(stack) + multiset(ToRun(top))
  {
    assert (stack + [top])[..|stack|] == stack;
  }

  /** A loop that begins takes its callbacks from where they waited. */
  lemma BegunAccounted(n: Nested, callbacks: seq<Callback>, own: RequestId, success: bool)
    requires multiset(n.s.registered)
          == Waiting(n.s.entries) + multiset(Names(n.s.called)) + Pending(n.stack) + multiset(callbacks)
    ensures Accounted(Begun(n, callbacks, own, success))
  {
    if callbacks != [] {
      PendingPush(n.stack, Calling(callbacks[1..], own, success));
      NamesConcat(n.s.called, [Call(callbacks[0], own, success)]);
      assert Names([Call(callbacks[0], own, success)]) == [callbacks[0]];
      assert callbacks == [callbacks[0]] + callbacks[1..];
      hide Waiting, Names, Pending;
    } else {
      assert multiset(callbacks) == multiset{};
    }
  }

  lemma BegunKeeps(n: Nested, callbacks: seq<Callback>, own: RequestId, success: bool)
    ensures var t := Begun(n, callbacks, own, success);
      t.s == n.s.(called := t.s.called) && (Tracked(n.s) ==> Tracked(t.s)) && (SliceSound(n.s) ==> SliceSound(t.s))
  {}

  lemma CutWaiting(s: State, i: nat)
    requires i < |s.entries|
    ensures Waiting(s.entries) == Waiting(Cut(s, i).entries) + multiset(s.entries[i].callbacks)
  {
    WaitingAt(s.entries, i);
    WaitingConcat(s.entries[..i], s.entries[i + 1..]);
    hide Waiting;
  }

  lemma CutTracked(s: State, i: nat)
    requires Tracked(s) && i < |s.entries|
    ensures Tracked(Cut(s, i))
    ensures forall e :: e in Cut(s, i).entries <==> e in s.entries && e.peer != s.entries[i].peer
  {
    hide DistinctPeers;
    CutMembers(s.entries, i);
    CutDistinct(s.entries, i);
  }

  lemma JoinedWaiting(s: State, peer: Peer, callback: Option<Callback>)
    requires Find(s.entries, peer) < |s.entries|
    ensures Waiting(Joined(s, peer, callback).entries) == Waiting(s.entries) + multiset(Asked(callback))
  {
    var i, t := Find(s.entries, peer), Joined(s, peer, callback);
    WaitingAt(s.entries, i);
    WaitingAt(t.entries, i);
    assert t.entries[..i] == s.entries[..i] && t.entries[i + 1..] == s.entries[i + 1..];
    hide Waiting, Find;
  }

  lemma AppendedWaiting(s: State, e: Entry)
    ensures Waiting(s.entries + [e]) == Waiting(s.entries) + multiset(e.callbacks)
  {
    WaitingConcat(s.entries, [e]);
    WaitingOne(e);
    hide Waiting;
  }

  lemma SendNowWaiting(s: State, peer: Peer, blocking: bool, callback: Option<Callback>)
    ensures var t := SendNow(s, peer, blocking, callback);
      && Waiting(t.entries) == Waiting(s.entries) + multiset(Asked(callback))
      && t.registered == s.registered + Asked(callback) && t.called == s.called
      && t.slice == s.slice && t.changes == s.changes && t.outcomes == s.outcomes
  {
    hide Waiting;
    if Find(s.entries, peer) < |s.entries| {
      JoinedWaiting(s, peer, callback);
    } else {
      AppendedWaiting(s, Entry(peer, s.next, blocking, Asked(callback)));
    }
  }

  lemma NotFound(s: State, peer: Peer)
    requires Find(s.entries, peer) == |s.entries|
    ensures forall e :: e in s.entries ==> e.peer != peer
  {
    forall e | e in s.entries ensures e.peer != peer {
      var j :| 0 <= j < |s.entries| && s.entries[j] == e;
    }
  }

  lemma SendNowTracked(s: State, peer: Peer, blocking: bool, callback: Option<Callback>)
    requires Tracked(s)
    ensures Tracked(SendNow(s, peer, blocking, callback))
  {
    if Find(s.entries, peer) < |s.entries| {
      JoinedTracked(s, peer, callback);
      hide Joined, DistinctPeers, Find;
      OneMoreTracked(Joined(s, peer, callback), Sending(peer, blocking));
    } else {
      NotFound(s, peer);
      AppendedDistinct(s.entries, Entry(peer, s.next, blocking, Asked(callback)));
      hide DistinctPeers, Find;
    }
  }

  lemma OneMoreTracked(s: State, ask: Sending)
    requires Tracked(s)
    ensures Tracked(s.(inFlight := s.inFlight[s.next := ask], next := s.next + 1))
  {
    hide DistinctPeers;
  }

  lemma SendNowKeeps(n: Nested, peer: Peer, blocking: bool, callback: Option<Callback>)
    requires Kept(n)
    ensures Kept(n.(s := SendNow(n.s, peer, blocking, callback)))
  {
    SendNowWaiting(n.s, peer, blocking, callback);
    SendNowTracked(n.s, peer, blocking, callback);
    hide SendNow, Waiting, Names, Pending, Tracked;
  }

  lemma JoinKeeps(n: Nested, peer: Peer, callback: Option<Callback>)
    requires Kept(n) && Find(n.s.entries, peer) < |n.s.entries|
    ensures Kept(n.(s := Joined(n.s, peer, callback)))
  {
    JoinedWaiting(n.s, peer, callback);
    JoinedTracked(n.s, peer, callback);
    hide Waiting, Names, Pending, Tracked, Find;
  }

  lemma CutKeeps(n: Nested, i: nat)
    requires Kept(n) && i < |n.s.entries|
    ensures Tracked(Cut(n.s, i)) && SliceSound(Cut(n.s, i))
    ensures multiset(n.s.registered) == Waiting(Cut(n.s, i).entries) + multiset(Names(n.s.called)) + Pending(n.stack)
                                        + multiset(n.s.entries[i].callbacks)
  {
    CutWaiting(n.s, i);
    CutTracked(n.s, i);
    hide Tracked, Waiting, Names, Pending;
  }

  lemma SupersedingKeeps(n: Nested, peer: Peer, blocking: bool, callback: Option<Callback>)
    requires Kept(n)
    ensures Kept(Superseding(n, peer, blocking, callback))
  {
    var i := Find(n.s.entries, peer);
    if i == |n.s.entries| {
      SendNowKeeps(n, peer, blocking, callback);
    } else {
      var e, cut := n.s.entries[i], Cut(n.s, i);
      CutKeeps(n, i);
      assert cut == n.s.(entries := cut.entries);
      hide Cut, Tracked, Waiting, Names, Pending, SendNow, SliceSound, Begun;
      if e.callbacks == [] {
        assert multiset(e.callbacks) == multiset{};
        SendNowKeeps(n.(s := cut), peer, blocking, callback);
      } else {
        ResumeKeeps(n, cut, peer, blocking, callback, e);
      }
    }
  }

  lemma ResumeKeeps(n: Nested, cut: State, peer: Peer, blocking: bool, callback: Option<Callback>, e: Entry)
    requires Tracked(cut) && SliceSound(cut) && cut == n.s.(entries := cut.entries)
    requires multiset(n.s.registered)
          == Waiting(cut.entries) + multiset(Names(n.s.called)) + Pending(n.stack) + multiset(e.callbacks)
    ensures Kept(Begun(Nested(cut, n.stack + [Resume(peer, blocking, callback)]), e.callbacks, e.id, false))
  {
    var t := Nested(cut, n.stack + [Resume(peer, blocking, callback)]);
    PendingPush(n.stack, Resume(peer, blocking, callback));
    hide Tracked, Waiting, Names, Pending, Begun;
    BegunAccounted(t, e.callbacks, e.id, false);
    BegunKeeps(t, e.callbacks, e.id, false);
  }

  /** Of a reply under way, the callbacks of the entry that it has taken are still to run. */
  ghost predicate Owing(n: Nested, taken: Option<Entry>) {
    && multiset(n.s.registered)
         == Waiting(n.s.entries) + multiset(Names(n.s.called)) + Pending(n.stack) + multiset(CallbacksOf(taken))
    && Tracked(n.s) && SliceSound(n.s)
  }

  lemma AnsweringKeeps(n: Nested, taken: Option<Entry>, success: bool)
    requires Owing(n, taken)
    ensures Kept(Answering(n, taken, success))
  {
    hide Waiting, Names, Pending, Tracked, Begun;
    BegunAccounted(n, CallbacksOf(taken), OwnOf(taken), success);
    BegunKeeps(n, CallbacksOf(taken), OwnOf(taken), success);
  }

  /** The peers blocked, the list, and who is told do not matter to the callbacks. */
  lemma ToldKeeps(n: Nested, s: State, frame: Frame, taken: Option<Entry>)
    requires Owing(n, taken) && ToRun(frame) == CallbacksOf(taken)
    requires s == n.s.(blocked := s.blocked, slice := s.slice, changes := s.changes) && SliceSound(s)
    ensures Kept(Nested(s, n.stack + [frame]))
  {
    PendingPush(n.stack, frame);
    hide Waiting, Names, Pending, ToRun, SliceSound;
  }

  lemma ListingKeeps(n: Nested, ask: Sending, taken: Option<Entry>, now: int)
    requires Owing(n, taken)
    ensures Kept(Listing(n, ask, taken, now))
  {
    if n.s.slice.None? {
      AnsweringKeeps(n, taken, !ask.blocking);
    } else {
      var t := Listing(n, ask, taken, now);
      assert SliceSound(t.s);
      hide WithoutBlocked, Owing, SliceSound, Kept;
      ToldKeeps(n, t.s, ListTold(taken, !ask.blocking), taken);
    }
  }

  lemma MarkingKeeps(n: Nested, ask: Sending, taken: Option<Entry>, now: int)
    requires Owing(n, taken)
    ensures Kept(Marking(n, ask, taken, now))
  {
    hide Listing, Kept;
    if Marked(n.s, ask) == n.s {
      ListingKeeps(n, ask, taken, now);
    } else {
      ToldKeeps(n, Marked(n.s, ask), PeerTold(ask, taken, now), taken);
    }
  }

  lemma AnswerKeeps(n: Nested, id: RequestId, ok: bool, now: int)
    requires Kept(n) && id in n.s.inFlight
    ensures Kept(AfterAnswer(n, id, ok, now))
  {
    var ask := n.s.inFlight[id];
    var taken, replied := EntryOf(n.s, ask.peer), n.(s := Replied(n.s, id, ok));
    RepliedOwes(n, id, ok);
    hide Marking, Answering, Kept, Owing, Replied;
    if ok {
      MarkingKeeps(replied, ask, taken, now);
    } else {
      AnsweringKeeps(replied, taken, false);
    }
  }

  lemma RepliedOwes(n: Nested, id: RequestId, ok: bool)
    requires Kept(n) && id in n.s.inFlight
    ensures Owing(n.(s := Replied(n.s, id, ok)), EntryOf(n.s, n.s.inFlight[id].peer))
  {
    AnswerTracked(n.s, id, ok);
    EntryWaits(n.s, n.s.inFlight[id].peer);
    hide Waiting, Names, Pending, Tracked, Find, EntryOf, CutOut;
  }

  lemma EntryWaits(s: State, peer: Peer)
    ensures Waiting(s.entries)
         == Waiting(CutOut(s.entries, Find(s.entries, peer))) + multiset(CallbacksOf(EntryOf(s, peer)))
  {
    var i := Find(s.entries, peer);
    if i < |s.entries| {
      CutWaiting(s, i);
    }
    hide Waiting, Find;
  }

  /** Once a reply has taken the entry of its peer, the others are still those of requests in flight. */
  lemma AnswerTracked(s: State, id: RequestId, ok: bool)
    requires Tracked(s) && id in s.inFlight
    ensures Tracked(Replied(s, id, ok))
  {
    var i := Find(s.entries, s.inFlight[id].peer);
    if i < |s.entries| {
      CutTracked(s, i);
    } else {
      NotFound(s, s.inFlight[id].peer);
    }
    hide DistinctPeers, Find;
    AnsweredTracked(s, id, ok, Replied(s, id, ok));
  }

  lemma ReturnKeeps(n: Nested)
    requires Kept(n) && n.stack != []
    ensures Kept(AfterReturn(n))
  {
    var below, top := n.(stack := n.stack[..|n.stack| - 1]), n.stack[|n.stack| - 1];
    assert n.stack == below.stack + [top];
    PendingPush(below.stack, top);
    hide Waiting, Names, Pending, Tracked, Listing, Answering, Begun, SendNow;
    match top
    case Calling(rest, own, success) =>
      BegunAccounted(below, rest, own, success);
      BegunKeeps(below, rest, own, success);
    case PeerTold(ask, taken, now) => ListingKeeps(below, ask, taken, now);
    case ListTold(taken, success) => AnsweringKeeps(below, taken, success);
    case Resume(peer, blocking, callback) =>
      assert multiset(ToRun(top)) == multiset{};
      SendNowKeeps(below, peer, blocking, callback);
  }

  lemma LoadKeeps(n: Nested, step: Step)
    requires Kept(n) && (step.Load? || step.Fetched?) && Enabled(n.s, step)
    ensures Kept(n.(s := Next(n.s, step)))
  {
    FetchFields(n.s, step);
    hide Next, Waiting, Names, Pending, SliceSound;
  }

  /** Every move keeps it, whatever the callbacks call while they run. */
  lemma MoveKeeps(n: Nested, move: Move)
    requires Kept(n) && CanMove(n, move)
    ensures Kept(Moved(n, move))
  {
    hide Kept, Joined, Superseding, AfterAnswer, AfterReturn, Find;
    match move
    case Return => ReturnKeeps(n);
    case Do(step) =>
      match step {
        case Reply(id, ok, now) => AnswerKeeps(n, id, ok, now);
        case Block(peer) =>
          if AlreadySent(n.s, peer, true) {
            JoinKeeps(n, peer, None);
          } else {
            SupersedingKeeps(n, peer, true, None);
          }
        case Unblock(peer, callback, _) =>
          if AlreadySent(n.s, peer, false) {
            JoinKeeps(n, peer, callback);
          } else {
            SupersedingKeeps(n, peer, false, callback);
          }
        case _ => LoadKeeps(n, step);
      }
  }

  ghost predicate CanRun(n: Nested, moves: seq<Move>)
    decreases |moves|
  {
    moves != [] ==> CanMove(n, moves[0]) && CanRun(Moved(n, moves[0]), moves[1..])
  }

  ghost function Ran(n: Nested, moves: seq<Move>): Nested
    requires CanRun(n, moves)
    decreases |moves|
  {
    if moves == [] then n else Ran(Moved(n, moves[0]), moves[1..])
  }

  lemma {:induction false} EveryNestedRunKeeps(n: Nested, moves: seq<Move>)
    requires Kept(n) && CanRun(n, moves)
    ensures Kept(Ran(n, moves))
    decreases |moves|
  {
    hide Kept, Moved, CanMove;
    if moves != [] {
      MoveKeeps(n, moves[0]);
      EveryNestedRunKeeps(Moved(n, moves[0]), moves[1..]);
    }
  }

  /** Once nothing runs and nothing is in flight, every callback has run exactly as often as it was stored. */
  lemma NestedSettled(moves: seq<Move>)
    requires CanRun(Nested(INITIAL, []), moves)
    requires var n := Ran(Nested(INITIAL, []), moves); n.stack == [] && n.s.inFlight == map[]
    ensures var n := Ran(Nested(INITIAL, []), moves); multiset(n.s.registered) == multiset(Names(n.s.called))
  {
    var n := Ran(Nested(INITIAL, []), moves);
    assert Kept(Nested(INITIAL, []));
    EveryNestedRunKeeps(Nested(INITIAL, []), moves);
    EntriesAreInFlight(n.s);
    hide Names;
  }

  lemma EntriesAreInFlight(s: State)
    requires Tracked(s)
    ensures s.entries != [] ==> s.inFlight != map[]
  {
    if s.entries != [] {
      assert s.entries[0] in s.entries;
    }
  }

  // ---- Whose answer a callback gets ----

  /** A frame tells the callbacks the outcome of their own request. */
  predicate FrameHonest(outcomes: map<RequestId, bool>, frame: Frame) {
    match frame
    case Calling(_, own, success) => own in outcomes && success == outcomes[own]
    case PeerTold(ask, taken, _) => TakenHonest(outcomes, taken, !ask.blocking)
    case ListTold(taken, success) => TakenHonest(outcomes, taken, success)
    case Resume(_, _, _) => false
  }

  predicate TakenHonest(outcomes: map<RequestId, bool>, taken: Option<Entry>, success: bool) {
    CallbacksOf(taken) != [] ==> OwnOf(taken) in outcomes && success == outcomes[OwnOf(taken)]
  }

  /** No call has superseded another, and what is under way tells the outcome of its own request. */
  ghost predicate Honest(n: Nested) {
    Unmixed(n.s) && Truthful(n.s) && forall frame :: frame in n.stack ==> FrameHonest(n.s.outcomes, frame)
  }

  lemma BegunHonest(n: Nested, callbacks: seq<Callback>, own: RequestId, success: bool)
    requires Honest(n) && (callbacks != [] ==> own in n.s.outcomes && success == n.s.outcomes[own])
    ensures Honest(Begun(n, callbacks, own, success))
  {
    if callbacks != [] {
      var t := Begun(n, callbacks, own, success);
      assert Unmixed(t.s) by { SameIdsUnmixed(n.s, t.s); }
      hide Unmixed;
    }
  }

  lemma ToldHonest(n: Nested, s: State, frame: Frame)
    requires Honest(n) && FrameHonest(n.s.outcomes, frame)
    requires s == n.s.(blocked := s.blocked, slice := s.slice, changes := s.changes)
    ensures Honest(Nested(s, n.stack + [frame]))
  {
    SameIdsUnmixed(n.s, s);
    hide Unmixed, FrameHonest;
  }

  lemma ListingHonest(n: Nested, ask: Sending, taken: Option<Entry>, now: int)
    requires Honest(n) && TakenHonest(n.s.outcomes, taken, !ask.blocking)
    ensures Honest(Listing(n, ask, taken, now))
  {
    hide Begun, Honest, WithoutBlocked;
    if n.s.slice.None? {
      BegunHonest(n, CallbacksOf(taken), OwnOf(taken), !ask.blocking);
    } else {
      ToldHonest(n, Listing(n, ask, taken, now).s, ListTold(taken, !ask.blocking));
    }
  }

  lemma MarkingHonest(n: Nested, ask: Sending, taken: Option<Entry>, now: int)
    requires Honest(n) && TakenHonest(n.s.outcomes, taken, !ask.blocking)
    ensures Honest(Marking(n, ask, taken, now))
  {
    hide Listing, Honest;
    if Marked(n.s, ask) == n.s {
      ListingHonest(n, ask, taken, now);
    } else {
      ToldHonest(n, Marked(n.s, ask), PeerTold(ask, taken, now));
    }
  }

  lemma ReturnHonest(n: Nested)
    requires Honest(n) && n.stack != []
    ensures Honest(AfterReturn(n))
  {
    var below, top := n.(stack := n.stack[..|n.stack| - 1]), n.stack[|n.stack| - 1];
    assert top in n.stack && forall frame :: frame in below.stack ==> frame in n.stack;
    assert Honest(below) && FrameHonest(n.s.outcomes, top);
    hide Honest, Begun, Listing;
    match top
    case Calling(rest, own, success) => BegunHonest(below, rest, own, success);
    case PeerTold(ask, taken, now) => ListingHonest(below, ask, taken, now);
    case ListTold(taken, success) => BegunHonest(below, CallbacksOf(taken), OwnOf(taken), success);
  }

  lemma AnswerHonest(n: Nested, id: RequestId, ok: bool, now: int)
    requires Tracked(n.s) && Honest(n) && n.stack == [] && id in n.s.inFlight
    ensures Honest(AfterAnswer(n, id, ok, now))
  {
    var s, ask := n.s, n.s.inFlight[id];
    var taken, replied := EntryOf(s, ask.peer), n.(s := Replied(s, id, ok));
    CutHonest(s, id, ok);
    assert Honest(replied);
    hide Honest, Replied, EntryOf, Begun, Marking, Tracked;
    if ok {
      MarkingHonest(replied, ask, taken, now);
    } else {
      BegunHonest(replied, CallbacksOf(taken), OwnOf(taken), false);
    }
  }

  lemma CutHonest(s: State, id: RequestId, ok: bool)
    requires Tracked(s) && Unmixed(s) && Truthful(s) && id in s.inFlight
    ensures var r := Replied(s, id, ok); Unmixed(r) && Truthful(r)
    ensures TakenHonest(Replied(s, id, ok).outcomes, EntryOf(s, s.inFlight[id].peer), ok && !s.inFlight[id].blocking)
  {
    var i, r := Find(s.entries, s.inFlight[id].peer), Replied(s, id, ok);
    OwnEntry(s, id);
    CutTracked(s, i);
    var e := s.entries[i];
    assert e in s.entries && id !in s.outcomes;
    assert e.id == id && s.inFlight[id] == Sending(e.peer, e.blocking) && (e.callbacks != [] ==> !e.blocking);
    RestUnmixed(s, id, r);
    assert forall x :: x in r.entries ==> x in s.entries;
    hide Find, Unmixed, Tracked, Truthful;
    StillTruthful(s, id, ok, r);
  }

  lemma StillTruthful(s: State, id: RequestId, ok: bool, t: State)
    requires Truthful(s) && id !in s.outcomes && t.outcomes == s.outcomes[id := ok] && t.called == s.called
    requires forall e :: e in t.entries ==> e in s.entries
    ensures Truthful(t)
  {}

  lemma CallHonest(n: Nested, step: Step)
    requires Tracked(n.s) && Honest(n) && (step.Block? || step.Unblock?) && !Supersedes(n.s, step)
    ensures Honest(AfterCall(n, step))
  {
    var peer, callback := step.peer, if step.Block? then None else step.callback;
    if (if step.Block? then peer in n.s.blocked else !step.force && peer !in n.s.blocked) {
    } else if AlreadySent(n.s, peer, step.Block?) {
      JoinedTruthful(n.s, peer, step.Block?, callback);
      SameIdsUnmixed(n.s, Joined(n.s, peer, callback));
      hide Find, Unmixed, Tracked, Truthful;
    } else {
      assert Find(n.s.entries, peer) == |n.s.entries|;
      hide Truthful, Unmixed, Tracked, Find;
      SentHonest(n, peer, step.Block?, callback);
    }
  }

  lemma SentHonest(n: Nested, peer: Peer, blocking: bool, callback: Option<Callback>)
    requires Tracked(n.s) && Honest(n) && Find(n.s.entries, peer) == |n.s.entries| && (blocking ==> callback.None?)
    ensures Honest(n.(s := SendNow(n.s, peer, blocking, callback)))
  {
    SentUnmixed(n.s, peer, blocking, callback);
    assert SendNow(n.s, peer, blocking, callback) == Sent(n.s, peer, blocking, callback);
    hide Find, Unmixed, Tracked;
  }

  lemma MoveHonest(n: Nested, move: Move)
    requires Kept(n) && Honest(n) && CanMove(n, move) && (move.Do? ==> !Supersedes(n.s, move.step))
    ensures Honest(Moved(n, move))
  {
    hide Accounted, Tracked, SliceSound, Honest, AfterCall, AfterAnswer, AfterReturn;
    match move
    case Return => ReturnHonest(n);
    case Do(step) =>
      match step {
        case Reply(id, ok, now) => AnswerHonest(n, id, ok, now);
        case Block(_) => CallHonest(n, step);
        case Unblock(_, _, _) => CallHonest(n, step);
        case _ => LoadHonest(n, step);
      }
  }

  lemma LoadHonest(n: Nested, step: Step)
    requires Honest(n) && (step.Load? || step.Fetched?) && Enabled(n.s, step)
    ensures Honest(n.(s := Next(n.s, step)))
  {
    SameIdsUnmixed(n.s, Next(n.s, step));
    hide Unmixed;
  }

  ghost predicate NoneSupersedes(n: Nested, moves: seq<Move>)
    requires CanRun(n, moves)
    decreases |moves|
  {
    moves != [] ==>
      (moves[0].Do? ==> !Supersedes(n.s, moves[0].step)) && NoneSupersedes(Moved(n, moves[0]), moves[1..])
  }

  lemma {:induction false} HonestRun(n: Nested, moves: seq<Move>)
    requires Kept(n) && Honest(n) && CanRun(n, moves) && NoneSupersedes(n, moves)
    ensures Honest(Ran(n, moves))
    decreases |moves|
  {
    hide Kept, Honest, Moved, CanMove, Supersedes;
    if moves != [] {
      MoveKeeps(n, moves[0]);
      MoveHonest(n, moves[0]);
      HonestRun(Moved(n, moves[0]), moves[1..]);
    }
  }

  /** Also with callbacks that block and unblock: in every run in which no call supersedes an opposite one, each
      callback was told the outcome of its own request. */
  lemma NestedCallersHearTheirOwn(moves: seq<Move>)
    requires CanRun(Nested(INITIAL, []), moves) && NoneSupersedes(Nested(INITIAL, []), moves)
    ensures var s := Ran(Nested(INITIAL, []), moves).s;
      forall call :: call in s.called ==> call.own in s.outcomes && call.success == s.outcomes[call.own]
  {
    HonestRun(Nested(INITIAL, []), moves);
  }

  // ---- Callbacks that do not call back ----

  function Returned(n: Nested, times: nat): Nested
    decreases times
  {
    if times == 0 || n.stack == [] then n else Returned(AfterReturn(n), times - 1)
  }

  /** A loop that is not interrupted calls all its callbacks. */
  lemma {:induction false} LoopCallsAll(n: Nested, callbacks: seq<Callback>, own: RequestId, success: bool)
    ensures Returned(Begun(n, callbacks, own, success), |callbacks|)
         == n.(s := n.s.(called := n.s.called + Calls(callbacks, own, success)))
    decreases |callbacks|
  {
    if callbacks == [] {
      assert n.s.called + Calls([], own, success) == n.s.called;
    } else {
      var first := Call(callbacks[0], own, success);
      var t := n.(s := n.s.(called := n.s.called + [first]));
      var begun := Begun(n, callbacks, own, success);
      assert begun.(stack := begun.stack[..|begun.stack| - 1]) == t;
      assert AfterReturn(begun) == Begun(t, callbacks[1..], own, success);
      LoopCallsAll(t, callbacks[1..], own, success);
      assert n.s.called + [first] + Calls(callbacks[1..], own, success) == n.s.called + Calls(callbacks, own, success);
    }
  }

  /** What is reached when what runs returns, some number of times. */
  ghost predicate Reaches(n: Nested, m: Nested) { exists k: nat :: Returned(n, k) == m }

  lemma ReachesBy(n: Nested, k: nat)
    ensures Reaches(n, Returned(n, k))
  {}

  lemma ReachesAfter(n: Nested, m: Nested)
    requires n.stack != [] && Reaches(AfterReturn(n), m)
    ensures Reaches(n, m)
  {
    var k: nat :| Returned(AfterReturn(n), k) == m;
    assert Returned(n, k + 1) == Returned(AfterReturn(n), k);
  }

  lemma AnsweringReaches(n: Nested, taken: Option<Entry>, success: bool)
    ensures Reaches(Answering(n, taken, success),
                    n.(s := n.s.(called := n.s.called + Calls(CallbacksOf(taken), OwnOf(taken), success))))
  {
    LoopCallsAll(n, CallbacksOf(taken), OwnOf(taken), success);
    ReachesBy(Answering(n, taken, success), |CallbacksOf(taken)|);
    hide Reaches, Returned, Calls, Begun;
  }

  function Listed(s: State, ask: Sending, now: int): State {
    if s.slice.None? then s
    else Announced(s, if ask.blocking then WithBlocked(s.slice.value, ask.peer, now)
                      else WithoutBlocked(s.slice.value, ask.peer))
  }

  /** The rest of a reply runs to its end: the list, and then all the callbacks. */
  lemma ListingReaches(n: Nested, ask: Sending, taken: Option<Entry>, now: int)
    ensures var s := Listed(n.s, ask, now);
      var calls := Calls(CallbacksOf(taken), OwnOf(taken), !ask.blocking);
      Reaches(Listing(n, ask, taken, now), n.(s := s.(called := n.s.called + calls)))
  {
    var t := Listing(n, ask, taken, now);
    hide WithoutBlocked, Calls, Begun, Returned, Reaches;
    AnsweringReaches(n.(s := Listed(n.s, ask, now)), taken, !ask.blocking);
    if n.s.slice.Some? {
      assert t.stack[..|t.stack| - 1] == n.stack;
      ReachesAfter(t, n.(s := t.s.(called := n.s.called + Calls(CallbacksOf(taken), OwnOf(taken), !ask.blocking))));
    }
  }

  lemma MarkingReaches(n: Nested, ask: Sending, taken: Option<Entry>, now: int)
    ensures var calls := Calls(CallbacksOf(taken), OwnOf(taken), !ask.blocking);
      Reaches(Marking(n, ask, taken, now), n.(s := Applied(n.s, ask, now).(called := n.s.called + calls)))
  {
    var t, marked := Marking(n, ask, taken, now), n.(s := Marked(n.s, ask));
    assert Applied(n.s, ask, now) == Listed(marked.s, ask, now);
    ListingReaches(marked, ask, taken, now);
    hide WithoutBlocked, Calls, Returned, Reaches, Listing, Listed, Applied;
    if marked != n {
      assert t.stack[..|t.stack| - 1] == n.stack && AfterReturn(t) == Listing(marked, ask, taken, now);
      ReachesAfter(t, n.(s := Applied(n.s, ask, now).(
                          called := n.s.called + Calls(CallbacksOf(taken), OwnOf(taken), !ask.blocking))));
    }
  }

  /** Then the small steps of a reply make up the one step of `BlockedPeers`. */
  lemma AnswerIsReply(n: Nested, id: RequestId, ok: bool, now: int)
    requires n.stack == [] && id in n.s.inFlight
    ensures Reaches(AfterAnswer(n, id, ok, now), n.(s := AfterReply(n.s, id, ok, now)))
  {
    var s, ask := n.s, n.s.inFlight[id];
    var taken, replied := EntryOf(s, ask.peer), n.(s := Replied(s, id, ok));
    ReplyIs(s, id, ok, now);
    ToldTaken(s, ask.peer, ok && !ask.blocking);
    AppliedFields(replied.s, ask, now);
    hide AfterReply, Calls, Told, Find, EntryOf, CutOut, Applied, Reaches, Marking, Begun;
    if ok {
      MarkingReaches(replied, ask, taken, now);
    } else {
      AnsweringReaches(replied, taken, false);
    }
  }

  lemma ToldTaken(s: State, peer: Peer, success: bool)
    ensures Told(s.entries, Find(s.entries, peer), success)
         == Calls(CallbacksOf(EntryOf(s, peer)), OwnOf(EntryOf(s, peer)), success)
  {
    CallsNone(0, success);
    hide Calls, Find;
  }

  lemma {:induction false} ReturnedOnce(n: Nested, k: nat)
    requires Returned(n, k).stack != []
    ensures Returned(n, k + 1) == AfterReturn(Returned(n, k))
    decreases k
  {
    if k > 0 {
      if n.stack != [] {
        ReturnedOnce(AfterReturn(n), k - 1);
      }
    } else {
      assert Returned(AfterReturn(n), 0) == AfterReturn(n);
    }
  }

  /** Nothing is left to be found once the entry is cut out. */
  lemma SendsAfterCut(s: State, peer: Peer, blocking: bool, callback: Option<Callback>, called: seq<Call>)
    requires Tracked(s) && Find(s.entries, peer) < |s.entries|
    ensures var i := Find(s.entries, peer);
      SendNow(Cut(s, i).(called := called), peer, blocking, callback)
      == Sent(s, peer, blocking, callback).(called := called)
  {
    var i := Find(s.entries, peer);
    CutTracked(s, i);
    FindsOne(Cut(s, i), peer);
    hide Find, Calls, Tracked;
  }

  lemma ReachesNext(n: Nested, m: Nested)
    requires Reaches(n, m) && m.stack != []
    ensures Reaches(n, AfterReturn(m))
  {
    var k: nat :| Returned(n, k) == m;
    ReturnedOnce(n, k);
    ReachesBy(n, k + 1);
  }

  lemma ToldIsSent(n: Nested, peer: Peer, blocking: bool, callback: Option<Callback>)
    requires Tracked(n.s) && Find(n.s.entries, peer) < |n.s.entries|
    requires n.s.entries[Find(n.s.entries, peer)].callbacks != []
    ensures Reaches(Superseding(n, peer, blocking, callback), n.(s := Sent(n.s, peer, blocking, callback)))
  {
    var s, i := n.s, Find(n.s.entries, peer);
    var e := s.entries[i];
    var told := s.called + Calls(e.callbacks, e.id, false);
    var t := Nested(Cut(s, i), n.stack + [Resume(peer, blocking, callback)]);
    SendsAfterCut(s, peer, blocking, callback, told);
    assert Sent(s, peer, blocking, callback).called == told;
    assert t.stack[..|t.stack| - 1] == n.stack;
    AnsweringReaches(t, Some(e), false);
    hide Find, Calls, Begun, Sent, SendNow, Reaches, Cut;
    ReachesNext(Superseding(n, peer, blocking, callback), t.(s := t.s.(called := told)));
  }

  /** And those of a call that supersedes another make up its one step. */
  lemma SupersedingIsSent(n: Nested, peer: Peer, blocking: bool, callback: Option<Callback>)
    requires Tracked(n.s)
    ensures Reaches(Superseding(n, peer, blocking, callback), n.(s := Sent(n.s, peer, blocking, callback)))
  {
    var s, i := n.s, Find(n.s.entries, peer);
    if i < |s.entries| && s.entries[i].callbacks != [] {
      ToldIsSent(n, peer, blocking, callback);
    } else {
      if i < |s.entries| {
        SendsAfterCut(s, peer, blocking, callback, s.called);
        assert s.called + Calls([], s.entries[i].id, false) == s.called;
      }
      assert Superseding(n, peer, blocking, callback) == n.(s := Sent(s, peer, blocking, callback));
      ReachesBy(n.(s := Sent(s, peer, blocking, callback)), 0);
    }
  }

  lemma FindsOne(s: State, peer: Peer)
    ensures Find(s.entries, peer) < |s.entries| ==> exists e :: e in s.entries && e.peer == peer
  {
    var i := Find(s.entries, peer);
    if i < |s.entries| {
      assert s.entries[i] in s.entries;
    }
  }

  // ---- A call that stores its entry before the call around it does ----

  const ASKED := INITIAL.(entries := [Entry(7, 1, false, [0])], inFlight := map[1 := Sending(7, false)], next := 2,
                          registered := [0])
  const TELLING := ASKED.(entries := [], called := [Call(0, 1, false)])
  const INNER := TELLING.(entries := [Entry(7, 2, false, [1])], next := 3, registered := [0, 1],
                          inFlight := map[1 := Sending(7, false), 2 := Sending(7, false)])
  const OUTER := INNER.(next := 4, inFlight := INNER.inFlight[3 := Sending(7, true)])

  const WAITS := Resume(7, true, None)
  const CALLS := Calling([], 1, false)

  lemma OuterSupersedes()
    ensures Moved(Nested(INITIAL, []), Do(Unblock(7, Some(0), true))) == Nested(ASKED, [])
    ensures Moved(Nested(ASKED, []), Do(Block(7))) == Nested(TELLING, [WAITS, CALLS])
  {
    assert Find(ASKED.entries, 7) == 0 && Cut(ASKED, 0) == ASKED.(entries := []);
    assert [0][1..] == [] && [Call(0, 1, false)] == [] + [Call(0, 1, false)] &&
      [] + [WAITS] + [CALLS] == [WAITS, CALLS];
    assert Superseding(Nested(ASKED, []), 7, true, None) == Nested(TELLING, [WAITS, CALLS]);
  }

  lemma InnerCalls()
    ensures Moved(Nested(TELLING, [WAITS, CALLS]), Do(Unblock(7, Some(1), true))) == Nested(INNER, [WAITS, CALLS])
  {}

  lemma BothReturn()
    ensures Moved(Nested(INNER, [WAITS, CALLS]), Return) == Nested(INNER, [WAITS])
    ensures Moved(Nested(INNER, [WAITS]), Return) == Nested(OUTER, [])
  {
    assert [WAITS, CALLS][..1] == [WAITS] && [WAITS][..0] == [];
    assert Find(INNER.entries, 7) == 0 && [1] + [] == [1] && [0, 1] + [] == [0, 1];
    assert INNER.entries[0 := Entry(7, 2, false, [1])] == INNER.entries;
    assert Joined(INNER, 7, None) == INNER;
  }

  /** A call to block supersedes one to unblock, whose callback unblocks once more. The inner call stores its entry,
      and the outer one, which goes out last, has none. */
  lemma InnerKeepsEntry()
    ensures var moves := [Do(Unblock(7, Some(0), true)), Do(Block(7)), Do(Unblock(7, Some(1), true)), Return, Return];
      var start := Nested(INITIAL, []);
      && CanRun(start, moves) && Ran(start, moves) == Nested(OUTER, [])
      && 3 in OUTER.inFlight && forall e :: e in OUTER.entries ==> e.id == 2
  {
    OuterSupersedes();
    InnerCalls();
    BothReturn();
    var inner := Do(Unblock(7, Some(1), true));
    hide Moved;
    RanOf(Nested(INNER, [WAITS]), Return, []);
    RanOf(Nested(INNER, [WAITS, CALLS]), Return, [Return]);
    RanOf(Nested(TELLING, [WAITS, CALLS]), inner, [Return, Return]);
    RanOf(Nested(ASKED, []), Do(Block(7)), [inner, Return, Return]);
    RanOf(Nested(INITIAL, []), Do(Unblock(7, Some(0), true)), [Do(Block(7)), inner, Return, Return]);
  }

  lemma RanOf(n: Nested, move: Move, rest: seq<Move>)
    requires CanMove(n, move) && CanRun(Moved(n, move), rest)
    ensures CanRun(n, [move] + rest) && Ran(n, [move] + rest) == Ran(Moved(n, move), rest)
  {
    assert ([move] + rest)[1..] == rest;
  }
}
