/** Blocking and unblocking peers: opposite calls supersede each other while replies are still on their way. */
module BlockedPeers {
  import opened Wrappers

  type Peer = nat
  type Callback = nat
  type RequestId = nat

  datatype Entry = Entry(peer: Peer, id: RequestId, blocking: bool, callbacks: seq<Callback>)
  datatype Sending = Sending(peer: Peer, blocking: bool)

  /** A callback that ran: `own` is the request it was stored with. */
  datatype Call = Call(callback: Callback, own: RequestId, success: bool)
  datatype Item = Item(peer: Peer, date: int)
  datatype Slice = Slice(list: seq<Item>, total: int)

  /** A request for a part of the list: for the slice kept here, or for another caller. */
  datatype Fetch = Idle | ForReload | ForCaller

  /** `registered` and `called` list the callbacks stored and the callbacks run, `outcomes` the requests answered, and
      `changes` the slices announced. */
  datatype State = State(blocked: set<Peer>, entries: seq<Entry>, inFlight: map<RequestId, Sending>, next: RequestId,
                         outcomes: map<RequestId, bool>, registered: seq<Callback>, called: seq<Call>,
                         slice: Option<Slice>, fetch: Fetch, changes: seq<Slice>)

  const INITIAL := State({}, [], map[], 1, map[], [], [], None, Idle, [])

  // ---- The slice ----

  /** A slice from a reply; a reply with the whole list counts as 0. */
  function FromReply(count: int, list: seq<Item>): Slice {
    Slice(list, if count > |list| then count else |list|)
  }

  function FindItem(list: seq<Item>, peer: Peer): (i: nat)
    ensures i <= |list| && (i < |list| ==> list[i].peer == peer) && forall j :: 0 <= j < i ==> list[j].peer != peer
  {
    if list == [] || list[0].peer == peer then 0 else 1 + FindItem(list[1..], peer)
  }

  function WithBlocked(slice: Slice, peer: Peer, now: int): Slice {
    Slice([Item(peer, now)] + slice.list, slice.total + 1)
  }

  function WithoutBlocked(slice: Slice, peer: Peer): Slice {
    var i := FindItem(slice.list, peer);
    var list := if i < |slice.list| then slice.list[..i] + slice.list[i + 1..] else slice.list;
    Slice(list, if slice.total > |list| then slice.total - 1 else slice.total)
  }

  function Announced(s: State, slice: Slice): State { s.(slice := Some(slice), changes := s.changes + [slice]) }

  // ---- The operations ----

  function Find(entries: seq<Entry>, peer: Peer): (i: nat)
    ensures i <= |entries| &&
      (i < |entries| ==> entries[i].peer == peer) && forall j :: 0 <= j < i ==> entries[j].peer != peer
  {
    if entries == [] || entries[0].peer == peer then 0 else 1 + Find(entries[1..], peer)
  }

  function Asked(callback: Option<Callback>): seq<Callback> {
    if callback.Some? then [callback.value] else []
  }

  function Calls(callbacks: seq<Callback>, own: RequestId, success: bool): seq<Call> {
    seq(|callbacks|, i requires 0 <= i < |callbacks| => Call(callbacks[i], own, success))
  }

  /** The entry goes, and its callbacks are told. */
  function Taken(s: State, i: nat, success: bool): State {
    if i >= |s.entries| then s
    else s.(entries := s.entries[..i] + s.entries[i + 1..],
            called := s.called + Calls(s.entries[i].callbacks, s.entries[i].id, success))
  }

  /** The calls of the callbacks of an entry, if there is one. */
  function Told(entries: seq<Entry>, i: nat, success: bool): seq<Call> {
    if i < |entries| then Calls(entries[i].callbacks, entries[i].id, success) else []
  }

  function CutOut(entries: seq<Entry>, i: nat): seq<Entry> {
    if i < |entries| then entries[..i] + entries[i + 1..] else entries
  }

  lemma TakenIs(s: State, i: nat, success: bool)
    ensures Taken(s, i, success)
         == s.(entries := CutOut(s.entries, i), called := s.called + Told(s.entries, i, success))
  {
    if i >= |s.entries| {
      assert s.called + [] == s.called;
    }
    hide Calls;
  }

  /** The same request is on its way. */
  predicate AlreadySent(s: State, peer: Peer, blocking: bool) {
    var i := Find(s.entries, peer);
    i < |s.entries| && s.entries[i].blocking == blocking
  }

  function Joined(s: State, peer: Peer, callback: Option<Callback>): State
    requires Find(s.entries, peer) < |s.entries|
  {
    var i := Find(s.entries, peer);
    s.(entries := s.entries[i := s.entries[i].(callbacks := s.entries[i].callbacks + Asked(callback))],
       registered := s.registered + Asked(callback))
  }

  /** An opposite request loses its entry, and the new one goes out. */
  function Sent(s: State, peer: Peer, blocking: bool, callback: Option<Callback>): State {
    var s1 := Taken(s, Find(s.entries, peer), false);
    s1.(entries := s1.entries + [Entry(peer, s.next, blocking, Asked(callback))],
        registered := s.registered + Asked(callback),
        inFlight := s.inFlight[s.next := Sending(peer, blocking)], next := s.next + 1)
  }

  function AfterBlock(s: State, peer: Peer): State {
    if peer in s.blocked then s
    else if AlreadySent(s, peer, true) then Joined(s, peer, None)
    else Sent(s, peer, true, None)
  }

  function AfterUnblock(s: State, peer: Peer, callback: Option<Callback>, force: bool): State {
    if !force && peer !in s.blocked then s
    else if AlreadySent(s, peer, false) then Joined(s, peer, callback)
    else Sent(s, peer, false, callback)
  }

  function Applied(s: State, ask: Sending, now: int): State {
    var s1 := s.(blocked := if ask.blocking then s.blocked + {ask.peer} else s.blocked - {ask.peer});
    if s.slice.None? then s1
    else Announced(s1, if ask.blocking then WithBlocked(s.slice.value, ask.peer, now)
                       else WithoutBlocked(s.slice.value, ask.peer))
  }

  /** A reply takes the entry of its peer, whichever request that belongs to. */
  function AfterReply(s: State, id: RequestId, ok: bool, now: int): State
    requires id in s.inFlight
  {
    var ask := s.inFlight[id];
    var s1 := s.(inFlight := s.inFlight - {id}, outcomes := s.outcomes[id := ok]);
    var s2 := if ok then Applied(s1, ask, now) else s1;
    Taken(s2, Find(s2.entries, ask.peer), ok && !ask.blocking)
  }

  function AfterFetch(s: State, fetch: Fetch): State {
    if s.fetch != Idle then s else s.(fetch := fetch)
  }

  function AfterFetched(s: State, ok: bool, count: int, list: seq<Item>): State {
    var s1, slice := s.(fetch := Idle), FromReply(count, list);
    if ok && s.fetch.ForReload? && s.slice != Some(slice) then Announced(s1, slice) else s1
  }

  // ---- Steps ----

  datatype Step =
    | Block(peer: Peer)
    | Unblock(peer: Peer, callback: Option<Callback>, force: bool)
    | Reply(id: RequestId, ok: bool, now: int)
    | Load(fetch: Fetch)
    | Fetched(ok: bool, count: int, list: seq<Item>)

  predicate Enabled(s: State, step: Step) {
    match step
    case Reply(id, _, _) => id in s.inFlight
    case Fetched(_, _, _) => s.fetch != Idle
    case _ => true
  }

  function Next(s: State, step: Step): State
    requires Enabled(s, step)
  {
    match step
    case Block(peer) => AfterBlock(s, peer)
    case Unblock(peer, callback, force) => AfterUnblock(s, peer, callback, force)
    case Reply(id, ok, now) => AfterReply(s, id, ok, now)
    case Load(fetch) => AfterFetch(s, fetch)
    case Fetched(ok, count, list) => AfterFetched(s, ok, count, list)
  }

  // ---- What every run keeps ----

  function Waiting(entries: seq<Entry>): multiset<Callback> {
    if entries == [] then multiset{} else multiset(entries[0].callbacks) + Waiting(entries[1..])
  }

  function Names(called: seq<Call>): seq<Callback> {
    seq(|called|, i requires 0 <= i < |called| => called[i].callback)
  }

  /** Every callback stored waits in one entry or has run, once. */
  ghost predicate Balanced(s: State) {
    multiset(s.registered) == Waiting(s.entries) + multiset(Names(s.called))
  }

  /** An entry is there only while its own request is in flight. */
  ghost predicate Tracked(s: State) {
    && (forall id :: id in s.inFlight ==> id < s.next && id !in s.outcomes)
    && (forall id :: id in s.outcomes ==> id < s.next)
    && DistinctPeers(s.entries)
    && (forall e :: e in s.entries ==> e.id in s.inFlight && s.inFlight[e.id] == Sending(e.peer, e.blocking))
  }

  /** The total covers the list, and the slice kept is the last one announced. */
  ghost predicate SliceSound(s: State) {
    s.slice.Some? ==>
      s.slice.value.total >= |s.slice.value.list| && s.changes != [] && s.changes[|s.changes| - 1] == s.slice.value
  }

  ghost predicate Inv(s: State) { Balanced(s) && Tracked(s) && SliceSound(s) }

  lemma {:induction false} WaitingConcat(a: seq<Entry>, b: seq<Entry>)
    ensures Waiting(a + b) == Waiting(a) + Waiting(b)
  {
    if a == [] {
      assert a + b == b;
    } else {
      assert (a + b)[1..] == a[1..] + b;
      WaitingConcat(a[1..], b);
    }
  }

  lemma WaitingOne(e: Entry)
    ensures Waiting([e]) == multiset(e.callbacks)
  {
    assert [e][1..] == [];
  }

  lemma WaitingAt(entries: seq<Entry>, i: nat)
    requires i < |entries|
    ensures Waiting(entries) == Waiting(entries[..i]) + multiset(entries[i].callbacks) + Waiting(entries[i + 1..])
  {
    hide Waiting;
    var a, b, c := entries[..i], [entries[i]], entries[i + 1..];
    WaitingConcat(a, b + c);
    WaitingConcat(b, c);
    WaitingOne(entries[i]);
    assert entries == a + (b + c);
  }

  lemma TakenBalances(s: State, i: nat, success: bool)
    requires Balanced(s)
    ensures Balanced(Taken(s, i, success))
  {
    if i < |s.entries| {
      WaitingAt(s.entries, i);
      WaitingConcat(s.entries[..i], s.entries[i + 1..]);
      var callbacks := s.entries[i].callbacks;
      var own := s.entries[i].id;
      NamesConcat(s.called, Calls(callbacks, own, success));
      assert Names(Calls(callbacks, own, success)) == callbacks;
      hide Waiting, Names, Calls;
    }
  }

  lemma NamesConcat(a: seq<Call>, b: seq<Call>)
    ensures Names(a + b) == Names(a) + Names(b)
  {}

  ghost predicate DistinctPeers(entries: seq<Entry>) {
    forall i, j :: 0 <= i < j < |entries| ==> entries[i].peer != entries[j].peer
  }

  lemma CutMembers(entries: seq<Entry>, i: nat)
    requires DistinctPeers(entries) && i < |entries|
    ensures forall e :: e in entries[..i] + entries[i + 1..] <==> e in entries && e.peer != entries[i].peer
  {
    var cut := entries[..i] + entries[i + 1..];
    forall j | 0 <= j < |entries| && j != i ensures entries[j] in cut {
      assert cut[if j < i then j else j - 1] == entries[j];
    }
    forall e | e in cut ensures e in entries && e.peer != entries[i].peer {
      var j :| 0 <= j < |cut| && cut[j] == e;
      assert e == entries[if j < i then j else j + 1];
    }
  }

  lemma CutDistinct(entries: seq<Entry>, i: nat)
    requires DistinctPeers(entries) && i < |entries|
    ensures DistinctPeers(entries[..i] + entries[i + 1..])
  {
    var cut := entries[..i] + entries[i + 1..];
    assert forall j :: 0 <= j < |cut| ==> cut[j] == entries[if j < i then j else j + 1];
  }

  /** The entries after one is taken: the others. */
  lemma TakenTracked(s: State, i: nat, success: bool)
    requires Tracked(s)
    ensures Tracked(Taken(s, i, success))
    ensures i < |s.entries| ==>
      forall e :: e in Taken(s, i, success).entries <==> e in s.entries && e.peer != s.entries[i].peer
  {
    hide Calls, DistinctPeers;
    if i < |s.entries| {
      CutMembers(s.entries, i);
      CutDistinct(s.entries, i);
    }
  }

  lemma NoneLeft(s: State, peer: Peer, success: bool)
    requires Tracked(s)
    ensures forall e :: e in Taken(s, Find(s.entries, peer), success).entries ==> e in s.entries && e.peer != peer
  {
    var i := Find(s.entries, peer);
    TakenTracked(s, i, success);
    if i == |s.entries| {
      forall e | e in s.entries ensures e.peer != peer {
        var j :| 0 <= j < |s.entries| && s.entries[j] == e;
      }
    }
  }

  lemma JoinedBalances(s: State, peer: Peer, callback: Option<Callback>)
    requires Balanced(s) && Find(s.entries, peer) < |s.entries|
    ensures Balanced(Joined(s, peer, callback))
  {
    var i, t := Find(s.entries, peer), Joined(s, peer, callback);
    WaitingAt(s.entries, i);
    WaitingAt(t.entries, i);
    assert t.entries[..i] == s.entries[..i] && t.entries[i + 1..] == s.entries[i + 1..];
    hide Waiting, Find, Names;
  }

  lemma JoinedTracked(s: State, peer: Peer, callback: Option<Callback>)
    requires Tracked(s) && Find(s.entries, peer) < |s.entries|
    ensures Tracked(Joined(s, peer, callback))
  {
    var t := Joined(s, peer, callback);
    hide Find;
    forall e | e in t.entries ensures e.id in t.inFlight && t.inFlight[e.id] == Sending(e.peer, e.blocking) {
      var j :| 0 <= j < |t.entries| && t.entries[j] == e;
      assert s.entries[j] in s.entries;
    }
  }

  lemma JoinedKeeps(s: State, peer: Peer, callback: Option<Callback>)
    requires Inv(s) && Find(s.entries, peer) < |s.entries|
    ensures Inv(Joined(s, peer, callback))
  {
    JoinedBalances(s, peer, callback);
    JoinedTracked(s, peer, callback);
    hide Balanced, Tracked, Find;
  }

  lemma SentBalances(s: State, peer: Peer, blocking: bool, callback: Option<Callback>)
    requires Balanced(s)
    ensures Balanced(Sent(s, peer, blocking, callback))
  {
    var i := Find(s.entries, peer);
    var s1, e := Taken(s, i, false), Entry(peer, s.next, blocking, Asked(callback));
    TakenBalances(s, i, false);
    WaitingConcat(s1.entries, [e]);
    WaitingOne(e);
    hide Waiting, Names, Find;
    assert s1.registered == s.registered;
  }

  lemma SentFields(s: State, peer: Peer, blocking: bool, callback: Option<Callback>)
    ensures var t := Sent(s, peer, blocking, callback);
      && t.entries == Taken(s, Find(s.entries, peer), false).entries + [Entry(peer, s.next, blocking, Asked(callback))]
      && t.inFlight == s.inFlight[s.next := Sending(peer, blocking)] && t.next == s.next + 1 && t.outcomes == s.outcomes
  {
    hide Find, Calls;
  }

  lemma SentTracked(s: State, peer: Peer, blocking: bool, callback: Option<Callback>)
    requires Tracked(s)
    ensures Tracked(Sent(s, peer, blocking, callback))
  {
    var i := Find(s.entries, peer);
    var s1, e := Taken(s, i, false), Entry(peer, s.next, blocking, Asked(callback));
    TakenTracked(s, i, false);
    NoneLeft(s, peer, false);
    SentFields(s, peer, blocking, callback);
    hide Find, Taken, Sent;
    AppendedDistinct(s1.entries, e);
    hide DistinctPeers;
    NextTracked(s, s1.entries, e, Sent(s, peer, blocking, callback));
  }

  lemma NextTracked(s: State, rest: seq<Entry>, e: Entry, t: State)
    requires Tracked(s) && e.id == s.next && DistinctPeers(rest + [e])
    requires forall x :: x in rest ==> x in s.entries
    requires t.entries == rest + [e] && t.inFlight == s.inFlight[s.next := Sending(e.peer, e.blocking)]
    requires t.next == s.next + 1 && t.outcomes == s.outcomes
    ensures Tracked(t)
  {
    hide DistinctPeers;
  }

  lemma AppendedDistinct(entries: seq<Entry>, e: Entry)
    requires DistinctPeers(entries) && forall x :: x in entries ==> x.peer != e.peer
    ensures DistinctPeers(entries + [e])
  {
    forall j | 0 <= j < |entries| ensures entries[j].peer != e.peer {
      assert entries[j] in entries;
    }
  }

  lemma SentKeeps(s: State, peer: Peer, blocking: bool, callback: Option<Callback>)
    requires Inv(s)
    ensures Inv(Sent(s, peer, blocking, callback))
  {
    SentBalances(s, peer, blocking, callback);
    SentTracked(s, peer, blocking, callback);
    hide Balanced, Tracked, Find, Calls;
  }

  lemma AppliedKeeps(s: State, ask: Sending, now: int)
    requires Balanced(s) && SliceSound(s)
    ensures Balanced(Applied(s, ask, now)) && SliceSound(Applied(s, ask, now))
  {}

  lemma ReplyFields(s: State, id: RequestId, ok: bool, now: int)
    requires id in s.inFlight
    ensures var ask, t := s.inFlight[id], AfterReply(s, id, ok, now);
      && t.entries == Taken(s, Find(s.entries, ask.peer), ok && !ask.blocking).entries
      && t.inFlight == s.inFlight - {id} && t.next == s.next && t.outcomes == s.outcomes[id := ok]
  {
    AppliedFields(s.(inFlight := s.inFlight - {id}, outcomes := s.outcomes[id := ok]), s.inFlight[id], now);
    hide Applied, Find, Calls;
  }

  lemma ReplyTracked(s: State, id: RequestId, ok: bool, now: int)
    requires Tracked(s) && id in s.inFlight
    ensures Tracked(AfterReply(s, id, ok, now))
  {
    var ask, t := s.inFlight[id], AfterReply(s, id, ok, now);
    var success, i := ok && !ask.blocking, Find(s.entries, ask.peer);
    hide AfterReply, Find, Taken, Calls, DistinctPeers;
    ReplyFields(s, id, ok, now);
    TakenTracked(s, i, success);
    NoneLeft(s, ask.peer, success);
    assert DistinctPeers(t.entries);
    AnsweredTracked(s, id, ok, t);
  }

  lemma AnsweredTracked(s: State, id: RequestId, ok: bool, t: State)
    requires Tracked(s) && id in s.inFlight && DistinctPeers(t.entries)
    requires t.inFlight == s.inFlight - {id} && t.next == s.next && t.outcomes == s.outcomes[id := ok]
    requires forall e :: e in t.entries ==> e in s.entries && e.peer != s.inFlight[id].peer
    ensures Tracked(t)
  {
    hide DistinctPeers;
  }

  lemma ReplyBalances(s: State, id: RequestId, ok: bool, now: int)
    requires Balanced(s) && SliceSound(s) && id in s.inFlight
    ensures Balanced(AfterReply(s, id, ok, now)) && SliceSound(AfterReply(s, id, ok, now))
  {
    var ask := s.inFlight[id];
    var s1 := s.(inFlight := s.inFlight - {id}, outcomes := s.outcomes[id := ok]);
    var s2 := if ok then Applied(s1, ask, now) else s1;
    assert Balanced(s1) && SliceSound(s1);
    hide Balanced, Applied, Find, Calls;
    AppliedKeeps(s1, ask, now);
    TakenBalances(s2, Find(s2.entries, ask.peer), ok && !ask.blocking);
  }

  lemma ReplyKeeps(s: State, id: RequestId, ok: bool, now: int)
    requires Inv(s) && id in s.inFlight
    ensures Inv(AfterReply(s, id, ok, now))
  {
    hide Balanced, Tracked, SliceSound, AfterReply;
    ReplyTracked(s, id, ok, now);
    ReplyBalances(s, id, ok, now);
  }

  lemma AppliedFields(s: State, ask: Sending, now: int)
    ensures var t := Applied(s, ask, now);
      && t.entries == s.entries && t.inFlight == s.inFlight && t.next == s.next && t.called == s.called
      && t.outcomes == s.outcomes
  {}

  lemma FetchKeeps(s: State, step: Step)
    requires Inv(s) && (step.Load? || step.Fetched?) && Enabled(s, step)
    ensures Inv(Next(s, step))
  {
    FetchFields(s, step);
    hide Next, Waiting, Names, SliceSound;
  }

  /** Loading the list touches the list only. */
  lemma FetchFields(s: State, step: Step)
    requires SliceSound(s) && (step.Load? || step.Fetched?) && Enabled(s, step)
    ensures var t := Next(s, step);
      SliceSound(t) && t == s.(fetch := t.fetch, slice := t.slice, changes := t.changes)
  {}

  lemma StepKeeps(s: State, step: Step)
    requires Inv(s) && Enabled(s, step)
    ensures Inv(Next(s, step))
  {
    hide Inv, Joined, Sent, AfterReply, Find;
    match step
    case Block(peer) =>
      if AlreadySent(s, peer, true) {
        JoinedKeeps(s, peer, None);
      } else {
        SentKeeps(s, peer, true, None);
      }
    case Unblock(peer, callback, _) =>
      if AlreadySent(s, peer, false) {
        JoinedKeeps(s, peer, callback);
      } else {
        SentKeeps(s, peer, false, callback);
      }
    case Reply(id, ok, now) => ReplyKeeps(s, id, ok, now);
    case _ => FetchKeeps(s, step);
  }

  ghost predicate Possible(s: State, steps: seq<Step>)
    decreases |steps|
  {
    steps != [] ==> Enabled(s, steps[0]) && Possible(Next(s, steps[0]), steps[1..])
  }

  ghost function Run(s: State, steps: seq<Step>): State
    requires Possible(s, steps)
    decreases |steps|
  {
    if steps == [] then s else Run(Next(s, steps[0]), steps[1..])
  }

  lemma {:induction false} EveryRunKeeps(s: State, steps: seq<Step>)
    requires Inv(s) && Possible(s, steps)
    ensures Inv(Run(s, steps))
    decreases |steps|
  {
    hide Inv, Next, Enabled;
    if steps != [] {
      StepKeeps(s, steps[0]);
      EveryRunKeeps(Next(s, steps[0]), steps[1..]);
    }
  }

  /** Once no request of a peer is in flight, none of its callbacks is left waiting; and once none at all is, every
      callback stored has run exactly as often as it was stored. */
  lemma SettledHasCalledAll(s: State, peer: Peer)
    requires Inv(s)
    ensures (forall id :: id in s.inFlight ==> s.inFlight[id].peer != peer) ==> Find(s.entries, peer) == |s.entries|
    ensures s.inFlight == map[] ==> multiset(s.registered) == multiset(Names(s.called))
  {
    var i := Find(s.entries, peer);
    assert i < |s.entries| ==> s.entries[i] in s.entries;
    assert s.entries != [] ==> s.entries[0] in s.entries;
  }

  // ---- Whose answer a callback gets ----

  /** Every request in flight still has its own entry. */
  ghost predicate Unmixed(s: State) {
    forall id :: id in s.inFlight ==> exists e :: e in s.entries && e.id == id
  }

  /** The call sends a request while the opposite one is on its way. */
  predicate Supersedes(s: State, step: Step) {
    match step
    case Block(peer) => peer !in s.blocked && AlreadySent(s, peer, false)
    case Unblock(peer, _, force) => (force || peer in s.blocked) && AlreadySent(s, peer, true)
    case _ => false
  }

  lemma SentUnmixed(s: State, peer: Peer, blocking: bool, callback: Option<Callback>)
    requires Tracked(s) && Unmixed(s)
    ensures Unmixed(Sent(s, peer, blocking, callback)) <==> Find(s.entries, peer) == |s.entries|
  {
    var i, t := Find(s.entries, peer), Sent(s, peer, blocking, callback);
    var s1 := Taken(s, i, false);
    var e := Entry(peer, s.next, blocking, Asked(callback));
    assert t.entries == s1.entries + [e];
    TakenTracked(s, i, false);
    if i == |s.entries| {
      forall id | id in t.inFlight ensures exists x :: x in t.entries && x.id == id {
        if id == s.next {
          assert e in t.entries;
        } else {
          var x :| x in s.entries && x.id == id;
          assert x in t.entries;
        }
      }
    } else {
      var lost := s.entries[i].id;
      assert s.entries[i] in s.entries && lost in t.inFlight && lost != s.next;
      forall x | x in t.entries ensures x.id != lost {
        assert x in s1.entries ==> s.inFlight[x.id].peer != peer;
      }
    }
  }

  lemma SameIdsUnmixed(s: State, t: State)
    requires Unmixed(s) && t.inFlight == s.inFlight && |t.entries| == |s.entries|
    requires forall j :: 0 <= j < |s.entries| ==> t.entries[j].id == s.entries[j].id
    ensures Unmixed(t)
  {
    forall id | id in t.inFlight ensures exists x :: x in t.entries && x.id == id {
      var x :| x in s.entries && x.id == id;
      var j :| 0 <= j < |s.entries| && s.entries[j] == x;
      assert t.entries[j] in t.entries;
    }
  }

  lemma OwnEntry(s: State, id: RequestId)
    requires Tracked(s) && Unmixed(s) && id in s.inFlight
    ensures Find(s.entries, s.inFlight[id].peer) < |s.entries|
    ensures s.entries[Find(s.entries, s.inFlight[id].peer)].id == id
  {
    var own :| own in s.entries && own.id == id;
    assert own.peer == s.inFlight[id].peer;
    FindsEntry(s.entries, own);
    hide Find;
  }

  lemma FindsEntry(entries: seq<Entry>, e: Entry)
    requires DistinctPeers(entries) && e in entries
    ensures Find(entries, e.peer) < |entries| && entries[Find(entries, e.peer)] == e
  {
    var i := Find(entries, e.peer);
    hide Find;
    var k :| 0 <= k < |entries| && entries[k] == e;
    assert i <= k && entries[i].peer == entries[k].peer;
  }

  lemma RestUnmixed(s: State, id: RequestId, t: State)
    requires Tracked(s) && Unmixed(s) && id in s.inFlight && t.inFlight == s.inFlight - {id}
    requires forall e :: e in s.entries && e.peer != s.inFlight[id].peer ==> e in t.entries
    ensures Unmixed(t)
  {
    var peer := s.inFlight[id].peer;
    OwnEntry(s, id);
    var own := s.entries[Find(s.entries, peer)];
    assert own in s.entries && own.peer == peer && own.id == id;
    hide Find;
    forall other | other in t.inFlight ensures exists x :: x in t.entries && x.id == other {
      var x :| x in s.entries && x.id == other;
      if x.peer == peer {
        OneOfPeer(s.entries, x, own);
      }
    }
  }

  lemma OneOfPeer(entries: seq<Entry>, x: Entry, y: Entry)
    requires DistinctPeers(entries) && x in entries && y in entries && x.peer == y.peer
    ensures x == y
  {
    var i :| 0 <= i < |entries| && entries[i] == x;
    var j :| 0 <= j < |entries| && entries[j] == y;
  }

  lemma ReplyUnmixed(s: State, id: RequestId, ok: bool, now: int)
    requires Tracked(s) && Unmixed(s) && id in s.inFlight
    ensures Unmixed(AfterReply(s, id, ok, now))
  {
    var ask, t := s.inFlight[id], AfterReply(s, id, ok, now);
    var success, i := ok && !ask.blocking, Find(s.entries, ask.peer);
    hide AfterReply, Taken, Unmixed, Tracked, Find;
    ReplyFields(s, id, ok, now);
    OwnEntry(s, id);
    TakenTracked(s, i, success);
    RestUnmixed(s, id, t);
  }

  /** Requests and entries match until a call supersedes the opposite one, and that call always breaks the match. */
  lemma UnmixedUntilSuperseded(s: State, step: Step)
    requires Tracked(s) && Unmixed(s) && Enabled(s, step)
    ensures Unmixed(Next(s, step)) <==> !Supersedes(s, step)
  {
    match step
    case Block(peer) =>
      if peer !in s.blocked {
        if AlreadySent(s, peer, true) {
          SameIdsUnmixed(s, AfterBlock(s, peer));
        } else {
          SentUnmixed(s, peer, true, None);
        }
      }
    case Unblock(peer, callback, force) =>
      if force || peer in s.blocked {
        if AlreadySent(s, peer, false) {
          SameIdsUnmixed(s, AfterUnblock(s, peer, callback, force));
        } else {
          SentUnmixed(s, peer, false, callback);
        }
      }
    case Reply(id, ok, now) => ReplyUnmixed(s, id, ok, now);
    case Load(fetch) => SameIdsUnmixed(s, AfterFetch(s, fetch));
    case Fetched(ok, count, list) => SameIdsUnmixed(s, AfterFetched(s, ok, count, list));
  }

  /** Nothing is stored with a request to block, and every callback that ran was told the outcome of its own request. */
  ghost predicate Truthful(s: State) {
    && (forall e :: e in s.entries && e.blocking ==> e.callbacks == [])
    && (forall call :: call in s.called ==> call.own in s.outcomes && call.success == s.outcomes[call.own])
  }

  /** While they match, a reply answers the callbacks of its own request, with its own outcome. */
  lemma OwnAnswer(s: State, id: RequestId, ok: bool, now: int)
    requires Tracked(s) && Unmixed(s) && id in s.inFlight
    ensures var i := Find(s.entries, s.inFlight[id].peer);
      && i < |s.entries| && s.entries[i].id == id && s.entries[i].blocking == s.inFlight[id].blocking
      && AfterReply(s, id, ok, now).called
           == s.called + Calls(s.entries[i].callbacks, id, ok && !s.entries[i].blocking)
  {
    OwnEntry(s, id);
    AppliedFields(s.(inFlight := s.inFlight - {id}, outcomes := s.outcomes[id := ok]), s.inFlight[id], now);
    assert s.entries[Find(s.entries, s.inFlight[id].peer)] in s.entries;
    hide Applied, Calls;
  }

  lemma ReplyTruthful(s: State, id: RequestId, ok: bool, now: int)
    requires Tracked(s) && Unmixed(s) && Truthful(s) && id in s.inFlight
    ensures Truthful(AfterReply(s, id, ok, now))
  {
    var i := Find(s.entries, s.inFlight[id].peer);
    OwnAnswer(s, id, ok, now);
    ReplyFields(s, id, ok, now);
    TakenTracked(s, i, ok && !s.inFlight[id].blocking);
    var t, own := AfterReply(s, id, ok, now), s.entries[i];
    assert own in s.entries && t.outcomes == s.outcomes[id := ok] && own.blocking == s.inFlight[id].blocking;
    assert id !in s.outcomes && forall e :: e in t.entries ==> e in s.entries;
    assert t.called == s.called + Calls(own.callbacks, id, ok && !own.blocking);
    hide AfterReply, Taken, Find, Tracked, Unmixed;
    AnsweredTruthful(s, own, id, ok, t);
  }

  lemma AnsweredTruthful(s: State, own: Entry, id: RequestId, ok: bool, t: State)
    requires Truthful(s) && own in s.entries && id !in s.outcomes && t.outcomes == s.outcomes[id := ok]
    requires t.called == s.called + Calls(own.callbacks, id, ok && !own.blocking)
    requires forall e :: e in t.entries ==> e in s.entries
    ensures Truthful(t)
  {
    forall call | call in t.called ensures call.own in t.outcomes && call.success == t.outcomes[call.own] {
      if call !in s.called {
        assert call in Calls(own.callbacks, id, ok && !own.blocking);
      }
    }
  }

  lemma JoinedTruthful(s: State, peer: Peer, blocking: bool, callback: Option<Callback>)
    requires Truthful(s) && AlreadySent(s, peer, blocking) && (blocking ==> callback.None?)
    ensures Truthful(Joined(s, peer, callback))
  {
    var t, i := Joined(s, peer, callback), Find(s.entries, peer);
    hide Find;
    forall e | e in t.entries && e.blocking ensures e.callbacks == [] {
      var j :| 0 <= j < |t.entries| && t.entries[j] == e;
      assert s.entries[j] in s.entries;
    }
  }

  /** Every step that does not supersede a request keeps both. */
  lemma TruthfulUntilSuperseded(s: State, step: Step)
    requires Tracked(s) && Unmixed(s) && Truthful(s) && Enabled(s, step) && !Supersedes(s, step)
    ensures Truthful(Next(s, step))
  {
    hide Tracked, Unmixed;
    match step
    case Block(peer) =>
      if AlreadySent(s, peer, true) {
        JoinedTruthful(s, peer, true, None);
      }
    case Unblock(peer, callback, force) =>
      if AlreadySent(s, peer, false) {
        JoinedTruthful(s, peer, false, callback);
      }
    case Reply(id, ok, now) => ReplyTruthful(s, id, ok, now);
    case _ =>
  }

  ghost predicate NeverSupersedes(s: State, steps: seq<Step>)
    requires Possible(s, steps)
    decreases |steps|
  {
    steps != [] ==> !Supersedes(s, steps[0]) && NeverSupersedes(Next(s, steps[0]), steps[1..])
  }

  ghost predicate AlwaysUnmixed(s: State, steps: seq<Step>)
    requires Possible(s, steps)
    decreases |steps|
  {
    Unmixed(s) && (steps != [] ==> AlwaysUnmixed(Next(s, steps[0]), steps[1..]))
  }

  lemma {:induction false} UnmixedRun(s: State, steps: seq<Step>)
    requires Inv(s) && Unmixed(s) && Truthful(s) && Possible(s, steps)
    ensures AlwaysUnmixed(s, steps) <==> NeverSupersedes(s, steps)
    ensures NeverSupersedes(s, steps) ==> Unmixed(Run(s, steps)) && Truthful(Run(s, steps))
    decreases |steps|
  {
    hide Balanced, Tracked, SliceSound, Unmixed, Truthful, Next, Enabled, Supersedes;
    if steps != [] {
      StepKeeps(s, steps[0]);
      UnmixedUntilSuperseded(s, steps[0]);
      var s1 := Next(s, steps[0]);
      if Unmixed(s1) {
        TruthfulUntilSuperseded(s, steps[0]);
        UnmixedRun(s1, steps[1..]);
      } else {
        assert !AlwaysUnmixed(s1, steps[1..]);
      }
    }
  }

  /** In every run in which no call supersedes an opposite one, each callback was told the outcome of its own request,
      and once nothing is in flight all of them have been told. */
  lemma EveryCallerHearsItsOwn(steps: seq<Step>)
    requires Possible(INITIAL, steps) && NeverSupersedes(INITIAL, steps)
    ensures var s := Run(INITIAL, steps);
      && (forall call :: call in s.called ==> call.own in s.outcomes && call.success == s.outcomes[call.own])
      && (s.inFlight == map[] ==> multiset(s.registered) == multiset(Names(s.called)))
  {
    UnmixedRun(INITIAL, steps);
    EveryRunKeeps(INITIAL, steps);
    SettledHasCalledAll(Run(INITIAL, steps), 0);
  }

  const ONE := INITIAL.(entries := [Entry(7, 1, true, [])], inFlight := map[1 := Sending(7, true)], next := 2)
  const TWO := ONE.(entries := [Entry(7, 2, false, [0])],
                    inFlight := map[1 := Sending(7, true), 2 := Sending(7, false)],
                    next := 3, registered := [0])
  const TOLD := TWO.(entries := [], inFlight := map[2 := Sending(7, false)], blocked := {7},
                     called := [Call(0, 2, false)], outcomes := map[1 := true])
  const OVER := TOLD.(inFlight := map[], blocked := {}, outcomes := map[1 := true, 2 := true])

  lemma Blocking()
    ensures Next(INITIAL, Block(7)) == ONE
  {}

  lemma Superseding()
    ensures Next(ONE, Unblock(7, Some(0), true)) == TWO
  {}

  lemma Misreporting()
    ensures Next(TWO, Reply(1, true, 0)) == TOLD && Next(TOLD, Reply(2, true, 0)) == OVER
  {}

  /** After a call superseded the opposite one, a callback can be told of failure although its request succeeds. */
  lemma SupersededReplyMisreports()
    ensures var steps := [Block(7), Unblock(7, Some(0), true), Reply(1, true, 0), Reply(2, true, 0)];
      Possible(INITIAL, steps) && Run(INITIAL, steps) == OVER && OVER.called == [Call(0, 2, false)] && OVER.outcomes[2]
  {
    Blocking();
    Superseding();
    Misreporting();
    assert Enabled(TWO, Reply(1, true, 0)) && Enabled(TOLD, Reply(2, true, 0));
    hide Next;
    RunOf(TOLD, Reply(2, true, 0), []);
    RunOf(TWO, Reply(1, true, 0), [Reply(2, true, 0)]);
    RunOf(ONE, Unblock(7, Some(0), true), [Reply(1, true, 0), Reply(2, true, 0)]);
    RunOf(INITIAL, Block(7), [Unblock(7, Some(0), true), Reply(1, true, 0), Reply(2, true, 0)]);
  }

  lemma RunOf(s: State, step: Step, rest: seq<Step>)
    requires Enabled(s, step) && Possible(Next(s, step), rest)
    ensures Possible(s, [step] + rest) && Run(s, [step] + rest) == Run(Next(s, step), rest)
  {
    assert ([step] + rest)[1..] == rest;
  }

  // ---- The methods ----

  class Blocked {
    var blocked: set<Peer>
    var blockRequests: seq<Entry>
    var slice: Option<Slice>
    var fetch: Fetch
    // The network's side, and what callers hear.
    var inFlight: map<RequestId, Sending>
    var nextId: RequestId
    ghost var registered: seq<Callback>
    var called: seq<Call>
    ghost var outcomes: map<RequestId, bool>
    var changes: seq<Slice>

    ghost function Abs(): State
      reads this
    {
      State(blocked, blockRequests, inFlight, nextId, outcomes, registered, called, slice, fetch, changes)
    }

    constructor ()
      ensures Abs() == INITIAL
    {
      blocked, blockRequests, slice, fetch, inFlight, nextId := {}, [], None, Idle, map[], 1;
      outcomes, registered, called, changes := map[], [], [], [];
    }

    method FindRequest(peer: Peer) returns (i: nat)
      ensures i == Find(blockRequests, peer)
    {
      hide Find;
      i := 0;
      while i < |blockRequests| && blockRequests[i].peer != peer
        invariant i <= |blockRequests| && forall j :: 0 <= j < i ==> blockRequests[j].peer != peer
      {
        i := i + 1;
      }
    }

    method Take(i: nat) returns (callbacks: seq<Callback>, own: RequestId)
      modifies this`blockRequests
      ensures blockRequests == CutOut(old(blockRequests), i)
      ensures forall success :: Calls(callbacks, own, success) == Told(old(blockRequests), i, success)
    {
      hide Calls;
      callbacks, own := [], 0;
      forall success ensures Calls([], own, success) == [] {
        CallsNone(own, success);
      }
      if i < |blockRequests| {
        callbacks, own := blockRequests[i].callbacks, blockRequests[i].id;
        blockRequests := blockRequests[..i] + blockRequests[i + 1..];
      }
    }

    method CallAll(callbacks: seq<Callback>, own: RequestId, success: bool)
      modifies this`called
      ensures called == old(called) + Calls(callbacks, own, success)
    {
      for k := 0 to |callbacks|
        invariant called == old(called) + Calls(callbacks[..k], own, success)
      {
        assert Calls(callbacks[..k + 1], own, success) ==
          Calls(callbacks[..k], own, success) + [Call(callbacks[k], own, success)];
        called := called + [Call(callbacks[k], own, success)];
      }
      assert callbacks[..|callbacks|] == callbacks;
    }

    /** Joins the same request, or takes the opposite one away. */
    method BlockAlreadySent(peer: Peer, blocking: bool, callback: Option<Callback>) returns (sent: bool)
      modifies this`blockRequests, this`called, this`registered
      ensures sent == AlreadySent(old(Abs()), peer, blocking)
      ensures Abs() == if sent then Joined(old(Abs()), peer, callback)
                       else Taken(old(Abs()), Find(old(blockRequests), peer), false)
    {
      var i := FindRequest(peer);
      if i == |blockRequests| { return false; }
      var request := blockRequests[i];
      if request.blocking == blocking {
        if callback.Some? {
          request := request.(callbacks := request.callbacks + [callback.value]);
        }
        assert request.callbacks == blockRequests[i].callbacks + Asked(callback);
        blockRequests := blockRequests[i := request];
        registered := registered + Asked(callback);
        return true;
      }
      var callbacks, own := Take(i);
      CallAll(callbacks, own, false);
      sent := false;
    }

    method SendRequest(peer: Peer, blocking: bool, callback: Option<Callback>)
      modifies this`inFlight, this`nextId, this`blockRequests, this`registered
      ensures Abs() == old(Abs()).(
        entries := old(blockRequests) + [Entry(peer, old(nextId), blocking, Asked(callback))],
        registered := old(registered) + Asked(callback),
        inFlight := old(inFlight)[old(nextId) := Sending(peer, blocking)], next := old(nextId) + 1)
    {
      var request := Entry(peer, nextId, blocking, []);
      inFlight := inFlight[nextId := Sending(peer, blocking)];
      nextId := nextId + 1;
      if callback.Some? {
        request := request.(callbacks := request.callbacks + [callback.value]);
      }
      assert request.callbacks == Asked(callback);
      blockRequests := blockRequests + [request];
      registered := registered + Asked(callback);
    }

    method BlockPeer(peer: Peer)
      modifies this
      ensures Abs() == AfterBlock(old(Abs()), peer)
    {
      hide Calls;
      if peer in blocked { return; }
      var sent := BlockAlreadySent(peer, true, None);
      if sent { return; }
      SendRequest(peer, true, None);
    }

    method UnblockPeer(peer: Peer, callback: Option<Callback>, force: bool)
      modifies this
      ensures Abs() == AfterUnblock(old(Abs()), peer, callback, force)
      ensures !force && peer !in old(blocked) ==> registered == old(registered) && called == old(called)
    {
      hide Calls;
      if !force && peer !in blocked { return; }
      var sent := BlockAlreadySent(peer, false, callback);
      if sent { return; }
      SendRequest(peer, false, callback);
    }

    method FireChanges(s: Slice)
      modifies this`slice, this`changes
      ensures Abs() == Announced(old(Abs()), s)
    {
      slice := Some(s);
      changes := changes + [s];
    }

    method EraseItem(s: Slice, peer: Peer) returns (r: Slice)
      ensures r == WithoutBlocked(s, peer)
    {
      hide FindItem;
      var list := s.list;
      var i := 0;
      while i < |list| && list[i].peer != peer
        invariant i <= |list| && forall j :: 0 <= j < i ==> list[j].peer != peer
      {
        i := i + 1;
      }
      assert i == FindItem(list, peer);
      if i < |list| {
        list := list[..i] + list[i + 1..];
      }
      r := Slice(list, if s.total > |list| then s.total - 1 else s.total);
    }

    method Apply(ask: Sending, now: int)
      modifies this`blocked, this`slice, this`changes
      ensures Abs() == Applied(old(Abs()), ask, now)
    {
      hide WithoutBlocked;
      blocked := if ask.blocking then blocked + {ask.peer} else blocked - {ask.peer};
      if slice.Some? {
        if ask.blocking {
          FireChanges(Slice([Item(ask.peer, now)] + slice.value.list, slice.value.total + 1));
        } else {
          var erased := EraseItem(slice.value, ask.peer);
          FireChanges(erased);
        }
      }
    }

    method OnReply(id: RequestId, ok: bool, now: int)
      requires id in inFlight
      modifies this
      ensures Abs() == AfterReply(old(Abs()), id, ok, now)
    {
      var ask := inFlight[id];
      inFlight, outcomes := inFlight - {id}, outcomes[id := ok];
      ReplyIs(old(Abs()), id, ok, now);
      hide Calls, Applied, AfterReply, CutOut, Told, Find;
      var i := FindRequest(ask.peer);
      var callbacks, own := Take(i);
      if ok {
        Apply(ask, now);
      }
      CallAll(callbacks, own, ok && !ask.blocking);
    }

    method RequestSlice(wanted: Fetch)
      modifies this`fetch
      ensures Abs() == AfterFetch(old(Abs()), wanted)
    {
      if fetch != Idle { return; }
      fetch := wanted;
    }

    method OnSlice(ok: bool, count: int, list: seq<Item>)
      modifies this
      ensures Abs() == AfterFetched(old(Abs()), ok, count, list)
    {
      var wanted := fetch;
      fetch := Idle;
      if ok && wanted.ForReload? {
        var received := FromReply(count, list);
        if slice.None? || slice.value != received {
          FireChanges(received);
        }
      }
    }
  }

  /** The parts of a reply in the order of the handler: its entry is taken before the reply is applied. */
  lemma ReplyIs(s: State, id: RequestId, ok: bool, now: int)
    requires id in s.inFlight
    ensures var ask := s.inFlight[id];
      var i, success := Find(s.entries, ask.peer), ok && !ask.blocking;
      var s1 := s.(inFlight := s.inFlight - {id}, outcomes := s.outcomes[id := ok], entries := CutOut(s.entries, i));
      var s2 := if ok then Applied(s1, ask, now) else s1;
      AfterReply(s, id, ok, now) == s2.(called := s2.called + Told(s.entries, i, success))
  {
    var ask := s.inFlight[id];
    var i, success := Find(s.entries, ask.peer), ok && !ask.blocking;
    var s1 := s.(inFlight := s.inFlight - {id}, outcomes := s.outcomes[id := ok]);
    AppliedApart(s1, ask, now, CutOut(s.entries, i));
    AppliedFields(s1, ask, now);
    TakenIs(if ok then Applied(s1, ask, now) else s1, i, success);
    hide Applied, Find, Calls, Taken, CutOut, Told;
  }

  /** Applying a reply and taking an entry do not touch each other. */
  lemma AppliedApart(s: State, ask: Sending, now: int, entries: seq<Entry>)
    ensures Applied(s.(entries := entries), ask, now) == Applied(s, ask, now).(entries := entries)
  {}

  lemma CallsNone(own: RequestId, success: bool)
    ensures Calls([], own, success) == []
  {}
}
