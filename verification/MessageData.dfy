/** Coalesced requests for message data: callbacks wait in the entry of their message until its request is done. */
module MessageData {
  import opened Wrappers

  type Channel = nat
  type MsgId = int
  type Callback = nat
  type RequestId = nat

  /** One entry of the tables of requests: of the table for messages outside channels, or of a channel's own. */
  datatype Entry = Entry(channel: Option<Channel>, msgId: MsgId, requestId: RequestId, callbacks: seq<Callback>)
  datatype Registration = Registration(channel: Option<Channel>, msgId: MsgId, callback: Option<Callback>)
  datatype Request = Request(channel: Option<Channel>, ids: seq<MsgId>)

  /** What a callback asks for when it runs, after so many others: it may depend on all that has happened till then. */
  type Behaviour = (nat, Callback) -> seq<Registration>

  /** `registered` and `called` list the callbacks handed in and the callbacks run; `scheduled` says that the
      delayed resolving will still happen. */
  datatype State = State(entries: seq<Entry>, scheduled: bool, inFlight: map<RequestId, Request>,
                         next: RequestId, registered: seq<Callback>, called: seq<Callback>)

  const INITIAL := State([], false, map[], 1, [], [])

  // ---- The operations ----

  function Asked(callback: Option<Callback>): seq<Callback> {
    if callback.Some? then [callback.value] else []
  }

  /** The callback joins the entry of its message; a new entry keeps its channel's messages in order. */
  function Joined(entries: seq<Entry>, r: Registration): seq<Entry> {
    if entries == [] then [Entry(r.channel, r.msgId, 0, Asked(r.callback))]
    else
      var e := entries[0];
      if e.channel != r.channel || e.msgId < r.msgId then [e] + Joined(entries[1..], r)
      else if e.msgId == r.msgId then [e.(callbacks := e.callbacks + Asked(r.callback))] + entries[1..]
      else [Entry(r.channel, r.msgId, 0, Asked(r.callback))] + entries
  }

  /** The request id of a message's entry, 0 if there is no entry. */
  function RequestOf(entries: seq<Entry>, channel: Option<Channel>, msgId: MsgId): RequestId {
    if entries == [] then 0
    else if entries[0].channel != channel || entries[0].msgId < msgId then RequestOf(entries[1..], channel, msgId)
    else if entries[0].msgId == msgId then entries[0].requestId
    else 0
  }

  predicate Before(e: Entry, r: Registration) { e.channel != r.channel || e.msgId < r.msgId }

  /** Where the entry of a message is, or belongs. */
  lemma {:induction false} JoinedAt(entries: seq<Entry>, r: Registration, i: nat)
    requires i <= |entries| && (forall j :: 0 <= j < i ==> Before(entries[j], r))
    requires i < |entries| ==> !Before(entries[i], r)
    ensures i < |entries| && entries[i].msgId == r.msgId ==>
      && RequestOf(entries, r.channel, r.msgId) == entries[i].requestId
      && (Joined(entries, r)
          == entries[..i] + [entries[i].(callbacks := entries[i].callbacks + Asked(r.callback))] + entries[i + 1..])
    ensures i == |entries| || entries[i].msgId != r.msgId ==>
      && RequestOf(entries, r.channel, r.msgId) == 0
      && Joined(entries, r) == entries[..i] + [Entry(r.channel, r.msgId, 0, Asked(r.callback))] + entries[i..]
  {
    if i > 0 {
      JoinedAt(entries[1..], r, i - 1);
      assert entries[1..][..i - 1] == entries[..i][1..];
    }
  }

  function AfterRequest(s: State, r: Registration): State {
    s.(entries := Joined(s.entries, r), registered := s.registered + Asked(r.callback),
       scheduled := s.scheduled || RequestOf(s.entries, r.channel, r.msgId) == 0)
  }

  function AfterRequests(s: State, rs: seq<Registration>): State {
    if rs == [] then s else AfterRequest(AfterRequests(s, rs[..|rs| - 1]), rs[|rs| - 1])
  }

  predicate Unasked(e: Entry, channel: Option<Channel>) { e.channel == channel && e.requestId == 0 }

  /** The messages of the channel without a request. */
  function Ids(entries: seq<Entry>, channel: Option<Channel>): seq<MsgId> {
    if entries == [] then []
    else
      var e := entries[|entries| - 1];
      Ids(entries[..|entries| - 1], channel) + (if Unasked(e, channel) then [e.msgId] else [])
  }

  function AssignedEntry(e: Entry, channel: Option<Channel>, id: RequestId): Entry {
    if Unasked(e, channel) then e.(requestId := id) else e
  }

  function Assigned(entries: seq<Entry>, channel: Option<Channel>, id: RequestId): seq<Entry> {
    seq(|entries|, i requires 0 <= i < |entries| => AssignedEntry(entries[i], channel, id))
  }

  function ResolvedOne(s: State, channel: Option<Channel>): State {
    var ids := Ids(s.entries, channel);
    if ids == [] then s
    else s.(entries := Assigned(s.entries, channel, s.next),
            inFlight := s.inFlight[s.next := Request(channel, ids)], next := s.next + 1)
  }

  /** The channels in the order of their first entries. */
  function Channels(entries: seq<Entry>): seq<Option<Channel>> {
    if entries == [] then []
    else
      var init, last := Channels(entries[..|entries| - 1]), entries[|entries| - 1].channel;
      if last in init then init else init + [last]
  }

  function ResolvedAll(s: State, channels: seq<Option<Channel>>): State {
    if channels == [] then s else ResolvedOne(ResolvedAll(s, channels[..|channels| - 1]), channels[|channels| - 1])
  }

  function AfterResolve(s: State): State {
    ResolvedAll(s.(scheduled := false), Channels(s.entries))
  }

  predicate Waits(e: Entry, channel: Option<Channel>, id: RequestId) { e.channel == channel && e.requestId == id }

  /** The callbacks of the entries that wait for a request, and the other entries. */
  function Collected(entries: seq<Entry>, channel: Option<Channel>, id: RequestId): seq<Callback> {
    if entries == [] then []
    else
      var e := entries[|entries| - 1];
      Collected(entries[..|entries| - 1], channel, id) + (if Waits(e, channel, id) then e.callbacks else [])
  }

  function Remaining(entries: seq<Entry>, channel: Option<Channel>, id: RequestId): seq<Entry> {
    if entries == [] then []
    else
      var e := entries[|entries| - 1];
      Remaining(entries[..|entries| - 1], channel, id) + (if Waits(e, channel, id) then [] else [e])
  }

  function Invoked(s: State, c: Callback, makes: Behaviour): State {
    AfterRequests(s.(called := s.called + [c]), makes(|s.called|, c))
  }

  /** Runs callbacks in order; each may register more while it runs. */
  function Called(s: State, callbacks: seq<Callback>, makes: Behaviour): State {
    if callbacks == [] then s
    else Invoked(Called(s, callbacks[..|callbacks| - 1], makes), callbacks[|callbacks| - 1], makes)
  }

  function Taken(s: State, id: RequestId): State
    requires id in s.inFlight
  {
    s.(inFlight := s.inFlight - {id}, entries := Remaining(s.entries, s.inFlight[id].channel, id))
  }

  function AfterFinalize(s: State, id: RequestId, makes: Behaviour): State
    requires id in s.inFlight
  {
    Called(Taken(s, id), Collected(s.entries, s.inFlight[id].channel, id), makes)
  }

  // ---- The accounts ----

  function Waiting(entries: seq<Entry>): multiset<Callback> {
    if entries == [] then multiset{}
    else Waiting(entries[..|entries| - 1]) + multiset(entries[|entries| - 1].callbacks)
  }

  ghost predicate Sorted(entries: seq<Entry>) {
    forall i, j :: 0 <= i < j < |entries| && entries[i].channel == entries[j].channel ==>
      entries[i].msgId < entries[j].msgId
  }

  /** Every callback handed in waits in an entry, is held to run next, or has run, each time once. */
  ghost predicate Balanced(s: State, held: multiset<Callback>) {
    multiset(s.registered) == Waiting(s.entries) + held + multiset(s.called)
  }

  /** The entry's request is in flight and carries its message. */
  ghost predicate Covered(s: State, e: Entry) {
    && e.requestId in s.inFlight && s.inFlight[e.requestId].channel == e.channel
    && e.msgId in s.inFlight[e.requestId].ids
  }

  ghost predicate Tracked(s: State) {
    && s.next > 0 && (forall id :: id in s.inFlight ==> 0 < id < s.next)
    && Sorted(s.entries)
    && (forall e :: e in s.entries && e.requestId != 0 ==> Covered(s, e))
  }

  /** Every entry's request is in flight, or resolving is scheduled. */
  ghost predicate Sound(s: State) {
    Tracked(s) && (s.scheduled || forall e :: e in s.entries ==> e.requestId != 0)
  }

  lemma {:induction false} WaitingConcat(a: seq<Entry>, b: seq<Entry>)
    ensures Waiting(a + b) == Waiting(a) + Waiting(b)
  {
    if b == [] {
      assert a + b == a;
    } else {
      assert (a + b)[..|a + b| - 1] == a + b[..|b| - 1];
      WaitingConcat(a, b[..|b| - 1]);
    }
  }

  lemma WaitingOne(e: Entry)
    ensures Waiting([e]) == multiset(e.callbacks)
  {
    assert [e][..0] == [];
  }

  /** A registration adds its callback to those waiting, and nothing else. */
  lemma {:induction false} JoinedWaits(entries: seq<Entry>, r: Registration)
    ensures Waiting(Joined(entries, r)) == Waiting(entries) + multiset(Asked(r.callback))
  {
    var fresh' := Entry(r.channel, r.msgId, 0, Asked(r.callback));
    WaitingOne(fresh');
    if entries == [] {
      return;
    }
    var e, rest := entries[0], entries[1..];
    assert entries == [e] + rest;
    WaitingConcat([e], rest);
    WaitingOne(e);
    if e.channel != r.channel || e.msgId < r.msgId {
      JoinedWaits(rest, r);
      WaitingConcat([e], Joined(rest, r));
    } else if e.msgId == r.msgId {
      var e' := e.(callbacks := e.callbacks + Asked(r.callback));
      WaitingConcat([e'], rest);
      WaitingOne(e');
    } else {
      WaitingConcat([fresh'], entries);
    }
  }

  lemma {:induction false} JoinedMembers(entries: seq<Entry>, r: Registration, e: Entry)
    requires e in Joined(entries, r)
    ensures e in entries || (Waits(e, r.channel, RequestOf(entries, r.channel, r.msgId)) && e.msgId == r.msgId)
  {
    if entries != [] && (entries[0].channel != r.channel || entries[0].msgId < r.msgId) && e != entries[0] {
      JoinedMembers(entries[1..], r, e);
    }
  }

  lemma {:induction false} JoinedSorted(entries: seq<Entry>, r: Registration)
    requires Sorted(entries)
    ensures Sorted(Joined(entries, r))
  {
    if entries == [] {
      return;
    }
    var e, rest, after := entries[0], entries[1..], Joined(entries, r);
    if e.channel != r.channel || e.msgId < r.msgId {
      var tail := Joined(rest, r);
      JoinedSorted(rest, r);
      forall j | 0 <= j < |tail| && e.channel == tail[j].channel
        ensures e.msgId < tail[j].msgId
      {
        JoinedMembers(rest, r, tail[j]);
      }
      assert after == [e] + tail;
    }
  }

  lemma {:induction false} RequestOfFound(entries: seq<Entry>, channel: Option<Channel>,
                                          msgId: MsgId) returns (e: Entry)
    requires RequestOf(entries, channel, msgId) != 0
    ensures e in entries && Waits(e, channel, RequestOf(entries, channel, msgId)) && e.msgId == msgId
  {
    if entries[0].channel != channel || entries[0].msgId < msgId {
      e := RequestOfFound(entries[1..], channel, msgId);
    } else {
      e := entries[0];
    }
  }

  lemma RequestKeeps(s: State, r: Registration)
    requires Sound(s)
    ensures Sound(AfterRequest(s, r))
  {
    var s', id := AfterRequest(s, r), RequestOf(s.entries, r.channel, r.msgId);
    JoinedSorted(s.entries, r);
    forall e | e in s'.entries
      ensures e.requestId != 0 ==> Covered(s', e)
      ensures e.requestId == 0 ==> s'.scheduled
    {
      JoinedMembers(s.entries, r, e);
      if e in s.entries {
        assert Covered(s, e) == Covered(s', e);
      } else if id != 0 {
        var found := RequestOfFound(s.entries, r.channel, r.msgId);
        assert Covered(s, found);
      }
    }
  }

  lemma RequestBalances(s: State, r: Registration, held: multiset<Callback>)
    requires Balanced(s, held)
    ensures Balanced(AfterRequest(s, r), held)
  {
    JoinedWaits(s.entries, r);
  }

  lemma {:induction false} RequestsKeep(s: State, rs: seq<Registration>, held: multiset<Callback>)
    requires Sound(s) && Balanced(s, held)
    ensures Sound(AfterRequests(s, rs)) && Balanced(AfterRequests(s, rs), held)
  {
    hide Sound, Balanced, AfterRequest;
    if rs != [] {
      RequestsKeep(s, rs[..|rs| - 1], held);
      RequestKeeps(AfterRequests(s, rs[..|rs| - 1]), rs[|rs| - 1]);
      RequestBalances(AfterRequests(s, rs[..|rs| - 1]), rs[|rs| - 1], held);
    }
  }

  // ---- Resolving ----

  lemma {:induction false} IdsAre(entries: seq<Entry>, channel: Option<Channel>)
    ensures forall e :: e in entries && Unasked(e, channel) ==> e.msgId in Ids(entries, channel)
    ensures forall id :: id in Ids(entries, channel) ==>
      exists e :: e in entries && Unasked(e, channel) && e.msgId == id
  {
    if entries != [] {
      IdsAre(entries[..|entries| - 1], channel);
    }
  }

  lemma {:induction false} AssignedWaits(entries: seq<Entry>, channel: Option<Channel>, id: RequestId)
    ensures Waiting(Assigned(entries, channel, id)) == Waiting(entries)
  {
    if entries != [] {
      var init := entries[..|entries| - 1];
      AssignedWaits(init, channel, id);
      var marked, last := Assigned(entries, channel, id), entries[|entries| - 1];
      assert marked[..|entries| - 1] == Assigned(init, channel, id);
      assert marked[|entries| - 1] == AssignedEntry(last, channel, id);
      assert AssignedEntry(last, channel, id).callbacks == last.callbacks;
      hide Assigned, AssignedEntry;
    }
  }

  /** The new request carries exactly the channel's messages without one, and they alone now wait for it. */
  lemma ResolvedOneIs(s: State, channel: Option<Channel>)
    requires Tracked(s)
    ensures var t := ResolvedOne(s, channel);
      && |t.entries| == |s.entries|
      && (forall i :: 0 <= i < |s.entries| ==> t.entries[i] == AssignedEntry(s.entries[i], channel, s.next))
    ensures var t, ids := ResolvedOne(s, channel), Ids(s.entries, channel);
      t.inFlight == (if ids == [] then s.inFlight else s.inFlight[s.next := Request(channel, ids)])
    ensures ResolvedOne(s, channel).(entries := s.entries, inFlight := s.inFlight, next := s.next) == s
  {
    IdsAre(s.entries, channel);
    if Ids(s.entries, channel) == [] {
      forall i | 0 <= i < |s.entries| ensures !Unasked(s.entries[i], channel) {
        assert s.entries[i] in s.entries;
      }
    }
  }

  lemma ResolvedOneCovers(s: State, channel: Option<Channel>, i: nat)
    requires Tracked(s) && i < |s.entries|
    ensures var t := ResolvedOne(s, channel);
      i < |t.entries| && (t.entries[i].requestId != 0 ==> Covered(t, t.entries[i]))
  {
    var was := s.entries[i];
    assert was in s.entries;
    ResolvedOneIs(s, channel);
    IdsAre(s.entries, channel);
    hide ResolvedOne, Ids;
    if was.requestId != 0 {
      assert Covered(s, was);
    }
  }

  lemma ResolvedOneSorted(s: State, channel: Option<Channel>)
    requires Tracked(s)
    ensures Sorted(ResolvedOne(s, channel).entries)
  {
    ResolvedOneIs(s, channel);
    hide ResolvedOne;
  }

  lemma ResolvedOneKeeps(s: State, channel: Option<Channel>)
    requires Tracked(s)
    ensures Tracked(ResolvedOne(s, channel))
    ensures Waiting(ResolvedOne(s, channel).entries) == Waiting(s.entries)
  {
    var t := ResolvedOne(s, channel);
    AssignedWaits(s.entries, channel, s.next);
    ResolvedOneIs(s, channel);
    ResolvedOneSorted(s, channel);
    assert t.next > 0 && forall id :: id in t.inFlight ==> 0 < id < t.next;
    hide ResolvedOne, Waiting, Sorted;
    forall e | e in t.entries && e.requestId != 0
      ensures Covered(t, e)
    {
      var i :| 0 <= i < |t.entries| && e == t.entries[i];
      ResolvedOneCovers(s, channel, i);
    }
  }

  /** Among the channels resolved so far, no entry is left without a request. */
  ghost predicate NoneUnasked(entries: seq<Entry>, channels: seq<Option<Channel>>) {
    forall e :: e in entries && e.channel in channels ==> e.requestId != 0
  }

  ghost predicate SameKeys(a: seq<Entry>, b: seq<Entry>) {
    |a| == |b| && forall i :: 0 <= i < |a| ==> a[i] == b[i].(requestId := a[i].requestId)
  }

  lemma ResolvedOneAsks(s: State, channel: Option<Channel>, channels: seq<Option<Channel>>)
    requires Tracked(s) && NoneUnasked(s.entries, channels)
    ensures NoneUnasked(ResolvedOne(s, channel).entries, channels + [channel])
    ensures SameKeys(ResolvedOne(s, channel).entries, s.entries)
  {
    var t := ResolvedOne(s, channel);
    ResolvedOneIs(s, channel);
    forall e | e in t.entries && e.channel in channels + [channel]
      ensures e.requestId != 0
    {
      var i :| 0 <= i < |t.entries| && e == t.entries[i];
      assert s.entries[i] in s.entries;
    }
  }

  lemma {:induction false} ResolvedAllKeeps(s: State, channels: seq<Option<Channel>>)
    requires Tracked(s)
    ensures var t := ResolvedAll(s, channels);
      Tracked(t) && NoneUnasked(t.entries, channels) && SameKeys(t.entries, s.entries)
    ensures Waiting(ResolvedAll(s, channels).entries) == Waiting(s.entries)
    ensures var t := ResolvedAll(s, channels);
      t.registered == s.registered && t.called == s.called && t.scheduled == s.scheduled
  {
    hide Tracked, ResolvedOne, Waiting;
    if channels != [] {
      var init, last := channels[..|channels| - 1], channels[|channels| - 1];
      var t := ResolvedAll(s, init);
      ResolvedAllKeeps(s, init);
      ResolvedOneKeeps(t, last);
      ResolvedOneIs(t, last);
      ResolvedOneAsks(t, last, init);
      assert init + [last] == channels;
    }
  }

  lemma {:induction false} ChannelsCover(entries: seq<Entry>)
    ensures forall e :: e in entries ==> e.channel in Channels(entries)
  {
    if entries != [] {
      ChannelsCover(entries[..|entries| - 1]);
    }
  }

  /** Resolving leaves no entry without a request in flight, and neither loses nor runs a callback. */
  lemma ResolveKeeps(s: State, held: multiset<Callback>)
    requires Sound(s)
    ensures Sound(AfterResolve(s)) && !AfterResolve(s).scheduled
    ensures Balanced(s, held) ==> Balanced(AfterResolve(s), held)
  {
    hide ResolvedAll, Channels;
    var s0, channels := s.(scheduled := false), Channels(s.entries);
    assert Tracked(s0) by {
      forall e | e in s0.entries && e.requestId != 0 ensures Covered(s0, e) {
        assert Covered(s, e);
      }
    }
    ResolvedAllKeeps(s0, channels);
    ChannelsCover(s.entries);
    var t := AfterResolve(s);
    forall e | e in t.entries ensures e.requestId != 0 {
      var i :| 0 <= i < |t.entries| && e == t.entries[i];
      assert s.entries[i] in s.entries;
    }
  }

  // ---- Finishing a request ----

  lemma {:induction false} CollectedWaits(entries: seq<Entry>, channel: Option<Channel>, id: RequestId)
    ensures Waiting(entries) == Waiting(Remaining(entries, channel, id)) + multiset(Collected(entries, channel, id))
  {
    if entries != [] {
      var init, e := entries[..|entries| - 1], entries[|entries| - 1];
      var kept, taken := Remaining(init, channel, id), Collected(init, channel, id);
      CollectedWaits(init, channel, id);
      WaitingConcat(kept, [e]);
      WaitingOne(e);
      assert Waiting(entries) == Waiting(init) + multiset(e.callbacks);
      if Waits(e, channel, id) {
        assert Remaining(entries, channel, id) == kept + [] == kept;
        assert Collected(entries, channel, id) == taken + e.callbacks;
        hide Waiting, Remaining, Collected, Waits;
      } else {
        assert Remaining(entries, channel, id) == kept + [e];
        assert Collected(entries, channel, id) == taken + [] == taken;
        hide Waiting, Remaining, Collected, Waits;
      }
    }
  }

  lemma {:induction false} RemainingIs(entries: seq<Entry>, channel: Option<Channel>, id: RequestId)
    ensures forall e :: e in Remaining(entries, channel, id) <==> e in entries && !Waits(e, channel, id)
  {
    if entries != [] {
      var init, e := entries[..|entries| - 1], entries[|entries| - 1];
      RemainingIs(init, channel, id);
      assert entries == init + [e];
    }
  }

  lemma {:induction false} RemainingSorted(entries: seq<Entry>, channel: Option<Channel>, id: RequestId)
    requires Sorted(entries)
    ensures Sorted(Remaining(entries, channel, id))
  {
    if entries != [] {
      var init, e := entries[..|entries| - 1], entries[|entries| - 1];
      var kept := Remaining(init, channel, id);
      RemainingSorted(init, channel, id);
      RemainingIs(init, channel, id);
      forall i | 0 <= i < |kept| && kept[i].channel == e.channel
        ensures kept[i].msgId < e.msgId
      {
        assert kept[i] in kept;
        var j :| 0 <= j < |init| && kept[i] == init[j];
        assert entries[j] == init[j];
      }
      assert Sorted(kept + [e]);
    }
  }

  lemma TakenKeeps(s: State, id: RequestId)
    requires Sound(s) && id in s.inFlight && Balanced(s, multiset{})
    ensures Sound(Taken(s, id))
    ensures Balanced(Taken(s, id), multiset(Collected(s.entries, s.inFlight[id].channel, id)))
  {
    var channel, t := s.inFlight[id].channel, Taken(s, id);
    RemainingSorted(s.entries, channel, id);
    RemainingIs(s.entries, channel, id);
    CollectedWaits(s.entries, channel, id);
    forall e | e in t.entries && e.requestId != 0 ensures Covered(t, e) {
      assert Covered(s, e);
    }
  }

  lemma InvokedKeeps(s: State, c: Callback, makes: Behaviour, held: multiset<Callback>)
    requires Sound(s) && Balanced(s, held + multiset{c})
    ensures Sound(Invoked(s, c, makes)) && Balanced(Invoked(s, c, makes), held)
  {
    var t := s.(called := s.called + [c]);
    assert Sound(t) by {
      forall e | e in t.entries && e.requestId != 0 ensures Covered(t, e) {
        assert Covered(s, e);
      }
    }
    RequestsKeep(t, makes(|s.called|, c), held);
  }

  /** The callbacks run are exactly the ones held, whatever they register while they run. */
  lemma {:induction false} CalledKeeps(s: State, callbacks: seq<Callback>, makes: Behaviour, held: multiset<Callback>)
    requires Sound(s) && Balanced(s, held + multiset(callbacks))
    ensures Sound(Called(s, callbacks, makes)) && Balanced(Called(s, callbacks, makes), held)
  {
    hide Sound, Invoked;
    if callbacks != [] {
      var init, last := callbacks[..|callbacks| - 1], callbacks[|callbacks| - 1];
      assert callbacks == init + [last];
      assert held + multiset(callbacks) == (held + multiset{last}) + multiset(init);
      CalledKeeps(s, init, makes, held + multiset{last});
      InvokedKeeps(Called(s, init, makes), last, makes, held);
    }
  }

  // ---- Runs ----

  datatype Step = Ask(r: Registration) | Resolve | Reply(id: RequestId, makes: Behaviour)

  predicate Enabled(s: State, step: Step) {
    match step
    case Ask(_) => true
    case Resolve => s.scheduled
    case Reply(id, _) => id in s.inFlight
  }

  function Next(s: State, step: Step): State
    requires Enabled(s, step)
  {
    match step
    case Ask(r) => AfterRequest(s, r)
    case Resolve => AfterResolve(s)
    case Reply(id, makes) => AfterFinalize(s, id, makes)
  }

  ghost predicate Inv(s: State) { Sound(s) && Balanced(s, multiset{}) }

  lemma StepKeeps(s: State, step: Step)
    requires Inv(s) && Enabled(s, step)
    ensures Inv(Next(s, step))
  {
    hide Sound, Balanced, AfterRequest, AfterResolve, Called, Taken;
    match step
    case Ask(r) => RequestKeeps(s, r); RequestBalances(s, r, multiset{});
    case Resolve => ResolveKeeps(s, multiset{});
    case Reply(id, makes) =>
      var callbacks := Collected(s.entries, s.inFlight[id].channel, id);
      TakenKeeps(s, id);
      assert multiset{} + multiset(callbacks) == multiset(callbacks);
      CalledKeeps(Taken(s, id), callbacks, makes, multiset{});
  }

  ghost predicate Possible(s: State, steps: seq<Step>)
    decreases |steps|
  {
    |steps| > 0 ==> Enabled(s, steps[0]) && Possible(Next(s, steps[0]), steps[1..])
  }

  ghost function Run(s: State, steps: seq<Step>): State
    requires Possible(s, steps)
    decreases |steps|
  {
    if |steps| == 0 then s else Run(Next(s, steps[0]), steps[1..])
  }

  /** In every reachable state each callback handed in waits in one entry or has run once, and each entry waits for
      a request in flight that carries its message, or for the resolving that is scheduled. */
  lemma {:induction false} EveryRunKeeps(s: State, steps: seq<Step>)
    requires Inv(s) && Possible(s, steps)
    ensures Inv(Run(s, steps))
    decreases |steps|
  {
    hide Inv, Next, Enabled;
    if |steps| > 0 {
      StepKeeps(s, steps[0]);
      EveryRunKeeps(Next(s, steps[0]), steps[1..]);
    }
  }

  lemma FirstIsInFlight(s: State)
    requires Sound(s) && !s.scheduled
    ensures s.entries != [] ==> s.entries[0].requestId in s.inFlight
  {
    if s.entries != [] {
      assert s.entries[0] in s.entries;
      assert Covered(s, s.entries[0]);
    }
  }

  /** Once nothing is in flight or scheduled, every callback handed in has run exactly as often as it was handed in. */
  lemma IdleHasCalledAll(steps: seq<Step>)
    requires Possible(INITIAL, steps)
    requires Run(INITIAL, steps).inFlight == map[] && !Run(INITIAL, steps).scheduled
    ensures Run(INITIAL, steps).entries == []
    ensures multiset(Run(INITIAL, steps).registered) == multiset(Run(INITIAL, steps).called)
  {
    var s := Run(INITIAL, steps);
    assert Inv(INITIAL);
    EveryRunKeeps(INITIAL, steps);
    FirstIsInFlight(s);
  }

  // ---- The methods ----

  class ApiMessageData {
    /** The table for messages outside channels and the tables of the channels. */
    var requests: seq<Entry>
    var resolveScheduled: bool
    var inFlight: map<RequestId, Request>
    var nextId: RequestId
    ghost var registered: seq<Callback>
    var called: seq<Callback>

    ghost function Abs(): State
      reads this
    {
      State(requests, resolveScheduled, inFlight, nextId, registered, called)
    }

    constructor ()
      ensures Abs() == INITIAL
    {
      requests, resolveScheduled, inFlight, nextId, registered, called := [], false, map[], 1, [], [];
    }

    method RequestMessageData(r: Registration)
      modifies this`requests, this`resolveScheduled, this`registered
      ensures Abs() == AfterRequest(old(Abs()), r)
    {
      var i := 0;
      while i < |requests| && (requests[i].channel != r.channel || requests[i].msgId < r.msgId)
        invariant i <= |requests| && forall j :: 0 <= j < i ==> Before(requests[j], r)
      {
        i := i + 1;
      }
      JoinedAt(requests, r, i);
      hide Joined, RequestOf;
      var found := i < |requests| && requests[i].msgId == r.msgId;
      var request := if found then requests[i] else Entry(r.channel, r.msgId, 0, []);
      var callbacks := request.callbacks;
      if r.callback.Some? {
        callbacks := callbacks + [r.callback.value];
      }
      assert callbacks == request.callbacks + Asked(r.callback) && (!found ==> callbacks == Asked(r.callback));
      requests := requests[..i] + [request.(callbacks := callbacks)] + requests[if found then i + 1 else i..];
      registered := registered + Asked(r.callback);
      if request.requestId == 0 {
        resolveScheduled := true;
      }
    }

    method CollectMessageIds(channel: Option<Channel>) returns (ids: seq<MsgId>)
      ensures ids == Ids(requests, channel)
    {
      ids := [];
      for i := 0 to |requests|
        invariant ids == Ids(requests[..i], channel)
      {
        assert requests[..i + 1][..i] == requests[..i];
        if requests[i].channel == channel && requests[i].requestId == 0 {
          ids := ids + [requests[i].msgId];
        }
      }
      assert requests[..|requests|] == requests;
    }

    method ResolveMessageDatas()
      modifies this`requests, this`inFlight, this`nextId, this`resolveScheduled
      ensures Abs() == AfterResolve(old(Abs()))
    {
      hide ResolvedOne;
      var channels := Channels(requests);
      resolveScheduled := false;
      ghost var start := Abs();
      for k := 0 to |channels|
        invariant Abs() == ResolvedAll(start, channels[..k])
      {
        assert channels[..k + 1][..k] == channels[..k];
        ResolveChannel(channels[k]);
      }
      assert channels[..|channels|] == channels;
    }

    method ResolveChannel(channel: Option<Channel>)
      modifies this`requests, this`inFlight, this`nextId
      ensures Abs() == ResolvedOne(old(Abs()), channel)
    {
      var ids := CollectMessageIds(channel);
      if ids == [] { return; }
      var id := nextId;
      inFlight := inFlight[id := Request(channel, ids)];
      nextId := nextId + 1;
      ghost var before := requests;
      for i := 0 to |requests|
        invariant |requests| == |before| && inFlight == old(inFlight)[id := Request(channel, ids)] && nextId == id + 1
        invariant forall j :: 0 <= j < i ==> requests[j] == AssignedEntry(before[j], channel, id)
        invariant requests[i..] == before[i..]
      {
        assert requests[i] == requests[i..][0] == before[i];
        assert requests[i + 1..] == requests[i..][1..] == before[i + 1..];
        if requests[i].channel == channel && requests[i].requestId == 0 {
          requests := requests[i := requests[i].(requestId := id)];
        }
      }
      assert requests == Assigned(before, channel, id);
    }

    method FinalizeMessageDataRequest(id: RequestId, makes: Behaviour)
      requires id in inFlight
      modifies this
      ensures Abs() == AfterFinalize(old(Abs()), id, makes)
    {
      hide Invoked;
      var channel := inFlight[id].channel;
      inFlight := inFlight - {id};
      var callbacks, kept := [], [];
      for i := 0 to |requests|
        invariant requests == old(requests) && Abs() == old(Abs()).(inFlight := old(inFlight) - {id})
        invariant callbacks == Collected(requests[..i], channel, id)
        invariant kept == Remaining(requests[..i], channel, id)
      {
        assert requests[..i + 1][..i] == requests[..i];
        if requests[i].channel == channel && requests[i].requestId == id {
          callbacks := callbacks + requests[i].callbacks;
        } else {
          kept := kept + [requests[i]];
        }
      }
      assert requests[..|requests|] == requests;
      requests := kept;
      assert Abs() == Taken(old(Abs()), id);
      for k := 0 to |callbacks|
        invariant Abs() == Called(Taken(old(Abs()), id), callbacks[..k], makes)
      {
        assert callbacks[..k + 1][..k] == callbacks[..k];
        Invoke(callbacks[k], makes);
      }
      assert callbacks[..|callbacks|] == callbacks;
    }

    /** A callback runs, and what it asks for is registered before the next one runs. */
    method Invoke(c: Callback, makes: Behaviour)
      modifies this
      ensures Abs() == Invoked(old(Abs()), c, makes)
    {
      hide AfterRequest;
      called := called + [c];
      ghost var start := Abs();
      var asked := makes(|called| - 1, c);
      for i := 0 to |asked|
        invariant Abs() == AfterRequests(start, asked[..i])
      {
        assert asked[..i + 1][..i] == asked[..i];
        RequestMessageData(asked[i]);
      }
      assert asked[..|asked|] == asked;
    }
  }
}
