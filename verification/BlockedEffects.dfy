/** What blocking and unblocking come to: who is asked for what, who is blocked in the end, and the list shown. */
module BlockedEffects {
  import opened Wrappers
  import opened BlockedPeers

  // ---- Asking ----

  /** The request of this kind for the peer is on its way. */
  ghost predicate OnItsWay(s: State, peer: Peer, blocking: bool) {
    exists e :: e in s.entries && e.peer == peer && e.blocking == blocking
                && e.id in s.inFlight && s.inFlight[e.id] == Sending(peer, blocking)
  }

  lemma FoundOnItsWay(s: State, peer: Peer, blocking: bool)
    requires Tracked(s)
    ensures AlreadySent(s, peer, blocking) <==> OnItsWay(s, peer, blocking)
  {
    var i := Find(s.entries, peer);
    if AlreadySent(s, peer, blocking) { assert s.entries[i] in s.entries; }
    if OnItsWay(s, peer, blocking) {
      var e :| e in s.entries && e.peer == peer && e.blocking == blocking;
      var j :| 0 <= j < |s.entries| && s.entries[j] == e;
      assert i <= j < |s.entries| && s.entries[i].peer == s.entries[j].peer;
    }
  }

  lemma AskingSends(s: State, peer: Peer, blocking: bool, callback: Option<Callback>)
    requires Tracked(s)
    ensures var r := if AlreadySent(s, peer, blocking) then Joined(s, peer, callback)
                     else Sent(s, peer, blocking, callback);
      && OnItsWay(r, peer, blocking)
      && r.next == (if OnItsWay(s, peer, blocking) then s.next else s.next + 1)
      && (forall id :: id in s.inFlight ==> id in r.inFlight && r.inFlight[id] == s.inFlight[id])
      && r.registered == s.registered + Asked(callback)
  {
    FoundOnItsWay(s, peer, blocking);
    var i := Find(s.entries, peer);
    if AlreadySent(s, peer, blocking) {
      var r := Joined(s, peer, callback);
      assert s.entries[i] in s.entries;
      assert r.entries[i] in r.entries && r.entries[i].peer == peer;
    } else {
      hide Find, Taken, Calls;
      var r := Sent(s, peer, blocking, callback);
      var e := Entry(peer, s.next, blocking, Asked(callback));
      assert s.next !in s.inFlight;
      assert r.entries[|r.entries| - 1] == e;
      assert e in r.entries;
    }
  }

  /** Blocking a peer that is not blocked puts that request on its way unless it is already; so does unblocking one that
      is blocked, or any with force, and then the callback is registered. Nothing else is asked for. */
  lemma BlockAsks(s: State, peer: Peer)
    requires Tracked(s)
    ensures var r := AfterBlock(s, peer);
      if peer in s.blocked then r == s
      else OnItsWay(r, peer, true) && r.next == (if OnItsWay(s, peer, true) then s.next else s.next + 1)
  {
    hide AlreadySent, Joined, Sent, OnItsWay;
    AskingSends(s, peer, true, None);
  }

  lemma UnblockAsks(s: State, peer: Peer, callback: Option<Callback>, force: bool)
    requires Tracked(s)
    ensures var r := AfterUnblock(s, peer, callback, force);
      if peer !in s.blocked && !force then r == s
      else
        && OnItsWay(r, peer, false) && r.next == (if OnItsWay(s, peer, false) then s.next else s.next + 1)
        && r.registered == s.registered + Asked(callback)
  {
    hide AlreadySent, Joined, Sent, OnItsWay;
    AskingSends(s, peer, false, callback);
  }

  // ---- Who is blocked ----

  /** What the steps say: the kind of every request from the call that sent it, and for every peer the kind of the last
      request that was answered with success. */
  datatype Trace = Trace(state: State, asked: map<RequestId, Sending>, last: map<Peer, bool>)

  ghost function Record(t: Trace, step: Step): Trace
    requires Enabled(t.state, step) && t.state.inFlight.Keys <= t.asked.Keys
  {
    var s, s' := t.state, Next(t.state, step);
    match step
    case Block(peer) => Trace(s', if s'.next == s.next then t.asked else t.asked[s.next := Sending(peer, true)], t.last)
    case Unblock(peer, _, _) =>
      Trace(s', if s'.next == s.next then t.asked else t.asked[s.next := Sending(peer, false)], t.last)
    case Reply(id, ok, _) => Trace(s', t.asked, if ok then t.last[t.asked[id].peer := t.asked[id].blocking] else t.last)
    case _ => Trace(s', t.asked, t.last)
  }

  ghost predicate AsAnswered(t: Trace) {
    && (forall id :: id in t.state.inFlight ==>
          id < t.state.next && id in t.asked && t.state.inFlight[id] == t.asked[id])
    && (forall peer :: peer in t.state.blocked <==> peer in t.last && t.last[peer])
  }

  lemma AskLeaves(s: State, step: Step)
    requires step.Block? || step.Unblock?
    ensures var r, sending := Next(s, step), Sending(step.peer, step.Block?);
      && r.blocked == s.blocked && s.next <= r.next <= s.next + 1
      && r.inFlight == if r.next == s.next then s.inFlight else s.inFlight[s.next := sending]
  {
    hide Find, Calls;
  }

  lemma ReplyLeaves(s: State, id: RequestId, ok: bool, now: int)
    requires id in s.inFlight
    ensures var r, ask := AfterReply(s, id, ok, now), s.inFlight[id];
      && r.inFlight == s.inFlight - {id} && r.next == s.next
      && r.blocked == if !ok then s.blocked
                      else if ask.blocking then s.blocked + {ask.peer} else s.blocked - {ask.peer}
  {
    hide Find, Calls, WithBlocked, WithoutBlocked;
  }

  lemma StepAsAnswered(t: Trace, step: Step)
    requires AsAnswered(t) && Enabled(t.state, step)
    ensures AsAnswered(Record(t, step))
  {
    if step.Block? || step.Unblock? {
      AskLeaves(t.state, step);
      hide Next;
    } else if step.Reply? {
      ReplyLeaves(t.state, step.id, step.ok, step.now);
      hide AfterReply;
    }
  }

  ghost function RunFrom(t: Trace, steps: seq<Step>): Trace
    requires AsAnswered(t) && Possible(t.state, steps)
    decreases |steps|
  {
    if steps == [] then t
    else
      StepAsAnswered(t, steps[0]);
      RunFrom(Record(t, steps[0]), steps[1..])
  }

  /** In every run each request is of the kind of the call that sent it, and a peer is blocked exactly if the last
      request for it that succeeded was to block it. */
  lemma {:induction false} BlockedAsAnswered(t: Trace, steps: seq<Step>)
    requires AsAnswered(t) && Possible(t.state, steps)
    ensures AsAnswered(RunFrom(t, steps)) && RunFrom(t, steps).state == Run(t.state, steps)
    decreases |steps|
  {
    hide Next, Enabled;
    if steps != [] {
      StepAsAnswered(t, steps[0]);
      assert Record(t, steps[0]).state == Next(t.state, steps[0]);
      BlockedAsAnswered(Record(t, steps[0]), steps[1..]);
    }
  }

  lemma InitialAsAnswered()
    ensures AsAnswered(Trace(INITIAL, map[], map[]))
  {}

  // ---- The list ----

  function Others(list: seq<Item>, peer: Peer): seq<Item> {
    if list == [] then [] else (if list[0].peer == peer then [] else [list[0]]) + Others(list[1..], peer)
  }

  function Count(list: seq<Item>, peer: Peer): nat {
    if list == [] then 0 else (if list[0].peer == peer then 1 else 0) + Count(list[1..], peer)
  }

  lemma {:induction false} CountCut(list: seq<Item>, peer: Peer)
    ensures var i := FindItem(list, peer);
      && (i == |list| <==> Count(list, peer) == 0)
      && (i < |list| ==>
            var rest := list[..i] + list[i + 1..];
            Count(rest, peer) == Count(list, peer) - 1 && Others(rest, peer) == Others(list, peer))
  {
    if list != [] {
      var i := FindItem(list, peer);
      if list[0].peer == peer {
        assert list[..0] + list[1..] == list[1..];
      } else {
        CountCut(list[1..], peer);
        if i < |list| {
          var rest := list[..i] + list[i + 1..];
          assert rest[0] == list[0];
          assert rest[1..] == list[1..][..i - 1] + list[1..][i..];
        }
      }
    }
  }

  /** Unblocking takes one item of the peer out of the list, if there is one, and leaves the others in order; the number
      of peers beyond the list stays then, and otherwise is one less as long as there are any. Blocking puts the peer in
      front, with the time. */
  lemma ListFollows(slice: Slice, peer: Peer, now: int)
    requires slice.total >= |slice.list|
    ensures var r, beyond := WithoutBlocked(slice, peer), slice.total - |slice.list|;
      && Others(r.list, peer) == Others(slice.list, peer)
      && Count(r.list, peer) == (if Count(slice.list, peer) > 0 then Count(slice.list, peer) - 1 else 0)
      && r.total - |r.list| == (if Count(slice.list, peer) > 0 || beyond == 0 then beyond else beyond - 1)
    ensures var r := WithBlocked(slice, peer, now);
      r.list == [Item(peer, now)] + slice.list && r.total - |r.list| == slice.total - |slice.list|
  {
    CountCut(slice.list, peer);
    hide Count, Others;
  }

  /** A successful reply changes the slice that is kept so, announces it, and a failed one does not. */
  lemma ReplyChangesList(s: State, id: RequestId, ok: bool, now: int)
    requires id in s.inFlight
    ensures var r, ask := AfterReply(s, id, ok, now), s.inFlight[id];
      if !ok || s.slice.None? then r.slice == s.slice && r.changes == s.changes
      else
        && r.slice.Some? && r.changes == s.changes + [r.slice.value]
        && r.slice.value == if ask.blocking then WithBlocked(s.slice.value, ask.peer, now)
                            else WithoutBlocked(s.slice.value, ask.peer)
  {
    hide Find, Calls, WithBlocked, WithoutBlocked;
  }

  /** A reloaded list is kept with the larger of the count and its length, and announced if it is another one; what
      another caller asked for, or failed, changes nothing. */
  lemma ReloadedList(s: State, ok: bool, count: int, list: seq<Item>)
    ensures var r := AfterFetched(s, ok, count, list);
      && r.fetch == Idle && r.blocked == s.blocked
      && if ok && s.fetch == ForReload then
           && r.slice.Some? && r.slice.value.list == list
           && r.slice.value.total >= count && r.slice.value.total >= |list|
           && (r.slice.value.total == count || r.slice.value.total == |list|)
           && r.changes == s.changes + (if r.slice == s.slice then [] else [r.slice.value])
         else r.slice == s.slice && r.changes == s.changes
  {}
}
