/** What a save of the sticker sets asks the server for, told from the sets and the two lists alone. */
module StickerRequests {
  import opened StickerSave

  // ---- The requests wanted ----

  predicate HasRecent(removed: seq<SetId>) { exists id :: id in removed && IsRecent(id) }

  /** The clearing of the recent stickers takes the custom set away, so that only a removal before it counts. */
  predicate RemovedBeforeClear(removed: seq<SetId>, id: SetId) {
    exists i :: 0 <= i < |removed| && removed[i] == id && (id == CUSTOM ==> !HasRecent(removed[..i]))
  }

  predicate Uninstalls(sets: map<SetId, StickerSet>, removed: seq<SetId>, id: SetId) {
    id in sets && !sets[id].archived && !IsRecent(id) && RemovedBeforeClear(removed, id)
  }

  predicate Installs(sets: map<SetId, StickerSet>, order: seq<SetId>, removed: seq<SetId>, id: SetId) {
    && id in sets && sets[id].archived && id in order && id !in removed
    && !((IsRecent(id) || id == CUSTOM) && HasRecent(removed))
  }

  ghost function Uninstallings(sets: map<SetId, StickerSet>, t: StickersType, order: seq<SetId>, removed: seq<SetId>)
    : set<Request>
  {
    set id | id in removed && Uninstalls(sets, removed, id) :: Change(t, id, false, order)
  }

  ghost function Installings(sets: map<SetId, StickerSet>, t: StickersType, order: seq<SetId>, removed: seq<SetId>)
    : set<Request>
  {
    set id | id in order && Installs(sets, order, removed, id) :: Change(t, id, true, order)
  }

  ghost function Clearings(removed: seq<SetId>): set<Request> {
    set id | id in removed && IsRecent(id) :: ClearRecent(id == CLOUD_RECENT_ATTACHED)
  }

  ghost function Reorderings(t: StickersType, order: seq<SetId>): set<Request> {
    if |order| >= 2 then {Reorder(t, order)} else {}
  }

  // ---- The requests sent ----

  ghost predicate Bounded(s: State) { forall id :: id in s.inFlight ==> id < s.next }

  ghost function NewRequests(s: State, from: RequestId): set<Request> {
    set id | id in s.inFlight && id >= from :: s.inFlight[id]
  }

  /** What was in flight stays, and under later ids exactly these requests go out. */
  ghost predicate Sends(s: State, r: State, requests: set<Request>) {
    && Bounded(r) && s.next <= r.next
    && (forall id :: id < s.next ==> (id in r.inFlight <==> id in s.inFlight))
    && (forall id :: id in s.inFlight && id < s.next ==> r.inFlight[id] == s.inFlight[id])
    && NewRequests(r, s.next) == requests
  }

  lemma SendsNothing(s: State, r: State)
    requires Bounded(s) && r.inFlight == s.inFlight && r.next == s.next
    ensures Sends(s, r, {})
  {}

  lemma SendsOne(s: State, r: State, request: Request)
    requires Bounded(s) && r.inFlight == s.inFlight[s.next := request] && r.next == s.next + 1
    ensures Sends(s, r, {request})
  {
    assert s.next in r.inFlight;
  }

  lemma SendsBoth(s: State, r: State, q: State, first: set<Request>, second: set<Request>)
    requires Sends(s, r, first) && Sends(r, q, second)
    ensures Sends(s, q, first + second)
  {
    forall request
      ensures request in NewRequests(q, s.next) <==> request in NewRequests(r, s.next) + NewRequests(q, r.next)
    {
      if request in NewRequests(r, s.next) {
        var id :| id in r.inFlight && id >= s.next && r.inFlight[id] == request;
        assert id in q.inFlight && q.inFlight[id] == request;
      }
      if request in NewRequests(q, s.next) {
        var id :| id in q.inFlight && id >= s.next && q.inFlight[id] == request;
        assert id < r.next ==> id in r.inFlight && r.inFlight[id] == request;
      }
    }
  }

  // ---- The first pass ----

  lemma RemoveOneSends(s: State, t: StickersType, order: seq<SetId>, id: SetId)
    requires Total(s) && Bounded(s)
    ensures var r := RemoveOne(s, t, order, id);
            var uninstalls := !IsRecent(id) && id in s.sets && !s.sets[id].archived;
            && Sends(s, r, if IsRecent(id) then {ClearRecent(id == CLOUD_RECENT_ATTACHED)}
                           else if uninstalls then {Change(t, id, false, order)} else {})
            && (r.changes[t] == {} <==> s.changes[t] == {} && !uninstalls)
  {
    hide Sends;
    var r := RemoveOne(s, t, order, id);
    if IsRecent(id) {
      SendsOne(s, r, ClearRecent(id == CLOUD_RECENT_ATTACHED));
    } else if id in s.sets && !s.sets[id].archived {
      SendsOne(s, r, Change(t, id, false, order));
    } else {
      SendsNothing(s, r);
    }
  }

  lemma HasRecentNext(init: seq<SetId>, last: SetId)
    ensures HasRecent(init + [last]) == (HasRecent(init) || IsRecent(last))
  {
    if HasRecent(init) {
      var id :| id in init && IsRecent(id);
      assert id in init + [last];
    }
    if IsRecent(last) { assert last in init + [last]; }
  }

  lemma RemovedBeforeClearNext(init: seq<SetId>, last: SetId, id: SetId)
    ensures RemovedBeforeClear(init + [last], id)
        <==> RemovedBeforeClear(init, id) || (id == last && (id == CUSTOM ==> !HasRecent(init)))
  {
    var all := init + [last];
    assert all[..|init|] == init;
    assert forall i :: 0 <= i < |init| ==> all[i] == init[i] && all[..i] == init[..i];
    assert all[|init|] == last;
    hide HasRecent;
    if RemovedBeforeClear(init, id) {
      var i :| 0 <= i < |init| && init[i] == id && (id == CUSTOM ==> !HasRecent(init[..i]));
      assert all[i] == id;
    }
  }

  /** A set that is gone, or no longer to be removed, at its second mention has been asked for at the first. */
  lemma UninstallsNext(sets: map<SetId, StickerSet>, now: map<SetId, StickerSet>, init: seq<SetId>, last: SetId,
                       id: SetId)
    requires id in now <==> id in sets && AfterRemoval(id, sets[id], init) != []
    requires id in now ==> [now[id]] == AfterRemoval(id, sets[id], init)
    ensures Uninstalls(sets, init + [last], id)
        <==> Uninstalls(sets, init, id) || (id == last && !IsRecent(id) && id in now && !now[id].archived)
  {
    RemovedBeforeClearNext(init, last, id);
    if id in now {
      assert [now[id]][0] == AfterRemoval(id, sets[id], init)[0];
      assert id in sets && now[id].archived == sets[id].archived;
    }
    assert CLOUD_RECENT in init || CLOUD_RECENT_ATTACHED in init <==> HasRecent(init);
    if id in init && !HasRecent(init) { MentionedFirst(init, id); }
    if id in init && id != CUSTOM { MentionedFirst(init, id); }
    hide RemovedBeforeClear, HasRecent;
  }

  lemma MentionedFirst(init: seq<SetId>, id: SetId)
    requires id in init && (id != CUSTOM || !HasRecent(init))
    ensures RemovedBeforeClear(init, id)
  {
    var i :| 0 <= i < |init| && init[i] == id;
    assert forall x :: x in init[..i] ==> x in init;
  }

  lemma UninstallingsNext(sets: map<SetId, StickerSet>, now: map<SetId, StickerSet>, t: StickersType,
                          order: seq<SetId>, init: seq<SetId>, last: SetId)
    requires PerSet(sets, now, (id: SetId, x: StickerSet) => AfterRemoval(id, x, init))
    ensures Uninstallings(sets, t, order, init + [last]) == Uninstallings(sets, t, order, init)
      + if !IsRecent(last) && last in now && !now[last].archived then {Change(t, last, false, order)} else {}
  {
    hide AfterRemoval, Uninstalls;
    forall id { UninstallsNext(sets, now, init, last, id); }
    UninstallsMentioned(sets, init);
    UninstallsMentioned(sets, init + [last]);
  }

  lemma UninstallsMentioned(sets: map<SetId, StickerSet>, removed: seq<SetId>)
    ensures forall id :: Uninstalls(sets, removed, id) ==> id in removed
  {}

  lemma ClearingsNext(init: seq<SetId>, last: SetId)
    ensures Clearings(init + [last])
         == Clearings(init) + if IsRecent(last) then {ClearRecent(last == CLOUD_RECENT_ATTACHED)} else {}
  {
    hide IsRecent;
    assert forall id :: id in init + [last] <==> id in init || id == last;
  }

  lemma {:induction false} RemoveAllSends(s: State, t: StickersType, order: seq<SetId>, removed: seq<SetId>)
    requires Total(s) && Bounded(s)
    ensures var r := RemoveAll(s, t, order, removed);
            && Sends(s, r, Uninstallings(s.sets, t, order, removed) + Clearings(removed))
            && (r.changes[t] == {} <==> s.changes[t] == {} && Uninstallings(s.sets, t, order, removed) == {})
  {
    hide RemoveOne, Uninstallings, Clearings, PerSet, AfterRemoval, IsRecent, NewRequests;
    if removed == [] {
      NothingWanted(s.sets, t, order);
      SendsNothing(s, s);
    } else {
      var init, last := removed[..|removed| - 1], removed[|removed| - 1];
      var r := RemoveAll(s, t, order, init);
      assert removed == init + [last];
      RemoveAllSends(s, t, order, init);
      RemoveAllPerSet(s, t, order, init);
      RemoveOneSends(r, t, order, last);
      UninstallingsNext(s.sets, r.sets, t, order, init, last);
      ClearingsNext(init, last);
      var first := Uninstallings(s.sets, t, order, init) + Clearings(init);
      var second := if IsRecent(last) then {ClearRecent(last == CLOUD_RECENT_ATTACHED)}
                    else if last in r.sets && !r.sets[last].archived then {Change(t, last, false, order)} else {};
      SendsBoth(s, r, RemoveOne(r, t, order, last), first, second);
      assert first + second == Uninstallings(s.sets, t, order, removed) + Clearings(removed);
    }
  }

  lemma NothingWanted(sets: map<SetId, StickerSet>, t: StickersType, order: seq<SetId>)
    ensures Uninstallings(sets, t, order, []) == {} && Clearings([]) == {}
  {}

  // ---- The second pass ----

  lemma InstallOneSends(s: State, t: StickersType, order: seq<SetId>, removed: seq<SetId>, now: int, id: SetId)
    requires Total(s) && Bounded(s)
    ensures var r := InstallOne(s, t, order, removed, now, id);
            var installs := id in s.sets && s.sets[id].archived && id !in removed;
            && Sends(s, r, if installs then {Change(t, id, true, order)} else {})
            && (r.changes[t] == {} <==> s.changes[t] == {} && !installs)
  {
    hide Sends;
    var r := InstallOne(s, t, order, removed, now, id);
    if id in s.sets && s.sets[id].archived && id !in removed {
      SendsOne(s, r, Change(t, id, true, order));
    } else {
      SendsNothing(s, r);
    }
  }

  /** The sets of the order that the second pass, which meets no recent ones, still has to install. */
  ghost function Unarchivings(sets: map<SetId, StickerSet>, t: StickersType, order: seq<SetId>, removed: seq<SetId>,
                              ids: seq<SetId>): set<Request>
  {
    set id | id in ids && id in sets && sets[id].archived && id !in removed :: Change(t, id, true, order)
  }

  lemma UnarchivingsNext(sets: map<SetId, StickerSet>, now: map<SetId, StickerSet>, t: StickersType, order: seq<SetId>,
                         removed: seq<SetId>, init: seq<SetId>, last: SetId, time: int)
    requires now.Keys == sets.Keys
    requires forall id :: id in sets ==> now[id] == AfterInstall(id, sets[id], init, removed, time)
    ensures Unarchivings(sets, t, order, removed, init + [last]) == Unarchivings(sets, t, order, removed, init)
      + if last in now && now[last].archived && last !in removed then {Change(t, last, true, order)} else {}
  {
    assert forall id :: id in init + [last] <==> id in init || id == last;
    if last in sets { assert now[last].archived == (sets[last].archived && (last in init ==> last in removed)); }
    hide AfterInstall;
  }

  lemma {:induction false} InstallAllSends(s: State, t: StickersType, order: seq<SetId>, removed: seq<SetId>, now: int,
                                           ids: seq<SetId>)
    requires Total(s) && Bounded(s) && s.orders[t] == []
    ensures var r := InstallAll(s, t, order, removed, now, ids);
            && Sends(s, r, Unarchivings(s.sets, t, order, removed, ids))
            && (r.changes[t] == {} <==> s.changes[t] == {} && Unarchivings(s.sets, t, order, removed, ids) == {})
  {
    hide InstallOne, Unarchivings, AfterInstall, NewRequests, Survivors;
    if ids == [] {
      assert Unarchivings(s.sets, t, order, removed, []) == {} by { NothingUnarchived(s.sets, t, order, removed); }
      SendsNothing(s, s);
    } else {
      var init, last := ids[..|ids| - 1], ids[|ids| - 1];
      var r := InstallAll(s, t, order, removed, now, init);
      assert ids == init + [last];
      InstallAllSends(s, t, order, removed, now, init);
      InstallAllPerSet(s, t, order, removed, now, init);
      InstallOneSends(r, t, order, removed, now, last);
      UnarchivingsNext(s.sets, r.sets, t, order, removed, init, last, now);
      SendsBoth(s, r, InstallOne(r, t, order, removed, now, last), Unarchivings(s.sets, t, order, removed, init),
                if last in r.sets && r.sets[last].archived && last !in removed
                then {Change(t, last, true, order)} else {});
    }
  }

  lemma NothingUnarchived(sets: map<SetId, StickerSet>, t: StickersType, order: seq<SetId>, removed: seq<SetId>)
    ensures Unarchivings(sets, t, order, removed, []) == {}
  {}

  /** What the first pass leaves to install are the archived sets of the order that it does not take away. */
  lemma UnarchivingsAre(sets: map<SetId, StickerSet>, left: map<SetId, StickerSet>, t: StickersType, order: seq<SetId>,
                        removed: seq<SetId>)
    requires PerSet(sets, left, (id: SetId, x: StickerSet) => AfterRemoval(id, x, removed))
    ensures Unarchivings(MapSets(left, t), t, order, removed, order) == Installings(sets, t, order, removed)
  {
    forall id
      ensures (id in order && id in left && left[id].archived && id !in removed) <==> Installs(sets, order, removed, id)
    {
      StaysArchived(sets, left, removed, id);
    }
    hide AfterRemoval, Installs;
    assert forall id :: id in left ==> MapSets(left, t)[id].archived == left[id].archived;
  }

  lemma StaysArchived(sets: map<SetId, StickerSet>, left: map<SetId, StickerSet>, removed: seq<SetId>, id: SetId)
    requires PerSet(sets, left, (id: SetId, x: StickerSet) => AfterRemoval(id, x, removed))
    ensures id !in removed ==>
      (id in left <==> id in sets && !((IsRecent(id) || id == CUSTOM) && HasRecent(removed)))
      && (id in left ==> left[id] == sets[id])
  {
    assert CLOUD_RECENT in removed || CLOUD_RECENT_ATTACHED in removed <==> HasRecent(removed);
    if id in left { assert [left[id]][0] == AfterRemoval(id, sets[id], removed)[0]; }
  }

  // ---- The whole save ----

  lemma RewrittenSends(s: State, order: seq<SetId>, removed: seq<SetId>, t: StickersType, now: int)
    requires Total(s) && Bounded(s)
    ensures var r := Rewritten(s, order, removed, t, now);
            var uninstalls, installs :=
              Uninstallings(s.sets, t, order, removed), Installings(s.sets, t, order, removed);
            && Sends(Cancelled(s, t), r, uninstalls + Clearings(removed) + installs)
            && (r.changes[t] == {} <==> uninstalls == {} && installs == {})
  {
    hide RemoveAll, InstallAll, MapSets, NeededSets, Uninstallings, Installings, Unarchivings, Clearings, PerSet, Sends;
    var s0 := Cancelled(s, t);
    RemoveAllSends(s0, t, order, removed);
    RemoveAllPerSet(s0, t, order, removed);
    var s1 := RemoveAll(s0, t, order, removed);
    var s2 := s1.(sets := MapSets(s1.sets, t), orders := s1.orders[t := []]);
    assert Bounded(s1) by { SendsBounds(s0, s1); }
    UnarchivingsAre(s0.sets, s1.sets, t, order, removed);
    InstallAllSends(s2, t, order, removed, now, order);
    var s3 := InstallAll(s2, t, order, removed, now, order);
    var uninstalls, installs := Uninstallings(s.sets, t, order, removed), Installings(s.sets, t, order, removed);
    SameSends(s0, s2, s1, s3, s3.(sets := NeededSets(s3.sets)), installs);
    SendsBoth(s0, s1, s3.(sets := NeededSets(s3.sets)), uninstalls + Clearings(removed), installs);
  }

  lemma SendsBounds(s: State, r: State)
    requires exists requests :: Sends(s, r, requests)
    ensures Bounded(r)
  {}

  /** Only the requests and the next id matter. */
  lemma SameSends(s0: State, s: State, s': State, r: State, r': State, requests: set<Request>)
    requires Sends(s, r, requests)
    requires s'.inFlight == s.inFlight && s'.next == s.next && r'.inFlight == r.inFlight && r'.next == r.next
    ensures Sends(s', r', requests)
  {}

  /** A save takes back what the last save of the type still has in flight, with the clearing of the recent stickers,
      and sends exactly these requests: an uninstall for each removed set that is known and not archived, an install
      for each archived set of the order that stays, a clearing for each removed list of recent stickers; and the
      reorder at once only when no set changes. */
  lemma SavedRequests(s: State, order: seq<SetId>, removed: seq<SetId>, t: StickersType, now: int)
    requires Total(s) && Bounded(s)
    ensures var r := AfterSave(s, order, removed, t, now);
            var changes := Uninstallings(s.sets, t, order, removed) + Installings(s.sets, t, order, removed);
            && NewRequests(r, s.next)
                 == changes + Clearings(removed) + (if changes == {} then Reorderings(t, order) else {})
            && (forall id :: id in r.inFlight && id < s.next <==>
                  id in s.inFlight && id !in s.changes[t]
                  && id != s.reorders[t] && id != s.clearRecent && id != s.clearAttached)
            && (forall id :: id in r.inFlight && id < s.next ==> r.inFlight[id] == s.inFlight[id])
  {
    hide Rewritten, Uninstallings, Installings, Clearings, NewRequests;
    RewrittenSends(s, order, removed, t, now);
    var q, r := Rewritten(s, order, removed, t, now), AfterSave(s, order, removed, t, now);
    var uninstalls, installs := Uninstallings(s.sets, t, order, removed), Installings(s.sets, t, order, removed);
    var first := uninstalls + Clearings(removed) + installs;
    var second := if q.changes[t] == {} then Reorderings(t, order) else {};
    if q.changes[t] == {} && |order| >= 2 {
      SendsOne(q, r, Reorder(t, order));
    } else {
      SendsNothing(q, r);
    }
    SendsBoth(Cancelled(s, t), q, r, first, second);
    assert first + second == uninstalls + installs + Clearings(removed) + second;
  }

  // ---- The recent stickers and the other orders ----

  ghost function RemovedStickers(sets: map<SetId, StickerSet>, removed: seq<SetId>): set<Doc> {
    set id, doc | id in removed && id in sets && doc in sets[id].stickers :: doc
  }

  lemma {:induction false} WithoutBoth(docs: seq<Doc>, first: set<Doc>, second: set<Doc>)
    ensures Without(Without(docs, first), second) == Without(docs, first + second)
  {
    if docs != [] {
      var init, last := docs[..|docs| - 1], docs[|docs| - 1];
      WithoutBoth(init, first, second);
      if last in first {
        assert Without(docs, first) == Without(init, first);
      } else {
        assert (Without(init, first) + [last])[..|Without(init, first)|] == Without(init, first);
      }
    }
  }

  lemma WithoutNone(docs: seq<Doc>)
    ensures Without(docs, {}) == docs
  {}

  lemma RemovedStickersNext(sets: map<SetId, StickerSet>, now: map<SetId, StickerSet>, init: seq<SetId>, last: SetId)
    requires PerSet(sets, now, (id: SetId, x: StickerSet) => AfterRemoval(id, x, init))
    requires !HasRecent(init)
    ensures RemovedStickers(sets, init + [last])
         == RemovedStickers(sets, init) + if last in now then now[last].stickers else {}
  {
    assert forall id :: id in init + [last] <==> id in init || id == last;
    assert CLOUD_RECENT !in init && CLOUD_RECENT_ATTACHED !in init;
    if last in now { assert [now[last]][0] == AfterRemoval(last, sets[last], init)[0]; }
    hide HasRecent;
  }

  lemma RemoveOneForgets(s: State, t: StickersType, order: seq<SetId>, id: SetId)
    requires Total(s)
    ensures var r := RemoveOne(s, t, order, id);
            && r.orders == s.orders
            && r.recent ==
                 if IsRecent(id) then [] else Without(s.recent, if id in s.sets then s.sets[id].stickers else {})
  {
    hide Without, SendChange, SendClear;
    WithoutNone(s.recent);
    if IsRecent(id) {
      ClearLeaves(s.(sets := s.sets - {CLOUD_RECENT} - {CLOUD_RECENT_ATTACHED} - {CUSTOM}, recent := []),
                  id == CLOUD_RECENT_ATTACHED);
    } else if id in s.sets {
      ChangeLeaves(s.(recent := Without(s.recent, s.sets[id].stickers)), t, id, order);
    }
  }

  lemma ChangeLeaves(s: State, t: StickersType, id: SetId, order: seq<SetId>)
    requires Total(s)
    ensures var r := SendChange(s, t, id, false, order); r.recent == s.recent && r.orders == s.orders
  {}

  lemma ClearLeaves(s: State, attached: bool)
    ensures var r := SendClear(s, attached); r.recent == s.recent && r.orders == s.orders
  {}

  lemma {:induction false} WithoutEmpty(gone: set<Doc>)
    ensures Without([], gone) == []
  {}

  lemma {:induction false} RemoveAllForgets(s: State, t: StickersType, order: seq<SetId>, removed: seq<SetId>)
    requires Total(s)
    ensures var r := RemoveAll(s, t, order, removed);
            && r.orders == s.orders
            && r.recent == if HasRecent(removed) then [] else Without(s.recent, RemovedStickers(s.sets, removed))
  {
    hide RemoveOne, PerSet, AfterRemoval, IsRecent, HasRecent, RemovedStickers, Without;
    if removed == [] {
      assert !HasRecent([]) && RemovedStickers(s.sets, []) == {} by { NothingRemoved(s.sets); }
      WithoutNone(s.recent);
    } else {
      var init, last := removed[..|removed| - 1], removed[|removed| - 1];
      var r := RemoveAll(s, t, order, init);
      assert removed == init + [last];
      RemoveAllForgets(s, t, order, init);
      HasRecentNext(init, last);
      RemoveOneForgets(r, t, order, last);
      if HasRecent(removed) {
        WithoutEmpty(if last in r.sets then r.sets[last].stickers else {});
      } else {
        RemoveAllPerSet(s, t, order, init);
        RemovedStickersNext(s.sets, r.sets, init, last);
        WithoutBoth(s.recent, RemovedStickers(s.sets, init), if last in r.sets then r.sets[last].stickers else {});
      }
    }
  }

  lemma NothingRemoved(sets: map<SetId, StickerSet>)
    ensures !HasRecent([]) && RemovedStickers(sets, []) == {}
  {}

  lemma {:induction false} InstallAllForgetsNothing(s: State, t: StickersType, order: seq<SetId>, removed: seq<SetId>,
                                                    now: int, ids: seq<SetId>)
    requires Total(s)
    ensures var r := InstallAll(s, t, order, removed, now, ids);
            r.recent == s.recent && forall k :: k != t ==> r.orders[k] == s.orders[k]
  {
    if ids != [] { InstallAllForgetsNothing(s, t, order, removed, now, ids[..|ids| - 1]); }
  }

  lemma RewrittenRecent(s: State, order: seq<SetId>, removed: seq<SetId>, t: StickersType, now: int)
    requires Total(s)
    ensures var r := Rewritten(s, order, removed, t, now);
            && r.recent == (if HasRecent(removed) then [] else Without(s.recent, RemovedStickers(s.sets, removed)))
            && forall k :: k != t ==> r.orders[k] == s.orders[k]
  {
    hide RemoveAll, InstallAll, MapSets, NeededSets, HasRecent, RemovedStickers, Without;
    var s0 := Cancelled(s, t);
    RemoveAllForgets(s0, t, order, removed);
    var s1 := RemoveAll(s0, t, order, removed);
    InstallAllForgetsNothing(s1.(sets := MapSets(s1.sets, t), orders := s1.orders[t := []]), t, order, removed, now,
                             order);
  }

  /** Clearing a list of recent stickers empties the local one; otherwise it loses the stickers of the removed sets
      and nothing else. The orders of the other types stay. */
  lemma SavedRecent(s: State, order: seq<SetId>, removed: seq<SetId>, t: StickersType, now: int)
    requires Total(s)
    ensures var r := AfterSave(s, order, removed, t, now);
            && r.recent == (if HasRecent(removed) then [] else Without(s.recent, RemovedStickers(s.sets, removed)))
            && forall k :: k != t ==> k in r.orders && r.orders[k] == s.orders[k]
  {
    hide Rewritten, HasRecent, RemovedStickers, Without;
    RewrittenRecent(s, order, removed, t, now);
  }
}
