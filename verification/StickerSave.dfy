/** Saving the order of sticker sets: the local rewrite of the sets, and the requests that carry it out. */
module StickerSave {
  import opened Sequences

  type SetId = nat
  type Doc = nat
  type RequestId = nat
  datatype StickersType = Stickers | Masks | Emoji

  const CUSTOM: SetId := 0xFFFF_FFFF_FFFF_FFFF
  const CLOUD_RECENT: SetId := 0xFFFF_FFFF_FFFF_FFFC
  const CLOUD_RECENT_ATTACHED: SetId := 0xFFFF_FFFF_FFFF_FFF9

  datatype StickerSet = StickerSet(installed: bool, archived: bool, featured: bool, special: bool,
                                   emoji: bool, masks: bool, locked: int, installDate: int, stickers: set<Doc>)
  {
    function Type(): StickersType {
      if emoji then Emoji else if masks then Masks else Stickers
    }
    /** Reasons to keep a set that has just been uninstalled. */
    predicate KeptWhenRemoved() { featured || special || emoji || locked > 0 }
    predicate Needed() { featured || installed || archived || special || emoji || locked > 0 }
  }

  /** A request in flight; the replies of set changes carry the order their save was called with. */
  datatype Request =
    | Change(kind: StickersType, setId: SetId, install: bool, order: seq<SetId>)
    | Reorder(kind: StickersType, order: seq<SetId>)
    | ClearRecent(attached: bool)

  datatype State = State(sets: map<SetId, StickerSet>, orders: map<StickersType, seq<SetId>>, recent: seq<Doc>,
                         changes: map<StickersType, set<RequestId>>, reorders: map<StickersType, RequestId>,
                         clearRecent: RequestId, clearAttached: RequestId,
                         inFlight: map<RequestId, Request>, next: RequestId)

  predicate Total(s: State) {
    forall t: StickersType :: t in s.orders && t in s.changes && t in s.reorders
  }

  // ---- The steps of one save ----

  function Send(s: State, request: Request): State {
    s.(inFlight := s.inFlight[s.next := request], next := s.next + 1)
  }

  function SendChange(s: State, t: StickersType, id: SetId, install: bool, order: seq<SetId>): State
    requires Total(s)
  {
    Send(s, Change(t, id, install, order)).(changes := s.changes[t := s.changes[t] + {s.next}])
  }

  function SendClear(s: State, attached: bool): State {
    var sent := Send(s, ClearRecent(attached));
    if attached then sent.(clearAttached := s.next) else sent.(clearRecent := s.next)
  }

  function Cancelled(s: State, t: StickersType): State
    requires Total(s)
  {
    s.(inFlight := s.inFlight - s.changes[t] - {s.reorders[t]} - {s.clearRecent} - {s.clearAttached},
       changes := s.changes[t := {}], reorders := s.reorders[t := 0], clearRecent := 0, clearAttached := 0)
  }

  predicate IsRecent(id: SetId) { id == CLOUD_RECENT || id == CLOUD_RECENT_ATTACHED }

  function Without(docs: seq<Doc>, gone: set<Doc>): seq<Doc> {
    if docs == [] then []
    else Without(docs[..|docs| - 1], gone) + (if docs[|docs| - 1] in gone then [] else [docs[|docs| - 1]])
  }

  lemma WithoutNext(docs: seq<Doc>, n: nat, gone: set<Doc>)
    requires n < |docs|
    ensures Without(docs[..n + 1], gone) == Without(docs[..n], gone) + (if docs[n] in gone then [] else [docs[n]])
  {
    assert docs[..n + 1][..n] == docs[..n];
  }

  function RemoveOne(s: State, t: StickersType, order: seq<SetId>, id: SetId): (r: State)
    requires Total(s)
    ensures Total(r)
  {
    if IsRecent(id) then
      SendClear(s.(sets := s.sets - {CLOUD_RECENT} - {CLOUD_RECENT_ATTACHED} - {CUSTOM}, recent := []),
                id == CLOUD_RECENT_ATTACHED)
    else if id !in s.sets then s
    else
      var stickers := s.sets[id];
      var s1 := s.(recent := Without(s.recent, stickers.stickers));
      if stickers.archived then s1
      else
        var s2 := SendChange(s1, t, id, false, order);
        if stickers.KeptWhenRemoved()
        then s2.(sets := s.sets[id := stickers.(installed := false, archived := false, installDate := 0)])
        else s2.(sets := s.sets - {id})
  }

  function RemoveAll(s: State, t: StickersType, order: seq<SetId>, removed: seq<SetId>): (r: State)
    requires Total(s)
    ensures Total(r)
  {
    if removed == [] then s
    else RemoveOne(RemoveAll(s, t, order, removed[..|removed| - 1]), t, order, removed[|removed| - 1])
  }

  function ClearInstalled(t: StickersType, stickers: StickerSet): StickerSet {
    if !stickers.archived && stickers.Type() == t then stickers.(installed := false) else stickers
  }

  function Installed(x: StickerSet, unarchive: bool, now: int): StickerSet {
    x.(archived := x.archived && !unarchive, installed := true,
       installDate := if x.installDate == 0 then now else x.installDate)
  }

  lemma InstalledIs(x: StickerSet, unarchive: bool, now: int)
    ensures var y := (if unarchive then x.(archived := false) else x).(installed := true);
            Installed(x, unarchive, now) == if y.installDate == 0 then y.(installDate := now) else y
  {}

  function InstallOne(s: State, t: StickersType, order: seq<SetId>, removed: seq<SetId>, now: int,
                      id: SetId): (r: State)
    requires Total(s)
    ensures Total(r)
  {
    if id !in s.sets then s
    else
      var stickers := s.sets[id];
      var unarchive := stickers.archived && id !in removed;
      var s1 := if unarchive then SendChange(s, t, id, true, order) else s;
      s1.(orders := s.orders[t := s.orders[t] + [id]],
          sets := s.sets[id := Installed(stickers, unarchive, now)])
  }

  function InstallAll(s: State, t: StickersType, order: seq<SetId>, removed: seq<SetId>, now: int,
                      ids: seq<SetId>): (r: State)
    requires Total(s)
    ensures Total(r)
  {
    if ids == [] then s
    else InstallOne(InstallAll(s, t, order, removed, now, ids[..|ids| - 1]), t, order, removed, now, ids[|ids| - 1])
  }

  function SaveOrder(s: State, t: StickersType, order: seq<SetId>): State
    requires Total(s)
  {
    if |order| < 2 then s else Send(s, Reorder(t, order)).(reorders := s.reorders[t := s.next])
  }

  function MapSets(sets: map<SetId, StickerSet>, t: StickersType): map<SetId, StickerSet> {
    map id | id in sets :: ClearInstalled(t, sets[id])
  }

  function NeededSets(sets: map<SetId, StickerSet>): map<SetId, StickerSet> {
    map id | id in sets && sets[id].Needed() :: sets[id]
  }

  /** The local rewrite, up to the requests for changed sets. */
  function Rewritten(s: State, order: seq<SetId>, removed: seq<SetId>, t: StickersType, now: int): (r: State)
    requires Total(s)
    ensures Total(r)
  {
    var s1 := RemoveAll(Cancelled(s, t), t, order, removed);
    var s2 := s1.(sets := MapSets(s1.sets, t), orders := s1.orders[t := []]);
    var s3 := InstallAll(s2, t, order, removed, now, order);
    s3.(sets := NeededSets(s3.sets))
  }

  /** `saveStickerSets`. */
  function AfterSave(s: State, order: seq<SetId>, removed: seq<SetId>, t: StickersType, now: int): State
    requires Total(s)
  {
    var r := Rewritten(s, order, removed, t, now);
    if r.changes[t] == {} then SaveOrder(r, t, order) else r
  }

  // ---- What a save does to one set ----

  function AfterRemoval(id: SetId, stickers: StickerSet, removed: seq<SetId>): (r: seq<StickerSet>)
    ensures |r| <= 1
  {
    if (IsRecent(id) || id == CUSTOM) && (CLOUD_RECENT in removed || CLOUD_RECENT_ATTACHED in removed) then []
    else if id !in removed || stickers.archived then [stickers]
    else if stickers.KeptWhenRemoved() then [stickers.(installed := false, installDate := 0)]
    else []
  }

  function AfterInstall(id: SetId, stickers: StickerSet, order: seq<SetId>, removed: seq<SetId>, now: int): StickerSet {
    if id !in order then stickers
    else stickers.(archived := stickers.archived && id in removed, installed := true,
                   installDate := if stickers.installDate == 0 then now else stickers.installDate)
  }

  /** The whole save, seen from one set: nothing, or what the set becomes. */
  function Outcome(id: SetId, stickers: StickerSet, order: seq<SetId>, removed: seq<SetId>, t: StickersType,
                   now: int): (r: seq<StickerSet>)
    ensures |r| <= 1
  {
    var kept := AfterRemoval(id, stickers, removed);
    if kept == [] then []
    else
      var final := AfterInstall(id, ClearInstalled(t, kept[0]), order, removed, now);
      if final.Needed() then [final] else []
  }

  function Survivors(ids: seq<SetId>, sets: map<SetId, StickerSet>): seq<SetId> {
    if ids == [] then []
    else Survivors(ids[..|ids| - 1], sets) + (if ids[|ids| - 1] in sets then [ids[|ids| - 1]] else [])
  }

  /** One entry of the removed list, seen from one set. */
  function AfterOneRemoval(id: SetId, stickers: StickerSet, removed: SetId): (r: seq<StickerSet>)
    ensures |r| <= 1
  {
    if IsRecent(removed) then if IsRecent(id) || id == CUSTOM then [] else [stickers]
    else if id != removed || stickers.archived then [stickers]
    else if stickers.KeptWhenRemoved() then [stickers.(installed := false, installDate := 0)]
    else []
  }

  ghost predicate PerSet(before: map<SetId, StickerSet>, after: map<SetId, StickerSet>,
                         effect: (SetId, StickerSet) -> seq<StickerSet>)
  {
    && (forall id :: id in after <==> id in before && effect(id, before[id]) != [])
    && (forall id :: id in after ==> [after[id]] == effect(id, before[id]))
  }

  lemma RemoveOnePerSet(s: State, t: StickersType, order: seq<SetId>, removed: SetId)
    requires Total(s)
    ensures PerSet(s.sets, RemoveOne(s, t, order, removed).sets,
                   (id: SetId, x: StickerSet) => AfterOneRemoval(id, x, removed))
  {
    var r := RemoveOne(s, t, order, removed);
    if IsRecent(removed) {
      assert r.sets == s.sets - {CLOUD_RECENT} - {CLOUD_RECENT_ATTACHED} - {CUSTOM};
    } else if removed in s.sets && !s.sets[removed].archived {
      var x := s.sets[removed];
      assert r.sets ==
        if x.KeptWhenRemoved() then s.sets[removed := x.(installed := false, archived := false, installDate := 0)]
                       else s.sets - {removed};
    } else {
      assert r.sets == s.sets;
    }
    hide RemoveOne;
  }

  lemma RemovalComposes(id: SetId, stickers: StickerSet, init: seq<SetId>, last: SetId)
    ensures var k := AfterRemoval(id, stickers, init);
            AfterRemoval(id, stickers, init + [last]) == if k == [] then [] else AfterOneRemoval(id, k[0], last)
  {
    assert forall i :: i in init + [last] <==> i in init || i == last;
  }

  lemma {:induction false} RemoveAllPerSet(s: State, t: StickersType, order: seq<SetId>, removed: seq<SetId>)
    requires Total(s)
    ensures PerSet(s.sets, RemoveAll(s, t, order, removed).sets,
                   (id: SetId, x: StickerSet) => AfterRemoval(id, x, removed))
  {
    if removed != [] {
      var init, last := removed[..|removed| - 1], removed[|removed| - 1];
      RemoveAllPerSet(s, t, order, init);
      RemoveOnePerSet(RemoveAll(s, t, order, init), t, order, last);
      assert removed == init + [last];
      hide AfterRemoval, AfterOneRemoval, RemoveOne;
      forall id | id in s.sets { RemovalComposes(id, s.sets[id], init, last); }
    }
  }

  lemma InstallOnePerSet(s: State, t: StickersType, order: seq<SetId>, removed: seq<SetId>, now: int, last: SetId)
    requires Total(s)
    ensures var r := InstallOne(s, t, order, removed, now, last);
            && r.sets.Keys == s.sets.Keys
            && (forall id :: id in s.sets ==> r.sets[id] == AfterInstall(id, s.sets[id], [last], removed, now))
            && r.orders[t] == s.orders[t] + Survivors([last], s.sets)
  {
    assert Survivors([last], s.sets) == if last in s.sets then [last] else [] by {
      assert [last][..0] == [];
    }
    hide Survivors;
  }

  lemma InstallComposes(id: SetId, x: StickerSet, init: seq<SetId>, last: SetId, removed: seq<SetId>, now: int)
    ensures AfterInstall(id, x, init + [last], removed, now)
         == AfterInstall(id, AfterInstall(id, x, init, removed, now), [last], removed, now)
  {}

  lemma SurvivorsNext(init: seq<SetId>, last: SetId, sets: map<SetId, StickerSet>)
    ensures Survivors(init + [last], sets) == Survivors(init, sets) + Survivors([last], sets)
  {
    assert (init + [last])[..|init|] == init && [last][..0] == [];
  }

  lemma {:induction false} InstallAllPerSet(s: State, t: StickersType, order: seq<SetId>, removed: seq<SetId>, now: int,
                                            ids: seq<SetId>)
    requires Total(s) && s.orders[t] == []
    ensures var r := InstallAll(s, t, order, removed, now, ids);
            && r.sets.Keys == s.sets.Keys
            && (forall id :: id in s.sets ==> r.sets[id] == AfterInstall(id, s.sets[id], ids, removed, now))
            && r.orders[t] == Survivors(ids, s.sets)
  {
    if ids != [] {
      var init, last := ids[..|ids| - 1], ids[|ids| - 1];
      var r := InstallAll(s, t, order, removed, now, init);
      assert InstallAll(s, t, order, removed, now, ids) == InstallOne(r, t, order, removed, now, last);
      hide InstallAll, InstallOne, AfterInstall, Survivors;
      InstallAllPerSet(s, t, order, removed, now, init);
      InstallOnePerSet(r, t, order, removed, now, last);
      assert ids == init + [last];
      forall id | id in s.sets { InstallComposes(id, s.sets[id], init, last, removed, now); }
      SurvivorsNext(init, last, s.sets);
      OneSurvives(last, s.sets, r.sets);
    }
  }

  lemma OneSurvives(id: SetId, a: map<SetId, StickerSet>, b: map<SetId, StickerSet>)
    requires a.Keys == b.Keys
    ensures Survivors([id], a) == Survivors([id], b)
  {
    assert [id][..0] == [];
  }

  lemma {:induction false} SurvivorsAgree(ids: seq<SetId>, a: map<SetId, StickerSet>, b: map<SetId, StickerSet>)
    requires forall id :: id in ids ==> (id in a <==> id in b)
    ensures Survivors(ids, a) == Survivors(ids, b)
  {
    if ids != [] {
      var last := ids[|ids| - 1];
      assert last in ids && (last in a <==> last in b);
      assert forall id :: id in ids[..|ids| - 1] ==> id in ids;
      SurvivorsAgree(ids[..|ids| - 1], a, b);
    }
  }

  lemma RewrittenPerSet(s: State, order: seq<SetId>, removed: seq<SetId>, t: StickersType, now: int)
    requires Total(s)
    ensures var r := Rewritten(s, order, removed, t, now);
            && PerSet(s.sets, r.sets, (id: SetId, x: StickerSet) => Outcome(id, x, order, removed, t, now))
            && r.orders[t] == Survivors(order, r.sets)
  {
    hide RemoveAll, InstallAll, AfterRemoval, AfterInstall, ClearInstalled, Survivors, PerSet, Outcome;
    var s0 := Cancelled(s, t);
    var s1 := RemoveAll(s0, t, order, removed);
    RemoveAllPerSet(s0, t, order, removed);
    var s2 := s1.(sets := MapSets(s1.sets, t), orders := s1.orders[t := []]);
    InstallAllPerSet(s2, t, order, removed, now, order);
    var s3 := InstallAll(s2, t, order, removed, now, order);
    InstalledIsNeeded(s2.sets, s3.sets, order, removed, now);
    SurvivorsAgree(order, s2.sets, NeededSets(s3.sets));
    PassesCompose(s.sets, s1.sets, s3.sets, order, removed, t, now);
    assert Rewritten(s, order, removed, t, now) == s3.(sets := NeededSets(s3.sets));
  }

  /** The three passes amount to the outcome of each set on its own, and the saved order is the given order
      without the sets that are gone. */
  lemma SavePerSet(s: State, order: seq<SetId>, removed: seq<SetId>, t: StickersType, now: int)
    requires Total(s)
    ensures var r := AfterSave(s, order, removed, t, now);
            && PerSet(s.sets, r.sets, (id: SetId, x: StickerSet) => Outcome(id, x, order, removed, t, now))
            && r.orders[t] == Survivors(order, r.sets)
  {
    hide Rewritten, PerSet, Survivors, Outcome;
    RewrittenPerSet(s, order, removed, t, now);
  }

  lemma PassesCompose(m0: map<SetId, StickerSet>, m1: map<SetId, StickerSet>, m3: map<SetId, StickerSet>,
                      order: seq<SetId>, removed: seq<SetId>, t: StickersType, now: int)
    requires PerSet(m0, m1, (id: SetId, x: StickerSet) => AfterRemoval(id, x, removed))
    requires m3.Keys == m1.Keys
    requires forall id :: id in m1 ==> m3[id] == AfterInstall(id, ClearInstalled(t, m1[id]), order, removed, now)
    ensures PerSet(m0, NeededSets(m3), (id: SetId, x: StickerSet) => Outcome(id, x, order, removed, t, now))
  {
    hide AfterRemoval, AfterInstall, ClearInstalled;
  }

  lemma InstalledIsNeeded(before: map<SetId, StickerSet>, after: map<SetId, StickerSet>, order: seq<SetId>,
                          removed: seq<SetId>, now: int)
    requires after.Keys == before.Keys
    requires forall id :: id in before ==> after[id] == AfterInstall(id, before[id], order, removed, now)
    ensures forall id :: id in order ==> (id in before <==> id in NeededSets(after))
  {}

  /** After a save: the order is the given one without the sets that are gone; among the sets of the saved type
      that are not archived, exactly those of the order are installed; every set left has a reason to stay. */
  lemma SavedSets(s: State, order: seq<SetId>, removed: seq<SetId>, t: StickersType, now: int)
    requires Total(s)
    ensures var r := AfterSave(s, order, removed, t, now);
            && r.orders[t] == Survivors(order, r.sets)
            && (forall id :: id in r.sets && !r.sets[id].archived && r.sets[id].Type() == t ==>
                  (r.sets[id].installed <==> id in order))
            && (forall id :: id in r.sets ==> r.sets[id].Needed())
  {
    SavePerSet(s, order, removed, t, now);
    hide AfterSave, Outcome;
    var r := AfterSave(s, order, removed, t, now);
    forall id | id in r.sets
      ensures r.sets[id].Needed()
      ensures !r.sets[id].archived && r.sets[id].Type() == t ==> (r.sets[id].installed <==> id in order)
    {
      OutcomeFacts(id, s.sets[id], order, removed, t, now);
      assert [r.sets[id]] == Outcome(id, s.sets[id], order, removed, t, now);
      assert [r.sets[id]][0] == Outcome(id, s.sets[id], order, removed, t, now)[0];
    }
  }

  lemma OutcomeFacts(id: SetId, x: StickerSet, order: seq<SetId>, removed: seq<SetId>, t: StickersType, now: int)
    requires Outcome(id, x, order, removed, t, now) != []
    ensures var y := Outcome(id, x, order, removed, t, now)[0];
            y.Needed() && (!y.archived && y.Type() == t ==> (y.installed <==> id in order))
  {
    RemovalKeepsKind(id, x, removed);
    hide AfterRemoval;
  }

  /** A needed set of another type that neither list names stays as it is. */
  lemma OthersStay(s: State, order: seq<SetId>, removed: seq<SetId>, t: StickersType, now: int, id: SetId)
    requires Total(s) && id in s.sets && s.sets[id].Type() != t && s.sets[id].Needed()
    requires id !in order && id !in removed && !IsRecent(id) && id != CUSTOM
    ensures var r := AfterSave(s, order, removed, t, now); id in r.sets && r.sets[id] == s.sets[id]
  {
    SavePerSet(s, order, removed, t, now);
    hide AfterSave;
  }

  /** A removed set that stays is not removed by a second pass, whatever the passes in between set. */
  lemma RemovalTwice(id: SetId, x: StickerSet, y: StickerSet, removed: seq<SetId>)
    requires AfterRemoval(id, x, removed) != []
    requires y.featured == x.featured && y.special == x.special && y.emoji == x.emoji && y.locked == x.locked
    requires y.archived ==> x.archived
    requires id in removed ==> y.archived == x.archived
    ensures AfterRemoval(id, y, removed)
         == [if id !in removed || y.archived then y else y.(installed := false, installDate := 0)]
  {}

  lemma OutcomeTwice(id: SetId, x: StickerSet, order: seq<SetId>, removed: seq<SetId>, t: StickersType, now: int)
    requires Outcome(id, x, order, removed, t, now) != []
    ensures var y := Outcome(id, x, order, removed, t, now);
            Outcome(id, y[0], order, removed, t, now) == y
  {
    var kept := AfterRemoval(id, x, removed)[0];
    var y := AfterInstall(id, ClearInstalled(t, kept), order, removed, now);
    RemovalTwice(id, x, y, removed);
    RemovalKeepsKind(id, x, removed);
    hide AfterRemoval;
    InstallTwice(id, kept, y, order, removed, t, now);
    assert Outcome(id, x, order, removed, t, now) == [y];
    hide AfterInstall, ClearInstalled;
  }

  lemma InstallTwice(id: SetId, x: StickerSet, y: StickerSet, order: seq<SetId>, removed: seq<SetId>, t: StickersType,
                     now: int)
    requires y == AfterInstall(id, ClearInstalled(t, x), order, removed, now)
    requires id in removed && !x.archived ==> !x.installed && x.installDate == 0
    ensures AfterInstall(id, ClearInstalled(t, y), order, removed, now) == y
    ensures id in removed && !y.archived ==>
      AfterInstall(id, ClearInstalled(t, y.(installed := false, installDate := 0)), order, removed, now) == y
  {
    assert y.Type() == x.Type() && (y.archived ==> x.archived);
  }

  lemma RemovalKeepsKind(id: SetId, x: StickerSet, removed: seq<SetId>)
    requires AfterRemoval(id, x, removed) != []
    ensures var k := AfterRemoval(id, x, removed)[0];
            && k == x.(installed := k.installed, installDate := k.installDate)
            && (id !in removed || x.archived ==> k == x)
            && (id in removed && !x.archived ==> !k.installed && k.installDate == 0)
  {}

  /** Saving the same lists again changes neither the sets nor the order. */
  lemma SaveTwice(s: State, order: seq<SetId>, removed: seq<SetId>, t: StickersType, now: int)
    requires Total(s)
    ensures var r := AfterSave(s, order, removed, t, now);
            Total(r) && var q := AfterSave(r, order, removed, t, now); q.sets == r.sets && q.orders[t] == r.orders[t]
  {
    var r := AfterSave(s, order, removed, t, now);
    var q := AfterSave(r, order, removed, t, now);
    SavePerSet(s, order, removed, t, now);
    SavePerSet(r, order, removed, t, now);
    hide AfterSave, Outcome;
    forall id | id in r.sets
      ensures Outcome(id, r.sets[id], order, removed, t, now) == Outcome(id, s.sets[id], order, removed, t, now)
    {
      assert [r.sets[id]] == Outcome(id, s.sets[id], order, removed, t, now);
      OutcomeTwice(id, s.sets[id], order, removed, t, now);
    }
    SameOutcome(s.sets, r.sets, q.sets, (id: SetId, x: StickerSet) => Outcome(id, x, order, removed, t, now));
  }

  lemma SameOutcome(a: map<SetId, StickerSet>, b: map<SetId, StickerSet>, c: map<SetId, StickerSet>,
                    effect: (SetId, StickerSet) -> seq<StickerSet>)
    requires PerSet(a, b, effect) && PerSet(b, c, effect)
    requires forall id :: id in b ==> effect(id, b[id]) == effect(id, a[id])
    ensures b == c
  {
    forall id | id in b
      ensures id in c && c[id] == b[id]
    {
      assert effect(id, b[id]) == [b[id]];
      assert [c[id]] == [b[id]];
      assert [c[id]][0] == [b[id]][0];
    }
    forall id | id in c
      ensures id in b
    {
    }
    assert c.Keys == b.Keys;
  }

  // ---- The requests over whole runs ----

  function AfterReply(s: State, id: RequestId): State
    requires Total(s) && id in s.inFlight
  {
    var s1 := s.(inFlight := s.inFlight - {id});
    match s.inFlight[id]
    case Change(t, _, _, order) =>
      var s2 := s1.(changes := s1.changes[t := s1.changes[t] - {id}]);
      if s2.changes[t] == {} then SaveOrder(s2, t, order) else s2
    case Reorder(t, _) => s1.(reorders := s1.reorders[t := 0])
    case ClearRecent(attached) => if attached then s1.(clearAttached := 0) else s1.(clearRecent := 0)
  }

  datatype Step =
    | Save(order: seq<SetId>, removed: seq<SetId>, kind: StickersType, now: int)
    | Reply(id: RequestId)

  /** The latest save of a type, and how many reorder requests it has sent. */
  datatype Saving = Saving(order: seq<SetId>, reordersSent: nat)
  datatype Trace = Trace(state: State, saving: map<StickersType, Saving>)

  predicate Enabled(s: State, step: Step) { step.Reply? ==> step.id in s.inFlight }

  function Next(t: Trace, step: Step): Trace
    requires Total(t.state) && Enabled(t.state, step)
  {
    match step
    case Save(order, removed, k, now) =>
      var s' := AfterSave(t.state, order, removed, k, now);
      Trace(s', t.saving[k := Saving(order, if s'.reorders[k] != 0 then 1 else 0)])
    case Reply(id) =>
      var s' := AfterReply(t.state, id);
      var request := t.state.inFlight[id];
      if request.Change? && request.kind in t.saving && s'.next != t.state.next then
        var was := t.saving[request.kind];
        Trace(s', t.saving[request.kind := was.(reordersSent := was.reordersSent + 1)])
      else Trace(s', t.saving)
  }

  /** One type's remembered ids and its requests in flight. */
  datatype View = View(changes: set<RequestId>, reorder: RequestId, live: map<RequestId, Request>)

  ghost function Of(s: State, k: StickersType): (v: View)
    requires Total(s)
    ensures v.changes == s.changes[k] && v.reorder == s.reorders[k]
    ensures forall id :: id in v.live ==> !v.live[id].ClearRecent?
  {
    View(s.changes[k], s.reorders[k],
         map id | id in s.inFlight && !s.inFlight[id].ClearRecent? && s.inFlight[id].kind == k :: s.inFlight[id])
  }

  /** The remembered ids are the requests in flight. */
  ghost predicate Matching(v: View) {
    && v.changes == (set id | id in v.live && v.live[id].Change?)
    && (forall id :: id in v.live && v.live[id].Reorder? ==> id == v.reorder)
    && (v.reorder != 0 ==> v.reorder in v.live && v.live[v.reorder].Reorder?)
  }

  ghost predicate Ids(s: State) {
    && Total(s) && s.next > 0 && s.clearRecent < s.next && s.clearAttached < s.next
    && (forall id :: id in s.inFlight ==> 0 < id < s.next)
    && (forall id :: id in s.inFlight && (id == s.clearRecent || id == s.clearAttached) ==> s.inFlight[id].ClearRecent?)
  }

  /** A live reorder means no change is outstanding, and the latest save has sent its one reorder exactly when
      nothing is outstanding and there was something to order. */
  ghost predicate Settled(v: View, saving: map<StickersType, Saving>, k: StickersType) {
    && Matching(v)
    && (forall id :: id in v.live ==> !v.live[id].ClearRecent?)
    && (v.reorder != 0 ==> v.changes == {})
    && (k !in saving ==> v.live == map[])
    && (k in saving ==>
          && (forall id :: id in v.live ==> v.live[id].order == saving[k].order)
          && saving[k].reordersSent == if v.changes == {} && |saving[k].order| >= 2 then 1 else 0)
  }

  ghost predicate Inv(t: Trace) {
    Ids(t.state) && forall k :: Settled(Of(t.state, k), t.saving, k)
  }

  /** In the middle of a save of type `t`: no reorder of it is live and every change carries this save's order. */
  ghost predicate Saved(s0: State, s: State, t: StickersType, order: seq<SetId>) {
    && Total(s0) && Ids(s) && s.reorders[t] == 0
    && Matching(Of(s, t))
    && (forall id :: id in Of(s, t).live ==> Of(s, t).live[id].order == order)
    && (forall k :: k != t ==> Of(s, k) == Of(s0, k))
  }

  lemma CancelIds(s: State, t: StickersType)
    requires Ids(s)
    ensures Ids(Cancelled(s, t))
  {}

  lemma CancelOwn(s: State, t: StickersType)
    requires Ids(s) && Matching(Of(s, t))
    ensures Ids(Cancelled(s, t)) && Of(Cancelled(s, t), t) == View({}, 0, map[])
  {
    CancelIds(s, t);
    var r := Cancelled(s, t);
    hide Ids;
    var changes, reorder := s.changes[t], s.reorders[t];
    var before, left := Of(s, t).live.Keys, Of(r, t).live.Keys;
    assert left <= before - changes - {reorder} && before <= changes + {reorder};
    assert left == {};
  }

  lemma CancelOther(s: State, t: StickersType, k: StickersType)
    requires Ids(s) && Matching(Of(s, t)) && k != t
    ensures Of(Cancelled(s, t), k) == Of(s, k)
  {
    forall id | id in Of(s, k).live
      ensures id in Of(Cancelled(s, t), k).live
    {
      assert id !in Of(s, t).live;
    }
  }

  lemma CancelKeeps(s: State, t: StickersType, order: seq<SetId>)
    requires Ids(s) && forall k :: Matching(Of(s, k))
    ensures Saved(s, Cancelled(s, t), t, order) && Cancelled(s, t).changes[t] == {}
  {
    CancelOwn(s, t);
    forall k | k != t { CancelOther(s, t, k); }
    hide Of, Cancelled;
  }

  lemma SendView(s: State, request: Request, k: StickersType)
    requires Ids(s)
    ensures Of(Send(s, request), k).live ==
      if !request.ClearRecent? && request.kind == k then Of(s, k).live[s.next := request] else Of(s, k).live
  {}

  lemma SendChangeKeeps(s0: State, s: State, t: StickersType, order: seq<SetId>, id: SetId, install: bool)
    requires Saved(s0, s, t, order)
    ensures Saved(s0, SendChange(s, t, id, install, order), t, order)
  {
    var r := SendChange(s, t, id, install, order);
    forall k
      ensures Of(r, k) == if k == t then View(s.changes[t] + {s.next}, s.reorders[t],
                                             Of(s, t).live[s.next := Change(t, id, install, order)]) else Of(s, k)
    {
      SendView(s, Change(t, id, install, order), k);
    }
  }

  lemma SendClearKeeps(s0: State, s: State, t: StickersType, order: seq<SetId>, attached: bool)
    requires Saved(s0, s, t, order)
    ensures Saved(s0, SendClear(s, attached), t, order)
  {
    forall k
      ensures Of(SendClear(s, attached), k) == Of(s, k)
    {
      SendView(s, ClearRecent(attached), k);
    }
  }

  lemma {:induction false} RemoveAllKeeps(s0: State, s: State, t: StickersType, order: seq<SetId>, removed: seq<SetId>)
    requires Saved(s0, s, t, order)
    ensures Saved(s0, RemoveAll(s, t, order, removed), t, order)
  {
    hide SendChange, SendClear;
    if removed != [] {
      var r, id := RemoveAll(s, t, order, removed[..|removed| - 1]), removed[|removed| - 1];
      RemoveAllKeeps(s0, s, t, order, removed[..|removed| - 1]);
      if IsRecent(id) {
        LocalOnly(s0, r,
                  r.(sets := r.sets - {CLOUD_RECENT} - {CLOUD_RECENT_ATTACHED} - {CUSTOM}, recent := []), t, order);
        SendClearKeeps(s0,
                       r.(sets := r.sets - {CLOUD_RECENT} - {CLOUD_RECENT_ATTACHED} - {CUSTOM}, recent := []), t, order,
                       id == CLOUD_RECENT_ATTACHED);
      } else if id in r.sets {
        var r1 := r.(recent := Without(r.recent, r.sets[id].stickers));
        LocalOnly(s0, r, r1, t, order);
        SendChangeKeeps(s0, r1, t, order, id, false);
        LocalOnly(s0, if r.sets[id].archived then r1 else SendChange(r1, t, id, false, order),
                  RemoveOne(r, t, order, id), t, order);
      }
    }
  }

  /** The sets, the orders and the recent stickers do not matter to the requests. */
  lemma LocalOnly(s0: State, s: State, r: State, t: StickersType, order: seq<SetId>)
    requires Saved(s0, s, t, order) && Total(r)
    requires r == s.(sets := r.sets, orders := r.orders, recent := r.recent)
    ensures Saved(s0, r, t, order)
  {
    assert forall k :: Of(r, k) == Of(s, k);
  }

  lemma {:induction false} InstallAllKeeps(s0: State, s: State, t: StickersType, order: seq<SetId>,
                                           removed: seq<SetId>, now: int, ids: seq<SetId>)
    requires Saved(s0, s, t, order)
    ensures Saved(s0, InstallAll(s, t, order, removed, now, ids), t, order)
  {
    hide SendChange;
    if ids != [] {
      var r, id := InstallAll(s, t, order, removed, now, ids[..|ids| - 1]), ids[|ids| - 1];
      InstallAllKeeps(s0, s, t, order, removed, now, ids[..|ids| - 1]);
      if id in r.sets {
        SendChangeKeeps(s0, r, t, order, id, true);
        LocalOnly(s0, if r.sets[id].archived && id !in removed then SendChange(r, t, id, true, order) else r,
                  InstallOne(r, t, order, removed, now, id), t, order);
      }
    }
  }

  lemma NothingLive(s: State, t: StickersType)
    requires Ids(s) && Matching(Of(s, t)) && s.changes[t] == {} && s.reorders[t] == 0
    ensures Of(s, t) == View({}, 0, map[])
  {
    var v := Of(s, t);
    assert forall id :: id in v.live ==> id in v.changes || id == v.reorder;
    assert v.live.Keys == {};
  }

  lemma SaveOrderView(s: State, t: StickersType, order: seq<SetId>)
    requires Ids(s) && Of(s, t) == View({}, 0, map[])
    ensures var r := SaveOrder(s, t, order);
            && Ids(r)
            && Of(r, t) ==
                 (if |order| >= 2 then View({}, s.next, map[s.next := Reorder(t, order)]) else View({}, 0, map[]))
            && (forall k :: k != t ==> Of(r, k) == Of(s, k))
  {
    if |order| >= 2 {
      forall k
        ensures Of(SaveOrder(s, t, order), k).live == Of(Send(s, Reorder(t, order)), k).live
      {
        SendView(s, Reorder(t, order), k);
      }
      forall k | k != t { SendView(s, Reorder(t, order), k); }
      SendView(s, Reorder(t, order), t);
    }
  }

  lemma SaveOrderKeeps(s0: State, s: State, t: StickersType, order: seq<SetId>, saving: map<StickersType, Saving>)
    requires Saved(s0, s, t, order) && s.changes[t] == {}
    requires t in saving && saving[t] == Saving(order, if |order| >= 2 then 1 else 0)
    requires forall k :: k != t ==> Settled(Of(s0, k), saving, k)
    ensures Inv(Trace(SaveOrder(s, t, order), saving))
  {
    hide Of, SaveOrder;
    NothingLive(s, t);
    SaveOrderView(s, t, order);
  }

  lemma RewrittenSaved(s: State, order: seq<SetId>, removed: seq<SetId>, k: StickersType, now: int)
    requires Ids(s) && forall j :: Matching(Of(s, j))
    ensures Saved(s, Rewritten(s, order, removed, k, now), k, order)
  {
    hide Of, Cancelled, RemoveAll, InstallAll, MapSets, NeededSets, Matching;
    CancelKeeps(s, k, order);
    var s0 := Cancelled(s, k);
    RemoveAllKeeps(s, s0, k, order, removed);
    var s1 := RemoveAll(s0, k, order, removed);
    var s2 := s1.(sets := MapSets(s1.sets, k), orders := s1.orders[k := []]);
    LocalOnly(s, s1, s2, k, order);
    InstallAllKeeps(s, s2, k, order, removed, now, order);
    var s3 := InstallAll(s2, k, order, removed, now, order);
    LocalOnly(s, s3, s3.(sets := NeededSets(s3.sets)), k, order);
  }

  lemma SaveKeeps(t: Trace, step: Step)
    requires Inv(t) && step.Save?
    ensures Inv(Next(t, step))
  {
    hide Of, Rewritten, SaveOrder;
    var k, order := step.kind, step.order;
    var s := t.state;
    forall j
      ensures Matching(Of(s, j))
    {
      assert Settled(Of(s, j), t.saving, j);
    }
    RewrittenSaved(s, order, step.removed, k, step.now);
    var r := Rewritten(s, order, step.removed, k, step.now);
    if r.changes[k] == {} {
      SaveOrderSends(r, k, order);
      SaveOrderKeeps(s, r, k, order, t.saving[k := Saving(order, if |order| >= 2 then 1 else 0)]);
    }
  }

  lemma SaveOrderSends(s: State, t: StickersType, order: seq<SetId>)
    requires Ids(s) && s.reorders[t] == 0
    ensures SaveOrder(s, t, order).reorders[t] != 0 <==> |order| >= 2
  {}

  lemma ReplyView(s: State, id: RequestId, k: StickersType)
    requires Ids(s) && id in s.inFlight
    ensures Of(s.(inFlight := s.inFlight - {id}), k).live == Of(s, k).live - {id}
    ensures id in Of(s, k).live <==> !s.inFlight[id].ClearRecent? && s.inFlight[id].kind == k
  {}

  lemma OtherReplyView(s: State, id: RequestId, k: StickersType)
    requires Ids(s) && id in s.inFlight && !s.inFlight[id].Change?
    ensures var v, v' := Of(s, k), Of(AfterReply(s, id), k);
      v' == if s.inFlight[id].Reorder? && s.inFlight[id].kind == k then View(v.changes, 0, v.live - {id}) else v
    ensures s.inFlight[id].Reorder? && s.inFlight[id].kind == k ==> id in Of(s, k).live && Of(s, k).live[id].Reorder?
  {
    ReplyView(s, id, k);
    assert Of(AfterReply(s, id), k).live == Of(s, k).live - {id};
    hide Ids;
  }

  lemma ReorderAnswered(v: View, saving: map<StickersType, Saving>, k: StickersType, id: RequestId)
    requires Settled(v, saving, k) && id in v.live && v.live[id].Reorder?
    ensures Settled(View(v.changes, 0, v.live - {id}), saving, k)
  {
    assert id == v.reorder;
  }

  /** A reply that is not a change's: the view of its own type loses the reorder, the others nothing. */
  lemma OtherReplySettles(t: Trace, id: RequestId, k: StickersType)
    requires Inv(t) && id in t.state.inFlight && !t.state.inFlight[id].Change?
    ensures Settled(Of(AfterReply(t.state, id), k), t.saving, k)
  {
    var s := t.state;
    assert Settled(Of(s, k), t.saving, k);
    OtherReplyView(s, id, k);
    hide Of, Settled, AfterReply;
    if s.inFlight[id].Reorder? && s.inFlight[id].kind == k {
      ReorderAnswered(Of(s, k), t.saving, k, id);
    }
  }

  lemma OtherReplyKeeps(t: Trace, id: RequestId)
    requires Inv(t) && id in t.state.inFlight && !t.state.inFlight[id].Change?
    ensures Inv(Next(t, Reply(id)))
  {
    forall k { OtherReplySettles(t, id, k); }
    hide Of, Settled;
  }

  /** While a change is outstanding its save has sent no reorder. */
  lemma ChangeOutstanding(t: Trace, id: RequestId)
    requires Inv(t) && id in t.state.inFlight && t.state.inFlight[id].Change?
    ensures var s, request := t.state, t.state.inFlight[id];
            && id in s.changes[request.kind] && s.reorders[request.kind] == 0
            && request.kind in t.saving && t.saving[request.kind] == Saving(request.order, 0)
  {
    var k := t.state.inFlight[id].kind;
    assert Settled(Of(t.state, k), t.saving, k);
    assert id in Of(t.state, k).live;
  }

  lemma ChangeReplySaved(t: Trace, id: RequestId)
    requires Inv(t) && id in t.state.inFlight && t.state.inFlight[id].Change?
    ensures var s, request := t.state, t.state.inFlight[id];
            var k := request.kind;
            Saved(s, s.(inFlight := s.inFlight - {id},
                  changes := s.changes[k := s.changes[k] - {id}]), k, request.order)
  {
    var s, request := t.state, t.state.inFlight[id];
    var k, order := request.kind, request.order;
    var s2 := s.(inFlight := s.inFlight - {id}, changes := s.changes[k := s.changes[k] - {id}]);
    ChangeOutstanding(t, id);
    forall j
      ensures Of(s2, j) == if j == k then View(s.changes[k] - {id}, s.reorders[k], Of(s, k).live - {id}) else Of(s, j)
    {
      ReplyView(s, id, j);
    }
    assert Settled(Of(s, k), t.saving, k);
    hide Of;
  }

  lemma ChangeReplyKeeps(t: Trace, id: RequestId)
    requires Inv(t) && id in t.state.inFlight && t.state.inFlight[id].Change?
    ensures Inv(Next(t, Reply(id)))
  {
    hide SaveOrder, Of;
    var s, request := t.state, t.state.inFlight[id];
    var k, order := request.kind, request.order;
    var s2 := s.(inFlight := s.inFlight - {id}, changes := s.changes[k := s.changes[k] - {id}]);
    ChangeOutstanding(t, id);
    ChangeReplySaved(t, id);
    if s2.changes[k] == {} {
      SaveOrderKeeps(s, s2, k, order, t.saving[k := Saving(order, if |order| >= 2 then 1 else 0)]);
      SaveOrderNext(s2, k, order);
    }
  }

  lemma SaveOrderNext(s: State, t: StickersType, order: seq<SetId>)
    requires Total(s)
    ensures SaveOrder(s, t, order).next == if |order| >= 2 then s.next + 1 else s.next
  {}

  lemma StepKeeps(t: Trace, step: Step)
    requires Inv(t) && Enabled(t.state, step)
    ensures Inv(Next(t, step))
  {
    hide Next, Of;
    if step.Save? { SaveKeeps(t, step); }
    else if t.state.inFlight[step.id].Change? { ChangeReplyKeeps(t, step.id); }
    else { OtherReplyKeeps(t, step.id); }
  }

  ghost predicate Possible(t: Trace, steps: seq<Step>)
    decreases |steps|
  {
    steps != [] ==> Total(t.state) && Enabled(t.state, steps[0]) && Possible(Next(t, steps[0]), steps[1..])
  }

  ghost function Run(t: Trace, steps: seq<Step>): Trace
    requires Possible(t, steps)
    decreases |steps|
  {
    if steps == [] then t else Run(Next(t, steps[0]), steps[1..])
  }

  lemma {:induction false} EveryRunKeeps(t: Trace, steps: seq<Step>)
    requires Inv(t) && Possible(t, steps)
    ensures Inv(Run(t, steps))
    decreases |steps|
  {
    hide Inv, Next, Enabled;
    if steps != [] {
      StepKeeps(t, steps[0]);
      EveryRunKeeps(Next(t, steps[0]), steps[1..]);
    }
  }

  /** A session that has sent nothing yet is where every run starts. */
  lemma IdleIsSound(s: State)
    requires Total(s) && s.next > 0 && s.inFlight == map[] && s.clearRecent == 0 && s.clearAttached == 0
    requires forall k :: s.changes[k] == {} && s.reorders[k] == 0
    ensures Inv(Trace(s, map[]))
  {
    assert forall k :: Of(s, k) == View({}, 0, map[]);
  }

  /** In every reachable state: while a reorder of a type is live none of its changes is outstanding; the latest
      save has sent exactly one reorder, with its own order, once nothing of it is outstanding, none before, and
      none at all for fewer than two sets. */
  lemma ReorderAfterChanges(start: Trace, steps: seq<Step>, k: StickersType)
    requires Inv(start) && Possible(start, steps)
    ensures var t := Run(start, steps);
            && Total(t.state)
            && (t.state.reorders[k] != 0 ==> t.state.changes[k] == {})
            && (k in t.saving ==>
                  t.saving[k].reordersSent == if t.state.changes[k] == {} && |t.saving[k].order| >= 2 then 1 else 0)
            && (t.state.reorders[k] != 0 ==> k in t.saving && t.state.reorders[k] in t.state.inFlight)
            && (t.state.reorders[k] != 0 ==> t.state.inFlight[t.state.reorders[k]] == Reorder(k, t.saving[k].order))
  {
    EveryRunKeeps(start, steps);
    assert Settled(Of(Run(start, steps).state, k), Run(start, steps).saving, k);
  }

  // ---- The methods ----

  class ApiStickers {
    var sets: map<SetId, StickerSet>
    var orders: map<StickersType, seq<SetId>>
    var recent: seq<Doc>
    var setDisenableRequests: map<StickersType, set<RequestId>>
    var reorderRequestId: map<StickersType, RequestId>
    var clearRecentRequestId: RequestId
    var clearRecentAttachedRequestId: RequestId
    // The network's side.
    var inFlight: map<RequestId, Request>
    var nextId: RequestId

    ghost function Abs(): State
      reads this
    {
      State(sets, orders, recent, setDisenableRequests, reorderRequestId, clearRecentRequestId,
            clearRecentAttachedRequestId, inFlight, nextId)
    }

    method SendRequest(request: Request) returns (id: RequestId)
      modifies this`inFlight, this`nextId
      ensures id == old(nextId) && Abs() == Send(old(Abs()), request)
    {
      id := nextId;
      inFlight := inFlight[id := request];
      nextId := nextId + 1;
    }

    method SendSetChange(t: StickersType, setId: SetId, install: bool, localOrder: seq<SetId>)
      requires Total(Abs())
      modifies this`inFlight, this`nextId, this`setDisenableRequests
      ensures Abs() == SendChange(old(Abs()), t, setId, install, localOrder)
    {
      var requestId := SendRequest(Change(t, setId, install, localOrder));
      setDisenableRequests := setDisenableRequests[t := setDisenableRequests[t] + {requestId}];
    }

    method StickersSaveOrder(t: StickersType, localOrder: seq<SetId>)
      requires Total(Abs())
      modifies this`inFlight, this`nextId, this`reorderRequestId
      ensures Abs() == SaveOrder(old(Abs()), t, localOrder)
    {
      if |localOrder| < 2 { return; }
      var id := SendRequest(Reorder(t, localOrder));
      reorderRequestId := reorderRequestId[t := id];
    }

    method CancelRequests(t: StickersType)
      requires Total(Abs())
      modifies this
      ensures Abs() == Cancelled(old(Abs()), t)
    {
      inFlight := inFlight - setDisenableRequests[t];
      setDisenableRequests := setDisenableRequests[t := {}];
      inFlight := inFlight - {reorderRequestId[t]};
      reorderRequestId := reorderRequestId[t := 0];
      inFlight := inFlight - {clearRecentRequestId};
      clearRecentRequestId := 0;
      inFlight := inFlight - {clearRecentAttachedRequestId};
      clearRecentAttachedRequestId := 0;
    }

    /** The body of the loop: the sticker goes, or the next one is looked at. */
    method ForgetOne(i: nat, gone: set<Doc>, ghost kept: seq<Doc>, ghost docs: seq<Doc>, ghost seen: nat)
      returns (next: nat)
      requires seen < |docs| && i == |kept| && recent == kept + docs[seen..]
      modifies this`recent
      ensures var kept' := kept + if docs[seen] in gone then [] else [docs[seen]];
        next == |kept'| && recent == kept' + docs[seen + 1..]
    {
      ghost var rest := docs[seen + 1..];
      assert docs[seen..] == [docs[seen]] + rest && kept + [] == kept;
      EraseOrKeep(kept, docs[seen], rest);
      if recent[i] in gone {
        recent := recent[..i] + recent[i + 1..];
        next := i;
      } else {
        next := i + 1;
      }
    }

    /** Erases the recent stickers of one set, front to back. */
    method ForgetRecent(gone: set<Doc>)
      modifies this`recent
      ensures recent == Without(old(recent), gone)
    {
      var i := 0;
      ghost var seen, docs := 0, recent;
      assert docs[..0] == [] && docs[0..] == docs && Without([], gone) + docs == docs;
      hide Without;
      while i < |recent|
        invariant 0 <= seen <= |docs| && i == |Without(docs[..seen], gone)|
        invariant recent == Without(docs[..seen], gone) + docs[seen..]
        decreases |docs| - seen
      {
        WithoutNext(docs, seen, gone);
        i := ForgetOne(i, gone, Without(docs[..seen], gone), docs, seen);
        seen := seen + 1;
      }
      assert docs[..seen] == docs && docs[seen..] == [];
    }

    method RemoveSet(t: StickersType, localOrder: seq<SetId>, removedSetId: SetId)
      requires Total(Abs())
      modifies this
      ensures Abs() == RemoveOne(old(Abs()), t, localOrder, removedSetId)
    {
      hide SendChange;
      if removedSetId == CLOUD_RECENT || removedSetId == CLOUD_RECENT_ATTACHED {
        sets := sets - {CLOUD_RECENT};
        sets := sets - {CLOUD_RECENT_ATTACHED};
        sets := sets - {CUSTOM};
        recent := [];
        var isAttached := removedSetId == CLOUD_RECENT_ATTACHED;
        var id := SendRequest(ClearRecent(isAttached));
        if isAttached { clearRecentAttachedRequestId := id; } else { clearRecentRequestId := id; }
        return;
      }
      if removedSetId in sets {
        var stickers := sets[removedSetId];
        ForgetRecent(stickers.stickers);
        if !stickers.archived {
          SendSetChange(t, removedSetId, false, localOrder);
          if !stickers.featured && !stickers.special && !stickers.emoji && !(stickers.locked > 0) {
            sets := sets - {removedSetId};
          } else {
            sets := sets[removedSetId := stickers.(installed := false, archived := false, installDate := 0)];
          }
        }
      }
    }

    /** Clears the installed flag of every set of the type that is not archived. */
    method ClearInstalledFlags(t: StickersType)
      modifies this`sets
      ensures sets == MapSets(old(sets), t)
    {
      var left := sets.Keys;
      while left != {}
        invariant left <= old(sets).Keys && sets.Keys == old(sets).Keys
        invariant forall id :: id in sets ==>
          sets[id] == if id in left then old(sets)[id] else ClearInstalled(t, old(sets)[id])
        decreases left
      {
        var id :| id in left;
        var stickers := sets[id];
        var thatType := if stickers.emoji then Emoji else if stickers.masks then Masks else Stickers;
        if !stickers.archived && t == thatType {
          sets := sets[id := stickers.(installed := false)];
        }
        left := left - {id};
      }
    }

    method InstallSet(t: StickersType, localOrder: seq<SetId>, localRemoved: seq<SetId>, now: int, setId: SetId)
      requires Total(Abs())
      modifies this
      ensures Abs() == InstallOne(old(Abs()), t, localOrder, localRemoved, now, setId)
    {
      hide SendChange, Installed;
      if setId !in sets { return; }
      var stickers := sets[setId];
      if stickers.archived && setId !in localRemoved {
        SendSetChange(t, setId, true, localOrder);
        stickers := stickers.(archived := false);
      }
      orders := orders[t := orders[t] + [setId]];
      stickers := stickers.(installed := true);
      if stickers.installDate == 0 {
        stickers := stickers.(installDate := now);
      }
      InstalledIs(old(sets)[setId], old(sets)[setId].archived && setId !in localRemoved, now);
      assert stickers == Installed(old(sets)[setId], old(sets)[setId].archived && setId !in localRemoved, now);
      sets := sets[setId := stickers];
    }

    /** Erases every set without a reason to stay. */
    method DropUnneeded()
      modifies this`sets
      ensures sets == NeededSets(old(sets))
    {
      var left := sets.Keys;
      while left != {}
        invariant left <= sets.Keys <= old(sets).Keys
        invariant forall id :: id in old(sets) ==> (id in sets <==> id in left || old(sets)[id].Needed())
        invariant forall id :: id in sets ==> sets[id] == old(sets)[id]
        decreases left
      {
        var id :| id in left;
        if !sets[id].Needed() {
          sets := sets - {id};
        }
        left := left - {id};
      }
    }

    method RemoveSets(t: StickersType, localOrder: seq<SetId>, localRemoved: seq<SetId>)
      requires Total(Abs())
      modifies this
      ensures Total(old(Abs())) && Abs() == RemoveAll(old(Abs()), t, localOrder, localRemoved)
    {
      hide RemoveOne;
      ghost var s0 := Abs();
      var i := 0;
      assert localRemoved[..0] == [];
      while i < |localRemoved|
        invariant 0 <= i <= |localRemoved| && Abs() == RemoveAll(s0, t, localOrder, localRemoved[..i])
      {
        assert localRemoved[..i + 1][..i] == localRemoved[..i];
        RemoveSet(t, localOrder, localRemoved[i]);
        i := i + 1;
      }
      assert localRemoved[..i] == localRemoved;
    }

    method InstallSets(t: StickersType, localOrder: seq<SetId>, localRemoved: seq<SetId>, now: int)
      requires Total(Abs())
      modifies this
      ensures Total(old(Abs())) && Abs() == InstallAll(old(Abs()), t, localOrder, localRemoved, now, localOrder)
    {
      hide InstallOne;
      ghost var s0 := Abs();
      var i := 0;
      assert localOrder[..0] == [];
      while i < |localOrder|
        invariant 0 <= i <= |localOrder|
        invariant Abs() == InstallAll(s0, t, localOrder, localRemoved, now, localOrder[..i])
      {
        assert localOrder[..i + 1][..i] == localOrder[..i];
        InstallSet(t, localOrder, localRemoved, now, localOrder[i]);
        i := i + 1;
      }
      assert localOrder[..i] == localOrder;
    }

    /** `saveStickerSets`. */
    method SaveStickerSets(localOrder: seq<SetId>, localRemoved: seq<SetId>, t: StickersType, now: int)
      requires Total(Abs())
      modifies this
      ensures Abs() == AfterSave(old(Abs()), localOrder, localRemoved, t, now)
    {
      hide RemoveAll, InstallAll, SaveOrder, MapSets, NeededSets;
      CancelRequests(t);
      RemoveSets(t, localOrder, localRemoved);
      ClearInstalledFlags(t);
      orders := orders[t := []];
      InstallSets(t, localOrder, localRemoved, now);
      DropUnneeded();
      if setDisenableRequests[t] == {} {
        StickersSaveOrder(t, localOrder);
      }
    }

    /** The done and fail handlers of the requests of a save. */
    method OnReply(id: RequestId)
      requires Total(Abs()) && id in inFlight
      modifies this
      ensures Abs() == AfterReply(old(Abs()), id)
    {
      var request := inFlight[id];
      inFlight := inFlight - {id};
      match request
      case Change(t, _, _, localOrder) =>
        setDisenableRequests := setDisenableRequests[t := setDisenableRequests[t] - {id}];
        if setDisenableRequests[t] == {} {
          StickersSaveOrder(t, localOrder);
        }
      case Reorder(t, _) =>
        reorderRequestId := reorderRequestId[t := 0];
      case ClearRecent(attached) =>
        if attached { clearRecentAttachedRequestId := 0; } else { clearRecentRequestId := 0; }
    }
  }
}
