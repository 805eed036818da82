/** Saving drafts to the cloud: superseded saves, one retry after a file reference is refreshed, and quitting. */
module DraftSaves {
  type Thread = nat
  type RequestId = nat

  /** A call of saving, numbered in order; its retry keeps the number. */
  datatype Save = Save(thread: Thread, number: nat, rich: bool, refreshed: bool, clearOnFail: bool)

  /** A save by its thread and number. */
  type Saving = (Thread, nat)

  /** What the draft of a thread comes to: refused before anything is sent, or sent. */
  datatype Outcome = Refused | Accepted(rich: bool)

  /** What the sweep finds for a scheduled thread; `replaced` says that its cloud draft was made anew. */
  datatype Look = Skip | Send(replaced: bool, outcome: Outcome)
  type World = Thread -> Look

  /** `tracked` maps a thread to its save's request, 0 when one is only scheduled; `cloud` maps the threads that have
      a cloud draft to the request kept in it; `waiting` holds the saves that wait for a file reference, by the request
      that failed; `gone` are the threads that no longer exist. `saving` are the saves that a history counts as being
      saved: while there is one, it ignores what it hears about the cloud draft of that thread. */
  datatype State = State(tracked: map<Thread, RequestId>, cloud: map<Thread, RequestId>,
                         inFlight: map<RequestId, Save>, waiting: map<RequestId, Save>, next: RequestId,
                         gone: set<Thread>, saves: nat, newest: map<Thread, nat>, finished: nat, saving: set<Saving>)

  const INITIAL := State(map[], map[], map[], map[], 1, {}, 0, map[], 0, {})

  // ---- The operations ----

  function CloudId(s: State, t: Thread): RequestId {
    if t in s.cloud then s.cloud[t] else 0
  }

  function WithCloud(s: State, t: Thread, id: RequestId): State {
    if t in s.cloud then s.(cloud := s.cloud[t := id]) else s
  }

  /** The request kept in the cloud draft is cancelled, and a new one goes out. */
  function Sent(s: State, t: Thread, rich: bool, clearOnFail: bool): State {
    WithCloud(s, t, s.next).(
        inFlight := (s.inFlight - {CloudId(s, t)})[s.next := Save(t, s.saves, rich, false, clearOnFail)],
                             next := s.next + 1, saves := s.saves + 1, newest := s.newest[t := s.saves],
      saving := s.saving + {(t, s.saves)})
  }

  function AfterSave(s: State, t: Thread, outcome: Outcome): State {
    if outcome.Refused? then s
    else Sent(s, t, outcome.rich, false).(tracked := s.tracked[t := s.next])
  }

  function AfterDelayed(s: State, t: Thread, skip: bool): State {
    if skip || t in s.tracked then s else s.(tracked := s.tracked[t := 0])
  }

  function WithoutEntry(s: State, t: Thread): State { s.(tracked := s.tracked - {t}) }

  function SweepOne(s: State, t: Thread, look: Look): State {
    if t !in s.tracked then s
    else if t in s.gone then WithoutEntry(s, t)
    else if s.tracked[t] != 0 then s
    else match look
      case Skip => WithoutEntry(s, t)
      case Send(replaced, outcome) =>
        var s1 := if replaced || t !in s.cloud then s.(cloud := s.cloud[t := 0]) else s;
        match outcome
        case Refused => WithoutEntry(s1, t)
        case Accepted(rich) => Sent(s1, t, rich, true).(tracked := s.tracked[t := s.next])
  }

  function AfterSweep(s: State, order: seq<Thread>, w: World): State {
    if order == [] then s
    else SweepOne(AfterSweep(s, order[..|order| - 1], w), order[|order| - 1], w(order[|order| - 1]))
  }

  /** A thread's entry goes only if it still holds the request; once none is left, quitting may go on. */
  function Erased(s: State, t: Thread, id: RequestId): State {
    if t in s.tracked && s.tracked[t] == id
    then s.(tracked := s.tracked - {t}, finished := s.finished + if s.tracked - {t} == map[] then 1 else 0)
    else s
  }

  /** The history counts the save as over. */
  function Ended(s: State, save: Save): State { s.(saving := s.saving - {(save.thread, save.number)}) }

  function AfterDone(s: State, id: RequestId): State
    requires id in s.inFlight
  {
    var t, s1 := s.inFlight[id].thread, Ended(s, s.inFlight[id]).(inFlight := s.inFlight - {id});
    Erased(if CloudId(s, t) == id then WithCloud(s1, t, 0) else s1, t, id)
  }

  function Cleaned(s: State, id: RequestId, save: Save): State {
    var t, s1 := save.thread, Ended(s, save);
    Erased(if CloudId(s1, t) != id then s1
           else if save.clearOnFail then s1.(cloud := s1.cloud - {t})
           else WithCloud(s1, t, 0), t, id)
  }

  function AfterFail(s: State, id: RequestId, fileReference: bool): State
    requires id in s.inFlight
  {
    var save, s1 := s.inFlight[id], s.(inFlight := s.inFlight - {id});
    if !save.refreshed && fileReference && save.rich then s1.(waiting := s.waiting[id := save])
    else Cleaned(s1, id, save)
  }

  /** The entry of the thread, if there is one, now follows this request, whatever it followed before. */
  function Retracked(s: State, t: Thread, id: RequestId): State {
    var s1 := WithCloud(s, t, id);
    if t in s.tracked then s1.(tracked := s.tracked[t := id]) else s1
  }

  function AfterRefresh(s: State, id: RequestId, serialized: bool): State
    requires id in s.waiting
  {
    var save, s1 := s.waiting[id], s.(waiting := s.waiting - {id});
    if serialized
    then Retracked(s1.(inFlight := s.inFlight[s.next := save.(refreshed := true)], next := s.next + 1),
                   save.thread, s.next)
    else Cleaned(s1, id, save)
  }

  /** The entries of an encrypted peer's threads; `threads` are all of that peer. */
  function Hit(s: State, threads: set<Thread>): set<Thread> {
    set t | t in s.tracked && t in threads && t !in s.gone
  }

  /** Encryption was switched on: the peer's entries go, and the requests they hold are cancelled. Then the end is
      announced if no entry is left, also if there was none. */
  function AfterEncrypted(s: State, threads: set<Thread>): State {
    var hit := Hit(s, threads);
    s.(tracked := s.tracked - hit, inFlight := s.inFlight - IdsOf(s.tracked, hit),
       finished := s.finished + if s.tracked - hit == map[] then 1 else 0)
  }

  function IdsOf(tracked: map<Thread, RequestId>, threads: set<Thread>): set<RequestId> {
    set t | t in threads && t in tracked && tracked[t] != 0 :: tracked[t]
  }

  predicate QuitPrevented(s: State) { s.tracked != map[] }

  // ---- Steps ----

  datatype Step =
    | Delayed(t: Thread, skip: bool)
    | SaveNow(t: Thread, outcome: Outcome)
    | Sweep(order: seq<Thread>, w: World)
    | Done(id: RequestId)
    | Fail(id: RequestId, fileReference: bool)
    | Refresh(id: RequestId, serialized: bool)
    | Encrypted(threads: set<Thread>)
    | CloudReplaced(t: Thread)
    | CloudGone(t: Thread)
    | ThreadGone(t: Thread)

  ghost predicate Covers(order: seq<Thread>, tracked: map<Thread, RequestId>) {
    forall t :: t in tracked ==> t in order
  }

  ghost predicate Enabled(s: State, step: Step) {
    match step
    case Delayed(t, _) => t !in s.gone
    case SaveNow(t, _) => t !in s.gone
    case Sweep(order, _) => Covers(order, s.tracked)
    case Done(id) => id in s.inFlight
    case Fail(id, _) => id in s.inFlight
    case Refresh(id, _) => id in s.waiting
    case _ => true
  }

  ghost function Next(s: State, step: Step): State
    requires Enabled(s, step)
  {
    match step
    case Delayed(t, skip) => AfterDelayed(s, t, skip)
    case SaveNow(t, outcome) => AfterSave(s, t, outcome)
    case Sweep(order, w) => AfterSweep(s, order, w)
    case Done(id) => AfterDone(s, id)
    case Fail(id, fileReference) => AfterFail(s, id, fileReference)
    case Refresh(id, serialized) => AfterRefresh(s, id, serialized)
    case Encrypted(threads) => AfterEncrypted(s, threads)
    case CloudReplaced(t) => s.(cloud := s.cloud[t := 0])
    case CloudGone(t) => s.(cloud := s.cloud - {t})
    case ThreadGone(t) => s.(gone := s.gone + {t})
  }

  // ---- What every run keeps ----

  predicate Live(s: State, id: RequestId) { id in s.inFlight || id in s.waiting }

  function SaveOf(s: State, id: RequestId): Save
    requires Live(s, id)
  {
    if id in s.inFlight then s.inFlight[id] else s.waiting[id]
  }

  predicate IsNewest(s: State, save: Save) {
    save.thread in s.newest && s.newest[save.thread] == save.number
  }

  ghost predicate Numbered(s: State) {
    && s.next > 0
    && (forall id: RequestId :: Live(s, id) ==> 0 < id < s.next && !(id in s.inFlight && id in s.waiting))
    && (forall id: RequestId :: Live(s, id) ==> SaveOf(s, id).number < s.saves)
    && (forall id: RequestId, other: RequestId ::
          Live(s, id) && Live(s, other) && SaveOf(s, id).number == SaveOf(s, other).number ==> id == other)
  }

  /** Every request a table holds is a save of that thread, in flight or waiting for its file reference. */
  ghost predicate Sound(s: State) {
    && Numbered(s)
    && (forall t :: t in s.tracked && s.tracked[t] != 0 ==>
          Live(s, s.tracked[t]) && SaveOf(s, s.tracked[t]).thread == t)
    && (forall t :: t in s.cloud ==> s.cloud[t] < s.next)
    && (forall t :: t in s.cloud && s.cloud[t] in s.inFlight ==> s.inFlight[s.cloud[t]].thread == t)
  }

  /** The newest save of every thread, as long as it is under way, is the one that prevents quitting. */
  ghost predicate Current(s: State) {
    forall id: RequestId :: Live(s, id) && IsNewest(s, SaveOf(s, id)) && SaveOf(s, id).thread !in s.gone ==>
      SaveOf(s, id).thread in s.tracked && s.tracked[SaveOf(s, id).thread] == id
  }

  /** A retry takes the entry over from the thread's newest save. */
  predicate Overtakes(s: State, step: Step) {
    && step.Refresh? && step.serialized && step.id in s.waiting
    && var t := s.waiting[step.id].thread;
       t !in s.gone && t in s.tracked && s.tracked[t] != step.id
       && Live(s, s.tracked[t]) && IsNewest(s, SaveOf(s, s.tracked[t]))
  }

  /** The handler of encryption erases the entry of a newest save that waits for its file reference: no request is in
      flight that could be cancelled, and the retry still comes. */
  predicate Forgets(s: State, step: Step) {
    && step.Encrypted?
    && exists t: Thread :: t in Hit(s, step.threads) &&
         s.tracked[t] in s.waiting && IsNewest(s, s.waiting[s.tracked[t]])
  }

  predicate Loses(s: State, step: Step) { Overtakes(s, step) || Forgets(s, step) }

  /** The state after a save that is tracked, field by field. */
  ghost predicate Follows(s: State, t: Thread, r: State) {
    && r.next == s.next + 1 && r.saves == s.saves + 1 && r.newest == s.newest[t := s.saves] && r.gone == s.gone
    && r.tracked == s.tracked[t := s.next] && (r.cloud == s.cloud || r.cloud == s.cloud[t := s.next])
    && LiveFollow(s, t, r)
  }

  ghost predicate LiveFollow(s: State, t: Thread, r: State) {
    && Live(r, s.next) && SaveOf(r, s.next).thread == t && SaveOf(r, s.next).number == s.saves
    && (s.next !in s.waiting ==> s.next !in r.waiting)
    && (forall id: RequestId :: Live(r, id) && id != s.next ==> Live(s, id) && SaveOf(r, id) == SaveOf(s, id))
    && (forall id: RequestId :: id != s.next && Live(s, id) && id != CloudId(s, t) ==> Live(r, id))
    && (forall id: RequestId :: id in s.waiting ==> Live(r, id))
    && (forall id: RequestId :: id in r.inFlight && id != s.next ==> id in s.inFlight)
    && (forall id: RequestId :: id in r.waiting ==> id in s.waiting)
  }

  lemma SentLive(s: State, t: Thread, r: State, save: Save)
    requires Numbered(s) && save.thread == t && save.number == s.saves
    requires r.inFlight == (s.inFlight - {CloudId(s, t)})[s.next := save] && r.waiting == s.waiting
    ensures LiveFollow(s, t, r)
  {
    assert !Live(s, s.next);
    hide Numbered, CloudId;
  }

  lemma SentFollows(s: State, t: Thread, rich: bool, clearOnFail: bool)
    requires Numbered(s)
    ensures Follows(s, t, Sent(s, t, rich, clearOnFail).(tracked := s.tracked[t := s.next]))
    ensures CloudId(s, t) != 0 ==> Sent(s, t, rich, clearOnFail).cloud == s.cloud[t := s.next]
  {
    var r := Sent(s, t, rich, clearOnFail).(tracked := s.tracked[t := s.next]);
    var save := Save(t, s.saves, rich, false, clearOnFail);
    assert r.inFlight == (s.inFlight - {CloudId(s, t)})[s.next := save];
    hide LiveFollow, Numbered;
    SentLive(s, t, r, save);
  }

  lemma FollowsNumbered(s: State, t: Thread, r: State)
    requires Numbered(s) && Follows(s, t, r)
    ensures Numbered(r)
  {
    hide SaveOf, CloudId;
    assert !Live(s, s.next);
  }

  lemma FollowsSound(s: State, t: Thread, r: State)
    requires Sound(s) && Follows(s, t, r) && (CloudId(s, t) != 0 ==> r.cloud == s.cloud[t := s.next])
    ensures Sound(r)
  {
    FollowsNumbered(s, t, r);
    assert 0 !in s.inFlight && 0 !in r.inFlight by {
      assert !Live(s, 0) && !Live(r, 0);
    }
    hide Numbered, CloudId;
    forall u | u in r.cloud && r.cloud[u] in r.inFlight && r.cloud[u] != s.next
      ensures r.inFlight[r.cloud[u]].thread == u
    {
      assert Live(r, r.cloud[u]) && SaveOf(r, r.cloud[u]) == SaveOf(s, r.cloud[u]);
    }
    forall u | u in r.tracked && r.tracked[u] != 0
      ensures Live(r, r.tracked[u]) && SaveOf(r, r.tracked[u]).thread == u
    {
      FollowsTracked(s, t, r, u);
    }
  }

  lemma FollowsTracked(s: State, t: Thread, r: State, u: Thread)
    requires Sound(s) && Follows(s, t, r) && u in r.tracked && r.tracked[u] != 0
    ensures Live(r, r.tracked[u]) && SaveOf(r, r.tracked[u]).thread == u
  {
    if u != t {
      assert Live(s, s.tracked[u]) && SaveOf(s, s.tracked[u]).thread == u;
      assert s.tracked[u] in s.inFlight ==> s.tracked[u] != CloudId(s, t);
    }
  }

  lemma FollowsCurrent(s: State, t: Thread, r: State)
    requires Numbered(s) && Current(s) && Follows(s, t, r)
    ensures Current(r)
  {}

  lemma SentKeeps(s: State, t: Thread, rich: bool, clearOnFail: bool)
    requires Sound(s)
    ensures Sound(Sent(s, t, rich, clearOnFail).(tracked := s.tracked[t := s.next]))
    ensures Current(s) ==> Current(Sent(s, t, rich, clearOnFail).(tracked := s.tracked[t := s.next]))
  {
    var r := Sent(s, t, rich, clearOnFail).(tracked := s.tracked[t := s.next]);
    SentFollows(s, t, rich, clearOnFail);
    FollowsSound(s, t, r);
    if Current(s) {
      FollowsCurrent(s, t, r);
    }
  }

  /** Dropping a scheduled entry, or the entry of a thread that is gone. */
  lemma WithoutEntryKeeps(s: State, t: Thread)
    requires Sound(s)
    ensures Sound(WithoutEntry(s, t))
    ensures Current(s) && t in s.tracked && (t in s.gone || s.tracked[t] == 0) ==> Current(WithoutEntry(s, t))
  {
    var r := WithoutEntry(s, t);
    assert forall id: RequestId :: Live(r, id) ==> SaveOf(r, id) == SaveOf(s, id);
  }

  lemma FreshCloudKeeps(s: State, t: Thread)
    requires Sound(s)
    ensures Sound(s.(cloud := s.cloud[t := 0]))
    ensures Current(s) ==> Current(s.(cloud := s.cloud[t := 0]))
  {
    var r := s.(cloud := s.cloud[t := 0]);
    assert forall id: RequestId :: Live(r, id) ==> SaveOf(r, id) == SaveOf(s, id);
  }

  lemma SweepOneKeeps(s: State, t: Thread, look: Look)
    requires Sound(s)
    ensures Sound(SweepOne(s, t, look))
    ensures Current(s) ==> Current(SweepOne(s, t, look))
  {
    hide Sound, Current, Sent;
    WithoutEntryKeeps(s, t);
    if t in s.tracked && t !in s.gone && s.tracked[t] == 0 && look.Send? {
      var s1 := if look.replaced || t !in s.cloud then s.(cloud := s.cloud[t := 0]) else s;
      FreshCloudKeeps(s, t);
      WithoutEntryKeeps(s1, t);
      if look.outcome.Accepted? {
        SentKeeps(s1, t, look.outcome.rich, true);
      }
    }
  }

  lemma {:induction false} SweepKeeps(s: State, order: seq<Thread>, w: World)
    requires Sound(s)
    ensures Sound(AfterSweep(s, order, w))
    ensures Current(s) ==> Current(AfterSweep(s, order, w))
  {
    hide Sound, Current, SweepOne;
    if order != [] {
      SweepKeeps(s, order[..|order| - 1], w);
      SweepOneKeeps(AfterSweep(s, order[..|order| - 1], w), order[|order| - 1], w(order[|order| - 1]));
    }
  }

  /** A request that ends without a retry leaves, and takes at most its own entry with it. */
  lemma EndedKeeps(s: State, id: RequestId, r: State)
    requires Sound(s) && Live(s, id)
    requires r.inFlight == s.inFlight - {id} && r.waiting == s.waiting - {id}
    requires r.next == s.next && r.saves == s.saves && r.newest == s.newest && r.gone == s.gone
    requires var t := SaveOf(s, id).thread;
      && (r.tracked == if t in s.tracked && s.tracked[t] == id then s.tracked - {t} else s.tracked)
      && (forall u :: u in r.cloud ==> (u in s.cloud && r.cloud[u] == s.cloud[u]) || r.cloud[u] == 0)
    ensures Sound(r)
    ensures Current(s) ==> Current(r)
  {
    forall other: RequestId | Live(r, other)
      ensures Live(s, other) && SaveOf(r, other) == SaveOf(s, other) && other != id {}
    forall u | u in r.tracked && r.tracked[u] != 0 ensures Live(r, r.tracked[u]) {
      assert r.tracked[u] == s.tracked[u] && s.tracked[u] != id;
    }
  }

  lemma DoneKeeps(s: State, id: RequestId)
    requires Sound(s) && id in s.inFlight
    ensures Sound(AfterDone(s, id))
    ensures Current(s) ==> Current(AfterDone(s, id))
  {
    assert id !in s.waiting && s.waiting - {id} == s.waiting;
    EndedKeeps(s, id, AfterDone(s, id));
  }

  /** Nothing that the tables hold has left or changed. */
  lemma SameLiveKeeps(s: State, r: State)
    requires Sound(s)
    requires forall id: RequestId :: Live(r, id) <==> Live(s, id)
    requires forall id: RequestId :: Live(r, id) ==> SaveOf(r, id) == SaveOf(s, id)
    requires forall id: RequestId :: (id in r.inFlight ==> id in s.inFlight) && !(id in r.inFlight && id in r.waiting)
    requires r.next == s.next && r.saves == s.saves && r.newest == s.newest && s.gone <= r.gone
    requires forall t :: t in s.tracked ==> t in r.tracked && r.tracked[t] == s.tracked[t]
    requires forall t :: t in r.tracked && t !in s.tracked ==> r.tracked[t] == 0
    requires forall t :: t in r.cloud && r.cloud[t] != 0 ==> t in s.cloud && r.cloud[t] == s.cloud[t]
    ensures Sound(r)
    ensures Current(s) ==> Current(r)
  {
    assert Numbered(r);
    assert forall id: RequestId :: id in r.inFlight ==> Live(r, id) && id > 0;
    hide Numbered;
    forall t | t in r.cloud && r.cloud[t] in r.inFlight ensures r.inFlight[r.cloud[t]].thread == t {
      assert Live(r, r.cloud[t]) && SaveOf(r, r.cloud[t]) == SaveOf(s, r.cloud[t]);
    }
  }

  lemma FailKeeps(s: State, id: RequestId, fileReference: bool)
    requires Sound(s) && id in s.inFlight
    ensures Sound(AfterFail(s, id, fileReference))
    ensures Current(s) ==> Current(AfterFail(s, id, fileReference))
  {
    var save, r := s.inFlight[id], AfterFail(s, id, fileReference);
    assert id !in s.waiting && s.waiting - {id} == s.waiting by {
      assert Live(s, id);
    }
    hide Current, Sound;
    if !save.refreshed && fileReference && save.rich {
      assert Numbered(s) by { assert Sound(s); }
      SameLiveKeeps(s, r);
    } else {
      CleanedKeeps(s, id, s.(inFlight := s.inFlight - {id}), save);
    }
  }

  lemma CleanedIs(s: State, id: RequestId, save: Save)
    ensures var t, r := save.thread, Cleaned(s, id, save);
      && r.inFlight == s.inFlight && r.waiting == s.waiting
      && r.next == s.next && r.saves == s.saves && r.newest == s.newest && r.gone == s.gone
      && (r.tracked == if t in s.tracked && s.tracked[t] == id then s.tracked - {t} else s.tracked)
      && r.saving == s.saving - {(t, save.number)}
      && (forall u :: u in r.cloud ==> (u in s.cloud && r.cloud[u] == s.cloud[u]) || r.cloud[u] == 0)
  {
    var t, e := save.thread, Ended(s, save);
    var s1 := if CloudId(e, t) != id then e
              else if save.clearOnFail then e.(cloud := e.cloud - {t}) else WithCloud(e, t, 0);
    ErasedIs(s1, t, id);
    hide Erased;
  }

  lemma ErasedIs(s: State, t: Thread, id: RequestId)
    ensures var r := Erased(s, t, id);
      r == s.(tracked :=
           if t in s.tracked && s.tracked[t] == id then s.tracked - {t} else s.tracked, finished := r.finished)
  {}

  lemma CleanedKeeps(s: State, id: RequestId, s1: State, save: Save)
    requires Sound(s) && Live(s, id) && SaveOf(s, id) == save
    requires s1 == s.(inFlight := s.inFlight - {id}, waiting := s.waiting - {id})
    ensures Sound(Cleaned(s1, id, save))
    ensures Current(s) ==> Current(Cleaned(s1, id, save))
  {
    hide Sound, Current, Cleaned;
    CleanedIs(s1, id, save);
    EndedKeeps(s, id, Cleaned(s1, id, save));
  }

  function Moved(table: map<Thread, RequestId>, t: Thread, id: RequestId): map<Thread, RequestId> {
    if t in table then table[t := id] else table
  }

  /** The state after a retry, field by field. */
  ghost predicate Retried(s: State, id: RequestId, r: State)
    requires Live(s, id)
  {
    && r.tracked == Moved(s.tracked, SaveOf(s, id).thread, s.next)
    && r.cloud == Moved(s.cloud, SaveOf(s, id).thread, s.next)
    && r.next == s.next + 1 && r.saves == s.saves && r.newest == s.newest && r.gone == s.gone
    && Live(r, s.next) && s.next !in r.waiting && SaveOf(r, s.next) == SaveOf(s, id).(refreshed := true)
    && (forall other: RequestId :: Live(r, other) && other != s.next ==>
          Live(s, other) && SaveOf(r, other) == SaveOf(s, other))
    && (forall other: RequestId :: Live(s, other) && other != id ==> Live(r, other))
    && (forall other: RequestId :: other in r.inFlight && other != s.next ==> other in s.inFlight)
    && (forall other: RequestId :: other in r.waiting ==> other in s.waiting && other != id)
  }

  lemma RetryIs(s: State, id: RequestId)
    requires Numbered(s) && id in s.waiting
    ensures Live(s, id) && Retried(s, id, AfterRefresh(s, id, true)) && !Live(AfterRefresh(s, id, true), id)
  {
    assert Live(s, id) && !Live(s, s.next);
    var r := AfterRefresh(s, id, true);
    assert r.inFlight == s.inFlight[s.next := s.waiting[id].(refreshed := true)] && r.waiting == s.waiting - {id};
    hide AfterRefresh, Numbered;
  }

  lemma RetriedNumbered(s: State, id: RequestId, r: State)
    requires Numbered(s) && Live(s, id) && Retried(s, id, r) && !Live(r, id)
    ensures Numbered(r)
  {
    hide SaveOf;
    assert !Live(s, s.next);
  }

  lemma RetriedSound(s: State, id: RequestId, r: State)
    requires Sound(s) && Live(s, id) && Retried(s, id, r) && !Live(r, id)
    ensures Sound(r)
  {
    RetriedNumbered(s, id, r);
    var t := SaveOf(s, id).thread;
    assert !Live(s, s.next);
    hide Numbered;
    forall u | u in r.tracked && u != t && r.tracked[u] != 0
      ensures Live(r, r.tracked[u]) && SaveOf(r, r.tracked[u]).thread == u
    {
      assert Live(s, s.tracked[u]) && SaveOf(s, s.tracked[u]).thread == u;
    }
    forall u | u in r.cloud && r.cloud[u] in r.inFlight && r.cloud[u] != s.next
      ensures r.inFlight[r.cloud[u]].thread == u
    {
      assert Live(r, r.cloud[u]) && SaveOf(r, r.cloud[u]) == SaveOf(s, r.cloud[u]);
    }
  }

  lemma RetryKeeps(s: State, id: RequestId)
    requires Sound(s) && id in s.waiting
    ensures Sound(AfterRefresh(s, id, true))
  {
    RetryIs(s, id);
    RetriedSound(s, id, AfterRefresh(s, id, true));
  }

  /** The retry of a superseded save keeps the newest save tracked just when it does not overtake it. */
  lemma RetryCurrent(s: State, id: RequestId)
    requires Sound(s) && Current(s) && id in s.waiting
    ensures Current(AfterRefresh(s, id, true)) <==> !Overtakes(s, Refresh(id, true))
  {
    RetryIs(s, id);
    var r, t := AfterRefresh(s, id, true), s.waiting[id].thread;
    assert id !in s.inFlight && SaveOf(s, id) == s.waiting[id];
    hide AfterRefresh, Retracked;
    if Overtakes(s, Refresh(id, true)) {
      var newest := s.tracked[t];
      assert Live(r, newest) && IsNewest(r, SaveOf(r, newest)) && r.tracked[t] == s.next;
      assert !Live(s, s.next);
    } else {
      forall other: RequestId | Live(r, other) && IsNewest(r, SaveOf(r, other)) && SaveOf(r, other).thread !in r.gone
        ensures SaveOf(r, other).thread in r.tracked && r.tracked[SaveOf(r, other).thread] == other
      {
        if other == s.next {
          assert IsNewest(s, SaveOf(s, id));
        } else {
          assert IsNewest(s, SaveOf(s, other));
        }
      }
    }
  }

  lemma RefreshKeeps(s: State, id: RequestId, serialized: bool)
    requires Sound(s) && id in s.waiting
    ensures Sound(AfterRefresh(s, id, serialized))
    ensures Current(s) ==> (Current(AfterRefresh(s, id, serialized)) <==> !Overtakes(s, Refresh(id, serialized)))
  {
    assert Live(s, id) && id !in s.inFlight;
    hide Sound, Current;
    if serialized {
      RetryKeeps(s, id);
      if Current(s) {
        RetryCurrent(s, id);
      }
    } else {
      assert s.inFlight - {id} == s.inFlight;
      CleanedKeeps(s, id, s.(waiting := s.waiting - {id}), s.waiting[id]);
    }
  }

  lemma InFlightIsLive(s: State)
    requires Sound(s)
    ensures forall id: RequestId :: id in s.inFlight ==> !(id in s.inFlight && id in s.waiting)
  {
    assert forall id: RequestId :: id in s.inFlight ==> Live(s, id);
  }

  lemma DelayedKeeps(s: State, t: Thread, skip: bool)
    requires Sound(s)
    ensures Sound(AfterDelayed(s, t, skip)) && (Current(s) ==> Current(AfterDelayed(s, t, skip)))
  {
    InFlightIsLive(s);
    hide Sound, Current;
    SameLiveKeeps(s, AfterDelayed(s, t, skip));
  }

  lemma CloudKeeps(s: State, r: State)
    requires Sound(s) && r == s.(cloud := r.cloud)
    requires forall t :: t in r.cloud && r.cloud[t] != 0 ==> t in s.cloud && r.cloud[t] == s.cloud[t]
    ensures Sound(r) && (Current(s) ==> Current(r))
  {
    InFlightIsLive(s);
    hide Sound, Current;
    SameLiveKeeps(s, r);
  }

  lemma EncryptedLive(s: State, threads: set<Thread>, id: RequestId)
    requires Sound(s)
    ensures var r := AfterEncrypted(s, threads);
      && (Live(r, id) ==> Live(s, id) && SaveOf(r, id) == SaveOf(s, id))
      && (id in s.waiting ==> Live(r, id) && SaveOf(r, id) == s.waiting[id])
      && (id in r.inFlight ==> id in s.inFlight && forall t :: t in Hit(s, threads) ==> s.tracked[t] != id)
  {
    assert Live(s, id) ==> 0 < id && !(id in s.inFlight && id in s.waiting);
  }

  lemma EncryptedSound(s: State, threads: set<Thread>)
    requires Sound(s)
    ensures Sound(AfterEncrypted(s, threads))
  {
    var r := AfterEncrypted(s, threads);
    forall id: RequestId
      ensures Live(r, id) ==> Live(s, id) && SaveOf(r, id) == SaveOf(s, id)
      ensures id in s.inFlight && id !in r.inFlight ==> exists t :: t in Hit(s, threads) && s.tracked[t] == id
    {
      EncryptedLive(s, threads, id);
    }
    forall t | t in r.tracked && r.tracked[t] != 0
      ensures Live(r, r.tracked[t]) && SaveOf(r, r.tracked[t]).thread == t {
      var id := s.tracked[t];
      assert Live(s, id) && SaveOf(s, id).thread == t;
      forall u | u in Hit(s, threads) ensures s.tracked[u] != id {
        assert u != t;
        assert s.tracked[u] != 0 ==> SaveOf(s, s.tracked[u]).thread == u;
      }
    }
  }

  lemma EncryptedCurrent(s: State, threads: set<Thread>)
    requires Sound(s) && Current(s)
    ensures Current(AfterEncrypted(s, threads)) <==> !Forgets(s, Encrypted(threads))
  {
    var r := AfterEncrypted(s, threads);
    if Forgets(s, Encrypted(threads)) {
      var t: Thread :| t in Hit(s, threads) && s.tracked[t] in s.waiting && IsNewest(s, s.waiting[s.tracked[t]]);
      var id := s.tracked[t];
      EncryptedLive(s, threads, id);
      assert Live(s, id) && SaveOf(s, id) == s.waiting[id] && s.waiting[id].thread == t;
      assert Live(r, id) && IsNewest(r, SaveOf(r, id)) && t !in r.tracked;
    } else {
      forall id: RequestId | Live(r, id) && IsNewest(r, SaveOf(r, id)) && SaveOf(r, id).thread !in r.gone
        ensures SaveOf(r, id).thread in r.tracked && r.tracked[SaveOf(r, id).thread] == id
      {
        EncryptedLive(s, threads, id);
        var t := SaveOf(s, id).thread;
        assert IsNewest(s, SaveOf(s, id)) && t in s.tracked && s.tracked[t] == id;
      }
    }
  }

  lemma ThreadGoneKeeps(s: State, t: Thread)
    requires Sound(s)
    ensures var r := s.(gone := s.gone + {t}); Sound(r) && (Current(s) ==> Current(r))
  {
    InFlightIsLive(s);
    hide Sound, Current;
    SameLiveKeeps(s, s.(gone := s.gone + {t}));
  }

  /** Every step keeps the tables sound. It keeps the newest saves tracked if and only if it neither is the retry of an
      older save of a thread whose newest save is under way, nor switches encryption on for a peer that has a thread
      whose newest save waits for its file reference. */
  lemma StepKeeps(s: State, step: Step)
    requires Sound(s) && Enabled(s, step)
    ensures Sound(Next(s, step))
    ensures Current(s) ==> (Current(Next(s, step)) <==> !Loses(s, step))
  {
    hide Sound, Current, AfterSweep, AfterDone, AfterFail, AfterRefresh, Sent, AfterDelayed, AfterEncrypted;
    match step
    case SaveNow(t, outcome) =>
      if outcome.Accepted? {
        SentKeeps(s, t, outcome.rich, false);
      }
    case Sweep(order, w) => SweepKeeps(s, order, w);
    case Done(id) => DoneKeeps(s, id);
    case Fail(id, fileReference) => FailKeeps(s, id, fileReference);
    case Refresh(id, serialized) => RefreshKeeps(s, id, serialized);
    case Delayed(t, skip) => DelayedKeeps(s, t, skip);
    case Encrypted(threads) =>
      EncryptedSound(s, threads);
      if Current(s) {
        EncryptedCurrent(s, threads);
      }
    case CloudReplaced(t) => CloudKeeps(s, s.(cloud := s.cloud[t := 0]));
    case CloudGone(t) => CloudKeeps(s, s.(cloud := s.cloud - {t}));
    case ThreadGone(t) => ThreadGoneKeeps(s, t);
  }

  ghost predicate Possible(s: State, steps: seq<Step>)
    decreases |steps|
  {
    |steps| > 0 ==> Enabled(s, steps[0]) && Possible(Next(s, steps[0]), steps[1..])
  }

  ghost function Run(s: State, steps: seq<Step>): State
    requires Possible(s, steps)
    decreases |steps|
  {
    if |steps| == 0 then s else Run(Next(s, steps[0]), steps[1..])
  }

  /** Where each of these steps is taken, it does not lose a newest save. */
  ghost predicate NeverLoses(s: State, steps: seq<Step>)
    requires Possible(s, steps)
    decreases |steps|
  {
    |steps| > 0 ==> !Loses(s, steps[0]) && NeverLoses(Next(s, steps[0]), steps[1..])
  }

  ghost predicate AlwaysCurrent(s: State, steps: seq<Step>)
    requires Possible(s, steps)
    decreases |steps|
  {
    Current(s) && (|steps| > 0 ==> AlwaysCurrent(Next(s, steps[0]), steps[1..]))
  }

  /** In every run the tables stay sound, and the newest saves are tracked all along if
      and only if no step loses one. */
  lemma {:induction false} EveryRunKeeps(s: State, steps: seq<Step>)
    requires Sound(s) && Possible(s, steps)
    ensures Sound(Run(s, steps))
    ensures Current(s) ==> (AlwaysCurrent(s, steps) <==> NeverLoses(s, steps))
    ensures AlwaysCurrent(s, steps) ==> Current(Run(s, steps))
    decreases |steps|
  {
    hide Sound, Current, Next, Enabled, Loses;
    if |steps| > 0 {
      StepKeeps(s, steps[0]);
      EveryRunKeeps(Next(s, steps[0]), steps[1..]);
      if !Current(Next(s, steps[0])) {
        assert !AlwaysCurrent(Next(s, steps[0]), steps[1..]);
      }
    }
  }

  lemma InitialIsSound()
    ensures Sound(INITIAL) && Current(INITIAL)
  {}

  // ---- Scheduled saves ----

  predicate Scheduled(s: State, t: Thread) { t in s.tracked && s.tracked[t] == 0 }

  /** A sweep, or a save of the thread, does what the entry was scheduled for. */
  predicate Serves(step: Step, t: Thread) {
    step.Sweep? || (step.SaveNow? && step.t == t && step.outcome.Accepted?)
  }

  /** A retry of an earlier save of the thread takes the entry, or encryption was switched on for the thread's peer. */
  predicate Drops(s: State, step: Step, t: Thread) {
    || (step.Refresh? && step.serialized && step.id in s.waiting && s.waiting[step.id].thread == t)
    || (step.Encrypted? && t in step.threads && t !in s.gone)
  }

  /** A scheduled save is forgotten by exactly these steps. */
  lemma ScheduledStays(s: State, step: Step, t: Thread)
    requires Sound(s) && Enabled(s, step) && Scheduled(s, t) && !Serves(step, t)
    ensures Scheduled(Next(s, step), t) <==> !Drops(s, step, t)
  {
    assert !Live(s, 0) && s.next > 0;
    hide Sound;
    if Completes(step) {
      CompletionTakesItsOwn(s, step);
      assert !Drops(s, step, t);
      hide Next;
    } else if step.SaveNow? && step.outcome.Accepted? {
      hide Sent;
      SentFields(s, step.t, step.outcome.rich, false);
    }
  }

  ghost predicate NeverDrops(s: State, steps: seq<Step>, t: Thread)
    requires Possible(s, steps)
    decreases |steps|
  {
    |steps| > 0 ==> !Drops(s, steps[0], t) && NeverDrops(Next(s, steps[0]), steps[1..], t)
  }

  ghost predicate AlwaysScheduled(s: State, steps: seq<Step>, t: Thread)
    requires Possible(s, steps)
    decreases |steps|
  {
    Scheduled(s, t) && (|steps| > 0 ==> AlwaysScheduled(Next(s, steps[0]), steps[1..], t))
  }

  /** Until it is served, a scheduled save stays scheduled in exactly the runs in which no step drops it. */
  lemma {:induction false} ScheduledUntilServed(s: State, steps: seq<Step>, t: Thread)
    requires Sound(s) && Possible(s, steps) && Scheduled(s, t) && forall step :: step in steps ==> !Serves(step, t)
    ensures AlwaysScheduled(s, steps, t) <==> NeverDrops(s, steps, t)
    ensures AlwaysScheduled(s, steps, t) ==> Scheduled(Run(s, steps), t)
    decreases |steps|
  {
    hide Sound, Scheduled, Next, Enabled, Drops, Serves;
    if |steps| > 0 {
      assert steps[0] in steps;
      StepKeeps(s, steps[0]);
      ScheduledStays(s, steps[0], t);
      var s1 := Next(s, steps[0]);
      if Scheduled(s1, t) {
        forall step | step in steps[1..] ensures !Serves(step, t) {
          assert step in steps;
        }
        ScheduledUntilServed(s1, steps[1..], t);
      }
    }
  }

  // ---- Quitting ----

  ghost predicate NoneScheduled(s: State) { forall t :: t in s.tracked ==> s.tracked[t] != 0 }

  lemma SentFields(s: State, t: Thread, rich: bool, clearOnFail: bool)
    ensures var r := Sent(s, t, rich, clearOnFail); r.next == s.next + 1 && r.gone == s.gone && r.tracked == s.tracked
  {}

  lemma SweepOneSends(s: State, t: Thread, look: Look)
    requires s.next > 0
    ensures var r := SweepOne(s, t, look);
      && r.next > 0 && r.gone == s.gone && r.tracked.Keys <= s.tracked.Keys
      && (t in r.tracked ==> r.tracked[t] != 0 && t !in s.gone)
      && (forall u :: u in r.tracked && u != t ==> r.tracked[u] == s.tracked[u])
      && (forall u :: u in s.tracked && s.tracked[u] != 0 && u !in s.gone ==>
            u in r.tracked && r.tracked[u] == s.tracked[u])
  {
    hide Sent;
    if look.Send? && look.outcome.Accepted? {
      var s1 := if look.replaced || t !in s.cloud then s.(cloud := s.cloud[t := 0]) else s;
      SentFields(s1, t, look.outcome.rich, true);
    }
  }

  /** A sweep that reaches every entry leaves none that is only scheduled, and keeps every request already out. */
  lemma {:induction false} SweepSends(s: State, order: seq<Thread>, w: World)
    requires s.next > 0
    ensures var r := AfterSweep(s, order, w);
      && r.next > 0 && r.gone == s.gone && r.tracked.Keys <= s.tracked.Keys
      && (forall t :: t in r.tracked && t in order ==> r.tracked[t] != 0 && t !in s.gone)
      && (forall t :: t in s.tracked && s.tracked[t] != 0 && t !in s.gone ==>
            t in r.tracked && r.tracked[t] == s.tracked[t])
  {
    hide SweepOne;
    if order != [] {
      var init, last := order[..|order| - 1], order[|order| - 1];
      SweepSends(s, init, w);
      SweepOneSends(AfterSweep(s, init, w), last, w(last));
      assert order == init + [last];
    }
  }

  predicate Completes(step: Step) { step.Done? || step.Fail? || (step.Refresh? && !step.serialized) }

  lemma NextId(s: State, step: Step)
    requires Enabled(s, step) && !step.Sweep?
    ensures Next(s, step).next >= s.next
  {
    hide Erased;
    forall t: Thread, id: RequestId, r: State ensures Erased(r, t, id).next == r.next {
      ErasedTakesItsOwn(r, t, id);
    }
  }

  /** What the entry of one thread can become in a step that is no sweep. */
  lemma EntryAfter(s: State, step: Step, t: Thread)
    requires Enabled(s, step) && !step.Sweep?
    ensures var r := Next(s, step);
      t in r.tracked ==> (t in s.tracked && r.tracked[t] == s.tracked[t]) || r.tracked[t] == s.next || step.Delayed?
  {
    if Completes(step) {
      CompletionTakesItsOwn(s, step);
      hide Next;
    } else if step.SaveNow? && step.outcome.Accepted? {
      hide Sent;
      SentFields(s, step.t, step.outcome.rich, false);
    }
  }

  lemma StepKeepsNoneScheduled(s: State, step: Step)
    requires s.next > 0 && NoneScheduled(s) && Enabled(s, step) && !step.Delayed?
    ensures Next(s, step).next > 0 && NoneScheduled(Next(s, step))
  {
    if step.Sweep? {
      hide AfterSweep;
      SweepSends(s, step.order, step.w);
      forall t | t in AfterSweep(s, step.order, step.w).tracked ensures t in step.order {}
    } else {
      hide Next;
      NextId(s, step);
      forall t | t in Next(s, step).tracked ensures Next(s, step).tracked[t] != 0 {
        EntryAfter(s, step, t);
      }
    }
  }

  lemma {:induction false} RunKeepsNoneScheduled(s: State, steps: seq<Step>)
    requires s.next > 0 && NoneScheduled(s) && Possible(s, steps) && forall step :: step in steps ==> !step.Delayed?
    ensures NoneScheduled(Run(s, steps))
    decreases |steps|
  {
    hide NoneScheduled, Next, Enabled;
    if |steps| > 0 {
      assert steps[0] in steps;
      StepKeepsNoneScheduled(s, steps[0]);
      forall step | step in steps[1..] ensures !step.Delayed? {
        assert step in steps;
      }
      RunKeepsNoneScheduled(Next(s, steps[0]), steps[1..]);
    }
  }

  /** Once every save has settled after a sweep, quitting is no longer prevented, whatever happened in between. */
  lemma SettledAllowsQuit(s: State, order: seq<Thread>, w: World, steps: seq<Step>)
    requires Sound(s) && Covers(order, s.tracked) && Possible(AfterSweep(s, order, w), steps)
    requires forall step :: step in steps ==> !step.Delayed?
    requires var r := Run(AfterSweep(s, order, w), steps); r.inFlight == map[] && r.waiting == map[]
    ensures !QuitPrevented(Run(AfterSweep(s, order, w), steps))
  {
    var swept := AfterSweep(s, order, w);
    SweepSends(s, order, w);
    assert NoneScheduled(swept);
    SweepKeeps(s, order, w);
    EveryRunKeeps(swept, steps);
    RunKeepsNoneScheduled(swept, steps);
    NothingTracked(Run(swept, steps));
  }

  lemma NothingTracked(s: State)
    requires Sound(s) && NoneScheduled(s) && s.inFlight == map[] && s.waiting == map[]
    ensures s.tracked == map[]
  {
    assert forall id: RequestId :: !Live(s, id);
    assert s.tracked.Keys == {};
  }

  /** In a run that loses no newest save, quitting is prevented as long as one is under way, also after the sweep
      that asking makes. */
  lemma NewestPreventsQuit(steps: seq<Step>, id: RequestId, order: seq<Thread>, w: World)
    requires Possible(INITIAL, steps) && NeverLoses(INITIAL, steps)
    requires var s := Run(INITIAL, steps);
      Live(s, id) && IsNewest(s, SaveOf(s, id)) && SaveOf(s, id).thread !in s.gone
    ensures var s := Run(INITIAL, steps); QuitPrevented(s) && QuitPrevented(AfterSweep(s, order, w))
  {
    InitialIsSound();
    EveryRunKeeps(INITIAL, steps);
    var s := Run(INITIAL, steps);
    SweepSends(s, order, w);
    var t := SaveOf(s, id).thread;
    assert Live(s, id) && id != 0 && t in s.tracked && t in AfterSweep(s, order, w).tracked;
  }

  ghost predicate TookItsOwn(s: State, id: RequestId, r: State) {
    && (forall t :: t in s.tracked && s.tracked[t] != id ==> t in r.tracked)
    && (forall t :: t in r.tracked ==> t in s.tracked && r.tracked[t] == s.tracked[t])
    && (r.finished == if s.tracked != map[] && r.tracked == map[] then s.finished + 1 else s.finished)
  }

  lemma ErasedTakesItsOwn(s: State, t: Thread, id: RequestId)
    ensures TookItsOwn(s, id, Erased(s, t, id)) && Erased(s, t, id).next == s.next
  {
    if t in s.tracked {
      assert s.tracked != map[];
    }
  }

  /** A completion takes away only the entry of its own request, and announces the end when it was the last one. */
  lemma CompletionTakesItsOwn(s: State, step: Step)
    requires Enabled(s, step) && Completes(step)
    ensures TookItsOwn(s, step.id, Next(s, step))
  {
    hide Erased, TookItsOwn;
    match step
    case Done(id) => DoneTakesItsOwn(s, id);
    case Fail(id, fileReference) =>
      var save, s1 := s.inFlight[id], s.(inFlight := s.inFlight - {id});
      if !save.refreshed && fileReference && save.rich {
        SameTakesItsOwn(s, id, AfterFail(s, id, fileReference));
      } else {
        CleanedTakesItsOwn(s1, id, save);
        SameTracked(s, id, s1, Cleaned(s1, id, save));
      }
    case Refresh(id, _) =>
      var s1 := s.(waiting := s.waiting - {id});
      CleanedTakesItsOwn(s1, id, s.waiting[id]);
      SameTracked(s, id, s1, Cleaned(s1, id, s.waiting[id]));
  }

  lemma SameTakesItsOwn(s: State, id: RequestId, r: State)
    requires r.tracked == s.tracked && r.finished == s.finished
    ensures TookItsOwn(s, id, r)
  {}

  lemma SameTracked(s: State, id: RequestId, s1: State, r: State)
    requires TookItsOwn(s1, id, r) && s1.tracked == s.tracked && s1.finished == s.finished
    ensures TookItsOwn(s, id, r)
  {}

  lemma DoneTakesItsOwn(s: State, id: RequestId)
    requires id in s.inFlight
    ensures TookItsOwn(s, id, AfterDone(s, id))
  {
    var t, s1 := s.inFlight[id].thread, Ended(s, s.inFlight[id]).(inFlight := s.inFlight - {id});
    var s2 := if CloudId(s, t) == id then WithCloud(s1, t, 0) else s1;
    ErasedTakesItsOwn(s2, t, id);
    SameTracked(s, id, s2, AfterDone(s, id));
  }

  lemma CleanedTakesItsOwn(s: State, id: RequestId, save: Save)
    ensures TookItsOwn(s, id, Cleaned(s, id, save))
  {
    var t, e := save.thread, Ended(s, save);
    var s1 := if CloudId(e, t) != id then e
              else if save.clearOnFail then e.(cloud := e.cloud - {t}) else WithCloud(e, t, 0);
    ErasedTakesItsOwn(s1, t, id);
    SameTracked(s, id, s1, Cleaned(s, id, save));
  }

  // ---- Where the entry of a newer save is lost ----

  const FIRST := Save(0, 0, true, false, false)
  const SECOND := Save(0, 1, false, false, false)
  const FIRST_SAVING: Saving := (0, 0)
  const SECOND_SAVING: Saving := (0, 1)

  /** A rich save waits for a file reference, and a second save supersedes it. */
  const SUPERSEDED := State(map[0 := 2], map[0 := 2], map[2 := SECOND], map[1 := FIRST], 3, {}, 2, map[0 := 1], 0,
                            {FIRST_SAVING, SECOND_SAVING})
  const SUPERSEDING := [CloudReplaced(0), SaveNow(0, Accepted(true)), Fail(1, true), SaveNow(0, Accepted(false))]

  lemma SupersededReached(steps: seq<Step>)
    requires Possible(SUPERSEDED, steps)
    ensures Possible(INITIAL, SUPERSEDING + steps) && Run(INITIAL, SUPERSEDING + steps) == Run(SUPERSEDED, steps)
  {
    var s1 := State(map[], map[0 := 0], map[], map[], 1, {}, 0, map[], 0, {});
    var s2 := State(map[0 := 1], map[0 := 1], map[1 := FIRST], map[], 2, {}, 1, map[0 := 0], 0, {FIRST_SAVING});
    var s3 := s2.(inFlight := map[], waiting := map[1 := FIRST]);
    assert Next(INITIAL, CloudReplaced(0)) == s1;
    assert Next(s1, SaveNow(0, Accepted(true))) == s2;
    assert Next(s2, Fail(1, true)) == s3;
    assert Next(s3, SaveNow(0, Accepted(false))) == SUPERSEDED;
    hide Next;
    var rest := [SaveNow(0, Accepted(false))] + steps;
    RunOf(s3, SaveNow(0, Accepted(false)), steps);
    RunOf(s2, Fail(1, true), rest);
    RunOf(s1, SaveNow(0, Accepted(true)), [Fail(1, true)] + rest);
    RunOf(INITIAL, CloudReplaced(0), [SaveNow(0, Accepted(true))] + ([Fail(1, true)] + rest));
    assert SUPERSEDING + steps == [CloudReplaced(0)] + ([SaveNow(0, Accepted(true))] + ([Fail(1, true)] + rest));
  }

  /** From the start: the retry of a superseded save takes the entry over. When it is done, the second save is still
      under way, but quitting is not prevented any more. */
  lemma SupersededRetryLosesNewest()
    ensures var steps := SUPERSEDING + [Refresh(1, true), Done(3)];
      Possible(INITIAL, steps) && Live(Run(INITIAL, steps), 2)
      && IsNewest(Run(INITIAL, steps), SaveOf(Run(INITIAL, steps), 2)) && !QuitPrevented(Run(INITIAL, steps))
  {
    var s1 := SUPERSEDED.(tracked := map[0 := 3], cloud := map[0 := 3], waiting := map[], next := 4,
                          inFlight := map[2 := SECOND, 3 := FIRST.(refreshed := true)]);
    var s2 := s1.(tracked := map[], cloud := map[0 := 0], inFlight := map[2 := SECOND], finished := 1,
                  saving := {SECOND_SAVING});
    assert Next(SUPERSEDED, Refresh(1, true)) == s1;
    assert Next(s1, Done(3)) == s2;
    RunOf(s1, Done(3), []);
    RunOf(SUPERSEDED, Refresh(1, true), [Done(3)]);
    hide Next;
    SupersededReached([Refresh(1, true), Done(3)]);
  }

  /** And when the second save is over and a third is only scheduled, the same retry makes the table forget it. */
  lemma SupersededRetryDropsScheduled()
    ensures var steps := SUPERSEDING + [Done(2), Delayed(0, false), Refresh(1, true), Done(3)];
      Possible(INITIAL, steps) && Run(INITIAL, steps).saves == 2 && !QuitPrevented(Run(INITIAL, steps))
  {
    var s1 := SUPERSEDED.(tracked := map[], cloud := map[0 := 0], inFlight := map[], finished := 1,
                          saving := {FIRST_SAVING});
    var s2 := s1.(tracked := map[0 := 0]);
    var s3 := s2.(tracked := map[0 := 3], cloud := map[0 := 3], inFlight := map[3 := FIRST.(refreshed := true)],
                  waiting := map[], next := 4);
    var s4 := s3.(tracked := map[], cloud := map[0 := 0], inFlight := map[], finished := 2, saving := {});
    assert Next(SUPERSEDED, Done(2)) == s1;
    assert Next(s1, Delayed(0, false)) == s2;
    assert Next(s2, Refresh(1, true)) == s3;
    assert Next(s3, Done(3)) == s4;
    hide Next;
    RunOf(s3, Done(3), []);
    RunOf(s2, Refresh(1, true), [Done(3)]);
    RunOf(s1, Delayed(0, false), [Refresh(1, true), Done(3)]);
    RunOf(SUPERSEDED, Done(2), [Delayed(0, false), Refresh(1, true), Done(3)]);
    SupersededReached([Done(2), Delayed(0, false), Refresh(1, true), Done(3)]);
  }

  /** Encryption is switched on while the newest save waits for its file reference: it is forgotten, quitting is no
      longer prevented, and then its retry goes out all the same. */
  lemma EncryptionForgetsNewest()
    ensures var steps := [SaveNow(0, Accepted(true)), Delayed(0, false), Fail(1, true), Encrypted({0})];
      Possible(INITIAL, steps) && Live(Run(INITIAL, steps), 1)
      && IsNewest(Run(INITIAL, steps), SaveOf(Run(INITIAL, steps), 1)) && !QuitPrevented(Run(INITIAL, steps))
      && Enabled(Run(INITIAL, steps), Refresh(1, true))
      && Live(Next(Run(INITIAL, steps), Refresh(1, true)), 2)
      && !QuitPrevented(Next(Run(INITIAL, steps), Refresh(1, true)))
  {
    var s1 := State(map[0 := 1], map[], map[1 := FIRST], map[], 2, {}, 1, map[0 := 0], 0, {FIRST_SAVING});
    var s3 := s1.(inFlight := map[], waiting := map[1 := FIRST]);
    var s4 := s3.(tracked := map[], finished := 1);
    assert Next(INITIAL, SaveNow(0, Accepted(true))) == s1;
    assert Next(s1, Delayed(0, false)) == s1;
    assert Next(s1, Fail(1, true)) == s3;
    assert Next(s3, Encrypted({0})) == s4;
    RunOf(s3, Encrypted({0}), []);
    RunOf(s1, Fail(1, true), [Encrypted({0})]);
    RunOf(s1, Delayed(0, false), [Fail(1, true), Encrypted({0})]);
    RunOf(INITIAL, SaveNow(0, Accepted(true)), [Delayed(0, false), Fail(1, true), Encrypted({0})]);
  }

  lemma RunOf(s: State, step: Step, rest: seq<Step>)
    requires Enabled(s, step) && Possible(Next(s, step), rest)
    ensures Possible(s, [step] + rest) && Run(s, [step] + rest) == Run(Next(s, step), rest)
  {
    assert ([step] + rest)[1..] == rest;
  }

  lemma SentIs(s: State, t: Thread, rich: bool, clearOnFail: bool)
    ensures var save := Save(t, s.saves, rich, false, clearOnFail);
      Sent(s, t, rich, clearOnFail)
      == s.(cloud := Moved(Moved(s.cloud, t, 0), t, s.next), inFlight := (s.inFlight - {CloudId(s, t)})[s.next := save],
            next := s.next + 1, saves := s.saves + 1, newest := s.newest[t := s.saves],
            saving := s.saving + {(t, s.saves)})
  {
    hide CloudId;
  }

  // ---- What the history counts ----

  /** The history of the thread counts a save of it as being saved. */
  ghost predicate Skips(s: State, t: Thread) { exists n: nat :: (t, n) in s.saving }

  function SavingsOf(saving: set<Saving>, t: Thread): set<Saving> { set p | p in saving && p.0 == t }

  function Count(counts: map<Thread, nat>, t: Thread): nat { if t in counts then counts[t] else 0 }

  /** The counts are those of the saves counted, without zeros; their numbers are those given so far. */
  ghost predicate Counts(counts: map<Thread, nat>, saving: set<Saving>, saves: nat) {
    && (forall t :: t in counts ==> counts[t] > 0)
    && (forall t :: |SavingsOf(saving, t)| == Count(counts, t))
    && (forall p :: p in saving ==> p.1 < saves)
  }

  lemma SavingStarts(saving: set<Saving>, t: Thread, n: nat)
    requires (t, n) !in saving
    ensures forall u :: |SavingsOf(saving + {(t, n)}, u)| == |SavingsOf(saving, u)| + if u == t then 1 else 0
  {
    forall u ensures |SavingsOf(saving + {(t, n)}, u)| == |SavingsOf(saving, u)| + if u == t then 1 else 0 {
      assert SavingsOf(saving + {(t, n)}, u) == SavingsOf(saving, u) + if u == t then {(t, n)} else {};
    }
  }

  lemma SavingEnds(saving: set<Saving>, t: Thread, n: nat)
    requires (t, n) in saving
    ensures forall u :: |SavingsOf(saving, u)| == |SavingsOf(saving - {(t, n)}, u)| + if u == t then 1 else 0
  {
    SavingStarts(saving - {(t, n)}, t, n);
    assert saving - {(t, n)} + {(t, n)} == saving;
  }

  lemma SavingsAre(saving: set<Saving>, t: Thread)
    ensures |SavingsOf(saving, t)| > 0 <==> exists n: nat :: (t, n) in saving
  {
    if |SavingsOf(saving, t)| > 0 {
      var p :| p in SavingsOf(saving, t);
      assert p == (t, p.1);
    }
    if n: nat :| (t, n) in saving {
      assert (t, n) in SavingsOf(saving, t);
    }
  }

  // ---- The methods ----

  class ApiDrafts {
    var draftsSaveRequestIds: map<Thread, RequestId>
    var cloudDraft: map<Thread, RequestId>
    /** How many saves of each thread the history counts as being saved. */
    var savingCloudDraftRequests: map<Thread, nat>
    // The network's side, the threads that are gone, and the notifications.
    var inFlight: map<RequestId, Save>
    var waiting: map<RequestId, Save>
    var nextId: RequestId
    var gone: set<Thread>
    var finished: nat
    var saves: nat
    ghost var newest: map<Thread, nat>
    ghost var saving: set<Saving>

    ghost function Abs(): State
      reads this
    {
      State(draftsSaveRequestIds, cloudDraft, inFlight, waiting, nextId, gone, saves, newest, finished, saving)
    }

    ghost predicate Counted()
      reads this
    {
      Counts(savingCloudDraftRequests, saving, saves)
    }

    constructor ()
      ensures Abs() == INITIAL && Counted()
    {
      savingCloudDraftRequests, saving := map[], {};
      draftsSaveRequestIds, cloudDraft, inFlight, waiting, nextId := map[], map[], map[], map[], 1;
      gone, finished, saves, newest := {}, 0, 0, map[];
    }

    method SaveDraftToCloudDelayed(thread: Thread, skip: bool)
      modifies this`draftsSaveRequestIds
      ensures Abs() == AfterDelayed(old(Abs()), thread, skip)
    {
      if skip { return; }
      if thread !in draftsSaveRequestIds {
        draftsSaveRequestIds := draftsSaveRequestIds[thread := 0];
      }
    }

    method StartSavingCloudDraft(thread: Thread)
      requires Counted()
      modifies this`savingCloudDraftRequests, this`saving, this`saves
      ensures Counted() && saving == old(saving) + {(thread, old(saves))} && saves == old(saves) + 1
    {
      SavingStarts(saving, thread, saves);
      var count := if thread in savingCloudDraftRequests then savingCloudDraftRequests[thread] else 0;
      savingCloudDraftRequests := savingCloudDraftRequests[thread := count + 1];
      saving := saving + {(thread, saves)};
      saves := saves + 1;
    }

    method FinishSavingCloudDraft(thread: Thread, ghost number: nat)
      requires Counted() && (thread, number) in saving
      modifies this`savingCloudDraftRequests, this`saving
      ensures Counted() && saving == old(saving) - {(thread, number)}
    {
      SavingEnds(saving, thread, number);
      if thread in savingCloudDraftRequests {
        savingCloudDraftRequests := savingCloudDraftRequests[thread := savingCloudDraftRequests[thread] - 1];
        if savingCloudDraftRequests[thread] <= 0 {
          savingCloudDraftRequests := savingCloudDraftRequests - {thread};
        }
      }
      saving := saving - {(thread, number)};
    }

    /** Whether the history ignores what it hears about the cloud draft, because saves are counted. */
    method SkipCloudDraftUpdate(thread: Thread) returns (skip: bool)
      requires Counted()
      ensures skip <==> Skips(Abs(), thread)
    {
      SavingsAre(saving, thread);
      skip := thread in savingCloudDraftRequests;
    }

    /** The request kept in the cloud draft is cancelled. */
    method CancelKept(thread: Thread)
      modifies this`cloudDraft, this`inFlight
      ensures inFlight == old(inFlight) - {CloudId(old(Abs()), thread)}
      ensures cloudDraft == Moved(old(cloudDraft), thread, 0)
    {
      var cancelled := 0;
      if thread in cloudDraft && cloudDraft[thread] != 0 {
        cancelled := cloudDraft[thread];
        cloudDraft := cloudDraft[thread := 0];
      }
      inFlight := inFlight - {cancelled};
    }

    method PerformRequest(save: Save) returns (id: RequestId)
      modifies this`inFlight, this`nextId
      ensures id == old(nextId) && nextId == id + 1 && inFlight == old(inFlight)[id := save]
    {
      id := nextId;
      inFlight := inFlight[id := save];
      nextId := nextId + 1;
    }

    /** Returns 0 if nothing is sent. */
    method SavePreparedDraftToCloud(thread: Thread, outcome: Outcome, clearOnFail: bool) returns (id: RequestId)
      requires nextId > 0 && Counted()
      modifies this`cloudDraft, this`inFlight, this`nextId, this`saves, this`newest, this`saving,
        this`savingCloudDraftRequests
      ensures Counted()
      ensures id == if outcome.Refused? then 0 else old(nextId)
      ensures Abs() == if outcome.Refused? then old(Abs()) else Sent(old(Abs()), thread, outcome.rich, clearOnFail)
    {
      if outcome.Refused? { return 0; }
      SentIs(Abs(), thread, outcome.rich, clearOnFail);
      hide Counts, CloudId, Sent, Moved;
      id := SendSave(thread, outcome.rich, clearOnFail);
    }

    method SendSave(thread: Thread, rich: bool, clearOnFail: bool) returns (id: RequestId)
      requires Counted()
      modifies this`cloudDraft, this`inFlight, this`nextId, this`saves, this`newest, this`saving,
        this`savingCloudDraftRequests
      ensures Counted() && id == old(nextId) && nextId == id + 1
      ensures cloudDraft == Moved(Moved(old(cloudDraft), thread, 0), thread, id)
      ensures var save := Save(thread, old(saves), rich, false, clearOnFail);
        inFlight == (old(inFlight) - {CloudId(old(Abs()), thread)})[id := save]
      ensures saves == old(saves) + 1 && newest == old(newest)[thread := old(saves)]
      ensures saving == old(saving) + {(thread, old(saves))}
    {
      hide Counts, CloudId, Moved;
      CancelKept(thread);
      newest := newest[thread := saves];
      StartSavingCloudDraft(thread);
      id := PerformRequest(Save(thread, saves - 1, rich, false, clearOnFail));
      KeepInCloudDraft(thread, id);
    }

    method KeepInCloudDraft(thread: Thread, id: RequestId)
      modifies this`cloudDraft
      ensures cloudDraft == Moved(old(cloudDraft), thread, id)
    {
      if thread in cloudDraft {
        cloudDraft := cloudDraft[thread := id];
      }
    }

    method SaveDraftToCloud(thread: Thread, outcome: Outcome) returns (id: RequestId)
      requires nextId > 0 && Counted()
      modifies this
      ensures Counted() && id == if outcome.Refused? then 0 else old(nextId)
      ensures Abs() == AfterSave(old(Abs()), thread, outcome)
    {
      hide Sent;
      SentFields(Abs(), thread, outcome.Accepted? && outcome.rich, false);
      id := SavePreparedDraftToCloud(thread, outcome, false);
      if id == 0 { return 0; }
      draftsSaveRequestIds := draftsSaveRequestIds[thread := id];
    }

    method TrackRequestId(thread: Thread, id: RequestId)
      modifies this`cloudDraft, this`draftsSaveRequestIds
      ensures Abs() == Retracked(old(Abs()), thread, id)
    {
      KeepInCloudDraft(thread, id);
      if thread in draftsSaveRequestIds {
        draftsSaveRequestIds := draftsSaveRequestIds[thread := id];
      }
    }

    method EraseEntry(thread: Thread, id: RequestId)
      modifies this`draftsSaveRequestIds, this`finished
      ensures Abs() == Erased(old(Abs()), thread, id)
    {
      if thread in draftsSaveRequestIds && draftsSaveRequestIds[thread] == id {
        draftsSaveRequestIds := draftsSaveRequestIds - {thread};
        if draftsSaveRequestIds == map[] {
          finished := finished + 1;
        }
      }
    }

    method FailCleanup(id: RequestId, save: Save)
      requires Counted() && (save.thread, save.number) in saving
      modifies this`cloudDraft, this`draftsSaveRequestIds, this`finished, this`saving, this`savingCloudDraftRequests
      ensures Abs() == Cleaned(old(Abs()), id, save) && Counted()
    {
      hide Erased, Counts;
      var thread := save.thread;
      FinishSavingCloudDraft(thread, save.number);
      ghost var given := CloudId(Abs(), thread) == id;
      if thread in cloudDraft && cloudDraft[thread] == id {
        cloudDraft := cloudDraft[thread := 0];
        if save.clearOnFail {
          cloudDraft := cloudDraft - {thread};
        }
      }
      assert thread !in old(cloudDraft) ==> cloudDraft - {thread} == cloudDraft;
      assert cloudDraft == if !given then old(cloudDraft) else if save.clearOnFail then old(cloudDraft) - {thread}
                           else WithCloud(old(Abs()), thread, 0).cloud;
      EraseEntry(thread, id);
    }

    method OnDone(id: RequestId)
      requires id in inFlight && Counted() && (inFlight[id].thread, inFlight[id].number) in saving
      modifies this
      ensures Abs() == AfterDone(old(Abs()), id) && Counted()
    {
      hide Erased, Counts;
      var thread := inFlight[id].thread;
      FinishSavingCloudDraft(thread, inFlight[id].number);
      inFlight := inFlight - {id};
      if thread in cloudDraft && cloudDraft[thread] == id {
        cloudDraft := cloudDraft[thread := 0];
      }
      EraseEntry(thread, id);
    }

    method OnFail(id: RequestId, fileReference: bool)
      requires id in inFlight && Counted() && (inFlight[id].thread, inFlight[id].number) in saving
      modifies this
      ensures Abs() == AfterFail(old(Abs()), id, fileReference) && Counted()
    {
      hide Cleaned, Counts;
      var save := inFlight[id];
      inFlight := inFlight - {id};
      if !save.refreshed && fileReference && save.rich {
        waiting := waiting[id := save];
        return;
      }
      FailCleanup(id, save);
    }

    method OnRefreshed(id: RequestId, serialized: bool)
      requires id in waiting && Counted() && (waiting[id].thread, waiting[id].number) in saving
      modifies this
      ensures Abs() == AfterRefresh(old(Abs()), id, serialized) && Counted()
    {
      hide Cleaned, Retracked, Counts;
      var save := waiting[id];
      waiting := waiting - {id};
      if serialized {
        var newId := nextId;
        inFlight := inFlight[newId := save.(refreshed := true)];
        nextId := nextId + 1;
        TrackRequestId(save.thread, newId);
      } else {
        FailCleanup(id, save);
      }
    }

    /** An entry goes, and its request is cancelled. */
    method DropEntry(thread: Thread)
      requires thread in draftsSaveRequestIds
      modifies this`draftsSaveRequestIds, this`inFlight
      ensures draftsSaveRequestIds == old(draftsSaveRequestIds) - {thread}
      ensures var id := old(draftsSaveRequestIds)[thread];
        inFlight == if id != 0 then old(inFlight) - {id} else old(inFlight)
    {
      if draftsSaveRequestIds[thread] != 0 {
        inFlight := inFlight - {draftsSaveRequestIds[thread]};
      }
      draftsSaveRequestIds := draftsSaveRequestIds - {thread};
    }

    method DropEntries(threads: set<Thread>)
      modifies this`draftsSaveRequestIds, this`inFlight
      ensures var hit := Hit(old(Abs()), threads);
        && draftsSaveRequestIds == old(draftsSaveRequestIds) - hit
        && inFlight == old(inFlight) - IdsOf(old(draftsSaveRequestIds), hit)
    {
      hide Hit, IdsOf;
      ghost var tracked, sent := draftsSaveRequestIds, inFlight;
      var left := draftsSaveRequestIds.Keys;
      ghost var erased: set<Thread> := {};
      NoIds(tracked);
      while left != {}
        invariant left <= tracked.Keys && erased <= tracked.Keys - left
        invariant draftsSaveRequestIds == tracked - erased && inFlight == sent - IdsOf(tracked, erased)
        invariant forall t :: t in tracked && t !in left ==> (t in erased <==> t in threads && t !in gone)
        decreases |left|
      {
        var thread :| thread in left;
        left := left - {thread};
        if thread in gone || thread !in threads { continue; }
        IdsJoin(tracked, erased, thread, sent);
        DropEntry(thread);
        erased := erased + {thread};
      }
      HitIs(old(Abs()), threads, erased);
    }

    /** `threads` are those of the peer for which encryption was switched on. */
    method OnEncrypted(threads: set<Thread>)
      requires Counted()
      modifies this`draftsSaveRequestIds, this`inFlight, this`finished
      ensures Abs() == AfterEncrypted(old(Abs()), threads) && Counted()
    {
      hide Hit, IdsOf, Counts;
      DropEntries(threads);
      if draftsSaveRequestIds == map[] {
        finished := finished + 1;
      }
    }

    method SweepEntry(thread: Thread, look: Look)
      requires nextId > 0 && Counted() && thread in draftsSaveRequestIds
      modifies this
      ensures nextId > 0 && Counted() && Abs() == SweepOne(old(Abs()), thread, look)
    {
      hide Sent, Counts;
      if thread in gone {
        draftsSaveRequestIds := draftsSaveRequestIds - {thread};
        return;
      }
      if draftsSaveRequestIds[thread] != 0 { return; }
      if look.Skip? {
        draftsSaveRequestIds := draftsSaveRequestIds - {thread};
        return;
      }
      if look.replaced || thread !in cloudDraft {
        cloudDraft := cloudDraft[thread := 0];
      }
      SentFields(Abs(), thread, look.outcome.Accepted? && look.outcome.rich, true);
      var id := SavePreparedDraftToCloud(thread, look.outcome, true);
      draftsSaveRequestIds := draftsSaveRequestIds[thread := id];
      if id == 0 {
        draftsSaveRequestIds := draftsSaveRequestIds - {thread};
        assert draftsSaveRequestIds == old(draftsSaveRequestIds) - {thread};
      }
    }

    method SaveDraftsToCloud(w: World) returns (ghost order: seq<Thread>)
      requires nextId > 0 && Counted()
      modifies this
      ensures Covers(order, old(draftsSaveRequestIds)) && nextId > 0 && Counted()
      ensures Abs() == AfterSweep(old(Abs()), order, w)
    {
      hide SweepOne, Counts;
      order := [];
      var left := draftsSaveRequestIds.Keys;
      while left != {}
        invariant nextId > 0 && Counted() && Abs() == AfterSweep(old(Abs()), order, w)
        invariant left <= draftsSaveRequestIds.Keys
        invariant forall t :: t in old(draftsSaveRequestIds) ==> t in left || t in order
        decreases |left|
      {
        var thread :| thread in left;
        SweepOneSends(Abs(), thread, w(thread));
        SweepOneKeepsOthers(Abs(), thread, w(thread));
        SweepEntry(thread, w(thread));
        left := left - {thread};
        assert (order + [thread])[..|order|] == order;
        order := order + [thread];
      }
    }

    method IsQuitPrevent(w: World) returns (prevented: bool, ghost order: seq<Thread>)
      requires nextId > 0 && Counted()
      modifies this
      ensures Covers(order, old(draftsSaveRequestIds)) && Counted()
      ensures Abs() == AfterSweep(old(Abs()), order, w) && prevented == QuitPrevented(Abs())
    {
      order := [];
      if draftsSaveRequestIds == map[] { return false, []; }
      order := SaveDraftsToCloud(w);
      prevented := draftsSaveRequestIds != map[];
    }
  }

  lemma SweepOneKeepsOthers(s: State, t: Thread, look: Look)
    ensures s.tracked.Keys - {t} <= SweepOne(s, t, look).tracked.Keys
  {}

  lemma NoIds(tracked: map<Thread, RequestId>)
    ensures IdsOf(tracked, {}) == {}
  {}

  lemma IdsJoin(tracked: map<Thread, RequestId>, threads: set<Thread>, t: Thread, inFlight: map<RequestId, Save>)
    requires t in tracked
    ensures tracked - (threads + {t}) == tracked - threads - {t}
    ensures var ids := IdsOf(tracked, threads);
      inFlight - IdsOf(tracked, threads + {t}) ==
        if tracked[t] != 0 then inFlight - ids - {tracked[t]} else inFlight - ids
  {
    var ids := IdsOf(tracked, threads);
    assert IdsOf(tracked, threads + {t}) == if tracked[t] != 0 then ids + {tracked[t]} else ids;
  }

  lemma HitIs(s: State, threads: set<Thread>, hit: set<Thread>)
    requires forall t :: t in hit <==> t in s.tracked && t in threads && t !in s.gone
    ensures Hit(s, threads) == hit
  {}
}
