/** What a sweep makes of every scheduled draft, and what a failed save may do to a cloud draft. */
module DraftSweeps {
  import opened DraftSaves

  // ---- One sweep ----

  /** The draft is on its way under a new id, as the newest save of its thread, and its cloud draft keeps that id. */
  ghost predicate SentBySweep(s: State, r: State, t: Thread, rich: bool) {
    && t in r.tracked && r.tracked[t] >= s.next && r.tracked[t] in r.inFlight
    && t in r.newest && r.newest[t] >= s.saves
    && r.inFlight[r.tracked[t]] == Save(t, r.newest[t], rich, false, true)
    && t in r.cloud && r.cloud[t] == r.tracked[t]
  }

  /** A thread leaves the table if it is gone, or only scheduled and then skipped or refused; a save that is out stays
      as it is; every other scheduled one is sent, and takes the place of the request kept in its cloud draft. */
  ghost predicate Swept(s: State, r: State, t: Thread, look: Look) {
    if t !in s.tracked || t in s.gone then t !in r.tracked
    else if s.tracked[t] != 0 then t in r.tracked && r.tracked[t] == s.tracked[t]
    else if look.Skip? || look.outcome.Refused? then t !in r.tracked
    else SentBySweep(s, r, t, look.outcome.rich)
         && (!look.replaced && t in s.cloud ==> s.cloud[t] !in r.inFlight)
  }

  ghost predicate Untouched(s: State, r: State, t: Thread) {
    && (t in r.tracked <==> t in s.tracked) && (t in s.tracked ==> r.tracked[t] == s.tracked[t])
    && (t in r.cloud <==> t in s.cloud) && (t in s.cloud ==> r.cloud[t] == s.cloud[t])
  }

  /** New requests are those of scheduled threads, and only what the cloud draft of such a thread keeps is cancelled. */
  ghost predicate RequestsSwept(s: State, r: State) {
    && (forall id: RequestId :: id in r.inFlight ==>
          if id < s.next then id in s.inFlight && r.inFlight[id] == s.inFlight[id]
          else var t := r.inFlight[id].thread; Scheduled(s, t) && t in r.tracked && r.tracked[t] == id)
    && (forall id: RequestId :: id in s.inFlight && id !in r.inFlight ==>
          var t := s.inFlight[id].thread; Scheduled(s, t) && t in s.cloud && s.cloud[t] == id)
  }

  predicate Sends(s: State, t: Thread, look: Look) {
    t in s.tracked && t !in s.gone && s.tracked[t] == 0 && look.Send? && look.outcome.Accepted?
  }

  lemma SweepOneIs(s: State, t: Thread, look: Look)
    ensures SweepOne(s, t, look).waiting == s.waiting && s.cloud.Keys <= SweepOne(s, t, look).cloud.Keys
    ensures var r := SweepOne(s, t, look);
      if Sends(s, t, look) then
        var kept := if look.replaced then 0 else CloudId(s, t);
        && r.tracked == s.tracked[t := s.next] && r.cloud == s.cloud[t := s.next]
        && r.inFlight == (s.inFlight - {kept})[s.next := Save(t, s.saves, look.outcome.rich, false, true)]
        && r.next == s.next + 1 && r.saves == s.saves + 1 && r.newest == s.newest[t := s.saves] && r.gone == s.gone
      else
        && r == s.(tracked := r.tracked, cloud := r.cloud)
        && r.tracked == (if t in s.tracked && (t in s.gone || s.tracked[t] == 0) then s.tracked - {t} else s.tracked)
        && (r.cloud == s.cloud || r.cloud == s.cloud[t := 0])
  {
    if Sends(s, t, look) {
      SweepOneSent(s, t, look);
      hide SweepOne;
    } else {
      hide Sent;
    }
  }

  lemma SweepOneSent(s: State, t: Thread, look: Look)
    requires Sends(s, t, look)
    ensures var r := SweepOne(s, t, look);
      var kept := if look.replaced then 0 else CloudId(s, t);
      && r.tracked == s.tracked[t := s.next] && r.cloud == s.cloud[t := s.next]
      && r.inFlight == (s.inFlight - {kept})[s.next := Save(t, s.saves, look.outcome.rich, false, true)]
      && r.next == s.next + 1 && r.saves == s.saves + 1 && r.newest == s.newest[t := s.saves] && r.gone == s.gone
      && r.waiting == s.waiting
  {
    hide Sent;
    var s1 := if look.replaced || t !in s.cloud then s.(cloud := s.cloud[t := 0]) else s;
    SentIs(s1, t, look.outcome.rich);
    assert s1.cloud[t := s.next] == s.cloud[t := s.next];
  }

  lemma SentIs(s: State, t: Thread, rich: bool)
    requires t in s.cloud
    ensures Sent(s, t, rich, true) == s.(
              cloud := s.cloud[t := s.next],
              inFlight := (s.inFlight - {s.cloud[t]})[s.next := Save(t, s.saves, rich, false, true)],
              next := s.next + 1, saves := s.saves + 1, newest := s.newest[t := s.saves],
              saving := s.saving + {(t, s.saves)})
  {}

  /** A step of the sweep concerns no other thread. */
  lemma OtherSwept(s: State, r: State, t: Thread, look: Look, u: Thread, seen: Look)
    requires Sound(s) && Sound(r) && s.next <= r.next && s.saves <= r.saves && u != t && r.gone == s.gone
    ensures Swept(s, r, u, seen) ==> Swept(s, SweepOne(r, t, look), u, seen)
    ensures Untouched(s, r, u) ==> Untouched(s, SweepOne(r, t, look), u)
  {
    hide SweepOne, Numbered;
    SweepOneIs(r, t, look);
    IdsInFlight(r);
  }

  lemma IdsInFlight(s: State)
    requires Sound(s)
    ensures s.next > 0 && forall id: RequestId :: id in s.inFlight ==> 0 < id < s.next
  {
    assert forall id: RequestId :: id in s.inFlight ==> Live(s, id);
  }

  /** A thread that the sweep meets for the first time. */
  lemma FirstSwept(s: State, r: State, t: Thread, look: Look)
    requires Sound(s) && Sound(r) && s.next <= r.next && s.saves <= r.saves && r.gone == s.gone && Untouched(s, r, t)
    ensures Swept(s, SweepOne(r, t, look), t, look)
  {
    hide SweepOne, Numbered;
    SweepOneIs(r, t, look);
  }

  /** And one it has met already. */
  lemma AgainSwept(s: State, r: State, t: Thread, look: Look)
    requires Sound(s) && Swept(s, r, t, look) && r.gone == s.gone
    ensures SweepOne(r, t, look) == r
  {
    assert s.next > 0;
    hide Sound;
  }

  lemma RequestsKept(s: State, r: State, t: Thread, look: Look)
    requires Sound(s) && Sound(r) && s.next <= r.next && RequestsSwept(s, r) && r.gone == s.gone && Untouched(s, r, t)
    ensures RequestsSwept(s, SweepOne(r, t, look))
  {
    hide SweepOne, Numbered;
    SweepOneIs(r, t, look);
    IdsInFlight(r);
    IdsInFlight(s);
  }

  lemma SweptNext(s: State, t: Thread, look: Look)
    ensures var r := SweepOne(s, t, look); 
      && s.next <= r.next && s.saves <= r.saves && r.gone == s.gone
      && r.waiting == s.waiting && s.cloud.Keys <= r.cloud.Keys
  {
    hide SweepOne;
    SweepOneIs(s, t, look);
  }

  /** A sweep treats every thread it reaches as its look demands, each once, and no other thread at all. */
  lemma {:induction false} SweepDoes(s: State, order: seq<Thread>, w: World)
    requires Sound(s)
    ensures var r := AfterSweep(s, order, w);
      && Sound(r) && s.next <= r.next && s.saves <= r.saves && r.gone == s.gone
      && r.waiting == s.waiting && s.cloud.Keys <= r.cloud.Keys
      && (forall t :: t in order ==> Swept(s, r, t, w(t)))
      && (forall t :: t !in order ==> Untouched(s, r, t))
      && RequestsSwept(s, r)
  {
    hide Sound, Swept, Untouched, RequestsSwept, SweepOne;
    if order == [] {
      NothingSwept(s);
    } else {
      var init, last := order[..|order| - 1], order[|order| - 1];
      assert order == init + [last];
      SweepDoes(s, init, w);
      var r := AfterSweep(s, init, w);
      SweepOneKeeps(r, last, w(last));
      if last in init {
        AgainSwept(s, r, last, w(last));
      } else {
        SweptNext(r, last, w(last));
        FirstSwept(s, r, last, w(last));
        RequestsKept(s, r, last, w(last));
        forall t | t != last
          ensures Swept(s, r, t, w(t)) ==> Swept(s, SweepOne(r, last, w(last)), t, w(t))
          ensures Untouched(s, r, t) ==> Untouched(s, SweepOne(r, last, w(last)), t)
        {
          OtherSwept(s, r, last, w(last), t, w(t));
        }
      }
    }
  }

  lemma NothingSwept(s: State)
    requires Sound(s)
    ensures RequestsSwept(s, s) && forall t :: Untouched(s, s, t)
  {
    assert forall id: RequestId :: id in s.inFlight ==> Live(s, id);
  }

  /** A sweep over the whole table: for every thread there is, its entry and its requests afterwards. */
  lemma SweepServes(s: State, order: seq<Thread>, w: World)
    requires Sound(s) && Covers(order, s.tracked)
    ensures var r := AfterSweep(s, order, w);
      && (forall t :: Swept(s, r, t, w(t)))
      && RequestsSwept(s, r)
  {
    SweepDoes(s, order, w);
    hide Sound, RequestsSwept;
  }

  /** A save that is not refused is under way at once as the newest of its thread, in place of the one that the cloud
      draft keeps; one that is to wait for the next sweep is scheduled unless the thread has an entry. */
  lemma SaveSends(s: State, t: Thread, rich: bool, skip: bool)
    requires Sound(s)
    ensures var r := AfterSave(s, t, Accepted(rich));
      && t in r.tracked && r.tracked[t] >= s.next && r.tracked[t] in r.inFlight && t in r.newest
      && r.newest[t] >= s.saves && r.inFlight[r.tracked[t]] == Save(t, r.newest[t], rich, false, false)
      && CloudId(s, t) !in r.inFlight && (t in s.cloud ==> CloudId(r, t) == r.tracked[t])
    ensures AfterSave(s, t, Refused) == s
    ensures var r := AfterDelayed(s, t, skip);
      && (Scheduled(r, t) <==> Scheduled(s, t) || (t !in s.tracked && !skip))
      && (t in s.tracked ==> r == s)
  {
    IdsInFlight(s);
    assert CloudId(s, t) < s.next;
    hide Sound;
  }

  // ---- Where the saves come from ----

  /** The state, with the numbers of the saves that were not made by a sweep. */
  datatype Trace = Trace(state: State, direct: set<nat>)

  ghost function Record(t: Trace, step: Step): Trace
    requires Enabled(t.state, step)
  {
    Trace(Next(t.state, step),
          t.direct + if step.SaveNow? && step.outcome.Accepted? then {t.state.saves} else {})
  }

  /** Exactly the saves of sweeps may take the cloud draft away when they fail. A save that waits for its file reference
      has not been sent again yet; one that has been will not wait. */
  ghost predicate Origins(t: Trace) {
    var s := t.state;
    && (forall n :: n in t.direct ==> n < s.saves)
    && (forall id: RequestId :: Live(s, id) ==> (SaveOf(s, id).clearOnFail <==> SaveOf(s, id).number !in t.direct))
    && (forall id: RequestId :: id in s.waiting ==> s.waiting[id].rich && !s.waiting[id].refreshed)
  }

  /** A failed save waits for its file reference in this case, and otherwise is over. */
  predicate Waits(save: Save, fileReference: bool) { fileReference && save.rich && !save.refreshed }

  /** The requests after a step that is neither a sweep nor a save. */
  lemma RequestsAfter(s: State, step: Step)
    requires Enabled(s, step) && !step.Sweep? && !step.SaveNow?
    ensures var r := Next(s, step);
      && r.saves == s.saves
      && r.waiting == (match step
                       case Fail(id, fileReference) =>
                         if Waits(s.inFlight[id], fileReference) then s.waiting[id := s.inFlight[id]] else s.waiting
                       case Refresh(id, _) => s.waiting - {id}
                       case _ => s.waiting)
      && r.inFlight == (match step
                        case Done(id) => s.inFlight - {id}
                        case Fail(id, _) => s.inFlight - {id}
                        case Refresh(id, serialized) =>
                          if serialized then s.inFlight[s.next := s.waiting[id].(refreshed := true)] else s.inFlight
                        case Encrypted(threads) => s.inFlight - IdsOf(s.tracked, Hit(s, threads))
                        case _ => s.inFlight)
  {
    hide Cleaned, Erased, WithCloud, IdsOf, Hit, CloudId;
    match step
    case Done(id) =>
      var t, s1 := s.inFlight[id].thread, Ended(s, s.inFlight[id]).(inFlight := s.inFlight - {id});
      CloudLeavesRequests(s1, t, 0);
      ErasedIs(if CloudId(s, t) == id then WithCloud(s1, t, 0) else s1, t, id);
    case Fail(id, _) => CleanedIs(s.(inFlight := s.inFlight - {id}), id, s.inFlight[id]);
    case Refresh(id, _) =>
      CleanedIs(s.(waiting := s.waiting - {id}), id, s.waiting[id]);
      CloudLeavesRequests(
        s.(waiting := s.waiting - {id}, inFlight := s.inFlight[s.next := s.waiting[id].(refreshed := true)],
           next := s.next + 1), s.waiting[id].thread, s.next);
    case _ =>
  }

  lemma CloudLeavesRequests(s: State, t: Thread, id: RequestId)
    ensures var r := WithCloud(s, t, id); r == s.(cloud := r.cloud)
  {}

  lemma QuietOrigins(t: Trace, step: Step)
    requires Sound(t.state) && Origins(t) && Enabled(t.state, step) && !step.Sweep? && !step.SaveNow?
    ensures Origins(Record(t, step))
  {
    hide Numbered, Next, Sound, IdsOf, Hit, Origins;
    var s, r := t.state, Next(t.state, step);
    NotBoth(s);
    RequestsAfter(s, step);
    assert Record(t, step) == Trace(r, t.direct);
    assert Origins(Trace(r, t.direct)) by {
      forall id: RequestId | Live(r, id)
        ensures SaveOf(r, id).clearOnFail <==> SaveOf(r, id).number !in t.direct
      {
        if step.Refresh? && step.serialized && id == s.next {
          assert Live(s, step.id) && SaveOf(s, step.id) == s.waiting[step.id];
        } else {
          assert Live(s, id) && SaveOf(r, id) == SaveOf(s, id);
        }
        KnownOrigin(t, if step.Refresh? && step.serialized && id == s.next then step.id else id);
      }
      forall id: RequestId | id in r.waiting
        ensures r.waiting[id].rich && !r.waiting[id].refreshed
      {
        if id in s.waiting { KnownOrigin(t, id); }
      }
      assert forall n :: n in t.direct ==> n < s.saves by { KnownNumbers(t); }
      OriginsAre(Trace(r, t.direct));
    }
  }

  lemma KnownOrigin(t: Trace, id: RequestId)
    requires Origins(t)
    ensures Live(t.state, id) ==> (SaveOf(t.state, id).clearOnFail <==> SaveOf(t.state, id).number !in t.direct)
    ensures id in t.state.waiting ==> t.state.waiting[id].rich && !t.state.waiting[id].refreshed
  {}

  lemma KnownNumbers(t: Trace)
    requires Origins(t)
    ensures forall n :: n in t.direct ==> n < t.state.saves
  {}

  lemma OriginsAre(t: Trace)
    requires forall n :: n in t.direct ==> n < t.state.saves
    requires forall id: RequestId :: Live(t.state, id) ==>
               (SaveOf(t.state, id).clearOnFail <==> SaveOf(t.state, id).number !in t.direct)
    requires forall id: RequestId :: id in t.state.waiting ==>
               t.state.waiting[id].rich && !t.state.waiting[id].refreshed
    ensures Origins(t)
  {}

  lemma NotBoth(s: State)
    requires Sound(s)
    ensures forall id: RequestId :: Live(s, id) ==> 0 < id < s.next && !(id in s.inFlight && id in s.waiting)
    ensures forall id: RequestId :: Live(s, id) ==> SaveOf(s, id).number < s.saves
  {}

  lemma SaveOrigins(t: Trace, step: Step)
    requires Sound(t.state) && Origins(t) && Enabled(t.state, step) && step.SaveNow?
    ensures Origins(Record(t, step))
  {
    var s, r := t.state, Next(t.state, step);
    NotBoth(s);
    hide Sound, Origins;
    if step.outcome.Refused? {
      assert Record(t, step) == t;
    } else {
      var save := Save(step.t, s.saves, step.outcome.rich, false, false);
      assert r.inFlight == (s.inFlight - {CloudId(s, step.t)})[s.next := save] && r.waiting == s.waiting;
      hide AfterSave, Sent;
      KnownNumbers(t);
      forall id: RequestId | Live(r, id)
        ensures SaveOf(r, id).clearOnFail <==> SaveOf(r, id).number !in t.direct + {s.saves}
      {
        assert id == s.next || (Live(s, id) && SaveOf(r, id) == SaveOf(s, id));
        KnownOrigin(t, id);
      }
      forall id: RequestId | id in r.waiting { KnownOrigin(t, id); }
      OriginsAre(Record(t, step));
    }
  }

  lemma SweepOrigins(t: Trace, step: Step)
    requires Sound(t.state) && Origins(t) && Enabled(t.state, step) && step.Sweep?
    ensures Origins(Record(t, step))
  {
    var s, r := t.state, Next(t.state, step);
    assert r == AfterSweep(s, step.order, step.w) && Record(t, step) == Trace(r, t.direct);
    NotBoth(s);
    IdsInFlight(s);
    SweepDoes(s, step.order, step.w);
    NotBoth(r);
    hide Sound, Origins, Next, AfterSweep, Enabled;
    KnownNumbers(t);
    forall id: RequestId | Live(r, id)
      ensures SaveOf(r, id).clearOnFail <==> SaveOf(r, id).number !in t.direct
    {
      if id in r.inFlight && id >= s.next {
        var u := r.inFlight[id].thread;
        assert Scheduled(s, u) && r.tracked[u] == id;
        assert u in step.order ==> Swept(s, r, u, step.w(u));
        assert u !in step.order ==> Untouched(s, r, u);
      } else {
        assert Live(s, id) && SaveOf(r, id) == SaveOf(s, id);
        KnownOrigin(t, id);
      }
    }
    forall id: RequestId | id in r.waiting { KnownOrigin(t, id); }
    OriginsAre(Trace(r, t.direct));
  }

  lemma InitialOrigins()
    ensures Sound(INITIAL) && Origins(Trace(INITIAL, {})) && Kept(INITIAL)
  {
    InitialIsSound();
  }

  ghost function RunFrom(t: Trace, steps: seq<Step>): Trace
    requires Possible(t.state, steps)
    decreases |steps|
  {
    if steps == [] then t else RunFrom(Record(t, steps[0]), steps[1..])
  }

  /** In every run a save goes out at most once more, and only the saves of sweeps may clear a cloud draft. */
  lemma {:induction false} EveryRunOrigins(t: Trace, steps: seq<Step>)
    requires Sound(t.state) && Origins(t) && Possible(t.state, steps)
    ensures var r := RunFrom(t, steps); r.state == Run(t.state, steps) && Sound(r.state) && Origins(r)
    decreases |steps|
  {
    hide Sound, Origins, Next, Enabled;
    if steps != [] {
      StepKeeps(t.state, steps[0]);
      if steps[0].Sweep? { SweepOrigins(t, steps[0]); }
      else if steps[0].SaveNow? { SaveOrigins(t, steps[0]); }
      else { QuietOrigins(t, steps[0]); }
      EveryRunOrigins(Record(t, steps[0]), steps[1..]);
    }
  }

  /** A failed rich save waits for its file reference once; every other failure, and a file reference that cannot be
      written, ends the save. */
  lemma FailureRetriesOnce(t: Trace, id: RequestId, fileReference: bool)
    requires Sound(t.state) && Origins(t) && id in t.state.inFlight
    ensures var save, r := t.state.inFlight[id], AfterFail(t.state, id, fileReference);
      && (id in r.waiting <==> fileReference && save.rich && !save.refreshed)
      && id !in r.inFlight
      && (id in r.waiting ==> var q := AfterRefresh(r, id, true);
            r.waiting[id] == save && q.next == r.next + 1 && r.next in q.inFlight
            && q.inFlight[r.next] == save.(refreshed := true) && !Live(q, id)
            && forall again :: r.next !in AfterFail(q, r.next, again).waiting)
  {
    hide Sound, Origins, AfterFail, AfterRefresh;
    NotBoth(t.state);
    KnownOrigin(t, id);
    var s, r := t.state, AfterFail(t.state, id, fileReference);
    FailKeeps(s, id, fileReference);
    NotBoth(r);
    RequestsAfter(s, Fail(id, fileReference));
    if id in r.waiting { RetryIsLast(r, id); }
  }

  lemma RetryIsLast(s: State, id: RequestId)
    requires Sound(s) && id in s.waiting
    ensures var q := AfterRefresh(s, id, true);
      && q.next == s.next + 1 && s.next in q.inFlight && q.inFlight[s.next] == s.waiting[id].(refreshed := true)
      && !Live(q, id) && forall again :: s.next !in AfterFail(q, s.next, again).waiting
  {
    hide Sound, AfterFail;
    NotBoth(s);
    assert Live(s, id);
    RequestsAfter(s, Refresh(id, true));
    var q := AfterRefresh(s, id, true);
    assert q.next == s.next + 1;
    hide AfterRefresh;
    assert s.next !in q.waiting by { assert !Live(s, s.next); }
    forall again
      ensures s.next !in AfterFail(q, s.next, again).waiting
    {
      RequestsAfter(q, Fail(s.next, again));
      assert Next(q, Fail(s.next, again)) == AfterFail(q, s.next, again);
    }
  }

  // ---- The cloud drafts ----

  function CloudCleaned(cloud: map<Thread, RequestId>, id: RequestId, save: Save): map<Thread, RequestId> {
    if !(save.thread in cloud && cloud[save.thread] == id) then cloud
    else if save.clearOnFail then cloud - {save.thread}
    else cloud[save.thread := 0]
  }

  lemma CleanedCloud(s: State, id: RequestId, save: Save)
    requires id > 0
    ensures Cleaned(s, id, save).cloud == CloudCleaned(s.cloud, id, save)
  {
    var t, e := save.thread, Ended(s, save);
    ErasedIs(if CloudId(e, t) != id then e
             else if save.clearOnFail then e.(cloud := e.cloud - {t}) else WithCloud(e, t, 0), t, id);
    hide Erased;
  }

  /** The cloud drafts after a step that is neither a sweep nor a save. */
  lemma CloudAfter(s: State, step: Step)
    requires Sound(s) && Enabled(s, step) && !step.Sweep? && !step.SaveNow?
    ensures Next(s, step).cloud == match step
      case Done(id) => CloudCleaned(s.cloud, id, s.inFlight[id].(clearOnFail := false))
      case Fail(id, fileReference) =>
        if Waits(s.inFlight[id], fileReference) then s.cloud else CloudCleaned(s.cloud, id, s.inFlight[id])
      case Refresh(id, serialized) =>
        if serialized then Moved(s.cloud, s.waiting[id].thread, s.next) else CloudCleaned(s.cloud, id, s.waiting[id])
      case CloudReplaced(t) => s.cloud[t := 0]
      case CloudGone(t) => s.cloud - {t}
      case _ => s.cloud
  {
    NotBoth(s);
    hide Sound, Cleaned, Erased;
    match step
    case Done(id) =>
      assert Live(s, id);
      var t, s1 := s.inFlight[id].thread, Ended(s, s.inFlight[id]).(inFlight := s.inFlight - {id});
      ErasedIs(if CloudId(s, t) == id then WithCloud(s1, t, 0) else s1, t, id);
    case Fail(id, _) =>
      assert Live(s, id);
      CleanedCloud(s.(inFlight := s.inFlight - {id}), id, s.inFlight[id]);
    case Refresh(id, _) =>
      assert Live(s, id);
      CleanedCloud(s.(waiting := s.waiting - {id}), id, s.waiting[id]);
    case _ =>
  }

  /** The save that ends without success in a step. */
  predicate FailsFor(s: State, step: Step, t: Thread)
  {
    t in s.cloud && match step
    case Fail(id, fileReference) =>
      id in s.inFlight && !Waits(s.inFlight[id], fileReference)
      && s.inFlight[id].thread == t && s.cloud[t] == id && s.inFlight[id].clearOnFail
    case Refresh(id, serialized) =>
      id in s.waiting && !serialized && s.waiting[id].thread == t && s.cloud[t] == id && s.waiting[id].clearOnFail
    case _ => false
  }

  /** A cloud draft goes exactly when it is told to be gone, or the save of a sweep fails whose id it keeps. */
  lemma CloudDraftGoes(s: State, step: Step, t: Thread)
    requires Sound(s) && Enabled(s, step) && t in s.cloud
    ensures t !in Next(s, step).cloud <==> step == CloudGone(t) || FailsFor(s, step, t)
  {
    if step.Sweep? {
      SweepDoes(s, step.order, step.w);
    } else if !step.SaveNow? {
      CloudAfter(s, step);
      hide Next;
    }
  }

  /** What a cloud draft keeps is a save of its thread that is under way. */
  ghost predicate Kept(s: State) {
    forall t :: t in s.cloud && s.cloud[t] != 0 ==> Live(s, s.cloud[t]) && SaveOf(s, s.cloud[t]).thread == t
  }

  lemma SweepOneKept(s: State, t: Thread, look: Look)
    requires Sound(s) && Kept(s)
    ensures Kept(SweepOne(s, t, look))
  {
    hide SweepOne;
    SweepOneIs(s, t, look);
    NotBoth(s);
    hide Sound;
  }

  lemma {:induction false} SweepKept(s: State, order: seq<Thread>, w: World)
    requires Sound(s) && Kept(s)
    ensures Kept(AfterSweep(s, order, w))
  {
    hide Sound, Kept, SweepOne;
    if order != [] {
      SweepKept(s, order[..|order| - 1], w);
      SweepKeeps(s, order[..|order| - 1], w);
      SweepOneKept(AfterSweep(s, order[..|order| - 1], w), order[|order| - 1], w(order[|order| - 1]));
    }
  }

  lemma SaveKept(s: State, t: Thread, outcome: Outcome)
    requires Sound(s) && Kept(s)
    ensures Kept(AfterSave(s, t, outcome))
  {
    NotBoth(s);
    hide Sound;
  }

  /** Every step but the cancelling of encryption keeps the cloud drafts right. */
  lemma StepKept(s: State, step: Step)
    requires Sound(s) && Kept(s) && Enabled(s, step) && !step.Encrypted?
    ensures Kept(Next(s, step))
  {
    hide Sound, Kept, AfterSweep, AfterSave;
    match step
    case Sweep(order, w) => SweepKept(s, order, w);
    case SaveNow(t, outcome) => SaveKept(s, t, outcome);
    case Refresh(_, true) => RetryKept(s, step);
    case Done(_) => CompletionKept(s, step);
    case Fail(_, _) => CompletionKept(s, step);
    case Refresh(_, false) => CompletionKept(s, step);
    case _ => OtherKept(s, step);
  }

  lemma RetryKept(s: State, step: Step)
    requires Sound(s) && Kept(s) && Enabled(s, step) && step.Refresh? && step.serialized
    ensures Kept(Next(s, step))
  {
    hide Next, Sound;
    NotBoth(s);
    CloudAfter(s, step);
    RequestsAfter(s, step);
  }

  lemma OtherKept(s: State, step: Step)
    requires Sound(s) && Kept(s) && Enabled(s, step)
    requires step.Delayed? || step.CloudReplaced? || step.CloudGone? || step.ThreadGone?
    ensures Kept(Next(s, step))
  {
    hide Next, Sound;
    CloudAfter(s, step);
    RequestsAfter(s, step);
  }

  lemma CompletionKept(s: State, step: Step)
    requires Sound(s) && Kept(s) && Enabled(s, step) && Completes(step)
    ensures Kept(Next(s, step))
  {
    hide Next, Sound;
    var r := Next(s, step);
    NotBoth(s);
    CloudAfter(s, step);
    RequestsAfter(s, step);
    forall t | t in r.cloud && r.cloud[t] != 0
      ensures Live(r, r.cloud[t]) && SaveOf(r, r.cloud[t]).thread == t
    {
      assert t in s.cloud && r.cloud[t] == s.cloud[t] && Live(s, s.cloud[t]) && SaveOf(s, s.cloud[t]).thread == t;
    }
  }

  lemma {:induction false} EveryRunKept(s: State, steps: seq<Step>)
    requires Sound(s) && Kept(s) && Possible(s, steps) && forall step :: step in steps ==> !step.Encrypted?
    ensures Kept(Run(s, steps))
    decreases |steps|
  {
    hide Sound, Kept, Next, Enabled;
    if steps != [] {
      assert steps[0] in steps;
      StepKeeps(s, steps[0]);
      StepKept(s, steps[0]);
      forall step | step in steps[1..] ensures !step.Encrypted? { assert step in steps; }
      EveryRunKept(Next(s, steps[0]), steps[1..]);
    }
  }
}
