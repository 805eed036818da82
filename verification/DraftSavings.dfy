/** The count of saves that a history keeps: which saves never leave it, and what the thread ignores from then on. */
module DraftSavings {
  import opened DraftSaves

  function KeyOf(save: Save): Saving { (save.thread, save.number) }

  /** The saves under way: in flight, or waiting for a file reference. */
  function UnderWay(s: State): set<Saving> {
    (set id | id in s.inFlight :: KeyOf(s.inFlight[id])) + (set id | id in s.waiting :: KeyOf(s.waiting[id]))
  }

  /** Every save under way is counted, under a number given so far. */
  ghost predicate Booked(s: State) {
    UnderWay(s) <= s.saving && forall p :: p in s.saving ==> p.1 < s.saves
  }

  /** Every save of the thread that is counted is under way. */
  ghost predicate NoneLost(s: State, t: Thread) {
    forall p :: p in s.saving && p.0 == t ==> p in UnderWay(s)
  }

  // ---- The steps that cancel a save ----

  predicate SaveCancels(s: State, t: Thread) { CloudId(s, t) in s.inFlight }

  function BeforeSend(s: State, t: Thread, look: Look): State {
    if look.Send? && (look.replaced || t !in s.cloud) then s.(cloud := s.cloud[t := 0]) else s
  }

  predicate SweepOneCancels(s: State, t: Thread, look: Look) {
    && t in s.tracked && t !in s.gone && s.tracked[t] == 0 && look.Send? && look.outcome.Accepted?
    && SaveCancels(BeforeSend(s, t, look), t)
  }

  /** One of the entries that a sweep sends cancels a save of the thread. */
  predicate SweepCancels(s: State, order: seq<Thread>, w: World, t: Thread) {
    order != [] &&
      var init, last := order[..|order| - 1], order[|order| - 1];
      SweepCancels(s, init, w, t) || (last == t && SweepOneCancels(AfterSweep(s, init, w), t, w(t)))
  }

  /** A new save of the thread, in a sweep or not, finds one in flight in the cloud draft; or encryption is switched on
      while one is in flight. */
  predicate Cancels(s: State, step: Step, t: Thread) {
    match step
    case SaveNow(u, outcome) => u == t && outcome.Accepted? && SaveCancels(s, t)
    case Sweep(order, w) => SweepCancels(s, order, w, t)
    case Encrypted(threads) => t in Hit(s, threads) && s.tracked[t] in s.inFlight
    case _ => false
  }

  // ---- What a step does to the saves counted and to those under way ----

  /** A save of `t` starts, and the one that was in flight in its cloud draft, if any, is under way no more. */
  ghost predicate Starts(s: State, t: Thread, r: State) {
    && r.saving == s.saving + {(t, s.saves)} && r.saves == s.saves + 1
    && UnderWay(r) == UnderWay(s) - Cut(s, t) + {(t, s.saves)}
  }

  function Cut(s: State, t: Thread): set<Saving> {
    if SaveCancels(s, t) then {KeyOf(s.inFlight[CloudId(s, t)])} else {}
  }

  ghost predicate Ends(s: State, p: Saving, r: State) {
    r.saving == s.saving - {p} && r.saves == s.saves && UnderWay(r) == UnderWay(s) - {p}
  }

  ghost predicate SameSaves(s: State, r: State) {
    r.saving == s.saving && r.saves == s.saves && UnderWay(r) == UnderWay(s)
  }

  /** Two saves under way have two numbers. */
  lemma OneId(s: State, id: RequestId, other: RequestId)
    requires Numbered(s) && Live(s, id) && Live(s, other) && KeyOf(SaveOf(s, id)) == KeyOf(SaveOf(s, other))
    ensures id == other
  {}

  lemma UnderWayHas(s: State, p: Saving)
    requires Numbered(s)
    ensures p in UnderWay(s) <==> exists id: RequestId :: Live(s, id) && KeyOf(SaveOf(s, id)) == p
  {
    if id: RequestId :| id in s.inFlight && KeyOf(s.inFlight[id]) == p {
      assert Live(s, id);
    }
    if id: RequestId :| id in s.waiting && KeyOf(s.waiting[id]) == p {
      assert Live(s, id);
    }
  }

  /** Without one request, its save is the only one that is under way no more. */
  lemma WithoutOne(s: State, id: RequestId, r: State)
    requires Numbered(s) && Live(s, id) && r.inFlight == s.inFlight - {id} && r.waiting == s.waiting - {id}
    ensures UnderWay(r) == UnderWay(s) - {KeyOf(SaveOf(s, id))}
  {
    var p := KeyOf(SaveOf(s, id));
    forall q ensures q in UnderWay(r) <==> q in UnderWay(s) && q != p {
      if q in UnderWay(r) && q == p {
        WithoutOneHas(s, id, r);
        assert false;
      }
      if other: RequestId :| other in s.inFlight && KeyOf(s.inFlight[other]) == q && q != p {
        assert other in r.inFlight;
      }
      if other: RequestId :| other in s.waiting && KeyOf(s.waiting[other]) == q && q != p {
        assert other in r.waiting;
      }
    }
  }

  lemma WithoutOneHas(s: State, id: RequestId, r: State)
    requires Numbered(s) && Live(s, id) && r.inFlight == s.inFlight - {id} && r.waiting == s.waiting - {id}
    ensures KeyOf(SaveOf(s, id)) !in UnderWay(r)
  {
    forall other: RequestId | other in r.inFlight || other in r.waiting
      ensures (other in r.inFlight ==> KeyOf(r.inFlight[other]) != KeyOf(SaveOf(s, id)))
      ensures (other in r.waiting ==> KeyOf(r.waiting[other]) != KeyOf(SaveOf(s, id)))
    {
      assert Live(s, other);
    }
  }

  lemma WithOneMore(s: State, id: RequestId, save: Save)
    requires id !in s.inFlight
    ensures UnderWay(s.(inFlight := s.inFlight[id := save])) == UnderWay(s) + {KeyOf(save)}
  {
    var r := s.(inFlight := s.inFlight[id := save]);
    forall p | p in UnderWay(s) + {KeyOf(save)} ensures p in UnderWay(r) {
      if other: RequestId :| other in s.inFlight && KeyOf(s.inFlight[other]) == p {
        assert other in r.inFlight && r.inFlight[other] == s.inFlight[other];
      } else if p == KeyOf(save) {
        assert id in r.inFlight && KeyOf(r.inFlight[id]) == p;
      }
    }
  }

  lemma NotBoth(s: State, id: RequestId)
    requires Numbered(s) && Live(s, id)
    ensures id in s.inFlight ==> s.waiting - {id} == s.waiting
    ensures id in s.waiting ==> s.inFlight - {id} == s.inFlight
    ensures !Live(s, s.next) && KeyOf(SaveOf(s, id)).1 < s.saves
  {}

  lemma SentStarts(s: State, t: Thread, rich: bool, clearOnFail: bool)
    requires Sound(s)
    ensures Starts(s, t, Sent(s, t, rich, clearOnFail).(tracked := s.tracked[t := s.next]))
  {
    var r := Sent(s, t, rich, clearOnFail).(tracked := s.tracked[t := s.next]);
    var save, kept := Save(t, s.saves, rich, false, clearOnFail), CloudId(s, t);
    var s1 := s.(inFlight := s.inFlight - {kept});
    SentIs(s, t, rich, clearOnFail);
    hide Sent;
    CutIs(s, t);
    assert !Live(s, s.next);
    hide Sound, CloudId, SaveCancels, Cut;
    WithOneMore(s1, s.next, save);
    SameUnderWay(s1.(inFlight := s1.inFlight[s.next := save]), r);
    hide UnderWay;
  }

  lemma CutIs(s: State, t: Thread)
    requires Numbered(s)
    ensures UnderWay(s.(inFlight := s.inFlight - {CloudId(s, t)})) == UnderWay(s) - Cut(s, t)
  {
    var kept := CloudId(s, t);
    if kept in s.inFlight {
      assert Live(s, kept);
      NotBoth(s, kept);
      WithoutOne(s, kept, s.(inFlight := s.inFlight - {kept}));
    } else {
      assert s.inFlight - {kept} == s.inFlight;
    }
    hide UnderWay;
  }

  lemma SameUnderWay(s: State, r: State)
    requires r.inFlight == s.inFlight && r.waiting == s.waiting
    ensures UnderWay(r) == UnderWay(s)
  {}

  /** A start loses a save of the thread exactly if it cancels one. */
  lemma StartBooks(s: State, t: Thread, r: State, u: Thread)
    requires Sound(s) && Booked(s) && Starts(s, t, r)
    ensures Booked(r) && (NoneLost(r, u) <==> NoneLost(s, u) && !(u == t && SaveCancels(s, t)))
  {
    if SaveCancels(s, t) {
      var id := CloudId(s, t);
      assert Live(s, id) && s.inFlight[id].thread == t;
      NotBoth(s, id);
      UnderWayHas(s, KeyOf(s.inFlight[id]));
    }
    hide Sound, CloudId, UnderWay;
    forall p ensures p in Cut(s, t) ==> p in UnderWay(s) && p.0 == t && p != (t, s.saves) {}
    assert SaveCancels(s, t) ==> KeyOf(s.inFlight[CloudId(s, t)]) in Cut(s, t);
    StartLoses(s, t, r, u, Cut(s, t));
  }

  lemma StartLoses(s: State, t: Thread, r: State, u: Thread, cut: set<Saving>)
    requires Booked(s) && r.saving == s.saving + {(t, s.saves)} && r.saves == s.saves + 1
    requires UnderWay(r) == UnderWay(s) - cut + {(t, s.saves)}
    requires forall p :: p in cut ==> p in UnderWay(s) && p.0 == t && p != (t, s.saves)
    ensures Booked(r) && (NoneLost(r, u) <==> NoneLost(s, u) && !(u == t && cut != {}))
  {
    hide UnderWay;
    if cut != {} {
      var p :| p in cut;
      assert p in r.saving && p !in UnderWay(r);
    }
  }

  lemma EndBooks(s: State, p: Saving, r: State, u: Thread)
    requires Booked(s) && Ends(s, p, r) && p in UnderWay(s)
    ensures Booked(r) && (NoneLost(r, u) <==> NoneLost(s, u))
  {
    hide UnderWay;
  }

  lemma SameBooks(s: State, r: State, u: Thread)
    requires Booked(s) && SameSaves(s, r)
    ensures Booked(r) && (NoneLost(r, u) <==> NoneLost(s, u))
  {
    hide UnderWay;
  }

  predicate Sends(s: State, t: Thread, look: Look) {
    t in s.tracked && t !in s.gone && s.tracked[t] == 0 && look.Send? && look.outcome.Accepted?
  }

  lemma SendingSweepBooks(s: State, t: Thread, look: Look, u: Thread)
    requires Sound(s) && Booked(s) && Sends(s, t, look)
    ensures var r := SweepOne(s, t, look);
      Booked(r) && (NoneLost(r, u) <==> NoneLost(s, u) && !(u == t && SweepOneCancels(s, t, look)))
  {
    var s1 := BeforeSend(s, t, look);
    LocalBooks(s, s1, u);
    FreshCloudKeeps(s, t);
    assert Sound(s1);
    hide Sound, Booked, NoneLost, SaveCancels, Sent;
    SendBooks(s1, t, look.outcome.rich, true, u);
    assert SweepOne(s, t, look) == Sent(s1, t, look.outcome.rich, true).(tracked := s1.tracked[t := s1.next]);
    hide SweepOne, BeforeSend;
  }

  lemma SweepOneBooks(s: State, t: Thread, look: Look, u: Thread)
    requires Sound(s) && Booked(s)
    ensures var r := SweepOne(s, t, look);
      Booked(r) && (NoneLost(r, u) <==> NoneLost(s, u) && !(u == t && SweepOneCancels(s, t, look)))
  {
    hide Sound, Booked, NoneLost, SaveCancels;
    if Sends(s, t, look) {
      SendingSweepBooks(s, t, look, u);
    } else {
      var r := SweepOne(s, t, look);
      assert r == s.(tracked := r.tracked, cloud := r.cloud);
      hide SweepOne;
      LocalBooks(s, r, u);
    }
  }

  /** The tables do not matter to the books. */
  lemma LocalBooks(s: State, r: State, u: Thread)
    requires Booked(s) && r == s.(tracked := r.tracked, cloud := r.cloud, gone := r.gone)
    ensures Booked(r) && (NoneLost(r, u) <==> NoneLost(s, u))
  {
    SameUnderWay(s, r);
    SameBooks(s, r, u);
  }

  lemma SendBooks(s: State, t: Thread, rich: bool, clearOnFail: bool, u: Thread)
    requires Sound(s) && Booked(s)
    ensures var r := Sent(s, t, rich, clearOnFail).(tracked := s.tracked[t := s.next]);
      Booked(r) && (NoneLost(r, u) <==> NoneLost(s, u) && !(u == t && SaveCancels(s, t)))
  {
    SentStarts(s, t, rich, clearOnFail);
    StartBooks(s, t, Sent(s, t, rich, clearOnFail).(tracked := s.tracked[t := s.next]), u);
    hide Sent, Starts, Sound, Booked, NoneLost, SaveCancels;
  }

  lemma {:induction false} SweepBooks(s: State, order: seq<Thread>, w: World, t: Thread)
    requires Sound(s) && Booked(s)
    ensures var r := AfterSweep(s, order, w);
      Booked(r) && (NoneLost(r, t) <==> NoneLost(s, t) && !SweepCancels(s, order, w, t))
  {
    hide Sound, Booked, NoneLost, SweepOne, SweepOneCancels;
    if order != [] {
      var init, last := order[..|order| - 1], order[|order| - 1];
      SweepKeeps(s, init, w);
      SweepBooks(s, init, w, t);
      SweepOneBooks(AfterSweep(s, init, w), last, w(last), t);
    }
  }

  lemma DoneEnds(s: State, id: RequestId)
    requires Sound(s) && id in s.inFlight
    ensures Ends(s, KeyOf(s.inFlight[id]), AfterDone(s, id)) && KeyOf(s.inFlight[id]) in UnderWay(s)
  {
    var r, save := AfterDone(s, id), s.inFlight[id];
    assert Live(s, id);
    NotBoth(s, id);
    var s1 := Ended(s, save).(inFlight := s.inFlight - {id});
    ErasedIs(if CloudId(s, save.thread) == id then WithCloud(s1, save.thread, 0) else s1, save.thread, id);
    assert r.inFlight == s.inFlight - {id} && r.waiting == s.waiting && r.saving == s.saving - {KeyOf(save)} by {
      hide Erased;
    }
    assert r.saves == s.saves by { hide Erased; }
    hide AfterDone, Sound;
    WithoutOne(s, id, r);
  }

  lemma CleanedEnds(s: State, id: RequestId, s1: State, save: Save)
    requires Sound(s) && Live(s, id) && SaveOf(s, id) == save
    requires s1 == s.(inFlight := s.inFlight - {id}, waiting := s.waiting - {id})
    ensures Ends(s, KeyOf(save), Cleaned(s1, id, save)) && KeyOf(save) in UnderWay(s)
  {
    CleanedIs(s1, id, save);
    hide Cleaned;
    WithoutOne(s, id, Cleaned(s1, id, save));
  }

  lemma FailBooks(s: State, id: RequestId, fileReference: bool, t: Thread)
    requires Sound(s) && Booked(s) && id in s.inFlight
    ensures var r := AfterFail(s, id, fileReference); Booked(r) && (NoneLost(r, t) <==> NoneLost(s, t))
  {
    var save, r := s.inFlight[id], AfterFail(s, id, fileReference);
    var s1 := s.(inFlight := s.inFlight - {id});
    assert Live(s, id);
    NotBoth(s, id);
    if !save.refreshed && fileReference && save.rich {
      WaitsStill(s, id, r);
      SameBooks(s, r, t);
    } else {
      CleanedEnds(s, id, s1, save);
      hide Sound, Booked, NoneLost, Cleaned, Ends, UnderWay;
      EndBooks(s, KeyOf(save), r, t);
    }
  }

  /** A save that waits for its file reference is under way as before. */
  lemma WaitsStill(s: State, id: RequestId, r: State)
    requires Numbered(s) && id in s.inFlight
    requires r == s.(inFlight := s.inFlight - {id}, waiting := s.waiting[id := s.inFlight[id]])
    ensures UnderWay(r) == UnderWay(s)
  {
    assert Live(s, id);
    forall p ensures p in UnderWay(r) <==> p in UnderWay(s) {
      if other: RequestId :| other in s.inFlight && KeyOf(s.inFlight[other]) == p {
        assert other == id || other in r.inFlight;
        assert id in r.waiting;
      }
      if other: RequestId :| other in s.waiting && KeyOf(s.waiting[other]) == p {
        assert other in r.waiting && r.waiting[other] == s.waiting[other];
      }
    }
  }

  /** A retry goes on with the same save. */
  lemma RetryIsUnderWay(s: State, id: RequestId)
    requires Numbered(s) && id in s.waiting
    ensures SameSaves(s, AfterRefresh(s, id, true))
  {
    var save, r := s.waiting[id].(refreshed := true), AfterRefresh(s, id, true);
    var s1 := s.(waiting := s.waiting - {id});
    assert Live(s, id) && r.saving == s.saving && r.saves == s.saves;
    NotBoth(s, id);
    WithoutOne(s, id, s1);
    WithOneMore(s1, s.next, save);
    UnderWayHas(s, KeyOf(save));
    SameUnderWay(s1.(inFlight := s.inFlight[s.next := save]), r);
    hide UnderWay, AfterRefresh;
  }

  lemma RefreshBooks(s: State, id: RequestId, serialized: bool, t: Thread)
    requires Sound(s) && Booked(s) && id in s.waiting
    ensures var r := AfterRefresh(s, id, serialized); Booked(r) && (NoneLost(r, t) <==> NoneLost(s, t))
  {
    var save, r := s.waiting[id], AfterRefresh(s, id, serialized);
    if serialized {
      RetryIsUnderWay(s, id);
      hide Sound, UnderWay, Booked, NoneLost;
      SameBooks(s, r, t);
    } else {
      assert Live(s, id);
      NotBoth(s, id);
      CleanedEnds(s, id, s.(waiting := s.waiting - {id}), save);
      hide Sound, Booked, NoneLost, Cleaned, Ends, UnderWay;
      EndBooks(s, KeyOf(save), r, t);
    }
  }

  lemma EncryptedBooks(s: State, threads: set<Thread>, t: Thread)
    requires Sound(s) && Booked(s)
    ensures var r := AfterEncrypted(s, threads);
      Booked(r) && (NoneLost(r, t) <==> NoneLost(s, t) && !Cancels(s, Encrypted(threads), t))
  {
    var r := AfterEncrypted(s, threads);
    EncryptedSound(s, threads);
    forall p: Saving | p.0 == t
      ensures p in UnderWay(r) <==>
        p in UnderWay(s) && !(Cancels(s, Encrypted(threads), t) && p == KeyOf(s.inFlight[s.tracked[t]]))
    {
      EncryptedUnderWay(s, threads, p);
    }
    forall p | p in UnderWay(r) ensures p in UnderWay(s) {
      EncryptedUnderWay(s, threads, p);
    }
    if Cancels(s, Encrypted(threads), t) {
      var id := s.tracked[t];
      assert Live(s, id) && SaveOf(s, id).thread == t;
      UnderWayHas(s, KeyOf(s.inFlight[id]));
    }
    hide Sound, UnderWay, Hit, IdsOf;
  }

  lemma EncryptedUnderWay(s: State, threads: set<Thread>, p: Saving)
    requires Sound(s)
    ensures p in UnderWay(AfterEncrypted(s, threads)) <==>
      (&& p in UnderWay(s)
       && !(p.0 in Hit(s, threads) && s.tracked[p.0] in s.inFlight && p == KeyOf(s.inFlight[s.tracked[p.0]])))
  {
    var r := AfterEncrypted(s, threads);
    EncryptedSound(s, threads);
    UnderWayHas(s, p);
    UnderWayHas(r, p);
    forall id: RequestId
      ensures Live(r, id) ==> Live(s, id) && SaveOf(r, id) == SaveOf(s, id)
      ensures Live(s, id) && KeyOf(SaveOf(s, id)) == p ==>
        (Live(r, id) <==> !(p.0 in Hit(s, threads) && s.tracked[p.0] == id && id in s.inFlight))
    {
      EncryptedLive(s, threads, id);
      if Live(s, id) && KeyOf(SaveOf(s, id)) == p {
        EncryptedCuts(s, threads, id);
      }
    }
    hide UnderWay, AfterEncrypted;
    if id: RequestId :| Live(s, id) && KeyOf(SaveOf(s, id)) == p {
      forall other: RequestId | Live(s, other) && KeyOf(SaveOf(s, other)) == p ensures other == id {
        OneId(s, id, other);
      }
    }
  }

  /** A request in flight is cancelled exactly if the entry of its own thread holds it and goes. */
  lemma EncryptedCuts(s: State, threads: set<Thread>, id: RequestId)
    requires Sound(s) && Live(s, id)
    ensures var t := SaveOf(s, id).thread;
      Live(AfterEncrypted(s, threads), id) <==> !(t in Hit(s, threads) && s.tracked[t] == id && id in s.inFlight)
  {
    var t := SaveOf(s, id).thread;
    EncryptedLive(s, threads, id);
    if id in s.inFlight && id in IdsOf(s.tracked, Hit(s, threads)) {
      var u :| u in Hit(s, threads) && u in s.tracked && s.tracked[u] != 0 && s.tracked[u] == id;
      assert SaveOf(s, s.tracked[u]).thread == u;
    }
  }

  /** Every step keeps the books. It loses a save of a thread, which is then counted for ever, if and only if it cancels
      one that is in flight. */
  lemma StepBooks(s: State, step: Step, t: Thread)
    requires Sound(s) && Booked(s) && Enabled(s, step)
    ensures Booked(Next(s, step)) && (NoneLost(Next(s, step), t) <==> NoneLost(s, t) && !Cancels(s, step, t))
  {
    match step
    case SaveNow(u, outcome) =>
      if outcome.Accepted? {
        SendBooks(s, u, outcome.rich, false, t);
        hide Sound, Booked, NoneLost, Sent, SaveCancels;
      }
    case Sweep(order, w) => SweepBooks(s, order, w, t);
    case Done(id) =>
      DoneEnds(s, id);
      EndBooks(s, KeyOf(s.inFlight[id]), AfterDone(s, id), t);
    case Fail(id, fileReference) => FailBooks(s, id, fileReference, t);
    case Refresh(id, serialized) => RefreshBooks(s, id, serialized, t);
    case Encrypted(threads) => EncryptedBooks(s, threads, t);
    case _ => LocalBooks(s, Next(s, step), t);
  }

  ghost predicate NeverCancels(s: State, steps: seq<Step>, t: Thread)
    requires Possible(s, steps)
    decreases |steps|
  {
    |steps| > 0 ==> !Cancels(s, steps[0], t) && NeverCancels(Next(s, steps[0]), steps[1..], t)
  }

  lemma {:induction false} EveryRunBooks(s: State, steps: seq<Step>, t: Thread)
    requires Sound(s) && Booked(s) && Possible(s, steps)
    ensures Booked(Run(s, steps)) && (NoneLost(Run(s, steps), t) <==> NoneLost(s, t) && NeverCancels(s, steps, t))
    decreases |steps|
  {
    hide Sound, Booked, NoneLost, Next, Enabled, Cancels;
    if |steps| > 0 {
      StepKeeps(s, steps[0]);
      StepBooks(s, steps[0], t);
      EveryRunBooks(Next(s, steps[0]), steps[1..], t);
    }
  }

  /** In every run from the start: once no save of a thread is under way, the history hears about its cloud draft again
      if and only if none of its saves was ever cancelled in flight. */
  lemma HearsAgain(steps: seq<Step>, t: Thread)
    requires Possible(INITIAL, steps) && forall p :: p in UnderWay(Run(INITIAL, steps)) ==> p.0 != t
    ensures !Skips(Run(INITIAL, steps), t) <==> NeverCancels(INITIAL, steps, t)
  {
    InitialIsSound();
    EveryRunBooks(INITIAL, steps, t);
    var s := Run(INITIAL, steps);
    hide UnderWay;
    SkipsIs(s, t);
  }

  lemma SkipsIs(s: State, t: Thread)
    ensures Skips(s, t) <==> exists p: Saving :: p in s.saving && p.0 == t
  {
    if p: Saving :| p in s.saving && p.0 == t {
      assert (t, p.1) in s.saving;
    }
    if n: nat :| (t, n) in s.saving {
      assert (t, n).0 == t;
    }
  }

  /** While a save of a thread is under way, it does not. */
  lemma IgnoresWhileSaving(s: State, p: Saving)
    requires Booked(s) && p in UnderWay(s)
    ensures Skips(s, p.0)
  {
    assert (p.0, p.1) in s.saving;
  }

  // ---- Two saves in a row ----

  const PLAIN_FIRST := Save(0, 0, false, false, false)
  const PLAIN_SECOND := Save(0, 1, false, false, false)

  /** A thread with a cloud draft is saved twice, the second time before the first reply. When the second save is done
      nothing is under way, but the first one is still counted, and nothing is left that could end it. */
  lemma SecondSaveDeafens()
    ensures var steps := [CloudReplaced(0), SaveNow(0, Accepted(false)), SaveNow(0, Accepted(false)), Done(2)];
      Possible(INITIAL, steps) && UnderWay(Run(INITIAL, steps)) == {} && Skips(Run(INITIAL, steps), 0)
  {
    var s1 := INITIAL.(cloud := map[0 := 0]);
    var s2 := State(map[0 := 1], map[0 := 1], map[1 := PLAIN_FIRST], map[], 2, {}, 1, map[0 := 0], 0, {FIRST_SAVING});
    var s3 := State(map[0 := 2], map[0 := 2], map[2 := PLAIN_SECOND], map[], 3, {}, 2, map[0 := 1], 0,
                    {FIRST_SAVING, SECOND_SAVING});
    var s4 := State(map[], map[0 := 0], map[], map[], 3, {}, 2, map[0 := 1], 1, {FIRST_SAVING});
    assert Next(INITIAL, CloudReplaced(0)) == s1;
    assert Next(s1, SaveNow(0, Accepted(false))) == s2;
    assert Next(s2, SaveNow(0, Accepted(false))) == s3;
    assert Next(s3, Done(2)) == s4;
    hide Next;
    assert (0, 0) in s4.saving;
    RunOf(s3, Done(2), []);
    RunOf(s2, SaveNow(0, Accepted(false)), [Done(2)]);
    RunOf(s1, SaveNow(0, Accepted(false)), [SaveNow(0, Accepted(false)), Done(2)]);
    RunOf(INITIAL, CloudReplaced(0), [SaveNow(0, Accepted(false)), SaveNow(0, Accepted(false)), Done(2)]);
  }
}
