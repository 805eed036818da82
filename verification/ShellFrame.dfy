/** The web-app shell's frame: generations, the bounded event queue and the reload timer. */
module ShellFrame {
  import opened Wrappers

  const MAX_PENDING := 64

  type Event = int
  datatype Queued = Queued(generation: nat, event: Event)
  datatype Message = Posted(event: Event) | ReloadIframe
  /** `own`: only a page of the shell's own origin may receive it. */
  datatype Sent = Sent(generation: nat, message: Message, own: bool)

  /** The page's variables, the browser's live timers with the generation that set them, and everything
      posted to a frame so far. */
  datatype State = State(generation: nat, hasFrame: bool, attached: bool, loaded: bool,
                         reloadSupported: bool, sameOrigin: bool, hasOrigin: bool,
                         reloadTimeout: Option<nat>, timers: map<nat, nat>, nextTimer: nat,
                         pending: seq<Queued>, wire: seq<Sent>)

  const INITIAL := State(0, false, false, false, false, false, false, None, map[], 0, [], [])

  // ---- What each operation does ----

  /** A same-origin page without an origin is never posted to. */
  predicate Mute(s: State) { s.sameOrigin && !s.hasOrigin }

  function AfterSend(s: State, message: Message, generation: nat): State {
    if !s.hasFrame || !s.attached || generation != s.generation || Mute(s) then s
    else s.(wire := s.wire + [Sent(generation, message, s.sameOrigin)])
  }

  function LastOf(queue: seq<Queued>): (q: seq<Queued>)
    ensures |q| <= MAX_PENDING
  {
    if |queue| <= MAX_PENDING then queue else queue[|queue| - MAX_PENDING..]
  }

  function AfterPost(s: State, e: Event): State {
    if !s.hasFrame || !s.attached || !s.loaded
    then s.(pending := LastOf(s.pending + [Queued(s.generation, e)]))
    else AfterSend(s, Posted(e), s.generation)
  }

  function SendAll(s: State, queue: seq<Queued>): State {
    if queue == [] then s
    else
      var t := SendAll(s, queue[..|queue| - 1]);
      var q := queue[|queue| - 1];
      if q.generation == s.generation then AfterSend(t, Posted(q.event), q.generation) else t
  }

  function ClearTimer(s: State): State {
    match s.reloadTimeout
    case None => s
    case Some(id) => s.(reloadTimeout := None, timers := s.timers - {id})
  }

  function AfterCreate(s: State): State {
    ClearTimer(s).(generation := s.generation + 1, pending := [], loaded := false, reloadSupported := false,
                   hasFrame := true, attached := true)
  }

  function AfterLoad(s: State, generation: nat): State {
    if generation != s.generation then s
    else SendAll(s.(loaded := true, pending := []), s.pending)
  }

  function AfterWillReload(s: State): State { ClearTimer(s).(loaded := false) }

  function AfterReload(s: State): State {
    if !s.hasFrame then s
    else if s.reloadSupported && s.loaded && s.attached then
      var sent := AfterSend(s, ReloadIframe, s.generation);
      var cleared := ClearTimer(sent);
      cleared.(reloadTimeout := Some(s.nextTimer), timers := cleared.timers[s.nextTimer := s.generation],
               nextTimer := s.nextTimer + 1)
    else AfterCreate(s)
  }

  function AfterTimeout(s: State, id: nat): State {
    AfterCreate(s.(reloadTimeout := None, timers := s.timers - {id}))
  }

  // ---- Runs ----

  datatype Step =
    | Bootstrap(sameOrigin: bool, hasOrigin: bool)
    | Post(event: Event)
    | FrameLoads(generation: nat)
    | FrameReady(supported: bool)
    | FrameWillReload
    | Reload
    | Timeout(id: nat)
    | Detach

  /** When the browser can take a step. */
  predicate Enabled(s: State, step: Step) {
    match step
    case FrameLoads(g) => g < s.generation || (g == s.generation && s.hasFrame && s.attached)
    case FrameReady(_) => s.hasFrame && s.attached
    case FrameWillReload => s.hasFrame && s.attached
    case Timeout(id) => id in s.timers
    case _ => true
  }

  function Next(s: State, step: Step): State {
    match step
    case Bootstrap(same, origin) => AfterCreate(s.(sameOrigin := same, hasOrigin := same && origin))
    case Post(e) => AfterPost(s, e)
    case FrameLoads(g) => AfterLoad(s, g)
    case FrameReady(supported) => s.(reloadSupported := supported)
    case FrameWillReload => AfterWillReload(s)
    case Reload => AfterReload(s)
    case Timeout(id) => AfterTimeout(s, id)
    case Detach => s.(attached := false)
  }

  /** What was posted in one generation: all of it, the positions lost to overflow, and how many of the last
      ones were still queued when the frame was replaced. */
  datatype Past = Past(posted: seq<Event>, lost: set<int>, discarded: nat, same: bool, mute: bool)

  /** What the steps themselves say: whether the last Bootstrap named a page of the shell's own origin (`same`),
      without an origin (`shut`); whether the frame has loaded and not announced a reload since (`up`), and what
      it last said about reloading (`supports`). */
  datatype Told = Told(same: bool, shut: bool, up: bool, supports: bool)

  datatype Trace = Trace(state: State, past: map<nat, Past>, told: Told)

  const START := Trace(INITIAL, map[0 := Past([], {}, 0, false, false)], Told(false, false, false, false))

  function Heard(told: Told, step: Step, generation: nat): Told {
    match step
    case Bootstrap(same, origin) => Told(same, same && !origin, false, false)
    case FrameLoads(g) => told.(up := told.up || g == generation)
    case FrameReady(supported) => told.(supports := supported)
    case FrameWillReload => told.(up := false)
    case _ => told
  }

  /** The bookkeeping beside a step, which never influences it. */
  function Record(t: Trace, step: Step): Trace
    requires t.state.generation in t.past
  {
    var s, s' := t.state, Next(t.state, step);
    var p, told := t.past[s.generation], Heard(t.told, step, s.generation);
    if s'.generation != s.generation then
      var blank := Past([], {}, 0, told.same, told.shut);
      Trace(s', t.past[s.generation := p.(discarded := |s.pending|)][s'.generation := blank],
            told.(up := false, supports := false))
    else if step.Post? then
      var lost := if |s.pending| == MAX_PENDING && |s'.pending| == MAX_PENDING
                  then p.lost + {|p.posted| - MAX_PENDING} else p.lost;
      Trace(s', t.past[s.generation := p.(posted := p.posted + [step.event], lost := lost)], told)
    else Trace(s', t.past, told)
  }

  function Deliveries(wire: seq<Sent>, generation: nat): seq<Event> {
    if wire == [] then []
    else
      var last := wire[|wire| - 1];
      Deliveries(wire[..|wire| - 1], generation)
        + (if last.generation == generation && last.message.Posted? then [last.message.event] else [])
  }

  function Keep(posted: seq<Event>, lost: set<int>): seq<Event> {
    if posted == [] then []
    else Keep(posted[..|posted| - 1], lost) + (if |posted| - 1 in lost then [] else [posted[|posted| - 1]])
  }

  function EventsOf(queue: seq<Queued>): (es: seq<Event>)
    ensures |es| == |queue|
  {
    seq(|queue|, i requires 0 <= i < |queue| => queue[i].event)
  }

  /** The queue belongs to the current generation, is bounded, and is empty once the frame can be posted to;
      the only live timer is the remembered one, set in this generation. */
  ghost predicate Sound(s: State) {
    && (forall q :: q in s.pending ==> q.generation == s.generation)
    && |s.pending| <= MAX_PENDING
    && (s.hasFrame && s.attached && s.loaded ==> s.pending == [])
    && (s.loaded ==> s.hasFrame)
    && s.timers == (if s.reloadTimeout.Some? then map[s.reloadTimeout.value := s.generation] else map[])
  }

  /** A generation's frame got its own events in posting order, except those lost to overflow, which had 64
      newer ones behind them, and the last `held` ones. */
  ghost predicate Accounted(p: Past, delivered: seq<Event>, held: nat) {
    && held <= |p.posted|
    && (forall i :: i in p.lost ==> i + MAX_PENDING < |p.posted| && i + held < |p.posted|)
    && delivered == if p.mute then [] else Keep(p.posted[..|p.posted| - held], p.lost)
  }

  function Held(t: Trace, g: nat): nat
    requires g in t.past
  {
    if g == t.state.generation then |t.state.pending| else t.past[g].discarded
  }

  ghost predicate Current(t: Trace) {
    var s := t.state;
    && s.generation in t.past
    && (var p := t.past[s.generation];
        && p.mute == t.told.shut && Mute(s) == t.told.shut
        && |s.pending| <= |p.posted|
        && EventsOf(s.pending) == p.posted[|p.posted| - |s.pending|..])
  }

  ghost predicate Inv(t: Trace) {
    && Sound(t.state)
    && Current(t)
    && (forall g :: g in t.past ==> g <= t.state.generation)
    && (forall sent :: sent in t.state.wire ==> sent.generation <= t.state.generation)
    && (forall g :: g in t.past ==> Accounted(t.past[g], Deliveries(t.state.wire, g), Held(t, g)))
  }

  lemma NothingYet()
    ensures Deliveries([], 0) == [] && Keep([], {}) == [] && EventsOf([]) == []
  {}

  lemma StartIsSound()
    ensures Inv(START)
  {
    NothingYet();
    assert Accounted(Past([], {}, 0, false, false), [], 0);
  }

  lemma DeliverOne(wire: seq<Sent>, sent: Sent, g: nat)
    ensures Deliveries(wire + [sent], g)
         == Deliveries(wire, g) + (if sent.generation == g && sent.message.Posted? then [sent.message.event] else [])
  {
    assert (wire + [sent])[..|wire|] == wire;
  }

  lemma KeepOne(posted: seq<Event>, e: Event, lost: set<int>)
    ensures Keep(posted + [e], lost) == Keep(posted, lost) + (if |posted| in lost then [] else [e])
  {
    assert (posted + [e])[..|posted|] == posted;
  }

  /** A position beyond the sequence is not looked at. */
  lemma {:induction false} KeepIgnores(posted: seq<Event>, lost: set<int>, i: int)
    requires i >= |posted|
    ensures Keep(posted, lost + {i}) == Keep(posted, lost)
  {
    if posted != [] { KeepIgnores(posted[..|posted| - 1], lost, i); }
  }

  /** Nothing sent in another generation, or as a reload request, counts. */
  lemma {:induction false} NoDeliveries(wire: seq<Sent>, g: nat)
    requires forall sent :: sent in wire ==> sent.generation < g
    ensures Deliveries(wire, g) == []
  {
    if wire != [] { NoDeliveries(wire[..|wire| - 1], g); }
  }

  /** Flushing only appends to the wire. */
  lemma {:induction false} SendAllKeeps(s: State, queue: seq<Queued>)
    ensures var t := SendAll(s, queue); t == s.(wire := t.wire)
  {
    if queue != [] { SendAllKeeps(s, queue[..|queue| - 1]); }
  }

  // ---- Every step keeps the accounts ----

  lemma ReplacedFrame(s: State, step: Step)
    requires Sound(s) && Enabled(s, step) && Next(s, step).generation != s.generation
    ensures var s' := Next(s, step);
            && Sound(s') && s'.generation == s.generation + 1 && s'.wire == s.wire && s'.pending == []
            && Mute(s') == if step.Bootstrap? then step.sameOrigin && !step.hasOrigin else Mute(s)
  {
    hide AfterPost, AfterLoad, AfterWillReload;
    match step {
      case Post(e) => PostLeaves(s, e);
      case FrameLoads(g) => LoadLeaves(s, g);
      case FrameWillReload => WillReloadLeaves(s);
      case _ =>
    }
  }

  /** The accounts when a new frame takes the place of the shown one. */
  lemma ReplacedPast(t: Trace, step: Step)
    requires t.state.generation in t.past && Next(t.state, step).generation == t.state.generation + 1
    requires Next(t.state, step).pending == []
    ensures var s, t' := t.state, Record(t, step);
            && t'.state == Next(s, step) && t'.past.Keys == t.past.Keys + {s.generation + 1}
            && t'.past[s.generation + 1] == Past([], {}, 0, t'.told.same, t'.told.shut)
            && Held(t', s.generation + 1) == 0
            && (forall g :: g in t.past && g <= s.generation ==>
                  Held(t', g) == Held(t, g)
                  && t'.past[g]
                       == t.past[g].(discarded := if g == s.generation then Held(t, g) else t.past[g].discarded))
            && t'.told.shut == if step.Bootstrap? then step.sameOrigin && !step.hasOrigin else t.told.shut
  {
    hide Next;
  }

  lemma ReplaceKeeps(t: Trace, step: Step)
    requires Inv(t) && Enabled(t.state, step) && Next(t.state, step).generation != t.state.generation
    ensures Inv(Record(t, step))
  {
    hide Deliveries, Keep, Mute, Next, Enabled, Record, Held, Sound, EventsOf, Accounted;
    var s, s' := t.state, Next(t.state, step);
    ReplacedFrame(s, step);
    ReplacedPast(t, step);
    var t' := Record(t, step);
    forall g | g in t'.past
      ensures Accounted(t'.past[g], Deliveries(s'.wire, g), Held(t', g))
    {
      if g <= s.generation {
        assert Accounted(t.past[g], Deliveries(s.wire, g), Held(t, g));
        SameAccounts(t.past[g], t'.past[g], Deliveries(s.wire, g), Held(t, g));
      } else {
        NoDeliveries(s.wire, s'.generation);
        NewAccounts(t'.past[g]);
      }
    }
    NothingYet();
  }

  lemma SameAccounts(p: Past, p': Past, delivered: seq<Event>, held: nat)
    requires Accounted(p, delivered, held) && p' == p.(discarded := p'.discarded)
    ensures Accounted(p', delivered, held)
  {}

  lemma NewAccounts(p: Past)
    requires p.posted == [] && p.lost == {}
    ensures Accounted(p, [], 0)
  {
    KeepNothing();
  }

  lemma KeepNothing()
    ensures forall lost :: Keep([], lost) == []
  {}

  /** The accounts of the current generation are all that posting has to get right. */
  lemma PostKeeps(t: Trace, e: Event)
    requires Inv(t) && Sound(AfterPost(t.state, e)) && Current(Record(t, Post(e)))
    requires var g, t' := t.state.generation, Record(t, Post(e));
      Accounted(t'.past[g], Deliveries(t'.state.wire, g), |t'.state.pending|)
    ensures Inv(Record(t, Post(e)))
  {
    hide Deliveries, Keep, Current, Accounted;
    OthersKeep(t, e);
    assert t.state.generation in t.past by {
      assert Current(t);
      CurrentIsThere(t);
    }
  }

  lemma CurrentIsThere(t: Trace)
    requires Current(t)
    ensures t.state.generation in t.past
  {}

  lemma PostQueues(t: Trace, e: Event)
    requires Inv(t) && !(t.state.hasFrame && t.state.attached && t.state.loaded)
    requires |t.state.pending| < MAX_PENDING
    ensures Inv(Record(t, Post(e)))
  {
    hide Deliveries, Keep;
    var s, s' := t.state, AfterPost(t.state, e);
    var t' := Record(t, Post(e));
    var p, p' := t.past[s.generation], t'.past[s.generation];
    assert s' == s.(pending := s.pending + [Queued(s.generation, e)]);
    assert p' == p.(posted := p.posted + [e]);
    assert p'.posted[..|p'.posted| - |s'.pending|] == p.posted[..|p.posted| - |s.pending|];
    assert Accounted(p, Deliveries(s.wire, s.generation), |s.pending|);
    EventsQueued(s.pending, Queued(s.generation, e));
    hide AfterPost, EventsOf;
    PostKeeps(t, e);
  }

  lemma PostOverflows(t: Trace, e: Event)
    requires Inv(t) && !(t.state.hasFrame && t.state.attached && t.state.loaded)
    requires |t.state.pending| == MAX_PENDING
    ensures Inv(Record(t, Post(e)))
  {
    hide Deliveries, Keep;
    var s, s' := t.state, AfterPost(t.state, e);
    var t' := Record(t, Post(e));
    var p, p' := t.past[s.generation], t'.past[s.generation];
    assert s' == s.(pending := s.pending[1..] + [Queued(s.generation, e)]);
    assert p' == p.(posted := p.posted + [e], lost := p.lost + {|p.posted| - MAX_PENDING});
    OldestLost(p, Deliveries(s.wire, s.generation), e);
    EventsQueued(s.pending[1..], Queued(s.generation, e));
    assert EventsOf(s.pending[1..]) == EventsOf(s.pending)[1..];
    hide AfterPost, EventsOf, Accounted;
    PostKeeps(t, e);
  }

  /** The oldest event that was queued is the one counted as lost. */
  lemma OldestLost(p: Past, delivered: seq<Event>, e: Event)
    requires |p.posted| >= MAX_PENDING && Accounted(p, delivered, MAX_PENDING)
    ensures Accounted(p.(posted := p.posted + [e], lost := p.lost + {|p.posted| - MAX_PENDING}), delivered, MAX_PENDING)
  {
    hide Keep;
    var k := |p.posted| - MAX_PENDING;
    var prefix := p.posted[..k];
    assert (p.posted + [e])[..k + 1] == prefix + [p.posted[k]];
    KeepOne(prefix, p.posted[k], p.lost + {k});
    KeepIgnores(prefix, p.lost, k);
  }

  lemma PostSends(t: Trace, e: Event)
    requires Inv(t) && t.state.hasFrame && t.state.attached && t.state.loaded
    ensures Inv(Record(t, Post(e)))
  {
    hide Deliveries, Keep;
    var s, s' := t.state, AfterPost(t.state, e);
    var t' := Record(t, Post(e));
    var p, p' := t.past[s.generation], t'.past[s.generation];
    assert Accounted(p, Deliveries(s.wire, s.generation), 0);
    assert p.posted[..|p.posted|] == p.posted && p'.posted[..|p'.posted|] == p'.posted;
    KeepOne(p.posted, e, p.lost);
    DeliverOne(s.wire, Sent(s.generation, Posted(e), s.sameOrigin), s.generation);
    assert Accounted(p', Deliveries(s'.wire, s.generation), 0);
    OthersKeep(t, e);
  }

  lemma EventsQueued(queue: seq<Queued>, q: Queued)
    ensures EventsOf(queue + [q]) == EventsOf(queue) + [q.event]
  {}

  /** Posting changes no other generation's accounts. */
  lemma OthersKeep(t: Trace, e: Event)
    requires Inv(t)
    ensures var t' := Record(t, Post(e));
            forall g :: g in t'.past && g != t.state.generation ==>
              Accounted(t'.past[g], Deliveries(t'.state.wire, g), Held(t', g))
  {
    hide Deliveries, Keep;
    var s, s', t' := t.state, AfterPost(t.state, e), Record(t, Post(e));
    forall g | g in t'.past && g != s.generation
      ensures Accounted(t'.past[g], Deliveries(s'.wire, g), Held(t', g))
    {
      assert Accounted(t.past[g], Deliveries(s.wire, g), Held(t, g));
      if s'.wire != s.wire { DeliverOne(s.wire, Sent(s.generation, Posted(e), s.sameOrigin), g); }
    }
  }

  lemma {:induction false} FlushDelivers(s: State, queue: seq<Queued>, g: nat)
    requires s.hasFrame && s.attached
    requires forall q :: q in queue ==> q.generation == s.generation
    ensures var t := SendAll(s, queue);
            && Deliveries(t.wire, g) ==
                 Deliveries(s.wire, g) + (if g == s.generation && !Mute(s) then EventsOf(queue) else [])
            && (forall sent :: sent in t.wire ==> sent in s.wire || sent.generation == s.generation)
  {
    hide Deliveries;
    if queue != [] {
      var rest, q := queue[..|queue| - 1], queue[|queue| - 1];
      FlushDelivers(s, rest, g);
      SendAllKeeps(s, rest);
      DeliverOne(SendAll(s, rest).wire, Sent(s.generation, Posted(q.event), s.sameOrigin), g);
      assert EventsOf(queue) == EventsOf(rest) + [q.event];
    }
  }

  lemma {:induction false} KeepAll(posted: seq<Event>, k: nat, lost: set<int>)
    requires k <= |posted| && forall i :: k <= i < |posted| ==> i !in lost
    ensures Keep(posted, lost) == Keep(posted[..k], lost) + posted[k..]
  {
    if k < |posted| {
      var rest := posted[..|posted| - 1];
      KeepAll(rest, k, lost);
      assert rest[..k] == posted[..k] && posted[k..] == rest[k..] + [posted[|posted| - 1]];
    } else {
      assert posted[..k] == posted;
    }
  }

  lemma LoadKeeps(t: Trace)
    requires Inv(t) && Enabled(t.state, FrameLoads(t.state.generation))
    ensures Inv(Record(t, FrameLoads(t.state.generation)))
  {
    hide Deliveries, Keep, SendAll;
    var s := t.state;
    var g0 := s.generation;
    var ready := s.(loaded := true, pending := []);
    var s' := SendAll(ready, s.pending);
    SendAllKeeps(ready, s.pending);
    FlushDelivers(ready, s.pending, g0);
    var t' := Record(t, FrameLoads(g0));
    assert t'.state == s' && t'.past == t.past;
    var p := t.past[g0];
    assert Accounted(p, Deliveries(s.wire, g0), |s.pending|);
    KeepAll(p.posted, |p.posted| - |s.pending|, p.lost);
    assert p.posted[..|p.posted|] == p.posted;
    assert Accounted(p, Deliveries(s'.wire, g0), 0);
    forall g | g in t'.past && g != g0
      ensures Accounted(t'.past[g], Deliveries(s'.wire, g), Held(t', g))
    {
      assert Accounted(t.past[g], Deliveries(s.wire, g), Held(t, g));
      FlushDelivers(ready, s.pending, g);
    }
  }

  lemma QuietEffect(s: State, step: Step)
    requires Sound(s) && Enabled(s, step) && Next(s, step).generation == s.generation
    requires !step.Post? && !(step == FrameLoads(s.generation))
    ensures var s' := Next(s, step);
            && Sound(s') && s'.pending == s.pending && Mute(s') == Mute(s) && s'.hasFrame == s.hasFrame
            && (s'.wire == s.wire || s'.wire == s.wire + [Sent(s.generation, ReloadIframe, s.sameOrigin)])
  {
    if step.Reload? {
      AskedReload(s);
    } else {
      hide AfterReload, SendAll, AfterPost, LastOf;
    }
  }

  lemma AskedReload(s: State)
    requires Sound(s) && AfterReload(s).generation == s.generation
    ensures var s' := AfterReload(s);
            && Sound(s') && s'.pending == s.pending && Mute(s') == Mute(s) && s'.hasFrame == s.hasFrame
            && (s'.wire == s.wire || s'.wire == s.wire + [Sent(s.generation, ReloadIframe, s.sameOrigin)])
  {}

  lemma BootstrapReplaces(s: State, step: Step)
    ensures step.Bootstrap? ==> Next(s, step).generation == s.generation + 1
  {}

  /** The remaining steps deliver nothing and lose nothing. */
  lemma QuietKeeps(t: Trace, step: Step)
    requires Inv(t) && Enabled(t.state, step) && Next(t.state, step).generation == t.state.generation
    requires !step.Post? && !(step == FrameLoads(t.state.generation))
    ensures Inv(Record(t, step))
  {
    hide Deliveries, Keep, Next, Sound, Mute, Enabled;
    var s, s' := t.state, Next(t.state, step);
    var t' := Record(t, step);
    QuietEffect(s, step);
    BootstrapReplaces(s, step);
    forall g | g in t'.past
      ensures Accounted(t'.past[g], Deliveries(s'.wire, g), Held(t', g))
    {
      assert Accounted(t.past[g], Deliveries(s.wire, g), Held(t, g));
      DeliverOne(s.wire, Sent(s.generation, ReloadIframe, s.sameOrigin), g);
    }
  }

  lemma StepKeeps(t: Trace, step: Step)
    requires Inv(t) && Enabled(t.state, step)
    ensures Inv(Record(t, step))
  {
    hide Record, Next, Current;
    if Next(t.state, step).generation != t.state.generation {
      ReplaceKeeps(t, step);
    } else if step.Post? {
      var s := t.state;
      if s.hasFrame && s.attached && s.loaded { PostSends(t, step.event); }
      else if |s.pending| < MAX_PENDING { PostQueues(t, step.event); }
      else { PostOverflows(t, step.event); }
    } else if step == FrameLoads(t.state.generation) {
      LoadKeeps(t);
    } else {
      QuietKeeps(t, step);
    }
  }

  // ---- Whole runs ----

  ghost predicate Possible(t: Trace, steps: seq<Step>)
    decreases |steps|
  {
    steps != [] ==>
      t.state.generation in t.past && Enabled(t.state, steps[0]) && Possible(Record(t, steps[0]), steps[1..])
  }

  ghost function Run(t: Trace, steps: seq<Step>): Trace
    requires Possible(t, steps)
    decreases |steps|
  {
    if steps == [] then t else Run(Record(t, steps[0]), steps[1..])
  }

  /** In every reachable state the accounts hold for every generation there ever was. */
  lemma {:induction false} EveryRunAccounts(t: Trace, steps: seq<Step>)
    requires Inv(t) && Possible(t, steps)
    ensures Inv(Run(t, steps))
    decreases |steps|
  {
    hide Inv, Record, Enabled;
    if steps != [] {
      StepKeeps(t, steps[0]);
      EveryRunAccounts(Record(t, steps[0]), steps[1..]);
    }
  }

  /** A generation in which no more than 64 events were posted loses none of them: its frame got exactly those
      not discarded with it, unless the page could not post to it at all. */
  lemma SmallGenerationsLoseNothing(t: Trace, g: nat)
    requires Inv(t) && g in t.past && |t.past[g].posted| <= MAX_PENDING
    ensures var p := t.past[g];
            Deliveries(t.state.wire, g) == p.posted[..|p.posted| - Held(t, g)]
            <==> !p.mute || |p.posted| == Held(t, g)
  {
    hide Deliveries, Keep;
    var p := t.past[g];
    assert Accounted(p, Deliveries(t.state.wire, g), Held(t, g));
    var kept := p.posted[..|p.posted| - Held(t, g)];
    KeepAll(kept, 0, p.lost);
    KeepNothing();
    assert kept[..0] == [] && kept[0..] == kept;
  }

  /** A same-origin page whose address has no origin: the event is neither delivered, nor queued, nor counted
      as overflow. */
  lemma MutePageLosesEvents()
    ensures var steps := [Bootstrap(true, false), FrameLoads(1), Post(7)];
            Possible(START, steps) &&
            var t := Run(START, steps);
            t.past[1].posted == [7] && t.past[1].lost == {} && t.state.pending == [] &&
            Deliveries(t.state.wire, 1) == []
  {
    var a, b, c := Bootstrap(true, false), FrameLoads(1), Post(7);
    var t1 := Record(START, a);
    var t2 := Record(t1, b);
    var t3 := Record(t2, c);
    assert [a, b, c][1..] == [b, c] && [b, c][1..] == [c] && [c][1..] == [];
    assert Possible(t3, []) && Run(t3, []) == t3;
    assert Possible(t2, [c]) && Run(t2, [c]) == t3;
    assert Possible(t1, [b, c]) && Run(t1, [b, c]) == t3;
  }

  /** A live reload timer is the one remembered, and belongs to the frame that is shown. */
  lemma TimerBelongsToFrame(t: Trace, id: nat)
    requires Inv(t) && id in t.state.timers
    ensures t.state.reloadTimeout == Some(id) && t.state.timers[id] == t.state.generation
  {}

  // ---- What the page remembers is what it was told ----

  /** The flags are those of the steps, a frame is there from the first Bootstrap on, and each message names the
      receivers that the last Bootstrap before its frame allows. */
  ghost predicate Heeds(t: Trace) {
    var s := t.state;
    && s.loaded == t.told.up && s.reloadSupported == t.told.supports && s.sameOrigin == t.told.same
    && s.hasFrame == (s.generation > 0)
    && s.generation in t.past && t.past[s.generation].same == t.told.same
    && (forall sent :: sent in s.wire ==> sent.generation in t.past && sent.own == t.past[sent.generation].same)
  }

  lemma {:induction false} FlushReceivers(s: State, queue: seq<Queued>)
    ensures forall sent :: sent in SendAll(s, queue).wire ==>
              sent in s.wire || (sent.generation == s.generation && sent.own == s.sameOrigin)
  {
    if queue != [] {
      FlushReceivers(s, queue[..|queue| - 1]);
      SendAllKeeps(s, queue[..|queue| - 1]);
    }
  }

  lemma Receivers(s: State, step: Step)
    requires Sound(s)
    ensures forall sent :: sent in Next(s, step).wire ==>
              sent in s.wire || (sent.generation == s.generation && sent.own == s.sameOrigin)
  {
    if step.FrameLoads? { FlushReceivers(s.(loaded := true, pending := []), s.pending); }
  }

  /** The flags after a step. */
  lemma FlagsAfter(s: State, told: Told, step: Step)
    requires s.loaded == told.up && s.reloadSupported == told.supports && s.sameOrigin == told.same
    requires s.hasFrame == (s.generation > 0) && Enabled(s, step)
    ensures var s', told' := Next(s, step), Heard(told, step, s.generation);
            && (s'.generation == s.generation ==> s'.loaded == told'.up && s'.reloadSupported == told'.supports)
            && (s'.generation != s.generation ==> !s'.loaded && !s'.reloadSupported)
            && s'.sameOrigin == told'.same && s'.hasFrame == (s'.generation > 0)
  {
    hide AfterReload, AfterPost, AfterLoad, AfterTimeout, AfterCreate, AfterWillReload, ClearTimer, AfterSend;
    hide SendAll, LastOf;
    match step {
      case Post(e) => PostLeaves(s, e);
      case FrameLoads(g) => LoadLeaves(s, g);
      case Reload => ReloadLeaves(s);
      case Bootstrap(same, origin) => CreateLeaves(s.(sameOrigin := same, hasOrigin := same && origin));
      case Timeout(id) => TimeoutLeaves(s, id);
      case FrameWillReload => WillReloadLeaves(s);
      case FrameReady(_) =>
      case Detach =>
    }
  }

  // What the operations leave of the state's other parts.

  lemma PostLeaves(s: State, e: Event)
    ensures var s' := AfterPost(s, e); s' == s.(pending := s'.pending, wire := s'.wire)
  {
    hide LastOf;
  }

  lemma LoadLeaves(s: State, g: nat)
    ensures var s' := AfterLoad(s, g);
            s' == if g != s.generation then s else s.(loaded := true, pending := [], wire := s'.wire)
  {
    hide SendAll;
    SendAllKeeps(s.(loaded := true, pending := []), s.pending);
  }

  lemma CreateLeaves(s: State)
    ensures var s' := AfterCreate(s);
            s' == s.(generation := s.generation + 1, pending := [], loaded := false, reloadSupported := false,
                     hasFrame := true, attached := true, reloadTimeout := s'.reloadTimeout, timers := s'.timers)
  {}

  lemma TimeoutLeaves(s: State, id: nat)
    ensures var s' := AfterTimeout(s, id);
            s' == s.(generation := s.generation + 1, pending := [], loaded := false, reloadSupported := false,
                     hasFrame := true, attached := true, reloadTimeout := s'.reloadTimeout, timers := s'.timers)
  {
    hide AfterCreate;
    CreateLeaves(s.(reloadTimeout := None, timers := s.timers - {id}));
  }

  lemma WillReloadLeaves(s: State)
    ensures var s' := AfterWillReload(s);
            s' == s.(loaded := false, reloadTimeout := s'.reloadTimeout, timers := s'.timers)
  {}

  lemma ReloadLeaves(s: State)
    ensures var s' := AfterReload(s);
            if !s.hasFrame then s' == s
            else if s.reloadSupported && s.loaded && s.attached then
              s' == s.(wire := s'.wire, reloadTimeout := s'.reloadTimeout, timers := s'.timers,
                       nextTimer := s'.nextTimer)
            else s' == AfterCreate(s)
                 && s' == s.(generation := s.generation + 1, pending := [], loaded := false, reloadSupported := false,
                             hasFrame := true, attached := true, reloadTimeout := s'.reloadTimeout, timers := s'.timers)
  {
    hide AfterCreate;
    CreateLeaves(s);
  }

  lemma FlagsRecorded(t: Trace, step: Step)
    requires Heeds(t) && Enabled(t.state, step)
    ensures var t' := Record(t, step);
            && t'.state.loaded == t'.told.up && t'.state.reloadSupported == t'.told.supports
            && t'.state.sameOrigin == t'.told.same && t'.state.hasFrame == (t'.state.generation > 0)
  {
    FlagsAfter(t.state, t.told, step);
    hide Next, Heard, Enabled;
  }

  /** A new frame takes the place of the shown one in exactly these steps. */
  lemma ReplacedExactly(t: Trace, step: Step)
    requires Sound(t.state) && Heeds(t) && Enabled(t.state, step)
    ensures var s, s' := t.state, Next(t.state, step);
            if step.Bootstrap? || step.Timeout?
               || (step.Reload? && s.generation > 0 && !(t.told.up && t.told.supports && s.attached))
            then s'.generation == s.generation + 1 && s'.attached && s'.pending == [] && s'.timers == map[]
            else s'.generation == s.generation
  {
    hide SendAll, AfterPost, AfterLoad;
    if step.FrameLoads? { LoadLeaves(t.state, step.generation); }
    if step.Post? { PostLeaves(t.state, step.event); }
  }

  /** The bookkeeping never changes what an earlier frame's page was. */
  lemma PagesStay(t: Trace, step: Step)
    requires t.state.generation in t.past && t.past[t.state.generation].same == t.told.same
    requires var g, g' := t.state.generation, Next(t.state, step).generation;
             g' == g || (g' == g + 1 && g' !in t.past)
    requires step.Bootstrap? ==> Next(t.state, step).generation == t.state.generation + 1
    ensures var t' := Record(t, step);
            && t'.state.generation in t'.past && t'.past[t'.state.generation].same == t'.told.same
            && (forall g :: g in t.past ==> g in t'.past && t'.past[g].same == t.past[g].same)
  {
    hide Next;
  }

  lemma StepHeeds(t: Trace, step: Step)
    requires Inv(t) && Heeds(t) && Enabled(t.state, step)
    ensures Heeds(Record(t, step))
  {
    hide Next, Enabled, Heard, Sound, Record, Current, Accounted, Held, Deliveries;
    FlagsRecorded(t, step);
    Receivers(t.state, step);
    RecordsNext(t, step);
    ReplacedExactly(t, step);
    PagesStay(t, step);
  }

  lemma RecordsNext(t: Trace, step: Step)
    requires t.state.generation in t.past
    ensures Record(t, step).state == Next(t.state, step)
  {}

  lemma {:induction false} EveryRunHeeds(t: Trace, steps: seq<Step>)
    requires Inv(t) && Heeds(t) && Possible(t, steps)
    ensures Heeds(Run(t, steps))
    decreases |steps|
  {
    hide Inv, Record, Enabled, Heeds;
    if steps != [] {
      StepKeeps(t, steps[0]);
      StepHeeds(t, steps[0]);
      EveryRunHeeds(Record(t, steps[0]), steps[1..]);
    }
  }

  ghost predicate NoneShut(t: Trace) { !t.told.shut && forall g :: g in t.past ==> !t.past[g].mute }

  lemma {:induction false} NeverShut(t: Trace, steps: seq<Step>)
    requires Possible(t, steps) && NoneShut(t) && Bootstrap(true, false) !in steps
    ensures NoneShut(Run(t, steps))
    decreases |steps|
  {
    hide Next, Enabled;
    if steps != [] { NeverShut(Record(t, steps[0]), steps[1..]); }
  }

  /** A generation's frame got all its events but those lost to overflow and those it was replaced with; a frame
      that has loaded has nothing left to wait for. */
  ghost predicate IsServed(t: Trace, g: nat)
    requires g in t.past
  {
    var p := t.past[g];
    && Held(t, g) <= |p.posted|
    && Deliveries(t.state.wire, g) == Keep(p.posted[..|p.posted| - Held(t, g)], p.lost)
    && (g == t.state.generation && t.told.up && t.state.attached ==> Held(t, g) == 0)
  }

  lemma Served(t: Trace, g: nat)
    requires Inv(t) && Heeds(t) && NoneShut(t) && g in t.past
    ensures IsServed(t, g)
  {
    hide Keep, Deliveries;
    assert Accounted(t.past[g], Deliveries(t.state.wire, g), Held(t, g));
  }

  lemma ServedRun(t: Trace, steps: seq<Step>)
    requires Inv(t) && Heeds(t) && NoneShut(t) && Possible(t, steps) && Bootstrap(true, false) !in steps
    ensures forall g :: g in Run(t, steps).past ==> IsServed(Run(t, steps), g)
  {
    EveryRunAccounts(t, steps);
    EveryRunHeeds(t, steps);
    NeverShut(t, steps);
    hide IsServed, Run, Possible, Inv, Heeds, NoneShut;
    var t' := Run(t, steps);
    forall g | g in t'.past ensures IsServed(t', g) { Served(t', g); }
  }

  /** Unless some Bootstrap names a page of the shell's own origin without an origin, every frame there ever was
      is served. */
  lemma EveryFrameIsServed(steps: seq<Step>)
    requires Possible(START, steps) && Bootstrap(true, false) !in steps
    ensures forall g :: g in Run(START, steps).past ==> IsServed(Run(START, steps), g)
  {
    StartIsSound();
    hide Possible, Run, IsServed, Inv;
    ServedRun(START, steps);
  }

  /** A frame that is up and understands reloading is asked to reload, and timed; any other one is replaced. */
  lemma ReloadAsksOrReplaces(t: Trace)
    requires Inv(t) && Heeds(t) && t.state.generation > 0
    ensures var s, s' := t.state, Next(t.state, Reload);
            if t.told.up && t.told.supports && s.attached then
              && s'.generation == s.generation && s'.loaded && s'.attached
              && s'.wire == s.wire + (if t.told.shut then [] else [Sent(s.generation, ReloadIframe, t.told.same)])
              && |s'.timers| == 1 && forall id :: id in s'.timers ==> s'.timers[id] == s.generation
            else s'.generation == s.generation + 1 && s'.wire == s.wire && s'.timers == map[]
  {}

  /** The answer to such a request is waited for until it comes or the time is over: in every run without another
      request and without a new page the timer stays, the announced reload stops it, and its end replaces the frame. */
  lemma {:induction false} ReloadIsAwaited(t: Trace, steps: seq<Step>, id: nat)
    requires Inv(t) && Heeds(t) && Possible(t, steps) && id in t.state.timers
    requires forall step :: step in steps ==> step.Post? || step.FrameLoads? || step.FrameReady? || step.Detach?
    ensures var t' := Run(t, steps);
            && id in t'.state.timers && Enabled(t'.state, Timeout(id))
            && t'.state.generation == t.state.generation
            && Next(t'.state, Timeout(id)).generation == t.state.generation + 1
            && Next(t'.state, FrameWillReload).timers == map[]
    decreases |steps|
  {
    hide Record, Current, Accounted, Heeds;
    if steps != [] {
      StepKeeps(t, steps[0]);
      StepHeeds(t, steps[0]);
      TimerKept(t, steps[0]);
      ReloadIsAwaited(Record(t, steps[0]), steps[1..], id);
    }
  }

  lemma TimerKept(t: Trace, step: Step)
    requires t.state.generation in t.past
    requires step.Post? || step.FrameLoads? || step.FrameReady? || step.Detach?
    ensures var s' := Record(t, step).state;
            s'.timers == t.state.timers && s'.generation == t.state.generation
  {
    hide SendAll, AfterPost, AfterLoad, AfterReload, AfterCreate;
    if step.FrameLoads? { LoadLeaves(t.state, step.generation); }
    if step.Post? { PostLeaves(t.state, step.event); }
  }

  // ---- The page ----

  class Shell {
    var frameGeneration: nat
    var iframe: Option<nat> // the generation it was created in
    var contentWindow: bool
    var frameLoaded: bool
    var reloadSupported: bool
    var sameOrigin: bool
    var frameOrigin: bool // whether it is not the empty string
    var reloadTimeout: Option<nat>
    var pendingEvents: seq<Queued>
    // The browser's side.
    var timers: map<nat, nat>
    var nextTimer: nat
    var wire: seq<Sent>

    ghost function Abs(): State
      reads this
    {
      State(frameGeneration, iframe.Some?, contentWindow, frameLoaded, reloadSupported, sameOrigin, frameOrigin,
            reloadTimeout, timers, nextTimer, pendingEvents, wire)
    }

    /** The frame that is shown was created in the current generation. */
    ghost predicate Valid()
      reads this
    {
      iframe.Some? ==> iframe.value == frameGeneration
    }

    constructor ()
      ensures Valid() && Abs() == INITIAL
    {
      frameGeneration, iframe, contentWindow, frameLoaded := 0, None, false, false;
      reloadSupported, sameOrigin, frameOrigin := false, false, false;
      reloadTimeout, pendingEvents, timers, nextTimer, wire := None, [], map[], 0, [];
    }

    method SendToFrame(message: Message, generation: nat)
      requires Valid()
      modifies this`wire
      ensures Abs() == AfterSend(old(Abs()), message, generation)
    {
      if iframe.None? || !contentWindow || generation != frameGeneration { return; }
      if sameOrigin && !frameOrigin { return; }
      wire := wire + [Sent(generation, message, sameOrigin)];
    }

    method PostToFrame(event: Event)
      requires Valid()
      modifies this`wire, this`pendingEvents
      ensures Abs() == AfterPost(old(Abs()), event)
    {
      var generation := frameGeneration;
      if iframe.None? || !contentWindow || !frameLoaded {
        pendingEvents := pendingEvents + [Queued(generation, event)];
        ghost var all := pendingEvents;
        while |pendingEvents| > MAX_PENDING
          invariant |pendingEvents| <= |all| && pendingEvents == all[|all| - |pendingEvents|..]
          invariant |all| >= MAX_PENDING ==> |pendingEvents| >= MAX_PENDING
          invariant |all| < MAX_PENDING ==> pendingEvents == all
          invariant Abs() == old(Abs()).(pending := pendingEvents)
        {
          pendingEvents := pendingEvents[1..];
        }
        return;
      }
      SendToFrame(Posted(event), generation);
    }

    method FlushPendingEvents()
      requires Valid()
      modifies this`wire, this`pendingEvents
      ensures Abs() == SendAll(old(Abs()).(pending := []), old(pendingEvents))
    {
      var pending := pendingEvents;
      pendingEvents := [];
      ghost var start := Abs();
      var i := 0;
      assert pending[..0] == [];
      while i < |pending|
        invariant 0 <= i <= |pending|
        invariant Abs() == SendAll(start, pending[..i])
      {
        assert pending[..i + 1][..i] == pending[..i];
        SendAllKeeps(start, pending[..i]);
        if pending[i].generation == frameGeneration {
          SendToFrame(Posted(pending[i].event), pending[i].generation);
        }
        i := i + 1;
      }
      assert pending[..i] == pending;
    }

    method ClearReloadTimeout()
      requires Valid()
      modifies this`reloadTimeout, this`timers
      ensures Abs() == ClearTimer(old(Abs()))
    {
      if reloadTimeout.Some? {
        timers := timers - {reloadTimeout.value};
        reloadTimeout := None;
      }
    }

    method CreateIframe()
      requires Valid()
      modifies this
      ensures Valid() && Abs() == AfterCreate(old(Abs()))
    {
      ClearReloadTimeout();
      frameGeneration := frameGeneration + 1;
      pendingEvents := [];
      frameLoaded, reloadSupported := false, false;
      iframe, contentWindow := Some(frameGeneration), true;
    }

    /** The load listener of the frame that was created in `generation`. */
    method OnLoad(generation: nat)
      requires Valid() && (generation == frameGeneration ==> iframe.Some?)
      modifies this`frameLoaded, this`wire, this`pendingEvents
      ensures Valid() && Abs() == AfterLoad(old(Abs()), generation)
    {
      if iframe != Some(generation) || generation != frameGeneration { return; }
      frameLoaded := true;
      FlushPendingEvents();
    }

    method OnWillReload()
      requires Valid()
      modifies this`reloadTimeout, this`timers, this`frameLoaded
      ensures Valid() && Abs() == AfterWillReload(old(Abs()))
    {
      ClearReloadTimeout();
      frameLoaded := false;
    }

    method ReloadFrame()
      requires Valid()
      modifies this
      ensures Valid() && Abs() == AfterReload(old(Abs()))
    {
      if iframe.None? { return; }
      if reloadSupported && frameLoaded && contentWindow {
        SendToFrame(ReloadIframe, frameGeneration);
        ClearReloadTimeout();
        timers := timers[nextTimer := frameGeneration];
        reloadTimeout := Some(nextTimer);
        nextTimer := nextTimer + 1;
        return;
      }
      CreateIframe();
    }

    method OnTimeout(id: nat)
      requires Valid() && id in timers
      modifies this
      ensures Valid() && Abs() == AfterTimeout(old(Abs()), id)
    {
      timers := timers - {id};
      reloadTimeout := None;
      CreateIframe();
    }

    method Bootstrap(same: bool, origin: bool)
      requires Valid()
      modifies this
      ensures Valid() && Abs() == Next(old(Abs()), Step.Bootstrap(same, origin))
    {
      sameOrigin, frameOrigin := same, same && origin;
      CreateIframe();
    }
  }
}
