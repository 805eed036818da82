/** File references: handlers of one origin wait for its one request, which answers all of them. */
module FileReferences {
  import opened Wrappers

  type Origin = nat
  type Handler = nat
  type RequestId = nat
  type References = nat

  datatype Slot = Slot(origin: Origin, handlers: seq<Handler>)
  /** `additional` is to be called with the first answer, besides the handler, if the request is a new one. */
  datatype Asking = Asking(origin: Origin, handler: Handler, additional: Option<Handler>)
  /** A handler's run: the references of a reply, or none when the request failed. */
  datatype Call = Call(handler: Handler, answer: Option<References>)

  /** What a handler asks for when it runs, after so many others: it may depend on all that has happened till then. */
  type Behaviour = (nat, Handler, Option<References>) -> seq<Asking>

  datatype State = State(slots: seq<Slot>, inFlight: map<RequestId, Origin>, next: RequestId,
                         registered: seq<Handler>, called: seq<Call>)

  const INITIAL := State([], map[], 1, [], [])

  // ---- The operations ----

  predicate Has(slots: seq<Slot>, origin: Origin) { exists slot :: slot in slots && slot.origin == origin }

  function Find(slots: seq<Slot>, origin: Origin): (i: nat)
    ensures i <= |slots| && (i < |slots| <==> Has(slots, origin)) && (i < |slots| ==> slots[i].origin == origin)
  {
    if slots == [] then 0
    else if slots[0].origin == origin then assert slots[0] in slots; 0
    else 1 + Find(slots[1..], origin)
  }

  function AfterAsk(s: State, origin: Origin, handler: Handler): State {
    var i, asked := Find(s.slots, origin), s.(registered := s.registered + [handler]);
    if i < |s.slots| then asked.(slots := s.slots[i := s.slots[i].(handlers := s.slots[i].handlers + [handler])])
    else asked.(slots := s.slots + [Slot(origin, [handler])],
                inFlight := s.inFlight[s.next := origin], next := s.next + 1)
  }

  /** The additional handler joins a slot that holds one handler only. */
  predicate Lonely(s: State, origin: Origin) {
    var i := Find(s.slots, origin);
    i < |s.slots| && |s.slots[i].handlers| == 1
  }

  function AfterRequest(s: State, a: Asking): State {
    var asked := AfterAsk(s, a.origin, a.handler);
    if a.additional.Some? && Lonely(asked, a.origin) then AfterAsk(asked, a.origin, a.additional.value) else asked
  }

  function AfterRequests(s: State, asked: seq<Asking>): State {
    if asked == [] then s else AfterRequest(AfterRequests(s, asked[..|asked| - 1]), asked[|asked| - 1])
  }

  function Invoked(s: State, h: Handler, answer: Option<References>, makes: Behaviour): State {
    AfterRequests(s.(called := s.called + [Call(h, answer)]), makes(|s.called|, h, answer))
  }

  /** Runs handlers in order; each may ask for more, also for the origin just answered. */
  function Called(s: State, handlers: seq<Handler>, answer: Option<References>, makes: Behaviour): State {
    if handlers == [] then s
    else Invoked(Called(s, handlers[..|handlers| - 1], answer, makes), handlers[|handlers| - 1], answer, makes)
  }

  function Taken(s: State, id: RequestId): State
    requires id in s.inFlight && Has(s.slots, s.inFlight[id])
  {
    var i := Find(s.slots, s.inFlight[id]);
    s.(inFlight := s.inFlight - {id}, slots := s.slots[..i] + s.slots[i + 1..])
  }

  function AfterReply(s: State, id: RequestId, answer: Option<References>, makes: Behaviour): State
    requires id in s.inFlight && Has(s.slots, s.inFlight[id])
  {
    Called(Taken(s, id), s.slots[Find(s.slots, s.inFlight[id])].handlers, answer, makes)
  }

  // ---- The accounts ----

  function Waiting(slots: seq<Slot>): multiset<Handler> {
    if slots == [] then multiset{} else multiset(slots[0].handlers) + Waiting(slots[1..])
  }

  function Names(called: seq<Call>): seq<Handler> {
    seq(|called|, i requires 0 <= i < |called| => called[i].handler)
  }

  /** Every handler waits in a slot, is held to run next, or has run, each time once. */
  ghost predicate Balanced(s: State, held: multiset<Handler>) {
    multiset(s.registered) == Waiting(s.slots) + held + multiset(Names(s.called))
  }

  ghost predicate DistinctSlots(slots: seq<Slot>) {
    forall i, j :: 0 <= i < j < |slots| ==> slots[i].origin != slots[j].origin
  }

  /** The keys are exactly the origins in flight, each with one request. */
  ghost predicate Sound(s: State) {
    && s.next > 0 && (forall id :: id in s.inFlight ==> 0 < id < s.next)
    && DistinctSlots(s.slots)
    && (forall id, other :: id in s.inFlight && other in s.inFlight ==>
          (s.inFlight[id] == s.inFlight[other] ==> id == other))
    && SlotForEach(s.slots, s.inFlight) && RequestForEach(s.slots, s.inFlight)
  }

  ghost predicate SlotForEach(slots: seq<Slot>, inFlight: map<RequestId, Origin>) {
    forall id :: id in inFlight ==> Has(slots, inFlight[id])
  }

  ghost predicate RequestForEach(slots: seq<Slot>, inFlight: map<RequestId, Origin>) {
    forall slot :: slot in slots ==> slot.origin in inFlight.Values && slot.handlers != []
  }

  lemma {:induction false} WaitingConcat(a: seq<Slot>, b: seq<Slot>)
    ensures Waiting(a + b) == Waiting(a) + Waiting(b)
  {
    if a == [] {
      assert a + b == b;
    } else {
      assert (a + b)[1..] == a[1..] + b;
      WaitingConcat(a[1..], b);
    }
  }

  lemma WaitingOne(slot: Slot)
    ensures Waiting([slot]) == multiset(slot.handlers)
  {
    assert [slot][1..] == [];
  }

  lemma WaitingAt(slots: seq<Slot>, i: nat)
    requires i < |slots|
    ensures Waiting(slots) == Waiting(slots[..i]) + multiset(slots[i].handlers) + Waiting(slots[i + 1..])
  {
    hide Waiting;
    var a, b, c := slots[..i], [slots[i]], slots[i + 1..];
    WaitingConcat(a, b + c);
    WaitingConcat(b, c);
    WaitingOne(slots[i]);
    assert slots == a + (b + c);
  }

  lemma AskBalances(s: State, origin: Origin, handler: Handler, held: multiset<Handler>)
    requires Balanced(s, held)
    ensures Balanced(AfterAsk(s, origin, handler), held)
  {
    var i, t := Find(s.slots, origin), AfterAsk(s, origin, handler);
    if i < |s.slots| {
      WaitingAt(s.slots, i);
      WaitingAt(t.slots, i);
      assert t.slots[..i] == s.slots[..i] && t.slots[i + 1..] == s.slots[i + 1..];
    } else {
      WaitingConcat(s.slots, [Slot(origin, [handler])]);
      WaitingOne(Slot(origin, [handler]));
    }
  }

  /** Joining a slot changes no key. */
  lemma JoinedKeeps(s: State, origin: Origin, handler: Handler)
    requires Sound(s) && Has(s.slots, origin)
    ensures Sound(AfterAsk(s, origin, handler))
  {
    var i, t := Find(s.slots, origin), AfterAsk(s, origin, handler);
    var slots := s.slots[i := s.slots[i].(handlers := s.slots[i].handlers + [handler])];
    assert t.slots == slots && t.inFlight == s.inFlight && t.next == s.next;
    hide AfterAsk, Find, SlotForEach, RequestForEach;
    SameOrigins(s.slots, slots, s.inFlight);
  }

  lemma SameOrigins(slots: seq<Slot>, joined: seq<Slot>, inFlight: map<RequestId, Origin>)
    requires |joined| == |slots| && forall j :: 0 <= j < |slots| ==> joined[j].origin == slots[j].origin
    requires forall j :: 0 <= j < |slots| ==> |joined[j].handlers| >= |slots[j].handlers|
    requires SlotForEach(slots, inFlight) && RequestForEach(slots, inFlight)
    ensures SlotForEach(joined, inFlight) && RequestForEach(joined, inFlight)
  {
    forall id | id in inFlight ensures Has(joined, inFlight[id]) {
      var j :| 0 <= j < |slots| && slots[j].origin == inFlight[id];
      assert joined[j] in joined;
    }
    forall slot | slot in joined ensures slot.origin in inFlight.Values && slot.handlers != [] {
      var j :| 0 <= j < |joined| && slot == joined[j];
      assert slots[j] in slots;
    }
  }

  lemma NewSlotKeeps(s: State, origin: Origin, handler: Handler)
    requires Sound(s) && !Has(s.slots, origin)
    ensures Sound(AfterAsk(s, origin, handler))
  {
    var t, slot := AfterAsk(s, origin, handler), Slot(origin, [handler]);
    assert t.slots == s.slots + [slot] && t.inFlight == s.inFlight[s.next := origin] && t.next == s.next + 1;
    AppendedDistinct(s.slots, slot);
    hide AfterAsk, DistinctSlots, Has;
    NewSlotHas(s.slots, slot, s.inFlight, s.next);
    NewSlotAsked(s, slot);
    hide RequestForEach;
    forall id | id in s.inFlight ensures s.inFlight[id] != origin {
      assert Has(s.slots, s.inFlight[id]);
    }
    hide SlotForEach;
  }

  lemma NewSlotHas(slots: seq<Slot>, slot: Slot, inFlight: map<RequestId, Origin>, next: RequestId)
    requires SlotForEach(slots, inFlight)
    ensures SlotForEach(slots + [slot], inFlight[next := slot.origin])
  {
    var after := inFlight[next := slot.origin];
    forall id | id in after ensures Has(slots + [slot], after[id]) {
      StillHas(slots, slot, after[id]);
    }
  }

  lemma NewSlotAsked(s: State, slot: Slot)
    requires RequestForEach(s.slots, s.inFlight) && s.next !in s.inFlight && slot.handlers != []
    ensures RequestForEach(s.slots + [slot], s.inFlight[s.next := slot.origin])
  {
    forall other | other in s.slots + [slot] ensures other.origin in s.inFlight[s.next := slot.origin].Values {
      StillAsked(s, slot.origin, other.origin);
    }
  }

  lemma StillHas(slots: seq<Slot>, slot: Slot, origin: Origin)
    requires Has(slots, origin) || origin == slot.origin
    ensures Has(slots + [slot], origin)
  {
    if origin == slot.origin {
      assert slot in slots + [slot];
    } else {
      var was :| was in slots && was.origin == origin;
      assert was in slots + [slot];
    }
  }

  lemma StillAsked(s: State, asked: Origin, origin: Origin)
    requires s.next !in s.inFlight && (origin in s.inFlight.Values || origin == asked)
    ensures origin in s.inFlight[s.next := asked].Values
  {
    var after := s.inFlight[s.next := asked];
    if origin == asked {
      assert after[s.next] == origin;
    } else {
      var id :| id in s.inFlight && s.inFlight[id] == origin;
      assert id in after && after[id] == origin;
    }
  }

  lemma AppendedDistinct(slots: seq<Slot>, slot: Slot)
    requires DistinctSlots(slots) && !Has(slots, slot.origin)
    ensures DistinctSlots(slots + [slot])
  {
    forall j | 0 <= j < |slots| ensures slots[j].origin != slot.origin {
      assert slots[j] in slots;
    }
  }

  lemma AskKeeps(s: State, origin: Origin, handler: Handler)
    requires Sound(s)
    ensures Sound(AfterAsk(s, origin, handler))
  {
    if Has(s.slots, origin) {
      JoinedKeeps(s, origin, handler);
    } else {
      NewSlotKeeps(s, origin, handler);
    }
  }

  lemma RequestKeeps(s: State, a: Asking)
    requires Sound(s)
    ensures Sound(AfterRequest(s, a))
  {
    AskKeeps(s, a.origin, a.handler);
    var asked := AfterAsk(s, a.origin, a.handler);
    if a.additional.Some? {
      AskKeeps(asked, a.origin, a.additional.value);
    }
    hide Sound, AfterAsk, Lonely;
  }

  lemma RequestBalances(s: State, a: Asking, held: multiset<Handler>)
    requires Balanced(s, held)
    ensures Balanced(AfterRequest(s, a), held)
  {
    AskBalances(s, a.origin, a.handler, held);
    if a.additional.Some? {
      AskBalances(AfterAsk(s, a.origin, a.handler), a.origin, a.additional.value, held);
    }
    hide Balanced, AfterAsk, Lonely;
  }

  /** After asking the slot is there, as the assertion says, and the additional handler is taken if and only if the
      request is a new one. */
  lemma AdditionalWithNewSlot(s: State, a: Asking)
    requires Sound(s)
    ensures Has(AfterAsk(s, a.origin, a.handler).slots, a.origin)
    ensures AfterRequest(s, a).registered == s.registered + [a.handler]
      + if a.additional.Some? && !Has(s.slots, a.origin) then [a.additional.value] else []
  {
    var asked, i := AfterAsk(s, a.origin, a.handler), Find(s.slots, a.origin);
    if i < |s.slots| {
      assert s.slots[i] in s.slots;
      assert asked.slots[i] in asked.slots;
      FindAgain(s.slots, asked.slots, a.origin);
    } else {
      assert asked.slots[i] in asked.slots;
      FindNew(s.slots, Slot(a.origin, [a.handler]));
    }
    hide Sound, Find;
  }

  lemma {:induction false} FindAgain(slots: seq<Slot>, joined: seq<Slot>, origin: Origin)
    requires |joined| == |slots| && forall j :: 0 <= j < |slots| ==> joined[j].origin == slots[j].origin
    ensures Find(joined, origin) == Find(slots, origin)
  {
    if slots != [] && slots[0].origin != origin {
      FindAgain(slots[1..], joined[1..], origin);
    }
  }

  lemma {:induction false} FindNew(slots: seq<Slot>, slot: Slot)
    requires Find(slots, slot.origin) == |slots|
    ensures Find(slots + [slot], slot.origin) == |slots|
  {
    if slots != [] {
      assert (slots + [slot])[1..] == slots[1..] + [slot];
      FindNew(slots[1..], slot);
    }
  }

  lemma {:induction false} RequestsKeep(s: State, asked: seq<Asking>, held: multiset<Handler>)
    requires Sound(s) && Balanced(s, held)
    ensures Sound(AfterRequests(s, asked)) && Balanced(AfterRequests(s, asked), held)
  {
    hide Sound, Balanced, AfterRequest;
    if asked != [] {
      var t, last := AfterRequests(s, asked[..|asked| - 1]), asked[|asked| - 1];
      RequestsKeep(s, asked[..|asked| - 1], held);
      RequestKeeps(t, last);
      RequestBalances(t, last, held);
    }
  }

  lemma TakenBalances(s: State, id: RequestId)
    requires id in s.inFlight && Has(s.slots, s.inFlight[id]) && Balanced(s, multiset{})
    ensures Balanced(Taken(s, id), multiset(s.slots[Find(s.slots, s.inFlight[id])].handlers))
  {
    var i := Find(s.slots, s.inFlight[id]);
    WaitingAt(s.slots, i);
    WaitingConcat(s.slots[..i], s.slots[i + 1..]);
    hide Waiting, Find, Has;
  }

  lemma CutMembers(slots: seq<Slot>, i: nat)
    requires DistinctSlots(slots) && i < |slots|
    ensures DistinctSlots(slots[..i] + slots[i + 1..])
    ensures forall slot :: slot in slots[..i] + slots[i + 1..] <==> slot in slots && slot.origin != slots[i].origin
  {
    var cut := slots[..i] + slots[i + 1..];
    forall j, k | 0 <= j < k < |cut| ensures cut[j].origin != cut[k].origin {
      assert cut[j] == slots[if j < i then j else j + 1] && cut[k] == slots[if k < i then k else k + 1];
    }
    forall j | 0 <= j < |slots| && j != i ensures slots[j] in cut {
      assert cut[if j < i then j else j - 1] == slots[j];
    }
    forall slot | slot in cut ensures slot in slots && slot.origin != slots[i].origin {
      var j :| 0 <= j < |cut| && cut[j] == slot;
      assert slot == slots[if j < i then j else j + 1];
    }
  }

  /** Taking a slot out with its request keeps the other keys. */
  lemma TakenKeeps(s: State, id: RequestId)
    requires Sound(s) && id in s.inFlight
    ensures Sound(Taken(s, id))
  {
    var i, t := Find(s.slots, s.inFlight[id]), Taken(s, id);
    CutMembers(s.slots, i);
    assert s.slots[i].origin == s.inFlight[id];
    assert t.inFlight == s.inFlight - {id} && t.slots == s.slots[..i] + s.slots[i + 1..] && t.next == s.next;
    hide Taken, Find, DistinctSlots, Has;
    TakenSlots(s, id, s.slots[i].origin, t.slots);
    hide SlotForEach, RequestForEach;
  }

  lemma TakenSlots(s: State, id: RequestId, gone: Origin, rest: seq<Slot>)
    requires Sound(s) && id in s.inFlight && s.inFlight[id] == gone
    requires forall slot :: slot in rest <==> slot in s.slots && slot.origin != gone
    ensures SlotForEach(rest, s.inFlight - {id}) && RequestForEach(rest, s.inFlight - {id})
  {
    hide DistinctSlots, Has;
    forall other | other in s.inFlight - {id} ensures Has(rest, s.inFlight[other]) {
      HasStill(s.slots, rest, gone, s.inFlight[other]);
    }
    hide SlotForEach;
    forall slot | slot in rest ensures slot.origin in (s.inFlight - {id}).Values {
      AskedStill(s.inFlight, id, slot.origin);
    }
  }

  lemma HasStill(slots: seq<Slot>, rest: seq<Slot>, gone: Origin, origin: Origin)
    requires Has(slots, origin) && origin != gone
    requires forall slot :: slot in slots && slot.origin != gone ==> slot in rest
    ensures Has(rest, origin)
  {
    var was :| was in slots && was.origin == origin;
    assert was in rest;
  }

  lemma AskedStill(inFlight: map<RequestId, Origin>, id: RequestId, origin: Origin)
    requires id in inFlight && origin in inFlight.Values && origin != inFlight[id]
    ensures origin in (inFlight - {id}).Values
  {
    var other :| other in inFlight && inFlight[other] == origin;
    assert other in inFlight - {id} && (inFlight - {id})[other] == origin;
  }

  lemma InvokedKeeps(s: State, h: Handler, answer: Option<References>, makes: Behaviour, held: multiset<Handler>)
    requires Sound(s) && Balanced(s, held + multiset{h})
    ensures Sound(Invoked(s, h, answer, makes)) && Balanced(Invoked(s, h, answer, makes), held)
  {
    var t := s.(called := s.called + [Call(h, answer)]);
    assert Names(t.called) == Names(s.called) + [h];
    assert Sound(t) && Balanced(t, held);
    hide Sound, Balanced;
    RequestsKeep(t, makes(|s.called|, h, answer), held);
  }

  lemma {:induction false} CalledKeeps(s: State, handlers: seq<Handler>, answer: Option<References>, makes: Behaviour,
                                       held: multiset<Handler>)
    requires Sound(s) && Balanced(s, held + multiset(handlers))
    ensures Sound(Called(s, handlers, answer, makes)) && Balanced(Called(s, handlers, answer, makes), held)
  {
    hide Sound, Invoked;
    if handlers != [] {
      var init, last := handlers[..|handlers| - 1], handlers[|handlers| - 1];
      assert handlers == init + [last];
      assert held + multiset(handlers) == (held + multiset{last}) + multiset(init);
      CalledKeeps(s, init, answer, makes, held + multiset{last});
      InvokedKeeps(Called(s, init, answer, makes), last, answer, makes, held);
    }
  }

  // ---- Runs ----

  datatype Step = Ask(a: Asking) | Reply(id: RequestId, answer: Option<References>, makes: Behaviour)

  predicate Enabled(s: State, step: Step) {
    step.Reply? ==> step.id in s.inFlight
  }

  /** The handler of a reply finds its origin; both of its branches assert that. */
  predicate AssertHolds(s: State, step: Step)
    requires Enabled(s, step)
  {
    step.Reply? ==> Has(s.slots, s.inFlight[step.id])
  }

  function Next(s: State, step: Step): State
    requires Enabled(s, step) && AssertHolds(s, step)
  {
    match step
    case Ask(a) => AfterRequest(s, a)
    case Reply(id, answer, makes) => AfterReply(s, id, answer, makes)
  }

  ghost predicate Inv(s: State) { Sound(s) && Balanced(s, multiset{}) }

  lemma StepKeeps(s: State, step: Step)
    requires Inv(s) && Enabled(s, step)
    ensures AssertHolds(s, step) && Inv(Next(s, step))
  {
    assert AssertHolds(s, step);
    hide Sound, Balanced, Taken, Called, AfterRequest;
    match step
    case Ask(a) =>
      RequestKeeps(s, a);
      RequestBalances(s, a, multiset{});
    case Reply(id, answer, makes) =>
      var handlers := s.slots[Find(s.slots, s.inFlight[id])].handlers;
      TakenKeeps(s, id);
      TakenBalances(s, id);
      assert multiset{} + multiset(handlers) == multiset(handlers);
      CalledKeeps(Taken(s, id), handlers, answer, makes, multiset{});
  }

  ghost predicate Possible(s: State, steps: seq<Step>)
    decreases |steps|
  {
    |steps| > 0 ==> Enabled(s, steps[0]) && AssertHolds(s, steps[0]) && Possible(Next(s, steps[0]), steps[1..])
  }

  ghost function Run(s: State, steps: seq<Step>): State
    requires Possible(s, steps)
    decreases |steps|
  {
    if |steps| == 0 then s else Run(Next(s, steps[0]), steps[1..])
  }

  /** In every reachable state the keys are the origins in flight, and each handler waits once or has run once. */
  lemma {:induction false} EveryRunKeeps(s: State, steps: seq<Step>)
    requires Inv(s) && Possible(s, steps)
    ensures Inv(Run(s, steps))
    decreases |steps|
  {
    hide Inv, Next, Enabled, AssertHolds;
    if |steps| > 0 {
      StepKeeps(s, steps[0]);
      EveryRunKeeps(Next(s, steps[0]), steps[1..]);
    }
  }

  lemma FirstIsInFlight(s: State)
    requires Sound(s)
    ensures s.slots != [] ==> s.slots[0].origin in s.inFlight.Values
  {
    if s.slots != [] {
      assert s.slots[0] in s.slots;
    }
  }

  /** Once nothing is in flight, every handler handed in has run exactly as often as it was handed in. */
  lemma IdleHasCalledAll(s: State)
    requires Inv(s) && s.inFlight == map[]
    ensures s.slots == [] && multiset(s.registered) == multiset(Names(s.called))
  {
    FirstIsInFlight(s);
  }

  // ---- What a reply tells ----

  function Answers(handlers: seq<Handler>, answer: Option<References>): seq<Call> {
    seq(|handlers|, i requires 0 <= i < |handlers| => Call(handlers[i], answer))
  }

  lemma {:induction false} RequestsCallNothing(s: State, asked: seq<Asking>)
    ensures AfterRequests(s, asked).called == s.called
  {
    if asked != [] { RequestsCallNothing(s, asked[..|asked| - 1]); }
  }

  lemma {:induction false} CalledIs(s: State, handlers: seq<Handler>, answer: Option<References>, makes: Behaviour)
    ensures Called(s, handlers, answer, makes).called == s.called + Answers(handlers, answer)
  {
    hide AfterRequests;
    if handlers != [] {
      var init, h := handlers[..|handlers| - 1], handlers[|handlers| - 1];
      var t := Called(s, init, answer, makes);
      CalledIs(s, init, answer, makes);
      RequestsCallNothing(t.(called := t.called + [Call(h, answer)]), makes(|t.called|, h, answer));
      assert Answers(handlers, answer) == Answers(init, answer) + [Call(h, answer)];
    }
  }

  /** A reply runs exactly the handlers that wait for its origin, in the order they came, each with its answer; whatever
      they ask for meanwhile is answered later. Asking itself runs no handler. */
  lemma ReplyTells(s: State, id: RequestId, answer: Option<References>, makes: Behaviour, slot: Slot)
    requires Sound(s) && id in s.inFlight && slot in s.slots && slot.origin == s.inFlight[id]
    ensures Has(s.slots, s.inFlight[id])
    ensures AfterReply(s, id, answer, makes).called == s.called + Answers(slot.handlers, answer)
    ensures forall a :: AfterRequest(s, a).called == s.called
  {
    var i := Find(s.slots, s.inFlight[id]);
    assert s.slots[i] == slot by {
      var j :| 0 <= j < |s.slots| && s.slots[j] == slot;
      assert i == j;
    }
    hide Find, Called;
    CalledIs(Taken(s, id), slot.handlers, answer, makes);
  }

  // ---- The methods ----

  class ApiFileReferences {
    var fileReferenceHandlers: seq<Slot>
    var inFlight: map<RequestId, Origin>
    var nextId: RequestId
    ghost var registered: seq<Handler>
    var called: seq<Call>

    ghost function Abs(): State
      reads this
    {
      State(fileReferenceHandlers, inFlight, nextId, registered, called)
    }

    constructor ()
      ensures Abs() == INITIAL
    {
      fileReferenceHandlers, inFlight, nextId, registered, called := [], map[], 1, [], [];
    }

    method FindSlot(origin: Origin) returns (i: nat)
      ensures i == Find(fileReferenceHandlers, origin)
    {
      i := 0;
      while i < |fileReferenceHandlers| && fileReferenceHandlers[i].origin != origin
        invariant i <= |fileReferenceHandlers|
        invariant Find(fileReferenceHandlers, origin) == i + Find(fileReferenceHandlers[i..], origin)
      {
        assert fileReferenceHandlers[i..][1..] == fileReferenceHandlers[i + 1..];
        i := i + 1;
      }
    }

    method RequestFileReference(origin: Origin, handler: Handler)
      modifies this
      ensures Abs() == AfterAsk(old(Abs()), origin, handler)
    {
      registered := registered + [handler];
      var i := FindSlot(origin);
      if i < |fileReferenceHandlers| {
        var slot := fileReferenceHandlers[i];
        fileReferenceHandlers := fileReferenceHandlers[i := slot.(handlers := slot.handlers + [handler])];
        return;
      }
      fileReferenceHandlers := fileReferenceHandlers + [Slot(origin, [handler])];
      inFlight := inFlight[nextId := origin];
      nextId := nextId + 1;
    }

    method RefreshFileReference(a: Asking)
      modifies this
      ensures Abs() == AfterRequest(old(Abs()), a)
    {
      hide AfterAsk;
      RequestFileReference(a.origin, a.handler);
      if a.additional.Some? {
        var i := FindSlot(a.origin);
        if i < |fileReferenceHandlers| && |fileReferenceHandlers[i].handlers| == 1 {
          PushAdditional(i, a.origin, a.additional.value);
        }
      }
    }

    method PushAdditional(i: nat, origin: Origin, handler: Handler)
      requires i < |fileReferenceHandlers| && i == Find(fileReferenceHandlers, origin)
      modifies this
      ensures Abs() == AfterAsk(old(Abs()), origin, handler)
    {
      registered := registered + [handler];
      var slot := fileReferenceHandlers[i];
      fileReferenceHandlers := fileReferenceHandlers[i := slot.(handlers := slot.handlers + [handler])];
    }

    /** The done and fail handlers differ in what they answer. The precondition is what every reachable state gives;
        from it follows that the origin is found. */
    method OnReply(id: RequestId, answer: Option<References>, makes: Behaviour)
      requires id in inFlight && Sound(Abs())
      modifies this
      ensures Has(old(Abs()).slots, old(inFlight)[id])
      ensures Abs() == AfterReply(old(Abs()), id, answer, makes)
    {
      assert Has(Abs().slots, Abs().inFlight[id]);
      hide Sound, Has, Find, Invoked;
      var origin := inFlight[id];
      inFlight := inFlight - {id};
      var handlers := TakeHandlers(origin);
      assert Abs() == Taken(old(Abs()), id);
      CallHandlers(handlers, answer, makes);
    }

    method TakeHandlers(origin: Origin) returns (handlers: seq<Handler>)
      requires Has(fileReferenceHandlers, origin)
      modifies this`fileReferenceHandlers
      ensures var slots, i := old(fileReferenceHandlers), Find(old(fileReferenceHandlers), origin);
        handlers == slots[i].handlers && fileReferenceHandlers == slots[..i] + slots[i + 1..]
    {
      var i := FindSlot(origin);
      handlers := fileReferenceHandlers[i].handlers;
      fileReferenceHandlers := fileReferenceHandlers[..i] + fileReferenceHandlers[i + 1..];
    }

    method CallHandlers(handlers: seq<Handler>, answer: Option<References>, makes: Behaviour)
      modifies this
      ensures Abs() == Called(old(Abs()), handlers, answer, makes)
    {
      hide Invoked;
      ghost var start := Abs();
      for k := 0 to |handlers|
        invariant Abs() == Called(start, handlers[..k], answer, makes)
      {
        assert handlers[..k + 1][..k] == handlers[..k];
        Invoke(handlers[k], answer, makes);
      }
      assert handlers[..|handlers|] == handlers;
    }

    method Invoke(h: Handler, answer: Option<References>, makes: Behaviour)
      modifies this
      ensures Abs() == Invoked(old(Abs()), h, answer, makes)
    {
      hide AfterRequest;
      called := called + [Call(h, answer)];
      ghost var start := Abs();
      var asked := makes(|called| - 1, h, answer);
      for i := 0 to |asked|
        invariant Abs() == AfterRequests(start, asked[..i])
      {
        assert asked[..i + 1][..i] == asked[..i];
        RefreshFileReference(asked[i]);
      }
      assert asked[..|asked|] == asked;
    }
  }
}
