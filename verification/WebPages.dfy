/** Resolving pending web pages: temporary negative ids, one request per channel, real ids written back. */
module WebPages {
  import opened Sequences
  import opened Wrappers

  type Page = nat
  type Channel = nat
  type MsgId = int
  type RequestId = nat

  const INT_MAX := 0x7FFF_FFFF

  /** One entry of the pending map: 0 while nothing was asked, otherwise the id of the request. */
  datatype Entry = Entry(page: Page, request: int)
  /** The message a page was found in, with its channel if it is in one. */
  datatype Item = Item(channel: Option<Channel>, id: MsgId)
  datatype Request = GetMessages(channel: Option<Channel>, ids: seq<MsgId>)

  /** What the session knows when the pages are resolved. */
  datatype World = World(now: int, till: map<Page, int>, items: map<Page, Item>)

  predicate IsDue(e: Entry, w: World)
    requires e.page in w.till
  {
    e.request <= 0 && w.till[e.page] <= w.now && e.page in w.items
  }

  ghost predicate Known(es: seq<Entry>, w: World) { forall e :: e in es ==> e.page in w.till }

  /** The message ids to ask for in one channel, or outside channels, in the order of the entries. */
  function IdsFor(es: seq<Entry>, w: World, channel: Option<Channel>): seq<MsgId>
    requires Known(es, w)
  {
    if es == [] then []
    else
      var last := es[|es| - 1];
      IdsFor(es[..|es| - 1], w, channel) + OwnId(last, w, channel)
  }

  function OwnId(e: Entry, w: World, channel: Option<Channel>): seq<MsgId>
    requires e.page in w.till
  {
    if IsDue(e, w) && w.items[e.page].channel == channel then [w.items[e.page].id] else []
  }

  /** The seconds until the next waiting page is due. */
  function SoonerOf(m: int, e: Entry, w: World): int
    requires e.page in w.till
  {
    var left := w.till[e.page] - w.now;
    if e.request <= 0 && left > 0 && left < m then left else m
  }

  function Soonest(es: seq<Entry>, w: World): int
    requires Known(es, w)
  {
    if es == [] then INT_MAX else SoonerOf(Soonest(es[..|es| - 1], w), es[|es| - 1], w)
  }

  lemma KnownPrefix(es: seq<Entry>, w: World, i: nat)
    requires Known(es, w) && i <= |es|
    ensures Known(es[..i], w)
  {
    assert forall e :: e in es[..i] ==> e in es;
  }

  /** It is the least number of seconds left to any page that is not asked for and not due. */
  lemma {:induction false} SoonestIs(es: seq<Entry>, w: World)
    requires Known(es, w)
    ensures forall e :: e in es && e.request <= 0 && w.till[e.page] > w.now ==> Soonest(es, w) <= w.till[e.page] - w.now
    ensures Soonest(es, w) < INT_MAX ==>
      exists e :: e in es && e.request <= 0 && 0 < w.till[e.page] - w.now == Soonest(es, w)
    ensures 0 < Soonest(es, w) <= INT_MAX
  {
    if es != [] {
      var init, last := es[..|es| - 1], es[|es| - 1];
      KnownPrefix(es, w, |es| - 1);
      SoonestIs(init, w);
      assert es == init + [last];
      if Soonest(es, w) < INT_MAX && Soonest(es, w) == Soonest(init, w) {
        var e :| e in init && e.request <= 0 && 0 < w.till[e.page] - w.now == Soonest(init, w);
        assert e in es;
      } else if Soonest(es, w) < INT_MAX {
        assert last in es;
      }
    }
  }

  /** The channels with due pages: a number in the order of their first due page, and the ids to ask for. */
  function Groups(es: seq<Entry>, w: World): map<Channel, (nat, seq<MsgId>)>
    requires Known(es, w)
  {
    if es == [] then map[]
    else
      var last := es[|es| - 1];
      Grouped(Groups(es[..|es| - 1], w), last, w)
  }

  function Grouped(groups: map<Channel, (nat, seq<MsgId>)>, e: Entry, w: World): map<Channel, (nat, seq<MsgId>)>
    requires e.page in w.till
  {
    if IsDue(e, w) && w.items[e.page].channel.Some? then
      var c, id := w.items[e.page].channel.value, w.items[e.page].id;
      groups[c := if c in groups then (groups[c].0, groups[c].1 + [id]) else (|groups|, [id])]
    else groups
  }

  ghost predicate Numbered(groups: map<Channel, (nat, seq<MsgId>)>) {
    && (forall c :: c in groups ==> groups[c].0 < |groups|)
    && (forall c, d :: c in groups && d in groups && groups[c].0 == groups[d].0 ==> c == d)
  }

  lemma GroupedNumbered(groups: map<Channel, (nat, seq<MsgId>)>, e: Entry, w: World)
    requires e.page in w.till && Numbered(groups)
    ensures Numbered(Grouped(groups, e, w))
  {
    if IsDue(e, w) && w.items[e.page].channel.Some? {
      var c := w.items[e.page].channel.value;
      NumberedWith(groups, c, if c in groups then groups[c].1 + [w.items[e.page].id] else [w.items[e.page].id]);
      hide Numbered;
    }
  }

  lemma SizeWith<T>(groups: map<Channel, T>, c: Channel, value: T)
    ensures |groups[c := value]| == if c in groups then |groups| else |groups| + 1
  {
    var after := groups[c := value];
    assert after.Keys == groups.Keys + {c} && |after| == |after.Keys| && |groups| == |groups.Keys|;
  }

  lemma NumberedWith(groups: map<Channel, (nat, seq<MsgId>)>, c: Channel, ids: seq<MsgId>)
    requires Numbered(groups)
    ensures Numbered(groups[c := (if c in groups then groups[c].0 else |groups|, ids)])
  {
    SizeWith(groups, c, (if c in groups then groups[c].0 else |groups|, ids));
  }

  lemma {:induction false} GroupsHoldIds(es: seq<Entry>, w: World)
    requires Known(es, w)
    ensures Numbered(Groups(es, w))
    ensures forall c :: c in Groups(es, w) <==> IdsFor(es, w, Some(c)) != []
    ensures forall c :: c in Groups(es, w) ==> Groups(es, w)[c].1 == IdsFor(es, w, Some(c))
  {
    hide Numbered;
    if es == [] {
      NoneNumbered();
    } else {
      KnownPrefix(es, w, |es| - 1);
      GroupsHoldIds(es[..|es| - 1], w);
      GroupedNumbered(Groups(es[..|es| - 1], w), es[|es| - 1], w);
    }
  }

  lemma NoneNumbered()
    ensures Numbered(map[])
  {}

  lemma FoldsStep(es: seq<Entry>, w: World, i: nat)
    requires Known(es, w) && i < |es|
    ensures Known(es[..i], w) && Known(es[..i + 1], w)
    ensures Groups(es[..i + 1], w) == Grouped(Groups(es[..i], w), es[i], w)
    ensures IdsFor(es[..i + 1], w, None) == IdsFor(es[..i], w, None) + OwnId(es[i], w, None)
    ensures Soonest(es[..i + 1], w) == SoonerOf(Soonest(es[..i], w), es[i], w)
    ensures Marks(es[..i + 1], w) == Marks(es[..i], w) + [Temporary(es[i], w, Groups(es[..i + 1], w))]
  {
    hide Grouped, OwnId, SoonerOf, Temporary;
    KnownPrefix(es, w, i);
    KnownPrefix(es, w, i + 1);
    assert es[..i + 1][..i] == es[..i] && es[..i + 1][i] == es[i];
  }

  /** The temporary id of a due entry, -1 outside channels and -2 minus the channel's number inside. */
  function Temporary(e: Entry, w: World, groups: map<Channel, (nat, seq<MsgId>)>): int
    requires e.page in w.till
  {
    if !IsDue(e, w) then e.request
    else match w.items[e.page].channel
      case None => -1
      case Some(c) => if c in groups then -2 - groups[c].0 as int else 0
  }

  /** A due page's message is among those asked for in its channel, at the position of its entry. */
  lemma {:induction false} DueIsAsked(es: seq<Entry>, w: World, i: nat)
    requires Known(es, w) && i < |es| && IsDue(es[i], w)
    ensures Known(es[..i], w)
    ensures var channel := w.items[es[i].page].channel;
            var k := |IdsFor(es[..i], w, channel)|;
            k < |IdsFor(es, w, channel)| && IdsFor(es, w, channel)[k] == w.items[es[i].page].id
  {
    assert forall e :: e in es[..i] ==> e in es;
    var init := es[..|es| - 1];
    assert forall e :: e in init ==> e in es;
    if i == |es| - 1 {
    } else {
      assert init[..i] == es[..i];
      DueIsAsked(init, w, i);
    }
  }

  /** What resolving does. Entries without a due page keep their request; every due page holds the id of the
      one new request that asks for exactly the due messages of its channel. */
  ghost predicate Resolved(before: seq<Entry>, after: seq<Entry>, w: World,
                           sentBefore: map<RequestId, Request>, sentAfter: map<RequestId, Request>, next: RequestId)
    requires Known(before, w)
  {
    && |after| == |before|
    && (forall i :: 0 <= i < |before| ==> after[i].page == before[i].page)
    && (forall i :: 0 <= i < |before| && !IsDue(before[i], w) ==> after[i] == before[i])
    && (forall i :: 0 <= i < |before| && IsDue(before[i], w) ==>
          var channel := w.items[before[i].page].channel;
          && after[i].request >= next && after[i].request in sentAfter
          && sentAfter[after[i].request] == GetMessages(channel, IdsFor(before, w, channel)))
    && (forall r :: r in sentBefore ==> r in sentAfter && sentAfter[r] == sentBefore[r])
    && (forall r :: r in sentAfter && r !in sentBefore ==>
          next <= r && sentAfter[r].ids == IdsFor(before, w, sentAfter[r].channel) != [])
    && (forall r, q :: r in sentAfter && r !in sentBefore && q in sentAfter && q !in sentBefore ==>
          (sentAfter[r].channel == sentAfter[q].channel ==> r == q))
  }

  /** The temporary ids of the first loop, each by the groups at its turn. */
  function Marks(es: seq<Entry>, w: World): (marks: seq<int>)
    requires Known(es, w)
    ensures |marks| == |es|
  {
    if es == [] then []
    else Marks(es[..|es| - 1], w) + [Temporary(es[|es| - 1], w, Groups(es, w))]
  }

  /** A channel keeps its number, so the groups at the end say the same. */
  lemma {:induction false} MarksAreTemporary(es: seq<Entry>, w: World, i: nat)
    requires Known(es, w) && i < |es|
    ensures Marks(es, w)[i] == Temporary(es[i], w, Groups(es, w))
  {
    if i < |es| - 1 {
      var init := es[..|es| - 1];
      KnownPrefix(es, w, |es| - 1);
      MarksAreTemporary(init, w, i);
      assert init[i] == es[i];
      if IsDue(es[i], w) {
        DueIsAsked(init, w, i);
        GroupsHoldIds(init, w);
      }
    }
  }

  lemma NoFolds(w: World)
    ensures Groups([], w) == map[] && IdsFor([], w, None) == [] && Soonest([], w) == INT_MAX && Marks([], w) == []
  {}

  /** The requests sent so far, for all channels but those left. */
  ghost predicate AskedBut(groups: map<Channel, (nat, seq<MsgId>)>, left: set<Channel>, byIndex: seq<RequestId>,
                           sent0: map<RequestId, Request>, sent: map<RequestId, Request>, first: RequestId)
  {
    && |byIndex| == |groups|
    && (forall c :: c in groups && c !in left && groups[c].0 < |groups| ==>
          var r := byIndex[groups[c].0];
          first <= r && r in sent && sent[r] == GetMessages(Some(c), groups[c].1))
    && (forall r :: r in sent && r !in sent0 ==>
          && first <= r && sent[r].channel.Some? && sent[r].channel.value in groups && sent[r].channel.value !in left
          && var k := groups[sent[r].channel.value].0; k < |groups| && byIndex[k] == r)
  }

  lemma NoneAsked(groups: map<Channel, (nat, seq<MsgId>)>, byIndex: seq<RequestId>, sent: map<RequestId, Request>,
                  first: RequestId)
    requires |byIndex| == |groups|
    ensures AskedBut(groups, groups.Keys, byIndex, sent, sent, first)
  {}

  lemma AskedOne(groups: map<Channel, (nat, seq<MsgId>)>, left: set<Channel>, byIndex: seq<RequestId>,
                 sent0: map<RequestId, Request>, sent: map<RequestId, Request>, first: RequestId,
                 c: Channel, next: RequestId)
    requires Numbered(groups) && AskedBut(groups, left, byIndex, sent0, sent, first) && first <= next
    requires c in left && c in groups && next !in sent
    ensures groups[c].0 < |byIndex|
    ensures AskedBut(groups, left - {c}, byIndex[groups[c].0 := next], sent0,
                     sent[next := GetMessages(Some(c), groups[c].1)], first)
  {}

  /** What the last loop makes of a temporary id. */
  function Written(request: int, requestId: RequestId, byIndex: seq<RequestId>): int {
    if request >= 0 then request else if request == -1 then requestId
    else if -2 - request < |byIndex| then byIndex[-2 - request] else 0
  }

  /** One request outside channels if there is something to ask there, and then one for every channel. */
  ghost predicate Asked(es: seq<Entry>, w: World, requestId: RequestId, byIndex: seq<RequestId>,
                        sent0: map<RequestId, Request>, sent1: map<RequestId, Request>, sent2: map<RequestId, Request>,
                        next: RequestId)
    requires Known(es, w)
  {
    var groups := Groups(es, w);
    && next > 0 && (forall r :: r in sent0 ==> r < next)
    && (IdsFor(es, w, None) == [] ==> requestId == 0 && sent1 == sent0)
    && (IdsFor(es, w, None) != [] ==>
          requestId == next && sent1 == sent0[next := GetMessages(None, IdsFor(es, w, None))])
    && |byIndex| == |groups|
    && (forall r :: r in sent1 ==> r in sent2 && sent2[r] == sent1[r])
    && (forall c :: c in groups && groups[c].0 < |groups| ==>
          var r := byIndex[groups[c].0];
          next <= r && r in sent2 && sent2[r] == GetMessages(Some(c), groups[c].1))
    && (forall r :: r in sent2 && r !in sent1 ==>
          next <= r && sent2[r].channel.Some? && sent2[r].channel.value in groups)
    && (forall r :: r in sent2 && r !in sent1 && groups[sent2[r].channel.value].0 < |groups| ==>
          byIndex[groups[sent2[r].channel.value].0] == r)
  }

  lemma ChannelRequest(es: seq<Entry>, w: World, c: Channel, requestId: RequestId, byIndex: seq<RequestId>,
                       sent0: map<RequestId, Request>, sent1: map<RequestId, Request>, sent2: map<RequestId, Request>,
                       next: RequestId)
    requires Known(es, w) && Asked(es, w, requestId, byIndex, sent0, sent1, sent2, next)
    requires c in Groups(es, w)
    ensures var k := Groups(es, w)[c].0;
      && k < |byIndex| && byIndex[k] >= next && byIndex[k] in sent2
      && sent2[byIndex[k]] == GetMessages(Some(c), IdsFor(es, w, Some(c)))
  {
    GroupsHoldIds(es, w);
    hide Groups, IdsFor;
  }

  lemma PlainRequest(es: seq<Entry>, w: World, requestId: RequestId, byIndex: seq<RequestId>,
                     sent0: map<RequestId, Request>, sent1: map<RequestId, Request>, sent2: map<RequestId, Request>,
                     next: RequestId)
    requires Known(es, w) && Asked(es, w, requestId, byIndex, sent0, sent1, sent2, next) && IdsFor(es, w, None) != []
    ensures requestId == next && requestId in sent2 && sent2[requestId] == GetMessages(None, IdsFor(es, w, None))
  {
    hide Groups, IdsFor;
    assert requestId in sent1;
  }

  lemma DueHasIds(es: seq<Entry>, w: World, i: nat)
    requires Known(es, w) && i < |es| && es[i].page in w.till && IsDue(es[i], w)
    ensures es[i].page in w.items && IdsFor(es, w, w.items[es[i].page].channel) != []
    ensures w.items[es[i].page].channel.Some? ==> w.items[es[i].page].channel.value in Groups(es, w)
  {
    DueIsAsked(es, w, i);
    GroupsHoldIds(es, w);
    hide Groups, IdsFor, Numbered;
  }

  lemma WrittenFor(e: Entry, w: World, groups: map<Channel, (nat, seq<MsgId>)>, requestId: RequestId,
                   byIndex: seq<RequestId>)
    requires e.page in w.till && IsDue(e, w)
    ensures var r := Written(Temporary(e, w, groups), requestId, byIndex);
      match w.items[e.page].channel
      case None => r == requestId
      case Some(c) => c in groups && groups[c].0 < |byIndex| ==> r == byIndex[groups[c].0]
  {}

  /** A due entry gets the id of its channel's request. */
  lemma DueGetsRequest(es: seq<Entry>, w: World, i: nat, requestId: RequestId, byIndex: seq<RequestId>,
                       sent0: map<RequestId, Request>, sent1: map<RequestId, Request>, sent2: map<RequestId, Request>,
                       next: RequestId)
    requires Known(es, w) && Asked(es, w, requestId, byIndex, sent0, sent1, sent2, next)
    requires i < |es| && IsDue(es[i], w)
    ensures var r := Written(Temporary(es[i], w, Groups(es, w)), requestId, byIndex);
            var channel := w.items[es[i].page].channel;
            r >= next && r in sent2 && sent2[r] == GetMessages(channel, IdsFor(es, w, channel))
  {
    hide Asked, IdsFor, Groups, Temporary, Written, Numbered;
    assert es[i] in es;
    var channel := w.items[es[i].page].channel;
    DueHasIds(es, w, i);
    WrittenFor(es[i], w, Groups(es, w), requestId, byIndex);
    if channel.Some? {
      ChannelRequest(es, w, channel.value, requestId, byIndex, sent0, sent1, sent2, next);
    } else {
      PlainRequest(es, w, requestId, byIndex, sent0, sent1, sent2, next);
    }
  }

  /** Every new request asks for exactly the due messages of its channel, and no channel is asked twice. */
  lemma RequestsAreExact(es: seq<Entry>, w: World, requestId: RequestId, byIndex: seq<RequestId>,
                         sent0: map<RequestId, Request>, sent1: map<RequestId, Request>, sent2: map<RequestId, Request>,
                         next: RequestId)
    requires Known(es, w) && Asked(es, w, requestId, byIndex, sent0, sent1, sent2, next)
    ensures forall r :: r in sent2 && r !in sent0 ==> next <= r && sent2[r].ids == IdsFor(es, w, sent2[r].channel) != []
    ensures forall r, q :: r in sent2 && r !in sent0 && q in sent2 && q !in sent0 ==>
      (sent2[r].channel == sent2[q].channel ==> r == q)
  {
    hide IdsFor, Groups;
    GroupsHoldIds(es, w);
  }

  /** The requests sent for the due pages, and the ids written back, resolve the entries. */
  lemma WrittenResolves(es: seq<Entry>, after: seq<Entry>, w: World, requestId: RequestId, byIndex: seq<RequestId>,
                        sent0: map<RequestId, Request>, sent1: map<RequestId, Request>, sent2: map<RequestId, Request>,
                        next: RequestId)
    requires Known(es, w) && Asked(es, w, requestId, byIndex, sent0, sent1, sent2, next)
    requires forall e :: e in es ==> e.request >= 0
    requires |after| == |es| && forall i :: 0 <= i < |es| ==>
      after[i] == Entry(es[i].page, Written(Temporary(es[i], w, Groups(es, w)), requestId, byIndex))
    ensures Resolved(es, after, w, sent0, sent2, next)
  {
    hide IdsFor, Groups, Written;
    RequestsAreExact(es, w, requestId, byIndex, sent0, sent1, sent2, next);
    forall i | 0 <= i < |es|
      ensures !IsDue(es[i], w) ==> after[i] == es[i]
      ensures IsDue(es[i], w) ==>
        var channel := w.items[es[i].page].channel;
        && after[i].request >= next && after[i].request in sent2
        && sent2[after[i].request] == GetMessages(channel, IdsFor(es, w, channel))
    {
      assert es[i] in es;
      if IsDue(es[i], w) {
        DueGetsRequest(es, w, i, requestId, byIndex, sent0, sent1, sent2, next);
      } else {
        WrittenKeeps(es[i].request, requestId, byIndex);
      }
    }
  }

  lemma WrittenKeeps(request: int, requestId: RequestId, byIndex: seq<RequestId>)
    requires request >= 0
    ensures Written(request, requestId, byIndex) == request
  {}

  lemma TemporaryRange(es: seq<Entry>, w: World, i: nat)
    requires Known(es, w) && i < |es| && es[i].request >= 0
    ensures var groups := Groups(es, w);
            && -2 - |groups| < Temporary(es[i], w, groups)
            && (IdsFor(es, w, None) == [] && |groups| == 0 ==> Temporary(es[i], w, groups) >= 0)
  {
    GroupsHoldIds(es, w);
    if IsDue(es[i], w) { DueIsAsked(es, w, i); }
    hide Groups, IdsFor;
  }

  /** So every due page holds a real request that asks for its message, in its channel. */
  lemma DueHoldsItsRequest(before: seq<Entry>, after: seq<Entry>, w: World, sentBefore: map<RequestId, Request>,
                           sentAfter: map<RequestId, Request>, next: RequestId, i: nat)
    requires Known(before, w) && Resolved(before, after, w, sentBefore, sentAfter, next) && next > 0
    requires i < |before| && IsDue(before[i], w)
    ensures var item := w.items[before[i].page];
            && after[i].request > 0 && after[i].request in sentAfter
            && sentAfter[after[i].request].channel == item.channel && item.id in sentAfter[after[i].request].ids
  {
    DueIsAsked(before, w, i);
  }

  lemma ResolvedStaysValid(es: seq<Entry>, after: seq<Entry>, w: World, sent0: map<RequestId, Request>,
                           sent2: map<RequestId, Request>, next: RequestId)
    requires Known(es, w) && Resolved(es, after, w, sent0, sent2, next) && next > 0
    requires Sorted(es) && forall e :: e in es ==> e.request == 0 || (e.request > 0 && e.request in sent0)
    ensures Sorted(after)
    ensures forall e :: e in after ==> e.page in w.till && (e.request == 0 || (e.request > 0 && e.request in sent2))
  {
    forall i | 0 <= i < |after|
      ensures after[i].page in w.till && (after[i].request == 0 || (after[i].request > 0 && after[i].request in sent2))
    {
      assert es[i] in es;
    }
  }

  /** The pages that are due, but their messages are not found. */
  function NotFound(es: seq<Entry>, w: World): set<Page>
    requires Known(es, w)
  {
    set e | e in es && e.request == 0 && w.till[e.page] <= w.now && e.page !in w.items :: e.page
  }

  /** An entry without a request after resolving is not due, or its message was not found. */
  lemma LeftWaiting(es: seq<Entry>, after: seq<Entry>, w: World, sent0: map<RequestId, Request>,
                    sent2: map<RequestId, Request>, next: RequestId)
    requires Known(es, w) && Resolved(es, after, w, sent0, sent2, next) && next > 0
    requires forall e :: e in es ==> e.request >= 0
    ensures forall e :: e in after && e.request == 0 ==>
      e in es && (w.till[e.page] > w.now || e.page in NotFound(es, w))
  {
    forall e | e in after && e.request == 0 ensures e in es && (w.till[e.page] > w.now || e.page in NotFound(es, w)) {
      var i :| 0 <= i < |after| && after[i] == e;
      assert es[i] in es;
      hide IdsFor;
    }
  }

  function Unanswered(es: seq<Entry>, request: int): seq<Entry> {
    if es == [] then []
    else Unanswered(es[..|es| - 1], request) + (if es[|es| - 1].request == request then [] else [es[|es| - 1]])
  }

  /** A page still pending when its reply arrives fails and is pending no more. */
  function Settled(es: seq<Entry>, request: int, till: map<Page, int>): set<Page> {
    set e | e in es && e.request == request && e.page in till && till[e.page] > 0 :: e.page
  }

  function TillAfter(es: seq<Entry>, request: int, till: map<Page, int>): map<Page, int> {
    map page | page in till :: if page in Settled(es, request, till) then 0 else till[page]
  }

  lemma AnswerStart(es: seq<Entry>, request: int, till: map<Page, int>)
    ensures Unanswered(es[..0], request) == [] && TillAfter(es[..0], request, till) == till
    ensures Settled(es[..0], request, till) == {}
  {}

  lemma SettledNext(es: seq<Entry>, n: nat, request: int, till: map<Page, int>)
    requires n < |es|
    ensures var e := es[n];
      Settled(es[..n + 1], request, till)
      == Settled(es[..n], request, till) +
        if e.request == request && e.page in till && till[e.page] > 0 then {e.page} else {}
  {
    assert es[..n + 1] == es[..n] + [es[n]];
  }

  lemma AnswerNext(es: seq<Entry>, n: nat, request: int, till: map<Page, int>, failed: set<Page>)
    requires n < |es| && es[n].page in till
    ensures Unanswered(es[..n + 1], request) ==
      Unanswered(es[..n], request) + (if es[n].request == request then [] else [es[n]])
    ensures es[n].request == request ==> Unanswered(es[..n + 1], request) == Unanswered(es[..n], request)
    ensures var t, e := TillAfter(es[..n], request, till), es[n];
      && t.Keys == till.Keys
      && var hit := e.request == request && t[e.page] > 0;
      && TillAfter(es[..n + 1], request, till) == (if hit then t[e.page := 0] else t)
      && failed + Settled(es[..n + 1], request, till)
           == (if hit then failed + Settled(es[..n], request, till) + {e.page}
                  else failed + Settled(es[..n], request, till))
  {
    SettledNext(es, n, request, till);
    assert es[..n + 1][..n] == es[..n];
    hide Settled;
  }

  /** Adding a page to the map: nothing changes if it is there. */
  function Emplaced(es: seq<Entry>, page: Page): seq<Entry> {
    if es == [] || page < es[0].page then [Entry(page, 0)] + es
    else if es[0].page == page then es
    else [es[0]] + Emplaced(es[1..], page)
  }

  lemma SortedCons(e: Entry, rest: seq<Entry>)
    ensures Sorted([e] + rest) <==> Sorted(rest) && forall x :: x in rest ==> e.page < x.page
    ensures forall x :: x in [e] + rest <==> x == e || x in rest
  {
    var es := [e] + rest;
    if Sorted(es) {
      forall i, j | 0 <= i < j < |rest| ensures rest[i].page < rest[j].page {
        assert es[i + 1] == rest[i] && es[j + 1] == rest[j];
      }
      forall x | x in rest ensures e.page < x.page {
        var k :| 0 <= k < |rest| && rest[k] == x;
        assert es[0] == e && es[k + 1] == x;
      }
    }
    if Sorted(rest) && forall x :: x in rest ==> e.page < x.page {
      forall i, j | 0 <= i < j < |es| ensures es[i].page < es[j].page {
        assert es[j] == rest[j - 1] && rest[j - 1] in rest && (i > 0 ==> es[i] == rest[i - 1]);
      }
    }
  }

  lemma {:induction false} EmplacedIs(es: seq<Entry>, page: Page)
    requires Sorted(es)
    ensures Sorted(Emplaced(es, page))
    ensures forall e :: e in Emplaced(es, page) <==>
      e in es || (e == Entry(page, 0) && forall other :: other in es ==> other.page != page)
  {
    hide Sorted;
    SortedCons(Entry(page, 0), es);
    if es == [] {
      SortedNone();
    } else {
      var rest := es[1..];
      assert es == [es[0]] + rest;
      SortedCons(es[0], rest);
      if page < es[0].page {
        assert Emplaced(es, page) == [Entry(page, 0)] + es;
      } else if es[0].page < page {
        EmplacedIs(rest, page);
        SortedCons(es[0], Emplaced(rest, page));
      }
    }
  }

  lemma SortedNone()
    ensures Sorted([])
  {}

  lemma {:induction false} EmplacedAt(es: seq<Entry>, page: Page, i: nat)
    requires i <= |es| && forall j :: 0 <= j < i ==> es[j].page < page
    ensures i < |es| && es[i].page == page ==> Emplaced(es, page) == es
    ensures i == |es| || page < es[i].page ==> Emplaced(es, page) == es[..i] + [Entry(page, 0)] + es[i..]
  {
    if i > 0 {
      EmplacedAt(es[1..], page, i - 1);
      Regroup(es, Entry(page, 0), i);
    } else {
      assert es[..0] + [Entry(page, 0)] + es[0..] == [Entry(page, 0)] + es;
    }
  }

  lemma Regroup(es: seq<Entry>, e: Entry, i: nat)
    requires 0 < i <= |es|
    ensures [es[0]] + (es[1..][..i - 1] + [e] + es[1..][i - 1..]) == es[..i] + [e] + es[i..]
    ensures [es[0]] + es[1..] == es
  {
    assert es[..i] == [es[0]] + es[1..][..i - 1] && es[i..] == es[1..][i - 1..];
  }

  function Without(es: seq<Entry>, page: Page): seq<Entry> {
    if es == [] then [] else Without(es[..|es| - 1], page) + (if es[|es| - 1].page == page then [] else [es[|es| - 1]])
  }

  lemma {:induction false} WithoutIs(es: seq<Entry>, page: Page)
    requires Sorted(es)
    ensures Sorted(Without(es, page)) && forall e :: e in Without(es, page) <==> e in es && e.page != page
  {
    if es != [] {
      WithoutIs(es[..|es| - 1], page);
      assert es == es[..|es| - 1] + [es[|es| - 1]];
      assert forall e :: e in es[..|es| - 1] ==> e.page < es[|es| - 1].page;
    }
  }

  lemma {:induction false} WithoutAbsent(es: seq<Entry>, page: Page)
    requires forall e :: e in es ==> e.page != page
    ensures Without(es, page) == es
  {
    if es != [] {
      WithoutAbsent(es[..|es| - 1], page);
    }
  }

  lemma {:induction false} WithoutAt(es: seq<Entry>, page: Page, i: nat)
    requires Sorted(es) && i < |es| && es[i].page == page
    ensures Without(es, page) == es[..i] + es[i + 1..]
  {
    var n := |es| - 1;
    var init := es[..n];
    if i < n {
      assert es[i].page < es[n].page;
      WithoutAt(init, page, i);
      assert init[..i] == es[..i] && init[i + 1..] + [es[n]] == es[i + 1..];
      hide Sorted, Without;
      Associates(es[..i], init[i + 1..], [es[n]]);
    } else {
      WithoutAbsent(init, page);
    }
  }

  lemma Associates(a: seq<Entry>, b: seq<Entry>, c: seq<Entry>)
    ensures (a + b) + c == a + (b + c)
  {}

  /** The map keeps its entries by page. */
  ghost predicate Sorted(es: seq<Entry>) {
    forall i, j :: 0 <= i < j < |es| ==> es[i].page < es[j].page
  }

  /** The reply leaves exactly the entries of other requests, still one per page and in order. */
  lemma {:induction false} UnansweredStay(es: seq<Entry>, request: int)
    ensures forall e :: e in Unanswered(es, request) <==> e in es && e.request != request
    ensures Sorted(es) ==> Sorted(Unanswered(es, request))
  {
    if es != [] {
      var init, last := es[..|es| - 1], es[|es| - 1];
      UnansweredStay(init, request);
      assert es == init + [last];
      assert Sorted(es) ==> forall e :: e in init ==> e.page < last.page;
    }
  }

  function Remaining(at: int, clock: int): int { if at > clock then at - clock else 0 }

  /** The timer after a page that is due in `left` milliseconds was added: not later than that page needs it. */
  function DelayedTimer(timer: Option<int>, left: int, clock: int): (t: Option<int>)
    ensures t.Some? && t.value <= clock + (if left < 0 then 0 else left) + 1
    ensures timer.Some? && timer.value > clock ==> t.value <= timer.value + 1
  {
    if timer.None? || left <= Remaining(timer.value, clock) then
      Some(clock + (if left < 0 then 0 else left) + 1) else timer
  }

  class WebPagesPending {
    var entries: seq<Entry> // in the order of the map
    var till: map<Page, int>
    var failed: set<Page>
    var timer: Option<int> // when it fires, in milliseconds
    /** The pages whose message was not found when they were last looked at and due. */
    ghost var missed: set<Page>
    // The network's side.
    var sent: map<RequestId, Request>
    var nextId: RequestId

    /** A page that is not asked for waits for the timer, unless it was due and its message was not found. */
    ghost predicate Valid()
      reads this
    {
      Sound() && forall e :: e in entries && e.request == 0 ==> e.page in missed || timer.Some?
    }

    /** Pages occur once, no temporary id is left over, and every id an entry holds was really sent. */
    ghost predicate Sound()
      reads this
    {
      && nextId > 0
      && Sorted(entries)
      && (forall e :: e in entries ==> e.page in till)
      && (forall e :: e in entries ==> e.request == 0 || (e.request > 0 && e.request in sent))
      && (forall r :: r in sent ==> 0 < r < nextId)
      && (forall page :: page in till ==> till[page] <= INT_MAX)
    }

    constructor ()
      ensures Valid() && entries == []
    {
      entries, till, failed, timer, missed, sent, nextId := [], map[], {}, None, {}, map[], 1;
    }

    method SendRequest(request: Request) returns (id: RequestId)
      modifies this`sent, this`nextId
      ensures id == old(nextId) && nextId == id + 1 && sent == old(sent)[id := request]
    {
      id := nextId;
      sent := sent[id := request];
      nextId := nextId + 1;
    }
  
    /** The body of the first loop. */
    method MarkEntry(i: nat, w: World, ids0: seq<MsgId>, byChannel0: map<Channel, (nat, seq<MsgId>)>, m0: int)
      returns (ids: seq<MsgId>, byChannel: map<Channel, (nat, seq<MsgId>)>, m: int)
      requires i < |entries| && entries[i].page in till && w.till == till
      modifies this`entries
      ensures byChannel == Grouped(byChannel0, old(entries)[i], w)
      ensures ids == ids0 + OwnId(old(entries)[i], w, None)
      ensures entries == old(entries)[i := Entry(old(entries)[i].page, Temporary(old(entries)[i], w, byChannel))]
      ensures m == SoonerOf(m0, old(entries)[i], w)
    {
      ids, byChannel, m := ids0, byChannel0, m0;
      var page, requestId := entries[i].page, entries[i].request;
      if requestId > 0 { return; }
      if till[page] <= w.now {
        if page in w.items {
          var item := w.items[page];
          if item.channel.Some? {
            var c := item.channel.value;
            if c !in byChannel {
              byChannel := byChannel[c := (|byChannel|, [item.id])];
            } else {
              byChannel := byChannel[c := (byChannel[c].0, byChannel[c].1 + [item.id])];
            }
            entries := entries[i := Entry(page, -2 - byChannel[c].0 as int)];
          } else {
            ids := ids + [item.id];
            entries := entries[i := Entry(page, -1)];
          }
        }
      } else if till[page] - w.now < m {
        m := till[page] - w.now;
      }
    }

    /** The first loop: marks each due entry with the temporary id of its channel. */
    method MarkDue(w: World) returns (ids: seq<MsgId>, byChannel: map<Channel, (nat, seq<MsgId>)>, m: int)
      requires Known(entries, w) && w.till == till
      modifies this`entries
      ensures |entries| == |old(entries)|
      ensures ids == IdsFor(old(entries), w, None) && byChannel == Groups(old(entries), w)
      ensures forall i :: 0 <= i < |entries| ==>
        entries[i] == Entry(old(entries)[i].page, Temporary(old(entries)[i], w, byChannel))
      ensures m == Soonest(old(entries), w)
    {
      hide Temporary, Grouped, SoonerOf, OwnId, Groups, IdsFor, Soonest, Marks;
      NoFolds(w);
      ids, byChannel, m := [], map[], INT_MAX;
      var i := 0;
      ghost var es := entries;
      assert es[..0] == [];
      while i < |entries|
        invariant 0 <= i <= |entries| == |es| && Known(es[..i], w)
        invariant forall j :: 0 <= j < i ==> entries[j] == Entry(es[j].page, Marks(es[..i], w)[j])
        invariant forall j :: i <= j < |es| ==> entries[j] == es[j]
        invariant ids == IdsFor(es[..i], w, None) && byChannel == Groups(es[..i], w) && m == Soonest(es[..i], w)
      {
        FoldsStep(es, w, i);
        ids, byChannel, m := MarkEntry(i, w, ids, byChannel, m);
        i := i + 1;
      }
      assert es[..i] == es;
      forall j | 0 <= j < |es| { MarksAreTemporary(es, w, j); }
    }

    /** One request for every channel with due pages. */
    method AskChannels(byChannel: map<Channel, (nat, seq<MsgId>)>) returns (byIndex: seq<RequestId>)
      requires forall r :: r in sent ==> r < nextId
      requires Numbered(byChannel)
      modifies this`sent, this`nextId
      ensures |byIndex| == |byChannel| && nextId >= old(nextId)
      ensures forall r :: r in sent ==> r < nextId
      ensures forall r :: r in old(sent) ==> r in sent && sent[r] == old(sent)[r]
      ensures forall c :: c in byChannel ==>
        var r := byIndex[byChannel[c].0];
        old(nextId) <= r && r in sent && sent[r] == GetMessages(Some(c), byChannel[c].1)
      ensures forall r :: r in sent && r !in old(sent) ==>
        old(nextId) <= r && sent[r].channel.Some? && sent[r].channel.value in byChannel
        && byIndex[byChannel[sent[r].channel.value].0] == r
    {
      byIndex := seq(|byChannel|, _ => 0);
      var left := byChannel.Keys;
      ghost var sent0, first := sent, nextId;
      NoneAsked(byChannel, byIndex, sent0, first);
      while left != {}
        invariant left <= byChannel.Keys && nextId >= first
        invariant forall r :: r in sent ==> r < nextId
        invariant forall r :: r in sent0 ==> r in sent && sent[r] == sent0[r]
        invariant AskedBut(byChannel, left, byIndex, sent0, sent, first)
        decreases left
      {
        hide AskedBut, Numbered;
        var c :| c in left;
        AskedOne(byChannel, left, byIndex, sent0, sent, first, c, nextId);
        var r := SendRequest(GetMessages(Some(c), byChannel[c].1));
        byIndex := byIndex[byChannel[c].0 := r];
        left := left - {c};
      }
    }

    /** The last loop: every temporary id becomes the id of the request sent for it. */
    method WriteBack(requestId: RequestId, byIndex: seq<RequestId>)
      requires forall e :: e in entries ==> -|byIndex| - 2 < e.request
      modifies this`entries
      ensures |entries| == |old(entries)|
      ensures forall i :: 0 <= i < |entries| ==>
        entries[i] == Entry(old(entries)[i].page, Written(old(entries)[i].request, requestId, byIndex))
    {
      var i := 0;
      ghost var es := entries;
      while i < |entries|
        invariant 0 <= i <= |entries| == |es|
        invariant forall j :: 0 <= j < i ==> entries[j] == Entry(es[j].page, Written(es[j].request, requestId, byIndex))
        invariant forall j :: i <= j < |es| ==> entries[j] == es[j]
      {
        var e := entries[i];
        assert e == es[i] && es[i] in es;
        if e.request < 0 {
          if e.request == -1 {
            entries := entries[i := Entry(e.page, requestId)];
          } else {
            entries := entries[i := Entry(e.page, byIndex[-e.request - 2])];
          }
        }
        i := i + 1;
      }
    }

    /** The requests between the two loops. */
    method Ask(ghost es: seq<Entry>, ghost w: World, ids: seq<MsgId>, byChannel: map<Channel, (nat, seq<MsgId>)>)
      returns (requestId: RequestId, byIndex: seq<RequestId>, ghost sent1: map<RequestId, Request>)
      requires Known(es, w) && ids == IdsFor(es, w, None) && byChannel == Groups(es, w)
      requires nextId > 0 && forall r :: r in sent ==> 0 < r < nextId
      modifies this`sent, this`nextId
      ensures Asked(es, w, requestId, byIndex, old(sent), sent1, sent, old(nextId))
      ensures nextId > 0 && forall r :: r in sent ==> 0 < r < nextId
      ensures |byIndex| == |byChannel| && (requestId == 0 ==> ids == [])
    {
      hide Groups, IdsFor;
      GroupsHoldIds(es, w);
      requestId := 0;
      if ids != [] {
        requestId := SendRequest(GetMessages(None, ids));
      }
      sent1 := sent;
      byIndex := AskChannels(byChannel);
    }

    /** The guard around the last loop: without a request there is no temporary id either. */
    method FinishResolve(w: World, ghost es: seq<Entry>, requestId: RequestId, byIndex: seq<RequestId>,
                         byChannel: map<Channel, (nat, seq<MsgId>)>)
      requires Known(es, w) && byChannel == Groups(es, w) && |byIndex| == |byChannel| && |entries| == |es|
      requires forall i :: 0 <= i < |es| ==> entries[i] == Entry(es[i].page, Temporary(es[i], w, byChannel))
      requires forall e :: e in es ==> e.request >= 0
      requires requestId == 0 ==> IdsFor(es, w, None) == []
      modifies this`entries
      ensures |entries| == |es|
      ensures forall i :: 0 <= i < |es| ==>
        entries[i] == Entry(es[i].page, Written(Temporary(es[i], w, byChannel), requestId, byIndex))
    {
      hide Groups, IdsFor, Temporary;
      forall i | 0 <= i < |es|
        ensures -2 - |byIndex| < entries[i].request
        ensures requestId == 0 && byIndex == [] ==> entries[i].request >= 0
      {
        assert es[i] in es;
        TemporaryRange(es, w, i);
      }
      if requestId != 0 || byIndex != [] {
        WriteBack(requestId, byIndex);
      }
    }

    /** `resolveWebPages` up to the timer. */
    method Resolve(w: World) returns (m: int)
      requires Sound() && w.till == till
      modifies this`entries, this`sent, this`nextId
      ensures Sound() && old(nextId) > 0
      ensures Known(old(entries), w) && Resolved(old(entries), entries, w, old(sent), sent, old(nextId))
      ensures m == Soonest(old(entries), w)
    {
      hide Groups, IdsFor, Resolved, Temporary, Written, Soonest, Asked;
      ghost var es := entries;
      ghost var sent0, next := sent, nextId;
      var ids, byChannel;
      ids, byChannel, m := MarkDue(w);
      var requestId, byIndex, sent1 := Ask(es, w, ids, byChannel);
      FinishResolve(w, es, requestId, byIndex, byChannel);
      WrittenResolves(es, entries, w, requestId, byIndex, sent0, sent1, sent, next);
      ResolvedStaysValid(es, entries, w, sent0, sent, next);
    }

    /** `resolveWebPages`, when the timer fires: `clock` is the time in milliseconds. */
    method ResolveWebPages(w: World, clock: int)
      requires Valid() && w.till == till && w.now > 0
      modifies this`entries, this`sent, this`nextId, this`timer, this`missed
      ensures Valid()
      ensures Known(old(entries), w) && Resolved(old(entries), entries, w, old(sent), sent, old(nextId))
      ensures timer == if Soonest(old(entries), w) == INT_MAX then None
                       else Some(clock + 1000 * if Soonest(old(entries), w) < 86400 then
                              Soonest(old(entries), w) else 86400)
      ensures missed == NotFound(old(entries), w)
    {
      hide Resolved, Soonest, NotFound;
      ghost var es, sent0, next := entries, sent, nextId;
      timer := None;
      var m := Resolve(w);
      SoonestIs(es, w);
      if m < INT_MAX {
        timer := Some(clock + 1000 * if m < 86400 then m else 86400);
      }
      missed := NotFound(es, w);
      LeftWaiting(es, entries, w, sent0, sent, next);
    }

    method EraseEntry(i: nat, ghost kept: seq<Entry>, ghost e: Entry, ghost rest: seq<Entry>)
      requires i == |kept| && entries == kept + ([e] + rest)
      modifies this`entries
      ensures entries == kept + rest
    {
      EraseOrKeep(kept, e, rest);
      entries := entries[..i] + entries[i + 1..];
    }

    /** A page that is still pending fails. */
    method Settle(page: Page)
      requires page in till
      modifies this`till, this`failed
      ensures till == if old(till)[page] > 0 then old(till)[page := 0] else old(till)
      ensures failed == if old(till)[page] > 0 then old(failed) + {page} else old(failed)
    {
      if till[page] > 0 {
        till := till[page := 0];
        failed := failed + {page};
      }
    }

    /** The body of the loop: the entry goes, or the next one is looked at. */
    method AnswerOne(i: nat, request: RequestId, ghost kept: seq<Entry>, ghost es: seq<Entry>, ghost done: nat)
      returns (next: nat)
      requires done < |es| && i == |kept| && entries == kept + es[done..] && es[done].page in till
      modifies this`entries, this`till, this`failed
      ensures var hit := es[done].request == request && old(till)[es[done].page] > 0;
        && till == (if hit then old(till)[es[done].page := 0] else old(till))
        && failed == (if hit then old(failed) + {es[done].page} else old(failed))
      ensures var kept' := if es[done].request == request then kept else kept + [es[done]];
        next == |kept'| && entries == kept' + es[done + 1..]
    {
      ghost var rest := es[done + 1..];
      assert es[done..] == [es[done]] + rest;
      EraseOrKeep(kept, es[done], rest);
      var e := entries[i];
      if e.request == request {
        Settle(e.page);
        EraseEntry(i, kept, e, rest);
        next := i;
      } else {
        next := i + 1;
      }
    }

    /** The loop of `gotWebPages`. */
    method Answer(request: RequestId)
      requires forall e :: e in entries ==> e.page in till
      modifies this`entries, this`till, this`failed
      ensures entries == Unanswered(old(entries), request)
      ensures till == TillAfter(old(entries), request, old(till))
      ensures failed == old(failed) + Settled(old(entries), request, old(till))
    {
      hide Unanswered, TillAfter, Settled;
      var i := 0;
      ghost var es, till0, failed0, done := entries, till, failed, 0;
      AnswerStart(es, request, till0);
      assert es[0..] == es && [] + es == es;
      while i < |entries|
        invariant 0 <= done <= |es| && i == |Unanswered(es[..done], request)|
        invariant entries == Unanswered(es[..done], request) + es[done..]
        invariant till == TillAfter(es[..done], request, till0) && till.Keys == till0.Keys
        invariant failed == failed0 + Settled(es[..done], request, till0)
        decreases |es| - done
      {
        assert es[done] in es;
        AnswerNext(es, done, request, till0, failed0);
        i := AnswerOne(i, request, Unanswered(es[..done], request), es, done);
        done := done + 1;
      }
      assert es[..done] == es && es[done..] == [];
    }

    /** `gotWebPages`: the reply settles exactly the pages that wait for its request; those still pending fail. */
    method GotWebPages(request: RequestId)
      requires Valid() && request in sent
      modifies this`entries, this`till, this`failed
      ensures Valid()
      ensures entries == Unanswered(old(entries), request)
      ensures till == TillAfter(old(entries), request, old(till))
      ensures failed == old(failed) + Settled(old(entries), request, old(till))
    {
      ghost var es := entries;
      Answer(request);
      UnansweredStay(es, request);
    }

    method Emplace(page: Page)
      modifies this`entries
      ensures entries == Emplaced(old(entries), page)
    {
      hide Emplaced;
      var i := 0;
      while i < |entries| && entries[i].page < page
        invariant 0 <= i <= |entries| && forall j :: 0 <= j < i ==> entries[j].page < page
        invariant entries == old(entries)
      {
        i := i + 1;
      }
      EmplacedAt(entries, page, i);
      if i == |entries| || entries[i].page != page {
        entries := entries[..i] + [Entry(page, 0)] + entries[i..];
      }
    }

    /** `requestWebPageDelayed`: a page that is not in the map is added without a request, and the timer fires when it
        is due, unless it fires before that. */
    method RequestWebPageDelayed(page: Page, now: int, clock: int)
      requires Valid() && page in till
      modifies this`entries, this`timer
      ensures Valid()
      ensures page in failed || till[page] == 0 ==> entries == old(entries) && timer == old(timer)
      ensures page !in failed && till[page] != 0 ==>
        && entries == Emplaced(old(entries), page)
        && timer == DelayedTimer(old(timer), 1000 * (till[page] - now), clock)
    {
      hide Emplaced, Sorted;
      if page in failed || till[page] == 0 { return; }
      EmplacedIs(entries, page);
      Emplace(page);
      var left := 1000 * (till[page] - now);
      if timer.None? || left <= Remaining(timer.value, clock) {
        timer := Some(clock + (if left < 0 then 0 else left) + 1);
      }
    }

    method Remove(page: Page)
      requires Sorted(entries)
      modifies this`entries
      ensures entries == Without(old(entries), page)
    {
      hide Without;
      var i := 0;
      while i < |entries| && entries[i].page != page
        invariant 0 <= i <= |entries| && forall j :: 0 <= j < i ==> entries[j].page != page
        invariant entries == old(entries)
      {
        i := i + 1;
      }
      if i == |entries| {
        WithoutAbsent(entries, page);
      } else {
        WithoutAt(entries, page, i);
        entries := entries[..i] + entries[i + 1..];
      }
    }

    /** `clearWebPageRequest`: the page is taken out of the map, and without any left the timer is stopped. */
    method ClearWebPageRequest(page: Page)
      requires Valid()
      modifies this`entries, this`timer
      ensures Valid()
      ensures entries == Without(old(entries), page) && timer == if entries == [] then None else old(timer)
    {
      hide Without, Sorted;
      WithoutIs(entries, page);
      Remove(page);
      if entries == [] && timer.Some? {
        timer := None;
      }
    }

    /** `clearWebPageRequests`. */
    method ClearWebPageRequests()
      requires Valid()
      modifies this`entries, this`timer
      ensures Valid() && entries == [] && timer.None?
    {
      entries := [];
      timer := None;
    }

    /** What a new version of a page does to its request (`WebPageData::applyChanges`, `webpageApplyFields`). */
    method ApplyPendingTill(page: Page, pendingTill: int, now: int, clock: int)
      requires Valid() && 0 <= pendingTill <= INT_MAX
      modifies this`entries, this`timer, this`till
      ensures Valid() && till == old(till)[page := pendingTill]
      ensures var was := if page in old(till) then old(till)[page] else 0;
        if was > 0 && pendingTill == 0 then
          entries == Without(old(entries), page) && timer == if entries == [] then None else old(timer)
        else if was == 0 && pendingTill > 0 && page !in failed then
          entries == Emplaced(old(entries), page)
          && timer == DelayedTimer(old(timer), 1000 * (pendingTill - now), clock)
        else entries == old(entries) && timer == old(timer)
    {
      var requestPending := (page in till ==> till[page] == 0) && pendingTill > 0;
      if page in till && till[page] > 0 && pendingTill <= 0 {
        ClearWebPageRequest(page);
      }
      till := till[page := pendingTill];
      if requestPending {
        RequestWebPageDelayed(page, now, clock);
      }
    }
  }
}
