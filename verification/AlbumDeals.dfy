/** What goes out with an album: at its price, in its kind, with the media uploaded for each of its parts. */
module AlbumDeals {
  import opened Wrappers
  import opened Albums

  /** What the steps themselves say: the price of what was created, the album and the place there of every message, the
      media that arrived, and the albums that went out when they were found to answer an ephemeral message. */
  datatype Told = Told(prices: map<Group, nat>, owner: map<Msg, Group>, place: map<Msg, nat>, media: map<Msg, Media>,
                       answers: set<Group>)

  datatype Trace = Trace(state: State, told: Told)

  predicate LooksEphemeral(step: Step) {
    (step.Uploaded? && step.w.ephemeral) || (step.Cancel? && step.w.ephemeral)
  }

  ghost function Heard(told: Told, s: State, step: Step, s': State): Told {
    match step
    case Create(g, msgs, price) =>
      told.(prices := told.prices[g := price],
            owner := map m | m in told.owner.Keys + (set n | n in msgs) :: if m in msgs then g else told.owner[m],
            place := map m | m in told.place.Keys + (set n | n in msgs) ::
                       if m in msgs then PlaceIn(msgs, m) else told.place[m])
    case Uploaded(msg, media, w) =>
      told.(media := if msg in s.alive then told.media[msg := media] else told.media,
            answers := told.answers + if w.ephemeral then NewGroups(s.log, s'.log) else {})
    case Cancel(_, w) => told.(answers := told.answers + if w.ephemeral then NewGroups(s.log, s'.log) else {})
    case _ => told
  }

  function PlaceIn(msgs: seq<Msg>, m: Msg): nat {
    if msgs == [] || msgs[0] == m then 0 else 1 + PlaceIn(msgs[1..], m)
  }

  lemma {:induction false} PlaceIs(msgs: seq<Msg>, i: nat)
    requires i < |msgs| && forall j, k :: 0 <= j < k < |msgs| ==> msgs[j] != msgs[k]
    ensures PlaceIn(msgs, msgs[i]) == i
  {
    if i > 0 { PlaceIs(msgs[1..], i - 1); }
  }

  ghost function NewGroups(log: seq<Sending>, log': seq<Sending>): set<Group> {
    set i | |log| <= i < |log'| :: log'[i].group
  }

  ghost function Record(t: Trace, step: Step): Trace
    requires Enabled(t.state, step) && AssertsHold(t.state, step)
  {
    var s' := Next(t.state, step);
    Trace(s', Heard(t.told, t.state, step, s'))
  }

  const START := Trace(INITIAL, Told(map[], map[], map[], map[], {}))

  /** The parts are the album's, each with its own media. */
  ghost predicate OwnParts(told: Told, g: Group, parts: seq<Part>) {
    forall part :: part in parts ==>
      && part.msg in told.owner && told.owner[part.msg] == g
      && (part.media.Some? ==> part.msg in told.media && part.media.value == told.media[part.msg])
  }

  /** In the order they were put in. */
  ghost predicate Ordered(told: Told, parts: seq<Part>) {
    && (forall part :: part in parts ==> part.msg in told.place)
    && forall i, j :: 0 <= i < j < |parts| ==> told.place[parts[i].msg] < told.place[parts[j].msg]
  }

  lemma {:induction false} RemovedOrdered(told: Told, items: seq<Part>, msg: Msg)
    requires Ordered(told, items)
    ensures Ordered(told, Removed(items, msg)) && forall part :: part in Removed(items, msg) ==> part in items
  {
    if items != [] {
      assert items == [items[0]] + items[1..];
      OrderedParts(told, items[0], items[1..]);
      if items[0].msg != msg {
        RemovedOrdered(told, items[1..], msg);
        OrderedParts(told, items[0], Removed(items[1..], msg));
      }
    }
  }

  lemma OrderedParts(told: Told, first: Part, rest: seq<Part>)
    ensures Ordered(told, [first] + rest) <==>
      && Ordered(told, rest) && first.msg in told.place
      && forall part :: part in rest ==> told.place[first.msg] < told.place[part.msg]
  {
    var all := [first] + rest;
    assert forall i :: 0 <= i < |rest| ==> all[i + 1] == rest[i];
    if Ordered(told, all) {
      forall i, j | 0 <= i < j < |rest| ensures told.place[rest[i].msg] < told.place[rest[j].msg] {
        assert all[i + 1] == rest[i] && all[j + 1] == rest[j];
      }
      assert all[0] == first;
      forall part | part in rest ensures part.msg in told.place && told.place[first.msg] < told.place[part.msg] {
        var i :| 0 <= i < |rest| && rest[i] == part;
        assert all[i + 1] == part;
      }
    }
  }

  lemma {:induction false} ExistingOrdered(told: Told, items: seq<Part>, alive: set<Msg>)
    requires Ordered(told, items)
    ensures Ordered(told, Existing(items, alive))
  {
    if items != [] {
      var init, last := items[..|items| - 1], items[|items| - 1];
      ExistingOrdered(told, init, alive);
      ExistingIs(init, alive);
      forall part | part in Existing(init, alive) ensures told.place[part.msg] < told.place[last.msg] {
        var i :| 0 <= i < |init| && init[i] == part;
      }
    }
  }

  /** An album answering an ephemeral message is sent as such; any other goes at its price, if it has one, and else as
      a single or a multiple sending as it has one part or more. */
  ghost predicate Proper(told: Told, sending: Sending) {
    && sending.group in told.prices && OwnParts(told, sending.group, sending.parts) && Ordered(told, sending.parts)
    && (sending.kind == Ephemeral <==> sending.group in told.answers)
    && (sending.kind == Paid <==> sending.group !in told.answers && told.prices[sending.group] > 0)
    && (sending.kind == Single <==>
          sending.group !in told.answers && told.prices[sending.group] == 0 && |sending.parts| == 1)
    && (sending.kind == Multi <==>
          sending.group !in told.answers && told.prices[sending.group] == 0 && |sending.parts| >= 2)
    && sending.sample.Some? && sending.sample.value in Msgs(sending.parts)
  }

  ghost predicate Uploads(told: Told, s: State) {
    && told.owner == s.groupOf && told.place.Keys == s.groupOf.Keys && told.media.Keys <= s.groupOf.Keys
    && told.prices.Keys == s.used
    && (forall m :: m in s.loading || m in s.uploading ==> m !in told.media)
    && told.answers <= s.used
  }

  ghost predicate Priced(told: Told, s: State) {
    forall g :: g in s.albums ==>
      && g in told.prices && s.albums[g].price == told.prices[g] && g !in told.answers
      && OwnParts(told, g, s.albums[g].items) && Ordered(told, s.albums[g].items)
  }

  ghost predicate LogProper(told: Told, log: seq<Sending>) {
    forall sending :: sending in log ==> Proper(told, sending)
  }

  ghost predicate RequestsReplied(s: State) {
    forall id :: id in s.inFlight ==> s.inFlight[id].kind == Paid || s.inFlight[id].kind == Multi
  }

  ghost predicate Deals(t: Trace) {
    Uploads(t.told, t.state) && Priced(t.told, t.state) && LogProper(t.told, t.state.log) && RequestsReplied(t.state)
  }

  // ---- Looking at an album ----

  /** The sending that a look at a complete album makes. */
  lemma LookSends(s: State, g: Group, w: World, told: Told)
    requires g in s.albums && !s.albums[g].sent && Priced(told, s) && !InLog(s, g)
    requires Ready(s, g, w).log != s.log
    ensures var r := Ready(s, g, w);
      && |r.log| == |s.log| + 1 && r.log == s.log + [r.log[|s.log|]] && r.log[|s.log|].group == g
      && Proper(told.(answers := told.answers + if w.ephemeral then {g} else {}), r.log[|s.log|])
  {
    hide InLog, Msgs, Existing, Ordered, OwnParts, Sample;
    var items, more := s.albums[g].items, told.(answers := told.answers + if w.ephemeral then {g} else {});
    ExistingIs(items, s.alive);
    SampleIsPart(items, s.alive);
    ExistingOrdered(told, items, s.alive);
    SameOrder(told, more);
    FewerParts(told, more, g, items, items);
    FewerParts(told, more, g, items, Existing(items, s.alive));
  }

  lemma FewerParts(told: Told, more: Told, g: Group, items: seq<Part>, some: seq<Part>)
    requires OwnParts(told, g, items) && more == told.(answers := more.answers)
    requires forall part :: part in some ==> part in items
    ensures OwnParts(more, g, some)
  {}

  lemma SameOrder(told: Told, more: Told)
    requires more.place == told.place
    ensures forall parts :: Ordered(more, parts) == Ordered(told, parts)
  {}

  lemma SampleIsPart(items: seq<Part>, alive: set<Msg>)
    requires SomeAlive(items, alive)
    ensures var sample := Sample(items, alive);
      && sample.Some? && sample.value in alive
      && sample.value in Msgs(items) && sample.value in Msgs(Existing(items, alive))
  {
    hide Msgs, Existing;
    var part :| part in items && part.msg in alive;
    ExistingIs(items, alive);
    assert part in Existing(items, alive);
    var first := Existing(items, alive)[0];
    MsgsHave(items, first);
    MsgsHave(Existing(items, alive), first);
  }

  /** What looking at an album leaves. */
  lemma LookLeaves(s: State, g: Group, w: World)
    requires g in s.albums
    ensures var r := Ready(s, g, w);
      && r.loading == s.loading && r.uploading == s.uploading && r.groupOf == s.groupOf && r.used == s.used
      && (forall h :: h in r.albums ==>
            h in s.albums && r.albums[h].price == s.albums[h].price && r.albums[h].items == s.albums[h].items)
      && (r.log != s.log ==> !s.albums[g].sent && (w.ephemeral ==> g !in r.albums))
      && (RequestsReplied(s) ==> RequestsReplied(r))
  {
    hide Existing, Msgs, SomeAlive, Complete, RequestsReplied;
    if RequestsReplied(s) {
      MoreRequested(s, g, Paid);
      MoreRequested(s, g, Multi);
      SameRequests(s);
    }
    hide RequestFor;
  }

  lemma MoreRequested(s: State, g: Group, kind: Kind)
    requires g in s.albums && RequestsReplied(s) && (kind == Paid || kind == Multi)
    ensures RequestsReplied(Requested(s, g, kind))
  {}

  lemma SameRequests(s: State)
    requires RequestsReplied(s)
    ensures forall r: State :: r.inFlight == s.inFlight ==> RequestsReplied(r)
  {}

  lemma SameToldProper(told: Told, more: Told, log: seq<Sending>)
    requires LogProper(told, log)
    requires forall sending :: sending in log ==>
      && sending.group in more.prices && more.prices[sending.group] == told.prices[sending.group]
      && (sending.group in more.answers <==> sending.group in told.answers)
    requires forall m :: m in told.owner ==> m in more.owner && more.owner[m] == told.owner[m]
    requires forall m :: m in told.place ==> m in more.place && more.place[m] == told.place[m]
    requires forall m :: m in told.media ==> m in more.media && more.media[m] == told.media[m]
    ensures LogProper(more, log)
  {
    hide Msgs;
    forall sending | sending in log ensures Proper(more, sending) {
      assert Proper(told, sending);
      StillOrdered(told, more, sending.parts);
      hide Ordered;
    }
  }

  lemma StillOrdered(told: Told, more: Told, parts: seq<Part>)
    requires Ordered(told, parts)
    requires forall m :: m in told.place ==> m in more.place && more.place[m] == told.place[m]
    ensures Ordered(more, parts)
  {}

  lemma LookDeals(s: State, g: Group, w: World, told: Told)
    requires g in s.albums && (s.albums[g].sent || !InLog(s, g))
    requires Deals(Trace(s, told))
    ensures var r := Ready(s, g, w);
      Deals(Trace(r, told.(answers := told.answers + if w.ephemeral then NewGroups(s.log, r.log) else {})))
  {
    hide Ready, Proper, OwnParts, Ordered;
    LookLeaves(s, g, w);
    var r := Ready(s, g, w);
    var news := if w.ephemeral then NewGroups(s.log, r.log) else {};
    var more := told.(answers := told.answers + news);
    if r.log == s.log {
      assert NewGroups(s.log, r.log) == {} && more == told;
    } else {
      LookSends(s, g, w, told);
      assert NewGroups(s.log, r.log) == {g} by { assert r.log[|s.log|].group == g; }
      forall sending | sending in s.log ensures sending.group != g && Proper(told, sending) {
        assert !InLog(s, g);
      }
      hide InLog;
      LogIsPriced(told, s.log);
      SameToldProper(told, more, s.log);
    }
    SameAnswersPriced(s, r, told, more);
  }

  lemma LogIsPriced(told: Told, log: seq<Sending>)
    requires LogProper(told, log)
    ensures forall sending :: sending in log ==> sending.group in told.prices
  {
    hide OwnParts, Msgs;
    forall sending | sending in log ensures sending.group in told.prices { assert Proper(told, sending); }
  }

  lemma SameAnswersPriced(s: State, r: State, told: Told, more: Told)
    requires Priced(told, s) && more == told.(answers := more.answers)
    requires forall h :: h in r.albums ==>
      h !in more.answers && h in s.albums
      && r.albums[h].price == s.albums[h].price && r.albums[h].items == s.albums[h].items
    ensures Priced(more, r)
  {
    SameOrder(told, more);
    hide Ordered;
  }

  // ---- The steps ----

  lemma CreateDeals(t: Trace, step: Step)
    requires Inv(t.state) && Deals(t) && step.Create? && Enabled(t.state, step)
    ensures Deals(Record(t, step))
  {
    hide Proper, Kept, Once, Unsent, Unpaid, Ordered, OwnParts, Priced, Members;
    var s, told := t.state, t.told;
    var r := AfterCreated(s, step.g, step.msgs, step.price);
    var more := Heard(told, s, step, r);
    NewAlbumPriced(t, step);
    NewAlbumUploads(t, step);
    assert Record(t, step) == Trace(r, more);
    LogIsPriced(told, s.log);
    hide Uploads;
    NewAlbumTold(t, step);
    SameToldProper(told, more, s.log);
  }

  lemma NewAlbumUploads(t: Trace, step: Step)
    requires Members(t.state) && Kept(t.state) && Uploads(t.told, t.state) && step.Create? && Enabled(t.state, step)
    ensures var r := AfterCreated(t.state, step.g, step.msgs, step.price);
      Uploads(Heard(t.told, t.state, step, r), r)
  {
    hide Kept;
  }

  lemma NewAlbumTold(t: Trace, step: Step)
    requires Uploads(t.told, t.state) && step.Create? && Enabled(t.state, step)
    ensures var told, more := t.told,
                              Heard(t.told, t.state, step, AfterCreated(t.state, step.g, step.msgs, step.price));
      && step.g !in told.prices && more.answers == told.answers
      && (forall g :: g in told.prices ==> g in more.prices && more.prices[g] == told.prices[g])
      && (forall m :: m in told.owner ==> m in more.owner && more.owner[m] == told.owner[m])
      && (forall m :: m in told.place ==> m in more.place && more.place[m] == told.place[m])
      && (forall m :: m in told.media ==> m in more.media && more.media[m] == told.media[m])
  {}

  lemma NewAlbumPriced(t: Trace, step: Step)
    requires Members(t.state) && Uploads(t.told, t.state) && Priced(t.told, t.state)
    requires step.Create? && Enabled(t.state, step)
    ensures var r := AfterCreated(t.state, step.g, step.msgs, step.price);
      Priced(Heard(t.told, t.state, step, r), r)
  {
    var s, told := t.state, t.told;
    var r := AfterCreated(s, step.g, step.msgs, step.price);
    var more := Heard(told, s, step, r);
    forall h | h in r.albums ensures OwnParts(more, h, r.albums[h].items) {
      if h != step.g { assert OwnParts(told, h, s.albums[h].items); }
    }
    forall h | h in r.albums ensures Ordered(more, r.albums[h].items) {
      if h != step.g {
        StillOrdered(told, more, s.albums[h].items);
      } else {
        var items := r.albums[h].items;
        forall i | 0 <= i < |items| ensures more.place[items[i].msg] == i { PlaceIs(step.msgs, i); }
      }
    }
  }

  /** Parts go, or albums, and nothing is sent. */
  lemma FewerDeals(s: State, r: State, told: Told)
    requires Deals(Trace(s, told)) && r.log == s.log && r.groupOf == s.groupOf && r.used == s.used
    requires forall m :: m in r.loading || m in r.uploading ==> m in s.loading || m in s.uploading
    requires forall g :: g in r.albums ==> g in s.albums && r.albums[g].price == s.albums[g].price
    requires forall g, part :: g in r.albums && part in r.albums[g].items ==> part in s.albums[g].items
    requires forall g :: g in r.albums ==> Ordered(told, r.albums[g].items)
    requires forall id :: id in r.inFlight ==> id in s.inFlight && r.inFlight[id] == s.inFlight[id]
    ensures Deals(Trace(r, told))
  {
    hide Proper, Ordered;
    forall g | g in r.albums ensures OwnParts(told, g, r.albums[g].items) {
      assert OwnParts(told, g, s.albums[g].items);
    }
  }

  lemma NothingNew(told: Told, log: seq<Sending>)
    ensures NewGroups(log, log) == {} && told.(answers := told.answers + NewGroups(log, log)) == told
    ensures told.(answers := told.answers + {}) == told
  {
    assert told.answers + {} == told.answers;
    assert told.answers + NewGroups(log, log) == told.answers;
  }

  lemma UploadDeals(t: Trace, step: Step)
    requires Inv(t.state) && Deals(t) && step.Uploaded? && Enabled(t.state, step) && AssertsHold(t.state, step)
    ensures Deals(Record(t, step))
  {
    hide Ready, Proper, Filled, Ordered;
    var s, told, msg, media := t.state, t.told, step.msg, step.media;
    if msg in s.alive {
      var g := s.groupOf[msg];
      var s1 := WithItems(UploadEnded(s, msg), g, Filled(s.albums[g].items, msg, media));
      FillKeeps(s, msg, media);
      FillDeals(s, msg, media, told);
      assert s1.albums[g].sent || !InLog(s1, g);
      hide Inv, InLog, Deals, AwaitsMedia;
      LookDeals(s1, g, step.w, told.(media := told.media[msg := media]));
    } else {
      NothingNew(told, s.log);
      assert Record(t, step) == Trace(UploadEnded(s, msg), told);
      hide Inv, Record;
      FewerDeals(s, UploadEnded(s, msg), told);
    }
  }

  lemma FillDeals(s: State, msg: Msg, media: Media, told: Told)
    requires Inv(s) && Deals(Trace(s, told)) && msg in s.uploading && AwaitsMedia(s, msg)
    ensures var g := s.groupOf[msg];
      Deals(Trace(WithItems(UploadEnded(s, msg), g, Filled(s.albums[g].items, msg, media)),
                  told.(media := told.media[msg := media])))
  {
    hide Proper, Filled, Once, Unsent, Unpaid, Ordered, OwnParts;
    var g := s.groupOf[msg];
    var items, filled := s.albums[g].items, Filled(s.albums[g].items, msg, media);
    var more := told.(media := told.media[msg := media]);
    assert msg !in s.loading && msg !in told.media && DistinctMsgs(items);
    hide Kept, Members;
    LogIsPriced(told, s.log);
    SameToldProper(told, more, s.log);
    hide LogProper;
    FilledOrdered(told, more, items, msg, media);
    SameOrder(told, more);
    FilledOwn(told, g, items, msg, media);
    forall h | h in s.albums ensures OwnParts(more, h, s.albums[h].items) {
      MoreMedia(told, more, h, s.albums[h].items);
    }
  }

  lemma MoreMedia(told: Told, more: Told, g: Group, parts: seq<Part>)
    requires OwnParts(told, g, parts) && more == told.(media := more.media)
    requires forall m :: m in told.media ==> m in more.media && more.media[m] == told.media[m]
    ensures OwnParts(more, g, parts)
  {}

  lemma FilledOwn(told: Told, g: Group, items: seq<Part>, msg: Msg, media: Media)
    requires OwnParts(told, g, items) && msg !in told.media && DistinctMsgs(items)
    ensures OwnParts(told.(media := told.media[msg := media]), g, Filled(items, msg, media))
  {
    var more, filled := told.(media := told.media[msg := media]), Filled(items, msg, media);
    FilledIs(items, msg, media);
    hide Filled;
    forall part | part in filled
      ensures part.msg in more.owner && more.owner[part.msg] == g
      ensures part.media.Some? ==> part.msg in more.media && part.media.value == more.media[part.msg]
    {
      var i :| 0 <= i < |filled| && filled[i] == part;
      assert items[i] in items;
    }
  }

  lemma FilledOrdered(told: Told, more: Told, items: seq<Part>, msg: Msg, media: Media)
    requires Ordered(told, items) && more.place == told.place
    ensures Ordered(more, Filled(items, msg, media))
  {
    FilledIs(items, msg, media);
    hide Filled;
    var filled := Filled(items, msg, media);
    forall part | part in filled ensures part.msg in more.place {
      var i :| 0 <= i < |filled| && filled[i] == part;
      assert items[i] in items;
    }
  }

  lemma CancelDeals(t: Trace, step: Step)
    requires Inv(t.state) && Deals(t) && step.Cancel? && Enabled(t.state, step) && AssertsHold(t.state, step)
    ensures Deals(Record(t, step))
  {
    hide Ready, Proper, Removed, Msgs, Ordered;
    var s, told, msg := t.state, t.told, step.msg;
    var g := s.groupOf[msg];
    if g in s.albums {
      var s1 := WithItems(Vanished(s, msg), g, Removed(s.albums[g].items, msg));
      RemoveKeeps(s, msg, Vanished(s, msg));
      RemovedOrdered(told, s.albums[g].items, msg);
      FewerDeals(s, s1, told);
      assert s1.albums[g].sent || !InLog(s1, g);
      hide Inv, InLog, Deals;
      LookDeals(s1, g, step.w, told);
    } else {
      NothingNew(told, s.log);
      assert Record(t, step) == Trace(Vanished(s, msg), told);
      hide Inv, Record;
      FewerDeals(s, Vanished(s, msg), told);
    }
  }

  lemma PricedOrder(t: Trace, g: Group)
    requires Deals(t) && g in t.state.albums
    ensures Ordered(t.told, t.state.albums[g].items)
  {}

  lemma QuietDeals(t: Trace, step: Step)
    requires Inv(t.state) && Deals(t) && Enabled(t.state, step) && AssertsHold(t.state, step)
    requires !step.Create? && !step.Uploaded? && !step.Cancel?
    ensures Deals(Record(t, step))
  {
    hide Removed, Msgs, Kept, Once, Unsent, Unpaid, Deals, Ordered;
    var s, r := t.state, Next(t.state, step);
    assert Record(t, step) == Trace(r, t.told);
    hide Record;
    if step.LoadFailed? {
      PricedOrder(t, s.groupOf[step.msg]);
      RemovedOrdered(t.told, s.albums[s.groupOf[step.msg]].items, step.msg);
    }
    forall g | g in s.albums { PricedOrder(t, g); }
    hide Inv, Members;
    FewerDeals(s, r, t.told);
  }

  lemma StepDeals(t: Trace, step: Step)
    requires Inv(t.state) && Deals(t) && Enabled(t.state, step) && AssertsHold(t.state, step)
    ensures Deals(Record(t, step))
  {
    hide Inv, Deals, Enabled, AssertsHold, Record;
    match step
    case Create(_, _, _) => CreateDeals(t, step);
    case Uploaded(_, _, _) => UploadDeals(t, step);
    case Cancel(_, _) => CancelDeals(t, step);
    case _ => QuietDeals(t, step);
  }

  ghost function RunFrom(t: Trace, steps: seq<Step>): Trace
    requires Possible(t.state, steps)
    decreases |steps|
  {
    if steps == [] then t else RunFrom(Record(t, steps[0]), steps[1..])
  }

  /** In every run everything that goes out is proper: an album's own parts with the media uploaded for them, paid
      exactly when the album was made with a price and does not answer an ephemeral message. */
  lemma {:induction false} EveryRunDeals(t: Trace, steps: seq<Step>)
    requires Inv(t.state) && Deals(t) && Possible(t.state, steps)
    ensures var r := RunFrom(t, steps); r.state == Run(t.state, steps) && Inv(r.state) && Deals(r)
    decreases |steps|
  {
    hide Inv, Deals, Next, Enabled, AssertsHold;
    if steps != [] {
      StepKeeps(t.state, steps[0]);
      StepDeals(t, steps[0]);
      EveryRunDeals(Record(t, steps[0]), steps[1..]);
    }
  }

  lemma EveryRunFromStart(steps: seq<Step>)
    requires Possible(INITIAL, steps)
    ensures RunFrom(START, steps).state == Run(INITIAL, steps)
    ensures LogProper(RunFrom(START, steps).told, Run(INITIAL, steps).log)
  {
    InitialIsSound();
    EveryRunDeals(START, steps);
  }

  // ---- Replies ----

  /** What a reply reports. A paid album that failed stays; any other answered one goes. */
  lemma ReplyReports(t: Trace, id: RequestId, ok: bool)
    requires Inv(t.state) && Deals(t) && id in t.state.inFlight
    ensures var s, sending := t.state, t.state.inFlight[id];
      var g, paid := sending.group, t.told.prices[sending.group] > 0;
      && g in s.albums
      && var r, items := AfterReply(s, id, ok), s.albums[g].items;
      && (g in r.albums <==> !ok && paid)
      && r.failed == s.failed + (if ok then [] else if paid then [sending.sample.value] else Msgs(items))
      && (forall m :: m in r.alive <==> m in s.alive && !(ok && paid && m in Msgs(items)))
  {
    hide Inv, Deals;
    FlightIs(t, id);
    var s, g := t.state, t.state.inFlight[id].group;
    MsgsAre(s.albums[g].items);
    hide Msgs;
  }

  /** What a request in flight was sent as. */
  lemma FlightIs(t: Trace, id: RequestId)
    requires Inv(t.state) && Deals(t) && id in t.state.inFlight
    ensures var sending := t.state.inFlight[id];
      && sending.group in t.state.albums && sending.group in t.told.prices && sending.sample.Some?
      && (sending.kind == Paid <==> t.told.prices[sending.group] > 0)
      && (sending.kind == Paid || sending.kind == Multi)
  {
    hide Members, Kept, Unsent, Unpaid, OwnParts, Ordered, Uploads, Priced, Msgs;
    var sending := t.state.inFlight[id];
    assert sending in t.state.log && Proper(t.told, sending);
  }

  lemma MsgsAre(items: seq<Part>)
    ensures forall m :: m in Msgs(items) <==> m in (set part | part in items :: part.msg)
  {
    forall part | part in items ensures part.msg in Msgs(items) { MsgsHave(items, part); }
  }
}
