/** Sending albums: parts are uploaded and cancelled in any order, and the album goes out once it is complete. */
module Albums {
  import opened Wrappers

  type Group = nat
  type Msg = nat
  type Media = nat
  type RequestId = nat

  datatype Part = Part(msg: Msg, media: Option<Media>)
  datatype Album = Album(items: seq<Part>, price: nat, sent: bool)
  datatype Kind = Ephemeral | Paid | Single | Multi

  /** Something handed over for sending: the parts of one album that went with it, and the message it goes by. */
  datatype Sending = Sending(group: Group, kind: Kind, parts: seq<Part>, sample: Option<Msg>)

  /** What sending finds: whether the peer is encrypted, and whether the album answers an ephemeral message. */
  datatype World = World(encrypted: bool, ephemeral: bool)

  /** `loading` are the messages to come from files that are still being read, `alive` those that exist, `uploading`
      those whose media is on its way; `groupOf` is the album of every message of a file that was put into one, and
      `unpaid` are the albums whose paid request failed. */
  datatype State = State(albums: map<Group, Album>, loading: set<Msg>, alive: set<Msg>, uploading: set<Msg>,
                         groupOf: map<Msg, Group>, log: seq<Sending>, failed: seq<Msg>,
                         inFlight: map<RequestId, Sending>, next: RequestId, used: set<Group>, unpaid: set<Group>)

  const INITIAL := State(map[], {}, {}, {}, map[], [], [], map[], 1, {}, {})

  // ---- The operations ----

  function Filled(items: seq<Part>, msg: Msg, media: Media): seq<Part> {
    if items == [] then []
    else if items[0].msg == msg then [items[0].(media := Some(media))] + items[1..]
    else [items[0]] + Filled(items[1..], msg, media)
  }

  function Removed(items: seq<Part>, msg: Msg): seq<Part> {
    if items == [] then []
    else if items[0].msg == msg then items[1..]
    else [items[0]] + Removed(items[1..], msg)
  }

  ghost predicate Complete(items: seq<Part>) { forall part :: part in items ==> part.media.Some? }

  ghost predicate SomeAlive(items: seq<Part>, alive: set<Msg>) { exists part :: part in items && part.msg in alive }

  function Existing(items: seq<Part>, alive: set<Msg>): seq<Part> {
    if items == [] then []
    else
      var last := items[|items| - 1];
      Existing(items[..|items| - 1], alive) + (if last.msg in alive then [last] else [])
  }

  /** The first message that exists. */
  function Sample(items: seq<Part>, alive: set<Msg>): Option<Msg> {
    var existing := Existing(items, alive);
    if existing == [] then None else Some(existing[0].msg)
  }

  function Msgs(items: seq<Part>): seq<Msg> {
    seq(|items|, i requires 0 <= i < |items| => items[i].msg)
  }

  function Dropped(s: State, g: Group): State { s.(albums := s.albums - {g}) }

  function Logged(s: State, sending: Sending): State { s.(log := s.log + [sending]) }

  /** The album stays, marked as sent, until the reply. */
  function Requested(s: State, g: Group, kind: Kind): State
    requires g in s.albums
  {
    var sending := RequestFor(s, g, kind);
    Logged(s, sending).(albums := s.albums[g := s.albums[g].(sent := true)],
                        inFlight := s.inFlight[s.next := sending], next := s.next + 1)
  }

  ghost function Ready(s: State, g: Group, w: World): State
    requires g in s.albums
  {
    var album := s.albums[g];
    if album.sent then s
    else if album.items == [] then Dropped(s, g)
    else if !Complete(album.items) then s
    else if !SomeAlive(album.items, s.alive) then Dropped(s, g)
    else if w.encrypted then Dropped(s.(failed := s.failed + Msgs(Existing(album.items, s.alive))), g)
    else if w.ephemeral then
      Dropped(Logged(s, Sending(g, Ephemeral, Existing(album.items, s.alive), Sample(album.items, s.alive))), g)
    else if album.price > 0 then Requested(s, g, Paid)
    else if |album.items| < 2 then Dropped(Logged(s, Sending(g, Single, album.items, Sample(album.items, s.alive))), g)
    else Requested(s, g, Multi)
  }

  function WithItems(s: State, g: Group, items: seq<Part>): State
    requires g in s.albums
  {
    s.(albums := s.albums[g := s.albums[g].(items := items)])
  }

  predicate AwaitsMedia(s: State, msg: Msg) {
    msg in s.groupOf && s.groupOf[msg] in s.albums && Part(msg, None) in s.albums[s.groupOf[msg]].items
  }

  function UploadEnded(s: State, msg: Msg): State { s.(uploading := s.uploading - {msg}) }

  /** The media of a part arrives. The album and the part are looked up and asserted to be there. */
  ghost function AfterUploaded(s: State, msg: Msg, media: Media, w: World): State
    requires msg in s.alive ==> AwaitsMedia(s, msg)
  {
    if msg !in s.alive then UploadEnded(s, msg)
    else
      var g := s.groupOf[msg];
      Ready(WithItems(UploadEnded(s, msg), g, Filled(s.albums[g].items, msg, media)), g, w)
  }

  function Vanished(s: State, msg: Msg): State { s.(alive := s.alive - {msg}) }

  /** A message that was being sent is destroyed. */
  ghost function AfterCancelled(s: State, msg: Msg, w: World): State
    requires msg in s.groupOf
  {
    var g := s.groupOf[msg];
    if g !in s.albums then Vanished(s, msg)
    else Ready(WithItems(Vanished(s, msg), g, Removed(s.albums[g].items, msg)), g, w)
  }

  function AfterCreated(s: State, g: Group, msgs: seq<Msg>, price: nat): State {
    var all := set m | m in msgs;
    s.(albums := s.albums[g := Album(seq(|msgs|, i requires 0 <= i < |msgs| => Part(msgs[i], None)), price, false)],
       loading := s.loading + all,
       groupOf := map m | m in s.groupOf.Keys + all :: if m in all then g else s.groupOf[m], used := s.used + {g})
  }

  /** The file of a part has been read: its message is made, and the upload begins. */
  function AfterLoaded(s: State, msg: Msg): State {
    s.(loading := s.loading - {msg}, alive := s.alive + {msg}, uploading := s.uploading + {msg})
  }

  /** The file of a part is empty or too large: the part goes, and the album is not looked at. */
  function AfterLoadFailed(s: State, msg: Msg): State
    requires AwaitsMedia(s, msg)
  {
    var g := s.groupOf[msg];
    WithItems(s.(loading := s.loading - {msg}), g, Removed(s.albums[g].items, msg))
  }

  /** The reply to a paid or a multiple sending. */
  function AfterReply(s: State, id: RequestId, ok: bool): State
    requires id in s.inFlight && s.inFlight[id].group in s.albums
  {
    var g, s1 := s.inFlight[id].group, s.(inFlight := s.inFlight - {id});
    var items := s.albums[g].items;
    if ok && s.inFlight[id].kind.Paid? then Dropped(s1.(alive := s.alive - (set part | part in items :: part.msg)), g)
    else if ok then Dropped(s1, g)
    else if s.inFlight[id].kind.Paid? then
      s1.(failed := s.failed + Failing(s.inFlight[id].sample), unpaid := s.unpaid + {g})
    else Dropped(s1.(failed := s.failed + Msgs(items)), g)
  }

  function Failing(sample: Option<Msg>): seq<Msg> {
    if sample.None? then [] else [sample.value]
  }

  // ---- Steps ----

  datatype Step =
    | Create(g: Group, msgs: seq<Msg>, price: nat)
    | Loaded(msg: Msg)
    | LoadFailed(msg: Msg)
    | Uploaded(msg: Msg, media: Media, w: World)
    | UploadFailed(msg: Msg)
    | Cancel(msg: Msg, w: World)
    | Vanish(msg: Msg)
    | Reply(id: RequestId, ok: bool)

  ghost predicate Enabled(s: State, step: Step) {
    match step
    case Create(g, msgs, _) =>
      g !in s.used && msgs != [] && (forall m :: m in msgs ==> m !in s.groupOf)
      && (forall i, j :: 0 <= i < j < |msgs| ==> msgs[i] != msgs[j])
    case Loaded(msg) => msg in s.loading
    case LoadFailed(msg) => msg in s.loading
    case Uploaded(msg, _, _) => msg in s.uploading
    case UploadFailed(msg) => msg in s.uploading
    case Cancel(msg, _) => msg in s.alive && msg in s.groupOf
    case Vanish(msg) => msg in s.alive
    case Reply(id, _) => id in s.inFlight
  }

  /** What the handlers assert or dereference without a check. */
  ghost predicate AssertsHold(s: State, step: Step)
    requires Enabled(s, step)
  {
    match step
    case Loaded(msg) => AwaitsMedia(s, msg)
    case LoadFailed(msg) => AwaitsMedia(s, msg)
    case Uploaded(msg, _, _) => msg in s.alive ==> AwaitsMedia(s, msg)
    case Cancel(msg, _) => s.groupOf[msg] in s.albums ==> msg in Msgs(s.albums[s.groupOf[msg]].items)
    case Reply(id, _) => s.inFlight[id].group in s.albums
    case _ => true
  }

  ghost function Next(s: State, step: Step): State
    requires Enabled(s, step) && AssertsHold(s, step)
  {
    match step
    case Create(g, msgs, price) => AfterCreated(s, g, msgs, price)
    case Loaded(msg) => AfterLoaded(s, msg)
    case LoadFailed(msg) => AfterLoadFailed(s, msg)
    case Uploaded(msg, media, w) => AfterUploaded(s, msg, media, w)
    case UploadFailed(msg) => UploadEnded(s, msg)
    case Cancel(msg, w) => AfterCancelled(s, msg, w)
    case Vanish(msg) => Vanished(s, msg)
    case Reply(id, ok) => AfterReply(s, id, ok)
  }

  // ---- What every run keeps ----

  ghost predicate InLog(s: State, g: Group) { exists sending :: sending in s.log && sending.group == g }

  ghost predicate Requesting(s: State, g: Group) { exists id :: id in s.inFlight && s.inFlight[id].group == g }

  ghost predicate DistinctMsgs(items: seq<Part>) {
    forall i, j :: 0 <= i < j < |items| ==> items[i].msg != items[j].msg
  }

  ghost predicate Members(s: State) {
    && (forall g, part :: g in s.albums && part in s.albums[g].items ==>
          part.msg in s.groupOf && s.groupOf[part.msg] == g)
    && (forall g :: g in s.albums ==> g in s.used && DistinctMsgs(s.albums[g].items))
    && (forall m :: m in s.groupOf ==> s.groupOf[m] in s.used)
  }

  /** A message that exists is a part of its album as long as the album is there, without media while it uploads. The
      file of a message to come is a part without media. */
  ghost predicate Kept(s: State) {
    && (forall m :: m in s.loading ==> AwaitsMedia(s, m) && m !in s.alive && m !in s.uploading)
    && (forall m :: m in s.uploading || m in s.alive ==> m in s.groupOf)
    && (forall g :: g in s.albums && s.albums[g].sent ==> Complete(s.albums[g].items))
    && (forall m :: m in s.uploading && m in s.alive ==> AwaitsMedia(s, m))
    && (forall m :: m in s.alive && s.groupOf[m] in s.albums ==> m in Msgs(s.albums[s.groupOf[m]].items))
  }

  /** No album was sent twice; one whose request is in flight is there and marked as sent. */
  ghost predicate Once(s: State) {
    && s.next > 0 && (forall id :: id in s.inFlight ==> id < s.next)
    && (forall i, j :: 0 <= i < j < |s.log| ==> s.log[i].group != s.log[j].group)
    && (forall sending :: sending in s.log ==>
          sending.group in s.used && sending.parts != [] && Complete(sending.parts))
    && (forall id :: id in s.inFlight ==>
          s.inFlight[id] in s.log && s.inFlight[id].group in s.albums && s.albums[s.inFlight[id].group].sent)
    && (forall id, other :: id in s.inFlight && other in s.inFlight ==>
          (s.inFlight[id].group == s.inFlight[other].group ==> id == other))
    && (forall g :: g in s.albums && s.albums[g].sent ==> Requesting(s, g) || g in s.unpaid)
  }

  /** An album that is not sent yet is not in the log. */
  ghost predicate Unsent(s: State) {
    forall g :: g in s.albums && !s.albums[g].sent ==> !InLog(s, g)
  }

  /** An album whose paid request failed stays, marked as sent, and no other request of its own is in flight. */
  ghost predicate Unpaid(s: State) {
    forall g :: g in s.unpaid ==> g in s.albums && s.albums[g].sent && !Requesting(s, g)
  }

  /** An album that is not sent waits for some part's media; `except` is the album being looked at. */
  ghost predicate Waiting(s: State, except: Option<Group>) {
    forall g :: g in s.albums && !s.albums[g].sent && except != Some(g) ==> !Complete(s.albums[g].items)
  }

  ghost predicate Inv(s: State) { Members(s) && Kept(s) && Once(s) && Unsent(s) && Unpaid(s) }

  lemma {:induction false} ExistingIs(items: seq<Part>, alive: set<Msg>)
    ensures forall part :: part in Existing(items, alive) <==> part in items && part.msg in alive
  {
    if items != [] {
      ExistingIs(items[..|items| - 1], alive);
      assert items == items[..|items| - 1] + [items[|items| - 1]];
    }
  }

  lemma SampleIs(items: seq<Part>, alive: set<Msg>)
    ensures Sample(items, alive).Some? <==> SomeAlive(items, alive)
  {
    ExistingIs(items, alive);
    if Existing(items, alive) != [] {
      assert Existing(items, alive)[0] in items;
    }
  }

  lemma SameRequestsUnpaid(s: State, r: State)
    requires Unpaid(s) && r.inFlight == s.inFlight && r.unpaid == s.unpaid
    requires forall g :: g in s.albums && s.albums[g].sent ==> g in r.albums && r.albums[g].sent
    ensures Unpaid(r)
  {
    forall g | g in r.unpaid ensures g in r.albums && r.albums[g].sent && !Requesting(r, g) {
      assert !Requesting(s, g);
    }
  }

  lemma DroppedKept(s: State, g: Group)
    requires Kept(s) && g in s.albums && Complete(s.albums[g].items)
    ensures Kept(Dropped(s, g))
  {
    assert forall m :: m in s.uploading && m in s.alive ==> s.groupOf[m] != g;
  }

  lemma DroppedKeeps(s: State, g: Group)
    requires Inv(s) && g in s.albums && !s.albums[g].sent && Complete(s.albums[g].items)
    ensures Inv(Dropped(s, g))
    ensures Waiting(s, Some(g)) ==> Waiting(Dropped(s, g), None)
  {
    var r := Dropped(s, g);
    DroppedKept(s, g);
    DroppedOnce(s, g);
    SameRequestsUnpaid(s, r);
    hide Kept, Once, Unpaid;
    forall h | h in r.albums && !r.albums[h].sent ensures !InLog(r, h) {
      assert !InLog(s, h);
    }
  }

  /** The log after an album that was not in it goes out. */
  lemma LoggedOnce(s: State, sending: Sending)
    requires Once(s) && Unsent(s) && sending.group in s.albums && !s.albums[sending.group].sent
    requires sending.group in s.used && sending.parts != [] && Complete(sending.parts)
    ensures Once(Logged(s, sending))
    ensures forall h :: h in s.albums && !s.albums[h].sent && h != sending.group ==> !InLog(Logged(s, sending), h)
    ensures !Requesting(s, sending.group)
  {
    var r := Logged(s, sending);
    forall i | 0 <= i < |s.log| ensures s.log[i].group != sending.group {
      assert !InLog(s, sending.group) && s.log[i] in s.log;
    }
    forall h | h in s.albums && s.albums[h].sent && h !in s.unpaid ensures Requesting(r, h) {
      assert Requesting(s, h);
    }
    forall h | h in s.albums && !s.albums[h].sent && h != sending.group ensures !InLog(r, h) {
      assert !InLog(s, h);
    }
  }

  lemma SentAndDroppedKeeps(s: State, sending: Sending)
    requires Inv(s) && sending.group in s.albums && !s.albums[sending.group].sent
    requires Complete(s.albums[sending.group].items) && sending.parts != [] && Complete(sending.parts)
    ensures var r := Dropped(Logged(s, sending), sending.group);
      Inv(r) && (Waiting(s, Some(sending.group)) ==> Waiting(r, None))
  {
    var g, logged := sending.group, Logged(s, sending);
    LoggedOnce(s, sending);
    SentAndDroppedParts(s, sending);
    SameRequestsUnpaid(s, Dropped(logged, g));
    hide Kept, Members, Unpaid;
    DroppedOnce(logged, g);
    hide Once, Complete;
    forall h | h in s.albums && !s.albums[h].sent && h != g ensures !InLog(Dropped(logged, g), h) {
      assert !InLog(logged, h);
    }
  }

  lemma SentAndDroppedParts(s: State, sending: Sending)
    requires Kept(s) && Members(s) && sending.group in s.albums && Complete(s.albums[sending.group].items)
    ensures Kept(Dropped(Logged(s, sending), sending.group)) && Members(Dropped(Logged(s, sending), sending.group))
  {
    DroppedKept(s, sending.group);
    var r, d := Dropped(Logged(s, sending), sending.group), Dropped(s, sending.group);
    assert Kept(r) by {
      hide Msgs, Complete;
      forall m | m in r.loading || (m in r.uploading && m in r.alive) ensures AwaitsMedia(r, m) {
        assert AwaitsMedia(d, m);
      }
    }
  }

  lemma DroppedOnce(s: State, g: Group)
    requires Once(s) && g in s.albums && !s.albums[g].sent
    ensures Once(Dropped(s, g))
  {
    var r := Dropped(s, g);
    forall h | h in r.albums && r.albums[h].sent && h !in s.unpaid ensures Requesting(r, h) {
      assert Requesting(s, h);
    }
  }

  function RequestFor(s: State, g: Group, kind: Kind): Sending
    requires g in s.albums
  {
    Sending(g, kind, s.albums[g].items, Sample(s.albums[g].items, s.alive))
  }

  lemma RequestedOnce(s: State, g: Group, kind: Kind)
    requires g in s.albums && !Requesting(s, g) && Once(Logged(s, RequestFor(s, g, kind)))
    ensures Once(Requested(s, g, kind))
  {
    var r, logged := Requested(s, g, kind), Logged(s, RequestFor(s, g, kind));
    assert s.next in r.inFlight;
    assert Requesting(r, g);
    forall h | h in r.albums && r.albums[h].sent && h != g && h !in s.unpaid ensures Requesting(r, h) {
      assert Requesting(logged, h);
      var id :| id in s.inFlight && s.inFlight[id].group == h;
      assert id in r.inFlight;
    }
  }

  lemma RequestedKept(s: State, g: Group, kind: Kind)
    requires Members(s) && Kept(s) && g in s.albums && Complete(s.albums[g].items)
    ensures Members(Requested(s, g, kind)) && Kept(Requested(s, g, kind))
  {
    var r := Requested(s, g, kind);
    assert forall h :: h in s.albums ==> r.albums[h].items == s.albums[h].items;
  }

  lemma RequestedKeeps(s: State, g: Group, kind: Kind)
    requires Inv(s) && g in s.albums && !s.albums[g].sent
    requires s.albums[g].items != [] && Complete(s.albums[g].items)
    ensures Inv(Requested(s, g, kind))
    ensures Waiting(s, Some(g)) ==> Waiting(Requested(s, g, kind), None)
  {
    var sending := RequestFor(s, g, kind);
    assert g in s.used;
    hide Sample, Existing, Complete;
    LoggedOnce(s, sending);
    RequestedKept(s, g, kind);
    RequestedOnce(s, g, kind);
    RequestedUnsent(s, g, kind);
    RequestedUnpaid(s, g, kind);
    hide Kept, Members, Once, Unpaid;
  }

  lemma RequestedUnpaid(s: State, g: Group, kind: Kind)
    requires Unpaid(s) && g in s.albums && !s.albums[g].sent
    ensures Unpaid(Requested(s, g, kind))
  {
    var r := Requested(s, g, kind);
    forall h | h in r.unpaid ensures h in r.albums && r.albums[h].sent && !Requesting(r, h) {
      assert !Requesting(s, h) && h != g;
    }
  }

  lemma RequestedUnsent(s: State, g: Group, kind: Kind)
    requires g in s.albums
    requires forall h :: h in s.albums && !s.albums[h].sent && h != g ==> !InLog(Logged(s, RequestFor(s, g, kind)), h)
    ensures Unsent(Requested(s, g, kind))
    ensures Waiting(s, Some(g)) ==> Waiting(Requested(s, g, kind), None)
  {
    var r := Requested(s, g, kind);
    forall h | h in r.albums && !r.albums[h].sent ensures !InLog(r, h) {
      assert !InLog(Logged(s, RequestFor(s, g, kind)), h);
    }
  }

  lemma ReadyKeeps(s: State, g: Group, w: World)
    requires Inv(s) && g in s.albums
    ensures Inv(Ready(s, g, w))
    ensures Waiting(s, Some(g)) ==> Waiting(Ready(s, g, w), None)
  {
    var album := s.albums[g];
    ExistingIs(album.items, s.alive);
    hide Inv, Existing;
    if album.sent || !Complete(album.items) {
    } else if album.items == [] || !SomeAlive(album.items, s.alive) {
      DroppedKeeps(s, g);
    } else if w.encrypted {
      var s1 := s.(failed := s.failed + Msgs(Existing(album.items, s.alive)));
      FailedKeeps(s, s1);
      DroppedKeeps(s1, g);
    } else if w.ephemeral {
      var existing := Existing(album.items, s.alive);
      var part :| part in album.items && part.msg in s.alive;
      assert part in existing;
      SentAndDroppedKeeps(s, Sending(g, Ephemeral, existing, Sample(album.items, s.alive)));
    } else if album.price > 0 {
      RequestedKeeps(s, g, Paid);
    } else if |album.items| < 2 {
      SentAndDroppedKeeps(s, Sending(g, Single, album.items, Sample(album.items, s.alive)));
    } else {
      RequestedKeeps(s, g, Multi);
    }
  }

  lemma FailedKeeps(s: State, r: State)
    requires Inv(s) && r == s.(failed := r.failed)
    ensures Inv(r)
  {
    SameRequestsUnpaid(s, r);
    hide Unpaid;
    assert Once(r) by {
      forall h | h in r.albums && r.albums[h].sent && h !in s.unpaid ensures Requesting(r, h) {
        assert Requesting(s, h);
      }
    }
    forall h | h in r.albums && !r.albums[h].sent ensures !InLog(r, h) {
      assert !InLog(s, h);
    }
  }

  // ---- Filling and removing ----

  lemma {:induction false} FilledIs(items: seq<Part>, msg: Msg, media: Media)
    ensures var r := Filled(items, msg, media);
      |r| == |items| && forall i :: 0 <= i < |items| ==> r[i].msg == items[i].msg
    ensures DistinctMsgs(items) ==> forall i :: 0 <= i < |items| ==>
      Filled(items, msg, media)[i] == if items[i].msg == msg then Part(msg, Some(media)) else items[i]
  {
    if items != [] && items[0].msg != msg {
      FilledIs(items[1..], msg, media);
    }
  }

  lemma {:induction false} RemovedIs(items: seq<Part>, msg: Msg)
    requires DistinctMsgs(items)
    ensures DistinctMsgs(Removed(items, msg))
    ensures forall part :: part in Removed(items, msg) <==> part in items && part.msg != msg
  {
    if items != [] {
      assert items == [items[0]] + items[1..];
      if items[0].msg == msg {
        forall part | part in items[1..] ensures part.msg != msg {
          var i :| 0 <= i < |items[1..]| && part == items[1..][i];
          assert part == items[i + 1];
        }
      } else {
        RemovedIs(items[1..], msg);
        forall part | part in Removed(items[1..], msg) ensures part.msg != items[0].msg {
          var i :| 0 <= i < |items[1..]| && part == items[1..][i];
          assert part == items[i + 1];
        }
      }
    }
  }

  lemma MsgsHave(items: seq<Part>, part: Part)
    requires part in items
    ensures part.msg in Msgs(items)
  {
    var i :| 0 <= i < |items| && items[i] == part;
    assert Msgs(items)[i] == part.msg;
  }

  lemma HasPart(items: seq<Part>, msg: Msg) returns (part: Part)
    requires msg in Msgs(items)
    ensures part in items && part.msg == msg
  {
    var i :| 0 <= i < |items| && Msgs(items)[i] == msg;
    part := items[i];
  }

  /** The facts about requests and the log do not look at the parts. */
  lemma PartsOnlyKeep(s: State, r: State)
    requires Once(s) && Unsent(s) && r.albums.Keys == s.albums.Keys
    requires forall g :: g in s.albums ==> r.albums[g].sent == s.albums[g].sent
    requires r.log == s.log && r.inFlight == s.inFlight && r.next == s.next && r.used == s.used && r.unpaid == s.unpaid
    ensures Once(r) && Unsent(r) && (Unpaid(s) ==> Unpaid(r))
  {
    if Unpaid(s) {
      SameRequestsUnpaid(s, r);
    }
    hide Unpaid;
    forall h | h in r.albums && r.albums[h].sent && h !in s.unpaid ensures Requesting(r, h) {
      assert Requesting(s, h);
    }
    forall h | h in r.albums && !r.albums[h].sent ensures !InLog(r, h) {
      assert !InLog(s, h);
    }
  }

  lemma FillMembers(s: State, msg: Msg, media: Media)
    requires Members(s) && AwaitsMedia(s, msg)
    ensures var g := s.groupOf[msg];
      Members(WithItems(UploadEnded(s, msg), g, Filled(s.albums[g].items, msg, media)))
  {
    var g := s.groupOf[msg];
    var items := s.albums[g].items;
    var filled := Filled(items, msg, media);
    FilledIs(items, msg, media);
    hide Filled;
    forall part | part in filled ensures part.msg in s.groupOf && s.groupOf[part.msg] == g {
      var i :| 0 <= i < |filled| && filled[i] == part;
      assert items[i] in items;
    }
  }

  lemma FillKept(s: State, msg: Msg, media: Media)
    requires Members(s) && Kept(s) && msg in s.uploading && AwaitsMedia(s, msg)
    ensures var g := s.groupOf[msg];
      Kept(WithItems(UploadEnded(s, msg), g, Filled(s.albums[g].items, msg, media)))
  {
    var g := s.groupOf[msg];
    var items := s.albums[g].items;
    var filled := Filled(items, msg, media);
    var r := WithItems(UploadEnded(s, msg), g, filled);
    FilledIs(items, msg, media);
    hide Filled, Members;
    assert Msgs(filled) == Msgs(items);
    forall m | m in r.uploading && m in r.alive ensures AwaitsMedia(r, m) {
      assert AwaitsMedia(s, m);
      FilledAwaits(items, msg, media, m);
    }
    forall m | m in r.loading ensures AwaitsMedia(r, m) {
      assert AwaitsMedia(s, m) && m != msg;
      FilledAwaits(items, msg, media, m);
    }
  }

  lemma FilledAwaits(items: seq<Part>, msg: Msg, media: Media, m: Msg)
    requires DistinctMsgs(items) && m != msg
    ensures Part(m, None) in items ==> Part(m, None) in Filled(items, msg, media)
  {
    FilledIs(items, msg, media);
    if Part(m, None) in items {
      var i :| 0 <= i < |items| && items[i] == Part(m, None);
      assert Filled(items, msg, media)[i] == items[i];
    }
  }

  lemma FillKeeps(s: State, msg: Msg, media: Media)
    requires Inv(s) && msg in s.uploading && msg in s.alive
    ensures AwaitsMedia(s, msg)
    ensures var g := s.groupOf[msg];
      var r := WithItems(UploadEnded(s, msg), g, Filled(s.albums[g].items, msg, media));
      Inv(r) && (Waiting(s, None) ==> Waiting(r, Some(g)))
  {
    assert AwaitsMedia(s, msg);
    var g := s.groupOf[msg];
    var r := WithItems(UploadEnded(s, msg), g, Filled(s.albums[g].items, msg, media));
    FillMembers(s, msg, media);
    FillKept(s, msg, media);
    hide Filled, Members, Kept;
    PartsOnlyKeep(s, r);
  }

  /** A part goes whose message is destroyed, or whose file could not be read. */
  predicate PartGoes(s: State, msg: Msg, s1: State) {
    && msg in s.groupOf && s.groupOf[msg] in s.albums
    && (|| (s1 == Vanished(s, msg) && msg in s.alive)
        || (s1 == s.(loading := s.loading - {msg}) && msg in s.loading))
  }

  lemma RemoveMembers(s: State, msg: Msg, s1: State)
    requires Members(s) && PartGoes(s, msg, s1)
    ensures Members(WithItems(s1, s.groupOf[msg], Removed(s.albums[s.groupOf[msg]].items, msg)))
  {
    RemovedIs(s.albums[s.groupOf[msg]].items, msg);
    hide Removed;
  }

  lemma RemoveKept(s: State, msg: Msg, s1: State)
    requires Members(s) && Kept(s) && PartGoes(s, msg, s1)
    ensures Kept(WithItems(s1, s.groupOf[msg], Removed(s.albums[s.groupOf[msg]].items, msg)))
  {
    var g := s.groupOf[msg];
    var items := s.albums[g].items;
    var rest := Removed(items, msg);
    var r := WithItems(s1, g, rest);
    RemovedIs(items, msg);
    hide Members, Removed;
    forall m | m in r.alive && r.groupOf[m] in r.albums ensures m in Msgs(r.albums[r.groupOf[m]].items) {
      assert m in Msgs(s.albums[s.groupOf[m]].items);
      if s.groupOf[m] == g {
        var part := HasPart(items, m);
        MsgsHave(rest, part);
      }
    }
    hide DistinctMsgs, Msgs;
    forall m | m in r.loading || (m in r.uploading && m in r.alive) ensures AwaitsMedia(r, m) {
      assert AwaitsMedia(s, m);
    }
  }

  lemma RemoveKeeps(s: State, msg: Msg, s1: State)
    requires Inv(s) && PartGoes(s, msg, s1)
    ensures var g := s.groupOf[msg];
      var r := WithItems(s1, g, Removed(s.albums[g].items, msg));
      Inv(r) && (Waiting(s, None) ==> Waiting(r, Some(g)))
  {
    var g := s.groupOf[msg];
    RemoveMembers(s, msg, s1);
    RemoveKept(s, msg, s1);
    hide Removed, Members, Kept;
    PartsOnlyKeep(s, WithItems(s1, g, Removed(s.albums[g].items, msg)));
  }

  // ---- The steps ----

  /** The state after an album was made, field by field. */
  ghost predicate Makes(s: State, g: Group, msgs: seq<Msg>, r: State) {
    && g in r.albums && !r.albums[g].sent && r.albums == s.albums[g := r.albums[g]]
    && (forall m :: m in msgs ==> Part(m, None) in r.albums[g].items && m in r.groupOf && r.groupOf[m] == g)
    && (forall m :: m in s.groupOf ==> m in r.groupOf && (m in msgs || r.groupOf[m] == s.groupOf[m]))
    && (forall m :: m in r.loading <==> m in s.loading || m in msgs)
    && r.alive == s.alive && r.uploading == s.uploading
  }

  lemma CreatedMakes(s: State, g: Group, msgs: seq<Msg>, price: nat)
    ensures Makes(s, g, msgs, AfterCreated(s, g, msgs, price))
  {
    var items := AfterCreated(s, g, msgs, price).albums[g].items;
    forall m | m in msgs ensures Part(m, None) in items {
      var i :| 0 <= i < |msgs| && msgs[i] == m;
      assert items[i] == Part(m, None);
    }
  }

  lemma CreatedKept(s: State, step: Step)
    requires Members(s) && Kept(s) && step.Create? && Enabled(s, step)
    ensures var r := AfterCreated(s, step.g, step.msgs, step.price);
      Kept(r) && step.g in r.albums && !Complete(r.albums[step.g].items)
  {
    var g, msgs := step.g, step.msgs;
    var r := AfterCreated(s, g, msgs, step.price);
    CreatedMakes(s, g, msgs, step.price);
    assert forall m :: m in s.groupOf ==> s.groupOf[m] != g;
    assert msgs[0] in msgs && Part(msgs[0], None) in r.albums[g].items;
    hide AfterCreated, Msgs, Members;
    forall m | m in r.loading || (m in r.uploading && m in r.alive) ensures AwaitsMedia(r, m) {
      if m !in msgs {
        assert AwaitsMedia(s, m);
      }
    }
  }

  lemma CreatedMembers(s: State, step: Step)
    requires Members(s) && step.Create? && Enabled(s, step)
    ensures Members(AfterCreated(s, step.g, step.msgs, step.price))
  {}

  lemma CreatedOnce(s: State, step: Step)
    requires Inv(s) && step.Create? && Enabled(s, step)
    ensures Once(AfterCreated(s, step.g, step.msgs, step.price)) &&
      Unsent(AfterCreated(s, step.g, step.msgs, step.price))
    ensures Unpaid(AfterCreated(s, step.g, step.msgs, step.price))
  {
    hide Kept;
    var r := AfterCreated(s, step.g, step.msgs, step.price);
    forall h | h in s.unpaid ensures !Requesting(r, h) && h != step.g {
      assert !Requesting(s, h);
    }
    hide Unpaid, Members;
    forall h | h in r.albums && r.albums[h].sent && h !in s.unpaid ensures Requesting(r, h) {
      assert Requesting(s, h);
    }
    forall h | h in r.albums && !r.albums[h].sent ensures !InLog(r, h) {
      assert h in s.albums ==> !InLog(s, h);
    }
  }

  lemma CreateKeeps(s: State, step: Step)
    requires Inv(s) && step.Create? && Enabled(s, step)
    ensures var r := AfterCreated(s, step.g, step.msgs, step.price); Inv(r) && (Waiting(s, None) ==> Waiting(r, None))
  {
    CreatedMembers(s, step);
    CreatedOnce(s, step);
    CreatedKept(s, step);
    hide Once, Unsent, Members, Kept, Complete, Unpaid;
  }

  lemma AnsweredRequesting(s: State, id: RequestId, r: State)
    requires id in s.inFlight && r.inFlight == s.inFlight - {id}
    ensures forall h :: Requesting(r, h) ==> Requesting(s, h)
    ensures forall h :: Requesting(s, h) && h != s.inFlight[id].group ==> Requesting(r, h)
    ensures Once(s) ==> !Requesting(r, s.inFlight[id].group)
  {
    forall h | Requesting(s, h) && h != s.inFlight[id].group ensures Requesting(r, h) {
      var other :| other in s.inFlight && s.inFlight[other].group == h;
      assert other in r.inFlight;
    }
  }

  lemma RepliedOnce(s: State, id: RequestId, ok: bool)
    requires Once(s) && id in s.inFlight
    ensures s.inFlight[id].group in s.albums && Once(AfterReply(s, id, ok))
  {
    RepliedIs(s, id, ok);
    AnsweredRequesting(s, id, AfterReply(s, id, ok));
    hide AfterReply;
    AnsweredOnce(s, id, AfterReply(s, id, ok));
  }

  lemma AnsweredOnce(s: State, id: RequestId, r: State)
    requires Once(s) && id in s.inFlight && Answered(s, s.inFlight[id].group, r) && r.inFlight == s.inFlight - {id}
    requires forall h :: Requesting(s, h) && h != s.inFlight[id].group ==> Requesting(r, h)
    ensures Once(r)
  {
    hide Requesting, Complete;
  }

  lemma RepliedUnsent(s: State, id: RequestId, ok: bool)
    requires Unsent(s) && id in s.inFlight && s.inFlight[id].group in s.albums
    ensures Unsent(AfterReply(s, id, ok))
  {
    var r := AfterReply(s, id, ok);
    assert r.log == s.log && forall h :: h in r.albums ==> h in s.albums && r.albums[h] == s.albums[h];
    hide AfterReply;
    forall h | h in r.albums && !r.albums[h].sent ensures !InLog(r, h) {
      assert !InLog(s, h);
    }
  }

  lemma RepliedUnpaid(s: State, id: RequestId, ok: bool)
    requires Once(s) && Unpaid(s) && id in s.inFlight
    ensures s.inFlight[id].group in s.albums && Unpaid(AfterReply(s, id, ok))
  {
    RepliedIs(s, id, ok);
    AnsweredRequesting(s, id, AfterReply(s, id, ok));
    hide AfterReply;
    AnsweredUnpaid(s, id, AfterReply(s, id, ok));
  }

  lemma AnsweredUnpaid(s: State, id: RequestId, r: State)
    requires Unpaid(s) && id in s.inFlight && s.inFlight[id].group in s.albums && s.albums[s.inFlight[id].group].sent
    requires Answered(s, s.inFlight[id].group, r)
    requires forall h :: Requesting(r, h) ==> Requesting(s, h) && h != s.inFlight[id].group
    ensures Unpaid(r)
  {
    assert Requesting(s, s.inFlight[id].group);
    hide Requesting;
  }

  /** The state after a reply, field by field. */
  ghost predicate Answered(s: State, g: Group, r: State) {
    && (forall h :: h in r.albums ==> h in s.albums && r.albums[h] == s.albums[h])
    && (forall h :: h in s.albums && h != g ==> h in r.albums)
    && r.unpaid == (if g in r.albums then s.unpaid + {g} else s.unpaid)
    && r.alive <= s.alive && r.loading == s.loading && r.uploading == s.uploading && r.groupOf == s.groupOf
    && r.log == s.log && r.next == s.next && r.used == s.used
  }

  lemma RepliedIs(s: State, id: RequestId, ok: bool)
    requires Once(s) && id in s.inFlight
    ensures s.inFlight[id].group in s.albums && s.albums[s.inFlight[id].group].sent
    ensures Answered(s, s.inFlight[id].group, AfterReply(s, id, ok))
    ensures AfterReply(s, id, ok).inFlight == s.inFlight - {id}
  {
    assert s.inFlight[id].group in s.albums && s.albums[s.inFlight[id].group].sent;
    hide Once;
  }

  lemma RepliedMembers(s: State, id: RequestId, ok: bool)
    requires Members(s) && id in s.inFlight && s.inFlight[id].group in s.albums
    ensures Members(AfterReply(s, id, ok))
    ensures Waiting(s, None) ==> Waiting(AfterReply(s, id, ok), None)
  {
    var r := AfterReply(s, id, ok);
    assert r.groupOf == s.groupOf && r.used == s.used &&
        forall h :: h in r.albums ==> h in s.albums && r.albums[h] == s.albums[h];
    hide AfterReply, DistinctMsgs, Complete;
  }

  lemma RepliedKept(s: State, id: RequestId, ok: bool)
    requires Once(s) && Kept(s) && id in s.inFlight
    ensures s.inFlight[id].group in s.albums && Kept(AfterReply(s, id, ok))
  {
    RepliedIs(s, id, ok);
    hide Once, AfterReply;
    AnsweredKept(s, s.inFlight[id].group, AfterReply(s, id, ok));
  }

  lemma AnsweredKept(s: State, g: Group, r: State)
    requires Kept(s) && g in s.albums && s.albums[g].sent && Answered(s, g, r)
    ensures Kept(r)
  {
    assert Complete(s.albums[g].items);
    hide Msgs;
    forall m | m in r.loading || (m in r.uploading && m in r.alive) ensures AwaitsMedia(r, m) {
      assert AwaitsMedia(s, m);
    }
  }

  lemma ReplyKeeps(s: State, id: RequestId, ok: bool)
    requires Inv(s) && id in s.inFlight
    ensures s.inFlight[id].group in s.albums && Inv(AfterReply(s, id, ok))
    ensures Waiting(s, None) ==> Waiting(AfterReply(s, id, ok), None)
  {
    RepliedOnce(s, id, ok);
    RepliedUnpaid(s, id, ok);
    RepliedUnsent(s, id, ok);
    RepliedKept(s, id, ok);
    RepliedMembers(s, id, ok);
    hide Once, Unsent, Kept, Unpaid, Members, Waiting, AfterReply;
  }

  lemma QuietKeeps(s: State, r: State)
    requires Inv(s) && r == s.(alive := r.alive, uploading := r.uploading)
    requires r.alive <= s.alive && r.uploading <= s.uploading
    ensures Inv(r) && (Waiting(s, None) ==> Waiting(r, None))
  {
    assert Kept(r) by {
      forall m | m in r.loading || (m in r.uploading && m in r.alive) ensures AwaitsMedia(r, m) {
        assert AwaitsMedia(s, m);
      }
    }
    hide Kept;
    PartsOnlyKeep(s, r);
  }

  lemma LoadedKeeps(s: State, msg: Msg)
    requires Inv(s) && msg in s.loading
    ensures AwaitsMedia(s, msg) && Inv(AfterLoaded(s, msg))
    ensures Waiting(s, None) ==> Waiting(AfterLoaded(s, msg), None)
  {
    var r := AfterLoaded(s, msg);
    assert AwaitsMedia(s, msg);
    MsgsHave(s.albums[s.groupOf[msg]].items, Part(msg, None));
    assert Kept(r) by {
      hide Msgs;
      forall m | m in r.loading || (m in r.uploading && m in r.alive) ensures AwaitsMedia(r, m) {
        assert AwaitsMedia(s, m);
      }
    }
    hide Kept;
    PartsOnlyKeep(s, r);
  }

  /** A file fails to load that was the last part without media: the album is complete, or empty, and not looked at. */
  ghost predicate Strands(s: State, step: Step) {
    && step.LoadFailed? && AwaitsMedia(s, step.msg)
    && forall part :: part in s.albums[s.groupOf[step.msg]].items && part.msg != step.msg ==> part.media.Some?
  }

  lemma LoadFailedKeeps(s: State, msg: Msg)
    requires Inv(s) && msg in s.loading
    ensures AwaitsMedia(s, msg) && Inv(AfterLoadFailed(s, msg))
    ensures Waiting(s, None) ==> (Waiting(AfterLoadFailed(s, msg), None) <==> !Strands(s, LoadFailed(msg)))
  {
    assert AwaitsMedia(s, msg);
    var g := s.groupOf[msg];
    var r := AfterLoadFailed(s, msg);
    RemoveKeeps(s, msg, s.(loading := s.loading - {msg}));
    RemovedIs(s.albums[g].items, msg);
    assert !s.albums[g].sent && r.albums[g].items == Removed(s.albums[g].items, msg);
    hide Inv, Removed;
    if Waiting(s, None) {
      assert Waiting(r, None) <==> !Complete(r.albums[g].items);
    }
  }

  lemma CancelAsserts(s: State, msg: Msg)
    requires Inv(s) && msg in s.alive && msg in s.groupOf && s.groupOf[msg] in s.albums
    ensures msg in Msgs(s.albums[s.groupOf[msg]].items)
  {}

  /** In every reachable state the assertions hold, and the step keeps the invariant. It leaves every unsent album
      waiting for some part if and only if it does not strand one. */
  lemma StepKeeps(s: State, step: Step)
    requires Inv(s) && Enabled(s, step)
    ensures AssertsHold(s, step) && Inv(Next(s, step))
    ensures Waiting(s, None) ==> (Waiting(Next(s, step), None) <==> !Strands(s, step))
  {
    hide Inv, Waiting, Ready, Filled, Removed, AfterCreated, AfterLoaded, AfterLoadFailed, AfterReply, Strands;
    OnlyLoadsStrand(s, step);
    match step
    case Create(_, _, _) => CreateKeeps(s, step);
    case Loaded(msg) => LoadedKeeps(s, msg);
    case LoadFailed(msg) => LoadFailedKeeps(s, msg);
    case Uploaded(msg, media, w) =>
      if msg in s.alive {
        FillKeeps(s, msg, media);
        ReadyKeeps(WithItems(UploadEnded(s, msg), s.groupOf[msg], Filled(s.albums[s.groupOf[msg]].items, msg, media)),
                   s.groupOf[msg], w);
      } else {
        QuietKeeps(s, UploadEnded(s, msg));
      }
    case UploadFailed(msg) => QuietKeeps(s, UploadEnded(s, msg));
    case Cancel(msg, w) =>
      if s.groupOf[msg] in s.albums {
        CancelAsserts(s, msg);
        RemoveKeeps(s, msg, Vanished(s, msg));
        ReadyKeeps(WithItems(Vanished(s, msg), s.groupOf[msg], Removed(s.albums[s.groupOf[msg]].items, msg)),
                   s.groupOf[msg], w);
      } else {
        QuietKeeps(s, Vanished(s, msg));
      }
    case Vanish(msg) => QuietKeeps(s, Vanished(s, msg));
    case Reply(id, ok) => ReplyKeeps(s, id, ok);
  }

  lemma OnlyLoadsStrand(s: State, step: Step)
    ensures !step.LoadFailed? ==> !Strands(s, step)
  {}

  ghost predicate Possible(s: State, steps: seq<Step>)
    decreases |steps|
  {
    steps != [] ==> Enabled(s, steps[0]) && AssertsHold(s, steps[0]) && Possible(Next(s, steps[0]), steps[1..])
  }

  ghost function Run(s: State, steps: seq<Step>): State
    requires Possible(s, steps)
    decreases |steps|
  {
    if steps == [] then s else Run(Next(s, steps[0]), steps[1..])
  }

  ghost predicate NeverStrands(s: State, steps: seq<Step>)
    requires Possible(s, steps)
    decreases |steps|
  {
    steps != [] ==> !Strands(s, steps[0]) && NeverStrands(Next(s, steps[0]), steps[1..])
  }

  ghost predicate AlwaysWaiting(s: State, steps: seq<Step>)
    requires Possible(s, steps)
    decreases |steps|
  {
    Waiting(s, None) && (steps != [] ==> AlwaysWaiting(Next(s, steps[0]), steps[1..]))
  }

  /** In every reachable state no album was sent twice, and every one sent was complete. All along the run every unsent
      album waits for the media of a part still in it, if and only if no failed load strands one. */
  lemma {:induction false} EveryRunKeeps(s: State, steps: seq<Step>)
    requires Inv(s) && Possible(s, steps)
    ensures Inv(Run(s, steps))
    ensures Waiting(s, None) ==> (AlwaysWaiting(s, steps) <==> NeverStrands(s, steps))
    ensures AlwaysWaiting(s, steps) ==> Waiting(Run(s, steps), None)
    decreases |steps|
  {
    hide Inv, Next, Enabled, AssertsHold, Waiting, Strands;
    if steps != [] {
      StepKeeps(s, steps[0]);
      EveryRunKeeps(Next(s, steps[0]), steps[1..]);
      if !Waiting(Next(s, steps[0]), None) {
        assert !AlwaysWaiting(Next(s, steps[0]), steps[1..]);
      }
    }
  }

  lemma InitialIsSound()
    ensures Inv(INITIAL) && Waiting(INITIAL, None)
  {}

  // ---- When an album is sent, and when it is dropped ----

  /** Looking at an album sends it if and only if it is complete with a message that exists, and nothing prevents it.
      All its parts go, or, as answers to an ephemeral message, those whose messages exist. */
  lemma SentWhenComplete(s: State, g: Group, w: World)
    requires g in s.albums && !s.albums[g].sent
    ensures var items, r := s.albums[g].items, Ready(s, g, w);
      (r.log != s.log <==> Complete(items) && SomeAlive(items, s.alive) && !w.encrypted)
    ensures var items, r := s.albums[g].items, Ready(s, g, w);
      r.log != s.log ==>
        (&& |r.log| == |s.log| + 1 && r.log[..|s.log|] == s.log && r.log[|s.log|].group == g
         && (forall part :: part in r.log[|s.log|].parts ==> part in items)
         && (forall part :: part in items && part !in r.log[|s.log|].parts ==> w.ephemeral && part.msg !in s.alive))
  {
    ExistingIs(s.albums[g].items, s.alive);
    var r := Ready(s, g, w);
    if |r.log| == |s.log| + 1 {
      assert r.log[..|s.log|] == s.log;
    }
  }

  /** It is dropped unsent if and only if no part remains, or it is complete but has no message left or is encrypted;
      then the messages left are reported as failed. */
  lemma DroppedWhenNothingRemains(s: State, g: Group, w: World)
    requires g in s.albums && !s.albums[g].sent
    ensures var items, r := s.albums[g].items, Ready(s, g, w);
      (g !in r.albums && r.log == s.log <==>
         items == [] || (Complete(items) && (!SomeAlive(items, s.alive) || w.encrypted)))
    ensures var items, r := s.albums[g].items, Ready(s, g, w);
      (forall m :: m in r.failed && m !in s.failed ==> m in s.alive && m in Msgs(items))
      && (g !in r.albums && r.log == s.log ==>
          forall part :: part in items && part.msg in s.alive ==> part.msg in r.failed)
  {
    var items := s.albums[g].items;
    ExistingIs(items, s.alive);
    var existing := Existing(items, s.alive);
    forall part | part in existing ensures part.msg in Msgs(existing) && part.msg in Msgs(items) {
      MsgsHave(existing, part);
      MsgsHave(items, part);
    }
    forall m | m in Msgs(existing) ensures m in s.alive && m in Msgs(items) {
      var part := HasPart(existing, m);
    }
    assert forall sending :: s.log + [sending] != s.log by {
      forall sending: Sending ensures s.log + [sending] != s.log {
        assert |s.log + [sending]| == |s.log| + 1;
      }
    }
  }

  // ---- Albums that stay ----

  /** An unsent album for which no media is awaited: complete, or empty. */
  ghost predicate Stranded(s: State, g: Group) {
    g in s.albums && !s.albums[g].sent && Complete(s.albums[g].items)
  }

  predicate CancelsPart(s: State, step: Step, g: Group) {
    step.Cancel? && step.msg in s.groupOf && s.groupOf[step.msg] == g
  }

  lemma OtherAlbumStays(s: State, h: Group, w: World, g: Group)
    requires h in s.albums && g != h && g in s.albums
    ensures g in Ready(s, h, w).albums && Ready(s, h, w).albums[g] == s.albums[g]
  {}

  lemma LookedAtIsNotStranded(s: State, g: Group, w: World)
    requires g in s.albums
    ensures !Stranded(Ready(s, g, w), g)
  {}

  lemma FillOthers(s: State, msg: Msg, g: Group)
    requires Inv(s) && Stranded(s, g) && AwaitsMedia(s, msg)
    ensures s.groupOf[msg] != g
  {
    assert Part(msg, None).media.None?;
  }

  lemma UntouchedAlbum(s: State, step: Step, g: Group)
    requires Inv(s) && Enabled(s, step) && AssertsHold(s, step) && Stranded(s, g) && !CancelsPart(s, step, g)
    ensures g in Next(s, step).albums && Next(s, step).albums[g] == s.albums[g]
  {
    hide Filled, Removed, Ready, DistinctMsgs, Msgs;
    match step
    case Create(h, _, _) =>
      assert g in s.used && g != h;
      hide Inv;
    case LoadFailed(msg) =>
      FillOthers(s, msg, g);
      hide Inv;
    case Uploaded(msg, media, w) =>
      if msg in s.alive {
        FillOthers(s, msg, g);
        var h := s.groupOf[msg];
        hide Inv;
        OtherAlbumStays(WithItems(UploadEnded(s, msg), h, Filled(s.albums[h].items, msg, media)), h, w, g);
      }
    case Cancel(msg, w) =>
      var h := s.groupOf[msg];
      hide Inv;
      if h in s.albums {
        OtherAlbumStays(WithItems(Vanished(s, msg), h, Removed(s.albums[h].items, msg)), h, w, g);
      }
    case Reply(id, ok) =>
      assert s.albums[s.inFlight[id].group].sent;
      hide Inv;
    case _ =>
      hide Inv;
  }

  /** A stranded album is left as it is by every step, except that cancelling one of its parts looks at it: then it is
      sent or dropped. */
  lemma StrandedStays(s: State, step: Step, g: Group)
    requires Inv(s) && Enabled(s, step) && AssertsHold(s, step) && Stranded(s, g)
    ensures Stranded(Next(s, step), g) <==> !CancelsPart(s, step, g)
    ensures !CancelsPart(s, step, g) ==> Next(s, step).albums[g] == s.albums[g]
  {
    if CancelsPart(s, step, g) {
      StrandedIsThere(s, g);
      hide Inv, Stranded, Ready, Removed;
      LookedAtIsNotStranded(WithItems(Vanished(s, step.msg), g, Removed(s.albums[g].items, step.msg)), g, step.w);
    } else {
      UntouchedAlbum(s, step, g);
      hide Inv, Next;
    }
  }

  lemma StrandedIsThere(s: State, g: Group)
    requires Stranded(s, g)
    ensures g in s.albums
  {}

  ghost predicate NeverCancelled(s: State, steps: seq<Step>, g: Group)
    requires Possible(s, steps)
    decreases |steps|
  {
    steps != [] ==> !CancelsPart(s, steps[0], g) && NeverCancelled(Next(s, steps[0]), steps[1..], g)
  }

  /** In a run that cancels none of its parts, a stranded album stays as it is, and is never sent. */
  lemma {:induction false} StrandedForGood(s: State, steps: seq<Step>, g: Group)
    requires Inv(s) && Possible(s, steps) && Stranded(s, g) && NeverCancelled(s, steps, g)
    ensures var r := Run(s, steps); Stranded(r, g) && r.albums[g] == s.albums[g] && !InLog(r, g)
    decreases |steps|
  {
    hide Inv, Next, Enabled, AssertsHold, Stranded, CancelsPart, InLog;
    StrandedIsThere(s, g);
    if steps != [] {
      StepKeeps(s, steps[0]);
      StrandedStays(s, steps[0], g);
      StrandedForGood(Next(s, steps[0]), steps[1..], g);
    } else {
      StrandedIsUnsent(s, g);
    }
  }

  lemma StrandedIsUnsent(s: State, g: Group)
    requires Inv(s) && Stranded(s, g)
    ensures !InLog(s, g)
  {}

  /** A stranded album without a part whose message exists: no step cancels a part of it, so it stays in every run. */
  lemma {:induction false} OrphanedForGood(s: State, steps: seq<Step>, g: Group)
    requires Inv(s) && Possible(s, steps) && Stranded(s, g) && !SomeAlive(s.albums[g].items, s.alive)
    ensures NeverCancelled(s, steps, g)
    decreases |steps|
  {
    hide Next, Enabled, AssertsHold;
    if steps != [] {
      OrphanIsNotCancelled(s, steps[0], g);
      StepKeeps(s, steps[0]);
      StrandedStays(s, steps[0], g);
      hide Inv, Stranded, SomeAlive, CancelsPart;
      OrphanedForGood(Next(s, steps[0]), steps[1..], g);
    }
  }

  lemma ReadyAlive(s: State, g: Group, w: World)
    requires g in s.albums
    ensures Ready(s, g, w).alive == s.alive && Ready(s, g, w).unpaid == s.unpaid
  {}

  lemma AliveAfter(s: State, step: Step)
    requires Enabled(s, step) && AssertsHold(s, step)
    ensures Next(s, step).alive <= if step.Loaded? then s.alive + {step.msg} else s.alive
    ensures s.unpaid <= Next(s, step).unpaid
  {
    hide Filled, Removed, Ready;
    if step.Uploaded? && step.msg in s.alive {
      var g := s.groupOf[step.msg];
      ReadyAlive(WithItems(UploadEnded(s, step.msg), g, Filled(s.albums[g].items, step.msg, step.media)), g, step.w);
    } else if step.Cancel? && s.groupOf[step.msg] in s.albums {
      var g := s.groupOf[step.msg];
      ReadyAlive(WithItems(Vanished(s, step.msg), g, Removed(s.albums[g].items, step.msg)), g, step.w);
    }
  }

  lemma OrphanIsNotCancelled(s: State, step: Step, g: Group)
    requires Inv(s) && Enabled(s, step) && AssertsHold(s, step) && Stranded(s, g)
    requires !SomeAlive(s.albums[g].items, s.alive)
    ensures !CancelsPart(s, step, g) && !SomeAlive(s.albums[g].items, Next(s, step).alive)
  {
    if CancelsPart(s, step, g) {
      var part := HasPart(s.albums[g].items, step.msg);
      assert false;
    }
    AliveAfter(s, step);
    hide Next;
    if step.Loaded? {
      var msg := step.msg;
      FillOthers(s, msg, g);
      assert forall part :: part in s.albums[g].items ==> part.msg != msg;
    }
  }

  /** An album whose paid request failed is in the table for good, marked as sent, and never sent again. */
  lemma {:induction false} UnpaidStays(s: State, steps: seq<Step>, g: Group)
    requires Inv(s) && Possible(s, steps) && g in s.unpaid
    ensures var r := Run(s, steps); g in r.albums && r.albums[g].sent && !Requesting(r, g) && g in r.unpaid
    decreases |steps|
  {
    assert !Requesting(s, g);
    hide Members, Kept, Once, Unsent, Next, Enabled, AssertsHold, Requesting;
    if steps != [] {
      StepKeeps(s, steps[0]);
      AliveAfter(s, steps[0]);
      UnpaidStays(Next(s, steps[0]), steps[1..], g);
    }
  }

  const PAIR := [Part(1, None), Part(2, None)]
  const HALF := [Part(1, Some(7)), Part(2, None)]
  const REST := [Part(1, Some(7))]
  const PLAIN := World(false, false)

  const CREATED := State(map[0 := Album(PAIR, 0, false)], {1, 2}, {}, {},
                          map[1 := 0, 2 := 0], [], [], map[], 1, {0}, {})
  const LOADED := CREATED.(loading := {2}, alive := {1}, uploading := {1})
  const UPLOADED := LOADED.(albums := map[0 := Album(HALF, 0, false)], uploading := {})
  const STRANDED := UPLOADED.(albums := map[0 := Album(REST, 0, false)], loading := {})

  lemma CreatesPair()
    ensures Enabled(INITIAL, Create(0, [1, 2], 0)) && Next(INITIAL, Create(0, [1, 2], 0)) == CREATED
  {
    assert AfterCreated(INITIAL, 0, [1, 2], 0).albums[0].items == PAIR;
    assert (set m | m in [1, 2]) == {1, 2};
  }

  lemma UploadsFirst()
    ensures var step := Uploaded(1, 7, PLAIN);
      Enabled(LOADED, step) && AssertsHold(LOADED, step) && Next(LOADED, step) == UPLOADED
  {
    assert PAIR[0] == Part(1, None) && HALF[1] == Part(2, None);
    assert Filled(PAIR, 1, 7) == HALF;
    assert !Complete(HALF);
  }

  lemma LosesSecond()
    ensures var step := LoadFailed(2);
      Enabled(UPLOADED, step) && AssertsHold(UPLOADED, step) && Next(UPLOADED, step) == STRANDED
  {
    assert HALF[1] == Part(2, None) && Removed(HALF, 2) == REST;
  }

  /** Two files; the first one is uploaded, then the second one fails to load. What is left is complete, but it is not
      sent: no step is left that would look at it, unless its message is cancelled. */
  lemma FailedLoadStrands()
    ensures var steps := [Create(0, [1, 2], 0), Loaded(1), Uploaded(1, 7, PLAIN), LoadFailed(2)];
      Possible(INITIAL, steps) && Run(INITIAL, steps) == STRANDED && Stranded(STRANDED, 0)
  {
    CreatesPair();
    assert Enabled(CREATED, Loaded(1)) && AssertsHold(CREATED, Loaded(1)) && Next(CREATED, Loaded(1)) == LOADED by {
      assert PAIR[0] == Part(1, None);
    }
    UploadsFirst();
    LosesSecond();
    hide Next, Enabled, AssertsHold;
    RunOf(UPLOADED, LoadFailed(2), []);
    RunOf(LOADED, Uploaded(1, 7, PLAIN), [LoadFailed(2)]);
    RunOf(CREATED, Loaded(1), [Uploaded(1, 7, PLAIN), LoadFailed(2)]);
    RunOf(INITIAL, Create(0, [1, 2], 0), [Loaded(1), Uploaded(1, 7, PLAIN), LoadFailed(2)]);
  }

  lemma RunOf(s: State, step: Step, rest: seq<Step>)
    requires Enabled(s, step) && AssertsHold(s, step) && Possible(Next(s, step), rest)
    ensures Possible(s, [step] + rest) && Run(s, [step] + rest) == Run(Next(s, step), rest)
  {
    assert ([step] + rest)[1..] == rest;
  }

  // ---- The methods ----

  class ApiAlbums {
    var sendingAlbums: map<Group, Album>
    // The files being read, the messages, the uploads, and the network's side.
    var loading: set<Msg>
    var alive: set<Msg>
    var uploading: set<Msg>
    var groupOf: map<Msg, Group>
    var sendings: seq<Sending>
    var failed: seq<Msg>
    var inFlight: map<RequestId, Sending>
    var nextId: RequestId
    ghost var used: set<Group>
    ghost var unpaid: set<Group>

    ghost function Abs(): State
      reads this
    {
      State(sendingAlbums, loading, alive, uploading, groupOf, sendings, failed, inFlight, nextId, used, unpaid)
    }

    constructor ()
      ensures Abs() == INITIAL
    {
      sendingAlbums, loading, alive, uploading, groupOf := map[], {}, {}, {}, map[];
      sendings, failed := [], [];
      inFlight, nextId, used, unpaid := map[], 1, {}, {};
    }

    method Remove(group: Group)
      modifies this`sendingAlbums
      ensures Abs() == Dropped(old(Abs()), group)
    {
      sendingAlbums := sendingAlbums - {group};
    }

    /** Whether every part has media, and then the first message that exists. */
    method Collect(items: seq<Part>) returns (complete: bool, sample: Option<Msg>)
      ensures complete <==> Complete(items)
      ensures complete ==> sample == Sample(items, alive) && (sample.Some? <==> SomeAlive(items, alive))
    {
      sample := None;
      for i := 0 to |items|
        invariant forall part :: part in items[..i] ==> part.media.Some?
        invariant sample == Sample(items[..i], alive)
      {
        assert items[..i + 1] == items[..i] + [items[i]] && items[..i + 1][..i] == items[..i];
        if items[i].media.None? {
          assert items[i] in items;
          return false, None;
        } else if sample.None? && items[i].msg in alive {
          sample := Some(items[i].msg);
        }
      }
      assert items[..|items|] == items;
      SampleIs(items, alive);
      complete := true;
    }

    method CollectExisting(items: seq<Part>) returns (parts: seq<Part>)
      ensures parts == Existing(items, alive)
    {
      parts := [];
      for i := 0 to |items|
        invariant parts == Existing(items[..i], alive)
      {
        assert items[..i + 1][..i] == items[..i];
        if items[i].msg in alive {
          parts := parts + [items[i]];
        }
      }
      assert items[..|items|] == items;
    }

    method SendRequest(group: Group, kind: Kind, sample: Option<Msg>)
      requires group in sendingAlbums && sample == Sample(sendingAlbums[group].items, alive)
      modifies this`sendingAlbums, this`sendings, this`inFlight, this`nextId
      ensures Abs() == Requested(old(Abs()), group, kind)
    {
      var album := sendingAlbums[group];
      sendingAlbums := sendingAlbums[group := album.(sent := true)];
      var sending := Sending(group, kind, album.items, sample);
      sendings := sendings + [sending];
      inFlight := inFlight[nextId := sending];
      nextId := nextId + 1;
    }

    method SendAlbumIfReady(group: Group, w: World)
      requires group in sendingAlbums
      modifies this
      ensures Abs() == Ready(old(Abs()), group, w)
    {
      hide Complete, SomeAlive, Existing, Sample;
      var album := sendingAlbums[group];
      if album.sent { return; }
      if album.items == [] {
        Remove(group);
        return;
      }
      var complete, sample := Collect(album.items);
      if !complete { return; }
      if sample.None? {
        Remove(group);
        return;
      }
      if w.encrypted {
        var parts := CollectExisting(album.items);
        failed := failed + Msgs(parts);
        Remove(group);
      } else if w.ephemeral {
        var parts := CollectExisting(album.items);
        Remove(group);
        sendings := sendings + [Sending(group, Ephemeral, parts, sample)];
      } else if album.price > 0 {
        SendRequest(group, Paid, sample);
      } else if |album.items| < 2 {
        sendings := sendings + [Sending(group, Single, album.items, sample)];
        Remove(group);
      } else {
        SendRequest(group, Multi, sample);
      }
    }

    method SendFiles(group: Group, msgs: seq<Msg>, price: nat)
      requires group !in used
      modifies this
      ensures Abs() == AfterCreated(old(Abs()), group, msgs, price)
    {
      var items := [];
      for i := 0 to |msgs|
        invariant |items| == i && forall j :: 0 <= j < i ==> items[j] == Part(msgs[j], None)
      {
        items := items + [Part(msgs[i], None)];
      }
      assert items == AfterCreated(old(Abs()), group, msgs, price).albums[group].items;
      var all := set m | m in msgs;
      sendingAlbums := sendingAlbums[group := Album(items, price, false)];
      loading := loading + all;
      groupOf := map m | m in groupOf.Keys + all :: if m in all then group else groupOf[m];
      used := used + {group};
    }

    method OnLoaded(msg: Msg)
      requires AwaitsMedia(Abs(), msg)
      modifies this`loading, this`alive, this`uploading
      ensures Abs() == AfterLoaded(old(Abs()), msg)
    {
      loading, alive, uploading := loading - {msg}, alive + {msg}, uploading + {msg};
    }

    /** The part is looked up and asserted to be there; the album is not looked at. */
    method OnLoadFailed(msg: Msg)
      requires AwaitsMedia(Abs(), msg)
      modifies this`loading, this`sendingAlbums
      ensures Abs() == AfterLoadFailed(old(Abs()), msg)
    {
      loading := loading - {msg};
      var group := groupOf[msg];
      var items := sendingAlbums[group].items;
      var i := FindPart(items, msg);
      sendingAlbums := sendingAlbums[group := sendingAlbums[group].(items := items[..i] + items[i + 1..])];
    }

    /** The album and its part are dereferenced without a check; every reachable state has them. */
    method SendAlbumWithUploaded(msg: Msg, media: Media, w: World)
      requires msg in uploading && (msg in alive ==> AwaitsMedia(Abs(), msg))
      modifies this
      ensures Abs() == AfterUploaded(old(Abs()), msg, media, w)
    {
      hide Ready;
      uploading := uploading - {msg};
      if msg !in alive { return; }
      var group := groupOf[msg];
      var items := sendingAlbums[group].items;
      var i := FindPart(items, msg);
      items := items[i := items[i].(media := Some(media))];
      sendingAlbums := sendingAlbums[group := sendingAlbums[group].(items := items)];
      SendAlbumIfReady(group, w);
    }

    method FindPart(items: seq<Part>, msg: Msg) returns (i: nat)
      requires exists part :: part in items && part.msg == msg
      ensures i < |items| && items[i].msg == msg && forall j :: 0 <= j < i ==> items[j].msg != msg
      ensures Removed(items, msg) == items[..i] + items[i + 1..]
      ensures forall media :: Filled(items, msg, media) == items[i := items[i].(media := Some(media))]
    {
      i := 0;
      var k :| 0 <= k < |items| && items[k].msg == msg;
      while items[i].msg != msg
        invariant i <= k && forall j :: 0 <= j < i ==> items[j].msg != msg
        decreases k - i
      {
        i := i + 1;
      }
      FoundAt(items, msg, i);
    }

    method SendAlbumWithCancelled(msg: Msg, w: World)
      requires msg in groupOf && (groupOf[msg] in sendingAlbums ==> msg in Msgs(sendingAlbums[groupOf[msg]].items))
      modifies this
      ensures Abs() == AfterCancelled(old(Abs()), msg, w)
    {
      hide Ready;
      alive := alive - {msg};
      var group := groupOf[msg];
      if group !in sendingAlbums { return; }
      var items := sendingAlbums[group].items;
      ghost var part := HasPart(items, msg);
      var i := FindPart(items, msg);
      items := items[..i] + items[i + 1..];
      sendingAlbums := sendingAlbums[group := sendingAlbums[group].(items := items)];
      SendAlbumIfReady(group, w);
    }

    method OnReply(id: RequestId, ok: bool)
      requires id in inFlight && inFlight[id].group in sendingAlbums
      modifies this
      ensures Abs() == AfterReply(old(Abs()), id, ok)
    {
      var sending := inFlight[id];
      inFlight := inFlight - {id};
      var items := sendingAlbums[sending.group].items;
      if ok {
        if sending.kind.Paid? {
          alive := alive - set part | part in items :: part.msg;
        }
        Remove(sending.group);
      } else if sending.kind.Paid? {
        failed := failed + Failing(sending.sample);
        unpaid := unpaid + {sending.group};
      } else {
        Remove(sending.group);
        failed := failed + Msgs(items);
      }
    }
  }

  lemma {:induction false} FoundAt(items: seq<Part>, msg: Msg, i: nat)
    requires i < |items| && items[i].msg == msg && forall j :: 0 <= j < i ==> items[j].msg != msg
    ensures Removed(items, msg) == items[..i] + items[i + 1..]
    ensures forall media :: Filled(items, msg, media) == items[i := items[i].(media := Some(media))]
  {
    if i > 0 {
      FoundAt(items[1..], msg, i - 1);
      assert items[1..][..i - 1] == items[..i][1..];
      assert items[1..][i..] == items[i + 1..];
      var init, rest := items[0], items[1..];
      forall media
        ensures [init] + rest[i - 1 := items[i].(media := Some(media))]
        == items[i := items[i].(media := Some(media))] {}
    }
  }
}
