/** Where a part of a list of dialogs ends: the offset from which the next part is asked for. */
module DialogsPage {
  type PeerId = nat
  type MsgId = nat

  /** A dialog with its peer and its top message, or one of a folder or a community, which is passed over. */
  datatype Dialog = Chat(peer: PeerId, top: MsgId) | Other
  /** An empty message has the date 0. */
  datatype Message = Message(id: MsgId, peer: PeerId, date: int)
  datatype Page = Page(dialogs: seq<Dialog>, messages: seq<Message>)

  datatype Offset = Offset(date: int, msg: MsgId, peer: PeerId)
  const NOWHERE := Offset(0, 0, 0)

  predicate Known(d: Dialog) { d.Chat? && d.peer != 0 && d.top != 0 }

  /** How many messages there are up to the last one that is this dialog's top message. */
  function UpTo(messages: seq<Message>, d: Dialog): (n: nat)
    requires d.Chat?
    ensures n <= |messages|
  {
    if messages == [] then 0
    else
      var last := messages[|messages| - 1];
      if last.id == d.top && last.peer == d.peer then |messages| else UpTo(messages[..|messages| - 1], d)
  }

  /** The date of a dialog's top message, 0 if it is not there. */
  function DateOf(messages: seq<Message>, d: Dialog): int
    requires d.Chat?
  {
    var n := UpTo(messages, d);
    if n == 0 then 0 else messages[n - 1].date
  }

  predicate Dated(messages: seq<Message>, d: Dialog) { Known(d) && DateOf(messages, d) != 0 }

  function UpToKnown(dialogs: seq<Dialog>): (n: nat)
    ensures n <= |dialogs|
  {
    if dialogs == [] then 0
    else if Known(dialogs[|dialogs| - 1]) then |dialogs| else UpToKnown(dialogs[..|dialogs| - 1])
  }

  function UpToDated(dialogs: seq<Dialog>, messages: seq<Message>): (n: nat)
    ensures n <= |dialogs|
  {
    if dialogs == [] then 0
    else if Dated(messages, dialogs[|dialogs| - 1]) then |dialogs|
    else UpToDated(dialogs[..|dialogs| - 1], messages)
  }

  lemma {:induction false} UpToIs(messages: seq<Message>, d: Dialog)
    requires d.Chat?
    ensures var n := UpTo(messages, d);
      && (n > 0 ==> messages[n - 1].id == d.top && messages[n - 1].peer == d.peer)
      && forall i :: n <= i < |messages| ==> !(messages[i].id == d.top && messages[i].peer == d.peer)
  {
    if messages != [] {
      UpToIs(messages[..|messages| - 1], d);
    }
  }

  lemma {:induction false} UpToKnownIs(dialogs: seq<Dialog>)
    ensures var n := UpToKnown(dialogs);
      (n > 0 ==> Known(dialogs[n - 1])) && forall i :: n <= i < |dialogs| ==> !Known(dialogs[i])
  {
    if dialogs != [] {
      UpToKnownIs(dialogs[..|dialogs| - 1]);
    }
  }

  lemma {:induction false} UpToDatedIs(dialogs: seq<Dialog>, messages: seq<Message>)
    ensures var n := UpToDated(dialogs, messages);
      (n > 0 ==> Dated(messages, dialogs[n - 1])) && forall i :: n <= i < |dialogs| ==> !Dated(messages, dialogs[i])
  {
    hide DateOf;
    if dialogs != [] {
      UpToDatedIs(dialogs[..|dialogs| - 1], messages);
    }
  }

  function LastOffset(page: Page): Offset {
    var n, k := UpToDated(page.dialogs, page.messages), UpToKnown(page.dialogs);
    UpToDatedIs(page.dialogs, page.messages);
    UpToKnownIs(page.dialogs);
    if n == 0 then NOWHERE
    else Offset(DateOf(page.messages, page.dialogs[n - 1]), page.dialogs[k - 1].top, page.dialogs[k - 1].peer)
  }

  /** There is a date if and only if some dialog is dated. It is that of the last dated dialog, and the message and the
      peer are those of the last known one. */
  lemma LastOffsetIs(page: Page)
    ensures var o, ds := LastOffset(page), page.dialogs;
      && (o.date != 0 <==> exists d :: d in ds && Dated(page.messages, d))
      && (o.date != 0 ==>
            && (exists i :: 0 <= i < |ds| && Dated(page.messages, ds[i]) && o.date == DateOf(page.messages, ds[i])
                            && forall j :: i < j < |ds| ==> !Dated(page.messages, ds[j]))
            && (exists k :: 0 <= k < |ds| && ds[k] == Chat(o.peer, o.msg) && Known(ds[k])
                            && forall j :: k < j < |ds| ==> !Known(ds[j])))
  {
    var ds, n, k := page.dialogs, UpToDated(page.dialogs, page.messages), UpToKnown(page.dialogs);
    UpToDatedIs(ds, page.messages);
    UpToKnownIs(ds);
    hide DateOf, UpToDated, UpToKnown;
    if n > 0 {
      assert ds[n - 1] in ds && Known(ds[k - 1]) && ds[k - 1] == Chat(LastOffset(page).peer, LastOffset(page).msg);
    }
  }

  /** The date of a dialog is that of the last message that is its top one, and 0 without one. */
  lemma DateIs(messages: seq<Message>, d: Dialog)
    requires d.Chat?
    ensures (exists i :: 0 <= i < |messages| && messages[i].id == d.top && messages[i].peer == d.peer
                         && messages[i].date == DateOf(messages, d)
                         && forall j :: i < j < |messages| ==> !(messages[j].id == d.top && messages[j].peer == d.peer))
            || (DateOf(messages, d) == 0
                && forall m :: m in messages ==> !(m.id == d.top && m.peer == d.peer))
  {
    UpToIs(messages, d);
    var n := UpTo(messages, d);
    hide UpTo;
    if n > 0 {
      assert messages[n - 1].id == d.top;
    }
  }

  /** The inner loop: the last message that is the dialog's. */
  method FindDate(messages: seq<Message>, d: Dialog) returns (date: int)
    requires d.Chat?
    ensures date == DateOf(messages, d)
  {
    UpToIs(messages, d);
    hide UpTo;
    var i := |messages|;
    while i > 0
      invariant 0 <= i <= |messages|
      invariant forall j :: i <= j < |messages| ==> !(messages[j].id == d.top && messages[j].peer == d.peer)
    {
      i := i - 1;
      if messages[i].id == d.top && messages[i].peer == d.peer { return messages[i].date; }
    }
    date := 0;
  }

  /** The loop of `updateDialogsOffset`, from the last dialog to the first. */
  method FindOffset(page: Page) returns (o: Offset)
    ensures o.date == LastOffset(page).date && (o.date != 0 ==> o == LastOffset(page))
  {
    UpToDatedIs(page.dialogs, page.messages);
    UpToKnownIs(page.dialogs);
    hide UpToDated, UpToKnown, DateOf;
    o := NOWHERE;
    var i := |page.dialogs|;
    while i > 0 && o.date == 0
      invariant 0 <= i <= |page.dialogs|
      invariant o.date == 0 ==> forall j :: i <= j < |page.dialogs| ==> !Dated(page.messages, page.dialogs[j])
      invariant o.date != 0 ==> i < |page.dialogs| && Dated(page.messages, page.dialogs[i])
      invariant o.date != 0 ==> o.date == DateOf(page.messages, page.dialogs[i])
      invariant o.date != 0 ==> forall j :: i < j < |page.dialogs| ==> !Dated(page.messages, page.dialogs[j])
      invariant o.peer == 0 <==> o.msg == 0
      invariant o.peer == 0 ==> forall j :: i <= j < |page.dialogs| ==> !Known(page.dialogs[j])
      invariant o.peer != 0 ==> UpToKnown(page.dialogs) > 0
      invariant o.peer != 0 ==> page.dialogs[UpToKnown(page.dialogs) - 1] == Chat(o.peer, o.msg)
    {
      i := i - 1;
      var d := page.dialogs[i];
      if Known(d) {
        if o.peer == 0 {
          o := o.(peer := d.peer);
        }
        if o.msg == 0 {
          o := o.(msg := d.top);
        }
        var date := FindDate(page.messages, d);
        o := o.(date := date);
      }
    }
  }

  /** The offset is that of one dialog if and only if the last known dialog is dated. */
  lemma OffsetOfOneDialog(page: Page)
    requires LastOffset(page).date != 0
    ensures UpToKnown(page.dialogs) > 0
    ensures var o, d := LastOffset(page), page.dialogs[UpToKnown(page.dialogs) - 1];
      d.Chat? && ((exists x :: x in page.dialogs && x == Chat(o.peer, o.msg) && DateOf(page.messages, x) == o.date)
                  <==> DateOf(page.messages, d) == o.date)
  {
    UpToDatedIs(page.dialogs, page.messages);
    UpToKnownIs(page.dialogs);
    hide DateOf;
    var d := page.dialogs[UpToKnown(page.dialogs) - 1];
    assert d in page.dialogs;
  }

  /** The top message of the last dialog is not there: the next part is asked for with the date of the one before it,
      but with the message and the peer of the last one. */
  lemma MixedOffset()
    ensures var page := Page([Chat(1, 10), Chat(2, 20)], [Message(10, 1, 300)]);
      LastOffset(page) == Offset(300, 20, 2)
  {
    var dialogs, messages := [Chat(1, 10), Chat(2, 20)], [Message(10, 1, 300)];
    assert messages[..0] == [] && dialogs[..1] == [Chat(1, 10)];
    assert UpTo(messages, Chat(2, 20)) == 0 && UpTo(messages, Chat(1, 10)) == 1;
    assert UpToDated(dialogs[..1], messages) == 1;
  }
}
