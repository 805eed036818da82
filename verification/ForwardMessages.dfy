/** Forwarding in batches: how the ranges are split, what is paid, and when the success callback runs. */
module ForwardMessages {
  type Peer = nat

  datatype Item = Item(peer: Peer, id: int)
  datatype Range = Range(items: seq<Item>, fromEphemeral: bool)
  datatype Batch = Batch(peer: Peer, fromEphemeral: bool, items: seq<Item>)
  datatype Sent = Sent(batch: Batch, stars: int)

  function Min(a: int, b: int): int { if a < b then a else b }

  // ---- The split ----

  /** Adds an item to the last batch if it is from the same peer, and to a new one otherwise. */
  function Extended(runs: seq<Batch>, item: Item, ephemeral: bool): seq<Batch> {
    if runs != [] && runs[|runs| - 1].peer == item.peer then
      runs[..|runs| - 1] + [runs[|runs| - 1].(items := runs[|runs| - 1].items + [item])]
    else runs + [Batch(item.peer, ephemeral, [item])]
  }

  /** The maximal runs of one source peer. */
  function Runs(items: seq<Item>, ephemeral: bool): seq<Batch> {
    if items == [] then []
    else Extended(Runs(items[..|items| - 1], ephemeral), items[|items| - 1], ephemeral)
  }

  function BatchesOf(ranges: seq<Range>): seq<Batch> {
    if ranges == [] then []
    else BatchesOf(ranges[..|ranges| - 1]) + Runs(ranges[|ranges| - 1].items, ranges[|ranges| - 1].fromEphemeral)
  }

  function ItemsOf(batches: seq<Batch>): seq<Item> {
    if batches == [] then [] else ItemsOf(batches[..|batches| - 1]) + batches[|batches| - 1].items
  }

  function RangeItems(ranges: seq<Range>): seq<Item> {
    if ranges == [] then [] else RangeItems(ranges[..|ranges| - 1]) + ranges[|ranges| - 1].items
  }

  predicate OneSource(b: Batch) {
    b.items != [] && forall i :: i in b.items ==> i.peer == b.peer
  }

  lemma {:induction false} ItemsOfConcat(a: seq<Batch>, b: seq<Batch>)
    ensures ItemsOf(a + b) == ItemsOf(a) + ItemsOf(b)
  {
    if b == [] {
      assert a + b == a;
    } else {
      var init := b[..|b| - 1];
      assert (a + b)[..|a + b| - 1] == a + init;
      ItemsOfConcat(a, init);
    }
  }

  lemma ExtendedItems(runs: seq<Batch>, item: Item, ephemeral: bool)
    ensures ItemsOf(Extended(runs, item, ephemeral)) == ItemsOf(runs) + [item]
  {
    if runs != [] && runs[|runs| - 1].peer == item.peer {
      var front, b := runs[..|runs| - 1], runs[|runs| - 1];
      var b' := b.(items := b.items + [item]);
      assert (front + [b'])[..|front|] == front;
    } else {
      assert (runs + [Batch(item.peer, ephemeral, [item])])[..|runs|] == runs;
    }
  }

  ghost predicate GoodRuns(runs: seq<Batch>, ephemeral: bool) {
    && (forall b :: b in runs ==> OneSource(b) && b.fromEphemeral == ephemeral)
    && (forall i :: 0 < i < |runs| ==> runs[i - 1].peer != runs[i].peer)
  }

  lemma ExtendedGood(runs: seq<Batch>, item: Item, ephemeral: bool)
    requires GoodRuns(runs, ephemeral)
    ensures GoodRuns(Extended(runs, item, ephemeral), ephemeral)
  {
    var after := Extended(runs, item, ephemeral);
    forall i | 0 <= i < |after|
      ensures OneSource(after[i]) && after[i].fromEphemeral == ephemeral
    {
      if i < |runs| { assert runs[i] in runs; }
    }
  }

  /** The runs are the items in order, each run from one peer, neighbours from different peers. */
  lemma {:induction false} RunsSplit(items: seq<Item>, ephemeral: bool)
    ensures ItemsOf(Runs(items, ephemeral)) == items && GoodRuns(Runs(items, ephemeral), ephemeral)
  {
    hide Extended, GoodRuns;
    if items == [] {
      NoRuns(ephemeral);
    } else {
      var init, last := items[..|items| - 1], items[|items| - 1];
      RunsSplit(init, ephemeral);
      ExtendedItems(Runs(init, ephemeral), last, ephemeral);
      ExtendedGood(Runs(init, ephemeral), last, ephemeral);
    }
  }

  lemma NoRuns(ephemeral: bool)
    ensures ItemsOf([]) == [] && GoodRuns([], ephemeral)
  {}

  /** All batches together are the items of all ranges in order; each has one source peer and one flag. */
  lemma {:induction false} BatchesSplit(ranges: seq<Range>)
    ensures var batches := BatchesOf(ranges);
            && ItemsOf(batches) == RangeItems(ranges)
            && (forall b :: b in batches ==> OneSource(b))
            && (forall b :: b in batches ==> exists r :: r in ranges && r.fromEphemeral == b.fromEphemeral
                                                   && forall i :: i in b.items ==> i in r.items)
  {
    if ranges != [] {
      var init, last := ranges[..|ranges| - 1], ranges[|ranges| - 1];
      BatchesSplit(init);
      RunsSplit(last.items, last.fromEphemeral);
      var runs := Runs(last.items, last.fromEphemeral);
      ItemsOfConcat(BatchesOf(init), runs);
      forall b | b in BatchesOf(ranges)
        ensures exists r ::
          r in ranges && r.fromEphemeral == b.fromEphemeral && forall i :: i in b.items ==> i in r.items
      {
        if b in runs {
          BatchInItems(runs, b);
          assert last in ranges;
        } else {
          var r :| r in init && r.fromEphemeral == b.fromEphemeral && forall i :: i in b.items ==> i in r.items;
          assert r in ranges;
        }
      }
    }
  }

  lemma {:induction false} BatchInItems(batches: seq<Batch>, b: Batch)
    requires b in batches
    ensures forall i :: i in b.items ==> i in ItemsOf(batches)
  {
    if b != batches[|batches| - 1] { BatchInItems(batches[..|batches| - 1], b); }
  }

  // ---- The payment ----

  /** Each batch pays for its messages as far as the approval still reaches. */
  function Paid(batches: seq<Batch>, approved: int, price: int): seq<Sent> {
    if batches == [] then []
    else
      var init, last := Paid(batches[..|batches| - 1], approved, price), batches[|batches| - 1];
      init + [Sent(last, Min(approved - Total(init), |last.items| * price))]
  }

  function Total(sent: seq<Sent>): int {
    if sent == [] then 0 else Total(sent[..|sent| - 1]) + sent[|sent| - 1].stars
  }

  lemma TotalNext(sent: seq<Sent>, s: Sent)
    ensures Total(sent + [s]) == Total(sent) + s.stars
  {
    assert (sent + [s])[..|sent|] == sent;
  }

  lemma MinAgain(a: int, x: int, y: int)
    requires a >= 0 && x >= 0 && y >= 0
    ensures Min(a, x) + Min(a - Min(a, x), y) == Min(a, x + y)
  {}

  lemma PriceOf(price: int, m: nat, n: nat)
    requires price >= 0
    ensures price * m >= 0 && n * price >= 0 && price * m + n * price == price * (m + n)
  {}

  /** However the items are split, the payment is the price of all of them or all that was approved. */
  lemma {:induction false} PaidInAll(batches: seq<Batch>, approved: int, price: int)
    requires approved >= 0 && price >= 0
    ensures Total(Paid(batches, approved, price)) == Min(approved, price * |ItemsOf(batches)|)
  {
    hide Min;
    if batches == [] {
      NothingPaid(approved, price);
    } else {
      var init, last := batches[..|batches| - 1], batches[|batches| - 1];
      PaidInAll(init, approved, price);
      var paid := Paid(init, approved, price);
      TotalNext(paid, Sent(last, Min(approved - Total(paid), |last.items| * price)));
      PriceOf(price, |ItemsOf(init)|, |last.items|);
      MinAgain(approved, price * |ItemsOf(init)|, |last.items| * price);
    }
  }

  lemma {:induction false} PaidPrefix(batches: seq<Batch>, approved: int, price: int, k: nat)
    requires k <= |batches|
    ensures var paid := Paid(batches, approved, price);
      && |paid| == |batches| && paid[..k] == Paid(batches[..k], approved, price)
      && (k < |batches| ==> paid[k].batch == batches[k])
  {
    hide Min;
    if k < |batches| {
      PaidPrefix(batches[..|batches| - 1], approved, price, k);
      assert batches[..|batches| - 1][..k] == batches[..k];
    } else {
      assert batches[..k] == batches;
      if batches != [] { PaidPrefix(batches[..|batches| - 1], approved, price, |batches| - 1); }
    }
  }

  /** Every batch goes out, in order, and after each of them as much has been paid as its messages and all before it
      cost, or all that was approved: nothing is paid ahead. */
  lemma PaidInOrder(batches: seq<Batch>, approved: int, price: int, k: nat)
    requires approved >= 0 && price >= 0 && k <= |batches|
    ensures var paid := Paid(batches, approved, price);
      && |paid| == |batches| && (k < |batches| ==> paid[k].batch == batches[k])
      && Total(paid[..k]) == Min(approved, price * |ItemsOf(batches[..k])|)
  {
    PaidPrefix(batches, approved, price, k);
    PaidInAll(batches[..k], approved, price);
  }

  lemma NothingPaid(approved: int, price: int)
    requires approved >= 0
    ensures Total(Paid([], approved, price)) == 0 == Min(approved, price * |ItemsOf([])|)
  {}

  lemma PaidNext(batches: seq<Batch>, b: Batch, approved: int, price: int)
    ensures var paid := Paid(batches, approved, price);
            Paid(batches + [b], approved, price) == paid + [Sent(b, Min(approved - Total(paid), |b.items| * price))]
  {
    hide Min;
    assert (batches + [b])[..|batches|] == batches;
  }

  /** The open batch of the loop over a range: none before the first item. */
  function Open(from: Peer, ephemeral: bool, items: seq<Item>): seq<Batch> {
    if items == [] then [] else [Batch(from, ephemeral, items)]
  }

  /** One turn of that loop: the open batch is closed when the source peer changes. */
  lemma OneTurn(start: seq<Batch>, runs: seq<Batch>, closed: seq<Batch>, from: Peer, ephemeral: bool,
                items: seq<Item>, item: Item)
    requires start + runs == closed + Open(from, ephemeral, items)
    requires items == [] <==> runs == []
    ensures start + Extended(runs, item, ephemeral) ==
      if from == item.peer then closed + Open(from, ephemeral, items + [item])
      else closed + Open(from, ephemeral, items) + Open(item.peer, ephemeral, [item])
    ensures Extended(runs, item, ephemeral) != []
  {
    if items != [] {
      assert (start + runs)[|start + runs| - 1] == runs[|runs| - 1];
      assert runs[|runs| - 1] == Batch(from, ephemeral, items);
      assert (start + runs)[..|start + runs| - 1] == start + runs[..|runs| - 1] == closed;
      assert Open(from, ephemeral, items + [item]) == [Batch(from, ephemeral, items + [item])];
      if from == item.peer {
        assert start + Extended(runs, item, ephemeral)
          == start + runs[..|runs| - 1] + [Batch(from, ephemeral, items + [item])];
      }
    } else {
      assert items + [item] == [item];
      assert start + [] == start && closed + [] == closed;
    }
  }

  // ---- The replies ----

  /** The batches sent, by their position: those in flight and those answered; the counter shared by their handlers,
      if a callback was given, and how often that ran. */
  datatype Replies = Replies(pending: set<nat>, succeeded: set<nat>, failed: set<nat>,
                             shared: bool, left: nat, called: nat)

  /** The reply to one batch. */
  datatype Step = Done(batch: nat) | Fail(batch: nat)

  function Indices(n: nat): set<nat> {
    if n == 0 then {} else Indices(n - 1) + {n - 1}
  }

  lemma {:induction false} IndicesBelow(n: nat)
    ensures forall i: nat :: i in Indices(n) <==> i < n
  {
    if n > 0 {
      IndicesBelow(n - 1);
    }
  }

  lemma IndicesNext(n: nat)
    ensures Indices(n + 1) == Indices(n) + {n} && n !in Indices(n)
  {
    IndicesBelow(n);
  }

  lemma {:induction false} IndicesSize(n: nat)
    ensures |Indices(n)| == n
  {
    if n > 0 {
      IndicesNext(n - 1);
      IndicesSize(n - 1);
    }
  }

  function Started(n: nat, shared: bool): Replies { Replies(Indices(n), {}, {}, shared, if shared then n else 0, 0) }

  predicate Enabled(r: Replies, step: Step) { step.batch in r.pending }

  function AfterDone(r: Replies, batch: nat): Replies
    requires r.shared ==> r.left > 0
  {
    r.(pending := r.pending - {batch}, succeeded := r.succeeded + {batch},
       left := if r.shared then r.left - 1 else r.left,
       called := if r.shared && r.left == 1 then r.called + 1 else r.called)
  }

  function AfterFail(r: Replies, batch: nat): Replies {
    r.(pending := r.pending - {batch}, failed := r.failed + {batch})
  }

  /** Each of the `n` batches is in flight or answered, and the counter is the number of those that did not succeed. */
  ghost predicate Counted(r: Replies, n: nat) {
    && r.pending + r.succeeded + r.failed == Indices(n)
    && r.pending !! r.succeeded && r.pending !! r.failed && r.succeeded !! r.failed
    && (r.shared ==> r.left == n - |r.succeeded|)
    && r.called == if r.shared && n > 0 && r.succeeded == Indices(n) then 1 else 0
  }

  lemma {:induction false} SubsetSize(a: set<nat>, b: set<nat>)
    requires a <= b
    ensures |a| <= |b| && (|a| == |b| <==> a == b)
    decreases |a|
  {
    if a != {} {
      var x :| x in a;
      SubsetSize(a - {x}, b - {x});
      assert a == (a - {x}) + {x} && b == (b - {x}) + {x};
    } else if b != {} {
      assert |b| > 0;
    }
  }

  lemma Moved(a: set<nat>, b: set<nat>, c: set<nat>, x: nat)
    requires x in a && a !! b && a !! c && b !! c
    ensures a - {x} + (b + {x}) + c == a + b + c
    ensures a - {x} !! b + {x} && a - {x} !! c && b + {x} !! c && |b + {x}| == |b| + 1
  {}

  lemma DoneKeeps(r: Replies, n: nat, batch: nat)
    requires Counted(r, n) && batch in r.pending
    ensures (r.shared ==> r.left > 0) && Counted(AfterDone(r, batch), n)
  {
    hide Indices;
    LessDone(r, n);
    Moved(r.pending, r.succeeded, r.failed, batch);
    SubsetSize(r.succeeded + {batch}, Indices(n));
    IndicesSize(n);
  }

  lemma LessDone(r: Replies, n: nat)
    requires Counted(r, n) && r.pending != {}
    ensures |r.succeeded| < n && r.succeeded != Indices(n)
  {
    hide Indices;
    SubsetSize(r.succeeded, Indices(n));
    IndicesSize(n);
    var i :| i in r.pending;
    assert i in Indices(n) && i !in r.succeeded;
  }

  lemma FailKeeps(r: Replies, n: nat, batch: nat)
    requires Counted(r, n) && batch in r.pending
    ensures Counted(AfterFail(r, batch), n)
  {
    hide Indices;
  }

  /** In every state counted, the handler of a success never counts below zero; and each reply keeps the count. */
  lemma ReplyKeeps(r: Replies, n: nat, step: Step)
    requires Counted(r, n) && Enabled(r, step)
    ensures (step.Done? && r.shared ==> r.left > 0) && Counted(Next(r, step), n)
  {
    hide Counted;
    if step.Done? {
      DoneKeeps(r, n, step.batch);
    } else {
      FailKeeps(r, n, step.batch);
    }
  }

  ghost predicate Possible(r: Replies, steps: seq<Step>)
    decreases |steps|
  {
    steps != [] ==>
      && Enabled(r, steps[0]) && (steps[0].Done? && r.shared ==> r.left > 0)
      && Possible(Next(r, steps[0]), steps[1..])
  }

  function Next(r: Replies, step: Step): Replies
    requires step.Done? && r.shared ==> r.left > 0
  {
    if step.Done? then AfterDone(r, step.batch) else AfterFail(r, step.batch)
  }

  ghost function Run(r: Replies, steps: seq<Step>): Replies
    requires Possible(r, steps)
    decreases |steps|
  {
    if steps == [] then r else Run(Next(r, steps[0]), steps[1..])
  }

  lemma {:induction false} EveryRunCounts(r: Replies, n: nat, steps: seq<Step>)
    requires Counted(r, n) && Possible(r, steps)
    ensures Counted(Run(r, steps), n) && Run(r, steps).shared == r.shared
    decreases |steps|
  {
    hide Counted, Enabled;
    if steps != [] {
      ReplyKeeps(r, n, steps[0]);
      EveryRunCounts(Next(r, steps[0]), n, steps[1..]);
    }
  }

  /** In whatever order the replies come: the callback has run once if every batch succeeded, and otherwise not at
      all; if one failed it never runs. */
  lemma CalledOnceOnAllSuccess(n: nat, shared: bool, steps: seq<Step>)
    requires n > 0 && Possible(Started(n, shared), steps)
    ensures var r := Run(Started(n, shared), steps);
      && (r.called == 1 <==> shared && forall i: nat :: i < n ==> i in r.succeeded)
      && r.called <= 1 && (r.failed != {} ==> r.called == 0)
  {
    IndicesBelow(n);
    StartedIsCounted(n, shared);
    EveryRunCounts(Started(n, shared), n, steps);
  }

  // ---- The method ----

  class Forwarding {
    const price: int
    ghost const approved: int // what the user approved at the start
    var starsApproved: int
    var sent: seq<Sent>
    ghost var batches: seq<Batch>
    var shared: bool // whether a success callback was given
    var requestsLeft: nat
    var called: nat // how often it was called
    // The batches in flight, and those answered, by position.
    ghost var pending: set<nat>
    ghost var succeeded: set<nat>
    ghost var failed: set<nat>
    // The accumulators of the loops.
    var forwardFrom: Peer
    var fromEphemeral: bool
    var items: seq<Item>

    ghost predicate Valid()
      reads this
    {
      && price >= 0 && approved >= 0
      && sent == Paid(batches, approved, price) && |sent| == |batches|
      && starsApproved == approved - Total(sent)
      && requestsLeft == (if shared then |sent| else 0)
      && pending == Indices(|sent|) && succeeded == {} && failed == {}
    }

    ghost function Answers(): Replies
      reads this
    {
      Replies(pending, succeeded, failed, shared, requestsLeft, called)
    }

    constructor (price: int, starsApproved: int, successCallback: bool)
      requires price >= 0 && starsApproved >= 0
      ensures Valid() && fresh(this)
      ensures this.price == price && approved == starsApproved && shared == successCallback
      ensures batches == [] && called == 0 && items == []
    {
      this.price, approved, this.starsApproved := price, starsApproved, starsApproved;
      sent, batches, shared, requestsLeft, called := [], [], successCallback, 0, 0;
      forwardFrom, fromEphemeral, items := 0, false, [];
      pending, succeeded, failed := {}, {}, {};
    }

    method SendAccumulated()
      requires Valid()
      modifies this`sent, this`batches, this`starsApproved, this`requestsLeft, this`items, this`pending
      ensures Valid() && items == []
      ensures batches == old(batches) +
        (if old(items) == [] then [] else [Batch(forwardFrom, fromEphemeral, old(items))])
    {
      hide Paid, Total, Min, Indices;
      if items == [] { return; }
      if shared { requestsLeft := requestsLeft + 1; }
      var starsPaid := Min(starsApproved, |items| * price);
      if starsPaid != 0 {
        starsApproved := starsApproved - starsPaid;
      }
      var s := Sent(Batch(forwardFrom, fromEphemeral, items), starsPaid);
      TotalNext(sent, s);
      PaidNext(batches, s.batch, approved, price);
      sent := sent + [s];
      batches := batches + [s.batch];
      IndicesNext(|sent| - 1);
      pending := pending + {|sent| - 1};
      items := [];
    }

    /** The loop over the items of one range, and the batch that closes it. */
    method AddRange(range: Range)
      requires Valid() && items == []
      modifies this`sent, this`batches, this`starsApproved, this`requestsLeft, this`items, this`forwardFrom,
        this`fromEphemeral, this`pending
      ensures Valid() && items == []
      ensures batches == old(batches) + Runs(range.items, range.fromEphemeral)
    {
      hide Paid, Total, Min, Extended, Indices;
      fromEphemeral := range.fromEphemeral;
      ghost var start := batches;
      var i := 0;
      assert range.items[..0] == [];
      while i < |range.items|
        invariant 0 <= i <= |range.items| && Valid() && fromEphemeral == range.fromEphemeral
        invariant items == [] <==> Runs(range.items[..i], fromEphemeral) == []
        invariant start + Runs(range.items[..i], fromEphemeral) == batches + Open(forwardFrom, fromEphemeral, items)
      {
        assert range.items[..i + 1][..i] == range.items[..i];
        var item := range.items[i];
        OneTurn(start, Runs(range.items[..i], fromEphemeral), batches, forwardFrom, fromEphemeral, items, item);
        var newFrom := item.peer;
        if forwardFrom != newFrom {
          SendAccumulated();
          forwardFrom := newFrom;
        }
        assert items == [] ==> items + [item] == [item];
        items := items + [item];
        i := i + 1;
      }
      assert range.items[..i] == range.items;
      SendAccumulated();
    }

    /** `forwardMessages`, from the collected ranges on. */
    method ForwardMessages(collected: seq<Range>)
      requires Valid() && batches == [] && items == [] && called == 0
      requires collected != [] ==> collected[0].items != []
      modifies this
      ensures Valid() && batches == BatchesOf(collected)
      ensures called == if collected == [] && shared then 1 else 0
      ensures collected != [] ==> Answers() == Started(|batches|, shared)
    {
      if collected == [] {
        if shared { called := called + 1; }
        return;
      }
      forwardFrom := collected[0].items[0].peer;
      fromEphemeral := false;
      var i := 0;
      assert collected[..0] == [];
      while i < |collected|
        invariant 0 <= i <= |collected| && Valid() && items == [] && called == 0
        invariant batches == BatchesOf(collected[..i])
      {
        assert collected[..i + 1][..i] == collected[..i];
        AddRange(collected[i]);
        i := i + 1;
      }
      assert collected[..i] == collected;
    }

    /** The done handler of a batch. */
    method OnDone(batch: nat)
      requires batch in pending && Counted(Answers(), |sent|)
      modifies this`requestsLeft, this`called, this`pending, this`succeeded
      ensures old(Answers()).shared ==> old(Answers()).left > 0
      ensures Answers() == AfterDone(old(Answers()), batch) && Counted(Answers(), |sent|)
    {
      DoneKeeps(Answers(), |sent|, batch);
      hide Counted;
      pending, succeeded := pending - {batch}, succeeded + {batch};
      if shared {
        requestsLeft := requestsLeft - 1;
        if requestsLeft == 0 { called := called + 1; }
      }
    }

    /** The fail handler reports the messages and leaves the counter alone. */
    method OnFail(batch: nat)
      requires batch in pending && Counted(Answers(), |sent|)
      modifies this`pending, this`failed
      ensures Answers() == AfterFail(old(Answers()), batch) && Counted(Answers(), |sent|)
    {
      FailKeeps(Answers(), |sent|, batch);
      hide Counted;
      pending, failed := pending - {batch}, failed + {batch};
    }
  }

  lemma StartedIsCounted(n: nat, shared: bool)
    requires n > 0
    ensures Counted(Started(n, shared), n)
  {
    IndicesBelow(n);
  }

  /** A call with something to forward sends at least one batch, so its callback waits for a reply. */
  lemma SomethingIsSent(collected: seq<Range>)
    requires collected != [] && collected[0].items != []
    ensures BatchesOf(collected) != []
  {
    BatchesSplit(collected);
    FirstItems(collected);
  }

  lemma {:induction false} FirstItems(collected: seq<Range>)
    requires collected != []
    ensures collected[0].items <= RangeItems(collected)
  {
    var init := collected[..|collected| - 1];
    if init != [] { FirstItems(init); }
  }

  /** The payment of a whole call. */
  lemma CallPaysInAll(collected: seq<Range>, approved: int, price: int)
    requires approved >= 0 && price >= 0
    ensures Total(Paid(BatchesOf(collected), approved, price)) == Min(approved, price * |RangeItems(collected)|)
  {
    BatchesSplit(collected);
    PaidInAll(BatchesOf(collected), approved, price);
  }
}
