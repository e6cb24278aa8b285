/** What every mailbox keeps, whatever is routed into it and drawn from it: order,
    conservation with exact loss accounting, privacy and frame shape. */
module MailboxLaws {
  import opened Types
  import opened Mailbox

  // ------------------------------------------------------------------ vocabulary

  /** Ids increase along the sequence; id 0 (the hub's own lines) is exempt. */
  predicate Rising(xs: seq<Msg>) {
    forall i, j :: 0 <= i < j < |xs| && xs[i].id != 0 && xs[j].id != 0 ==> xs[i].id < xs[j].id
  }

  /** Every id of `xs` is smaller than every id of `ys`. */
  predicate Below(xs: seq<Msg>, ys: seq<Msg>) {
    forall i, j :: 0 <= i < |xs| && 0 <= j < |ys| && xs[i].id != 0 && ys[j].id != 0 ==> xs[i].id < ys[j].id
  }

  /** No id occurs on both sides. */
  predicate Apart(xs: seq<Msg>, ys: seq<Msg>) {
    forall i, j :: 0 <= i < |xs| && 0 <= j < |ys| && xs[i].id != 0 ==> xs[i].id != ys[j].id
  }

  predicate UpTo(xs: seq<Msg>, hi: nat) {
    forall i :: 0 <= i < |xs| ==> xs[i].id <= hi
  }

  predicate Sorted(xs: seq<Msg>) {
    forall i, j :: 0 <= i < j < |xs| ==> xs[i].id <= xs[j].id
  }

  /** Everything handed out so far, in the order it was handed out. */
  function Sent(frames: seq<Frame>): seq<Msg> {
    if frames == [] then [] else Sent(frames[..|frames| - 1]) + frames[|frames| - 1].msgs
  }

  /** The routed copies among `xs`: everything but the hub's loss notices. */
  function Copies(xs: seq<Msg>): multiset<Msg> {
    if xs == [] then multiset{}
    else Copies(xs[..|xs| - 1]) + (if xs[|xs| - 1].Notice() then multiset{} else multiset{xs[|xs| - 1]})
  }

  /** The losses announced by the notices among `xs`. */
  function Announces(xs: seq<Msg>): nat {
    if xs == [] then 0 else Announces(xs[..|xs| - 1]) + xs[|xs| - 1].Announces()
  }

  function Wakes(xs: seq<Msg>): nat {
    if xs == [] then 0
    else Wakes(xs[..|xs| - 1]) + (if xs[|xs| - 1].addressing == Overheard then 0 else 1)
  }

  predicate QueueLine(m: Msg) {
    m.id > 0 && !m.Notice() && (m.addressing == Direct || m.addressing == Broadcast)
  }

  predicate ContextLine(m: Msg) {
    !m.Notice() && m.addressing == Overheard
  }

  predicate Readable(owner: Name, m: Msg) {
    m.private ==> m.to == owner
  }

  predicate AllReadable(owner: Name, xs: seq<Msg>) {
    forall i :: 0 <= i < |xs| ==> Readable(owner, xs[i])
  }

  // ------------------------------------------------------------------ the invariant

  /** `hand` is a batch drawn from the box and not yet handed over. */
  ghost predicate Ordered(hi: nat, b: Box, hand: seq<Msg>) {
    && Rising(b.queue) && Rising(b.ctx.items) && Rising(Sent(b.frames)) && Rising(SortById(hand))
    && UpTo(b.queue, hi) && UpTo(b.ctx.items, hi) && UpTo(Sent(b.frames), hi) && UpTo(hand, hi)
    && Below(Sent(b.frames), b.queue) && Below(Sent(b.frames), b.ctx.items) && Below(Sent(b.frames), hand)
    && Below(hand, b.queue) && Below(hand, b.ctx.items)
    && Apart(b.queue, b.ctx.items)
  }

  ghost predicate Conserved(b: Box, hand: seq<Msg>) {
    && b.routed == Copies(Sent(b.frames)) + Copies(hand) + multiset(b.queue) + multiset(b.ctx.items) + multiset(b.lost)
    && |b.lost| == Announces(Sent(b.frames)) + Announces(hand) + b.dropped + b.ctx.evicted
  }

  ghost predicate Discreet(owner: Name, b: Box, hand: seq<Msg>) {
    && AllReadable(owner, b.queue) && AllReadable(owner, b.ctx.items)
    && AllReadable(owner, Sent(b.frames)) && AllReadable(owner, hand)
  }

  predicate BatchSize(cfg: Config, xs: seq<Msg>) {
    && 1 <= Wakes(xs) <= cfg.deliverWakeCap
    && |xs| - Wakes(xs) <= cfg.contextCap + 1
  }

  ghost predicate Shaped(cfg: Config, b: Box, hand: seq<Msg>) {
    && |b.queue| <= cfg.queueCap
    && |b.ctx.items| <= cfg.contextCap
    && (b.dropped > 0 ==> b.queue != [])
    && (forall i :: 0 <= i < |b.queue| ==> QueueLine(b.queue[i]))
    && (forall i :: 0 <= i < |b.ctx.items| ==> ContextLine(b.ctx.items[i]))
    && (forall f :: 0 <= f < |b.frames| ==> Sorted(b.frames[f].msgs) && BatchSize(cfg, b.frames[f].msgs))
    && (hand != [] ==> BatchSize(cfg, hand))
  }

  ghost predicate BoxInv(cfg: Config, hi: nat, owner: Name, b: Box, hand: seq<Msg>) {
    && Ordered(hi, b, hand)
    && Conserved(b, hand)
    && Discreet(owner, b, hand)
    && Shaped(cfg, b, hand)
  }

  // ------------------------------------------------------------------ sorting

  lemma {:induction false} CopiesConcat(xs: seq<Msg>, ys: seq<Msg>)
    ensures Copies(xs + ys) == Copies(xs) + Copies(ys)
    ensures Announces(xs + ys) == Announces(xs) + Announces(ys)
    ensures Wakes(xs + ys) == Wakes(xs) + Wakes(ys)
  {
    hide Copies, Announces, Wakes;
    if ys == [] {
      assert xs + ys == xs;
      NoCopies();
    } else {
      var init, m := ys[..|ys| - 1], ys[|ys| - 1];
      CopiesConcat(xs, init);
      CopiesGrow(xs + init, m);
      CopiesGrow(init, m);
      assert xs + init + [m] == xs + ys;
      assert init + [m] == ys;
    }
  }

  lemma NoCopies()
    ensures Copies([]) == multiset{} && Announces([]) == 0 && Wakes([]) == 0
  {
  }

  lemma CopiesGrow(xs: seq<Msg>, m: Msg)
    ensures Copies(xs + [m]) == Copies(xs) + Copies([m])
    ensures Announces(xs + [m]) == Announces(xs) + Announces([m])
    ensures Wakes(xs + [m]) == Wakes(xs) + Wakes([m])
  {
    assert (xs + [m])[..|xs|] == xs;
    assert [m][..0] == [];
  }

  lemma {:induction false} CopiesPlain(xs: seq<Msg>)
    requires forall i :: 0 <= i < |xs| ==> !xs[i].Notice()
    ensures Copies(xs) == multiset(xs) && Announces(xs) == 0
  {
    if xs != [] {
      CopiesPlain(xs[..|xs| - 1]);
      assert xs == xs[..|xs| - 1] + [xs[|xs| - 1]];
    }
  }

  lemma {:induction false} WakesPlain(xs: seq<Msg>, overheard: bool)
    requires forall i :: 0 <= i < |xs| ==> (xs[i].addressing == Overheard <==> overheard)
    ensures Wakes(xs) == if overheard then 0 else |xs|
  {
    if xs != [] {
      WakesPlain(xs[..|xs| - 1], overheard);
    }
  }

  /** Where an insertion lands. */
  lemma {:induction false} InsertAt(xs: seq<Msg>, m: Msg) returns (k: nat)
    ensures k <= |xs| && Insert(xs, m) == xs[..k] + [m] + xs[k..]
    ensures k > 0 ==> xs[k - 1].id <= m.id
    ensures k < |xs| ==> m.id < xs[k].id
  {
    if xs == [] || xs[|xs| - 1].id <= m.id {
      k := |xs|;
    } else {
      var init, last := xs[..|xs| - 1], xs[|xs| - 1];
      k := InsertAt(init, m);
      assert xs[k..] == init[k..] + [last];
      assert xs[..k] == init[..k];
    }
  }

  lemma InsertKeeps(xs: seq<Msg>, m: Msg)
    ensures multiset(Insert(xs, m)) == multiset(xs) + multiset{m}
  {
    var k := InsertAt(xs, m);
    assert xs == xs[..k] + xs[k..];
  }

  lemma {:induction false} InsertCounts(xs: seq<Msg>, m: Msg)
    ensures Copies(Insert(xs, m)) == Copies(xs) + Copies([m])
    ensures Announces(Insert(xs, m)) == Announces(xs) + Announces([m])
    ensures Wakes(Insert(xs, m)) == Wakes(xs) + Wakes([m])
  {
    if xs == [] || xs[|xs| - 1].id <= m.id {
      CopiesConcat(xs, [m]);
    } else {
      var init, last := xs[..|xs| - 1], xs[|xs| - 1];
      InsertCounts(init, m);
      var ys := Insert(init, m) + [last];
      assert Insert(xs, m) == ys;
      assert ys[..|ys| - 1] == Insert(init, m);
    }
  }

  lemma InsertSorts(xs: seq<Msg>, m: Msg)
    requires Sorted(xs)
    ensures Sorted(Insert(xs, m))
  {
    var k := InsertAt(xs, m);
  }

  /** Sorting yields an ordered rearrangement and changes none of the counts. */
  lemma {:induction false} SortKeeps(xs: seq<Msg>)
    ensures multiset(SortById(xs)) == multiset(xs)
    ensures Sorted(SortById(xs))
    ensures Copies(SortById(xs)) == Copies(xs)
    ensures Announces(SortById(xs)) == Announces(xs)
    ensures Wakes(SortById(xs)) == Wakes(xs)
  {
    if xs != [] {
      var init, last := xs[..|xs| - 1], xs[|xs| - 1];
      assert xs == init + [last];
      SortKeeps(init);
      InsertKeeps(SortById(init), last);
      InsertCounts(SortById(init), last);
      InsertSorts(SortById(init), last);
      CopiesConcat(init, [last]);
    }
  }

  lemma SortMembers(xs: seq<Msg>, i: nat)
    requires i < |SortById(xs)|
    ensures exists j :: 0 <= j < |xs| && xs[j] == SortById(xs)[i]
  {
    SortKeeps(xs);
    assert SortById(xs)[i] in multiset(SortById(xs));
    assert SortById(xs)[i] in multiset(xs);
  }

  /** A batch without repeated ids is strictly increasing once sorted. */
  lemma {:induction false} SortRises(xs: seq<Msg>)
    requires forall i, j :: 0 <= i < j < |xs| && xs[i].id != 0 ==> xs[i].id != xs[j].id
    ensures Rising(SortById(xs))
  {
    if xs != [] {
      var init, last := xs[..|xs| - 1], xs[|xs| - 1];
      SortRises(init);
      SortKeeps(init);
      forall i | 0 <= i < |SortById(init)| && SortById(init)[i].id != 0
        ensures SortById(init)[i].id != last.id
      {
        SortMembers(init, i);
      }
      InsertRises(SortById(init), last);
    }
  }

  lemma InsertRises(xs: seq<Msg>, m: Msg)
    requires Sorted(xs) && Rising(xs)
    requires forall i :: 0 <= i < |xs| && xs[i].id != 0 ==> xs[i].id != m.id
    ensures Rising(Insert(xs, m))
  {
    var k := InsertAt(xs, m);
  }

  lemma SentGrows(frames: seq<Frame>, f: Frame)
    ensures Sent(frames + [f]) == Sent(frames) + f.msgs
  {
    assert (frames + [f])[..|frames|] == frames;
  }

  // ------------------------------------------------------------------ the operations

  lemma EmptyBoxHolds(cfg: Config, owner: Name)
    requires cfg.Valid()
    ensures BoxInv(cfg, 0, owner, EMPTY_BOX, [])
  {
  }

  lemma BoxMonotone(cfg: Config, lo: nat, hi: nat, owner: Name, b: Box, hand: seq<Msg>)
    requires BoxInv(cfg, lo, owner, b, hand) && lo <= hi
    ensures BoxInv(cfg, hi, owner, b, hand)
  {
  }

  // Enqueue: a wake message joins the queue of a recipient that cannot be woken now.

  lemma EnqueueOrdered(cfg: Config, hi: nat, b: Box, m: Msg)
    requires Ordered(hi, b, []) && m.id > hi
    ensures Ordered(m.id, Enqueue(cfg, b, m), [])
  {
    var c := Enqueue(cfg, b, m);
    var k := |b.queue| + 1 - |c.queue|;
    assert c.queue == b.queue[k..] + [m];
    ExtendOrdered(hi, b.queue[k..], m, b.ctx.items, Sent(b.frames));
  }

  /** A larger id at the end keeps every order fact about a line. */
  lemma ExtendOrdered(hi: nat, xs: seq<Msg>, m: Msg, apart: seq<Msg>, sent: seq<Msg>)
    requires Rising(xs) && UpTo(xs, hi) && Apart(xs, apart) && Below(sent, xs)
    requires UpTo(apart, hi) && UpTo(sent, hi) && m.id > hi
    ensures Rising(xs + [m]) && UpTo(xs + [m], m.id) && Apart(xs + [m], apart) && Below(sent, xs + [m])
    ensures UpTo(apart, m.id) && UpTo(sent, m.id)
  {
  }

  lemma EnqueueConserved(cfg: Config, b: Box, m: Msg)
    requires cfg.Valid() && Conserved(b, [])
    ensures Conserved(Enqueue(cfg, b, m), [])
  {
    hide Sent, Copies, Announces;
    var c := Enqueue(cfg, b, m);
    if |b.queue| >= cfg.queueCap {
      PushedOut(b.queue, b.lost, m);
    }
    Exchange(Copies(Sent(b.frames)), Copies([]), multiset(b.queue), multiset(b.ctx.items), multiset(b.lost),
      multiset(c.queue), multiset(c.lost), m);
  }

  /** Two terms of a sum may change by what their own sum gains. */
  lemma Exchange(a: multiset<Msg>, b: multiset<Msg>, x: multiset<Msg>, c: multiset<Msg>, y: multiset<Msg>,
                 x': multiset<Msg>, y': multiset<Msg>, m: Msg)
    requires x' + y' == x + y + multiset{m}
    ensures a + b + x + c + y + multiset{m} == a + b + x' + c + y'
  {
    forall k
      ensures (a + b + x + c + y + multiset{m})[k] == (a + b + x' + c + y')[k]
    {
      assert (x' + y')[k] == (x + y + multiset{m})[k];
    }
  }

  lemma PushedOut(queue: seq<Msg>, lost: seq<Msg>, m: Msg)
    requires queue != []
    ensures multiset(queue[1..] + [m]) + multiset(lost + [queue[0]]) == multiset(queue) + multiset(lost) + multiset{m}
  {
    assert queue == [queue[0]] + queue[1..];
  }

  lemma EnqueueShaped(cfg: Config, owner: Name, b: Box, m: Msg)
    requires cfg.Valid() && Discreet(owner, b, []) && Shaped(cfg, b, [])
    requires QueueLine(m) && Readable(owner, m)
    ensures Discreet(owner, Enqueue(cfg, b, m), []) && Shaped(cfg, Enqueue(cfg, b, m), [])
  {
  }

  lemma EnqueueHolds(cfg: Config, hi: nat, owner: Name, b: Box, m: Msg)
    requires cfg.Valid() && BoxInv(cfg, hi, owner, b, [])
    requires m.id > hi && QueueLine(m) && Readable(owner, m)
    ensures BoxInv(cfg, m.id, owner, Enqueue(cfg, b, m), [])
  {
    hide Ordered, Conserved, Discreet, Shaped;
    EnqueueOrdered(cfg, hi, b, m);
    EnqueueConserved(cfg, b, m);
    EnqueueShaped(cfg, owner, b, m);
  }

  // Overhear: a line joins the context; an id-0 line may come at any time.

  lemma OverhearOrdered(cfg: Config, hi: nat, b: Box, m: Msg)
    requires Ordered(hi, b, []) && (m.id == 0 || m.id > hi)
    ensures Ordered(if m.id == 0 then hi else m.id, Overhear(cfg, b, m), [])
  {
    hide Sent;
    var k := Excess(cfg.contextCap, b.ctx);
    assert Overhear(cfg, b, m).ctx.items == b.ctx.items[k..] + [m];
    ExtendContext(hi, b.ctx.items, k, m, b.queue, Sent(b.frames));
  }

  /** A line without a number, or with a larger one, at the end of what is left of the context. */
  lemma ExtendContext(hi: nat, xs: seq<Msg>, k: nat, m: Msg, queue: seq<Msg>, sent: seq<Msg>)
    requires Rising(xs) && UpTo(xs, hi) && Apart(queue, xs) && Below(sent, xs) && k <= |xs|
    requires UpTo(queue, hi) && UpTo(sent, hi) && (m.id == 0 || m.id > hi)
    ensures var top := if m.id == 0 then hi else m.id;
            && Rising(xs[k..] + [m]) && UpTo(xs[k..] + [m], top) && Apart(queue, xs[k..] + [m])
            && Below(sent, xs[k..] + [m]) && UpTo(queue, top) && UpTo(sent, top)
  {
  }

  lemma OverhearConserved(cfg: Config, b: Box, m: Msg)
    requires Conserved(b, [])
    ensures Conserved(Overhear(cfg, b, m), [])
  {
    var k := Excess(cfg.contextCap, b.ctx);
    assert b.ctx.items == b.ctx.items[..k] + b.ctx.items[k..];
  }

  lemma OverhearShaped(cfg: Config, owner: Name, b: Box, m: Msg)
    requires cfg.Valid() && Discreet(owner, b, []) && Shaped(cfg, b, [])
    requires ContextLine(m) && Readable(owner, m)
    ensures Discreet(owner, Overhear(cfg, b, m), []) && Shaped(cfg, Overhear(cfg, b, m), [])
  {
  }

  lemma OverhearHolds(cfg: Config, hi: nat, owner: Name, b: Box, m: Msg)
    requires cfg.Valid() && BoxInv(cfg, hi, owner, b, [])
    requires (m.id == 0 || m.id > hi) && ContextLine(m) && Readable(owner, m)
    ensures BoxInv(cfg, if m.id == 0 then hi else m.id, owner, Overhear(cfg, b, m), [])
  {
    hide Ordered, Conserved, Discreet, Shaped;
    OverhearOrdered(cfg, hi, b, m);
    OverhearConserved(cfg, b, m);
    OverhearShaped(cfg, owner, b, m);
  }

  // Drain: a prefix of the context goes out, its evictions announced.

  predicate UpToOpt(xs: seq<Msg>, upto: Option<nat>) {
    upto.Some? ==> UpTo(xs, upto.value)
  }

  /** Every id of `xs`, the hub's own lines aside, is larger than `hi`. */
  predicate Beyond(xs: seq<Msg>, hi: nat) {
    forall i :: 0 <= i < |xs| && xs[i].id != 0 ==> xs[i].id > hi
  }

  lemma {:induction false} ReachSplits(items: seq<Msg>, upto: Option<nat>)
    requires Rising(items)
    ensures UpToOpt(items[..Reach(items, upto)], upto)
    ensures upto.Some? ==> Beyond(items[Reach(items, upto)..], upto.value)
    ensures upto.None? ==> Reach(items, upto) == |items|
  {
    if items == [] || (upto.Some? && items[0].id > upto.value) {
    } else {
      var rest := items[1..];
      var r := Reach(rest, upto);
      ReachSplits(rest, upto);
      assert items[..1 + r] == [items[0]] + rest[..r];
      assert items[1 + r..] == rest[r..];
    }
  }

  lemma OmitCounts(n: nat)
    ensures Copies([OmitLine(n)]) == multiset{} && Announces([OmitLine(n)]) == n && Wakes([OmitLine(n)]) == 0
  {
    assert [OmitLine(n)][..0] == [];
  }

  lemma DrainCounts(c: Ctx, upto: Option<nat>)
    requires forall i :: 0 <= i < |c.items| ==> ContextLine(c.items[i])
    ensures Copies(Drained(c, upto)) + multiset(AfterDrain(c, upto).items) == multiset(c.items)
    ensures Announces(Drained(c, upto)) == c.evicted
    ensures Wakes(Drained(c, upto)) == 0
  {
    hide Reach, Copies, Announces, Wakes, ContextLine, OmitLine;
    var k := Reach(c.items, upto);
    var head := c.items[..k];
    HeadCounts(head) by {
      assert forall i :: 0 <= i < |head| ==> head[i] == c.items[i];
    }
    assert c.items == head + c.items[k..];
    if c.evicted > 0 {
      OmitCounts(c.evicted);
      CopiesConcat([OmitLine(c.evicted)], head);
    } else {
      assert Drained(c, upto) == head;
    }
  }

  lemma HeadCounts(head: seq<Msg>)
    requires forall i :: 0 <= i < |head| ==> ContextLine(head[i])
    ensures Copies(head) == multiset(head) && Announces(head) == 0 && Wakes(head) == 0
  {
    CopiesPlain(head);
    WakesPlain(head, true);
  }

  // Wake: an idle recipient with an empty queue is woken at once, its context riding along.

  lemma WakeOrdered(hi: nat, b: Box, m: Msg)
    requires Ordered(hi, b, []) && m.id > hi && b.queue == []
    ensures Ordered(m.id, AfterWake(b, m), WakeBatch(b, m))
  {
    hide Drained, AfterDrain, SortById, Sent;
    BatchRises(b.ctx, Some(m.id), [m]);
    DrainOrdered(hi, b.ctx, Some(m.id), Sent(b.frames));
  }

  lemma OneCounts(m: Msg)
    requires QueueLine(m)
    ensures Copies([m]) == multiset{m} && Announces([m]) == 0 && Wakes([m]) == 1
  {
    assert [m][..0] == [];
  }

  lemma WakeConserved(b: Box, m: Msg)
    requires Conserved(b, []) && QueueLine(m)
    requires forall i :: 0 <= i < |b.ctx.items| ==> ContextLine(b.ctx.items[i])
    ensures Conserved(AfterWake(b, m), WakeBatch(b, m))
    ensures Wakes(WakeBatch(b, m)) == 1
  {
    DrainCounts(b.ctx, Some(m.id));
    OneCounts(m);
    CopiesConcat(Drained(b.ctx, Some(m.id)), [m]);
  }

  lemma WakeShaped(cfg: Config, owner: Name, b: Box, m: Msg)
    requires cfg.Valid() && Discreet(owner, b, []) && Shaped(cfg, b, [])
    requires QueueLine(m) && Readable(owner, m) && Wakes(WakeBatch(b, m)) == 1
    ensures Discreet(owner, AfterWake(b, m), WakeBatch(b, m)) && Shaped(cfg, AfterWake(b, m), WakeBatch(b, m))
  {
    assert |WakeBatch(b, m)| <= |b.ctx.items| + 2;
  }

  lemma WakeHolds(cfg: Config, hi: nat, owner: Name, b: Box, m: Msg)
    requires cfg.Valid() && BoxInv(cfg, hi, owner, b, []) && b.queue == []
    requires m.id > hi && QueueLine(m) && Readable(owner, m)
    ensures BoxInv(cfg, m.id, owner, AfterWake(b, m), WakeBatch(b, m))
    ensures WakeBatch(b, m) != []
  {
    WakeOrdered(hi, b, m);
    WakeConserved(b, m);
    WakeShaped(cfg, owner, b, m);
    hide Ordered, Conserved, Discreet, Shaped;
  }

  // Slice: an idle transition draws one slice of the queue and the context that precedes it.

  lemma AnnouncedOrdered(hi: nat, owner: Name, b: Box)
    requires Ordered(hi, b, [])
    ensures Rising(Announced(owner, b)) && UpTo(Announced(owner, b), hi)
    ensures Below(Sent(b.frames), Announced(owner, b)) && Apart(Announced(owner, b), b.ctx.items)
  {
    PutInFront(hi, DropLine(owner, b.dropped), b.queue, b.ctx.items, Sent(b.frames));
    hide Rising, UpTo, Below, Apart, Sent;
    assert [] + b.queue == b.queue;
  }

  /** A line without a number in front disturbs no order. */
  lemma PutInFront(hi: nat, m: Msg, xs: seq<Msg>, apart: seq<Msg>, sent: seq<Msg>)
    requires m.id == 0 && Rising(xs) && UpTo(xs, hi) && Below(sent, xs) && Apart(xs, apart)
    ensures Rising([m] + xs) && UpTo([m] + xs, hi) && Below(sent, [m] + xs) && Apart([m] + xs, apart)
  {
  }

  lemma RisingParts(xs: seq<Msg>, k: nat)
    requires Rising(xs) && k <= |xs|
    ensures Rising(xs[..k]) && Rising(xs[k..]) && Below(xs[..k], xs[k..])
  {
  }

  lemma LastIsBound(wake: seq<Msg>, rest: seq<Msg>)
    requires wake != [] && Rising(wake + rest) && (wake[|wake| - 1].id == 0 ==> |wake| == 1)
    requires forall i :: 0 <= i < |rest| ==> rest[i].id > 0
    ensures UpTo(wake, wake[|wake| - 1].id) && Beyond(rest, wake[|wake| - 1].id)
  {
    forall i | 0 <= i < |rest|
      ensures rest[i].id > wake[|wake| - 1].id
    {
      assert (wake + rest)[|wake| + i] == rest[i] && (wake + rest)[|wake| - 1] == wake[|wake| - 1];
    }
    forall i | 0 <= i < |wake|
      ensures wake[i].id <= wake[|wake| - 1].id
    {
      assert (wake + rest)[i] == wake[i] && (wake + rest)[|wake| - 1] == wake[|wake| - 1];
    }
  }

  /** How the context is cut by a drain. */
  lemma DrainOrdered(hi: nat, c: Ctx, bound: Option<nat>, sent: seq<Msg>)
    requires Rising(c.items) && UpTo(c.items, hi) && Below(sent, c.items)
    ensures var left, out := AfterDrain(c, bound).items, Drained(c, bound);
            && Rising(left) && UpTo(left, hi) && UpTo(out, hi)
            && Below(sent, left) && Below(sent, out) && Below(out, left)
            && (bound.Some? ==> UpTo(out, bound.value) && Beyond(left, bound.value))
            && (bound.None? ==> left == [])
            && (forall i :: 0 <= i < |left| ==> left[i] in c.items)
  {
    hide Reach, Rising, Beyond;
    var k := Reach(c.items, bound);
    RisingParts(c.items, k);
    ReachSplits(c.items, bound);
    PartsOrdered(hi, c.items, k, sent);
    hide Below, UpTo;
    var head, left := c.items[..k], c.items[k..];
    HeadOrdered(hi, c.evicted, head, left, sent);
    if bound.Some? {
      HeadOrdered(bound.value, c.evicted, head, left, sent);
    }
  }

  lemma PartsOrdered(hi: nat, items: seq<Msg>, k: nat, sent: seq<Msg>)
    requires k <= |items| && UpTo(items, hi) && Below(sent, items)
    ensures UpTo(items[..k], hi) && UpTo(items[k..], hi) && Below(sent, items[..k]) && Below(sent, items[k..])
    ensures forall i :: 0 <= i < |items[k..]| ==> items[k..][i] in items
  {
  }

  /** The line that announces evictions has no place in the order. */
  lemma HeadOrdered(hi: nat, evicted: nat, head: seq<Msg>, left: seq<Msg>, sent: seq<Msg>)
    ensures var out := (if evicted > 0 then [OmitLine(evicted)] else []) + head;
            && (UpTo(head, hi) ==> UpTo(out, hi))
            && (Below(sent, head) ==> Below(sent, out))
            && (Below(head, left) ==> Below(out, left))
  {
  }

  lemma BoundSeparates(xs: seq<Msg>, ys: seq<Msg>, bound: nat)
    requires UpTo(xs, bound) && Beyond(ys, bound)
    ensures Below(xs, ys)
  {
  }

  lemma BelowConcat(xs: seq<Msg>, ys: seq<Msg>, zs: seq<Msg>)
    ensures Below(xs, zs) && Below(ys, zs) ==> Below(xs + ys, zs)
    ensures Below(zs, xs) && Below(zs, ys) ==> Below(zs, xs + ys)
  {
  }

  /** The slice taken as a whole: `wake` and `rest` cut the queue, `bound` cuts the context. */
  lemma CutOrdered(hi: nat, wake: seq<Msg>, rest: seq<Msg>, c: Ctx, bound: Option<nat>, sent: seq<Msg>)
    requires Rising(wake + rest) && UpTo(wake + rest, hi) && Below(sent, wake + rest) && Apart(wake + rest, c.items)
    requires Rising(c.items) && UpTo(c.items, hi) && Below(sent, c.items)
    requires bound.None? ==> rest == []
    requires bound.Some? ==> UpTo(wake, bound.value) && Beyond(rest, bound.value)
    ensures var left := AfterDrain(c, bound).items; var hand := Drained(c, bound) + wake;
            && Rising(rest) && Rising(left) && UpTo(rest, hi) && UpTo(left, hi) && UpTo(hand, hi)
            && Below(sent, rest) && Below(sent, left) && Below(sent, hand)
            && Below(hand, rest) && Below(hand, left) && Apart(rest, left)
  {
    var left, out := AfterDrain(c, bound).items, Drained(c, bound);
    DrainOrdered(hi, c, bound, sent);
    QueueParts(hi, wake, rest, c.items, left, sent);
    hide Rising, Below, Apart;
    if bound.Some? {
      BoundSeparates(out, rest, bound.value);
      BoundSeparates(wake, left, bound.value);
    } else {
      NothingOrdered(hi, out, left);
      NothingOrdered(hi, wake, left);
    }
    BelowConcat(out, wake, rest);
    BelowConcat(out, wake, left);
    BelowConcat(out, wake, sent);
  }

  lemma QueueParts(hi: nat, wake: seq<Msg>, rest: seq<Msg>, items: seq<Msg>, left: seq<Msg>, sent: seq<Msg>)
    requires Rising(wake + rest) && UpTo(wake + rest, hi) && Below(sent, wake + rest) && Apart(wake + rest, items)
    requires forall i :: 0 <= i < |left| ==> left[i] in items
    ensures Rising(rest) && Below(wake, rest) && UpTo(wake, hi) && UpTo(rest, hi)
    ensures Below(sent, wake) && Below(sent, rest) && Apart(rest, left)
  {
    assert (wake + rest)[..|wake|] == wake && (wake + rest)[|wake|..] == rest;
    RisingParts(wake + rest, |wake|);
  }

  lemma BatchRises(c: Ctx, upto: Option<nat>, wake: seq<Msg>)
    requires Rising(c.items) && Rising(wake) && Apart(wake, c.items)
    ensures Rising(SortById(Drained(c, upto) + wake))
  {
    SortRises(Drained(c, upto) + wake);
  }

  lemma SliceCuts(cfg: Config, hi: nat, owner: Name, b: Box)
    requires cfg.Valid() && Ordered(hi, b, []) && b.queue != []
    requires forall i :: 0 <= i < |b.queue| ==> QueueLine(b.queue[i])
    ensures var wake, rest := WakeSlice(cfg, owner, b), QueueRest(cfg, owner, b);
            && wake != [] && wake + rest == Announced(owner, b)
            && (rest != [] ==> UpTo(wake, wake[|wake| - 1].id) && Beyond(rest, wake[|wake| - 1].id))
            && Rising(wake) && Apart(wake, b.ctx.items)
  {
    AnnouncedOrdered(hi, owner, b);
    AnnouncedIds(owner, b);
    hide Rising, Apart, UpTo, Beyond, Ordered, Announced;
    var q := Announced(owner, b);
    CutAt(q, Min(cfg.deliverWakeCap, |q|), b.ctx.items);
  }

  lemma CutAt(q: seq<Msg>, k: nat, apart: seq<Msg>)
    requires Rising(q) && Apart(q, apart) && 0 < k <= |q|
    requires forall i :: 0 < i < |q| ==> q[i].id > 0
    ensures q[..k] + q[k..] == q && UpTo(q[..k], q[k - 1].id) && Beyond(q[k..], q[k - 1].id)
    ensures Rising(q[..k]) && Apart(q[..k], apart)
  {
    CutParts(q, k, apart);
    assert q[..k] + q[k..] == q;
    hide Rising, Apart, UpTo, Beyond;
    LastIsBound(q[..k], q[k..]);
  }

  lemma CutParts(xs: seq<Msg>, k: nat, apart: seq<Msg>)
    requires Rising(xs) && Apart(xs, apart) && k <= |xs|
    ensures Rising(xs[..k]) && Apart(xs[..k], apart)
  {
  }

  /** The line that announces drops comes first, and only it has no number. */
  lemma AnnouncedIds(owner: Name, b: Box)
    requires forall i :: 0 <= i < |b.queue| ==> QueueLine(b.queue[i])
    ensures forall i :: 0 < i < |Announced(owner, b)| ==> Announced(owner, b)[i].id > 0
    ensures b.queue != [] ==> Announced(owner, b) != []
  {
  }

  lemma SliceOrdered(cfg: Config, hi: nat, owner: Name, b: Box)
    requires cfg.Valid() && Ordered(hi, b, []) && b.queue != []
    requires forall i :: 0 <= i < |b.queue| ==> QueueLine(b.queue[i])
    ensures Ordered(hi, AfterSlice(cfg, owner, b), SliceBatch(cfg, owner, b))
  {
    var wake, rest := WakeSlice(cfg, owner, b), QueueRest(cfg, owner, b);
    SliceCuts(cfg, hi, owner, b);
    AnnouncedOrdered(hi, owner, b);
    hide Rising, Below, Apart, UpTo, Beyond;
    BatchRises(b.ctx, SliceBound(cfg, owner, b), wake);
    CutOrdered(hi, wake, rest, b.ctx, SliceBound(cfg, owner, b), Sent(b.frames));
  }

  lemma DropCounts(owner: Name, n: nat)
    ensures Copies([DropLine(owner, n)]) == multiset{} && Announces([DropLine(owner, n)]) == n
    ensures Wakes([DropLine(owner, n)]) == 1
  {
    assert [DropLine(owner, n)][..0] == [];
  }

  lemma AnnouncedCounts(owner: Name, b: Box)
    requires forall i :: 0 <= i < |b.queue| ==> QueueLine(b.queue[i])
    ensures Copies(Announced(owner, b)) == multiset(b.queue) && Announces(Announced(owner, b)) == b.dropped
  {
    hide Copies, Announces, Wakes;
    CopiesPlain(b.queue);
    if b.dropped > 0 {
      DropCounts(owner, b.dropped);
      CopiesConcat([DropLine(owner, b.dropped)], b.queue);
    } else {
      assert Announced(owner, b) == b.queue;
    }
  }

  lemma SliceConserved(cfg: Config, owner: Name, b: Box)
    requires cfg.Valid() && Conserved(b, []) && b.queue != []
    requires forall i :: 0 <= i < |b.queue| ==> QueueLine(b.queue[i])
    requires forall i :: 0 <= i < |b.ctx.items| ==> ContextLine(b.ctx.items[i])
    ensures Conserved(AfterSlice(cfg, owner, b), SliceBatch(cfg, owner, b))
  {
    var wake, rest := WakeSlice(cfg, owner, b), QueueRest(cfg, owner, b);
    var bound := SliceBound(cfg, owner, b);
    assert Announced(owner, b) == wake + rest && wake != [];
    AnnouncedCounts(owner, b);
    CopiesConcat(wake, rest);
    CopiesPlain(rest);
    DrainCounts(b.ctx, bound);
    CopiesConcat(Drained(b.ctx, bound), wake);
  }

  lemma SliceWakes(cfg: Config, owner: Name, b: Box)
    requires forall i :: 0 <= i < |b.queue| ==> QueueLine(b.queue[i])
    requires forall i :: 0 <= i < |b.ctx.items| ==> ContextLine(b.ctx.items[i])
    ensures Wakes(SliceBatch(cfg, owner, b)) == |WakeSlice(cfg, owner, b)|
  {
    WakesPlain(WakeSlice(cfg, owner, b), false);
    DrainCounts(b.ctx, SliceBound(cfg, owner, b));
    CopiesConcat(Drained(b.ctx, SliceBound(cfg, owner, b)), WakeSlice(cfg, owner, b));
  }

  lemma SliceShaped(cfg: Config, owner: Name, b: Box)
    requires cfg.Valid() && Discreet(owner, b, []) && Shaped(cfg, b, []) && b.queue != []
    requires Wakes(SliceBatch(cfg, owner, b)) == |WakeSlice(cfg, owner, b)|
    ensures Discreet(owner, AfterSlice(cfg, owner, b), SliceBatch(cfg, owner, b))
    ensures Shaped(cfg, AfterSlice(cfg, owner, b), SliceBatch(cfg, owner, b))
  {
    var q, wake, rest := Announced(owner, b), WakeSlice(cfg, owner, b), QueueRest(cfg, owner, b);
    assert AllReadable(owner, q);
    assert forall i :: 0 <= i < |rest| ==> rest[i] == q[i + |wake|];
  }

  lemma SliceHolds(cfg: Config, hi: nat, owner: Name, b: Box)
    requires cfg.Valid() && BoxInv(cfg, hi, owner, b, []) && b.queue != []
    ensures BoxInv(cfg, hi, owner, AfterSlice(cfg, owner, b), SliceBatch(cfg, owner, b))
    ensures SliceBatch(cfg, owner, b) != []
  {
    SliceOrdered(cfg, hi, owner, b);
    SliceConserved(cfg, owner, b);
    SliceWakes(cfg, owner, b);
    SliceShaped(cfg, owner, b);
    hide Ordered, Conserved, Discreet, Shaped;
  }

  // Hand: the batch becomes a frame.

  lemma SortedKeepsOrder(hi: nat, sent: seq<Msg>, hand: seq<Msg>, later: seq<Msg>)
    requires Rising(sent) && UpTo(sent, hi) && Below(sent, later) && Below(sent, hand)
    requires Rising(SortById(hand)) && UpTo(hand, hi) && Below(hand, later)
    ensures Rising(sent + SortById(hand)) && UpTo(sent + SortById(hand), hi) && Below(sent + SortById(hand), later)
  {
    forall i | 0 <= i < |SortById(hand)|
      ensures exists j :: 0 <= j < |hand| && hand[j] == SortById(hand)[i]
    {
      SortMembers(hand, i);
    }
  }

  lemma HandOrdered(hi: nat, b: Box, toAgent: bool, hand: seq<Msg>)
    requires Ordered(hi, b, hand)
    ensures Ordered(hi, Hand(b, toAgent, hand), [])
  {
    hide Rising, Below, UpTo;
    SentGrows(b.frames, Frame(toAgent, SortById(hand)));
    SortedKeepsOrder(hi, Sent(b.frames), hand, b.queue);
    SortedKeepsOrder(hi, Sent(b.frames), hand, b.ctx.items);
    NothingOrdered(hi, Sent(b.frames) + SortById(hand), b.queue);
    NothingOrdered(hi, Sent(b.frames) + SortById(hand), b.ctx.items);
  }

  lemma NothingOrdered(hi: nat, sent: seq<Msg>, later: seq<Msg>)
    ensures Rising(SortById([])) && UpTo([], hi) && Below(sent, []) && Below([], later)
  {
  }

  lemma HandConserved(b: Box, toAgent: bool, hand: seq<Msg>)
    requires Conserved(b, hand)
    ensures Conserved(Hand(b, toAgent, hand), [])
  {
    SortKeeps(hand);
    SentGrows(b.frames, Frame(toAgent, SortById(hand)));
    CopiesConcat(Sent(b.frames), SortById(hand));
  }

  lemma HandShaped(cfg: Config, owner: Name, b: Box, toAgent: bool, hand: seq<Msg>)
    requires Discreet(owner, b, hand) && Shaped(cfg, b, hand) && hand != []
    ensures Discreet(owner, Hand(b, toAgent, hand), []) && Shaped(cfg, Hand(b, toAgent, hand), [])
  {
    hide Shaped, Discreet;
    HandDiscreet(owner, b, toAgent, hand);
    HandBounded(cfg, b, toAgent, hand);
  }

  lemma HandDiscreet(owner: Name, b: Box, toAgent: bool, hand: seq<Msg>)
    requires Discreet(owner, b, hand)
    ensures Discreet(owner, Hand(b, toAgent, hand), [])
  {
    hide SortById, Sent;
    SentGrows(b.frames, Frame(toAgent, SortById(hand)));
    SortedReadable(owner, hand);
  }

  lemma HandBounded(cfg: Config, b: Box, toAgent: bool, hand: seq<Msg>)
    requires Shaped(cfg, b, hand) && hand != []
    ensures Shaped(cfg, Hand(b, toAgent, hand), [])
  {
    hide SortById, Sorted, QueueLine, ContextLine, Wakes;
    SortKeeps(hand);
    assert |SortById(hand)| == |multiset(SortById(hand))| == |hand|;
  }

  lemma SortedReadable(owner: Name, hand: seq<Msg>)
    requires AllReadable(owner, hand)
    ensures AllReadable(owner, SortById(hand))
  {
    SortKeeps(hand);
    hide SortById;
    forall i | 0 <= i < |SortById(hand)|
      ensures Readable(owner, SortById(hand)[i])
    {
      SortMembers(hand, i);
    }
  }

  lemma HandHolds(cfg: Config, hi: nat, owner: Name, b: Box, toAgent: bool, hand: seq<Msg>)
    requires BoxInv(cfg, hi, owner, b, hand) && hand != []
    ensures BoxInv(cfg, hi, owner, Hand(b, toAgent, hand), [])
  {
    hide Ordered, Conserved, Discreet, Shaped;
    HandOrdered(hi, b, toAgent, hand);
    HandConserved(b, toAgent, hand);
    HandShaped(cfg, owner, b, toAgent, hand);
  }
}
