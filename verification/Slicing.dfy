/** Flushing slice by slice delivers exactly the one big merge of queue and context
    (src/moot/core/hub.py:230-268). */
module Slicing {
  import opened Types
  import opened Mailbox
  import opened MailboxLaws

  /** One flush of a mailbox: draw a slice, hand it over. */
  function Flush(cfg: Config, owner: Name, toAgent: bool, b: Box): Box {
    Hand(AfterSlice(cfg, owner, b), toAgent, SliceBatch(cfg, owner, b))
  }

  /** The wakes waiting, the line announcing the drops included. */
  function Waiting(b: Box): nat {
    |b.queue| + (if b.dropped > 0 then 1 else 0)
  }

  /** One idle transition after another, until no wake is left. */
  function FlushAll(cfg: Config, owner: Name, toAgent: bool, b: Box): Box
    requires cfg.Valid()
    decreases Waiting(b)
  {
    if b.queue == [] then b else FlushAll(cfg, owner, toAgent, Flush(cfg, owner, toAgent, b))
  }

  /** The numbered messages among `xs`: all but the hub's id-0 lines. */
  function Numbered(xs: seq<Msg>): seq<Msg> {
    if xs == [] then []
    else Numbered(xs[..|xs| - 1]) + (if xs[|xs| - 1].id == 0 then [] else [xs[|xs| - 1]])
  }

  lemma FlushHolds(cfg: Config, hi: nat, owner: Name, toAgent: bool, b: Box)
    requires cfg.Valid() && BoxInv(cfg, hi, owner, b, []) && b.queue != []
    ensures BoxInv(cfg, hi, owner, Flush(cfg, owner, toAgent, b), [])
    ensures Waiting(Flush(cfg, owner, toAgent,
              b)) == if Waiting(b) > cfg.deliverWakeCap then Waiting(b) - cfg.deliverWakeCap else 0
  {
    SliceHolds(cfg, hi, owner, b);
    HandHolds(cfg, hi, owner, AfterSlice(cfg, owner, b), toAgent, SliceBatch(cfg, owner, b));
    FlushShrinks(cfg, owner, toAgent, b);
    hide BoxInv, Waiting, AfterSlice, SliceBatch, Hand;
  }

  lemma FlushShrinks(cfg: Config, owner: Name, toAgent: bool, b: Box)
    requires cfg.Valid()
    ensures Waiting(Flush(cfg, owner, toAgent, b))
         == if Waiting(b) > cfg.deliverWakeCap then Waiting(b) - cfg.deliverWakeCap else 0
  {
    hide SortById, SliceBatch, AfterDrain;
  }

  lemma CeilStep(n: nat, cap: nat)
    requires cap >= 1 && n > cap
    ensures (n + cap - 1) / cap == 1 + (n - cap + cap - 1) / cap
  {
    var x := n - 1;
    var q, r := x / cap, x % cap;
    assert n + cap - 1 == (q + 1) * cap + r;
    QuotientIs(n + cap - 1, cap, q + 1, r);
  }

  lemma QuotientIs(x: nat, d: nat, q: nat, r: nat)
    requires x == q * d + r && r < d
    ensures x / d == q
  {
    var p := x / d;
    assert (p - q) * d == r - x % d;
    if p != q {
      MultipleIsLarge(p - q, d);
    }
  }

  lemma MultipleIsLarge(k: int, d: int)
    requires k != 0 && d >= 0
    ensures k * d >= d || k * d <= -d
  {
    if k > 0 {
      assert (k - 1) * d >= 0;
    } else {
      assert (-k - 1) * d >= 0;
    }
  }

  lemma CeilOne(n: nat, cap: nat)
    requires 1 <= n <= cap
    ensures (n + cap - 1) / cap == 1
  {
    QuotientIs(n + cap - 1, cap, 1, n - 1);
  }

  /** A flush that takes the last wake also takes the whole context. */
  lemma LastFlush(cfg: Config, hi: nat, owner: Name, toAgent: bool, b: Box)
    requires cfg.Valid() && Ordered(hi, b, [])
    ensures var c := Flush(cfg, owner, toAgent, b);
            c.queue == [] ==> c.ctx == Ctx([], 0) && c.dropped == 0
  {
    ReachSplits(b.ctx.items, None);
  }

  lemma FlushAppends(cfg: Config, owner: Name, toAgent: bool, b: Box)
    ensures var c := Flush(cfg, owner, toAgent, b);
            && c.frames == b.frames + [Frame(toAgent, SortById(SliceBatch(cfg, owner, b)))]
            && c.routed == b.routed && c.lost == b.lost
  {
  }

  /** `fs` are the frames the series of flushes adds. */
  ghost predicate Series(cfg: Config, hi: nat, owner: Name, b: Box, e: Box, fs: seq<Frame>) {
    && BoxInv(cfg, hi, owner, e, [])
    && e.queue == [] && e.ctx == Ctx([], 0) && e.dropped == 0
    && e.routed == b.routed && e.lost == b.lost
    && e.frames == b.frames + fs
    && cfg.deliverWakeCap >= 1 && |fs| == (Waiting(b) + cfg.deliverWakeCap - 1) / cfg.deliverWakeCap
    && NoticesUnnumbered(fs)
  }

  lemma SeriesOfOne(cfg: Config, hi: nat, owner: Name, toAgent: bool, b: Box)
    requires cfg.Valid() && BoxInv(cfg, hi, owner, b, []) && b.queue != []
    requires Flush(cfg, owner, toAgent, b).queue == []
    ensures Series(cfg, hi, owner, b, Flush(cfg, owner, toAgent, b),
              [Frame(toAgent, SortById(SliceBatch(cfg, owner, b)))])
  {
    hide Ordered, Conserved, Discreet, Shaped, Flush, SliceBatch, SortById, NoticesUnnumbered;
    FlushHolds(cfg, hi, owner, toAgent, b);
    BatchNotices(cfg, owner, toAgent, b);
    FlushAppends(cfg, owner, toAgent, b);
    LastFlush(cfg, hi, owner, toAgent, b);
    CeilOne(Waiting(b), cfg.deliverWakeCap);
  }

  lemma SeriesCons(cfg: Config, hi: nat, owner: Name, toAgent: bool, b: Box, e: Box, rest: seq<Frame>)
    requires cfg.Valid() && BoxInv(cfg, hi, owner, b, []) && b.queue != []
    requires Flush(cfg, owner, toAgent, b).queue != []
    requires Series(cfg, hi, owner, Flush(cfg, owner, toAgent, b), e, rest)
    ensures Series(cfg, hi, owner, b, e, [Frame(toAgent, SortById(SliceBatch(cfg, owner, b)))] + rest)
  {
    hide Ordered, Conserved, Discreet, Shaped, Flush, SliceBatch, SortById;
    var c := Flush(cfg, owner, toAgent, b);
    FlushHolds(cfg, hi, owner, toAgent, b);
    BatchNotices(cfg, owner, toAgent, b);
    FlushAppends(cfg, owner, toAgent, b);
    CeilStep(Waiting(b), cfg.deliverWakeCap);
    assert b.frames + ([c.frames[|b.frames|]] + rest) == c.frames + rest;
  }

  /** What every flush of the series keeps, and where the series ends. */
  lemma {:induction false} FlushAllEnds(cfg: Config, hi: nat, owner: Name, toAgent: bool,
      b: Box) returns (fs: seq<Frame>)
    requires cfg.Valid() && BoxInv(cfg, hi, owner, b, []) && b.queue != []
    ensures Series(cfg, hi, owner, b, FlushAll(cfg, owner, toAgent, b), fs)
    decreases Waiting(b)
  {
    var c := Flush(cfg, owner, toAgent, b);
    FlushHolds(cfg, hi, owner, toAgent, b);
    hide BoxInv, Flush, SliceBatch, SortById, Series;
    fs := [Frame(toAgent, SortById(SliceBatch(cfg, owner, b)))];
    if c.queue == [] {
      SeriesOfOne(cfg, hi, owner, toAgent, b);
    } else {
      var rest := FlushAllEnds(cfg, hi, owner, toAgent, c);
      SeriesCons(cfg, hi, owner, toAgent, b, FlushAll(cfg, owner, toAgent, b), rest);
      fs := fs + rest;
    }
  }

  predicate NoticesUnnumbered(frames: seq<Frame>) {
    forall f, i :: 0 <= f < |frames| && 0 <= i < |frames[f].msgs| && frames[f].msgs[i].Notice() ==>
      frames[f].msgs[i].id == 0
  }

  lemma BatchNotices(cfg: Config, owner: Name, toAgent: bool, b: Box)
    requires Shaped(cfg, b, [])
    ensures NoticesUnnumbered([Frame(toAgent, SortById(SliceBatch(cfg, owner, b)))])
  {
    var xs := SliceBatch(cfg, owner, b);
    forall i | 0 <= i < |SortById(xs)| && SortById(xs)[i].Notice()
      ensures SortById(xs)[i].id == 0
    {
      SortMembers(xs, i);
    }
  }

  // ------------------------------------------------------------------ the merge

  lemma {:induction false} NumberedIs(xs: seq<Msg>, m: Msg)
    requires forall i :: 0 <= i < |xs| && xs[i].Notice() ==> xs[i].id == 0
    ensures multiset(Numbered(xs))[m] == if m.id == 0 then 0 else Copies(xs)[m]
  {
    if xs != [] {
      NumberedIs(xs[..|xs| - 1], m);
    }
  }

  lemma {:induction false} NumberedRises(xs: seq<Msg>)
    requires Rising(xs)
    ensures Rising(Numbered(xs))
    ensures forall i :: 0 <= i < |Numbered(xs)| ==> Numbered(xs)[i].id != 0 && Numbered(xs)[i] in xs
  {
    if xs != [] {
      var init, m := xs[..|xs| - 1], xs[|xs| - 1];
      RisingParts(xs, |xs| - 1);
      hide Rising;
      NumberedRises(init);
      if m.id != 0 {
        RisingAdds(Numbered(init), xs);
      }
    }
  }

  /** The last of a line may follow any earlier ones of it that are in order. */
  lemma RisingAdds(ys: seq<Msg>, xs: seq<Msg>)
    requires Rising(xs) && Rising(ys) && xs != [] && forall i :: 0 <= i < |ys| ==> ys[i] in xs[..|xs| - 1]
    ensures Rising(ys + [xs[|xs| - 1]])
  {
  }

  lemma LastIsLargest(xs: seq<Msg>, i: nat)
    requires Rising(xs) && i < |xs| && xs[i].id != 0 && xs[|xs| - 1].id != 0
    ensures xs[i].id <= xs[|xs| - 1].id && (xs[i].id == xs[|xs| - 1].id ==> xs[i] == xs[|xs| - 1])
  {
  }

  lemma MultisetLast(xs: seq<Msg>)
    requires xs != []
    ensures xs == xs[..|xs| - 1] + [xs[|xs| - 1]]
    ensures multiset(xs[..|xs| - 1]) == multiset(xs) - multiset{xs[|xs| - 1]}
  {
    assert xs == xs[..|xs| - 1] + [xs[|xs| - 1]];
  }

  lemma SameLast(xs: seq<Msg>, ys: seq<Msg>)
    requires Rising(xs) && Rising(ys) && multiset(xs) == multiset(ys) && xs != [] && ys != []
    requires forall i :: 0 <= i < |xs| ==> xs[i].id != 0
    ensures xs[|xs| - 1] == ys[|ys| - 1]
  {
    var x, y := xs[|xs| - 1], ys[|ys| - 1];
    assert x in multiset(ys) && y in multiset(xs);
    var i :| 0 <= i < |ys| && ys[i] == x;
    var j :| 0 <= j < |xs| && xs[j] == y;
    LastIsLargest(xs, j);
    LastIsLargest(ys, i);
  }

  /** A strictly increasing sequence is determined by its elements. */
  lemma {:induction false} RisingUnique(xs: seq<Msg>, ys: seq<Msg>)
    requires Rising(xs) && Rising(ys) && multiset(xs) == multiset(ys)
    requires forall i :: 0 <= i < |xs| ==> xs[i].id != 0
    ensures xs == ys
  {
    assert |xs| == |multiset(xs)| == |multiset(ys)| == |ys|;
    if xs != [] {
      SameLast(xs, ys);
      MultisetLast(xs);
      MultisetLast(ys);
      RisingParts(xs, |xs| - 1);
      RisingParts(ys, |ys| - 1);
      hide Rising, Below;
      RisingUnique(xs[..|xs| - 1], ys[..|ys| - 1]);
    }
  }

  lemma {:induction false} SentConcat(fs: seq<Frame>, gs: seq<Frame>)
    ensures Sent(fs + gs) == Sent(fs) + Sent(gs)
  {
    hide Sent;
    if gs == [] {
      assert fs + gs == fs && Sent(fs) + [] == Sent(fs);
      NothingSent();
    } else {
      var init, f := gs[..|gs| - 1], gs[|gs| - 1];
      SentConcat(fs, init);
      SentGrows(fs + init, f);
      SentGrows(init, f);
      assert fs + init + [f] == fs + gs;
      assert init + [f] == gs;
      Regroup(Sent(fs), Sent(init), f.msgs);
    }
  }

  lemma NothingSent()
    ensures Sent([]) == []
  {
  }

  lemma Regroup(xs: seq<Msg>, ys: seq<Msg>, zs: seq<Msg>)
    ensures (xs + ys) + zs == xs + (ys + zs)
  {
  }

  lemma SentGrows(fs: seq<Frame>, f: Frame)
    ensures Sent(fs + [f]) == Sent(fs) + f.msgs
  {
    assert (fs + [f])[..|fs|] == fs;
  }

  lemma {:induction false} SentNotices(fs: seq<Frame>)
    requires NoticesUnnumbered(fs)
    ensures forall i :: 0 <= i < |Sent(fs)| && Sent(fs)[i].Notice() ==> Sent(fs)[i].id == 0
  {
    if fs != [] {
      SentNotices(fs[..|fs| - 1]);
    }
  }

  lemma MergeRises(b: Box, hi: nat)
    requires Ordered(hi, b, [])
    ensures Rising(SortById(Numbered(b.queue + b.ctx.items)))
  {
    NumberedDistinct(b.queue + b.ctx.items);
    SortRises(Numbered(b.queue + b.ctx.items));
  }

  lemma {:induction false} NumberedDistinct(xs: seq<Msg>)
    requires forall i, j :: 0 <= i < j < |xs| && xs[i].id != 0 ==> xs[i].id != xs[j].id
    ensures forall i, j :: 0 <= i < j < |Numbered(xs)| ==> Numbered(xs)[i].id != Numbered(xs)[j].id
    ensures forall i :: 0 <= i < |Numbered(xs)| ==> Numbered(xs)[i].id != 0 && Numbered(xs)[i] in xs
  {
    if xs != [] {
      NumberedDistinct(xs[..|xs| - 1]);
    }
  }

  /** The series of slices empties queue and context in exactly ceil(waiting / cap) frames,
      and what they carry is the id-ordered merge of the two. */
  lemma SlicesAreOneMerge(cfg: Config, hi: nat, owner: Name, toAgent: bool, b: Box)
    requires cfg.Valid() && BoxInv(cfg, hi, owner, b, []) && b.queue != []
    ensures var e := FlushAll(cfg, owner, toAgent, b);
            && e.queue == [] && e.ctx == Ctx([], 0) && e.dropped == 0
            && |b.frames| <= |e.frames| && e.frames[..|b.frames|] == b.frames
            && |e.frames| - |b.frames| == (Waiting(b) + cfg.deliverWakeCap - 1) / cfg.deliverWakeCap
            && Numbered(Sent(e.frames[|b.frames|..])) == SortById(Numbered(b.queue + b.ctx.items))
  {
    hide FlushAll, BoxInv, Numbered, Sent, SortById, Series;
    var fs := FlushAllEnds(cfg, hi, owner, toAgent, b);
    SeriesMerges(cfg, hi, owner, b, FlushAll(cfg, owner, toAgent, b), fs);
  }

  lemma SeriesMerges(cfg: Config, hi: nat, owner: Name, b: Box, e: Box, fs: seq<Frame>)
    requires cfg.Valid() && BoxInv(cfg, hi, owner, b, []) && Series(cfg, hi, owner, b, e, fs)
    ensures e.queue == [] && e.ctx == Ctx([], 0) && e.dropped == 0
    ensures |b.frames| <= |e.frames| && e.frames[..|b.frames|] == b.frames && e.frames[|b.frames|..] == fs
    ensures |fs| == (Waiting(b) + cfg.deliverWakeCap - 1) / cfg.deliverWakeCap
    ensures Numbered(Sent(fs)) == SortById(Numbered(b.queue + b.ctx.items))
  {
    hide Ordered, Conserved, Shaped, Discreet, SortById, Copies, Sent, Numbered, Rising;
    SeriesRises(hi, b.frames, e, fs);
    MergeRises(b, hi);
    SeriesCopies(cfg, b, e, fs);
    SentNotices(fs);
    BoxNotices(cfg, b);
    SameNumbered(Sent(fs), b.queue + b.ctx.items);
  }

  lemma BoxNotices(cfg: Config, b: Box)
    requires Shaped(cfg, b, [])
    ensures forall i :: 0 <= i < |b.queue + b.ctx.items| ==> !(b.queue + b.ctx.items)[i].Notice()
  {
  }

  /** The numbered part is determined by the copies, once it is known to rise. */
  lemma SameNumbered(xs: seq<Msg>, ys: seq<Msg>)
    requires Rising(Numbered(xs)) && Rising(SortById(Numbered(ys))) && Copies(xs) == Copies(ys)
    requires forall i :: 0 <= i < |xs| && xs[i].Notice() ==> xs[i].id == 0
    requires forall i :: 0 <= i < |ys| && ys[i].Notice() ==> ys[i].id == 0
    requires forall i :: 0 <= i < |Numbered(xs)| ==> Numbered(xs)[i].id != 0
    ensures Numbered(xs) == SortById(Numbered(ys))
  {
    hide Numbered, SortById, Copies, Rising;
    forall m
      ensures multiset(Numbered(xs))[m] == multiset(Numbered(ys))[m]
    {
      NumberedIs(xs, m);
      NumberedIs(ys, m);
    }
    SortKeeps(Numbered(ys));
    RisingUnique(Numbered(xs), SortById(Numbered(ys)));
  }

  lemma SeriesRises(hi: nat, before: seq<Frame>, e: Box, fs: seq<Frame>)
    requires Ordered(hi, e, []) && e.frames == before + fs
    ensures Rising(Numbered(Sent(fs)))
    ensures forall i :: 0 <= i < |Numbered(Sent(fs))| ==> Numbered(Sent(fs))[i].id != 0
  {
    SentConcat(before, fs);
    RisingParts(Sent(e.frames), |Sent(before)|);
    assert Sent(e.frames)[|Sent(before)|..] == Sent(fs);
    NumberedRises(Sent(fs));
  }

  lemma SeriesCopies(cfg: Config, b: Box, e: Box, fs: seq<Frame>)
    requires Conserved(b, []) && Conserved(e, []) && Shaped(cfg, b, [])
    requires e.queue == [] && e.ctx.items == [] && e.routed == b.routed && e.lost == b.lost && e.frames == b.frames + fs
    ensures Copies(Sent(fs)) == Copies(b.queue + b.ctx.items)
  {
    hide Shaped, Sent;
    SentConcat(b.frames, fs);
    CopiesConcat(Sent(b.frames), Sent(fs));
    BoxNotices(cfg, b);
    CopiesPlain(b.queue + b.ctx.items);
    assert multiset(b.queue + b.ctx.items) == multiset(b.queue) + multiset(b.ctx.items);
    hide Copies;
    Cancel(Copies(Sent(b.frames)), multiset(b.queue), multiset(b.ctx.items), multiset(b.lost), Copies(Sent(fs)));
  }

  lemma Cancel(s: multiset<Msg>, q: multiset<Msg>, c: multiset<Msg>, l: multiset<Msg>, n: multiset<Msg>)
    requires s + multiset{} + q + c + l == (s + n) + multiset{} + multiset{} + multiset{} + l
    ensures n == q + c
  {
    forall m
      ensures n[m] == (q + c)[m]
    {
      assert (s + multiset{} + q + c + l)[m] == s[m] + q[m] + c[m] + l[m];
    }
  }
}
