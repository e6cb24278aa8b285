/** The mailbox of one registration: its bounded wake queue, its bounded context buffer,
    and the history of what went in, what was handed out and what was lost
    (src/moot/core/hub.py:197-268, src/moot/core/buffer.py). */
module Mailbox {
  import opened Types

  // ------------------------------------------------------------------ context

  datatype Ctx = Ctx(items: seq<Msg>, evicted: nat)

  /** How many old lines an append must push out. */
  function Excess(cap: nat, c: Ctx): nat {
    if |c.items| >= cap && cap >= 1 then |c.items| - cap + 1 else 0
  }

  function Append(cap: nat, c: Ctx, m: Msg): Ctx {
    Ctx(c.items[Excess(cap, c)..] + [m], c.evicted + Excess(cap, c))
  }

  /** Length of the longest prefix whose ids do not exceed the bound. */
  function Reach(items: seq<Msg>, upto: Option<nat>): (k: nat)
    ensures k <= |items|
  {
    if items == [] || (upto.Some? && items[0].id > upto.value) then 0
    else 1 + Reach(items[1..], upto)
  }

  function OmitLine(n: nat): Msg {
    Msg(0, SYSTEM_SENDER, EVERYONE, "note", OmitNotice(n), 0.0, Overheard, None, false)
  }

  function Drained(c: Ctx, upto: Option<nat>): seq<Msg> {
    (if c.evicted > 0 then [OmitLine(c.evicted)] else []) + c.items[..Reach(c.items, upto)]
  }

  function AfterDrain(c: Ctx, upto: Option<nat>): Ctx {
    Ctx(c.items[Reach(c.items, upto)..], 0)
  }

  // ------------------------------------------------------------------ sorting

  /** Insertion behind every element with the same or a smaller id: a stable sort. */
  function Insert(xs: seq<Msg>, m: Msg): seq<Msg> {
    if xs == [] || xs[|xs| - 1].id <= m.id then xs + [m]
    else Insert(xs[..|xs| - 1], m) + [xs[|xs| - 1]]
  }

  function SortById(xs: seq<Msg>): seq<Msg> {
    if xs == [] then [] else Insert(SortById(xs[..|xs| - 1]), xs[|xs| - 1])
  }

  // ------------------------------------------------------------------ the box

  /** One deliver frame drawn from the box; `toAgent` is whether the registration was an
      agent at that moment. */
  datatype Frame = Frame(toAgent: bool, msgs: seq<Msg>)

  datatype Box = Box(
    queue: seq<Msg>,
    dropped: nat,
    ctx: Ctx,
    frames: seq<Frame>,      // every frame drawn from this box so far
    routed: multiset<Msg>,   // every copy routed into this box so far
    lost: seq<Msg>)          // every copy pushed out of the queue or the context

  const EMPTY_BOX := Box([], 0, Ctx([], 0), [], multiset{}, [])

  function Enqueue(cfg: Config, b: Box, m: Msg): Box {
    if |b.queue| >= cfg.queueCap && |b.queue| > 0 then
      b.(queue := b.queue[1..] + [m], dropped := b.dropped + 1,
         routed := b.routed + multiset{m}, lost := b.lost + [b.queue[0]])
    else
      b.(queue := b.queue + [m], routed := b.routed + multiset{m})
  }

  function Overhear(cfg: Config, b: Box, m: Msg): Box {
    b.(ctx := Append(cfg.contextCap, b.ctx, m),
       routed := b.routed + multiset{m},
       lost := b.lost + b.ctx.items[..Excess(cfg.contextCap, b.ctx)])
  }

  /** An immediate wake: the context up to the message, then the message. */
  function WakeBatch(b: Box, m: Msg): seq<Msg> {
    Drained(b.ctx, Some(m.id)) + [m]
  }

  function AfterWake(b: Box, m: Msg): Box {
    b.(ctx := AfterDrain(b.ctx, Some(m.id)), routed := b.routed + multiset{m})
  }

  function DropLine(owner: Name, n: nat): Msg {
    Msg(0, SYSTEM_SENDER, owner, "note", DropNotice(n), 0.0, Direct, None, false)
  }

  /** The queue with the line that announces its drops put in front. */
  function Announced(owner: Name, b: Box): seq<Msg> {
    (if b.dropped > 0 then [DropLine(owner, b.dropped)] else []) + b.queue
  }

  function Min(a: int, b: int): int {
    if a <= b then a else b
  }

  function WakeSlice(cfg: Config, owner: Name, b: Box): seq<Msg> {
    var q := Announced(owner, b);
    q[..Min(cfg.deliverWakeCap, |q|)]
  }

  function QueueRest(cfg: Config, owner: Name, b: Box): seq<Msg> {
    var q := Announced(owner, b);
    q[Min(cfg.deliverWakeCap, |q|)..]
  }

  /** The context rides along only up to the last wake of the slice while wakes remain;
      the slice that empties the queue takes everything. */
  function SliceBound(cfg: Config, owner: Name, b: Box): Option<nat> {
    var wake := WakeSlice(cfg, owner, b);
    if QueueRest(cfg, owner, b) == [] || wake == [] then None else Some(wake[|wake| - 1].id)
  }

  function SliceBatch(cfg: Config, owner: Name, b: Box): seq<Msg> {
    Drained(b.ctx, SliceBound(cfg, owner, b)) + WakeSlice(cfg, owner, b)
  }

  function AfterSlice(cfg: Config, owner: Name, b: Box): Box {
    b.(queue := QueueRest(cfg, owner, b), dropped := 0,
       ctx := AfterDrain(b.ctx, SliceBound(cfg, owner, b)))
  }

  /** Hand a drawn batch over as one frame, ordered by id. */
  function Hand(b: Box, toAgent: bool, batch: seq<Msg>): Box {
    b.(frames := b.frames + [Frame(toAgent, SortById(batch))])
  }
}
