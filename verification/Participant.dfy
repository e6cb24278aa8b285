/** The objects the hub works on: a context buffer and a participant, updated in place
    (src/moot/core/buffer.py, src/moot/core/hub.py:52-76). Each method is proved against the
    function on values that the laws are about. */
module Buffer {
  import opened Types
  import opened Mailbox

  class ContextBuffer {
    const cap: nat
    var items: seq<Msg>
    var evicted: nat

    function View(): Ctx
      reads this
    {
      Ctx(items, evicted)
    }

    constructor (cap: nat)
      requires cap > 0
      ensures this.cap == cap && View() == Ctx([], 0)
    {
      this.cap := cap;
      items, evicted := [], 0;
    }

    method AppendLine(m: Msg)
      requires cap > 0
      modifies this
      ensures View() == Append(cap, old(View()), m)
    {
      while |items| >= cap
        invariant |items| <= |old(items)| && items == old(items)[|old(items)| - |items|..]
        invariant evicted == old(evicted) + |old(items)| - |items|
        invariant |items| == |old(items)| || |items| >= cap - 1
      {
        items := items[1..];
        evicted := evicted + 1;
      }
      items := items + [m];
    }

    /** All lines, or those up to an id, behind the line that announces evictions. */
    method Drain(upto: Option<nat>) returns (out: seq<Msg>)
      modifies this
      ensures out == Drained(old(View()), upto) && View() == AfterDrain(old(View()), upto)
    {
      out := [];
      if evicted > 0 {
        out := out + [OmitLine(evicted)];
        evicted := 0;
      }
      ghost var head := out;
      ghost var k := 0;
      while items != [] && (upto == None || items[0].id <= upto.value)
        invariant evicted == 0 && k <= |old(items)| && items == old(items)[k..] && out == head + old(items)[..k]
        invariant k + Reach(items, upto) == Reach(old(items), upto)
        decreases |items|
      {
        out := out + [items[0]];
        items := items[1..];
        k := k + 1;
      }
    }
  }
}

module Participants {
  import opened Types
  import opened Mailbox
  import opened HubState
  import opened Buffer
  import S = HubSpec
  import Bucket
  import Dedup

  ghost function ServedPart(now: real, p: Part, batch: seq<Msg>, drawn: bool): Part {
    var q := if drawn then p.(box := Hand(p.box, !p.IsObserver(), batch)) else p;
    if p.IsObserver() then q else q.(state := Busy, busySince := now)
  }

  class Participant {
    const name: Name
    const context: ContextBuffer
    const bucket: Bucket.TokenBucket
    const dedup: Dedup.DedupWindow
    var kind: string
    var caps: set<string>
    var client: ConnId
    var state: Activity
    var queue: seq<Msg>
    var queueDropped: nat
    var finished: bool
    var lastRx: real
    var busySince: real
    var lastSay: real
    var blockedSince: Option<real>
    var blockedDetail: Option<string>
    var awaitingPong: bool
    var pongDeadline: real
    // the history the laws speak of
    ghost var frames: seq<Frame>
    ghost var routed: multiset<Msg>
    ghost var lost: seq<Msg>
    ghost var says: seq<Dedup.Said>
    ghost const joinedAt: nat

    ghost function Repr(): set<object> {
      {this, context, bucket, dedup}
    }

    /** Its parts were made for this configuration. */
    ghost predicate Fits(cfg: Config) {
      && context.cap == cfg.contextCap
      && bucket.capacity == cfg.rateBurst as real && bucket.refillPerSecond == cfg.ratePerSecond
      && dedup.window == cfg.dedupWindow
    }

    ghost function BoxView(): Box
      reads this, context
    {
      Box(queue, queueDropped, context.View(), frames, routed, lost)
    }

    ghost function View(): Part
      reads Repr()
    {
      Part(name, kind, caps, client, BoxView(), bucket.View(), dedup.seen, says, state, finished, lastRx,
           busySince, lastSay, blockedSince, blockedDetail, awaitingPong, pongDeadline, joinedAt)
    }

    predicate IsObserver()
      reads this
    {
      kind == OBSERVER
    }

    constructor (cfg: Config, name: Name, kind: string, caps: set<string>, client: ConnId, now: real,
        ghost joinedAt: nat)
      requires cfg.Valid()
      ensures fresh(Repr()) && Fits(cfg) && this.name == name
      ensures View() == Part(name, kind, caps, client, EMPTY_BOX, Bucket.Tokens(cfg.rateBurst as real, now), map[], [],
                             Idle, false, now, 0.0, 0.0, None, None, false, 0.0, joinedAt)
    {
      this.name, this.kind, this.caps, this.client := name, kind, caps, client;
      context := new ContextBuffer(cfg.contextCap);
      bucket := new Bucket.TokenBucket(cfg.rateBurst, cfg.ratePerSecond, now);
      dedup := new Dedup.DedupWindow(cfg.dedupWindow);
      state, queue, queueDropped, finished := Idle, [], 0, false;
      lastRx, busySince, lastSay := now, 0.0, 0.0;
      blockedSince, blockedDetail, awaitingPong, pongDeadline := None, None, false, 0.0;
      frames, routed, lost, says := [], multiset{}, [], [];
      this.joinedAt := joinedAt;
    }

    /** Append to the bounded wake queue, dropping the oldest on overflow. */
    method EnqueueWake(cfg: Config, m: Msg)
      requires cfg.Valid()
      modifies this
      ensures View() == old(View()).(box := Enqueue(cfg, old(BoxView()), m))
    {
      if |queue| >= cfg.queueCap {
        lost := lost + [queue[0]];
        queue := queue[1..];
        queueDropped := queueDropped + 1;
      }
      queue := queue + [m];
      routed := routed + multiset{m};
    }

    /** A line that is only overheard goes to the context buffer. */
    method OverhearLine(cfg: Config, m: Msg)
      requires cfg.Valid() && Fits(cfg)
      modifies Repr()
      ensures View() == old(View()).(box := Overhear(cfg, old(BoxView()), m))
    {
      lost := lost + context.items[..Excess(cfg.contextCap, context.View())];
      routed := routed + multiset{m};
      context.AppendLine(m);
    }

    /** An immediate wake takes the context up to it along. */
    method WakeWith(m: Msg) returns (batch: seq<Msg>)
      modifies Repr()
      ensures batch == WakeBatch(old(BoxView()), m) && View() == old(View()).(box := AfterWake(old(BoxView()), m))
    {
      var drained := context.Drain(Some(m.id));
      routed := routed + multiset{m};
      batch := drained + [m];
    }

    /** The next slice of the queue with the context that belongs to it. */
    method TakeSlice(cfg: Config) returns (batch: seq<Msg>, wake: seq<Msg>)
      requires cfg.Valid() && queue != []
      modifies Repr()
      ensures wake == WakeSlice(cfg, name, old(BoxView())) && batch == SliceBatch(cfg, name, old(BoxView()))
      ensures View() == old(View()).(box := AfterSlice(cfg, name, old(BoxView())))
    {
      if queueDropped > 0 {
        queue := [DropLine(name, queueDropped)] + queue;
        queueDropped := 0;
      }
      assert queue == Announced(name, old(BoxView()));
      var cut := Min(cfg.deliverWakeCap, |queue|);
      wake := queue[..cut];
      queue := queue[cut..];
      var upto := if queue != [] then Some(wake[|wake| - 1].id) else None;
      var drained := context.Drain(upto);
      batch := drained + wake;
    }

    /** A frame has gone out; a drawn batch enters the history, and an agent is busy now. */
    method Served(now: real, ghost batch: seq<Msg>, ghost drawn: bool)
      modifies this
      ensures View() == ServedPart(now, old(View()), batch, drawn)
    {
      if drawn {
        frames := frames + [Frame(!IsObserver(), SortById(batch))];
      }
      if !IsObserver() {
        state := Busy;
        busySince := now;
      }
    }

    /** A new connection takes the registration over. */
    method Reclaim(kind: string, caps: set<string>, c: ConnId, now: real)
      modifies this
      ensures View() == old(View()).(client := c, kind := kind, caps := caps, state := Idle, lastRx := now,
                awaitingPong := false,
                                     finished := false, blockedSince := None, blockedDetail := None)
    {
      client := c;
      this.kind := kind;
      this.caps := caps;
      LifeSign(now);
      Mark(false);
      SetIdle();
    }

    method SetIdle()
      modifies this
      ensures View() == S.SetIdle(old(View()))
    {
      state, blockedSince, blockedDetail := Idle, None, None;
    }

    method Report(now: real, st: Activity, detail: Option<string>) returns (rearmed: bool)
      modifies this
      ensures View() == S.Reporting(now, old(View()), st, detail)
                && rearmed == S.FreshlyBlocked(old(View()), st, detail)
    {
      var prev := state;
      Become(st, now);
      rearmed := false;
      if st == Blocked {
        if prev != Blocked || blockedDetail != detail {
          SetBlocked(Some(now), detail);
          rearmed := true;
        }
      } else {
        SetBlocked(None, None);
      }
    }

    method Become(st: Activity, now: real)
      modifies this
      ensures View() == old(View()).(state := st, busySince := if st != Idle then now else old(busySince))
      ensures blockedDetail == old(blockedDetail)
    {
      state := st;
      if st != Idle {
        busySince := now;
      }
    }

    method SetBlocked(since: Option<real>, detail: Option<string>)
      modifies this
      ensures View() == old(View()).(blockedSince := since, blockedDetail := detail)
    {
      blockedSince := since;
      blockedDetail := detail;
    }

    method LifeSign(now: real)
      modifies this
      ensures View() == old(View()).(lastRx := now, awaitingPong := false)
    {
      lastRx := now;
      if awaitingPong {
        awaitingPong := false;
      }
    }

    method AwaitPong(deadline: real)
      modifies this
      ensures View() == old(View()).(awaitingPong := true, pongDeadline := deadline)
    {
      awaitingPong, pongDeadline := true, deadline;
    }

    method MarkSay(now: real)
      modifies this
      ensures View() == old(View()).(lastSay := now)
    {
      lastSay := now;
    }

    method Mark(done: bool)
      modifies this
      ensures View() == old(View()).(finished := done)
    {
      finished := done;
    }
  }
}
