/** Repeated idle reports drain a waiting agent: what the hub sends is the one big merge of
    its queue and its context, slice by slice. */
module LawIdle {
  import opened Types
  import opened Mailbox
  import opened MailboxLaws
  import opened Slicing
  import opened HubState
  import opened HubSpec
  import opened HubFrames
  import opened LawMailSteps

  lemma ClearedBox(s: State, t: State, n: Name)
    requires n in s.regs && t.regs == ClearFinished(s).regs
    ensures n in t.regs && t.regs[n].box == s.regs[n].box
  {
  }

  lemma ChecksKeepBox(e: Env, s: State, n: Name)
    requires n in s.regs
    ensures n in CheckRoundLimit(e, s).regs && CheckRoundLimit(e, s).regs[n].box == s.regs[n].box
    ensures n in CheckSessionDone(e, s).regs && CheckSessionDone(e, s).regs[n].box == s.regs[n].box
  {
    hide CheckRoundLimit, CheckSessionDone, ClearFinished, SessionComplete, Trace;
    RoundLimitFrame(e, s);
    SessionDoneFrame(e, s);
    if SessionComplete(s) {
      ClearedBox(s, CheckSessionDone(e, s), n);
    }
  }

  lemma DeliverBox(e: Env, s: State, n: Name, batch: seq<Msg>, cause: Cause)
    requires n in s.regs
    ensures var t := Deliver(e, s, n, batch, true, cause);
            n in t.regs && t.regs[n].box == Hand(s.regs[n].box, !s.regs[n].IsObserver(), batch)
  {
    hide SortById, Hand;
  }

  /** The hub's flush is the mailbox's flush; nothing else happens to the mailbox. */
  lemma FlushIsSlice(e: Env, s: State, n: Name)
    requires n in s.regs && s.Connected(n)
    ensures var t, p := FlushQueue(e, s, n), s.regs[n];
            && n in t.regs
            && t.regs[n].box == (if p.box.queue == [] then p.box else Flush(e.cfg, n, !p.IsObserver(), p.box))
  {
    hide Deliver, CheckRoundLimit, CheckSessionDone, SliceBatch, AfterSlice, WakeSlice, Counts, Hand;
    var p := s.regs[n];
    if p.box.queue != [] {
      var batch := SliceBatch(e.cfg, n, p.box);
      var t := s.Put(n, p.(box := AfterSlice(e.cfg, n, p.box)));
      SliceIsFlush(e, t, n, batch);
      SliceIsFlush(e, t.(round := t.round + 1), n, batch);
    }
  }

  lemma SliceIsFlush(e: Env, t: State, n: Name, batch: seq<Msg>)
    requires n in t.regs
    ensures var u := Deliver(e, t, n, batch, true, ByFlush);
            var v, w := CheckSessionDone(e, u), CheckSessionDone(e, CheckRoundLimit(e, u));
            && n in v.regs && v.regs[n].box == Hand(t.regs[n].box, !t.regs[n].IsObserver(), batch)
            && n in w.regs && w.regs[n].box == Hand(t.regs[n].box, !t.regs[n].IsObserver(), batch)
  {
    hide Deliver, CheckRoundLimit, CheckSessionDone, Hand;
    var u := Deliver(e, t, n, batch, true, ByFlush);
    DeliverBox(e, t, n, batch, ByFlush);
    ChecksKeepBox(e, u, n);
    ChecksKeepBox(e, CheckRoundLimit(e, u), n);
  }

  // ------------------------------------------------------------------ idle reports

  const IDLE_REPORT := StateReport(Idle, None)

  /** The agent `n` is at the other end of connection `c`. */
  ghost predicate Present(s: State, c: ConnId, n: Name) {
    c in s.names && s.names[c] == n && s.IsAgent(n) && s.regs[n].client == c
  }

  lemma ReportStep(e: Env, s: State, clock: Clock, c: ConnId, n: Name)
    requires e.cfg.Valid() && Present(s, c, n)
    ensures var t, b := Step(e, s, clock, Inbound(c, IDLE_REPORT)), s.regs[n].box;
            && Present(t, c, n)
            && t.regs[n].box == (if b.queue == [] || c in s.gone then b else Flush(e.cfg, n, true, b))
  {
    hide FlushQueue, Flush, Seats, Trace;
    var s1 := LifeSign(s.(clock := clock), n);
    var q := Reporting(clock.mono, s1.regs[n], Idle, None);
    var s2 := s1.Put(n, q);
    assert s2.regs[n] == q && q.box == s.regs[n].box && s2.order == s.order && s2.gone == s.gone;
    if s2.Connected(n) {
      FlushIsSlice(e, s2, n);
    } else {
      FlushUnconnected(e, s2, n);
    }
    FlushSteady(e, s2, n);
    SteadyFacts(s2, FlushQueue(e, s2, n));
    assert Step(e, s, clock, Inbound(c, IDLE_REPORT)) == FlushQueue(e, s2, n) by { ReportUnfolds(e, s, clock, c, n); }
    assert SeatOf(FlushQueue(e, s2, n).regs[n]) == SeatOf(q);
  }

  lemma FlushUnconnected(e: Env, s: State, n: Name)
    requires n in s.regs && !s.Connected(n)
    ensures FlushQueue(e, s, n) == s
  {
  }

  lemma ReportUnfolds(e: Env, s: State, clock: Clock, c: ConnId, n: Name)
    requires e.cfg.Valid() && Present(s, c, n)
    ensures var s1 := LifeSign(s.(clock := clock), n);
            var s2 := s1.Put(n, Reporting(clock.mono, s1.regs[n], Idle, None));
            n in s2.regs && Step(e, s, clock, Inbound(c, IDLE_REPORT)) == FlushQueue(e, s2, n)
  {
    hide FlushQueue;
  }

  /** One idle report after another, each at its own time, and nothing in between. */
  ghost function Idling(e: Env, s: State, clocks: seq<Clock>, c: ConnId): State
    requires e.cfg.Valid()
    decreases clocks
  {
    if clocks == [] then s else Idling(e, Step(e, s, clocks[0], Inbound(c, IDLE_REPORT)), clocks[1..], c)
  }

  /** The connection still works whenever the agent reports; other connections, and what is
      sent to them, do not matter. */
  ghost predicate StaysUp(e: Env, s: State, clocks: seq<Clock>, c: ConnId)
    requires e.cfg.Valid()
    decreases clocks
  {
    clocks == [] || (c !in s.gone && StaysUp(e, Step(e, s, clocks[0], Inbound(c, IDLE_REPORT)), clocks[1..], c))
  }

  function Reports(cfg: Config, b: Box): nat
    requires cfg.Valid()
  {
    (Waiting(b) + cfg.deliverWakeCap - 1) / cfg.deliverWakeCap
  }

  lemma {:induction false} IdlingFlushes(e: Env, s: State, clocks: seq<Clock>, c: ConnId, n: Name, hi: nat)
    requires e.cfg.Valid() && Present(s, c, n) && StaysUp(e, s, clocks, c)
    requires BoxInv(e.cfg, hi, n, s.regs[n].box, []) && s.regs[n].box.queue != []
    requires |clocks| == Reports(e.cfg, s.regs[n].box)
    ensures var t := Idling(e, s, clocks, c);
            Present(t, c, n) && t.regs[n].box == FlushAll(e.cfg, n, true, s.regs[n].box)
    decreases clocks
  {
    hide BoxInv, Flush, Step, Present, Reports, Waiting, FlushAll;
    PresentIs(s, c, n);
    var b := s.regs[n].box;
    ReportsStep(e.cfg, hi, n, b);
    ReportStep(e, s, clocks[0], c, n);
    var t := Step(e, s, clocks[0], Inbound(c, IDLE_REPORT));
    PresentIs(t, c, n);
    FlushHolds(e.cfg, hi, n, true, b);
    FlushAllStep(e.cfg, n, b);
    if t.regs[n].box.queue != [] {
      IdlingFlushes(e, t, clocks[1..], c, n, hi);
    } else {
      assert Idling(e, t, [], c) == t;
    }
  }

  lemma FlushAllStep(cfg: Config, owner: Name, b: Box)
    requires cfg.Valid() && b.queue != []
    ensures var c := Flush(cfg, owner, true, b);
            FlushAll(cfg, owner, true, b) == if c.queue == [] then c else FlushAll(cfg, owner, true, c)
  {
    hide Flush;
  }

  /** Every report but the last leaves wakes waiting. */
  lemma ReportsStep(cfg: Config, hi: nat, owner: Name, b: Box)
    requires cfg.Valid() && BoxInv(cfg, hi, owner, b, []) && b.queue != []
    ensures var c := Flush(cfg, owner, true, b);
            && Reports(cfg, b) == 1 + (if c.queue == [] then 0 else Reports(cfg, c))
            && Waiting(c) < Waiting(b)
  {
    hide BoxInv, Flush;
    var c := Flush(cfg, owner, true, b);
    FlushHolds(cfg, hi, owner, true, b);
    WaitingIsQueue(cfg, hi, owner, c);
    if c.queue == [] {
      CeilOne(Waiting(b), cfg.deliverWakeCap);
    } else {
      CeilStep(Waiting(b), cfg.deliverWakeCap);
    }
  }

  lemma PresentIs(s: State, c: ConnId, n: Name)
    ensures Present(s, c, n) ==> n in s.regs
  {
  }

  lemma WaitingIsQueue(cfg: Config, hi: nat, owner: Name, b: Box)
    requires BoxInv(cfg, hi, owner, b, [])
    ensures Waiting(b) > 0 <==> b.queue != []
  {
    hide Ordered, Conserved, Discreet;
  }

  /** From a waiting queue, exactly ceil(waiting / cap) idle reports empty queue and context,
      one frame each, and the frames' numbered messages are the id-ordered merge of the two. */
  lemma IdleReportsDrain(e: Env, s: State, clocks: seq<Clock>, c: ConnId, n: Name)
    requires e.cfg.Valid() && Sound(e, s) && Present(s, c, n) && s.regs[n].box.queue != []
    requires |clocks| == Reports(e.cfg, s.regs[n].box) && StaysUp(e, s, clocks, c)
    ensures var b, t := s.regs[n].box, Idling(e, s, clocks, c);
            && n in t.regs && t.regs[n].box.queue == [] && t.regs[n].box.ctx == Ctx([], 0)
            && |t.regs[n].box.frames| == |b.frames| + Reports(e.cfg, b)
            && t.regs[n].box.frames[..|b.frames|] == b.frames
            && Numbered(Sent(t.regs[n].box.frames[|b.frames|..])) == SortById(Numbered(b.queue + b.ctx.items))
  {
    hide BoxInv, Numbered, Sent, SortById, Idling, StaysUp, FlushAll;
    assert BoxInv(e.cfg, s.msgCounter, n, s.regs[n].box, []);
    IdlingFlushes(e, s, clocks, c, n, s.msgCounter);
    SlicesAreOneMerge(e.cfg, s.msgCounter, n, true, s.regs[n].box);
  }
}
