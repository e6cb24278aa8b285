/** What the hub's transitions leave alone: who is seated, under which name, on which
    connection. */
module HubFrames {
  import opened Types
  import opened Mailbox
  import opened HubState
  import opened HubSpec
  import Names
  import Bucket
  import Dedup

  /** Registrations sit under valid names, joined once, and own up to their connection. */
  ghost predicate Seated(s: State) {
    && Rooted(s)
    && (forall n :: n in s.regs ==> Names.ValidName(n))
    && (forall n :: n in s.regs ==> s.regs[n].client in s.names && s.names[s.regs[n].client] == n)
  }

  predicate SameSeat(p: Part, q: Part) {
    p.name == q.name && p.kind == q.kind && p.caps == q.caps && p.client == q.client
  }

  /** What identifies a registration and what it has said, as opposed to what it is doing. */
  datatype Seat = Seat(name: Name, kind: string, caps: set<string>, client: ConnId,
                       bucket: Bucket.Tokens, dedup: map<string, real>, says: seq<Dedup.Said>, lastSay: real,
                       joinedAt: nat)

  function SeatOf(p: Part): Seat {
    Seat(p.name, p.kind, p.caps, p.client, p.bucket, p.dedup, p.says, p.lastSay, p.joinedAt)
  }

  function Seats(regs: map<Name, Part>): map<Name, Seat> {
    map n | n in regs :: SeatOf(regs[n])
  }

  predicate Traced(x: Note) {
    x.SayAccepted? || (x.Happened? && x.event.QuorumReached?)
  }

  /** The accepted says and the quorum events of the log, in order. */
  function Trace(log: seq<Note>): seq<Note> {
    if log == [] then []
    else
      var x := log[|log| - 1];
      Trace(log[..|log| - 1]) + (if Traced(x) then [x] else [])
  }

  lemma TraceGrows(log: seq<Note>, x: Note)
    ensures Trace(log + [x]) == Trace(log) + (if Traced(x) then [x] else [])
  {
    assert (log + [x])[..|log|] == log;
  }

  /** Nobody joins, leaves, expires or says anything; connections are only ever lost; ids
      only grow. */
  ghost predicate Steady(s: State, t: State) {
    && t.order == s.order && t.names == s.names && Seats(t.regs) == Seats(s.regs)
    && s.gone <= t.gone && s.msgCounter <= t.msgCounter
    && t.clock == s.clock && t.maxRounds == s.maxRounds
    && t.recent == s.recent && t.archive == s.archive
    && t.lastObserverSay == s.lastObserverSay && t.quorumExpected == s.quorumExpected
    && t.quorumLatched == s.quorumLatched
    && Trace(t.log) == Trace(s.log)
  }

  lemma SteadyFacts(s: State, t: State)
    requires Steady(s, t)
    ensures t.regs.Keys == s.regs.Keys
    ensures forall n :: n in s.regs ==> SeatOf(t.regs[n]) == SeatOf(s.regs[n])
  {
    hide Trace;
    assert Seats(t.regs).Keys == t.regs.Keys && Seats(s.regs).Keys == s.regs.Keys;
    forall n | n in s.regs
      ensures SeatOf(t.regs[n]) == SeatOf(s.regs[n])
    {
      assert Seats(t.regs)[n] == Seats(s.regs)[n];
    }
  }

  lemma SteadySeated(s: State, t: State)
    requires Seated(s) && Steady(s, t)
    ensures Seated(t)
  {
    hide Trace, Seats, Seated;
    SeatsSeated(s, t);
  }

  lemma PutSeats(regs: map<Name, Part>, n: Name, p: Part)
    requires n in regs && SeatOf(p) == SeatOf(regs[n])
    ensures Seats(regs[n := p]) == Seats(regs)
    ensures regs[n := p].Keys == regs.Keys
  {
  }

  lemma PutSeated(s: State, n: Name, p: Part)
    requires Seated(s) && n in s.regs && SameSeat(p, s.regs[n])
    ensures Seated(s.Put(n, p))
  {
  }

  // ------------------------------------------------------------------ emitting

  /** Emitting touches nothing but the transport and the log. */
  lemma {:induction false} EmitToFrame(e: Env, s: State, names: seq<Name>, skip: Option<Name>)
    ensures var t := EmitTo(e, s, names, skip);
            t == s.(gone := t.gone, sent := t.sent) && s.gone <= t.gone
    decreases names
  {
    if names != [] {
      var n := names[0];
      var t := if n in s.regs && s.regs[n].IsObserver() && skip != Some(n) && s.Connected(n)
               then Send(e, s, s.regs[n].client) else s;
      EmitToFrame(e, t, names[1..], skip);
    }
  }

  lemma EmitFrame(e: Env, s: State, ev: Event, skip: Option<Name>)
    ensures var t := Emit(e, s, ev, skip);
            t == s.(gone := t.gone, sent := t.sent, log := s.log + [Happened(ev)]) && s.gone <= t.gone
  {
    EmitToFrame(e, s, s.order, skip);
  }

  lemma RoundLimitFrame(e: Env, s: State)
    ensures var t := CheckRoundLimit(e, s);
            && t == s.(gone := t.gone, sent := t.sent, frozen := t.frozen, log := t.log) && s.gone <= t.gone
            && t.frozen == (s.frozen || s.round >= s.maxRounds)
            && Trace(t.log) == Trace(s.log)
            && (t.log == s.log || t.log == s.log + [Happened(RoundLimit(s.round))]
                || t.log == s.log + [Happened(RoundLimit(s.round)), Happened(FreezeWithoutObserver)])
  {
    hide Trace;
    EmitFrame(e, s.(frozen := true), RoundLimit(s.round), None);
    TraceGrows(s.log, Happened(RoundLimit(s.round)));
    TraceGrows(s.log + [Happened(RoundLimit(s.round))], Happened(FreezeWithoutObserver));
    assert s.log + [Happened(RoundLimit(s.round))] + [Happened(FreezeWithoutObserver)]
        == s.log + [Happened(RoundLimit(s.round)), Happened(FreezeWithoutObserver)];
  }

  /** What a freeze is told with. */
  function LimitNews(s: State): seq<Note> {
    [Happened(RoundLimit(s.round))] + (if Attended(s) then [] else [Happened(FreezeWithoutObserver)])
  }

  lemma LimitIsTold(e: Env, s: State)
    ensures CheckRoundLimit(e, s).log == s.log + (if s.round >= s.maxRounds && !s.frozen then LimitNews(s) else [])
  {
    EmitFrame(e, s.(frozen := true), RoundLimit(s.round), None);
  }

  lemma SessionDoneFrame(e: Env, s: State)
    ensures Trace(CheckSessionDone(e, s).log) == Trace(s.log)
    ensures var t := CheckSessionDone(e, s);
            if SessionComplete(s) then
              && t.regs == ClearFinished(s).regs && s.gone <= t.gone
              && t.log == s.log + [Happened(SessionDone(s.round))]
              && t == s.(gone := t.gone, sent := t.sent, log := t.log, round := 0, regs := t.regs)
            else t == s
  {
    hide Trace;
    EmitFrame(e, s, SessionDone(s.round), None);
    TraceGrows(s.log, Happened(SessionDone(s.round)));
  }

  // ------------------------------------------------------------------ steadiness

  lemma EmitSteady(e: Env, s: State, ev: Event, skip: Option<Name>)
    requires !ev.QuorumReached?
    ensures Steady(s, Emit(e, s, ev, skip))
  {
    hide Trace, Seats, Emit;
    EmitFrame(e, s, ev, skip);
    TraceGrows(s.log, Happened(ev));
  }

  lemma AnswerSteady(e: Env, s: State, c: ConnId, r: Reply)
    ensures Steady(s, Answer(e, s, c, r)) && Answer(e, s, c, r).regs == s.regs
  {
    hide Trace, Seats;
    TraceGrows(s.log, Replied(c, r));
  }

  lemma DeliverFrame(e: Env, s: State, n: Name, batch: seq<Msg>, drawn: bool, cause: Cause)
    requires n in s.regs
    ensures var t, p := Deliver(e, s, n, batch, drawn, cause), s.regs[n];
            && n in t.regs && t.regs == s.regs[n := t.regs[n]]
            && t.regs[n].box == (if drawn then Hand(p.box, !p.IsObserver(), batch) else p.box)
            && t.regs[n].state == (if p.IsObserver() then p.state else Busy)
            && t.regs[n].finished == p.finished && SeatOf(t.regs[n]) == SeatOf(p)
            && s.gone <= t.gone && t.order == s.order
            && t.log == s.log + [Delivered(n, !p.IsObserver(), cause, s.round, SortById(batch))]
            && t == s.(regs := t.regs, gone := t.gone, sent := t.sent, log := t.log,
                       lastActivity := t.lastActivity, stallLatched := t.stallLatched)
  {
    hide SortById, Hand;
    DeliverPart(e, s, n, batch, drawn, cause);
    assert Deliver(e, s, n, batch, drawn,
           cause).log == s.log + [Delivered(n, !s.regs[n].IsObserver(), cause, s.round, SortById(batch))];
  }

  /** What a frame does to its recipient. */
  lemma DeliverPart(e: Env, s: State, n: Name, batch: seq<Msg>, drawn: bool, cause: Cause)
    requires n in s.regs
    ensures var t, p := Deliver(e, s, n, batch, drawn, cause), s.regs[n];
            && n in t.regs && t.regs == s.regs[n := t.regs[n]]
            && t.regs[n].box == (if drawn then Hand(p.box, !p.IsObserver(), batch) else p.box)
            && t.regs[n].state == (if p.IsObserver() then p.state else Busy)
            && t.regs[n].finished == p.finished && SeatOf(t.regs[n]) == SeatOf(p)
  {
    hide SortById, Hand;
  }

  lemma DeliverSteady(e: Env, s: State, n: Name, batch: seq<Msg>, drawn: bool, cause: Cause)
    requires n in s.regs
    ensures Steady(s, Deliver(e, s, n, batch, drawn, cause))
    ensures Deliver(e, s, n, batch, drawn, cause).regs.Keys == s.regs.Keys
  {
    hide Seats, Trace, Deliver;
    DeliverFrame(e, s, n, batch, drawn, cause);
    var t := Deliver(e, s, n, batch, drawn, cause);
    PutSeats(s.regs, n, t.regs[n]);
    TraceGrows(s.log, Delivered(n, !s.regs[n].IsObserver(), cause, s.round, SortById(batch)));
  }

  lemma ChecksSteady(e: Env, s: State)
    ensures Steady(s, CheckRoundLimit(e, s)) && Steady(s, CheckSessionDone(e, s))
  {
    hide CheckRoundLimit, CheckSessionDone, Trace;
    RoundLimitFrame(e, s);
    SessionDoneFrame(e, s);
    assert Seats(ClearFinished(s).regs) == Seats(s.regs);
  }

  lemma DeliverChecksSteady(e: Env, s: State, n: Name, batch: seq<Msg>, cause: Cause)
    requires n in s.regs
    ensures var u := Deliver(e, s, n, batch, true, cause);
            Steady(s, CheckSessionDone(e, u)) && Steady(s, CheckSessionDone(e, CheckRoundLimit(e, u)))
  {
    hide Deliver, CheckRoundLimit, CheckSessionDone, Seats, Trace;
    DeliverSteady(e, s, n, batch, true, cause);
    var u := Deliver(e, s, n, batch, true, cause);
    ChecksSteady(e, u);
    ChecksSteady(e, CheckRoundLimit(e, u));
  }

  lemma FlushSteady(e: Env, s: State, n: Name)
    requires n in s.regs
    ensures Steady(s, FlushQueue(e, s, n))
  {
    hide SliceBatch, AfterSlice, WakeSlice, Deliver, CheckRoundLimit, CheckSessionDone, Seats, Trace, Counts;
    var p := s.regs[n];
    if p.box.queue != [] && s.Connected(n) {
      var batch := SliceBatch(e.cfg, n, p.box);
      var q := p.(box := AfterSlice(e.cfg, n, p.box));
      PutSeats(s.regs, n, q);
      DeliverChecksSteady(e, s.Put(n, q), n, batch, ByFlush);
      DeliverChecksSteady(e, s.Put(n, q).(round := s.round + 1), n, batch, ByFlush);
    }
  }

  /** A message reaching a mailbox changes the mailbox alone. */
  lemma BoxOpSeats(e: Env, p: Part, m: Msg)
    ensures SeatOf(Woken(p, m)) == SeatOf(p) && SeatOf(Queued(e, p, m)) == SeatOf(p)
              && SeatOf(Buffered(e, p, m)) == SeatOf(p)
    ensures Woken(p, m) == p.(box := Woken(p, m).box) && Queued(e, p, m) == p.(box := Queued(e, p, m).box)
    ensures Buffered(e, p, m) == p.(box := Buffered(e, p, m).box)
    ensures Woken(p, m).box.queue == p.box.queue && Buffered(e, p, m).box.queue == p.box.queue
    ensures Queued(e, p, m).box.queue != []
  {
  }

  lemma SystemOneSteady(e: Env, s: State, n: Name, text: Text)
    requires n in s.regs
    ensures Steady(s, SystemOne(e, s, n, text))
  {
    hide Seats, Trace, Deliver, Woken, Queued, WakeBatch, Steady;
    var p, m := s.regs[n], SystemNote(s, n, text);
    var t := s.(msgCounter := s.msgCounter + 1);
    CounterSteady(s, s.regs, s.msgCounter);
    BoxOpSeats(e, p, m);
    PutSeats(s.regs, n, Woken(p, m));
    PutSeats(s.regs, n, Queued(e, p, m));
    CounterSteady(s, s.regs[n := Woken(p, m)], m.id);
    CounterSteady(s, s.regs[n := Queued(e, p, m)], m.id);
    DeliverSteady(e, t.Put(n, Woken(p, m)), n, WakeBatch(p.box, m), true, ByNote(m.id));
    SteadyTrans(s, t.Put(n, Woken(p, m)),
      Deliver(e, t.Put(n, Woken(p, m)), n, WakeBatch(p.box, m), true, ByNote(m.id)));
  }

  lemma CounterSteady(s: State, regs: map<Name, Part>, counter: nat)
    requires Seats(regs) == Seats(s.regs) && s.msgCounter <= counter
    ensures Steady(s, s.(regs := regs, msgCounter := counter))
  {
    hide Seats, Trace;
  }

  lemma SteadyTrans(s: State, t: State, u: State)
    requires Steady(s, t) && Steady(t, u)
    ensures Steady(s, u)
  {
    hide Seats, Trace;
  }

  lemma {:induction false} SystemSteady(e: Env, s: State, names: seq<Name>, text: Text)
    ensures Steady(s, SystemMessage(e, s, names, text))
    decreases names
  {
    if names != [] {
      hide SystemOne, Seats, Trace;
      var t := if names[0] in s.regs then SystemOne(e, s, names[0], text) else s;
      if names[0] in s.regs {
        SystemOneSteady(e, s, names[0], text);
      }
      SystemSteady(e, t, names[1..], text);
    }
  }

  lemma RouteOneSteady(e: Env, r: Routing, sender: Name, m: Msg, q: Name)
    ensures Steady(r.state, RouteOne(e, r, sender, m, q).state)
  {
    hide Seats, Trace, Woken, WakeBatch, Queued, Buffered;
    if q in r.state.regs {
      BoxOpSeats(e, r.state.regs[q], m.Tag(Addressed(q, m.to)));
    }
    var s, t := r.state, RouteOne(e, r, sender, m, q).state;
    if q in s.regs {
      assert t == s || (t == s.Put(q, t.regs[q]) && SeatOf(t.regs[q]) == SeatOf(s.regs[q]));
      hide RouteOne;
      if q in t.regs {
        PutSeatsIf(s.regs, q, t.regs[q]);
      }
    }
  }

  lemma PutSeatsIf(regs: map<Name, Part>, n: Name, p: Part)
    ensures n in regs && SeatOf(p) == SeatOf(regs[n]) ==> Seats(regs[n := p]) == Seats(regs)
  {
  }


  lemma {:induction false} RouteAllSteady(e: Env, r: Routing, sender: Name, m: Msg, names: seq<Name>)
    ensures Steady(r.state, RouteAll(e, r, sender, m, names).state)
    decreases names
  {
    if names != [] {
      hide RouteOne, Seats, Trace;
      RouteOneSteady(e, r, sender, m, names[0]);
      RouteAllSteady(e, RouteOne(e, r, sender, m, names[0]), sender, m, names[1..]);
    }
  }

  lemma {:induction false} DeliverAllSteady(e: Env, s: State, batches: seq<(Name, seq<Msg>)>, drawn: bool, cause: Cause)
    ensures Steady(s, DeliverAll(e, s, batches, drawn, cause))
    decreases batches
  {
    if batches != [] {
      hide Deliver, Seats, Trace;
      var t := if batches[0].0 in s.regs then Deliver(e, s, batches[0].0, batches[0].1, drawn, cause) else s;
      if batches[0].0 in s.regs {
        DeliverSteady(e, s, batches[0].0, batches[0].1, drawn, cause);
      }
      DeliverAllSteady(e, t, batches[1..], drawn, cause);
    }
  }

  lemma AcceptSteady(e: Env, s: State, n: Name, f: SayFrame)
    requires n in s.regs
    ensures Steady(Register(e, s, n, f), Accept(e, s, n, f))
  {
    hide Register, RouteAll, DeliverAll, CheckRoundLimit, Seats, Trace;
    var m := NewMsg(s, n, f);
    var r0 := Routing(Register(e, s, n, f), [], [], 0);
    RouteAllSteady(e, r0, n, m, s.order);
    var r := RouteAll(e, r0, n, m, s.order);
    var s1 := if r.woken != [] then r.state.(round := r.state.round + 1) else r.state;
    DeliverAllSteady(e, s1, r.observers, false, BySay(m.id));
    var s2 := DeliverAll(e, s1, r.observers, false, BySay(m.id));
    DeliverAllSteady(e, s2, r.woken, true, BySay(m.id));
    var s3 := DeliverAll(e, s2, r.woken, true, BySay(m.id));
    ChecksSteady(e, s3);
    var s4 := if r.woken != [] then CheckRoundLimit(e, s3) else s3;
    AnswerSteady(e, s4, s.regs[n].client, Ok(Some(m.id), r.queued, Some(f.seqNo)));
  }

  lemma RejectSteady(e: Env, s: State, n: Name, f: SayFrame, code: ErrCode, retryAfter: Option<real>)
    requires n in s.regs
    ensures Steady(s, Reject(e, s, n, f, code, retryAfter))
  {
    hide Emit, Seats, Trace;
    AnswerSteady(e, s, s.regs[n].client, Err(code, Some(f.seqNo), retryAfter, ""));
    EmitSteady(e, Answer(e, s, s.regs[n].client, Err(code, Some(f.seqNo), retryAfter, "")), Rejected(n, code), None);
  }

  /** The state a say leaves before anything is sent: the sender's budget, its duplicate
      window and its history, and the record of an accepted say. */
  function Charged(e: Env, s: State, n: Name, f: SayFrame): State
    requires n in s.regs
  {
    var p := s.regs[n];
    if EarlyRefusal(s, p, f).Some? then s
    else if p.IsObserver() then Register(e, s, n, f)
    else if !MaySpend(e, s, p) then Spent(e, s, n)
    else if Repeats(e, s, p, f) then Checked(e, s, n, f)
    else Register(e, Kept(e, s, n, f), n, f)
  }

  lemma RouteSaySteady(e: Env, s: State, n: Name, f: SayFrame)
    requires n in s.regs && e.cfg.ratePerSecond > 0.0
    ensures Steady(Charged(e, s, n, f), RouteSay(e, s, n, f).0)
  {
    hide Accept, Reject, Register, MaySpend, Repeats, EarlyRefusal, Seats, Trace, Steady;
    var p := s.regs[n];
    var early := EarlyRefusal(s, p, f);
    if early.Some? {
      RejectSteady(e, s, n, f, early.value, None);
    } else if p.IsObserver() {
      AcceptSteady(e, s, n, f);
    } else if !MaySpend(e, s, p) {
      RejectSteady(e, Spent(e, s, n), n, f, RateLimited,
        Some(Bucket.Wait(e.cfg.rateBurst as real, e.cfg.ratePerSecond, p.bucket, s.clock.mono)));
    } else if Repeats(e, s, p, f) {
      RejectSteady(e, Checked(e, s, n, f), n, f, Duplicate, None);
    } else {
      AcceptSteady(e, Kept(e, s, n, f), n, f);
    }
  }

  lemma InferIdleSteady(e: Env, s: State, n: Name)
    requires n in s.regs
    ensures Steady(s, InferIdle(e, s, n))
  {
    hide FlushQueue, Trace, Seats;
    PutSeats(s.regs, n, SetIdle(s.regs[n]));
    FlushSteady(e, s.Put(n, SetIdle(s.regs[n])), n);
  }

  lemma SaySteady(e: Env, s: State, n: Name, f: SayFrame)
    requires n in s.regs && e.cfg.ratePerSecond > 0.0
    ensures Steady(Charged(e, s, n, f), HandleSay(e, s, n, f))
  {
    hide RouteSay, InferIdle, CheckSessionDone, Seats, Trace, Charged;
    RouteSaySteady(e, s, n, f);
    var s1 := RouteSay(e, s, n, f).0;
    if n in s1.regs {
      InferIdleSteady(e, s1, n);
      var s2 := InferIdle(e, s1, n);
      if n in s2.regs {
        PutSeats(s2.regs, n, s2.regs[n].(finished := true));
        PutSeats(s2.regs, n, s2.regs[n].(finished := false));
        ChecksSteady(e, MarkFinished(s2, n, true));
      }
    }
  }

  lemma ReportingSeat(now: real, p: Part, st: Activity, detail: Option<string>)
    ensures SeatOf(Reporting(now, p, st, detail)) == SeatOf(p)
  {
  }

  lemma StateSteady(e: Env, s: State, n: Name, st: Activity, detail: Option<string>)
    requires n in s.regs
    ensures Steady(s, HandleState(e, s, n, st, detail))
  {
    hide FlushQueue, Trace, Seats, FreshlyBlocked, Reporting;
    var p := s.regs[n];
    var q := Reporting(s.clock.mono, p, st, detail);
    ReportingSeat(s.clock.mono, p, st, detail);
    PutSeats(s.regs, n, q);
    var notified := if FreshlyBlocked(p, st, detail) then s.blockedNotified - {n} else s.blockedNotified;
    FlushSteady(e, s.(blockedNotified := notified).Put(n, q), n);
  }

  /** Commands change the budget, never the seats. */
  ghost predicate SteadyButBudget(s: State, t: State) {
    Steady(s, t.(maxRounds := s.maxRounds))
  }

  lemma GoalSteady(e: Env, s: State, text: string)
    ensures Steady(s, BufferGoal(e, s, text))
  {
    assert Seats(BufferGoal(e, s, text).regs) == Seats(s.regs);
  }

  lemma ExecuteSteady(e: Env, s: State, cmd: Command)
    ensures SteadyButBudget(s, Execute(e, s, cmd))
  {
    hide SystemMessage, Emit, ResumedLimit, BufferGoal, Seats, Trace;
    match cmd
    case Freeze => EmitSteady(e, s.(frozen := true), FrozenBy(s.round), None);
    case Resume(n) =>
      var t := s.(maxRounds := ResumedLimit(e, s, n), frozen := false);
      EmitSteady(e, t, Resumed(t.round, t.maxRounds), None);
    case Reset => EmitSteady(e, s.(round := 0, frozen := false), WasReset(s.round), None);
    case Mute =>
      EmitSteady(e, s.(muted := true), MutedOn, None);
      var t := Emit(e, s.(muted := true), MutedOn, None);
      SystemSteady(e, t, t.order, MuteNote(true));
    case Unmute =>
      EmitSteady(e, s.(muted := false), MutedOff, None);
      var t := Emit(e, s.(muted := false), MutedOff, None);
      SystemSteady(e, t, t.order, MuteNote(false));
    case SetGoal(text) =>
      EmitSteady(e, s.(goal := text), GoalSet(text), None);
      GoalSteady(e, Emit(e, s.(goal := text), GoalSet(text), None), text);
  }

  lemma CmdSteady(e: Env, s: State, n: Name, cmd: Command, seqNo: Option<int>)
    requires n in s.regs
    ensures SteadyButBudget(s, HandleCmd(e, s, n, cmd, seqNo))
  {
    hide Execute, Seats, Trace, Answer;
    ExecuteSteady(e, s, cmd);
    AnswerSteady(e, s, s.regs[n].client, Err(Forbidden, seqNo, None, ""));
    AnswerSteady(e, Execute(e, s, cmd).Touch(), s.regs[n].client, Ok(None, 0, seqNo));
  }

  // ------------------------------------------------------------------ joining and leaving

  lemma {:induction false} WithoutFacts(xs: seq<Name>, n: Name)
    ensures forall m :: m in Without(xs, n) <==> m in xs && m != n
    ensures (forall i, j :: 0 <= i < j < |xs| ==> xs[i] != xs[j])
            ==> forall i, j :: 0 <= i < j < |Without(xs, n)| ==> Without(xs, n)[i] != Without(xs, n)[j]
  {
    if xs != [] {
      WithoutFacts(xs[1..], n);
      assert xs == [xs[0]] + xs[1..];
      var ys := Without(xs[1..], n);
      forall i | 0 <= i < |ys|
        ensures ys[i] in xs[1..]
      {
        assert ys[i] in ys;
      }
    }
  }

  lemma DisconnectFrame(e: Env, s: State, c: ConnId)
    ensures var t := Disconnect(e, s, c);
            && t.names == s.names && t.regs.Keys == s.regs.Keys && s.gone + {c} <= t.gone
            && t.msgCounter == s.msgCounter && t.clock == s.clock && t.maxRounds == s.maxRounds
            && t.recent == s.recent && t.archive == s.archive
            && (forall n :: n in s.regs ==> t.regs[n] == s.regs[n] || t.regs[n] == s.regs[n].(finished := false))
            && (forall n :: n in t.order <==> n in s.order && !(Holds(s, c) && n == s.names[c]))
            && t.order == if Holds(s, c) then Without(s.order, s.names[c]) else s.order
  {
    if Holds(s, c) {
      var n := s.names[c];
      WithoutFacts(s.order, n);
      var left := s.(order := Without(s.order, n), blockedNotified := s.blockedNotified - {n}).Touch();
      hide Without, SessionComplete;
      EmitFrame(e, left, PeerLeft(n), None);
      SessionDoneFrame(e, Emit(e, left, PeerLeft(n), None));
    }
  }

  lemma DisconnectSeats(e: Env, s: State, c: ConnId)
    ensures Seats(Disconnect(e, s, c).regs) == Seats(s.regs)
  {
    hide Disconnect, Holds, Without;
    DisconnectFrame(e, s, c);
  }

  lemma DisconnectSeated(e: Env, s: State, c: ConnId)
    requires Seated(s)
    ensures Seated(Disconnect(e, s, c))
  {
    hide Disconnect, Without, Seated, Seats;
    DisconnectFrame(e, s, c);
    DisconnectSeats(e, s, c);
    var t := Disconnect(e, s, c);
    OrderSeated(s, t.order, if Holds(s, c) then s.names[c] else "");
    SeatsSeated(s.(order := t.order), t);
  }

  lemma SeatsSeated(s: State, t: State)
    requires Seated(s) && t.order == s.order && t.names == s.names && Seats(t.regs) == Seats(s.regs)
    ensures Seated(t)
  {
    assert Seats(t.regs).Keys == t.regs.Keys && Seats(s.regs).Keys == s.regs.Keys;
    forall n | n in s.regs
      ensures SeatOf(t.regs[n]) == SeatOf(s.regs[n])
    {
      assert Seats(t.regs)[n] == Seats(s.regs)[n];
    }
  }

  lemma OrderSeated(s: State, order: seq<Name>, n: Name)
    requires Seated(s) && (order == s.order || order == Without(s.order, n))
    ensures Seated(s.(order := order))
  {
    if order != s.order {
      WithoutFacts(s.order, n);
    }
    forall i | 0 <= i < |order|
      ensures order[i] in s.regs
    {
      assert order[i] in order;
    }
  }

  lemma EnteringSeated(e: Env, s: State, c: ConnId, n: Name, kind: string, caps: set<string>)
    requires Seated(s) && c !in s.names && n !in s.order && Names.ValidName(n)
    ensures Seated(Entering(e, s, c, n, kind, caps))
  {
  }

  lemma BacklogSteady(e: Env, s: State, n: Name)
    requires n in s.regs
    ensures Steady(s, GiveBacklog(e, s, n))
  {
    hide Seats, Trace, Deliver, OverhearAll, Backlog, Tagged;
    var p := s.regs[n];
    var backlog := Backlog(e.cfg, s.recent, n, p.IsObserver());
    DeliverSteady(e, s, n, Tagged(backlog, n), false, ByBacklog);
    PutSeats(s.regs, n, p.(box := OverhearAll(e.cfg, p.box, backlog)));
  }

  lemma WelcomedSteady(e: Env, s: State, c: ConnId, n: Name, kind: string, caps: set<string>)
    ensures Steady(Entering(e, s, c, n, kind, caps), Welcomed(e, s, c, n, kind, caps))
    ensures n in Welcomed(e, s, c, n, kind, caps).regs
  {
    hide GiveBacklog, Emit, Entering, Seats, Trace, Answer;
    var s0 := Entering(e, s, c, n, kind, caps);
    assert n in s0.regs by { EnteringHas(e, s, c, n, kind, caps); }
    var s1 := Answer(e, s0, c, Welcome);
    AnswerSteady(e, s0, c, Welcome);
    BacklogSteady(e, s1, n);
    var s2 := if n !in s.regs || s1.regs[n].IsObserver() then GiveBacklog(e, s1, n) else s1;
    EmitSteady(e, s2.Touch(), PeerJoined(n, kind), Some(n));
    SteadyFacts(s0, Welcomed(e, s, c, n, kind, caps));
  }

  lemma AdmitSteady(e: Env, s: State, c: ConnId, n: Name, kind: string, caps: set<string>)
    ensures Steady(Entering(e, s, c, n, kind, caps), Admit(e, s, c, n, kind, caps))
  {
    hide Welcomed, FlushQueue, Entering, Seats, Trace;
    WelcomedSteady(e, s, c, n, kind, caps);
    FlushSteady(e, Welcomed(e, s, c, n, kind, caps), n);
  }

  lemma EnteringHas(e: Env, s: State, c: ConnId, n: Name, kind: string, caps: set<string>)
    ensures n in Entering(e, s, c, n, kind, caps).regs
  {
  }

  lemma SuggestionIsFirst(taken: Name, used: set<Name>, k: nat)
    requires Names.FirstFree(taken, used, k)
    ensures Suggestion(taken, used) == Names.Candidate(taken, k)
  {
    hide Names.Candidate;
    var j :| Names.FirstFree(taken, used, j) && Suggestion(taken, used) == Names.Candidate(taken, j);
    Names.FirstFreeUnique(taken, used, j, k);
  }
}
