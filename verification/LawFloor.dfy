/** The floor: `session_done` is never missed, and the round counter is exactly the number
    of wake occasions since it last went back to zero, so that the freeze cannot be
    outrun. */
module LawFloor {
  import opened Types
  import opened Mailbox
  import opened MailboxLaws
  import opened HubState
  import opened HubSpec
  import opened HubFrames
  import opened LawMail
  import opened LawMailSteps
  import Bucket
  import Dedup

  // ------------------------------------------------------------------ wake occasions

  /** A frame that wakes its recipient with more than the hub's own notes. */
  predicate WakesForReal(msgs: seq<Msg>) {
    exists i :: 0 <= i < |msgs| && msgs[i].addressing != Overheard && msgs[i].sender != SYSTEM_SENDER
  }

  predicate SayFrameTo(x: Note) {
    x.Delivered? && x.toAgent && x.cause.BySay?
  }

  /** An agent has already been woken by this say. */
  predicate HasWoken(log: seq<Note>, id: nat) {
    exists i :: 0 <= i < |log| && SayFrameTo(log[i]) && log[i].cause.id == id
  }

  /** Whether a note is a wake occasion of its own: the first frame with which a say wakes an
      agent, or a flush that carries more than system notes. */
  predicate Occasion(before: seq<Note>, x: Note) {
    || (SayFrameTo(x) && !HasWoken(before, x.cause.id))
    || (x.Delivered? && x.cause.ByFlush? && WakesForReal(x.msgs))
  }

  /** The events after which counting starts again. */
  predicate Restarts(x: Note) {
    x.Happened? && (x.event.SessionDone? || x.event.WasReset?)
  }

  /** The wake occasions in the log since the last reset or session end. */
  function Occasions(log: seq<Note>): nat {
    if log == [] then 0
    else
      var before, x := log[..|log| - 1], log[|log| - 1];
      if Restarts(x) then 0 else Occasions(before) + (if Occasion(before, x) then 1 else 0)
  }

  /** The largest id of a say that has woken an agent. */
  function TopSay(log: seq<Note>): nat {
    if log == [] then 0
    else
      var x := log[|log| - 1];
      Max(TopSay(log[..|log| - 1]), if SayFrameTo(x) then x.cause.id else 0)
  }

  /** Every flush frame of the log carries the tally as it stands with that frame. */
  predicate Counted(log: seq<Note>) {
    log == [] ||
      var before, x := log[..|log| - 1], log[|log| - 1];
      Counted(before) && (x.Delivered? && x.cause.ByFlush? ==> x.round == Occasions(log))
  }

  lemma LogGrows(log: seq<Note>, x: Note)
    ensures Counted(log + [x]) <==> Counted(log) && (x.Delivered? && x.cause.ByFlush? ==>
              x.round == Occasions(log + [x]))
    ensures Occasions(log + [x]) == if Restarts(x) then 0 else Occasions(log) + (if Occasion(log, x) then 1 else 0)
    ensures TopSay(log + [x]) == Max(TopSay(log), if SayFrameTo(x) then x.cause.id else 0)
  {
    assert (log + [x])[..|log|] == log;
  }

  lemma {:induction false} WokenIsKnown(log: seq<Note>)
    ensures forall i :: 0 <= i < |log| && SayFrameTo(log[i]) ==> log[i].cause.id <= TopSay(log)
  {
    if log != [] {
      WokenIsKnown(log[..|log| - 1]);
      assert log == log[..|log| - 1] + [log[|log| - 1]];
    }
  }

  // ------------------------------------------------------------------ the invariant

  predicate Tallied(s: State) {
    s.round == Occasions(s.log) && TopSay(s.log) <= s.msgCounter && Counted(s.log)
  }

  predicate Budgeted(s: State) {
    s.maxRounds >= 1 && (s.frozen || s.round < s.maxRounds)
  }

  predicate Floor(s: State) {
    !SessionComplete(s) && Budgeted(s) && Tallied(s)
  }

  /** What the end of a session depends on. */
  datatype Mark = Mark(observer: bool, finished: bool, emptied: bool)

  function MarkOf(p: Part): Mark {
    Mark(p.IsObserver(), p.finished, p.box.queue == [])
  }

  function Marks(regs: map<Name, Part>): map<Name, Mark> {
    map n | n in regs :: MarkOf(regs[n])
  }

  /** The counters stand still and the log gains nothing that counts. */
  predicate Still(s: State, t: State) {
    && t.round == s.round && t.frozen == s.frozen && t.maxRounds == s.maxRounds && s.msgCounter <= t.msgCounter
    && Occasions(t.log) == Occasions(s.log) && TopSay(t.log) == TopSay(s.log) && Counted(t.log) == Counted(s.log)
  }

  /** As `Still`; in addition nobody leaves, joins, finishes or runs empty. */
  ghost predicate Calm(s: State, t: State) {
    Still(s, t) && t.order == s.order && Marks(t.regs) == Marks(s.regs)
  }

  lemma MarksAt(r: map<Name, Part>, r': map<Name, Part>)
    requires Marks(r') == Marks(r)
    ensures r'.Keys == r.Keys && forall n :: n in r ==> MarkOf(r'[n]) == MarkOf(r[n])
  {
    assert Marks(r').Keys == r'.Keys && Marks(r).Keys == r.Keys;
    forall n | n in r
      ensures MarkOf(r'[n]) == MarkOf(r[n])
    {
      assert Marks(r')[n] == Marks(r)[n];
    }
  }

  lemma PutMarks(regs: map<Name, Part>, n: Name, p: Part)
    requires n in regs && MarkOf(p) == MarkOf(regs[n])
    ensures Marks(regs[n := p]) == Marks(regs)
  {
  }

  lemma CalmComplete(s: State, t: State)
    requires t.order == s.order && Marks(t.regs) == Marks(s.regs)
    ensures SessionComplete(t) == SessionComplete(s)
  {
    MarksAt(s.regs, t.regs);
    hide Marks;
    assert forall n :: t.IsAgent(n) <==> s.IsAgent(n);
  }

  lemma CalmFloor(s: State, t: State)
    requires Calm(s, t)
    ensures Floor(s) ==> Floor(t)
    ensures SessionComplete(t) == SessionComplete(s)
    ensures Tallied(s) ==> Tallied(t)
    ensures Budgeted(s) ==> Budgeted(t)
  {
    hide SessionComplete, Marks, Occasions, TopSay, Counted;
    CalmComplete(s, t);
  }

  // ------------------------------------------------------------------ calm transitions

  predicate PlainEvent(ev: Event) {
    !ev.SessionDone? && !ev.WasReset?
  }

  lemma EmitCalm(e: Env, s: State, ev: Event, skip: Option<Name>)
    requires PlainEvent(ev)
    ensures Calm(s, Emit(e, s, ev, skip))
  {
    hide Occasions, TopSay, Counted, Marks, Emit;
    EmitFrame(e, s, ev, skip);
    LogGrows(s.log, Happened(ev));
  }

  lemma AnswerCalm(e: Env, s: State, c: ConnId, r: Reply)
    ensures Calm(s, Answer(e, s, c, r))
  {
    hide Occasions, TopSay, Counted, Marks;
    LogGrows(s.log, Replied(c, r));
  }

  /** A frame that is no occasion: an observer's copy, a backlog, a note from the hub. */
  lemma DeliverCalm(e: Env, s: State, n: Name, batch: seq<Msg>, drawn: bool, cause: Cause)
    requires n in s.regs && !cause.ByFlush? && (cause.BySay? ==> s.regs[n].IsObserver())
    ensures Calm(s, Deliver(e, s, n, batch, drawn, cause))
  {
    hide Occasions, TopSay, Counted, Marks, Deliver, SortById;
    DeliverFrame(e, s, n, batch, drawn, cause);
    LogGrows(s.log, Delivered(n, !s.regs[n].IsObserver(), cause, s.round, SortById(batch)));
    PutMarks(s.regs, n, Deliver(e, s, n, batch, drawn, cause).regs[n]);
  }

  lemma DeliverMarks(e: Env, s: State, n: Name, batch: seq<Msg>, drawn: bool, cause: Cause)
    requires n in s.regs
    ensures Marks(Deliver(e, s, n, batch, drawn, cause).regs) == Marks(s.regs)
    ensures Deliver(e, s, n, batch, drawn, cause).order == s.order
  {
    hide Marks, Deliver, SortById;
    DeliverFrame(e, s, n, batch, drawn, cause);
    PutMarks(s.regs, n, Deliver(e, s, n, batch, drawn, cause).regs[n]);
  }

  // ------------------------------------------------------------------ the two checks

  /** The check fires exactly when the session is complete; what it leaves behind is round
      zero, no mark, and a session that is not complete. */
  lemma SessionCheck(e: Env, s: State)
    ensures var t := CheckSessionDone(e, s);
            && !SessionComplete(t)
            && (SessionComplete(s) <==> t.log == s.log + [Happened(SessionDone(s.round))])
            && (SessionComplete(s) ==>
               t.round == 0 && (forall n :: n in t.order && t.IsAgent(n) ==> !t.regs[n].finished))
            && (!SessionComplete(s) ==> t == s)
            && t.order == s.order
            && (Tallied(s) ==> Tallied(t)) && (Budgeted(s) ==> Budgeted(t))
  {
    SessionDoneFrame(e, s);
    hide CheckSessionDone, Occasions, TopSay, Counted;
    LogGrows(s.log, Happened(SessionDone(s.round)));
  }

  /** After the round check the floor is frozen or within budget. */
  lemma RoundCheck(e: Env, s: State)
    requires s.maxRounds >= 1
    ensures var t := CheckRoundLimit(e, s);
            && Budgeted(t) && t.regs == s.regs && t.order == s.order
            && (Tallied(s) ==> Tallied(t))
  {
    hide Occasions, TopSay, Counted, CheckRoundLimit;
    RoundLimitFrame(e, s);
    LogGrows(s.log, Happened(RoundLimit(s.round)));
    LogGrows(s.log + [Happened(RoundLimit(s.round))], Happened(FreezeWithoutObserver));
    assert s.log + [Happened(RoundLimit(s.round))] + [Happened(FreezeWithoutObserver)]
        == s.log + [Happened(RoundLimit(s.round)), Happened(FreezeWithoutObserver)];
  }

  // ------------------------------------------------------------------ flushing

  lemma SortedWakes(xs: seq<Msg>)
    ensures WakesForReal(SortById(xs)) <==> WakesForReal(xs)
  {
    SortKeeps(xs);
    hide SortById;
    SameWakes(xs, SortById(xs));
    SameWakes(SortById(xs), xs);
  }

  lemma SameWakes(xs: seq<Msg>, ys: seq<Msg>)
    requires multiset(xs) == multiset(ys)
    ensures WakesForReal(xs) ==> WakesForReal(ys)
  {
    if WakesForReal(xs) {
      var i :| 0 <= i < |xs| && xs[i].addressing != Overheard && xs[i].sender != SYSTEM_SENDER;
      assert xs[i] in multiset(ys);
      var j :| 0 <= j < |ys| && ys[j] == xs[i];
    }
  }

  lemma RidingAlong(out: seq<Msg>, wake: seq<Msg>)
    requires forall i :: 0 <= i < |out| ==> out[i].addressing == Overheard
    requires forall i :: 0 <= i < |wake| ==> wake[i].addressing != Overheard
    ensures WakesForReal(out + wake) <==> Counts(wake)
  {
    if Counts(wake) {
      var i :| 0 <= i < |wake| && wake[i].sender != SYSTEM_SENDER;
      assert (out + wake)[|out| + i] == wake[i];
    }
  }

  /** A slice is an occasion exactly when it holds more than the hub's own notes. */
  lemma BatchCounts(cfg: Config, n: Name, b: Box)
    requires Shaped(cfg, b, [])
    ensures WakesForReal(SortById(SliceBatch(cfg, n, b))) <==> Counts(WakeSlice(cfg, n, b))
  {
    SortedWakes(SliceBatch(cfg, n, b));
    RidingAlong(Drained(b.ctx, SliceBound(cfg, n, b)), WakeSlice(cfg, n, b));
    hide SortById, WakesForReal, Counts;
  }

  lemma FlushDeliverTally(e: Env, s: State, t: State, n: Name, batch: seq<Msg>)
    requires n in t.regs && Tallied(s) && t.log == s.log && t.msgCounter == s.msgCounter
    requires t.round == s.round + (if WakesForReal(SortById(batch)) then 1 else 0)
    ensures Tallied(Deliver(e, t, n, batch, true, ByFlush))
    ensures var u := Deliver(e, t, n, batch, true, ByFlush);
            u.round == t.round && u.maxRounds == t.maxRounds && u.frozen == t.frozen
  {
    hide Occasions, TopSay, Counted, Deliver, SortById, WakesForReal;
    DeliverFrame(e, t, n, batch, true, ByFlush);
    LogGrows(s.log, Delivered(n, !t.regs[n].IsObserver(), ByFlush, t.round, SortById(batch)));
  }

  /** A flush counts one occasion, freezes the floor if that exhausts the budget, and ends
      the session if that was the last wake. */
  lemma FlushFloor(e: Env, s: State, n: Name)
    requires n in s.regs && Shaped(e.cfg, s.regs[n].box, []) && Budgeted(s) && Tallied(s)
    ensures FlushQueue(e, s, n) == s || Floor(FlushQueue(e, s, n))
  {
    hide Tallied, SessionComplete, Deliver, CheckRoundLimit, CheckSessionDone;
    hide SliceBatch, WakeSlice, AfterSlice, Counts, WakesForReal, Shaped;
    var p := s.regs[n];
    if p.box.queue != [] && s.Connected(n) {
      var batch := SliceBatch(e.cfg, n, p.box);
      BatchCounts(e.cfg, n, p.box);
      var t := s.Put(n, p.(box := AfterSlice(e.cfg, n, p.box)));
      if Counts(WakeSlice(e.cfg, n, p.box)) {
        FlushDeliverTally(e, s, t.(round := t.round + 1), n, batch);
        var u := Deliver(e, t.(round := t.round + 1), n, batch, true, ByFlush);
        RoundCheck(e, u);
        SessionCheck(e, CheckRoundLimit(e, u));
      } else {
        FlushDeliverTally(e, s, t, n, batch);
        SessionCheck(e, Deliver(e, t, n, batch, true, ByFlush));
      }
    }
  }

  lemma MailShaped(e: Env, s: State, n: Name)
    requires MailOk(e, s) || MailOkBut(e, s, n)
    requires n in s.regs
    ensures Shaped(e.cfg, s.regs[n].box, [])
  {
    hide Ordered, Conserved, Discreet, Shaped;
    assert BoxInv(e.cfg, s.msgCounter, n, s.regs[n].box, []);
  }

  // ------------------------------------------------------------------ queues that grow

  /** Queues only grow, marks stay. */
  ghost predicate Fuller(s: State, t: State) {
    && Still(s, t) && t.order == s.order && t.regs.Keys == s.regs.Keys
    && (forall n :: n in s.regs ==>
          && t.regs[n].IsObserver() == s.regs[n].IsObserver() && t.regs[n].finished == s.regs[n].finished
          && (t.regs[n].box.queue == [] ==> s.regs[n].box.queue == []))
  }

  lemma CalmFuller(s: State, t: State)
    requires Calm(s, t)
    ensures Fuller(s, t)
  {
    hide Occasions, TopSay, Counted, Marks;
    MarksAt(s.regs, t.regs);
  }

  lemma FullerTrans(s: State, t: State, u: State)
    requires Fuller(s, t) && Fuller(t, u)
    ensures Fuller(s, u)
  {
    hide Occasions, TopSay, Counted;
  }

  lemma FullerFloor(s: State, t: State)
    requires Fuller(s, t)
    ensures Floor(s) ==> Floor(t)
    ensures SessionComplete(t) ==> SessionComplete(s)
  {
    hide Occasions, TopSay, Counted;
    if SessionComplete(t) {
      var n :| n in t.order && t.IsAgent(n);
      assert s.IsAgent(n);
      assert forall m :: s.IsAgent(m) ==> t.IsAgent(m);
    }
  }

  lemma PutFuller(e: Env, s: State, n: Name, m: Msg)
    requires n in s.regs
    ensures Fuller(s, s.Put(n, Woken(s.regs[n], m))) && Fuller(s, s.Put(n, Queued(e, s.regs[n], m)))
              && Fuller(s, s.Put(n, Buffered(e, s.regs[n], m)))
  {
    hide Woken, Queued, Buffered, Fuller;
    BoxOpSeats(e, s.regs[n], m);
    PartFuller(s, n, Woken(s.regs[n], m));
    PartFuller(s, n, Queued(e, s.regs[n], m));
    PartFuller(s, n, Buffered(e, s.regs[n], m));
  }

  lemma PartFuller(s: State, n: Name, p: Part)
    requires n in s.regs && p.IsObserver() == s.regs[n].IsObserver() && p.finished == s.regs[n].finished
    requires p.box.queue == [] ==> s.regs[n].box.queue == []
    ensures Fuller(s, s.Put(n, p))
  {
    hide Occasions, TopSay, Counted;
  }

  lemma SystemOneFuller(e: Env, s: State, n: Name, text: Text)
    requires n in s.regs
    ensures Fuller(s, SystemOne(e, s, n, text))
  {
    hide Fuller, Deliver, Woken, Queued, WakeBatch, Calm;
    var p, m := s.regs[n], SystemNote(s, n, text);
    var t := s.(msgCounter := s.msgCounter + 1);
    PutFuller(e, t, n, m);
    assert Fuller(s, t) by { CounterFuller(s); }
    if !p.IsObserver() {
      if Wakeable(s, n) {
        var u := t.Put(n, Woken(p, m));
        FullerTrans(s, t, u);
        DeliverCalm(e, u, n, WakeBatch(p.box, m), true, ByNote(m.id));
        CalmFuller(u, Deliver(e, u, n, WakeBatch(p.box, m), true, ByNote(m.id)));
        FullerTrans(s, u, Deliver(e, u, n, WakeBatch(p.box, m), true, ByNote(m.id)));
      } else {
        FullerTrans(s, t, t.Put(n, Queued(e, p, m)));
      }
    } else {
      SelfFuller(s);
    }
  }

  lemma CounterFuller(s: State)
    ensures Fuller(s, s.(msgCounter := s.msgCounter + 1))
  {
  }

  lemma SelfFuller(s: State)
    ensures Fuller(s, s)
  {
  }

  lemma {:induction false} SystemFuller(e: Env, s: State, names: seq<Name>, text: Text)
    ensures Fuller(s, SystemMessage(e, s, names, text))
    decreases names
  {
    hide Fuller, SystemOne;
    if names == [] {
      SelfFuller(s);
    } else {
      var t := if names[0] in s.regs then SystemOne(e, s, names[0], text) else s;
      SelfFuller(s);
      if names[0] in s.regs {
        SystemOneFuller(e, s, names[0], text);
      }
      SystemFuller(e, t, names[1..], text);
      FullerTrans(s, t, SystemMessage(e, t, names[1..], text));
    }
  }

  lemma RouteOneFuller(e: Env, r: Routing, sender: Name, m: Msg, q: Name)
    ensures Fuller(r.state, RouteOne(e, r, sender, m, q).state)
    ensures RouteOne(e, r, sender, m, q).state.log == r.state.log
    ensures RouteOne(e, r, sender, m, q).state.msgCounter == r.state.msgCounter
  {
    hide Fuller, Woken, Queued, Buffered;
    SelfFuller(r.state);
    if q in r.state.regs {
      PutFuller(e, r.state, q, m.Tag(Addressed(q, m.to)));
    }
  }

  lemma {:induction false} RouteAllFuller(e: Env, r: Routing, sender: Name, m: Msg, names: seq<Name>)
    ensures Fuller(r.state, RouteAll(e, r, sender, m, names).state)
    ensures RouteAll(e, r, sender, m, names).state.log == r.state.log
    ensures RouteAll(e, r, sender, m, names).state.msgCounter == r.state.msgCounter
    decreases names
  {
    hide Fuller, RouteOne;
    SelfFuller(r.state);
    if names != [] {
      var t := RouteOne(e, r, sender, m, names[0]);
      RouteOneFuller(e, r, sender, m, names[0]);
      RouteAllFuller(e, t, sender, m, names[1..]);
      FullerTrans(r.state, t.state, RouteAll(e, t, sender, m, names[1..]).state);
    }
  }

  // ------------------------------------------------------------------ an accepted say

  lemma CalmTrans(s: State, t: State, u: State)
    requires Calm(s, t) && Calm(t, u)
    ensures Calm(s, u)
  {
    hide Marks, Occasions, TopSay, Counted;
  }

  lemma SelfCalm(s: State)
    ensures Calm(s, s)
  {
  }

  lemma {:induction false} ObserversCalm(e: Env, s: State, observers: seq<(Name, seq<Msg>)>, cause: Cause)
    requires cause.BySay? && forall i :: 0 <= i < |observers| && observers[i].0 in s.regs ==>
               s.regs[observers[i].0].IsObserver()
    ensures Calm(s, DeliverAll(e, s, observers, false, cause))
    decreases observers
  {
    hide Calm, Deliver;
    SelfCalm(s);
    if observers != [] {
      var n := observers[0].0;
      var t := if n in s.regs then Deliver(e, s, n, observers[0].1, false, cause) else s;
      if n in s.regs {
        DeliverCalm(e, s, n, observers[0].1, false, cause);
        CalmKinds(s, t);
      }
      ObserversCalm(e, t, observers[1..], cause);
      CalmTrans(s, t, DeliverAll(e, t, observers[1..], false, cause));
    }
  }

  lemma CalmKinds(s: State, t: State)
    requires Calm(s, t)
    ensures t.regs.Keys == s.regs.Keys && forall n :: n in s.regs ==> t.regs[n].IsObserver() == s.regs[n].IsObserver()
  {
    hide Occasions, TopSay, Counted;
    MarksAt(s.regs, t.regs);
  }

  predicate AllAgents(s: State, woken: seq<(Name, seq<Msg>)>) {
    forall i :: 0 <= i < |woken| ==> woken[i].0 in s.regs && !s.regs[woken[i].0].IsObserver()
  }

  /** One more frame of a say: only its first is an occasion. */
  lemma WakeTally(e: Env, s: State, n: Name, batch: seq<Msg>, id: nat)
    requires n in s.regs && !s.regs[n].IsObserver() && TopSay(s.log) <= id
    requires HasWoken(s.log, id) || TopSay(s.log) < id
    ensures var t := Deliver(e, s, n, batch, true, BySay(id));
            && Occasions(t.log) == Occasions(s.log) + (if HasWoken(s.log, id) then 0 else 1)
            && TopSay(t.log) == id && HasWoken(t.log, id) && Counted(t.log) == Counted(s.log)
            && t.round == s.round && t.frozen == s.frozen && t.maxRounds == s.maxRounds && t.msgCounter == s.msgCounter
  {
    hide Occasions, TopSay, Counted, Deliver, SortById;
    DeliverFrame(e, s, n, batch, true, BySay(id));
    var x := Delivered(n, true, BySay(id), s.round, SortById(batch));
    LogGrows(s.log, x);
    WokenIsKnown(s.log);
    assert (s.log + [x])[|s.log|] == x;
  }

  lemma {:induction false} WokenTally(e: Env, s: State, woken: seq<(Name, seq<Msg>)>, id: nat)
    requires AllAgents(s, woken) && TopSay(s.log) <= id && (HasWoken(s.log, id) || TopSay(s.log) < id)
    ensures var t := DeliverAll(e, s, woken, true, BySay(id));
            && Occasions(t.log) == Occasions(s.log) + (if HasWoken(s.log, id) || woken == [] then 0 else 1)
            && Counted(t.log) == Counted(s.log)
            && TopSay(t.log) <= id && Marks(t.regs) == Marks(s.regs) && t.order == s.order
            && t.round == s.round && t.frozen == s.frozen && t.maxRounds == s.maxRounds && t.msgCounter == s.msgCounter
    decreases woken
  {
    hide Occasions, TopSay, Counted, Deliver, Marks, HasWoken;
    if woken != [] {
      var n, batch := woken[0].0, woken[0].1;
      var t := Deliver(e, s, n, batch, true, BySay(id));
      WakeTally(e, s, n, batch, id);
      DeliverMarks(e, s, n, batch, true, BySay(id));
      MarksAt(s.regs, t.regs);
      WokenTally(e, t, woken[1..], id);
    }
  }

  lemma RegisterFuller(e: Env, s: State, n: Name, f: SayFrame)
    requires n in s.regs
    ensures Fuller(s, Register(e, s, n, f))
    ensures Register(e, s, n, f).msgCounter == s.msgCounter + 1
  {
    hide Occasions, TopSay, Counted, AskedBy, Last;
    LogGrows(s.log, SayNote(s, n, f));
  }

  /** From the first batch to the round check. */
  lemma BatchesFloor(e: Env, s: State, m: Msg, r: Routing, sender: Name)
    requires Floor(s) && Routed(e, r, sender, m, []) && r.state == s && TopSay(s.log) < m.id && s.msgCounter == m.id
    ensures var s1 := if r.woken != [] then s.(round := s.round + 1) else s;
            var s3 := DeliverAll(e, DeliverAll(e, s1, r.observers, false, BySay(m.id)), r.woken, true, BySay(m.id));
            Floor(if r.woken != [] then CheckRoundLimit(e, s3) else s3)
  {
    hide Occasions, TopSay, Counted, Marks, DeliverAll;
    hide CheckRoundLimit, SessionComplete, Mail, NothingWaitsBut, HasWoken;
    var s1 := if r.woken != [] then s.(round := s.round + 1) else s;
    ObserversCalm(e, s1, r.observers, BySay(m.id));
    var s2 := DeliverAll(e, s1, r.observers, false, BySay(m.id));
    CalmKinds(s1, s2);
    assert AllAgents(s2, r.woken);
    WokenTally(e, s2, r.woken, m.id);
    NotYetWoken(s2.log, m.id);
    var s3 := DeliverAll(e, s2, r.woken, true, BySay(m.id));
    CalmComplete(s1, s3);
    RoundComplete(s, s1.round);
    if r.woken != [] {
      RoundCheck(e, s3);
      CalmComplete(s3, CheckRoundLimit(e, s3));
    }
  }

  lemma NotYetWoken(log: seq<Note>, id: nat)
    requires TopSay(log) < id
    ensures !HasWoken(log, id)
  {
    WokenIsKnown(log);
  }

  lemma RoundComplete(s: State, round: nat)
    ensures SessionComplete(s.(round := round)) == SessionComplete(s)
  {
  }

  lemma AcceptFloor(e: Env, s: State, n: Name, f: SayFrame)
    requires e.cfg.Valid() && n in s.regs && Sound(e, s) && (f.private ==> f.to != EVERYONE) && Floor(s)
    ensures Floor(Accept(e, s, n, f))
  {
    hide Register, RouteAll, DeliverAll, CheckRoundLimit, Routed, Floor, Fuller, Mail;
    hide NothingWaitsBut, RecentRises, Occasions, TopSay, Counted, Seats, Seated, Marks;
    var m := NewMsg(s, n, f);
    var r0 := Routing(Register(e, s, n, f), [], [], 0);
    RegisterMail(e, s, n, f);
    RegisterFrame(e, s, n, f);
    RoutedStarts(e, r0, n, m, s.order);
    SeatedOrder(s);
    RouteAllMail(e, r0, n, m, s.order);
    var r := RouteAll(e, r0, n, m, s.order);
    RegisterFuller(e, s, n, f);
    RouteAllFuller(e, r0, n, m, s.order);
    FullerFloor(s, r0.state);
    FullerFloor(r0.state, r.state);
    FloorTop(s);
    FullerTop(s, r0.state);
    FullerTop(r0.state, r.state);
    BatchesFloor(e, r.state, m, r, n);
    var s1 := if r.woken != [] then r.state.(round := r.state.round + 1) else r.state;
    var s3 := DeliverAll(e, DeliverAll(e, s1, r.observers, false, BySay(m.id)), r.woken, true, BySay(m.id));
    var s4 := if r.woken != [] then CheckRoundLimit(e, s3) else s3;
    AnswerFloor(e, s4, s.regs[n].client, Ok(Some(m.id), r.queued, Some(f.seqNo)));
  }

  lemma SeatedOrder(s: State)
    requires Seated(s)
    ensures forall i, j :: 0 <= i < j < |s.order| ==> s.order[i] != s.order[j]
  {
  }

  lemma FloorTop(s: State)
    requires Floor(s)
    ensures TopSay(s.log) <= s.msgCounter
  {
  }

  lemma FullerTop(s: State, t: State)
    requires Fuller(s, t)
    ensures TopSay(t.log) == TopSay(s.log)
  {
  }

  lemma AnswerFloor(e: Env, s: State, c: ConnId, r: Reply)
    requires Floor(s)
    ensures Floor(Answer(e, s, c, r)) && Floor(Answer(e, s, c, r).Touch()) && Floor(s.Touch())
  {
    hide Floor, Calm, Answer;
    AnswerCalm(e, s, c, r);
    CalmFloor(s, Answer(e, s, c, r));
    TouchFloor(s);
    TouchFloor(Answer(e, s, c, r));
  }

  lemma TouchFloor(s: State)
    requires Floor(s)
    ensures Floor(s.Touch())
  {
  }

  // ------------------------------------------------------------------ say, state

  lemma PutCalm(s: State, n: Name, p: Part)
    requires n in s.regs && MarkOf(p) == MarkOf(s.regs[n])
    ensures Calm(s, s.Put(n, p))
  {
    hide Occasions, TopSay, Counted, Marks;
    PutMarks(s.regs, n, p);
  }

  lemma RejectFloor(e: Env, s: State, n: Name, f: SayFrame, code: ErrCode, retryAfter: Option<real>)
    requires n in s.regs && Floor(s)
    ensures Floor(Reject(e, s, n, f, code, retryAfter))
  {
    hide Floor, Calm, Emit, Answer;
    var t := Answer(e, s, s.regs[n].client, Err(code, Some(f.seqNo), retryAfter, ""));
    AnswerFloor(e, s, s.regs[n].client, Err(code, Some(f.seqNo), retryAfter, ""));
    EmitCalm(e, t, Rejected(n, code), None);
    CalmFloor(t, Emit(e, t, Rejected(n, code), None));
  }

  lemma ChargesFloor(e: Env, s: State, n: Name, f: SayFrame)
    requires n in s.regs && Floor(s)
    ensures Floor(Spent(e, s, n)) && Floor(Checked(e, s, n, f)) && Floor(Kept(e, s, n, f))
  {
    hide Floor, Calm, Spend, Remember;
    SpentFrame(e, s, s.regs[n], f);
    PutCalm(s, n, Spend(e, s, s.regs[n]));
    var t := Spent(e, s, n);
    CalmFloor(s, t);
    SpentFrame(e, t, t.regs[n], f);
    PutCalm(t, n, Remember(e, t, t.regs[n], f));
    var u := Checked(e, s, n, f);
    CalmFloor(t, u);
    hide Spent, Checked;
    PutCalm(u, n, u.regs[n].(says := u.regs[n].says + [Dedup.Said(s.clock.mono, f.to, f.text, f.private)]));
    CalmFloor(u, Kept(e, s, n, f));
  }

  lemma RouteSayFloor(e: Env, s: State, n: Name, f: SayFrame)
    requires e.cfg.Valid() && n in s.regs && Sound(e, s) && Floor(s) && (f.private ==> f.to != EVERYONE)
    ensures Floor(RouteSay(e, s, n, f).0)
  {
    hide Accept, Reject, Spent, Checked, Kept, MaySpend, Repeats, EarlyRefusal, Sound, Floor;
    var p := s.regs[n];
    var early := EarlyRefusal(s, p, f);
    ChargesSound(e, s, n, f);
    ChargesFloor(e, s, n, f);
    if early.Some? {
      RejectFloor(e, s, n, f, early.value, None);
    } else if p.IsObserver() {
      AcceptFloor(e, s, n, f);
    } else if !MaySpend(e, s, p) {
      RejectFloor(e, Spent(e, s, n), n, f, RateLimited,
        Some(Bucket.Wait(e.cfg.rateBurst as real, e.cfg.ratePerSecond, p.bucket, s.clock.mono)));
    } else if Repeats(e, s, p, f) {
      RejectFloor(e, Checked(e, s, n, f), n, f, Duplicate, None);
    } else {
      AcceptFloor(e, Kept(e, s, n, f), n, f);
    }
  }

  lemma FlushKeepsFloor(e: Env, s: State, n: Name)
    requires n in s.regs && Shaped(e.cfg, s.regs[n].box, []) && Floor(s)
    ensures Floor(FlushQueue(e, s, n))
  {
    hide FlushQueue, Shaped, SessionComplete, Tallied;
    FlushFloor(e, s, n);
  }

  lemma InferIdleFloor(e: Env, s: State, n: Name)
    requires n in s.regs && MailOk(e, s) && Floor(s)
    ensures Floor(InferIdle(e, s, n))
  {
    hide Floor, Calm, FlushQueue, Shaped, MailOk;
    MailShaped(e, s, n);
    var t := s.Put(n, SetIdle(s.regs[n]));
    PutCalm(s, n, SetIdle(s.regs[n]));
    CalmFloor(s, t);
    FlushKeepsFloor(e, t, n);
  }

  lemma FinishFloor(e: Env, s: State, n: Name)
    requires n in s.regs && s.IsAgent(n) && Floor(s)
    ensures Floor(MarkFinished(s, n, false)) && Floor(CheckSessionDone(e, MarkFinished(s, n, true)))
  {
    hide Occasions, TopSay, Counted, CheckSessionDone;
    SessionCheck(e, MarkFinished(s, n, true));
    var t := MarkFinished(s, n, false);
    assert t.IsAgent(n) && !t.regs[n].finished;
  }

  lemma SayFloor(e: Env, s: State, n: Name, f: SayFrame)
    requires e.cfg.Valid() && n in s.regs && n in s.order && Sound(e, s) && Floor(s) && (f.private ==> f.to != EVERYONE)
    ensures Floor(HandleSay(e, s, n, f))
  {
    hide RouteSay, InferIdle, CheckSessionDone, MailOk, MarkFinished, Seated, Floor, Steady, Charged;
    RouteSayFloor(e, s, n, f);
    RouteSayMail(e, s, n, f);
    RouteSaySteady(e, s, n, f);
    var s1 := RouteSay(e, s, n, f).0;
    assert s1.order == s.order by { ChargedOrder(e, s, n, f); SteadyOrder(Charged(e, s, n, f), s1); }
    if n in s1.regs {
      InferIdleFloor(e, s1, n);
      InferIdleSteady(e, s1, n);
      var s2 := InferIdle(e, s1, n);
      SteadyOrder(s1, s2);
      if n in s2.regs && !s2.regs[n].IsObserver() {
        FinishFloor(e, s2, n);
      }
    }
  }

  lemma SteadyOrder(s: State, t: State)
    requires Steady(s, t)
    ensures t.order == s.order
  {
  }

  lemma ChargedOrder(e: Env, s: State, n: Name, f: SayFrame)
    requires n in s.regs
    ensures Charged(e, s, n, f).order == s.order
  {
    hide EarlyRefusal, MaySpend, Repeats, Spend, Remember, Register;
    RegisterFrame(e, s, n, f);
    RegisterFrame(e, Kept(e, s, n, f), n, f);
  }

  lemma ReportingMark(now: real, p: Part, st: Activity, detail: Option<string>)
    ensures MarkOf(Reporting(now, p, st, detail)) == MarkOf(p)
  {
  }

  lemma StateFloor(e: Env, s: State, n: Name, st: Activity, detail: Option<string>)
    requires n in s.regs && MailOk(e, s) && Floor(s)
    ensures Floor(HandleState(e, s, n, st, detail))
  {
    hide Floor, Calm, FlushQueue, Shaped, MailOk, Reporting, FreshlyBlocked;
    var p := s.regs[n];
    MailShaped(e, s, n);
    ReportingMark(s.clock.mono, p, st, detail);
    ReportingBox(s.clock.mono, p, st, detail);
    var notified := if FreshlyBlocked(p, st, detail) then s.blockedNotified - {n} else s.blockedNotified;
    var s' := s.(blockedNotified := notified);
    NotifiedFloor(s, notified);
    var t := s'.Put(n, Reporting(s.clock.mono, p, st, detail));
    PutCalm(s', n, Reporting(s.clock.mono, p, st, detail));
    CalmFloor(s', t);
    FlushKeepsFloor(e, t, n);
  }

  lemma NotifiedFloor(s: State, notified: set<Name>)
    ensures Floor(s.(blockedNotified := notified)) == Floor(s)
  {
  }

  // ------------------------------------------------------------------ cmd

  lemma GoalCalm(e: Env, s: State, text: string)
    ensures Calm(s, BufferGoal(e, s, text))
  {
    hide Occasions, TopSay, Counted, Buffered;
    forall n | n in s.regs
      ensures MarkOf(Buffered(e, s.regs[n], GoalMsg(s, text))) == MarkOf(s.regs[n])
    {
      BoxOpSeats(e, s.regs[n], GoalMsg(s, text));
    }
    assert Marks(BufferGoal(e, s, text).regs) == Marks(s.regs);
  }

  lemma ResumedLimitExceeds(e: Env, s: State, n: Option<nat>)
    requires e.cfg.maxRounds >= 1 && (n.Some? ==> n.value > 0)
    ensures ResumedLimit(e, s, n) > s.round
  {
  }

  lemma EmitFloor(e: Env, s: State, ev: Event, skip: Option<Name>)
    requires PlainEvent(ev) && Floor(s)
    ensures Floor(Emit(e, s, ev, skip))
  {
    hide Floor, Calm, Emit;
    EmitCalm(e, s, ev, skip);
    CalmFloor(s, Emit(e, s, ev, skip));
  }

  /** Fields the floor does not look at, and the two it may relax. */
  lemma RelaxedFloor(s: State, frozen: bool, muted: bool, goal: string, maxRounds: nat)
    requires Floor(s) && maxRounds >= 1 && (frozen || s.round < maxRounds)
    ensures Floor(s.(frozen := frozen, muted := muted, goal := goal, maxRounds := maxRounds))
  {
    hide Occasions, TopSay, Counted;
    CalmComplete(s, s.(frozen := frozen, muted := muted, goal := goal, maxRounds := maxRounds));
  }

  lemma ResetFloor(e: Env, s: State)
    requires Floor(s)
    ensures Floor(Emit(e, s.(round := 0, frozen := false), WasReset(s.round), None))
  {
    hide Occasions, TopSay, Counted, Emit;
    var t := s.(round := 0, frozen := false);
    EmitFrame(e, t, WasReset(s.round), None);
    LogGrows(s.log, Happened(WasReset(s.round)));
    CalmComplete(s, Emit(e, t, WasReset(s.round), None));
  }

  lemma ExecuteFloor(e: Env, s: State, cmd: Command)
    requires e.cfg.Valid() && Floor(s) && (cmd.Resume? && cmd.n.Some? ==> cmd.n.value > 0)
    ensures Floor(Execute(e, s, cmd))
  {
    hide Occasions, TopSay, Counted, SessionComplete, Emit, SystemMessage, BufferGoal, ResumedLimit, Fuller, Calm;
    match cmd
    case Freeze =>
      RelaxedFloor(s, true, s.muted, s.goal, s.maxRounds);
      EmitFloor(e, s.(frozen := true), FrozenBy(s.round), None);
    case Resume(n) =>
      ResumedLimitExceeds(e, s, n);
      RelaxedFloor(s, false, s.muted, s.goal, ResumedLimit(e, s, n));
      var t := s.(maxRounds := ResumedLimit(e, s, n), frozen := false);
      EmitFloor(e, t, Resumed(t.round, t.maxRounds), None);
    case Reset => ResetFloor(e, s);
    case Mute =>
      RelaxedFloor(s, s.frozen, true, s.goal, s.maxRounds);
      EmitFloor(e, s.(muted := true), MutedOn, None);
      var t := Emit(e, s.(muted := true), MutedOn, None);
      SystemFuller(e, t, t.order, MuteNote(true));
      FullerFloor(t, SystemMessage(e, t, t.order, MuteNote(true)));
    case Unmute =>
      RelaxedFloor(s, s.frozen, false, s.goal, s.maxRounds);
      EmitFloor(e, s.(muted := false), MutedOff, None);
      var t := Emit(e, s.(muted := false), MutedOff, None);
      SystemFuller(e, t, t.order, MuteNote(false));
      FullerFloor(t, SystemMessage(e, t, t.order, MuteNote(false)));
    case SetGoal(text) =>
      RelaxedFloor(s, s.frozen, s.muted, text, s.maxRounds);
      EmitFloor(e, s.(goal := text), GoalSet(text), None);
      var t := Emit(e, s.(goal := text), GoalSet(text), None);
      GoalCalm(e, t, text);
      CalmFloor(t, BufferGoal(e, t, text));
  }

  lemma CmdFloor(e: Env, s: State, n: Name, cmd: Command, seqNo: Option<int>)
    requires e.cfg.Valid() && n in s.regs && Floor(s) && (cmd.Resume? && cmd.n.Some? ==> cmd.n.value > 0)
    ensures Floor(HandleCmd(e, s, n, cmd, seqNo))
  {
    hide Floor, Execute, Answer;
    ExecuteFloor(e, s, cmd);
    AnswerFloor(e, s, s.regs[n].client, Err(Forbidden, seqNo, None, ""));
    AnswerFloor(e, Execute(e, s, cmd), s.regs[n].client, Ok(None, 0, seqNo));
    AnswerFloor(e, Execute(e, s, cmd).Touch(), s.regs[n].client, Ok(None, 0, seqNo));
  }

  // ------------------------------------------------------------------ leaving and joining

  lemma DisconnectFloor(e: Env, s: State, c: ConnId)
    requires Floor(s)
    ensures Floor(Disconnect(e, s, c))
  {
    hide Occasions, TopSay, Counted, SessionComplete, Emit, CheckSessionDone, Without, Calm;
    if Holds(s, c) {
      var n := s.names[c];
      var left := s.(order := Without(s.order, n), blockedNotified := s.blockedNotified - {n}).Touch();
      EmitCalm(e, left, PeerLeft(n), None);
      CalmFloor(left, Emit(e, left, PeerLeft(n), None));
      SessionCheck(e, Emit(e, left, PeerLeft(n), None));
      var t := CheckSessionDone(e, Emit(e, left, PeerLeft(n), None));
      GoneFloor(t, t.gone + {c});
    } else {
      GoneFloor(s, s.gone + {c});
    }
  }

  lemma GoneFloor(s: State, gone: set<ConnId>)
    ensures Floor(s.(gone := gone)) == Floor(s)
  {
  }

  lemma EnteringFloor(e: Env, s: State, c: ConnId, n: Name, kind: string, caps: set<string>)
    requires Floor(s) && n !in s.order
    ensures Floor(Entering(e, s, c, n, kind, caps))
  {
    hide Occasions, TopSay, Counted;
    var t := Entering(e, s, c, n, kind, caps);
    assert forall m :: m in t.order <==> m in s.order || m == n;
    assert !t.regs[n].finished && (t.regs[n].IsObserver() <==> kind == OBSERVER);
    assert forall m :: m != n && m in s.regs ==> t.regs[m] == s.regs[m];
    if SessionComplete(t) {
      assert !t.IsAgent(n);
      var k :| k in t.order && t.IsAgent(k);
      assert s.IsAgent(k);
      assert forall m :: m in s.order && s.IsAgent(m) ==> t.IsAgent(m);
    }
  }

  lemma OverhearAllQueue(cfg: Config, b: Box, msgs: seq<Msg>)
    ensures OverhearAll(cfg, b, msgs).queue == b.queue
    decreases msgs
  {
    hide Overhear;
    if msgs != [] {
      OverhearQueue(cfg, b, msgs[0].Tag(Overheard));
      OverhearAllQueue(cfg, Overhear(cfg, b, msgs[0].Tag(Overheard)), msgs[1..]);
    }
  }

  lemma BacklogCalm(e: Env, s: State, n: Name)
    requires n in s.regs
    ensures Calm(s, GiveBacklog(e, s, n))
  {
    hide Calm, Deliver, Backlog, Tagged, OverhearAll;
    var p := s.regs[n];
    var backlog := Backlog(e.cfg, s.recent, n, p.IsObserver());
    SelfCalm(s);
    DeliverCalm(e, s, n, Tagged(backlog, n), false, ByBacklog);
    OverhearAllQueue(e.cfg, p.box, backlog);
    PutCalm(s, n, p.(box := OverhearAll(e.cfg, p.box, backlog)));
  }

  lemma WelcomedFloor(e: Env, s: State, c: ConnId, n: Name, kind: string, caps: set<string>)
    requires Floor(s) && n !in s.order
    ensures Floor(Welcomed(e, s, c, n, kind, caps))
  {
    hide Floor, Calm, Entering, Answer, GiveBacklog, Emit;
    EnteringFloor(e, s, c, n, kind, caps);
    EnteringHas(e, s, c, n, kind, caps);
    var s0 := Entering(e, s, c, n, kind, caps);
    AnswerFloor(e, s0, c, Welcome);
    AnswerSteady(e, s0, c, Welcome);
    var s1 := Answer(e, s0, c, Welcome);
    BacklogCalm(e, s1, n);
    CalmFloor(s1, GiveBacklog(e, s1, n));
    var s2 := if n !in s.regs || s1.regs[n].IsObserver() then GiveBacklog(e, s1, n) else s1;
    TouchFloor(s2);
    EmitFloor(e, s2.Touch(), PeerJoined(n, kind), Some(n));
  }

  lemma HelloFloor(e: Env, s: State, c: ConnId, n: Name, kind: string, caps: set<string>)
    requires e.cfg.Valid() && Sound(e, s) && Floor(s)
    ensures Floor(HandleHello(e, s, c, n, kind, caps))
  {
    hide Floor, MailOk, MailOkBut, Seated, Disconnect, Welcomed, FlushQueue, Answer, Shaped;
    if c in s.names {
      AnswerFloor(e, s, c, Err(Malformed, None, None, ""));
    } else {
      var t := if s.Live(n) && !s.Connected(n) then Disconnect(e, s, s.regs[n].client) else s;
      if s.Live(n) && !s.Connected(n) {
        DisconnectFloor(e, s, s.regs[n].client);
        DisconnectMail(e, s, s.regs[n].client);
        DisconnectSeated(e, s, s.regs[n].client);
      }
      if t.Live(n) {
        var r := Err(NameTaken, None, None, Suggestion(n, t.regs.Keys));
        AnswerFloor(e, t, c, r);
        GoneFloor(Answer(e, t, c, r), Answer(e, t, c, r).gone + {c});
      } else {
        SeatedRoots(t);
        WelcomedFloor(e, t, c, n, kind, caps);
        WelcomedMail(e, t, c, n, kind, caps);
        var u := Welcomed(e, t, c, n, kind, caps);
        MailShaped(e, u, n);
        FlushKeepsFloor(e, u, n);
      }
    }
  }

  // ------------------------------------------------------------------ watchdog, steps

  lemma ExpireFloor(e: Env, s: State)
    requires Floor(s)
    ensures Floor(ExpireDead(e, s))
  {
    hide Occasions, TopSay, Counted;
    var t := ExpireDead(e, s);
    assert forall n :: t.IsAgent(n) <==> s.IsAgent(n);
    assert forall n :: n in t.regs ==> t.regs[n] == s.regs[n];
  }

  lemma WatchOneFloor(e: Env, s: State, n: Name)
    requires e.cfg.Valid() && n in s.regs && MailOk(e, s) && Floor(s)
    ensures Floor(WatchOne(e, s, n))
  {
    hide Floor, MailOk, Disconnect, PingIfSilent, AssumeIdle, NotifyBlocked;
    DisconnectFloor(e, s, s.regs[n].client);
    PingFloor(e, s, n);
    PingMail(e, s, n);
    var t := PingIfSilent(e, s, n);
    if n in t.regs {
      AssumeFloor(e, t, n);
      var u := AssumeIdle(e, t, n);
      if n in u.regs {
        BlockedFloor(e, u, n);
      }
    }
  }

  lemma PingFloor(e: Env, s: State, n: Name)
    requires n in s.regs && Floor(s)
    ensures Floor(PingIfSilent(e, s, n))
  {
    hide Floor, Calm, Answer;
    var p := s.regs[n].(awaitingPong := true, pongDeadline := s.clock.mono + e.cfg.pongTimeout);
    PutCalm(s, n, p);
    CalmFloor(s, s.Put(n, p));
    AnswerFloor(e, s.Put(n, p), s.regs[n].client, Ping);
  }

  lemma AssumeFloor(e: Env, s: State, n: Name)
    requires n in s.regs && MailOk(e, s) && Floor(s)
    ensures Floor(AssumeIdle(e, s, n))
  {
    hide Floor, Calm, MailOk, Shaped, Emit, FlushQueue;
    MailShaped(e, s, n);
    var t := s.Put(n, SetIdle(s.regs[n]));
    PutCalm(s, n, SetIdle(s.regs[n]));
    CalmFloor(s, t);
    EmitFloor(e, t, Stalled(Some(n)), None);
    EmitFrame(e, t, Stalled(Some(n)), None);
    FlushKeepsFloor(e, Emit(e, t, Stalled(Some(n)), None), n);
  }

  lemma BlockedFloor(e: Env, s: State, n: Name)
    requires n in s.regs && Floor(s)
    ensures Floor(NotifyBlocked(e, s, n))
  {
    hide Floor, Emit;
    NotifiedFloor(s, s.blockedNotified + {n});
    EmitFloor(e, s.(blockedNotified := s.blockedNotified + {n}), BlockedFor(n), None);
  }

  lemma {:induction false} WatchAllFloor(e: Env, s: State, names: seq<Name>)
    requires e.cfg.Valid() && MailOk(e, s) && Floor(s)
    ensures Floor(WatchAll(e, s, names))
    decreases names
  {
    hide Floor, MailOk, WatchOne;
    if names != [] {
      if names[0] in s.regs {
        WatchOneFloor(e, s, names[0]);
        WatchOneMail(e, s, names[0]);
      }
      WatchAllFloor(e, if names[0] in s.regs then WatchOne(e, s, names[0]) else s, names[1..]);
    }
  }

  lemma LatchFloor(s: State, quorum: bool, stall: bool)
    ensures Floor(s.(quorumLatched := quorum)) == Floor(s) && Floor(s.(stallLatched := stall)) == Floor(s)
  {
  }

  lemma TickFloor(e: Env, s: State)
    requires e.cfg.Valid() && MailOk(e, s) && Floor(s)
    ensures Floor(WatchdogTick(e, s))
  {
    hide Floor, MailOk, WatchAll, ExpireDead, Emit, QuorumDue, AllQuiet, Expected;
    ExpireFloor(e, s);
    ExpireMail(e, s);
    var t := ExpireDead(e, s);
    WatchAllFloor(e, t, t.order);
    var u := WatchAll(e, t, t.order);
    LatchFloor(u, true, true);
    EmitFloor(e, u.(quorumLatched := true), QuorumReached(Expected(u)), None);
    var v := CheckQuorum(e, u);
    LatchFloor(v, true, true);
    EmitFloor(e, v.(stallLatched := true), Stalled(None), None);
  }

  lemma HandleFloor(e: Env, s: State, c: ConnId, f: Request)
    requires e.cfg.Valid() && Sound(e, s) && Floor(s)
    ensures Floor(Handle(e, s, c, f))
  {
    hide Floor, Sound, HandleHello, Dispatch, Answer, LifeSign;
    AnswerFloor(e, s, c, Err(Malformed, SeqOf(f), None, ""));
    AnswerFloor(e, s, c, Err(Malformed, None, None, ""));
    if WellFormed(f) && f.Hello? {
      HelloFloor(e, s, c, f.name, f.kind, f.caps);
    } else if WellFormed(f) && c in s.names && s.Live(s.names[c]) {
      var n := s.names[c];
      LifeSignSound(e, s, n);
      LifeSignFloor(s, n);
      DispatchFloor(e, LifeSign(s, n), c, n, f);
    }
  }

  lemma LifeSignFloor(s: State, n: Name)
    requires n in s.regs && Floor(s)
    ensures Floor(LifeSign(s, n)) && n in LifeSign(s, n).regs && LifeSign(s, n).order == s.order
  {
    hide Floor, Calm;
    PutCalm(s, n, s.regs[n].(lastRx := s.clock.mono, awaitingPong := false));
    CalmFloor(s, LifeSign(s, n));
  }

  lemma DispatchFloor(e: Env, s: State, c: ConnId, n: Name, f: Request)
    requires e.cfg.Valid() && n in s.regs && n in s.order && Sound(e, s) && Floor(s) && WellFormed(f)
    ensures Floor(Dispatch(e, s, c, n, f))
  {
    hide Floor, MailOk, Seated, HandleSay, HandleState, HandleCmd, Disconnect, Answer;
    match f
    case Say(say) => SayFloor(e, s, n, say);
    case StateReport(st, detail) => StateFloor(e, s, n, st, detail);
    case Cmd(cmd, q) => CmdFloor(e, s, n, cmd, q);
    case RosterQuery => AnswerFloor(e, s, s.regs[n].client, RosterReply);
    case Bye => DisconnectFloor(e, s, c);
    case _ =>
  }

  /** Every step of the hub keeps the floor. */
  lemma StepFloor(e: Env, s: State, clock: Clock, i: Input)
    requires e.cfg.Valid() && Sound(e, s) && Floor(s)
    ensures Floor(Step(e, s, clock, i))
  {
    hide Floor, Sound, Handle, Disconnect, WatchdogTick;
    var t := s.(clock := clock);
    ClockSound(e, s, clock);
    SoundParts(e, t);
    ClockFloor(s, clock);
    match i
    case Inbound(c, f) => HandleFloor(e, t, c, f);
    case Closed(c) => DisconnectFloor(e, t, c);
    case Lost(c) => GoneFloor(t, t.gone + {c});
    case Tick => TickFloor(e, t);
  }

  lemma ClockFloor(s: State, clock: Clock)
    ensures Floor(s.(clock := clock)) == Floor(s)
  {
  }
}
