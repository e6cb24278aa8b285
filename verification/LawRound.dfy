/** The round after a session end: zero, unless the hello that ended the session went on to
    wake somebody. */
module LawRound {
  import opened Types
  import opened Mailbox
  import opened HubState
  import opened HubSpec
  import opened HubFrames
  import opened LawRoute
  import opened LawSession
  import LawMailSteps

  /** What ends a session leaves round zero and empty queues; and that is left alone. */
  ghost predicate Calm(s: State, t: State) {
    (Ends(t) != Ends(s) ==> Cleared(t)) && (Cleared(s) ==> Cleared(t))
  }

  lemma CalmTrans(s: State, t: State, u: State)
    requires Calm(s, t) && Calm(t, u)
    ensures Calm(s, u)
  {
    hide Chron, Sessions, Cleared;
  }

  /** Nobody's queue changes, nor the round. */
  ghost predicate SameQueues(s: State, t: State) {
    && t.round == s.round
    && forall m :: t.IsAgent(m) ==> s.IsAgent(m) && t.regs[m].box.queue == s.regs[m].box.queue
  }

  lemma SameCalm(s: State, t: State)
    requires SameQueues(s, t) && Ends(t) == Ends(s)
    ensures Calm(s, t)
  {
    hide Chron, Sessions;
  }

  lemma PlainCalm(s: State, t: State)
    requires Plain(s, t) && SameQueues(s, t)
    ensures Calm(s, t)
  {
    hide Calm, SameQueues, Roll, Graves, Chron, Sessions;
    SameCalm(s, t);
  }

  lemma CheckCalm(e: Env, s: State)
    ensures Calm(s, CheckSessionDone(e, s))
  {
    hide CheckSessionDone, Chron, Sessions, Cleared;
    CheckCleared(e, s);
    CheckFlow(e, s);
    SessionDoneFrame(e, s);
  }

  lemma EmitCalm(e: Env, s: State, t: State, ev: Event)
    requires t.order == s.order && t.regs == s.regs && t.log == s.log && t.round == s.round && Unlisted(ev)
    ensures Calm(s, Emit(e, t, ev, None))
  {
    hide Emit, Plain, Calm;
    TwoPlain(e, s, t, ev);
    EmitFrame(e, t, ev, None);
    PlainCalm(s, Emit(e, t, ev, None));
  }

  lemma LeaveCalm(e: Env, s: State, left: State, n: Name)
    requires left.regs == s.regs && left.log == s.log && left.order == Without(s.order, n) && left.round == s.round
    ensures Calm(s, Emit(e, left, PeerLeft(n), None))
  {
    hide Emit, Chron, Without, Sessions, Calm;
    var t, x := Emit(e, left, PeerLeft(n), None), Happened(PeerLeft(n));
    EmitFrame(e, left, PeerLeft(n), None);
    WithoutFacts(s.order, n);
    ChronGrows(s.log, x);
    ListGrows(Chron(s.log), x);
    SameCalm(s, t);
  }

  lemma DisconnectCalm(e: Env, s: State, c: ConnId)
    ensures Calm(s, Disconnect(e, s, c))
  {
    hide Without, Emit, CheckSessionDone, Calm;
    if Holds(s, c) {
      var n := s.names[c];
      var left := s.(order := Without(s.order, n), blockedNotified := s.blockedNotified - {n}).Touch();
      LeaveCalm(e, s, left, n);
      var t := Emit(e, left, PeerLeft(n), None);
      var u := CheckSessionDone(e, t);
      CheckCalm(e, t);
      CalmTrans(s, t, u);
      GoneCalm(u, u.gone + {c});
      CalmTrans(s, u, u.(gone := u.gone + {c}));
    } else {
      GoneCalm(s, s.gone + {c});
    }
  }

  lemma GoneCalm(s: State, gone: set<ConnId>)
    ensures Calm(s, s.(gone := gone))
  {
    hide Calm, Chron, Sessions;
    SameCalm(s, s.(gone := gone));
  }

  lemma PingCalm(e: Env, s: State, n: Name)
    requires n in s.order && n in s.regs
    ensures Calm(s, PingIfSilent(e, s, n))
  {
    hide Answer, Plain, Calm;
    PingPlain(e, s, n);
    var p := s.regs[n].(awaitingPong := true, pongDeadline := s.clock.mono + e.cfg.pongTimeout);
    AnswerRegs(e, s.Put(n, p), s.regs[n].client, Ping);
    assert Answer(e, s.Put(n, p), s.regs[n].client, Ping).round == s.round by {
      AnswerRound(e, s.Put(n, p), s.regs[n].client, Ping);
    }
    PlainCalm(s, PingIfSilent(e, s, n));
  }

  lemma AnswerRound(e: Env, s: State, c: ConnId, r: Reply)
    ensures Answer(e, s, c, r).round == s.round && Answer(e, s, c, r).order == s.order
  {
  }

  lemma FlushCalm(e: Env, s: State, n: Name)
    requires s.IsAgent(n)
    ensures Calm(s, FlushQueue(e, s, n))
  {
    hide Chron, Sessions, Deliver, CheckRoundLimit, CheckSessionDone, SliceBatch, AfterSlice, WakeSlice, Counts;
    if Ends(FlushQueue(e, s, n)) != Ends(s) {
      hide FlushQueue;
      FlushCleared(e, s, n);
    }
  }

  lemma AssumeCalm(e: Env, s: State, n: Name)
    requires s.IsAgent(n)
    ensures Calm(s, AssumeIdle(e, s, n))
  {
    hide Emit, FlushQueue, Plain, Calm, Chron, Sessions;
    SelfFlow(s);
    PlainCalm(s, s);
    var t := s.Put(n, SetIdle(s.regs[n]));
    PutPlain(s, n, SetIdle(s.regs[n]));
    PlainCalm(s, t);
    var u := Emit(e, t, Stalled(Some(n)), None);
    EmitCalm(e, t, t, Stalled(Some(n)));
    EmitFrame(e, t, Stalled(Some(n)), None);
    CalmTrans(s, t, u);
    FlushCalm(e, u, n);
    CalmTrans(s, u, FlushQueue(e, u, n));
  }

  lemma BlockedCalm(e: Env, s: State, n: Name)
    requires n in s.regs
    ensures Calm(s, NotifyBlocked(e, s, n))
  {
    hide Emit, Calm, Plain;
    SelfFlow(s);
    PlainCalm(s, s);
    EmitCalm(e, s, s.(blockedNotified := s.blockedNotified + {n}), BlockedFor(n));
  }

  lemma WatchOneCalm(e: Env, s: State, n: Name)
    requires n in s.regs && n in s.order
    ensures Calm(s, WatchOne(e, s, n))
  {
    hide Disconnect, PingIfSilent, AssumeIdle, NotifyBlocked, Calm, Plain, Flow, Roll, Kinds, Graves;
    DisconnectCalm(e, s, s.regs[n].client);
    PingCalm(e, s, n);
    PingPlain(e, s, n);
    var t := PingIfSilent(e, s, n);
    if n in t.regs && !s.regs[n].IsObserver() {
      PlainFlow(s, t);
      SameKind(s, t, n);
      AssumeCalm(e, t, n);
      var u := AssumeIdle(e, t, n);
      CalmTrans(s, t, u);
      if n in u.regs {
        BlockedCalm(e, u, n);
        CalmTrans(s, u, NotifyBlocked(e, u, n));
      }
    }
  }

  lemma SameKind(s: State, t: State, n: Name)
    requires Flow(s, t)
    ensures t.IsAgent(n) <==> s.IsAgent(n)
  {
    hide Chron, Sessions, Strays, Roll, Graves, Kinds, Agrees, Roughly, AllMarked, Unfinished, Ended;
    SameAgents(s, t, n);
    AgentsByRoll(s, n);
    AgentsByRoll(t, n);
  }

  lemma {:induction false} WatchAllCalm(e: Env, s: State, names: seq<Name>)
    requires Seated(s) && Distinct(names) && AllOf(names, s.order)
    ensures Calm(s, WatchAll(e, s, names))
    decreases names
  {
    hide WatchOne, Calm, Seated, Plain;
    SelfFlow(s);
    PlainCalm(s, s);
    if names != [] {
      SeatedHas(s);
      var t := WatchOne(e, s, names[0]);
      WatchOneCalm(e, s, names[0]);
      WatchOneOrder(e, s, names[0]);
      WatchAllCalm(e, t, names[1..]);
      CalmTrans(s, t, WatchAll(e, t, names[1..]));
    }
  }

  lemma AlarmsCalm(e: Env, s: State)
    ensures Calm(s, CheckStall(e, CheckQuorum(e, s)))
  {
    hide Emit, AllQuiet, Expected, QuorumDue, Plain, Calm;
    SelfFlow(s);
    PlainCalm(s, s);
    EmitCalm(e, s, s.(quorumLatched := true), QuorumReached(Expected(s)));
    var t := CheckQuorum(e, s);
    SelfFlow(t);
    PlainCalm(t, t);
    EmitCalm(e, t, t.(stallLatched := true), Stalled(None));
    CalmTrans(s, t, CheckStall(e, t));
  }

  lemma TickCalm(e: Env, s: State)
    requires Seated(s)
    ensures Calm(s, WatchdogTick(e, s))
  {
    hide Calm, Seated, WatchAll, CheckQuorum, CheckStall, Chron, Sessions;
    var t := ExpireDead(e, s);
    SameCalm(s, t);
    LawMailSteps.ExpireSeated(e, s);
    SeatedOrders(t);
    WatchAllCalm(e, t, t.order);
    var u := WatchAll(e, t, t.order);
    CalmTrans(s, t, u);
    AlarmsCalm(e, u);
    CalmTrans(s, u, WatchdogTick(e, s));
  }

  lemma StateRound(e: Env, s: State, n: Name, st: Activity, detail: Option<string>)
    requires n in s.order && n in s.regs
    ensures var t := HandleState(e, s, n, st, detail);
            Ends(t) != Ends(s) ==> t.round == 0
  {
    hide FlushQueue, FreshlyBlocked, Reporting, Plain, Chron, Sessions;
    var p := s.regs[n];
    var notified := if FreshlyBlocked(p, st, detail) then s.blockedNotified - {n} else s.blockedNotified;
    var t := s.(blockedNotified := notified);
    var u := t.Put(n, Reporting(s.clock.mono, p, st, detail));
    SamePlain(s, t);
    ReportingAttendee(s.clock.mono, p, st, detail);
    PutPlain(t, n, Reporting(s.clock.mono, p, st, detail));
    PlainTrans(s, t, u);
    PlainEnds(s, u);
    if st == Idle && Ends(FlushQueue(e, u, n)) != Ends(u) {
      FlushCleared(e, u, n);
    }
  }

  lemma PlainEnds(s: State, t: State)
    requires Plain(s, t)
    ensures Ends(t) == Ends(s)
  {
  }

  /** Without `n` the session is complete. */
  predicate LeavingEnds(s: State, n: Name) {
    && (exists m :: m in s.order && s.IsAgent(m) && m != n)
    && OthersDone(s, n)
  }

  /** A hello that ends a session by reaping a stale holder, and then hands it, under its new
      connection, a slice with a wake that is not the hub's own. */
  predicate ReapsAndWakes(e: Env, s: State, i: Input) {
    && i.Inbound? && i.request.Hello? && WellFormed(i.request) && i.conn !in s.names
    && var n := i.request.name;
       && s.Live(n) && !s.Connected(n) && LeavingEnds(s, n)
       && s.regs[n].box.queue != [] && Counts(WakeSlice(e.cfg, n, s.regs[n].box))
       && i.conn !in Welcomed(e, Disconnect(e, s, s.regs[n].client), i.conn, n, i.request.kind, i.request.caps).gone
  }

  lemma ReapEnds(e: Env, s: State, n: Name)
    requires Seated(s) && s.Live(n)
    ensures var t := Disconnect(e, s, s.regs[n].client);
            && (Ends(t) != Ends(s) <==> LeavingEnds(s, n))
            && n !in t.order && n in t.regs && t.regs[n].box == s.regs[n].box
  {
    hide Without, Emit, CheckSessionDone, SessionComplete, Chron, Sessions, OthersDone;
    var c := s.regs[n].client;
    assert Holds(s, c) && s.names[c] == n;
    DisconnectFrame(e, s, c);
    var left := s.(order := Without(s.order, n), blockedNotified := s.blockedNotified - {n}).Touch();
    var t, x := Emit(e, left, PeerLeft(n), None), Happened(PeerLeft(n));
    EmitFrame(e, left, PeerLeft(n), None);
    ChronGrows(s.log, x);
    ListGrows(Chron(s.log), x);
    CheckFlow(e, t);
    LeavingCompletes(s, t, n);
  }

  lemma LeavingCompletes(s: State, t: State, n: Name)
    requires t.regs == s.regs && t.order == Without(s.order, n)
    ensures SessionComplete(t) <==> LeavingEnds(s, n)
  {
    WithoutFacts(s.order, n);
    assert forall m :: t.IsAgent(m) <==> s.IsAgent(m) && m != n;
  }

  /** What a registration is, beyond its seat: mailbox, budget, duplicate window, history. */
  predicate SameRegistration(p: Part, q: Part) {
    && q.name == p.name && q.box == p.box && q.bucket == p.bucket && q.dedup == p.dedup && q.says == p.says
    && q.lastSay == p.lastSay && q.joinedAt == p.joinedAt
  }

  lemma ReclaimContinues(e: Env, s: State, c: ConnId, n: Name, kind: string, caps: set<string>)
    requires n in s.regs
    ensures var u := Welcomed(e, s, c, n, kind, caps);
            && n in u.regs && n in u.order && SameRegistration(s.regs[n], u.regs[n]) && u.round == s.round
            && u.regs[n].client == c && u.regs[n].kind == kind && !u.regs[n].finished && u.regs[n].state == Idle
  {
    hide Emit, Backlog, Tagged, Deliver, OverhearAll;
    var s0 := Entering(e, s, c, n, kind, caps);
    var s1 := Answer(e, s0, c, Welcome);
    assert s1.regs == s0.regs && n in s1.regs && n in s0.order;
    if s1.regs[n].IsObserver() {
      var backlog := Tagged(Backlog(e.cfg, s1.recent, n, true), n);
      DeliverFrame(e, s1, n, backlog, false, ByBacklog);
      DeliverJoined(e, s1, n, backlog);
    }
    var s2 := if s1.regs[n].IsObserver() then GiveBacklog(e, s1, n) else s1;
    EmitFrame(e, s2.Touch(), PeerJoined(n, kind), Some(n));
  }

  lemma DeliverJoined(e: Env, s: State, n: Name, batch: seq<Msg>)
    requires n in s.regs
    ensures n in Deliver(e, s, n, batch, false, ByBacklog).regs
    ensures Deliver(e, s, n, batch, false, ByBacklog).regs[n].joinedAt == s.regs[n].joinedAt
  {
    hide SortById;
  }

  /** A flush that ends no session raises the round exactly if its wakes are not all the
      hub's own. */
  lemma FlushRound(e: Env, s: State, n: Name)
    requires n in s.order && n in s.regs && Ends(FlushQueue(e, s, n)) == Ends(s)
    ensures var b := s.regs[n].box;
            FlushQueue(e, s, n).round == s.round
              + (if b.queue != [] && s.Connected(n) && Counts(WakeSlice(e.cfg, n, b)) then 1 else 0)
  {
    hide SliceBatch, AfterSlice, WakeSlice, Deliver, CheckRoundLimit, CheckSessionDone, Counts, Plain, Ends;
    var p := s.regs[n];
    if p.box.queue != [] && s.Connected(n) {
      var batch := SliceBatch(e.cfg, n, p.box);
      var t := s.Put(n, p.(box := AfterSlice(e.cfg, n, p.box)));
      PutPlain(s, n, p.(box := AfterSlice(e.cfg, n, p.box)));
      SamePlain(t, t.(round := t.round + 1));
      PlainTrans(s, t, t.(round := t.round + 1));
      SliceRound(e, s, t, n, batch);
      SliceRound(e, s, t.(round := t.round + 1), n, batch);
    }
  }

  lemma SliceRound(e: Env, s: State, t: State, n: Name, batch: seq<Msg>)
    requires Plain(s, t) && n in t.order && n in t.regs
    ensures var u := Deliver(e, t, n, batch, true, ByFlush);
            var v, w := CheckSessionDone(e, u), CheckSessionDone(e, CheckRoundLimit(e, u));
            && (Ends(v) == Ends(s) ==> v.round == t.round)
            && (Ends(w) == Ends(s) ==> w.round == t.round)
  {
    hide Deliver, CheckRoundLimit, CheckSessionDone, Flow, Plain, Chron, Sessions, SessionComplete, SortById;
    var u := Deliver(e, t, n, batch, true, ByFlush);
    DeliverPlain(e, t, n, batch, true, ByFlush);
    DeliverFrame(e, t, n, batch, true, ByFlush);
    PlainTrans(s, t, u);
    PlainEnds(s, u);
    CheckFlow(e, u);
    SessionDoneFrame(e, u);
    var v := CheckRoundLimit(e, u);
    LimitPlain(e, u);
    RoundLimitFrame(e, u);
    PlainTrans(s, u, v);
    PlainEnds(s, v);
    CheckFlow(e, v);
    SessionDoneFrame(e, v);
  }

  /** The round after a join: the flush on the return decides. */
  lemma AdmitRound(e: Env, s: State, c: ConnId, n: Name, kind: string, caps: set<string>)
    requires n !in s.order
    ensures var t, w := Admit(e, s, c, n, kind, caps), Welcomed(e, s, c, n, kind, caps);
            && (Ends(t) != Ends(s) ==> t.round == 0)
            && (Unfinished(Roll(s)) && n in s.regs ==>
                  t.round == s.round + (if s.regs[n].box.queue != [] && Counts(WakeSlice(e.cfg, n, s.regs[n].box))
                                           && c !in w.gone then 1 else 0))
  {
    hide Welcomed, FlushQueue, Meets, Flow, Counts, WakeSlice, Unfinished, Chron, Sessions, Roll;
    var w := Welcomed(e, s, c, n, kind, caps);
    WelcomedMeets(e, s, c, n, kind, caps);
    WelcomedEnds(e, s, c, n, kind, caps);
    if n in s.regs {
      ReclaimContinues(e, s, c, n, kind, caps);
      FlushFlow(e, w, n);
      UnfinishedGoesOn(s, w, FlushQueue(e, w, n), n);
      if Ends(FlushQueue(e, w, n)) != Ends(w) {
        FlushCleared(e, w, n);
      } else {
        FlushRound(e, w, n);
      }
    }
  }

  lemma UnfinishedGoesOn(s: State, t: State, u: State, n: Name)
    requires Meets(s, t, {n}) && Flow(t, u)
    ensures Unfinished(Roll(s)) ==> Ends(u) == Ends(t)
  {
    hide Chron, Sessions, Strays, Roll, Graves, Kinds, Agrees, Roughly, Ended;
    MarkedOrNot(Roll(t));
  }

  lemma WelcomedEnds(e: Env, s: State, c: ConnId, n: Name, kind: string, caps: set<string>)
    requires n !in s.order
    ensures Ends(Welcomed(e, s, c, n, kind, caps)) == Ends(s)
  {
    hide Entering, Answer, GiveBacklog, Emit, Plain, Chron, Sessions, Roll, Graves;
    var s0 := Entering(e, s, c, n, kind, caps);
    EnteringRoll(e, s, c, n, kind, caps);
    var s1 := Answer(e, s0, c, Welcome);
    AnswerPlain(e, s0, c, Welcome);
    AnswerRegs(e, s0, c, Welcome);
    PlainOrder(s0, s1);
    BacklogPlain(e, s1, n);
    SelfFlow(s1);
    var s2 := if n !in s.regs || s1.regs[n].IsObserver() then GiveBacklog(e, s1, n) else s1;
    PlainTrans(s0, s1, s2);
    SamePlain(s2, s2.Touch());
    PlainTrans(s0, s2, s2.Touch());
    JoinEnds(e, s0, s2.Touch(), n, kind);
  }

  lemma JoinEnds(e: Env, s0: State, s2: State, n: Name, kind: string)
    requires Plain(s0, s2)
    ensures Ends(Emit(e, s2, PeerJoined(n, kind), Some(n))) == Ends(s0)
  {
    hide Emit, Roll, Graves;
    EmitFrame(e, s2, PeerJoined(n, kind), Some(n));
    ChronGrows(s2.log, Happened(PeerJoined(n, kind)));
    ListGrows(Chron(s2.log), Happened(PeerJoined(n, kind)));
  }

  lemma HelloRound(e: Env, s: State, c: ConnId, n: Name, kind: string, caps: set<string>)
    requires Seated(s) && WellFormed(Hello(n, kind, caps))
    ensures var t := HandleHello(e, s, c, n, kind, caps);
            && (Ends(t) != Ends(s) ==>
                  t.round == if ReapsAndWakes(e, s, Inbound(c, Hello(n, kind, caps))) then 1 else 0)
            && (ReapsAndWakes(e, s, Inbound(c, Hello(n, kind, caps))) ==> Ends(t) != Ends(s))
  {
    hide Disconnect, Admit, Answer, Seated, Plain, Chron, Sessions, Roll, Graves, Agrees, Strays, Unfinished;
    hide Welcomed, LeavingEnds, Counts, WakeSlice, WellFormed;
    AnswerPlain(e, s, c, Err(Malformed, None, None, ""));
    PlainEnds(s, Answer(e, s, c, Err(Malformed, None, None, "")));
    SeatedHas(s);
    if c !in s.names {
      if s.Live(n) && !s.Connected(n) {
        var t := Disconnect(e, s, s.regs[n].client);
        ReapEnds(e, s, n);
        DisconnectCalm(e, s, s.regs[n].client);
        DisconnectMeets(e, s, s.regs[n].client);
        AdmitRound(e, t, c, n, kind, caps);
        AdmitMeets(e, t, c, n, kind, caps);
      } else if s.Live(n) {
        var u := Answer(e, s, c, Err(NameTaken, None, None, Suggestion(n, s.regs.Keys)));
        AnswerPlain(e, s, c, Err(NameTaken, None, None, Suggestion(n, s.regs.Keys)));
        PlainEnds(s, u);
      } else {
        AdmitRound(e, s, c, n, kind, caps);
      }
    }
  }

  lemma DispatchRound(e: Env, s: State, c: ConnId, n: Name, f: Request)
    requires e.cfg.Valid() && n in s.regs && n in s.order && !f.Say?
    ensures var t := Dispatch(e, s, c, n, f);
            Ends(t) != Ends(s) ==> t.round == 0
  {
    hide Plain, HandleState, HandleCmd, Disconnect, Answer, Chron, Sessions;
    match f
    case StateReport(st, detail) => StateRound(e, s, n, st, detail);
    case Cmd(cmd, q) =>
      CmdPlain(e, s, n, cmd, q);
      PlainEnds(s, HandleCmd(e, s, n, cmd, q));
    case RosterQuery =>
      AnswerPlain(e, s, s.regs[n].client, RosterReply);
      PlainEnds(s, Answer(e, s, s.regs[n].client, RosterReply));
    case Bye => DisconnectCalm(e, s, c);
    case _ =>
  }

  lemma HandleRound(e: Env, s: State, c: ConnId, f: Request)
    requires e.cfg.Valid() && Seated(s) && !IsSay(s, Inbound(c, f))
    ensures var t := Handle(e, s, c, f);
            && (Ends(t) != Ends(s) ==> t.round == if ReapsAndWakes(e, s, Inbound(c, f)) then 1 else 0)
            && (ReapsAndWakes(e, s, Inbound(c, f)) ==> Ends(t) != Ends(s))
  {
    hide HandleHello, Dispatch, Answer, Seated, LifeSign, Plain, Chron, Sessions, WellFormed;
    AnswerPlain(e, s, c, Err(Malformed, SeqOf(f), None, ""));
    PlainEnds(s, Answer(e, s, c, Err(Malformed, SeqOf(f), None, "")));
    AnswerPlain(e, s, c, Err(Malformed, None, None, ""));
    PlainEnds(s, Answer(e, s, c, Err(Malformed, None, None, "")));
    if WellFormed(f) && f.Hello? {
      HelloRound(e, s, c, f.name, f.kind, f.caps);
    } else if WellFormed(f) && c in s.names && s.Live(s.names[c]) {
      var n := s.names[c];
      LifeSignPlain(s, n);
      PlainEnds(s, LifeSign(s, n));
      DispatchRound(e, LifeSign(s, n), c, n, f);
    }
  }

  /** After a step that ended a session the round is zero, unless the step is a hello that
      ended it by reaping a stale holder and then woke the returned one: then it is one. */
  lemma RoundAfterAnEnd(e: Env, s: State, clock: Clock, i: Input)
    requires e.cfg.Valid() && Seated(s)
    ensures var t := Step(e, s, clock, i);
            && (Ends(t) != Ends(s) && t.round != 0 <==> ReapsAndWakes(e, s.(clock := clock), i))
            && (Ends(t) != Ends(s) ==> t.round == if ReapsAndWakes(e, s.(clock := clock), i) then 1 else 0)
  {
    hide Handle, Disconnect, WatchdogTick, HandleSay, Seated, Plain, Chron, Sessions, Heard, ReapsAndWakes, Graves;
    hide EndsTwice, LeavesMark, Unfinished, Roll;
    var t := s.(clock := clock);
    SamePlain(s, t);
    PlainEnds(s, t);
    SeatedClock(s, clock);
    SayClock(s, clock, i);
    OnlyHellos(e, t, i);
    if IsSay(s, i) {
      hide Step;
      SayStep(e, s, clock, i);
      PlainEnds(s, Heard(s, clock, i.conn));
      SayEnds(e, Heard(s, clock, i.conn), s.names[i.conn], i.request.say);
    } else {
      match i
      case Inbound(c, f) => HandleRound(e, t, c, f);
      case Closed(c) => DisconnectCalm(e, t, c);
      case Lost(c) =>
        SamePlain(t, t.(gone := t.gone + {c}));
        PlainEnds(t, t.(gone := t.gone + {c}));
      case Tick => TickCalm(e, t);
    }
  }

  lemma OnlyHellos(e: Env, s: State, i: Input)
    ensures ReapsAndWakes(e, s, i) ==> i.Inbound? && i.request.Hello? && WellFormed(i.request) && i.conn !in s.names
  {
  }
}
