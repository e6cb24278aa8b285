/** The freeze is a backstop: once the floor is frozen and no observer speaks, thaws or
    mutes, the hub can hand agents no more frames than there were wakes waiting. */
module LawFreeze {
  import opened Types
  import opened Mailbox
  import opened Slicing
  import opened HubState
  import opened HubSpec
  import opened HubFrames
  import opened LawMailSteps

  // ------------------------------------------------------------------ the measure

  ghost function Sum(m: map<Name, nat>): nat
    decreases |m|
  {
    if m == map[] then 0
    else
      var k :| k in m;
      m[k] + Sum(m - {k})
  }

  lemma {:induction false} SumRemove(m: map<Name, nat>, n: Name)
    requires n in m
    ensures Sum(m) == m[n] + Sum(m - {n})
    decreases |m|
  {
    var k :| k in m && Sum(m) == m[k] + Sum(m - {k});
    if k != n {
      SumRemove(m - {k}, n);
      SumRemove(m - {n}, k);
      assert m - {k} - {n} == m - {n} - {k};
    }
  }

  lemma SumPut(m: map<Name, nat>, n: Name, w: nat)
    ensures Sum(m[n := w]) + (if n in m then m[n] else 0) == Sum(m) + w
  {
    SumRemove(m[n := w], n);
    if n in m {
      SumRemove(m, n);
      assert m[n := w] - {n} == m - {n};
    } else {
      assert m[n := w] - {n} == m;
    }
  }

  lemma {:induction false} SumSub(m: map<Name, nat>, keep: set<Name>)
    ensures Sum(map n | n in m && n in keep :: m[n]) <= Sum(m)
    decreases |m|
  {
    var sub := map n | n in m && n in keep :: m[n];
    if m != map[] {
      var k :| k in m;
      SumRemove(m, k);
      SumSub(m - {k}, keep);
      var rest := map n | n in m - {k} && n in keep :: (m - {k})[n];
      if k in keep {
        SumRemove(sub, k);
        assert sub - {k} == rest;
      } else {
        assert sub == rest;
      }
    }
  }

  function Weights(regs: map<Name, Part>): map<Name, nat> {
    map n | n in regs :: Waiting(regs[n].box)
  }

  /** The wakes waiting in all mailboxes, live and dead. */
  ghost function Load(regs: map<Name, Part>): nat {
    Sum(Weights(regs))
  }

  /** The frames handed to agents so far. */
  function AgentFrames(log: seq<Note>): nat {
    if log == [] then 0
    else
      var x := log[|log| - 1];
      AgentFrames(log[..|log| - 1]) + (if x.Delivered? && x.toAgent then 1 else 0)
  }

  lemma FramesGrow(log: seq<Note>, x: Note)
    ensures AgentFrames(log + [x]) == AgentFrames(log) + (if x.Delivered? && x.toAgent then 1 else 0)
  {
    assert (log + [x])[..|log|] == log;
  }

  /** A frozen floor stays frozen, and every frame to an agent is paid for by a waiting wake. */
  ghost predicate Spends(s: State, t: State) {
    && (s.frozen ==> t.frozen)
    && AgentFrames(t.log) + Load(t.regs) <= AgentFrames(s.log) + Load(s.regs)
  }

  // ------------------------------------------------------------------ transitions

  lemma LoadPut(regs: map<Name, Part>, n: Name, p: Part)
    ensures Load(regs[n := p]) + (if n in regs then Waiting(regs[n].box) else 0) == Load(regs) + Waiting(p.box)
  {
    assert Weights(regs[n := p]) == Weights(regs)[n := Waiting(p.box)];
    SumPut(Weights(regs), n, Waiting(p.box));
  }

  lemma LoadSame(r: map<Name, Part>, r': map<Name, Part>)
    requires r.Keys == r'.Keys && forall n :: n in r ==> Waiting(r'[n].box) == Waiting(r[n].box)
    ensures Load(r') == Load(r)
  {
    assert Weights(r') == Weights(r);
  }

  lemma PutSpends(s: State, n: Name, p: Part)
    requires n in s.regs && p.box == s.regs[n].box
    ensures Spends(s, s.Put(n, p))
  {
    hide Load, AgentFrames;
    LoadPut(s.regs, n, p);
  }

  lemma EmitSpends(e: Env, s: State, ev: Event, skip: Option<Name>)
    ensures Spends(s, Emit(e, s, ev, skip))
  {
    hide Emit, Load, AgentFrames;
    EmitFrame(e, s, ev, skip);
    FramesGrow(s.log, Happened(ev));
  }

  lemma AnswerSpends(e: Env, s: State, c: ConnId, r: Reply)
    ensures Spends(s, Answer(e, s, c, r))
  {
    hide Load, AgentFrames;
    FramesGrow(s.log, Replied(c, r));
  }

  lemma ChecksSpend(e: Env, s: State)
    ensures Spends(s, CheckRoundLimit(e, s)) && Spends(s, CheckSessionDone(e, s))
  {
    hide CheckRoundLimit, CheckSessionDone, Load, AgentFrames;
    RoundLimitFrame(e, s);
    SessionDoneFrame(e, s);
    FramesGrow(s.log, Happened(SessionDone(s.round)));
    FramesGrow(s.log, Happened(RoundLimit(s.round)));
    FramesGrow(s.log + [Happened(RoundLimit(s.round))], Happened(FreezeWithoutObserver));
    assert s.log + [Happened(RoundLimit(s.round))] + [Happened(FreezeWithoutObserver)]
        == s.log + [Happened(RoundLimit(s.round)), Happened(FreezeWithoutObserver)];
    LoadSame(s.regs, ClearFinished(s).regs);
  }

  /** One frame, one note. */
  lemma DeliverPays(e: Env, s: State, n: Name, batch: seq<Msg>, drawn: bool, cause: Cause)
    requires n in s.regs
    ensures var t := Deliver(e, s, n, batch, drawn, cause);
            && t.frozen == s.frozen && Load(t.regs) == Load(s.regs)
            && AgentFrames(t.log) == AgentFrames(s.log) + (if s.regs[n].IsObserver() then 0 else 1)
  {
    hide Deliver, Load, AgentFrames, SortById;
    DeliverFrame(e, s, n, batch, drawn, cause);
    var t := Deliver(e, s, n, batch, drawn, cause);
    LoadPut(s.regs, n, t.regs[n]);
    FramesGrow(s.log, Delivered(n, !s.regs[n].IsObserver(), cause, s.round, SortById(batch)));
  }

  lemma SpendsTrans(s: State, t: State, u: State)
    requires Spends(s, t) && Spends(t, u)
    ensures Spends(s, u)
  {
    hide Load, AgentFrames;
  }

  lemma SelfSpends(s: State)
    ensures Spends(s, s) && Spends(s, s.Touch())
  {
    hide Load, AgentFrames;
  }

  lemma SliceWeight(cfg: Config, n: Name, b: Box)
    requires cfg.Valid() && b.queue != []
    ensures Waiting(AfterSlice(cfg, n, b)) < Waiting(b)
  {
  }

  /** A flush pays for its frame with at least one waiting wake. */
  lemma FlushSpends(e: Env, s: State, n: Name)
    requires e.cfg.Valid() && n in s.regs
    ensures Spends(s, FlushQueue(e, s, n))
  {
    hide Spends, Deliver, CheckRoundLimit, CheckSessionDone, SliceBatch, WakeSlice, AfterSlice, Counts;
    SelfSpends(s);
    var p := s.regs[n];
    if p.box.queue != [] && s.Connected(n) {
      var batch := SliceBatch(e.cfg, n, p.box);
      var t := s.Put(n, p.(box := AfterSlice(e.cfg, n, p.box)));
      SliceDeliverSpends(e, s, n, s.round, batch);
      SliceDeliverSpends(e, s, n, s.round + 1, batch);
      var u := Deliver(e, t.(round := t.round + 1), n, batch, true, ByFlush);
      var v := Deliver(e, t, n, batch, true, ByFlush);
      ChecksSpend(e, u);
      ChecksSpend(e, CheckRoundLimit(e, u));
      ChecksSpend(e, v);
      SpendsTrans(s, u, CheckRoundLimit(e, u));
      SpendsTrans(s, CheckRoundLimit(e, u), CheckSessionDone(e, CheckRoundLimit(e, u)));
      SpendsTrans(s, v, CheckSessionDone(e, v));
    }
  }

  lemma SliceDeliverSpends(e: Env, s: State, n: Name, round: nat, batch: seq<Msg>)
    requires e.cfg.Valid() && n in s.regs && s.regs[n].box.queue != []
    ensures var t := s.Put(n, s.regs[n].(box := AfterSlice(e.cfg, n, s.regs[n].box)));
            Spends(s, Deliver(e, t.(round := round), n, batch, true, ByFlush))
  {
    hide Deliver, AfterSlice, Load, AgentFrames;
    var q := s.regs[n].(box := AfterSlice(e.cfg, n, s.regs[n].box));
    SliceWeight(e.cfg, n, s.regs[n].box);
    LoadPut(s.regs, n, q);
    DeliverPays(e, s.Put(n, q).(round := round), n, batch, true, ByFlush);
  }

  lemma FlushAfter(e: Env, s: State, n: Name, p: Part)
    requires e.cfg.Valid() && n in s.regs && p.box == s.regs[n].box
    ensures Spends(s, FlushQueue(e, s.Put(n, p), n))
  {
    hide Spends, FlushQueue;
    PutSpends(s, n, p);
    FlushSpends(e, s.Put(n, p), n);
    SpendsTrans(s, s.Put(n, p), FlushQueue(e, s.Put(n, p), n));
  }

  /** Leaves the mailboxes and the log alone. */
  lemma QuietSpends(s: State, t: State)
    requires t.regs == s.regs && t.log == s.log && (s.frozen ==> t.frozen)
    ensures Spends(s, t)
  {
  }

  // ------------------------------------------------------------------ frames of a frozen floor

  lemma InferSpends(e: Env, s: State, n: Name)
    requires e.cfg.Valid() && n in s.regs
    ensures Spends(s, InferIdle(e, s, n))
  {
    hide Spends, FlushQueue;
    SelfSpends(s);
    FlushAfter(e, s, n, SetIdle(s.regs[n]));
  }

  /** While the floor is frozen an agent's say is refused; at most its own queue flushes. */
  lemma FrozenSaySpends(e: Env, s: State, n: Name, f: SayFrame)
    requires e.cfg.Valid() && n in s.regs && s.frozen && !s.regs[n].IsObserver()
    ensures Spends(s, HandleSay(e, s, n, f))
  {
    hide Spends, InferIdle, Emit, Answer, CheckSessionDone;
    var t := Answer(e, s, s.regs[n].client, Err(Frozen, Some(f.seqNo), None, ""));
    var u := Emit(e, t, Rejected(n, Frozen), None);
    AnswerSpends(e, s, s.regs[n].client, Err(Frozen, Some(f.seqNo), None, ""));
    AnswerSteady(e, s, s.regs[n].client, Err(Frozen, Some(f.seqNo), None, ""));
    EmitSpends(e, t, Rejected(n, Frozen), None);
    SpendsTrans(s, t, u);
    RouteFrozen(e, s, n, f);
    if n in u.regs {
      InferSpends(e, u, n);
      SpendsTrans(s, u, InferIdle(e, u, n));
    }
  }

  lemma RouteFrozen(e: Env, s: State, n: Name, f: SayFrame)
    requires e.cfg.ratePerSecond > 0.0 && n in s.regs && s.frozen && !s.regs[n].IsObserver()
    ensures RouteSay(e, s, n, f) ==
            (Emit(e, Answer(e, s, s.regs[n].client, Err(Frozen, Some(f.seqNo), None, "")), Rejected(n, Frozen),
              None), false)
  {
    hide Emit, Accept, Spent, Checked, Kept, MaySpend, Repeats;
    assert Answer(e, s, s.regs[n].client, Err(Frozen, Some(f.seqNo), None, "")).regs == s.regs;
  }

  lemma StateSpends(e: Env, s: State, n: Name, st: Activity, detail: Option<string>)
    requires e.cfg.Valid() && n in s.regs
    ensures Spends(s, HandleState(e, s, n, st, detail))
  {
    hide Spends, FlushQueue, Reporting, FreshlyBlocked;
    var p := s.regs[n];
    ReportingBox(s.clock.mono, p, st, detail);
    var notified := if FreshlyBlocked(p, st, detail) then s.blockedNotified - {n} else s.blockedNotified;
    var u := s.(blockedNotified := notified);
    QuietSpends(s, u);
    FlushAfter(e, u, n, Reporting(s.clock.mono, p, st, detail));
    PutSpends(u, n, Reporting(s.clock.mono, p, st, detail));
    SpendsTrans(s, u, HandleState(e, s, n, st, detail));
  }

  /** Commands an observer may give without lifting the backstop. */
  predicate KeepsFreeze(cmd: Command) {
    cmd.Freeze? || cmd.SetGoal?
  }

  lemma GoalSpends(e: Env, s: State, text: string)
    ensures Spends(s, BufferGoal(e, s, text))
  {
    hide Load, AgentFrames, Buffered;
    forall n | n in s.regs
      ensures Waiting(Buffered(e, s.regs[n], GoalMsg(s, text)).box) == Waiting(s.regs[n].box)
    {
      BufferedWeight(e, s.regs[n], GoalMsg(s, text));
    }
    LoadSame(s.regs, BufferGoal(e, s, text).regs);
  }

  lemma BufferedWeight(e: Env, p: Part, m: Msg)
    ensures Waiting(Buffered(e, p, m).box) == Waiting(p.box)
  {
  }

  lemma CmdSpends(e: Env, s: State, n: Name, cmd: Command, seqNo: Option<int>)
    requires n in s.regs && (!s.regs[n].IsObserver() || KeepsFreeze(cmd))
    ensures Spends(s, HandleCmd(e, s, n, cmd, seqNo))
  {
    hide Spends, Emit, Answer, BufferGoal;
    var c := s.regs[n].client;
    AnswerSpends(e, s, c, Err(Forbidden, seqNo, None, ""));
    if s.regs[n].IsObserver() {
      var s1 := if cmd.Freeze? then s.(frozen := true) else s.(goal := cmd.text);
      QuietSpends(s, s1);
      var ev := if cmd.Freeze? then FrozenBy(s.round) else GoalSet(cmd.text);
      EmitSpends(e, s1, ev, None);
      var s2 := Emit(e, s1, ev, None);
      SpendsTrans(s, s1, s2);
      var s3 := if cmd.Freeze? then s2 else BufferGoal(e, s2, cmd.text);
      if cmd.SetGoal? {
        GoalSpends(e, s2, cmd.text);
        SpendsTrans(s, s2, s3);
      }
      SelfSpends(s3);
      SpendsTrans(s, s3, s3.Touch());
      AnswerSpends(e, s3.Touch(), c, Ok(None, 0, seqNo));
      SpendsTrans(s, s3.Touch(), Answer(e, s3.Touch(), c, Ok(None, 0, seqNo)));
    }
  }

  lemma DisconnectSpends(e: Env, s: State, c: ConnId)
    ensures Spends(s, Disconnect(e, s, c))
  {
    hide Spends, Emit, CheckSessionDone, Without;
    if Holds(s, c) {
      var n := s.names[c];
      var left := s.(order := Without(s.order, n), blockedNotified := s.blockedNotified - {n}).Touch();
      QuietSpends(s, left);
      EmitSpends(e, left, PeerLeft(n), None);
      var u := Emit(e, left, PeerLeft(n), None);
      SpendsTrans(s, left, u);
      ChecksSpend(e, u);
      var t := CheckSessionDone(e, u);
      SpendsTrans(s, u, t);
      QuietSpends(t, t.(gone := t.gone + {c}));
      SpendsTrans(s, t, t.(gone := t.gone + {c}));
    } else {
      QuietSpends(s, s.(gone := s.gone + {c}));
    }
  }

  lemma EnteringSpends(e: Env, s: State, c: ConnId, n: Name, kind: string, caps: set<string>)
    ensures Spends(s, Entering(e, s, c, n, kind, caps))
  {
    hide Load, AgentFrames;
    var t := Entering(e, s, c, n, kind, caps);
    LoadPut(s.regs, n, t.regs[n]);
  }

  lemma OverhearAllWeight(cfg: Config, b: Box, msgs: seq<Msg>)
    ensures Waiting(OverhearAll(cfg, b, msgs)) == Waiting(b)
    decreases msgs
  {
    hide Append, Excess;
    if msgs != [] {
      OverhearAllWeight(cfg, Overhear(cfg, b, msgs[0].Tag(Overheard)), msgs[1..]);
    }
  }

  lemma BacklogSpends(e: Env, s: State, n: Name)
    requires n in s.regs
    ensures Spends(s, GiveBacklog(e, s, n))
  {
    hide Load, AgentFrames, Deliver, Backlog, Tagged, OverhearAll;
    var p := s.regs[n];
    var backlog := Backlog(e.cfg, s.recent, n, p.IsObserver());
    if p.IsObserver() {
      DeliverPays(e, s, n, Tagged(backlog, n), false, ByBacklog);
    } else {
      OverhearAllWeight(e.cfg, p.box, backlog);
      LoadPut(s.regs, n, p.(box := OverhearAll(e.cfg, p.box, backlog)));
    }
  }

  lemma AdmitSpends(e: Env, s: State, c: ConnId, n: Name, kind: string, caps: set<string>)
    requires e.cfg.Valid()
    ensures Spends(s, Admit(e, s, c, n, kind, caps))
  {
    hide Spends, Entering, Answer, GiveBacklog, Emit, FlushQueue;
    var s0 := Entering(e, s, c, n, kind, caps);
    EnteringSpends(e, s, c, n, kind, caps);
    EnteringHas(e, s, c, n, kind, caps);
    var s1 := Answer(e, s0, c, Welcome);
    AnswerSpends(e, s0, c, Welcome);
    AnswerSteady(e, s0, c, Welcome);
    SpendsTrans(s, s0, s1);
    var s2 := if n !in s.regs || s1.regs[n].IsObserver() then GiveBacklog(e, s1, n) else s1;
    BacklogSpends(e, s1, n);
    SelfSpends(s1);
    SpendsTrans(s, s1, s2);
    SelfSpends(s2);
    SpendsTrans(s, s2, s2.Touch());
    var s3 := Emit(e, s2.Touch(), PeerJoined(n, kind), Some(n));
    EmitSpends(e, s2.Touch(), PeerJoined(n, kind), Some(n));
    SpendsTrans(s, s2.Touch(), s3);
    if n in s3.regs {
      FlushSpends(e, s3, n);
      SpendsTrans(s, s3, FlushQueue(e, s3, n));
    }
  }

  lemma HelloSpends(e: Env, s: State, c: ConnId, n: Name, kind: string, caps: set<string>)
    requires e.cfg.Valid()
    ensures Spends(s, HandleHello(e, s, c, n, kind, caps))
  {
    hide Spends, Disconnect, Admit, Answer;
    AnswerSpends(e, s, c, Err(Malformed, None, None, ""));
    var t := if s.Live(n) && !s.Connected(n) then Disconnect(e, s, s.regs[n].client) else s;
    SelfSpends(s);
    if s.Live(n) && !s.Connected(n) {
      DisconnectSpends(e, s, s.regs[n].client);
    }
    var r := Err(NameTaken, None, None, Suggestion(n, t.regs.Keys));
    var u := Answer(e, t, c, r);
    AnswerSpends(e, t, c, r);
    SpendsTrans(s, t, u);
    QuietSpends(u, u.(gone := u.gone + {c}));
    SpendsTrans(s, u, u.(gone := u.gone + {c}));
    AdmitSpends(e, t, c, n, kind, caps);
    SpendsTrans(s, t, Admit(e, t, c, n, kind, caps));
  }

  // ------------------------------------------------------------------ watchdog

  lemma ExpireSpends(e: Env, s: State)
    ensures Spends(s, ExpireDead(e, s))
  {
    hide AgentFrames, Sum;
    var t := ExpireDead(e, s);
    SumSub(Weights(s.regs), t.regs.Keys);
    assert Weights(t.regs) == map n | n in Weights(s.regs) && n in t.regs.Keys :: Weights(s.regs)[n];
  }

  lemma WatchOneSpends(e: Env, s: State, n: Name)
    requires e.cfg.Valid() && n in s.regs
    ensures Spends(s, WatchOne(e, s, n))
  {
    hide Spends, Disconnect, PingIfSilent, AssumeIdle, NotifyBlocked;
    DisconnectSpends(e, s, s.regs[n].client);
    PingSpends(e, s, n);
    var t := PingIfSilent(e, s, n);
    if n in t.regs {
      AssumeSpends(e, t, n);
      var u := AssumeIdle(e, t, n);
      SpendsTrans(s, t, u);
      if n in u.regs {
        BlockedSpends(e, u, n);
        SpendsTrans(s, u, NotifyBlocked(e, u, n));
      }
    }
  }

  lemma PingSpends(e: Env, s: State, n: Name)
    requires n in s.regs
    ensures Spends(s, PingIfSilent(e, s, n))
  {
    hide Spends, Answer;
    SelfSpends(s);
    var p := s.regs[n].(awaitingPong := true, pongDeadline := s.clock.mono + e.cfg.pongTimeout);
    PutSpends(s, n, p);
    AnswerSpends(e, s.Put(n, p), s.regs[n].client, Ping);
    SpendsTrans(s, s.Put(n, p), Answer(e, s.Put(n, p), s.regs[n].client, Ping));
  }

  lemma AssumeSpends(e: Env, s: State, n: Name)
    requires e.cfg.Valid() && n in s.regs
    ensures Spends(s, AssumeIdle(e, s, n))
  {
    hide Spends, Emit, FlushQueue;
    SelfSpends(s);
    var t := s.Put(n, SetIdle(s.regs[n]));
    PutSpends(s, n, SetIdle(s.regs[n]));
    var u := Emit(e, t, Stalled(Some(n)), None);
    EmitSpends(e, t, Stalled(Some(n)), None);
    SpendsTrans(s, t, u);
    if n in u.regs {
      FlushSpends(e, u, n);
      SpendsTrans(s, u, FlushQueue(e, u, n));
    }
  }

  lemma BlockedSpends(e: Env, s: State, n: Name)
    requires n in s.regs
    ensures Spends(s, NotifyBlocked(e, s, n))
  {
    hide Spends, Emit;
    SelfSpends(s);
    var t := s.(blockedNotified := s.blockedNotified + {n});
    QuietSpends(s, t);
    EmitSpends(e, t, BlockedFor(n), None);
    SpendsTrans(s, t, Emit(e, t, BlockedFor(n), None));
  }

  lemma {:induction false} WatchAllSpends(e: Env, s: State, names: seq<Name>)
    requires e.cfg.Valid()
    ensures Spends(s, WatchAll(e, s, names))
    decreases names
  {
    hide Spends, WatchOne;
    SelfSpends(s);
    if names != [] {
      var t := if names[0] in s.regs then WatchOne(e, s, names[0]) else s;
      if names[0] in s.regs {
        WatchOneSpends(e, s, names[0]);
      }
      WatchAllSpends(e, t, names[1..]);
      SpendsTrans(s, t, WatchAll(e, t, names[1..]));
    }
  }

  lemma AlarmSpends(e: Env, s: State, quorum: bool, stall: bool, ev: Event)
    ensures Spends(s, Emit(e, s.(quorumLatched := quorum, stallLatched := stall), ev, None))
  {
    hide Spends, Emit;
    var t := s.(quorumLatched := quorum, stallLatched := stall);
    QuietSpends(s, t);
    EmitSpends(e, t, ev, None);
    SpendsTrans(s, t, Emit(e, t, ev, None));
  }

  lemma TickSpends(e: Env, s: State)
    requires e.cfg.Valid()
    ensures Spends(s, WatchdogTick(e, s))
  {
    hide Spends, WatchAll, ExpireDead, Emit, QuorumDue, AllQuiet, Expected;
    ExpireSpends(e, s);
    var t := ExpireDead(e, s);
    WatchAllSpends(e, t, t.order);
    var u := WatchAll(e, t, t.order);
    SpendsTrans(s, t, u);
    SelfSpends(u);
    AlarmSpends(e, u, true, u.stallLatched, QuorumReached(Expected(u)));
    var v := CheckQuorum(e, u);
    SpendsTrans(s, u, v);
    SelfSpends(v);
    AlarmSpends(e, v, v.quorumLatched, true, Stalled(None));
    SpendsTrans(s, v, CheckStall(e, v));
  }

  // ------------------------------------------------------------------ the theorem

  /** No observer says anything or sends resume, reset, mute or unmute. */
  predicate HandsOff(s: State, i: Input) {
    i.Inbound? && i.conn in s.names && s.Live(s.names[i.conn]) && s.regs[s.names[i.conn]].IsObserver() ==>
      && !i.request.Say?
      && (i.request.Cmd? ==> KeepsFreeze(i.request.cmd))
  }

  lemma HandleSpends(e: Env, s: State, c: ConnId, f: Request)
    requires e.cfg.Valid() && s.frozen && HandsOff(s, Inbound(c, f))
    ensures Spends(s, Handle(e, s, c, f))
  {
    hide Spends, HandleHello, HandleSay, HandleState, HandleCmd, Disconnect, Answer;
    AnswerSpends(e, s, c, Err(Malformed, SeqOf(f), None, ""));
    AnswerSpends(e, s, c, Err(Malformed, None, None, ""));
    if WellFormed(f) && f.Hello? {
      HelloSpends(e, s, c, f.name, f.kind, f.caps);
    } else if WellFormed(f) && c in s.names && s.Live(s.names[c]) {
      var n := s.names[c];
      var p := s.regs[n].(lastRx := s.clock.mono, awaitingPong := false);
      PutSpends(s, n, p);
      var t := s.Put(n, p);
      assert t == LifeSign(s, n) && t.regs[n].kind == s.regs[n].kind && t.frozen;
      match f
      case Say(say) =>
        FrozenSaySpends(e, t, n, say);
        SpendsTrans(s, t, HandleSay(e, t, n, say));
      case StateReport(st, detail) =>
        StateSpends(e, t, n, st, detail);
        SpendsTrans(s, t, HandleState(e, t, n, st, detail));
      case Cmd(cmd, q) =>
        CmdSpends(e, t, n, cmd, q);
        SpendsTrans(s, t, HandleCmd(e, t, n, cmd, q));
      case RosterQuery =>
        AnswerSpends(e, t, t.regs[n].client, RosterReply);
        SpendsTrans(s, t, Answer(e, t, t.regs[n].client, RosterReply));
      case Bye =>
        DisconnectSpends(e, t, c);
        SpendsTrans(s, t, Disconnect(e, t, c));
      case _ =>
    }
  }

  lemma StepSpends(e: Env, s: State, clock: Clock, i: Input)
    requires e.cfg.Valid() && s.frozen && HandsOff(s, i)
    ensures Spends(s, Step(e, s, clock, i))
  {
    hide Spends, Handle, Disconnect, WatchdogTick;
    var t := s.(clock := clock);
    QuietSpends(s, t);
    match i
    case Inbound(c, f) =>
      HandleSpends(e, t, c, f);
      SpendsTrans(s, t, Handle(e, t, c, f));
    case Closed(c) =>
      DisconnectSpends(e, t, c);
      SpendsTrans(s, t, Disconnect(e, t, c));
    case Lost(c) =>
      QuietSpends(s, t.(gone := t.gone + {c}));
    case Tick =>
      TickSpends(e, t);
      SpendsTrans(s, t, WatchdogTick(e, t));
  }

  ghost predicate HandsOffRun(e: Env, s: State, run: seq<(Clock, Input)>)
    requires e.cfg.Valid()
    decreases run
  {
    run == [] || (HandsOff(s, run[0].1) && HandsOffRun(e, Step(e, s, run[0].0, run[0].1), run[1..]))
  }

  /** The freeze backstop: over any such run, whatever agents, reclaims and the watchdog do,
      agents are sent at most as many frames as there were wakes waiting at the freeze; and
      whatever they are sent is taken off that number for good. */
  lemma {:induction false} FreezeBackstop(e: Env, s: State, run: seq<(Clock, Input)>)
    requires e.cfg.Valid() && s.frozen && HandsOffRun(e, s, run)
    ensures var t := Run(e, s, run);
            && t.frozen
            && AgentFrames(t.log) - AgentFrames(s.log) <= Load(s.regs) - Load(t.regs)
    decreases run
  {
    hide Step, Load, AgentFrames;
    if run != [] {
      StepSpends(e, s, run[0].0, run[0].1);
      FreezeBackstop(e, Step(e, s, run[0].0, run[0].1), run[1..]);
    }
  }
}
