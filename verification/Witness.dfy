/** A run, from the start of a hub, in which a delivery to an observer counts as a round: an
    agent leaves a queued message behind, and an observer takes over its name. */
module HubWitness {
  import opened Types
  import opened Mailbox
  import opened HubState
  import opened HubSpec
  import opened HubFrames
  import opened LawFloor
  import opened LawRestart
  import opened HubTheorems
  import MailboxLaws
  import LawMailSteps
  import LawIdle
  import LawTold
  import LawSession
  import LawRound
  import LawRecords
  import Bucket
  import Dedup
  import Names

  // ------------------------------------------------------------------ reliable sends

  /** No send meets a failed transport. */
  ghost predicate Reliable(e: Env) {
    forall k: nat :: !e.fails(k)
  }

  lemma {:induction false} EmitToReaches(e: Env, s: State, names: seq<Name>, skip: Option<Name>)
    requires Reliable(e)
    ensures EmitTo(e, s, names, skip).gone == s.gone
    decreases names
  {
    if names != [] {
      var n := names[0];
      var t := if n in s.regs && s.regs[n].IsObserver() && skip != Some(n) && s.Connected(n)
               then Send(e, s, s.regs[n].client) else s;
      EmitToReaches(e, t, names[1..], skip);
    }
  }

  lemma EmitReaches(e: Env, s: State, ev: Event, skip: Option<Name>)
    requires Reliable(e)
    ensures var t := Emit(e, s, ev, skip);
            t == s.(sent := t.sent, log := s.log + [Happened(ev)])
  {
    EmitFrame(e, s, ev, skip);
    EmitToReaches(e, s, s.order, skip);
  }

  // ------------------------------------------------------------------ the steps of the run

  const AGENT := "agent"
  const CAPS := {"idle-events"}

  lemma AgentIsAKind()
    ensures Names.MatchesName(AGENT) && AGENT != OBSERVER && Names.MatchesName(OBSERVER)
  {
  }

  lemma NoBacklog(cfg: Config, n: Name)
    ensures Backlog(cfg, [], n, false) == []
  {
  }

  /** A fresh agent joins a hub that remembers nothing. */
  lemma Joins(e: Env, s: State, c: ConnId, n: Name, caps: set<string>)
    requires e.cfg.Valid() && Reliable(e) && c !in s.names && n !in s.regs && n !in s.order && s.recent == []
    requires Names.ValidName(n)
    ensures var t := Step(e, s, s.clock, Inbound(c, Hello(n, AGENT, caps)));
            t == s.(regs := s.regs[n := FreshPart(e, s, n, AGENT, caps, c)], order := s.order + [n],
                    names := s.names[c := n], sent := t.sent, log := t.log,
                    lastActivity := t.lastActivity, stallLatched := t.stallLatched)
  {
    hide Emit, Names.ValidName, Names.MatchesName, AgentLog;
    AgentIsAKind();
    NoBacklog(e.cfg, n);
    var p := FreshPart(e, s, n, AGENT, caps, c);
    var s0 := Entering(e, s, c, n, AGENT, caps);
    var s1 := Answer(e, s0, c, Welcome);
    assert s1.regs == s.regs[n := p] && s1.gone == s.gone;
    assert OverhearAll(e.cfg, p.box, []) == p.box;
    var s2 := GiveBacklog(e, s1, n);
    assert s2.regs == s1.regs by { assert s1.regs[n := p] == s1.regs; }
    EmitReaches(e, s2.Touch(), PeerJoined(n, AGENT), Some(n));
    assert s.(clock := s.clock) == s;
    assert Welcomed(e, s, c, n, AGENT, caps) == Emit(e, s2.Touch(), PeerJoined(n, AGENT), Some(n));
  }

  /** An agent reports that it is busy. */
  lemma TurnsBusy(e: Env, s: State, c: ConnId, n: Name)
    requires e.cfg.Valid() && LawIdle.Present(s, c, n)
    ensures var t := Step(e, s, s.clock, Inbound(c, StateReport(Busy, None)));
            && n in t.regs && t == s.(regs := s.regs[n := t.regs[n]])
            && SeatOf(t.regs[n]) == SeatOf(s.regs[n]) && t.regs[n].state == Busy && t.regs[n].box == s.regs[n].box
  {
    assert s.(clock := s.clock) == s;
    var u := LifeSign(s, n);
    assert u.Put(n, Reporting(s.clock.mono, u.regs[n], Busy, None)).regs
        == s.regs[n := Reporting(s.clock.mono, u.regs[n], Busy, None)];
  }

  const NOTE := SayFrame("a", "chat", "hello", 1, false)

  /** A say to an agent that is busy, with nobody else but the sender around, is queued. */
  lemma IsQueued(e: Env, s: State, c: ConnId)
    requires e.cfg.Valid() && LawIdle.Present(s, c, "b") && s.order == ["a", "b"] && s.IsAgent("a")
    requires s.regs["a"].state == Busy && s.regs["a"].box == EMPTY_BOX && s.regs["b"].ReportsIdle()
    requires !s.frozen && !s.muted && s.regs["b"].dedup == map[]
    requires s.regs["b"].bucket == Bucket.Tokens(e.cfg.rateBurst as real, s.clock.mono)
    ensures var t := Step(e, s, s.clock, Inbound(c, Say(NOTE)));
            && t.order == s.order && t.names == s.names && t.round == s.round && t.clock == s.clock
            && (Reliable(e) ==> t.gone == s.gone) && "a" in t.regs
            && SeatOf(t.regs["a"]) == SeatOf(s.regs["a"])
            && |t.regs["a"].box.queue| == 1 && t.regs["a"].box.queue[0].sender == "b" && t.regs["a"].box.dropped == 0
  {
    hide HandleSay, Step, LifeSign;
    var u := LifeSign(s, "b");
    AliveIs(s, "b");
    SaidIs(e, s, c, "b", NOTE);
    SayIsAccepted(e, u, "b");
    SayLeaves(e, u);
  }

  /** A life sign leaves everything but the timers. */
  lemma AliveIs(s: State, n: Name)
    requires n in s.regs
    ensures var u := LifeSign(s, n);
            && u == s.(regs := s.regs[n := u.regs[n]]) && n in u.regs
            && u.regs[n] == s.regs[n].(lastRx := s.clock.mono, awaitingPong := false)
  {
  }

  lemma SaidIs(e: Env, s: State, c: ConnId, n: Name, f: SayFrame)
    requires e.cfg.Valid() && LawIdle.Present(s, c, n) && WellFormed(Say(f))
    ensures n in LifeSign(s, n).regs
    ensures Step(e, s, s.clock, Inbound(c, Say(f))) == HandleSay(e, LifeSign(s, n), n, f)
  {
    hide HandleSay;
    assert s.(clock := s.clock) == s;
  }

  lemma SayIsAccepted(e: Env, s: State, n: Name)
    requires e.cfg.Valid() && s.IsAgent(n) && s.IsAgent("a") && !s.frozen && !s.muted && s.regs[n].dedup == map[]
    requires s.regs[n].bucket == Bucket.Tokens(e.cfg.rateBurst as real, s.clock.mono)
    ensures RouteSay(e, s, n, NOTE) == (Accept(e, Kept(e, s, n, NOTE), n, NOTE), true)
  {
    hide Accept, Kept;
  }

  lemma SayLeaves(e: Env, s: State)
    requires e.cfg.Valid() && s.order == ["a", "b"] && s.IsAgent("a") && s.IsAgent("b")
    requires s.regs["a"].state == Busy && s.regs["a"].box == EMPTY_BOX && s.regs["b"].ReportsIdle()
    requires RouteSay(e, s, "b", NOTE) == (Accept(e, Kept(e, s, "b", NOTE), "b", NOTE), true)
    ensures var t := HandleSay(e, s, "b", NOTE);
            && t.order == s.order && t.names == s.names && t.round == s.round && t.clock == s.clock
            && (Reliable(e) ==> t.gone == s.gone) && "a" in t.regs
            && SeatOf(t.regs["a"]) == SeatOf(s.regs["a"])
            && |t.regs["a"].box.queue| == 1 && t.regs["a"].box.queue[0].sender == "b" && t.regs["a"].box.dropped == 0
  {
    hide RouteSay, Accept, Kept;
    KeptOthers(e, s);
    var u := Kept(e, s, "b", NOTE);
    AcceptQueues(e, u);
    var t := Accept(e, u, "b", NOTE);
    assert InferIdle(e, t, "b") == t;
  }

  lemma KeptOthers(e: Env, s: State)
    requires s.IsAgent("a") && s.IsAgent("b")
    ensures var u := Kept(e, s, "b", NOTE);
            && u.order == s.order && u.names == s.names && u.round == s.round && u.clock == s.clock
            && u.gone == s.gone && u.IsAgent("a") && u.IsAgent("b")
            && u.regs["a"] == s.regs["a"] && u.regs["b"].caps == s.regs["b"].caps
            && u.regs["b"].state == s.regs["b"].state
  {
    hide Dedup.AfterSeen, Bucket.AfterTake;
  }

  lemma AcceptQueues(e: Env, s: State)
    requires e.cfg.Valid() && s.order == ["a", "b"] && s.IsAgent("a") && s.IsAgent("b")
    requires s.regs["a"].state == Busy && s.regs["a"].box == EMPTY_BOX
    ensures var t := Accept(e, s, "b", NOTE);
            && t.order == s.order && t.names == s.names && t.round == s.round && t.clock == s.clock
            && (Reliable(e) ==> t.gone == s.gone) && "a" in t.regs && "b" in t.regs
            && SeatOf(t.regs["a"]) == SeatOf(s.regs["a"]) && t.regs["b"] == s.regs["b"].(lastSay := s.clock.mono)
            && |t.regs["a"].box.queue| == 1 && t.regs["a"].box.queue[0].sender == "b" && t.regs["a"].box.dropped == 0
  {
    hide Register, SortById;
    var m := NewMsg(s, "b", NOTE);
    LawMailSteps.RegisterFrame(e, s, "b", NOTE);
    var r := Routing(Register(e, s, "b", NOTE), [], [], 0);
    var r1 := RouteOne(e, r, "b", m, "a");
    assert r1.state.regs["a"].box == Enqueue(e.cfg, EMPTY_BOX, m.Tag(Direct)) && r1.woken == [] && r1.observers == [];
    assert ["a", "b"][1..] == ["b"] && ["b"][1..] == [];
    assert RouteAll(e, r, "b", m, ["a", "b"]) == r1;
  }

  /** An observer takes over a name whose queue holds more than the hub's own notes: what
      waits is flushed to it and counts a round. */
  lemma TakesOver(e: Env, s: State, c: ConnId, n: Name) returns (k: nat)
    requires e.cfg.Valid() && Reliable(e) && n in s.regs && n !in s.order && c !in s.names && c !in s.gone
    requires Names.ValidName(n) && s.regs[n].box.queue != [] && Counts(WakeSlice(e.cfg, n, s.regs[n].box))
    ensures var t := Step(e, s, s.clock, Inbound(c, Hello(n, OBSERVER, {})));
            && k < |t.log|
            && t.log[k] == Delivered(n, false, ByFlush, s.round + 1, SortById(SliceBatch(e.cfg, n, s.regs[n].box)))
  {
    hide Welcomed, FlushQueue, Counts, WakeSlice, SliceBatch, SortById, Names.ValidName, Names.MatchesName;
    AgentIsAKind();
    assert s.(clock := s.clock) == s;
    var w := Welcomed(e, s, c, n, OBSERVER, {});
    LawRound.ReclaimContinues(e, s, c, n, OBSERVER, {});
    WelcomeReaches(e, s, c, n);
    FlushCountsByContent(e, w, n);
    k := |w.log|;
  }

  lemma WelcomeReaches(e: Env, s: State, c: ConnId, n: Name)
    requires Reliable(e) && n in s.regs
    ensures var w := Welcomed(e, s, c, n, OBSERVER, {});
            w.gone == s.gone && w.round == s.round
  {
    hide Emit, Backlog, Tagged, SortById;
    var s1 := Answer(e, Entering(e, s, c, n, OBSERVER, {}), c, Welcome);
    var s2 := GiveBacklog(e, s1, n);
    EmitReaches(e, s2.Touch(), PeerJoined(n, OBSERVER), Some(n));
  }

  // ------------------------------------------------------------------ the run

  const START := Clock(0.0, 0.0, 0)

  lemma NamesAreValid()
    ensures Names.ValidName("a") && Names.ValidName("b")
  {
    assert Names.Lower("a") == "a" && Names.Lower("b") == "b";
  }

  lemma BootIsBlank(cfg: Config)
    ensures var s := Boot(cfg, [], START);
            && s.regs == map[] && s.order == [] && s.names == map[] && s.gone == {} && s.recent == []
            && s.round == 0 && !s.frozen && !s.muted && s.clock == START && s.maxRounds == cfg.maxRounds
  {
    assert RecentMsgs([], 0) == [];
  }

  /** The run: two agents join, one turns busy, the other says something to it, the busy one
      leaves, and an observer joins under its name. */
  function TakeOver(): seq<(Clock, Input)> {
    [(START, Inbound(1, Hello("a", AGENT, CAPS))), (START, Inbound(2, Hello("b", AGENT, CAPS))),
     (START, Inbound(1, StateReport(Busy, None))), (START, Inbound(2, Say(NOTE))), (START, Inbound(1, Bye)),
     (START, Inbound(3, Hello("a", OBSERVER, {})))]
  }

  ghost function After(e: Env, k: nat): State
    requires e.cfg.Valid() && k <= 6
  {
    if k == 0 then Boot(e.cfg, [], START) else Step(e, After(e, k - 1), TakeOver()[k - 1].0, TakeOver()[k - 1].1)
  }

  lemma FirstThree(e: Env)
    requires e.cfg.Valid() && Reliable(e)
    ensures var s := After(e, 3);
            && s.order == ["a", "b"] && s.names == map[1 := "a", 2 := "b"] && s.gone == {} && s.round == 0
            && !s.frozen && !s.muted && s.clock == START && s.IsAgent("a") && s.IsAgent("b")
            && s.regs["a"].client == 1 && s.regs["a"].state == Busy && s.regs["a"].box == EMPTY_BOX
            && s.regs["b"].client == 2 && s.regs["b"].ReportsIdle() && s.regs["b"].dedup == map[]
            && s.regs["b"].bucket == Bucket.Tokens(e.cfg.rateBurst as real, s.clock.mono)
  {
    hide Step, Boot, Names.ValidName;
    NamesAreValid();
    BootIsBlank(e.cfg);
    AgentIsAKind();
    var s0, s1, s2 := After(e, 0), After(e, 1), After(e, 2);
    Joins(e, s0, 1, "a", CAPS);
    Joins(e, s1, 2, "b", CAPS);
    TurnsBusy(e, s2, 1, "a");
  }

  /** A participant without a round to its name leaves. */
  lemma Leaves(e: Env, s: State, c: ConnId, n: Name)
    requires e.cfg.Valid() && Reliable(e) && s.Live(n) && c in s.names && s.names[c] == n && s.regs[n].client == c
               && s.round == 0
    ensures var t := Step(e, s, s.clock, Inbound(c, Bye));
            && n in t.regs && n !in t.order && t.names == s.names && t.clock == s.clock && t.gone == s.gone + {c}
            && t.round == 0
            && t.regs[n].box == s.regs[n].box
  {
    hide Without, Disconnect, Step;
    var u := LifeSign(s, n);
    ByeIs(e, s, c, n);
    DisconnectFrame(e, u, c);
    LeavesQuietly(e, u, c, n);
  }

  lemma ByeIs(e: Env, s: State, c: ConnId, n: Name)
    requires e.cfg.Valid() && s.Live(n) && c in s.names && s.names[c] == n
    ensures Step(e, s, s.clock, Inbound(c, Bye)) == Disconnect(e, LifeSign(s, n), c)
  {
    hide Disconnect;
    assert s.(clock := s.clock) == s;
  }

  lemma LeavesQuietly(e: Env, s: State, c: ConnId, n: Name)
    requires Reliable(e) && Holds(s, c) && s.names[c] == n && s.round == 0
    ensures Disconnect(e, s, c).gone == s.gone + {c} && Disconnect(e, s, c).round == 0
  {
    hide Without, Emit, SessionComplete;
    var left := s.(order := Without(s.order, n), blockedNotified := s.blockedNotified - {n}).Touch();
    EmitReaches(e, left, PeerLeft(n), None);
    var t := Emit(e, left, PeerLeft(n), None);
    EmitReaches(e, t, SessionDone(t.round), None);
  }

  lemma NextTwo(e: Env)
    requires e.cfg.Valid() && Reliable(e)
    ensures var s := After(e, 5);
            && "a" in s.regs && "a" !in s.order && 3 !in s.names && s.clock == START && 3 !in s.gone && s.round == 0
            && |s.regs["a"].box.queue| == 1 && s.regs["a"].box.queue[0].sender == "b" && s.regs["a"].box.dropped == 0
  {
    hide Step;
    FirstThree(e);
    IsQueued(e, After(e, 3), 2);
    Leaves(e, After(e, 4), 1, "a");
  }

  lemma OneWakeCounts(cfg: Config, n: Name, b: Box)
    requires cfg.Valid() && |b.queue| == 1 && b.dropped == 0 && b.queue[0].sender != SYSTEM_SENDER
    ensures Counts(WakeSlice(cfg, n, b))
  {
    assert WakeSlice(cfg, n, b) == b.queue;
    assert b.queue[0].sender != SYSTEM_SENDER;
  }

  lemma {:induction false} AfterIsRun(e: Env, k: nat)
    requires e.cfg.Valid() && k <= 6
    ensures Run(e, After(e, k), TakeOver()[k..]) == After(e, 6)
    decreases 6 - k
  {
    hide Step, TakeOver;
    assert |TakeOver()| == 6 by { SixSteps(); }
    if k < 6 {
      AfterIsRun(e, k + 1);
      assert TakeOver()[k..][1..] == TakeOver()[k + 1..];
    }
  }

  lemma SixSteps()
    ensures |TakeOver()| == 6 && TakeOver()[5] == (START, Inbound(3, Hello("a", OBSERVER, {})))
    ensures forall i :: 0 <= i < 6 ==> TakeOver()[i].0 == START
  {
  }

  /** A delivery to an observer that counts: under every configuration, after this run from an
      empty start, if no send fails. The frame went to an observer, carries round 1, and is the
      wake occasion that made it so. */
  lemma ObserverDeliveryCounts(e: Env) returns (k: nat)
    requires e.cfg.Valid() && Reliable(e)
    ensures var s := Run(e, Boot(e.cfg, [], START), TakeOver());
            && k < |s.log| && s.log[k].Delivered? && !s.log[k].toAgent && s.log[k].cause == ByFlush
            && s.log[k].round == 1
            && Occasions(s.log[..k]) == 0 && Occasions(s.log[..k + 1]) == 1
  {
    hide Step, Boot, SortById, SliceBatch, TakeOver, Occasions, Counts, WakeSlice, WakesForReal, Good;
    SixSteps();
    NextTwo(e);
    NamesAreValid();
    var s := After(e, 5);
    OneWakeCounts(e.cfg, "a", s.regs["a"].box);
    k := TakesOver(e, s, 3, "a");
    AfterIsRun(e, 0);
    assert TakeOver()[0..] == TakeOver();
    var t := After(e, 6);
    AfterGood(e, 5);
    AfterGood(e, 6);
    WakeCounts(e, s, "a");
    FloorOf(e, t);
    ObserverFramesCount(t, k);
  }

  lemma {:induction false} AfterGood(e: Env, k: nat)
    requires e.cfg.Valid() && k <= 6
    ensures Good(e, -1, After(e, k)) && After(e, k).clock == START
  {
    hide Step, Good, TakeOver, Boot;
    if k == 0 {
      StartIsGood(e);
    } else {
      AfterGood(e, k - 1);
      SixSteps();
      StepGood(e, -1, After(e, k - 1), TakeOver()[k - 1].0, TakeOver()[k - 1].1);
    }
  }

  lemma StartIsGood(e: Env)
    requires e.cfg.Valid()
    ensures Good(e, -1, Boot(e.cfg, [], START)) && Boot(e.cfg, [], START).clock == START
  {
    hide Boot, LawMailSteps.Sound, Floor, LawRecords.Records, LawTold.Told, LawSession.Minuted;
    assert Startable([], START) by { EmptyStartable(); }
    BootGood(e, [], START);
    LawTold.BootTold(e.cfg, [], START);
    LawSession.BootMinuted(e.cfg, [], START);
    BootClock(e.cfg, [], START);
  }

  lemma WakeCounts(e: Env, s: State, n: Name)
    requires Good(e, -1, s) && n in s.regs && Counts(WakeSlice(e.cfg, n, s.regs[n].box))
    ensures WakesForReal(SortById(SliceBatch(e.cfg, n, s.regs[n].box)))
  {
    hide Good, SortById, SliceBatch, WakeSlice, Counts, WakesForReal;
    hide MailboxLaws.Ordered, MailboxLaws.Conserved, MailboxLaws.Discreet, MailboxLaws.Shaped;
    GoodBox(e, -1, s, n);
    BatchCounts(e.cfg, n, s.regs[n].box);
  }

  lemma EmptyStartable()
    ensures Startable([], START)
  {
  }

  lemma FloorOf(e: Env, s: State)
    requires Good(e, -1, s)
    ensures Floor(s)
  {
    hide LawMailSteps.Sound, Floor, LawRecords.Records, LawTold.Told, LawSession.Minuted;
  }
}
