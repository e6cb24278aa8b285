/** Runs, from the start of a hub, for the corners of a session end: an agent is marked, is
    busy, and has a message waiting when it speaks again. If that is a `done`, the session ends
    and its mark stays; if the other agent has left by then, the session ends twice; and if it
    is anything else, the session ends all the same. */
module SessionWitness {
  import opened Types
  import opened Mailbox
  import opened HubState
  import opened HubSpec
  import opened HubFrames
  import opened HubWitness
  import LawMailSteps
  import LawIdle
  import LawFloor
  import LawRecords
  import LawTold
  import opened LawSession
  import opened LawRound
  import HubTheorems
  import Bucket
  import Dedup
  import Names

  // ------------------------------------------------------------------ two agents

  /** Room for three rounds, and for two says at once. */
  predicate Roomy(cfg: Config) {
    cfg.Valid() && cfg.maxRounds >= 4 && cfg.rateBurst >= 2
  }

  /** Two agents without capabilities on an open floor. */
  ghost predicate Scene(e: Env, s: State) {
    && s.order == ["a", "b"] && s.names == map[1 := "a", 2 := "b"] && s.gone == {} && s.clock == START
    && !s.frozen && !s.muted && s.maxRounds == e.cfg.maxRounds
    && s.IsAgent("a") && s.IsAgent("b")
    && s.regs["a"].client == 1 && s.regs["b"].client == 2 && s.regs["a"].caps == {} && s.regs["b"].caps == {}
  }

  /** Activity, mark and queue of a participant that has lost nothing. */
  predicate Mood(p: Part, state: Activity, finished: bool, waiting: nat) {
    p.state == state && p.finished == finished && |p.box.queue| == waiting && p.box.dropped == 0
  }

  /** What waits for it longest is from `n`. */
  predicate WaitsFrom(p: Part, n: Name) {
    p.box.queue != [] && p.box.queue[0].sender == n
  }

  predicate Silent(e: Env, p: Part) {
    p.bucket == Bucket.Tokens(e.cfg.rateBurst as real, 0.0) && p.dedup == map[]
  }

  /** It has said `f`, and nothing else. */
  predicate SaidOnce(e: Env, p: Part, f: SayFrame) {
    && p.bucket == Bucket.AfterTake(e.cfg.rateBurst as real, e.cfg.ratePerSecond,
                     Bucket.Tokens(e.cfg.rateBurst as real, 0.0), 0.0)
    && p.dedup == Dedup.AfterSeen(e.cfg.dedupWindow, map[], 0.0, Dedup.Key(f.to, f.text, f.private))
  }

  function ToAll(kind: string, text: string): SayFrame {
    SayFrame(EVERYONE, kind, text, 1, false)
  }

  lemma OtherKey(text: string, text': string)
    requires text != text'
    ensures Dedup.Key(EVERYONE, text, false) != Dedup.Key(EVERYONE, text', false)
  {
    Dedup.KeyInjective(Dedup.Said(0.0, EVERYONE, text, false), Dedup.Said(0.0, EVERYONE, text', false));
  }

  lemma FirstSay(e: Env, s: State, p: Part, f: SayFrame)
    requires e.cfg.Valid() && Silent(e, p) && s.clock == START
    ensures MaySpend(e, s, p) && !Repeats(e, s, p, f)
    ensures SaidOnce(e, p.(bucket := Spend(e, s, p).bucket, dedup := Remember(e, s, p, f).dedup), f)
  {
  }

  lemma SecondSay(e: Env, s: State, p: Part, f: SayFrame, g: SayFrame)
    requires Roomy(e.cfg) && SaidOnce(e, p, f) && s.clock == START
    requires f.to == g.to == EVERYONE && !f.private && !g.private && f.text != g.text
    ensures MaySpend(e, s, p) && !Repeats(e, s, p, g)
  {
    OtherKey(f.text, g.text);
  }

  // ------------------------------------------------------------------ a say to all

  /** What an accepted say to all does to the two. */
  lemma AcceptMoves(e: Env, s: State, n: Name, o: Name, f: SayFrame)
    requires Reliable(e) && Scene(e, s) && {n, o} == {"a", "b"} && n != o && f.to == EVERYONE
    requires s.round + 1 < s.maxRounds && s.regs[o].box.queue == [] && s.regs[o].box.dropped == 0
    requires e.cfg.queueCap >= 1
    ensures var t, q := Accept(e, s, n, f), s.regs[o];
            && Scene(e, t) && t.regs[n] == s.regs[n].(lastSay := s.clock.mono) && SeatOf(t.regs[o]) == SeatOf(q)
            && (if q.state == Idle then Mood(t.regs[o], Busy, q.finished, 0) && t.round == s.round + 1
                else Mood(t.regs[o], q.state, q.finished, 1) && WaitsFrom(t.regs[o], n) && t.round == s.round)
  {
    hide Register, RouteAll, Deliver, CheckRoundLimit, NewMsg, Accept;
    var m := NewMsg(s, n, f);
    var r := RoutedToOne(e, s, n, o, f);
    if s.regs[o].state == Idle {
      var batch := r.woken[0].1;
      var w := r.state.(round := s.round + 1);
      WokenMoves(e, w, o, batch, BySay(m.id));
      AcceptWakes(e, s, n, f, r, o, batch);
    } else {
      AcceptWaits(e, s, n, f, r);
    }
  }

  /** One of the two is the sender; the other is woken or has to wait. */
  lemma RoutedToOne(e: Env, s: State, n: Name, o: Name, f: SayFrame) returns (r: Routing)
    requires Scene(e, s) && {n, o} == {"a", "b"} && n != o && f.to == EVERYONE
    requires s.regs[o].box.queue == [] && s.regs[o].box.dropped == 0 && e.cfg.queueCap >= 1
    ensures r == RouteAll(e, Routing(Register(e, s, n, f), [], [], 0), n, NewMsg(s, n, f), s.order)
    ensures r.observers == [] && Scene(e, r.state) && r.state.round == s.round
    ensures r.state.regs[n] == s.regs[n].(lastSay := s.clock.mono) && SeatOf(r.state.regs[o]) == SeatOf(s.regs[o])
    ensures var q := s.regs[o];
            if q.state == Idle
            then |r.woken| == 1 && r.woken[0].0 == o && Mood(r.state.regs[o], Idle, q.finished, 0)
            else r.woken == [] && Mood(r.state.regs[o], q.state, q.finished, 1) && WaitsFrom(r.state.regs[o], n)
  {
    hide Register, RouteOne;
    LawMailSteps.RegisterFrame(e, s, n, f);
    var s0, m := Register(e, s, n, f), NewMsg(s, n, f);
    TwoNames(e, Routing(s0, [], [], 0), n, o, m);
    r := RouteOne(e, Routing(s0, [], [], 0), n, m, o);
    OneMoves(e, s0, n, o, m);
  }

  lemma OneMoves(e: Env, s: State, n: Name, o: Name, m: Msg)
    requires n != o && o in s.regs && !s.regs[o].IsObserver() && s.Connected(o) && m.to == EVERYONE && o != EVERYONE
    requires s.regs[o].box.queue == [] && s.regs[o].box.dropped == 0 && e.cfg.queueCap >= 1
    ensures var r, q := RouteOne(e, Routing(s, [], [], 0), n, m, o), s.regs[o];
            && r.observers == [] && o in r.state.regs && r.state == s.Put(o, r.state.regs[o])
            && SeatOf(r.state.regs[o]) == SeatOf(q)
            && if q.state == Idle
               then |r.woken| == 1 && r.woken[0].0 == o && Mood(r.state.regs[o], Idle, q.finished, 0)
               else
                 && r.woken == [] && Mood(r.state.regs[o], q.state, q.finished, 1)
                 && WaitsFrom(r.state.regs[o], m.sender)
  {
    hide WakeBatch, Woken, Queued, Mood, WaitsFrom;
    var q, tagged := s.regs[o], m.Tag(Broadcast);
    BoxOpSeats(e, q, tagged);
    TakesIn(e, q, tagged);
  }

  /** A message reaches a participant for which nothing waits. */
  lemma TakesIn(e: Env, q: Part, m: Msg)
    requires q.box.queue == [] && q.box.dropped == 0 && e.cfg.queueCap >= 1
    ensures Mood(Woken(q, m), q.state, q.finished, 0)
    ensures Mood(Queued(e, q, m), q.state, q.finished, 1) && WaitsFrom(Queued(e, q, m), m.sender)
  {
  }

  lemma WokenMoves(e: Env, s: State, o: Name, batch: seq<Msg>, cause: Cause)
    requires Reliable(e) && Scene(e, s) && o in {"a", "b"} && s.round < s.maxRounds
    ensures var t, q := CheckRoundLimit(e, Deliver(e, s, o, batch, true, cause)), s.regs[o];
            && Scene(e, t) && t.round == s.round && t.regs == s.regs[o := t.regs[o]]
            && SeatOf(t.regs[o]) == SeatOf(q)
            && t.regs[o].state == Busy && t.regs[o].finished == q.finished
            && t.regs[o].box.queue == q.box.queue && t.regs[o].box.dropped == q.box.dropped
  {
    hide Deliver, SortById;
    DeliverFrame(e, s, o, batch, true, cause);
    DeliverReaches(e, s, o, batch, cause);
  }

  lemma AcceptWakes(e: Env, s: State, n: Name, f: SayFrame, r: Routing, o: Name, batch: seq<Msg>)
    requires Reliable(e) && n in s.regs && r.observers == [] && r.woken == [(o, batch)] && o in r.state.regs
    requires r == RouteAll(e, Routing(Register(e, s, n, f), [], [], 0), n, NewMsg(s, n, f), s.order)
    ensures var w := r.state.(round := r.state.round + 1);
            var u := CheckRoundLimit(e, Deliver(e, w, o, batch, true, BySay(NewMsg(s, n, f).id)));
            var t := Accept(e, s, n, f);
            t == u.(log := t.log, sent := t.sent, lastActivity := t.lastActivity, stallLatched := t.stallLatched)
  {
    hide Register, RouteAll, Deliver, CheckRoundLimit, NewMsg;
    var w, cause := r.state.(round := r.state.round + 1), BySay(NewMsg(s, n, f).id);
    assert r.woken[1..] == [];
    assert DeliverAll(e, w, r.observers, false, cause) == w;
    assert DeliverAll(e, w, r.woken, true, cause) == Deliver(e, w, o, batch, true, cause);
  }

  lemma AcceptWaits(e: Env, s: State, n: Name, f: SayFrame, r: Routing)
    requires Reliable(e) && n in s.regs && r.observers == [] && r.woken == []
    requires r == RouteAll(e, Routing(Register(e, s, n, f), [], [], 0), n, NewMsg(s, n, f), s.order)
    ensures var t := Accept(e, s, n, f);
            t == r.state.(log := t.log, sent := t.sent, lastActivity := t.lastActivity, stallLatched := t.stallLatched)
  {
    hide Register, RouteAll, Deliver, CheckRoundLimit, NewMsg;
  }

  lemma TwoNames(e: Env, r: Routing, n: Name, o: Name, m: Msg)
    requires {n, o} == {"a", "b"} && n != o
    ensures RouteAll(e, r, n, m, ["a", "b"]) == RouteOne(e, r, n, m, o)
  {
    hide RouteOne;
    assert ["a", "b"][1..] == ["b"] && ["b"][1..] == [];
    OwnSay(e, r, n, m);
    OwnSay(e, RouteOne(e, r, n, m, o), n, m);
  }

  lemma OwnSay(e: Env, r: Routing, n: Name, m: Msg)
    ensures RouteOne(e, r, n, m, n) == r
  {
  }

  lemma DeliverReaches(e: Env, s: State, n: Name, batch: seq<Msg>, cause: Cause)
    requires Reliable(e) && n in s.regs
    ensures Deliver(e, s, n, batch, true, cause).gone == s.gone
  {
    hide SortById;
  }

  // ------------------------------------------------------------------ a say and the mark

  /** What an accepted say leaves of its sender, before anything is sent. */
  lemma KeptMoves(e: Env, s: State, n: Name, o: Name, f: SayFrame)
    requires Scene(e, s) && {n, o} == {"a", "b"} && n != o
    ensures var t := Kept(e, s, n, f);
            && Scene(e, t) && t.round == s.round && t.regs[o] == s.regs[o]
            && t.regs[n] == s.regs[n].(bucket := Spend(e, s, s.regs[n]).bucket,
                 dedup := Remember(e, s, s.regs[n], f).dedup,
                 says := t.regs[n].says)
  {
    hide Dedup.AfterSeen, Bucket.AfterTake;
  }

  lemma IsAccepted(e: Env, s: State, n: Name, f: SayFrame)
    requires e.cfg.Valid() && Scene(e, s) && n in {"a", "b"} && f.to == EVERYONE
    requires MaySpend(e, s, s.regs[n]) && !Repeats(e, s, s.regs[n], f)
    ensures RouteSay(e, s, n, f) == (Accept(e, Kept(e, s, n, f), n, f), true)
  {
    hide Accept, Kept, MaySpend, Repeats;
  }

  /** A say to all of an agent for which nothing waits, while the other is unfinished or busy:
      no session ends. */
  lemma SayMoves(e: Env, s: State, n: Name, o: Name, f: SayFrame)
    requires e.cfg.Valid() && Reliable(e) && Scene(e, s) && {n, o} == {"a", "b"} && n != o && f.to == EVERYONE
    requires MaySpend(e, s, s.regs[n]) && !Repeats(e, s, s.regs[n], f)
    requires s.round + 1 < s.maxRounds && s.regs[o].box.queue == [] && s.regs[o].box.dropped == 0
    requires s.regs[n].box.queue == [] && s.regs[n].box.dropped == 0
    requires f.kind == "done" ==> !s.regs[o].finished || s.regs[o].state != Idle
    ensures var t, p, q := HandleSay(e, s, n, f), s.regs[n], s.regs[o];
            && Scene(e, t) && Mood(t.regs[n], Idle, f.kind == "done", 0) && SeatOf(t.regs[o]) == SeatOf(q)
            && t.regs[n].bucket == Spend(e, s, p).bucket && t.regs[n].dedup == Remember(e, s, p, f).dedup
            && (if q.state == Idle then Mood(t.regs[o], Busy, q.finished, 0) && t.round == s.round + 1
                else Mood(t.regs[o], q.state, q.finished, 1) && WaitsFrom(t.regs[o], n) && t.round == s.round)
  {
    hide RouteSay, Accept, Kept, MaySpend, Repeats, Spend, Remember, HandleSay;
    IsAccepted(e, s, n, f);
    KeptAccepted(e, s, n, o, f);
    FollowUp(e, s, Accept(e, Kept(e, s, n, f), n, f), n, o, f);
  }

  lemma KeptAccepted(e: Env, s: State, n: Name, o: Name, f: SayFrame)
    requires Reliable(e) && Scene(e, s) && {n, o} == {"a", "b"} && n != o && f.to == EVERYONE
    requires s.round + 1 < s.maxRounds && s.regs[o].box.queue == [] && s.regs[o].box.dropped == 0
    requires e.cfg.queueCap >= 1
    ensures n in Kept(e, s, n, f).regs
    ensures var t, p, q := Accept(e, Kept(e, s, n, f), n, f), s.regs[n], s.regs[o];
            && Scene(e, t) && t.regs[n].box == p.box && SeatOf(t.regs[o]) == SeatOf(q)
            && t.regs[n].bucket == Spend(e, s, p).bucket && t.regs[n].dedup == Remember(e, s, p, f).dedup
            && (if q.state == Idle then Mood(t.regs[o], Busy, q.finished, 0) && t.round == s.round + 1
                else Mood(t.regs[o], q.state, q.finished, 1) && WaitsFrom(t.regs[o], n) && t.round == s.round)
  {
    hide Accept, Kept, Spend, Remember, Mood, WaitsFrom;
    KeptMoves(e, s, n, o, f);
    AcceptMoves(e, Kept(e, s, n, f), n, o, f);
  }

  /** After the routing: the idle inference finds nothing to flush, the mark completes nothing. */
  lemma FollowUp(e: Env, s: State, s1: State, n: Name, o: Name, f: SayFrame)
    requires e.cfg.Valid() && n in s.regs && RouteSay(e, s, n, f) == (s1, true)
    requires Scene(e, s1) && {n, o} == {"a", "b"} && n != o && s1.regs[n].box.queue == []
    requires f.kind == "done" ==> !s1.regs[o].finished || s1.regs[o].box.queue != []
    ensures var t, p := HandleSay(e, s, n, f), s1.regs[n];
            && Scene(e, t) && t.round == s1.round && t.regs[o] == s1.regs[o]
            && SeatOf(t.regs[n]) == SeatOf(p) && t.regs[n].box == p.box
            && t.regs[n].state == Idle && t.regs[n].finished == (f.kind == "done")
  {
    hide RouteSay, InferIdle, CheckSessionDone;
    NothingToFlush(e, s1, n);
    var s2 := InferIdle(e, s1, n);
    var u := MarkFinished(s2, n, f.kind == "done");
    assert u == s1.Put(n, u.regs[n]);
    if f.kind == "done" {
      NotComplete(e, u, o);
    }
  }

  lemma NothingToFlush(e: Env, s: State, n: Name)
    requires s.IsAgent(n) && s.regs[n].caps == {} && s.regs[n].box.queue == []
    ensures var t, p := InferIdle(e, s, n), s.regs[n];
            && n in t.regs && t == s.Put(n, t.regs[n]) && SeatOf(t.regs[n]) == SeatOf(p)
            && t.regs[n].box == p.box && t.regs[n].state == Idle
  {
    hide FlushQueue;
    assert s.regs[n := s.regs[n]] == s.regs;
    EmptyFlush(e, s.Put(n, SetIdle(s.regs[n])), n);
  }

  lemma EmptyFlush(e: Env, s: State, n: Name)
    requires n in s.regs && s.regs[n].box.queue == []
    ensures FlushQueue(e, s, n) == s
  {
    hide Deliver, CheckRoundLimit, CheckSessionDone, SliceBatch, AfterSlice, WakeSlice, Counts;
  }

  lemma NotComplete(e: Env, s: State, o: Name)
    requires s.IsAgent(o) && (!s.regs[o].finished || s.regs[o].box.queue != [])
    ensures CheckSessionDone(e, s) == s
  {
  }

  /** The step of a say. */
  lemma SayStepMoves(e: Env, s: State, c: ConnId, n: Name, o: Name, f: SayFrame) returns (u: State)
    requires e.cfg.Valid() && Scene(e, s) && {n, o} == {"a", "b"} && n != o && c == s.regs[n].client
    requires f.to == EVERYONE && !f.private
    ensures n in u.regs && Step(e, s, START, Inbound(c, Say(f))) == HandleSay(e, u, n, f)
    ensures u == LifeSign(s, n) && Scene(e, u) && u.round == s.round && u.regs[o] == s.regs[o]
    ensures u.regs[n] == s.regs[n].(lastRx := 0.0, awaitingPong := false)
  {
    hide HandleSay;
    SaidIs(e, s, c, n, f);
    u := LifeSign(s, n);
  }

  // ------------------------------------------------------------------ the run

  const FIRST := ToAll("done", "x")
  const WORD := ToAll("chat", "z")
  const SECOND := ToAll("done", "y")

  /** Both join; one says that it is done, the other says something, then that it is done. */
  function Prelude(): seq<(Clock, Input)> {
    [(START, Inbound(1, Hello("a", AGENT, {}))), (START, Inbound(2, Hello("b", AGENT, {}))),
     (START, Inbound(1, Say(FIRST))), (START, Inbound(2, Say(WORD))), (START, Inbound(2, Say(FIRST)))]
  }

  ghost function After(e: Env, k: nat): State
    requires e.cfg.Valid() && k <= 5
  {
    if k == 0 then Boot(e.cfg, [], START) else Step(e, After(e, k - 1), Prelude()[k - 1].0, Prelude()[k - 1].1)
  }

  lemma BothJoin(e: Env)
    requires e.cfg.Valid() && Reliable(e)
    ensures var s := After(e, 2);
            && Scene(e, s) && s.round == 0
            && Mood(s.regs["a"], Idle, false, 0) && Mood(s.regs["b"], Idle, false, 0)
            && Silent(e, s.regs["a"]) && Silent(e, s.regs["b"])
  {
    hide Step, Boot, Names.ValidName;
    NamesAreValid();
    BootIsBlank(e.cfg);
    AgentIsAKind();
    var s0, s1 := After(e, 0), After(e, 1);
    Joins(e, s0, 1, "a", {});
    Joins(e, s1, 2, "b", {});
  }

  lemma SaysFirst(e: Env)
    requires Roomy(e.cfg) && Reliable(e)
    ensures var s := After(e, 3);
            && Scene(e, s) && s.round == 1
            && Mood(s.regs["a"], Idle, true, 0) && Mood(s.regs["b"], Busy, false, 0)
            && SaidOnce(e, s.regs["a"], FIRST) && Silent(e, s.regs["b"])
  {
    hide Step, HandleSay, MaySpend, Repeats, Spend, Remember, LifeSign;
    BothJoin(e);
    var s := After(e, 2);
    var u := SayStepMoves(e, s, 1, "a", "b", FIRST);
    FirstSay(e, u, u.regs["a"], FIRST);
    SayMoves(e, u, "a", "b", FIRST);
  }

  lemma SaysWord(e: Env)
    requires Roomy(e.cfg) && Reliable(e)
    ensures var s := After(e, 4);
            && Scene(e, s) && s.round == 2
            && Mood(s.regs["a"], Busy, true, 0) && Mood(s.regs["b"], Idle, false, 0)
            && SaidOnce(e, s.regs["a"], FIRST) && SaidOnce(e, s.regs["b"], WORD)
  {
    hide Step, HandleSay, MaySpend, Repeats, Spend, Remember, LifeSign;
    SaysFirst(e);
    var s := After(e, 3);
    var u := SayStepMoves(e, s, 2, "b", "a", WORD);
    FirstSay(e, u, u.regs["b"], WORD);
    SayMoves(e, u, "b", "a", WORD);
  }

  /** Both are marked, one is busy and has the other's last say waiting for it. */
  lemma SaysLast(e: Env)
    requires Roomy(e.cfg) && Reliable(e)
    ensures var s := After(e, 5);
            && Scene(e, s) && s.round == 2
            && Mood(s.regs["a"], Busy, true, 1) && Mood(s.regs["b"], Idle, true, 0)
            && SaidOnce(e, s.regs["a"], FIRST)
  {
    hide Step, HandleSay, MaySpend, Repeats, Spend, Remember, LifeSign;
    SaysWord(e);
    var s := After(e, 4);
    var u := SayStepMoves(e, s, 2, "b", "a", FIRST);
    SecondSay(e, u, u.regs["b"], WORD, FIRST);
    SayMoves(e, u, "b", "a", FIRST);
  }

  lemma PreludeIsRun(e: Env)
    requires e.cfg.Valid()
    ensures Run(e, Boot(e.cfg, [], START), Prelude()) == After(e, 5)
  {
    hide Step, Boot;
    assert After(e, 0) == Boot(e.cfg, [], START);
    RunSteps(e, 0);
    assert Prelude()[0..] == Prelude();
  }

  lemma {:induction false} RunSteps(e: Env, k: nat)
    requires e.cfg.Valid() && k <= 5
    ensures Run(e, After(e, k), Prelude()[k..]) == After(e, 5)
    decreases 5 - k
  {
    hide Step, Prelude;
    assert |Prelude()| == 5 by { FiveSteps(); }
    if k < 5 {
      RunSteps(e, k + 1);
      assert Prelude()[k..][1..] == Prelude()[k + 1..];
    }
  }

  lemma FiveSteps()
    ensures |Prelude()| == 5 && forall i :: 0 <= i < 5 ==> Prelude()[i].0 == START
  {
  }

  lemma {:induction false} AfterIsGood(e: Env, k: nat)
    requires e.cfg.Valid() && k <= 5
    ensures HubTheorems.Good(e, -1, After(e, k)) && After(e, k).clock == START
  {
    hide Step, HubTheorems.Good, Prelude, Boot;
    if k == 0 {
      StartIsGood(e);
    } else {
      AfterIsGood(e, k - 1);
      FiveSteps();
      HubTheorems.StepGood(e, -1, After(e, k - 1), Prelude()[k - 1].0, Prelude()[k - 1].1);
    }
  }

  // ------------------------------------------------------------------ the last say

  lemma {:induction false} DeliverAllReaches(e: Env, s: State, batches: seq<(Name, seq<Msg>)>, drawn: bool,
      cause: Cause)
    requires Reliable(e)
    ensures DeliverAll(e, s, batches, drawn, cause).gone == s.gone
    decreases batches
  {
    hide SortById;
    if batches != [] {
      var b := batches[0];
      var t := if b.0 in s.regs then Deliver(e, s, b.0, b.1, drawn, cause) else s;
      DeliverAllReaches(e, t, batches[1..], drawn, cause);
    }
  }

  lemma AcceptReaches(e: Env, s: State, n: Name, f: SayFrame)
    requires Reliable(e) && n in s.regs
    ensures Accept(e, s, n, f).gone == s.gone
  {
    hide Register, RouteAll, DeliverAll, NewMsg, Emit, LawRoute.Carry, LawRoute.Heads, LawRoute.Shown;
    hide LawRoute.Wakeful, LawRoute.Waiters;
    var m, s0 := NewMsg(s, n, f), Register(e, s, n, f);
    LawMailSteps.RegisterFrame(e, s, n, f);
    var r := RouteAll(e, Routing(s0, [], [], 0), n, m, s.order);
    assert LawRoute.Carry([], m) by { LawRoute.NothingYet(m); }
    LawRoute.RouteAllLists(e, Routing(s0, [], [], 0), n, m, s.order);
    var s1 := if r.woken != [] then r.state.(round := r.state.round + 1) else r.state;
    DeliverAllReaches(e, s1, r.observers, false, BySay(m.id));
    var s2 := DeliverAll(e, s1, r.observers, false, BySay(m.id));
    DeliverAllReaches(e, s2, r.woken, true, BySay(m.id));
    var s3 := DeliverAll(e, s2, r.woken, true, BySay(m.id));
    EmitReaches(e, s3.(frozen := true), RoundLimit(s3.round), None);
  }

  /** What the last say needs: the sender is marked and busy, one message waits for it, it has
      said one other thing, and the others rest. */
  ghost predicate Poised(e: Env, s: State) {
    && s.IsAgent("a") && 1 in s.names && s.names[1] == "a" && s.regs["a"].client == 1 && 1 !in s.gone
    && s.clock == START && !s.frozen && !s.muted && s.regs["a"].caps == {}
    && Mood(s.regs["a"], Busy, true, 1) && SaidOnce(e, s.regs["a"], FIRST) && OthersRest(s, "a", EVERYONE)
  }

  lemma LastSay(e: Env, s: State, kind: string)
    requires Roomy(e.cfg) && Reliable(e) && Poised(e, s)
    ensures var i := Inbound(1, Say(ToAll(kind, "y")));
            IsSay(s, i) && s.names[1] == "a" && FlushIsDue(e, Heard(s, START, 1), "a", i.request.say)
    ensures OnlyAgent(Heard(s, START, 1), "a") <==> OnlyAgent(s, "a")
  {
    hide RouteSay, MaySpend, Repeats, SaidOnce, Names.ValidName, Names.MatchesName;
    var f, u := ToAll(kind, "y"), Heard(s, START, 1);
    StaysPoised(e, s);
    SecondSay(e, u, u.regs["a"], FIRST, f);
    LastSayAccepted(e, u, f);
    KeptReaches(e, u, f);
  }

  lemma StaysPoised(e: Env, s: State)
    requires Poised(e, s)
    ensures Poised(e, Heard(s, START, 1)) && (OnlyAgent(Heard(s, START, 1), "a") <==> OnlyAgent(s, "a"))
  {
    var u := Heard(s, START, 1);
    AliveIs(s, "a");
    assert u == s.Put("a", u.regs["a"]);
    assert forall m :: u.IsAgent(m) <==> s.IsAgent(m);
  }

  lemma LastSayAccepted(e: Env, s: State, f: SayFrame)
    requires e.cfg.Valid() && Poised(e, s) && f.to == EVERYONE
    requires MaySpend(e, s, s.regs["a"]) && !Repeats(e, s, s.regs["a"], f)
    ensures RouteSay(e, s, "a", f) == (Accept(e, Kept(e, s, "a", f), "a", f), true)
  {
    hide Accept, Kept, MaySpend, Repeats;
  }

  lemma KeptReaches(e: Env, s: State, f: SayFrame)
    requires Reliable(e) && "a" in s.regs
    ensures Accept(e, Kept(e, s, "a", f), "a", f).gone == s.gone
  {
    hide Accept, Dedup.AfterSeen, Bucket.AfterTake;
    AcceptReaches(e, Kept(e, s, "a", f), "a", f);
  }

  lemma SceneIsPoised(e: Env, s: State)
    requires Scene(e, s) && Mood(s.regs["a"], Busy, true, 1) && Mood(s.regs["b"], Idle, true, 0)
    requires SaidOnce(e, s.regs["a"], FIRST)
    ensures Poised(e, s) && !OnlyAgent(s, "a")
  {
    assert s.IsAgent("b");
  }

  /** The other agent has left. */
  lemma OtherLeaves(e: Env, s: State)
    requires e.cfg.Valid() && Reliable(e) && Scene(e, s) && Mood(s.regs["a"], Busy, true, 1)
    requires SaidOnce(e, s.regs["a"], FIRST)
    ensures var t := Step(e, s, START, Inbound(2, Bye));
            Poised(e, t) && OnlyAgent(t, "a")
  {
    hide SessionComplete;
    var u := LifeSign(s, "b");
    AliveIs(s, "b");
    var left := u.(order := ["a"], blockedNotified := u.blockedNotified - {"b"}).Touch();
    LeftAlone();
    EmitReaches(e, left, PeerLeft("b"), None);
    var t := Emit(e, left, PeerLeft("b"), None);
    NotComplete(e, t, "a");
  }

  lemma LeftAlone()
    ensures Without(["a", "b"], "b") == ["a"]
  {
    assert ["a", "b"][1..] == ["b"] && ["b"][1..] == [];
  }

  // ------------------------------------------------------------------ the corners

  function Ending(kind: string): (Clock, Input) {
    (START, Inbound(1, Say(ToAll(kind, "y"))))
  }

  lemma {:induction false} RunAppends(e: Env, s: State, run: seq<(Clock, Input)>, x: (Clock, Input))
    requires e.cfg.Valid()
    ensures Run(e, s, run + [x]) == Step(e, Run(e, s, run), x.0, x.1)
    decreases run
  {
    hide Step;
    if run == [] {
      assert ([x])[1..] == [];
    } else {
      RunAppends(e, Step(e, s, run[0].0, run[0].1), run[1..], x);
      assert (run + [x])[1..] == run[1..] + [x];
    }
  }

  /** The run reaches a good state, ready for any of the three endings. */
  lemma Ready(e: Env)
    requires Roomy(e.cfg) && Reliable(e)
    ensures var s := Run(e, Boot(e.cfg, [], START), Prelude());
            HubTheorems.Good(e, -1, s) && s.clock == START && Scene(e, s) && Poised(e, s) && !OnlyAgent(s, "a")
  {
    hide Run, Boot, HubTheorems.Good, Poised, Prelude;
    PreludeIsRun(e);
    AfterIsGood(e, 5);
    SaysLast(e);
    SceneIsPoised(e, After(e, 5));
  }

  lemma GoodParts(e: Env, s: State)
    requires HubTheorems.Good(e, -1, s)
    ensures Seated(s) && Minuted(s)
  {
    hide Minuted, LawFloor.Floor, LawRecords.Records, LawTold.Told, LawMailSteps.MailOk, Seated;
  }

  /** A mark outlives the session end that its `done` was heard with. */
  lemma MarkOutlivesEnd(e: Env)
    requires Roomy(e.cfg) && Reliable(e)
    ensures var s := Run(e, Boot(e.cfg, [], START), Prelude());
            var t := Run(e, Boot(e.cfg, [], START), Prelude() + [Ending("done")]);
            Ends(t) == Ends(s) + 1 && t.IsAgent("a") && t.regs["a"].finished
  {
    hide Run, Boot, HubTheorems.Good, Poised, Prelude, Step, Seated, Minuted, FlushIsDue, Heard, Ends, Scene;
    Ready(e);
    var s := Run(e, Boot(e.cfg, [], START), Prelude());
    GoodParts(e, s);
    LastSay(e, s, "done");
    RunAppends(e, Boot(e.cfg, [], START), Prelude(), Ending("done"));
    MarkAfterAnEnd(e, s, START, Ending("done").1);
    StepEnds(e, s, START, Ending("done").1);
  }

  /** A session ends although an agent has just said something that is no `done`. */
  lemma EndComesAstray(e: Env)
    requires Roomy(e.cfg) && Reliable(e)
    ensures var s := Run(e, Boot(e.cfg, [], START), Prelude());
            var t := Run(e, Boot(e.cfg, [], START), Prelude() + [Ending("chat")]);
            Strayed(t) == Strayed(s) + 1
  {
    hide Run, Boot, HubTheorems.Good, Poised, Prelude, Step, Seated, Minuted, FlushIsDue, Heard, Strayed, Scene;
    Ready(e);
    var s := Run(e, Boot(e.cfg, [], START), Prelude());
    GoodParts(e, s);
    LastSay(e, s, "chat");
    RunAppends(e, Boot(e.cfg, [], START), Prelude(), Ending("chat"));
    StepMinuted(e, s, START, Ending("chat").1);
  }

  /** One say ends the session twice, if the other agent has left before. */
  lemma EndComesTwice(e: Env)
    requires Roomy(e.cfg) && Reliable(e)
    ensures var s := Run(e, Boot(e.cfg, [], START), Prelude() + [(START, Inbound(2, Bye))]);
            var t := Run(e, Boot(e.cfg, [], START), Prelude() + [(START, Inbound(2, Bye))] + [Ending("done")]);
            Ends(t) == Ends(s) + 2
  {
    hide Run, Boot, HubTheorems.Good, Poised, Prelude, Step, Seated, Minuted, FlushIsDue, Heard, Ends;
    Ready(e);
    var s, bye := Run(e, Boot(e.cfg, [], START), Prelude()), (START, Inbound(2, Bye));
    PreludeIsRun(e);
    SaysLast(e);
    OtherLeaves(e, s);
    RunAppends(e, Boot(e.cfg, [], START), Prelude(), bye);
    RunAppends(e, Boot(e.cfg, [], START), Prelude() + [bye], Ending("done"));
    var t := Step(e, s, START, bye.1);
    HubTheorems.StepGood(e, -1, s, START, bye.1);
    GoodParts(e, t);
    LastSay(e, t, "done");
    StepEnds(e, t, START, Ending("done").1);
  }

  // ------------------------------------------------------------------ a stale holder

  /** The transport of one agent fails while a say of the other, which is marked, waits for
      it; before it is reaped, a new connection asks for its name. */
  function Stale(): seq<(Clock, Input)> {
    [(START, Inbound(1, Hello("a", AGENT, {}))), (START, Inbound(2, Hello("b", AGENT, {}))),
     (START, Inbound(1, Say(FIRST))), (START, Inbound(1, Say(SECOND))), (START, Lost(2))]
  }

  const RETURN := (START, Inbound(3, Hello("b", AGENT, {})))

  lemma StaleIsRun(e: Env)
    requires e.cfg.Valid()
    ensures var s := After(e, 3);
            Run(e, Boot(e.cfg, [], START), Stale())
            == Step(e, Step(e, s, START, Inbound(1, Say(SECOND))), START, Lost(2))
  {
    hide Step, Boot;
    var s0, run := Boot(e.cfg, [], START), Stale();
    assert After(e, 0) == s0;
    var s1, s2, s3 := After(e, 1), After(e, 2), After(e, 3);
    assert Run(e, s0, run) == Run(e, s1, run[1..]);
    assert Run(e, s1, run[1..]) == Run(e, s2, run[1..][1..]);
    assert Run(e, s2, run[1..][1..]) == Run(e, s3, run[1..][1..][1..]);
    var rest := run[1..][1..][1..];
    assert rest == [(START, Inbound(1, Say(SECOND))), (START, Lost(2))];
    var s4 := Step(e, s3, START, Inbound(1, Say(SECOND)));
    assert rest[1..] == [(START, Lost(2))] && rest[1..][1..] == [];
    assert Run(e, s3, rest) == Run(e, s4, rest[1..]);
    assert Run(e, s4, rest[1..]) == Run(e, Step(e, s4, START, Lost(2)), []);
  }

  lemma SaysAgain(e: Env)
    requires Roomy(e.cfg) && Reliable(e)
    ensures var s := Step(e, After(e, 3), START, Inbound(1, Say(SECOND)));
            && Scene(e, s) && Mood(s.regs["a"], Idle, true, 0)
            && Mood(s.regs["b"], Busy, false, 1) && WaitsFrom(s.regs["b"], "a")
  {
    hide Step, HandleSay, MaySpend, Repeats, Spend, Remember, LifeSign;
    SaysFirst(e);
    var s := After(e, 3);
    var u := SayStepMoves(e, s, 1, "a", "b", SECOND);
    SecondSay(e, u, u.regs["a"], FIRST, SECOND);
    SayMoves(e, u, "a", "b", SECOND);
  }

  lemma StaleIsGood(e: Env)
    requires e.cfg.Valid()
    ensures HubTheorems.Good(e, -1, Run(e, Boot(e.cfg, [], START), Stale()))
  {
    hide Run, Boot, HubTheorems.Good;
    StartIsGood(e);
    HubTheorems.RunGood(e, -1, Boot(e.cfg, [], START), Stale());
  }

  lemma ReturnWakes(e: Env, s: State)
    requires e.cfg.Valid() && Reliable(e) && Scene(e, s) && Mood(s.regs["a"], Idle, true, 0)
    requires Mood(s.regs["b"], Busy, false, 1) && WaitsFrom(s.regs["b"], "a")
    ensures ReapsAndWakes(e, Step(e, s, START, Lost(2)), RETURN.1)
  {
    hide Disconnect, Welcomed, Counts, WakeSlice, Names.ValidName, Names.MatchesName;
    NamesAreValid();
    AgentIsAKind();
    var t := Step(e, s, START, Lost(2));
    assert t == s.(gone := {2});
    OneWakeCounts(e.cfg, "b", t.regs["b"].box);
    assert t.IsAgent("a") && LeavingEnds(t, "b");
    var u := Disconnect(e, t, 2);
    ReapReaches(e, t, 2, "b");
    AgentWelcomed(e, u, 3, "b");
  }

  lemma ReapReaches(e: Env, s: State, c: ConnId, n: Name)
    requires Reliable(e) && Holds(s, c) && s.names[c] == n
    ensures Disconnect(e, s, c).gone == s.gone + {c} && n in Disconnect(e, s, c).regs
  {
    hide Without, Emit, SessionComplete;
    var left := s.(order := Without(s.order, n), blockedNotified := s.blockedNotified - {n}).Touch();
    EmitReaches(e, left, PeerLeft(n), None);
    var t := Emit(e, left, PeerLeft(n), None);
    EmitReaches(e, t, SessionDone(t.round), None);
  }

  lemma AgentWelcomed(e: Env, s: State, c: ConnId, n: Name)
    requires Reliable(e) && n in s.regs
    ensures Welcomed(e, s, c, n, AGENT, {}).gone == s.gone
  {
    hide Emit, Backlog, Tagged, SortById, OverhearAll;
    var s1 := Answer(e, Entering(e, s, c, n, AGENT, {}), c, Welcome);
    assert !s1.regs[n].IsObserver();
    EmitReaches(e, s1.Touch(), PeerJoined(n, AGENT), Some(n));
  }

  /** A hello that ends a session and leaves round one. */
  lemma EndLeavesRoundOne(e: Env)
    requires Roomy(e.cfg) && Reliable(e)
    ensures var s := Run(e, Boot(e.cfg, [], START), Stale());
            var t := Run(e, Boot(e.cfg, [], START), Stale() + [RETURN]);
            Ends(t) == Ends(s) + 1 && t.round == 1
  {
    hide Run, Boot, HubTheorems.Good, Step, Seated, Minuted, Ends, Scene, ReapsAndWakes, Stale, EndsTwice;
    var s := Run(e, Boot(e.cfg, [], START), Stale());
    StaleIsRun(e);
    SaysAgain(e);
    ReturnWakes(e, Step(e, After(e, 3), START, Inbound(1, Say(SECOND))));
    StaleIsGood(e);
    GoodParts(e, s);
    RunAppends(e, Boot(e.cfg, [], START), Stale(), RETURN);
    assert s.(clock := START) == s by { StaleClock(e); }
    RoundAfterAnEnd(e, s, START, RETURN.1);
    StepEnds(e, s, START, RETURN.1);
  }

  lemma StaleClock(e: Env)
    requires e.cfg.Valid()
    ensures Run(e, Boot(e.cfg, [], START), Stale()).clock == START
  {
    hide Boot, HandleSay;
    StaleIsRun(e);
  }
}
