/** The histories are the truth: what a mailbox says it handed to an agent is exactly what
    was sent to that agent since it joined, frame by frame, and the says a registration
    remembers are exactly those the hub accepted from that agent since. */
module LawTold {
  import opened Types
  import opened Mailbox
  import opened HubState
  import opened HubSpec
  import opened HubFrames
  import opened LawRoute
  import Bucket
  import Dedup

  /** The frames among them that went to `n`. */
  function SentTo(frames: seq<Note>, n: Name): seq<seq<Msg>> {
    if frames == [] then []
    else
      var x := frames[|frames| - 1];
      SentTo(frames[..|frames| - 1], n) + (if x.Delivered? && x.to == n then [x.msgs] else [])
  }

  /** The frames a mailbox handed over while its owner was an agent. */
  function HandedOver(frames: seq<Frame>): seq<seq<Msg>> {
    if frames == [] then []
    else
      var x := frames[|frames| - 1];
      HandedOver(frames[..|frames| - 1]) + (if x.toAgent then [x.msgs] else [])
  }

  /** The says of `n` among them, as the duplicate window sees them. */
  function SaidBy(sent: seq<Note>, n: Name): seq<Dedup.Said> {
    if sent == [] then []
    else
      var x := sent[|sent| - 1];
      SaidBy(sent[..|sent| - 1], n) + (if x.SayAccepted? && x.rec.sender == n then [SaidOf(x)] else [])
  }

  function SaidOf(x: Note): Dedup.Said
    requires x.SayAccepted?
  {
    Dedup.Said(x.at, x.rec.to, if x.rec.text.Words? then x.rec.text.words else "", x.rec.private)
  }

  datatype History = History(joinedAt: nat, frames: seq<Frame>, says: seq<Dedup.Said>)

  function HistoryOf(p: Part): History {
    History(p.joinedAt, p.box.frames, p.says)
  }

  function Histories(regs: map<Name, Part>): map<Name, History> {
    map n | n in regs :: HistoryOf(regs[n])
  }

  predicate Truthful(sent: seq<Note>, n: Name, h: History) {
    && h.joinedAt <= |sent|
    && SentTo(sent[h.joinedAt..], n) == HandedOver(h.frames)
    && SaidBy(sent[h.joinedAt..], n) == h.says
  }

  predicate AllTruthful(sent: seq<Note>, histories: map<Name, History>) {
    forall n :: n in histories ==> Truthful(sent, n, histories[n])
  }

  predicate Told(s: State) {
    AllTruthful(AgentLog(s.log), Histories(s.regs))
  }

  /** No agent is sent anything, and no history changes. */
  predicate Mum(s: State, t: State) {
    AgentLog(t.log) == AgentLog(s.log) && Histories(t.regs) == Histories(s.regs)
  }

  lemma MumTold(s: State, t: State)
    requires Told(s) && Mum(s, t)
    ensures Told(t)
  {
    hide AllTruthful, AgentLog, Histories;
  }

  lemma AgentLogGrows(log: seq<Note>, x: Note)
    ensures AgentLog(log + [x]) == AgentLog(log) + (if OfAgent(x) then [x] else [])
  {
    assert (log + [x])[..|log|] == log;
  }

  lemma PutHistories(regs: map<Name, Part>, n: Name, p: Part)
    requires n in regs && HistoryOf(p) == HistoryOf(regs[n])
    ensures Histories(regs[n := p]) == Histories(regs)
  {
  }

  lemma PutTold(s: State, n: Name, p: Part)
    requires Told(s) && n in s.regs && HistoryOf(p) == HistoryOf(s.regs[n])
    ensures Told(s.Put(n, p))
  {
    hide Told, AgentLog, Histories;
    PutHistories(s.regs, n, p);
    MumTold(s, s.Put(n, p));
  }

  /** Anything but the log and the registrations may change. */
  lemma SameTold(s: State, t: State)
    requires t.log == s.log && t.regs == s.regs
    ensures Told(t) == Told(s)
  {
    hide AllTruthful, AgentLog, Histories;
  }

  // ------------------------------------------------------------------ sending

  lemma EmitMum(e: Env, s: State, ev: Event, skip: Option<Name>)
    ensures Mum(s, Emit(e, s, ev, skip))
  {
    hide Emit, AgentLog, Histories;
    EmitFrame(e, s, ev, skip);
    AgentLogGrows(s.log, Happened(ev));
  }

  lemma AnswerMum(e: Env, s: State, c: ConnId, r: Reply)
    ensures Mum(s, Answer(e, s, c, r))
  {
    hide AgentLog, Histories;
    AgentLogGrows(s.log, Replied(c, r));
  }

  lemma ChecksMum(e: Env, s: State)
    ensures Mum(s, CheckRoundLimit(e, s)) && Mum(s, CheckSessionDone(e, s))
  {
    hide CheckRoundLimit, CheckSessionDone, AgentLog, SessionComplete;
    RoundLimitFrame(e, s);
    SessionDoneFrame(e, s);
    AgentLogGrows(s.log, Happened(RoundLimit(s.round)));
    AgentLogGrows(s.log + [Happened(RoundLimit(s.round))], Happened(FreezeWithoutObserver));
    AgentLogGrows(s.log, Happened(SessionDone(s.round)));
    assert s.log + [Happened(RoundLimit(s.round))] + [Happened(FreezeWithoutObserver)]
        == s.log + [Happened(RoundLimit(s.round)), Happened(FreezeWithoutObserver)];
    assert Histories(ClearFinished(s).regs) == Histories(s.regs);
  }

  lemma ChecksTold(e: Env, s: State)
    requires Told(s)
    ensures Told(CheckRoundLimit(e, s)) && Told(CheckSessionDone(e, s))
    ensures Told(CheckSessionDone(e, CheckRoundLimit(e, s)))
  {
    hide Told, Mum, CheckRoundLimit, CheckSessionDone;
    ChecksMum(e, s);
    MumTold(s, CheckRoundLimit(e, s));
    MumTold(s, CheckSessionDone(e, s));
    ChecksMum(e, CheckRoundLimit(e, s));
    MumTold(CheckRoundLimit(e, s), CheckSessionDone(e, CheckRoundLimit(e, s)));
  }

  lemma EmitTold(e: Env, s: State, ev: Event, skip: Option<Name>)
    requires Told(s)
    ensures Told(Emit(e, s, ev, skip))
  {
    hide Told, Mum, Emit;
    EmitMum(e, s, ev, skip);
    MumTold(s, Emit(e, s, ev, skip));
  }

  lemma AnswerTold(e: Env, s: State, c: ConnId, r: Reply)
    requires Told(s)
    ensures Told(Answer(e, s, c, r))
  {
    hide Told, Mum, Answer;
    AnswerMum(e, s, c, r);
    MumTold(s, Answer(e, s, c, r));
  }

  lemma SentGrows(sent: seq<Note>, x: Note, n: Name)
    ensures SentTo(sent + [x], n) == SentTo(sent, n) + (if x.Delivered? && x.to == n then [x.msgs] else [])
    ensures SaidBy(sent + [x], n) == SaidBy(sent, n) + (if x.SayAccepted? && x.rec.sender == n then [SaidOf(x)] else [])
  {
    assert (sent + [x])[..|sent|] == sent;
  }

  lemma HandedGrows(frames: seq<Frame>, f: Frame)
    ensures HandedOver(frames + [f]) == HandedOver(frames) + (if f.toAgent then [f.msgs] else [])
  {
    assert (frames + [f])[..|frames|] == frames;
  }

  lemma TruthGrows(sent: seq<Note>, x: Note, n: Name, h: History)
    requires Truthful(sent, n, h) && x.Delivered? && x.toAgent
    ensures x.to != n ==> Truthful(sent + [x], n, h)
    ensures x.to == n ==> Truthful(sent + [x], n, h.(frames := h.frames + [Frame(true, x.msgs)]))
  {
    hide SentTo, SaidBy, HandedOver;
    assert (sent + [x])[h.joinedAt..] == sent[h.joinedAt..] + [x];
    SentGrows(sent[h.joinedAt..], x, n);
    HandedGrows(h.frames, Frame(true, x.msgs));
  }

  /** A say of an agent extends that agent's history and no other. */
  lemma TruthSaid(sent: seq<Note>, x: Note, n: Name, h: History)
    requires Truthful(sent, n, h) && x.SayAccepted?
    ensures x.rec.sender != n ==> Truthful(sent + [x], n, h)
    ensures x.rec.sender == n ==> Truthful(sent + [x], n, h.(says := h.says + [SaidOf(x)]))
  {
    hide SentTo, SaidBy, HandedOver;
    assert (sent + [x])[h.joinedAt..] == sent[h.joinedAt..] + [x];
    SentGrows(sent[h.joinedAt..], x, n);
  }

  lemma TruthAside(sent: seq<Note>, n: Name, h: History, msgs: seq<Msg>)
    requires Truthful(sent, n, h)
    ensures Truthful(sent, n, h.(frames := h.frames + [Frame(false, msgs)]))
  {
    HandedGrows(h.frames, Frame(false, msgs));
  }

  /** A frame to an agent enters its mailbox's history; an observer's enters no agent's. */
  lemma DeliverTold(e: Env, s: State, n: Name, batch: seq<Msg>, drawn: bool, cause: Cause)
    requires n in s.regs && Told(s) && (drawn || s.regs[n].IsObserver())
    ensures Told(Deliver(e, s, n, batch, drawn, cause))
  {
    hide Deliver, SortById, AllTruthful, AgentLog, Histories;
    DeliverFrame(e, s, n, batch, drawn, cause);
    var t, x := Deliver(e, s, n, batch, drawn, cause),
      Delivered(n, !s.regs[n].IsObserver(), cause, s.round, SortById(batch));
    AgentLogGrows(s.log, x);
    DeliverHistory(e, s, n, batch, drawn, cause);
    HistoriesPut(s.regs, n, t.regs[n]);
    HistoriesGrow(AgentLog(s.log), Histories(s.regs), n, x, drawn);
    assert AgentLog(t.log) == if x.toAgent then AgentLog(s.log) + [x] else AgentLog(s.log);
    assert Histories(t.regs) == Histories(s.regs)[n := HistoryOf(t.regs[n])];
  }

  lemma HistoriesGrow(sent: seq<Note>, before: map<Name, History>, n: Name, x: Note, drawn: bool)
    requires AllTruthful(sent, before) && n in before && x.Delivered? && x.to == n && (drawn || !x.toAgent)
    ensures AllTruthful(if x.toAgent then sent + [x] else sent,
              if drawn then before[n :=
                before[n].(frames := before[n].frames + [Frame(x.toAgent, x.msgs)])] else before)
  {
    hide Truthful;
    forall m | m in before
      ensures Truthful(if x.toAgent then sent + [x] else sent, m,
                if drawn && m == n then before[n].(frames :=
                  before[n].frames + [Frame(x.toAgent, x.msgs)]) else before[m])
    {
      if x.toAgent {
        TruthGrows(sent, x, m, before[m]);
      } else {
        TruthAside(sent, m, before[m], x.msgs);
      }
    }
  }

  lemma HistoriesPut(regs: map<Name, Part>, n: Name, p: Part)
    requires n in regs
    ensures Histories(regs[n := p]) == Histories(regs)[n := HistoryOf(p)]
    ensures n in Histories(regs) && Histories(regs)[n] == HistoryOf(regs[n])
    ensures Histories(regs)[n := HistoryOf(regs[n])] == Histories(regs)
  {
  }

  lemma DeliverHistory(e: Env, s: State, n: Name, batch: seq<Msg>, drawn: bool, cause: Cause)
    requires n in s.regs
    ensures var t, p := Deliver(e, s, n, batch, drawn, cause), s.regs[n];
            && n in t.regs
            && HistoryOf(t.regs[n]) == (
                 if drawn then HistoryOf(p).(frames := p.box.frames + [Frame(!p.IsObserver(), SortById(batch))])
                 else HistoryOf(p))
  {
    hide SortById;
  }

  lemma FlushTold(e: Env, s: State, n: Name)
    requires n in s.regs && Told(s)
    ensures Told(FlushQueue(e, s, n))
  {
    hide SliceBatch, AfterSlice, WakeSlice, Deliver, CheckRoundLimit, CheckSessionDone, Counts, Told;
    var p := s.regs[n];
    if p.box.queue != [] && s.Connected(n) {
      var batch := SliceBatch(e.cfg, n, p.box);
      var q := p.(box := AfterSlice(e.cfg, n, p.box));
      SliceHistory(e.cfg, n, p);
      PutTold(s, n, q);
      var t := s.Put(n, q);
      SameTold(t, t.(round := t.round + 1));
      DeliverTold(e, t, n, batch, true, ByFlush);
      DeliverTold(e, t.(round := t.round + 1), n, batch, true, ByFlush);
      ChecksTold(e, Deliver(e, t, n, batch, true, ByFlush));
      ChecksTold(e, Deliver(e, t.(round := t.round + 1), n, batch, true, ByFlush));
    }
  }

  lemma SliceHistory(cfg: Config, n: Name, p: Part)
    ensures HistoryOf(p.(box := AfterSlice(cfg, n, p.box))) == HistoryOf(p)
  {
  }

  lemma BoxOpHistory(e: Env, p: Part, m: Msg)
    ensures HistoryOf(Woken(p, m)) == HistoryOf(p) && HistoryOf(Queued(e, p, m)) == HistoryOf(p)
    ensures HistoryOf(Buffered(e, p, m)) == HistoryOf(p)
  {
  }

  lemma SystemOneTold(e: Env, s: State, n: Name, text: Text)
    requires n in s.regs && Told(s)
    ensures Told(SystemOne(e, s, n, text))
  {
    hide Deliver, Woken, Queued, WakeBatch, Told;
    var p, m := s.regs[n], SystemNote(s, n, text);
    var t := s.(msgCounter := s.msgCounter + 1);
    SameTold(s, t);
    BoxOpHistory(e, p, m);
    PutTold(t, n, Woken(p, m));
    PutTold(t, n, Queued(e, p, m));
    DeliverTold(e, t.Put(n, Woken(p, m)), n, WakeBatch(p.box, m), true, ByNote(m.id));
  }

  lemma {:induction false} SystemTold(e: Env, s: State, names: seq<Name>, text: Text)
    requires Told(s)
    ensures Told(SystemMessage(e, s, names, text))
    decreases names
  {
    if names != [] {
      hide SystemOne, Told;
      if names[0] in s.regs {
        SystemOneTold(e, s, names[0], text);
      }
      SystemTold(e, if names[0] in s.regs then SystemOne(e, s, names[0], text) else s, names[1..], text);
    }
  }

  // ------------------------------------------------------------------ say

  lemma RouteOneTold(e: Env, r: Routing, sender: Name, m: Msg, q: Name)
    requires Told(r.state)
    ensures Told(RouteOne(e, r, sender, m, q).state)
  {
    if q in r.state.regs {
      hide Told, RouteOne, Taken;
      RouteOneIsPut(e, r, sender, m, q);
      TakenHistory(e, r.state, sender, m, q);
      PutTold(r.state, q, Taken(e, r.state, sender, m, q));
    }
  }

  lemma TakenHistory(e: Env, s: State, sender: Name, m: Msg, q: Name)
    requires q in s.regs
    ensures HistoryOf(Taken(e, s, sender, m, q)) == HistoryOf(s.regs[q])
  {
    hide Woken, Queued, Buffered;
    BoxOpHistory(e, s.regs[q], m.Tag(Addressed(q, m.to)));
  }

  lemma {:induction false} RouteAllTold(e: Env, r: Routing, sender: Name, m: Msg, names: seq<Name>)
    requires Told(r.state)
    ensures Told(RouteAll(e, r, sender, m, names).state)
    decreases names
  {
    hide RouteOne, Told;
    if names != [] {
      RouteOneTold(e, r, sender, m, names[0]);
      RouteAllTold(e, RouteOne(e, r, sender, m, names[0]), sender, m, names[1..]);
    }
  }

  lemma {:induction false} DeliverAllTold(e: Env, s: State, batches: seq<(Name, seq<Msg>)>, agents: bool, cause: Cause)
    requires Told(s) && AllOfKind(s, batches, agents)
    ensures Told(DeliverAll(e, s, batches, agents, cause))
    decreases batches
  {
    hide Deliver, Told, AllOfKind;
    if batches != [] {
      var b, rest := batches[0], batches[1..];
      KindCons(s, batches, agents);
      DeliverTold(e, s, b.0, b.1, agents, cause);
      DeliverKinds(e, s, b.0, b.1, agents, cause);
      var t := Deliver(e, s, b.0, b.1, agents, cause);
      KindKept(s, t, rest, agents);
      DeliverAllTold(e, t, rest, agents, cause);
    }
  }

  lemma RegisterHistories(e: Env, s: State, n: Name, f: SayFrame)
    requires n in s.regs
    ensures Histories(Register(e, s, n, f).regs) == Histories(s.regs)
    ensures AgentLog(Register(e, s, n, f).log) ==
              if s.regs[n].IsObserver() then AgentLog(s.log) else AgentLog(s.log) + [SayNote(s, n, f)]
  {
    hide AskedBy, RecordOf, NewMsg, Last, AgentLog;
    PutHistories(s.regs, n, s.regs[n].(lastSay := s.clock.mono));
    AgentLogGrows(s.log, SayNote(s, n, f));
  }

  /** An observer's say is nobody's history. */
  lemma ObserverTold(e: Env, s: State, n: Name, f: SayFrame)
    requires n in s.regs && s.regs[n].IsObserver() && Told(s)
    ensures Told(Register(e, s, n, f))
  {
    hide Register, AllTruthful, AgentLog, Histories;
    RegisterHistories(e, s, n, f);
  }

  /** An agent's say enters its history and the log together. */
  lemma KeptTold(e: Env, s: State, n: Name, f: SayFrame)
    requires n in s.regs && !s.regs[n].IsObserver() && Told(s)
    ensures n in Kept(e, s, n, f).regs && Told(Register(e, Kept(e, s, n, f), n, f))
  {
    hide Register, AgentLog, Histories, Checked, Truthful;
    ChargesTold(e, s, n, f);
    ChargedHas(e, s, n, f);
    var t := Checked(e, s, n, f);
    var u := Kept(e, s, n, f);
    RegisterHistories(e, u, n, f);
    var x := SayNote(u, n, f);
    KeptSays(e, s, n, f);
    HistoriesPut(t.regs, n, u.regs[n]);
    var before, h := Histories(t.regs), HistoryOf(t.regs[n]);
    forall m | m in before
      ensures Truthful(AgentLog(t.log) + [x], m, if m == n then h.(says := h.says + [SaidOf(x)]) else before[m])
    {
      TruthSaid(AgentLog(t.log), x, m, before[m]);
    }
    assert Histories(Register(e, u, n, f).regs) == before[n := h.(says := h.says + [SaidOf(x)])];
  }

  lemma KeptSays(e: Env, s: State, n: Name, f: SayFrame)
    requires n in s.regs && n in Checked(e, s, n, f).regs && n in Kept(e, s, n, f).regs
    ensures var t, u := Checked(e, s, n, f), Kept(e, s, n, f);
            && u == t.Put(n, u.regs[n]) && u.log == t.log && u.regs[n].IsObserver() == s.regs[n].IsObserver()
            && HistoryOf(u.regs[n]) == HistoryOf(t.regs[n]).(says := t.regs[n].says + [SaidOf(SayNote(u, n, f))])
            && SayNote(u, n, f).rec.sender == n
  {
    hide Dedup.AfterSeen, Bucket.AfterTake, AskedBy;
  }

  lemma AcceptTold(e: Env, s: State, n: Name, f: SayFrame)
    requires n in s.regs && Told(Register(e, s, n, f))
    ensures Told(Accept(e, s, n, f))
  {
    hide Register, RouteAll, DeliverAll, CheckRoundLimit, Answer, Told, Shown;
    hide Heads, Wakeful, Waiters, NewMsg, Carry, AllOfKind, SameFloor;
    var m := NewMsg(s, n, f);
    RouteAllTold(e, Routing(Register(e, s, n, f), [], [], 0), n, m, s.order);
    var r := SayIsSplit(e, s, n, f);
    var s1 := if r.woken != [] then r.state.(round := r.state.round + 1) else r.state;
    SameTold(r.state, s1);
    SplitKinds(s, s1, r, n, m);
    DeliverAllTold(e, s1, r.observers, false, BySay(m.id));
    DeliverAllLog(e, s1, r.observers, false, false, BySay(m.id));
    var s2 := DeliverAll(e, s1, r.observers, false, BySay(m.id));
    KindKept(s1, s2, r.woken, true);
    DeliverAllTold(e, s2, r.woken, true, BySay(m.id));
    var s3 := DeliverAll(e, s2, r.woken, true, BySay(m.id));
    ChecksTold(e, s3);
    var s4 := if r.woken != [] then CheckRoundLimit(e, s3) else s3;
    var ok := Ok(Some(m.id), r.queued, Some(f.seqNo));
    AnswerTold(e, s4, s.regs[n].client, ok);
    SameTold(Answer(e, s4, s.regs[n].client, ok), Answer(e, s4, s.regs[n].client, ok).Touch());
  }

  lemma SplitKinds(s: State, s1: State, r: Routing, n: Name, m: Msg)
    requires SameFloor(s, r.state) && s1 == r.state.(round := s1.round)
    requires r.observers == Shown(s, n, m, s.order) && Heads(r.woken) == Wakeful(s, n, m, s.order)
    ensures AllOfKind(s1, r.observers, false) && AllOfKind(s1, r.woken, true)
  {
    hide Shown, Wakeful, Heads, AllOfKind;
    SameLists(s, s1, n, m, s.order);
    ListsAreOfKind(s1, n, m, s.order);
    HeadsOfKind(s1, n, m, r.woken, s.order);
  }

  lemma RejectTold(e: Env, s: State, n: Name, f: SayFrame, code: ErrCode, retryAfter: Option<real>)
    requires n in s.regs && Told(s)
    ensures Told(Reject(e, s, n, f, code, retryAfter))
  {
    hide Told, Answer, Emit;
    AnswerTold(e, s, s.regs[n].client, Err(code, Some(f.seqNo), retryAfter, ""));
    EmitTold(e, Answer(e, s, s.regs[n].client, Err(code, Some(f.seqNo), retryAfter, "")), Rejected(n, code), None);
  }

  lemma ChargesTold(e: Env, s: State, n: Name, f: SayFrame)
    requires n in s.regs && Told(s)
    ensures Told(Spent(e, s, n)) && Told(Checked(e, s, n, f))
  {
    hide Told, Dedup.AfterSeen, Bucket.AfterTake;
    PutTold(s, n, Spend(e, s, s.regs[n]));
    var t := Spent(e, s, n);
    PutTold(t, n, Remember(e, t, t.regs[n], f));
  }

  lemma RouteSayTold(e: Env, s: State, n: Name, f: SayFrame)
    requires n in s.regs && e.cfg.ratePerSecond > 0.0 && Told(s)
    ensures Told(RouteSay(e, s, n, f).0)
  {
    hide Told, Accept, Reject, EarlyRefusal, MaySpend, Repeats, Spent, Checked, Kept, Register;
    ChargesTold(e, s, n, f);
    ChargedHas(e, s, n, f);
    var p := s.regs[n];
    var early := EarlyRefusal(s, p, f);
    if early.Some? {
      RejectTold(e, s, n, f, early.value, None);
    } else if p.IsObserver() {
      ObserverTold(e, s, n, f);
      AcceptTold(e, s, n, f);
    } else if !MaySpend(e, s, p) {
      RejectTold(e, Spent(e, s, n), n, f, RateLimited,
        Some(Bucket.Wait(e.cfg.rateBurst as real, e.cfg.ratePerSecond, p.bucket, s.clock.mono)));
    } else if Repeats(e, s, p, f) {
      RejectTold(e, Checked(e, s, n, f), n, f, Duplicate, None);
    } else {
      KeptTold(e, s, n, f);
      AcceptTold(e, Kept(e, s, n, f), n, f);
    }
  }

  lemma ChargedHas(e: Env, s: State, n: Name, f: SayFrame)
    requires n in s.regs
    ensures n in Spent(e, s, n).regs && n in Checked(e, s, n, f).regs && n in Kept(e, s, n, f).regs
  {
    hide Dedup.AfterSeen, Bucket.AfterTake;
  }

  lemma InferTold(e: Env, s: State, n: Name)
    requires n in s.regs && Told(s)
    ensures Told(InferIdle(e, s, n))
  {
    hide FlushQueue, Told;
    PutTold(s, n, SetIdle(s.regs[n]));
    FlushTold(e, s.Put(n, SetIdle(s.regs[n])), n);
  }

  lemma SayTold(e: Env, s: State, n: Name, f: SayFrame)
    requires n in s.regs && e.cfg.ratePerSecond > 0.0 && Told(s)
    ensures Told(HandleSay(e, s, n, f))
  {
    hide RouteSay, InferIdle, CheckSessionDone, Told;
    RouteSayTold(e, s, n, f);
    var s1 := RouteSay(e, s, n, f).0;
    if n in s1.regs {
      InferTold(e, s1, n);
      var s2 := InferIdle(e, s1, n);
      if n in s2.regs {
        PutTold(s2, n, s2.regs[n].(finished := true));
        PutTold(s2, n, s2.regs[n].(finished := false));
        ChecksTold(e, MarkFinished(s2, n, true));
      }
    }
  }

  // ------------------------------------------------------------------ state, cmd

  lemma StateTold(e: Env, s: State, n: Name, st: Activity, detail: Option<string>)
    requires n in s.regs && Told(s)
    ensures Told(HandleState(e, s, n, st, detail))
  {
    hide FlushQueue, FreshlyBlocked, Reporting, Told;
    var p := s.regs[n];
    var q := Reporting(s.clock.mono, p, st, detail);
    ReportingHistory(s.clock.mono, p, st, detail);
    var notified := if FreshlyBlocked(p, st, detail) then s.blockedNotified - {n} else s.blockedNotified;
    SameTold(s, s.(blockedNotified := notified));
    PutTold(s.(blockedNotified := notified), n, q);
    FlushTold(e, s.(blockedNotified := notified).Put(n, q), n);
  }

  lemma ReportingHistory(now: real, p: Part, st: Activity, detail: Option<string>)
    ensures HistoryOf(Reporting(now, p, st, detail)) == HistoryOf(p)
  {
  }

  lemma GoalTold(e: Env, s: State, text: string)
    requires Told(s)
    ensures Told(BufferGoal(e, s, text))
  {
    hide Told, AgentLog, GoalMsg;
    assert Histories(BufferGoal(e, s, text).regs) == Histories(s.regs);
    MumTold(s, BufferGoal(e, s, text));
  }

  lemma ExecuteTold(e: Env, s: State, cmd: Command)
    requires Told(s)
    ensures Told(Execute(e, s, cmd))
  {
    hide SystemMessage, Emit, ResumedLimit, BufferGoal, Told;
    match cmd
    case Freeze =>
      SameTold(s, s.(frozen := true));
      EmitTold(e, s.(frozen := true), FrozenBy(s.round), None);
    case Resume(n) =>
      var t := s.(maxRounds := ResumedLimit(e, s, n), frozen := false);
      SameTold(s, t);
      EmitTold(e, t, Resumed(t.round, t.maxRounds), None);
    case Reset =>
      SameTold(s, s.(round := 0, frozen := false));
      EmitTold(e, s.(round := 0, frozen := false), WasReset(s.round), None);
    case Mute =>
      SameTold(s, s.(muted := true));
      EmitTold(e, s.(muted := true), MutedOn, None);
      var t := Emit(e, s.(muted := true), MutedOn, None);
      SystemTold(e, t, t.order, MuteNote(true));
    case Unmute =>
      SameTold(s, s.(muted := false));
      EmitTold(e, s.(muted := false), MutedOff, None);
      var t := Emit(e, s.(muted := false), MutedOff, None);
      SystemTold(e, t, t.order, MuteNote(false));
    case SetGoal(text) =>
      SameTold(s, s.(goal := text));
      EmitTold(e, s.(goal := text), GoalSet(text), None);
      GoalTold(e, Emit(e, s.(goal := text), GoalSet(text), None), text);
  }

  lemma CmdTold(e: Env, s: State, n: Name, cmd: Command, seqNo: Option<int>)
    requires n in s.regs && Told(s)
    ensures Told(HandleCmd(e, s, n, cmd, seqNo))
  {
    hide Execute, Answer, Told;
    ExecuteTold(e, s, cmd);
    var t := Execute(e, s, cmd);
    SameTold(t, t.Touch());
    AnswerTold(e, s, s.regs[n].client, Err(Forbidden, seqNo, None, ""));
    AnswerTold(e, t.Touch(), s.regs[n].client, Ok(None, 0, seqNo));
  }

  // ------------------------------------------------------------------ joining and leaving

  lemma DisconnectTold(e: Env, s: State, c: ConnId)
    requires Told(s)
    ensures Told(Disconnect(e, s, c))
  {
    hide Without, Emit, CheckSessionDone, Told;
    var t := s;
    if Holds(s, c) {
      var n := s.names[c];
      var left := s.(order := Without(s.order, n), blockedNotified := s.blockedNotified - {n}).Touch();
      SameTold(s, left);
      EmitTold(e, left, PeerLeft(n), None);
      ChecksTold(e, Emit(e, left, PeerLeft(n), None));
      t := CheckSessionDone(e, Emit(e, left, PeerLeft(n), None));
    }
    SameTold(t, t.(gone := t.gone + {c}));
  }

  /** A newcomer starts with an empty history at the present end of the log. */
  lemma EnteringTold(e: Env, s: State, c: ConnId, n: Name, kind: string, caps: set<string>)
    requires Told(s)
    ensures Told(Entering(e, s, c, n, kind, caps))
  {
    hide AgentLog, HandedOver, SentTo, SaidBy, Truthful;
    var t := Entering(e, s, c, n, kind, caps);
    var before, after := Histories(s.regs), Histories(t.regs);
    forall m | m in after
      ensures Truthful(AgentLog(t.log), m, after[m])
    {
      if m != n || n in s.regs {
        assert m in before && after[m] == before[m];
      } else {
        TruthStarts(AgentLog(s.log), n);
      }
    }
  }

  lemma TruthStarts(sent: seq<Note>, n: Name)
    ensures Truthful(sent, n, History(|sent|, [], []))
  {
  }

  lemma {:induction false} OverhearAllFrames(cfg: Config, b: Box, msgs: seq<Msg>)
    ensures OverhearAll(cfg, b, msgs).frames == b.frames
    decreases msgs
  {
    if msgs != [] {
      OverhearAllFrames(cfg, Overhear(cfg, b, msgs[0].Tag(Overheard)), msgs[1..]);
    }
  }

  lemma BacklogTold(e: Env, s: State, n: Name)
    requires n in s.regs && Told(s)
    ensures Told(GiveBacklog(e, s, n))
  {
    hide Deliver, OverhearAll, Backlog, Tagged, Told;
    var p := s.regs[n];
    var backlog := Backlog(e.cfg, s.recent, n, p.IsObserver());
    if p.IsObserver() {
      DeliverTold(e, s, n, Tagged(backlog, n), false, ByBacklog);
    } else {
      OverhearAllFrames(e.cfg, p.box, backlog);
      PutTold(s, n, p.(box := OverhearAll(e.cfg, p.box, backlog)));
    }
  }

  lemma WelcomedTold(e: Env, s: State, c: ConnId, n: Name, kind: string, caps: set<string>)
    requires Told(s)
    ensures Told(Welcomed(e, s, c, n, kind, caps))
  {
    hide GiveBacklog, Emit, Entering, Answer, Told;
    var s0 := Entering(e, s, c, n, kind, caps);
    EnteringTold(e, s, c, n, kind, caps);
    EnteringHas(e, s, c, n, kind, caps);
    AnswerTold(e, s0, c, Welcome);
    AnswerSteady(e, s0, c, Welcome);
    var s1 := Answer(e, s0, c, Welcome);
    BacklogTold(e, s1, n);
    var s2 := if n !in s.regs || s1.regs[n].IsObserver() then GiveBacklog(e, s1, n) else s1;
    SameTold(s2, s2.Touch());
    EmitTold(e, s2.Touch(), PeerJoined(n, kind), Some(n));
  }

  lemma HelloTold(e: Env, s: State, c: ConnId, n: Name, kind: string, caps: set<string>)
    requires Told(s)
    ensures Told(HandleHello(e, s, c, n, kind, caps))
  {
    hide Disconnect, Welcomed, FlushQueue, Answer, Told;
    if c in s.names {
      AnswerTold(e, s, c, Err(Malformed, None, None, ""));
    } else {
      var t := if s.Live(n) && !s.Connected(n) then Disconnect(e, s, s.regs[n].client) else s;
      if s.Live(n) && !s.Connected(n) {
        DisconnectTold(e, s, s.regs[n].client);
      }
      if t.Live(n) {
        var r := Err(NameTaken, None, None, Suggestion(n, t.regs.Keys));
        AnswerTold(e, t, c, r);
        var u := Answer(e, t, c, r);
        SameTold(u, u.(gone := u.gone + {c}));
      } else {
        WelcomedTold(e, t, c, n, kind, caps);
        var u := Welcomed(e, t, c, n, kind, caps);
        if n in u.regs {
          FlushTold(e, u, n);
        }
      }
    }
  }

  // ------------------------------------------------------------------ watchdog

  lemma ExpireTold(e: Env, s: State)
    requires Told(s)
    ensures Told(ExpireDead(e, s))
  {
    hide AgentLog, Truthful;
    var before, after := Histories(s.regs), Histories(ExpireDead(e, s).regs);
    forall m | m in after
      ensures Truthful(AgentLog(s.log), m, after[m])
    {
      assert m in before && after[m] == before[m];
    }
  }

  lemma WatchOneTold(e: Env, s: State, n: Name)
    requires n in s.regs && Told(s)
    ensures Told(WatchOne(e, s, n))
  {
    hide Told, Disconnect, PingIfSilent, AssumeIdle, NotifyBlocked;
    DisconnectTold(e, s, s.regs[n].client);
    PingTold(e, s, n);
    var t := PingIfSilent(e, s, n);
    if n in t.regs {
      AssumeTold(e, t, n);
      var u := AssumeIdle(e, t, n);
      if n in u.regs {
        BlockedTold(e, u, n);
      }
    }
  }

  lemma PingTold(e: Env, s: State, n: Name)
    requires n in s.regs && Told(s)
    ensures Told(PingIfSilent(e, s, n))
  {
    hide Told, Answer;
    var t := s.Put(n, s.regs[n].(awaitingPong := true, pongDeadline := s.clock.mono + e.cfg.pongTimeout));
    PutTold(s, n, s.regs[n].(awaitingPong := true, pongDeadline := s.clock.mono + e.cfg.pongTimeout));
    AnswerTold(e, t, s.regs[n].client, Ping);
  }

  lemma AssumeTold(e: Env, s: State, n: Name)
    requires n in s.regs && Told(s)
    ensures Told(AssumeIdle(e, s, n))
  {
    hide Told, Emit, FlushQueue;
    PutTold(s, n, SetIdle(s.regs[n]));
    var t := s.Put(n, SetIdle(s.regs[n]));
    EmitTold(e, t, Stalled(Some(n)), None);
    EmitFrame(e, t, Stalled(Some(n)), None);
    FlushTold(e, Emit(e, t, Stalled(Some(n)), None), n);
  }

  lemma BlockedTold(e: Env, s: State, n: Name)
    requires n in s.regs && Told(s)
    ensures Told(NotifyBlocked(e, s, n))
  {
    hide Told, Emit;
    SameTold(s, s.(blockedNotified := s.blockedNotified + {n}));
    EmitTold(e, s.(blockedNotified := s.blockedNotified + {n}), BlockedFor(n), None);
  }

  lemma {:induction false} WatchAllTold(e: Env, s: State, names: seq<Name>)
    requires Told(s)
    ensures Told(WatchAll(e, s, names))
    decreases names
  {
    hide WatchOne, Told;
    if names != [] {
      if names[0] in s.regs {
        WatchOneTold(e, s, names[0]);
      }
      WatchAllTold(e, if names[0] in s.regs then WatchOne(e, s, names[0]) else s, names[1..]);
    }
  }

  lemma TickTold(e: Env, s: State)
    requires Told(s)
    ensures Told(WatchdogTick(e, s))
  {
    hide Told, WatchAll, ExpireDead, Emit, QuorumDue, AllQuiet, Expected;
    ExpireTold(e, s);
    var t := ExpireDead(e, s);
    WatchAllTold(e, t, t.order);
    var u := WatchAll(e, t, t.order);
    SameTold(u, u.(quorumLatched := true));
    EmitTold(e, u.(quorumLatched := true), QuorumReached(Expected(u)), None);
    var v := CheckQuorum(e, u);
    SameTold(v, v.(stallLatched := true));
    EmitTold(e, v.(stallLatched := true), Stalled(None), None);
  }

  // ------------------------------------------------------------------ steps

  lemma DispatchTold(e: Env, s: State, c: ConnId, n: Name, f: Request)
    requires e.cfg.Valid() && n in s.regs && Told(s)
    ensures Told(Dispatch(e, s, c, n, f))
  {
    hide Told, HandleSay, HandleState, HandleCmd, Disconnect, Answer;
    match f
    case Say(say) => SayTold(e, s, n, say);
    case StateReport(st, detail) => StateTold(e, s, n, st, detail);
    case Cmd(cmd, q) => CmdTold(e, s, n, cmd, q);
    case RosterQuery => AnswerTold(e, s, s.regs[n].client, RosterReply);
    case Bye => DisconnectTold(e, s, c);
    case _ =>
  }

  lemma HandleTold(e: Env, s: State, c: ConnId, f: Request)
    requires e.cfg.Valid() && Told(s)
    ensures Told(Handle(e, s, c, f))
  {
    hide Told, HandleHello, Dispatch, Answer;
    AnswerTold(e, s, c, Err(Malformed, SeqOf(f), None, ""));
    AnswerTold(e, s, c, Err(Malformed, None, None, ""));
    if WellFormed(f) && f.Hello? {
      HelloTold(e, s, c, f.name, f.kind, f.caps);
    } else if WellFormed(f) && c in s.names && s.Live(s.names[c]) {
      var n := s.names[c];
      PutTold(s, n, s.regs[n].(lastRx := s.clock.mono, awaitingPong := false));
      DispatchTold(e, LifeSign(s, n), c, n, f);
    }
  }

  /** Every step of the hub keeps the histories true. */
  lemma StepTold(e: Env, s: State, clock: Clock, i: Input)
    requires e.cfg.Valid() && Told(s)
    ensures Told(Step(e, s, clock, i))
  {
    hide Told, Handle, Disconnect, WatchdogTick;
    var t := s.(clock := clock);
    SameTold(s, t);
    match i
    case Inbound(c, f) => HandleTold(e, t, c, f);
    case Closed(c) => DisconnectTold(e, t, c);
    case Lost(c) => SameTold(t, t.(gone := t.gone + {c}));
    case Tick => TickTold(e, t);
  }

  lemma BootTold(cfg: Config, archive: seq<DayRec>, clock: Clock)
    ensures Told(Boot(cfg, archive, clock))
  {
    hide RecentMsgs, Last, MaxId;
  }
}
