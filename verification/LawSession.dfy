/** The end of a session, told of the log: whenever it was announced, the last say of every
    agent then on the floor was a `done`, or was one before the say that was being handled; no
    step announces it more than once, but for one corner of a say; who is marked after it; and
    nothing is done to a registration that is away. */
module LawSession {
  import opened Types
  import opened Mailbox
  import opened Slicing
  import opened HubState
  import opened HubSpec
  import opened HubFrames
  import opened LawRoute
  import LawMailSteps
  import Dedup
  import Bucket

  // ------------------------------------------------------------------ what the log tells

  predicate IsDone(x: Note) {
    x.Happened? && x.event.SessionDone?
  }

  predicate Listed(x: Note) {
    x.SayAccepted? || (x.Happened? && (x.event.PeerJoined? || x.event.PeerLeft? || x.event.SessionDone?))
  }

  /** Says, comings, goings and session ends, in order. */
  function Chron(log: seq<Note>): seq<Note> {
    if log == [] then []
    else Chron(log[..|log| - 1]) + (if Listed(log[|log| - 1]) then [log[|log| - 1]] else [])
  }

  function Sessions(ch: seq<Note>): nat {
    if ch == [] then 0 else Sessions(ch[..|ch| - 1]) + (if IsDone(ch[|ch| - 1]) then 1 else 0)
  }

  /** Who is on the floor, and as what. */
  function Present(ch: seq<Note>): map<Name, string> {
    if ch == [] then map[]
    else
      var x, before := ch[|ch| - 1], Present(ch[..|ch| - 1]);
      if x.Happened? && x.event.PeerJoined? then before[x.event.name := x.event.kind]
      else if x.Happened? && x.event.PeerLeft? then before - {x.event.name}
      else before
  }

  /** The last say accepted from `n` since it joined is a `done`. */
  predicate Declared(ch: seq<Note>, n: Name) {
    ch != [] &&
      var x := ch[|ch| - 1];
      if x.SayAccepted? && x.rec.sender == n then x.rec.kind == "done"
      else if x.Happened? && x.event.PeerJoined? && x.event.name == n then false
      else Declared(ch[..|ch| - 1], n)
  }

  /** There are agents on the floor, and all have declared themselves done. */
  predicate AllDeclared(ch: seq<Note>) {
    && (exists n :: n in Present(ch) && Present(ch)[n] != OBSERVER)
    && (forall n :: n in Present(ch) && Present(ch)[n] != OBSERVER ==> Declared(ch, n))
  }

  /** All have, or had before the say that comes last. */
  predicate Due(ch: seq<Note>) {
    AllDeclared(ch) || (ch != [] && ch[|ch| - 1].SayAccepted? && AllDeclared(ch[..|ch| - 1]))
  }

  /** Every session end of the log was due when it was announced. */
  predicate RightlyDone(ch: seq<Note>) {
    ch == [] || (RightlyDone(ch[..|ch| - 1]) && (IsDone(ch[|ch| - 1]) ==> Due(ch[..|ch| - 1])))
  }

  /** How many session ends were announced with an agent whose last say is no `done`. */
  function Strays(ch: seq<Note>): nat {
    if ch == [] then 0
    else
      var init := ch[..|ch| - 1];
      Strays(init) + (if IsDone(ch[|ch| - 1]) && !AllDeclared(init) then 1 else 0)
  }

  lemma ChronGrows(log: seq<Note>, x: Note)
    ensures Chron(log + [x]) == if Listed(x) then Chron(log) + [x] else Chron(log)
  {
    assert (log + [x])[..|log|] == log;
  }

  lemma ListGrows(ch: seq<Note>, x: Note)
    ensures Sessions(ch + [x]) == Sessions(ch) + (if IsDone(x) then 1 else 0)
    ensures RightlyDone(ch + [x]) <==> RightlyDone(ch) && (IsDone(x) ==> Due(ch))
    ensures Strays(ch + [x]) == Strays(ch) + (if IsDone(x) && !AllDeclared(ch) then 1 else 0)
    ensures Present(ch + [x]) ==
              if x.Happened? && x.event.PeerJoined? then Present(ch)[x.event.name := x.event.kind]
              else if x.Happened? && x.event.PeerLeft? then Present(ch) - {x.event.name}
              else Present(ch)
    ensures forall n :: Declared(ch + [x], n) ==
              if x.SayAccepted? && x.rec.sender == n then x.rec.kind == "done"
              else if x.Happened? && x.event.PeerJoined? && x.event.name == n then false
              else Declared(ch, n)
  {
    hide AllDeclared, Due;
    assert (ch + [x])[..|ch|] == ch;
  }

  // ------------------------------------------------------------------ what the state holds

  datatype Attendee = Attendee(kind: string, finished: bool)

  function AttendeeOf(p: Part): Attendee {
    Attendee(p.kind, p.finished)
  }

  function Roll(s: State): map<Name, Attendee> {
    map n | n in s.order && n in s.regs :: AttendeeOf(s.regs[n])
  }

  function Kinds(roll: map<Name, Attendee>): map<Name, string> {
    map n | n in roll :: roll[n].kind
  }

  /** The registrations that are away. */
  function Graves(s: State): map<Name, Part> {
    map n | n in s.regs && n !in s.order :: s.regs[n]
  }

  predicate Unfinished(roll: map<Name, Attendee>) {
    forall n :: n in roll && roll[n].kind != OBSERVER ==> !roll[n].finished
  }

  /** There are agents, and all are marked. */
  predicate AllMarked(roll: map<Name, Attendee>) {
    && (exists n :: n in roll && roll[n].kind != OBSERVER)
    && (forall n :: n in roll && roll[n].kind != OBSERVER ==> roll[n].finished)
  }

  /** Log and floor agree: who is there, and that whoever is marked has declared it. */
  predicate Agrees(ch: seq<Note>, roll: map<Name, Attendee>) {
    && RightlyDone(ch)
    && Present(ch) == Kinds(roll)
    && (forall n :: n in roll && roll[n].kind != OBSERVER && roll[n].finished ==> Declared(ch, n))
  }

  predicate Minuted(s: State) {
    Agrees(Chron(s.log), Roll(s))
  }

  /** `n` has declared it, or had before its say that comes last. */
  predicate Vouched(ch: seq<Note>, n: Name) {
    Declared(ch, n)
    || (ch != [] && ch[|ch| - 1].SayAccepted? && ch[|ch| - 1].rec.sender == n && Declared(ch[..|ch| - 1], n))
  }

  /** The same while a say is handled: its sender may keep its mark a little longer. */
  predicate Roughly(ch: seq<Note>, roll: map<Name, Attendee>) {
    && RightlyDone(ch)
    && Present(ch) == Kinds(roll)
    && (forall n :: n in roll && roll[n].kind != OBSERVER && roll[n].finished ==> Vouched(ch, n))
  }

  function Ends(s: State): nat {
    Sessions(Chron(s.log))
  }

  function Strayed(s: State): nat {
    Strays(Chron(s.log))
  }

  // ------------------------------------------------------------------ transitions

  /** Nothing happens to the floor, to those away, or to the list. */
  predicate Plain(s: State, t: State) {
    t.order == s.order && Roll(t) == Roll(s) && Graves(t) == Graves(s) && Chron(t.log) == Chron(s.log)
  }

  /** One session end more. */
  predicate Ended(ch: seq<Note>, ch': seq<Note>) {
    |ch'| == |ch| + 1 && ch'[..|ch|] == ch && IsDone(ch'[|ch|])
  }

  /** A stretch in which nobody joins, leaves or says anything: at most one session ends, which
      takes all marks and leaves none; if none does, all marks stay. */
  ghost predicate Flow(s: State, t: State) {
    && t.order == s.order && Graves(t) == Graves(s) && Kinds(Roll(t)) == Kinds(Roll(s))
    && (if Ends(t) == Ends(s) then Roll(t) == Roll(s) && Chron(t.log) == Chron(s.log)
        else
          && Ends(t) == Ends(s) + 1 && Ended(Chron(s.log), Chron(t.log))
          && AllMarked(Roll(s)) && Unfinished(Roll(t)))
    && (Minuted(s) ==> Minuted(t) && Strayed(t) == Strayed(s))
    && (Roughly(Chron(s.log), Roll(s)) ==> Roughly(Chron(t.log), Roll(t)))
  }

  lemma PlainFlow(s: State, t: State)
    requires Plain(s, t)
    ensures Flow(s, t) && Ends(t) == Ends(s)
  {
    hide Roll, Graves, Chron, Agrees, Roughly, Sessions, Strays, Kinds;
  }

  lemma FlowTrans(s: State, t: State, u: State)
    requires Flow(s, t) && Flow(t, u)
    ensures Flow(s, u)
  {
    hide Roll, Graves, Chron, Agrees, Roughly, Sessions, Strays, Kinds, Unfinished, AllMarked, Ended;
    MarkedOrNot(Roll(t));
  }

  lemma MarkedOrNot(roll: map<Name, Attendee>)
    ensures !AllMarked(roll) || !Unfinished(roll)
  {
  }

  lemma PlainTrans(s: State, t: State, u: State)
    requires Plain(s, t) && Plain(t, u)
    ensures Plain(s, u)
  {
    hide Roll, Graves, Chron;
  }

  lemma SelfFlow(s: State)
    ensures Flow(s, s) && Plain(s, s)
  {
    hide Roll, Graves, Chron, Agrees, Roughly, Sessions, Strays, Kinds;
  }

  /** Whatever the floor does not look at. */
  lemma SamePlain(s: State, t: State)
    requires t.order == s.order && t.regs == s.regs && t.log == s.log
    ensures Plain(s, t)
  {
    hide Chron;
  }

  lemma PutPlain(s: State, n: Name, p: Part)
    requires n in s.order && n in s.regs && AttendeeOf(p) == AttendeeOf(s.regs[n])
    ensures Plain(s, s.Put(n, p))
  {
    hide Chron;
  }

  predicate Unlisted(ev: Event) {
    !ev.SessionDone? && !ev.PeerJoined? && !ev.PeerLeft?
  }

  lemma EmitPlain(e: Env, s: State, ev: Event, skip: Option<Name>)
    requires Unlisted(ev)
    ensures Plain(s, Emit(e, s, ev, skip))
  {
    hide Emit, Chron, Roll, Graves;
    EmitFrame(e, s, ev, skip);
    ChronGrows(s.log, Happened(ev));
    SameRoll(s, Emit(e, s, ev, skip));
  }

  lemma SameRoll(s: State, t: State)
    requires t.order == s.order && t.regs == s.regs
    ensures Roll(t) == Roll(s) && Graves(t) == Graves(s)
  {
  }

  lemma AnswerPlain(e: Env, s: State, c: ConnId, r: Reply)
    ensures Plain(s, Answer(e, s, c, r))
  {
    hide Chron, Roll, Graves;
    ChronGrows(s.log, Replied(c, r));
    SameRoll(s, Answer(e, s, c, r));
  }

  lemma LimitPlain(e: Env, s: State)
    ensures Plain(s, CheckRoundLimit(e, s))
  {
    hide CheckRoundLimit, Chron, Roll, Graves;
    RoundLimitFrame(e, s);
    var t := CheckRoundLimit(e, s);
    SameRoll(s, t);
    ChronGrows(s.log, Happened(RoundLimit(s.round)));
    ChronGrows(s.log + [Happened(RoundLimit(s.round))], Happened(FreezeWithoutObserver));
    assert s.log + [Happened(RoundLimit(s.round))] + [Happened(FreezeWithoutObserver)]
        == s.log + [Happened(RoundLimit(s.round)), Happened(FreezeWithoutObserver)];
  }

  lemma DeliverPlain(e: Env, s: State, n: Name, batch: seq<Msg>, drawn: bool, cause: Cause)
    requires n in s.order && n in s.regs
    ensures Plain(s, Deliver(e, s, n, batch, drawn, cause))
  {
    hide Deliver, Chron, Roll, Graves, SortById, Hand;
    DeliverFrame(e, s, n, batch, drawn, cause);
    var t := Deliver(e, s, n, batch, drawn, cause);
    ChronGrows(s.log, Delivered(n, !s.regs[n].IsObserver(), cause, s.round, SortById(batch)));
    PutPlain(s, n, t.regs[n]);
    SameRoll(s.Put(n, t.regs[n]), t);
  }

  // ------------------------------------------------------------------ the check

  /** What the check sees, on the roll. */
  lemma CompleteRoll(s: State)
    requires SessionComplete(s)
    ensures AllMarked(Roll(s))
  {
    var n :| n in s.order && s.IsAgent(n);
    assert n in Roll(s);
  }

  lemma ClearedRoll(s: State, t: State)
    requires t.regs == ClearFinished(s).regs && t.order == s.order
    ensures Unfinished(Roll(t)) && Kinds(Roll(t)) == Kinds(Roll(s)) && Graves(t) == Graves(s)
  {
    assert forall n :: n in s.regs && n !in s.order ==> !s.IsAgent(n);
  }

  lemma AgreesDue(ch: seq<Note>, roll: map<Name, Attendee>)
    requires Agrees(ch, roll) && AllMarked(roll)
    ensures AllDeclared(ch) && Due(ch)
  {
    hide Declared, RightlyDone;
    var n :| n in roll && roll[n].kind != OBSERVER;
    assert Kinds(roll)[n] == roll[n].kind;
    forall m | m in Present(ch) && Present(ch)[m] != OBSERVER
      ensures Declared(ch, m)
    {
      assert Kinds(roll)[m] == roll[m].kind;
    }
  }

  lemma RoughlyDue(ch: seq<Note>, roll: map<Name, Attendee>)
    requires Roughly(ch, roll) && AllMarked(roll)
    ensures Due(ch)
  {
    hide Declared, RightlyDone, Present;
    var n :| n in roll && roll[n].kind != OBSERVER;
    assert Kinds(roll)[n] == roll[n].kind;
    forall m | m in Present(ch) && Present(ch)[m] != OBSERVER
      ensures Vouched(ch, m)
    {
      assert Kinds(roll)[m] == roll[m].kind;
    }
    if !AllDeclared(ch) {
      var q :| q in Present(ch) && Present(ch)[q] != OBSERVER && !Declared(ch, q);
      var init, x := ch[..|ch| - 1], ch[|ch| - 1];
      assert init + [x] == ch;
      ListGrows(init, x);
    }
  }

  lemma AgreesCleared(ch: seq<Note>, roll: map<Name, Attendee>, roll': map<Name, Attendee>, x: Note)
    requires RightlyDone(ch) && Present(ch) == Kinds(roll) && IsDone(x) && Due(ch)
    requires Kinds(roll') == Kinds(roll) && Unfinished(roll')
    ensures Agrees(ch + [x], roll') && Roughly(ch + [x], roll')
  {
    hide Declared, RightlyDone, AllDeclared, Present, Due, Vouched;
    ListGrows(ch, x);
  }

  lemma CheckFlow(e: Env, s: State)
    ensures Flow(s, CheckSessionDone(e, s))
    ensures Ends(CheckSessionDone(e, s)) == Ends(s) + (if SessionComplete(s) then 1 else 0)
  {
    hide CheckSessionDone, Chron, Roll, Graves, Declared, Unfinished, ClearFinished, AllMarked;
    hide RightlyDone, Present, Due, AllDeclared, Vouched, Kinds, Sessions, Strays;
    SessionDoneFrame(e, s);
    if SessionComplete(s) {
      var t, x := CheckSessionDone(e, s), Happened(SessionDone(s.round));
      ChronGrows(s.log, x);
      ListGrows(Chron(s.log), x);
      CompleteRoll(s);
      ClearedRoll(s, t);
      if Minuted(s) {
        AgreesDue(Chron(s.log), Roll(s));
      }
      if Roughly(Chron(s.log), Roll(s)) {
        RoughlyDue(Chron(s.log), Roll(s));
      }
      if Due(Chron(s.log)) && RightlyDone(Chron(s.log)) && Present(Chron(s.log)) == Kinds(Roll(s)) {
        AgreesCleared(Chron(s.log), Roll(s), Roll(t), x);
      }
    } else {
      SelfFlow(s);
    }
  }

  lemma FlushFlow(e: Env, s: State, n: Name)
    requires n in s.order && n in s.regs
    ensures Flow(s, FlushQueue(e, s, n))
  {
    hide SliceBatch, AfterSlice, WakeSlice, Deliver, CheckRoundLimit, CheckSessionDone, Counts, Flow, Plain;
    var p := s.regs[n];
    if p.box.queue != [] && s.Connected(n) {
      var batch := SliceBatch(e.cfg, n, p.box);
      var q := p.(box := AfterSlice(e.cfg, n, p.box));
      PutPlain(s, n, q);
      var t := s.Put(n, q);
      SamePlain(t, t.(round := t.round + 1));
      PlainTrans(s, t, t.(round := t.round + 1));
      SliceFlow(e, s, t, n, batch);
      SliceFlow(e, s, t.(round := t.round + 1), n, batch);
    } else {
      SelfFlow(s);
    }
  }

  lemma SliceFlow(e: Env, s: State, t: State, n: Name, batch: seq<Msg>)
    requires Plain(s, t) && n in t.order && n in t.regs
    ensures var u := Deliver(e, t, n, batch, true, ByFlush);
            Flow(s, CheckSessionDone(e, u)) && Flow(s, CheckSessionDone(e, CheckRoundLimit(e, u)))
  {
    hide Deliver, CheckRoundLimit, CheckSessionDone, Flow, Plain;
    var u := Deliver(e, t, n, batch, true, ByFlush);
    DeliverPlain(e, t, n, batch, true, ByFlush);
    PlainTrans(s, t, u);
    PlainFlow(s, u);
    CheckFlow(e, u);
    FlowTrans(s, u, CheckSessionDone(e, u));
    LimitPlain(e, u);
    PlainTrans(s, u, CheckRoundLimit(e, u));
    PlainFlow(s, CheckRoundLimit(e, u));
    CheckFlow(e, CheckRoundLimit(e, u));
    FlowTrans(s, CheckRoundLimit(e, u), CheckSessionDone(e, CheckRoundLimit(e, u)));
  }

  // ------------------------------------------------------------------ notes, goal, commands

  lemma BoxOpAttendee(e: Env, p: Part, m: Msg)
    ensures AttendeeOf(Woken(p, m)) == AttendeeOf(p) && AttendeeOf(Queued(e, p, m)) == AttendeeOf(p)
    ensures AttendeeOf(Buffered(e, p, m)) == AttendeeOf(p)
  {
  }

  lemma SystemOnePlain(e: Env, s: State, n: Name, text: Text)
    requires n in s.order && n in s.regs
    ensures Plain(s, SystemOne(e, s, n, text))
  {
    hide Deliver, Woken, Queued, WakeBatch, Plain;
    var p, m := s.regs[n], SystemNote(s, n, text);
    var t := s.(msgCounter := s.msgCounter + 1);
    SelfFlow(s);
    SamePlain(s, t);
    BoxOpAttendee(e, p, m);
    PutPlain(t, n, Woken(p, m));
    PutPlain(t, n, Queued(e, p, m));
    PlainTrans(s, t, t.Put(n, Woken(p, m)));
    PlainTrans(s, t, t.Put(n, Queued(e, p, m)));
    DeliverPlain(e, t.Put(n, Woken(p, m)), n, WakeBatch(p.box, m), true, ByNote(m.id));
    PlainTrans(s, t.Put(n, Woken(p, m)), Deliver(e, t.Put(n, Woken(p, m)), n, WakeBatch(p.box, m), true, ByNote(m.id)));
  }

  lemma PlainOrder(s: State, t: State)
    requires Plain(s, t)
    ensures t.order == s.order
  {
  }

  lemma {:induction false} SystemPlain(e: Env, s: State, names: seq<Name>, text: Text)
    requires forall n :: n in names ==> n in s.order
    ensures Plain(s, SystemMessage(e, s, names, text))
    decreases names
  {
    hide SystemOne, Plain;
    SelfFlow(s);
    if names != [] {
      var t := if names[0] in s.regs then SystemOne(e, s, names[0], text) else s;
      if names[0] in s.regs {
        SystemOnePlain(e, s, names[0], text);
      }
      PlainOrder(s, t);
      SystemPlain(e, t, names[1..], text);
      PlainTrans(s, t, SystemMessage(e, t, names[1..], text));
    }
  }

  lemma GoalPlain(e: Env, s: State, text: string)
    ensures Plain(s, BufferGoal(e, s, text))
  {
    hide Buffered, GoalMsg, Chron;
    forall n | n in s.regs
      ensures AttendeeOf(Buffered(e, s.regs[n], GoalMsg(s, text))) == AttendeeOf(s.regs[n])
    {
      BoxOpAttendee(e, s.regs[n], GoalMsg(s, text));
    }
    assert forall n :: n !in s.order ==> !s.IsAgent(n);
  }

  lemma ExecutePlain(e: Env, s: State, cmd: Command)
    ensures Plain(s, Execute(e, s, cmd))
  {
    hide SystemMessage, Emit, ResumedLimit, BufferGoal, Plain;
    match cmd
    case Freeze => TwoPlain(e, s, s.(frozen := true), FrozenBy(s.round));
    case Resume(n) =>
      var t := s.(maxRounds := ResumedLimit(e, s, n), frozen := false);
      TwoPlain(e, s, t, Resumed(t.round, t.maxRounds));
    case Reset => TwoPlain(e, s, s.(round := 0, frozen := false), WasReset(s.round));
    case Mute => MutePlain(e, s, true);
    case Unmute => MutePlain(e, s, false);
    case SetGoal(text) =>
      var t := Emit(e, s.(goal := text), GoalSet(text), None);
      TwoPlain(e, s, s.(goal := text), GoalSet(text));
      GoalPlain(e, t, text);
      PlainTrans(s, t, BufferGoal(e, t, text));
  }

  lemma TwoPlain(e: Env, s: State, t: State, ev: Event)
    requires t.order == s.order && t.regs == s.regs && t.log == s.log && Unlisted(ev)
    ensures Plain(s, Emit(e, t, ev, None))
  {
    hide Emit, Plain;
    SamePlain(s, t);
    EmitPlain(e, t, ev, None);
    PlainTrans(s, t, Emit(e, t, ev, None));
  }

  lemma MutePlain(e: Env, s: State, on: bool)
    ensures var t := Emit(e, s.(muted := on), if on then MutedOn else MutedOff, None);
            Plain(s, SystemMessage(e, t, t.order, MuteNote(on)))
  {
    hide Emit, Plain, SystemMessage;
    var t := Emit(e, s.(muted := on), if on then MutedOn else MutedOff, None);
    TwoPlain(e, s, s.(muted := on), if on then MutedOn else MutedOff);
    SystemPlain(e, t, t.order, MuteNote(on));
    PlainTrans(s, t, SystemMessage(e, t, t.order, MuteNote(on)));
  }

  lemma CmdPlain(e: Env, s: State, n: Name, cmd: Command, seqNo: Option<int>)
    requires n in s.regs
    ensures Plain(s, HandleCmd(e, s, n, cmd, seqNo))
  {
    hide Execute, Answer, Plain;
    var client := s.regs[n].client;
    AnswerPlain(e, s, client, Err(Forbidden, seqNo, None, ""));
    ExecutePlain(e, s, cmd);
    var t := Execute(e, s, cmd);
    SamePlain(t, t.Touch());
    AnswerPlain(e, t.Touch(), client, Ok(None, 0, seqNo));
    PlainTrans(s, t, t.Touch());
    PlainTrans(s, t.Touch(), Answer(e, t.Touch(), client, Ok(None, 0, seqNo)));
  }

  lemma StateFlow(e: Env, s: State, n: Name, st: Activity, detail: Option<string>)
    requires n in s.order && n in s.regs
    ensures Flow(s, HandleState(e, s, n, st, detail))
  {
    hide FlushQueue, FreshlyBlocked, Reporting, Flow, Plain, Roll, Graves, Chron;
    var p := s.regs[n];
    var notified := if FreshlyBlocked(p, st, detail) then s.blockedNotified - {n} else s.blockedNotified;
    var t := s.(blockedNotified := notified);
    var u := t.Put(n, Reporting(s.clock.mono, p, st, detail));
    SamePlain(s, t);
    ReportingAttendee(s.clock.mono, p, st, detail);
    PutPlain(t, n, Reporting(s.clock.mono, p, st, detail));
    PlainTrans(s, t, u);
    PlainFlow(s, u);
    FlushFlow(e, u, n);
    FlowTrans(s, u, FlushQueue(e, u, n));
  }

  lemma ReportingAttendee(now: real, p: Part, st: Activity, detail: Option<string>)
    ensures AttendeeOf(Reporting(now, p, st, detail)) == AttendeeOf(p)
  {
  }

  // ------------------------------------------------------------------ a say is routed

  predicate AllOf(names: seq<Name>, order: seq<Name>) {
    forall n :: n in names ==> n in order
  }

  lemma TakenAttendee(e: Env, s: State, sender: Name, m: Msg, q: Name)
    requires q in s.regs
    ensures AttendeeOf(Taken(e, s, sender, m, q)) == AttendeeOf(s.regs[q])
  {
    hide Woken, Queued, Buffered;
    BoxOpAttendee(e, s.regs[q], m.Tag(Addressed(q, m.to)));
  }

  lemma RouteOnePlain(e: Env, r: Routing, sender: Name, m: Msg, q: Name)
    requires q in r.state.order
    ensures Plain(r.state, RouteOne(e, r, sender, m, q).state)
    ensures sender in r.state.regs ==> var t := RouteOne(e, r, sender, m, q).state;
              sender in t.regs && t.regs[sender] == r.state.regs[sender]
  {
    SelfFlow(r.state);
    if q in r.state.regs {
      hide RouteOne, Taken, Plain;
      RouteOneIsPut(e, r, sender, m, q);
      TakenAttendee(e, r.state, sender, m, q);
      PutPlain(r.state, q, Taken(e, r.state, sender, m, q));
      TakenSender(e, r.state, m, sender);
    }
  }

  lemma TakenSender(e: Env, s: State, m: Msg, sender: Name)
    ensures sender in s.regs ==> Taken(e, s, sender, m, sender) == s.regs[sender]
  {
  }

  lemma {:induction false} RouteAllPlain(e: Env, r: Routing, sender: Name, m: Msg, names: seq<Name>)
    requires AllOf(names, r.state.order)
    ensures Plain(r.state, RouteAll(e, r, sender, m, names).state)
    ensures sender in r.state.regs ==> var t := RouteAll(e, r, sender, m, names).state;
              sender in t.regs && t.regs[sender] == r.state.regs[sender]
    decreases names
  {
    hide RouteOne, Plain;
    SelfFlow(r.state);
    if names != [] {
      var t := RouteOne(e, r, sender, m, names[0]);
      RouteOnePlain(e, r, sender, m, names[0]);
      PlainOrder(r.state, t.state);
      RouteAllPlain(e, t, sender, m, names[1..]);
      PlainTrans(r.state, t.state, RouteAll(e, t, sender, m, names[1..]).state);
    }
  }

  lemma {:induction false} DeliverAllPlain(e: Env, s: State, batches: seq<(Name, seq<Msg>)>, drawn: bool,
      cause: Cause, n: Name)
    requires forall i :: 0 <= i < |batches| ==> batches[i].0 in s.order && batches[i].0 != n
    ensures var t := DeliverAll(e, s, batches, drawn, cause);
            && Plain(s, t)
            && (n in s.regs ==> n in t.regs && t.regs[n] == s.regs[n])
    decreases batches
  {
    hide Deliver, Plain;
    SelfFlow(s);
    if batches != [] {
      var b := batches[0];
      var t := if b.0 in s.regs then Deliver(e, s, b.0, b.1, drawn, cause) else s;
      if b.0 in s.regs {
        DeliverPlain(e, s, b.0, b.1, drawn, cause);
        DeliverOthers(e, s, b.0, b.1, drawn, cause);
      }
      PlainOrder(s, t);
      DeliverAllPlain(e, t, batches[1..], drawn, cause, n);
      PlainTrans(s, t, DeliverAll(e, t, batches[1..], drawn, cause));
    }
  }

  lemma DeliverOthers(e: Env, s: State, n: Name, batch: seq<Msg>, drawn: bool, cause: Cause)
    requires n in s.regs
    ensures var t := Deliver(e, s, n, batch, drawn, cause);
            forall m :: m in s.regs && m != n ==> m in t.regs && t.regs[m] == s.regs[m]
  {
    hide SortById, Hand;
  }

  /** Nobody is sent its own say, and nobody but those on the floor is sent any. */
  lemma {:induction false} ListsAreLive(s: State, sender: Name, m: Msg, names: seq<Name>)
    ensures forall b :: b in Shown(s, sender, m, names) ==> b.0 in names && b.0 != sender
    ensures forall q :: q in Wakeful(s, sender, m, names) ==> q in names && q != sender
    decreases names
  {
    if names != [] {
      ListsAreLive(s, sender, m, names[1..]);
    }
  }

  lemma HeadsAreLive(batches: seq<(Name, seq<Msg>)>, s: State, sender: Name, m: Msg)
    requires Heads(batches) == Wakeful(s, sender, m, s.order)
    ensures forall i :: 0 <= i < |batches| ==> batches[i].0 in s.order && batches[i].0 != sender
  {
    ListsAreLive(s, sender, m, s.order);
    forall i | 0 <= i < |batches|
      ensures batches[i].0 in Wakeful(s, sender, m, s.order)
    {
      assert Heads(batches)[i] == batches[i].0;
    }
  }

  /** What a participant keeps while its own say is routed. */
  predicate Undisturbed(p: Part, q: Part) {
    && q.state == p.state && q.box == p.box && q.finished == p.finished && q.kind == p.kind && q.caps == p.caps
    && q.client == p.client
  }

  /** A stretch of a say in which nothing ends: the floor stays, `said` goes on the list. */
  predicate Routes(s: State, t: State, n: Name, said: seq<Note>) {
    && t.order == s.order && Roll(t) == Roll(s) && Graves(t) == Graves(s)
    && Chron(t.log) == Chron(s.log) + said
    && (n in s.regs ==> n in t.regs && Undisturbed(s.regs[n], t.regs[n]))
  }

  lemma RoutesTrans(s: State, t: State, u: State, n: Name, said: seq<Note>, said': seq<Note>)
    requires Routes(s, t, n, said) && Routes(t, u, n, said')
    ensures Routes(s, u, n, said + said')
  {
    hide Roll, Graves, Chron;
    assert Chron(s.log) + said + said' == Chron(s.log) + (said + said');
  }

  lemma PlainRoutes(s: State, t: State, n: Name)
    requires Plain(s, t) && (n in s.regs ==> n in t.regs && Undisturbed(s.regs[n], t.regs[n]))
    ensures Routes(s, t, n, [])
  {
    hide Roll, Graves, Chron, Undisturbed;
    assert Chron(s.log) + [] == Chron(s.log);
  }

  /** Recording a say changes nothing but the list. */
  lemma RegisterRoutes(e: Env, s: State, n: Name, f: SayFrame)
    requires n in s.regs && n in s.order
    ensures Routes(s, Register(e, s, n, f), n, [SayNote(s, n, f)])
  {
    hide Register, Chron, Roll, Graves, SayNote;
    LawMailSteps.RegisterFrame(e, s, n, f);
    RegisterTraces(e, s, n, f);
    var t, x := Register(e, s, n, f), SayNote(s, n, f);
    ChronGrows(s.log, x);
    PutPlain(s, n, s.regs[n].(lastSay := s.clock.mono));
    SameRoll(s.Put(n, s.regs[n].(lastSay := s.clock.mono)), t);
  }

  lemma RegisterTraces(e: Env, s: State, n: Name, f: SayFrame)
    requires n in s.regs
    ensures Register(e, s, n, f).log == s.log + [SayNote(s, n, f)] && SayNote(s, n, f).SayAccepted?
    ensures SayNote(s, n, f).rec.sender == n && SayNote(s, n, f).rec.kind == f.kind
  {
    hide AskedBy, Last;
  }

  lemma AcceptRoutes(e: Env, s: State, n: Name, f: SayFrame)
    requires n in s.regs && n in s.order
    ensures Routes(s, Accept(e, s, n, f), n, [SayNote(s, n, f)])
  {
    hide Register, Accept, Routes, SayNote;
    RegisterRoutes(e, s, n, f);
    AcceptRest(e, s, n, f);
    RoutesTrans(s, Register(e, s, n, f), Accept(e, s, n, f), n, [SayNote(s, n, f)], []);
    assert [SayNote(s, n, f)] + [] == [SayNote(s, n, f)];
  }

  lemma AcceptRest(e: Env, s: State, n: Name, f: SayFrame)
    requires n in s.regs && n in s.order
    ensures Routes(Register(e, s, n, f), Accept(e, s, n, f), n, [])
  {
    hide Register, RouteAll, DeliverAll, CheckRoundLimit, Answer, Plain, Routes;
    hide NewMsg, LawRoute.Shown, Wakeful, Waiters, Heads, Carry, SameFloor;
    var m := NewMsg(s, n, f);
    var s0 := Register(e, s, n, f);
    var r := SayIsSplit(e, s, n, f);
    RegisterKinds(e, s, n, f);
    RouteAllPlain(e, Routing(s0, [], [], 0), n, m, s.order);
    PlainOrder(s0, r.state);
    var s1 := if r.woken != [] then r.state.(round := r.state.round + 1) else r.state;
    SamePlain(r.state, s1);
    PlainTrans(s0, r.state, s1);
    ListsAreLive(s, n, m, s.order);
    HeadsAreLive(r.woken, s, n, m);
    DeliverAllPlain(e, s1, r.observers, false, BySay(m.id), n);
    var s2 := DeliverAll(e, s1, r.observers, false, BySay(m.id));
    PlainTrans(s0, s1, s2);
    PlainOrder(s1, s2);
    DeliverAllPlain(e, s2, r.woken, true, BySay(m.id), n);
    var s3 := DeliverAll(e, s2, r.woken, true, BySay(m.id));
    PlainTrans(s0, s2, s3);
    AcceptTail(e, s0, s3, r.woken != [], s.regs[n].client, Ok(Some(m.id), r.queued, Some(f.seqNo)), n);
  }

  lemma AcceptTail(e: Env, s0: State, s3: State, limit: bool, c: ConnId, r: Reply, n: Name)
    requires Plain(s0, s3) && n in s0.regs && n in s3.regs && s3.regs[n] == s0.regs[n]
    ensures var s4 := if limit then CheckRoundLimit(e, s3) else s3;
            Routes(s0, Answer(e, s4, c, r).Touch(), n, [])
  {
    hide CheckRoundLimit, Answer, Plain, Routes;
    var s4 := if limit then CheckRoundLimit(e, s3) else s3;
    RoundLimitFrame(e, s3);
    LimitPlain(e, s3);
    SelfFlow(s3);
    PlainTrans(s0, s3, s4);
    var s5 := Answer(e, s4, c, r);
    AnswerPlain(e, s4, c, r);
    PlainTrans(s0, s4, s5);
    SamePlain(s5, s5.Touch());
    PlainTrans(s0, s5, s5.Touch());
    AnswerRegs(e, s4, c, r);
    PlainRoutes(s0, s5.Touch(), n);
  }

  lemma AnswerRegs(e: Env, s: State, c: ConnId, r: Reply)
    ensures Answer(e, s, c, r).regs == s.regs && Answer(e, s, c, r).Touch().regs == s.regs
  {
  }

  lemma RejectRoutes(e: Env, s: State, n: Name, f: SayFrame, code: ErrCode, retryAfter: Option<real>)
    requires n in s.regs
    ensures Routes(s, Reject(e, s, n, f, code, retryAfter), n, [])
  {
    hide Emit, Answer, Plain, Routes;
    var r := Err(code, Some(f.seqNo), retryAfter, "");
    var t := Answer(e, s, s.regs[n].client, r);
    AnswerPlain(e, s, s.regs[n].client, r);
    AnswerRegs(e, s, s.regs[n].client, r);
    EmitPlain(e, t, Rejected(n, code), None);
    EmitFrame(e, t, Rejected(n, code), None);
    PlainTrans(s, t, Emit(e, t, Rejected(n, code), None));
    PlainRoutes(s, Reject(e, s, n, f, code, retryAfter), n);
  }

  lemma QuietTrans(s: State, t: State, u: State, n: Name)
    requires Routes(s, t, n, []) && Routes(t, u, n, [])
    ensures Routes(s, u, n, [])
  {
    hide Routes;
    var none: seq<Note> := [];
    RoutesTrans(s, t, u, n, none, none);
    assert none + none == none;
  }

  lemma PutRoutes(s: State, n: Name, p: Part)
    requires n in s.order && n in s.regs && Undisturbed(s.regs[n], p)
    ensures Routes(s, s.Put(n, p), n, [])
  {
    hide Plain, Routes;
    PutPlain(s, n, p);
    PlainRoutes(s, s.Put(n, p), n);
  }

  lemma ChargesRoute(e: Env, s: State, n: Name, f: SayFrame)
    requires n in s.regs && n in s.order
    ensures n in Spent(e, s, n).regs && Routes(s, Spent(e, s, n), n, [])
    ensures n in Checked(e, s, n, f).regs && Routes(s, Checked(e, s, n, f), n, [])
    ensures n in Kept(e, s, n, f).regs && Routes(s, Kept(e, s, n, f), n, []) && Kept(e, s, n, f).order == s.order
  {
    hide Routes, Dedup.AfterSeen, Bucket.AfterTake;
    PutRoutes(s, n, Spend(e, s, s.regs[n]));
    var t := Spent(e, s, n);
    PutRoutes(t, n, Remember(e, t, t.regs[n], f));
    var u := Checked(e, s, n, f);
    QuietTrans(s, t, u, n);
    PutRoutes(u, n, u.regs[n].(says := u.regs[n].says + [Dedup.Said(s.clock.mono, f.to, f.text, f.private)]));
    QuietTrans(s, u, Kept(e, s, n, f), n);
  }

  /** The note of an agent's say does not depend on what the agent was charged. */
  lemma KeptNote(e: Env, s: State, n: Name, f: SayFrame)
    requires n in s.regs && !s.regs[n].IsObserver()
    ensures SayNote(Kept(e, s, n, f), n, f) == SayNote(s, n, f)
  {
    hide Dedup.AfterSeen, Bucket.AfterTake;
  }

  lemma RouteRoutes(e: Env, s: State, n: Name, f: SayFrame)
    requires n in s.regs && n in s.order && e.cfg.ratePerSecond > 0.0
    ensures var (t, accepted) := RouteSay(e, s, n, f);
            Routes(s, t, n, if accepted then [SayNote(s, n, f)] else [])
  {
    hide Routes, Accept, Reject, EarlyRefusal, MaySpend, Repeats, Spent, Checked, Kept, SayNote;
    var p := s.regs[n];
    var early := EarlyRefusal(s, p, f);
    ChargesRoute(e, s, n, f);
    if early.Some? {
      RejectRoutes(e, s, n, f, early.value, None);
    } else if p.IsObserver() {
      AcceptRoutes(e, s, n, f);
    } else if !MaySpend(e, s, p) {
      var wait := Some(Bucket.Wait(e.cfg.rateBurst as real, e.cfg.ratePerSecond, p.bucket, s.clock.mono));
      RejectRoutes(e, Spent(e, s, n), n, f, RateLimited, wait);
      QuietTrans(s, Spent(e, s, n), Reject(e, Spent(e, s, n), n, f, RateLimited, wait), n);
    } else if Repeats(e, s, p, f) {
      RejectRoutes(e, Checked(e, s, n, f), n, f, Duplicate, None);
      QuietTrans(s, Checked(e, s, n, f), Reject(e, Checked(e, s, n, f), n, f, Duplicate, None), n);
    } else {
      var u := Kept(e, s, n, f);
      AcceptRoutes(e, u, n, f);
      KeptNote(e, s, n, f);
      RoutesTrans(s, u, Accept(e, u, n, f), n, [], [SayNote(s, n, f)]);
      assert [] + [SayNote(s, n, f)] == [SayNote(s, n, f)];
    }
  }

  // ------------------------------------------------------------------ whom a say makes wait

  /** Queues are as they were, but for those made to wait. */
  predicate Fills(s: State, t: State, sender: Name, m: Msg, names: seq<Name>, x: Name) {
    x in s.regs ==>
      && x in t.regs
      && (t.regs[x].box.queue == [] <==> s.regs[x].box.queue == [] && !(x in names && MadeToWait(s, sender, m, x)))
  }

  lemma TakenQueue(e: Env, s: State, sender: Name, m: Msg, q: Name)
    requires q in s.regs
    ensures Taken(e, s, sender, m, q).box.queue == []
            <==> s.regs[q].box.queue == [] && !MadeToWait(s, sender, m, q)
  {
    hide Woken, Queued, Buffered, Wakeable, Addressed;
    BoxOpSeats(e, s.regs[q], m.Tag(Addressed(q, m.to)));
  }

  lemma RouteOneFills(e: Env, r: Routing, sender: Name, m: Msg, q: Name, x: Name)
    ensures Fills(r.state, RouteOne(e, r, sender, m, q).state, sender, m, [q], x)
  {
    hide Taken, MadeToWait;
    if q in r.state.regs {
      hide RouteOne;
      RouteOneIsPut(e, r, sender, m, q);
      TakenQueue(e, r.state, sender, m, q);
    } else {
      assert !MadeToWait(r.state, sender, m, q) by { AbsentDoesNotWait(r.state, sender, m, q); }
    }
  }

  lemma AbsentDoesNotWait(s: State, sender: Name, m: Msg, q: Name)
    requires q !in s.regs
    ensures !MadeToWait(s, sender, m, q)
  {
  }

  lemma {:induction false} RouteAllFills(e: Env, r: Routing, sender: Name, m: Msg, names: seq<Name>, x: Name)
    ensures Fills(r.state, RouteAll(e, r, sender, m, names).state, sender, m, names, x)
    decreases names
  {
    hide RouteOne, MadeToWait;
    if names != [] {
      var r1 := RouteOne(e, r, sender, m, names[0]);
      RouteOneFills(e, r, sender, m, names[0], x);
      RouteOneKinds(e, r, sender, m, names[0]);
      RouteAllFills(e, r1, sender, m, names[1..], x);
      SameWait(r.state, r1.state, sender, m, x);
      assert x in names <==> x in [names[0]] || x in names[1..];
    }
  }

  lemma SameWait(s: State, t: State, sender: Name, m: Msg, x: Name)
    requires SameFloor(s, t)
    ensures MadeToWait(t, sender, m, x) == MadeToWait(s, sender, m, x)
  {
  }

  /** Handing over leaves every queue. */
  lemma {:induction false} DeliverAllQueues(e: Env, s: State, batches: seq<(Name, seq<Msg>)>, drawn: bool, cause: Cause,
      x: Name)
    requires x in s.regs
    ensures var t := DeliverAll(e, s, batches, drawn, cause);
            x in t.regs && t.regs[x].box.queue == s.regs[x].box.queue
    decreases batches
  {
    hide Deliver, SortById;
    if batches != [] {
      var b := batches[0];
      var t := if b.0 in s.regs then Deliver(e, s, b.0, b.1, drawn, cause) else s;
      if b.0 in s.regs {
        DeliverFrame(e, s, b.0, b.1, drawn, cause);
      }
      DeliverAllQueues(e, t, batches[1..], drawn, cause, x);
    }
  }

  lemma AcceptFills(e: Env, s: State, n: Name, f: SayFrame, x: Name)
    requires n in s.regs && x in s.regs
    ensures Fills(s, Accept(e, s, n, f), n, NewMsg(s, n, f), s.order, x)
  {
    hide Register, RouteAll, Accept, NewMsg, MadeToWait;
    var m := NewMsg(s, n, f);
    var s0 := Register(e, s, n, f);
    RegisterKinds(e, s, n, f);
    assert SameFloor(s, s0);
    SameWait(s, s0, n, m, x);
    RouteAllFills(e, Routing(s0, [], [], 0), n, m, s.order, x);
    RoutingKeepsQueues(e, s, n, f, x);
  }

  /** What follows the routing of a say only hands out. */
  lemma RoutingKeepsQueues(e: Env, s: State, n: Name, f: SayFrame, x: Name)
    requires n in s.regs
    ensures var r := RouteAll(e, Routing(Register(e, s, n, f), [], [], 0), n, NewMsg(s, n, f), s.order);
            var t := Accept(e, s, n, f);
            x in r.state.regs ==> x in t.regs && t.regs[x].box.queue == r.state.regs[x].box.queue
  {
    hide Register, RouteAll, DeliverAll, Accept, NewMsg;
    AcceptRegs(e, s, n, f);
    var m := NewMsg(s, n, f);
    var r := RouteAll(e, Routing(Register(e, s, n, f), [], [], 0), n, m, s.order);
    if x in r.state.regs {
      var s1 := if r.woken != [] then r.state.(round := r.state.round + 1) else r.state;
      DeliverAllQueues(e, s1, r.observers, false, BySay(m.id), x);
      DeliverAllQueues(e, DeliverAll(e, s1, r.observers, false, BySay(m.id)), r.woken, true, BySay(m.id), x);
    }
  }

  /** Nothing waits for any agent but `n`, and all but `n` are marked. */
  predicate OthersDone(s: State, n: Name) {
    forall m :: m in s.order && s.IsAgent(m) && m != n ==> s.regs[m].finished && s.regs[m].box.queue == []
  }

  /** So it is, and a say of `n` to `to` makes none of them wait. */
  predicate OthersRest(s: State, n: Name, to: Name) {
    forall m :: m in s.order && s.IsAgent(m) && m != n ==>
      && s.regs[m].finished && s.regs[m].box.queue == []
      && (Addressed(m, to) == Overheard || Wakeable(s, m))
  }

  lemma OneRests(e: Env, s: State, n: Name, f: SayFrame, t: State, m: Name)
    requires n in s.regs && Routes(s, t, n, [SayNote(s, n, f)]) && m != n
    requires Fills(s, t, n, NewMsg(s, n, f), s.order, m)
    ensures s.IsAgent(m) <==> t.IsAgent(m)
    ensures s.IsAgent(m) ==>
      (t.regs[m].finished && t.regs[m].box.queue == []
       <==> s.regs[m].finished && s.regs[m].box.queue == [] && (Addressed(m, f.to) == Overheard || Wakeable(s, m)))
  {
    hide Roll, Graves, Chron, Addressed, Wakeable;
    AgentsByRoll(s, m);
    AgentsByRoll(t, m);
  }

  /** The others after an accepted say of an agent, read off the state before it. */
  lemma RestIsDone(e: Env, s: State, n: Name, f: SayFrame)
    requires n in s.regs && n in s.order && !s.regs[n].IsObserver() && e.cfg.ratePerSecond > 0.0
    requires RouteSay(e, s, n, f).1
    ensures OthersDone(RouteSay(e, s, n, f).0, n) <==> OthersRest(s, n, f.to)
  {
    hide Routes, Fills, Accept, Kept, EarlyRefusal, MaySpend, Repeats, Addressed, Wakeable, SayNote, NewMsg;
    var t := RouteSay(e, s, n, f).0;
    RouteRoutes(e, s, n, f);
    assert t.order == s.order by { RoutesOrder(s, t, n, [SayNote(s, n, f)]); }
    forall m | m != n
      ensures s.IsAgent(m) <==> t.IsAgent(m)
      ensures s.IsAgent(m) ==>
        (t.regs[m].finished && t.regs[m].box.queue == []
         <==> s.regs[m].finished && s.regs[m].box.queue == [] && (Addressed(m, f.to) == Overheard || Wakeable(s, m)))
    {
      KeptFills(e, s, n, f, m);
      OneRests(e, s, n, f, t, m);
    }
  }

  lemma RoutesOrder(s: State, t: State, n: Name, said: seq<Note>)
    requires Routes(s, t, n, said)
    ensures t.order == s.order
  {
  }

  lemma KeptFills(e: Env, s: State, n: Name, f: SayFrame, x: Name)
    requires n in s.regs && x != n
    ensures Fills(s, Accept(e, Kept(e, s, n, f), n, f), n, NewMsg(s, n, f), s.order, x)
  {
    hide Accept, Dedup.AfterSeen, Bucket.AfterTake, Addressed;
    if x in s.regs {
      AcceptFills(e, Kept(e, s, n, f), n, f, x);
    }
  }

  lemma InferFlow(e: Env, s: State, n: Name)
    requires n in s.regs && n in s.order
    ensures Flow(s, InferIdle(e, s, n))
  {
    hide FlushQueue, Flow, Plain;
    SelfFlow(s);
    var t := s.Put(n, SetIdle(s.regs[n]));
    PutPlain(s, n, SetIdle(s.regs[n]));
    PlainFlow(s, t);
    FlushFlow(e, t, n);
    FlowTrans(s, t, FlushQueue(e, t, n));
  }

  // ------------------------------------------------------------------ joining and leaving

  /** A stretch in which somebody may join or leave: still at most one session ends, and who
      is away, `but` for those named, is left alone. */
  ghost predicate Meets(s: State, t: State, but: set<Name>) {
    && Ends(s) <= Ends(t) <= Ends(s) + 1
    && (Ends(t) != Ends(s) ==> Unfinished(Roll(t)))
    && (Unfinished(Roll(s)) ==> Ends(t) == Ends(s) && Unfinished(Roll(t)))
    && (Minuted(s) ==> Minuted(t) && Strayed(t) == Strayed(s))
    && (forall m :: m in Graves(s) && m !in but ==> m in Graves(t) && Graves(t)[m] == Graves(s)[m])
  }

  lemma FlowMeets(s: State, t: State, but: set<Name>)
    requires Flow(s, t)
    ensures Meets(s, t, but)
  {
    hide Chron, Sessions, Strays, Roll, Graves, Agrees, Roughly, Unfinished, Kinds, AllMarked, Ended;
    MarkedOrNot(Roll(s));
  }

  lemma MeetsTrans(s: State, t: State, u: State, but: set<Name>)
    requires Meets(s, t, but) && Meets(t, u, but)
    ensures Meets(s, u, but)
  {
    hide Chron, Sessions, Strays, Roll, Graves, Agrees, Unfinished;
  }

  lemma AgreesLeft(ch: seq<Note>, roll: map<Name, Attendee>, n: Name)
    requires Agrees(ch, roll)
    ensures Agrees(ch + [Happened(PeerLeft(n))], roll - {n})
  {
    hide Declared, RightlyDone, AllDeclared, Present;
    ListGrows(ch, Happened(PeerLeft(n)));
    assert Kinds(roll - {n}) == Kinds(roll) - {n};
  }

  lemma AgreesJoined(ch: seq<Note>, roll: map<Name, Attendee>, n: Name, kind: string)
    requires Agrees(ch, roll)
    ensures Agrees(ch + [Happened(PeerJoined(n, kind))], roll[n := Attendee(kind, false)])
  {
    hide Declared, RightlyDone, AllDeclared, Present;
    ListGrows(ch, Happened(PeerJoined(n, kind)));
    assert Kinds(roll[n := Attendee(kind, false)]) == Kinds(roll)[n := kind];
  }

  lemma LeaveMeets(e: Env, s: State, left: State, n: Name)
    requires left.regs == s.regs && left.log == s.log && left.order == Without(s.order, n)
    ensures Meets(s, Emit(e, left, PeerLeft(n), None), {})
  {
    hide Emit, Chron, Without, Agrees, Sessions, Strays;
    var t, x := Emit(e, left, PeerLeft(n), None), Happened(PeerLeft(n));
    EmitFrame(e, left, PeerLeft(n), None);
    WithoutFacts(s.order, n);
    ChronGrows(s.log, x);
    ListGrows(Chron(s.log), x);
    assert Roll(t) == Roll(s) - {n};
    if Minuted(s) {
      AgreesLeft(Chron(s.log), Roll(s), n);
    }
  }

  lemma DisconnectMeets(e: Env, s: State, c: ConnId)
    ensures Meets(s, Disconnect(e, s, c), {})
  {
    hide Without, Emit, CheckSessionDone, Meets, Flow, Plain;
    if Holds(s, c) {
      var n := s.names[c];
      var left := s.(order := Without(s.order, n), blockedNotified := s.blockedNotified - {n}).Touch();
      LeaveMeets(e, s, left, n);
      var t := Emit(e, left, PeerLeft(n), None);
      var u := CheckSessionDone(e, t);
      CheckFlow(e, t);
      FlowMeets(t, u, {});
      MeetsTrans(s, t, u, {});
      GoneMeets(s, u, u.gone + {c}, {});
    } else {
      SelfFlow(s);
      FlowMeets(s, s, {});
      GoneMeets(s, s, s.gone + {c}, {});
    }
  }

  lemma GoneMeets(s: State, t: State, gone: set<ConnId>, but: set<Name>)
    requires Meets(s, t, but)
    ensures Meets(s, t.(gone := gone), but)
  {
    hide Meets, Plain, Flow;
    SamePlain(t, t.(gone := gone));
    PlainFlow(t, t.(gone := gone));
    FlowMeets(t, t.(gone := gone), but);
    MeetsTrans(s, t, t.(gone := gone), but);
  }

  lemma EnteringRoll(e: Env, s: State, c: ConnId, n: Name, kind: string, caps: set<string>)
    requires n !in s.order
    ensures var t := Entering(e, s, c, n, kind, caps);
            && n in t.order && n in t.regs && t.log == s.log && t.order == s.order + [n]
            && Roll(t) == Roll(s)[n := Attendee(kind, false)]
            && (forall m :: m in Graves(s) && m != n ==> m in Graves(t) && Graves(t)[m] == Graves(s)[m])
  {
  }

  lemma BacklogPlain(e: Env, s: State, n: Name)
    requires n in s.order && n in s.regs
    ensures Plain(s, GiveBacklog(e, s, n))
  {
    hide Deliver, OverhearAll, Backlog, Tagged, Plain;
    var p := s.regs[n];
    var backlog := Backlog(e.cfg, s.recent, n, p.IsObserver());
    SelfFlow(s);
    DeliverPlain(e, s, n, Tagged(backlog, n), false, ByBacklog);
    PutPlain(s, n, p.(box := OverhearAll(e.cfg, p.box, backlog)));
  }

  lemma WelcomedMeets(e: Env, s: State, c: ConnId, n: Name, kind: string, caps: set<string>)
    requires n !in s.order
    ensures var t := Welcomed(e, s, c, n, kind, caps);
            Meets(s, t, {n}) && n in t.order && n in t.regs
  {
    hide Entering, Answer, GiveBacklog, Emit, Plain, Meets;
    var s0 := Entering(e, s, c, n, kind, caps);
    EnteringRoll(e, s, c, n, kind, caps);
    var s1 := Answer(e, s0, c, Welcome);
    AnswerPlain(e, s0, c, Welcome);
    AnswerRegs(e, s0, c, Welcome);
    PlainOrder(s0, s1);
    BacklogPlain(e, s1, n);
    SelfFlow(s1);
    var s2 := if n !in s.regs || s1.regs[n].IsObserver() then GiveBacklog(e, s1, n) else s1;
    SamePlain(s2, s2.Touch());
    PlainTrans(s0, s1, s2);
    PlainTrans(s0, s2, s2.Touch());
    JoinMeets(e, s, s0, s2.Touch(), n, kind);
  }

  lemma JoinMeets(e: Env, s: State, s0: State, s2: State, n: Name, kind: string)
    requires Plain(s0, s2) && s0.log == s.log && n in s0.order && n in s0.regs
    requires Roll(s0) == Roll(s)[n := Attendee(kind, false)]
    requires forall m :: m in Graves(s) && m != n ==> m in Graves(s0) && Graves(s0)[m] == Graves(s)[m]
    ensures var t := Emit(e, s2, PeerJoined(n, kind), Some(n));
            Meets(s, t, {n}) && n in t.order && n in t.regs
  {
    hide Emit, Chron, Agrees, Sessions, Strays, Graves;
    var x := Happened(PeerJoined(n, kind));
    EmitFrame(e, s2, PeerJoined(n, kind), Some(n));
    var t := Emit(e, s2, PeerJoined(n, kind), Some(n));
    ChronGrows(s2.log, x);
    ListGrows(Chron(s2.log), x);
    SameRoll(s2, t);
    assert n in Roll(t);
    hide Roll;
    if Minuted(s) {
      AgreesJoined(Chron(s.log), Roll(s), n, kind);
    }
  }

  lemma AdmitMeets(e: Env, s: State, c: ConnId, n: Name, kind: string, caps: set<string>)
    requires n !in s.order
    ensures Meets(s, Admit(e, s, c, n, kind, caps), {n})
  {
    hide Welcomed, FlushQueue, Meets, Flow;
    WelcomedMeets(e, s, c, n, kind, caps);
    var t := Welcomed(e, s, c, n, kind, caps);
    if n in s.regs {
      FlushFlow(e, t, n);
      FlowMeets(t, FlushQueue(e, t, n), {n});
      MeetsTrans(s, t, FlushQueue(e, t, n), {n});
    }
  }

  lemma MeetsWider(s: State, t: State, but: set<Name>)
    requires Meets(s, t, {})
    ensures Meets(s, t, but)
  {
    hide Chron, Sessions, Strays, Roll, Graves, Agrees, Unfinished;
  }

  lemma AnswerMeets(e: Env, s: State, c: ConnId, r: Reply, but: set<Name>)
    ensures Meets(s, Answer(e, s, c, r), but)
  {
    hide Answer, Plain, Flow, Meets;
    AnswerPlain(e, s, c, r);
    PlainFlow(s, Answer(e, s, c, r));
    FlowMeets(s, Answer(e, s, c, r), but);
  }

  lemma HelloMeets(e: Env, s: State, c: ConnId, n: Name, kind: string, caps: set<string>)
    requires Seated(s)
    ensures Meets(s, HandleHello(e, s, c, n, kind, caps), {n})
  {
    hide Disconnect, Admit, Answer, Meets, Seated, Flow, Plain;
    AnswerMeets(e, s, c, Err(Malformed, None, None, ""), {n});
    if c !in s.names {
      var t := if s.Live(n) && !s.Connected(n) then Disconnect(e, s, s.regs[n].client) else s;
      SelfFlow(s);
      FlowMeets(s, s, {n});
      if s.Live(n) && !s.Connected(n) {
        DisconnectMeets(e, s, s.regs[n].client);
        MeetsWider(s, t, {n});
        DisconnectSeated(e, s, s.regs[n].client);
      }
      SeatedHas(t);
      if t.Live(n) {
        var r := Err(NameTaken, None, None, Suggestion(n, t.regs.Keys));
        AnswerMeets(e, t, c, r, {n});
        MeetsTrans(s, t, Answer(e, t, c, r), {n});
        GoneMeets(s, Answer(e, t, c, r), Answer(e, t, c, r).gone + {c}, {n});
      } else {
        AdmitMeets(e, t, c, n, kind, caps);
        MeetsTrans(s, t, Admit(e, t, c, n, kind, caps), {n});
      }
    }
  }

  lemma SeatedHas(s: State)
    requires Seated(s)
    ensures forall n :: n in s.order ==> n in s.regs
  {
  }

  // ------------------------------------------------------------------ watchdog

  lemma ExpireMeets(e: Env, s: State, but: set<Name>)
    requires forall n :: n in s.regs && n !in s.order && n !in but ==> s.clock.mono - s.regs[n].lastRx <= e.cfg.deadTtl
    ensures Meets(s, ExpireDead(e, s), but)
  {
    hide Chron, Agrees, Sessions, Strays;
    assert Roll(ExpireDead(e, s)) == Roll(s);
  }

  lemma PingPlain(e: Env, s: State, n: Name)
    requires n in s.order && n in s.regs
    ensures Plain(s, PingIfSilent(e, s, n)) && PingIfSilent(e, s, n).order == s.order
  {
    hide Answer, Plain;
    var t := s.Put(n, s.regs[n].(awaitingPong := true, pongDeadline := s.clock.mono + e.cfg.pongTimeout));
    SelfFlow(s);
    PutPlain(s, n, s.regs[n].(awaitingPong := true, pongDeadline := s.clock.mono + e.cfg.pongTimeout));
    AnswerPlain(e, t, s.regs[n].client, Ping);
    PlainTrans(s, t, Answer(e, t, s.regs[n].client, Ping));
    PlainOrder(s, PingIfSilent(e, s, n));
  }

  lemma AssumeFlow(e: Env, s: State, n: Name)
    requires n in s.order && n in s.regs
    ensures Flow(s, AssumeIdle(e, s, n))
  {
    hide Emit, FlushQueue, Flow, Plain;
    SelfFlow(s);
    var t := s.Put(n, SetIdle(s.regs[n]));
    PutPlain(s, n, SetIdle(s.regs[n]));
    var u := Emit(e, t, Stalled(Some(n)), None);
    EmitPlain(e, t, Stalled(Some(n)), None);
    EmitFrame(e, t, Stalled(Some(n)), None);
    PlainTrans(s, t, u);
    PlainFlow(s, u);
    FlushFlow(e, u, n);
    FlowTrans(s, u, FlushQueue(e, u, n));
  }

  lemma BlockedPlain(e: Env, s: State, n: Name)
    requires n in s.regs
    ensures Plain(s, NotifyBlocked(e, s, n))
  {
    hide Emit, Plain;
    SelfFlow(s);
    TwoPlain(e, s, s.(blockedNotified := s.blockedNotified + {n}), BlockedFor(n));
  }

  lemma FlowOrder(s: State, t: State)
    requires Flow(s, t)
    ensures t.order == s.order
  {
  }

  lemma WatchOneMeets(e: Env, s: State, n: Name)
    requires n in s.regs && n in s.order
    ensures Meets(s, WatchOne(e, s, n), {})
  {
    hide Disconnect, PingIfSilent, AssumeIdle, NotifyBlocked, Flow, Plain, Meets;
    DisconnectMeets(e, s, s.regs[n].client);
    if n in s.order {
      PingPlain(e, s, n);
      var t := PingIfSilent(e, s, n);
      PlainFlow(s, t);
      FlowMeets(s, t, {});
      if n in t.regs {
        AssumeFlow(e, t, n);
        var u := AssumeIdle(e, t, n);
        FlowTrans(s, t, u);
        FlowMeets(s, u, {});
        if n in u.regs {
          BlockedPlain(e, u, n);
          PlainFlow(u, NotifyBlocked(e, u, n));
          FlowTrans(s, u, NotifyBlocked(e, u, n));
          FlowMeets(s, NotifyBlocked(e, u, n), {});
        }
      }
    }
  }

  /** The tick takes nobody off the floor but the participant it looks at. */
  lemma WatchOneOrder(e: Env, s: State, n: Name)
    requires n in s.regs && n in s.order && Seated(s)
    ensures forall m :: m in s.order && m != n ==> m in WatchOne(e, s, n).order
    ensures Seated(WatchOne(e, s, n))
  {
    hide Disconnect, PingIfSilent, AssumeIdle, NotifyBlocked, Flow, Plain, Without;
    LawMailSteps.WatchOneSeated(e, s, n);
    DisconnectFrame(e, s, s.regs[n].client);
    PingPlain(e, s, n);
    var t := PingIfSilent(e, s, n);
    if n in t.regs {
      AssumeFlow(e, t, n);
      FlowOrder(t, AssumeIdle(e, t, n));
      if n in AssumeIdle(e, t, n).regs {
        BlockedPlain(e, AssumeIdle(e, t, n), n);
        PlainOrder(AssumeIdle(e, t, n), NotifyBlocked(e, AssumeIdle(e, t, n), n));
      }
    }
  }

  lemma {:induction false} WatchAllMeets(e: Env, s: State, names: seq<Name>)
    requires Seated(s) && Distinct(names) && AllOf(names, s.order)
    ensures Meets(s, WatchAll(e, s, names), {})
    decreases names
  {
    hide WatchOne, Meets, Flow, Plain, Seated;
    SelfFlow(s);
    FlowMeets(s, s, {});
    if names != [] {
      SeatedHas(s);
      var t := WatchOne(e, s, names[0]);
      WatchOneMeets(e, s, names[0]);
      WatchOneOrder(e, s, names[0]);
      WatchAllMeets(e, t, names[1..]);
      MeetsTrans(s, t, WatchAll(e, t, names[1..]), {});
    }
  }

  lemma AlarmsPlain(e: Env, s: State)
    ensures Plain(s, CheckStall(e, CheckQuorum(e, s)))
  {
    hide Emit, AllQuiet, Expected, QuorumDue, Plain;
    SelfFlow(s);
    TwoPlain(e, s, s.(quorumLatched := true), QuorumReached(Expected(s)));
    var t := CheckQuorum(e, s);
    SelfFlow(t);
    TwoPlain(e, t, t.(stallLatched := true), Stalled(None));
    PlainTrans(s, t, CheckStall(e, t));
  }

  /** Those away for longer than a dead registration lives. */
  function Expired(e: Env, s: State): set<Name> {
    set n | n in s.regs && n !in s.order && s.clock.mono - s.regs[n].lastRx > e.cfg.deadTtl
  }

  lemma TickMeets(e: Env, s: State)
    requires Seated(s)
    ensures Meets(s, WatchdogTick(e, s), Expired(e, s))
  {
    hide Meets, Flow, Plain, Seated, WatchAll, ExpireDead, CheckQuorum, CheckStall;
    var but := Expired(e, s);
    var t := ExpireDead(e, s);
    ExpireMeets(e, s, but);
    LawMailSteps.ExpireSeated(e, s);
    SeatedOrders(t);
    WatchAllMeets(e, t, t.order);
    var u := WatchAll(e, t, t.order);
    MeetsWider(t, u, but);
    MeetsTrans(s, t, u, but);
    AlarmsPlain(e, u);
    PlainFlow(u, WatchdogTick(e, s));
    FlowMeets(u, WatchdogTick(e, s), but);
    MeetsTrans(s, u, WatchdogTick(e, s), but);
  }

  lemma SeatedOrders(s: State)
    requires Seated(s)
    ensures Distinct(s.order)
  {
  }

  // ------------------------------------------------------------------ a say and the marks

  predicate OnlyAgent(s: State, n: Name) {
    s.IsAgent(n) && forall m :: m in s.order && s.IsAgent(m) ==> m == n
  }

  /** What a flush that ends a session leaves behind. */
  lemma FlushCleared(e: Env, s: State, n: Name)
    requires n in s.regs && n in s.order && Ends(FlushQueue(e, s, n)) != Ends(s)
    ensures var t := FlushQueue(e, s, n);
            t.round == 0 && forall m :: m in t.order && t.IsAgent(m) ==> t.regs[m].box.queue == []
  {
    hide SliceBatch, AfterSlice, WakeSlice, Deliver, CheckRoundLimit, CheckSessionDone, Counts, Plain, Ends;
    var p := s.regs[n];
    var batch := SliceBatch(e.cfg, n, p.box);
    var t := s.Put(n, p.(box := AfterSlice(e.cfg, n, p.box)));
    PutPlain(s, n, p.(box := AfterSlice(e.cfg, n, p.box)));
    SamePlain(t, t.(round := t.round + 1));
    PlainTrans(s, t, t.(round := t.round + 1));
    SliceCleared(e, s, t, n, batch);
    SliceCleared(e, s, t.(round := t.round + 1), n, batch);
  }

  lemma SliceCleared(e: Env, s: State, t: State, n: Name, batch: seq<Msg>)
    requires Plain(s, t) && n in t.order && n in t.regs
    ensures var u := Deliver(e, t, n, batch, true, ByFlush);
            var v, w := CheckSessionDone(e, u), CheckSessionDone(e, CheckRoundLimit(e, u));
            && (Ends(v) != Ends(s) ==> Cleared(v))
            && (Ends(w) != Ends(s) ==> Cleared(w))
  {
    hide Deliver, CheckRoundLimit, CheckSessionDone, Flow, Plain, Cleared, Chron, Sessions;
    var u := Deliver(e, t, n, batch, true, ByFlush);
    DeliverPlain(e, t, n, batch, true, ByFlush);
    PlainTrans(s, t, u);
    PlainFlow(s, u);
    CheckCleared(e, u);
    LimitPlain(e, u);
    PlainTrans(s, u, CheckRoundLimit(e, u));
    PlainFlow(s, CheckRoundLimit(e, u));
    CheckCleared(e, CheckRoundLimit(e, u));
  }

  /** Round zero, and nothing waits for any agent. */
  ghost predicate Cleared(s: State) {
    s.round == 0 && forall m :: m in s.order && s.IsAgent(m) ==> s.regs[m].box.queue == []
  }

  lemma CheckCleared(e: Env, s: State)
    ensures Ends(CheckSessionDone(e, s)) != Ends(s) ==> Cleared(CheckSessionDone(e, s))
  {
    hide CheckSessionDone, Chron, Sessions;
    SessionDoneFrame(e, s);
  }

  /** When the flush of an agent ends the session. */
  lemma FlushEnds(e: Env, s: State, n: Name)
    requires e.cfg.Valid() && s.IsAgent(n)
    ensures var p := s.regs[n];
            Ends(FlushQueue(e, s, n)) != Ends(s)
            <==> p.box.queue != [] && s.Connected(n) && p.finished && Waiting(p.box) <= e.cfg.deliverWakeCap
                 && OthersDone(s, n)
  {
    hide SliceBatch, AfterSlice, WakeSlice, Deliver, CheckRoundLimit, CheckSessionDone, Counts, Plain, Chron, Sessions;
    hide OthersDone;
    var p := s.regs[n];
    if p.box.queue != [] && s.Connected(n) {
      var batch := SliceBatch(e.cfg, n, p.box);
      var q := p.(box := AfterSlice(e.cfg, n, p.box));
      var t := s.Put(n, q);
      PutPlain(s, n, q);
      SamePlain(t, t.(round := t.round + 1));
      PlainTrans(s, t, t.(round := t.round + 1));
      LastSlice(e.cfg, n, p.box);
      OthersPut(s, n, q, s.round);
      OthersPut(s, n, q, s.round + 1);
      SliceEnds(e, s, t, n, batch);
      SliceEnds(e, s, t.(round := t.round + 1), n, batch);
    }
  }

  lemma OthersPut(s: State, n: Name, p: Part, round: nat)
    ensures OthersDone(s.Put(n, p).(round := round), n) <==> OthersDone(s, n)
  {
    var t := s.Put(n, p).(round := round);
    assert forall m :: m != n ==> (s.IsAgent(m) <==> t.IsAgent(m));
  }

  lemma LastSlice(cfg: Config, n: Name, b: Box)
    requires cfg.Valid()
    ensures AfterSlice(cfg, n, b).queue == [] <==> Waiting(b) <= cfg.deliverWakeCap
  {
  }

  lemma SliceEnds(e: Env, s: State, t: State, n: Name, batch: seq<Msg>)
    requires Plain(s, t) && t.IsAgent(n)
    ensures var u := Deliver(e, t, n, batch, true, ByFlush);
            var v, w := CheckSessionDone(e, u), CheckSessionDone(e, CheckRoundLimit(e, u));
            var due := t.regs[n].finished && t.regs[n].box.queue == [] && OthersDone(t, n);
            (Ends(v) != Ends(s) <==> due) && (Ends(w) != Ends(s) <==> due)
  {
    hide Deliver, CheckRoundLimit, CheckSessionDone, Flow, Plain, Chron, Sessions, SessionComplete, SortById;
    hide OthersDone;
    var u := Deliver(e, t, n, batch, true, ByFlush);
    DeliverPlain(e, t, n, batch, true, ByFlush);
    PlainTrans(s, t, u);
    PlainFlow(s, u);
    CheckFlow(e, u);
    LimitPlain(e, u);
    PlainTrans(s, u, CheckRoundLimit(e, u));
    PlainFlow(s, CheckRoundLimit(e, u));
    CheckFlow(e, CheckRoundLimit(e, u));
    DeliverFrame(e, t, n, batch, true, ByFlush);
    RoundLimitFrame(e, u);
    OneComplete(t, u, n);
    OneComplete(t, CheckRoundLimit(e, u), n);
  }

  lemma OneComplete(t: State, u: State, n: Name)
    requires t.IsAgent(n) && u.order == t.order && n in u.regs && u.regs == t.regs[n := u.regs[n]]
    requires u.regs[n].kind == t.regs[n].kind && u.regs[n].finished == t.regs[n].finished
    requires u.regs[n].box.queue == t.regs[n].box.queue
    ensures SessionComplete(u) <==> t.regs[n].finished && t.regs[n].box.queue == [] && OthersDone(t, n)
  {
    assert u.IsAgent(n);
    assert forall m :: m != n ==> (u.IsAgent(m) <==> t.IsAgent(m)) && (u.IsAgent(m) ==> u.regs[m] == t.regs[m]);
  }

  lemma AgentsByRoll(s: State, n: Name)
    ensures s.IsAgent(n) <==> n in Roll(s) && Roll(s)[n].kind != OBSERVER
    ensures n in Kinds(Roll(s)) <==> n in Roll(s)
    ensures n in Roll(s) ==> Kinds(Roll(s))[n] == Roll(s)[n].kind && AttendeeOf(s.regs[n]) == Roll(s)[n]
  {
  }

  lemma SameAgents(s: State, t: State, n: Name)
    requires t.order == s.order && Kinds(Roll(t)) == Kinds(Roll(s))
    ensures OnlyAgent(t, n) <==> OnlyAgent(s, n)
  {
    hide Roll, Kinds;
    forall m
      ensures s.IsAgent(m) <==> t.IsAgent(m)
    {
      AgentsByRoll(s, m);
      AgentsByRoll(t, m);
    }
  }

  /** An accepted say of an agent whose own flush ends the session. Its sender is marked
      already, is not idle and does not report idleness; what waits for it fits one slice, and
      its connection has outlived the `ok`; all others are marked, nothing waits for them, and
      the say makes none of them wait. */
  predicate FlushIsDue(e: Env, s: State, n: Name, f: SayFrame)
    requires n in s.regs && e.cfg.ratePerSecond > 0.0
  {
    var p := s.regs[n];
    && s.IsAgent(n) && OthersRest(s, n, f.to) && p.finished && !p.ReportsIdle() && p.state != Idle
    && p.box.queue != [] && Waiting(p.box) <= e.cfg.deliverWakeCap
    && RouteSay(e, s, n, f).1 && p.client !in RouteSay(e, s, n, f).0.gone
  }

  /** If it is a `done`, the flush ends the session and clears the mark, which is then set
      again: that of the only agent ends the session a second time. */
  predicate EndsTwice(e: Env, s: State, n: Name, f: SayFrame)
    requires n in s.regs && e.cfg.ratePerSecond > 0.0
  {
    f.kind == "done" && FlushIsDue(e, s, n, f) && OnlyAgent(s, n)
  }

  /** With another agent there, the mark is left over from the session that has ended. */
  predicate LeavesMark(e: Env, s: State, n: Name, f: SayFrame)
    requires n in s.regs && e.cfg.ratePerSecond > 0.0
  {
    f.kind == "done" && FlushIsDue(e, s, n, f) && !OnlyAgent(s, n)
  }

  /** If it is no `done`, the session ends although the sender has just gone on. */
  predicate EndsAstray(e: Env, s: State, n: Name, f: SayFrame)
    requires n in s.regs && e.cfg.ratePerSecond > 0.0
  {
    f.kind != "done" && FlushIsDue(e, s, n, f)
  }

  lemma InferCleared(e: Env, s: State, n: Name)
    requires n in s.regs && n in s.order && Ends(InferIdle(e, s, n)) != Ends(s)
    ensures Cleared(InferIdle(e, s, n))
  {
    hide FlushQueue, Chron, Sessions;
    var t := s.Put(n, SetIdle(s.regs[n]));
    PutPlain(s, n, SetIdle(s.regs[n]));
    FlushCleared(e, t, n);
  }

  lemma InferEnds(e: Env, s: State, n: Name)
    requires e.cfg.Valid() && s.IsAgent(n)
    ensures var p := s.regs[n];
            Ends(InferIdle(e, s, n)) != Ends(s)
            <==> !p.ReportsIdle() && p.state != Idle && p.box.queue != [] && s.Connected(n) && p.finished
                 && Waiting(p.box) <= e.cfg.deliverWakeCap && OthersDone(s, n)
  {
    hide FlushQueue, Chron, Sessions, OthersDone;
    var t := s.Put(n, SetIdle(s.regs[n]));
    PutPlain(s, n, SetIdle(s.regs[n]));
    OthersPut(s, n, SetIdle(s.regs[n]), s.round);
    FlushEnds(e, t, n);
  }

  /** The idle inference after an accepted say of an agent, read off the state before it. */
  lemma SayFlushEnds(e: Env, s: State, n: Name, f: SayFrame)
    requires e.cfg.Valid() && s.IsAgent(n) && RouteSay(e, s, n, f).1
    ensures var s1 := RouteSay(e, s, n, f).0;
            && s1.IsAgent(n)
            && (Ends(InferIdle(e, s1, n)) != Ends(s1) <==> FlushIsDue(e, s, n, f))
  {
    hide RouteSay, InferIdle, Chron, Sessions, Roll, Graves, OthersDone, OthersRest;
    RouteRoutes(e, s, n, f);
    var s1 := RouteSay(e, s, n, f).0;
    InferEnds(e, s1, n);
    RestIsDone(e, s, n, f);
  }

  lemma MarkRoll(s: State, n: Name, done: bool)
    requires n in s.regs && n in s.order
    ensures var t := MarkFinished(s, n, done);
            && Roll(t) == Roll(s)[n := Attendee(s.regs[n].kind, done)] && Graves(t) == Graves(s)
            && Kinds(Roll(t)) == Kinds(Roll(s)) && t.order == s.order && t.log == s.log && t.round == s.round
  {
  }

  /** The list ends with a say of `n`, or with the session end that its flush has led to. */
  predicate Spoken(ch: seq<Note>, n: Name, done: bool) {
    && ch != []
    && var init, x := ch[..|ch| - 1], ch[|ch| - 1];
       if IsDone(x) then init != [] && Said(init[|init| - 1], n, done) else Said(x, n, done)
  }

  predicate Said(x: Note, n: Name, done: bool) {
    x.SayAccepted? && x.rec.sender == n && (x.rec.kind == "done" <==> done)
  }

  /** The sender's own word is the last; of the others nothing has changed. */
  lemma SpokenFacts(ch: seq<Note>, n: Name, done: bool)
    requires Spoken(ch, n, done)
    ensures Declared(ch, n) <==> done
    ensures forall m :: m != n ==> (Vouched(ch, m) <==> Declared(ch, m))
  {
    var init, x := ch[..|ch| - 1], ch[|ch| - 1];
    if IsDone(x) {
      assert Declared(init, n) <==> done;
    }
  }

  lemma AgreesMarked(ch: seq<Note>, roll: map<Name, Attendee>, n: Name, a: Attendee, done: bool)
    requires Roughly(ch, roll) && Spoken(ch, n, done) && n in roll && a.kind == roll[n].kind
    requires a.kind != OBSERVER && a.finished ==> done
    ensures Agrees(ch, roll[n := a])
  {
    hide Declared, Vouched, RightlyDone, Present, Spoken;
    SpokenFacts(ch, n, done);
    assert Kinds(roll[n := a]) == Kinds(roll);
  }

  lemma MarkMinuted(s: State, n: Name, done: bool)
    requires n in s.regs && n in s.order && Roughly(Chron(s.log), Roll(s)) && Spoken(Chron(s.log), n, done)
    ensures Minuted(MarkFinished(s, n, done))
  {
    hide Agrees, Roughly, Chron, Spoken, MarkFinished;
    MarkRoll(s, n, done);
    AgentsByRoll(s, n);
    assert n in Roll(s) && Roll(s)[n] == AttendeeOf(s.regs[n]);
    hide Roll;
    AgreesMarked(Chron(s.log), Roll(s), n, Attendee(s.regs[n].kind, done), done);
  }

  /** An observer has no mark to lift. */
  lemma UnmarkedMinuted(s: State, n: Name, done: bool)
    requires n in s.regs && n in s.order && s.regs[n].IsObserver()
    requires Roughly(Chron(s.log), Roll(s)) && Spoken(Chron(s.log), n, done)
    ensures Minuted(s)
  {
    hide Agrees, Roughly, Chron, Spoken;
    AgentsByRoll(s, n);
    assert n in Roll(s);
    var a := Roll(s)[n];
    hide Roll;
    assert Roll(s)[n := a] == Roll(s);
    AgreesMarked(Chron(s.log), Roll(s), n, a, done);
  }

  /** A say leaves log and floor in rough agreement. */
  lemma AgreesSaid(ch: seq<Note>, roll: map<Name, Attendee>, x: Note, n: Name, done: bool)
    requires Said(x, n, done)
    ensures Agrees(ch, roll) ==> Roughly(ch + [x], roll)
    ensures Strays(ch + [x]) == Strays(ch) && Spoken(ch + [x], n, done) && Sessions(ch + [x]) == Sessions(ch)
  {
    hide Declared, RightlyDone, AllDeclared, Due, Present;
    ListGrows(ch, x);
    assert (ch + [x])[..|ch|] == ch;
  }

  /** A session end right after a say: it is astray exactly if that is no `done` of an agent. */
  lemma EndAfterSay(ch: seq<Note>, ch': seq<Note>, roll: map<Name, Attendee>, n: Name, done: bool)
    requires Roughly(ch, roll) && AllMarked(roll) && ch != [] && Said(ch[|ch| - 1], n, done) && n in roll
    requires Ended(ch, ch')
    ensures Strays(ch') == Strays(ch) + (if roll[n].kind != OBSERVER && !done then 1 else 0)
    ensures Spoken(ch', n, done)
  {
    hide Declared, Vouched, RightlyDone, Present, Strays, AllDeclared;
    var x := ch'[|ch|];
    assert ch' == ch + [x];
    ListGrows(ch, x);
    assert Spoken(ch, n, done);
    SpokenFacts(ch, n, done);
    WhoDeclared(ch, roll, n, done);
  }

  lemma WhoDeclared(ch: seq<Note>, roll: map<Name, Attendee>, n: Name, done: bool)
    requires Present(ch) == Kinds(roll) && AllMarked(roll) && n in roll && (Declared(ch, n) <==> done)
    requires forall m :: m in roll && roll[m].kind != OBSERVER && m != n ==> Declared(ch, m)
    ensures AllDeclared(ch) <==> roll[n].kind == OBSERVER || done
  {
    hide Declared, Present;
    var m :| m in roll && roll[m].kind != OBSERVER;
    assert Kinds(roll)[m] == roll[m].kind && Kinds(roll)[n] == roll[n].kind;
    forall q | q in Kinds(roll)
      ensures q in roll && Kinds(roll)[q] == roll[q].kind
    {
    }
  }

  /** With all marks gone and nothing waiting, one mark completes the session exactly if it is
      the only agent's. */
  lemma LoneMark(s: State, n: Name)
    requires Cleared(s) && Unfinished(Roll(s)) && n in s.regs && n in s.order && s.IsAgent(n)
    ensures SessionComplete(MarkFinished(s, n, true)) <==> OnlyAgent(s, n)
  {
    var t := MarkFinished(s, n, true);
    assert t.IsAgent(n) && t.regs[n].finished;
    assert forall m :: s.IsAgent(m) <==> t.IsAgent(m);
    assert forall m :: s.IsAgent(m) ==> m in Roll(s) && Roll(s)[m] == AttendeeOf(s.regs[m]);
    if SessionComplete(t) {
      forall m | m in s.order && s.IsAgent(m)
        ensures m == n
      {
        assert t.regs[m].finished;
      }
    }
  }

  /** Who may be marked at the end: nobody but the sender. */
  predicate MarkedAtMost(roll: map<Name, Attendee>, n: Name) {
    forall m :: m in roll && roll[m].kind != OBSERVER && roll[m].finished ==> m == n
  }

  /** After the routing: the idle inference, the mark, the check. */
  lemma MarkEnds(e: Env, s1: State, s2: State, n: Name, done: bool)
    requires Flow(s1, s2) && n in s2.regs && n in s2.order && s2.IsAgent(n)
    requires Ends(s2) != Ends(s1) ==> Cleared(s2)
    ensures var u := MarkFinished(s2, n, done);
            var t := if done then CheckSessionDone(e, u) else u;
            && Ends(s1) <= Ends(s2) <= Ends(t) <= Ends(s2) + 1
            && (Ends(s2) != Ends(s1) ==> (Ends(t) != Ends(s2) <==> done && OnlyAgent(s2, n)))
            && (Ends(t) != Ends(s1) ==> t.round == 0 && MarkedAtMost(Roll(t), n))
            && (Ends(t) != Ends(s1) ==> (!Unfinished(Roll(t)) <==> Ends(s2) != Ends(s1) && done && !OnlyAgent(s2, n)))
            && Graves(t) == Graves(s1)
  {
    hide CheckSessionDone, Chron, Sessions, MarkFinished, Roll, Graves, Agrees, Roughly, Declared, Kinds, Strays;
    var u := MarkFinished(s2, n, done);
    MarkRoll(s2, n, done);
    CheckFlow(e, u);
    CheckCleared(e, u);
    SessionDoneFrame(e, u);
    AgentsByRoll(s2, n);
    if Ends(s2) != Ends(s1) {
      OneMark(Roll(s2), n, s2.regs[n].kind, done);
      if done {
        LoneMark(s2, n);
      }
    }
  }

  lemma OneMark(roll: map<Name, Attendee>, n: Name, kind: string, done: bool)
    requires Unfinished(roll) && kind != OBSERVER
    ensures Unfinished(roll[n := Attendee(kind, done)]) <==> !done
  {
    assert done ==> roll[n := Attendee(kind, done)][n].finished;
  }

  /** What a say can do to the session: at most two ends; after an end the round is zero, and
      at most the sender of a `done` is marked. */
  lemma SayEnds(e: Env, s: State, n: Name, f: SayFrame)
    requires e.cfg.Valid() && n in s.regs && n in s.order
    ensures var t := HandleSay(e, s, n, f);
            && Ends(s) <= Ends(t) <= Ends(s) + 2
            && (Ends(t) == Ends(s) + 2 <==> EndsTwice(e, s, n, f))
            && (Ends(t) != Ends(s) && !Unfinished(Roll(t)) <==> LeavesMark(e, s, n, f))
            && (Ends(t) != Ends(s) ==> t.round == 0 && MarkedAtMost(Roll(t), n))
            && Graves(t) == Graves(s)
  {
    hide RouteSay, InferIdle, CheckSessionDone, MarkFinished, Chron, Sessions, Roll, Graves, Agrees, Roughly, Kinds;
    hide Cleared, MarkedAtMost, Unfinished, AllMarked, Ended, OthersRest, Undisturbed, Strays, SayNote, OnlyAgent;
    RouteRoutes(e, s, n, f);
    var s1, accepted := RouteSay(e, s, n, f).0, RouteSay(e, s, n, f).1;
    RoutesAgents(e, s, s1, n, f, accepted);
    InferFlow(e, s1, n);
    var s2 := InferIdle(e, s1, n);
    if Ends(s2) != Ends(s1) {
      InferCleared(e, s1, n);
    }
    SameAgents(s1, s2, n);
    AgentsByRoll(s1, n);
    AgentsByRoll(s2, n);
    HasBoth(s1, s2, n);
    if accepted && !s2.regs[n].IsObserver() {
      SayFlushEnds(e, s, n, f);
      MarkEnds(e, s1, s2, n, f.kind == "done");
    } else if Ends(s2) != Ends(s) {
      NobodyMarked(Roll(s2), n);
      ClearedRound(s2);
    }
  }

  lemma RoutesAgents(e: Env, s: State, s1: State, n: Name, f: SayFrame, accepted: bool)
    requires n in s.regs && n in s.order && Routes(s, s1, n, if accepted then [SayNote(s, n, f)] else [])
    ensures Ends(s1) == Ends(s) && Strayed(s1) == Strayed(s) && (OnlyAgent(s1, n) <==> OnlyAgent(s, n))
    ensures n in s1.regs && s1.regs[n].kind == s.regs[n].kind && s1.order == s.order
    ensures accepted ==> |Chron(s1.log)| > 0 && Said(Chron(s1.log)[|Chron(s1.log)| - 1], n, f.kind == "done")
    ensures Minuted(s) ==> if accepted then Roughly(Chron(s1.log), Roll(s1)) else Minuted(s1)
  {
    hide Chron, Roll, Graves, Agrees, Roughly, Kinds, Sessions, Strays, SayNote, OnlyAgent;
    SameAgents(s, s1, n);
    if accepted {
      NoteIsSaid(s, n, f);
      AgreesSaid(Chron(s.log), Roll(s), SayNote(s, n, f), n, f.kind == "done");
    } else {
      assert Chron(s.log) + [] == Chron(s.log);
    }
  }

  lemma NoteIsSaid(s: State, n: Name, f: SayFrame)
    requires n in s.regs
    ensures Said(SayNote(s, n, f), n, f.kind == "done")
  {
    hide AskedBy;
  }

  /** What a say does to the agreement of log and floor: it stays, and the session ends astray
      exactly in that one case. */
  lemma SayMinuted(e: Env, s: State, n: Name, f: SayFrame)
    requires e.cfg.Valid() && n in s.regs && n in s.order && Minuted(s)
    ensures var t := HandleSay(e, s, n, f);
            Minuted(t) && Strayed(t) == Strayed(s) + (if EndsAstray(e, s, n, f) then 1 else 0)
  {
    hide RouteSay, InferIdle, CheckSessionDone, MarkFinished, Chron, Sessions, Roll, Graves, Agrees, Roughly, Kinds;
    hide OthersRest, Undisturbed, Strays, SayNote, OnlyAgent, AllMarked, Unfinished, Ended;
    RouteRoutes(e, s, n, f);
    var s1, accepted := RouteSay(e, s, n, f).0, RouteSay(e, s, n, f).1;
    RoutesAgents(e, s, s1, n, f, accepted);
    InferFlow(e, s1, n);
    var s2 := InferIdle(e, s1, n);
    HasBoth(s1, s2, n);
    if accepted {
      SayFlushStrays(s1, s2, n, f.kind == "done");
      if s2.regs[n].IsObserver() {
        UnmarkedMinuted(s2, n, f.kind == "done");
      } else {
        assert s.IsAgent(n);
        SayFlushEnds(e, s, n, f);
        MarkMinuted(s2, n, f.kind == "done");
        MarkRoll(s2, n, f.kind == "done");
        CheckFlow(e, MarkFinished(s2, n, true));
      }
    }
  }

  lemma SayFlushStrays(s1: State, s2: State, n: Name, done: bool)
    requires Flow(s1, s2) && Roughly(Chron(s1.log), Roll(s1)) && n in s1.regs && n in s1.order
    requires |Chron(s1.log)| > 0 && Said(Chron(s1.log)[|Chron(s1.log)| - 1], n, done)
    ensures Spoken(Chron(s2.log), n, done)
    ensures Strayed(s2) == Strayed(s1)
              + (if Ends(s2) != Ends(s1) && !s1.regs[n].IsObserver() && !done then 1 else 0)
  {
    hide Chron, Roughly, Strays, Sessions, Graves, Kinds, Agrees, AllMarked, Unfinished, Ended;
    AgentsByRoll(s1, n);
    assert n in Roll(s1);
    hide Roll;
    if Ends(s2) != Ends(s1) {
      EndAfterSay(Chron(s1.log), Chron(s2.log), Roll(s1), n, done);
    }
  }

  lemma HasBoth(s: State, t: State, n: Name)
    requires Flow(s, t) && n in s.regs && n in s.order
    ensures n in t.regs && t.regs[n].kind == s.regs[n].kind
  {
    hide Chron, Sessions, Graves, Agrees, Declared;
    assert n in Roll(s);
    assert n in Kinds(Roll(s)) && n in Kinds(Roll(t));
    assert n in Roll(t);
    assert Kinds(Roll(t))[n] == Roll(t)[n].kind;
    assert Kinds(Roll(s))[n] == Roll(s)[n].kind;
  }

  lemma NobodyMarked(roll: map<Name, Attendee>, n: Name)
    requires Unfinished(roll)
    ensures MarkedAtMost(roll, n)
  {
  }

  lemma ClearedRound(s: State)
    requires Cleared(s)
    ensures s.round == 0
  {
  }

  // ------------------------------------------------------------------ steps

  /** Whom an input may bring back, or let expire. */
  function Touched(e: Env, s: State, clock: Clock, i: Input): set<Name> {
    match i
    case Tick => Expired(e, s.(clock := clock))
    case Inbound(c, f) => if f.Hello? then {f.name} else {}
    case _ => {}
  }

  /** The say a step carries, if its connection holds a seat. */
  predicate IsSay(s: State, i: Input) {
    i.Inbound? && i.request.Say? && WellFormed(i.request) && i.conn in s.names && s.Live(s.names[i.conn])
  }

  lemma LifeSignPlain(s: State, n: Name)
    requires n in s.regs && n in s.order
    ensures Plain(s, LifeSign(s, n)) && n in LifeSign(s, n).regs && n in LifeSign(s, n).order
  {
    hide Plain;
    PutPlain(s, n, s.regs[n].(lastRx := s.clock.mono, awaitingPong := false));
  }

  lemma DispatchMeets(e: Env, s: State, c: ConnId, n: Name, f: Request)
    requires e.cfg.Valid() && n in s.regs && n in s.order && !f.Say?
    ensures Meets(s, Dispatch(e, s, c, n, f), {})
  {
    hide Meets, Flow, Plain, HandleState, HandleCmd, Disconnect, Answer;
    match f
    case StateReport(st, detail) =>
      StateFlow(e, s, n, st, detail);
      FlowMeets(s, HandleState(e, s, n, st, detail), {});
    case Cmd(cmd, q) =>
      CmdPlain(e, s, n, cmd, q);
      PlainFlow(s, HandleCmd(e, s, n, cmd, q));
      FlowMeets(s, HandleCmd(e, s, n, cmd, q), {});
    case RosterQuery => AnswerMeets(e, s, s.regs[n].client, RosterReply, {});
    case Bye => DisconnectMeets(e, s, c);
    case _ =>
      SelfFlow(s);
      FlowMeets(s, s, {});
  }

  lemma HandleMeets(e: Env, s: State, c: ConnId, f: Request)
    requires e.cfg.Valid() && Seated(s) && !IsSay(s, Inbound(c, f))
    ensures Meets(s, Handle(e, s, c, f), if f.Hello? then {f.name} else {})
  {
    hide Meets, Flow, Plain, HandleHello, Dispatch, Answer, Seated, LifeSign;
    var but := if f.Hello? then {f.name} else {};
    AnswerMeets(e, s, c, Err(Malformed, SeqOf(f), None, ""), but);
    AnswerMeets(e, s, c, Err(Malformed, None, None, ""), but);
    if WellFormed(f) && f.Hello? {
      HelloMeets(e, s, c, f.name, f.kind, f.caps);
    } else if WellFormed(f) && c in s.names && s.Live(s.names[c]) {
      var n := s.names[c];
      var t := LifeSign(s, n);
      LifeSignPlain(s, n);
      PlainFlow(s, t);
      FlowMeets(s, t, {});
      DispatchMeets(e, t, c, n, f);
      MeetsTrans(s, t, Dispatch(e, t, c, n, f), {});
    }
  }

  lemma OtherStepMeets(e: Env, s: State, clock: Clock, i: Input)
    requires e.cfg.Valid() && Seated(s) && !IsSay(s, i)
    ensures Meets(s, Step(e, s, clock, i), Touched(e, s, clock, i))
  {
    hide Meets, Flow, Plain, Handle, Disconnect, WatchdogTick, Seated, Expired;
    var t, but := s.(clock := clock), Touched(e, s, clock, i);
    SamePlain(s, t);
    PlainFlow(s, t);
    FlowMeets(s, t, but);
    SeatedClock(s, clock);
    match i
    case Inbound(c, f) =>
      SayClock(s, clock, i);
      HandleMeets(e, t, c, f);
      MeetsTrans(s, t, Handle(e, t, c, f), but);
    case Closed(c) =>
      DisconnectMeets(e, t, c);
      MeetsTrans(s, t, Disconnect(e, t, c), but);
    case Lost(c) => GoneMeets(s, t, t.gone + {c}, but);
    case Tick =>
      TickMeets(e, t);
      MeetsTrans(s, t, WatchdogTick(e, t), but);
  }

  lemma SeatedClock(s: State, clock: Clock)
    ensures Seated(s.(clock := clock)) <==> Seated(s)
  {
  }

  lemma SayClock(s: State, clock: Clock, i: Input)
    ensures IsSay(s.(clock := clock), i) <==> IsSay(s, i)
  {
  }

  /** The state in which a say is handled: later, and with its sender alive. */
  function Heard(s: State, clock: Clock, c: ConnId): State
    requires c in s.names && s.Live(s.names[c])
  {
    LifeSign(s.(clock := clock), s.names[c])
  }

  lemma SayStep(e: Env, s: State, clock: Clock, i: Input)
    requires e.cfg.Valid() && IsSay(s, i)
    ensures var n, u := s.names[i.conn], Heard(s, clock, i.conn);
            && n in u.regs && n in u.order && Plain(s, u)
            && Step(e, s, clock, i) == HandleSay(e, u, n, i.request.say)
  {
    hide HandleSay, Plain, LifeSign;
    var n, t := s.names[i.conn], s.(clock := clock);
    SamePlain(s, t);
    LifeSignPlain(t, n);
    PlainTrans(s, t, LifeSign(t, n));
  }

  /** Every step keeps log and floor in agreement, and a session ends astray exactly with the
      say of which `EndsAstray` tells. */
  lemma StepMinuted(e: Env, s: State, clock: Clock, i: Input)
    requires e.cfg.Valid() && Seated(s) && Minuted(s)
    ensures var t := Step(e, s, clock, i);
            && Minuted(t)
            && Strayed(t) == Strayed(s)
                 + (if IsSay(s, i) && EndsAstray(e, Heard(s, clock, i.conn), s.names[i.conn], i.request.say)
                    then 1 else 0)
  {
    hide Step, Meets, Chron, Agrees, Roll, Seated, Plain, Flow, HandleSay, Heard, EndsAstray, Strays;
    if IsSay(s, i) {
      SayStep(e, s, clock, i);
      var n, u := s.names[i.conn], Heard(s, clock, i.conn);
      PlainFlow(s, u);
      FlowMinuted(s, u);
      SayMinuted(e, u, n, i.request.say);
    } else {
      OtherStepMeets(e, s, clock, i);
      MeetsMinuted(s, Step(e, s, clock, i), Touched(e, s, clock, i));
    }
  }

  lemma FlowMinuted(s: State, t: State)
    requires Flow(s, t)
    ensures Minuted(s) ==> Minuted(t) && Strayed(t) == Strayed(s)
  {
    hide Chron, Agrees, Roughly, Roll, Graves, Kinds, Sessions, Strays;
  }

  lemma MeetsMinuted(s: State, t: State, but: set<Name>)
    requires Meets(s, t, but)
    ensures Minuted(s) ==> Minuted(t) && Strayed(t) == Strayed(s)
  {
    hide Chron, Agrees, Roll, Graves, Kinds, Sessions, Strays;
  }

  /** A step ends a session at most twice, and twice exactly when it is the say of which
      `EndsTwice` tells. */
  lemma StepEnds(e: Env, s: State, clock: Clock, i: Input)
    requires e.cfg.Valid() && Seated(s)
    ensures var t := Step(e, s, clock, i);
            && Ends(s) <= Ends(t) <= Ends(s) + 2
            && (Ends(t) == Ends(s) + 2 <==>
                  IsSay(s, i) && EndsTwice(e, Heard(s, clock, i.conn), s.names[i.conn], i.request.say))
  {
    hide Step, Chron, Agrees, Roughly, Roll, Seated, Plain, HandleSay, Heard, Sessions, Strays, Graves;
    hide EndsTwice, LeavesMark, Unfinished;
    if IsSay(s, i) {
      SayStep(e, s, clock, i);
      var n, u := s.names[i.conn], Heard(s, clock, i.conn);
      PlainFlow(s, u);
      hide Flow;
      SayEnds(e, u, n, i.request.say);
    } else {
      OtherStepMeets(e, s, clock, i);
    }
  }

  /** A step that ends a session leaves an agent marked exactly when it is the say of which
      `LeavesMark` tells; it is the sender then, and no other. */
  lemma MarkAfterAnEnd(e: Env, s: State, clock: Clock, i: Input)
    requires e.cfg.Valid() && Seated(s)
    ensures var t := Step(e, s, clock, i);
            && (Ends(t) != Ends(s) && (exists m :: t.IsAgent(m) && t.regs[m].finished)
                <==> IsSay(s, i) && LeavesMark(e, Heard(s, clock, i.conn), s.names[i.conn], i.request.say))
            && (Ends(t) != Ends(s) ==>
                  forall m :: t.IsAgent(m) && t.regs[m].finished ==> IsSay(s, i) && m == s.names[i.conn])
  {
    hide Step, Chron, Agrees, Roughly, Seated, Plain, HandleSay, Sessions, Strays, Graves, LifeSign;
    hide LeavesMark, EndsTwice;
    var t := Step(e, s, clock, i);
    RollOfAgents(t);
    hide Roll;
    if IsSay(s, i) {
      SayStep(e, s, clock, i);
      var n, u := s.names[i.conn], Heard(s, clock, i.conn);
      PlainFlow(s, u);
      hide Flow;
      SayEnds(e, u, n, i.request.say);
    } else {
      OtherStepMeets(e, s, clock, i);
    }
  }

  lemma RollOfAgents(s: State)
    ensures forall m :: s.IsAgent(m) ==>
              m in Roll(s) && Roll(s)[m].kind != OBSERVER && Roll(s)[m].finished == s.regs[m].finished
  {
  }

  /** Nothing is done to a registration that is away, by any step but its own return or its
      expiry. */
  lemma AwayIsUntouched(e: Env, s: State, clock: Clock, i: Input, n: Name)
    requires e.cfg.Valid() && Seated(s) && n in s.regs && n !in s.order && n !in Touched(e, s, clock, i)
    ensures var t := Step(e, s, clock, i);
            n in t.regs && n !in t.order && t.regs[n] == s.regs[n]
  {
    hide Step, Chron, Agrees, Seated, Plain, Flow, HandleSay;
    hide Heard, Sessions, Roll, Touched, EndsTwice, LeavesMark, Unfinished, MarkedAtMost, Meets;
    var t := Step(e, s, clock, i);
    assert n in Graves(s) && Graves(s)[n] == s.regs[n];
    if IsSay(s, i) {
      SayStep(e, s, clock, i);
      var m, u := s.names[i.conn], Heard(s, clock, i.conn);
      PlainGraves(s, u);
      SayEnds(e, u, m, i.request.say);
    } else {
      OtherStepMeets(e, s, clock, i);
      MeetsGraves(s, t, Touched(e, s, clock, i), n);
    }
    assert n in Graves(t) && Graves(t)[n] == Graves(s)[n];
  }

  lemma PlainGraves(s: State, t: State)
    requires Plain(s, t)
    ensures Graves(t) == Graves(s)
  {
  }

  lemma MeetsGraves(s: State, t: State, but: set<Name>, n: Name)
    requires Meets(s, t, but) && n in Graves(s) && n !in but
    ensures n in Graves(t) && Graves(t)[n] == Graves(s)[n]
  {
  }

  lemma BootMinuted(cfg: Config, archive: seq<DayRec>, clock: Clock)
    ensures Minuted(Boot(cfg, archive, clock)) && Strayed(Boot(cfg, archive, clock)) == 0
  {
    hide RecentMsgs, Last, MaxId;
    assert Chron([]) == [];
  }
}
