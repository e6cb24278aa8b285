/** Message ids over restarts: what a restarted hub numbers on from, and when that is above
    everything recorded, or above everything handed out. */
module LawNumbers {
  import opened Types
  import opened HubState
  import opened HubSpec
  import opened HubFrames
  import opened LawMail
  import opened LawMailSteps
  import opened LawRecords
  import opened LawRestart
  import opened LawRoute

  // ------------------------------------------------------------------ one transcript

  /** The records of a whole transcript are numbered in order, up to the counter. */
  ghost predicate Numbered(archive: seq<DayRec>, hi: nat) {
    RecentRises(Recs(archive), hi)
  }

  lemma NumberedGrows(archive: seq<DayRec>, hi: nat, x: DayRec, hi': nat)
    requires Numbered(archive, hi) && hi < x.rec.id <= hi' && x.rec.text.Words?
    ensures Numbered(archive + [x], hi')
  {
    RecsGrow(archive, x);
  }

  lemma KinNumbered(s: State, t: State)
    requires Numbered(s.archive, s.msgCounter) && Kin(s, t)
    ensures Numbered(t.archive, t.msgCounter)
  {
    hide Recs, Seats, Trace;
  }

  lemma RegisterNumbered(e: Env, s: State, n: Name, f: SayFrame)
    requires n in s.regs && Numbered(s.archive, s.msgCounter)
    ensures Numbered(Register(e, s, n, f).archive, Register(e, s, n, f).msgCounter)
  {
    hide Register, Numbered;
    RegisterFrame(e, s, n, f);
    NumberedGrows(s.archive, s.msgCounter, DayRec(s.clock.day, RecordOf(NewMsg(s, n, f))), s.msgCounter + 1);
  }

  lemma ChargedNumbered(e: Env, s: State, n: Name, f: SayFrame)
    requires n in s.regs && Numbered(s.archive, s.msgCounter)
    ensures Numbered(Charged(e, s, n, f).archive, Charged(e, s, n, f).msgCounter)
  {
    hide Register, Numbered, EarlyRefusal, MaySpend, Repeats;
    TwicePut(e, s, n, f);
    RegisterNumbered(e, s, n, f);
    RegisterNumbered(e, Kept(e, s, n, f), n, f);
  }

  lemma SayNumbered(e: Env, s: State, n: Name, f: SayFrame)
    requires e.cfg.Valid() && n in s.regs && Numbered(s.archive, s.msgCounter)
    ensures Numbered(HandleSay(e, s, n, f).archive, HandleSay(e, s, n, f).msgCounter)
  {
    hide HandleSay, Charged, Numbered, Kin, Steady;
    ChargedNumbered(e, s, n, f);
    SaySteady(e, s, n, f);
    SteadyKin(Charged(e, s, n, f), HandleSay(e, s, n, f));
    KinNumbered(Charged(e, s, n, f), HandleSay(e, s, n, f));
  }

  lemma AnswerKin(e: Env, s: State, c: ConnId, r: Reply)
    ensures Kin(s, Answer(e, s, c, r))
  {
    hide Answer, Kin, Steady;
    AnswerSteady(e, s, c, r);
    SteadyKin(s, Answer(e, s, c, r));
  }

  lemma EnteringFiles(e: Env, s: State, c: ConnId, n: Name, kind: string, caps: set<string>)
    ensures Entering(e, s, c, n, kind, caps).archive == s.archive
    ensures Entering(e, s, c, n, kind, caps).msgCounter == s.msgCounter
  {
  }

  lemma HelloNumbered(e: Env, s: State, c: ConnId, n: Name, kind: string, caps: set<string>)
    requires Numbered(s.archive, s.msgCounter)
    ensures Numbered(HandleHello(e, s, c, n, kind, caps).archive, HandleHello(e, s, c, n, kind, caps).msgCounter)
  {
    hide Numbered, Disconnect, Admit, Answer, Entering, Kin, Steady;
    AnswerKin(e, s, c, Err(Malformed, None, None, ""));
    KinNumbered(s, Answer(e, s, c, Err(Malformed, None, None, "")));
    if c !in s.names {
      var t := if s.Live(n) && !s.Connected(n) then Disconnect(e, s, s.regs[n].client) else s;
      if s.Live(n) && !s.Connected(n) {
        DisconnectKin(e, s, s.regs[n].client);
        KinNumbered(s, t);
      }
      if t.Live(n) {
        var r := Err(NameTaken, None, None, Suggestion(n, t.regs.Keys));
        AnswerKin(e, t, c, r);
        KinNumbered(t, Answer(e, t, c, r));
      } else {
        EnteringFiles(e, t, c, n, kind, caps);
        AdmitSteady(e, t, c, n, kind, caps);
        SteadyKin(Entering(e, t, c, n, kind, caps), Admit(e, t, c, n, kind, caps));
        KinNumbered(Entering(e, t, c, n, kind, caps), Admit(e, t, c, n, kind, caps));
      }
    }
  }

  lemma {:induction false} WatchAllNumbered(e: Env, s: State, names: seq<Name>)
    requires Numbered(s.archive, s.msgCounter)
    ensures Numbered(WatchAll(e, s, names).archive, WatchAll(e, s, names).msgCounter)
    decreases names
  {
    hide WatchOne, Kin, Numbered;
    if names != [] {
      var t := if names[0] in s.regs then WatchOne(e, s, names[0]) else s;
      if names[0] in s.regs {
        WatchOneKin(e, s, names[0]);
        KinNumbered(s, t);
      }
      WatchAllNumbered(e, t, names[1..]);
    }
  }

  lemma TickNumbered(e: Env, s: State)
    requires Numbered(s.archive, s.msgCounter)
    ensures Numbered(WatchdogTick(e, s).archive, WatchdogTick(e, s).msgCounter)
  {
    hide Numbered, WatchAll, Emit, QuorumDue, AllQuiet, Expected, Kin;
    var t := ExpireDead(e, s);
    WatchAllNumbered(e, t, t.order);
    var u := WatchAll(e, t, t.order);
    EmitFrame(e, u.(quorumLatched := true), QuorumReached(Expected(u)), None);
    var v := CheckQuorum(e, u);
    EmitFrame(e, v.(stallLatched := true), Stalled(None), None);
  }

  lemma DispatchNumbered(e: Env, s: State, c: ConnId, n: Name, f: Request)
    requires e.cfg.Valid() && n in s.regs && Numbered(s.archive, s.msgCounter)
    ensures Numbered(Dispatch(e, s, c, n, f).archive, Dispatch(e, s, c, n, f).msgCounter)
  {
    hide Numbered, HandleSay, HandleState, HandleCmd, Disconnect, Answer, Kin, Steady, SteadyButBudget;
    match f
    case Say(say) => SayNumbered(e, s, n, say);
    case StateReport(st, detail) =>
      StateSteady(e, s, n, st, detail);
      SteadyKin(s, HandleState(e, s, n, st, detail));
      KinNumbered(s, HandleState(e, s, n, st, detail));
    case Cmd(cmd, q) =>
      CmdSteady(e, s, n, cmd, q);
      SteadyKin(s, HandleCmd(e, s, n, cmd, q));
      KinNumbered(s, HandleCmd(e, s, n, cmd, q));
    case RosterQuery =>
      AnswerKin(e, s, s.regs[n].client, RosterReply);
      KinNumbered(s, Answer(e, s, s.regs[n].client, RosterReply));
    case Bye =>
      DisconnectKin(e, s, c);
      KinNumbered(s, Disconnect(e, s, c));
    case _ =>
  }

  lemma HandleNumbered(e: Env, s: State, c: ConnId, f: Request)
    requires e.cfg.Valid() && Numbered(s.archive, s.msgCounter)
    ensures Numbered(Handle(e, s, c, f).archive, Handle(e, s, c, f).msgCounter)
  {
    hide Numbered, HandleHello, Dispatch, Answer, LifeSign, Kin;
    AnswerKin(e, s, c, Err(Malformed, SeqOf(f), None, ""));
    KinNumbered(s, Answer(e, s, c, Err(Malformed, SeqOf(f), None, "")));
    AnswerKin(e, s, c, Err(Malformed, None, None, ""));
    KinNumbered(s, Answer(e, s, c, Err(Malformed, None, None, "")));
    if WellFormed(f) && f.Hello? {
      HelloNumbered(e, s, c, f.name, f.kind, f.caps);
    } else if WellFormed(f) && c in s.names && s.Live(s.names[c]) {
      LifeSignKin(s, s.names[c]);
      KinNumbered(s, LifeSign(s, s.names[c]));
      DispatchNumbered(e, LifeSign(s, s.names[c]), c, s.names[c], f);
    }
  }

  /** A hub whose whole transcript is numbered in order goes on numbering it in order. */
  lemma StepNumbered(e: Env, s: State, clock: Clock, i: Input)
    requires e.cfg.Valid() && Numbered(s.archive, s.msgCounter)
    ensures Numbered(Step(e, s, clock, i).archive, Step(e, s, clock, i).msgCounter)
  {
    hide Numbered, Handle, Disconnect, WatchdogTick, Kin;
    var t := s.(clock := clock);
    match i
    case Inbound(c, f) => HandleNumbered(e, t, c, f);
    case Closed(c) =>
      DisconnectKin(e, t, c);
      KinNumbered(t, Disconnect(e, t, c));
    case Lost(c) =>
    case Tick => TickNumbered(e, t);
  }

  lemma {:induction false} RunNumbered(e: Env, s: State, run: seq<(Clock, Input)>)
    requires e.cfg.Valid() && Numbered(s.archive, s.msgCounter)
    ensures Numbered(Run(e, s, run).archive, Run(e, s, run).msgCounter)
    decreases run
  {
    hide Step, Numbered;
    if run != [] {
      StepNumbered(e, s, run[0].0, run[0].1);
      RunNumbered(e, Step(e, s, run[0].0, run[0].1), run[1..]);
    }
  }

  // ------------------------------------------------------------------ the restarted counter

  function LastRec(archive: seq<DayRec>): DayRec
    requires archive != []
  {
    archive[|archive| - 1]
  }

  /** A restarted hub numbers on from the last record, if that is from yesterday or today, and
      from 0 otherwise. */
  lemma RestartCounter(cfg: Config, archive: seq<DayRec>, clock: Clock)
    requires Dated(archive, clock.day)
    requires RecentRises(Since(archive, clock.day - 1), MaxId(Since(archive, clock.day - 1)))
    ensures Boot(cfg, archive, clock).msgCounter ==
              if archive != [] && LastRec(archive).day >= clock.day - 1 then LastRec(archive).rec.id else 0
  {
    hide RecentRises, Last, Recs, RecentMsgs;
    TwoFiles(archive, clock.day);
    var recs := Since(archive, clock.day - 1);
    MaxOfRising(recs, MaxId(recs));
    if archive != [] {
      hide Dated;
      if LastRec(archive).day < clock.day - 1 {
        NoneSince(archive, clock.day - 1) by { OldLast(archive, clock.day, clock.day - 1); }
      }
    }
  }

  lemma OldLast(archive: seq<DayRec>, today: int, day: int)
    requires archive != [] && Dated(archive, today) && LastRec(archive).day < day
    ensures forall i :: 0 <= i < |archive| ==> archive[i].day < day
  {
  }

  /** Over the whole transcript: a restarted hub numbers on from above every recorded id if and
      only if nothing is recorded, or the last record is from yesterday or today and carries
      the largest id. */
  lemma RestartAboveTranscript(cfg: Config, archive: seq<DayRec>, clock: Clock)
    requires Dated(archive, clock.day)
    requires RecentRises(Since(archive, clock.day - 1), MaxId(Since(archive, clock.day - 1)))
    requires forall i :: 0 <= i < |archive| ==> archive[i].rec.id >= 1
    ensures (forall i :: 0 <= i < |archive| ==> archive[i].rec.id <= Boot(cfg, archive, clock).msgCounter)
            <==> archive == [] || (LastRec(archive).day >= clock.day - 1
                                   && forall i :: 0 <= i < |archive| ==> archive[i].rec.id <= LastRec(archive).rec.id)
  {
    hide RecentRises, Since, MaxId, Boot;
    RestartCounter(cfg, archive, clock);
    if archive != [] {
      assert archive[|archive| - 1].rec.id >= 1;
    }
  }

  /** Over everything handed out, notes from the hub included: a restarted hub numbers on from
      above every id of the running one if and only if that has not used any, or the last one
      it used is that of the last record, from yesterday or today. */
  lemma RestartNumbersOn(e: Env, epoch: int, s: State, clock: Clock)
    requires Records(e, epoch, s) && s.clock.day <= clock.day && epoch <= clock.day - 1 && clock.mono >= 0.0
    ensures s.msgCounter <= Boot(e.cfg, s.archive, clock).msgCounter
            <==> s.msgCounter == 0
                 || (s.archive != [] && LastRec(s.archive).day >= clock.day - 1
                    && LastRec(s.archive).rec.id == s.msgCounter)
    ensures Boot(e.cfg, s.archive, clock).msgCounter <= s.msgCounter
  {
    RestartStarts(e, epoch, s, clock);
    hide AllHonest, QuorumTold, LastSaysReal, MaxId, Boot;
    RestartCounter(e.cfg, s.archive, clock);
    if s.archive != [] && LastRec(s.archive).day >= clock.day - 1 {
      LastIsIssued(e.cfg, epoch, s, clock);
    }
  }

  lemma LastIsIssued(cfg: Config, epoch: int, s: State, clock: Clock)
    requires WindowKept(cfg, epoch, s.recent, s.archive, s.msgCounter, s.clock.day) && epoch <= clock.day - 1
    requires s.archive != [] && LastRec(s.archive).day >= clock.day - 1
    ensures 1 <= LastRec(s.archive).rec.id <= s.msgCounter
  {
    var recs := Since(s.archive, epoch);
    assert recs[|recs| - 1] == LastRec(s.archive).rec;
  }

  /** A transcript numbered in order: above every recorded id exactly if the last record is
      from yesterday or today, or there is none. */
  lemma NumberedRestart(cfg: Config, archive: seq<DayRec>, hi: nat, clock: Clock)
    requires Numbered(archive, hi) && Dated(archive, clock.day)
    ensures RecentRises(Since(archive, clock.day - 1), MaxId(Since(archive, clock.day - 1)))
    ensures var b := Boot(cfg, archive, clock);
            (forall i :: 0 <= i < |archive| ==> archive[i].rec.id <= b.msgCounter)
            <==> archive == [] || LastRec(archive).day >= clock.day - 1
    ensures archive == [] || LastRec(archive).day >= clock.day - 1 ==>
              Numbered(archive, Boot(cfg, archive, clock).msgCounter)
  {
    hide Since, MaxId, Boot, Dated;
    var k := SinceIsSuffix(archive, clock.day - 1, clock.day);
    assert Recs(archive)[0..] == Recs(archive);
    RecsLength(archive);
    RisingSuffix(Recs(archive), 0, k, hi);
    MaxOfRising(Since(archive, clock.day - 1), hi);
    NumberedIds(archive, hi);
    RestartAboveTranscript(cfg, archive, clock);
    RestartCounter(cfg, archive, clock);
  }

  lemma NumberedIds(archive: seq<DayRec>, hi: nat)
    requires Numbered(archive, hi)
    ensures forall i :: 0 <= i < |archive| ==>
              1 <= archive[i].rec.id <= hi && archive[i].rec.id <= LastRec(archive).rec.id
    ensures archive != [] ==> Numbered(archive, LastRec(archive).rec.id)
  {
    forall i | 0 <= i < |archive|
      ensures 1 <= archive[i].rec.id <= hi && archive[i].rec.id <= LastRec(archive).rec.id
    {
      assert Recs(archive)[i] == archive[i].rec && Recs(archive)[|archive| - 1] == LastRec(archive).rec;
    }
  }

  // ------------------------------------------------------------------ ids that come again

  /** Old files only: the two files the hub reads are empty, and a recorded id comes again. */
  lemma OldIdsComeAgain(cfg: Config)
    requires cfg.Valid()
    ensures var archive := [DayRec(1, Rec(7, "ann", EVERYONE, "chat", Words("hi"), 0.0, false))];
            var b := Boot(cfg, archive, Clock(0.0, 0.0, 10));
            b.recent == [] && b.msgCounter < archive[0].rec.id
  {
    var archive := [DayRec(1, Rec(7, "ann", EVERYONE, "chat", Words("hi"), 0.0, false))];
    NoneOnDay(archive, 9);
    NoneOnDay(archive, 10);
  }

  /** The first agent of a list is given the note with the very next id. */
  lemma {:induction false} FirstNoted(e: Env, s: State, names: seq<Name>, text: Text) returns (x: Name)
    requires Distinct(names) && exists n :: n in names && n in s.regs && !s.regs[n].IsObserver()
    ensures var t := SystemMessage(e, s, names, text);
            && x in s.regs && !s.regs[x].IsObserver() && x in names && x in t.regs && s.msgCounter < t.msgCounter
            && t.regs[x].box.routed == s.regs[x].box.routed + multiset{NoteOf(s, s.msgCounter + 1, x, text)}
    decreases names
  {
    hide SystemOne, NoteOf, SystemMessage;
    var n, rest := names[0], names[1..];
    var t := if n in s.regs then SystemOne(e, s, n, text) else s;
    assert SystemMessage(e, s, names, text) == SystemMessage(e, t, rest, text) by { SystemUnfolds(e, s, names, text); }
    if n in s.regs && !s.regs[n].IsObserver() {
      x := n;
      SystemOneReaches(e, s, n, text, n);
      var id := SystemReaches(e, t, rest, text, n);
    } else {
      var y :| y in names && y in s.regs && !s.regs[y].IsObserver();
      assert y in rest;
      if n in s.regs {
        SystemOneReaches(e, s, n, text, y);
        ObserverSkipped(e, s, n, text);
      }
      x := FirstNoted(e, t, rest, text);
    }
  }

  lemma SystemUnfolds(e: Env, s: State, names: seq<Name>, text: Text)
    requires names != []
    ensures var t := if names[0] in s.regs then SystemOne(e, s, names[0], text) else s;
            SystemMessage(e, s, names, text) == SystemMessage(e, t, names[1..], text)
  {
    hide SystemOne;
  }

  lemma ObserverSkipped(e: Env, s: State, n: Name, text: Text)
    requires n in s.regs && s.regs[n].IsObserver()
    ensures SystemOne(e, s, n, text) == s
  {
  }

  /** A restart after a mute: up to the mute the restarted hub would have numbered on from
      above everything; the notes of the mute take ids, no record keeps them, and the next id
      the restarted hub gives is one it has already sent to an agent. */
  lemma MuteIdsComeAgain(e: Env, epoch: int, s: State, c: ConnId, q: Option<int>, clock: Clock) returns (x: Name)
    requires e.cfg.Valid() && Sound(e, s) && Records(e, epoch, s)
    requires s.clock.day <= clock.day && epoch <= clock.day - 1 && clock.mono >= 0.0
    requires s.msgCounter <= Boot(e.cfg, s.archive, clock).msgCounter
    requires c in s.names && s.IsObserverName(s.names[c]) && exists n :: n in s.order && s.IsAgent(n)
    ensures var t := Step(e, s, s.clock, Inbound(c, Cmd(Mute, q)));
            var b := Boot(e.cfg, t.archive, clock);
            && t.archive == s.archive && t.recent == s.recent && b.msgCounter < t.msgCounter
            && s.IsAgent(x) && x in t.regs && NoteOf(s, b.msgCounter + 1, x, MuteNote(true)) in t.regs[x].box.routed
  {
    hide Boot, Step, Seated, MailOk, Records, NoteOf;
    RestartNumbersOn(e, epoch, s, clock);
    assert Distinct(s.order) by { SeatedDistinct(s); }
    x := MuteNotes(e, s, c, q);
  }

  /** A mute hands the next id to an agent and records nothing. */
  lemma MuteNotes(e: Env, s: State, c: ConnId, q: Option<int>) returns (x: Name)
    requires e.cfg.Valid() && Distinct(s.order)
    requires c in s.names && s.IsObserverName(s.names[c]) && exists n :: n in s.order && s.IsAgent(n)
    ensures var t := Step(e, s, s.clock, Inbound(c, Cmd(Mute, q)));
            && t.archive == s.archive && t.recent == s.recent && s.msgCounter < t.msgCounter
            && s.IsAgent(x) && x in t.regs && NoteOf(s, s.msgCounter + 1, x, MuteNote(true)) in t.regs[x].box.routed
  {
    hide Emit, NoteOf, SystemMessage, LifeSign, Seats, Trace, Step;
    var n := s.names[c];
    var u := LifeSign(s, n);
    LifeSignIs(s, n);
    var v := Emit(e, u.(muted := true), MutedOn, None);
    EmitFrame(e, u.(muted := true), MutedOn, None);
    x := FirstNoted(e, v, v.order, MuteNote(true));
    SystemSteady(e, v, v.order, MuteNote(true));
    MuteStep(e, s, c, q);
    NoteTime(s, v, s.msgCounter + 1, x, MuteNote(true));
  }

  lemma SeatedDistinct(s: State)
    requires Seated(s)
    ensures Distinct(s.order)
  {
  }

  lemma LifeSignIs(s: State, n: Name)
    requires n in s.regs
    ensures var u := LifeSign(s, n);
            && u.order == s.order && u.regs.Keys == s.regs.Keys && u.clock == s.clock && u.archive == s.archive
            && u.recent == s.recent && u.msgCounter == s.msgCounter
            && (forall m :: m in s.regs ==> u.regs[m].kind == s.regs[m].kind && u.regs[m].box == s.regs[m].box)
  {
  }

  lemma MuteStep(e: Env, s: State, c: ConnId, q: Option<int>)
    requires e.cfg.Valid() && c in s.names && s.IsObserverName(s.names[c])
    ensures var v := Emit(e, LifeSign(s, s.names[c]).(muted := true), MutedOn, None);
            var w := SystemMessage(e, v, v.order, MuteNote(true));
            var t := Step(e, s, s.clock, Inbound(c, Cmd(Mute, q)));
            t.regs == w.regs && t.archive == w.archive && t.recent == w.recent && t.msgCounter == w.msgCounter
  {
    hide Emit, SystemMessage;
    assert s.(clock := s.clock) == s;
  }
}
