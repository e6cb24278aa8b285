/** What is kept about what was said: the budget and the duplicate window of every
    registration, the quorum, and the recent window over the transcript. */
module LawRecords {
  import opened Types
  import opened HubState
  import opened HubSpec
  import opened HubFrames
  import opened LawMail
  import opened LawMailSteps
  import Bucket
  import Dedup
  import Names

  // ------------------------------------------------------------------ budget and duplicates

  function Times(h: seq<Dedup.Said>): seq<real> {
    seq(|h|, i requires 0 <= i < |h| => h[i].at)
  }

  /** Bucket and duplicate window agree with the full history of accepted says. */
  predicate Honest(cfg: Config, now: real, p: Seat) {
    && Bucket.Ledger(cfg.rateBurst as real, cfg.ratePerSecond, p.bucket, Times(p.says))
    && p.bucket.last <= now
    && Dedup.Remembers(cfg.dedupWindow, now, p.dedup, p.says)
  }

  predicate AllHonest(cfg: Config, now: real, seats: map<Name, Seat>) {
    forall n :: n in seats ==> Honest(cfg, now, seats[n])
  }

  // ------------------------------------------------------------------ quorum

  predicate Asks(x: Note) {
    x.SayAccepted? && x.asked != {}
  }

  /** The last say that asked agents something. */
  function LastAsk(tr: seq<Note>): Option<Note> {
    if tr == [] then None
    else if Asks(tr[|tr| - 1]) then Some(tr[|tr| - 1])
    else LastAsk(tr[..|tr| - 1])
  }

  /** Whether a quorum event followed the last such say. */
  function Answered(tr: seq<Note>): bool {
    if tr == [] then false
    else if Asks(tr[|tr| - 1]) then false
    else tr[|tr| - 1].Happened? || Answered(tr[..|tr| - 1])
  }

  predicate SaysAt(x: Note, n: Name, at: real) {
    x.SayAccepted? && x.rec.sender == n && x.at == at
  }

  predicate SaidAt(tr: seq<Note>, n: Name, at: real) {
    exists k :: 0 <= k < |tr| && SaysAt(tr[k], n, at)
  }

  predicate SaidAfter(tr: seq<Note>, n: Name, at: real) {
    exists k :: 0 <= k < |tr| && tr[k].SayAccepted? && tr[k].rec.sender == n && tr[k].at > at
  }

  /** A quorum event is the first since the say it answers, and names only agents that say
      asked and that have had a say accepted strictly later. */
  predicate RightlyFired(before: seq<Note>, x: Note)
    requires x.Happened? && x.event.QuorumReached?
  {
    && !Answered(before)
    && LastAsk(before).Some?
    && LastAsk(before).value.SayAccepted?
    && x.event.names != {}
    && (forall n :: n in x.event.names ==>
          n in LastAsk(before).value.asked && SaidAfter(before, n, LastAsk(before).value.at))
  }

  predicate IsQuorum(x: Note) {
    x.Happened? && x.event.QuorumReached?
  }

  predicate AllRightlyFired(tr: seq<Note>) {
    forall i :: 0 <= i < |tr| && IsQuorum(tr[i]) ==> RightlyFired(tr[..i], tr[i])
  }

  predicate QuorumTold(tr: seq<Note>, at: Option<real>, expected: set<Name>, latched: bool) {
    && AllRightlyFired(tr)
    && latched == Answered(tr)
    && match LastAsk(tr) {
         case None => at == None
         case Some(x) => x.SayAccepted? && at == Some(x.at) && x.at >= 0.0 && expected == x.asked
       }
  }

  /** The time kept as a participant's last say is that of a say of its. */
  predicate LastSaysReal(tr: seq<Note>, seats: map<Name, Seat>) {
    forall n :: n in seats ==> seats[n].lastSay == 0.0 || SaidAt(tr, n, seats[n].lastSay)
  }

  // ------------------------------------------------------------------ transcript

  predicate Dated(archive: seq<DayRec>, today: int) {
    && (forall i, j :: 0 <= i < j < |archive| ==> archive[i].day <= archive[j].day)
    && (forall i :: 0 <= i < |archive| ==> archive[i].day <= today)
  }

  /** The records from a day on. */
  function Since(archive: seq<DayRec>, day: int): seq<Rec> {
    if archive == [] then []
    else
      var x := archive[|archive| - 1];
      Since(archive[..|archive| - 1], day) + (if x.day >= day then [x.rec] else [])
  }

  /** The recent window is the end of what the transcript holds since the day before the
      hub started. */
  ghost predicate WindowKept(cfg: Config, epoch: int, recent: seq<Rec>, archive: seq<DayRec>, hi: nat, today: int) {
    && epoch <= today
    && Dated(archive, today)
    && RecentRises(Since(archive, epoch), hi)
    && recent == Last(Since(archive, epoch), cfg.recentWindow)
  }

  // ------------------------------------------------------------------ the invariant

  ghost predicate Records(e: Env, epoch: int, s: State) {
    && s.clock.mono >= 0.0
    && AllHonest(e.cfg, s.clock.mono, Seats(s.regs))
    && QuorumTold(Trace(s.log), s.lastObserverSay, s.quorumExpected, s.quorumLatched)
    && LastSaysReal(Trace(s.log), Seats(s.regs))
    && WindowKept(e.cfg, epoch, s.recent, s.archive, s.msgCounter, s.clock.day)
  }

  /** Nothing that is kept about what was said changes. */
  ghost predicate Kin(s: State, t: State) {
    && Seats(t.regs) == Seats(s.regs) && Trace(t.log) == Trace(s.log)
    && t.clock == s.clock && s.msgCounter <= t.msgCounter
    && t.recent == s.recent && t.archive == s.archive
    && t.lastObserverSay == s.lastObserverSay && t.quorumExpected == s.quorumExpected
    && t.quorumLatched == s.quorumLatched
  }

  lemma KinRecords(e: Env, epoch: int, s: State, t: State)
    requires Records(e, epoch, s) && Kin(s, t)
    ensures Records(e, epoch, t)
    ensures t.clock == s.clock
  {
    hide AllHonest, QuorumTold, LastSaysReal, Since, Dated, Seats, Trace;
  }

  lemma SteadyKin(s: State, t: State)
    requires Steady(s, t) || SteadyButBudget(s, t)
    ensures Kin(s, t)
  {
    hide Seats, Trace;
  }

  lemma KinTrans(s: State, t: State, u: State)
    requires Kin(s, t) && Kin(t, u)
    ensures Kin(s, u)
  {
    hide Seats, Trace;
  }

  lemma GoneKin(s: State, gone: set<ConnId>)
    ensures Kin(s, s.(gone := gone))
  {
    hide Seats, Trace;
  }

  lemma LifeSignKin(s: State, n: Name)
    requires n in s.regs
    ensures Kin(s, LifeSign(s, n)) && n in LifeSign(s, n).regs
  {
    hide Seats, Trace;
    PutSeats(s.regs, n, s.regs[n].(lastRx := s.clock.mono, awaitingPong := false));
  }

  lemma DisconnectKin(e: Env, s: State, c: ConnId)
    ensures Kin(s, Disconnect(e, s, c))
  {
    hide Seats, Trace, Without, Emit, CheckSessionDone;
    DisconnectSeats(e, s, c);
    if Holds(s, c) {
      var n := s.names[c];
      var left := s.(order := Without(s.order, n), blockedNotified := s.blockedNotified - {n}).Touch();
      EmitSteady(e, left, PeerLeft(n), None);
      ChecksSteady(e, Emit(e, left, PeerLeft(n), None));
    }
  }

  // ------------------------------------------------------------------ time passes

  lemma HonestLater(cfg: Config, now: real, later: real, p: Seat)
    requires Honest(cfg, now, p) && now <= later
    ensures Honest(cfg, later, p)
  {
    hide Bucket.Ledger, Times, Dedup.Spaced, Dedup.KeyOf;
  }

  lemma ClockRecords(e: Env, epoch: int, s: State, clock: Clock)
    requires Records(e, epoch, s) && Later(s.clock, clock)
    ensures Records(e, epoch, s.(clock := clock))
  {
    hide Honest, QuorumTold, LastSaysReal, Since, Seats, Trace;
    forall n | n in Seats(s.regs)
      ensures Honest(e.cfg, clock.mono, Seats(s.regs)[n])
    {
      HonestLater(e.cfg, s.clock.mono, clock.mono, Seats(s.regs)[n]);
    }
  }

  // ------------------------------------------------------------------ a say is charged

  lemma TimesGrow(h: seq<Dedup.Said>, x: Dedup.Said)
    ensures Times(h + [x]) == Times(h) + [x.at]
  {
  }

  lemma SpendHonest(e: Env, s: State, p: Part)
    requires e.cfg.Valid() && Honest(e.cfg, s.clock.mono, SeatOf(p))
    ensures Honest(e.cfg, s.clock.mono, SeatOf(Spend(e, s, p)))
  {
    hide Bucket.Ledger, Dedup.Remembers, Times;
    Bucket.SpendKeepsLedger(e.cfg.rateBurst as real, e.cfg.ratePerSecond, p.bucket, Times(p.says), s.clock.mono);
  }

  function ToSaid(s: State, f: SayFrame): Dedup.Said {
    Dedup.Said(s.clock.mono, f.to, f.text, f.private)
  }

  lemma RepeatHonest(e: Env, s: State, p: Part, f: SayFrame)
    requires e.cfg.Valid() && Honest(e.cfg, s.clock.mono, SeatOf(p)) && Dedup.OneLine(f.to)
    requires Repeats(e, s, p, f)
    ensures Honest(e.cfg, s.clock.mono, SeatOf(Remember(e, s, Spend(e, s, p), f)))
  {
    hide Bucket.Ledger, Dedup.Remembers, Times, Dedup.Expire, Dedup.Key, Dedup.AfterSeen, Bucket.AfterTake;
    SpendHonest(e, s, p);
    Dedup.SeenKeepsHistory(e.cfg.dedupWindow, s.clock.mono, p.dedup, p.says, ToSaid(s, f));
  }

  lemma KeepHonest(e: Env, s: State, p: Part, f: SayFrame)
    requires e.cfg.Valid() && Honest(e.cfg, s.clock.mono, SeatOf(p)) && Dedup.OneLine(f.to)
    requires MaySpend(e, s, p) && !Repeats(e, s, p, f)
    ensures Honest(e.cfg, s.clock.mono, SeatOf(Remember(e, s, Spend(e, s, p), f).(says := p.says + [ToSaid(s, f)])))
  {
    hide Bucket.Ledger, Dedup.Remembers, Times, Dedup.Expire, Dedup.Key, Bucket.CanTake, Dedup.AfterSeen;
    Bucket.TakeKeepsLedger(e.cfg.rateBurst as real, e.cfg.ratePerSecond, p.bucket, Times(p.says), s.clock.mono);
    TimesGrow(p.says, ToSaid(s, f));
    Dedup.SeenKeepsHistory(e.cfg.dedupWindow, s.clock.mono, p.dedup, p.says, ToSaid(s, f));
    TakeLast(e.cfg.rateBurst as real, e.cfg.ratePerSecond, p.bucket, s.clock.mono);
  }

  lemma TakeLast(capacity: real, rate: real, t: Bucket.Tokens, now: real)
    requires t.last <= now
    ensures Bucket.AfterTake(capacity, rate, t, now).last <= now
  {
  }

  lemma PutHonest(cfg: Config, now: real, regs: map<Name, Part>, n: Name, p: Part)
    requires AllHonest(cfg, now, Seats(regs)) && Honest(cfg, now, SeatOf(p))
    ensures AllHonest(cfg, now, Seats(regs[n := p]))
  {
    hide Honest;
    var all := Seats(regs[n := p]);
    forall m | m in all
      ensures Honest(cfg, now, all[m])
    {
      assert m != n ==> all[m] == Seats(regs)[m];
    }
  }

  lemma AddressLine(s: State, p: Part, f: SayFrame)
    requires Seated(s) && EarlyRefusal(s, p, f) == None
    ensures Dedup.OneLine(f.to)
  {
    if f.to != EVERYONE {
      Names.ValidNameFacts(f.to);
    }
  }

  lemma ChargedHonest(e: Env, s: State, n: Name, f: SayFrame)
    requires e.cfg.Valid() && n in s.regs && Seated(s) && AllHonest(e.cfg, s.clock.mono, Seats(s.regs))
    ensures AllHonest(e.cfg, s.clock.mono, Seats(Charged(e, s, n, f).regs))
  {
    hide Honest, Spend, Remember, MaySpend, Repeats, Seats, Seated, EarlyRefusal, AllHonest;
    var p := s.regs[n];
    assert Honest(e.cfg, s.clock.mono, SeatOf(p)) by { HonestAt(e.cfg, s.clock.mono, s.regs, n); }
    if EarlyRefusal(s, p, f) == None {
      AddressLine(s, p, f);
      SaysHonest(e, s, n, f);
    }
  }

  lemma HonestAt(cfg: Config, now: real, regs: map<Name, Part>, n: Name)
    requires AllHonest(cfg, now, Seats(regs)) && n in regs
    ensures Honest(cfg, now, SeatOf(regs[n]))
  {
    hide Honest;
    assert Seats(regs)[n] == SeatOf(regs[n]);
  }

  lemma SaysHonest(e: Env, s: State, n: Name, f: SayFrame)
    requires e.cfg.Valid() && n in s.regs && AllHonest(e.cfg, s.clock.mono, Seats(s.regs)) && Dedup.OneLine(f.to)
    requires Honest(e.cfg, s.clock.mono, SeatOf(s.regs[n])) && EarlyRefusal(s, s.regs[n], f) == None
    ensures AllHonest(e.cfg, s.clock.mono, Seats(Charged(e, s, n, f).regs))
  {
    hide Honest, Spend, Remember, MaySpend, Repeats, Seats, EarlyRefusal, AllHonest, Register;
    var p := s.regs[n];
    if p.IsObserver() {
      RegisterHonest(e, s, n, f);
    } else if !MaySpend(e, s, p) {
      SpendHonest(e, s, p);
      PutHonest(e.cfg, s.clock.mono, s.regs, n, Spend(e, s, p));
    } else {
      GrantedHonest(e, s, n, f);
    }
  }

  lemma GrantedHonest(e: Env, s: State, n: Name, f: SayFrame)
    requires e.cfg.Valid() && n in s.regs && AllHonest(e.cfg, s.clock.mono, Seats(s.regs)) && Dedup.OneLine(f.to)
    requires Honest(e.cfg, s.clock.mono, SeatOf(s.regs[n])) && MaySpend(e, s, s.regs[n])
    ensures n in Kept(e, s, n, f).regs
    ensures if Repeats(e, s, s.regs[n], f) then AllHonest(e.cfg, s.clock.mono, Seats(Checked(e, s, n, f).regs))
            else AllHonest(e.cfg, s.clock.mono, Seats(Register(e, Kept(e, s, n, f), n, f).regs))
  {
    hide Honest, Spend, Remember, MaySpend, Repeats, Seats, AllHonest, Register;
    var p := s.regs[n];
    TwicePut(e, s, n, f);
    hide Checked, Kept;
    if Repeats(e, s, p, f) {
      RepeatHonest(e, s, p, f);
      PutHonest(e.cfg, s.clock.mono, s.regs, n, Remember(e, s, Spend(e, s, p), f));
    } else {
      KeepHonest(e, s, p, f);
      var q := Remember(e, s, Spend(e, s, p), f).(says := p.says + [ToSaid(s, f)]);
      PutHonest(e.cfg, s.clock.mono, s.regs, n, q);
      RegisterHonest(e, s.Put(n, q), n, f);
    }
  }

  /** The checks write the sender's part step by step; only the last value remains. */
  lemma TwicePut(e: Env, s: State, n: Name, f: SayFrame)
    requires n in s.regs
    ensures var q := Remember(e, s, Spend(e, s, s.regs[n]), f);
            && Checked(e, s, n, f) == s.Put(n, q)
            && Kept(e, s, n, f) == s.Put(n, q.(says := s.regs[n].says + [ToSaid(s, f)]))
  {
    hide Dedup.AfterSeen, Dedup.Key, Bucket.AfterTake;
    var p := Spend(e, s, s.regs[n]);
    var q := Remember(e, s, p, f);
    assert Spent(e, s, n).regs == s.regs[n := p];
    assert s.regs[n := p][n := q] == s.regs[n := q];
    var r := q.(says := s.regs[n].says + [ToSaid(s, f)]);
    assert s.regs[n := q][n := r] == s.regs[n := r];
  }

  lemma RegisterHonest(e: Env, s: State, n: Name, f: SayFrame)
    requires n in s.regs && AllHonest(e.cfg, s.clock.mono, Seats(s.regs))
    ensures AllHonest(e.cfg, s.clock.mono, Seats(Register(e, s, n, f).regs))
  {
    hide Honest, AllHonest, Seats, Register;
    RegisterFrame(e, s, n, f);
    var q := s.regs[n].(lastSay := s.clock.mono);
    HonestAt(e.cfg, s.clock.mono, s.regs, n);
    assert Honest(e.cfg, s.clock.mono,
           SeatOf(q)) by { LastSayHonest(e.cfg, s.clock.mono, SeatOf(s.regs[n]), s.clock.mono); }
    PutHonest(e.cfg, s.clock.mono, s.regs, n, q);
  }

  lemma LastSayHonest(cfg: Config, now: real, p: Seat, at: real)
    ensures Honest(cfg, now, p.(lastSay := at)) == Honest(cfg, now, p)
  {
  }

  // ------------------------------------------------------------------ a say and the quorum

  lemma LastOf(tr: seq<Note>, x: Note)
    ensures LastAsk(tr + [x]) == (if Asks(x) then Some(x) else LastAsk(tr))
    ensures Answered(tr + [x]) == (!Asks(x) && (x.Happened? || Answered(tr)))
  {
    assert (tr + [x])[..|tr|] == tr;
  }

  lemma FiredGrows(tr: seq<Note>, x: Note)
    requires AllRightlyFired(tr) && (IsQuorum(x) ==> RightlyFired(tr, x))
    ensures AllRightlyFired(tr + [x])
  {
    hide RightlyFired;
    var g := tr + [x];
    forall i | 0 <= i < |g| && IsQuorum(g[i])
      ensures RightlyFired(g[..i], g[i])
    {
      if i < |tr| {
        assert g[..i] == tr[..i];
      } else {
        assert g[..i] == tr;
      }
    }
  }

  lemma SaidGrows(tr: seq<Note>, x: Note, seats: map<Name, Seat>)
    requires LastSaysReal(tr, seats)
    ensures LastSaysReal(tr + [x], seats)
  {
    forall n | n in seats && seats[n].lastSay != 0.0
      ensures SaidAt(tr + [x], n, seats[n].lastSay)
    {
      var k :| 0 <= k < |tr| && SaysAt(tr[k], n, seats[n].lastSay);
      assert (tr + [x])[k] == tr[k];
    }
  }

  lemma RegisterTrace(e: Env, s: State, n: Name, f: SayFrame)
    requires n in s.regs
    ensures var t, asked := Register(e, s, n, f), AskedBy(s, n, f);
            && Trace(t.log) == Trace(s.log) + [SayNote(s, n, f)]
            && t.lastObserverSay == (if asked == {} then s.lastObserverSay else Some(s.clock.mono))
            && t.quorumExpected == (if asked == {} then s.quorumExpected else asked)
            && t.quorumLatched == (asked == {} && s.quorumLatched)
  {
    hide AskedBy, Trace;
    TraceGrows(s.log, SayNote(s, n, f));
  }

  lemma RegisterQuorum(e: Env, s: State, n: Name, f: SayFrame)
    requires n in s.regs && s.clock.mono >= 0.0
    requires QuorumTold(Trace(s.log), s.lastObserverSay, s.quorumExpected, s.quorumLatched)
    ensures var t := Register(e, s, n, f);
            QuorumTold(Trace(t.log), t.lastObserverSay, t.quorumExpected, t.quorumLatched)
  {
    hide Register, Trace, AskedBy, AllRightlyFired, LastAsk, Answered;
    RegisterTrace(e, s, n, f);
    var x := SayNote(s, n, f);
    LastOf(Trace(s.log), x);
    FiredGrows(Trace(s.log), x);
  }

  lemma RegisterLastSay(e: Env, s: State, n: Name, f: SayFrame)
    requires n in s.regs && LastSaysReal(Trace(s.log), Seats(s.regs))
    ensures LastSaysReal(Trace(Register(e, s, n, f).log), Seats(Register(e, s, n, f).regs))
  {
    hide Register, Trace, AskedBy, LastSaysReal, Seats;
    RegisterTrace(e, s, n, f);
    RegisterFrame(e, s, n, f);
    var x := SayNote(s, n, f);
    SaidGrows(Trace(s.log), x, Seats(s.regs));
    OwnSay(Trace(s.log) + [x], s.regs, n, s.regs[n].(lastSay := s.clock.mono));
  }

  lemma OwnSay(tr: seq<Note>, regs: map<Name, Part>, n: Name, p: Part)
    requires LastSaysReal(tr, Seats(regs)) && |tr| > 0 && SaysAt(tr[|tr| - 1], n, p.lastSay)
    ensures LastSaysReal(tr, Seats(regs[n := p]))
  {
    hide SaysAt;
    var all := Seats(regs[n := p]);
    forall m | m in all && all[m].lastSay != 0.0
      ensures SaidAt(tr, m, all[m].lastSay)
    {
      if m != n {
        assert all[m] == Seats(regs)[m];
      } else {
        assert all[m] == SeatOf(p);
      }
    }
  }

  // ------------------------------------------------------------------ a say and the transcript

  lemma SinceGrows(archive: seq<DayRec>, x: DayRec, day: int)
    ensures Since(archive + [x], day) == Since(archive, day) + (if x.day >= day then [x.rec] else [])
  {
    assert (archive + [x])[..|archive|] == archive;
  }

  /** Cutting to the window at every step is cutting once at the end. */
  lemma LastLast<T>(xs: seq<T>, x: T, k: nat)
    requires k >= 1
    ensures Last(Last(xs, k) + [x], k) == Last(xs + [x], k)
  {
  }

  lemma RegisterWindow(e: Env, epoch: int, s: State, n: Name, f: SayFrame)
    requires e.cfg.Valid() && n in s.regs && WindowKept(e.cfg, epoch, s.recent, s.archive, s.msgCounter, s.clock.day)
    ensures var t := Register(e, s, n, f);
            WindowKept(e.cfg, epoch, t.recent, t.archive, t.msgCounter, t.clock.day)
  {
    hide Register, Last, Since;
    RegisterFrame(e, s, n, f);
    var rec := RecordOf(NewMsg(s, n, f));
    SinceGrows(s.archive, DayRec(s.clock.day, rec), epoch);
    LastLast(Since(s.archive, epoch), rec, e.cfg.recentWindow);
  }

  /** Everything but the registrations' budgets. */
  ghost predicate Chronicle(e: Env, epoch: int, s: State) {
    && s.clock.mono >= 0.0
    && QuorumTold(Trace(s.log), s.lastObserverSay, s.quorumExpected, s.quorumLatched)
    && LastSaysReal(Trace(s.log), Seats(s.regs))
    && WindowKept(e.cfg, epoch, s.recent, s.archive, s.msgCounter, s.clock.day)
  }

  lemma RegisterChronicle(e: Env, epoch: int, s: State, n: Name, f: SayFrame)
    requires e.cfg.Valid() && n in s.regs && Chronicle(e, epoch, s)
    ensures Chronicle(e, epoch, Register(e, s, n, f))
  {
    hide Register, WindowKept, LastSaysReal, QuorumTold, AllHonest, Trace, Seats;
    RegisterFrame(e, s, n, f);
    RegisterQuorum(e, s, n, f);
    RegisterLastSay(e, s, n, f);
    RegisterWindow(e, epoch, s, n, f);
  }

  lemma PutChronicle(e: Env, epoch: int, s: State, n: Name, p: Part)
    requires Chronicle(e, epoch, s) && n in s.regs && p.lastSay == s.regs[n].lastSay
    ensures Chronicle(e, epoch, s.Put(n, p))
  {
    hide WindowKept, QuorumTold, Trace, SaidAt, Seats;
    PutLastSay(Trace(s.log), s.regs, n, p);
  }

  lemma PutLastSay(tr: seq<Note>, regs: map<Name, Part>, n: Name, p: Part)
    requires LastSaysReal(tr, Seats(regs)) && n in regs && p.lastSay == regs[n].lastSay
    ensures LastSaysReal(tr, Seats(regs[n := p]))
  {
    hide SaidAt;
    var all := Seats(regs[n := p]);
    forall m | m in all && all[m].lastSay != 0.0
      ensures SaidAt(tr, m, all[m].lastSay)
    {
      assert Seats(regs)[m].lastSay == all[m].lastSay;
    }
  }

  lemma ChargedChronicle(e: Env, epoch: int, s: State, n: Name, f: SayFrame)
    requires e.cfg.Valid() && n in s.regs && Chronicle(e, epoch, s)
    ensures Chronicle(e, epoch, Charged(e, s, n, f))
  {
    hide Chronicle, Register, MaySpend, Repeats, EarlyRefusal, Dedup.AfterSeen, Bucket.AfterTake;
    TwicePut(e, s, n, f);
    PutChronicle(e, epoch, s, n, Spend(e, s, s.regs[n]));
    var q := Remember(e, s, Spend(e, s, s.regs[n]), f);
    PutChronicle(e, epoch, s, n, q);
    var r := q.(says := s.regs[n].says + [ToSaid(s, f)]);
    PutChronicle(e, epoch, s, n, r);
    RegisterChronicle(e, epoch, s, n, f);
    RegisterChronicle(e, epoch, s.Put(n, r), n, f);
  }

  lemma ChargedClock(e: Env, s: State, n: Name, f: SayFrame)
    requires n in s.regs
    ensures Charged(e, s, n, f).clock == s.clock
  {
    hide EarlyRefusal, MaySpend, Repeats, Register, Dedup.AfterSeen, Bucket.AfterTake;
    RegisterFrame(e, s, n, f);
    TwicePut(e, s, n, f);
    RegisterFrame(e, Kept(e, s, n, f), n, f);
  }

  lemma SayRecords(e: Env, epoch: int, s: State, n: Name, f: SayFrame)
    requires e.cfg.Valid() && n in s.regs && Seated(s) && Records(e, epoch, s)
    ensures Records(e, epoch, HandleSay(e, s, n, f))
    ensures HandleSay(e, s, n, f).clock == s.clock
  {
    hide Charged, HandleSay, AllHonest, LastSaysReal, QuorumTold, WindowKept, Seated, Seats, Trace, Kin, Steady;
    ChargedHonest(e, s, n, f);
    ChargedChronicle(e, epoch, s, n, f);
    ChargedClock(e, s, n, f);
    SaySteady(e, s, n, f);
    var t := Charged(e, s, n, f);
    assert Records(e, epoch, t);
    SteadyKin(t, HandleSay(e, s, n, f));
    KinRecords(e, epoch, t, HandleSay(e, s, n, f));
  }

  // ------------------------------------------------------------------ joining and expiring

  lemma FreshHonest(e: Env, s: State, n: Name, kind: string, caps: set<string>, c: ConnId)
    requires e.cfg.Valid()
    ensures Honest(e.cfg, s.clock.mono, SeatOf(FreshPart(e, s, n, kind, caps, c)))
  {
  }

  lemma RejoinHonest(cfg: Config, now: real, s: State, p: Part, kind: string, caps: set<string>, c: ConnId)
    ensures Honest(cfg, now, SeatOf(Reclaimed(s, p, kind, caps, c))) == Honest(cfg, now, SeatOf(p))
  {
  }

  /** A reclaim continues the registration's budget and window; a newcomer starts afresh. */
  lemma EnteringRecords(e: Env, epoch: int, s: State, c: ConnId, n: Name, kind: string, caps: set<string>)
    requires e.cfg.Valid() && Records(e, epoch, s)
    ensures Records(e, epoch, Entering(e, s, c, n, kind, caps))
    ensures Entering(e, s, c, n, kind, caps).clock == s.clock
  {
    hide Honest, WindowKept, QuorumTold, Trace, Seats, FreshPart, Reclaimed, AllHonest, LastSaysReal;
    var p := if n in s.regs then Reclaimed(s, s.regs[n], kind, caps, c) else FreshPart(e, s, n, kind, caps, c);
    if n in s.regs {
      HonestAt(e.cfg, s.clock.mono, s.regs, n);
      RejoinHonest(e.cfg, s.clock.mono, s, s.regs[n], kind, caps, c);
    } else {
      FreshHonest(e, s, n, kind, caps, c);
    }
    PutHonest(e.cfg, s.clock.mono, s.regs, n, p);
    JoinLastSay(e, s, Trace(s.log), n, kind, caps, c);
  }

  lemma JoinLastSay(e: Env, s: State, tr: seq<Note>, n: Name, kind: string, caps: set<string>, c: ConnId)
    requires LastSaysReal(tr, Seats(s.regs))
    ensures var p := if n in s.regs then Reclaimed(s, s.regs[n], kind, caps, c) else FreshPart(e, s, n, kind, caps, c);
            LastSaysReal(tr, Seats(s.regs[n := p]))
  {
    hide SaidAt;
    var p := if n in s.regs then Reclaimed(s, s.regs[n], kind, caps, c) else FreshPart(e, s, n, kind, caps, c);
    var all := Seats(s.regs[n := p]);
    forall m | m in all && all[m].lastSay != 0.0
      ensures SaidAt(tr, m, all[m].lastSay)
    {
      assert m in s.regs && Seats(s.regs)[m].lastSay == all[m].lastSay;
    }
  }

  lemma HelloRecords(e: Env, epoch: int, s: State, c: ConnId, n: Name, kind: string, caps: set<string>)
    requires e.cfg.Valid() && Records(e, epoch, s)
    ensures Records(e, epoch, HandleHello(e, s, c, n, kind, caps))
    ensures HandleHello(e, s, c, n, kind, caps).clock == s.clock
  {
    hide Records, Disconnect, Admit, Answer, Entering, Kin, Steady;
    if c in s.names {
      AnswerRecords(e, epoch, s, c, Err(Malformed, None, None, ""));
    } else {
      var t := if s.Live(n) && !s.Connected(n) then Disconnect(e, s, s.regs[n].client) else s;
      DisconnectKinIf(e, epoch, s, n);
      if t.Live(n) {
        var r := Err(NameTaken, None, None, Suggestion(n, t.regs.Keys));
        AnswerRecords(e, epoch, t, c, r);
        var u := Answer(e, t, c, r);
        GoneKin(u, u.gone + {c});
        KinRecords(e, epoch, u, u.(gone := u.gone + {c}));
      } else {
        EnteringRecords(e, epoch, t, c, n, kind, caps);
        AdmitSteady(e, t, c, n, kind, caps);
        SteadyKin(Entering(e, t, c, n, kind, caps), Admit(e, t, c, n, kind, caps));
        KinRecords(e, epoch, Entering(e, t, c, n, kind, caps), Admit(e, t, c, n, kind, caps));
      }
    }
  }

  lemma AnswerRecords(e: Env, epoch: int, s: State, c: ConnId, r: Reply)
    requires Records(e, epoch, s)
    ensures Records(e, epoch, Answer(e, s, c, r))
    ensures Answer(e, s, c, r).clock == s.clock
  {
    hide Records, Answer, Kin, Steady;
    AnswerSteady(e, s, c, r);
    SteadyKin(s, Answer(e, s, c, r));
    KinRecords(e, epoch, s, Answer(e, s, c, r));
  }

  lemma DisconnectKinIf(e: Env, epoch: int, s: State, n: Name)
    requires Records(e, epoch, s)
    ensures Records(e, epoch, if s.Live(n) && !s.Connected(n) then Disconnect(e, s, s.regs[n].client) else s)
    ensures (if s.Live(n) && !s.Connected(n) then Disconnect(e, s, s.regs[n].client) else s).clock == s.clock
  {
    hide Records, Disconnect, Kin;
    if s.Live(n) && !s.Connected(n) {
      DisconnectKin(e, s, s.regs[n].client);
      KinRecords(e, epoch, s, Disconnect(e, s, s.regs[n].client));
    }
  }

  lemma ExpireRecords(e: Env, epoch: int, s: State)
    requires Records(e, epoch, s)
    ensures Records(e, epoch, ExpireDead(e, s))
    ensures ExpireDead(e, s).clock == s.clock
  {
    hide Honest, SaidAt, QuorumTold, WindowKept, Trace, Seats;
    var t := ExpireDead(e, s);
    forall n | n in Seats(t.regs)
      ensures n in Seats(s.regs) && Seats(t.regs)[n] == Seats(s.regs)[n]
    {
      ExpireSeats(e, s, n);
    }
  }

  lemma ExpireSeats(e: Env, s: State, n: Name)
    ensures var t := ExpireDead(e, s);
            n in Seats(t.regs) ==> n in Seats(s.regs) && Seats(t.regs)[n] == Seats(s.regs)[n]
  {
  }

  // ------------------------------------------------------------------ watchdog

  lemma WatchOneKin(e: Env, s: State, n: Name)
    requires n in s.regs
    ensures Kin(s, WatchOne(e, s, n))
  {
    hide Disconnect, PingIfSilent, AssumeIdle, NotifyBlocked, Kin, Steady;
    DisconnectKin(e, s, s.regs[n].client);
    PingSteady(e, s, n);
    var t := PingIfSilent(e, s, n);
    SteadyKin(s, t);
    if n in t.regs {
      AssumeSteady(e, t, n);
      var u := AssumeIdle(e, t, n);
      SteadyKin(t, u);
      KinTrans(s, t, u);
      if n in u.regs {
        BlockedSteady(e, u, n);
        SteadyKin(u, NotifyBlocked(e, u, n));
        KinTrans(s, u, NotifyBlocked(e, u, n));
      }
    }
  }

  lemma {:induction false} WatchAllRecords(e: Env, epoch: int, s: State, names: seq<Name>)
    requires Records(e, epoch, s)
    ensures Records(e, epoch, WatchAll(e, s, names))
    ensures WatchAll(e, s, names).clock == s.clock
    decreases names
  {
    hide WatchOne, Kin, Records;
    if names != [] {
      var t := if names[0] in s.regs then WatchOne(e, s, names[0]) else s;
      if names[0] in s.regs {
        WatchOneKin(e, s, names[0]);
        KinRecords(e, epoch, s, t);
      }
      WatchAllRecords(e, epoch, t, names[1..]);
    }
  }

  /** When the quorum event fires, the log bears it out. */
  lemma DueIsRight(e: Env, epoch: int, s: State)
    requires Records(e, epoch, s) && QuorumDue(s)
    ensures RightlyFired(Trace(s.log), Happened(QuorumReached(Expected(s))))
  {
    hide AllHonest, WindowKept, Trace, AllQuiet, AllRightlyFired, LastAsk, Answered, Seats;
    var tr := Trace(s.log);
    forall n | n in Expected(s)
      ensures SaidAfter(tr, n, s.lastObserverSay.value)
    {
      assert n in Seats(s.regs) && Seats(s.regs)[n].lastSay == s.regs[n].lastSay by { LastSayIn(s, n); }
      var k :| 0 <= k < |tr| && SaysAt(tr[k], n, s.regs[n].lastSay);
    }
  }

  lemma LastSayIn(s: State, n: Name)
    ensures n in s.regs ==> n in Seats(s.regs) && Seats(s.regs)[n].lastSay == s.regs[n].lastSay
  {
  }

  lemma EmitQuorumTrace(e: Env, s: State, names: set<Name>)
    ensures var t := Emit(e, s.(quorumLatched := true), QuorumReached(names), None);
            && Trace(t.log) == Trace(s.log) + [Happened(QuorumReached(names))]
            && t == s.(quorumLatched := true, gone := t.gone, sent := t.sent, log := t.log)
  {
    hide Trace, Emit;
    EmitFrame(e, s.(quorumLatched := true), QuorumReached(names), None);
    TraceGrows(s.log, Happened(QuorumReached(names)));
  }

  lemma QuorumRecords(e: Env, epoch: int, s: State)
    requires Records(e, epoch, s)
    ensures Records(e, epoch, CheckQuorum(e, s))
    ensures CheckQuorum(e, s).clock == s.clock
  {
    hide AllHonest, WindowKept, Trace, QuorumDue, Expected, Seats;
    hide Emit, LastSaysReal, AllRightlyFired, RightlyFired, LastAsk, Answered;
    if QuorumDue(s) {
      var x := Happened(QuorumReached(Expected(s)));
      DueIsRight(e, epoch, s);
      EmitQuorumTrace(e, s, Expected(s));
      LastOf(Trace(s.log), x);
      FiredGrows(Trace(s.log), x);
      SaidGrows(Trace(s.log), x, Seats(s.regs));
    }
  }

  lemma StallKin(e: Env, s: State)
    ensures Kin(s, CheckStall(e, s))
  {
    hide AllQuiet, Emit, Trace, Seats;
    EmitSteady(e, s.(stallLatched := true), Stalled(None), None);
  }

  lemma TickRecords(e: Env, epoch: int, s: State)
    requires Records(e, epoch, s)
    ensures Records(e, epoch, WatchdogTick(e, s))
    ensures WatchdogTick(e, s).clock == s.clock
  {
    hide Records, ExpireDead, WatchAll, CheckQuorum, CheckStall, Kin;
    var t := ExpireDead(e, s);
    ExpireRecords(e, epoch, s);
    WatchAllRecords(e, epoch, t, t.order);
    var u := WatchAll(e, t, t.order);
    QuorumRecords(e, epoch, u);
    StallKin(e, CheckQuorum(e, u));
    KinRecords(e, epoch, CheckQuorum(e, u), WatchdogTick(e, s));
  }

  // ------------------------------------------------------------------ steps

  lemma DispatchRecords(e: Env, epoch: int, s: State, c: ConnId, n: Name, f: Request)
    requires e.cfg.Valid() && n in s.regs && Seated(s) && Records(e, epoch, s)
    ensures Records(e, epoch, Dispatch(e, s, c, n, f))
    ensures Dispatch(e, s, c, n, f).clock == s.clock
  {
    hide Records, Seated, HandleSay, HandleState, HandleCmd, Disconnect, Answer, Kin, Steady, SteadyButBudget;
    match f
    case Say(say) => SayRecords(e, epoch, s, n, say);
    case StateReport(st, detail) =>
      StateSteady(e, s, n, st, detail);
      SteadyKin(s, HandleState(e, s, n, st, detail));
      KinRecords(e, epoch, s, HandleState(e, s, n, st, detail));
    case Cmd(cmd, q) =>
      CmdSteady(e, s, n, cmd, q);
      SteadyKin(s, HandleCmd(e, s, n, cmd, q));
      KinRecords(e, epoch, s, HandleCmd(e, s, n, cmd, q));
    case RosterQuery => AnswerRecords(e, epoch, s, s.regs[n].client, RosterReply);
    case Bye =>
      DisconnectKin(e, s, c);
      KinRecords(e, epoch, s, Disconnect(e, s, c));
    case _ =>
  }

  lemma HandleRecords(e: Env, epoch: int, s: State, c: ConnId, f: Request)
    requires e.cfg.Valid() && Sound(e, s) && Records(e, epoch, s)
    ensures Records(e, epoch, Handle(e, s, c, f))
    ensures Handle(e, s, c, f).clock == s.clock
  {
    hide Records, Sound, HandleHello, Dispatch, Answer, LifeSign, Kin;
    AnswerRecords(e, epoch, s, c, Err(Malformed, SeqOf(f), None, ""));
    AnswerRecords(e, epoch, s, c, Err(Malformed, None, None, ""));
    if WellFormed(f) && f.Hello? {
      HelloRecords(e, epoch, s, c, f.name, f.kind, f.caps);
    } else if WellFormed(f) && c in s.names && s.Live(s.names[c]) {
      var n := s.names[c];
      LifeSignSound(e, s, n);
      LifeSignKin(s, n);
      SoundParts(e, LifeSign(s, n));
      KinRecords(e, epoch, s, LifeSign(s, n));
      DispatchRecords(e, epoch, LifeSign(s, n), c, n, f);
    }
  }

  /** Every step of the hub keeps the records. */
  lemma StepRecords(e: Env, epoch: int, s: State, clock: Clock, i: Input)
    requires e.cfg.Valid() && Sound(e, s) && Records(e, epoch, s) && Later(s.clock, clock)
    ensures Records(e, epoch, Step(e, s, clock, i))
    ensures Step(e, s, clock, i).clock == clock
  {
    hide Records, Sound, Handle, Disconnect, WatchdogTick, Kin;
    var t := s.(clock := clock);
    ClockSound(e, s, clock);
    ClockRecords(e, epoch, s, clock);
    match i
    case Inbound(c, f) => HandleRecords(e, epoch, t, c, f);
    case Closed(c) =>
      DisconnectKin(e, t, c);
      KinRecords(e, epoch, t, Disconnect(e, t, c));
    case Lost(c) =>
      GoneKin(t, t.gone + {c});
      KinRecords(e, epoch, t, t.(gone := t.gone + {c}));
    case Tick => TickRecords(e, epoch, t);
  }
}
