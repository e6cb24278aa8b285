/** Order, conservation, privacy, frame shape and "no deliverable agent waits" over every
    step of the hub and so over every run. */
module LawMailSteps {
  import opened Types
  import opened Mailbox
  import opened MailboxLaws
  import opened HubState
  import opened HubSpec
  import opened HubFrames
  import opened LawMail
  import Names
  import Bucket
  import Dedup

  ghost predicate MailOk(e: Env, s: State) {
    && Mail(e.cfg, s.regs, s.msgCounter, {}, [])
    && NothingWaits(s)
    && RecentRises(s.recent, s.msgCounter)
  }

  /** The invariant of the mailboxes together with the seats they stand on. */
  ghost predicate Sound(e: Env, s: State) {
    Seated(s) && MailOk(e, s)
  }

  lemma SoundParts(e: Env, s: State)
    ensures Sound(e, s) <==> Seated(s) && MailOk(e, s)
  {
    hide Seated, MailOk;
  }

  // ------------------------------------------------------------------ delivering a routed say

  lemma {:induction false} ObserversMail(e: Env, s: State, observers: seq<(Name, seq<Msg>)>, cause: Cause, hi: nat,
      woken: seq<(Name, seq<Msg>)>)
    requires Mail(e.cfg, s.regs, hi, {}, woken) && NothingWaits(s)
    ensures var t := DeliverAll(e, s, observers, false, cause);
            Mail(e.cfg, t.regs, hi, {}, woken) && NothingWaits(t)
    decreases observers
  {
    if observers != [] {
      hide Mail, NothingWaitsBut, Deliver;
      var n := observers[0].0;
      if n in s.regs {
        DeliverCopyMail(e, s, n, observers[0].1, cause, hi, {}, woken);
        DeliverWaits(e, s, n, observers[0].1, false, cause, {});
        assert {} - {n} == {};
        ObserversMail(e, Deliver(e, s, n, observers[0].1, false, cause), observers[1..], cause, hi, woken);
      } else {
        ObserversMail(e, s, observers[1..], cause, hi, woken);
      }
    }
  }

  ghost predicate Listed(s: State, woken: seq<(Name, seq<Msg>)>) {
    && (forall i :: 0 <= i < |woken| ==> woken[i].0 in s.regs && woken[i].1 != [])
    && (forall i, j :: 0 <= i < j < |woken| ==> woken[i].0 != woken[j].0)
  }

  lemma PendingFirst(woken: seq<(Name, seq<Msg>)>)
    requires woken != [] && forall i, j :: 0 <= i < j < |woken| ==> woken[i].0 != woken[j].0
    ensures Pending(woken[1..], woken[0].0) == []
    ensures [(woken[0].0, woken[0].1)] + woken[1..] == woken
  {
    assert Unlisted(woken[1..], woken[0].0);
    PendingAppend(woken[1..], woken[0].0, [], woken[0].0);
  }

  lemma ListedRest(s: State, t: State, woken: seq<(Name, seq<Msg>)>)
    requires Listed(s, woken) && woken != [] && t.regs.Keys == s.regs.Keys
    ensures Listed(t, woken[1..]) && woken[0].0 in s.regs && woken[0].1 != []
    ensures Pending(woken[1..], woken[0].0) == []
    ensures [(woken[0].0, woken[0].1)] + woken[1..] == woken
  {
    PendingFirst(woken);
  }

  lemma {:induction false} WokenMail(e: Env, s: State, woken: seq<(Name, seq<Msg>)>, cause: Cause, hi: nat)
    requires Mail(e.cfg, s.regs, hi, {}, woken) && NothingWaits(s) && Listed(s, woken)
    ensures var t := DeliverAll(e, s, woken, true, cause);
            Mail(e.cfg, t.regs, hi, {}, []) && NothingWaits(t)
    decreases woken
  {
    hide Mail, NothingWaitsBut, Deliver, Steady, Listed;
    if woken != [] {
      var n, batch := woken[0].0, woken[0].1;
      ListedRest(s, s, woken);
      var t := Deliver(e, s, n, batch, true, cause);
      DeliverMail(e, s, n, batch, cause, hi, woken[1..]);
      DeliverWaits(e, s, n, batch, true, cause, {});
      assert {} - {n} == {};
      DeliverSteady(e, s, n, batch, true, cause);
      ListedRest(s, t, woken);
      WokenMail(e, t, woken[1..], cause, hi);
    }
  }

  // ------------------------------------------------------------------ say

  lemma RecentGrows(recent: seq<Rec>, hi: nat, r: Rec, window: nat)
    requires RecentRises(recent, hi) && r.id == hi + 1 && r.text.Words?
    ensures RecentRises(Last(recent + [r], window), hi + 1)
  {
  }

  /** Registering a say touches the sender's clock and the records, no mailbox. */
  lemma RegisterFrame(e: Env, s: State, n: Name, f: SayFrame)
    requires n in s.regs
    ensures var t := Register(e, s, n, f);
            && t.regs == s.regs[n := s.regs[n].(lastSay := s.clock.mono)] && t.order == s.order && t.gone == s.gone
            && t.msgCounter == s.msgCounter + 1 && t.clock == s.clock
            && t.recent == Last(s.recent + [RecordOf(NewMsg(s, n, f))], e.cfg.recentWindow)
            && t.archive == s.archive + [DayRec(s.clock.day, RecordOf(NewMsg(s, n, f)))]
            && t.round == s.round && t.frozen == s.frozen && t.maxRounds == s.maxRounds && t.names == s.names
            && t.muted == s.muted
  {
    hide AskedBy, Last, RecordOf;
  }

  lemma LastSayMail(s: State, t: State, n: Name)
    requires n in s.regs && t.regs == s.regs[n :=
               s.regs[n].(lastSay := s.clock.mono)] && t.order == s.order && t.gone == s.gone
    ensures Boxes(t.regs) == Boxes(s.regs) && t.regs.Keys == s.regs.Keys
    ensures NothingWaits(s) ==> NothingWaits(t)
  {
  }

  lemma RegisterMail(e: Env, s: State, n: Name, f: SayFrame)
    requires e.cfg.Valid() && n in s.regs && MailOk(e, s)
    ensures var t := Register(e, s, n, f);
            && Mail(e.cfg, t.regs, t.msgCounter, NameSet(s.order), []) && NothingWaits(t)
            && RecentRises(t.recent, t.msgCounter)
  {
    hide Mail, Register, RecentRises, NothingWaitsBut, Boxes;
    RegisterFrame(e, s, n, f);
    var t := Register(e, s, n, f);
    LastSayMail(s, t, n);
    MailBehind(e.cfg, s.regs, s.msgCounter, NameSet(s.order));
    MailSame(e.cfg, s.regs, t.regs, s.msgCounter + 1, NameSet(s.order), []);
    RecentGrows(s.recent, s.msgCounter, RecordOf(NewMsg(s, n, f)), e.cfg.recentWindow);
  }

  /** After routing, the batches go out: first the observers' copies, then the wakes. */
  lemma DispatchMail(e: Env, s: State, m: Msg, r: Routing, sender: Name, hi: nat)
    requires Routed(e, r, sender, m, []) && s == r.state.(round := s.round)
    ensures var t := DeliverAll(e, DeliverAll(e, s, r.observers, false, BySay(m.id)), r.woken, true, BySay(m.id));
            Mail(e.cfg, t.regs, m.id, {}, []) && NothingWaits(t)
  {
    hide Mail, NothingWaitsBut, DeliverAll, Steady;
    assert NameSet([]) == {};
    NothingWaitsRound(r.state, s.round);
    ObserversMail(e, s, r.observers, BySay(m.id), m.id, r.woken);
    DeliverAllSteady(e, s, r.observers, false, BySay(m.id));
    var u := DeliverAll(e, s, r.observers, false, BySay(m.id));
    SteadyFacts(s, u);
    WokenMail(e, u, r.woken, BySay(m.id), m.id);
  }

  lemma NothingWaitsRound(s: State, round: nat)
    requires NothingWaits(s)
    ensures NothingWaits(s.(round := round))
  {
  }

  lemma AcceptMail(e: Env, s: State, n: Name, f: SayFrame)
    requires e.cfg.Valid() && n in s.regs && Sound(e, s) && (f.private ==> f.to != EVERYONE)
    ensures MailOk(e, Accept(e, s, n, f))
  {
    hide Mail, NothingWaitsBut, RouteAll, Register, DeliverAll, CheckRoundLimit, Routed, RecentRises, Boxes, Seats;
    var m := NewMsg(s, n, f);
    var r0 := Routing(Register(e, s, n, f), [], [], 0);
    RegisterMail(e, s, n, f);
    RegisterFrame(e, s, n, f);
    RoutedStarts(e, r0, n, m, s.order);
    RouteAllMail(e, r0, n, m, s.order);
    RouteAllSteady(e, r0, n, m, s.order);
    var r := RouteAll(e, r0, n, m, s.order);
    var s1 := if r.woken != [] then r.state.(round := r.state.round + 1) else r.state;
    DispatchMail(e, s1, m, r, n, m.id);
    AcceptSteady(e, s, n, f);
    AcceptEnds(e, s, n, f, s1, r);
  }

  lemma AcceptEnds(e: Env, s: State, n: Name, f: SayFrame, s1: State, r: Routing)
    requires n in s.regs && r == RouteAll(e, Routing(Register(e, s, n, f), [], [], 0), n, NewMsg(s, n, f), s.order)
    requires s1 == if r.woken != [] then r.state.(round := r.state.round + 1) else r.state
    requires var m := NewMsg(s, n, f);
             var t := DeliverAll(e, DeliverAll(e, s1, r.observers, false, BySay(m.id)), r.woken, true, BySay(m.id));
             Mail(e.cfg, t.regs, m.id, {}, []) && NothingWaits(t)
    requires RecentRises(Register(e, s, n, f).recent, s.msgCounter + 1)
    ensures MailOk(e, Accept(e, s, n, f))
  {
    hide Mail, RouteAll, Register, DeliverAll, CheckRoundLimit, Boxes, Seats, NothingWaitsBut;
    var m := NewMsg(s, n, f);
    var s3 := DeliverAll(e, DeliverAll(e, s1, r.observers, false, BySay(m.id)), r.woken, true, BySay(m.id));
    AcceptSteady(e, s, n, f);
    RegisterFrame(e, s, n, f);
    ChecksMail(e, s3, m.id, {});
    MailSame(e.cfg, s3.regs, CheckRoundLimit(e, s3).regs, m.id, {}, []);
    var s4 := if r.woken != [] then CheckRoundLimit(e, s3) else s3;
    var t := Accept(e, s, n, f);
    assert t.regs == s4.regs && t.order == s4.order && s4.gone <= t.gone;
    LessConnected(s4, t);
    MailMonotone(e.cfg, t.regs, m.id, t.msgCounter);
  }

  /** Losing connections and counting makes nobody wait. */
  lemma LessConnected(s: State, t: State)
    requires NothingWaits(s) && t.regs == s.regs && t.order == s.order && s.gone <= t.gone
    ensures NothingWaits(t)
  {
  }

  lemma RoutedStarts(e: Env, r: Routing, n: Name, m: Msg, order: seq<Name>)
    requires Mail(e.cfg, r.state.regs, m.id, NameSet(order), []) && NothingWaits(r.state) && r.woken == []
               && r.observers == []
    ensures Routed(e, r, n, m, order)
  {
  }

  // ------------------------------------------------------------------ touching one registration

  ghost predicate MailOkBut(e: Env, s: State, n: Name) {
    && Mail(e.cfg, s.regs, s.msgCounter, {}, [])
    && NothingWaitsBut(s, {n})
    && RecentRises(s.recent, s.msgCounter)
  }

  /** `t` is `s` with the part of `n` replaced by one with the same mailbox; connections may
      have been lost. */
  predicate Retouched(s: State, t: State, n: Name) {
    && n in s.regs && n in t.regs && t.regs == s.regs[n := t.regs[n]] && t.regs[n].box == s.regs[n].box
    && t.order == s.order && s.gone <= t.gone && t.msgCounter == s.msgCounter && t.recent == s.recent
  }

  predicate StillPatient(p: Part, q: Part) {
    q.state != Idle || (q.state == p.state && SameSeat(q, p))
  }

  lemma RetouchedMail(e: Env, s: State, t: State, n: Name)
    requires Retouched(s, t, n)
    ensures MailOk(e, s) ==> MailOkBut(e, t, n)
    ensures MailOk(e, s) && StillPatient(s.regs[n], t.regs[n]) ==> MailOk(e, t)
    ensures MailOkBut(e, s, n) ==> MailOkBut(e, t, n)
  {
    hide Mail;
    if Mail(e.cfg, s.regs, s.msgCounter, {}, []) {
      assert Boxes(t.regs) == Boxes(s.regs);
      MailSame(e.cfg, s.regs, t.regs, s.msgCounter, {}, []);
    }
  }

  lemma FlushOk(e: Env, s: State, n: Name)
    requires e.cfg.Valid() && n in s.regs && MailOkBut(e, s, n)
    ensures MailOk(e, FlushQueue(e, s, n))
  {
    hide Mail, NothingWaitsBut, RecentRises, FlushQueue, Seats;
    FlushMail(e, s, n);
    FlushSteady(e, s, n);
    RecentMonotone(s.recent, s.msgCounter, FlushQueue(e, s, n).msgCounter);
  }

  lemma RecentMonotone(recent: seq<Rec>, lo: nat, hi: nat)
    requires RecentRises(recent, lo) && lo <= hi
    ensures RecentRises(recent, hi)
  {
  }

  /** Whatever leaves registrations, order, counter and records alone keeps the mail. */
  lemma QuietMail(e: Env, s: State, t: State)
    requires t.regs == s.regs && t.order == s.order && s.gone <= t.gone && t.msgCounter == s.msgCounter
               && t.recent == s.recent
    ensures MailOk(e, s) ==> MailOk(e, t)
    ensures forall n :: MailOkBut(e, s, n) ==> MailOkBut(e, t, n)
  {
    hide Mail;
  }

  // ------------------------------------------------------------------ say, state

  lemma RejectMail(e: Env, s: State, n: Name, f: SayFrame, code: ErrCode, retryAfter: Option<real>)
    requires n in s.regs && MailOk(e, s)
    ensures MailOk(e, Reject(e, s, n, f, code, retryAfter))
  {
    hide MailOk, Emit;
    var t := Answer(e, s, s.regs[n].client, Err(code, Some(f.seqNo), retryAfter, ""));
    EmitFrame(e, t, Rejected(n, code), None);
    QuietMail(e, s, Reject(e, s, n, f, code, retryAfter));
  }

  lemma SpentFrame(e: Env, s: State, p: Part, f: SayFrame)
    ensures Spend(e, s, p) == p.(bucket := Spend(e, s, p).bucket)
    ensures Remember(e, s, p, f) == p.(dedup := Remember(e, s, p, f).dedup)
  {
  }

  lemma RouteSayMail(e: Env, s: State, n: Name, f: SayFrame)
    requires e.cfg.Valid() && n in s.regs && Sound(e, s) && (f.private ==> f.to != EVERYONE)
    ensures MailOk(e, RouteSay(e, s, n, f).0)
  {
    hide Accept, Reject, Spent, Checked, Kept, MaySpend, Repeats, EarlyRefusal, MailOk, Seated, Sound;
    var p := s.regs[n];
    var early := EarlyRefusal(s, p, f);
    ChargesSound(e, s, n, f);
    SoundParts(e, s);
    if early.Some? {
      RejectMail(e, s, n, f, early.value, None);
    } else if p.IsObserver() {
      AcceptMail(e, s, n, f);
    } else if !MaySpend(e, s, p) {
      SoundParts(e, Spent(e, s, n));
      RejectMail(e, Spent(e, s, n), n, f, RateLimited,
        Some(Bucket.Wait(e.cfg.rateBurst as real, e.cfg.ratePerSecond, p.bucket, s.clock.mono)));
    } else if Repeats(e, s, p, f) {
      SoundParts(e, Checked(e, s, n, f));
      RejectMail(e, Checked(e, s, n, f), n, f, Duplicate, None);
    } else {
      AcceptMail(e, Kept(e, s, n, f), n, f);
    }
  }

  /** Charging the sender changes neither its seat nor its mailbox. */
  lemma ChargesSound(e: Env, s: State, n: Name, f: SayFrame)
    requires n in s.regs && Sound(e, s)
    ensures n in Spent(e, s, n).regs && Sound(e, Spent(e, s, n))
    ensures n in Checked(e, s, n, f).regs && Sound(e, Checked(e, s, n, f))
    ensures n in Kept(e, s, n, f).regs && Sound(e, Kept(e, s, n, f))
  {
    hide Sound, Spend, Remember;
    SpentFrame(e, s, s.regs[n], f);
    PutSound(e, s, n, Spend(e, s, s.regs[n]));
    var t := Spent(e, s, n);
    SpentFrame(e, t, t.regs[n], f);
    PutSound(e, t, n, Remember(e, t, t.regs[n], f));
    var u := Checked(e, s, n, f);
    PutSound(e, u, n, u.regs[n].(says := u.regs[n].says + [Dedup.Said(s.clock.mono, f.to, f.text, f.private)]));
  }

  /** Replacing a part by one with the same seat, mailbox and state. */
  lemma PutSound(e: Env, s: State, n: Name, q: Part)
    requires n in s.regs && Sound(e, s) && SameSeat(q, s.regs[n]) && q.box == s.regs[n].box
               && q.state == s.regs[n].state
    ensures Sound(e, s.Put(n, q))
  {
    hide Mail, Seated, NothingWaitsBut;
    PutSeated(s, n, q);
    RetouchedMail(e, s, s.Put(n, q), n);
  }

  lemma InferIdleMail(e: Env, s: State, n: Name)
    requires e.cfg.Valid() && n in s.regs && MailOk(e, s)
    ensures MailOk(e, InferIdle(e, s, n))
  {
    hide MailOk, MailOkBut, FlushQueue;
    var t := s.Put(n, SetIdle(s.regs[n]));
    RetouchedMail(e, s, t, n);
    FlushOk(e, t, n);
  }

  lemma MarkMail(e: Env, s: State, n: Name, done: bool)
    requires n in s.regs && MailOk(e, s)
    ensures MailOk(e, MarkFinished(s, n, done)) && MailOk(e, CheckSessionDone(e, MarkFinished(s, n, done)))
  {
    hide MailOk, Mail, CheckSessionDone;
    var t := MarkFinished(s, n, done);
    RetouchedMail(e, s, t, n);
    CheckMail(e, t);
  }

  lemma CheckMail(e: Env, s: State)
    requires MailOk(e, s)
    ensures MailOk(e, CheckSessionDone(e, s)) && MailOk(e, CheckRoundLimit(e, s))
  {
    hide Mail, CheckSessionDone, CheckRoundLimit, NothingWaitsBut, RecentRises, Boxes;
    ChecksMail(e, s, s.msgCounter, {});
    SessionDoneFrame(e, s);
    RoundLimitFrame(e, s);
    MailSame(e.cfg, s.regs, CheckSessionDone(e, s).regs, s.msgCounter, {}, []);
  }

  lemma SayMail(e: Env, s: State, n: Name, f: SayFrame)
    requires e.cfg.Valid() && n in s.regs && Sound(e, s) && (f.private ==> f.to != EVERYONE)
    ensures MailOk(e, HandleSay(e, s, n, f))
  {
    hide RouteSay, InferIdle, CheckSessionDone, MailOk, MarkFinished, Seated;
    RouteSayMail(e, s, n, f);
    var s1 := RouteSay(e, s, n, f).0;
    if n in s1.regs {
      InferIdleMail(e, s1, n);
      var s2 := InferIdle(e, s1, n);
      if n in s2.regs {
        MarkMail(e, s2, n, true);
        MarkMail(e, s2, n, false);
      }
    }
  }

  lemma ReportingBox(now: real, p: Part, st: Activity, detail: Option<string>)
    ensures Reporting(now, p, st, detail).box == p.box && Reporting(now, p, st, detail).state == st
    ensures SeatOf(Reporting(now, p, st, detail)) == SeatOf(p)
  {
  }

  lemma StateMail(e: Env, s: State, n: Name, st: Activity, detail: Option<string>)
    requires e.cfg.Valid() && n in s.regs && MailOk(e, s)
    ensures MailOk(e, HandleState(e, s, n, st, detail))
  {
    hide MailOk, MailOkBut, FlushQueue, Reporting, FreshlyBlocked;
    var p := s.regs[n];
    ReportingBox(s.clock.mono, p, st, detail);
    var notified := if FreshlyBlocked(p, st, detail) then s.blockedNotified - {n} else s.blockedNotified;
    var t := s.(blockedNotified := notified).Put(n, Reporting(s.clock.mono, p, st, detail));
    RetouchedMail(e, s, t, n);
    if st == Idle {
      FlushOk(e, t, n);
    }
  }

  // ------------------------------------------------------------------ cmd

  lemma GoalMail(e: Env, s: State, text: string)
    requires e.cfg.Valid() && MailOk(e, s)
    ensures MailOk(e, BufferGoal(e, s, text))
  {
    hide BoxInv, Buffered, GoalMsg, NothingWaitsBut, RecentRises;
    var t, m := BufferGoal(e, s, text), GoalMsg(s, text);
    GoalIsLine(s, text);
    forall n | n in t.regs
      ensures BoxInv(e.cfg, s.msgCounter, n, t.regs[n].box, [])
    {
      assert BoxInv(e.cfg, s.msgCounter, n, s.regs[n].box, []);
      BoxOps(e, s.regs[n], m);
      OverhearHolds(e.cfg, s.msgCounter, n, s.regs[n].box, m);
    }
    GoalWaits(e, s, text);
  }

  lemma GoalIsLine(s: State, text: string)
    ensures var m := GoalMsg(s, text); m.id == 0 && m.addressing == Overheard && !m.Notice() && !m.private
  {
  }

  lemma GoalWaits(e: Env, s: State, text: string)
    requires NothingWaitsBut(s, {})
    ensures NothingWaitsBut(BufferGoal(e, s, text), {})
  {
    hide Buffered, GoalMsg;
    var t, m := BufferGoal(e, s, text), GoalMsg(s, text);
    forall n | n in t.regs
      ensures t.regs[n].box.queue == s.regs[n].box.queue && t.regs[n].state == s.regs[n].state
      ensures SeatOf(t.regs[n]) == SeatOf(s.regs[n])
    {
      BoxOpSeats(e, s.regs[n], m);
    }
  }

  lemma SystemOk(e: Env, s: State, text: Text)
    requires e.cfg.Valid() && MailOk(e, s) && text.MuteNote?
    ensures MailOk(e, SystemMessage(e, s, s.order, text))
  {
    hide Mail, NothingWaitsBut, RecentRises, SystemMessage, Seats;
    SystemMail(e, s, s.order, text);
    SystemSteady(e, s, s.order, text);
    RecentMonotone(s.recent, s.msgCounter, SystemMessage(e, s, s.order, text).msgCounter);
  }

  lemma EmitMail(e: Env, s: State, ev: Event, skip: Option<Name>)
    ensures MailOk(e, s) ==> MailOk(e, Emit(e, s, ev, skip))
    ensures forall n :: MailOkBut(e, s, n) ==> MailOkBut(e, Emit(e, s, ev, skip), n)
  {
    hide MailOk, MailOkBut, Emit;
    EmitFrame(e, s, ev, skip);
    QuietMail(e, s, Emit(e, s, ev, skip));
  }

  lemma ExecuteMail(e: Env, s: State, cmd: Command)
    requires e.cfg.Valid() && MailOk(e, s)
    ensures MailOk(e, Execute(e, s, cmd))
  {
    hide MailOk, MailOkBut, Emit, SystemMessage, BufferGoal, ResumedLimit;
    match cmd
    case Freeze =>
      QuietMail(e, s, s.(frozen := true));
      EmitMail(e, s.(frozen := true), FrozenBy(s.round), None);
    case Resume(n) =>
      var t := s.(maxRounds := ResumedLimit(e, s, n), frozen := false);
      QuietMail(e, s, t);
      EmitMail(e, t, Resumed(t.round, t.maxRounds), None);
    case Reset =>
      QuietMail(e, s, s.(round := 0, frozen := false));
      EmitMail(e, s.(round := 0, frozen := false), WasReset(s.round), None);
    case Mute =>
      QuietMail(e, s, s.(muted := true));
      EmitMail(e, s.(muted := true), MutedOn, None);
      SystemOk(e, Emit(e, s.(muted := true), MutedOn, None), MuteNote(true));
    case Unmute =>
      QuietMail(e, s, s.(muted := false));
      EmitMail(e, s.(muted := false), MutedOff, None);
      SystemOk(e, Emit(e, s.(muted := false), MutedOff, None), MuteNote(false));
    case SetGoal(text) =>
      QuietMail(e, s, s.(goal := text));
      EmitMail(e, s.(goal := text), GoalSet(text), None);
      GoalMail(e, Emit(e, s.(goal := text), GoalSet(text), None), text);
  }

  lemma AnswerMail(e: Env, s: State, c: ConnId, r: Reply)
    requires MailOk(e, s)
    ensures MailOk(e, Answer(e, s, c, r)) && MailOk(e, Answer(e, s.Touch(), c, r)) && MailOk(e, s.Touch())
  {
    hide MailOk, MailOkBut;
    QuietMail(e, s, Answer(e, s, c, r));
    QuietMail(e, s, s.Touch());
    QuietMail(e, s, Answer(e, s.Touch(), c, r));
  }

  lemma CmdMail(e: Env, s: State, n: Name, cmd: Command, seqNo: Option<int>)
    requires e.cfg.Valid() && n in s.regs && MailOk(e, s)
    ensures MailOk(e, HandleCmd(e, s, n, cmd, seqNo))
  {
    hide MailOk, Execute, Answer;
    ExecuteMail(e, s, cmd);
    AnswerMail(e, s, s.regs[n].client, Err(Forbidden, seqNo, None, ""));
    AnswerMail(e, Execute(e, s, cmd), s.regs[n].client, Ok(None, 0, seqNo));
  }

  // ------------------------------------------------------------------ leaving and joining

  lemma DisconnectMail(e: Env, s: State, c: ConnId)
    requires MailOk(e, s)
    ensures MailOk(e, Disconnect(e, s, c))
  {
    hide Mail, Disconnect, Holds, Without, RecentRises, NothingWaitsBut;
    DisconnectFrame(e, s, c);
    var t := Disconnect(e, s, c);
    FewerWait(s, t);
    assert Boxes(t.regs) == Boxes(s.regs);
    MailSame(e.cfg, s.regs, t.regs, s.msgCounter, {}, []);
  }

  lemma FewerWait(s: State, t: State)
    requires NothingWaitsBut(s, {}) && s.gone <= t.gone && t.regs.Keys == s.regs.Keys
    requires forall n :: n in t.order ==> n in s.order
    requires forall n :: n in s.regs ==> t.regs[n] == s.regs[n] || t.regs[n] == s.regs[n].(finished := false)
    ensures NothingWaitsBut(t, {})
  {
  }

  lemma {:induction false} VisibleFacts(recent: seq<Rec>, n: Name, observer: bool, hi: nat)
    requires RecentRises(recent, hi)
    ensures RecentRises(Visible(recent, n, observer), hi)
    ensures !observer ==> forall i :: 0 <= i < |Visible(recent, n, observer)| ==>
              Visible(recent, n, observer)[i].private ==> Visible(recent, n, observer)[i].to == n
    ensures forall i :: 0 <= i < |Visible(recent, n, observer)| ==> Visible(recent, n, observer)[i] in recent
  {
    if recent != [] {
      VisibleFacts(recent[..|recent| - 1], n, observer, hi);
      assert recent == recent[..|recent| - 1] + [recent[|recent| - 1]];
    }
  }

  ghost predicate BacklogLines(msgs: seq<Msg>, n: Name, observer: bool, hi: nat) {
    && (forall i, j :: 0 <= i < j < |msgs| ==> msgs[i].id < msgs[j].id)
    && (forall i :: 0 <= i < |msgs| ==> 1 <= msgs[i].id <= hi && msgs[i].text.Words?)
    && (!observer ==> forall i :: 0 <= i < |msgs| ==> Readable(n, msgs[i]))
    && (forall i :: 0 <= i < |msgs| ==> msgs[i].sender != n)
  }

  lemma {:induction false} NotFromFacts(recs: seq<Rec>, n: Name, observer: bool, hi: nat)
    requires RecentRises(recs, hi)
    requires !observer ==> forall i :: 0 <= i < |recs| ==> recs[i].private ==> recs[i].to == n
    ensures BacklogLines(NotFrom(recs, n), n, observer, hi)
  {
    if recs != [] {
      var init, r := recs[..|recs| - 1], recs[|recs| - 1];
      NotFromFacts(init, n, observer, r.id - 1);
      hide RecentRises;
      LineFollows(NotFrom(init, n), r, n, observer, hi);
    }
  }

  lemma LineFollows(msgs: seq<Msg>, r: Rec, n: Name, observer: bool, hi: nat)
    requires 1 <= r.id <= hi && r.text.Words? && BacklogLines(msgs, n, observer, r.id - 1)
    requires !observer && r.private ==> r.to == n
    ensures BacklogLines(msgs, n, observer, hi)
    ensures r.sender != n ==> BacklogLines(msgs + [FromRecord(r)], n, observer, hi)
  {
  }

  /** What a joiner is given: numbered in order, nothing of its own, nothing private to others. */
  lemma BacklogFacts(cfg: Config, recent: seq<Rec>, n: Name, observer: bool, hi: nat)
    requires RecentRises(recent, hi)
    ensures BacklogLines(Backlog(cfg, recent, n, observer), n, observer, hi)
  {
    VisibleFacts(recent, n, observer, hi);
    var v := Visible(recent, n, observer);
    hide Visible;
    NotFromFacts(Last(v, cfg.backlogOnJoin), n, observer, hi);
  }

  lemma OverhearQueue(cfg: Config, b: Box, m: Msg)
    ensures Overhear(cfg, b, m).queue == b.queue
  {
  }

  lemma {:induction false} OverhearAllHolds(cfg: Config, lo: nat, hi: nat, n: Name, b: Box, msgs: seq<Msg>)
    requires cfg.Valid() && BoxInv(cfg, lo, n, b, []) && lo <= hi
    requires BacklogLines(msgs, n, false, hi)
    requires forall i :: 0 <= i < |msgs| ==> msgs[i].id > lo
    ensures BoxInv(cfg, hi, n, OverhearAll(cfg, b, msgs), [])
    ensures OverhearAll(cfg, b, msgs).queue == b.queue
    decreases msgs
  {
    hide BoxInv, Overhear;
    if msgs == [] {
      BoxMonotone(cfg, lo, hi, n, b, []);
    } else {
      var m := msgs[0].Tag(Overheard);
      OverhearHolds(cfg, lo, n, b, m);
      OverhearQueue(cfg, b, m);
      OverhearAllHolds(cfg, m.id, hi, n, Overhear(cfg, b, m), msgs[1..]);
    }
  }

  lemma GiveBacklogMail(e: Env, s: State, n: Name)
    requires e.cfg.Valid() && n in s.regs && MailOkBut(e, s, n)
    requires s.regs[n].box == EMPTY_BOX || s.regs[n].IsObserver()
    ensures MailOkBut(e, GiveBacklog(e, s, n), n)
  {
    hide MailOkBut, Backlog, Tagged, Deliver, OverhearAll;
    var p := s.regs[n];
    var backlog := Backlog(e.cfg, s.recent, n, p.IsObserver());
    if p.IsObserver() {
      DeliverFrame(e, s, n, Tagged(backlog, n), false, ByBacklog);
      RetouchedMail(e, s, Deliver(e, s, n, Tagged(backlog, n), false, ByBacklog), n);
    } else {
      BufferBacklogMail(e, s, n);
    }
  }

  lemma BufferBacklogMail(e: Env, s: State, n: Name)
    requires e.cfg.Valid() && n in s.regs && MailOkBut(e, s, n) && s.regs[n].box == EMPTY_BOX
    ensures MailOkBut(e, s.Put(n, s.regs[n].(box := OverhearAll(e.cfg, s.regs[n].box,
              Backlog(e.cfg, s.recent, n, false)))), n)
  {
    hide BoxInv, Backlog, OverhearAll, RecentRises, EMPTY_BOX;
    BacklogFacts(e.cfg, s.recent, n, false, s.msgCounter);
    EmptyBoxHolds(e.cfg, n);
    OverhearAllHolds(e.cfg, 0, s.msgCounter, n, EMPTY_BOX, Backlog(e.cfg, s.recent, n, false));
  }

  /** A joiner takes its seat: a fresh mailbox, or the one it left behind. */
  lemma EnteringMail(e: Env, s: State, c: ConnId, n: Name, kind: string, caps: set<string>)
    requires e.cfg.Valid() && MailOk(e, s)
    ensures MailOkBut(e, Entering(e, s, c, n, kind, caps), n)
    ensures n in Entering(e, s, c, n, kind, caps).regs
    ensures n !in s.regs ==> Entering(e, s, c, n, kind, caps).regs[n].box == EMPTY_BOX
  {
    hide BoxInv;
    EmptyBoxHolds(e.cfg, n);
    BoxMonotone(e.cfg, 0, s.msgCounter, n, EMPTY_BOX, []);
    var t := Entering(e, s, c, n, kind, caps);
    assert forall m :: m in t.order <==> m in s.order || m == n;
  }

  lemma FreshQueue(e: Env, s: State, n: Name)
    requires e.cfg.Valid() && n in s.regs && s.regs[n].box == EMPTY_BOX && RecentRises(s.recent, s.msgCounter)
    ensures n in GiveBacklog(e, s, n).regs && GiveBacklog(e, s, n).regs[n].box.queue == []
  {
    hide Backlog, Deliver, Tagged, OverhearAll, BoxInv, RecentRises;
    var p := s.regs[n];
    var backlog := Backlog(e.cfg, s.recent, n, p.IsObserver());
    if p.IsObserver() {
      DeliverFrame(e, s, n, Tagged(backlog, n), false, ByBacklog);
    } else {
      BacklogFacts(e.cfg, s.recent, n, false, s.msgCounter);
      EmptyBoxHolds(e.cfg, n);
      OverhearAllHolds(e.cfg, 0, s.msgCounter, n, EMPTY_BOX, backlog);
    }
  }

  lemma ButRises(e: Env, s: State, n: Name)
    requires MailOkBut(e, s, n)
    ensures RecentRises(s.recent, s.msgCounter)
  {
    hide Mail;
  }

  lemma PatientIf(e: Env, s: State, n: Name)
    requires MailOkBut(e, s, n) && n in s.regs && s.regs[n].box.queue == []
    ensures MailOk(e, s)
  {
    hide Mail;
  }

  lemma WelcomedMail(e: Env, s: State, c: ConnId, n: Name, kind: string, caps: set<string>)
    requires e.cfg.Valid() && MailOk(e, s)
    ensures var t := Welcomed(e, s, c, n, kind, caps);
            n in t.regs && MailOkBut(e, t, n) && (n !in s.regs ==> MailOk(e, t))
  {
    hide MailOk, MailOkBut, Entering, GiveBacklog, Emit, Seats, Trace, EMPTY_BOX, RecentRises;
    var s0 := Entering(e, s, c, n, kind, caps);
    EnteringMail(e, s, c, n, kind, caps);
    var s1 := Answer(e, s0, c, Welcome);
    QuietMail(e, s0, s1);
    ButRises(e, s1, n);
    var s2 := if n !in s.regs || s1.regs[n].IsObserver() then GiveBacklog(e, s1, n) else s1;
    BacklogSteady(e, s1, n);
    if n !in s.regs || s1.regs[n].IsObserver() {
      GiveBacklogMail(e, s1, n);
    }
    QuietMail(e, s2, s2.Touch());
    var s3 := Emit(e, s2.Touch(), PeerJoined(n, kind), Some(n));
    EmitMail(e, s2.Touch(), PeerJoined(n, kind), Some(n));
    EmitFrame(e, s2.Touch(), PeerJoined(n, kind), Some(n));
    if n !in s.regs {
      FreshQueue(e, s1, n);
      PatientIf(e, s3, n);
    } else {
      SteadyFacts(s1, s2);
    }
  }

  lemma AdmitMail(e: Env, s: State, c: ConnId, n: Name, kind: string, caps: set<string>)
    requires e.cfg.Valid() && MailOk(e, s)
    ensures MailOk(e, Admit(e, s, c, n, kind, caps))
  {
    hide MailOk, MailOkBut, Welcomed, FlushQueue;
    WelcomedMail(e, s, c, n, kind, caps);
    if n in s.regs {
      FlushOk(e, Welcomed(e, s, c, n, kind, caps), n);
    }
  }

  lemma HelloMail(e: Env, s: State, c: ConnId, n: Name, kind: string, caps: set<string>)
    requires e.cfg.Valid() && MailOk(e, s)
    ensures MailOk(e, HandleHello(e, s, c, n, kind, caps))
  {
    hide MailOk, Disconnect, Admit, Answer;
    if c in s.names {
      AnswerMail(e, s, c, Err(Malformed, None, None, ""));
    } else {
      var t := if s.Live(n) && !s.Connected(n) then Disconnect(e, s, s.regs[n].client) else s;
      if s.Live(n) && !s.Connected(n) {
        DisconnectMail(e, s, s.regs[n].client);
      }
      if t.Live(n) {
        var r := Err(NameTaken, None, None, Suggestion(n, t.regs.Keys));
        AnswerMail(e, t, c, r);
        var u := Answer(e, t, c, r);
        QuietMail(e, u, u.(gone := u.gone + {c}));
      } else {
        AdmitMail(e, t, c, n, kind, caps);
      }
    }
  }

  // ------------------------------------------------------------------ watchdog

  lemma ExpireMail(e: Env, s: State)
    requires MailOk(e, s)
    ensures MailOk(e, ExpireDead(e, s))
  {
    hide BoxInv;
  }

  lemma PingMail(e: Env, s: State, n: Name)
    requires n in s.regs && MailOk(e, s)
    ensures MailOk(e, PingIfSilent(e, s, n))
  {
    hide MailOk, MailOkBut, Answer;
    var t := s.Put(n, s.regs[n].(awaitingPong := true, pongDeadline := s.clock.mono + e.cfg.pongTimeout));
    RetouchedMail(e, s, t, n);
    if MailOk(e, t) {
      AnswerMail(e, t, s.regs[n].client, Ping);
    }
  }

  lemma AssumeMail(e: Env, s: State, n: Name)
    requires e.cfg.Valid() && n in s.regs && MailOk(e, s)
    ensures MailOk(e, AssumeIdle(e, s, n))
  {
    hide MailOk, MailOkBut, Emit, FlushQueue;
    var t := s.Put(n, SetIdle(s.regs[n]));
    RetouchedMail(e, s, t, n);
    EmitMail(e, t, Stalled(Some(n)), None);
    EmitFrame(e, t, Stalled(Some(n)), None);
    FlushOk(e, Emit(e, t, Stalled(Some(n)), None), n);
  }

  lemma BlockedMail(e: Env, s: State, n: Name)
    requires n in s.regs && MailOk(e, s)
    ensures MailOk(e, NotifyBlocked(e, s, n))
  {
    hide MailOk, MailOkBut, Emit;
    var t := s.(blockedNotified := s.blockedNotified + {n});
    QuietMail(e, s, t);
    EmitMail(e, t, BlockedFor(n), None);
  }

  lemma WatchOneMail(e: Env, s: State, n: Name)
    requires e.cfg.Valid() && n in s.regs && MailOk(e, s)
    ensures MailOk(e, WatchOne(e, s, n))
  {
    hide MailOk, Disconnect, PingIfSilent, AssumeIdle, NotifyBlocked;
    DisconnectMail(e, s, s.regs[n].client);
    PingMail(e, s, n);
    var t := PingIfSilent(e, s, n);
    if n in t.regs {
      AssumeMail(e, t, n);
      var u := AssumeIdle(e, t, n);
      if n in u.regs {
        BlockedMail(e, u, n);
      }
    }
  }

  lemma {:induction false} WatchAllMail(e: Env, s: State, names: seq<Name>)
    requires e.cfg.Valid() && MailOk(e, s)
    ensures MailOk(e, WatchAll(e, s, names))
    decreases names
  {
    hide MailOk, WatchOne;
    if names != [] {
      if names[0] in s.regs {
        WatchOneMail(e, s, names[0]);
      }
      WatchAllMail(e, if names[0] in s.regs then WatchOne(e, s, names[0]) else s, names[1..]);
    }
  }

  lemma TickMail(e: Env, s: State)
    requires e.cfg.Valid() && MailOk(e, s)
    ensures MailOk(e, WatchdogTick(e, s))
  {
    hide MailOk, MailOkBut, WatchAll, ExpireDead, Emit, QuorumDue, AllQuiet, Expected;
    ExpireMail(e, s);
    var t := ExpireDead(e, s);
    WatchAllMail(e, t, t.order);
    var u := WatchAll(e, t, t.order);
    QuietMail(e, u, u.(quorumLatched := true));
    EmitMail(e, u.(quorumLatched := true), QuorumReached(Expected(u)), None);
    var v := CheckQuorum(e, u);
    QuietMail(e, v, v.(stallLatched := true));
    EmitMail(e, v.(stallLatched := true), Stalled(None), None);
  }

  // ------------------------------------------------------------------ seats

  lemma HelloSeated(e: Env, s: State, c: ConnId, n: Name, kind: string, caps: set<string>)
    requires Seated(s) && Names.ValidName(n)
    ensures Seated(HandleHello(e, s, c, n, kind, caps))
  {
    hide Disconnect, Admit, Answer, Seated, Entering, Seats;
    if c in s.names {
      SteadySeated(s, Answer(e, s, c, Err(Malformed, None, None, ""))) by { AnswerSteady(e, s, c,
        Err(Malformed, None, None, "")); }
    } else {
      var t := if s.Live(n) && !s.Connected(n) then Disconnect(e, s, s.regs[n].client) else s;
      if s.Live(n) && !s.Connected(n) {
        DisconnectSeated(e, s, s.regs[n].client);
        DisconnectFrame(e, s, s.regs[n].client);
      }
      if t.Live(n) {
        var r := Err(NameTaken, None, None, Suggestion(n, t.regs.Keys));
        AnswerSteady(e, t, c, r);
        var u := Answer(e, t, c, r);
        SteadySeated(t, u.(gone := u.gone + {c}));
      } else {
        SeatedRoots(t);
        EnteringSeated(e, t, c, n, kind, caps);
        AdmitSteady(e, t, c, n, kind, caps);
        SteadySeated(Entering(e, t, c, n, kind, caps), Admit(e, t, c, n, kind, caps));
      }
    }
  }

  lemma SeatedRoots(s: State)
    requires Seated(s)
    ensures forall n :: n in s.order ==> n in s.regs
  {
  }

  lemma ExpireSeated(e: Env, s: State)
    requires Seated(s)
    ensures Seated(ExpireDead(e, s)) && ExpireDead(e, s).order == s.order
  {
  }

  lemma WatchOneSeated(e: Env, s: State, n: Name)
    requires n in s.regs && Seated(s)
    ensures Seated(WatchOne(e, s, n))
  {
    hide Seated, Disconnect, PingIfSilent, AssumeIdle, NotifyBlocked, Seats;
    DisconnectSeated(e, s, s.regs[n].client);
    PingSteady(e, s, n);
    var t := PingIfSilent(e, s, n);
    SteadySeated(s, t);
    if n in t.regs {
      AssumeSteady(e, t, n);
      var u := AssumeIdle(e, t, n);
      SteadySeated(t, u);
      if n in u.regs {
        BlockedSteady(e, u, n);
        SteadySeated(u, NotifyBlocked(e, u, n));
      }
    }
  }

  lemma PingSteady(e: Env, s: State, n: Name)
    requires n in s.regs
    ensures Steady(s, PingIfSilent(e, s, n))
  {
    hide Seats, Trace, Answer;
    var p := s.regs[n].(awaitingPong := true, pongDeadline := s.clock.mono + e.cfg.pongTimeout);
    PutSeats(s.regs, n, p);
    AnswerSteady(e, s.Put(n, p), s.regs[n].client, Ping);
  }

  lemma AssumeSteady(e: Env, s: State, n: Name)
    requires n in s.regs
    ensures Steady(s, AssumeIdle(e, s, n))
  {
    hide Seats, Emit, FlushQueue;
    PutSeats(s.regs, n, SetIdle(s.regs[n]));
    var t := s.Put(n, SetIdle(s.regs[n]));
    EmitFrame(e, t, Stalled(Some(n)), None);
    FlushSteady(e, Emit(e, t, Stalled(Some(n)), None), n);
  }

  lemma BlockedSteady(e: Env, s: State, n: Name)
    requires n in s.regs
    ensures Steady(s, NotifyBlocked(e, s, n))
  {
    hide Seats, Emit;
    EmitFrame(e, s.(blockedNotified := s.blockedNotified + {n}), BlockedFor(n), None);
  }

  lemma {:induction false} WatchAllSeated(e: Env, s: State, names: seq<Name>)
    requires Seated(s)
    ensures Seated(WatchAll(e, s, names))
    decreases names
  {
    hide Seated, WatchOne;
    if names != [] {
      if names[0] in s.regs {
        WatchOneSeated(e, s, names[0]);
      }
      WatchAllSeated(e, if names[0] in s.regs then WatchOne(e, s, names[0]) else s, names[1..]);
    }
  }

  lemma TickSeated(e: Env, s: State)
    requires Seated(s)
    ensures Seated(WatchdogTick(e, s))
  {
    hide Seated, WatchAll, ExpireDead, Emit, QuorumDue, AllQuiet, Expected, Seats;
    ExpireSeated(e, s);
    var t := ExpireDead(e, s);
    WatchAllSeated(e, t, t.order);
    var u := WatchAll(e, t, t.order);
    EmitFrame(e, u.(quorumLatched := true), QuorumReached(Expected(u)), None);
    var v := CheckQuorum(e, u);
    EmitFrame(e, v.(stallLatched := true), Stalled(None), None);
    SeatsSeated(u, WatchdogTick(e, s));
  }

  // ------------------------------------------------------------------ steps and runs

  lemma LifeSignSound(e: Env, s: State, n: Name)
    requires n in s.regs && Sound(e, s)
    ensures Sound(e, LifeSign(s, n))
  {
    hide Mail, Seated, Seats, NothingWaitsBut;
    PutSound(e, s, n, s.regs[n].(lastRx := s.clock.mono, awaitingPong := false));
  }

  lemma DispatchSound(e: Env, s: State, c: ConnId, n: Name, f: Request)
    requires e.cfg.Valid() && n in s.regs && Sound(e, s) && WellFormed(f)
    ensures Sound(e, Dispatch(e, s, c, n, f))
  {
    hide MailOk, Seated, HandleSay, HandleState, HandleCmd, Disconnect, Answer, Seats;
    match f
    case Say(say) =>
      SayMail(e, s, n, say);
      SaySteady(e, s, n, say);
      ChargedSeated(e, s, n, say);
      SteadySeated(Charged(e, s, n, say), HandleSay(e, s, n, say));
    case StateReport(st, detail) =>
      StateMail(e, s, n, st, detail);
      StateSteady(e, s, n, st, detail);
      SteadySeated(s, HandleState(e, s, n, st, detail));
    case Cmd(cmd, q) =>
      CmdMail(e, s, n, cmd, q);
      CmdSteady(e, s, n, cmd, q);
      var t := HandleCmd(e, s, n, cmd, q);
      SteadySeated(s, t.(maxRounds := s.maxRounds));
      BudgetSeated(t, s.maxRounds);
    case RosterQuery =>
      AnswerMail(e, s, s.regs[n].client, RosterReply);
      AnswerSteady(e, s, s.regs[n].client, RosterReply);
      SteadySeated(s, Answer(e, s, s.regs[n].client, RosterReply));
    case Bye =>
      DisconnectMail(e, s, c);
      DisconnectSeated(e, s, c);
    case _ =>
  }

  lemma ChargedSeated(e: Env, s: State, n: Name, f: SayFrame)
    requires n in s.regs && Sound(e, s)
    ensures Seated(Charged(e, s, n, f))
  {
    hide MailOk, Seated, Spent, Checked, Kept, Register, EarlyRefusal, MaySpend, Repeats;
    ChargesSound(e, s, n, f);
    RegisterSeated(e, s, n, f);
    RegisterSeated(e, Kept(e, s, n, f), n, f);
  }

  lemma RegisterSeated(e: Env, s: State, n: Name, f: SayFrame)
    requires n in s.regs && Seated(s)
    ensures Seated(Register(e, s, n, f))
  {
    hide Register, Seated;
    RegisterFrame(e, s, n, f);
    PutSeated(s, n, s.regs[n].(lastSay := s.clock.mono));
    SeatsSeated(s.Put(n, s.regs[n].(lastSay := s.clock.mono)), Register(e, s, n, f));
  }

  lemma BudgetSeated(s: State, maxRounds: nat)
    ensures Seated(s.(maxRounds := maxRounds)) <==> Seated(s)
  {
  }

  lemma HandleSound(e: Env, s: State, c: ConnId, f: Request)
    requires e.cfg.Valid() && Sound(e, s)
    ensures Sound(e, Handle(e, s, c, f))
  {
    hide MailOk, Seated, HandleHello, Dispatch, Answer, Seats, LifeSign;
    if !WellFormed(f) {
      AnswerMail(e, s, c, Err(Malformed, SeqOf(f), None, ""));
      AnswerSteady(e, s, c, Err(Malformed, SeqOf(f), None, ""));
      SteadySeated(s, Answer(e, s, c, Err(Malformed, SeqOf(f), None, "")));
    } else if f.Hello? {
      HelloMail(e, s, c, f.name, f.kind, f.caps);
      HelloSeated(e, s, c, f.name, f.kind, f.caps);
    } else if c !in s.names || !s.Live(s.names[c]) {
      AnswerMail(e, s, c, Err(Malformed, None, None, ""));
      AnswerSteady(e, s, c, Err(Malformed, None, None, ""));
      SteadySeated(s, Answer(e, s, c, Err(Malformed, None, None, "")));
    } else {
      var n := s.names[c];
      LifeSignSound(e, s, n);
      assert n in LifeSign(s, n).regs by { LifeSignHas(s, n); }
      DispatchSound(e, LifeSign(s, n), c, n, f);
    }
  }

  lemma LifeSignHas(s: State, n: Name)
    requires n in s.regs
    ensures n in LifeSign(s, n).regs
  {
  }

  lemma ClockSound(e: Env, s: State, clock: Clock)
    ensures Sound(e, s) ==> Sound(e, s.(clock := clock))
    ensures forall c :: Sound(e, s) ==> Sound(e, s.(gone := s.gone + {c}))
  {
    hide Mail;
  }

  /** Every step of the hub keeps every mailbox in order and lets no deliverable agent wait. */
  lemma StepSound(e: Env, s: State, clock: Clock, i: Input)
    requires e.cfg.Valid() && Sound(e, s)
    ensures Sound(e, Step(e, s, clock, i))
  {
    hide MailOk, Seated, Handle, Disconnect, WatchdogTick, Sound;
    var t := s.(clock := clock);
    ClockSound(e, s, clock);
    match i
    case Inbound(c, f) => HandleSound(e, t, c, f);
    case Closed(c) =>
      SoundParts(e, t);
      DisconnectMail(e, t, c);
      DisconnectSeated(e, t, c);
      SoundParts(e, Disconnect(e, t, c));
    case Lost(c) => ClockSound(e, t, t.clock);
    case Tick =>
      SoundParts(e, t);
      TickMail(e, t);
      TickSeated(e, t);
      SoundParts(e, WatchdogTick(e, t));
  }

}
