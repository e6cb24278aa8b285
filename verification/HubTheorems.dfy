/** What the hub guarantees over whole runs: from any start, through any sequence of frames,
    lost connections, watchdog ticks and restarts, with every cap in force. */
module HubTheorems {
  import opened Types
  import opened Mailbox
  import opened MailboxLaws
  import opened HubState
  import opened HubSpec
  import opened HubFrames
  import opened LawMail
  import opened LawMailSteps
  import opened LawFloor
  import opened LawRecords
  import opened LawRestart
  import opened LawNumbers
  import opened LawTold
  import opened LawSession
  import opened LawRound
  import LawIdle
  import Slicing
  import Bucket
  import Dedup
  import Names

  /** Everything the steps keep; `epoch` is the day before the hub started. */
  ghost predicate Good(e: Env, epoch: int, s: State) {
    Sound(e, s) && Floor(s) && Records(e, epoch, s) && Told(s) && Minuted(s)
  }

  lemma StepGood(e: Env, epoch: int, s: State, clock: Clock, i: Input)
    requires e.cfg.Valid() && Good(e, epoch, s) && Later(s.clock, clock)
    ensures Good(e, epoch, Step(e, s, clock, i)) && Step(e, s, clock, i).clock == clock
  {
    hide Step, Floor, Records, Told, Minuted, Seated, MailOk;
    StepTold(e, s, clock, i);
    StepMinuted(e, s, clock, i);
    StepSound(e, s, clock, i);
    StepFloor(e, s, clock, i);
    StepRecords(e, epoch, s, clock, i);
  }

  lemma {:induction false} RunGood(e: Env, epoch: int, s: State, run: seq<(Clock, Input)>)
    requires e.cfg.Valid() && Good(e, epoch, s) && Timely(s, run)
    ensures Good(e, epoch, Run(e, s, run)) && s.clock.day <= Run(e, s, run).clock.day
    decreases run
  {
    hide Step, Good;
    if run != [] {
      StepGood(e, epoch, s, run[0].0, run[0].1);
      RunGood(e, epoch, Step(e, s, run[0].0, run[0].1), run[1..]);
    }
  }

  // ------------------------------------------------------------------ restarts

  /** One lifetime of the hub: when it starts, which of its sends fail, what happens to it. */
  datatype Life = Life(start: Clock, fails: nat -> bool, run: seq<(Clock, Input)>)

  /** One lifetime after another on the same transcript. */
  ghost function Lived(cfg: Config, archive: seq<DayRec>, lives: seq<Life>): State
    requires cfg.Valid() && lives != []
    decreases |lives|
  {
    var l := lives[|lives| - 1];
    var files := if |lives| == 1 then archive else Lived(cfg, archive, lives[..|lives| - 1]).archive;
    Run(Env(cfg, l.fails), Boot(cfg, files, l.start), l.run)
  }

  ghost predicate LivedTimely(cfg: Config, archive: seq<DayRec>, lives: seq<Life>)
    requires cfg.Valid() && lives != []
    decreases |lives|
  {
    var l := lives[|lives| - 1];
    && l.start.mono >= 0.0
    && (|l.run| > 0 ==> Later(l.start, l.run[0].0))
    && (forall i :: 0 <= i < |l.run| - 1 ==> Later(l.run[i].0, l.run[i + 1].0))
    && (|lives| > 1 ==>
          var before := lives[..|lives| - 1];
          LivedTimely(cfg, archive, before) && Lived(cfg, archive, before).clock.day <= l.start.day)
  }

  lemma BootClock(cfg: Config, archive: seq<DayRec>, clock: Clock)
    ensures Boot(cfg, archive, clock).clock == clock
  {
  }

  /** Through any number of restarts the hub stays good. */
  lemma {:induction false} LivedGood(cfg: Config, archive: seq<DayRec>, lives: seq<Life>)
    requires cfg.Valid() && lives != [] && Startable(archive, lives[0].start) && LivedTimely(cfg, archive, lives)
    ensures var l := lives[|lives| - 1];
            var s := Lived(cfg, archive, lives);
            Good(Env(cfg, l.fails), l.start.day - 1, s) && l.start.day <= s.clock.day
    decreases |lives|
  {
    hide Boot, Run, Sound, Floor, Records, Startable, Told, Minuted;
    var l := lives[|lives| - 1];
    var e := Env(cfg, l.fails);
    var files := if |lives| == 1 then archive else Lived(cfg, archive, lives[..|lives| - 1]).archive;
    if |lives| > 1 {
      var before := lives[..|lives| - 1];
      LivedGood(cfg, archive, before);
      var k := before[|before| - 1];
      RestartStarts(Env(cfg, k.fails), k.start.day - 1, Lived(cfg, archive, before), l.start);
    }
    BootGood(e, files, l.start);
    BootTold(cfg, files, l.start);
    BootMinuted(cfg, files, l.start);
    BootClock(cfg, files, l.start);
    RunGood(e, l.start.day - 1, Boot(cfg, files, l.start), l.run);
  }

  /** At every start the transcript was empty, or its last record at most a day old. */
  ghost predicate Prompt(cfg: Config, archive: seq<DayRec>, lives: seq<Life>)
    requires cfg.Valid() && lives != []
    decreases |lives|
  {
    var l := lives[|lives| - 1];
    var files := if |lives| == 1 then archive else Lived(cfg, archive, lives[..|lives| - 1]).archive;
    && (files == [] || LastRec(files).day >= l.start.day - 1)
    && (|lives| > 1 ==> Prompt(cfg, archive, lives[..|lives| - 1]))
  }

  lemma GoodDated(e: Env, epoch: int, s: State)
    requires Good(e, epoch, s)
    ensures Dated(s.archive, s.clock.day)
  {
    hide Sound, Floor, Told, Minuted, AllHonest, QuorumTold, LastSaysReal, Since, Trace, RecentRises;
  }

  /** Through prompt restarts the whole transcript stays numbered in order, up to the counter. */
  lemma {:induction false} LivedNumbered(cfg: Config, archive: seq<DayRec>, lives: seq<Life>, hi: nat)
    requires cfg.Valid() && lives != [] && Startable(archive, lives[0].start) && LivedTimely(cfg, archive, lives)
    requires Numbered(archive, hi) && Prompt(cfg, archive, lives)
    ensures Numbered(Lived(cfg, archive, lives).archive, Lived(cfg, archive, lives).msgCounter)
    decreases |lives|
  {
    hide Boot, Run, Startable, Numbered, Good, LastRec;
    var l := lives[|lives| - 1];
    var e := Env(cfg, l.fails);
    var files := if |lives| == 1 then archive else Lived(cfg, archive, lives[..|lives| - 1]).archive;
    if |lives| == 1 {
      StartableDated(archive, l.start);
      NumberedRestart(cfg, archive, hi, l.start);
    } else {
      var before := lives[..|lives| - 1];
      LivedNumbered(cfg, archive, before, hi);
      LivedGood(cfg, archive, before);
      var k, s := before[|before| - 1], Lived(cfg, archive, before);
      GoodDated(Env(cfg, k.fails), k.start.day - 1, s);
      DatedLater(s.archive, s.clock.day, l.start.day);
      NumberedRestart(cfg, s.archive, s.msgCounter, l.start);
    }
    BootFiles(cfg, files, l.start);
    RunNumbered(e, Boot(cfg, files, l.start), l.run);
  }

  lemma BootFiles(cfg: Config, archive: seq<DayRec>, clock: Clock)
    ensures Boot(cfg, archive, clock).archive == archive
  {
  }

  lemma StartableDated(archive: seq<DayRec>, clock: Clock)
    requires Startable(archive, clock)
    ensures Dated(archive, clock.day)
  {
  }

  /** Unique ids across restarts, over the whole transcript: as long as every start so far was
      prompt, the next start numbers on from above every recorded id exactly if it is prompt
      too. */
  lemma NextStartNumbersOn(cfg: Config, archive: seq<DayRec>, lives: seq<Life>, hi: nat, next: Life)
    requires cfg.Valid() && lives != [] && Startable(archive, lives[0].start)
    requires LivedTimely(cfg, archive, lives) && Lived(cfg, archive, lives).clock.day <= next.start.day
    requires Numbered(archive, hi) && Prompt(cfg, archive, lives)
    ensures var files := Lived(cfg, archive, lives).archive;
            (forall i :: 0 <= i < |files| ==> files[i].rec.id <= Boot(cfg, files, next.start).msgCounter)
            <==> Prompt(cfg, archive, lives + [next])
  {
    hide Boot, Run, Startable, Numbered, Good, LastRec;
    var s, l := Lived(cfg, archive, lives), lives[|lives| - 1];
    LivedNumbered(cfg, archive, lives, hi);
    LivedGood(cfg, archive, lives);
    GoodDated(Env(cfg, l.fails), l.start.day - 1, s);
    DatedLater(s.archive, s.clock.day, next.start.day);
    NumberedRestart(cfg, s.archive, s.msgCounter, next.start);
    assert (lives + [next])[..|lives + [next]| - 1] == lives;
  }

  // ------------------------------------------------------------------ mailboxes

  lemma GoodBox(e: Env, epoch: int, s: State, n: Name)
    requires Good(e, epoch, s) && n in s.regs
    ensures BoxInv(e.cfg, s.msgCounter, n, s.regs[n].box, [])
  {
    hide BoxInv, Floor, Records, Seated, RecentRises, Told, Minuted;
  }

  /** Total delivery order: over everything a registration has been handed, through drops,
      evictions, disconnects and reclaims, ids increase; what still waits comes later. */
  lemma DeliveryOrder(e: Env, epoch: int, s: State, n: Name)
    requires Good(e, epoch, s) && n in s.regs
    ensures var b := s.regs[n].box;
            && Rising(Sent(b.frames)) && Rising(b.queue) && Rising(b.ctx.items)
            && Below(Sent(b.frames), b.queue) && Below(Sent(b.frames), b.ctx.items)
            && Apart(b.queue, b.ctx.items) && UpTo(Sent(b.frames), s.msgCounter)
  {
    hide Good, Rising, Below, Apart, UpTo, Sent, Conserved, Discreet, Shaped;
    GoodBox(e, epoch, s, n);
  }

  function Flat(frames: seq<seq<Msg>>): seq<Msg> {
    if frames == [] then [] else Flat(frames[..|frames| - 1]) + frames[|frames| - 1]
  }

  /** What an agent was sent is part of what its mailbox handed out, in the same order. */
  lemma {:induction false} FlatRises(owner: Name, frames: seq<Frame>)
    requires Rising(Sent(frames)) && AllReadable(owner, Sent(frames))
    ensures Rising(Flat(HandedOver(frames))) && AllReadable(owner, Flat(HandedOver(frames)))
    ensures forall i :: 0 <= i < |Flat(HandedOver(frames))| ==> Flat(HandedOver(frames))[i] in Sent(frames)
  {
    if frames != [] {
      hide AllReadable, Rising;
      var init, f := frames[..|frames| - 1], frames[|frames| - 1];
      RisingSplits(owner, Sent(init), f.msgs);
      FlatRises(owner, init);
      var out := HandedOver(init) + [f.msgs];
      assert out[..|out| - 1] == HandedOver(init);
      assert HandedOver(frames) == if f.toAgent then out else HandedOver(init);
      RisingJoins(owner, Flat(HandedOver(init)), f.msgs, Sent(init));
    }
  }

  lemma RisingSplits(owner: Name, xs: seq<Msg>, ys: seq<Msg>)
    requires Rising(xs + ys) && AllReadable(owner, xs + ys)
    ensures Rising(xs) && AllReadable(owner, xs) && Rising(ys) && AllReadable(owner, ys) && Below(xs, ys)
  {
    var zs := xs + ys;
    assert forall i :: 0 <= i < |xs| ==> zs[i] == xs[i];
    assert forall i :: 0 <= i < |ys| ==> zs[|xs| + i] == ys[i];
  }

  lemma RisingJoins(owner: Name, xs: seq<Msg>, ys: seq<Msg>, all: seq<Msg>)
    requires Rising(xs) && Rising(ys) && Below(all, ys) && (forall i :: 0 <= i < |xs| ==> xs[i] in all)
    requires AllReadable(owner, xs) && AllReadable(owner, ys)
    ensures Rising(xs + ys) && AllReadable(owner, xs + ys)
  {
  }

  /** Total delivery order and privacy, told of the wire: the frames sent to an agent since
      it first joined carry, one after the other, strictly increasing ids, whatever drops,
      evictions, disconnects and reclaims lie between; and none of them carries a private
      message to somebody else. */
  lemma SentInOrder(e: Env, epoch: int, s: State, n: Name)
    requires Good(e, epoch, s) && n in s.regs
    ensures var p := s.regs[n];
            && p.joinedAt <= |AgentLog(s.log)|
            && SentTo(AgentLog(s.log)[p.joinedAt..], n) == HandedOver(p.box.frames)
            && Rising(Flat(SentTo(AgentLog(s.log)[p.joinedAt..], n)))
            && AllReadable(n, Flat(SentTo(AgentLog(s.log)[p.joinedAt..], n)))
  {
    hide Rising, Below, Apart, UpTo, Sent, Conserved, Shaped, AllReadable;
    hide Sound, Floor, Records, AgentLog, SentTo, SaidBy, HandedOver, Flat, Minuted;
    assert BoxInv(e.cfg, s.msgCounter, n, s.regs[n].box, []) by { GoodBox(e, epoch, s, n); }
    FlatRises(n, s.regs[n].box.frames);
    assert Histories(s.regs)[n] == HistoryOf(s.regs[n]);
  }

  /** Conservation: every copy routed to a registration is delivered, queued, buffered or
      lost, exactly once, and every loss has been announced or is going to be. */
  lemma ExactLoss(e: Env, epoch: int, s: State, n: Name)
    requires Good(e, epoch, s) && n in s.regs
    ensures var b := s.regs[n].box;
            && b.routed == Copies(Sent(b.frames)) + multiset(b.queue) + multiset(b.ctx.items) + multiset(b.lost)
            && |b.lost| == Announces(Sent(b.frames)) + b.dropped + b.ctx.evicted
  {
    hide Good, Ordered, Discreet, Shaped, Sent;
    GoodBox(e, epoch, s, n);
  }

  /** Privacy: nothing a registration holds or has been handed out of its mailbox is a
      private message to somebody else. */
  lemma Privacy(e: Env, epoch: int, s: State, n: Name)
    requires Good(e, epoch, s) && n in s.regs
    ensures var b := s.regs[n].box;
            AllReadable(n, b.queue) && AllReadable(n, b.ctx.items) && AllReadable(n, Sent(b.frames))
  {
    hide Good, Ordered, Conserved, Shaped, Sent, AllReadable;
    GoodBox(e, epoch, s, n);
  }

  /** Frames are sorted, hold between one and `deliverWakeCap` wakes and at most one line
      more than the context cap; queue and context stay within their caps. */
  lemma FrameShape(e: Env, epoch: int, s: State, n: Name)
    requires Good(e, epoch, s) && n in s.regs
    ensures var b := s.regs[n].box;
            && (forall f :: 0 <= f < |b.frames| ==> Sorted(b.frames[f].msgs) && BatchSize(e.cfg, b.frames[f].msgs))
            && |b.queue| <= e.cfg.queueCap && |b.ctx.items| <= e.cfg.contextCap
            && (forall i :: 0 <= i < |b.queue| ==> QueueLine(b.queue[i]))
            && (forall i :: 0 <= i < |b.ctx.items| ==> ContextLine(b.ctx.items[i]))
  {
    hide Good, Ordered, Conserved, Discreet, Sorted, BatchSize, QueueLine, ContextLine;
    GoodBox(e, epoch, s, n);
  }

  /** No deliverable agent waits. */
  lemma NobodyWaits(e: Env, epoch: int, s: State, n: Name)
    requires Good(e, epoch, s) && s.IsAgent(n) && s.Connected(n) && s.regs[n].box.queue != []
    ensures s.regs[n].state != Idle
  {
    hide Mail, Floor, Records, Seated, RecentRises, Told, Minuted;
  }

  // ------------------------------------------------------------------ reclaim

  /** Nobody brings `n` back during the run, and it does not expire. */
  ghost predicate Away(e: Env, s: State, run: seq<(Clock, Input)>, n: Name)
    requires e.cfg.Valid()
    decreases run
  {
    run == [] || (n !in Touched(e, s, run[0].0, run[0].1) && Away(e, Step(e, s, run[0].0, run[0].1), run[1..], n))
  }

  lemma {:induction false} AwayRun(e: Env, s: State, run: seq<(Clock, Input)>, n: Name)
    requires e.cfg.Valid() && Sound(e, s) && n in s.regs && n !in s.order && Away(e, s, run, n)
    ensures var t := Run(e, s, run);
            Sound(e, t) && n in t.regs && n !in t.order && t.regs[n] == s.regs[n]
    decreases run
  {
    hide Step, Seated, MailOk, Touched;
    if run != [] {
      StepSound(e, s, run[0].0, run[0].1);
      AwayIsUntouched(e, s, run[0].0, run[0].1, n);
      AwayRun(e, Step(e, s, run[0].0, run[0].1), run[1..], n);
    }
  }

  /** A registration leaves, anything happens for any time short of its expiry, and it is
      reclaimed: budget, duplicate window and history are what they were, and the mailbox is
      what it was, less the slice that is handed over on the return if a wake waits and the
      new connection has survived the welcome. */
  lemma ReclaimRoundTrip(e: Env, s: State, left: Clock, c: ConnId, run: seq<(Clock, Input)>, back: Clock, again: ConnId,
                         n: Name, kind: string, caps: set<string>)
    requires e.cfg.Valid() && Sound(e, s) && Holds(s, c) && s.names[c] == n && Names.MatchesName(kind)
    requires Away(e, Step(e, s, left, Closed(c)), run, n)
    requires again !in Run(e, Step(e, s, left, Closed(c)), run).names
    ensures var u := Run(e, Step(e, s, left, Closed(c)), run);
            && n in u.regs && n !in u.order && SameRegistration(s.regs[n], u.regs[n])
            && var v, p := Step(e, u, back, Inbound(again, Hello(n, kind, caps))), s.regs[n];
               && n in v.regs && n in v.order
               && SameRegistration(p, v.regs[n].(box := p.box))
               && v.regs[n].client == again && v.regs[n].kind == kind && !v.regs[n].finished
               && v.regs[n].box ==
                    if p.box.queue != [] && again !in Welcomed(e, u.(clock := back), again, n, kind, caps).gone
                    then Slicing.Flush(e.cfg, n, kind != OBSERVER, p.box) else p.box
  {
    hide Step, Run, Away, MailOk, Seated, Slicing.Flush, Welcomed, SameRegistration;
    var t := Step(e, s, left, Closed(c));
    LeaveKeeps(e, s, left, c);
    StepSound(e, s, left, Closed(c));
    AwayRun(e, t, run, n);
    var u := Run(e, t, run);
    assert Names.ValidName(n) by { SeatedNames(u, n); }
    HelloReclaims(e, u, back, again, n, kind, caps);
    SameTrans(s.regs[n], u.regs[n], Step(e, u, back, Inbound(again, Hello(n, kind, caps))).regs[n]);
  }

  lemma SameTrans(p: Part, q: Part, r: Part)
    requires SameRegistration(p, q) && SameRegistration(q, r.(box := q.box))
    ensures SameRegistration(p, r.(box := p.box)) && p.box == q.box
  {
  }

  lemma SeatedNames(s: State, n: Name)
    requires Seated(s) && n in s.regs
    ensures Names.ValidName(n) && s.regs[n].name == n
  {
  }

  lemma LeaveKeeps(e: Env, s: State, left: Clock, c: ConnId)
    requires e.cfg.Valid() && Holds(s, c)
    ensures var t, n := Step(e, s, left, Closed(c)), s.names[c];
            n in t.regs && n !in t.order && SameRegistration(s.regs[n], t.regs[n])
  {
    hide Disconnect, Without;
    DisconnectFrame(e, s.(clock := left), c);
  }

  lemma HelloReclaims(e: Env, s: State, back: Clock, again: ConnId, n: Name, kind: string, caps: set<string>)
    requires e.cfg.Valid() && n in s.regs && n !in s.order && again !in s.names
    requires Names.ValidName(n) && Names.MatchesName(kind)
    ensures var u, w := Step(e, s, back, Inbound(again, Hello(n, kind, caps))),
              Welcomed(e, s.(clock := back), again, n, kind, caps);
            && n in u.regs && n in u.order && SameRegistration(s.regs[n], u.regs[n].(box := s.regs[n].box))
            && u.regs[n].client == again && u.regs[n].kind == kind && !u.regs[n].finished
            && u.regs[n].box ==
                 if s.regs[n].box.queue != [] && again !in w.gone
                 then Slicing.Flush(e.cfg, n, kind != OBSERVER, s.regs[n].box) else s.regs[n].box
  {
    hide Welcomed, FlushQueue, Slicing.Flush, Seats, Trace, Flow, Names.ValidName, Names.MatchesName;
    var t := s.(clock := back);
    var w := Welcomed(e, t, again, n, kind, caps);
    ReclaimContinues(e, t, again, n, kind, caps);
    assert Step(e, s, back, Inbound(again, Hello(n, kind, caps))) == FlushQueue(e, w, n);
    var u := FlushQueue(e, w, n);
    FlushSteady(e, w, n);
    SteadyFacts(w, u);
    assert SeatOf(u.regs[n]) == SeatOf(w.regs[n]);
    FlushUnmarked(e, w, n);
    if w.Connected(n) {
      LawIdle.FlushIsSlice(e, w, n);
    } else {
      LawIdle.FlushUnconnected(e, w, n);
    }
  }

  lemma FlushUnmarked(e: Env, s: State, n: Name)
    requires n in s.regs && n in s.order && !s.regs[n].finished
    ensures n in FlushQueue(e, s, n).regs && !FlushQueue(e, s, n).regs[n].finished
              && FlushQueue(e, s, n).order == s.order
  {
    hide SliceBatch, AfterSlice, WakeSlice, Deliver, CheckRoundLimit, CheckSessionDone, Counts, Seats, Trace;
    FlushSteady(e, s, n);
    var p := s.regs[n];
    if p.box.queue != [] && s.Connected(n) {
      var batch := SliceBatch(e.cfg, n, p.box);
      var t := s.Put(n, p.(box := AfterSlice(e.cfg, n, p.box)));
      SliceUnmarked(e, t, n, batch);
      SliceUnmarked(e, t.(round := t.round + 1), n, batch);
    }
  }

  lemma SliceUnmarked(e: Env, s: State, n: Name, batch: seq<Msg>)
    requires n in s.regs && !s.regs[n].finished
    ensures var u := Deliver(e, s, n, batch, true, ByFlush);
            var v, w := CheckSessionDone(e, u), CheckSessionDone(e, CheckRoundLimit(e, u));
            n in v.regs && !v.regs[n].finished && n in w.regs && !w.regs[n].finished
  {
    hide Deliver, CheckRoundLimit, CheckSessionDone, SortById;
    DeliverFrame(e, s, n, batch, true, ByFlush);
    var u := Deliver(e, s, n, batch, true, ByFlush);
    CheckUnmarked(e, u, n);
    CheckUnmarked(e, CheckRoundLimit(e, u), n);
  }

  lemma CheckUnmarked(e: Env, s: State, n: Name)
    requires n in s.regs && !s.regs[n].finished
    ensures n in CheckSessionDone(e, s).regs && !CheckSessionDone(e, s).regs[n].finished
    ensures n in CheckRoundLimit(e, s).regs && !CheckRoundLimit(e, s).regs[n].finished
  {
    hide CheckRoundLimit, CheckSessionDone, SessionComplete;
    RoundLimitFrame(e, s);
    SessionDoneFrame(e, s);
  }

  // ------------------------------------------------------------------ the floor

  /** `session_done` is never missed: between steps there is always an agent that has not
      declared itself finished or still has a queue, unless there is no agent at all. */
  lemma SessionNeverMissed(s: State)
    requires Floor(s) && (exists n :: n in s.order && s.IsAgent(n))
    ensures exists n :: n in s.order && s.IsAgent(n) && (!s.regs[n].finished || s.regs[n].box.queue != [])
  {
    hide Budgeted, Tallied;
  }

  /** Every session end in the log of a good state was due: there were agents on the floor, and
      the last say of each since it joined was a `done`. That is so at the point of the end,
      or, if what comes last there is a say, before that say: it is the one that was being
      handled, and its sender's mark is lifted only after its queue is flushed. */
  lemma SessionEndsWereDue(e: Env, epoch: int, s: State, i: nat) returns (ch: seq<Note>)
    requires Good(e, epoch, s) && i < |s.log| && IsDone(s.log[i])
    ensures var all := Chron(s.log[..i]);
            && (ch == all || (all != [] && all[|all| - 1].SayAccepted? && ch == all[..|all| - 1]))
            && (forall n :: n in Present(all) && Present(all)[n] != OBSERVER ==>
                  LastSayIsDone(all, n) || Says(all[|all| - 1], n))
    ensures exists n :: n in Present(ch) && Present(ch)[n] != OBSERVER
    ensures forall n :: n in Present(ch) && Present(ch)[n] != OBSERVER ==> LastSayIsDone(ch, n)
  {
    hide Sound, Floor, Records, Told, Chron, Roll, Present, Declared, RightlyDone, LastSayIsDone;
    RightAt(s.log, i);
    var all := Chron(s.log[..i]);
    ch := if AllDeclared(all) then all else all[..|all| - 1];
    forall n | n in Present(ch) && Present(ch)[n] != OBSERVER
      ensures LastSayIsDone(ch, n)
    {
      DeclaredMeans(ch, n);
    }
    if ch != all {
      assert ch + [all[|all| - 1]] == all;
      ListGrows(ch, all[|all| - 1]);
    }
    forall n | n in Present(all) && Present(all)[n] != OBSERVER
      ensures LastSayIsDone(all, n) || Says(all[|all| - 1], n)
    {
      DeclaredMeans(all, n);
    }
  }

  /** Who the log says is on the floor is on the floor. */
  lemma PresentIsLive(e: Env, epoch: int, s: State, n: Name)
    requires Good(e, epoch, s)
    ensures s.Live(n) <==> n in Present(Chron(s.log))
    ensures s.Live(n) ==> Present(Chron(s.log))[n] == s.regs[n].kind
  {
    hide Sound, Floor, Records, Told, Chron, Present, Declared, RightlyDone;
    assert n in Kinds(Roll(s)) <==> n in Roll(s);
  }

  /** `n` has said `done`, and has neither joined nor said anything since. */
  predicate LastSayIsDone(ch: seq<Note>, n: Name) {
    exists j :: 0 <= j < |ch| && DoneAt(ch, n, j)
  }

  predicate DoneAt(ch: seq<Note>, n: Name, j: nat)
    requires j < |ch|
  {
    SaysDone(ch[j], n) && forall k :: j < k < |ch| ==> !Joins(ch[k], n) && !Says(ch[k], n)
  }

  predicate Says(x: Note, n: Name) {
    x.SayAccepted? && x.rec.sender == n
  }

  predicate SaysDone(x: Note, n: Name) {
    x.SayAccepted? && x.rec.sender == n && x.rec.kind == "done"
  }

  predicate Joins(x: Note, n: Name) {
    x.Happened? && x.event.PeerJoined? && x.event.name == n
  }

  lemma {:induction false} DeclaredMeans(ch: seq<Note>, n: Name)
    ensures Declared(ch, n) <==> LastSayIsDone(ch, n)
  {
    if ch != [] {
      hide DoneAt;
      DeclaredMeans(ch[..|ch| - 1], n);
      DoneGrows(ch, n);
    }
  }

  lemma DoneGrows(ch: seq<Note>, n: Name)
    requires ch != []
    ensures var init, x := ch[..|ch| - 1], ch[|ch| - 1];
            LastSayIsDone(ch, n) <==> SaysDone(x, n) || (!Says(x, n) && !Joins(x, n) && LastSayIsDone(init, n))
  {
    hide DoneAt;
    var init, x := ch[..|ch| - 1], ch[|ch| - 1];
    forall j | 0 <= j < |init|
      ensures DoneAt(ch, n, j) <==> DoneAt(init, n, j) && !Joins(x, n) && !Says(x, n)
    {
      DoneBefore(ch, n, j);
    }
    DoneLast(ch, n);
  }

  lemma DoneBefore(ch: seq<Note>, n: Name, j: nat)
    requires j < |ch| - 1
    ensures DoneAt(ch, n, j) <==>
              DoneAt(ch[..|ch| - 1], n, j) && !Joins(ch[|ch| - 1], n) && !Says(ch[|ch| - 1], n)
  {
    var init := ch[..|ch| - 1];
    assert forall k :: 0 <= k < |init| ==> init[k] == ch[k];
  }

  lemma DoneLast(ch: seq<Note>, n: Name)
    requires ch != []
    ensures DoneAt(ch, n, |ch| - 1) <==> SaysDone(ch[|ch| - 1], n)
  {
  }

  lemma {:induction false} RightAt(log: seq<Note>, i: nat)
    requires RightlyDone(Chron(log)) && i < |log| && IsDone(log[i])
    ensures Due(Chron(log[..i]))
    decreases |log|
  {
    hide Due, AllDeclared, Strays, Chron, RightlyDone, Present, Declared, Sessions;
    var init, x := log[..|log| - 1], log[|log| - 1];
    ChronGrows(init, x);
    ListGrows(Chron(init), x);
    assert init + [x] == log;
    if i < |init| {
      assert init[..i] == log[..i];
      RightAt(init, i);
    } else {
      assert log[..i] == init;
    }
  }

  /** Round budget: an open floor has had fewer wake occasions than `maxRounds` since the
      last reset or session end, and the round counter is exactly their number. */
  lemma RoundBudget(s: State)
    requires Floor(s)
    ensures s.round == Occasions(s.log)
    ensures !s.frozen ==> Occasions(s.log) < s.maxRounds
  {
    hide SessionComplete, Occasions;
  }

  lemma {:induction false} CountedAt(log: seq<Note>, i: nat)
    requires Counted(log) && i < |log| && log[i].Delivered? && log[i].cause.ByFlush?
    ensures log[i].round == Occasions(log[..i + 1])
    decreases |log|
  {
    hide Occasions;
    if i == |log| - 1 {
      assert log[..i + 1] == log;
    } else {
      assert log[..|log| - 1][..i + 1] == log[..i + 1];
      CountedAt(log[..|log| - 1], i);
    }
  }

  /** What a frame to an observer counts, over the log of a good state: nothing, unless it is a
      flush with a wake that is not the hub's own; then it is an occasion like any other, and
      its round number says so. */
  lemma ObserverFramesCount(s: State, i: nat)
    requires Floor(s) && i < |s.log| && s.log[i].Delivered? && !s.log[i].toAgent
    ensures var x, counts := s.log[i], s.log[i].cause.ByFlush? && WakesForReal(s.log[i].msgs);
            && Occasions(s.log[..i + 1]) == Occasions(s.log[..i]) + (if counts then 1 else 0)
            && (x.cause.ByFlush? ==> x.round == Occasions(s.log[..i]) + (if counts then 1 else 0))
  {
    hide SessionComplete, Occasions, Counted, HasWoken, WakesForReal;
    assert s.log[..i] + [s.log[i]] == s.log[..i + 1];
    LogGrows(s.log[..i], s.log[i]);
    if s.log[i].cause.ByFlush? {
      CountedAt(s.log, i);
    }
  }

  /** A flush carries a round one higher exactly when its slice is not system-only. */
  lemma FlushCountsByContent(e: Env, s: State, n: Name)
    requires n in s.regs && s.Connected(n) && s.regs[n].box.queue != []
    ensures var t, p := FlushQueue(e, s, n), s.regs[n];
            && |t.log| > |s.log|
            && t.log[|s.log|] == Delivered(n, !p.IsObserver(), ByFlush,
                 s.round + (if Counts(WakeSlice(e.cfg, n, p.box)) then 1 else 0), SortById(SliceBatch(e.cfg, n, p.box)))
  {
    hide SliceBatch, AfterSlice, WakeSlice, Counts, SortById, Deliver, CheckRoundLimit, CheckSessionDone;
    var p := s.regs[n];
    var batch := SliceBatch(e.cfg, n, p.box);
    var t := s.Put(n, p.(box := AfterSlice(e.cfg, n, p.box)));
    FlushNote(e, t, n, batch);
    FlushNote(e, t.(round := t.round + 1), n, batch);
  }

  lemma FlushNote(e: Env, s: State, n: Name, batch: seq<Msg>)
    requires n in s.regs
    ensures var u := Deliver(e, s, n, batch, true, ByFlush);
            var v, w := CheckSessionDone(e, u), CheckSessionDone(e, CheckRoundLimit(e, u));
            var x := Delivered(n, !s.regs[n].IsObserver(), ByFlush, s.round, SortById(batch));
            |v.log| > |s.log| && v.log[|s.log|] == x && |w.log| > |s.log| && w.log[|s.log|] == x
  {
    hide SortById, Deliver, CheckRoundLimit, CheckSessionDone, SessionComplete;
    DeliverFrame(e, s, n, batch, true, ByFlush);
    var u := Deliver(e, s, n, batch, true, ByFlush);
    RoundLimitFrame(e, u);
    SessionDoneFrame(e, u);
    SessionDoneFrame(e, CheckRoundLimit(e, u));
  }

  // ------------------------------------------------------------------ what was said

  /** The says the hub accepted from a registration while it was an agent, read off the log
      from the point where it first joined. */
  function AcceptedFrom(s: State, n: Name): seq<Dedup.Said>
    requires n in s.regs && s.regs[n].joinedAt <= |AgentLog(s.log)|
  {
    SaidBy(AgentLog(s.log)[s.regs[n].joinedAt..], n)
  }

  /** They are what bucket and duplicate window stand for. */
  lemma HistoryIsLogged(s: State, n: Name)
    requires Told(s) && n in s.regs
    ensures s.regs[n].joinedAt <= |AgentLog(s.log)| && AcceptedFrom(s, n) == s.regs[n].says
  {
    hide AgentLog, SaidBy, SentTo;
    assert Histories(s.regs)[n] == HistoryOf(s.regs[n]);
  }

  /** The rate bound: in any stretch no longer than `span`, across disconnects and reclaims,
      at most burst + rate * span says are accepted from one registration. */
  lemma RateIsBounded(e: Env, s: State, n: Name, i: nat, j: nat, span: real)
    requires e.cfg.Valid() && AllHonest(e.cfg, s.clock.mono, Seats(s.regs)) && Told(s) && n in s.regs
    requires s.regs[n].joinedAt <= |AgentLog(s.log)| && i <= j < |AcceptedFrom(s, n)|
    requires AcceptedFrom(s, n)[j].at - AcceptedFrom(s, n)[i].at <= span
    ensures (j - i + 1) as real <= e.cfg.rateBurst as real + e.cfg.ratePerSecond * span
  {
    hide Dedup.Remembers, Bucket.Ledger, Seats, AllHonest, Told, AcceptedFrom;
    HistoryIsLogged(s, n);
    HonestAt(e.cfg, s.clock.mono, s.regs, n);
    var p := s.regs[n];
    Bucket.RateBound(e.cfg.rateBurst as real, e.cfg.ratePerSecond, p.bucket, Times(p.says), i, j, span);
  }

  /** Identical says of one registration are accepted more than a window apart. */
  lemma SaysAreSpaced(e: Env, s: State, n: Name, i: nat, j: nat)
    requires AllHonest(e.cfg, s.clock.mono, Seats(s.regs)) && Told(s) && n in s.regs
    requires s.regs[n].joinedAt <= |AgentLog(s.log)| && i < j < |AcceptedFrom(s, n)|
    requires Dedup.SameSay(AcceptedFrom(s, n)[i], AcceptedFrom(s, n)[j])
    ensures AcceptedFrom(s, n)[j].at - AcceptedFrom(s, n)[i].at > e.cfg.dedupWindow
  {
    hide Bucket.Ledger, Times, Dedup.SameSay, Seats, AllHonest, Told, AcceptedFrom;
    HistoryIsLogged(s, n);
    HonestAt(e.cfg, s.clock.mono, s.regs, n);
  }

  /** A say is refused as a duplicate exactly when the log since the registration joined holds
      the same say, accepted from it no longer ago than the window. */
  lemma DuplicateIsHistory(e: Env, s: State, n: Name, f: SayFrame)
    requires e.cfg.Valid() && Seated(s) && AllHonest(e.cfg, s.clock.mono, Seats(s.regs)) && Told(s)
    requires n in s.regs && EarlyRefusal(s, s.regs[n], f) == None
    ensures s.regs[n].joinedAt <= |AgentLog(s.log)|
    ensures Repeats(e, s, s.regs[n], f) <==> Dedup.SaidWithin(e.cfg.dedupWindow, AcceptedFrom(s, n), ToSaid(s, f))
  {
    hide EarlyRefusal, Bucket.Ledger, Times, Dedup.Remembers, Dedup.Expire, Dedup.Key, Dedup.SaidWithin;
    hide Seats, AllHonest, Seated, Told, AcceptedFrom;
    HistoryIsLogged(s, n);
    HonestAt(e.cfg, s.clock.mono, s.regs, n);
    AddressLine(s, s.regs[n], f);
    Dedup.SeenIsHistory(e.cfg.dedupWindow, s.clock.mono, s.regs[n].dedup, s.regs[n].says, ToSaid(s, f));
  }

  /** What the histories stand for: a say of an agent extends its history exactly when the
      hub accepts it, with the record the transcript gets; nothing else does. */
  lemma HistoryIsAccepted(e: Env, s: State, n: Name, f: SayFrame)
    requires e.cfg.Valid() && n in s.regs && !s.regs[n].IsObserver()
    ensures var t, accepted := HandleSay(e, s, n, f), RouteSay(e, s, n, f).1;
            && n in t.regs
            && t.regs[n].says == s.regs[n].says + (if accepted then [ToSaid(s, f)] else [])
            && Trace(t.log) == Trace(s.log) + (if accepted then [AgentSay(s, n, f)] else [])
  {
    hide HandleSay, RouteSay, Seats, Trace, Charged, NewMsg, RecordOf;
    SaySteady(e, s, n, f);
    ChargedHistory(e, s, n, f);
    var t, c := HandleSay(e, s, n, f), Charged(e, s, n, f);
    SteadyFacts(c, t);
    assert SeatOf(t.regs[n]) == SeatOf(c.regs[n]);
  }

  /** The note of an agent's say; an agent asks nobody. */
  function AgentSay(s: State, n: Name, f: SayFrame): Note {
    SayAccepted(RecordOf(NewMsg(s, n, f)), s.clock.mono, {}, true)
  }

  lemma ChargedHistory(e: Env, s: State, n: Name, f: SayFrame)
    requires e.cfg.Valid() && n in s.regs && !s.regs[n].IsObserver()
    ensures var c, accepted := Charged(e, s, n, f), RouteSay(e, s, n, f).1;
            && n in c.regs
            && c.regs[n].says == s.regs[n].says + (if accepted then [ToSaid(s, f)] else [])
            && Trace(c.log) == Trace(s.log) + (if accepted then [AgentSay(s, n, f)] else [])
  {
    hide Trace, Register, EarlyRefusal, MaySpend, Repeats;
    hide Accept, Reject, Dedup.AfterSeen, Bucket.AfterTake, RecordOf, Seats;
    TwicePut(e, s, n, f);
    RegisterTrace(e, Kept(e, s, n, f), n, f);
    RegisterFrame(e, Kept(e, s, n, f), n, f);
  }

  // ------------------------------------------------------------------ quorum

  lemma {:induction false} AnsweredStays(tr: seq<Note>, i: nat, j: nat)
    requires i < j <= |tr| && IsQuorum(tr[i])
    requires forall k :: i < k < j ==> !Asks(tr[k])
    ensures Answered(tr[..j])
    decreases j - i
  {
    assert tr[..j][..j - 1] == tr[..j - 1];
    if j > i + 1 {
      AnsweredStays(tr, i, j - 1);
    }
  }

  /** The quorum fires once: between two quorum events an observer asked agents again. */
  lemma QuorumFiresOnce(e: Env, epoch: int, s: State, i: nat, j: nat)
    requires Good(e, epoch, s) && i < j < |Trace(s.log)|
    requires IsQuorum(Trace(s.log)[i]) && IsQuorum(Trace(s.log)[j])
    ensures exists k :: i < k < j && Asks(Trace(s.log)[k])
  {
    hide Sound, Floor, AllHonest, WindowKept, LastSaysReal, Trace, Answered, LastAsk, Told, Minuted;
    var tr := Trace(s.log);
    assert RightlyFired(tr[..j], tr[j]);
    if forall k :: i < k < j ==> !Asks(tr[k]) {
      AnsweredStays(tr, i, j);
      assert false;
    }
  }

  /** The quorum is sound: a quorum event names agents that the last asking say addressed,
      each with a say accepted strictly later than it. */
  lemma QuorumIsSound(e: Env, epoch: int, s: State, i: nat)
    requires Good(e, epoch, s) && i < |Trace(s.log)| && IsQuorum(Trace(s.log)[i])
    ensures var before, names := Trace(s.log)[..i], Trace(s.log)[i].event.names;
            && names != {} && LastAsk(before).Some? && LastAsk(before).value.SayAccepted?
            && (forall n :: n in names ==>
                  n in LastAsk(before).value.asked && SaidAfter(before, n, LastAsk(before).value.at))
  {
    hide Sound, Floor, AllHonest, WindowKept, LastSaysReal, Trace, LastAsk, SaidAfter, Answered, Told, Minuted;
    assert RightlyFired(Trace(s.log)[..i], Trace(s.log)[i]);
  }

  /** A tick that tells of a quorum leaves every agent idle with nothing waiting. */
  lemma QuorumWhenQuiet(e: Env, s: State)
    requires |Trace(WatchdogTick(e, s).log)| != |Trace(s.log)|
    ensures AllQuiet(WatchdogTick(e, s))
  {
    hide WatchAll, CheckStall, Emit, Seats, Trace, AllQuiet, Expected, Kin;
    var t := ExpireDead(e, s);
    WatchAllTrace(e, t, t.order);
    var u := WatchAll(e, t, t.order);
    StallKin(e, CheckQuorum(e, u));
    KinTraces(CheckQuorum(e, u), WatchdogTick(e, s));
    StallRegs(e, CheckQuorum(e, u));
    EmitFrame(e, u.(quorumLatched := true), QuorumReached(Expected(u)), None);
    QuietFrame(u, WatchdogTick(e, s));
  }

  lemma KinTraces(s: State, t: State)
    requires Kin(s, t)
    ensures Trace(t.log) == Trace(s.log)
  {
  }

  lemma {:induction false} WatchAllTrace(e: Env, s: State, names: seq<Name>)
    ensures Trace(WatchAll(e, s, names).log) == Trace(s.log)
    decreases names
  {
    hide WatchOne, Kin, Trace;
    if names != [] {
      var t := if names[0] in s.regs then WatchOne(e, s, names[0]) else s;
      if names[0] in s.regs {
        WatchOneKin(e, s, names[0]);
        KinTraces(s, t);
      }
      WatchAllTrace(e, t, names[1..]);
    }
  }

  lemma StallRegs(e: Env, s: State)
    ensures CheckStall(e, s).regs == s.regs && CheckStall(e, s).order == s.order
  {
    hide AllQuiet, Emit;
    EmitFrame(e, s.(stallLatched := true), Stalled(None), None);
  }

  lemma QuietFrame(s: State, t: State)
    requires t.regs == s.regs && t.order == s.order
    ensures AllQuiet(t) == AllQuiet(s)
  {
  }

  // ------------------------------------------------------------------ suggested names

  /** A hello for a name that is taken is told the first free variant of it, found within as
      many tries as there are names, fit to register under, and its connection is closed. */
  lemma TakenNameIsSuggested(e: Env, s: State, c: ConnId, n: Name, kind: string, caps: set<string>) returns (k: nat)
    requires c !in s.names && s.Live(n) && s.Connected(n) && Names.ValidName(n)
    ensures var t := HandleHello(e, s, c, n, kind, caps);
            && t.log == s.log + [Replied(c, Err(NameTaken, None, None, Names.Candidate(n, k)))]
            && Names.FirstFree(n, s.regs.Keys, k) && k <= |s.regs| + 2
            && t.regs == s.regs && c in t.gone
    ensures Names.ValidName(Names.Candidate(n, k)) <==> k < Names.Pow10(30)
  {
    hide Names.Candidate, Names.ValidName, Names.MatchesName, Names.Pow10;
    k := Names.FirstFreeExists(n, s.regs.Keys, 2);
    SuggestionIsFirst(n, s.regs.Keys, k);
    assert |s.regs.Keys| == |s.regs|;
    assert Names.MatchesName(n) by { MatchesValid(n); }
    Names.CandidateValid(n, k);
  }

  lemma MatchesValid(n: Name)
    requires Names.ValidName(n)
    ensures Names.MatchesName(n)
  {
  }
}
