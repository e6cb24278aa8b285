/** Restart: what a hub that starts on the transcript of another one knows, and when that is
    what the other one knew. */
module LawRestart {
  import opened Types
  import opened Mailbox
  import opened HubState
  import opened HubSpec
  import opened HubFrames
  import opened LawMail
  import opened LawMailSteps
  import opened LawFloor
  import opened LawRecords

  // ------------------------------------------------------------------ two files are a suffix

  lemma {:induction false} NoneOnDay(archive: seq<DayRec>, day: int)
    requires forall i :: 0 <= i < |archive| ==> archive[i].day != day
    ensures DayFile(archive, day) == []
  {
    if archive != [] {
      NoneOnDay(archive[..|archive| - 1], day);
    }
  }

  /** Yesterday's and today's files hold the records since yesterday. */
  lemma {:induction false} TwoFiles(archive: seq<DayRec>, today: int)
    requires Dated(archive, today)
    ensures RecentMsgs(archive, today) == Since(archive, today - 1)
  {
    if archive != [] {
      var x := archive[|archive| - 1];
      var rest := archive[..|archive| - 1];
      TwoFiles(rest, today);
      if x.day == today - 1 {
        NoneOnDay(rest, today);
      }
    }
  }

  lemma {:induction false} NoneSince(archive: seq<DayRec>, day: int)
    requires forall i :: 0 <= i < |archive| ==> archive[i].day < day
    ensures Since(archive, day) == []
  {
    if archive != [] {
      NoneSince(archive[..|archive| - 1], day);
    }
  }

  function Recs(archive: seq<DayRec>): seq<Rec> {
    seq(|archive|, i requires 0 <= i < |archive| => archive[i].rec)
  }

  /** The records from a day on are the last ones: `k` says where they begin. */
  lemma {:induction false} SinceIsSuffix(archive: seq<DayRec>, day: int, today: int) returns (k: nat)
    requires Dated(archive, today)
    ensures k <= |archive| && Since(archive, day) == Recs(archive)[k..]
    ensures forall i :: 0 <= i < |archive| ==> (archive[i].day >= day <==> k <= i)
  {
    k := |archive|;
    if archive != [] {
      var x := archive[|archive| - 1];
      var rest := archive[..|archive| - 1];
      if x.day < day {
        NoneSince(archive, day);
      } else {
        k := SinceIsSuffix(rest, day, today);
        hide Dated, Recs;
        assert archive == rest + [x];
        RecsGrow(rest, x);
      }
    }
  }

  lemma RecsGrow(archive: seq<DayRec>, x: DayRec)
    ensures Recs(archive + [x]) == Recs(archive) + [x.rec] && |Recs(archive)| == |archive|
  {
  }

  /** The records of the window lie in yesterday's and today's files. */
  predicate WithinTwoDays(archive: seq<DayRec>, window: nat, today: int)
    requires window <= |archive|
  {
    forall i :: |archive| - window <= i < |archive| ==> archive[i].day >= today - 1
  }

  lemma LastOfSuffix(all: seq<Rec>, j: nat, k: nat, window: nat)
    requires j <= k <= |all|
    ensures |Last(all[j..], window)| <= |all|
    ensures Last(all[k..], window) == Last(all[j..], window) <==> k <= |all| - |Last(all[j..], window)|
  {
  }

  /** Restart equivalence: a hub that starts on the transcript has the same recent window as
      the hub that wrote it exactly when the window's records are in the two files it reads. */
  lemma RestartKeepsWindow(e: Env, epoch: int, s: State, clock: Clock)
    requires e.cfg.Valid() && Records(e, epoch, s) && s.clock.day <= clock.day && epoch <= clock.day - 1
    ensures |s.recent| <= |s.archive|
    ensures Boot(e.cfg, s.archive, clock).recent == s.recent <==> WithinTwoDays(s.archive, |s.recent|, clock.day)
  {
    hide AllHonest, QuorumTold, LastSaysReal, RecentRises, Since, Last, Dated, RecentMsgs;
    assert Dated(s.archive, clock.day) by { DatedLater(s.archive, s.clock.day, clock.day); }
    TwoFiles(s.archive, clock.day);
    var j := SinceIsSuffix(s.archive, epoch, clock.day);
    var k := SinceIsSuffix(s.archive, clock.day - 1, clock.day);
    StartsLater(s.archive, epoch, j, clock.day - 1, k);
    LastOfSuffix(Recs(s.archive), j, k, e.cfg.recentWindow);
    WithinMeans(s.archive, |s.recent|, clock.day, k);
  }

  /** The recent window is the end of the whole transcript exactly when that end does not reach
      back beyond the day before the hub started. */
  lemma WindowIsTranscriptEnd(e: Env, epoch: int, s: State)
    requires e.cfg.Valid() && WindowKept(e.cfg, epoch, s.recent, s.archive, s.msgCounter, s.clock.day)
    ensures var k := if |s.archive| <= e.cfg.recentWindow then |s.archive| else e.cfg.recentWindow;
            s.recent == Last(Recs(s.archive), e.cfg.recentWindow)
            <==> forall i :: |s.archive| - k <= i < |s.archive| ==> s.archive[i].day >= epoch
  {
    hide RecentRises, Since, Last, Dated, Recs;
    var k := if |s.archive| <= e.cfg.recentWindow then |s.archive| else e.cfg.recentWindow;
    var j := SinceIsSuffix(s.archive, epoch, s.clock.day);
    RecsLength(s.archive);
    var all := Recs(s.archive);
    assert all[0..] == all;
    LastOfSuffix(all, 0, j, e.cfg.recentWindow);
    LastSize(all, e.cfg.recentWindow);
    if j > |all| - k {
      assert s.archive[|all| - k].day < epoch;
    }
  }

  lemma LastSize(xs: seq<Rec>, k: nat)
    ensures |Last(xs, k)| == if |xs| <= k then |xs| else k
  {
  }

  lemma StartsLater(archive: seq<DayRec>, early: int, j: nat, late: int, k: nat)
    requires j <= |archive| && k <= |archive| && early <= late
    requires forall i :: 0 <= i < |archive| ==> (archive[i].day >= early <==> j <= i)
    requires forall i :: 0 <= i < |archive| ==> (archive[i].day >= late <==> k <= i)
    ensures j <= k
  {
    if k < |archive| {
      assert archive[k].day >= late;
    }
  }

  lemma WithinMeans(archive: seq<DayRec>, window: nat, today: int, k: nat)
    requires window <= |archive| && k <= |archive|
    requires forall i :: 0 <= i < |archive| ==> (archive[i].day >= today - 1 <==> k <= i)
    ensures WithinTwoDays(archive, window, today) <==> k <= |archive| - window
  {
    if window > 0 && WithinTwoDays(archive, window, today) {
      assert archive[|archive| - window].day >= today - 1;
    }
  }

  lemma DatedLater(archive: seq<DayRec>, today: int, later: int)
    requires Dated(archive, today) && today <= later
    ensures Dated(archive, later)
  {
  }

  // ------------------------------------------------------------------ ids after a restart

  lemma {:induction false} MaxOfRising(recs: seq<Rec>, hi: nat)
    requires RecentRises(recs, hi)
    ensures MaxId(recs) == if recs == [] then 0 else recs[|recs| - 1].id
    ensures RecentRises(recs, MaxId(recs))
  {
    if recs != [] {
      MaxOfRising(recs[..|recs| - 1], hi);
    }
  }

  lemma RisingSuffix(all: seq<Rec>, j: nat, k: nat, hi: nat)
    requires j <= k <= |all| && RecentRises(all[j..], hi)
    ensures RecentRises(all[k..], hi)
  {
    assert forall i :: 0 <= i < |all[k..]| ==> all[k..][i] == all[j..][i + k - j];
  }

  lemma RecsLength(archive: seq<DayRec>)
    ensures |Recs(archive)| == |archive|
  {
  }

  // ------------------------------------------------------------------ the first joiner

  /** What a fresh agent joiner finds in its mailbox. */
  lemma JoinerBox(e: Env, s: State, c: ConnId, n: Name, kind: string, caps: set<string>)
    requires n !in s.regs && kind != OBSERVER
    ensures var t := Welcomed(e, s, c, n, kind, caps);
            n in t.regs && t.regs[n].box == OverhearAll(e.cfg, EMPTY_BOX, Backlog(e.cfg, s.recent, n, false))
  {
    hide Emit, OverhearAll, Backlog, EMPTY_BOX, Deliver;
    var s0 := Entering(e, s, c, n, kind, caps);
    var s1 := Answer(e, s0, c, Welcome);
    assert s1.regs == s0.regs && s1.recent == s.recent && n in s0.regs && !s0.regs[n].IsObserver()
           && s0.regs[n].box == EMPTY_BOX;
    EmitFrame(e, GiveBacklog(e, s1, n).Touch(), PeerJoined(n, kind), Some(n));
  }

  /** A restart hides nothing: whoever joins afresh is given the same backlog by the
      restarted hub as by the running one. */
  lemma RestartKeepsBacklog(e: Env, epoch: int, s: State, clock: Clock, c: ConnId, n: Name, kind: string,
      caps: set<string>)
    requires e.cfg.Valid() && Records(e, epoch, s) && s.clock.day <= clock.day && epoch <= clock.day - 1
    requires |s.recent| <= |s.archive| && WithinTwoDays(s.archive, |s.recent|, clock.day) && n !in s.regs
    ensures var b := Boot(e.cfg, s.archive, clock);
            && Backlog(e.cfg, b.recent, n, kind == OBSERVER) == Backlog(e.cfg, s.recent, n, kind == OBSERVER)
            && (kind != OBSERVER ==>
                  var t, u := Welcomed(e, s, c, n, kind, caps), Welcomed(e, b, c, n, kind, caps);
                  n in t.regs && n in u.regs && u.regs[n].box == t.regs[n].box)
  {
    hide Records, Backlog, Welcomed, OverhearAll, EMPTY_BOX, RecentMsgs;
    RestartKeepsWindow(e, epoch, s, clock);
    if kind != OBSERVER {
      JoinerBox(e, s, c, n, kind, caps);
      JoinerBox(e, Boot(e.cfg, s.archive, clock), c, n, kind, caps);
    }
  }

  // ------------------------------------------------------------------ a good start

  /** The files a hub may start on: dated in order, the last two days numbered in order. */
  ghost predicate Startable(archive: seq<DayRec>, clock: Clock) {
    clock.mono >= 0.0 && Dated(archive, clock.day)
      && RecentRises(Since(archive, clock.day - 1), MaxId(Since(archive, clock.day - 1)))
  }

  lemma RisingLast(cfg: Config, xs: seq<Rec>, hi: nat)
    requires RecentRises(xs, hi)
    ensures RecentRises(Last(xs, cfg.recentWindow), hi)
  {
  }

  /** A hub that starts satisfies everything its steps then keep. */
  lemma BootGood(e: Env, archive: seq<DayRec>, clock: Clock)
    requires e.cfg.Valid() && Startable(archive, clock)
    ensures var s := Boot(e.cfg, archive, clock);
            Sound(e, s) && Floor(s) && Records(e, clock.day - 1, s)
  {
    hide Since, Dated, Last;
    var hi := MaxId(Since(archive, clock.day - 1));
    TwoFiles(archive, clock.day);
    var recent := RecentMsgs(archive, clock.day);
    hide RecentMsgs;
    MaxOfRising(recent, hi);
    RisingLast(e.cfg, recent, MaxId(recent));
    assert Trace([]) == [];
  }

  /** What a sound hub has written can be started on at any later time. */
  lemma RestartStarts(e: Env, epoch: int, s: State, clock: Clock)
    requires Records(e, epoch, s) && s.clock.day <= clock.day && epoch <= clock.day - 1 && clock.mono >= 0.0
    ensures Startable(s.archive, clock)
  {
    hide AllHonest, QuorumTold, LastSaysReal, Since, Dated, RecentRises, MaxId, Recs;
    DatedLater(s.archive, s.clock.day, clock.day);
    var j := SinceIsSuffix(s.archive, epoch, clock.day);
    var k := SinceIsSuffix(s.archive, clock.day - 1, clock.day);
    StartsLater(s.archive, epoch, j, clock.day - 1, k);
    RecsLength(s.archive);
    RisingSuffix(Recs(s.archive), j, k, s.msgCounter);
    MaxOfRising(Since(s.archive, clock.day - 1), s.msgCounter);
  }
}
