/** The hub as the object it is: participants and counters updated in place
    (src/moot/core/hub.py). Every method leaves the state that the transition function of
    the same name computes from the state before, so the laws hold of the object. */
module Hub {
  import opened Types
  import opened Mailbox
  import opened HubState
  import opened Participants
  import opened Transcripts
  import S = HubSpec
  import opened HubFrames
  import Bucket
  import Dedup
  import Names
  import Laws = HubTheorems

  class Hub {
    const env: Env
    var participants: map<Name, Participant>
    var order: seq<Name>               // the insertion order of `participants`
    var dead: map<Name, Participant>
    var gone: set<ConnId>
    var names: map<ConnId, Name>
    var clock: Clock
    var sent: nat
    var round: nat
    var frozen: bool
    var muted: bool
    var goal: string
    var maxRounds: nat
    var lastActivity: real
    var stallLatched: bool
    var lastObserverSay: Option<real>
    var quorumExpected: set<Name>
    var quorumLatched: bool
    var blockedNotified: set<Name>
    var msgCounter: nat
    var recent: seq<Rec>
    var archive: seq<DayRec>
    ghost var log: seq<Note>           // what was sent and recorded, as the laws tell it

    ghost var objects: set<object>     // the participants and what they are made of

    ghost function All(): map<Name, Participant>
      reads this`participants, this`dead
    {
      participants + dead
    }

    ghost predicate Valid()
      reads this`participants, this`dead, this`order, this`objects
    {
      && env.cfg.Valid()
      && participants.Keys !! dead.Keys
      && (forall n :: n in order <==> n in participants)
      && (forall i, j :: 0 <= i < j < |order| ==> order[i] != order[j])
      && (forall n :: n in All() ==> All()[n].name == n && All()[n].Fits(env.cfg) && All()[n].Repr() <= objects)
      && (forall n, m :: n in All() && m in All() && n != m ==> All()[n].Repr() !! All()[m].Repr())
      && this !in objects
    }

    ghost function Regs(): map<Name, Part>
      requires Valid()
      reads this`participants, this`dead, this`order, this`objects, objects
    {
      map n | n in All() :: All()[n].View()
    }

    ghost function View(): State
      requires Valid()
      reads this, objects
    {
      State(Regs(), order, gone, names, clock, sent, round, frozen, muted, goal, maxRounds, lastActivity, stallLatched,
            lastObserverSay, quorumExpected, quorumLatched, blockedNotified, msgCounter, recent, archive, log)
    }

    /** The same participants, in the same places. */
    twostate predicate SameSeats()
      reads this
    {
      participants == old(participants) && order == old(order) && dead == old(dead) && objects == old(objects)
    }

    twostate lemma OthersKept(p: Participant)
      requires old(Valid()) && Valid() && SameSeats() && p.name in All() && All()[p.name] == p
      requires forall o :: o in objects && o !in p.Repr() ==> unchanged(o)
      ensures Regs() == old(Regs())[p.name := p.View()]
    {
      hide Participant.View, Participant.Repr, Valid;
      Separate(p);
      assert All() == old(All());
      forall n | n in All() && n != p.name
        ensures All()[n].View() == old(All()[n].View())
      {
        assert All()[n].Repr() !! p.Repr() && All()[n].Repr() <= objects;
      }
    }

    lemma Separate(p: Participant)
      requires Valid() && p.name in All() && All()[p.name] == p
      ensures forall n :: n in All() && n != p.name ==> All()[n].Repr() !! p.Repr() && All()[n].Repr() <= objects
    {
      hide Participant.Repr, Participant.Fits;
    }

    /** Only one participant was touched, and nothing of the hub. */
    twostate lemma OnlyOne(p: Participant)
      requires old(Valid()) && Valid() && unchanged(this) && p.name in All() && All()[p.name] == p
      requires forall o :: o in objects && o !in p.Repr() ==> unchanged(o)
      ensures View() == old(View()).Put(p.name, p.View())
    {
      OthersKept(p);
      hide Valid, Regs, All, Participant.View;
    }

    /** What the view shows of a live participant. */
    lemma Seat(n: Name)
      requires Valid() && n in order
      ensures n in participants && n in All() && participants[n] == All()[n] && participants[n].name == n
      ensures n in Regs() && Regs()[n] == participants[n].View()
      ensures participants[n].Repr() <= objects
    {
    }

    lemma Apart()
      requires Valid()
      ensures this !in objects
    {
    }

    lemma Fields()
      requires Valid()
      ensures var s := View();
              && s.order == order && s.gone == gone && s.clock == clock && s.round == round && s.frozen == frozen
              && s.msgCounter == msgCounter && s.recent == recent && s.names == names
              && s.blockedNotified == blockedNotified
              && s.maxRounds == maxRounds && s.muted == muted && s.goal == goal && s.lastObserverSay == lastObserverSay
              && s.quorumExpected == quorumExpected && s.quorumLatched == quorumLatched
              && s.stallLatched == stallLatched
              && s.lastActivity == lastActivity && s.archive == archive && s.log == log
      ensures View().regs == Regs()
    {
    }

    lemma Placed(p: Participant)
      requires Valid() && p.name in All() && All()[p.name] == p
      ensures View().regs == Regs()
      ensures env.cfg.Valid() && p.Repr() <= objects && p.Fits(env.cfg) && p.name in Regs()
                && Regs()[p.name] == p.View()
    {
    }

    /** A hub starts on the transcript it finds, of which it reads the last two files. */
    constructor (env: Env, archive: seq<DayRec>, yesterday: seq<Line>, today: seq<Line>, clock: Clock)
      requires env.cfg.Valid()
      requires Holds(yesterday, archive, clock.day - 1) && Holds(today, archive, clock.day)
      ensures Valid() && this.env == env && fresh(objects) && View() == S.Boot(env.cfg, archive, clock)
    {
      this.env := env;
      participants, order, dead, objects := map[], [], map[], {};
      gone, names, this.clock, sent, round := {}, map[], clock, 0, 0;
      frozen, muted, goal, maxRounds := false, false, "", env.cfg.maxRounds;
      lastActivity, stallLatched := clock.mono, false;
      lastObserverSay, quorumExpected, quorumLatched, blockedNotified := None, {}, false, {};
      var recent := RecentMsgs(yesterday, today);
      var top := LargestId(recent);
      msgCounter := top;
      this.recent := Last(recent, env.cfg.recentWindow);
      this.archive := archive;
      log := [];
    }

    // ---------------------------------------------------------------- sending

    method Send(c: ConnId)
      requires Valid()
      modifies this`gone, this`sent
      ensures View() == S.Send(env, old(View()), c)
    {
      hide Valid, Regs, All;
      Apart();
      if env.fails(sent) {
        gone := gone + {c};
      }
      sent := sent + 1;
    }

    method Note(ghost x: Note)
      requires Valid()
      modifies this`log
      ensures View() == old(View()).Noting(x)
    {
      hide Valid, Regs, All;
      Apart();
      log := log + [x];
    }

    method Answer(c: ConnId, r: Reply)
      requires Valid()
      modifies this`gone, this`sent, this`log
      ensures View() == S.Answer(env, old(View()), c, r)
    {
      hide Valid, Regs, All, S.Send;
      Apart();
      Send(c);
      log := log + [Replied(c, r)];
    }

    /** Events go to the connected observers only, then to the transcript. */
    method EmitEvent(ev: Event, skip: Option<Name>)
      requires Valid()
      modifies this`gone, this`sent, this`log
      ensures View() == S.Emit(env, old(View()), ev, skip)
    {
      hide Valid, Regs, All, View, Participant.View, S.Send;
      Apart();
      Fields();
      ghost var todo := order;
      for i := 0 to |order|
        invariant todo == order[i..]
        invariant S.EmitTo(env, View(), todo, skip) == S.EmitTo(env, old(View()), order, skip)
      {
        var n := order[i];
        Seat(n);
        Fields();
        var p := participants[n];
        Shown(p);
        todo := todo[1..];
        if p.IsObserver() && skip != Some(n) && p.client !in gone {
          Send(p.client);
        }
      }
      Note(Happened(ev));
    }

    // ---------------------------------------------------------------- delivery

    method TouchActivity()
      requires Valid()
      modifies this`lastActivity, this`stallLatched
      ensures View() == old(View()).Touch()
    {
      hide Valid, Regs, All;
      Apart();
      lastActivity := clock.mono;
      stallLatched := false;
    }

    /** One coalesced deliver frame, ordered by id. */
    method Deliver(p: Participant, batch: seq<Msg>, ghost drawn: bool, ghost cause: Cause)
      requires Valid() && p.name in All() && All()[p.name] == p
      modifies this`gone, this`sent, this`log, this`lastActivity, this`stallLatched, p
      ensures SameSeats() && Valid()
      ensures View() == S.Deliver(env, old(View()), p.name, batch, drawn, cause)
    {
      hide Valid, Regs, All, View, S.Send, SortById, Participant.View, Hand, S.Deliver;
      Apart();
      Fields();
      Placed(p);
      Shown(p);
      ghost var s := View();
      DeliverUnfolds(env, s, p.name, batch, drawn, cause);
      Send(p.client);
      Note(Delivered(p.name, !p.IsObserver(), cause, round, SortById(batch)));
      Serve(p, batch, drawn);
      if !p.IsObserver() {
        TouchActivity();
      }
    }

    method Serve(p: Participant, ghost batch: seq<Msg>, ghost drawn: bool)
      requires Valid() && p.name in All() && All()[p.name] == p
      modifies p
      ensures Valid() && View() == old(View()).Put(p.name, ServedPart(clock.mono, old(p.View()), batch, drawn))
      ensures p.IsObserver() == old(p.IsObserver())
    {
      hide Valid, Regs, All, View, SortById, Participant.View, Hand;
      Placed(p);
      Shown(p);
      p.Served(clock.mono, batch, drawn);
      OnlyOne(p);
      Shown(p);
    }

    lemma Shown(p: Participant)
      ensures var q := p.View();
              && p.name == q.name && p.kind == q.kind && p.client == q.client && p.state == q.state
              && p.queue == q.box.queue
              && p.IsObserver() == q.IsObserver() && p.BoxView() == q.box && p.finished == q.finished
              && p.caps == q.caps
    {
    }

    lemma DeliverUnfolds(e: Env, s: State, n: Name, batch: seq<Msg>, drawn: bool, cause: Cause)
      requires n in s.regs
      ensures var p := s.regs[n];
              var t := S.Send(e, s, p.client).Noting(Delivered(n, !p.IsObserver(), cause, s.round, SortById(batch)));
              var u := t.Put(n, ServedPart(s.clock.mono, p, batch, drawn));
              S.Deliver(e, s, n, batch, drawn, cause) == if p.IsObserver() then u else u.Touch()
    {
    }

    // ---------------------------------------------------------------- end of session, freeze

    /** What the hub's conditions over all participants see. */
    lemma Seats()
      requires Valid()
      ensures forall n :: n in order ==> n in participants && n in Regs() && Regs()[n] == participants[n].View()
    {
      forall n | n in order
        ensures n in participants && n in Regs() && Regs()[n] == participants[n].View()
      {
        Seat(n);
      }
    }

    method SessionIsComplete() returns (complete: bool)
      requires Valid()
      ensures complete == S.SessionComplete(View())
    {
      hide Valid, Regs, All;
      Seats();
      complete := (exists n :: n in order && !participants[n].IsObserver())
        && (forall n :: n in order && !participants[n].IsObserver() ==>
           participants[n].finished && participants[n].queue == []);
      ghost var s := View();
      assert forall n :: n in order ==> (s.IsAgent(n) <==> !participants[n].IsObserver());
    }

    /** Marks cleared on the first participants of the order. */
    ghost function Cleared(s: State, done: seq<Name>): map<Name, Part> {
      map n | n in s.regs :: if n in done && s.IsAgent(n) then s.regs[n].(finished := false) else s.regs[n]
    }

    lemma ClearOne(s: State, done: seq<Name>, n: Name, p: Part)
      requires n in s.regs && n in s.order && n !in done
      requires p == if s.regs[n].IsObserver() then s.regs[n] else s.regs[n].(finished := false)
      ensures Cleared(s, done)[n := p] == Cleared(s, done + [n])
      ensures n in Cleared(s, done) && Cleared(s, done)[n] == s.regs[n]
    {
    }

    method ClearMarks()
      requires Valid()
      modifies objects
      ensures Valid() && SameSeats() && View() == S.ClearFinished(old(View()))
    {
      hide Valid, Regs, All, View, Participant.View, Cleared;
      Fields();
      ghost var s := View();
      assert Cleared(s, []) == s.regs by { ClearNone(s); }
      for i := 0 to |order|
        invariant Valid() && SameSeats() && View() == s.(regs := Cleared(s, order[..i]))
      {
        var n := order[i];
        Unique(i);
        Seat(n);
        Fields();
        var p := participants[n];
        ClearedKeys(s, order[..i]);
        ClearOne(s, order[..i], n, if s.regs[n].IsObserver() then s.regs[n] else s.regs[n].(finished := false));
        assert order[..i + 1] == order[..i] + [n];
        Shown(p);
        Fields();
        if !p.IsObserver() {
          MarkOf(p, false);
        } else {
          PutSame(Regs(), n);
        }
      }
      assert order[..|order|] == order;
      ClearAll(s);
    }

    method MarkOf(p: Participant, done: bool)
      requires Valid() && p.name in All() && All()[p.name] == p
      modifies p
      ensures Valid() && View() == old(View()).Put(p.name, old(p.View()).(finished := done))
    {
      hide Valid, Regs, All, View, Participant.View;
      Placed(p);
      p.Mark(done);
      OnlyOne(p);
    }

    lemma PutSame(regs: map<Name, Part>, n: Name)
      requires n in regs
      ensures regs[n := regs[n]] == regs
    {
    }

    lemma ClearedKeys(s: State, done: seq<Name>)
      ensures Cleared(s, done).Keys == s.regs.Keys
    {
    }

    lemma ClearNone(s: State)
      ensures Cleared(s, []) == s.regs
    {
    }

    lemma ClearAll(s: State)
      ensures s.(regs := Cleared(s, s.order)) == S.ClearFinished(s)
    {
    }

    lemma Unique(i: nat)
      requires Valid() && i < |order|
      ensures order[i] !in order[..i] && order[i] in order
    {
    }

    method CheckSessionDone()
      requires Valid()
      modifies this`gone, this`sent, this`log, this`round, objects
      ensures Valid() && SameSeats() && View() == S.CheckSessionDone(env, old(View()))
    {
      hide Valid, Regs, All, S.SessionComplete, S.Emit, S.ClearFinished;
      Apart();
      var complete := SessionIsComplete();
      if complete {
        EmitEvent(SessionDone(round), None);
        round := 0;
        ClearMarks();
      }
    }

    /** Somebody is there to thaw a frozen floor. */
    method Attended() returns (b: bool)
      requires Valid()
      ensures b == S.Attended(View())
    {
      hide Valid, Regs, All;
      Seats();
      b := exists n :: n in order && participants[n].IsObserver();
      ghost var s := View();
      assert forall n :: n in order ==> (s.IsObserverName(n) <==> participants[n].IsObserver());
    }

    method Freeze()
      requires Valid()
      modifies this`frozen
      ensures View() == old(View()).(frozen := true)
    {
      hide Valid, Regs, All;
      Apart();
      frozen := true;
    }

    method CheckRoundLimit()
      requires Valid()
      modifies this`gone, this`sent, this`log, this`frozen
      ensures Valid() && SameSeats() && View() == S.CheckRoundLimit(env, old(View()))
    {
      hide Valid, Regs, All, View, S.Emit, S.Attended;
      Fields();
      if round >= maxRounds && !frozen {
        Freeze();
        EmitEvent(RoundLimit(round), None);
        var attended := Attended();
        if !attended {
          Note(Happened(FreezeWithoutObserver));
        }
      }
    }

    // ---------------------------------------------------------------- flush, system notes

    predicate Connected(p: Participant)
      reads this`gone, p`client
    {
      p.client !in gone
    }

    method CountRound()
      requires Valid()
      modifies this`round
      ensures View() == old(View()).(round := old(View()).round + 1)
    {
      hide Valid, Regs, All;
      Apart();
      round := round + 1;
    }

    method SliceFor(p: Participant) returns (batch: seq<Msg>, wake: seq<Msg>)
      requires Valid() && p.name in All() && All()[p.name] == p && p.queue != []
      modifies p.Repr()
      ensures Valid()
      ensures var q := old(p.View());
              && View() == old(View()).Put(p.name, q.(box := AfterSlice(env.cfg, p.name, q.box)))
              && batch == SliceBatch(env.cfg, p.name, q.box) && wake == WakeSlice(env.cfg, p.name, q.box)
    {
      hide Valid, Regs, All, View, AfterSlice, SliceBatch, WakeSlice, Participant.View;
      Placed(p);
      Apart();
      Shown(p);
      batch, wake := p.TakeSlice(env.cfg);
      OnlyOne(p);
    }

    /** Idle transition with a pending queue: one coalesced wake delivery. */
    method FlushQueue(p: Participant)
      requires Valid() && p.name in All() && All()[p.name] == p
      modifies this`gone, this`sent, this`log, this`lastActivity, this`stallLatched, this`round, this`frozen, objects
      ensures Valid() && SameSeats() && View() == S.FlushQueue(env, old(View()), p.name)
    {
      hide Valid, Regs, All, View, Participant.View, S.Deliver;
      hide S.CheckRoundLimit, S.CheckSessionDone, WakeSlice, SliceBatch, AfterSlice, S.Counts;
      Fields();
      Placed(p);
      Shown(p);
      if p.queue == [] || p.client in gone {
        return;
      }
      var batch, wake := SliceFor(p);
      if S.Counts(wake) {
        CountRound();
        Deliver(p, batch, true, ByFlush);
        CheckRoundLimit();
      } else {
        Deliver(p, batch, true, ByFlush);
      }
      CheckSessionDone();
    }

    // ---------------------------------------------------------------- one recipient

    method NextId() returns (id: nat)
      requires Valid()
      modifies this`msgCounter
      ensures id == old(View()).msgCounter + 1 && View() == old(View()).(msgCounter := id)
    {
      hide Valid, Regs, All;
      Apart();
      msgCounter := msgCounter + 1;
      id := msgCounter;
    }

    method QueueFor(p: Participant, m: Msg)
      requires Valid() && p.name in All() && All()[p.name] == p
      modifies p
      ensures Valid() && View() == old(View()).Put(p.name, S.Queued(env, old(p.View()), m))
    {
      hide Valid, Regs, All, View, Participant.View, Enqueue;
      Placed(p);
      Shown(p);
      p.EnqueueWake(env.cfg, m);
      OnlyOne(p);
    }

    method OverhearFor(p: Participant, m: Msg)
      requires Valid() && p.name in All() && All()[p.name] == p
      modifies p.Repr()
      ensures Valid() && View() == old(View()).Put(p.name, S.Buffered(env, old(p.View()), m))
      ensures p.IsObserver() == old(p.IsObserver())
    {
      hide Valid, Regs, All, View, Participant.View, Overhear;
      Placed(p);
      Apart();
      Shown(p);
      p.OverhearLine(env.cfg, m);
      OnlyOne(p);
      Shown(p);
    }

    method WakeFor(p: Participant, m: Msg) returns (batch: seq<Msg>)
      requires Valid() && p.name in All() && All()[p.name] == p
      modifies p.Repr()
      ensures Valid() && View() == old(View()).Put(p.name, S.Woken(old(p.View()), m))
      ensures batch == WakeBatch(old(p.View()).box, m)
    {
      hide Valid, Regs, All, View, Participant.View, AfterWake, WakeBatch;
      Placed(p);
      Apart();
      Shown(p);
      batch := p.WakeWith(m);
      OnlyOne(p);
    }

    // ---------------------------------------------------------------- system messages

    method NoteTo(p: Participant, text: Text)
      requires Valid() && p.name in All() && All()[p.name] == p
      modifies this`gone, this`sent, this`log, this`lastActivity, this`stallLatched, this`msgCounter, objects
      ensures Valid() && SameSeats() && View() == S.SystemOne(env, old(View()), p.name, text)
    {
      hide Valid, Regs, All, View, Participant.View, S.Deliver, S.Woken, S.Queued, WakeBatch;
      Fields();
      Placed(p);
      Shown(p);
      if p.IsObserver() {
        return;
      }
      var id := NextId();
      var m := Msg(id, SYSTEM_SENDER, p.name, "note", text, clock.wall, Direct, None, false);
      if p.state == Idle && p.client !in gone {
        var batch := WakeFor(p, m);
        Deliver(p, batch, true, ByNote(m.id));
      } else {
        QueueFor(p, m);
      }
    }

    method SystemMessage(text: Text)
      requires Valid()
      modifies this`gone, this`sent, this`log, this`lastActivity, this`stallLatched, this`msgCounter, objects
      ensures Valid() && SameSeats() && View() == S.SystemMessage(env, old(View()), old(order), text)
    {
      hide Valid, Regs, All, View, S.SystemOne;
      ghost var todo := order;
      for i := 0 to |order|
        invariant Valid() && SameSeats() && todo == order[i..]
        invariant S.SystemMessage(env, View(), todo, text) == S.SystemMessage(env, old(View()), order, text)
      {
        Seat(order[i]);
        Fields();
        todo := todo[1..];
        NoteTo(participants[order[i]], text);
      }
    }

    // ---------------------------------------------------------------- lifecycle

    /** Registrations stay what they are when only their places change. */
    twostate lemma Moved()
      requires old(Valid()) && Valid() && All() == old(All()) && objects == old(objects)
      requires forall o :: o in objects ==> unchanged(o)
      ensures Regs() == old(Regs())
    {
      hide Participant.View, Participant.Repr;
    }

    lemma BuryKeeps(was: map<Name, Participant>, p: Participant)
      requires p.name in was && was[p.name] == p && was.Keys !! dead.Keys
      ensures (was - {p.name}) + dead[p.name := p] == was + dead
      ensures (was - {p.name}).Keys !! dead[p.name := p].Keys
      ensures forall n :: n in was - {p.name} <==> n in was && n != p.name
    {
    }

    /** The registration survives as dead: a reclaim keeps queue and context. */
    method Bury(p: Participant)
      requires Valid() && p.name in participants && participants[p.name] == p
      modifies this`participants, this`dead, this`order
      ensures Valid() && All() == old(All()) && objects == old(objects)
      ensures Regs() == old(Regs()) && order == Without(old(order), p.name)
    {
      hide Participant.View, Participant.Fits, Participant.Repr, Regs;
      Apart();
      WithoutFacts(order, p.name);
      BuryKeeps(participants, p);
      dead := dead[p.name := p];
      participants := participants - {p.name};
      order := Without(order, p.name);
      assert All() == old(All());
      assert participants.Keys !! dead.Keys;
      assert forall n :: n in order <==> n in participants;
      assert (forall i, j :: 0 <= i < j < |order| ==> order[i] != order[j]);
      assert Valid();
      Moved();
    }

    /** The bookkeeping of a departure. */
    method Depart(p: Participant)
      requires Valid() && p.name in participants && participants[p.name] == p
      modifies this`participants, this`dead, this`order, this`blockedNotified, this`lastActivity, this`stallLatched
      ensures Valid() && All() == old(All()) && objects == old(objects)
      ensures var s := old(View());
              View() == s.(order := Without(s.order, p.name), blockedNotified := s.blockedNotified - {p.name}).Touch()
    {
      hide Valid, Regs, All, Without;
      Apart();
      Bury(p);
      blockedNotified := blockedNotified - {p.name};
      lastActivity := clock.mono;
      stallLatched := false;
    }

    method MarkGone(c: ConnId)
      requires Valid()
      modifies this`gone
      ensures View() == old(View()).(gone := old(View()).gone + {c})
    {
      hide Valid, Regs, All;
      Apart();
      gone := gone + {c};
    }

    method Disconnect(c: ConnId)
      requires Valid()
      modifies this`participants, this`dead, this`order, this`blockedNotified, this`gone, this`sent, this`log,
               this`lastActivity, this`stallLatched, this`round, objects
      ensures Valid() && All() == old(All()) && objects == old(objects) && View() == S.Disconnect(env, old(View()), c)
    {
      hide Valid, Regs, All, View, S.Emit, S.CheckSessionDone, Without, S.Holds;
      Living(c);
      Fields();
      if c in names && names[c] in participants && participants[names[c]].client == c {
        var p := participants[names[c]];
        Seat(p.name);
        Depart(p);
        EmitEvent(PeerLeft(p.name), None);
        CheckSessionDone();
      }
      MarkGone(c);
    }

    lemma Living(c: ConnId)
      requires Valid()
      ensures S.Holds(View(), c) <==> c in names && names[c] in participants && participants[names[c]].client == c
      ensures c in names && names[c] in participants ==>
                participants[names[c]].name == names[c] && names[c] in order
    {
      if c in names && names[c] in participants {
        Seat(names[c]);
      }
    }

    // ---------------------------------------------------------------- hello

    lemma UnburyKeeps(was: map<Name, Participant>, p: Participant)
      requires p.name in was && was[p.name] == p && was.Keys !! participants.Keys
      ensures participants[p.name := p] + (was - {p.name}) == participants + was
      ensures participants[p.name := p].Keys !! (was - {p.name}).Keys
    {
    }

    /** A dead registration comes back to the floor. */
    method Unbury(p: Participant)
      requires Valid() && p.name in dead && dead[p.name] == p
      modifies this`participants, this`dead, this`order
      ensures Valid() && All() == old(All()) && objects == old(objects)
      ensures p.name in participants && participants[p.name] == p
      ensures View() == old(View()).(order := old(View()).order + [p.name])
    {
      hide Valid, Regs, All;
      Apart();
      Dig(p);
    }

    method Dig(p: Participant)
      requires Valid() && p.name in dead && dead[p.name] == p
      modifies this`participants, this`dead, this`order
      ensures Valid() && All() == old(All()) && objects == old(objects)
      ensures p.name in participants && participants[p.name] == p
      ensures Regs() == old(Regs()) && order == old(order) + [p.name]
    {
      hide Participant.View, Participant.Fits, Participant.Repr, Regs;
      Apart();
      UnburyKeeps(dead, p);
      dead := dead - {p.name};
      participants := participants[p.name := p];
      order := order + [p.name];
      assert All() == old(All());
      assert participants.Keys !! dead.Keys;
      assert Valid();
      Moved();
    }

    /** A newcomer takes its seat. */
    method SeatNew(p: Participant)
      requires Valid() && p.name !in All() && p.Fits(env.cfg) && p.Repr() !! objects && this !in p.Repr()
      modifies this`participants, this`order, this`objects
      ensures Valid() && objects == old(objects) + p.Repr() && All() == old(All())[p.name := p]
      ensures p.name in participants && participants[p.name] == p
      ensures View() == old(View()).(order := old(View()).order + [p.name]).Put(p.name, p.View())
    {
      hide Participant.View, Participant.Fits, Regs;
      Apart();
      participants := participants[p.name := p];
      order := order + [p.name];
      objects := objects + p.Repr();
      assert All() == old(All())[p.name := p];
      Joined(p);
      JoinedRegs(p);
    }

    twostate lemma Joined(p: Participant)
      requires old(Valid()) && p.name !in old(All()) && All() == old(All())[p.name := p]
      requires p.Fits(env.cfg) && p.Repr() !! old(objects) && objects == old(objects) + p.Repr() && this !in objects
      requires participants == old(participants)[p.name := p] && dead == old(dead) && order == old(order) + [p.name]
      ensures Valid()
    {
      hide Participant.View, Participant.Fits, Participant.Repr;
      JoinedFits(p);
      JoinedApart(p);
    }

    twostate lemma JoinedFits(p: Participant)
      requires old(Valid()) && p.name !in old(All()) && All() == old(All())[p.name := p] && p.Fits(env.cfg)
      requires objects == old(objects) + p.Repr()
      ensures forall n :: n in All() ==> All()[n].name == n && All()[n].Fits(env.cfg) && All()[n].Repr() <= objects
    {
      hide Participant.View, Participant.Fits, Participant.Repr;
    }

    twostate lemma JoinedApart(p: Participant)
      requires old(Valid()) && p.name !in old(All()) && All() == old(All())[p.name := p] && p.Repr() !! old(objects)
      ensures forall n, m :: n in All() && m in All() && n != m ==> All()[n].Repr() !! All()[m].Repr()
    {
      hide Participant.View, Participant.Fits, Participant.Repr;
      forall n, m | n in All() && m in All() && n != m
        ensures All()[n].Repr() !! All()[m].Repr()
      {
        assert n != p.name ==> All()[n].Repr() <= old(objects);
        assert m != p.name ==> All()[m].Repr() <= old(objects);
      }
    }

    twostate lemma JoinedRegs(p: Participant)
      requires old(Valid()) && Valid() && p.name !in old(All()) && All() == old(All())[p.name := p]
      requires forall o :: o in old(objects) ==> unchanged(o)
      ensures Regs() == old(Regs())[p.name := p.View()]
    {
      hide Participant.View;
    }

    method ReclaimFor(p: Participant, kind: string, caps: set<string>, c: ConnId)
      requires Valid() && p.name in All() && All()[p.name] == p
      modifies p
      ensures Valid() && View() == old(View()).Put(p.name, S.Reclaimed(old(View()), old(p.View()), kind, caps, c))
    {
      hide Valid, Regs, All, View, Participant.View;
      Placed(p);
      Fields();
      p.Reclaim(kind, caps, c, clock.mono);
      OnlyOne(p);
    }

    method BookName(c: ConnId, n: Name, notified: set<Name>)
      requires Valid()
      modifies this`names, this`blockedNotified
      ensures View() == old(View()).(names := old(View()).names[c := n], blockedNotified := notified)
    {
      hide Valid, Regs, All;
      Apart();
      names := names[c := n];
      blockedNotified := notified;
    }

    method Rejoin(p: Participant, c: ConnId, kind: string, caps: set<string>)
      requires Valid() && p.name in dead && dead[p.name] == p
      modifies this`participants, this`dead, this`order, this`names, this`blockedNotified, p
      ensures Valid() && objects == old(objects) && p.name in participants && participants[p.name] == p
      ensures View() == S.Entering(env, old(View()), c, p.name, kind, caps)
    {
      hide Valid, Regs, All, View, Participant.View;
      Fields();
      Known(p.name);
      Placed(p);
      Unbury(p);
      ReclaimFor(p, kind, caps, c);
      BookName(c, p.name, blockedNotified - {p.name});
    }

    method Join(c: ConnId, n: Name, kind: string, caps: set<string>) returns (p: Participant)
      requires Valid() && n !in All()
      modifies this`participants, this`order, this`objects, this`names, this`blockedNotified
      ensures Valid() && fresh(objects - old(objects)) && n in participants && participants[n] == p && p.name == n
      ensures View() == S.Entering(env, old(View()), c, n, kind, caps)
    {
      hide Valid, Regs, All, View, Participant.View;
      Fields();
      Known(n);
      ghost var s := View();
      p := new Participant(env.cfg, n, kind, caps, c, clock.mono, |AgentLog(log)|);
      assert p.View() == S.FreshPart(env, s, n, kind, caps, c);
      SeatNew(p);
      BookName(c, n, blockedNotified);
    }

    /** Whether a name is known, live or dead. */
    lemma Known(n: Name)
      requires Valid()
      ensures env.cfg.Valid() && this !in objects
      ensures n in View().regs <==> n in participants || n in dead
      ensures n in All() <==> n in participants || n in dead
      ensures n in dead ==> n !in participants && dead[n].name == n && All()[n] == dead[n]
      ensures View().Live(n) <==> n in participants
      ensures n in participants ==> participants[n].name == n && All()[n] == participants[n]
    {
      hide Participant.View;
    }

    /** Late join: the backlog goes into an agent's context, and to an observer at once. */
    method GiveBacklog(p: Participant)
      requires Valid() && p.name in All() && All()[p.name] == p
      modifies this`gone, this`sent, this`log, this`lastActivity, this`stallLatched, objects
      ensures Valid() && SameSeats() && View() == S.GiveBacklog(env, old(View()), p.name)
    {
      hide Valid, Regs, All, View, Participant.View, S.Deliver, S.Backlog, S.Tagged, S.OverhearAll, Overhear;
      Fields();
      Placed(p);
      Shown(p);
      var backlog := S.Backlog(env.cfg, recent, p.name, p.IsObserver());
      if p.IsObserver() {
        if backlog != [] {
          Deliver(p, S.Tagged(backlog, p.name), false, ByBacklog);
        }
      } else {
        OverhearEach(p, backlog);
      }
    }

    method OverhearEach(p: Participant, msgs: seq<Msg>)
      requires Valid() && p.name in All() && All()[p.name] == p
      modifies p.Repr()
      ensures Valid() && View() == old(View()).Put(p.name,
                old(p.View()).(box := S.OverhearAll(env.cfg, old(p.View()).box, msgs)))
    {
      hide Valid, Regs, All, View, Participant.View, Overhear;
      Placed(p);
      ghost var s, q := View(), p.View();
      ghost var todo := msgs;
      PutTwice(s, p.name, q, q);
      for i := 0 to |msgs|
        invariant Valid() && todo == msgs[i..] && View() == s.Put(p.name, p.View())
        invariant p.View() == q.(box := p.View().box)
        invariant S.OverhearAll(env.cfg, p.View().box, todo) == S.OverhearAll(env.cfg, q.box, msgs)
      {
        ghost var r := p.View();
        todo := todo[1..];
        OverhearFor(p, msgs[i].Tag(Overheard));
        Placed(p);
        PutTwice(s, p.name, r, p.View());
      }
    }

    lemma PutTwice(s: State, n: Name, p: Part, q: Part)
      ensures s.Put(n, p).Put(n, q) == s.Put(n, q) && s.Put(n, q).regs[n] == q
      ensures n in s.regs ==> s.Put(n, s.regs[n]) == s
    {
      assert s.regs[n := p][n := q] == s.regs[n := q];
    }

    method Refuse(c: ConnId, r: Reply)
      requires Valid()
      modifies this`gone, this`sent, this`log
      ensures View() == S.Answer(env, old(View()), c, r).(gone := S.Answer(env, old(View()), c, r).gone + {c})
    {
      hide Valid, Regs, All, View, S.Answer;
      Answer(c, r);
      MarkGone(c);
    }

    method WelcomeIn(p: Participant, c: ConnId, kind: string, rejoined: bool)
      requires Valid() && p.name in All() && All()[p.name] == p
      modifies this`gone, this`sent, this`log, this`lastActivity, this`stallLatched, objects
      ensures Valid() && SameSeats() && p.name in S.Answer(env, old(View()), c, Welcome).regs
      ensures var s1, n := S.Answer(env, old(View()), c, Welcome), p.name;
              var s2 := if !rejoined || s1.regs[n].IsObserver() then S.GiveBacklog(env, s1, n) else s1;
              View() == S.Emit(env, s2.Touch(), PeerJoined(n, kind), Some(n))
    {
      hide Valid, Regs, All, View, Participant.View, S.GiveBacklog, S.Emit, S.Answer;
      Answer(c, Welcome);
      Placed(p);
      Shown(p);
      if !rejoined || p.IsObserver() {
        GiveBacklog(p);
      }
      TouchActivity();
      EmitEvent(PeerJoined(p.name, kind), Some(p.name));
    }

    /** The permitted part of a hello: seat, welcome, backlog, announcement, waiting wakes. */
    method Admit(c: ConnId, n: Name, kind: string, caps: set<string>)
      requires Valid() && n !in participants
      modifies this`participants, this`dead, this`order, this`objects, this`names, this`blockedNotified, this`gone,
        this`sent,
               this`log, this`lastActivity, this`stallLatched, this`round, this`frozen, objects
      ensures Valid() && fresh(objects - old(objects)) && View() == S.Admit(env, old(View()), c, n, kind, caps)
    {
      hide Valid, Regs, All, View, Participant.View, S.Entering, S.GiveBacklog, S.FlushQueue, S.Emit, S.Answer;
      Fields();
      Known(n);
      ghost var s := View();
      var rejoined := n in dead;
      var p;
      if rejoined {
        p := dead[n];
        Placed(p);
        Rejoin(p, c, kind, caps);
      } else {
        p := Join(c, n, kind, caps);
      }
      Known(n);
      WelcomeIn(p, c, kind, rejoined);
      Known(n);
      if rejoined && p.queue != [] {
        FlushQueue(p);
      } else if rejoined {
        Placed(p);
        Shown(p);
        FlushNothing(env, View(), n);
      }
    }

    lemma FlushNothing(e: Env, s: State, n: Name)
      requires n in s.regs && s.regs[n].box.queue == []
      ensures S.FlushQueue(e, s, n) == s
    {
    }

    /** A holder whose transport is gone already is reaped now, so that this hello reclaims
        instead of being told that the name is taken. */
    method ReapHolder(n: Name)
      requires Valid()
      modifies this`participants, this`dead, this`order, this`blockedNotified, this`gone, this`sent,
               this`log, this`lastActivity, this`stallLatched, this`round, objects
      ensures Valid() && objects == old(objects)
      ensures var s := old(View());
              View() == if s.Live(n) && !s.Connected(n) then S.Disconnect(env, s, s.regs[n].client) else s
    {
      hide Valid, Regs, All, View, Participant.View, S.Disconnect;
      Fields();
      Known(n);
      if n in participants {
        Placed(participants[n]);
        Shown(participants[n]);
        if participants[n].client in gone {
          Disconnect(participants[n].client);
        }
      }
    }

    method RefuseName(c: ConnId, n: Name)
      requires Valid()
      modifies this`gone, this`sent, this`log
      ensures var s := old(View());
              var t := S.Answer(env, s, c, Err(NameTaken, None, None, S.Suggestion(n, s.regs.Keys)));
              View() == t.(gone := t.gone + {c})
    {
      hide Valid, Regs, All, View, S.Answer, S.Suggestion, Names.FirstFree, Names.Candidate;
      KnownNames();
      var candidate, k := Names.SuggestName(n, participants.Keys + dead.Keys);
      SuggestionIsFirst(n, participants.Keys + dead.Keys, k);
      Refuse(c, Err(NameTaken, None, None, candidate));
    }

    method HandleHello(c: ConnId, n: Name, kind: string, caps: set<string>)
      requires Valid()
      modifies this`participants, this`dead, this`order, this`objects, this`names, this`blockedNotified, this`gone,
        this`sent,
               this`log, this`lastActivity, this`stallLatched, this`round, this`frozen, objects
      ensures Valid() && fresh(objects - old(objects)) && View() == S.HandleHello(env, old(View()), c, n, kind, caps)
    {
      hide Valid, Regs, All, View, Participant.View, S.Disconnect, S.Admit, S.Answer, S.Suggestion;
      Fields();
      if c in names {
        Answer(c, Err(Malformed, None, None, ""));
        return;
      }
      ReapHolder(n);
      Known(n);
      if n in participants {
        RefuseName(c, n);
      } else {
        Admit(c, n, kind, caps);
      }
    }

    lemma KnownNames()
      requires Valid()
      ensures View().regs.Keys == participants.Keys + dead.Keys
    {
      hide Participant.View;
    }

    // ---------------------------------------------------------------- say: the checks

    method Reject(p: Participant, f: S.SayFrame, code: ErrCode, retryAfter: Option<real>)
      requires Valid() && p.name in All() && All()[p.name] == p
      modifies this`gone, this`sent, this`log
      ensures View() == S.Reject(env, old(View()), p.name, f, code, retryAfter)
    {
      hide Valid, Regs, All, View, Participant.View, S.Answer, S.Emit;
      Placed(p);
      Shown(p);
      Answer(p.client, Err(code, Some(f.seqNo), retryAfter, ""));
      if !p.IsObserver() {
        EmitEvent(Rejected(p.name, code), None);
      }
    }

    lemma Recipient(to: Name)
      requires Valid()
      ensures S.TargetsAgent(View(), to) <==> to in participants && !participants[to].IsObserver()
      ensures View().Live(to) <==> to in participants
    {
      if to in participants {
        Seat(to);
      }
    }

    /** The checks that cost nothing, in their order. */
    method CheckEarly(p: Participant, f: S.SayFrame) returns (refusal: Option<ErrCode>)
      requires Valid() && p.name in All() && All()[p.name] == p
      ensures refusal == S.EarlyRefusal(View(), p.View(), f)
    {
      hide Valid, Regs, All, View, Participant.View, S.TargetsAgent;
      Fields();
      Shown(p);
      Recipient(f.to);
      if !p.IsObserver() {
        if frozen {
          return Some(Frozen);
        }
        if muted && (f.to == EVERYONE || (f.to in participants && !participants[f.to].IsObserver())) {
          return Some(Muted);
        }
      }
      if f.to != EVERYONE && f.to !in participants {
        return Some(UnknownRecipient);
      }
      return None;
    }

    /** A token is taken if there is one. */
    method SpendFor(p: Participant) returns (granted: bool)
      requires Valid() && p.name in All() && All()[p.name] == p
      modifies p.bucket
      ensures Valid() && View() == S.Spent(env, old(View()), p.name)
      ensures granted == S.MaySpend(env, old(View()), old(p.View()))
    {
      hide Valid, Regs, All, View, Bucket.AfterTake, Bucket.CanTake;
      Placed(p);
      Apart();
      Fields();
      granted := p.bucket.Take(clock.mono);
      OnlyOne(p);
    }

    /** How long to wait; asking again at the same moment changes nothing. */
    method RetryFor(p: Participant, ghost was: Bucket.Tokens) returns (wait: real)
      requires Valid() && p.name in All() && All()[p.name] == p
      requires p.bucket.View() == Bucket.AfterTake(env.cfg.rateBurst as real, env.cfg.ratePerSecond, was, clock.mono)
      requires !Bucket.CanTake(env.cfg.rateBurst as real, env.cfg.ratePerSecond, was, clock.mono)
      modifies p.bucket
      ensures Valid() && View() == old(View()) && p.View() == old(p.View())
      ensures env.cfg.ratePerSecond > 0.0
      ensures wait == Bucket.Wait(env.cfg.rateBurst as real, env.cfg.ratePerSecond, was, clock.mono)
    {
      hide Valid, Regs, All, View;
      Placed(p);
      Apart();
      PutTwice(View(), p.name, p.View(), p.View());
      wait := p.bucket.RetryAfter(clock.mono);
      OnlyOne(p);
    }

    /** The duplicate window is asked, and remembers. */
    method RememberFor(p: Participant, f: S.SayFrame) returns (repeated: bool)
      requires Valid() && p.name in All() && All()[p.name] == p
      modifies p.dedup
      ensures Valid() && View() == old(View()).Put(p.name, S.Remember(env, old(View()), old(p.View()), f))
      ensures repeated == S.Repeats(env, old(View()), old(p.View()), f)
    {
      hide Valid, Regs, All, View, Dedup.AfterSeen, Dedup.Expire, Dedup.Key;
      Placed(p);
      Apart();
      Fields();
      repeated := p.dedup.Seen(clock.mono, f.to, f.text, f.private);
      OnlyOne(p);
    }

    /** The accepted say enters the history. */
    method KeepFor(p: Participant, f: S.SayFrame)
      requires Valid() && p.name in All() && All()[p.name] == p
      modifies p
      ensures Valid()
      ensures var q := old(p.View());
              View() == old(View()).Put(p.name,
                q.(says := q.says + [Dedup.Said(old(View()).clock.mono, f.to, f.text, f.private)]))
    {
      hide Valid, Regs, All, View;
      Placed(p);
      Fields();
      p.says := p.says + [Dedup.Said(clock.mono, f.to, f.text, f.private)];
      OnlyOne(p);
    }

    // ---------------------------------------------------------------- say: the routing

    lemma AskedAre(to: Name)
      requires Valid()
      ensures S.Asked(View(), to) ==
                if to == EVERYONE
                then set n | n in order && !participants[n].IsObserver() && participants[n].client !in gone
                else if to in participants && !participants[to].IsObserver() then {to} else {}
    {
      hide Valid, Regs, All, Participant.View;
      Recipient(to);
      Fields();
      forall n | n in order
        ensures n in participants && n in View().regs && View().regs[n] == participants[n].View()
        ensures participants[n].IsObserver() == participants[n].View().IsObserver()
                  && participants[n].client == participants[n].View().client
      {
        Seat(n);
        Shown(participants[n]);
      }
    }

    method SaidBy(p: Participant)
      requires Valid() && p.name in All() && All()[p.name] == p
      modifies p
      ensures Valid() && View() == old(View()).Put(p.name, old(p.View()).(lastSay := old(View()).clock.mono))
    {
      hide Valid, Regs, All, View, Participant.View;
      Placed(p);
      Fields();
      p.MarkSay(clock.mono);
      OnlyOne(p);
    }

    /** An observer's say that addresses agents arms the quorum. */
    method ArmQuorum(asked: set<Name>, at: real)
      requires Valid()
      modifies this`lastObserverSay, this`quorumExpected, this`quorumLatched
      ensures var s := old(View());
              View() == if asked == {} then s
                        else s.(lastObserverSay := Some(at), quorumExpected := asked, quorumLatched := false)
    {
      hide Valid, Regs, All;
      Apart();
      if asked != {} {
        lastObserverSay, quorumExpected, quorumLatched := Some(at), asked, false;
      }
    }

    /** The record goes to the transcript and into the recent window, which is cut again. */
    method Record(m: Msg, ghost asked: set<Name>, ghost byAgent: bool)
      requires Valid()
      modifies this`archive, this`recent, this`log
      ensures var s, rec := old(View()), S.RecordOf(m);
              View() == s.(archive := s.archive + [DayRec(s.clock.day, rec)], recent :=
                Last(s.recent + [rec], env.cfg.recentWindow),
                           log := s.log + [SayAccepted(rec, s.clock.mono, asked, byAgent)])
    {
      hide Valid, Regs, All, Last;
      Apart();
      var rec := Rec(m.id, m.sender, m.to, m.kind, m.text, m.ts, m.private);
      archive := archive + [DayRec(clock.day, rec)];
      recent := Last(recent + [rec], env.cfg.recentWindow);
      log := log + [SayAccepted(rec, clock.mono, asked, byAgent)];
    }

    /** The agents an observer's say asks. */
    method AskedFor(p: Participant, f: S.SayFrame) returns (asked: set<Name>)
      requires Valid() && p.name in All() && All()[p.name] == p
      ensures p.name in View().regs && asked == S.AskedBy(View(), p.name, f)
    {
      hide Valid, Regs, All, View, Participant.View, S.Asked;
      Fields();
      Placed(p);
      Shown(p);
      AskedAre(f.to);
      Seats();
      asked := {};
      if p.IsObserver() {
        if f.to == EVERYONE {
          asked := set n | n in order && !participants[n].IsObserver() && participants[n].client !in gone;
        } else if f.to in participants && !participants[f.to].IsObserver() {
          asked := {f.to};
        }
      }
    }

    /** Quorum, transcript and window after a say. */
    ghost function Inscribed(cfg: Config, s: State, m: Msg, asked: set<Name>, byAgent: bool): State {
      var rec := S.RecordOf(m);
      var t := if asked == {} then s
               else s.(lastObserverSay := Some(s.clock.mono), quorumExpected := asked, quorumLatched := false);
      t.(archive := s.archive + [DayRec(s.clock.day, rec)], recent := Last(s.recent + [rec], cfg.recentWindow),
         log := s.log + [SayAccepted(rec, s.clock.mono, asked, byAgent)])
    }

    lemma RegisterUnfolds(e: Env, s: State, n: Name, f: S.SayFrame)
      requires n in s.regs
      ensures var t := s.(msgCounter := s.msgCounter + 1);
              S.Register(e, s, n, f) ==
                Inscribed(e.cfg, t.Put(n, t.regs[n].(lastSay := t.clock.mono)), S.NewMsg(s, n, f),
                  S.AskedBy(s, n, f), !s.regs[n].IsObserver())
    {
      hide S.AskedBy, S.RecordOf, Last;
    }

    /** What an accepted say leaves behind before anybody is sent anything. */
    method RegisterSay(p: Participant, f: S.SayFrame) returns (m: Msg)
      requires Valid() && p.name in All() && All()[p.name] == p
      modifies this`msgCounter, this`lastObserverSay, this`quorumExpected, this`quorumLatched,
               this`archive, this`recent, this`log, p
      ensures Valid() && View() == S.Register(env, old(View()), p.name, f) && m == S.NewMsg(old(View()), p.name, f)
    {
      hide Valid, Regs, All, View, Participant.View, S.AskedBy, S.Register, Inscribed;
      Fields();
      Placed(p);
      Shown(p);
      RegisterUnfolds(env, View(), p.name, f);
      var asked := AskedFor(p, f);
      var id := NextId();
      m := Msg(id, p.name, f.to, f.kind, Words(f.text), clock.wall, Untagged, Some(f.seqNo), f.private);
      Inscribe(p, m, asked);
    }

    method Inscribe(p: Participant, m: Msg, asked: set<Name>)
      requires Valid() && p.name in All() && All()[p.name] == p
      modifies this`lastObserverSay, this`quorumExpected, this`quorumLatched, this`archive, this`recent, this`log, p
      ensures Valid()
      ensures var s := old(View());
              && p.name in s.regs
              && View() == Inscribed(env.cfg, s.Put(p.name, s.regs[p.name].(lastSay := s.clock.mono)), m, asked,
                 !s.regs[p.name].IsObserver())
    {
      hide Valid, Regs, All, View, Participant.View, Last, S.RecordOf;
      Fields();
      Placed(p);
      Shown(p);
      ghost var byAgent := !p.IsObserver();
      SaidBy(p);
      ArmQuorum(asked, clock.mono);
      Record(m, asked, byAgent);
    }

    /** One recipient: shown at once, overheard, woken at once, or queued. */
    method RouteTo(q: Participant, sender: Name, m: Msg, observers: seq<(Name, seq<Msg>)>,
        woken: seq<(Name, seq<Msg>)>, queued: nat)
        returns (observers': seq<(Name, seq<Msg>)>, woken': seq<(Name, seq<Msg>)>, queued': nat)
      requires Valid() && q.name in All() && All()[q.name] == q
      modifies q.Repr()
      ensures Valid()
      ensures S.Routing(View(), observers', woken', queued') == S.RouteOne(env,
                S.Routing(old(View()), observers, woken, queued), sender, m, q.name)
      ensures observers' == observers
                || (|observers'| == |observers| + 1 && observers'[..|observers|] == observers
                   && observers'[|observers|].0 == q.name)
      ensures woken' == woken || (|woken'| == |woken| + 1 && woken'[..|woken|] == woken && woken'[|woken|].0 == q.name)
    {
      hide Valid, Regs, All, View, Participant.View, S.Woken, S.Queued, S.Buffered, WakeBatch;
      Fields();
      Placed(q);
      Shown(q);
      observers', woken', queued' := observers, woken, queued;
      if q.name == sender {
        return;
      }
      var tagged := m.Tag(S.Addressed(q.name, m.to));
      if q.IsObserver() {
        if q.client !in gone {
          observers' := observers + [(q.name, [tagged])];
        }
      } else if tagged.addressing == Overheard {
        if !m.private {
          OverhearFor(q, tagged);
        }
      } else if q.state == Idle && q.client !in gone {
        var batch := WakeFor(q, tagged);
        woken' := woken + [(q.name, batch)];
      } else {
        QueueFor(q, tagged);
        queued' := queued + 1;
      }
    }

    predicate AllSeated(batches: seq<(Name, seq<Msg>)>)
      reads this`participants
    {
      forall i :: 0 <= i < |batches| ==> batches[i].0 in participants
    }

    method RouteEach(sender: Name, m: Msg) returns (observers: seq<(Name, seq<Msg>)>, woken: seq<(Name, seq<Msg>)>,
        queued: nat)
      requires Valid()
      modifies objects
      ensures Valid() && SameSeats() && AllSeated(observers) && AllSeated(woken)
      ensures S.Routing(View(), observers, woken, queued) == S.RouteAll(env, S.Routing(old(View()), [], [], 0),
                sender, m, order)
    {
      hide Valid, Regs, All, View, S.RouteOne;
      Apart();
      observers, woken, queued := [], [], 0;
      ghost var todo := order;
      for i := 0 to |order|
        invariant Valid() && SameSeats() && todo == order[i..] && AllSeated(observers) && AllSeated(woken)
        invariant S.RouteAll(env, S.Routing(View(), observers, woken, queued), sender, m, todo)
               == S.RouteAll(env, S.Routing(old(View()), [], [], 0), sender, m, order)
      {
        Seat(order[i]);
        todo := todo[1..];
        observers, woken, queued := RouteTo(participants[order[i]], sender, m, observers, woken, queued);
      }
    }

    method DeliverEach(batches: seq<(Name, seq<Msg>)>, ghost drawn: bool, ghost cause: Cause)
      requires Valid() && AllSeated(batches)
      modifies this`gone, this`sent, this`log, this`lastActivity, this`stallLatched, objects
      ensures Valid() && SameSeats() && View() == S.DeliverAll(env, old(View()), batches, drawn, cause)
    {
      hide Valid, Regs, All, View, S.Deliver;
      ghost var todo := batches;
      for i := 0 to |batches|
        invariant Valid() && SameSeats() && todo == batches[i..]
        invariant S.DeliverAll(env, View(), todo, drawn, cause) == S.DeliverAll(env, old(View()), batches, drawn, cause)
      {
        Known(batches[i].0);
        Placed(participants[batches[i].0]);
        todo := todo[1..];
        Deliver(participants[batches[i].0], batches[i].1, drawn, cause);
      }
    }

    /** Observers first, under the round the wakes count as; then the wakes. */
    method SendOut(id: nat, observers: seq<(Name, seq<Msg>)>, woken: seq<(Name, seq<Msg>)>)
      requires Valid() && AllSeated(observers) && AllSeated(woken)
      modifies this`log, this`gone, this`sent, this`lastActivity, this`stallLatched, this`round, this`frozen, objects
      ensures Valid() && SameSeats()
      ensures var s := old(View());
              var s1 := if woken != [] then s.(round := s.round + 1) else s;
              var s3 := S.DeliverAll(env, S.DeliverAll(env, s1, observers, false, BySay(id)), woken, true, BySay(id));
              View() == if woken != [] then S.CheckRoundLimit(env, s3) else s3
    {
      hide Valid, Regs, All, View, S.DeliverAll, S.CheckRoundLimit;
      Fields();
      if woken != [] {
        CountRound();
      }
      DeliverEach(observers, false, BySay(id));
      DeliverEach(woken, true, BySay(id));
      if woken != [] {
        CheckRoundLimit();
      }
    }

    /** Who is routed what, before anything is sent. */
    ghost function RoutedSay(s: State, n: Name, f: S.SayFrame): S.Routing
      requires n in s.regs
    {
      S.RouteAll(env, S.Routing(S.Register(env, s, n, f), [], [], 0), n, S.NewMsg(s, n, f), s.order)
    }

    ghost function SentOut(r: S.Routing, id: nat): State {
      var s := r.state;
      var s1 := if r.woken != [] then s.(round := s.round + 1) else s;
      var s3 := S.DeliverAll(env, S.DeliverAll(env, s1, r.observers, false, BySay(id)), r.woken, true, BySay(id));
      if r.woken != [] then S.CheckRoundLimit(env, s3) else s3
    }

    lemma AcceptUnfolds(s: State, n: Name, f: S.SayFrame)
      requires n in s.regs
      ensures var r, m := RoutedSay(s, n, f), S.NewMsg(s, n, f);
              S.Accept(env, s, n, f) ==
                S.Answer(env, SentOut(r, m.id), s.regs[n].client, Ok(Some(m.id), r.queued, Some(f.seqNo))).Touch()
    {
      hide S.Register, S.RouteAll, S.DeliverAll, S.CheckRoundLimit, S.Answer, S.NewMsg;
    }

    /** The record is made and every recipient looked at. */
    method RouteRecorded(p: Participant, f: S.SayFrame)
        returns (m: Msg, observers: seq<(Name, seq<Msg>)>, woken: seq<(Name, seq<Msg>)>, queued: nat)
      requires Valid() && p.name in All() && All()[p.name] == p
      modifies this`msgCounter, this`lastObserverSay, this`quorumExpected, this`quorumLatched, this`archive,
               this`recent, this`log, objects
      ensures Valid() && SameSeats() && AllSeated(observers) && AllSeated(woken)
      ensures p.name in old(View()).regs && m == S.NewMsg(old(View()), p.name, f)
      ensures S.Routing(View(), observers, woken, queued) == RoutedSay(old(View()), p.name, f)
    {
      hide Valid, Regs, All, View, Participant.View, S.Register, S.RouteAll, S.NewMsg, AllSeated;
      Fields();
      Placed(p);
      m := RegisterSay(p, f);
      observers, woken, queued := RouteEach(p.name, m);
    }

    /** An accepted say: recorded, routed, delivered, answered. */
    method AcceptSay(p: Participant, f: S.SayFrame)
      requires Valid() && p.name in All() && All()[p.name] == p
      modifies this`msgCounter, this`lastObserverSay, this`quorumExpected, this`quorumLatched, this`archive,
               this`recent, this`log, this`gone, this`sent, this`lastActivity, this`stallLatched, this`round,
               this`frozen, objects
      ensures Valid() && SameSeats() && View() == S.Accept(env, old(View()), p.name, f)
    {
      hide Valid, Regs, All, View, Participant.View, S.Accept, S.Answer, S.NewMsg, S.DeliverAll, S.CheckRoundLimit;
      hide AllSeated, RoutedSay;
      Placed(p);
      Shown(p);
      AcceptUnfolds(View(), p.name, f);
      var client := p.client;
      var m, observers, woken, queued := RouteRecorded(p, f);
      SendOut(m.id, observers, woken);
      Confirm(client, m.id, queued, f.seqNo);
    }

    method Confirm(c: ConnId, id: nat, queued: nat, seqNo: int)
      requires Valid()
      modifies this`log, this`gone, this`sent, this`lastActivity, this`stallLatched
      ensures View() == S.Answer(env, old(View()), c, Ok(Some(id), queued, Some(seqNo))).Touch()
    {
      hide Valid, Regs, All, View, S.Answer;
      Answer(c, Ok(Some(id), queued, Some(seqNo)));
      TouchActivity();
    }

    /** The checks in their order, then the routing; true if the say was accepted. */
    method RouteSay(p: Participant, f: S.SayFrame) returns (accepted: bool)
      requires Valid() && p.name in All() && All()[p.name] == p
      modifies this`msgCounter, this`lastObserverSay, this`quorumExpected, this`quorumLatched, this`archive,
        this`recent, this`log,
               this`gone, this`sent, this`lastActivity, this`stallLatched, this`round, this`frozen, objects
      ensures Valid() && SameSeats() && env.cfg.ratePerSecond > 0.0
      ensures (View(), accepted) == S.RouteSay(env, old(View()), p.name, f)
    {
      hide Valid, Regs, All, View, Participant.View, S.Accept;
      hide S.Reject, S.EarlyRefusal, S.MaySpend, S.Repeats, S.Spent, S.Checked, S.Kept;
      Fields();
      Placed(p);
      Shown(p);
      var refusal := CheckEarly(p, f);
      if refusal.Some? {
        Reject(p, f, refusal.value, None);
        return false;
      }
      if p.IsObserver() {
        AcceptSay(p, f);
        return true;
      }
      accepted := PayFor(p, f);
      if accepted {
        AcceptSay(p, f);
      }
    }

    /** An agent pays with a token, and must not repeat itself. */
    method PayFor(p: Participant, f: S.SayFrame) returns (passed: bool)
      requires Valid() && p.name in All() && All()[p.name] == p
      modifies this`gone, this`sent, this`log, p.Repr()
      ensures Valid() && env.cfg.ratePerSecond > 0.0
      ensures var s, q, n := old(View()), old(p.View()), p.name;
              && passed == (S.MaySpend(env, s, q) && !S.Repeats(env, s, q, f))
              && n in s.regs && s.regs[n] == q
              && View() == (
                if !S.MaySpend(env, s, q) then
                  S.Reject(env, S.Spent(env, s, n), n, f, RateLimited,
                    Some(Bucket.Wait(env.cfg.rateBurst as real, env.cfg.ratePerSecond, q.bucket, s.clock.mono)))
                else if S.Repeats(env, s, q, f) then S.Reject(env, S.Checked(env, s, n, f), n, f, Duplicate, None)
                else S.Kept(env, s, n, f))
    {
      hide Valid, Regs, All, View, Participant.View, S.Reject;
      hide Bucket.AfterTake, Bucket.Wait, Bucket.CanTake, S.Remember, Dedup.Expire, Dedup.Key;
      Fields();
      Placed(p);
      var granted := SpendFor(p);
      Placed(p);
      Fields();
      if !granted {
        BucketSeen(p);
        var retry := RetryFor(p, old(p.View()).bucket);
        Reject(p, f, RateLimited, Some(retry));
        return false;
      }
      var repeated := RememberFor(p, f);
      Placed(p);
      if repeated {
        Reject(p, f, Duplicate, None);
        return false;
      }
      KeepFor(p, f);
      return true;
    }

    lemma BucketSeen(p: Participant)
      ensures p.View().bucket == p.bucket.View()
    {
    }

    method SetIdleOf(p: Participant)
      requires Valid() && p.name in All() && All()[p.name] == p
      modifies p
      ensures Valid() && View() == old(View()).Put(p.name, S.SetIdle(old(p.View())))
    {
      hide Valid, Regs, All, View, Participant.View;
      Placed(p);
      p.SetIdle();
      OnlyOne(p);
    }

    /** A say proves that a participant without the capability has produced output. */
    method InferIdle(p: Participant)
      requires Valid() && p.name in All() && All()[p.name] == p
      modifies this`gone, this`sent, this`log, this`lastActivity, this`stallLatched, this`round, this`frozen, objects
      ensures Valid() && SameSeats() && View() == S.InferIdle(env, old(View()), p.name)
    {
      hide Valid, Regs, All, View, Participant.View, S.FlushQueue, S.SetIdle;
      Placed(p);
      Shown(p);
      if "idle-events" !in p.caps && p.state != Idle {
        SetIdleOf(p);
        FlushQueue(p);
      }
    }

    method HandleSay(p: Participant, f: S.SayFrame)
      requires Valid() && p.name in All() && All()[p.name] == p
      modifies this`msgCounter, this`lastObserverSay, this`quorumExpected, this`quorumLatched, this`archive,
        this`recent, this`log,
               this`gone, this`sent, this`lastActivity, this`stallLatched, this`round, this`frozen, objects
      ensures Valid() && SameSeats() && env.cfg.ratePerSecond > 0.0
                && View() == S.HandleSay(env, old(View()), p.name, f)
    {
      hide Valid, Regs, All, View, Participant.View, S.RouteSay, S.InferIdle, S.CheckSessionDone;
      Placed(p);
      var accepted := RouteSay(p, f);
      Placed(p);
      InferIdle(p);
      Placed(p);
      Shown(p);
      if accepted && !p.IsObserver() {
        if f.kind == "done" {
          MarkOf(p, true);
          CheckSessionDone();
        } else {
          MarkOf(p, false);
        }
      }
    }

    // ---------------------------------------------------------------- state

    method SetNotified(notified: set<Name>)
      requires Valid()
      modifies this`blockedNotified
      ensures View() == old(View()).(blockedNotified := notified)
    {
      hide Valid, Regs, All;
      Apart();
      blockedNotified := notified;
    }

    method ReportOf(p: Participant, st: Activity, detail: Option<string>) returns (rearmed: bool)
      requires Valid() && p.name in All() && All()[p.name] == p
      modifies p
      ensures Valid() && View() == old(View()).Put(p.name,
                S.Reporting(old(View()).clock.mono, old(p.View()), st, detail))
      ensures rearmed == S.FreshlyBlocked(old(p.View()), st, detail)
    {
      hide Valid, Regs, All, View, Participant.View, S.Reporting, S.FreshlyBlocked;
      Placed(p);
      Fields();
      rearmed := p.Report(clock.mono, st, detail);
      OnlyOne(p);
    }

    method ReportAndRearm(p: Participant, st: Activity, detail: Option<string>)
      requires Valid() && p.name in All() && All()[p.name] == p
      modifies this`blockedNotified, p
      ensures Valid()
      ensures var s, q := old(View()), old(p.View());
              var anew := S.FreshlyBlocked(q, st, detail);
              var notified := if anew then s.blockedNotified - {p.name} else s.blockedNotified;
              View() == s.(blockedNotified := notified).Put(p.name, S.Reporting(s.clock.mono, q, st, detail))
    {
      hide Valid, Regs, All, View, Participant.View, S.Reporting, S.FreshlyBlocked;
      Fields();
      var rearmed := ReportOf(p, st, detail);
      SetNotified(if rearmed then blockedNotified - {p.name} else blockedNotified);
    }

    method HandleState(p: Participant, st: Activity, detail: Option<string>)
      requires Valid() && p.name in All() && All()[p.name] == p
      modifies this`blockedNotified, this`gone, this`sent, this`log, this`lastActivity, this`stallLatched,
        this`round, this`frozen, objects
      ensures Valid() && SameSeats() && View() == S.HandleState(env, old(View()), p.name, st, detail)
    {
      hide Valid, Regs, All, View, Participant.View, S.Reporting, S.FreshlyBlocked, S.FlushQueue;
      Placed(p);
      ReportAndRearm(p, st, detail);
      if st == Idle {
        FlushQueue(p);
      }
    }

    // ---------------------------------------------------------------- commands

    /** Goal lines given to the first participants of the order. */
    ghost function Reminded(s: State, done: seq<Name>, text: string): map<Name, Part> {
      map n | n in s.regs ::
        if n in done && s.IsAgent(n) then S.Buffered(env, s.regs[n], S.GoalMsg(s, text)) else s.regs[n]
    }

    lemma RemindOne(s: State, done: seq<Name>, text: string, n: Name)
      requires n in s.regs && n in s.order && n !in done
      ensures var p := if s.regs[n].IsObserver() then s.regs[n] else S.Buffered(env, s.regs[n], S.GoalMsg(s, text));
              Reminded(s, done, text)[n := p] == Reminded(s, done + [n], text)
      ensures n in Reminded(s, done, text) && Reminded(s, done, text)[n] == s.regs[n]
    {
      hide S.Buffered, S.GoalMsg;
    }

    lemma RemindEnds(s: State, text: string)
      ensures Reminded(s, [], text) == s.regs
      ensures s.(regs := Reminded(s, s.order, text)) == S.BufferGoal(env, s, text)
    {
      hide S.Buffered, S.GoalMsg;
    }

    lemma RemindKeys(s: State, done: seq<Name>, text: string)
      ensures Reminded(s, done, text).Keys == s.regs.Keys
    {
    }

    /** The goal rides along as context on every live agent's next wake. */
    method BufferGoal(text: string)
      requires Valid()
      modifies objects
      ensures Valid() && SameSeats() && View() == S.BufferGoal(env, old(View()), text)
    {
      hide Valid, Regs, All, View, Participant.View, Reminded, S.Buffered;
      Apart();
      Fields();
      ghost var s := View();
      RemindEnds(s, text);
      var m := Msg(0, SYSTEM_SENDER, EVERYONE, "note", GoalLine(text), clock.wall, Overheard, None, false);
      for i := 0 to |order|
        invariant Valid() && SameSeats() && View() == s.(regs := Reminded(s, order[..i], text))
      {
        var n := order[i];
        Unique(i);
        Seat(n);
        Fields();
        var p := participants[n];
        RemindKeys(s, order[..i], text);
        RemindOne(s, order[..i], text, n);
        assert order[..i + 1] == order[..i] + [n];
        Shown(p);
        if !p.IsObserver() {
          OverhearFor(p, m);
        } else {
          PutSame(Regs(), n);
        }
      }
      assert order[..|order|] == order;
    }

    method SetFloor(round: nat, frozen: bool, maxRounds: nat, muted: bool, goal: string)
      requires Valid()
      modifies this`round, this`frozen, this`maxRounds, this`muted, this`goal
      ensures View() == old(View()).(round := round, frozen := frozen, maxRounds := maxRounds, muted := muted,
                goal := goal)
    {
      hide Valid, Regs, All;
      Apart();
      this.round, this.frozen, this.maxRounds, this.muted, this.goal := round, frozen, maxRounds, muted, goal;
    }

    /** The commands that move the floor. */
    method MoveFloor(cmd: S.Command)
      requires Valid() && (cmd.Freeze? || cmd.Resume? || cmd.Reset?)
      modifies this`log, this`gone, this`sent, this`round, this`frozen, this`maxRounds, this`muted, this`goal
      ensures View() == S.Execute(env, old(View()), cmd)
    {
      hide Valid, Regs, All, View, S.Emit;
      Fields();
      ghost var s := View();
      match cmd {
        case Freeze =>
          SetFloor(round, true, maxRounds, muted, goal);
          Fields();
          assert View() == s.(frozen := true);
          EmitEvent(FrozenBy(round), None);
        case Resume(n) =>
          var limit := maxRounds;
          if n.Some? {
            limit := (if maxRounds >= round then maxRounds else round) + n.value;
          } else if round >= maxRounds {
            limit := round + env.cfg.maxRounds;
          }
          SetFloor(round, false, limit, muted, goal);
          Fields();
          assert View() == s.(maxRounds := S.ResumedLimit(env, s, n), frozen := false);
          EmitEvent(Resumed(round, maxRounds), None);
        case Reset =>
          var fromRound := round;
          SetFloor(0, false, maxRounds, muted, goal);
          assert View() == s.(round := 0, frozen := false);
          EmitEvent(WasReset(fromRound), None);
        case _ =>
      }
    }

    method SetMuted(on: bool)
      requires Valid()
      modifies this`muted
      ensures View() == old(View()).(muted := on)
    {
      hide Valid, Regs, All;
      Apart();
      muted := on;
    }

    method SetGoal(text: string)
      requires Valid()
      modifies this`goal
      ensures View() == old(View()).(goal := text)
    {
      hide Valid, Regs, All;
      Apart();
      goal := text;
    }

    method Execute(cmd: S.Command)
      requires Valid()
      modifies this`msgCounter, this`log, this`gone, this`sent, this`lastActivity, this`stallLatched,
               this`round, this`frozen, this`maxRounds, this`muted, this`goal, objects
      ensures Valid() && SameSeats() && View() == S.Execute(env, old(View()), cmd)
    {
      hide Valid, Regs, All, View, S.Emit, S.SystemMessage, S.BufferGoal;
      match cmd {
        case Mute =>
          SetMuted(true);
          Announce(MutedOn, MuteNote(true));
        case Unmute =>
          SetMuted(false);
          Announce(MutedOff, MuteNote(false));
        case SetGoal(text) =>
          SetGoal(text);
          EmitEvent(GoalSet(text), None);
          BufferGoal(text);
        case _ =>
          MoveFloor(cmd);
      }
    }

    /** An event for the observers, and a note for every agent. */
    method Announce(ev: Event, text: Text)
      requires Valid()
      modifies this`msgCounter, this`log, this`gone, this`sent, this`lastActivity, this`stallLatched, objects
      ensures Valid() && SameSeats()
      ensures var t := S.Emit(env, old(View()), ev, None); View() == S.SystemMessage(env, t, t.order, text)
    {
      hide Valid, Regs, All, View, S.Emit, S.SystemMessage;
      Fields();
      EmitEvent(ev, None);
      Fields();
      SystemMessage(text);
    }

    method HandleCmd(p: Participant, cmd: S.Command, seqNo: Option<int>)
      requires Valid() && p.name in All() && All()[p.name] == p
      modifies this`msgCounter, this`log, this`gone, this`sent, this`lastActivity, this`stallLatched,
               this`round, this`frozen, this`maxRounds, this`muted, this`goal, objects
      ensures Valid() && SameSeats() && View() == S.HandleCmd(env, old(View()), p.name, cmd, seqNo)
    {
      hide Valid, Regs, All, View, Participant.View, S.Answer, S.Execute;
      Placed(p);
      Shown(p);
      var client := p.client;
      if !p.IsObserver() {
        Answer(client, Err(Forbidden, seqNo, None, ""));
        return;
      }
      Execute(cmd);
      TouchActivity();
      Answer(client, Ok(None, 0, seqNo));
    }

    // ---------------------------------------------------------------- watchdog

    /** Dead registrations expire. */
    method ExpireDead()
      requires Valid()
      modifies this`dead
      ensures Valid() && View() == S.ExpireDead(env, old(View()))
    {
      hide Participant.View, Valid, Regs, View, All;
      Fields();
      ghost var s := View();
      DeadShown();
      var kept := map n | n in dead && clock.mono - dead[n].lastRx <= env.cfg.deadTtl :: dead[n];
      Survivors(s, participants.Keys, kept.Keys, participants.Keys + dead.Keys);
      KeepDead(kept);
    }

    lemma DeadShown()
      requires Valid()
      ensures forall n :: n in dead ==> n in View().regs && View().regs[n].lastRx == dead[n].lastRx && !View().Live(n)
      ensures forall n :: n in participants ==> n in View().regs && View().Live(n)
      ensures View().regs.Keys == participants.Keys + dead.Keys
    {
    }

    lemma Survivors(s: State, live: set<Name>, kept: set<Name>, all: set<Name>)
      requires s.regs.Keys == all && live <= all && kept <= all
      requires forall n :: n in all ==> (s.Live(n) <==> n in live)
      requires forall n :: n in all && n !in live ==>
                 (n in kept <==> s.clock.mono - s.regs[n].lastRx <= env.cfg.deadTtl)
      requires live !! kept
      ensures S.ExpireDead(env, s) == s.(regs := map n | n in s.regs && (n in live || n in kept) :: s.regs[n])
    {
    }

    method KeepDead(kept: map<Name, Participant>)
      requires Valid() && kept.Keys <= dead.Keys && (forall n :: n in kept ==> kept[n] == dead[n])
      modifies this`dead
      ensures Valid()
      ensures var s := old(View());
              View() == s.(regs := map n | n in s.regs && (n in participants || n in kept) :: s.regs[n])
    {
      hide Participant.View, Valid, Regs, All;
      Apart();
      dead := kept;
      Thinned();
      ThinnedView();
    }

    /** Some dead registrations are gone, nothing else has changed. */
    twostate predicate OnlyExpired()
      reads this`participants, this`dead, this`order, this`objects
    {
      && participants == old(participants) && order == old(order) && objects == old(objects)
      && dead.Keys <= old(dead).Keys && (forall n :: n in dead ==> dead[n] == old(dead)[n])
    }

    twostate lemma Thinned()
      requires old(Valid()) && OnlyExpired()
      ensures Valid()
      ensures forall n :: n in All() <==> n in participants || n in dead
      ensures forall n :: n in All() ==> n in old(All()) && All()[n] == old(All())[n] && All()[n].Repr() <= objects
    {
      hide Participant.View, Participant.Fits, Participant.Repr;
      assert forall n :: n in All() ==> n in old(All()) && All()[n] == old(All())[n];
    }

    twostate lemma ThinnedView()
      requires old(Valid()) && Valid()
      requires forall n :: n in All() <==> n in participants || n in dead
      requires forall n :: n in All() ==> n in old(All()) && All()[n] == old(All())[n] && All()[n].Repr() <= objects
      requires objects == old(objects) && forall o :: o in objects ==> unchanged(o)
      ensures Regs() == map n | n in old(Regs()) && (n in participants || n in dead) :: old(Regs())[n]
    {
      hide Participant.View, Participant.Fits, Valid;
      forall n | n in All()
        ensures All()[n].View() == old(All()[n].View())
      {
      }
    }

    method AwaitPongOf(p: Participant, deadline: real)
      requires Valid() && p.name in All() && All()[p.name] == p
      modifies p
      ensures Valid() && View() == old(View()).Put(p.name,
                old(p.View()).(awaitingPong := true, pongDeadline := deadline))
    {
      hide Valid, Regs, All, View, Participant.View;
      Placed(p);
      p.AwaitPong(deadline);
      OnlyOne(p);
    }

    method PingIfSilent(p: Participant)
      requires Valid() && p.name in All() && All()[p.name] == p
      modifies this`gone, this`sent, this`log, p
      ensures Valid() && SameSeats() && View() == S.PingIfSilent(env, old(View()), p.name)
    {
      hide Valid, Regs, All, View, Participant.View, S.Answer;
      Placed(p);
      Fields();
      Timers(p);
      if clock.mono - p.lastRx > env.cfg.deadAfter && !p.awaitingPong {
        var client := p.client;
        AwaitPongOf(p, clock.mono + env.cfg.pongTimeout);
        Answer(client, Ping);
      }
    }

    lemma Timers(p: Participant)
      ensures var q := p.View();
              && p.lastRx == q.lastRx && p.busySince == q.busySince && p.lastSay == q.lastSay
              && p.blockedSince == q.blockedSince
              && p.awaitingPong == q.awaitingPong && p.pongDeadline == q.pongDeadline && p.client == q.client
              && p.state == q.state && p.caps == q.caps && p.IsObserver() == q.IsObserver() && p.queue == q.box.queue
    {
    }

    /** Whoever has shown no sign of work for long enough is taken to be idle. */
    method AssumeIdle(p: Participant)
      requires Valid() && p.name in All() && All()[p.name] == p
      modifies this`gone, this`sent, this`log, this`lastActivity, this`stallLatched, this`round, this`frozen, objects
      ensures Valid() && SameSeats() && View() == S.AssumeIdle(env, old(View()), p.name)
    {
      hide Valid, Regs, All, View, Participant.View, S.FlushQueue, S.Emit, S.SetIdle;
      Placed(p);
      Fields();
      Timers(p);
      if "idle-events" !in p.caps && p.state != Idle && clock.mono - p.busySince > env.cfg.assumeIdleAfter {
        SetIdleOf(p);
        EmitEvent(Stalled(Some(p.name)), None);
        Placed(p);
        FlushQueue(p);
      }
    }

    method NotifyBlocked(p: Participant)
      requires Valid() && p.name in All() && All()[p.name] == p
      modifies this`blockedNotified, this`gone, this`sent, this`log
      ensures View() == S.NotifyBlocked(env, old(View()), p.name)
    {
      hide Valid, Regs, All, View, Participant.View, S.Emit;
      Placed(p);
      Fields();
      Timers(p);
      if p.state == Blocked && p.blockedSince.Some? && clock.mono - p.blockedSince.value > env.cfg.blockedAfter
         && p.name !in blockedNotified {
        SetNotified(blockedNotified + {p.name});
        EmitEvent(BlockedFor(p.name), None);
      }
    }

    method WatchOne(p: Participant)
      requires Valid() && p.name in All() && All()[p.name] == p
      modifies this`participants, this`dead, this`order, this`blockedNotified, this`gone, this`sent, this`log,
               this`lastActivity, this`stallLatched, this`round, this`frozen, objects
      ensures Valid() && All() == old(All()) && objects == old(objects)
      ensures View() == S.WatchOne(env, old(View()), p.name)
    {
      hide Valid, Regs, All, View, Participant.View, S.Disconnect, S.PingIfSilent, S.AssumeIdle, S.NotifyBlocked;
      Placed(p);
      Fields();
      Timers(p);
      if p.client in gone || (p.awaitingPong && clock.mono > p.pongDeadline) {
        Disconnect(p.client);
        return;
      }
      var observer := p.IsObserver();
      PingIfSilent(p);
      Placed(p);
      if observer {
        return;
      }
      AssumeIdle(p);
      Placed(p);
      NotifyBlocked(p);
    }

    method WatchAll()
      requires Valid()
      modifies this`participants, this`dead, this`order, this`blockedNotified, this`gone, this`sent, this`log,
               this`lastActivity, this`stallLatched, this`round, this`frozen, objects
      ensures Valid() && objects == old(objects) && View() == S.WatchAll(env, old(View()), old(order))
    {
      hide Valid, Regs, All, View, S.WatchOne;
      var everyone := order;
      ghost var todo := everyone;
      var ps := participants;
      Everyone();
      for i := 0 to |everyone|
        invariant Valid() && objects == old(objects) && todo == everyone[i..] && All() == old(All())
        invariant S.WatchAll(env, View(), todo) == S.WatchAll(env, old(View()), everyone)
      {
        var p := ps[everyone[i]];
        Placed(p);
        todo := todo[1..];
        WatchOne(p);
      }
    }

    lemma Everyone()
      requires Valid()
      ensures forall i :: 0 <= i < |order| ==>
                order[i] in participants && order[i] in All() && All()[order[i]] == participants[order[i]]
                && participants[order[i]].name == order[i]
    {
      hide Valid, Regs, All;
      forall i | 0 <= i < |order|
        ensures order[i] in participants && order[i] in All() && All()[order[i]] == participants[order[i]]
             && participants[order[i]].name == order[i]
      {
        Seat(order[i]);
      }
    }

    method Quiet() returns (quiet: bool)
      requires Valid()
      ensures quiet == S.AllQuiet(View())
    {
      hide Valid, Regs, All;
      Seats();
      quiet := (exists n :: n in order && !participants[n].IsObserver())
        && (forall n :: n in order && !participants[n].IsObserver() ==>
           participants[n].state == Idle && participants[n].queue == []);
      ghost var s := View();
      assert forall n :: n in order ==> (s.IsAgent(n) <==> !participants[n].IsObserver());
    }

    /** The agents the observer's last say addressed that are still here. */
    method StillExpected() returns (expected: set<Name>)
      requires Valid()
      ensures expected == S.Expected(View())
      ensures forall n :: n in expected ==>
                n in participants && n in View().regs && participants[n].lastSay == View().regs[n].lastSay
    {
      hide Valid, Regs, All;
      Seats();
      expected := set n | n in order && !participants[n].IsObserver() && n in quorumExpected;
      ghost var s := View();
      assert forall n :: n in order ==> (s.IsAgent(n) <==> !participants[n].IsObserver());
    }

    method LatchQuorum()
      requires Valid()
      modifies this`quorumLatched
      ensures View() == old(View()).(quorumLatched := true)
    {
      hide Valid, Regs, All;
      Apart();
      quorumLatched := true;
    }

    method LatchStall()
      requires Valid()
      modifies this`stallLatched
      ensures View() == old(View()).(stallLatched := true)
    {
      hide Valid, Regs, All;
      Apart();
      stallLatched := true;
    }

    /** Every agent the observer's last say addressed has answered. */
    method CheckQuorum()
      requires Valid()
      modifies this`quorumLatched, this`gone, this`sent, this`log
      ensures View() == S.CheckQuorum(env, old(View()))
    {
      hide Valid, Regs, All, View, S.Emit, S.AllQuiet, S.Expected;
      Fields();
      var quiet := Quiet();
      var expected := StillExpected();
      if quiet && !quorumLatched && lastObserverSay.Some? && expected != {}
         && (forall n :: n in expected ==> participants[n].lastSay > lastObserverSay.value) {
        LatchQuorum();
        EmitEvent(QuorumReached(expected), None);
      }
    }

    method CheckStall()
      requires Valid()
      modifies this`stallLatched, this`gone, this`sent, this`log
      ensures View() == S.CheckStall(env, old(View()))
    {
      hide Valid, Regs, All, View, S.Emit, S.AllQuiet;
      Fields();
      var quiet := Quiet();
      if quiet && clock.mono - lastActivity > env.cfg.stallAfter && !stallLatched {
        LatchStall();
        EmitEvent(Stalled(None), None);
      }
    }

    method WatchdogTick()
      requires Valid()
      modifies this`participants, this`dead, this`order, this`blockedNotified, this`gone, this`sent, this`log,
               this`lastActivity, this`stallLatched, this`round, this`frozen, this`quorumLatched, objects
      ensures Valid() && objects == old(objects) && View() == S.WatchdogTick(env, old(View()))
    {
      hide Valid, Regs, All, View, S.ExpireDead, S.WatchAll, S.CheckQuorum, S.CheckStall;
      Apart();
      ExpireDead();
      Fields();
      WatchAll();
      CheckQuorum();
      CheckStall();
    }

    // ---------------------------------------------------------------- frames in

    method LifeSignOf(p: Participant)
      requires Valid() && p.name in All() && All()[p.name] == p
      modifies p
      ensures Valid() && p.name in old(View()).regs && View() == S.LifeSign(old(View()), p.name)
    {
      hide Valid, Regs, All, View, Participant.View;
      Placed(p);
      Fields();
      p.LifeSign(clock.mono);
      OnlyOne(p);
    }

    /** Dispatch one inbound frame. */
    method Handle(c: ConnId, f: S.Request)
      requires Valid()
      modifies this, objects
      ensures Valid() && env.cfg.Valid() && fresh(objects - old(objects))
      ensures View() == S.Handle(env, old(View()), c, f)
    {
      hide Valid, Regs, All, View, Participant.View, S.Answer, S.HandleHello, S.Dispatch, S.LifeSign, S.WellFormed;
      Apart();
      Configured();
      Fields();
      if !S.WellFormed(f) {
        Answer(c, Err(Malformed, S.SeqOf(f), None, ""));
        return;
      }
      if f.Hello? {
        HandleHello(c, f.name, f.kind, f.caps);
        return;
      }
      if c in names {
        Known(names[c]);
      }
      if c !in names || names[c] !in participants {
        Answer(c, Err(Malformed, None, None, ""));
        return;
      }
      var p := participants[names[c]];
      Placed(p);
      LifeSignOf(p);
      Placed(p);
      Dispatch(p, c, f);
    }

    method Dispatch(p: Participant, c: ConnId, f: S.Request)
      requires Valid() && p.name in All() && All()[p.name] == p
      modifies this, objects
      ensures Valid() && objects == old(objects) && env.cfg.ratePerSecond > 0.0
      ensures p.name in old(View()).regs && View() == S.Dispatch(env, old(View()), c, p.name, f)
    {
      hide Valid, Regs, All, View, Participant.View, S.HandleSay, S.HandleState, S.HandleCmd, S.Answer, S.Disconnect;
      Apart();
      Placed(p);
      Shown(p);
      match f {
        case Say(say) => HandleSay(p, say);
        case StateReport(st, detail) => HandleState(p, st, detail);
        case Cmd(cmd, q) => HandleCmd(p, cmd, q);
        case RosterQuery => Answer(p.client, RosterReply);
        case Bye => Disconnect(c);
        case _ =>
      }
    }

    method SetClock(clock: Clock)
      requires Valid()
      modifies this`clock
      ensures View() == old(View()).(clock := clock)
    {
      hide Valid, Regs, All;
      Apart();
      this.clock := clock;
    }

    /** Whatever the server feeds in, under its one lock. */
    method TakeStep(clock: Clock, i: S.Input)
      requires Valid()
      modifies this, objects
      ensures Valid() && env.cfg.Valid() && fresh(objects - old(objects))
      ensures View() == S.Step(env, old(View()), clock, i)
    {
      hide Valid, Regs, All, View, S.Handle, S.Disconnect, S.WatchdogTick;
      Apart();
      SetClock(clock);
      match i {
        case Inbound(c, f) => Handle(c, f);
        case Closed(c) => Disconnect(c);
        case Lost(c) => MarkGone(c);
        case Tick => WatchdogTick();
      }
      Configured();
    }

    lemma Configured()
      requires Valid()
      ensures env.cfg.Valid()
    {
    }

    /** The laws hold of the object: a good hub stays good, whatever it is fed. */
    method TakeLawfulStep(clock: Clock, i: S.Input, ghost epoch: int)
      requires Valid() && Laws.Good(env, epoch, View()) && S.Later(this.clock, clock)
      modifies this, objects
      ensures Valid() && env.cfg.Valid() && fresh(objects - old(objects))
      ensures View() == S.Step(env, old(View()), clock, i) && Laws.Good(env, epoch, View())
    {
      hide Valid, Regs, All, View, S.Step, Laws.Good;
      Fields();
      Configured();
      Laws.StepGood(env, epoch, View(), clock, i);
      TakeStep(clock, i);
    }
  }
}
