/** The threads of `moot stream`: ctl threads forward says, one reader hands the hub's
    replies back and outlives the connection (src/moot/cli/stream.py).

    Every step below is one thread's move between two points where another thread can get
    in: a lock section, an event set or cleared, a put into a slot. A run interleaves them
    in any order. */
module StreamThreads {
  import opened Types

  type Conn = nat

  /** A ctl thread, named by the one say it forwards. */
  type Thread = nat

  /** What is put into a slot: the hub's reply, with the connection it was read on, or the
      local refusal. */
  datatype Item = Reply(conn: Conn, seqNo: nat) | HubGone

  datatype Answer = FromSlot(item: Item) | Refused | SendFailed | TimedOut

  datatype Phase =
    | SawOpen                     // holds the lock, has seen the stream not closed
    | Checked                     // holds the lock, has since seen it live
    | Registered
    | Waiting                     // sent, parked at its slot
    | Leaving(answer: Answer)     // about to take its slot out of the table
    | Done(answer: Answer)

  /** `slot` is everything ever put into the slot, in order. */
  datatype Forward = Forward(phase: Phase, seqNo: nat, conn: Conn, slot: seq<Item>)
  {
    predicate Active() {
      phase.Registered? || phase.Waiting? || phase.Leaving?
    }

    predicate Inside() {
      phase.SawOpen? || phase.Checked?
    }
  }

  datatype Reader =
    | Pumping
    | Handing(to: Thread, seqNo: nat)         // has looked the slot up, has not put yet
    | Broken                                  // the frames have ended
    | Cleared(last: bool)                     // `live` is cleared, the snapshot not yet taken
    | Failing(left: seq<Thread>, last: bool)  // inside `_fail_pending`
    | Offline                                 // `_fail_pending` has returned
    | Swapped                                 // the new connection is in place, `live` not yet set
    | Greeting                                // `live` is set, the first frame not yet asked for
    | Closing                                 // `closed` is set; `live` may still be
    | Ended

  datatype World = World(
    says: map<Thread, Forward>,
    pending: map<nat, Thread>,
    issued: nat,
    conn: Conn,
    live: bool,
    closed: bool,
    lock: Option<Thread>,
    reader: Reader,
    used: set<Conn>)
  {
    function Set(t: Thread, f: Forward): World {
      this.(says := says[t := f])
    }

    /** Something is put into the slot of `t`. */
    function Put(t: Thread, item: Item): World
      requires t in says
    {
      Set(t, says[t].(slot := says[t].slot + [item]))
    }
  }

  datatype Step =
    | Begin(t: Thread)            // take the lock, look at `closed`
    | LookLive(t: Thread)         // look at `live`
    | Register(t: Thread)
    | SendOk(t: Thread)
    | SendFails(t: Thread)
    | Take(t: Thread)
    | GiveUp(t: Thread)
    | Leave(t: Thread)
    | ReadReply(seqNo: nat)
    | PutReply
    | Break
    | ClearLive
    | Snapshot(order: seq<Thread>)
    | FailOne
    | FailDone
    | Adopt(conn: Conn)
    | GoLive
    | Greeted
    | Close

  predicate In(w: World, t: Thread, p: Phase) {
    t in w.says && w.says[t].phase == p
  }

  /** When a step can happen. The hub may send any frame with any seq at any time; a rejoin
      brings a connection never seen before. The reader can be thrown out of `_adopt` on
      either side of `live.set()`, or end offline; it then closes the stream. */
  ghost predicate Enabled(w: World, x: Step) {
    match x
    case Begin(t) => w.lock == None && t !in w.says
    case LookLive(t) => w.lock == Some(t) && In(w, t, SawOpen)
    case Register(t) => w.lock == Some(t) && In(w, t, Checked)
    case SendOk(t) => In(w, t, Registered)
    case SendFails(t) => In(w, t, Registered)
    case Take(t) => In(w, t, Waiting) && w.says[t].slot != []
    case GiveUp(t) => In(w, t, Waiting) && w.says[t].slot == []
    case Leave(t) => w.lock == None && t in w.says && w.says[t].phase.Leaving?
    case ReadReply(q) => w.lock == None && w.reader == Pumping
    case PutReply => w.reader.Handing? && w.reader.to in w.says
    case Break => w.reader == Pumping
    case ClearLive => w.reader == Broken || w.reader == Closing
    case Snapshot(order) => w.lock == None && w.reader.Cleared? && (forall t :: t in order <==> t in w.pending.Values)
    case FailOne => w.reader.Failing? && w.reader.left != [] && w.reader.left[0] in w.says
    case FailDone => w.reader.Failing? && w.reader.left == []
    case Adopt(c) => w.lock == None && w.reader == Offline && c !in w.used
    case GoLive => w.reader == Swapped
    case Greeted => w.reader == Greeting
    case Close => w.reader == Offline || w.reader == Swapped || w.reader == Greeting
  }

  function Do(w: World, x: Step): World
    requires Enabled(w, x)
  {
    match x
    case Begin(t) =>
      if w.closed then w.Set(t, Forward(Done(Refused), 0, 0, []))
      else w.Set(t, Forward(SawOpen, 0, 0, [])).(lock := Some(t))
    case LookLive(t) =>
      if w.live then w.Set(t, Forward(Checked, 0, 0, []))
      else w.Set(t, Forward(Done(Refused), 0, 0, [])).(lock := None)
    case Register(t) =>
      w.Set(t, Forward(Registered, w.issued + 1, w.conn, [])).(
        issued := w.issued + 1, pending := w.pending[w.issued + 1 := t], lock := None)
    case SendOk(t) => w.Set(t, w.says[t].(phase := Waiting))
    case SendFails(t) => w.Set(t, w.says[t].(phase := Leaving(SendFailed)))
    case Take(t) => w.Set(t, w.says[t].(phase := Leaving(FromSlot(w.says[t].slot[0]))))
    case GiveUp(t) => w.Set(t, w.says[t].(phase := Leaving(TimedOut)))
    case Leave(t) =>
      w.Set(t, w.says[t].(phase := Done(w.says[t].phase.answer))).(pending := w.pending - {w.says[t].seqNo})
    case ReadReply(q) => if q in w.pending then w.(reader := Handing(w.pending[q], q)) else w
    case PutReply => w.Put(w.reader.to, Reply(w.conn, w.reader.seqNo)).(reader := Pumping)
    case Break => w.(reader := Broken)
    case ClearLive => w.(live := false, reader := Cleared(w.reader == Closing))
    case Snapshot(order) => w.(reader := Failing(order, w.reader.last))
    case FailOne => w.Put(w.reader.left[0], HubGone).(reader := Failing(w.reader.left[1..], w.reader.last))
    case FailDone => w.(reader := if w.reader.last then Ended else Offline)
    case Adopt(c) => w.(conn := c, used := w.used + {c}, reader := Swapped)
    case GoLive => w.(live := true, reader := Greeting)
    case Greeted => w.(reader := Pumping)
    case Close => w.(closed := true, reader := Closing)
  }

  function Start(conn: Conn): World {
    World(map[], map[], 0, conn, true, false, None, Pumping, {conn})
  }

  // ------------------------------------------------------------------ the invariant

  /** The reader has not yet taken the snapshot for the current connection. */
  predicate BeforeSnapshot(r: Reader) {
    r.Greeting? || r.Pumping? || r.Handing? || r.Broken? || r.Closing? || r.Cleared?
  }

  /** Every unfinished say sits in the table under its own seq, and only those do. */
  predicate Tabled(w: World) {
    && (forall q :: q in w.pending ==>
          w.pending[q] in w.says && w.says[w.pending[q]].Active() && w.says[w.pending[q]].seqNo == q)
    && (forall t :: t in w.says && w.says[t].Active() ==>
          w.says[t].seqNo in w.pending && w.pending[w.says[t].seqNo] == t)
  }

  /** A seq is issued once. */
  predicate Issued(w: World) {
    && (forall t :: t in w.says ==> w.says[t].seqNo <= w.issued && (w.says[t].Active() ==> w.says[t].seqNo > 0))
    && (forall t :: t in w.says && w.says[t].Inside() ==> w.says[t].seqNo == 0)
    && (forall t, u :: t in w.says && u in w.says && t != u && w.says[t].seqNo > 0 ==>
       w.says[t].seqNo != w.says[u].seqNo)
  }

  /** Who is inside the lock holds it, and nobody who has seen the stream live is overtaken. */
  predicate Held(w: World) {
    && (forall t :: t in w.says ==> (w.says[t].Inside() <==> w.lock == Some(t)))
    && (w.lock.Some? ==> w.lock.value in w.says)
    && (forall t :: t in w.says && w.says[t].phase == Checked ==> BeforeSnapshot(w.reader))
  }

  /** The reader has set `closed`: before, during or after its last `_fail_pending`. */
  predicate Quits(r: Reader) {
    r.Closing? || r.Ended? || ((r.Cleared? || r.Failing?) && r.last)
  }

  /** What the two events say about the reader. */
  predicate Timed(w: World) {
    && (w.live ==> BeforeSnapshot(w.reader) && !w.reader.Cleared?)
    && (w.closed <==> Quits(w.reader))
  }

  predicate Locked(w: World) {
    Held(w) && Timed(w)
  }

  /** What may lie in the slot of a say: replies with its own seq; and what lies there first
      was read on its own connection. */
  predicate Own(f: Forward) {
    && (forall i :: 0 <= i < |f.slot| ==> f.slot[i].Reply? ==> f.slot[i].seqNo == f.seqNo && f.seqNo > 0)
    && (f.slot != [] && f.slot[0].Reply? ==> f.slot[0].conn == f.conn)
    && ((f.phase.Leaving? || f.phase.Done?) && f.phase.answer.FromSlot? ==>
       f.slot != [] && f.phase.answer.item == f.slot[0])
  }

  predicate Slots(w: World) {
    && (forall t :: t in w.says ==> Own(w.says[t]))
    && (w.reader.Handing? ==>
          && w.reader.to in w.says && w.says[w.reader.to].seqNo == w.reader.seqNo && w.reader.seqNo > 0
          && (w.says[w.reader.to].slot == [] ==> w.says[w.reader.to].conn == w.conn))
  }

  /** An unfinished say has something in its slot, or will before `_fail_pending` returns. */
  predicate Covered(w: World, t: Thread)
    requires t in w.says
  {
    || w.says[t].slot != []
    || (w.says[t].conn == w.conn && BeforeSnapshot(w.reader))
    || (w.reader.Failing? && t in w.reader.left)
  }

  predicate AllCovered(w: World) {
    && (forall t :: t in w.says && w.says[t].Active() ==> Covered(w, t))
    && (w.reader.Failing? ==> forall t :: t in w.reader.left ==> t in w.says)
  }

  /** The says of earlier connections have something in their slots already. */
  predicate Settled(w: World) {
    forall t :: t in w.says && w.says[t].Active() && w.says[t].conn != w.conn ==> w.says[t].slot != []
  }

  predicate Inv(w: World) {
    Tabled(w) && Issued(w) && Locked(w) && Slots(w) && AllCovered(w) && Settled(w)
  }

  lemma StartInv(conn: Conn)
    ensures Inv(Start(conn))
  {
  }

  /** A say moves on, or something is put into its slot. */
  lemma SetKeeps(w: World, t: Thread, f: Forward)
    requires Tabled(w) && Issued(w) && t in w.says
    requires f.seqNo == w.says[t].seqNo && f.Active() == w.says[t].Active() && !f.Inside()
    ensures Tabled(w.Set(t, f)) && Issued(w.Set(t, f))
  {
  }

  predicate SameTable(w: World, v: World) {
    v.says == w.says && v.pending == w.pending && v.issued == w.issued
  }

  lemma TableKeeps(w: World, v: World)
    requires Tabled(w) && Issued(w) && SameTable(w, v)
    ensures Tabled(v) && Issued(v)
  {
  }

  lemma BeginKeeps(w: World, t: Thread, f: Forward)
    requires Tabled(w) && Issued(w) && (t in w.says ==> w.says[t].Inside()) && !f.Active() && f.seqNo == 0
    ensures Tabled(w.Set(t, f)) && Issued(w.Set(t, f))
  {
  }

  lemma RegisterKeeps(w: World, t: Thread, f: Forward)
    requires Tabled(w) && Issued(w) && t in w.says && w.says[t].phase == Checked
    requires f.phase == Registered && f.seqNo == w.issued + 1
    ensures var v := w.Set(t, f).(issued := w.issued + 1, pending := w.pending[w.issued + 1 := t], lock := None);
            Tabled(v) && Issued(v)
  {
    RegisterTabled(w, t, f);
    hide Tabled;
  }

  lemma RegisterTabled(w: World, t: Thread, f: Forward)
    requires Tabled(w) && Issued(w) && t in w.says && w.says[t].phase == Checked
    requires f.phase == Registered && f.seqNo == w.issued + 1
    ensures Tabled(w.Set(t, f).(issued := w.issued + 1, pending := w.pending[w.issued + 1 := t], lock := None))
  {
  }

  lemma LeaveKeeps(w: World, t: Thread, f: Forward)
    requires Tabled(w) && Issued(w) && t in w.says && w.says[t].Active()
    requires f.seqNo == w.says[t].seqNo && !f.Active() && !f.Inside()
    ensures var v := w.Set(t, f).(pending := w.pending - {f.seqNo});
            Tabled(v) && Issued(v)
  {
  }

  lemma TableKept(w: World, x: Step)
    requires Inv(w) && Enabled(w, x)
    ensures Tabled(Do(w, x)) && Issued(Do(w, x))
  {
    hide Inv, Enabled, Do, Tabled, Issued;
    if OfThread(x) {
      ThreadTable(w, x);
    } else {
      ReaderTable(w, x);
    }
  }

  lemma ReaderTable(w: World, x: Step)
    requires Inv(w) && Enabled(w, x) && !OfThread(x)
    ensures Tabled(Do(w, x)) && Issued(Do(w, x))
  {
    hide Slots, AllCovered, Tabled, Issued, Locked, Settled;
    if x.PutReply? {
      PutKeeps(w, w.reader.to, Reply(w.conn, w.reader.seqNo), Pumping);
    } else if x.FailOne? {
      PutKeeps(w, w.reader.left[0], HubGone, Failing(w.reader.left[1..], w.reader.last));
    } else {
      TableKeeps(w, Do(w, x));
    }
  }

  lemma ThreadTable(w: World, x: Step)
    requires Inv(w) && Enabled(w, x) && OfThread(x)
    ensures Tabled(Do(w, x)) && Issued(Do(w, x))
  {
    hide Slots, AllCovered, Tabled, Issued, Settled;
    match x
    case Begin(t) =>
      BeginKeeps(w, t, Forward(Done(Refused), 0, 0, []));
      BeginKeeps(w, t, Forward(SawOpen, 0, 0, []));
      TableKeeps(w.Set(t, Forward(SawOpen, 0, 0, [])), w.Set(t, Forward(SawOpen, 0, 0, [])).(lock := Some(t)));
    case LookLive(t) =>
      BeginKeeps(w, t, Forward(Done(Refused), 0, 0, []));
      BeginKeeps(w, t, Forward(Checked, 0, 0, []));
      var v := w.Set(t, Forward(Done(Refused), 0, 0, []));
      TableKeeps(v, v.(lock := None));
    case Register(t) => RegisterKeeps(w, t, Forward(Registered, w.issued + 1, w.conn, []));
    case SendOk(t) => SetKeeps(w, t, w.says[t].(phase := Waiting));
    case SendFails(t) => SetKeeps(w, t, w.says[t].(phase := Leaving(SendFailed)));
    case Take(t) => SetKeeps(w, t, w.says[t].(phase := Leaving(FromSlot(w.says[t].slot[0]))));
    case GiveUp(t) => SetKeeps(w, t, w.says[t].(phase := Leaving(TimedOut)));
    case Leave(t) => LeaveKeeps(w, t, w.says[t].(phase := Done(w.says[t].phase.answer)));
    case _ =>
  }

  lemma PutKeeps(w: World, t: Thread, item: Item, r: Reader)
    requires Tabled(w) && Issued(w) && t in w.says
    ensures Tabled(w.Put(t, item).(reader := r)) && Issued(w.Put(t, item).(reader := r))
  {
    PutTabled(w, t, item, r);
    PutIssued(w, t, item, r);
    hide Tabled, Issued;
  }

  lemma PutTabled(w: World, t: Thread, item: Item, r: Reader)
    requires Tabled(w) && t in w.says
    ensures Tabled(w.Put(t, item).(reader := r))
  {
  }

  lemma PutIssued(w: World, t: Thread, item: Item, r: Reader)
    requires Issued(w) && t in w.says
    ensures Issued(w.Put(t, item).(reader := r))
  {
  }

  lemma LockedKept(w: World, x: Step)
    requires Inv(w) && Enabled(w, x)
    ensures Locked(Do(w, x))
  {
    hide Slots, AllCovered, Tabled, Issued, Settled, Held, Timed;
    HeldKept(w, x);
    TimedKept(w, x);
  }

  lemma HeldKept(w: World, x: Step)
    requires Inv(w) && Enabled(w, x)
    ensures Held(Do(w, x))
  {
    hide Slots, AllCovered, Tabled, Issued, Settled, Held;
    if OfThread(x) {
      ThreadHeld(w, x);
    } else {
      ReaderHeld(w, x);
    }
  }

  lemma ThreadHeld(w: World, x: Step)
    requires Inv(w) && Enabled(w, x) && OfThread(x)
    ensures Held(Do(w, x))
  {
    hide Slots, AllCovered, Tabled, Issued, Settled;
    var t := Do(w, x);
    assert t.reader == w.reader || x.ReadReply?;
  }

  lemma ReaderHeld(w: World, x: Step)
    requires Inv(w) && Enabled(w, x) && !OfThread(x)
    ensures Held(Do(w, x))
  {
    hide Slots, AllCovered, Tabled, Issued, Settled;
    var v := Do(w, x);
    assert v.lock == w.lock && v.says.Keys == w.says.Keys;
    assert forall t :: t in w.says ==> v.says[t].phase == w.says[t].phase;
  }

  lemma TimedKept(w: World, x: Step)
    requires Inv(w) && Enabled(w, x)
    ensures Timed(Do(w, x))
  {
    hide Slots, AllCovered, Tabled, Issued, Settled, Held;
  }

  /** A say is replaced by one whose slot is in order. */
  lemma SetSlots(w: World, t: Thread, f: Forward)
    requires Slots(w) && Own(f)
    requires w.reader.Handing? && w.reader.to == t ==>
               f.seqNo == w.reader.seqNo && (f.slot == [] ==> f.conn == w.conn)
    ensures Slots(w.Set(t, f))
  {
  }

  /** The events, the lock and the table may change, and the reader move on. */
  lemma ReaderSlots(w: World, v: World)
    requires Slots(w) && v.says == w.says
    requires v.reader.Handing? ==>
               && v.reader.to in v.says && v.says[v.reader.to].seqNo == v.reader.seqNo && v.reader.seqNo > 0
               && (v.says[v.reader.to].slot == [] ==> v.says[v.reader.to].conn == v.conn)
    ensures Slots(v)
  {
  }

  lemma PutOwn(f: Forward, item: Item)
    requires Own(f) && (item.Reply? ==> item.seqNo == f.seqNo && f.seqNo > 0 && (f.slot == [] ==> item.conn == f.conn))
    ensures Own(f.(slot := f.slot + [item]))
  {
  }

  lemma ReplySlots(w: World)
    requires Slots(w) && w.reader.Handing?
    ensures w.reader.to in w.says && Slots(Do(w, PutReply))
  {
    var t, item := w.reader.to, Reply(w.conn, w.reader.seqNo);
    PutOwn(w.says[t], item);
    SetSlots(w, t, w.says[t].(slot := w.says[t].slot + [item]));
    ReaderSlots(w.Put(t, item), w.Put(t, item).(reader := Pumping));
  }

  lemma FailSlots(w: World)
    requires Slots(w) && Enabled(w, FailOne)
    ensures Slots(Do(w, FailOne))
  {
    var t := w.reader.left[0];
    PutOwn(w.says[t], HubGone);
    SetSlots(w, t, w.says[t].(slot := w.says[t].slot + [HubGone]));
    ReaderSlots(w.Put(t, HubGone), Do(w, FailOne));
  }

  /** The say a frame belongs to has something in its slot, or is of the current connection. */
  lemma LookupSlots(w: World, q: nat)
    requires Inv(w) && Enabled(w, ReadReply(q))
    ensures Slots(Do(w, ReadReply(q)))
  {
    hide Slots, AllCovered, Locked;
    if q in w.pending {
      ReaderSlots(w, w.(reader := Handing(w.pending[q], q)));
    }
  }

  /** Nobody outside the table is being handed anything. */
  lemma ReaderIsElsewhere(w: World, t: Thread)
    requires Slots(w) && Issued(w) && (t in w.says ==> w.says[t].Inside())
    ensures w.reader.Handing? ==> w.reader.to != t
  {
  }

  lemma NewSlots(w: World, t: Thread, f: Forward, v: World)
    requires Slots(w) && Issued(w) && (t in w.says ==> w.says[t].Inside())
    requires f.slot == [] && !f.phase.Leaving? && (f.phase.Done? ==> f.phase.answer.Refused?)
    requires v.says == w.says[t := f] && v.reader == w.reader && v.conn == w.conn
    ensures Slots(v)
  {
    hide Slots, Issued;
    ReaderIsElsewhere(w, t);
    SetSlots(w, t, f);
    SlotsHand(w.Set(t, f));
    ReaderSlots(w.Set(t, f), v);
  }

  lemma SlotsHand(w: World)
    requires Slots(w)
    ensures w.reader.Handing? ==>
              && w.reader.to in w.says && w.says[w.reader.to].seqNo == w.reader.seqNo && w.reader.seqNo > 0
              && (w.says[w.reader.to].slot == [] ==> w.says[w.reader.to].conn == w.conn)
    ensures forall t :: t in w.says ==> Own(w.says[t])
  {
  }

  /** A say moves on with its slot as it is. */
  lemma MoveSlots(w: World, t: Thread, p: Phase, v: World)
    requires Slots(w) && t in w.says && Own(w.says[t].(phase := p))
    requires v.says == w.says[t := w.says[t].(phase := p)] && v.reader == w.reader && v.conn == w.conn
    ensures Slots(v)
  {
    hide Slots, Own;
    SlotsHand(w);
    SetSlots(w, t, w.says[t].(phase := p));
    SlotsHand(w.Set(t, w.says[t].(phase := p)));
    ReaderSlots(w.Set(t, w.says[t].(phase := p)), v);
  }

  lemma PhaseOwn(w: World, t: Thread)
    requires Slots(w) && t in w.says
    ensures Own(w.says[t].(phase := Waiting)) && Own(w.says[t].(phase := Leaving(SendFailed)))
    ensures Own(w.says[t].(phase := Leaving(TimedOut)))
    ensures w.says[t].slot != [] ==> Own(w.says[t].(phase := Leaving(FromSlot(w.says[t].slot[0]))))
    ensures w.says[t].phase.Leaving? ==> Own(w.says[t].(phase := Done(w.says[t].phase.answer)))
  {
    SlotsHand(w);
  }

  lemma SlotsKept(w: World, x: Step)
    requires Inv(w) && Enabled(w, x)
    ensures Slots(Do(w, x))
  {
    hide AllCovered, Locked, Tabled, Issued, Settled, Slots, Own;
    if x.Break? || x.ClearLive? || x.Snapshot? || x.FailDone? || x.Adopt? || x.GoLive? || x.Greeted? || x.Close? {
      ReaderSlots(w, Do(w, x));
    }
    match x
    case Begin(t) =>
      NewSlots(w, t, if w.closed then Forward(Done(Refused), 0, 0, []) else Forward(SawOpen, 0, 0, []), Do(w, x));
    case LookLive(t) =>
      NewSlots(w, t, if w.live then Forward(Checked, 0, 0, []) else Forward(Done(Refused), 0, 0, []), Do(w, x));
    case Register(t) => NewSlots(w, t, Forward(Registered, w.issued + 1, w.conn, []), Do(w, x));
    case SendOk(t) =>
      PhaseOwn(w, t);
      MoveSlots(w, t, Waiting, Do(w, x));
    case SendFails(t) =>
      PhaseOwn(w, t);
      MoveSlots(w, t, Leaving(SendFailed), Do(w, x));
    case Take(t) =>
      PhaseOwn(w, t);
      MoveSlots(w, t, Leaving(FromSlot(w.says[t].slot[0])), Do(w, x));
    case GiveUp(t) =>
      PhaseOwn(w, t);
      MoveSlots(w, t, Leaving(TimedOut), Do(w, x));
    case Leave(t) =>
      PhaseOwn(w, t);
      MoveSlots(w, t, Done(w.says[t].phase.answer), Do(w, x));
    case ReadReply(q) => LookupSlots(w, q);
    case PutReply => ReplySlots(w);
    case FailOne => FailSlots(w);
    case _ =>
  }

  /** The steps of the ctl threads. */
  predicate OfThread(x: Step) {
    || x.Begin? || x.LookLive? || x.Register? || x.SendOk? || x.SendFails? || x.Take? || x.GiveUp? || x.Leave?
  }

  lemma CoveredKept(w: World, x: Step)
    requires Inv(w) && Enabled(w, x)
    ensures AllCovered(Do(w, x))
  {
    hide Inv, Enabled, Do, AllCovered;
    if OfThread(x) {
      ThreadCovered(w, x);
    } else {
      ReaderCovered(w, x);
    }
  }

  lemma ThreadCovered(w: World, x: Step)
    requires Inv(w) && Enabled(w, x) && OfThread(x)
    ensures AllCovered(Do(w, x))
  {
    hide Slots, Issued, Settled, Timed, Tabled;
  }

  lemma ReaderCovered(w: World, x: Step)
    requires Inv(w) && Enabled(w, x) && !OfThread(x)
    ensures AllCovered(Do(w, x))
  {
    hide Slots, Issued, Settled, Timed, Held;
  }

  lemma SettledKept(w: World, x: Step)
    requires Inv(w) && Enabled(w, x)
    ensures Settled(Do(w, x))
  {
    hide Inv, Enabled, Do, Settled;
    if OfThread(x) {
      ThreadSettled(w, x);
    } else {
      ReaderSettled(w, x);
    }
  }

  lemma ThreadSettled(w: World, x: Step)
    requires Inv(w) && Enabled(w, x) && OfThread(x)
    ensures Settled(Do(w, x))
  {
    hide Slots, Issued, Tabled, AllCovered, Locked;
  }

  lemma ReaderSettled(w: World, x: Step)
    requires Inv(w) && Enabled(w, x) && !OfThread(x)
    ensures Settled(Do(w, x))
  {
    hide Slots, Issued, Tabled, Locked;
    if x.Adopt? {
      assert forall t :: t in w.says && w.says[t].Active() ==> Covered(w, t);
    }
  }

  /** Every step, of whichever thread, keeps the invariant. */
  lemma StepKeeps(w: World, x: Step)
    requires Inv(w) && Enabled(w, x)
    ensures Inv(Do(w, x))
  {
    hide Tabled, Issued, Locked, Slots, AllCovered, Settled;
    TableKept(w, x);
    LockedKept(w, x);
    SlotsKept(w, x);
    CoveredKept(w, x);
    SettledKept(w, x);
  }

  /** An interleaving: every step was possible when it was taken. */
  ghost predicate Possible(w: World, steps: seq<Step>)
    decreases steps
  {
    steps == [] || (Enabled(w, steps[0]) && Possible(Do(w, steps[0]), steps[1..]))
  }

  ghost function DoAll(w: World, steps: seq<Step>): World
    requires Possible(w, steps)
    decreases steps
  {
    if steps == [] then w else DoAll(Do(w, steps[0]), steps[1..])
  }

  lemma {:induction false} AllKeep(w: World, steps: seq<Step>)
    requires Inv(w) && Possible(w, steps)
    ensures Inv(DoAll(w, steps))
    decreases steps
  {
    hide Inv, Do;
    if steps != [] {
      StepKeeps(w, steps[0]);
      AllKeep(Do(w, steps[0]), steps[1..]);
    }
  }

  // ------------------------------------------------------------------ the guarantees

  /** Whatever the interleaving, however often the stream rejoins, and whatever the hub sends:
      the answer a say takes from its slot is a frame with its own seq, read on the connection
      it was registered on, or the local refusal. */
  lemma AnswersAreOwn(conn: Conn, steps: seq<Step>, t: Thread)
    requires Possible(Start(conn), steps)
    ensures var w := DoAll(Start(conn), steps);
            t in w.says && w.says[t].phase.Done? && w.says[t].phase.answer.FromSlot? ==>
              var f := w.says[t];
              f.phase.answer.item == HubGone || f.phase.answer.item == Reply(f.conn, f.seqNo)
  {
    hide Inv, Possible, DoAll;
    StartInv(conn);
    AllKeep(Start(conn), steps);
    InvSlots(DoAll(Start(conn), steps));
  }

  lemma InvSlots(w: World)
    ensures Inv(w) ==> Slots(w)
  {
  }

  /** No frame of the hub ends up with two says. */
  lemma RepliesAreUnshared(conn: Conn, steps: seq<Step>, t: Thread, u: Thread, i: nat, j: nat)
    requires Possible(Start(conn), steps)
    requires var w := DoAll(Start(conn), steps);
             && t in w.says && u in w.says && t != u && i < |w.says[t].slot| && j < |w.says[u].slot|
             && w.says[t].slot[i].Reply?
    ensures var w := DoAll(Start(conn), steps);
            w.says[t].slot[i] != w.says[u].slot[j]
  {
    hide Possible, DoAll, Tabled, Locked, AllCovered, Settled;
    StartInv(conn);
    AllKeep(Start(conn), steps);
    var w := DoAll(Start(conn), steps);
    assert Own(w.says[t]) && Own(w.says[u]);
  }

  /** `_fail_pending` has returned for a connection: it is not the current one any more, or
      the reader is past it. */
  predicate PumpOver(w: World, c: Conn) {
    c != w.conn || w.reader.Offline? || w.reader.Swapped? || w.reader.Ended?
  }

  /** Nobody is left hanging: once `_fail_pending` has returned for the connection a say was
      registered on, that say has finished or has something in its slot to take. */
  lemma NobodyHangs(conn: Conn, steps: seq<Step>, t: Thread)
    requires Possible(Start(conn), steps)
    ensures var w := DoAll(Start(conn), steps);
            t in w.says && w.says[t].Active() && PumpOver(w, w.says[t].conn) ==> w.says[t].slot != []
  {
    hide Possible, DoAll, Tabled, Issued, Locked, Slots;
    StartInv(conn);
    AllKeep(Start(conn), steps);
    var w := DoAll(Start(conn), steps);
    if t in w.says && w.says[t].Active() {
      assert Covered(w, t);
    }
  }

  /** A say is refused without registering exactly if the reader has closed the stream when
      it looks, and if there is no connection when it looks again. */
  lemma OutageRefuses(conn: Conn, steps: seq<Step>, t: Thread)
    requires Possible(Start(conn), steps)
    ensures var w := DoAll(Start(conn), steps);
            && (Enabled(w, Begin(t)) ==> (Do(w, Begin(t)).says[t].phase == Done(Refused) <==> Quits(w.reader)))
            && (Enabled(w, LookLive(t)) && !(BeforeSnapshot(w.reader) && !w.reader.Cleared?) ==>
                  Do(w, LookLive(t)).says[t].phase == Done(Refused))
  {
    hide Possible, DoAll, Tabled, Issued, Slots, AllCovered, Settled;
    StartInv(conn);
    AllKeep(Start(conn), steps);
  }

  lemma HandingIsFiled(w: World)
    requires Inv(w) && w.reader.Handing?
    ensures w.reader.to in w.says && w.says[w.reader.to].seqNo > 0
  {
    hide Tabled, Issued, Locked, AllCovered;
  }

  lemma WaitersAreFiled(w: World)
    requires Inv(w)
    ensures forall t :: t in w.pending.Values ==> t in w.says && w.says[t].seqNo > 0
  {
    hide Locked, AllCovered, Slots;
  }

  lemma AllHaveItems(w: World)
    requires Inv(w) && w.reader.Failing? && w.reader.left == []
    ensures forall t :: t in w.says && w.says[t].Active() ==> w.says[t].slot != []
  {
    hide Tabled, Issued, Locked, Slots;
    forall t | t in w.says && w.says[t].Active()
      ensures w.says[t].slot != []
    {
      assert Covered(w, t);
    }
  }

  lemma FirstIsOwn(w: World, t: Thread)
    requires Inv(w) && t in w.says && w.says[t].slot != []
    ensures w.says[t].slot[0] == HubGone || w.says[t].slot[0] == Reply(w.says[t].conn, w.says[t].seqNo)
  {
    hide Tabled, Issued, Locked, AllCovered;
    assert Own(w.says[t]);
  }

  lemma ActiveIsFiled(w: World, t: Thread)
    requires Inv(w) && t in w.says && w.says[t].Active()
    ensures w.says[t].seqNo > 0 && w.says[t].seqNo in w.pending && w.pending[w.says[t].seqNo] == t
  {
    hide Locked, AllCovered, Slots;
  }

  lemma FreshSeq(w: World)
    requires Inv(w)
    ensures w.issued + 1 !in w.pending
  {
    hide Locked, AllCovered, Slots;
  }

  lemma FailingInSays(w: World)
    requires Inv(w) && w.reader.Failing?
    ensures forall t :: t in w.reader.left ==> t in w.says
  {
    hide Tabled, Issued, Locked, Slots;
  }

  // ------------------------------------------------------------------ the object

  /** The stream's own fields, written by the threads. The ghost world records, beside them,
      where every thread stands; each method is one atomic step of one thread. */
  class Stream {
    var conn: Conn
    var pending: map<nat, Thread>
    var seqNo: nat
    var live: bool
    var closed: bool
    var slots: map<Thread, seq<Item>>   // what has been put for each registered say
    ghost var world: World

    ghost predicate Valid()
      reads this
    {
      && Inv(world)
      && conn == world.conn && pending == world.pending && seqNo == world.issued
      && live == world.live && closed == world.closed
      && (forall t :: t in world.says && world.says[t].seqNo > 0 ==> t in slots && slots[t] == world.says[t].slot)
    }

    constructor (conn: Conn)
      ensures Valid() && world == Start(conn)
    {
      StartInv(conn);
      this.conn, pending, seqNo, live, closed, slots := conn, map[], 0, true, false, map[];
      world := Start(conn);
    }

    /** A ctl thread enters the lock and looks at `closed`; if it is set, it leaves the lock
        at once with the local refusal. */
    method BeginSay(t: Thread) returns (open: bool)
      requires Valid() && Enabled(world, Begin(t))
      modifies this
      ensures Valid() && world == Do(old(world), Begin(t))
      ensures open <==> world.says[t].phase == SawOpen
    {
      hide Inv;
      StepKeeps(world, Begin(t));
      open := !closed;
      world := Do(world, Begin(t));
    }

    /** Then at `live`. */
    method CheckLive(t: Thread) returns (admitted: bool)
      requires Valid() && Enabled(world, LookLive(t))
      modifies this
      ensures Valid() && world == Do(old(world), LookLive(t))
      ensures admitted <==> world.says[t].phase == Checked
    {
      hide Inv;
      StepKeeps(world, LookLive(t));
      admitted := live;
      world := Do(world, LookLive(t));
    }

    /** Still inside the lock: a fresh seq, a fresh slot, and the connection of the moment. */
    method RegisterSay(t: Thread) returns (q: nat, c: Conn)
      requires Valid() && Enabled(world, Register(t))
      modifies this
      ensures Valid() && world == Do(old(world), Register(t))
      ensures q == world.says[t].seqNo && c == world.says[t].conn && q !in old(pending)
    {
      hide Inv;
      StepKeeps(world, Register(t));
      FreshSeq(world);
      seqNo := seqNo + 1;
      q, c := seqNo, conn;
      pending := pending[q := t];
      slots := slots[t := []];
      world := Do(world, Register(t));
    }

    /** The wait at the slot is over: what lies in it first is the answer. */
    method TakeAnswer(t: Thread) returns (item: Item)
      requires Valid() && Enabled(world, Take(t))
      modifies this
      ensures Valid() && world == Do(old(world), Take(t))
      ensures item == HubGone || item == Reply(old(world).says[t].conn, old(world).says[t].seqNo)
    {
      hide Inv;
      StepKeeps(world, Take(t));
      ActiveIsFiled(world, t);
      FirstIsOwn(world, t);
      item := slots[t][0];
      world := Do(world, Take(t));
    }

    method LeaveTable(t: Thread, q: nat)
      requires Valid() && Enabled(world, Leave(t)) && q == world.says[t].seqNo
      modifies this
      ensures Valid() && world == Do(old(world), Leave(t))
    {
      hide Inv;
      StepKeeps(world, Leave(t));
      pending := pending - {q};
      world := Do(world, Leave(t));
    }

    /** The reader has a frame with a seq: whose is it? */
    method LookUp(q: nat) returns (to: Option<Thread>)
      requires Valid() && Enabled(world, ReadReply(q))
      modifies this
      ensures Valid() && world == Do(old(world), ReadReply(q))
      ensures to == if q in pending then Some(pending[q]) else None
    {
      hide Inv;
      StepKeeps(world, ReadReply(q));
      to := if q in pending then Some(pending[q]) else None;
      world := Do(world, ReadReply(q));
    }

    method HandOver(to: Thread, q: nat)
      requires Valid() && world.reader == Handing(to, q) && Enabled(world, PutReply)
      modifies this
      ensures Valid() && world == Do(old(world), PutReply)
    {
      hide Inv;
      StepKeeps(world, PutReply);
      HandingIsFiled(world);
      slots := slots[to := slots[to] + [Reply(conn, q)]];
      world := Do(world, PutReply);
    }

    method ClearLiveEvent()
      requires Valid() && Enabled(world, ClearLive)
      modifies this
      ensures Valid() && world == Do(old(world), ClearLive)
    {
      hide Inv;
      StepKeeps(world, ClearLive);
      live := false;
      world := Do(world, ClearLive);
    }

    /** One put of `_fail_pending`. */
    method FailSlot(t: Thread)
      requires Valid() && world.reader.Failing? && world.reader.left != [] && world.reader.left[0] == t
      requires t in world.says && world.says[t].seqNo > 0
      modifies this`slots, this`world
      ensures Valid() && old(Enabled(world, FailOne)) && world == Do(old(world), FailOne)
      ensures world.reader == Failing(old(world).reader.left[1..], old(world).reader.last)
      ensures forall u :: u in old(world).says ==> u in world.says && world.says[u].seqNo == old(world).says[u].seqNo
    {
      hide Inv;
      FailingInSays(world);
      StepKeeps(world, FailOne);
      slots := slots[t := slots[t] + [HubGone]];
      world := Do(world, FailOne);
    }

    /** `_fail_pending`: a snapshot under the lock, then one put after another without it.
        Here it runs undisturbed; the step relation above lets the ctl threads in between. */
    method FailPending(waiting: seq<Thread>)
      requires Valid() && Enabled(world, Snapshot(waiting))
      modifies this`slots, this`world
      ensures Valid() && world.reader == (if old(world).reader.last then Ended else Offline)
      ensures forall t :: t in world.says && world.says[t].Active() ==> world.says[t].slot != []
    {
      hide Inv, Do;
      ghost var last := world.reader.last;
      TakeSnapshot(waiting);
      var left := waiting;
      while left != []
        invariant Valid() && world.reader == Failing(left, last)
        invariant forall t :: t in left ==> t in world.says && world.says[t].seqNo > 0
        decreases |left|
      {
        FailSlot(left[0]);
        left := left[1..];
      }
      FinishFailing();
    }

    method TakeSnapshot(waiting: seq<Thread>)
      requires Valid() && Enabled(world, Snapshot(waiting))
      modifies this`world
      ensures Valid() && world == Do(old(world), Snapshot(waiting))
                && world.reader == Failing(waiting, old(world).reader.last)
      ensures forall t :: t in waiting ==> t in world.says && world.says[t].seqNo > 0
    {
      hide Inv;
      StepKeeps(world, Snapshot(waiting));
      WaitersAreFiled(world);
      world := Do(world, Snapshot(waiting));
    }

    method FinishFailing()
      requires Valid() && world.reader.Failing? && world.reader.left == []
      modifies this`world
      ensures Valid() && world.reader == (if old(world).reader.last then Ended else Offline)
      ensures forall t :: t in world.says && world.says[t].Active() ==> world.says[t].slot != []
    {
      hide Inv;
      AllHaveItems(world);
      StepKeeps(world, FailDone);
      world := Do(world, FailDone);
    }

    method AdoptConn(c: Conn)
      requires Valid() && Enabled(world, Adopt(c))
      modifies this
      ensures Valid() && world == Do(old(world), Adopt(c))
    {
      hide Inv;
      StepKeeps(world, Adopt(c));
      conn := c;
      world := Do(world, Adopt(c));
    }

    method SetLiveEvent()
      requires Valid() && Enabled(world, GoLive)
      modifies this
      ensures Valid() && world == Do(old(world), GoLive)
    {
      hide Inv;
      StepKeeps(world, GoLive);
      live := true;
      world := Do(world, GoLive);
    }

    method BeginPumping()
      requires Valid() && Enabled(world, Greeted)
      modifies this`world
      ensures Valid() && world == Do(old(world), Greeted)
    {
      hide Inv;
      StepKeeps(world, Greeted);
      world := Do(world, Greeted);
    }

    method CloseDown()
      requires Valid() && Enabled(world, Close)
      modifies this
      ensures Valid() && world == Do(old(world), Close)
    {
      hide Inv;
      StepKeeps(world, Close);
      closed := true;
      world := Do(world, Close);
    }
  }
}
