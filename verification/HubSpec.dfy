/** What one inbound frame, one lost connection or one watchdog tick does to the hub, as
    functions of the state (src/moot/core/hub.py:116-1000). Loops over the participants run
    over their names in joining order; a name of the order always has a registration. */
module HubSpec {
  import opened Types
  import opened Mailbox
  import opened HubState
  import Bucket
  import Dedup
  import Names

  // ------------------------------------------------------------------ sending

  /** Any send may meet a failed transport; a connection never comes back. */
  function Send(e: Env, s: State, c: ConnId): State {
    s.(gone := if e.fails(s.sent) then s.gone + {c} else s.gone, sent := s.sent + 1)
  }

  function Answer(e: Env, s: State, c: ConnId, r: Reply): State {
    Send(e, s, c).Noting(Replied(c, r))
  }

  function EmitTo(e: Env, s: State, names: seq<Name>, skip: Option<Name>): State
    decreases names
  {
    if names == [] then s
    else
      var n := names[0];
      var t := if n in s.regs && s.regs[n].IsObserver() && skip != Some(n) && s.Connected(n)
               then Send(e, s, s.regs[n].client) else s;
      EmitTo(e, t, names[1..], skip)
  }

  /** An event goes to the connected observers, then to the transcript. */
  function Emit(e: Env, s: State, ev: Event, skip: Option<Name>): State {
    EmitTo(e, s, s.order, skip).Noting(Happened(ev))
  }

  // ------------------------------------------------------------------ delivery

  /** One deliver frame. `drawn` says that the batch came out of the recipient's mailbox;
      observers also get copies that never entered one. */
  function Deliver(e: Env, s: State, n: Name, batch: seq<Msg>, drawn: bool, cause: Cause): State
    requires n in s.regs
  {
    var p := s.regs[n];
    var t := Send(e, s, p.client).Noting(Delivered(n, !p.IsObserver(), cause, s.round, SortById(batch)));
    var box := if drawn then Hand(p.box, !p.IsObserver(), batch) else p.box;
    if p.IsObserver() then t.Put(n, p.(box := box))
    else t.Put(n, p.(box := box, state := Busy, busySince := s.clock.mono)).Touch()
  }

  /** There are agents, all have declared themselves finished, and nothing waits for any. */
  predicate SessionComplete(s: State) {
    && (exists n :: n in s.order && s.IsAgent(n))
    && (forall n :: n in s.order && s.IsAgent(n) ==> s.regs[n].finished && s.regs[n].box.queue == [])
  }

  function ClearFinished(s: State): State {
    s.(regs := map n | n in s.regs :: if s.IsAgent(n) then s.regs[n].(finished := false) else s.regs[n])
  }

  function CheckSessionDone(e: Env, s: State): State {
    if SessionComplete(s) then ClearFinished(Emit(e, s, SessionDone(s.round), None).(round := 0))
    else s
  }

  predicate Attended(s: State) {
    exists n :: n in s.order && s.IsObserverName(n)
  }

  function CheckRoundLimit(e: Env, s: State): State {
    if s.round >= s.maxRounds && !s.frozen then
      var t := Emit(e, s.(frozen := true), RoundLimit(s.round), None);
      if Attended(t) then t else t.Noting(Happened(FreezeWithoutObserver))
    else s
  }

  /** Whether a wake slice holds more than the hub's own notes. */
  predicate Counts(wake: seq<Msg>) {
    exists i :: 0 <= i < |wake| && wake[i].sender != SYSTEM_SENDER
  }

  /** The idle transition of a registration with a pending queue. */
  function FlushQueue(e: Env, s: State, n: Name): State
    requires n in s.regs
  {
    var p := s.regs[n];
    if p.box.queue == [] || !s.Connected(n) then s
    else
      var batch := SliceBatch(e.cfg, n, p.box);
      var t := s.Put(n, p.(box := AfterSlice(e.cfg, n, p.box)));
      if Counts(WakeSlice(e.cfg, n, p.box)) then
        CheckSessionDone(e, CheckRoundLimit(e, Deliver(e, t.(round := t.round + 1), n, batch, true, ByFlush)))
      else
        CheckSessionDone(e, Deliver(e, t, n, batch, true, ByFlush))
  }

  /** The recipient of a wake that goes out at once, one that goes to the queue, and a line
      that is only overheard. */
  function Woken(p: Part, m: Msg): Part {
    p.(box := AfterWake(p.box, m))
  }

  function Queued(e: Env, p: Part, m: Msg): Part {
    p.(box := Enqueue(e.cfg, p.box, m))
  }

  function Buffered(e: Env, p: Part, m: Msg): Part {
    p.(box := Overhear(e.cfg, p.box, m))
  }

  predicate Wakeable(s: State, n: Name)
    requires n in s.regs
  {
    s.regs[n].state == Idle && s.Connected(n)
  }

  function SystemNote(s: State, n: Name, text: Text): Msg {
    Msg(s.msgCounter + 1, SYSTEM_SENDER, n, "note", text, s.clock.wall, Direct, None, false)
  }

  /** One agent's copy of a note from the hub: a wake with an id of its own. */
  function SystemOne(e: Env, s: State, n: Name, text: Text): State
    requires n in s.regs
  {
    var p := s.regs[n];
    if p.IsObserver() then s
    else
      var m := SystemNote(s, n, text);
      var t := s.(msgCounter := s.msgCounter + 1);
      if Wakeable(s, n) then Deliver(e, t.Put(n, Woken(p, m)), n, WakeBatch(p.box, m), true, ByNote(m.id))
      else t.Put(n, Queued(e, p, m))
  }

  function SystemMessage(e: Env, s: State, names: seq<Name>, text: Text): State
    decreases names
  {
    if names == [] then s
    else
      var t := if names[0] in s.regs then SystemOne(e, s, names[0], text) else s;
      SystemMessage(e, t, names[1..], text)
  }

  // ------------------------------------------------------------------ lifecycle

  /** The registration a connection holds, if it is live and still held by it. */
  predicate Holds(s: State, c: ConnId) {
    c in s.names && s.Live(s.names[c]) && s.regs[s.names[c]].client == c
  }

  function Disconnect(e: Env, s: State, c: ConnId): State {
    var t :=
      if Holds(s, c) then
        var n := s.names[c];
        var left := s.(order := Without(s.order, n), blockedNotified := s.blockedNotified - {n}).Touch();
        CheckSessionDone(e, Emit(e, left, PeerLeft(n), None))
      else s;
    t.(gone := t.gone + {c})
  }

  // ------------------------------------------------------------------ hello

  function Addressed(n: Name, to: Name): Addressing {
    if to == n then Direct else if to == EVERYONE then Broadcast else Overheard
  }

  function FromRecord(r: Rec): Msg {
    Msg(r.id, r.sender, r.to, r.kind, r.text, r.ts, Untagged, None, r.private)
  }

  /** The records a joiner may see: a private one only if it was addressed to it. */
  function Visible(recent: seq<Rec>, n: Name, observer: bool): seq<Rec> {
    if recent == [] then []
    else
      var r := recent[|recent| - 1];
      Visible(recent[..|recent| - 1], n, observer) + (if observer || !r.private || r.to == n then [r] else [])
  }

  function NotFrom(recs: seq<Rec>, n: Name): seq<Msg> {
    if recs == [] then []
    else
      var r := recs[|recs| - 1];
      NotFrom(recs[..|recs| - 1], n) + (if r.sender != n then [FromRecord(r)] else [])
  }

  function Backlog(cfg: Config, recent: seq<Rec>, n: Name, observer: bool): seq<Msg> {
    NotFrom(Last(Visible(recent, n, observer), cfg.backlogOnJoin), n)
  }

  function Tagged(msgs: seq<Msg>, n: Name): seq<Msg> {
    seq(|msgs|, i requires 0 <= i < |msgs| => msgs[i].Tag(Addressed(n, msgs[i].to)))
  }

  function OverhearAll(cfg: Config, b: Box, msgs: seq<Msg>): Box
    decreases msgs
  {
    if msgs == [] then b else OverhearAll(cfg, Overhear(cfg, b, msgs[0].Tag(Overheard)), msgs[1..])
  }

  function FreshPart(e: Env, s: State, n: Name, kind: string, caps: set<string>, c: ConnId): Part {
    Part(n, kind, caps, c, EMPTY_BOX, Bucket.Tokens(e.cfg.rateBurst as real, s.clock.mono), map[], [],
         Idle, false, s.clock.mono, 0.0, 0.0, None, None, false, 0.0, |AgentLog(s.log)|)
  }

  /** A dead registration taken over by a new connection; queue, context, bucket and
      duplicate window are inherited. */
  function Reclaimed(s: State, p: Part, kind: string, caps: set<string>, c: ConnId): Part {
    p.(client := c, kind := kind, caps := caps, state := Idle, lastRx := s.clock.mono, awaitingPong := false,
       finished := false, blockedSince := None, blockedDetail := None)
  }

  function GiveBacklog(e: Env, s: State, n: Name): State
    requires n in s.regs
  {
    var p := s.regs[n];
    var backlog := Backlog(e.cfg, s.recent, n, p.IsObserver());
    if p.IsObserver() then
      if backlog == [] then s else Deliver(e, s, n, Tagged(backlog, n), false, ByBacklog)
    else s.Put(n, p.(box := OverhearAll(e.cfg, p.box, backlog)))
  }

  ghost function Suggestion(taken: Name, used: set<Name>): string {
    if exists k :: Names.FirstFree(taken, used, k) then
      var k :| Names.FirstFree(taken, used, k);
      Names.Candidate(taken, k)
    else ""
  }

  /** The registration under which a permitted hello enters the floor. */
  function Entering(e: Env, s: State, c: ConnId, n: Name, kind: string, caps: set<string>): State {
    var rejoined := n in s.regs;
    var p := if rejoined then Reclaimed(s, s.regs[n], kind, caps, c) else FreshPart(e, s, n, kind, caps, c);
    var notified := if rejoined then s.blockedNotified - {n} else s.blockedNotified;
    s.(order := s.order + [n], names := s.names[c := n], blockedNotified := notified).Put(n, p)
  }

  /** Seated, welcomed, given the backlog and announced. */
  function Welcomed(e: Env, s: State, c: ConnId, n: Name, kind: string, caps: set<string>): State {
    var s1 := Answer(e, Entering(e, s, c, n, kind, caps), c, Welcome);
    var s2 := if n !in s.regs || s1.regs[n].IsObserver() then GiveBacklog(e, s1, n) else s1;
    Emit(e, s2.Touch(), PeerJoined(n, kind), Some(n))
  }

  function Admit(e: Env, s: State, c: ConnId, n: Name, kind: string, caps: set<string>): State {
    var t := Welcomed(e, s, c, n, kind, caps);
    if n in s.regs && n in t.regs then FlushQueue(e, t, n) else t
  }

  ghost function HandleHello(e: Env, s: State, c: ConnId, n: Name, kind: string, caps: set<string>): State {
    if c in s.names then Answer(e, s, c, Err(Malformed, None, None, ""))
    else
      // a holder whose transport is gone is reaped first, so that this hello reclaims
      var t := if s.Live(n) && !s.Connected(n) then Disconnect(e, s, s.regs[n].client) else s;
      if t.Live(n) then
        var u := Answer(e, t, c, Err(NameTaken, None, None, Suggestion(n, t.regs.Keys)));
        u.(gone := u.gone + {c})
      else Admit(e, t, c, n, kind, caps)
  }

  // ------------------------------------------------------------------ say

  datatype SayFrame = SayFrame(to: Name, kind: string, text: string, seqNo: int, private: bool)

  predicate TargetsAgent(s: State, to: Name) {
    s.IsAgent(to)
  }

  function Reject(e: Env, s: State, n: Name, f: SayFrame, code: ErrCode, retryAfter: Option<real>): State
    requires n in s.regs
  {
    var t := Answer(e, s, s.regs[n].client, Err(code, Some(f.seqNo), retryAfter, ""));
    if s.regs[n].IsObserver() then t else Emit(e, t, Rejected(n, code), None)
  }

  /** The checks before the rate limit, in their order. */
  function EarlyRefusal(s: State, p: Part, f: SayFrame): Option<ErrCode> {
    if !p.IsObserver() && s.frozen then Some(Frozen)
    else if !p.IsObserver() && s.muted && (f.to == EVERYONE || TargetsAgent(s, f.to)) then Some(Muted)
    else if f.to != EVERYONE && !s.Live(f.to) then Some(UnknownRecipient)
    else None
  }

  function Spend(e: Env, s: State, p: Part): Part {
    p.(bucket := Bucket.AfterTake(e.cfg.rateBurst as real, e.cfg.ratePerSecond, p.bucket, s.clock.mono))
  }

  predicate MaySpend(e: Env, s: State, p: Part) {
    Bucket.CanTake(e.cfg.rateBurst as real, e.cfg.ratePerSecond, p.bucket, s.clock.mono)
  }

  predicate Repeats(e: Env, s: State, p: Part, f: SayFrame) {
    Dedup.Key(f.to, f.text, f.private) in Dedup.Expire(p.dedup, s.clock.mono - e.cfg.dedupWindow)
  }

  function Remember(e: Env, s: State, p: Part, f: SayFrame): Part {
    p.(dedup := Dedup.AfterSeen(e.cfg.dedupWindow, p.dedup, s.clock.mono, Dedup.Key(f.to, f.text, f.private)))
  }

  /** The sender after the rate check, after the duplicate check, and once the say is kept. */
  function Spent(e: Env, s: State, n: Name): State
    requires n in s.regs
  {
    s.Put(n, Spend(e, s, s.regs[n]))
  }

  function Checked(e: Env, s: State, n: Name, f: SayFrame): State
    requires n in s.regs
  {
    var t := Spent(e, s, n);
    t.Put(n, Remember(e, t, t.regs[n], f))
  }

  function Kept(e: Env, s: State, n: Name, f: SayFrame): State
    requires n in s.regs
  {
    var t := Checked(e, s, n, f);
    t.Put(n, t.regs[n].(says := t.regs[n].says + [Dedup.Said(s.clock.mono, f.to, f.text, f.private)]))
  }

  /** The checks in their order, then the routing; the flag says whether the say was accepted. */
  function RouteSay(e: Env, s: State, n: Name, f: SayFrame): (State, bool)
    requires n in s.regs && e.cfg.ratePerSecond > 0.0
  {
    var p := s.regs[n];
    var early := EarlyRefusal(s, p, f);
    if early.Some? then (Reject(e, s, n, f, early.value, None), false)
    else if p.IsObserver() then (Accept(e, s, n, f), true)
    else if !MaySpend(e, s, p) then
      var wait := Bucket.Wait(e.cfg.rateBurst as real, e.cfg.ratePerSecond, p.bucket, s.clock.mono);
      (Reject(e, Spent(e, s, n), n, f, RateLimited, Some(wait)), false)
    else if Repeats(e, s, p, f) then (Reject(e, Checked(e, s, n, f), n, f, Duplicate, None), false)
    else (Accept(e, Kept(e, s, n, f), n, f), true)
  }

  /** The agents an observer's say asks. */
  function Asked(s: State, to: Name): set<Name> {
    if to == EVERYONE then set m | m in s.order && s.IsAgent(m) && s.Connected(m)
    else if TargetsAgent(s, to) then {to}
    else {}
  }

  function NewMsg(s: State, n: Name, f: SayFrame): Msg {
    Msg(s.msgCounter + 1, n, f.to, f.kind, Words(f.text), s.clock.wall, Untagged, Some(f.seqNo), f.private)
  }

  function RecordOf(m: Msg): Rec {
    Rec(m.id, m.sender, m.to, m.kind, m.text, m.ts, m.private)
  }

  /** The agents a say asks; only an observer's say asks anyone. */
  function AskedBy(s: State, n: Name, f: SayFrame): set<Name>
    requires n in s.regs
  {
    if s.regs[n].IsObserver() then Asked(s, f.to) else {}
  }

  /** What the log keeps of an accepted say. */
  function SayNote(s: State, n: Name, f: SayFrame): Note
    requires n in s.regs
  {
    SayAccepted(RecordOf(NewMsg(s, n, f)), s.clock.mono, AskedBy(s, n, f), !s.regs[n].IsObserver())
  }

  /** The say gets its id and is recorded; one that asks agents arms the quorum. */
  function Register(e: Env, s: State, n: Name, f: SayFrame): State
    requires n in s.regs
  {
    var rec := RecordOf(NewMsg(s, n, f));
    var asked := AskedBy(s, n, f);
    s.(regs := s.regs[n := s.regs[n].(lastSay := s.clock.mono)],
       msgCounter := s.msgCounter + 1,
       archive := s.archive + [DayRec(s.clock.day, rec)],
       recent := Last(s.recent + [rec], e.cfg.recentWindow),
       lastObserverSay := if asked == {} then s.lastObserverSay else Some(s.clock.mono),
       quorumExpected := if asked == {} then s.quorumExpected else asked,
       quorumLatched := asked == {} && s.quorumLatched,
       log := s.log + [SayNote(s, n, f)])
  }

  datatype Routing = Routing(state: State, observers: seq<(Name, seq<Msg>)>, woken: seq<(Name, seq<Msg>)>, queued: nat)

  /** One recipient: shown at once, buffered, woken at once, or queued. */
  function RouteOne(e: Env, r: Routing, sender: Name, m: Msg, q: Name): Routing {
    var s := r.state;
    if q == sender || q !in s.regs then r
    else
      var p := s.regs[q];
      var tagged := m.Tag(Addressed(q, m.to));
      if p.IsObserver() then
        if s.Connected(q) then r.(observers := r.observers + [(q, [tagged])]) else r
      else if tagged.addressing == Overheard then
        if m.private then r else r.(state := s.Put(q, Buffered(e, p, tagged)))
      else if Wakeable(s, q) then
        r.(state := s.Put(q, Woken(p, tagged)), woken := r.woken + [(q, WakeBatch(p.box, tagged))])
      else
        r.(state := s.Put(q, Queued(e, p, tagged)), queued := r.queued + 1)
  }

  function RouteAll(e: Env, r: Routing, sender: Name, m: Msg, names: seq<Name>): Routing
    decreases names
  {
    if names == [] then r else RouteAll(e, RouteOne(e, r, sender, m, names[0]), sender, m, names[1..])
  }

  function DeliverAll(e: Env, s: State, batches: seq<(Name, seq<Msg>)>, drawn: bool, cause: Cause): State
    decreases batches
  {
    if batches == [] then s
    else
      var t := if batches[0].0 in s.regs then Deliver(e, s, batches[0].0, batches[0].1, drawn, cause) else s;
      DeliverAll(e, t, batches[1..], drawn, cause)
  }

  function Accept(e: Env, s: State, n: Name, f: SayFrame): State
    requires n in s.regs
  {
    var m := NewMsg(s, n, f);
    var r := RouteAll(e, Routing(Register(e, s, n, f), [], [], 0), n, m, s.order);
    var s1 := if r.woken != [] then r.state.(round := r.state.round + 1) else r.state;
    var s2 := DeliverAll(e, s1, r.observers, false, BySay(m.id));
    var s3 := DeliverAll(e, s2, r.woken, true, BySay(m.id));
    var s4 := if r.woken != [] then CheckRoundLimit(e, s3) else s3;
    Answer(e, s4, s.regs[n].client, Ok(Some(m.id), r.queued, Some(f.seqNo))).Touch()
  }

  function SetIdle(p: Part): Part {
    p.(state := Idle, blockedSince := None, blockedDetail := None)
  }

  /** A say proves that a participant without the capability has produced output. */
  function InferIdle(e: Env, s: State, n: Name): State
    requires n in s.regs
  {
    var p := s.regs[n];
    if !p.ReportsIdle() && p.state != Idle then FlushQueue(e, s.Put(n, SetIdle(p)), n) else s
  }

  function MarkFinished(s: State, n: Name, done: bool): State
    requires n in s.regs
  {
    s.Put(n, s.regs[n].(finished := done))
  }

  function HandleSay(e: Env, s: State, n: Name, f: SayFrame): State
    requires n in s.regs && e.cfg.ratePerSecond > 0.0
  {
    var (s1, accepted) := RouteSay(e, s, n, f);
    if n !in s1.regs then s1
    else
      var s2 := InferIdle(e, s1, n);
      if n !in s2.regs || !accepted || s2.regs[n].IsObserver() then s2
      else if f.kind == "done" then CheckSessionDone(e, MarkFinished(s2, n, true))
      else MarkFinished(s2, n, false)
  }

  // ------------------------------------------------------------------ state, cmd, roster

  /** Only a transition, or a changed detail, starts a blocked episode. */
  predicate FreshlyBlocked(p: Part, st: Activity, detail: Option<string>) {
    st == Blocked && (p.state != Blocked || p.blockedDetail != detail)
  }

  function Reporting(now: real, p: Part, st: Activity, detail: Option<string>): Part {
    var q := p.(state := st, busySince := if st != Idle then now else p.busySince);
    if FreshlyBlocked(p, st, detail) then q.(blockedSince := Some(now), blockedDetail := detail)
    else if st != Blocked then q.(blockedSince := None, blockedDetail := None)
    else q
  }

  function HandleState(e: Env, s: State, n: Name, st: Activity, detail: Option<string>): State
    requires n in s.regs
  {
    var p := s.regs[n];
    var notified := if FreshlyBlocked(p, st, detail) then s.blockedNotified - {n} else s.blockedNotified;
    var t := s.(blockedNotified := notified).Put(n, Reporting(s.clock.mono, p, st, detail));
    if st == Idle then FlushQueue(e, t, n) else t
  }

  datatype Command = Freeze | Resume(n: Option<nat>) | Reset | Mute | Unmute | SetGoal(text: string)

  function Max(a: nat, b: nat): nat {
    if a >= b then a else b
  }

  function GoalMsg(s: State, text: string): Msg {
    Msg(0, SYSTEM_SENDER, EVERYONE, "note", GoalLine(text), s.clock.wall, Overheard, None, false)
  }

  /** The goal rides along as context on every live agent's next wake. */
  function BufferGoal(e: Env, s: State, text: string): State {
    s.(regs := map n | n in s.regs ::
         if s.IsAgent(n) then Buffered(e, s.regs[n], GoalMsg(s, text)) else s.regs[n])
  }

  function ResumedLimit(e: Env, s: State, n: Option<nat>): nat {
    if n.Some? then Max(s.maxRounds, s.round) + n.value
    else if s.round >= s.maxRounds then s.round + e.cfg.maxRounds
    else s.maxRounds
  }

  function Execute(e: Env, s: State, cmd: Command): State {
    match cmd
    case Freeze => Emit(e, s.(frozen := true), FrozenBy(s.round), None)
    case Resume(n) =>
      var t := s.(maxRounds := ResumedLimit(e, s, n), frozen := false);
      Emit(e, t, Resumed(t.round, t.maxRounds), None)
    case Reset => Emit(e, s.(round := 0, frozen := false), WasReset(s.round), None)
    case Mute =>
      var t := Emit(e, s.(muted := true), MutedOn, None);
      SystemMessage(e, t, t.order, MuteNote(true))
    case Unmute =>
      var t := Emit(e, s.(muted := false), MutedOff, None);
      SystemMessage(e, t, t.order, MuteNote(false))
    case SetGoal(text) => BufferGoal(e, Emit(e, s.(goal := text), GoalSet(text), None), text)
  }

  function HandleCmd(e: Env, s: State, n: Name, cmd: Command, seqNo: Option<int>): State
    requires n in s.regs
  {
    if !s.regs[n].IsObserver() then Answer(e, s, s.regs[n].client, Err(Forbidden, seqNo, None, ""))
    else Answer(e, Execute(e, s, cmd).Touch(), s.regs[n].client, Ok(None, 0, seqNo))
  }

  // ------------------------------------------------------------------ watchdog

  /** Dead registrations expire. */
  function ExpireDead(e: Env, s: State): State {
    s.(regs := map n | n in s.regs && (s.Live(n) || s.clock.mono - s.regs[n].lastRx <= e.cfg.deadTtl) :: s.regs[n])
  }

  function PingIfSilent(e: Env, s: State, n: Name): State
    requires n in s.regs
  {
    var p := s.regs[n];
    if s.clock.mono - p.lastRx > e.cfg.deadAfter && !p.awaitingPong then
      Answer(e, s.Put(n, p.(awaitingPong := true, pongDeadline := s.clock.mono + e.cfg.pongTimeout)), p.client, Ping)
    else s
  }

  /** Whoever has shown no sign of work for long enough is taken to be idle. */
  function AssumeIdle(e: Env, s: State, n: Name): State
    requires n in s.regs
  {
    var p := s.regs[n];
    if !p.ReportsIdle() && p.state != Idle && s.clock.mono - p.busySince > e.cfg.assumeIdleAfter then
      var t := Emit(e, s.Put(n, SetIdle(p)), Stalled(Some(n)), None);
      if n in t.regs then FlushQueue(e, t, n) else t
    else s
  }

  function NotifyBlocked(e: Env, s: State, n: Name): State
    requires n in s.regs
  {
    var p := s.regs[n];
    if p.state == Blocked && p.blockedSince.Some? && s.clock.mono - p.blockedSince.value > e.cfg.blockedAfter
       && n !in s.blockedNotified then
      Emit(e, s.(blockedNotified := s.blockedNotified + {n}), BlockedFor(n), None)
    else s
  }

  function WatchOne(e: Env, s: State, n: Name): State
    requires n in s.regs
  {
    var p := s.regs[n];
    if !s.Connected(n) || (p.awaitingPong && s.clock.mono > p.pongDeadline) then Disconnect(e, s, p.client)
    else
      var t := PingIfSilent(e, s, n);
      if p.IsObserver() || n !in t.regs then t
      else
        var u := AssumeIdle(e, t, n);
        if n in u.regs then NotifyBlocked(e, u, n) else u
  }

  function WatchAll(e: Env, s: State, names: seq<Name>): State
    decreases names
  {
    if names == [] then s
    else WatchAll(e, if names[0] in s.regs then WatchOne(e, s, names[0]) else s, names[1..])
  }

  /** There are agents, all idle, and nothing waits for any of them. */
  predicate AllQuiet(s: State) {
    && (exists n :: n in s.order && s.IsAgent(n))
    && (forall n :: n in s.order && s.IsAgent(n) ==> s.regs[n].state == Idle && s.regs[n].box.queue == [])
  }

  function Expected(s: State): set<Name> {
    set n | n in s.order && s.IsAgent(n) && n in s.quorumExpected
  }

  predicate QuorumDue(s: State) {
    && AllQuiet(s) && !s.quorumLatched && s.lastObserverSay.Some?
    && Expected(s) != {}
    && (forall n :: n in Expected(s) ==> s.regs[n].lastSay > s.lastObserverSay.value)
  }

  function CheckQuorum(e: Env, s: State): State {
    if QuorumDue(s) then Emit(e, s.(quorumLatched := true), QuorumReached(Expected(s)), None) else s
  }

  function CheckStall(e: Env, s: State): State {
    if AllQuiet(s) && s.clock.mono - s.lastActivity > e.cfg.stallAfter && !s.stallLatched then
      Emit(e, s.(stallLatched := true), Stalled(None), None)
    else s
  }

  function WatchdogTick(e: Env, s: State): State {
    var t := ExpireDead(e, s);
    CheckStall(e, CheckQuorum(e, WatchAll(e, t, t.order)))
  }

  // ------------------------------------------------------------------ steps

  datatype Request =
    | Hello(name: Name, kind: string, caps: set<string>)
    | Say(say: SayFrame)
    | StateReport(state: Activity, detail: Option<string>)
    | Cmd(cmd: Command, seqNo: Option<int>)
    | RosterQuery
    | Bye
    | Pong
    | Unreadable(seqNo: Option<int>)   // whatever else fails validation

  datatype Input =
    | Inbound(conn: ConnId, request: Request)
    | Closed(conn: ConnId)   // the reader of a connection ends
    | Lost(conn: ConnId)     // a transport fails between frames
    | Tick

  /** The validation rules the floor relies on. */
  predicate WellFormed(f: Request) {
    match f
    case Hello(n, kind, _) => Names.ValidName(n) && Names.MatchesName(kind)
    case Say(f) => f.to != "" && !(f.private && f.to == EVERYONE)
    case Cmd(Resume(Some(n)), _) => n > 0
    case Unreadable(_) => false
    case _ => true
  }

  function SeqOf(f: Request): Option<int> {
    match f
    case Say(f) => Some(f.seqNo)
    case Cmd(_, q) => q
    case Unreadable(q) => q
    case _ => None
  }

  /** Any frame of a registered connection is a life sign. */
  function LifeSign(s: State, n: Name): State
    requires n in s.regs
  {
    s.Put(n, s.regs[n].(lastRx := s.clock.mono, awaitingPong := false))
  }

  function Dispatch(e: Env, s: State, c: ConnId, n: Name, f: Request): State
    requires n in s.regs && e.cfg.ratePerSecond > 0.0
  {
    match f
    case Say(say) => HandleSay(e, s, n, say)
    case StateReport(st, detail) => HandleState(e, s, n, st, detail)
    case Cmd(cmd, q) => HandleCmd(e, s, n, cmd, q)
    case RosterQuery => Answer(e, s, s.regs[n].client, RosterReply)
    case Bye => Disconnect(e, s, c)
    case _ => s
  }

  ghost function Handle(e: Env, s: State, c: ConnId, f: Request): State
    requires e.cfg.Valid()
  {
    if !WellFormed(f) then Answer(e, s, c, Err(Malformed, SeqOf(f), None, ""))
    else if f.Hello? then HandleHello(e, s, c, f.name, f.kind, f.caps)
    else if c !in s.names || !s.Live(s.names[c]) then Answer(e, s, c, Err(Malformed, None, None, ""))
    else Dispatch(e, LifeSign(s, s.names[c]), c, s.names[c], f)
  }

  /** One atomic step of the hub at a given time. */
  ghost function Step(e: Env, s: State, clock: Clock, i: Input): State
    requires e.cfg.Valid()
  {
    var t := s.(clock := clock);
    match i
    case Inbound(c, f) => Handle(e, t, c, f)
    case Closed(c) => Disconnect(e, t, c)
    case Lost(c) => t.(gone := t.gone + {c})
    case Tick => WatchdogTick(e, t)
  }

  /** Time does not run backwards. */
  predicate Later(a: Clock, b: Clock) {
    a.mono <= b.mono && a.day <= b.day
  }

  ghost predicate Timely(s: State, run: seq<(Clock, Input)>) {
    && (|run| > 0 ==> Later(s.clock, run[0].0))
    && (forall i :: 0 <= i < |run| - 1 ==> Later(run[i].0, run[i + 1].0))
  }

  ghost function Run(e: Env, s: State, run: seq<(Clock, Input)>): State
    requires e.cfg.Valid()
    decreases run
  {
    if run == [] then s else Run(e, Step(e, s, run[0].0, run[0].1), run[1..])
  }

  // ------------------------------------------------------------------ start

  /** The msg records of one day's file. */
  function DayFile(archive: seq<DayRec>, day: int): seq<Rec> {
    if archive == [] then []
    else
      var x := archive[|archive| - 1];
      DayFile(archive[..|archive| - 1], day) + (if x.day == day then [x.rec] else [])
  }

  /** The records of yesterday's and today's files. */
  function RecentMsgs(archive: seq<DayRec>, today: int): seq<Rec> {
    DayFile(archive, today - 1) + DayFile(archive, today)
  }

  function MaxId(recs: seq<Rec>): nat {
    if recs == [] then 0 else Max(MaxId(recs[..|recs| - 1]), recs[|recs| - 1].id)
  }

  /** A hub that starts on an existing transcript. */
  function Boot(cfg: Config, archive: seq<DayRec>, clock: Clock): State {
    var recent := RecentMsgs(archive, clock.day);
    State(map[], [], {}, map[], clock, 0, 0, false, false, "", cfg.maxRounds, clock.mono, false,
          None, {}, false, {}, MaxId(recent), Last(recent, cfg.recentWindow), archive, [])
  }
}
