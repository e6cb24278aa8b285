/** Who gets what: an accepted say reaches every participant in the way its addressing asks
    for and nobody else, and every say is answered exactly once. */
module LawRoute {
  import opened Types
  import opened Mailbox
  import opened HubState
  import opened HubSpec
  import opened HubFrames
  import Bucket
  import Dedup

  // ------------------------------------------------------------------ copies

  /** The copy of a say that is routed into an agent's mailbox: none of a private one that
      is not addressed to it. */
  function Share(q: Name, m: Msg): multiset<Msg> {
    var tagged := m.Tag(Addressed(q, m.to));
    if tagged.addressing == Overheard && m.private then multiset{} else multiset{tagged}
  }

  /** The agents other than the sender. */
  predicate Hears(s: State, sender: Name, q: Name) {
    s.IsAgent(q) && q != sender
  }

  lemma BoxOpRouted(e: Env, p: Part, m: Msg)
    ensures Woken(p, m).box.routed == p.box.routed + multiset{m}
    ensures Queued(e, p, m).box.routed == p.box.routed + multiset{m}
    ensures Buffered(e, p, m).box.routed == p.box.routed + multiset{m}
  {
  }

  /** What routing makes of one recipient. */
  function Taken(e: Env, s: State, sender: Name, m: Msg, q: Name): Part
    requires q in s.regs
  {
    var p, tagged := s.regs[q], m.Tag(Addressed(q, m.to));
    if q == sender || p.IsObserver() then p
    else if tagged.addressing == Overheard then if m.private then p else Buffered(e, p, tagged)
    else if Wakeable(s, q) then Woken(p, tagged)
    else Queued(e, p, tagged)
  }

  lemma RouteOneIsPut(e: Env, r: Routing, sender: Name, m: Msg, q: Name)
    requires q in r.state.regs
    ensures RouteOne(e, r, sender, m, q).state == r.state.Put(q, Taken(e, r.state, sender, m, q))
  {
    hide Woken, Queued, Buffered, WakeBatch, Addressed, Wakeable;
    var s := r.state;
    assert s.regs[q := s.regs[q]] == s.regs;
  }

  lemma TakenFacts(e: Env, s: State, sender: Name, m: Msg, q: Name)
    requires q in s.regs
    ensures var p, p' := s.regs[q], Taken(e, s, sender, m, q);
            && p' == p.(box := p'.box)
            && p'.box.routed == p.box.routed + (if q != sender && !p.IsObserver() then Share(q, m) else multiset{})
  {
    hide Woken, Queued, Buffered, Wakeable;
    var p := s.regs[q];
    BoxOpRouted(e, p, m.Tag(Addressed(q, m.to)));
    BoxOpSeats(e, p, m.Tag(Addressed(q, m.to)));
  }

  /** Routing to one recipient changes at most its mailbox. */
  lemma RouteOneFrame(e: Env, r: Routing, sender: Name, m: Msg, q: Name)
    requires q in r.state.regs
    ensures var s, t := r.state, RouteOne(e, r, sender, m, q).state;
            && q in t.regs && t == s.(regs := s.regs[q := t.regs[q]])
            && t.regs[q] == s.regs[q].(box := t.regs[q].box)
            && t.regs[q].box.routed == s.regs[q].box.routed
                 + (if q != sender && !s.regs[q].IsObserver() then Share(q, m) else multiset{})
  {
    hide RouteOne, Taken, Share;
    RouteOneIsPut(e, r, sender, m, q);
    TakenFacts(e, r.state, sender, m, q);
  }

  lemma RouteOneRouted(e: Env, r: Routing, sender: Name, m: Msg, q: Name, x: Name)
    requires x in r.state.regs
    ensures var t := RouteOne(e, r, sender, m, q).state;
            && x in t.regs
            && t.regs[x].box.routed == r.state.regs[x].box.routed
                 + (if x == q && q != sender && !r.state.regs[q].IsObserver() then Share(q, m) else multiset{})
  {
    if q in r.state.regs {
      hide RouteOne, Share;
      RouteOneFrame(e, r, sender, m, q);
    }
  }

  lemma RouteOneKinds(e: Env, r: Routing, sender: Name, m: Msg, q: Name)
    ensures var s, t := r.state, RouteOne(e, r, sender, m, q).state;
            && SameFloor(s, t) && t.order == s.order && t.log == s.log && t.round == s.round
            && t.frozen == s.frozen && t.maxRounds == s.maxRounds
  {
    if q in r.state.regs {
      hide RouteOne;
      RouteOneFrame(e, r, sender, m, q);
    }
  }

  /** The same kinds, connections and activities. */
  predicate SameFloor(s: State, t: State) {
    && t.regs.Keys == s.regs.Keys && t.gone == s.gone
    && forall x :: x in s.regs ==> t.regs[x].kind == s.regs[x].kind && t.regs[x].client == s.regs[x].client
                                   && t.regs[x].state == s.regs[x].state
  }

  /** The same people in the same order, under the same limit. */
  predicate SameLimits(s: State, t: State) {
    t.order == s.order && t.frozen == s.frozen && t.maxRounds == s.maxRounds
  }

  predicate Distinct(names: seq<Name>) {
    forall i, j :: 0 <= i < j < |names| ==> names[i] != names[j]
  }

  lemma {:induction false} RouteAllRouted(e: Env, r: Routing, sender: Name, m: Msg, names: seq<Name>, x: Name)
    requires x in r.state.regs && Distinct(names)
    ensures var t := RouteAll(e, r, sender, m, names).state;
            && x in t.regs
            && t.regs[x].box.routed == r.state.regs[x].box.routed
                 + (if x in names && x != sender && !r.state.regs[x].IsObserver() then Share(x, m) else multiset{})
    decreases names
  {
    hide RouteOne, Share;
    if names != [] {
      RouteOneRouted(e, r, sender, m, names[0], x);
      RouteOneKinds(e, r, sender, m, names[0]);
      assert x in names <==> x == names[0] || x in names[1..];
      RouteAllRouted(e, RouteOne(e, r, sender, m, names[0]), sender, m, names[1..], x);
    }
  }

  /** Handing over keeps what was routed. */
  lemma DeliverRouted(e: Env, s: State, n: Name, batch: seq<Msg>, drawn: bool, cause: Cause, x: Name)
    requires n in s.regs && x in s.regs
    ensures var t := Deliver(e, s, n, batch, drawn, cause);
            x in t.regs && t.regs[x].box.routed == s.regs[x].box.routed
  {
    hide Deliver, SortById;
    DeliverFrame(e, s, n, batch, drawn, cause);
  }

  lemma {:induction false} DeliverAllRouted(e: Env, s: State, batches: seq<(Name, seq<Msg>)>, drawn: bool,
      cause: Cause, x: Name)
    requires x in s.regs
    ensures var t := DeliverAll(e, s, batches, drawn, cause);
            x in t.regs && t.regs[x].box.routed == s.regs[x].box.routed
    decreases batches
  {
    hide Deliver;
    if batches != [] {
      var t := if batches[0].0 in s.regs then Deliver(e, s, batches[0].0, batches[0].1, drawn, cause) else s;
      if batches[0].0 in s.regs {
        DeliverRouted(e, s, batches[0].0, batches[0].1, drawn, cause, x);
      }
      DeliverAllRouted(e, t, batches[1..], drawn, cause, x);
    }
  }

  lemma RegisterKinds(e: Env, s: State, n: Name, f: SayFrame)
    requires n in s.regs
    ensures var t := Register(e, s, n, f);
            && t.regs.Keys == s.regs.Keys && t.gone == s.gone && SameLimits(s, t) && t.round == s.round
            && t.log == s.log + [SayNote(s, n, f)]
            && (forall x :: x in s.regs ==> t.regs[x].box == s.regs[x].box && t.regs[x].kind == s.regs[x].kind
                                            && t.regs[x].client == s.regs[x].client
                                            && t.regs[x].state == s.regs[x].state)
  {
    hide AskedBy, Last, RecordOf;
  }

  /** Every agent but the sender is routed exactly its share of an accepted say; every other
      registration, the dead ones included, none. */
  lemma SayIsRouted(e: Env, s: State, n: Name, f: SayFrame, x: Name)
    requires Rooted(s) && n in s.regs && x in s.regs
    ensures var t := Accept(e, s, n, f);
            && x in t.regs
            && t.regs[x].box.routed == s.regs[x].box.routed + (if Hears(s, n, x) then Share(x,
               NewMsg(s, n, f)) else multiset{})
  {
    hide Accept, Register, RouteAll, Share, NewMsg;
    var m := NewMsg(s, n, f);
    RegisterKinds(e, s, n, f);
    RouteAllRouted(e, Routing(Register(e, s, n, f), [], [], 0), n, m, s.order, x);
    AfterRouting(e, s, n, f, x);
  }

  /** What follows the routing of a say only hands out. */
  lemma AfterRouting(e: Env, s: State, n: Name, f: SayFrame, x: Name)
    requires n in s.regs
    ensures var r := RouteAll(e, Routing(Register(e, s, n, f), [], [], 0), n, NewMsg(s, n, f), s.order);
            var t := Accept(e, s, n, f);
            x in r.state.regs ==> x in t.regs && t.regs[x].box.routed == r.state.regs[x].box.routed
  {
    hide Register, RouteAll, DeliverAll, Accept, NewMsg;
    AcceptRegs(e, s, n, f);
    var m := NewMsg(s, n, f);
    var r := RouteAll(e, Routing(Register(e, s, n, f), [], [], 0), n, m, s.order);
    if x in r.state.regs {
      var s1 := if r.woken != [] then r.state.(round := r.state.round + 1) else r.state;
      DeliverAllRouted(e, s1, r.observers, false, BySay(m.id), x);
      DeliverAllRouted(e, DeliverAll(e, s1, r.observers, false, BySay(m.id)), r.woken, true, BySay(m.id), x);
    }
  }

  /** The registrations after an accepted say are those after its frames. */
  lemma AcceptRegs(e: Env, s: State, n: Name, f: SayFrame)
    requires n in s.regs
    ensures var m := NewMsg(s, n, f);
            var r := RouteAll(e, Routing(Register(e, s, n, f), [], [], 0), n, m, s.order);
            var s1 := if r.woken != [] then r.state.(round := r.state.round + 1) else r.state;
            var s2 := DeliverAll(e, s1, r.observers, false, BySay(m.id));
            Accept(e, s, n, f).regs == DeliverAll(e, s2, r.woken, true, BySay(m.id)).regs
  {
    hide Register, RouteAll, DeliverAll, CheckRoundLimit, NewMsg;
    var m := NewMsg(s, n, f);
    var r := RouteAll(e, Routing(Register(e, s, n, f), [], [], 0), n, m, s.order);
    var s1 := if r.woken != [] then r.state.(round := r.state.round + 1) else r.state;
    var s2 := DeliverAll(e, s1, r.observers, false, BySay(m.id));
    LimitRegs(e, DeliverAll(e, s2, r.woken, true, BySay(m.id)));
  }

  lemma LimitRegs(e: Env, s: State)
    ensures CheckRoundLimit(e, s).regs == s.regs
  {
    hide CheckRoundLimit, Trace;
    RoundLimitFrame(e, s);
  }

  // ------------------------------------------------------------------ notes from the hub

  function NoteOf(s: State, id: nat, x: Name, text: Text): Msg {
    Msg(id, SYSTEM_SENDER, x, "note", text, s.clock.wall, Direct, None, false)
  }

  lemma SystemOneReaches(e: Env, s: State, n: Name, text: Text, x: Name)
    requires n in s.regs && x in s.regs
    ensures var t := SystemOne(e, s, n, text);
            && t.regs.Keys == s.regs.Keys && t.regs[x].kind == s.regs[x].kind && t.clock == s.clock
            && t.msgCounter == s.msgCounter + (if s.regs[n].IsObserver() then 0 else 1)
            && t.regs[x].box.routed == s.regs[x].box.routed
                 + (if x == n && !s.regs[n].IsObserver() then multiset{NoteOf(s, t.msgCounter, n,
                   text)} else multiset{})
  {
    hide SystemOne, Seats, Trace;
    SystemOneSteady(e, s, n, text);
    var t := SystemOne(e, s, n, text);
    SteadyFacts(s, t);
    assert SeatOf(t.regs[x]) == SeatOf(s.regs[x]);
    SystemOneRouted(e, s, n, text, x);
  }

  lemma SystemOneRouted(e: Env, s: State, n: Name, text: Text, x: Name)
    requires n in s.regs && x in s.regs
    ensures var t := SystemOne(e, s, n, text);
            && x in t.regs
            && t.msgCounter == s.msgCounter + (if s.regs[n].IsObserver() then 0 else 1)
            && t.regs[x].box.routed == s.regs[x].box.routed
                 + (if x == n && !s.regs[n].IsObserver() then multiset{NoteOf(s, t.msgCounter, n,
                   text)} else multiset{})
  {
    hide Woken, Queued, Deliver, WakeBatch, SortById, Wakeable;
    var p := s.regs[n];
    if !p.IsObserver() {
      var m := SystemNote(s, n, text);
      var t := s.(msgCounter := s.msgCounter + 1);
      BoxOpRouted(e, p, m);
      PutRouted(t, n, Woken(p, m), x);
      PutRouted(t, n, Queued(e, p, m), x);
      WakeRouted(e, t.Put(n, Woken(p, m)), n, WakeBatch(p.box, m), ByNote(m.id), x);
    }
  }

  lemma PutRouted(s: State, n: Name, p: Part, x: Name)
    requires x in s.regs
    ensures x in s.Put(n, p).regs && s.Put(n, p).regs[x].box.routed == (if x == n then p else s.regs[x]).box.routed
    ensures s.Put(n, p).msgCounter == s.msgCounter
  {
  }

  lemma WakeRouted(e: Env, s: State, n: Name, batch: seq<Msg>, cause: Cause, x: Name)
    requires n in s.regs && x in s.regs
    ensures var t := Deliver(e, s, n, batch, true, cause);
            x in t.regs && t.regs[x].box.routed == s.regs[x].box.routed && t.msgCounter == s.msgCounter
  {
    hide Deliver, SortById;
    DeliverRouted(e, s, n, batch, true, cause, x);
    DeliverFrame(e, s, n, batch, true, cause);
  }

  /** A note from the hub is routed once to every agent named, under an id of its own, and to
      nobody else. */
  lemma {:induction false} SystemReaches(e: Env, s: State, names: seq<Name>, text: Text, x: Name) returns (id: nat)
    requires Distinct(names) && x in s.regs
    ensures var t := SystemMessage(e, s, names, text);
            && x in t.regs && s.msgCounter <= t.msgCounter
            && t.regs[x].box.routed == s.regs[x].box.routed
                 + (if x in names && !s.regs[x].IsObserver() then multiset{NoteOf(s, id, x, text)} else multiset{})
            && (x in names && !s.regs[x].IsObserver() ==> s.msgCounter < id <= t.msgCounter)
    decreases names
  {
    hide SystemOne, NoteOf;
    id := 0;
    if names != [] {
      var n := names[0];
      var t := if n in s.regs then SystemOne(e, s, n, text) else s;
      if n in s.regs {
        SystemOneReaches(e, s, n, text, x);
      }
      id := SystemReaches(e, t, names[1..], text, x);
      NoteTime(s, t, id, x, text);
      if x == n {
        id := t.msgCounter;
      }
    }
  }

  lemma NoteTime(s: State, t: State, id: nat, x: Name, text: Text)
    requires t.clock == s.clock
    ensures NoteOf(t, id, x, text) == NoteOf(s, id, x, text)
  {
  }

  /** The goal line reaches the context of every live agent, and nobody else. */
  lemma GoalReaches(e: Env, s: State, text: string, x: Name)
    requires x in s.regs
    ensures var t := BufferGoal(e, s, text);
            && x in t.regs
            && t.regs[x].box.routed == s.regs[x].box.routed + (if s.IsAgent(x) then multiset{GoalMsg(s,
               text)} else multiset{})
            && t.regs[x].box.queue == s.regs[x].box.queue
  {
    hide Buffered, GoalMsg;
    BoxOpRouted(e, s.regs[x], GoalMsg(s, text));
    BoxOpSeats(e, s.regs[x], GoalMsg(s, text));
  }

  // ------------------------------------------------------------------ frames

  /** What the connected observers other than the sender are shown. */
  function Shown(s: State, sender: Name, m: Msg, names: seq<Name>): seq<(Name, seq<Msg>)>
    decreases names
  {
    if names == [] then []
    else
      var q := names[0];
      (if q in s.regs && q != sender && s.regs[q].IsObserver() && s.Connected(q)
       then [(q, [m.Tag(Addressed(q, m.to))])] else []) + Shown(s, sender, m, names[1..])
  }

  /** The addressed agents that can be woken at once, and those that cannot. */
  predicate WokenNow(s: State, sender: Name, m: Msg, q: Name) {
    q in s.regs && q != sender && !s.regs[q].IsObserver() && Addressed(q, m.to) != Overheard && Wakeable(s, q)
  }

  predicate MadeToWait(s: State, sender: Name, m: Msg, q: Name) {
    q in s.regs && q != sender && !s.regs[q].IsObserver() && Addressed(q, m.to) != Overheard && !Wakeable(s, q)
  }

  function Wakeful(s: State, sender: Name, m: Msg, names: seq<Name>): seq<Name>
    decreases names
  {
    if names == [] then []
    else (if WokenNow(s, sender, m, names[0]) then [names[0]] else []) + Wakeful(s, sender, m, names[1..])
  }

  function Waiters(s: State, sender: Name, m: Msg, names: seq<Name>): nat
    decreases names
  {
    if names == [] then 0
    else (if MadeToWait(s, sender, m, names[0]) then 1 else 0) + Waiters(s, sender, m, names[1..])
  }

  lemma {:induction false} SameLists(s: State, t: State, sender: Name, m: Msg, names: seq<Name>)
    requires SameFloor(s, t)
    ensures Shown(t, sender, m, names) == Shown(s, sender, m, names)
    ensures Wakeful(t, sender, m, names) == Wakeful(s, sender, m, names)
    ensures Waiters(t, sender, m, names) == Waiters(s, sender, m, names)
    decreases names
  {
    if names != [] {
      SameLists(s, t, sender, m, names[1..]);
    }
  }

  function Heads(batches: seq<(Name, seq<Msg>)>): seq<Name> {
    seq(|batches|, i requires 0 <= i < |batches| => batches[i].0)
  }

  /** Every wake batch ends with the recipient's copy of the say. */
  predicate Carry(batches: seq<(Name, seq<Msg>)>, m: Msg) {
    forall i :: 0 <= i < |batches| ==>
      batches[i].1 != [] && batches[i].1[|batches[i].1| - 1] == m.Tag(Addressed(batches[i].0, m.to))
  }

  lemma RouteOneLists(e: Env, r: Routing, sender: Name, m: Msg, q: Name)
    requires Carry(r.woken, m)
    ensures var t := RouteOne(e, r, sender, m, q);
            && t.observers == r.observers + Shown(r.state, sender, m, [q])
            && Heads(t.woken) == Heads(r.woken) + Wakeful(r.state, sender, m, [q])
            && t.queued == r.queued + Waiters(r.state, sender, m, [q])
            && Carry(t.woken, m)
  {
    hide Woken, Queued, Buffered, Drained;
  }

  lemma {:induction false} RouteAllLists(e: Env, r: Routing, sender: Name, m: Msg, names: seq<Name>)
    requires Carry(r.woken, m)
    ensures var t := RouteAll(e, r, sender, m, names);
            && t.observers == r.observers + Shown(r.state, sender, m, names)
            && Heads(t.woken) == Heads(r.woken) + Wakeful(r.state, sender, m, names)
            && t.queued == r.queued + Waiters(r.state, sender, m, names)
            && Carry(t.woken, m)
            && t.state.log == r.state.log && SameFloor(r.state, t.state) && SameLimits(r.state, t.state)
    decreases names
  {
    hide RouteOne, Carry, Heads, Shown, Wakeful, Waiters, SameFloor;
    EmptyLists(r.state, sender, m);
    if names != [] {
      var q, rest := names[0], names[1..];
      var r1 := RouteOne(e, r, sender, m, q);
      RouteOneLists(e, r, sender, m, q);
      RouteOneKinds(e, r, sender, m, q);
      RouteAllLists(e, r1, sender, m, rest);
      SameLists(r.state, r1.state, sender, m, rest);
      OneThenRest(r.state, sender, m, names);
      FloorTrans(r.state, r1.state, RouteAll(e, r1, sender, m, rest).state);
    } else {
      FloorTrans(r.state, r.state, r.state);
    }
  }

  lemma FloorTrans(s: State, t: State, u: State)
    ensures SameFloor(s, t) && SameFloor(t, u) ==> SameFloor(s, u)
    ensures SameFloor(s, s)
  {
  }

  lemma EmptyLists(s: State, sender: Name, m: Msg)
    ensures Shown(s, sender, m, []) == [] && Wakeful(s, sender, m, []) == [] && Waiters(s, sender, m, []) == 0
  {
  }

  lemma OneThenRest(s: State, sender: Name, m: Msg, names: seq<Name>)
    requires names != []
    ensures Shown(s, sender, m, names) == Shown(s, sender, m, [names[0]]) + Shown(s, sender, m, names[1..])
    ensures Wakeful(s, sender, m, names) == Wakeful(s, sender, m, [names[0]]) + Wakeful(s, sender, m, names[1..])
    ensures Waiters(s, sender, m, names) == Waiters(s, sender, m, [names[0]]) + Waiters(s, sender, m, names[1..])
  {
    hide WokenNow, MadeToWait;
    assert [names[0]][1..] == [];
  }

  /** The frames of a list of batches, as the log tells them. */
  function Notes(batches: seq<(Name, seq<Msg>)>, toAgent: bool, cause: Cause, round: nat): seq<Note> {
    seq(|batches|, i requires 0 <= i < |batches| => Delivered(batches[i].0, toAgent, cause, round,
      SortById(batches[i].1)))
  }

  predicate AllOfKind(s: State, batches: seq<(Name, seq<Msg>)>, agents: bool) {
    forall i :: 0 <= i < |batches| ==> batches[i].0 in s.regs && s.regs[batches[i].0].IsObserver() == !agents
  }

  lemma {:induction false} DeliverAllLog(e: Env, s: State, batches: seq<(Name, seq<Msg>)>, agents: bool, drawn: bool,
      cause: Cause)
    requires AllOfKind(s, batches, agents)
    ensures var t := DeliverAll(e, s, batches, drawn, cause);
            && t.log == s.log + Notes(batches, agents, cause, s.round) && t.round == s.round && SameLimits(s, t)
            && t.regs.Keys == s.regs.Keys && (forall x :: x in s.regs ==> t.regs[x].kind == s.regs[x].kind)
    decreases batches
  {
    hide Deliver, SortById, Notes, AllOfKind;
    NotesCons(batches, agents, cause, s.round);
    if batches != [] {
      var b, rest := batches[0], batches[1..];
      KindCons(s, batches, agents);
      var t := Deliver(e, s, b.0, b.1, drawn, cause);
      DeliverKinds(e, s, b.0, b.1, drawn, cause);
      KindKept(s, t, rest, agents);
      DeliverAllLog(e, t, rest, agents, drawn, cause);
    }
  }

  lemma NotesCons(batches: seq<(Name, seq<Msg>)>, toAgent: bool, cause: Cause, round: nat)
    ensures Notes(batches, toAgent, cause, round) ==
      if batches == [] then []
      else [Delivered(batches[0].0, toAgent, cause, round, SortById(batches[0].1))] + Notes(batches[1..], toAgent,
        cause, round)
  {
    hide SortById;
  }

  lemma KindCons(s: State, batches: seq<(Name, seq<Msg>)>, agents: bool)
    requires batches != [] && AllOfKind(s, batches, agents)
    ensures batches[0].0 in s.regs && s.regs[batches[0].0].IsObserver() == !agents && AllOfKind(s, batches[1..], agents)
  {
  }

  lemma KindKept(s: State, t: State, batches: seq<(Name, seq<Msg>)>, agents: bool)
    requires AllOfKind(s, batches, agents) && t.regs.Keys == s.regs.Keys
               && (forall x :: x in s.regs ==> t.regs[x].kind == s.regs[x].kind)
    ensures AllOfKind(t, batches, agents)
  {
  }

  lemma DeliverKinds(e: Env, s: State, n: Name, batch: seq<Msg>, drawn: bool, cause: Cause)
    requires n in s.regs
    ensures var t := Deliver(e, s, n, batch, drawn, cause);
            && t.regs.Keys == s.regs.Keys && (forall x :: x in s.regs ==> t.regs[x].kind == s.regs[x].kind)
            && t.log == s.log + [Delivered(n, !s.regs[n].IsObserver(), cause, s.round, SortById(batch))]
            && t.round == s.round
            && SameLimits(s, t)
  {
    hide Deliver, SortById;
    DeliverFrame(e, s, n, batch, drawn, cause);
  }

  lemma {:induction false} ListsAreOfKind(s: State, sender: Name, m: Msg, names: seq<Name>)
    ensures AllOfKind(s, Shown(s, sender, m, names), false)
    ensures forall i :: 0 <= i < |Wakeful(s, sender, m, names)| ==>
              WokenNow(s, sender, m, Wakeful(s, sender, m, names)[i])
    decreases names
  {
    if names != [] {
      ListsAreOfKind(s, sender, m, names[1..]);
    }
  }

  lemma HeadsOfKind(s: State, sender: Name, m: Msg, batches: seq<(Name, seq<Msg>)>, names: seq<Name>)
    requires Heads(batches) == Wakeful(s, sender, m, names)
    ensures AllOfKind(s, batches, true)
  {
    ListsAreOfKind(s, sender, m, names);
    forall i | 0 <= i < |batches|
      ensures WokenNow(s, sender, m, batches[i].0)
    {
      assert batches[i].0 == Heads(batches)[i] == Wakeful(s, sender, m, names)[i];
    }
  }

  /** The `ok` of an accepted say: its id, how many recipients must wait, its seq. */
  function Accepted(s: State, n: Name, f: SayFrame): Reply {
    Ok(Some(s.msgCounter + 1), Waiters(s, n, NewMsg(s, n, f), s.order), Some(f.seqNo))
  }

  /** What an accepted say sends out, and to whom: the record; one frame with the bare say to
      every connected observer but the sender, in the order they joined; one wake to every
      addressed agent that is idle and connected, each ending with its copy; at most the
      news of a freeze; and the sender's `ok`, which tells how many must wait. */
  lemma SayGoesOut(e: Env, s: State, n: Name, f: SayFrame) returns (woken: seq<(Name, seq<Msg>)>, tail: seq<Note>)
    requires n in s.regs
    ensures var m := NewMsg(s, n, f);
            var round := s.round + (if woken != [] then 1 else 0);
            && Accept(e, s, n, f).log == s.log
                 + [SayNote(s, n, f)]
                 + Notes(Shown(s, n, m, s.order), false, BySay(m.id), round)
                 + Notes(woken, true, BySay(m.id), round)
                 + tail
                 + [Replied(s.regs[n].client, Accepted(s, n, f))]
            && Heads(woken) == Wakeful(s, n, m, s.order) && Carry(woken, m)
            && tail == (if woken != [] && s.round + 1 >= s.maxRounds && !s.frozen then
                          [Happened(RoundLimit(s.round + 1))] +
                            (if Attended(s) then [] else [Happened(FreezeWithoutObserver)])
                        else [])
  {
    hide Register, RouteAll, DeliverAll, CheckRoundLimit, RecordOf, AskedBy;
    hide Notes, Shown, Wakeful, Waiters, Heads, Carry, Attended;
    var m := NewMsg(s, n, f);
    var r := SayIsSplit(e, s, n, f);
    woken := r.woken;
    tail := WakesGoOut(e, r, s, n, m);
  }

  /** Whom the routing picks out, read off the state before the say. */
  lemma SayIsSplit(e: Env, s: State, n: Name, f: SayFrame) returns (r: Routing)
    requires n in s.regs
    ensures var m := NewMsg(s, n, f);
            && r == RouteAll(e, Routing(Register(e, s, n, f), [], [], 0), n, m, s.order)
            && r.observers == Shown(s, n, m, s.order) && Heads(r.woken) == Wakeful(s, n, m, s.order)
            && r.queued == Waiters(s, n, m, s.order) && Carry(r.woken, m)
            && r.state.log == s.log + [SayNote(s, n, f)]
            && r.state.round == s.round && SameFloor(s, r.state) && SameLimits(s, r.state)
  {
    hide Register, RouteAll, NewMsg, RecordOf, AskedBy, Shown, Wakeful, Waiters, Heads, Carry;
    var m := NewMsg(s, n, f);
    RegisterKinds(e, s, n, f);
    var s0 := Register(e, s, n, f);
    NothingYet(m);
    RouteAllLists(e, Routing(s0, [], [], 0), n, m, s.order);
    SameLists(s, s0, n, m, s.order);
    r := RouteAll(e, Routing(s0, [], [], 0), n, m, s.order);
    RoundKept(e, Routing(s0, [], [], 0), n, m, s.order);
  }

  lemma WakesGoOut(e: Env, r: Routing, s: State, n: Name, m: Msg) returns (tail: seq<Note>)
    requires SameFloor(s, r.state) && r.observers == Shown(s, n, m, s.order)
               && Heads(r.woken) == Wakeful(s, n, m, s.order)
    requires SameLimits(s, r.state) && r.state.round == s.round
    ensures var s1 := if r.woken != [] then r.state.(round := r.state.round + 1) else r.state;
            var s3 := DeliverAll(e, DeliverAll(e, s1, r.observers, false, BySay(m.id)), r.woken, true, BySay(m.id));
            var s4 := if r.woken != [] then CheckRoundLimit(e, s3) else s3;
            && s4.log == r.state.log + Notes(Shown(s, n, m, s.order), false, BySay(m.id), s1.round)
                                     + Notes(r.woken, true, BySay(m.id), s1.round) + tail
            && tail == (if r.woken != [] && s.round + 1 >= s.maxRounds && !s.frozen then
                          [Happened(RoundLimit(s.round + 1))] +
                            (if Attended(s) then [] else [Happened(FreezeWithoutObserver)])
                        else [])
  {
    hide DeliverAll, CheckRoundLimit, Notes, Shown, Wakeful, Heads, AllOfKind, Attended;
    var s1 := if r.woken != [] then r.state.(round := r.state.round + 1) else r.state;
    SameLists(s, s1, n, m, s.order);
    ListsAreOfKind(s1, n, m, s.order);
    HeadsOfKind(s1, n, m, r.woken, s.order);
    DeliverAllLog(e, s1, r.observers, false, false, BySay(m.id));
    var s2 := DeliverAll(e, s1, r.observers, false, BySay(m.id));
    KindKept(s1, s2, r.woken, true);
    DeliverAllLog(e, s2, r.woken, true, true, BySay(m.id));
    var s3 := DeliverAll(e, s2, r.woken, true, BySay(m.id));
    AttendedSame(s, s1);
    AttendedSame(s1, s2);
    AttendedSame(s2, s3);
    tail := LimitTail(e, s3, r.woken != []);
  }

  /** The news of the limit check, if it is made. */
  lemma LimitTail(e: Env, s: State, check: bool) returns (tail: seq<Note>)
    ensures (if check then CheckRoundLimit(e, s) else s).log == s.log + tail
    ensures tail == if check && s.round >= s.maxRounds && !s.frozen then LimitNews(s) else []
  {
    hide CheckRoundLimit, LimitNews;
    LimitIsTold(e, s);
    tail := if check && s.round >= s.maxRounds && !s.frozen then LimitNews(s) else [];
  }

  lemma AttendedSame(s: State, t: State)
    requires t.order == s.order && t.regs.Keys == s.regs.Keys
               && (forall x :: x in s.regs ==> t.regs[x].kind == s.regs[x].kind)
    ensures Attended(t) == Attended(s)
  {
    assert forall n :: t.IsObserverName(n) <==> s.IsObserverName(n);
  }

  lemma NothingYet(m: Msg)
    ensures Carry([], m) && Heads([]) == []
  {
  }

  lemma {:induction false} RoundKept(e: Env, r: Routing, sender: Name, m: Msg, names: seq<Name>)
    ensures RouteAll(e, r, sender, m, names).state.round == r.state.round
    decreases names
  {
    hide RouteOne;
    if names != [] {
      RouteOneKinds(e, r, sender, m, names[0]);
      RoundKept(e, RouteOne(e, r, sender, m, names[0]), sender, m, names[1..]);
    }
  }

  // ------------------------------------------------------------------ answers

  /** The `ok` and `err` frames of the log. */
  function Answers(log: seq<Note>): seq<Note> {
    if log == [] then []
    else
      var x := log[|log| - 1];
      Answers(log[..|log| - 1]) + (if x.Replied? && (x.reply.Ok? || x.reply.Err?) then [x] else [])
  }

  lemma {:induction false} AnswersConcat(a: seq<Note>, b: seq<Note>)
    ensures Answers(a + b) == Answers(a) + Answers(b)
  {
    if b == [] {
      assert a + b == a;
    } else {
      AnswersConcat(a, b[..|b| - 1]);
      assert (a + b)[..|a + b| - 1] == a + b[..|b| - 1];
    }
  }

  lemma {:induction false} NoAnswers(b: seq<Note>)
    requires forall i :: 0 <= i < |b| ==> !b[i].Replied?
    ensures Answers(b) == []
  {
    if b != [] {
      NoAnswers(b[..|b| - 1]);
    }
  }

  ghost predicate Silent(s: State, t: State) {
    Answers(t.log) == Answers(s.log)
  }

  lemma Adds(s: State, t: State, b: seq<Note>)
    requires t.log == s.log + b && forall i :: 0 <= i < |b| ==> !b[i].Replied?
    ensures Silent(s, t)
  {
    AnswersConcat(s.log, b);
    NoAnswers(b);
  }

  lemma EmitSilent(e: Env, s: State, ev: Event, skip: Option<Name>)
    ensures Silent(s, Emit(e, s, ev, skip))
  {
    hide Emit, Silent;
    EmitFrame(e, s, ev, skip);
    Adds(s, Emit(e, s, ev, skip), [Happened(ev)]);
  }

  lemma ChecksSilent(e: Env, s: State)
    ensures Silent(s, CheckRoundLimit(e, s)) && Silent(s, CheckSessionDone(e, s))
  {
    hide Silent, CheckRoundLimit, CheckSessionDone, SessionComplete, ClearFinished, Trace;
    assert s.log + [] == s.log;
    RoundLimitFrame(e, s);
    var t, limit, bare := CheckRoundLimit(e, s), Happened(RoundLimit(s.round)), Happened(FreezeWithoutObserver);
    if t.log == s.log {
      Adds(s, t, []);
    } else if t.log == s.log + [limit] {
      Adds(s, t, [limit]);
    } else {
      Adds(s, t, [limit, bare]);
    }
    SessionDoneFrame(e, s);
    var u, done := CheckSessionDone(e, s), Happened(SessionDone(s.round));
    Adds(s, u, if SessionComplete(s) then [done] else []);
  }

  lemma DeliverSilent(e: Env, s: State, n: Name, batch: seq<Msg>, cause: Cause)
    requires n in s.regs
    ensures Silent(s, Deliver(e, s, n, batch, true, cause))
  {
    hide Deliver, SortById, Silent;
    DeliverFrame(e, s, n, batch, true, cause);
    Adds(s, Deliver(e, s, n, batch, true, cause),
      [Delivered(n, !s.regs[n].IsObserver(), cause, s.round, SortById(batch))]);
  }

  lemma FlushSilent(e: Env, s: State, n: Name)
    requires n in s.regs
    ensures Silent(s, FlushQueue(e, s, n))
  {
    hide SliceBatch, AfterSlice, WakeSlice, Deliver, CheckRoundLimit, CheckSessionDone, Counts, Answers;
    var p := s.regs[n];
    if p.box.queue != [] && s.Connected(n) {
      var batch := SliceBatch(e.cfg, n, p.box);
      var t := s.Put(n, p.(box := AfterSlice(e.cfg, n, p.box)));
      var u, v := Deliver(e, t, n, batch, true, ByFlush), Deliver(e, t.(round := t.round + 1), n, batch, true, ByFlush);
      DeliverSilent(e, t, n, batch, ByFlush);
      DeliverSilent(e, t.(round := t.round + 1), n, batch, ByFlush);
      ChecksSilent(e, u);
      ChecksSilent(e, v);
      ChecksSilent(e, CheckRoundLimit(e, v));
    }
  }

  lemma InferSilent(e: Env, s: State, n: Name)
    requires n in s.regs
    ensures Silent(s, InferIdle(e, s, n))
  {
    hide FlushQueue, Answers;
    FlushSilent(e, s.Put(n, SetIdle(s.regs[n])), n);
  }

  lemma OneAnswer(c: ConnId, r: Reply)
    requires r.Ok? || r.Err?
    ensures Answers([Replied(c, r)]) == [Replied(c, r)]
  {
    assert [Replied(c, r)][..0] == [];
  }

  lemma RejectAnswers(e: Env, s: State, n: Name, f: SayFrame, code: ErrCode, retryAfter: Option<real>)
    requires n in s.regs
    ensures Answers(Reject(e, s, n, f, code, retryAfter).log)
         == Answers(s.log) + [Replied(s.regs[n].client, Err(code, Some(f.seqNo), retryAfter, ""))]
  {
    hide Emit, Answers;
    var r := Err(code, Some(f.seqNo), retryAfter, "");
    AnswersConcat(s.log, [Replied(s.regs[n].client, r)]);
    OneAnswer(s.regs[n].client, r);
    EmitSilent(e, Answer(e, s, s.regs[n].client, r), Rejected(n, code), None);
  }

  lemma AcceptAnswers(e: Env, s: State, n: Name, f: SayFrame)
    requires n in s.regs
    ensures Answers(Accept(e, s, n, f).log) == Answers(s.log) + [Replied(s.regs[n].client, Accepted(s, n, f))]
  {
    hide Accept, Answers;
    var ok := Replied(s.regs[n].client, Accepted(s, n, f));
    var middle := AcceptLog(e, s, n, f);
    NoAnswers(middle);
    AnswersConcat(s.log, middle);
    AnswersConcat(s.log + middle, [ok]);
    OneAnswer(ok.conn, ok.reply);
  }

  /** The reply is the last thing an accepted say leads to, and the only one. */
  lemma AcceptLog(e: Env, s: State, n: Name, f: SayFrame) returns (middle: seq<Note>)
    requires n in s.regs
    ensures Accept(e, s, n, f).log == s.log + middle + [Replied(s.regs[n].client, Accepted(s, n, f))]
    ensures forall i :: 0 <= i < |middle| ==> !middle[i].Replied?
  {
    hide Accept, Notes, Shown, Waiters, AskedBy, RecordOf, NewMsg, Accepted, Attended, Wakeful, Heads, Carry;
    var m := NewMsg(s, n, f);
    var woken, tail := SayGoesOut(e, s, n, f);
    var round := s.round + (if woken != [] then 1 else 0);
    var shown, waking := Notes(Shown(s, n, m, s.order), false, BySay(m.id), round),
      Notes(woken, true, BySay(m.id), round);
    NotesAreFrames(Shown(s, n, m, s.order), false, BySay(m.id), round);
    NotesAreFrames(woken, true, BySay(m.id), round);
    middle := [SayNote(s, n, f)] + shown + waking + tail;
  }

  lemma NotesAreFrames(batches: seq<(Name, seq<Msg>)>, toAgent: bool, cause: Cause, round: nat)
    ensures forall i :: 0 <= i < |Notes(batches, toAgent, cause, round)| ==>
              Notes(batches, toAgent, cause, round)[i].Delivered?
  {
    hide SortById;
  }

  /** Every say is answered exactly once, on the connection it came from and with its own
      seq: by an `ok` with the next id if it was accepted, by an `err` if not. */
  lemma SayIsAnswered(e: Env, s: State, n: Name, f: SayFrame) returns (reply: Reply)
    requires n in s.regs && e.cfg.ratePerSecond > 0.0
    ensures Answers(HandleSay(e, s, n, f).log) == Answers(s.log) + [Replied(s.regs[n].client, reply)]
    ensures if RouteSay(e, s, n, f).1
            then reply.Ok? && reply.id == Some(s.msgCounter + 1) && reply.seqNo == Some(f.seqNo)
            else reply.Err? && reply.seqNo == Some(f.seqNo)
  {
    hide Answers, RouteSay, InferIdle, CheckSessionDone;
    reply := RouteAnswers(e, s, n, f);
    var s1 := RouteSay(e, s, n, f).0;
    if n in s1.regs {
      InferSilent(e, s1, n);
      var s2 := InferIdle(e, s1, n);
      if n in s2.regs {
        ChecksSilent(e, MarkFinished(s2, n, true));
      }
    }
  }

  lemma RouteAnswers(e: Env, s: State, n: Name, f: SayFrame) returns (reply: Reply)
    requires n in s.regs && e.cfg.ratePerSecond > 0.0
    ensures Answers(RouteSay(e, s, n, f).0.log) == Answers(s.log) + [Replied(s.regs[n].client, reply)]
    ensures if RouteSay(e, s, n, f).1
            then reply.Ok? && reply.id == Some(s.msgCounter + 1) && reply.seqNo == Some(f.seqNo)
            else reply.Err? && reply.seqNo == Some(f.seqNo)
  {
    hide Answers, Accept, Reject, EarlyRefusal, MaySpend, Repeats, Remember, Spend;
    var p := s.regs[n];
    var early := EarlyRefusal(s, p, f);
    if early.Some? {
      RejectAnswers(e, s, n, f, early.value, None);
      reply := Err(early.value, Some(f.seqNo), None, "");
    } else if !p.IsObserver() && !MaySpend(e, s, p) {
      var wait := Some(Bucket.Wait(e.cfg.rateBurst as real, e.cfg.ratePerSecond, p.bucket, s.clock.mono));
      ClientKept(e, s, n, f);
      RejectAnswers(e, Spent(e, s, n), n, f, RateLimited, wait);
      reply := Err(RateLimited, Some(f.seqNo), wait, "");
    } else if !p.IsObserver() && Repeats(e, s, p, f) {
      ClientKept(e, s, n, f);
      RejectAnswers(e, Checked(e, s, n, f), n, f, Duplicate, None);
      reply := Err(Duplicate, Some(f.seqNo), None, "");
    } else {
      var t := if p.IsObserver() then s else Kept(e, s, n, f);
      ClientKept(e, s, n, f);
      AcceptAnswers(e, t, n, f);
      reply := Accepted(t, n, f);
    }
  }

  lemma ClientKept(e: Env, s: State, n: Name, f: SayFrame)
    requires n in s.regs
    ensures n in Spent(e, s, n).regs && Spent(e, s, n).regs[n].client == s.regs[n].client && Spent(e, s, n).log == s.log
    ensures n in Checked(e, s, n, f).regs && Checked(e, s, n, f).regs[n].client == s.regs[n].client
              && Checked(e, s, n, f).log == s.log
    ensures n in Kept(e, s, n, f).regs && Kept(e, s, n, f).regs[n].client == s.regs[n].client
              && Kept(e, s, n, f).log == s.log
    ensures Kept(e, s, n, f).msgCounter == s.msgCounter
  {
    hide Dedup.AfterSeen, Bucket.AfterTake;
  }
}
