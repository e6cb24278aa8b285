/** Every mailbox stays in order, and no deliverable agent waits: the two hold each other
    up, because an immediate wake keeps the order only if the queue is empty. */
module LawMail {
  import opened Types
  import opened Mailbox
  import opened MailboxLaws
  import opened HubState
  import opened HubSpec
  import opened HubFrames

  /** A batch drawn for a recipient and not handed over yet. */
  function Pending(batches: seq<(Name, seq<Msg>)>, n: Name): seq<Msg>
    decreases batches
  {
    if batches == [] then []
    else if batches[0].0 == n then batches[0].1
    else Pending(batches[1..], n)
  }

  /** Every mailbox is in order up to `hi`; those in `behind` have not seen `hi` itself. */
  ghost predicate Mail(cfg: Config, regs: map<Name, Part>, hi: nat, behind: set<Name>, batches: seq<(Name, seq<Msg>)>) {
    forall n :: n in regs ==> BoxInv(cfg, if n in behind && hi > 0 then hi - 1 else hi, n, regs[n].box,
      Pending(batches, n))
  }

  /** A live agent that is idle and connected has an empty queue. */
  ghost predicate NothingWaits(s: State) {
    NothingWaitsBut(s, {})
  }

  ghost predicate NothingWaitsBut(s: State, but: set<Name>) {
    forall n :: n in s.order && n !in but && s.IsAgent(n) && s.regs[n].state == Idle && s.Connected(n) ==>
      s.regs[n].box.queue == []
  }

  /** The recent window holds participants' words, numbered in order, up to the counter. */
  ghost predicate RecentRises(recent: seq<Rec>, hi: nat) {
    && (forall i, j :: 0 <= i < j < |recent| ==> recent[i].id < recent[j].id)
    && (forall i :: 0 <= i < |recent| ==> 1 <= recent[i].id <= hi && recent[i].text.Words?)
  }

  // ------------------------------------------------------------------ pointwise

  lemma MailMonotone(cfg: Config, regs: map<Name, Part>, lo: nat, hi: nat)
    requires Mail(cfg, regs, lo, {}, []) && lo <= hi
    ensures Mail(cfg, regs, hi, {}, [])
  {
    hide BoxInv;
    forall n | n in regs
      ensures BoxInv(cfg, hi, n, regs[n].box, [])
    {
      BoxMonotone(cfg, lo, hi, n, regs[n].box, []);
    }
  }

  function Boxes(regs: map<Name, Part>): map<Name, Box> {
    map n | n in regs :: regs[n].box
  }

  lemma MailSame(cfg: Config, regs: map<Name, Part>, regs': map<Name, Part>, hi: nat, behind: set<Name>,
      batches: seq<(Name, seq<Msg>)>)
    requires Mail(cfg, regs, hi, behind, batches) && Boxes(regs') == Boxes(regs)
    ensures Mail(cfg, regs', hi, behind, batches)
  {
    hide BoxInv;
    forall n | n in regs'
      ensures n in regs && regs'[n].box == regs[n].box
    {
      assert n in Boxes(regs') && n in Boxes(regs);
      assert Boxes(regs')[n] == Boxes(regs)[n];
    }
  }

  // ------------------------------------------------------------------ delivering

  /** Handing over a drawn batch settles it. */
  lemma DeliverMail(e: Env, s: State, n: Name, batch: seq<Msg>, cause: Cause, hi: nat, batches: seq<(Name, seq<Msg>)>)
    requires n in s.regs && batch != [] && Mail(e.cfg, s.regs, hi, {}, [(n, batch)] + batches)
    requires Pending(batches, n) == []
    ensures Mail(e.cfg, Deliver(e, s, n, batch, true, cause).regs, hi, {}, batches)
  {
    hide BoxInv, Hand, SortById, Deliver;
    DeliverFrame(e, s, n, batch, true, cause);
    var p, t := s.regs[n], Deliver(e, s, n, batch, true, cause);
    var all := [(n, batch)] + batches;
    assert all[1..] == batches && Pending(all, n) == batch;
    HandHolds(e.cfg, hi, n, p.box, !p.IsObserver(), batch);
    forall m | m in t.regs
      ensures BoxInv(e.cfg, hi, m, t.regs[m].box, Pending(batches, m))
    {
      assert m in s.regs;
      if m != n {
        assert Pending(all, m) == Pending(batches, m);
        assert BoxInv(e.cfg, hi, m, s.regs[m].box, Pending(all, m));
      }
    }
  }

  /** A batch that never entered the mailbox leaves it alone. */
  lemma DeliverCopyMail(e: Env, s: State, n: Name, batch: seq<Msg>, cause: Cause, hi: nat, behind: set<Name>,
      batches: seq<(Name, seq<Msg>)>)
    requires n in s.regs && Mail(e.cfg, s.regs, hi, behind, batches)
    ensures Mail(e.cfg, Deliver(e, s, n, batch, false, cause).regs, hi, behind, batches)
  {
    hide BoxInv, SortById, Deliver;
    DeliverFrame(e, s, n, batch, false, cause);
  }

  lemma DeliverWaits(e: Env, s: State, n: Name, batch: seq<Msg>, drawn: bool, cause: Cause, but: set<Name>)
    requires n in s.regs && NothingWaitsBut(s, but)
    ensures NothingWaitsBut(Deliver(e, s, n, batch, drawn, cause), but - {n})
  {
    hide SortById, Deliver;
    DeliverFrame(e, s, n, batch, drawn, cause);
  }

  /** Losing connections and clearing marks makes nobody wait. */
  lemma ChecksMail(e: Env, s: State, hi: nat, but: set<Name>)
    ensures Boxes(CheckRoundLimit(e, s).regs) == Boxes(s.regs)
    ensures Boxes(CheckSessionDone(e, s).regs) == Boxes(s.regs)
    ensures NothingWaitsBut(s, but) ==> NothingWaitsBut(CheckRoundLimit(e, s), but)
    ensures NothingWaitsBut(s, but) ==> NothingWaitsBut(CheckSessionDone(e, s), but)
  {
    RoundLimitFrame(e, s);
    SessionDoneFrame(e, s);
    hide CheckRoundLimit, CheckSessionDone;
    assert Boxes(ClearFinished(s).regs) == Boxes(s.regs);
  }

  // ------------------------------------------------------------------ flushing

  /** The idle transition: afterwards the mailbox is in order and its owner does not wait. */
  lemma FlushMail(e: Env, s: State, n: Name)
    requires e.cfg.Valid() && n in s.regs && Mail(e.cfg, s.regs, s.msgCounter, {}, []) && NothingWaitsBut(s, {n})
    ensures var t := FlushQueue(e, s, n);
            Mail(e.cfg, t.regs, t.msgCounter, {}, []) && NothingWaits(t)
  {
    hide BoxInv, Deliver, CheckRoundLimit, CheckSessionDone, SliceBatch, AfterSlice, WakeSlice;
    var p := s.regs[n];
    if p.box.queue != [] && s.Connected(n) {
      var t := SlicedState(e, s, n);
      SliceMail(e, s, n);
      FlushDelivers(e, t, n, SliceBatch(e.cfg, n, p.box));
      FlushDelivers(e, t.(round := t.round + 1), n, SliceBatch(e.cfg, n, p.box));
    }
  }

  function SlicedState(e: Env, s: State, n: Name): State
    requires n in s.regs
  {
    s.Put(n, s.regs[n].(box := AfterSlice(e.cfg, n, s.regs[n].box)))
  }

  lemma SliceMail(e: Env, s: State, n: Name)
    requires e.cfg.Valid() && n in s.regs && Mail(e.cfg, s.regs, s.msgCounter, {}, []) && NothingWaitsBut(s, {n})
    requires s.regs[n].box.queue != []
    ensures Mail(e.cfg, SlicedState(e, s, n).regs, s.msgCounter, {}, [(n, SliceBatch(e.cfg, n, s.regs[n].box))])
    ensures NothingWaitsBut(SlicedState(e, s, n), {n}) && SliceBatch(e.cfg, n, s.regs[n].box) != []
  {
    hide BoxInv, SliceBatch, AfterSlice;
    var p := s.regs[n];
    SliceHolds(e.cfg, s.msgCounter, n, p.box);
    var all := [(n, SliceBatch(e.cfg, n, p.box))];
    assert all[1..] == [];
    forall m | m in s.regs && m != n
      ensures BoxInv(e.cfg, s.msgCounter, m, s.regs[m].box, Pending(all, m))
    {
      assert Pending(all, m) == [];
    }
  }

  lemma FlushDelivers(e: Env, t: State, n: Name, batch: seq<Msg>)
    requires n in t.regs && batch != [] && Mail(e.cfg, t.regs, t.msgCounter, {}, [(n, batch)])
               && NothingWaitsBut(t, {n})
    ensures var u := Deliver(e, t, n, batch, true, ByFlush);
            var v, w := CheckSessionDone(e, u), CheckSessionDone(e, CheckRoundLimit(e, u));
            && Mail(e.cfg, v.regs, v.msgCounter, {}, []) && NothingWaits(v)
            && Mail(e.cfg, w.regs, w.msgCounter, {}, []) && NothingWaits(w)
  {
    hide BoxInv, Deliver, CheckRoundLimit, CheckSessionDone, Boxes, Mail, NothingWaitsBut;
    assert [(n, batch)] + [] == [(n, batch)];
    DeliverMail(e, t, n, batch, ByFlush, t.msgCounter, []);
    DeliverWaits(e, t, n, batch, true, ByFlush, {n});
    DeliverFrame(e, t, n, batch, true, ByFlush);
    assert {n} - {n} == {};
    var u := Deliver(e, t, n, batch, true, ByFlush);
    var v := CheckRoundLimit(e, u);
    ChecksMail(e, u, t.msgCounter, {});
    ChecksMail(e, v, t.msgCounter, {});
    RoundLimitFrame(e, u);
    SessionDoneFrame(e, u);
    SessionDoneFrame(e, v);
    MailSame(e.cfg, u.regs, v.regs, t.msgCounter, {}, []);
    MailSame(e.cfg, u.regs, CheckSessionDone(e, u).regs, t.msgCounter, {}, []);
    MailSame(e.cfg, u.regs, CheckSessionDone(e, v).regs, t.msgCounter, {}, []);
  }

  // ------------------------------------------------------------------ one recipient of a new message

  /** A message has just got the id `hi`; the mailboxes in `behind` have not seen it. */
  lemma MailBehind(cfg: Config, regs: map<Name, Part>, lo: nat, behind: set<Name>)
    requires Mail(cfg, regs, lo, {}, [])
    ensures Mail(cfg, regs, lo + 1, behind, [])
  {
    hide BoxInv;
    forall n | n in regs
      ensures BoxInv(cfg, if n in behind then lo else lo + 1, n, regs[n].box, [])
    {
      BoxMonotone(cfg, lo, lo + 1, n, regs[n].box, []);
    }
  }

  predicate Unlisted(batches: seq<(Name, seq<Msg>)>, n: Name) {
    forall i :: 0 <= i < |batches| ==> batches[i].0 != n
  }

  lemma {:induction false} PendingAppend(batches: seq<(Name, seq<Msg>)>, q: Name, b: seq<Msg>, n: Name)
    requires Unlisted(batches, q)
    ensures Pending(batches + [(q, b)], n) == if n == q then b else Pending(batches, n)
    ensures Pending(batches, q) == []
  {
    if batches != [] {
      PendingAppend(batches[1..], q, b, n);
      assert (batches + [(q, b)])[1..] == batches[1..] + [(q, b)];
    }
  }

  lemma WakePending(cfg: Config, regs: map<Name, Part>, behind: set<Name>, batches: seq<(Name, seq<Msg>)>, n: Name,
      m: Msg, p: Part)
    requires cfg.Valid() && n in regs && n in behind && m.id > 0 && Mail(cfg, regs, m.id, behind, batches)
    requires Unlisted(batches, n) && regs[n].box.queue == [] && QueueLine(m) && Readable(n, m)
    requires p.box == AfterWake(regs[n].box, m)
    ensures Mail(cfg, regs[n := p], m.id, behind - {n}, batches + [(n, WakeBatch(regs[n].box, m))])
    ensures WakeBatch(regs[n].box, m) != []
  {
    hide BoxInv, AfterWake, WakeBatch;
    var b := regs[n].box;
    PendingAppend(batches, n, WakeBatch(b, m), n);
    assert BoxInv(cfg, m.id - 1, n, b, []);
    WakeHolds(cfg, m.id - 1, n, b, m);
    forall k | k in regs && k != n
      ensures Pending(batches + [(n, WakeBatch(b, m))], k) == Pending(batches, k)
    {
      PendingAppend(batches, n, WakeBatch(b, m), k);
    }
  }

  lemma QueuePending(cfg: Config, regs: map<Name, Part>, behind: set<Name>, batches: seq<(Name, seq<Msg>)>, n: Name,
      m: Msg, p: Part)
    requires cfg.Valid() && n in regs && n in behind && m.id > 0 && Mail(cfg, regs, m.id, behind, batches)
    requires Unlisted(batches, n) && QueueLine(m) && Readable(n, m)
    requires p.box == Enqueue(cfg, regs[n].box, m)
    ensures Mail(cfg, regs[n := p], m.id, behind - {n}, batches)
  {
    hide BoxInv, Enqueue;
    PendingAppend(batches, n, [], n);
    assert BoxInv(cfg, m.id - 1, n, regs[n].box, []);
    EnqueueHolds(cfg, m.id - 1, n, regs[n].box, m);
  }

  lemma OverhearPending(cfg: Config, regs: map<Name, Part>, behind: set<Name>, batches: seq<(Name, seq<Msg>)>,
      n: Name, m: Msg, p: Part)
    requires cfg.Valid() && n in regs && n in behind && m.id > 0 && Mail(cfg, regs, m.id, behind, batches)
    requires Unlisted(batches, n) && ContextLine(m) && Readable(n, m)
    requires p.box == Overhear(cfg, regs[n].box, m)
    ensures Mail(cfg, regs[n := p], m.id, behind - {n}, batches)
  {
    hide BoxInv, Overhear;
    PendingAppend(batches, n, [], n);
    assert BoxInv(cfg, m.id - 1, n, regs[n].box, []);
    OverhearHolds(cfg, m.id - 1, n, regs[n].box, m);
  }

  /** A mailbox may catch up without receiving anything. */
  lemma SkipPending(cfg: Config, regs: map<Name, Part>, hi: nat, behind: set<Name>, batches: seq<(Name, seq<Msg>)>,
      n: Name)
    requires Mail(cfg, regs, hi, behind, batches)
    ensures Mail(cfg, regs, hi, behind - {n}, batches)
  {
    hide BoxInv;
    if n in regs && n in behind && hi > 0 {
      BoxMonotone(cfg, hi - 1, hi, n, regs[n].box, Pending(batches, n));
    }
  }

  // ------------------------------------------------------------------ system notes

  lemma SystemOneMail(e: Env, s: State, n: Name, text: Text)
    requires e.cfg.Valid() && n in s.regs && Mail(e.cfg, s.regs, s.msgCounter, {}, []) && NothingWaits(s)
    requires text.MuteNote? && n in s.order
    ensures var t := SystemOne(e, s, n, text);
            Mail(e.cfg, t.regs, t.msgCounter, {}, []) && NothingWaits(t)
  {
    hide Mail, Deliver, Woken, Queued, WakeBatch, NothingWaitsBut;
    var p, m := s.regs[n], SystemNote(s, n, text);
    var t := s.(msgCounter := s.msgCounter + 1);
    if !p.IsObserver() {
      MailBehind(e.cfg, s.regs, s.msgCounter, {n});
      assert {n} - {n} == {};
      if Wakeable(s, n) {
        IdleIsEmpty(s, n);
      }
      BoxOps(e, p, m);
      PutWaits(e, s, n, m);
      if Wakeable(s, n) {
        WakePending(e.cfg, s.regs, {n}, [], n, m, Woken(p, m));
        NoteDelivers(e, t.Put(n, Woken(p, m)), n, WakeBatch(p.box, m), ByNote(m.id));
      } else {
        QueuePending(e.cfg, s.regs, {n}, [], n, m, Queued(e, p, m));
      }
    }
  }

  lemma IdleIsEmpty(s: State, n: Name)
    requires NothingWaits(s) && n in s.regs && n in s.order && Wakeable(s, n) && !s.regs[n].IsObserver()
    ensures s.regs[n].box.queue == []
  {
    assert s.IsAgent(n);
  }

  lemma BoxOps(e: Env, p: Part, m: Msg)
    ensures Woken(p, m).box == AfterWake(p.box, m)
    ensures Queued(e, p, m).box == Enqueue(e.cfg, p.box, m)
    ensures Buffered(e, p, m).box == Overhear(e.cfg, p.box, m)
  {
  }

  /** A message reaching a mailbox makes nobody wait who could be woken. */
  lemma PutWaits(e: Env, s: State, n: Name, m: Msg)
    requires NothingWaits(s) && n in s.regs
    ensures NothingWaits(s.Put(n, Woken(s.regs[n], m))) && NothingWaits(s.Put(n, Buffered(e, s.regs[n], m)))
    ensures !Wakeable(s, n) || s.regs[n].IsObserver() ==> NothingWaits(s.Put(n, Queued(e, s.regs[n], m)))
    ensures NothingWaits(s.(msgCounter := s.msgCounter + 1).Put(n, Woken(s.regs[n], m)))
    ensures !Wakeable(s, n) ==> NothingWaits(s.(msgCounter := s.msgCounter + 1).Put(n, Queued(e, s.regs[n], m)))
  {
    BoxOpSeats(e, s.regs[n], m);
    hide Woken, Queued, Buffered;
  }

  lemma NoteDelivers(e: Env, t: State, n: Name, batch: seq<Msg>, cause: Cause)
    requires n in t.regs && batch != [] && Mail(e.cfg, t.regs, t.msgCounter, {}, [] + [(n, batch)]) && NothingWaits(t)
    ensures var u := Deliver(e, t, n, batch, true, cause);
            Mail(e.cfg, u.regs, u.msgCounter, {}, []) && NothingWaits(u)
  {
    hide Deliver, Mail, NothingWaitsBut;
    assert [(n, batch)] + [] == [] + [(n, batch)];
    DeliverMail(e, t, n, batch, cause, t.msgCounter, []);
    DeliverWaits(e, t, n, batch, true, cause, {});
    DeliverFrame(e, t, n, batch, true, cause);
    assert {} - {n} == {};
  }

  lemma {:induction false} SystemMail(e: Env, s: State, names: seq<Name>, text: Text)
    requires e.cfg.Valid() && Mail(e.cfg, s.regs, s.msgCounter, {}, []) && NothingWaits(s)
    requires text.MuteNote? && forall i :: 0 <= i < |names| ==> names[i] in s.order
    ensures var t := SystemMessage(e, s, names, text);
            Mail(e.cfg, t.regs, t.msgCounter, {}, []) && NothingWaits(t)
    decreases names
  {
    if names != [] {
      hide Mail, NothingWaits, SystemOne;
      var t := if names[0] in s.regs then SystemOne(e, s, names[0], text) else s;
      if names[0] in s.regs {
        SystemOneMail(e, s, names[0], text);
        SystemOneSteady(e, s, names[0], text);
      }
      SystemMail(e, t, names[1..], text);
    }
  }

  // ------------------------------------------------------------------ routing a say

  function NameSet(names: seq<Name>): set<Name> {
    set n | n in names
  }

  /** What holds while a new message is offered to one recipient after another: `rest` are
      the names still to come, in `r.woken` are those with a batch in hand. */
  ghost predicate Routed(e: Env, r: Routing, sender: Name, m: Msg, rest: seq<Name>) {
    && Mail(e.cfg, r.state.regs, m.id, NameSet(rest), r.woken)
    && NothingWaits(r.state)
    && (forall i :: 0 <= i < |r.woken| ==> r.woken[i].0 !in rest && r.woken[i].0 in r.state.regs && r.woken[i].1 != [])
    && (forall i, j :: 0 <= i < j < |r.woken| ==> r.woken[i].0 != r.woken[j].0)
    && (forall i :: 0 <= i < |r.woken| ==> r.state.IsAgent(r.woken[i].0))
    && (forall i :: 0 <= i < |r.observers| ==>
       r.observers[i].0 in r.state.regs && r.state.regs[r.observers[i].0].IsObserver())
  }

  lemma RouteOneMail(e: Env, r: Routing, sender: Name, m: Msg, rest: seq<Name>)
    requires e.cfg.Valid() && rest != [] && Routed(e, r, sender, m, rest)
    requires m.id > 0 && m.text.Words? && (m.private ==> m.to != EVERYONE)
    requires rest[0] !in rest[1..] && rest[0] in r.state.order
    ensures Mail(e.cfg, RouteOne(e, r, sender, m, rest[0]).state.regs, m.id, NameSet(rest[1..]),
              RouteOne(e, r, sender, m, rest[0]).woken)
  {
    hide Mail, Woken, WakeBatch, Queued, Buffered, NothingWaitsBut;
    var q, s := rest[0], r.state;
    var behind := NameSet(rest);
    RestOf(rest);
    if q == sender || q !in s.regs {
      SkipPending(e.cfg, s.regs, m.id, behind, r.woken, q);
    } else {
      var p, tagged := s.regs[q], m.Tag(Addressed(q, m.to));
      BoxOps(e, p, tagged);
      if p.IsObserver() || (tagged.addressing == Overheard && m.private) {
        SkipPending(e.cfg, s.regs, m.id, behind, r.woken, q);
      } else if tagged.addressing == Overheard {
        OverhearPending(e.cfg, s.regs, behind, r.woken, q, tagged, Buffered(e, p, tagged));
      } else if Wakeable(s, q) {
        IdleIsEmpty(s, q);
        WakePending(e.cfg, s.regs, behind, r.woken, q, tagged, Woken(p, tagged));
      } else {
        QueuePending(e.cfg, s.regs, behind, r.woken, q, tagged, Queued(e, p, tagged));
      }
    }
  }

  lemma RestOf(rest: seq<Name>)
    requires rest != [] && rest[0] !in rest[1..]
    ensures NameSet(rest) - {rest[0]} == NameSet(rest[1..])
    ensures forall n :: n in rest <==> n == rest[0] || n in rest[1..]
    ensures rest[0] in NameSet(rest)
  {
    assert rest == [rest[0]] + rest[1..];
  }

  lemma RouteOneRest(e: Env, r: Routing, sender: Name, m: Msg, rest: seq<Name>)
    requires rest != [] && Routed(e, r, sender, m, rest) && rest[0] !in rest[1..] && rest[0] in r.state.order
    ensures Mail(e.cfg, RouteOne(e, r, sender, m, rest[0]).state.regs, m.id, NameSet(rest[1..]),
              RouteOne(e, r, sender, m, rest[0]).woken)
            ==> Routed(e, RouteOne(e, r, sender, m, rest[0]), sender, m, rest[1..])
  {
    hide Mail, RouteOne, NothingWaitsBut, Steady, Seats;
    var q, s := rest[0], r.state;
    RestOf(rest);
    RouteOneSteady(e, r, sender, m, q);
    SteadyFacts(s, RouteOne(e, r, sender, m, q).state);
    RouteOneOrder(e, r, sender, m, q);
    RouteOneWaits(e, r, sender, m, q);
    RouteOneLists(e, r, sender, m, q);
  }

  lemma RouteOneLists(e: Env, r: Routing, sender: Name, m: Msg, q: Name)
    ensures var t := RouteOne(e, r, sender, m, q);
            && (t.woken == r.woken || (exists b ::
                 t.woken == r.woken + [(q, b)] && b != [] && q in r.state.regs && !r.state.regs[q].IsObserver()))
            && (t.observers == r.observers || (exists b ::
                 t.observers == r.observers + [(q, b)] && q in r.state.regs && r.state.regs[q].IsObserver()))
  {
    hide Woken, Queued, Buffered;
  }

  lemma RouteOneWaits(e: Env, r: Routing, sender: Name, m: Msg, q: Name)
    requires NothingWaits(r.state)
    ensures NothingWaits(RouteOne(e, r, sender, m, q).state)
  {
    hide WakeBatch, Woken, Buffered, Queued, NothingWaitsBut;
    if q in r.state.regs {
      PutWaits(e, r.state, q, m.Tag(Addressed(q, m.to)));
    }
  }

  lemma {:induction false} RouteAllMail(e: Env, r: Routing, sender: Name, m: Msg, rest: seq<Name>)
    requires e.cfg.Valid() && Routed(e, r, sender, m, rest)
    requires m.id > 0 && m.text.Words? && (m.private ==> m.to != EVERYONE)
    requires forall i :: 0 <= i < |rest| ==> rest[i] in r.state.order
    requires forall i, j :: 0 <= i < j < |rest| ==> rest[i] != rest[j]
    ensures Routed(e, RouteAll(e, r, sender, m, rest), sender, m, [])
    decreases rest
  {
    if rest != [] {
      hide Routed, Mail, RouteOne, NothingWaitsBut, Steady, Seats;
      var t := RouteOne(e, r, sender, m, rest[0]);
      RouteOneMail(e, r, sender, m, rest);
      RouteOneRest(e, r, sender, m, rest);
      assert t.state.order == r.state.order by { RouteOneOrder(e, r, sender, m, rest[0]); }
      RouteAllMail(e, t, sender, m, rest[1..]);
    }
  }

  lemma RouteOneOrder(e: Env, r: Routing, sender: Name, m: Msg, q: Name)
    ensures RouteOne(e, r, sender, m, q).state.order == r.state.order
  {
    hide RouteOne, Seats, Trace;
    RouteOneSteady(e, r, sender, m, q);
  }
}
