/** The state of the hub as a value: registrations, floor, clock, connections and records
    (src/moot/core/hub.py:52-114). */
module HubState {
  import opened Types
  import opened Mailbox
  import Bucket
  import Dedup

  /** A connection; the hub sees it only as something to send to and to compare. */
  type ConnId = nat

  datatype Clock = Clock(mono: real, wall: real, day: int)

  /** The fixed surroundings: the configuration, and which of the sends, counted from the
      start, meet a failed transport. `fails` is arbitrary, so every theorem holds however
      connections are lost while a frame is being handled. */
  datatype Env = Env(cfg: Config, fails: nat -> bool)

  /** A `msg` record of the transcript. */
  datatype Rec = Rec(id: nat, sender: Name, to: Name, kind: string, text: Text, ts: real, private: bool)

  datatype DayRec = DayRec(day: int, rec: Rec)

  datatype ErrCode = Malformed | NameTaken | UnknownRecipient | RateLimited | Duplicate | Frozen | Muted | Forbidden

  datatype Event =
    | PeerJoined(name: Name, kind: string)
    | PeerLeft(name: Name)
    | Rejected(name: Name, code: ErrCode)
    | RoundLimit(round: nat)
    | FreezeWithoutObserver
    | FrozenBy(round: nat)
    | Resumed(round: nat, maxRounds: nat)
    | WasReset(fromRound: nat)
    | MutedOn
    | MutedOff
    | GoalSet(goal: string)
    | SessionDone(round: nat)
    | Stalled(agent: Option<Name>)
    | BlockedFor(name: Name)
    | QuorumReached(names: set<Name>)

  datatype Reply =
    | Err(code: ErrCode, seqNo: Option<int>, retryAfter: Option<real>, suggestion: string)
    | Ok(id: Option<nat>, queued: nat, seqNo: Option<int>)
    | Welcome
    | RosterReply
    | Ping

  /** Why a frame went out. */
  datatype Cause = BySay(id: nat) | ByFlush | ByNote(id: nat) | ByBacklog

  /** What the hub did, in order: the transcript's records plus the replies. */
  datatype Note =
    | SayAccepted(rec: Rec, at: real, asked: set<Name>, byAgent: bool)
    | Delivered(to: Name, toAgent: bool, cause: Cause, round: nat, msgs: seq<Msg>)
    | Happened(event: Event)
    | Replied(conn: ConnId, reply: Reply)

  predicate OfAgent(x: Note) {
    (x.Delivered? && x.toAgent) || (x.SayAccepted? && x.byAgent)
  }

  /** The frames sent to agents and the says accepted from them, in order. */
  function AgentLog(log: seq<Note>): seq<Note> {
    if log == [] then []
    else
      var x := log[|log| - 1];
      AgentLog(log[..|log| - 1]) + (if OfAgent(x) then [x] else [])
  }

  datatype Part = Part(
    name: Name,
    kind: string,
    caps: set<string>,
    client: ConnId,
    box: Box,
    bucket: Bucket.Tokens,
    dedup: map<string, real>,
    says: seq<Dedup.Said>,   // every say accepted from this registration while an agent
    state: Activity,
    finished: bool,
    lastRx: real,
    busySince: real,
    lastSay: real,
    blockedSince: Option<real>,
    blockedDetail: Option<string>,
    awaitingPong: bool,
    pongDeadline: real,
    joinedAt: nat)           // how long the agents' log was when it first joined
  {
    predicate IsObserver() {
      kind == OBSERVER
    }

    predicate ReportsIdle() {
      "idle-events" in caps
    }
  }

  datatype State = State(
    regs: map<Name, Part>,       // live and dead registrations together
    order: seq<Name>,            // the live ones, in the order they joined
    gone: set<ConnId>,           // connections whose transport is down
    names: map<ConnId, Name>,    // the name a connection registered
    clock: Clock,
    sent: nat,                   // frames sent so far
    round: nat,
    frozen: bool,
    muted: bool,
    goal: string,
    maxRounds: nat,
    lastActivity: real,
    stallLatched: bool,
    lastObserverSay: Option<real>,
    quorumExpected: set<Name>,
    quorumLatched: bool,
    blockedNotified: set<Name>,
    msgCounter: nat,
    recent: seq<Rec>,
    archive: seq<DayRec>,        // the transcript's msg records
    log: seq<Note>)
  {
    predicate Live(n: Name) {
      n in order && n in regs
    }

    predicate Connected(n: Name)
      requires n in regs
    {
      regs[n].client !in gone
    }

    predicate IsAgent(n: Name) {
      n in order && n in regs && !regs[n].IsObserver()
    }

    predicate IsObserverName(n: Name) {
      n in order && n in regs && regs[n].IsObserver()
    }

    function Put(n: Name, p: Part): State {
      this.(regs := regs[n := p])
    }

    function Noting(note: Note): State {
      this.(log := log + [note])
    }

    /** Conversation happened: feeds the stall detector. */
    function Touch(): State {
      this.(lastActivity := clock.mono, stallLatched := false)
    }
  }

  /** Every live name has a registration under its own name, and joined once. */
  predicate Rooted(s: State) {
    && (forall i :: 0 <= i < |s.order| ==> s.order[i] in s.regs)
    && (forall i, j :: 0 <= i < j < |s.order| ==> s.order[i] != s.order[j])
    && (forall n :: n in s.regs ==> s.regs[n].name == n)
  }

  function Last<T>(xs: seq<T>, k: nat): seq<T> {
    if |xs| <= k then xs else xs[|xs| - k..]
  }

  function Without(xs: seq<Name>, n: Name): seq<Name> {
    if xs == [] then []
    else if xs[0] == n then Without(xs[1..], n)
    else [xs[0]] + Without(xs[1..], n)
  }
}
