/** Messages, addressing and configuration (src/moot/core/types.py, src/moot/core/config.py). */
module Types {
  datatype Option<+T> = None | Some(value: T)

  type Name = string

  const SYSTEM_SENDER: Name := "system"
  const OBSERVER := "observer"
  const EVERYONE: Name := "*"

  datatype Addressing = Untagged | Direct | Broadcast | Overheard

  datatype Activity = Idle | Busy | Blocked

  /** What a message says. A participant's text is opaque; the lines the hub writes itself
      keep their count (or flag) as a field instead of formatting it into a string. */
  datatype Text =
    | Words(words: string)
    | DropNotice(dropped: nat)   // "N addressed messages dropped while you were busy"
    | OmitNotice(omitted: nat)   // "N older messages omitted"
    | GoalLine(goal: string)
    | MuteNote(muted: bool)

  datatype Msg = Msg(
    id: nat,
    sender: Name,
    to: Name,
    kind: string,
    text: Text,
    ts: real,
    addressing: Addressing,
    seqNo: Option<int>,
    private: bool)
  {
    /** The per-recipient copy. */
    function Tag(a: Addressing): Msg {
      this.(addressing := a)
    }

    /** The two lines that announce a loss; they are never copies of a routed message. */
    predicate Notice() {
      text.DropNotice? || text.OmitNotice?
    }

    /** How many lost messages this line announces. */
    function Announces(): nat {
      match text
      case DropNotice(n) => n
      case OmitNotice(n) => n
      case _ => 0
    }
  }

  datatype Config = Config(
    contextCap: nat,
    deliverWakeCap: nat,
    queueCap: nat,
    backlogOnJoin: nat,
    recentWindow: nat,
    rateBurst: nat,
    ratePerSecond: real,
    dedupWindow: real,
    maxRounds: nat,
    assumeIdleAfter: real,
    stallAfter: real,
    blockedAfter: real,
    deadAfter: real,
    deadTtl: real,
    pongTimeout: real)
  {
    /** Every cap is positive, as the constructors of the buffer and the bucket demand. */
    predicate Valid() {
      && contextCap >= 1
      && deliverWakeCap >= 1
      && queueCap >= 1
      && backlogOnJoin >= 1
      && recentWindow >= 1
      && rateBurst >= 1
      && ratePerSecond > 0.0
      && dedupWindow >= 0.0
      && maxRounds >= 1
    }
  }
}
