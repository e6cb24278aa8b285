/** Reading the transcript back (src/moot/core/transcript.py:42-71, src/moot/core/hub.py:108-114). */
module Transcripts {
  import opened HubState
  import S = HubSpec

  /** A line of a day's file: blank, not JSON, a msg record, or a record of another type. */
  datatype Line = Blank | Corrupt | MsgLine(rec: Rec) | OtherLine

  predicate IsRecord(x: Line) {
    x.MsgLine? || x.OtherLine?
  }

  function Records(lines: seq<Line>): seq<Line> {
    if lines == [] then []
    else Records(lines[..|lines| - 1]) + (if IsRecord(lines[|lines| - 1]) then [lines[|lines| - 1]] else [])
  }

  function Msgs(lines: seq<Line>): seq<Rec> {
    if lines == [] then []
    else Msgs(lines[..|lines| - 1]) + (if lines[|lines| - 1].MsgLine? then [lines[|lines| - 1].rec] else [])
  }

  /** What a day's file has to hold, whatever else it holds. */
  predicate Holds(file: seq<Line>, archive: seq<DayRec>, day: int) {
    Msgs(file) == S.DayFile(archive, day)
  }

  lemma {:induction false} RecordsKeepMsgs(lines: seq<Line>)
    ensures Msgs(Records(lines)) == Msgs(lines)
  {
    if lines != [] {
      var init := lines[..|lines| - 1];
      RecordsKeepMsgs(init);
      assert (Records(init) + [lines[|lines| - 1]])[..|Records(init)|] == Records(init);
      assert !IsRecord(lines[|lines| - 1]) ==> Records(lines) == Records(init);
    }
  }

  lemma {:induction false} MsgsConcat(a: seq<Line>, b: seq<Line>)
    ensures Msgs(a + b) == Msgs(a) + Msgs(b)
  {
    if b == [] {
      assert a + b == a;
    } else {
      MsgsConcat(a, b[..|b| - 1]);
      assert (a + b)[..|a + b| - 1] == a + b[..|b| - 1];
    }
  }

  /** The records of one day's file, oldest first; blank and corrupt lines are ignored. */
  method ReadDay(lines: seq<Line>) returns (records: seq<Line>)
    ensures records == Records(lines)
    ensures (forall i :: 0 <= i < |records| ==> IsRecord(records[i])) && Msgs(records) == Msgs(lines)
  {
    records := [];
    for i := 0 to |lines|
      invariant records == Records(lines[..i])
      invariant forall j :: 0 <= j < |records| ==> IsRecord(records[j])
    {
      assert lines[..i + 1][..i] == lines[..i];
      if IsRecord(lines[i]) {
        records := records + [lines[i]];
      }
    }
    assert lines[..|lines|] == lines;
    RecordsKeepMsgs(lines);
  }

  /** The msg records of yesterday's file, then of today's. */
  method RecentMsgs(yesterday: seq<Line>, today: seq<Line>) returns (msgs: seq<Rec>)
    ensures msgs == Msgs(yesterday) + Msgs(today)
  {
    var before := ReadDay(yesterday);
    var now := ReadDay(today);
    var records := before + now;
    MsgsConcat(before, now);
    msgs := [];
    for i := 0 to |records|
      invariant msgs == Msgs(records[..i])
    {
      assert records[..i + 1][..i] == records[..i];
      if records[i].MsgLine? {
        msgs := msgs + [records[i].rec];
      }
    }
    assert records[..|records|] == records;
  }

  method LargestId(records: seq<Rec>) returns (top: nat)
    ensures top == S.MaxId(records)
  {
    top := 0;
    for i := 0 to |records|
      invariant top == S.MaxId(records[..i])
    {
      assert records[..i + 1][..i] == records[..i];
      if records[i].id > top {
        top := records[i].id;
      }
    }
    assert records[..|records|] == records;
  }
}
