/** The duplicate window of one sender (src/moot/core/dedup.py). */
module Dedup {
  import opened Types

  /** One say the hub accepted from this sender while it was an agent. */
  datatype Said = Said(at: real, to: Name, text: string, private: bool)

  /** The string the source hashes; sha256 is taken as injective, so the string stands for its digest. */
  function Key(to: Name, text: string, private: bool): string {
    to + "\n" + (if private then "1" else "0") + "\n" + text
  }

  function KeyOf(x: Said): string {
    Key(x.to, x.text, x.private)
  }

  /** Entries older than the cutoff are forgotten. */
  function Expire(seen: map<string, real>, cutoff: real): map<string, real> {
    map k | k in seen && seen[k] >= cutoff :: seen[k]
  }

  function AfterSeen(window: real, seen: map<string, real>, now: real, key: string): map<string, real> {
    var live := Expire(seen, now - window);
    if key in live then live else live[key := now]
  }

  class DedupWindow {
    const window: real
    var seen: map<string, real>

    constructor (window: real)
      ensures this.window == window && seen == map[]
    {
      this.window := window;
      this.seen := map[];
    }

    method DoExpire(now: real)
      modifies this
      ensures seen == Expire(old(seen), now - window)
    {
      var cutoff := now - window;
      seen := map k | k in seen && seen[k] >= cutoff :: seen[k];
    }

    method Seen(now: real, to: Name, text: string, private: bool) returns (repeated: bool)
      modifies this
      ensures repeated <==> Key(to, text, private) in Expire(old(seen), now - window)
      ensures seen == AfterSeen(window, old(seen), now, Key(to, text, private))
    {
      DoExpire(now);
      var key := Key(to, text, private);
      if key in seen {
        return true;
      }
      seen := seen[key := now];
      return false;
    }
  }

  // ------------------------------------------------------------------ the key

  predicate OneLine(s: string) {
    '\n' !in s
  }

  /** The key determines the recipient, the privacy flag and the text, provided the
      recipient has no line break; the names the hub registers have none. */
  lemma KeyInjective(a: Said, b: Said)
    requires OneLine(a.to) && OneLine(b.to)
    ensures KeyOf(a) == KeyOf(b) <==> a.to == b.to && a.text == b.text && a.private == b.private
  {
    if KeyOf(a) == KeyOf(b) {
      var x, y := KeyOf(a), KeyOf(b);
      assert x[|a.to|] == '\n' && y[|b.to|] == '\n';
      assert forall i :: 0 <= i < |a.to| ==> x[i] == a.to[i] && x[i] != '\n';
      assert forall i :: 0 <= i < |b.to| ==> y[i] == b.to[i] && y[i] != '\n';
      assert |a.to| == |b.to|;
      assert a.to == x[..|a.to|] == b.to;
      assert x[|a.to| + 1] == (if a.private then '1' else '0');
      assert y[|b.to| + 1] == (if b.private then '1' else '0');
      assert a.text == x[|a.to| + 3..] == b.text;
    }
  }

  /** Without that proviso two different says can share a key. */
  lemma KeyCollidesAcrossLines()
    ensures var a, b := Said(0.0, "a", "1\nx", false), Said(0.0, "a\n0", "x", true);
            a.to != b.to && KeyOf(a) == KeyOf(b)
  {
    var a, b := Said(0.0, "a", "1\nx", false), Said(0.0, "a\n0", "x", true);
    assert KeyOf(a) == "a\n0\n1\nx";
    assert KeyOf(b) == "a\n0\n1\nx";
  }

  function FlagChar(private: bool): char {
    if private then '1' else '0'
  }

  /** `b` goes on from `a` the way a key does: a line feed, a flag, and then nothing or a line
      feed. */
  predicate GoesOn(a: string, b: string) {
    && |b| >= |a| + 2 && b[..|a|] == a && b[|a|] == '\n' && (b[|a| + 1] == '0' || b[|a| + 1] == '1')
    && (|b| == |a| + 2 || b[|a| + 2] == '\n')
  }

  lemma KeyAt(to: string, text: string, private: bool)
    ensures var k := Key(to, text, private);
            && |k| == |to| + 3 + |text| && k[..|to|] == to && k[|to|] == '\n' && k[|to| + 1] == FlagChar(private)
            && k[|to| + 2] == '\n' && k[|to| + 3..] == text
  {
  }

  lemma KeyFrom(to: string, k: string, private: bool)
    requires |k| >= |to| + 3 && k[..|to|] == to && k[|to|] == '\n' && k[|to| + 1] == FlagChar(private)
               && k[|to| + 2] == '\n'
    ensures Key(to, k[|to| + 3..], private) == k
  {
    var c := Key(to, k[|to| + 3..], private);
    KeyAt(to, k[|to| + 3..], private);
    assert |c| == |k|;
    forall i | 0 <= i < |k|
      ensures c[i] == k[i]
    {
      if i < |to| {
        assert c[..|to|][i] == k[..|to|][i];
      } else if i >= |to| + 3 {
        assert c[|to| + 3..][i - |to| - 3] == k[i];
      }
    }
  }

  lemma MeetingGoesOn(a: string, s: string, p: bool, b: string, t: string, q: bool)
    requires Key(a, s, p) == Key(b, t, q) && |a| < |b|
    ensures GoesOn(a, b)
  {
    var k := Key(a, s, p);
    KeyAt(a, s, p);
    KeyAt(b, t, q);
    assert b[..|a|] == k[..|a|];
    assert b[|a|] == k[|a|];
    assert k[|b|] == '\n' != k[|a| + 1];
    assert b[|a| + 1] == k[|a| + 1];
    if |b| > |a| + 2 {
      assert b[|a| + 2] == k[|a| + 2];
    }
  }

  lemma GoingOnMeets(a: string, b: string)
    requires GoesOn(a, b)
    ensures exists s, t, p, q :: Key(a, s, p) == Key(b, t, q)
  {
    var k := Key(b, "", false);
    KeyAt(b, "", false);
    assert k[..|a|] == b[..|a|];
    assert k[|a|] == b[|a|] && k[|a| + 1] == b[|a| + 1];
    assert k[|a| + 2] == '\n' by {
      if |b| > |a| + 2 {
        assert k[|a| + 2] == b[|a| + 2];
      }
    }
    KeyFrom(a, k, b[|a| + 1] == '1');
    assert Key(a, k[|a| + 3..], b[|a| + 1] == '1') == Key(b, "", false);
  }

  /** Exactly which recipients can share a key: those of which one goes on from the other in
      that way. The names the hub registers have no line feed, so no two of them can. */
  lemma KeysCanMeet(a: string, b: string)
    requires a != b
    ensures (exists s, t, p, q :: Key(a, s, p) == Key(b, t, q)) <==> GoesOn(a, b) || GoesOn(b, a)
    ensures OneLine(a) && OneLine(b) ==> !GoesOn(a, b) && !GoesOn(b, a)
  {
    hide Key;
    if exists s, t, p, q :: Key(a, s, p) == Key(b, t, q) {
      var s, t, p, q :| Key(a, s, p) == Key(b, t, q);
      KeyAt(a, s, p);
      KeyAt(b, t, q);
      assert |a| == |b| ==> a == b;
      if |a| < |b| {
        MeetingGoesOn(a, s, p, b, t, q);
      } else {
        MeetingGoesOn(b, t, q, a, s, p);
      }
    }
    if GoesOn(a, b) {
      GoingOnMeets(a, b);
    }
    if GoesOn(b, a) {
      GoingOnMeets(b, a);
      var t, s, q, p :| Key(b, t, q) == Key(a, s, p);
      assert Key(a, s, p) == Key(b, t, q);
    }
  }

  // ------------------------------------------------------------------ the history

  predicate SameSay(a: Said, b: Said) {
    a.to == b.to && a.text == b.text && a.private == b.private
  }

  /** Two identical accepted says are always more than a window apart. */
  predicate Spaced(window: real, h: seq<Said>) {
    forall i, j :: 0 <= i < j < |h| && SameSay(h[i], h[j]) ==> h[j].at - h[i].at > window
  }

  /** What ties the dictionary to the full history of accepted says. */
  predicate Remembers(window: real, now: real, seen: map<string, real>, h: seq<Said>) {
    && (forall i :: 0 <= i < |h| ==> OneLine(h[i].to) && h[i].at <= now)
    && (forall k :: k in seen ==> exists i :: 0 <= i < |h| && KeyOf(h[i]) == k && h[i].at == seen[k])
    && (forall i :: 0 <= i < |h| && h[i].at >= now - window ==> KeyOf(h[i]) in seen && seen[KeyOf(h[i])] >= h[i].at)
    && Spaced(window, h)
  }

  /** Whether the history holds the same say, no older than the window. */
  predicate SaidWithin(window: real, h: seq<Said>, x: Said) {
    exists i :: 0 <= i < |h| && SameSay(h[i], x) && h[i].at >= x.at - window
  }

  /** The window answers exactly what the full history would. */
  lemma SeenIsHistory(window: real, before: real, seen: map<string, real>, h: seq<Said>, x: Said)
    requires Remembers(window, before, seen, h) && before <= x.at && OneLine(x.to)
    ensures KeyOf(x) in Expire(seen, x.at - window) <==> SaidWithin(window, h, x)
  {
    if KeyOf(x) in Expire(seen, x.at - window) {
      var i :| 0 <= i < |h| && KeyOf(h[i]) == KeyOf(x) && h[i].at == seen[KeyOf(x)];
      KeyInjective(h[i], x);
    }
    if SaidWithin(window, h, x) {
      var i :| 0 <= i < |h| && SameSay(h[i], x) && h[i].at >= x.at - window;
      assert KeyOf(h[i]) == KeyOf(x);
    }
  }

  /** A look at the window keeps the tie; an accepted say extends the history. */
  lemma SeenKeepsHistory(window: real, before: real, seen: map<string, real>, h: seq<Said>, x: Said)
    requires Remembers(window, before, seen, h) && before <= x.at && OneLine(x.to) && window >= 0.0
    ensures KeyOf(x) in Expire(seen, x.at - window) ==>
              Remembers(window, x.at, AfterSeen(window, seen, x.at, KeyOf(x)), h)
    ensures KeyOf(x) !in Expire(seen, x.at - window) ==>
              Remembers(window, x.at, AfterSeen(window, seen, x.at, KeyOf(x)), h + [x])
  {
    hide Remembers, Expire, Key, KeyOf, SaidWithin;
    ExpireKeeps(window, before, seen, h, x.at);
    assert OneLine(x.to);
    SeenIsHistory(window, before, seen, h, x);
    var live := Expire(seen, x.at - window);
    if KeyOf(x) !in live {
      RecordKeeps(window, live, h, x);
    }
  }

  lemma ExpireKeeps(window: real, before: real, seen: map<string, real>, h: seq<Said>, now: real)
    requires Remembers(window, before, seen, h) && before <= now
    ensures Remembers(window, now, Expire(seen, now - window), h)
  {
  }

  lemma RecordKeeps(window: real, live: map<string, real>, h: seq<Said>, x: Said)
    requires Remembers(window, x.at, live, h) && OneLine(x.to) && window >= 0.0
    requires !SaidWithin(window, h, x) && KeyOf(x) !in live
    ensures Remembers(window, x.at, live[KeyOf(x) := x.at], h + [x])
  {
    var g, m := h + [x], live[KeyOf(x) := x.at];
    forall k | k in m
      ensures exists i :: 0 <= i < |g| && KeyOf(g[i]) == k && g[i].at == m[k]
    {
      if k == KeyOf(x) {
        assert g[|h|] == x;
      } else {
        var i :| 0 <= i < |h| && KeyOf(h[i]) == k && h[i].at == live[k];
        assert g[i] == h[i];
      }
    }
  }
}
