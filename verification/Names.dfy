/** Participant names and the suggestion of a free one (src/moot/core/proto.py). */
module Names {
  import opened Types

  const MAX_NAME_LEN: nat := 32

  predicate IsDigit(c: char) {
    '0' <= c <= '9'
  }

  predicate IsAlnum(c: char) {
    IsDigit(c) || 'A' <= c <= 'Z' || 'a' <= c <= 'z'
  }

  /** The documented pattern [A-Za-z0-9][A-Za-z0-9_-]{0,31}. */
  predicate MatchesName(s: string) {
    && 1 <= |s| <= MAX_NAME_LEN
    && IsAlnum(s[0])
    && forall i :: 0 <= i < |s| ==> IsAlnum(s[i]) || s[i] == '_' || s[i] == '-'
  }

  function Lower(s: string): string {
    seq(|s|, i requires 0 <= i < |s| => if 'A' <= s[i] <= 'Z' then s[i] + ('a' - 'A') else s[i])
  }

  /** A name a participant may register under: the pattern, minus the reserved names. */
  predicate ValidName(s: string) {
    MatchesName(s) && Lower(s) !in {"*", "hub", "system"}
  }

  lemma ValidNameFacts(s: string)
    requires ValidName(s)
    ensures s != EVERYONE && s != SYSTEM_SENDER && s != "" && '\n' !in s
  {
    assert Lower(SYSTEM_SENDER) == SYSTEM_SENDER;
  }

  // ------------------------------------------------------------------ decimal numbers

  function Digits(n: nat): (s: string)
    ensures |s| >= 1 && forall i :: 0 <= i < |s| ==> IsDigit(s[i])
  {
    if n < 10 then [('0' as int + n) as char] else Digits(n / 10) + [('0' as int + n % 10) as char]
  }

  function Value(s: string): nat
    requires forall i :: 0 <= i < |s| ==> IsDigit(s[i])
  {
    if s == [] then 0
    else
      assert IsDigit(s[|s| - 1]);
      10 * Value(s[..|s| - 1]) + (s[|s| - 1] as int - '0' as int)
  }

  lemma {:induction false} DigitsValue(n: nat)
    ensures Value(Digits(n)) == n
  {
    if n >= 10 {
      DigitsValue(n / 10);
      assert Digits(n)[..|Digits(n)| - 1] == Digits(n / 10);
    } else {
      assert Digits(n)[..0] == [];
    }
  }

  // ------------------------------------------------------------------ candidates

  /** Python's s[:m], which counts from the end when m is negative. */
  function TakeUpTo(s: string, m: int): string {
    if m >= |s| then s
    else if m >= 0 then s[..m]
    else if |s| + m >= 0 then s[..|s| + m]
    else ""
  }

  function Suffix(n: nat): string {
    "-" + Digits(n)
  }

  function Candidate(stem: string, n: nat): string {
    TakeUpTo(stem, MAX_NAME_LEN - |Suffix(n)|) + Suffix(n)
  }

  /** A dash followed by something dash-free. */
  predicate DashTail(s: string) {
    |s| >= 1 && s[0] == '-' && forall i :: 1 <= i < |s| ==> s[i] != '-'
  }

  lemma DashTailUnique(p: string, s: string, q: string, t: string)
    requires p + s == q + t && DashTail(s) && DashTail(t)
    ensures s == t
  {
    assert (p + s)[|p|] == s[0] && (q + t)[|q|] == t[0];
    assert forall i :: |p| < i < |p + s| ==> (p + s)[i] == s[i - |p|] && (p + s)[i] != '-';
    assert forall i :: |q| < i < |q + t| ==> (q + t)[i] == t[i - |q|] && (q + t)[i] != '-';
    assert |p| == |q|;
    assert s == (p + s)[|p|..] && t == (q + t)[|q|..];
  }

  /** Different numbers give different candidates, truncated stem or not. */
  lemma CandidateInjective(stem: string, a: nat, b: nat)
    requires Candidate(stem, a) == Candidate(stem, b)
    ensures a == b
  {
    var s, t := Suffix(a), Suffix(b);
    assert forall i :: 1 <= i < |s| ==> s[i] == Digits(a)[i - 1];
    assert forall i :: 1 <= i < |t| ==> t[i] == Digits(b)[i - 1];
    DashTailUnique(TakeUpTo(stem, MAX_NAME_LEN - |s|), s, TakeUpTo(stem, MAX_NAME_LEN - |t|), t);
    assert Digits(a) == s[1..] && Digits(b) == t[1..];
    DigitsValue(a);
    DigitsValue(b);
  }

  /** A candidate is a well-formed name exactly when its suffix leaves room for a stem. */
  lemma CandidateMatches(stem: string, n: nat)
    requires MatchesName(stem)
    ensures MatchesName(Candidate(stem, n)) <==> |Suffix(n)| < MAX_NAME_LEN
    ensures |Suffix(n)| < MAX_NAME_LEN ==> |Candidate(stem, n)| <= MAX_NAME_LEN
  {
    var c, t := Candidate(stem, n), TakeUpTo(stem, MAX_NAME_LEN - |Suffix(n)|);
    if |Suffix(n)| < MAX_NAME_LEN {
      assert c[0] == stem[0];
      forall i | 0 <= i < |c|
        ensures IsAlnum(c[i]) || c[i] == '_' || c[i] == '-'
      {
        if i < |t| {
          assert c[i] == stem[i];
        } else {
          assert c[i] == Suffix(n)[i - |t|];
        }
      }
    } else if |Suffix(n)| == MAX_NAME_LEN {
      assert c[0] == '-';
    }
  }

  // ------------------------------------------------------------------ the search

  function Tried(stem: string, n: nat): set<string> {
    set i | 2 <= i < n :: Candidate(stem, i)
  }

  lemma {:induction false} TriedCount(stem: string, n: nat)
    requires n >= 2
    ensures |Tried(stem, n)| == n - 2
  {
    if n > 2 {
      TriedCount(stem, n - 1);
      if Candidate(stem, n - 1) in Tried(stem, n - 1) {
        var i :| 2 <= i < n - 1 && Candidate(stem, i) == Candidate(stem, n - 1);
        CandidateInjective(stem, i, n - 1);
      }
      assert Tried(stem, n) == Tried(stem, n - 1) + {Candidate(stem, n - 1)};
    }
  }

  lemma {:induction false} SubsetSmaller<T>(a: set<T>, b: set<T>)
    requires a <= b
    ensures |a| <= |b|
  {
    if a != {} {
      var x :| x in a;
      SubsetSmaller(a - {x}, b - {x});
    }
  }

  /** `n` is the first number whose candidate is free. */
  predicate FirstFree(stem: string, used: set<string>, n: nat) {
    && n >= 2
    && Candidate(stem, n) !in used
    && forall i :: 2 <= i < n ==> Candidate(stem, i) in used
  }

  /** The pigeonhole: with k names taken the search has ended by k + 2. */
  lemma SearchEnds(stem: string, used: set<string>, n: nat)
    requires n >= 2 && forall i :: 2 <= i < n ==> Candidate(stem, i) in used
    ensures n <= |used| + 2
  {
    TriedCount(stem, n);
    assert Tried(stem, n) <= used;
    SubsetSmaller(Tried(stem, n), used);
  }

  /** A free candidate always exists, and the first one is unique. */
  lemma {:induction false} FirstFreeExists(stem: string, used: set<string>, from: nat) returns (n: nat)
    requires from >= 2 && forall i :: 2 <= i < from ==> Candidate(stem, i) in used
    ensures FirstFree(stem, used, n) && n <= |used| + 2
    decreases |used| + 3 - from
  {
    SearchEnds(stem, used, from);
    if Candidate(stem, from) in used {
      n := FirstFreeExists(stem, used, from + 1);
    } else {
      n := from;
    }
  }

  lemma FirstFreeUnique(stem: string, used: set<string>, a: nat, b: nat)
    requires FirstFree(stem, used, a) && FirstFree(stem, used, b)
    ensures a == b
  {
    hide Candidate;
  }

  function Pow10(k: nat): nat {
    if k == 0 then 1 else 10 * Pow10(k - 1)
  }

  lemma {:induction false} DigitsFit(n: nat, k: nat)
    requires k >= 1 && n < Pow10(k)
    ensures |Digits(n)| <= k
  {
    if n >= 10 {
      DigitsFit(n / 10, k - 1);
    }
  }

  lemma {:induction false} DigitsOverflow(n: nat, k: nat)
    requires n >= Pow10(k)
    ensures |Digits(n)| > k
  {
    if k > 0 {
      PowPositive(k - 1);
      DigitsOverflow(n / 10, k - 1);
    }
  }

  lemma {:induction false} PowPositive(k: nat)
    ensures Pow10(k) >= 1
  {
    if k > 0 {
      PowPositive(k - 1);
    }
  }

  /** A suggestion is a name one may register under, of at most 32 characters, exactly up to
      the number 10^30: only there does its suffix leave no room for a stem. */
  lemma CandidateValid(stem: string, n: nat)
    requires MatchesName(stem)
    ensures ValidName(Candidate(stem, n)) <==> n < Pow10(30)
    ensures n < Pow10(30) ==> |Candidate(stem, n)| <= MAX_NAME_LEN
  {
    hide Pow10;
    CandidateMatches(stem, n);
    if n < Pow10(30) {
      DigitsFit(n, 30);
      var c := Candidate(stem, n);
      var k := |c| - |Suffix(n)|;
      assert c[k] == '-' && Lower(c)[k] == '-';
      assert |c| >= 2;
      assert '-' !in "*" && '-' !in "hub" && '-' !in "system";
    } else {
      DigitsOverflow(n, 30);
    }
  }

  /** '<name>-2', '<name>-3', ...: the first that is free. */
  method SuggestName(taken: string, used: set<string>) returns (candidate: string, n: nat)
    ensures FirstFree(taken, used, n) && candidate == Candidate(taken, n)
    ensures n <= |used| + 2
    ensures MatchesName(taken) ==> (MatchesName(candidate) <==> |Suffix(n)| < MAX_NAME_LEN)
  {
    n := 2;
    while true
      invariant n >= 2 && forall i :: 2 <= i < n ==> Candidate(taken, i) in used
      decreases |used| + 3 - n
    {
      SearchEnds(taken, used, n);
      var suffix := "-" + Digits(n);
      candidate := TakeUpTo(taken, MAX_NAME_LEN - |suffix|) + suffix;
      if candidate !in used {
        if MatchesName(taken) {
          CandidateMatches(taken, n);
        }
        return;
      }
      n := n + 1;
    }
  }
}
