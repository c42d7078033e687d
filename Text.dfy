/** The parts of Python's str behaviour the model relies on: strip, lower, join and split. */
module Text {

  /** Python's str.isspace() for one character (the characters str.strip() removes). */
  predicate IsSpace(c: char) {
    || ('\t' <= c <= '\r')
    || ('\U{1C}' <= c <= '\U{1F}')
    || c == ' ' || c == '\U{85}' || c == '\U{A0}' || c == '\U{1680}'
    || ('\U{2000}' <= c <= '\U{200A}')
    || c == '\U{2028}' || c == '\U{2029}' || c == '\U{202F}' || c == '\U{205F}' || c == '\U{3000}'
  }

  predicate AllSpace(s: string) {
    forall i | 0 <= i < |s| :: IsSpace(s[i])
  }

  /** No whitespace at either end: what str.strip() leaves. */
  predicate Trimmed(s: string) {
    s == [] || (!IsSpace(s[0]) && !IsSpace(s[|s| - 1]))
  }

  /** Number of whitespace characters at the front of s. */
  function LeadingSpaces(s: string): (n: nat)
    ensures n <= |s|
  {
    if s == [] || !IsSpace(s[0]) then 0 else 1 + LeadingSpaces(s[1..])
  }

  /** Number of whitespace characters at the back of s. */
  function TrailingSpaces(s: string): (n: nat)
    ensures n <= |s|
  {
    if s == [] || !IsSpace(s[|s| - 1]) then 0 else 1 + TrailingSpaces(s[..|s| - 1])
  }

  /** The leading run LeadingSpaces counts is all whitespace. */
  lemma {:induction false} LeadingRun(s: string)
    ensures forall i | 0 <= i < LeadingSpaces(s) :: IsSpace(s[i])
  {
    if s != [] && IsSpace(s[0]) {
      LeadingRun(s[1..]);
      forall i | 1 <= i < LeadingSpaces(s)
        ensures IsSpace(s[i])
      {
        assert s[i] == s[1..][i - 1];
      }
    }
  }

  /** The leading run stops at the first character that is not whitespace. */
  lemma {:induction false} LeadingStop(s: string)
    ensures LeadingSpaces(s) < |s| ==> !IsSpace(s[LeadingSpaces(s)])
  {
    if s != [] && IsSpace(s[0]) {
      LeadingStop(s[1..]);
    }
  }

  /** The trailing run TrailingSpaces counts is all whitespace. */
  lemma {:induction false} TrailingRun(s: string)
    ensures forall i | |s| - TrailingSpaces(s) <= i < |s| :: IsSpace(s[i])
  {
    if s != [] && IsSpace(s[|s| - 1]) {
      var p := s[..|s| - 1];
      TrailingRun(p);
      forall i | |s| - TrailingSpaces(s) <= i < |s| - 1
        ensures IsSpace(s[i])
      {
        assert s[i] == p[i];
      }
    }
  }

  /** The trailing run stops at the last character that is not whitespace. */
  lemma {:induction false} TrailingStop(s: string)
    ensures TrailingSpaces(s) < |s| ==> !IsSpace(s[|s| - 1 - TrailingSpaces(s)])
  {
    if s != [] && IsSpace(s[|s| - 1]) {
      var p := s[..|s| - 1];
      TrailingStop(p);
      var n := TrailingSpaces(p);
      if n < |p| {
        assert p[|p| - 1 - n] == s[|s| - 2 - n];
      }
    }
  }

  /** The trailing run does not reach back to a non-space character at index a. */
  lemma {:induction false} TrailingBefore(s: string, a: nat)
    requires a < |s| && !IsSpace(s[a])
    ensures TrailingSpaces(s) < |s| - a
  {
    if IsSpace(s[|s| - 1]) {
      var p := s[..|s| - 1];
      assert p[a] == s[a];
      TrailingBefore(p, a);
    }
  }

  /** When s is not blank, what Strip keeps starts and ends with a non-space character. */
  lemma StripEnds(s: string)
    requires LeadingSpaces(s) < |s|
    ensures LeadingSpaces(s) < |s| - TrailingSpaces(s)
    ensures !IsSpace(s[LeadingSpaces(s)]) && !IsSpace(s[|s| - 1 - TrailingSpaces(s)])
  {
    LeadingStop(s);
    TrailingBefore(s, LeadingSpaces(s));
    TrailingStop(s);
  }

  /** Python's str.strip() with no arguments. */
  function Strip(s: string): (r: string)
    ensures Trimmed(r)
    ensures r == [] <==> AllSpace(s)
  {
    var a := LeadingSpaces(s);
    if a == |s| then
      LeadingRun(s);
      []
    else
      var b := |s| - TrailingSpaces(s);
      StripEnds(s);
      var r := s[a..b];
      assert r[0] == s[a] && r[|r| - 1] == s[b - 1];
      r
  }

  /** Strip removes only whitespace, and only from the two ends. */
  lemma StripKeepsMiddle(s: string)
    ensures exists a, b :: 0 <= a <= b <= |s| && Strip(s) == s[a..b]
                        && (forall i | 0 <= i < a :: IsSpace(s[i]))
                        && (forall i | b <= i < |s| :: IsSpace(s[i]))
  {
    var a := LeadingSpaces(s);
    LeadingRun(s);
    if a == |s| {
      assert Strip(s) == s[a..a];
    } else {
      var b := |s| - TrailingSpaces(s);
      TrailingRun(s);
      StripEnds(s);
      assert Strip(s) == s[a..b];
    }
  }

  /** Stripping a trimmed text changes nothing, so Strip is idempotent. */
  lemma StripTrimmed(s: string)
    requires Trimmed(s)
    ensures Strip(s) == s
  {
    if s != [] {
      assert LeadingSpaces(s) == 0;
      assert TrailingSpaces(s) == 0;
    }
  }

  /** A trimmed text followed by a line feed strips back to itself. */
  lemma StripLine(s: string)
    requires Trimmed(s)
    ensures Strip(s + "\n") == s
  {
    var t := s + "\n";
    assert t[..|t| - 1] == s;
    if s == [] {
      assert t[1..] == [];
      assert LeadingSpaces(t) == |t|;
    } else {
      assert t[0] == s[0];
      assert LeadingSpaces(t) == 0;
      assert TrailingSpaces(s) == 0;
      assert TrailingSpaces(t) == 1;
    }
  }

  /** ASCII part of Python's str.lower(). */
  function LowerChar(c: char): (d: char)
    ensures 'A' <= c <= 'Z' ==> 'a' <= d <= 'z'
    ensures !('A' <= c <= 'Z') ==> d == c
  {
    if 'A' <= c <= 'Z' then (c as int - 'A' as int + 'a' as int) as char else c
  }

  function Lower(s: string): (r: string)
    ensures |r| == |s|
    ensures forall i | 0 <= i < |s| :: r[i] == LowerChar(s[i])
  {
    if s == [] then [] else [LowerChar(s[0])] + Lower(s[1..])
  }

  /** Lowering twice is lowering once. */
  lemma {:induction false} LowerIdempotent(s: string)
    ensures Lower(Lower(s)) == Lower(s)
  {
    if s != [] {
      LowerIdempotent(s[1..]);
      assert Lower(s)[1..] == Lower(s[1..]);
    }
  }

  /** Python's " ".join(parts) for a non-empty list. */
  function JoinSpace(parts: seq<string>): (r: string)
    requires |parts| >= 1
  {
    if |parts| == 1 then parts[0] else parts[0] + " " + JoinSpace(parts[1..])
  }

  /** Python's s.split(" "): the pieces between single spaces, empty pieces kept. */
  function SplitSpace(s: string): (r: seq<string>)
    ensures |r| >= 1
  {
    if s == [] then [[]]
    else if s[0] == ' ' then [[]] + SplitSpace(s[1..])
    else var rest := SplitSpace(s[1..]); [[s[0]] + rest[0]] + rest[1..]
  }

  lemma {:induction false} SplitNoSpace(p: string, t: string)
    requires ' ' !in p
    ensures SplitSpace(p + t)[0] == p + SplitSpace(t)[0]
    ensures SplitSpace(p + t)[1..] == SplitSpace(t)[1..]
  {
    if p != [] {
      assert (p + t)[0] == p[0] != ' ';
      assert (p + t)[1..] == p[1..] + t;
      SplitNoSpace(p[1..], t);
      assert [p[0]] + p[1..] == p;
    } else {
      assert p + t == t;
    }
  }

  /** Splitting on spaces undoes joining with spaces when no part contains a space. */
  lemma {:induction false} SplitJoin(parts: seq<string>)
    requires |parts| >= 1
    requires forall i | 0 <= i < |parts| :: ' ' !in parts[i]
    ensures SplitSpace(JoinSpace(parts)) == parts
  {
    if |parts| == 1 {
      SplitNoSpace(parts[0], []);
      assert parts[0] + [] == parts[0];
      assert SplitSpace(parts[0]) == [parts[0]];
    } else {
      var t := JoinSpace(parts[1..]);
      SplitJoin(parts[1..]);
      assert parts[0] + " " + t == parts[0] + (" " + t);
      SplitNoSpace(parts[0], " " + t);
      assert (" " + t)[1..] == t;
      assert SplitSpace(" " + t) == [[]] + SplitSpace(t);
      var r := SplitSpace(JoinSpace(parts));
      assert r[0] == parts[0];
      assert r[1..] == parts[1..];
      assert r == [r[0]] + r[1..];
    }
  }
}
