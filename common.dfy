/** Shared value types and the small string operations the JavaScript code
    uses (`startsWith`, `includes`, `split("\n")`, `join("\n")`, the decimal
    digit runs a regular expression captures). */
module Common {

  /** A value that may be absent (JavaScript's `null` / `undefined`). */
  datatype Option<+T> = None | Some(value: T) {
    function GetOr(default: T): T {
      match this
      case Some(v) => v
      case None => default
    }
  }

  /** `s.startsWith(prefix)` */
  predicate StartsWith(s: string, prefix: string) {
    |prefix| <= |s| && s[..|prefix|] == prefix
  }

  /** `sub` occurs in `s` starting at position `i`. */
  predicate OccursAt(s: string, sub: string, i: int) {
    0 <= i && i + |sub| <= |s| && s[i..i + |sub|] == sub
  }

  /** `s.includes(sub)`: `sub` occurs somewhere in `s`. */
  predicate Contains(s: string, sub: string) {
    exists i | 0 <= i <= |s| - |sub| :: OccursAt(s, sub, i)
  }

  /** The regular-expression class `\d`: ASCII decimal digits only. */
  predicate IsDigit(c: char) {
    '0' <= c <= '9'
  }

  predicate AllDigits(s: string) {
    forall i :: 0 <= i < |s| ==> IsDigit(s[i])
  }

  /** Value of a non-empty decimal digit string (JavaScript's unary `+`
      on a captured `\d+`); a leading zero does not change the value. */
  function DigitsValue(s: string): (n: nat)
    requires AllDigits(s)
    ensures s != [] && s[0] == '0' ==> n == DigitsValue(s[1..])
    ensures |s| == 1 ==> n == s[0] as int - '0' as int
  {
    if s == [] then 0
    else
      var init := s[..|s| - 1];
      if |s| > 1 then
        assert init[1..] == s[1..][..|s| - 2];
        DigitsValue(init) * 10 + (s[|s| - 1] as int - '0' as int)
      else DigitsValue(init) * 10 + (s[|s| - 1] as int - '0' as int)
  }

  /** Length of the longest run of digits starting at position `p`: this is
      what a greedy `\d+` consumes there. */
  function DigitRun(s: string, p: nat): (k: nat)
    requires p <= |s|
    ensures p + k <= |s|
    ensures AllDigits(s[p..p + k])
    ensures p + k == |s| || !IsDigit(s[p + k])
    decreases |s| - p
  {
    if p < |s| && IsDigit(s[p]) then
      var k := DigitRun(s, p + 1);
      assert s[p..p + 1 + k] == [s[p]] + s[p + 1..p + 1 + k];
      1 + k
    else 0
  }

  /** Decimal rendering of a natural number, without leading zeros. */
  function NatToString(n: nat): (s: string)
    ensures |s| >= 1 && AllDigits(s)
  {
    if n < 10 then [('0' as int + n) as char]
    else NatToString(n / 10) + [('0' as int + n % 10) as char]
  }

  lemma {:induction false} NatToStringValue(n: nat)
    ensures DigitsValue(NatToString(n)) == n
  {
    var s := NatToString(n);
    if n >= 10 {
      NatToStringValue(n / 10);
      assert s[..|s| - 1] == NatToString(n / 10);
    }
  }

  /** JavaScript's `s.split("\n")`: always at least one piece; pieces hold
      no newline. */
  function SplitLines(s: string): (r: seq<string>)
    ensures |r| >= 1
    ensures forall i :: 0 <= i < |r| ==> '\n' !in r[i]
  {
    if s == [] then [""]
    else
      var rest := SplitLines(s[1..]);
      if s[0] == '\n' then [""] + rest
      else [[s[0]] + rest[0]] + rest[1..]
  }

  /** JavaScript's `lines.join("\n")` on a non-empty array: the text begins
      with the first piece, and when there are several a newline follows it. */
  function JoinLines(lines: seq<string>): (r: string)
    requires |lines| >= 1
    ensures |r| >= |lines| - 1
    ensures StartsWith(r, lines[0])
    ensures |lines| > 1 ==> |r| > |lines[0]| && r[|lines[0]|] == '\n'
  {
    if |lines| == 1 then
      assert lines[0][..|lines[0]|] == lines[0];
      lines[0]
    else
      var tail := JoinLines(lines[1..]);
      var r := lines[0] + "\n" + tail;
      assert r[..|lines[0]|] == lines[0];
      r
  }

  /** The joined text ends with the last piece. */
  lemma {:induction false} JoinEndsWithLast(lines: seq<string>)
    requires |lines| >= 1
    ensures var r, last := JoinLines(lines), lines[|lines| - 1];
      |last| <= |r| && r[|r| - |last|..] == last
  {
    if |lines| > 1 {
      JoinEndsWithLast(lines[1..]);
      var tail := JoinLines(lines[1..]);
      var last := lines[|lines| - 1];
      assert last == lines[1..][|lines[1..]| - 1];
      var r := lines[0] + "\n" + tail;
      assert r[|r| - |last|..] == tail[|tail| - |last|..];
    }
  }

  /** Joining the pieces of a split gives back the text. */
  lemma {:induction false} JoinSplit(s: string)
    ensures JoinLines(SplitLines(s)) == s
  {
    if s != [] {
      JoinSplit(s[1..]);
      var rest := SplitLines(s[1..]);
      var pieces := SplitLines(s);
      assert s == [s[0]] + s[1..];
      if s[0] == '\n' {
        assert pieces[1..] == rest;
      } else {
        JoinPrepend([s[0]], rest);
      }
    }
  }

  /** Gluing text to the front of the first piece glues it to the front of
      the joined text. */
  lemma JoinPrepend(a: string, lines: seq<string>)
    requires |lines| >= 1
    ensures JoinLines([a + lines[0]] + lines[1..]) == a + JoinLines(lines)
  {
    var glued := [a + lines[0]] + lines[1..];
    if |lines| == 1 {
      assert glued == [a + lines[0]];
    } else {
      assert glued[0] == a + lines[0] && glued[1..] == lines[1..];
      var tail := JoinLines(lines[1..]);
      assert JoinLines(glued) == (a + lines[0]) + "\n" + tail;
      assert JoinLines(lines) == lines[0] + "\n" + tail;
      ConcatAssoc(a, lines[0], "\n");
      ConcatAssoc(a, lines[0] + "\n", tail);
    }
  }

  /** Stated on its own: in the context of `JoinLines` facts the solver does
      not find this step within its budget. */
  lemma ConcatAssoc(x: string, y: string, z: string)
    ensures (x + y) + z == x + (y + z)
  {
  }

  /** Splitting newline-free pieces joined by newlines gives back the pieces:
      a text has exactly as many lines as were joined into it. */
  lemma {:induction false} SplitJoin(lines: seq<string>)
    requires |lines| >= 1
    requires forall i :: 0 <= i < |lines| ==> '\n' !in lines[i]
    ensures SplitLines(JoinLines(lines)) == lines
  {
    if |lines| == 1 {
      SplitNoNewline(lines[0]);
    } else {
      SplitJoin(lines[1..]);
      SplitPrefix(lines[0], JoinLines(lines[1..]));
    }
  }

  lemma {:induction false} SplitNoNewline(s: string)
    requires '\n' !in s
    ensures SplitLines(s) == [s]
  {
    if s != [] {
      assert '\n' !in s[1..] by {
        forall i | 0 <= i < |s| - 1 ensures s[1..][i] != '\n' {
          assert s[1..][i] == s[i + 1];
        }
      }
      SplitNoNewline(s[1..]);
      assert [s[0]] + s[1..] == s;
    }
  }

  /** Splitting `a + "\n" + b` with `a` newline-free puts `a` in front of the
      pieces of `b`. */
  lemma {:induction false} SplitPrefix(a: string, b: string)
    requires '\n' !in a
    ensures SplitLines(a + "\n" + b) == [a] + SplitLines(b)
  {
    if a == [] {
      assert a + "\n" + b == "\n" + b;
      assert ("\n" + b)[1..] == b;
    } else {
      SplitPrefix(a[1..], b);
      assert (a + "\n" + b)[1..] == a[1..] + "\n" + b;
      assert [a[0]] + a[1..] == a;
    }
  }
}
