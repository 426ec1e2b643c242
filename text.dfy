/**
 * Strings as the providers see them: decimal digit strings (what `\d+` captures,
 * what unary `+` reads and what `toString` writes) and the split of a tool's
 * standard output on '\n'.
 */
module Text {

  predicate IsDigit(c: char) { '0' <= c <= '9' }

  predicate AllDigits(s: string) { forall i :: 0 <= i < |s| ==> IsDigit(s[i]) }

  /** What `\d+` matches: one or more ASCII decimal digits. */
  predicate IsDigits(s: string) { |s| > 0 && AllDigits(s) }

  function DigitChar(d: nat): (c: char)
    requires d < 10
    ensures IsDigit(c) && c as int - '0' as int == d
  {
    ('0' as int + d) as char
  }

  /** The decimal rendering of `n`, as `Number.prototype.toString` writes a non-negative integer. */
  function Decimal(n: nat): (s: string)
    ensures IsDigits(s)
    ensures n < 10 <==> |s| == 1
    ensures s[0] == '0' <==> n == 0
    decreases n
  {
    if n < 10 then [DigitChar(n)]
    else
      var high := Decimal(n / 10);
      assert (high + [DigitChar(n % 10)])[0] == high[0];
      high + [DigitChar(n % 10)]
  }

  /** The number a string of decimal digits denotes, as unary `+` reads it. */
  function DecimalValue(s: string): nat
    requires AllDigits(s)
  {
    if s == [] then 0
    else DecimalValue(s[..|s| - 1]) * 10 + (s[|s| - 1] as int - '0' as int)
  }

  /** Reading back what `toString` wrote gives the number again. */
  lemma {:induction false} DecimalRoundTrip(n: nat)
    ensures DecimalValue(Decimal(n)) == n
    decreases n
  {
    if n >= 10 {
      DecimalRoundTrip(n / 10);
      var s := Decimal(n);
      assert s[..|s| - 1] == Decimal(n / 10);
    }
  }

  /** `lines.join('\n')`: the inverse of `SplitLines`. */
  function JoinLines(lines: seq<string>): string
    requires |lines| >= 1
  {
    if |lines| == 1 then lines[0] else lines[0] + "\n" + JoinLines(lines[1..])
  }

  /**
   * `s.split('\n')`: the pieces between newline characters, so one more piece
   * than there are newlines (a trailing newline leaves an empty last piece).
   */
  function SplitLines(s: string): (lines: seq<string>)
    ensures |lines| == multiset(s)['\n'] + 1
    ensures forall i :: 0 <= i < |lines| ==> '\n' !in lines[i]
  {
    if s == [] then [[]]
    else
      var rest := SplitLines(s[1..]);
      assert multiset(s) == multiset([s[0]]) + multiset(s[1..]) by { assert s == [s[0]] + s[1..]; }
      if s[0] == '\n' then
        [[]] + rest
      else
        [[s[0]] + rest[0]] + rest[1..]
  }

  lemma {:induction false} JoinLinesCons(x: string, rest: seq<string>)
    requires |rest| >= 1
    ensures JoinLines([x] + rest) == x + "\n" + JoinLines(rest)
  {
    assert ([x] + rest)[1..] == rest;
  }

  /** Joining the pieces of a split gives back the text. */
  lemma {:induction false} JoinSplit(s: string)
    ensures JoinLines(SplitLines(s)) == s
    decreases |s|
  {
    if s != [] {
      JoinSplit(s[1..]);
      assert s == [s[0]] + s[1..];
      if s[0] == '\n' {
        JoinLinesCons([], SplitLines(s[1..]));
      } else {
        JoinLinesPrepend(s[0], SplitLines(s[1..]));
      }
    }
  }

  /** Putting a character in front of the first line puts it in front of the joined text. */
  lemma {:induction false} JoinLinesPrepend(c: char, rest: seq<string>)
    requires |rest| >= 1
    ensures JoinLines([[c] + rest[0]] + rest[1..]) == [c] + JoinLines(rest)
  {
    var lines := [[c] + rest[0]] + rest[1..];
    if |rest| == 1 {
      assert lines == [[c] + rest[0]];
    } else {
      assert lines[0] == [c] + rest[0] && lines[1..] == rest[1..];
      assert JoinLines(lines) == ([c] + rest[0]) + "\n" + JoinLines(rest[1..]);
      assert JoinLines(rest) == rest[0] + "\n" + JoinLines(rest[1..]);
    }
  }

  lemma {:induction false} SplitLinesOfLine(a: string)
    requires '\n' !in a
    ensures SplitLines(a) == [a]
    decreases |a|
  {
    if a != [] {
      assert '\n' !in a[1..] by { assert forall c :: c in a[1..] ==> c in a; }
      SplitLinesOfLine(a[1..]);
      assert [a[0]] + a[1..] == a;
    }
  }

  lemma {:induction false} SplitLinesCons(a: string, t: string)
    requires '\n' !in a
    ensures SplitLines(a + "\n" + t) == [a] + SplitLines(t)
    decreases |a|
  {
    var s := a + "\n" + t;
    if a == [] {
      assert s[0] == '\n' && s[1..] == t;
    } else {
      assert '\n' !in a[1..] by { assert forall c :: c in a[1..] ==> c in a; }
      SplitLinesCons(a[1..], t);
      assert s[0] == a[0] && s[1..] == a[1..] + "\n" + t;
      var rest := SplitLines(s[1..]);
      assert rest == [a[1..]] + SplitLines(t);
      assert [a[0]] + a[1..] == a;
    }
  }

  /** Splitting what was joined gives back the lines, when none holds a newline. */
  lemma {:induction false} SplitJoin(lines: seq<string>)
    requires |lines| >= 1
    requires forall i :: 0 <= i < |lines| ==> '\n' !in lines[i]
    ensures SplitLines(JoinLines(lines)) == lines
    decreases |lines|
  {
    if |lines| == 1 {
      SplitLinesOfLine(lines[0]);
    } else {
      SplitJoin(lines[1..]);
      SplitLinesCons(lines[0], JoinLines(lines[1..]));
      assert [lines[0]] + lines[1..] == lines;
    }
  }
}
