/**
 * The pattern `^(.*):(\d+)\.(\d+)-(\d+)\.(\d+):` that picks location records
 * out of the reference tool's output, with JavaScript's regular-expression
 * semantics: `.` matches any character but a line terminator, `\d` an ASCII
 * digit, `(.*)` is greedy (the engine backtracks from the longest candidate),
 * and only the start of the line is tried.
 */
module ReferencePattern {
  import opened Wrappers
  import opened Text

  /** The characters `.` does not match when the `s` flag is absent. */
  predicate IsLineTerminator(c: char)
  {
    c == '\n' || c == '\r' || c == '\U{2028}' || c == '\U{2029}'
  }

  /** What `.*` can match. */
  predicate DotStar(s: string)
  {
    forall i :: 0 <= i < |s| ==> !IsLineTerminator(s[i])
  }

  /** The literal characters after the four digit groups, in order. */
  const GroupSeparators: string := ".-.:"

  /** The five capture groups of one match. */
  datatype LineMatch = LineMatch(file: string, startLine: string, startCol: string, endLine: string, endCol: string)
  {
    function Groups(): seq<string> { [startLine, startCol, endLine, endCol] }
  }

  predicate AllGroupsDigits(gs: seq<string>)
  {
    forall i :: 0 <= i < |gs| ==> IsDigits(gs[i])
  }

  /** Each group followed by its separator: `g0 s0 g1 s1 ...`. */
  function Interleave(gs: seq<string>, seps: string): string
    requires |gs| == |seps|
  {
    if gs == [] then [] else gs[0] + [seps[0]] + Interleave(gs[1..], seps[1..])
  }

  /** The text the pattern consumes when it matches with these groups. */
  function MatchedText(m: LineMatch): string
  {
    m.file + ":" + Interleave(m.Groups(), GroupSeparators)
  }

  /** `m` is one way for the pattern to match at the start of `line`. */
  predicate IsMatch(line: string, m: LineMatch)
  {
    DotStar(m.file) && AllGroupsDigits(m.Groups()) && MatchedText(m) <= line
  }

  /** Length of the run of digits that starts at `s[i]`. */
  function DigitRun(s: string, i: nat): (n: nat)
    requires i <= |s|
    ensures i + n <= |s|
    ensures forall j :: i <= j < i + n ==> IsDigit(s[j])
    ensures i + n < |s| ==> !IsDigit(s[i + n])
    decreases |s| - i
  {
    if i < |s| && IsDigit(s[i]) then 1 + DigitRun(s, i + 1) else 0
  }

  /**
   * Matches `(\d+)` followed by each separator in turn, from `s[i]`: the groups
   * it captures, or `None` when the text does not have that shape.
   */
  function Groups(s: string, i: nat, seps: string): (r: Option<seq<string>>)
    requires i <= |s|
    ensures r.Some? ==> |r.value| == |seps|
    decreases |seps|
  {
    if seps == [] then Some([])
    else
      var n := DigitRun(s, i);
      if n > 0 && i + n < |s| && s[i + n] == seps[0] then
        match Groups(s, i + n + 1, seps[1..])
        case None => None
        case Some(rest) => Some([s[i..i + n]] + rest)
      else None
  }

  /** Digit groups `gs`, each followed by its separator, are the text at `s[i]`. */
  predicate SpelledAt(s: string, i: nat, gs: seq<string>, seps: string)
    requires |gs| == |seps|
  {
    AllGroupsDigits(gs) && i + |Interleave(gs, seps)| <= |s| &&
    s[i..i + |Interleave(gs, seps)|] == Interleave(gs, seps)
  }

  /** What `Groups` captures are digit strings, and with the separators they spell the text at `s[i]`. */
  lemma {:induction false} GroupsSound(s: string, i: nat, seps: string)
    requires i <= |s|
    ensures Groups(s, i, seps).Some? ==> SpelledAt(s, i, Groups(s, i, seps).value, seps)
    decreases |seps|
  {
    if seps != [] {
      var n := DigitRun(s, i);
      if n > 0 && i + n < |s| && s[i + n] == seps[0] {
        GroupsSound(s, i + n + 1, seps[1..]);
        var r := Groups(s, i + n + 1, seps[1..]);
        if r.Some? {
          var g := s[i..i + n];
          assert Groups(s, i, seps) == Some([g] + r.value);
          SpelledAtCons(s, i, g, r.value, seps);
        }
      }
    }
  }

  lemma SpelledAtCons(s: string, i: nat, g: string, rest: seq<string>, seps: string)
    requires |seps| == |rest| + 1 && IsDigits(g)
    requires i + |g| < |s| && s[i..i + |g|] == g && s[i + |g|] == seps[0]
    requires SpelledAt(s, i + |g| + 1, rest, seps[1..])
    ensures SpelledAt(s, i, [g] + rest, seps)
  {
    var gs := [g] + rest;
    assert gs[0] == g && gs[1..] == rest;
    var tail := Interleave(rest, seps[1..]);
    assert Interleave(gs, seps) == g + [seps[0]] + tail;
    assert s[i..i + |g| + 1 + |tail|] == s[i..i + |g|] + [s[i + |g|]] + s[i + |g| + 1..i + |g| + 1 + |tail|];
  }

  /** The rest of the pattern, `:(\d+)\.(\d+)-(\d+)\.(\d+):`, tried with `(.*)` having taken `line[..k]`. */
  function MatchAt(line: string, k: nat): (r: Option<LineMatch>)
    requires k <= |line|
    ensures r.Some? ==> r.value.file == line[..k]
  {
    if k < |line| && line[k] == ':' then
      match Groups(line, k + 1, GroupSeparators)
      case None => None
      case Some(gs) => Some(LineMatch(line[..k], gs[0], gs[1], gs[2], gs[3]))
    else None
  }

  /** What `MatchAt` finds is a match of the whole pattern. */
  lemma MatchAtSound(line: string, k: nat)
    requires k <= |line|
    ensures MatchAt(line, k).Some? ==> AllGroupsDigits(MatchAt(line, k).value.Groups())
                                       && MatchedText(MatchAt(line, k).value) <= line
  {
    if k < |line| && line[k] == ':' {
      var r := Groups(line, k + 1, GroupSeparators);
      if r.Some? {
        var gs := r.value;
        var m := LineMatch(line[..k], gs[0], gs[1], gs[2], gs[3]);
        assert MatchAt(line, k) == Some(m);
        assert m.Groups() == gs;
        GroupsSound(line, k + 1, GroupSeparators);
        PrefixAt(line, k, Interleave(gs, GroupSeparators));
      }
    }
  }

  lemma PrefixAt(line: string, k: nat, t: string)
    requires k < |line| && line[k] == ':'
    requires k + 1 + |t| <= |line| && line[k + 1..k + 1 + |t|] == t
    ensures line[..k] + ":" + t <= line
  {
    assert line[..k + 1 + |t|] == line[..k] + [line[k]] + line[k + 1..k + 1 + |t|];
  }

  /** How far `.*` can reach: up to the first line terminator. */
  function DotStarReach(s: string): (n: nat)
    ensures n <= |s| && DotStar(s[..n])
    ensures n < |s| ==> IsLineTerminator(s[n])
  {
    if s == [] || IsLineTerminator(s[0]) then 0 else 1 + DotStarReach(s[1..])
  }

  /** Backtracking: try `(.*)` taking `line[..k]`, then shorter and shorter prefixes. */
  function Backtrack(line: string, k: nat): Option<LineMatch>
    requires k <= |line|
    decreases k
  {
    match MatchAt(line, k)
    case Some(m) => Some(m)
    case None => if k == 0 then None else Backtrack(line, k - 1)
  }

  /** `/^(.*):(\d+)\.(\d+)-(\d+)\.(\d+):/.exec(line)`: the capture groups, or `None` for `null`. */
  function MatchLine(line: string): (r: Option<LineMatch>)
    ensures r.Some? ==> IsMatch(line, r.value)
  {
    BacktrackSound(line, DotStarReach(line));
    Backtrack(line, DotStarReach(line))
  }

  lemma {:induction false} BacktrackSound(line: string, k: nat)
    requires k <= DotStarReach(line)
    ensures Backtrack(line, k).Some? ==> IsMatch(line, Backtrack(line, k).value)
    decreases k
  {
    var reach := DotStarReach(line);
    assert DotStar(line[..reach]);
    match MatchAt(line, k)
    case Some(m) =>
      MatchAtSound(line, k);
      assert m.file == line[..reach][..k];
    case None =>
      if k > 0 { BacktrackSound(line, k - 1); }
  }

  lemma {:induction false} DigitRunOf(s: string, i: nat, g: string)
    requires i + |g| <= |s| && s[i..i + |g|] == g && AllDigits(g)
    requires i + |g| < |s| ==> !IsDigit(s[i + |g|])
    ensures DigitRun(s, i) == |g|
    decreases |g|
  {
    if g != [] {
      assert s[i] == g[0];
      assert s[i + 1..i + 1 + |g[1..]|] == g[1..];
      DigitRunOf(s, i + 1, g[1..]);
    }
  }

  /** Whatever groups the text holds at `s[i]`, `Groups` captures exactly those. */
  lemma {:induction false} GroupsComplete(s: string, i: nat, gs: seq<string>, seps: string)
    requires |gs| == |seps| && AllGroupsDigits(gs)
    requires forall j :: 0 <= j < |seps| ==> !IsDigit(seps[j])
    requires i + |Interleave(gs, seps)| <= |s| && s[i..i + |Interleave(gs, seps)|] == Interleave(gs, seps)
    ensures Groups(s, i, seps) == Some(gs)
    decreases |seps|
  {
    if seps != [] {
      var g := gs[0];
      var tail := Interleave(gs[1..], seps[1..]);
      var t := Interleave(gs, seps);
      assert t == g + [seps[0]] + tail;
      assert s[i..i + |g|] == t[..|g|];
      assert s[i + |g|] == t[|g|] == seps[0];
      DigitRunOf(s, i, g);
      assert s[i + |g| + 1..i + |g| + 1 + |tail|] == t[|g| + 1..];
      GroupsComplete(s, i + |g| + 1, gs[1..], seps[1..]);
      assert IsDigits(gs[0]);
      assert s[i..i + |g|] == g;
      assert [g] + gs[1..] == gs;
      GroupsStep(s, i, seps, g, gs[1..]);
    }
  }

  lemma GroupsStep(s: string, i: nat, seps: string, g: string, rest: seq<string>)
    requires seps != [] && |g| > 0 && i + |g| < |s| && DigitRun(s, i) == |g|
    requires s[i..i + |g|] == g && s[i + |g|] == seps[0]
    requires Groups(s, i + |g| + 1, seps[1..]) == Some(rest)
    ensures Groups(s, i, seps) == Some([g] + rest)
  {
    var n := DigitRun(s, i);
    assert n > 0 && i + n < |s| && s[i + n] == seps[0];
    assert s[i..i + n] == g;
  }

  /** When the pattern can match with `(.*)` taking `m.file`, `MatchAt` there finds exactly `m`. */
  lemma MatchAtComplete(line: string, m: LineMatch)
    requires IsMatch(line, m)
    ensures MatchAt(line, |m.file|) == Some(m)
  {
    var k := |m.file|;
    var t := Interleave(m.Groups(), GroupSeparators);
    assert MatchedText(m) == line[..k + 1 + |t|];
    assert line[..k] == m.file;
    assert line[k] == ':';
    assert line[k + 1..k + 1 + |t|] == t;
    GroupsComplete(line, k + 1, m.Groups(), GroupSeparators);
  }

  lemma {:induction false} BacktrackFinds(line: string, n: nat, k: nat)
    requires k <= n <= |line| && MatchAt(line, k).Some?
    ensures Backtrack(line, n).Some? && k <= |Backtrack(line, n).value.file|
    decreases n
  {
    var here := MatchAt(line, n);
    if here.Some? {
      assert Backtrack(line, n) == here;
      assert |here.value.file| == |line[..n]| == n;
    } else {
      assert n != k;
      BacktrackFinds(line, n - 1, k);
      assert Backtrack(line, n) == Backtrack(line, n - 1);
    }
  }

  /**
   * `(.*)` is greedy: whenever the pattern can match at all, `MatchLine`
   * matches, and its file group is at least as long as that of any match.
   */
  lemma MatchLineGreedy(line: string, m: LineMatch)
    requires IsMatch(line, m)
    ensures MatchLine(line).Some?
    ensures |m.file| <= |MatchLine(line).value.file|
  {
    var reach := DotStarReach(line);
    var k := |m.file|;
    MatchAtComplete(line, m);
    BacktrackFinds(line, reach, k);
  }

  /** A match is determined by how much `(.*)` takes: the digit groups follow from it. */
  lemma MatchDeterminedByFile(line: string, m1: LineMatch, m2: LineMatch)
    requires IsMatch(line, m1) && IsMatch(line, m2) && |m1.file| == |m2.file|
    ensures m1 == m2
  {
    MatchAtComplete(line, m1);
    MatchAtComplete(line, m2);
  }

  /** `exec` returns `null` exactly when the pattern cannot match the line at all. */
  lemma MatchLineNone(line: string)
    ensures MatchLine(line).None? <==> forall m :: !IsMatch(line, m)
  {
    if MatchLine(line).None? {
      forall m | IsMatch(line, m) ensures false { MatchLineGreedy(line, m); }
    }
  }

  /** Every record holds a colon, so a line without one (the empty line among them) holds none. */
  lemma MatchHasColon(line: string)
    ensures MatchLine(line).Some? ==> ':' in line
  {
    var r := MatchLine(line);
    if r.Some? {
      var k := |r.value.file|;
      assert MatchedText(r.value)[k] == ':';
      assert line[k] in line;
    }
  }
}
