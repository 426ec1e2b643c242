/**
 * A small abstract stand-in for Node's `path` module on '/'-separated paths:
 * enough structure to state where a location's file comes from.
 */
module Paths {

  const Separator: char := '/'

  predicate IsAbsolute(p: string) { |p| > 0 && p[0] == Separator }

  /** `path.join(a, b)`. */
  function Join(a: string, b: string): (p: string)
    ensures |p| == |a| + 1 + |b| && p[..|a|] == a && p[|a|] == Separator && p[|a| + 1..] == b
  {
    a + [Separator] + b
  }

  /** `path.resolve(base, p)`: an absolute `p` stands alone, a relative one is taken under `base`. */
  function Resolve(base: string, p: string): (r: string)
    ensures IsAbsolute(p) ==> r == p
    ensures !IsAbsolute(p) ==> r == Join(base, p)
  {
    if IsAbsolute(p) then p else Join(base, p)
  }

  /** Index of the last separator in `p`, or -1 when there is none. */
  function LastSeparator(p: string): (i: int)
    ensures -1 <= i < |p|
    ensures 0 <= i ==> p[i] == Separator
    ensures forall j :: i < j < |p| ==> p[j] != Separator
  {
    if p == [] then -1
    else if p[|p| - 1] == Separator then |p| - 1
    else LastSeparator(p[..|p| - 1])
  }

  /** `path.dirname(p)`: everything before the last separator; "." with none, "/" for a top-level name. */
  function Dirname(p: string): (d: string)
    ensures Separator !in p ==> d == "."
    ensures 0 < LastSeparator(p) ==> d == p[..LastSeparator(p)] && Join(d, p[|d| + 1..]) == p
  {
    var i := LastSeparator(p);
    if i < 0 then "." else if i == 0 then [Separator] else p[..i]
  }
}
