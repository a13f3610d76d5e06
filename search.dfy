/**
 * `String.prototype.match` with a non-global regular expression: the pattern is tried at
 * every start position from left to right, and the first position where it matches wins.
 * A pattern is given as a matcher that, tried at one position, yields its capture group.
 */
module Search {
  import opened Wrappers
  import opened Text

  /** A pattern tried at one start position: the first capture group when it matches there. */
  type Matcher = (string, nat) -> Option<string>

  /** Where a pattern matched, and what its capture group holds. */
  datatype Found = Found(at: nat, group: string)

  function LeftmostFrom(m: Matcher, s: string, from: nat): (r: Option<Found>)
    decreases |s| + 1 - from
    ensures r.Some? ==> from <= r.value.at <= |s| && m(s, r.value.at) == Some(r.value.group)
    ensures r.Some? ==> forall q :: from <= q < r.value.at ==> m(s, q).None?
    ensures r.None? <==> forall q :: from <= q <= |s| ==> m(s, q).None?
  {
    if from > |s| then None
    else match m(s, from)
      case Some(g) => Some(Found(from, g))
      case None => LeftmostFrom(m, s, from + 1)
  }

  /** `s.match(pattern)`: the leftmost match. */
  function Exec(m: Matcher, s: string): (r: Option<Found>)
    ensures r.Some? ==> r.value.at <= |s| && m(s, r.value.at) == Some(r.value.group)
    ensures r.Some? ==> forall q :: 0 <= q < r.value.at ==> m(s, q).None?
    ensures r.None? <==> forall q :: 0 <= q <= |s| ==> m(s, q).None?
  {
    LeftmostFrom(m, s, 0)
  }

  function FirstMatchFrom(patterns: seq<Matcher>, s: string, p: nat): (r: Option<string>)
    requires p <= |patterns|
    decreases |patterns| - p
    ensures r.Some? <==> exists j :: p <= j < |patterns| && Exec(patterns[j], s).Some?
    ensures r.Some? ==> exists j :: p <= j < |patterns| && Exec(patterns[j], s).Some?
                          && Exec(patterns[j], s).value.group == r.value
                          && forall q :: p <= q < j ==> Exec(patterns[q], s).None?
  {
    if p == |patterns| then None
    else match Exec(patterns[p], s)
      case Some(f) => Some(f.group)
      case None => FirstMatchFrom(patterns, s, p + 1)
  }

  /**
   * A loop over a list of patterns that returns the first capture of the first pattern
   * that matches anywhere in `s`.
   */
  function FirstMatch(patterns: seq<Matcher>, s: string): (r: Option<string>)
    ensures r.Some? <==> exists j :: 0 <= j < |patterns| && Exec(patterns[j], s).Some?
    ensures r.Some? ==> exists j :: 0 <= j < |patterns| && Exec(patterns[j], s).Some?
                          && Exec(patterns[j], s).value.group == r.value
                          && forall q :: 0 <= q < j ==> Exec(patterns[q], s).None?
  {
    FirstMatchFrom(patterns, s, 0)
  }

  /** A match at `p` with none before it, from `from` on, is the leftmost match. */
  lemma {:induction false} LeftmostIs(m: Matcher, s: string, from: nat, p: nat, g: string)
    requires from <= p <= |s| && m(s, p) == Some(g)
    requires forall q :: from <= q < p ==> m(s, q).None?
    ensures LeftmostFrom(m, s, from) == Some(Found(p, g))
    decreases p - from
  {
    if from < p {
      LeftmostIs(m, s, from + 1, p, g);
    }
  }

  /** A literal followed by `(c+)`, a greedy capture of a character class, tried at `i`. */
  function LiteralThenRun(s: string, i: nat, lit: string, c: CharClass): (r: Option<string>)
    ensures r.Some? ==> r.value != [] && AllIn(r.value, c)
    ensures r.Some? <==> HasAt(s, i, lit) && RunLength(s, i + |lit|, c) > 0
  {
    if HasAt(s, i, lit) then
      var j := i + |lit|;
      var n := RunLength(s, j, c);
      if n > 0 then Some(s[j..j + n]) else None
    else None
  }

  /** `(?:lit0|lit1|...)(c+)` at `i`: the alternatives `forms[p..]` tried in order. */
  function FirstLiteralThenRun(s: string, i: nat, forms: seq<string>, p: nat, c: CharClass): (r: Option<string>)
    requires p <= |forms|
    decreases |forms| - p
    ensures r.Some? ==> r.value != [] && AllIn(r.value, c)
  {
    if p == |forms| then None
    else
      var here := LiteralThenRun(s, i, forms[p], c);
      if here.Some? then here else FirstLiteralThenRun(s, i, forms, p + 1, c)
  }
}
