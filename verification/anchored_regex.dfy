/**
 A reference semantics for the small fragment of JavaScript regular expressions that
 the merged-usr rewrite uses: literals, the greedy optional group `( … )?` and
 concatenation, together with `String.prototype.replace` for a pattern that is
 anchored with `^`, has no `g` flag, and whose replacement contains no `$` pattern.

 A backtracking matcher tries alternatives in priority order; `Ends` lists the end
 positions of every way to match, in that order, so the match the engine reports
 is the first element.
 */
module AnchoredRegex {

  datatype Regex =
    | Lit(text: string)
    | Optional(inner: Regex)
    | Concat(left: Regex, right: Regex)

  /** End positions of the matches of `re` that start at `i` in `s`, in the order a
      backtracking engine tries them (a greedy `?` prefers taking its group). */
  function Ends(re: Regex, s: string, i: nat): (r: seq<nat>)
    requires i <= |s|
    ensures forall k :: 0 <= k < |r| ==> i <= r[k] <= |s|
    decreases re, 0
  {
    match re
    case Lit(t) => if t <= s[i..] then [i + |t|] else []
    case Optional(inner) => Ends(inner, s, i) + [i]
    case Concat(l, rt) => Continue(rt, s, i, Ends(l, s, i))
  }

  /** Matches of `re` from each of `starts` in turn, earlier starts first. */
  function Continue(re: Regex, s: string, lo: nat, starts: seq<nat>): (r: seq<nat>)
    requires forall k :: 0 <= k < |starts| ==> lo <= starts[k] <= |s|
    ensures forall k :: 0 <= k < |r| ==> lo <= r[k] <= |s|
    ensures |starts| == 0 ==> r == []
    decreases re, |starts| + 1
  {
    if |starts| == 0 then []
    else Ends(re, s, starts[0]) + Continue(re, s, lo, starts[1..])
  }

  /** `s.replace(/^re/, replacement)`: only a match at position 0 can be found, and
      only the first one is substituted. */
  function ReplaceAnchored(re: Regex, replacement: string, s: string): (r: string)
    ensures |Ends(re, s, 0)| == 0 ==> r == s
    ensures |Ends(re, s, 0)| > 0 ==> replacement <= r
  {
    var ends := Ends(re, s, 0);
    if |ends| == 0 then s else replacement + s[ends[0]..]
  }
}
