/** The part of ECMAScript regular-expression matching the scraper relies on.

    Every pattern of the scraper is written in this model as a matcher: a
    function from the text that starts at some index to an optional `Match`,
    the capture the pattern reports there and how many characters the match
    spans. On top of a matcher sit the three ways the source uses a pattern:
    `exec` without the global flag (`FirstMatch`), `matchAll` with it
    (`ScanAll`); a greedy `(?:X)*` group leaves a `Run`. */
module Regex {
  import opened Wrappers

  /** A successful match at the start of a text: the capture the pattern
      reports and the text that follows the match. */
  datatype Match<C> = Match(cap: C, rest: string)

  /** `re.exec(t)` for a pattern without the global flag: the pattern is tried
      at index 0, 1, ... up to and including `|t|`, and the first index where
      it matches decides the captures. */
  function FirstMatch<C>(t: string, m: string -> Option<Match<C>>): Option<C>
    decreases |t|
  {
    match m(t)
    case Some(x) => Some(x.cap)
    case None => if t == [] then None else FirstMatch(t[1..], m)
  }

  /** The match found is the one at the leftmost index where the pattern matches. */
  lemma {:induction false} FirstMatchLeftmost<C>(t: string, m: string -> Option<Match<C>>, p: nat)
    requires p <= |t| && m(t[p..]).Some?
    requires forall q :: 0 <= q < p ==> m(t[q..]).None?
    ensures FirstMatch(t, m) == Some(m(t[p..]).value.cap)
    decreases p
  {
    assert t[0..] == t;
    if p > 0 {
      forall q | 0 <= q < p - 1 ensures m(t[1..][q..]).None? {
        assert t[1..][q..] == t[q + 1..];
      }
      assert t[1..][p - 1..] == t[p..];
      FirstMatchLeftmost(t[1..], m, p - 1);
    }
  }

  /** A reported match comes from some index, and nothing matches before it. */
  lemma {:induction false} FirstMatchFound<C>(t: string, m: string -> Option<Match<C>>)
    requires FirstMatch(t, m).Some?
    ensures exists p :: 0 <= p <= |t| && m(t[p..]).Some? && m(t[p..]).value.cap == FirstMatch(t, m).value
                        && forall q :: 0 <= q < p ==> m(t[q..]).None?
    decreases |t|
  {
    assert t[0..] == t;
    if m(t).None? {
      FirstMatchFound(t[1..], m);
      var p :| 0 <= p <= |t[1..]| && m(t[1..][p..]).Some? && m(t[1..][p..]).value.cap == FirstMatch(t[1..], m).value
               && forall q :: 0 <= q < p ==> m(t[1..][q..]).None?;
      assert t[1..][p..] == t[p + 1..];
      forall q | 0 <= q < p + 1 ensures m(t[q..]).None? {
        if q > 0 { assert t[1..][q - 1..] == t[q..]; }
      }
    }
  }

  /** A reported capture is that of a match at some suffix. */
  lemma FirstMatchSuffix<C>(t: string, m: string -> Option<Match<C>>) returns (s: string)
    requires FirstMatch(t, m).Some?
    ensures m(s).Some? && m(s).value.cap == FirstMatch(t, m).value
  {
    FirstMatchFound(t, m);
    var p :| 0 <= p <= |t| && m(t[p..]).Some? && m(t[p..]).value.cap == FirstMatch(t, m).value
             && forall q :: 0 <= q < p ==> m(t[q..]).None?;
    s := t[p..];
  }

  /** `exec` gives `null` exactly when the pattern matches at no index. */
  lemma {:induction false} FirstMatchNone<C>(t: string, m: string -> Option<Match<C>>)
    ensures FirstMatch(t, m).None? <==> forall q :: 0 <= q <= |t| ==> m(t[q..]).None?
    decreases |t|
  {
    assert t[0..] == t;
    if t != [] {
      FirstMatchNone(t[1..], m);
      forall q | 1 <= q <= |t| ensures t[1..][q - 1..] == t[q..] { }
    }
  }

  /** `Array.from(t.matchAll(re))` for a global pattern, as the list of
      captures: after a match the search resumes where it ended; after an
      empty match it resumes one character further. */
  function ScanAll<C>(t: string, m: string -> Option<Match<C>>): seq<C>
    decreases |t|
  {
    match m(t)
    case Some(x) =>
      [x.cap] + (if |x.rest| < |t| then ScanAll(x.rest, m)
                 else if t == [] then [] else ScanAll(t[1..], m))
    case None => if t == [] then [] else ScanAll(t[1..], m)
  }

  /** A property every match of the pattern has holds of all its scanned
      captures. */
  lemma {:induction false} ScanAllCaps<C>(t: string, m: string -> Option<Match<C>>, p: C -> bool)
    requires forall s :: m(s).Some? ==> p(m(s).value.cap)
    ensures forall i :: 0 <= i < |ScanAll(t, m)| ==> p(ScanAll(t, m)[i])
    decreases |t|
  {
    var ms := ScanAll(t, m);
    match m(t)
    case Some(x) =>
      var tail := if |x.rest| < |t| then ScanAll(x.rest, m) else if t == [] then [] else ScanAll(t[1..], m);
      if |x.rest| < |t| {
        ScanAllCaps(x.rest, m, p);
      } else if t != [] {
        ScanAllCaps(t[1..], m, p);
      }
      assert ms == [x.cap] + tail;
      forall i | 0 <= i < |ms| ensures p(ms[i]) {
        if i > 0 { assert ms[i] == tail[i - 1]; }
      }
    case None =>
      if t != [] {
        ScanAllCaps(t[1..], m, p);
      }
  }

  /** Indices where the pattern does not match are passed over. */
  lemma {:induction false} ScanAllSkip<C>(t: string, m: string -> Option<Match<C>>, p: nat)
    requires p <= |t|
    requires forall q :: 0 <= q < p ==> m(t[q..]).None?
    ensures ScanAll(t, m) == ScanAll(t[p..], m)
    decreases p
  {
    assert t[0..] == t;
    if p > 0 {
      forall q | 0 <= q < p - 1 ensures m(t[1..][q..]).None? {
        assert t[1..][q..] == t[q + 1..];
      }
      ScanAllSkip(t[1..], m, p - 1);
      assert t[1..][p - 1..] == t[p..];
    }
  }

  /** `matchAll` past a match that consumes something resumes after it. */
  lemma ScanAllStep<C>(t: string, m: string -> Option<Match<C>>)
    requires m(t).Some? && |m(t).value.rest| < |t|
    ensures ScanAll(t, m) == [m(t).value.cap] + ScanAll(m(t).value.rest, m)
  {
  }

  /** What a greedy `(?:X)*` group leaves after it, and the value its inner
      capture keeps. The source's patterns always follow such a group with a
      token no iteration can start with, so backtracking to fewer iterations
      never yields a match and the longest run is the only one that matters.
      The inner capture is reset at every iteration (the RepeatMatcher of
      ECMA-262), so only the last iteration's value survives; `last` is
      `None` when the group ran zero times. */
  datatype Run<C> = Run(last: Option<C>, rest: string)
}
