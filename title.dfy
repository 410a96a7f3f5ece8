/** How `getGameTitle` (src/features/hltb.ts) reads a game's name from its
    page: the query it sends, and `cutGameTitle`, which takes the text of the
    page's first `<title>` out of its "How long is ... | HowLongToBeat"
    frame. Parsing the HTML is not part of this model: the title text is
    given by a function of the page. */
module Title {
  import opened Wrappers
  import opened Text

  const TITLE_PREFIX: string := "How long is "
  const TITLE_SUFFIX: string := " | HowLongToBeat"

  /** `new URLSearchParams({ id: gameId.toString() }).toString()`: decimal
      digits and `-` need no escaping. */
  function TitleRequestParams(gameId: int): (r: string)
    ensures "id=" <= r && r[3..] == IntToDecimal(gameId)
  {
    "id=" + IntToDecimal(gameId)
  }

  /** Different ids give different queries. */
  lemma TitleRequestParamsInjective(a: int, b: int)
    requires TitleRequestParams(a) == TitleRequestParams(b)
    ensures a == b
  {
    assert TitleRequestParams(a)[3..] == IntToDecimal(a);
    IntToDecimalInjective(a, b);
  }

  /** The frame test of `cutGameTitle`, as written. */
  predicate FramedAsWritten(t: string) {
    t != "" && |t| > 12 + 17 && TITLE_PREFIX <= t && EndsWith(t, TITLE_SUFFIX)
  }

  /** `cutGameTitle` on the title text, as written: inside the frame the
      characters from 12 to `length - 17`, trimmed; otherwise the whole text
      trimmed, or `null` when nothing is left. */
  function CutTitleText(t: string): (r: Option<string>)
    ensures r.None? <==> !FramedAsWritten(t) && All(t, IsSpace)
    ensures !FramedAsWritten(t) && r.Some? ==> r.value == Trim(t) && r.value != ""
  {
    TrimEmptyIff(t);
    if FramedAsWritten(t) then Some(Trim(t[12..|t| - 17]))
    else var s := Trim(t); if s == "" then None else Some(s)
  }

  /** The frame around a name. */
  function Framed(name: string): string {
    TITLE_PREFIX + (name + TITLE_SUFFIX)
  }

  lemma FramedParts(name: string)
    ensures |Framed(name)| == |name| + 28
    ensures Framed(name)[12..|name| + 12] == name
    ensures TITLE_PREFIX <= Framed(name) && EndsWith(Framed(name), TITLE_SUFFIX)
  {
    var t := Framed(name);
    assert t[..12] == TITLE_PREFIX;
    assert t[|name| + 12..] == TITLE_SUFFIX;
  }

  /** As written, the suffix is taken to be 17 characters long, but it is
      16: the last character of every framed name of two or more characters
      is cut off. */
  lemma CutTitleTextDropsLastChar(name: string)
    requires |name| >= 2
    ensures CutTitleText(Framed(name)) == Some(Trim(name[..|name| - 1]))
  {
    FramedParts(name);
    var t := Framed(name);
    assert t[12..|t| - 17] == name[..|name| - 1];
  }

  /** So a name whose last two characters are not spaces loses exactly its
      last character. */
  lemma CutTitleTextShortens(name: string)
    requires |name| >= 2 && !IsSpace(name[0]) && !IsSpace(name[|name| - 2])
    ensures CutTitleText(Framed(name)) == Some(name[..|name| - 1])
  {
    CutTitleTextDropsLastChar(name);
    var x := name[..|name| - 1];
    TrimPadded([], x, []);
    assert [] + (x + []) == x;
  }

  /** The page of "Celeste" yields "Celest". */
  lemma CelesteLosesItsLastLetter()
    ensures CutTitleText(Framed("Celeste")) == Some("Celest")
  {
    var name := "Celeste";
    assert !IsSpace(name[0]) && !IsSpace(name[5]);
    CutTitleTextShortens(name);
    assert name[..6] == "Celest";
  }

  /** As written, a one-character name fails the frame test (the framed
      text is 29 characters long), so the whole title comes back. */
  lemma OneLetterKeepsFrame(c: char)
    requires !IsSpace(c)
    ensures CutTitleText(Framed([c])) == Some(Framed([c]))
  {
    var t := Framed([c]);
    FramedParts([c]);
    assert t[0] == 'H' && t[|t| - 1] == 't';
    TrimPadded([], t, []);
    assert [] + (t + []) == t;
  }

  /** The frame test as intended: the frame is 28 characters long. */
  predicate InFrame(t: string) {
    |t| > 12 + 16 && TITLE_PREFIX <= t && EndsWith(t, TITLE_SUFFIX)
  }

  /** `cutGameTitle` on the title text as intended: everything between the
      prefix and the 16-character suffix, trimmed. */
  function CutTitleTextIntended(t: string): (r: Option<string>)
    ensures r.None? <==> !InFrame(t) && All(t, IsSpace)
    ensures InFrame(t) ==> r.Some? && |r.value| <= |t| - 28
    ensures !InFrame(t) && r.Some? ==> r.value == Trim(t) && r.value != ""
  {
    TrimEmptyIff(t);
    if InFrame(t) then Some(Trim(t[12..|t| - 16]))
    else var s := Trim(t); if s == "" then None else Some(s)
  }

  /** A name with no spaces at either end comes back whole out of its frame. */
  lemma CutTitleTextIntendedRoundTrip(name: string)
    requires name != [] && !IsSpace(name[0]) && !IsSpace(name[|name| - 1])
    ensures CutTitleTextIntended(Framed(name)) == Some(name)
  {
    FramedParts(name);
    var t := Framed(name);
    assert t[12..|t| - 16] == name;
    TrimPadded([], name, []);
    assert [] + (name + []) == name;
  }

  /** `cutGameTitle(pageSource)`, as written: `null` for a missing or empty
      page; otherwise the cut of its title text, so that a framed name of
      two or more characters comes back without its last character. */
  function CutGameTitle(pageSource: Option<string>, titleText: string -> string): (r: Option<string>)
    ensures !Truthy(pageSource) ==> r.None?
    ensures Truthy(pageSource) ==> r == CutTitleText(titleText(pageSource.value))
  {
    if !Truthy(pageSource) then None else CutTitleText(titleText(pageSource.value))
  }
}
