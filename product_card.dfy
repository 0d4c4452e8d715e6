/** The catalog card (src/components/ProductCard.tsx): the shortened description it shows. */
module ProductCard {
  import opened Text
  import opened Types

  const CardDescriptionLength: nat := 80

  /**
   * `truncateText(text, maxLength)`: a text that fits is shown whole; a longer
   * one is cut to `maxLength` characters, trimmed, and followed by `...`.
   */
  function TruncateText(text: string, maxLength: nat): (r: string)
    ensures |text| <= maxLength ==> r == text
    ensures |text| > maxLength ==>
              && 3 <= |r| <= maxLength + 3 && r[|r| - 3..] == "..."
              && TrimmedOf(text[..maxLength], r[..|r| - 3])
  {
    if |text| <= maxLength then text
    else
      var body := Trim(text[..maxLength]);
      TrimmedWitness(text[..maxLength]);
      var r := body + "...";
      assert r[..|r| - 3] == body && r[|r| - 3..] == "...";
      r
  }

  /** `body` is `s` with white space, and only white space, removed from both ends. */
  ghost predicate TrimmedOf(s: string, body: string)
  {
    exists i :: VisiblePartAt(s, body, i)
  }

  /** `body` sits at index `i` of `s`, has only white space around it and none at its ends. */
  predicate VisiblePartAt(s: string, body: string, i: int)
  {
    && OccursAt(s, body, i)
    && AllSpace(s[..i]) && AllSpace(s[i + |body|..])
    && (body == [] || (!IsSpace(body[0]) && !IsSpace(body[|body| - 1])))
  }

  /** `Trim` gives the visible part of a text. */
  lemma TrimmedWitness(s: string)
    ensures TrimmedOf(s, Trim(s))
  {
    TrimOccurs(s);
    TrimStartSkipsSpace(s);
    TrimDropsOnlyTrailingSpace(s);
    TrimBoundaries(s);
    assert VisiblePartAt(s, Trim(s), |s| - |TrimStart(s)|);
  }

  /** A cut that falls between two visible characters keeps all `maxLength` of them. */
  lemma CutBetweenVisibleCharacters(text: string, maxLength: nat)
    requires maxLength > 0 && |text| > maxLength
    requires !IsSpace(text[0]) && !IsSpace(text[maxLength - 1])
    ensures TruncateText(text, maxLength) == text[..maxLength] + "..."
  {
    var cut := text[..maxLength];
    assert TrimStart(cut) == cut;
    assert TrimEnd(cut) == cut;
  }

  /** The description a card shows. */
  function CardDescription(p: Product): (d: string)
    ensures |p.description| <= CardDescriptionLength ==> d == p.description
    ensures |d| <= CardDescriptionLength + 3
    ensures |p.description| > CardDescriptionLength ==>
              3 <= |d| && d[|d| - 3..] == "..." && TrimmedOf(p.description[..CardDescriptionLength], d[..|d| - 3])
  {
    TruncateText(p.description, CardDescriptionLength)
  }
}
