/** The test behind every search box of the dashboard. */
module Search {
  import opened Text

  /** `field.toLowerCase().includes(term.toLowerCase())` */
  function Matches(field: string, term: string): (r: bool)
    ensures r <==> Occurs(ToLower(term), ToLower(field))
  {
    Includes(ToLower(field), ToLower(term))
  }

  /** The empty term is found in every field. */
  lemma EmptyTermMatches(field: string)
    ensures Matches(field, "")
  {
    assert ToLower("") == "";
    EmptyIncluded(ToLower(field));
  }

  /** Only the lowercased term matters: changing the case of its letters
      changes no answer. */
  lemma MatchesIgnoresTermCase(term: string)
    ensures forall field :: Matches(field, ToUpper(term)) == Matches(field, term)
    ensures forall field :: Matches(field, ToLower(term)) == Matches(field, term)
  {
    LowerAbsorbsCase(term);
  }
}
