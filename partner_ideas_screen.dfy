/**
 * The heading of the partner's idea list (src/screens/PartnerIdeasScreen.tsx):
 * the selected partner's display name followed by `'s Ideas`.
 */
module PartnerIdeas {
  import opened Wrappers
  import opened Types

  /** The suffix every heading ends with. */
  function IdeasSuffix(): string {
    "'s Ideas"
  }

  /**
   * The heading for the selected partner, if any: the name stored in the
   * field `preferredName` selects, then `'s Ideas`; with no partner selected,
   * `Partner's Ideas`.
   */
  function Title(selected: Option<Partner>): (t: string)
    ensures |t| >= |IdeasSuffix()| && t[|t| - |IdeasSuffix()|..] == IdeasSuffix()
    ensures selected.None? ==> t == "Partner's Ideas"
    ensures selected.Some? ==> t[..|t| - |IdeasSuffix()|] == selected.value.Name(selected.value.preferredName)
  {
    match selected
    case Some(p) => p.Name(p.preferredName) + IdeasSuffix()
    case None => "Partner's Ideas"
  }

  /** A selected partner whose chosen name field is empty gets the bare suffix as heading. */
  lemma TitleOfUnnamedPartner(p: Partner)
    requires p.Name(p.preferredName) == ""
    ensures Title(Some(p)) == "'s Ideas"
  {
  }

  /** Two selected partners get the same heading exactly when their display names are equal. */
  lemma TitleDeterminedByName(p: Partner, q: Partner)
    ensures Title(Some(p)) == Title(Some(q)) <==> p.Name(p.preferredName) == q.Name(q.preferredName)
  {
  }
}
