/**
 * The about-page data hooks: the page itself and the three kinds of
 * section record shown on it (resume items, team members, certificates).
 * A section mutation refreshes the section's lists and the whole page.
 */
module AboutPageHooks {
  import opened JsValues
  import opened QueryKeys

  datatype Resource = AboutPage | ResumeItem | TeamMember | Certificate

  /** `aboutPageKeys`, `resumeItemKeys`, `teamMemberKeys`, `certificateKeys` */
  function Keys(r: Resource): KeyFactory {
    match r
    case AboutPage => KeyFactory("about-page")
    case ResumeItem => KeyFactory("resume-items")
    case TeamMember => KeyFactory("team-members")
    case Certificate => KeyFactory("certificates")
  }

  /** The four roots differ, so no two resources share a key. */
  lemma RootsAreDistinct(a: Resource, b: Resource, key: Key)
    requires a != b && All(Keys(a)) <= key
    ensures !(All(Keys(b)) <= key)
  {
    FactoriesAreApart(Keys(a), Keys(b), key);
  }

  /** The success handler of each create, update and delete hook. */
  function OnSuccess(r: Resource, m: Mutation): (e: Effect)
    ensures r == AboutPage ==> e.invalidated == [Lists(Keys(r))] + UpdatedDetail(Keys(r), m)
    ensures r != AboutPage ==>
      e.invalidated == [Lists(Keys(r)), All(Keys(AboutPage))] + UpdatedDetail(Keys(r), m)
    ensures e.throws <==> m.Update? && ResponseId(m.response).Throws?
  {
    if r == AboutPage then OwnInvalidation(Keys(r), m)
    else ChildInvalidation(Keys(r), Keys(AboutPage), m)
  }

  /** What a mutation of `r` refreshes, stated key by key: the lists of
      `r`, the record the update names, and, for a section, every query of
      the page. */
  lemma OnSuccessRefreshes(r: Resource, m: Mutation, key: Key)
    ensures Covers(OnSuccess(r, m).invalidated, key) <==>
      Lists(Keys(r)) <= key || UpdatedRecord(Keys(r), m, key) ||
      (r != AboutPage && All(Keys(AboutPage)) <= key)
  {
    if r == AboutPage {
      OwnInvalidationRefreshes(Keys(r), m, key);
    } else {
      ChildInvalidationRefreshes(Keys(r), Keys(AboutPage), m, key);
    }
  }

  /** Page creates and deletes refresh the page lists and nothing else. */
  lemma PageCreateAndDeleteRefreshLists(m: Mutation, key: Key)
    requires !m.Update?
    ensures Covers(OnSuccess(AboutPage, m).invalidated, key) <==> Lists(Keys(AboutPage)) <= key
  {
    OnSuccessRefreshes(AboutPage, m, key);
  }

  /** A change to a section refreshes every query of the page, its detail
      queries included. */
  lemma SectionChangesRefreshPage(r: Resource, m: Mutation, id: Value)
    requires r != AboutPage
    ensures Covers(OnSuccess(r, m).invalidated, Detail(Keys(AboutPage), id))
  {
    OnSuccessRefreshes(r, m, Detail(Keys(AboutPage), id));
  }

  /** A change to the page leaves every section's queries alone. */
  lemma PageChangesLeaveSections(r: Resource, m: Mutation, key: Key)
    requires r != AboutPage && All(Keys(r)) <= key
    ensures !Covers(OnSuccess(AboutPage, m).invalidated, key)
  {
    OwnInvalidationStaysInside(Keys(AboutPage), Keys(r), m, key);
  }

  /** A section's mutations leave the other sections' queries alone. */
  lemma SectionsAreIndependent(r: Resource, s: Resource, m: Mutation, key: Key)
    requires r != AboutPage && s != AboutPage && r != s && All(Keys(s)) <= key
    ensures !Covers(OnSuccess(r, m).invalidated, key)
  {
    OnSuccessRefreshes(r, m, key);
    assert key[0] == Str(Keys(s).root);
  }
}
