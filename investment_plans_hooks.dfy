/**
 * The investment-plans data hooks: the plans page, and the plan items and
 * tags shown on it. A plan-item or tag mutation refreshes its own lists
 * and the whole page.
 */
module InvestmentPlansHooks {
  import opened JsValues
  import opened QueryKeys

  datatype Resource = PlansPage | PlanItem | Tag

  /** `investmentPlansKeys`, `investmentPlanKeys`, `investmentTagKeys` */
  function Keys(r: Resource): KeyFactory {
    match r
    case PlansPage => KeyFactory("investment-plans")
    case PlanItem => KeyFactory("investment-plan-items")
    case Tag => KeyFactory("investment-tags")
  }

  /** The three roots differ, so no two resources share a key. */
  lemma RootsAreDistinct(a: Resource, b: Resource, key: Key)
    requires a != b && All(Keys(a)) <= key
    ensures !(All(Keys(b)) <= key)
  {
    FactoriesAreApart(Keys(a), Keys(b), key);
  }

  /** The success handler of each create, update and delete hook. */
  function OnSuccess(r: Resource, m: Mutation): (e: Effect)
    ensures r == PlansPage ==> e.invalidated == [Lists(Keys(r))] + UpdatedDetail(Keys(r), m)
    ensures r != PlansPage ==>
      e.invalidated == [Lists(Keys(r)), All(Keys(PlansPage))] + UpdatedDetail(Keys(r), m)
    ensures e.throws <==> m.Update? && ResponseId(m.response).Throws?
  {
    if r == PlansPage then OwnInvalidation(Keys(r), m)
    else ChildInvalidation(Keys(r), Keys(PlansPage), m)
  }

  /** What a mutation of `r` refreshes, stated key by key: the lists of
      `r`, the record the update names, and, for a plan item or a tag,
      every query of the plans page. */
  lemma OnSuccessRefreshes(r: Resource, m: Mutation, key: Key)
    ensures Covers(OnSuccess(r, m).invalidated, key) <==>
      Lists(Keys(r)) <= key || UpdatedRecord(Keys(r), m, key) ||
      (r != PlansPage && All(Keys(PlansPage)) <= key)
  {
    if r == PlansPage {
      OwnInvalidationRefreshes(Keys(r), m, key);
    } else {
      ChildInvalidationRefreshes(Keys(r), Keys(PlansPage), m, key);
    }
  }

  /** A page update refreshes the page's detail query of `id` exactly when
      the response's data carries that id. */
  lemma PageUpdateRefreshesNamedRecord(response: Object, id: Value)
    ensures Covers(OnSuccess(PlansPage, Update(response)).invalidated, Detail(Keys(PlansPage), id)) <==>
      ResponseId(response) == HasId(id)
  {
    DetailRefreshedIffNamed(Keys(PlansPage), Update(response), id);
  }

  /** A plan-item or tag change refreshes every list of plans pages,
      whatever its parameters. */
  lemma ItemChangesRefreshPageLists(r: Resource, m: Mutation, params: Value)
    requires r != PlansPage
    ensures Covers(OnSuccess(r, m).invalidated, List(Keys(PlansPage), params))
  {
    OnSuccessRefreshes(r, m, List(Keys(PlansPage), params));
  }

  /** A change to the plans page leaves plan items and tags alone. */
  lemma PageChangesLeaveItems(r: Resource, m: Mutation, key: Key)
    requires r != PlansPage && All(Keys(r)) <= key
    ensures !Covers(OnSuccess(PlansPage, m).invalidated, key)
  {
    OwnInvalidationStaysInside(Keys(PlansPage), Keys(r), m, key);
  }
}
