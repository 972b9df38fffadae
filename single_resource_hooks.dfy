/**
 * The data hooks of the pages that stand alone: investment consulting,
 * the home landing and the mobile scroller steps. Each has one key
 * factory, and its mutations refresh only its own queries.
 */
module SingleResourceHooks {
  import opened JsValues
  import opened QueryKeys

  datatype Resource = InvestmentConsulting | HomeLanding | MobileScrollerSteps

  /** `investmentConsultingKeys`, `homeLandingKeys`, `mobileScrollerStepKeys` */
  function Keys(r: Resource): KeyFactory {
    match r
    case InvestmentConsulting => KeyFactory("investment-consulting")
    case HomeLanding => KeyFactory("home-landing")
    case MobileScrollerSteps => KeyFactory("mobile-scroller-steps")
  }

  /** The success handler of each create, update and delete hook. */
  function OnSuccess(r: Resource, m: Mutation): (e: Effect)
    ensures e.invalidated == [Lists(Keys(r))] + UpdatedDetail(Keys(r), m)
    ensures e.throws <==> m.Update? && ResponseId(m.response).Throws?
  {
    OwnInvalidation(Keys(r), m)
  }

  /** `list(params)` lies under `lists()`, which lies under `all`;
      `detail(id)` lies under `details()`; the two branches are apart. */
  lemma KeyHierarchy(r: Resource, params: Value, id: Value)
    ensures All(Keys(r)) < Lists(Keys(r)) < List(Keys(r), params)
    ensures All(Keys(r)) < Details(Keys(r)) < Detail(Keys(r), id)
    ensures !(Lists(Keys(r)) <= Details(Keys(r))) && !(Details(Keys(r)) <= Lists(Keys(r)))
  {
    ListsAndDetailsAreApart(Keys(r), params, id);
  }

  /** Creates and deletes refresh the resource's lists and nothing else. */
  lemma CreateAndDeleteRefreshLists(r: Resource, m: Mutation, key: Key)
    requires !m.Update?
    ensures Covers(OnSuccess(r, m).invalidated, key) <==> Lists(Keys(r)) <= key
  {
    OwnInvalidationRefreshes(Keys(r), m, key);
  }

  /** An update refreshes the lists, and the detail query of `id` exactly
      when the response's data carries that id. */
  lemma UpdateRefreshesNamedRecord(r: Resource, response: Object, id: Value, params: Value)
    ensures Covers(OnSuccess(r, Update(response)).invalidated, List(Keys(r), params))
    ensures Covers(OnSuccess(r, Update(response)).invalidated, Detail(Keys(r), id)) <==>
      ResponseId(response) == HasId(id)
  {
    EveryListIsRefreshed(Keys(r), Update(response), params);
    DetailRefreshedIffNamed(Keys(r), Update(response), id);
  }

  /** No mutation of one of these pages touches another's queries. */
  lemma PagesAreIndependent(r: Resource, s: Resource, m: Mutation, key: Key)
    requires r != s && All(Keys(s)) <= key
    ensures !Covers(OnSuccess(r, m).invalidated, key)
  {
    OwnInvalidationStaysInside(Keys(r), Keys(s), m, key);
  }
}
