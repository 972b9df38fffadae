/**
 * The investment-plans page form. Every handler is a record transformer
 * `prev => ({...prev, ...})`, so the form is modelled as functions from
 * the previous record to the next one.
 */
module InvestmentPlans {
  import opened JsValues
  import opened FormInputs
  import Keywords

  const CopiedFields: set<string> := {"heroTitle", "published", "order"}

  const NullableFields: set<string> := {
    "heroSubtitle", "heroDescription", "heroBadgeText",
    "plansTitle", "plansDescription",
    "howItWorksTitle", "howItWorksDescription",
    "faqTitle", "faqDescription",
    "ctaTitle", "ctaDescription", "ctaButtonText", "ctaButtonLink",
    "metaTitle", "metaDescription"}

  const ListFields: set<string> := {"howItWorksSteps", "metaKeywords"}

  /** No field is in two of the three groups. */
  lemma FieldGroupsAreApart()
    ensures CopiedFields !! NullableFields && CopiedFields !! ListFields && NullableFields !! ListFields
  {
  }

  /** The record a new page starts from: an empty hero title, published,
      order 0, every nullable field `null` and every list empty. */
  function InitialFormData(): (r: Object)
    ensures r.Keys == CopiedFields + NullableFields + ListFields
    ensures r["heroTitle"] == Str("") && r["published"] == Bool(true) && r["order"] == Number("0")
    ensures forall k :: k in NullableFields ==> r[k] == Null
    ensures forall k :: k in ListFields ==> r[k] == Arr([])
  {
    FieldGroupsAreApart();
    assert "heroTitle" in CopiedFields - NullableFields - ListFields;
    assert "published" in CopiedFields - NullableFields - ListFields;
    assert "order" in CopiedFields - NullableFields - ListFields;
    InitialPage(CopiedFields, NullableFields, ListFields)
  }

  /** The effect that fills the form once the record to edit has loaded. */
  function LoadForEdit(prev: Object, isEdit: bool, data: Option<Object>): (r: Object)
    ensures !(isEdit && data.Some?) ==> r == prev
    ensures isEdit && data.Some? ==> r.Keys == CopiedFields + NullableFields + ListFields
    ensures isEdit && data.Some? ==> r == Normalise(data.value, CopiedFields, NullableFields, ListFields)
  {
    if isEdit && data.Some? then Normalise(data.value, CopiedFields, NullableFields, ListFields)
    else prev
  }

  /** `handleChange`: the named field gets the coerced value; every other
      field keeps its value. */
  function HandleChange(prev: Object, e: InputEvent): (r: Object)
    ensures r.Keys == prev.Keys + {e.name}
    ensures r[e.name] == CoerceNullable(e)
    ensures forall k :: k in prev && k != e.name ==> r[k] == prev[k]
  {
    SetField(prev, e.name, CoerceNullable(e))
  }

  /** `handleKeywordsChange`: `metaKeywords` becomes the trimmed non-empty
      comma segments of the text; every other field keeps its value. */
  function HandleKeywordsChange(prev: Object, text: string): (r: Object)
    ensures r.Keys == prev.Keys + {"metaKeywords"}
    ensures r["metaKeywords"] == StringArray(Keywords.Parse(text))
    ensures forall k :: k in prev && k != "metaKeywords" ==> r[k] == prev[k]
  {
    SetField(prev, "metaKeywords", StringArray(Keywords.Parse(text)))
  }

  /** The text of the keyword input: `formData.metaKeywords.join(", ")`. */
  function KeywordsShown(form: Object): (text: string)
    ensures !Get(form, "metaKeywords").Arr? ==> text == ""
    ensures forall ks :: Get(form, "metaKeywords") == StringArray(ks) ==> text == Keywords.Display(ks)
  {
    var stored := Get(form, "metaKeywords");
    assert forall ks :: stored == StringArray(ks) ==> ElemTexts(stored) == ks by {
      forall ks | stored == StringArray(ks) ensures ElemTexts(stored) == ks {
        ElemTextsOfStringArray(ks);
      }
    }
    Keywords.Display(ElemTexts(stored))
  }

  /** Keywords shown with `join(", ")` and typed back unchanged are read
      as the same list, for non-empty, trimmed, comma-free keywords. */
  lemma ShownKeywordsReparse(form: Object, keywords: seq<string>)
    requires Get(form, "metaKeywords") == StringArray(keywords)
    requires forall i :: 0 <= i < |keywords| ==> Keywords.WellFormed(keywords[i])
    ensures Keywords.Parse(KeywordsShown(form)) == keywords
  {
    Keywords.DisplayThenParse(keywords);
  }

  /** The keyword input is stable: after any edit, feeding the text the
      input now shows back into the handler leaves the record unchanged. */
  lemma KeywordsEditIsStable(prev: Object, text: string)
    ensures HandleKeywordsChange(HandleKeywordsChange(prev, text),
                                 KeywordsShown(HandleKeywordsChange(prev, text)))
            == HandleKeywordsChange(prev, text)
  {
    var next := HandleKeywordsChange(prev, text);
    ShownKeywordsReparse(next, Keywords.Parse(text));
    assert Keywords.Parse(KeywordsShown(next)) == Keywords.Parse(text);
    assert next["metaKeywords" := StringArray(Keywords.Parse(text))] == next;
  }

  /** `handleHowItWorksStepsChange`; `parsed` is what `JSON.parse` made of
      the text, `None` when it threw. A parse error keeps the record; a
      parsed array becomes the steps; any other parsed value clears them. */
  function HandleStepsChange(prev: Object, parsed: Option<Value>): (r: Object)
    ensures parsed.None? ==> r == prev
    ensures parsed.Some? ==> r.Keys == prev.Keys + {"howItWorksSteps"}
    ensures parsed.Some? && parsed.value.Arr? ==> r["howItWorksSteps"] == parsed.value
    ensures parsed.Some? && !parsed.value.Arr? ==> r["howItWorksSteps"] == Arr([])
    ensures parsed.Some? ==> forall k :: k in prev && k != "howItWorksSteps" ==> r[k] == prev[k]
  {
    match parsed
    case None => prev
    case Some(steps) => SetField(prev, "howItWorksSteps", if steps.Arr? then steps else Arr([]))
  }

  /** `handleSubmit`: the whole record goes to the update request when the
      form edits an existing page with a non-empty id, and to the create
      request otherwise. */
  function Submit(formData: Object, isEdit: bool, plansId: Option<string>): (r: (Route, Object))
    ensures r.0.Update? <==> isEdit && plansId.Some? && plansId.value != ""
    ensures r.0.Update? ==> r.0.id == plansId.value
    ensures r.1 == formData
  {
    (SubmitRoute(isEdit, plansId), formData)
  }
}
