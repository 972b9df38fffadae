/**
 * The investment-consulting page form: a record of page fields, three
 * editable lists of items (services, process steps, benefits) kept apart
 * from the record while editing, and a comma-separated keyword text. On
 * submit the lists and the parsed keywords are written over the record.
 */
module InvestmentConsulting {
  import opened JsValues
  import opened FormInputs
  import Keywords

  /** The fields an edit load copies as they are. */
  const CopiedFields: set<string> := {"heroTitle", "published", "order"}

  /** The fields an edit load turns into `null` when they are empty. */
  const NullableFields: set<string> := {
    "heroSubtitle", "heroDescription", "heroBadgeText",
    "servicesTitle", "servicesDescription",
    "processTitle", "processDescription",
    "benefitsTitle", "benefitsDescription",
    "ctaTitle", "ctaDescription", "ctaButtonText", "ctaButtonLink",
    "metaTitle", "metaDescription"}

  /** The fields an edit load turns into `[]` when they are absent. */
  const ListFields: set<string> := {"servicesItems", "processSteps", "benefitsItems", "metaKeywords"}

  /** No field is in two of the three groups. */
  lemma FieldGroupsAreApart()
    ensures CopiedFields !! NullableFields && CopiedFields !! ListFields && NullableFields !! ListFields
  {
  }

  /** The record a new page starts from: an empty hero title, published,
      order 0, every nullable field `null` and every list empty. */
  function InitialFormData(): (r: Object)
    ensures r.Keys == CopiedFields + NullableFields + ListFields
    ensures r["heroTitle"] == Str("") && r["published"] == Bool(true) && r["order"] == Number("0")
    ensures forall k :: k in NullableFields ==> r[k] == Null
    ensures forall k :: k in ListFields ==> r[k] == Arr([])
  {
    FieldGroupsAreApart();
    assert "heroTitle" in CopiedFields - NullableFields - ListFields;
    assert "published" in CopiedFields - NullableFields - ListFields;
    assert "order" in CopiedFields - NullableFields - ListFields;
    InitialPage(CopiedFields, NullableFields, ListFields)
  }

  /** The editable properties of a service item, process step or benefit. */
  datatype ItemField = Title | Description | Icon

  function FieldName(f: ItemField): string {
    match f
    case Title => "title"
    case Description => "description"
    case Icon => "icon"
  }

  /** The item an add handler appends: `{ title: "", description: "", icon: "" }`. */
  function BlankItem(): (item: Value)
    ensures item.Obj? && item.fields.Keys == {"title", "description", "icon"}
    ensures forall k :: k in item.fields ==> item.fields[k] == Str("")
  {
    Obj(map["title" := Str(""), "description" := Str(""), "icon" := Str("")])
  }

  /** `[...items, BlankItem]` */
  function Appended(items: seq<Value>): (r: seq<Value>)
    ensures |r| == |items| + 1
    ensures r[..|items|] == items
    ensures r[|items|] == BlankItem()
  {
    items + [BlankItem()]
  }

  /** `updated[index] = { ...updated[index], [field]: value }` on a copy:
      the item at `index` gets `field` set to `value` and keeps its other
      properties; every other item stays as it was. */
  function WithField(items: seq<Value>, index: nat, field: ItemField, value: string): (r: seq<Value>)
    requires index < |items|
    ensures |r| == |items|
    ensures forall j :: 0 <= j < |items| && j != index ==> r[j] == items[j]
    ensures r[index].Obj? && FieldName(field) in r[index].fields
    ensures r[index].fields[FieldName(field)] == Str(value)
    ensures forall k :: k != FieldName(field) ==>
      (k in r[index].fields <==> k in SpreadOf(items[index])) &&
      (k in r[index].fields ==> r[index].fields[k] == SpreadOf(items[index])[k])
  {
    items[index := Obj(SpreadOf(items[index])[FieldName(field) := Str(value)])]
  }

  /** `items.filter((_, i) => i !== index)`, walking the positions from
      `from` on. */
  function FilterOut(items: seq<Value>, index: int, from: nat): (r: seq<Value>)
    requires from <= |items|
    ensures 0 <= index - from < |items| - from ==>
      r == items[from..index] + items[index + 1..]
    ensures !(0 <= index - from < |items| - from) ==> r == items[from..]
    decreases |items| - from
  {
    if from == |items| then []
    else if from == index then FilterOut(items, index, from + 1)
    else [items[from]] + FilterOut(items, index, from + 1)
  }

  /** `items.filter((_, i) => i !== index)`: drops exactly the item at an
      in-range index and keeps the others in order; any other index leaves
      the list as it was. */
  function Without(items: seq<Value>, index: int): (r: seq<Value>)
    ensures 0 <= index < |items| ==> |r| == |items| - 1
    ensures 0 <= index < |items| ==> r == items[..index] + items[index + 1..]
    ensures !(0 <= index < |items|) ==> r == items
  {
    FilterOut(items, index, 0)
  }

  /** The keyword text shown after an edit load: `(data.metaKeywords || []).join(", ")`. */
  function LoadedKeywordsInput(data: Object): (text: string)
    ensures !Get(data, "metaKeywords").Arr? ==> text == ""
    ensures forall ks :: Get(data, "metaKeywords") == StringArray(ks) ==> text == Keywords.Display(ks)
  {
    var stored := Or(Get(data, "metaKeywords"), Arr([]));
    assert forall ks :: Get(data, "metaKeywords") == StringArray(ks) ==> ElemTexts(stored) == ks by {
      forall ks | Get(data, "metaKeywords") == StringArray(ks) ensures ElemTexts(stored) == ks {
        ElemTextsOfStringArray(ks);
      }
    }
    Keywords.Display(ElemTexts(stored))
  }

  /** The four list fields are four different names. */
  lemma ListFieldsAreDistinct()
    ensures "servicesItems" != "processSteps" && "servicesItems" != "benefitsItems"
    ensures "servicesItems" != "metaKeywords" && "processSteps" != "benefitsItems"
    ensures "processSteps" != "metaKeywords" && "benefitsItems" != "metaKeywords"
  {
    assert "servicesItems"[0] == 's' && "processSteps"[0] == 'p';
    assert "benefitsItems"[0] == 'b' && "metaKeywords"[0] == 'm';
  }

  /** The request body of a submit: every field of `formData`, with the
      three item lists and the parsed keywords written over it. */
  function Payload(formData: Object, services: seq<Value>, process: seq<Value>,
                   benefits: seq<Value>, keywordsInput: string): (r: Object)
    ensures r.Keys == formData.Keys + ListFields
    ensures r["servicesItems"] == Arr(services)
    ensures r["processSteps"] == Arr(process)
    ensures r["benefitsItems"] == Arr(benefits)
    ensures r["metaKeywords"] == StringArray(Keywords.Parse(keywordsInput))
    ensures forall k :: k in formData && k !in ListFields ==> r[k] == formData[k]
  {
    ListFieldsAreDistinct();
    var lists := map["servicesItems" := Arr(services), "processSteps" := Arr(process),
                     "benefitsItems" := Arr(benefits),
                     "metaKeywords" := StringArray(Keywords.Parse(keywordsInput))];
    assert lists.Keys == ListFields;
    formData + lists
  }

  /** Keywords loaded for editing come back unchanged in the next submit,
      provided each is non-empty, trimmed and comma-free. */
  lemma LoadedKeywordsSurviveSubmit(data: Object, keywords: seq<string>, formData: Object,
                                     services: seq<Value>, process: seq<Value>, benefits: seq<Value>)
    requires Get(data, "metaKeywords") == StringArray(keywords)
    requires forall i :: 0 <= i < |keywords| ==> Keywords.WellFormed(keywords[i])
    ensures Payload(formData, services, process, benefits, LoadedKeywordsInput(data))["metaKeywords"]
            == StringArray(keywords)
  {
    Keywords.DisplayThenParse(keywords);
  }

  /** The state of one open form. */
  class ConsultingForm {
    var formData: Object
    var servicesItems: seq<Value>
    var processSteps: seq<Value>
    var benefitsItems: seq<Value>
    var keywordsInput: string

    constructor ()
      ensures formData == InitialFormData()
      ensures servicesItems == [] && processSteps == [] && benefitsItems == []
      ensures keywordsInput == ""
    {
      formData := InitialFormData();
      servicesItems, processSteps, benefitsItems := [], [], [];
      keywordsInput := "";
    }

    /** The effect that fills the form once the record to edit has loaded
        (`data` is `None` until then). */
    method LoadForEdit(isEdit: bool, data: Option<Object>)
      modifies this
      ensures !(isEdit && data.Some?) ==>
        formData == old(formData) && servicesItems == old(servicesItems) &&
        processSteps == old(processSteps) && benefitsItems == old(benefitsItems) &&
        keywordsInput == old(keywordsInput)
      ensures isEdit && data.Some? ==>
        formData == Normalise(data.value, CopiedFields, NullableFields, ListFields) &&
        servicesItems == ElemsIfArray(Get(data.value, "servicesItems")) &&
        processSteps == ElemsIfArray(Get(data.value, "processSteps")) &&
        benefitsItems == ElemsIfArray(Get(data.value, "benefitsItems")) &&
        keywordsInput == LoadedKeywordsInput(data.value)
    {
      if isEdit && data.Some? {
        var d := data.value;
        Fill(Normalise(d, CopiedFields, NullableFields, ListFields),
             ElemsIfArray(Get(d, "servicesItems")), ElemsIfArray(Get(d, "processSteps")),
             ElemsIfArray(Get(d, "benefitsItems")), LoadedKeywordsInput(d));
      }
    }

    /** The five state setters of the load effect, called together. */
    method Fill(record: Object, services: seq<Value>, process: seq<Value>,
                benefits: seq<Value>, keywords: string)
      modifies this
      ensures formData == record && servicesItems == services && processSteps == process
      ensures benefitsItems == benefits && keywordsInput == keywords
    {
      formData, servicesItems, processSteps, benefitsItems, keywordsInput :=
        record, services, process, benefits, keywords;
    }

    /** `handleChange`: sets the named field of the record only. */
    method HandleChange(e: InputEvent)
      modifies this`formData
      ensures formData == SetField(old(formData), e.name, CoerceNullable(e))
    {
      formData := formData[e.name := CoerceNullable(e)];
    }

    /** The keyword input's own change handler: stores the raw text. */
    method SetKeywordsInput(text: string)
      modifies this`keywordsInput
      ensures keywordsInput == text
    {
      keywordsInput := text;
    }

    method AddServiceItem()
      modifies this`servicesItems
      ensures servicesItems == Appended(old(servicesItems))
    {
      servicesItems := servicesItems + [BlankItem()];
    }

    method UpdateServiceItem(index: nat, field: ItemField, value: string)
      requires index < |servicesItems|
      modifies this`servicesItems
      ensures servicesItems == WithField(old(servicesItems), index, field, value)
    {
      var updated := servicesItems;
      updated := updated[index := Obj(SpreadOf(updated[index])[FieldName(field) := Str(value)])];
      servicesItems := updated;
    }

    method RemoveServiceItem(index: int)
      modifies this`servicesItems
      ensures servicesItems == Without(old(servicesItems), index)
    {
      servicesItems := Without(servicesItems, index);
    }

    method AddProcessStep()
      modifies this`processSteps
      ensures processSteps == Appended(old(processSteps))
    {
      processSteps := processSteps + [BlankItem()];
    }

    method UpdateProcessStep(index: nat, field: ItemField, value: string)
      requires index < |processSteps|
      modifies this`processSteps
      ensures processSteps == WithField(old(processSteps), index, field, value)
    {
      var updated := processSteps;
      updated := updated[index := Obj(SpreadOf(updated[index])[FieldName(field) := Str(value)])];
      processSteps := updated;
    }

    method RemoveProcessStep(index: int)
      modifies this`processSteps
      ensures processSteps == Without(old(processSteps), index)
    {
      processSteps := Without(processSteps, index);
    }

    method AddBenefitItem()
      modifies this`benefitsItems
      ensures benefitsItems == Appended(old(benefitsItems))
    {
      benefitsItems := benefitsItems + [BlankItem()];
    }

    method UpdateBenefitItem(index: nat, field: ItemField, value: string)
      requires index < |benefitsItems|
      modifies this`benefitsItems
      ensures benefitsItems == WithField(old(benefitsItems), index, field, value)
    {
      var updated := benefitsItems;
      updated := updated[index := Obj(SpreadOf(updated[index])[FieldName(field) := Str(value)])];
      benefitsItems := updated;
    }

    method RemoveBenefitItem(index: int)
      modifies this`benefitsItems
      ensures benefitsItems == Without(old(benefitsItems), index)
    {
      benefitsItems := Without(benefitsItems, index);
    }

    /** `handleSubmit`: the request body, and whether it goes to the
        update or the create request. */
    method Submit(isEdit: bool, consultingId: Option<string>) returns (route: Route, body: Object)
      ensures route.Update? <==> isEdit && consultingId.Some? && consultingId.value != ""
      ensures route.Update? ==> route.id == consultingId.value
      ensures body == Payload(formData, servicesItems, processSteps, benefitsItems, keywordsInput)
      ensures body["metaKeywords"] == StringArray(Keywords.Parse(keywordsInput))
    {
      body := Payload(formData, servicesItems, processSteps, benefitsItems, keywordsInput);
      route := SubmitRoute(isEdit, consultingId);
    }
  }
}
