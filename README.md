# pishro-admin core, modelled in Dafny

pishro-admin is the admin console of the Pishro site: pages of CRUD forms
over a REST API, with React Query hooks that cache the API's answers. This
project models the parts of it that hold rules rather than wiring:

- the investment-consulting form: its record, its three editable item
  lists (services, process steps, benefits) and its comma-separated
  keyword text (`InvestmentConsulting`, a class for the form state);
- the investment-plans form, whose handlers are record transformers
  (`InvestmentPlans`);
- the lesson form, with its ordered submit checks (`LessonForm`);
- the video upload widget: file acceptance, default title, upload and
  reset, stage labels and size units (`VideoUpload`, a class for the
  widget state);
- the authentication hook's session state (`Auth`, a class);
- the query-key factories of the data hooks and what each mutation's
  success handler invalidates (`QueryKeys`, `AboutPageHooks`,
  `InvestmentPlansHooks`, `SingleResourceHooks`).

Shared pieces: `JsValues` (JavaScript values, objects as maps, truthiness,
`||`), `Text` (ECMAScript `trim`, `split` on one character, `join`),
`Keywords` (the split/trim/drop-empty keyword parse and its `", "`
display) and `FormInputs` (change events, the two coercions the forms use,
edit-load normalisation, the create/update choice).

Modelling conventions:

- A JavaScript object is a `map<string, Value>`; a missing property reads
  as `Undefined`; `{...prev, [name]: v}` is a map update.
- `Number(text)` is not evaluated: it is kept as `Number(text)`, and
  `Truthy` treats every number as truthy (see Left out).
- `JSON.parse` is a parameter of type `Option<Value>` (`None` when it
  throws).
- React state setters that the source calls one after another become
  field assignments of a class. Functional updaters `prev => ...` become
  functions from the old record to the new one.
- Network calls, `mutateAsync` and the hooks' query functions are not
  modelled. A submit returns the route it would take (`Create` or
  `Update(id)`) and the body it would send. An upload takes its progress
  reports and its outcome as parameters.
- A query key is a sequence of values, and invalidating a key refreshes
  every query whose key starts with it (`Covers`).

## Model

| member | source | states |
|---|---|---|
| `Text.Trim` | src/components/InvestmentConsulting/InvestmentConsultingForm.tsx:131 | the result is a contiguous slice of the input, no longer than it, with no whitespace at either end |
| `Text.TrimPadded` | src/components/InvestmentConsulting/InvestmentConsultingForm.tsx:131 | trimming whitespace padding followed by an already-trimmed string gives that string |
| `Text.TrimIdempotent` | src/components/InvestmentConsulting/InvestmentConsultingForm.tsx:131 | trimming twice is trimming once, and a trimmed string is its own trim |
| `Text.TrimKeepsAbsent` | src/components/InvestmentConsulting/InvestmentConsultingForm.tsx:131 | trimming adds no character, so a string without commas trims to one without commas |
| `Text.Split` | src/components/InvestmentConsulting/InvestmentConsultingForm.tsx:130 | `split(",")` gives one more segment than there are separators, and no segment holds the separator |
| `Text.TrimEmptyIffAllSpace` | src/components/VideoUpload/index.tsx:72 | `trim()` leaves nothing exactly when every character is whitespace |
| `Text.Join` | src/components/InvestmentConsulting/InvestmentConsultingForm.tsx:116 | the pieces in order with the separator between each two neighbours: the first piece opens the result and its length is the pieces' total plus one separator per gap; with `JoinSplit` it undoes `Split` |
| `Text.JoinSplit` | src/components/InvestmentConsulting/InvestmentConsultingForm.tsx:130 | joining the segments of a split with the separator gives back the input |
| `Text.SplitNoSeparator` | src/components/InvestmentConsulting/InvestmentConsultingForm.tsx:130 | a string without the separator splits into itself alone |
| `Text.SplitAtFirst` | src/components/InvestmentConsulting/InvestmentConsultingForm.tsx:130 | splitting at the first separator gives the text before it, then the split of the rest |
| `Keywords.TrimEach` | src/components/InvestmentConsulting/InvestmentConsultingForm.tsx:131 | `map(k => k.trim())`: same length, each element the trim of the segment at the same position |
| `Keywords.DropEmpty` | src/components/InvestmentConsulting/InvestmentConsultingForm.tsx:132 | `filter(k => k)`: no longer than the input, holds only non-empty elements of the input, and keeps every non-empty one |
| `Keywords.DropEmptyIsSubsequence` | src/components/InvestmentConsulting/InvestmentConsultingForm.tsx:132 | the filter keeps the elements in their order |
| `Keywords.Parse` | src/components/InvestmentConsulting/InvestmentConsultingForm.tsx:129-132 | every parsed keyword is non-empty, trimmed and comma-free, and there are at most as many as commas plus one |
| `Keywords.Clean` | src/components/InvestmentConsulting/InvestmentConsultingForm.tsx:131-132 | trimming the segments and dropping the empty ones keeps at most as many as there were, each non-empty and trimmed |
| `Keywords.Display` | src/components/InvestmentConsulting/InvestmentConsultingForm.tsx:116 | `join(", ")`: empty for no keywords, otherwise the first keyword opens the text and each gap adds two characters; `DisplayThenParse` is its inverse |
| `Keywords.ParseKeepsSegmentOrder` | src/components/InvestmentConsulting/InvestmentConsultingForm.tsx:129-132 | the keywords are the trimmed comma segments in left-to-right order, and every segment that is not blank after trimming is among them |
| `Keywords.CleanKeepsAbsent` | src/components/InvestmentConsulting/InvestmentConsultingForm.tsx:131-132 | trimming and filtering segments that lack a character yields keywords that lack it |
| `Keywords.DropEmptyAppend` | src/components/InvestmentConsulting/InvestmentConsultingForm.tsx:132 | the filter distributes over concatenation |
| `Keywords.TrimEachAppend` | src/components/InvestmentConsulting/InvestmentConsultingForm.tsx:131 | the trim map distributes over concatenation |
| `Keywords.CleanAppend` | src/components/InvestmentConsulting/InvestmentConsultingForm.tsx:131-132 | trim-then-filter distributes over concatenation |
| `Keywords.CleanPadded` | src/components/InvestmentConsulting/InvestmentConsultingForm.tsx:131-132 | one segment made of padding and a trimmed non-empty keyword cleans to that keyword |
| `Keywords.ParsePaddedDisplay` | src/components/InvestmentConsulting/InvestmentConsultingForm.tsx:116 | a `", "`-joined list of well-formed keywords, behind any whitespace padding, parses back to the list |
| `Keywords.DisplayThenParse` | src/components/InvestmentConsulting/InvestmentConsultingForm.tsx:116 | parsing the `join(", ")` of non-empty, trimmed, comma-free keywords returns the same keywords |
| `Keywords.ParseDisplayParse` | src/components/InvestmentConsulting/InvestmentConsultingForm.tsx:129-132 | displaying a parsed list and parsing it again changes nothing |
| `FormInputs.SetField` | src/components/InvestmentConsulting/InvestmentConsultingForm.tsx:159-171 | `{...prev, [name]: v}`: the named field holds `v`, and every other field keeps its value |
| `FormInputs.CoerceNullable` | src/components/InvestmentConsulting/InvestmentConsultingForm.tsx:159-171 | the result is `null` exactly for an empty value of a non-checkbox input; otherwise a checkbox gives its checked state, a number input a number and any other input its string |
| `FormInputs.CoercePlain` | src/components/Lessons/LessonForm.tsx:104-112 | never `null` or `undefined`: a checkbox gives its checked state, a number input a number (even when empty) and any other input its raw string |
| `FormInputs.TextFieldRoundTrip` | src/components/InvestmentConsulting/InvestmentConsultingForm.tsx:159-171 | a text input shows back exactly what was typed, the empty string included, although the record holds `null` for it |
| `FormInputs.SubmitRoute` | src/components/InvestmentPlans/InvestmentPlansForm.tsx:81-87 | the update path is taken exactly when editing with a present, non-empty id, and uses that id |
| `FormInputs.DetailQueryId` | src/components/InvestmentPlans/InvestmentPlansForm.tsx:24 | `id` or else `""`: the id itself when there is one, and empty exactly when it is absent or empty |
| `FormInputs.Normalise` | src/components/InvestmentConsulting/InvestmentConsultingForm.tsx:81-104 | the loaded record keeps exactly the listed fields: the copied ones as loaded, the nullable ones as `null` exactly when falsy, the list ones as `[]` when falsy |
| `FormInputs.InitialPage` | src/components/InvestmentConsulting/InvestmentConsultingForm.tsx:47-70 | the initial record of an investment page over its field groups: nullable fields `null`, lists empty, `published` true, `order` zero, other copied fields `""` |
| `InvestmentConsulting.InitialFormData` | src/components/InvestmentConsulting/InvestmentConsultingForm.tsx:47-70 | a new page holds exactly the copied, nullable and list fields: an empty hero title, `published` true, `order` zero, every nullable field `null` and every list empty |
| `InvestmentConsulting.Appended` | src/components/InvestmentConsulting/InvestmentConsultingForm.tsx:175-180 | one blank item is added at the end and the earlier items are unchanged |
| `InvestmentConsulting.WithField` | src/components/InvestmentConsulting/InvestmentConsultingForm.tsx:182-190 | for an in-range index, only the named property of that item changes; the length and every other item stay the same |
| `InvestmentConsulting.FilterOut` | src/components/InvestmentConsulting/InvestmentConsultingForm.tsx:192-194 | the index filter from a position drops exactly the item at the index, when it lies ahead, and keeps the rest in order |
| `InvestmentConsulting.Without` | src/components/InvestmentConsulting/InvestmentConsultingForm.tsx:192-194 | removal deletes exactly the item at an in-range index and keeps the others in order; an out-of-range index leaves the list as it was |
| `InvestmentConsulting.Payload` | src/components/InvestmentConsulting/InvestmentConsultingForm.tsx:124-133 | the request body takes the three item lists and the parsed keywords from the editing state and every other field from the record |
| `InvestmentConsulting.LoadedKeywordsSurviveSubmit` | src/components/InvestmentConsulting/InvestmentConsultingForm.tsx:116 | well-formed keywords loaded for editing come back unchanged in the next submit's body |
| `InvestmentConsulting.LoadedKeywordsInput` | src/components/InvestmentConsulting/InvestmentConsultingForm.tsx:116 | loaded keywords stored as an array of strings show as their `", "` display; a missing list shows as empty text |
| `InvestmentConsulting.ConsultingForm.constructor` | src/components/InvestmentConsulting/InvestmentConsultingForm.tsx:47-76 | the initial record, empty item lists and an empty keyword text |
| `InvestmentConsulting.ConsultingForm.LoadForEdit` | src/components/InvestmentConsulting/InvestmentConsultingForm.tsx:78-118 | with a loaded record in edit mode, the record is normalised, the item lists are the loaded arrays and the keyword text is their `", "` join; otherwise nothing changes |
| `InvestmentConsulting.ConsultingForm.HandleChange` | src/components/InvestmentConsulting/InvestmentConsultingForm.tsx:152-172 | only the named field of the record changes, to the coerced value |
| `InvestmentConsulting.ConsultingForm.SetKeywordsInput` | src/components/InvestmentConsulting/InvestmentConsultingForm.tsx:741 | the keyword text is stored as typed |
| `InvestmentConsulting.ConsultingForm.AddServiceItem` | src/components/InvestmentConsulting/InvestmentConsultingForm.tsx:175-180 | the service list gains one blank item at its end |
| `InvestmentConsulting.BlankItem` | src/components/InvestmentConsulting/InvestmentConsultingForm.tsx:178 | an added item is an object with exactly `title`, `description` and `icon`, all empty |
| `InvestmentConsulting.ConsultingForm.UpdateServiceItem` | src/components/InvestmentConsulting/InvestmentConsultingForm.tsx:182-190 | the service list becomes `WithField` of the old one |
| `InvestmentConsulting.ConsultingForm.RemoveServiceItem` | src/components/InvestmentConsulting/InvestmentConsultingForm.tsx:192-194 | the service list becomes `Without` of the old one |
| `InvestmentConsulting.ConsultingForm.AddProcessStep` | src/components/InvestmentConsulting/InvestmentConsultingForm.tsx:197-202 | the process list gains one blank item at its end |
| `InvestmentConsulting.ConsultingForm.UpdateProcessStep` | src/components/InvestmentConsulting/InvestmentConsultingForm.tsx:204-212 | the process list becomes `WithField` of the old one |
| `InvestmentConsulting.ConsultingForm.RemoveProcessStep` | src/components/InvestmentConsulting/InvestmentConsultingForm.tsx:214-216 | the process list becomes `Without` of the old one |
| `InvestmentConsulting.ConsultingForm.AddBenefitItem` | src/components/InvestmentConsulting/InvestmentConsultingForm.tsx:219-224 | the benefit list gains one blank item at its end |
| `InvestmentConsulting.ConsultingForm.UpdateBenefitItem` | src/components/InvestmentConsulting/InvestmentConsultingForm.tsx:226-234 | the benefit list becomes `WithField` of the old one |
| `InvestmentConsulting.ConsultingForm.RemoveBenefitItem` | src/components/InvestmentConsulting/InvestmentConsultingForm.tsx:236-238 | the benefit list becomes `Without` of the old one |
| `InvestmentConsulting.ConsultingForm.Submit` | src/components/InvestmentConsulting/InvestmentConsultingForm.tsx:120-150 | the body is the payload with the parsed keywords; the update path is taken exactly when editing with a non-empty id |
| `InvestmentPlans.InitialFormData` | src/components/InvestmentPlans/InvestmentPlansForm.tsx:26-47 | a new page holds exactly the copied, nullable and list fields: an empty hero title, `published` true, `order` zero, every nullable field `null`, and empty steps and keywords |
| `InvestmentPlans.LoadForEdit` | src/components/InvestmentPlans/InvestmentPlansForm.tsx:49-75 | without a loaded record in edit mode the record is kept; with one it holds exactly the page's fields, the hero title, `published` and `order` copied, every nullable field `data.x` or else `null` and the steps and keywords `data.x` or else `[]` (the contract of `FormInputs.Normalise`) |
| `InvestmentPlans.HandleChange` | src/components/InvestmentPlans/InvestmentPlansForm.tsx:95-111 | only the named field changes: checkbox to its checked state, empty text or number to `null`, otherwise the string or number |
| `InvestmentPlans.HandleKeywordsChange` | src/components/InvestmentPlans/InvestmentPlansForm.tsx:113-119 | `metaKeywords` becomes the parsed keyword list and every other field is kept |
| `InvestmentPlans.KeywordsShown` | src/components/InvestmentPlans/InvestmentPlansForm.tsx:401 | stored keywords that are an array of strings show as their `", "` display; anything but an array shows as empty text |
| `InvestmentPlans.ShownKeywordsReparse` | src/components/InvestmentPlans/InvestmentPlansForm.tsx:401 | the keywords the input shows, typed back, parse to the stored list when each is non-empty, trimmed and comma-free |
| `InvestmentPlans.KeywordsEditIsStable` | src/components/InvestmentPlans/InvestmentPlansForm.tsx:113-119 | after any keyword edit, feeding back the text the input now shows leaves the record unchanged |
| `InvestmentPlans.HandleStepsChange` | src/components/InvestmentPlans/InvestmentPlansForm.tsx:121-131 | a parse error keeps the record; a parsed array becomes the steps; any other parsed value clears them; other fields are kept |
| `InvestmentPlans.Submit` | src/components/InvestmentPlans/InvestmentPlansForm.tsx:77-93 | the whole record is sent, to the update path exactly when editing with a non-empty id |
| `LessonForm.LoadForEdit` | src/components/Lessons/LessonForm.tsx:44-59 | a loaded lesson replaces the record with its ten fields, the optional texts defaulting to `""` and an empty video id to `null`; otherwise the record is kept |
| `LessonForm.LoadedValue` | src/components/Lessons/LessonForm.tsx:44-59 | the loaded value of each field: the fields copied as they are, the optional texts defaulting to `""`, an empty video id becoming `null` |
| `LessonForm.LoadedLessonIsWellTyped` | src/components/Lessons/LessonForm.tsx:44-59 | a lesson of the declared types loads into a record of the shape the form keeps |
| `LessonForm.LoadThenSubmit` | src/components/Lessons/LessonForm.tsx:83-88 | a loaded lesson that passes the checks is sent unchanged to the update path of its id |
| `LessonForm.HandleChange` | src/components/Lessons/LessonForm.tsx:97-113 | only the named field changes, to the checked state, the number or the raw string |
| `LessonForm.OnVideoChange` | src/components/Lessons/LessonForm.tsx:182-188 | `videoId` becomes the id or `null` when empty, `videoUrl` the URL; every other field is kept |
| `LessonForm.OnThumbnailChange` | src/components/Lessons/LessonForm.tsx:221 | only `thumbnail` changes, to the picked URL |
| `LessonForm.ApplyKeepsWellTyped` | src/components/Lessons/LessonForm.tsx:97-113 | every event the rendered form can raise keeps the record's shape |
| `LessonForm.ChangeKeepsWellTyped` | src/components/Lessons/LessonForm.tsx:97-113 | a change from one of the form's named inputs stores a boolean in `published`, a number in `order` and `views` and a string elsewhere, so every field keeps its type |
| `LessonForm.ReplayKeepsWellTyped` | src/components/Lessons/LessonForm.tsx:71 | after any sequence of form events the title and video URL are still strings, so the submit handler's `trim()` calls are defined |
| `LessonForm.InitialIsWellTyped` | src/components/Lessons/LessonForm.tsx:31-42 | a new lesson starts in that shape |
| `LessonForm.InitialFormData` | src/components/Lessons/LessonForm.tsx:31-42 | a new lesson holds exactly its ten fields, with no video, `published` true, `order` and `views` zero and every text empty |
| `LessonForm.Validate` | src/components/Lessons/LessonForm.tsx:65-80 | checks course, then title, then video: each error is reported exactly when its check is the first to fail, and none exactly when all pass |
| `LessonForm.Submit` | src/components/Lessons/LessonForm.tsx:62-95 | refused exactly when a check fails, with that check's error; otherwise the record is sent unchanged, to the update path exactly when editing with a non-empty id |
| `LessonForm.BlankUrlIsRefused` | src/components/Lessons/LessonForm.tsx:77-80 | with no video id, a URL of whitespace is refused like a missing one |
| `LessonForm.RemovedVideoIsRefused` | src/components/VideoUpload/index.tsx:155 | removing the video in the picker makes a lesson with course and title unsubmittable |
| `LessonForm.PickedVideoSatisfiesCheck` | src/components/VideoUpload/index.tsx:174-180 | a video chosen from the list satisfies the lesson's video check |
| `VideoUpload.CheckFile` | src/components/VideoUpload/index.tsx:42-61 | a file is accepted exactly when its type is one of the five video types and its size at most 5 GiB; a wrong type is reported before a wrong size |
| `VideoUpload.PlainSuffixLen` | src/components/VideoUpload/index.tsx:66 | counts the trailing characters that are neither `.` nor `/`, stopping at the first that is |
| `VideoUpload.StripExtension` | src/components/VideoUpload/index.tsx:66 | the result is the name itself, or the part before a dot that is followed only by one or more characters other than `.` and `/` |
| `VideoUpload.StripExtensionFindsTheBase` | src/components/VideoUpload/index.tsx:66 | a name made of a base, a dot and such an extension strips to exactly the base |
| `VideoUpload.NamesWithoutExtensionAreKept` | src/components/VideoUpload/index.tsx:66 | a name that is empty, ends in `.` or `/`, or has no dot is kept whole |
| `VideoUpload.StageText` | src/components/VideoUpload/index.tsx:106-119 | the label is non-empty exactly for the four known stages |
| `VideoUpload.StageTextsAreDistinct` | src/components/VideoUpload/index.tsx:106-119 | each known stage has a label no other stage has |
| `VideoUpload.SizeUnitOf` | src/components/VideoUpload/index.tsx:121-127 | B below 1024, KB below 1024², MB below 1024³, GB otherwise |
| `VideoUpload.SizeUnitScalesIntoRange` | src/components/VideoUpload/index.tsx:121-127 | for a positive size the unit is at most the size, and below GB the size is under 1024 units |
| `VideoUpload.SizeUnitIsMonotone` | src/components/VideoUpload/index.tsx:121-127 | a larger size never gets a smaller unit |
| `VideoUpload.AfterReports` | src/components/VideoUpload/index.tsx:81-84 | after progress reports the widget shows the last report's stage and progress, or the earlier ones when there was none |
| `VideoUpload.FindVideo` | src/components/VideoUpload/index.tsx:175-177 | finds nothing exactly when no item has the id, and otherwise the first item that has it |
| `VideoUpload.SelectExisting` | src/components/VideoUpload/index.tsx:174-180 | a chosen id hands a video to the form exactly when an item has that id; what it hands is the id and `originalPath` of the first item with that id |
| `VideoUpload.Uploader.constructor` | src/components/VideoUpload/index.tsx:27-31 | no file, empty title and stage, progress 0, form hidden |
| `VideoUpload.Uploader.HandleFileSelect` | src/components/VideoUpload/index.tsx:37-69 | no file or a rejected file leaves file and title unchanged; an accepted file is selected and an empty title becomes the file name without its extension, while a non-empty title is kept |
| `VideoUpload.Uploader.SetTitle` | src/components/VideoUpload/index.tsx:257 | the title is the typed text |
| `VideoUpload.Uploader.ToggleUploadForm` | src/components/VideoUpload/index.tsx:199 | the upload form flag flips |
| `VideoUpload.Uploader.ShowProgress` | src/components/VideoUpload/index.tsx:80-83 | after the progress callbacks the widget shows the stage and percentage of the last report, or what it showed before when none came |
| `VideoUpload.Uploader.Reset` | src/components/VideoUpload/index.tsx:87-91 | after an upload the file, title, stage, progress and form flag are back to their initial values |
| `VideoUpload.CanUpload` | src/components/VideoUpload/index.tsx:72 | an upload may start exactly when a file is selected and the title holds a character other than whitespace |
| `VideoUpload.Uploader.HandleUpload` | src/components/VideoUpload/index.tsx:71-104 | sends exactly when a file is selected and the trimmed title is non-empty, with the trimmed title; a success resets every field and hands the video's id and path to the form; a failure keeps file, title and form flag and shows the last progress |
| `Auth.MergeUser` | src/hooks/useAuth.ts:67-70 | the patched user has the fields of both; the patch's fields win and every other field is kept |
| `Auth.MergeUserIdempotent` | src/hooks/useAuth.ts:67-70 | patching twice with the same fields is patching once |
| `Auth.MergeUserComposes` | src/hooks/useAuth.ts:67-70 | two patches in a row are one patch with the later fields winning |
| `Auth.AuthSession.constructor` | src/hooks/useAuth.ts:24-26 | user and token absent, loading |
| `Auth.AuthSession.Load` | src/hooks/useAuth.ts:29-40 | token and user become the stored ones and loading ends, so the state mirrors the store |
| `Auth.AuthSession.Login` | src/hooks/useAuth.ts:45-50 | token and user become the given ones, in the store and in the state |
| `Auth.AuthSession.Logout` | src/hooks/useAuth.ts:55-61 | token and user are cleared in the store and in the state |
| `Auth.AuthSession.UpdateUser` | src/hooks/useAuth.ts:66-72 | a no-op without a user; otherwise the user becomes the patched one, stored and shown, and the state keeps mirroring the store |
| `QueryKeys.All` | src/hooks/api/use-about-page.ts:37 | a key of one element, the root |
| `QueryKeys.Lists` | src/hooks/api/use-about-page.ts:38 | extends `all` by `"list"` |
| `QueryKeys.List` | src/hooks/api/use-about-page.ts:39 | extends `lists()` by the parameters |
| `QueryKeys.Details` | src/hooks/api/use-about-page.ts:40 | extends `all` by `"detail"` |
| `QueryKeys.Detail` | src/hooks/api/use-about-page.ts:41 | extends `details()` by the id |
| `QueryKeys.ListsAndDetailsAreApart` | src/hooks/api/use-about-page.ts:38-41 | `lists()` and `details()` are not prefixes of each other, and no list key lies under `details()` nor detail key under `lists()` |
| `QueryKeys.FactoriesAreApart` | src/hooks/api/use-about-page.ts:37 | factories with different roots share no key |
| `QueryKeys.ResponseId` | src/hooks/api/use-about-page.ts:101 | an id is found exactly when `data` is an object with an `id` field, and is that field; `in` throws exactly for a truthy `data` that is neither object nor array |
| `QueryKeys.Covers` | src/hooks/api/use-about-page.ts:82-84 | invalidating a list of prefixes refreshes a key exactly when one of the prefixes is a prefix of it |
| `QueryKeys.OwnInvalidation` | src/hooks/api/use-about-page.ts:82-120 | invalidates `lists()`, then the named record's detail key after an update whose response names an id; throws exactly when the id check does |
| `QueryKeys.ChildInvalidation` | src/hooks/api/use-about-page.ts:174-215 | invalidates `lists()` and the parent's `all`, then the named record's detail key after an update whose response names an id |
| `QueryKeys.OwnInvalidationRefreshes` | src/hooks/api/use-about-page.ts:82-120 | a resource's own mutation refreshes a query exactly when it lies under the lists or under the record the update names |
| `QueryKeys.ChildInvalidationRefreshes` | src/hooks/api/use-about-page.ts:174-215 | a child mutation refreshes a query exactly when it lies under the child's lists, under the parent, or under the record the update names |
| `QueryKeys.EveryListIsRefreshed` | src/hooks/api/use-about-page.ts:83 | every mutation refreshes every list query of its resource, whatever the parameters |
| `QueryKeys.DetailRefreshedIffNamed` | src/hooks/api/use-about-page.ts:99-104 | a detail query is refreshed exactly when the mutation is an update whose response's data carries that id |
| `QueryKeys.ChildRefreshesParent` | src/hooks/api/use-about-page.ts:176 | a child mutation refreshes every query of the parent |
| `QueryKeys.OwnInvalidationStaysInside` | src/hooks/api/use-about-page.ts:82-120 | a resource's own mutation refreshes no query of a resource with another root |
| `QueryKeys.DetailQueryMatchesSubmitRoute` | src/hooks/api/use-about-page.ts:67 | `enabled: !!id` holds for the edit page's id exactly when the form would submit an update |
| `AboutPageHooks.RootsAreDistinct` | src/hooks/api/use-about-page.ts:37 | the roots `about-page`, `resume-items`, `team-members` and `certificates` differ, so no key belongs to two resources |
| `AboutPageHooks.OnSuccess` | src/hooks/api/use-about-page.ts:82-405 | the page's handlers invalidate its lists and then the updated record; a section's handlers its lists, then the whole page, then the updated record; an update throws exactly when the response data is truthy but neither object nor array |
| `AboutPageHooks.OnSuccessRefreshes` | src/hooks/api/use-about-page.ts:82-405 | each mutation refreshes exactly its lists, the record an update names and, for a section, the whole about page |
| `AboutPageHooks.PageCreateAndDeleteRefreshLists` | src/hooks/api/use-about-page.ts:82-84 | about-page creates and deletes refresh the page lists and nothing else |
| `AboutPageHooks.SectionChangesRefreshPage` | src/hooks/api/use-about-page.ts:174-177 | a resume-item, team-member or certificate change refreshes every about-page detail query |
| `AboutPageHooks.PageChangesLeaveSections` | src/hooks/api/use-about-page.ts:99-104 | an about-page mutation refreshes no section query |
| `AboutPageHooks.SectionsAreIndependent` | src/hooks/api/use-about-page.ts:269-272 | a mutation of one section refreshes no query of another section |
| `InvestmentPlansHooks.RootsAreDistinct` | src/hooks/api/use-investment-plans.ts:31 | the roots `investment-plans`, `investment-plan-items` and `investment-tags` differ, so no key belongs to two resources |
| `InvestmentPlansHooks.OnSuccess` | src/hooks/api/use-investment-plans.ts:76-304 | the page's handlers invalidate its lists and then the updated record; an item's or tag's handlers their lists, then the whole plans page, then the updated record; the same throw rule |
| `InvestmentPlansHooks.OnSuccessRefreshes` | src/hooks/api/use-investment-plans.ts:76-304 | each mutation refreshes exactly its lists, the record an update names and, for a plan item or tag, the whole plans page |
| `InvestmentPlansHooks.PageUpdateRefreshesNamedRecord` | src/hooks/api/use-investment-plans.ts:93-98 | a page update refreshes the page detail of an id exactly when the response's data carries that id |
| `InvestmentPlansHooks.ItemChangesRefreshPageLists` | src/hooks/api/use-investment-plans.ts:168-171 | a plan-item or tag change refreshes every plans-page list |
| `InvestmentPlansHooks.PageChangesLeaveItems` | src/hooks/api/use-investment-plans.ts:76-78 | a plans-page mutation refreshes no plan-item or tag query |
| `SingleResourceHooks.KeyHierarchy` | src/hooks/api/use-investment-consulting.ts:18-24 | `list(params)` under `lists()` under `all`, `detail(id)` under `details()` under `all`, and the two branches apart (the same factories at use-home-landing.ts:18-24 and use-mobile-scroller-steps.ts:18-24) |
| `SingleResourceHooks.OnSuccess` | src/hooks/api/use-home-landing.ts:64-102 | every handler invalidates the lists and, after an update naming an id, that record; the same throw rule (likewise in use-investment-consulting.ts and use-mobile-scroller-steps.ts) |
| `SingleResourceHooks.CreateAndDeleteRefreshLists` | src/hooks/api/use-home-landing.ts:64-102 | creates and deletes refresh the resource's lists and nothing else (the same in use-investment-consulting.ts and use-mobile-scroller-steps.ts) |
| `SingleResourceHooks.UpdateRefreshesNamedRecord` | src/hooks/api/use-mobile-scroller-steps.ts:81-86 | an update refreshes every list, and the detail of an id exactly when the response's data carries it (the same in the other two files) |
| `SingleResourceHooks.PagesAreIndependent` | src/hooks/api/use-investment-consulting.ts:19 | the roots `investment-consulting`, `home-landing` and `mobile-scroller-steps` differ, and no mutation of one refreshes another's queries |

## Left out

- Network calls (`api.get`, `post`, `patch`, `delete`, `mutateAsync`) are not modelled. A submit yields the route it would take and the body it would send. An upload's progress reports and outcome are parameters.
- What happens after a submit or upload is not modelled: navigation, toasts, `console.error` and the reset of the file input.
- The cache itself is not modelled, only the prefixes passed to `invalidateQueries`. A key element compared to an object prefix element is matched by value here; the cache library matches object elements partially.
- `isPending` button disabling and other async UI state are not modelled.
- `Number(value)` is not evaluated. `Truthy` treats every number as truthy, so `0` and `NaN` read as truthy where JavaScript reads them as falsy. No reachable check in the model tests a number's truthiness except a response `data` that is a number.
- `JSON.parse` and `JSON.stringify` of the steps text are not modelled; the parse result is a parameter.
- `toFixed(2)` in `formatFileSize` is floating point; only the unit choice is modelled.
- `getAuthToken`, `setAuthUser`, `removeAuthToken`, `authLogout` and the other helpers in `src/lib/auth` are not part of this model. The store is modelled as two fields. `authLogout`'s own effects and `isAuthenticated`/`isAdmin` are left out.
- The hooks' closures capture the state of the render that created them. The model runs handlers one after another on the latest state.
- `useCompleteVideoUpload`, `useVideos` and the three-stage upload pipeline are not part of this model.
- The category form, the SkyRoom class form, the settings hooks, the route pages, the middleware, the providers and the type declarations are not modelled. They hold no rule beyond those modelled here.
- `JsValues.SpreadOf`: spreading a string or an array into an object is not modelled (it yields no fields here). An item of the consulting lists is always an object in the form.
- `JsValues.JoinPiece`: the `join` text of an array, object, `null` or `undefined` element is not modelled; those elements join as `""`.
- `InvestmentConsulting.WithField`: requires an in-range index, because the form only calls the update handlers for rendered items. An out-of-range index would add a property to a new array slot.
- `InvestmentPlans.KeywordsShown` and `InvestmentConsulting.LoadedKeywordsInput`: a loaded `metaKeywords` that is truthy but not an array makes `.join` throw in the source. The model shows it as an empty text.
- `QueryKeys.ResponseId`: the model records that the handler throws after the earlier invalidations. What the mutation then reports is not modelled.
