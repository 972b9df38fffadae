/**
 * The lesson form: a record edited through named inputs, a video picker
 * and a thumbnail picker, and a submit handler that runs three checks in a
 * fixed order before it sends the record.
 */
module LessonForm {
  import opened JsValues
  import opened FormInputs
  import Text
  import VideoUpload

  /** The record a new lesson starts from: the lesson's ten fields, no
      video, published, order and views zero and every text empty. */
  function InitialFormData(): (r: Object)
    ensures r.Keys == LoadedFields + DefaultedFields + {"videoId"}
    ensures r["videoId"] == Null && r["published"] == Bool(true)
    ensures r["order"] == Number("0") && r["views"] == Number("0")
    ensures forall k :: k in r && r[k].Str? ==> r[k] == Str("")
  {
    map k | k in LoadedFields + DefaultedFields + {"videoId"} ::
      if k == "videoId" then Null
      else if k == "published" then Bool(true)
      else if k == "order" || k == "views" then Number("0")
      else Str("")
  }

  /** A string field the server may leave empty: a string, `null` or absent. */
  predicate OptionalText(v: Value) {
    v.Str? || v.Null? || v.Undefined?
  }

  /** The lesson record the server sends, as the form's types declare it. */
  predicate ServerLesson(lesson: Object) {
    && Get(lesson, "courseId").Str? && Get(lesson, "title").Str? && Get(lesson, "videoUrl").Str?
    && OptionalText(Get(lesson, "description")) && OptionalText(Get(lesson, "thumbnail"))
    && OptionalText(Get(lesson, "duration")) && OptionalText(Get(lesson, "videoId"))
    && Get(lesson, "order").Number? && Get(lesson, "views").Number? && Get(lesson, "published").Bool?
  }

  /** The fields an edit load copies as they are. */
  const LoadedFields: set<string> := {"courseId", "title", "videoUrl", "order", "published", "views"}

  /** The fields an edit load turns into `""` when they are empty. */
  const DefaultedFields: set<string> := {"description", "thumbnail", "duration"}

  /** The value an edit load gives the field `k`. */
  function LoadedValue(lesson: Object, k: string): (v: Value)
    ensures k in LoadedFields ==> v == Get(lesson, k)
    ensures k in DefaultedFields ==> v == Or(Get(lesson, k), Str(""))
    ensures k == "videoId" ==> v == Or(Get(lesson, k), Null)
  {
    if k in DefaultedFields then Or(Get(lesson, k), Str(""))
    else if k == "videoId" then Or(Get(lesson, k), Null)
    else Get(lesson, k)
  }

  /** The effect that fills the form once the lesson to edit has loaded;
      `lesson` is the loaded response's `data`, `None` until it arrives.
      The record is replaced by the lesson's ten fields, with the optional
      texts defaulting to `""` and an empty video id to `null`. */
  function LoadForEdit(prev: Object, isEdit: bool, lesson: Option<Object>): (r: Object)
    ensures !(isEdit && lesson.Some?) ==> r == prev
    ensures isEdit && lesson.Some? ==> r.Keys == LoadedFields + DefaultedFields + {"videoId"}
    ensures isEdit && lesson.Some? ==> forall k :: k in LoadedFields ==> r[k] == Get(lesson.value, k)
    ensures isEdit && lesson.Some? ==> forall k :: k in DefaultedFields ==>
      r[k] == (if Truthy(Get(lesson.value, k)) then Get(lesson.value, k) else Str(""))
    ensures isEdit && lesson.Some? ==>
      r["videoId"] == (if Truthy(Get(lesson.value, "videoId")) then Get(lesson.value, "videoId") else Null)
  {
    if isEdit && lesson.Some? then
      map k | k in LoadedFields + DefaultedFields + {"videoId"} :: LoadedValue(lesson.value, k)
    else prev
  }

  /** The named inputs of the form and the `type` each reports. */
  const Inputs: map<string, string> := map[
    "courseId" := "select-one", "title" := "text", "description" := "textarea",
    "videoUrl" := "url", "duration" := "text", "order" := "number",
    "views" := "number", "published" := "checkbox"]

  predicate IsText(f: Object, k: string) {
    k in f && f[k].Str?
  }

  /** The shape the record keeps while the form is open. */
  predicate WellTyped(f: Object) {
    && IsText(f, "courseId") && IsText(f, "title") && IsText(f, "description")
    && IsText(f, "videoUrl") && IsText(f, "thumbnail") && IsText(f, "duration")
    && "videoId" in f && (f["videoId"].Null? || f["videoId"].Str?)
    && "order" in f && f["order"].Number?
    && "views" in f && f["views"].Number?
    && "published" in f && f["published"].Bool?
  }

  /** `handleChange`: the named field gets the checked state, the number or
      the raw string; every other field keeps its value. */
  function HandleChange(prev: Object, e: InputEvent): (r: Object)
    ensures r.Keys == prev.Keys + {e.name}
    ensures r[e.name] == CoercePlain(e)
    ensures forall k :: k in prev && k != e.name ==> r[k] == prev[k]
  {
    SetField(prev, e.name, CoercePlain(e))
  }

  /** The video picker's callback: `videoId || null` and `videoUrl || ""`;
      every other field keeps its value. */
  function OnVideoChange(prev: Object, videoId: string, videoUrl: string): (r: Object)
    ensures r.Keys == prev.Keys + {"videoId", "videoUrl"}
    ensures r["videoId"] == (if videoId == "" then Null else Str(videoId))
    ensures r["videoUrl"] == Str(videoUrl)
    ensures forall k :: k in prev && k != "videoId" && k != "videoUrl" ==> r[k] == prev[k]
  {
    prev["videoId" := Or(Str(videoId), Null)]["videoUrl" := Or(Str(videoUrl), Str(""))]
  }

  /** The thumbnail picker's callback. */
  function OnThumbnailChange(prev: Object, url: string): (r: Object)
    ensures r == SetField(prev, "thumbnail", Str(url))
  {
    prev["thumbnail" := Str(url)]
  }

  /** What can happen to the record while the form is open. */
  datatype FormEvent =
    | Changed(e: InputEvent)
    | VideoPicked(videoId: string, videoUrl: string)
    | ThumbnailPicked(url: string)

  /** An event the rendered form can raise: a change comes from one of its
      named inputs and reports that input's type. */
  predicate FromForm(ev: FormEvent) {
    ev.Changed? ==> ev.e.name in Inputs && Inputs[ev.e.name] == ev.e.inputType
  }

  function Apply(f: Object, ev: FormEvent): Object {
    match ev
    case Changed(e) => HandleChange(f, e)
    case VideoPicked(id, url) => OnVideoChange(f, id, url)
    case ThumbnailPicked(url) => OnThumbnailChange(f, url)
  }

  function Replay(f: Object, evs: seq<FormEvent>): Object
    decreases |evs|
  {
    if evs == [] then f else Replay(Apply(f, evs[0]), evs[1..])
  }

  lemma ApplyKeepsWellTyped(f: Object, ev: FormEvent)
    requires WellTyped(f) && FromForm(ev)
    ensures WellTyped(Apply(f, ev))
  {
    if ev.Changed? {
      ChangeKeepsWellTyped(f, ev.e);
    }
  }

  /** A change from one of the form's inputs stores a value of the type the
      field already has. */
  lemma ChangeKeepsWellTyped(f: Object, e: InputEvent)
    requires WellTyped(f) && e.name in Inputs && Inputs[e.name] == e.inputType
    ensures WellTyped(HandleChange(f, e))
  {
    if e.name == "published" {
      assert e.inputType == "checkbox";
    } else if e.name == "order" || e.name == "views" {
      assert e.inputType == "number";
    } else {
      assert e.inputType[0] != 'c' && e.inputType[0] != 'n';
    }
  }

  /** Whatever the user does in the form, the record keeps its shape; in
      particular `title` and `videoUrl` stay strings, so the submit
      handler's `.trim()` calls are always defined. */
  lemma {:induction false} ReplayKeepsWellTyped(f: Object, evs: seq<FormEvent>)
    requires WellTyped(f)
    requires forall i :: 0 <= i < |evs| ==> FromForm(evs[i])
    ensures WellTyped(Replay(f, evs))
    decreases |evs|
  {
    if evs != [] {
      ApplyKeepsWellTyped(f, evs[0]);
      ReplayKeepsWellTyped(Apply(f, evs[0]), evs[1..]);
    }
  }

  lemma InitialIsWellTyped()
    ensures WellTyped(InitialFormData())
  {
  }

  /** A lesson loaded for editing gives the record the shape the form
      keeps, so every later edit keeps it too. */
  lemma LoadedLessonIsWellTyped(prev: Object, lesson: Object)
    requires ServerLesson(lesson)
    ensures WellTyped(LoadForEdit(prev, true, Some(lesson)))
  {
  }

  /** Loading and then submitting unchanged sends the lesson's own course,
      title and video URL to the update request, provided it passes the
      checks. */
  lemma LoadThenSubmit(prev: Object, lesson: Object, lessonId: string)
    requires ServerLesson(lesson) && lessonId != ""
    requires Validate(LoadForEdit(prev, true, Some(lesson))) == None
    ensures Submit(LoadForEdit(prev, true, Some(lesson)), true, Some(lessonId)).Send?
    ensures Submit(LoadForEdit(prev, true, Some(lesson)), true, Some(lessonId)).route == Update(lessonId)
    ensures Submit(LoadForEdit(prev, true, Some(lesson)), true, Some(lessonId)).body
            == LoadForEdit(prev, true, Some(lesson))
  {
  }

  /** Why a submit is refused. */
  datatype LessonError = CourseRequired | TitleRequired | VideoRequired

  /** `!formData.courseId` */
  predicate CourseMissing(f: Object) {
    !Truthy(Get(f, "courseId"))
  }

  /** `!formData.title.trim()` */
  predicate TitleMissing(f: Object)
    requires WellTyped(f)
  {
    Text.Trim(f["title"].s) == ""
  }

  /** `!formData.videoId && (!formData.videoUrl || !formData.videoUrl.trim())` */
  predicate VideoMissing(f: Object)
    requires WellTyped(f)
  {
    !Truthy(f["videoId"]) && (!Truthy(f["videoUrl"]) || Text.Trim(f["videoUrl"].s) == "")
  }

  /** The checks of `handleSubmit`, in their order: the first that fails
      is the only error reported, and a record passes when none fails. */
  function Validate(f: Object): (r: Option<LessonError>)
    requires WellTyped(f)
    ensures r == Some(CourseRequired) <==> CourseMissing(f)
    ensures r == Some(TitleRequired) <==> !CourseMissing(f) && TitleMissing(f)
    ensures r == Some(VideoRequired) <==> !CourseMissing(f) && !TitleMissing(f) && VideoMissing(f)
    ensures r == None <==> !CourseMissing(f) && !TitleMissing(f) && !VideoMissing(f)
  {
    if !Truthy(f["courseId"]) then Some(CourseRequired)
    else if Text.Trim(f["title"].s) == "" then Some(TitleRequired)
    else if !Truthy(f["videoId"]) && (!Truthy(f["videoUrl"]) || Text.Trim(f["videoUrl"].s) == "") then Some(VideoRequired)
    else None
  }

  /** What a submit does. */
  datatype SubmitAction = Refused(error: LessonError) | Send(route: Route, body: Object)

  /** `handleSubmit`: a record that fails a check is refused with that
      check's error; one that passes goes, unchanged, to the update request
      when the form edits a lesson with a non-empty id and to the create
      request otherwise. */
  function Submit(f: Object, isEdit: bool, lessonId: Option<string>): (r: SubmitAction)
    requires WellTyped(f)
    ensures r.Refused? <==> CourseMissing(f) || TitleMissing(f) || VideoMissing(f)
    ensures r.Refused? ==> Validate(f) == Some(r.error)
    ensures r.Send? ==> r.body == f
    ensures r.Send? ==> (r.route.Update? <==> isEdit && lessonId.Some? && lessonId.value != "")
    ensures r.Send? && r.route.Update? ==> r.route.id == lessonId.value
  {
    match Validate(f)
    case Some(err) => Refused(err)
    case None => Send(SubmitRoute(isEdit, lessonId), f)
  }

  /** A lesson with neither an uploaded video nor a usable URL is refused,
      even with course and title filled in: a URL of spaces does not count. */
  lemma BlankUrlIsRefused(f: Object, course: string, title: string, spaces: string)
    requires WellTyped(f)
    requires f["courseId"] == Str(course) && course != ""
    requires f["title"] == Str(title) && Text.IsTrimmed(title) && title != ""
    requires f["videoId"] == Null && f["videoUrl"] == Str(spaces) && Text.AllSpace(spaces)
    ensures Submit(f, true, Some("lesson")) == Refused(VideoRequired)
  {
    Text.TrimIdempotent(title);
    Text.TrimPadded(spaces, []);
    assert spaces + [] == spaces;
  }

  /** Removing the video in the picker makes the lesson unsubmittable,
      whatever it held before. */
  lemma RemovedVideoIsRefused(f: Object, isEdit: bool, lessonId: Option<string>)
    requires WellTyped(f) && !CourseMissing(f) && !TitleMissing(f)
    ensures WellTyped(OnVideoChange(f, VideoUpload.RemovedVideo.0, VideoUpload.RemovedVideo.1))
    ensures Submit(OnVideoChange(f, VideoUpload.RemovedVideo.0, VideoUpload.RemovedVideo.1), isEdit, lessonId)
            == Refused(VideoRequired)
  {
    var g := OnVideoChange(f, "", "");
    ApplyKeepsWellTyped(f, VideoPicked("", ""));
    assert g["videoId"] == Null && g["videoUrl"] == Str("");
    assert g["courseId"] == f["courseId"] && g["title"] == f["title"];
    assert VideoMissing(g) && !CourseMissing(g) && !TitleMissing(g);
    assert Validate(g) == Some(VideoRequired);
  }

  /** A video uploaded or chosen in the picker satisfies the video check. */
  lemma PickedVideoSatisfiesCheck(f: Object, items: seq<VideoUpload.VideoItem>, chosen: string)
    requires WellTyped(f) && chosen != ""
    requires VideoUpload.SelectExisting(items, chosen).Some?
    ensures WellTyped(OnVideoChange(f, VideoUpload.SelectExisting(items, chosen).value.0,
                                       VideoUpload.SelectExisting(items, chosen).value.1))
    ensures !VideoMissing(OnVideoChange(f, VideoUpload.SelectExisting(items, chosen).value.0,
                                           VideoUpload.SelectExisting(items, chosen).value.1))
  {
    var picked := VideoUpload.SelectExisting(items, chosen).value;
    ApplyKeepsWellTyped(f, VideoPicked(picked.0, picked.1));
  }
}
