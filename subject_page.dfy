/**
 * The subject detail page (`/subject/:subjectId`): its view state, the three-step `load`
 * (subject, then its courses, then every course's tools) guarded by `mounted`, and the
 * derivations that decide what is shown.
 */
module SubjectDetail {

  import opened Outcomes
  import opened RouteParams
  import opened ToolSort

  datatype SubjectRow = SubjectRow(id: string, name: string, description: string, icon: Option<string>)

  datatype CourseRow = CourseRow(
    id: string, subject_id: string, name: string, description: string,
    term: Option<string>, assignment_count: Option<int>)

  type CoursesRes = Res<Option<seq<CourseRow>>>
  type ToolsRes = Res<Option<seq<CourseToolRow>>>

  function CourseIds(courses: seq<CourseRow>): set<string>
  {
    set c | c in courses :: c.id
  }

  /**
   * What one course's tool query contributes to `toolsMap`: nothing on failure, otherwise
   * one label per returned row (null `data` being no rows), ordered by SortByKey.
   */
  function ToolsEntry(res: ToolsRes): (r: seq<string>)
    ensures res.Err? ==> r == []
    ensures res.Ok? ==> |r| == |OrEmpty(res.data)|
    ensures res.Ok? ==> forall i :: 0 <= i < |r| ==> r[i] == SortByKey(OrEmpty(res.data))[i].tool
  {
    match res
    case Err(_) => []
    case Ok(data) => ToolLabels(OrEmpty(data))
  }

  /**
   * The fan-out over `courseRows`: one entry per course id, each computed from that course's
   * own query alone, so one course's failure cannot touch another course's entry.
   */
  method CollectTools(courseRows: seq<CourseRow>, toolsOf: string -> ToolsRes)
    returns (toolsMap: map<string, seq<string>>)
    ensures toolsMap.Keys == CourseIds(courseRows)
    ensures forall c :: c in courseRows ==> toolsMap[c.id] == ToolsEntry(toolsOf(c.id))
  {
    toolsMap := map[];
    var i := 0;
    while i < |courseRows|
      invariant 0 <= i <= |courseRows|
      invariant toolsMap.Keys == CourseIds(courseRows[..i])
      invariant forall c :: c in courseRows[..i] ==> toolsMap[c.id] == ToolsEntry(toolsOf(c.id))
    {
      var course := courseRows[i];
      assert courseRows[..i + 1] == courseRows[..i] + [course];
      toolsMap := toolsMap[course.id := ToolsEntry(toolsOf(course.id))];
      i := i + 1;
    }
    assert courseRows[..i] == courseRows;
  }

  /** The "Tools Used" cell of a course card. */
  datatype ToolsShown = Badges(labels: seq<string>) | NotListedYet

  /**
   * `(toolsByCourse[id] ?? []).slice(0, 3)`, shown as badges, or "Not listed yet" when that
   * is empty: at most the first three labels, and the placeholder exactly when there are none.
   */
  function ShownTools(toolsByCourse: map<string, seq<string>>, courseId: string): (r: ToolsShown)
    ensures var entry := if courseId in toolsByCourse then toolsByCourse[courseId] else [];
      && (r.NotListedYet? <==> entry == [])
      && (r.Badges? ==> |r.labels| == (if |entry| < 3 then |entry| else 3) && r.labels == entry[..|r.labels|])
  {
    var entry := if courseId in toolsByCourse then toolsByCourse[courseId] else [];
    var tools := if |entry| <= 3 then entry else entry[..3];
    if |tools| > 0 then Badges(tools) else NotListedYet
  }

  /** The count line of a course card: `assignment_count ?? 0` and its noun. */
  datatype AssignmentLine = AssignmentLine(count: int, noun: string)

  /** The noun is singular exactly when the column holds 1; a null column reads as 0 assignments. */
  function AssignmentLineOf(c: CourseRow): (line: AssignmentLine)
    ensures line.count == OrZero(c.assignment_count)
    ensures line.noun == "assignment" <==> c.assignment_count == Some(1)
    ensures line.noun != "assignment" ==> line.noun == "assignments"
    ensures c.assignment_count.None? ==> line == AssignmentLine(0, "assignments")
  {
    var count := OrZero(c.assignment_count);
    AssignmentLine(count, if count == 1 then "assignment" else "assignments")
  }

  class SubjectPage {
    var subject: Option<SubjectRow>
    var courses: seq<CourseRow>
    var toolsByCourse: map<string, seq<string>>
    var loading: bool
    var errorMsg: Option<string>

    /** The `useState` initial values. */
    constructor ()
      ensures subject == None && courses == [] && toolsByCourse == map[]
      ensures loading && errorMsg == None
    {
      subject := None;
      courses := [];
      toolsByCourse := map[];
      loading := true;
      errorMsg := None;
    }

    /**
     * "Subject Not Found" replaces the page once loading is over, when the id is blank or
     * no subject is stored; a stored subject is shown whatever the error.
     */
    function ShowsNotFound(safeSubjectId: string): (r: bool)
      reads this
      ensures r ==> !loading
      ensures !loading && safeSubjectId == "" ==> r
      ensures subject.Some? && safeSubjectId != "" ==> !r
      ensures !loading ==> (r <==> safeSubjectId == "" || subject.None?)
    {
      !loading && (safeSubjectId == "" || subject.None?)
    }

    /** The message line of the not-found panel: the error message, when it is truthy. */
    function NotFoundDetail(safeSubjectId: string): (d: Option<string>)
      reads this
      ensures d.Some? <==> ShowsNotFound(safeSubjectId) && errorMsg.Some? && errorMsg.value != ""
      ensures d.Some? ==> d == errorMsg
    {
      if ShowsNotFound(safeSubjectId) && Truthy(errorMsg) then errorMsg else None
    }

    /** The "Failed to load content" banner of the detail view. */
    function ShowsErrorBanner(safeSubjectId: string): (r: bool)
      reads this
      ensures r ==> !ShowsNotFound(safeSubjectId)
      ensures !ShowsNotFound(safeSubjectId) ==> (r <==> errorMsg.Some? && errorMsg.value != "")
    {
      !ShowsNotFound(safeSubjectId) && Truthy(errorMsg)
    }

    /**
     * "No courses found for this subject yet." under the course grid: only in the detail
     * view, once loading is over, with no courses, and never beside the error banner.
     */
    function ShowsNoCourses(safeSubjectId: string): (r: bool)
      reads this
      ensures r ==> !ShowsNotFound(safeSubjectId) && !loading && courses == []
      ensures r ==> !ShowsErrorBanner(safeSubjectId)
      ensures !ShowsNotFound(safeSubjectId) && !loading && courses == [] ==>
        (r <==> !ShowsErrorBanner(safeSubjectId))
    {
      !ShowsNotFound(safeSubjectId) && !loading && courses == [] && !Truthy(errorMsg)
    }

    /**
     * One run of the effect's `load` for the route parameter `subjectId`. The settled queries are inputs;
     * `cancel` says during which await the cleanup set `mounted` to false. After each await
     * the run stops without writing anything when `mounted` is false.
     */
    method Load(subjectId: Option<string>, subjectRes: Res<SubjectRow>, courseRes: CoursesRes,
                toolsOf: string -> ToolsRes, cancel: Cancel)
      modifies this
      // A blank id clears the entities and stops before any query; errorMsg is left alone.
      ensures subjectId.None? || AllTrimSpace(subjectId.value) ==>
        && subject == None && courses == [] && toolsByCourse == map[] && !loading
        && errorMsg == old(errorMsg) && ShowsNotFound(SafeId(subjectId))
      // Unmounted during the subject query: only the two opening writes happened.
      ensures SafeId(subjectId) != "" && !MountedAfter(cancel, 1) ==>
        && loading && errorMsg == None
        && subject == old(subject) && courses == old(courses) && toolsByCourse == old(toolsByCourse)
      // The subject query failed: its message is shown and nothing else is replaced.
      ensures SafeId(subjectId) != "" && MountedAfter(cancel, 1) && subjectRes.Err? ==>
        && !loading && errorMsg == Some(subjectRes.msg)
        && subject == old(subject) && courses == old(courses) && toolsByCourse == old(toolsByCourse)
        && (ShowsNotFound(SafeId(subjectId)) <==> old(subject).None?)
        && NotFoundDetail(SafeId(subjectId)) == (if old(subject).None? && subjectRes.msg != "" then errorMsg else None)
        && (ShowsErrorBanner(SafeId(subjectId)) <==> old(subject).Some? && subjectRes.msg != "")
        && (ShowsNoCourses(SafeId(subjectId)) <==> old(subject).Some? && old(courses) == [] && subjectRes.msg == "")
      ensures SafeId(subjectId) != "" && MountedAfter(cancel, 1) && subjectRes.Ok? ==>
        subject == Some(subjectRes.data)
      // Unmounted during the course query.
      ensures SafeId(subjectId) != "" && subjectRes.Ok? && MountedAfter(cancel, 1) && !MountedAfter(cancel, 2) ==>
        && loading && errorMsg == None && courses == old(courses) && toolsByCourse == old(toolsByCourse)
      // The course query failed, after the subject row was stored.
      ensures SafeId(subjectId) != "" && subjectRes.Ok? && MountedAfter(cancel, 2) && courseRes.Err? ==>
        && !loading && errorMsg == Some(courseRes.msg)
        && courses == old(courses) && toolsByCourse == old(toolsByCourse)
        && !ShowsNotFound(SafeId(subjectId))
        && (ShowsErrorBanner(SafeId(subjectId)) <==> courseRes.msg != "")
        && (ShowsNoCourses(SafeId(subjectId)) <==> old(courses) == [] && courseRes.msg == "")
      ensures SafeId(subjectId) != "" && subjectRes.Ok? && MountedAfter(cancel, 2) && courseRes.Ok? ==>
        courses == OrEmpty(courseRes.data)
      // Unmounted while the tool queries were pending: the tool map is never stored.
      ensures SafeId(subjectId) != "" && subjectRes.Ok? && courseRes.Ok? && MountedAfter(cancel, 2) && !MountedAfter(cancel, 3) ==>
        && loading && errorMsg == None && toolsByCourse == old(toolsByCourse)
      // Full success: an entry per course, each from that course's own tool query.
      ensures SafeId(subjectId) != "" && subjectRes.Ok? && courseRes.Ok? && MountedAfter(cancel, 3) ==>
        && !loading && errorMsg == None
        && toolsByCourse.Keys == CourseIds(courses)
        && (forall c :: c in courses ==> toolsByCourse[c.id] == ToolsEntry(toolsOf(c.id)))
        && !ShowsNotFound(SafeId(subjectId)) && !ShowsErrorBanner(SafeId(subjectId))
        && (ShowsNoCourses(SafeId(subjectId)) <==> courses == [])
    {
      var safeSubjectId := SafeId(subjectId);
      if safeSubjectId == "" {
        subject := None;
        courses := [];
        toolsByCourse := map[];
        loading := false;
        return;
      }

      loading := true;
      errorMsg := None;

      // 1) Subject: `await` the single-row query.
      if !MountedAfter(cancel, 1) {
        return;
      }
      if subjectRes.Err? {
        errorMsg := Some(subjectRes.msg);
        loading := false;
        return;
      }
      subject := Some(subjectRes.data);

      // 2) Courses of the subject.
      if !MountedAfter(cancel, 2) {
        return;
      }
      if courseRes.Err? {
        errorMsg := Some(courseRes.msg);
        loading := false;
        return;
      }
      var courseRows := OrEmpty(courseRes.data);
      courses := courseRows;

      // 3) Tools per course, joined by `Promise.all`.
      var toolsMap := CollectTools(courseRows, toolsOf);
      if !MountedAfter(cancel, 3) {
        return;
      }
      toolsByCourse := toolsMap;
      loading := false;
    }
  }

  const Python := CourseToolRow("t1", "a", "Python", Some(2))
  const R := CourseToolRow("t2", "a", "R", Some(1))

  /** Tool queries of the scenario below: course "a" has two tools, every other course's query fails. */
  function ScenarioTools(id: string): ToolsRes
  {
    if id == "a" then Ok(Some([Python, R])) else Err("fetch failed")
  }

  lemma ScenarioToolOrder()
    ensures ToolsEntry(ScenarioTools("a")) == ["R", "Python"]
  {
  }

  /**
   * Two courses; the first has tools "Python" (sort_order 2) and "R" (sort_order 1), the
   * second's tool query fails. The first card shows "R" then "Python", the second
   * "Not listed yet".
   */
  method TwoCourseScenario() returns (first: ToolsShown, second: ToolsShown)
    ensures first == Badges(["R", "Python"])
    ensures second == NotListedYet
  {
    var page := new SubjectPage();
    var math := SubjectRow("math-101", "Mathematics", "", None);
    var a := CourseRow("a", "math-101", "Course A", "", None, Some(2));
    var b := CourseRow("b", "math-101", "Course B", "", None, None);
    page.Load(Some("math-101"), Ok(math), Ok(Some([a, b])), ScenarioTools, StaysMounted);
    assert a in page.courses && b in page.courses;
    ScenarioToolOrder();
    first := ShownTools(page.toolsByCourse, "a");
    second := ShownTools(page.toolsByCourse, "b");
  }

  /**
   * The page does not clear a subject it showed before: when the query for a new id fails,
   * the previous subject stays, so the page shows it (with the error banner) rather than
   * "Subject Not Found".
   */
  method StaleSubjectScenario(previous: SubjectRow) returns (shown: Option<SubjectRow>, notFound: bool)
    ensures shown == Some(previous) && !notFound
  {
    var page := new SubjectPage();
    page.Load(Some("algebra"), Ok(previous), Ok(None), _ => Err("unused"), StaysMounted);
    page.Load(Some("geometry"), Err("Cannot coerce the result to a single JSON object"), Ok(None),
              _ => Err("unused"), StaysMounted);
    shown := page.subject;
    notFound := page.ShowsNotFound("geometry");
  }
}
