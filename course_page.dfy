/**
 * The course detail page (`/course/:courseId`): its view state, the three-step `load`
 * (course, then the parent subject's name, then the visible assignments) guarded by
 * `mounted`, the not-found condition and the back button.
 */
module CourseDetail {

  import opened Outcomes
  import opened RouteParams

  datatype CourseRow = CourseRow(id: string, subject_id: string, name: string, description: string, term: Option<string>)

  datatype SubjectRow = SubjectRow(id: string, name: string)

  datatype AssignmentRow = AssignmentRow(
    id: string, course_id: string, title: string, description: string,
    github_link: Option<string>, sort_order: Option<int>, is_visible: bool)

  type AssignmentsRes = Res<Option<seq<AssignmentRow>>>

  /** The name put on the back button when the parent subject cannot be read. */
  const FallbackSubjectName := "Subject"

  const SubjectRoutePrefix := "/subject/"
  const AcademicWorkRoute := "/academic-work"

  /**
   * Where the back button navigates: the parent subject's page when its id is non-empty
   * (a truthy string), the subject listing otherwise.
   */
  function BackTarget(parentSubject: Option<SubjectRow>): (r: string)
    ensures parentSubject.Some? && parentSubject.value.id != "" ==>
      r == SubjectRoutePrefix + parentSubject.value.id && r[|SubjectRoutePrefix|..] == parentSubject.value.id
    ensures r == AcademicWorkRoute <==> parentSubject.None? || parentSubject.value.id == ""
  {
    if parentSubject.Some? && parentSubject.value.id != "" then
      var r := SubjectRoutePrefix + parentSubject.value.id;
      assert r[1] != AcademicWorkRoute[1];
      r
    else AcademicWorkRoute
  }

  /** The back button's text: `"Back to " + (parentSubject?.name ?? "Subjects")`. */
  function BackLabel(parentSubject: Option<SubjectRow>): (r: string)
    ensures "Back to " <= r
    ensures parentSubject.Some? ==> r[|"Back to "|..] == parentSubject.value.name
    ensures parentSubject.None? ==> r == "Back to Subjects"
  {
    "Back to " + match parentSubject
      case None => "Subjects"
      case Some(p) => p.name
  }

  class CoursePage {
    var course: Option<CourseRow>
    var parentSubject: Option<SubjectRow>
    var assignments: seq<AssignmentRow>
    var loading: bool
    var errorMsg: Option<string>

    /** The `useState` initial values. */
    constructor ()
      ensures course == None && parentSubject == None && assignments == []
      ensures loading && errorMsg == None
    {
      course := None;
      parentSubject := None;
      assignments := [];
      loading := true;
      errorMsg := None;
    }

    /** "Course Not Found" replaces the page once loading is over and no course is stored. */
    function ShowsNotFound(): (r: bool)
      reads this
      ensures r ==> !loading
      ensures course.Some? ==> !r
      ensures !loading ==> (r <==> course.None?)
    {
      !loading && course.None?
    }

    /** The message line of the not-found panel: the error message, when it is truthy. */
    function NotFoundDetail(): (d: Option<string>)
      reads this
      ensures d.Some? <==> ShowsNotFound() && errorMsg.Some? && errorMsg.value != ""
      ensures d.Some? ==> d == errorMsg
    {
      if ShowsNotFound() && Truthy(errorMsg) then errorMsg else None
    }

    /** The "Failed to load content" banner of the detail view (loading, or a course stored). */
    function ShowsErrorBanner(): (r: bool)
      reads this
      ensures r ==> loading || course.Some?
      ensures loading || course.Some? ==> (r <==> errorMsg.Some? && errorMsg.value != "")
    {
      !ShowsNotFound() && Truthy(errorMsg)
    }

    /**
     * The "No assignments available for this course yet." card: only in the detail view,
     * once loading is over, and exactly when no assignment is stored.
     */
    function ShowsNoAssignments(): (r: bool)
      reads this
      ensures r ==> !loading && course.Some? && assignments == []
      ensures !loading && course.Some? ==> (r <==> assignments == [])
    {
      !ShowsNotFound() && !loading && assignments == []
    }

    /**
     * One run of the effect's `load` for the route parameter `courseId`. The settled queries are inputs;
     * `cancel` says during which await the cleanup set `mounted` to false. After each await
     * the run stops without writing anything when `mounted` is false.
     */
    method Load(courseId: Option<string>, courseRes: Res<CourseRow>, subjectRes: Res<SubjectRow>,
                assignRes: AssignmentsRes, cancel: Cancel)
      modifies this
      // A blank id clears the entities and stops before any query; errorMsg is left alone.
      ensures courseId.None? || AllTrimSpace(courseId.value) ==>
        && course == None && parentSubject == None && assignments == [] && !loading
        && errorMsg == old(errorMsg) && ShowsNotFound()
      // Unmounted during the course query: only the two opening writes happened.
      ensures SafeId(courseId) != "" && !MountedAfter(cancel, 1) ==>
        && loading && errorMsg == None
        && course == old(course) && parentSubject == old(parentSubject) && assignments == old(assignments)
      // The course query failed (this includes a missing row): everything is cleared.
      ensures SafeId(courseId) != "" && MountedAfter(cancel, 1) && courseRes.Err? ==>
        && errorMsg == Some(courseRes.msg) && course == None && parentSubject == None
        && assignments == [] && !loading && ShowsNotFound()
        && NotFoundDetail() == (if courseRes.msg != "" then Some(courseRes.msg) else None)
      ensures SafeId(courseId) != "" && MountedAfter(cancel, 1) && courseRes.Ok? ==>
        course == Some(courseRes.data)
      // Unmounted during the parent-subject query.
      ensures SafeId(courseId) != "" && courseRes.Ok? && MountedAfter(cancel, 1) && !MountedAfter(cancel, 2) ==>
        && loading && errorMsg == None && parentSubject == old(parentSubject) && assignments == old(assignments)
      // The parent-subject query is not fatal: a failure puts the fallback name in its place.
      ensures SafeId(courseId) != "" && courseRes.Ok? && MountedAfter(cancel, 2) ==>
        parentSubject == Some(match subjectRes
          case Ok(s) => s
          case Err(_) => SubjectRow(courseRes.data.subject_id, FallbackSubjectName))
      ensures SafeId(courseId) != "" && courseRes.Ok? && subjectRes.Err? && MountedAfter(cancel, 2) ==>
        BackLabel(parentSubject) == "Back to Subject"
      // Unmounted during the assignment query.
      ensures SafeId(courseId) != "" && courseRes.Ok? && MountedAfter(cancel, 2) && !MountedAfter(cancel, 3) ==>
        && loading && errorMsg == None && assignments == old(assignments)
      // The assignment query failed: its message is shown, the course stays, so the page is found.
      ensures SafeId(courseId) != "" && courseRes.Ok? && MountedAfter(cancel, 3) && assignRes.Err? ==>
        && errorMsg == Some(assignRes.msg) && assignments == [] && !loading && !ShowsNotFound()
        && (ShowsErrorBanner() <==> assignRes.msg != "") && ShowsNoAssignments()
      // Full success; errorMsg stays as cleared at the start, whatever the parent query did.
      ensures SafeId(courseId) != "" && courseRes.Ok? && MountedAfter(cancel, 3) && assignRes.Ok? ==>
        && assignments == OrEmpty(assignRes.data) && !loading && errorMsg == None && !ShowsNotFound()
        && !ShowsErrorBanner() && (ShowsNoAssignments() <==> OrEmpty(assignRes.data) == [])
    {
      var safeCourseId := SafeId(courseId);
      if safeCourseId == "" {
        course := None;
        parentSubject := None;
        assignments := [];
        loading := false;
        return;
      }

      loading := true;
      errorMsg := None;

      // 1) Course: `await fetchCourseById`.
      if !MountedAfter(cancel, 1) {
        return;
      }
      if courseRes.Err? {
        errorMsg := Some(courseRes.msg);
        course := None;
        parentSubject := None;
        assignments := [];
        loading := false;
        return;
      }
      var c := courseRes.data;
      course := Some(c);

      // 2) Parent subject name, for the back button.
      if !MountedAfter(cancel, 2) {
        return;
      }
      if subjectRes.Err? {
        parentSubject := Some(SubjectRow(c.subject_id, FallbackSubjectName));
      } else {
        parentSubject := Some(subjectRes.data);
      }

      // 3) Assignments.
      if !MountedAfter(cancel, 3) {
        return;
      }
      if assignRes.Err? {
        errorMsg := Some(assignRes.msg);
        assignments := [];
        loading := false;
        return;
      }
      assignments := OrEmpty(assignRes.data);
      loading := false;
    }
  }

  /**
   * A course id with no row: the single-row query fails, so the page shows "Course Not Found",
   * with the query's own message under it unless that message is empty.
   */
  method MissingCourseScenario(message: string) returns (notFound: bool, detail: Option<string>)
    ensures notFound
    ensures message != "" ==> detail == Some(message)
    ensures message == "" ==> detail == None
  {
    var page := new CoursePage();
    page.Load(Some("no-such-course"), Err(message), Err("unused"), Err("unused"), StaysMounted);
    notFound := page.ShowsNotFound();
    detail := page.NotFoundDetail();
  }
}
