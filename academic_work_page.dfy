/**
 * The subject listing (`/academic-work`): its view state, the single-query `load` guarded
 * by `mounted`, and the derivations that decide what is shown.
 */
module AcademicWork {

  import opened Outcomes

  datatype SubjectRow = SubjectRow(
    id: string, name: string, description: string, icon: Option<string>, course_count: Option<int>)

  type SubjectsRes = Res<Option<seq<SubjectRow>>>

  /** The count line of a subject card: `course_count ?? 0` and its noun. */
  datatype CourseLine = CourseLine(count: int, noun: string)

  /** The noun is "course" exactly when the column holds 1; a null column reads as 0 courses. */
  function CourseLineOf(s: SubjectRow): (line: CourseLine)
    ensures line.count == OrZero(s.course_count)
    ensures line.noun == "course" <==> s.course_count == Some(1)
    ensures line.noun != "course" ==> line.noun == "courses"
    ensures s.course_count.None? ==> line == CourseLine(0, "courses")
  {
    var count := OrZero(s.course_count);
    CourseLine(count, if count == 1 then "course" else "courses")
  }

  class AcademicWorkPage {
    var subjects: seq<SubjectRow>
    var loading: bool
    var errorMsg: Option<string>

    /** The `useState` initial values. */
    constructor ()
      ensures subjects == [] && loading && errorMsg == None
    {
      subjects := [];
      loading := true;
      errorMsg := None;
    }

    /** The "Failed to load subjects" banner: shown whenever the message is truthy. */
    function ShowsErrorBanner(): (r: bool)
      reads this
      ensures r <==> errorMsg.Some? && errorMsg.value != ""
    {
      Truthy(errorMsg)
    }

    /**
     * "No subjects found ..." under the grid: only once loading is over, and never together
     * with the error banner (an empty message hides the banner, so the note can show).
     */
    function ShowsEmptyState(): (r: bool)
      reads this
      ensures r ==> !loading && subjects == []
      ensures r ==> !ShowsErrorBanner()
      ensures !loading && subjects == [] ==> (r <==> !ShowsErrorBanner())
    {
      !loading && subjects == [] && !Truthy(errorMsg)
    }

    /**
     * One run of the effect's `load`. The settled query is an input; `cancel` says whether
     * the cleanup set `mounted` to false while the query was pending.
     */
    method Load(res: SubjectsRes, cancel: Cancel)
      modifies this
      // Unmounted before the query settled: only the two opening writes happened.
      ensures !MountedAfter(cancel, 1) ==>
        loading && errorMsg == None && subjects == old(subjects)
      ensures MountedAfter(cancel, 1) && res.Err? ==>
        && errorMsg == Some(res.msg) && subjects == [] && !loading
        && (ShowsErrorBanner() <==> res.msg != "")
        && (ShowsEmptyState() <==> res.msg == "")
      ensures MountedAfter(cancel, 1) && res.Ok? ==>
        && subjects == OrEmpty(res.data) && !loading && errorMsg == None
        && (ShowsEmptyState() <==> OrEmpty(res.data) == [])
    {
      loading := true;
      errorMsg := None;

      // `await fetchSubjects()`.
      if !MountedAfter(cancel, 1) {
        return;
      }
      if res.Err? {
        errorMsg := Some(res.msg);
        subjects := [];
        loading := false;
        return;
      }
      subjects := OrEmpty(res.data);
      loading := false;
    }
  }

  /**
   * A query error with an empty message: `errorMsg` is `""`, which is falsy, so the banner stays
   * hidden and "No subjects found ..." shows.
   */
  method EmptyMessageScenario() returns (emptyState: bool, banner: bool)
    ensures emptyState && !banner
  {
    var page := new AcademicWorkPage();
    page.Load(Err(""), StaysMounted);
    emptyState := page.ShowsEmptyState();
    banner := page.ShowsErrorBanner();
  }
}
