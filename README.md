# Academic portfolio pages: load-and-render state machine

This project models the three content pages of a personal academic portfolio, a React
single-page site that reads from a hosted PostgreSQL database (through the Supabase
client). The pages are the subject listing (`/academic-work`), a subject's detail page
(`/subject/:subjectId`) and a course's detail page (`/course/:courseId`).

Each page keeps a small view state in `useState` hooks: the fetched entity or entities, a
`loading` flag and an `errorMsg`. The subject page also keeps a `toolsByCourse` dictionary.
An effect runs `load`, a fixed sequence of queries. After each `await` it checks a per-run
`mounted` flag, which the effect's cleanup sets to false. It then writes the state
according to whether that query succeeded. Pure derivations then decide what is shown.

Modules:

- `Outcomes` (`outcomes.dfy`): what a settled query is (`Res<T> = Ok(data) | Err(msg)`).
  It also defines when the cleanup ran (`Cancel`) and the `?? []` and `?? 0` defaults.
- `RouteParams` (`route_params.dfy`): `param?.trim() ?? ""`, with ECMAScript's trim
  character set (WhiteSpace and LineTerminator).
- `ToolSort` (`tool_sort.dfy`): `rows.sort(by sort_order ?? 0).map(r => r.tool)`.
  `Array.prototype.sort` must be stable (ECMA-262, 2019 and later), so the sort is modelled
  as a stable insertion sort. Its results are proved sorted, a permutation and stable, and
  proved to be the only ordering with those three properties.
- `SubjectDetail`, `CourseDetail`, `AcademicWork` (`subject_page.dfy`, `course_page.dfy`,
  `academic_work_page.dfy`): one class per page.
  - The class fields are the page's React state.
  - `Load` takes every query outcome as a parameter, plus a `Cancel` value naming the await
    during which `mounted` became false. It performs the same ordered writes as the source,
    and its postcondition gives the whole new state for every way a run can end.
  - The boolean functions `ShowsNotFound`, `ShowsErrorBanner`, `ShowsNoCourses`,
    `ShowsNoAssignments` and `ShowsEmptyState`, and the function `NotFoundDetail`, are the
    render conditions.
    `Load`'s contracts use them. They read `errorMsg` with JavaScript truthiness
    (`Truthy`): an empty message is falsy, exactly as it is for `null`.

Query outcomes are inputs, not modelled code. A single-row query (`.single()`) that
succeeds is modelled as `Ok(row)`, because `.single()` reports zero or several rows as an
error. A list query is `Ok(Option<seq<row>>)`, so a null `data` is modelled. The per-course
tool queries are a function from course id to outcome.

## Model

| member | source | states |
|---|---|---|
| `RouteParams.Trim` | src/app/pages/SubjectPage.tsx:54 | `trim()` returns the slice of the input between the leading and the trailing trim-space. It is empty exactly when the input is all trim-space, and otherwise starts and ends with non-space. |
| `RouteParams.SafeId` | src/app/pages/CoursePage.tsx:45 | `param?.trim() ?? ""` is `""` exactly when the parameter is missing or only whitespace; otherwise it is the trimmed parameter. |
| `ToolSort.SortByKey` | src/app/pages/SubjectPage.tsx:116-117 | The sorted rows are non-decreasing in `sort_order ?? 0`, a permutation of the input and of the same length. |
| `ToolSort.SortByKeyIsStable` | src/app/pages/SubjectPage.tsx:117 | For every key, the rows with that key keep their input order (stability). |
| `ToolSort.StableSortIsUnique` | src/app/pages/SubjectPage.tsx:117 | Any sequence that is sorted by key and keeps every key's rows in input order equals `SortByKey` of the input. So the model fixes what any conforming `Array.prototype.sort` returns. |
| `ToolSort.ToolLabels` | src/app/pages/SubjectPage.tsx:116-118 | One label per row (the length equals the number of rows), the i-th being the tool of the i-th row in sorted order. |
| `SubjectDetail.ToolsEntry` | src/app/pages/SubjectPage.tsx:107-118 | A failed tool query gives `[]`. A successful one gives one label per row of `data ?? []`, in sorted order. |
| `SubjectDetail.CollectTools` | src/app/pages/SubjectPage.tsx:103-120 | The tool map has exactly the course ids as keys. Each course's entry is computed from that course's own query alone, so one course's failure leaves every other entry unchanged. |
| `SubjectDetail.ShownTools` | src/app/pages/SubjectPage.tsx:183-221 | A card shows the first `min(3, n)` labels of `toolsByCourse[id] ?? []`. It shows "Not listed yet" exactly when that list is empty. |
| `SubjectDetail.AssignmentLineOf` | src/app/pages/SubjectPage.tsx:184-201 | The count is `assignment_count ?? 0`. The noun is "assignment" exactly when the column holds 1, and "assignments" otherwise (a null column reads "0 assignments"). |
| `SubjectDetail.SubjectPage.ShowsNotFound` | src/app/pages/SubjectPage.tsx:135 | "Subject Not Found" shows only once loading is over, and then exactly when the id is blank or no subject is stored. So after loading, a non-blank id with no stored subject is not found, and a stored subject under a non-blank id never is, whatever the error. |
| `SubjectDetail.SubjectPage.NotFoundDetail` | src/app/pages/SubjectPage.tsx:139-141 | The not-found panel carries a message line exactly when the panel shows and `errorMsg` is truthy (non-null and non-empty). The line is that message. |
| `SubjectDetail.SubjectPage.ShowsErrorBanner` | src/app/pages/SubjectPage.tsx:161-165 | The "Failed to load content" banner belongs to the detail view. It never shows beside the not-found panel, and in the detail view it shows exactly when `errorMsg` is truthy. |
| `SubjectDetail.SubjectPage.ShowsNoCourses` | src/app/pages/SubjectPage.tsx:236-240 | "No courses found" shows only in the detail view, after loading, with no courses, and never beside the error banner. When those three hold, it shows exactly when the banner does not. |
| `SubjectDetail.SubjectPage.constructor` | src/app/pages/SubjectPage.tsx:46-52 | Initial state: no subject, no courses, empty tool map, `loading`, no error. |
| `SubjectDetail.SubjectPage.Load` | src/app/pages/SubjectPage.tsx:56-132 | The whole new state for each way a run ends. A blank id resets the entities, clears `loading` and leaves `errorMsg`. Each unmount point keeps only the writes made before it. A subject failure sets the message and keeps subject, courses and tools. It shows not-found exactly when no subject was stored before, with the message line only for a non-empty message. Otherwise the banner shows exactly for a non-empty message, and "No courses" exactly for an empty message over an empty course list. A course failure keeps the stored subject, courses and tools: the banner shows for a non-empty message and "No courses" for an empty one over no courses. Full success sets a tool entry for every course and shows neither not-found nor the banner. "No courses" shows exactly when the list is empty. |
| `SubjectDetail.TwoCourseScenario` | src/app/pages/SubjectPage.tsx:105-118 | Course A's tools Python (order 2) and R (order 1) display as R, Python; course B's failed tool query displays "Not listed yet". |
| `SubjectDetail.StaleSubjectScenario` | src/app/pages/SubjectPage.tsx:80-84 | After a successful load, a failed subject query for a new id keeps the previous subject, and the page is not in the not-found state. |
| `CourseDetail.BackTarget` | src/app/pages/CoursePage.tsx:143-147 | The button goes to `/subject/<id>` when the parent's id is non-empty, and to `/academic-work` exactly when there is no parent or its id is empty. |
| `CourseDetail.BackLabel` | src/app/pages/CoursePage.tsx:152 | The label is "Back to " followed by the parent's name, or "Back to Subjects" when there is no parent. |
| `CourseDetail.CoursePage.ShowsNotFound` | src/app/pages/CoursePage.tsx:124 | "Course Not Found" shows only once loading is over, and then exactly when no course is stored. A stored course is never not-found. |
| `CourseDetail.CoursePage.NotFoundDetail` | src/app/pages/CoursePage.tsx:128-130 | The not-found panel carries a message line exactly when the panel shows and `errorMsg` is truthy. The line is that message. |
| `CourseDetail.CoursePage.ShowsErrorBanner` | src/app/pages/CoursePage.tsx:156-160 | The "Failed to load content" banner belongs to the detail view. It never shows beside the not-found panel, and in the detail view it shows exactly when `errorMsg` is truthy. |
| `CourseDetail.CoursePage.ShowsNoAssignments` | src/app/pages/CoursePage.tsx:174-181 | The "No assignments available" card shows only in the detail view once loading is over, and then exactly when the assignment list is empty. |
| `CourseDetail.CoursePage.constructor` | src/app/pages/CoursePage.tsx:47-51 | Initial state: no course, no parent, no assignments, `loading`, no error. |
| `CourseDetail.CoursePage.Load` | src/app/pages/CoursePage.tsx:53-121 | The whole new state for each way a run ends. A blank id resets the entities. A course failure clears course, parent and assignments and the page is not found, with the message line exactly when the message is non-empty. A parent failure substitutes `{id: subject_id, name: "Subject"}` ("Back to Subject") and is not fatal. An assignment failure keeps the course, so the page is found. It shows the "No assignments" card, and the banner exactly when the message is non-empty. Full success stores `data ?? []` with `errorMsg` still null and no banner, and shows the "No assignments" card exactly when that list is empty. No writes happen after an unmount point. |
| `CourseDetail.MissingCourseScenario` | src/app/pages/CoursePage.tsx:124-130 | A course id with no row shows "Course Not Found". The query's own message appears under it when that message is non-empty, and no message line appears when it is empty. |
| `AcademicWork.CourseLineOf` | src/app/pages/AcademicWorkPage.tsx:74-91 | The count is `course_count ?? 0`. The noun is "course" exactly when the column holds 1, and "courses" otherwise. |
| `AcademicWork.AcademicWorkPage.ShowsErrorBanner` | src/app/pages/AcademicWorkPage.tsx:63-67 | The "Failed to load subjects" banner shows exactly when `errorMsg` is non-null and non-empty. |
| `AcademicWork.AcademicWorkPage.ShowsEmptyState` | src/app/pages/AcademicWorkPage.tsx:102-106 | "No subjects found" shows only after loading, with no subjects, and never beside the banner. When those hold, it shows exactly when the banner does not. |
| `AcademicWork.EmptyMessageScenario` | src/app/pages/AcademicWorkPage.tsx:37-42 | A failed query whose message is `""` hides the banner and shows "No subjects found". |
| `AcademicWork.AcademicWorkPage.constructor` | src/app/pages/AcademicWorkPage.tsx:22-24 | Initial state: no subjects, `loading`, no error. |
| `AcademicWork.AcademicWorkPage.Load` | src/app/pages/AcademicWorkPage.tsx:26-52 | Unmounted before the query settles: only `loading := true` and `errorMsg := null` happened. On error: the message is set, `subjects := []` and nothing is loading. The banner shows exactly when the message is non-empty, and the empty-state message exactly when it is empty. On success: `subjects == data ?? []` and `errorMsg` is null. The empty state shows exactly when that list is empty. |

## Stale state on navigation

The pages neither clear nor mark the previous entity's state when the identifier changes.
On a new subject id, a failed subject query leaves the previous `subject`, `courses` and
`toolsByCourse` in place. So the page shows the old subject instead of "Subject Not Found"
(`StaleSubjectScenario`), under an error banner when the message is non-empty. With an empty
message no banner shows, and "No courses found" shows when the old course list was empty. Cancellation uses one boolean `mounted`
per effect run, with no generation counter. The blank-id branches of the subject and course
pages do not reset `errorMsg`.

## Left out

- The query helpers and the Supabase client: every query is an input outcome. The helpers
  `fetchCoursesBySubject`, `fetchCourseTools`, `fetchCourseById` and
  `fetchAssignmentsByCourse` are not part of this model. The `is_visible` filter and the
  server-side `sort_order` ordering happen in the database and are not modelled.
- `Promise.all` concurrency: the per-course tool queries are a sequential loop. Tools are
  given as a function of the course id, so two courses with one id get the same entry, and
  no interleaving that could make them differ is modelled.
- React scheduling: each state write is a field assignment. Batching of renders and the
  moment the cleanup is scheduled are abstracted into the `Cancel` parameter.
- JavaScript numbers are modelled as integers (`sort_order`, `assignment_count`,
  `course_count`), so fractional values and NaN in the comparator are not covered.
- JSX markup, class names, icons, the emoji fallback, the "Loading…" text and the
  `disabled={loading}` attribute of the back button are not modelled.
- The route table, theme provider and background toggle of `src/app/App.tsx`.
- The "Back to Academic Work" button of the course page's not-found panel
  (src/app/pages/CoursePage.tsx:131-133) has a fixed target and is not modelled.
- `fetchCourseById` is not part of this model. Its success is assumed to always carry a row,
  so a missing course is an error, as with `.single()`. If it could succeed with `data: null`,
  the source would store no course and then fail reading `c.subject_id`, leaving `loading`
  true; that path is not modelled.
