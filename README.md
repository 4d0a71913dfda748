# Quiz composition workflow, modelled in Dafny

This project models the quiz-composition flow of a React quiz generator.

- **CreateQuizForm.** A four-level cascading selection: grade, then subject, then chapter, then learning outcomes (ELOs). Picking an upper level clears the levels below and fetches fresh lists. ELO checkboxes keep an ordered list of selected outcome texts. The generate handler checks that the form is complete, works out the question count, builds a request from names looked up by id, and on success hands a quiz record to its caller.
- **QuizDashboard.** A view-state machine over `dashboard`, `create`, `preview` and `edit`. It carries the current quiz and picks which screen to render.
- **QuizPreview.** Pure projections of a quiz: a teacher view and a student view, each with lettered options. The teacher view has a case-insensitive difficulty colour and highlights the correct answer. The preview also has a student/teacher switch.

## Files

| file | module | models |
|---|---|---|
| wrappers.dfy | `Wrappers` | `Option` (`undefined`/NaN as `None`) and `Result` (outcome of a remote call) |
| js_number.dfy | `JsNumber` | `n.toString()` of integer ids (`IdText`) and `parseInt` (`ParseInt`) |
| js_array.dfy | `JsArray` | `Array.prototype.find` and `filter(item => item !== x)` |
| js_string.dfy | `JsString` | ASCII `toLowerCase` |
| api.dfy | `Api` | the interfaces of `src/lib/api.ts` as datatypes |
| quiz_data.dfy | `QuizData` | the quiz record passed between the three components |
| compose.dfy | `Compose` | `CreateQuizForm` as a class, plus the pure count, gate and request builder |
| dashboard.dfy | `Dashboard` | `QuizDashboard` as a class, plus the screen selection and the transition table |
| preview.dfy | `Preview` | `QuizPreview`: the difficulty colours, both projections and the view switch |
| scenarios.dfy | `Scenarios` | client methods that drive whole sessions and check what the contracts say |

How the model handles state and I/O:

- **Modelled as methods.** Every state field of the three components is a class field. Every handler is a method whose `modifies` clause names, field by field, the fields it may write. A React effect is folded into the method of the handler whose change triggers it. The effects a form runs on mount are `Compose.CreateQuizForm.MountEffects`. Effects only run when their dependency value changes, so re-selecting the current value is a no-op.
- **Passed in as parameters.** Remote calls are never made. A selection method returns the `Fetch` it starts. The response comes back later as the argument of a separate `...Fetched` method, which overwrites its list unconditionally on success and changes nothing on failure.
- **Split at the `await`.** `handleGenerateQuiz` becomes `BeginGenerate` and `FinishGenerate`. `BeginGenerate` runs the gate, raises `isLoading` and returns a `Submission`. A `Submission` is the request plus the values the handler's closure keeps. `FinishGenerate` takes the service's answer, lowers `isLoading`, and returns the quiz for the callback, or nothing on failure.

Behaviours of the code that the model keeps, although a cleaner design might do otherwise:

- **No stale-response guard.** A late response for a grade the user already left still replaces the list. `Scenarios.StaleSubjectsArriveLate` shows this. Likewise a pending generation calls the dashboard's callback on whatever screen is shown when it completes, even after the back link (`Scenarios.LateResponseAfterBackLink`).
- **`selectedELOs` survives upstream changes.** Changing the grade or subject does not clear it (`Scenarios.OutcomesSurviveGradeChange`).
- **A chapter change clears nothing.**
- **`handleBackToCreate` keeps the quiz.**
- **`edit` has no screen of its own.** It renders the dashboard.
- **The gate also needs a quiz name.**
- **Unfound names differ.** The request uses `''` for a name whose id is not found. The quiz record uses `undefined` (`None` here).
- **Correct answers are not checked.** Nothing makes `correctAnswer` one of the options. `Preview.HighlightedCountsAnswer` states what is displayed in every case.

## Model

| member | source | states |
|---|---|---|
| `JsNumber.IdText` | src/components/quiz/CreateQuizForm.tsx:214-218 | the value of a select item is the id's decimal text, with a leading `-` exactly for negative ids |
| `JsNumber.IdTextRoundTrip` | src/components/quiz/CreateQuizForm.tsx:43-67 | `parseInt` of a select value gives back the id it was rendered from, so each fetch is issued for the chosen id |
| `JsNumber.IdTextInjective` | src/components/quiz/CreateQuizForm.tsx:142-144 | distinct ids have distinct texts, so comparing `id.toString()` with the selection identifies one id |
| `JsNumber.LeadingDigits` | src/components/quiz/CreateQuizForm.tsx:146 | the digit prefix `parseInt` reads is the longest run of digits, ending just before the first non-digit |
| `JsNumber.ParseInt` | src/components/quiz/CreateQuizForm.tsx:43-67 | `parseInt` is NaN iff no digit follows the optional sign; otherwise it is the signed value of the leading digits, negative only after a `-` |
| `JsArray.FindIndex` | src/components/quiz/CreateQuizForm.tsx:142-144 | the index found satisfies the predicate and no earlier element does; -1 means none does |
| `JsArray.Find` | src/components/quiz/CreateQuizForm.tsx:142-144 | `find` returns `undefined` iff no element matches, otherwise the first matching element |
| `JsArray.Without` | src/components/quiz/CreateQuizForm.tsx:125 | unchecking removes every occurrence of the outcome and keeps the count of every other text |
| `JsArray.WithoutAppend` | src/components/quiz/CreateQuizForm.tsx:125 | filtering works element by element, so the remaining outcomes keep their order |
| `JsArray.WithoutAbsent` | src/components/quiz/CreateQuizForm.tsx:125 | unchecking an outcome that is not selected leaves the list unchanged |
| `JsArray.AppendThenWithout` | src/components/quiz/CreateQuizForm.tsx:121-127 | checking an absent outcome and then unchecking it restores the list exactly |
| `JsArray.AppendKeepsNoDuplicates` | src/components/quiz/CreateQuizForm.tsx:123 | appending an absent outcome keeps the list duplicate-free |
| `JsArray.WithoutKeepsNoDuplicates` | src/components/quiz/CreateQuizForm.tsx:125 | filtering keeps a duplicate-free list duplicate-free |
| `JsString.Lower` | src/components/quiz/QuizPreview.tsx:46 | lower-casing maps each ASCII capital to its small letter and keeps every other character and the length |
| `JsString.LowerIdempotent` | src/components/quiz/QuizPreview.tsx:46 | lower-casing twice is lower-casing once |
| `Compose.LookupName` | src/components/quiz/CreateQuizForm.tsx:142-151 | the looked-up name is `undefined` iff no item's id text equals the selection, else the name of the first such item |
| `Compose.LookupFindsSelected` | src/components/quiz/CreateQuizForm.tsx:142-144 | with distinct ids, looking up the value of a listed item yields that item's name |
| `Compose.FinalQuestionCount` | src/components/quiz/CreateQuizForm.tsx:146 | `elo` asks for 3 questions per selected outcome; any other option asks for 5, 10 or 12, the number its text shows |
| `Compose.SummaryShowsRequestedCount` | src/components/quiz/CreateQuizForm.tsx:341-347 | the summary panel's "Questions" line shows the number the request will carry |
| `Compose.Prepare` | src/components/quiz/CreateQuizForm.tsx:130-154 | no request iff the quiz name, grade, subject, chapter, outcome list or count option is empty; otherwise the request has the looked-up names (`''` when not found), the outcomes in order and the derived count |
| `Compose.GenerateDisabled` | src/components/quiz/CreateQuizForm.tsx:356 | the button is disabled iff a request is in flight or the handler's gate would refuse |
| `Compose.CreateQuizForm.constructor` | src/components/quiz/CreateQuizForm.tsx:17-29 | a mounted form starts with every selection, name, count and list empty and not loading |
| `Compose.CreateQuizForm.MountEffects` | src/components/quiz/CreateQuizForm.tsx:39-67 | on mount the form requests the grade list and nothing else, since no selection is set |
| `Compose.CreateQuizForm.SetQuizName` | src/components/quiz/CreateQuizForm.tsx:200 | typing a name sets only the quiz name |
| `Compose.CreateQuizForm.SetQuestionCount` | src/components/quiz/CreateQuizForm.tsx:258 | choosing a count option sets only the count option |
| `Compose.CreateQuizForm.SelectGrade` | src/components/quiz/CreateQuizForm.tsx:43-52 | a new non-empty grade fetches its subjects and clears subject, chapter and the subject, chapter and outcome lists; name, count and selected outcomes are untouched; the same grade again does nothing |
| `Compose.CreateQuizForm.SelectSubject` | src/components/quiz/CreateQuizForm.tsx:54-61 | a new non-empty subject under a chosen grade fetches its chapters and clears chapter and the chapter and outcome lists; grade and subject list stay |
| `Compose.CreateQuizForm.SelectChapter` | src/components/quiz/CreateQuizForm.tsx:63-67 | a new non-empty chapter only starts the outcome fetch; no other field changes |
| `Compose.CreateQuizForm.ClassesFetched` | src/components/quiz/CreateQuizForm.tsx:69-80 | a successful grade fetch replaces the grade list; a failure changes nothing |
| `Compose.CreateQuizForm.SubjectsFetched` | src/components/quiz/CreateQuizForm.tsx:82-93 | a successful subject fetch replaces the list whatever is selected now; a failure leaves the list as it was |
| `Compose.CreateQuizForm.ChaptersFetched` | src/components/quiz/CreateQuizForm.tsx:95-106 | a successful chapter fetch replaces the list; a failure changes nothing |
| `Compose.CreateQuizForm.ElosFetched` | src/components/quiz/CreateQuizForm.tsx:108-119 | a successful outcome fetch replaces the list with `elo_details`; a failure changes nothing |
| `Compose.CreateQuizForm.ChangeElo` | src/components/quiz/CreateQuizForm.tsx:121-127 | checking appends the outcome at the end; unchecking filters out every occurrence |
| `Compose.CreateQuizForm.ClickElo` | src/components/quiz/CreateQuizForm.tsx:281-285 | a checkbox click removes a selected outcome or appends an unselected one, so the list stays duplicate-free |
| `Compose.CreateQuizForm.BeginGenerate` | src/components/quiz/CreateQuizForm.tsx:129-156 | the handler sends the prepared request and raises the loading flag iff the form is complete; otherwise nothing changes |
| `Compose.CreateQuizForm.FinishGenerate` | src/components/quiz/CreateQuizForm.tsx:156-180 | on success the callback gets the kept name and looked-up names with the response's questions in order; on failure no quiz; loading is false afterwards |
| `Compose.CreateQuizForm.ButtonDisabled` | src/components/quiz/CreateQuizForm.tsx:356 | the rendered button is disabled iff loading or the form is incomplete |
| `Dashboard.Next` | src/components/quiz/QuizDashboard.tsx:39-56 | `preview` is entered only by the form's callback, `edit` only by Edit, `dashboard` only by the back link; the callback and Edit set the quiz, the back link drops it, the create handlers keep it |
| `Dashboard.Offered` | src/components/quiz/QuizDashboard.tsx:58-111 | the form's callback can arrive on any screen; the create buttons exist only on the dashboard screen, the back link only on the create screen, Back only on a preview, and Edit only with the quiz that preview shows |
| `Dashboard.StepConsistent` | src/components/quiz/QuizDashboard.tsx:39-56 | after any handler, from any state, a preview view has a quiz and a dashboard view has none |
| `Dashboard.ScreenOf` | src/components/quiz/QuizDashboard.tsx:58-96 | the preview screen needs view `preview` and a quiz; `create` has its screen; every other state, `edit` included, shows the dashboard |
| `Dashboard.RunKeepsConsistent` | src/components/quiz/QuizDashboard.tsx:39-56 | for every handler sequence from a consistent state, the preview view always has a quiz and the dashboard view never does, so `preview` always renders the preview; this carries `StepConsistent` along the run |
| `Dashboard.EditKeepsPreviewedQuiz` | src/components/quiz/QuizDashboard.tsx:48-66 | along any run of offered handlers, Edit carries the quiz being previewed, and the edit view keeps it while showing the dashboard screen |
| `Dashboard.QuizDashboard.constructor` | src/components/quiz/QuizDashboard.tsx:36-37 | the dashboard starts in view `dashboard` with no quiz |
| `Dashboard.QuizDashboard.HandleQuizGenerated` | src/components/quiz/QuizDashboard.tsx:39-67 | the generated quiz becomes current, the view becomes `preview` and the preview screen shows that quiz; coming from another screen, a fresh preview is mounted in the teacher view; with a preview already shown, none is mounted |
| `Dashboard.QuizDashboard.HandleBackToCreate` | src/components/quiz/QuizDashboard.tsx:44-46 | the view becomes `create`, the quiz is kept, and a fresh empty form is mounted when another screen was shown |
| `Dashboard.QuizDashboard.HandleEditQuiz` | src/components/quiz/QuizDashboard.tsx:48-51 | the given quiz becomes current, the view becomes `edit`, and the dashboard screen is shown |
| `Dashboard.QuizDashboard.HandleBackToDashboard` | src/components/quiz/QuizDashboard.tsx:53-56 | the view becomes `dashboard` and the quiz is dropped |
| `Dashboard.QuizDashboard.ClickCreate` | src/components/quiz/QuizDashboard.tsx:108-111 | either create button sets the view to `create` and mounts a fresh empty form |
| `Preview.DifficultyTone` | src/components/quiz/QuizPreview.tsx:45-56 | the lower-cased difficulty `easy` gives green, `medium` gives yellow and `hard` gives red; anything else gives gray |
| `Preview.DifficultyColor` | src/components/quiz/QuizPreview.tsx:44-56 | the badge classes are green, yellow or red for `easy`, `medium` or `hard` in any case, and gray for anything else |
| `Preview.DifficultyIgnoresCase` | src/components/quiz/QuizPreview.tsx:45-56 | a difficulty gets the same badge classes as its lower-case spelling |
| `Preview.OptionLabel` | src/components/quiz/QuizPreview.tsx:229 | option i is labelled with code unit 65+i, the letters A to Z for the first 26 options |
| `Preview.TeacherView` | src/components/quiz/QuizPreview.tsx:126-262 | the heading carries the quiz's name, grade, subject and chapter; questions in order as Q1..Qn, each with its difficulty badge coloured by `DifficultyColor` and its taxonomy, with the header count equal to the number of questions; options in order, lettered from A; an option is highlighted iff it equals the correct answer; the answer line always shows `correctAnswer` |
| `Preview.StudentView` | src/components/quiz/QuizPreview.tsx:68-124 | the heading carries the quiz's name, grade, subject and chapter; every question in order, numbered from 1, with its text and its options in order, lettered from A |
| `Preview.HighlightedCountsAnswer` | src/components/quiz/QuizPreview.tsx:215-231 | the number of highlighted options equals the number of options equal to the correct answer, so none when it matches none |
| `Preview.StudentViewIsStrippedTeacherView` | src/components/quiz/QuizPreview.tsx:93-119 | each student item is its teacher card without answer, highlight, explanation, difficulty and ELO |
| `Preview.StudentViewHidesAnswers` | src/components/quiz/QuizPreview.tsx:93-119 | quizzes differing only in answers, explanations, difficulty, ELO, taxonomy, ids or types show the same student display |
| `Preview.QuizPreview.constructor` | src/components/quiz/QuizPreview.tsx:41-42 | the preview opens in the teacher view on the quiz it is given |
| `Preview.QuizPreview.Render` | src/components/quiz/QuizPreview.tsx:68-126 | the student display is shown iff `isStudentView`, otherwise the teacher view of the same quiz |
| `Preview.QuizPreview.Display` | src/components/quiz/QuizPreview.tsx:156-163 | Display switches to the student view |
| `Preview.QuizPreview.BackToTeacherView` | src/components/quiz/QuizPreview.tsx:72-79 | "Back to Teacher View" switches back; the quiz is outside the frame of both buttons |
| `Preview.QuizPreview.QuizChanged` | src/components/quiz/QuizPreview.tsx:40-41 | re-rendering a mounted preview with another quiz replaces the `quiz` property and keeps the view switch |
| `Preview.QuizPreview.Edit` | src/components/quiz/QuizPreview.tsx:148-155 | Edit hands the same, unmodified quiz to `onEdit` |
| `Scenarios.GenerateOneOutcomeQuiz` | src/components/quiz/CreateQuizForm.tsx:139-166 | for grade 1/Math/Numbers and one outcome with `elo`, the returned request is `{"Grade 1","Math","Numbers",3,["Count to 10"]}` and the quiz carries the questions received |

## Left out

- Network I/O and JSON decoding (`src/lib/api.ts`): each call is an opaque `Result` passed in. The endpoint paths, query strings, `login` and the base URL are not modelled.
- Async timing: each response is a separate method call, in any order the caller chooses. A caller may edit the form between `BeginGenerate` and `FinishGenerate`. Such edits do not reach the quiz: the `Submission` record keeps the click-time values, as the handler's closure does. Only the interleaving of real time is not modelled.
- Toast notifications, the spinner, CSS classes other than the difficulty badges, and the `console.log` save and export stubs (`QuizPreview.tsx:58-66`).
- `QuizPreview`'s `currentQuestion` state: it is declared but never used.
- The `onBack` button of the preview: it only calls `handleBackToCreate`, which is `Dashboard.QuizDashboard.HandleBackToCreate`. Buttons are offered per screen through `Dashboard.Offered`.
- Dashboard.Offered: offers Back and Edit on every preview screen, although the preview shows them only in its teacher view. The runs it allows are a superset of the app's.
- `src/contexts/AuthContext.tsx`, `src/pages/Index.tsx` (the auth gate in front of the dashboard), `src/pages/Report.tsx`, `src/pages/Library.tsx` and `src/components/layout/Header.tsx`. These are storage, static data and presentation.
- JsString.Lower: lower-cases ASCII letters only, not full Unicode `toLowerCase`.
- JsNumber.ParseInt: does not skip leading white space and does not read a `0x` prefix. Neither can occur in select values produced by `IdText`.
- JsNumber.IdText: ids are unbounded integers here, while JavaScript ids are doubles. `toString` agrees with `IdText` only for magnitudes up to 2^53. Above that, JavaScript prints the shortest digits that round-trip the double, for example "1152921504606847000" for 2^60. The exponent form from 1e21 upwards is not modelled either.
- Preview.OptionLabel: gives the UTF-16 code unit that `String.fromCharCode` produces. The character itself is not built.
- Compose.CreateQuizForm.SetQuestionCount: requires one of the four select values, the only values the select can report.
