/** Client methods that drive the form and the dashboard through whole sessions and
    state what a caller can conclude from the contracts alone. */
module Scenarios {
  import opened Wrappers
  import opened JsNumber
  import opened Api
  import opened QuizData
  import opened Compose
  import opened Dashboard
  import opened Preview

  /** The select values of the session below parse back to their ids. */
  lemma SelectedIdsParse()
    ensures ParseInt("1") == Some(1) && ParseInt("2") == Some(2) && ParseInt("3") == Some(3)
  {
    assert IdText(1) == "1" && IdText(2) == "2" && IdText(3) == "3";
    IdTextRoundTrip(1);
    IdTextRoundTrip(2);
    IdTextRoundTrip(3);
  }

  /** Grade 1 / Math / Numbers chosen on a freshly mounted form, each list arriving
      before the next choice. */
  method ChooseScope(form: CreateQuizForm)
    requires form.IsFresh() && form.Valid()
    modifies form
    ensures form.Valid() && form.quizName == "" && form.questionCount == "" && form.selectedElos == []
    ensures form.classes == [ClassData(1, "Grade 1")] && form.subjects == [SubjectData(2, "Math")]
    ensures form.chapters == [ChapterData(3, "Numbers", "N1", 1, 2, None)]
    ensures form.selectedGrade == "1" && form.selectedSubject == "2" && form.selectedChapter == "3"
  {
    var classesRequest := form.MountEffects();
    form.ClassesFetched(Success([ClassData(1, "Grade 1")]));
    var fetch := form.SelectGrade("1");
    form.SubjectsFetched(Success([SubjectData(2, "Math")]));
    fetch := form.SelectSubject("2");
    form.ChaptersFetched(Success([ChapterData(3, "Numbers", "N1", 1, 2, None)]));
    fetch := form.SelectChapter("3");
  }

  /** Then the one outcome "Count to 10", a name, and three questions per outcome. */
  method FillOneOutcomeForm(form: CreateQuizForm)
    requires form.IsFresh() && form.Valid()
    modifies form
    ensures form.Valid()
    ensures form.Values() == FormValues(
      "Numbers", [ClassData(1, "Grade 1")], [SubjectData(2, "Math")],
      [ChapterData(3, "Numbers", "N1", 1, 2, None)], "1", "2", "3", ["Count to 10"], PerEloOption)
  {
    ChooseScope(form);
    form.ElosFetched(Success(EloResponse([EloData("Count to 10", 3)])));
    form.ClickElo("Count to 10");
    assert form.selectedElos == ["Count to 10"];
    form.SetQuizName("Numbers");
    form.SetQuestionCount(PerEloOption);
  }

  /** On that form the request asks for three questions under the looked-up names, and
      the quiz carries the questions exactly as received. */
  method GenerateOneOutcomeQuiz(form: CreateQuizForm, questions: seq<QuizQuestion>)
    returns (request: GenerateQuizRequest, quiz: Quiz)
    requires form.Valid()
    requires form.Values() == FormValues(
      "Numbers", [ClassData(1, "Grade 1")], [SubjectData(2, "Math")],
      [ChapterData(3, "Numbers", "N1", 1, 2, None)], "1", "2", "3", ["Count to 10"], PerEloOption)
    modifies form
    ensures request == GenerateQuizRequest("Grade 1", "Math", "Numbers", 3, ["Count to 10"])
    ensures quiz == Quiz("Numbers", Some("Grade 1"), Some("Math"), Some("Numbers"), questions)
  {
    var v := form.Values();
    assert IdText(1) == "1" && IdText(2) == "2" && IdText(3) == "3";
    LookupFindsSelected(v.classes, (c: ClassData) => c.classId, (c: ClassData) => c.className, 0);
    LookupFindsSelected(v.subjects, (s: SubjectData) => s.subjectId, (s: SubjectData) => s.subjectName, 0);
    LookupFindsSelected(v.chapters, (c: ChapterData) => c.chapterId, (c: ChapterData) => c.chapterName, 0);
    var submission := form.BeginGenerate();
    assert submission.Some? && form.isLoading;
    request := submission.value.request;
    var generated := form.FinishGenerate(submission.value, Success(QuizResponse(questions)));
    assert !form.isLoading;
    quiz := generated.value;
  }

  /** The whole session on the dashboard: create, generate, preview, and back to an
      empty form that still has the quiz behind it. */
  method OneOutcomeSession(questions: seq<QuizQuestion>)
  {
    var dashboard := new QuizDashboard();
    var mounted := dashboard.ClickCreate();
    assert mounted.Some?;
    FillOneOutcomeForm(mounted.value);
    var request, quiz := GenerateOneOutcomeQuiz(mounted.value, questions);
    var preview := dashboard.HandleQuizGenerated(quiz);
    assert dashboard.Screen() == PreviewScreen(quiz);
    assert preview.Some? && preview.value.Render() == Teacher(TeacherView(quiz));
    mounted := dashboard.HandleBackToCreate();
    assert mounted.Some? && mounted.value.IsFresh();
    assert dashboard.currentQuiz == Some(quiz);
  }

  /** A failed generation leaves the selection as it was and hands nothing on. */
  method FailedGeneration(form: CreateQuizForm)
    requires form.Valid()
    modifies form
  {
    var before := form.Values();
    var submission := form.BeginGenerate();
    if submission.Some? {
      var quiz := form.FinishGenerate(submission.value, Failure);
      assert quiz.None? && !form.isLoading;
    }
    assert form.Values() == before;
  }

  /** There is no guard against stale responses: the subjects of a grade the user has
      already left still replace the list when their request completes late. */
  method StaleSubjectsArriveLate(subjectsOfFirstGrade: seq<SubjectData>)
  {
    var form := new CreateQuizForm();
    var classesRequest := form.MountEffects();
    form.ClassesFetched(Success([ClassData(1, "Grade 1"), ClassData(2, "Grade 2")]));
    var first := form.SelectGrade("1");
    var second := form.SelectGrade("2");
    SelectedIdsParse();
    assert first == Some(FetchSubjects(Some(1))) && second == Some(FetchSubjects(Some(2)));
    form.SubjectsFetched(Success(subjectsOfFirstGrade));
    assert form.selectedGrade == "2" && form.subjects == subjectsOfFirstGrade;
  }

  /** Outcomes chosen under one chapter stay selected when the grade changes. */
  method OutcomesSurviveGradeChange()
  {
    var form := new CreateQuizForm();
    var classesRequest := form.MountEffects();
    form.ClassesFetched(Success([ClassData(1, "Grade 1"), ClassData(4, "Grade 4")]));
    var fetch := form.SelectGrade("1");
    form.SubjectsFetched(Success([SubjectData(2, "Math")]));
    fetch := form.SelectSubject("2");
    form.ChaptersFetched(Success([ChapterData(3, "Numbers", "N1", 1, 2, None)]));
    fetch := form.SelectChapter("3");
    form.ElosFetched(Success(EloResponse([EloData("Count to 10", 3)])));
    form.ClickElo("Count to 10");
    fetch := form.SelectGrade("4");
    assert form.selectedChapter == "" && form.elos == [];
    assert form.selectedElos == ["Count to 10"];
  }

  /** The back link stays enabled while a generation is pending: the user returns to the
      dashboard, and the response, when it arrives, still opens the preview. */
  method LateResponseAfterBackLink(questions: seq<QuizQuestion>)
  {
    var dashboard := new QuizDashboard();
    var mounted := dashboard.ClickCreate();
    assert mounted.Some?;
    var form := mounted.value;
    FillOneOutcomeForm(form);
    var submission := form.BeginGenerate();
    assert submission.Some?;
    dashboard.HandleBackToDashboard();
    assert dashboard.Screen() == DashboardScreen;
    var quiz := form.FinishGenerate(submission.value, Success(QuizResponse(questions)));
    assert quiz.Some?;
    var preview := dashboard.HandleQuizGenerated(quiz.value);
    assert preview.Some? && dashboard.Screen() == PreviewScreen(quiz.value);
  }

  /** A second response arriving while the student display is open replaces the quiz of
      the mounted preview, which stays in the student view. */
  method SecondResponseKeepsStudentView(first: Quiz, second: Quiz)
  {
    var dashboard := new QuizDashboard();
    var preview := dashboard.HandleQuizGenerated(first);
    assert preview.Some?;
    var shown := preview.value;
    shown.Display();
    var again := dashboard.HandleQuizGenerated(second);
    assert again.None?;
    shown.QuizChanged(second);
    assert dashboard.Screen() == PreviewScreen(second);
    assert shown.Render() == Student(StudentView(second));
  }
}
