/** The quiz creation form: the cascading grade → subject → chapter → outcome
    selection, the lists fetched for each level, and the generation gate. */
module Compose {
  import opened Wrappers
  import opened JsNumber
  import opened JsArray
  import opened Api
  import opened QuizData

  /** The option that asks for a number of questions per selected outcome. */
  const PerEloOption := "elo"
  const QuestionsPerElo := 3

  /** The values of the question-count select, in display order. */
  const QuestionCountOptions: seq<string> := ["5", "10", "12", PerEloOption]

  /** A request to the taxonomy service started by a selection effect; each id is
      `parseInt` of the selected value (None is NaN). The response comes back later
      through the matching `...Fetched` method of the form. */
  datatype Fetch =
    | FetchClasses
    | FetchSubjects(classId: Option<int>)
    | FetchChapters(classId: Option<int>, subjectId: Option<int>)
    | FetchElos(chapterId: Option<int>)

  /** The form fields the generation handler reads. */
  datatype FormValues = FormValues(
    quizName: string,
    classes: seq<ClassData>, subjects: seq<SubjectData>, chapters: seq<ChapterData>,
    grade: string, subject: string, chapter: string,
    selectedElos: seq<string>, questionCount: string)

  /** What a click on Generate sends, together with the values its closure keeps for
      building the quiz once the response arrives. */
  datatype Submission = Submission(
    request: GenerateQuizRequest, quizName: string,
    grade: Option<string>, subject: Option<string>, chapter: Option<string>)

  /** `xs.find(x => id(x).toString() === selected)?.name`. */
  function LookupName<T>(xs: seq<T>, id: T -> int, name: T -> string, selected: string): (r: Option<string>)
    ensures r.None? <==> forall j :: 0 <= j < |xs| ==> IdText(id(xs[j])) != selected
    ensures r.Some? ==>
      exists k :: 0 <= k < |xs| && r.value == name(xs[k]) && IdText(id(xs[k])) == selected &&
                  (forall j :: 0 <= j < k ==> IdText(id(xs[j])) != selected)
  {
    match Find(xs, x => IdText(id(x)) == selected)
    case None => None
    case Some(x) => Some(name(x))
  }

  predicate DistinctIds<T>(xs: seq<T>, id: T -> int) {
    forall i, j :: 0 <= i < j < |xs| ==> id(xs[i]) != id(xs[j])
  }

  /** When the ids of a fetched list are distinct, looking up the value of the item the
      user picked gives that item's name. */
  lemma LookupFindsSelected<T>(xs: seq<T>, id: T -> int, name: T -> string, k: nat)
    requires k < |xs| && DistinctIds(xs, id)
    ensures LookupName(xs, id, name, IdText(id(xs[k]))) == Some(name(xs[k]))
  {
    var selected := IdText(id(xs[k]));
    var r := LookupName(xs, id, name, selected);
    assert r.Some?;
    var m :| 0 <= m < |xs| && r.value == name(xs[m]) && IdText(id(xs[m])) == selected;
    IdTextInjective(id(xs[m]), id(xs[k]));
  }

  function GradeName(v: FormValues): Option<string> {
    LookupName(v.classes, (c: ClassData) => c.classId, (c: ClassData) => c.className, v.grade)
  }

  function SubjectName(v: FormValues): Option<string> {
    LookupName(v.subjects, (s: SubjectData) => s.subjectId, (s: SubjectData) => s.subjectName, v.subject)
  }

  function ChapterName(v: FormValues): Option<string> {
    LookupName(v.chapters, (c: ChapterData) => c.chapterId, (c: ChapterData) => c.chapterName, v.chapter)
  }

  /** The number of questions requested: three per selected outcome for the `elo`
      option, otherwise `parseInt` of the option, which is the number it shows. */
  function FinalQuestionCount(option: string, eloCount: nat): (n: int)
    requires option in QuestionCountOptions
    ensures option == PerEloOption ==> n == QuestionsPerElo * eloCount
    ensures option != PerEloOption ==> n in {5, 10, 12} && IdText(n) == option
  {
    if option == PerEloOption then eloCount * QuestionsPerElo
    else
      assert IdText(5) == "5" && IdText(10) == "10" && IdText(12) == "12";
      IdTextRoundTrip(5);
      IdTextRoundTrip(10);
      IdTextRoundTrip(12);
      ParseInt(option).value
  }

  /** The "Questions" line of the summary panel. */
  function SummaryQuestions(option: string, eloCount: nat): string {
    (if option == PerEloOption then IdText(eloCount * QuestionsPerElo) else option) + " questions"
  }

  /** The summary panel announces the very number the request will carry. */
  lemma SummaryShowsRequestedCount(option: string, eloCount: nat)
    requires option in QuestionCountOptions
    ensures SummaryQuestions(option, eloCount) == IdText(FinalQuestionCount(option, eloCount)) + " questions"
  {
  }

  /** The guard at the top of the generation handler. */
  predicate Complete(v: FormValues) {
    !(v.quizName == "" || v.grade == "" || v.subject == "" || v.chapter == "" ||
      |v.selectedElos| == 0 || v.questionCount == "")
  }

  /** The generation handler up to its `await`: nothing when a field is missing, else
      the request built from the looked-up names ('' when not found), the selected
      outcomes in order and the derived count. */
  function Prepare(v: FormValues): (r: Option<Submission>)
    requires v.questionCount == "" || v.questionCount in QuestionCountOptions
    ensures r.None? <==>
      v.quizName == "" || v.grade == "" || v.subject == "" || v.chapter == "" ||
      v.selectedElos == [] || v.questionCount == ""
    ensures r.Some? ==> r.value.quizName == v.quizName && r.value.request.selectedElos == v.selectedElos
    ensures r.Some? ==> r.value.request.questionCount == FinalQuestionCount(v.questionCount, |v.selectedElos|)
    ensures r.Some? ==>
      r.value.grade == GradeName(v) && r.value.subject == SubjectName(v) && r.value.chapter == ChapterName(v)
    ensures r.Some? ==>
      r.value.request.grade == GradeName(v).GetOr("") &&
      r.value.request.subject == SubjectName(v).GetOr("") &&
      r.value.request.chapter == ChapterName(v).GetOr("")
  {
    if !Complete(v) then None
    else
      var grade, subject, chapter := GradeName(v), SubjectName(v), ChapterName(v);
      var request := GenerateQuizRequest(
        grade.GetOr(""), subject.GetOr(""), chapter.GetOr(""),
        FinalQuestionCount(v.questionCount, |v.selectedElos|), v.selectedElos);
      Some(Submission(request, v.quizName, grade, subject, chapter))
  }

  /** The `disabled` expression of the Generate button: exactly when a request is in
      flight or the handler would refuse. */
  function GenerateDisabled(isLoading: bool, v: FormValues): (disabled: bool)
    requires v.questionCount == "" || v.questionCount in QuestionCountOptions
    ensures disabled <==> isLoading || Prepare(v).None?
  {
    isLoading || v.quizName == "" || v.grade == "" || v.subject == "" || v.chapter == "" ||
    |v.selectedElos| == 0 || v.questionCount == ""
  }

  /** The state of one mounted form. Each method is an event handler together with the
      effects React runs after it; an effect runs only when its dependency changed. */
  class CreateQuizForm {
    var quizName: string
    var classes: seq<ClassData>
    var subjects: seq<SubjectData>
    var chapters: seq<ChapterData>
    var elos: seq<EloData>
    var selectedGrade: string
    var selectedSubject: string
    var selectedChapter: string
    var selectedElos: seq<string>
    var questionCount: string
    var isLoading: bool

    /** The question count is empty or one of the select's values. */
    ghost predicate Valid()
      reads this
    {
      questionCount == "" || questionCount in QuestionCountOptions
    }

    /** Every field at its initial value. */
    predicate IsFresh()
      reads this
    {
      quizName == "" && classes == [] && subjects == [] && chapters == [] && elos == [] &&
      selectedGrade == "" && selectedSubject == "" && selectedChapter == "" &&
      selectedElos == [] && questionCount == "" && !isLoading
    }

    function Values(): FormValues
      reads this
    {
      FormValues(quizName, classes, subjects, chapters, selectedGrade, selectedSubject,
                 selectedChapter, selectedElos, questionCount)
    }

    /** Mounting the form: every field at its `useState` initial value. */
    constructor ()
      ensures Valid() && IsFresh()
    {
      quizName, questionCount := "", "";
      classes, subjects, chapters, elos := [], [], [], [];
      selectedGrade, selectedSubject, selectedChapter := "", "", "";
      selectedElos := [];
      isLoading := false;
    }

    /** The effects React runs right after mounting: the one without dependencies requests
        the grade list, whose outcome arrives through ClassesFetched; the three selection
        effects find nothing selected and do nothing. */
    method MountEffects() returns (fetch: Fetch)
      requires IsFresh()
      ensures fetch == FetchClasses
    {
      fetch := FetchClasses;
    }

    method SetQuizName(name: string)
      modifies this`quizName
      ensures quizName == name
    {
      quizName := name;
    }

    method SetQuestionCount(option: string)
      requires option in QuestionCountOptions
      modifies this`questionCount
      ensures questionCount == option && Valid()
    {
      questionCount := option;
    }

    /** Choosing a grade. A new non-empty grade starts the subject request and clears
        the subject and chapter choices and the three lists below; the quiz name, the
        count and the selected outcomes are outside the frame and stay as they are. */
    method SelectGrade(value: string) returns (fetch: Option<Fetch>)
      modifies this`selectedGrade, this`selectedSubject, this`selectedChapter,
               this`subjects, this`chapters, this`elos
      ensures selectedGrade == value
      ensures fetch.Some? <==> value != old(selectedGrade) && value != ""
      ensures fetch.Some? ==>
        fetch.value == FetchSubjects(ParseInt(value)) &&
        selectedSubject == "" && selectedChapter == "" && subjects == [] && chapters == [] && elos == []
      ensures fetch.None? ==>
        selectedSubject == old(selectedSubject) && selectedChapter == old(selectedChapter) &&
        subjects == old(subjects) && chapters == old(chapters) && elos == old(elos)
    {
      fetch := None;
      if value != selectedGrade {
        selectedGrade := value;
        if value != "" {
          fetch := Some(FetchSubjects(ParseInt(value)));
          selectedSubject, selectedChapter := "", "";
          subjects, chapters, elos := [], [], [];
        }
      }
    }

    /** Choosing a subject. A new non-empty subject under a chosen grade starts the
        chapter request and clears the chapter choice and the chapter and outcome lists;
        the grade, the subject list and the selected outcomes stay. */
    method SelectSubject(value: string) returns (fetch: Option<Fetch>)
      modifies this`selectedSubject, this`selectedChapter, this`chapters, this`elos
      ensures selectedSubject == value
      ensures fetch.Some? <==> value != old(selectedSubject) && value != "" && selectedGrade != ""
      ensures fetch.Some? ==>
        fetch.value == FetchChapters(ParseInt(selectedGrade), ParseInt(value)) &&
        selectedChapter == "" && chapters == [] && elos == []
      ensures fetch.None? ==>
        selectedChapter == old(selectedChapter) && chapters == old(chapters) && elos == old(elos)
    {
      fetch := None;
      if value != selectedSubject {
        selectedSubject := value;
        if selectedGrade != "" && value != "" {
          fetch := Some(FetchChapters(ParseInt(selectedGrade), ParseInt(value)));
          selectedChapter := "";
          chapters, elos := [], [];
        }
      }
    }

    /** Choosing a chapter changes nothing else: a new non-empty chapter only starts the
        outcome request, and the outcome list stays until that request completes. */
    method SelectChapter(value: string) returns (fetch: Option<Fetch>)
      modifies this`selectedChapter
      ensures selectedChapter == value
      ensures fetch.Some? <==> value != old(selectedChapter) && value != ""
      ensures fetch.Some? ==> fetch.value == FetchElos(ParseInt(value))
    {
      fetch := None;
      if value != selectedChapter {
        selectedChapter := value;
        if value != "" {
          fetch := Some(FetchElos(ParseInt(value)));
        }
      }
    }

    /** Completion of the grade request: a success replaces the list whatever was
        selected meanwhile; a failure only raises a notice. */
    method ClassesFetched(result: Result<seq<ClassData>>)
      modifies this`classes
      ensures classes == if result.Success? then result.value else old(classes)
    {
      if result.Success? {
        classes := result.value;
      }
    }

    method SubjectsFetched(result: Result<seq<SubjectData>>)
      modifies this`subjects
      ensures subjects == if result.Success? then result.value else old(subjects)
    {
      if result.Success? {
        subjects := result.value;
      }
    }

    method ChaptersFetched(result: Result<seq<ChapterData>>)
      modifies this`chapters
      ensures chapters == if result.Success? then result.value else old(chapters)
    {
      if result.Success? {
        chapters := result.value;
      }
    }

    method ElosFetched(result: Result<EloResponse>)
      modifies this`elos
      ensures elos == if result.Success? then result.value.eloDetails else old(elos)
    {
      if result.Success? {
        elos := result.value.eloDetails;
      }
    }

    /** The outcome checkbox handler: checking appends, unchecking filters out every
        occurrence of the text. */
    method ChangeElo(elo: string, checked: bool)
      modifies this`selectedElos
      ensures selectedElos == if checked then old(selectedElos) + [elo] else Without(old(selectedElos), elo)
    {
      if checked {
        selectedElos := selectedElos + [elo];
      } else {
        selectedElos := Without(selectedElos, elo);
      }
    }

    /** A click on an outcome's checkbox: it shows `selectedELOs.includes(elo)` and
        reports the opposite state, so a check never duplicates an entry. */
    method ClickElo(elo: string)
      modifies this`selectedElos
      ensures selectedElos == if elo in old(selectedElos) then Without(old(selectedElos), elo)
                              else old(selectedElos) + [elo]
      ensures NoDuplicates(old(selectedElos)) ==> NoDuplicates(selectedElos)
    {
      ghost var before := selectedElos;
      ChangeElo(elo, elo !in selectedElos);
      if NoDuplicates(before) {
        if elo in before {
          WithoutKeepsNoDuplicates(before, elo);
        } else {
          AppendKeepsNoDuplicates(before, elo);
        }
      }
    }

    /** The generation handler up to its `await`: when the form is complete it raises
        the loading flag and sends the request, else it changes nothing. */
    method BeginGenerate() returns (submission: Option<Submission>)
      requires Valid()
      modifies this`isLoading
      ensures submission == Prepare(Values())
      ensures submission.Some? <==> Complete(Values())
      ensures isLoading == (submission.Some? || old(isLoading))
    {
      submission := Prepare(Values());
      if submission.Some? {
        isLoading := true;
      }
    }

    /** The rest of the handler, once the service answered: on success the quiz handed to
        the callback (the name and the names kept at the click, the questions exactly
        as received), on failure nothing; the loading flag drops either way. */
    method FinishGenerate(submission: Submission, response: Result<QuizResponse>) returns (quiz: Option<Quiz>)
      modifies this`isLoading
      ensures !isLoading
      ensures quiz.Some? <==> response.Success?
      ensures quiz.Some? ==>
        quiz.value == Quiz(submission.quizName, submission.grade, submission.subject,
                           submission.chapter, response.value.questions)
    {
      quiz := None;
      if response.Success? {
        quiz := Some(Quiz(submission.quizName, submission.grade, submission.subject,
                          submission.chapter, response.value.questions));
      }
      isLoading := false;
    }

    /** Whether the Generate button is disabled now. */
    function ButtonDisabled(): (disabled: bool)
      reads this
      requires Valid()
      ensures disabled <==> isLoading || !Complete(Values())
    {
      GenerateDisabled(isLoading, Values())
    }
  }
}
