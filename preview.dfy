/** The quiz preview: the teacher view (answers, explanations, difficulty badges), the
    student display (questions and options only) and the switch between them. */
module Preview {
  import opened Wrappers
  import opened JsString
  import opened Api
  import opened QuizData

  /** The colour family of a difficulty badge. */
  datatype Tone = Green | Yellow | Red | Gray

  /** The difficulty is compared case-insensitively with the three known levels. */
  function DifficultyTone(difficulty: string): (t: Tone)
    ensures t == Green <==> Lower(difficulty) == "easy"
    ensures t == Yellow <==> Lower(difficulty) == "medium"
    ensures t == Red <==> Lower(difficulty) == "hard"
    ensures t == Gray <==> Lower(difficulty) !in ["easy", "medium", "hard"]
  {
    match Lower(difficulty)
    case "easy" => Green
    case "medium" => Yellow
    case "hard" => Red
    case _ => Gray
  }

  function ToneClasses(t: Tone): string {
    match t
    case Green => "bg-green-100 text-green-800 border-green-200"
    case Yellow => "bg-yellow-100 text-yellow-800 border-yellow-200"
    case Red => "bg-red-100 text-red-800 border-red-200"
    case Gray => "bg-gray-100 text-gray-800 border-gray-200"
  }

  /** The badge classes of a difficulty. */
  function DifficultyColor(difficulty: string): (classes: string)
    ensures Lower(difficulty) == "easy" ==> classes == "bg-green-100 text-green-800 border-green-200"
    ensures Lower(difficulty) == "medium" ==> classes == "bg-yellow-100 text-yellow-800 border-yellow-200"
    ensures Lower(difficulty) == "hard" ==> classes == "bg-red-100 text-red-800 border-red-200"
    ensures Lower(difficulty) !in ["easy", "medium", "hard"] ==>
      classes == "bg-gray-100 text-gray-800 border-gray-200"
  {
    ToneClasses(DifficultyTone(difficulty))
  }

  /** Spelling a difficulty in any mix of cases gives the badge of its lower-case form. */
  lemma DifficultyIgnoresCase(difficulty: string)
    ensures DifficultyColor(difficulty) == DifficultyColor(Lower(difficulty))
  {
    LowerIdempotent(difficulty);
  }

  /** `String.fromCharCode(65 + i)`: the UTF-16 code unit of an option's letter. */
  function OptionLabel(i: nat): (code: nat)
    ensures code < 0x1_0000
    ensures i < 26 ==> code == 'A' as int + i
  {
    (65 + i) % 0x1_0000
  }

  /** An option as the teacher sees it: its letter, its text, and the highlight. */
  datatype OptionRow = OptionRow(letter: nat, text: string, highlighted: bool)

  /** A question card of the teacher view. */
  datatype TeacherCard = TeacherCard(
    number: nat, text: string, difficulty: string, difficultyClasses: string, taxonomy: string,
    options: seq<OptionRow>, correctAnswer: string, explanation: string, elo: string)

  /** The teacher view: the heading line (with the question count) and one card per question. */
  datatype TeacherPage = TeacherPage(
    name: string, grade: Option<string>, subject: Option<string>, chapter: Option<string>,
    questionCount: nat, cards: seq<TeacherCard>)

  datatype StudentOption = StudentOption(letter: nat, text: string)

  /** A question of the student display, which has no answer, explanation, difficulty or outcome. */
  datatype StudentItem = StudentItem(number: nat, text: string, options: seq<StudentOption>)

  datatype StudentPage = StudentPage(
    name: string, grade: Option<string>, subject: Option<string>, chapter: Option<string>,
    items: seq<StudentItem>)

  function OptionRows(options: seq<string>, correctAnswer: string): seq<OptionRow> {
    seq(|options|, j requires 0 <= j < |options| =>
      OptionRow(OptionLabel(j), options[j], options[j] == correctAnswer))
  }

  function CardFor(index: nat, q: QuizQuestion): TeacherCard {
    TeacherCard(index + 1, q.text, q.difficulty, DifficultyColor(q.difficulty), q.taxonomy,
                OptionRows(q.options, q.correctAnswer), q.correctAnswer, q.explanation, q.elo)
  }

  /** The teacher view keeps the questions and their options in received order, numbers
      the questions from 1, letters the options from A, and highlights exactly the
      options equal to the correct answer. */
  function TeacherView(quiz: Quiz): (page: TeacherPage)
    ensures page.name == quiz.name && page.grade == quiz.grade && page.subject == quiz.subject &&
            page.chapter == quiz.chapter
    ensures page.questionCount == |page.cards| == |quiz.questions|
    ensures forall i :: 0 <= i < |quiz.questions| ==>
      var q, card := quiz.questions[i], page.cards[i];
      card.number == i + 1 && card.text == q.text && card.correctAnswer == q.correctAnswer &&
      card.explanation == q.explanation && card.elo == q.elo && card.taxonomy == q.taxonomy &&
      card.difficulty == q.difficulty && card.difficultyClasses == DifficultyColor(q.difficulty) &&
      |card.options| == |q.options| &&
      forall j :: 0 <= j < |q.options| ==>
        card.options[j].letter == OptionLabel(j) && card.options[j].text == q.options[j] &&
        (card.options[j].highlighted <==> q.options[j] == q.correctAnswer)
  {
    var qs := quiz.questions;
    TeacherPage(quiz.name, quiz.grade, quiz.subject, quiz.chapter, |qs|,
                seq(|qs|, i requires 0 <= i < |qs| => CardFor(i, qs[i])))
  }

  function StudentItemFor(index: nat, q: QuizQuestion): StudentItem {
    StudentItem(index + 1, q.text,
                seq(|q.options|, j requires 0 <= j < |q.options| => StudentOption(OptionLabel(j), q.options[j])))
  }

  /** The student display: every question in order, numbered from 1, with its lettered options. */
  function StudentView(quiz: Quiz): (page: StudentPage)
    ensures page.name == quiz.name && page.grade == quiz.grade && page.subject == quiz.subject &&
            page.chapter == quiz.chapter
    ensures |page.items| == |quiz.questions|
    ensures forall i :: 0 <= i < |quiz.questions| ==>
      var q, item := quiz.questions[i], page.items[i];
      item.number == i + 1 && item.text == q.text && |item.options| == |q.options| &&
      forall j :: 0 <= j < |q.options| ==> item.options[j] == StudentOption(OptionLabel(j), q.options[j])
  {
    var qs := quiz.questions;
    StudentPage(quiz.name, quiz.grade, quiz.subject, quiz.chapter,
                seq(|qs|, i requires 0 <= i < |qs| => StudentItemFor(i, qs[i])))
  }

  /** Number of highlighted options. */
  function Highlighted(rows: seq<OptionRow>): nat {
    if rows == [] then 0
    else Highlighted(rows[..|rows| - 1]) + (if rows[|rows| - 1].highlighted then 1 else 0)
  }

  /** As many options are highlighted as there are options equal to the correct answer:
      one when the answer occurs once, none when it occurs nowhere. */
  lemma {:induction false} HighlightedCountsAnswer(options: seq<string>, correctAnswer: string)
    ensures Highlighted(OptionRows(options, correctAnswer)) == multiset(options)[correctAnswer]
  {
    if options != [] {
      var n := |options|;
      var rows := OptionRows(options, correctAnswer);
      assert rows[..n - 1] == OptionRows(options[..n - 1], correctAnswer);
      assert options == options[..n - 1] + [options[n - 1]];
      HighlightedCountsAnswer(options[..n - 1], correctAnswer);
    }
  }

  /** Removing the teacher annotations from a card gives the student item. */
  function Strip(card: TeacherCard): StudentItem {
    StudentItem(card.number, card.text,
                seq(|card.options|, j requires 0 <= j < |card.options| =>
                  StudentOption(card.options[j].letter, card.options[j].text)))
  }

  /** The student display is the teacher view with the answers, highlights, explanations,
      difficulty and outcome taken away, question by question. */
  lemma StudentViewIsStrippedTeacherView(quiz: Quiz)
    ensures |StudentView(quiz).items| == |TeacherView(quiz).cards|
    ensures forall i :: 0 <= i < |quiz.questions| ==> StudentView(quiz).items[i] == Strip(TeacherView(quiz).cards[i])
  {
    var s, t := StudentView(quiz), TeacherView(quiz);
    forall i | 0 <= i < |quiz.questions|
      ensures s.items[i] == Strip(t.cards[i])
    {
      assert s.items[i].options == Strip(t.cards[i]).options;
    }
  }

  /** What the student display reveals of a question. */
  predicate SameVisible(a: QuizQuestion, b: QuizQuestion) {
    a.text == b.text && a.options == b.options
  }

  /** Quizzes that differ only in answers, explanations, difficulty, outcome, taxonomy,
      ids or types have the same student display. */
  lemma StudentViewHidesAnswers(a: Quiz, b: Quiz)
    requires a.name == b.name && a.grade == b.grade && a.subject == b.subject && a.chapter == b.chapter
    requires |a.questions| == |b.questions|
    requires forall i :: 0 <= i < |a.questions| ==> SameVisible(a.questions[i], b.questions[i])
    ensures StudentView(a) == StudentView(b)
  {
    var sa, sb := StudentView(a), StudentView(b);
    forall i | 0 <= i < |a.questions|
      ensures sa.items[i] == sb.items[i]
    {
      assert sa.items[i].options == sb.items[i].options;
    }
    assert sa.items == sb.items;
  }

  /** What the preview renders. */
  datatype PreviewPage = Teacher(teacher: TeacherPage) | Student(student: StudentPage)

  /** The preview component: the quiz is a property, which only the parent replaces. */
  class QuizPreview {
    var quiz: Quiz
    var isStudentView: bool

    constructor (quiz: Quiz)
      ensures this.quiz == quiz && !isStudentView
    {
      this.quiz := quiz;
      isStudentView := false;
    }

    function Render(): (page: PreviewPage)
      reads this
      ensures page.Student? <==> isStudentView
      ensures page.Teacher? ==> page.teacher == TeacherView(quiz)
      ensures page.Student? ==> page.student == StudentView(quiz)
    {
      if isStudentView then Student(StudentView(quiz)) else Teacher(TeacherView(quiz))
    }

    /** The parent re-renders the mounted preview with another quiz: the property
        changes and the component's own state, the view switch, stays. */
    method QuizChanged(quiz: Quiz)
      modifies this`quiz
      ensures this.quiz == quiz
    {
      this.quiz := quiz;
    }

    /** The Display button. */
    method Display()
      modifies this`isStudentView
      ensures isStudentView
    {
      isStudentView := true;
    }

    /** The "Back to Teacher View" button. */
    method BackToTeacherView()
      modifies this`isStudentView
      ensures !isStudentView
    {
      isStudentView := false;
    }

    /** The Edit button hands the quiz to the dashboard unchanged. */
    method Edit() returns (edited: Quiz)
      ensures edited == quiz
    {
      edited := quiz;
    }
  }
}
