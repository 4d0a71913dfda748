/** The view-state machine of the quiz dashboard: which screen is shown and which quiz
    it carries between the form, the preview and the (unimplemented) editor. */
module Dashboard {
  import opened Wrappers
  import opened QuizData
  import opened Compose
  import opened Preview

  datatype View = DashboardView | CreateView | PreviewView | EditView

  /** What the dashboard renders. */
  datatype Screen = DashboardScreen | CreateScreen | PreviewScreen(quiz: Quiz)

  datatype State = State(view: View, quiz: Option<Quiz>)

  /** The handlers that change the state. CreateClicked is either of the two create
      buttons of the dashboard screen. */
  datatype Event =
    | QuizGenerated(quiz: Quiz)
    | BackToCreate
    | EditQuiz(quiz: Quiz)
    | BackToDashboard
    | CreateClicked

  const Initial := State(DashboardView, None)

  /** The screen selection: the preview needs both its view and a quiz, the create view
      has a screen of its own, and every other state (the edit view included) falls
      through to the dashboard. */
  function ScreenOf(s: State): (screen: Screen)
    ensures screen.PreviewScreen? <==> s.view == PreviewView && s.quiz.Some?
    ensures screen.PreviewScreen? ==> s.quiz == Some(screen.quiz)
    ensures screen.CreateScreen? <==> s.view == CreateView
    ensures screen.DashboardScreen? <==>
      s.view == DashboardView || s.view == EditView || (s.view == PreviewView && s.quiz.None?)
  {
    match s.view
    case PreviewView => if s.quiz.Some? then PreviewScreen(s.quiz.value) else DashboardScreen
    case CreateView => CreateScreen
    case _ => DashboardScreen
  }

  /** The state after a handler: the transition table of the dashboard. Only the two
      create handlers keep the current quiz; the other three set or drop it. */
  function Next(s: State, e: Event): (t: State)
    ensures t.view == PreviewView <==> e.QuizGenerated?
    ensures t.view == CreateView <==> e == BackToCreate || e == CreateClicked
    ensures t.view == EditView <==> e.EditQuiz?
    ensures t.view == DashboardView <==> e == BackToDashboard
    ensures e.QuizGenerated? || e.EditQuiz? ==> t.quiz == Some(e.quiz)
    ensures e == BackToCreate || e == CreateClicked ==> t.quiz == s.quiz
    ensures e == BackToDashboard ==> t.quiz == None
  {
    match e
    case QuizGenerated(q) => State(PreviewView, Some(q))
    case BackToCreate => State(CreateView, s.quiz)
    case EditQuiz(q) => State(EditView, Some(q))
    case BackToDashboard => State(DashboardView, None)
    case CreateClicked => State(CreateView, s.quiz)
  }

  /** The handlers that can happen in a state. The form's callback is not tied to a
      screen: a generation started on the create screen calls it whenever its response
      arrives, even after the user has left the form (the back link stays enabled while
      loading). The back link needs the create screen, the two create buttons the
      dashboard screen, and Back and Edit (with the quiz shown) the preview screen. The
      preview shows Back and Edit only in its teacher view, so offering them on every
      preview screen allows a few runs more than the app has, never fewer. */
  function Offered(s: State, e: Event): (offered: bool)
    ensures e.QuizGenerated? ==> offered
    ensures e == CreateClicked ==> (offered <==> ScreenOf(s) == DashboardScreen)
    ensures e == BackToDashboard ==> (offered <==> ScreenOf(s) == CreateScreen)
    ensures e == BackToCreate ==> (offered <==> ScreenOf(s).PreviewScreen?)
    ensures e.EditQuiz? ==> (offered <==> ScreenOf(s) == PreviewScreen(e.quiz))
  {
    e.QuizGenerated? ||
    match ScreenOf(s)
    case DashboardScreen => e == CreateClicked
    case CreateScreen => e == BackToDashboard
    case PreviewScreen(q) => e == BackToCreate || e == EditQuiz(q)
  }

  function Run(s: State, events: seq<Event>): State
    decreases |events|
  {
    if events == [] then s else Run(Next(s, events[0]), events[1..])
  }

  /** A sequence of handlers each of which the screen shown at its turn offers. */
  predicate Feasible(s: State, events: seq<Event>)
    decreases |events|
  {
    events == [] || (Offered(s, events[0]) && Feasible(Next(s, events[0]), events[1..]))
  }

  /** The preview view always carries a quiz, and the dashboard view never does. */
  predicate Consistent(s: State) {
    (s.view == PreviewView ==> s.quiz.Some?) && (s.view == DashboardView ==> s.quiz.None?)
  }

  /** Every handler, from any state, leads to a Consistent one: the views that need a
      quiz, or its absence, are only entered by handlers that set or drop it. */
  lemma StepConsistent(s: State, e: Event)
    ensures Consistent(Next(s, e))
  {
  }

  /** So no run from a Consistent state ever asks for a preview without a quiz. The
      induction only carries the one-step fact of StepConsistent along the run. */
  lemma {:induction false} RunKeepsConsistent(s: State, events: seq<Event>)
    requires Consistent(s)
    ensures Consistent(Run(s, events))
    ensures Run(s, events).view == PreviewView ==> ScreenOf(Run(s, events)).PreviewScreen?
    decreases |events|
  {
    if events != [] {
      StepConsistent(s, events[0]);
      RunKeepsConsistent(Next(s, events[0]), events[1..]);
    }
  }

  /** Along a run of offered handlers, editing carries the quiz being previewed, and the
      edit view then shows the dashboard screen, still holding that quiz. */
  lemma {:induction false} EditKeepsPreviewedQuiz(s: State, events: seq<Event>, q: Quiz)
    requires Feasible(s, events) && events != [] && events[|events| - 1] == EditQuiz(q)
    ensures Run(s, events[..|events| - 1]) == State(PreviewView, Some(q))
    ensures Run(s, events) == State(EditView, Some(q))
    ensures ScreenOf(Run(s, events)) == DashboardScreen
    decreases |events|
  {
    if |events| == 1 {
      assert events[..0] == [];
      assert events[1..] == [];
    } else {
      assert events[1..][..|events| - 2] == events[..|events| - 1][1..];
      EditKeepsPreviewedQuiz(Next(s, events[0]), events[1..], q);
    }
  }

  /** The dashboard component's state. */
  class QuizDashboard {
    var currentView: View
    var currentQuiz: Option<Quiz>

    function Current(): State
      reads this
    {
      State(currentView, currentQuiz)
    }

    function Screen(): Screen
      reads this
    {
      ScreenOf(Current())
    }

    constructor ()
      ensures currentView == DashboardView && currentQuiz == None
      ensures Current() == Initial
    {
      currentView, currentQuiz := DashboardView, None;
    }

    /** The form's callback: show the generated quiz. Entering the preview screen from
        another screen mounts a new preview, in the teacher view, on that quiz. When a
        late response arrives while a preview is already shown, no preview is mounted:
        the shown one keeps its state and receives the quiz through
        QuizPreview.QuizChanged. */
    method HandleQuizGenerated(quiz: Quiz) returns (preview: Option<QuizPreview>)
      modifies this`currentView, this`currentQuiz
      ensures currentView == PreviewView && currentQuiz == Some(quiz)
      ensures Current() == Next(old(Current()), QuizGenerated(quiz))
      ensures Screen() == PreviewScreen(quiz)
      ensures preview.Some? <==> !old(Screen()).PreviewScreen?
      ensures preview.Some? ==>
        fresh(preview.value) && preview.value.quiz == quiz && !preview.value.isStudentView
    {
      preview := None;
      if !Screen().PreviewScreen? {
        var p := new QuizPreview(quiz);
        preview := Some(p);
      }
      currentView, currentQuiz := PreviewView, Some(quiz);
    }

    /** The preview's Back: return to the create view keeping the quiz. The create screen
        mounts a new, empty form whenever it replaces another screen. */
    method HandleBackToCreate() returns (form: Option<CreateQuizForm>)
      modifies this`currentView
      ensures currentView == CreateView && currentQuiz == old(currentQuiz)
      ensures Current() == Next(old(Current()), BackToCreate)
      ensures form.Some? <==> old(Screen()) != CreateScreen
      ensures form.Some? ==> fresh(form.value) && form.value.Valid() && form.value.IsFresh()
    {
      form := None;
      if Screen() != CreateScreen {
        var f := new CreateQuizForm();
        form := Some(f);
      }
      currentView := CreateView;
    }

    /** The preview's Edit: the edit view has no screen of its own. */
    method HandleEditQuiz(quiz: Quiz)
      modifies this`currentView, this`currentQuiz
      ensures currentView == EditView && currentQuiz == Some(quiz)
      ensures Current() == Next(old(Current()), EditQuiz(quiz))
      ensures Screen() == DashboardScreen
    {
      currentView, currentQuiz := EditView, Some(quiz);
    }

    /** The create screen's back link: the quiz is dropped. */
    method HandleBackToDashboard()
      modifies this`currentView, this`currentQuiz
      ensures currentView == DashboardView && currentQuiz == None
      ensures Current() == Next(old(Current()), BackToDashboard)
    {
      currentView, currentQuiz := DashboardView, None;
    }

    /** Either create button of the dashboard screen; like HandleBackToCreate it mounts
        a new form when the create screen was not already shown. */
    method ClickCreate() returns (form: Option<CreateQuizForm>)
      modifies this`currentView
      ensures currentView == CreateView && currentQuiz == old(currentQuiz)
      ensures Current() == Next(old(Current()), CreateClicked)
      ensures form.Some? <==> old(Screen()) != CreateScreen
      ensures form.Some? ==> fresh(form.value) && form.value.Valid() && form.value.IsFresh()
    {
      form := None;
      if Screen() != CreateScreen {
        var f := new CreateQuizForm();
        form := Some(f);
      }
      currentView := CreateView;
    }
  }
}
