/** The application component: which screen is shown, the current
    scenario, the submitted answer, the feedback, the loading flag and
    message, and the error. Each asynchronous handler is two steps: it
    begins (loading on, error cleared, a request sent) and later settles
    with the request's outcome. The screens, and so every handler, are
    hidden while loading, so a handler only begins when nothing is pending. */
module App {
  import opened Types

  const ScenarioLoadError: string := "Failed to generate a training scenario. Please try again."
  const FeedbackError: string := "Failed to get feedback. Please try again."
  const ScenarioLoadingMessage: string := "Generating new training scenario..."
  const FeedbackLoadingMessage: string := "Analyzing your response and crafting feedback..."

  /** The request a begun handler waits for. */
  datatype Pending = Idle | ScenarioRequest | FeedbackRequest(question: string, answer: string)

  /** A `getFeedbackOnAnswer(question, answer)` call. */
  datatype FeedbackCall = FeedbackCall(question: string, answer: string)

  /** What `renderContent` returns. */
  datatype View =
    | ErrorView(message: string)
    | WelcomeView
    | TrainingView(scenario: TrainingScenario)
    | FeedbackView(scenario: TrainingScenario, userAnswer: string, feedback: string)
    | NoView

  /** What the `<main>` element holds. */
  datatype Screen = LoadingOverlay(message: string) | Content(view: View)

  class AppComponent {
    var appState: AppState
    var scenario: Option<TrainingScenario>
    var userAnswer: string
    var feedback: string
    var isLoading: bool
    var loadingMessage: string
    var error: Option<string>
    /** The request the settling step belongs to. */
    ghost var pending: Pending

    /** Loading exactly while a request is pending, each request with its
        own message and no error; a scenario behind every screen but the
        welcome screen; a pending feedback request about the current
        question and the stored answer; only the two fixed messages as
        errors. */
    ghost predicate Valid()
      reads this
    {
      && (isLoading <==> pending != Idle)
      && (pending != Idle ==> error == None)
      && (pending == ScenarioRequest ==> loadingMessage == ScenarioLoadingMessage)
      && (pending.FeedbackRequest? ==>
            && scenario.Some? && pending.question == scenario.value.question
            && pending.answer == userAnswer && loadingMessage == FeedbackLoadingMessage)
      && (appState != Welcome ==> scenario.Some?)
      && (error == None || error == Some(ScenarioLoadError) || error == Some(FeedbackError))
    }

    /** The initial state: the welcome screen, nothing loaded. */
    constructor ()
      ensures Valid() && appState == Welcome && scenario == None && userAnswer == ""
      ensures feedback == "" && !isLoading && loadingMessage == "" && error == None
    {
      appState := Welcome;
      scenario := None;
      userAnswer := "";
      feedback := "";
      isLoading := false;
      loadingMessage := "";
      error := None;
      pending := Idle;
    }

    /** The first part of `loadScenario`: loading with its message, no error. */
    method BeginLoadScenario()
      requires Valid() && !isLoading
      modifies this
      ensures Valid() && pending == ScenarioRequest
      ensures isLoading && loadingMessage == ScenarioLoadingMessage && error == None
      ensures appState == old(appState) && scenario == old(scenario)
      ensures userAnswer == old(userAnswer) && feedback == old(feedback)
    {
      isLoading := true;
      loadingMessage := ScenarioLoadingMessage;
      error := None;
      pending := ScenarioRequest;
    }

    /** The rest of `loadScenario`, once `generateTrainingScenario` settles.
        A scenario is stored as it came and the training screen follows; a
        failure, from whichever screen, leads to the welcome screen with the
        fixed message and keeps the old scenario, answer and feedback.
        Loading ends either way. */
    method SettleLoadScenario(outcome: Outcome<TrainingScenario>)
      requires Valid() && pending == ScenarioRequest
      modifies this
      ensures Valid() && pending == Idle && !isLoading
      ensures outcome.Resolved? ==>
        && scenario == Some(outcome.value) && appState == Training && error == None
      ensures outcome.Rejected? ==>
        && scenario == old(scenario) && appState == Welcome && error == Some(ScenarioLoadError)
      ensures userAnswer == old(userAnswer) && feedback == old(feedback)
      ensures loadingMessage == old(loadingMessage)
    {
      match outcome {
        case Resolved(newScenario) =>
          scenario := Some(newScenario);
          appState := Training;
        case Rejected(_) =>
          error := Some(ScenarioLoadError);
          appState := Welcome;
      }
      isLoading := false;
      pending := Idle;
    }

    /** `handleStartTraining`, the welcome screen's button: a scenario load. */
    method HandleStartTraining()
      requires Valid() && !isLoading
      modifies this
      ensures Valid() && pending == ScenarioRequest
      ensures isLoading && loadingMessage == ScenarioLoadingMessage && error == None
      ensures appState == old(appState) && scenario == old(scenario)
      ensures userAnswer == old(userAnswer) && feedback == old(feedback)
    {
      BeginLoadScenario();
    }

    /** `handleNextQuestion`, the feedback screen's button: a scenario load. */
    method HandleNextQuestion()
      requires Valid() && !isLoading
      modifies this
      ensures Valid() && pending == ScenarioRequest
      ensures isLoading && loadingMessage == ScenarioLoadingMessage && error == None
      ensures appState == old(appState) && scenario == old(scenario)
      ensures userAnswer == old(userAnswer) && feedback == old(feedback)
    {
      BeginLoadScenario();
    }

    /** `handleTryAgain`, the error screen's button: it clears the error
        and, from every screen, loads a new scenario; the branch on the
        welcome screen reaches the same load through `handleStartTraining`.
        A failed feedback request is not retried. */
    method HandleTryAgain()
      requires Valid() && !isLoading
      modifies this
      ensures Valid() && pending == ScenarioRequest
      ensures isLoading && loadingMessage == ScenarioLoadingMessage && error == None
      ensures appState == old(appState) && scenario == old(scenario)
      ensures userAnswer == old(userAnswer) && feedback == old(feedback)
    {
      error := None;
      if appState == Welcome {
        HandleStartTraining();
      } else {
        BeginLoadScenario();
      }
    }

    /** The first part of `handleAnswerSubmit`. Without a scenario nothing
        changes and no request is made. Otherwise the answer is stored
        before the request about the current question is sent. */
    method BeginAnswerSubmit(answer: string) returns (call: Option<FeedbackCall>)
      requires Valid() && !isLoading
      modifies this
      ensures Valid()
      ensures old(scenario).None? ==> call == None && unchanged(this)
      ensures old(scenario).Some? ==>
        && call == Some(FeedbackCall(old(scenario).value.question, answer))
        && pending == FeedbackRequest(old(scenario).value.question, answer)
        && userAnswer == answer && isLoading && loadingMessage == FeedbackLoadingMessage
        && error == None && appState == old(appState) && scenario == old(scenario)
        && feedback == old(feedback)
    {
      if scenario.None? {
        return None;
      }
      userAnswer := answer;
      isLoading := true;
      loadingMessage := FeedbackLoadingMessage;
      error := None;
      pending := FeedbackRequest(scenario.value.question, answer);
      call := Some(FeedbackCall(scenario.value.question, answer));
    }

    /** The rest of `handleAnswerSubmit`, once `getFeedbackOnAnswer` settles.
        Feedback is stored as it came and the feedback screen follows; a
        failure leads to the training screen with the fixed message and
        keeps the old feedback. The stored answer stays the submitted one
        either way, and loading ends. */
    method SettleAnswerSubmit(outcome: Outcome<string>)
      requires Valid() && pending.FeedbackRequest?
      modifies this
      ensures Valid() && pending == Idle && !isLoading
      ensures outcome.Resolved? ==>
        && feedback == outcome.value && appState == Feedback && error == None
      ensures outcome.Rejected? ==>
        && feedback == old(feedback) && appState == Training && error == Some(FeedbackError)
      ensures userAnswer == old(pending).answer && scenario == old(scenario)
      ensures loadingMessage == old(loadingMessage)
    {
      match outcome {
        case Resolved(newFeedback) =>
          feedback := newFeedback;
          appState := Feedback;
        case Rejected(_) =>
          error := Some(FeedbackError);
          appState := Training;
      }
      isLoading := false;
      pending := Idle;
    }

    /** `renderContent`. A (non-empty) error replaces every screen with the
        error view; otherwise the state picks the screen, and the training
        and feedback screens need a scenario. Under `Valid()` the error view
        shows exactly when there is an error and some view always shows. */
    function RenderContent(): (v: View)
      reads this
      ensures v.ErrorView? ==> error == Some(v.message)
      ensures v == WelcomeView ==> appState == Welcome
      ensures v.TrainingView? ==> appState == Training && scenario == Some(v.scenario)
      ensures v.FeedbackView? ==>
        && appState == Feedback && scenario == Some(v.scenario)
        && v.userAnswer == userAnswer && v.feedback == feedback
      ensures v == NoView <==>
        (error == None || error == Some("")) && appState != Welcome && scenario == None
      ensures Valid() ==> (v.ErrorView? <==> error.Some?) && v != NoView
    {
      if error.Some? && error.value != "" then ErrorView(error.value)
      else
        match appState
        case Training => if scenario.Some? then TrainingView(scenario.value) else NoView
        case Feedback =>
          if scenario.Some? then FeedbackView(scenario.value, userAnswer, feedback) else NoView
        case Welcome => WelcomeView
    }

    /** The `<main>` element: the loading overlay while loading, and then
        no screen at all; the rendered content otherwise. Under `Valid()` the
        overlay carries the message of the pending request, and when nothing
        is pending some screen shows, the error view exactly when there is
        an error. */
    function MainContent(): (m: Screen)
      reads this
      ensures m.LoadingOverlay? <==> isLoading
      ensures m.LoadingOverlay? ==> m.message == loadingMessage
      ensures m.Content? ==> m.view == RenderContent()
      ensures Valid() && pending == ScenarioRequest ==> m == LoadingOverlay(ScenarioLoadingMessage)
      ensures Valid() && pending.FeedbackRequest? ==> m == LoadingOverlay(FeedbackLoadingMessage)
      ensures Valid() && !isLoading ==>
        m.Content? && m.view != NoView && (m.view.ErrorView? <==> error.Some?)
    {
      if isLoading then LoadingOverlay(loadingMessage) else Content(RenderContent())
    }
  }
}
