# Ozempic AI Sales Trainer — a verified model of its core

The trainer is a single-page React application. It shows a generated
scenario (an image and a doctor's question). The user types an answer,
which is sent to Gemini, and the markdown feedback that comes back is shown
as HTML. A microphone recorder lets the user rehearse aloud. This project
models the parts of the application that hold logic, each in its own
module:

- `Types` (`types.dfy`): the screen enumeration and the scenario record.
- `JsString` (`js_string.dfy`): `trim`, the one JavaScript string method
  the code calls besides the three `replace` calls that `FeedbackScreen`
  models, with ECMAScript's whitespace and line terminator sets.
  It also holds `indexOf` and `split` on one character. The source
  calls neither; they exist only so that proofs can read back the image's
  `data:` URL and the feedback prompt.
- `FeedbackScreen` (`feedback_screen.dfy`): `formatFeedback`. Its three
  global regular-expression replacements (bold, line breaks, list items) are
  recursive functions over the text, one per pass. They follow JavaScript's
  leftmost, lazy matching and stop `.` at line terminators.
- `GeminiService` (`gemini_service.dfy`): prompt selection, the image reply
  check, the `data:` URL of the image, trimming of the question, the
  feedback prompt template and the fixed failure messages. Each SDK call is
  a `Request` value the operation returns, and each SDK reply is an
  `Outcome` it is given.
- `UseAudioRecorder` (`use_audio_recorder.dfy`): the `useAudioRecorder`
  hook. It is a class whose fields are the hook's state cells and refs,
  with one method per control and one per recorder event.
- `TrainingScreen` (`training_screen.dfy`): the answer box, the submit
  guard, the button it disables, the record toggle, and the player and
  error line.
- `App` (`app.dfy`): the application component. It is a class over the
  component's state. Each asynchronous handler is a *begin* step followed by
  a *settle* step, which receives the awaited call's outcome. `renderContent`
  and the loading gate are functions.

`Math.random()` is a real parameter in [0, 1), and the prompt index is the floor
of the roll times the list length. The device request of `getUserMedia` settles
as a `Capture` parameter: `Granted(stream)` or `Denied`. Recorder chunks,
streams, blobs and object URLs are opaque values. A ghost field `pending`
in `App.AppComponent` records which request a settle step answers.

A few details of the code differ from what a reader might expect:

- A failed scenario load goes to the welcome screen from every screen,
  including the feedback screen reached by "Next Question". It does not stay
  on the previous screen. A failed load also keeps the old scenario, answer
  and feedback.
- "Try Again" always loads a new scenario, even after a failed feedback
  request.
- `resetRecording` does not release the microphone. Only the recorder's
  `stop` event stops the stream's tracks. The recorder's `liveStreams` field
  records this.
- The submitted answer is stored before the feedback request and kept when
  the request fails.

## Model

| member | source | states |
|---|---|---|
| JsString.TrimKeepsInfix | services/geminiService.ts:50 | `trim` keeps one contiguous part of the text. Everything before and after it is whitespace, and the kept part neither starts nor ends with whitespace |
| JsString.TrimEmptyIffBlank | components/TrainingScreen.tsx:20 | the trimmed text is empty exactly when every character is whitespace |
| JsString.TrimIdempotent | services/geminiService.ts:50 | trimming a trimmed text changes nothing |
| FeedbackScreen.BoldCloseLeast | components/FeedbackScreen.tsx:16 | the lazy group `(.*?)` closes at the least point where `**` follows on the same line. It is absent exactly when no such point exists |
| FeedbackScreen.ItemEndLeast | components/FeedbackScreen.tsx:18 | the lazy item group closes at the least point where `<br />` or the end of the text follows, on the same line. It is absent exactly when no such point exists |
| FeedbackScreen.BreakPassNoNewline | components/FeedbackScreen.tsx:17 | the line-break pass leaves no `\n` |
| FeedbackScreen.ItemPassNoNewline | components/FeedbackScreen.tsx:18 | the list-item pass adds no `\n` to a text that has none |
| FeedbackScreen.FormatFeedbackNoNewline | components/FeedbackScreen.tsx:14-19 | the formatted feedback contains no newline, whatever the reply |
| FeedbackScreen.BoldPassPlain | components/FeedbackScreen.tsx:16 | text without `*` is copied by the bold pass, and the scan continues after it |
| FeedbackScreen.BreakPassPlain | components/FeedbackScreen.tsx:17 | text without `\n` is copied by the line-break pass |
| FeedbackScreen.ItemPassPlain | components/FeedbackScreen.tsx:18 | text without `*` is copied by the list-item pass, and the scan continues after it |
| FeedbackScreen.FormatFeedbackPlain | components/FeedbackScreen.tsx:14-19 | a reply with no `*` and no `\n` is shown exactly as received |
| FeedbackScreen.BoldPassStrong | components/FeedbackScreen.tsx:16 | `**x**` with a one-line, `*`-free `x` becomes the `<strong>` element around `x`. The match is the leftmost and the shortest, and the scan resumes after the closing `**` |
| FeedbackScreen.BoldCloseMissing | components/FeedbackScreen.tsx:16 | after `**`, a `*`-free run ended by a line terminator or by the end of the text has no closing point |
| FeedbackScreen.BoldPassUnclosed | components/FeedbackScreen.tsx:16 | a `**` with no later `**` on its line stays as two literal asterisks, whatever follows, and the scan goes on right after them |
| FeedbackScreen.BoldCloseShift | components/FeedbackScreen.tsx:16 | in `***…`, when the first `**` finds no close, neither does the `**` starting one position later |
| FeedbackScreen.BoldPassUnclosedLine | components/FeedbackScreen.tsx:16 | in particular, `**` followed by `*`-free text up to the end of its line or of the text stays, and so does that text |
| FeedbackScreen.BoldPassLoneStar | components/FeedbackScreen.tsx:16 | a text with a single `*` is copied by the bold pass |
| FeedbackScreen.BreakPassConcat | components/FeedbackScreen.tsx:17 | the line-break pass works character by character: on a concatenation it is the concatenation of the two results. With its base case `BreakPassChar`, this means each `\n` becomes exactly `<br />` and nothing else changes |
| FeedbackScreen.UnBreakBreakPass | components/FeedbackScreen.tsx:17 | on text without `<`, the line-break pass loses nothing: `UnBreak` gives the text back |
| FeedbackScreen.ItemPassItem | components/FeedbackScreen.tsx:18 | `* x`, followed by `<br />` or by the end of the text, becomes an `<li>` element around `x` when `x` is on one line and no `<br />` starts inside it. `x` may hold other markup, such as the `<strong>` the first pass made. What follows is scanned afresh |
| FeedbackScreen.ItemEndAtFirst | components/FeedbackScreen.tsx:18 | the item group ends at the first point where the lookahead holds, when no position before it starts `<br />` or holds a line terminator |
| FeedbackScreen.ItemEndFound | components/FeedbackScreen.tsx:18 | the group of `* x` ends right after `x`, when `x` is on one line, no `<br />` starts inside it, and `<br />` or the end of the text follows |
| FeedbackScreen.ItemTextWithoutAngle | components/FeedbackScreen.tsx:18 | item text without `<` contains no start of a `<br />`, so `ItemPassItem` applies to it |
| FeedbackScreen.ItemPassKeepsBreak | components/FeedbackScreen.tsx:18 | the `<br />` that ends an item is kept in the output |
| GeminiService.PromptIndex | services/geminiService.ts:30 | `Math.floor(roll * n)` is a valid index for any roll in [0, 1), and it is the floor of `roll * n` |
| GeminiService.ChooseImagePrompt | services/geminiService.ts:11-16 | the chosen image prompt is one of the four fixed ones |
| GeminiService.ChooseQuestionPrompt | services/geminiService.ts:18-23 | the chosen question prompt is one of the four fixed ones |
| GeminiService.ParseDataUrl | services/geminiService.ts:42 | a URL reads as a `data:` URL (RFC 2397, section 3) exactly when it starts with `data:` and has a comma after the scheme. The data read is a suffix of the URL |
| GeminiService.ParseBase64DataUrl | services/geminiService.ts:42 | a base64 `data:` URL with a non-empty, comma-free media type reads back as that media type and exactly the data |
| GeminiService.ImageDataUrlParses | services/geminiService.ts:41-42 | the scenario image URL is a base64 JPEG `data:` URL whose data are exactly the image bytes |
| GeminiService.FeedbackPromptSplit | services/geminiService.ts:62-73 | in the feedback prompt, when neither contains a double quote, the question and then the answer appear verbatim, each between double quotes, and the fixed rubric follows |
| GeminiService.FeedbackPromptInjective | services/geminiService.ts:62-73 | different quote-free question and answer pairs give different prompts |
| GeminiService.GenerateTrainingScenario | services/geminiService.ts:25-58 | the image request comes first. A failed request, or a missing or empty image list, fails with the fixed message before any question is requested. Otherwise the URL of the first image and the trimmed question are returned, or the fixed message if the question request fails. A returned URL parses as JPEG base64 data of the bytes, and a returned question has no whitespace at either end |
| GeminiService.GetFeedbackOnAnswer | services/geminiService.ts:60-89 | the request uses the pro model, the feedback prompt and the coaching instruction. A reply is returned verbatim, not trimmed. Any failure becomes the fixed message |
| UseAudioRecorder.AudioRecorder.constructor | hooks/useAudioRecorder.ts:14-18 | the hook starts with no recording, no URL, no error, no recorder and an empty buffer |
| UseAudioRecorder.AudioRecorder.Start | hooks/useAudioRecorder.ts:20-49 | the error is cleared first. While recording, nothing else changes. A granted stream starts a new recording with an empty buffer and no URL. A denial sets the fixed message and leaves the URL and chunks as they were |
| UseAudioRecorder.AudioRecorder.Stop | hooks/useAudioRecorder.ts:51-55 | without a recording or a recorder it changes nothing. Otherwise it stops the recorder and clears the flag |
| UseAudioRecorder.AudioRecorder.Reset | hooks/useAudioRecorder.ts:57-62 | everything recorded is dropped, the error and the live streams stay, and a second reset changes nothing |
| UseAudioRecorder.AudioRecorder.OnDataAvailable | hooks/useAudioRecorder.ts:32-34 | each chunk is appended after the earlier ones, and nothing else changes |
| UseAudioRecorder.AudioRecorder.OnStop | hooks/useAudioRecorder.ts:36-41 | the URL plays a WebM blob of the whole buffer in order, and that stream's tracks are stopped |
| TrainingScreen.SubmitDisabled | components/TrainingScreen.tsx:78 | the submit button is disabled exactly when the text is blank |
| TrainingScreen.TrainingScreen.constructor | components/TrainingScreen.tsx:14-16 | the screen starts with an empty answer and a fresh, cleared recorder |
| TrainingScreen.TrainingScreen.SetAnswerText | components/TrainingScreen.tsx:54 | typing replaces the answer text |
| TrainingScreen.TrainingScreen.HandleSubmit | components/TrainingScreen.tsx:18-23 | a blank answer makes no `onSubmit` call, exactly when the button is disabled. Any other answer makes one call, with the untrimmed text |
| TrainingScreen.TrainingScreen.ToggleRecording | components/TrainingScreen.tsx:25-32 | while recording, only `stopRecording` is called. Otherwise `resetRecording` and then `startRecording` are called, with the resulting recorder state for a grant and for a denial |
| TrainingScreen.TrainingScreen.AudioPlayer | components/TrainingScreen.tsx:58-62 | the player shows exactly when the recorder has a URL, and what it plays is WebM audio |
| TrainingScreen.TrainingScreen.ErrorLine | components/TrainingScreen.tsx:63 | the error line shows only a non-empty message. Since the hook only holds the denial message, it shows exactly when there is an error |
| App.AppComponent.constructor | App.tsx:12-18 | the application starts on the welcome screen with nothing loaded |
| App.AppComponent.BeginLoadScenario | App.tsx:20-23 | loading starts with its message, the error is cleared, and nothing else changes |
| App.AppComponent.SettleLoadScenario | App.tsx:24-34 | success stores exactly the returned scenario and goes to the training screen. Failure goes to the welcome screen, from any screen, with the fixed message, and keeps the scenario, answer and feedback. Loading ends either way |
| App.AppComponent.HandleStartTraining | App.tsx:37-39 | starting training is a scenario load |
| App.AppComponent.HandleNextQuestion | App.tsx:60-62 | the next question is a scenario load |
| App.AppComponent.HandleTryAgain | App.tsx:64-71 | the error is cleared and a scenario load begins from every screen |
| App.AppComponent.BeginAnswerSubmit | App.tsx:41-46 | without a scenario nothing changes and no call is made. Otherwise the answer is stored before one call about the current question is made |
| App.AppComponent.SettleAnswerSubmit | App.tsx:47-57 | success stores the feedback verbatim and goes to the feedback screen. Failure goes to the training screen with the fixed message and keeps the old feedback. The answer stays the submitted one, and loading ends |
| App.AppComponent.RenderContent | App.tsx:73-97 | a non-empty error overrides every screen. The training and feedback screens show nothing without a scenario. In every reachable state, the error view shows exactly when there is an error, and some view always shows |
| App.AppComponent.MainContent | App.tsx:106-109 | while loading, only the overlay with the loading message shows, and under the invariant that is the message of the pending request (scenario or feedback). Otherwise the rendered content shows: under the invariant always some screen, the error view exactly when there is an error |

## Left out

- The Gemini client, its API-key check and the SDK calls themselves
  (services/geminiService.ts:2-9) are not modelled. Each call is a
  `Request` value, and each reply is an `Outcome` parameter.
- `Math.random()` is a real in [0, 1). Double-precision rounding of
  `Math.random() * length` is not modelled.
- An undefined `text` or `image` field in an SDK reply is not modelled.
  Replies always have them, and `imageBytes` is a string.
- `console.error` logging, JSX layout, styling, `WelcomeScreen`,
  `LoadingOverlay` and the icons are presentation only.
- The `MediaRecorder` constructor and `recorder.start()` are assumed not to
  throw. In the code, a throw after a granted stream would show the denial
  message and leave the stream live.
- The microphone itself is not modelled. `liveStreams` only tracks which
  granted streams have not been stopped. `Reset` keeps the streams it finds,
  as the code does.
- Asynchronous interleaving is not modelled. The app's handlers, and the
  recorder's `stop` event that arrives after a later reset or start, are
  begin/settle steps that run one at a time. Each begin step requires that
  nothing is loading, since the screens are hidden while loading.
- React batching, stale `useCallback` closures and effects on unmounting are
  not modelled.
- `formatFeedback` does no HTML escaping, so the model states no
  sanitisation property.
- Characters are Dafny `char`s, not UTF-16 code units, so surrogate pairs are
  not modelled.
- GeminiService.ParseDataUrl reads only what the image URL needs: the
  default media type for an empty one and the `;base64` marker. It does not
  read `;charset`-only headers and does not percent-decode the data.
- TrainingScreen.TrainingScreen.AudioPlayer: its first two ensures restate
  the body (`audioURL &&` on a URL that, as an object URL, is never empty).
  Only the media type it states goes further.
