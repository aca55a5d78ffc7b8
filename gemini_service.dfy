/** The Gemini service: a training scenario is an image request followed by
    a question request, and feedback is one request built from a fixed
    prompt template. The model and the SDK are outside the model: each
    request appears as a `Request` value and each reply as an `Outcome`
    given to the operation, and `Math.random()` is a parameter in [0, 1). */
module GeminiService {
  import opened Types
  import opened JsString

  const ImagePrompts: seq<string> := [ImagePrompt1, ImagePrompt2, ImagePrompt3, ImagePrompt4]
  const ImagePrompt1: string :=
    "Photorealistic image of a concerned doctor, middle-aged, in a bright, modern office, looking at patient charts. The focus is on the doctor's thoughtful expression. Medical setting."
  const ImagePrompt2: string :=
    "A clinical photograph of a pharmacist consulting with a patient over the counter. The patient appears engaged and is listening intently. The pharmacy is well-lit and professional."
  const ImagePrompt3: string :=
    "A photorealistic image of a doctor and a pharmaceutical sales representative in a professional meeting. They are discussing a medical brochure in a modern office."
  const ImagePrompt4: string :=
    "An image of a doctor presenting at a medical conference, with a slide about obesity treatment visible in the background. The audience is attentive."

  const QuestionPrompts: seq<string> := [QuestionPrompt1, QuestionPrompt2, QuestionPrompt3, QuestionPrompt4]
  const QuestionPrompt1: string :=
    "You are a sales training scenario writer for Ozempic. Create a short, challenging question a doctor might ask a sales rep. The doctor is concerned about the cardiovascular benefits of Ozempic compared to competitors."
  const QuestionPrompt2: string :=
    "You are a sales training scenario writer for Ozempic. A doctor is asking about the common side effects and how to manage them for a patient just starting on Ozempic for obesity. Formulate the doctor's question."
  const QuestionPrompt3: string :=
    "You are a sales training scenario writer for Ozempic. A physician is skeptical about prescribing Ozempic for weight loss versus traditional lifestyle interventions. Craft the physician's skeptical question."
  const QuestionPrompt4: string :=
    "You are a sales training scenario writer for Ozempic. Create a question from a doctor who is asking about the long-term efficacy and safety data for Ozempic in the context of chronic weight management."

  const ImageModel: string := "imagen-4.0-generate-001"
  const QuestionModel: string := "gemini-2.5-flash-lite-latest"
  const FeedbackModel: string := "gemini-2.5-pro"
  const CoachInstruction: string := "You are an expert sales training coach for pharmaceutical representatives. You are evaluating a sales rep's response regarding Ozempic for obesity."

  const ScenarioFailure: string := "Failed to generate training scenario from Gemini API."
  const FeedbackFailure: string := "Failed to get feedback from Gemini API."

  /** The configuration of an image request. */
  datatype ImageConfig = ImageConfig(numberOfImages: nat, outputMimeType: string, aspectRatio: string)

  const ScenarioImageConfig: ImageConfig := ImageConfig(1, "image/jpeg", "16:9")

  /** A call made to the SDK's `models` object. */
  datatype Request =
    | GenerateImages(model: string, prompt: string, config: ImageConfig)
    | GenerateContent(model: string, contents: string, systemInstruction: Option<string>)

  /** One generated image: its bytes, already base64-encoded by the SDK. */
  datatype GeneratedImage = GeneratedImage(imageBytes: string)

  /** The reply to an image request; `generatedImages` may be absent. */
  datatype ImageResponse = ImageResponse(generatedImages: Option<seq<GeneratedImage>>)

  // ------------------------------------------------------ prompt selection

  /** `Math.floor(roll * n)` for a `roll` from `Math.random()`: always an
      index of a list of `n` prompts. */
  function PromptIndex(roll: real, n: nat): (i: nat)
    requires 0.0 <= roll < 1.0 && n > 0
    ensures i < n
    ensures i as real <= roll * n as real < i as real + 1.0
  {
    var x := roll * n as real;
    assert 0.0 <= x by {
      assert 0.0 <= roll && 0.0 <= n as real;
    }
    assert x < n as real by {
      assert (n as real) - x == (n as real) * (1.0 - roll);
      assert 0.0 < 1.0 - roll;
    }
    x.Floor
  }

  /** The image prompt chosen by a roll: always one of the four. */
  function ChooseImagePrompt(roll: real): (p: string)
    requires 0.0 <= roll < 1.0
    ensures p in ImagePrompts
  {
    ImagePrompts[PromptIndex(roll, |ImagePrompts|)]
  }

  /** The question prompt chosen by a roll: always one of the four. */
  function ChooseQuestionPrompt(roll: real): (p: string)
    requires 0.0 <= roll < 1.0
    ensures p in QuestionPrompts
  {
    QuestionPrompts[PromptIndex(roll, |QuestionPrompts|)]
  }

  // ------------------------------------------------------------ data URLs

  const ImageDataUrlPrefix: string := "data:image/jpeg;base64,"

  /** The scenario's image URL: a base64 `data:` URL of a JPEG image. */
  function ImageDataUrl(imageBytes: string): string {
    ImageDataUrlPrefix + imageBytes
  }

  /** The parts of a `data:` URL, `data:[<mediatype>][;base64],<data>` in
      section 3 of RFC 2397. */
  datatype DataUrl = DataUrl(mediaType: string, base64: bool, data: string)

  const DataScheme: string := "data:"
  const Base64Marker: string := ";base64"

  /** The media type RFC 2397 assumes when the URL names none. */
  const DefaultMediaType: string := "text/plain;charset=US-ASCII"

  /** Reads a `data:` URL: the header runs from the scheme to the first
      comma, ends in `;base64` when the data is base64-encoded, and the
      rest of the header is the media type. */
  function ParseDataUrl(url: string): (r: Option<DataUrl>)
    ensures r.Some? <==> |DataScheme| <= |url| && url[..|DataScheme|] == DataScheme && ',' in url[|DataScheme|..]
    ensures r.Some? ==> |r.value.data| < |url| && r.value.data == url[|url| - |r.value.data|..]
  {
    if |url| < |DataScheme| || url[..|DataScheme|] != DataScheme then None
    else
      var rest := url[|DataScheme|..];
      match IndexOf(rest, ',')
      case None => None
      case Some(i) =>
        var header := rest[..i];
        var encoded := |Base64Marker| <= |header| && header[|header| - |Base64Marker|..] == Base64Marker;
        var mediaType := if encoded then header[..|header| - |Base64Marker|] else header;
        Some(DataUrl(if mediaType == "" then DefaultMediaType else mediaType, encoded, rest[i + 1..]))
  }

  /** A base64 `data:` URL with a comma-free media type reads back as that
      media type and exactly the data, whatever the data contains. */
  lemma ParseBase64DataUrl(mediaType: string, data: string)
    requires mediaType != [] && ',' !in mediaType
    ensures ParseDataUrl(DataScheme + mediaType + Base64Marker + "," + data)
         == Some(DataUrl(mediaType, true, data))
  {
    var url := DataScheme + mediaType + Base64Marker + "," + data;
    var header := mediaType + Base64Marker;
    assert ',' !in header by {
      assert ',' !in Base64Marker;
      forall j | 0 <= j < |header| ensures header[j] != ',' {
        if j >= |mediaType| { assert header[j] == Base64Marker[j - |mediaType|]; }
      }
    }
    assert url[..|DataScheme|] == DataScheme;
    assert url[|DataScheme|..] == header + [','] + data;
    IndexOfAfter(header, ',', data);
    assert (header + [','] + data)[..|header|] == header;
    assert header[|header| - |Base64Marker|..] == Base64Marker;
    assert header[..|header| - |Base64Marker|] == mediaType;
    assert (header + [','] + data)[|header| + 1..] == data;
  }

  /** The scenario's image URL is a base64 JPEG `data:` URL whose data are
      exactly the image bytes the SDK returned. */
  lemma ImageDataUrlParses(imageBytes: string)
    ensures ParseDataUrl(ImageDataUrl(imageBytes)) == Some(DataUrl("image/jpeg", true, imageBytes))
  {
    assert ImageDataUrlPrefix == DataScheme + "image/jpeg" + Base64Marker + ",";
    assert ImageDataUrl(imageBytes) == DataScheme + "image/jpeg" + Base64Marker + "," + imageBytes;
    ParseBase64DataUrl("image/jpeg", imageBytes);
  }

  // ------------------------------------------------------ feedback prompt

  const PromptHead: string := "\nThe doctor's question was: "
  const PromptMiddle: string := "\n\n" + "The sales rep's answer was: "
  /** The fixed rubric: three areas to assess, and the requested format. */
  const Rubric: string := RubricTask + RubricAccuracy + RubricConcerns + RubricClarity + RubricFormat
  const RubricTask: string := "\n\nProvide constructive feedback on the rep's answer. Focus on three areas: \n"
  const RubricAccuracy: string := "1. **Accuracy & Key Messages**: Did the rep accurately convey key information about Ozempic?\n"
  const RubricConcerns: string := "2. **Addressing Concerns**: How well did the rep acknowledge and address the doctor's underlying concern?\n"
  const RubricClarity: string := "3. **Clarity & Confidence**: Was the response clear, concise, and delivered confidently?\n"
  const RubricFormat: string := "\nFormat the feedback with Markdown. Use headings for each area and bullet points for specific suggestions. Keep the tone encouraging and professional.\n"

  /** The feedback prompt: the question and the answer, each in double
      quotes, then the rubric. */
  function FeedbackPrompt(question: string, answer: string): string {
    PromptHead + "\"" + question + "\"" + PromptMiddle + "\"" + answer + "\"" + Rubric
  }

  /** The prompt embeds the question and then the answer verbatim, each
      between double quotes, and ends with the fixed rubric: when neither
      contains a double quote, splitting the prompt at its double quotes
      gives back the head, the question, the middle, the answer and the
      rubric's own pieces. */
  lemma FeedbackPromptSplit(question: string, answer: string)
    requires '"' !in question && '"' !in answer
    ensures Split(FeedbackPrompt(question, answer), '"')
         == [PromptHead, question, PromptMiddle, answer] + Split(Rubric, '"')
  {
    assert '"' !in PromptHead && '"' !in PromptMiddle;
    QuotedSplit(PromptHead, question, PromptMiddle, answer, Rubric);
  }

  lemma QuotedSplit(head: string, question: string, middle: string, answer: string, tail: string)
    requires '"' !in head && '"' !in question && '"' !in middle && '"' !in answer
    ensures Split(head + "\"" + question + "\"" + middle + "\"" + answer + "\"" + tail, '"')
         == [head, question, middle, answer] + Split(tail, '"')
  {
    var tail3 := answer + "\"" + tail;
    var tail2 := middle + "\"" + tail3;
    var tail1 := question + "\"" + tail2;
    assert head + "\"" + question + "\"" + middle + "\"" + answer + "\"" + tail == head + ['"'] + tail1;
    SplitAfter(head, '"', tail1);
    SplitAfter(question, '"', tail2);
    SplitAfter(middle, '"', tail3);
    SplitAfter(answer, '"', tail);
  }

  /** Different quote-free question and answer pairs give different prompts. */
  lemma FeedbackPromptInjective(q1: string, a1: string, q2: string, a2: string)
    requires '"' !in q1 && '"' !in a1 && '"' !in q2 && '"' !in a2
    requires FeedbackPrompt(q1, a1) == FeedbackPrompt(q2, a2)
    ensures q1 == q2 && a1 == a2
  {
    assert '"' !in PromptHead && '"' !in PromptMiddle;
    QuotedInjective(PromptHead, PromptMiddle, Rubric, q1, a1, q2, a2);
  }

  lemma QuotedInjective(head: string, middle: string, tail: string,
                        q1: string, a1: string, q2: string, a2: string)
    requires '"' !in head && '"' !in middle
    requires '"' !in q1 && '"' !in a1 && '"' !in q2 && '"' !in a2
    requires head + "\"" + q1 + "\"" + middle + "\"" + a1 + "\"" + tail
          == head + "\"" + q2 + "\"" + middle + "\"" + a2 + "\"" + tail
    ensures q1 == q2 && a1 == a2
  {
    QuotedSplit(head, q1, middle, a1, tail);
    QuotedSplit(head, q2, middle, a2, tail);
    var s1 := [head, q1, middle, a1] + Split(tail, '"');
    var s2 := [head, q2, middle, a2] + Split(tail, '"');
    assert s1[1] == s2[1] && s1[3] == s2[3];
  }

  // ------------------------------------------------------------ requests

  /** The image reply holds at least one image. */
  predicate HasImages(reply: Outcome<ImageResponse>) {
    reply.Resolved? && reply.value.generatedImages.Some? && |reply.value.generatedImages.value| > 0
  }

  /** `generateTrainingScenario`. The image request comes first; a failed
      request or a reply with no images ends the operation before any
      question is requested. Otherwise the scenario's image is the first
      image's bytes behind the JPEG `data:` prefix and its question is the
      trimmed reply to the question request. Every failure, whatever its
      cause, is reported as the one fixed message. */
  method GenerateTrainingScenario(imageRoll: real, questionRoll: real,
                                  imageReply: Outcome<ImageResponse>, questionReply: Outcome<string>)
    returns (requests: seq<Request>, result: Outcome<TrainingScenario>)
    requires 0.0 <= imageRoll < 1.0 && 0.0 <= questionRoll < 1.0
    ensures |requests| >= 1
    ensures requests[0] == GenerateImages(ImageModel, ChooseImagePrompt(imageRoll), ScenarioImageConfig)
    ensures !HasImages(imageReply) ==> |requests| == 1 && result == Rejected(ScenarioFailure)
    ensures HasImages(imageReply) ==>
      requests == [requests[0], GenerateContent(QuestionModel, ChooseQuestionPrompt(questionRoll), None)]
    ensures HasImages(imageReply) && questionReply.Rejected? ==> result == Rejected(ScenarioFailure)
    ensures HasImages(imageReply) && questionReply.Resolved? ==>
      result == Resolved(TrainingScenario(
        ImageDataUrl(imageReply.value.generatedImages.value[0].imageBytes), Trim(questionReply.value)))
    ensures result.Resolved? ==>
      && ParseDataUrl(result.value.imageUrl)
         == Some(DataUrl("image/jpeg", true, imageReply.value.generatedImages.value[0].imageBytes))
      && (result.value.question == [] || !IsWhitespace(result.value.question[0]))
      && (result.value.question == [] || !IsWhitespace(result.value.question[|result.value.question| - 1]))
  {
    requests := [GenerateImages(ImageModel, ChooseImagePrompt(imageRoll), ScenarioImageConfig)];
    if !imageReply.Resolved? {
      return requests, Rejected(ScenarioFailure);
    }
    var images := imageReply.value.generatedImages;
    if images.None? || |images.value| == 0 {
      return requests, Rejected(ScenarioFailure);
    }
    var imageUrl := ImageDataUrl(images.value[0].imageBytes);
    ImageDataUrlParses(images.value[0].imageBytes);
    requests := requests + [GenerateContent(QuestionModel, ChooseQuestionPrompt(questionRoll), None)];
    if !questionReply.Resolved? {
      return requests, Rejected(ScenarioFailure);
    }
    var question := Trim(questionReply.value);
    TrimKeepsInfix(questionReply.value);
    result := Resolved(TrainingScenario(imageUrl, question));
  }

  /** `getFeedbackOnAnswer`: one request with the feedback prompt and the
      coaching instruction; the reply's text is returned as it is, not
      trimmed, and a failure becomes the one fixed message. */
  method GetFeedbackOnAnswer(question: string, answer: string, reply: Outcome<string>)
    returns (request: Request, result: Outcome<string>)
    ensures request == GenerateContent(FeedbackModel, FeedbackPrompt(question, answer), Some(CoachInstruction))
    ensures reply.Resolved? ==> result == Resolved(reply.value)
    ensures reply.Rejected? ==> result == Rejected(FeedbackFailure)
  {
    request := GenerateContent(FeedbackModel, FeedbackPrompt(question, answer), Some(CoachInstruction));
    if reply.Resolved? {
      result := Resolved(reply.value);
    } else {
      result := Rejected(FeedbackFailure);
    }
  }
}
