/** The records shared by the lesson page, the two API routes and the
    instructor catalog (src/types/index.ts). Text fields are opaque strings. */
module Types {
  import opened Wrappers

  // ------------------------------------------------------------ instructors

  datatype InstructorId = Emma | James | Sophia {
    /** The identifier as it appears in URLs and request bodies. */
    function Text(): string {
      match this
      case Emma => "emma"
      case James => "james"
      case Sophia => "sophia"
    }
  }

  /** Voice-activity tuning sent to the avatar provider. The values are carried
      verbatim and never computed with, so exact decimals stand in for the
      source's floating-point numbers. */
  datatype VoiceDetectionOptions = VoiceDetectionOptions(
    speechEnhancementLevel: real,
    endOfSpeechSensitivity: real)

  datatype PersonaConfig = PersonaConfig(
    name: string,
    avatarId: string,
    voiceId: string,
    llmId: string,
    systemPrompt: string,
    maxSessionLengthSeconds: int,
    skipGreeting: bool,
    voiceDetectionOptions: VoiceDetectionOptions)

  datatype Instructor = Instructor(
    id: InstructorId,
    name: string,
    tagline: string,
    description: string,
    tags: seq<string>,
    imageSrc: string,
    topic: string,
    personaConfig: PersonaConfig)

  // ---------------------------------------------------------- live session

  /** The categories the `log_error` tool declares. */
  datatype ErrorCategory = Grammar | Vocabulary | Expression | PronunciationHint {
    function Text(): string {
      match this
      case Grammar => "grammar"
      case Vocabulary => "vocabulary"
      case Expression => "expression"
      case PronunciationHint => "pronunciation_hint"
    }
  }

  /** All categories, in the order the tool declaration lists them. */
  const ErrorCategories: seq<ErrorCategory> := [Grammar, Vocabulary, Expression, PronunciationHint]

  /** One error the avatar reported through `log_error`. The lesson page never
      checks `category` against the declared enumeration, so it is a string;
      `timestamp` is the arrival time in milliseconds. */
  datatype ErrorEntry = ErrorEntry(
    original: string,
    corrected: string,
    explanation: string,
    category: string,
    timestamp: int)

  /** One turn of the transcript, `{ role, content }`. */
  datatype Turn = Turn(role: string, content: string)

  /** What the lesson page hands to the feedback page (`LessonStorageData`). */
  datatype SessionRecord = SessionRecord(
    conversationHistory: seq<Turn>,
    errors: seq<ErrorEntry>)

  // ---------------------------------------------------------------- feedback

  datatype OverallLabel = Great | Good | KeepPracticing {
    function Text(): string {
      match this
      case Great => "Great"
      case Good => "Good"
      case KeepPracticing => "Keep Practicing"
    }
  }

  /** A reviewed error in the report. The feedback route passes these through
      from the model's output without inspecting them, so `category` and
      `severity` are the strings it received. */
  datatype FeedbackError = FeedbackError(
    original: string,
    corrected: string,
    explanation: string,
    category: string,
    severity: string)

  datatype NaturalExpression = NaturalExpression(used: string, comment: string)

  /** The report the feedback route returns. `overallScore` and `summary` are
      copied from the model's output as they are, so they may be absent. */
  datatype FeedbackData = FeedbackData(
    overallScore: Option<int>,
    overallLabel: OverallLabel,
    summary: Option<string>,
    errors: seq<FeedbackError>,
    strengths: seq<string>,
    suggestions: seq<string>,
    naturalExpressions: seq<NaturalExpression>)

  // -------------------------------------------------------------------- HTTP

  datatype ResponseBody =
    | ErrorBody(error: string)
    | FeedbackBody(feedback: FeedbackData)
    | TokenBody(sessionToken: Option<string>)

  /** A JSON response of a route handler (`NextResponse.json`). */
  datatype HttpResponse = HttpResponse(status: int, body: ResponseBody)

  /** Both routes' answer when their provider key is missing. */
  const MisconfiguredResponse: HttpResponse :=
    HttpResponse(500, ErrorBody("Server configuration error"))

  /** A server-side secret read from the environment: JavaScript treats both
      an unset and an empty variable as missing. */
  predicate Configured(key: Option<string>) {
    key.Some? && key.value != ""
  }
}
