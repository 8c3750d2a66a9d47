# English conversation lessons: a Dafny model of the session core

The application pairs an advanced Japanese learner with an AI avatar
instructor for a three-minute spoken English conversation. It then turns the
transcript and the errors the avatar logged into a feedback report. This
project models the parts of it that carry the rules:

- **the instructor catalog** (`Instructors`): three fixed instructors, each
  with a persona. The persona has a 180-second session cap, no skipped
  greeting, a shared language model and a system prompt built from one
  template, addressed to the instructor by name. Lookup is by identifier and
  returns the first match, or nothing.
- **the session-token route** (`SessionRoute`): it checks, in order:
  - the request body;
  - the instructor (400 when unknown);
  - the provider key (500 when unset).

  It then sends one request to the avatar provider, carrying the instructor's
  persona unchanged and the fixed `log_error` tool declaration. It answers
  with the provider's token, or with the generic 500 failure.
- **the lesson controller** (`Lesson`): the lesson page's refs and state as
  one record, with each SDK listener as a pure transition. The listeners are:
  - connection established and closed;
  - tool event;
  - history update;
  - the interval tick;
  - the initialisation failure;
  - the mute toggle.

  Termination is one-shot: whichever trigger comes first writes the
  `{conversationHistory, errors}` record and navigates, exactly once, and
  nothing can rewrite it. Errors only accumulate. The transcript is replaced
  wholesale by each history array. The countdown ends the session on its
  180th tick.
- **the timer display** (`Timer`): `m:ss` rendering, and the warning state at
  30 seconds or less.
- **the feedback route** (`FeedbackRoute`), which does the following:
  - renders the transcript as `role: content` lines;
  - extracts the answer from a fenced block with the route's regular
    expression, modelled character by character with its leftmost-match and
    lazy-capture behaviour;
  - normalises the parsed report: missing lists become empty, and the label
    is always derived from the score by the 8/5 bands;
  - maps every failure to 400, to the misconfiguration 500 or to the generic
    500.
- **JavaScript string behaviour the code depends on** (`Text`): `trim` with
  the ECMAScript white-space set, decimal rendering, `padStart` and `join`.
- **end-to-end scenarios** (`Scenarios`): a complete lesson, an Emma token
  request and an unknown instructor.

External effects become data:

- **Values from outside the model become inputs:**
  - each provider call is a function argument;
  - `JSON.parse` of the model's answer is an abstract partial function;
  - `Date.now()` is a field of the tool event;
  - environment variables are optional strings. An empty string counts as
    unset, as JavaScript's `!apiKey` does.
- **Effects become recorded state:** the session-storage write and the
  navigation become a stored record and two counters, and calls on the SDK
  client go into a log.

Where the declared types and the running code disagree, the model follows
the code:

- An error entry's category is typed as the four-name `ErrorCategory`
  (`src/types/index.ts:38`). The page nevertheless stores whatever category
  string the tool event carries (`src/app/lesson/page.tsx:111`); the enumeration
  is only forwarded to the provider.
- A token request whose body is not JSON fails in `request.json()`, reaches
  the catch-all and gets 500 (`src/app/api/session/route.ts:100-106`). A body
  without an identifier gets 400.
- The feedback report's `overallScore` and `summary` are declared required
  (`src/types/index.ts:61,63`), but the route copies them from the parsed
  answer unchecked (`src/app/api/feedback/route.ts:85,87`), so they may be
  absent. An absent score is labelled "Keep Practicing".
- The tool-event listener has no termination guard. Errors that arrive after
  the record is written still grow the live list, but not the record.
- A second connection signal starts a new interval without clearing the one
  held. The model counts such intervals, and they keep ticking.

## Model

| member | source | states |
|---|---|---|
| Instructors.FindById | src/lib/instructors.ts:119-121 | `find` returns nothing exactly when no entry has the identifier; otherwise it returns an entry with that identifier that no earlier entry has |
| Instructors.CatalogShape | src/lib/instructors.ts:31-117 | the catalog holds exactly emma, james and sophia, in that order, with distinct identifiers |
| Instructors.GetInstructor | src/lib/instructors.ts:119-121 | an entry found is a catalog entry carrying the identifier asked for |
| Instructors.GetInstructorSpec | src/lib/instructors.ts:119-121 | `getInstructor` finds an instructor iff the identifier is one of the three, and the one found carries that identifier |
| Instructors.GetInstructorTotal | src/lib/instructors.ts:119-121 | every identifier of the `InstructorId` type resolves to its own catalog entry |
| Instructors.BaseSystemPrompt | src/lib/instructors.ts:3-29 | the prompt is "You are <name>,", the shared introduction, the instructor's style lines and the shared rules, laid end to end: each part sits at its own offset and nothing else is in the prompt |
| Instructors.PersonaInvariants | src/lib/instructors.ts:31-117 | every entry has a 180-second cap and no skipped greeting. Its persona name equals its display name, and its prompt is the shared template applied to its name and style |
| Instructors.PromptsGreetByName | src/lib/instructors.ts:31-117 | each instructor's system prompt addresses the avatar by that instructor's own name |
| SessionRoute.LogErrorToolShape | src/app/api/session/route.ts:29-63 | the declared tool is a client tool named `log_error`. It has four string parameters, all four are required and listed in parameter order, and the category enumeration is exactly the four error categories. Its parameters block is of JSON type `"object"` |
| SessionRoute.PersonaPayload | src/app/api/session/route.ts:74-83 | the persona block sent to the provider is the catalog persona, field for field |
| SessionRoute.TokenResponse | src/app/api/session/route.ts:89-99 | 200 iff the provider answered with a 2xx status and a JSON body, and then the body is that token. Anything else is the generic 500 |
| SessionRoute.HandleSession | src/app/api/session/route.ts:5-107 | the provider is called iff the body parses, the instructor is known and the key is set. The error order is: bad body 500, unknown instructor 400, no key 500. The request sent is the persona plus `[log_error]`. The status is 400 iff the instructor is unknown |
| SessionRoute.SameToolForEveryInstructor | src/app/api/session/route.ts:84 | every request that reaches the provider declares the same single tool, whatever the instructor, key or provider |
| SessionRoute.PersonaSentUnchanged | src/app/api/session/route.ts:26 | with a key set, each known instructor's request carries exactly that instructor's catalog persona |
| SessionRoute.UnknownInstructorRefused | src/app/api/session/route.ts:10-16 | an unknown identifier gets 400 and nothing is sent, whether or not the key is set |
| Lesson.EndSession | src/app/lesson/page.tsx:47-63 | the first call writes the record of the current transcript and errors, releases the held interval, marks the page disconnected and navigates once. Any later call changes nothing |
| Lesson.EndSessionIdempotent | src/app/lesson/page.tsx:48-49 | ending twice is ending once, and the guard is set afterwards |
| Lesson.OnEstablished | src/app/lesson/page.tsx:81-93 | the page becomes connected with an interval held. An interval already held is overwritten and keeps running. Nothing else changes: termination state, record, countdown, transcript, errors, mute state, client and counters are untouched |
| Lesson.OnTick | src/app/lesson/page.tsx:84-91 | at one second or less left, the tick is `handleSessionEnd` with 0 shown: a live session releases its interval, is marked disconnected, writes the current record once and navigates once. Otherwise the count drops by exactly one and nothing else changes. It never increases |
| Lesson.OrDefault | src/app/lesson/page.tsx:108-111 | `x \|\| d` keeps a present non-empty string and gives `d` for a missing or empty one |
| Lesson.EntryOf | src/app/lesson/page.tsx:106-113 | a missing payload yields empty texts with category "grammar". A present payload gives each field its value, or "" (category "grammar") when that field is missing or empty. The category is never empty and the timestamp is the event's clock reading |
| Lesson.OnToolEvent | src/app/lesson/page.tsx:104-115 | a `log_error` event appends exactly one entry at the end and keeps the earlier ones. Any other tool event changes nothing. Only the error list ever changes |
| Lesson.TurnsOf | src/app/lesson/page.tsx:135-141 | the transcript has one turn per history element, in order. Each turn keeps the element's role, or "unknown" when it is missing or empty, and its content, or "" |
| Lesson.OnHistory | src/app/lesson/page.tsx:133-143 | an array of objects replaces the whole transcript element by element. A non-array, or an array holding `null`, leaves the state alone. Nothing but the transcript changes |
| Lesson.OnInitFailed | src/app/lesson/page.tsx:148-151 | a failed initialisation only marks the page disconnected |
| Lesson.OnToggleMute | src/app/lesson/page.tsx:35-45 | the flag flips. With a client, it unmutes when muted and mutes otherwise. Nothing else changes |
| Lesson.Step | src/app/lesson/page.tsx:81-144 | after termination no event rewrites the record, writes again or navigates again, and no event raises the countdown |
| Lesson.StepOneShot | src/app/lesson/page.tsx:47-63 | every event preserves the one-shot invariant: at most one write, one navigation per write, and written exactly when ended. Once written, the record is unchanged |
| Lesson.RunOneShot | src/app/lesson/page.tsx:47-63 | over any event sequence the invariant holds, and a written record is never rewritten |
| Lesson.InitialOneShot | src/app/lesson/page.tsx:25 | from mount, any sequence of events writes at most one record with exactly one navigation per write, and the page has ended iff it wrote one |
| Lesson.RunErrors | src/app/lesson/page.tsx:104-115 | after any events, the error list is the old list followed by one entry per `log_error` event, in arrival order |
| Lesson.RunTranscript | src/app/lesson/page.tsx:130-143 | after any events, the transcript is the mapping of the last array that replaced it, or the old one when none arrived |
| Lesson.HistoryReplaces | src/app/lesson/page.tsx:135 | a replacing update discards whatever the previous update did |
| Lesson.CountDown | src/app/lesson/page.tsx:84-91 | while more than k seconds remain, k ticks only subtract k |
| Lesson.EndsOnLastTick | src/app/lesson/page.tsx:86-89 | with n seconds left, n-1 ticks leave 1 second and a live session. The n-th tick ends it with 0 shown and the record written as it stood |
| Lesson.FullSessionLength | src/app/lesson/page.tsx:11 | after connecting, the session lasts exactly 180 ticks. The timer shows 180-k after k ticks and is in its warning state iff k >= 150 |
| Lesson.ViewOf | src/app/lesson/page.tsx:166-228 | "session not found" iff the instructor or the token is missing. The connection-failed screen iff both are present and a live session is disconnected. Otherwise the lesson, with the connecting note iff the status is connecting |
| Lesson.InitFailureShowsFailure | src/app/lesson/page.tsx:148-151 | an initialisation failure writes nothing, navigates nowhere, and shows the connection-failed screen |
| Lesson.EndedNeverShowsFailure | src/app/lesson/page.tsx:184 | a terminated session never renders the connection-failed screen |
| Lesson.FailureScreenNeedsInitFailure | src/app/lesson/page.tsx:184 | from mount, the connection-failed screen needs an initialisation failure among the events |
| Lesson.ToggleTwice | src/app/lesson/page.tsx:35-45 | two toggles restore the flag. With a client, they issue the mute and unmute calls in the order the flag dictates |
| Lesson.LateErrorNotRecorded | src/app/lesson/page.tsx:104-115 | a `log_error` after termination grows the live list but leaves the stored record untouched |
| Timer.Split | src/components/Timer.tsx:11-12 | minutes times 60 plus seconds is the remaining time, and seconds is below 60 |
| Timer.TwoDigits | src/components/Timer.tsx:13 | the seconds field is two digits that read back as the seconds |
| Timer.Display | src/components/Timer.tsx:13 | the display is digits, a colon, then exactly two digits |
| Timer.DisplayRoundTrip | src/components/Timer.tsx:11-13 | reading the display back as minutes*60+seconds gives the remaining time |
| Timer.DisplayInjective | src/components/Timer.tsx:11-13 | different remaining times never show the same text |
| Timer.SecondsFieldShape | src/components/Timer.tsx:11-13 | the minutes field is the decimal text of the whole minutes, with no leading zero once a minute remains. The seconds field is the two digits of the leftover seconds, zero-padded |
| Timer.DisplayExamples | src/components/Timer.tsx:13 | 180 seconds shows "3:00" and 0 shows "0:00" |
| Timer.IsWarning | src/components/Timer.tsx:10-12 | the warning shows iff the display reads `0:ss` with ss at most 30 |
| Timer.WarningMonotone | src/components/Timer.tsx:10 | once in the warning state, less time stays in it. The threshold is 30 inclusive |
| Text.Trim | src/app/api/feedback/route.ts:76 | `trim` returns a slice with only white space before and after it, and the slice neither starts nor ends with white space |
| Text.TrimIdempotent | src/app/api/feedback/route.ts:79 | trimming a trimmed text changes nothing |
| Text.TrimIgnoresPadding | src/app/api/feedback/route.ts:79 | white space added around a text does not change its trimmed form |
| Text.NatToString | src/components/Timer.tsx:13 | decimal text of a number: digits only, no leading zero, one digit iff below 10 |
| Text.ParseNatToString | src/components/Timer.tsx:13 | reading the decimal text back gives the number |
| Text.PadStartZero | src/components/Timer.tsx:13 | `padStart(w, "0")` leaves text of length at least w alone, and otherwise prefixes zeros up to length w |
| Text.Join | src/app/api/feedback/route.ts:37 | `join` of no items is empty, and `join` of one item is that item |
| Text.JoinSnoc | src/app/api/feedback/route.ts:37 | appending an item to a non-empty list appends exactly one separator and the item |
| Text.TrimKeepsNoFence | src/app/api/feedback/route.ts:79 | trimming a fence-free text cannot create a fence |
| FeedbackRoute.DeriveLabel | src/app/api/feedback/route.ts:5-9 | "Great" iff score >= 8, "Good" iff 5 <= score < 8, "Keep Practicing" iff score < 5 |
| FeedbackRoute.DeriveLabelBoundaries | src/app/api/feedback/route.ts:5-9 | 4, 5, 7, 8 and 10 fall on the expected sides of the two thresholds |
| FeedbackRoute.DeriveLabelMonotone | src/app/api/feedback/route.ts:5-9 | a higher score never gets a lower label |
| FeedbackRoute.LabelOf | src/app/api/feedback/route.ts:86 | an absent score compares false with both thresholds and is labelled "Keep Practicing". A present score gets its band's label |
| FeedbackRoute.TurnLines | src/app/api/feedback/route.ts:37 | one line per turn, in order, each the turn's role, a colon and a space, then its content |
| FeedbackRoute.RenderTranscript | src/app/api/feedback/route.ts:37 | an empty history renders as "" and a single turn as `role: content` |
| FeedbackRoute.RenderTranscriptSnoc | src/app/api/feedback/route.ts:37 | a further turn adds a line feed and its own line at the end |
| FeedbackRoute.SkipSpaces | src/app/api/feedback/route.ts:77 | greedy `\s*` stops at the first non-white-space character, or at the end |
| FeedbackRoute.FirstFenceFrom | src/app/api/feedback/route.ts:77 | the lazy capture ends at the first fence at or after its start, and is absent iff no fence follows |
| FeedbackRoute.CaptureFrom | src/app/api/feedback/route.ts:77 | a capture exists iff a fence follows, and it is exactly the text from its start up to the first fence, so it never contains one |
| FeedbackRoute.FindFence | src/app/api/feedback/route.ts:77 | what `match` captures never contains a fence |
| FeedbackRoute.CaptureStart | src/app/api/feedback/route.ts:77 | the capture starts after the opening marker, after `json` when a closing fence still follows the tag, and after the white space `\s*` takes. The first fence from there is the first fence after the marker |
| FeedbackRoute.MatchFenceAt | src/app/api/feedback/route.ts:77 | a match at i needs a fence at i and captures the text from the capture start up to the first fence after the opening marker. A fence at i with no other fence from i+3 on does not match |
| FeedbackRoute.MatchFenceAtIff | src/app/api/feedback/route.ts:77 | the expression matches at i iff a fence starts at i and another starts at or after i+3 |
| FeedbackRoute.FindFenceIff | src/app/api/feedback/route.ts:77-78 | `match` succeeds iff the text holds two fences, the second beginning where the first ends or later |
| FeedbackRoute.FindFenceFirst | src/app/api/feedback/route.ts:77 | the match taken is the one at the leftmost fence that has a closing fence after it |
| FeedbackRoute.StripFences | src/app/api/feedback/route.ts:76-80 | the text parsed is already trimmed. Without a match it is the trimmed answer. When the answer's first fence opens a block, it is the trimmed text from that block's capture start up to the next fence |
| FeedbackRoute.FindFenceCapture | src/app/api/feedback/route.ts:77 | when the text's first fence opens a block, `match` captures the text from that block's capture start up to the next fence |
| FeedbackRoute.StripFencesMatched | src/app/api/feedback/route.ts:76-80 | with a match, the text parsed is the trimmed capture, and it holds no fence |
| FeedbackRoute.StripFencesUnfenced | src/app/api/feedback/route.ts:76-80 | without a fenced block, the text parsed is the trimmed answer |
| FeedbackRoute.StripFencesBlock | src/app/api/feedback/route.ts:77-80 | with a fenced block, the text parsed holds no fence |
| FeedbackRoute.StripFencesNoFence | src/app/api/feedback/route.ts:76-80 | a fence-free answer is only trimmed |
| FeedbackRoute.StripFencesIdempotent | src/app/api/feedback/route.ts:76-80 | extracting twice is extracting once |
| FeedbackRoute.FencedMatch | src/app/api/feedback/route.ts:77 | in a ```` ```json ```` block around a fence-free answer, the expression takes the `json` alternative and stops at the closing fence |
| FeedbackRoute.StripFencedAnswer | src/app/api/feedback/route.ts:75-80 | a fence-free answer wrapped in a ```` ```json ```` block yields the same text to parse as the bare answer |
| FeedbackRoute.Normalize | src/app/api/feedback/route.ts:84-92 | score and summary are copied. Each list is copied, or empty when missing. The label always agrees with the score |
| FeedbackRoute.NormalizeFixpoint | src/app/api/feedback/route.ts:84-92 | normalising a report that is already consistent returns it unchanged |
| FeedbackRoute.Respond | src/app/api/feedback/route.ts:66-101 | 200 iff the provider replied with at least one content block and its extracted text parses. The body is then the normalised report, and every other outcome is the generic 500 |
| FeedbackRoute.HandleFeedback | src/app/api/feedback/route.ts:11-102 | the provider is called iff the body parses, the history is non-empty and the key is set. The error order is: bad body 500, empty history 400, no key 500. The prompt carries the rendered transcript and the errors. 400 iff the history is missing or empty. A 200 always carries a label consistent with its score |
| FeedbackRoute.NonTextReplyFails | src/app/api/feedback/route.ts:72-82 | a first content block that is not text yields the empty string. When that does not parse, the answer is the generic 500 |
| FeedbackRoute.FencedAnswerSameResponse | src/app/api/feedback/route.ts:72-94 | a fenced answer and the bare answer get the same response |
| Scenarios.EmmaTokenIssued | src/app/api/session/route.ts:10-99 | an "emma" request with a key and a provider that issues a token returns that token. The provider is sent Emma's persona and the single `log_error` tool |
| Scenarios.UnknownInstructorScenario | src/app/api/session/route.ts:10-16 | "unknown" gets 400 and the provider is never asked |
| Scenarios.LessonScenario | src/app/lesson/page.tsx:47-142 | connect, two `log_error` events, a four-turn history, then the full countdown. Together they end with exactly one write and one navigation, of a record holding those four turns and those two errors |
| Scenarios.ScoreNineIsGreat | src/app/api/feedback/route.ts:5-9 | a report scored 9 is sent with the label "Great", and the same report without a score with "Keep Practicing" |
| Scenarios.EitherOrderEndsOnce | src/app/lesson/page.tsx:47-98 | the last tick and the connection closing, in either order, write the same record once and navigate once |

## Left out

- Rendering (the React markup, progress bar width, subtitles panel, buttons) is not modelled; only which of the three screens shows is (`Lesson.ViewOf`).
- The subtitle stream listener (`src/app/lesson/page.tsx:119-127`) only sets display text and is not modelled.
- `streamToVideoElement`, the dynamic SDK import and the effect's cleanup (`clearInterval`, `disconnect`) are SDK and browser plumbing. A failure anywhere in the initialisation is the single `InitFailed` event.
- The one-second spacing of interval firings and real time are not modelled. A tick is an event, delivered while some interval is live.
- HTTP transport, `fetch`, logging to the console and the provider's own behaviour are replaced by function parameters.
- JSON parsing and serialisation are not modelled. `JSON.parse` of the answer is an abstract partial function. The request bodies are already-decoded records whose fields may be absent.
- The Japanese instruction text of the feedback prompt is not modelled. The prompt is represented by its variable parts, the rendered transcript and the errors.
- The feedback and prepare pages, and anything else outside the core named above, are not part of this model.
- `Lesson.EntryOf`: a non-string value in a tool payload is not modelled. Fields are optional strings, and only missing or empty fields take the default, which covers the strings the provider sends.
- `Timer.Display`: negative remaining times are not modelled. The controller never produces one, so JavaScript's truncating `%` on negatives does not arise.
- `FeedbackRoute.Normalize`: non-integer scores are not modelled. Scores are integers.
- `FeedbackRoute.FindFence`: its own contract states only that the capture is fence-free. Which text it captures is stated by `FindFenceCapture` together with `MatchFenceAt` and `FindFenceFirst`. Naming the matching position in its recursive contract made the proofs about `FindFence` too expensive.
- `FeedbackRoute.TurnLines`: a turn's role and content are always strings in the model. The route would print a missing role or content as `undefined` (`src/app/api/feedback/route.ts:37`), which the model does not represent.
- `Lesson.OnToggleMute`: the client is assumed to offer `muteInputAudio` and `unmuteInputAudio`. The source calls them with `?.()` (`src/app/lesson/page.tsx:39-41`), so a client without them would get no call, whereas the model records one.
- Floating point is not modelled: the progress percentage is absent and the voice-detection settings are exact reals.
