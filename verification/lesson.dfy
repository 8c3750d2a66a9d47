/** The lesson page's session controller (src/app/lesson/page.tsx). The page
    keeps its state in React refs and state hooks; here it is one record, and
    every SDK listener, the countdown callback, `handleSessionEnd` and
    `toggleMute` is a pure transition on it. Events are delivered one at a
    time, as the browser's event loop does. Writing to `sessionStorage` and
    `router.push("/feedback")` are recorded as the stored record and two
    counters; calls on the SDK client are recorded in a log. */
module Lesson {
  import opened Wrappers
  import opened Types
  import Timer

  /** `TOTAL_SECONDS`: the countdown's starting value. */
  const TotalSeconds: nat := 180

  datatype Status = Connecting | Connected | Disconnected

  /** Calls the page makes on the SDK client. */
  datatype ClientCall = MuteInputAudio | UnmuteInputAudio

  datatype LessonState = LessonState(
    status: Status,
    /** `hasEndedRef`: the one-shot termination guard. */
    ended: bool,
    /** `timerRef` holds a running interval. */
    timerHeld: bool,
    /** Intervals started earlier whose handle was overwritten by a later
        connection signal; nothing clears them. */
    leakedTimers: nat,
    remaining: nat,
    /** `conversationRef`: the latest transcript snapshot. */
    transcript: seq<Turn>,
    /** `errorsRef`: every error reported so far, in arrival order. */
    errors: seq<ErrorEntry>,
    muted: bool,
    /** `anamClientRef` holds a client. */
    hasClient: bool,
    clientCalls: seq<ClientCall>,
    /** The `lessonData` record this page wrote to session storage. */
    stored: Option<SessionRecord>,
    storageWrites: nat,
    navigations: nat)

  /** The page's state when it mounts. */
  const Initial: LessonState := LessonState(
    Connecting, false, false, 0, TotalSeconds, [], [], false, false, [], None, 0, 0)

  /** Some interval is still firing. */
  predicate TimerLive(s: LessonState) {
    s.timerHeld || s.leakedTimers > 0
  }

  // ------------------------------------------------------------------ events

  /** The `eventData` of a tool event; a field is `None` when it is missing. */
  datatype ToolPayload = ToolPayload(
    original: Option<string>,
    corrected: Option<string>,
    explanation: Option<string>,
    category: Option<string>)

  /** An element of a history payload: an object whose fields may be missing,
      or `null`/`undefined`, which makes reading `msg.role` throw. */
  datatype RawMessage = Message(role: Option<string>, content: Option<string>) | Nullish

  datatype HistoryPayload = NotAnArray | MessageArray(items: seq<RawMessage>)

  datatype Event =
    /** `createClient(token)` returned and the client ref was set. */
    | ClientCreated
    /** The initialisation threw (SDK import, client creation, listener
        registration or streaming setup). */
    | InitFailed
    | Established
    /** One firing of the one-second interval. */
    | Tick
    | Closed
    | ToolEvent(eventName: string, eventData: Option<ToolPayload>, now: int)
    | HistoryUpdated(history: HistoryPayload)
    | ToggleMute

  // ------------------------------------------------------------- termination

  /** The record `handleSessionEnd` writes. */
  function RecordOf(s: LessonState): SessionRecord {
    SessionRecord(s.transcript, s.errors)
  }

  /** `handleSessionEnd`: the first call sets the guard, clears the held
      interval, writes the record, marks the connection closed and navigates;
      later calls change nothing. */
  function EndSession(s: LessonState): (r: LessonState)
    ensures s.ended ==> r == s
    ensures !s.ended ==> r.ended && !r.timerHeld && r.leakedTimers == s.leakedTimers
    ensures !s.ended ==> r.stored == Some(RecordOf(s)) && r.status == Disconnected
    ensures !s.ended ==> r.storageWrites == s.storageWrites + 1 && r.navigations == s.navigations + 1
    ensures r.transcript == s.transcript && r.errors == s.errors && r.remaining == s.remaining
    ensures r.muted == s.muted && r.hasClient == s.hasClient && r.clientCalls == s.clientCalls
  {
    if s.ended then s
    else s.(
      ended := true,
      timerHeld := false,
      stored := Some(RecordOf(s)),
      storageWrites := s.storageWrites + 1,
      status := Disconnected,
      navigations := s.navigations + 1)
  }

  /** A second termination, by whatever trigger, is a no-op. */
  lemma EndSessionIdempotent(s: LessonState)
    ensures EndSession(EndSession(s)) == EndSession(s)
    ensures EndSession(s).ended
  {
  }

  // ---------------------------------------------------------------- handlers

  /** `CONNECTION_ESTABLISHED`: mark connected and start a one-second
      interval, overwriting (not clearing) any interval already held. */
  function OnEstablished(s: LessonState): (r: LessonState)
    ensures r.status == Connected && r.timerHeld
    ensures r.leakedTimers == s.leakedTimers + (if s.timerHeld then 1 else 0)
    ensures r.ended == s.ended && r.stored == s.stored && r.remaining == s.remaining
    ensures r == s.(status := Connected, timerHeld := true, leakedTimers := r.leakedTimers)
  {
    s.(status := Connected,
       timerHeld := true,
       leakedTimers := s.leakedTimers + (if s.timerHeld then 1 else 0))
  }

  /** The interval callback: at one second or less left the session ends and
      the countdown shows 0; otherwise it drops by one second. */
  function OnTick(s: LessonState): (r: LessonState)
    ensures s.remaining <= 1 ==> r.remaining == 0 && r.ended
    ensures s.remaining <= 1 && !s.ended ==> r.stored == Some(RecordOf(s))
    ensures s.remaining <= 1 && !s.ended ==> !r.timerHeld && r.status == Disconnected
    ensures s.remaining <= 1 && !s.ended ==>
              r.storageWrites == s.storageWrites + 1 && r.navigations == s.navigations + 1
    ensures s.remaining <= 1 ==> r == EndSession(s).(remaining := 0)
    ensures s.remaining > 1 ==> r == s.(remaining := s.remaining - 1)
    ensures r.remaining <= s.remaining
  {
    if s.remaining <= 1 then EndSession(s).(remaining := 0)
    else s.(remaining := s.remaining - 1)
  }

  /** `data.x || default`: a missing or empty value takes the default. */
  function OrDefault(v: Option<string>, default: string): (r: string)
    ensures v.Some? && v.value != "" ==> r == v.value
    ensures v.None? || v.value == "" ==> r == default
  {
    if v.Some? && v.value != "" then v.value else default
  }

  /** The error entry a `log_error` event produces; `eventData || {}` turns a
      missing payload into one with every field missing. */
  function EntryOf(data: Option<ToolPayload>, now: int): (e: ErrorEntry)
    ensures data.None? ==> e == ErrorEntry("", "", "", "grammar", now)
    ensures data.Some? ==> e == ErrorEntry(OrDefault(data.value.original, ""),
                                           OrDefault(data.value.corrected, ""),
                                           OrDefault(data.value.explanation, ""),
                                           OrDefault(data.value.category, "grammar"), now)
    ensures e.category != "" && e.timestamp == now
  {
    var d := data.GetOr(ToolPayload(None, None, None, None));
    ErrorEntry(
      OrDefault(d.original, ""),
      OrDefault(d.corrected, ""),
      OrDefault(d.explanation, ""),
      OrDefault(d.category, "grammar"),
      now)
  }

  /** `CLIENT_TOOL_EVENT_RECEIVED`: a `log_error` event appends one entry; any
      other event is ignored. There is no termination guard here. */
  function OnToolEvent(s: LessonState, name: string, data: Option<ToolPayload>, now: int): (r: LessonState)
    ensures name == "log_error" ==> r.errors == s.errors + [EntryOf(data, now)]
    ensures name == "log_error" ==> |r.errors| == |s.errors| + 1 && r.errors[..|s.errors|] == s.errors
    ensures name != "log_error" ==> r == s
    ensures r == s.(errors := r.errors)
  {
    if name == "log_error" then s.(errors := s.errors + [EntryOf(data, now)]) else s
  }

  /** A history payload that replaces the transcript: an array none of whose
      elements is `null` or `undefined`. */
  predicate Replaces(h: HistoryPayload) {
    h.MessageArray? && forall i :: 0 <= i < |h.items| ==> h.items[i].Message?
  }

  /** `{ role: msg.role || "unknown", content: msg.content || "" }`. */
  function TurnOf(m: RawMessage): (t: Turn)
    requires m.Message?
    ensures m.role.Some? && m.role.value != "" ==> t.role == m.role.value
    ensures m.role.None? || m.role.value == "" ==> t.role == "unknown"
    ensures m.content.Some? && m.content.value != "" ==> t.content == m.content.value
    ensures m.content.None? || m.content.value == "" ==> t.content == ""
  {
    Turn(OrDefault(m.role, "unknown"), OrDefault(m.content, ""))
  }

  /** The transcript an array of messages becomes, element by element. */
  function TurnsOf(items: seq<RawMessage>): (ts: seq<Turn>)
    requires forall i :: 0 <= i < |items| ==> items[i].Message?
    ensures |ts| == |items|
    ensures forall i :: 0 <= i < |items| ==>
              ts[i].role == OrDefault(items[i].role, "unknown")
              && ts[i].content == OrDefault(items[i].content, "")
  {
    seq(|items|, i requires 0 <= i < |items| => TurnOf(items[i]))
  }

  /** `MESSAGE_HISTORY_UPDATED`: an array replaces the transcript wholesale,
      element by element; anything else leaves it alone. */
  function OnHistory(s: LessonState, h: HistoryPayload): (r: LessonState)
    ensures Replaces(h) ==> |r.transcript| == |h.items|
    ensures Replaces(h) ==> forall i :: 0 <= i < |h.items| ==>
              r.transcript[i].role == OrDefault(h.items[i].role, "unknown")
              && r.transcript[i].content == OrDefault(h.items[i].content, "")
    ensures !Replaces(h) ==> r == s
    ensures r == s.(transcript := r.transcript)
  {
    if Replaces(h) then s.(transcript := TurnsOf(h.items)) else s
  }

  /** The `catch` of the initialisation: only the status changes. */
  function OnInitFailed(s: LessonState): (r: LessonState)
    ensures r.status == Disconnected && r == s.(status := Disconnected)
  {
    s.(status := Disconnected)
  }

  /** `toggleMute`: the flag always flips; a client, when there is one, is
      told to unmute if muted and to mute otherwise. */
  function OnToggleMute(s: LessonState): (r: LessonState)
    ensures r.muted == !s.muted
    ensures s.hasClient ==>
              r.clientCalls == s.clientCalls + [if s.muted then UnmuteInputAudio else MuteInputAudio]
    ensures !s.hasClient ==> r.clientCalls == s.clientCalls
    ensures r == s.(muted := r.muted, clientCalls := r.clientCalls)
  {
    s.(muted := !s.muted,
       clientCalls := if s.hasClient
                      then s.clientCalls + [if s.muted then UnmuteInputAudio else MuteInputAudio]
                      else s.clientCalls)
  }

  /** One event. A tick only happens while some interval is running. Once
      the session has ended no event rewrites the record, writes again or
      navigates again; the countdown never rises. */
  function Step(s: LessonState, e: Event): (r: LessonState)
    ensures s.ended ==> r.ended && r.stored == s.stored
    ensures s.ended ==> r.storageWrites == s.storageWrites && r.navigations == s.navigations
    ensures r.remaining <= s.remaining
  {
    match e
    case ClientCreated => s.(hasClient := true)
    case InitFailed => OnInitFailed(s)
    case Established => OnEstablished(s)
    case Tick => if TimerLive(s) then OnTick(s) else s
    case Closed => EndSession(s)
    case ToolEvent(name, data, now) => OnToolEvent(s, name, data, now)
    case HistoryUpdated(h) => OnHistory(s, h)
    case ToggleMute => OnToggleMute(s)
  }

  /** A sequence of events, in delivery order. */
  function Run(s: LessonState, es: seq<Event>): (r: LessonState)
    decreases |es|
  {
    if es == [] then s else Run(Step(s, es[0]), es[1..])
  }

  lemma {:induction false} RunSnoc(s: LessonState, es: seq<Event>, e: Event)
    ensures Run(s, es + [e]) == Step(Run(s, es), e)
    decreases |es|
  {
    if es == [] {
      assert [] + [e] == [e];
    } else {
      assert (es + [e])[1..] == es[1..] + [e];
      RunSnoc(Step(s, es[0]), es[1..], e);
    }
  }

  // ------------------------------------------------------------- invariants

  /** What holds of every state the page can reach: the record is written
      at most once, exactly when the guard is set, and each write comes with
      one navigation. */
  ghost predicate OneShot(s: LessonState) {
    && s.storageWrites <= 1
    && s.navigations == s.storageWrites
    && (s.ended <==> s.storageWrites == 1)
    && (s.ended <==> s.stored.Some?)
  }

  lemma StepOneShot(s: LessonState, e: Event)
    requires OneShot(s)
    ensures OneShot(Step(s, e))
    ensures s.ended ==> Step(s, e).stored == s.stored
  {
  }

  /** Termination is one-shot over any event sequence: the record is written
      at most once, with exactly one navigation, and once written it never
      changes. */
  lemma {:induction false} RunOneShot(s: LessonState, es: seq<Event>)
    requires OneShot(s)
    ensures OneShot(Run(s, es))
    ensures s.ended ==> Run(s, es).ended && Run(s, es).stored == s.stored
    decreases |es|
  {
    if es != [] {
      StepOneShot(s, es[0]);
      RunOneShot(Step(s, es[0]), es[1..]);
    }
  }

  /** From the page's initial state: at most one write and one navigation. */
  lemma InitialOneShot(es: seq<Event>)
    ensures Run(Initial, es).storageWrites <= 1
    ensures Run(Initial, es).navigations == Run(Initial, es).storageWrites
    ensures Run(Initial, es).ended <==> Run(Initial, es).stored.Some?
    ensures Run(Initial, es).ended <==> Run(Initial, es).storageWrites == 1
  {
    RunOneShot(Initial, es);
  }

  /** The entry one event adds to the error list: one for a `log_error`
      tool call, none for anything else. */
  function LoggedBy(e: Event): seq<ErrorEntry> {
    match e
    case ToolEvent(name, data, now) => if name == "log_error" then [EntryOf(data, now)] else []
    case _ => []
  }

  /** The entries the `log_error` events of `es` produce, in order. */
  function LoggedErrors(es: seq<Event>): seq<ErrorEntry>
    decreases |es|
  {
    if es == [] then [] else LoggedBy(es[0]) + LoggedErrors(es[1..])
  }

  lemma StepErrors(s: LessonState, e: Event)
    ensures Step(s, e).errors == s.errors + LoggedBy(e)
  {
    match e
    case ToolEvent(name, data, now) =>
    case Tick =>
    case Closed =>
    case _ =>
  }

  /** The error list only grows: after any events it is the old list followed
      by one entry per `log_error` event, in arrival order, whether or not the
      session has ended. */
  lemma {:induction false} RunErrors(s: LessonState, es: seq<Event>)
    ensures Run(s, es).errors == s.errors + LoggedErrors(es)
    decreases |es|
  {
    if es == [] {
      assert s.errors + [] == s.errors;
    } else {
      var t := Step(s, es[0]);
      assert Run(s, es) == Run(t, es[1..]);
      StepErrors(s, es[0]);
      RunErrors(t, es[1..]);
      assert (s.errors + LoggedBy(es[0])) + LoggedErrors(es[1..])
          == s.errors + (LoggedBy(es[0]) + LoggedErrors(es[1..]));
    }
  }

  /** The payload of the last history event of `es` that replaces the
      transcript, if there is one. */
  function LastReplacement(es: seq<Event>): (r: Option<seq<RawMessage>>)
    ensures r.Some? ==> forall i :: 0 <= i < |r.value| ==> r.value[i].Message?
    decreases |es|
  {
    if es == [] then None
    else
      var e := es[|es| - 1];
      if e.HistoryUpdated? && Replaces(e.history) then Some(e.history.items)
      else LastReplacement(es[..|es| - 1])
  }

  lemma StepTranscript(s: LessonState, e: Event)
    ensures e.HistoryUpdated? && Replaces(e.history) ==>
              Step(s, e).transcript == TurnsOf(e.history.items)
    ensures !(e.HistoryUpdated? && Replaces(e.history)) ==>
              Step(s, e).transcript == s.transcript
  {
  }

  /** The transcript is replaced, never appended to: after any events it is
      the mapping of the last array payload, or the old transcript when no
      array arrived. */
  lemma {:induction false} RunTranscript(s: LessonState, es: seq<Event>)
    ensures LastReplacement(es).None? ==> Run(s, es).transcript == s.transcript
    ensures LastReplacement(es).Some? ==> Run(s, es).transcript == TurnsOf(LastReplacement(es).value)
    decreases |es|
  {
    if es != [] {
      var pre := es[..|es| - 1];
      var e := es[|es| - 1];
      assert es == pre + [e];
      RunSnoc(s, pre, e);
      RunTranscript(s, pre);
      StepTranscript(Run(s, pre), e);
      if e.HistoryUpdated? && Replaces(e.history) {
        assert LastReplacement(es) == Some(e.history.items);
      } else {
        assert LastReplacement(es) == LastReplacement(pre);
      }
    }
  }

  /** Two array updates in a row leave exactly the second. */
  lemma HistoryReplaces(s: LessonState, a: HistoryPayload, b: HistoryPayload)
    requires Replaces(b)
    ensures OnHistory(OnHistory(s, a), b) == OnHistory(s, b)
  {
  }

  // --------------------------------------------------------------- countdown

  /** `n` firings of the interval. */
  function Ticks(n: nat): (es: seq<Event>)
    ensures |es| == n && forall i :: 0 <= i < n ==> es[i] == Tick
  {
    seq(n, _ => Tick)
  }

  /** While more than `k` seconds remain, `k` ticks only count down. */
  lemma {:induction false} CountDown(s: LessonState, k: nat)
    requires s.timerHeld && !s.ended && k < s.remaining
    ensures Run(s, Ticks(k)) == s.(remaining := s.remaining - k)
    decreases k
  {
    if k > 0 {
      assert Ticks(k)[0] == Tick;
      assert Ticks(k)[1..] == Ticks(k - 1);
      CountDown(s.(remaining := s.remaining - 1), k - 1);
    }
  }

  /** With `r` seconds left and a running interval, the session is still
      live after `r - 1` ticks and ends on the `r`-th, writing the record
      current at that moment and leaving the countdown at 0. */
  lemma EndsOnLastTick(s: LessonState)
    requires s.timerHeld && !s.ended && s.remaining >= 1
    ensures !Run(s, Ticks(s.remaining - 1)).ended
    ensures Run(s, Ticks(s.remaining - 1)).remaining == 1
    ensures Run(s, Ticks(s.remaining)).ended
    ensures Run(s, Ticks(s.remaining)).remaining == 0
    ensures Run(s, Ticks(s.remaining)).stored == Some(RecordOf(s))
  {
    var r := s.remaining;
    CountDown(s, r - 1);
    assert Ticks(r) == Ticks(r - 1) + [Tick];
    RunSnoc(s, Ticks(r - 1), Tick);
  }

  /** The events of a normal start: the client is created and connects. */
  const Started: seq<Event> := [ClientCreated, Established]

  /** From 180 seconds the session ends on the 180th tick and not before;
      the warning colour shows from the 150th tick on. */
  lemma FullSessionLength(k: nat)
    requires k < TotalSeconds
    ensures !Run(Initial, Started + Ticks(k)).ended
    ensures Run(Initial, Started + Ticks(k)).remaining == TotalSeconds - k
    ensures Timer.IsWarning(Run(Initial, Started + Ticks(k)).remaining) <==> k >= 150
    ensures Run(Initial, Started + Ticks(TotalSeconds)).ended
    ensures Run(Initial, Started + Ticks(TotalSeconds)).remaining == 0
  {
    var s := Run(Initial, Started);
    assert s == Initial.(status := Connected, timerHeld := true, hasClient := true);
    RunAppend(Initial, Started, Ticks(k));
    RunAppend(Initial, Started, Ticks(TotalSeconds));
    CountDown(s, k);
    EndsOnLastTick(s);
  }

  lemma {:induction false} RunAppend(s: LessonState, a: seq<Event>, b: seq<Event>)
    ensures Run(s, a + b) == Run(Run(s, a), b)
    decreases |a|
  {
    if a != [] {
      assert (a + b)[1..] == a[1..] + b;
      RunAppend(Step(s, a[0]), a[1..], b);
    } else {
      assert a + b == b;
    }
  }

  // ------------------------------------------------------------------- views

  datatype View = SessionNotFound | ConnectionFailed | LiveLesson(showConnecting: bool)

  /** Which screen the page renders: "session not found" without an
      instructor or a token, the connection-failed screen only for a live
      session that lost its connection, and otherwise the lesson, with the
      connecting overlay while the status is connecting. */
  function ViewOf(instructorFound: bool, tokenPresent: bool, s: LessonState): (v: View)
    ensures v == SessionNotFound <==> !instructorFound || !tokenPresent
    ensures v == ConnectionFailed <==>
              instructorFound && tokenPresent && s.status == Disconnected && !s.ended
    ensures v.LiveLesson? ==> v.showConnecting == (s.status == Connecting)
  {
    if !instructorFound || !tokenPresent then SessionNotFound
    else if s.status == Disconnected && !s.ended then ConnectionFailed
    else LiveLesson(s.status == Connecting)
  }

  /** A failed initialisation neither ends the session nor writes a record,
      and the page shows the connection-failed screen. */
  lemma InitFailureShowsFailure(s: LessonState)
    requires !s.ended
    ensures !Step(s, InitFailed).ended
    ensures Step(s, InitFailed).stored == s.stored
    ensures Step(s, InitFailed).storageWrites == s.storageWrites
    ensures Step(s, InitFailed).navigations == s.navigations
    ensures ViewOf(true, true, Step(s, InitFailed)) == ConnectionFailed
  {
  }

  /** A terminated session never shows the connection-failed screen. */
  lemma EndedNeverShowsFailure(s: LessonState, found: bool, token: bool)
    requires s.ended
    ensures ViewOf(found, token, s) != ConnectionFailed
  {
  }

  /** Only a failed initialisation leaves a live session disconnected. */
  lemma StepDisconnected(s: LessonState, e: Event)
    requires e != InitFailed
    requires Step(s, e).status == Disconnected && !Step(s, e).ended
    ensures s.status == Disconnected && !s.ended
  {
    match e
    case Tick =>
    case Closed =>
    case Established =>
    case _ =>
  }

  /** The connection-failed screen is only reachable through a failed
      initialisation. */
  lemma {:induction false} FailureScreenNeedsInitFailure(es: seq<Event>)
    requires Run(Initial, es).status == Disconnected && !Run(Initial, es).ended
    ensures InitFailed in es
    decreases |es|
  {
    if es == [] {
    } else {
      var pre := es[..|es| - 1];
      var e := es[|es| - 1];
      assert es == pre + [e];
      RunSnoc(Initial, pre, e);
      if e != InitFailed {
        StepDisconnected(Run(Initial, pre), e);
        FailureScreenNeedsInitFailure(pre);
      }
    }
  }

  // -------------------------------------------------------------------- mute

  /** Two toggles restore the flag; with a client they issue a mute and an
      unmute, in the order the flag dictates. */
  lemma ToggleTwice(s: LessonState)
    ensures OnToggleMute(OnToggleMute(s)).muted == s.muted
    ensures s.hasClient && !s.muted ==>
              OnToggleMute(OnToggleMute(s)).clientCalls == s.clientCalls + [MuteInputAudio, UnmuteInputAudio]
    ensures s.hasClient && s.muted ==>
              OnToggleMute(OnToggleMute(s)).clientCalls == s.clientCalls + [UnmuteInputAudio, MuteInputAudio]
  {
  }

  // ------------------------------------------------------- late error events

  /** A `log_error` event after termination still grows the live list but
      leaves the record already written untouched. */
  lemma LateErrorNotRecorded(s: LessonState, data: Option<ToolPayload>, now: int)
    requires s.ended
    ensures Step(s, ToolEvent("log_error", data, now)).errors == s.errors + [EntryOf(data, now)]
    ensures Step(s, ToolEvent("log_error", data, now)).stored == s.stored
  {
  }
}
