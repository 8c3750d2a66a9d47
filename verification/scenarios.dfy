/** Whole-flow properties that join the catalog, the two routes and the
    lesson controller. */
module Scenarios {
  import opened Wrappers
  import opened Types
  import opened Instructors
  import opened SessionRoute
  import opened FeedbackRoute
  import opened Lesson

  /** Asking for an "emma" session with a configured key and a provider that
      issues a token returns that token, and sends Emma's persona with the
      `log_error` tool. */
  lemma EmmaTokenIssued(key: Option<string>, provider: TokenRequest -> TokenReply, token: string)
    requires Configured(key)
    requires forall r :: provider(r) == Answered(200, Some(TokenJson(Some(token))))
    ensures var x := HandleSession(Some(SessionRequest(Some("emma"))), key, provider);
            && x.response == HttpResponse(200, TokenBody(Some(token)))
            && x.sent.Some?
            && x.sent.value.persona == GetInstructor("emma").value.personaConfig
            && x.sent.value.tools == [LogErrorTool]
  {
    GetInstructorTotal(Emma);
  }

  /** An unknown instructor is refused with 400 and the provider is never
      asked, whatever the key. */
  lemma UnknownInstructorScenario(key: Option<string>, provider: TokenRequest -> TokenReply)
    ensures HandleSession(Some(SessionRequest(Some("unknown"))), key, provider).response.status == 400
    ensures HandleSession(Some(SessionRequest(Some("unknown"))), key, provider).sent.None?
  {
    UnknownInstructorRefused("unknown", key, provider);
  }

  /** A lesson that connects, receives two `log_error` events and one history
      update with four turns, then runs its countdown out, writes exactly one
      record holding those four turns and two errors. */
  lemma LessonScenario(d1: Option<ToolPayload>, d2: Option<ToolPayload>, t1: int, t2: int,
                       m: seq<RawMessage>)
    requires |m| == 4 && forall i :: 0 <= i < 4 ==> m[i].Message?
    ensures var live := Started + [ToolEvent("log_error", d1, t1), ToolEvent("log_error", d2, t2),
                                   HistoryUpdated(MessageArray(m))];
            var s := Run(Initial, live + Ticks(TotalSeconds));
            && s.ended && s.storageWrites == 1 && s.navigations == 1
            && s.stored == Some(SessionRecord(TurnsOf(m), [EntryOf(d1, t1), EntryOf(d2, t2)]))
            && |s.stored.value.conversationHistory| == 4 && |s.stored.value.errors| == 2
  {
    var live := Started + [ToolEvent("log_error", d1, t1), ToolEvent("log_error", d2, t2),
                           HistoryUpdated(MessageArray(m))];
    var e1, e2, h := ToolEvent("log_error", d1, t1), ToolEvent("log_error", d2, t2),
                     HistoryUpdated(MessageArray(m));
    assert live == [ClientCreated, Established, e1, e2, h];
    assert live[1..] == [Established, e1, e2, h];
    assert live[1..][1..] == [e1, e2, h];
    assert live[1..][1..][1..] == [e2, h];
    assert live[1..][1..][1..][1..] == [h];
    assert live[1..][1..][1..][1..][1..] == [];
    var s1 := Step(Initial, ClientCreated);
    var s2 := Step(s1, Established);
    var s3 := Step(s2, e1);
    var s4 := Step(s3, e2);
    var s5 := Step(s4, h);
    assert Run(s5, []) == s5;
    assert Run(s4, [h]) == s5;
    assert Run(s3, [e2, h]) == s5;
    assert Run(s2, [e1, e2, h]) == s5;
    assert Run(s1, [Established, e1, e2, h]) == s5;
    var p := Run(Initial, live);
    assert p == s5;
    assert p == Initial.(status := Connected, timerHeld := true, hasClient := true,
                         errors := [EntryOf(d1, t1), EntryOf(d2, t2)], transcript := TurnsOf(m));
    RunAppend(Initial, live, Ticks(TotalSeconds));
    EndsOnLastTick(p);
    assert Run(Initial, live + Ticks(TotalSeconds)) == Run(p, Ticks(p.remaining));
    assert RecordOf(p) == SessionRecord(TurnsOf(m), [EntryOf(d1, t1), EntryOf(d2, t2)]);
    InitialOneShot(live + Ticks(TotalSeconds));
  }

  /** A report scored 9 is sent with the label text "Great"; one with no
      score, with "Keep Practicing". */
  lemma ScoreNineIsGreat(p: ParsedFeedback)
    requires p.overallScore == Some(9)
    ensures Normalize(p).overallLabel == Great
    ensures Normalize(p).overallLabel.Text() == "Great"
    ensures Normalize(p.(overallScore := None)).overallLabel.Text() == "Keep Practicing"
  {
  }

  /** The countdown running out and the connection closing, in either order,
      write one record and navigate once. */
  lemma EitherOrderEndsOnce(s: LessonState)
    requires OneShot(s) && !s.ended && s.timerHeld && s.remaining == 1
    ensures Run(s, [Tick, Closed]).storageWrites == s.storageWrites + 1
    ensures Run(s, [Closed, Tick]).storageWrites == s.storageWrites + 1
    ensures Run(s, [Tick, Closed]).navigations == s.navigations + 1
    ensures Run(s, [Closed, Tick]).navigations == s.navigations + 1
    ensures Run(s, [Tick, Closed]).stored == Run(s, [Closed, Tick]).stored == Some(RecordOf(s))
  {
    assert [Tick, Closed][1..] == [Closed];
    assert [Closed, Tick][1..] == [Tick];
  }
}
