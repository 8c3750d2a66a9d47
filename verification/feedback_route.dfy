/** The feedback API route (src/app/api/feedback/route.ts): validates the
    request, renders the transcript for the text-generation provider, strips a
    Markdown code fence from the provider's answer, and normalises the parsed
    object into a report. The provider call and `JSON.parse` are inputs: the
    provider is a function from the prompt's variable part to its reply, and
    parsing is an opaque partial function. */
module FeedbackRoute {
  import opened Wrappers
  import opened Text
  import opened Types

  // ------------------------------------------------------------------ labels

  /** `deriveLabel(score)`: each label belongs to exactly one band of
      scores. */
  function DeriveLabel(score: int): (l: OverallLabel)
    ensures l == Great <==> score >= 8
    ensures l == Good <==> 5 <= score < 8
    ensures l == KeepPracticing <==> score < 5
  {
    if score >= 8 then Great
    else if score >= 5 then Good
    else KeepPracticing
  }

  /** The order of the labels, worst first. */
  function Rank(l: OverallLabel): nat {
    match l
    case KeepPracticing => 0
    case Good => 1
    case Great => 2
  }

  /** The band edges: 4 and 5, 7 and 8 fall on different sides. */
  lemma DeriveLabelBoundaries()
    ensures DeriveLabel(4) == KeepPracticing && DeriveLabel(5) == Good
    ensures DeriveLabel(7) == Good && DeriveLabel(8) == Great
    ensures DeriveLabel(10) == Great
  {
  }

  /** A higher score never gets a worse label. */
  lemma DeriveLabelMonotone(a: int, b: int)
    requires a <= b
    ensures Rank(DeriveLabel(a)) <= Rank(DeriveLabel(b))
  {
  }

  /** The label of a score that may be missing from the provider's answer:
      `undefined >= 8` and `undefined >= 5` are both false in JavaScript. */
  function LabelOf(score: Option<int>): (l: OverallLabel)
    ensures score.None? ==> l == KeepPracticing
    ensures score.Some? ==> l == DeriveLabel(score.value)
  {
    match score
    case Some(s) => DeriveLabel(s)
    case None => DeriveLabel(0)
  }

  // -------------------------------------------------------------- transcript

  /** One transcript line, `${role}: ${content}`. */
  function TurnLine(t: Turn): (line: string) {
    t.role + ": " + t.content
  }

  /** The transcript lines: one `role: content` line per turn, in order. */
  function TurnLines(ts: seq<Turn>): (r: seq<string>)
    ensures |r| == |ts|
    ensures forall i :: 0 <= i < |ts| ==> r[i] == ts[i].role + ": " + ts[i].content
  {
    seq(|ts|, i requires 0 <= i < |ts| => TurnLine(ts[i]))
  }

  /** The conversation as the prompt shows it: one line per turn, in order,
      joined with line feeds. */
  function RenderTranscript(ts: seq<Turn>): (r: string)
    ensures ts == [] ==> r == ""
    ensures |ts| == 1 ==> r == ts[0].role + ": " + ts[0].content
  {
    Join(TurnLines(ts), "\n")
  }

  /** Rendering one more turn appends one line feed and that turn's line. */
  lemma RenderTranscriptSnoc(ts: seq<Turn>, t: Turn)
    requires ts != []
    ensures RenderTranscript(ts + [t]) == RenderTranscript(ts) + "\n" + t.role + ": " + t.content
  {
    assert TurnLines(ts + [t]) == TurnLines(ts) + [TurnLine(t)];
    JoinSnoc(TurnLines(ts), TurnLine(t), "\n");
  }

  // ------------------------------------------------------------------ fences

  /** Greedy `\s*`: the first index at or after `p` that is not white space. */
  function SkipSpaces(s: string, p: nat): (q: nat)
    requires p <= |s|
    ensures p <= q <= |s|
    ensures forall k :: p <= k < q ==> IsSpace(s[k])
    ensures q < |s| ==> !IsSpace(s[q])
    decreases |s| - p
  {
    if p < |s| && IsSpace(s[p]) then SkipSpaces(s, p + 1) else p
  }

  /** Some fence starts at or after `p`. */
  ghost predicate FenceFrom(s: string, p: int) {
    exists j :: p <= j && FenceAt(s, j)
  }

  /** Lazy `([\s\S]*?)```` from `p`: the first fence at or after `p`. */
  function FirstFenceFrom(s: string, p: nat): (r: Option<nat>)
    ensures r.Some? ==> p <= r.value && FenceAt(s, r.value)
    ensures r.Some? ==> forall k :: p <= k < r.value ==> !FenceAt(s, k)
    ensures r.None? <==> !FenceFrom(s, p)
    decreases |s| - p
  {
    if p + 3 > |s| then None
    else if FenceAt(s, p) then Some(p)
    else FirstFenceFrom(s, p + 1)
  }

  /** White space is never part of a fence, so skipping it before looking
      for the first fence finds the same one. */
  lemma {:induction false} FirstFenceSkip(s: string, p: nat)
    requires p <= |s|
    ensures FirstFenceFrom(s, SkipSpaces(s, p)) == FirstFenceFrom(s, p)
    decreases |s| - p
  {
    if p < |s| && IsSpace(s[p]) {
      assert !FenceAt(s, p);
      FirstFenceSkip(s, p + 1);
    }
  }

  /** The captured block text: everything from `p` up to the first fence at
      or after it. */
  function CaptureFrom(s: string, p: nat): (r: Option<string>)
    requires p <= |s|
    ensures r.Some? <==> FenceFrom(s, p)
    ensures r.Some? ==> NoFence(r.value)
    ensures r.Some? ==> FirstFenceFrom(s, p).Some? && r.value == s[p..FirstFenceFrom(s, p).value]
  {
    match FirstFenceFrom(s, p)
    case None => None
    case Some(j) =>
      var c := s[p..j];
      assert NoFence(c) by {
        forall k | 0 <= k < |c| ensures !FenceAt(c, k) {
          assert FenceAt(c, k) ==> FenceAt(s, p + k);
        }
      }
      Some(c)
  }

  /** The optional `json` language tag right after an opening fence. */
  predicate JsonTagAt(s: string, q: nat) {
    q + 4 <= |s| && s[q] == 'j' && s[q + 1] == 's' && s[q + 2] == 'o' && s[q + 3] == 'n'
  }

  /** The `json` tag holds no backtick, so looking past it for the closing
      fence finds the same fence as looking from the end of the marker. */
  lemma FirstFenceSkipTag(s: string, i: nat)
    requires JsonTagAt(s, i + 3)
    ensures FirstFenceFrom(s, i + 7) == FirstFenceFrom(s, i + 3)
  {
    assert !FenceAt(s, i + 3) && !FenceAt(s, i + 4) && !FenceAt(s, i + 5) && !FenceAt(s, i + 6);
  }

  /** Where the capture of a match at the fence `i` begins: past the marker,
      past the `json` tag when a closing fence still follows it, and past the
      white space `\s*` takes. From there, the closing fence is the first
      fence after the opening marker. */
  function CaptureStart(s: string, i: nat): (o: nat)
    requires i + 3 <= |s|
    ensures i + 3 <= o <= |s|
    ensures JsonTagAt(s, i + 3) && FenceFrom(s, i + 7) ==> o == SkipSpaces(s, i + 7)
    ensures !(JsonTagAt(s, i + 3) && FenceFrom(s, i + 7)) ==> o == SkipSpaces(s, i + 3)
    ensures FirstFenceFrom(s, o) == FirstFenceFrom(s, i + 3)
  {
    FirstFenceSkip(s, i + 3);
    if JsonTagAt(s, i + 3) && FirstFenceFrom(s, SkipSpaces(s, i + 7)).Some? then
      FirstFenceSkip(s, i + 7);
      FirstFenceSkipTag(s, i);
      SkipSpaces(s, i + 7)
    else
      assert JsonTagAt(s, i + 3) ==> FirstFenceFrom(s, SkipSpaces(s, i + 7)) == FirstFenceFrom(s, i + 7) by {
        if JsonTagAt(s, i + 3) {
          FirstFenceSkip(s, i + 7);
        }
      }
      SkipSpaces(s, i + 3)
  }

  /** The regular expression /```(?:json)?\s*([\s\S]*?)```/ anchored at `i`:
      the `json` alternative first, then the untagged one. Backtracking into
      `\s*` is not modelled separately: a fence cannot start on white space,
      so giving back spaces never finds a different closing fence. */
  function MatchFenceAt(s: string, i: nat): (r: Option<string>)
    ensures r.Some? ==> FenceAt(s, i) && NoFence(r.value)
    ensures FenceAt(s, i) && !FenceFrom(s, i + 3) ==> r.None?
    ensures r.Some? ==> i + 3 <= |s| && FirstFenceFrom(s, i + 3).Some?
                        && CaptureStart(s, i) <= FirstFenceFrom(s, i + 3).value
                        && r.value == s[CaptureStart(s, i)..FirstFenceFrom(s, i + 3).value]
  {
    if !FenceAt(s, i) then None
    else
      var tagged := if JsonTagAt(s, i + 3) then CaptureFrom(s, SkipSpaces(s, i + 7)) else None;
      if tagged.Some? then tagged else CaptureFrom(s, SkipSpaces(s, i + 3))
  }

  /** `String.prototype.match` with that expression: the capture of the
      leftmost starting position that matches. */
  function FindFence(s: string, i: nat): (r: Option<string>)
    ensures r.Some? ==> NoFence(r.value)
    decreases |s| - i
  {
    if i + 3 > |s| then None
    else match MatchFenceAt(s, i)
      case Some(c) => Some(c)
      case None => FindFence(s, i + 1)
  }

  /** Two fences, the second starting after the first one ends. */
  ghost predicate HasFencedBlock(s: string) {
    exists a, j :: 0 <= a && a + 3 <= j && FenceAt(s, a) && FenceAt(s, j)
  }

  /** `a` is the first fence of `s`, and another fence starts after it
      ends: the opening fence of the first block. */
  ghost predicate FirstOpening(s: string, a: nat) {
    FenceAt(s, a) && FenceFrom(s, a + 3) && forall k :: 0 <= k < a ==> !FenceAt(s, k)
  }

  /** The text handed to `JSON.parse`: the trimmed answer, or, when it holds a
      fenced block, the trimmed contents of the first one, from where the
      capture starts to the next fence. */
  function StripFences(text: string): (r: string)
    ensures Trim(r) == r
    ensures FindFence(Trim(text), 0).None? ==> r == Trim(text)
    ensures FindFence(Trim(text), 0).Some? ==> NoFence(r)
    ensures forall a: nat :: FirstOpening(Trim(text), a) ==>
              && FirstFenceFrom(Trim(text), a + 3).Some?
              && CaptureStart(Trim(text), a) <= FirstFenceFrom(Trim(text), a + 3).value
              && r == Trim(Trim(text)[CaptureStart(Trim(text), a)..FirstFenceFrom(Trim(text), a + 3).value])
  {
    var t := Trim(text);
    var found := FindFence(t, 0);
    var r := if found.Some? then Trim(found.value) else t;
    assert Trim(r) == r && (found.Some? ==> NoFence(r)) by {
      TrimIdempotent(text);
      if found.Some? {
        TrimIdempotent(found.value);
        TrimKeepsNoFence(found.value);
      }
    }
    assert forall a: nat :: FirstOpening(t, a) ==>
             && FirstFenceFrom(t, a + 3).Some?
             && CaptureStart(t, a) <= FirstFenceFrom(t, a + 3).value
             && r == Trim(t[CaptureStart(t, a)..FirstFenceFrom(t, a + 3).value])
    by {
      forall a: nat | FirstOpening(t, a)
        ensures && FirstFenceFrom(t, a + 3).Some?
                && CaptureStart(t, a) <= FirstFenceFrom(t, a + 3).value
                && r == Trim(t[CaptureStart(t, a)..FirstFenceFrom(t, a + 3).value])
      {
        FindFenceCapture(t, a);
      }
    }
    r
  }

  /** Skipping white space before looking for a fence finds the same fences. */
  lemma FenceFromSkip(s: string, p: nat)
    requires p <= |s|
    ensures FenceFrom(s, SkipSpaces(s, p)) <==> FenceFrom(s, p)
  {
    var q := SkipSpaces(s, p);
    if FenceFrom(s, p) {
      var j :| p <= j && FenceAt(s, j);
      assert q <= j;
    }
  }

  /** The expression matches at `i` exactly when a fence starts at `i` and
      another one starts after it. */
  lemma MatchFenceAtIff(s: string, i: nat)
    ensures MatchFenceAt(s, i).Some? <==> FenceAt(s, i) && FenceFrom(s, i + 3)
  {
    if FenceAt(s, i) {
      FenceFromSkip(s, i + 3);
      if JsonTagAt(s, i + 3) {
        FenceFromSkip(s, i + 7);
        if FenceFrom(s, i + 7) {
          var j :| i + 7 <= j && FenceAt(s, j);
          assert i + 3 <= j;
        }
      }
    }
  }

  /** A match exists at or after `i` exactly when two successive fences do. */
  lemma {:induction false} FindFenceIff(s: string, i: nat)
    ensures FindFence(s, i).Some? <==>
            exists a, j :: i <= a && a + 3 <= j && FenceAt(s, a) && FenceAt(s, j)
    decreases |s| - i
  {
    MatchFenceAtIff(s, i);
    if i + 3 <= |s| && MatchFenceAt(s, i).None? {
      FindFenceIff(s, i + 1);
      if exists a, j :: i <= a && a + 3 <= j && FenceAt(s, a) && FenceAt(s, j) {
        var a, j :| i <= a && a + 3 <= j && FenceAt(s, a) && FenceAt(s, j);
        assert a == i ==> FenceFrom(s, i + 3);
        assert i + 1 <= a;
      }
    }
  }

  /** The match found is the one at the first fence of the text. */
  lemma {:induction false} FindFenceFirst(s: string, i: nat, a: nat)
    requires i <= a && FenceAt(s, a) && FenceFrom(s, a + 3)
    requires forall k :: i <= k < a ==> !FenceAt(s, k)
    ensures MatchFenceAt(s, a).Some?
    ensures FindFence(s, i) == MatchFenceAt(s, a)
    decreases a - i
  {
    MatchFenceAtIff(s, a);
    if i < a {
      MatchFenceAtIff(s, i);
      FindFenceFirst(s, i + 1, a);
    }
  }

  /** `match` takes the text from the capture start of the first opening
      fence up to the next fence. */
  lemma FindFenceCapture(s: string, a: nat)
    requires FirstOpening(s, a)
    ensures FirstFenceFrom(s, a + 3).Some? && CaptureStart(s, a) <= FirstFenceFrom(s, a + 3).value
    ensures FindFence(s, 0) == Some(s[CaptureStart(s, a)..FirstFenceFrom(s, a + 3).value])
  {
    FindFenceFirst(s, 0, a);
  }

  /** When the expression matches, the result is the trimmed capture, which
      holds no fence. */
  lemma StripFencesMatched(text: string)
    requires FindFence(Trim(text), 0).Some?
    ensures StripFences(text) == Trim(FindFence(Trim(text), 0).value)
    ensures NoFence(StripFences(text))
  {
    TrimKeepsNoFence(FindFence(Trim(text), 0).value);
  }

  /** Without a fenced block the result is the trimmed text. */
  lemma StripFencesUnfenced(text: string)
    requires !HasFencedBlock(Trim(text))
    ensures StripFences(text) == Trim(text)
  {
    FindFenceIff(Trim(text), 0);
  }

  /** With a fenced block the result is fence-free. */
  lemma StripFencesBlock(text: string)
    requires HasFencedBlock(Trim(text))
    ensures NoFence(StripFences(text))
  {
    FindFenceIff(Trim(text), 0);
    StripFencesMatched(text);
  }

  /** A fence-free text is only trimmed. */
  lemma StripFencesNoFence(text: string)
    requires NoFence(Trim(text))
    ensures StripFences(text) == Trim(text)
  {
    StripFencesUnfenced(text);
  }

  /** Stripping twice is stripping once. */
  lemma StripFencesIdempotent(text: string)
    ensures StripFences(StripFences(text)) == StripFences(text)
  {
    var r := StripFences(text);
    var t := Trim(text);
    if HasFencedBlock(t) {
      FindFenceIff(t, 0);
      StripFencesMatched(text);
      TrimIdempotent(FindFence(t, 0).value);
      StripFencesNoFence(r);
    } else {
      StripFencesUnfenced(text);
      TrimIdempotent(text);
      StripFencesUnfenced(r);
    }
  }

  /** The code block the provider may wrap its answer in. */
  function Fenced(x: string): string {
    "```json\n" + x + "\n```"
  }

  /** The wrapped answer starts and ends with a fence, so `trim` keeps it. */
  lemma FencedIsTrimmed(x: string)
    ensures Trim(Fenced(x)) == Fenced(x)
  {
    var w := Fenced(x);
    assert w[0] == '`' && w[|w| - 1] == '`';
    TrimStartOfUntrimmed(w);
    TrimEndOfUntrimmed(w);
  }

  /** In a wrapped fence-free answer the expression matches at the opening
      fence, takes the `json` alternative and stops at the closing fence. */
  lemma FencedMatch(x: string)
    requires NoFence(x)
    ensures var w := Fenced(x);
            var p := SkipSpaces(w, 7);
            p <= |x| + 9 && FindFence(w, 0) == Some(w[p..|x| + 9])
  {
    var w := Fenced(x);
    var n := |w|;
    assert n == |x| + 12;
    assert FenceAt(w, 0) && JsonTagAt(w, 3);
    var p := SkipSpaces(w, 7);
    assert FenceAt(w, n - 3);
    assert w[7] == '\n' && w[8 + |x|] == '\n';
    forall k | p <= k < n - 3 ensures !FenceAt(w, k) {
      if 8 <= k && k + 3 <= 8 + |x| {
        assert w[k] == x[k - 8] && w[k + 1] == x[k - 7] && w[k + 2] == x[k - 6];
        assert !FenceAt(x, k - 8);
      }
    }
    assert FirstFenceFrom(w, p) == Some(n - 3);
    assert MatchFenceAt(w, 0) == Some(w[p..n - 3]);
  }

  /** Trimming what follows a greedy `\s*` is trimming from where it began. */
  lemma TrimAfterSkip(s: string, p: nat, q: nat)
    requires p <= q <= |s| && SkipSpaces(s, p) <= q
    ensures Trim(s[SkipSpaces(s, p)..q]) == Trim(s[p..q])
  {
    TrimAfterSpaces(s, p, SkipSpaces(s, p), q);
  }

  /** Between the `json` tag and the closing fence lies the answer between
      two line feeds. */
  lemma FencedBody(x: string)
    ensures |Fenced(x)| == |x| + 12
    ensures Fenced(x)[7..|x| + 9] == "\n" + x + "\n"
    ensures !IsSpace(Fenced(x)[|x| + 9])
  {
  }

  /** The blanks the expression skips and the line feeds around the answer
      all trim away. */
  lemma FencedCaptureTrims(x: string)
    ensures var w := Fenced(x);
            var p := SkipSpaces(w, 7);
            p <= |x| + 9 && Trim(w[p..|x| + 9]) == Trim(x)
  {
    FencedBody(x);
    TrimAfterSkip(Fenced(x), 7, |x| + 9);
    TrimIgnoresPadding("\n", x, "\n");
  }

  /** Unwrapping a fenced answer gives what the bare answer gives. */
  lemma StripFencedAnswer(x: string)
    requires NoFence(x)
    ensures StripFences(Fenced(x)) == StripFences(x)
  {
    FencedIsTrimmed(x);
    FencedMatch(x);
    FencedCaptureTrims(x);
    TrimKeepsNoFence(x);
    StripFencesNoFence(x);
  }

  // ----------------------------------------------------------- normalisation

  /** What `JSON.parse` may yield for the answer: an object whose fields may
      each be missing (or falsy, which the route treats alike). */
  datatype ParsedFeedback = ParsedFeedback(
    overallScore: Option<int>,
    summary: Option<string>,
    errors: Option<seq<FeedbackError>>,
    strengths: Option<seq<string>>,
    suggestions: Option<seq<string>>,
    naturalExpressions: Option<seq<NaturalExpression>>)

  /** A report whose label agrees with its score. */
  predicate LabelConsistent(d: FeedbackData) {
    d.overallLabel == LabelOf(d.overallScore)
  }

  /** Builds the report: score and summary copied, missing lists empty,
      present lists kept, label derived from the score. */
  function Normalize(p: ParsedFeedback): (d: FeedbackData)
    ensures LabelConsistent(d)
    ensures d.overallScore == p.overallScore && d.summary == p.summary
    ensures p.errors.Some? ==> d.errors == p.errors.value
    ensures p.errors.None? ==> d.errors == []
    ensures p.strengths.Some? ==> d.strengths == p.strengths.value
    ensures p.strengths.None? ==> d.strengths == []
    ensures p.suggestions.Some? ==> d.suggestions == p.suggestions.value
    ensures p.suggestions.None? ==> d.suggestions == []
    ensures p.naturalExpressions.Some? ==> d.naturalExpressions == p.naturalExpressions.value
    ensures p.naturalExpressions.None? ==> d.naturalExpressions == []
  {
    FeedbackData(
      p.overallScore,
      LabelOf(p.overallScore),
      p.summary,
      p.errors.GetOr([]),
      p.strengths.GetOr([]),
      p.suggestions.GetOr([]),
      p.naturalExpressions.GetOr([]))
  }

  /** A report read back as JSON: every list is present. */
  function AsParsed(d: FeedbackData): ParsedFeedback {
    ParsedFeedback(d.overallScore, d.summary, Some(d.errors), Some(d.strengths),
                   Some(d.suggestions), Some(d.naturalExpressions))
  }

  /** Normalising a finished report changes nothing, whatever label the
      provider claimed. */
  lemma NormalizeFixpoint(d: FeedbackData)
    requires LabelConsistent(d)
    ensures Normalize(AsParsed(d)) == d
  {
  }

  // ----------------------------------------------------------------- handler

  /** The request body `{ conversationHistory, errors }`; either may be absent. */
  datatype FeedbackRequest = FeedbackRequest(
    conversationHistory: Option<seq<Turn>>,
    errors: Option<seq<ErrorEntry>>)

  /** The variable part of the prompt sent to the provider. */
  datatype Prompt = Prompt(transcript: string, errors: Option<seq<ErrorEntry>>)

  datatype ContentBlock = TextBlock(text: string) | OtherBlock

  /** The provider call: it throws, or returns content blocks. */
  datatype ProviderReply = ProviderThrew | ProviderReplied(content: seq<ContentBlock>)

  /** The route's response and the prompt it sent, if it called the provider. */
  datatype FeedbackExchange = FeedbackExchange(response: HttpResponse, sent: Option<Prompt>)

  const NoConversationResponse: HttpResponse :=
    HttpResponse(400, ErrorBody("No conversation data provided"))

  const GenerationFailedResponse: HttpResponse :=
    HttpResponse(500, ErrorBody("Failed to generate feedback"))

  /** `!conversationHistory || conversationHistory.length === 0`. */
  predicate NoHistory(req: FeedbackRequest) {
    req.conversationHistory.None? || req.conversationHistory.value == []
  }

  /** The first content block's text, or "" when it is not a text block. */
  function FirstText(content: seq<ContentBlock>): string
    requires content != []
  {
    match content[0]
    case TextBlock(t) => t
    case OtherBlock => ""
  }

  /** Everything after the provider call; every exception (no content block,
      unparseable answer, provider failure) ends in the catch-all 500. */
  function Respond(reply: ProviderReply, parse: string -> Option<ParsedFeedback>): (r: HttpResponse)
    ensures r.status == 200 <==>
              reply.ProviderReplied? && reply.content != []
              && parse(StripFences(FirstText(reply.content))).Some?
    ensures r.status == 200 ==>
              r.body == FeedbackBody(Normalize(parse(StripFences(FirstText(reply.content))).value))
    ensures r.status != 200 ==> r == GenerationFailedResponse
  {
    match reply
    case ProviderThrew => GenerationFailedResponse
    case ProviderReplied(content) =>
      if content == [] then GenerationFailedResponse
      else
        match parse(StripFences(FirstText(content)))
        case None => GenerationFailedResponse
        case Some(p) => HttpResponse(200, FeedbackBody(Normalize(p)))
  }

  /** `POST /api/feedback`. `body` is `None` when the request body is not
      JSON (or is `null`): `request.json()` or the destructuring throws. */
  function HandleFeedback(
    body: Option<FeedbackRequest>,
    apiKey: Option<string>,
    provider: Prompt -> ProviderReply,
    parse: string -> Option<ParsedFeedback>): (x: FeedbackExchange)
    ensures x.sent.Some? <==> body.Some? && !NoHistory(body.value) && Configured(apiKey)
    ensures body.None? ==> x.response == GenerationFailedResponse
    ensures body.Some? && NoHistory(body.value) ==> x.response == NoConversationResponse
    ensures body.Some? && !NoHistory(body.value) && !Configured(apiKey) ==>
              x.response == MisconfiguredResponse
    ensures x.sent.Some? ==>
              x.sent.value == Prompt(RenderTranscript(body.value.conversationHistory.value), body.value.errors)
    ensures x.sent.Some? ==> x.response == Respond(provider(x.sent.value), parse)
    ensures x.response.status == 400 <==> body.Some? && NoHistory(body.value)
    ensures x.response.status == 200 ==>
              x.sent.Some? && x.response.body.FeedbackBody? && LabelConsistent(x.response.body.feedback)
    ensures x.response.status != 200 ==> x.response.body.ErrorBody?
  {
    match body
    case None => FeedbackExchange(GenerationFailedResponse, None)
    case Some(req) =>
      if NoHistory(req) then FeedbackExchange(NoConversationResponse, None)
      else if !Configured(apiKey) then FeedbackExchange(MisconfiguredResponse, None)
      else
        var prompt := Prompt(RenderTranscript(req.conversationHistory.value), req.errors);
        FeedbackExchange(Respond(provider(prompt), parse), Some(prompt))
  }

  /** `JSON.parse("")` throws, so a reply whose first block is not text (the
      route then parses "") always ends in the generic 500. */
  lemma NonTextReplyFails(content: seq<ContentBlock>, parse: string -> Option<ParsedFeedback>)
    requires content != [] && content[0].OtherBlock?
    requires parse("").None?
    ensures Respond(ProviderReplied(content), parse) == GenerationFailedResponse
  {
    assert Trim("") == "";
    assert FindFence("", 0).None?;
  }

  /** An answer wrapped in a ```json block yields the same response as the
      bare answer. */
  lemma FencedAnswerSameResponse(x: string, parse: string -> Option<ParsedFeedback>)
    requires NoFence(x)
    ensures Respond(ProviderReplied([TextBlock(Fenced(x))]), parse)
         == Respond(ProviderReplied([TextBlock(x)]), parse)
  {
    StripFencedAnswer(x);
  }
}
