/** The static instructor catalog and its lookup (src/lib/instructors.ts). */
module Instructors {
  import opened Wrappers
  import opened Types

  /** The part of the system-prompt template between "You are <name>," and
      the instructor-specific style lines. */
  const PromptIntro: string :=
    " an experienced English conversation coach for advanced Japanese learners.\n\n## Your Role\n- Have a natural, engaging conversation in English for about 3 minutes.\n- You are NOT a traditional teacher correcting every mistake. You are a conversation partner.\n- Keep the conversation flowing naturally. Respond to what the user says, ask follow-up questions, share your own opinions.\n\n## Conversation Style\n"

  /** The part of the system-prompt template after the style lines. */
  const PromptRules: string :=
    "\n- Speak at a natural pace appropriate for advanced learners.\n- Use idiomatic expressions and natural phrasing.\n- If the user seems stuck, gently help them by rephrasing or suggesting vocabulary.\n\n## Internal Grammar Tracking (CRITICAL)\nWhile conversing naturally, internally track any grammar or expression errors the user makes. Do NOT correct them during conversation \U{2014} just note them silently.\n\nWhen you detect an error, use the \"log_error\" tool to record it with:\n- original: what the user actually said\n- corrected: the corrected version\n- explanation: brief explanation of the error (in Japanese)\n- category: \"grammar\" | \"vocabulary\" | \"expression\" | \"pronunciation_hint\"\n\n## Important Rules\n- NEVER break character to discuss errors during the conversation.\n- NEVER speak Japanese during the conversation.\n- Keep your responses concise (2-4 sentences) to allow the user to speak more.\n- The session is limited to 3 minutes \U{2014} make every moment count."

  /** `baseSystemPrompt(name, style)`: the shared coaching prompt, addressed
      to the instructor by name, with the instructor's own style lines. */
  function BaseSystemPrompt(name: string, style: string): (p: string)
    ensures Parts(p, "You are " + name + ",", PromptIntro, style, PromptRules)
  {
    var greeting := "You are " + name + ",";
    PartsOfConcat(greeting, PromptIntro, style, PromptRules);
    greeting + (PromptIntro + style + PromptRules)
  }

  /** `w` is `a`, `b`, `c` and `d` laid end to end: each sits at its own
      offset and nothing else is in `w`. */
  ghost predicate Parts(w: string, a: string, b: string, c: string, d: string) {
    && |w| == |a| + |b| + |c| + |d|
    && w[..|a|] == a
    && w[|a|..|a| + |b|] == b
    && w[|a| + |b|..|w| - |d|] == c
    && w[|w| - |d|..] == d
  }

  lemma PartsOfConcat(a: string, b: string, c: string, d: string)
    ensures Parts(a + (b + c + d), a, b, c, d)
  {
    var w := a + (b + c + d);
    assert w[..|a|] == a;
    assert w[|a|..|a| + |b|] == b;
    assert w[|a| + |b|..|w| - |d|] == c;
    assert w[|w| - |d|..] == d;
  }

  /** The style lines each instructor passes to the template. */
  function Style(id: InstructorId): string {
    match id
    case Emma => EmmaStyle
    case James => JamesStyle
    case Sophia => SophiaStyle
  }

  const EmmaStyle: string :=
    "- You are friendly, casual, and love to laugh.\n- Focus on daily life topics, personal stories, and casual conversation.\n- Use slang, idioms, and colloquial expressions naturally.\n- Create a warm, relaxed atmosphere like chatting with a close friend."

  const JamesStyle: string :=
    "- You are professional, logical, calm but sharp.\n- Focus on business scenarios, leadership, and strategic discussions.\n- Use formal business English, professional vocabulary, and structured arguments.\n- Challenge the user to think critically and present clear, logical points."

  const SophiaStyle: string :=
    "- You are intellectual, curious, and passionate about rich expression.\n- Focus on social issues, culture, philosophy, and thought-provoking topics.\n- Encourage the user to use nuanced vocabulary and complex sentence structures.\n- Ask probing questions that push the user to express deeper thoughts."

  /** The session length every persona asks the provider for, in seconds. */
  const MaxSessionSeconds: int := 180

  const SharedLlmId: string := "0934d97d-0c3a-4f33-91b0-5e136a0ef466"

  const SharedVoiceDetection: VoiceDetectionOptions := VoiceDetectionOptions(0.8, 0.5)

  // The names each entry hands to the prompt template.
  const EmmaName: string := "Emma"

  const EmmaEntry: Instructor := Instructor(
    Emma, "Emma",
    "Let's chat like friends! I love hearing about your daily life.",
    "Warm and approachable. Speaks with natural idioms and casual expressions like a close friend.",
    ["Daily Conversation", "Idioms"],
    "/instructors/emma.png",
    "What's the most interesting thing that happened to you recently?",
    PersonaConfig(
      "Emma",
      "071b0286-4cce-4808-bee2-e642f1062de3",
      "4bdb224b-0342-4986-9831-69a1f059103d",
      SharedLlmId,
      BaseSystemPrompt(EmmaName, EmmaStyle),
      MaxSessionSeconds, false, SharedVoiceDetection))

  const JamesName: string := "James"

  const JamesEntry: Instructor := Instructor(
    James, "James",
    "Let's sharpen your professional English through real scenarios.",
    "Calm and professional. Uses formal business vocabulary with clear, structured arguments.",
    ["Business English", "Discussion"],
    "/instructors/james.png",
    "Your team proposes a remote-first policy. How would you present this to senior management?",
    PersonaConfig(
      "James",
      "81b70170-2e80-4e4b-a6fb-e04ac110dc4b",
      "c0954b69-9a2a-4fe2-8134-4e43be70f066",
      SharedLlmId,
      BaseSystemPrompt(JamesName, JamesStyle),
      MaxSessionSeconds, false, SharedVoiceDetection))

  const SophiaName: string := "Sophia"

  const SophiaEntry: Instructor := Instructor(
    Sophia, "Sophia",
    "I love deep conversations. Let's explore ideas together.",
    "Intellectual and curious. Encourages nuanced vocabulary and deep, thought-provoking discussions.",
    ["Critical Thinking", "Culture"],
    "/instructors/sophia.png",
    "Describe a moment that completely changed your perspective on something.",
    PersonaConfig(
      "Sophia",
      "6dbc1e47-7768-403e-878a-94d7fcc3677b",
      "1c6fa8a7-9aa4-4a17-a75e-3e5eb863fccf",
      SharedLlmId,
      BaseSystemPrompt(SophiaName, SophiaStyle),
      MaxSessionSeconds, false, SharedVoiceDetection))

  /** The `instructors` array, in display order. */
  const Catalog: seq<Instructor> := [EmmaEntry, JamesEntry, SophiaEntry]

  /** `list.find(i => i.id === id)`: the first entry whose identifier is
      `id`, or nothing when no entry has it. */
  function FindById(list: seq<Instructor>, id: string): (r: Option<Instructor>)
    ensures r.None? <==> forall k :: 0 <= k < |list| ==> list[k].id.Text() != id
    ensures r.Some? ==> r.value.id.Text() == id
    ensures r.Some? ==> exists k :: 0 <= k < |list| && list[k] == r.value
                                     && forall j :: 0 <= j < k ==> list[j].id.Text() != id
  {
    if list == [] then None
    else if list[0].id.Text() == id then Some(list[0])
    else
      var r := FindById(list[1..], id);
      assert r.Some? ==> exists k :: 1 <= k < |list| && list[k] == r.value
                                     && forall j :: 0 <= j < k ==> list[j].id.Text() != id
        by {
          if r.Some? {
            var k :| 0 <= k < |list[1..]| && list[1..][k] == r.value
                     && forall j :: 0 <= j < k ==> list[1..][j].id.Text() != id;
            assert list[k + 1] == r.value;
          }
        }
      r
  }

  /** `getInstructor(id)`: the catalog entry carrying `id`, if any. */
  function GetInstructor(id: string): (r: Option<Instructor>)
    ensures r.Some? ==> r.value in Catalog && r.value.id.Text() == id
  {
    FindById(Catalog, id)
  }

  /** The identifiers the catalog answers to. */
  predicate KnownId(id: string) {
    id == "emma" || id == "james" || id == "sophia"
  }

  /** The catalog has exactly one entry per instructor identifier, in the
      order emma, james, sophia. */
  lemma CatalogShape()
    ensures |Catalog| == 3
    ensures Catalog[0].id == Emma && Catalog[1].id == James && Catalog[2].id == Sophia
    ensures forall i, j :: 0 <= i < j < |Catalog| ==> Catalog[i].id.Text() != Catalog[j].id.Text()
  {
  }

  /** Looking up a string succeeds exactly for the three known identifiers,
      and the entry found carries that identifier. */
  lemma GetInstructorSpec(id: string)
    ensures GetInstructor(id).Some? <==> KnownId(id)
    ensures GetInstructor(id).Some? ==> GetInstructor(id).value.id.Text() == id
  {
    assert Catalog[0].id.Text() == "emma";
    assert Catalog[1].id.Text() == "james";
    assert Catalog[2].id.Text() == "sophia";
  }

  /** Every identifier of the closed enumeration looks up to its own entry. */
  lemma GetInstructorTotal(iid: InstructorId)
    ensures GetInstructor(iid.Text()).Some?
    ensures GetInstructor(iid.Text()).value.id == iid
    ensures GetInstructor(iid.Text()).value in Catalog
  {
    GetInstructorSpec(iid.Text());
    var r := GetInstructor(iid.Text());
    assert r.value.id.Text() == iid.Text();
  }

  lemma PrefixOfConcat(a: string, b: string)
    ensures |a + b| >= |a| && (a + b)[..|a|] == a
  {
  }

  /** Every persona: a 180-second session, the greeting kept, the same name as
      its instructor, and the shared prompt addressed to that name. */
  lemma PersonaInvariants()
    ensures forall c :: c in Catalog ==>
      && c.personaConfig.maxSessionLengthSeconds == 180
      && !c.personaConfig.skipGreeting
      && c.personaConfig.name == c.name
      && c.personaConfig.systemPrompt == BaseSystemPrompt(c.name, Style(c.id))
  {
  }

  /** Each system prompt begins "You are <name>,". */
  lemma PromptsGreetByName(c: Instructor)
    requires c in Catalog
    ensures c.personaConfig.systemPrompt[..|c.name| + 9] == "You are " + c.name + ","
  {
    PersonaInvariants();
  }
}
