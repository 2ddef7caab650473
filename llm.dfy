/**
 * The reply policy of server/src/llm.ts without the network: which providers
 * `runChatWithTools` may call under a configuration, in which order it tries them and what
 * it does with their answers, the web-search trigger, the message sanitizer, the agent's
 * context summary and citations, and the 40-character chunking of `streamAssistantResponse`.
 *
 * Every remote call (Tavily, the LangChain agent, OpenAI, Groq, OpenRouter, OpenAI
 * streaming) is a field of `Upstream`: a function from what the code sends to what comes
 * back, where an exception, a non-OK response or a failed import is a failure outcome.
 */
module Llm {
  import opened Wrappers
  import opened Text
  import opened Urls
  import opened Messages
  import opened Fallback

  // ---------------------------------------------------------------------------------
  // Configuration: the environment variables read by the policy.

  /**
   * `OFFLINE_MODE` and `LLM_PROVIDER` as strings (empty when unset); each key is present
   * when its variable is set to a non-empty string, which is what JavaScript's truthiness
   * tests.
   */
  datatype Config = Config(
    offlineMode: string,
    provider: string,
    openAiKey: bool,
    groqKey: bool,
    openRouterKey: bool,
    tavilyKey: bool)

  /** `(process.env.LLM_PROVIDER || '').toLowerCase()`. */
  function Selected(c: Config): string {
    LowerString(c.provider)
  }

  /** The offline rule: fallback responder only, no provider attempted. */
  predicate Offline(c: Config) {
    c.offlineMode == "1" || (!c.openAiKey && !c.groqKey && !c.openRouterKey)
  }

  /** `shouldUseOpenAI && OPENAI_API_KEY`: the LangChain agent runs. */
  predicate AgentEligible(c: Config) {
    (if Selected(c) != "" then Selected(c) == "openai" else c.openAiKey) && c.openAiKey
  }

  /** The guard of the direct OpenAI call; the streaming guard states the same condition. */
  predicate DirectEligible(c: Config) {
    (Selected(c) == "openai" || (Selected(c) == "" && c.openAiKey)) && c.openAiKey
  }

  predicate GroqEligible(c: Config) {
    (Selected(c) == "groq" || (Selected(c) == "" && !c.openAiKey && c.groqKey)) && c.groqKey
  }

  predicate OpenRouterEligible(c: Config) {
    (Selected(c) == "openrouter" || (Selected(c) == "" && !c.openAiKey && !c.groqKey && c.openRouterKey))
      && c.openRouterKey
  }

  /** The agent and the direct OpenAI call are guarded by the same condition, written twice. */
  lemma AgentIffDirect(c: Config)
    ensures AgentEligible(c) <==> DirectEligible(c)
  {
  }

  /**
   * At most one of the three chat providers is ever eligible, and the one that is needs
   * its own key; with no provider selected and a key present, exactly one is eligible
   * and it is the first with a key in the order OpenAI, Groq, OpenRouter.
   */
  lemma ProvidersExclusive(c: Config)
    ensures !(DirectEligible(c) && GroqEligible(c))
    ensures !(DirectEligible(c) && OpenRouterEligible(c))
    ensures !(GroqEligible(c) && OpenRouterEligible(c))
    ensures Selected(c) == "" ==>
      (DirectEligible(c) <==> c.openAiKey) &&
      (GroqEligible(c) <==> !c.openAiKey && c.groqKey) &&
      (OpenRouterEligible(c) <==> !c.openAiKey && !c.groqKey && c.openRouterKey)
  {
    if Selected(c) != "" {
      var s := Selected(c);
      assert s == "openai" || s == "groq" || s == "openrouter" || (s != "openai" && s != "groq" && s != "openrouter");
    }
  }

  /** A selected provider other than the three names makes every provider ineligible. */
  lemma UnknownSelectionIneligible(c: Config)
    requires Selected(c) != "" && Selected(c) != "openai" && Selected(c) != "groq" && Selected(c) != "openrouter"
    ensures !AgentEligible(c) && !DirectEligible(c) && !GroqEligible(c) && !OpenRouterEligible(c)
  {
  }

  // ---------------------------------------------------------------------------------
  // The search trigger, `/(latest|news|trends|research|market|compare|vs\b|source|cite|statistics)/i`.

  const keywords: seq<string> := ["latest", "news", "trends", "research", "market", "compare", "source", "cite", "statistics"]

  /**
   * `vs\b` at `p`: the `s` is a word character, so the boundary after it holds exactly
   * when the input ends there or the next character is not a word character.
   */
  predicate VsAt(s: string, p: nat) {
    HasAtCI(s, p, "vs") && !(p + 2 < |s| && IsWordChar(s[p + 2]))
  }

  /** One alternative of the pattern matches at `p`. */
  predicate KeywordAt(s: string, p: nat) {
    (exists k | k in keywords :: HasAtCI(s, p, k)) || VsAt(s, p)
  }

  /** `regex.test(s)` from position `p`: the pattern is tried at each position in turn. */
  function TriggerFrom(s: string, p: nat): bool
    decreases |s| - p
  {
    p < |s| && (KeywordAt(s, p) || TriggerFrom(s, p + 1))
  }

  predicate SearchTrigger(s: string) {
    TriggerFrom(s, 0)
  }

  /** The scan finds a match exactly when some position matches. */
  lemma {:induction false} TriggerFromSpec(s: string, p: nat)
    ensures TriggerFrom(s, p) <==> exists q | p <= q < |s| :: KeywordAt(s, q)
    decreases |s| - p
  {
    if p < |s| {
      TriggerFromSpec(s, p + 1);
      if !KeywordAt(s, p) && !TriggerFrom(s, p + 1) {
        forall q | p <= q < |s| ensures !KeywordAt(s, q) {
          if q > p {
            assert p + 1 <= q;
          }
        }
      }
    }
  }

  /** The trigger ignores the case of ASCII letters. */
  lemma TriggerIgnoresCase(s: string)
    ensures SearchTrigger(s) <==> SearchTrigger(LowerString(s))
  {
    var t := LowerString(s);
    forall p | 0 <= p < |s| ensures KeywordAt(s, p) <==> KeywordAt(t, p) {
      KeywordAtLower(s, p);
    }
    TriggerFromSpec(s, 0);
    TriggerFromSpec(t, 0);
  }

  lemma KeywordAtLower(s: string, p: nat)
    ensures KeywordAt(s, p) <==> KeywordAt(LowerString(s), p)
  {
    var t := LowerString(s);
    forall pat: string ensures HasAtCI(s, p, pat) <==> HasAtCI(t, p, pat) {
      HasAtCILower(s, p, pat);
    }
    if p + 2 < |s| {
      LowerKeepsWordChar(s[p + 2]);
    }
  }

  lemma HasAtCILower(s: string, p: nat, pat: string)
    ensures HasAtCI(s, p, pat) <==> HasAtCI(LowerString(s), p, pat)
  {
    var t := LowerString(s);
    forall j | p <= j < |s| ensures Lower(t[j]) == Lower(s[j]) {
      LowerIdempotent(s[j]);
    }
  }

  lemma LowerIdempotent(c: char)
    ensures Lower(Lower(c)) == Lower(c)
  {
  }

  lemma LowerKeepsWordChar(c: char)
    ensures IsWordChar(Lower(c)) <==> IsWordChar(c)
  {
  }

  /** `Boolean(last && regex.test(last.content))`: false when no user entry exists. */
  predicate ShouldSearch(ms: seq<Message>) {
    match LastWhere(ms, IsUserEntry)
    case Some(i) => SearchTrigger(ms[i].content)
    case None => false
  }

  /** The search query: the first 300 characters of the latest user entry. */
  function SearchQuery(ms: seq<Message>): (q: string)
    ensures |q| == if |LastUserText(ms)| < 300 then |LastUserText(ms)| else 300
    ensures q == LastUserText(ms)[..|q|]
  {
    Take(LastUserText(ms), 300)
  }

  lemma ShouldSearchSpec(ms: seq<Message>)
    ensures ShouldSearch(ms) <==>
      (exists i | 0 <= i < |ms| :: ms[i].role == User) && SearchTrigger(LastUserText(ms))
  {
    var r := LastWhere(ms, IsUserEntry);
    if r.None? {
      assert forall i | 0 <= i < |ms| :: !IsUserEntry(ms[i]);
    } else {
      assert IsUserEntry(ms[r.value]);
    }
  }

  // ---------------------------------------------------------------------------------
  // The web search and what it adds to the conversation.

  const preamble := "You are BizPilot, an AI business copilot for SMB owners. "
    + "You can search the web when needed using the tavily_search tool. Always cite sources succinctly."

  /** One search result: `r.content` is empty when the result has none. */
  datatype SearchHit = SearchHit(title: string, url: string, content: string)

  datatype SearchOutcome = SearchFailed | Hits(results: seq<SearchHit>)

  /** `- ${r.title} — ${r.url}\n${r.content?.slice(0, 300) || ''}`. */
  function HitEntry(h: SearchHit): string {
    "- " + h.title + " — " + h.url + "\n" + Take(h.content, 300)
  }

  function HitEntries(hs: seq<SearchHit>): (r: seq<string>)
    ensures |r| == |hs| && forall i | 0 <= i < |hs| :: r[i] == HitEntry(hs[i])
  {
    seq(|hs|, i requires 0 <= i < |hs| => HitEntry(hs[i]))
  }

  /** The search digest: the entries, in result order, separated by blank lines. */
  function Digest(hs: seq<SearchHit>): string {
    Join(HitEntries(hs), "\n\n")
  }

  /** Each further result adds a blank line and its entry at the end of the digest. */
  lemma DigestAppend(hs: seq<SearchHit>, h: SearchHit)
    requires hs != []
    ensures Digest(hs + [h]) == Digest(hs) + "\n\n" + HitEntry(h)
  {
    assert HitEntries(hs + [h]) == HitEntries(hs) + [HitEntry(h)];
    JoinAppend(HitEntries(hs), HitEntry(h), "\n\n");
  }

  const searchHeading := "Web search results (via Tavily):\n\n"

  /** The messages that go to the providers, and the tool results gathered so far. */
  datatype Prepared = Prepared(final: seq<Message>, tools: seq<ToolResult>)

  /**
   * The preamble before the conversation, and, when the trigger fires, a key is present
   * and the search succeeds, the digest as a system entry and as the only tool result.
   */
  function Prepare(c: Config, search: string -> SearchOutcome, ms: seq<Message>): (p: Prepared)
    ensures |p.tools| <= 1 && |p.final| == 1 + |ms| + |p.tools|
    ensures p.final[..1 + |ms|] == [SystemEntry(preamble)] + ms
    ensures p.tools != [] <==> ShouldSearch(ms) && c.tavilyKey && search(SearchQuery(ms)).Hits?
    ensures p.tools != [] ==>
      var d := Digest(search(SearchQuery(ms)).results);
      p.final[1 + |ms|] == SystemEntry(searchHeading + d) && p.tools == [ToolResult("tavily_search", d)]
  {
    var start := [SystemEntry(preamble)] + ms;
    if ShouldSearch(ms) && c.tavilyKey then
      match search(SearchQuery(ms))
      case Hits(hs) =>
        var d := Digest(hs);
        assert (start + [SystemEntry(searchHeading + d)])[..1 + |ms|] == start;
        Prepared(start + [SystemEntry(searchHeading + d)], [ToolResult("tavily_search", d)])
      case SearchFailed => Prepared(start, [])
    else
      Prepared(start, [])
  }

  // ---------------------------------------------------------------------------------
  // `sanitizeMessages`.

  /** Roles an OpenAI-compatible chat API accepts here. */
  predicate ChatRole(r: Role) {
    r == System || r == User || r == Assistant
  }

  /** `m.toolName || 'tool'`. */
  function ToolLabel(m: Message): string {
    if m.toolName.Some? && m.toolName.value != "" then m.toolName.value else "tool"
  }

  function SanitizeOne(m: Message): ChatMsg {
    if m.role == Tool then ChatMsg(System, "Tool context: " + ToolLabel(m) + "\n" + m.content)
    else if ChatRole(m.role) then ChatMsg(m.role, m.content)
    else ChatMsg(System, m.content)
  }

  /** `sanitizeMessages`: one chat message per entry, in order. */
  function Sanitize(ms: seq<Message>): (r: seq<ChatMsg>)
    ensures |r| == |ms| && forall i | 0 <= i < |ms| :: r[i] == SanitizeOne(ms[i])
  {
    seq(|ms|, i requires 0 <= i < |ms| => SanitizeOne(ms[i]))
  }

  /**
   * What the sanitizer promises: only the three chat roles come out; system, user and
   * assistant entries pass unchanged; a tool entry becomes a system entry that names the
   * tool; any other role becomes system with the same content.
   */
  lemma SanitizeSpec(ms: seq<Message>)
    ensures forall i | 0 <= i < |ms| :: ChatRole(Sanitize(ms)[i].role)
    ensures forall i | 0 <= i < |ms| && ChatRole(ms[i].role) :: Sanitize(ms)[i] == ChatMsg(ms[i].role, ms[i].content)
    ensures forall i | 0 <= i < |ms| && ms[i].role == Tool ::
      Sanitize(ms)[i] == ChatMsg(System, "Tool context: " + ToolLabel(ms[i]) + "\n" + ms[i].content)
    ensures forall i | 0 <= i < |ms| && !ChatRole(ms[i].role) && ms[i].role != Tool ::
      Sanitize(ms)[i] == ChatMsg(System, ms[i].content)
  {
  }

  /** Sanitizing is entry by entry, so it distributes over concatenation. */
  lemma SanitizeAppend(xs: seq<Message>, ys: seq<Message>)
    ensures Sanitize(xs + ys) == Sanitize(xs) + Sanitize(ys)
  {
    assert forall i | 0 <= i < |xs| :: (xs + ys)[i] == xs[i];
    assert forall i | |xs| <= i < |xs| + |ys| :: (xs + ys)[i] == ys[i - |xs|];
  }

  /** Sanitizing what it produced changes nothing. */
  lemma SanitizeIdempotent(ms: seq<Message>)
    ensures var once := Sanitize(ms);
      Sanitize(seq(|once|, i requires 0 <= i < |once| => Message(once[i].role, once[i].content, None))) == once
  {
  }

  // ---------------------------------------------------------------------------------
  // The agent's input: the last eight non-system entries and the latest user text.

  /** `role.toUpperCase()`, written out for the four stored roles. */
  function RoleLabel(r: Role): string {
    match r
    case System => "SYSTEM"
    case User => "USER"
    case Assistant => "ASSISTANT"
    case Tool => "TOOL"
    case Other(n) => UpperString(n)
  }

  /** The label is the role name in capitals. */
  lemma RoleLabelIsUpper(r: Role)
    ensures RoleLabel(r) == UpperString(RoleName(r))
  {
  }

  /** `${m.role.toUpperCase()}: ${m.content}`. */
  function SummaryLine(m: Message): string {
    RoleLabel(m.role) + ": " + m.content
  }

  /** `messages.filter(m => m.role !== 'system').map(...)`. */
  function SummaryLines(ms: seq<Message>): (r: seq<string>)
    ensures |r| == |NonSystem(ms)| && forall i | 0 <= i < |r| :: LineOf(r[i], NonSystem(ms)[i])
  {
    var ns := NonSystem(ms);
    seq(|ns|, i requires 0 <= i < |ns| => SummaryLine(ns[i]))
  }

  /** `.slice(-8)`: the last eight, or all when there are fewer. */
  function LastEight(xs: seq<string>): seq<string> {
    if |xs| <= 8 then xs else xs[|xs| - 8..]
  }

  /** The last eight are a suffix of the list, as long as the list or eight long. */
  lemma LastEightSpec(xs: seq<string>)
    ensures var r := LastEight(xs); |r| == (if |xs| < 8 then |xs| else 8) && r == xs[|xs| - |r|..]
  {
  }

  function ContextSummary(ms: seq<Message>): string {
    Join(LastEight(SummaryLines(ms)), "\n")
  }

  function AgentInput(ms: seq<Message>): string {
    ContextSummary(ms) + "\n\nUser: " + LastUserText(ms)
  }

  /** `messages.filter(m => m.role !== 'system')`. */
  function NonSystem(ms: seq<Message>): (r: seq<Message>)
    ensures |r| <= |ms| && forall i | 0 <= i < |r| :: r[i].role != System
    decreases |ms|
  {
    if ms == [] then []
    else
      var init := NonSystem(ms[..|ms| - 1]);
      var m := ms[|ms| - 1];
      if m.role == System then init else init + [m]
  }

  /** A new system entry leaves the summary as it was; any other entry becomes its last line. */
  lemma SummaryAppend(ms: seq<Message>, m: Message)
    ensures m.role == System ==> ContextSummary(ms + [m]) == ContextSummary(ms)
    ensures m.role != System ==>
      (LastEight(SummaryLines(ms + [m])) == LastEight(LastEight(SummaryLines(ms)) + [SummaryLine(m)]))
  {
    assert (ms + [m])[..|ms|] == ms;
    if m.role != System {
      assert SummaryLines(ms + [m]) == SummaryLines(ms) + [SummaryLine(m)];
      LastEightSnoc(SummaryLines(ms), SummaryLine(m));
    }
  }

  /** Keeping the last eight of a longer list is the same as keeping them step by step. */
  lemma LastEightSnoc(xs: seq<string>, x: string)
    ensures LastEight(xs + [x]) == LastEight(LastEight(xs) + [x])
  {
    if |xs| >= 8 {
      var ys := xs + [x];
      var zs := LastEight(xs) + [x];
      assert ys[|ys| - 8..] == zs[|zs| - 8..];
    }
  }

  /** `x` is the summary line of `m`. */
  predicate LineOf(x: string, m: Message) {
    x == SummaryLine(m)
  }

  /** `lines` are the summary lines of the last `|lines|` entries of `ns`, in order. */
  predicate LinesOfLast(lines: seq<string>, ns: seq<Message>) {
    |lines| <= |ns| && forall k | 0 <= k < |lines| :: LineOf(lines[k], ns[|ns| - |lines| + k])
  }

  /** The agent sees the last eight non-system entries (all of them when fewer), one line each, in order. */
  lemma SummaryShowsLastEight(ms: seq<Message>)
    ensures |LastEight(SummaryLines(ms))| == if |NonSystem(ms)| < 8 then |NonSystem(ms)| else 8
    ensures LinesOfLast(LastEight(SummaryLines(ms)), NonSystem(ms))
  {
    var xs := SummaryLines(ms);
    LastEightSpec(xs);
    SuffixLines(xs, NonSystem(ms), |LastEight(xs)|);
  }

  lemma SuffixLines(xs: seq<string>, ns: seq<Message>, n: nat)
    requires |xs| == |ns| && n <= |xs|
    requires forall i | 0 <= i < |xs| :: LineOf(xs[i], ns[i])
    ensures LinesOfLast(xs[|xs| - n..], ns)
  {
    var lines := xs[|xs| - n..];
    forall k | 0 <= k < |lines| ensures LineOf(lines[k], ns[|ns| - |lines| + k]) {
      assert lines[k] == xs[|xs| - n + k];
    }
  }

  // ---------------------------------------------------------------------------------
  // The agent's citation side channel.

  /** One entry per agent step whose observation holds a URL: all of them, one per line. */
  function StepCitations(obs: seq<string>): (r: seq<ToolResult>)
    ensures |r| <= |obs|
    decreases |obs|
  {
    if obs == [] then []
    else
      var init := StepCitations(obs[..|obs| - 1]);
      var urls := Matches(obs[|obs| - 1], true);
      if urls == [] then init else init + [ToolResult("tavily_search", Join(urls, "\n"))]
  }

  /** The first five URLs of the agent's own text, when it has any. */
  function AssistantLinks(output: string): (r: seq<ToolResult>)
    ensures r == [] <==> Matches(output, true) == []
    ensures r != [] ==>
      var urls := Matches(output, true);
      r == [ToolResult("assistant_links", Join(urls[..if |urls| <= 5 then |urls| else 5], "\n"))]
  {
    var urls := Matches(output, true);
    var shown := if |urls| <= 5 then urls else urls[..5];
    assert shown == urls[..if |urls| <= 5 then |urls| else 5];
    if shown == [] then [] else [ToolResult("assistant_links", Join(shown, "\n"))]
  }

  /**
   * The tool results after a completed agent run: the step citations after the earlier
   * results, or, only when both are empty, the links found in the agent's answer.
   */
  function AgentTools(prior: seq<ToolResult>, output: string, obs: seq<string>): seq<ToolResult> {
    var withSteps := prior + StepCitations(obs);
    if withSteps == [] then AssistantLinks(output) else withSteps
  }

  /** Every step citation lists the URLs of one observation, and only the observations without one add nothing. */
  lemma {:induction false} StepCitationsSpec(obs: seq<string>)
    ensures forall t | t in StepCitations(obs) ::
      (t.toolName == "tavily_search" &&
       exists o | o in obs :: Matches(o, true) != [] && t.content == Join(Matches(o, true), "\n"))
    ensures StepCitations(obs) == [] <==> forall o | o in obs :: Matches(o, true) == []
    decreases |obs|
  {
    if obs != [] {
      var init := obs[..|obs| - 1];
      StepCitationsSpec(init);
      assert obs == init + [obs[|obs| - 1]];
      assert forall o | o in init :: o in obs;
    }
  }

  /** One more step adds one result, after the earlier ones, exactly when its observation holds a URL. */
  lemma StepCitationsStep(obs: seq<string>, o: string)
    ensures StepCitations(obs + [o]) ==
      StepCitations(obs) + (if Matches(o, true) == [] then [] else [ToolResult("tavily_search", Join(Matches(o, true), "\n"))])
  {
    assert (obs + [o])[..|obs|] == obs;
  }

  /** The earlier results are kept in front, and the assistant's links come only when nothing else was found. */
  lemma AgentToolsSpec(prior: seq<ToolResult>, output: string, obs: seq<string>)
    ensures var r := AgentTools(prior, output, obs);
      prior <= r &&
      (prior == [] && (forall o | o in obs :: Matches(o, true) == []) ==> r == AssistantLinks(output)) &&
      (prior != [] || (exists o | o in obs :: Matches(o, true) != []) ==> r == prior + StepCitations(obs))
  {
    StepCitationsSpec(obs);
  }

  /** The citation loop: `for (const s of steps) { … }`, then the assistant's links if nothing was pushed. */
  method CollectCitations(prior: seq<ToolResult>, output: string, obs: seq<string>) returns (toolResults: seq<ToolResult>)
    ensures toolResults == AgentTools(prior, output, obs)
  {
    toolResults := prior;
    var i := 0;
    while i < |obs|
      invariant 0 <= i <= |obs|
      invariant toolResults == prior + StepCitations(obs[..i])
    {
      assert obs[..i + 1][..i] == obs[..i];
      var urls := Matches(obs[i], true);
      if |urls| > 0 {
        toolResults := toolResults + [ToolResult("tavily_search", Join(urls, "\n"))];
      }
      i := i + 1;
    }
    assert obs[..i] == obs;
    if |toolResults| == 0 {
      var urls := Matches(output, true);
      var shown := if |urls| <= 5 then urls else urls[..5];
      if |shown| > 0 {
        toolResults := [ToolResult("assistant_links", Join(shown, "\n"))];
      }
    }
  }

  // ---------------------------------------------------------------------------------
  // The remote calls and the reply.

  /** A chat completion: `Failed` for an exception or a non-OK response, else `content || ''`. */
  datatype Completion = Failed | Text(text: string)

  /** The agent run: `Failed` when it throws, else `output || ''` and the text of each step's observation. */
  datatype AgentOutcome = AgentFailed | AgentDone(output: string, observations: seq<string>)

  /** The streamed deltas (`delta?.content || ''`) in order, and whether the stream then threw. */
  datatype StreamOutcome = StreamOutcome(deltas: seq<string>, failed: bool)

  /**
   * What the remote services return for what is sent to them. The agent also learns
   * whether the Tavily tool is available to it.
   */
  datatype Upstream = Upstream(
    search: string -> SearchOutcome,
    agent: (string, bool) -> AgentOutcome,
    direct: seq<ChatMsg> -> Completion,
    groq: seq<ChatMsg> -> Completion,
    openRouter: seq<ChatMsg> -> Completion,
    stream: seq<ChatMsg> -> StreamOutcome)

  /** `{ assistant, toolResults }`. */
  datatype Reply = Reply(assistant: string, tools: seq<ToolResult>)

  /**
   * Who answers a turn: the text of the service that answered, or `None` when the fallback
   * responder does, with the tool results gathered by then.
   */
  datatype Decision = Decision(answer: Option<string>, tools: seq<ToolResult>)

  /** The agent step: its answer when it returns a non-empty one, and the tool results after it. */
  function AgentStage(c: Config, up: Upstream, ms: seq<Message>, prior: seq<ToolResult>): Decision {
    if !AgentEligible(c) then Decision(None, prior)
    else
      match up.agent(AgentInput(ms), c.tavilyKey)
      case AgentFailed => Decision(None, prior)
      case AgentDone(out, obs) => Decision(if out != "" then Some(out) else None, AgentTools(prior, out, obs))
  }

  /**
   * The three chat providers in order: direct OpenAI answers with any text, Groq and
   * OpenRouter only with a non-empty one; `None` when none answers.
   */
  function Cascade(c: Config, up: Upstream, chat: seq<ChatMsg>): Option<string> {
    var d := if DirectEligible(c) then up.direct(chat) else Failed;
    if d.Text? then Some(d.text)
    else
      var g := if GroqEligible(c) then up.groq(chat) else Failed;
      if g.Text? && g.text != "" then Some(g.text)
      else
        var o := if OpenRouterEligible(c) then up.openRouter(chat) else Failed;
        if o.Text? && o.text != "" then Some(o.text)
        else None
  }

  /** What the chat providers are sent. */
  function ChatInput(c: Config, up: Upstream, ms: seq<Message>): seq<ChatMsg> {
    Sanitize(Prepare(c, up.search, ms).final)
  }

  /** The decision of `runChatWithTools`: offline rule, then the agent, then the chat providers. */
  function Decide(c: Config, up: Upstream, ms: seq<Message>): Decision {
    var p := Prepare(c, up.search, ms);
    if Offline(c) then Decision(None, p.tools)
    else
      var a := AgentStage(c, up, ms, p.tools);
      if a.answer.Some? then a
      else Decision(Cascade(c, up, Sanitize(p.final)), a.tools)
  }

  /** `runChatWithTools`: the decision, with the fallback's text when nobody else answered. */
  function Respond(c: Config, up: Upstream, ms: seq<Message>): Reply {
    var d := Decide(c, up, ms);
    Reply(if d.answer.Some? then d.answer.value else FallbackReply(ms, d.tools), d.tools)
  }

  /** The search step: the digest goes into the copy of the conversation and into the tool results. */
  method SearchStep(c: Config, search: string -> SearchOutcome, ms: seq<Message>)
      returns (finalMessages: seq<Message>, toolResults: seq<ToolResult>)
    ensures Prepared(finalMessages, toolResults) == Prepare(c, search, ms)
  {
    finalMessages := [SystemEntry(preamble)] + ms;
    toolResults := [];
    if ShouldSearch(ms) && c.tavilyKey {
      var outcome := search(SearchQuery(ms));
      if outcome.Hits? {
        var summarized := Digest(outcome.results);
        finalMessages := finalMessages + [SystemEntry(searchHeading + summarized)];
        toolResults := toolResults + [ToolResult("tavily_search", summarized)];
      }
    }
  }

  /** The agent step, when its guard holds: citations are collected even when the answer is empty. */
  method AgentRun(c: Config, up: Upstream, ms: seq<Message>, prior: seq<ToolResult>)
      returns (answer: Option<string>, toolResults: seq<ToolResult>)
    ensures Decision(answer, toolResults) == AgentStage(c, up, ms, prior)
  {
    answer := None;
    toolResults := prior;
    if AgentEligible(c) {
      var result := up.agent(AgentInput(ms), c.tavilyKey);
      if result.AgentDone? {
        toolResults := CollectCitations(toolResults, result.output, result.observations);
        if result.output != "" {
          answer := Some(result.output);
        }
      }
    }
  }

  /** The chat providers in turn, each returning early with its answer; `None` when none answers. */
  method ProviderCascade(c: Config, up: Upstream, sanitized: seq<ChatMsg>) returns (answer: Option<string>)
    ensures answer == Cascade(c, up, sanitized)
  {
    if DirectEligible(c) {
      var completion := up.direct(sanitized);
      if completion.Text? {
        return Some(completion.text);
      }
    }
    if GroqEligible(c) {
      var resp := up.groq(sanitized);
      if resp.Text? && resp.text != "" {
        return Some(resp.text);
      }
    }
    if OpenRouterEligible(c) {
      var resp := up.openRouter(sanitized);
      if resp.Text? && resp.text != "" {
        return Some(resp.text);
      }
    }
    return None;
  }

  /** `runChatWithTools`: the search step, the offline rule, the agent, the providers, then the fallback. */
  method RunChatWithTools(c: Config, up: Upstream, ms: seq<Message>) returns (assistant: string, toolResults: seq<ToolResult>)
    ensures Reply(assistant, toolResults) == Respond(c, up, ms)
  {
    var finalMessages;
    finalMessages, toolResults := SearchStep(c, up.search, ms);
    if Offline(c) {
      assistant := MakeFallback(ms, toolResults);
      return;
    }
    var answer;
    answer, toolResults := AgentRun(c, up, ms, toolResults);
    if answer.Some? {
      assistant := answer.value;
      return;
    }
    answer := ProviderCascade(c, up, Sanitize(finalMessages));
    if answer.Some? {
      assistant := answer.value;
      return;
    }
    assistant := MakeFallback(ms, toolResults);
  }

  /** Two upstreams that lead to the same decision lead to the same reply. */
  lemma SameDecisionSameReply(c: Config, up: Upstream, up2: Upstream, ms: seq<Message>)
    requires Decide(c, up2, ms) == Decide(c, up, ms)
    ensures Respond(c, up2, ms) == Respond(c, up, ms)
  {
  }

  /**
   * The offline rule: with `OFFLINE_MODE=1` or no chat key, the reply is the fallback over
   * the search results, whatever the agent and the chat providers would have said.
   */
  lemma OfflineUsesFallback(c: Config, up: Upstream, ms: seq<Message>,
      agent: (string, bool) -> AgentOutcome, direct: seq<ChatMsg> -> Completion,
      groq: seq<ChatMsg> -> Completion, openRouter: seq<ChatMsg> -> Completion)
    requires Offline(c)
    ensures var p := Prepare(c, up.search, ms);
      Respond(c, up, ms) == Reply(FallbackReply(ms, p.tools), p.tools)
    ensures Respond(c, up.(agent := agent, direct := direct, groq := groq, openRouter := openRouter), ms) == Respond(c, up, ms)
  {
    var up2 := up.(agent := agent, direct := direct, groq := groq, openRouter := openRouter);
    assert Decide(c, up2, ms) == Decide(c, up, ms);
    SameDecisionSameReply(c, up, up2, ms);
  }

  /** Without the trigger or the Tavily key, the search service is never called: replacing it changes nothing. */
  lemma SearchNotCalled(c: Config, up: Upstream, ms: seq<Message>, search: string -> SearchOutcome)
    requires !(ShouldSearch(ms) && c.tavilyKey)
    ensures Respond(c, up.(search := search), ms) == Respond(c, up, ms)
  {
    var up2 := up.(search := search);
    var p := Prepare(c, up.search, ms);
    assert Prepare(c, up2.search, ms) == p;
    assert AgentStage(c, up2, ms, p.tools) == AgentStage(c, up, ms, p.tools);
    assert Cascade(c, up2, Sanitize(p.final)) == Cascade(c, up, Sanitize(p.final));
    assert Decide(c, up2, ms) == Decide(c, up, ms);
    SameDecisionSameReply(c, up, up2, ms);
  }

  /** An ineligible agent is never called. */
  lemma AgentNotCalled(c: Config, up: Upstream, ms: seq<Message>, agent: (string, bool) -> AgentOutcome)
    requires !AgentEligible(c)
    ensures Respond(c, up.(agent := agent), ms) == Respond(c, up, ms)
  {
    var up2 := up.(agent := agent);
    var p := Prepare(c, up.search, ms);
    assert AgentStage(c, up2, ms, p.tools) == AgentStage(c, up, ms, p.tools);
    assert Cascade(c, up2, Sanitize(p.final)) == Cascade(c, up, Sanitize(p.final));
    assert Decide(c, up2, ms) == Decide(c, up, ms);
    SameDecisionSameReply(c, up, up2, ms);
  }

  /** Two upstreams with the same search and agent decide alike when their cascades agree. */
  lemma SameUntilCascade(c: Config, up: Upstream, up2: Upstream, ms: seq<Message>)
    requires up2.search == up.search && up2.agent == up.agent
    requires Cascade(c, up2, ChatInput(c, up, ms)) == Cascade(c, up, ChatInput(c, up, ms))
    ensures Respond(c, up2, ms) == Respond(c, up, ms)
  {
    var p := Prepare(c, up.search, ms);
    assert AgentStage(c, up2, ms, p.tools) == AgentStage(c, up, ms, p.tools);
    assert Decide(c, up2, ms) == Decide(c, up, ms);
    SameDecisionSameReply(c, up, up2, ms);
  }

  /** An ineligible direct OpenAI call is never made. */
  lemma DirectNotCalled(c: Config, up: Upstream, ms: seq<Message>, chat: seq<ChatMsg> -> Completion)
    requires !DirectEligible(c)
    ensures Respond(c, up.(direct := chat), ms) == Respond(c, up, ms)
  {
    SameUntilCascade(c, up, up.(direct := chat), ms);
  }

  /** An ineligible Groq call is never made. */
  lemma GroqNotCalled(c: Config, up: Upstream, ms: seq<Message>, chat: seq<ChatMsg> -> Completion)
    requires !GroqEligible(c)
    ensures Respond(c, up.(groq := chat), ms) == Respond(c, up, ms)
  {
    SameUntilCascade(c, up, up.(groq := chat), ms);
  }

  /** An ineligible OpenRouter call is never made. */
  lemma OpenRouterNotCalled(c: Config, up: Upstream, ms: seq<Message>, chat: seq<ChatMsg> -> Completion)
    requires !OpenRouterEligible(c)
    ensures Respond(c, up.(openRouter := chat), ms) == Respond(c, up, ms)
  {
    SameUntilCascade(c, up, up.(openRouter := chat), ms);
  }

  /** A failed search is swallowed: the turn goes on with the conversation as it was and no tool result. */
  lemma SearchFailureSwallowed(c: Config, up: Upstream, ms: seq<Message>)
    requires up.search(SearchQuery(ms)).SearchFailed?
    ensures Prepare(c, up.search, ms) == Prepared([SystemEntry(preamble)] + ms, [])
  {
  }

  /**
   * The chat providers get the sanitized preamble, the sanitized conversation and, after a
   * successful search, the digest as a system entry.
   */
  lemma ChatInputShape(c: Config, up: Upstream, ms: seq<Message>)
    ensures var p := Prepare(c, up.search, ms);
      ChatInput(c, up, ms) == [ChatMsg(System, preamble)] + Sanitize(ms) + Sanitize(p.final[1 + |ms|..])
  {
    var p := Prepare(c, up.search, ms);
    assert p.final == [SystemEntry(preamble)] + ms + p.final[1 + |ms|..];
    SanitizeAppend([SystemEntry(preamble)] + ms, p.final[1 + |ms|..]);
    SanitizeAppend([SystemEntry(preamble)], ms);
  }

  /**
   * The chat providers are alternatives rather than a chain: only the one whose guard
   * holds is asked, and when it fails nobody else is.
   */
  lemma CascadeSpec(c: Config, up: Upstream, chat: seq<ChatMsg>)
    ensures var r := Cascade(c, up, chat);
      (DirectEligible(c) ==> r == (if up.direct(chat).Text? then Some(up.direct(chat).text) else None)) &&
      (GroqEligible(c) ==> r == (if up.groq(chat).Text? && up.groq(chat).text != "" then Some(up.groq(chat).text) else None)) &&
      (OpenRouterEligible(c) ==>
        r == (if up.openRouter(chat).Text? && up.openRouter(chat).text != "" then Some(up.openRouter(chat).text) else None)) &&
      (!DirectEligible(c) && !GroqEligible(c) && !OpenRouterEligible(c) ==> r == None)
  {
    ProvidersExclusive(c);
  }

  /** When every service fails, the fallback responder answers over the search results. */
  lemma EverythingFails(c: Config, up: Upstream, ms: seq<Message>)
    requires up.agent(AgentInput(ms), c.tavilyKey) == AgentFailed
    requires up.direct(ChatInput(c, up, ms)) == Failed
    requires up.groq(ChatInput(c, up, ms)) == Failed
    requires up.openRouter(ChatInput(c, up, ms)) == Failed
    ensures Decide(c, up, ms) == Decision(None, Prepare(c, up.search, ms).tools)
    ensures Respond(c, up, ms) == Reply(FallbackReply(ms, Prepare(c, up.search, ms).tools), Prepare(c, up.search, ms).tools)
  {
    var p := Prepare(c, up.search, ms);
    assert AgentStage(c, up, ms, p.tools) == Decision(None, p.tools);
    assert Cascade(c, up, Sanitize(p.final)) == None;
  }

  /** Direct OpenAI's answer is returned even when it is empty. */
  lemma DirectEmptyReturned(c: Config, up: Upstream, ms: seq<Message>)
    requires !Offline(c) && DirectEligible(c)
    requires up.agent(AgentInput(ms), c.tavilyKey).AgentFailed? || up.agent(AgentInput(ms), c.tavilyKey).output == ""
    requires up.direct(ChatInput(c, up, ms)) == Text("")
    ensures Decide(c, up, ms).answer == Some("")
    ensures Respond(c, up, ms).assistant == ""
  {
  }

  /** An empty Groq answer counts the same as a failed call. */
  lemma GroqEmptyIsFailure(c: Config, up: Upstream, ms: seq<Message>)
    requires up.groq(ChatInput(c, up, ms)) == Text("")
    ensures Respond(c, up, ms) == Respond(c, up.(groq := (_: seq<ChatMsg>) => Failed), ms)
  {
    var up2 := up.(groq := (_: seq<ChatMsg>) => Failed);
    assert Cascade(c, up2, ChatInput(c, up, ms)) == Cascade(c, up, ChatInput(c, up, ms));
    SameUntilCascade(c, up, up2, ms);
  }

  /** An empty OpenRouter answer counts the same as a failed call. */
  lemma OpenRouterEmptyIsFailure(c: Config, up: Upstream, ms: seq<Message>)
    requires up.openRouter(ChatInput(c, up, ms)) == Text("")
    ensures Respond(c, up, ms) == Respond(c, up.(openRouter := (_: seq<ChatMsg>) => Failed), ms)
  {
    var up2 := up.(openRouter := (_: seq<ChatMsg>) => Failed);
    assert Cascade(c, up2, ChatInput(c, up, ms)) == Cascade(c, up, ChatInput(c, up, ms));
    SameUntilCascade(c, up, up2, ms);
  }

  /**
   * An agent run with an empty answer still contributes its citations, and then the chat
   * providers decide as they would after a failed run, only with more tool results.
   */
  lemma AgentEmptyFallsThrough(c: Config, up: Upstream, ms: seq<Message>)
    requires !Offline(c) && AgentEligible(c)
    requires up.agent(AgentInput(ms), c.tavilyKey).AgentDone? && up.agent(AgentInput(ms), c.tavilyKey).output == ""
    ensures var p := Prepare(c, up.search, ms); var o := up.agent(AgentInput(ms), c.tavilyKey);
      Decide(c, up, ms) == Decision(Cascade(c, up, ChatInput(c, up, ms)), AgentTools(p.tools, "", o.observations))
  {
  }

  /** Tool results are only ever the search digest, step citations or the assistant's links, after the search digest. */
  lemma ToolResultsKnown(c: Config, up: Upstream, ms: seq<Message>)
    ensures var r := Respond(c, up, ms);
      Prepare(c, up.search, ms).tools <= r.tools &&
      forall t | t in r.tools :: t.toolName == "tavily_search" || t.toolName == "assistant_links"
  {
    var p := Prepare(c, up.search, ms);
    AgentStageKnown(c, up, ms, p.tools);
    assert Respond(c, up, ms).tools == Decide(c, up, ms).tools;
  }

  lemma AgentStageKnown(c: Config, up: Upstream, ms: seq<Message>, prior: seq<ToolResult>)
    requires forall t | t in prior :: t.toolName == "tavily_search"
    ensures var r := AgentStage(c, up, ms, prior).tools;
      prior <= r && forall t | t in r :: t.toolName == "tavily_search" || t.toolName == "assistant_links"
  {
    if AgentEligible(c) && up.agent(AgentInput(ms), c.tavilyKey).AgentDone? {
      var o := up.agent(AgentInput(ms), c.tavilyKey);
      AgentToolsKnown(prior, o.output, o.observations);
    }
  }

  lemma AgentToolsKnown(prior: seq<ToolResult>, output: string, obs: seq<string>)
    requires forall t | t in prior :: t.toolName == "tavily_search"
    ensures var r := AgentTools(prior, output, obs);
      prior <= r && forall t | t in r :: t.toolName == "tavily_search" || t.toolName == "assistant_links"
  {
    StepCitationsSpec(obs);
  }

  // ---------------------------------------------------------------------------------
  // `streamAssistantResponse`.

  const streamPreamble := "You are BizPilot, an AI business copilot for SMB owners. " + "Stream concise, useful answers."

  const sorry := "Sorry, I could not generate a response right now."

  /** The streaming path rewrites tool entries only; every other entry goes out as it is. */
  function StreamSanitizeOne(m: Message): ChatMsg {
    if m.role == Tool then ChatMsg(System, "Tool context: " + ToolLabel(m) + "\n" + m.content)
    else ChatMsg(m.role, m.content)
  }

  /** What the OpenAI stream is sent: the streaming preamble, then the conversation. */
  function StreamInput(ms: seq<Message>): (r: seq<ChatMsg>)
    ensures |r| == 1 + |ms| && r[0] == ChatMsg(System, streamPreamble)
    ensures forall i | 0 <= i < |ms| :: r[i + 1] == StreamSanitizeOne(ms[i])
  {
    var all := [SystemEntry(streamPreamble)] + ms;
    seq(|all|, i requires 0 <= i < |all| => StreamSanitizeOne(all[i]))
  }

  /** `content.slice(i, i + 40)` for `i` = `from`, `from + 40`, … while `i < content.length`. */
  function ChunksFrom(s: string, from: nat): seq<string>
    decreases |s| - from
  {
    if from >= |s| then []
    else [s[from..if from + 40 <= |s| then from + 40 else |s|]] + ChunksFrom(s, from + 40)
  }

  /**
   * The chunks put the text back together, in order; each is non-empty and at most 40
   * characters long, and all but the last are exactly 40.
   */
  lemma ChunksSpec(s: string, from: nat)
    ensures var cs := ChunksFrom(s, from);
      Concat(cs) == (if from < |s| then s[from..] else []) &&
      (forall k | 0 <= k < |cs| :: 0 < |cs[k]| <= 40) &&
      (forall k | 0 <= k < |cs| - 1 :: |cs[k]| == 40)
  {
    ChunksConcat(s, from);
    ChunksSizes(s, from);
  }

  lemma {:induction false} ChunksConcat(s: string, from: nat)
    ensures Concat(ChunksFrom(s, from)) == if from < |s| then s[from..] else []
    decreases |s| - from
  {
    if from < |s| {
      ChunksConcat(s, from + 40);
      var hi := if from + 40 <= |s| then from + 40 else |s|;
      assert ChunksFrom(s, from) == [s[from..hi]] + ChunksFrom(s, from + 40);
      ConcatCons(s[from..hi], ChunksFrom(s, from + 40));
      if from + 40 < |s| {
        assert s[from..] == s[from..hi] + s[from + 40..];
      }
    }
  }

  lemma ConcatCons(x: string, rest: seq<string>)
    ensures Concat([x] + rest) == x + Concat(rest)
  {
    ConcatAppend([x], rest);
    assert [x][..0] == [];
  }

  /** The sizes of the chunks, as one predicate over the whole list. */
  predicate ChunkSizes(cs: seq<string>) {
    (forall k | 0 <= k < |cs| :: 0 < |cs[k]| <= 40) && (forall k | 0 <= k < |cs| - 1 :: |cs[k]| == 40)
  }

  lemma {:induction false} ChunksSizes(s: string, from: nat)
    ensures ChunkSizes(ChunksFrom(s, from))
    decreases |s| - from
  {
    if from < |s| {
      var hi := if from + 40 <= |s| then from + 40 else |s|;
      ChunksSizes(s, from + 40);
      ChunkSizesCons(s[from..hi], ChunksFrom(s, from + 40));
    }
  }

  lemma ChunkSizesCons(x: string, rest: seq<string>)
    requires 0 < |x| <= 40 && (rest != [] ==> |x| == 40) && ChunkSizes(rest)
    ensures ChunkSizes([x] + rest)
  {
    var cs := [x] + rest;
    assert forall k | 0 < k < |cs| :: cs[k] == rest[k - 1];
  }

  /** `result.assistant || 'Sorry, …'`: what the fallback stream spells out. */
  function FallbackText(c: Config, up: Upstream, ms: seq<Message>): (t: string)
    ensures t != []
  {
    var a := Respond(c, up, ms).assistant;
    if a == "" then sorry else a
  }

  function FallbackChunks(c: Config, up: Upstream, ms: seq<Message>): seq<string> {
    ChunksFrom(FallbackText(c, up, ms), 0)
  }

  /** `if (delta) onToken(delta)`: the empty deltas are dropped. */
  function NonEmpty(ds: seq<string>): (r: seq<string>)
    ensures forall k | 0 <= k < |r| :: r[k] != []
    decreases |ds|
  {
    if ds == [] then []
    else
      var init := NonEmpty(ds[..|ds| - 1]);
      if ds[|ds| - 1] == [] then init else init + [ds[|ds| - 1]]
  }

  /** Dropping the empty deltas leaves the streamed text as it was. */
  lemma {:induction false} NonEmptyConcat(ds: seq<string>)
    ensures Concat(NonEmpty(ds)) == Concat(ds)
    decreases |ds|
  {
    if ds != [] {
      var init := ds[..|ds| - 1];
      NonEmptyConcat(init);
      if ds[|ds| - 1] != [] {
        assert (NonEmpty(init) + [ds[|ds| - 1]])[..|NonEmpty(init)|] == NonEmpty(init);
      }
    }
  }

  /**
   * The tokens `streamAssistantResponse` hands to `onToken`, in order: the fallback's chunks
   * when OpenAI streaming is not eligible; otherwise the non-empty deltas, followed by the
   * fallback's chunks when the stream throws.
   */
  function StreamTokens(c: Config, up: Upstream, ms: seq<Message>): seq<string> {
    if !DirectEligible(c) then FallbackChunks(c, up, ms)
    else
      var o := up.stream(StreamInput(ms));
      NonEmpty(o.deltas) + (if o.failed then FallbackChunks(c, up, ms) else [])
  }

  /** The `for (i += 40)` loop of `fallbackStream`. */
  method EmitChunks(content: string) returns (tokens: seq<string>)
    ensures tokens == ChunksFrom(content, 0)
  {
    tokens := [];
    var i := 0;
    while i < |content|
      invariant tokens + ChunksFrom(content, i) == ChunksFrom(content, 0)
      decreases |content| - i
    {
      var hi := if i + 40 <= |content| then i + 40 else |content|;
      assert ChunksFrom(content, i) == [content[i..hi]] + ChunksFrom(content, i + 40);
      tokens := tokens + [content[i..hi]];
      i := i + 40;
    }
  }

  /** `fallbackStream`: one `runChatWithTools` call, then its text in chunks of 40. */
  method FallbackStream(c: Config, up: Upstream, ms: seq<Message>) returns (tokens: seq<string>)
    ensures tokens == FallbackChunks(c, up, ms)
  {
    var assistant, _ := RunChatWithTools(c, up, ms);
    var content := if assistant != "" then assistant else sorry;
    tokens := EmitChunks(content);
  }

  /** `streamAssistantResponse`: the tokens handed to `onToken`, in order. */
  method StreamAssistantResponse(c: Config, up: Upstream, ms: seq<Message>) returns (tokens: seq<string>)
    ensures tokens == StreamTokens(c, up, ms)
  {
    if !DirectEligible(c) {
      tokens := FallbackStream(c, up, ms);
      return;
    }
    var stream := up.stream(StreamInput(ms));
    tokens := [];
    var i := 0;
    while i < |stream.deltas|
      invariant 0 <= i <= |stream.deltas|
      invariant tokens == NonEmpty(stream.deltas[..i])
    {
      assert stream.deltas[..i + 1][..i] == stream.deltas[..i];
      var delta := stream.deltas[i];
      if delta != "" {
        tokens := tokens + [delta];
      }
      i := i + 1;
    }
    assert stream.deltas[..i] == stream.deltas;
    if stream.failed {
      var rest := FallbackStream(c, up, ms);
      tokens := tokens + rest;
    }
  }

  /**
   * Without OpenAI streaming the client receives exactly the reply of `runChatWithTools`
   * (or the apology when it is empty) in non-empty chunks of at most 40 characters, all
   * but the last exactly 40.
   */
  lemma FallbackStreamSpec(c: Config, up: Upstream, ms: seq<Message>)
    requires !DirectEligible(c)
    ensures var ts := StreamTokens(c, up, ms);
      Concat(ts) == FallbackText(c, up, ms) &&
      (forall k | 0 <= k < |ts| :: 0 < |ts[k]| <= 40) &&
      (forall k | 0 <= k < |ts| - 1 :: |ts[k]| == 40)
  {
    ChunksSpec(FallbackText(c, up, ms), 0);
  }

  /**
   * With OpenAI streaming the text is the streamed text, and when the stream throws the
   * whole fallback text follows what was already streamed.
   */
  lemma StreamedTextSpec(c: Config, up: Upstream, ms: seq<Message>)
    requires DirectEligible(c)
    ensures var o := up.stream(StreamInput(ms));
      Concat(StreamTokens(c, up, ms)) == Concat(o.deltas) + (if o.failed then FallbackText(c, up, ms) else [])
  {
    var o := up.stream(StreamInput(ms));
    NonEmptyConcat(o.deltas);
    var tail := if o.failed then FallbackChunks(c, up, ms) else [];
    ConcatAppend(NonEmpty(o.deltas), tail);
    ChunksSpec(FallbackText(c, up, ms), 0);
  }

  /** Every token handed to `onToken` is non-empty. */
  lemma TokensNonEmpty(c: Config, up: Upstream, ms: seq<Message>)
    ensures forall k | 0 <= k < |StreamTokens(c, up, ms)| :: StreamTokens(c, up, ms)[k] != []
  {
    ChunksSpec(FallbackText(c, up, ms), 0);
    var ts := StreamTokens(c, up, ms);
    if DirectEligible(c) {
      var o := up.stream(StreamInput(ms));
      var head := NonEmpty(o.deltas);
      var tail := if o.failed then FallbackChunks(c, up, ms) else [];
      assert ts == head + tail;
      forall k | 0 <= k < |ts| ensures ts[k] != [] {
        if k >= |head| {
          assert ts[k] == tail[k - |head|];
        }
      }
    }
  }

  /**
   * The streaming guard does not look at `OFFLINE_MODE`: with the flag set and an OpenAI
   * key, the stream is still opened and its deltas are what the client receives.
   */
  lemma StreamIgnoresOffline(c: Config, up: Upstream, ms: seq<Message>)
    requires c.offlineMode == "1" && c.openAiKey && Selected(c) == ""
    ensures Offline(c) && DirectEligible(c)
    ensures !up.stream(StreamInput(ms)).failed ==> StreamTokens(c, up, ms) == NonEmpty(up.stream(StreamInput(ms)).deltas)
  {
  }
}
