# BizPilot chat core in Dafny

BizPilot is an AI business copilot with two halves:

- an Express server, whose chat routes keep conversations per signed-in owner and answer with a policy that tries a web search, a LangChain agent and three chat providers, falling back to a canned responder;
- a React client, which validates forms, streams answers over server-sent events and renders citations and attachment badges.

This project models the parts of that system that need no network, database or browser.

- **Routes** (`routes.dfy`, imperative). `MemoryServer` is the process-wide in-memory store: owner id → chats in insertion order, plus the user registry keyed by email. Its methods are the in-memory branches of these routes:
  - `POST /chat` and `POST /chat/stream`;
  - `GET /chats` and `GET /chats/:id`;
  - `PATCH` and `DELETE /chats/:id`;
  - `POST /upload`;
  - signup and login.

  Each method is proved against a pure function of the old state: `Turn`, `StreamTurn`, `Retitle`, `Remove` or `UploadTurn`. Lemmas about those functions state what the routes promise: exactly two entries appended, other chats unchanged, a new chat on an unknown id, the streamed reply stored equal to what was sent, well-formed ids kept.
- **Llm** (`llm.dfy`, mixed). These are the reply policy of `runChatWithTools` and the token stream of `streamAssistantResponse`, written as functions over a configuration (`LLM_PROVIDER`, `OFFLINE_MODE`, which keys are set) and an `Upstream` record.
  - `Upstream` has one function per remote call, mapping what is sent to what comes back.
  - The search trigger, query, digest, `sanitizeMessages`, the agent's context summary and its citations are modelled, as are the offline rule, the provider eligibility and cascade, and the 40-character fallback chunker.
  - The loops of the source are methods proved equal to these functions.
  - "Provider X is not attempted" is stated as "the reply does not depend on X's function".
- **Fallback** (`fallback.dfy`, mixed). `makeFallback` is modelled with hand-written scanners for `my name is\s+([A-Za-z][A-Za-z\s'-]{1,40})` and `what\s+is\s+my\s+name`, and with the "Sources (tool)" lines.
- **Urls** (`urls.dfy`, pure). `extractUniqueUrls` is modelled with a scanner for `https?://[^\s)\]]+` (the same scanner, with `]` allowed, serves `https?://[^\s)]+`). It is proved to give maximal, non-overlapping, left-to-right matches, and first-occurrence deduplication is proved.
- **Client** (`client.dfy`, mixed). This covers the signup and login checks, `MessageCitations`, the tool-badge filename and icon, and the guard of `send`. It also covers the reader loops that accumulate `delta` chunks into the trailing assistant entry. A lemma joins the two sides: the server writes its events as `data:` frames, and the client's reader shows exactly the reply the server stored.
- **Text**, **Messages** and **Wrappers** are shared pieces:
  - JavaScript's whitespace class, `trim`, ASCII case folding, `join`;
  - the message shape;
  - `Option`.

Inputs that the code takes from outside are parameters:

- the reply generator (`generate`, which stands for `ms => Llm.Respond(c, up, ms)`) and the token stream (`stream`, for `ms => Llm.StreamTokens(c, up, ms)`);
- fresh chat ids (`newId`, required non-empty and unused by the owner) and the clock (`now`);
- the PDF/DOCX extraction outcome;
- zod's email check (`isEmail`), bcrypt's comparison (`matches`) and the stored hash;
- JSON encoding and decoding of stream events (`encode`, `decode`);
- the chunks delivered by the response reader.

## Model

| member | source | states |
|---|---|---|
| Text.TrimSpec | server/src/routes.ts:278 | `trim` removes exactly a whitespace prefix and a whitespace suffix, and what is left neither starts nor ends with whitespace |
| Text.TrimEmptyIffAllSpace | client/src/App.tsx:244 | a string trims to empty exactly when every character is whitespace |
| Text.ConcatAppend | server/src/routes.ts:225 | concatenating two lists of chunks gives the concatenation of the two results |
| Urls.RunLenSpec | client/src/utils/url.ts:2 | the run after a scheme holds no stop character and ends at one or at the end of the input |
| Urls.UrlLenSpec | client/src/utils/url.ts:2 | a match starting at a position is a URL (`http://` or `https://` and one or more non-stop characters) that ends at a stop character or at the end of the input |
| Urls.UrlLenOfUrl | client/src/utils/url.ts:2 | any URL that starts at a position and is followed by a stop character or the end is what the pattern matches there (matches are maximal) |
| Urls.RunLenExact | client/src/utils/url.ts:2 | a run of non-stop characters ending at a stop character or the end is the run the scanner measures |
| Urls.MatchesAreSpans | client/src/utils/url.ts:3 | the global match list is the text of the scan's spans, in order |
| Urls.SpansOrdered | client/src/utils/url.ts:2-3 | the matches lie in the input left to right, do not overlap, and each is the maximal match at its start |
| Urls.SpansComplete | client/src/utils/url.ts:2-3 | every position where the pattern matches is the start of a span or lies inside an earlier match: nothing is skipped |
| Urls.NoColonNoMatch | client/src/utils/url.ts:3 | text without `:` has no match (the `|| []` case) |
| Urls.MatchesAreUrls | client/src/utils/url.ts:2-3 | every match is a URL that occurs in the input |
| Urls.MatchesSplit | client/src/utils/url.ts:3 | when the first part ends in a stop character, the matches of a concatenation are the matches of the parts |
| Urls.MatchesOfUrl | client/src/utils/url.ts:2 | a URL followed by a stop character is matched whole and alone |
| Urls.MatchesOfWholeUrl | client/src/utils/url.ts:2 | a URL on its own is its only match |
| Urls.MatchesAfterText | client/src/utils/url.ts:3 | text without `:` before a stop character adds no match |
| Urls.MatchesAfterUrl | client/src/utils/url.ts:3 | a URL before a stop character is the first match, followed by the matches of the rest |
| Urls.PlainUrl | client/src/utils/url.ts:2 | `https://` and printable characters other than `)` and `]` form a URL |
| Urls.Dedup | client/src/utils/url.ts:4 | `Array.from(new Set(xs))` is no longer than its input |
| Urls.DedupSpec | client/src/utils/url.ts:4 | the deduplicated list has no repeats, holds only input elements and holds every input element |
| Urls.DedupPrefix | client/src/utils/url.ts:4 | deduplicating a prefix of the input gives a prefix of the deduplicated input |
| Urls.DedupStep | client/src/utils/url.ts:4 | one more input element is appended exactly when it has not occurred before |
| Urls.DedupKeepsFirstOccurrenceOrder | client/src/utils/url.ts:4 | an element that first occurs earlier in the input comes earlier in the result |
| Urls.ExtractUniqueUrls | client/src/utils/url.ts:1-5 | at most `max` URLs with no repeats, a prefix of the first-occurrence deduplicated matches, all of them when fewer than `max`, each a match of the input |
| Urls.ExtractedAreUrls | client/src/utils/url.ts:2-5 | each extracted element is a URL occurring in the input |
| Urls.NoUrlsHere | client/src/utils/url.test.ts:17-19 | `no urls here` yields the empty list |
| Urls.DuplicateShownOnce | client/src/components/MessageCitations.test.tsx:20-25 | the test's content with `https://example.com` twice yields `[https://example.com, https://another.com]` |
| Urls.DuplicateRest | client/src/components/MessageCitations.test.tsx:20 | the matches of the test content keep the duplicate, in order, before deduplication |
| Urls.DedupTwoOne | client/src/components/MessageCitations.test.tsx:23-25 | `[e, e, a]` deduplicates to `[e, a]` |
| Fallback.LastWhere | server/src/llm.ts:14 | `[...ms].reverse().find(p)`: the latest entry satisfying `p`, or none when no entry does |
| Fallback.LastWhereStep | server/src/llm.ts:14 | a new entry satisfying `p` becomes the latest one; otherwise the answer is unchanged |
| Fallback.SpaceRunSpec | server/src/llm.ts:37 | greedy `\s*` takes whitespace only and stops before a non-whitespace character |
| Fallback.SpaceRunExact | server/src/llm.ts:37 | the whitespace run is the unique maximal one |
| Fallback.ClassRunSpec | server/src/llm.ts:37 | greedy `[A-Za-z\s'-]{0,40}` takes only class characters and stops at a non-class character or at 40 |
| Fallback.ClassRunExact | server/src/llm.ts:37 | the class run is the unique maximal one bounded by 40 |
| Fallback.NameLen | server/src/llm.ts:37 | a name capture has 2 to 41 characters and lies within the input |
| Fallback.NameLenSound | server/src/llm.ts:37 | a non-zero capture length means `my name is`, one or more spaces, a letter and one to 40 maximal class characters |
| Fallback.NameLenComplete | server/src/llm.ts:37 | whenever the pattern matches at a position, the scanner finds that capture there |
| Fallback.FirstNameStart | server/src/llm.ts:37 | the first match position found lies at or after the start and matches |
| Fallback.FirstNameStartSpec | server/src/llm.ts:37 | no earlier position matches, and none is found exactly when no position matches |
| Fallback.FirstName | server/src/llm.ts:37 | `match[1]` of the first match has 2 to 41 characters |
| Fallback.FirstNameShape | server/src/llm.ts:37 | `match[1]` starts with a letter and holds only letters, whitespace, `'` and `-` |
| Fallback.TrimCapture | server/src/llm.ts:38 | trimming a capture keeps that shape and ends it in a non-space character |
| Fallback.CapturedNameShape | server/src/llm.ts:35-39 | the name kept from the last user entry that gives one starts with a letter, has at most 41 characters and no trailing whitespace |
| Fallback.CaptureName | server/src/llm.ts:34-40 | the loop that overwrites `name` ends with the trimmed capture of the last user entry that matches |
| Fallback.ToolLines | server/src/llm.ts:47-48 | one tool result contributes at most five lines |
| Fallback.ToolLinesAreFirstMatches | server/src/llm.ts:47-48 | those lines are `- ` and the first five matches of `https?://[^\s)]+`, in order |
| Fallback.ToolLinesAreUrls | server/src/llm.ts:47-48 | every such line is `- ` and a URL matched in that tool result |
| Fallback.SourceLinesAppend | server/src/llm.ts:46-49 | the source lines of more tool results are appended after the earlier ones, with no deduplication |
| Fallback.SourceLinesAreUrls | server/src/llm.ts:44-50 | at most five lines per tool result, each `- ` and a URL matched in some tool result |
| Fallback.SourceLinesEmptyIff | server/src/llm.ts:44-50 | there are no source lines exactly when no tool result holds a URL |
| Fallback.SourcesEmptyIff | server/src/llm.ts:50 | nothing is appended to the reply exactly when no tool result holds a URL |
| Fallback.CollectSources | server/src/llm.ts:45-49 | the loop pushing `- <url>` computes the source lines |
| Fallback.LeadLine | server/src/llm.ts:41-43 | the first part of the reply is computed by the recall-or-acknowledge rule |
| Fallback.SourcesBlock | server/src/llm.ts:44-51 | the sources block is empty, or the heading and the lines joined by newlines |
| Fallback.MakeFallback | server/src/llm.ts:32-53 | `makeFallback` returns the lead line followed by the sources block |
| Fallback.RecallIff | server/src/llm.ts:41-43 | the reply starts `You told me your name is ` exactly when a name was captured and the latest user text asks `what is my name` |
| Fallback.RecallReply | server/src/llm.ts:41-42 | when both conditions hold, the reply is `You told me your name is <name>.` and then the sources |
| Fallback.AcknowledgeStarts | server/src/llm.ts:43 | the acknowledgment never starts like a recall |
| Fallback.IntroGivesDavid | server/tests/app.test.ts:31 | `My name is David.` captures `David` |
| Fallback.QuestionGivesNoName | server/tests/app.test.ts:38 | `What is my name?` captures no name |
| Fallback.QuestionAsks | server/tests/app.test.ts:38 | `What is my name?` asks for the name |
| Fallback.DavidCaptured | server/tests/app.test.ts:28-38 | after the test's two turns, the captured name is `David` |
| Fallback.DavidAsked | server/tests/app.test.ts:38 | the latest user text of that chat is the question |
| Fallback.DavidRecalled | server/tests/app.test.ts:35-41 | the offline reply to the second turn is `You told me your name is David.` |
| Llm.AgentIffDirect | server/src/llm.ts:66-68 | the agent guard and the direct OpenAI guard accept the same configurations |
| Llm.ProvidersExclusive | server/src/llm.ts:150-197 | at most one chat provider is eligible; with no provider selected, it is the first with a key in the order OpenAI, Groq, OpenRouter |
| Llm.UnknownSelectionIneligible | server/src/llm.ts:150-197 | selecting an unknown provider makes every provider, and the agent, ineligible |
| Llm.TriggerFromSpec | server/src/llm.ts:15 | the trigger fires exactly when some position holds a keyword, or `vs` not followed by a word character |
| Llm.TriggerIgnoresCase | server/src/llm.ts:15 | the `i` flag: the trigger gives the same answer on the lower-cased text |
| Llm.ShouldSearchSpec | server/src/llm.ts:14-15 | searching is wanted exactly when a user entry exists and the latest one fires the trigger |
| Llm.SearchQuery | server/src/llm.ts:22 | the query is the first 300 characters of the latest user entry, or all of it when shorter |
| Llm.HitEntries | server/src/llm.ts:24 | one digest entry per search result, in result order |
| Llm.DigestAppend | server/src/llm.ts:24 | each further result adds a blank line and its entry at the end of the digest |
| Llm.Prepare | server/src/llm.ts:8-30 | the providers' list is the preamble then the caller's entries unchanged, plus at most one system entry; a tool result exists exactly when the trigger fired, a Tavily key is set and the search succeeded, and then the added entry is `Web search results (via Tavily):` and a blank line before the digest, and the only tool result is `tavily_search` holding the digest |
| Llm.SearchStep | server/src/llm.ts:18-30 | the search step's pushes produce that list and those tool results |
| Llm.SearchFailureSwallowed | server/src/llm.ts:27-29 | a failed search leaves the preamble with the conversation and no tool result, and the turn goes on |
| Llm.Sanitize | server/src/llm.ts:137-146 | one chat message per entry, in order |
| Llm.SanitizeSpec | server/src/llm.ts:140-144 | every output role is system, user or assistant; those roles pass unchanged; a tool entry becomes `Tool context: <name or tool>` and its content; any other role becomes system |
| Llm.SanitizeAppend | server/src/llm.ts:138 | sanitizing works entry by entry: sanitizing a concatenation concatenates the results |
| Llm.SanitizeIdempotent | server/src/llm.ts:137-146 | sanitizing already sanitized messages changes nothing |
| Llm.ChatInputShape | server/src/llm.ts:147 | the providers receive the preamble, the sanitized conversation and the sanitized search entry |
| Llm.RoleLabelIsUpper | server/src/llm.ts:109 | the summary label is the role name in capitals |
| Llm.NonSystem | server/src/llm.ts:108 | the summary skips system entries |
| Llm.SummaryLines | server/src/llm.ts:107-109 | one `ROLE: content` line per non-system entry, in order |
| Llm.LastEightSpec | server/src/llm.ts:110 | `slice(-8)` keeps the last eight lines, or all of them when fewer |
| Llm.LastEightSnoc | server/src/llm.ts:110 | keeping the last eight lines after appending one line gives the same result as keeping the last eight first, then appending and keeping eight again |
| Llm.SummaryAppend | server/src/llm.ts:107-111 | a new system entry leaves the summary unchanged, and any other entry slides the eight-line window |
| Llm.SummaryShowsLastEight | server/src/llm.ts:107-111 | the agent sees the last eight non-system entries (all when fewer), one line each, in order |
| Llm.StepCitations | server/src/llm.ts:119-124 | at most one tool result per intermediate step |
| Llm.StepCitationsStep | server/src/llm.ts:119-123 | each step adds, after the earlier results, one `tavily_search` result with its observation's URLs one per line, exactly when that observation has a URL |
| Llm.StepCitationsSpec | server/src/llm.ts:119-124 | each step result is named `tavily_search` and lists an observation's URLs; none is added exactly when no observation has a URL |
| Llm.AssistantLinks | server/src/llm.ts:125-128 | no result exactly when the answer has no URL; otherwise one `assistant_links` result holding the first five matches, not deduplicated, one per line |
| Llm.AgentToolsSpec | server/src/llm.ts:117-128 | earlier tool results stay a prefix; the assistant's links are used only when nothing else was collected |
| Llm.AgentToolsKnown | server/src/llm.ts:123-127 | the agent adds only `tavily_search` and `assistant_links` results |
| Llm.CollectCitations | server/src/llm.ts:117-128 | the citation loop computes the agent's tool results |
| Llm.AgentRun | server/src/llm.ts:68-133 | the agent step answers only with non-empty output; a failure leaves the tool results as they were |
| Llm.ProviderCascade | server/src/llm.ts:149-222 | the three provider blocks in sequence compute `Cascade` |
| Llm.CascadeSpec | server/src/llm.ts:150-222 | the eligible provider alone decides: direct OpenAI answers with any text, Groq and OpenRouter only with non-empty text; no answer when none is eligible |
| Llm.RunChatWithTools | server/src/llm.ts:6-226 | the whole function computes `Respond`: the offline rule, the agent, the cascade, then the fallback |
| Llm.OfflineUsesFallback | server/src/llm.ts:55-63 | offline, the reply is the fallback with the search's tool results, whatever the agent and the providers would return |
| Llm.SearchNotCalled | server/src/llm.ts:18 | without the trigger or a Tavily key, the reply does not depend on the search |
| Llm.AgentNotCalled | server/src/llm.ts:68 | when the agent is ineligible, the reply does not depend on it |
| Llm.DirectNotCalled | server/src/llm.ts:150 | when direct OpenAI is ineligible, the reply does not depend on it |
| Llm.GroqNotCalled | server/src/llm.ts:171 | when Groq is ineligible, the reply does not depend on it |
| Llm.OpenRouterNotCalled | server/src/llm.ts:197 | when OpenRouter is ineligible, the reply does not depend on it |
| Llm.EverythingFails | server/src/llm.ts:224-225 | when the agent and every provider fail, the reply is the fallback with the search's tool results |
| Llm.DirectEmptyReturned | server/src/llm.ts:161-162 | an empty direct OpenAI completion is returned as the (empty) reply |
| Llm.GroqEmptyIsFailure | server/src/llm.ts:188-189 | an empty Groq completion counts as a failure |
| Llm.OpenRouterEmptyIsFailure | server/src/llm.ts:216-217 | an empty OpenRouter completion counts as a failure |
| Llm.AgentEmptyFallsThrough | server/src/llm.ts:115-129 | empty agent output falls through to the cascade, keeping the citations it collected |
| Llm.ToolResultsKnown | server/src/llm.ts:16-128 | the search's tool results are a prefix of the returned ones, and every returned one is `tavily_search` or `assistant_links` |
| Llm.StreamInput | server/src/llm.ts:230-257 | the stream receives the streaming preamble and then one message per entry, tool entries rewritten as context |
| Llm.ChunksSpec | server/src/llm.ts:239-242 | the chunks concatenate to the text, and each is non-empty and at most 40 characters, all but the last exactly 40 |
| Llm.ChunksConcat | server/src/llm.ts:240-241 | the chunks from a position concatenate to the rest of the text |
| Llm.ChunksSizes | server/src/llm.ts:239-241 | every chunk has 1 to 40 characters and only the last may be shorter |
| Llm.FallbackText | server/src/llm.ts:237-238 | the streamed fallback text is never empty: an empty reply becomes the apology |
| Llm.NonEmpty | server/src/llm.ts:262-263 | only non-empty deltas are passed on |
| Llm.NonEmptyConcat | server/src/llm.ts:262-263 | dropping empty deltas does not change the text |
| Llm.EmitChunks | server/src/llm.ts:239-242 | the `i += 40` loop emits the chunks |
| Llm.FallbackStream | server/src/llm.ts:236-243 | `fallbackStream` emits the chunks of the fallback text |
| Llm.StreamAssistantResponse | server/src/llm.ts:228-272 | the tokens are the fallback chunks when streaming is not allowed, else the non-empty deltas followed, on failure, by the fallback chunks |
| Llm.FallbackStreamSpec | server/src/llm.ts:245-250 | without OpenAI streaming, the tokens concatenate to the fallback text in chunks of 40 |
| Llm.StreamedTextSpec | server/src/llm.ts:251-271 | with streaming, the text is the deltas, followed by the fallback text when the stream fails |
| Llm.TokensNonEmpty | server/src/llm.ts:240-263 | no empty token is ever emitted |
| Llm.StreamIgnoresOffline | server/src/llm.ts:245-250 | with `OFFLINE_MODE=1` and an OpenAI key, streaming still goes to OpenAI |
| Routes.Find | server/src/routes.ts:153 | `userChats.get(id)`: the position of the chat with that id, or none when no chat has it |
| Routes.Open | server/src/routes.ts:149-158 | the opened chat is at a valid position |
| Routes.OpenKeepsWell | server/src/routes.ts:153-157 | opening keeps ids non-empty and distinct and keeps the old chats; a new chat starts with no messages |
| Routes.ReplaceKeepsWell | server/src/routes.ts:286-287 | changing a chat in place under its own id keeps the ids well-formed |
| Routes.AppendKeepsWell | server/src/routes.ts:159-162 | pushing entries keeps the ids and their order |
| Routes.PushedTwice | server/src/routes.ts:159-162 | two pushes append both entries in order |
| Routes.TurnOnNamedChat | server/src/routes.ts:153-163 | a turn on one of the owner's chats appends exactly the user message and then the reply, keeps the old entries as a prefix and changes no other chat |
| Routes.TurnStartsChat | server/src/routes.ts:153-158 | a missing or unknown chat id creates exactly one new chat at the end, titled with the first 60 characters of the message and holding the two entries |
| Routes.TurnByPushes | server/src/routes.ts:159-163 | the generator sees the chat's entries followed by the user message, and the two pushes leave the turn's chats |
| Routes.TurnKeepsWell | server/src/routes.ts:149-163 | a turn keeps chat ids non-empty and distinct |
| Routes.StreamByPushes | server/src/routes.ts:211-237 | the streamed route's pushes leave the streamed turn's chats, and its events are the deltas and then `done` with the chat's id |
| Routes.SentDeltas | server/src/routes.ts:224-227 | one `delta` event per token, and the deltas concatenate to the tokens' text |
| Routes.SentDone | server/src/routes.ts:237 | the `done` event adds no text |
| Routes.StreamStoresWhatWasSent | server/src/routes.ts:222-237 | the stored assistant entry is the in-order concatenation of every delta sent, after the user entry, and the stream ends with `done` carrying the chat's id |
| Routes.StreamLikeTurn | server/src/routes.ts:222-235 | a streamed turn stores what a plain turn with the same reply stores |
| Routes.Listing | server/src/routes.ts:251-252 | one `{_id, title, updatedAt}` per chat, in insertion order, unsorted |
| Routes.ListingAfterNewChat | server/src/routes.ts:251-252 | after a turn that creates a chat, the listing gains exactly that chat at the end |
| Routes.RetitleSpec | server/src/routes.ts:284-288 | renaming changes only that chat's title and updatedAt |
| Routes.RemoveSpec | server/src/routes.ts:305-306 | deleting removes exactly that chat, keeps the others in order, and the id is then unknown |
| Routes.AdmitSpec | server/src/routes.ts:344-375 | only PDFs and DOCX files with extracted text are admitted, and the text is the trimmed extract cut to 15000 characters; a failed PDF gives 400 `Failed to parse PDF: <message or unknown>`, also when the file would pass as DOCX (PDF is tested first); a failed DOCX extractor gives 500 with its message or `Upload failed`; other types give the 400 |
| Routes.AnalyzeSpec | server/src/routes.ts:380-381 | analysis defaults to on and is skipped exactly when the field is `0`, `false` or `no`, whole and in any case |
| Routes.AttachByPush | server/src/routes.ts:407-416 | without analysis, one push of the `Document: <name>` tool entry, and the reply gives the chat id, name, size and character count |
| Routes.AnalyzeByPushes | server/src/routes.ts:413-422 | with analysis, the document, the prompt and the reply are pushed, and the generator sees the chat up to the prompt |
| Routes.UploadStartsChat | server/src/routes.ts:407-421 | an unknown chat id creates one chat titled with the file name, holding the document (and the prompt and reply when analysing) |
| Routes.UploadOnNamedChat | server/src/routes.ts:407-421 | an upload to an owned chat appends only those entries and changes no other chat |
| Routes.UploadKeepsWell | server/src/routes.ts:407-421 | uploads keep chat ids non-empty and distinct |
| Routes.Login | server/src/routes.ts:46-62 | success exactly for a valid body, a known email and a matching password; a bad body gives 400, other failures 401 |
| Routes.SignupThenLogin | server/src/routes.ts:30-62 | a user just registered with a valid body can log in with the same password |
| Routes.MemoryServer.constructor | server/src/routes.ts:144-146 | the stores start empty |
| Routes.MemoryServer.OpenChat | server/src/routes.ts:148-158 | the owner's map is created if missing, and the named chat is found or a new one added |
| Routes.MemoryServer.Store | server/src/routes.ts:159-162 | changing one chat object in place changes only that slot of that owner |
| Routes.MemoryServer.PostChat | server/src/routes.ts:131-163 | an empty message is a 400 with nothing changed; otherwise the owner's chats become the turn's and the reply is returned, and no other owner changes |
| Routes.MemoryServer.Relay | server/src/routes.ts:223-227 | the callback accumulates the tokens' text and sends one delta per token |
| Routes.MemoryServer.PostChatStream | server/src/routes.ts:177-238 | an empty message is a 400; otherwise the owner's chats become the streamed turn's and the events are returned |
| Routes.MemoryServer.StreamInto | server/src/routes.ts:222-237 | push the user entry, stream, push the accumulated reply, send `done` |
| Routes.MemoryServer.ListChats | server/src/routes.ts:245-253 | the caller's chats only, one listing each in insertion order |
| Routes.MemoryServer.GetChat | server/src/routes.ts:259-267 | a chat is returned exactly when the caller owns one with that id; otherwise 404 |
| Routes.MemoryServer.RenameChat | server/src/routes.ts:275-288 | a blank trimmed title is a 400 and an unknown id a 404, both with no change; otherwise only that chat is retitled |
| Routes.MemoryServer.DeleteChat | server/src/routes.ts:298-307 | an unknown id is a 404 with no change; otherwise exactly that chat is removed |
| Routes.MemoryServer.Upload | server/src/routes.ts:333-426 | no file is a 400 and a refused file its status, both with no change; otherwise the chats become the upload turn's |
| Routes.MemoryServer.Attach | server/src/routes.ts:400-422 | an admitted upload leaves the upload turn's chats and reply |
| Routes.MemoryServer.KeepDocument | server/src/routes.ts:413-416 | the chat with the document stored, and the `ok` reply |
| Routes.MemoryServer.AnalyzeDocument | server/src/routes.ts:418-422 | the prompt and the generator's reply pushed, and the turn's reply |
| Routes.MemoryServer.Signup | server/src/routes.ts:20-37 | a bad body is a 400 and a registered email a 409, both leaving the registry unchanged; otherwise the user is added under the email |
| Client.EmailShape | client/src/App.tsx:38 | the email pattern accepts exactly: no whitespace, one `@` with something before it, and a dot after it with a character on each side |
| Client.ValidateSignup | client/src/App.tsx:34-41 | each field's message is set exactly when its rule fails, and the request is sent exactly when all three rules hold |
| Client.ValidateLogin | client/src/App.tsx:75-81 | the email and password messages are set exactly when their rules fail, and the request is sent exactly when neither does |
| Client.SentSignupMeetsLengthRules | client/src/App.tsx:37-39 | a signup the client sends meets the server's name and password length rules |
| Client.CitationsSpec | client/src/App.tsx:110-113 | the links are `extractUniqueUrls(content, 5)`, and nothing is rendered exactly when the content has no URL |
| Client.FirstLine | client/src/App.tsx:294 | `split('\n', 1)[0]`: the longest prefix without a line feed |
| Client.GroupSpec | client/src/App.tsx:295 | the capture of `^\s*(.+)$` exists exactly when some split matches, and is the suffix after the latest split that does |
| Client.DocumentNameOf | client/src/App.tsx:295-296 | `Document: <name>` gives back a name that has no leading space and no line break |
| Client.UploadNameRoundTrip | client/src/App.tsx:294-296 | the badge shows the file name of the server's upload entry when that name has no leading space and no line break |
| Client.LowerEndsWith | client/src/App.tsx:297-299 | lower-casing and then testing a lower-case suffix is the case-insensitive suffix test |
| Client.IconSpec | client/src/App.tsx:297-300 | the PDF icon exactly for a `.pdf` ending; the doc icon exactly for `.docx` or `.doc` otherwise; the paperclip for everything else |
| Client.Optimistic | client/src/App.tsx:244-246 | whitespace-only input sends nothing; otherwise the list is the old messages and one user entry |
| Client.Lines | client/src/App.tsx:211 | `split('\n')` yields at least one line |
| Client.LinesSpec | client/src/App.tsx:211 | the lines hold no line feed and, joined with line feeds, give back the text |
| Client.PayloadsStep | client/src/App.tsx:212-213 | a line adds a parsed payload exactly when it starts with `data: `; other lines are ignored |
| Client.PayloadsAppend | client/src/App.tsx:211-213 | the payloads of more lines follow the earlier payloads |
| Client.ShowDelta | client/src/App.tsx:216-220 | the list keeps its length and every entry but the last, which becomes an assistant entry holding the text so far |
| Client.ChunksStep | client/src/App.tsx:214-224 | a delta adds its chunk to the text, and a non-empty done id becomes the chat id |
| Client.ReadLines | client/src/App.tsx:211-225 | the inner loop handles lines until the first one that fails to parse, and ends showing the accumulated text |
| Client.ReadStream | client/src/App.tsx:204-226 | the reader shows the old list and one assistant entry with the concatenation of every delta read, stopping at the first payload that fails to parse, and keeps the done event's chat id |
| Client.Send | client/src/App.tsx:243-290 | nothing is sent on blank input; otherwise the list is the old messages, the user entry and an assistant entry showing all deltas, unless a payload fails to parse |
| Client.FramePayloads | server/src/routes.ts:188 | one frame `data: <json>` and a blank line yields exactly its payload |
| Client.FramesRead | server/src/routes.ts:188 | reading every frame the server writes yields its events' payloads, in order |
| Client.ReceivedSent | client/src/App.tsx:214-215 | the received deltas concatenate to the text the server sent |
| Client.OpenedIdNotEmpty | server/src/routes.ts:237 | the chat id in `done` is never empty |
| Client.ClientShowsStoredReply | client/src/App.tsx:204-226 | when each write is read whole, the stream parses, the client's buffer equals the assistant entry the server stored, and `done` carries that chat's id |

## Left out

- The MongoDB branches of every route, `/me`, the task routes, Google OAuth and JWT signing are not modelled: they are persistence and library calls. Bcrypt is the `matches` parameter and the stored hash is an input.
- The remote calls are observed only through their outcomes: the LangChain agent, the OpenAI, Groq and OpenRouter completions, the OpenAI stream and the Tavily search. A failed dynamic import counts as a failure outcome of that call.
- PDF and DOCX extraction, including the pdfjs fallback, is an input (`Extraction`). Multer's 10 MB limit is not modelled.
- Routes.MemoryServer.PostChatStream: the `error` event that the `catch` writes (routes.ts:239-241) is not modelled, because every failure inside the modelled code is already an outcome value and none reaches the `catch`.
- Llm.StreamAssistantResponse: the `Streaming failed.` token is not modelled, because the modelled `runChatWithTools` cannot throw.
- Routes.MemoryServer.Upload: a DOCX extractor error goes to the route's `catch`; it is modelled as the 500 outcome of `Admit`, with its message.
- Interleaving of concurrent requests on one chat during the `await`s is not modelled: each route runs to completion.
- Routes: chats are values, not shared objects. Aliasing of the `mem` object between the store and the response is not modelled.
- Routes: every `new Date()` of one request is the single `now` parameter, and the per-entry `createdAt` is not stored.
- Routes: fresh ids come from the `newId` parameter, which must be non-empty and unused by the owner, instead of `Math.random`. An id collision is not modelled.
- Routes: the routes call the reply generator and the token stream through the `generate` and `stream` parameters. Llm defines what those are (`Respond`, `StreamTokens`). The two are tied together by meaning, not by a lemma about one composed call.
- Routes.MemoryServer.PostChatStream: the `done` id falls back to `chatIdValue || ''`. That fallback is not modelled, because the opened chat's `_id` is never empty (Client.OpenedIdNotEmpty).
- Routes.Chat: the `userId` field that chats made by `/chat/stream` and `/upload` carry, and that `GET /chats/:id` returns with the rest of the chat (routes.ts:215, 410, 267), is not modelled. Chats made by `/chat` lack it (routes.ts:156), and no route reads it back, because chats are already keyed by owner.
- The JSON encoding of intermediate-step observations is not modelled (`JSON.stringify`): observations are taken as strings.
- Lengths are counted in characters (Unicode scalar values), not in UTF-16 code units. This affects `slice(0, 60)`, `slice(0, 300)`, the 15000 cap and the 40-character chunks for text outside the Basic Multilingual Plane.
- `toLowerCase` is modelled as ASCII case folding. The suffixes and words compared after it are ASCII, but a non-ASCII character that lower-cases to ASCII is not modelled.
- Urls.ExtractUniqueUrls: `max` is a natural number. JavaScript `slice` semantics for a negative `max` are not modelled.
- Client: React state is modelled as values passed in and returned. Rendering, alerts, the thinking flag, scrolling, theme and localStorage are not modelled.
- Client: `fetch`, `TextDecoder` and `JSON.parse` are not modelled. The reader's chunks are a parameter and `JSON.parse` is the `decode` parameter, where `Unparsable` stands for a throw.
- Client.Send: after a payload fails to parse, only the prefix and the user entry of the list are stated. The source alerts and leaves whatever was last shown.
- Client: the non-streaming fallback of `send` and `createNewChat`, `refreshChats`, `openChat` and `deleteChat` are not modelled. They are fetch-and-set calls on the routes modelled in Routes.
- Client: `createNewChat` and `attachFile` run the same reader loop as `send`, which Client.ReadStream models. Only `createNewChat` uses the done event's chat id (ReadStream's `chatId`).
- Client.ClientShowsStoredReply: it assumes each server write reaches the reader as one chunk. A frame split across reads makes `JSON.parse` throw, which ReadStream reports as `failed`.
- Client.ValidateLogin: the client accepts any non-empty password, while the server's login schema asks for at least 6 characters. Login models the server rule and ValidateLogin the client rule, so a login with a short password passes the client and is refused with a 400.
- Urls: the `url.test.ts` case with seven distinct URLs (client/src/utils/url.test.ts:5-15) has no lemma of its own; Urls.ExtractUniqueUrls states the general prefix-of-first-occurrences property it instances.
