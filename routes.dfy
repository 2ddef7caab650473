/**
 * The in-memory branches of the server routes (server/src/routes.ts), used when MongoDB is not
 * connected: the per-owner chat store `__MEM_CHATS__` behind `POST /chat`, `POST /chat/stream`,
 * `GET /chats`, `GET /chats/:id`, `PATCH /chats/:id`, `DELETE /chats/:id` and `POST /upload`,
 * and the user registry `__MEM_USERS__` behind signup and login.
 *
 * One owner's chats are a sequence in `Map` insertion order; a chat is a value that the routes
 * replace where the source mutates the stored object. Every timestamp a request writes is the
 * request's `now`.
 */
module Routes {
  import opened Wrappers
  import opened Text
  import opened Messages
  import Llm

  /** The `{ error }` body of a refused request: a message, or zod's flattened issues. */
  datatype ErrorBody = ErrorText(text: string) | SchemaIssues

  /** A route's answer: the JSON it returns, or a status code with an error body. */
  datatype Outcome<+T> = Ok(value: T) | Fail(status: nat, error: ErrorBody)

  /** An in-memory chat `{ _id, title, messages, updatedAt }`. */
  datatype Chat = Chat(id: string, title: string, messages: seq<Message>, updatedAt: int)

  // ---------------------------------------------------------------------------------------
  // One owner's chats
  // ---------------------------------------------------------------------------------------

  /** `userChats.get(id)`: the position of the chat with that id, the first if there were several. */
  function Find(cs: seq<Chat>, id: string): (r: Option<nat>)
    ensures r.Some? ==> r.value < |cs| && cs[r.value].id == id
    ensures r.Some? ==> forall j | 0 <= j < r.value :: cs[j].id != id
    ensures r.None? <==> forall j | 0 <= j < |cs| :: cs[j].id != id
    decreases |cs|
  {
    if cs == [] then None
    else
      var r := Find(cs[..|cs| - 1], id);
      if r.Some? then r
      else if cs[|cs| - 1].id == id then Some(|cs| - 1)
      else None
  }

  /** The ids of one owner's chats are non-empty and distinct, like the keys of a `Map`. */
  predicate Well(cs: seq<Chat>) {
    (forall i | 0 <= i < |cs| :: cs[i].id != "") &&
    (forall i, j | 0 <= i < j < |cs| :: cs[i].id != cs[j].id)
  }

  /** `__MEM_CHATS__.get(owner)`, an owner without chats having none. */
  function OwnerChats(store: map<string, seq<Chat>>, owner: string): seq<Chat> {
    if owner in store then store[owner] else []
  }

  /** `chatIdValue ? userChats.get(chatIdValue) : null`: a missing or empty id names no chat. */
  function Named(cs: seq<Chat>, chatId: Option<string>): Option<nat> {
    if chatId.Some? && chatId.value != "" then Find(cs, chatId.value) else None
  }

  /** The chats after a request found or created the one it works on, and that chat's position. */
  datatype Opened = Opened(chats: seq<Chat>, at: nat)

  /** The chat a request names, or a new empty one under `newId` added at the end. */
  function Open(cs: seq<Chat>, chatId: Option<string>, newId: string, title: string, now: int): (o: Opened)
    ensures o.at < |o.chats|
  {
    match Named(cs, chatId)
    case Some(i) => Opened(cs, i)
    case None => Opened(cs + [Chat(newId, title, [], now)], |cs|)
  }

  /** `mem.messages.push(...)` for each entry in turn, and `mem.updatedAt = now`. */
  function Pushed(mem: Chat, entries: seq<Message>, now: int): Chat {
    mem.(messages := mem.messages + entries, updatedAt := now)
  }

  /** The chat at `at` with `entries` pushed. */
  function Append(cs: seq<Chat>, at: nat, entries: seq<Message>, now: int): seq<Chat>
    requires at < |cs|
  {
    cs[at := Pushed(cs[at], entries, now)]
  }

  /** Opening a chat keeps the ids well formed when the new id is fresh. */
  lemma OpenKeepsWell(cs: seq<Chat>, chatId: Option<string>, newId: string, title: string, now: int)
    requires Well(cs) && newId != "" && Find(cs, newId).None?
    ensures var o := Open(cs, chatId, newId, title, now);
      Well(o.chats) && o.chats[..|cs|] == cs && o.chats[o.at].messages == (if o.at < |cs| then cs[o.at].messages else [])
  {
    var o := Open(cs, chatId, newId, title, now);
    if Named(cs, chatId).None? {
      var r := cs + [Chat(newId, title, [], now)];
      assert forall i | 0 <= i < |cs| :: r[i] == cs[i];
      assert r[..|cs|] == cs;
    }
  }

  /** Replacing a chat by one with the same id keeps the ids well formed. */
  lemma ReplaceKeepsWell(cs: seq<Chat>, at: nat, mem: Chat)
    requires Well(cs) && at < |cs| && mem.id == cs[at].id
    ensures Well(cs[at := mem])
  {
  }

  /** Appending entries keeps every id where it was. */
  lemma AppendKeepsWell(cs: seq<Chat>, at: nat, entries: seq<Message>, now: int)
    requires Well(cs) && at < |cs|
    ensures var r := Append(cs, at, entries, now);
      Well(r) && |r| == |cs| && forall j | 0 <= j < |cs| :: r[j].id == cs[j].id
  {
  }

  /** A push of `a` and then of `b` is a push of both, in that order. */
  lemma PushedTwice(mem: Chat, a: seq<Message>, b: seq<Message>, now: int)
    ensures Pushed(mem.(messages := mem.messages + a), b, now) == Pushed(mem, a + b, now)
  {
    SeqAssoc(mem.messages, a, b);
  }

  // ---------------------------------------------------------------------------------------
  // POST /chat
  // ---------------------------------------------------------------------------------------

  /** `{ chatId, messages, toolResults }`. */
  datatype TurnReply = TurnReply(chatId: string, messages: seq<Message>, tools: seq<ToolResult>)

  /** The owner's chats after a turn, and the route's reply. */
  datatype Turned = Turned(chats: seq<Chat>, reply: TurnReply)

  /** A new chat takes the first 60 characters of the message as its title. */
  function TitleOf(message: string): string {
    Take(message, 60)
  }

  /** What a turn hands to `runChatWithTools`: the chat's entries, the user's message last. */
  function TurnHistory(cs: seq<Chat>, chatId: Option<string>, message: string, newId: string, now: int): seq<Message> {
    var o := Open(cs, chatId, newId, TitleOf(message), now);
    o.chats[o.at].messages + [UserEntry(message)]
  }

  /** A turn whose reply is `answer`: the user's message and the reply go to the opened chat. */
  function Turn(cs: seq<Chat>, chatId: Option<string>, message: string, newId: string, now: int, answer: Llm.Reply): Turned {
    var o := Open(cs, chatId, newId, TitleOf(message), now);
    var after := Append(o.chats, o.at, [UserEntry(message), AssistantEntry(answer.assistant)], now);
    Turned(after, TurnReply(after[o.at].id, after[o.at].messages, answer.tools))
  }

  /**
   * A turn naming one of the owner's chats appends exactly the user's message and then the
   * reply to that chat, with its earlier entries kept as a prefix, and changes no other chat.
   */
  lemma TurnOnNamedChat(cs: seq<Chat>, chatId: Option<string>, message: string, newId: string, now: int,
      answer: Llm.Reply, i: nat)
    requires Well(cs) && i < |cs| && chatId == Some(cs[i].id)
    ensures var t := Turn(cs, chatId, message, newId, now, answer);
      |t.chats| == |cs| &&
      t.chats[i] == cs[i].(messages := cs[i].messages + [UserEntry(message), AssistantEntry(answer.assistant)], updatedAt := now) &&
      (forall j | 0 <= j < |cs| && j != i :: t.chats[j] == cs[j]) &&
      t.reply == TurnReply(cs[i].id, t.chats[i].messages, answer.tools)
  {
    assert Named(cs, chatId) == Some(i);
  }

  /**
   * A turn naming none of the owner's chats (no id, an empty one, an unknown one or another
   * owner's) starts exactly one chat, at the end, titled with the first 60 characters.
   */
  lemma TurnStartsChat(cs: seq<Chat>, chatId: Option<string>, message: string, newId: string, now: int, answer: Llm.Reply)
    requires chatId.Some? ==> forall j | 0 <= j < |cs| :: cs[j].id != chatId.value
    ensures var entries := [UserEntry(message), AssistantEntry(answer.assistant)];
      var t := Turn(cs, chatId, message, newId, now, answer);
      t.chats == cs + [Chat(newId, TitleOf(message), entries, now)] &&
      t.reply == TurnReply(newId, entries, answer.tools)
  {
    assert Named(cs, chatId).None?;
    NewChatAppend(cs, newId, TitleOf(message), [UserEntry(message), AssistantEntry(answer.assistant)], now);
  }

  /** Appending to a chat just added at the end is adding it with those entries. */
  lemma NewChatAppend(cs: seq<Chat>, newId: string, title: string, entries: seq<Message>, now: int)
    ensures Append(cs + [Chat(newId, title, [], now)], |cs|, entries, now) == cs + [Chat(newId, title, entries, now)]
  {
    assert [] + entries == entries;
  }

  /** The chat that `POST /chat`'s two pushes leave is the turn's. */
  lemma TurnByPushes(cs: seq<Chat>, chatId: Option<string>, message: string, newId: string, now: int, answer: Llm.Reply)
    ensures var o := Open(cs, chatId, newId, TitleOf(message), now);
      var mem := o.chats[o.at];
      var withUser := mem.(messages := mem.messages + [UserEntry(message)]);
      var t := Turn(cs, chatId, message, newId, now, answer);
      withUser.messages == TurnHistory(cs, chatId, message, newId, now) &&
      o.chats[o.at := Pushed(withUser, [AssistantEntry(answer.assistant)], now)] == t.chats &&
      t.reply == TurnReply(mem.id, t.chats[o.at].messages, answer.tools)
  {
    var o := Open(cs, chatId, newId, TitleOf(message), now);
    assert [UserEntry(message)] + [AssistantEntry(answer.assistant)] == [UserEntry(message), AssistantEntry(answer.assistant)];
    PushedTwice(o.chats[o.at], [UserEntry(message)], [AssistantEntry(answer.assistant)], now);
  }

  lemma TurnKeepsWell(cs: seq<Chat>, chatId: Option<string>, message: string, newId: string, now: int, answer: Llm.Reply)
    requires Well(cs) && newId != "" && Find(cs, newId).None?
    ensures Well(Turn(cs, chatId, message, newId, now, answer).chats)
  {
    var o := Open(cs, chatId, newId, TitleOf(message), now);
    OpenKeepsWell(cs, chatId, newId, TitleOf(message), now);
    AppendKeepsWell(o.chats, o.at, [UserEntry(message), AssistantEntry(answer.assistant)], now);
  }

  // ---------------------------------------------------------------------------------------
  // POST /chat/stream
  // ---------------------------------------------------------------------------------------

  /** The server-sent events of a streamed turn: `{ type: 'delta', chunk }` and `{ type: 'done', chatId }`. */
  datatype StreamEvent = Delta(chunk: string) | Done(chatId: string)

  /** One `delta` event per token, in order. */
  function Deltas(tokens: seq<string>): (r: seq<StreamEvent>)
    decreases |tokens|
  {
    if tokens == [] then [] else Deltas(tokens[..|tokens| - 1]) + [Delta(tokens[|tokens| - 1])]
  }

  /** The text the `delta` events of `events` carry, in order. */
  function Sent(events: seq<StreamEvent>): string
    decreases |events|
  {
    if events == [] then []
    else
      var e := events[|events| - 1];
      Sent(events[..|events| - 1]) + (if e.Delta? then e.chunk else [])
  }

  /** The owner's chats after a streamed turn, and the events sent. */
  datatype Streamed = Streamed(chats: seq<Chat>, events: seq<StreamEvent>)

  /** A streamed turn whose tokens are `tokens`: the stored reply is what was sent, then `done`. */
  function StreamTurn(cs: seq<Chat>, chatId: Option<string>, message: string, newId: string, now: int, tokens: seq<string>): Streamed {
    var o := Open(cs, chatId, newId, TitleOf(message), now);
    var after := Append(o.chats, o.at, [UserEntry(message), AssistantEntry(Concat(tokens))], now);
    Streamed(after, Deltas(tokens) + [Done(after[o.at].id)])
  }

  /** The chat that `POST /chat/stream`'s two pushes leave is the streamed turn's. */
  lemma StreamByPushes(cs: seq<Chat>, chatId: Option<string>, message: string, newId: string, now: int, tokens: seq<string>)
    ensures var o := Open(cs, chatId, newId, TitleOf(message), now);
      var mem := o.chats[o.at];
      var withUser := mem.(messages := mem.messages + [UserEntry(message)]);
      var s := StreamTurn(cs, chatId, message, newId, now, tokens);
      withUser.messages == TurnHistory(cs, chatId, message, newId, now) &&
      o.chats[o.at := Pushed(withUser, [AssistantEntry(Concat(tokens))], now)] == s.chats &&
      s.events == Deltas(tokens) + [Done(mem.id)]
  {
    var o := Open(cs, chatId, newId, TitleOf(message), now);
    assert [UserEntry(message)] + [AssistantEntry(Concat(tokens))] == [UserEntry(message), AssistantEntry(Concat(tokens))];
    PushedTwice(o.chats[o.at], [UserEntry(message)], [AssistantEntry(Concat(tokens))], now);
  }

  lemma {:induction false} SentDeltas(tokens: seq<string>)
    ensures Sent(Deltas(tokens)) == Concat(tokens)
    ensures forall k | 0 <= k < |Deltas(tokens)| :: Deltas(tokens)[k].Delta?
    ensures |Deltas(tokens)| == |tokens|
    decreases |tokens|
  {
    if tokens != [] {
      var init := tokens[..|tokens| - 1];
      SentDeltas(init);
      var d := Deltas(tokens);
      assert d[..|d| - 1] == Deltas(init);
    }
  }

  lemma SentDone(events: seq<StreamEvent>, id: string)
    ensures Sent(events + [Done(id)]) == Sent(events)
  {
    assert (events + [Done(id)])[..|events|] == events;
  }

  /**
   * The reply stored by a streamed turn is the in-order concatenation of the chunks of the
   * `delta` events sent, and the events end with one `done` carrying the chat's id.
   */
  lemma StreamStoresWhatWasSent(cs: seq<Chat>, chatId: Option<string>, message: string, newId: string, now: int, tokens: seq<string>)
    ensures var s := StreamTurn(cs, chatId, message, newId, now, tokens);
      var o := Open(cs, chatId, newId, TitleOf(message), now);
      var stored := s.chats[o.at].messages;
      |s.events| == |tokens| + 1 && s.events[|tokens|] == Done(s.chats[o.at].id) &&
      (forall k | 0 <= k < |tokens| :: s.events[k].Delta?) &&
      |stored| >= 2 && stored[|stored| - 1] == AssistantEntry(Sent(s.events)) &&
      stored[|stored| - 2] == UserEntry(message)
  {
    var s := StreamTurn(cs, chatId, message, newId, now, tokens);
    var o := Open(cs, chatId, newId, TitleOf(message), now);
    SentDeltas(tokens);
    SentDone(Deltas(tokens), s.chats[o.at].id);
  }

  /** A streamed turn changes the owner's chats as a plain turn with the streamed text as reply would. */
  lemma StreamLikeTurn(cs: seq<Chat>, chatId: Option<string>, message: string, newId: string, now: int, tokens: seq<string>,
      tools: seq<ToolResult>)
    ensures StreamTurn(cs, chatId, message, newId, now, tokens).chats ==
      Turn(cs, chatId, message, newId, now, Llm.Reply(Concat(tokens), tools)).chats
  {
  }

  // ---------------------------------------------------------------------------------------
  // GET /chats, PATCH and DELETE /chats/:id
  // ---------------------------------------------------------------------------------------

  /** `{ _id, title, updatedAt }`. */
  datatype ChatListing = ChatListing(id: string, title: string, updatedAt: int)

  function ListingOf(c: Chat): ChatListing {
    ChatListing(c.id, c.title, c.updatedAt)
  }

  /** `Array.from(userChats.values()).map(...)`: one listing per chat in insertion order, unsorted. */
  function Listing(cs: seq<Chat>): (r: seq<ChatListing>)
    ensures |r| == |cs| && forall i | 0 <= i < |cs| :: r[i] == ListingOf(cs[i])
  {
    seq(|cs|, i requires 0 <= i < |cs| => ListingOf(cs[i]))
  }

  /** A turn that starts a chat adds its listing at the end; the others keep their order. */
  lemma ListingAfterNewChat(cs: seq<Chat>, chatId: Option<string>, message: string, newId: string, now: int, answer: Llm.Reply)
    requires chatId.Some? ==> forall j | 0 <= j < |cs| :: cs[j].id != chatId.value
    ensures Listing(Turn(cs, chatId, message, newId, now, answer).chats) == Listing(cs) + [ChatListing(newId, TitleOf(message), now)]
  {
    TurnStartsChat(cs, chatId, message, newId, now, answer);
    var r := Listing(Turn(cs, chatId, message, newId, now, answer).chats);
    assert forall i | 0 <= i < |r| :: r[i] == (Listing(cs) + [ChatListing(newId, TitleOf(message), now)])[i];
  }

  /** `mem.title = title; mem.updatedAt = now`. */
  function Retitle(cs: seq<Chat>, i: nat, title: string, now: int): seq<Chat>
    requires i < |cs|
  {
    cs[i := cs[i].(title := title, updatedAt := now)]
  }

  /** `PATCH /chats/:id`'s title: the body's title trimmed, a missing one being empty. */
  function NewTitle(raw: string): string {
    Trim(raw)
  }

  /** Renaming changes that chat's title and `updatedAt` and nothing else. */
  lemma RetitleSpec(cs: seq<Chat>, i: nat, title: string, now: int)
    requires Well(cs) && i < |cs|
    ensures var r := Retitle(cs, i, title, now);
      Well(r) && |r| == |cs| && Listing(r)[i] == ChatListing(cs[i].id, title, now) &&
      r[i].messages == cs[i].messages && forall j | 0 <= j < |cs| && j != i :: r[j] == cs[j]
  {
  }

  /** `userChats.delete(id)`. */
  function Remove(cs: seq<Chat>, i: nat): seq<Chat>
    requires i < |cs|
  {
    cs[..i] + cs[i + 1..]
  }

  /**
   * Deleting removes exactly that chat: the others stay in order, and the id is found no
   * more, so a later get, rename or delete of it is a 404.
   */
  lemma RemoveSpec(cs: seq<Chat>, i: nat)
    requires Well(cs) && i < |cs|
    ensures var r := Remove(cs, i);
      Well(r) && |r| == |cs| - 1 && Find(r, cs[i].id).None? &&
      (forall j | 0 <= j < i :: r[j] == cs[j]) && (forall j | i <= j < |r| :: r[j] == cs[j + 1])
  {
    var r := Remove(cs, i);
    RemoveShifts(cs, i);
    forall j | 0 <= j < |r| ensures r[j].id != cs[i].id && r[j].id != "" {
      var k := if j < i then j else j + 1;
      assert r[j] == cs[k] && k != i;
    }
    forall j, k | 0 <= j < k < |r| ensures r[j].id != r[k].id {
      var j', k' := if j < i then j else j + 1, if k < i then k else k + 1;
      assert r[j] == cs[j'] && r[k] == cs[k'] && j' < k';
    }
  }

  lemma RemoveShifts(cs: seq<Chat>, i: nat)
    requires i < |cs|
    ensures var r := Remove(cs, i);
      |r| == |cs| - 1 && (forall j | 0 <= j < i :: r[j] == cs[j]) && (forall j | i <= j < |r| :: r[j] == cs[j + 1])
  {
  }

  // ---------------------------------------------------------------------------------------
  // POST /upload
  // ---------------------------------------------------------------------------------------

  /** The multer file: its original name, its MIME type and its size in bytes. */
  datatype Uploaded = Uploaded(name: string, mime: string, bytes: nat)

  /** What the PDF or DOCX text extractor gives back: the text, or the message of its error. */
  datatype Extraction = Extracted(text: string) | ExtractFailed(message: string)

  const pdfMime := "application/pdf"
  const docxMime := "application/vnd.openxmlformats-officedocument.wordprocessingml.document"

  /** `/<suffix>$/i.test(s)`. */
  predicate EndsWithCI(s: string, suffix: string) {
    |suffix| <= |s| && HasAtCI(s, |s| - |suffix|, suffix)
  }

  predicate IsPdf(f: Uploaded) {
    EndsWithCI(f.name, "pdf") || f.mime == pdfMime
  }

  predicate IsDocx(f: Uploaded) {
    EndsWithCI(f.name, "docx") || f.mime == docxMime
  }

  /** `extracted.trim().slice(0, 15000)`. */
  function Clip(text: string): string {
    Take(Trim(text), 15000)
  }

  /**
   * The text an upload attaches, or the refusal: a PDF parse error is a 400, a DOCX extractor
   * error reaches the route's `catch` and is a 500, any other type is unsupported.
   */
  function Admit(f: Uploaded, e: Extraction): Outcome<string> {
    if IsPdf(f) then
      match e
      case Extracted(t) => Ok(Clip(t))
      case ExtractFailed(m) => Fail(400, ErrorText("Failed to parse PDF: " + (if m != "" then m else "unknown")))
    else if IsDocx(f) then
      match e
      case Extracted(t) => Ok(Clip(t))
      case ExtractFailed(m) => Fail(500, ErrorText(if m != "" then m else "Upload failed"))
    else Fail(400, ErrorText("Unsupported file type. Use PDF or DOCX."))
  }

  /**
   * Only PDF (by a name ending in `pdf` or the PDF MIME type, checked first) and DOCX files
   * are admitted, and the attached text is the trimmed extract cut to 15000 characters.
   */
  lemma AdmitSpec(f: Uploaded, e: Extraction)
    ensures Admit(f, e).Ok? <==> (IsPdf(f) || IsDocx(f)) && e.Extracted?
    ensures Admit(f, e).Ok? ==> var a := Admit(f, e).value;
      |a| <= 15000 && a == Trim(e.text)[..|a|] && (|Trim(e.text)| <= 15000 ==> a == Trim(e.text))
    ensures !IsPdf(f) && !IsDocx(f) ==> Admit(f, e) == Fail(400, ErrorText("Unsupported file type. Use PDF or DOCX."))
    ensures IsPdf(f) && e.ExtractFailed? ==>
      Admit(f, e) == Fail(400, ErrorText("Failed to parse PDF: " + (if e.message != "" then e.message else "unknown")))
    ensures !IsPdf(f) && IsDocx(f) && e.ExtractFailed? ==>
      Admit(f, e) == Fail(500, ErrorText(if e.message != "" then e.message else "Upload failed"))
  {
  }

  /** `!/^(0|false|no)$/i.test(String(analyze ?? '1'))`. */
  predicate Analyze(raw: Option<string>) {
    var s := LowerString(raw.GetOr("1"));
    !(s == "0" || s == "false" || s == "no")
  }

  /** `s` is `w` up to the case of ASCII letters. */
  predicate SameCI(s: string, w: string) {
    |s| == |w| && HasAtCI(s, 0, w)
  }

  /**
   * Analysis is on by default and skipped exactly when the field is `0`, `false` or `no`,
   * whole and in any case.
   */
  lemma AnalyzeSpec(raw: Option<string>)
    ensures raw.None? ==> Analyze(raw)
    ensures raw.Some? ==> (!Analyze(raw) <==> SameCI(raw.value, "0") || SameCI(raw.value, "false") || SameCI(raw.value, "no"))
  {
    if raw.None? {
      var s := LowerString("1");
      assert s[0] == '1';
      assert "0"[0] == '0';
    } else {
      LowerMatch(raw.value, "0");
      LowerMatch(raw.value, "false");
      LowerMatch(raw.value, "no");
    }
  }

  /** For a lower-case word, lowering `s` gives the word exactly when `s` is it up to case. */
  lemma LowerMatch(s: string, w: string)
    requires LowerString(w) == w
    ensures LowerString(s) == w <==> SameCI(s, w)
  {
    if SameCI(s, w) {
      assert forall k | 0 <= k < |w| :: Lower(w[k]) == w[k] by {
        forall k | 0 <= k < |w| ensures Lower(w[k]) == w[k] {
          assert LowerString(w)[k] == Lower(w[k]);
        }
      }
      assert forall k | 0 <= k < |s| :: LowerString(s)[k] == w[k];
    }
    if LowerString(s) == w {
      assert forall k | 0 <= k < |w| :: Lower(w[k]) == Lower(s[k]) by {
        forall k | 0 <= k < |w| ensures Lower(w[k]) == Lower(s[k]) {
          assert LowerString(w)[k] == Lower(w[k]);
          assert LowerString(s)[k] == Lower(s[k]);
        }
      }
    }
  }

  const summaryPrompt := "Summarize the attached document with key points and action items."

  /** The analysis prompt: the trimmed message, or the summary prompt when that is empty. */
  function Prompt(message: string): string {
    var m := Trim(message);
    if m != "" then m else summaryPrompt
  }

  /** The tool entry an upload appends. */
  function UploadEntry(name: string, text: string): Message {
    Message(Tool, "Document: " + name + "\n\n" + text, Some("file_upload"))
  }

  /** `{ ok, chatId, filename, bytes, chars }` when analysis is skipped, else the turn's reply. */
  datatype UploadReply = Attached(chatId: string, filename: string, bytes: nat, chars: nat) | Analyzed(turn: TurnReply)

  /** The owner's chats after an admitted upload, and the route's reply. */
  datatype Uploading = Uploading(chats: seq<Chat>, reply: UploadReply)

  /** What an analysed upload hands to `runChatWithTools`. */
  function UploadHistory(cs: seq<Chat>, chatId: Option<string>, name: string, text: string, prompt: string, newId: string, now: int)
    : seq<Message>
  {
    var o := Open(cs, chatId, newId, name, now);
    o.chats[o.at].messages + [UploadEntry(name, text), UserEntry(prompt)]
  }

  /** An admitted upload of `f` with attached text `text`, when `analyzing`, replied to with `answer`. */
  function UploadTurn(cs: seq<Chat>, chatId: Option<string>, f: Uploaded, text: string, analyzing: bool,
      prompt: string, newId: string, now: int, answer: Llm.Reply): Uploading
  {
    var o := Open(cs, chatId, newId, f.name, now);
    if !analyzing then
      var after := Append(o.chats, o.at, [UploadEntry(f.name, text)], now);
      Uploading(after, Attached(after[o.at].id, f.name, f.bytes, |text|))
    else
      var entries := [UploadEntry(f.name, text), UserEntry(prompt), AssistantEntry(answer.assistant)];
      var after := Append(o.chats, o.at, entries, now);
      Uploading(after, Analyzed(TurnReply(after[o.at].id, after[o.at].messages, answer.tools)))
  }

  /** Without analysis, the chat that `POST /upload`'s push leaves is the upload's. */
  lemma AttachByPush(cs: seq<Chat>, chatId: Option<string>, f: Uploaded, text: string, prompt: string, newId: string, now: int,
      answer: Llm.Reply)
    ensures var o := Open(cs, chatId, newId, f.name, now);
      var withDoc := Pushed(o.chats[o.at], [UploadEntry(f.name, text)], now);
      var u := UploadTurn(cs, chatId, f, text, false, prompt, newId, now, answer);
      o.chats[o.at := withDoc] == u.chats && u.reply == Attached(o.chats[o.at].id, f.name, f.bytes, |text|)
  {
  }

  /** With analysis, the chat that `POST /upload`'s pushes leave is the upload's. */
  lemma AnalyzeByPushes(cs: seq<Chat>, chatId: Option<string>, f: Uploaded, text: string, prompt: string, newId: string,
      now: int, generate: seq<Message> -> Llm.Reply)
    ensures var o := Open(cs, chatId, newId, f.name, now);
      var mem := o.chats[o.at];
      var withDoc := Pushed(mem, [UploadEntry(f.name, text)], now);
      var withPrompt := withDoc.(messages := withDoc.messages + [UserEntry(prompt)]);
      var answer := generate(withPrompt.messages);
      var done := withPrompt.(messages := withPrompt.messages + [AssistantEntry(answer.assistant)]);
      var u := UploadTurn(cs, chatId, f, text, true, prompt, newId, now, answer);
      withPrompt.messages == UploadHistory(cs, chatId, f.name, text, prompt, newId, now) &&
      o.chats[o.at := done] == u.chats && u.reply == Analyzed(TurnReply(mem.id, done.messages, answer.tools))
  {
    var o := Open(cs, chatId, newId, f.name, now);
    var mem := o.chats[o.at];
    var doc := UploadEntry(f.name, text);
    var p := UserEntry(prompt);
    var a := AssistantEntry(generate(mem.messages + [doc, p]).assistant);
    assert [doc] + [p] == [doc, p];
    assert [doc, p] + [a] == [doc, p, a];
    SeqAssoc(mem.messages, [doc], [p]);
    SeqAssoc(mem.messages, [doc, p], [a]);
  }

  /**
   * An upload naming none of the owner's chats starts one titled with the file name, holding
   * the document entry and, when analysed, the prompt and the reply.
   */
  lemma UploadStartsChat(cs: seq<Chat>, chatId: Option<string>, f: Uploaded, text: string, analyzing: bool,
      prompt: string, newId: string, now: int, answer: Llm.Reply)
    requires chatId.Some? ==> forall j | 0 <= j < |cs| :: cs[j].id != chatId.value
    ensures var u := UploadTurn(cs, chatId, f, text, analyzing, prompt, newId, now, answer);
      var doc := UploadEntry(f.name, text);
      u.chats == cs + [Chat(newId, f.name,
        if analyzing then [doc, UserEntry(prompt), AssistantEntry(answer.assistant)] else [doc], now)] &&
      (!analyzing ==> u.reply == Attached(newId, f.name, f.bytes, |text|))
  {
    assert Named(cs, chatId).None?;
    var doc := UploadEntry(f.name, text);
    NewChatAppend(cs, newId, f.name, [doc], now);
    NewChatAppend(cs, newId, f.name, [doc, UserEntry(prompt), AssistantEntry(answer.assistant)], now);
  }

  /** An upload to one of the owner's chats adds the same entries to it and changes no other chat. */
  lemma UploadOnNamedChat(cs: seq<Chat>, chatId: Option<string>, f: Uploaded, text: string, analyzing: bool,
      prompt: string, newId: string, now: int, answer: Llm.Reply, i: nat)
    requires Well(cs) && i < |cs| && chatId == Some(cs[i].id)
    ensures var u := UploadTurn(cs, chatId, f, text, analyzing, prompt, newId, now, answer);
      var doc := UploadEntry(f.name, text);
      |u.chats| == |cs| && u.chats[i].title == cs[i].title && u.chats[i].id == cs[i].id &&
      u.chats[i].messages == cs[i].messages +
        (if analyzing then [doc, UserEntry(prompt), AssistantEntry(answer.assistant)] else [doc]) &&
      forall j | 0 <= j < |cs| && j != i :: u.chats[j] == cs[j]
  {
    assert Named(cs, chatId) == Some(i);
  }

  lemma UploadKeepsWell(cs: seq<Chat>, chatId: Option<string>, f: Uploaded, text: string, analyzing: bool,
      prompt: string, newId: string, now: int, answer: Llm.Reply)
    requires Well(cs) && newId != "" && Find(cs, newId).None?
    ensures Well(UploadTurn(cs, chatId, f, text, analyzing, prompt, newId, now, answer).chats)
  {
    var o := Open(cs, chatId, newId, f.name, now);
    OpenKeepsWell(cs, chatId, newId, f.name, now);
    var doc := UploadEntry(f.name, text);
    AppendKeepsWell(o.chats, o.at, [doc], now);
    AppendKeepsWell(o.chats, o.at, [doc, UserEntry(prompt), AssistantEntry(answer.assistant)], now);
  }

  // ---------------------------------------------------------------------------------------
  // Signup and login
  // ---------------------------------------------------------------------------------------

  /** A registered user; `passwordHash` is what bcrypt made of the password. */
  datatype User = UserRecord(id: string, name: string, email: string, passwordHash: string)

  /** The `user` of a signup or login answer: `{ id, name, email }`. */
  datatype Account = Account(id: string, name: string, email: string)

  function AccountOf(u: User): Account {
    Account(u.id, u.name, u.email)
  }

  /** `signupSchema`: a name of at least 2 characters, an email zod accepts, a password of at least 6. */
  predicate SignupBodyOk(name: string, email: string, password: string, isEmail: string -> bool) {
    |name| >= 2 && isEmail(email) && |password| >= 6
  }

  /** `loginSchema`: an email zod accepts and a password of at least 6 characters. */
  predicate LoginBodyOk(email: string, password: string, isEmail: string -> bool) {
    isEmail(email) && |password| >= 6
  }

  /**
   * `POST /auth/login` against the registry: a body failing the schema is a 400, an unknown
   * email or a password bcrypt does not match (`matches`) is a 401.
   */
  function Login(users: map<string, User>, email: string, password: string, isEmail: string -> bool,
      matches: (string, string) -> bool): (r: Outcome<Account>)
    ensures r.Ok? <==> LoginBodyOk(email, password, isEmail) && email in users && matches(password, users[email].passwordHash)
    ensures r.Ok? ==> r.value == AccountOf(users[email])
    ensures !LoginBodyOk(email, password, isEmail) ==> r == Fail(400, SchemaIssues)
    ensures LoginBodyOk(email, password, isEmail) && r.Fail? ==> r == Fail(401, ErrorText("Invalid credentials"))
  {
    if !LoginBodyOk(email, password, isEmail) then Fail(400, SchemaIssues)
    else if email !in users then Fail(401, ErrorText("Invalid credentials"))
    else if !matches(password, users[email].passwordHash) then Fail(401, ErrorText("Invalid credentials"))
    else Ok(AccountOf(users[email]))
  }

  /** After a signup, logging in with the same email and password gives the new account. */
  lemma SignupThenLogin(users: map<string, User>, name: string, email: string, password: string, isEmail: string -> bool,
      matches: (string, string) -> bool, id: string, hash: string)
    requires SignupBodyOk(name, email, password, isEmail) && matches(password, hash)
    ensures Login(users[email := UserRecord(id, name, email, hash)], email, password, isEmail, matches) == Ok(Account(id, name, email))
  {
  }

  // ---------------------------------------------------------------------------------------
  // The server's in-memory state
  // ---------------------------------------------------------------------------------------

  /** `global.__MEM_CHATS__` and `global.__MEM_USERS__`. */
  class MemoryServer {
    var chats: map<string, seq<Chat>>
    var users: map<string, User>

    ghost predicate Valid()
      reads this
    {
      (forall o | o in chats :: Well(chats[o])) && (forall e | e in users :: users[e].email == e)
    }

    constructor ()
      ensures Valid() && chats == map[] && users == map[]
    {
      chats := map[];
      users := map[];
    }

    /**
     * `userChats = __MEM_CHATS__.get(owner) || new Map()`, stored back, then the named chat or a
     * new one under `newId`: its position among the owner's chats.
     */
    method OpenChat(owner: string, chatId: Option<string>, newId: string, title: string, now: int) returns (at: nat)
      requires Valid() && newId != "" && Find(OwnerChats(chats, owner), newId).None?
      modifies this
      ensures Valid() && users == old(users)
      ensures var o := Open(OwnerChats(old(chats), owner), chatId, newId, title, now);
        chats == old(chats)[owner := o.chats] && at == o.at
    {
      var userChats := OwnerChats(chats, owner);
      OpenKeepsWell(userChats, chatId, newId, title, now);
      var mem := Named(userChats, chatId);
      if mem.Some? {
        at := mem.value;
        chats := chats[owner := userChats];
      } else {
        at := |userChats|;
        chats := chats[owner := userChats + [Chat(newId, title, [], now)]];
      }
    }

    /** The chat at `at` of `owner` becomes `mem`, the pushes made to the stored object. */
    method Store(owner: string, at: nat, mem: Chat)
      requires Valid() && owner in chats && at < |chats[owner]| && mem.id == chats[owner][at].id
      modifies this
      ensures Valid() && users == old(users)
      ensures chats == old(chats)[owner := old(chats)[owner][at := mem]]
    {
      ReplaceKeepsWell(chats[owner], at, mem);
      chats := chats[owner := chats[owner][at := mem]];
    }

    /**
     * `POST /chat`: an empty message is refused before the store is touched; otherwise the
     * named or a new chat gets the message and `runChatWithTools`'s reply.
     */
    method PostChat(owner: string, chatId: Option<string>, message: string, generate: seq<Message> -> Llm.Reply,
        newId: string, now: int) returns (r: Outcome<TurnReply>)
      requires Valid() && newId != "" && Find(OwnerChats(chats, owner), newId).None?
      modifies this
      ensures Valid() && users == old(users)
      ensures message == "" ==> r == Fail(400, SchemaIssues) && chats == old(chats)
      ensures message != "" ==>
        var cs := OwnerChats(old(chats), owner);
        var t := Turn(cs, chatId, message, newId, now, generate(TurnHistory(cs, chatId, message, newId, now)));
        chats == old(chats)[owner := t.chats] && r == Ok(t.reply)
    {
      if message == "" {
        return Fail(400, SchemaIssues);
      }
      ghost var cs := OwnerChats(chats, owner);
      var at := OpenChat(owner, chatId, newId, TitleOf(message), now);
      var mem := chats[owner][at];
      mem := mem.(messages := mem.messages + [UserEntry(message)]);
      var answer := generate(mem.messages);
      mem := mem.(messages := mem.messages + [AssistantEntry(answer.assistant)], updatedAt := now);
      Store(owner, at, mem);
      TurnByPushes(cs, chatId, message, newId, now, answer);
      r := Ok(TurnReply(mem.id, mem.messages, answer.tools));
    }

    /** The `onToken` callback over the tokens in order: `assistantFull += chunk` and a `delta` event. */
    static method Relay(tokens: seq<string>) returns (assistantFull: string, events: seq<StreamEvent>)
      ensures assistantFull == Concat(tokens) && events == Deltas(tokens)
    {
      assistantFull := "";
      events := [];
      var i := 0;
      while i < |tokens|
        invariant 0 <= i <= |tokens|
        invariant assistantFull == Concat(tokens[..i]) && events == Deltas(tokens[..i])
      {
        assert tokens[..i + 1][..i] == tokens[..i];
        assistantFull := assistantFull + tokens[i];
        events := events + [Delta(tokens[i])];
        i := i + 1;
      }
      assert tokens[..i] == tokens;
    }

    /**
     * `POST /chat/stream`: the user's message is stored, the reply streamed as `delta` events
     * and stored as their concatenation, and a `done` event names the chat.
     */
    method PostChatStream(owner: string, chatId: Option<string>, message: string, stream: seq<Message> -> seq<string>,
        newId: string, now: int) returns (r: Outcome<seq<StreamEvent>>)
      requires Valid() && newId != "" && Find(OwnerChats(chats, owner), newId).None?
      modifies this
      ensures Valid() && users == old(users)
      ensures message == "" ==> r == Fail(400, SchemaIssues) && chats == old(chats)
      ensures message != "" ==>
        var cs := OwnerChats(old(chats), owner);
        var s := StreamTurn(cs, chatId, message, newId, now, stream(TurnHistory(cs, chatId, message, newId, now)));
        chats == old(chats)[owner := s.chats] && r == Ok(s.events)
    {
      if message == "" {
        return Fail(400, SchemaIssues);
      }
      ghost var cs := OwnerChats(chats, owner);
      var at := OpenChat(owner, chatId, newId, TitleOf(message), now);
      StreamByPushes(cs, chatId, message, newId, now, stream(TurnHistory(cs, chatId, message, newId, now)));
      var events := StreamInto(owner, at, chats[owner][at], message, stream, now);
      r := Ok(events);
    }

    /**
     * The streaming part of `POST /chat/stream` on the opened chat `mem`: the user entry is
     * pushed, each token is relayed, then the whole reply is pushed and `done` sent.
     */
    method StreamInto(owner: string, at: nat, mem: Chat, message: string, stream: seq<Message> -> seq<string>, now: int)
        returns (events: seq<StreamEvent>)
      requires Valid() && owner in chats && at < |chats[owner]| && mem.id == chats[owner][at].id
      modifies this
      ensures Valid() && users == old(users)
      ensures var withUser := mem.(messages := mem.messages + [UserEntry(message)]);
        var tokens := stream(withUser.messages);
        chats == old(chats)[owner := old(chats)[owner][at := Pushed(withUser, [AssistantEntry(Concat(tokens))], now)]] &&
        events == Deltas(tokens) + [Done(mem.id)]
    {
      var chatDoc := mem.(messages := mem.messages + [UserEntry(message)]);
      var tokens := stream(chatDoc.messages);
      var assistantFull, relayed := Relay(tokens);
      chatDoc := chatDoc.(messages := chatDoc.messages + [AssistantEntry(assistantFull)], updatedAt := now);
      Store(owner, at, chatDoc);
      events := relayed + [Done(chatDoc.id)];
    }

    /** `GET /chats`: the caller's chats, nobody else's. */
    function ListChats(owner: string): (r: seq<ChatListing>)
      reads this
      ensures |r| == |OwnerChats(chats, owner)|
      ensures forall i | 0 <= i < |r| :: r[i] == ListingOf(OwnerChats(chats, owner)[i])
    {
      Listing(OwnerChats(chats, owner))
    }

    /** `GET /chats/:id`: the caller's chat with that id, or 404. */
    function GetChat(owner: string, id: string): (r: Outcome<Chat>)
      reads this
      ensures r.Ok? <==> exists j | 0 <= j < |OwnerChats(chats, owner)| :: OwnerChats(chats, owner)[j].id == id
      ensures r.Ok? ==> r.value.id == id && r.value in OwnerChats(chats, owner)
      ensures r.Fail? ==> r == Fail(404, ErrorText("Not found"))
    {
      match Find(OwnerChats(chats, owner), id)
      case Some(i) => Ok(OwnerChats(chats, owner)[i])
      case None => Fail(404, ErrorText("Not found"))
    }

    /**
     * `PATCH /chats/:id`: a blank title is a 400 and an id the caller does not have a 404, both
     * changing nothing; otherwise the title is the trimmed one.
     */
    method RenameChat(owner: string, id: string, rawTitle: string, now: int) returns (r: Outcome<()>)
      requires Valid()
      modifies this
      ensures Valid() && users == old(users)
      ensures NewTitle(rawTitle) == "" ==> r == Fail(400, ErrorText("Title is required")) && chats == old(chats)
      ensures NewTitle(rawTitle) != "" && Find(OwnerChats(old(chats), owner), id).None? ==>
        r == Fail(404, ErrorText("Not found")) && chats == old(chats)
      ensures NewTitle(rawTitle) != "" && Find(OwnerChats(old(chats), owner), id).Some? ==>
        r == Ok(()) && chats == old(chats)[owner := Retitle(old(chats)[owner], Find(old(chats)[owner], id).value, NewTitle(rawTitle), now)]
    {
      var title := NewTitle(rawTitle);
      if title == "" {
        return Fail(400, ErrorText("Title is required"));
      }
      var found := Find(OwnerChats(chats, owner), id);
      if found.None? {
        return Fail(404, ErrorText("Not found"));
      }
      var mem := chats[owner][found.value];
      Store(owner, found.value, mem.(title := title, updatedAt := now));
      r := Ok(());
    }

    /** `DELETE /chats/:id`: 404 when the caller has no such chat, else exactly that chat goes. */
    method DeleteChat(owner: string, id: string) returns (r: Outcome<()>)
      requires Valid()
      modifies this
      ensures Valid() && users == old(users)
      ensures Find(OwnerChats(old(chats), owner), id).None? ==> r == Fail(404, ErrorText("Not found")) && chats == old(chats)
      ensures Find(OwnerChats(old(chats), owner), id).Some? ==>
        r == Ok(()) && chats == old(chats)[owner := Remove(old(chats)[owner], Find(old(chats)[owner], id).value)]
    {
      var found := Find(OwnerChats(chats, owner), id);
      if found.None? {
        return Fail(404, ErrorText("Not found"));
      }
      RemoveSpec(chats[owner], found.value);
      chats := chats[owner := Remove(chats[owner], found.value)];
      r := Ok(());
    }

    /**
     * `POST /upload`: no file is a 400; an unsupported type or a failed extraction is refused
     * before the store is touched; otherwise the document entry goes to the named or a new chat
     * and, unless analysis is off, the prompt and `runChatWithTools`'s reply follow it.
     */
    method Upload(owner: string, file: Option<Uploaded>, chatId: Option<string>, message: string, analyze: Option<string>,
        extraction: Extraction, generate: seq<Message> -> Llm.Reply, newId: string, now: int) returns (r: Outcome<UploadReply>)
      requires Valid() && newId != "" && Find(OwnerChats(chats, owner), newId).None?
      modifies this
      ensures Valid() && users == old(users)
      ensures file.None? ==> r == Fail(400, ErrorText("No file uploaded")) && chats == old(chats)
      ensures file.Some? && Admit(file.value, extraction).Fail? ==>
        var a := Admit(file.value, extraction);
        r == Fail(a.status, a.error) && chats == old(chats)
      ensures file.Some? && Admit(file.value, extraction).Ok? ==>
        var cs := OwnerChats(old(chats), owner);
        var f, text := file.value, Admit(file.value, extraction).value;
        var answer := generate(UploadHistory(cs, chatId, f.name, text, Prompt(message), newId, now));
        var u := UploadTurn(cs, chatId, f, text, Analyze(analyze), Prompt(message), newId, now, answer);
        chats == old(chats)[owner := u.chats] && r == Ok(u.reply)
    {
      if file.None? {
        return Fail(400, ErrorText("No file uploaded"));
      }
      var f := file.value;
      var admitted := Admit(f, extraction);
      if admitted.Fail? {
        return Fail(admitted.status, admitted.error);
      }
      r := Attach(owner, chatId, f, admitted.value, Prompt(message), Analyze(analyze), generate, newId, now);
    }

    /** The store part of `POST /upload` for an admitted file whose attached text is `text`. */
    method Attach(owner: string, chatId: Option<string>, f: Uploaded, text: string, prompt: string, analyzing: bool,
        generate: seq<Message> -> Llm.Reply, newId: string, now: int) returns (r: Outcome<UploadReply>)
      requires Valid() && newId != "" && Find(OwnerChats(chats, owner), newId).None?
      modifies this
      ensures Valid() && users == old(users)
      ensures var cs := OwnerChats(old(chats), owner);
        var answer := generate(UploadHistory(cs, chatId, f.name, text, prompt, newId, now));
        var u := UploadTurn(cs, chatId, f, text, analyzing, prompt, newId, now, answer);
        chats == old(chats)[owner := u.chats] && r == Ok(u.reply)
    {
      ghost var cs := OwnerChats(chats, owner);
      var at := OpenChat(owner, chatId, newId, f.name, now);
      var mem := chats[owner][at];
      mem := mem.(messages := mem.messages + [UploadEntry(f.name, text)], updatedAt := now);
      if analyzing {
        AnalyzeByPushes(cs, chatId, f, text, prompt, newId, now, generate);
        r := AnalyzeDocument(owner, at, mem, prompt, generate);
      } else {
        AttachByPush(cs, chatId, f, text, prompt, newId, now, generate(UploadHistory(cs, chatId, f.name, text, prompt, newId, now)));
        r := KeepDocument(owner, at, mem, f, |text|);
      }
    }

    /** `POST /upload` with analysis off: `mem` with the document entry is stored, and the upload is reported. */
    method KeepDocument(owner: string, at: nat, mem: Chat, f: Uploaded, chars: nat) returns (r: Outcome<UploadReply>)
      requires Valid() && owner in chats && at < |chats[owner]| && mem.id == chats[owner][at].id
      modifies this
      ensures Valid() && users == old(users)
      ensures chats == old(chats)[owner := old(chats)[owner][at := mem]] && r == Ok(Attached(mem.id, f.name, f.bytes, chars))
    {
      Store(owner, at, mem);
      r := Ok(Attached(mem.id, f.name, f.bytes, chars));
    }

    /** The analysis of `POST /upload`: the prompt, then `runChatWithTools`'s reply, pushed to `mem`. */
    method AnalyzeDocument(owner: string, at: nat, mem: Chat, prompt: string, generate: seq<Message> -> Llm.Reply)
        returns (r: Outcome<UploadReply>)
      requires Valid() && owner in chats && at < |chats[owner]| && mem.id == chats[owner][at].id
      modifies this
      ensures Valid() && users == old(users)
      ensures var withPrompt := mem.(messages := mem.messages + [UserEntry(prompt)]);
        var answer := generate(withPrompt.messages);
        var done := withPrompt.(messages := withPrompt.messages + [AssistantEntry(answer.assistant)]);
        chats == old(chats)[owner := old(chats)[owner][at := done]] &&
        r == Ok(Analyzed(TurnReply(mem.id, done.messages, answer.tools)))
    {
      var chatDoc := mem.(messages := mem.messages + [UserEntry(prompt)]);
      var answer := generate(chatDoc.messages);
      chatDoc := chatDoc.(messages := chatDoc.messages + [AssistantEntry(answer.assistant)]);
      Store(owner, at, chatDoc);
      r := Ok(Analyzed(TurnReply(chatDoc.id, chatDoc.messages, answer.tools)));
    }

    /**
     * `POST /auth/signup`: a body failing the schema is a 400 and a registered email a 409, both
     * leaving the registry as it was; otherwise the user is registered under the email.
     */
    method Signup(name: string, email: string, password: string, isEmail: string -> bool, newId: string, passwordHash: string)
        returns (r: Outcome<Account>)
      requires Valid()
      modifies this
      ensures Valid() && chats == old(chats)
      ensures !SignupBodyOk(name, email, password, isEmail) ==> r == Fail(400, SchemaIssues) && users == old(users)
      ensures SignupBodyOk(name, email, password, isEmail) && email in old(users) ==>
        r == Fail(409, ErrorText("Email already registered")) && users == old(users)
      ensures SignupBodyOk(name, email, password, isEmail) && email !in old(users) ==>
        r == Ok(Account(newId, name, email)) && users == old(users)[email := UserRecord(newId, name, email, passwordHash)]
    {
      if !SignupBodyOk(name, email, password, isEmail) {
        return Fail(400, SchemaIssues);
      }
      if email in users {
        return Fail(409, ErrorText("Email already registered"));
      }
      var user := UserRecord(newId, name, email, passwordHash);
      users := users[email := user];
      r := Ok(AccountOf(user));
    }
  }
}
