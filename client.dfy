/**
 * The pure helpers and the stream readers of client/src/App.tsx: the signup and login
 * form checks, the citation list under an assistant message, the badge of an uploaded
 * document, the optimistic entry of `send`, and the loop that turns the server-sent events
 * of `POST /chat/stream` into the last entry of the message list.
 */
module Client {
  import opened Wrappers
  import opened Text
  import opened Messages
  import Urls
  import Routes

  // ---------------------------------------------------------------------------------------
  // The email pattern /^[^\s@]+@[^\s@]+\.[^\s@]+$/
  // ---------------------------------------------------------------------------------------

  /** `[^\s@]`. */
  predicate Plain(c: char) {
    !IsSpace(c) && c != '@'
  }

  predicate AllPlain(s: string) {
    forall i | 0 <= i < |s| :: Plain(s[i])
  }

  /** The pattern matches the whole of `s` with its `@` at `a` and its `\.` at `d`. */
  predicate EmailSplit(s: string, a: nat, d: nat) {
    && 0 < a && a + 1 < d && d + 1 < |s| && s[a] == '@' && s[d] == '.'
    && AllPlain(s[..a]) && AllPlain(s[a + 1..d]) && AllPlain(s[d + 1..])
  }

  /** `/^[^\s@]+@[^\s@]+\.[^\s@]+$/.test(s)`. */
  predicate EmailPattern(s: string) {
    exists a: nat, d: nat | a < d < |s| :: EmailSplit(s, a, d)
  }

  predicate NoSpaceIn(s: string) {
    forall i | 0 <= i < |s| :: !IsSpace(s[i])
  }

  /** The only `@` of `s` is at `a`. */
  predicate OnlyAt(s: string, a: nat) {
    a < |s| && s[a] == '@' && forall j | 0 <= j < |s| && s[j] == '@' :: j == a
  }

  /** A `.` sits after `a`, with at least one character on each side of it. */
  predicate DotAfter(s: string, a: nat) {
    exists d | a + 1 < d < |s| - 1 :: s[d] == '.'
  }

  /**
   * What the pattern accepts: no whitespace, exactly one `@` with something before it, and a
   * dot in the part after the `@` with at least one character on each side.
   */
  lemma EmailShape(s: string)
    ensures EmailPattern(s) <==> NoSpaceIn(s) && exists a | 0 < a < |s| :: OnlyAt(s, a) && DotAfter(s, a)
  {
    if EmailPattern(s) {
      var a: nat, d: nat :| a < d < |s| && EmailSplit(s, a, d);
      SplitShape(s, a, d);
    }
    if NoSpaceIn(s) && exists a | 0 < a < |s| :: OnlyAt(s, a) && DotAfter(s, a) {
      var a :| 0 < a < |s| && OnlyAt(s, a) && DotAfter(s, a);
      var d :| a + 1 < d < |s| - 1 && s[d] == '.';
      ShapeSplit(s, a, d);
    }
  }

  lemma SplitShape(s: string, a: nat, d: nat)
    requires EmailSplit(s, a, d)
    ensures NoSpaceIn(s) && OnlyAt(s, a) && DotAfter(s, a)
  {
    forall i | 0 <= i < |s| ensures !IsSpace(s[i]) && (s[i] == '@' ==> i == a) {
      if i < a {
        assert s[..a][i] == s[i];
      } else if a < i < d {
        assert s[a + 1..d][i - a - 1] == s[i];
      } else if d < i {
        assert s[d + 1..][i - d - 1] == s[i];
      }
    }
  }

  lemma ShapeSplit(s: string, a: nat, d: nat)
    requires NoSpaceIn(s) && 0 < a && OnlyAt(s, a) && a + 1 < d < |s| - 1 && s[d] == '.'
    ensures EmailSplit(s, a, d)
  {
    assert forall i | 0 <= i < |s| && i != a :: Plain(s[i]);
    PlainSlice(s, 0, a);
    PlainSlice(s, a + 1, d);
    PlainSlice(s, d + 1, |s|);
    assert s[d + 1..] == s[d + 1..|s|];
  }

  lemma PlainSlice(s: string, lo: nat, hi: nat)
    requires lo <= hi <= |s| && forall i | lo <= i < hi :: Plain(s[i])
    ensures AllPlain(s[lo..hi])
  {
    forall i | 0 <= i < hi - lo ensures Plain(s[lo..hi][i]) {
      assert s[lo..hi][i] == s[lo + i];
    }
  }

  // ---------------------------------------------------------------------------------------
  // Signup and login forms (`onSubmit`)
  // ---------------------------------------------------------------------------------------

  const nameError := "Name must be at least 2 characters"
  const emailError := "Enter a valid email address"
  const passwordError := "Password must be at least 6 characters"
  const passwordRequired := "Password is required"

  /** `nextErr` of the signup form: one message per failing field. */
  datatype SignupErrors = SignupErrors(name: Option<string>, email: Option<string>, password: Option<string>)

  /** `nextErr` of the login form. */
  datatype LoginErrors = LoginErrors(email: Option<string>, password: Option<string>)

  /** The signup request is sent exactly when these hold. */
  predicate SignupReady(name: string, email: string, password: string) {
    |Trim(name)| >= 2 && EmailPattern(email) && |password| >= 6
  }

  predicate LoginReady(email: string, password: string) {
    EmailPattern(email) && password != []
  }

  /**
   * The signup `onSubmit` checks: each failing rule sets its field's message, and the request
   * is sent (`sent`) only when no field has one.
   */
  method ValidateSignup(name: string, email: string, password: string) returns (errs: SignupErrors, sent: bool)
    ensures errs.name.Some? <==> |Trim(name)| < 2
    ensures errs.email.Some? <==> !EmailPattern(email)
    ensures errs.password.Some? <==> |password| < 6
    ensures errs.name.Some? ==> errs.name.value == nameError
    ensures errs.email.Some? ==> errs.email.value == emailError
    ensures errs.password.Some? ==> errs.password.value == passwordError
    ensures sent <==> SignupReady(name, email, password)
  {
    errs := SignupErrors(None, None, None);
    var trimmed := Trim(name);
    if trimmed == [] || |trimmed| < 2 {
      errs := errs.(name := Some(nameError));
    }
    if !EmailPattern(email) {
      errs := errs.(email := Some(emailError));
    }
    if |password| < 6 {
      errs := errs.(password := Some(passwordError));
    }
    sent := errs == SignupErrors(None, None, None);
  }

  /** The login `onSubmit` checks. */
  method ValidateLogin(email: string, password: string) returns (errs: LoginErrors, sent: bool)
    ensures errs.email.Some? <==> !EmailPattern(email)
    ensures errs.password.Some? <==> password == []
    ensures errs.email.Some? ==> errs.email.value == emailError
    ensures errs.password.Some? ==> errs.password.value == passwordRequired
    ensures sent <==> LoginReady(email, password)
  {
    errs := LoginErrors(None, None);
    if !EmailPattern(email) {
      errs := errs.(email := Some(emailError));
    }
    if password == [] {
      errs := errs.(password := Some(passwordRequired));
    }
    sent := errs == LoginErrors(None, None);
  }

  /**
   * A signup form the client sends meets the server's length rules for the name and the
   * password: the server counts the name untrimmed, and trimming only shortens it.
   */
  lemma SentSignupMeetsLengthRules(name: string, email: string, password: string, isEmail: string -> bool)
    requires SignupReady(name, email, password) && isEmail(email)
    ensures Routes.SignupBodyOk(name, email, password, isEmail)
  {
    assert |TrimStart(name)| <= |name|;
  }

  // ---------------------------------------------------------------------------------------
  // MessageCitations
  // ---------------------------------------------------------------------------------------

  /** `Array.from(new Set(content.match(urlRegex) || [])).slice(0, 5)`. */
  function Citations(content: string): seq<string> {
    var urls := Urls.Dedup(Urls.Matches(content, true));
    if |urls| <= 5 then urls else urls[..5]
  }

  /**
   * The citations are `extractUniqueUrls(content, 5)`, and the component renders nothing
   * exactly when the content holds no URL.
   */
  lemma CitationsSpec(content: string)
    ensures Citations(content) == Urls.ExtractUniqueUrls(content, 5)
    ensures Citations(content) == [] <==> Urls.Matches(content, true) == []
  {
    var ms := Urls.Matches(content, true);
    Urls.DedupSpec(ms);
    if ms != [] {
      assert ms[0] in Urls.Dedup(ms);
    }
  }

  // ---------------------------------------------------------------------------------------
  // renderToolMessage
  // ---------------------------------------------------------------------------------------

  /** `s.split('\n', 1)[0]`: everything before the first line feed. */
  function FirstLine(s: string): (r: string)
    ensures |r| <= |s| && r == s[..|r|] && '\n' !in r
    ensures |r| == |s| || s[|r|] == '\n'
    decreases |s|
  {
    if s == [] || s[0] == '\n' then [] else [s[0]] + FirstLine(s[1..])
  }

  predicate NoLineBreak(s: string) {
    forall i | 0 <= i < |s| :: !IsLineTerminator(s[i])
  }

  /**
   * `\s*(.+)$` matches all of `r` with the group starting at `k`: whitespace before `k`, and
   * one or more characters other than line terminators from `k` to the end.
   */
  predicate Captures(r: string, k: nat) {
    k < |r| && AllSpace(r[..k]) && NoLineBreak(r[k..])
  }

  /**
   * The group `\s*(.+)$` captures in `r`. The greedy `\s*` takes all leading whitespace when
   * something follows it, and otherwise gives the last character back to `(.+)`.
   */
  function Group(r: string): Option<string> {
    var t := TrimStart(r);
    if t != [] then
      if NoLineBreak(t) then Some(t) else None
    else if r != [] && !IsLineTerminator(r[|r| - 1]) then Some(r[|r| - 1..])
    else None
  }

  /**
   * `Group` is the capture of the greedy match: it exists exactly when some split of `r`
   * matches, it is what follows the split point, and no later split point matches.
   */
  lemma GroupSpec(r: string)
    ensures Group(r).Some? <==> exists k: nat :: Captures(r, k)
    ensures Group(r).Some? ==>
      var g := Group(r).value;
      |g| <= |r| && g == r[|r| - |g|..] && Captures(r, |r| - |g|) &&
      forall k | |r| - |g| < k <= |r| :: !Captures(r, k)
  {
    var t := TrimStart(r);
    var p := |r| - |t|;
    if t != [] {
      assert t[0] == r[p] && t == r[p..];
      forall k: nat | Captures(r, k) ensures k <= p && NoLineBreak(t) {
        CaptureBeforeText(r, p, k);
      }
      if NoLineBreak(t) {
        assert Captures(r, p);
      }
    } else if r != [] {
      var n := |r| - 1;
      forall k: nat | Captures(r, k) ensures !IsLineTerminator(r[n]) {
        assert r[k..][n - k] == r[n];
      }
      if !IsLineTerminator(r[n]) {
        assert r[..p] == r;
        CaptureLast(r);
      }
    }
  }

  /** When `r` has text from `p` on, after whitespace, a split point lies in that whitespace. */
  lemma CaptureBeforeText(r: string, p: nat, k: nat)
    requires p < |r| && !IsSpace(r[p]) && Captures(r, k)
    ensures k <= p && NoLineBreak(r[p..])
  {
    forall i | 0 <= i < |r| - p ensures !IsLineTerminator(r[p..][i]) {
      assert r[p..][i] == r[k..][p - k + i];
    }
  }

  /** A blank `r` whose last character is no line terminator captures that character. */
  lemma CaptureLast(r: string)
    requires r != [] && AllSpace(r) && !IsLineTerminator(r[|r| - 1])
    ensures Captures(r, |r| - 1)
  {
    var n := |r| - 1;
    forall i | 0 <= i < n ensures IsSpace(r[..n][i]) {
      assert r[..n][i] == r[i];
    }
  }

  /** `firstLine.match(/^Document:\s*(.+)$/)`, as the captured file name. */
  function DocumentName(line: string): Option<string> {
    if HasAt(line, 0, "Document:") then Group(line[9..]) else None
  }

  /** The file name a tool entry's badge shows. */
  function ToolFilename(content: string): string {
    DocumentName(FirstLine(content)).GetOr("Attachment")
  }

  lemma {:induction false} FirstLineOf(x: string, rest: string)
    requires '\n' !in x && rest != [] && rest[0] == '\n'
    ensures FirstLine(x + rest) == x
    decreases |x|
  {
    if x != [] {
      assert x[0] in x;
      assert (x + rest)[1..] == x[1..] + rest;
      FirstLineOf(x[1..], rest);
    }
  }

  /** `Document: <name>` names `<name>` when the name is not empty, does not start with whitespace and has no line terminator. */
  lemma DocumentNameOf(name: string)
    requires name != [] && !IsSpace(name[0]) && NoLineBreak(name)
    ensures DocumentName("Document: " + name) == Some(name)
  {
    var line := "Document: " + name;
    assert line[..9] == "Document:";
    assert line[9..] == " " + name;
    assert (" " + name)[1..] == name;
  }

  lemma NoLineFeed(name: string)
    requires NoLineBreak(name)
    ensures '\n' !in "Document: " + name
  {
    var line := "Document: " + name;
    forall i | 0 <= i < |line| ensures line[i] != '\n' {
      if i >= 10 { assert line[i] == name[i - 10]; }
    }
  }

  /**
   * The badge of an uploaded document shows its name: the tool entry the server appends,
   * `Document: <name>\n\n<text>`, parses back to `<name>` when the name is not empty, does
   * not start with whitespace and has no line terminator.
   */
  lemma UploadNameRoundTrip(name: string, text: string)
    requires name != [] && !IsSpace(name[0]) && NoLineBreak(name)
    ensures ToolFilename(Routes.UploadEntry(name, text).content) == name
  {
    var line := "Document: " + name;
    NoLineFeed(name);
    assert "Document: " + name + "\n\n" + text == line + ("\n\n" + text);
    FirstLineOf(line, "\n\n" + text);
    DocumentNameOf(name);
  }

  /** The badge's icon. */
  datatype Icon = PdfIcon | DocIcon | Paperclip

  /** `isPdf ? pdf : isDoc ? doc : paperclip`, on the lower-cased file name. */
  function IconFor(filename: string): Icon {
    var lower := LowerString(filename);
    if EndsWith(lower, ".pdf") then PdfIcon
    else if EndsWith(lower, ".docx") || EndsWith(lower, ".doc") then DocIcon
    else Paperclip
  }

  /** Lower-casing then comparing with a lower-case suffix is a case-insensitive suffix test. */
  lemma LowerEndsWith(s: string, suffix: string)
    requires LowerString(suffix) == suffix
    ensures EndsWith(LowerString(s), suffix) <==> Routes.EndsWithCI(s, suffix)
  {
    var l := LowerString(s);
    if |suffix| <= |s| {
      var o := |s| - |suffix|;
      if EndsWith(l, suffix) {
        forall k | 0 <= k < |suffix| ensures Lower(s[o + k]) == Lower(suffix[k]) {
          assert l[o..][k] == l[o + k];
          assert Lower(suffix[k]) == LowerString(suffix)[k];
        }
      }
      if Routes.EndsWithCI(s, suffix) {
        forall k | 0 <= k < |suffix| ensures l[o..][k] == suffix[k] {
          assert Lower(suffix[k]) == LowerString(suffix)[k];
        }
      }
    }
  }

  /** The icon is chosen case-insensitively, `.pdf` first, then `.docx` or `.doc`. */
  lemma IconSpec(filename: string)
    ensures IconFor(filename) == PdfIcon <==> Routes.EndsWithCI(filename, ".pdf")
    ensures IconFor(filename) == DocIcon <==>
      !Routes.EndsWithCI(filename, ".pdf") && (Routes.EndsWithCI(filename, ".docx") || Routes.EndsWithCI(filename, ".doc"))
    ensures IconFor(filename) == Paperclip <==>
      !Routes.EndsWithCI(filename, ".pdf") && !Routes.EndsWithCI(filename, ".docx") && !Routes.EndsWithCI(filename, ".doc")
  {
    LowerEndsWith(filename, ".pdf");
    LowerEndsWith(filename, ".docx");
    LowerEndsWith(filename, ".doc");
  }

  // ---------------------------------------------------------------------------------------
  // send
  // ---------------------------------------------------------------------------------------

  /**
   * The guard and optimistic update of `send`: nothing for whitespace-only input, otherwise
   * the previous entries followed by one user entry holding the input as typed.
   */
  function Optimistic(messages: seq<Message>, input: string): (r: Option<seq<Message>>)
    ensures r.None? <==> AllSpace(input)
    ensures r.Some? ==>
      |r.value| == |messages| + 1 && r.value[..|messages|] == messages && r.value[|messages|] == UserEntry(input)
  {
    TrimEmptyIffAllSpace(input);
    if Trim(input) == [] then None else Some(messages + [UserEntry(input)])
  }

  // ---------------------------------------------------------------------------------------
  // Reading the event stream (the `while (true)` loops of send, createNewChat and attachFile)
  // ---------------------------------------------------------------------------------------

  /** `text.split('\n')`. */
  function Lines(s: string): (r: seq<string>)
    ensures |r| >= 1
    decreases |s|
  {
    if s == [] then [[]]
    else
      var init := Lines(s[..|s| - 1]);
      var c := s[|s| - 1];
      if c == '\n' then init + [[]] else init[..|init| - 1] + [init[|init| - 1] + [c]]
  }

  /** The pieces `split` returns hold no line feed, and joining them with line feeds gives the text back. */
  lemma {:induction false} LinesSpec(s: string)
    ensures forall k | 0 <= k < |Lines(s)| :: '\n' !in Lines(s)[k]
    ensures Join(Lines(s), "\n") == s
    decreases |s|
  {
    if s != [] {
      var init := Lines(s[..|s| - 1]);
      var c := s[|s| - 1];
      LinesSpec(s[..|s| - 1]);
      assert s == s[..|s| - 1] + [c];
      if c == '\n' {
        LinesBreak(init, s[..|s| - 1]);
      } else {
        LinesStep(init, c, s[..|s| - 1]);
      }
    }
  }

  lemma LinesBreak(init: seq<string>, prefix: string)
    requires |init| >= 1 && Join(init, "\n") == prefix
    requires forall k | 0 <= k < |init| :: '\n' !in init[k]
    ensures var r := init + [[]];
      (forall k | 0 <= k < |r| :: '\n' !in r[k]) && Join(r, "\n") == prefix + "\n"
  {
    var r := init + [[]];
    assert forall k | 0 <= k < |init| :: r[k] == init[k];
    JoinAppend(init, [], "\n");
  }

  lemma LinesStep(init: seq<string>, c: char, prefix: string)
    requires |init| >= 1 && c != '\n' && Join(init, "\n") == prefix
    requires forall k | 0 <= k < |init| :: '\n' !in init[k]
    ensures var r := init[..|init| - 1] + [init[|init| - 1] + [c]];
      (forall k | 0 <= k < |r| :: '\n' !in r[k]) && Join(r, "\n") == prefix + [c]
  {
    var front, last := init[..|init| - 1], init[|init| - 1];
    var r := front + [last + [c]];
    assert forall k | 0 <= k < |front| :: r[k] == init[k];
    if front == [] {
      assert init == [last];
    } else {
      assert init == front + [last];
      JoinAppend(front, last, "\n");
      JoinAppend(front, last + [c], "\n");
    }
  }

  /** The lines of every chunk, chunk after chunk: what the inner `for` loops visit. */
  function StreamLines(chunks: seq<string>): seq<string>
    decreases |chunks|
  {
    if chunks == [] then [] else StreamLines(chunks[..|chunks| - 1]) + Lines(chunks[|chunks| - 1])
  }

  /** `JSON.parse(line.slice(6))`, seen through the fields the loops look at. */
  datatype Payload = DeltaData(chunk: string) | DoneData(chatId: string) | OtherData | Unparsable

  /** `line.startsWith('data: ')`. */
  predicate IsData(line: string) {
    HasAt(line, 0, "data: ")
  }

  /** The parsed payloads of the `data: ` lines, in order; other lines are skipped. */
  function Payloads(lines: seq<string>, decode: string -> Payload): seq<Payload>
    decreases |lines|
  {
    if lines == [] then []
    else
      var line := lines[|lines| - 1];
      Payloads(lines[..|lines| - 1], decode) + (if IsData(line) then [decode(line[6..])] else [])
  }

  /** The chunks of the `delta` payloads, in order. */
  function Chunks(ps: seq<Payload>): seq<string>
    decreases |ps|
  {
    if ps == [] then []
    else
      var p := ps[|ps| - 1];
      Chunks(ps[..|ps| - 1]) + (if p.DeltaData? then [p.chunk] else [])
  }

  /** The chat id of the last `done` payload with a non-empty one (`data.type === 'done' && data.chatId`). */
  function DoneId(ps: seq<Payload>): Option<string>
    decreases |ps|
  {
    if ps == [] then None
    else
      var p := ps[|ps| - 1];
      if p.DoneData? && p.chatId != [] then Some(p.chatId) else DoneId(ps[..|ps| - 1])
  }

  predicate Parsed(ps: seq<Payload>) {
    forall k | 0 <= k < |ps| :: !ps[k].Unparsable?
  }

  /**
   * `setMessages(prev => { clone[clone.length-1] = { role: 'assistant', content: buf } })`:
   * the last entry becomes an assistant entry with `buf`, the length and every other entry
   * stay. On an empty list the assignment names no element and the list stays empty.
   */
  function ShowDelta(ms: seq<Message>, buf: string): (r: seq<Message>)
    ensures |r| == |ms|
    ensures ms != [] ==> r[..|ms| - 1] == ms[..|ms| - 1] && r[|ms| - 1] == AssistantEntry(buf)
  {
    if ms == [] then ms else ms[|ms| - 1 := AssistantEntry(buf)]
  }

  lemma {:induction false} PayloadsAppend(a: seq<string>, b: seq<string>, decode: string -> Payload)
    ensures Payloads(a + b, decode) == Payloads(a, decode) + Payloads(b, decode)
    decreases |b|
  {
    if b == [] {
      assert a + b == a;
    } else {
      var b', x := b[..|b| - 1], b[|b| - 1];
      assert (a + b)[..|a + b| - 1] == a + b';
      PayloadsAppend(a, b', decode);
    }
  }

  lemma StreamLinesAt(chunks: seq<string>, i: nat)
    requires i < |chunks|
    ensures StreamLines(chunks[..i + 1]) == StreamLines(chunks[..i]) + Lines(chunks[i])
  {
    assert chunks[..i + 1][..i] == chunks[..i];
  }

  lemma {:induction false} StreamLinesAppend(a: seq<string>, b: seq<string>)
    ensures StreamLines(a + b) == StreamLines(a) + StreamLines(b)
    decreases |b|
  {
    if b == [] {
      assert a + b == a;
    } else {
      var b', x := b[..|b| - 1], b[|b| - 1];
      assert (a + b)[..|a + b| - 1] == a + b' && (a + b)[|a + b| - 1] == x;
      StreamLinesAppend(a, b');
      calc {
        StreamLines(a + b);
        StreamLines(a + b') + Lines(x);
        (StreamLines(a) + StreamLines(b')) + Lines(x);
        { SeqAssoc(StreamLines(a), StreamLines(b'), Lines(x)); }
        StreamLines(a) + StreamLines(b);
      }
    }
  }

  /** One line seen by the loop: its payload, if any, is appended to those already seen. */
  lemma PayloadsStep(seen: seq<string>, line: string, decode: string -> Payload)
    ensures Payloads(seen + [line], decode) == Payloads(seen, decode) + (if IsData(line) then [decode(line[6..])] else [])
  {
    assert (seen + [line])[..|seen|] == seen;
  }

  /** Where line `j` of chunk `i` sits among the lines of the whole stream. */
  lemma LinesAround(chunks: seq<string>, i: nat, j: nat)
    requires i < |chunks| && j < |Lines(chunks[i])|
    ensures var lines := Lines(chunks[i]);
      StreamLines(chunks) == (StreamLines(chunks[..i]) + lines[..j]) + [lines[j]] + (lines[j + 1..] + StreamLines(chunks[i + 1..]))
  {
    var lines := Lines(chunks[i]);
    ChunkAround(chunks, i);
    SeqAround(StreamLines(chunks[..i]), lines, StreamLines(chunks[i + 1..]), j);
  }

  lemma ChunkAround(chunks: seq<string>, i: nat)
    requires i < |chunks|
    ensures StreamLines(chunks) == StreamLines(chunks[..i]) + Lines(chunks[i]) + StreamLines(chunks[i + 1..])
  {
    assert chunks == chunks[..i + 1] + chunks[i + 1..];
    StreamLinesAppend(chunks[..i + 1], chunks[i + 1..]);
    StreamLinesAt(chunks, i);
  }

  lemma SeqAround<T>(x: seq<T>, ys: seq<T>, z: seq<T>, j: nat)
    requires j < |ys|
    ensures x + ys + z == (x + ys[..j]) + [ys[j]] + (ys[j + 1..] + z)
  {
    assert ys == ys[..j] + [ys[j]] + ys[j + 1..];
  }

  /**
   * Before a line that fails to parse, the payloads seen are exactly those the whole stream
   * starts with, and the stream's next payload is that failure.
   */
  lemma StopsAt(chunks: seq<string>, i: nat, j: nat, decode: string -> Payload)
    requires i < |chunks| && j < |Lines(chunks[i])|
    requires IsData(Lines(chunks[i])[j]) && decode(Lines(chunks[i])[j][6..]) == Unparsable
    ensures var seen := Payloads(StreamLines(chunks[..i]) + Lines(chunks[i])[..j], decode);
      var ps := Payloads(StreamLines(chunks), decode);
      |seen| < |ps| && ps[..|seen|] == seen && ps[|seen|] == Unparsable
  {
    var lines := Lines(chunks[i]);
    LinesAround(chunks, i, j);
    StopsWithin(StreamLines(chunks[..i]) + lines[..j], lines[j], lines[j + 1..] + StreamLines(chunks[i + 1..]), decode);
  }

  lemma StopsWithin(before: seq<string>, line: string, after: seq<string>, decode: string -> Payload)
    requires IsData(line) && decode(line[6..]) == Unparsable
    ensures var seen := Payloads(before, decode);
      var ps := Payloads(before + [line] + after, decode);
      |seen| < |ps| && ps[..|seen|] == seen && ps[|seen|] == Unparsable
  {
    PayloadsAppend(before + [line], after, decode);
    PayloadsStep(before, line, decode);
  }

  lemma SnocSlice<T>(x: seq<T>, ys: seq<T>, j: nat)
    requires j < |ys|
    ensures x + ys[..j] + [ys[j]] == x + ys[..j + 1]
  {
    assert ys[..j + 1] == ys[..j] + [ys[j]];
  }

  lemma ChunksStep(ps: seq<Payload>, p: Payload)
    ensures Parsed(ps) && !p.Unparsable? ==> Parsed(ps + [p])
    ensures Concat(Chunks(ps + [p])) == Concat(Chunks(ps)) + (if p.DeltaData? then p.chunk else [])
    ensures DoneId(ps + [p]) == if p.DoneData? && p.chatId != [] then Some(p.chatId) else DoneId(ps)
  {
    assert (ps + [p])[..|ps|] == ps;
    var cs := Chunks(ps);
    if p.DeltaData? {
      assert (cs + [p.chunk])[..|cs|] == cs;
    } else {
      assert cs + [] == cs;
    }
  }

  /** The reader's state after handling the payloads `seen`. */
  predicate Reflects(prev: seq<Message>, seen: seq<Payload>, shown: seq<Message>, buf: string, chatId: Option<string>, consumed: nat) {
    && consumed == |seen| && Parsed(seen) && buf == Concat(Chunks(seen)) && chatId == DoneId(seen)
    && shown == prev + [AssistantEntry(buf)]
  }

  /**
   * The inner `for` loop over the lines of one chunk. It stops at the first `data: ` line that
   * fails to parse (`stop`), or handles every line (`stop == |lines|`).
   */
  method ReadLines(prev: seq<Message>, ghost before: seq<string>, lines: seq<string>, decode: string -> Payload,
                   shown0: seq<Message>, buf0: string, chatId0: Option<string>, consumed0: nat)
    returns (shown: seq<Message>, buf: string, chatId: Option<string>, consumed: nat, stop: nat)
    requires Reflects(prev, Payloads(before, decode), shown0, buf0, chatId0, consumed0)
    ensures stop <= |lines| && Reflects(prev, Payloads(before + lines[..stop], decode), shown, buf, chatId, consumed)
    ensures stop < |lines| ==> IsData(lines[stop]) && decode(lines[stop][6..]) == Unparsable
  {
    shown, buf, chatId, consumed := shown0, buf0, chatId0, consumed0;
    ghost var seen := Payloads(before, decode);
    var j := 0;
    assert before + lines[..0] == before;
    while j < |lines|
      invariant 0 <= j <= |lines|
      invariant seen == Payloads(before + lines[..j], decode)
      invariant Reflects(prev, seen, shown, buf, chatId, consumed)
    {
      var line := lines[j];
      SnocSlice(before, lines, j);
      PayloadsStep(before + lines[..j], line, decode);
      if IsData(line) {
        var data := decode(line[6..]);
        if data.Unparsable? {
          return shown, buf, chatId, consumed, j;
        }
        ChunksStep(seen, data);
        if data.DeltaData? {
          buf := buf + data.chunk;
          shown := ShowDelta(shown, buf);
        } else if data.DoneData? && data.chatId != [] {
          chatId := Some(data.chatId);
        }
        seen := seen + [data];
        consumed := consumed + 1;
      }
      j := j + 1;
    }
    stop := j;
  }

  /**
   * The reader: an empty assistant entry is appended to `prev`, then every `data: ` line of
   * every chunk is parsed; a `delta` grows the buffer and rewrites the last entry with it, a
   * `done` with a chat id records the id. A line that fails to parse throws, which ends the
   * reading (`failed`); `consumed` counts the payloads handled before that.
   */
  method ReadStream(prev: seq<Message>, chunks: seq<string>, decode: string -> Payload)
    returns (shown: seq<Message>, chatId: Option<string>, consumed: nat, failed: bool)
    ensures var ps := Payloads(StreamLines(chunks), decode);
      && consumed <= |ps| && Parsed(ps[..consumed])
      && (failed <==> consumed < |ps|) && (failed ==> ps[consumed] == Unparsable)
      && shown == prev + [AssistantEntry(Concat(Chunks(ps[..consumed])))]
      && chatId == DoneId(ps[..consumed])
  {
    var buf := "";
    shown := prev + [AssistantEntry(buf)];
    chatId := None;
    consumed := 0;
    failed := false;
    var i := 0;
    while i < |chunks|
      invariant 0 <= i <= |chunks|
      invariant Reflects(prev, Payloads(StreamLines(chunks[..i]), decode), shown, buf, chatId, consumed)
    {
      var lines := Lines(chunks[i]);
      var stop;
      shown, buf, chatId, consumed, stop := ReadLines(prev, StreamLines(chunks[..i]), lines, decode, shown, buf, chatId, consumed);
      if stop < |lines| {
        StopsAt(chunks, i, stop, decode);
        assert Payloads(StreamLines(chunks), decode)[..consumed] == Payloads(StreamLines(chunks[..i]) + lines[..stop], decode);
        failed := true;
        return;
      }
      assert lines[..stop] == lines;
      StreamLinesAt(chunks, i);
      i := i + 1;
    }
    assert chunks[..i] == chunks;
    assert Payloads(StreamLines(chunks), decode)[..consumed] == Payloads(StreamLines(chunks), decode);
  }

  /**
   * The streaming path of `send`: nothing happens for whitespace-only input; otherwise the
   * optimistic list gets an assistant entry that the reader fills, so the list ends with the
   * user entry and the reply read so far. `failed` is the `catch` that alerts "Stream failed".
   */
  method Send(messages: seq<Message>, input: string, chunks: seq<string>, decode: string -> Payload)
    returns (shown: seq<Message>, sent: bool, failed: bool)
    ensures sent <==> !AllSpace(input)
    ensures !sent ==> shown == messages && !failed
    ensures sent ==> |shown| == |messages| + 2 && shown[..|messages|] == messages && shown[|messages|] == UserEntry(input)
    ensures var ps := Payloads(StreamLines(chunks), decode);
      && (failed <==> sent && !Parsed(ps))
      && (sent && !failed ==> shown[|messages| + 1] == AssistantEntry(Concat(Chunks(ps))))
  {
    var optimistic := Optimistic(messages, input);
    if optimistic.None? {
      return messages, false, false;
    }
    var chatId, consumed;
    shown, chatId, consumed, failed := ReadStream(optimistic.value, chunks, decode);
    sent := true;
    ghost var ps := Payloads(StreamLines(chunks), decode);
    assert shown[..|messages|] == optimistic.value[..|messages|];
    if !failed {
      assert ps[..consumed] == ps;
    } else {
      assert !Parsed(ps) by {
        assert ps[consumed].Unparsable?;
      }
    }
  }

  // ---------------------------------------------------------------------------------------
  // The stream the server sends, as the client reads it
  // ---------------------------------------------------------------------------------------

  /** What the client's `JSON.parse` gives back for a server event. */
  function PayloadOf(e: Routes.StreamEvent): Payload {
    match e
    case Delta(chunk) => DeltaData(chunk)
    case Done(id) => DoneData(id)
  }

  /** The payloads of `events`, in order. */
  function Received(events: seq<Routes.StreamEvent>): (r: seq<Payload>)
    decreases |events|
  {
    if events == [] then [] else Received(events[..|events| - 1]) + [PayloadOf(events[|events| - 1])]
  }

  /**
   * `res.write(`data: ${JSON.stringify(evt)}\n\n`)` for each event, each write arriving as one
   * chunk; `encode` stands for `JSON.stringify`.
   */
  function Frames(events: seq<Routes.StreamEvent>, encode: Routes.StreamEvent -> string): seq<string>
    decreases |events|
  {
    if events == [] then []
    else Frames(events[..|events| - 1], encode) + ["data: " + encode(events[|events| - 1]) + "\n\n"]
  }

  /** `JSON.stringify` writes no raw line feed, and `JSON.parse` reads each event back. */
  ghost predicate RoundTrips(encode: Routes.StreamEvent -> string, decode: string -> Payload) {
    forall e :: '\n' !in encode(e) && decode(encode(e)) == PayloadOf(e)
  }

  lemma {:induction false} LinesOfText(x: string)
    requires '\n' !in x
    ensures Lines(x) == [x]
    decreases |x|
  {
    if x != [] {
      assert x[|x| - 1] in x;
      assert forall c | c in x[..|x| - 1] :: c in x;
      LinesOfText(x[..|x| - 1]);
      assert x[..|x| - 1] + [x[|x| - 1]] == x;
    }
  }

  lemma LinesThenBreak(t: string)
    ensures Lines(t + "\n") == Lines(t) + [""]
  {
    assert (t + "\n")[..|t|] == t;
  }

  /** A frame splits into its `data: ` line and two empty lines. */
  lemma FrameLines(x: string)
    requires '\n' !in x
    ensures Lines("data: " + x + "\n\n") == ["data: " + x, "", ""]
  {
    var line := "data: " + x;
    assert '\n' !in line by {
      forall i | 0 <= i < |line| ensures line[i] != '\n' {
        if i >= 6 { assert line[i] == x[i - 6]; }
      }
    }
    LinesOfText(line);
    LinesThenBreak(line);
    LinesThenBreak(line + "\n");
    assert line + "\n" + "\n" == "data: " + x + "\n\n";
  }

  lemma FramePayloads(x: string, decode: string -> Payload)
    ensures Payloads(["data: " + x, "", ""], decode) == [decode(x)]
  {
    var line := "data: " + x;
    assert line[..6] == "data: " && line[6..] == x;
    assert line[0..6] == "data: ";
    PayloadsStep([], line, decode);
    PayloadsStep([line], "", decode);
    PayloadsStep([line, ""], "", decode);
    assert [] + [line] == [line] && [line] + [""] == [line, ""] && [line, ""] + [""] == [line, "", ""];
  }

  /** The client reads back exactly the payloads of the events the server wrote, in order. */
  lemma {:induction false} FramesRead(events: seq<Routes.StreamEvent>, encode: Routes.StreamEvent -> string, decode: string -> Payload)
    requires RoundTrips(encode, decode)
    ensures Payloads(StreamLines(Frames(events, encode)), decode) == Received(events)
    decreases |events|
  {
    if events != [] {
      var init, e := events[..|events| - 1], events[|events| - 1];
      var x := encode(e);
      var fs := Frames(init, encode);
      FramesRead(init, encode, decode);
      assert (fs + ["data: " + x + "\n\n"])[..|fs|] == fs;
      FrameLines(x);
      PayloadsAppend(StreamLines(fs), ["data: " + x, "", ""], decode);
      FramePayloads(x, decode);
    }
  }

  /** The `delta` chunks read back make up the text the server sent, and none fails to parse. */
  lemma {:induction false} ReceivedSent(events: seq<Routes.StreamEvent>)
    ensures Parsed(Received(events))
    ensures Concat(Chunks(Received(events))) == Routes.Sent(events)
    decreases |events|
  {
    if events != [] {
      var init, e := events[..|events| - 1], events[|events| - 1];
      ReceivedSent(init);
      ChunksStep(Received(init), PayloadOf(e));
    }
  }

  lemma OpenedIdNotEmpty(cs: seq<Routes.Chat>, chatId: Option<string>, newId: string, title: string, now: int)
    requires Routes.Well(cs) && newId != []
    ensures var o := Routes.Open(cs, chatId, newId, title, now); o.chats[o.at].id != []
  {
  }

  /**
   * What the reader shows after a streamed turn is what the server stored: the stream parses
   * throughout, the last entry the reader shows is the stored assistant reply, and the chat
   * id it records is the id of the chat the turn was stored in.
   */
  lemma ClientShowsStoredReply(cs: seq<Routes.Chat>, chatId: Option<string>, message: string, newId: string, now: int,
                               tokens: seq<string>, encode: Routes.StreamEvent -> string, decode: string -> Payload)
    requires Routes.Well(cs) && newId != [] && RoundTrips(encode, decode)
    ensures var s := Routes.StreamTurn(cs, chatId, message, newId, now, tokens);
      var o := Routes.Open(cs, chatId, newId, Routes.TitleOf(message), now);
      var ps := Payloads(StreamLines(Frames(s.events, encode)), decode);
      var stored := s.chats[o.at].messages;
      && Parsed(ps) && |stored| >= 1 && stored[|stored| - 1] == AssistantEntry(Concat(Chunks(ps)))
      && DoneId(ps) == Some(s.chats[o.at].id)
  {
    var s := Routes.StreamTurn(cs, chatId, message, newId, now, tokens);
    var o := Routes.Open(cs, chatId, newId, Routes.TitleOf(message), now);
    Routes.StreamStoresWhatWasSent(cs, chatId, message, newId, now, tokens);
    OpenedIdNotEmpty(cs, chatId, newId, Routes.TitleOf(message), now);
    FramesRead(s.events, encode, decode);
    ReceivedSent(s.events);
    var evs := s.events;
    var init := evs[..|evs| - 1];
    assert evs == init + [evs[|evs| - 1]];
    assert Received(evs) == Received(init) + [PayloadOf(evs[|evs| - 1])];
    ChunksStep(Received(init), PayloadOf(evs[|evs| - 1]));
  }
}
