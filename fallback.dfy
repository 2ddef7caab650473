/**
 * The deterministic fallback responder of `runChatWithTools` (server/src/llm.ts):
 * it recalls a name the user gave with "my name is …" when asked "what is my name",
 * otherwise acknowledges the latest user text, and lists the URLs of the tool results.
 */
module Fallback {
  import opened Wrappers
  import opened Text
  import opened Urls
  import opened Messages

  // ---------------------------------------------------------------------------------
  // The latest user entry: `[...messages].reverse().find(m => m.role === 'user')`.

  /** Index of the last entry that satisfies `p`. */
  function LastWhere(ms: seq<Message>, p: Message -> bool): (r: Option<nat>)
    ensures r.Some? ==> r.value < |ms| && p(ms[r.value]) && forall j | r.value < j < |ms| :: !p(ms[j])
    ensures r.None? ==> forall j | 0 <= j < |ms| :: !p(ms[j])
    decreases |ms|
  {
    if ms == [] then None
    else if p(ms[|ms| - 1]) then Some(|ms| - 1)
    else LastWhere(ms[..|ms| - 1], p)
  }

  /** Appending an entry either makes it the last match or leaves the last match as it was. */
  lemma LastWhereStep(ms: seq<Message>, m: Message, p: Message -> bool)
    ensures LastWhere(ms + [m], p) == if p(m) then Some(|ms|) else LastWhere(ms, p)
  {
    assert (ms + [m])[..|ms|] == ms;
  }

  predicate IsUserEntry(m: Message) {
    m.role == User
  }

  /** `lastUser?.content || ''`: the content of the latest user entry, or empty. */
  function LastUserText(ms: seq<Message>): string {
    match LastWhere(ms, IsUserEntry)
    case Some(i) => ms[i].content
    case None => ""
  }

  // ---------------------------------------------------------------------------------
  // `/my name is\s+([A-Za-z][A-Za-z\s'-]{1,40})/i`, first match in a string.

  /** `s[i]` is `lower` or `upper`: one character of a case-insensitive pattern. */
  predicate CharCI(s: string, i: nat, lower: char, upper: char) {
    i < |s| && (s[i] == lower || s[i] == upper)
  }

  const phrase := "my name is"
  const phraseLen := 10

  /** `my name is` at `p`, compared under ASCII case folding as the `i` flag does. */
  predicate PhraseAt(s: string, p: nat) {
    HasAtCI(s, p, phrase)
  }

  /** Number of whitespace characters from `i` on. */
  function SpaceRun(s: string, i: nat): (n: nat)
    ensures i + n <= |s| || n == 0
    decreases |s| - i
  {
    if i < |s| && IsSpace(s[i]) then 1 + SpaceRun(s, i + 1) else 0
  }

  /** The characters of `s` in `[i, i + n)` are all whitespace. */
  ghost predicate SpacesIn(s: string, i: nat, n: nat)
    requires i + n <= |s|
  {
    forall k | i <= k < i + n :: IsSpace(s[k])
  }

  lemma {:induction false} SpaceRunSpec(s: string, i: nat)
    ensures var n := SpaceRun(s, i);
      (i + n <= |s| ==> SpacesIn(s, i, n)) && (i + n < |s| ==> !IsSpace(s[i + n]))
    decreases |s| - i
  {
    if i < |s| && IsSpace(s[i]) {
      SpaceRunSpec(s, i + 1);
    }
  }

  lemma {:induction false} SpaceRunExact(s: string, i: nat, n: nat)
    requires i + n <= |s| && SpacesIn(s, i, n) && (i + n < |s| ==> !IsSpace(s[i + n]))
    ensures SpaceRun(s, i) == n
    decreases n
  {
    if n > 0 {
      SpaceRunExact(s, i + 1, n - 1);
    }
  }

  /** `[A-Za-z\s'-]`. */
  predicate InNameClass(c: char) {
    IsAsciiLetter(c) || IsSpace(c) || c == '\'' || c == '-'
  }

  /** The characters of `s` in `[j, j + n)` are all name characters. */
  ghost predicate AllInClass(s: string, j: nat, n: nat)
    requires j + n <= |s|
  {
    forall k | j <= k < j + n :: InNameClass(s[k])
  }

  /** A greedy run of `n` name characters from `j`, bounded by `max`, cannot go on. */
  ghost predicate ClassEnds(s: string, j: nat, n: nat, max: nat) {
    n < max && j + n < |s| ==> !InNameClass(s[j + n])
  }

  /** Greedy count of name characters from `j` on, at most `max`. */
  function ClassRun(s: string, j: nat, max: nat): (n: nat)
    ensures n <= max && (j + n <= |s| || n == 0)
    decreases max
  {
    if max > 0 && j < |s| && InNameClass(s[j]) then 1 + ClassRun(s, j + 1, max - 1) else 0
  }

  lemma {:induction false} ClassRunSpec(s: string, j: nat, max: nat)
    ensures j + ClassRun(s, j, max) <= |s| || ClassRun(s, j, max) == 0
    ensures (j + ClassRun(s, j, max) <= |s| ==> AllInClass(s, j, ClassRun(s, j, max))) && ClassEnds(s, j, ClassRun(s, j, max), max)
    decreases max
  {
    if max > 0 && j < |s| && InNameClass(s[j]) {
      ClassRunSpec(s, j + 1, max - 1);
    }
  }

  lemma {:induction false} ClassRunExact(s: string, j: nat, max: nat, n: nat)
    requires n <= max && j + n <= |s| && AllInClass(s, j, n) && ClassEnds(s, j, n, max)
    ensures ClassRun(s, j, max) == n
    decreases n
  {
    if n > 0 {
      ClassRunExact(s, j + 1, max - 1, n - 1);
    }
  }

  /** Where the capture group of a match at `p` starts: after the phrase and its whitespace. */
  function NameStart(s: string, p: nat): nat {
    p + phraseLen + SpaceRun(s, p + phraseLen)
  }

  /** Length of the capture group of the name pattern matched exactly at `p`, or 0 for no match. */
  function NameLen(s: string, p: nat): (n: nat)
    ensures n == 0 || (2 <= n <= 41 && NameStart(s, p) + n <= |s|)
  {
    if !PhraseAt(s, p) then 0
    else
      var w := SpaceRun(s, p + phraseLen);
      var q := p + phraseLen + w;
      if w == 0 || q >= |s| || !IsAsciiLetter(s[q]) then 0
      else
        var m := ClassRun(s, q + 1, 40);
        if m == 0 then 0 else 1 + m
  }

  /**
   * A match at `p` with `w` whitespace characters after the phrase and `m` characters after
   * the first letter of the name. The letter cannot be matched by `\s`, so `\s+` takes the
   * whole whitespace run; `{1,40}` is greedy and nothing follows the group, so `m` is as
   * large as the input allows.
   */
  ghost predicate NameShape(s: string, p: nat, w: nat, m: nat) {
    var q := p + phraseLen + w;
    && PhraseAt(s, p) && 1 <= w && 1 <= m <= 40 && q + 1 + m <= |s|
    && SpacesIn(s, p + phraseLen, w) && IsAsciiLetter(s[q])
    && AllInClass(s, q + 1, m) && ClassEnds(s, q + 1, m, 40)
  }

  lemma NameLenSound(s: string, p: nat)
    requires NameLen(s, p) > 0
    ensures exists w: nat, m: nat ::
      NameShape(s, p, w, m) && NameStart(s, p) == p + phraseLen + w && NameLen(s, p) == 1 + m
  {
    var w, m := NameParts(s, p);
  }

  lemma NameParts(s: string, p: nat) returns (w: nat, m: nat)
    requires NameLen(s, p) > 0
    ensures NameShape(s, p, w, m) && NameStart(s, p) == p + phraseLen + w && NameLen(s, p) == 1 + m
  {
    var i := p + phraseLen;
    w := SpaceRun(s, i);
    var q := i + w;
    m := ClassRun(s, q + 1, 40);
    NameLenCases(s, p);
    SpaceRunSpec(s, i);
    ClassRunSpec(s, q + 1, 40);
  }

  /** What a non-zero `NameLen` says about the run lengths it was computed from. */
  lemma NameLenCases(s: string, p: nat)
    requires NameLen(s, p) > 0
    ensures var w := SpaceRun(s, p + phraseLen);
      var q := p + phraseLen + w;
      && PhraseAt(s, p) && 1 <= w && q < |s| && IsAsciiLetter(s[q])
      && NameLen(s, p) == 1 + ClassRun(s, q + 1, 40) && ClassRun(s, q + 1, 40) >= 1
  {
  }

  lemma NameLenComplete(s: string, p: nat, w: nat, m: nat)
    requires NameShape(s, p, w, m)
    ensures NameStart(s, p) == p + phraseLen + w && NameLen(s, p) == 1 + m
  {
    var i := p + phraseLen;
    var q := i + w;
    LetterNotSpace(s[q]);
    SpaceRunExact(s, i, w);
    ClassRunExact(s, q + 1, 40, m);
    assert SpaceRun(s, i) == w && ClassRun(s, q + 1, 40) == m;
  }

  lemma LetterNotSpace(c: char)
    requires IsAsciiLetter(c)
    ensures !IsSpace(c)
  {
  }

  /** Where `s.match(pattern)` without the `g` flag finds its match: the leftmost position from `p`. */
  function FirstNameStart(s: string, p: nat): (r: Option<nat>)
    ensures r.Some? ==> p <= r.value < |s| && NameLen(s, r.value) > 0
    decreases |s| - p
  {
    if p >= |s| then None
    else if NameLen(s, p) > 0 then Some(p)
    else FirstNameStart(s, p + 1)
  }

  /** The pattern matches at no position in `[a, b)`. */
  ghost predicate NoMatchIn(s: string, a: nat, b: nat) {
    forall k | a <= k < b :: NameLen(s, k) == 0
  }

  lemma NoMatchStep(s: string, p: nat, b: nat)
    requires p < b
    ensures NoMatchIn(s, p, b) <==> NameLen(s, p) == 0 && NoMatchIn(s, p + 1, b)
  {
  }

  /** The match found is the leftmost one, and there is none exactly when the pattern matches nowhere. */
  lemma {:induction false} FirstNameStartSpec(s: string, p: nat)
    ensures var r := FirstNameStart(s, p);
      (r.Some? ==> NoMatchIn(s, p, r.value)) && (r.None? <==> NoMatchIn(s, p, |s|))
    decreases |s| - p
  {
    if p < |s| {
      NoMatchStep(s, p, |s|);
      if NameLen(s, p) == 0 {
        FirstNameStartSpec(s, p + 1);
        var r := FirstNameStart(s, p + 1);
        assert FirstNameStart(s, p) == r;
        if r.Some? {
          NoMatchStep(s, p, r.value);
        }
      } else {
        assert FirstNameStart(s, p) == Some(p);
      }
    }
  }

  /** `match[1]` of the leftmost match, if any. */
  function FirstName(s: string): (r: Option<string>)
    ensures r.Some? ==> 2 <= |r.value| <= 41
  {
    match FirstNameStart(s, 0)
    case Some(k) => Some(s[NameStart(s, k)..NameStart(s, k) + NameLen(s, k)])
    case None => None
  }

  /** A user entry from which the loop of `makeFallback` takes a name. */
  predicate GivesName(m: Message) {
    m.role == User && FirstName(m.content).Some?
  }

  /** `match[1].trim()` of the last user entry with a match; the loop overwrites `name`. */
  function CapturedName(ms: seq<Message>): Option<string> {
    match LastWhere(ms, GivesName)
    case Some(i) => Some(Trim(FirstName(ms[i].content).value))
    case None => None
  }

  /** The captured name starts with a letter, has no trailing whitespace and at most 41 characters. */
  lemma CapturedNameShape(ms: seq<Message>)
    requires CapturedName(ms).Some?
    ensures var n := CapturedName(ms).value; NameChars(n) && !IsSpace(n[|n| - 1])
  {
    var i := LastWhere(ms, GivesName).value;
    var s := ms[i].content;
    assert GivesName(ms[i]);
    FirstNameShape(s);
    TrimCapture(FirstName(s).value);
  }

  /** A letter, then name characters, at most 41 in all. */
  predicate NameChars(c: string) {
    c != [] && |c| <= 41 && IsAsciiLetter(c[0]) && forall j | 0 <= j < |c| :: InNameClass(c[j])
  }

  /** `match[1]` has the shape of the capture group. */
  lemma FirstNameShape(s: string)
    requires FirstName(s).Some?
    ensures NameChars(FirstName(s).value)
  {
    var k := FirstNameStart(s, 0).value;
    var q, m := NameCapture(s, k);
    assert FirstName(s).value == s[q..q + 1 + m];
    NameSliceInClass(s, q, m);
  }

  /** The capture group of a match at `p`: a letter at `q` and `m` name characters after it. */
  lemma NameCapture(s: string, p: nat) returns (q: nat, m: nat)
    requires NameLen(s, p) > 0
    ensures q == NameStart(s, p) && NameLen(s, p) == 1 + m && q + 1 + m <= |s|
    ensures IsAsciiLetter(s[q]) && AllInClass(s, q + 1, m)
  {
    var w;
    w, m := NameParts(s, p);
    q := p + phraseLen + w;
  }

  lemma NameSliceInClass(s: string, q: nat, m: nat)
    requires q + 1 + m <= |s| && IsAsciiLetter(s[q]) && AllInClass(s, q + 1, m)
    ensures var c := s[q..q + 1 + m]; IsAsciiLetter(c[0]) && forall j | 0 <= j < |c| :: InNameClass(c[j])
  {
    var c := s[q..q + 1 + m];
    forall j | 0 <= j < |c| ensures InNameClass(c[j]) {
      assert c[j] == s[q + j];
      if j > 0 {
        assert q + 1 <= q + j < q + 1 + m;
      }
    }
  }

  lemma TrimCapture(c: string)
    requires NameChars(c)
    ensures var n := Trim(c); NameChars(n) && !IsSpace(n[|n| - 1])
  {
    LetterNotSpace(c[0]);
    assert TrimStart(c) == c;
    var n := TrimEnd(c);
    assert n[0] == c[0];
    assert forall k | 0 <= k < |n| :: n[k] == c[k];
  }

  // ---------------------------------------------------------------------------------
  // `/what\s+is\s+my\s+name/i`.

  /** The question starts at `p`; each `\s+` takes the whole whitespace run before a word. */
  predicate AsksAt(s: string, p: nat) {
    && CharCI(s, p, 'w', 'W') && CharCI(s, p + 1, 'h', 'H') && CharCI(s, p + 2, 'a', 'A') && CharCI(s, p + 3, 't', 'T')
    && var i := p + 4; var w1 := SpaceRun(s, i);
    && w1 > 0 && CharCI(s, i + w1, 'i', 'I') && CharCI(s, i + w1 + 1, 's', 'S')
    && var j := i + w1 + 2; var w2 := SpaceRun(s, j);
    && w2 > 0 && CharCI(s, j + w2, 'm', 'M') && CharCI(s, j + w2 + 1, 'y', 'Y')
    && var k := j + w2 + 2; var w3 := SpaceRun(s, k);
    && w3 > 0 && CharCI(s, k + w3, 'n', 'N') && CharCI(s, k + w3 + 1, 'a', 'A') && CharCI(s, k + w3 + 2, 'm', 'M')
    && CharCI(s, k + w3 + 3, 'e', 'E')
  }

  /** `/what\s+is\s+my\s+name/i.test(s)`. */
  predicate AsksName(s: string) {
    exists p | 0 <= p < |s| :: AsksAt(s, p)
  }

  // ---------------------------------------------------------------------------------
  // The reply.

  const recallPrefix := "You told me your name is "

  function Recall(name: string): string {
    recallPrefix + name + "."
  }

  const ackPrefix := "I couldn't reach the LLM right now. " + "Here's a quick acknowledgment of your request: \""
  const ackSuffix := "\". Please try again shortly."

  function Acknowledge(lastUser: string): string {
    ackPrefix + lastUser + ackSuffix
  }

  /** The first line of the reply, before any sources. */
  function Lead(ms: seq<Message>): string {
    var name := CapturedName(ms);
    var lastUser := LastUserText(ms);
    if name.Some? && name.value != "" && AsksName(lastUser) then Recall(name.value) else Acknowledge(lastUser)
  }

  /** `tool.content.match(/https?:\/\/[^\s)]+/g) || []`, first five: one line per URL. */
  function ToolLines(t: ToolResult): (r: seq<string>)
    ensures |r| <= 5
  {
    var urls := Matches(t.content, false);
    var shown := if |urls| <= 5 then urls else urls[..5];
    seq(|shown|, i requires 0 <= i < |shown| => "- " + shown[i])
  }

  /** The `lines` that `makeFallback` collects over all tool results, in order. */
  function SourceLines(ts: seq<ToolResult>): seq<string>
    decreases |ts|
  {
    if ts == [] then [] else SourceLines(ts[..|ts| - 1]) + ToolLines(ts[|ts| - 1])
  }

  lemma {:induction false} SourceLinesAppend(ts: seq<ToolResult>, us: seq<ToolResult>)
    ensures SourceLines(ts + us) == SourceLines(ts) + SourceLines(us)
    decreases |us|
  {
    if us == [] {
      assert ts + us == ts;
    } else {
      var us', t := us[..|us| - 1], us[|us| - 1];
      var all := ts + us;
      assert all[..|all| - 1] == ts + us' && all[|all| - 1] == t;
      SourceLinesAppend(ts, us');
      assert SourceLines(all) == SourceLines(ts + us') + ToolLines(t);
      assert SourceLines(us) == SourceLines(us') + ToolLines(t);
      SeqAssoc(SourceLines(ts), SourceLines(us'), ToolLines(t));
    }
  }

  const sourcesHeading := "\n\nSources (tool):\n"

  /** What `makeFallback` appends after the first line. */
  function Sources(ts: seq<ToolResult>): string {
    var lines := SourceLines(ts);
    if lines == [] then "" else sourcesHeading + Join(lines, "\n")
  }

  function FallbackReply(ms: seq<Message>, ts: seq<ToolResult>): string {
    Lead(ms) + Sources(ts)
  }

  /** The first loop of `makeFallback`: the name of the last user entry that gives one. */
  method CaptureName(ms: seq<Message>) returns (name: Option<string>)
    ensures name == CapturedName(ms)
  {
    name := None;
    var i := 0;
    while i < |ms|
      invariant 0 <= i <= |ms|
      invariant name == CapturedName(ms[..i])
    {
      LastWhereStep(ms[..i], ms[i], GivesName);
      assert ms[..i + 1] == ms[..i] + [ms[i]];
      if ms[i].role == User {
        var found := FirstName(ms[i].content);
        if found.Some? {
          name := Some(Trim(found.value));
        }
      }
      i := i + 1;
    }
    assert ms[..|ms|] == ms;
  }

  /** The second loop of `makeFallback`: up to five URL lines per tool result. */
  method CollectSources(ts: seq<ToolResult>) returns (lines: seq<string>)
    ensures lines == SourceLines(ts)
  {
    lines := [];
    var t := 0;
    while t < |ts|
      invariant 0 <= t <= |ts|
      invariant lines == SourceLines(ts[..t])
    {
      var urls := Matches(ts[t].content, false);
      var shown := if |urls| <= 5 then urls else urls[..5];
      var u := 0;
      while u < |shown|
        invariant 0 <= u <= |shown|
        invariant lines == SourceLines(ts[..t]) + ToolLines(ts[t])[..u]
      {
        assert ToolLines(ts[t])[..u + 1] == ToolLines(ts[t])[..u] + ["- " + shown[u]];
        lines := lines + ["- " + shown[u]];
        u := u + 1;
      }
      assert ToolLines(ts[t])[..u] == ToolLines(ts[t]);
      assert ts[..t + 1][..t] == ts[..t];
      t := t + 1;
    }
    assert ts[..t] == ts;
  }

  /** The first line of the reply of `makeFallback`. */
  method LeadLine(ms: seq<Message>) returns (lead: string)
    ensures lead == Lead(ms)
  {
    var name := CaptureName(ms);
    var lastUser := LastUserText(ms);
    if name.Some? && name.value != "" && AsksName(lastUser) {
      lead := Recall(name.value);
    } else {
      lead := Acknowledge(lastUser);
    }
  }

  /** The sources block of `makeFallback`: empty when no tool result has a URL. */
  method SourcesBlock(ts: seq<ToolResult>) returns (block: string)
    ensures block == Sources(ts)
  {
    block := "";
    if |ts| > 0 {
      var lines := CollectSources(ts);
      if |lines| > 0 {
        block := sourcesHeading + Join(lines, "\n");
      }
    }
  }

  /** `makeFallback`. */
  method MakeFallback(ms: seq<Message>, ts: seq<ToolResult>) returns (response: string)
    ensures response == FallbackReply(ms, ts)
  {
    response := LeadLine(ms);
    var block := SourcesBlock(ts);
    response := response + block;
  }

  // ---------------------------------------------------------------------------------
  // What the reply says.

  /**
   * The reply recalls a name exactly when some user entry gave one and the latest user
   * entry asks for it; the captured name is never empty, so `name &&` never fails then.
   */
  lemma RecallIff(ms: seq<Message>, ts: seq<ToolResult>)
    ensures HasAt(FallbackReply(ms, ts), 0, recallPrefix) <==>
      CapturedName(ms).Some? && AsksName(LastUserText(ms))
  {
    var name := CapturedName(ms);
    if name.Some? && AsksName(LastUserText(ms)) {
      CapturedNameShape(ms);
      assert Lead(ms) == Recall(name.value);
      RecallStarts(name.value, Sources(ts));
    } else {
      assert Lead(ms) == Acknowledge(LastUserText(ms));
      AcknowledgeStarts(LastUserText(ms), Sources(ts));
    }
  }

  lemma RecallStarts(name: string, rest: string)
    ensures HasAt(Recall(name) + rest, 0, recallPrefix)
  {
    var r := Recall(name) + rest;
    assert r == recallPrefix + (name + "." + rest);
    assert r[..|recallPrefix|] == recallPrefix;
  }

  lemma AcknowledgeStarts(lastUser: string, rest: string)
    ensures !HasAt(Acknowledge(lastUser) + rest, 0, recallPrefix)
  {
    var a := Acknowledge(lastUser);
    assert ackPrefix[0] == 'I' && recallPrefix[0] == 'Y';
    assert (a + rest) == ackPrefix + (lastUser + ackSuffix + rest);
    assert (a + rest)[0] == 'I';
  }

  /** With a name captured and asked for, the reply is the recall and its sources. */
  lemma RecallReply(ms: seq<Message>, ts: seq<ToolResult>, name: string)
    requires CapturedName(ms) == Some(name) && AsksName(LastUserText(ms))
    ensures FallbackReply(ms, ts) == Recall(name) + Sources(ts)
  {
    CapturedNameShape(ms);
  }

  /** Every source line is `- ` and a URL of a tool result, at most five per tool result. */
  lemma {:induction false} SourceLinesAreUrls(ts: seq<ToolResult>)
    ensures |SourceLines(ts)| <= 5 * |ts|
    ensures forall l | l in SourceLines(ts) ::
      |l| > 2 && l[..2] == "- " && IsUrl(l[2..], false) && exists t | t in ts :: l[2..] in Matches(t.content, false)
    decreases |ts|
  {
    if ts != [] {
      var init, t := ts[..|ts| - 1], ts[|ts| - 1];
      SourceLinesAreUrls(init);
      ToolLinesAreUrls(t);
      assert forall x | x in init :: x in ts;
    }
  }

  lemma ToolLinesAreUrls(t: ToolResult)
    ensures forall l | l in ToolLines(t) ::
      |l| > 2 && l[..2] == "- " && IsUrl(l[2..], false) && l[2..] in Matches(t.content, false)
  {
    var urls := Matches(t.content, false);
    MatchesAreUrls(t.content, false);
    var shown := if |urls| <= 5 then urls else urls[..5];
    forall l | l in ToolLines(t)
      ensures |l| > 2 && l[..2] == "- " && IsUrl(l[2..], false) && l[2..] in urls
    {
      var i :| 0 <= i < |shown| && ToolLines(t)[i] == l;
      assert l == "- " + shown[i] && shown[i] in urls;
      assert l[2..] == shown[i];
    }
  }

  /** The lines of one tool result are its first five matches, in order, each after `- `. */
  lemma ToolLinesAreFirstMatches(t: ToolResult)
    ensures var urls := Matches(t.content, false);
      |ToolLines(t)| == (if |urls| <= 5 then |urls| else 5) &&
      forall i | 0 <= i < |ToolLines(t)| :: ToolLines(t)[i] == "- " + urls[i]
  {
  }

  /** Nothing is appended exactly when no tool result holds a URL. */
  lemma {:induction false} SourcesEmptyIff(ts: seq<ToolResult>)
    ensures Sources(ts) == "" <==> forall t | t in ts :: Matches(t.content, false) == []
    decreases |ts|
  {
    SourceLinesEmptyIff(ts);
    if SourceLines(ts) != [] {
      assert Sources(ts)[..|sourcesHeading|] == sourcesHeading;
    }
  }

  lemma {:induction false} SourceLinesEmptyIff(ts: seq<ToolResult>)
    ensures SourceLines(ts) == [] <==> forall t | t in ts :: Matches(t.content, false) == []
    decreases |ts|
  {
    if ts != [] {
      var init, t := ts[..|ts| - 1], ts[|ts| - 1];
      SourceLinesEmptyIff(init);
      assert ts == init + [t];
      ToolLinesAreFirstMatches(t);
      assert ToolLines(t) == [] <==> Matches(t.content, false) == [];
    }
  }

  // ---------------------------------------------------------------------------------
  // The conversation of server/tests/app.test.ts:27-41 and server/scripts/e2e.js:46-58.

  const davidIntro := "My name is David."
  const nameQuestion := "What is my name?"

  lemma IntroGivesDavid()
    ensures FirstName(davidIntro) == Some("David")
  {
    var s := davidIntro;
    IntroNameLen();
    assert FirstNameStart(s, 0) == Some(0);
    assert s[11..16] == "David";
  }

  lemma IntroNameLen()
    ensures NameStart(davidIntro, 0) == 11 && NameLen(davidIntro, 0) == 5
  {
    var s := davidIntro;
    assert PhraseAt(s, 0);
    assert s[10] == ' ' && IsAsciiLetter(s[11]);
    OneSpace(s, 10);
    assert forall k | 12 <= k < 16 :: IsAsciiLetter(s[k]);
    assert s[16] == '.';
    LettersThenStop(s, 12, 4, 40);
  }

  /** A single whitespace character before a letter is a whitespace run of one. */
  lemma OneSpace(s: string, i: nat)
    requires i + 1 < |s| && s[i] == ' ' && IsAsciiLetter(s[i + 1])
    ensures SpaceRun(s, i) == 1
  {
    LetterNotSpace(s[i + 1]);
    assert SpaceRun(s, i + 1) == 0;
  }

  /** `n` letters and then a character outside the class make a class run of `n`. */
  lemma {:induction false} LettersThenStop(s: string, j: nat, n: nat, max: nat)
    requires j + n < |s| && n < max && !InNameClass(s[j + n])
    requires forall k | j <= k < j + n :: IsAsciiLetter(s[k])
    ensures ClassRun(s, j, max) == n
    decreases n
  {
    if n > 0 {
      assert InNameClass(s[j]);
      LettersThenStop(s, j + 1, n - 1, max - 1);
    }
  }

  lemma QuestionGivesNoName()
    ensures FirstName(nameQuestion) == None
  {
    var s := nameQuestion;
    forall k | 0 <= k < |s| ensures NameLen(s, k) == 0 {
      if k < 7 {
        assert Lower(s[k + 0]) != Lower(phrase[0]);
      } else {
        assert k + |phrase| > |s|;
      }
    }
    assert NoMatchIn(s, 0, |s|);
    FirstNameStartSpec(s, 0);
  }

  lemma QuestionAsks()
    ensures AsksName(nameQuestion)
  {
    var s := nameQuestion;
    QuestionSpaces();
    assert CharCI(s, 0, 'w', 'W') && CharCI(s, 1, 'h', 'H') && CharCI(s, 2, 'a', 'A') && CharCI(s, 3, 't', 'T');
    assert CharCI(s, 5, 'i', 'I') && CharCI(s, 6, 's', 'S') && CharCI(s, 8, 'm', 'M') && CharCI(s, 9, 'y', 'Y');
    assert CharCI(s, 11, 'n', 'N') && CharCI(s, 12, 'a', 'A') && CharCI(s, 13, 'm', 'M') && CharCI(s, 14, 'e', 'E');
    assert AsksAt(s, 0);
  }

  lemma QuestionSpaces()
    ensures SpaceRun(nameQuestion, 4) == 1 && SpaceRun(nameQuestion, 7) == 1 && SpaceRun(nameQuestion, 10) == 1
  {
    var s := nameQuestion;
    assert s[4] == ' ' && IsAsciiLetter(s[5]);
    assert s[7] == ' ' && IsAsciiLetter(s[8]);
    assert s[10] == ' ' && IsAsciiLetter(s[11]);
    OneSpace(s, 4);
    OneSpace(s, 7);
    OneSpace(s, 10);
  }

  /** After "My name is David." and any reply, "What is my name?" is answered with the name. */
  lemma DavidRecalled(ack: string)
    ensures FallbackReply([UserEntry(davidIntro), AssistantEntry(ack), UserEntry(nameQuestion)], [])
      == Recall("David")
  {
    var ms := [UserEntry(davidIntro), AssistantEntry(ack), UserEntry(nameQuestion)];
    DavidCaptured(ack);
    DavidAsked(ack);
    QuestionAsks();
    RecallReply(ms, [], "David");
    assert Sources([]) == "";
  }

  lemma DavidCaptured(ack: string)
    ensures CapturedName([UserEntry(davidIntro), AssistantEntry(ack), UserEntry(nameQuestion)]) == Some("David")
  {
    var m0, m1, m2 := UserEntry(davidIntro), AssistantEntry(ack), UserEntry(nameQuestion);
    IntroGivesDavid();
    QuestionGivesNoName();
    assert GivesName(m0) && !GivesName(m1) && !GivesName(m2);
    LastWhereOfThree(m0, m1, m2, GivesName);
    TrimDavid();
  }

  lemma TrimDavid()
    ensures Trim("David") == "David"
  {
    var d := "David";
    assert d[0] == 'D' && d[|d| - 1] == 'd';
    TrimNoSpace(d);
  }

  lemma LastWhereOfThree(m0: Message, m1: Message, m2: Message, p: Message -> bool)
    ensures LastWhere([m0, m1, m2], p) ==
      if p(m2) then Some(2) else if p(m1) then Some(1) else if p(m0) then Some(0) else None
  {
    assert [m0, m1, m2][..2] == [m0, m1] && [m0, m1][..1] == [m0] && [m0][..0] == [];
    assert LastWhere([m0], p) == if p(m0) then Some(0) else None;
    assert LastWhere([m0, m1], p) == if p(m1) then Some(1) else LastWhere([m0], p);
  }

  lemma DavidAsked(ack: string)
    ensures LastUserText([UserEntry(davidIntro), AssistantEntry(ack), UserEntry(nameQuestion)]) == nameQuestion
  {
    LastWhereOfThree(UserEntry(davidIntro), AssistantEntry(ack), UserEntry(nameQuestion), IsUserEntry);
  }
}
