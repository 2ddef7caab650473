/**
 * The global URL match of client/src/utils/url.ts, `input.match(/(https?:\/\/[^\s)\]]+)/g)`,
 * written out as a left-to-right scanner, and `extractUniqueUrls`, which deduplicates the
 * matches keeping first occurrences and keeps the first `max`.
 *
 * The scanner is shared with the server's reply policy, which uses the same pattern
 * without `]` among the stop characters (`/https?:\/\/[^\s)]+/g`); `bracket` selects the
 * variant.
 */
module Urls {
  import opened Text

  /** A character that ends a URL: whitespace, `)`, and `]` when `bracket` holds. */
  predicate Stops(c: char, bracket: bool) {
    IsSpace(c) || c == ')' || (bracket && c == ']')
  }

  /** `https://` starts at `i`. */
  predicate HttpsAt(s: string, i: nat) {
    && i + 8 <= |s| && s[i] == 'h' && s[i + 1] == 't' && s[i + 2] == 't' && s[i + 3] == 'p'
    && s[i + 4] == 's' && s[i + 5] == ':' && s[i + 6] == '/' && s[i + 7] == '/'
  }

  /** `http://` starts at `i`. */
  predicate HttpAt(s: string, i: nat) {
    && i + 7 <= |s| && s[i] == 'h' && s[i + 1] == 't' && s[i + 2] == 't' && s[i + 3] == 'p'
    && s[i + 4] == ':' && s[i + 5] == '/' && s[i + 6] == '/'
  }

  /** Length of the scheme `https://` or `http://` that starts at `i`, or 0. */
  function SchemeLen(s: string, i: nat): (n: nat)
    ensures n == 0 || n == 7 || n == 8
  {
    if HttpsAt(s, i) then 8 else if HttpAt(s, i) then 7 else 0
  }

  /** Number of characters from `j` on before the first stop character or the end. */
  function RunLen(s: string, j: nat, bracket: bool): (n: nat)
    ensures j + n <= |s| || n == 0
    decreases |s| - j
  {
    if j < |s| && !Stops(s[j], bracket) then 1 + RunLen(s, j + 1, bracket) else 0
  }

  /** The run is the longest stretch of non-stop characters from `j`. */
  lemma {:induction false} RunLenSpec(s: string, j: nat, bracket: bool)
    ensures var n := RunLen(s, j, bracket);
      (j + n <= |s| || n == 0) &&
      (forall k | j <= k < j + n :: !Stops(s[k], bracket)) &&
      (j + n < |s| ==> Stops(s[j + n], bracket))
    decreases |s| - j
  {
    if j < |s| && !Stops(s[j], bracket) {
      RunLenSpec(s, j + 1, bracket);
    }
  }

  /**
   * Length of the match of `https?://[^\s)\]]+` that starts exactly at `i`, or 0 when none
   * does. `s?` is tried with the `s` first; without it the pattern needs `:` where the
   * `s` stands, so at most one of the two alternatives applies at any position.
   */
  function UrlLen(s: string, i: nat, bracket: bool): (n: nat)
    ensures n == 0 || i + n <= |s|
  {
    var k := SchemeLen(s, i);
    if k == 0 then 0
    else
      var r := RunLen(s, i + k, bracket);
      if r == 0 then 0 else k + r
  }

  /** The shape of one match: a scheme and at least one character that is not a stop. */
  predicate IsUrl(u: string, bracket: bool) {
    var k := SchemeLen(u, 0);
    k > 0 && |u| > k && forall j | k <= j < |u| :: !Stops(u[j], bracket)
  }

  /** A match is a URL, ends the input or stops right before a stop character. */
  lemma UrlLenSpec(s: string, i: nat, bracket: bool)
    ensures var n := UrlLen(s, i, bracket);
      n > 0 ==> i + n <= |s| && IsUrl(s[i..i + n], bracket) && (i + n == |s| || Stops(s[i + n], bracket))
  {
    var n := UrlLen(s, i, bracket);
    if n > 0 {
      var u := s[i..i + n];
      RunLenSpec(s, i + SchemeLen(s, i), bracket);
      assert SchemeLen(u, 0) == SchemeLen(s, i);
    }
  }

  /** Every URL-shaped string that ends at a stop character is matched whole at its start. */
  lemma UrlLenOfUrl(s: string, i: nat, u: string, bracket: bool)
    requires IsUrl(u, bracket) && i + |u| <= |s| && s[i..i + |u|] == u
    requires i + |u| == |s| || Stops(s[i + |u|], bracket)
    ensures UrlLen(s, i, bracket) == |u|
  {
    var k := SchemeLen(u, 0);
    assert forall j | 0 <= j < |u| :: s[i + j] == u[j];
    assert SchemeLen(s, i) == k;
    assert forall j | i + k <= j < i + |u| :: s[j] == u[j - i] && !Stops(u[j - i], bracket);
    assert i + k + (|u| - k) == i + |u|;
    RunLenExact(s, i + k, |u| - k, bracket);
  }

  lemma {:induction false} RunLenExact(s: string, j: nat, n: nat, bracket: bool)
    requires j + n <= |s|
    requires forall k | j <= k < j + n :: !Stops(s[k], bracket)
    requires j + n == |s| || Stops(s[j + n], bracket)
    ensures RunLen(s, j, bracket) == n
    decreases n
  {
    if n > 0 {
      RunLenExact(s, j + 1, n - 1, bracket);
    }
  }

  /** A match found by the scanner: where it starts and how long it is. */
  datatype Span = Span(start: nat, len: nat)

  /**
   * The scan of the global match from position `i`: at each position the pattern is tried;
   * after a match the scan resumes where the match ended, otherwise one position further.
   */
  function SpansFrom(s: string, i: nat, bracket: bool): (r: seq<Span>)
    decreases |s| - i
  {
    if i >= |s| then []
    else
      var n := UrlLen(s, i, bracket);
      if n > 0 then [Span(i, n)] + SpansFrom(s, i + n, bracket)
      else SpansFrom(s, i + 1, bracket)
  }

  /**
   * The matched strings, in the order the scan finds them: the pattern is tried at the
   * start of `t`; after a match the scan resumes where the match ended, otherwise one
   * character further.
   */
  function Scan(t: string, bracket: bool): (r: seq<string>)
    decreases |t|
  {
    if t == [] then []
    else
      var n := UrlLen(t, 0, bracket);
      if n > 0 then [t[..n]] + Scan(t[n..], bracket) else Scan(t[1..], bracket)
  }

  /** `input.match(urlRegex) || []`. */
  function Matches(s: string, bracket: bool): seq<string> {
    Scan(s, bracket)
  }

  /** The text of `s` at a span, or nothing for a span that does not fit in `s`. */
  function SpanText(s: string, x: Span): string {
    if x.start + x.len <= |s| then s[x.start..x.start + x.len] else []
  }

  /** The texts of `s` at the spans, in order. */
  function SpanTexts(s: string, sp: seq<Span>): (r: seq<string>)
    ensures |r| == |sp|
  {
    if sp == [] then [] else [SpanText(s, sp[0])] + SpanTexts(s, sp[1..])
  }

  lemma SpanTextsCons(s: string, x: Span, rest: seq<Span>)
    ensures SpanTexts(s, [x] + rest) == [SpanText(s, x)] + SpanTexts(s, rest)
  {
    assert ([x] + rest)[1..] == rest;
  }

  lemma {:induction false} SpanTextsIndex(s: string, sp: seq<Span>, k: nat)
    requires k < |sp|
    ensures SpanTexts(s, sp)[k] == SpanText(s, sp[k])
    decreases k
  {
    if k > 0 {
      SpanTextsIndex(s, sp[1..], k - 1);
    }
  }

  /** The strings the scan of `s[i..]` finds are the input's text at the spans. */
  lemma {:induction false} MatchesAreSpans(s: string, i: nat, bracket: bool)
    requires i <= |s|
    ensures Scan(s[i..], bracket) == SpanTexts(s, SpansFrom(s, i, bracket))
    decreases |s| - i
  {
    if i == |s| {
      assert s[i..] == [];
    } else if UrlLen(s, i, bracket) > 0 {
      var n := UrlLen(s, i, bracket);
      MatchesAreSpans(s, i + n, bracket);
      SpansStepMatch(s, i, n, bracket);
    } else {
      MatchesAreSpans(s, i + 1, bracket);
      SpansStepSkip(s, i, bracket);
    }
  }

  lemma SpansStepMatch(s: string, i: nat, n: nat, bracket: bool)
    requires i < |s| && n == UrlLen(s, i, bracket) && n > 0 && i + n <= |s|
    requires Scan(s[i + n..], bracket) == SpanTexts(s, SpansFrom(s, i + n, bracket))
    ensures Scan(s[i..], bracket) == SpanTexts(s, SpansFrom(s, i, bracket))
  {
    var rest := SpansFrom(s, i + n, bracket);
    assert SpansFrom(s, i, bracket) == [Span(i, n)] + rest;
    ScanAtMatch(s, i, n, bracket);
    assert SpanText(s, Span(i, n)) == s[i..i + n];
    SpanTextsCons(s, Span(i, n), rest);
  }

  lemma SpansStepSkip(s: string, i: nat, bracket: bool)
    requires i < |s| && UrlLen(s, i, bracket) == 0
    requires Scan(s[i + 1..], bracket) == SpanTexts(s, SpansFrom(s, i + 1, bracket))
    ensures Scan(s[i..], bracket) == SpanTexts(s, SpansFrom(s, i, bracket))
  {
    assert SpansFrom(s, i, bracket) == SpansFrom(s, i + 1, bracket);
    ScanAtSkip(s, i, bracket);
  }

  /** One step of the scan of `s[i..]` that finds a match, in positions of `s`. */
  lemma ScanAtMatch(s: string, i: nat, n: nat, bracket: bool)
    requires i < |s| && n == UrlLen(s, i, bracket) && n > 0
    ensures i + n <= |s| && Scan(s[i..], bracket) == [s[i..i + n]] + Scan(s[i + n..], bracket)
  {
    var t := s[i..];
    ScanShift(s, i, t, 0, bracket);
    assert t[n..] == s[i + n..] && t[..n] == s[i..i + n];
  }

  /** One step of the scan of `s[i..]` that finds nothing, in positions of `s`. */
  lemma ScanAtSkip(s: string, i: nat, bracket: bool)
    requires i < |s| && UrlLen(s, i, bracket) == 0
    ensures Scan(s[i..], bracket) == Scan(s[i + 1..], bracket)
  {
    var t := s[i..];
    ScanShift(s, i, t, 0, bracket);
    assert t[1..] == s[i + 1..];
  }

  /** Every span starts at or after `i`, is a maximal match, and lies inside `s`. */
  ghost predicate WellPlaced(s: string, sp: seq<Span>, i: nat, bracket: bool) {
    forall k | 0 <= k < |sp| ::
      i <= sp[k].start && 0 < sp[k].len == UrlLen(s, sp[k].start, bracket) && sp[k].start + sp[k].len <= |s|
  }

  /** Spans follow each other without overlap. */
  ghost predicate Increasing(sp: seq<Span>) {
    forall k | 0 <= k < |sp| - 1 :: sp[k].start + sp[k].len <= sp[k + 1].start
  }

  /**
   * The spans of the scan from `i` lie in `s[i..]`, in increasing order and without
   * overlap, and each is the maximal match starting where it starts.
   */
  lemma {:induction false} SpansOrdered(s: string, i: nat, bracket: bool)
    ensures WellPlaced(s, SpansFrom(s, i, bracket), i, bracket)
    ensures Increasing(SpansFrom(s, i, bracket))
    decreases |s| - i
  {
    if i < |s| {
      var n := UrlLen(s, i, bracket);
      if n > 0 {
        var rest := SpansFrom(s, i + n, bracket);
        assert SpansFrom(s, i, bracket) == [Span(i, n)] + rest;
        SpansOrdered(s, i + n, bracket);
        UrlLenSpec(s, i, bracket);
        ConsPlaced(s, Span(i, n), rest, i, bracket);
      } else {
        assert SpansFrom(s, i, bracket) == SpansFrom(s, i + 1, bracket);
        SpansOrdered(s, i + 1, bracket);
      }
    }
  }

  lemma ConsPlaced(s: string, x: Span, rest: seq<Span>, i: nat, bracket: bool)
    requires 0 < x.len == UrlLen(s, x.start, bracket) && x.start == i && i + x.len <= |s|
    requires WellPlaced(s, rest, i + x.len, bracket) && Increasing(rest)
    ensures WellPlaced(s, [x] + rest, i, bracket) && Increasing([x] + rest)
  {
    var sp := [x] + rest;
    assert forall k | 1 <= k < |sp| :: sp[k] == rest[k - 1];
  }

  /** Position `p` is the start of a span or lies inside one. */
  ghost predicate Covered(sp: seq<Span>, p: nat) {
    exists k | 0 <= k < |sp| :: sp[k].start <= p < sp[k].start + sp[k].len
  }

  /**
   * The scan misses nothing: every position from `i` on where the pattern matches is the
   * start of a span or lies inside an earlier match (matches do not overlap).
   */
  lemma {:induction false} SpansComplete(s: string, i: nat, p: nat, bracket: bool)
    requires i <= p < |s| && UrlLen(s, p, bracket) > 0
    ensures Covered(SpansFrom(s, i, bracket), p)
    decreases |s| - i
  {
    var n := UrlLen(s, i, bracket);
    var sp := SpansFrom(s, i, bracket);
    if n > 0 {
      assert sp[0] == Span(i, n);
      if p >= i + n {
        SpansComplete(s, i + n, p, bracket);
        var rest := SpansFrom(s, i + n, bracket);
        var k :| 0 <= k < |rest| && rest[k].start <= p < rest[k].start + rest[k].len;
        assert sp[k + 1] == rest[k];
      }
    } else {
      assert p != i;
      SpansComplete(s, i + 1, p, bracket);
    }
  }

  /** Without a `:` in the input nothing matches. */
  lemma {:induction false} NoColonNoMatch(t: string, bracket: bool)
    requires ':' !in t
    ensures Scan(t, bracket) == []
    decreases |t|
  {
    if t != [] {
      assert SchemeLen(t, 0) == 0 by {
        if 5 < |t| { assert t[5] in t; }
        if 4 < |t| { assert t[4] in t; }
      }
      assert forall c | c in t[1..] :: c in t;
      NoColonNoMatch(t[1..], bracket);
    }
  }

  /** Every match is a URL-shaped piece of the input. */
  lemma MatchesAreUrls(s: string, bracket: bool)
    ensures forall u | u in Matches(s, bracket) :: IsUrl(u, bracket) && exists p :: Occurs(s, u, p)
  {
    var sp := SpansFrom(s, 0, bracket);
    assert s[0..] == s;
    MatchesAreSpans(s, 0, bracket);
    SpansOrdered(s, 0, bracket);
    var ms := SpanTexts(s, sp);
    assert Matches(s, bracket) == ms;
    forall u | u in ms ensures IsUrl(u, bracket) && exists p :: Occurs(s, u, p) {
      var k :| 0 <= k < |ms| && ms[k] == u;
      SpanIsUrl(s, sp, k, bracket);
    }
  }

  /** The text at a well-placed span is a URL occurring at the span's start. */
  lemma SpanIsUrl(s: string, sp: seq<Span>, k: nat, bracket: bool)
    requires WellPlaced(s, sp, 0, bracket) && k < |sp|
    ensures IsUrl(SpanTexts(s, sp)[k], bracket) && Occurs(s, SpanTexts(s, sp)[k], sp[k].start)
  {
    SpanTextsIndex(s, sp, k);
    var x := sp[k];
    assert 0 < x.len == UrlLen(s, x.start, bracket) && x.start + x.len <= |s|;
    UrlLenSpec(s, x.start, bracket);
  }

  predicate Occurs(s: string, u: string, p: nat) {
    p + |u| <= |s| && s[p..p + |u|] == u
  }

  // ---------------------------------------------------------------------------------
  // Splitting the scan, to compute the matches of concatenated text.

  // The scan of a suffix: `y` is `s[d..]`, and positions in `y` shift by `d` in `s`.

  lemma ScanShift(s: string, d: nat, y: string, q: nat, bracket: bool)
    requires d <= |s| && s[d..] == y
    ensures UrlLen(s, d + q, bracket) == UrlLen(y, q, bracket)
  {
    assert forall j | q <= j < |y| :: s[d + j] == y[j];
    assert SchemeLen(s, d + q) == SchemeLen(y, q);
    var k := SchemeLen(y, q);
    if k > 0 { RunShift(s, d, y, q + k, bracket); }
  }

  lemma {:induction false} RunShift(s: string, d: nat, y: string, j: nat, bracket: bool)
    requires d <= |s| && s[d..] == y
    ensures RunLen(s, d + j, bracket) == RunLen(y, j, bracket)
    decreases |y| - j
  {
    if j < |y| {
      assert s[d + j] == y[j];
      RunShift(s, d, y, j + 1, bracket);
    }
  }

  /** A match inside `x` cannot run past a stop character that ends `x`. */
  lemma ScanPrefix(x: string, y: string, p: nat, bracket: bool)
    requires p < |x| && Stops(x[|x| - 1], bracket)
    ensures UrlLen(x + y, p, bracket) == UrlLen(x, p, bracket)
    ensures p + UrlLen(x, p, bracket) < |x|
  {
    var s := x + y;
    assert forall j | 0 <= j < |x| :: s[j] == x[j];
    var k := SchemeLen(x, p);
    if k > 0 {
      // a scheme holds no stop character, so one starting in x ends before x's last character
      assert p + k < |x| by {
        assert x[|x| - 1] != 'h' && x[|x| - 1] != 't' && x[|x| - 1] != 'p' && x[|x| - 1] != 's';
        assert x[|x| - 1] != ':' && x[|x| - 1] != '/';
      }
      assert SchemeLen(s, p) == k;
      RunPrefix(x, y, p + k, bracket);
    } else {
      assert SchemeLen(s, p) == 0 by {
        if p + 8 <= |x| { assert HttpsAt(s, p) == HttpsAt(x, p); }
        if p + 7 <= |x| { assert HttpAt(s, p) == HttpAt(x, p); }
        if p + 8 > |x| && HttpsAt(s, p) {
          assert x[|x| - 1] == s[|x| - 1];
        }
        if p + 7 > |x| && HttpAt(s, p) {
          assert x[|x| - 1] == s[|x| - 1];
        }
      }
    }
  }

  /** A run of non-stop characters inside `x` ends before the stop character that ends `x`. */
  lemma {:induction false} RunPrefix(x: string, y: string, j: nat, bracket: bool)
    requires j < |x| && Stops(x[|x| - 1], bracket)
    ensures RunLen(x + y, j, bracket) == RunLen(x, j, bracket) && j + RunLen(x, j, bracket) < |x|
    decreases |x| - j
  {
    assert (x + y)[j] == x[j];
    if j < |x| - 1 && !Stops(x[j], bracket) {
      RunPrefix(x, y, j + 1, bracket);
    }
  }

  /** Text that ends in a stop character is scanned independently of what follows it. */
  lemma {:induction false} MatchesSplit(x: string, y: string, bracket: bool)
    requires x != [] && Stops(x[|x| - 1], bracket)
    ensures Matches(x + y, bracket) == Matches(x, bracket) + Matches(y, bracket)
    decreases |x|
  {
    ScanPrefix(x, y, 0, bracket);
    var n := UrlLen(x, 0, bracket);
    if n > 0 {
      var x' := x[n..];
      assert x'[|x'| - 1] == x[|x| - 1];
      MatchesSplit(x', y, bracket);
      SplitMatchStep(x, y, n, bracket);
    } else if |x| == 1 {
      assert (x + y)[1..] == y && x[1..] == [];
      assert Scan(x, bracket) == Scan([], bracket) == [];
    } else {
      var x' := x[1..];
      assert x'[|x'| - 1] == x[|x| - 1];
      MatchesSplit(x', y, bracket);
      SplitSkipStep(x, y, bracket);
    }
  }

  lemma SplitMatchStep(x: string, y: string, n: nat, bracket: bool)
    requires 0 < n < |x| && UrlLen(x, 0, bracket) == n && UrlLen(x + y, 0, bracket) == n
    requires Scan(x[n..] + y, bracket) == Scan(x[n..], bracket) + Scan(y, bracket)
    ensures Scan(x + y, bracket) == Scan(x, bracket) + Scan(y, bracket)
  {
    var x' := x[n..];
    assert (x + y)[n..] == x' + y && (x + y)[..n] == x[..n];
    assert Scan(x + y, bracket) == [x[..n]] + Scan(x' + y, bracket);
    assert Scan(x, bracket) == [x[..n]] + Scan(x', bracket);
    SeqAssoc([x[..n]], Scan(x', bracket), Scan(y, bracket));
  }

  lemma SplitSkipStep(x: string, y: string, bracket: bool)
    requires 1 < |x| && UrlLen(x, 0, bracket) == 0 && UrlLen(x + y, 0, bracket) == 0
    requires Scan(x[1..] + y, bracket) == Scan(x[1..], bracket) + Scan(y, bracket)
    ensures Scan(x + y, bracket) == Scan(x, bracket) + Scan(y, bracket)
  {
    ScanSkip(x + y, bracket);
    ScanSkip(x, bracket);
    assert (x + y)[1..] == x[1..] + y;
  }

  lemma ScanSkip(t: string, bracket: bool)
    requires t != [] && UrlLen(t, 0, bracket) == 0
    ensures Scan(t, bracket) == Scan(t[1..], bracket)
  {
  }

  /** A URL followed by one stop character matches as itself. */
  lemma MatchesOfUrl(u: string, c: char, bracket: bool)
    requires IsUrl(u, bracket) && Stops(c, bracket)
    ensures Matches(u + [c], bracket) == [u]
  {
    var s := u + [c];
    assert s[0..|u|] == u && s[..|u|] == u && s[|u|..] == [c];
    UrlLenOfUrl(s, 0, u, bracket);
    assert UrlLen([c], 0, bracket) == 0 && [c][1..] == [];
    assert Scan([c], bracket) == Scan([], bracket) == [];
  }

  /** A URL alone matches as itself. */
  lemma MatchesOfWholeUrl(u: string, bracket: bool)
    requires IsUrl(u, bracket)
    ensures Matches(u, bracket) == [u]
  {
    assert u[0..|u|] == u && u[..|u|] == u && u[|u|..] == [];
    UrlLenOfUrl(u, 0, u, bracket);
    assert Scan(u, bracket) == [u] + Scan([], bracket);
  }

  // ---------------------------------------------------------------------------------
  // Deduplication, as `Array.from(new Set(xs))`: a Set iterates in insertion order.

  predicate NoDup<T(==)>(xs: seq<T>) {
    forall i, j | 0 <= i < j < |xs| :: xs[i] != xs[j]
  }

  function Dedup<T(==)>(xs: seq<T>): (r: seq<T>)
    ensures |r| <= |xs|
    decreases |xs|
  {
    if xs == [] then []
    else
      var d := Dedup(xs[..|xs| - 1]);
      var x := xs[|xs| - 1];
      if x in d then d else d + [x]
  }

  /** The deduplicated list has no repeats and holds exactly the elements of the input. */
  lemma {:induction false} DedupSpec<T>(xs: seq<T>)
    ensures var r := Dedup(xs);
      NoDup(r) && (forall i | 0 <= i < |r| :: r[i] in xs) && (forall i | 0 <= i < |xs| :: xs[i] in r)
    decreases |xs|
  {
    if xs != [] {
      var init, x := xs[..|xs| - 1], xs[|xs| - 1];
      DedupSpec(init);
      var d := Dedup(init);
      assert xs == init + [x];
      if x !in d {
        NoDupSnoc(d, x);
      }
    }
  }

  lemma NoDupSnoc<T>(d: seq<T>, x: T)
    requires NoDup(d) && x !in d
    ensures NoDup(d + [x])
  {
    var e := d + [x];
    assert forall i | 0 <= i < |d| :: e[i] == d[i];
  }

  /** Deduplicating a prefix gives a prefix of the deduplicated list. */
  lemma {:induction false} DedupPrefix<T>(xs: seq<T>, n: nat)
    requires n <= |xs|
    ensures var d := Dedup(xs[..n]); |d| <= |Dedup(xs)| && Dedup(xs)[..|d|] == d
    decreases |xs| - n
  {
    if n < |xs| {
      DedupPrefix(xs, n + 1);
      DedupStep(xs, n);
      var d0, d1 := Dedup(xs[..n]), Dedup(xs[..n + 1]);
      assert |d0| <= |d1| && d1[..|d0|] == d0;
      PrefixOfPrefix(d0, d1, Dedup(xs));
    } else {
      assert xs[..n] == xs;
    }
  }

  lemma PrefixOfPrefix<T>(a: seq<T>, b: seq<T>, c: seq<T>)
    requires |a| <= |b| <= |c| && b[..|a|] == a && c[..|b|] == b
    ensures c[..|a|] == a
  {
    assert c[..|a|] == c[..|b|][..|a|];
  }

  lemma DedupStep<T>(xs: seq<T>, n: nat)
    requires n < |xs|
    ensures var d := Dedup(xs[..n]);
      Dedup(xs[..n + 1]) == if xs[n] in d then d else d + [xs[n]]
  {
    assert xs[..n + 1][..n] == xs[..n];
  }

  /**
   * First-occurrence order: when `x` occurs in `xs` before the first occurrence of `y`,
   * `x` comes before `y` in the deduplicated list.
   */
  lemma DedupKeepsFirstOccurrenceOrder<T>(xs: seq<T>, n: nat, x: T, y: T)
    requires n <= |xs| && x in xs[..n] && y in xs && y !in xs[..n]
    ensures forall a, b | 0 <= a < |Dedup(xs)| && 0 <= b < |Dedup(xs)| ::
      Dedup(xs)[a] == x && Dedup(xs)[b] == y ==> a < b
  {
    var d, r := Dedup(xs[..n]), Dedup(xs);
    DedupPrefix(xs, n);
    DedupSpec(xs[..n]);
    DedupSpec(xs);
    forall a, b | 0 <= a < |r| && 0 <= b < |r| && r[a] == x && r[b] == y ensures a < b {
      assert forall i | 0 <= i < |d| :: r[i] == d[i] && d[i] != y;
      var a' :| 0 <= a' < |d| && d[a'] == x;
      assert r[a'] == x;
    }
  }

  /** `extractUniqueUrls(input, max)`: deduplicated matches, the first `max` of them. */
  function ExtractUniqueUrls(input: string, max: nat := 5): (r: seq<string>)
    ensures |r| <= max
    ensures NoDup(r)
    ensures |r| <= |Dedup(Matches(input, true))| && r == Dedup(Matches(input, true))[..|r|]
    ensures |r| == max || r == Dedup(Matches(input, true))
    ensures forall u | u in r :: u in Matches(input, true)
  {
    var d := Dedup(Matches(input, true));
    DedupSpec(Matches(input, true));
    var r := if |d| <= max then d else d[..max];
    assert forall u | u in r :: u in d;
    r
  }

  /** The extracted URLs are URL-shaped pieces of the input. */
  lemma ExtractedAreUrls(input: string, max: nat)
    ensures forall u | u in ExtractUniqueUrls(input, max) :: IsUrl(u, true) && exists p :: Occurs(input, u, p)
  {
    MatchesAreUrls(input, true);
  }

  // ---------------------------------------------------------------------------------
  // The cases of client/src/utils/url.test.ts and MessageCitations.test.tsx.

  lemma NoUrlsHere()
    ensures ExtractUniqueUrls("no urls here") == []
  {
    var s := "no urls here";
    assert ':' !in s;
    NoColonNoMatch(s, true);
  }

  /** Text without `:` that ends in a stop character contributes no match. */
  lemma MatchesAfterText(x: string, rest: string, bracket: bool)
    requires ':' !in x && x != [] && Stops(x[|x| - 1], bracket)
    ensures Matches(x + rest, bracket) == Matches(rest, bracket)
  {
    NoColonNoMatch(x, bracket);
    MatchesSplit(x, rest, bracket);
  }

  /** A URL followed by a stop character contributes itself. */
  lemma MatchesAfterUrl(u: string, rest: string, bracket: bool)
    requires IsUrl(u, bracket) && rest != [] && Stops(rest[0], bracket)
    ensures Matches(u + rest, bracket) == [u] + Matches(rest, bracket)
  {
    var c, tail := rest[0], rest[1..];
    assert u + rest == (u + [c]) + tail;
    assert rest == [c] + tail;
    MatchesOfUrl(u, c, bracket);
    MatchesSplit(u + [c], tail, bracket);
    MatchesAfterText([c], tail, bracket);
  }

  const exampleCom := "https://example.com"
  const anotherCom := "https://another.com"

  /**
   * Two copies of a URL are reported once, in first-occurrence order:
   * "Check https://example.com and also https://example.com and https://another.com".
   */
  lemma DuplicateShownOnce()
    ensures ExtractUniqueUrls("Check " + (exampleCom + (" and also " + (exampleCom + (" and " + anotherCom)))))
         == [exampleCom, anotherCom]
  {
    var rest := exampleCom + (" and also " + (exampleCom + (" and " + anotherCom)));
    DuplicateRest();
    PlainWords();
    MatchesAfterText("Check ", rest, true);
    DedupTwoOne(exampleCom, anotherCom);
  }

  lemma DuplicateRest()
    ensures Matches(exampleCom + (" and also " + (exampleCom + (" and " + anotherCom))), true)
         == [exampleCom, exampleCom, anotherCom]
  {
    var tail := exampleCom + (" and " + anotherCom);
    var rest := " and also " + tail;
    ExampleIsUrl();
    DuplicateTail();
    PlainWords();
    MatchesAfterText(" and also ", tail, true);
    assert rest[0] == ' ';
    MatchesAfterUrl(exampleCom, rest, true);
  }

  lemma DuplicateTail()
    ensures Matches(exampleCom + (" and " + anotherCom), true) == [exampleCom, anotherCom]
  {
    var rest := " and " + anotherCom;
    ExampleIsUrl();
    AnotherIsUrl();
    MatchesOfWholeUrl(anotherCom, true);
    PlainWords();
    MatchesAfterText(" and ", anotherCom, true);
    assert rest[0] == ' ';
    MatchesAfterUrl(exampleCom, rest, true);
  }

  lemma PlainWords()
    ensures ':' !in "Check " && ':' !in " and also " && ':' !in " and " && Stops(' ', true)
  {
  }

  lemma ExampleIsUrl()
    ensures IsUrl(exampleCom, true)
  {
    PlainUrl(exampleCom);
  }

  lemma AnotherIsUrl()
    ensures IsUrl(anotherCom, true)
  {
    PlainUrl(anotherCom);
  }

  /** `https://` followed by visible ASCII characters other than `)` and `]` is a URL. */
  lemma PlainUrl(u: string)
    requires |u| > 8 && u[..8] == "https://"
    requires forall j | 8 <= j < |u| :: '!' <= u[j] <= '~' && u[j] != ')' && u[j] != ']'
    ensures IsUrl(u, true)
  {
    assert u[0] == 'h' && u[1] == 't' && u[2] == 't' && u[3] == 'p';
    assert u[4] == 's' && u[5] == ':' && u[6] == '/' && u[7] == '/';
    assert SchemeLen(u, 0) == 8;
  }

  lemma DedupTwoOne<T>(e: T, a: T)
    requires e != a
    ensures Dedup([e, e, a]) == [e, a]
  {
    assert [e, e, a][..2] == [e, e] && [e, e][..1] == [e] && [e][..0] == [];
    assert Dedup([e]) == [e];
    assert Dedup([e, e]) == [e];
  }
}
