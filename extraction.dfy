/** The layered JSON extractor of src/autogen/app.py: `clean_json_response`,
    its last resort `extract_json_by_building`, the textual repair, and the
    variant `extract_valid_json` used by the course-from-assessment handler.

    The strict parser (`json.loads`) is a parameter: `parse(t)` is `None`
    exactly when `json.loads(t)` raises `JSONDecodeError`. */
module Extraction {
  import opened Wrappers
  import opened Text
  import opened JsonValue

  /** `json.loads`: `None` stands for a `JSONDecodeError`. */
  type Parser = string -> Option<Json>

  /* ---------- the regex candidates ---------- */

  /** `re.search(r'({[\s\S]*})', text)` (and the `[...]` variant): the greedy
      span from the first `open` to the last `close`, when the first `open`
      comes before the last `close`. */
  function Span(text: string, open: char, close: char): (r: Option<string>)
    requires open != close
    ensures r.Some? <==> exists i, j :: 0 <= i < j < |text| && text[i] == open && text[j] == close
    ensures r.Some? ==> |r.value| >= 2 && r.value[0] == open && r.value[|r.value| - 1] == close
    ensures r.Some? ==> exists i: nat, j: nat :: GreedySpan(text, open, close, i, j) && r.value == text[i..j + 1]
  {
    match (FindChar(text, open), RFindChar(text, close))
    case (Some(i), Some(j)) =>
      assert open !in text[..i];
      assert close !in text[j + 1..];
      if i < j then
        assert GreedySpan(text, open, close, i, j);
        Some(text[i..j + 1])
      else None
    case (_, _) => None
  }

  /** `text[i]` is the first `open` and `text[j]` the last `close`, and `i < j`. */
  predicate GreedySpan(text: string, open: char, close: char, i: nat, j: nat) {
    i < j < |text| && text[i] == open && text[j] == close
    && open !in text[..i] && close !in text[j + 1..]
  }

  /** The opening fence of the fenced block: the first "```" that has another
      "```" at or after its end. */
  const Fence: string := "```"

  /** `re.search(r'```(?:json)?\s*([\s\S]*?)\s*```', text).group(1)`: the text
      between the first fence (and an optional `json` tag and the whitespace
      after it) and the next fence, without the whitespace before that fence. */
  function FenceInterior(text: string): (r: Option<string>)
    ensures r.Some? ==> r.value == [] || (!IsSpace(r.value[0]) && !IsSpace(r.value[|r.value| - 1]))
  {
    match FindFrom(text, Fence, 0)
    case None => None
    case Some(p) =>
      var q := if MatchesAt(text, "json", p + 3) then p + 7 else p + 3;
      if q > |text| then None
      else
        var w := SkipSpaces(text, q);
        match FindFrom(text, Fence, w)
        case None => None
        case Some(k) =>
          var e := BackSpaces(text, w, k);
          Some(text[w..e])
  }

  /** Parses a candidate, if there is one. */
  function TryCandidate(parse: Parser, c: Option<string>): Option<Json> {
    match c
    case None => None
    case Some(t) => parse(t)
  }

  /* ---------- the textual repair ---------- */

  /** The end of the maximal run of word characters starting at `i`. */
  function WordEnd(s: string, i: nat): (j: nat)
    requires i <= |s|
    ensures i <= j <= |s|
    ensures forall k :: i <= k < j ==> IsWordChar(s[k])
    ensures j < |s| ==> !IsWordChar(s[j])
    decreases |s| - i
  {
    if i < |s| && IsWordChar(s[i]) then WordEnd(s, i + 1) else i
  }

  /** `re.sub(r'(\w+):', r'"\1":', s)`: every maximal run of word characters
      that is immediately followed by a colon is wrapped in double quotes. */
  function QuoteKeys(s: string): (r: string)
    ensures |r| >= |s|
    decreases |s|
  {
    if |s| == 0 then ""
    else if IsWordChar(s[0]) then
      var n := WordEnd(s, 0);
      if n < |s| && s[n] == ':' then "\"" + s[..n] + "\":" + QuoteKeys(s[n + 1..])
      else s[..n] + QuoteKeys(s[n..])
    else [s[0]] + QuoteKeys(s[1..])
  }

  /** The repair of `extract_json_by_building`: newlines become spaces, then
      bare keys are quoted. */
  function Repair(s: string): (r: string)
    ensures '\n' !in s && ':' !in s ==> r == s
  {
    if '\n' !in s && ':' !in s then
      assert ReplaceChar(s, '\n', ' ') == s;
      QuoteKeysNoColon(s);
      QuoteKeys(ReplaceChar(s, '\n', ' '))
    else QuoteKeys(ReplaceChar(s, '\n', ' '))
  }

  /** `json.loads(c)`, and on failure `json.loads` of the repaired text. */
  function ParseOrRepair(parse: Parser, c: string): Option<Json> {
    match parse(c)
    case Some(v) => Some(v)
    case None => parse(Repair(c))
  }

  /* ---------- the bracket-counting scan ---------- */

  /** +1 for `{` and `[`, -1 for `}` and `]`: the counter does not look at
      strings and does not match bracket kinds. */
  function Delta(c: char): int {
    if c == '{' || c == '[' then 1 else if c == '}' || c == ']' then -1 else 0
  }

  /** The counter's value after scanning `s`. */
  function Balance(s: string): int {
    if |s| == 0 then 0 else Balance(s[..|s| - 1]) + Delta(s[|s| - 1])
  }

  predicate IsOpener(c: char) {
    c == '{' || c == '['
  }

  /** `min(text.find('{'), text.find('['))`. */
  function FirstOpener(text: string): (r: Option<nat>)
    ensures r.Some? ==> r.value < |text| && IsOpener(text[r.value])
    ensures r.Some? ==> forall k :: 0 <= k < r.value ==> !IsOpener(text[k])
    ensures r.None? ==> forall k :: 0 <= k < |text| ==> !IsOpener(text[k])
  {
    match (FindChar(text, '{'), FindChar(text, '['))
    case (None, None) => None
    case (Some(i), None) => Some(i)
    case (None, Some(j)) => Some(j)
    case (Some(i), Some(j)) => Some(if i < j then i else j)
  }

  /** The first end `e >= i` at which the counter started at `start` is zero. */
  function CloseFrom(text: string, start: nat, i: nat): (r: Option<nat>)
    requires start < i
    ensures r.Some? ==> i <= r.value <= |text| && start < r.value && Balance(text[start..r.value]) == 0
    ensures r.Some? ==> forall e :: i <= e < r.value ==> Balance(text[start..e]) != 0
    ensures r.None? ==> forall e :: i <= e <= |text| ==> Balance(text[start..e]) != 0
    decreases |text| + 1 - i
  {
    if i > |text| then None
    else if Balance(text[start..i]) == 0 then Some(i)
    else CloseFrom(text, start, i + 1)
  }

  /** What `extract_json_by_building` computes: `None` when there is no
      opener or the counter never returns to zero; otherwise the strict, then
      repaired, parse of the first balanced span, and never a later span. */
  function ExtractByBuilding(parse: Parser, text: string): (r: Option<Json>)
    ensures FirstOpener(text).None? ==> r.None?
    ensures forall s: nat, e: nat ::
              FirstOpener(text) == Some(s) && s < e <= |text| && Balance(text[s..e]) == 0
              && (forall e' :: s < e' < e ==> Balance(text[s..e']) != 0)
              ==> r == ParseOrRepair(parse, text[s..e])
    ensures forall s: nat ::
              FirstOpener(text) == Some(s) && (forall e :: s < e <= |text| ==> Balance(text[s..e]) != 0)
              ==> r.None?
  {
    match FirstOpener(text)
    case None => None
    case Some(s) =>
      match CloseFrom(text, s, s + 1)
      case None => None
      case Some(e) => ParseOrRepair(parse, text[s..e])
  }

  lemma BalanceSnoc(s: string, c: char)
    ensures Balance(s + [c]) == Balance(s) + Delta(c)
  {
    assert (s + [c])[..|s + [c]| - 1] == s;
  }

  /** The scan of `extract_json_by_building` with its open-bracket counter:
      the end of the first balanced span that starts at `start`. */
  method ScanToClose(text: string, start: nat) returns (e: Option<nat>)
    requires start < |text|
    ensures e == CloseFrom(text, start, start + 1)
  {
    var openBrackets := 0;
    var i := start;
    while i < |text|
      invariant start <= i <= |text|
      invariant openBrackets == Balance(text[start..i])
      invariant CloseFrom(text, start, start + 1) == CloseFrom(text, start, i + 1)
    {
      assert text[start..i + 1] == text[start..i] + [text[i]];
      BalanceSnoc(text[start..i], text[i]);
      if text[i] == '{' || text[i] == '[' {
        openBrackets := openBrackets + 1;
      } else if text[i] == '}' || text[i] == ']' {
        openBrackets := openBrackets - 1;
      }
      if openBrackets == 0 {
        return Some(i + 1);
      }
      i := i + 1;
    }
    return None;
  }

  /** `extract_json_by_building`: from the first opener, scan to the first
      point where the counter is back at zero, then parse that span strictly
      and, failing that, repaired. */
  method ExtractJsonByBuilding(parse: Parser, text: string) returns (r: Option<Json>)
    ensures r == ExtractByBuilding(parse, text)
  {
    var first := FirstOpener(text);
    if first.None? {
      return None;
    }
    var start := first.value;
    var close := ScanToClose(text, start);
    if close.None? {
      return None;
    }
    var jsonStr := text[start..close.value];
    var strict := parse(jsonStr);
    if strict.Some? {
      return strict;
    }
    var cleaned := Repair(jsonStr);
    return parse(cleaned);
  }

  /* ---------- the fallback chains ---------- */

  /** `clean_json_response`: the whole text, then the `{...}` span, then the
      `[...]` span, then the fenced block, each parsed strictly; the first that
      parses wins, and the bracket-counting scan is the last resort. */
  function CleanJsonResponse(parse: Parser, text: string): (r: Option<Json>)
    ensures parse(text).Some? ==> r == parse(text)
  {
    if parse(text).Some? then parse(text)
    else
      var obj := TryCandidate(parse, Span(text, '{', '}'));
      if obj.Some? then obj
      else
        var arr := TryCandidate(parse, Span(text, '[', ']'));
        if arr.Some? then arr
        else
          var fenced := TryCandidate(parse, FenceInterior(text));
          if fenced.Some? then fenced
          else ExtractByBuilding(parse, text)
  }

  /** The stripped candidate, if there is one. */
  function StripOpt(c: Option<string>): Option<string> {
    match c
    case None => None
    case Some(t) => Some(Strip(t))
  }

  /** `extract_valid_json` (the course-from-assessment handler): the fenced
      block first, then the `{...}` span, each stripped, then
      `clean_json_response`. */
  function ExtractValidJson(parse: Parser, text: string): (r: Option<Json>)
    ensures TryCandidate(parse, FenceInterior(text)).Some? ==> r == TryCandidate(parse, FenceInterior(text))
  {
    StripIsIdentityOnCandidates(text);
    var fenced := TryCandidate(parse, StripOpt(FenceInterior(text)));
    if fenced.Some? then fenced
    else
      var obj := TryCandidate(parse, StripOpt(Span(text, '{', '}')));
      if obj.Some? then obj
      else CleanJsonResponse(parse, text)
  }

  /* ---------- properties ---------- */

  /** A string with no whitespace at either end is its own `strip()`. */
  lemma StripTrimmed(s: string)
    requires s == [] || (!IsSpace(s[0]) && !IsSpace(s[|s| - 1]))
    ensures Strip(s) == s
  {
    if s != [] {
      assert SkipSpaces(s, 0) == 0;
      assert BackSpaces(s, 0, |s|) == |s|;
    }
  }

  /** The `.strip()` calls of `extract_valid_json` change nothing: the fenced
      interior is already trimmed and the `{...}` span starts and ends with
      a brace. */
  lemma StripIsIdentityOnCandidates(text: string)
    ensures StripOpt(FenceInterior(text)) == FenceInterior(text)
    ensures StripOpt(Span(text, '{', '}')) == Span(text, '{', '}')
  {
    if FenceInterior(text).Some? {
      StripTrimmed(FenceInterior(text).value);
    }
    if Span(text, '{', '}').Some? {
      StripTrimmed(Span(text, '{', '}').value);
    }
  }

  /** A fence sits on a backtick. */
  lemma FenceStartsWithBacktick(text: string, b: nat)
    requires MatchesAt(text, Fence, b)
    ensures b < |text| && text[b] == '`'
  {
    assert text[b] == text[b..b + 3][0];
  }

  /** Two non-overlapping fences are enough for the fenced-block regex to
      match. */
  lemma FenceInteriorFound(text: string, a: nat, b: nat)
    requires MatchesAt(text, Fence, a) && MatchesAt(text, Fence, b) && a + 3 <= b
    ensures FenceInterior(text).Some?
  {
    var p := FindFrom(text, Fence, 0).value;
    FenceStartsWithBacktick(text, b);
    if MatchesAt(text, "json", p + 3) {
      forall i | p + 3 <= i < p + 7
        ensures text[i] != '`'
      {
        assert text[i] == text[p + 3..p + 7][i - (p + 3)];
      }
    }
    var q := if MatchesAt(text, "json", p + 3) then p + 7 else p + 3;
    var w := SkipSpaces(text, q);
    assert w <= b;
  }

  /** When the fenced-block regex matches, its opening and closing fences
      are two non-overlapping fences of the text. */
  lemma FenceInteriorFences(text: string) returns (a: nat, b: nat)
    requires FenceInterior(text).Some?
    ensures MatchesAt(text, Fence, a) && MatchesAt(text, Fence, b) && a + 3 <= b
  {
    a := FindFrom(text, Fence, 0).value;
    var q := if MatchesAt(text, "json", a + 3) then a + 7 else a + 3;
    b := FindFrom(text, Fence, SkipSpaces(text, q)).value;
  }

  /** The fenced-block regex matches exactly when the text holds two
      non-overlapping fences. */
  lemma FenceInteriorExists(text: string)
    ensures FenceInterior(text).Some? <==>
              exists a: nat, b: nat :: MatchesAt(text, Fence, a) && MatchesAt(text, Fence, b) && a + 3 <= b
  {
    if FenceInterior(text).Some? {
      var a, b := FenceInteriorFences(text);
    }
    if exists a: nat, b: nat :: MatchesAt(text, Fence, a) && MatchesAt(text, Fence, b) && a + 3 <= b {
      var a: nat, b: nat :| MatchesAt(text, Fence, a) && MatchesAt(text, Fence, b) && a + 3 <= b;
      FenceInteriorFound(text, a, b);
    }
  }

  /** A slice that ends before the first occurrence of `p` does not contain `p`. */
  lemma NoMatchInSlice(text: string, p: string, lo: nat, e: nat, hi: nat)
    requires |p| > 0 && lo <= e <= hi <= |text|
    requires forall k: nat :: lo <= k < hi ==> !MatchesAt(text, p, k)
    ensures !Contains(text[lo..e], p)
  {
    var r := text[lo..e];
    forall t: nat | t <= |r|
      ensures !MatchesAt(r, p, t)
    {
      if MatchesAt(r, p, t) {
        forall i | t <= i < t + |p|
          ensures r[i] == text[lo + i]
        {
        }
        assert r[t..t + |p|] == text[lo + t..lo + t + |p|];
        assert MatchesAt(text, p, lo + t);
      }
    }
  }

  /** The interior is the shortest one: it never contains a fence itself. */
  lemma FenceInteriorHasNoFence(text: string)
    requires FenceInterior(text).Some?
    ensures !Contains(FenceInterior(text).value, Fence)
  {
    var p := FindFrom(text, Fence, 0).value;
    var q := if MatchesAt(text, "json", p + 3) then p + 7 else p + 3;
    var w := SkipSpaces(text, q);
    var k := FindFrom(text, Fence, w).value;
    NoMatchInSlice(text, Fence, w, BackSpaces(text, w, k), k);
  }

  /** `QuoteKeys` passes a non-word character through. */
  lemma QuoteKeysNonWord(c: char, y: string)
    requires !IsWordChar(c)
    ensures QuoteKeys([c] + y) == [c] + QuoteKeys(y)
  {
    assert ([c] + y)[1..] == y;
  }

  /** A run of word characters from `i` to `m` that ends the text or a
      non-word character is the run `WordEnd` finds. */
  lemma {:induction false} WordEndAt(s: string, i: nat, m: nat)
    requires i <= m <= |s|
    requires forall k :: i <= k < m ==> IsWordChar(s[k])
    requires m == |s| || !IsWordChar(s[m])
    ensures WordEnd(s, i) == m
    decreases m - i
  {
    if i < m {
      WordEndAt(s, i + 1, m);
    }
  }

  /** A word run that is not followed by a colon is copied unchanged. */
  lemma QuoteKeysWord(w: string, y: string)
    requires |w| > 0 && forall k :: 0 <= k < |w| ==> IsWordChar(w[k])
    requires y == [] || (!IsWordChar(y[0]) && y[0] != ':')
    ensures QuoteKeys(w + y) == w + QuoteKeys(y)
  {
    var s := w + y;
    WordEndAt(s, 0, |w|);
    assert s[..|w|] == w && s[|w|..] == y;
  }

  /** A word run followed by a colon is quoted. */
  lemma QuoteKeysColon(w: string, y: string)
    requires |w| > 0 && forall k :: 0 <= k < |w| ==> IsWordChar(w[k])
    ensures QuoteKeys(w + [':'] + y) == "\"" + w + "\":" + QuoteKeys(y)
  {
    var s := w + [':'] + y;
    WordEndAt(s, 0, |w|);
    assert s[..|w|] == w && s[|w| + 1..] == y;
  }

  /** A key that is already quoted is left as it is: the closing quote
      separates the word from the colon. */
  lemma QuotedKeyUnchanged(w: string, y: string)
    requires |w| > 0 && forall k :: 0 <= k < |w| ==> IsWordChar(w[k])
    ensures QuoteKeys("\"" + w + "\":" + y) == "\"" + w + "\":" + QuoteKeys(y)
  {
    var t1 := [':'] + y;
    var t2 := ['"'] + t1;
    var t3 := w + t2;
    var t4 := ['"'] + t3;
    assert "\"" + w + "\":" + y == t4;
    var q := QuoteKeys(y);
    QuoteKeysNonWord(':', y);
    QuoteKeysNonWord('"', t1);
    QuoteKeysWord(w, t2);
    QuoteKeysNonWord('"', t3);
    assert QuoteKeys(t4) == ['"'] + (w + (['"'] + ([':'] + q)));
    assert ['"'] + (w + (['"'] + ([':'] + q))) == "\"" + w + "\":" + q;
  }

  /** Text without a colon needs no repair of keys. */
  lemma {:induction false} QuoteKeysNoColon(s: string)
    requires ':' !in s
    ensures QuoteKeys(s) == s
    decreases |s|
  {
    if |s| > 0 {
      if IsWordChar(s[0]) {
        var n := WordEnd(s, 0);
        assert n < |s| ==> s[n] != ':';
        assert ':' !in s[n..];
        QuoteKeysNoColon(s[n..]);
        assert s == s[..n] + s[n..];
      } else {
        assert ':' !in s[1..];
        QuoteKeysNoColon(s[1..]);
        assert s == [s[0]] + s[1..];
      }
    }
  }

  /** Quoting keys twice is quoting them once: the repair never creates a
      new bare key. */
  lemma {:induction false} QuoteKeysIdempotent(s: string)
    ensures QuoteKeys(QuoteKeys(s)) == QuoteKeys(s)
    decreases |s|
  {
    if |s| == 0 {
    } else if IsWordChar(s[0]) {
      var n := WordEnd(s, 0);
      if n < |s| && s[n] == ':' {
        QuoteKeysIdempotent(s[n + 1..]);
        QuotedKeyIdempotentStep(s[..n], s[n + 1..]);
      } else if n == |s| {
        QuoteKeysWord(s, []);
      } else {
        QuoteKeysIdempotent(s[n..]);
        BareWordIdempotentStep(s[..n], s[n..]);
      }
    } else {
      QuoteKeysNonWord(s[0], QuoteKeys(s[1..]));
      QuoteKeysIdempotent(s[1..]);
    }
  }

  lemma QuotedKeyIdempotentStep(w: string, rest: string)
    requires |w| > 0 && forall k :: 0 <= k < |w| ==> IsWordChar(w[k])
    requires QuoteKeys(QuoteKeys(rest)) == QuoteKeys(rest)
    ensures QuoteKeys("\"" + w + "\":" + QuoteKeys(rest)) == "\"" + w + "\":" + QuoteKeys(rest)
  {
    QuotedKeyUnchanged(w, QuoteKeys(rest));
  }

  lemma BareWordIdempotentStep(w: string, tail: string)
    requires |w| > 0 && forall k :: 0 <= k < |w| ==> IsWordChar(w[k])
    requires |tail| > 0 && !IsWordChar(tail[0]) && tail[0] != ':'
    requires QuoteKeys(QuoteKeys(tail)) == QuoteKeys(tail)
    ensures QuoteKeys(w + QuoteKeys(tail)) == w + QuoteKeys(tail)
  {
    assert tail == [tail[0]] + tail[1..];
    QuoteKeysNonWord(tail[0], tail[1..]);
    QuoteKeysWord(w, QuoteKeys(tail));
  }

  /** Inside the balanced span tried by the scan, the counter stays positive
      until the span's end: the first opener opens it, and it closes exactly
      once. */
  lemma {:induction false} ScanCounterPositive(text: string, s: nat, e: nat)
    requires s < e <= |text| && IsOpener(text[s])
    requires forall e' :: s < e' <= e ==> Balance(text[s..e']) != 0
    ensures Balance(text[s..e]) > 0
    decreases e - s
  {
    if e == s + 1 {
      assert text[s..e] == [] + [text[s]];
      BalanceSnoc([], text[s]);
    } else {
      ScanCounterPositive(text, s, e - 1);
      assert text[s..e] == text[s..e - 1] + [text[e - 1]];
      BalanceSnoc(text[s..e - 1], text[e - 1]);
    }
  }

  /** The span handed to the parser by the scan is balanced, and none of its
      proper prefixes is. */
  lemma BuildingSpanBalanced(text: string)
    requires FirstOpener(text).Some?
    requires CloseFrom(text, FirstOpener(text).value, FirstOpener(text).value + 1).Some?
    ensures var s := FirstOpener(text).value;
            var e := CloseFrom(text, s, s + 1).value;
            Balance(text[s..e]) == 0 && forall e' :: s < e' < e ==> Balance(text[s..e']) > 0
  {
    var s := FirstOpener(text).value;
    var e := CloseFrom(text, s, s + 1).value;
    forall e' | s < e' < e
      ensures Balance(text[s..e']) > 0
    {
      ScanCounterPositive(text, s, e');
    }
  }

  /** The first candidate that parses, in order. */
  function FirstParse(parse: Parser, cands: seq<string>): (r: Option<Json>)
    ensures r.Some? <==> exists k :: 0 <= k < |cands| && parse(cands[k]).Some?
  {
    if |cands| == 0 then None
    else if parse(cands[0]).Some? then parse(cands[0])
    else
      var r := FirstParse(parse, cands[1..]);
      assert forall k :: 1 <= k < |cands| ==> cands[k] == cands[1..][k - 1];
      r
  }

  function OptList(c: Option<string>): seq<string> {
    match c
    case None => []
    case Some(t) => [t]
  }

  /** The candidates of `clean_json_response`, in the order they are tried. */
  function Candidates(text: string): seq<string> {
    [text] + OptList(Span(text, '{', '}')) + OptList(Span(text, '[', ']')) + OptList(FenceInterior(text))
  }

  lemma {:induction false} FirstParseAppend(parse: Parser, a: seq<string>, b: seq<string>)
    ensures FirstParse(parse, a + b) == if FirstParse(parse, a).Some? then FirstParse(parse, a) else FirstParse(parse, b)
    decreases |a|
  {
    if |a| > 0 {
      assert (a + b)[0] == a[0];
      assert (a + b)[1..] == a[1..] + b;
      FirstParseAppend(parse, a[1..], b);
    } else {
      assert a + b == b;
    }
  }

  lemma FirstParseOpt(parse: Parser, c: Option<string>)
    ensures FirstParse(parse, OptList(c)) == TryCandidate(parse, c)
  {
    if c.Some? {
      assert OptList(c)[1..] == [];
    }
  }

  /** `clean_json_response` returns the first successful parse among its
      candidates, in order, and only then falls back to the scan. */
  lemma CleanJsonResponseIsFirstParse(parse: Parser, text: string)
    ensures CleanJsonResponse(parse, text) ==
              var f := FirstParse(parse, Candidates(text));
              if f.Some? then f else ExtractByBuilding(parse, text)
  {
    var c0, c1, c2, c3 := [text], OptList(Span(text, '{', '}')), OptList(Span(text, '[', ']')), OptList(FenceInterior(text));
    FirstParseAppend(parse, c0 + c1 + c2, c3);
    FirstParseAppend(parse, c0 + c1, c2);
    FirstParseAppend(parse, c0, c1);
    assert c0[1..] == [];
    FirstParseOpt(parse, Span(text, '{', '}'));
    FirstParseOpt(parse, Span(text, '[', ']'));
    FirstParseOpt(parse, FenceInterior(text));
  }

  /** `extract_valid_json` tries the fenced block and then the `{...}` span
      before handing the text to `clean_json_response`. */
  lemma ExtractValidJsonIsFirstParse(parse: Parser, text: string)
    ensures ExtractValidJson(parse, text) ==
              var f := FirstParse(parse, OptList(FenceInterior(text)) + OptList(Span(text, '{', '}')));
              if f.Some? then f else CleanJsonResponse(parse, text)
  {
    StripIsIdentityOnCandidates(text);
    FirstParseAppend(parse, OptList(FenceInterior(text)), OptList(Span(text, '{', '}')));
    FirstParseOpt(parse, Span(text, '{', '}'));
    FirstParseOpt(parse, FenceInterior(text));
  }

  /** The two extractors disagree on a JSON string that itself holds a
      fenced block: `clean_json_response` keeps the whole string, while
      `extract_valid_json` returns what is inside the fences. */
  lemma ExtractorsDisagree(parse: Parser)
    requires parse("\"```1```\"") == Some(Str("```1```"))
    requires parse("1") == Some(Num(1))
    ensures CleanJsonResponse(parse, "\"```1```\"") == Some(Str("```1```"))
    ensures ExtractValidJson(parse, "\"```1```\"") == Some(Num(1))
  {
    var t := "\"```1```\"";
    assert t[0..3][0] == '"';
    assert t[1..4] == Fence;
    assert FindFrom(t, Fence, 0) == Some(1);
    assert t[4..8][0] == '1';
    assert SkipSpaces(t, 4) == 4;
    assert !MatchesAt(t, Fence, 4) && MatchesAt(t, Fence, 5);
    assert FindFrom(t, Fence, 4) == Some(5);
    assert BackSpaces(t, 4, 5) == 5;
    assert t[4..5] == "1";
    assert FenceInterior(t) == Some("1");
  }

  /** Text without brackets or backticks yields no candidate besides itself. */
  lemma CleanJsonResponsePlainText(parse: Parser, text: string)
    requires '{' !in text && '[' !in text && '`' !in text
    ensures CleanJsonResponse(parse, text) == parse(text)
  {
    assert Span(text, '{', '}') == None;
    assert Span(text, '[', ']') == None;
    if FindFrom(text, Fence, 0).Some? {
      FenceStartsWithBacktick(text, FindFrom(text, Fence, 0).value);
    }
    assert FenceInterior(text) == None;
    assert FirstOpener(text) == None;
  }
}
