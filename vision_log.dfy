/** The vision-browser log summariser (`parse_log_vision_browser.py`): the
    first line announces how many questions were loaded, every line
    mentioning `**Prompt tokens` (or else `**Completion tokens`) carries a
    count after its first colon, and the script reports the number of
    steps and the token totals, each also per question. */
module VisionLog {
  import opened PyStr

  const LoadedMarker: string := "Loaded"
  const QuestionsMarker: string := "questions"
  const PromptMarker: string := "**Prompt tokens"
  const CompletionMarker: string := "**Completion tokens"
  const Colon: string := ":"

  /** What stops the script: an empty log (`lines[0]`), `int()` on a text
      that is not a number, a token line without a colon (`[1]` of a
      one-piece split), and zero questions (the first division). */
  datatype VisionError =
    | NoHeader
    | BadInt(text: string)
    | NoColon
    | ZeroQuestions

  /** `int(text)`. */
  function IntOf(text: string): (r: Result<int, VisionError>)
    ensures r.Success? <==> ParseInt(text).Some?
    ensures r.Success? ==> Some(r.value) == ParseInt(text)
    ensures r.Failure? ==> r.error == BadInt(text)
  {
    match ParseInt(text)
    case Some(v) => Success(v)
    case None => Failure(BadInt(text))
  }

  // ---------------------------------------------------------------------------
  // The question count

  /** The number text of the header: after the last `Loaded`, before the
      first `questions` that follows, stripped. */
  function QuestionCountText(header: string): string {
    Strip(Split(LastPart(header, LoadedMarker), QuestionsMarker)[0])
  }

  /** `num_questions`, read from the first line. */
  function NumQuestions(lines: seq<string>): (r: Result<int, VisionError>)
    ensures lines == [] ==> r == Failure(NoHeader)
    ensures lines != [] ==> r == IntOf(QuestionCountText(lines[0]))
  {
    if lines == [] then Failure(NoHeader) else IntOf(QuestionCountText(lines[0]))
  }

  /** A header of the usual form, `… Loaded <n> questions …` with no other
      `L` after the count, yields `n`. */
  lemma HeaderRoundTrip(pre: string, n: nat, rest: string)
    requires 'L' !in pre && 'L' !in rest
    ensures NumQuestions([pre + LoadedMarker + (" " + NatToString(n) + " " + QuestionsMarker + rest)])
         == Success(n)
  {
    var digits := NatToString(n);
    var padded := " " + digits + " ";
    var tail := padded + QuestionsMarker + rest;
    var header := pre + LoadedMarker + tail;
    assert NoSpace(digits) && 'L' !in digits && 'q' !in digits by {
      forall k | 0 <= k < |digits| ensures !IsSpace(digits[k]) && digits[k] != 'L' && digits[k] != 'q' {
        assert IsDigit(digits[k]);
      }
    }
    FindAfterFree(pre, LoadedMarker, tail);
    assert 'L' !in tail by {
      assert tail == " " + digits + " " + QuestionsMarker + rest;
    }
    Unmarked(tail, LoadedMarker);
    assert header[..|pre|] == pre;
    assert Split(tail, LoadedMarker) == [tail];
    assert Split(header, LoadedMarker) == [pre, tail];
    FindAfterFree(padded, QuestionsMarker, rest);
    assert Split(tail, QuestionsMarker)[0] == padded;
    StripPadded(digits);
    ParseNatToString(n);
    StripNoSpace(digits);
  }

  /** The header read as the script reads it: with the last `Loaded` of the
      first line followed by a count text and then `questions` (the count
      text holding no `questions` of its own), the question count is
      `int()` of the stripped count text, whatever precedes that `Loaded`
      and whatever lines follow. */
  lemma NumQuestionsReads(pre: string, count: string, post: string, more: seq<string>)
    requires !Contains(count + QuestionsMarker + post, LoadedMarker)
    requires !Contains(count, QuestionsMarker)
    ensures NumQuestions([pre + LoadedMarker + (count + QuestionsMarker + post)] + more)
         == IntOf(Strip(count))
  {
    var tail := count + QuestionsMarker + post;
    assert LoadedMarker[1..] == "oaded";
    LastPartAfter(pre, LoadedMarker, tail);
    SplitFirst(tail, QuestionsMarker);
    QuestionsAfterCount(count, post);
  }

  /** The first `questions` after a count text without one is the one that
      follows it. */
  lemma QuestionsAfterCount(count: string, post: string)
    requires !Contains(count, QuestionsMarker)
    ensures Find(count + QuestionsMarker + post, QuestionsMarker, 0) == |count|
    ensures (count + QuestionsMarker + post)[..|count|] == count
  {
    var s := count + QuestionsMarker + post;
    assert s[|count|..|count| + |QuestionsMarker|] == QuestionsMarker;
    assert OccursAt(s, QuestionsMarker, |count|);
    assert QuestionsMarker[1..] == "uestions";
    forall j | 0 <= j < |count| ensures !OccursAt(s, QuestionsMarker, j) {
      if j + |QuestionsMarker| <= |count| {
        assert s[j..j + |QuestionsMarker|] == count[j..j + |QuestionsMarker|];
        assert !OccursAt(count, QuestionsMarker, j);
      } else {
        NoOverlap(s, QuestionsMarker, j, |count|);
      }
    }
  }

  /** A text without the first character of `pat` does not contain `pat`. */
  lemma Unmarked(s: string, pat: string)
    requires |pat| > 0 && pat[0] !in s
    ensures !Contains(s, pat)
  {
    forall j | 0 <= j < |s| ensures !OccursAt(s, pat, j) {
      NotOccursAt(s, pat, j, 0);
    }
  }

  /** One blank on each side of a word without whitespace is stripped. */
  lemma StripPadded(word: string)
    requires word != [] && NoSpace(word)
    ensures Strip(" " + word + " ") == word
  {
    assert (" " + word + " ")[1..] == word + " ";
    assert StripLeft(" " + word + " ") == word + " ";
    assert (word + " ")[..|word|] == word;
    assert StripRight(word + " ") == StripRight(word);
    StripNoSpace(word);
    assert StripRight(word) == Strip(word);
  }

  // ---------------------------------------------------------------------------
  // The token loop

  /** `line.split(":")[1].strip()`: the text between the first and the
      second colon, stripped; a line without a colon raises. */
  function TokenText(line: string): (r: Result<string, VisionError>)
    ensures r.Failure? <==> !Contains(line, Colon)
    ensures r.Failure? ==> r.error == NoColon
  {
    var parts := Split(line, Colon);
    if |parts| < 2 then Failure(NoColon) else Success(Strip(parts[1]))
  }

  /** A token line `<name>:<count>` with one colon gives the stripped
      count text. */
  lemma TokenLineText(name: string, count: string)
    requires ':' !in name && ':' !in count
    ensures TokenText(name + Colon + count) == Success(Strip(count))
  {
    FindAfterFree(name, Colon, count);
    Unmarked(count, Colon);
    SplitSecond(name + Colon + count, Colon);
  }

  /** The two token lists, as the strings the script appends. */
  datatype Tokens = Tokens(prompt: seq<string>, completion: seq<string>)

  const NoTokens := Tokens([], [])

  /** One line of the loop: a prompt line, else a completion line, else
      nothing. */
  function TokenStep(t: Tokens, line: string): (r: Result<Tokens, VisionError>)
    ensures r.Failure? ==> r.error == NoColon && MarkedLine(line)
    ensures r.Success? ==> Grows(t, r.value) && Size(r.value) <= Size(t) + 1
    ensures !MarkedLine(line) ==> r == Success(t)
  {
    if Contains(line, PromptMarker) then
      var token :- TokenText(line);
      Success(t.(prompt := t.prompt + [token]))
    else if Contains(line, CompletionMarker) then
      var token :- TokenText(line);
      Success(t.(completion := t.completion + [token]))
    else Success(t)
  }

  /** The loop over all lines, the header included, from `t` onwards. */
  function TokenScan(t: Tokens, lines: seq<string>): (r: Result<Tokens, VisionError>)
    ensures r.Failure? ==> r.error == NoColon
    ensures r.Success? ==> Grows(t, r.value) && Size(r.value) <= Size(t) + |lines|
    decreases |lines|
  {
    if lines == [] then Success(t)
    else
      var t1 :- TokenStep(t, lines[0]);
      GrowsThen(t, t1, TokenScan(t1, lines[1..]));
      TokenScan(t1, lines[1..])
  }

  /** Both token lists of `t` are prefixes of those of `u`: the loop only
      appends. */
  predicate Grows(t: Tokens, u: Tokens) {
    t.prompt <= u.prompt && t.completion <= u.completion
  }

  /** The number of tokens collected. */
  function Size(t: Tokens): nat {
    |t.prompt| + |t.completion|
  }

  /** Growth carries over to whatever a successful loop from `u` returns. */
  lemma GrowsThen(t: Tokens, u: Tokens, r: Result<Tokens, VisionError>)
    requires Grows(t, u)
    ensures r.Success? && Grows(u, r.value) ==> Grows(t, r.value)
  {
    if r.Success? && Grows(u, r.value) {
      PrefixTrans(t.prompt, u.prompt, r.value.prompt);
      PrefixTrans(t.completion, u.completion, r.value.completion);
    }
  }

  /** The token loop. */
  method CollectTokens(lines: seq<string>) returns (r: Result<Tokens, VisionError>)
    ensures r == TokenScan(NoTokens, lines)
  {
    var t := NoTokens;
    for i := 0 to |lines|
      invariant TokenScan(t, lines[i..]) == TokenScan(NoTokens, lines)
    {
      assert lines[i..][1..] == lines[i + 1..];
      var next := TokenStep(t, lines[i]);
      if next.Failure? {
        return next;
      }
      t := next.value;
    }
    return Success(t);
  }

  /** The number of lines mentioning `marker` and not `excluded`. */
  function CountLines(lines: seq<string>, marker: string, excluded: Option<string>): nat
    decreases |lines|
  {
    if lines == [] then 0
    else
      var hit := Contains(lines[0], marker) && (excluded.None? || !Contains(lines[0], excluded.value));
      (if hit then 1 else 0) + CountLines(lines[1..], marker, excluded)
  }

  /** Every prompt line adds one prompt token, and every completion line
      that is not also a prompt line one completion token, so a line
      mentioning both counts as a prompt line only. */
  lemma {:induction false} TokenScanCounts(t: Tokens, lines: seq<string>)
    ensures TokenScan(t, lines).Success? ==>
      && |TokenScan(t, lines).value.prompt| == |t.prompt| + CountLines(lines, PromptMarker, None)
      && |TokenScan(t, lines).value.completion|
           == |t.completion| + CountLines(lines, CompletionMarker, Some(PromptMarker))
    decreases |lines|
  {
    if lines != [] && TokenStep(t, lines[0]).Success? {
      TokenScanCounts(TokenStep(t, lines[0]).value, lines[1..]);
    }
  }

  /** The token one line contributes to the list of lines mentioning
      `marker` and not `excluded`: none when it is not such a line. */
  function LineTokens(line: string, marker: string, excluded: Option<string>)
    : Result<seq<string>, VisionError>
  {
    if Contains(line, marker) && (excluded.None? || !Contains(line, excluded.value)) then
      var token :- TokenText(line);
      Success([token])
    else Success([])
  }

  /** The token a prompt line contributes. */
  function PromptToken(line: string): Result<seq<string>, VisionError> {
    LineTokens(line, PromptMarker, None)
  }

  /** The token a completion line that is not a prompt line contributes. */
  function CompletionToken(line: string): Result<seq<string>, VisionError> {
    LineTokens(line, CompletionMarker, Some(PromptMarker))
  }

  /** The tokens `item` takes from each line, in line order; the first line
      it fails on raises. */
  function MarkedTokens(item: string -> Result<seq<string>, VisionError>, lines: seq<string>)
    : Result<seq<string>, VisionError>
    decreases |lines|
  {
    if lines == [] then Success([])
    else
      var head :- item(lines[0]);
      var tail :- MarkedTokens(item, lines[1..]);
      Success(head + tail)
  }

  function Prompts(t: Tokens): seq<string> { t.prompt }

  function Completions(t: Tokens): seq<string> { t.completion }

  /** The loop with any step. */
  function ScanBy(step: (Tokens, string) -> Result<Tokens, VisionError>, t: Tokens, lines: seq<string>)
    : Result<Tokens, VisionError>
    decreases |lines|
  {
    if lines == [] then Success(t)
    else
      var t1 :- step(t, lines[0]);
      ScanBy(step, t1, lines[1..])
  }

  lemma {:induction false} TokenScanIsScanBy(t: Tokens, lines: seq<string>)
    ensures TokenScan(t, lines) == ScanBy(TokenStep, t, lines)
    decreases |lines|
  {
    if lines != [] && TokenStep(t, lines[0]).Success? {
      TokenScanIsScanBy(TokenStep(t, lines[0]).value, lines[1..]);
    }
  }

  /** A step that extends one list by what `item` takes from the line
      makes the whole loop extend it by `MarkedTokens`. */
  lemma {:induction false} ScanCollects(
    step: (Tokens, string) -> Result<Tokens, VisionError>,
    item: string -> Result<seq<string>, VisionError>,
    list: Tokens -> seq<string>, t: Tokens, lines: seq<string>)
    requires forall t', line :: step(t', line).Success? ==>
      item(line).Success? && list(step(t', line).value) == list(t') + item(line).value
    requires ScanBy(step, t, lines).Success?
    ensures MarkedTokens(item, lines).Success?
    ensures list(ScanBy(step, t, lines).value) == list(t) + MarkedTokens(item, lines).value
    decreases |lines|
  {
    if lines != [] {
      var t1 := step(t, lines[0]).value;
      ScanCollects(step, item, list, t1, lines[1..]);
      var h := item(lines[0]).value;
      var rest := MarkedTokens(item, lines[1..]).value;
      assert (list(t) + h) + rest == list(t) + (h + rest);
    }
  }

  /** One step of the loop appends the line's prompt token to the prompt
      list and its completion token to the completion list. */
  lemma StepTokens(t: Tokens, line: string)
    requires TokenStep(t, line).Success?
    ensures PromptToken(line).Success? && CompletionToken(line).Success?
    ensures Prompts(TokenStep(t, line).value) == Prompts(t) + PromptToken(line).value
    ensures Completions(TokenStep(t, line).value) == Completions(t) + CompletionToken(line).value
  {
  }

  /** The loop's lists, taken one at a time: the prompt list holds the
      tokens of the prompt lines and the completion list those of the
      completion lines that are not prompt lines, each in line order. */
  lemma TokenScanContents(t: Tokens, lines: seq<string>)
    ensures TokenScan(t, lines).Success? ==>
      && MarkedTokens(PromptToken, lines).Success?
      && MarkedTokens(CompletionToken, lines).Success?
      && TokenScan(t, lines).value.prompt == t.prompt + MarkedTokens(PromptToken, lines).value
      && TokenScan(t, lines).value.completion == t.completion + MarkedTokens(CompletionToken, lines).value
  {
    TokenScanIsScanBy(t, lines);
    if TokenScan(t, lines).Success? {
      forall t', line | TokenStep(t', line).Success?
        ensures PromptToken(line).Success?
        ensures Prompts(TokenStep(t', line).value) == Prompts(t') + PromptToken(line).value
        ensures CompletionToken(line).Success?
        ensures Completions(TokenStep(t', line).value) == Completions(t') + CompletionToken(line).value
      {
        StepTokens(t', line);
      }
      ScanCollects(TokenStep, PromptToken, Prompts, t, lines);
      ScanCollects(TokenStep, CompletionToken, Completions, t, lines);
    }
  }

  /** `line.split(":")[1]` in full: the text after the first colon, up to the
      second colon or the end of the line, stripped. */
  lemma TokenTextBetweenColons(line: string)
    requires Contains(line, Colon)
    ensures var rest := line[Find(line, Colon, 0) + 1..];
      TokenText(line) == Success(Strip(if Contains(rest, Colon) then rest[..Find(rest, Colon, 0)] else rest))
  {
    SplitSecond(line, Colon);
  }

  /** The loop fails exactly when some prompt or completion line has no
      colon. */
  lemma {:induction false} TokenScanFails(t: Tokens, lines: seq<string>)
    ensures TokenScan(t, lines).Failure? <==>
      exists k :: 0 <= k < |lines| && MarkedLine(lines[k]) && !Contains(lines[k], Colon)
    decreases |lines|
  {
    if lines != [] {
      var step := TokenStep(t, lines[0]);
      if step.Success? {
        TokenScanFails(step.value, lines[1..]);
        if exists k :: 0 <= k < |lines[1..]| && MarkedLine(lines[1..][k]) && !Contains(lines[1..][k], Colon) {
          var k :| 0 <= k < |lines[1..]| && MarkedLine(lines[1..][k]) && !Contains(lines[1..][k], Colon);
          assert lines[k + 1] == lines[1..][k];
        }
        if exists k :: 0 <= k < |lines| && MarkedLine(lines[k]) && !Contains(lines[k], Colon) {
          var k :| 0 <= k < |lines| && MarkedLine(lines[k]) && !Contains(lines[k], Colon);
          assert k > 0;
          assert lines[1..][k - 1] == lines[k];
        }
      }
    }
  }

  /** A line the loop reads a token from. */
  predicate MarkedLine(line: string) {
    Contains(line, PromptMarker) || Contains(line, CompletionMarker)
  }

  // ---------------------------------------------------------------------------
  // Totals and averages

  /** `sum([conv(token) for token in tokens])` for a conversion that may
      raise: the first token it rejects raises. */
  function TotalBy(conv: string -> Result<int, VisionError>, tokens: seq<string>): Result<int, VisionError>
    decreases |tokens|
  {
    if tokens == [] then Success(0)
    else
      var v :- conv(tokens[0]);
      var rest :- TotalBy(conv, tokens[1..]);
      Success(v + rest)
  }

  /** `sum([int(token) for token in tokens])`. */
  function IntTotal(tokens: seq<string>): (r: Result<int, VisionError>)
    ensures r.Failure? ==> r.error.BadInt?
  {
    TotalByBadInt(tokens);
    TotalBy(IntOf, tokens)
  }

  /** Summing with `int()` can only raise on a token that is not a number. */
  lemma {:induction false} TotalByBadInt(tokens: seq<string>)
    ensures TotalBy(IntOf, tokens).Failure? ==> TotalBy(IntOf, tokens).error.BadInt?
    decreases |tokens|
  {
    if tokens != [] {
      TotalByBadInt(tokens[1..]);
    }
  }

  /** `[conv(token) for token in tokens]` when no token is rejected. */
  function ValuesBy(conv: string -> Result<int, VisionError>, tokens: seq<string>): (r: seq<int>)
    requires forall k :: 0 <= k < |tokens| ==> conv(tokens[k]).Success?
    ensures |r| == |tokens|
    ensures forall k :: 0 <= k < |tokens| ==> r[k] == conv(tokens[k]).value
    decreases |tokens|
  {
    if tokens == [] then []
    else
      assert forall k :: 1 <= k < |tokens| ==> tokens[1..][k - 1] == tokens[k];
      [conv(tokens[0]).value] + ValuesBy(conv, tokens[1..])
  }

  /** `[int(token) for token in tokens]` when every token is a number. */
  function Parses(tokens: seq<string>): (r: seq<int>)
    requires forall k :: 0 <= k < |tokens| ==> ParseInt(tokens[k]).Some?
    ensures |r| == |tokens|
    ensures forall k :: 0 <= k < |tokens| ==> Some(r[k]) == ParseInt(tokens[k])
  {
    assert forall k :: 0 <= k < |tokens| ==> IntOf(tokens[k]).Success?;
    ValuesBy(IntOf, tokens)
  }

  /** When the conversion gives `values[k]` for every token, the total is the
      sum of the values. */
  lemma {:induction false} TotalByValues(conv: string -> Result<int, VisionError>, tokens: seq<string>, values: seq<int>)
    requires |tokens| == |values|
    requires forall k :: 0 <= k < |tokens| ==> conv(tokens[k]) == Success(values[k])
    ensures TotalBy(conv, tokens) == Success(Sum(values))
    decreases |tokens|
  {
    if tokens != [] {
      forall k | 0 <= k < |tokens| - 1 ensures conv(tokens[1..][k]) == Success(values[1..][k]) {
        assert tokens[1..][k] == tokens[k + 1] && values[1..][k] == values[k + 1];
      }
      TotalByValues(conv, tokens[1..], values[1..]);
      assert values == [values[0]] + values[1..];
      SumCons(values[0], values[1..]);
    }
  }

  /** When the conversion rejects some token, the total raises with the
      error of a rejected token. */
  lemma {:induction false} TotalByError(conv: string -> Result<int, VisionError>, tokens: seq<string>, j: nat)
    requires j < |tokens| && conv(tokens[j]).Failure?
    ensures TotalBy(conv, tokens).Failure?
    ensures exists k :: 0 <= k < |tokens| && conv(tokens[k]).Failure?
                        && TotalBy(conv, tokens).error == conv(tokens[k]).error
    decreases |tokens|
  {
    if conv(tokens[0]).Success? {
      assert tokens[1..][j - 1] == tokens[j];
      TotalByError(conv, tokens[1..], j - 1);
      var k :| 0 <= k < |tokens[1..]| && conv(tokens[1..][k]).Failure?
               && TotalBy(conv, tokens[1..]).error == conv(tokens[1..][k]).error;
      assert tokens[1..][k] == tokens[k + 1];
    } else {
      assert conv(tokens[0]).Failure?;
    }
  }

  /** The total exists exactly when every token is a number, and is then
      the sum of their values; otherwise it raises on a token that is not. */
  lemma IntTotalIsSum(tokens: seq<string>)
    ensures IntTotal(tokens).Success? <==> forall k :: 0 <= k < |tokens| ==> ParseInt(tokens[k]).Some?
    ensures IntTotal(tokens).Success? ==> IntTotal(tokens).value == Sum(Parses(tokens))
    ensures IntTotal(tokens).Failure? ==>
      exists k :: 0 <= k < |tokens| && ParseInt(tokens[k]).None? && IntTotal(tokens).error == BadInt(tokens[k])
  {
    if forall k :: 0 <= k < |tokens| ==> ParseInt(tokens[k]).Some? {
      var values := Parses(tokens);
      TotalByValues(IntOf, tokens, values);
    } else {
      var j :| 0 <= j < |tokens| && ParseInt(tokens[j]).None?;
      TotalByError(IntOf, tokens, j);
    }
  }

  /** Counts written in decimal add up to their sum. */
  lemma IntTotalOfCounts(tokens: seq<string>, ns: seq<nat>)
    requires |tokens| == |ns| && forall k :: 0 <= k < |ns| ==> tokens[k] == NatToString(ns[k])
    ensures IntTotal(tokens) == Success(Sum(ns))
  {
    forall k | 0 <= k < |ns| ensures IntOf(tokens[k]) == Success(ns[k]) {
      ParseNatToString(ns[k]);
    }
    TotalByValues(IntOf, tokens, ns);
  }

  /** The integers the script prints (the per-question averages, floats,
      are not modelled; only the division's failure is). */
  datatype VisionSummary = VisionSummary(
    numQuestions: int, totalSteps: nat, totalPrompt: int, totalCompletion: int)

  /** The script on a whole log, failing where it first raises: the
      header, the token loop, the division by zero questions, then the
      prompt and the completion conversions. */
  function VisionReport(lines: seq<string>): (r: Result<VisionSummary, VisionError>)
    ensures lines == [] ==> r == Failure(NoHeader)
    ensures r.Success? ==> r.value.numQuestions != 0 && r.value.totalSteps <= |lines|
    ensures r == Failure(ZeroQuestions) ==> NumQuestions(lines) == Success(0)
    ensures r == Failure(NoColon) ==> TokenScan(NoTokens, lines).Failure?
    ensures r.Success? ==> TotalsOfTokens(r.value, TokenScan(NoTokens, lines))
  {
    var num :- NumQuestions(lines);
    var tokens :- TokenScan(NoTokens, lines);
    if num == 0 then Failure(ZeroQuestions)
    else
      IntTotalValue(tokens.prompt);
      IntTotalValue(tokens.completion);
      var totalPrompt :- IntTotal(tokens.prompt);
      var totalCompletion :- IntTotal(tokens.completion);
      Success(VisionSummary(num, |tokens.prompt|, totalPrompt, totalCompletion))
  }

  /** The script. */
  method VisionScript(lines: seq<string>) returns (r: Result<VisionSummary, VisionError>)
    ensures r == VisionReport(lines)
  {
    var num :- NumQuestions(lines);
    var tokens :- CollectTokens(lines);
    var totalSteps := |tokens.prompt|;
    if num == 0 {
      return Failure(ZeroQuestions);
    }
    var totalPrompt :- IntTotal(tokens.prompt);
    var totalCompletion :- IntTotal(tokens.completion);
    return Success(VisionSummary(num, totalSteps, totalPrompt, totalCompletion));
  }

  /** A report exists only for a non-zero question count, and its step
      count is the number of prompt lines. */
  lemma VisionReportSpec(lines: seq<string>)
    ensures var r := VisionReport(lines);
      && (lines == [] ==> r == Failure(NoHeader))
      && (r.Success? ==>
            r.value.numQuestions != 0 && r.value.totalSteps == CountLines(lines, PromptMarker, None))
      && (NumQuestions(lines) == Success(0) && TokenScan(NoTokens, lines).Success? ==>
            r == Failure(ZeroQuestions))
      && (r.Success? ==> TotalsOfTokens(r.value, TokenScan(NoTokens, lines)))
  {
    if TokenScan(NoTokens, lines).Success? {
      TokenScanCounts(NoTokens, lines);
    }
    ReportSteps(lines);
    ReportZero(lines);
  }

  /** The loop succeeded, every collected token is a number, and the two
      printed totals are the sums of the prompt and the completion values. */
  predicate TotalsOfTokens(summary: VisionSummary, scan: Result<Tokens, VisionError>) {
    && scan.Success?
    && (forall k :: 0 <= k < |scan.value.prompt| ==> ParseInt(scan.value.prompt[k]).Some?)
    && (forall k :: 0 <= k < |scan.value.completion| ==> ParseInt(scan.value.completion[k]).Some?)
    && summary.totalPrompt == Sum(Parses(scan.value.prompt))
    && summary.totalCompletion == Sum(Parses(scan.value.completion))
  }

  /** A total that exists is the sum of the token values. */
  lemma IntTotalValue(tokens: seq<string>)
    ensures IntTotal(tokens).Success? ==>
      && (forall k :: 0 <= k < |tokens| ==> ParseInt(tokens[k]).Some?)
      && IntTotal(tokens).value == Sum(Parses(tokens))
  {
    IntTotalIsSum(tokens);
  }

  lemma ReportSteps(lines: seq<string>)
    ensures var r := VisionReport(lines);
      r.Success? ==>
        && NumQuestions(lines).Success? && r.value.numQuestions == NumQuestions(lines).value != 0
        && TokenScan(NoTokens, lines).Success?
        && r.value.totalSteps == |TokenScan(NoTokens, lines).value.prompt|
  {
  }

  lemma ReportZero(lines: seq<string>)
    ensures lines == [] ==> VisionReport(lines) == Failure(NoHeader)
    ensures NumQuestions(lines) == Success(0) && TokenScan(NoTokens, lines).Success? ==>
      VisionReport(lines) == Failure(ZeroQuestions)
  {
  }
}
