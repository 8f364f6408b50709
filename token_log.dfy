/** The token-usage log parser (`parse_log.py`): it reads either a `.jsonl`
    results file, whose records carry an `intermediate_steps` list, or a
    plain-text run log, picks the token counts out of the lines that
    report them, and summarises each list by median, maximum and total. */
module TokenLog {
  import opened PyStr
  import opened Json
  import opened TokenStats

  // ---------------------------------------------------------------------------
  // find_number_after_keyword

  /** `find_number_after_keyword(line, keyword)`: the text from just after
      the first `keyword` up to the next comma at or after that point,
      stripped. Python's slicing rules make the two misses quiet: a missing
      keyword starts the cut at `len(keyword) - 1`, and a missing comma ends
      it at `-1`, one character before the end of the line. */
  function FindNumberAfterKeyword(line: string, keyword: string): (r: string)
    ensures ',' !in r
    ensures r != [] ==> !IsSpace(r[0]) && !IsSpace(r[|r| - 1])
  {
    var start: nat := Find(line, keyword, 0) + |keyword|;
    CutIsClean(line, start);
    Strip(Cut(line, start))
  }

  /** `line[start:line.find(",", start)]`, before stripping. */
  function Cut(line: string, start: nat): string {
    Slice(line, start, Find(line, ",", start))
  }

  /** The stripped cut holds no comma and neither starts nor ends with
      whitespace. */
  lemma CutIsClean(line: string, start: nat)
    ensures var r := Strip(Cut(line, start));
      ',' !in r && (r != [] ==> !IsSpace(r[0]) && !IsSpace(r[|r| - 1]))
  {
    SliceBeforeChar(line, ',', start);
    StripKeepsOut(Cut(line, start), ',');
    StripShape(Cut(line, start));
  }

  /** The usual case: the keyword occurs and a comma follows it. The result
      is the stripped text between them, which holds no comma. */
  lemma NumberBeforeComma(line: string, keyword: string)
    requires Contains(line, keyword)
    requires Find(line, ",", Find(line, keyword, 0) + |keyword|) != -1
    ensures var s := Find(line, keyword, 0) + |keyword|;
      var e := Find(line, ",", s);
      s <= e && FindNumberAfterKeyword(line, keyword) == Strip(line[s..e]) && ',' !in line[s..e]
  {
    var s := Find(line, keyword, 0) + |keyword|;
    CutToComma(line, s);
    NumberIsCut(line, keyword, s, line[s..Find(line, ",", s)]);
  }

  /** The number is the stripped cut from just after the keyword. */
  lemma NumberIsCut(line: string, keyword: string, start: nat, cut: string)
    requires Find(line, keyword, 0) + |keyword| == start && Cut(line, start) == cut
    ensures FindNumberAfterKeyword(line, keyword) == Strip(cut)
  {
  }

  /** A comma found from `start` on ends the cut just before it. */
  lemma CutToComma(line: string, start: nat)
    requires Find(line, ",", start) != -1
    ensures var e := Find(line, ",", start);
      start <= e && Cut(line, start) == line[start..e] && ',' !in line[start..e]
  {
    FindChar(line, ',', start);
  }

  /** No comma after the keyword: the cut stops one character short of the
      end of the line (the newline `readlines` keeps, when there is one). */
  lemma NumberAtEndOfLine(line: string, keyword: string)
    requires Contains(line, keyword)
    requires Find(line, ",", Find(line, keyword, 0) + |keyword|) == -1
    ensures FindNumberAfterKeyword(line, keyword)
         == Strip(ButLast(line, Find(line, keyword, 0) + |keyword|))
  {
    var s := Find(line, keyword, 0) + |keyword|;
    CutToLast(line, s);
    NumberIsCut(line, keyword, s, ButLast(line, s));
  }

  /** `line[start:-1]` for a start that is not negative: from `start` up to
      but not including the last character, empty when `start` is past it. */
  function ButLast(line: string, start: nat): (r: string)
    ensures start < |line| ==> r + [line[|line| - 1]] == line[start..]
    ensures start + 1 >= |line| ==> r == []
  {
    if start < |line| then line[start..|line| - 1] else ""
  }

  /** Without a comma from `start` on, the cut is `line[start:-1]`. */
  lemma CutToLast(line: string, start: nat)
    requires Find(line, ",", start) == -1
    ensures Cut(line, start) == ButLast(line, start)
  {
  }

  /** A missing keyword is not reported: the cut silently starts at
      `len(keyword) - 1`. */
  lemma MissingKeywordStart(line: string, keyword: string)
    requires keyword != [] && !Contains(line, keyword)
    ensures FindNumberAfterKeyword(line, keyword)
         == Strip(Slice(line, |keyword| - 1, Find(line, ",", |keyword| - 1)))
  {
  }

  /** The round trip the log format relies on: a count written in decimal
      right after the keyword and closed by a comma is read back exactly,
      provided the keyword does not start earlier on the line. */
  lemma CountRoundTrip(pre: string, keyword: string, n: nat, rest: string)
    requires keyword != [] && keyword[0] !in pre
    ensures ParseInt(FindNumberAfterKeyword(pre + keyword + NatToString(n) + "," + rest, keyword)) == Some(n)
  {
    var digits := NatToString(n);
    var line := pre + keyword + digits + "," + rest;
    assert NoSpace(digits) && ',' !in digits by {
      forall k | 0 <= k < |digits| ensures !IsSpace(digits[k]) && digits[k] != ',' {
        assert IsDigit(digits[k]);
      }
    }
    CutBetween(pre, keyword, digits, rest);
    assert line == pre + keyword + (digits + "," + rest);
    StripNoSpace(digits);
    ParseNatToString(n);
  }

  /** The text after the first keyword and before the next comma is cut out
      exactly. */
  lemma CutBetween(pre: string, keyword: string, digits: string, rest: string)
    requires keyword != [] && keyword[0] !in pre && ',' !in digits
    ensures FindNumberAfterKeyword(pre + keyword + (digits + "," + rest), keyword) == Strip(digits)
  {
    var tail := digits + "," + rest;
    var line := pre + keyword + tail;
    FindAfterFree(pre, keyword, tail);
    var s := |pre| + |keyword|;
    CommaAfter(line, s, digits, rest);
    CutToComma(line, s);
    NumberIsCut(line, keyword, s, digits);
  }

  /** Where the text from `s` on is `digits` and a comma, the comma search
      from `s` stops right after `digits`. */
  lemma CommaAfter(line: string, s: nat, digits: string, rest: string)
    requires s <= |line| && line[s..] == digits + "," + rest && ',' !in digits
    ensures Find(line, ",", s) == s + |digits| && line[s..s + |digits|] == digits
  {
    FindAfterFree(digits, ",", rest);
    FindInSuffix(line, s, ",");
    assert line[s..s + |digits|] == line[s..][..|digits|];
  }

  // ---------------------------------------------------------------------------
  // The token lists and the errors that stop the script

  /** The seven lists the script fills, in its own order. */
  datatype TokenLists = TokenLists(
    input: seq<int>, output: seq<int>, reasoning: seq<int>,
    vlmInput: seq<int>, vlmOutput: seq<int>,
    searchPrompt: seq<int>, searchCompletion: seq<int>)

  const NoTokens := TokenLists([], [], [], [], [], [], [])

  /** What stops the script: `int()` on a text that is not a number, a
      record that does not decode, a record that is not a mapping or lacks
      `intermediate_steps`, steps that cannot be iterated, a step that is
      not a string but mentions `completion_tokens` (it has no `.find`),
      an `intermediate_steps` mapping (see README), and a reasoning list
      shorter than the output list. */
  datatype LogError =
    | BadInt(text: string)
    | BadJson(msg: string)
    | NotAMapping
    | MissingKey(key: string)
    | NotIterable
    | NoFindMethod
    | StepsNotList
    | IndexOutOfRange

  /** `int(find_number_after_keyword(line, keyword))`. */
  function TokenCount(line: string, keyword: string): (r: Result<int, LogError>)
    ensures r.Success? <==> ParseInt(FindNumberAfterKeyword(line, keyword)).Some?
    ensures r.Success? ==> Some(r.value) == ParseInt(FindNumberAfterKeyword(line, keyword))
    ensures r.Failure? ==> r.error == BadInt(FindNumberAfterKeyword(line, keyword))
  {
    var text := FindNumberAfterKeyword(line, keyword);
    match ParseInt(text)
    case Some(v) => Success(v)
    case None => Failure(BadInt(text))
  }

  const CompletionKey: string := "completion_tokens="
  const PromptKey: string := "prompt_tokens="
  const ReasoningKey: string := "reasoning_tokens="

  // ---------------------------------------------------------------------------
  // Plain-text logs

  const ResponsePrefix: string := "*** response:"
  const VlmPrefix: string := "*** Used VLM:"
  const VlmCompletionKey: string := "Completion tokens: "
  const VlmPromptKey: string := "Prompt tokens:"
  const SearchPromptPrefix: string := "Search web - Prompt tokens:"
  const SearchPromptKey: string := "Search web - Prompt tokens: "
  const SearchCompletionPrefix: string := "Search web - Completion tokens:"
  const SearchCompletionKey: string := "Search web - Completion tokens: "

  /** The count a line contributes under one test: the number after
      `keyword` when the line starts with `prefix`, nothing otherwise. */
  function CountIf(line: string, prefix: string, keyword: string): (r: Result<seq<int>, LogError>)
    ensures r.Success? ==> |r.value| == if StartsWith(line, prefix) then 1 else 0
    ensures r.Failure? ==> r.error.BadInt?
    ensures !StartsWith(line, prefix) ==> r == Success([])
  {
    if StartsWith(line, prefix) then
      var v :- TokenCount(line, keyword);
      Success([v])
    else Success([])
  }

  /** A prompt and a completion count under one test; the prompt count is
      converted first. */
  function PairIf(line: string, prefix: string, promptKey: string, completionKey: string)
    : (r: Result<(seq<int>, seq<int>), LogError>)
    ensures r.Success? ==> |r.value.0| == |r.value.1|
    ensures r.Failure? ==> r.error.BadInt?
  {
    var p :- CountIf(line, prefix, promptKey);
    var c :- CountIf(line, prefix, completionKey);
    Success((p, c))
  }

  /** What one line of a text log adds: four independent tests on how the
      line starts. A model response and a VLM call each add a prompt and a
      completion count; a search-tool line adds one count. The first count
      that does not convert stops the script, so what the earlier tests of
      the same line appended is never seen. */
  function LineCounts(line: string): (r: Result<TokenLists, LogError>)
    ensures r.Success? ==> |r.value.input| == |r.value.output| && r.value.reasoning == []
    ensures r.Success? ==> |r.value.vlmInput| == |r.value.vlmOutput|
    ensures r.Failure? ==> r.error.BadInt?
  {
    var response :- PairIf(line, ResponsePrefix, PromptKey, CompletionKey);
    var vlm :- PairIf(line, VlmPrefix, VlmPromptKey, VlmCompletionKey);
    var searchPrompt :- CountIf(line, SearchPromptPrefix, SearchPromptKey);
    var searchCompletion :- CountIf(line, SearchCompletionPrefix, SearchCompletionKey);
    Success(TokenLists(response.0, response.1, [], vlm.0, vlm.1, searchPrompt, searchCompletion))
  }

  /** Appends `u` to `t` list by list. */
  function Extend(t: TokenLists, u: TokenLists): TokenLists {
    TokenLists(t.input + u.input, t.output + u.output, t.reasoning + u.reasoning,
               t.vlmInput + u.vlmInput, t.vlmOutput + u.vlmOutput,
               t.searchPrompt + u.searchPrompt, t.searchCompletion + u.searchCompletion)
  }

  /** `u` is `t` with possibly something appended to each list. */
  predicate Grows(t: TokenLists, u: TokenLists) {
    && t.input <= u.input && t.output <= u.output && t.reasoning <= u.reasoning
    && t.vlmInput <= u.vlmInput && t.vlmOutput <= u.vlmOutput
    && t.searchPrompt <= u.searchPrompt && t.searchCompletion <= u.searchCompletion
  }

  /** Growth carries over to whatever a successful scan from `u` returns. */
  lemma GrowsThen(t: TokenLists, u: TokenLists, r: Result<TokenLists, LogError>)
    requires Grows(t, u)
    ensures r.Success? && Grows(u, r.value) ==> Grows(t, r.value)
  {
    if r.Success? && Grows(u, r.value) {
      var v := r.value;
      PrefixTrans(t.input, u.input, v.input);
      PrefixTrans(t.output, u.output, v.output);
      PrefixTrans(t.reasoning, u.reasoning, v.reasoning);
      PrefixTrans(t.vlmInput, u.vlmInput, v.vlmInput);
      PrefixTrans(t.vlmOutput, u.vlmOutput, v.vlmOutput);
      PrefixTrans(t.searchPrompt, u.searchPrompt, v.searchPrompt);
      PrefixTrans(t.searchCompletion, u.searchCompletion, v.searchCompletion);
    }
  }

  /** One line of the text-log loop. */
  function TextStep(t: TokenLists, line: string): (r: Result<TokenLists, LogError>)
    ensures r.Success? ==> Grows(t, r.value) && r.value.reasoning == t.reasoning
    ensures r.Failure? ==> r.error.BadInt?
  {
    var u :- LineCounts(line);
    Success(Extend(t, u))
  }

  /** The text-log loop from the lists `t` onwards, stopping at the first
      error. It only appends, never reads a reasoning count, and can only
      fail on a count that does not convert. */
  function TextScan(t: TokenLists, lines: seq<string>): (r: Result<TokenLists, LogError>)
    ensures r.Success? ==> Grows(t, r.value) && r.value.reasoning == t.reasoning
    ensures r.Failure? ==> r.error.BadInt?
    decreases |lines|
  {
    if lines == [] then Success(t)
    else
      var t1 :- TextStep(t, lines[0]);
      GrowsThen(t, t1, TextScan(t1, lines[1..]));
      TextScan(t1, lines[1..])
  }

  /** The text-log loop. */
  method ScanTextLog(lines: seq<string>) returns (r: Result<TokenLists, LogError>)
    ensures r == TextScan(NoTokens, lines)
  {
    var t := NoTokens;
    for i := 0 to |lines|
      invariant TextScan(t, lines[i..]) == TextScan(NoTokens, lines)
    {
      assert lines[i..][1..] == lines[i + 1..];
      var next := TextStep(t, lines[i]);
      if next.Failure? {
        return next;
      }
      t := next.value;
    }
    return Success(t);
  }

  /** The counts one kind of line contributes, taken on their own: for each
      line starting with `prefix`, in order, the number after `keyword`. */
  function Collect(lines: seq<string>, prefix: string, keyword: string): Result<seq<int>, LogError>
    decreases |lines|
  {
    if lines == [] then Success([])
    else
      var head :- CountIf(lines[0], prefix, keyword);
      var tail :- Collect(lines[1..], prefix, keyword);
      Success(head + tail)
  }

  /** The text-log lists defined list by list: each list collects its own
      kind of line, no reasoning counts are read, and the whole fails as
      soon as one of the lists cannot be read. */
  function TextLists(lines: seq<string>): Result<TokenLists, LogError> {
    var input :- Collect(lines, ResponsePrefix, PromptKey);
    var output :- Collect(lines, ResponsePrefix, CompletionKey);
    var vlmInput :- Collect(lines, VlmPrefix, VlmPromptKey);
    var vlmOutput :- Collect(lines, VlmPrefix, VlmCompletionKey);
    var searchPrompt :- Collect(lines, SearchPromptPrefix, SearchPromptKey);
    var searchCompletion :- Collect(lines, SearchCompletionPrefix, SearchCompletionKey);
    Success(TokenLists(input, output, [], vlmInput, vlmOutput, searchPrompt, searchCompletion))
  }

  /** The line-by-line loop and the list-by-list definition agree: the loop
      succeeds exactly when every list can be collected, and then each list
      holds the counts of its own kind of line in log order. */
  lemma {:induction false} TextScanCollects(t: TokenLists, lines: seq<string>)
    ensures TextScan(t, lines).Success? <==> TextLists(lines).Success?
    ensures TextScan(t, lines).Success? ==> TextScan(t, lines).value == Extend(t, TextLists(lines).value)
    decreases |lines|
  {
    if lines == [] {
      assert Extend(t, NoTokens) == t;
    } else {
      var line, rest := lines[0], lines[1..];
      CollectSplit(lines);
      var own := LineCounts(line);
      if own.Success? {
        assert TextScan(t, lines) == TextScan(Extend(t, own.value), rest);
        TextScanCollects(Extend(t, own.value), rest);
        if TextLists(rest).Success? {
          ExtendAssoc(t, own.value, TextLists(rest).value);
        }
      }
    }
  }

  /** Extending by one line's counts and then by the rest's is extending
      by both at once. */
  lemma ExtendAssoc(t: TokenLists, u: TokenLists, v: TokenLists)
    ensures Extend(Extend(t, u), v) == Extend(t, Extend(u, v))
  {
    assert t.input + u.input + v.input == t.input + (u.input + v.input);
    assert t.output + u.output + v.output == t.output + (u.output + v.output);
    assert t.reasoning + u.reasoning + v.reasoning == t.reasoning + (u.reasoning + v.reasoning);
    assert t.vlmInput + u.vlmInput + v.vlmInput == t.vlmInput + (u.vlmInput + v.vlmInput);
    assert t.vlmOutput + u.vlmOutput + v.vlmOutput == t.vlmOutput + (u.vlmOutput + v.vlmOutput);
    assert t.searchPrompt + u.searchPrompt + v.searchPrompt == t.searchPrompt + (u.searchPrompt + v.searchPrompt);
    assert t.searchCompletion + u.searchCompletion + v.searchCompletion
        == t.searchCompletion + (u.searchCompletion + v.searchCompletion);
  }

  /** The list-by-list definition of a non-empty log is the first line's
      counts followed by the rest's. */
  lemma CollectSplit(lines: seq<string>)
    requires lines != []
    ensures TextLists(lines).Success? <==>
      LineCounts(lines[0]).Success? && TextLists(lines[1..]).Success?
    ensures TextLists(lines).Success? ==>
      TextLists(lines).value == Extend(LineCounts(lines[0]).value, TextLists(lines[1..]).value)
  {
    CollectCons(lines, ResponsePrefix, PromptKey);
    CollectCons(lines, ResponsePrefix, CompletionKey);
    CollectCons(lines, VlmPrefix, VlmPromptKey);
    CollectCons(lines, VlmPrefix, VlmCompletionKey);
    CollectCons(lines, SearchPromptPrefix, SearchPromptKey);
    CollectCons(lines, SearchCompletionPrefix, SearchCompletionKey);
    LineCountsParts(lines[0]);
    TextListsParts(lines);
    TextListsParts(lines[1..]);
  }

  lemma CollectCons(lines: seq<string>, prefix: string, keyword: string)
    requires lines != []
    ensures Collect(lines, prefix, keyword).Success? <==>
      CountIf(lines[0], prefix, keyword).Success? && Collect(lines[1..], prefix, keyword).Success?
    ensures Collect(lines, prefix, keyword).Success? ==>
      Collect(lines, prefix, keyword).value
        == CountIf(lines[0], prefix, keyword).value + Collect(lines[1..], prefix, keyword).value
  {
  }

  /** A line's counts are its six tests' counts. */
  lemma LineCountsParts(line: string)
    ensures var r, v := PairIf(line, ResponsePrefix, PromptKey, CompletionKey),
                        PairIf(line, VlmPrefix, VlmPromptKey, VlmCompletionKey);
      var sp, sc := CountIf(line, SearchPromptPrefix, SearchPromptKey),
                    CountIf(line, SearchCompletionPrefix, SearchCompletionKey);
      (LineCounts(line).Success? <==>
        && CountIf(line, ResponsePrefix, PromptKey).Success?
        && CountIf(line, ResponsePrefix, CompletionKey).Success?
        && CountIf(line, VlmPrefix, VlmPromptKey).Success?
        && CountIf(line, VlmPrefix, VlmCompletionKey).Success?
        && sp.Success? && sc.Success?)
      && (LineCounts(line).Success? ==>
        LineCounts(line).value == TokenLists(
          CountIf(line, ResponsePrefix, PromptKey).value,
          CountIf(line, ResponsePrefix, CompletionKey).value, [],
          CountIf(line, VlmPrefix, VlmPromptKey).value,
          CountIf(line, VlmPrefix, VlmCompletionKey).value,
          sp.value, sc.value))
  {
  }

  /** The list-by-list definition succeeds when all six lists do. */
  lemma TextListsParts(lines: seq<string>)
    ensures var i, o := Collect(lines, ResponsePrefix, PromptKey), Collect(lines, ResponsePrefix, CompletionKey);
      var vi, vo := Collect(lines, VlmPrefix, VlmPromptKey), Collect(lines, VlmPrefix, VlmCompletionKey);
      var sp, sc := Collect(lines, SearchPromptPrefix, SearchPromptKey),
                    Collect(lines, SearchCompletionPrefix, SearchCompletionKey);
      (TextLists(lines).Success? <==>
        i.Success? && o.Success? && vi.Success? && vo.Success? && sp.Success? && sc.Success?)
      && (TextLists(lines).Success? ==>
        TextLists(lines).value == TokenLists(i.value, o.value, [], vi.value, vo.value, sp.value, sc.value))
  {
  }

  /** In a text log every response adds one prompt and one completion
      count, and every VLM call one of each, so the pairs stay aligned; no
      reasoning counts are ever read. */
  lemma {:induction false} TextScanAligned(t: TokenLists, lines: seq<string>)
    requires |t.input| == |t.output| && |t.vlmInput| == |t.vlmOutput| && t.reasoning == []
    ensures TextScan(t, lines).Success? ==>
      var u := TextScan(t, lines).value;
      |u.input| == |u.output| && |u.vlmInput| == |u.vlmOutput| && u.reasoning == []
    decreases |lines|
  {
    if lines != [] && TextStep(t, lines[0]).Success? {
      TextScanAligned(TextStep(t, lines[0]).value, lines[1..]);
    }
  }

  // ---------------------------------------------------------------------------
  // JSON-lines results

  const StepsKey: string := "intermediate_steps"
  const CompletionMarker: string := "completion_tokens"

  /** One entry of `intermediate_steps`. A string mentioning
      `completion_tokens` adds a prompt and a completion count (prompt
      converted first) and, for a reasoner log, a reasoning count. Another
      container holding `completion_tokens` as an element or key reaches
      `.find`, which it lacks; one without it is skipped; a number, a boolean
      or `null` cannot be searched with `in`. */
  function JsonStep(t: TokenLists, step: Json, reasoner: bool): (r: Result<TokenLists, LogError>)
    ensures step.Str? && !Contains(step.s, CompletionMarker) ==> r == Success(t)
    ensures r.Success? ==> Grows(t, r.value) && Untouched(t, r.value)
  {
    match step
    case Str(s) =>
      if Contains(s, CompletionMarker) then
        var p :- TokenCount(s, PromptKey);
        var c :- TokenCount(s, CompletionKey);
        var t1 := t.(input := t.input + [p], output := t.output + [c]);
        if reasoner then
          var k :- TokenCount(s, ReasoningKey);
          Success(t1.(reasoning := t1.reasoning + [k]))
        else Success(t1)
      else Success(t)
    case Array(items) => if Str(CompletionMarker) in items then Failure(NoFindMethod) else Success(t)
    case Object(fields) => if CompletionMarker in fields then Failure(NoFindMethod) else Success(t)
    case _ => Failure(NotIterable)
  }

  /** A string step mentioning `completion_tokens` that converts appends
      one prompt and one completion count, and one reasoning count exactly
      for a reasoner log; the other lists are untouched. */
  lemma CountedStep(t: TokenLists, s: string, reasoner: bool)
    requires Contains(s, CompletionMarker) && JsonStep(t, Str(s), reasoner).Success?
    ensures var u := JsonStep(t, Str(s), reasoner).value;
      && u.input == t.input + [TokenCount(s, PromptKey).value]
      && u.output == t.output + [TokenCount(s, CompletionKey).value]
      && u.reasoning == (if reasoner then t.reasoning + [TokenCount(s, ReasoningKey).value] else t.reasoning)
      && u.vlmInput == t.vlmInput && u.vlmOutput == t.vlmOutput
      && u.searchPrompt == t.searchPrompt && u.searchCompletion == t.searchCompletion
  {
  }

  /** The VLM and search lists are as they were. */
  predicate Untouched(t: TokenLists, u: TokenLists) {
    && u.vlmInput == t.vlmInput && u.vlmOutput == t.vlmOutput
    && u.searchPrompt == t.searchPrompt && u.searchCompletion == t.searchCompletion
  }

  /** The inner loop over one record's steps. */
  function StepsScan(t: TokenLists, steps: seq<Json>, reasoner: bool): (r: Result<TokenLists, LogError>)
    ensures r.Success? ==> Grows(t, r.value) && Untouched(t, r.value)
    decreases |steps|
  {
    if steps == [] then Success(t)
    else
      var t1 :- JsonStep(t, steps[0], reasoner);
      GrowsThen(t, t1, StepsScan(t1, steps[1..], reasoner));
      StepsScan(t1, steps[1..], reasoner)
  }

  /** Iterating a string yields its characters as one-character strings. */
  function Chars(s: string): (r: seq<Json>)
    ensures |r| == |s| && forall k :: 0 <= k < |r| ==> r[k] == Str([s[k]])
  {
    seq(|s|, k requires 0 <= k < |s| => Str([s[k]]))
  }

  /** `json.loads(line)["intermediate_steps"]`, as something to iterate: an
      array gives its items, a string its one-character strings, a mapping
      (iterated over its keys in Python) and any other value raise. */
  function RecordSteps(line: string, loads: Decoder): (r: Result<seq<Json>, LogError>)
    ensures r.Success? ==> loads(line).Value? && loads(line).value.Object?
                           && StepsKey in loads(line).value.fields
    ensures loads(line).DecodeError? ==> r == Failure(BadJson(loads(line).msg))
    ensures loads(line).Value? && !loads(line).value.Object? ==> r == Failure(NotAMapping)
    ensures loads(line).Value? && loads(line).value.Object? && StepsKey !in loads(line).value.fields
            ==> r == Failure(MissingKey(StepsKey))
    ensures loads(line).Value? && loads(line).value.Object? && StepsKey in loads(line).value.fields ==>
      var v := loads(line).value.fields[StepsKey];
      && (r.Success? <==> v.Array? || v.Str?)
      && (v.Array? ==> r == Success(v.items))
      && (v.Str? ==> r.Success? && |r.value| == |v.s|
                     && forall k :: 0 <= k < |v.s| ==> r.value[k] == Str([v.s[k]]))
      && (v.Object? ==> r == Failure(StepsNotList))
      && (!v.Array? && !v.Str? && !v.Object? ==> r == Failure(NotIterable))
  {
    match loads(line)
    case DecodeError(msg, _) => Failure(BadJson(msg))
    case Value(v) =>
      if !v.Object? then Failure(NotAMapping)
      else if StepsKey !in v.fields then Failure(MissingKey(StepsKey))
      else match v.fields[StepsKey]
        case Array(items) => Success(items)
        case Str(s) => Success(Chars(s))
        case Object(_) => Failure(StepsNotList)
        case _ => Failure(NotIterable)
  }

  /** The outer loop over the records of a `.jsonl` file. */
  function JsonlScan(t: TokenLists, lines: seq<string>, loads: Decoder, reasoner: bool)
    : (r: Result<TokenLists, LogError>)
    ensures r.Success? ==> Grows(t, r.value) && Untouched(t, r.value)
    decreases |lines|
  {
    if lines == [] then Success(t)
    else
      var steps :- RecordSteps(lines[0], loads);
      var t1 :- StepsScan(t, steps, reasoner);
      GrowsThen(t, t1, JsonlScan(t1, lines[1..], loads, reasoner));
      JsonlScan(t1, lines[1..], loads, reasoner)
  }

  /** The JSON-lines loop, an outer loop over records and an inner one over
      their steps. */
  method ScanJsonlLog(lines: seq<string>, loads: Decoder, reasoner: bool)
    returns (r: Result<TokenLists, LogError>)
    ensures r == JsonlScan(NoTokens, lines, loads, reasoner)
  {
    var t := NoTokens;
    for i := 0 to |lines|
      invariant JsonlScan(t, lines[i..], loads, reasoner) == JsonlScan(NoTokens, lines, loads, reasoner)
    {
      assert lines[i..][1..] == lines[i + 1..];
      var steps := RecordSteps(lines[i], loads);
      if steps.Failure? {
        return Failure(steps.error);
      }
      ghost var t0 := t;
      for j := 0 to |steps.value|
        invariant StepsScan(t, steps.value[j..], reasoner) == StepsScan(t0, steps.value, reasoner)
      {
        assert steps.value[j..][1..] == steps.value[j + 1..];
        var next := JsonStep(t, steps.value[j], reasoner);
        if next.Failure? {
          return next;
        }
        t := next.value;
      }
    }
    return Success(t);
  }

  /** The shape of the lists a JSON-lines run builds: one completion count
      per prompt count, one reasoning count per completion count exactly
      when the path names a reasoner (none otherwise), and nothing in the
      VLM and search lists. */
  predicate JsonlShaped(t: TokenLists, reasoner: bool) {
    && |t.input| == |t.output|
    && (if reasoner then |t.reasoning| == |t.output| else t.reasoning == [])
    && t.vlmInput == [] && t.vlmOutput == [] && t.searchPrompt == [] && t.searchCompletion == []
  }

  /** Every step keeps that shape. */
  lemma {:induction false} StepsScanShaped(t: TokenLists, steps: seq<Json>, reasoner: bool)
    requires JsonlShaped(t, reasoner)
    ensures StepsScan(t, steps, reasoner).Success? ==> JsonlShaped(StepsScan(t, steps, reasoner).value, reasoner)
    decreases |steps|
  {
    if steps != [] && JsonStep(t, steps[0], reasoner).Success? {
      StepsScanShaped(JsonStep(t, steps[0], reasoner).value, steps[1..], reasoner);
    }
  }

  /** A JSON-lines run keeps the lists aligned, so the reasoning list, when
      there is one, can be added to the output list index by index. */
  lemma {:induction false} JsonlScanShaped(t: TokenLists, lines: seq<string>, loads: Decoder, reasoner: bool)
    requires JsonlShaped(t, reasoner)
    ensures JsonlScan(t, lines, loads, reasoner).Success? ==>
      JsonlShaped(JsonlScan(t, lines, loads, reasoner).value, reasoner)
    decreases |lines|
  {
    if lines != [] {
      var steps := RecordSteps(lines[0], loads);
      if steps.Success? {
        StepsScanShaped(t, steps.value, reasoner);
        var t1 := StepsScan(t, steps.value, reasoner);
        if t1.Success? {
          JsonlScanShaped(t1.value, lines[1..], loads, reasoner);
        }
      }
    }
  }

  /** `intermediate_steps` given as one string adds nothing: each of its
      characters is a one-character string, too short to hold the marker. */
  lemma {:induction false} StringStepsSkipped(t: TokenLists, s: string, reasoner: bool)
    ensures StepsScan(t, Chars(s), reasoner) == Success(t)
    decreases |s|
  {
    if s != [] {
      assert !Contains([s[0]], CompletionMarker);
      assert Chars(s)[1..] == Chars(s[1..]);
      StringStepsSkipped(t, s[1..], reasoner);
    }
  }

  // ---------------------------------------------------------------------------
  // Choosing the log format

  const JsonlSuffix: string := ".jsonl"
  const ReasonerMarker: string := "reasoner"

  /** The seven lists once the log has been read: a path ending in `.jsonl`
      is read record by record, reading reasoning counts when the path
      mentions `reasoner`; any other path is read as a text log. */
  function ParseLog(logPath: string, lines: seq<string>, loads: Decoder): Result<TokenLists, LogError> {
    if EndsWith(logPath, JsonlSuffix) then JsonlScan(NoTokens, lines, loads, Contains(logPath, ReasonerMarker))
    else TextScan(NoTokens, lines)
  }

  /** What the two formats guarantee about the lists. Both pair every prompt
      count with a completion count. A JSON-lines run fills only those two
      and, for a reasoner, the reasoning list alongside them. A text log
      never reads reasoning counts and succeeds exactly when each list can
      be collected on its own, each list then holding its own kind of
      line's counts in log order. */
  lemma ParseLogShape(logPath: string, lines: seq<string>, loads: Decoder)
    ensures var r := ParseLog(logPath, lines, loads);
      && (r.Success? ==> |r.value.input| == |r.value.output|)
      && (EndsWith(logPath, JsonlSuffix) && r.Success? ==>
            JsonlShaped(r.value, Contains(logPath, ReasonerMarker)))
      && (!EndsWith(logPath, JsonlSuffix) ==> (r.Success? <==> TextLists(lines).Success?))
      && (!EndsWith(logPath, JsonlSuffix) && r.Success? ==>
            r.value == TextLists(lines).value && r.value.reasoning == [])
  {
    if EndsWith(logPath, JsonlSuffix) {
      JsonlScanShaped(NoTokens, lines, loads, Contains(logPath, ReasonerMarker));
    } else {
      TextScanCollects(NoTokens, lines);
      TextScanAligned(NoTokens, lines);
      if TextLists(lines).Success? {
        var u := TextLists(lines).value;
        assert Extend(NoTokens, u) == u;
      }
    }
  }

  // ---------------------------------------------------------------------------
  // entire_output_tokens_list

  /** Output plus reasoning, index by index over the output list, when any
      reasoning counts were read; a reasoning list shorter than the output
      list raises `IndexError`. */
  function EntireOutput(output: seq<int>, reasoning: seq<int>): Result<seq<int>, LogError> {
    if reasoning == [] then Success([])
    else if |reasoning| < |output| then Failure(IndexOutOfRange)
    else Success(seq(|output|, k requires 0 <= k < |output| => output[k] + reasoning[k]))
  }

  /** The loop that builds `entire_output_tokens_list`. */
  method EntireOutputTokens(output: seq<int>, reasoning: seq<int>) returns (r: Result<seq<int>, LogError>)
    ensures r == EntireOutput(output, reasoning)
  {
    var entire: seq<int> := [];
    if reasoning == [] {
      return Success(entire);
    }
    for i := 0 to |output|
      invariant i <= |reasoning|
      invariant entire == seq(i, k requires 0 <= k < i => output[k] + reasoning[k])
    {
      if i >= |reasoning| {
        return Failure(IndexOutOfRange);
      }
      entire := entire + [output[i] + reasoning[i]];
    }
    return Success(entire);
  }

  /** When the lists are aligned the entire-output list cannot fail; it is
      empty without reasoning counts, and otherwise its total is the output
      total plus the reasoning total. */
  lemma EntireOutputTotal(output: seq<int>, reasoning: seq<int>)
    requires reasoning == [] || |reasoning| == |output|
    ensures EntireOutput(output, reasoning).Success?
    ensures reasoning == [] ==> EntireOutput(output, reasoning).value == []
    ensures reasoning != [] ==>
      Sum(EntireOutput(output, reasoning).value) == Sum(output) + Sum(reasoning)
  {
    if reasoning != [] {
      SumPointwise(output, reasoning, EntireOutput(output, reasoning).value);
    }
  }

  lemma {:induction false} SumPointwise(a: seq<int>, b: seq<int>, c: seq<int>)
    requires |a| == |b| == |c|
    requires forall k :: 0 <= k < |c| ==> c[k] == a[k] + b[k]
    ensures Sum(c) == Sum(a) + Sum(b)
    decreases |c|
  {
    if c != [] {
      var n := |c| - 1;
      SumPointwise(a[..n], b[..n], c[..n]);
    }
  }

  // ---------------------------------------------------------------------------
  // The report

  /** The figures the script prints: `(median, max)` for each list, the
      number of steps and the input and output totals. */
  datatype Summary = Summary(
    input: (int, int), output: (int, int), entireOutput: (int, int),
    vlmInput: (int, int), vlmOutput: (int, int),
    searchPrompt: (int, int), searchCompletion: (int, int),
    steps: nat, totalInput: int, totalOutput: int)

  /** The report on a set of lists; `sum` and `len` are taken of the input
      and output lists as they were read. */
  function SummaryOf(t: TokenLists): Result<Summary, LogError> {
    var entire :- EntireOutput(t.output, t.reasoning);
    Success(Summary(
      MedianAndMax(t.input), MedianAndMax(t.output), MedianAndMax(entire),
      MedianAndMax(t.vlmInput), MedianAndMax(t.vlmOutput),
      MedianAndMax(t.searchPrompt), MedianAndMax(t.searchCompletion),
      |t.input|, Sum(t.input), Sum(t.output)))
  }

  /** `get_median_and_max` on a fresh Python list holding `s`; the list is
      returned as the call leaves it. */
  method MedianAndMaxOfList(s: seq<int>) returns (stat: (int, int), after: seq<int>)
    ensures stat == MedianAndMax(s)
    ensures multiset(after) == multiset(s) && |after| == |s|
  {
    var list := new int[|s|](k requires 0 <= k < |s| => s[k]);
    assert list[..] == s;
    var median, maxTokens := GetMedianAndMax(list);
    stat := (median, maxTokens);
    after := list[..];
  }

  /** Lines 76 to 119 of the script: the entire-output list, the seven
      `get_median_and_max` calls (each sorting its list in place), and the
      step count and totals taken from the sorted input and output lists,
      which are the totals of the lists as read. */
  method Summarize(t: TokenLists) returns (r: Result<Summary, LogError>)
    ensures r == SummaryOf(t)
  {
    var entire :- EntireOutputTokens(t.output, t.reasoning);
    var input, inputAfter := MedianAndMaxOfList(t.input);
    var output, outputAfter := MedianAndMaxOfList(t.output);
    var entireStat, _ := MedianAndMaxOfList(entire);
    var vlmInput, _ := MedianAndMaxOfList(t.vlmInput);
    var vlmOutput, _ := MedianAndMaxOfList(t.vlmOutput);
    var searchPrompt, _ := MedianAndMaxOfList(t.searchPrompt);
    var searchCompletion, _ := MedianAndMaxOfList(t.searchCompletion);
    SumPermutation(inputAfter, t.input);
    SumPermutation(outputAfter, t.output);
    r := Success(Summary(input, output, entireStat, vlmInput, vlmOutput, searchPrompt, searchCompletion,
                         |inputAfter|, Sum(inputAfter), Sum(outputAfter)));
  }

  /** The whole script on one log. */
  function LogReport(logPath: string, lines: seq<string>, loads: Decoder): (r: Result<Summary, LogError>)
    ensures r.Success? <==> ParseLog(logPath, lines, loads).Success?
    ensures r.Failure? ==> r.error == ParseLog(logPath, lines, loads).error
  {
    var t :- ParseLog(logPath, lines, loads);
    ReadListsReport(logPath, lines, loads);
    SummaryOf(t)
  }

  /** Lists that were read can always be reported on. */
  lemma ReadListsReport(logPath: string, lines: seq<string>, loads: Decoder)
    requires ParseLog(logPath, lines, loads).Success?
    ensures SummaryOf(ParseLog(logPath, lines, loads).value).Success?
  {
    ParseLogShape(logPath, lines, loads);
    var t := ParseLog(logPath, lines, loads).value;
    EntireOutputTotal(t.output, t.reasoning);
  }

  /** The script: read the log in its format, then report. */
  method ParseLogScript(logPath: string, lines: seq<string>, loads: Decoder)
    returns (r: Result<Summary, LogError>)
    ensures r == LogReport(logPath, lines, loads)
  {
    var t;
    if EndsWith(logPath, JsonlSuffix) {
      t := ScanJsonlLog(lines, loads, Contains(logPath, ReasonerMarker));
    } else {
      t := ScanTextLog(lines);
    }
    if t.Failure? {
      return Failure(t.error);
    }
    r := Summarize(t.value);
  }

  /** Once the log has been read, the report cannot fail: the
      entire-output step never indexes past the reasoning list. A text log
      and a non-reasoner JSON-lines run report `(0, 0)` for the entire
      output; a reasoner run reports on output plus reasoning, whose total
      is the sum of the two totals. */
  lemma ReportAfterParse(logPath: string, lines: seq<string>, loads: Decoder)
    requires ParseLog(logPath, lines, loads).Success?
    ensures LogReport(logPath, lines, loads).Success?
    ensures var t := ParseLog(logPath, lines, loads).value;
      var report := LogReport(logPath, lines, loads).value;
      && report.steps == |t.input| && report.steps == |t.output|
      && report.totalInput == Sum(t.input) && report.totalOutput == Sum(t.output)
      && (t.reasoning == [] ==> report.entireOutput == (0, 0))
      && (t.reasoning != [] ==>
            var entire := EntireOutput(t.output, t.reasoning).value;
            report.entireOutput == MedianAndMax(entire) && Sum(entire) == Sum(t.output) + Sum(t.reasoning))
  {
    ParseLogShape(logPath, lines, loads);
    var t := ParseLog(logPath, lines, loads).value;
    EntireOutputTotal(t.output, t.reasoning);
  }
}
