/** The tolerant action-blob parser `parse_json_blob`: normalise quotes, cut the
    text from the first `{` to the last `}`, decode that, and return the decoded
    value together with the text before the `{`. Decode failures become one of
    two errors, told apart by the three characters around the failure offset. */
module JsonBlob {
  import opened PyStr
  import opened Json

  /** The exceptions `parse_json_blob` lets out. The first two are the
      ValueErrors it raises from a decode failure; the third is the IndexError
      of `[...][-1]` on an empty match list, which it does not catch. */
  datatype BlobError =
    | MultipleToolCalls
    | InvalidJson(reason: string, blob: string, window: string)
    | NoClosingBrace

  const MultipleToolCallsMessage: string :=
    "JSON is invalid: you probably tried to provide multiple tool calls in one action. PROVIDE ONLY ONE TOOL CALL."

  /** The three characters that mark a second tool call after the first one. */
  const SecondCallMarker: string := "},\n"

  /** The text of the raised exception. */
  function ErrorMessage(e: BlobError): string {
    match e
    case MultipleToolCalls => MultipleToolCallsMessage
    case InvalidJson(reason, blob, window) =>
      "The JSON blob you used is invalid due to the following error: " + reason + ".\n"
      + "JSON blob was: " + blob + ", decoding failed on that specific part of the blob:\n"
      + "'" + window + "'."
    case NoClosingBrace => "list index out of range"
  }

  /** A successful parse: the decoded value and the text before the first `{`. */
  datatype Parsed = Parsed(data: Json, preamble: string)

  /** Quote normalisation: text without any double quote has every single
      quote turned into a double quote; other text is left alone. */
  function NormalizeQuotes(text: string): string {
    if '"' !in text then ReplaceChar(text, '\'', '"') else text
  }

  /** The slice handed to the decoder: from the first `{` through the last `}`,
      with Python's slicing (a missing `{` gives start -1). None when there is
      no `}` at all. */
  function Candidate(text: string): Option<string> {
    match LastIndexOf(text, '}')
    case None => None
    case Some(last) => Some(Slice(text, Find(text, "{", 0), last + 1))
  }

  /** `parse_json_blob(json_blob)`, with `json.loads(..., strict=False)` as `loads`.
      Note that the failure offset is relative to the candidate but both
      error checks slice the whole normalised text. */
  function ParseJsonBlob(jsonBlob: string, loads: Decoder): (r: Result<Parsed, BlobError>)
    ensures r.Success? ==> r.value.preamble <= NormalizeQuotes(jsonBlob) && '{' !in r.value.preamble
    ensures r.Failure? && r.error.InvalidJson? ==>
      r.error.blob == NormalizeQuotes(jsonBlob) && |r.error.window| <= 9
  {
    var text := NormalizeQuotes(jsonBlob);
    var first := Find(text, "{", 0);
    PreambleFacts(text);
    match LastIndexOf(text, '}')
    case None => Failure(NoClosingBrace)
    case Some(last) =>
      match loads(Slice(text, first, last + 1))
      case Value(v) => Success(Parsed(v, Slice(text, 0, first)))
      case DecodeError(msg, place) =>
        if Slice(text, place - 1, place + 2) == SecondCallMarker then Failure(MultipleToolCalls)
        else
          SliceWidth(text, place - 4, 9);
          Failure(InvalidJson(msg, text, Slice(text, place - 4, place + 5)))
  }

  /** The text before the first `{` is a prefix of the text without a `{`. */
  lemma PreambleFacts(text: string)
    ensures var p := Slice(text, 0, Find(text, "{", 0));
      p <= text && '{' !in p
  {
    SliceBeforeChar(text, '{', 0);
  }

  // ---------------------------------------------------------------------------
  // Quote normalisation

  /** Without a double quote every single quote becomes a double quote and
      nothing else changes; with one the text is returned exactly. Normalising
      twice is normalising once. */
  lemma NormalizeQuotesSpec(text: string)
    ensures |NormalizeQuotes(text)| == |text|
    ensures '"' in text ==> NormalizeQuotes(text) == text
    ensures '"' !in text ==> '\'' !in NormalizeQuotes(text)
    ensures '"' !in text ==> forall k :: 0 <= k < |text| ==>
      NormalizeQuotes(text)[k] == if text[k] == '\'' then '"' else text[k]
    ensures NormalizeQuotes(NormalizeQuotes(text)) == NormalizeQuotes(text)
  {
    var r := NormalizeQuotes(text);
    if '"' !in text {
      if '\'' in text {
        var k :| 0 <= k < |text| && text[k] == '\'';
        assert r[k] == '"';
      } else {
        assert r == text;
      }
    }
  }

  /** Braces are never touched by normalisation, so the brace positions of
      the input and of the normalised text agree. */
  lemma NormalizeKeepsBraces(text: string)
    ensures forall k :: 0 <= k < |text| ==>
      (text[k] == '{' <==> NormalizeQuotes(text)[k] == '{')
      && (text[k] == '}' <==> NormalizeQuotes(text)[k] == '}')
    ensures ('}' in text <==> '}' in NormalizeQuotes(text))
  {
    NormalizeQuotesSpec(text);
    var r := NormalizeQuotes(text);
    if '}' in r {
      var k :| 0 <= k < |r| && r[k] == '}';
      assert text[k] == '}';
    }
  }

  // ---------------------------------------------------------------------------
  // Blob isolation

  /** With a `{` before the last `}`, the candidate is exactly the text from
      the first `{` through the last `}`, inclusive. */
  lemma CandidateIsBraceSpan(text: string)
    requires '}' in text
    requires 0 <= Find(text, "{", 0) <= LastIndexOf(text, '}').value
    ensures var first, last := Find(text, "{", 0), LastIndexOf(text, '}').value;
      && Candidate(text) == Some(text[first..last + 1])
      && text[first] == '{' && text[last] == '}'
      && (forall k :: 0 <= k < first ==> text[k] != '{')
      && (forall k :: last < k < |text| ==> text[k] != '}')
  {
    CandidateSpan(text);
    FirstBrace(text);
  }

  /** The candidate is the plain slice between the two braces. */
  lemma CandidateSpan(text: string)
    requires '}' in text
    requires 0 <= Find(text, "{", 0) <= LastIndexOf(text, '}').value
    ensures Candidate(text) == Some(text[Find(text, "{", 0)..LastIndexOf(text, '}').value + 1])
  {
    SliceInRange(text, Find(text, "{", 0), LastIndexOf(text, '}').value + 1);
  }

  /** `find("{")` gives the first `{`. */
  lemma FirstBrace(text: string)
    requires 0 <= Find(text, "{", 0)
    ensures text[Find(text, "{", 0)] == '{'
    ensures forall k :: 0 <= k < Find(text, "{", 0) ==> text[k] != '{'
  {
    FindChar(text, '{', 0);
  }

  /** The edge cases of the slice: without a `{` the start is -1, which Python
      reads as the last index, so the candidate is `}` when the text ends with
      `}` and empty otherwise; a first `{` after the last `}` gives an empty
      candidate. */
  lemma CandidateEdgeCases(text: string)
    requires '}' in text
    ensures '{' !in text ==>
      Candidate(text) == Some(if text[|text| - 1] == '}' then "}" else "")
    ensures Find(text, "{", 0) > LastIndexOf(text, '}').value ==>
      Candidate(text) == Some("")
  {
    FindChar(text, '{', 0);
    var last := LastIndexOf(text, '}').value;
    if '{' !in text {
      if text[|text| - 1] == '}' {
        assert last == |text| - 1;
        assert text[|text| - 1..|text|] == "}";
      }
    }
  }

  /** On success the second result is the text before the first `{`, which
      followed by the candidate is a prefix of the normalised text, and the
      first result is what the decoder made of the candidate. Without any `{`
      the preamble is `text[:-1]`: everything but the last character. */
  lemma PreambleOnSuccess(jsonBlob: string, loads: Decoder)
    requires ParseJsonBlob(jsonBlob, loads).Success?
    ensures var text := NormalizeQuotes(jsonBlob);
      var p := ParseJsonBlob(jsonBlob, loads).value;
      && Candidate(text).Some?
      && loads(Candidate(text).value) == Value(p.data)
      && (Find(text, "{", 0) != -1 ==>
            p.preamble == text[..Find(text, "{", 0)] && '{' !in p.preamble
            && p.preamble + Candidate(text).value <= text)
      && (Find(text, "{", 0) == -1 ==> '{' !in text && p.preamble == text[..|text| - 1])
  {
    var text := NormalizeQuotes(jsonBlob);
    ParsedParts(jsonBlob, loads);
    PreambleText(text, ParseJsonBlob(jsonBlob, loads).value.preamble);
  }

  /** A parse that succeeds decoded the candidate and kept the slice before
      the first `{`. */
  lemma ParsedParts(jsonBlob: string, loads: Decoder)
    requires ParseJsonBlob(jsonBlob, loads).Success?
    ensures var text := NormalizeQuotes(jsonBlob);
      var p := ParseJsonBlob(jsonBlob, loads).value;
      && Candidate(text).Some?
      && loads(Candidate(text).value) == Value(p.data)
      && p.preamble == Slice(text, 0, Find(text, "{", 0))
  {
  }

  /** The slice before the first `{`, read on the text alone. */
  lemma PreambleText(text: string, pre: string)
    requires Candidate(text).Some? && pre == Slice(text, 0, Find(text, "{", 0))
    ensures Find(text, "{", 0) != -1 ==>
      pre == text[..Find(text, "{", 0)] && '{' !in pre && pre + Candidate(text).value <= text
    ensures Find(text, "{", 0) == -1 ==> '{' !in text && pre == text[..|text| - 1]
  {
    var first := Find(text, "{", 0);
    if first != -1 {
      PreambleBeforeBrace(text, first);
      PreambleThenCandidate(text, first, LastIndexOf(text, '}').value);
    } else {
      PreambleNoBrace(text);
    }
  }

  /** With a `{` at `first`, the slice before it is a plain prefix without
      a `{`. */
  lemma PreambleBeforeBrace(text: string, first: int)
    requires first == Find(text, "{", 0) && first != -1
    ensures Slice(text, 0, first) == text[..first] && '{' !in text[..first]
  {
    FindChar(text, '{', 0);
  }

  /** Without a `{`, `find` gives -1 and the slice `[:-1]` drops the last
      character. */
  lemma PreambleNoBrace(text: string)
    requires Find(text, "{", 0) == -1 && '}' in text
    ensures '{' !in text && Slice(text, 0, -1) == text[..|text| - 1]
  {
    FindChar(text, '{', 0);
  }

  /** The preamble followed by the candidate is a prefix of the text. */
  lemma PreambleThenCandidate(text: string, first: int, last: nat)
    requires first == Find(text, "{", 0) && first != -1 && LastIndexOf(text, '}') == Some(last)
    ensures text[..first] + Candidate(text).value <= text
  {
    if first <= last {
      CandidateIsBraceSpan(text);
      assert text[..first] + text[first..last + 1] == text[..last + 1];
    } else {
      CandidateEdgeCases(text);
    }
  }

  // ---------------------------------------------------------------------------
  // The two decode errors and the uncaught one

  /** The uncaught IndexError happens exactly when the input has no `}`. */
  lemma NoClosingBraceIff(jsonBlob: string, loads: Decoder)
    ensures ParseJsonBlob(jsonBlob, loads) == Failure(NoClosingBrace) <==> '}' !in jsonBlob
  {
    NormalizeKeepsBraces(jsonBlob);
  }

  /** The "multiple tool calls" error is raised exactly when the decoder fails
      at an offset `p` for which the normalised text — not the candidate —
      holds `},\n` at [p-1, p+2). */
  lemma MultipleToolCallsIff(jsonBlob: string, loads: Decoder)
    ensures var text := NormalizeQuotes(jsonBlob);
      ParseJsonBlob(jsonBlob, loads) == Failure(MultipleToolCalls) <==>
        && Candidate(text).Some?
        && loads(Candidate(text).value).DecodeError?
        && Slice(text, loads(Candidate(text).value).pos - 1,
                 loads(Candidate(text).value).pos + 2) == SecondCallMarker
  {
  }

  /** Every other decode failure gives the generic error, which carries the
      decoder's reason, the whole normalised text and the window [p-4, p+5)
      of that text. */
  lemma InvalidJsonOtherwise(jsonBlob: string, loads: Decoder, msg: string, p: nat)
    requires Candidate(NormalizeQuotes(jsonBlob)).Some?
    requires loads(Candidate(NormalizeQuotes(jsonBlob)).value) == DecodeError(msg, p)
    requires Slice(NormalizeQuotes(jsonBlob), p - 1, p + 2) != SecondCallMarker
    ensures var text := NormalizeQuotes(jsonBlob);
      ParseJsonBlob(jsonBlob, loads) == Failure(InvalidJson(msg, text, Slice(text, p - 4, p + 5)))
  {
  }

  /** The generic error's message quotes the blob it was given. */
  lemma InvalidJsonMessage(reason: string, blob: string, window: string)
    ensures Contains(ErrorMessage(InvalidJson(reason, blob, window)), blob)
  {
    var head := "The JSON blob you used is invalid due to the following error: " + reason + ".\n"
      + "JSON blob was: ";
    ContainsSuffix(head, blob);
    var s := head + blob;
    ContainsExtend(s, blob, ", decoding failed on that specific part of the blob:\n");
    s := s + ", decoding failed on that specific part of the blob:\n";
    ContainsExtend(s, blob, "'");
    s := s + "'";
    ContainsExtend(s, blob, window);
    s := s + window;
    ContainsExtend(s, blob, "'.");
  }

  /** With no preamble the offset does point into the candidate, so a failure
      right after a `},\n` inside the candidate is reported as multiple tool
      calls. */
  lemma MultipleToolCallsWithoutPreamble(jsonBlob: string, loads: Decoder, msg: string, p: nat)
    requires var text := NormalizeQuotes(jsonBlob); text != [] && text[0] == '{'
    requires Candidate(NormalizeQuotes(jsonBlob)).Some?
    requires var c := Candidate(NormalizeQuotes(jsonBlob)).value;
      loads(c) == DecodeError(msg, p) && 1 <= p && p + 2 <= |c| && c[p - 1..p + 2] == SecondCallMarker
    ensures ParseJsonBlob(jsonBlob, loads) == Failure(MultipleToolCalls)
  {
    var text := NormalizeQuotes(jsonBlob);
    assert text[0..1] == "{";
    assert Find(text, "{", 0) == 0;
    var c := Candidate(text).value;
    var last := LastIndexOf(text, '}').value;
    assert c == text[0..last + 1];
    assert text[p - 1..p + 2] == c[p - 1..p + 2];
  }

  // The shifted window. The candidate `{"a": 1},\n{"b": 2}` has `},\n` right
  // before offset 8, where a decoder stops. Alone, it is reported as multiple
  // tool calls; behind the 8-character preamble `Action:\n` the check reads
  // `\n{"` from the whole text instead, and the generic error is raised.

  const TwoCalls: string := "{\"a\": 1},\n{\"b\": 2}"
  const ActionPreamble: string := "Action:\n"

  /** Decoding `TwoCalls` stops at offset 8, and without a preamble the
      second call is detected. */
  lemma SecondCallDetected(loads: Decoder, msg: string)
    requires loads(TwoCalls) == DecodeError(msg, 8)
    ensures TwoCalls[7..10] == SecondCallMarker
    ensures ParseJsonBlob(TwoCalls, loads) == Failure(MultipleToolCalls)
  {
    var blob := TwoCalls;
    assert blob[1] == '"';
    assert NormalizeQuotes(blob) == blob;
    assert blob[0..1] == "{";
    assert Find(blob, "{", 0) == 0;
    assert LastIndexOf(blob, '}') == Some(|blob| - 1);
    assert Slice(blob, 0, |blob|) == blob;
    assert Slice(blob, 7, 10) == blob[7..10] == SecondCallMarker;
  }

  /** Where the braces of `Action:\n` + `TwoCalls` are. */
  lemma PreambleTextShape()
    ensures var text := ActionPreamble + TwoCalls;
      && NormalizeQuotes(text) == text
      && Find(text, "{", 0) == 8
      && LastIndexOf(text, '}') == Some(|text| - 1)
      && text[8..] == TwoCalls
      && text[7..10] != SecondCallMarker
  {
    var pre, blob := ActionPreamble, TwoCalls;
    var text := pre + blob;
    assert text[9] == blob[1] == '"';
    assert text[8] == '{' && forall k :: 0 <= k < 8 ==> text[k] == pre[k] != '{';
    FindChar(text, '{', 0);
    assert text[|text| - 1] == blob[|blob| - 1] == '}';
    assert text[7..10][0] == pre[7] != SecondCallMarker[0];
  }

  /** Behind the preamble the same candidate and the same decode failure give
      the generic error, because the offset is applied to the whole text. */
  lemma SecondCallMissedBehindPreamble(loads: Decoder, msg: string)
    requires loads(TwoCalls) == DecodeError(msg, 8)
    ensures var text := ActionPreamble + TwoCalls;
      && Candidate(text) == Some(TwoCalls)
      && ParseJsonBlob(text, loads) == Failure(InvalidJson(msg, text, text[4..13]))
  {
    var text := ActionPreamble + TwoCalls;
    PreambleCandidate();
    PreambleWindows();
    InvalidJsonOtherwise(text, loads, msg, 8);
  }

  /** Behind the preamble the candidate is still `TwoCalls`. */
  lemma PreambleCandidate()
    ensures NormalizeQuotes(ActionPreamble + TwoCalls) == ActionPreamble + TwoCalls
    ensures Candidate(ActionPreamble + TwoCalls) == Some(TwoCalls)
  {
    var text := ActionPreamble + TwoCalls;
    PreambleTextShape();
    assert Slice(text, 8, |text|) == TwoCalls;
  }

  /** The two slices the error handler takes around offset 8. */
  lemma PreambleWindows()
    ensures var text := ActionPreamble + TwoCalls;
      Slice(text, 7, 10) != SecondCallMarker && Slice(text, 4, 13) == text[4..13]
  {
    var text := ActionPreamble + TwoCalls;
    PreambleTextShape();
    SliceInRange(text, 7, 10);
    SliceInRange(text, 4, 13);
  }

  /** `w` between two quotes `q`. */
  function Quoted(q: string, w: string): string {
    q + w + q
  }

  /** The text of a two-entry dict written with quote `q`:
      `{qk1q: qv1q, qk2q: qv2q}`. */
  function DictText(q: string, k1: string, v1: string, k2: string, v2: string): string {
    "{" + Quoted(q, k1) + ": " + Quoted(q, v1) + ", " + Quoted(q, k2) + ": " + Quoted(q, v2) + "}"
  }

  /** Normalising a single-quoted word that holds no quote double-quotes it. */
  lemma ReplaceQuoted(w: string)
    requires '\'' !in w
    ensures ReplaceChar(Quoted("'", w), '\'', '"') == Quoted("\"", w)
  {
    ReplaceCharAbsent(w, '\'', '"');
    ReplaceCharAppend("'", w, '\'', '"');
    ReplaceCharAppend("'" + w, "'", '\'', '"');
  }

  /** A dict-like text in single quotes, with keys and values free of quotes,
      normalises to the same text in double quotes. */
  lemma NormalizeDictText(k1: string, v1: string, k2: string, v2: string)
    requires '\'' !in k1 && '\'' !in v1 && '\'' !in k2 && '\'' !in v2
    requires '"' !in k1 && '"' !in v1 && '"' !in k2 && '"' !in v2
    ensures NormalizeQuotes(DictText("'", k1, v1, k2, v2)) == DictText("\"", k1, v1, k2, v2)
  {
    var a, b := '\'', '"';
    var q1, q2, q3, q4 := Quoted("'", k1), Quoted("'", v1), Quoted("'", k2), Quoted("'", v2);
    assert '"' !in DictText("'", k1, v1, k2, v2);
    ReplaceQuoted(k1);
    ReplaceQuoted(v1);
    ReplaceQuoted(k2);
    ReplaceQuoted(v2);
    ReplaceCharAbsent("{", a, b);
    ReplaceCharAbsent(": ", a, b);
    ReplaceCharAbsent(", ", a, b);
    ReplaceCharAbsent("}", a, b);
    var p1 := "{" + q1;
    var p2 := p1 + ": ";
    var p3 := p2 + q2;
    var p4 := p3 + ", ";
    var p5 := p4 + q3;
    var p6 := p5 + ": ";
    var p7 := p6 + q4;
    ReplaceCharAppend("{", q1, a, b);
    ReplaceCharAppend(p1, ": ", a, b);
    ReplaceCharAppend(p2, q2, a, b);
    ReplaceCharAppend(p3, ", ", a, b);
    ReplaceCharAppend(p4, q3, a, b);
    ReplaceCharAppend(p5, ": ", a, b);
    ReplaceCharAppend(p6, q4, a, b);
    ReplaceCharAppend(p7, "}", a, b);
  }

  /** The example the parser is run on: the dict
      `{'tool-call': 'assistant', 'tool-response': 'user'}` in single quotes
      has them turned into double quotes, decodes to a two-entry object, and
      leaves an empty preamble. */
  lemma ToolCallExample(loads: Decoder)
    requires loads(DictText("\"", "tool-call", "assistant", "tool-response", "user"))
      == Value(Object(map["tool-call" := Str("assistant"), "tool-response" := Str("user")]))
    ensures ParseJsonBlob(DictText("'", "tool-call", "assistant", "tool-response", "user"), loads)
      == Success(Parsed(Object(map["tool-call" := Str("assistant"), "tool-response" := Str("user")]), ""))
  {
    var single := DictText("'", "tool-call", "assistant", "tool-response", "user");
    var text := DictText("\"", "tool-call", "assistant", "tool-response", "user");
    NormalizeDictText("tool-call", "assistant", "tool-response", "user");
    assert NormalizeQuotes(single) == text;
    assert text[0] == '{';
    assert Find(text, "{", 0) == 0;
    assert text[|text| - 1] == '}';
    assert LastIndexOf(text, '}') == Some(|text| - 1);
    assert Slice(text, 0, |text|) == text;
  }
}
