/** Reading the score out of an LLM judge's reply (`parse_score`): take the
    text inside the first fenced code block, try to decode it, and return its
    `score` entry; whatever goes wrong, return the extracted text instead. */
module JudgeScore {
  import opened PyStr
  import opened Json

  const JsonFence: string := "```json"
  const Fence: string := "```"

  /** What `parse_score` returns: the decoded `score` entry, or the text. */
  datatype Score = JsonScore(value: Json) | TextScore(text: string)

  /** The text `parse_score` decodes. With a ```` ```json ```` fence: the piece
      after the first such fence, cut at its first ```` ``` ````, stripped. With
      only a plain fence: the piece between the first and second fence,
      stripped. Without a fence: the reply as it is. */
  function ScoreCandidate(output: string): (r: string)
    ensures !Contains(output, Fence) ==> r == output
    ensures Contains(output, Fence) ==>
      !Contains(r, Fence) && (r != [] ==> !IsSpace(r[0]) && !IsSpace(r[|r| - 1]))
  {
    JsonFenceIsFence(output);
    if Contains(output, JsonFence) then
      BlockIsClean(Split(output, JsonFence)[1]);
      Strip(Split(Split(output, JsonFence)[1], Fence)[0])
    else if Contains(output, Fence) then
      BlockIsClean(Split(output, Fence)[1]);
      Strip(Split(Split(output, Fence)[1], Fence)[0])
    else output
  }

  /** The stripped text before the first fence of `block` holds no fence and
      neither starts nor ends with whitespace. */
  lemma BlockIsClean(block: string)
    ensures var r := Strip(Split(block, Fence)[0]);
      !Contains(r, Fence) && (r != [] ==> !IsSpace(r[0]) && !IsSpace(r[|r| - 1]))
  {
    FirstPieceClean(block, Fence);
    ContainsFromStrip(Split(block, Fence)[0], Fence);
    StripShape(Split(block, Fence)[0]);
  }

  /** `parse_score(output)`, with `json.loads` as `loads`. A decoded mapping
      with a `score` key yields that entry; a decode failure, a mapping
      without the key, and any other decoded value (indexing it raises) all
      fall back to the candidate text. */
  function ParseScore(output: string, loads: Decoder): (r: Score)
    ensures r.JsonScore? ==> loads(ScoreCandidate(output)).Value?
    ensures r.TextScore? ==> r.text == ScoreCandidate(output)
    ensures r.TextScore? && !Contains(output, Fence) ==> r.text == output
    ensures r.TextScore? && Contains(output, Fence) ==> !Contains(r.text, Fence)
  {
    var candidate := ScoreCandidate(output);
    match loads(candidate)
    case Value(Object(fields)) =>
      if "score" in fields then JsonScore(fields["score"]) else TextScore(candidate)
    case _ => TextScore(candidate)
  }

  /** The ```` ```json ```` case: after the first ```` ```json ````, up to the
      next ```` ```json ```` (or the end), and within that up to the first
      ```` ``` ```` (or the end), stripped. */
  lemma JsonFenceCandidate(output: string)
    requires Contains(output, JsonFence)
    ensures var rest := output[Find(output, JsonFence, 0) + |JsonFence|..];
      var block := if Contains(rest, JsonFence) then rest[..Find(rest, JsonFence, 0)] else rest;
      ScoreCandidate(output) == Strip(if Contains(block, Fence) then block[..Find(block, Fence, 0)] else block)
  {
    SplitSecond(output, JsonFence);
    SplitFirst(Split(output, JsonFence)[1], Fence);
  }

  /** The plain-fence case: exactly the text between the first and the second
      fence (or the end), stripped. */
  lemma PlainFenceCandidate(output: string)
    requires !Contains(output, JsonFence) && Contains(output, Fence)
    ensures var rest := output[Find(output, Fence, 0) + |Fence|..];
      ScoreCandidate(output) == Strip(if Contains(rest, Fence) then rest[..Find(rest, Fence, 0)] else rest)
  {
    var between := Split(output, Fence)[1];
    SplitSecond(output, Fence);
    SplitJoin(output, Fence);
    assert !Contains(between, Fence);
    SplitFirst(between, Fence);
  }

  /** Without any fence the candidate is the reply itself, not stripped. */
  lemma NoFenceCandidate(output: string)
    requires !Contains(output, Fence)
    ensures ScoreCandidate(output) == output
  {
    JsonFenceIsFence(output);
  }

  /** A ```` ```json ```` fence starts with a plain fence. */
  lemma JsonFenceIsFence(output: string)
    ensures Contains(output, JsonFence) ==> Contains(output, Fence)
  {
    if Contains(output, JsonFence) {
      var i := Find(output, JsonFence, 0);
      assert output[i..i + 3] == output[i..i + |JsonFence|][..3] == Fence;
      assert OccursAt(output, Fence, i);
      ContainsIff(output, Fence);
    }
  }

  /** A text without a backtick contains no fence. */
  lemma FenceFree(s: string)
    requires '`' !in s
    ensures !Contains(s, Fence)
  {
    forall j | 0 <= j < |s| ensures !OccursAt(s, Fence, j) {
      NotOccursAt(s, Fence, j, 0);
    }
  }

  /** The usual reply: a preamble without backticks, a ```` ```json ```` block
      whose body has no backtick, a closing fence, and a tail that does not
      start with a backtick. The candidate is the stripped body. (A tail
      starting with `` `json `` would make the closing fence part of a second
      ```` ```json ```` and leave a backtick in the candidate.) */
  lemma FencedJsonBlock(pre: string, body: string, post: string)
    requires '`' !in pre && '`' !in body
    requires post == [] || post[0] != '`'
    ensures ScoreCandidate(pre + JsonFence + body + Fence + post) == Strip(body)
  {
    var output := pre + JsonFence + body + Fence + post;
    var rest := body + Fence + post;
    assert output == pre + JsonFence + rest;
    FindAfterFree(pre, JsonFence, rest);
    FindAfterFree(body, Fence, post);
    JsonFenceCandidate(output);
    BlockBeforeFence(body, post);
  }

  /** Inside the text after the opening fence, the cut at the next
      ```` ```json ```` keeps the whole body and the fence after it. */
  lemma BlockBeforeFence(body: string, post: string)
    requires '`' !in body
    requires post == [] || post[0] != '`'
    ensures var rest := body + Fence + post;
      var block := if Contains(rest, JsonFence) then rest[..Find(rest, JsonFence, 0)] else rest;
      (if Contains(block, Fence) then block[..Find(block, Fence, 0)] else block) == body
  {
    var rest := body + Fence + post;
    var m := |body|;
    FindAfterFree(body, Fence, post);
    var p := Find(rest, JsonFence, 0);
    if p != -1 {
      forall j | 0 <= j < m ensures !OccursAt(rest, JsonFence, j) {
        assert rest[j] == body[j];
        NotOccursAt(rest, JsonFence, j, 0);
      }
      if post != [] {
        assert rest[m + 3] == post[0];
        NotOccursAt(rest, JsonFence, m + 1, 2);
        NotOccursAt(rest, JsonFence, m + 2, 1);
      }
      var block := rest[..p];
      if p == m {
        assert block == body;
        FenceFree(body);
      } else {
        assert p >= m + 3;
        assert block == body + Fence + rest[m + 3..p];
        FindAfterFree(body, Fence, rest[m + 3..p]);
        assert block[..m] == body;
      }
    } else {
      assert rest[..m] == body;
    }
  }

  /** The score is the decoded `score` entry exactly when the candidate
      decodes to a mapping holding that key; otherwise it is the candidate
      text. `parse_score` never raises. */
  lemma ParseScoreSpec(output: string, loads: Decoder)
    ensures var c := ScoreCandidate(output);
      var d := loads(c);
      && (ParseScore(output, loads).JsonScore? <==>
            d.Value? && d.value.Object? && "score" in d.value.fields)
      && (ParseScore(output, loads).JsonScore? ==>
            ParseScore(output, loads).value == d.value.fields["score"])
      && (ParseScore(output, loads).TextScore? ==> ParseScore(output, loads).text == c)
  {
  }
}
