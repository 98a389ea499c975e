/** Splitting embedding inputs into batches (packages/embeddings/src/batch-planner.ts). */
module BatchPlanner {
  import opened Sums
  import opened Text

  datatype Chunk = Chunk(
    chunkIndex: nat, startIndex: int, endIndex: int, inputs: seq<string>, tokenEstimate: int)

  datatype Plan = Plan(totalItems: nat, totalTokensEstimated: int, chunks: seq<Chunk>)

  /** Limits on a chunk: how many inputs, and how many estimated tokens. */
  datatype Limits = Limits(size: int, tokens: int)

  // ---------------------------------------------------------------- estimating

  /** Words are maximal runs of characters other than white space. */
  function Words(s: string): nat {
    if s == [] then 0
    else
      var front, c := s[..|s| - 1], s[|s| - 1];
      Words(front) + if !IsSpace(c) && (front == [] || IsSpace(front[|front| - 1])) then 1 else 0
  }

  function Max(a: int, b: int): int {
    if a >= b then a else b
  }

  /** White space separates words, ... */
  lemma {:induction false} WordsApart(a: string, c: char, b: string)
    requires IsSpace(c)
    ensures Words(a + [c] + b) == Words(a) + Words(b)
  {
    var s := a + [c] + b;
    if b == [] {
      assert s[..|s| - 1] == a;
    } else {
      var front := b[..|b| - 1];
      assert s[..|s| - 1] == a + [c] + front;
      assert (a + [c] + front)[|a + [c] + front| - 1] == if front == [] then c else front[|front| - 1];
      WordsApart(a, c, front);
    }
  }

  /** ... and nothing else does. */
  lemma {:induction false} OneWord(s: string)
    requires forall c :: c in s ==> !IsSpace(c)
    ensures Words(s) == if s == [] then 0 else 1
  {
    if s != [] {
      OneWord(s[..|s| - 1]);
    }
  }

  /** The least number that gives every four characters a token, and every word, and the text at least
      one; nothing for no text. */
  function EstimateInputTokens(text: string): (n: int)
    ensures n == 0 <==> text == []
    ensures 4 * n >= |text| && n >= Words(text)
    ensures forall m: nat :: 4 * m >= |text| && m >= Words(text) && (m == 0 ==> text == []) ==> n <= m
  {
    if text == [] then 0 else Max(Max((|text| + 3) / 4, Words(text)), 1)
  }

  function TokensOf(inputs: seq<string>): int {
    SumBy(EstimateInputTokens, inputs)
  }

  // ---------------------------------------------------------------- the greedy scan

  /** What the loop has closed so far, and what it is collecting. */
  datatype Scan = Scan(chunks: seq<Chunk>, startIndex: nat, current: seq<string>)

  function Close(s: Scan): Chunk {
    Chunk(|s.chunks|, s.startIndex, s.startIndex + |s.current| - 1, s.current, TokensOf(s.current))
  }

  predicate Overflows(s: Scan, text: string, limits: Limits) {
    |s.current| >= limits.size
    || (|s.current| > 0 && TokensOf(s.current) + EstimateInputTokens(text) > limits.tokens)
  }

  function Scanned(inputs: seq<string>, limits: Limits): Scan {
    if inputs == [] then Scan([], 0, [])
    else
      var s := Scanned(inputs[..|inputs| - 1], limits);
      var text := inputs[|inputs| - 1];
      if Overflows(s, text, limits) then Scan(s.chunks + [Close(s)], |inputs| - 1, [text])
      else s.(current := s.current + [text])
  }

  lemma TokensSnoc(inputs: seq<string>, text: string)
    ensures TokensOf(inputs + [text]) == TokensOf(inputs) + EstimateInputTokens(text)
    ensures TokensOf([text]) == EstimateInputTokens(text)
  {
    SumConcat(EstimateInputTokens, inputs, [text]);
    SumOne(EstimateInputTokens, text);
  }

  lemma ScanSnoc(inputs: seq<string>, text: string, limits: Limits)
    ensures var s := Scanned(inputs, limits);
            Scanned(inputs + [text], limits)
            == if Overflows(s, text, limits) then Scan(s.chunks + [Close(s)], |inputs|, [text])
               else s.(current := s.current + [text])
  {
    assert (inputs + [text])[..|inputs|] == inputs;
  }

  function Chunks(s: Scan): seq<Chunk> {
    s.chunks + if s.current == [] then [] else [Close(s)]
  }

  function Planned(inputs: seq<string>, limits: Limits): Plan {
    Plan(|inputs|, TokensOf(inputs), Chunks(Scanned(inputs, limits)))
  }

  lemma NothingScanned(limits: Limits)
    ensures Scanned([], limits) == Scan([], 0, []) && TokensOf([]) == 0
  {
  }

  method MakePlan(inputs: seq<string>, limits: Limits) returns (p: Plan)
    ensures p == Planned(inputs, limits)
  {
    hide Scanned, EstimateInputTokens, TokensOf;
    var chunks: seq<Chunk> := [];
    var currentInputs: seq<string> := [];
    var currentTokenEstimate := 0;
    var chunkStartIndex := 0;
    var chunkIndex := 0;
    var total := 0;
    NothingScanned(limits);
    for i := 0 to |inputs|
      invariant Scanned(inputs[..i], limits) == Scan(chunks, chunkStartIndex, currentInputs)
      invariant currentTokenEstimate == TokensOf(currentInputs)
      invariant chunkIndex == |chunks|
      invariant total == TokensOf(inputs[..i])
    {
      var text := inputs[i];
      assert inputs[..i + 1] == inputs[..i] + [text];
      ScanSnoc(inputs[..i], text, limits);
      TokensSnoc(inputs[..i], text);
      TokensSnoc(currentInputs, text);
      var tokens := EstimateInputTokens(text);
      total := total + tokens;
      var wouldExceedSize := |currentInputs| >= limits.size;
      var wouldExceedTokens := |currentInputs| > 0 && currentTokenEstimate + tokens > limits.tokens;
      if wouldExceedSize || wouldExceedTokens {
        chunks := chunks + [Chunk(chunkIndex, chunkStartIndex, chunkStartIndex + |currentInputs| - 1,
                                  currentInputs, currentTokenEstimate)];
        chunkIndex := chunkIndex + 1;
        chunkStartIndex := i;
        currentInputs := [text];
        currentTokenEstimate := tokens;
      } else {
        currentInputs := currentInputs + [text];
        currentTokenEstimate := currentTokenEstimate + tokens;
      }
    }
    assert inputs[..|inputs|] == inputs;
    if |currentInputs| > 0 {
      chunks := chunks + [Chunk(chunkIndex, chunkStartIndex, chunkStartIndex + |currentInputs| - 1,
                                currentInputs, currentTokenEstimate)];
    }
    p := Plan(|inputs|, total, chunks);
  }

  // ---------------------------------------------------------------- nothing lost, nothing moved

  function Flatten(parts: seq<seq<string>>): seq<string> {
    if parts == [] then [] else Flatten(parts[..|parts| - 1]) + parts[|parts| - 1]
  }

  function Inputs(chunks: seq<Chunk>): (r: seq<seq<string>>)
    ensures |r| == |chunks|
  {
    seq(|chunks|, i requires 0 <= i < |chunks| => chunks[i].inputs)
  }

  /** Chunks are numbered in order, and each says where its inputs stand. */
  predicate Contiguous(chunks: seq<Chunk>) {
    forall k :: 0 <= k < |chunks| ==>
      && chunks[k].chunkIndex == k
      && chunks[k].startIndex == |Flatten(Inputs(chunks[..k]))|
      && chunks[k].endIndex == chunks[k].startIndex + |chunks[k].inputs| - 1
      && chunks[k].tokenEstimate == TokensOf(chunks[k].inputs)
  }

  lemma FlattenSnoc(chunks: seq<Chunk>, c: Chunk)
    ensures Inputs(chunks + [c]) == Inputs(chunks) + [c.inputs]
    ensures Flatten(Inputs(chunks + [c])) == Flatten(Inputs(chunks)) + c.inputs
  {
    assert (Inputs(chunks) + [c.inputs])[..|chunks|] == Inputs(chunks);
  }

  lemma ContiguousSnoc(chunks: seq<Chunk>, c: Chunk)
    requires Contiguous(chunks) && c.chunkIndex == |chunks| && c.startIndex == |Flatten(Inputs(chunks))|
    requires c.endIndex == c.startIndex + |c.inputs| - 1 && c.tokenEstimate == TokensOf(c.inputs)
    ensures Contiguous(chunks + [c])
  {
    var all := chunks + [c];
    forall k | 0 <= k < |all|
      ensures all[k].chunkIndex == k && all[k].startIndex == |Flatten(Inputs(all[..k]))|
              && all[k].endIndex == all[k].startIndex + |all[k].inputs| - 1
              && all[k].tokenEstimate == TokensOf(all[k].inputs)
    {
      assert all[..k] == if k == |chunks| then chunks else chunks[..k];
    }
  }

  lemma {:induction false} ScanKeepsInputs(inputs: seq<string>, limits: Limits)
    ensures var s := Scanned(inputs, limits);
            && Flatten(Inputs(s.chunks)) + s.current == inputs
            && s.startIndex == |Flatten(Inputs(s.chunks))|
            && Contiguous(s.chunks)
  {
    hide Contiguous;
    if inputs == [] {
      assert Contiguous([]) by { NoChunks(); }
      assert Flatten(Inputs([])) == [];
    } else {
      var front, text := inputs[..|inputs| - 1], inputs[|inputs| - 1];
      ScanKeepsInputs(front, limits);
      var s := Scanned(front, limits);
      assert inputs == front + [text];
      if Overflows(s, text, limits) {
        FlattenSnoc(s.chunks, Close(s));
        ContiguousSnoc(s.chunks, Close(s));
      } else {
        assert Flatten(Inputs(s.chunks)) + (s.current + [text]) == (Flatten(Inputs(s.chunks)) + s.current) + [text];
      }
    }
  }

  lemma NoChunks()
    ensures Contiguous([])
  {
  }

  /** The chunks, one after the other, are the inputs, with the indices they say, for any limits. */
  lemma PlanKeepsInputs(inputs: seq<string>, limits: Limits)
    ensures var chunks := Planned(inputs, limits).chunks;
            Flatten(Inputs(chunks)) == inputs && Contiguous(chunks)
  {
    hide Contiguous;
    ScanKeepsInputs(inputs, limits);
    var s := Scanned(inputs, limits);
    if s.current == [] {
      assert s.chunks + [] == s.chunks;
      assert Flatten(Inputs(s.chunks)) + [] == Flatten(Inputs(s.chunks));
    } else {
      FlattenSnoc(s.chunks, Close(s));
      ContiguousSnoc(s.chunks, Close(s));
    }
  }

  // ---------------------------------------------------------------- limits

  /** A part within the limits: small enough, and light enough unless it cannot be split. */
  predicate Fits(part: seq<string>, limits: Limits) {
    |part| <= limits.size && (TokensOf(part) <= limits.tokens || |part| <= 1)
  }

  lemma {:induction false} ScanFits(inputs: seq<string>, limits: Limits)
    requires limits.size >= 1
    ensures var s := Scanned(inputs, limits);
            && (s.current == [] <==> inputs == [])
            && Fits(s.current, limits)
            && forall k :: 0 <= k < |s.chunks| ==> s.chunks[k].inputs != [] && Fits(s.chunks[k].inputs, limits)
  {
    if inputs != [] {
      var front, text := inputs[..|inputs| - 1], inputs[|inputs| - 1];
      ScanFits(front, limits);
      var s := Scanned(front, limits);
      SumConcat(EstimateInputTokens, s.current, [text]);
      SumOne(EstimateInputTokens, text);
    }
  }

  /** With room for at least one input, every chunk has some and keeps to both limits, except that a
      single input may be too heavy by itself. */
  lemma PlanFits(inputs: seq<string>, limits: Limits, c: Chunk)
    requires limits.size >= 1 && c in Planned(inputs, limits).chunks
    ensures c.inputs != [] && Fits(c.inputs, limits)
  {
    ScanFits(inputs, limits);
  }

  lemma {:induction false} ScanWithoutRoom(inputs: seq<string>, limits: Limits)
    requires limits.size <= 0 && inputs != []
    ensures var s := Scanned(inputs, limits);
            && |s.chunks| == |inputs| && |s.current| == 1
            && s.chunks[0].inputs == []
            && forall k :: 1 <= k < |s.chunks| ==> |s.chunks[k].inputs| == 1
  {
    if |inputs| > 1 {
      ScanWithoutRoom(inputs[..|inputs| - 1], limits);
    } else {
      assert inputs[..0] == [];
    }
  }

  /** Some chunk is empty exactly if there are inputs but no room for any: then the first one is,
      and every other holds one input. */
  lemma EmptyChunks(inputs: seq<string>, limits: Limits)
    ensures (exists c :: c in Planned(inputs, limits).chunks && c.inputs == []) <==> inputs != [] && limits.size <= 0
    ensures inputs != [] && limits.size <= 0 ==> |Planned(inputs, limits).chunks| == |inputs| + 1
  {
    if limits.size >= 1 {
      ScanFits(inputs, limits);
    } else if inputs != [] {
      ScanWithoutRoom(inputs, limits);
      var s := Scanned(inputs, limits);
      assert Chunks(s)[0] == s.chunks[0];
    }
  }

  // ---------------------------------------------------------------- optimality

  /** Some way of cutting the inputs into parts within the limits. */
  predicate Partition(parts: seq<seq<string>>, inputs: seq<string>, limits: Limits) {
    Flatten(parts) == inputs && forall k :: 0 <= k < |parts| ==> Fits(parts[k], limits)
  }

  function Opened(s: Scan): nat {
    |s.chunks| + if s.current == [] then 0 else 1
  }

  /** The scan has opened fewer chunks than there are parts, or as many, with a last chunk that is
      no longer than the last part. */
  predicate Ahead(s: Scan, parts: seq<seq<string>>) {
    || Opened(s) < |parts|
    || (Opened(s) == |parts| && (parts == [] || |s.current| <= |parts[|parts| - 1]|))
  }

  lemma TokensOfSuffix(whole: seq<string>, k: nat)
    requires k <= |whole|
    ensures TokensOf(whole[k..]) <= TokensOf(whole)
  {
    SumConcat(EstimateInputTokens, whole[..k], whole[k..]);
    assert whole[..k] + whole[k..] == whole;
    SumNonNegative(EstimateInputTokens, whole[..k]);
  }

  lemma FitsWithout(part: seq<string>, limits: Limits)
    requires Fits(part, limits) && part != []
    ensures Fits(part[..|part| - 1], limits)
  {
  }

  lemma {:induction false} FlattenDropLast(parts: seq<seq<string>>, inputs: seq<string>)
    requires parts != [] && Flatten(parts) == inputs && parts[|parts| - 1] != []
    ensures var last := parts[|parts| - 1];
            var shorter := parts[|parts| - 1 := last[..|last| - 1]];
            && Flatten(shorter) == inputs[..|inputs| - 1]
            && inputs[|inputs| - 1] == last[|last| - 1]
            && (|last| == 1 ==> Flatten(parts[..|parts| - 1]) == inputs[..|inputs| - 1])
  {
    var n := |parts| - 1;
    var last := parts[n];
    var shorter := parts[n := last[..|last| - 1]];
    assert shorter[..n] == parts[..n];
    assert inputs == Flatten(parts[..n]) + last;
    assert (Flatten(parts[..n]) + last)[..|inputs| - 1] == Flatten(parts[..n]) + last[..|last| - 1];
    assert |last| == 1 ==> last[..0] == [];
  }

  /** Both the current chunk and the last part end where the inputs end. */
  lemma BothSuffixes(inputs: seq<string>, a: seq<string>, current: seq<string>, b: seq<string>, last: seq<string>)
    requires a + current == inputs == b + last && |current| <= |last|
    ensures current == last[|last| - |current|..]
  {
    assert current == inputs[|inputs| - |current|..];
    assert last == inputs[|inputs| - |last|..];
  }

  lemma NothingIsAhead(parts: seq<seq<string>>, limits: Limits)
    ensures Ahead(Scanned([], limits), parts)
  {
  }

  lemma AheadOfMore(s: Scan, fewer: seq<seq<string>>, parts: seq<seq<string>>)
    requires Ahead(s, fewer) && |fewer| < |parts|
    ensures Ahead(s, parts)
  {
  }

  lemma AheadAlone(parts: seq<seq<string>>, inputs: seq<string>, limits: Limits)
    requires limits.size >= 1 && parts != [] && inputs != [] && |parts[|parts| - 1]| == 1
    requires Ahead(Scanned(inputs[..|inputs| - 1], limits), parts[..|parts| - 1])
    ensures Ahead(Scanned(inputs, limits), parts)
  {
    hide Scanned, TokensOf, EstimateInputTokens;
    var front, text := inputs[..|inputs| - 1], inputs[|inputs| - 1];
    assert inputs == front + [text];
    ScanSnoc(front, text, limits);
    ScanFits(front, limits);
  }

  lemma {:induction false} GreedyStaysAhead(parts: seq<seq<string>>, inputs: seq<string>, limits: Limits)
    requires limits.size >= 1 && Partition(parts, inputs, limits)
    ensures Ahead(Scanned(inputs, limits), parts)
    decreases |inputs|, |parts|
  {
    hide Scanned, Fits, TokensOf, Ahead;
    if inputs == [] {
      NothingIsAhead(parts, limits);
    } else if parts != [] && parts[|parts| - 1] == [] {
      var fewer := parts[..|parts| - 1];
      assert Flatten(parts) == Flatten(fewer) + [] == Flatten(fewer);
      GreedyStaysAhead(fewer, inputs, limits);
      AheadOfMore(Scanned(inputs, limits), fewer, parts);
    } else {
      var n := |parts| - 1;
      assert parts != [];
      var last := parts[n];
      var front, text := inputs[..|inputs| - 1], inputs[|inputs| - 1];
      FlattenDropLast(parts, inputs);
      if |last| == 1 {
        GreedyStaysAhead(parts[..n], front, limits);
        AheadAlone(parts, inputs, limits);
      } else {
        FitsWithout(last, limits);
        var shorter := parts[n := last[..|last| - 1]];
        GreedyStaysAhead(shorter, front, limits);
        AheadStep(parts, inputs, limits);
      }
    }
  }

  /** If the scan's chunk is within the last part, it takes the next input too. */
  lemma AheadStep(parts: seq<seq<string>>, inputs: seq<string>, limits: Limits)
    requires limits.size >= 1 && Partition(parts, inputs, limits) && parts != [] && inputs != []
    requires |parts[|parts| - 1]| >= 2
    requires var last := parts[|parts| - 1];
             Ahead(Scanned(inputs[..|inputs| - 1], limits), parts[|parts| - 1 := last[..|last| - 1]])
    ensures Ahead(Scanned(inputs, limits), parts)
  {
    hide Scanned, TokensOf, EstimateInputTokens, Flatten, Contiguous;
    var n := |parts| - 1;
    var last := parts[n];
    var front, text := inputs[..|inputs| - 1], inputs[|inputs| - 1];
    var s := Scanned(front, limits);
    FlattenDropLast(parts, inputs);
    assert inputs == front + [text];
    ScanSnoc(front, text, limits);
    ScanFits(front, limits);
    NothingScanned(limits);
    if Opened(s) == |parts| {
      TakesOneMore(parts, front, text, limits);
    }
  }

  lemma TakesOneMore(parts: seq<seq<string>>, front: seq<string>, text: string, limits: Limits)
    requires parts != [] && |parts[|parts| - 1]| >= 2 && Fits(parts[|parts| - 1], limits)
    requires Flatten(parts) == front + [text]
    requires |Scanned(front, limits).current| < |parts[|parts| - 1]|
    ensures !Overflows(Scanned(front, limits), text, limits)
  {
    hide Scanned, TokensOf, EstimateInputTokens, Contiguous;
    var s, last := Scanned(front, limits), parts[|parts| - 1];
    var k := |last| - 1 - |s.current|;
    ScanKeepsInputs(front, limits);
    var a := Flatten(Inputs(s.chunks));
    assert a + (s.current + [text]) == (a + s.current) + [text];
    BothSuffixes(front + [text], a, s.current + [text], Flatten(parts[..|parts| - 1]), last);
    TokensOfSuffix(last, k);
    TokensSnoc(s.current, text);
  }

  /** With room for at least one input, no other way of cutting the inputs into contiguous parts
      within the limits needs fewer parts than the plan has chunks. */
  lemma PlanIsOptimal(parts: seq<seq<string>>, inputs: seq<string>, limits: Limits)
    requires limits.size >= 1 && Partition(parts, inputs, limits)
    ensures |Planned(inputs, limits).chunks| <= |parts|
  {
    GreedyStaysAhead(parts, inputs, limits);
  }

  /** And the plan is itself such a way. */
  lemma PlanIsPartition(inputs: seq<string>, limits: Limits)
    requires limits.size >= 1
    ensures Partition(Inputs(Planned(inputs, limits).chunks), inputs, limits)
  {
    PlanKeepsInputs(inputs, limits);
    var chunks := Planned(inputs, limits).chunks;
    forall k | 0 <= k < |chunks| ensures Fits(Inputs(chunks)[k], limits) {
      PlanFits(inputs, limits, chunks[k]);
    }
  }
}
