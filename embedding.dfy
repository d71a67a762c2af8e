/** The control flow of `ai_embed_generate` (src/sqlite-ai.c:237-368) and
    `ai_check_model` (src/sqlite-ai.c:189-193).

    Every llama.cpp call is replaced by an answer recorded in an `Engine` value: the
    model's shape, the two calls to `llama_tokenize`, the allocations, the return code of
    `llama_decode` or `llama_encode`, and whether embeddings come back. What the model
    keeps is the order of the checks, the `max_tokens` ceiling, the reusable token
    buffer, the batch built from the tokens, and the choice between decoding and
    encoding. */
module Embedding {
  import opened CTypes
  import opened Options

  const MIN_ALLOC_TOKEN: int := 512

  /** The answers of the engine and of the allocator during one call. */
  datatype Engine = Engine(
    hasEncoder: bool,       // llama_model_has_encoder
    hasDecoder: bool,       // llama_model_has_decoder
    hasVocab: bool,         // llama_model_get_vocab != NULL
    embeddingAllocOk: bool, // sqlite3_malloc64 of the embedding vector
    sizing: int,            // llama_tokenize with no output buffer
    tokenAllocOk: bool,     // sqlite3_malloc64 of a larger token buffer
    tokenized: int,         // llama_tokenize into the token buffer
    tokenIds: seq<int>,     // the tokens that call writes
    hasMemory: bool,        // llama_get_memory != NULL
    decodeRc: int,          // llama_decode
    encodeRc: int,          // llama_encode
    hasEmbeddings: bool)    // llama_get_embeddings != NULL
  {
    /** What llama.cpp promises: 32-bit counts, a sizing answer that is a token count or
        its negation, and as many tokens written as the second call reports. */
    predicate Valid()
    {
      && INT32_MIN < sizing <= INT32_MAX && IsInt32(tokenized)
      && (tokenized >= 0 ==> |tokenIds| == tokenized)
    }
  }

  datatype EmbedError =
    | EncoderDecoder
    | NoDecoder
    | NoVocab
    | EmbeddingNoMem
    | NoTokens
    | TooBig(nTokens: int, maxTokens: int)
    | TokensNoMem(count: int)
    | Mismatch(got: int, expected: int)
    | RunFailed(decoded: bool)
    | NoEmbeddings(decoded: bool)

  /** How a call ends: an error, or an embedding computed by `llama_decode` (`decoded`)
      or `llama_encode`, returned normalised or not, as JSON text or as a blob. */
  datatype Outcome = Failed(error: EmbedError) | Embedded(decoded: bool, normalized: bool, json: bool)

  /** The result code of a failed call. */
  function ErrorCode(e: EmbedError): (rc: int)
    ensures rc == SQLITE_NOMEM <==> e.EmbeddingNoMem? || e.TokensNoMem?
    ensures rc == SQLITE_TOOBIG <==> e.TooBig?
    ensures rc in {SQLITE_ERROR, SQLITE_NOMEM, SQLITE_TOOBIG}
  {
    match e
    case EmbeddingNoMem => SQLITE_NOMEM
    case TokensNoMem(_) => SQLITE_NOMEM
    case TooBig(_, _) => SQLITE_TOOBIG
    case _ => SQLITE_ERROR
  }

  /** The token count from the sizing call: a negative answer is negated (`n *= -1`). */
  function TokenCount(sizing: int): (n: int)
    requires INT32_MIN < sizing <= INT32_MAX
    ensures IsInt32(n) && n >= 0
    ensures n == sizing || n == -sizing
  {
    if sizing < 0 then -sizing else sizing
  }

  /** The size a token buffer is grown to for `n` tokens. */
  function AllocCount(n: int): (c: int)
    ensures c >= n && c >= MIN_ALLOC_TOKEN
    ensures c == n || c == MIN_ALLOC_TOKEN
  {
    if n > MIN_ALLOC_TOKEN then n else MIN_ALLOC_TOKEN
  }

  /** The outcome of one call, and the token buffer's size afterwards, for a buffer of
      `size` tokens. A failed allocation keeps the old buffer (see `TokenBufferStep`). */
  function Generate(e: Engine, o: AiOptionsValue, size: int): (r: (Outcome, int))
    requires e.Valid()
    ensures r.1 >= size
    ensures r.1 != size ==> TokenCount(e.sizing) > size && r.1 == AllocCount(TokenCount(e.sizing))
    ensures r.0.Embedded? ==> TokenCount(e.sizing) <= r.1
  {
    if e.hasEncoder && e.hasDecoder then (Failed(EncoderDecoder), size)
    else if !e.hasDecoder then (Failed(NoDecoder), size)
    else if !e.hasVocab then (Failed(NoVocab), size)
    else if !e.embeddingAllocOk then (Failed(EmbeddingNoMem), size)
    else
      var n := TokenCount(e.sizing);
      if n == 0 then (Failed(NoTokens), size)
      else if o.maxTokens > 0 && n > o.maxTokens then (Failed(TooBig(n, o.maxTokens)), size)
      else if n > size && !e.tokenAllocOk then (Failed(TokensNoMem(AllocCount(n))), size)
      else
        var size' := if n > size then AllocCount(n) else size;
        if e.tokenized != n then (Failed(Mismatch(e.tokenized, n)), size')
        else (Run(e, o), size')
  }

  /** The end of a call once the tokens are in place: `llama_decode` when the model has
      memory, `llama_encode` otherwise, then the embeddings. */
  function Run(e: Engine, o: AiOptionsValue): Outcome
  {
    var decoded := e.hasMemory;
    var rc := if decoded then e.decodeRc else e.encodeRc;
    if rc < 0 then Failed(RunFailed(decoded))
    else if !e.hasEmbeddings then Failed(NoEmbeddings(decoded))
    else Embedded(decoded, o.normalizeEmbedding, o.jsonOutput)
  }

  // ---------------------------------------------------------------------------
  // Properties of a call

  /** The model's shape is checked before anything else, and an encoder-decoder model is
      refused before a model without a decoder. */
  lemma ShapeFirst(e: Engine, o: AiOptionsValue, size: int)
    requires e.Valid() && !(e.hasDecoder && !e.hasEncoder)
    ensures Generate(e, o, size) ==
      (Failed(if e.hasEncoder && e.hasDecoder then EncoderDecoder else NoDecoder), size)
  {
  }

  /** An embedding is only computed for a nonempty text within the token ceiling, and only
      when the tokenizer's two answers agree. */
  lemma EmbeddedWithinLimit(e: Engine, o: AiOptionsValue, size: int)
    requires e.Valid() && Generate(e, o, size).0.Embedded?
    ensures var n := TokenCount(e.sizing);
      && 0 < n && (o.maxTokens <= 0 || n <= o.maxTokens) && e.tokenized == n
      && e.hasDecoder && !e.hasEncoder && e.hasVocab
  {
  }

  /** `max_tokens == 0` is no limit at all; with a limit, a text over it is refused with
      `SQLITE_TOOBIG` before any token buffer is touched. */
  lemma MaxTokensCeiling(e: Engine, o: AiOptionsValue, size: int)
    requires e.Valid()
    ensures o.maxTokens == 0 ==> !Generate(e, o, size).0.Failed? || !Generate(e, o, size).0.error.TooBig?
    ensures var r := Generate(e, o, size);
      r.0.Failed? && r.0.error.TooBig? ==>
        && r.0.error == TooBig(TokenCount(e.sizing), o.maxTokens)
        && o.maxTokens > 0 && TokenCount(e.sizing) > o.maxTokens
        && r.1 == size && ErrorCode(r.0.error) == SQLITE_TOOBIG
  {
  }

  /** The token buffer never shrinks; it grows only for a text with more tokens than it
      holds, to that many tokens but at least `MIN_ALLOC_TOKEN`; when tokenization is
      reached it holds the text's tokens. */
  lemma TokenBufferGrowth(e: Engine, o: AiOptionsValue, size: int)
    requires e.Valid()
    ensures var r := Generate(e, o, size); var n := TokenCount(e.sizing);
      && r.1 >= size
      && (r.1 != size ==> n > size && r.1 == AllocCount(n))
      && ((r.0.Embedded? || (r.0.Failed? && (r.0.error.Mismatch? || r.0.error.RunFailed? || r.0.error.NoEmbeddings?)))
          ==> n <= r.1)
  {
  }

  /** A negative sizing answer counts as many tokens as its negation. */
  lemma SizingSign(e: Engine, o: AiOptionsValue, size: int)
    requires e.Valid() && e.sizing > 0
    ensures e.(sizing := -e.sizing).Valid()
    ensures Generate(e.(sizing := -e.sizing), o, size) == Generate(e, o, size)
  {
  }

  /** `llama_decode` runs when the context has memory, `llama_encode` otherwise. */
  lemma DecodeChoice(e: Engine, o: AiOptionsValue, size: int)
    requires e.Valid()
    ensures var out := Generate(e, o, size).0;
      && (out.Embedded? ==> out.decoded == e.hasMemory)
      && (out.Failed? && (out.error.RunFailed? || out.error.NoEmbeddings?) ==> out.error.decoded == e.hasMemory)
  {
  }

  // ---------------------------------------------------------------------------
  // The token buffer on its own

  /** Whether a token buffer is allocated, and the size recorded for it. */
  datatype TokenBuffer = TokenBuffer(present: bool, size: int)

  /** Step 2 of `ai_embed_generate` as written (src/sqlite-ai.c:302-311): the old buffer is
      freed before the new one is requested, and a failed request leaves no buffer but
      the old size. The answer is whether the call goes on to tokenize. */
  function TokenBufferAsWritten(b: TokenBuffer, n: int, allocOk: bool): (TokenBuffer, bool)
  {
    if n > b.size then
      if !allocOk then (TokenBuffer(false, b.size), false)
      else (TokenBuffer(true, AllocCount(n)), true)
    else (b, true)
  }

  /** Three calls: 600 tokens, then 700 tokens with the allocation failing, then 10
      tokens. The third call skips the allocation because 10 fits the recorded size, and
      tokenizes into a buffer that is not there. */
  lemma TokenBufferAsWrittenLosesBuffer()
    ensures var (b1, ok1) := TokenBufferAsWritten(TokenBuffer(false, 0), 600, true);
            var (b2, ok2) := TokenBufferAsWritten(b1, 700, false);
            var (b3, ok3) := TokenBufferAsWritten(b2, 10, true);
      ok1 && !ok2 && ok3 && !b3.present && 10 <= b3.size
  {
  }

  /** Consistent: an allocated buffer or a size of zero. */
  predicate Consistent(b: TokenBuffer)
  {
    b.size >= 0 && (b.present || b.size == 0)
  }

  /** The same step with the new buffer requested before the old one is released: a failed
      request keeps the old buffer. */
  function TokenBufferStep(b: TokenBuffer, n: int, allocOk: bool): (TokenBuffer, bool)
  {
    if n > b.size then
      if !allocOk then (b, false)
      else (TokenBuffer(true, AllocCount(n)), true)
    else (b, true)
  }

  /** Whenever the step goes on to tokenize `n > 0` tokens, a buffer of at least `n`
      tokens is there, and the buffer stays consistent across calls. */
  lemma TokenBufferStepSafe(b: TokenBuffer, n: int, allocOk: bool)
    requires Consistent(b)
    ensures var (b', ok) := TokenBufferStep(b, n, allocOk);
      && Consistent(b') && b'.size >= b.size
      && (ok && n > 0 ==> b'.present && n <= b'.size)
  {
  }

  /** `Generate` follows `TokenBufferStep` for the size. */
  lemma GenerateUsesStep(e: Engine, o: AiOptionsValue, size: int)
    requires e.Valid()
    requires var n := TokenCount(e.sizing);
      e.hasDecoder && !e.hasEncoder && e.hasVocab && e.embeddingAllocOk && n > 0 && !(o.maxTokens > 0 && n > o.maxTokens)
    ensures var (b', ok) := TokenBufferStep(TokenBuffer(true, size), TokenCount(e.sizing), e.tokenAllocOk);
      && Generate(e, o, size).1 == b'.size
      && (ok <==> !(Generate(e, o, size).0.Failed? && Generate(e, o, size).0.error.TokensNoMem?))
  {
  }

  // ---------------------------------------------------------------------------
  // The state in memory

  /** A `llama_batch` made by `llama_batch_init(n, 0, 1)`: room for `n` tokens with one
      sequence id each. */
  class Batch {
    var token: array<int>
    var pos: array<int>
    var nSeqId: array<int>
    var seqId: array<int>   // seq_id[i][0]
    var logits: array<bool>
    var nTokens: int

    predicate Valid()
      reads this
    {
      && token.Length == pos.Length == nSeqId.Length == seqId.Length == logits.Length
      && token != pos && token != nSeqId && token != seqId
      && pos != nSeqId && pos != seqId && nSeqId != seqId
      && 0 <= nTokens <= token.Length
    }

    /** Entry `i` holds token `tokens[i]` at position `i` in sequence 0, with its logits
        requested, for every token and no more. */
    predicate Holds(tokens: seq<int>)
      reads this, token, pos, nSeqId, seqId, logits
      requires Valid()
    {
      && nTokens == |tokens|
      && forall i :: 0 <= i < nTokens ==>
           token[i] == tokens[i] && pos[i] == i && nSeqId[i] == 1 && seqId[i] == 0 && logits[i]
    }

    constructor (n: nat)
      ensures Valid() && nTokens == 0 && token.Length == n
      ensures fresh(token) && fresh(pos) && fresh(nSeqId) && fresh(seqId) && fresh(logits)
    {
      token := new int[n](_ => 0);
      pos := new int[n](_ => 0);
      nSeqId := new int[n](_ => 0);
      seqId := new int[n](_ => 0);
      logits := new bool[n](_ => false);
      nTokens := 0;
    }

    /** Step 4 of `ai_embed_generate` (src/sqlite-ai.c:322-331): appends the `n` tokens of
        `tokens`, each at its own position in sequence 0 with logits on. */
    method Fill(tokens: array<int>, n: int)
      requires Valid() && nTokens == 0 && 0 <= n <= tokens.Length && n <= token.Length
      requires tokens != token && tokens != pos && tokens != nSeqId && tokens != seqId
      modifies this, token, pos, nSeqId, seqId, logits
      ensures Valid() && Holds(tokens[..n])
      ensures token == old(token) && pos == old(pos) && nSeqId == old(nSeqId)
      ensures seqId == old(seqId) && logits == old(logits)
    {
      var i := 0;
      while i < n
        invariant 0 <= i <= n && nTokens == i && Valid()
        invariant token == old(token) && pos == old(pos) && nSeqId == old(nSeqId)
        invariant seqId == old(seqId) && logits == old(logits)
        invariant forall k :: 0 <= k < i ==>
          token[k] == tokens[k] && pos[k] == k && nSeqId[k] == 1 && seqId[k] == 0 && logits[k]
      {
        token[nTokens] := tokens[i];
        pos[nTokens] := i;
        nSeqId[nTokens] := 1;
        seqId[nTokens] := 0;
        logits[nTokens] := true;
        nTokens := nTokens + 1;
        i := i + 1;
      }
    }
  }

  /** The fields of `ai_context` this part of the extension uses. */
  class AiContext {
    var hasModel: bool
    var tokenBuffer: array?<int>
    var tokenBufferSize: int
    var options: AiOptions

    /** The token buffer holds as many tokens as its recorded size, and there is no size
        without a buffer. */
    predicate Valid()
      reads this
    {
      && 0 <= tokenBufferSize <= INT32_MAX
      && (tokenBuffer == null ==> tokenBufferSize == 0)
      && (tokenBuffer != null ==> tokenBuffer.Length == tokenBufferSize)
    }

    constructor (options: AiOptions)
      ensures Valid() && !hasModel && tokenBuffer == null && this.options == options
    {
      hasModel := false;
      tokenBuffer := null;
      tokenBufferSize := 0;
      this.options := options;
    }

    /** Step 2 (src/sqlite-ai.c:302-311), allocating the new buffer before releasing the old
        one: afterwards the buffer holds at least `n` tokens, or the old buffer is kept. */
    method GrowTokenBuffer(n: int, allocOk: bool) returns (ok: bool)
      requires Valid() && IsInt32(n)
      modifies this
      ensures Valid() && hasModel == old(hasModel) && options == old(options)
      ensures (TokenBuffer(tokenBuffer != null, tokenBufferSize), ok)
           == TokenBufferStep(TokenBuffer(old(tokenBuffer) != null, old(tokenBufferSize)), n, allocOk)
      ensures !ok || n <= old(tokenBufferSize) ==> tokenBuffer == old(tokenBuffer)
      ensures ok && n > old(tokenBufferSize) ==> fresh(tokenBuffer)
    {
      if n > tokenBufferSize {
        var count := AllocCount(n);
        if !allocOk {
          return false;
        }
        tokenBuffer := new int[count](_ => 0);
        tokenBufferSize := count;
      }
      ok := true;
    }
  }

  /** `ai_check_model`: whether the function's context has a model loaded. */
  function CheckModel(ai: AiContext?): (r: bool)
    reads ai
    ensures r ==> ai != null
    ensures ai != null ==> r == ai.hasModel
  {
    ai != null && ai.hasModel
  }

  /** What llama_tokenize writes into the token buffer. */
  method WriteTokens(buffer: array<int>, ids: seq<int>)
    requires |ids| <= buffer.Length
    modifies buffer
    ensures buffer[..|ids|] == ids
  {
    var i := 0;
    while i < |ids|
      invariant 0 <= i <= |ids|
      invariant buffer[..i] == ids[..i]
    {
      buffer[i] := ids[i];
      i := i + 1;
    }
  }

  /** `ai_embed_generate` (src/sqlite-ai.c:237-368) without its floating-point output. It
      asks the model for its shape on its first lines, so it needs `CheckModel` to hold:
      the outcome and the token buffer's new size are those of `Generate`, and whenever the
      engine was run, it was handed a batch holding exactly the text's tokens. */
  method EmbedGenerate(ai: AiContext, e: Engine) returns (out: Outcome, batch: Batch?)
    requires CheckModel(ai) && ai.Valid() && e.Valid()
    modifies ai, ai.tokenBuffer
    ensures ai.Valid() && ai.options == old(ai.options) && ai.hasModel == old(ai.hasModel)
    ensures (out, ai.tokenBufferSize) == Generate(e, ai.options.Value(), old(ai.tokenBufferSize))
    ensures batch != null <==>
      out.Embedded? || (out.Failed? && (out.error.RunFailed? || out.error.NoEmbeddings?))
    ensures batch != null ==> fresh(batch) && batch.Valid() && batch.Holds(e.tokenIds)
  {
    batch := null;
    if e.hasEncoder && e.hasDecoder {
      return Failed(EncoderDecoder), null;
    }
    if !e.hasDecoder {
      return Failed(NoDecoder), null;
    }
    if !e.hasVocab {
      return Failed(NoVocab), null;
    }
    if !e.embeddingAllocOk {
      return Failed(EmbeddingNoMem), null;
    }
    var n := e.sizing;
    if n < 0 {
      n := -n;
    }
    if n == 0 {
      return Failed(NoTokens), null;
    }
    var maxTokens := ai.options.maxTokens;
    if maxTokens > 0 && n > maxTokens {
      return Failed(TooBig(n, maxTokens)), null;
    }
    var grown := ai.GrowTokenBuffer(n, e.tokenAllocOk);
    if !grown {
      return Failed(TokensNoMem(AllocCount(n))), null;
    }
    var tokens := ai.tokenBuffer;
    if e.tokenized != n {
      return Failed(Mismatch(e.tokenized, n)), null;
    }
    out, batch := RunEngine(e, ai.options.Value(), tokens, n);
  }

  /** Steps 3 to 5 (src/sqlite-ai.c:313-340) once the tokenizer has filled `tokens`: the
      batch is built from the tokens and handed to the engine. */
  method RunEngine(e: Engine, o: AiOptionsValue, tokens: array<int>, n: int) returns (out: Outcome, batch: Batch)
    requires e.Valid() && e.tokenized == n >= 0 && n <= tokens.Length
    modifies tokens
    ensures out == Run(e, o)
    ensures fresh(batch) && batch.Valid() && batch.Holds(e.tokenIds)
  {
    WriteTokens(tokens, e.tokenIds);
    batch := new Batch(n);
    batch.Fill(tokens, n);
    var decoded := e.hasMemory;
    var rc := if decoded then e.decodeRc else e.encodeRc;
    if rc < 0 {
      return Failed(RunFailed(decoded)), batch;
    }
    if !e.hasEmbeddings {
      return Failed(NoEmbeddings(decoded)), batch;
    }
    out := Embedded(decoded, o.normalizeEmbedding, o.jsonOutput);
  }
}
