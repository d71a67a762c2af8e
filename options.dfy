/** The `ai_options` record and its option-string callback (src/sqlite-ai.c:48-56,
    80-140), and the copy of the options into llama.cpp's parameter records
    (src/sqlite-ai.c:177-187). */
module Options {
  import opened CTypes
  import opened KeyValue
  import StrToL

  const OPTION_KEY_GENERATE_EMBEDDING: string := "generate_embedding"
  const OPTION_KEY_NORMALIZE_EMBEDDING: string := "normalize_embedding"
  const OPTION_KEY_MAX_TOKENS: string := "max_tokens"
  const OPTION_KEY_JSON_OUTPUT: string := "json_output"
  const OPTION_KEY_GPU_LAYERS: string := "gpu_layers"
  const OPTION_KEY_CONTEXT_SIZE: string := "context_size"

  /** The characters of a value that reach `strtol`: the callback copies at most 255 into
      its 256-byte buffer. */
  const VALUE_BUFFER_MAX: int := 255

  /** The contents of an `ai_options` record. */
  datatype AiOptionsValue = AiOptionsValue(
    maxTokens: int,
    gpuLayers: int,
    contextSize: int,
    generateEmbedding: bool,
    normalizeEmbedding: bool,
    jsonOutput: bool)

  /** The record `ai_options_init` leaves: zero, except that embeddings are normalised;
      `maxTokens == 0` means no limit. */
  function Defaults(): AiOptionsValue
  {
    AiOptionsValue(0, 0, 0, false, true, false)
  }

  // ---------------------------------------------------------------------------
  // Key matching

  function Rest(s: string): string
  {
    if s == [] then [] else s[1..]
  }

  /** `strncasecmp(a, b, n) == 0`: the C strings `a` and `b` agree, ignoring ASCII case,
      on their first `n` characters or up to a common terminator. */
  function StrNCaseEq(a: string, b: string, n: nat): (r: bool)
    ensures NUL !in a && NUL !in b && n <= |a| && n <= |b| ==>
      (r <==> forall i :: 0 <= i < n ==> ToLower(a[i]) == ToLower(b[i]))
    decreases n
  {
    if n == 0 then true
    else if ToLower(At(a, 0)) != ToLower(At(b, 0)) then false
    else if At(a, 0) == NUL then true
    else StrNCaseEq(Rest(a), Rest(b), n - 1)
  }

  /** `key` is, ignoring ASCII case, a prefix of `name`. */
  predicate CasePrefix(key: string, name: string)
  {
    |key| <= |name| && forall i :: 0 <= i < |key| ==> ToLower(key[i]) == ToLower(name[i])
  }

  /** How the callback tests a key: `strncasecmp(key, NAME, key_len) == 0`, over the
      `key_len` characters of the key. */
  predicate Matches(key: string, name: string)
  {
    StrNCaseEq(key, name, |key|)
  }

  /** A key selects an option name exactly when it is a case-insensitive prefix of it:
      `strncasecmp` looks at no more than the key's own length. */
  lemma {:induction false} MatchesIsCasePrefix(key: string, name: string)
    requires NUL !in key && NUL !in name
    ensures Matches(key, name) <==> CasePrefix(key, name)
    decreases |key|
  {
    if key != [] {
      assert key[0] in key;
      if name == [] {
        assert ToLower(At(key, 0)) != ToLower(At(name, 0));
      } else {
        assert name[0] in name;
        assert forall c :: c in key[1..] ==> c in key;
        assert forall c :: c in name[1..] ==> c in name;
        MatchesIsCasePrefix(key[1..], name[1..]);
        if ToLower(key[0]) == ToLower(name[0]) {
          assert Matches(key, name) == Matches(key[1..], name[1..]);
        }
      }
    }
  }

  // ---------------------------------------------------------------------------
  // The callback

  datatype OptionName = GenerateEmbedding | NormalizeEmbedding | MaxTokens | JsonOutput | GpuLayers | ContextSize

  function KeyOf(o: OptionName): string
  {
    match o
    case GenerateEmbedding => OPTION_KEY_GENERATE_EMBEDDING
    case NormalizeEmbedding => OPTION_KEY_NORMALIZE_EMBEDDING
    case MaxTokens => OPTION_KEY_MAX_TOKENS
    case JsonOutput => OPTION_KEY_JSON_OUTPUT
    case GpuLayers => OPTION_KEY_GPU_LAYERS
    case ContextSize => OPTION_KEY_CONTEXT_SIZE
  }

  /** The order in which the callback tries the names. */
  const ORDER: seq<OptionName> := [GenerateEmbedding, NormalizeEmbedding, MaxTokens, JsonOutput, GpuLayers, ContextSize]

  /** The first of `names` that `key` is a case-insensitive prefix of. */
  function FirstPrefixed(key: string, names: seq<OptionName>): (r: Option<OptionName>)
    ensures r.Some? ==> r.value in names && CasePrefix(key, KeyOf(r.value))
    ensures r.None? ==> forall n :: n in names ==> !CasePrefix(key, KeyOf(n))
  {
    if names == [] then None
    else if CasePrefix(key, KeyOf(names[0])) then Some(names[0])
    else FirstPrefixed(key, names[1..])
  }

  /** The option a key names. */
  function Selected(key: string): Option<OptionName>
  {
    FirstPrefixed(key, ORDER)
  }

  /** The number the callback reads from a value: `(int)strtol(buffer, NULL, 0)` on its
      first 255 characters. */
  function OptionValue(value: string): (v: int)
    ensures IsInt32(v)
  {
    var len := if |value| > VALUE_BUFFER_MAX then VALUE_BUFFER_MAX else |value|;
    ToInt32(StrToL.StrToL(value[..len]))
  }

  /** What setting `name` to `v` does to the record. */
  function Assign(o: AiOptionsValue, name: OptionName, v: int): AiOptionsValue
  {
    match name
    case GenerateEmbedding => o.(generateEmbedding := v != 0)
    case NormalizeEmbedding => o.(normalizeEmbedding := v != 0)
    case MaxTokens => if v >= 0 then o.(maxTokens := v) else o
    case JsonOutput => o.(jsonOutput := v != 0)
    case GpuLayers => o.(gpuLayers := v)
    case ContextSize => o.(contextSize := v)
  }

  /** `ai_options_callback` as a function of the record it updates: the new record and
      whether the parse may go on. */
  function OptionStep(o: AiOptionsValue, key: string, value: string): (AiOptionsValue, bool)
  {
    if |key| == 0 || |value| == 0 then (o, false)
    else
      var v := OptionValue(value);
      if Matches(key, OPTION_KEY_GENERATE_EMBEDDING) then (o.(generateEmbedding := v != 0), true)
      else if Matches(key, OPTION_KEY_NORMALIZE_EMBEDDING) then (o.(normalizeEmbedding := v != 0), true)
      else if Matches(key, OPTION_KEY_MAX_TOKENS) then (if v >= 0 then o.(maxTokens := v) else o, true)
      else if Matches(key, OPTION_KEY_JSON_OUTPUT) then (o.(jsonOutput := v != 0), true)
      else if Matches(key, OPTION_KEY_GPU_LAYERS) then (o.(gpuLayers := v), true)
      else if Matches(key, OPTION_KEY_CONTEXT_SIZE) then (o.(contextSize := v), true)
      else (o, true)
  }

  lemma NamesAreNulFree()
    ensures forall n: OptionName :: NUL !in KeyOf(n)
  {
  }

  /** `Selected` spelled out along `ORDER`. */
  lemma SelectedChain(key: string)
    ensures Selected(key) ==
      if CasePrefix(key, OPTION_KEY_GENERATE_EMBEDDING) then Some(GenerateEmbedding)
      else if CasePrefix(key, OPTION_KEY_NORMALIZE_EMBEDDING) then Some(NormalizeEmbedding)
      else if CasePrefix(key, OPTION_KEY_MAX_TOKENS) then Some(MaxTokens)
      else if CasePrefix(key, OPTION_KEY_JSON_OUTPUT) then Some(JsonOutput)
      else if CasePrefix(key, OPTION_KEY_GPU_LAYERS) then Some(GpuLayers)
      else if CasePrefix(key, OPTION_KEY_CONTEXT_SIZE) then Some(ContextSize)
      else None
  {
    var o1 := [NormalizeEmbedding, MaxTokens, JsonOutput, GpuLayers, ContextSize];
    var o2 := [MaxTokens, JsonOutput, GpuLayers, ContextSize];
    var o3 := [JsonOutput, GpuLayers, ContextSize];
    var o4 := [GpuLayers, ContextSize];
    var o5 := [ContextSize];
    assert ORDER[1..] == o1 && o1[1..] == o2 && o2[1..] == o3 && o3[1..] == o4 && o4[1..] == o5 && o5[1..] == [];
    assert FirstPrefixed(key, o5) == if CasePrefix(key, OPTION_KEY_CONTEXT_SIZE) then Some(ContextSize) else None;
    assert FirstPrefixed(key, o4) == if CasePrefix(key, OPTION_KEY_GPU_LAYERS) then Some(GpuLayers) else FirstPrefixed(key, o5);
    assert FirstPrefixed(key, o3) == if CasePrefix(key, OPTION_KEY_JSON_OUTPUT) then Some(JsonOutput) else FirstPrefixed(key, o4);
    assert FirstPrefixed(key, o2) == if CasePrefix(key, OPTION_KEY_MAX_TOKENS) then Some(MaxTokens) else FirstPrefixed(key, o3);
    assert FirstPrefixed(key, o1) == if CasePrefix(key, OPTION_KEY_NORMALIZE_EMBEDDING) then Some(NormalizeEmbedding) else FirstPrefixed(key, o2);
  }

  /** The callback sets the first option, in `ORDER`, whose name the key is a
      case-insensitive prefix of, to the value read from the value text; it refuses an
      empty key or an empty value and ignores any other key. */
  lemma OptionStepSelects(o: AiOptionsValue, key: string, value: string)
    requires NUL !in key
    ensures OptionStep(o, key, value).1 <==> |key| > 0 && |value| > 0
    ensures |key| > 0 && |value| > 0 ==>
      OptionStep(o, key, value).0 == match Selected(key)
        case Some(n) => Assign(o, n, OptionValue(value))
        case None => o
    ensures |key| == 0 || |value| == 0 ==> OptionStep(o, key, value).0 == o
  {
    if |key| > 0 && |value| > 0 {
      NamesAreNulFree();
      MatchesIsCasePrefix(key, OPTION_KEY_GENERATE_EMBEDDING);
      MatchesIsCasePrefix(key, OPTION_KEY_NORMALIZE_EMBEDDING);
      MatchesIsCasePrefix(key, OPTION_KEY_MAX_TOKENS);
      MatchesIsCasePrefix(key, OPTION_KEY_JSON_OUTPUT);
      MatchesIsCasePrefix(key, OPTION_KEY_GPU_LAYERS);
      MatchesIsCasePrefix(key, OPTION_KEY_CONTEXT_SIZE);
      SelectedChain(key);
      var v := OptionValue(value);
      match Selected(key)
      case Some(n) =>
        assert OptionStep(o, key, value).0 == Assign(o, n, v);
      case None =>
        assert OptionStep(o, key, value).0 == o;
    }
  }

  /** One differing character, ignoring case, and `key` does not select `name`. */
  lemma DiffersAt(key: string, name: string, i: nat)
    requires i < |key| && i < |name| && ToLower(key[i]) != ToLower(name[i])
    ensures !CasePrefix(key, name)
  {
  }

  /** Earlier names win: `g` and `G` mean `generate_embedding`, not `gpu_layers`. */
  lemma SelectedG()
    ensures Selected("g") == Some(GenerateEmbedding)
    ensures Selected("G") == Some(GenerateEmbedding)
  {
    assert CasePrefix("G", OPTION_KEY_GENERATE_EMBEDDING);
    SelectedChain("g");
    SelectedChain("G");
  }

  /** `gp` is the shortest key for `gpu_layers`. */
  lemma SelectedGp()
    ensures Selected("gp") == Some(GpuLayers)
  {
    DiffersAt("gp", OPTION_KEY_GENERATE_EMBEDDING, 1);
    DiffersAt("gp", OPTION_KEY_NORMALIZE_EMBEDDING, 0);
    DiffersAt("gp", OPTION_KEY_MAX_TOKENS, 0);
    DiffersAt("gp", OPTION_KEY_JSON_OUTPUT, 0);
    assert CasePrefix("gp", OPTION_KEY_GPU_LAYERS);
    SelectedChain("gp");
  }

  /** Case does not matter. */
  lemma SelectedMax()
    ensures Selected("Max") == Some(MaxTokens)
  {
    DiffersAt("Max", OPTION_KEY_GENERATE_EMBEDDING, 0);
    DiffersAt("Max", OPTION_KEY_NORMALIZE_EMBEDDING, 0);
    assert CasePrefix("Max", OPTION_KEY_MAX_TOKENS);
    SelectedChain("Max");
  }

  /** A key never selects a name shorter than itself, so a key longer than every name
      selects nothing. */
  lemma SelectedTooLong(key: string)
    ensures Selected(key).Some? ==> |key| <= |KeyOf(Selected(key).value)|
    ensures (forall o: OptionName :: |KeyOf(o)| < |key|) ==> Selected(key) == None
  {
    if Selected(key).Some? {
      assert CasePrefix(key, KeyOf(Selected(key).value));
    }
  }

  /** One character past `context_size` selects nothing, though no name is that long
      and differs from it only at its end. */
  lemma SelectedPastName()
    ensures Selected("context_size_") == None
  {
    DiffersAt("context_size_", OPTION_KEY_GENERATE_EMBEDDING, 0);
    DiffersAt("context_size_", OPTION_KEY_NORMALIZE_EMBEDDING, 0);
    DiffersAt("context_size_", OPTION_KEY_MAX_TOKENS, 0);
    DiffersAt("context_size_", OPTION_KEY_JSON_OUTPUT, 0);
    DiffersAt("context_size_", OPTION_KEY_GPU_LAYERS, 0);
    SelectedChain("context_size_");
  }

  /** What every record the callbacks build keeps: `max_tokens` never negative, and the
      `int` fields within 32 bits. */
  predicate Sane(o: AiOptionsValue)
  {
    o.maxTokens >= 0 && IsInt32(o.maxTokens) && IsInt32(o.gpuLayers) && IsInt32(o.contextSize)
  }

  lemma OptionStepSane(o: AiOptionsValue, key: string, value: string)
    requires Sane(o)
    ensures Sane(OptionStep(o, key, value).0)
  {
  }

  /** A whole option string keeps the record sane, whatever it holds. */
  lemma {:induction false} FeedSane(pairs: seq<Pair>, o: AiOptionsValue)
    requires Sane(o)
    ensures Sane(Feed(pairs, OptionStep, o).0)
  {
    if pairs != [] {
      OptionStepSane(o, pairs[0].key, pairs[0].value);
      FeedSane(pairs[1..], OptionStep(o, pairs[0].key, pairs[0].value).0);
    }
  }

  lemma {:induction false} SkipAllSpace(w: string)
    requires forall k :: 0 <= k < |w| ==> IsSpace(w[k])
    ensures LTrim(w) == []
  {
    if w != [] {
      SkipAllSpace(w[1..]);
    }
  }

  /** Only the first 255 characters of a value are read: a numeral after 255 blanks is
      lost. */
  lemma ValueTruncated(w: string, rest: string)
    requires |w| == VALUE_BUFFER_MAX && forall k :: 0 <= k < |w| ==> IsSpace(w[k])
    ensures OptionValue(w + rest) == 0
  {
    assert (w + rest)[..VALUE_BUFFER_MAX] == w;
    SkipAllSpace(w);
  }

  /** Boolean options take numbers: `true` switches an option off. */
  lemma TrueIsFalse(o: AiOptionsValue)
    ensures OptionStep(o, "json_output", "true") == (o.(jsonOutput := false), true)
  {
    StrToL.StrToLTrue();
    assert "true"[..4] == "true";
    assert Matches("json_output", OPTION_KEY_JSON_OUTPUT) by {
      MatchesIsCasePrefix("json_output", OPTION_KEY_JSON_OUTPUT);
    }
    assert !Matches("json_output", OPTION_KEY_GENERATE_EMBEDDING) by {
      MatchesIsCasePrefix("json_output", OPTION_KEY_GENERATE_EMBEDDING);
    }
    assert !Matches("json_output", OPTION_KEY_NORMALIZE_EMBEDDING) by {
      MatchesIsCasePrefix("json_output", OPTION_KEY_NORMALIZE_EMBEDDING);
    }
    assert !Matches("json_output", OPTION_KEY_MAX_TOKENS) by {
      MatchesIsCasePrefix("json_output", OPTION_KEY_MAX_TOKENS);
    }
  }

  lemma PairsOfOne(seg: string, j: nat)
    requires ',' !in seg && j < |seg| && seg[j] == '=' && '=' !in seg[..j]
    ensures Pairs(seg) == [Pair(Trim(seg[..j]), Trim(seg[j + 1..]))]
  {
    assert seg[..|seg|] == seg;
    IndexOfIs(seg, ',', |seg|);
    IndexOfIs(seg, '=', j);
  }

  /** One segment `key=value` whose halves need no trimming yields exactly that pair. */
  lemma PairsOfSegment(key: string, value: string)
    requires key != [] && Trimmed(key) && '=' !in key && ',' !in key
    requires value != [] && Trimmed(value) && ',' !in value
    ensures Pairs(key + ['='] + value) == [Pair(key, value)]
  {
    var seg := key + ['='] + value;
    assert seg[..|key|] == key && seg[|key| + 1..] == value;
    PairsOfOne(seg, |key|);
    LTrimSkips(key, 0);
    RTrimDrops(key, |key|);
    LTrimSkips(value, 0);
    RTrimDrops(value, |value|);
  }

  lemma ExampleMaxTokens()
    ensures OptionStep(Defaults(), "max_tokens", "5") == (Defaults().(maxTokens := 5), true)
  {
    assert OptionValue("5") == 5 by {
      assert "5"[..1] == "5";
      StrToL.StrToLNumeral(5);
      assert StrToL.Numeral(5) == "5";
    }
    assert Selected("max_tokens") == Some(MaxTokens) by {
      assert CasePrefix("max_tokens", OPTION_KEY_MAX_TOKENS);
      DiffersAt("max_tokens", OPTION_KEY_GENERATE_EMBEDDING, 0);
      DiffersAt("max_tokens", OPTION_KEY_NORMALIZE_EMBEDDING, 0);
      SelectedChain("max_tokens");
    }
    OptionStepSelects(Defaults(), "max_tokens", "5");
  }

  lemma ExampleGpuLayers(o: AiOptionsValue)
    ensures OptionStep(o, "gp", "0x10") == (o.(gpuLayers := 16), true)
  {
    assert OptionValue("0x10") == 16 by {
      assert "0x10"[..4] == "0x10";
      assert LTrim("0x10") == "0x10";
      assert "0x10"[2..] == "10";
      assert StrToL.Accumulate("10", 16, 0) == 16;
    }
    SelectedGp();
    OptionStepSelects(o, "gp", "0x10");
  }

  /** Two segments with one `=`-less segment between them yield the two pairs. */
  lemma PairsOfThree(k1: string, v1: string, junk: string, k2: string, v2: string)
    requires k1 != [] && Trimmed(k1) && '=' !in k1 && ',' !in k1
    requires v1 != [] && Trimmed(v1) && ',' !in v1
    requires '=' !in junk && ',' !in junk
    requires k2 != [] && Trimmed(k2) && '=' !in k2 && ',' !in k2
    requires v2 != [] && Trimmed(v2) && ',' !in v2
    ensures Pairs(k1 + ['='] + v1 + [','] + junk + [','] + (k2 + ['='] + v2)) == [Pair(k1, v1), Pair(k2, v2)]
  {
    var a, c := k1 + ['='] + v1, k2 + ['='] + v2;
    var tail := junk + [','] + c;
    assert a + [','] + junk + [','] + c == a + [','] + tail;
    PairsJoin(junk, c);
    PairsNeedEquals(junk);
    assert Pairs(tail) == Pairs(c);
    PairsJoin(a, tail);
    PairsOfSegment(k1, v1);
    PairsOfSegment(k2, v2);
  }

  /** `max_tokens=5,junk,gp=0x10` from the defaults: the segment without `=` is skipped,
      `gp` selects `gpu_layers`, and `0x10` is read as hexadecimal. */
  lemma ParseExample()
    ensures Feed(Pairs("max_tokens" + "=" + "5" + "," + "junk" + "," + ("gp" + "=" + "0x10")), OptionStep, Defaults())
         == (Defaults().(maxTokens := 5, gpuLayers := 16), true)
  {
    PairsOfThree("max_tokens", "5", "junk", "gp", "0x10");
    FeedExample();
  }

  lemma FeedExample()
    ensures Feed([Pair("max_tokens", "5"), Pair("gp", "0x10")], OptionStep, Defaults())
         == (Defaults().(maxTokens := 5, gpuLayers := 16), true)
  {
    ExampleMaxTokens();
    var o1 := Defaults().(maxTokens := 5);
    ExampleGpuLayers(o1);
    var p1, p2 := Pair("max_tokens", "5"), Pair("gp", "0x10");
    FeedCons(p1, [p2], OptionStep, Defaults());
    FeedCons(p2, [], OptionStep, o1);
    assert [p1, p2] == [p1] + [p2] && [p2] == [p2] + [];
  }

  // ---------------------------------------------------------------------------
  // The record in memory

  class AiOptions {
    var maxTokens: int
    var gpuLayers: int
    var contextSize: int
    var generateEmbedding: bool
    var normalizeEmbedding: bool
    var jsonOutput: bool

    function Value(): AiOptionsValue
      reads this
    {
      AiOptionsValue(maxTokens, gpuLayers, contextSize, generateEmbedding, normalizeEmbedding, jsonOutput)
    }

    /** A fresh record, initialised as `ai_context_create` does. */
    constructor ()
      ensures Value() == Defaults()
    {
      new;
      Init();
    }

    /** `ai_options_init` (src/sqlite-ai.c:80-85). */
    method Init()
      modifies this
      ensures Value() == Defaults()
    {
      maxTokens, gpuLayers, contextSize := 0, 0, 0;
      generateEmbedding, normalizeEmbedding, jsonOutput := false, false, false;
      normalizeEmbedding := true;
      maxTokens := 0;
    }

    /** `ai_options_callback` (src/sqlite-ai.c:87-140) on this record, for the `key_len`
        characters of `key` and the `value_len` characters of `value`. */
    method Callback(key: string, value: string) returns (ok: bool)
      modifies this
      ensures (Value(), ok) == OptionStep(old(Value()), key, value)
    {
      if |key| == 0 {
        return false;
      }
      if |value| == 0 {
        return false;
      }
      var len := if |value| > VALUE_BUFFER_MAX then VALUE_BUFFER_MAX else |value|;
      var buffer := value[..len];
      if Matches(key, OPTION_KEY_GENERATE_EMBEDDING) {
        var v := ToInt32(StrToL.StrToL(buffer));
        generateEmbedding := v != 0;
        return true;
      }
      if Matches(key, OPTION_KEY_NORMALIZE_EMBEDDING) {
        var v := ToInt32(StrToL.StrToL(buffer));
        normalizeEmbedding := v != 0;
        return true;
      }
      if Matches(key, OPTION_KEY_MAX_TOKENS) {
        var v := ToInt32(StrToL.StrToL(buffer));
        if v >= 0 {
          maxTokens := v;
        }
        return true;
      }
      if Matches(key, OPTION_KEY_JSON_OUTPUT) {
        var v := ToInt32(StrToL.StrToL(buffer));
        jsonOutput := v != 0;
        return true;
      }
      if Matches(key, OPTION_KEY_GPU_LAYERS) {
        var v := ToInt32(StrToL.StrToL(buffer));
        gpuLayers := v;
        return true;
      }
      if Matches(key, OPTION_KEY_CONTEXT_SIZE) {
        var v := ToInt32(StrToL.StrToL(buffer));
        contextSize := v;
        return true;
      }
      return true;
    }
  }

  /** `parse_keyvalue_string(context, text, ai_options_callback, &options)`: the record
      after the parse is the callbacks' fold over the pairs of the text. */
  method ParseOptions(options: AiOptions, text: Option<string>) returns (ok: bool)
    modifies options
    ensures text.None? ==> ok && options.Value() == old(options.Value())
    ensures text.Some? ==> (options.Value(), ok) == Feed(Pairs(Text(text.value)), OptionStep, old(options.Value()))
    ensures Sane(old(options.Value())) ==> Sane(options.Value())
  {
    var o;
    ok, o := ParseKeyValueString(text, OptionStep, options.Value());
    if text.Some? && Sane(options.Value()) {
      FeedSane(Pairs(Text(text.value)), options.Value());
    }
    options.maxTokens, options.gpuLayers, options.contextSize := o.maxTokens, o.gpuLayers, o.contextSize;
    options.generateEmbedding, options.normalizeEmbedding, options.jsonOutput :=
      o.generateEmbedding, o.normalizeEmbedding, o.jsonOutput;
  }

  // ---------------------------------------------------------------------------
  // llama.cpp parameter records

  /** The field of `struct llama_model_params` the options touch (`int32_t`). */
  class LlamaModelParams {
    var nGpuLayers: int
    constructor (nGpuLayers: int)
      ensures this.nGpuLayers == nGpuLayers
    {
      this.nGpuLayers := nGpuLayers;
    }
  }

  /** The fields of `struct llama_context_params` the options touch (`n_ctx` and
      `n_batch` are `uint32_t`). */
  class LlamaContextParams {
    var nCtx: int
    var nBatch: int
    var embeddings: bool
    constructor (nCtx: int, nBatch: int, embeddings: bool)
      ensures this.nCtx == nCtx && this.nBatch == nBatch && this.embeddings == embeddings
    {
      this.nCtx, this.nBatch, this.embeddings := nCtx, nBatch, embeddings;
    }
  }

  /** `ai_set_model_options` (src/sqlite-ai.c:177-179): a nonzero `gpu_layers` overrides
      the default layer count; zero keeps it. */
  method SetModelOptions(params: LlamaModelParams, options: AiOptions)
    modifies params
    ensures params.nGpuLayers == if options.gpuLayers != 0 then options.gpuLayers else old(params.nGpuLayers)
  {
    if options.gpuLayers != 0 {
      params.nGpuLayers := options.gpuLayers;
    }
  }

  /** `ai_set_llama_options` (src/sqlite-ai.c:181-187): embeddings are switched on, never
      off; a nonzero `context_size` becomes both the context and the batch size, converted
      to `uint32_t` (a negative size wraps around to a large one). */
  method SetLlamaOptions(params: LlamaContextParams, options: AiOptions)
    modifies params
    ensures params.embeddings == (old(params.embeddings) || options.generateEmbedding)
    ensures options.contextSize != 0 ==>
      params.nCtx == params.nBatch == ToUint32(options.contextSize)
    ensures options.contextSize == 0 ==>
      params.nCtx == old(params.nCtx) && params.nBatch == old(params.nBatch)
  {
    if options.generateEmbedding {
      params.embeddings := true;
    }
    if options.contextSize != 0 {
      params.nCtx := ToUint32(options.contextSize);
      params.nBatch := ToUint32(options.contextSize);
    }
  }
}
