# sqlite-ai: a verified model of the extension's own logic

sqlite-ai is a SQLite extension that runs llama.cpp models from SQL. It exposes SQL
functions such as `ai_embed(text [, options])`. Most of its work is done by llama.cpp.
What the extension itself decides is modelled here:

- **Option strings.** `key=value,key=value` text is split into pairs and handed to a
  callback (`parse_keyvalue_string`, module `KeyValue`). Its scanning loop is
  proved to hand exactly the pairs of a reference definition, `Pairs`, to the callback,
  left to right, and to stop at the first refusal.
- **The `ai_options` record.** This covers its defaults, and the callback that matches
  keys case-insensitively by prefix and reads values with `strtol(…, NULL, 0)` (modules
  `Options` and `StrToL`). It also covers the copy of the record into llama.cpp's model
  and context parameter records.
- **The growable character buffer `buffer_t`.** This is modelled as a class over an
  array (module `Buffers`).
- **The checks every SQL function makes on its arguments** (module `Sanity`), and
  `sqlite_strdup` (module `StrDup`).
- **UUID version 7.** This covers the byte layout and the text form, per section 5.7 of
  RFC 9562 (module `Uuid`).
- **The log hook's level tags** (module `Logger`).
- **The control flow of embedding generation** (module `Embedding`). This covers:
  - the order of the error checks;
  - the `max_tokens` ceiling;
  - the reusable token buffer;
  - the batch built from the tokens;
  - the choice between `llama_decode` and `llama_encode`.

  Every llama.cpp answer is an input, recorded in an `Engine` value.

C strings are `seq<char>` read through `At` (NUL at and past the end) and `CLen`
(`strlen`). `int32_t`/`uint32_t` conversions are written out as `ToInt32`/`ToUint32`.
Whether `sqlite3_malloc`/`sqlite3_realloc` succeed is a parameter, `allocOk`. `Granted`
combines it with the allocator's own limits: it refuses zero bytes and anything above
`INT_MAX`.

The code as written, which the model follows:
- The embedding path has no context-window check.
- Tokens are not split into chunks; one batch holds them all.
- No cache is cleared.
- Every token of the batch requests logits, not only the last.
- There is no numeric output encoding other than a float blob or JSON.
- The options record has only the six fields of `ai_options`.

## Model

| member | source | states |
|---|---|---|
| KeyValue.SkipSpaces | src/utils.c:36 | `SKIP_SPACES` stops on the terminator or the first non-blank, and only blanks lie behind it |
| KeyValue.ScanTo | src/utils.c:511 | the scan stops on the first terminator or `,` (or `=` in the key scan), none of which lies before it |
| KeyValue.TrimTrailing | src/utils.c:37 | `TRIM_TRAILING` drops exactly the trailing blanks: what it drops is blank, and what it keeps ends in a non-blank |
| KeyValue.ScanKey | src/utils.c:508-514 | the key scan stops on the segment's first `=`, or on its end, and the key it delimits is the text before that `=`, trimmed |
| KeyValue.KeyScanStops | src/utils.c:511 | the key loop's stopping point is the segment's first `=`, or its end |
| KeyValue.KeyTrimmed | src/utils.c:508-514 | the span the key scan and `TRIM_TRAILING` delimit is the trimmed text before the `=` |
| KeyValue.ScanValue | src/utils.c:523-530 | from the `=`, the value scan stops on the segment's end, and the value is the text after the first `=`, trimmed |
| KeyValue.ValueScanStops | src/utils.c:527 | the value loop stops exactly at the segment's end |
| KeyValue.ValueTrimmed | src/utils.c:523-530 | the span the value scan delimits is the trimmed text after the first `=` |
| KeyValue.SkipScanned | src/utils.c:516-521 | skipping a malformed segment ends exactly at that segment's end |
| KeyValue.ScanSegment | src/utils.c:508-530 | one iteration ends at its segment's end, and finds a pair exactly when the segment has a `=`; that pair is the reference one |
| KeyValue.FeedSegment | src/utils.c:532-535 | handing the segment's pair (if any) to the callback and going on is the same as feeding all the pairs from that segment on |
| KeyValue.ParseKeyValueString | src/utils.c:503-539 | NULL succeeds with no call. Otherwise the result and the callback's final state are those of feeding `Pairs` of the C string, in order, stopping at the first refusal |
| KeyValue.PairsStep | src/utils.c:507-536 | a segment's pair, if any, comes before the pairs of the text after its `,` |
| KeyValue.PairsAtComma | src/utils.c:535 | a segment closed by `,` contributes its pair ahead of everything after the comma |
| KeyValue.PairsAtEnd | src/utils.c:507 | the last segment contributes only its own pair |
| KeyValue.IndexOfIs | src/utils.c:511 | the position of the first occurrence of a character is the one with no occurrence before it |
| KeyValue.IndexOfFirst | src/utils.c:511 | nothing before the first occurrence is that character |
| KeyValue.LTrimShape | src/utils.c:36 | leading-blank removal keeps a suffix that does not start with a blank |
| KeyValue.RTrimShape | src/utils.c:37 | trailing-blank removal keeps a prefix that does not end with a blank |
| KeyValue.TrimShape | src/utils.c:508-530 | a trimmed key or value has no blank at either end and holds only characters of its segment |
| KeyValue.SegmentPairWellFormed | src/utils.c:516-530 | a segment yields no pair exactly when it has no `=`, and any pair it yields is well formed |
| KeyValue.PairsWellFormed | src/utils.c:508-530 | every pair handed on has trimmed halves, a key free of `=` and `,`, and a value free of `,` |
| KeyValue.PairsNeedEquals | src/utils.c:516-521 | a text without any `=` produces no callback at all |
| KeyValue.PairsJoin | src/utils.c:503-539 | joining two option strings with `,` concatenates their pairs |
| KeyValue.FeedVisitsAll | src/utils.c:532-538 | with a callback that never refuses, every pair is handed on exactly once, in order, and the parse succeeds |
| KeyValue.FeedStopsAtRefusal | src/utils.c:532-533 | once a callback refuses, the parse fails and nothing after that pair matters |
| StrToL.StrToL | src/sqlite-ai.c:103 | `strtol(s, NULL, 0)` lies within `[LONG_MIN, LONG_MAX]` |
| StrToL.AccumulateDecimal | src/sqlite-ai.c:103 | reading a decimal numeral digit by digit gives back its number |
| StrToL.MagnitudeDecimal | src/sqlite-ai.c:103 | base 0 reads a decimal numeral as decimal: neither the `0x` nor the octal prefix is triggered |
| StrToL.StrToLNumeral | src/sqlite-ai.c:103 | every `long` printed in decimal is read back unchanged |
| StrToL.StrToLSkipsSpace | src/sqlite-ai.c:103 | leading white space does not change the value |
| StrToL.StrToLWord | src/sqlite-ai.c:103 | text whose first character after the leading white space and an optional sign is not a decimal digit reads as 0 |
| StrToL.StrToLTrue | src/sqlite-ai.c:103 | `true` reads as 0 |
| StrToL.StrToLBases | src/sqlite-ai.c:103 | `0x1F` reads as 31 and `010` as 8: the base follows the prefix |
| StrToL.StrToLSaturates | src/sqlite-ai.c:103 | values beyond `long` saturate to `LONG_MAX` and `LONG_MIN` |
| Options.AiOptions.Init | src/sqlite-ai.c:80-85 | every field is zero or false except `normalize_embedding`, which is true; `max_tokens` is 0, meaning no limit |
| Options.AiOptions.constructor | src/sqlite-ai.c:142-147 | a new context's options hold the defaults |
| Options.StrNCaseEq | src/sqlite-ai.c:102 | `strncasecmp(a, b, n) == 0` on terminator-free text at least `n` long holds exactly when the first `n` characters agree ignoring ASCII case |
| Options.MatchesIsCasePrefix | src/sqlite-ai.c:102 | `strncasecmp(key, NAME, key_len) == 0` holds exactly when the key is a case-insensitive prefix of the name |
| Options.FirstPrefixed | src/sqlite-ai.c:102-139 | the selected name is one the key is a case-insensitive prefix of, and there is none exactly when no name qualifies |
| Options.SelectedChain | src/sqlite-ai.c:102-136 | the names are tried in the source's fixed order, and the first match wins |
| Options.OptionValue | src/sqlite-ai.c:98-103 | the number read from a value fits `int` |
| Options.OptionStepSelects | src/sqlite-ai.c:87-140 | empty key or value: refuse, change nothing. Otherwise: accept, and set the first matching option to the value read (none for an unknown key) |
| Options.AiOptions.Callback | src/sqlite-ai.c:87-140 | the record after the callback, and its answer, are those of `OptionStep` on the record before |
| Options.SelectedG | src/sqlite-ai.c:102-130 | `g` and `G` select `generate_embedding`, not `gpu_layers`: earlier names win |
| Options.SelectedGp | src/sqlite-ai.c:126 | `gp` selects `gpu_layers` |
| Options.SelectedMax | src/sqlite-ai.c:114 | `Max` selects `max_tokens`: case does not matter |
| Options.SelectedTooLong | src/sqlite-ai.c:102-139 | a key never selects a name shorter than itself, so a key longer than every name selects nothing |
| Options.SelectedPastName | src/sqlite-ai.c:132-139 | `context_size_` selects nothing |
| Options.ValueTruncated | src/sqlite-ai.c:98-100 | only the first 255 characters of a value are read: a numeral after 255 blanks is lost |
| Options.TrueIsFalse | src/sqlite-ai.c:120-124 | `json_output=true` switches JSON output off, because `true` reads as 0 |
| Options.OptionStepSane | src/sqlite-ai.c:114-135 | the callback keeps `max_tokens` non-negative and the `int` fields within 32 bits |
| Options.FeedSane | src/sqlite-ai.c:114-118 | no option string can make `max_tokens` negative |
| Options.ExampleMaxTokens | src/sqlite-ai.c:114-118 | `max_tokens=5` on the defaults sets the ceiling to 5 |
| Options.ExampleGpuLayers | src/sqlite-ai.c:126-130 | `gp=0x10` sets `gpu_layers` to 16 |
| Options.PairsOfSegment | src/utils.c:508-530 | a single segment `key=value` with clean halves yields exactly that pair |
| Options.PairsOfThree | src/utils.c:516-521 | a segment without `=` between two good ones is skipped, and the other two pairs survive in order |
| Options.FeedExample | src/sqlite-ai.c:87-140 | the pairs of `max_tokens=5,junk,gp=0x10` fed to the callback give `max_tokens` 5 and `gpu_layers` 16 |
| Options.ParseExample | src/sqlite-ai.c:388 | parsing `max_tokens=5,junk,gp=0x10` into the defaults succeeds with `max_tokens` 5 and `gpu_layers` 16 |
| Options.ParseOptions | src/sqlite-ai.c:388 | the options after the parse are the callbacks' fold over the pairs of the text (NULL: unchanged), and a sane record stays sane |
| Options.SetModelOptions | src/sqlite-ai.c:177-179 | `n_gpu_layers` is overridden only by a nonzero `gpu_layers` |
| Options.SetLlamaOptions | src/sqlite-ai.c:181-187 | embeddings are switched on, never off. A nonzero `context_size` becomes both `n_ctx` and `n_batch`, as `uint32_t`; a zero one leaves them untouched |
| Buffers.Reallocate | src/utils.c:75 | `sqlite3_realloc` returns a fresh block of the new size, starting with the old block's contents |
| Buffers.MemCopy | src/utils.c:95 | `memcpy` places the characters at the offset and changes nothing else |
| Buffers.GrowTo | src/utils.c:91 | the grown capacity is the needed size plus exactly `MIN_BUFFER_SIZE` |
| Buffers.MustGrowAsWrittenAgrees | src/utils.c:90 | without wrap-around, the `uint32_t` guard is the intended comparison |
| Buffers.MustGrowAsWrittenWraps | src/utils.c:90 | with wrap-around it is not: a request that does not fit skips the resize |
| Buffers.Buffer.Create | src/utils.c:62-72 | success exactly when the allocator grants `max(size, 4096)`; then the capacity is that size and the buffer is empty; failure changes nothing |
| Buffers.Buffer.Resize | src/utils.c:74-82 | success exactly when the allocator grants the size; then the capacity is the new size and the contents are kept; failure changes nothing |
| Buffers.Buffer.Reset | src/utils.c:84-87 | the text is empty, the block and capacity are kept, and `data[0]` is 0 when there is a block; no other byte changes |
| Buffers.Buffer.Reserve | src/utils.c:90-93 | the buffer grows only when the text, `len` more characters and a terminator do not fit, and then to `length + len + 1 + 4096`. On success they fit; on failure nothing changes |
| Buffers.Buffer.Append | src/utils.c:89-100 | on success the contents are the old contents followed by the `len` characters, and a terminator follows when asked; without growth no byte past them changes. On failure nothing changes; the capacity invariant holds either way |
| Buffers.Buffer.Destroy | src/utils.c:102-110 | no block, zero capacity and length; a second call finds the same state |
| Sanity.TypeName | src/utils.c:213-221 | `sqlite_type_name` gives one of TEXT, INTEGER, REAL, BLOB or N/A, and N/A exactly for codes other than the four storage classes with a value |
| Sanity.TypeNameNames | src/utils.c:213-221 | exactly TEXT, INTEGER, REAL and BLOB have a name other than `N/A`, and no two share one |
| Sanity.ErrorCode | src/utils.c:267-289 | a missing model is `SQLITE_MISUSE`; an arity or type error is `SQLITE_ERROR` |
| Sanity.FirstMismatch | src/utils.c:273-279 | the first index where the declared and actual types differ, with all earlier ones equal |
| Sanity.SanityFunction | src/utils.c:267-289 | the loop reaches the verdict of `Check`, and answers true exactly on `Pass` |
| Sanity.CheckPasses | src/utils.c:267-289 | a call passes exactly when its types are the declared ones and, if a model is required, one is loaded |
| Sanity.ArityFirst | src/utils.c:268-271 | a wrong argument count is reported whatever the types |
| Sanity.TypeErrorIsFirst | src/utils.c:273-279 | a type error names the first wrong argument (1-based) with both type names, whether or not a model is loaded |
| Sanity.ModelCheckOnlyWhenAsked | src/utils.c:281-286 | without either flag the model is never consulted |
| StrDup.SqliteStrdup | src/utils.c:345-353 | NULL gives NULL; otherwise a fresh copy of every character up to and including the terminator, or NULL when the allocator refuses |
| Uuid.Layout | src/utils.c:391-400 | the layout step gives 16 bytes and keeps the random bytes 7 and 9 to 15 as they were |
| Uuid.LayoutTimestamp | src/utils.c:391-396 | bytes 0 to 5 hold the low 48 bits of the millisecond clock, big-endian |
| Uuid.LayoutFields | src/utils.c:398-400 | the version nibble is 7 and the variant bits are `10`; every other bit of bytes 6 to 15 is the random input's |
| Uuid.Stringify | src/utils.c:405-419 | the dashed form has 36 characters, the plain form 32 |
| Uuid.HexDigits | src/utils.c:407 | `%02x` prints only lower-case hexadecimal digits |
| Uuid.UnhexHex | src/utils.c:412 | the hex digits of the bytes read back as the same bytes |
| Uuid.ParseStringify | src/utils.c:405-419 | both text forms lose nothing: parsing them gives the UUID back |
| Uuid.StringifyShape | src/utils.c:405-419 | dashes stand at offsets 8, 13, 18 and 23 of the dashed form; every other character is a lower-case hex digit |
| Logger.LogOutput | src/sqlite-ai.c:161-175 | what `ai_logger` prints: nothing for INFO, and for any other level at least the whole message |
| Logger.LogOutputShape | src/sqlite-ai.c:161-175 | INFO messages print nothing; any other message ends with its text, after a tag exactly for NONE, DEBUG, WARN and ERROR |
| Logger.LevelOfLogOutput | src/sqlite-ai.c:164-174 | the tag printed for a level tells that level back |
| Embedding.Generate | src/sqlite-ai.c:237-368 | the outcome of one call and the token buffer's size afterwards: the size never shrinks, grows only to `max(count, 512)` for a count above it, and holds the count whenever an embedding is produced |
| Embedding.ErrorCode | src/sqlite-ai.c:243-348 | allocation failures are `SQLITE_NOMEM`, the token ceiling is `SQLITE_TOOBIG`, everything else `SQLITE_ERROR` |
| Embedding.TokenCount | src/sqlite-ai.c:287-288 | the sizing answer, negated when negative, is a non-negative `int32_t` |
| Embedding.AllocCount | src/sqlite-ai.c:303 | a grown token buffer holds the needed count and at least 512 tokens |
| Embedding.ShapeFirst | src/sqlite-ai.c:243-252 | an encoder-decoder model is refused first, then a model without a decoder, before anything else happens |
| Embedding.EmbeddedWithinLimit | src/sqlite-ai.c:286-319 | an embedding is produced only for a nonempty text within the ceiling, by a decoder-only model with a vocabulary, when both tokenizer answers agree |
| Embedding.MaxTokensCeiling | src/sqlite-ai.c:295-299 | `max_tokens` 0 never refuses. A refusal reports the count and the ceiling with `SQLITE_TOOBIG`, and leaves the token buffer alone |
| Embedding.SizingSign | src/sqlite-ai.c:287-288 | a negative sizing answer behaves as its negation |
| Embedding.TokenBufferGrowth | src/sqlite-ai.c:302-311 | the token buffer never shrinks. It grows only when the count exceeds it, to `max(count, 512)`, and holds the count whenever tokenization is reached |
| Embedding.DecodeChoice | src/sqlite-ai.c:333-348 | `llama_decode` runs when the context has memory and `llama_encode` otherwise, and the outcome says which |
| Embedding.TokenBufferAsWrittenLosesBuffer | src/sqlite-ai.c:302-311 | as written, a failed growth followed by a smaller request tokenizes into a missing buffer |
| Embedding.TokenBufferStepSafe | src/sqlite-ai.c:302-311 | with the new buffer requested before the old one is freed, a call that goes on to tokenize always has room, and the buffer stays consistent |
| Embedding.GenerateUsesStep | src/sqlite-ai.c:302-311 | embedding generation follows that corrected step for the buffer size and the out-of-memory error |
| Embedding.CheckModel | src/sqlite-ai.c:189-193 | false for a missing context, otherwise whether it has a model; `EmbedGenerate` requires it, since `ai_embed_generate` queries the model from its first lines |
| Embedding.AiContext.constructor | src/sqlite-ai.c:142-147 | a new context has no model and no token buffer |
| Embedding.AiContext.GrowTokenBuffer | src/sqlite-ai.c:302-311 | the context's buffer follows the corrected step: a fresh buffer of `max(n, 512)` when `n` exceeds it and memory is given, otherwise the old one |
| Embedding.WriteTokens | src/sqlite-ai.c:315 | the tokenizer's answer is in the token buffer |
| Embedding.Batch.constructor | src/sqlite-ai.c:322 | a new batch is empty, with room for the requested tokens |
| Embedding.Batch.Fill | src/sqlite-ai.c:322-331 | entry `i` holds token `i` at position `i`, one sequence id 0, logits on, for exactly the `n` tokens |
| Embedding.RunEngine | src/sqlite-ai.c:313-340 | the engine gets a batch holding exactly the text's tokens, and the outcome is that of decode or encode and the embeddings |
| Embedding.EmbedGenerate | src/sqlite-ai.c:237-368 | for a context with a model, the outcome and the token buffer's new size are those of `Generate`, with the checks in the source's order. Whenever the engine ran, it was handed a batch holding exactly the text's tokens |

## Left out

- `ai_embedding_normalize` and the JSON rendering with `%f` (src/sqlite-ai.c:204-235, 350-365): floating-point arithmetic and formatting. The outcome records only whether the vector is normalised and whether it is JSON.
- Every llama.cpp call (`llama_tokenize`, `llama_decode`, `llama_encode`, `llama_get_embeddings`, the model and vocabulary queries): foreign code. Each is replaced by a recorded answer in an `Engine` value, and its warnings and `printf` output are dropped.
- Embedding.EmbedGenerate: does not model the leaks on the error paths. The embedding vector is not freed after a failed token allocation, mismatch, decode or retrieval. The batch's `llama_batch_free` is not modelled either. Memory release is invisible to the model.
- The chat virtual table `vt_chat_*`: a stub whose cursor methods do nothing; the sampler code after its `return` is dead.
- `sqlite3_ai_init`, `ai_set_model`, `ai_context_free`, `ai_embed` and function registration: host-engine plumbing and model loading.
- `sqlite_context_result_error` and the other error reporters: message formatting. The models return a verdict or an error value carrying the reported numbers instead.
- `ai_model_check`, which `sqlite_sanity_function` calls, is not part of this model: its answer is the parameter `modelLoaded`.
- The entropy source and the clock of `ai_uuid_v7_generate`: the random bytes and the millisecond timestamp are parameters of `Uuid.Layout`. The conversion of the clock reading to milliseconds is not modelled.
- StrToL.StrToL: assumes a 64-bit `long`, as on Linux and macOS. On a Windows build `long` has 32 bits, so `strtol` saturates at 2147483647. `context_size=4294967296` then sets `n_ctx` and `n_batch` to 2147483647, where the model reads 2^32, converts it to `int` 0, and leaves them unchanged.
- Uuid.Stringify: assumes `UUID_STR_MAXLEN` leaves room for 36 characters and a terminator. That constant is defined outside these files, and `snprintf` truncation is not modelled.
- Buffers.Buffer.Resize: `sqlite3_realloc` frees the block and returns NULL for a request of zero bytes. It does the same for one above `INT_MAX`, which turns negative as an `int`. The model reports failure but keeps the block. Buffers.Buffer.Reserve and Buffers.Buffer.Append inherit this: when they ask for more than `INT_MAX` bytes, the source leaves `data` dangling, but the model reports failure with nothing changed. A request that leaves no room for the text is allowed, as in the source, but only a larger request keeps the invariant.
- StrDup.SqliteStrdup: the `(int)len` conversion is folded into `Granted`. A string of 2 GiB or more is refused, not wrapped.
- Embedding.AiContext.constructor: `ai_context_create` does not zero `model`, `ctx`, `token_buffer` or `token_buffer_size`, because `sqlite3_malloc` returns uninitialised memory. The model starts them empty, as the rest of the code assumes.
- KeyValue.ParseKeyValueString: the callback is a pure function of the state it updates, rather than a C callback with a `void *` context. The `int` conversion of key and value lengths (2 GiB or more) is not modelled.
- The argument lists of `parse_keyvalue_string` differ between src/utils.c, src/utils.h and the call at src/sqlite-ai.c:388. The model follows the definition in src/utils.c.
- `sqlite_sanity_function` is defined with two model flags, `check_llm_model` and `check_audio_model` (src/utils.c:267). src/utils.h:21 declares it with one flag, `check_model`, and the calls at src/sqlite-ai.c:375, 378, 501 and 504 pass one. The model follows the definition in src/utils.c.
- The model query that src/utils.c:42 declares is `ai_model_check` with two flags. The function src/sqlite-ai.c:189 defines is `ai_check_model`, with no flags. The model follows src/utils.c: `Sanity` takes the query's answer as `modelLoaded`, and `Embedding.CheckModel` models `ai_check_model`.
- Embedding.Engine.Valid: excludes a sizing answer of `INT32_MIN` from `llama_tokenize`. Negating it (`n_tokens *= -1`, src/sqlite-ai.c:288) overflows `int32_t`, which C leaves undefined.
- The audio decoders, device listing and the commented-out list code of src/utils.c: device I/O, not part of the extension's own logic.

## Findings

| source | as written | input that shows it | evidently intended | confidence | as-written member | corrected member |
|---|---|---|---|---|---|---|
| src/sqlite-ai.c:302-311 | the old token buffer is freed before the new one is requested; when the request fails, `token_buffer` is NULL but `token_buffer_size` keeps the old size | a call with 600 tokens, then one with 700 whose allocation fails, then one with 10 tokens: the third skips the allocation and tokenizes into NULL | a failed request leaves a usable buffer, or resets the size | not executed | `Embedding.TokenBufferAsWritten`, `Embedding.TokenBufferAsWrittenLosesBuffer` | `Embedding.TokenBufferStep`, `Embedding.TokenBufferStepSafe`, `Embedding.AiContext.GrowTokenBuffer` |
| src/utils.c:90-91 | `length + len + 1` and the new capacity are computed in `uint32_t` and wrap | appending `0xFFFFFFFF` characters to an empty 4096-byte buffer: the sum wraps to 0, the resize is skipped, and `memcpy` writes far past the block | the size is computed without wrapping, and a request beyond `uint32_t` fails | not executed | `Buffers.MustGrowAsWritten`, `Buffers.MustGrowAsWrittenWraps` | `Buffers.GrowTo`, `Buffers.Buffer.Reserve`, `Buffers.Buffer.Append` |
