/** `ai_logger` (src/sqlite-ai.c:161-175), the log hook handed to llama.cpp: the text it
    prints for each ggml log level. */
module Logger {
  import opened CTypes

  // `enum ggml_log_level`.
  const GGML_LOG_LEVEL_NONE: int := 0
  const GGML_LOG_LEVEL_DEBUG: int := 1
  const GGML_LOG_LEVEL_INFO: int := 2
  const GGML_LOG_LEVEL_WARN: int := 3
  const GGML_LOG_LEVEL_ERROR: int := 4
  const GGML_LOG_LEVEL_CONT: int := 5

  /** The tag a level is printed under; `None` for continuation lines and for values
      outside the enumeration. */
  function Prefix(level: int): Option<string>
  {
    if level == GGML_LOG_LEVEL_NONE then Some("NONE")
    else if level == GGML_LOG_LEVEL_DEBUG then Some("DEBUG")
    else if level == GGML_LOG_LEVEL_INFO then Some("INFO")
    else if level == GGML_LOG_LEVEL_WARN then Some("WARNING")
    else if level == GGML_LOG_LEVEL_ERROR then Some("ERROR")
    else None
  }

  /** What one call writes to standard output for the C string `text`. */
  function LogOutput(level: int, text: string): (out: string)
    ensures level == GGML_LOG_LEVEL_INFO ==> out == ""
    ensures level != GGML_LOG_LEVEL_INFO ==> |out| >= CLen(text)
  {
    if level == GGML_LOG_LEVEL_INFO then ""
    else
      var msg := text[..CLen(text)];
      match Prefix(level)
      case Some(p) => "\n[" + p + "]\t" + msg
      case None => msg
  }

  /** Informational messages are dropped; every other message is printed in full at the
      end of the output, after a tag line exactly when its level has a tag. */
  lemma LogOutputShape(level: int, text: string)
    ensures level == GGML_LOG_LEVEL_INFO ==> LogOutput(level, text) == ""
    ensures level != GGML_LOG_LEVEL_INFO ==>
      var out := LogOutput(level, text);
      var msg := text[..CLen(text)];
      && |msg| <= |out| && out[|out| - |msg|..] == msg
      && (|out| > |msg| <==> level in {GGML_LOG_LEVEL_NONE, GGML_LOG_LEVEL_DEBUG, GGML_LOG_LEVEL_WARN, GGML_LOG_LEVEL_ERROR})
  {
    var out := LogOutput(level, text);
    var msg := text[..CLen(text)];
    if level != GGML_LOG_LEVEL_INFO && Prefix(level).Some? {
      assert out == ("\n[" + Prefix(level).value + "]\t") + msg;
    }
  }

  /** The level of a tagged line: its tags start with distinct letters. */
  function LevelOf(out: string): Option<int>
  {
    if |out| < 3 || out[..2] != "\n[" then None
    else if out[2] == 'N' then Some(GGML_LOG_LEVEL_NONE)
    else if out[2] == 'D' then Some(GGML_LOG_LEVEL_DEBUG)
    else if out[2] == 'W' then Some(GGML_LOG_LEVEL_WARN)
    else if out[2] == 'E' then Some(GGML_LOG_LEVEL_ERROR)
    else None
  }

  /** The tag of a printed line tells its level back. */
  lemma LevelOfLogOutput(level: int, text: string)
    requires level in {GGML_LOG_LEVEL_NONE, GGML_LOG_LEVEL_DEBUG, GGML_LOG_LEVEL_WARN, GGML_LOG_LEVEL_ERROR}
    ensures LevelOf(LogOutput(level, text)) == Some(level)
  {
    var out := LogOutput(level, text);
    assert out == "\n[" + Prefix(level).value + "]\t" + text[..CLen(text)];
    assert out[..2] == "\n[";
    assert out[2] == Prefix(level).value[0];
  }
}
