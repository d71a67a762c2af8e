/** `sqlite_type_name` and `sqlite_sanity_function` (src/utils.c:213-221, 267-289): the
    checks every SQL function of the extension makes on its arguments before it runs. */
module Sanity {
  import opened CTypes

  // Fundamental datatype codes of SQLite.
  const SQLITE_INTEGER: int := 1
  const SQLITE_FLOAT: int := 2
  const SQLITE_TEXT: int := 3
  const SQLITE_BLOB: int := 4
  const SQLITE_NULL: int := 5

  /** `sqlite_type_name`: the SQL name of a datatype code. */
  function TypeName(t: int): (name: string)
    ensures name != "N/A" <==> t in {SQLITE_INTEGER, SQLITE_FLOAT, SQLITE_TEXT, SQLITE_BLOB}
    ensures name in ["TEXT", "INTEGER", "REAL", "BLOB", "N/A"]
  {
    if t == SQLITE_TEXT then "TEXT"
    else if t == SQLITE_INTEGER then "INTEGER"
    else if t == SQLITE_FLOAT then "REAL"
    else if t == SQLITE_BLOB then "BLOB"
    else "N/A"
  }

  /** Exactly the four storage classes with a value have a name, and no two share one:
      an error message's type name tells which type was meant. */
  lemma TypeNameNames(t: int, u: int)
    ensures TypeName(t) != "N/A" <==> t in {SQLITE_INTEGER, SQLITE_FLOAT, SQLITE_TEXT, SQLITE_BLOB}
    ensures TypeName(t) == TypeName(u) && TypeName(t) != "N/A" ==> t == u
  {
  }

  /** What the check concludes, with what the error message reports. */
  datatype Verdict =
    | Pass
    | WrongArity(declared: int, provided: int)
    | WrongType(argument: int, expectedName: string, gotName: string)
    | NoModel

  /** The SQLite result code a failed check leaves on the context. */
  function ErrorCode(v: Verdict): (rc: int)
    requires !v.Pass?
    ensures rc == SQLITE_MISUSE <==> v.NoModel?
    ensures rc == SQLITE_ERROR <==> v.WrongArity? || v.WrongType?
  {
    if v.NoModel? then SQLITE_MISUSE else SQLITE_ERROR
  }

  /** The index of the first position where `a` and `b` differ, or their length. */
  function FirstMismatch(a: seq<int>, b: seq<int>): (i: nat)
    requires |a| == |b|
    ensures i <= |a|
    ensures i < |a| ==> a[i] != b[i]
    ensures forall k :: 0 <= k < i ==> a[k] == b[k]
  {
    if a == [] then 0
    else if a[0] != b[0] then 0
    else 1 + FirstMismatch(a[1..], b[1..])
  }

  /** The verdict on arguments of types `actual` for a function declared with `types`.
      `modelLoaded` is what `ai_model_check` answers; it is consulted only when one of
      the two flags asks for it. */
  function Check(actual: seq<int>, types: seq<int>, checkLlm: bool, checkAudio: bool, modelLoaded: bool): Verdict
  {
    if |actual| != |types| then WrongArity(|types|, |actual|)
    else
      var i := FirstMismatch(types, actual);
      if i < |actual| then WrongType(i + 1, TypeName(types[i]), TypeName(actual[i]))
      else if (checkLlm || checkAudio) && !modelLoaded then NoModel
      else Pass
  }

  /** `sqlite_sanity_function`: `actual` holds `sqlite3_value_type` of each argument and
      `types` the `ntypes` expected ones; the answer is true exactly on `Pass`. */
  method SanityFunction(actual: seq<int>, types: seq<int>, checkLlm: bool, checkAudio: bool, modelLoaded: bool)
    returns (ok: bool, v: Verdict)
    ensures v == Check(actual, types, checkLlm, checkAudio, modelLoaded)
    ensures ok <==> v.Pass?
  {
    if |actual| != |types| {
      return false, WrongArity(|types|, |actual|);
    }
    var i := 0;
    while i < |actual|
      invariant 0 <= i <= |actual|
      invariant forall k :: 0 <= k < i ==> types[k] == actual[k]
    {
      if actual[i] != types[i] {
        return false, WrongType(i + 1, TypeName(types[i]), TypeName(actual[i]));
      }
      i := i + 1;
    }
    if checkLlm || checkAudio {
      if !modelLoaded {
        return false, NoModel;
      }
    }
    return true, Pass;
  }

  /** A call passes exactly when it has the declared types in the declared number and,
      if a model is required, one is loaded. */
  lemma CheckPasses(actual: seq<int>, types: seq<int>, checkLlm: bool, checkAudio: bool, modelLoaded: bool)
    ensures Check(actual, types, checkLlm, checkAudio, modelLoaded).Pass? <==>
      actual == types && (checkLlm || checkAudio ==> modelLoaded)
  {
    if |actual| == |types| && FirstMismatch(types, actual) == |actual| {
      assert actual == types;
    }
  }

  /** The arity is checked before any type: a wrong count is reported whatever the types. */
  lemma ArityFirst(actual: seq<int>, types: seq<int>, checkLlm: bool, checkAudio: bool, modelLoaded: bool)
    requires |actual| != |types|
    ensures Check(actual, types, checkLlm, checkAudio, modelLoaded) == WrongArity(|types|, |actual|)
  {
  }

  /** A type error names the first (1-based) argument of the wrong type, and the model is
      not consulted before the types are right. */
  lemma TypeErrorIsFirst(actual: seq<int>, types: seq<int>, checkLlm: bool, checkAudio: bool, modelLoaded: bool)
    requires Check(actual, types, checkLlm, checkAudio, modelLoaded).WrongType?
    ensures var v := Check(actual, types, checkLlm, checkAudio, modelLoaded);
      && |actual| == |types| && 1 <= v.argument <= |actual|
      && actual[v.argument - 1] != types[v.argument - 1]
      && (forall k :: 0 <= k < v.argument - 1 ==> actual[k] == types[k])
      && v.expectedName == TypeName(types[v.argument - 1]) && v.gotName == TypeName(actual[v.argument - 1])
      && v == Check(actual, types, checkLlm, checkAudio, !modelLoaded)
  {
  }

  /** Without either flag the model is never looked at. */
  lemma ModelCheckOnlyWhenAsked(actual: seq<int>, types: seq<int>, loaded1: bool, loaded2: bool)
    ensures Check(actual, types, false, false, loaded1) == Check(actual, types, false, false, loaded2)
    ensures !Check(actual, types, false, false, loaded1).NoModel?
  {
  }
}
