/** `sqlite_strdup` (src/utils.c:345-353): a copy of a C string, terminator included, in
    memory from `sqlite3_malloc`. */
module StrDup {
  import opened CTypes

  /** `None` stands for NULL, both for the argument and for the result. */
  method SqliteStrdup(str: Option<string>, allocOk: bool) returns (r: Option<array<char>>)
    ensures str.None? ==> r.None?
    ensures str.Some? ==> (r.Some? <==> Granted(CLen(str.value) + 1, allocOk))
    ensures str.Some? && r.Some? ==>
      fresh(r.value) && r.value[..] == str.value[..CLen(str.value)] + [NUL]
  {
    if str.None? {
      return None;
    }
    var s := str.value;
    var len := CLen(s) + 1;
    if !Granted(len, allocOk) {
      return None;
    }
    var result := new char[len];
    var i := 0;
    while i < len
      invariant 0 <= i <= len
      invariant forall k :: 0 <= k < i ==> result[k] == At(s, k)
    {
      result[i] := At(s, i);
      i := i + 1;
    }
    assert result[..] == s[..CLen(s)] + [NUL];
    return Some(result);
  }
}
