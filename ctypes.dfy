/** Shared vocabulary for modelling the C code: optional values, C strings,
    the `<ctype.h>` classifications the sources use, and fixed-width integers. */
module CTypes {

  datatype Option<+T> = None | Some(value: T)

  const NUL: char := '\0'

  /** `*p` on a C string: the character at `p`, or the terminator at or past the end. */
  function At(s: string, p: nat): char
  {
    if p < |s| then s[p] else NUL
  }

  /** `strlen`: the length of the C string held in `s`, i.e. up to its first NUL. */
  function CLen(s: string): (n: nat)
    ensures n <= |s|
    ensures n < |s| ==> s[n] == NUL
    ensures forall k :: 0 <= k < n ==> s[k] != NUL
  {
    if s == [] then 0
    else if s[0] == NUL then 0
    else 1 + CLen(s[1..])
  }

  /** `isspace` in the C locale: space, and tab, line feed, vertical tab, form feed and
      carriage return (codes 9 to 13). */
  predicate IsSpace(c: char)
  {
    c == ' ' || '\t' <= c <= '\r'
  }

  /** Drops leading white space: what `SKIP_SPACES` and `strtol` pass over. */
  function LTrim(t: string): string
  {
    if t != [] && IsSpace(t[0]) then LTrim(t[1..]) else t
  }

  /** `tolower` in the C locale: only ASCII upper-case letters change. */
  function ToLower(c: char): (r: char)
    ensures 'A' <= c <= 'Z' ==> r as int == c as int + 32
    ensures !('A' <= c <= 'Z') ==> r == c
  {
    if 'A' <= c <= 'Z' then (c as int + 32) as char else c
  }

  const INT32_MIN: int := -0x8000_0000
  const INT32_MAX: int := 0x7FFF_FFFF
  const UINT32_LIMIT: int := 0x1_0000_0000
  const LONG_MIN: int := -0x8000_0000_0000_0000
  const LONG_MAX: int := 0x7FFF_FFFF_FFFF_FFFF

  // SQLite result codes.
  const SQLITE_ERROR: int := 1
  const SQLITE_NOMEM: int := 7
  const SQLITE_TOOBIG: int := 18
  const SQLITE_MISUSE: int := 21

  predicate IsInt32(x: int) { INT32_MIN <= x <= INT32_MAX }
  predicate IsUint32(x: int) { 0 <= x < UINT32_LIMIT }

  /** Two's-complement conversion of any integer to `int32_t` (what gcc and clang do for `(int)` of a `long`). */
  function ToInt32(x: int): (r: int)
    ensures IsInt32(r)
    ensures (r - x) % UINT32_LIMIT == 0
    ensures IsInt32(x) ==> r == x
  {
    (x - INT32_MIN) % UINT32_LIMIT + INT32_MIN
  }

  /** Conversion of a signed value to `uint32_t` (reduction modulo 2^32). */
  function ToUint32(x: int): (r: int)
    ensures IsUint32(r)
    ensures (r - x) % UINT32_LIMIT == 0
    ensures IsUint32(x) ==> r == x
  {
    x % UINT32_LIMIT
  }

  /** Whether `sqlite3_malloc`/`sqlite3_realloc` hands out a block of `n` bytes. Both take
      an `int`: a request of zero bytes, or one that does not fit an `int`, yields NULL,
      and any other request may still fail; `allocOk` says whether memory is available. */
  predicate Granted(n: int, allocOk: bool)
  {
    allocOk && 0 < n <= INT32_MAX
  }
}
