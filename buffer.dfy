/** The growable character buffer of src/utils.c (`buffer_t` with `buffer_create`,
    `buffer_resize`, `buffer_reset`, `buffer_append` and `buffer_destroy`).

    The `allocOk` parameters say whether the allocator has memory to give (see `Granted`). */
module Buffers {
  import opened CTypes

  const MIN_BUFFER_SIZE: int := 4096

  function Min(a: int, b: int): int { if a <= b then a else b }

  /** The block `sqlite3_realloc` returns: `n` bytes starting with the first `n` bytes of `old`. */
  method Reallocate(block: array?<char>, n: nat) returns (a: array<char>)
    ensures fresh(a) && a.Length == n
    ensures block != null ==> a[..Min(block.Length, n)] == block[..Min(block.Length, n)]
  {
    a := new char[n](_ => NUL);
    if block == null {
      return;
    }
    var m := Min(block.Length, n);
    var i := 0;
    while i < m
      invariant 0 <= i <= m
      invariant a[..i] == block[..i]
    {
      a[i] := block[i];
      i := i + 1;
    }
  }

  /** `memcpy(dst + at, src, len)`. */
  method MemCopy(dst: array<char>, at: nat, src: string, len: nat)
    requires at + len <= dst.Length && len <= |src|
    modifies dst
    ensures dst[..at] == old(dst[..at])
    ensures dst[at..at + len] == src[..len]
    ensures dst[at + len..] == old(dst[at + len..])
  {
    var i := 0;
    while i < len
      invariant 0 <= i <= len
      invariant dst[..at] == old(dst[..at])
      invariant dst[at..at + i] == src[..i]
      invariant dst[at + len..] == old(dst[at + len..])
    {
      dst[at + i] := src[i];
      i := i + 1;
    }
  }

  /** The capacity an append asks for when it must grow: the intended value, computed
      without wrapping, of `length + len + 1 + MIN_BUFFER_SIZE`. */
  function GrowTo(length: int, len: int): (c: int)
    requires 0 <= length && 0 <= len
    ensures c > length + len
    ensures c - (length + len + 1) == MIN_BUFFER_SIZE
  {
    length + len + 1 + MIN_BUFFER_SIZE
  }

  /** The guard of `buffer_append` as written: the sum is computed in `uint32_t`. */
  function MustGrowAsWritten(length: int, len: int, capacity: int): bool
  {
    ToUint32(length + len + 1) > capacity
  }

  /** Without wrap-around the written guard is the intended one. */
  lemma MustGrowAsWrittenAgrees(length: int, len: int, capacity: int)
    requires 0 <= length && 0 <= len && length + len + 1 < UINT32_LIMIT
    ensures MustGrowAsWritten(length, len, capacity) <==> length + len + 1 > capacity
  {
  }

  /** With wrap-around it is not: appending 0xFFFFFFFF characters to an empty 4096-byte
      buffer skips the resize and copies far past the end of the block. */
  lemma MustGrowAsWrittenWraps()
    ensures !MustGrowAsWritten(0, 0xFFFF_FFFF, MIN_BUFFER_SIZE)
    ensures 0 + 0xFFFF_FFFF + 1 > MIN_BUFFER_SIZE
  {
  }

  class Buffer {
    var data: array?<char>
    var capacity: int
    var length: int

    /** Capacity is the block's size (`uint32_t`), and the text plus its terminator fit. */
    predicate Valid()
      reads this, data
    {
      && IsUint32(capacity) && 0 <= length
      && (data == null ==> capacity == 0 && length == 0)
      && (data != null ==> data.Length == capacity && length < capacity)
    }

    /** The characters appended so far. */
    function Contents(): seq<char>
      reads this, data
      requires Valid()
    {
      if data == null then [] else data[..length]
    }

    /** A zero-initialised `buffer_t`. */
    constructor ()
      ensures data == null && capacity == 0 && length == 0
      ensures Valid() && Contents() == []
    {
      data := null;
      capacity := 0;
      length := 0;
    }

    /** `buffer_create` (src/utils.c:62-72): at least `MIN_BUFFER_SIZE` bytes, empty. */
    method Create(size: int, allocOk: bool) returns (ok: bool)
      requires IsUint32(size)
      modifies this
      ensures var want := if size < MIN_BUFFER_SIZE then MIN_BUFFER_SIZE else size;
        && (ok <==> Granted(want, allocOk))
        && (ok ==> fresh(data) && capacity == want && length == 0)
      ensures ok ==> Valid() && Contents() == []
      ensures !ok ==> data == old(data) && capacity == old(capacity) && length == old(length)
    {
      var want := size;
      if want < MIN_BUFFER_SIZE {
        want := MIN_BUFFER_SIZE;
      }
      if !Granted(want, allocOk) {
        return false;
      }
      data := new char[want](_ => NUL);
      capacity := want;
      length := 0;
      ok := true;
    }

    /** `buffer_resize` (src/utils.c:74-82): moves the contents into a block of
        `newCapacity` bytes; a failed request changes nothing. */
    method Resize(newCapacity: int, allocOk: bool) returns (ok: bool)
      requires Valid() && IsUint32(newCapacity)
      modifies this
      ensures ok <==> Granted(newCapacity, allocOk)
      ensures ok ==> && fresh(data) && data.Length == capacity == newCapacity && length == old(length)
                     && (old(data) != null ==>
                           data[..Min(old(capacity), newCapacity)] == old(data[..Min(capacity, newCapacity)]))
      ensures ok && newCapacity > length ==> Valid() && Contents() == old(Contents())
      ensures !ok ==> data == old(data) && capacity == old(capacity) && length == old(length)
    {
      if !Granted(newCapacity, allocOk) {
        return false;
      }
      var block := Reallocate(data, newCapacity);
      data := block;
      capacity := newCapacity;
      ok := true;
    }

    /** `buffer_reset` (src/utils.c:84-87): empties the text and keeps the block. */
    method Reset()
      requires Valid()
      modifies this, data
      ensures Valid() && Contents() == []
      ensures data == old(data) && capacity == old(capacity) && length == 0
      ensures data != null ==> data[0] == NUL && data[1..] == old(data[1..])
    {
      if data != null {
        data[0] := NUL;
      }
      length := 0;
    }

    /** The growth step of `buffer_append` (src/utils.c:91-96), with the size arithmetic
        done without wrap-around: a buffer whose text and `len` more characters and a
        terminator would not fit grows to `length + len + 1 + MIN_BUFFER_SIZE`. */
    method Reserve(len: int, allocOk: bool) returns (ok: bool)
      requires Valid() && IsUint32(len)
      modifies this
      ensures Valid() && length == old(length) && Contents() == old(Contents())
      ensures var fits := old(length) + len + 1 <= old(capacity);
        && (ok <==> fits || Granted(GrowTo(old(length), len), allocOk))
        && (fits ==> data == old(data) && capacity == old(capacity))
        && (!fits && ok ==> fresh(data) && capacity == GrowTo(old(length), len))
        && (!ok ==> data == old(data) && capacity == old(capacity))
      ensures ok ==> data != null && length + len + 1 <= capacity
    {
      if length + len + 1 > capacity {
        var newCapacity := GrowTo(length, len);
        if newCapacity >= UINT32_LIMIT {
          return false;
        }
        ok := Resize(newCapacity, allocOk);
      } else {
        ok := true;
      }
    }

    /** `buffer_append` (src/utils.c:89-100): after the growth step of `Reserve`, the `len`
        characters of `src` follow the text; with `zeroTerminate` a NUL follows them. */
    method Append(src: string, len: int, zeroTerminate: bool, allocOk: bool) returns (ok: bool)
      requires Valid() && IsUint32(len) && len <= |src|
      modifies this, data
      ensures Valid()
      ensures var fits := old(length) + len + 1 <= old(capacity);
        && (ok <==> fits || Granted(GrowTo(old(length), len), allocOk))
        && (fits ==> data == old(data) && capacity == old(capacity))
        && (!fits && ok ==> fresh(data) && capacity == GrowTo(old(length), len))
      ensures ok ==> Contents() == old(Contents()) + src[..len]
      ensures ok && zeroTerminate ==> data[length] == NUL
      ensures var end := old(length) + len + (if zeroTerminate then 1 else 0);
        ok && old(length) + len + 1 <= old(capacity) ==> data[end..] == old(data[end..])
      ensures !ok ==> data == old(data) && capacity == old(capacity) && length == old(length)
                      && Contents() == old(Contents())
    {
      ok := Reserve(len, allocOk);
      if !ok {
        return;
      }
      MemCopy(data, length, src, len);
      assert data[..length + len] == data[..length] + data[length..length + len];
      length := length + len;
      if zeroTerminate {
        data[length] := NUL;
      }
    }

    /** `buffer_destroy` (src/utils.c:102-110): releases the block; a second call finds
        nothing to release and leaves the same state. */
    method Destroy()
      modifies this
      ensures data == null && capacity == 0 && length == 0
      ensures Valid() && Contents() == []
    {
      data := null;
      capacity := 0;
      length := 0;
    }
  }
}
