/** The `key=value,key=value` option-string parser of src/utils.c (`parse_keyvalue_string`
    with its `SKIP_SPACES` and `TRIM_TRAILING` macros).

    The reference meaning of an option string is `Pairs`: split the text on every `,`,
    keep the segments that contain a `=`, split each at its first `=` and trim both
    halves. The scanning loop of the source is `ParseKeyValueString`, proved to
    hand exactly those pairs, left to right, to the callback. */
module KeyValue {
  import opened CTypes

  datatype Pair = Pair(key: string, value: string)

  /** Drops trailing white space. */
  function RTrim(t: string): string
  {
    if t != [] && IsSpace(t[|t| - 1]) then RTrim(t[..|t| - 1]) else t
  }

  function Trim(t: string): string
  {
    RTrim(LTrim(t))
  }

  /** The index of the first `c` in `t`, or `|t|` when there is none. */
  function IndexOf(t: string, c: char): (i: nat)
    ensures i <= |t|
    ensures i < |t| ==> t[i] == c
  {
    if t == [] then 0
    else if t[0] == c then 0
    else 1 + IndexOf(t[1..], c)
  }

  /** `IndexOf` is the position of the first `c`, or `|t|` when there is none. */
  lemma {:induction false} IndexOfIs(t: string, c: char, i: nat)
    requires i <= |t| && (i < |t| ==> t[i] == c) && c !in t[..i]
    ensures IndexOf(t, c) == i
  {
    if i > 0 {
      assert t[0] in t[..i];
      assert t[1..][..i - 1] == t[..i][1..];
      IndexOfIs(t[1..], c, i - 1);
    }
  }

  /** No `c` comes before `IndexOf(t, c)`. */
  lemma {:induction false} IndexOfFirst(t: string, c: char)
    ensures forall k :: 0 <= k < IndexOf(t, c) ==> t[k] != c
  {
    if t != [] && t[0] != c {
      IndexOfFirst(t[1..], c);
    }
  }

  /** The pair a comma-free segment stands for: none without a `=`. */
  function SegmentPair(seg: string): Option<Pair>
  {
    var j := IndexOf(seg, '=');
    if j == |seg| then None else Some(Pair(Trim(seg[..j]), Trim(seg[j + 1..])))
  }

  function OptionToSeq(o: Option<Pair>): seq<Pair>
  {
    if o.Some? then [o.value] else []
  }

  /** Every well-formed pair of an option string, in order of appearance. */
  function Pairs(t: string): seq<Pair>
    decreases |t|
  {
    var i := IndexOf(t, ',');
    var head := OptionToSeq(SegmentPair(t[..i]));
    if i == |t| then head else head + Pairs(t[i + 1..])
  }

  /** Hands `pairs` to `cb` in order, threading the callback's state, and stops at
      the first call that answers false. */
  function Feed<S>(pairs: seq<Pair>, cb: (S, string, string) -> (S, bool), st: S): (S, bool)
  {
    if pairs == [] then (st, true)
    else
      var (st', ok) := cb(st, pairs[0].key, pairs[0].value);
      if !ok then (st', false) else Feed(pairs[1..], cb, st')
  }

  lemma {:induction false} LTrimSkips(u: string, m: nat)
    requires m <= |u|
    requires forall k :: 0 <= k < m ==> IsSpace(u[k])
    requires m == |u| || !IsSpace(u[m])
    ensures LTrim(u) == u[m..]
  {
    if m > 0 {
      LTrimSkips(u[1..], m - 1);
      assert u[1..][m - 1..] == u[m..];
    }
  }

  lemma {:induction false} RTrimDrops(u: string, m: nat)
    requires m <= |u|
    requires forall k :: m <= k < |u| ==> IsSpace(u[k])
    requires m == 0 || !IsSpace(u[m - 1])
    ensures RTrim(u) == u[..m]
  {
    if m < |u| {
      RTrimDrops(u[..|u| - 1], m);
      assert u[..|u| - 1][..m] == u[..m];
    }
  }

  /** The C string held in `s`: its characters before the terminator. */
  function Text(s: string): string
  {
    s[..CLen(s)]
  }

  /** Where the comma-delimited segment starting at `p0` ends: its `,` or the terminator. */
  function SegEnd(t: string, p0: nat): (e: nat)
    requires p0 <= |t|
    ensures p0 <= e <= |t|
  {
    p0 + IndexOf(t[p0..], ',')
  }

  /** A slice of a slice is a slice. */
  lemma SliceOfSlice(t: string, a: nat, b: nat, c: nat, d: nat)
    requires a <= b <= |t| && c <= d <= b - a
    ensures t[a..b][c..d] == t[a + c..a + d]
    ensures d == b - a ==> t[a..b][c..] == t[a + c..b]
  {
    assert |t[a..b][c..d]| == |t[a + c..a + d]|;
    forall k | 0 <= k < d - c
      ensures t[a..b][c..d][k] == t[a + c..a + d][k]
    {
    }
  }

  /** Within the C string, `Text(s)` and `s` agree. */
  lemma TextRange(s: string, a: nat, b: nat)
    requires a <= b <= CLen(s)
    ensures Text(s)[a..b] == s[a..b]
  {
  }

  /** Within and at the end of the C string: `*p` is NUL exactly at the terminator. */
  lemma AtEnd(s: string, p: nat)
    requires p <= CLen(s)
    ensures At(s, p) == NUL <==> p == CLen(s)
    ensures p < CLen(s) ==> At(s, p) == Text(s)[p]
  {
  }

  lemma TextAt(s: string)
    ensures forall k :: 0 <= k < |Text(s)| ==> At(s, k) == Text(s)[k] != NUL
    ensures At(s, |Text(s)|) == NUL
  {
  }

  lemma {:induction false} SegmentFacts(t: string, p0: nat)
    requires p0 <= |t|
    ensures forall k :: p0 <= k < SegEnd(t, p0) ==> t[k] != ','
    ensures SegEnd(t, p0) < |t| ==> t[SegEnd(t, p0)] == ','
  {
    var e := SegEnd(t, p0);
    IndexOfFirst(t[p0..], ',');
    forall k | p0 <= k < e ensures t[k] != ',' {
      assert t[k] == t[p0..][k - p0];
    }
    if e < |t| {
      assert t[e] == t[p0..][e - p0];
    }
  }

  /** `SKIP_SPACES(p)`: advances over white space. */
  method SkipSpaces(s: string, p: nat) returns (q: nat)
    requires p <= CLen(s)
    ensures p <= q <= CLen(s)
    ensures forall k :: p <= k < q ==> IsSpace(At(s, k))
    ensures At(s, q) == NUL || !IsSpace(At(s, q))
  {
    q := p;
    while At(s, q) != NUL && IsSpace(At(s, q))
      invariant p <= q <= CLen(s)
      invariant forall k :: p <= k < q ==> IsSpace(At(s, k))
      decreases CLen(s) - q
    {
      q := q + 1;
    }
  }

  /** Advances to the next terminator or `,`, and also stops at `=` when `atEquals`. */
  method ScanTo(s: string, p: nat, atEquals: bool) returns (q: nat)
    requires p <= CLen(s)
    ensures p <= q <= CLen(s)
    ensures forall k :: p <= k < q ==> At(s, k) != ',' && (atEquals ==> At(s, k) != '=')
    ensures At(s, q) == NUL || At(s, q) == ',' || (atEquals && At(s, q) == '=')
  {
    q := p;
    while At(s, q) != NUL && At(s, q) != ',' && !(atEquals && At(s, q) == '=')
      invariant p <= q <= CLen(s)
      invariant forall k :: p <= k < q ==> At(s, k) != ',' && (atEquals ==> At(s, k) != '=')
      decreases CLen(s) - q
    {
      q := q + 1;
    }
  }

  /** `TRIM_TRAILING(start, len)`: shortens `len` over trailing white space. */
  method TrimTrailing(s: string, start: nat, len: nat) returns (m: nat)
    requires start + len <= |s|
    ensures m <= len
    ensures forall k :: start + m <= k < start + len ==> IsSpace(s[k])
    ensures m == 0 || !IsSpace(s[start + m - 1])
  {
    m := len;
    while m > 0 && IsSpace(s[start + m - 1])
      invariant m <= len
      invariant forall k :: start + m <= k < start + len ==> IsSpace(s[k])
    {
      m := m - 1;
    }
  }

  /** The key scan of one iteration stops on the segment's first `=`, or on its end. */
  lemma {:induction false} KeyScanStops(s: string, p0: nat, ks: nat, p: nat)
    requires p0 <= ks <= p <= CLen(s) && p0 < CLen(s)
    requires forall k :: p0 <= k < ks ==> IsSpace(At(s, k))
    requires forall k :: ks <= k < p ==> At(s, k) != ',' && At(s, k) != '='
    requires At(s, p) == NUL || At(s, p) == ',' || At(s, p) == '='
    ensures var t := Text(s); p == p0 + IndexOf(t[p0..SegEnd(t, p0)], '=')
  {
    var t := Text(s);
    var e := SegEnd(t, p0);
    var seg := t[p0..e];
    var j := IndexOf(seg, '=');
    IndexOfFirst(seg, '=');
    TextAt(s);
    SegmentFacts(t, p0);
  }

  /** Trimming a text whose blanks are known: `a` leading blanks, then `m` characters
      that end in a non-blank, then only blanks. */
  lemma TrimRange(u: string, a: nat, m: nat)
    requires a + m <= |u|
    requires forall k :: 0 <= k < a ==> IsSpace(u[k])
    requires a == |u| || !IsSpace(u[a])
    requires forall k :: a + m <= k < |u| ==> IsSpace(u[k])
    requires m == 0 || !IsSpace(u[a + m - 1])
    ensures Trim(u) == u[a..a + m]
  {
    LTrimSkips(u, a);
    RTrimDrops(u[a..], m);
    assert u[a..][..m] == u[a..a + m];
  }

  /** The span `s[lo..hi]` of the C string, trimmed, is `s[vs..vs + vl]` when the
      blanks the two scans passed over are the ones around it. */
  lemma TrimSpan(s: string, lo: nat, hi: nat, vs: nat, vl: nat)
    requires lo <= vs && vs + vl <= hi <= CLen(s)
    requires forall k :: lo <= k < vs ==> IsSpace(At(s, k))
    requires At(s, vs) == NUL || !IsSpace(At(s, vs))
    requires forall k :: vs + vl <= k < hi ==> IsSpace(s[k])
    requires vl == 0 || !IsSpace(s[vs + vl - 1])
    ensures Trim(s[lo..hi]) == s[vs..vs + vl]
  {
    var u := s[lo..hi];
    var a := vs - lo;
    forall k | 0 <= k < a
      ensures IsSpace(u[k])
    {
      assert At(s, lo + k) == u[k];
    }
    assert a == |u| || !IsSpace(u[a]) by {
      if vs < hi {
        assert At(s, vs) == u[a];
      }
    }
    forall k | a + vl <= k < |u|
      ensures IsSpace(u[k])
    {
      assert s[lo + k] == u[k];
    }
    TrimRange(u, a, vl);
    SliceOfSlice(s, lo, hi, a, a + vl);
  }

  /** The trimmed key is the segment's text before its `=`, trimmed. */
  lemma {:induction false} KeyTrimmed(s: string, p0: nat, ks: nat, p: nat, kl: nat)
    requires p0 <= ks <= p <= CLen(s) && p0 < CLen(s)
    requires var t := Text(s); p == p0 + IndexOf(t[p0..SegEnd(t, p0)], '=')
    requires forall k :: p0 <= k < ks ==> IsSpace(At(s, k))
    requires At(s, ks) == NUL || !IsSpace(At(s, ks))
    requires kl <= p - ks
    requires forall k :: ks + kl <= k < p ==> IsSpace(s[k])
    requires kl == 0 || !IsSpace(s[ks + kl - 1])
    ensures var t := Text(s); var seg := t[p0..SegEnd(t, p0)];
      s[ks..ks + kl] == Trim(seg[..IndexOf(seg, '=')])
  {
    var t := Text(s);
    SliceOfSlice(t, p0, SegEnd(t, p0), 0, p - p0);
    TextRange(s, p0, p);
    TrimSpan(s, p0, p, ks, kl);
  }

  /** The key half of one iteration (src/utils.c:508-514): on return `p` stands on the
      segment's first `=` or, when it has none, on its end. */
  method ScanKey(s: string, p0: nat) returns (p: nat, keyStart: nat, keyLen: nat)
    requires p0 < CLen(s)
    ensures var t := Text(s); var seg := t[p0..SegEnd(t, p0)];
      && p == p0 + IndexOf(seg, '=')
      && keyStart + keyLen <= p <= |t|
      && s[keyStart..keyStart + keyLen] == Trim(seg[..IndexOf(seg, '=')])
  {
    keyStart := SkipSpaces(s, p0);
    p := ScanTo(s, keyStart, true);
    keyLen := TrimTrailing(s, keyStart, p - keyStart);
    KeyScanStops(s, p0, keyStart, p);
    KeyTrimmed(s, p0, keyStart, p, keyLen);
  }

  /** The value scan of one iteration stops on the segment's end. */
  lemma {:induction false} ValueScanStops(s: string, p0: nat, pEq: nat, vs: nat, p: nat)
    requires p0 < CLen(s) && p0 <= pEq < SegEnd(Text(s), p0)
    requires pEq + 1 <= vs <= p <= CLen(s)
    requires forall k :: pEq + 1 <= k < vs ==> IsSpace(At(s, k))
    requires forall k :: vs <= k < p ==> At(s, k) != ','
    requires At(s, p) == NUL || At(s, p) == ','
    ensures p == SegEnd(Text(s), p0)
  {
    var t := Text(s);
    TextAt(s);
    SegmentFacts(t, p0);
  }

  /** The trimmed value is the segment's text after its first `=`, trimmed. */
  lemma {:induction false} ValueTrimmed(s: string, p0: nat, pEq: nat, vs: nat, vl: nat)
    requires p0 < CLen(s)
    requires var t := Text(s); var seg := t[p0..SegEnd(t, p0)];
      pEq == p0 + IndexOf(seg, '=') < SegEnd(t, p0)
    requires pEq + 1 <= vs <= SegEnd(Text(s), p0)
    requires forall k :: pEq + 1 <= k < vs ==> IsSpace(At(s, k))
    requires At(s, vs) == NUL || !IsSpace(At(s, vs))
    requires vs + vl <= SegEnd(Text(s), p0)
    requires forall k :: vs + vl <= k < SegEnd(Text(s), p0) ==> IsSpace(s[k])
    requires vl == 0 || !IsSpace(s[vs + vl - 1])
    ensures var t := Text(s); var seg := t[p0..SegEnd(t, p0)];
      s[vs..vs + vl] == Trim(seg[IndexOf(seg, '=') + 1..])
  {
    var t := Text(s);
    var e := SegEnd(t, p0);
    SliceOfSlice(t, p0, e, pEq - p0 + 1, e - p0);
    TextRange(s, pEq + 1, e);
    TrimSpan(s, pEq + 1, e, vs, vl);
  }

  /** The value half of one iteration (src/utils.c:523-530), started on the `=` at
      `pEq`: on return `p` stands on the segment's end. */
  method ScanValue(s: string, p0: nat, pEq: nat) returns (p: nat, valStart: nat, valLen: nat)
    requires p0 < CLen(s)
    requires var t := Text(s); var seg := t[p0..SegEnd(t, p0)];
      pEq == p0 + IndexOf(seg, '=') < SegEnd(t, p0)
    ensures var t := Text(s); var seg := t[p0..SegEnd(t, p0)];
      && p == SegEnd(t, p0)
      && valStart + valLen <= p
      && s[valStart..valStart + valLen] == Trim(seg[IndexOf(seg, '=') + 1..])
  {
    valStart := SkipSpaces(s, pEq + 1);
    p := ScanTo(s, valStart, false);
    valLen := TrimTrailing(s, valStart, p - valStart);
    ValueScanStops(s, p0, pEq, valStart, p);
    ValueTrimmed(s, p0, pEq, valStart, valLen);
  }

  /** Skipping a malformed segment from its end of key stops at the segment's end. */
  lemma {:induction false} SkipScanned(s: string, p0: nat, p1: nat, p: nat)
    requires p0 <= p1 <= p <= CLen(s) && p1 <= SegEnd(Text(s), p0)
    requires forall k :: p1 <= k < p ==> At(s, k) != ','
    requires At(s, p) == NUL || At(s, p) == ','
    ensures p == SegEnd(Text(s), p0)
  {
    var t := Text(s);
    var e := SegEnd(t, p0);
    TextAt(s);
    SegmentFacts(t, p0);
  }

  /** A segment closed by a `,` contributes its pair, if any, ahead of the segments after it. */
  lemma {:induction false} PairsAtComma(t: string, p0: nat)
    requires p0 < |t| && SegEnd(t, p0) < |t|
    ensures Pairs(t[p0..]) == OptionToSeq(SegmentPair(t[p0..SegEnd(t, p0)])) + Pairs(t[SegEnd(t, p0) + 1..])
  {
    var rest := t[p0..];
    var i := IndexOf(rest, ',');
    var e := SegEnd(t, p0);
    assert e == p0 + i;
    assert rest[..i] == t[p0..e];
    assert rest[i + 1..] == t[e + 1..];
    assert Pairs(rest) == OptionToSeq(SegmentPair(rest[..i])) + Pairs(rest[i + 1..]);
  }

  /** The last segment contributes only its own pair, if any. */
  lemma {:induction false} PairsAtEnd(t: string, p0: nat)
    requires p0 < |t| && SegEnd(t, p0) == |t|
    ensures Pairs(t[p0..]) == OptionToSeq(SegmentPair(t[p0..SegEnd(t, p0)]))
  {
    var rest := t[p0..];
    var i := IndexOf(rest, ',');
    var e := SegEnd(t, p0);
    assert e == p0 + i;
    assert i == |rest|;
    assert rest[..i] == t[p0..e];
    assert Pairs(rest) == OptionToSeq(SegmentPair(rest[..i]));
  }

  /** One segment's share of `Pairs`, whether or not a `,` closes it. */
  lemma {:induction false} PairsStep(t: string, p0: nat)
    requires p0 < |t|
    ensures var e := SegEnd(t, p0);
      Pairs(t[p0..]) == OptionToSeq(SegmentPair(t[p0..e])) + Pairs(t[if e < |t| then e + 1 else e..])
  {
    var e := SegEnd(t, p0);
    if e < |t| {
      PairsAtComma(t, p0);
    } else {
      PairsAtEnd(t, p0);
      assert SegmentPair([]) == None;
      assert t[e..] == [];
    }
  }

  lemma {:induction false} FeedCons<S>(x: Pair, rest: seq<Pair>, cb: (S, string, string) -> (S, bool), st: S)
    ensures Feed([x] + rest, cb, st) ==
      if !cb(st, x.key, x.value).1 then cb(st, x.key, x.value) else Feed(rest, cb, cb(st, x.key, x.value).0)
  {
    assert ([x] + rest)[0] == x;
    assert ([x] + rest)[1..] == rest;
  }

  /** The scan of one segment (src/utils.c:508-530), from its start `p0` to its end:
      the pair it holds, if it holds one. */
  method ScanSegment(s: string, p0: nat) returns (p: nat, found: bool, key: string, value: string)
    requires p0 < CLen(s)
    ensures var t := Text(s);
      && p == SegEnd(t, p0)
      && (found <==> SegmentPair(t[p0..p]).Some?)
      && (found ==> SegmentPair(t[p0..p]) == Some(Pair(key, value)))
  {
    ghost var t := Text(s);
    ghost var seg := t[p0..SegEnd(t, p0)];
    var keyStart, keyLen;
    p, keyStart, keyLen := ScanKey(s, p0);
    TextAt(s);
    if At(s, p) != '=' {
      // a segment without `=` is skipped
      var p1 := p;
      p := ScanTo(s, p, false);
      SkipScanned(s, p0, p1, p);
      return p, false, [], [];
    }
    key := s[keyStart..keyStart + keyLen];
    var valStart, valLen;
    p, valStart, valLen := ScanValue(s, p0, p);
    value := s[valStart..valStart + valLen];
    found := true;
  }

  /** Feeding the pairs from `p0` on is feeding the pair of the segment at `p0`, if it
      holds one, and then the pairs after it. */
  lemma FeedSegment<S>(t: string, p0: nat, p: nat, found: bool, key: string, value: string,
                       cb: (S, string, string) -> (S, bool), st: S)
    requires p0 < |t| && p == SegEnd(t, p0)
    requires found <==> SegmentPair(t[p0..p]).Some?
    requires found ==> SegmentPair(t[p0..p]) == Some(Pair(key, value))
    ensures var next := if p < |t| then p + 1 else p;
      Feed(Pairs(t[p0..]), cb, st) ==
        if !found then Feed(Pairs(t[next..]), cb, st)
        else if !cb(st, key, value).1 then cb(st, key, value)
        else Feed(Pairs(t[next..]), cb, cb(st, key, value).0)
  {
    var next := if p < |t| then p + 1 else p;
    PairsStep(t, p0);
    if found {
      FeedCons(Pair(key, value), Pairs(t[next..]), cb, st);
    } else {
      assert Pairs(t[p0..]) == Pairs(t[next..]);
    }
  }

  /** `parse_keyvalue_string` (src/utils.c:503-539). The option text `str` is a C string
      (`None` is NULL); the callback is a function of the state it updates and answers
      false to stop the parse. */
  method ParseKeyValueString<S>(str: Option<string>, cb: (S, string, string) -> (S, bool), st0: S)
    returns (ok: bool, st: S)
    ensures str.None? ==> ok && st == st0
    ensures str.Some? ==> (st, ok) == Feed(Pairs(Text(str.value)), cb, st0)
  {
    st := st0;
    if str.None? {
      return true, st;
    }
    var s := str.value;
    ghost var t := Text(s);
    ghost var goal := Feed(Pairs(t), cb, st0);
    var p := 0;
    AtEnd(s, p);
    while At(s, p) != NUL
      invariant p <= |t|
      invariant At(s, p) == NUL <==> p == |t|
      invariant goal == Feed(Pairs(t[p..]), cb, st)
      decreases |t| - p
    {
      var p0 := p;
      var found, key, value;
      p, found, key, value := ScanSegment(s, p0);
      FeedSegment(t, p0, p, found, key, value, cb, st);
      if found {
        var rc;
        st, rc := cb(st, key, value).0, cb(st, key, value).1;
        if !rc {
          return rc, st;
        }
      }
      AtEnd(s, p);
      SegmentFacts(t, p0);
      if At(s, p) == ',' {
        p := p + 1;
      }
      AtEnd(s, p);
    }
    assert t[p..] == [];
    assert SegmentPair([]) == None;
    return true, st;
  }

  // ---------------------------------------------------------------------------
  // Properties of the reference meaning

  /** `LTrim` keeps a suffix that does not start with white space. */
  lemma {:induction false} LTrimShape(t: string)
    ensures |LTrim(t)| <= |t| && LTrim(t) == t[|t| - |LTrim(t)|..]
    ensures LTrim(t) == [] || !IsSpace(LTrim(t)[0])
  {
    if t != [] && IsSpace(t[0]) {
      LTrimShape(t[1..]);
    }
  }

  /** `RTrim` keeps a prefix that does not end with white space. */
  lemma {:induction false} RTrimShape(t: string)
    ensures |RTrim(t)| <= |t| && RTrim(t) == t[..|RTrim(t)|]
    ensures RTrim(t) == [] || !IsSpace(RTrim(t)[|RTrim(t)| - 1])
  {
    if t != [] && IsSpace(t[|t| - 1]) {
      RTrimShape(t[..|t| - 1]);
    }
  }

  /** What `Trim` hands on is a piece of its input without white space at either end. */
  predicate Trimmed(u: string)
  {
    u == [] || (!IsSpace(u[0]) && !IsSpace(u[|u| - 1]))
  }

  lemma TrimShape(t: string)
    ensures Trimmed(Trim(t))
    ensures forall c :: c in Trim(t) ==> c in t
  {
    LTrimShape(t);
    RTrimShape(LTrim(t));
  }

  /** Every pair the parser reports: both halves trimmed, a key free of `=` and `,`, a
      value free of `,`. */
  predicate WellFormed(pr: Pair)
  {
    && Trimmed(pr.key) && Trimmed(pr.value)
    && '=' !in pr.key && ',' !in pr.key && ',' !in pr.value
  }

  lemma SegmentPairWellFormed(seg: string)
    requires ',' !in seg
    ensures SegmentPair(seg).Some? ==> WellFormed(SegmentPair(seg).value)
    ensures SegmentPair(seg).None? <==> '=' !in seg
  {
    var j := IndexOf(seg, '=');
    IndexOfFirst(seg, '=');
    if j < |seg| {
      TrimShape(seg[..j]);
      TrimShape(seg[j + 1..]);
      assert forall c :: c in seg[..j] ==> c in seg;
      assert forall c :: c in seg[j + 1..] ==> c in seg;
    }
  }

  lemma {:induction false} PairsWellFormed(t: string)
    ensures forall pr :: pr in Pairs(t) ==> WellFormed(pr)
    decreases |t|
  {
    var i := IndexOf(t, ',');
    IndexOfFirst(t, ',');
    SegmentPairWellFormed(t[..i]);
    if i < |t| {
      PairsWellFormed(t[i + 1..]);
    }
  }

  /** A text without any `=` holds no pair. */
  lemma {:induction false} PairsNeedEquals(t: string)
    requires '=' !in t
    ensures Pairs(t) == []
    decreases |t|
  {
    var i := IndexOf(t, ',');
    IndexOfFirst(t, ',');
    SegmentPairWellFormed(t[..i]);
    if i < |t| {
      PairsNeedEquals(t[i + 1..]);
    }
  }

  lemma {:induction false} IndexOfAppend(x: string, y: string, c: char)
    ensures IndexOf(x + y, c) == if IndexOf(x, c) < |x| then IndexOf(x, c) else |x| + IndexOf(y, c)
  {
    if x != [] {
      assert (x + y)[1..] == x[1..] + y;
      IndexOfAppend(x[1..], y, c);
    } else {
      assert x + y == y;
    }
  }

  /** The first `,` of `x + [','] + y` is the first of `x`, or the one added. */
  lemma CommaOfJoin(x: string, y: string)
    ensures IndexOf(x + [','] + y, ',') == IndexOf(x, ',')
  {
    IndexOfAppend(x, [','] + y, ',');
    assert x + [','] + y == x + ([','] + y);
  }

  lemma SlicesOfJoin(x: string, y: string, i: nat)
    requires i <= |x|
    ensures (x + [','] + y)[..i] == x[..i]
    ensures i < |x| ==> (x + [','] + y)[i + 1..] == x[i + 1..] + [','] + y
    ensures i == |x| ==> (x + [','] + y)[i + 1..] == y
  {
  }

  /** Appending `, y` to a text whose first segment is closed by a `,` keeps that segment. */
  lemma JoinAtComma(x: string, y: string)
    requires IndexOf(x, ',') < |x|
    ensures var i := IndexOf(x, ',');
      Pairs(x + [','] + y) == OptionToSeq(SegmentPair(x[..i])) + Pairs(x[i + 1..] + [','] + y)
  {
    var i := IndexOf(x, ',');
    CommaOfJoin(x, y);
    SlicesOfJoin(x, y, i);
    PairsAt(x + [','] + y, i, x[..i], x[i + 1..] + [','] + y);
  }

  /** Appending `, y` to a comma-free text closes it as a segment of its own. */
  lemma JoinNoComma(x: string, y: string)
    requires IndexOf(x, ',') == |x|
    ensures Pairs(x + [','] + y) == OptionToSeq(SegmentPair(x)) + Pairs(y)
  {
    CommaOfJoin(x, y);
    SlicesOfJoin(x, y, |x|);
    assert x[..|x|] == x;
  }

  /** Joining two option strings with a `,` joins their pairs. */
  lemma {:induction false} PairsJoin(x: string, y: string)
    ensures Pairs(x + [','] + y) == Pairs(x) + Pairs(y)
    decreases |x|
  {
    var i := IndexOf(x, ',');
    if i < |x| {
      JoinAtComma(x, y);
      PairsJoin(x[i + 1..], y);
      PairsAtFirstComma(x);
      Regroup(Pairs(x + [','] + y), Pairs(x), OptionToSeq(SegmentPair(x[..i])), Pairs(x[i + 1..]), Pairs(y));
    } else {
      JoinNoComma(x, y);
      assert x[..|x|] == x;
    }
  }

  /** `h + (m + t)` regrouped, stated over opaque values so that the solver does not
      unfold the sequences they stand for. */
  lemma Regroup(whole: seq<Pair>, left: seq<Pair>, h: seq<Pair>, m: seq<Pair>, t: seq<Pair>)
    requires whole == h + (m + t) && left == h + m
    ensures whole == left + t
  {
  }

  /** `Pairs` of a text whose first `,` is at `i`, from the segment before it and the
      text after it. */
  lemma PairsAt(t: string, i: nat, head: string, rest: string)
    requires i < |t| && IndexOf(t, ',') == i && t[..i] == head && t[i + 1..] == rest
    ensures Pairs(t) == OptionToSeq(SegmentPair(head)) + Pairs(rest)
  {
  }

  lemma PairsAtFirstComma(t: string)
    requires IndexOf(t, ',') < |t|
    ensures var i := IndexOf(t, ',');
      Pairs(t) == OptionToSeq(SegmentPair(t[..i])) + Pairs(t[i + 1..])
  {
  }

  /** The callback that records what it is handed and never stops the parse. */
  function Record(acc: seq<Pair>, key: string, value: string): (seq<Pair>, bool)
  {
    (acc + [Pair(key, value)], true)
  }

  /** With a callback that never refuses, every pair is visited once, in order. */
  lemma {:induction false} FeedVisitsAll(pairs: seq<Pair>, acc: seq<Pair>)
    ensures Feed(pairs, Record, acc) == (acc + pairs, true)
  {
    if pairs != [] {
      FeedVisitsAll(pairs[1..], acc + [pairs[0]]);
      assert acc + [pairs[0]] + pairs[1..] == acc + pairs;
    } else {
      assert acc + pairs == acc;
    }
  }

  /** Once the callback refuses, nothing after that pair is looked at. */
  lemma {:induction false} FeedStopsAtRefusal<S>(
    before: seq<Pair>, x: Pair, after1: seq<Pair>, after2: seq<Pair>,
    cb: (S, string, string) -> (S, bool), st: S)
    requires !cb(Feed(before, cb, st).0, x.key, x.value).1
    requires Feed(before, cb, st).1
    ensures Feed(before + [x] + after1, cb, st) == Feed(before + [x] + after2, cb, st)
    ensures !Feed(before + [x] + after1, cb, st).1
  {
    if before == [] {
      assert before + [x] + after1 == [x] + after1;
      assert before + [x] + after2 == [x] + after2;
      FeedCons(x, after1, cb, st);
      FeedCons(x, after2, cb, st);
    } else {
      var st' := cb(st, before[0].key, before[0].value).0;
      FeedStopsAtRefusal(before[1..], x, after1, after2, cb, st');
      assert (before + [x] + after1)[1..] == before[1..] + [x] + after1;
      assert (before + [x] + after2)[1..] == before[1..] + [x] + after2;
    }
  }
}
