/**
 * Python's `str` operations that the blocks use, on `string == seq<char>`:
 * `strip()`, `split(sep)`, `sep.join(parts)`, `replace(old, new)`, ASCII `lower()`/`upper()`
 * and the ordering `<=` that `sorted` uses on strings.
 */
module Text {
  import opened Wrappers

  /** Concatenation is associative; stated once so that proofs can cite it. */
  lemma Associative<T>(a: seq<T>, b: seq<T>, c: seq<T>)
    ensures (a + b) + c == a + (b + c)
  {
  }

  // ---------------------------------------------------------------------------
  // Whitespace and strip()
  // ---------------------------------------------------------------------------

  /** The characters for which Python's `str.isspace()` holds. */
  predicate IsSpace(c: char) {
    || c == ' '
    || ('\t' <= c <= '\r')
    || ('\U{1C}' <= c <= '\U{1F}')
    || c == '\U{85}' || c == '\U{A0}' || c == '\U{1680}'
    || ('\U{2000}' <= c <= '\U{200A}')
    || c == '\U{2028}' || c == '\U{2029}' || c == '\U{202F}' || c == '\U{205F}' || c == '\U{3000}'
  }

  /** Every character of `s` is whitespace (so `s.strip()` is empty and falsy). */
  predicate IsBlank(s: string) {
    forall k :: 0 <= k < |s| ==> IsSpace(s[k])
  }

  /** `s.lstrip()`: drops the leading whitespace, keeping a suffix of `s`. */
  function TrimLeft(s: string): (r: string)
    ensures |r| <= |s| && r == s[|s| - |r|..]
    ensures forall k :: 0 <= k < |s| - |r| ==> IsSpace(s[k])
    ensures r == [] || !IsSpace(r[0])
  {
    if |s| > 0 && IsSpace(s[0]) then TrimLeft(s[1..]) else s
  }

  /** `s.rstrip()`: drops the trailing whitespace, keeping a prefix of `s`. */
  function TrimRight(s: string): (r: string)
    ensures |r| <= |s| && r == s[..|r|]
    ensures forall k :: |r| <= k < |s| ==> IsSpace(s[k])
    ensures r == [] || !IsSpace(r[|r| - 1])
  {
    if |s| > 0 && IsSpace(s[|s| - 1]) then TrimRight(s[..|s| - 1]) else s
  }

  /** `s.strip()`: `s` without its leading and trailing whitespace. */
  function Strip(s: string): (r: string)
    ensures |r| <= |s|
  {
    TrimRight(TrimLeft(s))
  }

  /**
   * What `strip()` returns: the longest infix of `s` that neither starts nor ends with
   * whitespace, empty exactly when `s` is blank.
   */
  lemma StripShape(s: string)
    ensures Strip(s) == [] <==> IsBlank(s)
    ensures Strip(s) == [] || (!IsSpace(Strip(s)[0]) && !IsSpace(Strip(s)[|Strip(s)| - 1]))
    ensures InfixAt(Strip(s), s, |s| - |TrimLeft(s)|)
  {
    var l := TrimLeft(s);
    var r := TrimRight(l);
    assert r == s[|s| - |l|..][..|r|];
    assert r == s[|s| - |l|..|s| - |l| + |r|];
    assert r == [] ==> l == [];
  }

  /** `r` occurs in `s` starting at index `i`. */
  predicate InfixAt(r: string, s: string, i: int) {
    0 <= i && i + |r| <= |s| && s[i..i + |r|] == r
  }

  /** Stripping is idempotent. */
  lemma StripIdempotent(s: string)
    ensures Strip(Strip(s)) == Strip(s)
  {
    var r := Strip(s);
    StripShape(s);
    assert r == [] || !IsSpace(r[0]);
    assert TrimLeft(r) == r;
    assert r == [] || !IsSpace(r[|r| - 1]);
  }

  // ---------------------------------------------------------------------------
  // Occurrences, split and join
  // ---------------------------------------------------------------------------

  /** `sep` occurs in `s` starting at index `k`. */
  predicate OccursAt(s: string, sep: string, k: int) {
    0 <= k && k + |sep| <= |s| && s[k..k + |sep|] == sep
  }

  /** `sep in s`. */
  ghost predicate Contains(s: string, sep: string) {
    exists k :: OccursAt(s, sep, k)
  }

  /** `s.find(sep, from)` restricted to matches at or after `from`: the leftmost one. */
  function FindFrom(s: string, sep: string, from: nat): (r: Option<nat>)
    requires from <= |s|
    ensures r.Some? ==> from <= r.value && OccursAt(s, sep, r.value)
    ensures r.Some? ==> forall k :: from <= k < r.value ==> !OccursAt(s, sep, k)
    ensures r.None? ==> forall k :: from <= k ==> !OccursAt(s, sep, k)
    decreases |s| - from
  {
    if OccursAt(s, sep, from) then Some(from)
    else if from + |sep| >= |s| then
      assert forall k :: from < k ==> !OccursAt(s, sep, k);
      None
    else FindFrom(s, sep, from + 1)
  }

  /** `s.find(sep)`: the leftmost occurrence of `sep` in `s`, if any. */
  function Find(s: string, sep: string): (r: Option<nat>)
    ensures r.Some? ==> OccursAt(s, sep, r.value) && forall k :: 0 <= k < r.value ==> !OccursAt(s, sep, k)
    ensures r.None? <==> !Contains(s, sep)
  {
    FindFrom(s, sep, 0)
  }

  /** `s.split(sep)` for a non-empty separator: the pieces between the occurrences of `sep`. */
  function Split(s: string, sep: string): (r: seq<string>)
    requires |sep| > 0
    ensures |r| >= 1
    decreases |s|
  {
    match Find(s, sep)
    case None => [s]
    case Some(k) => [s[..k]] + Split(s[k + |sep|..], sep)
  }

  /** An occurrence in a prefix of `s` is an occurrence in `s` that ends within the prefix. */
  lemma PrefixOccurrences(s: string, sep: string, k: nat)
    requires k <= |s|
    ensures forall j :: OccursAt(s[..k], sep, j) ==> OccursAt(s, sep, j) && j + |sep| <= k
  {
    forall j | OccursAt(s[..k], sep, j) ensures OccursAt(s, sep, j) && j + |sep| <= k {
      assert s[j..j + |sep|] == s[..k][j..j + |sep|];
    }
  }

  /** No piece of a split contains the separator. */
  lemma {:induction false} SplitPiecesFree(s: string, sep: string)
    requires |sep| > 0
    ensures forall i :: 0 <= i < |Split(s, sep)| ==> !Contains(Split(s, sep)[i], sep)
    decreases |s|
  {
    match Find(s, sep)
    case None =>
    case Some(k) =>
      var head := s[..k];
      PrefixOccurrences(s, sep, k);
      assert !Contains(head, sep);
      var tail := Split(s[k + |sep|..], sep);
      SplitPiecesFree(s[k + |sep|..], sep);
      var r := Split(s, sep);
      assert r == [head] + tail;
      forall i | 0 <= i < |r| ensures !Contains(r[i], sep) {
        if i > 0 {
          assert r[i] == tail[i - 1];
        }
      }
  }

  /** `sep.join(parts)`. */
  function Join(parts: seq<string>, sep: string): (r: string)
  {
    if |parts| == 0 then ""
    else if |parts| == 1 then parts[0]
    else parts[0] + sep + Join(parts[1..], sep)
  }

  /** Joining the pieces of a split with the same separator gives the original text back. */
  lemma {:induction false} JoinSplit(s: string, sep: string)
    requires |sep| > 0
    ensures Join(Split(s, sep), sep) == s
    decreases |s|
  {
    match Find(s, sep)
    case None =>
    case Some(k) =>
      var rest := s[k + |sep|..];
      var pieces := Split(rest, sep);
      JoinSplit(rest, sep);
      assert Split(s, sep) == [s[..k]] + pieces;
      JoinCons(s[..k], pieces, sep);
      assert s == s[..k] + sep + rest by {
        assert s[k..k + |sep|] == sep;
      }
  }

  /** Joining a non-empty list behind a first piece puts one separator between them. */
  lemma JoinCons(head: string, tail: seq<string>, sep: string)
    requires |tail| >= 1
    ensures Join([head] + tail, sep) == head + sep + Join(tail, sep)
  {
    assert ([head] + tail)[1..] == tail;
  }

  /** Every non-blank piece is kept, stripped. */
  lemma {:induction false} StrippedNonBlankKeeps(pieces: seq<string>)
    ensures forall p :: p in pieces && !IsBlank(p) ==> Strip(p) in StrippedNonBlank(pieces)
  {
    if pieces != [] {
      var rest := pieces[1..];
      StrippedNonBlankKeeps(rest);
      forall p | p in pieces && !IsBlank(p) ensures Strip(p) in StrippedNonBlank(pieces) {
        if p != pieces[0] {
          assert p in rest;
        }
      }
    }
  }

  /** Every kept text is some piece, stripped. */
  lemma {:induction false} StrippedNonBlankFrom(pieces: seq<string>)
    ensures forall t :: t in StrippedNonBlank(pieces) ==> exists p :: p in pieces && Strip(p) == t
  {
    if pieces != [] {
      var rest := pieces[1..];
      StrippedNonBlankFrom(rest);
      forall t | t in StrippedNonBlank(pieces) ensures exists p :: p in pieces && Strip(p) == t {
        if t in StrippedNonBlank(rest) {
          var p :| p in rest && Strip(p) == t;
          assert p in pieces;
        } else {
          assert pieces[0] in pieces;
        }
      }
    }
  }


  /** Text without the separator is one piece. */
  lemma SplitWithoutSeparator(s: string, sep: string)
    requires |sep| > 0 && !Contains(s, sep)
    ensures Split(s, sep) == [s]
  {
  }

  /**
   * `[p.strip() for p in text.split(sep) if p.strip()]`: the stripped pieces between the
   * separators, blank pieces dropped, in order.
   */
  function NonBlankPieces(text: string, sep: string): (r: seq<string>)
    requires |sep| > 0
    ensures |r| <= |Split(text, sep)|
  {
    StrippedNonBlank(Split(text, sep))
  }

  /** `[p.strip() for p in pieces if p.strip()]`. */
  function StrippedNonBlank(pieces: seq<string>): (r: seq<string>)
    ensures |r| <= |pieces|
  {
    if pieces == [] then []
    else
      var rest := StrippedNonBlank(pieces[1..]);
      var head := Strip(pieces[0]);
      if head != [] then [head] + rest else rest
  }

  /** Every piece kept is non-empty and already stripped. */
  lemma {:induction false} StrippedNonBlankClean(pieces: seq<string>)
    ensures forall p :: p in StrippedNonBlank(pieces) ==> p != [] && Strip(p) == p
  {
    if pieces != [] {
      StrippedNonBlankClean(pieces[1..]);
      StripIdempotent(pieces[0]);
    }
  }

  /** Text with no separator gives its stripped self, or nothing when it is blank. */
  lemma NonBlankPiecesWithoutSeparator(text: string, sep: string)
    requires |sep| > 0 && !Contains(text, sep)
    ensures NonBlankPieces(text, sep) == if IsBlank(text) then [] else [Strip(text)]
  {
    SplitWithoutSeparator(text, sep);
  }

  // ---------------------------------------------------------------------------
  // replace()
  // ---------------------------------------------------------------------------

  /** `s.replace(old, new)` for a non-empty `target`: every non-overlapping occurrence, left to right. */
  function ReplaceNonEmpty(s: string, target: string, repl: string): (r: string)
    requires |target| > 0
    decreases |s|
  {
    match Find(s, target)
    case None => s
    case Some(k) => s[..k] + repl + ReplaceNonEmpty(s[k + |target|..], target, repl)
  }

  /** `s.replace("", repl)`: Python inserts `repl` before every character and at the end. */
  function ReplaceEmpty(s: string, repl: string): (r: string)
    ensures |r| == |s| + (|s| + 1) * |repl|
  {
    if s == [] then repl else repl + [s[0]] + ReplaceEmpty(s[1..], repl)
  }

  /** Python's `s.replace(old, new)`. */
  function Replace(s: string, target: string, repl: string): string {
    if target == [] then ReplaceEmpty(s, repl) else ReplaceNonEmpty(s, target, repl)
  }

  /** Replacing is splitting on `target` and joining with `repl`. */
  lemma {:induction false} ReplaceIsJoinOfSplit(s: string, target: string, repl: string)
    requires |target| > 0
    ensures Replace(s, target, repl) == Join(Split(s, target), repl)
    decreases |s|
  {
    match Find(s, target)
    case None =>
    case Some(k) =>
      var head := s[..k];
      var rest := s[k + |target|..];
      var pieces := Split(rest, target);
      assert Replace(s, target, repl) == head + repl + ReplaceNonEmpty(rest, target, repl);
      ReplaceIsJoinOfSplit(rest, target, repl);
      assert Split(s, target) == [head] + pieces;
      JoinCons(head, pieces, repl);
  }

  /** Text without an occurrence of `target` is returned unchanged. */
  lemma ReplaceAbsent(s: string, target: string, repl: string)
    requires !Contains(s, target)
    ensures Replace(s, target, repl) == s
  {
    assert target != [] by {
      if target == [] { assert OccursAt(s, target, 0); }
    }
  }

  /** Replacing a text by itself changes nothing. */
  lemma ReplaceWithItself(s: string, target: string)
    ensures Replace(s, target, target) == s
  {
    if target == [] {
      ReplaceEmptyWithEmpty(s);
    } else {
      ReplaceIsJoinOfSplit(s, target, target);
      JoinSplit(s, target);
    }
  }

  lemma {:induction false} ReplaceEmptyWithEmpty(s: string)
    ensures ReplaceEmpty(s, "") == s
  {
    if s != [] {
      ReplaceEmptyWithEmpty(s[1..]);
      assert s == [s[0]] + s[1..];
    }
  }

  // ---------------------------------------------------------------------------
  // ASCII case mapping
  // ---------------------------------------------------------------------------

  /** `c.lower()` on the ASCII letters. */
  function LowerChar(c: char): char {
    if 'A' <= c <= 'Z' then (c as int + 32) as char else c
  }

  /** `c.upper()` on the ASCII letters. */
  function UpperChar(c: char): char {
    if 'a' <= c <= 'z' then (c as int - 32) as char else c
  }

  /** `s.lower()`, character by character. */
  function Lower(s: string): (r: string)
    ensures |r| == |s| && forall k :: 0 <= k < |s| ==> r[k] == LowerChar(s[k])
  {
    if s == [] then [] else [LowerChar(s[0])] + Lower(s[1..])
  }

  /** `s.upper()`, character by character. */
  function Upper(s: string): (r: string)
    ensures |r| == |s| && forall k :: 0 <= k < |s| ==> r[k] == UpperChar(s[k])
  {
    if s == [] then [] else [UpperChar(s[0])] + Upper(s[1..])
  }

  /** A lower-cased text has no upper-case ASCII letter, and lower-casing it again changes nothing. */
  lemma LowerIdempotent(s: string)
    ensures Lower(Lower(s)) == Lower(s)
    ensures forall k :: 0 <= k < |s| ==> !('A' <= Lower(s)[k] <= 'Z')
  {
    var l := Lower(s);
    forall k | 0 <= k < |s| ensures !('A' <= l[k] <= 'Z') && LowerChar(l[k]) == l[k] {
      assert l[k] == LowerChar(s[k]);
    }
    assert Lower(l) == l;
  }

  // ---------------------------------------------------------------------------
  // String ordering (Python compares strings by code point, lexicographically)
  // ---------------------------------------------------------------------------

  /** `a <= b` on Python strings. */
  predicate StrLe(a: string, b: string) {
    if a == [] then true
    else if b == [] then false
    else if a[0] != b[0] then a[0] < b[0]
    else StrLe(a[1..], b[1..])
  }

  /** `a < b` on Python strings. */
  predicate StrLt(a: string, b: string) {
    StrLe(a, b) && a != b
  }

  lemma {:induction false} StrLeTotal(a: string, b: string)
    ensures StrLe(a, b) || StrLe(b, a)
  {
    if a != [] && b != [] && a[0] == b[0] {
      StrLeTotal(a[1..], b[1..]);
    }
  }

  lemma {:induction false} StrLeAntisymmetric(a: string, b: string)
    requires StrLe(a, b) && StrLe(b, a)
    ensures a == b
  {
    if a != [] && b != [] {
      StrLeAntisymmetric(a[1..], b[1..]);
      assert a == [a[0]] + a[1..];
      assert b == [b[0]] + b[1..];
    }
  }

  lemma {:induction false} StrLeTransitive(a: string, b: string, c: string)
    requires StrLe(a, b) && StrLe(b, c)
    ensures StrLe(a, c)
  {
    if a != [] && b != [] && c != [] && a[0] == b[0] && b[0] == c[0] {
      StrLeTransitive(a[1..], b[1..], c[1..]);
    }
  }

  // ---------------------------------------------------------------------------
  // Python's sorted(xs, key=...) on string keys: a stable insertion sort
  // ---------------------------------------------------------------------------

  /** The keys of `xs` are in non-decreasing order. */
  ghost predicate SortedBy<T>(xs: seq<T>, key: T -> string) {
    forall i, j :: 0 <= i < j < |xs| ==> StrLe(key(xs[i]), key(xs[j]))
  }

  /** Inserts `x` into `xs` after every element whose key is not greater than `x`'s. */
  function InsertBy<T>(x: T, xs: seq<T>, key: T -> string): (r: seq<T>)
    ensures multiset(r) == multiset(xs) + multiset{x}
  {
    if xs == [] then [x]
    else if StrLt(key(x), key(xs[0])) then [x] + xs
    else
      assert xs == [xs[0]] + xs[1..];
      [xs[0]] + InsertBy(x, xs[1..], key)
  }

  /** `sorted(xs, key=key)`: elements with equal keys keep their relative order. */
  function SortBy<T>(xs: seq<T>, key: T -> string): (r: seq<T>)
    ensures multiset(r) == multiset(xs)
  {
    if xs == [] then []
    else
      assert xs == xs[..|xs| - 1] + [xs[|xs| - 1]];
      InsertBy(xs[|xs| - 1], SortBy(xs[..|xs| - 1], key), key)
  }

  lemma {:induction false} InsertBySorted<T>(x: T, xs: seq<T>, key: T -> string)
    requires SortedBy(xs, key)
    ensures SortedBy(InsertBy(x, xs, key), key)
  {
    if xs != [] && !StrLt(key(x), key(xs[0])) {
      InsertBySorted(x, xs[1..], key);
      var r := InsertBy(x, xs, key);
      var tail := InsertBy(x, xs[1..], key);
      assert r == [xs[0]] + tail;
      StrLeTotal(key(x), key(xs[0]));
      assert StrLe(key(xs[0]), key(x));
      forall j | 0 < j < |r| ensures StrLe(key(xs[0]), key(r[j])) {
        assert r[j] in multiset(tail);
        assert r[j] in multiset(xs[1..]) + multiset{x};
        if r[j] == x {
        } else {
          assert r[j] in xs[1..];
          var m :| 0 <= m < |xs[1..]| && xs[1..][m] == r[j];
          assert xs[m + 1] == r[j];
        }
      }
    } else if xs != [] {
      var r := InsertBy(x, xs, key);
      forall i, j | 0 <= i < j < |r| ensures StrLe(key(r[i]), key(r[j])) {
        if i == 0 {
          StrLeTotal(key(x), key(xs[0]));
          if j > 1 {
            StrLeTransitive(key(x), key(xs[0]), key(xs[j - 1]));
          }
        }
      }
    }
  }

  /** `SortBy` returns its input's elements in non-decreasing key order. */
  lemma {:induction false} SortBySorted<T>(xs: seq<T>, key: T -> string)
    ensures SortedBy(SortBy(xs, key), key)
  {
    if xs != [] {
      SortBySorted(xs[..|xs| - 1], key);
      InsertBySorted(xs[|xs| - 1], SortBy(xs[..|xs| - 1], key), key);
    }
  }
  /** The elements of `xs` whose key is `k`, in their order in `xs`. */
  function WithKey<T>(xs: seq<T>, key: T -> string, k: string): (r: seq<T>)
    ensures |r| <= |xs|
  {
    if xs == [] then []
    else (if key(xs[0]) == k then [xs[0]] else []) + WithKey(xs[1..], key, k)
  }

  /** Filtering by key distributes over appending one element. */
  lemma {:induction false} WithKeySnoc<T>(xs: seq<T>, x: T, key: T -> string, k: string)
    ensures WithKey(xs + [x], key, k) == WithKey(xs, key, k) + (if key(x) == k then [x] else [])
  {
    if xs == [] {
      assert [x][1..] == [];
    } else {
      assert (xs + [x])[1..] == xs[1..] + [x];
      WithKeySnoc(xs[1..], x, key, k);
    }
  }

  /** No element keyed `k` leaves nothing to filter. */
  lemma {:induction false} WithKeyNone<T>(xs: seq<T>, key: T -> string, k: string)
    requires forall i :: 0 <= i < |xs| ==> key(xs[i]) != k
    ensures WithKey(xs, key, k) == []
  {
    if xs != [] {
      assert forall i :: 0 <= i < |xs[1..]| ==> key(xs[1..][i]) != k by {
        forall i | 0 <= i < |xs[1..]| ensures key(xs[1..][i]) != k {
          assert xs[1..][i] == xs[i + 1];
        }
      }
      WithKeyNone(xs[1..], key, k);
    }
  }

  /** Inserting into a sorted list puts `x` after every element with the same key. */
  lemma {:induction false} InsertByStable<T>(x: T, xs: seq<T>, key: T -> string, k: string)
    requires SortedBy(xs, key)
    ensures WithKey(InsertBy(x, xs, key), key, k) == WithKey(xs, key, k) + (if key(x) == k then [x] else [])
  {
    if xs == [] {
      assert [x][1..] == [];
    } else if StrLt(key(x), key(xs[0])) {
      assert ([x] + xs)[1..] == xs;
      if key(x) == k {
        forall i | 0 <= i < |xs| ensures key(xs[i]) != k {
          if key(xs[i]) == k {
            assert StrLe(key(xs[0]), key(xs[i]));
            StrLeAntisymmetric(key(x), key(xs[0]));
          }
        }
        WithKeyNone(xs, key, k);
      }
    } else {
      var tail := InsertBy(x, xs[1..], key);
      assert InsertBy(x, xs, key) == [xs[0]] + tail;
      assert ([xs[0]] + tail)[1..] == tail;
      InsertByStable(x, xs[1..], key, k);
    }
  }

  /** `sorted` is stable: the elements sharing any one key keep their relative order. */
  lemma {:induction false} SortByStable<T>(xs: seq<T>, key: T -> string, k: string)
    ensures WithKey(SortBy(xs, key), key, k) == WithKey(xs, key, k)
  {
    if xs != [] {
      var init, last := xs[..|xs| - 1], xs[|xs| - 1];
      SortByStable(init, key, k);
      SortBySorted(init, key);
      InsertByStable(last, SortBy(init, key), key, k);
      assert xs == init + [last];
      WithKeySnoc(init, last, key, k);
    }
  }

}
