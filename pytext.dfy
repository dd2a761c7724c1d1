/**
 * The two Python string operations the request handler applies to the
 * generated text: slicing off a prefix (`s[n:]`) and `str.strip()`.
 *
 * `Strip` follows CPython's algorithm: skip whitespace forward from the start,
 * then back off whitespace from the end, never past the first kept character.
 * The whitespace test `ws` is a parameter; the handler passes `IsSpace`,
 * Python's `str.isspace()` on one character, and the lemmas hold for any test.
 */
module PyText {

  /** The code points for which `str.isspace()` holds, listed one by one. */
  const SpaceCodePoints: set<int> := {
    0x09, 0x0A, 0x0B, 0x0C, 0x0D, 0x1C, 0x1D, 0x1E, 0x1F, 0x20, 0x85, 0xA0, 0x1680,
    0x2000, 0x2001, 0x2002, 0x2003, 0x2004, 0x2005, 0x2006, 0x2007, 0x2008, 0x2009, 0x200A,
    0x2028, 0x2029, 0x202F, 0x205F, 0x3000}

  /**
   * `str.isspace()` on one character: the characters `str.strip()` removes,
   * which are exactly the 29 code points of `SpaceCodePoints`.
   */
  predicate IsSpace(c: char)
    ensures IsSpace(c) <==> c as int in SpaceCodePoints
  {
    || ('\t' <= c <= '\r')                 // tab, line feed, vertical tab, form feed, carriage return
    || ('\U{1C}' <= c <= '\U{1F}')         // file, group, record and unit separators
    || c == ' ' || c == '\U{85}' || c == '\U{A0}' || c == '\U{1680}'
    || ('\U{2000}' <= c <= '\U{200A}')
    || c == '\U{2028}' || c == '\U{2029}' || c == '\U{202F}' || c == '\U{205F}' || c == '\U{3000}'
  }

  /** Neither end of `s` is whitespace. */
  ghost predicate Trimmed(s: string, ws: char -> bool)
  {
    s == [] || (!ws(s[0]) && !ws(s[|s| - 1]))
  }

  /** `s[n:]` for n >= 0: empty once `n` reaches the length. */
  function DropPrefix(s: string, n: nat): (r: string)
    ensures |s| <= n ==> r == []
    ensures n <= |s| ==> |r| == |s| - n && forall k :: 0 <= k < |r| ==> r[k] == s[n + k]
  {
    if n >= |s| then [] else s[n..]
  }

  /** The first position at or after `from` that does not hold whitespace (or |s|). */
  function SkipSpace(s: string, ws: char -> bool, from: nat): (i: nat)
    requires from <= |s|
    ensures from <= i <= |s|
    ensures forall k :: from <= k < i ==> ws(s[k])
    ensures i == |s| || !ws(s[i])
    decreases |s| - from
  {
    if from < |s| && ws(s[from]) then SkipSpace(s, ws, from + 1) else from
  }

  /**
   * The end of `s[lo..stop]` once its trailing whitespace is removed: the
   * characters between the result and `stop` are whitespace, and the one before
   * the result (if it is past `lo`) is not.
   */
  function BackOffSpace(s: string, ws: char -> bool, lo: nat, stop: nat): (j: nat)
    requires lo <= stop <= |s|
    ensures lo <= j <= stop
    ensures forall k :: j <= k < stop ==> ws(s[k])
    ensures j == lo || !ws(s[j - 1])
    decreases stop
  {
    if stop > lo && ws(s[stop - 1]) then BackOffSpace(s, ws, lo, stop - 1) else stop
  }

  /** `str.strip()`: `s` without its leading and trailing whitespace. */
  function Strip(s: string, ws: char -> bool): (r: string)
    ensures |r| <= |s|
    ensures r == [] <==> forall k :: 0 <= k < |s| ==> ws(s[k])
  {
    var i := SkipSpace(s, ws, 0);
    s[i..BackOffSpace(s, ws, i, |s|)]
  }

  /** `Strip(s)` has no whitespace at either end. */
  lemma StripTrimmed(s: string, ws: char -> bool)
    ensures Trimmed(Strip(s, ws), ws)
  {
    var i := SkipSpace(s, ws, 0);
    var j := BackOffSpace(s, ws, i, |s|);
    assert Strip(s, ws) == s[i..j];
    assert j > i ==> s[i..j][0] == s[i] && s[i..j][j - i - 1] == s[j - 1];
  }

  /**
   * Reference definition of stripping: whenever s[i..j] has whitespace only
   * outside it and none at its ends, `Strip(s)` is exactly s[i..j].
   */
  lemma StripUnique(s: string, ws: char -> bool, i: nat, j: nat)
    requires i <= j <= |s|
    requires forall k :: 0 <= k < i ==> ws(s[k])
    requires forall k :: j <= k < |s| ==> ws(s[k])
    requires i < j ==> !ws(s[i]) && !ws(s[j - 1])
    ensures Strip(s, ws) == s[i..j]
  {
    var i' := SkipSpace(s, ws, 0);
    var j' := BackOffSpace(s, ws, i', |s|);
  }

  /** `StripUnique` applied to the tail s[n..], with positions counted in `s`. */
  lemma StripTailUnique(s: string, ws: char -> bool, n: nat, i: nat, j: nat)
    requires n <= i <= j <= |s|
    requires forall k :: n <= k < i ==> ws(s[k])
    requires forall k :: j <= k < |s| ==> ws(s[k])
    requires i < j ==> !ws(s[i]) && !ws(s[j - 1])
    ensures Strip(s[n..], ws) == s[i..j]
  {
    var tail := s[n..];
    forall k | 0 <= k < i - n ensures ws(tail[k]) {
      assert tail[k] == s[n + k];
    }
    forall k | j - n <= k < |tail| ensures ws(tail[k]) {
      assert tail[k] == s[n + k];
    }
    StripUnique(tail, ws, i - n, j - n);
    assert tail[i - n..j - n] == s[i..j];
  }

  /** Stripping twice is stripping once. */
  lemma StripIdempotent(s: string, ws: char -> bool)
    ensures Strip(Strip(s, ws), ws) == Strip(s, ws)
  {
    var r := Strip(s, ws);
    StripTrimmed(s, ws);
    assert forall k :: 0 <= k < |r| ==> r[k] == s[SkipSpace(s, ws, 0) + k];
    StripUnique(r, ws, 0, |r|);
  }
}
