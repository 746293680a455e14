/**
 * The String.prototype operations the adapter session relies on (`split`, `trim`),
 * written out with their JavaScript meaning.
 */
module JsString {

  /** Index of the first occurrence of `c` in `s`, or `|s|` when `c` does not occur. */
  function IndexOf(s: string, c: char): (k: nat)
    ensures k <= |s|
    ensures k < |s| ==> s[k] == c
    ensures forall i :: 0 <= i < k ==> s[i] != c
  {
    if s == [] then 0
    else if s[0] == c then 0
    else 1 + IndexOf(s[1..], c)
  }

  /**
   * `s.split(c)` for a one-character separator: the pieces between the
   * occurrences of `c`, empty pieces included; there is always at least one.
   */
  function Split(s: string, c: char): (pieces: seq<string>)
    ensures |pieces| >= 1
    decreases |s|
  {
    var k := IndexOf(s, c);
    if k == |s| then [s]
    else [s[..k]] + Split(s[k + 1..], c)
  }

  /** `pieces.join(c)`. */
  function Join(pieces: seq<string>, c: char): string
  {
    if |pieces| == 0 then ""
    else if |pieces| == 1 then pieces[0]
    else pieces[0] + [c] + Join(pieces[1..], c)
  }

  /** Splitting loses nothing: joining the pieces back with the separator gives the string again. */
  lemma {:induction false} JoinSplit(s: string, c: char)
    ensures Join(Split(s, c), c) == s
    decreases |s|
  {
    var k := IndexOf(s, c);
    if k < |s| {
      var rest := s[k + 1..];
      var pieces := Split(s, c);
      JoinSplit(rest, c);
      assert pieces == [s[..k]] + Split(rest, c);
      assert |pieces| >= 2 && pieces[0] == s[..k] && pieces[1..] == Split(rest, c);
      assert Join(pieces, c) == s[..k] + [c] + rest;
      assert s == s[..k] + [c] + rest;
    }
  }

  /** A piece free of `c`, then `c`: splitting yields that piece and then the pieces of the rest. */
  lemma SplitCons(a: string, c: char, b: string)
    requires c !in a
    ensures Split(a + [c] + b, c) == [a] + Split(b, c)
  {
    var s := a + [c] + b;
    assert s[|a|] == c;
    assert IndexOf(s, c) == |a|;
    assert s[..|a|] == a && s[|a| + 1..] == b;
  }

  /** Joining pieces free of `c` loses nothing either: splitting the result gives the pieces back. */
  lemma {:induction false} SplitJoin(pieces: seq<string>, c: char)
    requires |pieces| >= 1
    requires forall p :: p in pieces ==> c !in p
    ensures Split(Join(pieces, c), c) == pieces
    decreases |pieces|
  {
    if |pieces| == 1 {
      assert c !in pieces[0];
    } else {
      assert pieces[0] in pieces;
      assert forall p :: p in pieces[1..] ==> p in pieces;
      SplitJoin(pieces[1..], c);
      SplitCons(pieces[0], c, Join(pieces[1..], c));
      assert pieces == [pieces[0]] + pieces[1..];
    }
  }

  /**
   * The characters `String.prototype.trim` and `parseInt` skip: ECMAScript's
   * WhiteSpace (tab, VT, FF, space, NBSP, BOM and the other space
   * separators of Unicode) and LineTerminator (LF, CR, LS, PS).
   */
  predicate IsWhitespace(ch: char)
  {
    var c := ch as int;
    c == 0x09 || c == 0x0A || c == 0x0B || c == 0x0C || c == 0x0D || c == 0x20 ||
    c == 0xA0 || c == 0x1680 || (0x2000 <= c <= 0x200A) || c == 0x2028 || c == 0x2029 ||
    c == 0x202F || c == 0x205F || c == 0x3000 || c == 0xFEFF
  }

  function TrimStart(s: string): (t: string)
    ensures |t| <= |s|
    ensures t != [] ==> !IsWhitespace(t[0])
  {
    if s != [] && IsWhitespace(s[0]) then TrimStart(s[1..]) else s
  }

  /** `TrimStart` removes a prefix, and only white space. */
  lemma {:induction false} TrimStartRemovesWhitespace(s: string)
    ensures var t := TrimStart(s);
      t == s[|s| - |t|..] && forall i :: 0 <= i < |s| - |t| ==> IsWhitespace(s[i])
    decreases |s|
  {
    if s != [] && IsWhitespace(s[0]) {
      TrimStartRemovesWhitespace(s[1..]);
    }
  }

  function TrimEnd(s: string): (t: string)
    ensures |t| <= |s| && t == s[..|t|]
    ensures t != [] ==> !IsWhitespace(t[|t| - 1])
  {
    if s != [] && IsWhitespace(s[|s| - 1]) then TrimEnd(s[..|s| - 1]) else s
  }

  /** `TrimEnd` removes a suffix, and only white space. */
  lemma {:induction false} TrimEndRemovesWhitespace(s: string)
    ensures forall i :: |TrimEnd(s)| <= i < |s| ==> IsWhitespace(s[i])
    decreases |s|
  {
    if s != [] && IsWhitespace(s[|s| - 1]) {
      TrimEndRemovesWhitespace(s[..|s| - 1]);
    }
  }

  /** `s.trim()`: `s` without its leading and trailing white space. */
  function Trim(s: string): (t: string)
    ensures t != [] ==> !IsWhitespace(t[0]) && !IsWhitespace(t[|t| - 1])
    ensures |t| <= |s|
  {
    TrimEnd(TrimStart(s))
  }
}
