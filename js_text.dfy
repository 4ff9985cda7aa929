/** The two JavaScript string operations the tool uses: `String.prototype.trim`
    and `String.prototype.toLowerCase`. */
module JsText {

  /** The code points `trim` removes: ECMAScript's WhiteSpace (tab, vertical tab,
      form feed, space, no-break space, byte-order mark and every Unicode `Zs`
      space) and LineTerminator (line feed, carriage return, U+2028, U+2029). */
  predicate IsWhitespace(c: char) {
    c == '\t' || c == '\n' || c == '\U{B}' || c == '\U{C}' || c == '\r' || c == ' '
    || c == '\U{A0}' || c == '\U{1680}' || ('\U{2000}' <= c <= '\U{200A}')
    || c == '\U{2028}' || c == '\U{2029}' || c == '\U{202F}' || c == '\U{205F}'
    || c == '\U{3000}' || c == '\U{FEFF}'
  }

  predicate AllWhitespace(s: string) {
    forall i :: 0 <= i < |s| ==> IsWhitespace(s[i])
  }

  /** Neither starts nor ends with whitespace. */
  predicate Unpadded(s: string) {
    s == [] || (!IsWhitespace(s[0]) && !IsWhitespace(s[|s| - 1]))
  }

  /** Drops the leading whitespace: the result is the longest suffix of `s`
      that does not start with whitespace. */
  function TrimStart(s: string): (r: string)
    ensures |r| <= |s| && r == s[|s| - |r|..]
    ensures AllWhitespace(s[..|s| - |r|])
    ensures r != [] ==> !IsWhitespace(r[0])
  {
    if s != [] && IsWhitespace(s[0]) then TrimStart(s[1..]) else s
  }

  /** Drops the trailing whitespace: the result is the longest prefix of `s`
      that does not end with whitespace. */
  function TrimEnd(s: string): (r: string)
    ensures |r| <= |s| && r == s[..|r|]
    ensures AllWhitespace(s[|r|..])
    ensures r != [] ==> !IsWhitespace(r[|r| - 1])
  {
    if s != [] && IsWhitespace(s[|s| - 1]) then TrimEnd(s[..|s| - 1]) else s
  }

  /** `s.trim()`: the result does not start or end with whitespace. */
  function Trim(s: string): (r: string)
    ensures Unpadded(r)
    ensures |r| <= |s|
  {
    TrimEnd(TrimStart(s))
  }

  /** Where the trimmed text starts in `s`. */
  function TrimOffset(s: string): (i: nat)
    ensures i + |Trim(s)| <= |s|
  {
    |s| - |TrimStart(s)|
  }

  /** What `trim` removes is whitespace only: the trimmed text is the slice
      of `s` at `TrimOffset(s)`, and everything before and after it is
      whitespace. */
  lemma TrimSplits(s: string)
    ensures Trim(s) == s[TrimOffset(s)..TrimOffset(s) + |Trim(s)|]
    ensures AllWhitespace(s[..TrimOffset(s)])
    ensures AllWhitespace(s[TrimOffset(s) + |Trim(s)|..])
  {
    var t := TrimStart(s);
    var r := TrimEnd(t);
    var i := |s| - |t|;
    assert TrimOffset(s) == i && Trim(s) == r;
    SliceOfSlice(s, i, |r|);
  }

  lemma SliceOfSlice(s: string, i: nat, k: nat)
    requires i + k <= |s|
    ensures s[i..][k..] == s[i + k..]
    ensures s[i..][..k] == s[i..i + k]
  {
  }

  lemma SplitAt(s: string, i: nat, j: nat)
    requires i <= j <= |s|
    ensures s == s[..i] + s[i..j] + s[j..]
  {
  }

  /** ASCII case folding: `A`..`Z` become `a`..`z`, every other character is kept. */
  function LowerChar(c: char): (d: char)
    ensures IsWhitespace(d) <==> IsWhitespace(c)
    ensures 'A' <= c <= 'Z' ==> d as int == c as int + 32
    ensures !('A' <= c <= 'Z') ==> d == c
  {
    if 'A' <= c <= 'Z' then (c as int + 32) as char else c
  }

  /** `s.toLowerCase()`, restricted to ASCII case folding: folds every character
      in place and keeps the length. */
  function ToLower(s: string): (r: string)
    ensures |r| == |s|
    ensures forall i :: 0 <= i < |s| ==> r[i] == LowerChar(s[i])
  {
    if s == [] then [] else [LowerChar(s[0])] + ToLower(s[1..])
  }

  /** Trimming is determined by the decomposition it undoes: whatever
      whitespace is put around an unpadded string, trimming gives it back. */
  lemma {:induction false} TrimUnique(p: string, r: string, q: string)
    requires AllWhitespace(p) && AllWhitespace(q) && Unpadded(r)
    ensures Trim(p + r + q) == r
  {
    if r == [] {
      assert p + r + q == p + q;
      TrimStartSkips(p + q, []);
      assert p + q + [] == p + q;
    } else {
      assert p + r + q == p + (r + q);
      TrimStartSkips(p, r + q);
      TrimEndSkips(r, q);
    }
  }

  lemma {:induction false} TrimStartSkips(p: string, x: string)
    requires AllWhitespace(p)
    requires x == [] || !IsWhitespace(x[0])
    ensures TrimStart(p + x) == x
  {
    if p != [] {
      assert (p + x)[1..] == p[1..] + x;
      TrimStartSkips(p[1..], x);
    }
  }

  lemma {:induction false} TrimEndSkips(x: string, q: string)
    requires AllWhitespace(q)
    requires x == [] || !IsWhitespace(x[|x| - 1])
    ensures TrimEnd(x + q) == x
  {
    if q != [] {
      assert (x + q)[..|x + q| - 1] == x + q[..|q| - 1];
      TrimEndSkips(x, q[..|q| - 1]);
    }
  }

  /** Trimming twice is trimming once. */
  lemma TrimIdempotent(s: string)
    ensures Trim(Trim(s)) == Trim(s)
  {
    var r := Trim(s);
    assert [] + r + [] == r;
    assert Trim([] + r + []) == r by {
      TrimUnique([], r, []);
    }
  }

  /** An unpadded string is its own trim. */
  lemma TrimUnpadded(s: string)
    requires Unpadded(s)
    ensures Trim(s) == s
  {
    assert [] + s + [] == s;
    TrimUnique([], s, []);
  }

  lemma ToLowerConcat(a: string, b: string)
    ensures ToLower(a + b) == ToLower(a) + ToLower(b)
  {
    assert forall i :: 0 <= i < |a + b| ==> ToLower(a + b)[i] == (ToLower(a) + ToLower(b))[i];
  }

  /** Case folding neither creates nor removes whitespace. */
  lemma ToLowerKeepsPadding(s: string)
    ensures AllWhitespace(s) ==> AllWhitespace(ToLower(s))
    ensures Unpadded(s) ==> Unpadded(ToLower(s))
  {
  }

  /** Folding case and trimming commute: the tool's `message.toLowerCase().trim()`
      is `message.trim().toLowerCase()`. */
  lemma TrimToLowerCommute(s: string)
    ensures Trim(ToLower(s)) == ToLower(Trim(s))
  {
    var r := Trim(s);
    var i := TrimOffset(s);
    TrimSplits(s);
    SplitAt(s, i, i + |r|);
    var p, q := s[..i], s[i + |r|..];
    assert s == p + r + q;
    assert ToLower(s) == ToLower(p) + ToLower(r) + ToLower(q) by {
      ToLowerConcat(p, r);
      ToLowerConcat(p + r, q);
    }
    ToLowerKeepsPadding(p);
    ToLowerKeepsPadding(r);
    ToLowerKeepsPadding(q);
    TrimUnique(ToLower(p), ToLower(r), ToLower(q));
  }
}
