/** The string operations of ECMAScript that the modelled code relies on:
    `String.prototype.trim`, `startsWith`, `slice` and `Array.prototype.join`. */
module Text {

  /** The characters `trim` removes: ECMAScript's WhiteSpace (tab, vertical
      tab, form feed, space, no-break space, byte order mark and the Unicode
      space separators) and LineTerminator (line feed, carriage return, line
      and paragraph separators). */
  predicate IsWhitespace(c: char)
  {
    || c == '\t' || c == '\n' || c == '\U{B}' || c == '\U{C}' || c == '\r' || c == ' '
    || c == '\U{A0}' || c == '\U{1680}' || ('\U{2000}' <= c <= '\U{200A}')
    || c == '\U{2028}' || c == '\U{2029}' || c == '\U{202F}' || c == '\U{205F}'
    || c == '\U{3000}' || c == '\U{FEFF}'
  }

  /** Drops the leading whitespace: the result is a suffix of `s` that does
      not start with whitespace, and everything dropped was whitespace. */
  function TrimStart(s: string): (r: string)
    ensures |r| <= |s|
    ensures r == [] || !IsWhitespace(r[0])
    ensures forall k :: 0 <= k < |s| - |r| ==> IsWhitespace(s[k])
  {
    if s != [] && IsWhitespace(s[0]) then TrimStart(s[1..]) else s
  }

  /** Drops the trailing whitespace: the result is a prefix of `s` that does
      not end with whitespace, and everything dropped was whitespace. */
  function TrimEnd(s: string): (r: string)
    ensures |r| <= |s|
    ensures r == [] || !IsWhitespace(r[|r| - 1])
    ensures forall k :: |r| <= k < |s| ==> IsWhitespace(s[k])
  {
    if s != [] && IsWhitespace(s[|s| - 1]) then TrimEnd(s[..|s| - 1]) else s
  }

  /** What `TrimStart` keeps is a suffix of its input. */
  lemma {:induction false} TrimStartIsSuffix(s: string)
    ensures TrimStart(s) == s[|s| - |TrimStart(s)|..]
    decreases |s|
  {
    if s != [] && IsWhitespace(s[0]) {
      TrimStartIsSuffix(s[1..]);
      assert s[1..][|s| - 1 - |TrimStart(s[1..])|..] == s[|s| - |TrimStart(s)|..];
    }
  }

  /** What `TrimEnd` keeps is a prefix of its input. */
  lemma {:induction false} TrimEndIsPrefix(s: string)
    ensures TrimEnd(s) == s[..|TrimEnd(s)|]
    decreases |s|
  {
    if s != [] && IsWhitespace(s[|s| - 1]) {
      TrimEndIsPrefix(s[..|s| - 1]);
    }
  }

  /** `s.trim()`: the result is no longer than the input and neither starts
      nor ends with whitespace. */
  function Trim(s: string): (r: string)
    ensures |r| <= |s|
    ensures r == [] || (!IsWhitespace(r[0]) && !IsWhitespace(r[|r| - 1]))
  {
    var t := TrimStart(s);
    TrimEndIsPrefix(t);
    TrimEnd(t)
  }

  /** The trimmed string is the infix of the input that starts at the first
      and ends at the last non-whitespace character: only whitespace is cut on
      either side. */
  lemma {:induction false} TrimIsInfix(s: string)
    ensures var i := |s| - |TrimStart(s)|;
      && i + |Trim(s)| <= |s|
      && Trim(s) == s[i..i + |Trim(s)|]
      && (forall k :: 0 <= k < i ==> IsWhitespace(s[k]))
      && (forall k :: i + |Trim(s)| <= k < |s| ==> IsWhitespace(s[k]))
  {
    var t := TrimStart(s);
    var r := TrimEnd(t);
    TrimStartIsSuffix(s);
    TrimEndIsPrefix(t);
    assert Trim(s) == r;
    WhitespaceAround(s, t, r);
  }

  /** When `t` is a suffix of `s` behind whitespace and `r` a prefix of `t`
      ahead of whitespace, `r` is an infix of `s` with only whitespace around
      it. */
  lemma WhitespaceAround(s: string, t: string, r: string)
    requires |t| <= |s| && t == s[|s| - |t|..]
    requires |r| <= |t| && r == t[..|r|]
    requires forall k :: 0 <= k < |s| - |t| ==> IsWhitespace(s[k])
    requires forall k :: |r| <= k < |t| ==> IsWhitespace(t[k])
    ensures var i := |s| - |t|;
      && i + |r| <= |s|
      && r == s[i..i + |r|]
      && (forall k :: 0 <= k < i ==> IsWhitespace(s[k]))
      && (forall k :: i + |r| <= k < |s| ==> IsWhitespace(s[k]))
  {
    var i := |s| - |t|;
    forall k | i + |r| <= k < |s|
      ensures IsWhitespace(s[k])
    {
      assert s[k] == t[k - i];
    }
  }

  lemma TrimStartFixed(s: string)
    requires s == [] || !IsWhitespace(s[0])
    ensures TrimStart(s) == s
  {
  }

  lemma TrimEndFixed(s: string)
    requires s == [] || !IsWhitespace(s[|s| - 1])
    ensures TrimEnd(s) == s
  {
  }

  /** Trailing whitespace of `a + b` is cut from `b` first, and from `a` only
      when `b` is all whitespace. */
  lemma {:induction false} TrimEndAppend(a: string, b: string)
    ensures TrimEnd(a + b) == if TrimEnd(b) == "" then TrimEnd(a) else a + TrimEnd(b)
    decreases |b|
  {
    if b == [] {
      assert a + b == a;
    } else if IsWhitespace(b[|b| - 1]) {
      var front := b[..|b| - 1];
      assert (a + b)[..|a + b| - 1] == a + front;
      TrimEndAppend(a, front);
    } else {
      assert (a + b)[|a + b| - 1] == b[|b| - 1];
    }
  }

  /** Trimming leaves nothing exactly when the string is all whitespace. */
  lemma TrimEmpty(s: string)
    ensures Trim(s) == "" <==> forall k :: 0 <= k < |s| ==> IsWhitespace(s[k])
  {
    TrimIsInfix(s);
    if forall k :: 0 <= k < |s| ==> IsWhitespace(s[k]) {
      assert TrimStart(s) == [];
    }
  }

  /** Trimming twice is trimming once. */
  lemma TrimIdempotent(s: string)
    ensures Trim(Trim(s)) == Trim(s)
  {
    var t := Trim(s);
    TrimStartFixed(t);
    TrimEndFixed(t);
  }

  /** `s.startsWith(prefix)`. */
  predicate StartsWith(s: string, prefix: string)
  {
    |prefix| <= |s| && s[..|prefix|] == prefix
  }

  /** `parts.join(sep)`. */
  function Join(parts: seq<string>, sep: string): string
  {
    if |parts| == 0 then ""
    else if |parts| == 1 then parts[0]
    else parts[0] + sep + Join(parts[1..], sep)
  }

  /** With a non-empty separator the joined string is empty exactly when
      there is nothing to join or a single empty part. */
  lemma {:induction false} JoinEmpty(parts: seq<string>, sep: string)
    requires sep != ""
    ensures Join(parts, sep) == "" <==> |parts| == 0 || (|parts| == 1 && parts[0] == "")
  {
    if |parts| >= 2 {
      assert |Join(parts, sep)| >= |sep|;
    }
  }
}
