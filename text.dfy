/** String operations of the JavaScript runtime that the handlers rely on:
    truthiness, `||` defaulting, `trim`, `split`, `join` and number-to-decimal. */
module Text {
  import opened Wrappers

  /** A string-valued field is truthy when it is present and non-empty. */
  predicate Truthy(o: Option<string>) {
    o.Some? && o.value != ""
  }

  /** `o || fallback` for a string-valued field. */
  function OrElse(o: Option<string>, fallback: string): string {
    if Truthy(o) then o.value else fallback
  }

  /** The characters matched by `\s` in a JavaScript regular expression, which
      are also exactly the characters `String.prototype.trim` removes
      (WhiteSpace and LineTerminator of ECMAScript). */
  predicate IsJsSpace(c: char) {
    c == '\t' || c == '\n' || c == '\U{000B}' || c == '\U{000C}' || c == '\r' || c == ' '
    || c == '\U{00A0}' || c == '\U{1680}' || ('\U{2000}' <= c <= '\U{200A}')
    || c == '\U{2028}' || c == '\U{2029}' || c == '\U{202F}' || c == '\U{205F}'
    || c == '\U{3000}' || c == '\U{FEFF}'
  }

  predicate AllSpace(s: string) {
    forall k :: 0 <= k < |s| ==> IsJsSpace(s[k])
  }

  function TrimStart(s: string): string {
    if |s| > 0 && IsJsSpace(s[0]) then TrimStart(s[1..]) else s
  }

  function TrimEnd(s: string): string {
    if |s| > 0 && IsJsSpace(s[|s| - 1]) then TrimEnd(s[..|s| - 1]) else s
  }

  /** `s.trim()`. */
  function Trim(s: string): string {
    TrimStart(TrimEnd(s))
  }

  lemma {:induction false} TrimStartDropsSpace(pre: string, core: string)
    requires AllSpace(pre)
    requires |core| > 0 && !IsJsSpace(core[0])
    ensures TrimStart(pre + core) == core
  {
    if |pre| == 0 {
      assert pre + core == core;
    } else {
      assert (pre + core)[1..] == pre[1..] + core;
      TrimStartDropsSpace(pre[1..], core);
    }
  }

  lemma {:induction false} TrimEndDropsSpace(core: string, post: string)
    requires AllSpace(post)
    requires |core| > 0 && !IsJsSpace(core[|core| - 1])
    ensures TrimEnd(core + post) == core
  {
    if |post| == 0 {
      assert core + post == core;
    } else {
      var n := |core + post|;
      assert (core + post)[..n - 1] == core + post[..|post| - 1];
      assert (core + post)[n - 1] == post[|post| - 1];
      TrimEndDropsSpace(core, post[..|post| - 1]);
    }
  }

  /** Trimming a template whose content begins and ends with visible characters
      removes exactly the surrounding white space. */
  lemma TrimAround(pre: string, core: string, post: string)
    requires AllSpace(pre) && AllSpace(post)
    requires |core| > 0 && !IsJsSpace(core[0]) && !IsJsSpace(core[|core| - 1])
    ensures Trim(pre + core + post) == core
  {
    assert pre + core + post == (pre + core) + post;
    assert (pre + core)[|pre + core| - 1] == core[|core| - 1];
    TrimEndDropsSpace(pre + core, post);
    TrimStartDropsSpace(pre, core);
  }

  /** A template literal laid out over several lines and then trimmed loses
      exactly its leading newline and trailing indentation, whatever the
      interpolated text holds, as long as the whole starts and ends with a
      visible character. */
  lemma TrimTemplate(core: string)
    requires |core| > 0 && !IsJsSpace(core[0]) && !IsJsSpace(core[|core| - 1])
    ensures Trim("\n" + core + "\n  ") == core
  {
    TrimAround("\n", core, "\n  ");
  }

  /** The position of the first `c` in `s`, or `|s|` when there is none
      (`indexOf`, with `|s|` for -1). */
  function Find(s: string, c: char): (r: nat)
    ensures r <= |s|
    ensures r < |s| ==> s[r] == c
    ensures c !in s[..r]
  {
    if |s| == 0 then 0
    else if s[0] == c then 0
    else
      var r := 1 + Find(s[1..], c);
      assert s[..r] == [s[0]] + s[1..][..r - 1];
      r
  }

  /** The scan stops at or before any occurrence of the character. */
  lemma {:induction false} FindFirst(s: string, c: char, i: nat)
    requires i < |s| && s[i] == c
    ensures Find(s, c) <= i
    decreases |s|
  {
    if s[0] != c {
      FindFirst(s[1..], c, i - 1);
    }
  }

  /** `parts.join(sep)`. */
  function Join(parts: seq<string>, sep: string): string {
    if |parts| == 0 then ""
    else if |parts| == 1 then parts[0]
    else parts[0] + sep + Join(parts[1..], sep)
  }

  /** `s.split(c)` for a one-character separator: the maximal pieces of `s`
      between separators, so there is always at least one piece. */
  function Split(s: string, c: char): (parts: seq<string>)
    ensures |parts| >= 1
    ensures forall k :: 0 <= k < |parts| ==> c !in parts[k]
    decreases |s|
  {
    var i := Find(s, c);
    if i == |s| then [s]
    else [s[..i]] + Split(s[i + 1..], c)
  }

  /** Joining the pieces with the separator gives back the original string. */
  lemma {:induction false} JoinSplit(s: string, c: char)
    ensures Join(Split(s, c), [c]) == s
    decreases |s|
  {
    var i := Find(s, c);
    if i < |s| {
      var t := s[i + 1..];
      JoinSplit(t, c);
      var parts := Split(s, c);
      assert parts == [s[..i]] + Split(t, c);
      assert parts[0] == s[..i] && parts[1..] == Split(t, c);
      assert Join(parts, [c]) == s[..i] + [c] + Join(Split(t, c), [c]);
      assert s == s[..i] + [c] + t;
    }
  }

  /** Split is the only way to cut a string into separator-free pieces that
      join back to it: any such decomposition IS the result of Split. */
  lemma {:induction false} SplitUnique(parts: seq<string>, c: char)
    requires |parts| >= 1
    requires forall k :: 0 <= k < |parts| ==> c !in parts[k]
    ensures Split(Join(parts, [c]), c) == parts
    decreases |parts|
  {
    var s := Join(parts, [c]);
    if |parts| == 1 {
      assert Find(s, c) == |s| by {
        assert s == parts[0];
      }
    } else {
      var rest := Join(parts[1..], [c]);
      assert s == parts[0] + [c] + rest;
      assert s[..|parts[0]|] == parts[0];
      assert s[|parts[0]|] == c;
      var i := Find(s, c);
      assert i == |parts[0]|;
      assert s[i + 1..] == rest;
      SplitUnique(parts[1..], c);
      assert parts == [parts[0]] + parts[1..];
    }
  }

  function DigitChar(d: nat): (c: char)
    requires d < 10
    ensures '0' <= c <= '9'
  {
    "0123456789"[d]
  }

  /** The decimal numeral of `n`, as `${n}` prints a non-negative integer. */
  function Decimal(n: nat): (r: string)
    ensures |r| >= 1
    ensures forall k :: 0 <= k < |r| ==> '0' <= r[k] <= '9'
  {
    if n < 10 then [DigitChar(n)] else Decimal(n / 10) + [DigitChar(n % 10)]
  }

  /** `o` occurs in `s` at position `p` as a whole piece between separators
      (or the ends of `s`). */
  predicate PieceAt(s: string, c: char, o: string, p: nat) {
    p + |o| <= |s| && s[p..p + |o|] == o
    && (p == 0 || s[p - 1] == c)
    && (p + |o| == |s| || s[p + |o|] == c)
  }

  /** `o` is one of the separator-free pieces of `s`, defined by position
      rather than by the recursion of Split. */
  ghost predicate IsPiece(s: string, c: char, o: string) {
    c !in o && exists p: nat :: PieceAt(s, c, o, p)
  }

  lemma PieceOfSeparatorFree(s: string, c: char, o: string)
    requires c !in s
    ensures IsPiece(s, c, o) <==> o == s
  {
    assert s[0..|s|] == s;
    assert o == s ==> PieceAt(s, c, o, 0);
    if IsPiece(s, c, o) {
      var p: nat :| PieceAt(s, c, o, p);
      assert p == 0;
      assert p + |o| == |s|;
    }
  }

  /** With a first separator at `i`, a piece of `s` is the leading run or a
      piece of what follows the separator. */
  lemma PieceAfterSeparator(s: string, c: char, o: string, i: nat)
    requires i < |s| && s[i] == c && c !in s[..i]
    ensures IsPiece(s, c, o) <==> (o == s[..i] || IsPiece(s[i + 1..], c, o))
  {
    if o == s[..i] {
      assert s[0..|o|] == o;
      assert PieceAt(s, c, o, 0);
    }
    if IsPiece(s[i + 1..], c, o) {
      PieceShiftsRight(s, c, o, i);
    }
    if IsPiece(s, c, o) && o != s[..i] {
      PieceShiftsLeft(s, c, o, i);
    }
  }

  /** A piece of the text after the separator at `i` is a piece of `s`. */
  lemma PieceShiftsRight(s: string, c: char, o: string, i: nat)
    requires i < |s| && s[i] == c
    requires IsPiece(s[i + 1..], c, o)
    ensures IsPiece(s, c, o)
  {
    var t := s[i + 1..];
    var q: nat :| PieceAt(t, c, o, q);
    assert s[q + i + 1..q + i + 1 + |o|] == t[q..q + |o|];
    assert PieceAt(s, c, o, q + i + 1);
  }

  /** A piece of `s` other than the leading run lies after the first
      separator. */
  lemma PieceShiftsLeft(s: string, c: char, o: string, i: nat)
    requires i < |s| && s[i] == c && c !in s[..i]
    requires IsPiece(s, c, o) && o != s[..i]
    ensures IsPiece(s[i + 1..], c, o)
  {
    var t := s[i + 1..];
    var p: nat :| PieceAt(s, c, o, p);
    if p == 0 {
      LeadingPiece(s, c, o, i);
    } else {
      assert p - 1 >= i;
      assert t[p - i - 1..p - i - 1 + |o|] == s[p..p + |o|];
      assert PieceAt(t, c, o, p - i - 1);
    }
  }

  lemma LeadingPiece(s: string, c: char, o: string, i: nat)
    requires i < |s| && s[i] == c && c !in s[..i]
    requires c !in o && PieceAt(s, c, o, 0)
    ensures o == s[..i]
  {
    assert s[..|o|] == o;
    assert |o| <= i;
    assert |o| == i;
  }

  /** Membership in the result of Split is exactly being a piece of the input. */
  lemma {:induction false} InSplitIff(s: string, c: char, o: string)
    ensures o in Split(s, c) <==> IsPiece(s, c, o)
    decreases |s|
  {
    var i := Find(s, c);
    if i == |s| {
      assert s[..i] == s;
      PieceOfSeparatorFree(s, c, o);
    } else {
      var t := s[i + 1..];
      InSplitIff(t, c, o);
      assert Split(s, c) == [s[..i]] + Split(t, c);
      PieceAfterSeparator(s, c, o, i);
      if o == s[..i] { assert c !in o; }
    }
  }
}
