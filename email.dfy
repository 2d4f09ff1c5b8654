/** The e-mail shape check shared by the checkout and contact handlers:
    the regular expression `^[^\s@]+@[^\s@]+\.[^\s@]+$` (pages/api/checkout.js:41,
    pages/api/contact.js:33). */
module Email {
  import opened Text

  predicate PlainChar(c: char) {
    !IsJsSpace(c) && c != '@'
  }

  /** A non-empty run of characters that are neither white space nor '@'
      (one `[^\s@]+` of the pattern). */
  predicate Plain(t: string) {
    |t| > 0 && forall k :: 0 <= k < |t| ==> PlainChar(t[k])
  }

  /** The regular expression read literally: the string splits as
      local '@' host '.' tld with three plain parts. Backtracking lets the
      `.` be ANY dot after the '@' that leaves a plain part on each side. */
  ghost predicate MatchesPattern(s: string) {
    exists i, j ::
      0 < i && i + 1 < j && j + 1 < |s| && s[i] == '@' && s[j] == '.'
      && Plain(s[..i]) && Plain(s[i + 1..j]) && Plain(s[j + 1..])
  }

  predicate NoSpace(s: string) {
    forall k :: 0 <= k < |s| ==> !IsJsSpace(s[k])
  }

  /** The check as a scan: no white space, exactly one '@' and it is not the
      first character, and some '.' after the '@' that is neither right after
      it nor the last character. */
  predicate IsEmail(s: string) {
    var i := Find(s, '@');
    NoSpace(s) && 0 < i < |s| && '@' !in s[i + 1..]
    && i + 3 < |s| && '.' in s[i + 2..|s| - 1]
  }

  lemma PlainSlice(s: string, a: nat, b: nat)
    requires a < b <= |s|
    ensures Plain(s[a..b]) <==> forall k :: a <= k < b ==> PlainChar(s[k])
  {
    var t := s[a..b];
    if Plain(t) {
      forall k | a <= k < b ensures PlainChar(s[k]) {
        assert s[k] == t[k - a];
      }
    }
  }

  lemma ScanGivesPattern(s: string)
    requires IsEmail(s)
    ensures MatchesPattern(s)
  {
    var i := Find(s, '@');
    var tail := s[i + 2..|s| - 1];
    var m :| 0 <= m < |tail| && tail[m] == '.';
    var j := i + 2 + m;
    assert s[j] == '.';
    var after := s[i + 1..];
    forall k | i < k < |s| ensures s[k] != '@' {
      assert s[k] == after[k - i - 1];
    }
    PlainSlice(s, 0, i);
    PlainSlice(s, i + 1, j);
    PlainSlice(s, j + 1, |s|);
    assert s[j + 1..|s|] == s[j + 1..];
    assert s[0..i] == s[..i];
  }

  lemma PatternGivesScan(s: string)
    requires MatchesPattern(s)
    ensures IsEmail(s)
  {
    var i, j :| 0 < i && i + 1 < j && j + 1 < |s| && s[i] == '@' && s[j] == '.'
      && Plain(s[..i]) && Plain(s[i + 1..j]) && Plain(s[j + 1..]);
    assert s[0..i] == s[..i];
    assert s[j + 1..|s|] == s[j + 1..];
    PlainSlice(s, 0, i);
    PlainSlice(s, i + 1, j);
    PlainSlice(s, j + 1, |s|);
    ScanOfParts(s, i, j);
  }

  /** The scan accepts a string made of three plain runs around an '@' and a
      later '.', stated character by character. */
  lemma ScanOfParts(s: string, i: nat, j: nat)
    requires 0 < i && i + 1 < j && j + 1 < |s| && s[i] == '@' && s[j] == '.'
    requires forall k :: 0 <= k < i ==> PlainChar(s[k])
    requires forall k :: i < k < j ==> PlainChar(s[k])
    requires forall k :: j < k < |s| ==> PlainChar(s[k])
    ensures IsEmail(s)
  {
    FindFirst(s, '@', i);
    assert Find(s, '@') == i;
    var after := s[i + 1..];
    forall k | 0 <= k < |after| ensures after[k] != '@' {
      assert after[k] == s[k + i + 1];
    }
    assert s[i + 2..|s| - 1][j - i - 2] == '.';
  }

  /** The scan accepts exactly the strings the regular expression matches. */
  lemma EmailCheckMatchesPattern(s: string)
    ensures IsEmail(s) <==> MatchesPattern(s)
  {
    if IsEmail(s) { ScanGivesPattern(s); }
    if MatchesPattern(s) { PatternGivesScan(s); }
  }
}
