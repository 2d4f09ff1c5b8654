/** License-key generation (`generateLicenseKey`, pages/api/webhook.js:228-241)
    and the key format it produces. The sixteen `Math.floor(Math.random() * 36)`
    draws are supplied by the caller as `draws`. */
module LicenseKeys {
  import opened Text

  const Alphabet: string := "ABCDEFGHIJKLMNOPQRSTUVWXYZ0123456789"
  const Prefix: string := "DEMOFY-"

  /** The text the success page shows when polling gives up (pages/success.jsx:73). */
  const Placeholder: string := "DEMOFY-XXXX-XXXX-XXXX-XXXX"

  /** Sixteen character choices, each an index into the 36-character alphabet. */
  predicate ValidDraws(draws: seq<nat>) {
    |draws| == 16 && forall k :: 0 <= k < |draws| ==> draws[k] < 36
  }

  /** The `g`-th group of four characters. */
  function Group(draws: seq<nat>, g: nat): string
    requires ValidDraws(draws) && g < 4
  {
    seq(4, j requires 0 <= j < 4 => Alphabet[draws[4 * g + j]])
  }

  /** The key produced from the draws: the prefix, then the four groups joined by hyphens. */
  function KeyText(draws: seq<nat>): string
    requires ValidDraws(draws)
  {
    Prefix + Join([Group(draws, 0), Group(draws, 1), Group(draws, 2), Group(draws, 3)], "-")
  }

  predicate IsKeyChar(c: char) {
    'A' <= c <= 'Z' || '0' <= c <= '9'
  }

  /** Positions 7..25 that hold a drawn character (not a group hyphen). */
  predicate IsCharPosition(p: int) {
    7 <= p < 26 && p != 11 && p != 16 && p != 21
  }

  /** `DEMOFY-XXXX-XXXX-XXXX-XXXX` with every X an upper-case letter or digit. */
  predicate IsKeyFormat(k: string) {
    |k| == 26 && k[..7] == Prefix && k[11] == '-' && k[16] == '-' && k[21] == '-'
    && forall p :: 7 <= p < 26 && IsCharPosition(p) ==> IsKeyChar(k[p])
  }

  /** Where the `n`-th draw lands in the key: group `n / 4`, offset `n % 4`,
      after the prefix and one hyphen per earlier group. */
  function PositionOf(n: nat): (p: nat)
    requires n < 16
    ensures IsCharPosition(p)
  {
    if n < 4 then n + 7 else if n < 8 then n + 8 else if n < 12 then n + 9 else n + 10
  }

  /** Which draw a character position holds (the inverse of PositionOf). */
  function DrawAt(p: int): (n: nat)
    requires IsCharPosition(p)
    ensures n < 16 && PositionOf(n) == p
  {
    if p < 11 then p - 7 else if p < 16 then p - 8 else if p < 21 then p - 9 else p - 10
  }

  /** The index of a key character in the alphabet. */
  function AlphabetIndex(c: char): (i: nat)
    requires IsKeyChar(c)
    ensures i < 36 && Alphabet[i] == c
  {
    if 'A' <= c <= 'Z' then (c as int - 'A' as int) else (c as int - '0' as int) + 26
  }

  /** The draws a well-formed key was made from. */
  function DrawsOf(k: string): (draws: seq<nat>)
    requires IsKeyFormat(k)
    ensures ValidDraws(draws)
  {
    seq(16, n requires 0 <= n < 16 => AlphabetIndex(k[PositionOf(n)]))
  }

  lemma JoinFour(a: string, b: string, c: string, d: string, sep: string)
    ensures Join([a, b, c, d], sep) == a + sep + b + sep + c + sep + d
  {
    assert [c, d][1..] == [d];
    assert Join([c, d], sep) == c + sep + d;
    assert [b, c, d][1..] == [c, d];
    assert Join([b, c, d], sep) == b + sep + (c + sep + d);
    assert [a, b, c, d][1..] == [b, c, d];
    assert Join([a, b, c, d], sep) == a + sep + (b + sep + (c + sep + d));
  }

  lemma KeyTextLayout(draws: seq<nat>)
    requires ValidDraws(draws)
    ensures var k := KeyText(draws);
      |k| == 26 && k[..7] == Prefix && k[11] == '-' && k[16] == '-' && k[21] == '-'
      && forall n :: 0 <= n < 16 ==> k[PositionOf(n)] == Alphabet[draws[n]]
  {
    var g0, g1, g2, g3 := Group(draws, 0), Group(draws, 1), Group(draws, 2), Group(draws, 3);
    var k := KeyText(draws);
    JoinFour(g0, g1, g2, g3, "-");
    assert k == Prefix + g0 + "-" + g1 + "-" + g2 + "-" + g3;
    forall n | 0 <= n < 16 ensures k[PositionOf(n)] == Alphabet[draws[n]] {
      if n < 4 { assert k[PositionOf(n)] == g0[n]; }
      else if n < 8 { assert k[PositionOf(n)] == g1[n - 4]; }
      else if n < 12 { assert k[PositionOf(n)] == g2[n - 8]; }
      else { assert k[PositionOf(n)] == g3[n - 12]; }
    }
  }

  /** Every generated key is well formed. */
  lemma KeyTextIsWellFormed(draws: seq<nat>)
    requires ValidDraws(draws)
    ensures IsKeyFormat(KeyText(draws))
  {
    var k := KeyText(draws);
    KeyTextLayout(draws);
    forall p | IsCharPosition(p) ensures IsKeyChar(k[p]) {
      assert k[PositionOf(DrawAt(p))] == Alphabet[draws[DrawAt(p)]];
    }
  }

  /** Different draws give different keys: the key determines its draws. */
  lemma DrawsRoundTrip(draws: seq<nat>)
    requires ValidDraws(draws)
    ensures IsKeyFormat(KeyText(draws)) && DrawsOf(KeyText(draws)) == draws
  {
    KeyTextIsWellFormed(draws);
    KeyTextLayout(draws);
  }

  /** Every well-formed string is a key the generator can produce. */
  lemma KeyRoundTrip(k: string)
    requires IsKeyFormat(k)
    ensures KeyText(DrawsOf(k)) == k
  {
    var d := DrawsOf(k);
    var k' := KeyText(d);
    KeyTextLayout(d);
    assert |k'| == |k|;
    forall p | 0 <= p < 26 ensures k'[p] == k[p] {
      if p < 7 {
        assert k'[p] == k'[..7][p] && k[p] == k[..7][p];
      } else if IsCharPosition(p) {
        var n := DrawAt(p);
        assert k'[PositionOf(n)] == Alphabet[d[n]];
      }
    }
  }

  /** The success page's placeholder is itself a well-formed key, and the
      generator produces it when every draw picks 'X': its format alone
      cannot tell it from a real key. */
  lemma PlaceholderIsGenerable()
    ensures IsKeyFormat(Placeholder)
    ensures ValidDraws(seq(16, _ => 23)) && KeyText(seq(16, _ => 23)) == Placeholder
  {
    assert Placeholder[..7] == Prefix;
    var d := seq(16, _ => 23);
    KeyTextLayout(d);
    var k := KeyText(d);
    forall p | 0 <= p < 26 ensures k[p] == Placeholder[p] {
      if p < 7 {
        assert k[p] == k[..7][p];
      } else if IsCharPosition(p) {
        var n := DrawAt(p);
        assert k[PositionOf(n)] == Alphabet[d[n]];
      }
    }
  }

  /** `generateLicenseKey`: four groups built character by character, then
      joined. */
  method GenerateLicenseKey(draws: seq<nat>) returns (key: string)
    requires ValidDraws(draws)
    ensures key == KeyText(draws)
    ensures IsKeyFormat(key)
  {
    var segments: seq<string> := [];
    var i := 0;
    while i < 4
      invariant 0 <= i <= 4
      invariant |segments| == i
      invariant forall g :: 0 <= g < i ==> segments[g] == Group(draws, g)
    {
      var segment := "";
      var j := 0;
      while j < 4
        invariant 0 <= j <= 4
        invariant |segment| == j
        invariant forall m :: 0 <= m < j ==> segment[m] == Alphabet[draws[4 * i + m]]
      {
        segment := segment + [Alphabet[draws[4 * i + j]]];
        j := j + 1;
      }
      assert segment == Group(draws, i);
      segments := segments + [segment];
      i := i + 1;
    }
    assert segments == [Group(draws, 0), Group(draws, 1), Group(draws, 2), Group(draws, 3)];
    key := Prefix + Join(segments, "-");
    KeyTextIsWellFormed(draws);
  }
}
