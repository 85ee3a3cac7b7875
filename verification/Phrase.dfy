/** The phrase generator of phrase_generator.cpp, with its random draws as arguments. */
module Phrases {
  import opened Codec

  const WORD_COUNT: nat := 46

  /** An index into the dictionary, and one of the three closing numbers. */
  type Index = n: nat | n < WORD_COUNT
  type Nibble = n: nat | n < 16

  /** The entries of the dictionary. */
  function Word(i: Index): string {
    match i
    case 0 => "accismus"
    case 1 => "acumen"
    case 2 => "aglet"
    case 3 => "anachronism"
    case 4 => "aphotic"
    case 5 => "aplomb"
    case 6 => "behove"
    case 7 => "cacophony"
    case 8 => "cryptic"
    case 9 => "doppelganger"
    case 10 => "draconian"
    case 11 => "ephemeral"
    case 12 => "fecund"
    case 13 => "frivol"
    case 14 => "gambit"
    case 15 => "garrulous"
    case 16 => "iconoclast"
    case 17 => "impetus"
    case 18 => "intrepid"
    case 19 => "juggernaut"
    case 20 => "juxtaposition"
    case 21 => "kismet"
    case 22 => "makebate"
    case 23 => "mendacious"
    case 24 => "mettle"
    case 25 => "murmuration"
    case 26 => "nastify"
    case 27 => "nefarious"
    case 28 => "overmorrow"
    case 29 => "paragon"
    case 30 => "pessimum"
    case 31 => "petrichor"
    case 32 => "platitude"
    case 33 => "puerile"
    case 34 => "redame"
    case 35 => "riposte"
    case 36 => "sanguine"
    case 37 => "sarcast"
    case 38 => "serendipity"
    case 39 => "solivagant"
    case 40 => "sonder"
    case 41 => "syzygy"
    case 42 => "tidbit"
    case 43 => "vagabond"
    case 44 => "yaffle"
    case _ => "zephyr"
  }

  /** One hexadecimal digit, in lower case. */
  function Hex(n: Nibble): char {
    if n < 10 then ('0' as int + n) as char else ('a' as int + n - 10) as char
  }

  /** Every word with a dash after it. */
  function Words(draws: seq<Index>): string {
    if draws == [] then "" else Word(draws[0]) + "-" + Words(draws[1..])
  }

  function Phrase(draws: seq<Index>, a: Nibble, b: Nibble, c: Nibble): string {
    Words(draws) + [Hex(a), Hex(b), Hex(c)]
  }

  const HEX_DIGITS := "0123456789abcdef"

  /** The last three characters are the draws as hexadecimal digits, in the order drawn. */
  lemma ClosingDigits(draws: seq<Index>, a: Nibble, b: Nibble, c: Nibble)
    ensures var t := Phrase(draws, a, b, c);
            && |t| >= 3 && t[..|t| - 3] == Words(draws)
            && t[|t| - 3] == HEX_DIGITS[a] && t[|t| - 2] == HEX_DIGITS[b] && t[|t| - 1] == HEX_DIGITS[c]
  {
    var t := Phrase(draws, a, b, c);
    assert t[..|t| - 3] == Words(draws);
    HexDigit(a);
    HexDigit(b);
    HexDigit(c);
  }

  lemma HexDigit(n: Nibble)
    ensures Hex(n) == HEX_DIGITS[n]
  {
  }

  /** The words stand in the order drawn, each with a dash after it. */
  lemma {:induction false} WordsInOrder(draws: seq<Index>, k: nat)
    requires k < |draws|
    ensures Words(draws) == Words(draws[..k]) + (Word(draws[k]) + "-" + Words(draws[k + 1..]))
  {
    if k == 0 {
      assert draws[..0] == [] && "" + Words(draws) == Words(draws);
    } else {
      var rest := draws[1..];
      WordsInOrder(rest, k - 1);
      assert draws[..k][0] == draws[0] && draws[..k][1..] == rest[..k - 1];
      assert rest[k - 1] == draws[k] && rest[k..] == draws[k + 1..];
      WordsAssoc(Word(draws[0]) + "-", Words(rest[..k - 1]), Word(draws[k]) + "-" + Words(draws[k + 1..]));
    }
  }

  lemma WordsAssoc(a: string, b: string, c: string)
    ensures a + (b + c) == a + b + c
  {
  }

  // ---------- the dictionary ----------

  const LONGEST: nat := 13

  /** A word has no dash and 3 to 13 letters. */
  predicate PlainWord(w: string) {
    '-' !in w && 3 <= |w| <= LONGEST
  }

  lemma PlainLow(i: Index)
    requires i < 15
    ensures PlainWord(Word(i))
  {
  }

  lemma PlainMiddle(i: Index)
    requires 15 <= i < 30
    ensures PlainWord(Word(i))
  {
  }

  lemma PlainHigh(i: Index)
    requires 30 <= i
    ensures PlainWord(Word(i))
  {
  }

  lemma WordIsPlain(i: Index)
    ensures PlainWord(Word(i))
  {
    if i < 15 {
      PlainLow(i);
    } else if i < 30 {
      PlainMiddle(i);
    } else {
      PlainHigh(i);
    }
  }

  /** The first three letters of a word as one number. */
  function Key(i: Index): nat {
    var w := Word(i);
    WordIsPlain(i);
    w[0] as int * 0x1_0000 + w[1] as int * 0x100 + w[2] as int
  }

  lemma AscendLow(i: Index)
    requires i < 15
    ensures Key(i) < Key(i + 1)
  {
  }

  lemma AscendMiddle(i: Index)
    requires 15 <= i < 30
    ensures Key(i) < Key(i + 1)
  {
  }

  lemma AscendHigh(i: Index)
    requires 30 <= i && i + 1 < WORD_COUNT
    ensures Key(i) < Key(i + 1)
  {
  }

  lemma {:induction false} Ordered(key: Index -> nat, i: Index, j: Index)
    requires forall k: Index :: k + 1 < WORD_COUNT ==> key(k) < key(k + 1)
    requires i < j
    ensures key(i) < key(j)
  {
    assert key(j - 1) < key(j - 1 + 1);
    if i < j - 1 {
      Ordered(key, i, j - 1);
    }
  }

  /** The dictionary is ordered by the first three letters. */
  lemma KeysOrdered(i: Index, j: Index)
    requires i < j
    ensures Key(i) < Key(j)
  {
    forall k: Index | k + 1 < WORD_COUNT
      ensures Key(k) < Key(k + 1)
    {
      if k < 15 {
        AscendLow(k);
      } else if k < 30 {
        AscendMiddle(k);
      } else {
        AscendHigh(k);
      }
    }
    Ordered(Key, i, j);
  }

  lemma WordsDistinct(i: Index, j: Index)
    ensures Word(i) == Word(j) <==> i == j
  {
    if i < j {
      KeysOrdered(i, j);
    } else if j < i {
      KeysOrdered(j, i);
    }
  }

  // ---------- splitting at dashes ----------

  /** The text before the first dash, and what follows it, are unique. */
  lemma SplitAtDash(u: string, x: string, v: string, y: string)
    requires '-' !in u && '-' !in v
    requires u + "-" + x == v + "-" + y
    ensures u == v && x == y
  {
    var s := u + "-" + x;
    assert s[|u|] == '-' && s[|v|] == '-';
    DashIsBeyond(u, s, |v|);
    DashIsBeyond(v, s, |u|);
    assert u == s[..|u|] && v == s[..|v|];
    assert x == s[|u| + 1..] && y == s[|v| + 1..];
  }

  lemma DashIsBeyond(u: string, s: string, k: nat)
    requires '-' !in u && |u| <= |s| && u == s[..|u|]
    requires k < |s| && s[k] == '-'
    ensures k >= |u|
  {
    forall i | 0 <= i < |u|
      ensures s[i] != '-'
    {
      assert u[i] in u;
    }
  }

  lemma DigitIsNoDash(n: Nibble)
    ensures Hex(n) != '-'
  {
  }

  lemma DigitsDistinct(m: Nibble, n: Nibble)
    ensures Hex(m) == Hex(n) <==> m == n
  {
  }

  lemma PhraseUnfolds(draws: seq<Index>, a: Nibble, b: Nibble, c: Nibble)
    requires draws != []
    ensures Phrase(draws, a, b, c) == Word(draws[0]) + "-" + Phrase(draws[1..], a, b, c)
  {
    var digits := [Hex(a), Hex(b), Hex(c)];
    assert (Word(draws[0]) + "-" + Words(draws[1..])) + digits == Word(draws[0]) + "-" + (Words(draws[1..]) + digits);
  }

  /** A phrase has a dash exactly when it has a word. */
  lemma HasDash(draws: seq<Index>, a: Nibble, b: Nibble, c: Nibble)
    ensures '-' in Phrase(draws, a, b, c) <==> draws != []
  {
    if draws == [] {
      DigitIsNoDash(a);
      DigitIsNoDash(b);
      DigitIsNoDash(c);
    } else {
      PhraseUnfolds(draws, a, b, c);
      assert Phrase(draws, a, b, c)[|Word(draws[0])|] == '-';
    }
  }

  /** Distinct draws give distinct phrases, whatever the two word counts. */
  lemma {:induction false} PhraseInjective(draws: seq<Index>, a: Nibble, b: Nibble, c: Nibble,
                                           other: seq<Index>, d: Nibble, e: Nibble, f: Nibble)
    ensures Phrase(draws, a, b, c) == Phrase(other, d, e, f) <==>
            draws == other && a == d && b == e && c == f
  {
    HasDash(draws, a, b, c);
    HasDash(other, d, e, f);
    if Phrase(draws, a, b, c) == Phrase(other, d, e, f) {
      if draws == [] {
        SameDigits(a, b, c, d, e, f);
      } else {
        SameTail(draws, a, b, c, other, d, e, f);
        PhraseInjective(draws[1..], a, b, c, other[1..], d, e, f);
        assert draws == [draws[0]] + draws[1..] && other == [other[0]] + other[1..];
      }
    }
  }

  lemma SameDigits(a: Nibble, b: Nibble, c: Nibble, d: Nibble, e: Nibble, f: Nibble)
    requires Phrase([], a, b, c) == Phrase([], d, e, f)
    ensures a == d && b == e && c == f
  {
    var s, t := Phrase([], a, b, c), Phrase([], d, e, f);
    assert s[0] == t[0] && s[1] == t[1] && s[2] == t[2];
    DigitsDistinct(a, d);
    DigitsDistinct(b, e);
    DigitsDistinct(c, f);
  }

  lemma SameTail(draws: seq<Index>, a: Nibble, b: Nibble, c: Nibble,
                 other: seq<Index>, d: Nibble, e: Nibble, f: Nibble)
    requires draws != [] && other != []
    requires Phrase(draws, a, b, c) == Phrase(other, d, e, f)
    ensures draws[0] == other[0] && Phrase(draws[1..], a, b, c) == Phrase(other[1..], d, e, f)
  {
    PhraseUnfolds(draws, a, b, c);
    PhraseUnfolds(other, d, e, f);
    WordIsPlain(draws[0]);
    WordIsPlain(other[0]);
    SplitAtDash(Word(draws[0]), Phrase(draws[1..], a, b, c), Word(other[0]), Phrase(other[1..], d, e, f));
    WordsDistinct(draws[0], other[0]);
  }

  // ---------- length ----------

  lemma {:induction false} PhraseLength(draws: seq<Index>, a: Nibble, b: Nibble, c: Nibble)
    ensures 4 * |draws| + 3 <= |Phrase(draws, a, b, c)| <= 14 * |draws| + 3
  {
    if draws != [] {
      WordIsPlain(draws[0]);
      PhraseUnfolds(draws, a, b, c);
      PhraseLength(draws[1..], a, b, c);
    }
  }

  /** The draw of n times the longest word, "juxtaposition". */
  function Longest(n: nat): (draws: seq<Index>)
    ensures |draws| == n
  {
    if n == 0 then [] else [20] + Longest(n - 1)
  }

  lemma {:induction false} LongestLength(n: nat)
    ensures |Phrase(Longest(n), 0, 0, 0)| == 14 * n + 3
  {
    if n > 0 {
      PhraseUnfolds(Longest(n), 0, 0, 0);
      LongestLength(n - 1);
      assert Longest(n)[1..] == Longest(n - 1);
      assert |Word(20)| == LONGEST;
    }
  }

  /** The code phrase as the sender fills it in: the size is truncated to a byte. */
  function CodeOf(phrase: string): CodePhrase {
    CodePhrase(|phrase| % 256, seq(|phrase|, i requires 0 <= i < |phrase| => phrase[i] as int % 256))
  }

  ghost predicate Survives(c: CodePhrase) {
    DecodePhrase(EncodePhrase(c)) == Popped(c, [])
  }

  lemma SurvivesIffShort(phrase: string)
    ensures Survives(CodeOf(phrase)) <==> |phrase| <= 255
  {
    PhraseRoundTrip([], CodeOf(phrase));
    assert [] + EncodePhrase(CodeOf(phrase)) == EncodePhrase(CodeOf(phrase));
  }

  /** Every phrase of n words survives the wire exactly when n is at most 18. */
  lemma EighteenWords(n: nat)
    ensures n <= 18 <==>
            forall draws: seq<Index>, a: Nibble, b: Nibble, c: Nibble ::
              |draws| == n ==> Survives(CodeOf(Phrase(draws, a, b, c)))
  {
    if n <= 18 {
      forall draws: seq<Index>, a: Nibble, b: Nibble, c: Nibble | |draws| == n
        ensures Survives(CodeOf(Phrase(draws, a, b, c)))
      {
        PhraseLength(draws, a, b, c);
        SurvivesIffShort(Phrase(draws, a, b, c));
      }
    } else {
      LongestLength(n);
      SurvivesIffShort(Phrase(Longest(n), 0, 0, 0));
    }
  }

  // ---------- the generator ----------

  lemma {:induction false} WordsAppend(draws: seq<Index>, i: Index)
    ensures Words(draws + [i]) == Words(draws) + Word(i) + "-"
  {
    if draws == [] {
      assert draws + [i] == [i] && [i][1..] == [];
      assert Words([i]) == Word(i) + "-" + "";
    } else {
      WordsAppend(draws[1..], i);
      assert (draws + [i])[0] == draws[0] && (draws + [i])[1..] == draws[1..] + [i];
    }
  }

  method GetRandomPhrase(draws: seq<Index>, a: Nibble, b: Nibble, c: Nibble) returns (phrase: string)
    ensures phrase == Phrase(draws, a, b, c)
    ensures phrase == Words(draws) + [HEX_DIGITS[a], HEX_DIGITS[b], HEX_DIGITS[c]]
  {
    phrase := "";
    for i := 0 to |draws|
      invariant phrase == Words(draws[..i])
    {
      WordsAppend(draws[..i], draws[i]);
      assert draws[..i + 1] == draws[..i] + [draws[i]];
      phrase := phrase + Word(draws[i]) + "-";
    }
    assert draws[..|draws|] == draws;
    HexDigit(a);
    HexDigit(b);
    HexDigit(c);
    phrase := phrase + [Hex(a), Hex(b), Hex(c)];
  }
}
