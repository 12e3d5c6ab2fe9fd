/** Lowercasing a name as JavaScript does, with its final sigma, and the avatar colour hashed from it. */
module Lowercase {
  import opened Basics

  const I_WITH_DOT: Rune := 0x0130
  const SMALL_I: Rune := 0x0069
  const DOT_ABOVE: Rune := 0x0307
  const SIGMA: Rune := 0x03A3
  const FINAL_SIGMA: Rune := 0x03C2

  const MID_LETTERS: seq<Rune> := [
    0x27, 0x2E, 0x3A, 0x00B7, 0x0387, 0x055F, 0x05F4, 0x2018, 0x2019, 0x2024, 0x2027, 0xFE13, 0xFE52, 0xFE55, 0xFF07,
    0xFF0E, 0xFF1A
  ]

  /** The Unicode tables the code consults: the simple lowercase mapping, the cased letters, and the marks,
   *  formats and modifiers that may stand inside a word. */
  datatype Tables = Tables(lower: Rune -> Rune, cased: Rune -> bool, modifier: Rune -> bool) {

    /** caseIgnorable */
    predicate Ignorable(r: Rune) {
      modifier(r) || r in MID_LETTERS
    }

    /** What the tables say of the sigmas. */
    ghost predicate KnowsSigma() {
      cased(SIGMA) && !Ignorable(SIGMA) && lower(SIGMA) != FINAL_SIGMA
    }

    /** A lowercase mapping is lowercase already, and is never one of the two characters treated apart. */
    ghost predicate Settled() {
      && (forall r: Rune :: lower(lower(r)) == lower(r) && lower(r) != I_WITH_DOT && lower(r) != SIGMA)
      && lower(SMALL_I) == SMALL_I && lower(DOT_ABOVE) == DOT_ABOVE && lower(FINAL_SIGMA) == FINAL_SIGMA
    }
  }

  // The word around a character

  /** Whether the nearest character before i that is not case-ignorable is cased. */
  ghost predicate CasedBefore(t: Tables, text: seq<Rune>, i: nat)
    requires i <= |text|
  {
    exists j :: 0 <= j < i && t.cased(text[j]) && !t.Ignorable(text[j]) &&
                forall k :: j < k < i ==> t.Ignorable(text[k])
  }

  /** Whether the nearest character from i on that is not case-ignorable is cased. */
  ghost predicate CasedFrom(t: Tables, text: seq<Rune>, i: nat)
    requires i <= |text|
  {
    exists j :: i <= j < |text| && t.cased(text[j]) && !t.Ignorable(text[j]) &&
        forall k :: i <= k < j ==> t.Ignorable(text[k])
  }

  /** A sigma here is final: the nearest character before it that is not case-ignorable is cased, the nearest after is
      not. */
  ghost predicate Final(t: Tables, text: seq<Rune>, i: nat)
    requires i < |text|
  {
    CasedBefore(t, text, i) && !CasedFrom(t, text, i + 1)
  }

  /** casedFirst over the characters from i on. */
  method CasedFirstFrom(t: Tables, text: seq<Rune>, i: nat) returns (cased: bool)
    requires i <= |text|
    ensures cased <==> CasedFrom(t, text, i)
  {
    var j := i;
    while j < |text|
      invariant i <= j <= |text|
      invariant forall k :: i <= k < j ==> t.Ignorable(text[k])
    {
      if !t.Ignorable(text[j]) {
        return t.cased(text[j]);
      }
      j := j + 1;
    }
    return false;
  }

  /** casedFirst over the characters before i, the last of them first. */
  method CasedFirstBefore(t: Tables, text: seq<Rune>, i: nat) returns (cased: bool)
    requires i <= |text|
    ensures cased <==> CasedBefore(t, text, i)
  {
    var j := i;
    while j > 0
      invariant 0 <= j <= i
      invariant forall k :: j <= k < i ==> t.Ignorable(text[k])
    {
      j := j - 1;
      if !t.Ignorable(text[j]) {
        return t.cased(text[j]);
      }
    }
    return false;
  }

  method EndsWord(t: Tables, text: seq<Rune>, i: nat) returns (ends: bool)
    requires i < |text|
    ensures ends <==> Final(t, text, i)
  {
    ends := CasedFirstBefore(t, text, i);
    if ends {
      var goesOn := CasedFirstFrom(t, text, i + 1);
      ends := !goesOn;
    }
  }

  // Lowercasing

  /** What the character at i lowercases to. */
  ghost function LoweredAt(t: Tables, text: seq<Rune>, i: nat): seq<Rune>
    requires i < |text|
  {
    if text[i] == I_WITH_DOT then [SMALL_I, DOT_ABOVE]
    else if text[i] == SIGMA && Final(t, text, i) then [FINAL_SIGMA]
    else [t.lower(text[i])]
  }

  ghost function LoweredTo(t: Tables, text: seq<Rune>, n: nat): seq<Rune>
    requires n <= |text|
  {
    if n == 0 then [] else LoweredTo(t, text, n - 1) + LoweredAt(t, text, n - 1)
  }

  ghost function Lowered(t: Tables, text: seq<Rune>): seq<Rune> {
    LoweredTo(t, text, |text|)
  }

  method LowerAsJavaScript(t: Tables, text: seq<Rune>) returns (lowered: seq<Rune>)
    ensures lowered == Lowered(t, text)
  {
    lowered := [];
    for i := 0 to |text|
      invariant lowered == LoweredTo(t, text, i)
    {
      if text[i] == I_WITH_DOT {
        lowered := lowered + [SMALL_I, DOT_ABOVE];
      } else {
        var final := false;
        if text[i] == SIGMA {
          final := EndsWord(t, text, i);
        }
        lowered := lowered + [if final then FINAL_SIGMA else t.lower(text[i])];
      }
    }
  }

  /** What each character adds: the dotted capital I two characters, a final sigma the small final one, any other its
      simple mapping. */
  lemma OneMoreLowered(t: Tables, text: seq<Rune>, i: nat)
    requires i < |text|
    ensures LoweredTo(t, text, i + 1) == LoweredTo(t, text, i) +
            if text[i] == 0x0130 then [0x0069, 0x0307]
            else if text[i] == 0x03A3 && Final(t, text, i) then [0x03C2]
            else [t.lower(text[i])]
  {
  }

  function DottedIs(text: seq<Rune>): nat {
    if text == [] then 0 else DottedIs(text[..|text| - 1]) + if text[|text| - 1] == 0x0130 then 1 else 0
  }

  /** A lowercased text is longer by one character for each dotted capital I. */
  lemma {:induction false} LongerByDots(t: Tables, text: seq<Rune>, n: nat)
    requires n <= |text|
    ensures |LoweredTo(t, text, n)| == n + DottedIs(text[..n])
  {
    if n > 0 {
      LongerByDots(t, text, n - 1);
      OneMoreLowered(t, text, n - 1);
      assert text[..n][..n - 1] == text[..n - 1];
    }
  }

  /** What follows a place does not matter to what comes before it. */
  lemma BeforeAlike(t: Tables, text: seq<Rune>, more: seq<Rune>)
    ensures CasedBefore(t, text + more, |text|) <==> CasedBefore(t, text, |text|)
  {
    var longer := text + more;
    assert forall k :: 0 <= k < |text| ==> longer[k] == text[k];
    if j :| 0 <= j < |text| && t.cased(longer[j]) && !t.Ignorable(longer[j]) &&
            forall k :: j < k < |text| ==> t.Ignorable(longer[k]) {
      assert t.cased(text[j]) && !t.Ignorable(text[j]);
    }
    if j :| 0 <= j < |text| && t.cased(text[j]) && !t.Ignorable(text[j]) &&
            forall k :: j < k < |text| ==> t.Ignorable(text[k]) {
      assert t.cased(longer[j]) && !t.Ignorable(longer[j]);
    }
  }

  /** The last character of a text is final as a sigma exactly after a letter of its word. */
  lemma LastIsFinal(t: Tables, before: seq<Rune>, last: Rune)
    ensures Final(t, before + [last], |before|) <==> CasedBefore(t, before, |before|)
  {
    BeforeAlike(t, before, [last]);
  }

  /** The marks that may stand inside a word are those of Unicode's Word_Break values MidLetter, MidNumLet and
      Single_Quote. */
  lemma MidLettersAre(r: Rune)
    ensures r in MID_LETTERS <==>
            || r in [0x003A, 0x00B7, 0x0387, 0x055F, 0x05F4, 0x2027, 0xFE13, 0xFE55, 0xFF1A]
            || r in [0x002E, 0x2018, 0x2019, 0x2024, 0xFE52, 0xFF07, 0xFF0E]
            || r == 0x0027
  {
  }

  // Splitting

  /** A part of a text lowercases alone as it does inside the text when each character of it does. */
  lemma {:induction false} PartLowered(t: Tables, text: seq<Rune>, from: nat, part: seq<Rune>, n: nat)
    requires n <= |part| && from + |part| <= |text|
    requires forall i :: 0 <= i < |part| ==> LoweredAt(t, text, from + i) == LoweredAt(t, part, i)
    ensures LoweredTo(t, text, from + n) == LoweredTo(t, text, from) + LoweredTo(t, part, n)
  {
    if n > 0 {
      PartLowered(t, text, from, part, n - 1);
      var last := LoweredAt(t, text, from + (n - 1));
      assert last == LoweredAt(t, part, n - 1);
      assert LoweredTo(t, text, from + n) == LoweredTo(t, text, from + (n - 1)) + last;
      assert LoweredTo(t, part, n) == LoweredTo(t, part, n - 1) + last;
      Associates(LoweredTo(t, text, from), LoweredTo(t, part, n - 1), last);
    }
  }

  ghost predicate Separates(t: Tables, sep: Rune) {
    !t.cased(sep) && !t.Ignorable(sep)
  }

  /** Left of a separator, no character past it matters. */
  lemma LeftOfSeparator(t: Tables, a: seq<Rune>, sep: Rune, b: seq<Rune>, i: nat)
    requires Separates(t, sep) && i < |a|
    ensures Final(t, a + [sep] + b, i) <==> Final(t, a, i)
  {
    var text := a + [sep] + b;
    assert text[|a|] == sep;
    assert forall k :: 0 <= k < |a| ==> text[k] == a[k];
    if CasedBefore(t, text, i) || CasedBefore(t, a, i) {
      assert CasedBefore(t, text, i) && CasedBefore(t, a, i);
    }
    if CasedFrom(t, text, i + 1) {
      var j :| i + 1 <= j < |text| && t.cased(text[j]) && !t.Ignorable(text[j]) &&
               forall k :: i + 1 <= k < j ==> t.Ignorable(text[k]);
      assert j < |a|;
    }
    if CasedFrom(t, a, i + 1) {
      var j :| i + 1 <= j < |a| && t.cased(a[j]) && !t.Ignorable(a[j]) &&
               forall k :: i + 1 <= k < j ==> t.Ignorable(a[k]);
      assert t.cased(text[j]) && !t.Ignorable(text[j]);
    }
  }

  /** What stands before a part does not matter to what follows a place in it. */
  lemma FollowsAlike(t: Tables, before: seq<Rune>, part: seq<Rune>, i: nat)
    requires i <= |part|
    ensures CasedFrom(t, before + part, |before| + i) <==> CasedFrom(t, part, i)
  {
    var text, m := before + part, |before|;
    if CasedFrom(t, text, m + i) {
      var j :| m + i <= j < |text| && t.cased(text[j]) && !t.Ignorable(text[j]) &&
               forall k :: m + i <= k < j ==> t.Ignorable(text[k]);
      forall k | i <= k < j - m ensures t.Ignorable(part[k]) {
        assert text[m + k] == part[k];
      }
      assert text[j] == part[j - m];
    }
    if CasedFrom(t, part, i) {
      var j :| i <= j < |part| && t.cased(part[j]) && !t.Ignorable(part[j]) &&
               forall k :: i <= k < j ==> t.Ignorable(part[k]);
      forall k | m + i <= k < m + j ensures t.Ignorable(text[k]) {
        assert text[k] == part[k - m];
      }
      assert text[m + j] == part[j];
    }
  }

  /** What stands before a separator does not matter to what comes before a place after it. */
  lemma PrecedesAlike(t: Tables, before: seq<Rune>, part: seq<Rune>, i: nat)
    requires i <= |part| && before != [] && Separates(t, before[|before| - 1])
    ensures CasedBefore(t, before + part, |before| + i) <==> CasedBefore(t, part, i)
  {
    var text, m := before + part, |before|;
    assert text[m - 1] == before[m - 1];
    if CasedBefore(t, text, m + i) {
      var j :| 0 <= j < m + i && t.cased(text[j]) && !t.Ignorable(text[j]) &&
               forall k :: j < k < m + i ==> t.Ignorable(text[k]);
      assert j >= m;
      forall k | j - m < k < i ensures t.Ignorable(part[k]) {
        assert text[m + k] == part[k];
      }
      assert text[j] == part[j - m];
    }
    if CasedBefore(t, part, i) {
      var j :| 0 <= j < i && t.cased(part[j]) && !t.Ignorable(part[j]) &&
               forall k :: j < k < i ==> t.Ignorable(part[k]);
      forall k | m + j < k < m + i ensures t.Ignorable(text[k]) {
        assert text[k] == part[k - m];
      }
      assert text[m + j] == part[j];
    }
  }

  lemma AlikeLeft(t: Tables, a: seq<Rune>, sep: Rune, b: seq<Rune>, i: nat)
    requires Separates(t, sep) && i < |a|
    ensures LoweredAt(t, a + [sep] + b, i) == LoweredAt(t, a, i)
  {
    LeftOfSeparator(t, a, sep, b, i);
    assert (a + [sep] + b)[i] == a[i];
  }

  lemma AlikeRight(t: Tables, a: seq<Rune>, sep: Rune, b: seq<Rune>, i: nat)
    requires Separates(t, sep) && i < |b|
    ensures LoweredAt(t, a + [sep] + b, |a| + 1 + i) == LoweredAt(t, b, i)
  {
    PrecedesAlike(t, a + [sep], b, i);
    FollowsAlike(t, a + [sep], b, i + 1);
    assert (a + [sep] + b)[|a| + 1 + i] == b[i];
  }

  lemma LeftPart(t: Tables, a: seq<Rune>, sep: Rune, b: seq<Rune>)
    requires Separates(t, sep)
    ensures LoweredTo(t, a + [sep] + b, |a|) == Lowered(t, a)
  {
    forall i | 0 <= i < |a| ensures LoweredAt(t, a + [sep] + b, 0 + i) == LoweredAt(t, a, i) {
      AlikeLeft(t, a, sep, b, i);
    }
    PartLowered(t, a + [sep] + b, 0, a, |a|);
  }

  lemma SeparatorPart(t: Tables, a: seq<Rune>, sep: Rune, b: seq<Rune>)
    requires t.KnowsSigma() && Separates(t, sep)
    ensures LoweredTo(t, a + [sep] + b, |a| + 1) == LoweredTo(t, a + [sep] + b, |a|) + Lowered(t, [sep])
  {
    assert (a + [sep] + b)[|a|] == sep && sep != SIGMA;
    assert LoweredAt(t, a + [sep] + b, |a|) == LoweredAt(t, [sep], 0);
    assert Lowered(t, [sep]) == LoweredTo(t, [sep], 0) + LoweredAt(t, [sep], 0);
  }

  lemma RightPart(t: Tables, a: seq<Rune>, sep: Rune, b: seq<Rune>)
    requires Separates(t, sep)
    ensures Lowered(t, a + [sep] + b) == LoweredTo(t, a + [sep] + b, |a| + 1) + Lowered(t, b)
  {
    forall i | 0 <= i < |b| ensures LoweredAt(t, a + [sep] + b, |a| + 1 + i) == LoweredAt(t, b, i) {
      AlikeRight(t, a, sep, b, i);
    }
    PartLowered(t, a + [sep] + b, |a| + 1, b, |b|);
  }

  /** Lowercasing splits at a separator. */
  lemma SplitsAt(t: Tables, a: seq<Rune>, sep: Rune, b: seq<Rune>)
    requires t.KnowsSigma() && Separates(t, sep)
    ensures Lowered(t, a + [sep] + b) == Lowered(t, a) + Lowered(t, [sep]) + Lowered(t, b)
  {
    LeftPart(t, a, sep, b);
    SeparatorPart(t, a, sep, b);
    RightPart(t, a, sep, b);
  }

  ghost predicate SplitsEverywhere(t: Tables, sep: Rune) {
    forall a: seq<Rune>, b: seq<Rune> :: Lowered(t, a + [sep] + b) == Lowered(t, a) + Lowered(t, [sep]) + Lowered(t, b)
  }

  /** A cased character before a sigma that ends the text makes it final, which alone it is not. */
  lemma CasedDoesNotSplit(t: Tables, sep: Rune)
    requires t.KnowsSigma() && t.cased(sep) && !t.Ignorable(sep)
    ensures Lowered(t, [] + [sep] + [SIGMA]) != Lowered(t, []) + Lowered(t, [sep]) + Lowered(t, [SIGMA])
  {
    var text: seq<Rune> := [] + [sep] + [SIGMA];
    assert text == [sep, SIGMA];
    assert t.cased(text[0]) && CasedBefore(t, text, 1) && Final(t, text, 1);
    assert Lowered(t, text) == LoweredTo(t, text, 1) + [FINAL_SIGMA];
    assert !CasedBefore(t, [SIGMA], 0);
    assert LoweredAt(t, [SIGMA], 0) == [t.lower(SIGMA)];
    assert Lowered(t, [SIGMA]) == LoweredTo(t, [SIGMA], 0) + [t.lower(SIGMA)];
    var l, r := Lowered(t, text), Lowered(t, []) + Lowered(t, [sep]) + Lowered(t, [SIGMA]);
    assert l[|l| - 1] != r[|r| - 1];
  }

  /** A sigma and a sigma with case-ignorable between them are one word, so the second is final. */
  lemma IgnorableDoesNotSplit(t: Tables, sep: Rune)
    requires t.KnowsSigma() && t.Ignorable(sep)
    ensures Lowered(t, [SIGMA] + [sep] + [SIGMA]) != Lowered(t, [SIGMA]) + Lowered(t, [sep]) + Lowered(t, [SIGMA])
  {
    var text: seq<Rune> := [SIGMA] + [sep] + [SIGMA];
    assert text == [SIGMA, sep, SIGMA];
    assert t.cased(text[0]) && CasedBefore(t, text, 2) && Final(t, text, 2);
    assert Lowered(t, text) == LoweredTo(t, text, 2) + [FINAL_SIGMA];
    assert !CasedBefore(t, [SIGMA], 0);
    assert LoweredAt(t, [SIGMA], 0) == [t.lower(SIGMA)];
    assert Lowered(t, [SIGMA]) == LoweredTo(t, [SIGMA], 0) + [t.lower(SIGMA)];
    var l, r := Lowered(t, text), Lowered(t, [SIGMA]) + Lowered(t, [sep]) + Lowered(t, [SIGMA]);
    assert l[|l| - 1] != r[|r| - 1];
  }

  /** Lowercasing splits at a character in every text exactly when that character is neither cased nor
      case-ignorable. */
  lemma SplitsIff(t: Tables, sep: Rune)
    requires t.KnowsSigma()
    ensures SplitsEverywhere(t, sep) <==> Separates(t, sep)
  {
    if Separates(t, sep) {
      forall a: seq<Rune>, b: seq<Rune>
        ensures Lowered(t, a + [sep] + b) == Lowered(t, a) + Lowered(t, [sep]) + Lowered(t, b) {
        SplitsAt(t, a, sep, b);
      }
    } else if t.Ignorable(sep) {
      IgnorableDoesNotSplit(t, sep);
    } else {
      CasedDoesNotSplit(t, sep);
    }
  }

  // Lowercasing twice

  /** A character lowercasing leaves as it is. */
  ghost predicate Fixed(t: Tables, r: Rune) {
    t.lower(r) == r && r != I_WITH_DOT && r != SIGMA
  }

  lemma {:induction false} LoweredIsFixed(t: Tables, text: seq<Rune>, n: nat)
    requires t.Settled() && n <= |text|
    ensures forall k :: 0 <= k < |LoweredTo(t, text, n)| ==> Fixed(t, LoweredTo(t, text, n)[k])
  {
    if n > 0 {
      LoweredIsFixed(t, text, n - 1);
      assert t.lower(t.lower(text[n - 1])) == t.lower(text[n - 1]);
    }
  }

  lemma {:induction false} FixedStays(t: Tables, text: seq<Rune>, n: nat)
    requires n <= |text| && forall k :: 0 <= k < |text| ==> Fixed(t, text[k])
    ensures LoweredTo(t, text, n) == text[..n]
  {
    if n > 0 {
      FixedStays(t, text, n - 1);
      assert Fixed(t, text[n - 1]);
      assert text[..n] == text[..n - 1] + [text[n - 1]];
    }
  }

  /** Lowercasing twice is lowercasing once. */
  lemma LoweringSettles(t: Tables, text: seq<Rune>)
    requires t.Settled()
    ensures Lowered(t, Lowered(t, text)) == Lowered(t, text)
  {
    var lowered := Lowered(t, text);
    LoweredIsFixed(t, text, |text|);
    FixedStays(t, lowered, |lowered|);
    assert lowered[..|lowered|] == lowered;
  }

  // Final_Sigma, section 3.13 of the Unicode Standard

  /** A cased character stands before i with only case-ignorable ones between. */
  ghost predicate AfterCased(t: Tables, text: seq<Rune>, i: nat)
    requires i <= |text|
  {
    exists j :: 0 <= j < i && t.cased(text[j]) && forall k :: j < k < i ==> t.Ignorable(text[k])
  }

  /** A cased character stands at or after i with only case-ignorable ones between. */
  ghost predicate BeforeCased(t: Tables, text: seq<Rune>, i: nat)
    requires i <= |text|
  {
    exists j :: i <= j < |text| && t.cased(text[j]) && forall k :: i <= k < j ==> t.Ignorable(text[k])
  }

  /** Final_Sigma as the standard gives it, where a cased character counts even when it is case-ignorable too. */
  ghost predicate StandardFinal(t: Tables, text: seq<Rune>, i: nat)
    requires i < |text|
  {
    AfterCased(t, text, i) && !BeforeCased(t, text, i + 1)
  }

  ghost predicate FinalAsStandard(t: Tables) {
    forall text: seq<Rune>, i :: 0 <= i < |text| ==> (Final(t, text, i) <==> StandardFinal(t, text, i))
  }

  ghost predicate NeverBoth(t: Tables) {
    forall r: Rune :: !(t.cased(r) && t.Ignorable(r))
  }

  lemma SameWithoutBoth(t: Tables, text: seq<Rune>, i: nat)
    requires NeverBoth(t) && i < |text|
    ensures Final(t, text, i) <==> StandardFinal(t, text, i)
  {
    assert CasedBefore(t, text, i) <==> AfterCased(t, text, i);
    assert CasedFrom(t, text, i + 1) <==> BeforeCased(t, text, i + 1);
  }

  /** The code's final sigma is the standard's on every text exactly when no character is both cased and
      case-ignorable. */
  lemma FinalAsStandardIff(t: Tables)
    ensures FinalAsStandard(t) <==> NeverBoth(t)
  {
    if NeverBoth(t) {
      forall text: seq<Rune>, i | 0 <= i < |text| ensures Final(t, text, i) <==> StandardFinal(t, text, i) {
        SameWithoutBoth(t, text, i);
      }
    } else {
      var r: Rune :| t.cased(r) && t.Ignorable(r);
      var text: seq<Rune> := [r, SIGMA];
      assert t.cased(text[0]) && AfterCased(t, text, 1) && StandardFinal(t, text, 1);
      assert !CasedBefore(t, text, 1);
    }
  }

  /** The modifier letter small h and the combining Greek ypogegrammeni, lowercase letters by Other_Lowercase that
      Lm and Mn make case-ignorable. */
  const SMALL_H_MODIFIER: Rune := 0x02B0
  const YPOGEGRAMMENI: Rune := 0x0345

  /** What Unicode's tables say of an ordinary letter and of the two. */
  ghost predicate KnowsModifiers(t: Tables) {
    && t.cased(SMALL_H_MODIFIER) && t.modifier(SMALL_H_MODIFIER)
    && t.cased(YPOGEGRAMMENI) && t.modifier(YPOGEGRAMMENI)
  }

  /** After a modifier letter alone a last sigma is final for the standard and not for the code, which lowercases it as
      any other sigma. */
  lemma ModifierBeforeSigma(t: Tables, modifier: Rune)
    requires KnowsModifiers(t) && t.KnowsSigma() && (modifier == SMALL_H_MODIFIER || modifier == YPOGEGRAMMENI)
    ensures StandardFinal(t, [modifier, SIGMA], 1) && !Final(t, [modifier, SIGMA], 1)
    ensures Lowered(t, [modifier, SIGMA]) == [t.lower(modifier), t.lower(SIGMA)]
    ensures !FinalAsStandard(t)
  {
    var text: seq<Rune> := [modifier, SIGMA];
    assert t.cased(text[0]) && AfterCased(t, text, 1) && StandardFinal(t, text, 1);
    assert !CasedBefore(t, text, 1);
    assert LoweredTo(t, text, 0) == [];
    assert LoweredTo(t, text, 1) == [] + LoweredAt(t, text, 0);
    assert Lowered(t, text) == LoweredTo(t, text, 1) + LoweredAt(t, text, 1);
  }

  // The colour

  const MODULUS := 2147483647
  const PALETTE_SIZE := 6

  /** The whole numbers a float64 holds exactly, which an int64 holds too. */
  newtype Exact = x: int | -0x20_0000_0000_0000 < x < 0x20_0000_0000_0000

  function Power(base: nat, n: nat): nat {
    if n == 0 then 1 else base * Power(base, n - 1)
  }

  /** The characters as the digits of a number to base 31, the first the highest. */
  function Polynomial(text: seq<Rune>): nat {
    if text == [] then 0 else text[0] * Power(31, |text| - 1) + Polynomial(text[1..])
  }

  lemma {:induction false} OneMoreDigit(text: seq<Rune>, r: Rune)
    ensures Polynomial(text + [r]) == Polynomial(text) * 31 + r
  {
    if text == [] {
      assert [r] == text + [r];
      assert Power(31, 0) == 1;
      assert Polynomial([r][1..]) == 0;
    } else {
      OneMoreDigit(text[1..], r);
      assert (text + [r])[1..] == text[1..] + [r];
      var p := Power(31, |text| - 1);
      assert Power(31, |text|) == 31 * p;
      assert text[0] * (31 * p) == (text[0] * p) * 31;
    }
  }

  lemma StepModulo(x: nat, r: nat)
    ensures (x % MODULUS * 31 + r) % MODULUS == (x * 31 + r) % MODULUS
  {
    var q, m := x / MODULUS, x % MODULUS;
    assert x * 31 + r == (m * 31 + r) + (31 * q) * MODULUS;
    MultipleDropped(m * 31 + r, 31 * q);
  }

  lemma {:induction false} MultipleDropped(x: nat, k: nat)
    ensures (x + k * MODULUS) % MODULUS == x % MODULUS
  {
    if k > 0 {
      MultipleDropped(x, k - 1);
      var y := x + (k - 1) * MODULUS;
      assert (y + MODULUS) % MODULUS == y % MODULUS;
    }
  }

  /** The colour is the lowercased name read to base 31, modulo 2^31 - 1 and then the palette; `hash` never leaves
   *  the whole numbers a JavaScript number holds exactly, between the multiplication and the addition included. */
  method ColourIndex(t: Tables, name: seq<Rune>) returns (index: nat)
    ensures index == Polynomial(Lowered(t, name)) % MODULUS % PALETTE_SIZE
  {
    var hash: Exact := 0;
    var lowered := LowerAsJavaScript(t, name);
    for i := 0 to |lowered|
      invariant 0 <= hash as int < MODULUS
      invariant hash as int == Polynomial(lowered[..i]) % MODULUS
    {
      OneMoreDigit(lowered[..i], lowered[i]);
      StepModulo(Polynomial(lowered[..i]), lowered[i]);
      assert lowered[..i + 1] == lowered[..i] + [lowered[i]];
      hash := (hash * 31 + lowered[i] as Exact) % (MODULUS as Exact);
    }
    assert lowered[..|lowered|] == lowered;
    index := hash as int % PALETTE_SIZE;
  }
}
