/** Cleaning a name: one pass that drops controls and folds spaces, against the plain account of what it leaves. */
module CleanName {
  import opened Basics

  const SPACE: Rune := 0x20

  /** One of the four spaces that fold into one: space, tab, line feed and carriage return. */
  predicate Folds(r: Rune) {
    r == SPACE || r == 0x09 || r == 0x0A || r == 0x0D
  }

  predicate C0(r: Rune) {
    r < 0x20
  }

  /** A C0 control that is none of the four spaces. */
  predicate Dropped(r: Rune) {
    C0(r) && !Folds(r)
  }

  /** isTrimmedSpace, `space` being Unicode's White_Space. */
  predicate Trimmed(space: Rune -> bool, r: Rune) {
    r != 0x85 && space(r)
  }

  // The plain account

  function Kept(name: seq<Rune>): seq<Rune> {
    if name == [] then [] else if Dropped(name[0]) then Kept(name[1..]) else [name[0]] + Kept(name[1..])
  }

  /** How many of the first characters of a text do not fold, up to the first that does. */
  function WordRun(text: seq<Rune>): (n: nat)
    ensures n <= |text| && (forall i :: 0 <= i < n ==> !Folds(text[i])) && (n < |text| ==> Folds(text[n]))
  {
    if text == [] || Folds(text[0]) then 0 else 1 + WordRun(text[1..])
  }

  /** The longest stretches of a text without a folding space, in order. */
  function Words(text: seq<Rune>): seq<seq<Rune>>
    decreases |text|
  {
    if text == [] then []
    else if Folds(text[0]) then Words(text[1..])
    else [text[..WordRun(text)]] + Words(text[WordRun(text)..])
  }

  function Join(words: seq<seq<Rune>>): seq<Rune> {
    if words == [] then []
    else if |words| == 1 then words[0]
    else words[0] + [SPACE] + Join(words[1..])
  }

  /** What is left of a name: the controls dropped, the words between runs of spaces joined by one, the ends trimmed. */
  function Cleaned(name: seq<Rune>, space: Rune -> bool): seq<Rune> {
    Trim(Join(Words(Kept(name))), r => Trimmed(space, r))
  }

  // One more character

  lemma {:induction false} KeptOneMore(name: seq<Rune>, r: Rune)
    ensures Kept(name + [r]) == Kept(name) + (if Dropped(r) then [] else [r])
  {
    if name == [] {
      assert [] + [r] == [r] && Kept([r][1..]) == [];
    } else {
      KeptOneMore(name[1..], r);
      assert (name + [r])[1..] == name[1..] + [r];
    }
  }

  lemma {:induction false} WordRunOneMore(text: seq<Rune>, r: Rune)
    ensures WordRun(text + [r]) == if WordRun(text) == |text| && !Folds(r) then |text| + 1 else WordRun(text)
  {
    if text != [] && !Folds(text[0]) {
      WordRunOneMore(text[1..], r);
      assert (text + [r])[1..] == text[1..] + [r];
    }
  }

  /** Whether a text ends inside a word. */
  predicate InWord(text: seq<Rune>) {
    text != [] && !Folds(text[|text| - 1])
  }

  /** The words after one more character. */
  function Extended(words: seq<seq<Rune>>, inWord: bool, r: Rune): seq<seq<Rune>>
    requires inWord ==> words != []
  {
    if Folds(r) then words
    else if inWord then words[..|words| - 1] + [words[|words| - 1] + [r]]
    else words + [[r]]
  }

  lemma OneWord(word: seq<Rune>)
    requires word != [] && WordRun(word) == |word|
    ensures Words(word) == [word]
  {
    assert word[..|word|] == word && word[|word|..] == [];
  }

  lemma LoneSpace(r: Rune)
    requires Folds(r)
    ensures Words([r]) == []
  {
    assert [r][1..] == [];
  }

  /** A word that ends a text grows by a character that does not fold, and ends at one that does. */
  lemma LastWordOneMore(word: seq<Rune>, r: Rune)
    requires word != [] && WordRun(word) == |word|
    ensures Words(word + [r]) == Extended([word], true, r)
  {
    WordRunOneMore(word, r);
    if Folds(r) {
      assert (word + [r])[..|word|] == word && (word + [r])[|word|..] == [r];
      LoneSpace(r);
    } else {
      OneWord(word + [r]);
    }
  }

  lemma ExtendedAfter(first: seq<Rune>, words: seq<seq<Rune>>, inWord: bool, r: Rune)
    requires inWord ==> words != []
    ensures Extended([first] + words, inWord, r) == [first] + Extended(words, inWord, r)
  {
    if inWord {
      assert ([first] + words)[..|words|] == [first] + words[..|words| - 1];
    }
  }

  lemma CutBeforeEnd(text: seq<Rune>, r: Rune, n: nat)
    requires n <= |text|
    ensures (text + [r])[..n] == text[..n] && (text + [r])[n..] == text[n..] + [r]
  {
  }

  lemma FirstWordStays(text: seq<Rune>, r: Rune)
    requires text != [] && !Folds(text[0]) && WordRun(text) < |text|
    ensures Words(text + [r]) == [text[..WordRun(text)]] + Words(text[WordRun(text)..] + [r])
  {
    WordRunOneMore(text, r);
    CutBeforeEnd(text, r, WordRun(text));
    assert (text + [r])[0] == text[0];
  }

  /** Splitting a text that grows by one character grows its last word, starts one, or changes nothing. */
  lemma {:induction false} WordsOneMore(text: seq<Rune>, r: Rune)
    ensures InWord(text) ==> Words(text) != []
    ensures Words(text + [r]) == Extended(Words(text), InWord(text), r)
    decreases |text|
  {
    if text == [] {
      assert text + [r] == [r];
      if Folds(r) {
        LoneSpace(r);
      } else {
        OneWord([r]);
      }
    } else if Folds(text[0]) {
      WordsOneMore(text[1..], r);
      assert (text + [r])[1..] == text[1..] + [r];
    } else if WordRun(text) == |text| {
      OneWord(text);
      LastWordOneMore(text, r);
    } else {
      var n := WordRun(text);
      WordsOneMore(text[n..], r);
      FirstWordStays(text, r);
      ExtendedAfter(text[..n], Words(text[n..]), InWord(text), r);
    }
  }

  lemma {:induction false} JoinOneMore(words: seq<seq<Rune>>, word: seq<Rune>)
    ensures Join(words + [word]) == if words == [] then word else Join(words) + [SPACE] + word
  {
    if |words| > 0 {
      JoinOneMore(words[1..], word);
      assert (words + [word])[1..] == words[1..] + [word];
      if |words| == 1 {
        assert words[1..] == [];
      }
    }
  }

  /** Joining the words after one more character, read off the join before it. */
  lemma JoinExtended(words: seq<seq<Rune>>, inWord: bool, r: Rune)
    requires inWord ==> words != []
    ensures Join(Extended(words, inWord, r)) ==
            if Folds(r) then Join(words)
            else if inWord || words == [] then Join(words) + [r]
            else Join(words) + [SPACE, r]
  {
    if !Folds(r) {
      if inWord {
        var w := words[|words| - 1];
        assert words == words[..|words| - 1] + [w];
        JoinOneMore(words[..|words| - 1], w);
        JoinOneMore(words[..|words| - 1], w + [r]);
      } else {
        JoinOneMore(words, [r]);
      }
    }
  }

  /** Words are not empty, and their characters are of the text and do not fold. */
  lemma {:induction false} WordsAreWords(text: seq<Rune>, word: seq<Rune>)
    requires word in Words(text)
    ensures word != [] && forall j :: 0 <= j < |word| ==> !Folds(word[j]) && word[j] in text
    decreases |text|
  {
    if Folds(text[0]) {
      WordsAreWords(text[1..], word);
    } else if word != text[..WordRun(text)] {
      WordsAreWords(text[WordRun(text)..], word);
    }
  }

  /** What the pass has written once it has read a text. */
  ghost function Written(name: seq<Rune>): seq<Rune> {
    Join(Words(Kept(name)))
  }

  lemma WrittenNothing(name: seq<Rune>)
    ensures Written(name) == [] <==> Words(Kept(name)) == []
  {
    if Words(Kept(name)) != [] {
      WordsAreWords(Kept(name), Words(Kept(name))[0]);
    }
  }

  /** What one more character adds to what is written: nothing, itself, or a space and itself. */
  lemma OneMoreWritten(name: seq<Rune>, r: Rune)
    ensures Written(name + [r]) == Written(name) +
            if Dropped(r) || Folds(r) then []
            else if InWord(Kept(name)) || Written(name) == [] then [r]
            else [SPACE, r]
    ensures InWord(Kept(name + [r])) == if Dropped(r) then InWord(Kept(name)) else !Folds(r)
  {
    var kept := Kept(name);
    KeptOneMore(name, r);
    WrittenNothing(name);
    if Dropped(r) {
      assert kept + [] == kept;
    } else {
      WordsOneMore(kept, r);
      JoinExtended(Words(kept), InWord(kept), r);
    }
  }

  /** cleanName. A name is None when it is not valid UTF-8. */
  method CleanName(name: Option<seq<Rune>>, space: Rune -> bool) returns (clean: seq<Rune>)
    ensures clean == match name case None => [] case Some(runes) => Cleaned(runes, space)
  {
    if name.None? {
      return [];
    }
    var cleaned: seq<Rune> := [];
    var spaceDue := false;
    for i := 0 to |name.value|
      invariant cleaned == Written(name.value[..i])
      invariant spaceDue <==> cleaned != [] && !InWord(Kept(name.value[..i]))
    {
      var r := name.value[i];
      assert name.value[..i + 1] == name.value[..i] + [r];
      OneMoreWritten(name.value[..i], r);
      if Folds(r) {
        spaceDue := |cleaned| > 0;
      } else if !C0(r) {
        if spaceDue {
          cleaned := cleaned + [SPACE];
          spaceDue := false;
        }
        cleaned := cleaned + [r];
      }
    }
    assert name.value[..|name.value|] == name.value;
    clean := Trim(cleaned, r => Trimmed(space, r));
  }

  // What a clean name looks like

  /** No C0 control and no two spaces in a row. */
  predicate Folded(text: seq<Rune>) {
    && (forall i :: 0 <= i < |text| ==> !C0(text[i]))
    && (forall i :: 0 < i < |text| ==> !(text[i - 1] == SPACE && text[i] == SPACE))
  }

  /** Folded, and no character that is trimmed at either end. */
  predicate Clean(text: seq<Rune>, space: Rune -> bool) {
    Folded(text) && (text != [] ==> !Trimmed(space, text[0]) && !Trimmed(space, text[|text| - 1]))
  }

  lemma {:induction false} KeptHasNoDropped(name: seq<Rune>)
    ensures forall i :: 0 <= i < |Kept(name)| ==> !Dropped(Kept(name)[i])
  {
    if name != [] {
      KeptHasNoDropped(name[1..]);
    }
  }

  ghost predicate Plain(word: seq<Rune>) {
    word != [] && forall i :: 0 <= i < |word| ==> !Folds(word[i]) && !C0(word[i])
  }

  lemma {:induction false} JoinIsFolded(words: seq<seq<Rune>>)
    requires forall i :: 0 <= i < |words| ==> Plain(words[i])
    ensures Folded(Join(words)) && (words != [] ==> Join(words) != [] && Join(words)[0] != SPACE)
  {
    if words != [] {
      assert Plain(words[0]);
      if |words| > 1 {
        JoinIsFolded(words[1..]);
      }
    }
  }

  lemma {:induction false} TrimLeftKeeps(text: seq<Rune>, cut: Rune -> bool)
    requires Folded(text)
    ensures Folded(TrimLeft(text, cut))
    ensures TrimLeft(text, cut) != [] ==> !cut(TrimLeft(text, cut)[0])
  {
    if text != [] && cut(text[0]) {
      TrimLeftKeeps(text[1..], cut);
    }
  }

  lemma {:induction false} TrimRightKeeps(text: seq<Rune>, cut: Rune -> bool)
    requires Folded(text) && (text != [] ==> !cut(text[0]))
    ensures Folded(TrimRight(text, cut))
    ensures TrimRight(text, cut) != [] ==>
      !cut(TrimRight(text, cut)[0]) && !cut(TrimRight(text, cut)[|TrimRight(text, cut)| - 1])
  {
    if text != [] && cut(text[|text| - 1]) {
      TrimRightKeeps(text[..|text| - 1], cut);
    }
  }

  /** A cleaned name is clean, whatever the name was. */
  lemma CleanedIsClean(name: seq<Rune>, space: Rune -> bool)
    ensures Clean(Cleaned(name, space), space)
  {
    var kept, cut := Kept(name), (r: Rune) => Trimmed(space, r);
    KeptHasNoDropped(name);
    forall i | 0 <= i < |Words(kept)| ensures Plain(Words(kept)[i]) {
      WordsAreWords(kept, Words(kept)[i]);
    }
    JoinIsFolded(Words(kept));
    TrimLeftKeeps(Join(Words(kept)), cut);
    TrimRightKeeps(TrimLeft(Join(Words(kept)), cut), cut);
  }

  lemma {:induction false} KeptAll(text: seq<Rune>)
    requires forall i :: 0 <= i < |text| ==> !C0(text[i])
    ensures Kept(text) == text
  {
    if text != [] {
      KeptAll(text[1..]);
    }
  }

  lemma JoinAfter(first: seq<Rune>, words: seq<seq<Rune>>)
    requires words != []
    ensures Join([first] + words) == first + [SPACE] + Join(words)
  {
    assert ([first] + words)[1..] == words;
  }

  predicate Tidy(text: seq<Rune>) {
    Folded(text) && (text != [] ==> !Folds(text[0]) && !Folds(text[|text| - 1]))
  }

  lemma FoldedSuffix(text: seq<Rune>, m: nat)
    requires Folded(text) && m <= |text|
    ensures Folded(text[m..])
  {
    var rest := text[m..];
    forall i | 0 <= i < |rest| ensures !C0(rest[i]) {
      assert rest[i] == text[m + i];
    }
    forall i | 0 < i < |rest| ensures !(rest[i - 1] == SPACE && rest[i] == SPACE) {
      assert rest[i] == text[m + i] && rest[i - 1] == text[m + i - 1];
    }
  }

  lemma SplitOut(text: seq<Rune>, n: nat)
    requires n < |text|
    ensures text == text[..n] + [text[n]] + text[n + 1..]
  {
  }

  /** Past its first word and one space, a tidy text is tidy. */
  lemma TidyRest(text: seq<Rune>)
    requires Tidy(text) && text != [] && WordRun(text) < |text|
    ensures var n := WordRun(text);
            n + 1 < |text| && text == text[..n] + [SPACE] + text[n + 1..] && Tidy(text[n + 1..])
  {
    var n := WordRun(text);
    assert Folds(text[n]) && !C0(text[n]);
    assert n + 1 < |text| && !C0(text[n + 1]) && text[n + 1] != SPACE by {
      assert text[n + 1 - 1] == SPACE;
    }
    SplitOut(text, n);
    FoldedSuffix(text, n + 1);
    assert text[n + 1..][0] == text[n + 1];
  }

  lemma WordsRest(text: seq<Rune>)
    requires Tidy(text) && text != [] && WordRun(text) < |text|
    ensures Words(text) == [text[..WordRun(text)]] + Words(text[WordRun(text) + 1..])
  {
    assert text[WordRun(text)..][1..] == text[WordRun(text) + 1..];
  }

  /** A folded text that does not start or end with a space is the join of its own words. */
  lemma {:induction false} TidyIsJoin(text: seq<Rune>)
    requires Tidy(text)
    ensures Join(Words(text)) == text
    decreases |text|
  {
    var n := WordRun(text);
    if text == [] {
    } else if n == |text| {
      OneWord(text);
    } else {
      TidyRest(text);
      TidyIsJoin(text[n + 1..]);
      WordsRest(text);
      JoinAfter(text[..n], Words(text[n + 1..]));
    }
  }

  /** The clean texts are exactly those cleaning leaves as they are, so cleaning twice is cleaning once. */
  lemma CleanIffUnchanged(text: seq<Rune>, space: Rune -> bool)
    requires space(SPACE)
    ensures Clean(text, space) <==> Cleaned(text, space) == text
    ensures Cleaned(Cleaned(text, space), space) == Cleaned(text, space)
  {
    CleanedIsClean(text, space);
    var once := Cleaned(text, space);
    CleanStays(once, space);
    if Clean(text, space) {
      CleanStays(text, space);
    }
  }

  lemma CleanStays(text: seq<Rune>, space: Rune -> bool)
    requires space(SPACE) && Clean(text, space)
    ensures Cleaned(text, space) == text
  {
    KeptAll(text);
    if text != [] {
      assert text[0] != SPACE && text[|text| - 1] != SPACE;
    }
    TidyIsJoin(text);
  }

  // Which characters fold, go and are trimmed

  lemma {:induction false} KeptParts(a: seq<Rune>, b: seq<Rune>)
    ensures Kept(a + b) == Kept(a) + Kept(b)
  {
    if a == [] {
      assert a + b == b;
    } else {
      KeptParts(a[1..], b);
      assert (a + b)[1..] == a[1..] + b;
    }
  }

  lemma {:induction false} WordRunPlain(word: seq<Rune>)
    requires Plain(word)
    ensures WordRun(word) == |word|
  {
    if |word| > 1 {
      WordRunPlain(word[1..]);
    } else {
      assert WordRun(word[1..]) == 0;
    }
  }

  /** Two words with one folding character between them are two words. */
  lemma TwoWords(a: seq<Rune>, r: Rune, b: seq<Rune>)
    requires Plain(a) && Plain(b) && Folds(r)
    ensures Words(a + [r] + b) == [a, b]
  {
    var text := a + [r] + b;
    WordRunPlain(b);
    OneWord(b);
    assert text[WordRun(text)] == r by {
      assert WordRun(text) == |a| by {
        assert forall i :: 0 <= i < |a| ==> text[i] == a[i] && !Folds(text[i]);
        assert text[|a|] == r;
      }
    }
    assert text[..|a|] == a && text[|a|..][1..] == b;
  }

  lemma PlainPart(text: seq<Rune>)
    requires Plain(text)
    ensures Written(text) == text
  {
    KeptAll(text);
    WordRunPlain(text);
    OneWord(text);
  }

  lemma EndsStay(text: seq<Rune>, cut: Rune -> bool)
    requires text != [] && !cut(text[0]) && !cut(text[|text| - 1])
    ensures Trim(text, cut) == text
  {
  }

  lemma KeptBetween(a: seq<Rune>, r: Rune, b: seq<Rune>)
    requires Plain(a) && Plain(b)
    ensures Kept(a + [r] + b) == if Dropped(r) then a + b else a + [r] + b
  {
    KeptAll(a);
    KeptAll(b);
    KeptOneMore(a, r);
    KeptParts(a + [r], b);
    if Dropped(r) {
      assert a + [] == a;
    }
  }

  lemma FoldedBetween(a: seq<Rune>, r: Rune, b: seq<Rune>)
    requires Plain(a) && Plain(b) && Folds(r)
    ensures Written(a + [r] + b) == a + [SPACE] + b
  {
    KeptBetween(a, r, b);
    TwoWords(a, r, b);
    JoinAfter(a, [b]);
    assert [a] + [b] == [a, b] && Join([b]) == b;
  }

  lemma KeptIsWritten(name: seq<Rune>, text: seq<Rune>)
    requires Kept(name) == text && Plain(text)
    ensures Written(name) == text
  {
    WordRunPlain(text);
    OneWord(text);
  }

  /** What is written of two words and a character between them. */
  lemma BetweenWritten(a: seq<Rune>, r: Rune, b: seq<Rune>)
    requires Plain(a) && Plain(b)
    ensures Written(a + [r] + b) ==
            if Folds(r) then a + [SPACE] + b else if C0(r) then a + b else a + [r] + b
  {
    KeptBetween(a, r, b);
    if Folds(r) {
      FoldedBetween(a, r, b);
    } else if C0(r) {
      KeptIsWritten(a + [r] + b, a + b);
    } else {
      KeptIsWritten(a + [r] + b, a + [r] + b);
    }
  }

  /** Between two words, exactly space, tab, line feed and carriage return leave one space, the other characters below
      space leave nothing, and any other one is kept. */
  lemma BetweenWords(a: seq<Rune>, r: Rune, b: seq<Rune>, space: Rune -> bool)
    requires Plain(a) && Plain(b) && !space(a[0]) && !space(b[|b| - 1])
    ensures Cleaned(a + [r] + b, space) ==
            if r == 0x20 || r == 0x09 || r == 0x0A || r == 0x0D then a + [0x20] + b
            else if r < 0x20 then a + b
            else a + [r] + b
  {
    BetweenWritten(a, r, b);
    var left := Written(a + [r] + b);
    assert left[0] == a[0] && left[|left| - 1] == b[|b| - 1];
    EndsStay(left, (x: Rune) => Trimmed(space, x));
  }

  /** At either end of a word, exactly the white space is trimmed that is not the next-line control. */
  lemma AroundWord(r: Rune, word: seq<Rune>, space: Rune -> bool)
    requires Plain(word) && !space(word[0]) && !space(word[|word| - 1]) && r > 0x20
    ensures Cleaned([r] + word, space) == if space(r) && r != 0x85 then word else [r] + word
    ensures Cleaned(word + [r], space) == if space(r) && r != 0x85 then word else word + [r]
  {
    var cut := (x: Rune) => Trimmed(space, x);
    assert Plain([r] + word) && Plain(word + [r]);
    PlainPart([r] + word);
    PlainPart(word + [r]);
    assert ([r] + word)[1..] == word;
    assert (word + [r])[..|word|] == word;
    EndsStay(word, cut);
    if !cut(r) {
      EndsStay([r] + word, cut);
      EndsStay(word + [r], cut);
    }
  }
}
