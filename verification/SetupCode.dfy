/** Setup codes as text: what counts as one, and how a typed one is brought back to it. */
module SetupCode {
  import opened Basics

  const CODE_LENGTH := 26
  const MAX_CODE_FILE_BYTES := 64

  /** Whether a character is one a setup code may hold, of A to Z and 2 to 7. */
  predicate InAlphabet(c: char) {
    'A' <= c <= 'Z' || '2' <= c <= '7'
  }

  const CAPITALS := "ABCDEFGHIJKLMNOPQRSTUVWXYZ"
  const DIGITS := "234567"

  lemma CapitalsAre(c: char)
    ensures 'A' <= c <= 'Z' <==> c in CAPITALS
  {
    if 'A' <= c <= 'Z' {
      assert CAPITALS[c as int - 'A' as int] == c;
    }
  }

  /** The alphabet is that of base 32, section 6 of RFC 4648. */
  lemma AlphabetIs(c: char)
    ensures InAlphabet(c) <==> c in CAPITALS + DIGITS
  {
    CapitalsAre(c);
    if '2' <= c <= '7' {
      assert DIGITS[c as int - '2' as int] == c;
    }
  }

  /** Whether a text is one setup code: nothing of it is left once the alphabet is trimmed off both ends. */
  predicate IsCode(text: string) {
    |text| == CODE_LENGTH && Trim(text, c => InAlphabet(c)) == ""
  }

  /** Trimming the alphabet leaves nothing exactly when every character is of it. */
  lemma IsCodeIff(text: string)
    ensures IsCode(text) <==> |text| == CODE_LENGTH && forall i :: 0 <= i < |text| ==> InAlphabet(text[i])
  {
    var cut := (c: char) => InAlphabet(c);
    if i :| 0 <= i < |text| && !InAlphabet(text[i]) {
      TrimLeftKeepsBad(text, cut, i);
      TrimRightKeepsFirst(TrimLeft(text, cut), cut);
    } else {
      TrimLeftAll(text, cut);
    }
  }

  // Typed codes

  predicate Separator(c: char) {
    c == ' ' || c == '\t' || c == '\r' || c == '\n' || c == '-'
  }

  function DropSeparators(input: string): string {
    if input == "" then ""
    else if Separator(input[0]) then DropSeparators(input[1..])
    else [input[0]] + DropSeparators(input[1..])
  }

  function ToUpper(text: string, upper: char -> char): string {
    seq(|text|, i requires 0 <= i < |text| => upper(text[i]))
  }

  /** normalizeCode, `upper` being the case table's capital of a character. */
  function Normalize(input: string, upper: char -> char): string {
    ToUpper(DropSeparators(input), upper)
  }

  /** Whether a case table capitalises ASCII letters and leaves the other ASCII characters alone. */
  ghost predicate AsciiCapitals(upper: char -> char) {
    forall c: char :: c < 128 as char ==>
      upper(c) == if 'a' <= c <= 'z' then (c as int - 32) as char else c
  }

  /** A text types a code when it is the code's characters in order, each in a case that capitalises to it, with any
      separators anywhere. */
  predicate Types(input: string, code: string, upper: char -> char) {
    if input == "" then code == ""
    else if Separator(input[0]) then Types(input[1..], code, upper)
    else code != "" && upper(input[0]) == code[0] && Types(input[1..], code[1..], upper)
  }

  /** A text normalises to a code exactly when it types it. */
  lemma {:induction false} NormalizesIffTypes(input: string, code: string, upper: char -> char)
    ensures Normalize(input, upper) == code <==> Types(input, code, upper)
  {
    if input == "" {
    } else if Separator(input[0]) {
      NormalizesIffTypes(input[1..], code, upper);
    } else {
      var rest := Normalize(input[1..], upper);
      assert Normalize(input, upper) == [upper(input[0])] + rest;
      if code != "" {
        NormalizesIffTypes(input[1..], code[1..], upper);
        assert code == [code[0]] + code[1..];
      }
    }
  }

  lemma {:induction false} DropParts(a: string, b: string)
    ensures DropSeparators(a + b) == DropSeparators(a) + DropSeparators(b)
  {
    if a == "" {
      assert a + b == b;
    } else {
      DropParts(a[1..], b);
      assert (a + b)[1..] == a[1..] + b;
    }
  }

  ghost predicate LeftOut(c: char, upper: char -> char) {
    forall a: string, b: string :: Normalize(a + [c] + b, upper) == Normalize(a + b, upper)
  }

  /** The characters that make no difference wherever they are typed are exactly the space, the tab, the carriage
      return, the line feed and the hyphen. */
  lemma LeftOutIff(c: char, upper: char -> char)
    ensures LeftOut(c, upper) <==> c in [' ', '\t', '\r', '\n', '-']
  {
    if c in [' ', '\t', '\r', '\n', '-'] {
      forall a: string, b: string ensures Normalize(a + [c] + b, upper) == Normalize(a + b, upper) {
        DropParts(a + [c], b);
        DropParts(a, [c]);
        DropParts(a, b);
        assert [c][1..] == "";
      }
    } else {
      assert "" + [c] + "" == [c] && [c][1..] == "";
      assert DropSeparators([c]) == [c];
      assert |Normalize([c], upper)| == 1 && |Normalize("" + "", upper)| == 0;
    }
  }

  /** The small letter of a code's letter, and the character itself otherwise. */
  function Small(c: char): char {
    if 'A' <= c <= 'Z' then (c as int + 32) as char else c
  }

  /** A code typed letter by letter in either case, with runs of separators before each character and at the end. */
  predicate TypedAs(input: string, code: string) {
    if input == "" then code == ""
    else if Separator(input[0]) then TypedAs(input[1..], code)
    else code != "" && (input[0] == code[0] || input[0] == Small(code[0])) && TypedAs(input[1..], code[1..])
  }

  lemma {:induction false} TypedTypes(input: string, code: string, upper: char -> char)
    requires AsciiCapitals(upper) && TypedAs(input, code)
    requires forall i :: 0 <= i < |code| ==> InAlphabet(code[i])
    ensures Types(input, code, upper)
  {
    if input == "" {
    } else if Separator(input[0]) {
      TypedTypes(input[1..], code, upper);
    } else {
      assert InAlphabet(code[0]);
      TypedTypes(input[1..], code[1..], upper);
    }
  }

  /** Every code typed with separators inserted anywhere and letters in either case normalises back to that code. */
  lemma TypedCodeNormalizes(input: string, code: string, upper: char -> char)
    requires AsciiCapitals(upper) && IsCode(code) && TypedAs(input, code)
    ensures Normalize(input, upper) == code
  {
    IsCodeIff(code);
    TypedTypes(input, code, upper);
    NormalizesIffTypes(input, code, upper);
  }
}
