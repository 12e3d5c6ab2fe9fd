/** The password generator: bytes are drawn until enough of them fall below the bound, and each accepted byte picks one
    character. Every password of a length is equally likely. */
module Password {
  import opened Basics

  type Byte = b: int | 0 <= b < 256

  /** The letters, digits and symbols a password draws from, by the number a byte leaves over. */
  const SMALLS := "abcdefghijklmnopqrstuvwxyz"
  const CAPITALS := "ABCDEFGHIJKLMNOPQRSTUVWXYZ"
  const DIGITS := "0123456789"
  const SYMBOLS := "!@#$%^&*()"
  const CHARACTERS := SMALLS + CAPITALS + DIGITS + SYMBOLS
  const COUNT := 72
  const UNBIASED_BOUND := 256 - (256 % COUNT)
  const LONGEST_PASSWORD := 65536

  /** A JavaScript number as the generator may be handed it. */
  datatype Number = Finite(value: real) | NotFinite

  datatype Answer = Generated(password: string) | OutOfRange | Drawing

  predicate IsAllowedLength(length: Number) {
    length.Finite? && length.value.Floor as real == length.value && 1.0 <= length.value <= LONGEST_PASSWORD as real
  }

  function Whole(n: int): Number {
    Finite(n as real)
  }

  /** The lengths a password may have are the whole numbers from 1 to 65536. */
  lemma AllowedLengthIff(length: Number)
    ensures IsAllowedLength(length) <==> exists n :: 1 <= n <= 65536 && length == Whole(n)
  {
    if IsAllowedLength(length) {
      assert length == Whole(length.value.Floor);
    }
  }

  predicate Accepted(b: Byte) {
    b < UNBIASED_BOUND
  }

  /** The character at a place of the list, as CharactersAre ties it to the list's text. */
  function CharacterAt(i: nat): char
    requires i < COUNT
  {
    if i < 26 then ('a' as int + i) as char
    else if i < 52 then ('A' as int + i - 26) as char
    else if i < 62 then ('0' as int + i - 52) as char
    else if i == 62 then '!' else if i == 63 then '@' else if i == 64 then '#' else if i == 65 then '$'
    else if i == 66 then '%' else if i == 67 then '^' else if i == 68 then '&' else if i == 69 then '*'
    else if i == 70 then '(' else ')'
  }

  lemma PartsAre(i: nat)
    ensures i < 26 ==> SMALLS[i] == CharacterAt(i) && CAPITALS[i] == CharacterAt(26 + i)
    ensures i < 10 ==> DIGITS[i] == CharacterAt(52 + i) && SYMBOLS[i] == CharacterAt(62 + i)
  {
  }

  /** The list holds COUNT characters, and those. */
  lemma CharactersAre(i: nat)
    ensures |CHARACTERS| == COUNT
    ensures i < COUNT ==> CHARACTERS[i] == CharacterAt(i)
  {
    if i < 26 {
      PartsAre(i);
    } else if i < 52 {
      PartsAre(i - 26);
    } else if i < 62 {
      PartsAre(i - 52);
    } else if i < 72 {
      PartsAre(i - 62);
    }
  }

  function Character(b: Byte): char {
    CharacterAt(b % COUNT)
  }

  /** The accepted bytes of a stream, in order. */
  function Kept(bytes: seq<Byte>): seq<Byte> {
    if bytes == [] then []
    else (if Accepted(bytes[0]) then [bytes[0]] else []) + Kept(bytes[1..])
  }

  function Text(bytes: seq<Byte>): (text: string)
    ensures |text| == |bytes|
  {
    seq(|bytes|, i requires 0 <= i < |bytes| => Character(bytes[i]))
  }

  /** What the generator makes of a stream of bytes: the characters of its first accepted bytes, none while too few. */
  function Generates(bytes: seq<Byte>, length: nat): Option<string> {
    if |Kept(bytes)| < length then None else Some(Text(Kept(bytes)[..length]))
  }

  function Concat(draws: seq<seq<Byte>>): seq<Byte> {
    if draws == [] then [] else draws[0] + Concat(draws[1..])
  }

  lemma {:induction false} KeptConcat(a: seq<Byte>, b: seq<Byte>)
    ensures Kept(a + b) == Kept(a) + Kept(b)
  {
    if a == [] {
      assert a + b == b;
    } else {
      KeptConcat(a[1..], b);
      var first := if Accepted(a[0]) then [a[0]] else [];
      assert (a + b)[0] == a[0] && (a + b)[1..] == a[1..] + b;
      assert Kept(a) == first + Kept(a[1..]);
      assert Kept(a + b) == first + Kept(a[1..] + b);
      Associates(first, Kept(a[1..]), Kept(b));
    }
  }

  lemma {:induction false} ConcatLast(draws: seq<seq<Byte>>, n: nat)
    requires n < |draws|
    ensures Concat(draws[..n + 1]) == Concat(draws[..n]) + draws[n]
  {
    if n == 0 {
      assert draws[..1][1..] == [];
      assert draws[..0] == [];
    } else {
      ConcatLast(draws[1..], n - 1);
      assert draws[..n + 1][1..] == draws[1..][..n];
      assert draws[..n][1..] == draws[1..][..n - 1];
    }
  }

  lemma {:induction false} ConcatSplit(draws: seq<seq<Byte>>, n: nat)
    requires n <= |draws|
    ensures Concat(draws) == Concat(draws[..n]) + Concat(draws[n..])
  {
    if n == 0 {
      assert draws[..0] == [];
      assert draws[0..] == draws;
    } else {
      ConcatSplit(draws[1..], n - 1);
      assert draws[..n][1..] == draws[1..][..n - 1];
      assert draws[1..][n - 1..] == draws[n..];
    }
  }

  function AtMost(bytes: seq<Byte>, n: nat): seq<Byte> {
    if |bytes| < n then bytes else bytes[..n]
  }

  /** The password after the first n draws. */
  function Begun(draws: seq<seq<Byte>>, n: nat, wanted: nat): string
    requires n <= |draws|
  {
    Text(AtMost(Kept(Concat(draws[..n])), wanted))
  }

  lemma TextConcat(a: seq<Byte>, b: seq<Byte>)
    ensures Text(a + b) == Text(a) + Text(b)
  {
  }

  /** One more draw adds its accepted bytes as far as there is room. */
  lemma BegunStep(draws: seq<seq<Byte>>, n: nat, wanted: nat)
    requires n < |draws| && |Begun(draws, n, wanted)| < wanted
    ensures Begun(draws, n + 1, wanted) ==
            Begun(draws, n, wanted) + Text(AtMost(Kept(draws[n]), wanted - |Begun(draws, n, wanted)|))
  {
    var before, kept := Kept(Concat(draws[..n])), Kept(draws[n]);
    ConcatLast(draws, n);
    KeptConcat(Concat(draws[..n]), draws[n]);
    TextConcat(before, AtMost(kept, wanted - |before|));
    assert AtMost(before + kept, wanted) == before + AtMost(kept, wanted - |before|);
  }

  /** A password that is full answers for all the draws, those not taken included. */
  lemma BegunEnds(draws: seq<seq<Byte>>, n: nat, wanted: nat)
    requires n <= |draws| && |Begun(draws, n, wanted)| == wanted
    ensures Generates(Concat(draws), wanted) == Some(Begun(draws, n, wanted))
  {
    ConcatSplit(draws, n);
    KeptConcat(Concat(draws[..n]), Concat(draws[n..]));
    var kept := Kept(Concat(draws[..n]));
    assert Kept(Concat(draws))[..wanted] == kept[..wanted];
  }

  /** The generator over the draws its random source answers, each filling the byte array. Drawing says that every draw
      was used up and the loop goes on. */
  method GeneratePassword(length: Number, draws: seq<seq<Byte>>) returns (answer: Answer)
    requires IsAllowedLength(length) ==> forall i :: 0 <= i < |draws| ==> |draws[i]| == length.value.Floor
    ensures answer == OutOfRange <==> !IsAllowedLength(length)
    ensures IsAllowedLength(length) ==>
              match Generates(Concat(draws), length.value.Floor)
              case Some(password) => answer == Generated(password)
              case None => answer == Drawing
  {
    if !IsAllowedLength(length) {
      return OutOfRange;
    }
    var wanted := length.value.Floor;
    var password := "";
    var drawn := 0;
    assert draws[..0] == [];
    while |password| < wanted
      invariant 0 <= drawn <= |draws| && |password| <= wanted
      invariant password == Begun(draws, drawn, wanted)
      decreases |draws| - drawn
    {
      if drawn == |draws| {
        assert draws[..drawn] == draws;
        return Drawing;
      }
      BegunStep(draws, drawn, wanted);
      var kept := Keep(draws[drawn]);
      var room := wanted - |password|;
      password := Append(password, if |kept| < room then kept else kept[..room]);
      drawn := drawn + 1;
    }
    BegunEnds(draws, drawn, wanted);
    answer := Generated(password);
  }

  /** The filter that keeps the accepted bytes of one draw. */
  method Keep(bytes: seq<Byte>) returns (kept: seq<Byte>)
    ensures kept == Kept(bytes)
  {
    kept := [];
    for i := 0 to |bytes|
      invariant kept == Kept(bytes[..i])
    {
      assert bytes[..i + 1] == bytes[..i] + [bytes[i]];
      KeptConcat(bytes[..i], [bytes[i]]);
      if Accepted(bytes[i]) {
        kept := kept + [bytes[i]];
      }
    }
    assert bytes[..|bytes|] == bytes;
  }

  /** The loop that adds one character for each byte taken. */
  method Append(start: string, taken: seq<Byte>) returns (password: string)
    ensures password == start + Text(taken)
  {
    password := start;
    for i := 0 to |taken|
      invariant password == start + Text(taken[..i])
    {
      password := password + [Character(taken[i])];
    }
    assert taken[..|taken|] == taken;
  }

  // Likelihood

  /** Every byte string of a length. */
  function Strings(n: nat): set<seq<Byte>> {
    if n == 0 then {[]} else set b: Byte, rest | 0 <= b < 256 && rest in Strings(n - 1) :: [b] + rest
  }

  lemma {:induction false} InStrings(n: nat, s: seq<Byte>)
    ensures s in Strings(n) <==> |s| == n
  {
    if n > 0 {
      if |s| > 0 {
        InStrings(n - 1, s[1..]);
        assert s == [s[0]] + s[1..];
      }
      if s in Strings(n) {
        var b: Byte, rest :| 0 <= b < 256 && rest in Strings(n - 1) && s == [b] + rest;
        assert s[1..] == rest;
      }
    }
  }

  /** The byte strings of a length from which the generator makes one password. */
  function Making(n: nat, password: string): set<seq<Byte>> {
    set s | s in Strings(n) && Generates(s, |password|) == Some(password)
  }

  /** Whether a password is one the generator may make. */
  predicate Drawable(password: string) {
    forall i :: 0 <= i < |password| ==> Drawn(password[i])
  }

  /** The place of a character in the list. */
  function Index(c: char): (i: nat)
    ensures i < COUNT
  {
    if 'a' <= c <= 'z' then c as int - 'a' as int
    else if 'A' <= c <= 'Z' then 26 + c as int - 'A' as int
    else if '0' <= c <= '9' then 52 + c as int - '0' as int
    else if c == '!' then 62 else if c == '@' then 63 else if c == '#' then 64 else if c == '$' then 65
    else if c == '%' then 66 else if c == '^' then 67 else if c == '&' then 68 else if c == '*' then 69
    else if c == '(' then 70 else 71
  }

  /** Whether the list holds a character. */
  predicate Drawn(c: char) {
    CharacterAt(Index(c)) == c
  }

  /** No character stands twice in the list, and Drawn says which ones it holds. */
  lemma IndexOfCharacter(i: nat)
    requires i < COUNT
    ensures Index(CharacterAt(i)) == i && Drawn(CharacterAt(i))
  {
  }

  lemma DrawnIsInList(c: char)
    ensures Drawn(c) <==> c in CHARACTERS
  {
    CharactersAre(Index(c));
    if c in CHARACTERS {
      var i :| 0 <= i < |CHARACTERS| && CHARACTERS[i] == c;
      CharactersAre(i);
      IndexOfCharacter(i);
    }
  }

  /** Whether every character of a password is one of the list. */
  predicate FromTheList(password: string) {
    forall i :: 0 <= i < |password| ==> password[i] in CHARACTERS
  }

  lemma FromTheListIsDrawable(password: string)
    requires FromTheList(password)
    ensures Drawable(password)
  {
    forall i | 0 <= i < |password| ensures Drawn(password[i]) {
      DrawnIsInList(password[i]);
    }
  }

  /** The accepted byte of the same third of the range that picks another character. */
  function Instead(b: Byte, c: char): Byte
    requires Accepted(b)
  {
    (b / COUNT) * COUNT + Index(c)
  }

  /** A byte string with its first accepted bytes moved to pick the characters of another password. */
  function Retarget(s: seq<Byte>, q: string): seq<Byte> {
    if s == [] || q == "" then s
    else if Accepted(s[0]) then [Instead(s[0], q[0])] + Retarget(s[1..], q[1..])
    else [s[0]] + Retarget(s[1..], q)
  }

  lemma InsteadPicks(b: Byte, p: char, q: char)
    requires Accepted(b) && Character(b) == p && Drawn(q)
    ensures Accepted(Instead(b, q)) && Character(Instead(b, q)) == q && Instead(Instead(b, q), p) == b
  {
    IndexOfCharacter(b % COUNT);
    assert b == (b / COUNT) * COUNT + b % COUNT;
    var third := b / COUNT;
    assert third == 0 || third == 1 || third == 2;
  }

  /** A text reads byte by byte. */
  lemma TextStep(s: seq<Byte>, password: string)
    requires s != [] && password != ""
    ensures Text(s) == password <==> Character(s[0]) == password[0] && Text(s[1..]) == password[1..]
  {
    assert Text(s) == [Character(s[0])] + Text(s[1..]);
    assert password == [password[0]] + password[1..];
  }

  /** Generating from a byte string goes byte by byte. */
  lemma GeneratesStep(s: seq<Byte>, password: string)
    requires s != [] && password != ""
    ensures Generates(s, |password|) == Some(password) <==>
            if Accepted(s[0]) then
              Character(s[0]) == password[0] && Generates(s[1..], |password| - 1) == Some(password[1..])
            else Generates(s[1..], |password|) == Some(password)
  {
    if Accepted(s[0]) {
      var kept := Kept(s[1..]);
      assert Kept(s) == [s[0]] + kept;
      if |kept| >= |password| - 1 {
        var first := Kept(s)[..|password|];
        assert first[0] == s[0] && first[1..] == kept[..|password| - 1];
        TextStep(first, password);
      }
    } else {
      assert Kept(s) == Kept(s[1..]);
    }
  }

  /** Retargeting makes the other password of it, and going back gives the string again. */
  lemma {:induction false} RetargetMakes(s: seq<Byte>, p: string, q: string)
    requires |p| == |q| && Drawable(q) && Generates(s, |p|) == Some(p)
    ensures |Retarget(s, q)| == |s| && Generates(Retarget(s, q), |q|) == Some(q) && Retarget(Retarget(s, q), p) == s
  {
    if p != "" {
      assert s != [];
      GeneratesStep(s, p);
      var moved := Retarget(s, q);
      if Accepted(s[0]) {
        InsteadPicks(s[0], p[0], q[0]);
        RetargetMakes(s[1..], p[1..], q[1..]);
        assert moved[1..] == Retarget(s[1..], q[1..]);
      } else {
        RetargetMakes(s[1..], p, q);
        assert moved[1..] == Retarget(s[1..], q);
      }
      GeneratesStep(moved, q);
    } else {
      assert Text(Kept(s)[..0]) == "";
    }
  }

  lemma NoMoreMaking(n: nat, p: string, q: string)
    requires |p| == |q| && Drawable(p) && Drawable(q)
    ensures |Making(n, p)| <= |Making(n, q)|
  {
    var move := (s: seq<Byte>) => Retarget(s, q);
    forall s | s in Making(n, p) ensures move(s) in Making(n, q) && Retarget(move(s), p) == s {
      RetargetMakes(s, p, q);
      InStrings(n, s);
      InStrings(n, move(s));
    }
    InjectionSize(Making(n, p), Making(n, q), move);
  }

  /** Of the byte streams of any length, as many make one password as make any other of the same length. */
  lemma AllEquallyLikely(n: nat, p: string, q: string)
    requires |p| == |q| && FromTheList(p) && FromTheList(q)
    ensures |Making(n, p)| == |Making(n, q)|
  {
    FromTheListIsDrawable(p);
    FromTheListIsDrawable(q);
    NoMoreMaking(n, p, q);
    NoMoreMaking(n, q, p);
  }

  // How many byte strings make a password when none is rejected

  predicate AllAccepted(s: seq<Byte>) {
    forall i :: 0 <= i < |s| ==> Accepted(s[i])
  }

  /** The accepted byte strings that spell a password. */
  function Spelling(password: string): set<seq<Byte>> {
    set s | s in Strings(|password|) && AllAccepted(s) && Text(s) == password
  }

  function ThreeTo(n: nat): nat {
    if n == 0 then 1 else 3 * ThreeTo(n - 1)
  }

  function Prefixed(b: Byte, strings: set<seq<Byte>>): set<seq<Byte>> {
    set s | s in strings :: [b] + s
  }

  lemma PrefixedSize(b: Byte, strings: set<seq<Byte>>)
    ensures |Prefixed(b, strings)| == |strings|
  {
    var add := (s: seq<Byte>) => [b] + s;
    forall s, t: seq<Byte> | [b] + s == [b] + t ensures s == t {
      assert ([b] + s)[1..] == s && ([b] + t)[1..] == t;
    }
    InjectionSize(strings, Prefixed(b, strings), add);
    var cut := (s: seq<Byte>) => if s == [] then [] else s[1..];
    forall s | s in Prefixed(b, strings) ensures cut(s) in strings && s == [b] + cut(s) {
      var rest :| rest in strings && s == [b] + rest;
      assert s[1..] == rest;
    }
    InjectionSize(Prefixed(b, strings), strings, cut);
  }

  /** Three accepted bytes pick a character: its place in the list, and one and two lists further. */
  lemma PickedBy(b: Byte, c: char)
    requires Drawn(c)
    ensures Accepted(b) && Character(b) == c <==> b == Index(c) || b == 72 + Index(c) || b == 144 + Index(c)
  {
    IndexOfCharacter(b % COUNT);
  }

  lemma AllAcceptedStep(s: seq<Byte>)
    requires s != []
    ensures AllAccepted(s) <==> Accepted(s[0]) && AllAccepted(s[1..])
  {
    if Accepted(s[0]) && AllAccepted(s[1..]) {
      forall i | 0 <= i < |s| ensures Accepted(s[i]) {
        assert i > 0 ==> s[i] == s[1..][i - 1];
      }
    }
  }

  /** A string spells a password when its first byte picks the first character and the rest spells the rest. */
  lemma SpellingStep(password: string, s: seq<Byte>)
    requires password != "" && Drawn(password[0])
    ensures s in Spelling(password) <==>
            s != [] && s[1..] in Spelling(password[1..]) &&
            (s[0] == Index(password[0]) || s[0] == 72 + Index(password[0]) || s[0] == 144 + Index(password[0]))
  {
    InStrings(|password|, s);
    if s != [] {
      InStrings(|password| - 1, s[1..]);
      AllAcceptedStep(s);
      TextStep(s, password);
      PickedBy(s[0], password[0]);
    }
  }

  lemma InPrefixed(b: Byte, strings: set<seq<Byte>>, s: seq<Byte>)
    ensures s in Prefixed(b, strings) <==> s != [] && s[0] == b && s[1..] in strings
  {
    if s in Prefixed(b, strings) {
      var rest :| rest in strings && s == [b] + rest;
      assert s[1..] == rest;
    }
    if s != [] {
      assert s == [s[0]] + s[1..];
    }
  }

  lemma SpellingParts(password: string, a: set<seq<Byte>>, b: set<seq<Byte>>, c: set<seq<Byte>>)
    requires password != "" && Drawn(password[0])
    requires a == Prefixed(Index(password[0]), Spelling(password[1..]))
    requires b == Prefixed(72 + Index(password[0]), Spelling(password[1..]))
    requires c == Prefixed(144 + Index(password[0]), Spelling(password[1..]))
    ensures Spelling(password) == a + b + c && a !! b && (a + b) !! c
  {
    var i := Index(password[0]);
    forall s
      ensures s in Spelling(password) <==> s in a + b + c
      ensures !(s in a && s in b) && !(s in a + b && s in c)
    {
      SpellingStep(password, s);
      InPrefixed(i, Spelling(password[1..]), s);
      InPrefixed(72 + i, Spelling(password[1..]), s);
      InPrefixed(144 + i, Spelling(password[1..]), s);
    }
  }

  lemma EmptySpelling()
    ensures Spelling("") == {[]}
  {
    forall s ensures s in Spelling("") <==> s == [] {
      InStrings(0, s);
    }
  }

  lemma ThreeTimesTheSpelling(password: string)
    requires password != "" && Drawn(password[0])
    ensures |Spelling(password)| == 3 * |Spelling(password[1..])|
  {
    var i, rest := Index(password[0]), Spelling(password[1..]);
    var a, b, c := Prefixed(i, rest), Prefixed(72 + i, rest), Prefixed(144 + i, rest);
    PrefixedSize(i, rest);
    PrefixedSize(72 + i, rest);
    PrefixedSize(144 + i, rest);
    SpellingParts(password, a, b, c);
    assert |a + b| == |a| + |b|;
    assert |(a + b) + c| == |a + b| + |c|;
  }

  lemma {:induction false} SpelledByThrees(password: string)
    requires Drawable(password)
    ensures |Spelling(password)| == ThreeTo(|password|)
  {
    if password == "" {
      EmptySpelling();
    } else {
      assert forall i :: 0 <= i < |password| - 1 ==> password[1..][i] == password[i + 1];
      SpelledByThrees(password[1..]);
      ThreeTimesTheSpelling(password);
    }
  }

  /** Every password of the list's characters is spelled by exactly three accepted bytes for each of them. */
  lemma SpelledThreeToTheLength(password: string)
    requires FromTheList(password)
    ensures |Spelling(password)| == ThreeTo(|password|)
  {
    FromTheListIsDrawable(password);
    SpelledByThrees(password);
  }
}
