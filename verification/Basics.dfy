/** Small helpers shared by the models: an optional value, characters, the size of finite sets, and trimming. */
module Basics {

  datatype Option<+T> = None | Some(value: T)

  /** A character, as its Unicode code point. */
  type Rune = r: int | 0 <= r <= 0x10FFFF

  /** A subset is no larger than the set that holds it. */
  lemma {:induction false} SubsetSize<T>(a: set<T>, b: set<T>)
    requires a <= b
    ensures |a| <= |b|
    decreases b
  {
    if b == {} {
      assert a == {};
    } else {
      var x :| x in b;
      SubsetSize(a - {x}, b - {x});
      if x in a {
        assert a == (a - {x}) + {x};
      } else {
        assert a == a - {x};
      }
    }
  }

  /** A set that a function maps one-to-one into another is no larger than it. */
  lemma {:induction false} InjectionSize<T, U>(a: set<T>, b: set<U>, f: T -> U)
    requires forall x :: x in a ==> f(x) in b
    requires forall x, y :: x in a && y in a && f(x) == f(y) ==> x == y
    ensures |a| <= |b|
    decreases a
  {
    if a == {} {
    } else {
      var x :| x in a;
      InjectionSize(a - {x}, b - {f(x)}, f);
      assert a == (a - {x}) + {x};
      assert b == (b - {f(x)}) + {f(x)};
    }
  }

  // Trimming

  lemma Associates<T>(a: seq<T>, b: seq<T>, c: seq<T>)
    ensures a + (b + c) == (a + b) + c
  {
  }

  function TrimLeft<T>(text: seq<T>, cut: T -> bool): seq<T> {
    if text != [] && cut(text[0]) then TrimLeft(text[1..], cut) else text
  }

  function TrimRight<T>(text: seq<T>, cut: T -> bool): seq<T> {
    if text != [] && cut(text[|text| - 1]) then TrimRight(text[..|text| - 1], cut) else text
  }

  function Trim<T>(text: seq<T>, cut: T -> bool): seq<T> {
    TrimRight(TrimLeft(text, cut), cut)
  }

  lemma {:induction false} TrimLeftKeepsBad<T>(text: seq<T>, cut: T -> bool, i: nat)
    requires i < |text| && !cut(text[i])
    ensures TrimLeft(text, cut) != [] && !cut(TrimLeft(text, cut)[0])
  {
    if cut(text[0]) {
      TrimLeftKeepsBad(text[1..], cut, i - 1);
    }
  }

  lemma {:induction false} TrimLeftAll<T>(text: seq<T>, cut: T -> bool)
    requires forall i :: 0 <= i < |text| ==> cut(text[i])
    ensures TrimLeft(text, cut) == []
  {
    if text != [] {
      TrimLeftAll(text[1..], cut);
    }
  }

  lemma {:induction false} TrimRightKeepsFirst<T>(text: seq<T>, cut: T -> bool)
    requires text != [] && !cut(text[0])
    ensures TrimRight(text, cut) != []
  {
    if cut(text[|text| - 1]) {
      TrimRightKeepsFirst(text[..|text| - 1], cut);
    }
  }
}
