/** Bytes, and facts about sequences that several models use. */
module Sequences {

  type Byte = b: int | 0 <= b < 256

  function Min(a: nat, b: nat): nat { if a < b then a else b }

  lemma Regroup<T>(a: seq<T>, b: seq<T>, c: seq<T>)
    ensures (a + b) + c == a + (b + c)
  {
  }

  lemma ShiftOne<T>(a: seq<T>, b: seq<T>)
    requires b != []
    ensures (a + [b[0]]) + b[1..] == a + b
  {
  }

  lemma AppendNothing<T>(a: seq<T>)
    ensures a + [] == a && [] + a == a
  {
  }

  lemma SplitAt<T>(s: seq<T>, at: nat)
    requires at < |s|
    ensures s == s[..at] + ([s[at]] + s[at + 1..])
  {
  }

  /** Where the elements of a sequence with one taken out come from. */
  lemma TakenOut<T>(s: seq<T>, at: nat)
    requires at < |s|
    ensures forall j {:trigger (s[..at] + s[at + 1..])[j]} :: 0 <= j < |s| - 1 ==>
              (s[..at] + s[at + 1..])[j] == s[if j < at then j else j + 1]
  {
  }
}
