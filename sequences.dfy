/** Small facts about sequence concatenation and slicing, stated once so
    that the proofs using them do not redo extensional reasoning in a
    large context. */
module Sequences {

  /** Splitting off the last element of the right operand. */
  lemma AppendSnoc<T>(a: seq<T>, b: seq<T>)
    requires b != []
    ensures a + b == (a + b[..|b| - 1]) + [b[|b| - 1]]
  {
    assert b == b[..|b| - 1] + [b[|b| - 1]];
  }

  lemma AppendAssoc<T>(x: seq<T>, y: seq<T>, z: seq<T>)
    ensures (x + y) + z == x + (y + z)
  {
  }

  lemma SliceThree<T>(s: seq<T>, i: int, j: int)
    requires 0 <= i <= j <= |s|
    ensures s == (s[..i] + s[i..j]) + s[j..]
  {
  }

  lemma AppendAssoc3<T>(x: T, a: seq<T>, b: seq<T>, c: seq<T>)
    ensures ([x] + a) + b + c == [x] + (a + b + c)
  {
  }

  lemma ConsHead<T>(parts: seq<seq<T>>)
    requires parts != [] && parts[0] != []
    ensures var tail := [parts[0][1..]] + parts[1..];
      parts == [[parts[0][0]] + tail[0]] + tail[1..]
  {
    var tail := [parts[0][1..]] + parts[1..];
    assert tail[0] == parts[0][1..] && tail[1..] == parts[1..];
    assert parts[0] == [parts[0][0]] + parts[0][1..];
  }
}
