/** Vocabulary shared by every part of the node: bytes, content hashes, ids, small
    arithmetic, and the few facts about sequences the other modules lean on. */
module Prelude {

  datatype Option<+T> = None | Some(value: T)

  type byte = b: int | 0 <= b < 256
  type Bytes = seq<byte>

  /** A BLAKE3 digest: exactly 32 bytes. */
  const HASH_LEN := 32
  type Hash = h: Bytes | |h| == HASH_LEN witness seq(HASH_LEN, _ => 0)

  /** BLAKE3 itself is never inspected; it is a parameter of everything that hashes. */
  type Hasher = Bytes -> Hash

  type PeerId = nat

  /** Milliseconds. */
  type Instant = nat

  ghost predicate CollisionFree(hasher: Hasher, inputs: set<Bytes>) {
    forall x, y | x in inputs && y in inputs && hasher(x) == hasher(y) :: x == y
  }

  function Min(a: int, b: int): int {
    if a <= b then a else b
  }

  /** The least number of `unit`-sized pieces that cover `total`. */
  function DivCeil(total: nat, unit: nat): (n: nat)
    requires unit > 0
    ensures total <= n * unit < total + unit
  {
    DivCeilBounds(total, unit);
    (total + unit - 1) / unit
  }

  lemma DivCeilBounds(total: nat, unit: nat)
    requires unit > 0
    ensures total <= (total + unit - 1) / unit * unit < total + unit
  {
    var q := (total + unit - 1) / unit;
    assert total + unit - 1 == q * unit + (total + unit - 1) % unit;
  }

  /** There is only one such number. */
  lemma DivCeilUnique(total: nat, unit: nat, n: nat)
    requires unit > 0 && total <= n * unit < total + unit
    ensures n == DivCeil(total, unit)
  {
    var m := DivCeil(total, unit);
    assert (m - n) * unit == m * unit - n * unit;
    var gap: int := unit;
    assert -gap < (m - n) * unit < gap;
    assert !(m - n >= 1) && !(m - n <= -1);
  }

  ghost predicate Distinct<T(!new)>(s: seq<T>) {
    forall i, j | 0 <= i < j < |s| :: s[i] != s[j]
  }

  /** `s` enumerates `elements`, each once, in some order. */
  ghost predicate Enumerates<T(!new)>(s: seq<T>, elements: set<T>) {
    Distinct(s) && (forall x :: x in s <==> x in elements)
  }

  lemma {:induction false} EnumerationLength<T(!new)>(s: seq<T>, elements: set<T>)
    requires Enumerates(s, elements)
    ensures |s| == |elements|
  {
    if s == [] {
      assert elements == {};
    } else {
      var n := |s| - 1;
      assert forall x :: x in s <==> x in s[..n] || x == s[n];
      EnumerationLength(s[..n], elements - {s[n]});
    }
  }

  function SumOf<T>(s: seq<T>, f: T -> nat): nat {
    if s == [] then 0 else f(s[0]) + SumOf(s[1..], f)
  }

  lemma {:induction false} SumOfConcat<T>(a: seq<T>, b: seq<T>, f: T -> nat)
    ensures SumOf(a + b, f) == SumOf(a, f) + SumOf(b, f)
  {
    if a == [] {
      assert a + b == b;
    } else {
      assert (a + b)[1..] == a[1..] + b;
      SumOfConcat(a[1..], b, f);
    }
  }

  lemma {:induction false} SumOfUpdate<T>(s: seq<T>, i: nat, x: T, f: T -> nat)
    requires i < |s|
    ensures SumOf(s[i := x], f) + f(s[i]) == SumOf(s, f) + f(x)
  {
    if i == 0 {
      assert s[0 := x][1..] == s[1..];
    } else {
      assert s[i := x][1..] == s[1..][i - 1 := x];
      SumOfUpdate(s[1..], i - 1, x, f);
    }
  }

  /** All pieces, end to end. */
  function Concat(pieces: seq<Bytes>): Bytes {
    if pieces == [] then [] else pieces[0] + Concat(pieces[1..])
  }

  lemma {:induction false} ConcatAppend(a: seq<Bytes>, b: seq<Bytes>)
    ensures Concat(a + b) == Concat(a) + Concat(b)
  {
    if a == [] {
      assert a + b == b;
    } else {
      assert (a + b)[1..] == a[1..] + b;
      ConcatAppend(a[1..], b);
    }
  }

  lemma ConcatSnoc(pieces: seq<Bytes>, last: Bytes)
    ensures Concat(pieces + [last]) == Concat(pieces) + last
  {
    ConcatAppend(pieces, [last]);
    assert Concat([last]) == last + Concat([last][1..]) == last;
  }
}
