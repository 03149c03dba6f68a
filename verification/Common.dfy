/** Machine integers and the small helpers every other module uses. */
module Common {

  datatype Option<+T> = None | Some(value: T)

  type byte = x: int | 0 <= x < 0x100
  type u16 = x: int | 0 <= x < 0x1_0000
  type u32 = x: int | 0 <= x < 0x1_0000_0000
  type u64 = x: int | 0 <= x < 0x1_0000_0000_0000_0000

  function Min(a: int, b: int): int {
    if a <= b then a else b
  }

  function Max(a: int, b: int): int {
    if a <= b then b else a
  }

  /** 256 * n, v % 256 and v / 256, counted out so that proofs about bytes in sequences meet no
      multiplication; `Base256` has the arithmetic. */
  function Times256(n: nat): nat {
    if n == 0 then 0 else 256 + Times256(n - 1)
  }

  function Low(v: nat): byte {
    if v < 256 then v else Low(v - 256)
  }

  function High(v: nat): nat {
    if v < 256 then 0 else 1 + High(v - 256)
  }

  lemma {:induction false} Times256Value(n: nat)
    ensures Times256(n) == 256 * n
    decreases n
  {
    if n > 0 {
      Times256Value(n - 1);
    }
  }

  lemma {:induction false} Base256(v: nat)
    ensures Low(v) == v % 256 && High(v) == v / 256 && Low(v) + Times256(High(v)) == v
    decreases v
  {
    Times256Value(High(v));
    if v >= 256 {
      Base256(v - 256);
      Times256Value(High(v - 256));
    }
  }

  lemma Regroup<T>(a: seq<T>, b: seq<T>, c: seq<T>)
    ensures (a + b) + c == a + (b + c)
  {
  }

  lemma ConsIff<T>(x: T, rest: seq<T>, y: T, others: seq<T>)
    ensures [x] + rest == [y] + others <==> x == y && rest == others
  {
    if [x] + rest == [y] + others {
      assert ([x] + rest)[0] == ([y] + others)[0];
      assert ([x] + rest)[1..] == rest && ([y] + others)[1..] == others;
    }
  }

  /** The total weight of a sequence, and what changing one item does to it. */
  function Sum<T>(items: seq<T>, weight: T -> nat): nat {
    if items == [] then 0 else Sum(items[..|items| - 1], weight) + weight(items[|items| - 1])
  }

  lemma {:induction false} SumUpdate<T>(items: seq<T>, weight: T -> nat, i: nat, item: T)
    requires i < |items|
    ensures Sum(items[i := item], weight) + weight(items[i]) == Sum(items, weight) + weight(item)
    decreases |items|
  {
    var n := |items| - 1;
    if i == n {
      assert items[i := item][..n] == items[..n];
    } else {
      assert items[i := item][..n] == items[..n][i := item];
      SumUpdate(items[..n], weight, i, item);
    }
  }

  lemma {:induction false} SumBound<T(!new)>(items: seq<T>, weight: T -> nat, bound: nat)
    requires forall item :: weight(item) <= bound
    ensures Sum(items, weight) <= bound * |items|
    decreases |items|
  {
    if items != [] {
      SumBound(items[..|items| - 1], weight, bound);
    }
  }

  lemma {:induction false} SumZero<T>(items: seq<T>, weight: T -> nat)
    requires forall i :: 0 <= i < |items| ==> weight(items[i]) == 0
    ensures Sum(items, weight) == 0
    decreases |items|
  {
    if items != [] {
      SumZero(items[..|items| - 1], weight);
    }
  }

  lemma {:induction false} SumAt<T>(items: seq<T>, weight: T -> nat, i: nat)
    requires i < |items|
    ensures weight(items[i]) <= Sum(items, weight)
    decreases |items|
  {
    if i < |items| - 1 {
      SumAt(items[..|items| - 1], weight, i);
    }
  }
}
