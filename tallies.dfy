/** A plain object used as a counter, as in `obj[k] = (obj[k] || 0) + v`:
    its keys in the order they were first set, and their values. */
module Tallies {

  datatype Tally = Tally(order: seq<string>, counts: map<string, int>)

  /** Every key appears once in `order`, and `order` lists exactly the keys. */
  predicate Valid(t: Tally) {
    (forall i, j :: 0 <= i < j < |t.order| ==> t.order[i] != t.order[j])
    && (forall k :: k in t.counts ==> k in t.order)
    && (forall k :: k in t.order ==> k in t.counts)
  }

  const Empty: Tally := Tally([], map[])

  /** `obj[k] || 0`. */
  function Get(t: Tally, k: string): int {
    if k in t.counts then t.counts[k] else 0
  }

  /** `obj[key] = (obj[key] || 0) + amount`. */
  function Add(t: Tally, key: string, amount: int): Tally {
    if key in t.counts then Tally(t.order, t.counts[key := t.counts[key] + amount])
    else Tally(t.order + [key], t.counts[key := amount])
  }

  /** The sum of the values of the keys in `order`. */
  function SumOver(order: seq<string>, counts: map<string, int>): int {
    if order == [] then 0
    else
      var k := order[|order| - 1];
      SumOver(order[..|order| - 1], counts) + (if k in counts then counts[k] else 0)
  }

  /** The sum of all values of the object. */
  function Total(t: Tally): int {
    SumOver(t.order, t.counts)
  }

  lemma AddKeepsValid(t: Tally, key: string, amount: int)
    requires Valid(t)
    ensures Valid(Add(t, key, amount))
    ensures key in Add(t, key, amount).order
  {
  }

  /** Adding changes the value of `key` by `amount` and no other value. */
  lemma AddValue(t: Tally, key: string, amount: int, k: string)
    ensures Get(Add(t, key, amount), k) == Get(t, k) + (if k == key then amount else 0)
  {
  }

  /** Adding keeps every key already present, and adds `key`. */
  lemma AddOrder(t: Tally, key: string, amount: int, k: string)
    requires Valid(t)
    ensures k in Add(t, key, amount).order <==> k in t.order || k == key
  {
  }

  lemma {:induction false} SumOverUpdateAbsent(order: seq<string>, counts: map<string, int>, k: string, v: int)
    requires k !in order
    ensures SumOver(order, counts[k := v]) == SumOver(order, counts)
  {
    if order != [] {
      SumOverUpdateAbsent(order[..|order| - 1], counts, k, v);
    }
  }

  lemma {:induction false} SumOverUpdatePresent(order: seq<string>, counts: map<string, int>, k: string, d: int)
    requires forall i, j :: 0 <= i < j < |order| ==> order[i] != order[j]
    requires k in order && k in counts
    ensures SumOver(order, counts[k := counts[k] + d]) == SumOver(order, counts) + d
  {
    var p := order[..|order| - 1];
    if order[|order| - 1] == k {
      assert k !in p;
      SumOverUpdateAbsent(p, counts, k, counts[k] + d);
    } else {
      assert k in p;
      SumOverUpdatePresent(p, counts, k, d);
    }
  }

  /** Adding `amount` under any key adds `amount` to the total. */
  lemma AddTotal(t: Tally, key: string, amount: int)
    requires Valid(t)
    ensures Total(Add(t, key, amount)) == Total(t) + amount
  {
    if key in t.counts {
      SumOverUpdatePresent(t.order, t.counts, key, amount);
    } else {
      assert (t.order + [key])[..|t.order|] == t.order;
      SumOverUpdateAbsent(t.order, t.counts, key, amount);
    }
  }
}
