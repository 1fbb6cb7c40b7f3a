/** The tab bucketing both the orders page and the offers page compute: a `reduce`
    over status records that pushes each record onto the array of its tab, creating
    that array when the accumulator lacks it. */
module Buckets {
  import Seqs

  /** The records of `items` whose tab is `k`, in input order. */
  function Bucket<T(==,!new)>(items: seq<T>, tab: T -> string, k: string): seq<T> {
    Seqs.Filter(items, x => tab(x) == k)
  }

  /** The tabs some record of `items` goes to. */
  function TabsOf<T(==)>(items: seq<T>, tab: T -> string): set<string> {
    set x | x in items :: tab(x)
  }

  /** What the reduce ends with: the initial tabs and every tab a record needs, each
      holding the records of that tab in input order. */
  predicate IsPartition<T(==,!new)>(acc: map<string, seq<T>>, items: seq<T>, tab: T -> string, initial: set<string>) {
    && acc.Keys == initial + TabsOf(items, tab)
    && forall k :: k in acc ==> acc[k] == Bucket(items, tab, k)
  }

  /** Appending a record to the input appends it to the bucket of its own tab only. */
  lemma BucketSnoc<T(!new)>(items: seq<T>, x: T, tab: T -> string, k: string)
    ensures Bucket(items + [x], tab, k) == Bucket(items, tab, k) + (if tab(x) == k then [x] else [])
  {
    assert (items + [x])[..|items|] == items;
  }

  /** A tab no record goes to has an empty bucket. */
  lemma BucketOfUnusedTab<T(!new)>(items: seq<T>, tab: T -> string, k: string)
    requires k !in TabsOf(items, tab)
    ensures Bucket(items, tab, k) == []
  {
    Seqs.FilterNone(items, x => tab(x) == k);
  }

  lemma TabsOfSnoc<T(!new)>(items: seq<T>, x: T, tab: T -> string)
    ensures TabsOf(items + [x], tab) == TabsOf(items, tab) + {tab(x)}
  {
  }

  /** One step of the reduce: `acc[t] = acc[t] || []; acc[t].push(x)`. */
  lemma PartitionSnoc<T(!new)>(acc: map<string, seq<T>>, items: seq<T>, x: T, tab: T -> string, initial: set<string>)
    requires IsPartition(acc, items, tab, initial)
    ensures IsPartition(acc[tab(x) := (if tab(x) in acc then acc[tab(x)] else []) + [x]], items + [x], tab, initial)
  {
    var k := tab(x);
    var acc' := acc[k := (if k in acc then acc[k] else []) + [x]];
    TabsOfSnoc(items, x, tab);
    forall j | j in acc' ensures acc'[j] == Bucket(items + [x], tab, j) {
      BucketSnoc(items, x, tab, j);
      if j == k && k !in acc {
        BucketOfUnusedTab(items, tab, k);
      }
    }
  }

  /** Before the first record, the accumulator holds the initial tabs, all empty. */
  lemma PartitionOfNothing<T(!new)>(tab: T -> string, initial: set<string>)
    ensures IsPartition(map k | k in initial :: [], [], tab, initial)
  {
    forall k | k in initial ensures Bucket([], tab, k) == [] {
      BucketOfUnusedTab([], tab, k);
    }
  }

  /** The loop step of the reduce, on the prefix of the input walked so far. */
  lemma CollectStep<T(!new)>(acc: map<string, seq<T>>, items: seq<T>, i: nat, tab: T -> string, initial: set<string>)
    requires i < |items|
    requires IsPartition(acc, items[..i], tab, initial)
    ensures IsPartition(acc[tab(items[i]) := (if tab(items[i]) in acc then acc[tab(items[i])] else []) + [items[i]]],
                        items[..i + 1], tab, initial)
  {
    assert items[..i + 1] == items[..i] + [items[i]];
    PartitionSnoc(acc, items[..i], items[i], tab, initial);
  }

  /** The reduce itself, pushing record after record onto its tab's array. */
  method Collect<T(==,!new)>(items: seq<T>, tab: T -> string, initial: set<string>) returns (acc: map<string, seq<T>>)
    ensures IsPartition(acc, items, tab, initial)
  {
    acc := map k | k in initial :: [];
    PartitionOfNothing(tab, initial);
    assert items[..0] == [];
    for i := 0 to |items|
      invariant IsPartition(acc, items[..i], tab, initial)
    {
      var x := items[i];
      var k := tab(x);
      var bucket := if k in acc then acc[k] else [];
      CollectStep(acc, items, i, tab, initial);
      acc := acc[k := bucket + [x]];
    }
    assert items[..|items|] == items;
  }

  /** Every record lands in exactly one bucket: the one of its tab. */
  lemma ExactlyOneBucket<T(!new)>(acc: map<string, seq<T>>, items: seq<T>, tab: T -> string, initial: set<string>, x: T)
    requires IsPartition(acc, items, tab, initial)
    requires x in items
    ensures tab(x) in acc && x in acc[tab(x)]
    ensures forall k :: k in acc && k != tab(x) ==> x !in acc[k]
  {
  }

  /** A bucket of a concatenated input is the concatenation of the buckets: each
      bucket keeps the input order. */
  lemma {:induction false} BucketConcat<T(!new)>(a: seq<T>, b: seq<T>, tab: T -> string, k: string)
    ensures Bucket(a + b, tab, k) == Bucket(a, tab, k) + Bucket(b, tab, k)
  {
    if b == [] {
      assert a + b == a;
    } else {
      var init, last := b[..|b| - 1], b[|b| - 1];
      assert b == init + [last];
      assert a + b == (a + init) + [last];
      BucketConcat(a, init, tab, k);
      BucketSnoc(a + init, last, tab, k);
      BucketSnoc(init, last, tab, k);
    }
  }

  predicate Distinct(keys: seq<string>) {
    forall i, j :: 0 <= i < j < |keys| ==> keys[i] != keys[j]
  }

  lemma DistinctTail(keys: seq<string>)
    requires keys != [] && Distinct(keys)
    ensures Distinct(keys[1..]) && keys[0] !in keys[1..]
  {
    forall i, j | 0 <= i < j < |keys| - 1 ensures keys[1..][i] != keys[1..][j] {
      assert keys[1..][i] == keys[i + 1] && keys[1..][j] == keys[j + 1];
    }
  }

  /** The sum of the sizes of the buckets named by `keys`. */
  function SizeSum<T(==,!new)>(items: seq<T>, tab: T -> string, keys: seq<string>): nat {
    if keys == [] then 0 else |Bucket(items, tab, keys[0])| + SizeSum(items, tab, keys[1..])
  }

  lemma {:induction false} SizeSumSnoc<T(!new)>(items: seq<T>, x: T, tab: T -> string, keys: seq<string>)
    requires Distinct(keys)
    ensures SizeSum(items + [x], tab, keys) == SizeSum(items, tab, keys) + (if tab(x) in keys then 1 else 0)
  {
    if keys != [] {
      BucketSnoc(items, x, tab, keys[0]);
      DistinctTail(keys);
      SizeSumSnoc(items, x, tab, keys[1..]);
      assert keys == [keys[0]] + keys[1..];
    }
  }

  lemma {:induction false} ZeroSizes<T(!new)>(tab: T -> string, keys: seq<string>)
    ensures SizeSum([], tab, keys) == 0
  {
    if keys != [] {
      ZeroSizes(tab, keys[1..]);
    }
  }

  /** The bucket sizes over any listing of distinct tabs that covers every record's
      tab add up to the number of records: nothing is lost and nothing duplicated. */
  lemma {:induction false} SizesSumToLength<T(!new)>(items: seq<T>, tab: T -> string, keys: seq<string>)
    requires Distinct(keys)
    requires forall x :: x in items ==> tab(x) in keys
    ensures SizeSum(items, tab, keys) == |items|
  {
    if items == [] {
      ZeroSizes(tab, keys);
    } else {
      var init, last := items[..|items| - 1], items[|items| - 1];
      assert items == init + [last];
      SizesSumToLength(init, tab, keys);
      SizeSumSnoc(init, last, tab, keys);
    }
  }

  /** The sum of the sizes of the arrays `acc` holds under `keys`; a key it lacks adds 0. */
  function Total<T>(acc: map<string, seq<T>>, keys: seq<string>): nat {
    if keys == [] then 0 else (if keys[0] in acc then |acc[keys[0]]| else 0) + Total(acc, keys[1..])
  }

  lemma {:induction false} TotalIsSizeSum<T(!new)>(acc: map<string, seq<T>>, items: seq<T>, tab: T -> string, initial: set<string>, keys: seq<string>)
    requires IsPartition(acc, items, tab, initial)
    ensures Total(acc, keys) == SizeSum(items, tab, keys)
  {
    if keys != [] {
      if keys[0] !in acc {
        BucketOfUnusedTab(items, tab, keys[0]);
      }
      TotalIsSizeSum(acc, items, tab, initial, keys[1..]);
    }
  }

  /** Every record lands in exactly one array: listing each key of the accumulator once,
      the array sizes add up to the number of records. */
  lemma PartitionSizes<T(!new)>(acc: map<string, seq<T>>, items: seq<T>, tab: T -> string, initial: set<string>, keys: seq<string>)
    requires IsPartition(acc, items, tab, initial)
    requires Distinct(keys) && forall k :: k in acc ==> k in keys
    ensures Total(acc, keys) == |items|
  {
    TotalIsSizeSum(acc, items, tab, initial, keys);
    SizesSumToLength(items, tab, keys);
  }
}
