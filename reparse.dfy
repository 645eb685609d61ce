/** reparseSegment: repairing an element whose repetitions the tokenizer
    flattened. The element `i` and its sub-fields `i-1`, `i-2`, ... are
    joined back into the element's text with the composite separator, split
    on the repetition separator, and stored again as `i(k)_m` (repetition k,
    counted from 0; component m, counted from 1). */
module Reparse {
  import opened Wrappers
  import opened Text

  /** The keys of a tokenized segment: `i`, `i-j`, `i(k)_m`, `name`, and any
      other text. */
  datatype Key = Top(i: nat) | Sub(i: nat, j: nat) | Rep(i: nat, k: nat, m: nat) | Name | Other(text: string)

  /** A segment's values by key. */
  type Data = map<Key, string>

  /** The element index a key belongs to, if any. */
  function Index(key: Key): (r: Option<nat>)
    ensures r.Some? <==> key.Top? || key.Sub? || key.Rep?
  {
    match key
    case Top(i) => Some(i)
    case Sub(i, _) => Some(i)
    case Rep(i, _, _) => Some(i)
    case _ => None
  }

  // ------------------------------------------------------------ one element

  /** The inner loop's `maxJ` from `j` on: the sub-fields `i-j`, `i-(j+1)`,
      ... that are present, counting no further than `limit`. */
  function ExtentFrom(keys: set<Key>, i: nat, j: nat, limit: int): nat
    requires j >= 1
    decreases if limit < j then 0 else limit - j + 1
  {
    if j > limit || Sub(i, j) !in keys then j - 1 else ExtentFrom(keys, i, j + 1, limit)
  }

  /** The collected sub-fields are contiguous from `i-1`, within the limit,
      and the collection stops at the first missing one. */
  lemma {:induction false} ExtentFromBounds(keys: set<Key>, i: nat, j: nat, limit: int)
    requires j >= 1
    requires forall j' :: 1 <= j' < j ==> Sub(i, j') in keys
    ensures var m := ExtentFrom(keys, i, j, limit);
      && j - 1 <= m && (m <= limit || m == j - 1)
      && (forall j' :: 1 <= j' <= m ==> Sub(i, j') in keys)
      && (m < limit ==> Sub(i, m + 1) !in keys)
    decreases if limit < j then 0 else limit - j + 1
  {
    if j <= limit && Sub(i, j) in keys {
      ExtentFromBounds(keys, i, j + 1, limit);
    }
  }

  /** How many sub-fields `i-1`, `i-2`, ... the inner loop collects. */
  function Extent(keys: set<Key>, i: nat, limit: int): nat {
    ExtentFrom(keys, i, 1, limit)
  }

  /** They are all present, there are no more than `limit` of them, and
      fewer only when the next one is missing. */
  lemma ExtentBounds(keys: set<Key>, i: nat, limit: int)
    ensures var m := Extent(keys, i, limit);
      && (forall j :: 1 <= j <= m ==> Sub(i, j) in keys)
      && (m <= limit || m == 0)
      && (m < limit ==> Sub(i, m + 1) !in keys)
  {
    ExtentFromBounds(keys, i, 1, limit);
  }

  /** The values of `i`, `i-1`, ..., `i-m`: the `parts` of the source. */
  function Parts(data: Data, i: nat, m: nat): (parts: seq<string>)
    requires Top(i) in data
    requires forall j :: 1 <= j <= m ==> Sub(i, j) in data
    ensures |parts| == m + 1
  {
    if m == 0 then [data[Top(i)]] else Parts(data, i, m - 1) + [data[Sub(i, m)]]
  }

  /** Part 0 is the value of `i`, part `j` that of `i-j`. */
  lemma {:induction false} PartsAt(data: Data, i: nat, m: nat, j: nat)
    requires Top(i) in data
    requires forall j :: 1 <= j <= m ==> Sub(i, j) in data
    requires j <= m
    ensures Parts(data, i, m)[j] == if j == 0 then data[Top(i)] else data[Sub(i, j)]
  {
    if j < m {
      PartsAt(data, i, m - 1, j);
    }
  }

  /** No part holds the repetition separator: the element was tokenized
      correctly. */
  predicate Clean(parts: seq<string>, rep: char) {
    forall p :: p in parts ==> rep !in p
  }

  /** The keys `i-1` .. `i-m`. */
  function SubKeys(i: nat, m: nat): set<Key> {
    if m == 0 then {} else SubKeys(i, m - 1) + {Sub(i, m)}
  }

  lemma {:induction false} SubKeysHas(i: nat, m: nat, key: Key)
    ensures key in SubKeys(i, m) <==> key.Sub? && key.i == i && 1 <= key.j <= m
  {
    if m > 0 {
      SubKeysHas(i, m - 1, key);
    }
  }

  /** How far the storing loops have got: `K` repetitions of `items`
      complete and `M` components of repetition `K`. */
  predicate RepsBound(items: seq<string>, comp: char, K: nat, M: nat) {
    K <= |items| && M <= (if K < |items| then |Split(items[K], comp)| else 0)
  }

  /** The keys `i(k)_m` for the repetitions of `items`, each split on the
      composite separator, in the order the loops store them. */
  function Reps(i: nat, items: seq<string>, comp: char, K: nat, M: nat): Data
    requires RepsBound(items, comp, K, M)
    decreases K, M
  {
    if M > 0 then Reps(i, items, comp, K, M - 1)[Rep(i, K, M) := Split(items[K], comp)[M - 1]]
    else if K > 0 then Reps(i, items, comp, K - 1, |Split(items[K - 1], comp)|)
    else map[]
  }

  /** The stored keys are `i(k)_m` for the components stored so far, and
      each holds component `m` of repetition `k`. */
  lemma {:induction false} RepsHas(i: nat, items: seq<string>, comp: char, K: nat, M: nat, key: Key)
    requires RepsBound(items, comp, K, M)
    ensures key in Reps(i, items, comp, K, M) <==>
      && key.Rep? && key.i == i && key.k < |items| && 1 <= key.m <= |Split(items[key.k], comp)|
      && (key.k < K || (key.k == K && key.m <= M))
    ensures key in Reps(i, items, comp, K, M) ==> Reps(i, items, comp, K, M)[key] == Split(items[key.k], comp)[key.m - 1]
    decreases K, M
  {
    if M > 0 {
      RepsHas(i, items, comp, K, M - 1, key);
    } else if K > 0 {
      RepsHas(i, items, comp, K - 1, |Split(items[K - 1], comp)|, key);
    }
  }

  /** Storing a key after a union is storing it in the right operand. */
  lemma UnionUpdate(a: Data, b: Data, key: Key, v: string)
    ensures (a + b)[key := v] == a + b[key := v]
  {
  }

  /** Every key `i(k)_m` for the element text `full`. */
  function Entries(i: nat, full: string, comp: char, rep: char): Data {
    var items := Split(full, rep);
    Reps(i, items, comp, |items|, 0)
  }

  /** The element `i` needs repairing: it has sub-fields, and one of its
      parts holds the repetition separator. */
  predicate Dirty(data: Data, i: nat, rep: char)
    requires Top(i) in data
  {
    var m := Extent(data.Keys, i, |data| - i - 1);
    ExtentBounds(data.Keys, i, |data| - i - 1);
    m > 0 && !Clean(Parts(data, i, m), rep)
  }

  /** One pass of the outer loop for index `i`, which is present: the
      element is left alone unless it needs repairing, and is otherwise
      replaced by its repetitions. The values read are those of the
      original segment: no earlier pass touches the keys of index `i`. */
  function RepairAt(data: Data, cur: Data, i: nat, comp: char, rep: char): Data
    requires Top(i) in data
  {
    if !Dirty(data, i, rep) then cur
    else
      var m := Extent(data.Keys, i, |data| - i - 1);
      ExtentBounds(data.Keys, i, |data| - i - 1);
      (cur - ({Top(i)} + SubKeys(i, m))) + Entries(i, Join(Parts(data, i, m), comp), comp, rep)
  }

  /** The outer loop from index `i`: it stops at the first index with no
      key `i`, and after `|data|` indices. */
  function RepairFrom(data: Data, cur: Data, i: nat, comp: char, rep: char): Data
    requires i >= 1
    decreases |data| + 1 - i
  {
    if i > |data| || Top(i) !in data then cur
    else RepairFrom(data, RepairAt(data, cur, i, comp, rep), i + 1, comp, rep)
  }

  /** reparseSegment's result. */
  function Reparsed(data: Data, comp: char, rep: char): Data {
    RepairFrom(data, data, 1, comp, rep)
  }

  // ------------------------------------------------------------ what is kept

  /** A pass touches only the keys of its own index. */
  lemma RepairAtKeeps(data: Data, cur: Data, i: nat, comp: char, rep: char, key: Key)
    requires Top(i) in data && Index(key) != Some(i)
    ensures var r := RepairAt(data, cur, i, comp, rep);
      (key in r <==> key in cur) && (key in cur ==> r[key] == cur[key])
  {
    var m := Extent(data.Keys, i, |data| - i - 1);
    ExtentBounds(data.Keys, i, |data| - i - 1);
    SubKeysHas(i, m, key);
    if m > 0 {
      var items := Split(Join(Parts(data, i, m), comp), rep);
      RepsHas(i, items, comp, |items|, 0, key);
    }
  }

  /** The passes from `i` on leave alone the keys of earlier indices, the
      keys of no index (`name` and the rest), and the keys of the index
      `stop` at which the scan has stopped and beyond. */
  lemma {:induction false} RepairFromKeeps(data: Data, cur: Data, i: nat, stop: nat, comp: char, rep: char, key: Key)
    requires 1 <= i <= stop && (stop > |data| || Top(stop) !in data)
    requires Index(key).None? || Index(key).value < i || Index(key).value >= stop
    ensures var r := RepairFrom(data, cur, i, comp, rep);
      (key in r <==> key in cur) && (key in cur ==> r[key] == cur[key])
    decreases |data| + 1 - i
  {
    if i <= |data| && Top(i) in data {
      assert i != stop;
      RepairAtKeeps(data, cur, i, comp, rep, key);
      RepairFromKeeps(data, RepairAt(data, cur, i, comp, rep), i + 1, stop, comp, rep, key);
    }
  }

  /** The scan over 1, 2, ... stops at the first index `stop` without a key
      `stop`: that key, every later index and every key of no index come
      back unchanged. */
  lemma ReparseKeeps(data: Data, comp: char, rep: char, stop: nat, key: Key)
    requires 1 <= stop && (stop > |data| || Top(stop) !in data)
    requires Index(key).None? || Index(key).value >= stop
    ensures var r := Reparsed(data, comp, rep);
      (key in r <==> key in data) && (key in data ==> r[key] == data[key])
  {
    RepairFromKeeps(data, data, 1, stop, comp, rep, key);
  }

  /** An element none of whose values holds the repetition separator is
      left as it is, and so is one with no `i-1`, whatever its value. */
  lemma RepairAtClean(data: Data, cur: Data, i: nat, comp: char, rep: char)
    requires Top(i) in data
    requires Sub(i, 1) !in data ||
             (rep !in data[Top(i)] && forall j :: j >= 1 && Sub(i, j) in data ==> rep !in data[Sub(i, j)])
    ensures RepairAt(data, cur, i, comp, rep) == cur
  {
    var m := Extent(data.Keys, i, |data| - i - 1);
    ExtentBounds(data.Keys, i, |data| - i - 1);
    if m > 0 {
      var parts := Parts(data, i, m);
      forall k | 0 <= k < |parts| ensures rep !in parts[k] {
        PartsAt(data, i, m, k);
      }
    }
  }

  // ------------------------------------------------------------ round trip

  /** How many components each repetition has. */
  function Shape(items: seq<string>, comp: char): (shape: seq<nat>)
    ensures |shape| == |items|
  {
    seq(|items|, k requires 0 <= k < |items| => |Split(items[k], comp)|)
  }

  /** `e` holds the keys `i(k)_m` of repetitions with the given shape. */
  ghost predicate HasShape(e: Data, i: nat, shape: seq<nat>) {
    forall k, m :: 0 <= k < |shape| && 1 <= m <= shape[k] ==> Rep(i, k, m) in e
  }

  /** The values of `i(k)_1` .. `i(k)_n`. */
  function Comps(e: Data, i: nat, k: nat, n: nat): (r: seq<string>)
    requires forall m :: 1 <= m <= n ==> Rep(i, k, m) in e
    ensures |r| == n
  {
    if n == 0 then [] else Comps(e, i, k, n - 1) + [e[Rep(i, k, n)]]
  }

  /** Each repetition read back: its components joined with the composite
      separator. */
  function Items(e: Data, i: nat, shape: seq<nat>, comp: char): (r: seq<string>)
    requires HasShape(e, i, shape)
    ensures |r| == |shape|
    decreases |shape|
  {
    if shape == [] then []
    else
      var K := |shape| - 1;
      assert forall k :: 0 <= k < K ==> shape[..K][k] == shape[k];
      Items(e, i, shape[..K], comp) + [Join(Comps(e, i, K, shape[K]), comp)]
  }

  /** Reading the repetition keys back: the repetitions joined with the
      repetition separator. */
  function Rejoin(e: Data, i: nat, shape: seq<nat>, comp: char, rep: char): string
    requires HasShape(e, i, shape)
  {
    Join(Items(e, i, shape, comp), rep)
  }

  lemma {:induction false} CompsOf(e: Data, i: nat, k: nat, c: seq<string>, n: nat)
    requires n <= |c|
    requires forall m :: 1 <= m <= n ==> Rep(i, k, m) in e && e[Rep(i, k, m)] == c[m - 1]
    ensures Comps(e, i, k, n) == c[..n]
  {
    if n > 0 {
      CompsOf(e, i, k, c, n - 1);
      assert c[..n] == c[..n - 1] + [c[n - 1]];
    }
  }

  /** `e` holds, at each key `i(k)_m`, component `m` of repetition `k` of
      `items`. */
  ghost predicate Stores(e: Data, i: nat, items: seq<string>, comp: char) {
    forall k, m :: 0 <= k < |items| && 1 <= m <= |Split(items[k], comp)| ==>
      Rep(i, k, m) in e && e[Rep(i, k, m)] == Split(items[k], comp)[m - 1]
  }

  lemma ShapeOf(e: Data, i: nat, items: seq<string>, comp: char, K: nat)
    requires K <= |items| && Stores(e, i, items, comp)
    ensures HasShape(e, i, Shape(items, comp)[..K])
  {
  }

  /** The components of repetition `k` read back. */
  lemma CompsAt(e: Data, i: nat, items: seq<string>, comp: char, k: nat)
    requires k < |items| && Stores(e, i, items, comp)
    ensures Comps(e, i, k, |Split(items[k], comp)|) == Split(items[k], comp)
  {
    var c := Split(items[k], comp);
    CompsOf(e, i, k, c, |c|);
    assert c[..|c|] == c;
  }

  lemma LastSplit<T>(s: seq<T>, K: nat)
    requires 0 < K <= |s|
    ensures s[..K] == s[..K - 1] + [s[K - 1]] && s[..K][..K - 1] == s[..K - 1]
  {
  }

  /** One more repetition read back. */
  lemma ItemsStep(e: Data, i: nat, shape: seq<nat>, comp: char, K: nat)
    requires 0 < K <= |shape| && HasShape(e, i, shape[..K])
    ensures HasShape(e, i, shape[..K - 1])
    ensures Items(e, i, shape[..K], comp) == Items(e, i, shape[..K - 1], comp) + [Join(Comps(e, i, K - 1, shape[K - 1]), comp)]
  {
    LastSplit(shape, K);
  }

  /** Keys holding the components of each repetition read back as the
      repetitions. */
  lemma {:induction false} ItemsOf(e: Data, i: nat, items: seq<string>, comp: char, K: nat)
    requires K <= |items| && Stores(e, i, items, comp)
    ensures HasShape(e, i, Shape(items, comp)[..K])
    ensures Items(e, i, Shape(items, comp)[..K], comp) == items[..K]
  {
    var shape := Shape(items, comp);
    ShapeOf(e, i, items, comp, K);
    if K > 0 {
      ItemsOf(e, i, items, comp, K - 1);
      ItemsStep(e, i, shape, comp, K);
      CompsAt(e, i, items, comp, K - 1);
      JoinSplit(items[K - 1], comp);
      LastSplit(items, K);
    }
  }

  /** Wherever the keys of `Entries` are stored, they hold the components
      of the repetitions of the element text. */
  lemma EntriesStored(i: nat, full: string, comp: char, rep: char, r: Data)
    requires forall key :: key in Entries(i, full, comp, rep) ==>
      key in r && r[key] == Entries(i, full, comp, rep)[key]
    ensures Stores(r, i, Split(full, rep), comp)
  {
    var items := Split(full, rep);
    var e := Entries(i, full, comp, rep);
    forall k, m | 0 <= k < |items| && 1 <= m <= |Split(items[k], comp)|
      ensures Rep(i, k, m) in r && r[Rep(i, k, m)] == Split(items[k], comp)[m - 1]
    {
      RepsHas(i, items, comp, |items|, 0, Rep(i, k, m));
      assert Rep(i, k, m) in e && e[Rep(i, k, m)] == Split(items[k], comp)[m - 1];
    }
  }

  /** Wherever the keys of `Entries` are stored, reading them back gives
      the element text. */
  lemma RejoinEntries(i: nat, full: string, comp: char, rep: char, r: Data)
    requires forall key :: key in Entries(i, full, comp, rep) ==>
      key in r && r[key] == Entries(i, full, comp, rep)[key]
    ensures var shape := Shape(Split(full, rep), comp);
      HasShape(r, i, shape) && Rejoin(r, i, shape, comp, rep) == full
  {
    var items := Split(full, rep);
    EntriesStored(i, full, comp, rep, r);
    ItemsOf(r, i, items, comp, |items|);
    var shape := Shape(items, comp);
    assert shape[..|items|] == shape && items[..|items|] == items;
    JoinSplit(full, rep);
  }

  /** The repetition keys are exactly `i(k)_m` for the shape of the text,
      and reading them back gives the text. */
  lemma EntriesRoundTrip(i: nat, full: string, comp: char, rep: char)
    ensures var e := Entries(i, full, comp, rep);
      var shape := Shape(Split(full, rep), comp);
      && (forall key :: key in e <==> key.Rep? && key.i == i && key.k < |shape| && 1 <= key.m <= shape[key.k])
      && HasShape(e, i, shape) && Rejoin(e, i, shape, comp, rep) == full
  {
    var items := Split(full, rep);
    forall key {
      RepsHas(i, items, comp, |items|, 0, key);
    }
    RejoinEntries(i, full, comp, rep, Entries(i, full, comp, rep));
  }

  /** A repaired element loses `i` and `i-1` .. `i-m`, and read back from its
      repetition keys it is the element's values joined with the composite
      separator. */
  lemma RepairRoundTrip(data: Data, cur: Data, i: nat, comp: char, rep: char)
    requires Top(i) in data
    ensures var m := Extent(data.Keys, i, |data| - i - 1);
      (forall j :: 1 <= j <= m ==> Sub(i, j) in data) &&
      (m > 0 && !Clean(Parts(data, i, m), rep) ==>
        var full := Join(Parts(data, i, m), comp);
        var r := RepairAt(data, cur, i, comp, rep);
        var shape := Shape(Split(full, rep), comp);
        && Top(i) !in r
        && (forall j :: 1 <= j <= m ==> Sub(i, j) !in r)
        && HasShape(r, i, shape)
        && Rejoin(r, i, shape, comp, rep) == full)
  {
    var m := Extent(data.Keys, i, |data| - i - 1);
    ExtentBounds(data.Keys, i, |data| - i - 1);
    if m > 0 && !Clean(Parts(data, i, m), rep) {
      var full := Join(Parts(data, i, m), comp);
      var items := Split(full, rep);
      var e := Entries(i, full, comp, rep);
      var r := RepairAt(data, cur, i, comp, rep);
      assert r == (cur - ({Top(i)} + SubKeys(i, m))) + e;
      RepsHas(i, items, comp, |items|, 0, Top(i));
      forall j | 1 <= j <= m ensures Sub(i, j) !in r {
        SubKeysHas(i, m, Sub(i, j));
        RepsHas(i, items, comp, |items|, 0, Sub(i, j));
      }
      RejoinEntries(i, full, comp, rep, r);
    }
  }

  // ------------------------------------------------------------ a second call

  /** The keys `1` .. `i`. */
  function TopKeys(i: nat): set<Key> {
    if i == 0 then {} else TopKeys(i - 1) + {Top(i)}
  }

  lemma {:induction false} TopKeysCard(i: nat)
    ensures |TopKeys(i)| == i
    ensures forall key :: key in TopKeys(i) <==> key.Top? && 1 <= key.i <= i
  {
    if i > 0 {
      TopKeysCard(i - 1);
    }
  }

  lemma {:induction false} SubKeysCard(i: nat, m: nat)
    ensures |SubKeys(i, m)| == m
    ensures forall key :: key in SubKeys(i, m) <==> key.Sub? && key.i == i && 1 <= key.j <= m
  {
    if m > 0 {
      SubKeysCard(i, m - 1);
    }
  }

  lemma SubsetCard(a: set<Key>, b: set<Key>)
    requires a <= b
    ensures |a| <= |b|
  {
    assert b == a + (b - a);
    assert a * (b - a) == {};
  }

  /** `name`, `1` .. `i` and `i-1` .. `i-n` are distinct keys. */
  lemma KeysCount(keys: set<Key>, i: nat, n: nat)
    requires Name in keys && forall i' :: 1 <= i' <= i ==> Top(i') in keys
    requires forall j :: 1 <= j <= n ==> Sub(i, j) in keys
    ensures |keys| >= i + n + 1
  {
    var tops, subs := TopKeys(i), SubKeys(i, n);
    TopKeysCard(i);
    SubKeysCard(i, n);
    assert tops * subs == {};
    var some := tops + subs;
    assert |some| == i + n;
    assert {Name} * some == {};
    var all := {Name} + some;
    assert |all| == i + n + 1;
    SubsetCard(all, keys);
  }

  /** A segment holds `name` and `1` .. `i`, so the bound `|keys| - i - 1`
      of the inner loop never cuts the sub-fields of `i` short: the loop
      always stops at the first missing one. */
  lemma ExtentStops(data: Data, i: nat)
    requires Name in data && forall i' :: 1 <= i' <= i ==> Top(i') in data
    ensures var m := Extent(data.Keys, i, |data| - i - 1);
      (forall j :: 1 <= j <= m ==> Sub(i, j) in data) && Sub(i, m + 1) !in data
  {
    var m := Extent(data.Keys, i, |data| - i - 1);
    ExtentBounds(data.Keys, i, |data| - i - 1);
    if Sub(i, m + 1) in data {
      KeysCount(data.Keys, i, m + 1);
    }
  }

  /** Two maps with the same keys of index `i` cut the same parts. */
  lemma {:induction false} PartsSame(a: Data, b: Data, i: nat, m: nat)
    requires Top(i) in a && Top(i) in b && a[Top(i)] == b[Top(i)]
    requires forall j :: 1 <= j <= m ==> Sub(i, j) in a && Sub(i, j) in b && a[Sub(i, j)] == b[Sub(i, j)]
    ensures Parts(a, i, m) == Parts(b, i, m)
  {
    if m > 0 {
      PartsSame(a, b, i, m - 1);
    }
  }

  /** Whether an element needs repairing depends only on its own keys, as
      long as `name` and the earlier indices are there. */
  lemma SameDirty(a: Data, b: Data, i: nat, rep: char)
    requires Name in a && Name in b && 1 <= i
    requires forall i' :: 1 <= i' <= i ==> Top(i') in a && Top(i') in b
    requires forall key | Index(key) == Some(i) :: (key in a <==> key in b) && (key in a ==> a[key] == b[key])
    ensures Dirty(a, i, rep) == Dirty(b, i, rep)
  {
    var ma := Extent(a.Keys, i, |a| - i - 1);
    var mb := Extent(b.Keys, i, |b| - i - 1);
    ExtentStops(a, i);
    ExtentStops(b, i);
    assert Index(Sub(i, ma + 1)) == Some(i) && Index(Sub(i, mb + 1)) == Some(i);
    assert Sub(i, ma + 1) !in b && Sub(i, mb + 1) !in a;
    assert forall j :: 1 <= j <= ma ==> Index(Sub(i, j)) == Some(i);
    assert Index(Top(i)) == Some(i);
    PartsSame(a, b, i, ma);
  }

  /** Passes over elements that need no repair change nothing. */
  lemma {:induction false} CleanPasses(data: Data, cur: Data, i: nat, stop: nat, comp: char, rep: char)
    requires 1 <= i <= stop
    requires forall i' :: i <= i' < stop ==> Top(i') in data && !Dirty(data, i', rep)
    ensures RepairFrom(data, cur, i, comp, rep) == RepairFrom(data, cur, stop, comp, rep)
    decreases stop - i
  {
    if i < stop && i <= |data| {
      assert Top(i) in data && !Dirty(data, i, rep);
      assert RepairAt(data, cur, i, comp, rep) == cur;
      assert RepairFrom(data, cur, i, comp, rep) == RepairFrom(data, cur, i + 1, comp, rep);
      CleanPasses(data, cur, i + 1, stop, comp, rep);
    }
  }

  /** The keys of indices before `i`, and those of no index, are the same in
      `data` and in the result of the passes from `i` on. */
  lemma EarlierKept(data: Data, cur: Data, i: nat, comp: char, rep: char, key: Key)
    requires 1 <= i && (Index(key).None? || Index(key).value < i)
    ensures var r := RepairFrom(data, cur, i, comp, rep);
      (key in r <==> key in cur) && (key in cur ==> r[key] == cur[key])
  {
    RepairFromKeeps(data, cur, i, if i > |data| then i else |data| + 1, comp, rep, key);
  }

  /** A pass that repairs `i` removes the key `i`, which lies at least two
      keys before the end of the key count. */
  lemma RepairAtDrops(data: Data, cur: Data, i: nat, comp: char, rep: char)
    requires Top(i) in data && Dirty(data, i, rep)
    ensures Top(i) !in RepairAt(data, cur, i, comp, rep)
    ensures i + 2 <= |data|
  {
    var m := Extent(data.Keys, i, |data| - i - 1);
    ExtentBounds(data.Keys, i, |data| - i - 1);
    var items := Split(Join(Parts(data, i, m), comp), rep);
    RepsHas(i, items, comp, |items|, 0, Top(i));
  }

  /** When the elements before `i` need no repair and `i` does, the first
      call is the pass at `i` followed by the passes after it. */
  lemma FirstRepairIs(data: Data, i: nat, comp: char, rep: char)
    requires 1 <= i
    requires forall i' :: 1 <= i' < i ==> Top(i') in data && !Dirty(data, i', rep)
    requires Top(i) in data && Dirty(data, i, rep)
    ensures Reparsed(data, comp, rep) == RepairFrom(data, RepairAt(data, data, i, comp, rep), i + 1, comp, rep)
  {
    RepairAtDrops(data, data, i, comp, rep);
    CleanPasses(data, data, 1, i, comp, rep);
  }

  /** The first call, when the first element it repairs is `i`: the keys
      of the earlier elements and `name` come back as they were, and `i` is
      gone. */
  lemma FirstRepair(data: Data, i: nat, comp: char, rep: char)
    requires Name in data && 1 <= i
    requires forall i' :: 1 <= i' < i ==> Top(i') in data && !Dirty(data, i', rep)
    requires Top(i) in data && Dirty(data, i, rep)
    ensures var r := Reparsed(data, comp, rep);
      && Name in r && Top(i) !in r
      && forall key | Index(key).Some? && Index(key).value < i ::
           (key in r <==> key in data) && (key in data ==> r[key] == data[key])
  {
    forall key | Index(key).Some? && Index(key).value < i
      ensures var r := Reparsed(data, comp, rep);
        (key in r <==> key in data) && (key in data ==> r[key] == data[key])
    {
      FirstRepairKeeps(data, i, comp, rep, key);
    }
    FirstRepairKeeps(data, i, comp, rep, Name);
    FirstRepairIs(data, i, comp, rep);
    EarlierKept(data, RepairAt(data, data, i, comp, rep), i + 1, comp, rep, Top(i));
    RepairAtDrops(data, data, i, comp, rep);
  }

  /** The first call keeps the keys of the elements before `i` and the keys
      of no element. */
  lemma FirstRepairKeeps(data: Data, i: nat, comp: char, rep: char, key: Key)
    requires 1 <= i
    requires forall i' :: 1 <= i' < i ==> Top(i') in data && !Dirty(data, i', rep)
    requires Top(i) in data && Dirty(data, i, rep)
    requires Index(key).None? || Index(key).value < i
    ensures var r := Reparsed(data, comp, rep);
      (key in r <==> key in data) && (key in data ==> r[key] == data[key])
  {
    FirstRepairIs(data, i, comp, rep);
    EarlierKept(data, RepairAt(data, data, i, comp, rep), i + 1, comp, rep, key);
    RepairAtKeeps(data, data, i, comp, rep, key);
  }

  /** The second call, when the first repaired the element `i`: the
      elements before it are left as they were and the scan stops at `i`,
      whose key is gone. */
  lemma SecondCallStops(data: Data, i: nat, comp: char, rep: char)
    requires Name in data && 1 <= i
    requires forall i' :: 1 <= i' < i ==> Top(i') in data && !Dirty(data, i', rep)
    requires Top(i) in data && Dirty(data, i, rep)
    ensures var r := Reparsed(data, comp, rep); Reparsed(r, comp, rep) == r
  {
    var r := Reparsed(data, comp, rep);
    FirstRepair(data, i, comp, rep);
    forall i' | 1 <= i' < i ensures Top(i') in r && !Dirty(r, i', rep) {
      assert Index(Top(i')) == Some(i');
      SameDirty(data, r, i', rep);
    }
    CleanPasses(r, r, 1, i, comp, rep);
  }

  /** The scan has passed `1` .. `i - 1` without repairing anything. */
  lemma {:induction false} IdempotentFrom(data: Data, i: nat, comp: char, rep: char)
    requires Name in data && 1 <= i
    requires forall i' :: 1 <= i' < i ==> Top(i') in data && !Dirty(data, i', rep)
    ensures var r := Reparsed(data, comp, rep); Reparsed(r, comp, rep) == r
    decreases |data| + 1 - i
  {
    if i > |data| || Top(i) !in data {
      CleanPasses(data, data, 1, i, comp, rep);
    } else if Dirty(data, i, rep) {
      SecondCallStops(data, i, comp, rep);
    } else {
      IdempotentFrom(data, i + 1, comp, rep);
    }
  }

  /** A second call changes nothing. */
  lemma ReparseIdempotent(data: Data, comp: char, rep: char)
    requires Name in data
    ensures Reparsed(Reparsed(data, comp, rep), comp, rep) == Reparsed(data, comp, rep)
  {
    IdempotentFrom(data, 1, comp, rep);
  }

  // ------------------------------------------------------------ an example

  /** An RAS segment whose element 3 was tokenized as four flat values. */
  function RasSegment(): Data {
    map[Top(1) := "1", Top(2) := "XYZ", Top(3) := "AA", Sub(3, 1) := "BB^CC", Sub(3, 2) := "DD",
        Sub(3, 3) := "EE^FF", Top(4) := "stuff", Name := "RAS"]
  }

  lemma SameMap(a: Data, b: Data)
    requires forall key :: (key in a <==> key in b) && (key in a ==> a[key] == b[key])
    ensures a == b
  {
  }

  /** Splitting the rebuilt element 3 of the example on `^`. */
  lemma RasRepetitions()
    ensures Split("AA:BB^CC:DD:EE^FF", '^') == ["AA:BB", "CC:DD:EE", "FF"]
  {
    var items := ["AA:BB", "CC:DD:EE", "FF"];
    assert Join(items, '^') == "AA:BB^CC:DD:EE^FF";
    SplitJoin(items, '^');
  }

  /** Splitting each repetition of the example on `:`. */
  lemma RasComponents()
    ensures Split("AA:BB", ':') == ["AA", "BB"]
    ensures Split("CC:DD:EE", ':') == ["CC", "DD", "EE"]
    ensures Split("FF", ':') == ["FF"]
  {
    RasSplit(["AA", "BB"], "AA:BB");
    RasSplit(["CC", "DD", "EE"], "CC:DD:EE");
    SplitNoSeparator("FF", ':');
  }

  lemma RasSplit(comps: seq<string>, s: string)
    requires |comps| >= 1 && (forall k :: 0 <= k < |comps| ==> ':' !in comps[k]) && Join(comps, ':') == s
    ensures Split(s, ':') == comps
  {
    SplitJoin(comps, ':');
  }

  /** Element 3 of the example, rebuilt and split again. */
  lemma RasEntries()
    ensures Entries(3, "AA:BB^CC:DD:EE^FF", ':', '^') ==
      map[Rep(3, 0, 1) := "AA", Rep(3, 0, 2) := "BB", Rep(3, 1, 1) := "CC", Rep(3, 1, 2) := "DD",
          Rep(3, 1, 3) := "EE", Rep(3, 2, 1) := "FF"]
  {
    var items := ["AA:BB", "CC:DD:EE", "FF"];
    RasRepetitions();
    RasComponents();
    var e := Entries(3, "AA:BB^CC:DD:EE^FF", ':', '^');
    var expected := map[Rep(3, 0, 1) := "AA", Rep(3, 0, 2) := "BB", Rep(3, 1, 1) := "CC", Rep(3, 1, 2) := "DD",
                        Rep(3, 1, 3) := "EE", Rep(3, 2, 1) := "FF"];
    forall key ensures (key in e <==> key in expected) && (key in e ==> e[key] == expected[key]) {
      RepsHas(3, items, ':', 3, 0, key);
    }
    SameMap(e, expected);
  }

  /** What the repair of the example reads of the segment. */
  ghost predicate RasShape(d: Data) {
    && Name in d && Top(1) in d && Top(2) in d && Top(3) in d && Top(4) in d && Top(5) !in d
    && Sub(1, 1) !in d && Sub(2, 1) !in d && Sub(4, 1) !in d
    && Sub(3, 1) in d && Sub(3, 2) in d && Sub(3, 3) in d && Sub(3, 4) !in d
    && d[Top(3)] == "AA" && d[Sub(3, 1)] == "BB^CC" && d[Sub(3, 2)] == "DD" && d[Sub(3, 3)] == "EE^FF"
  }

  /** Elements without sub-fields are never repaired. */
  lemma NoSubFields(d: Data, i: nat, rep: char)
    requires Name in d && 1 <= i && (forall i' :: 1 <= i' <= i ==> Top(i') in d) && Sub(i, 1) !in d
    ensures !Dirty(d, i, rep)
  {
    ExtentStops(d, i);
  }

  /** Element 3 of the example takes its three sub-fields, one of which
      holds `^`. */
  lemma RasParts(d: Data)
    requires RasShape(d)
    ensures Extent(d.Keys, 3, |d| - 3 - 1) == 3
    ensures Parts(d, 3, 3) == ["AA", "BB^CC", "DD", "EE^FF"]
  {
    ExtentStops(d, 3);
    var parts := ["AA", "BB^CC", "DD", "EE^FF"];
    assert Parts(d, 3, 1) == parts[..2];
    assert Parts(d, 3, 2) == parts[..3];
  }

  /** Element 3 of the example is repaired, into its six repetition keys. */
  lemma RasElement(d: Data, cur: Data)
    requires RasShape(d)
    ensures Dirty(d, 3, '^')
    ensures RepairAt(d, cur, 3, ':', '^') ==
      (cur - {Top(3), Sub(3, 1), Sub(3, 2), Sub(3, 3)}) + Entries(3, "AA:BB^CC:DD:EE^FF", ':', '^')
  {
    RasParts(d);
    var parts := ["AA", "BB^CC", "DD", "EE^FF"];
    assert '^' in parts[1];
    var full := Join(parts, ':');
    assert full == "AA:BB^CC:DD:EE^FF";
    var gone := {Top(3), Sub(3, 1), Sub(3, 2), Sub(3, 3)};
    assert {Top(3)} + SubKeys(3, 3) == gone;
  }

  /** The passes over the example: 1 and 2 keep everything, 3 is repaired, 4
      keeps everything and the scan stops at 5. */
  lemma RasPasses(d: Data)
    requires RasShape(d)
    ensures Reparsed(d, ':', '^') ==
      (d - {Top(3), Sub(3, 1), Sub(3, 2), Sub(3, 3)}) + Entries(3, "AA:BB^CC:DD:EE^FF", ':', '^')
  {
    RasFirstPasses(d);
    RasElement(d, d);
    var c := RepairAt(d, d, 3, ':', '^');
    RasTops(d);
    KeysCount(d.Keys, 4, 0);
    assert RepairFrom(d, d, 3, ':', '^') == RepairFrom(d, c, 4, ':', '^');
    RasLastPass(d, c);
  }

  lemma RasTops(d: Data)
    requires RasShape(d)
    ensures forall i' :: 1 <= i' <= 4 ==> Top(i') in d
  {
    forall i' | 1 <= i' <= 4 ensures Top(i') in d {
      if i' == 1 {
      } else if i' == 2 {
      } else if i' == 3 {
      } else {
        assert i' == 4;
      }
    }
  }

  lemma RasFirstPasses(d: Data)
    requires RasShape(d)
    ensures Reparsed(d, ':', '^') == RepairFrom(d, d, 3, ':', '^')
  {
    NoSubFields(d, 1, '^');
    NoSubFields(d, 2, '^');
    forall i' | 1 <= i' < 3 ensures Top(i') in d && !Dirty(d, i', '^') {
      if i' == 1 {
      } else {
        assert i' == 2;
      }
    }
    CleanPasses(d, d, 1, 3, ':', '^');
  }

  lemma RasLastPass(d: Data, c: Data)
    requires RasShape(d)
    ensures RepairFrom(d, c, 4, ':', '^') == c
  {
    RasTops(d);
    NoSubFields(d, 4, '^');
    CleanPasses(d, c, 4, 5, ':', '^');
  }

  /** The keys of the example that no pass removes. */
  lemma RasKept()
    ensures RasSegment() - {Top(3), Sub(3, 1), Sub(3, 2), Sub(3, 3)} ==
      map[Top(1) := "1", Top(2) := "XYZ", Top(4) := "stuff", Name := "RAS"]
  {
    var kept := RasSegment() - {Top(3), Sub(3, 1), Sub(3, 2), Sub(3, 3)};
    var expected := map[Top(1) := "1", Top(2) := "XYZ", Top(4) := "stuff", Name := "RAS"];
    forall key ensures (key in kept <==> key in expected) && (key in kept ==> kept[key] == expected[key]) {
    }
    SameMap(kept, expected);
  }

  /** The kept keys and the repetition keys of the example together. */
  lemma RasUnion()
    ensures map[Top(1) := "1", Top(2) := "XYZ", Top(4) := "stuff", Name := "RAS"] +
      map[Rep(3, 0, 1) := "AA", Rep(3, 0, 2) := "BB", Rep(3, 1, 1) := "CC", Rep(3, 1, 2) := "DD",
          Rep(3, 1, 3) := "EE", Rep(3, 2, 1) := "FF"] ==
      map[Top(1) := "1", Top(2) := "XYZ", Rep(3, 0, 1) := "AA", Rep(3, 0, 2) := "BB", Rep(3, 1, 1) := "CC",
          Rep(3, 1, 2) := "DD", Rep(3, 1, 3) := "EE", Rep(3, 2, 1) := "FF", Top(4) := "stuff", Name := "RAS"]
  {
    var a := map[Top(1) := "1", Top(2) := "XYZ", Top(4) := "stuff", Name := "RAS"];
    var b := map[Rep(3, 0, 1) := "AA", Rep(3, 0, 2) := "BB", Rep(3, 1, 1) := "CC", Rep(3, 1, 2) := "DD",
                 Rep(3, 1, 3) := "EE", Rep(3, 2, 1) := "FF"];
    var c := map[Top(1) := "1", Top(2) := "XYZ", Rep(3, 0, 1) := "AA", Rep(3, 0, 2) := "BB", Rep(3, 1, 1) := "CC",
                 Rep(3, 1, 2) := "DD", Rep(3, 1, 3) := "EE", Rep(3, 2, 1) := "FF", Top(4) := "stuff", Name := "RAS"];
    forall key ensures (key in a + b <==> key in c) && (key in a + b ==> (a + b)[key] == c[key]) {
    }
    SameMap(a + b, c);
  }

  /** The repository's own example: element 3 and its three sub-fields
      become the six repetition keys, and `1`, `2`, `4` and `name` are kept. */
  lemma RasExample()
    ensures Reparsed(RasSegment(), ':', '^') ==
      map[Top(1) := "1", Top(2) := "XYZ", Rep(3, 0, 1) := "AA", Rep(3, 0, 2) := "BB", Rep(3, 1, 1) := "CC",
          Rep(3, 1, 2) := "DD", Rep(3, 1, 3) := "EE", Rep(3, 2, 1) := "FF", Top(4) := "stuff", Name := "RAS"]
  {
    assert RasShape(RasSegment());
    RasPasses(RasSegment());
    RasEntries();
    RasKept();
    RasUnion();
  }

  // ------------------------------------------------------------ the algorithm

  /** The keys of index `i` and later are as in the original segment. */
  ghost predicate AgreesFrom(data: Data, cur: Data, i: nat) {
    forall key | Index(key).Some? && Index(key).value >= i && !key.Rep? ::
      (key in cur <==> key in data) && (key in data ==> cur[key] == data[key])
  }

  /** The inner loop over `i-1`, `i-2`, ...: the parts it collects, how
      many sub-fields they take, and whether none holds the repetition
      separator. */
  method CollectParts(data: Data, newData: Data, i: nat, maxSubKeys: int, rep: char)
    returns (parts: seq<string>, maxJ: nat, correctlyParsed: bool)
    requires Top(i) in data && AgreesFrom(data, newData, i)
    ensures var m := Extent(data.Keys, i, maxSubKeys);
      && (m == 0 ==> parts == [] && correctlyParsed)
      && (m > 0 ==> (forall j :: 1 <= j <= m ==> Sub(i, j) in data) &&
                    parts == Parts(data, i, m) && maxJ == m && correctlyParsed == Clean(parts, rep))
  {
    var keys := data.Keys;
    parts := [];
    maxJ := 1;
    correctlyParsed := true;
    var j := 1;
    while j <= maxSubKeys
      invariant 1 <= j
      invariant forall j' :: 1 <= j' < j ==> Sub(i, j') in keys
      invariant ExtentFrom(keys, i, j, maxSubKeys) == Extent(keys, i, maxSubKeys)
      invariant j == 1 ==> parts == [] && correctlyParsed
      invariant j > 1 ==> parts == Parts(data, i, j - 1) && maxJ == j - 1
      invariant j > 1 ==> correctlyParsed == Clean(parts, rep)
    {
      if Sub(i, j) !in keys {
        maxJ := j - 1;
        break;
      }
      if |parts| == 0 {
        parts := [newData[Top(i)]];
        correctlyParsed := rep !in newData[Top(i)];
      }
      var val := newData[Sub(i, j)];
      correctlyParsed := correctlyParsed && rep !in val;
      assert Clean(parts + [val], rep) <==> Clean(parts, rep) && rep !in val;
      parts := parts + [val];
      maxJ := j;
      j := j + 1;
    }
  }

  /** Deleting `i` and `i-1` .. `i-maxJ`. */
  method DeleteElement(newData: Data, i: nat, maxJ: nat) returns (r: Data)
    ensures r == newData - ({Top(i)} + SubKeys(i, maxJ))
  {
    r := newData - {Top(i)};
    var d := 1;
    while d <= maxJ
      invariant 1 <= d <= maxJ + 1
      invariant r == newData - ({Top(i)} + SubKeys(i, d - 1))
    {
      r := r - {Sub(i, d)};
      d := d + 1;
    }
  }

  /** Storing every repetition of `fullElement`, component by component. */
  method StoreRepetitions(newData: Data, i: nat, fullElement: string, comp: char, rep: char) returns (r: Data)
    ensures r == newData + Entries(i, fullElement, comp, rep)
  {
    r := newData;
    var split := Split(fullElement, rep);
    var itemIdx := 0;
    while itemIdx < |split|
      invariant 0 <= itemIdx <= |split|
      invariant r == newData + Reps(i, split, comp, itemIdx, 0)
    {
      var subElements := Split(split[itemIdx], comp);
      var s := 0;
      while s < |subElements|
        invariant 0 <= s <= |subElements|
        invariant r == newData + Reps(i, split, comp, itemIdx, s)
      {
        UnionUpdate(newData, Reps(i, split, comp, itemIdx, s), Rep(i, itemIdx, s + 1), subElements[s]);
        r := r[Rep(i, itemIdx, s + 1) := subElements[s]];
        s := s + 1;
      }
      itemIdx := itemIdx + 1;
    }
  }

  /** A pass touches only keys of its own index and repetition keys. */
  lemma RepairAtAgrees(data: Data, cur: Data, i: nat, comp: char, rep: char)
    requires Top(i) in data && AgreesFrom(data, cur, i)
    ensures AgreesFrom(data, RepairAt(data, cur, i, comp, rep), i + 1)
  {
    forall key | Index(key).Some? && Index(key).value >= i + 1 {
      RepairAtKeeps(data, cur, i, comp, rep, key);
    }
  }

  /** One pass of the outer loop, for an index `i` that is present. */
  method RepairIndex(data: Data, newData: Data, i: nat, comp: char, rep: char) returns (r: Data)
    requires Top(i) in data && AgreesFrom(data, newData, i)
    ensures r == RepairAt(data, newData, i, comp, rep)
  {
    var parts, maxJ, correctlyParsed := CollectParts(data, newData, i, |data| - i - 1, rep);
    ghost var m := Extent(data.Keys, i, |data| - i - 1);
    r := newData;
    if !correctlyParsed {
      assert m > 0 && parts == Parts(data, i, m) && !Clean(parts, rep);
      var fullElement := Join(parts, comp);
      r := DeleteElement(r, i, maxJ);
      r := StoreRepetitions(r, i, fullElement, comp, rep);
      assert r == (newData - ({Top(i)} + SubKeys(i, m))) + Entries(i, Join(parts, comp), comp, rep);
    } else {
      assert m == 0 || Clean(Parts(data, i, m), rep);
    }
  }

  /** reparseSegment on a copy of `data`. */
  method ReparseSegment(data: Data, comp: char, rep: char) returns (newData: Data)
    ensures newData == Reparsed(data, comp, rep)
  {
    newData := data;
    var keys := data.Keys;
    var count := |data|;
    var i := 1;
    while i <= count
      invariant 1 <= i
      invariant RepairFrom(data, newData, i, comp, rep) == Reparsed(data, comp, rep)
      invariant AgreesFrom(data, newData, i)
      decreases count + 1 - i
    {
      if Top(i) !in keys {
        break;
      }
      RepairAtAgrees(data, newData, i, comp, rep);
      newData := RepairIndex(data, newData, i, comp, rep);
      i := i + 1;
    }
  }
}
