/** The random primitives the default provider is built on: .NET's
    `Random.Next`, the engine's `Util.Choose` / `Util.RandomElement`, and
    LINQ's `OrderBy` with random keys.

    No distribution is modelled. Each call reads one raw value `roll` from
    an oracle, and the lemmas below show that every admissible outcome is
    produced by some roll, so the oracle restricts nothing. */
module DotNetRandom {
  import opened Outcome
  import opened Entities

  const INT32_MIN: int := -0x8000_0000
  const INT32_MAX: int := 0x7FFF_FFFF

  /** A C# `int`. */
  type Int32 = x: int | INT32_MIN <= x <= INT32_MAX

  /** Two's-complement wrap-around of unchecked C# `int` arithmetic. */
  function Wrap32(x: int): (r: Int32)
    ensures INT32_MIN <= x <= INT32_MAX ==> r == x
    ensures x == INT32_MAX + 1 ==> r == INT32_MIN
  {
    (x - INT32_MIN) % 0x1_0000_0000 + INT32_MIN
  }

  /** `Random.Next(minValue, maxValue)`: the upper bound is exclusive, equal
      bounds yield `minValue`, and `minValue > maxValue` throws
      `ArgumentOutOfRangeException`. `op` names the provider operation on
      whose behalf the call is made. */
  function Next(op: string, roll: nat, min: Int32, maxExclusive: Int32): (r: Result<Int32>)
    ensures r.Ok? <==> min <= maxExclusive
    ensures r.Err? ==> r.failure == ArgumentOutOfRange(op)
    ensures r.Ok? && min < maxExclusive ==> min <= r.value < maxExclusive
    ensures r.Ok? && min == maxExclusive ==> r.value == min
  {
    if min > maxExclusive then Err(ArgumentOutOfRange(op))
    else if min == maxExclusive then Ok(min)
    else Ok(min + roll % (maxExclusive - min))
  }

  /** Every value of a non-empty range `[min, maxExclusive)` is the outcome
      of some roll. */
  lemma NextReachesEveryValue(op: string, min: Int32, maxExclusive: Int32, v: Int32)
    requires min <= v < maxExclusive
    ensures Next(op, (v - min) as nat, min, maxExclusive) == Ok(v)
  {
    ModOfSmaller(v - min, maxExclusive - min);
  }

  lemma ModOfSmaller(a: nat, d: nat)
    requires a < d
    ensures a % d == a
  {
  }

  /** `Random.Next()`: a non-negative `int` below `int.MaxValue`. */
  function NextKey(roll: nat): (r: nat)
    ensures r < INT32_MAX
  {
    roll % INT32_MAX
  }

  /** `Util.Choose` / `Util.RandomElement`: one element of the list, at the
      index a roll selects; an empty list throws when it is indexed. */
  function Choose<T>(op: string, roll: nat, candidates: seq<T>): (r: Result<T>)
    ensures r.Ok? <==> |candidates| > 0
    ensures r.Ok? ==> r.value in candidates
    ensures r.Err? ==> r.failure == EmptyCandidates(op)
  {
    if |candidates| == 0 then Err(EmptyCandidates(op))
    else Ok(candidates[roll % |candidates|])
  }

  /** Every candidate is the choice of some roll. */
  lemma ChooseReachesEveryCandidate<T>(op: string, candidates: seq<T>, i: nat)
    requires i < |candidates|
    ensures Choose(op, i, candidates) == Ok(candidates[i])
  {
    ModOfSmaller(i, |candidates|);
  }

  /** An entity paired with the random sort key `OrderBy` computed for it. */
  datatype Keyed = Keyed(key: nat, entity: Playable)

  predicate SortedByKey(s: seq<Keyed>)
  {
    forall i, j :: 0 <= i < j < |s| ==> s[i].key <= s[j].key
  }

  /** The entities of a keyed sequence, in order. */
  function EntitiesOf(s: seq<Keyed>): (r: seq<Playable>)
    ensures |r| == |s|
    ensures forall i :: 0 <= i < |s| ==> r[i] == s[i].entity
  {
    if |s| == 0 then [] else [s[0].entity] + EntitiesOf(s[1..])
  }

  /** Pairs each entity with the key drawn for it. */
  function Pair(keys: seq<nat>, entities: seq<Playable>): (r: seq<Keyed>)
    requires |keys| == |entities|
    ensures EntitiesOf(r) == entities
    ensures forall i :: 0 <= i < |r| ==> r[i].key == keys[i]
  {
    if |keys| == 0 then [] else [Keyed(keys[0], entities[0])] + Pair(keys[1..], entities[1..])
  }

  /** Inserts `x` in front of the first element whose key is not smaller. */
  function Insert(x: Keyed, s: seq<Keyed>): (r: seq<Keyed>)
    ensures multiset(r) == multiset(s) + multiset{x}
  {
    if |s| == 0 || x.key <= s[0].key then [x] + s
    else
      assert s == [s[0]] + s[1..];
      [s[0]] + Insert(x, s[1..])
  }

  /** Inserting into a sorted sequence keeps it sorted. */
  lemma {:induction false} InsertKeepsSorted(x: Keyed, s: seq<Keyed>)
    requires SortedByKey(s)
    ensures SortedByKey(Insert(x, s))
  {
    if |s| > 0 && x.key > s[0].key {
      var rest := Insert(x, s[1..]);
      InsertKeepsSorted(x, s[1..]);
      forall j | 0 <= j < |rest|
        ensures s[0].key <= rest[j].key
      {
        assert rest[j] in multiset(s[1..]) + multiset{x};
        if rest[j] != x {
          assert rest[j] in s[1..];
        }
      }
      assert SortedByKey([s[0]] + rest);
    }
  }

  /** Inserting `x` adds exactly `x`'s entity to the entities. */
  lemma {:induction false} InsertAddsEntity(x: Keyed, s: seq<Keyed>)
    ensures multiset(EntitiesOf(Insert(x, s))) == multiset(EntitiesOf(s)) + multiset{x.entity}
  {
    if |s| == 0 || x.key <= s[0].key {
      assert EntitiesOf([x] + s) == [x.entity] + EntitiesOf(s);
    } else {
      var rest := Insert(x, s[1..]);
      InsertAddsEntity(x, s[1..]);
      assert EntitiesOf([s[0]] + rest) == [s[0].entity] + EntitiesOf(rest);
      assert EntitiesOf(s) == [s[0].entity] + EntitiesOf(s[1..]);
    }
  }

  /** LINQ's stable `OrderBy` on the keys: an insertion sort. */
  function SortByKey(s: seq<Keyed>): (r: seq<Keyed>)
    ensures multiset(r) == multiset(s)
  {
    if |s| == 0 then []
    else
      assert s == [s[0]] + s[1..];
      Insert(s[0], SortByKey(s[1..]))
  }

  /** The sort orders by key. */
  lemma {:induction false} SortByKeyIsSorted(s: seq<Keyed>)
    ensures SortedByKey(SortByKey(s))
  {
    if |s| > 0 {
      SortByKeyIsSorted(s[1..]);
      InsertKeepsSorted(s[0], SortByKey(s[1..]));
    }
  }

  /** The sort keeps the entities: the same multiset comes out. */
  lemma {:induction false} SortByKeyKeepsEntities(s: seq<Keyed>)
    ensures multiset(EntitiesOf(SortByKey(s))) == multiset(EntitiesOf(s))
  {
    if |s| > 0 {
      SortByKeyKeepsEntities(s[1..]);
      InsertAddsEntity(s[0], SortByKey(s[1..]));
      assert EntitiesOf(s) == [s[0].entity] + EntitiesOf(s[1..]);
    }
  }

  /** `entities.OrderBy(x => Util.Random.Next()).ToList()`, with `keys[i]`
      the key drawn for `entities[i]`: a new list holding the same entities,
      ordered by their keys. */
  function OrderByKeys(keys: seq<nat>, entities: seq<Playable>): (r: seq<Playable>)
    requires |keys| == |entities|
    ensures |r| == |entities|
    ensures multiset(r) == multiset(entities)
  {
    var sorted := SortByKey(Pair(keys, entities));
    SortByKeyKeepsEntities(Pair(keys, entities));
    assert |sorted| == |multiset(sorted)| == |Pair(keys, entities)|;
    EntitiesOf(sorted)
  }
}
