/** `RandomController`: the default decision policy, one function per
    operation of `IRandomController`.

    Every function that draws randomness takes the raw oracle value `roll`
    it reads (or, for `SortSummonCopy`, one key per entity). Context
    arguments (source, target, task, zone, tags) are accepted and, as in the
    C# class, never read. */
module RandomController {
  import opened Outcome
  import opened Entities
  import opened DotNetRandom

  /** The contract every selection operation shares: an answer exists
      exactly when the pool is non-empty, it is one of the candidates, and an
      empty pool fails naming the operation. */
  predicate Selects<T(==)>(op: string, candidates: seq<T>, r: Result<T>)
  {
    && (r.Ok? <==> |candidates| > 0)
    && (r.Ok? ==> r.value in candidates)
    && (r.Err? ==> r.failure == EmptyCandidates(op))
  }

  function PickAdaptChoices(roll: nat, kind: Tag, ctx: Context, cards: seq<Card>): (r: Result<Card>)
    ensures Selects("PickAdaptChoices", cards, r)
  {
    Choose("PickAdaptChoices", roll, cards)
  }

  function PickBasicTotem(roll: nat, totems: seq<string>): (r: Result<string>)
    ensures Selects("PickBasicTotem", totems, r)
  {
    Choose("PickBasicTotem", roll, totems)
  }

  /** `PickCard(RandomCardTask, ...)`. */
  function PickCard(roll: nat, task: EngineRef, ctx: Context, cards: seq<Card>): (r: Result<Card>)
    ensures Selects("PickCard", cards, r)
  {
    Choose("PickCard", roll, cards)
  }

  function PickDiscoverChoices(roll: nat, kind: Tag, ctx: Context, cards: seq<Card>): (r: Result<Card>)
    ensures Selects("PickDiscoverChoices", cards, r)
  {
    Choose("PickDiscoverChoices", roll, cards)
  }

  /** The draw is not random: it takes no roll and answers the deck's top
      card. */
  function PickDraw(c: Controller): (r: Result<Playable>)
    ensures r.Ok? <==> |c.deck| > 0
    ensures r.Ok? ==> r.value == c.deck[|c.deck| - 1]
    ensures r.Err? ==> r.failure == EmptyCandidates("PickDraw")
  {
    match TopCard(c.deck)
    case None => Err(EmptyCandidates("PickDraw"))
    case Some(top) => Ok(top)
  }

  function PickEntourage(roll: nat, ctx: Context, names: seq<string>): (r: Result<string>)
    ensures Selects("PickEntourage", names, r)
  {
    Choose("PickEntourage", roll, names)
  }

  function PickHeroClass(roll: nat, ctx: Context, classes: seq<CardClass>): (r: Result<CardClass>)
    ensures Selects("PickHeroClass", classes, r)
  {
    Choose("PickHeroClass", roll, classes)
  }

  /** A joust peeks at a random card of the deck without removing it. */
  function PickJoust(roll: nat, c: Controller): (r: Result<Playable>)
    ensures Selects("PickJoust", c.deck, r)
  {
    Choose("PickJoust", roll, c.deck)
  }

  /** `PickMinion(RandomMinionTask, ...)`. */
  function PickMinion(roll: nat, task: EngineRef, ctx: Context, cards: seq<Card>): (r: Result<Card>)
    ensures Selects("PickMinion", cards, r)
  {
    Choose("PickMinion", roll, cards)
  }

  function PickMinionNumber(roll: nat, cost: Int32, ctx: Context, cards: seq<Card>): (r: Result<Card>)
    ensures Selects("PickMinionNumber", cards, r)
  {
    Choose("PickMinionNumber", roll, cards)
  }

  function PickPotionSpell(roll: nat, ctx: Context, cards: seq<Card>): (r: Result<Card>)
    ensures Selects("PickPotionSpell", cards, r)
  {
    Choose("PickPotionSpell", roll, cards)
  }

  function PickRecruit(roll: nat, ctx: Context, minions: seq<Playable>): (r: Result<Playable>)
    ensures Selects("PickRecruit", minions, r)
  {
    Choose("PickRecruit", roll, minions)
  }

  function PickReplace(roll: nat, zone: EngineRef, ctx: Context, cards: seq<Card>): (r: Result<Card>)
    ensures Selects("PickReplace", cards, r)
  {
    Choose("PickReplace", roll, cards)
  }

  function PickSpell(roll: nat, ctx: Context, cards: seq<Card>): (r: Result<Card>)
    ensures Selects("PickSpell", cards, r)
  {
    Choose("PickSpell", roll, cards)
  }

  function PickTarget(roll: nat, kind: Tag, ctx: Context, entities: seq<Playable>): (r: Result<Playable>)
    ensures Selects("PickTarget", entities, r)
  {
    Choose("PickTarget", roll, entities)
  }

  function PickTransformMinion(roll: nat, ctx: Context, cards: seq<Card>): (r: Result<Card>)
    ensures Selects("PickTransformMinion", cards, r)
  {
    Choose("PickTransformMinion", roll, cards)
  }

  function UnusedPickCardAsString(roll: nat, names: seq<string>): (r: Result<string>)
    ensures Selects("UnusedPickCardAsString", names, r)
  {
    Choose("UnusedPickCardAsString", roll, names)
  }

  /** The `PickCard(string context, List<Card>)` overload. */
  function PickCardInContext(roll: nat, context: string, cards: seq<Card>): (r: Result<Card>)
    ensures Selects("PickCard", cards, r)
  {
    Choose("PickCard", roll, cards)
  }

  /** `Next(0, 2)`: the exclusive bound leaves only 0 and 1. */
  function CoinFlip(roll: nat, ctx: Context): (r: int)
    ensures r == 0 || r == 1
  {
    Next("CoinFlip", roll, 0, 2).value
  }

  /** Both sides of the coin come up for some roll. */
  lemma CoinFlipHasBothOutcomes(ctx: Context)
    ensures CoinFlip(0, ctx) == 0 && CoinFlip(1, ctx) == 1
  {
  }

  /** `Next(0, amount + 1)` with C#'s unchecked `amount + 1`. */
  function RandomDamage(roll: nat, amount: Int32, ctx: Context): (r: Result<Int32>)
    ensures r.Ok? <==> -1 <= amount < INT32_MAX
    ensures r.Err? ==> r.failure == ArgumentOutOfRange("RandomDamage")
    ensures r.Ok? && amount >= 0 ==> 0 <= r.value <= amount
    ensures r.Ok? && amount == -1 ==> r.value == 0
  {
    Next("RandomDamage", roll, 0, Wrap32(amount + 1))
  }

  /** Every damage value in `[0, amount]` is dealt for some roll. */
  lemma {:induction false} RandomDamageReachesEveryValue(amount: Int32, v: Int32, ctx: Context)
    requires 0 <= v <= amount < INT32_MAX
    ensures RandomDamage(v as nat, amount, ctx) == Ok(v)
  {
    NextReachesEveryValue("RandomDamage", 0, amount + 1, v);
  }

  /** `Next(min, max + 1)` with C#'s unchecked `max + 1`: at
      `max == int.MaxValue` the bound wraps to `int.MinValue`, and the call
      fails unless `min` is `int.MinValue` as well. */
  function GetNumber(roll: nat, min: Int32, max: Int32, ctx: Context): (r: Result<Int32>)
    ensures r.Ok? <==> (max < INT32_MAX && min <= max + 1) || (max == INT32_MAX && min == INT32_MIN)
    ensures r.Err? ==> r.failure == ArgumentOutOfRange("GetNumber")
    ensures r.Ok? && min <= max ==> min <= r.value <= max
    ensures r.Ok? && max < min ==> r.value == min
  {
    Next("GetNumber", roll, min, Wrap32(max + 1))
  }

  /** Every number in `[min, max]` is returned for some roll. */
  lemma {:induction false} GetNumberReachesEveryValue(min: Int32, max: Int32, v: Int32, ctx: Context)
    requires min <= v <= max < INT32_MAX
    ensures GetNumber((v - min) as nat, min, max, ctx) == Ok(v)
  {
    NextReachesEveryValue("GetNumber", min, max + 1, v);
  }

  /** `entities.OrderBy(x => Util.Random.Next()).ToList()`: `keys[i]` is the
      raw value drawn for `entities[i]`. The answer is a new list holding
      the same entities; the argument, an immutable value here, is left as
      it was. */
  function SortSummonCopy(keys: seq<nat>, ctx: Context, entities: seq<Playable>): (r: seq<Playable>)
    requires |keys| == |entities|
    ensures |r| == |entities|
    ensures multiset(r) == multiset(entities)
  {
    var drawn := seq(|keys|, i requires 0 <= i < |keys| => NextKey(keys[i]));
    OrderByKeys(drawn, entities)
  }
}
