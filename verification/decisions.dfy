/** The operation surface of `IRandomController`: one request per named
    operation, carrying that operation's own arguments, and the answers the
    operations return. The acting and the related entity that most
    operations also receive are passed beside the request (see `Provider`).

    `Admissible` states what the interface promises of any answer, whichever
    provider gave it: selections answer a member of the pool, draws and
    jousts a card of the deck, numbers stay within their bounds, and the
    summon order is a permutation of the summoned entities. */
module Decisions {
  import opened Entities
  import opened DotNetRandom

  datatype Request =
    | PickAdaptChoices(kind: Tag, cards: seq<Card>)
    | PickBasicTotem(totems: seq<string>)
    | PickCard(task: EngineRef, cards: seq<Card>)
    | PickDiscoverChoices(kind: Tag, cards: seq<Card>)
    | PickDraw(player: Controller)
    | PickEntourage(names: seq<string>)
    | PickHeroClass(classes: seq<CardClass>)
    | PickJoust(player: Controller)
    | PickMinion(task: EngineRef, cards: seq<Card>)
    | PickMinionNumber(cost: Int32, cards: seq<Card>)
    | PickPotionSpell(cards: seq<Card>)
    | PickRecruit(minions: seq<Playable>)
    | PickReplace(zone: EngineRef, cards: seq<Card>)
    | PickSpell(cards: seq<Card>)
    | PickTarget(kind: Tag, entities: seq<Playable>)
    | PickTransformMinion(cards: seq<Card>)
    | UnusedPickCardAsString(names: seq<string>)
    | PickCardInContext(context: string, cards: seq<Card>)
    | CoinFlip
    | RandomDamage(amount: Int32)
    | GetNumber(min: Int32, max: Int32)
    | SortSummonCopy(entities: seq<Playable>)

  datatype Answer =
    | CardAnswer(card: Card)
    | NameAnswer(name: string)
    | ClassAnswer(heroClass: CardClass)
    | EntityAnswer(entity: Playable)
    | NumberAnswer(n: int)
    | OrderAnswer(order: seq<Playable>)

  /** The C# name of the operation a request calls. */
  function OpName(req: Request): string
  {
    match req
    case PickAdaptChoices(_, _) => "PickAdaptChoices"
    case PickBasicTotem(_) => "PickBasicTotem"
    case PickCard(_, _) => "PickCard"
    case PickDiscoverChoices(_, _) => "PickDiscoverChoices"
    case PickDraw(_) => "PickDraw"
    case PickEntourage(_) => "PickEntourage"
    case PickHeroClass(_) => "PickHeroClass"
    case PickJoust(_) => "PickJoust"
    case PickMinion(_, _) => "PickMinion"
    case PickMinionNumber(_, _) => "PickMinionNumber"
    case PickPotionSpell(_) => "PickPotionSpell"
    case PickRecruit(_) => "PickRecruit"
    case PickReplace(_, _) => "PickReplace"
    case PickSpell(_) => "PickSpell"
    case PickTarget(_, _) => "PickTarget"
    case PickTransformMinion(_) => "PickTransformMinion"
    case UnusedPickCardAsString(_) => "UnusedPickCardAsString"
    case PickCardInContext(_, _) => "PickCard"
    case CoinFlip => "CoinFlip"
    case RandomDamage(_) => "RandomDamage"
    case GetNumber(_, _) => "GetNumber"
    case SortSummonCopy(_) => "SortSummonCopy"
  }

  /** What the interface promises of an answer to `req`. */
  predicate Admissible(req: Request, a: Answer)
  {
    match req
    case PickAdaptChoices(_, cards) => a.CardAnswer? && a.card in cards
    case PickBasicTotem(totems) => a.NameAnswer? && a.name in totems
    case PickCard(_, cards) => a.CardAnswer? && a.card in cards
    case PickDiscoverChoices(_, cards) => a.CardAnswer? && a.card in cards
    case PickDraw(c) => a.EntityAnswer? && a.entity in c.deck
    case PickEntourage(names) => a.NameAnswer? && a.name in names
    case PickHeroClass(classes) => a.ClassAnswer? && a.heroClass in classes
    case PickJoust(c) => a.EntityAnswer? && a.entity in c.deck
    case PickMinion(_, cards) => a.CardAnswer? && a.card in cards
    case PickMinionNumber(_, cards) => a.CardAnswer? && a.card in cards
    case PickPotionSpell(cards) => a.CardAnswer? && a.card in cards
    case PickRecruit(minions) => a.EntityAnswer? && a.entity in minions
    case PickReplace(_, cards) => a.CardAnswer? && a.card in cards
    case PickSpell(cards) => a.CardAnswer? && a.card in cards
    case PickTarget(_, entities) => a.EntityAnswer? && a.entity in entities
    case PickTransformMinion(cards) => a.CardAnswer? && a.card in cards
    case UnusedPickCardAsString(names) => a.NameAnswer? && a.name in names
    case PickCardInContext(_, cards) => a.CardAnswer? && a.card in cards
    case CoinFlip => a.NumberAnswer? && (a.n == 0 || a.n == 1)
    case RandomDamage(amount) => a.NumberAnswer? && (a.n == 0 || 0 <= a.n <= amount)
    case GetNumber(min, max) => a.NumberAnswer? && (a.n == min || min <= a.n <= max)
    case SortSummonCopy(entities) => a.OrderAnswer? && multiset(a.order) == multiset(entities)
  }

  /** The size of a request's pool (the deck, for draws and jousts), or -1
      for requests that carry no pool. */
  function PoolSize(req: Request): int
  {
    match req
    case PickAdaptChoices(_, cards) => |cards|
    case PickBasicTotem(totems) => |totems|
    case PickCard(_, cards) => |cards|
    case PickDiscoverChoices(_, cards) => |cards|
    case PickDraw(c) => |c.deck|
    case PickEntourage(names) => |names|
    case PickHeroClass(classes) => |classes|
    case PickJoust(c) => |c.deck|
    case PickMinion(_, cards) => |cards|
    case PickMinionNumber(_, cards) => |cards|
    case PickPotionSpell(cards) => |cards|
    case PickRecruit(minions) => |minions|
    case PickReplace(_, cards) => |cards|
    case PickSpell(cards) => |cards|
    case PickTarget(_, entities) => |entities|
    case PickTransformMinion(cards) => |cards|
    case UnusedPickCardAsString(names) => |names|
    case PickCardInContext(_, cards) => |cards|
    case CoinFlip => -1
    case RandomDamage(_) => -1
    case GetNumber(_, _) => -1
    case SortSummonCopy(_) => -1
  }

  /** The requests the default policy can answer: a non-empty pool, and
      bounds that `Random.Next` accepts once `+ 1` has wrapped. */
  predicate Answerable(req: Request)
  {
    match req
    case RandomDamage(amount) => -1 <= amount < INT32_MAX
    case GetNumber(min, max) =>
      (max < INT32_MAX && min <= max + 1) || (max == INT32_MAX && min == INT32_MIN)
    case CoinFlip => true
    case SortSummonCopy(_) => true
    case _ => PoolSize(req) > 0
  }

  /** How many raw values the default policy draws from the random source:
      none for a draw, one key per entity for the summon order, one otherwise. */
  function RollsUsed(req: Request): nat
  {
    match req
    case PickDraw(_) => 0
    case SortSummonCopy(entities) => |entities|
    case _ => 1
  }

  /** The requests answered with a card. */
  predicate AsksForCard(req: Request)
  {
    || req.PickAdaptChoices? || req.PickCard? || req.PickDiscoverChoices? || req.PickMinion?
    || req.PickMinionNumber? || req.PickPotionSpell? || req.PickReplace? || req.PickSpell?
    || req.PickTransformMinion? || req.PickCardInContext?
  }

  /** The requests answered with a number. */
  predicate AsksForNumber(req: Request)
  {
    req.CoinFlip? || req.RandomDamage? || req.GetNumber?
  }

  /** The operations `CustomRandomController` overrides. */
  predicate Overridden(req: Request)
  {
    req.PickDraw? || req.PickCard? || req.PickDiscoverChoices? || req.PickTarget?
  }
}
