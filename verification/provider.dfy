/** The decision provider bound to one simulation: either the default
    random policy or the scripted test provider.

    The random source is the stream `rng` of raw values `Util.Random`
    yields; the default provider only remembers how many of them it has
    consumed, which makes "how many random draws did this step make"
    something a contract can state. */
module Provider {
  import opened Outcome
  import opened Entities
  import opened DotNetRandom
  import opened Decisions
  import RC = RandomController
  import SC = ScriptedController

  datatype Provider =
    | Default(used: nat)               // RandomController, after `used` draws
    | Scripted(script: SC.Script)      // CustomRandomController

  function AsCard(r: Result<Card>): Result<Answer>
  {
    match r
    case Err(f) => Err(f)
    case Ok(c) => Ok(CardAnswer(c))
  }

  function AsName(r: Result<string>): Result<Answer>
  {
    match r
    case Err(f) => Err(f)
    case Ok(n) => Ok(NameAnswer(n))
  }

  function AsEntity(r: Result<Playable>): Result<Answer>
  {
    match r
    case Err(f) => Err(f)
    case Ok(e) => Ok(EntityAnswer(e))
  }

  function AsNumber(r: Result<Int32>): Result<Answer>
  {
    match r
    case Err(f) => Err(f)
    case Ok(n) => Ok(NumberAnswer(n))
  }

  /** The default policy's answer to a request whose answer is a card. */
  function DefaultCardAnswer(roll: nat, ctx: Context, req: Request): (r: Result<Answer>)
    requires AsksForCard(req)
    ensures r.Ok? <==> Answerable(req)
    ensures r.Ok? ==> Admissible(req, r.value)
    ensures r.Err? ==> r.failure.op == OpName(req)
  {
    match req
    case PickAdaptChoices(kind, cards) => AsCard(RC.PickAdaptChoices(roll, kind, ctx, cards))
    case PickCard(task, cards) => AsCard(RC.PickCard(roll, task, ctx, cards))
    case PickDiscoverChoices(kind, cards) => AsCard(RC.PickDiscoverChoices(roll, kind, ctx, cards))
    case PickMinion(task, cards) => AsCard(RC.PickMinion(roll, task, ctx, cards))
    case PickMinionNumber(cost, cards) => AsCard(RC.PickMinionNumber(roll, cost, ctx, cards))
    case PickPotionSpell(cards) => AsCard(RC.PickPotionSpell(roll, ctx, cards))
    case PickReplace(zone, cards) => AsCard(RC.PickReplace(roll, zone, ctx, cards))
    case PickSpell(cards) => AsCard(RC.PickSpell(roll, ctx, cards))
    case PickTransformMinion(cards) => AsCard(RC.PickTransformMinion(roll, ctx, cards))
    case PickCardInContext(context, cards) => AsCard(RC.PickCardInContext(roll, context, cards))
  }

  /** The default policy's answer to a request whose answer is a name, a
      class or an entity. */
  function DefaultChoiceAnswer(roll: nat, ctx: Context, req: Request): (r: Result<Answer>)
    requires !AsksForCard(req) && !AsksForNumber(req) && !req.SortSummonCopy?
    ensures r.Ok? <==> Answerable(req)
    ensures r.Ok? ==> Admissible(req, r.value)
    ensures r.Err? ==> r.failure.op == OpName(req)
  {
    match req
    case PickBasicTotem(totems) => AsName(RC.PickBasicTotem(roll, totems))
    case PickDraw(c) => AsEntity(RC.PickDraw(c))
    case PickEntourage(names) => AsName(RC.PickEntourage(roll, ctx, names))
    case PickHeroClass(classes) =>
      (match RC.PickHeroClass(roll, ctx, classes)
       case Err(f) => Err(f)
       case Ok(k) => Ok(ClassAnswer(k)))
    case PickJoust(c) => AsEntity(RC.PickJoust(roll, c))
    case PickRecruit(minions) => AsEntity(RC.PickRecruit(roll, ctx, minions))
    case PickTarget(kind, entities) => AsEntity(RC.PickTarget(roll, kind, ctx, entities))
    case UnusedPickCardAsString(names) => AsName(RC.UnusedPickCardAsString(roll, names))
  }

  /** The default policy's answer to a request whose answer is a number. */
  function DefaultNumberAnswer(roll: nat, ctx: Context, req: Request): (r: Result<Answer>)
    requires AsksForNumber(req)
    ensures r.Ok? <==> Answerable(req)
    ensures r.Ok? ==> Admissible(req, r.value)
    ensures r.Err? ==> r.failure.op == OpName(req)
  {
    match req
    case CoinFlip => Ok(NumberAnswer(RC.CoinFlip(roll, ctx)))
    case RandomDamage(amount) => AsNumber(RC.RandomDamage(roll, amount, ctx))
    case GetNumber(min, max) => AsNumber(RC.GetNumber(roll, min, max, ctx))
  }

  /** The default policy's answer to a request. `rng(next)` is the next raw
      value of the random source; the summon order reads one per entity. */
  function DefaultAnswer(rng: nat -> nat, next: nat, ctx: Context, req: Request): (r: Result<Answer>)
    ensures r.Ok? <==> Answerable(req)
    ensures r.Ok? ==> Admissible(req, r.value)
    ensures r.Err? ==> r.failure.op == OpName(req)
  {
    if AsksForCard(req) then DefaultCardAnswer(rng(next), ctx, req)
    else if AsksForNumber(req) then DefaultNumberAnswer(rng(next), ctx, req)
    else if req.SortSummonCopy? then Ok(DefaultOrderAnswer(rng, next, ctx, req))
    else DefaultChoiceAnswer(rng(next), ctx, req)
  }

  /** The `n` raw values of the random source from position `next` on. */
  function Rolls(rng: nat -> nat, next: nat, n: nat): (r: seq<nat>)
    ensures |r| == n
    ensures forall i :: 0 <= i < n ==> r[i] == rng(next + i)
    decreases n
  {
    if n == 0 then [] else [rng(next)] + Rolls(rng, next + 1, n - 1)
  }

  /** The default summon order: `rng(next + i)` is the raw key drawn for
      the `i`-th entity. */
  function DefaultOrderAnswer(rng: nat -> nat, next: nat, ctx: Context, req: Request): (a: Answer)
    requires req.SortSummonCopy?
    ensures a.OrderAnswer? && multiset(a.order) == multiset(req.entities)
  {
    var order := RC.SortSummonCopy(Rolls(rng, next, |req.entities|), ctx, req.entities);
    OrderAnswer(order)
  }

  /** The scripted provider's answer and its script afterwards. Operations
      it does not override fail as unimplemented, naming the operation. */
  function ScriptedAnswer(s: SC.Script, ctx: Context, req: Request): (r: Result<(Answer, SC.Script)>)
    ensures !Overridden(req) ==> r == Err(Unimplemented(OpName(req)))
    ensures r.Ok? ==> Admissible(req, r.value.0)
    ensures r.Err? ==> r.failure.op == OpName(req)
    ensures r.Ok? && (req.PickDraw? || req.PickTarget?) ==> r.value.1.toPick == s.toPick
    ensures r.Ok? && !req.PickDiscoverChoices? ==> r.value.1.toDiscover == s.toDiscover
    ensures r.Ok? && !req.PickDraw? ==> r.value.1.toDraw == s.toDraw
    ensures r.Ok? && !req.PickCard? ==> r.value.1.toPick == s.toPick
  {
    match req
    case PickDraw(c) =>
      (match SC.PickDraw(s, c)
       case Err(f) => Err(f)
       case Ok((e, s')) => Ok((EntityAnswer(e), s')))
    case PickCard(task, cards) =>
      (match SC.PickCard(s, task, ctx, cards)
       case Err(f) => Err(f)
       case Ok((card, s')) =>
         assert card in cards by {
           var i: nat :| IsFirstMatch(CardNames(cards), s.toPick[0], i) && card == cards[i];
         }
         Ok((CardAnswer(card), s')))
    case PickDiscoverChoices(kind, cards) =>
      (match SC.PickDiscoverChoices(s, kind, ctx, cards)
       case Err(f) => Err(f)
       case Ok((card, s')) =>
         assert card in cards by {
           var i: nat :| IsFirstMatch(CardNames(cards), s.toDiscover[0], i) && card == cards[i];
         }
         Ok((CardAnswer(card), s')))
    case PickTarget(kind, entities) =>
      (match SC.PickTarget(kind, ctx, entities)
       case Err(f) => Err(f)
       case Ok(e) => Ok((EntityAnswer(e), s)))
    case _ => Err(Unimplemented(OpName(req)))
  }

  /** One call of the provider: its answer and the provider afterwards. */
  function Call(p: Provider, rng: nat -> nat, ctx: Context, req: Request): (r: Result<(Answer, Provider)>)
    ensures r.Ok? ==> Admissible(req, r.value.0)
    ensures r.Err? ==> r.failure.op == OpName(req)
    ensures p.Default? ==> (r.Ok? <==> Answerable(req))
    ensures p.Default? && r.Ok? ==> r.value.1 == Default(p.used + RollsUsed(req))
    ensures p.Scripted? ==> r.Ok? ==> r.value.1.Scripted?
    ensures p.Scripted? && !Overridden(req) ==> r == Err(Unimplemented(OpName(req)))
  {
    match p
    case Default(used) =>
      (match DefaultAnswer(rng, used, ctx, req)
       case Err(f) => Err(f)
       case Ok(a) => Ok((a, Default(used + RollsUsed(req)))))
    case Scripted(s) =>
      (match ScriptedAnswer(s, ctx, req)
       case Err(f) => Err(f)
       case Ok((a, s')) => Ok((a, Scripted(s'))))
  }

  /** The default policy does not read the acting or the related entity. */
  lemma DefaultIgnoresContext(rng: nat -> nat, next: nat, req: Request, ctx: Context, ctx': Context)
    ensures DefaultAnswer(rng, next, ctx, req) == DefaultAnswer(rng, next, ctx', req)
  {
  }

  /** Neither provider reads the acting or the related entity: the answer
      and the provider's next state are the same whatever they are. */
  lemma CallIgnoresContext(p: Provider, rng: nat -> nat, req: Request, ctx: Context, ctx': Context)
    ensures Call(p, rng, ctx, req) == Call(p, rng, ctx', req)
  {
    if p.Default? {
      DefaultIgnoresContext(rng, p.used, req, ctx, ctx');
    }
  }

  /** A draw from the default provider is the deck's top card and consumes
      no randomness: it is the same for every random source. */
  lemma DefaultDrawIsTopCard(used: nat, rng: nat -> nat, rng': nat -> nat, ctx: Context, c: Controller)
    requires |c.deck| > 0
    ensures Call(Default(used), rng, ctx, PickDraw(c)) == Ok((EntityAnswer(c.deck[|c.deck| - 1]), Default(used)))
    ensures Call(Default(used), rng, ctx, PickDraw(c)) == Call(Default(used), rng', ctx, PickDraw(c))
  {
  }
}
