/** `CustomRandomController`: the scripted provider of the control tests.

    It keeps three FIFO queues of card names, one per scripted operation.
    A scripted call answers the first candidate whose name is the head of
    its queue and pops that head; every other queue is left alone. The
    lookup is LINQ's lazy `Where(...).First()`, so the queue head is only
    read when there is a candidate to compare it with: an empty pool fails
    in `First()` whether or not the queue is empty. Operations the class
    does not override fail as unimplemented (see `Provider`). */
module ScriptedController {
  import opened Outcome
  import opened Entities

  /** The three queues: `cardsToDraw`, `cardsToPick`, `cardsToDiscover`. */
  datatype Script = Script(toDraw: seq<string>, toPick: seq<string>, toDiscover: seq<string>)

  /** `cards.Where(card => card.Name == queue[0]).First()`: the position of
      the answer, or why there is none. */
  function Lookup(op: string, queue: seq<string>, names: seq<string>): (r: Result<nat>)
    ensures r.Ok? <==> |queue| > 0 && queue[0] in names
    ensures r.Ok? ==> IsFirstMatch(names, queue[0], r.value)
    ensures |names| == 0 ==> r == Err(NoMatch(op))
    ensures |names| > 0 && |queue| == 0 ==> r == Err(ExhaustedScript(op))
    ensures |names| > 0 && |queue| > 0 && queue[0] !in names ==> r == Err(NoMatch(op))
  {
    if |names| == 0 then Err(NoMatch(op))
    else if |queue| == 0 then Err(ExhaustedScript(op))
    else match FirstMatch(names, queue[0])
      case None => Err(NoMatch(op))
      case Some(i) => Ok(i)
  }

  /** Player 1 draws the first deck card named like the head of
      `cardsToDraw` and pops it; any other player draws `DeckZone[0]` and
      the script is untouched. */
  function PickDraw(s: Script, c: Controller): (r: Result<(Playable, Script)>)
    ensures c.playerId == 1 ==> (r.Ok? <==> |s.toDraw| > 0 && s.toDraw[0] in NamesOf(c.deck))
    ensures c.playerId == 1 && r.Ok? ==>
      exists i: nat :: IsFirstMatch(NamesOf(c.deck), s.toDraw[0], i) && r.value.0 == c.deck[i]
    ensures c.playerId == 1 && r.Ok? ==>
      r.value.1 == Script(s.toDraw[1..], s.toPick, s.toDiscover)
    ensures c.playerId != 1 ==> (r.Ok? <==> |c.deck| > 0)
    ensures c.playerId != 1 && r.Ok? ==> r.value == (c.deck[0], s)
    ensures c.playerId != 1 && r.Err? ==> r.failure == EmptyCandidates("PickDraw")
    ensures r.Ok? ==> r.value.0 in c.deck
  {
    if c.playerId == 1 then
      match Lookup("PickDraw", s.toDraw, NamesOf(c.deck))
      case Err(f) => Err(f)
      case Ok(i) => Ok((c.deck[i], s.(toDraw := s.toDraw[1..])))
    else if |c.deck| == 0 then Err(EmptyCandidates("PickDraw"))
    else Ok((c.deck[0], s))
  }

  /** `PickCard(RandomCardTask, ...)` answers from `cardsToPick`. */
  function PickCard(s: Script, task: EngineRef, ctx: Context, cards: seq<Card>): (r: Result<(Card, Script)>)
    ensures r.Ok? <==> |s.toPick| > 0 && s.toPick[0] in CardNames(cards)
    ensures r.Ok? ==> exists i: nat :: IsFirstMatch(CardNames(cards), s.toPick[0], i) && r.value.0 == cards[i]
    ensures r.Ok? ==> r.value.1 == Script(s.toDraw, s.toPick[1..], s.toDiscover)
    ensures r.Err? ==> r.failure in {ExhaustedScript("PickCard"), NoMatch("PickCard")}
  {
    match Lookup("PickCard", s.toPick, CardNames(cards))
    case Err(f) => Err(f)
    case Ok(i) => Ok((cards[i], s.(toPick := s.toPick[1..])))
  }

  /** `PickDiscoverChoices` answers from `cardsToDiscover`. */
  function PickDiscoverChoices(s: Script, kind: Tag, ctx: Context, cards: seq<Card>): (r: Result<(Card, Script)>)
    ensures r.Ok? <==> |s.toDiscover| > 0 && s.toDiscover[0] in CardNames(cards)
    ensures r.Ok? ==> exists i: nat :: IsFirstMatch(CardNames(cards), s.toDiscover[0], i) && r.value.0 == cards[i]
    ensures r.Ok? ==> r.value.1 == Script(s.toDraw, s.toPick, s.toDiscover[1..])
    ensures r.Err? ==> r.failure in {ExhaustedScript("PickDiscoverChoices"), NoMatch("PickDiscoverChoices")}
  {
    match Lookup("PickDiscoverChoices", s.toDiscover, CardNames(cards))
    case Err(f) => Err(f)
    case Ok(i) => Ok((cards[i], s.(toDiscover := s.toDiscover[1..])))
  }

  /** `PickTarget` is not scripted: it answers the last candidate. */
  function PickTarget(kind: Tag, ctx: Context, entities: seq<Playable>): (r: Result<Playable>)
    ensures r.Ok? <==> |entities| > 0
    ensures r.Ok? ==> r.value == entities[|entities| - 1]
    ensures r.Err? ==> r.failure == EmptyCandidates("PickTarget")
  {
    if |entities| == 0 then Err(EmptyCandidates("PickTarget"))
    else Ok(entities[|entities| - 1])
  }
}
