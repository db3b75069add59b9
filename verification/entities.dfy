/** The game objects a decision is made about. Only what the decision
    providers look at is kept: a card's name, an entity's identity and card,
    and a player's deck. */
module Entities {
  import opened Outcome

  /** A card definition; the providers only ever compare names. */
  datatype Card = Card(name: string)

  /** A card instance in play or in a zone (`IPlayable`, and `Minion`,
      which is one). Two copies of the same card differ by `id`. */
  datatype Playable = Playable(id: nat, card: Card)

  /** A player (`Controller`) with the cards of its deck zone, bottom first. */
  datatype Controller = Controller(playerId: int, deck: seq<Playable>)

  /** The hero classes a hero-class pick chooses among. */
  datatype CardClass =
    | DEATHKNIGHT | DRUID | HUNTER | MAGE | PALADIN | PRIEST | ROGUE | SHAMAN | WARLOCK | WARRIOR

  /** A reference to a game entity that a request mentions as its source or
      target; `NoEntity` stands for a null reference. */
  datatype EntityRef = NoEntity | EntityRef(id: nat)

  /** The acting and the related entity passed along with most requests. */
  datatype Context = Context(source: EntityRef, target: EntityRef)

  /** A reference to an engine object that a request passes for information
      only: the calling task (`RandomCardTask`, `RandomMinionTask`) or a zone. */
  datatype EngineRef = EngineRef(id: nat)

  /** Enumerated tags (`EntityType`, `DiscoverType`) passed for information only. */
  type Tag = int

  /** The top card of a deck, the one a draw removes: the deck keeps its
      bottom at index 0, so the top is the last element. */
  function TopCard(deck: seq<Playable>): (r: Option<Playable>)
    ensures r.None? <==> |deck| == 0
    ensures r.Some? ==> r.value == deck[|deck| - 1] && r.value in deck
  {
    if |deck| == 0 then None else Some(deck[|deck| - 1])
  }

  /** The names of the cards behind a sequence of entities. */
  function NamesOf(entities: seq<Playable>): (r: seq<string>)
    ensures |r| == |entities|
    ensures forall i :: 0 <= i < |entities| ==> r[i] == entities[i].card.name
  {
    if |entities| == 0 then [] else [entities[0].card.name] + NamesOf(entities[1..])
  }

  /** The names of a sequence of cards. */
  function CardNames(cards: seq<Card>): (r: seq<string>)
    ensures |r| == |cards|
    ensures forall i :: 0 <= i < |cards| ==> r[i] == cards[i].name
  {
    if |cards| == 0 then [] else [cards[0].name] + CardNames(cards[1..])
  }

  /** `i` is the position of the first name equal to `name`. */
  predicate IsFirstMatch(names: seq<string>, name: string, i: nat)
  {
    i < |names| && names[i] == name && forall j :: 0 <= j < i ==> names[j] != name
  }

  /** The position LINQ's `Where(x => x.Name == name).First()` selects, or
      `None` where `First()` would throw. */
  function FirstMatch(names: seq<string>, name: string): (r: Option<nat>)
    ensures r.Some? ==> IsFirstMatch(names, name, r.value)
    ensures r.None? <==> name !in names
  {
    if |names| == 0 then None
    else if names[0] == name then Some(0)
    else match FirstMatch(names[1..], name)
      case None => None
      case Some(i) => Some(i + 1)
  }
}
