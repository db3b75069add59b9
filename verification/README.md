# SabberStone decision providers in Dafny

SabberStone is a Hearthstone rules engine. Every non-deterministic choice
the engine makes goes through one object, the game's random controller
(`IRandomController`). Examples are the card a discover effect offers, the
damage a random-damage effect deals, the coin a chance step flips and the
order in which summoned copies enter. This project models three parts of
that seam:

- **The operation set and the default policy** (`IRandomController`,
  `RandomController`).
  - Selections answer one candidate of their list.
  - `CoinFlip`, `RandomDamage` and `GetNumber` answer bounded integers with
    .NET `Random.Next(min, maxExclusive)` semantics.
  - `PickDraw` answers the deck's top card without drawing randomness.
  - `SortSummonCopy` answers a reordering of the summoned entities.
- **`ChanceTask`**, the effect-pipeline step that flips one coin and either
  stops the pipeline or records the outcome in its flag.
- **`CustomRandomController`**, the scripted provider of the control tests.
  - It keeps three FIFO queues of card names: draws, picks and discovers.
  - Each scripted call answers the first candidate named like its queue's
    head and pops that head.
  - `PickTarget` answers the last candidate.

Randomness is an oracle. Each random call reads one raw natural number, the
*roll*. A provider bound to a game sees the stream `rng: nat -> nat`, and
the default provider remembers how many values it has consumed. The
contracts are therefore about membership, bounds, permutation, queue order
and how many random values a step reads, never about distribution.

Exceptions the C# code would throw are `Err` results. Each names the kind of
failure and the operation that raised it:

- an empty candidate list;
- `Random.Next` with `min > max`;
- an operation the scripted provider does not override;
- an exhausted queue;
- no candidate with the queued name.

Modules:

- `Outcome` holds `Option`, `Failure` and `Result`.
- `Entities` holds cards, entities, players and their decks, and the
  first-match search that LINQ's `Where(...).First()` performs.
- `DotNetRandom` models `Random.Next`, C#'s unchecked `int` wrap-around,
  `Util.Choose` and the stable `OrderBy` on random keys.
- `RandomController` has one function per default operation.
- `ScriptedController` has the overridden operations of the scripted
  provider.
- `Decisions` holds the requests, the answers and `Admissible`, the promise
  every answer keeps whichever provider gives it.
- `Provider` is one call of either provider, with its answer and the
  provider's next state.
- `ChanceTask` holds the constructor, `Process` and `Clone`.
- `ScriptedRuns` covers successive scripted calls as a control test makes
  them, such as four queued draws during the mulligan.

## Model

| member | source | states |
|---|---|---|
| DotNetRandom.Wrap32 | SabberStoneCore/src/Model/RandomController.cs:125 | unchecked `int` addition: in-range values are kept, and `int.MaxValue + 1` wraps to `int.MinValue` |
| DotNetRandom.Next | SabberStoneCore/src/Model/RandomController.cs:120 | `Random.Next(min, maxExclusive)` succeeds exactly when `min <= maxExclusive`; it answers a value in `[min, maxExclusive)`, or `min` for equal bounds; otherwise it fails with an argument-out-of-range error naming the operation |
| DotNetRandom.NextReachesEveryValue | SabberStoneCore/src/Model/RandomController.cs:120 | every value of a non-empty range is the answer for some roll |
| DotNetRandom.NextKey | SabberStoneCore/src/Model/RandomController.cs:135 | the parameterless `Random.Next()` key is non-negative and below `int.MaxValue` |
| DotNetRandom.Choose | SabberStoneCore/src/Model/RandomController.cs:43 | `Util.Choose` answers exactly when the list is non-empty, answers a member of the list, and otherwise fails as an empty candidate list |
| DotNetRandom.ChooseReachesEveryCandidate | SabberStoneCore/src/Model/RandomController.cs:43 | every candidate is chosen for some roll |
| DotNetRandom.Insert | SabberStoneCore/src/Model/RandomController.cs:135 | one insertion step of the stable key sort adds exactly the inserted element |
| DotNetRandom.InsertKeepsSorted | SabberStoneCore/src/Model/RandomController.cs:135 | inserting into a key-sorted sequence keeps it sorted by key |
| DotNetRandom.InsertAddsEntity | SabberStoneCore/src/Model/RandomController.cs:135 | an insertion adds exactly the inserted entity to the entities |
| DotNetRandom.SortByKey | SabberStoneCore/src/Model/RandomController.cs:135 | `OrderBy` on the drawn keys is a permutation of the keyed entities |
| DotNetRandom.SortByKeyIsSorted | SabberStoneCore/src/Model/RandomController.cs:135 | `OrderBy` puts the entities in non-decreasing key order |
| DotNetRandom.SortByKeyKeepsEntities | SabberStoneCore/src/Model/RandomController.cs:135 | `OrderBy` keeps the multiset of entities |
| DotNetRandom.OrderByKeys | SabberStoneCore/src/Model/RandomController.cs:135 | `entities.OrderBy(key).ToList()` has the input's length and the same multiset of entities |
| Entities.TopCard | SabberStoneCore/src/Model/RandomController.cs:59 | the top card exists exactly when the deck is non-empty, and it is the deck's last element |
| Entities.FirstMatch | SabberStoneCoreTest/src/Control/ControlTest.cs:403 | `Where(name == n).First()` gives the first position holding `n`, and there is none exactly when `n` is absent |
| RandomController.PickAdaptChoices | SabberStoneCore/src/Model/RandomController.cs:42-44 | an answer exists exactly when there are candidates; it is one of the cards; an empty list fails naming the operation |
| RandomController.PickBasicTotem | SabberStoneCore/src/Model/RandomController.cs:46 | as for `PickAdaptChoices`, over the totem names |
| RandomController.PickCard | SabberStoneCore/src/Model/RandomController.cs:48-50 | as for `PickAdaptChoices`, over the cards |
| RandomController.PickDiscoverChoices | SabberStoneCore/src/Model/RandomController.cs:52-55 | as for `PickAdaptChoices`, over the discover choices |
| RandomController.PickDraw | SabberStoneCore/src/Model/RandomController.cs:57-60 | takes no roll; answers the deck's top card exactly when the deck is non-empty, and otherwise fails |
| RandomController.PickEntourage | SabberStoneCore/src/Model/RandomController.cs:62-65 | as for `PickAdaptChoices`, over the entourage names |
| RandomController.PickHeroClass | SabberStoneCore/src/Model/RandomController.cs:67-70 | as for `PickAdaptChoices`, over the hero classes |
| RandomController.PickJoust | SabberStoneCore/src/Model/RandomController.cs:72-75 | answers a card of the player's deck exactly when the deck is non-empty |
| RandomController.PickMinion | SabberStoneCore/src/Model/RandomController.cs:77-80 | as for `PickAdaptChoices`, over the minion cards |
| RandomController.PickMinionNumber | SabberStoneCore/src/Model/RandomController.cs:82-85 | as for `PickAdaptChoices`, over the cards of the given cost |
| RandomController.PickPotionSpell | SabberStoneCore/src/Model/RandomController.cs:87-90 | as for `PickAdaptChoices`, over the potion spells |
| RandomController.PickRecruit | SabberStoneCore/src/Model/RandomController.cs:92-95 | as for `PickAdaptChoices`, over the minions in the deck |
| RandomController.PickReplace | SabberStoneCore/src/Model/RandomController.cs:97-100 | as for `PickAdaptChoices`, over the replacement cards |
| RandomController.PickSpell | SabberStoneCore/src/Model/RandomController.cs:102-104 | as for `PickAdaptChoices`, over the spells |
| RandomController.PickTarget | SabberStoneCore/src/Model/RandomController.cs:106-108 | as for `PickAdaptChoices`, over the candidate targets |
| RandomController.PickTransformMinion | SabberStoneCore/src/Model/RandomController.cs:110-113 | as for `PickAdaptChoices`, over the transformation cards |
| RandomController.UnusedPickCardAsString | SabberStoneCore/src/Model/RandomController.cs:115 | as for `PickAdaptChoices`, over the card names |
| RandomController.PickCardInContext | SabberStoneCore/src/Model/RandomController.cs:116 | as for `PickAdaptChoices`, for the `PickCard(string, List<Card>)` overload |
| RandomController.CoinFlip | SabberStoneCore/src/Model/RandomController.cs:118-121 | the flip is 0 or 1: the exclusive bound of `Next(0, 2)` rules out 2 |
| RandomController.CoinFlipHasBothOutcomes | SabberStoneCore/src/Model/RandomController.cs:120 | both 0 and 1 come up for some roll |
| RandomController.RandomDamage | SabberStoneCore/src/Model/RandomController.cs:123-126 | succeeds exactly when `-1 <= amount < int.MaxValue`. For `amount >= 0` the damage is in `[0, amount]`; `amount == -1` gives 0; a wrapped `amount + 1` fails as argument out of range |
| RandomController.RandomDamageReachesEveryValue | SabberStoneCore/src/Model/RandomController.cs:125 | every damage in `[0, amount]` is dealt for some roll |
| RandomController.GetNumber | SabberStoneCore/src/Model/RandomController.cs:128-131 | succeeds exactly when `Next(min, max + 1)` accepts the wrapped bound. For `min <= max` the number is in `[min, max]`; `max == min - 1` gives `min`; `max == int.MaxValue` fails unless `min == int.MinValue` |
| RandomController.GetNumberReachesEveryValue | SabberStoneCore/src/Model/RandomController.cs:130 | every number in `[min, max]` is returned for some roll |
| RandomController.SortSummonCopy | SabberStoneCore/src/Model/RandomController.cs:133-136 | the summon order has the same length and the same multiset of entities as its input |
| ScriptedController.Lookup | SabberStoneCoreTest/src/Control/ControlTest.cs:403 | the lazy `Where(...).First()` on a queue head. It answers exactly when the queue is non-empty and its head names a candidate, and the answer is the first such candidate. An empty pool fails as no match even with an empty queue; otherwise an empty queue fails as exhausted, and a missing name as no match |
| ScriptedController.PickDraw | SabberStoneCoreTest/src/Control/ControlTest.cs:399-410 | player 1 gets the first deck card named like the head of `cardsToDraw`, which is popped while the other queues stay as they were. Any other player gets `DeckZone[0]` with the script untouched, and an empty deck fails. Every answer is a card of the deck |
| ScriptedController.PickCard | SabberStoneCoreTest/src/Control/ControlTest.cs:412-417 | answers the first candidate named like the head of `cardsToPick`, exactly when there is one, and pops that head only. Otherwise it fails as exhausted or no match |
| ScriptedController.PickDiscoverChoices | SabberStoneCoreTest/src/Control/ControlTest.cs:419-424 | as `PickCard`, with `cardsToDiscover` |
| ScriptedController.PickTarget | SabberStoneCoreTest/src/Control/ControlTest.cs:426-429 | answers the last candidate, and fails on an empty list |
| Provider.DefaultCardAnswer | SabberStoneCore/src/Model/RandomController.cs:42-116 | a default card answer is admissible for its request, and exists exactly when the pool is non-empty |
| Provider.DefaultChoiceAnswer | SabberStoneCore/src/Model/RandomController.cs:46-115 | a default name, class or entity answer is admissible, and exists exactly when the pool is non-empty |
| Provider.DefaultNumberAnswer | SabberStoneCore/src/Model/RandomController.cs:118-131 | a default number answer is admissible, and exists exactly when the bounds are accepted |
| Provider.DefaultOrderAnswer | SabberStoneCore/src/Model/RandomController.cs:133-136 | the default summon order, keyed by the next `n` raw values, is a permutation of the entities |
| Provider.Rolls | SabberStoneCore/src/Model/RandomController.cs:135 | the `n` raw values from position `next` on, in order |
| Provider.DefaultAnswer | SabberStoneCore/src/Model/RandomController.cs:40-137 | the default policy answers exactly the answerable requests. Its answer is admissible, and a failure names the operation |
| Provider.ScriptedAnswer | SabberStoneCoreTest/src/Control/ControlTest.cs:393-430 | non-overridden operations fail as unimplemented, naming themselves. An answer is admissible, and each call leaves every queue but its own unchanged |
| Provider.Call | SabberStoneCore/src/Model/RandomController.cs:11-38 | any provider's answer is admissible and a failure names the operation. The default provider answers exactly the answerable requests and advances by the number of raw values the operation reads. The scripted provider stays scripted and fails unimplemented on operations it does not override |
| Provider.CallIgnoresContext | SabberStoneCore/src/Model/RandomController.cs:42-136 | neither provider reads the source or target: the answer and the next state are the same for any context |
| Provider.DefaultDrawIsTopCard | SabberStoneCore/src/Model/RandomController.cs:57-60 | a default draw answers the deck's top card, consumes no randomness, and is the same for every random source |
| ChanceTask.New | SabberStoneCore/src/Tasks/SimpleTasks/ChanceTask.cs:7-10 | the constructor stores `useFlag` and leaves the new ChanceTask unbound with no flag set |
| ChanceTask.NewDefaultsToNoFlag | SabberStoneCore/src/Tasks/SimpleTasks/ChanceTask.cs:7 | `UseFlag` defaults to false |
| ChanceTask.Resolve | SabberStoneCore/src/Tasks/SimpleTasks/ChanceTask.cs:18-24 | without the flag, outcome 0 completes and any other outcome stops, and the ChanceTask is left unchanged. With the flag the step completes and records `outcome != 0` |
| ChanceTask.Process | SabberStoneCore/src/Tasks/SimpleTasks/ChanceTask.cs:14-25 | the default provider always lets the step decide. The scripted provider fails it as an unimplemented `CoinFlip`. `UseFlag` and the context are kept, an unflagged task is unchanged, and a flagged one completes |
| ChanceTask.ProcessFlipsOnce | SabberStoneCore/src/Tasks/SimpleTasks/ChanceTask.cs:16-24 | `Process` reads exactly one raw value. Without the flag it completes exactly when that value's coin flip is 0; with the flag it records whether the flip was 1 |
| ChanceTask.Clone | SabberStoneCore/src/Tasks/SimpleTasks/ChanceTask.cs:27-32 | the clone has the same `UseFlag` and the base state `Copy` produced |
| ChanceTask.CloneProcessesAlike | SabberStoneCore/src/Tasks/SimpleTasks/ChanceTask.cs:27-32 | a clone keeps the configuration that decides the step. Whatever base `Copy` produces, the clone succeeds or fails as the original would, returns the same pipeline signal and leaves the provider in the same state |
| ScriptedRuns.RemoveFirst | SabberStoneCoreTest/src/Control/ControlTest.cs:129-138 | taking a drawn card out of the deck shortens it by one and removes exactly that card's name |
| ScriptedRuns.DrawOnce | SabberStoneCoreTest/src/Control/ControlTest.cs:399-410 | a draw for a player shrinks the deck by one and keeps the player |
| ScriptedRuns.DrawHead | SabberStoneCoreTest/src/Control/ControlTest.cs:401-405 | when player 1's deck holds the queued name, the draw succeeds with a card of that name, pops the name, and removes exactly one card of that name |
| ScriptedRuns.DrawQueued | SabberStoneCoreTest/src/Control/ControlTest.cs:129-138 | successive draws for player 1 are consumed first-in first-out. When the deck holds every queued name, the run succeeds and the drawn cards carry exactly the queued names in order. The deck shrinks by the queue's length and loses exactly those names, and the other queues are untouched. One more draw from a non-empty deck then fails as an exhausted script |
| ScriptedRuns.PickMany | SabberStoneCoreTest/src/Control/ControlTest.cs:412-417 | `n` picks from a pool answer `n` cards, all of the pool |
| ScriptedRuns.ScriptedPicksFollowQueue | SabberStoneCoreTest/src/Control/ControlTest.cs:412-417 | when the pool offers every queued name, as many picks as queued names answer exactly those names in order. The pick queue ends empty, and the draw and discover queues are untouched |
| ScriptedRuns.ScriptedPickAfterQueueFails | SabberStoneCoreTest/src/Control/ControlTest.cs:414 | one pick beyond the queue from a non-empty pool fails as an exhausted script |

## Left out

- Real randomness and its distribution (`Util.Random`, `Util.Choose`, `Util.RandomElement`, `DeckZone.Random`). Every random call reads an arbitrary roll, so the contracts speak of membership and bounds only. `Util.Choose` is not part of this model; it is assumed to index the list at some position and to fail on an empty list.
- `DeckZone.TopCard` is not part of this model. The top card is taken to be the last element of the deck, with the bottom at index 0.
- `ThrowRandomController`, the base class of the scripted provider, is not part of this model. Operations the scripted provider does not override fail as unimplemented, naming the operation.
- `SimpleTask` (`Source`, `Target`, `Flag`, `Copy`) is not part of this model. `ChanceTask.Clone` takes what `Copy` produces as a parameter and says nothing about whether a set flag is copied.
- `ChanceTask.Process` passes a provider failure on as its own failure, where C# would propagate the exception. The pipeline that runs tasks is not modelled.
- The game engine in the control test file: games, steps, mulligan, combat, zones, the card database and the `[Fact]` scenarios. The engine's draw is modelled only as far as the scripted runs need it (`ScriptedRuns.RemoveFirst`).
- SabberStoneCoreTest/src/Control/ControlTest.cs:256 scripts "Jade Idol" where the comment says "Aya Blackpaw" was meant. That scenario is part of the left-out game engine, so the mismatch is recorded here and not modelled.
- RandomController.SortSummonCopy: leaving the input list unchanged holds trivially here, because sequences are immutable values. The contract states the permutation; the key order is stated by `DotNetRandom.SortByKeyIsSorted`.
- Entity identity beyond name and `id`. Entities are compared as values.
- Concurrency between simulations sharing a provider.
- RandomController.GetNumber and RandomController.RandomDamage: the `max + 1` overflow at `int.MaxValue` is modelled as C#'s unchecked wrap-around rather than excluded by a precondition. The code does not guard against it, and the wrapped bound makes `Random.Next` fail.
