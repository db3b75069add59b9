/** Successive calls to the scripted provider, as a control test makes
    them: a run of draws for player 1, each removing the drawn card from the
    deck as the engine's draw does, and a run of picks from one pool.

    `DrawQueued` and the pick lemmas show the queues are consumed first-in
    first-out: a run as long as the queue answers exactly the queued names
    in order, leaves the other queues alone, and the next call fails because
    the queue is exhausted. */
module ScriptedRuns {
  import opened Outcome
  import opened Entities
  import opened ScriptedController

  /** `deck` without the first occurrence of `e`. */
  function RemoveFirst(deck: seq<Playable>, e: Playable): (r: seq<Playable>)
    requires e in deck
    ensures |r| == |deck| - 1
    ensures multiset(NamesOf(r)) == multiset(NamesOf(deck)) - multiset{e.card.name}
  {
    if deck[0] == e then
      assert NamesOf(deck) == [e.card.name] + NamesOf(deck[1..]);
      deck[1..]
    else
      var rest := RemoveFirst(deck[1..], e);
      assert NamesOf(deck) == [deck[0].card.name] + NamesOf(deck[1..]);
      assert NamesOf([deck[0]] + rest) == [deck[0].card.name] + NamesOf(rest);
      [deck[0]] + rest
  }

  /** What a run of draws leaves behind. */
  datatype Drawn = Drawn(cards: seq<Playable>, script: Script, player: Controller)

  /** One draw as the engine makes it: ask the provider, then take the
      drawn card out of the deck. */
  function DrawOnce(s: Script, c: Controller): (r: Result<(Playable, Script, Controller)>)
    ensures r.Ok? ==> |r.value.2.deck| == |c.deck| - 1 && r.value.2.playerId == c.playerId
  {
    match PickDraw(s, c)
    case Err(f) => Err(f)
    case Ok((e, s')) => Ok((e, s', c.(deck := RemoveFirst(c.deck, e))))
  }

  /** One scripted draw for player 1 when the deck holds the queued name:
      it returns a card of that name, pops the name, and the deck loses
      exactly one card of that name. */
  lemma {:induction false} DrawHead(s: Script, c: Controller)
    requires c.playerId == 1 && |s.toDraw| > 0
    requires s.toDraw[0] in multiset(NamesOf(c.deck))
    ensures DrawOnce(s, c).Ok?
    ensures DrawOnce(s, c).value.0.card.name == s.toDraw[0]
    ensures DrawOnce(s, c).value.1 == Script(s.toDraw[1..], s.toPick, s.toDiscover)
    ensures multiset(NamesOf(DrawOnce(s, c).value.2.deck))
         == multiset(NamesOf(c.deck)) - multiset{s.toDraw[0]}
  {
    var names := NamesOf(c.deck);
    assert s.toDraw[0] in names;
    var i := FirstMatch(names, s.toDraw[0]).value;
    assert Lookup("PickDraw", s.toDraw, names) == Ok(i);
  }

  /** If a deck holds every queued name, what is left of it after the head
      is drawn holds every name still queued. */
  lemma TailStillCovered(queue: seq<string>, names: multiset<string>)
    requires |queue| > 0 && multiset(queue) <= names
    ensures multiset(queue[1..]) <= names - multiset{queue[0]}
  {
    assert queue == [queue[0]] + queue[1..];
  }

  /** A scripted draw for player 1 that succeeds had a queued name the deck
      holds. */
  lemma DrawNeedsQueuedName(s: Script, c: Controller)
    requires c.playerId == 1 && DrawOnce(s, c).Ok?
    ensures |s.toDraw| > 0 && s.toDraw[0] in multiset(NamesOf(c.deck))
  {
    assert PickDraw(s, c).Ok?;
  }

  /** With nothing queued, player 1's draw from a non-empty deck fails as
      an exhausted script. */
  lemma DrawFromEmptyQueue(s: Script, c: Controller)
    requires c.playerId == 1 && |s.toDraw| == 0 && |c.deck| > 0
    ensures DrawOnce(s, c) == Err(ExhaustedScript("PickDraw"))
  {
    assert PickDraw(s, c) == Err(ExhaustedScript("PickDraw"));
  }

  /** The deck holds every name queued for drawing. */
  ghost predicate Covered(s: Script, c: Controller)
  {
    multiset(s.toDraw) <= multiset(NamesOf(c.deck))
  }

  /** What holds after player 1 has drawn `cards`, starting from script `s`
      and player `c`, and is left with `script` and `player`. */
  ghost predicate DrawnSoFar(s: Script, c: Controller, cards: seq<Playable>, script: Script, player: Controller)
  {
    && |cards| <= |s.toDraw|
    && script == Script(s.toDraw[|cards|..], s.toPick, s.toDiscover)
    && (forall j :: 0 <= j < |cards| ==> cards[j].card.name == s.toDraw[j])
    && player.playerId == 1
    && |player.deck| == |c.deck| - |cards|
    && (Covered(s, c) ==>
          && Covered(script, player)
          && multiset(NamesOf(player.deck)) == multiset(NamesOf(c.deck)) - multiset(s.toDraw[..|cards|]))
  }

  /** Drawing the queue's next name keeps the deck covering the rest of the
      queue and removes exactly that name from it. */
  lemma CoverShrinks(queue: seq<string>, k: nat, start: multiset<string>, before: multiset<string>, after: multiset<string>)
    requires k < |queue| && multiset(queue[k..]) <= before
    requires before == start - multiset(queue[..k])
    requires after == before - multiset{queue[k]}
    ensures multiset(queue[k + 1..]) <= after
    ensures after == start - multiset(queue[..k + 1])
  {
    TailStillCovered(queue[k..], before);
    assert queue[k..][1..] == queue[k + 1..];
    assert queue[..k + 1] == queue[..k] + [queue[k]];
  }

  /** Drawing a card with the queue's next name, popping the name and
      losing that card from the deck extends the run. */
  lemma ExtendRun(s: Script, c: Controller, cards: seq<Playable>, script: Script, player: Controller,
                  e: Playable, script': Script, player': Controller)
    requires DrawnSoFar(s, c, cards, script, player) && |script.toDraw| > 0
    requires e.card.name == script.toDraw[0]
    requires script' == Script(script.toDraw[1..], script.toPick, script.toDiscover)
    requires player'.playerId == 1 && |player'.deck| == |player.deck| - 1
    requires multiset(NamesOf(player'.deck)) == multiset(NamesOf(player.deck)) - multiset{script.toDraw[0]}
    ensures DrawnSoFar(s, c, cards + [e], script', player')
  {
    var k := |cards|;
    assert s.toDraw[k..][1..] == s.toDraw[k + 1..];
    if Covered(s, c) {
      CoverShrinks(s.toDraw, k, multiset(NamesOf(c.deck)),
                   multiset(NamesOf(player.deck)), multiset(NamesOf(player'.deck)));
    }
  }

  /** One more successful draw extends the run by the queue's next name. */
  lemma DrawnSoFarStep(s: Script, c: Controller, cards: seq<Playable>, script: Script, player: Controller)
    requires DrawnSoFar(s, c, cards, script, player) && DrawOnce(script, player).Ok?
    ensures |script.toDraw| > 0
    ensures DrawnSoFar(s, c, cards + [DrawOnce(script, player).value.0],
                       DrawOnce(script, player).value.1, DrawOnce(script, player).value.2)
  {
    DrawNeedsQueuedName(script, player);
    DrawHead(script, player);
    var d := DrawOnce(script, player).value;
    ExtendRun(s, c, cards, script, player, d.0, d.1, d.2);
  }

  /** While the deck holds every queued name, the next draw succeeds. */
  lemma CoveredDrawSucceeds(script: Script, player: Controller)
    requires player.playerId == 1 && |script.toDraw| > 0 && Covered(script, player)
    ensures DrawOnce(script, player).Ok?
  {
    DrawHead(script, player);
  }

  /** Player 1 draws until `cardsToDraw` is used up, one scripted draw at a
      time. The queue is consumed first-in first-out: when the deck holds
      every queued name the run succeeds, the drawn cards carry exactly the
      queued names in order, the deck loses exactly those names, the other
      queues are untouched, and one more draw from what is left of the deck
      fails because the script is exhausted rather than with a silent
      default. */
  method DrawQueued(s: Script, c: Controller) returns (r: Result<Drawn>)
    requires c.playerId == 1
    ensures Covered(s, c) ==> r.Ok?
    ensures r.Ok? ==> NamesOf(r.value.cards) == s.toDraw
    ensures r.Ok? ==> r.value.script == Script([], s.toPick, s.toDiscover)
    ensures r.Ok? ==> r.value.player.playerId == 1
    ensures r.Ok? ==> |r.value.player.deck| == |c.deck| - |s.toDraw|
    ensures r.Ok? && Covered(s, c) ==>
      multiset(NamesOf(r.value.player.deck)) == multiset(NamesOf(c.deck)) - multiset(s.toDraw)
    ensures r.Ok? && |r.value.player.deck| > 0 ==>
      DrawOnce(r.value.script, r.value.player) == Err(ExhaustedScript("PickDraw"))
  {
    var cards: seq<Playable> := [];
    var script := s;
    var player := c;
    while |script.toDraw| > 0
      invariant DrawnSoFar(s, c, cards, script, player)
      decreases |script.toDraw|
    {
      var step := DrawOnce(script, player);
      if step.Err? {
        if Covered(s, c) {
          CoveredDrawSucceeds(script, player);
        }
        return Err(step.failure);
      }
      DrawnSoFarStep(s, c, cards, script, player);
      cards := cards + [step.value.0];
      script := step.value.1;
      player := step.value.2;
    }
    assert |cards| == |s.toDraw| && s.toDraw[..|cards|] == s.toDraw;
    if |player.deck| > 0 {
      DrawFromEmptyQueue(script, player);
    }
    r := Ok(Drawn(cards, script, player));
  }

  /** What a run of picks leaves behind. */
  datatype Picked = Picked(cards: seq<Card>, script: Script)

  /** `n` calls in a row of the scripted `PickCard`, each offered `pool`. */
  function PickMany(s: Script, pool: seq<Card>, n: nat): (r: Result<Picked>)
    ensures r.Ok? ==> |r.value.cards| == n
    ensures r.Ok? ==> forall card :: card in r.value.cards ==> card in pool
    decreases n
  {
    if n == 0 then Ok(Picked([], s))
    else
      match PickCard(s, EngineRef(0), Context(NoEntity, NoEntity), pool)
      case Err(f) => Err(f)
      case Ok((card, s')) =>
        assert card in pool by {
          var i: nat :| IsFirstMatch(CardNames(pool), s.toPick[0], i) && card == pool[i];
        }
        match PickMany(s', pool, n - 1)
        case Err(f) => Err(f)
        case Ok(p) => Ok(Picked([card] + p.cards, p.script))
  }

  /** Picks follow `cardsToPick` in order: when the pool offers every queued
      name, as many picks as queued names return cards with exactly those
      names and empty the pick queue; the draw and discover queues are
      untouched. */
  lemma {:induction false} ScriptedPicksFollowQueue(s: Script, pool: seq<Card>)
    requires forall name :: name in s.toPick ==> name in CardNames(pool)
    ensures PickMany(s, pool, |s.toPick|).Ok?
    ensures CardNames(PickMany(s, pool, |s.toPick|).value.cards) == s.toPick
    ensures PickMany(s, pool, |s.toPick|).value.script == Script(s.toDraw, [], s.toDiscover)
    decreases |s.toPick|
  {
    if |s.toPick| > 0 {
      var h := s.toPick[0];
      var r := PickCard(s, EngineRef(0), Context(NoEntity, NoEntity), pool);
      var i: nat :| IsFirstMatch(CardNames(pool), h, i) && r.value.0 == pool[i];
      var s' := r.value.1;
      ScriptedPicksFollowQueue(s', pool);
      var p := PickMany(s', pool, |s'.toPick|).value;
      assert CardNames([pool[i]] + p.cards) == [h] + CardNames(p.cards);
      assert s.toPick == [h] + s.toPick[1..];
    }
  }

  /** After the queued picks, one more pick fails as an exhausted script. */
  lemma {:induction false} ScriptedPickAfterQueueFails(s: Script, pool: seq<Card>)
    requires forall name :: name in s.toPick ==> name in CardNames(pool)
    requires |pool| > 0
    ensures PickMany(s, pool, |s.toPick| + 1) == Err(ExhaustedScript("PickCard"))
    decreases |s.toPick|
  {
    if |s.toPick| > 0 {
      var r := PickCard(s, EngineRef(0), Context(NoEntity, NoEntity), pool);
      ScriptedPickAfterQueueFails(r.value.1, pool);
    }
  }
}
