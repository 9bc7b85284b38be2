/** games/loveletter as it runs: each move and hook changes the players, the deck and the flags one after another. */
module LoveLetterTable {
  import opened Engine
  import L = LoveLetter
  import Z = Zones

  class Game {
    var players: seq<L.Player>
    var deck: seq<L.Card>
    var burned: L.Card
    var round: int
    var starter: nat
    var newRound: bool
    var winners: seq<nat>
    var matchOver: bool
    var matchWinners: seq<nat>
    var goal: int

    constructor (t: L.Table)
      ensures Value() == t
    {
      players, deck, burned, round, starter := t.players, t.deck, t.burned, t.round, t.starter;
      newRound, winners, matchOver, matchWinners, goal := t.newRound, t.winners, t.matchOver, t.matchWinners, t.goal;
    }

    function Value(): L.Table
      reads this
    {
      L.Table(players, deck, burned, round, starter, newRound, winners, matchOver, matchWinners, goal)
    }

    /** discardActor: it fails only when the card is not held. */
    method DiscardActor(actor: nat, card: L.Card) returns (ok: bool)
      requires actor < |players|
      modifies this
      ensures ok <==> card in old(players)[actor].hand
      ensures Value() == if ok then L.Discarded(old(Value()), actor, card) else old(Value())
    {
      var p := players[actor];
      for i := 0 to |p.hand|
        invariant card !in p.hand[..i] && Value() == old(Value())
      {
        if p.hand[i] == card {
          Z.CutAt(p.hand, card, i);
          players := players[actor := p.(hand := p.hand[..i] + p.hand[i + 1..], discard := p.discard + [card])];
          return true;
        }
      }
      assert p.hand[..|p.hand|] == p.hand;
      return false;
    }

    /** eliminate. */
    method Eliminate(seat: nat)
      requires seat < |players|
      modifies this
      ensures Value() == L.Eliminated(old(Value()), seat)
    {
      var p := players[seat];
      if !p.alive { return; }
      p := p.(alive := false);
      if p.hand != [] {
        p := p.(discard := p.discard + p.hand, hand := []);
      } else {
        assert p.discard + p.hand == p.discard;
      }
      players := players[seat := p];
    }

    /** preflightTargeted. */
    method Preflight(actor: nat, target: nat, card: L.Card, allowSelf: bool) returns (ok: bool)
      requires actor < |players|
      ensures ok <==> !L.CountessForced(players[actor].hand, card) && players[actor].alive &&
                      card in players[actor].hand && target < |players| && players[target].alive &&
                      (target == actor ==> allowSelf)
    {
      if L.CountessForced(players[actor].hand, card) { return false; }
      if !players[actor].alive { return false; }
      if card !in players[actor].hand { return false; }
      if target >= |players| { return false; }
      if !players[target].alive { return false; }
      if target == actor && !allowSelf { return false; }
      return true;
    }

    /** Any of the eight moves by the player on turn: refused moves change nothing, accepted ones do what the rules say. */
    method Play(actor: nat, move: L.Move) returns (ok: bool)
      requires actor < |players|
      modifies this
      ensures ok <==> L.Allowed(old(Value()), actor, move)
      ensures Value() == if ok then L.Played(old(Value()), actor, move) else old(Value())
    {
      hide L.Discarded, L.GuardEffect, L.PriestEffect, L.BaronEffect, L.PrinceEffect, L.KingEffect, L.Eliminated;
      match move
      case Guard(target, named) =>
        if named < 2 || named > 8 { return false; }
        ok := Preflight(actor, target, L.GUARD, false);
        if !ok { return; }
        ok := DiscardActor(actor, L.GUARD);
        GuardNow(target, named);
      case Priest(target) =>
        ok := Preflight(actor, target, L.PRIEST, false);
        if !ok { return; }
        ok := DiscardActor(actor, L.PRIEST);
        PriestNow(actor, target);
      case Baron(target) =>
        ok := Preflight(actor, target, L.BARON, false);
        if !ok { return; }
        ok := DiscardActor(actor, L.BARON);
        BaronNow(actor, target);
      case Handmaid =>
        ok := DiscardActor(actor, L.HANDMAID);
        if !ok { return; }
        players := players[actor := players[actor].(safe := true)];
      case Prince(target) =>
        ok := Preflight(actor, target, L.PRINCE, true);
        if !ok { return; }
        ok := DiscardActor(actor, L.PRINCE);
        PrinceNow(actor, target);
      case King(target) =>
        ok := Preflight(actor, target, L.KING, false);
        if !ok { return; }
        ok := DiscardActor(actor, L.KING);
        KingNow(actor, target);
      case Countess => ok := DiscardActor(actor, L.COUNTESS);
      case Princess =>
        ok := DiscardActor(actor, L.PRINCESS);
        if !ok { return; }
        Eliminate(actor);
    }

    method GuardNow(target: nat, named: int)
      requires target < |players|
      modifies this
      ensures Value() == L.GuardEffect(old(Value()), target, named)
    {
      if players[target].safe { return; }
      if players[target].hand != [] && players[target].hand[0] == named { Eliminate(target); }
    }

    method PriestNow(actor: nat, target: nat)
      requires actor < |players| && target < |players|
      modifies this
      ensures Value() == L.PriestEffect(old(Value()), actor, target)
    {
      if players[target].safe { return; }
      if players[target].hand != [] {
        players := players[actor := players[actor].(seen := players[actor].seen[target := players[target].hand[0]])];
      }
    }

    method BaronNow(actor: nat, target: nat)
      requires actor < |players| && target < |players|
      modifies this
      ensures Value() == L.BaronEffect(old(Value()), actor, target)
    {
      if players[target].safe { return; }
      if players[actor].hand == [] || players[target].hand == [] { return; }
      var a, b := players[actor].hand[0], players[target].hand[0];
      if a > b { Eliminate(target); } else if b > a { Eliminate(actor); }
    }

    method PrinceNow(actor: nat, target: nat)
      requires actor < |players| && target < |players|
      modifies this
      ensures Value() == L.PrinceEffect(old(Value()), actor, target)
    {
      if target != actor && players[target].safe { return; }
      var p := players[target];
      if p.hand == [] { return; }
      var discarded := p.hand[0];
      players := players[target := p.(hand := [], discard := p.discard + [discarded])];
      if discarded == L.PRINCESS {
        Eliminate(target);
        return;
      }
      var replacement: L.Card;
      if deck != [] {
        replacement, deck := deck[0], deck[1..];
      } else if burned != 0 {
        replacement, burned := burned, 0;
      } else {
        return;
      }
      players := players[target := players[target].(hand := [replacement])];
    }

    method KingNow(actor: nat, target: nat)
      requires actor < |players| && target < |players|
      modifies this
      ensures Value() == L.KingEffect(old(Value()), actor, target)
    {
      if players[target].safe { return; }
      var a, b := players[actor], players[target];
      players := players[actor := a.(hand := b.hand)];
      players := players[target := b.(hand := a.hand)];
    }

    /** aliveSeats. */
    method AliveSeats() returns (out: seq<nat>)
      ensures out == L.Alive(Value())
    {
      out := [];
      for i := 0 to |players|
        invariant out == L.AliveTo(players, i)
      {
        if players[i].alive { out := out + [i]; }
      }
    }

    /** The highest card shown among the listed seats. */
    method HighestShown(seats: seq<nat>) returns (highest: L.Card)
      requires L.Seated(players, seats)
      ensures highest == L.Highest(players, seats)
    {
      highest := 0;
      for i := 0 to |seats|
        invariant highest == L.Highest(players, seats[..i])
      {
        assert seats[..i + 1][..i] == seats[..i];
        var p := players[seats[i]];
        if p.hand != [] && p.hand[0] > highest { highest := p.hand[0]; }
      }
      assert seats[..|seats|] == seats;
    }

    /** determineRoundWinners. */
    method DetermineWinners(alive: seq<nat>) returns (out: seq<nat>)
      requires alive == L.Alive(Value())
      ensures out == L.RoundWinners(Value())
    {
      hide L.Highest, L.AliveTo;
      if |alive| == 1 { return alive; }
      var highest := HighestShown(alive);
      out := [];
      for i := 0 to |alive|
        invariant out == L.Showing(players, alive[..i], highest)
      {
        assert alive[..i + 1][..i] == alive[..i];
        var p := players[alive[i]];
        if p.hand != [] && p.hand[0] == highest { out := out + [alive[i]]; }
      }
      assert alive[..|alive|] == alive;
    }

    /** Each winner gets a token. */
    method Award(won: seq<nat>)
      modifies this`players
      ensures players == L.Awarded(old(players), won)
    {
      for i := 0 to |players|
        invariant |players| == |old(players)|
        invariant forall j | 0 <= j < |players| ::
          players[j] == if j < i then L.Awarded(old(players), won)[j] else old(players)[j]
      {
        if i in won { players := players[i := players[i].(tokens := players[i].tokens + 1)]; }
      }
    }

    /** Everyone with enough tokens is listed as a champion. */
    method ListChampions()
      modifies this`matchWinners
      ensures matchWinners == old(matchWinners) + L.ReachedTo(players, goal, |players|)
    {
      for i := 0 to |players|
        invariant matchWinners == old(matchWinners) + L.ReachedTo(players, goal, i)
      {
        if players[i].tokens >= goal { matchWinners := matchWinners + [i]; }
      }
    }

    /** turnOnMove. */
    method OnMove()
      modifies this
      ensures Value() == L.OnMove(old(Value()))
    {
      hide L.AliveTo, L.ReachedTo, L.Awarded;
      var alive := AliveSeats();
      if !(|alive| <= 1 || deck == []) { return; }
      var won := DetermineWinners(alive);
      Award(won);
      winners := won;
      ListChampions();
      if matchWinners != [] {
        matchOver := true;
        return;
      }
      starter, newRound := if won == [] then 0 else won[0], true;
    }

    /** turnOnEnd and resetRound, on the deck the shuffle returned. */
    method OnEnd(mixed: seq<L.Card>)
      requires |mixed| > |players|
      modifies this
      ensures Value() == L.OnEnd(old(Value()), mixed)
    {
      if !newRound || matchOver { return; }
      ghost var t := Value();
      round := round + 1;
      burned := mixed[0];
      var left := mixed[1..];
      for i := 0 to |players|
        invariant |players| == |t.players| && left == mixed[1 + i..]
        invariant Value() == t.(players := players, burned := mixed[0], round := t.round + 1)
        invariant forall j | 0 <= j < |players| ::
          players[j] == if j < i then L.DealtHands(t.players, mixed)[j] else t.players[j]
      {
        players := players[i := L.Player([left[0]], [], players[i].tokens, true, false, map[])];
        left := left[1..];
      }
      assert players == L.DealtHands(t.players, mixed);
      deck := left;
    }

    /** loveLetterOrder.Next. */
    method NextSeat(pos: nat) returns (next: Option<nat>)
      requires pos < |players|
      ensures next == L.NextSeat(Value(), pos)
    {
      if newRound && starter < |players| { return Some(starter); }
      for i := 1 to |players| + 1
        invariant L.NextAlive(players, pos, i) == L.NextAlive(players, pos, 1)
      {
        if players[(pos + i) % |players|].alive { return Some((pos + i) % |players|); }
      }
      return None;
    }

    /** turnOnBegin. */
    method OnBegin(seat: nat)
      requires seat < |players|
      modifies this
      ensures Value() == L.OnBegin(old(Value()), seat)
    {
      newRound := false;
      players := players[seat := players[seat].(safe := false)];
      if deck == [] { return; }
      players := players[seat := players[seat].(hand := players[seat].hand + [deck[0]])];
      deck := deck[1..];
    }

    /** One move of the player on turn, with everything the engine runs around it. */
    method Move(current: nat, move: L.Move, mixed: seq<L.Card>) returns (ok: bool, next: nat, over: bool)
      requires current < |players| <= 4 && |mixed| == 16
      modifies this
      ensures ok <==> L.Allowed(old(Value()), current, move)
      ensures ok ==> L.Match(Value(), next, over) == L.Step(L.Match(old(Value()), current, false), move, mixed)
      ensures !ok ==> Value() == old(Value())
    {
      hide L.Allowed, L.Played, L.OnMove, L.OnEnd, L.NextSeat, L.OnBegin;
      next, over := current, false;
      ghost var t := Value();
      ok := Play(current, move);
      if !ok { return; }
      L.PlayedSize(t, current, move);
      OnMove();
      if matchOver { return true, current, true; }
      OnEnd(mixed);
      var seat := NextSeat(current);
      if seat.None? { return true, current, false; }
      OnBegin(seat.value);
      next := seat.value;
    }
  }

}
