/**
 games/loveletter: whole matches. Seats are positions in PlayOrder, cards are 1 to 8, 0 is "no card". A step is one
 accepted move with all the engine runs around it: the move, Turn.OnMove, Game.EndIf, Turn.OnEnd, the turn order, and
 Turn.OnBegin for the player who is next. A fresh round is dealt from any permutation of the printed deck.
 */
module LoveLetter {
  import opened Engine
  import opened Shuffling
  import Z = Zones

  type Card = nat

  const GUARD := 1
  const PRIEST := 2
  const BARON := 3
  const HANDMAID := 4
  const PRINCE := 5
  const KING := 6
  const COUNTESS := 7
  const PRINCESS := 8

  /** PlayerState. */
  datatype Player = Player(
    hand: seq<Card>, discard: seq<Card>, tokens: int, alive: bool, safe: bool, seen: map<nat, Card>)

  /** The Love Letter G. */
  datatype Table = Table(
    players: seq<Player>, deck: seq<Card>, burned: Card, round: int, starter: nat, newRound: bool, winners: seq<nat>,
    matchOver: bool, matchWinners: seq<nat>, goal: int)

  datatype Move =
    | Guard(target: nat, named: int) | Priest(target: nat) | Baron(target: nat) | Handmaid | Prince(target: nat)
    | King(target: nat) | Countess | Princess
  {
    function Card(): Card {
      match this
      case Guard(_, _) => GUARD
      case Priest(_) => PRIEST
      case Baron(_) => BARON
      case Handmaid => HANDMAID
      case Prince(_) => PRINCE
      case King(_) => KING
      case Countess => COUNTESS
      case Princess => PRINCESS
    }
  }

  function Copies(c: Card, n: nat): (r: seq<Card>)
    ensures |r| == n && forall i | 0 <= i < n :: r[i] == c
  {
    seq(n, _ => c)
  }

  /** freshDeck. */
  function FreshDeck(): (r: seq<Card>)
    ensures |r| == 16 && forall c | c in r :: 1 <= c <= 8
  {
    Copies(GUARD, 5) + Copies(PRIEST, 2) + Copies(BARON, 2) + Copies(HANDMAID, 2) + Copies(PRINCE, 2) +
    Copies(KING, 1) + Copies(COUNTESS, 1) + Copies(PRINCESS, 1)
  }

  /** tokensToWin. */
  function Goal(n: int): int {
    if n == 2 then 7 else if n == 3 then 5 else 4
  }

  // ---- moves ------------------------------------------------------------------------------------------------

  /** requireCountessNotForced refuses. */
  predicate CountessForced(hand: seq<Card>, card: Card) {
    (card == PRINCE || card == KING) && COUNTESS in hand && (PRINCE in hand || KING in hand)
  }

  /** Whether the game accepts a move of the player on turn. */
  predicate Allowed(t: Table, actor: nat, move: Move)
    requires actor < |t.players|
  {
    var hand := t.players[actor].hand;
    && move.Card() in hand && !CountessForced(hand, move.Card())
    && (move.Guard? ==> 2 <= move.named <= 8)
    && (move.Guard? || move.Priest? || move.Baron? || move.Prince? || move.King? ==>
          && t.players[actor].alive && move.target < |t.players| && t.players[move.target].alive
          && (move.target == actor ==> move.Prince?))
  }

  function With(t: Table, seat: nat, p: Player): Table
    requires seat < |t.players|
  {
    t.(players := t.players[seat := p])
  }

  /** discardActor. */
  function Discarded(t: Table, actor: nat, card: Card): (r: Table)
    requires actor < |t.players|
    ensures |r.players| == |t.players|
  {
    var p := t.players[actor];
    With(t, actor, p.(hand := Z.Cut(p.hand, card), discard := p.discard + [card]))
  }

  /** eliminate. */
  function Eliminated(t: Table, seat: nat): Table
    requires seat < |t.players|
  {
    var p := t.players[seat];
    if !p.alive then t else With(t, seat, p.(alive := false, discard := p.discard + p.hand, hand := []))
  }

  function GuardEffect(t: Table, target: nat, named: int): Table
    requires target < |t.players|
  {
    var p := t.players[target];
    if !p.safe && p.hand != [] && p.hand[0] == named then Eliminated(t, target) else t
  }

  function PriestEffect(t: Table, actor: nat, target: nat): Table
    requires actor < |t.players| && target < |t.players|
  {
    var p := t.players[target];
    if p.safe || p.hand == [] then t
    else With(t, actor, t.players[actor].(seen := t.players[actor].seen[target := p.hand[0]]))
  }

  function BaronEffect(t: Table, actor: nat, target: nat): Table
    requires actor < |t.players| && target < |t.players|
  {
    var a, b := t.players[actor], t.players[target];
    if b.safe || a.hand == [] || b.hand == [] then t
    else if a.hand[0] > b.hand[0] then Eliminated(t, target)
    else if b.hand[0] > a.hand[0] then Eliminated(t, actor)
    else t
  }

  /** The target's hand goes to their discards. */
  function HandDiscarded(t: Table, target: nat): Table
    requires target < |t.players| && t.players[target].hand != []
  {
    var p := t.players[target];
    With(t, target, p.(hand := [], discard := p.discard + [p.hand[0]]))
  }

  /** The replacement card: off the deck, else the burned card, else none. */
  function Replaced(t: Table, target: nat): Table
    requires target < |t.players|
  {
    var p := t.players[target];
    if t.deck != [] then With(t, target, p.(hand := [t.deck[0]])).(deck := t.deck[1..])
    else if t.burned != 0 then With(t, target, p.(hand := [t.burned])).(burned := 0)
    else t
  }

  function PrinceEffect(t: Table, actor: nat, target: nat): Table
    requires target < |t.players|
  {
    var p := t.players[target];
    if (target != actor && p.safe) || p.hand == [] then t
    else if p.hand[0] == PRINCESS then Eliminated(HandDiscarded(t, target), target)
    else Replaced(HandDiscarded(t, target), target)
  }

  function KingEffect(t: Table, actor: nat, target: nat): Table
    requires actor < |t.players| && target < |t.players|
  {
    var a, b := t.players[actor], t.players[target];
    if b.safe then t else With(With(t, actor, a.(hand := b.hand)), target, b.(hand := a.hand))
  }

  /** The move itself. */
  function Played(t: Table, actor: nat, move: Move): Table
    requires actor < |t.players| && Allowed(t, actor, move)
  {
    var d := Discarded(t, actor, move.Card());
    match move
    case Guard(target, named) => GuardEffect(d, target, named)
    case Priest(target) => PriestEffect(d, actor, target)
    case Baron(target) => BaronEffect(d, actor, target)
    case Handmaid => With(d, actor, d.players[actor].(safe := true))
    case Prince(target) => PrinceEffect(d, actor, target)
    case King(target) => KingEffect(d, actor, target)
    case Countess => d
    case Princess => Eliminated(d, actor)
  }

  // ---- rounds -----------------------------------------------------------------------------------------------

  /** aliveSeats, up to a seat. */
  function AliveTo(players: seq<Player>, n: nat): (r: seq<nat>)
    requires n <= |players|
    ensures forall i: nat :: i in r <==> i < n && players[i].alive
  {
    if n == 0 then [] else AliveTo(players, n - 1) + if players[n - 1].alive then [n - 1] else []
  }

  predicate Seated(players: seq<Player>, seats: seq<nat>) {
    forall k | 0 <= k < |seats| :: seats[k] < |players|
  }

  function Alive(t: Table): (r: seq<nat>)
    ensures forall i: nat :: i in r <==> i < |t.players| && t.players[i].alive
    ensures Seated(t.players, r)
  {
    var r := AliveTo(t.players, |t.players|);
    assert forall k | 0 <= k < |r| :: r[k] in r;
    r
  }

  /** The highest first card among the listed seats. */
  function Highest(players: seq<Player>, seats: seq<nat>): (c: Card)
    requires Seated(players, seats)
    ensures forall s: nat | s in seats && s < |players| && players[s].hand != [] :: players[s].hand[0] <= c
    ensures c > 0 ==> exists s: nat | s in seats && s < |players| :: players[s].hand != [] && players[s].hand[0] == c
  {
    if seats == [] then 0
    else
      var n := |seats| - 1;
      var before := Highest(players, seats[..n]);
      var p := players[seats[n]];
      assert forall s :: s in seats <==> s in seats[..n] || s == seats[n];
      if p.hand != [] && p.hand[0] > before then p.hand[0] else before
  }

  /** The listed seats that show a given card. */
  function Showing(players: seq<Player>, seats: seq<nat>, card: Card): (r: seq<nat>)
    requires Seated(players, seats)
    ensures forall s: nat :: s in r <==> s in seats && s < |players| && players[s].hand != [] && players[s].hand[0] == card
  {
    if seats == [] then []
    else
      var n := |seats| - 1;
      var p := players[seats[n]];
      Showing(players, seats[..n], card) + if p.hand != [] && p.hand[0] == card then [seats[n]] else []
  }

  /** determineRoundWinners: the sole survivor, else everyone with the highest card. */
  function RoundWinners(t: Table): (r: seq<nat>)
    ensures forall s | s in r :: s < |t.players|
  {
    var alive := Alive(t);
    if |alive| == 1 then alive else Showing(t.players, alive, Highest(t.players, alive))
  }

  predicate RoundEnds(t: Table) {
    |Alive(t)| <= 1 || t.deck == []
  }

  function Awarded(players: seq<Player>, winners: seq<nat>): (r: seq<Player>)
    ensures |r| == |players|
    ensures forall i | 0 <= i < |players| ::
      r[i] == players[i].(tokens := players[i].tokens + if i in winners then 1 else 0)
  {
    seq(|players|, i requires 0 <= i < |players| => players[i].(tokens := players[i].tokens + if i in winners then 1 else 0))
  }

  function ReachedTo(players: seq<Player>, goal: int, n: nat): (r: seq<nat>)
    requires n <= |players|
    ensures forall i: nat :: i in r <==> i < n && players[i].tokens >= goal
  {
    if n == 0 then [] else ReachedTo(players, goal, n - 1) + if players[n - 1].tokens >= goal then [n - 1] else []
  }

  /** turnOnMove: award a finished round, and end the match or call for a new round. */
  function OnMove(t: Table): (r: Table)
    ensures |r.players| == |t.players|
  {
    if !RoundEnds(t) then t
    else
      var winners := RoundWinners(t);
      var players := Awarded(t.players, winners);
      var champions := t.matchWinners + ReachedTo(players, t.goal, |players|);
      var awarded := t.(players := players, winners := winners, matchWinners := champions);
      if champions != [] then awarded.(matchOver := true)
      else awarded.(starter := if winners == [] then 0 else winners[0], newRound := true)
  }

  /** Each seat gets the card its place in the deal gives it, and a clean slate. */
  function DealtHands(players: seq<Player>, mixed: seq<Card>): (r: seq<Player>)
    requires |mixed| > |players|
    ensures |r| == |players|
    ensures forall i | 0 <= i < |players| :: r[i] == Player([mixed[1 + i]], [], players[i].tokens, true, false, map[])
  {
    seq(|players|, i requires 0 <= i < |players| => Player([mixed[1 + i]], [], players[i].tokens, true, false, map[]))
  }

  /** resetRound on a shuffled deck: burn one, deal one each. */
  function Reset(t: Table, mixed: seq<Card>): Table
    requires |mixed| > |t.players|
  {
    t.(players := DealtHands(t.players, mixed), burned := mixed[0], deck := mixed[1 + |t.players|..])
  }

  /** turnOnEnd. */
  function OnEnd(t: Table, mixed: seq<Card>): (r: Table)
    requires |mixed| > |t.players|
    ensures |r.players| == |t.players|
  {
    if !t.newRound || t.matchOver then t else Reset(t.(round := t.round + 1), mixed)
  }

  /** loveLetterOrder.Next without a new round: the next seat still in, going round. */
  function NextAlive(players: seq<Player>, pos: nat, i: nat): (r: Option<nat>)
    requires pos < |players|
    ensures r.Some? ==> r.value < |players| && players[r.value].alive
    decreases |players| + 1 - i
  {
    if i > |players| then None
    else if players[(pos + i) % |players|].alive then Some((pos + i) % |players|)
    else NextAlive(players, pos, i + 1)
  }

  /** loveLetterOrder.Next. */
  function NextSeat(t: Table, pos: nat): (r: Option<nat>)
    requires pos < |t.players|
    ensures r.Some? ==> r.value < |t.players|
  {
    if t.newRound && t.starter < |t.players| then Some(t.starter) else NextAlive(t.players, pos, 1)
  }

  /** turnOnBegin: the player on turn loses protection and draws. */
  function OnBegin(t: Table, seat: nat): (r: Table)
    requires seat < |t.players|
    ensures |r.players| == |t.players|
  {
    var p := t.players[seat].(safe := false);
    if t.deck == [] then With(t, seat, p).(newRound := false)
    else With(t, seat, p.(hand := p.hand + [t.deck[0]])).(newRound := false, deck := t.deck[1..])
  }

  /** A match: its table and whose turn it is; nobody's once it is over. */
  datatype Match = Match(t: Table, current: nat, over: bool)

  /** One accepted move and everything around it. */
  function Step(m: Match, move: Move, mixed: seq<Card>): (r: Match)
    requires m.current < |m.t.players| && Allowed(m.t, m.current, move) && |mixed| == 16 && |m.t.players| <= 4
    ensures |r.t.players| == |m.t.players| && r.current < |r.t.players|
  {
    PlayedSize(m.t, m.current, move);
    var moved := OnMove(Played(m.t, m.current, move));
    if moved.matchOver then Match(moved, m.current, true)
    else
      var ended := OnEnd(moved, mixed);
      var next := NextSeat(ended, m.current);
      if next.None? then Match(ended, m.current, false) else Match(OnBegin(ended, next.value), next.value, false)
  }

  lemma PlayedSize(t: Table, actor: nat, move: Move)
    requires actor < |t.players| && Allowed(t, actor, move)
    ensures |Played(t, actor, move).players| == |t.players|
  {
  }

  /** setup and the first Turn.OnBegin. */
  function Start(n: nat, mixed: seq<Card>): (m: Match)
    requires 2 <= n <= 4 && |mixed| == 16
    ensures |m.t.players| == n && m.current == 0
  {
    var empty := Player([], [], 0, true, false, map[]);
    var t := Table(seq(n, _ => empty), [], 0, 1, 0, false, [], false, [], Goal(n));
    Match(OnBegin(Reset(t, mixed), 0), 0, false)
  }
}
