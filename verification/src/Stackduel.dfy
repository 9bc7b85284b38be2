/**
 games/stackduel: the effect stack, the priority window, the zones and the mana pools composed into one game. The functions
 say what each move leaves; StackduelRuns proves what holds between moves.

 The engine admits `respond` and `pass` only from a player in the window's stage, and with exclusive stages `cast` and
 `endTurn` only from the player on turn; Priority.OnlyHolderMayMove shows that the only player in the stage is the holder.
 */
module Stackduel {
  import opened Engine
  import opened Entities
  import opened Effects
  import P = Priority
  import Z = Zones

  datatype Def = Sunbolt | Emberfall | Moonveil | Lunartide | Eclipse | Glowmoth | Duskwisp | Starling

  /** The code side of a card: cost, speed and the effect it pushes. */
  datatype Spec = Spec(sun: int, moon: int, generic: int, instant: bool, kind: Kind, amount: int)

  function SpecOf(d: Def): Spec {
    match d
    case Sunbolt => Spec(1, 0, 0, true, Damage, 2)
    case Emberfall => Spec(2, 0, 1, false, Damage, 4)
    case Moonveil => Spec(0, 1, 0, true, Counter, 0)
    case Lunartide => Spec(0, 1, 0, true, GainLife, 2)
    case Eclipse => Spec(1, 1, 0, false, Drain, 2)
    case Glowmoth => Spec(1, 0, 0, false, Summon, 0)
    case Duskwisp => Spec(0, 1, 0, false, Summon, 0)
    case Starling => Spec(0, 0, 2, false, Summon, 0)
  }

  const STACK := "stack"
  const RESPOND := "respond"
  const MANA := 3

  function HandOf(p: Pid): Z.ZoneName { "hand:" + p }
  function DeckOf(p: Pid): Z.ZoneName { "deck:" + p }
  function FieldOf(p: Pid): Z.ZoneName { "battlefield:" + p }
  function GraveOf(p: Pid): Z.ZoneName { "graveyard:" + p }

  /** The stackduel G and the part of the context it reads. `moths` are the bound Glowmoth abilities, in binding order. */
  datatype Duel = Duel(
    board: Z.Board, def: map<EntityID, Def>, owner: map<EntityID, Pid>, window: P.Window, queue: Queue,
    staged: seq<Effect>, life: map<Pid, int>, sun: map<Pid, int>, moon: map<Pid, int>, moths: seq<EntityID>,
    order: seq<Pid>, pos: nat)

  predicate TwoPlayers(g: Duel) {
    |g.order| == 2 && g.order[0] != g.order[1] && g.order[0] != "" && g.order[1] != "" && g.pos < 2
  }

  function Current(g: Duel): Pid
    requires TwoPlayers(g)
  {
    g.order[g.pos]
  }

  /** apnap: the player on turn first. */
  function Apnap(g: Duel): seq<Pid>
    requires TwoPlayers(g)
  {
    [g.order[g.pos], g.order[1 - g.pos]]
  }

  function Level(m: map<Pid, int>, p: Pid): int {
    if p in m then m[p] else 0
  }

  // ---- casting ----------------------------------------------------------------------------------------------

  function Least(a: int, b: int): int { if a < b then a else b }

  /** Basket.Pay or PayWithGeneric from the sun and moon pools, sun absorbing generic mana first. */
  function Paid(sun: int, moon: int, s: Spec): Option<(int, int)> {
    if (s.sun > 0 && sun < s.sun) || (s.moon > 0 && moon < s.moon) then None
    else
      var room := if sun - s.sun > 0 then sun - s.sun else 0;
      var fromSun := Least(s.generic, room);
      var rest := s.generic - fromSun;
      if rest > 0 && moon - s.moon < rest then None else Some((sun - s.sun - fromSun, moon - s.moon - rest))
  }

  /** Whether a player may put a card on the stack now. */
  predicate Castable(g: Duel, pid: Pid, id: EntityID, response: bool) {
    && id in g.board.at && g.board.at[id] == HandOf(pid) && id in g.owner && g.owner[id] == pid && id in g.def
    && (response ==> SpecOf(g.def[id]).instant)
    && (SpecOf(g.def[id]).kind == Counter ==> g.queue.pending != [])
    && Paid(Level(g.sun, pid), Level(g.moon, pid), SpecOf(g.def[id])).Some?
    && Z.MoveError(g.board, id, STACK).None?
  }

  /** putOnStack. */
  function OnStack(g: Duel, pid: Pid, id: EntityID, response: bool): (r: Duel)
    requires Castable(g, pid, id, response)
    ensures r.order == g.order && r.pos == g.pos
  {
    var s := SpecOf(g.def[id]);
    var (sun, moon) := Paid(Level(g.sun, pid), Level(g.moon, pid), s).value;
    var target := if s.kind == Counter then g.queue.pending[|g.queue.pending| - 1].id else 0;
    g.(sun := g.sun[pid := sun], moon := g.moon[pid := moon], board := Z.Moved(g.board, id, STACK),
       queue := Pushed(g.queue, Effect(0, id, pid, s.kind, s.amount, false, target)))
  }

  // ---- resolving --------------------------------------------------------------------------------------------

  /** The card of an effect, if it lies on the stack. */
  predicate CardOnStack(g: Duel, id: EntityID) {
    id in g.board.at && g.board.at[id] == STACK
  }

  /** binSource: a card on the stack goes to its owner's graveyard; anything else stays. */
  function Binned(g: Duel, id: EntityID): (r: Duel)
    ensures r.order == g.order && r.pos == g.pos
  {
    if CardOnStack(g, id) && id in g.owner && Z.MoveError(g.board, id, GraveOf(g.owner[id])).None?
    then g.(board := Z.Moved(g.board, id, GraveOf(g.owner[id]))) else g
  }

  /** AddCounter and RemoveCounter on life: never below 0. */
  function Shifted(life: map<Pid, int>, p: Pid, delta: int): map<Pid, int> {
    var after := Level(life, p) + delta;
    life[p := if after < 0 then 0 else after]
  }

  function Opponent(g: Duel, p: Pid): Pid
    requires TwoPlayers(g)
  {
    if g.order[0] != p then g.order[0] else g.order[1]
  }

  /** drain: every player, or only the controller's opponent. */
  function Drained(g: Duel, e: Effect): map<Pid, int>
    requires TwoPlayers(g)
  {
    var a, b := g.order[0], g.order[1];
    var first := if e.onlyOpponent && a == e.controller then g.life else Shifted(g.life, a, -e.amount);
    if e.onlyOpponent && b == e.controller then first else Shifted(first, b, -e.amount)
  }

  /** The trigger a bound Glowmoth stages, if it is still on its owner's battlefield and another creature entered. */
  function MothTrigger(g: Duel, moth: EntityID, entered: EntityID): seq<Effect> {
    if moth != entered && moth in g.owner && moth in g.board.at && g.board.at[moth] == FieldOf(g.owner[moth])
    then [Effect(0, moth, g.owner[moth], GainLife, 1, false, 0)] else []
  }

  function MothTriggers(g: Duel, moths: seq<EntityID>, entered: EntityID): seq<Effect> {
    if moths == [] then []
    else MothTriggers(g, moths[..|moths| - 1], entered) + MothTrigger(g, moths[|moths| - 1], entered)
  }

  /** The global subscriber's own trigger. */
  function EnterTrigger(g: Duel, id: EntityID): seq<Effect> {
    if id in g.def && g.def[id] == Duskwisp && id in g.owner
    then [Effect(0, id, g.owner[id], Drain, 1, true, 0)] else []
  }

  /** creature_entered: the router stages or binds, then every ability bound before stages its own. */
  function Entered(g: Duel, id: EntityID): (r: Duel)
    ensures r.order == g.order && r.pos == g.pos
  {
    g.(staged := g.staged + EnterTrigger(g, id) + MothTriggers(g, g.moths, id),
       moths := if id in g.def && g.def[id] == Glowmoth then g.moths + [id] else g.moths)
  }

  /** The effect a counter names leaves the queue, and its card the stack. */
  function Countered(g: Duel, target: nat): (r: Duel)
    ensures r.order == g.order && r.pos == g.pos
  {
    var found := Find(g.queue.pending, target);
    if found.None? then g
    else Binned(g.(queue := g.queue.(pending := RemovedFrom(g.queue.pending, target))), found.value.source)
  }

  /** The resolver of an effect. */
  function Resolver(g: Duel, e: Effect): (r: Duel)
    requires TwoPlayers(g)
    ensures r.order == g.order && r.pos == g.pos
  {
    match e.kind
    case Damage => Binned(g.(life := Shifted(g.life, Opponent(g, e.controller), -e.amount)), e.source)
    case GainLife => Binned(g.(life := Shifted(g.life, e.controller, e.amount)), e.source)
    case Drain => Binned(g.(life := Drained(g, e)), e.source)
    case Counter => Binned(Countered(g, e.target), e.source)
    case Summon =>
      if Z.MoveError(g.board, e.source, FieldOf(e.controller)).Some? then g
      else Entered(g.(board := Z.Moved(g.board, e.source, FieldOf(e.controller))), e.source)
  }

  /** ResolveNext with PickBack: the last pending effect resolves and leaves the queue. */
  function ResolveTop(g: Duel): (r: Duel)
    requires TwoPlayers(g) && g.queue.pending != []
    ensures r.order == g.order && r.pos == g.pos
  {
    var top := g.queue.pending[|g.queue.pending| - 1];
    var r := Resolver(g, top);
    r.(queue := r.queue.(pending := RemovedFrom(r.queue.pending, top.id)))
  }

  /** FlushTriggers in APNAP order. */
  function Flushed(g: Duel): (r: Duel)
    requires TwoPlayers(g)
    ensures r.order == g.order && r.pos == g.pos
  {
    g.(queue := PushedAll(g.queue, OrderByPlayer(g.staged, Apnap(g))), staged := [])
  }

  // ---- moves ------------------------------------------------------------------------------------------------

  datatype Action = Cast(id: EntityID) | Respond(id: EntityID) | PassOn | EndTurn

  /** Whether the engine and the game accept a move. */
  predicate Allowed(g: Duel, pid: Pid, move: Action) {
    TwoPlayers(g) &&
    match move
    case Cast(id) => pid == Current(g) && !g.window.open && Castable(g, pid, id, false)
    case Respond(id) => g.window.open && pid == P.Holder(g.window) && Castable(g, pid, id, true)
    case PassOn => g.window.open && pid == P.Holder(g.window)
    case EndTurn => pid == Current(g) && !g.window.open && g.queue.pending == []
  }

  function Reopened(g: Duel): (r: Duel)
    requires TwoPlayers(g)
    ensures r.order == g.order && r.pos == g.pos
  {
    g.(window := P.OpenWindow(g.window, Apnap(g), RESPOND).w)
  }

  /** pass, once the window has closed. */
  function AllPassed(g: Duel): (r: Duel)
    requires TwoPlayers(g)
    ensures r.order == g.order && r.pos == g.pos
  {
    if g.queue.pending == [] then g
    else
      var flushed := Flushed(ResolveTop(g));
      if flushed.queue.pending != [] then Reopened(flushed) else flushed
  }

  /** drawCards: the drawn card goes to the hand; an empty deck draws nothing. */
  function DrewOne(g: Duel, pid: Pid): (r: Duel)
    ensures r.order == g.order && r.pos == g.pos
  {
    if Z.DrawError(g.board, DeckOf(pid)).Some? then g
    else
      var (left, cards) := Z.Drawn(g.board, DeckOf(pid), 1);
      var end := if HandOf(pid) in left.zones then |left.zones[HandOf(pid)].members| else 0;
      if Z.InsertError(left, HandOf(pid), cards[0], end).Some? then g.(board := left)
      else g.(board := Z.Inserted(left, HandOf(pid), cards[0], end))
  }

  /** turnBegin for the player now on turn. */
  function TurnBegun(g: Duel): (r: Duel)
    requires TwoPlayers(g)
    ensures r.order == g.order && r.pos == g.pos
  {
    var pid := Current(g);
    DrewOne(g.(window := P.CLOSED, sun := g.sun[pid := MANA], moon := g.moon[pid := MANA]), pid)
  }

  function NextTurn(g: Duel): Duel
    requires TwoPlayers(g)
  {
    TurnBegun(g.(pos := 1 - g.pos))
  }

  /** One accepted move. */
  function Step(g: Duel, pid: Pid, move: Action): Duel
    requires Allowed(g, pid, move)
  {
    match move
    case Cast(id) => Reopened(OnStack(g, pid, id, false))
    case Respond(id) =>
      var s := OnStack(g, pid, id, true);
      s.(window := P.ActionTaken(s.window, pid, true).w)
    case PassOn =>
      var r := P.Pass(g.window, pid);
      if r.closed then AllPassed(g.(window := r.w)) else g.(window := r.w)
    case EndTurn => NextTurn(g)
  }
}
