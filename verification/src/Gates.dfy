/** Who may move: what an accepted request implies about its sender, and whom an active-player configuration lets in. */
module Gates {
  import opened Engine
  import opened Transitions
  import opened Reducer

  /** The player is in the active set or, when there is none, is the current player. */
  predicate OnTurn(ctx: Ctx, pid: Pid) {
    if ctx.active.Some? then pid in ctx.active.value else pid == ctx.currentPlayer
  }

  /** The move a request would run. */
  function Requested(game: Game, s: State, req: Request): Resolution {
    Resolve(game, s.ctx, StageOf(s.ctx, req.pid), req.move)
  }

  /**
   Nothing is accepted once the game is over, from a player who is not on turn unless the move is for any player or answers
   a block, from a client for a server-only move, or on an outdated view unless the move says it does not mind.
   */
  lemma AcceptedIsEntitled(game: Game, s: State, req: Request, rounds: nat)
    requires Apply(game, s, req, rounds).Done?
    ensures
      var r := Requested(game, s, req);
      && s.ctx.gameover.None? && r.Found?
      && (OnTurn(s.ctx, req.pid) || r.move.anyPlayer || Consumed(s, req) >= 0)
      && (req.fromClient ==> !r.move.serverOnly)
      && (req.stateID > 0 ==> req.stateID == s.stateID || r.move.ignoreStale)
      && (req.resumeTag != "" ==> Consumed(s, req) >= 0)
  {
    hide PlayMove, Settle, Cascade, CountMove, Consumed, Resolve, RemoveAt;
    ClockIsFree(game, s, req);
  }

  /** Resolving does not look at the clock. */
  lemma ClockIsFree(game: Game, s: State, req: Request)
    ensures
      var ctx := s.ctx.(nowMs := req.nowMs);
      && Resolve(game, ctx, AuthorizedStage(ctx, req.pid).0, req.move) == Requested(game, s, req)
      && (AuthorizedStage(ctx, req.pid).1.None? <==> OnTurn(s.ctx, req.pid))
  {
  }

  /**
   An exclusive stage confines its players to its own moves. Only a server dispatch, a move for any player, one that
   ignores blocks, and the answer to a block that names its move get past it.
   */
  lemma ExclusiveStageConfines(game: Game, s: State, req: Request, rounds: nat)
    requires Apply(game, s, req, rounds).Done? && !req.serverDispatch
    ensures
      var stage := StageOf(s.ctx, req.pid);
      var config := game.LookupStage(s.ctx.phase, stage);
      var r := Requested(game, s, req);
      stage != "" && config.Some? && config.value.exclusive ==>
        && r.Found?
        && (|| req.move in config.value.moves || r.move.anyPlayer || r.move.ignoreBlocks
            || (Consumed(s, req) >= 0 && s.blocks[Consumed(s, req)].move == req.move != ""))
  {
    hide PlayMove, Settle, Cascade, CountMove, FindBlock, RemoveAt;
    ClockIsFree(game, s, req);
  }

  /** Some pending question put to this player under this tag takes this move for an answer. */
  predicate HasQuestion(s: State, req: Request) {
    req.resumeTag != "" &&
    exists b | b in s.blocks :: b.tag == req.resumeTag && b.pid == req.pid && (b.move == "" || b.move == req.move)
  }

  /** Whether the first of them asks for a move by name. */
  predicate NamesMove(s: State, req: Request) {
    exists i | 0 <= i < |s.blocks| ::
      && s.blocks[i].tag == req.resumeTag && s.blocks[i].pid == req.pid && s.blocks[i].move == req.move != ""
      && !exists j | 0 <= j < i ::
            s.blocks[j].tag == req.resumeTag && s.blocks[j].pid == req.pid && s.blocks[j].move == ""
  }

  /** The table a move comes from: that of the player's stage, else the phase's or the game's. */
  lemma FoundExactly(game: Game, s: State, req: Request)
    ensures
      var stage, r := StageOf(s.ctx, req.pid), Requested(game, s, req);
      var own := if stage == "" then None else game.LookupStage(s.ctx.phase, stage);
      var staged := own.Some? && req.move in own.value.moves;
      && (r == Missing(UnknownMove) <==> !staged && req.move !in game.ScopeMoves(s.ctx.phase))
      && (r == Missing(UnsupportedMove) <==>
            if staged then own.value.moves[req.move].Unsupported?
            else req.move in game.ScopeMoves(s.ctx.phase) && game.ScopeMoves(s.ctx.phase)[req.move].Unsupported?)
      && (r.Found? ==>
            && r.inStage == staged
            && Playable(r.move) == if staged then own.value.moves[req.move] else game.ScopeMoves(s.ctx.phase)[req.move])
      && (r.Missing? ==> r.error in {UnknownMove, UnsupportedMove})
  {
  }

  /** Pending questions stop everything but an answer and the moves that ignore them. */
  predicate HeldUp(game: Game, s: State, req: Request) {
    var r := Requested(game, s, req);
    s.blocks != [] && r.Found? && !r.move.ignoreBlocks && !HasQuestion(s, req)
  }

  /** The player's exclusive stage does not hold the move, and nothing lets the request past it. */
  predicate OutOfStage(game: Game, s: State, req: Request) {
    var stage, r := StageOf(s.ctx, req.pid), Requested(game, s, req);
    && stage != "" && game.LookupStage(s.ctx.phase, stage).Some? && game.LookupStage(s.ctx.phase, stage).value.exclusive
    && r.Found? && !r.inStage && !r.move.anyPlayer && !r.move.ignoreBlocks && !req.serverDispatch
    && !(HasQuestion(s, req) && NamesMove(s, req))
  }

  /** A view of the match other than the stored one, unless the request claims none or its move does not mind. */
  predicate Outdated(game: Game, s: State, req: Request) {
    var r := Requested(game, s, req);
    r.Found? && req.stateID > 0 && req.stateID != s.stateID && !r.move.ignoreStale
  }

  predicate OutOfTurn(game: Game, s: State, req: Request) {
    var r := Requested(game, s, req);
    !OnTurn(s.ctx, req.pid) && !(r.Found? && (r.move.anyPlayer || HasQuestion(s, req)))
  }

  predicate ForServer(game: Game, s: State, req: Request) {
    var r := Requested(game, s, req);
    req.fromClient && r.Found? && r.move.serverOnly
  }

  lemma {:induction false} FirstAnswer(blocks: seq<Block>, tag: string, pid: Pid, move: string)
    ensures
      var i := FindBlock(blocks, tag, pid, move);
      && (i >= 0 <==> exists b | b in blocks :: b.tag == tag && b.pid == pid && (b.move == "" || b.move == move))
  {
    var i := FindBlock(blocks, tag, pid, move);
    if i >= 0 { assert blocks[i] in blocks; }
  }

  lemma Asks(s: State, req: Request)
    ensures Consumed(s, req) >= 0 <==> HasQuestion(s, req)
    ensures Consumed(s, req) >= 0 ==> (s.blocks[Consumed(s, req)].move != "" <==> NamesMove(s, req))
  {
    FirstAnswer(s.blocks, req.resumeTag, req.pid, req.move);
  }

  /**
   Which requests are admitted: not after the end of the game; with a tag, only in answer to a question; for a move that
   exists; from a player on turn, or answering, or for a move open to any player; and none of the other gates in the way.
   */
  lemma AdmittedExactly(game: Game, s: State, req: Request)
    ensures Admit(game, s, req).Admitted? <==>
      && s.ctx.gameover.None? && (req.resumeTag != "" ==> HasQuestion(s, req)) && Requested(game, s, req).Found?
      && !ForServer(game, s, req) && !HeldUp(game, s, req) && !OutOfTurn(game, s, req)
      && !Outdated(game, s, req) && !OutOfStage(game, s, req)
  {
    hide Resolve, NamesMove, HasQuestion, FindBlock, Consumed, RemoveAt;
    Asks(s, req);
    ClockIsFree(game, s, req);
    UnansweredStay(s, req);
  }

  lemma UnansweredStay(s: State, req: Request)
    ensures Consumed(s, req) < 0 ==> RemoveAt(s.blocks, Consumed(s, req)) == s.blocks
  {
  }

  /** Why a request is refused: the first gate in the way, in this order. */
  lemma RefusedExactly(game: Game, s: State, req: Request)
    ensures
      var r := Requested(game, s, req);
      var tag := req.resumeTag != "" && !HasQuestion(s, req);
      var early := s.ctx.gameover.Some? || tag || ForServer(game, s, req) || HeldUp(game, s, req);
      var late := early || OutOfTurn(game, s, req) || r.Missing?;
      var a := Admit(game, s, req);
      && (a == Denied(GameOver) <==> s.ctx.gameover.Some?)
      && (a == Denied(UnknownResumeTag) <==> s.ctx.gameover.None? && tag)
      && (a == Denied(ServerOnly) <==> s.ctx.gameover.None? && !tag && ForServer(game, s, req))
      && (a == Denied(Blocked) <==> s.ctx.gameover.None? && !tag && !ForServer(game, s, req) && HeldUp(game, s, req))
      && (a == Denied(if s.ctx.active.Some? then InactivePlayer else WrongPlayer) <==> !early && OutOfTurn(game, s, req))
      && (a.Denied? && !early && !OutOfTurn(game, s, req) && r.Missing? ==> a.error == r.error)
      && (a == Denied(StaleState) <==> !late && Outdated(game, s, req))
      && (a == Denied(MoveNotInStage) <==> !late && !Outdated(game, s, req) && OutOfStage(game, s, req))
  {
    hide Resolve, NamesMove, HasQuestion, FindBlock, Consumed, RemoveAt;
    FoundExactly(game, s, req);
    Asks(s, req);
    ClockIsFree(game, s, req);
    UnansweredStay(s, req);
  }

  /** What admission does: the clock is set and the first question the request answers is off the list. */
  lemma AdmittedWith(game: Game, s: State, req: Request)
    requires Admit(game, s, req).Admitted?
    ensures
      var a := Admit(game, s, req);
      && Requested(game, s, req).Found? && a.move == Requested(game, s, req).move
      && a.st == s.(ctx := s.ctx.(nowMs := req.nowMs), blocks := a.st.blocks)
      && if req.resumeTag == "" then a.resuming.None? && a.st.blocks == s.blocks
         else
           exists i | 0 <= i < |s.blocks| ::
             && a.resuming == Some(s.blocks[i]) && a.st.blocks == s.blocks[..i] + s.blocks[i + 1..]
             && FirstFor(s.blocks, i, req)
  {
    hide Resolve, FindBlock;
    ClockIsFree(game, s, req);
    var i := Consumed(s, req);
    assert i >= 0 ==> FirstFor(s.blocks, i, req);
  }

  /** The first of the blocks the request answers. */
  predicate FirstFor(blocks: seq<Block>, i: nat, req: Request)
    requires i < |blocks|
  {
    var b := blocks[i];
    && b.tag == req.resumeTag && b.pid == req.pid && (b.move == "" || b.move == req.move)
    && forall j | 0 <= j < i ::
         blocks[j].tag == req.resumeTag && blocks[j].pid == req.pid ==> blocks[j].move != "" && blocks[j].move != req.move
  }

  /** Whom a configuration activates, and in which stage: named seats first, then the current player, the others, all. */
  lemma ActivatedExactly(ctx: Ctx, cfg: Cfg, p: Pid)
    ensures
      var seats := Activated(ctx, cfg);
      && (p in seats <==>
            || p in cfg.seats || (cfg.current.Some? && p == ctx.currentPlayer)
            || (cfg.others.Some? && p in ctx.playOrder && p != ctx.currentPlayer)
            || (cfg.all.Some? && p in ctx.playOrder))
      && (p in cfg.seats ==> seats[p] == cfg.seats[p])
      && (p !in cfg.seats && p in seats && p == ctx.currentPlayer ==>
            seats[p] == if cfg.current.Some? then cfg.current.value else cfg.all.value)
      && (p !in cfg.seats && p in seats && p != ctx.currentPlayer ==>
            seats[p] == if cfg.others.Some? then cfg.others.value else cfg.all.value)
  {
  }
}
