/**
 The life of a pending block. It leaves State.Blocks only by being answered (by its own addressee, with its tag, and
 with its named move if it names one; one block per request) or by being dropped for its addressee. Survivors keep
 their order and newly raised blocks come after them. While any block is pending, only a request that answers one, or
 a move that ignores blocks, is accepted.
 */
module BlockLife {
  import opened Engine
  import opened Transitions
  import opened Reducer
  import opened Reachable

  // ---- one call ---------------------------------------------------------------------------------------------

  /** The players whose pending blocks a call drops: DropBlocksFor, and for a timeout the player whose turn ends. */
  function Dropped(game: Game, s: State, call: Call, rounds: nat): seq<Pid> {
    match call
    case External(req) =>
      var a := Admit(game, s, req);
      if a.Denied? || !PlayMove(game, a, req).Done? then []
      else
        var settled := Settle(game, CountMove(game, a, PlayMove(game, a, req).value, req), a.move, rounds);
        if settled.Done? then settled.value.env.drops else []
    case TimeOut =>
      var turned := ForcedTurn(game, s, rounds);
      [s.ctx.currentPlayer] + if turned.Done? then turned.value.env.drops else []
    case _ => []
  }

  /** The block a call answers, as an index; -1 for none. */
  function Answered(s: State, call: Call): (i: int)
    ensures -1 <= i < |s.blocks|
  {
    if call.External? then Consumed(s, call.req) else -1
  }

  /** The pending blocks a call leaves in place, in order. */
  function Survivors(game: Game, s: State, call: Call, rounds: nat): seq<Block> {
    WithoutBlocksFor(RemoveAt(s.blocks, Answered(s, call)), Dropped(game, s, call, rounds))
  }

  /** A cascade only adds blocks, behind those already there. */
  lemma {:induction false} DrainRaisesBehind(game: Game, s: State, parent: int, depth: nat, rounds: nat)
    requires depth <= MAX_DRAIN_DEPTH && DrainQueue(game, s, parent, depth, rounds).Done?
    ensures s.blocks <= DrainQueue(game, s, parent, depth, rounds).value.blocks
    decreases MAX_DRAIN_DEPTH - depth
  {
    hide ApplyStep;
  }

  lemma MoveLeavesSurvivors(game: Game, s: State, req: Request, rounds: nat)
    requires Apply(game, s, req, rounds).Done?
    ensures Survivors(game, s, External(req), rounds) <= Apply(game, s, req, rounds).value.blocks
  {
    hide Settle, PlayMove, CountMove, DrainQueue, WithoutBlocksFor;
    var a := Admit(game, s, req);
    var p := PlayMove(game, a, req).value;
    var m := Settle(game, CountMove(game, a, p, req), a.move, rounds).value;
    DrainRaisesBehind(game, Harvest(m.st, m.env), |s.log|, 0, rounds);
  }

  lemma TimeOutLeavesSurvivors(game: Game, s: State, rounds: nat)
    requires ForceEndTurn(game, s, rounds).Done?
    ensures Survivors(game, s, TimeOut, rounds) <= ForceEndTurn(game, s, rounds).value.blocks
  {
    hide ForcedTurn, DrainQueue, WithoutBlocksFor;
    var m := ForcedTurn(game, s, rounds).value;
    ForcedTurnFrame(game, s, rounds);
    DrainRaisesBehind(game, Harvest(m.st, m.env), -1, 0, rounds);
  }

  /** The call answers this very block, as only its addressee can, or drops its addressee's blocks. */
  ghost predicate Takes(game: Game, s: State, call: Call, b: Block, rounds: nat) {
    || (call.External? && Consumed(s, call.req) >= 0 && s.blocks[Consumed(s, call.req)] == b &&
        Answers(b, call.req.resumeTag, call.req.pid, call.req.move))
    || b.pid in Dropped(game, s, call, rounds)
  }

  /** While a block is pending, an accepted request answers one or is for a move that ignores blocks. */
  lemma PendingBlocksGate(game: Game, s: State, req: Request, rounds: nat)
    requires s.blocks != [] && Apply(game, s, req, rounds).Done?
    ensures
      || Consumed(s, req) >= 0
      || (Admit(game, s, req).Admitted? && Admit(game, s, req).move.ignoreBlocks)
  {
    hide PlayMove, CountMove, Settle, Cascade;
  }

  /** How many of the first n blocks are of players not named. */
  function KeptBefore(blocks: seq<Block>, players: seq<Pid>, n: nat): nat
    requires n <= |blocks|
  {
    if n == 0 then 0 else KeptBefore(blocks, players, n - 1) + if blocks[n - 1].pid in players then 0 else 1
  }

  lemma {:induction false} KeptBeforeTail(blocks: seq<Block>, players: seq<Pid>, n: nat)
    requires 0 < n <= |blocks|
    ensures KeptBefore(blocks, players, n) ==
            (if blocks[0].pid in players then 0 else 1) + KeptBefore(blocks[1..], players, n - 1)
  {
    if n > 1 { KeptBeforeTail(blocks, players, n - 1); }
  }

  /** Block i, if kept, stands where the kept ones before it end. */
  ghost predicate Stands(blocks: seq<Block>, players: seq<Pid>, r: seq<Block>, i: nat)
    requires i < |blocks|
  {
    blocks[i].pid !in players ==>
      KeptBefore(blocks, players, i) < |r| && r[KeptBefore(blocks, players, i)] == blocks[i]
  }

  lemma StandsBehind(blocks: seq<Block>, players: seq<Pid>, rest: seq<Block>, i: nat)
    requires 0 < i < |blocks| && Stands(blocks[1..], players, rest, i - 1)
    ensures Stands(blocks, players, (if blocks[0].pid in players then [] else [blocks[0]]) + rest, i)
  {
    hide KeptBefore;
    KeptBeforeTail(blocks, players, i);
    assert blocks[1..][i - 1] == blocks[i];
  }

  /** withoutBlocksFor keeps exactly the blocks of players not named, every copy of each, in their order. */
  lemma {:induction false} KeptInOrder(blocks: seq<Block>, players: seq<Pid>)
    ensures
      var r := WithoutBlocksFor(blocks, players);
      |r| == KeptBefore(blocks, players, |blocks|) && forall i | 0 <= i < |blocks| :: Stands(blocks, players, r, i)
    decreases |blocks|
  {
    if blocks != [] {
      hide KeptBefore;
      var rest := WithoutBlocksFor(blocks[1..], players);
      KeptInOrder(blocks[1..], players);
      KeptBeforeTail(blocks, players, |blocks|);
      forall i | 0 <= i < |blocks| ensures Stands(blocks, players, WithoutBlocksFor(blocks, players), i) {
        if i > 0 { StandsBehind(blocks, players, rest, i); } else { FirstStands(blocks, players, rest); }
      }
    }
  }

  lemma FirstStands(blocks: seq<Block>, players: seq<Pid>, rest: seq<Block>)
    requires blocks != []
    ensures Stands(blocks, players, (if blocks[0].pid in players then [] else [blocks[0]]) + rest, 0)
  {
  }

  // ---- counting ---------------------------------------------------------------------------------------------

  lemma HeadCount(head: seq<Block>, tail: seq<Block>, b: Block)
    requires |head| <= 1
    ensures multiset(head + tail)[b] == (if b in head then 1 else 0) + multiset(tail)[b]
  {
    if head != [] { assert head == [head[0]]; }
  }

  lemma {:induction false} WithoutCount(blocks: seq<Block>, players: seq<Pid>, b: Block)
    ensures multiset(WithoutBlocksFor(blocks, players))[b] == if b.pid in players then 0 else multiset(blocks)[b]
    decreases |blocks|
  {
    if blocks != [] {
      var rest := WithoutBlocksFor(blocks[1..], players);
      WithoutCount(blocks[1..], players, b);
      HeadCount([blocks[0]], blocks[1..], b);
      HeadCount(if blocks[0].pid in players then [] else [blocks[0]], rest, b);
      assert blocks == [blocks[0]] + blocks[1..];
    }
  }

  lemma RemoveAtCount(blocks: seq<Block>, i: int, b: Block)
    requires -1 <= i < |blocks|
    ensures multiset(RemoveAt(blocks, i))[b] == multiset(blocks)[b] - if i >= 0 && blocks[i] == b then 1 else 0
  {
    if i >= 0 {
      assert blocks == blocks[..i] + [blocks[i]] + blocks[i + 1..];
    }
  }

  /** One request answers one block: of any block not dropped, at most one copy leaves, and only the answered one. */
  lemma OneCallCount(game: Game, s: State, t: State, call: Call, b: Block, rounds: nat)
    requires (call.External? || call.TimeOut?) && Do(game, s, call, rounds) == Done(t)
    ensures b.pid !in Dropped(game, s, call, rounds) ==>
      multiset(t.blocks)[b] >=
        multiset(s.blocks)[b] - if Answered(s, call) >= 0 && s.blocks[Answered(s, call)] == b then 1 else 0
  {
    hide Apply, ForceEndTurn, Dropped, WithoutBlocksFor;
    if call.External? { MoveLeavesSurvivors(game, s, call.req, rounds); } else { TimeOutLeavesSurvivors(game, s, rounds); }
    var kept := Survivors(game, s, call, rounds);
    assert t.blocks == kept + t.blocks[|kept|..];
    WithoutCount(RemoveAt(s.blocks, Answered(s, call)), Dropped(game, s, call, rounds), b);
    RemoveAtCount(s.blocks, Answered(s, call), b);
  }

  // ---- runs -------------------------------------------------------------------------------------------------

  /** A run of moves and timeouts: each call is done, or refused and without effect. */
  ghost predicate IsRun(game: Game, states: seq<State>, calls: seq<Call>, rounds: nat) {
    && |states| == |calls| + 1
    && forall i | 0 <= i < |calls| ::
         && (calls[i].External? || calls[i].TimeOut?)
         && (|| Do(game, states[i], calls[i], rounds) == Done(states[i + 1])
             || (Do(game, states[i], calls[i], rounds).Refused? && states[i + 1] == states[i]))
  }

  /**
   Over every run, of any game: if fewer copies of a block are pending at the end than at the start, some call of the
   run answered it (addressee, tag and named move matching) or dropped its addressee's blocks.
   */
  lemma {:induction false} BlocksLeaveByAnswerOrDrop(
    game: Game, states: seq<State>, calls: seq<Call>, b: Block, rounds: nat)
    requires IsRun(game, states, calls, rounds)
    requires multiset(states[|calls|].blocks)[b] < multiset(states[0].blocks)[b]
    ensures exists i | 0 <= i < |calls| :: Takes(game, states[i], calls[i], b, rounds)
    decreases |calls|
  {
    hide Do, Dropped;
    var n := |calls| - 1;
    if n >= 0 && multiset(states[n].blocks)[b] < multiset(states[0].blocks)[b] {
      BlocksLeaveByAnswerOrDrop(game, states[..n + 1], calls[..n], b, rounds);
      var i :| 0 <= i < n && Takes(game, states[..n + 1][i], calls[..n][i], b, rounds);
      assert Takes(game, states[i], calls[i], b, rounds);
    } else if n >= 0 {
      OneCallCount(game, states[n], states[n + 1], calls[n], b, rounds);
      assert Takes(game, states[n], calls[n], b, rounds);
    }
  }
}
