/** Concrete states in which the code misses what its comments promise.  Each satisfies the
    invariant and whatever else its operation requires, and the operation then loses it. */
module Shortfalls {
  import opened KvMemory
  import opened PlainLoop
  import opened ChatSession
  import opened Generation

  /** A memory that holds `toks`, freshly decoded, with the given snapshots and checkpoints. */
  function Holding(hybrid: bool, toks: Tokens, planes: seq<Tokens>, stack: seq<Tokens>): Cache
    requires |planes| > 0
  {
    Cache(hybrid, |planes| - 1, toks, planes, 0, false, stack)
  }

  const A := PromptCheckpoint(1, "a")
  const B := PromptCheckpoint(2, "b")
  const C := PromptCheckpoint(3, "c")

  /** [1, 2] was decoded and 2 rolled back. */
  const PENDING := View(Holding(true, [1, 2], [[1, 2], [1]], []).(attn := [1], rsIdx := 1), [1], [], 0, -1, 0, false, false, -1, "prompt")

  /** The slot of an ejected correction behind two checkpoints. */
  const STALE_SLOT :=
    View(Holding(true, [1, 2, 3, 4], [[1, 2, 3, 4]], [[1], [1, 2], [1, 2, 3]]), [1, 2, 3, 4], [A, B], 0, 2, 3, false, true, -1, "")

  /** A checkpoint without a stack entry, inside the snapshot window. */
  const BELOW_STACK :=
    View(Holding(true, [1, 2, 3], [[1, 2, 3], [1, 2], [1]], [[1, 2]]), [1, 2, 3], [A, B], 1, -1, 0, false, false, -1, "")

  /** A call that a 90% crossing has cut in two: the checkpoint of the crossing lies behind the
      call's start, and the prompt return there has reset the slot. */
  const CUT_CALL :=
    View(Holding(false, [1, 2, 3, 4], [[1, 2, 3, 4]], []), [1, 2, 3, 4], [A, PromptCheckpoint(3, "/continue")],
         0, -1, 2, false, false, -1, "prompt")

  /** A fast restore of two checkpoints, of which only the second has a stack entry. */
  const RESTORED := View(Holding(true, [1, 2], [[1, 2]], [[1, 2]]), [1, 2], [A, B], 1, -1, 0, false, false, -1, "")

  /** The slot of an ejected correction in a session without checkpoints. */
  const FIRST_SLOT := View(Holding(true, [1, 2], [[1, 2]], [[1]]), [1, 2], [], 0, 0, 1, true, true, -1, "")

  /** Two checkpoints with their entries. */
  const TWO_TURNS :=
    View(Holding(true, [1, 2, 3, 4], [[1, 2, 3, 4]], [[1], [1, 2, 3]]), [1, 2, 3, 4], [A, C], 0, -1, 0, false, false, -1, "")

  // All of them are states of a session that satisfies its invariant.

  lemma PendingIsLawful()
    ensures PENDING.Lawful()
  {
  }

  lemma StaleSlotIsLawful()
    ensures STALE_SLOT.Lawful()
  {
    assert [1, 2, 3, 4][..1] == [1] && [1, 2, 3, 4][..2] == [1, 2] && [1, 2, 3, 4][..3] == [1, 2, 3];
  }

  lemma BelowStackIsLawful()
    ensures BELOW_STACK.Lawful()
  {
    assert [1, 2, 3][..2] == [1, 2];
  }

  lemma CutCallIsLawful()
    ensures CUT_CALL.Lawful()
  {
  }

  lemma RestoredIsLawful()
    ensures RESTORED.Lawful()
  {
    assert [1, 2][..2] == [1, 2];
  }

  lemma FirstSlotIsLawful()
    ensures FIRST_SLOT.Lawful()
  {
    assert [1, 2][..1] == [1];
  }

  lemma TwoTurnsIsLawful()
    ensures TWO_TURNS.Lawful()
  {
    assert [1, 2, 3, 4][..1] == [1] && [1, 2, 3, 4][..3] == [1, 2, 3];
  }

  ghost predicate Is(s: Session, v: View)
    reads s, s.mem
  {
    s.Inv() && s.Look() == v
  }

  /** A prompt return while a roll-back is pending saves a state that is one token ahead. */
  method SaveWhilePending(s: Session)
    requires Is(s, PENDING)
    modifies s, s.mem
    ensures s.Lockstep() && !s.Inv()
  {
    s.PromptReturn(false, false);
  }

  /** An undo to the first checkpoint keeps the index of a slot that it has pruned. */
  method UndoOnStaleSlot(s: Session)
    requires Is(s, STALE_SLOT)
    modifies s, s.mem
    ensures s.InStep() && !s.Inv()
  {
    var path := s.Undo(0);
    assert path == Instant;
  }

  /** An undo to a checkpoint without a stack entry keeps the entries behind it. */
  method UndoBelowStack(s: Session)
    requires Is(s, BELOW_STACK)
    modifies s, s.mem
    ensures s.InStep() && !s.Inv()
  {
    var path := s.Undo(0);
    assert path == Instant;
  }

  /** A fast restore of a session that was saved behind its last checkpoint. */
  method RestoreBehindCheckpoint(s: Session)
    requires s.nBatch > 0 && s.mem.hybrid && s.toolIdx < 0 && !s.slotSaved
    modifies s, s.mem
    ensures s.Lockstep() && !s.Inv()
  {
    s.FastRestore([1, 2, 3], [B], false);
  }

  /** A correction of that call re-decodes from the first checkpoint up to the call's start. */
  method CorrectionBehindCheckpoint(s: Session)
    requires Is(s, CUT_CALL)
    modifies s, s.mem
    ensures s.mem.faults == old(s.mem.faults) && s.stops == old(s.stops) ==>
            s.Lockstep() && s.tracker == [1, 2] && !s.Inv()
  {
    assert CUT_CALL.Anchor(2) == 0;
    var rc, anchor := s.RollbackToToolCheckpoint();
  }

  /** A reincarnation whose prompt does not fit. */
  method RebirthThatDoesNotFit(s: Session)
    requires Is(s, RESTORED)
    modifies s, s.mem
    ensures s.Lockstep() && !s.Inv()
  {
    var ok := s.Reincarnate([7], false, "title");
  }

  /** A reincarnation right after an ejected correction. */
  method RebirthOverSlot(s: Session) returns (ok: bool)
    requires Is(s, FIRST_SLOT)
    modifies s, s.mem
    ensures ok ==> s.Lockstep() && !s.Inv()
  {
    ok := s.BeginReincarnation([7]);
  }

  /** A mode 2 request that differs behind the first of two checkpoints. */
  method DriftToOlderCheckpoint(s: Session) returns (ok: bool)
    requires Is(s, TWO_TURNS)
    modifies s, s.mem
    ensures ok ==> s.Lockstep() && s.tracker == [1, 2, 9] && !s.Inv()
  {
    hide View.DriftSound, View.CutPosition, Session.CheckpointsOrdered, Session.SlotsAligned, Sound, View.StackFits;
    var cut, matched;
    ok, cut, matched := s.FeedDelta([1, 2, 9]);
    FirstDifference([1, 2, 3, 4], [1, 2, 9], matched, 2);
    TwoTurnsDrift();
  }

  /** The first checkpoint is the one to cut at, and the second is pruned with its entry. */
  lemma TwoTurnsDrift()
    ensures TWO_TURNS.CutPosition(2) == 1 && !TWO_TURNS.DriftSound(2, 3)
    ensures TWO_TURNS.cache.CutIsRight(1)
  {
    assert TWO_TURNS.Anchor(2) == 0;
  }

  /** Two sequences differ for the first time at one place only. */
  lemma FirstDifference(s: Tokens, t: Tokens, m: nat, k: nat)
    requires m <= |s| && m <= |t| && s[..m] == t[..m] && (m < |s| && m < |t| ==> s[m] != t[m])
    requires k < |s| && k < |t| && s[..k] == t[..k] && s[k] != t[k]
    ensures m == k
  {
    forall i | 0 <= i < m ensures s[i] == t[i] {
      assert s[..m][i] == t[..m][i];
    }
    forall i | 0 <= i < k ensures s[i] == t[i] {
      assert s[..k][i] == t[..k][i];
    }
  }

  /** A mode 2 request that differs from the first token on: wherever its feed stops in front of
      the last checkpoint, that checkpoint is left behind the end of the tokens. */
  method InterruptedDelta(s: Session)
    requires Is(s, CUT_CALL)
    modifies s, s.mem
    ensures |s.tracker| < 3 ==> !s.Inv()
  {
    var ok, cut, matched := s.FeedDelta([9, 9, 9, 9]);
    AllWithin(CUT_CALL.cps, 4);
  }

  /** A mode 2 request that the cache holds as a whole, and more: nothing is fed, and the batch
      keeps the row of the longer context. */
  method DeltaWithoutFeed(s: Session)
    requires s.Inv() && !s.mem.hybrid && s.tracker == [1, 2] && s.cps == [] && s.interruptedIdx == -1
            && s.rows == [Exact([1, 2])]
    modifies s, s.mem
    ensures s.tracker == [1] && !s.Ready()
  {
    var ok, cut, matched := s.FeedDelta([1]);
    assert [1, 2][..1] == [1];
    assert [1, 2][0] == [1][0];
    assert |[1]| != |[1, 2]|;
  }

  // --- In the generation loop ---------------------------------------------------------------------

  /** A round of two drafts in flight: [0] was the context, 1 is committed, 2 is decoded but
      not compared yet. */
  ghost predicate InFlight(g: TokenGenerator)
    reads g, g.session, g.session.mem
  {
    var s := g.session;
    && g.draft == [1, 2] && g.draftLen == 2 && s.tracker == [0, 1] && s.nPast == 2 && s.nBatch > 0
    && s.rows == [Exact([0, 1]), Exact([0, 1, 2])]
    && s.mem.State() == Holding(true, [0, 1, 2], [[0, 1, 2], [0, 1], [0]], [])
    && g.inProgress && !g.originPending && !g.bonusPending && !g.roundComplete && !g.noFeed && !g.verifyPending
    && g.verifyRow == g.committed == 0 && g.verifyRows == 1 && g.draftIdx == 2
    && s.cps == [] && s.offset == 0 && s.Slot() == (-1, 0, false, false) && s.interruptedIdx == -1 && s.lastInput == "prompt"
  }

  lemma RoundIsAhead(g: TokenGenerator)
    requires InFlight(g)
    ensures g.Ahead(1) && g.Live() && g.Between()
  {
    hide Exact;
    var tracker, draft := g.session.tracker, g.draft;
    assert draft[1..] == [2] && tracker + draft[1..] == [0, 1, 2];
    assert tracker + draft[1..1] == tracker && tracker + draft[1..2] == [0, 1, 2];
    assert [0, 1, 2][..3] == [0, 1, 2] && [0, 1, 2][..2] == [0, 1];
    forall i | 0 <= i < 2 ensures g.session.rows[i] == Exact(tracker + draft[1..i + 1]) {
    }
  }

  /** Interrupted now, the loop rolls 2 back, and the turn ends while that is pending. */
  method InterruptedRound(g: TokenGenerator)
    requires InFlight(g)
    modifies g, g.session, g.session.mem
    ensures g.session.Lockstep() && g.session.mem.rsIdx == 1 && !g.session.Inv()
  {
    hide TokenGenerator.Broken, TokenGenerator.Ahead, Aligned;
    RoundIsAhead(g);
    g.BreakAtTop();
    var ok, written := g.Settle(false, g.OnTrack());
    InvAfterRound(g.session);
    g.session.PromptReturn(true, false);
  }

  lemma InvAfterRound(s: Session)
    requires s.Lockstep() && s.cps == [] && s.offset == 0 && s.Slot() == (-1, 0, false, false) && s.interruptedIdx == -1
    requires s.mem.stack == [] && !s.mem.rsRestored
    ensures s.Inv()
  {
  }

  /** 2 matches, and its text is a nested thinking tag: the memory is left one token ahead. */
  method TripOnLastMatch(g: TokenGenerator)
    requires InFlight(g) && g.env.verdict([Piece(2, false)]) == Tripwire
    modifies g, g.session, g.session.mem
    ensures g.session.tracker == [0, 1] && !g.session.InStep()
  {
    RoundIsAhead(g);
    g.CompareRow(2);
    g.pieces := [Piece(2, false)];
    g.BreakBeforeFeed(2, TextBreak(Tripwire));
    var ok, written := g.Settle(true, false);
  }

  /** A one-row decode that fails after writing its row, over a memory that was decoded token
      by token: the roll-back takes a snapshot that the decode did not refresh. */
  lemma OriginOverStaleSnapshot()
    ensures var c := Cache(true, 1, [1, 2], [[1, 2], [1]], 0, false, []);
            var r := c.Decode([3]).SeqRm(2);
            c.Settled() && r.1 && r.0.attn == [1, 2] && !r.0.Coherent()
  {
    var c := Cache(true, 1, [1, 2], [[1, 2], [1]], 0, false, []);
    var d := c.Decode([3]);
    assert d.attn == [1, 2, 3] && d.planes[1] == [1];
    assert d.SeqRm(2).0.Recurrent() == [1];
    assert |[1]| != |[1, 2]|;
  }
}
