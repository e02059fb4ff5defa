/** The session transitions of session.cc: everything that moves the token
    tracker, n_past, the memory and the checkpoint bookkeeping together. */
module ChatSession {
  import opened KvMemory
  import opened Model

  datatype PromptCheckpoint = PromptCheckpoint(nPast: int, prompt: string)

  /** The checkpoints, the name of the turn and the index of the provisional checkpoint. */
  datatype Books = Books(cps: seq<PromptCheckpoint>, lastInput: string, interruptedIdx: int)

  datatype UndoPath = Instant | Regenerated | FreshSession

  /** A session's memory and bookkeeping as a value, with the conditions under which its
      operations keep the invariant. */
  datatype View = View(
    cache: Cache,
    tracker: Tokens,
    cps: seq<PromptCheckpoint>,
    offset: int,
    toolIdx: int,
    toolNPast: nat,
    slotHasTarget: bool,
    slotSaved: bool,
    interruptedIdx: int,
    lastInput: string)
  {
    ghost predicate StackFits() {
      Aligned(cache.stack, tracker, cps, offset, toolIdx, toolNPast, slotHasTarget, slotSaved)
    }

    /** The invariant of a session in this state. */
    ghost predicate Lawful() {
      && cache.Coherent() && cache.PendingIsAhead() && tracker == cache.attn
      && Sound(cps, |tracker|)
      && -1 <= interruptedIdx < |cps| && (interruptedIdx >= 0 ==> interruptedIdx == |cps| - 1 && lastInput == "")
      && (cache.hybrid ==> StackFits() && !cache.rsRestored)
    }

    /** No checkpoint lies behind position p. */
    predicate NoneBehind(p: int) {
      cps == [] || cps[|cps| - 1].nPast <= p
    }

    /** The memory can drop everything behind `p` by itself. */
    predicate DropsDirectly(p: int) {
      !cache.hybrid || p <= 0 || p >= |tracker| || (cache.rsIdx == 0 && |tracker| - p <= cache.window)
    }

    /** The newest checkpoint at or before `limit` that has a stack entry; -1 if there is
        none. */
    function Anchor(limit: int): (a: int)
      ensures -1 <= a < |cps|
      ensures a >= 0 ==> cps[a].nPast <= limit && a >= offset
      ensures forall i :: a < i < |cps| && i >= offset ==> cps[i].nPast > limit
    {
      AnchorBelow(limit, |cps|)
    }

    function AnchorBelow(limit: int, n: nat): (a: int)
      requires n <= |cps|
      ensures -1 <= a < n
      ensures a >= 0 ==> cps[a].nPast <= limit && a >= offset
      ensures forall i :: a < i < n && i >= offset ==> cps[i].nPast > limit
    {
      if n == 0 then -1
      else if cps[n - 1].nPast <= limit && n - 1 - offset >= 0 then n - 1
      else AnchorBelow(limit, n - 1)
    }

    /** An undo needs no re-decode: there is a stack entry for the target, or the memory
        can roll back by itself. */
    predicate InstantUndo(sel: nat)
      requires sel < |cps|
    {
      sel >= offset || DropsDirectly(cps[sel].nPast)
    }

    /** After an instant undo the recurrent state is the target's. */
    predicate InstantUndoRight(sel: nat)
      requires sel < |cps|
    {
      cache.CutIsRight(cps[sel].nPast)
    }

    /** After an instant undo the whole invariant holds again. */
    predicate InstantUndoSound(sel: nat)
      requires sel < |cps|
    {
      || !cache.hybrid
      || (sel >= offset && |tracker| - cps[sel].nPast > cache.window && toolIdx < 0)
      || (sel < offset && cache.stack == [] && InstantUndoRight(sel))
    }

    /** The bookkeeping is that of a session without checkpoints. */
    predicate BooksEmpty() {
      interruptedIdx == -1 && (cache.hybrid ==>
          offset == 0 && !slotSaved && (toolIdx < 0 || (toolIdx == 0 && !slotHasTarget)))
    }

    /** The position a tool-correction rollback restores: its target, or the anchor it
        re-decodes from; -1 if it gives up. */
    function Reach(): int {
      if toolNPast > |tracker| then -1
      else if slotHasTarget then toolNPast
      else
        var a := Anchor(toolNPast);
        if a < 0 then -1 else cps[a].nPast
    }

    /** A tool-correction rollback keeps the invariant. */
    predicate CorrectionSound() {
      Reach() < 0 || (NoneBehind(toolNPast) && (cache.hybrid ==> |tracker| - Reach() > cache.window))
    }

    function Filed(): Books {
      Books(cps, lastInput, interruptedIdx)
    }

    /** Those behind a prompt return: a named turn is recorded where the tokens end, and a
        resumed one moves its provisional checkpoint there. */
    function Recorded(interrupted: bool, ctxLimit: bool): Books {
      if lastInput != "" then
        if interrupted && ctxLimit then Books(cps + [PromptCheckpoint(|tracker|, "/continue")], lastInput, -1)
        else Books(cps + [PromptCheckpoint(|tracker|, lastInput)], "", if interrupted then |cps| else -1)
      else if 0 <= interruptedIdx < |cps| && !interrupted then
        Books(cps[interruptedIdx := cps[interruptedIdx].(nPast := |tracker|)], "", -1)
      else Filed()
    }

    /** A prompt return writes a stack entry. */
    predicate ReturnWritesSlot(interrupted: bool) {
      lastInput != "" || (interruptedIdx >= 0 && interruptedIdx >= offset && !interrupted)
    }

    /** Stack entries and tool slot describe nothing behind the first `matched` tokens, and
        no checkpoint lies behind `limit`. */
    predicate Undrifted(matched: nat, limit: nat) {
      && NoneBehind(limit)
      && (offset < |cps| ==> NoneBehind(matched))
      && (slotHasTarget && toolIdx >= 0 ==> toolNPast <= matched)
    }

    /** Where mode 2 cuts a cache that matches `matched` tokens of a request. */
    function CutPosition(matched: nat): nat {
      if DropsDirectly(matched) then matched
      else
        var a := Anchor(matched);
        if a >= 0 && cps[a].nPast >= 0 then cps[a].nPast else 0
    }

    /** It is the match wherever the memory can drop the rest by itself, and else no usable
        checkpoint at or before the match lies behind it. */
    lemma CutIsNewest(matched: nat)
      requires Sound(cps, |tracker|) && matched <= |tracker|
      ensures !cache.hybrid || matched == |tracker| ==> CutPosition(matched) == matched
      ensures 0 < matched && cache.rsIdx == 0 && |tracker| - matched <= cache.window ==> CutPosition(matched) == matched
      ensures forall i :: 0 <= i < |cps| && offset <= i && 0 <= cps[i].nPast <= matched ==>
              cps[i].nPast <= CutPosition(matched)
      ensures var cut := CutPosition(matched);
              cut == matched || cut == 0 || exists i :: 0 <= i < |cps| && offset <= i && cut == cps[i].nPast
    {
    }

    /** The bookkeeping of `before` after that cut: untouched if the cut is at the match;
        otherwise the tool slot is forgotten and the stack entries behind the anchor, or all
        of them, are gone. */
    ghost predicate IsCutOf(before: View, matched: nat) {
      var a := before.Anchor(matched);
      var direct := before.DropsDirectly(matched);
      && slotHasTarget == before.slotHasTarget && toolNPast == before.toolNPast
      && (cache.hybrid ==> (cache.rsRestored <==>
          !direct && a >= 0 && |before.tracker| - before.cps[a].nPast <= cache.window))
      && if direct || (a >= 0 && before.cps[a].nPast == matched) then
           (cache.stack, offset, toolIdx, slotSaved) == (before.cache.stack, before.offset, before.toolIdx,
               before.slotSaved)
         else
           && toolIdx == -1 && !slotSaved
           && if a < 0 then cache.stack == [] && offset == |before.cps|
              else if a == |before.cps| - 1 then cache.stack == before.cache.stack && offset == before.offset
              else offset == a + 1 && |cache.stack| == a - before.offset + 1 && cache.stack <= before.cache.stack
    }

    /** Mode 2 may cut this cache at a match of `matched` tokens with a request of `limit`
        tokens: what is left is aligned. */
    predicate DriftSound(matched: nat, limit: nat) {
      !cache.hybrid ||
      if DropsDirectly(matched) then
        cache.CutIsRight(matched) && Undrifted(matched, limit)
      else
        var a := Anchor(matched);
        if a < 0 then NoneBehind(limit)
        else
          && |tracker| - cps[a].nPast > cache.window
          && if cps[a].nPast == matched then Undrifted(matched, limit) else a == |cps| - 1 && !slotSaved
    }
  }

  class Session {
    const mem: Memory
    const nBatch: nat
    const system: Tokens
    var tracker: Tokens           // all_context_tokens
    var nPast: int
    var cps: seq<PromptCheckpoint>
    var offset: int               // checkpoint_stack_offset
    var toolIdx: int              // tool_correction_checkpoint_idx
    var toolNPast: nat            // tool_correction_n_past
    var slotHasTarget: bool       // has_tool_correction_checkpoint
    var slotSaved: bool           // rs_checkpoint_saved_this_turn
    var interruptedIdx: int
    var lastInput: string
    var rows: seq<Row>            // batch_: the rows the next generation may sample
    var lastContext: int          // last_context_: n_past at the latest 90% check
    ghost var stops: nat          // interrupts seen while feeding

    // --- Invariants ------------------------------------------------------------

    /** Tracker, attention rows and n_past agree. */
    ghost predicate InStep()
      reads this`tracker, this`nPast, mem
    {
      mem.State().PendingIsAhead() && tracker == mem.attn && nPast == |tracker| && nBatch > 0
    }

    /** InStep, and the recurrent state agrees too. */
    ghost predicate Lockstep()
      reads this`tracker, this`nPast, mem
    {
      InStep() && mem.State().Coherent()
    }

    /** Every checkpoint is a position of the tracker, oldest first. */
    ghost predicate CheckpointsOrdered()
      reads this`cps, this`tracker, this`interruptedIdx, this`lastInput
    {
      && (forall i :: 0 <= i < |cps| ==> 0 < cps[i].nPast <= |tracker|)
      && (forall i, j :: 0 <= i <= j < |cps| ==> cps[i].nPast <= cps[j].nPast)
      && -1 <= interruptedIdx < |cps|
      && (interruptedIdx >= 0 ==> interruptedIdx == |cps| - 1 && lastInput == "")
    }

    /** Stack entry j is the recurrent state of checkpoint j + offset; one more
        entry exists exactly while this turn's tool slot is pushed. */
    ghost predicate SlotsAligned()
      reads this`cps, this`offset, this`tracker, this`toolIdx, this`toolNPast, this`slotHasTarget,
            this`slotSaved, mem`stack
    {
      mem.hybrid ==> Aligned(mem.stack, tracker, cps, offset, toolIdx, toolNPast, slotHasTarget, slotSaved)
    }

    ghost predicate HoldsPrefix(j: int, p: int)
      reads this`tracker, mem`stack
    {
      Holds(mem.stack, tracker, j, p)
    }

    /** The tool slot's bookkeeping. */
    ghost function Slot(): (int, nat, bool, bool)
      reads this`toolIdx, this`toolNPast, this`slotHasTarget, this`slotSaved
    {
      (toolIdx, toolNPast, slotHasTarget, slotSaved)
    }

    /** The batch's last row was computed from exactly the tracker. */
    ghost predicate Ready()
      reads this`rows, this`tracker
    {
      rows != [] ==> rows[|rows| - 1] == Exact(tracker)
    }

    /** No roll-back is pending in the recurrent state. */
    ghost predicate NothingPending()
      reads mem
    {
      mem.hybrid ==> mem.rsIdx == 0
    }

    /** A slot that holds the rollback target has an index. */
    ghost predicate SlotKnown()
      reads this`slotHasTarget, this`toolIdx
    {
      mem.hybrid && slotHasTarget ==> toolIdx >= 0
    }

    /** The session as a value. */
    function Look(): View
      reads this, mem
    {
      View(mem.State(), tracker, cps, offset, toolIdx, toolNPast, slotHasTarget, slotSaved, interruptedIdx, lastInput)
    }

    ghost predicate Inv()
      reads this, mem
    {
      && Lockstep()
      && CheckpointsOrdered()
      && SlotsAligned()
      && (mem.hybrid ==> !mem.rsRestored)
    }

    /** A session over an empty memory, before the system prompt is fed. */
    constructor (mem: Memory, nBatch: nat, system: Tokens)
      requires nBatch > 0 && mem.State().Settled() && mem.attn == [] && mem.stack == []
      ensures Inv() && Ready() && tracker == [] && cps == []
      ensures this.mem == mem && this.system == system && offset == 0
      ensures Slot() == (-1, 0, false, false) && interruptedIdx == -1 && lastInput == ""
    {
      this.mem, this.nBatch, this.system := mem, nBatch, system;
      tracker, nPast, cps, offset := [], 0, [], 0;
      toolIdx, toolNPast, slotHasTarget, slotSaved := -1, 0, false, false;
      interruptedIdx, lastInput, rows, lastContext, stops := -1, "", [], 0, 0;
    }

    // --- feed_tokens_impl --------------------------------------------------------

    /** Feed tokens in n_batch chunks.  Whatever is interrupted or fails, the
        tracker gains exactly the decoded prefix, and the recurrent state is right
        afterwards exactly when it was right before.  The next generation samples the row
        of the last token fed. */
    method Feed(toks: Tokens) returns (ok: bool)
      requires InStep()
      modifies this`tracker, this`nPast, this`rows, mem`attn, mem`planes, mem`rsIdx, this`stops, mem`faults
      ensures InStep()
      ensures old(tracker) <= tracker <= old(tracker) + toks
      ensures ok ==> tracker == old(tracker) + toks
      ensures mem.State().Coherent() <==> old(mem.State().Coherent())
      ensures tracker == old(tracker) ==> mem.State() == old(mem.State())
      ensures tracker != old(tracker) ==> mem.rsIdx == 0
      ensures ok && Lockstep() ==> Ready() && (rows == [] <==> toks == [])
      ensures mem.faults >= old(mem.faults) && stops >= old(stops)
      ensures !ok ==> mem.faults > old(mem.faults) || stops > old(stops)
    {
      ghost var before := mem.State();
      var start := nPast;
      var failed;
      ghost var done;
      failed, done := QueueAndDecode(before, toks);
      ok := SettleFeed(before, toks, done, start, failed);
      if ok {
        rows := if toks == [] then [] else [LastRow(mem.State())];
      } else {
        rows := *;
      }
    }

    /** The decode loop of a feed. */
    method QueueAndDecode(ghost before: Cache, toks: Tokens) returns (failed: bool, ghost done: nat)
      requires InStep() && before == mem.State()
      modifies this`nPast, mem`attn, mem`planes, mem`rsIdx, this`stops, mem`faults
      ensures done <= |toks| && DecodedUpTo(before, toks, done)
      ensures !failed ==> nPast == |tracker| + done
      ensures mem.faults >= old(mem.faults) && stops >= old(stops)
      ensures failed || done < |toks| ==> mem.faults > old(mem.faults) || stops > old(stops)
    {
      var batch: Tokens := [];
      var start := nPast;
      failed := false;
      var i := 0;
      done := 0;
      while i < |toks| && !failed
        invariant 0 <= i <= |toks| && done <= |toks|
        invariant failed || (done + |batch| == i && batch == toks[done..i] && nPast == start + i)
        invariant !failed && i < |toks| ==> |batch| < nBatch
        invariant failed || i < |toks| || toks == [] || |batch| > 0
        invariant DecodedUpTo(before, toks, done) && tracker == before.attn
        invariant mem.faults >= old(mem.faults) && stops >= old(stops)
        invariant failed ==> mem.faults > old(mem.faults) || stops > old(stops)
      {
        var stop: bool := *;
        if stop {
          failed, stops := true, stops + 1;
          break;
        }
        batch := batch + [toks[i]];
        nPast := nPast + 1;
        if |batch| == nBatch && i != |toks| - 1 {
          var decoded;
          decoded, done := DecodeQueued(before, toks, done, batch, nPast - |batch|, true);
          if !decoded {
            failed := true;
            break;
          }
          batch := [];
        }
        i := i + 1;
      }
      if !failed && |batch| > 0 {
        var decoded;
        decoded, done := DecodeQueued(before, toks, done, batch, nPast - |batch|, false);
        if !decoded {
          failed := true;
        } else {
          nPast := mem.Length();
        }
      }
    }

    /** The end of a feed: attach what was decoded to the tracker. */
    method SettleFeed(ghost before: Cache, toks: Tokens, ghost done: nat, start: int, stopped: bool) returns (ok: bool)
      requires before.Valid() && done <= |toks| && DecodedUpTo(before, toks, done)
      requires tracker == before.attn && start == |tracker|
      requires !stopped ==> nPast == start + done
      modifies this`tracker, this`nPast
      ensures mem.attn == tracker == before.attn + toks[..done] && nPast == |tracker|
      ensures ok ==> done == |toks|
      ensures !ok ==> stopped || done < |toks|
    {
      var failed := stopped;
      if !failed && nPast != start + |toks| {
        nPast := mem.Length();
        failed := true;
      }
      if failed {
        nPast := mem.Length();
        var decoded := if nPast - start < |toks| then nPast - start else |toks|;
        if decoded > 0 {
          tracker := tracker + toks[..decoded];
        }
        return false;
      }
      assert toks[..done] == toks;
      tracker := tracker + toks;
      return true;
    }

    /** The memory is `before` with the first `done` tokens of a feed decoded. */
    ghost predicate DecodedUpTo(before: Cache, toks: Tokens, done: nat)
      reads mem
      requires done <= |toks| && before.Valid()
    {
      && mem.State().Valid()
      && mem.attn == before.attn + toks[..done]
      && (mem.State().Coherent() <==> before.Coherent())
      && (if done == 0 then mem.State() == before else mem.rsIdx == 0)
      && mem.stack == before.stack && mem.rsRestored == before.rsRestored
    }

    /** Decode the queued rows of a feed. */
    method DecodeQueued(ghost before: Cache, ghost toks: Tokens, ghost done: nat, batch: Tokens, start: int,
        shouldBreak: bool)
      returns (ok: bool, ghost done': nat)
      requires before.Valid() && done + |batch| <= |toks| && batch == toks[done..done + |batch|] != []
      requires DecodedUpTo(before, toks, done)
      modifies mem`attn, mem`planes, mem`rsIdx, mem`faults
      ensures done <= done' <= done + |batch| && DecodedUpTo(before, toks, done')
      ensures ok && shouldBreak ==> done' == done + |batch|
      ensures mem.faults >= old(mem.faults) && (!ok || done' < done + |batch| ==> mem.faults > old(mem.faults))
    {
      ghost var current := mem.State();
      ghost var rows;
      ghost var code;
      ok, rows, code := HandleDecode(mem, batch, start, shouldBreak);
      DecodeKeepsCoherence(current, batch[..rows]);
      done' := done + rows;
      assert toks[..done] + batch[..rows] == toks[..done'];
      assert before.attn + toks[..done] + batch[..rows] == before.attn + (toks[..done] + batch[..rows]);
    }

    static lemma DecodeKeepsCoherence(c: Cache, toks: Tokens)
      requires c.Valid()
      ensures c.Decode(toks).Coherent() <==> c.Coherent()
      ensures toks == [] ==> c.Decode(toks) == c
      ensures toks != [] ==> c.Decode(toks).rsIdx == 0
    {
      if toks != [] && c.hybrid {
        var r := c.Decode(toks);
        assert r.Recurrent() == c.Recurrent() + toks[..|toks|] == c.Recurrent() + toks;
        if c.Recurrent() + toks == c.attn + toks {
          assert |c.Recurrent()| == |c.attn|;
          assert c.Recurrent() == (c.Recurrent() + toks)[..|c.attn|] == (c.attn + toks)[..|c.attn|] == c.attn;
        }
      }
    }

    // --- Tool-correction slot ----------------------------------------------------

    /** The per-turn reset at the top of generate_response. */
    method BeginGeneration(isCorrection: bool)
      requires Inv()
      modifies this`slotHasTarget
      ensures Inv()
      ensures !isCorrection ==> SlotKnown()
      ensures slotHasTarget == (old(slotHasTarget) && (isCorrection || toolIdx >= 0))
    {
      if !isCorrection && toolIdx < 0 {
        slotHasTarget := false;
      }
    }

    /** The FUNC_START hook.  `lockstep` says that the memory holds no uncommitted
        rows, so the recurrent state may be saved. */
    method OnToolStart(lockstep: bool)
      requires mem.State().Valid() && nPast == |tracker| && tracker != [] && SlotsAligned()
      requires lockstep ==> mem.attn == tracker && (mem.hybrid ==> mem.planes[0] == tracker)
      modifies this`toolIdx, this`slotSaved, this`slotHasTarget, this`toolNPast, mem`stack
      ensures SlotsAligned()
      ensures toolIdx >= 0 || !mem.hybrid
      ensures toolNPast == nPast && slotHasTarget == lockstep
      ensures lockstep && mem.hybrid ==> slotSaved && HoldsPrefix(toolIdx, nPast)
      ensures !lockstep ==> mem.State() == old(mem.State()) && slotSaved == old(slotSaved)
    {
      assert tracker[..nPast] == tracker;
      if toolIdx < 0 {
        toolIdx := |cps| - offset;
      }
      if lockstep {
        if slotSaved {
          if toolIdx >= 0 {
            mem.Overwrite(toolIdx);
          }
        } else {
          mem.Save();
          slotSaved := true;
        }
        slotHasTarget := true;
      } else {
        slotHasTarget := false;
      }
      toolNPast := nPast;
    }

    /** The prompt-return block: record a checkpoint and give it a stack entry.
        The bookkeeping is always exact; the stack stays aligned exactly when nothing is
        written or no roll-back is pending, i.e. when the generation did not end by
        rolling back verify rows. */
    method PromptReturn(interrupted: bool, ctxLimit: bool)
      requires Inv() && tracker != []
      modifies this`cps, this`toolIdx, this`slotSaved, this`interruptedIdx, this`lastInput, mem`stack
      ensures Lockstep() && CheckpointsOrdered()
      ensures Look().Filed() == old(Look()).Recorded(interrupted, ctxLimit)
      ensures old(lastInput) != "" ==>
                && cps == old(cps) + [PromptCheckpoint(nPast, if interrupted && ctxLimit then "/continue" else old(lastInput))]
                && lastInput == (if interrupted && ctxLimit then old(lastInput) else "")
                && interruptedIdx == (if interrupted && !ctxLimit then |old(cps)| else -1)
      ensures old(lastInput) == "" && old(interruptedIdx) >= 0 && !interrupted ==>
                && cps == old(cps)[old(interruptedIdx) := old(cps)[old(interruptedIdx)].(nPast := nPast)]
                && lastInput == "" && interruptedIdx == -1
      ensures old(lastInput) == "" && (old(interruptedIdx) < 0 || interrupted) ==>
                cps == old(cps) && lastInput == "" && interruptedIdx == old(interruptedIdx)
      ensures Inv() <==> (mem.hybrid && old(Look()).ReturnWritesSlot(interrupted) ==> mem.rsIdx == 0)
      ensures old(lastInput) != "" ==> toolIdx < 0 && (mem.hybrid ==> !slotSaved)
    {
      if lastInput != "" {
        RecordTurn(interrupted, ctxLimit);
      } else if 0 <= interruptedIdx < |cps| && !interrupted {
        AdvanceCheckpoint();
      }
    }

    /** The first `n` checkpoints that have stack entries have the right ones. */
    ghost predicate BackedUpTo(n: int)
      reads this`cps, this`offset, this`tracker, mem`stack
    {
      && 0 <= offset <= n <= |cps| && n - offset <= |mem.stack|
      && forall k :: offset <= k < n ==> HoldsPrefix(k - offset, cps[k].nPast)
    }

    method PushCheckpoint(prompt: string)
      requires Lockstep() && CheckpointsOrdered() && tracker != [] && toolIdx < 0
      requires mem.hybrid ==>
                 !slotSaved && BackedUpTo(|cps|) && |mem.stack| == |cps| - offset + 1
                     && mem.stack[|cps| - offset] == mem.planes[0]
      requires interruptedIdx < 0
      modifies this`cps
      ensures cps == old(cps) + [PromptCheckpoint(nPast, prompt)]
      ensures Lockstep() && CheckpointsOrdered()
      ensures SlotsAligned() <==> (mem.hybrid ==> mem.planes[0] == tracker)
    {
      var known := cps;
      cps := cps + [PromptCheckpoint(nPast, prompt)];
      assert tracker[..nPast] == tracker;
      if mem.hybrid {
        assert forall k :: 0 <= k < |known| ==> cps[k] == known[k];
        assert HoldsPrefix(|known| - offset, cps[|known|].nPast) <==> mem.planes[0] == tracker;
      }
    }

    method RecordTurn(interrupted: bool, ctxLimit: bool)
      requires Lockstep() && CheckpointsOrdered() && SlotsAligned() && tracker != [] && lastInput != ""
      modifies this`cps, this`toolIdx, this`slotSaved, this`interruptedIdx, this`lastInput, mem`stack
      ensures Lockstep() && CheckpointsOrdered()
      ensures cps == old(cps) + [PromptCheckpoint(nPast, if interrupted && ctxLimit then "/continue" else old(lastInput))]
      ensures lastInput == if interrupted && ctxLimit then old(lastInput) else ""
      ensures interruptedIdx == if interrupted && !ctxLimit then |old(cps)| else -1
      ensures toolIdx < 0 && (mem.hybrid ==> !slotSaved)
      ensures SlotsAligned() <==> (mem.hybrid ==> mem.planes[0] == tracker)
    {
      StoreFinalState();
      PushCheckpoint(if interrupted && ctxLimit then "/continue" else lastInput);
      if !(interrupted && ctxLimit) {
        interruptedIdx := if interrupted then |cps| - 1 else interruptedIdx;
        lastInput := "";
      }
    }

    /** A resumed turn has ended: its provisional checkpoint moves to the end. */
    method AdvanceCheckpoint()
      requires Lockstep() && CheckpointsOrdered() && SlotsAligned() && tracker != [] && interruptedIdx >= 0
      modifies this`cps, this`interruptedIdx, mem`stack
      ensures Lockstep() && CheckpointsOrdered() && |cps| == |old(cps)|
      ensures cps == old(cps)[old(interruptedIdx) := old(cps)[old(interruptedIdx)].(nPast := nPast)]
              && interruptedIdx == -1
      ensures SlotsAligned() <==> (mem.hybrid && old(interruptedIdx) >= offset ==> mem.planes[0] == tracker)
    {
      ghost var last := interruptedIdx;
      assert tracker[..nPast] == tracker;
      cps := cps[interruptedIdx := cps[interruptedIdx].(nPast := nPast)];
      var stackIdx := interruptedIdx - offset;
      if stackIdx >= 0 {
        mem.Overwrite(stackIdx);
      }
      interruptedIdx := -1;
      if mem.hybrid && stackIdx >= 0 {
        assert HoldsPrefix(last - offset, cps[last].nPast) <==> mem.planes[0] == tracker;
      }
    }

    /** The turn-end entry takes the place of the turn's tool slot, if it has one. */
    method StoreFinalState()
      requires Lockstep() && SlotsAligned() && tracker != []
      modifies this`toolIdx, this`slotSaved, mem`stack
      ensures mem.hybrid ==> mem.stack == old(mem.stack)[..|cps| - offset] + [mem.planes[0]]
      ensures !mem.hybrid ==> mem.stack == old(mem.stack)
      ensures toolIdx < 0 && (mem.hybrid ==> !slotSaved)
      ensures mem.hybrid ==> BackedUpTo(|cps|)
    {
      if toolIdx >= 0 && slotSaved {
        mem.Overwrite(toolIdx);
        toolIdx, slotSaved := -1, false;
      } else if toolIdx >= 0 {
        mem.Save();
        toolIdx, slotSaved := -1, false;
      } else {
        mem.Save();
      }
    }

    // --- Clearing ------------------------------------------------------------------

    /** Empty the memory and re-feed the system prompt.  The feed's own result is
        ignored, so a failure leaves a prefix of the system prompt. */
    method ClearContext()
      requires nBatch > 0 && mem.State().Valid()
      modifies this`tracker, this`nPast, this`rows, this`cps, mem, this`stops
      ensures InStep() && mem.State().Settled() && mem.stack == [] && cps == []
      ensures tracker <= system && tracker == system[..|tracker|]
      ensures mem.faults >= old(mem.faults) && stops >= old(stops)
      ensures mem.faults == old(mem.faults) && stops == old(stops) ==>
                tracker == system && Ready() && (rows == [] <==> system == [])
    {
      mem.Clear();
      nPast, tracker, cps := 0, [], [];
      var _ := Feed(system);
      assert [] + system == system;
    }

    method ClearSession()
      requires nBatch > 0 && mem.State().Valid()
      modifies this`tracker, this`nPast, this`rows, this`cps, this`offset, this`toolIdx, this`slotSaved,
               this`interruptedIdx, mem, this`stops
      ensures Inv() && cps == [] && tracker <= system
      ensures toolIdx == -1 && !slotSaved && offset == 0 && mem.stack == [] && mem.State().Settled()
      ensures mem.faults >= old(mem.faults) && stops >= old(stops)
      ensures mem.faults == old(mem.faults) && stops == old(stops) ==>
                tracker == system && Ready() && (rows == [] <==> system == [])
    {
      ClearContext();
      slotSaved, interruptedIdx := false, -1;
      offset, toolIdx := 0, -1;
    }

    // --- Undo ----------------------------------------------------------------------

    /** The undo command.  A regenerated or failed undo always restores the whole
        invariant; an instant one exactly when InstantUndoSound held before. */
    method Undo(sel: nat) returns (path: UndoPath)
      requires Inv() && sel < |cps| - 1
      modifies this`tracker, this`nPast, this`rows, this`cps, this`offset, this`toolIdx, this`slotSaved,
               this`interruptedIdx, mem, this`stops
      ensures path == Instant <==> old(Look()).InstantUndo(sel)
      ensures path != FreshSession ==>
                InStep() && cps == old(cps[..sel + 1]) && tracker == old(tracker[..cps[sel].nPast])
      ensures path == FreshSession ==> cps == [] && tracker <= system
      ensures path == Regenerated ==> mem.State().Settled() && toolIdx < 0 && offset == |cps| - 1
      ensures path == Instant ==> (Lockstep() <==> old(Look()).InstantUndoRight(sel))
      ensures Inv() <==> path != Instant || old(Look()).InstantUndoSound(sel)
      ensures mem.faults >= old(mem.faults) && stops >= old(stops)
      ensures path == FreshSession ==> mem.faults > old(mem.faults) || stops > old(stops)
    {
      var ok := TryInstant(sel);
      if ok {
        path := Instant;
        ForgetAfter(sel);
        CheckpointsSurvive(sel);
        InstantUndoInv(sel);
      } else {
        var decoded := Regenerate(sel, cps[sel].nPast);
        if !decoded {
          ClearSession();
          return FreshSession;
        }
        path := Regenerated;
        ForgetAfter(sel);
        CheckpointsSurvive(sel);
      }
    }

    /** Truncate the tracker and roll the memory back to the target. */
    method TryInstant(sel: nat) returns (ok: bool)
      requires Inv() && sel < |cps| - 1
      modifies this`tracker, this`nPast, mem
      ensures ok <==> old(Look()).InstantUndo(sel)
      ensures mem.State().Valid() && tracker == old(tracker[..cps[sel].nPast])
      ensures ok ==> InStep() && (Lockstep() <==> old(Look()).InstantUndoRight(sel))
      ensures ok && mem.hybrid ==>
                (mem.rsRestored <==> sel >= offset && |old(tracker)| - cps[sel].nPast <= mem.window)
      ensures ok && mem.hybrid ==>
                mem.stack == if sel >= offset then old(mem.stack)[..sel - offset + 1] else old(mem.stack)
      ensures mem.faults == old(mem.faults)
    {
      var target := cps[sel].nPast;
      assert mem.hybrid && sel >= offset ==> HoldsPrefix(sel - offset, target);
      tracker := tracker[..target];
      ok := RollBackTo(sel - offset, target);
      if ok {
        nPast := target;
      }
    }

    /** The checkpoints up to the target still describe the shortened tracker. */
    twostate lemma CheckpointsSurvive(sel: nat)
      requires old(Inv()) && sel < |old(cps)| - 1
      requires cps == old(cps)[..sel + 1] && tracker == old(tracker)[..old(cps)[sel].nPast]
      requires interruptedIdx == -1
      ensures CheckpointsOrdered()
      ensures forall k :: 0 <= k <= sel ==>
              0 < cps[k].nPast <= |tracker| && tracker[..cps[k].nPast] == old(tracker)[..cps[k].nPast]
    {
      forall k | 0 <= k <= sel
        ensures 0 < cps[k].nPast <= |tracker| && tracker[..cps[k].nPast] == old(tracker)[..cps[k].nPast]
      {
        assert cps[k] == old(cps)[k];
      }
    }

    /** What an instant undo leaves is aligned exactly under InstantUndoSound. */
    twostate lemma InstantUndoInv(sel: nat)
      requires old(Inv()) && sel < |old(cps)| - 1
      requires cps == old(cps)[..sel + 1] && tracker == old(tracker)[..old(cps)[sel].nPast]
      requires InStep() && (Lockstep() <==> old(Look()).InstantUndoRight(sel)) && old(Look()).InstantUndo(sel)
      requires CheckpointsOrdered() && !slotSaved && toolIdx == old(toolIdx) && slotHasTarget == old(slotHasTarget)
      requires forall k :: 0 <= k <= sel ==>
              0 < cps[k].nPast <= |tracker| && tracker[..cps[k].nPast] == old(tracker)[..cps[k].nPast]
      requires mem.hybrid ==>
                 && offset == (if sel >= old(offset) then old(offset) else sel + 1)
                 && (mem.rsRestored <==> sel >= old(offset) && |old(tracker)| - old(cps)[sel].nPast <= mem.window)
                 && mem.stack == if sel >= old(offset) then old(mem.stack)[..sel - offset + 1] else old(mem.stack)
      ensures Inv() <==> old(Look()).InstantUndoSound(sel)
    {
      if mem.hybrid && sel >= old(offset) {
        forall k | offset <= k <= sel
          ensures HoldsPrefix(k - offset, cps[k].nPast)
        {
          assert cps[k] == old(cps)[k];
          assert old(HoldsPrefix(k - offset, cps[k].nPast));
        }
      }
    }

    /** The memory side of an instant undo: restore, truncate, prune. */
    method RollBackTo(stackIdx: int, target: nat) returns (ok: bool)
      requires mem.State().Coherent() && mem.State().PendingIsAhead()
      requires 0 < target <= |mem.attn| && (mem.hybrid ==> !mem.rsRestored)
      requires mem.hybrid && stackIdx >= 0 ==>
                 stackIdx < |mem.stack| && mem.stack[stackIdx] == mem.attn[..target]
      modifies mem
      ensures var d := |old(mem.attn)| - target;
              ok <==> !mem.hybrid || stackIdx >= 0 || d == 0 || (old(mem.rsIdx) == 0 && d <= mem.window)
      ensures mem.State().Valid() && (ok ==> mem.State().PendingIsAhead())
      ensures ok ==> mem.attn == old(mem.attn)[..target]
      ensures var d := |old(mem.attn)| - target;
              ok ==> (mem.State().Coherent() <==>
                      !mem.hybrid || d == 0 || d > mem.window || old(mem.planes)[d] == mem.attn)
      ensures ok && mem.hybrid ==>
                (mem.rsRestored <==> stackIdx >= 0 && |old(mem.attn)| - target <= mem.window)
      ensures ok && mem.hybrid ==> mem.stack == if stackIdx >= 0 then old(mem.stack)[..stackIdx + 1] else old(mem.stack)
      ensures !mem.hybrid ==> mem.stack == old(mem.stack)
      ensures mem.faults == old(mem.faults)
    {
      assert mem.attn[..|mem.attn|] == mem.attn;
      if stackIdx >= 0 {
        mem.Restore(stackIdx);
      }
      ok := mem.SeqRm(target);
      if ok && stackIdx >= 0 {
        mem.Prune(stackIdx);
      }
    }

    /** The fallback of an undo: clear and re-decode the kept prefix, which then is
        the only checkpoint with a stack entry. */
    method Regenerate(sel: nat, target: nat) returns (ok: bool)
      requires nBatch > 0 && mem.State().Valid() && 0 < target == |tracker|
      modifies this`tracker, this`nPast, this`rows, this`offset, this`toolIdx, this`slotSaved, mem, this`stops
      ensures mem.State().Valid()
      ensures ok ==> InStep() && tracker == old(tracker) && mem.State().Settled()
      ensures ok ==> offset == sel && toolIdx < 0 && !slotSaved
      ensures ok && mem.hybrid ==> mem.stack == [tracker]
      ensures mem.faults >= old(mem.faults) && stops >= old(stops)
      ensures !ok ==> mem.faults > old(mem.faults) || stops > old(stops)
    {
      mem.Clear();
      nPast := 0;
      offset, toolIdx, slotSaved := |cps|, -1, false;
      var prefix := tracker;
      tracker := [];
      ok := Feed(prefix);
      if !ok {
        return;
      }
      mem.Save();
      offset := sel;
    }

    /** Drop the checkpoints after `sel` and count how many of them had no stack
        entry. */
    method ForgetAfter(sel: nat)
      requires sel < |cps|
      modifies this`cps, this`offset, this`slotSaved, this`interruptedIdx
      ensures cps == old(cps)[..sel + 1] && !slotSaved && interruptedIdx == -1
      ensures old(offset) <= sel ==> offset == Max0(old(offset))
      ensures sel < old(offset) <= |old(cps)| ==> offset == sel + 1
    {
      var erased := 0;
      var i := sel + 1;
      while i < |cps|
        invariant sel + 1 <= i <= |cps| && cps == old(cps) && offset == old(offset)
        invariant erased == Max0((if offset < i then offset else i) - (sel + 1))
      {
        if i < offset {
          erased := erased + 1;
        }
        i := i + 1;
      }
      cps := cps[..sel + 1];
      offset := Max0(offset - erased);
      slotSaved, interruptedIdx := false, -1;
    }

    // --- Tool-correction rollback --------------------------------------------------

    /** The newest checkpoint that has a stack entry and lies at or before the
        rollback target; -1 if there is none. */
    method FindAnchor(target: nat) returns (anchor: int)
      ensures anchor == Look().Anchor(target)
    {
      anchor := -1;
      var i := |cps| - 1;
      while i >= 0
        invariant -1 <= i < |cps| && anchor == -1
        invariant Look().Anchor(target) == Look().AnchorBelow(target, i + 1)
      {
        if cps[i].nPast <= target && i - offset >= 0 {
          anchor := i;
          break;
        }
        i := i - 1;
      }
    }

    method TrySlot() returns (ok: bool)
      requires InStep() && mem.State().Coherent() && SlotsAligned() && slotHasTarget && (mem.hybrid ==> toolIdx >= 0)
      requires toolNPast <= |tracker|
      modifies this`tracker, this`nPast, mem
      ensures ok && InStep() && tracker == old(tracker)[..toolNPast] && mem.stack == old(mem.stack)
      ensures mem.State().Coherent() <==> old(mem.State()).CutIsRight(toolNPast)
      ensures mem.hybrid ==> (mem.rsRestored <==> |old(tracker)| - toolNPast <= mem.window)
      ensures mem.faults == old(mem.faults) && (!mem.rsRestored ==> NothingPending())
    {
      assert mem.attn[..|mem.attn|] == mem.attn;
      assert mem.hybrid ==> mem.stack[..toolIdx + 1] == mem.stack;
      if toolIdx >= 0 {
        mem.Restore(toolIdx);
        mem.Prune(toolIdx);
      }
      ok := mem.SeqRm(toolNPast);
      if ok {
        nPast := toolNPast;
        tracker := tracker[..toolNPast];
      }
    }

    method TruncateToAnchor(anchor: nat) returns (ok: bool)
      requires InStep() && mem.State().Coherent() && SlotsAligned()
      requires offset <= anchor < |cps| && 0 < cps[anchor].nPast <= |tracker|
      modifies mem
      ensures ok && mem.State().PendingIsAhead()
      ensures mem.attn == old(tracker)[..cps[anchor].nPast] && mem.stack == old(mem.stack)
      ensures mem.State().Coherent() <==> old(mem.State()).CutIsRight(cps[anchor].nPast)
      ensures mem.hybrid ==> (mem.rsRestored <==> |tracker| - cps[anchor].nPast <= mem.window)
      ensures mem.faults == old(mem.faults) && (!mem.rsRestored ==> NothingPending())
    {
      assert mem.attn[..|mem.attn|] == mem.attn;
      assert mem.hybrid ==> HoldsPrefix(anchor - offset, cps[anchor].nPast);
      mem.Restore(anchor - offset);
      ok := mem.SeqRm(cps[anchor].nPast);
    }

    /** Truncate to a checkpoint and re-decode the tracker from there up to the
        rollback target. */
    method RedecodeFrom(anchor: nat) returns (fed: bool)
      requires Inv() && offset <= anchor < |cps| && cps[anchor].nPast <= toolNPast <= |tracker|
      modifies this`tracker, this`nPast, this`rows, mem, this`stops
      ensures InStep() && tracker <= old(tracker) && mem.stack == old(mem.stack)
      ensures fed ==> tracker == old(tracker)[..toolNPast]
      ensures cps[anchor].nPast <= |tracker|
      ensures Lockstep() <==> old(mem.State()).CutIsRight(cps[anchor].nPast)
      ensures mem.hybrid ==> (mem.rsRestored <==> |old(tracker)| - cps[anchor].nPast <= mem.window)
      ensures !mem.rsRestored ==> NothingPending()
      ensures mem.faults >= old(mem.faults) && stops >= old(stops)
      ensures !fed ==> mem.faults > old(mem.faults) || stops > old(stops)
    {
      var pos := cps[anchor].nPast;
      var ok := TruncateToAnchor(anchor);
      if ok {
        nPast := pos;
        var suffix := tracker[pos..toolNPast];
        assert tracker[..pos] + suffix == tracker[..toolNPast];
        tracker := tracker[..pos];
        fed := Feed(suffix);
      } else {
        fed := false;
      }
    }

    /** What a rollback leaves once its memory side is known, with or without the whole
        suffix. */
    twostate lemma RollbackInv(reached: nat)
      requires old(Inv()) && toolNPast <= |old(tracker)|
      requires cps == old(cps) && offset == old(offset) && toolIdx == old(toolIdx) && toolNPast == old(toolNPast)
      requires slotHasTarget == old(slotHasTarget) && slotSaved == old(slotSaved)
      requires interruptedIdx == old(interruptedIdx) && lastInput == old(lastInput)
      requires reached <= |old(tracker)|
      requires InStep() && tracker <= old(tracker) && mem.stack == old(mem.stack)
      requires slotHasTarget ==> tracker == old(tracker)[..toolNPast]
      requires Lockstep() <==> old(mem.State()).CutIsRight(reached)
      requires mem.hybrid ==> (mem.rsRestored <==> |old(tracker)| - reached <= mem.window)
      ensures Inv() <==>
              && Look().NoneBehind(|tracker|)
              && (mem.hybrid ==> |old(tracker)| - reached > mem.window)
    {
      if mem.hybrid && CheckpointsOrdered() {
        assert tracker == old(tracker)[..|tracker|];
        forall k | offset <= k < |cps|
          ensures HoldsPrefix(k - offset, cps[k].nPast)
        {
          assert old(HoldsPrefix(k - offset, cps[k].nPast));
        }
        assert slotHasTarget && toolIdx >= 0 ==> old(HoldsPrefix(toolIdx, toolNPast));
      }
    }

    /** rollback_to_tool_checkpoint returns 0 if the slot was restored, 2 if the suffix
        after the newest usable checkpoint was re-decoded, -1 on failure.

        Both successful paths end at exactly the first toolNPast tokens; a failed
        one leaves a truncated session that is still in step.  The whole invariant
        is restored exactly when no checkpoint lies behind the end of what is left and,
        on a hybrid model, the restored position lies outside the snapshot window: a
        shorter distance leaves the restore flag set. */
    method RollbackToToolCheckpoint() returns (rc: int, anchor: int)
      requires Inv() && SlotKnown()
      modifies this`tracker, this`nPast, this`rows, mem, this`stops
      ensures rc == 0 || rc == 2 || rc == -1
      ensures rc == 0 <==> slotHasTarget && toolNPast <= |old(tracker)|
      ensures InStep() && tracker <= old(tracker) && mem.stack == old(mem.stack)
      ensures rc >= 0 ==> toolNPast <= |old(tracker)| && tracker == old(tracker)[..toolNPast]
      ensures rc == 2 ==> anchor >= 0
      ensures anchor >= 0 ==> !slotHasTarget && anchor == old(Look()).Anchor(toolNPast)
      ensures -1 <= anchor < |cps|
      ensures anchor >= 0 ==> 0 <= cps[anchor].nPast <= toolNPast <= |old(tracker)| && cps[anchor].nPast <= |tracker|
      ensures rc == -1 && anchor < 0 ==> tracker == old(tracker) && mem.State() == old(mem.State())
      ensures rc == 0 ==> (Lockstep() <==> old(mem.State()).CutIsRight(toolNPast))
      ensures anchor >= 0 ==> (Lockstep() <==> old(mem.State()).CutIsRight(cps[anchor].nPast))
      ensures rc >= 0 || anchor >= 0 ==>
                (Inv() <==>
                 && Look().NoneBehind(|tracker|)
                 && (mem.hybrid ==> |old(tracker)| - (if rc == 0 then toolNPast else cps[anchor].nPast) > mem.window))
      ensures mem.faults >= old(mem.faults) && stops >= old(stops)
      ensures rc < 0 && anchor >= 0 ==> mem.faults > old(mem.faults) || stops > old(stops)
      ensures (rc >= 0 || anchor >= 0) && !mem.rsRestored ==> NothingPending()
      ensures rc < 0 && anchor < 0 <==> old(Look()).Reach() < 0
      ensures rc >= 0 || anchor >= 0 ==> old(Look()).Reach() == if rc == 0 then toolNPast else cps[anchor].nPast
    {
      hide SlotsAligned, Cache.CutIsRight, View.NoneBehind, Cache.PendingIsAhead, Cache.Coherent;
      rc, anchor := -1, -1;
      if |tracker| >= toolNPast {
        if slotHasTarget {
          var ok := TrySlot();
          rc := if ok then 0 else -1;
        }
        if rc < 0 {
          anchor := FindAnchor(toolNPast);
          if anchor >= 0 {
            var fed := RedecodeFrom(anchor);
            rc := if fed then 2 else -1;
          }
        }
        if rc >= 0 || anchor >= 0 {
          RollbackInv(if rc == 0 then toolNPast else cps[anchor].nPast);
        }
      }
    }

    // --- Restoring a saved session ---------------------------------------------------

    /** The length of the next decode of a slow restore: it ends on the next saved
        checkpoint when that lies inside the batch. */
    function NextChunk(total: nat, saved: seq<PromptCheckpoint>, i: nat, next: nat): (chunk: nat)
      requires i < total && nBatch > 0
      ensures 0 < chunk <= total - i && chunk <= nBatch
      ensures next < |saved| && saved[next].nPast > i ==>
                saved[next].nPast >= i + chunk
    {
      var full := Min(nBatch, total - i);
      if next < |saved| && i < saved[next].nPast < i + full then saved[next].nPast - i else full
    }

    /** Stack entry k was saved at position at[k], never before any of the
        checkpoints 0..k, and exactly at its own when the list is sound. */
    ghost predicate Recorded(tokens: Tokens, saved: seq<PromptCheckpoint>, at: seq<nat>, i: nat)
      reads mem`stack
      requires i <= |tokens|
    {
      && |at| <= |saved|
      && (forall k :: 0 <= k < |at| ==> 0 < at[k] <= i)
      && (forall j, k :: 0 <= j <= k < |at| ==> saved[j].nPast <= at[k])
      && (Sound(saved, |tokens|) ==> forall k :: 0 <= k < |at| ==> saved[k].nPast == at[k])
      && (mem.hybrid ==> |mem.stack| == |at| && forall k :: 0 <= k < |at| ==> mem.stack[k] == tokens[..at[k]])
    }

    /** Save every checkpoint the decode has reached. */
    method SaveReached(tokens: Tokens, saved: seq<PromptCheckpoint>, ghost at: seq<nat>, next: nat)
      returns (next': nat, ghost at': seq<nat>)
      requires mem.State().Settled() && 0 < nPast <= |tokens| && mem.attn == tokens[..nPast]
      requires next == |at| && Recorded(tokens, saved, at, nPast)
      requires Sound(saved, |tokens|) && next < |saved| ==> saved[next].nPast >= nPast
      modifies mem`stack
      ensures next' == |at'| && Recorded(tokens, saved, at', nPast)
      ensures next' < |saved| ==> saved[next'].nPast > nPast
      ensures mem.State().Settled()
    {
      next', at' := next, at;
      while next' < |saved| && saved[next'].nPast <= nPast
        invariant mem.State().Settled() && next' == |at'| && Recorded(tokens, saved, at', nPast)
        invariant Sound(saved, |tokens|) && next' < |saved| ==> saved[next'].nPast >= nPast
        decreases |saved| - next'
      {
        mem.Save();
        assert forall j :: 0 <= j < next' ==> saved[j].nPast <= nPast by {
          forall j | 0 <= j < next' ensures saved[j].nPast <= nPast {
            assert saved[j].nPast <= at'[j] <= nPast;
          }
        }
        at' := at' + [nPast];
        next' := next' + 1;
      }
    }

    /** Decode one chunk of a restore. */
    method DecodeChunk(tokens: Tokens, i: nat, chunk: nat) returns (ok: bool)
      requires mem.State().Settled() && i + chunk <= |tokens| && 0 < chunk && mem.attn == tokens[..i] && nPast == i
      modifies this`nPast, mem`attn, mem`planes, mem`rsIdx, this`stops, mem`faults
      ensures mem.State().Valid()
      ensures ok ==> mem.State().Settled() && mem.attn == tokens[..i + chunk] && nPast == i + chunk
      ensures mem.faults >= old(mem.faults) && stops >= old(stops)
      ensures !ok ==> mem.faults > old(mem.faults) || stops > old(stops)
    {
      ghost var before := mem.State();
      var batch := tokens[i..i + chunk];
      nPast := nPast + chunk;
      var stop: bool := *;
      if stop {
        ok, stops := false, stops + 1;
      } else {
        ghost var rows;
        ghost var code;
        ok, rows, code := HandleDecode(mem, batch, i, true);
        DecodeKeepsCoherence(before, batch[..rows]);
        assert ok ==> batch[..rows] == batch;
        assert tokens[..i] + batch == tokens[..i + chunk];
      }
      if !ok {
        nPast := mem.Length();
      }
    }

    /** The re-decode loop: all tokens, once and in order, each checkpoint saved
        when its position is reached. */
    method Redecode(tokens: Tokens, saved: seq<PromptCheckpoint>) returns (ok: bool, ghost at: seq<nat>)
      requires nBatch > 0 && mem.State().Settled() && mem.attn == [] && mem.stack == [] && nPast == 0
      modifies this`nPast, mem`attn, mem`planes, mem`rsIdx, mem`stack, this`stops, mem`faults
      ensures mem.State().Valid()
      ensures ok ==> mem.State().Settled() && mem.attn == tokens && nPast == |tokens|
      ensures ok ==> Recorded(tokens, saved, at, |tokens|)
      ensures ok && |at| < |saved| ==> !Sound(saved, |tokens|)
      ensures mem.faults >= old(mem.faults) && stops >= old(stops)
      ensures !ok ==> mem.faults > old(mem.faults) || stops > old(stops)
    {
      var i, next := 0, 0;
      at := [];
      ok := true;
      while i < |tokens| && ok
        invariant 0 <= i <= |tokens| && mem.State().Valid()
        invariant ok ==> mem.State().Settled() && mem.attn == tokens[..i] && nPast == i
        invariant ok ==> next == |at| && Recorded(tokens, saved, at, i)
        invariant ok && next < |saved| && Sound(saved, |tokens|) ==> saved[next].nPast > i
        invariant mem.faults >= old(mem.faults) && stops >= old(stops)
        invariant !ok ==> mem.faults > old(mem.faults) || stops > old(stops)
        decreases |tokens| - i, ok
      {
        var chunk := NextChunk(|tokens|, saved, i, next);
        ok := DecodeChunk(tokens, i, chunk);
        if ok {
          next, at := SaveReached(tokens, saved, at, next);
          i := i + chunk;
        }
      }
      assert tokens[..|tokens|] == tokens;
    }

    /** The slow path of a restore.  It succeeds with every stack entry exactly at
        its checkpoint if and only if the saved list is sound; a failed decode gives
        a fresh session. */
    method SlowRestore(tokens: Tokens, saved: seq<PromptCheckpoint>) returns (ok: bool)
      requires nBatch > 0 && mem.State().Valid() && toolIdx < 0 && !slotSaved
      modifies this`tracker, this`nPast, this`rows, this`cps, this`offset, this`toolIdx, this`slotSaved,
               this`interruptedIdx, mem, this`stops
      ensures ok ==> InStep() && mem.State().Settled() && tracker == tokens && cps == saved
      ensures ok && tokens != [] ==> rows == [Exact(tokens)]
      ensures ok ==> (Inv() <==> Sound(saved, |tokens|))
      ensures ok && mem.hybrid ==> (SlotsAligned() <==> Sound(saved, |tokens|))
      ensures !ok ==> Inv() && cps == [] && tracker <= system
      ensures mem.faults >= old(mem.faults) && stops >= old(stops)
      ensures !ok ==> mem.faults > old(mem.faults) || stops > old(stops)
    {
      mem.Clear();
      nPast, tracker := 0, [];
      ghost var at;
      ok, at := Redecode(tokens, saved);
      nPast := mem.Length();
      if !ok {
        ClearSession();
        return;
      }
      tracker, cps := tokens, saved;
      offset, interruptedIdx := 0, -1;
      if tokens != [] {
        rows := [LastRow(mem.State())];
      }
      RecordedIsAligned(tokens, saved, at);
    }

    /** What the re-decode recorded is an aligned stack exactly for a sound list. */
    lemma RecordedIsAligned(tokens: Tokens, saved: seq<PromptCheckpoint>, at: seq<nat>)
      requires Recorded(tokens, saved, at, |tokens|) && (|at| < |saved| ==> !Sound(saved, |tokens|))
      requires tracker == tokens && cps == saved && offset == 0 && interruptedIdx == -1 && toolIdx < 0 && !slotSaved
      ensures CheckpointsOrdered() <==> Sound(saved, |tokens|)
      ensures Sound(saved, |tokens|) ==> SlotsAligned()
      ensures mem.hybrid && SlotsAligned() ==> Sound(saved, |tokens|)
    {
      if mem.hybrid && SlotsAligned() {
        forall k | 0 <= k < |saved|
          ensures saved[k].nPast == at[k]
        {
          assert HoldsPrefix(k - offset, cps[k].nPast);
          assert |tokens[..saved[k].nPast]| == |tokens[..at[k]]|;
        }
      }
      if Sound(saved, |tokens|) && mem.hybrid {
        forall k | 0 <= k < |cps|
          ensures HoldsPrefix(k, cps[k].nPast)
        {
          assert saved[k].nPast == at[k];
        }
      }
    }

    /** The fast path of a restore: load the cached state, then save one stack entry
        for the restore point if the canary will run or there are checkpoints. */
    method FastRestore(tokens: Tokens, saved: seq<PromptCheckpoint>, canary: bool)
      requires nBatch > 0 && tokens != [] && toolIdx < 0 && !slotSaved
      modifies this`tracker, this`nPast, this`cps, this`offset, this`interruptedIdx, mem
      ensures Lockstep() && mem.State().Settled() && tracker == tokens && cps == saved
      ensures canary && mem.hybrid ==> mem.stack == [tokens]
      ensures Inv() <==> FastSound(mem.hybrid, saved, |tokens|, canary)
      ensures mem.faults == old(mem.faults)
    {
      mem.LoadState(tokens);
      nPast := mem.Length();
      tracker, cps := tokens, saved;
      SaveRestorePoint(canary);
      assert tokens[..|tokens|] == tokens;
      if cps != [] && Sound(saved, |tokens|) {
        assert tokens[..saved[|saved| - 1].nPast] == tokens <==> saved[|saved| - 1].nPast == |tokens|;
        assert HoldsPrefix(|cps| - 1 - offset, cps[|cps| - 1].nPast) || cps[|cps| - 1].nPast != |tokens| || !mem.hybrid;
      }
    }

    method SaveRestorePoint(canary: bool)
      requires Lockstep() && tracker != [] && mem.State().Settled() && mem.stack == []
      modifies this`offset, this`interruptedIdx, mem`stack
      ensures mem.State().Settled() && interruptedIdx == -1 && offset == Max0(|cps| - 1)
      ensures mem.stack == if mem.hybrid && (canary || cps != []) then [tracker] else []
    {
      if canary || cps != [] {
        mem.Save();
      }
      offset := if cps == [] then 0 else |cps| - 1;
      interruptedIdx := -1;
    }

    /** Dropping the canary's probe: the session is back at the restore point, and
        its recurrent state is exact unless the probe was no longer than the
        snapshot window and the snapshot is not the restore point's. */
    method RollBackCanary(point: nat)
      requires Lockstep() && 0 < point <= |tracker|
      requires mem.hybrid ==> |mem.stack| > 0 && mem.stack[0] == tracker[..point]
      modifies this`tracker, this`nPast, mem
      ensures InStep() && tracker == old(tracker)[..point] && mem.stack == old(mem.stack)
      ensures Lockstep() <==> old(mem.State()).CutIsRight(point)
      ensures !mem.rsRestored ==> NothingPending()
      ensures mem.hybrid ==> (mem.rsRestored <==> |old(tracker)| - point <= mem.window)
      ensures mem.faults == old(mem.faults)
    {
      assert mem.attn[..|mem.attn|] == mem.attn;
      mem.Restore(0);
      var ok := mem.SeqRm(point);
      if !ok {
        return;
      }
      nPast, tracker := point, tracker[..point];
    }

    // --- Reincarnation -----------------------------------------------------------------

    /** The reincarnation command: the request is fed as a turn, and the session state is
        reset.  The reset forgets a tool slot that an ejected correction left on the stack,
        so a hybrid session stays aligned exactly if there was none. */
    method BeginReincarnation(ask: Tokens) returns (ok: bool)
      requires Inv()
      modifies this`tracker, this`nPast, this`rows, this`slotSaved, this`interruptedIdx, mem`attn, mem`planes,
               mem`rsIdx, this`stops, mem`faults
      ensures old(tracker) <= tracker <= old(tracker) + ask && (ok ==> tracker == old(tracker) + ask)
      ensures Lockstep() && (Inv() <==> !ok || !mem.hybrid || !old(slotSaved))
      ensures ok ==> interruptedIdx == -1 && (ask != [] ==> mem.rsIdx == 0)
      ensures ok ==> Ready() && (rows == [] <==> ask == [])
      ensures mem.faults >= old(mem.faults) && stops >= old(stops)
      ensures !ok ==> mem.faults > old(mem.faults) || stops > old(stops)
    {
      ok := FeedRest(ask);
      if ok {
        slotSaved, interruptedIdx := false, -1;
      }
    }

    /** handle_reincarnate_completion: start over with one prompt.  When the prompt
        cannot be fed, the stack bookkeeping of the old session survives the clear, so the
        invariant holds only if that bookkeeping was already that of an empty session. */
    method Reincarnate(prompt: Tokens, fits: bool, title: string) returns (ok: bool)
      requires nBatch > 0 && mem.State().Valid() && prompt != [] && -1 <= interruptedIdx
      modifies this`tracker, this`nPast, this`rows, this`cps, this`offset, this`toolIdx, this`slotSaved,
               this`interruptedIdx, mem, this`stops
      ensures Lockstep() && (mem.hybrid ==> !mem.rsRestored)
      ensures ok ==> fits && Inv() && |cps| == 1 && cps[0] == PromptCheckpoint(nPast, title) && mem.rsIdx == 0
      ensures ok ==> exists n: nat :: n <= |system| && tracker == system[..n] + prompt
      ensures ok ==> rows != [] && Ready()
      ensures ok && mem.faults == old(mem.faults) && stops == old(stops) ==> tracker == system + prompt
      ensures !ok ==> cps == [] && (Inv() <==> old(Look()).BooksEmpty())
      ensures !fits && mem.faults == old(mem.faults) && stops == old(stops) ==> tracker == system
      ensures mem.faults >= old(mem.faults) && stops >= old(stops)
      ensures !ok && fits ==> mem.faults > old(mem.faults) || stops > old(stops)
    {
      ClearContext();
      ghost var n := |tracker|;
      if !fits {
        return false;
      }
      ok := Feed(prompt);
      if !ok {
        return;
      }
      assert tracker == system[..n] + prompt;
      FirstCheckpoint(title);
    }

    method FirstCheckpoint(title: string)
      requires InStep() && mem.State().Settled() && tracker != [] && mem.stack == [] && cps == []
      modifies this`cps, this`offset, this`toolIdx, this`slotSaved, this`interruptedIdx, mem`stack
      ensures Inv() && cps == [PromptCheckpoint(nPast, title)]
    {
      cps := [PromptCheckpoint(nPast, title)];
      mem.Save();
      offset, toolIdx, interruptedIdx, slotSaved := 0, -1, -1, false;
      assert Lockstep() && mem.State().Settled();
      assert CheckpointsOrdered();
      assert SlotsAligned() by {
        assert tracker[..nPast] == tracker;
        assert mem.hybrid ==> mem.stack == [tracker] && HoldsPrefix(0, nPast);
      }
    }

    // --- Feeding a prompt ----------------------------------------------------------------

    /** Typing a prompt names the turn and finalizes any provisional checkpoint. */
    method NewPrompt(input: string)
      requires Inv()
      modifies this`lastInput, this`interruptedIdx
      ensures Inv() && lastInput == input && interruptedIdx == -1
    {
      lastInput := input;
      interruptedIdx := -1;
    }

    /** Mode 1: re-decode the whole request on an empty memory. */
    method FeedWhole(request: Tokens) returns (ok: bool)
      requires nBatch > 0 && mem.State().Valid()
      modifies this`tracker, this`nPast, this`rows, this`cps, this`offset, this`toolIdx, this`slotSaved,
               this`interruptedIdx, mem, this`stops
      ensures Inv() && mem.State().Settled() && cps == [] && tracker <= request
      ensures ok ==> tracker == request && Ready() && (rows == [] <==> request == [])
      ensures mem.faults >= old(mem.faults) && stops >= old(stops)
      ensures !ok ==> mem.faults > old(mem.faults) || stops > old(stops)
    {
      mem.Clear();
      nPast, tracker, cps := 0, [], [];
      offset, toolIdx, interruptedIdx, slotSaved := 0, -1, -1, false;
      assert [] + request == request;
      ok := Feed(request);
    }

    /** The longest common prefix of the cached tokens and the request. */
    method MatchLength(request: Tokens) returns (n: nat)
      ensures n <= |tracker| && n <= |request| && tracker[..n] == request[..n]
      ensures n < |tracker| && n < |request| ==> tracker[n] != request[n]
      ensures n == |tracker| <==> tracker <= request
      ensures forall m :: 0 <= m <= n ==> tracker[..m] == request[..m]
    {
      n := 0;
      while n < |tracker| && n < |request| && tracker[n] == request[n]
        invariant n <= |tracker| && n <= |request| && tracker[..n] == request[..n]
        decreases |tracker| - n
      {
        assert tracker[..n + 1] == tracker[..n] + [tracker[n]];
        assert request[..n + 1] == request[..n] + [request[n]];
        n := n + 1;
      }
      assert forall m :: 0 <= m <= n ==> tracker[..m] == tracker[..n][..m] && request[..m] == request[..n][..m];
      assert tracker[..|tracker|] == tracker;
    }

    /** Mode 2: keep the matching prefix of the cache and decode only the rest.

        A success ends at the tokens of mode 1.  The cache is cut at the match, else at the
        newest usable checkpoint before it, else at 0; the recurrent state is mode 1's too
        exactly when that cut is right.  The whole invariant is kept exactly when there was
        no drift or DriftSound held before, and no checkpoint lies behind what was decoded. */
    method FeedDelta(request: Tokens) returns (ok: bool, cut: nat, matched: nat)
      requires Inv() && interruptedIdx == -1
      modifies this`tracker, this`nPast, this`rows, this`cps, this`offset, this`toolIdx, this`slotSaved, mem, this`stops
      ensures InStep() && tracker <= request && (ok ==> tracker == request)
      ensures matched <= |old(tracker)| && matched <= |request| && old(tracker)[..matched] == request[..matched]
      ensures matched < |old(tracker)| && matched < |request| ==> old(tracker)[matched] != request[matched]
      ensures cut == old(Look()).CutPosition(matched) <= matched && cut <= |tracker|
      ensures cps == if matched < |old(tracker)| then Within(old(cps), |request|) else old(cps)
      ensures Lockstep() <==> old(mem.State()).CutIsRight(cut)
      ensures Inv() <==>
              && (matched < |old(tracker)| ==> old(Look()).DriftSound(matched, |request|))
              && Look().NoneBehind(|tracker|)
      ensures ok ==> Look().NoneBehind(|tracker|)
      ensures !mem.hybrid || matched == |old(tracker)| ==> cut == matched
      ensures 0 < matched && old(mem.rsIdx) == 0 && |old(tracker)| - matched <= mem.window ==> cut == matched
      ensures forall i :: 0 <= i < |old(cps)| && old(offset) <= i && 0 <= old(cps)[i].nPast <= matched ==> old(cps)[i].nPast <= cut
      ensures cut == matched || cut == 0 || exists i :: 0 <= i < |old(cps)| && old(offset) <= i && cut == old(cps)[i].nPast
      ensures ok && cut < |request| ==> mem.rsIdx == 0
      ensures ok && cut < |request| && Lockstep() ==> Ready() && rows != []
      ensures cut == |request| ==> rows == old(rows)
      ensures mem.faults >= old(mem.faults) && stops >= old(stops)
      ensures !ok ==> mem.faults > old(mem.faults) || stops > old(stops)
    {
      hide SlotsAligned, CheckpointsOrdered, Sound, View.CutPosition, View.DriftSound, View.IsCutOf,
          View.DropsDirectly, View.StackFits;
      InvLook();
      assert Look().Lawful();
      matched := MatchLength(request);
      Look().CutIsNewest(matched);
      cut := matched;
      assert tracker[..|tracker|] == tracker;
      if matched < |tracker| {
        cut := DropDrift(matched, |request|);
      } else {
        NoCutNeeded(matched);
      }
      ghost var books := Look();
      ok := FeedBehind(cut, request);
      if matched < |old(tracker)| {
        SameBooks(old(Look()), books, Look(), matched);
        DeltaOutcome(old(Look()), matched, request);
      } else {
        BehindNothing();
      }
    }

    /** Feed what the cut cache lacks of the request. */
    method FeedBehind(cut: nat, request: Tokens) returns (ok: bool)
      requires InStep() && cut <= |request| && tracker == request[..cut]
      modifies this`tracker, this`nPast, this`rows, mem`attn, mem`planes, mem`rsIdx, this`stops, mem`faults
      ensures InStep() && cut <= |tracker| && tracker <= request && (ok ==> tracker == request)
      ensures mem.State().Coherent() <==> old(mem.State().Coherent())
      ensures old(Inv()) ==> Inv()
      ensures ok && cut < |request| ==> mem.rsIdx == 0
      ensures ok && cut < |request| && Lockstep() ==> Ready() && rows != []
      ensures cut == |request| ==> rows == old(rows)
      ensures mem.faults >= old(mem.faults) && stops >= old(stops)
      ensures !ok ==> mem.faults > old(mem.faults) || stops > old(stops)
    {
      var delta := request[cut..];
      assert request[..cut] + delta == request;
      ok := true;
      if delta != [] {
        ok := FeedRest(delta);
      }
      assert cut < |request| && ok ==> |tracker| > cut;
    }

    /** Whether the whole invariant holds after a drift. */
    lemma DeltaOutcome(before: View, matched: nat, request: Tokens)
      requires (before.cache.hybrid ==> before.StackFits()) && Sound(before.cps, |before.tracker|)
      requires before.cache.hybrid == mem.hybrid && before.cache.window == mem.window
              && before.tracker == before.cache.attn
      requires Drifted(before.tracker, request, matched)
      requires InStep() && interruptedIdx == -1 && before.CutPosition(matched) <= |tracker| && tracker <= request
      requires Lockstep() <==> before.cache.CutIsRight(before.CutPosition(matched))
      requires Look().IsCutOf(before, matched) && cps == Within(before.cps, |request|)
      ensures Inv() <==> before.DriftSound(matched, |request|) && Look().NoneBehind(|tracker|)
      ensures Look().NoneBehind(|request|)
    {
      hide Sound, View.IsCutOf, Drifted;
      WithinSound(before.cps, |before.tracker|, |request|);
      DriftOrdered(|request|);
      if mem.hybrid && Look().NoneBehind(|tracker|) {
        DriftAligned(before, Look(), matched, request);
      }
    }

    /** The invariant as seen in a session's value. */
    lemma InvLook()
      requires nPast == |tracker| && nBatch > 0
      ensures Inv() <==> Look().Lawful()
    {
    }

    lemma DriftOrdered(limit: nat)
      requires Sound(cps, limit) && interruptedIdx == -1
      ensures CheckpointsOrdered() <==> Look().NoneBehind(|tracker|)
      ensures Look().NoneBehind(limit)
    {
    }

    lemma NoCutNeeded(matched: nat)
      requires matched == |tracker| && InStep()
      ensures Look().CutPosition(matched) == matched
      ensures mem.State().CutIsRight(matched)
    {
    }

    lemma BehindNothing()
      requires CheckpointsOrdered()
      ensures Look().NoneBehind(|tracker|)
    {
    }

    method FeedRest(delta: Tokens) returns (ok: bool)
      requires InStep()
      modifies this`tracker, this`nPast, this`rows, mem`attn, mem`planes, mem`rsIdx, this`stops, mem`faults
      ensures InStep() && old(tracker) <= tracker <= old(tracker) + delta
      ensures ok ==> tracker == old(tracker) + delta
      ensures tracker != old(tracker) ==> mem.rsIdx == 0
      ensures old(NothingPending()) ==> NothingPending()
      ensures ok && Lockstep() ==> Ready() && (rows == [] <==> delta == [])
      ensures mem.State().Coherent() <==> old(mem.State().Coherent())
      ensures old(Inv()) ==> Inv()
      ensures mem.faults >= old(mem.faults) && stops >= old(stops)
      ensures !ok ==> mem.faults > old(mem.faults) || stops > old(stops)
    {
      ok := Feed(delta);
      KeepsAligned();
    }

    /** Drop the part of the cache, and the checkpoints, that a shorter match or a
        shorter request leaves behind. */
    method DropDrift(matched: nat, limit: nat) returns (cut: nat)
      requires Inv() && interruptedIdx == -1 && matched < |tracker| && matched <= limit
      modifies this`tracker, this`nPast, this`cps, this`offset, this`toolIdx, this`slotSaved, mem
      ensures cut == old(Look()).CutPosition(matched) <= matched && InStep() && tracker == old(tracker)[..cut]
      ensures mem.State().Coherent() <==> old(mem.State()).CutIsRight(cut)
      ensures Look().IsCutOf(old(Look()), matched)
      ensures Sound(cps, limit) && cps == Within(old(cps), limit)
      ensures mem.faults == old(mem.faults)
    {
      hide View.IsCutOf, SlotsAligned;
      cut := CutAt(matched);
      ghost var books := Look();
      tracker := tracker[..cut];
      cps := Within(cps, limit);
      WithinSound(old(cps), |old(tracker)|, limit);
      SameBooks(old(Look()), books, Look(), matched);
    }

    /** Appending to the tracker without touching the bookkeeping keeps it. */
    twostate lemma KeepsAligned()
      requires cps == old(cps) && offset == old(offset) && toolIdx == old(toolIdx) && toolNPast == old(toolNPast)
      requires slotHasTarget == old(slotHasTarget) && slotSaved == old(slotSaved)
      requires interruptedIdx == old(interruptedIdx) && lastInput == old(lastInput)
      requires old(tracker) <= tracker && mem.stack == old(mem.stack)
      ensures old(CheckpointsOrdered()) ==> CheckpointsOrdered()
      ensures old(SlotsAligned()) ==> SlotsAligned()
    {
      assert forall p :: 0 <= p <= |old(tracker)| ==> tracker[..p] == old(tracker)[..p];
      if mem.hybrid && old(SlotsAligned()) {
        forall k | offset <= k < |cps|
          ensures HoldsPrefix(k - offset, cps[k].nPast)
        {
          assert old(HoldsPrefix(k - offset, cps[k].nPast));
        }
        assert slotHasTarget && toolIdx >= 0 ==> old(HoldsPrefix(toolIdx, toolNPast));
      }
    }

    /** Remove the stale tail behind a match: directly, at the newest usable
        checkpoint before it, or altogether. */
    method CutAt(matched: nat) returns (cut: nat)
      requires Inv() && matched < |tracker|
      modifies this`nPast, this`offset, this`toolIdx, this`slotSaved, mem
      ensures cut == old(Look()).CutPosition(matched) <= matched
      ensures mem.State().PendingIsAhead() && mem.attn == tracker[..cut] && nPast == cut
      ensures mem.State().Coherent() <==> old(mem.State()).CutIsRight(cut)
      ensures Look().IsCutOf(old(Look()), matched)
      ensures mem.faults == old(mem.faults)
    {
      hide SlotsAligned, CheckpointsOrdered, View.IsCutOf, View.CutPosition;
      var ok := mem.SeqRm(matched);
      if ok {
        nPast, cut := matched, matched;
        DirectCut(old(Look()), Look(), matched);
      } else {
        cut := CutElsewhere(matched);
      }
    }

    /** The memory cannot drop the tail by itself. */
    method CutElsewhere(matched: nat) returns (cut: nat)
      requires Inv() && matched < |tracker| && !Look().DropsDirectly(matched)
      modifies this`nPast, this`offset, this`toolIdx, this`slotSaved, mem
      ensures cut == old(Look()).CutPosition(matched) <= matched
      ensures mem.State().PendingIsAhead() && mem.attn == tracker[..cut] && nPast == cut
      ensures mem.State().Coherent() <==> old(mem.State()).CutIsRight(cut)
      ensures Look().IsCutOf(old(Look()), matched)
      ensures mem.faults == old(mem.faults)
    {
      hide SlotsAligned, CheckpointsOrdered, View.IsCutOf, View.CutPosition, Cache.CutIsRight;
      var anchor := TryAnchor(matched);
      if anchor >= 0 {
        cut := cps[anchor].nPast;
        nPast := cut;
        if cut != matched {
          DropDriftedSlots(anchor);
        }
        AnchoredCut(old(Look()), Look(), matched);
      } else {
        mem.Clear();
        nPast, cut := 0, 0;
        offset, toolIdx, slotSaved := |cps|, -1, false;
        ClearedCut(old(Look()), Look(), matched);
      }
    }

    /** Truncate to the newest usable checkpoint at or before `limit`, if there is one. */
    method TryAnchor(limit: nat) returns (anchor: int)
      requires Inv()
      modifies mem
      ensures anchor == old(Look()).Anchor(limit)
      ensures mem.faults == old(mem.faults) && mem.stack == old(mem.stack)
      ensures anchor < 0 ==> mem.State() == old(mem.State())
      ensures anchor >= 0 ==>
                && 0 < cps[anchor].nPast <= limit && mem.State().PendingIsAhead()
                && (mem.hybrid ==> anchor - offset < |mem.stack|)
                && (mem.hybrid ==> (mem.rsRestored <==> |tracker| - cps[anchor].nPast <= mem.window))
                && mem.attn == tracker[..cps[anchor].nPast]
                && (mem.State().Coherent() <==> old(mem.State()).CutIsRight(cps[anchor].nPast))
    {
      anchor := FindAnchor(limit);
      if anchor >= 0 {
        var ok := TruncateToAnchor(anchor);
        if !ok {
          assert false;
        }
      }
    }

    /** Prune the stack entries behind the anchor of a drift. */
    method DropDriftedSlots(anchor: nat)
      requires anchor < |cps| && offset <= anchor && (mem.hybrid ==> anchor - offset < |mem.stack|)
      modifies this`offset, this`toolIdx, this`slotSaved, mem`stack
      ensures toolIdx == -1 && !slotSaved
      ensures offset == if anchor < |cps| - 1 then anchor + 1 else old(offset)
      ensures mem.stack == if anchor < |cps| - 1 && mem.hybrid then old(mem.stack)[..anchor - old(offset) + 1]
              else old(mem.stack)
    {
      var top := anchor - offset;
      if top < |cps| - 1 - offset {
        mem.Prune(top);
        offset := anchor + 1;
      }
      toolIdx, slotSaved := -1, false;
    }
  }

  /** Stack entry j is the state of the first p tokens. */
  ghost predicate Holds(stack: seq<Tokens>, tracker: Tokens, j: int, p: int) {
    0 <= j < |stack| && 0 < p <= |tracker| && stack[j] == tracker[..p]
  }

  /** The stack of a hybrid model fits the checkpoints and the tool slot. */
  ghost predicate Aligned(stack: seq<Tokens>, tracker: Tokens, cps: seq<PromptCheckpoint>, offset: int,
                          toolIdx: int, toolNPast: nat, slotHasTarget: bool, slotSaved: bool)
  {
    && 0 <= offset <= |cps|
    && |stack| == |cps| - offset + (if slotSaved then 1 else 0)
    && (forall k :: offset <= k < |cps| ==> Holds(stack, tracker, k - offset, cps[k].nPast))
    && (toolIdx >= 0 ==> toolIdx == |cps| - offset)
    && (slotSaved ==> toolIdx >= 0)
    && (slotHasTarget && toolIdx >= 0 ==> slotSaved && Holds(stack, tracker, toolIdx, toolNPast))
  }

  /** The two agree on exactly their first `matched` tokens, and the first does not end
      there. */
  ghost predicate Drifted(cached: Tokens, request: Tokens, matched: nat) {
    && matched < |cached| && matched <= |request| && cached[..matched] == request[..matched]
    && (matched < |request| ==> cached[matched] != request[matched])
  }

  /** A prefix of the request is a prefix of the cached tokens exactly up to the match. */
  lemma SharedPrefix(cached: Tokens, request: Tokens, matched: nat, now: Tokens, p: nat)
    requires Drifted(cached, request, matched) && now <= request && p <= |now| && p <= |cached|
    ensures cached[..p] == now[..p] <==> p <= matched
  {
    assert now[..p] == request[..p];
    if p <= matched {
      assert cached[..p] == cached[..matched][..p] == request[..matched][..p] == request[..p];
    } else {
      assert cached[..p][matched] != request[..p][matched];
    }
  }

  lemma SameBooks(before: View, after: View, later: View, matched: nat)
    requires after.IsCutOf(before, matched)
    requires later == after.(tracker := later.tracker, cps := later.cps, cache := later.cache)
    requires (later.cache.hybrid, later.cache.window, later.cache.stack, later.cache.rsRestored) ==
             (after.cache.hybrid, after.cache.window, after.cache.stack, after.cache.rsRestored)
    ensures later.IsCutOf(before, matched)
  {
  }

  lemma DirectCut(before: View, after: View, matched: nat)
    requires before.DropsDirectly(matched)
    requires after == before.(cache := before.cache.(attn := after.cache.attn, rsIdx := after.cache.rsIdx))
    requires before.cache.hybrid ==> !before.cache.rsRestored
    ensures after.IsCutOf(before, matched) && before.CutPosition(matched) == matched
  {
  }

  lemma AnchoredCut(before: View, after: View, matched: nat)
    requires !before.DropsDirectly(matched) && before.Anchor(matched) >= 0
            && before.cps[before.Anchor(matched)].nPast >= 0
    requires after.cache.hybrid == before.cache.hybrid && after.cache.window == before.cache.window
    requires after.slotHasTarget == before.slotHasTarget && after.toolNPast == before.toolNPast
    requires var a := before.Anchor(matched);
             && (after.cache.hybrid ==> (after.cache.rsRestored <==>
                 |before.tracker| - before.cps[a].nPast <= after.cache.window))
             && if before.cps[a].nPast == matched then
                  (after.cache.stack, after.offset, after.toolIdx, after.slotSaved) ==
                  (before.cache.stack, before.offset, before.toolIdx, before.slotSaved)
                else
                  && after.toolIdx == -1 && !after.slotSaved
                  && (a == |before.cps| - 1 ==>
                      after.cache.stack == before.cache.stack && after.offset == before.offset)
                  && (a < |before.cps| - 1 ==>
                        && after.offset == a + 1 && 0 <= a - before.offset < |before.cache.stack|
                        && after.cache.stack == before.cache.stack[..a - before.offset + 1])
    ensures after.IsCutOf(before, matched) && before.CutPosition(matched) == before.cps[before.Anchor(matched)].nPast
  {
  }

  lemma ClearedCut(before: View, after: View, matched: nat)
    requires !before.DropsDirectly(matched) && before.Anchor(matched) < 0
    requires after.slotHasTarget == before.slotHasTarget && after.toolNPast == before.toolNPast
            && !after.cache.rsRestored
    requires after.toolIdx == -1 && !after.slotSaved && after.cache.stack == [] && after.offset == |before.cps|
    ensures after.IsCutOf(before, matched) && before.CutPosition(matched) == 0 && before.cache.CutIsRight(0)
  {
  }

  /** Whether the bookkeeping that a cut leaves fits the new tokens. */
  lemma DriftAligned(before: View, after: View, matched: nat, request: Tokens)
    requires before.cache.hybrid && before.StackFits() && Sound(before.cps, |before.tracker|)
    requires Drifted(before.tracker, request, matched) && after.tracker <= request
    requires before.CutPosition(matched) <= |after.tracker|
    requires after.IsCutOf(before, matched) && after.cps == Within(before.cps, |request|)
            && after.NoneBehind(|after.tracker|)
    requires after.cache.hybrid && after.cache.window == before.cache.window && before.tracker == before.cache.attn
    ensures before.DriftSound(matched, |request|) <==>
            && before.cache.CutIsRight(before.CutPosition(matched))
            && after.StackFits() && !after.cache.rsRestored
  {
    hide View.StackFits, Drifted, Within;
    var a := before.Anchor(matched);
    WithinAll(before.cps, |before.tracker|, |request|);
    if before.DropsDirectly(matched) || (a >= 0 && before.cps[a].nPast == matched) {
      UntouchedFits(before, after, matched, request);
    } else if a < 0 {
      NothingLeftFits(before, after);
    } else if a == |before.cps| - 1 {
      AnchoredFits(before, after, matched, request);
    } else {
      PrunedNeverFits(before, after, matched, request);
    }
  }

  /** Bookkeeping that a cut at the match leaves alone fits exactly if nothing in it lies
      behind the match. */
  lemma UntouchedFits(before: View, after: View, matched: nat, request: Tokens)
    requires before.StackFits() && Sound(before.cps, |before.tracker|)
    requires Drifted(before.tracker, request, matched) && after.tracker <= request && matched <= |after.tracker|
    requires after.cps == Within(before.cps, |request|) && after.NoneBehind(|after.tracker|)
    requires (after.cache.stack, after.offset, after.toolIdx, after.slotSaved) ==
             (before.cache.stack, before.offset, before.toolIdx, before.slotSaved)
    requires after.slotHasTarget == before.slotHasTarget && after.toolNPast == before.toolNPast
    ensures after.StackFits() <==> before.Undrifted(matched, |request|)
  {
    hide Drifted, Within, Sound;
    WithinAll(before.cps, |before.tracker|, |request|);
    if after.cps == before.cps {
      assert before.NoneBehind(|request|);
      if after.StackFits() {
        FittingIsUndrifted(before, after, matched, request);
      }
      if before.Undrifted(matched, |request|) {
        UndriftedFits(before, after, matched, request);
      }
    }
  }

  lemma FittingIsUndrifted(before: View, after: View, matched: nat, request: Tokens)
    requires before.StackFits() && after.StackFits() && before.cache.stack == after.cache.stack
    requires Drifted(before.tracker, request, matched) && after.tracker <= request
    requires (after.cps, after.offset, after.toolIdx) == (before.cps, before.offset, before.toolIdx)
    requires after.slotHasTarget == before.slotHasTarget && after.toolNPast == before.toolNPast
    ensures before.offset < |before.cps| ==> before.NoneBehind(matched)
    ensures before.slotHasTarget && before.toolIdx >= 0 ==> before.toolNPast <= matched
  {
    hide Drifted;
    if before.offset < |before.cps| {
      var k := |before.cps| - 1;
      assert Holds(after.cache.stack, after.tracker, k - after.offset, after.cps[k].nPast);
      assert Holds(before.cache.stack, before.tracker, k - before.offset, before.cps[k].nPast);
      SharedPrefix(before.tracker, request, matched, after.tracker, before.cps[k].nPast);
    }
    if before.slotHasTarget && before.toolIdx >= 0 {
      SharedPrefix(before.tracker, request, matched, after.tracker, before.toolNPast);
    }
  }

  lemma UndriftedFits(before: View, after: View, matched: nat, request: Tokens)
    requires before.StackFits() && Sound(before.cps, |before.tracker|)
    requires Drifted(before.tracker, request, matched) && after.tracker <= request && matched <= |after.tracker|
    requires (after.cache.stack, after.offset, after.toolIdx, after.slotSaved) ==
             (before.cache.stack, before.offset, before.toolIdx, before.slotSaved)
    requires after.slotHasTarget == before.slotHasTarget && after.toolNPast == before.toolNPast
            && after.cps == before.cps
    requires before.Undrifted(matched, |request|)
    ensures after.StackFits()
  {
    hide Drifted;
    EntriesShared(before, after, matched, request);
    if before.slotHasTarget && before.toolIdx >= 0 {
      SharedPrefix(before.tracker, request, matched, after.tracker, before.toolNPast);
    }
  }

  /** Entries whose checkpoints lie in front of the match hold the new tokens' states too. */
  lemma EntriesShared(before: View, after: View, matched: nat, request: Tokens)
    requires before.StackFits() && Sound(before.cps, |before.tracker|)
    requires Drifted(before.tracker, request, matched) && after.tracker <= request
    requires before.cache.stack == after.cache.stack
    requires before.offset < |before.cps| ==> before.NoneBehind(matched) && before.NoneBehind(|after.tracker|)
    ensures forall k :: before.offset <= k < |before.cps| ==>
              Holds(after.cache.stack, after.tracker, k - before.offset, before.cps[k].nPast)
  {
    hide Drifted;
    forall k | before.offset <= k < |before.cps|
      ensures Holds(after.cache.stack, after.tracker, k - before.offset, before.cps[k].nPast)
    {
      assert Holds(before.cache.stack, before.tracker, k - before.offset, before.cps[k].nPast);
      SharedPrefix(before.tracker, request, matched, after.tracker, before.cps[k].nPast);
    }
  }

  /** A cleared stack fits exactly if no checkpoint was dropped. */
  lemma NothingLeftFits(before: View, after: View)
    requires after.cache.stack == [] && after.offset == |before.cps| && after.toolIdx == -1 && !after.slotSaved
    requires after.cps <= before.cps
    ensures after.StackFits() <==> |after.cps| == |before.cps|
  {
  }

  /** A cut at the newest checkpoint forgets the tool slot's entry without dropping it. */
  lemma AnchoredFits(before: View, after: View, matched: nat, request: Tokens)
    requires before.StackFits() && Sound(before.cps, |before.tracker|)
    requires Drifted(before.tracker, request, matched) && after.tracker <= request
    requires before.NoneBehind(matched) && before.NoneBehind(|after.tracker|)
    requires after.cps == before.cps && after.cache.stack == before.cache.stack && after.offset == before.offset
    requires after.toolIdx == -1 && !after.slotSaved
    ensures after.StackFits() <==> !before.slotSaved
  {
    hide Drifted, Sound;
    EntriesShared(before, after, matched, request);
  }

  /** A cut at an older checkpoint leaves entries that its new offset takes for those of
      later checkpoints. */
  lemma PrunedNeverFits(before: View, after: View, matched: nat, request: Tokens)
    requires before.cache.hybrid && before.StackFits() && Sound(before.cps, |before.tracker|)
    requires !before.DropsDirectly(matched) && 0 <= before.Anchor(matched) < |before.cps| - 1
    requires before.cps[before.Anchor(matched)].nPast < matched
    requires after.IsCutOf(before, matched) && after.cps == Within(before.cps, |request|)
    ensures !after.StackFits()
  {
    var a := before.Anchor(matched);
    WithinAll(before.cps, |before.tracker|, |request|);
    FirstEntry(before);
    assert before.cps[before.offset].nPast <= before.cps[a].nPast < matched < before.cps[a + 1].nPast;
    if after.StackFits() {
      FirstEntry(after);
    }
  }

  lemma FirstEntry(v: View)
    requires v.StackFits()
    ensures v.offset < |v.cps| ==> v.cache.stack != [] && |v.cache.stack[0]| == v.cps[v.offset].nPast
  {
    if v.offset < |v.cps| {
      assert Holds(v.cache.stack, v.tracker, v.offset - v.offset, v.cps[v.offset].nPast);
    }
  }

  /** Filtering drops nothing exactly if the last checkpoint is within the limit. */
  lemma WithinAll(cps: seq<PromptCheckpoint>, total: nat, limit: nat)
    requires Sound(cps, total)
    ensures Within(cps, limit) <= cps
    ensures |Within(cps, limit)| == |cps| <==> cps == [] || cps[|cps| - 1].nPast <= limit
    ensures |Within(cps, limit)| == |cps| ==> Within(cps, limit) == cps
  {
    WithinSound(cps, total, limit);
    if cps != [] && cps[|cps| - 1].nPast <= limit {
      var kept := Within(cps, limit);
      assert cps[|cps| - 1] in kept;
      AllWithin(cps, limit);
    }
  }

  lemma {:induction false} AllWithin(cps: seq<PromptCheckpoint>, limit: nat)
    requires forall k :: 0 <= k < |cps| ==> cps[k].nPast <= limit
    ensures Within(cps, limit) == cps
  {
    if cps != [] {
      AllWithin(cps[1..], limit);
    }
  }

  function Max0(x: int): nat {
    if x < 0 then 0 else x
  }

  /** A saved checkpoint list that the restore can reproduce. */
  predicate Sound(saved: seq<PromptCheckpoint>, total: nat) {
    && (forall k :: 0 <= k < |saved| ==> 0 < saved[k].nPast <= total)
    && (forall j, k :: 0 <= j <= k < |saved| ==> saved[j].nPast <= saved[k].nPast)
  }

  /** A saved checkpoint list that a fast restore can align its one stack entry with. */
  predicate FastSound(hybrid: bool, saved: seq<PromptCheckpoint>, total: nat, canary: bool) {
    && Sound(saved, total)
    && (hybrid ==> if saved == [] then !canary else saved[|saved| - 1].nPast == total)
  }

  /** The checkpoints at or before position `limit`. */
  function Within(cps: seq<PromptCheckpoint>, limit: nat): seq<PromptCheckpoint> {
    if cps == [] then []
    else if cps[0].nPast > limit then Within(cps[1..], limit)
    else [cps[0]] + Within(cps[1..], limit)
  }

  /** Filtering an ordered checkpoint list keeps exactly a prefix of it, and all of
      its entries are within the limit. */
  lemma {:induction false} WithinSound(cps: seq<PromptCheckpoint>, total: nat, limit: nat)
    requires Sound(cps, total)
    ensures Within(cps, limit) <= cps && Sound(Within(cps, limit), limit)
    ensures forall c :: c in cps && c.nPast <= limit ==> c in Within(cps, limit)
  {
    if cps != [] {
      WithinSound(cps[1..], total, limit);
      if cps[0].nPast > limit {
        NothingWithin(cps, limit);
      }
    }
  }

  lemma {:induction false} NothingWithin(cps: seq<PromptCheckpoint>, limit: nat)
    requires forall k :: 0 <= k < |cps| ==> cps[k].nPast > limit
    ensures Within(cps, limit) == []
  {
    if cps != [] {
      NothingWithin(cps[1..], limit);
    }
  }
}
