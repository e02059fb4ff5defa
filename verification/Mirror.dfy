/** The mirror cache of mtp.cc: a second, pure-attention memory that follows the
    main one row by row and lets the draft head run ahead of it. */
module Mirror {
  import opened KvMemory

  class Speculator {
    const main: Memory
    const mirror: Memory
    const chunkSize: nat          // n_batch_mtp_
    const draftLen: nat
    var valid: bool
    var kvExhausted: bool
    var hasLogits: bool           // origin_has_logits_
    var mirrorPos: int            // last mirrored main position
    ghost var mirrored: Tokens    // the mirror's rows without the drafts that ran ahead
    ghost var low: nat            // since it ran out of context: the fewest rows main had

    ghost predicate Built()
      reads main, mirror
    {
      && main != mirror && chunkSize > 0 && draftLen > 0 && !mirror.hybrid
      && main.State().Valid() && mirror.State().Valid()
    }

    ghost predicate Wired()
      reads this, main, mirror
    {
      && Built()
      && (valid ==> !kvExhausted)
      && (valid || kvExhausted ==> mirrored <= mirror.attn && |mirrored| <= mirrorPos + 1)
    }

    /** Mirror and main context agree on the rows both have: the mirror was cut short, or it
        holds every main row in front of whatever drafts ran ahead. */
    ghost predicate Agrees()
      reads main, mirror
    {
      main.attn <= mirror.attn || mirror.attn <= main.attn
    }

    /** Whatever the mirror is trusted for is right; and while it is off for want of context, the
        main rows that were there all the time are still the ones it mirrored. */
    ghost predicate Sound()
      reads this, main, mirror
    {
      && (valid ==> Agrees())
      && (!valid && kvExhausted ==> low <= |main.attn| && low <= |mirrored| && main.attn[..low] == mirrored[..low])
    }

    constructor (main: Memory, mirror: Memory, chunkSize: nat, draftLen: nat)
      requires main != mirror && chunkSize > 0 && draftLen > 0 && !mirror.hybrid
      requires main.State().Valid() && mirror.State().Valid() && main.attn == mirror.attn == []
      ensures Wired() && Sound() && valid
      ensures this.main == main && this.mirror == mirror && this.chunkSize == chunkSize && this.draftLen == draftLen
    {
      this.main, this.mirror, this.chunkSize, this.draftLen := main, mirror, chunkSize, draftLen;
      valid, kvExhausted, hasLogits, mirrorPos, mirrored, low := true, false, false, -1, [], 0;
    }

    method Invalidate()
      modifies this`valid
      ensures !valid
    {
      valid := false;
    }

    // --- The hook -------------------------------------------------------------------

    /** Mirror the rows of a main decode that started at `start`.  If the mirror agreed with the
        main rows up to there, then whatever drafts or stale rows it held, and for every chunk
        size, it ends equal to them, or it switches itself off: exactly if it ended before
        `start`, or one of its own decodes failed. */
    method Process(batch: Tokens, start: nat)
      requires Wired() && batch != [] && start + |batch| == |main.attn| && main.attn[start..] == batch
      modifies this`valid, this`hasLogits, this`mirrorPos, this`mirrored, mirror
      ensures Wired()
      ensures valid && old(start <= |mirror.attn| ==> mirror.attn[..start] == main.attn[..start]) ==>
                mirror.attn == main.attn == mirrored
      ensures valid ==> hasLogits && mirrorPos == |main.attn| - 1
      ensures old(valid) && |old(mirror.attn)| < start ==> !valid
      ensures !old(valid) ==> !valid && mirror.State() == old(mirror.State()) && mirrored == old(mirrored) && mirrorPos == old(mirrorPos)
      ensures mirror.faults >= old(mirror.faults) && kvExhausted == old(kvExhausted)
      ensures old(valid) && |old(mirror.attn)| >= start && mirror.faults == old(mirror.faults) ==> valid
    {
      if !valid {
        return;
      }
      if start <= mirror.Length() - 1 {
        var ok := mirror.SeqRm(start);
        if !ok {
          assert false;  // the mirror has no recurrent state
        }
      }
      hasLogits := false;
      var done := MirrorChunks(batch, start);
      if !done {
        Invalidate();
        return;
      }
      hasLogits, mirrorPos, mirrored := true, start + |batch| - 1, mirror.attn;
    }

    /** The chunked rebuild. */
    method MirrorChunks(batch: Tokens, start: nat) returns (done: bool)
      requires Built() && batch != [] && start + |batch| == |main.attn| && main.attn[start..] == batch
      requires |mirror.attn| <= start
      modifies mirror
      ensures mirror.State().Valid()
      ensures done ==> mirror.attn == old(mirror.attn) + batch
      ensures |old(mirror.attn)| < start ==> !done
      ensures mirror.faults >= old(mirror.faults)
      ensures !done && |old(mirror.attn)| == start ==> mirror.faults > old(mirror.faults)
    {
      var at := 0;
      done := true;
      while at < |batch| && done
        invariant 0 <= at <= |batch| && mirror.State().Valid()
        invariant done ==> mirror.attn == old(mirror.attn) + batch[..at]
        invariant |old(mirror.attn)| < start && at > 0 ==> !done
        invariant mirror.faults >= old(mirror.faults)
        invariant !done ==> mirror.faults > old(mirror.faults)
        decreases |batch| - at, done
      {
        var chunk := Min(chunkSize, |batch| - at);
        var code;
        ghost var rows;
        code, rows := mirror.Decode(batch[at..at + chunk], start + at);
        assert rows == chunk ==> batch[at..at + chunk][..rows] == batch[at..at + chunk];
        assert batch[..at] + batch[at..at + chunk] == batch[..at + chunk];
        done := code == Success;
        if done {
          at := at + chunk;
        }
      }
      assert batch[..|batch|] == batch;
    }

    /** One decode of the main context through handle_llama_decode_error.  If mirror and main
        agreed, a success makes them equal, or switches the mirror off; a decode that wrote
        nothing leaves them in agreement; a full context switches the mirror off but keeps its
        rows for a later undo. */
    method HookedDecode(batch: Tokens) returns (code: DecodeCode)
      requires Wired() && batch != []
      modifies this, main, mirror
      ensures Wired() && (valid ==> old(valid))
      ensures old(main.attn) <= main.attn <= old(main.attn) + batch
      ensures code == Success <==> main.faults == old(main.faults)
      ensures main.faults >= old(main.faults) && mirror.faults >= old(mirror.faults)
      ensures code == Success ==> main.attn == old(main.attn) + batch && main.State() == old(main.State()).Decode(batch)
      ensures old(Sound()) && (code == Success || main.attn == old(main.attn)) ==> Sound()
      ensures old(Sound()) && code == Success && valid ==> mirror.attn == main.attn == mirrored
      ensures code == Success && valid ==> hasLogits && mirrorPos == |main.attn| - 1 && CanDraft()
      ensures kvExhausted ==> old(kvExhausted) || code == Exhausted
      ensures code == Exhausted ==> !valid && main.attn == old(main.attn)
      ensures code == Exhausted && old(valid) ==>
                kvExhausted && mirror.attn == old(mirror.attn) && mirrored == old(mirrored)
                    && low == Min(|main.attn|, |mirrored|)
      ensures old(valid) && !valid && code == Success ==>
                mirror.faults > old(mirror.faults) || |old(mirror.attn)| < |old(main.attn)|
      ensures old(valid) && !valid ==> code == Success || code == Exhausted
      ensures !old(valid) ==> (low, mirrored, mirrorPos, kvExhausted) == old((low, mirrored, mirrorPos, kvExhausted))
      ensures !old(valid) && old(Sound()) ==> Sound()
    {
      var start := main.Length();
      ghost var rows;
      ghost var before := main.attn;
      code, rows := main.Decode(batch, start);
      assert batch[..|batch|] == batch && batch[..0] == [];
      assert before + batch[..rows] <= before + batch;
      if code == Success {
        assert main.attn[start..] == batch && main.attn[..start] == before;
        ghost var agreed := mirror.attn;
        Process(batch, start);
        assert before <= agreed ==> agreed[..start] == before;
      } else if code == Exhausted && valid {
        kvExhausted, valid := true, false;
        low := Min(|main.attn|, |mirrored|);
      }
    }

    // --- Drafting ---------------------------------------------------------------------

    predicate CanDraft()
      reads this
    {
      valid && hasLogits && mirrorPos >= 0
    }

    /** Propose draftLen tokens, chaining the head over the mirror.  The main rows stay
        mirrored; a mirror that already ran ahead cannot be drafted from. */
    method Draft() returns (drafts: Tokens)
      requires Wired()
      modifies this`valid, mirror
      ensures Wired() && (valid ==> old(valid)) && (!old(valid) ==> mirror.State() == old(mirror.State()))
      ensures old(mirror.attn) <= mirror.attn
      ensures old(Sound()) && (old(valid) ==> old(main.attn <= mirror.attn)) ==>
              Sound() && (valid ==> main.attn <= mirror.attn)
      ensures drafts == [] || (valid && |drafts| == draftLen)
      ensures drafts != [] ==>
                && old(valid && hasLogits && mirrorPos >= 0) && (draftLen > 1 ==> |old(mirror.attn)| == mirrorPos + 1)
                && mirror.attn == old(mirror.attn) + drafts[..draftLen - 1]
      ensures mirror.faults >= old(mirror.faults)
      ensures old(valid && hasLogits && mirrorPos >= 0) && mirror.faults == old(mirror.faults) ==> drafts != []
      ensures old(valid) && mirror.faults == old(mirror.faults) ==> valid
    {
      if !CanDraft() {
        return [];
      }
      var token: Token := *;
      drafts := [token];
      ghost var before := mirror.attn;
      var j := 1;
      while j < draftLen
        invariant 1 <= j <= draftLen && |drafts| == j && Wired() && valid
        invariant mirror.attn == before + drafts[..j - 1] && before <= mirror.attn
        invariant j > 1 ==> |before| == mirrorPos + 1
        invariant mirror.faults >= old(mirror.faults)
      {
        var code;
        ghost var rows;
        code, rows := mirror.Decode([drafts[j - 1]], mirrorPos + j);
        assert [drafts[j - 1]][..1] == [drafts[j - 1]] && [drafts[j - 1]][..0] == [];
        if code != Success {
          Invalidate();
          return [];
        }
        assert drafts[..j - 1] + [drafts[j - 1]] == drafts[..j];
        var next: Token := *;
        drafts := drafts + [next];
        j := j + 1;
      }
    }

    // --- Everything else that moves the main context --------------------------------------

    /** A roll-back of the main context leaves the mirror alone. */
    method RollBackMain(target: nat) returns (ok: bool)
      requires Wired()
      modifies this`low, main`attn, main`rsIdx, main`rsRestored
      ensures Wired() && (old(Sound()) ==> Sound())
      ensures ok ==> main.attn == old(main.attn)[..Min(target, |old(main.attn)|)]
      ensures !ok ==> main.State() == old(main.State())
      ensures (main.State(), ok) == old(main.State()).SeqRm(target)
      ensures low == Min(old(low), |main.attn|) && (valid ==> main.attn <= old(main.attn))
    {
      assert main.attn[..|main.attn|] == main.attn;
      ok := main.SeqRm(target);
      low := Min(low, |main.attn|);
    }

    /** A decode of the main context behind the hook's back, as the note about a changed
        repository is decoded.  It does no harm if no drafts were ahead where it wrote, and it
        does if the first of them was another token. */
    method DecodeUnhooked(batch: Tokens) returns (ok: bool)
      requires Wired() && batch != []
      modifies main
      ensures Wired() && old(main.attn) <= main.attn && (ok ==> main.attn == old(main.attn) + batch)
      ensures main.faults >= old(main.faults) && (ok <==> main.faults == old(main.faults))
      ensures ok ==> main.State() == old(main.State()).Decode(batch)
      ensures old(Sound()) && (!valid || old(mirror.attn) <= old(main.attn)) ==> Sound()
      ensures ok && valid && old(main.attn < mirror.attn && mirror.attn[|main.attn|] != batch[0]) ==> !Sound()
    {
      ghost var rows;
      var code;
      code, rows := main.Decode(batch, main.Length());
      assert batch[..|batch|] == batch;
      ok := code == Success;
      if ok && old(main.attn < mirror.attn && mirror.attn[|main.attn|] != batch[0]) {
        assert main.attn[|old(main.attn)|] == batch[0];
      }
    }

    /** rearm_if_kv_exhausted, called after the main context was truncated to `undo`.  The
        mirror agrees with the main rows again exactly when they are the rows it mirrored
        before it was switched off, and they are if the main context never was shorter. */
    method Rearm(undo: nat) returns (armed: bool)
      requires Wired() && |main.attn| == undo
      modifies this`valid, this`kvExhausted
      ensures Wired() && armed == (!old(valid) && old(kvExhausted) && undo <= mirrorPos + 1)
      ensures armed ==> valid && (undo <= |mirrored| ==> (main.attn <= mirror.attn <==> main.attn <= mirrored))
      ensures armed && old(Sound()) && undo <= low ==> main.attn <= mirrored && Sound()
      ensures !armed ==> valid == old(valid) && kvExhausted == old(kvExhausted)
    {
      if valid || !kvExhausted || undo > mirrorPos + 1 {
        return false;
      }
      kvExhausted, valid := false, true;
      assert undo <= |mirrored| && main.attn <= mirror.attn ==> main.attn == mirror.attn[..undo] == mirrored[..undo];
      assert undo <= low ==> main.attn == main.attn[..undo];
      return true;
    }

    /** The main context was cleared. */
    method Clear()
      requires Wired()
      modifies this, main, mirror
      ensures Wired() && Sound() && valid && main.attn == mirror.attn == mirrored == [] && !hasLogits
      ensures main.faults == old(main.faults) && mirror.faults == old(mirror.faults)
    {
      main.Clear();
      mirror.Clear();
      mirrorPos, mirrored, hasLogits := -1, [], false;
      valid, kvExhausted := true, false;
    }

    /** A cache entry was loaded.  Its mirror may hold draft rows behind the main rows; they
        count as mirrored until the next hooked decode, and there is no drafting before it.  An
        entry without a mirror, or a mirror that is off, leaves drafting off. */
    method Load(rows: Tokens, ahead: Tokens, withMirror: bool)
      requires Wired() && rows != []
      modifies this, main, mirror
      ensures Wired() && Sound() && main.attn == rows
      ensures valid == (old(valid) && withMirror) && !CanDraft()
      ensures valid ==> mirror.attn == mirrored == rows + ahead
      ensures kvExhausted ==> old(kvExhausted)
      ensures main.faults == old(main.faults) && mirror.faults == old(mirror.faults)
    {
      main.LoadState(rows);
      if valid && withMirror {
        mirror.LoadState(rows + ahead);
        mirrorPos, mirrored := mirror.Length() - 1, mirror.attn;
        hasLogits, kvExhausted := false, false;
      } else {
        Invalidate();
        low := 0;
      }
    }

    /** The mirror's part of the canary rollback: a plain truncation. */
    method RollBackProbe(point: nat) returns (ok: bool)
      requires Wired() && point <= |main.attn|
      modifies this`mirrored, this`low, main`attn, main`rsIdx, main`rsRestored, mirror
      ensures Wired() && (old(Sound()) ==> Sound())
      ensures ok ==> main.attn == old(main.attn)[..point]
      ensures (main.State(), ok) == old(main.State()).SeqRm(point)
      ensures ok && valid ==> mirror.attn == old(mirror.attn)[..Min(point, |old(mirror.attn)|)]
      ensures !ok ==> mirror.State() == old(mirror.State())
      ensures mirror.faults == old(mirror.faults)
      ensures low == Min(old(low), |main.attn|) && (valid ==> main.attn <= old(main.attn))
      ensures ok && valid && old(main.attn <= mirror.attn) ==> mirror.attn == main.attn
    {
      ok := RollBackMain(point);
      assert mirror.attn[..|mirror.attn|] == mirror.attn;
      if ok && valid {
        var cut := mirror.SeqRm(point);
        if !cut {
          assert false;  // the mirror has no recurrent state
        }
        mirrored := mirrored[..Min(point, |mirrored|)];
      }
    }

    // --- Whole histories --------------------------------------------------------------------

    /** The two memories between two moves. */
    ghost function Now(): Shot
      reads this`valid, main, mirror
    {
      Shot(main.State(), mirror.State(), valid, main.faults)
    }

    /** The mirror is on and holds every main row. */
    ghost predicate On()
      reads this, main, mirror
    {
      valid && main.attn <= mirror.attn
    }

    /** The move does no harm in this state: it is no note over drafts, and no undo that re-arms
        the mirror after its rows were given up in the meantime. */
    ghost predicate Harmless(move: Move)
      reads this, main, mirror
    {
      match move
      case Note(batch) => !valid || mirror.attn <= main.attn
      case UndoTo(target) => valid || !kvExhausted || Min(target, |main.attn|) <= low
      case _ => true
    }

    /** A generated token, and the drafts behind it. */
    method Advance(token: Token)
      requires Wired()
      modifies this, main, mirror
      ensures Wired() && (kvExhausted ==> old(kvExhausted) || main.faults > old(main.faults))
      ensures old(main.attn) <= main.attn && (main.faults == old(main.faults) ==>
              main.State() == old(main.State()).Decode([token]))
      ensures main.faults >= old(main.faults) && mirror.faults >= old(mirror.faults)
      ensures old(Sound()) && (main.faults == old(main.faults) || main.attn == old(main.attn)) ==> Sound()
      ensures old(Sound() && On()) && main.faults == old(main.faults) && mirror.faults == old(mirror.faults) ==> On()
    {
      var code := HookedDecode([token]);
      if code == Success {
        var _ := Draft();
      }
    }

    /** An undo that needs no re-decode. */
    method Undo(target: nat)
      requires Wired()
      modifies this`valid, this`kvExhausted, this`low, main`attn, main`rsIdx, main`rsRestored
      ensures Wired() && (kvExhausted ==> old(kvExhausted))
      ensures main.State() == old(main.State()).SeqRm(target).0
      ensures old(Sound() && Harmless(UndoTo(target))) ==> Sound()
      ensures old(Sound() && On()) ==> On()
    {
      var ok := RollBackMain(target);
      if ok {
        var _ := Rearm(main.Length());
      }
    }

    /** One move.  Agreement survives every harmless one unless a decode fails half-way, and the
        mirror stays on unless a decode fails. */
    method Make(move: Move)
      requires Wired()
      modifies this, main, mirror
      ensures Wired() && Moved(move, old(Now()), Now())
      ensures main.faults >= old(main.faults) && mirror.faults >= old(mirror.faults)
      ensures move.Step? && main.faults == old(main.faults) ==> main.attn == old(main.attn) + [move.token]
      ensures (move.Feed? || move.Note?) && main.faults == old(main.faults) ==> main.attn == old(main.attn) + move.batch
      ensures move.RollBack? || move.UndoTo? ==> main.State() == old(main.State()).SeqRm(move.target).0
      ensures move.Note? || move.RollBack? || move.UndoTo? ==> mirror.attn == old(mirror.attn)
      ensures move.Restart? ==> main.attn == mirror.attn == [] && valid
      ensures move.Saved? ==> main.attn == move.rows && valid == (old(valid) && move.withMirror)
      ensures move.Saved? && valid ==> mirror.attn == move.rows + move.ahead
      ensures move.Probe? && move.point <= |old(main.attn)| ==> main.State() == old(main.State()).SeqRm(move.point).0
      ensures old(Sound() && Harmless(move)) && (main.faults == old(main.faults) || main.attn == old(main.attn)) ==>
              Sound()
      ensures !old(kvExhausted) && main.faults == old(main.faults) ==> !kvExhausted
      ensures old(Sound() && On()) && move.KeepsMirror() && main.faults == old(main.faults)
              && mirror.faults == old(mirror.faults) ==>
                On()
    {
      hide Speculator.Agrees, Cache.Decode, Cache.SeqRm, Cache.Clear;
      match move {
        case Step(token) =>
          Advance(token);
        case Feed(batch) =>
          var _ := HookedDecode(batch);
        case RollBack(target) =>
          var _ := RollBackMain(target);
        case UndoTo(target) =>
          Undo(target);
        case Restart =>
          Clear();
        case Saved(rows, ahead, withMirror) =>
          Load(rows, ahead, withMirror);
        case Probe(point) =>
          if point <= main.Length() {
            var _ := RollBackProbe(point);
          }
        case Note(batch) =>
          var _ := DecodeUnhooked(batch);
      }
    }

    /** Whatever moves are made, the next hooked decode makes mirror and main rows equal, if the
        mirror is on and agreed with them.  It agreed if no main decode failed and no note was
        slipped in; and it is on if besides no cache entry came without its rows and none of
        its own decodes failed. */
    method Follow(moves: seq<Move>, last: Batch) returns (code: DecodeCode, ghost agreed: bool, ghost seen: seq<Shot>)
      requires Wired() && Sound()
      modifies this, main, mirror
      ensures Wired()
      ensures |seen| == |moves| + 2 && seen[0] == old(Now()) && seen[|moves| + 1] == Now()
      ensures forall i :: 0 <= i < |moves| ==> Moved(moves[i], seen[i], seen[i + 1])
      ensures Moved(Feed(last), seen[|moves|], seen[|moves| + 1])
      ensures agreed && code == Success && valid ==>
              mirror.attn == main.attn && hasLogits && mirrorPos == |main.attn| - 1
      ensures main.faults == old(main.faults) && !old(kvExhausted) && NoNotes(moves) ==> agreed
      ensures main.faults == old(main.faults) && mirror.faults == old(mirror.faults) && old(On()) && AllKeepMirror(moves) ==>
                agreed && valid
    {
      seen := [Now()];
      var i := 0;
      while i < |moves|
        invariant i <= |moves| && Wired() && |seen| == i + 1 && seen[0] == old(Now()) && seen[i] == Now()
        invariant forall j :: 0 <= j < i ==> Moved(moves[j], seen[j], seen[j + 1])
        invariant main.faults >= old(main.faults) && mirror.faults >= old(mirror.faults)
        invariant main.faults == old(main.faults) && !old(kvExhausted) ==> !kvExhausted
        invariant main.faults == old(main.faults) && !old(kvExhausted) && NoNotes(moves) ==> Sound()
        invariant main.faults == old(main.faults) && mirror.faults == old(mirror.faults) && old(On()) && AllKeepMirror(moves) ==>
                    On() && Sound()
      {
        assert NoNotes(moves) ==> !moves[i].Note?;
        assert AllKeepMirror(moves) ==> moves[i].KeepsMirror();
        Make(moves[i]);
        seen := seen + [Now()];
        i := i + 1;
      }
      agreed := Sound();
      code := HookedDecode(last);
      seen := seen + [Now()];
    }

    /** A context that ran full is made usable again by an undo: however many decodes follow in
        the meantime, undoing to rows that were there when it ran full turns the mirror on
        again, and it agrees. */
    method UndoAfterExhaustion(feeds: seq<Batch>, target: nat) returns (ok: bool)
      requires Wired() && Sound() && !valid && kvExhausted && target <= low
      modifies this, main, mirror
      ensures Wired() && Sound()
      ensures ok ==> valid && main.attn == old(main.attn)[..target] && On()
    {
      var i := 0;
      while i < |feeds|
        invariant i <= |feeds| && Wired() && Sound() && !valid && kvExhausted
        invariant (low, mirrored, mirrorPos) == old((low, mirrored, mirrorPos))
        invariant old(main.attn) <= main.attn
      {
        var _ := HookedDecode(feeds[i]);
        i := i + 1;
      }
      ok := RollBackMain(target);
      if ok {
        ok := Rearm(target);
      }
    }
  }

  /** The two memories, and the failed main decodes so far. */
  datatype Shot = Shot(main: Cache, mirror: Cache, valid: bool, faults: nat)

  /** What a move does to the main rows, and whether it touches the mirror's. */
  ghost predicate Moved(move: Move, a: Shot, b: Shot)
  {
    a.main.Valid() && a.faults <= b.faults &&
    match move
    case Step(token) => Added(a, [token], b)
    case Feed(batch) => Added(a, batch, b)
    case Note(batch) => Added(a, batch, b) && b.mirror == a.mirror
    case RollBack(target) => b.main == a.main.SeqRm(target).0 && b.mirror == a.mirror
    case UndoTo(target) => b.main == a.main.SeqRm(target).0 && b.mirror == a.mirror
    case Restart => b.main.attn == b.mirror.attn == []
    case Saved(rows, ahead, withMirror) =>
      b.main.attn == rows && b.valid == (a.valid && withMirror) && (b.valid ==> b.mirror.attn == rows + ahead)
    case Probe(point) => b.main == if point <= |a.main.attn| then a.main.SeqRm(point).0 else a.main
  }

  /** The tokens were decoded behind the main rows, unless that failed. */
  ghost predicate Added(a: Shot, toks: Tokens, b: Shot)
    requires a.main.Valid()
  {
    a.main.attn <= b.main.attn && (a.faults == b.faults ==> b.main == a.main.Decode(toks))
  }

  predicate NoNotes(moves: seq<Move>) {
    forall i :: 0 <= i < |moves| ==> !moves[i].Note?
  }

  predicate AllKeepMirror(moves: seq<Move>) {
    forall i :: 0 <= i < |moves| ==> moves[i].KeepsMirror()
  }

  type Batch = toks: Tokens | toks != [] witness [0]

  /** What happens to the two contexts: a generated token and the drafts behind it, a fed batch,
      a roll-back, an undo, a clear, a restored cache entry, a canary rollback, a note. */
  datatype Move =
    | Step(token: Token)
    | Feed(batch: Batch)
    | RollBack(target: nat)
    | UndoTo(target: nat)
    | Restart
    | Saved(rows: Batch, ahead: Tokens, withMirror: bool)
    | Probe(point: nat)
    | Note(batch: Batch)
  {
    predicate KeepsMirror() {
      !Note? && (Saved? ==> withMirror)
    }
  }
}
