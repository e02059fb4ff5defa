/** Whole runs of a chat session: prompts, resumed turns, undos, clears, restores and
    reincarnations in any order, where a turn may take any number of generations. */
module WholeRun {
  import opened KvMemory
  import opened PlainLoop
  import opened ChatSession
  import opened Generation
  import opened Requests

  /** Serve n requests, or stop where the invariant is lost: exactly then a cause is reported.
      Every request does what it promises, and one that can be trusted loses the invariant only
      through a decode that failed or a feed that was interrupted in it, more than one draft per
      round, or a correction behind a checkpoint. */
  method Serve(session: Session, setup: Setup, user: User, n: nat)
    returns (cause: Cause, ghost seen: seq<Moment>, ghost turns: seq<seq<Leg>>)
    requires session.Inv() && setup.Fits(session)
    modifies session, session.mem
    ensures cause == Kept <==> session.Inv()
    ensures Told(setup, session.system, user, cause, seen, turns)
    ensures seen[0] == old(Now(session)) && seen[|turns|] == Now(session)
    ensures |turns| <= n && (cause == Kept ==> |turns| == n)
    ensures cause != Kept ==>
              && turns != []
              && var last := seen[|turns| - 1];
                 Trusted(setup, session.system, last.view, user(last.view, |turns| - 1)) ==>
                   || session.mem.faults > last.faults
                   || session.stops > last.stops
                   || (cause == TripwireOnLastMatch && setup.draftLen > 1)
                   || (cause == SavedPendingRollback && setup.draftLen > 1 && session.mem.hybrid)
                   || (cause == CorrectionTooShort && session.cps != []
                       && session.cps[|session.cps| - 1].nPast > |session.tracker|)
  {
    hide Told, LostBy, Session.Inv;
    cause, seen, turns := Kept, [Now(session)], [];
    NothingTold(setup, session.system, user, seen);
    var i := 0;
    while i < n && cause == Kept
      invariant i <= n && |seen| == i + 1 && |turns| == i && (cause != Kept ==> i > 0)
      invariant cause == Kept <==> session.Inv()
      invariant seen[0] == old(Now(session)) && seen[i] == Now(session)
      invariant Told(setup, session.system, user, cause, seen, turns)
      invariant cause != Kept ==> LostBy(session, setup, user, cause, seen[i - 1], i - 1)
    {
      i, cause, seen, turns := ServeNext(session, setup, user, i, seen, turns);
    }
    if cause != Kept {
      Blame(session, setup, user, cause, seen[i - 1], i - 1);
    }
  }

  method ServeNext(session: Session, setup: Setup, user: User, i: nat, ghost seen0: seq<Moment>,
      ghost turns0: seq<seq<Leg>>)
    returns (next: nat, cause: Cause, ghost seen: seq<Moment>, ghost turns: seq<seq<Leg>>)
    requires session.Inv() && setup.Fits(session)
    requires |turns0| == i && |seen0| == i + 1 && Told(setup, session.system, user, Kept, seen0, turns0)
            && seen0[i] == Now(session)
    modifies session, session.mem
    ensures next == i + 1 && (cause == Kept <==> session.Inv())
    ensures |turns| == i + 1 && |seen| == i + 2 && seen[0] == seen0[0] && seen[i + 1] == Now(session)
    ensures Told(setup, session.system, user, cause, seen, turns)
    ensures cause != Kept ==> LostBy(session, setup, user, cause, seen[i], i)
  {
    hide Told, Served, Trusted, Excused, Session.Inv;
    var request := user(session.Look(), i);
    ghost var legs;
    cause, legs := Handle(session, setup, request);
    seen, turns := seen0 + [Now(session)], turns0 + [legs];
    ToldOn(setup, session.system, user, seen0, turns0, cause, legs, Now(session));
    next := i + 1;
  }

  lemma NothingTold(setup: Setup, system: Tokens, user: User, seen: seq<Moment>)
    requires |seen| == 1
    ensures Told(setup, system, user, Kept, seen, [])
  {
  }

  /** Request i, made in `last`, lost the invariant: if it could be trusted, with an excuse. */
  ghost predicate LostBy(session: Session, setup: Setup, user: User, cause: Cause, last: Moment, i: nat)
    reads session, session.mem
  {
    Trusted(setup, session.system, last.view, user(last.view, i)) ==>
        Excused(session, setup, cause, last.faults, last.stops)
  }

  lemma Blame(session: Session, setup: Setup, user: User, cause: Cause, last: Moment, i: nat)
    requires LostBy(session, setup, user, cause, last, i)
    ensures Trusted(setup, session.system, last.view, user(last.view, i)) ==>
              || session.mem.faults > last.faults
              || session.stops > last.stops
              || (cause == TripwireOnLastMatch && setup.draftLen > 1)
              || (cause == SavedPendingRollback && setup.draftLen > 1 && session.mem.hybrid)
              || (cause == CorrectionTooShort && session.cps != []
                  && session.cps[|session.cps| - 1].nPast > |session.tracker|)
  {
    hide Trusted;
  }

  /** A trusted request loses the invariant only after a failed decode or an interrupted feed,
      through speculation, or by a correction behind a checkpoint. */
  ghost predicate Excused(session: Session, setup: Setup, cause: Cause, faults: nat, stops: nat)
    reads session, session.mem
  {
    || session.mem.faults > faults
    || session.stops > stops
    || (cause == TripwireOnLastMatch && setup.draftLen > 1 && !NeverTrips(setup.env))
    || (cause == SavedPendingRollback && setup.draftLen > 1 && session.mem.hybrid)
    || (cause == CorrectionTooShort && !session.Look().NoneBehind(|session.tracker|))
  }

  /** Serve one request. */
  method Handle(session: Session, setup: Setup, request: Request) returns (cause: Cause, ghost legs: seq<Leg>)
    requires session.Inv() && setup.Fits(session)
    modifies session, session.mem
    ensures cause == Kept <==> session.Inv()
    ensures Served(setup, session.system, old(Now(session)), request, cause, legs, Now(session))
    ensures session.mem.faults >= old(session.mem.faults) && session.stops >= old(session.stops)
    ensures cause != Kept && Trusted(setup, session.system, old(session.Look()), request) ==>
              Excused(session, setup, cause, old(session.mem.faults), old(session.stops))
  {
    hide Session.Inv, Legged, Closed, Extended, Put, Run;
    legs := [];
    match request {
      case Prompt(text, feeding, rounds) =>
        cause, legs := Ask(session, setup, text, feeding, rounds);
      case Resume(prefill, rounds) =>
        cause, legs := Continue(session, setup, prefill, rounds);
      case UndoTo(sel) =>
        cause := Undo(session, sel);
      case Clear =>
        cause := StartOver(session);
      case Load(tokens, saved) =>
        cause := Load(session, tokens, saved);
      case FastLoad(tokens, saved, canary, corrupt) =>
        cause := FastLoad(session, setup, tokens, saved, canary, corrupt);
      case Reincarnation(ask, rounds, rebirth) =>
        cause, legs := Reincarnate(session, setup, ask, rounds, rebirth);
    }
  }

  method StartOver(session: Session) returns (cause: Cause)
    requires session.Inv()
    modifies session, session.mem
    ensures cause == Kept && session.Inv() && Fresh(session.system, session.Look())
    ensures session.cps == [] && session.tracker <= session.system && session.offset == 0 && session.toolIdx == -1
            && !session.slotSaved
    ensures session.mem.faults >= old(session.mem.faults) && session.stops >= old(session.stops)
    ensures session.mem.faults == old(session.mem.faults) && session.stops == old(session.stops) ==>
            session.tracker == session.system
  {
    session.ClearSession();
    cause := Kept;
  }

  /** An undo keeps the invariant exactly if it is not instant or its condition holds. */
  method Undo(session: Session, sel: nat) returns (cause: Cause)
    requires session.Inv()
    modifies session, session.mem
    ensures cause == Kept <==> session.Inv()
    ensures cause == UndoTooShort <==>
            var v := old(session.Look()); sel + 1 < |v.cps| && v.InstantUndo(sel) && !v.InstantUndoSound(sel)
    ensures cause == Kept || cause == UndoTooShort
    ensures Undone(session.system, old(Now(session)), sel, Now(session))
    ensures sel + 1 >= |old(session.cps)| ==> session.tracker == old(session.tracker) && session.cps == old(session.cps)
    ensures sel + 1 < |old(session.cps)| && session.mem.faults == old(session.mem.faults)
            && session.stops == old(session.stops) ==>
              session.cps == old(session.cps)[..sel + 1]
                  && session.tracker == old(session.tracker)[..old(session.cps)[sel].nPast]
    ensures session.mem.faults >= old(session.mem.faults) && session.stops >= old(session.stops)
  {
    cause := Kept;
    if sel + 1 < |session.cps| {
      var sound := session.Look().InstantUndoSound(sel);
      var path := session.Undo(sel);
      if path == Instant && !sound {
        cause := UndoTooShort;
      }
    }
  }

  /** A slow restore keeps the invariant exactly if it fails or the list is sound; it fails
      only after a failed decode or an interrupt. */
  method Load(session: Session, tokens: Tokens, saved: seq<PromptCheckpoint>) returns (cause: Cause)
    requires session.Inv()
    modifies session, session.mem
    ensures cause == Kept <==> session.Inv()
    ensures cause == Kept || (cause == UnsoundSave && !Sound(saved, |tokens|))
    ensures session.mem.faults == old(session.mem.faults) && session.stops == old(session.stops) ==>
              && (cause == Kept <==> Sound(saved, |tokens|)) && session.tracker == tokens && session.cps == saved
              && (tokens != [] ==> session.rows == [Exact(tokens)])
    ensures session.lastContext == session.nPast
    ensures Restored(session.system, tokens, saved, old(Now(session)), Now(session))
    ensures session.mem.faults >= old(session.mem.faults) && session.stops >= old(session.stops)
  {
    session.ClearSession();
    var ok := session.SlowRestore(tokens, saved);
    session.lastContext := session.nPast;
    cause := if ok && !Sound(saved, |tokens|) then UnsoundSave else Kept;
  }

  /** A restore from the cache, with the canary probe if asked.  A probe that is judged
      corrupted, or does not come to its end, is not rolled back: the cache is loaded again, and
      after three attempts the tokens are decoded again. */
  method FastLoad(session: Session, setup: Setup, tokens: Fed, saved: seq<PromptCheckpoint>, canary: bool, corrupt: nat)
    returns (cause: Cause)
    requires session.Inv() && setup.Fits(session)
    modifies session, session.mem
    ensures cause == Kept <==> session.Inv()
    ensures cause == UnsoundSave <==> !FastSound(session.mem.hybrid, saved, |tokens|, canary)
    ensures cause != Kept && cause != UnsoundSave ==> cause == ProbeTooShort && canary && session.mem.hybrid
    ensures cause == ProbeTooShort && session.mem.faults == old(session.mem.faults)
            && session.stops == old(session.stops) ==>
              exists last: int :: !setup.ProbeLong(tokens, session.system, last, session.mem.window)
    ensures if cause == Kept then Restored(session.system, tokens, saved, old(Now(session)), Now(session))
            else tokens <= session.tracker && session.cps == saved
    ensures cause == Kept && session.mem.faults == old(session.mem.faults) && session.stops == old(session.stops) ==>
              session.tracker == tokens && session.cps == saved && session.lastContext == session.nPast
    ensures session.mem.faults >= old(session.mem.faults) && session.stops >= old(session.stops)
  {
    hide Aligned, Sound, Run, Session.SlotsAligned, Session.CheckpointsOrdered;
    session.ClearSession();
    hide Session.Inv, Session.Ready, FastSound, Setup.ProbeLong;
    var attempt := 0;
    while attempt <= CANARY_RETRIES
      invariant 0 <= attempt <= CANARY_RETRIES + 1 && session.mem.State().Valid() && session.nBatch > 0
      invariant session.toolIdx < 0 && !session.slotSaved
      invariant session.mem.faults >= old(session.mem.faults) && session.stops >= old(session.stops)
      invariant session.mem.faults == old(session.mem.faults) && session.stops == old(session.stops) && attempt <= CANARY_RETRIES ==>
                  LastOf(session.rows) == Exact(session.system) && (session.rows == [] <==> session.system == [])
      invariant attempt > 0 ==> FastSound(session.mem.hybrid, saved, |tokens|, canary)
    {
      var clean;
      cause, clean := Attempt(session, setup, tokens, saved, canary, attempt < corrupt);
      if clean {
        return;
      }
      if attempt < CANARY_RETRIES {
        session.ClearContext();
        session.slotSaved, session.interruptedIdx := false, -1;
      }
      attempt := attempt + 1;
    }
    assert Sound(saved, |tokens|) by {
      FastIsSound(session.mem.hybrid, saved, |tokens|, canary);
    }
    var _ := session.SlowRestore(tokens, saved);
    session.lastContext := session.nPast;
    cause := Kept;
  }

  lemma FastIsSound(hybrid: bool, saved: seq<PromptCheckpoint>, total: nat, canary: bool)
    requires FastSound(hybrid, saved, total, canary)
    ensures Sound(saved, total)
  {
  }

  /** One load of the cache. */
  method Attempt(session: Session, setup: Setup, tokens: Fed, saved: seq<PromptCheckpoint>, canary: bool, corrupt: bool)
    returns (cause: Cause, clean: bool)
    requires session.nBatch > 0 && session.toolIdx < 0 && !session.slotSaved && setup.Fits(session)
    modifies session, session.mem
    ensures session.InStep() && session.toolIdx < 0 && !session.slotSaved
    ensures !clean ==> canary && cause == Kept && FastSound(session.mem.hybrid, saved, |tokens|, canary)
    ensures clean ==>
              && (cause == Kept <==> session.Inv())
              && (cause == UnsoundSave <==> !FastSound(session.mem.hybrid, saved, |tokens|, canary))
              && tokens <= session.tracker && session.cps == saved
              && (cause == Kept ==> session.tracker == tokens && session.lastContext == session.nPast)
    ensures cause == Kept || cause == UnsoundSave || (cause == ProbeTooShort && canary && session.mem.hybrid)
    ensures cause == ProbeTooShort && session.mem.faults == old(session.mem.faults)
            && session.stops == old(session.stops)
            && LastOf(old(session.rows)) == Exact(session.system)
                && (old(session.rows) == [] <==> session.system == []) ==>
              exists last: int :: !setup.ProbeLong(tokens, session.system, last, session.mem.window)
    ensures session.mem.faults >= old(session.mem.faults) && session.stops >= old(session.stops)
  {
    hide Aligned, Sound, Run, Session.SlotsAligned, Session.CheckpointsOrdered;
    session.FastRestore(tokens, saved, canary);
    cause, clean := Kept, true;
    if !FastSound(session.mem.hybrid, saved, |tokens|, canary) {
      return UnsoundSave, true;
    }
    if canary {
      ghost var last := session.lastContext;
      cause, clean := Probe(session, setup, tokens, corrupt);
      assert cause == ProbeTooShort && session.mem.faults == old(session.mem.faults)
             && LastOf(old(session.rows)) == Exact(session.system)
                 && (old(session.rows) == [] <==> session.system == []) ==>
          !setup.ProbeLong(tokens, session.system, last, session.mem.window);
    }
    if clean {
      session.lastContext := session.nPast;
    }
  }

  /** A capped generation without a hook and without the tripwire.  If it is judged clean it is
      rolled back, and leaves exactly the restored session behind if and only if it outgrew the
      snapshot window, or there is none. */
  method Probe(session: Session, setup: Setup, tokens: Fed, corrupt: bool) returns (cause: Cause, clean: bool)
    requires session.Inv() && session.tracker == tokens && setup.Fits(session)
    requires session.mem.hybrid ==> session.mem.stack == [tokens]
    modifies session`tracker, session`nPast, session`rows, session`lastContext, session`toolIdx,
             session`slotSaved, session`slotHasTarget, session`toolNPast, session.mem
    ensures session.InStep() && session.Slot() == old(session.Slot())
    ensures clean ==> (cause == Kept <==> session.Inv()) && (cause == Kept ==> session.tracker == tokens)
    ensures clean ==> !corrupt
    ensures cause == Kept || (clean && cause == ProbeTooShort && session.mem.hybrid)
    ensures tokens <= session.tracker && session.mem.faults >= old(session.mem.faults)
    ensures session.mem.faults == old(session.mem.faults) ==>
              var o := Spoken(setup.probe, setup.Probes(), tokens, old(session.rows), old(session.lastContext));
              && (clean <==> !corrupt && (o.exit == CanaryCap || o.exit.EndOfGeneration? || o.exit.TextBreak?))
              && (clean && session.mem.hybrid ==> (cause == Kept <==> |o.at.tracker| > |tokens| + session.mem.window))
  {
    hide Run;
    var point := |tokens|;
    var exit;
    cause, exit := Generate(session, setup.Probing(), setup.Probes(), false);
    assert session.tracker[..point] == tokens;
    clean := !corrupt && Complete(exit) && cause == Kept;
    if !clean {
      return Kept, false;
    }
    var distance := |session.tracker| - point;
    session.RollBackCanary(point);
    if session.mem.hybrid && distance <= session.mem.window {
      return ProbeTooShort, true;
    }
    ProbeGone(session);
  }

  /** The probe ran: it was not interrupted, and no decode failed in it. */
  predicate Complete(exit: Exit) {
    exit == CanaryCap || exit.EndOfGeneration? || exit.TextBreak?
  }

  /** Back at the restore point with the same bookkeeping, the invariant is back too. */
  twostate lemma ProbeGone(session: Session)
    requires old(session.Inv()) && session.Lockstep() && session.tracker == old(session.tracker)
    requires session.mem.stack == old(session.mem.stack) && session.Slot() == old(session.Slot())
    requires session.cps == old(session.cps) && session.offset == old(session.offset)
    requires session.interruptedIdx == old(session.interruptedIdx) && session.lastInput == old(session.lastInput)
    requires session.mem.hybrid ==> !session.mem.rsRestored
    ensures session.Inv()
  {
  }

  /** What the end of the loop means for the session. */
  lemma GenerationEnded(setup: Setup, g: TokenGenerator, exit: Exit, stranded: bool, outcome: Outcome, ready: bool)
    requires g.Ended(outcome, exit, stranded, ready) && setup.env == g.env && setup.draftLen == g.draftLen
    ensures exit != DecodeFailed && exit != SettleFailed ==>
              outcome.Done? && g.session.tracker == outcome.at.tracker && exit == outcome.exit
              && g.session.lastContext == outcome.at.lastContext && (g.session.rows != [] <==> outcome.at.ready)
    ensures exit != SettleFailed ==> (g.session.Lockstep() <==> !stranded)
    ensures exit == SettleFailed ==> g.session.InStep() && !stranded
    ensures stranded ==>
              setup.draftLen > 1 && !NeverTrips(setup.env) && !g.session.InStep()
                  && g.session.mem.Length() == g.session.nPast + 1
    ensures ready && exit != DecodeFailed && exit != SettleFailed && NeverTrips(setup.env) ==> g.session.Ready()
  {
  }

  /** One generation over the session, from the batch that the last step left.  It loses the
      invariant exactly by stranding, or by failing to settle over a stale snapshot.  Unless a
      decode fails, it ends where the plain loop ends; and if neither the tripwire nor a failed
      decode stops it, a generation that started on its own row leaves its own row behind, so
      that it can be resumed. */
  method Generate(session: Session, setup: Setup, cfg: Config, hooked: bool) returns (cause: Cause, exit: Exit)
    requires session.Inv() && setup.Fits(session)
    modifies session`tracker, session`nPast, session`rows, session`lastContext, session`toolIdx,
             session`slotSaved, session`slotHasTarget, session`toolNPast, session.mem
    ensures cause == Kept <==> session.Inv()
    ensures cause == TripwireOnLastMatch <==> !session.InStep()
    ensures cause == TripwireOnLastMatch ==>
              setup.draftLen > 1 && !NeverTrips(setup.env) && session.mem.Length() == session.nPast + 1
    ensures cause == UnsettledOrigin ==> session.mem.hybrid && session.mem.faults > old(session.mem.faults)
    ensures cause == Kept || cause == TripwireOnLastMatch || cause == UnsettledOrigin
    ensures old(session.tracker) <= session.tracker
    ensures session.mem.faults >= old(session.mem.faults)
    ensures session.mem.faults == old(session.mem.faults) ==>
              var o := Spoken(setup.env, cfg, old(session.tracker), old(session.rows), old(session.lastContext));
              session.tracker == o.at.tracker && exit == o.exit && session.lastContext == o.at.lastContext
    ensures cause == UnsettledOrigin ==> exit == SettleFailed
    ensures old(session.Ready()) && session.mem.faults == old(session.mem.faults) && NeverTrips(setup.env) ==>
            session.Ready()
    ensures session.mem.faults == old(session.mem.faults) && old(session.rows) != [] ==> session.rows != []
    ensures !hooked ==> session.mem.stack == old(session.mem.stack) && session.Slot() == old(session.Slot())
    ensures old(session.SlotKnown()) ==> session.SlotKnown()
    ensures old(session.NothingPending()) && setup.draftLen <= 1 && session.mem.faults == old(session.mem.faults) ==>
              session.NothingPending()
  {
    hide TokenGenerator.Ended, Run, Aligned, TokenGenerator.Between, TokenGenerator.At, TokenGenerator.SampledRow,
        TokenGenerator.OnTrack;
    var generator := new TokenGenerator(session, setup.env, cfg, setup.draftLen, hooked);
    ghost var start, row, ready := generator.At(), generator.SampledRow(), generator.OnTrack();
    ghost var stranded;
    exit, stranded := generator.Generate();
    GenerationEnded(setup, generator, exit, stranded, Run(setup.env, cfg, start, row), ready
        || session.tracker != old(session.tracker));
    if session.mem.faults == old(session.mem.faults) && old(session.rows) != [] {
      RunStaysReady(setup.env, cfg, start, row);
    }
    if session.mem.Length() != session.nPast {
      cause := TripwireOnLastMatch;
    } else if session.mem.hybrid && session.mem.State().Recurrent() != session.tracker {
      cause := UnsettledOrigin;
    } else {
      cause := Kept;
    }
  }

  // --- A turn -------------------------------------------------------------------------------

  /** A typed prompt: name the turn, feed it, generate, and return to the prompt. */
  method Ask(session: Session, setup: Setup, text: string, feeding: Feeding, rounds: seq<Round>)
    returns (cause: Cause, ghost legs: seq<Leg>)
    requires session.Inv() && setup.Fits(session)
    modifies session, session.mem
    ensures cause == Kept <==> session.Inv()
    ensures Served(setup, session.system, old(Now(session)), Prompt(text, feeding, rounds), cause, legs, Now(session))
    ensures session.mem.faults >= old(session.mem.faults) && session.stops >= old(session.stops)
    ensures cause != Kept && Trusted(setup, session.system, old(session.Look()), Prompt(text, feeding, rounds)) ==>
              Excused(session, setup, cause, old(session.mem.faults), old(session.stops))
  {
    hide Session.Inv, LongReminders, Cache.PendingIsAhead, Excused, Put, Closed, Served, Feedable;
    session.NewPrompt(text);
    var fed;
    cause, fed := FeedPrompt(session, feeding);
    legs := [];
    ghost var put := Now(session);
    NamedFeedable(old(session.Look()), text, feeding);
    if cause == Kept && fed {
      cause, legs := Answer(session, setup, setup.Turns(), rounds);
      ExcusedLater(session, setup, cause, put.faults, put.stops, old(session.mem.faults), old(session.stops));
    } else if !fed {
      ExcusedByTrouble(session, setup, cause, old(session.mem.faults), old(session.stops));
    }
    PromptServed(setup, session.system, old(Now(session)), text, feeding, put, rounds, cause, legs, Now(session));
  }

  lemma PromptServed(setup: Setup, system: Tokens, before: Moment, text: string, feeding: Feeding, put: Moment,
      rounds: seq<Round>,
                     cause: Cause, legs: seq<Leg>, after: Moment)
    requires Put(before.(view := before.view.(lastInput := text, interruptedIdx := -1)), feeding, put)
    requires if legs == [] then after == put && (cause == Kept ==> !Quiet(before, after))
             else legs[0].start == put && put.view.cache.Coherent() && Closed(setup.env, setup.Turns(), rounds, legs, cause, after)
    ensures Served(setup, system, before, Prompt(text, feeding, rounds), cause, legs, after)
  {
  }

  lemma ExcusedLater(session: Session, setup: Setup, cause: Cause, faults: nat, stops: nat, faults0: nat, stops0: nat)
    requires faults0 <= faults && stops0 <= stops
    ensures Excused(session, setup, cause, faults, stops) ==> Excused(session, setup, cause, faults0, stops0)
  {
  }

  lemma ExcusedByTrouble(session: Session, setup: Setup, cause: Cause, faults: nat, stops: nat)
    requires session.mem.faults > faults || session.stops > stops
    ensures Excused(session, setup, cause, faults, stops)
  {
  }

  /** /continue: generate from the batch as it was left, or behind a prefill whose feed is not
      checked.  The turn keeps its name, if it still has one, and its provisional checkpoint. */
  method Continue(session: Session, setup: Setup, prefill: Tokens, rounds: seq<Round>) returns (cause: Cause,
      ghost legs: seq<Leg>)
    requires session.Inv() && setup.Fits(session)
    modifies session, session.mem
    ensures cause == Kept <==> session.Inv()
    ensures Served(setup, session.system, old(Now(session)), Resume(prefill, rounds), cause, legs, Now(session))
    ensures session.mem.faults >= old(session.mem.faults) && session.stops >= old(session.stops)
    ensures cause != Kept && Trusted(setup, session.system, old(session.Look()), Resume(prefill, rounds)) ==>
              Excused(session, setup, cause, old(session.mem.faults), old(session.stops))
  {
    hide Closed, LongReminders;
    cause, legs := Kept, [];
    if prefill != [] {
      var _ := session.FeedRest(prefill);
    }
    if session.tracker != [] {
      cause, legs := Answer(session, setup, setup.Turns(), rounds);
    }
  }

  /** Put the prompt into the context.  Only a mode 2 request that drifted can lose the
      invariant, and unless its feed fails exactly when DriftSound does not hold. */
  method FeedPrompt(session: Session, feeding: Feeding) returns (cause: Cause, fed: bool)
    requires session.Inv() && session.interruptedIdx == -1
    modifies session, session.mem
    ensures cause == Kept <==> session.Inv()
    ensures cause == Kept || (cause == Drifted && feeding.Delta?)
    ensures feeding.Delta? && fed ==>
              exists m: nat :: IsMatch(old(session.tracker), feeding.request, m)
                               && (cause == Kept <==>
                                   m == |old(session.tracker)| || old(session.Look()).DriftSound(m, |feeding.request|))
                               && (m < |feeding.request| ==> session.NothingPending())
    ensures fed ==> session.tracker != []
    ensures fed && Feedable(old(session.Look()), feeding) ==> cause == Kept && session.NothingPending()
    ensures Put(old(Now(session)), feeding, Now(session))
    ensures cause == Kept ==> session.mem.State().Coherent()
    ensures fed ==> session.tracker == if feeding.Append? then old(session.tracker) + feeding.turn else feeding.request
    ensures fed && cause == Kept && !(feeding.Delta? && feeding.request <= old(session.tracker)) ==>
              session.rows != [] && session.rows[|session.rows| - 1] == Exact(session.tracker)
    ensures session.mem.faults >= old(session.mem.faults) && session.stops >= old(session.stops)
    ensures !fed ==> session.mem.faults > old(session.mem.faults) || session.stops > old(session.stops)
  {
    cause := Kept;
    match feeding {
      case Append(turn) =>
        fed := session.FeedRest(turn);
      case Whole(request) =>
        fed := session.FeedWhole(request);
      case Delta(request) =>
        cause, fed := FeedMode2(session, request);
    }
  }

  /** Mode 2.  What is left over in the batch is sampled only if the cache held the whole
      request. */
  method FeedMode2(session: Session, request: Fed) returns (cause: Cause, fed: bool)
    requires session.Inv() && session.interruptedIdx == -1
    modifies session, session.mem
    ensures cause == Kept <==> session.Inv()
    ensures cause == Kept || cause == Drifted
    ensures fed ==> exists m: nat ::
              && IsMatch(old(session.tracker), request, m)
              && (cause == Kept <==> m == |old(session.tracker)| || old(session.Look()).DriftSound(m, |request|))
              && (m < |request| ==> session.NothingPending())
    ensures session.InStep() && session.tracker <= request && (fed ==> session.tracker == request)
    ensures fed && session.Lockstep() ==>
              if request <= old(session.tracker) then OwnRow(Now(session)) || session.rows == old(session.rows)
                  else OwnRow(Now(session))
    ensures session.lastInput == old(session.lastInput) && session.interruptedIdx == -1
            && session.lastContext == old(session.lastContext)
    ensures session.mem.faults >= old(session.mem.faults) && session.stops >= old(session.stops)
    ensures !fed ==> session.mem.faults > old(session.mem.faults) || session.stops > old(session.stops)
  {
    hide Session.CheckpointsOrdered, Session.SlotsAligned, View.DriftSound, View.CutPosition;
    var before := session.Look();
    var cut, matched;
    fed, cut, matched := session.FeedDelta(request);
    PrefixMatch(before.tracker, request, matched);
    var sound := matched == |before.tracker| || before.DriftSound(matched, |request|);
    cause := if sound && session.Look().NoneBehind(|session.tracker|) then Kept else Drifted;
  }

  lemma PrefixMatch(cached: Tokens, request: Tokens, m: nat)
    requires m <= |cached| && m <= |request| && cached[..m] == request[..m]
    requires m < |cached| && m < |request| ==> cached[m] != request[m]
    ensures IsMatch(cached, request, m) && (request <= cached <==> m == |request|)
  {
    assert request[..|request|] == request;
  }

  /** Generate until nothing continues the turn, then return to the prompt; an ejected
      correction goes straight back to it. */
  method Answer(session: Session, setup: Setup, cfg: Config, rounds: seq<Round>) returns (cause: Cause,
      ghost legs: seq<Leg>)
    requires session.Inv() && setup.Fits(session) && session.tracker != []
    modifies session, session.mem
    ensures cause == Kept <==> session.Inv()
    ensures legs != [] && legs[0].start == old(Now(session))
    ensures Closed(setup.env, cfg, rounds, legs, cause, Now(session))
    ensures session.mem.faults >= old(session.mem.faults) && session.stops >= old(session.stops)
    ensures cause != Kept && (session.mem.hybrid ==>
            LongReminders(rounds, session.mem.window) && old(session.NothingPending())) ==>
              Excused(session, setup, cause, old(session.mem.faults), old(session.stops))
  {
    hide LongReminders, Turned, Session.CheckpointsOrdered, Aligned;
    var exit, back;
    cause, exit, back, legs := Turn(session, setup, cfg, rounds);
    if cause == Kept && back {
      cause := ReturnToPrompt(session, exit == Interrupted || exit == TurnTimeout, false);
    }
  }

  /** The generations of one turn.  `back` says that the turn ends in the prompt-return block;
      the alternatives are a correction that was ejected, and a resume at the 90% line, which
      has been through that block already. */
  method Turn(session: Session, setup: Setup, cfg: Config, rounds: seq<Round>)
    returns (cause: Cause, exit: Exit, back: bool, ghost legs: seq<Leg>)
    requires session.Inv() && setup.Fits(session) && session.tracker != []
    modifies session, session.mem
    ensures cause == Kept <==> session.Inv()
    ensures cause == Kept && back ==> session.tracker != []
    ensures legs != [] && legs[0].start == old(Now(session)) && Turned(setup.env, cfg, rounds, legs)
    ensures Ends(legs[|legs| - 1], cause, exit, false, back, Now(session))
    ensures old(session.interruptedIdx) < 0 ==> session.interruptedIdx < 0
    ensures session.mem.faults >= old(session.mem.faults) && session.stops >= old(session.stops)
    ensures cause == Kept && old(session.NothingPending()) ==> Calm(session, setup, old(session.mem.faults), old(session.stops))
    ensures cause != Kept && (session.mem.hybrid ==>
            LongReminders(rounds, session.mem.window) && old(session.NothingPending())) ==>
              Excused(session, setup, cause, old(session.mem.faults), old(session.stops))
  {
    hide Session.Inv, Excused, LongReminders, Turned, Legged;
    var i := 0;
    var more := true;
    cause, exit, back, legs := Kept, ContextCrossing, false, [];
    NoLegs(setup.env, cfg, rounds);
    while more
      invariant i == |legs| && (more ==> i <= |rounds|) && (legs == [] ==> more)
      invariant setup.Fits(session) && (more || back ==> session.tracker != [])
      invariant cause == Kept && session.Inv()
      invariant Turned(setup.env, cfg, rounds, legs)
      invariant old(session.interruptedIdx) < 0 ==> session.interruptedIdx < 0
      invariant legs == [] ==> Now(session) == old(Now(session))
      invariant legs != [] ==> legs[0].start == old(Now(session)) && Ends(legs[|legs| - 1], cause, exit, more, back, Now(session))
      invariant session.mem.faults >= old(session.mem.faults) && session.stops >= old(session.stops)
      invariant old(session.NothingPending()) ==> Calm(session, setup, old(session.mem.faults), old(session.stops))
      decreases |rounds| + 1 - i
    {
      ghost var faults, stops := session.mem.faults, session.stops;
      ghost var calm := session.NothingPending();
      ghost var leg;
      cause, exit, more, back, leg := TakeLeg(session, setup, cfg, RoundAt(rounds, i));
      OneMore(setup.env, cfg, rounds, legs, leg);
      legs := legs + [leg];
      if cause != Kept {
        OneLong(rounds, i, session.mem.window);
        if (session.mem.hybrid ==> LongReminders(rounds, session.mem.window) && old(session.NothingPending())) {
          ExcusedSince(session, setup, cause, faults, stops, calm, old(session.mem.faults), old(session.stops));
        }
        return;
      }
      i := i + 1;
    }
  }

  /** How a leg ends. */
  ghost predicate Ends(leg: Leg, cause: Cause, exit: Exit, more: bool, back: bool, end: Moment) {
    leg.cause == cause && leg.exit == exit && leg.more == more && leg.back == back && leg.end == end
  }

  lemma NoLegs(env: Env, cfg: Config, rounds: seq<Round>)
    ensures Turned(env, cfg, rounds, [])
  {
  }

  lemma OneMore(env: Env, cfg: Config, rounds: seq<Round>, legs: seq<Leg>, leg: Leg)
    requires Turned(env, cfg, rounds, legs) && Legged(env, cfg, RoundAt(rounds, |legs|), leg)
    requires legs != [] ==> var last := legs[|legs| - 1]; leg.start == last.end && last.more && last.cause == Kept
    ensures Turned(env, cfg, rounds, legs + [leg])
  {
    hide Legged;
    forall i | 0 < i < |legs + [leg]| ensures Joined(legs + [leg], i) {
      assert i < |legs| ==> Joined(legs, i);
    }
  }

  /** One generation of a turn and what follows it. */
  method TakeLeg(session: Session, setup: Setup, cfg: Config, next: seq<Round>)
    returns (cause: Cause, exit: Exit, more: bool, back: bool, ghost leg: Leg)
    requires session.Inv() && setup.Fits(session) && session.tracker != [] && |next| <= 1
    modifies session, session.mem
    ensures cause == Kept <==> session.Inv()
    ensures cause == Kept && (more || back) ==> session.tracker != []
    ensures more ==> next != [] && cause == Kept
    ensures leg.start == old(Now(session)) && Ends(leg, cause, exit, more, back, Now(session))
    ensures Legged(setup.env, cfg, next, leg)
    ensures old(session.interruptedIdx) < 0 ==> session.interruptedIdx < 0
    ensures session.mem.faults >= old(session.mem.faults) && session.stops >= old(session.stops)
    ensures cause == Kept && old(session.NothingPending()) ==> Calm(session, setup, old(session.mem.faults), old(session.stops))
    ensures cause != Kept && (session.mem.hybrid ==> LongReminders(next, session.mem.window)) ==>
              || Excused(session, setup, cause, old(session.mem.faults), old(session.stops))
              || (cause == SavedPendingRollback && session.mem.hybrid && !old(session.NothingPending()))
  {
    hide Session.Inv, LongReminders, Spoken, Generated, Answered, View.Recorded;
    cause, exit, leg := Speak(session, setup, cfg);
    more, back := false, true;
    ghost var spoken := leg;
    if cause == Kept {
      if exit == ContextCrossing {
        back := false;
        cause, more, leg := Cross(session, next, leg);
      } else if next != [] && Asks(exit) {
        assert next == [next[0]];
        cause, more, back, leg := Follow(session, setup, cfg, exit, next[0], leg);
      }
    }
    StillGenerated(setup.env, cfg, spoken, leg);
  }

  /** The prompt return at the 90% line. */
  method Cross(session: Session, next: seq<Round>, ghost so: Leg) returns (cause: Cause, more: bool, ghost leg: Leg)
    requires session.Inv() && session.tracker != []
    requires so.end == Now(session) && so.text == session.tracker && so.end.view.Filed() == so.start.view.Filed()
    modifies session`cps, session`toolIdx, session`slotSaved, session`interruptedIdx, session`lastInput,
             session.mem`stack
    ensures cause == Kept <==> session.Inv()
    ensures cause == Kept || (cause == SavedPendingRollback && session.mem.hybrid && session.mem.rsIdx > 0)
    ensures leg == so.(cause := cause, more := more, back := false, end := Now(session))
    ensures session.Look().Filed() == so.start.view.(tracker := so.text).Recorded(true, true)
    ensures more <==> cause == Kept && so.start.view.lastInput != "" && next != []
    ensures old(session.interruptedIdx) < 0 ==> session.interruptedIdx < 0
  {
    hide Session.Inv, View.Recorded;
    ghost var v := session.Look();
    cause := ReturnToPrompt(session, true, true);
    SameRecord(v, so.start.view.(tracker := so.text));
    more := cause == Kept && session.lastInput != "" && next != [];
    leg := so.(cause := cause, more := more, back := false, end := Now(session));
  }

  /** One generation of a turn, with its hook. */
  method Speak(session: Session, setup: Setup, cfg: Config) returns (cause: Cause, exit: Exit, ghost leg: Leg)
    requires session.Inv() && setup.Fits(session)
    modifies session`tracker, session`nPast, session`rows, session`lastContext, session`toolIdx,
             session`slotSaved, session`slotHasTarget, session`toolNPast, session.mem
    ensures cause == Kept <==> session.Inv()
    ensures leg.start == old(Now(session)) && leg.text == session.tracker && leg.checked == session.lastContext
    ensures Quiet(leg.start, leg.end) && OwnRow(leg.start) && NeverTrips(setup.env) ==> OwnRow(leg.end)
    ensures old(session.tracker) <= session.tracker
    ensures Ends(leg, cause, exit, false, true, Now(session)) && Generated(setup.env, cfg, leg)
    ensures cause == Kept ==> session.SlotKnown()
    ensures session.mem.faults >= old(session.mem.faults)
    ensures cause == Kept && old(session.NothingPending()) ==> Calm(session, setup, old(session.mem.faults), old(session.stops))
    ensures cause != Kept ==> Excused(session, setup, cause, old(session.mem.faults), old(session.stops)) && cause != SavedPendingRollback
  {
    hide Session.Inv, Spoken;
    ghost var start := Now(session);
    session.BeginGeneration(false);
    cause, exit := Generate(session, setup, cfg, true);
    leg := Leg(start, session.tracker, exit, session.lastContext, session.tracker, cause, false, true, Now(session));
  }

  lemma StillGenerated(env: Env, cfg: Config, spoken: Leg, leg: Leg)
    requires Generated(env, cfg, spoken) && Later(spoken.end, leg.end)
    requires (leg.start, leg.text, leg.exit, leg.checked) == (spoken.start, spoken.text, spoken.exit, spoken.checked)
    ensures Generated(env, cfg, leg)
  {
    hide Spoken;
  }

  lemma SameRecord(a: View, b: View)
    requires a.Filed() == b.Filed() && a.tracker == b.tracker
    ensures a.Recorded(true, true) == b.Recorded(true, true) && a.Recorded(true, true).lastInput == a.lastInput
    ensures a.interruptedIdx < 0 ==> a.Recorded(true, true).interruptedIdx < 0
  {
  }

  lemma OneLong(rounds: seq<Round>, i: nat, window: nat)
    ensures LongReminders(rounds, window) ==> LongReminders(RoundAt(rounds, i), window)
  {
  }

  /** What excused the last leg of a turn excuses the turn. */
  lemma ExcusedSince(session: Session, setup: Setup, cause: Cause, faults: nat, stops: nat, calm: bool, faults0: nat,
      stops0: nat)
    requires faults0 <= faults <= session.mem.faults && stops0 <= stops <= session.stops
    requires Excused(session, setup, cause, faults, stops)
            || (cause == SavedPendingRollback && session.mem.hybrid && !calm)
    requires faults > faults0 || stops > stops0 || (session.mem.hybrid && setup.draftLen > 1) || calm
    ensures Excused(session, setup, cause, faults0, stops0)
  {
  }

  /** Nothing is pending, unless a decode failed, a feed was interrupted or rounds hold more
      than one draft. */
  ghost predicate Calm(session: Session, setup: Setup, faults: nat, stops: nat)
    reads session, session.mem
  {
    || session.mem.faults > faults
    || session.stops > stops
    || (session.mem.hybrid && setup.draftLen > 1)
    || session.NothingPending()
  }

  /** What the text asks for: a tool's result, a correction, or a prompt that recovers from the
      tripwire. */
  method Follow(session: Session, setup: Setup, cfg: Config, exit: Exit, round: Round, ghost so: Leg)
    returns (cause: Cause, more: bool, back: bool, ghost leg: Leg)
    requires session.Inv() && setup.Fits(session) && session.tracker != [] && session.SlotKnown()
    requires so.exit == exit && so.text == session.tracker && so.checked == session.lastContext
            && Later(so.start, Now(session))
    modifies session`tracker, session`nPast, session`rows, session`lastContext, session`toolIdx,
             session`slotSaved, session`slotHasTarget, session`toolNPast, session`stops, session.mem
    ensures cause == Kept <==> session.Inv()
    ensures cause == Kept && (more || back) ==> session.tracker != []
    ensures more ==> cause == Kept
    ensures leg == so.(redone := leg.redone, cause := cause, more := more, back := back, end := Now(session))
    ensures cause == Kept ==> Answered(setup.env, cfg, round, leg)
    ensures round.Result? ==>
              && cause == Kept && old(session.tracker) <= session.tracker <= old(session.tracker) + round.tokens
                  && (back <==> !more)
              && (session.mem.faults == old(session.mem.faults) && session.stops == old(session.stops) ==>
                    session.tracker == old(session.tracker) + round.tokens && (more <==> round.goOn))
    ensures round.Correction? && exit == TextBreak(Tripwire) ==>
            session.tracker == old(session.tracker) && back && !more
    ensures round.Correction? && exit != TextBreak(Tripwire) ==>
              !back && (!round.fits ==> session.tracker == old(session.tracker) && !more)
    ensures cause == Kept || cause == CorrectionTooShort || cause == TripwireOnLastMatch || cause == UnsettledOrigin
    ensures session.mem.faults >= old(session.mem.faults) && session.stops >= old(session.stops)
    ensures cause == Kept && old(session.NothingPending()) ==> Calm(session, setup, old(session.mem.faults), old(session.stops))
    ensures cause != Kept && (session.mem.hybrid ==> LongReminders([round], session.mem.window)) ==>
              Excused(session, setup, cause, old(session.mem.faults), old(session.stops))
  {
    hide Aligned, Corrected;
    leg := so;
    match round {
      case Result(tokens, goOn) =>
        cause := Kept;
        var fed := session.FeedRest(tokens);
        more := fed && goOn;
        back := !more;
      case Correction(reminder, fits, valid, call, result, goOn) =>
        cause, more, back := Kept, false, true;
        if exit != TextBreak(Tripwire) {
          back := false;
          if fits {
            assert [round][0] == round;
            cause, more, leg := Correct(session, setup, cfg, round, so);
          }
        }
    }
    leg := leg.(cause := cause, more := more, back := back, end := Now(session));
  }

  /** The correction cycle: feed the reminder, generate once without the hook, and if that gave
      a good call roll back to the bad one, feed the good call and its result.  Wherever it
      stops short it ejects to the prompt without recording a checkpoint. */
  method Correct(session: Session, setup: Setup, cfg: Config, round: Round, ghost so: Leg)
    returns (cause: Cause, more: bool, ghost leg: Leg)
    requires session.Inv() && setup.Fits(session) && session.tracker != [] && session.SlotKnown()
    requires round.Correction? && round.fits
    requires so.text == session.tracker && so.checked == session.lastContext && Later(so.start, Now(session))
    modifies session`tracker, session`nPast, session`rows, session`lastContext, session`toolIdx,
             session`slotSaved, session`slotHasTarget, session`toolNPast, session`stops, session.mem
    ensures cause == Kept <==> session.Inv()
    ensures more ==> session.tracker != [] && cause == Kept
    ensures leg == so.(redone := leg.redone, cause := cause, more := more, back := false, end := Now(session))
    ensures cause == Kept ==> so.text <= leg.redone && (Quiet(so.start, leg.end) ==> Corrected(setup.env, cfg, round, leg))
    ensures cause == Kept && session.mem.faults == old(session.mem.faults) && session.stops == old(session.stops) ==>
              && old(session.tracker) + round.reminder <= leg.redone
              && (session.tracker == leg.redone || session.cps == [] || session.toolNPast <= |leg.redone|)
              && (more ==> round.valid && round.goOn)
    ensures cause == Kept || cause == CorrectionTooShort || cause == TripwireOnLastMatch || cause == UnsettledOrigin
    ensures session.mem.faults >= old(session.mem.faults) && session.stops >= old(session.stops)
    ensures cause == Kept && old(session.NothingPending()) ==> Calm(session, setup, old(session.mem.faults), old(session.stops))
    ensures cause != Kept && (session.mem.hybrid ==> |round.reminder| > session.mem.window) ==>
              Excused(session, setup, cause, old(session.mem.faults), old(session.stops))
  {
    hide Aligned, Spoken, View.Reach, Corrected, Respoken, Session.Inv, Early;
    ghost var length := |session.tracker|;
    ReachesBack(session);
    var fed, exit;
    ghost var rows;
    cause, fed, exit, leg, rows := Reconsider(session, setup, cfg, round, so);
    more := false;
    if !fed || cause != Kept || !ClosesCall(exit) || !round.valid {
      EndedThere(setup.env, cfg, round, leg, rows, exit);
      return;
    }
    ghost var spoken, again := leg, session.Look();
    cause, more := Inject(session, round, length);
    leg := leg.(cause := cause, more := more, end := Now(session));
    EndedReplaced(setup.env, cfg, round, spoken, leg, rows, exit, again);
  }

  /** Feed the reminder, and generate behind it. */
  method Reconsider(session: Session, setup: Setup, cfg: Config, round: Round, ghost so: Leg)
    returns (cause: Cause, fed: bool, exit: Exit, ghost leg: Leg, ghost rows: seq<Row>)
    requires session.Inv() && setup.Fits(session) && session.tracker != [] && session.SlotKnown()
            && Early(session, |session.tracker|)
    requires round.Correction?
    requires so.text == session.tracker && so.checked == session.lastContext && Later(so.start, Now(session))
    modifies session`tracker, session`nPast, session`rows, session`lastContext, session`toolIdx,
             session`slotSaved, session`slotHasTarget, session`toolNPast, session`stops, session.mem
    ensures cause == Kept <==> session.Inv()
    ensures leg == so.(redone := session.tracker, cause := cause, more := false, back := false, end := Now(session))
    ensures so.text <= session.tracker && session.SlotKnown() && Early(session, |so.text|)
    ensures fed && session.mem.faults == old(session.mem.faults) && session.stops == old(session.stops) ==>
              Respoken(setup.env, cfg, round, leg, rows, exit)
    ensures fed ==> old(session.tracker) + round.reminder <= session.tracker
    ensures !fed ==> cause == Kept && (session.mem.faults > old(session.mem.faults) || session.stops > old(session.stops))
    ensures session.mem.faults >= old(session.mem.faults) && session.stops >= old(session.stops)
    ensures cause == Kept && old(session.NothingPending()) ==> Calm(session, setup, old(session.mem.faults), old(session.stops))
    ensures cause != Kept ==> Excused(session, setup, cause, old(session.mem.faults), old(session.stops))
    ensures cause == Kept || cause == TripwireOnLastMatch || cause == UnsettledOrigin
  {
    hide Aligned, Spoken, Session.SlotsAligned, Session.CheckpointsOrdered;
    cause, exit := Kept, Interrupted;
    fed := session.FeedRest(round.reminder);
    rows := session.rows;
    if fed {
      session.BeginGeneration(true);
      cause, exit := Generate(session, setup, cfg, false);
    }
    leg := so.(redone := session.tracker, cause := cause, more := false, back := false, end := Now(session));
  }

  /** The regeneration spoke as the plain loop does, from the batch its reminder left. */
  ghost predicate Respoken(env: Env, cfg: Config, round: Round, leg: Leg, rows: seq<Row>, exit: Exit)
    requires round.Correction?
  {
    var reminded := leg.text + round.reminder;
    && rows != [] && rows[|rows| - 1] == Exact(reminded)
    && var o := Spoken(env, cfg, reminded, rows, leg.checked);
       leg.redone == o.at.tracker && exit == o.exit && leg.end.lastContext == o.at.lastContext
  }

  lemma EndedThere(env: Env, cfg: Config, round: Round, leg: Leg, rows: seq<Row>, exit: Exit)
    requires round.Correction? && leg.end.view.tracker == leg.redone && !leg.more
    ensures Respoken(env, cfg, round, leg, rows, exit) && (!ClosesCall(exit) || !round.valid) ==>
            Corrected(env, cfg, round, leg)
  {
    hide Run;
  }

  lemma EndedReplaced(env: Env, cfg: Config, round: Round, spoken: Leg, leg: Leg, rows: seq<Row>, exit: Exit,
      again: View)
    requires round.Correction? && ClosesCall(exit) && round.valid
    requires leg.text == spoken.text && leg.redone == spoken.redone && leg.checked == spoken.checked
    requires leg.end.lastContext == spoken.end.lastContext
    requires var end := leg.end.view;
             again.tracker == leg.redone && (again.toolNPast, again.slotHasTarget, again.cps, again.offset) ==
                                            (end.toolNPast, end.slotHasTarget, end.cps, end.offset)
    ensures Respoken(env, cfg, round, spoken, rows, exit)
            && (if again.cps == [] then leg.end.view.tracker == leg.redone + round.result && (leg.more <==> round.goOn)
                else if again.Reach() < 0 then leg.end.view.tracker == leg.redone && !leg.more
                else
                  && again.toolNPast <= |again.tracker| && (leg.more <==> round.goOn)
                  && leg.end.view.tracker == again.tracker[..again.toolNPast] + round.call + round.result)
            ==> Corrected(env, cfg, round, leg)
  {
    hide Run, View.Reach;
    SameReach(again, leg.end.view.(tracker := leg.redone));
  }

  lemma SameReach(a: View, b: View)
    requires |a.tracker| == |b.tracker| && a.toolNPast == b.toolNPast && a.slotHasTarget == b.slotHasTarget
    requires a.cps == b.cps && a.offset == b.offset
    ensures a.Reach() == b.Reach()
  {
    SameAnchor(a, b, a.toolNPast, |a.cps|);
  }

  /** What a rollback would restore lies within the first `length` tokens. */
  ghost predicate Early(session: Session, length: nat)
    reads session
  {
    session.mem.hybrid ==>
      && (session.slotHasTarget ==> session.toolNPast <= length)
      && forall i :: 0 <= i < |session.cps| ==> session.cps[i].nPast <= length
  }

  lemma ReachesBack(session: Session)
    requires session.Inv() && session.SlotKnown()
    ensures Early(session, |session.tracker|)
  {
  }

  /** Roll back to the bad call and feed the good one in its place; without checkpoints the good
      call is executed where it stands. */
  method Inject(session: Session, round: Round, ghost length: nat) returns (cause: Cause, more: bool)
    requires session.Inv() && session.SlotKnown() && Early(session, length) && round.Correction?
    modifies session`tracker, session`nPast, session`rows, session`stops, session.mem
    ensures cause == Kept <==> session.Inv()
    ensures more ==> session.tracker != [] && cause == Kept
    ensures cause == Kept || cause == CorrectionTooShort
    ensures cause == Kept && session.mem.faults == old(session.mem.faults) && session.stops == old(session.stops) ==>
              if session.cps == [] then session.tracker == old(session.tracker) + round.result && (more <==> round.goOn)
              else if old(session.Look()).Reach() < 0 then session.tracker == old(session.tracker) && !more
              else
                && session.toolNPast <= |old(session.tracker)| && (more <==> round.goOn)
                && session.tracker == old(session.tracker)[..session.toolNPast] + round.call + round.result
    ensures session.mem.faults >= old(session.mem.faults) && session.stops >= old(session.stops)
    ensures cause == Kept && old(session.NothingPending()) ==> session.NothingPending()
    ensures cause != Kept && (session.mem.hybrid ==> |old(session.tracker)| > length + session.mem.window) ==>
              !session.Look().NoneBehind(|session.tracker|)
  {
    hide Aligned;
    cause, more := Kept, false;
    if session.cps == [] {
      var done := session.FeedRest(round.result);
      more := done && round.goOn;
      return;
    }
    var rc;
    cause, rc := RollBackCall(session);
    if cause == Kept && rc >= 0 {
      var done := session.FeedRest(round.call);
      if done {
        done := session.FeedRest(round.result);
        more := done && round.goOn;
      }
    }
  }

  /** The rollback keeps the invariant exactly if CorrectionSound held, provided that the suffix
      it may have to re-decode is fed; if that fails, exactly if no checkpoint is left behind. */
  method RollBackCall(session: Session) returns (cause: Cause, rc: int)
    requires session.Inv() && session.SlotKnown()
    modifies session`tracker, session`nPast, session`rows, session`stops, session.mem
    ensures cause == Kept <==> session.Inv()
    ensures cause == Kept || cause == CorrectionTooShort
    ensures session.mem.faults == old(session.mem.faults) && session.stops == old(session.stops) ==>
              (cause == Kept <==> old(session.Look()).CorrectionSound())
    ensures cause == CorrectionTooShort ==>
              || !session.Look().NoneBehind(|session.tracker|)
              || (session.mem.hybrid && |old(session.tracker)| - old(session.Look()).Reach() <= session.mem.window)
    ensures session.mem.faults >= old(session.mem.faults) && session.stops >= old(session.stops)
    ensures cause == Kept && old(session.NothingPending()) ==> session.NothingPending()
    ensures session.tracker <= old(session.tracker)
    ensures old(session.Look()).Reach() < 0 ==> rc < 0 && session.tracker == old(session.tracker)
    ensures old(session.Look()).Reach() >= 0 && session.mem.faults == old(session.mem.faults)
            && session.stops == old(session.stops) ==>
              rc >= 0
    ensures rc >= 0 ==>
              session.toolNPast <= |old(session.tracker)|
                  && session.tracker == old(session.tracker)[..session.toolNPast]
  {
    var before := session.Look();
    var anchor;
    rc, anchor := session.RollbackToToolCheckpoint();
    if before.Reach() < 0 {
      return Kept, rc;
    }
    var exact := session.Look().NoneBehind(|session.tracker|)
                 && (!session.mem.hybrid || |before.tracker| - before.Reach() > session.mem.window);
    cause := if exact then Kept else CorrectionTooShort;
  }

  /** The prompt return keeps the invariant exactly if it writes no stack entry or no roll-back
      is pending. */
  method ReturnToPrompt(session: Session, interrupted: bool, ctxLimit: bool) returns (cause: Cause)
    requires session.Inv() && session.tracker != []
    modifies session`cps, session`toolIdx, session`slotSaved, session`interruptedIdx, session`lastInput,
             session.mem`stack
    ensures cause == Kept <==> session.Inv()
    ensures cause == SavedPendingRollback <==>
            session.mem.hybrid && old(session.Look()).ReturnWritesSlot(interrupted) && session.mem.rsIdx > 0
    ensures cause == Kept || cause == SavedPendingRollback
    ensures session.Look().Filed() == old(session.Look()).Recorded(interrupted, ctxLimit)
  {
    var writes := session.Look().ReturnWritesSlot(interrupted);
    session.PromptReturn(interrupted, ctxLimit);
    cause := if session.mem.hybrid && writes && session.mem.rsIdx > 0 then SavedPendingRollback else Kept;
  }

  // --- Reincarnation -------------------------------------------------------------------------------

  /** A reincarnation: ask for the new prompt in a turn of its own, and when that turn is over
      start a session with it. */
  method Reincarnate(session: Session, setup: Setup, ask: Fed, rounds: seq<Round>, rebirth: Rebirth)
    returns (cause: Cause, ghost legs: seq<Leg>)
    requires session.Inv() && setup.Fits(session)
    modifies session, session.mem
    ensures cause == Kept <==> session.Inv()
    ensures Served(setup, session.system, old(Now(session)), Reincarnation(ask, rounds, rebirth), cause, legs,
            Now(session))
    ensures session.mem.faults >= old(session.mem.faults) && session.stops >= old(session.stops)
    ensures cause != Kept && Trusted(setup, session.system, old(session.Look()),
            Reincarnation(ask, rounds, rebirth)) ==>
              Excused(session, setup, cause, old(session.mem.faults), old(session.stops))
  {
    hide Aligned, LongReminders, Session.SlotsAligned, Cache.Coherent, Turned, Excused, Served;
    var slot := session.slotSaved;
    var fed := session.BeginReincarnation(ask);
    legs := [];
    ghost var put := Now(session);
    if !fed {
      cause := Kept;
    } else if session.mem.hybrid && slot {
      cause := ForgottenSlot;
    } else {
      cause, legs := BeReborn(session, setup, rounds, rebirth);
      ExcusedLater(session, setup, cause, put.faults, put.stops, old(session.mem.faults), old(session.stops));
    }
    RebirthServed(setup, session.system, old(Now(session)), ask, put, rounds, rebirth, cause, legs, Now(session));
  }

  lemma RebirthServed(setup: Setup, system: Tokens, before: Moment, ask: Fed, put: Moment, rounds: seq<Round>,
      rebirth: Rebirth,
                      cause: Cause, legs: seq<Leg>, after: Moment)
    requires if legs == [] then
               && before.view.tracker <= after.view.tracker <= before.view.tracker + ask
                   && after.view.cps == before.view.cps
               && (cause == Kept ==> !Quiet(before, after))
             else
               && legs[0].start == put && Extended(before.(view := before.view.(interruptedIdx := -1)), ask, put)
               && Reborn(setup, system, rounds, rebirth, legs, cause, after)
    ensures Served(setup, system, before, Reincarnation(ask, rounds, rebirth), cause, legs, after)
  {
  }

  /** The turn that writes the new prompt, and the new session. */
  method BeReborn(session: Session, setup: Setup, rounds: seq<Round>, rebirth: Rebirth) returns (cause: Cause,
      ghost legs: seq<Leg>)
    requires session.Inv() && setup.Fits(session) && session.tracker != [] && session.interruptedIdx < 0
    modifies session, session.mem
    ensures cause == Kept <==> session.Inv()
    ensures legs != [] && legs[0].start == old(Now(session))
    ensures Reborn(setup, session.system, rounds, rebirth, legs, cause, Now(session))
    ensures session.mem.faults >= old(session.mem.faults) && session.stops >= old(session.stops)
    ensures cause != Kept && (rebirth.Follow? && session.mem.hybrid ==> rebirth.fits)
            && (session.mem.hybrid ==> LongReminders(rounds, session.mem.window) && old(session.NothingPending())) ==>
              Excused(session, setup, cause, old(session.mem.faults), old(session.stops))
  {
    hide Aligned, LongReminders, Session.SlotsAligned, Cache.Coherent, Turned;
    var exit, back;
    cause, exit, back, legs := Turn(session, setup, setup.Turns().(reincarnating := true), rounds);
    if cause == Kept && back {
      if !exit.EndOfGeneration? && !exit.TextBreak? {
        cause := ReturnToPrompt(session, exit == Interrupted || exit == TurnTimeout, false);
      } else if rebirth.Follow? {
        var empty := session.Look().BooksEmpty();
        var ok := session.Reincarnate(rebirth.prompt, rebirth.fits, rebirth.title);
        cause := if ok || empty then Kept else OldBooks;
      }
    }
  }
}
