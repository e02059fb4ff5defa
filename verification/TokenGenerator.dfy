/** The speculative generation loop of token_generator.cc.

    A round drafts tokens d1..dk.  If the next sample is d1, all of them are decoded
    in one verify batch; each later sample is then taken from a row of that batch
    and compared with the next draft.  Until the round ends, the memory runs ahead
    of the tracker by the drafts that are not committed yet. */
module Generation {
  import opened KvMemory
  import opened PlainLoop
  import opened Model
  import opened ChatSession

  class TokenGenerator {
    const session: Session
    const env: Env
    const cfg: Config
    const draftLen: nat
    const hooked: bool            // on_tool_start is set
    var history: seq<Event>       // the state of the sampler chain
    var pieces: seq<Piece>        // generated_text_, token by token
    var thinkEogs: nat
    var count: nat                // t_count_
    var warned: bool
    var draft: Tokens             // spec_draft_
    var originPending: bool
    var inProgress: bool
    var bonusPending: bool
    var verifyPending: bool
    var roundComplete: bool
    var noFeed: bool
    var verifyRow: nat
    var verifyRows: nat
    var draftIdx: nat
    var committed: nat

    // --- Views and invariants ---------------------------------------------------

    /** Where a plain loop would be. */
    function At(): Position
      reads session`rows, this`history, this`pieces, this`thinkEogs, this`count, session`lastContext,
            this`warned, session`tracker
    {
      Position(session.tracker, history, pieces, thinkEogs, count, session.lastContext, warned, session.rows != [])
    }

    /** The row of the batch that the next iteration samples. */
    function SampledRow(): Row
      reads this`inProgress, this`verifyRow, session`rows
    {
      if inProgress && verifyRow < |session.rows| then session.rows[verifyRow] else LastOf(session.rows)
    }

    /** That row was computed from exactly the tracker. */
    ghost predicate OnTrack()
      reads this`inProgress, this`verifyRow, session`rows, session`tracker
    {
      session.rows != [] ==> SampledRow() == Exact(session.tracker)
    }

    /** The memory holds the tracker followed by the drafts from index `from` on,
        all freshly decoded, and every row from there on was computed from exactly
        the context it is meant for. */
    ghost predicate Ahead(from: nat)
      reads this`draft, session`rows, session`tracker, session`nPast, session.mem
    {
      && 1 <= from <= |draft| <= draftLen && |session.rows| == |draft|
      && session.mem.State().Valid() && session.mem.State().Coherent()
      && session.nPast == |session.tracker| && session.nBatch > 0
      && session.mem.attn == session.tracker + draft[from..]
      && (session.mem.hybrid ==> session.mem.State().FreshTo(|draft| - from))
      && (forall i :: from - 1 <= i < |session.rows| ==> session.rows[i] == Exact(session.tracker + draft[from..i + 1]))
    }

    /** Verify rows are being compared; drafts 0..verifyRow are committed. */
    ghost predicate Live()
      reads this`draft, session`rows, this`inProgress, this`originPending, this`bonusPending,
            this`roundComplete, this`verifyRow, this`verifyRows, this`draftIdx, this`committed, session`tracker,
            session`nPast, session.mem
    {
      && inProgress && !originPending && !bonusPending && !roundComplete
      && verifyRow == committed < verifyRows == |draft| - 1 && draftIdx == verifyRow + 2
      && Ahead(verifyRow + 1)
    }

    /** Nothing is decoded beyond the tracker. */
    ghost predicate Quiet()
      reads this`draft, session`rows, this`inProgress, this`originPending, this`bonusPending,
            this`roundComplete, session`tracker, session`nPast, session.mem
    {
      && !inProgress && !(originPending && bonusPending) && (roundComplete ==> bonusPending)
      && (originPending ==> 1 <= |draft| <= draftLen && session.rows != [])
      && session.Lockstep() && (originPending ==> session.Ready() && (session.mem.hybrid ==> session.mem.rsIdx == 0))
    }

    /** The state between two iterations. */
    ghost predicate Between()
      reads this`draft, session`rows, this`inProgress, this`originPending, this`bonusPending,
            this`roundComplete, this`noFeed, this`verifyPending, this`verifyRow, this`verifyRows, this`draftIdx,
            this`committed, session`tracker, session`nPast, session.mem
    {
      && !noFeed && !verifyPending && (session.mem.hybrid ==> draftLen <= session.mem.window)
      && (Live() || Quiet())
    }

    constructor (session: Session, env: Env, cfg: Config, draftLen: nat, hooked: bool)
      requires session.Lockstep()
      requires session.mem.hybrid ==> draftLen <= session.mem.window
      ensures Between() && this.session == session && this.env == env && this.cfg == cfg
      ensures this.draftLen == draftLen && this.hooked == hooked
      ensures RoundClosed() && draft == [] && verifyRow == verifyRows == draftIdx == committed == 0
      ensures At() == Position(session.tracker, [], [], 0, 0, session.lastContext, false, session.rows != [])
      ensures SampledRow() == LastOf(session.rows) && (OnTrack() <==> session.Ready())
    {
      this.session, this.env, this.cfg, this.draftLen, this.hooked := session, env, cfg, draftLen, hooked;
      history, pieces, thinkEogs, count, warned := [], [], 0, 0, false;
      draft := [];
      originPending, inProgress, bonusPending, verifyPending, roundComplete, noFeed := false, false, false, false,
          false, false;
      verifyRow, verifyRows, draftIdx, committed := 0, 0, 0, 0;
    }

    // --- Sampling -----------------------------------------------------------------

    /** While verify rows are compared, the row this iteration samples is the row of the whole
        tracker. */
    lemma VerifyRowIsExact()
      requires Between() && inProgress
      ensures session.rows != [] && OnTrack()
    {
      assert session.tracker + draft[verifyRow + 1..verifyRow + 1] == session.tracker;
    }

    /** One call on the sampler chain. */
    method Sample(row: Row) returns (token: Token)
      modifies this`history
      ensures token == env.sample(old(history), row) && history == old(history) + [Sampled(row)]
    {
      token := env.sample(history, row);
      history := history + [Sampled(row)];
    }

    /** Sample this iteration's row and deal with end-of-generation tokens: swallow
        one inside the thinking block, re-sample others. */
    method SampleNext() returns (token: Token, recovered: bool, ends: bool)
      requires Between() && session.rows != []
      modifies this`history, this`thinkEogs
      ensures Pick(token, recovered, ends, history, thinkEogs) == SampleRow(env, old(At()), SampledRow())
      ensures if ends then env.isEog(token) && token == env.sample(old(history), SampledRow())
              else
                && (recovered ==> !env.isEog(token))
                && (env.isEog(token) ==> env.inThinking(pieces))
                && exists j ::
                     && |old(history)| <= j < |history| && history[j] == Sampled(SampledRow())
                     && token == env.sample(history[..j], SampledRow())
                     && history[j + 1..] == if recovered then [Reset] else []
    {
      hide SampleRow;
      LastAnswer(env, At(), SampledRow());
      token, recovered, ends := SampleOrPoll();
    }

    method SampleOrPoll() returns (token: Token, recovered: bool, ends: bool)
      requires Between() && session.rows != []
      modifies this`history, this`thinkEogs
      ensures Pick(token, recovered, ends, history, thinkEogs) == SampleRow(env, old(At()), SampledRow())
    {
      var row := session.rows[if inProgress then verifyRow else |session.rows| - 1];
      token := Sample(row);
      recovered, ends := false, false;
      if env.isEog(token) {
        var swallow := false;
        if env.inThinking(pieces) {
          thinkEogs := thinkEogs + 1;
          swallow := thinkEogs <= env.maxPolls;
        } else {
          thinkEogs := 0;
        }
        if !swallow {
          var polled := Sample(row);
          if !env.isEog(polled) {
            token, recovered := polled, true;
          } else {
            recovered, polled := PollRow(row);
            token := if recovered then polled else token;
          }
          if recovered {
            history := history + [Reset];
          }
          ends := !recovered;
        }
      }
    }

    /** The polling loop. */
    method PollRow(row: Row) returns (found: bool, token: Token)
      modifies this`history
      ensures Polled(found, token, history) == Poll(env, old(history), row, env.maxPolls)
    {
      found, token := false, 0;
      var i := 0;
      while i < env.maxPolls && !found && !env.stop(history)
        invariant i <= env.maxPolls
        invariant !found ==> token == 0 && Poll(env, old(history), row, env.maxPolls) == Poll(env, history, row,
                env.maxPolls - i)
        invariant found ==> Poll(env, old(history), row, env.maxPolls) == Polled(true, token, history)
        decreases env.maxPolls - i
      {
        var polled := Sample(row);
        if !env.isEog(polled) {
          found, token := true, polled;
        }
        i := i + 1;
      }
    }

    // --- Comparing with the drafts --------------------------------------------------

    /** The token needs a decode of its own. */
    ghost predicate TakeDirect()
      reads this`inProgress, this`bonusPending, this`verifyPending, this`noFeed, session`tracker, session`nPast,
            session.mem
    {
      !noFeed && !verifyPending && !inProgress && !bonusPending && session.Lockstep()
    }

    /** The token replaces whatever was drafted: feed it normally. */
    ghost predicate TakeNormally()
      reads this`inProgress, this`originPending, this`bonusPending, this`verifyPending, this`noFeed,
            session`tracker, session`nPast, session.mem
    {
      TakeDirect() && !originPending
    }

    /** The token is d1: it will be decoded by the verify batch. */
    ghost predicate TakeOrigin(token: Token)
      reads this`draft, session`rows, this`inProgress, this`originPending, this`bonusPending,
            this`roundComplete, this`noFeed, this`verifyPending, this`verifyRow, this`verifyRows, this`draftIdx,
            this`committed, session`tracker, session`nPast, session.mem
    {
      && noFeed && verifyPending && inProgress && !bonusPending && !originPending && !roundComplete
      && 1 <= |draft| <= draftLen && draft[0] == token
      && verifyRow == committed == 0 && verifyRows == |draft| - 1 && draftIdx == 2
      && session.Lockstep() && session.Ready() && session.rows != [] && (session.mem.hybrid ==> session.mem.rsIdx == 0)
    }

    /** The token is the next draft: its cell is already there. */
    ghost predicate TakeDraft(token: Token)
      reads this`draft, session`rows, this`inProgress, this`originPending, this`bonusPending,
            this`roundComplete, this`noFeed, this`verifyPending, this`verifyRow, this`verifyRows, this`draftIdx,
            this`committed, session`tracker, session`nPast, session.mem
    {
      && noFeed && !verifyPending && !originPending && !roundComplete
      && 1 <= committed == verifyRow <= verifyRows == |draft| - 1 && draftIdx == committed + 2
      && draft[committed] == token && inProgress == (committed < verifyRows) && bonusPending == !inProgress
      && Ahead(committed)
    }

    /** Whatever roll-back is pending is older than this generation or dropped fewer rows than
        a round has drafts. */
    ghost predicate PendingBelow(before: nat)
      reads session.mem
    {
      session.mem.hybrid ==> session.mem.rsIdx < PlainLoop.Max(draftLen, 1) || session.mem.rsIdx == before
    }

    /** Roll the memory back to the tracker.  The distance never exceeds the drafts
        of one round minus d1, which the snapshot window covers, so the roll-back
        cannot fail and the fallback that re-decodes everything is never needed. */
    method DropUncommitted(ghost from: nat)
      requires Ahead(from) && (session.mem.hybrid ==> draftLen <= session.mem.window)
      modifies session.mem`attn, session.mem`rsIdx, session.mem`rsRestored
      ensures session.mem.rsRestored ==> old(session.mem.rsRestored)
      ensures session.Lockstep()
      ensures session.mem.hybrid && session.tracker != [] ==> session.mem.rsIdx == |draft| - from
      ensures PendingBelow(0)
    {
      ghost var before := session.mem.State();
      assert before.attn[..|session.tracker|] == session.tracker;
      if before.hybrid && session.tracker != [] {
        FreshRollback(before, |draft| - from);
      }
      var ok := session.mem.SeqRm(session.nPast);
      if !ok {
        assert false;
      }
    }

    /** Compare the sampled token with the draft for its position. */
    method Compare(token: Token)
      requires Between()
      modifies this`draft, this`inProgress, this`originPending, this`bonusPending, this`roundComplete,
               this`noFeed, this`verifyPending, this`verifyRow, this`verifyRows, this`draftIdx, this`committed,
               session.mem`attn, session.mem`rsIdx, session.mem`rsRestored
      ensures session.mem.rsRestored ==> old(session.mem.rsRestored)
      ensures TakeNormally() || TakeOrigin(token) || TakeDraft(token)
      ensures PendingBelow(old(session.mem.rsIdx))
    {
      if bonusPending {
        bonusPending, roundComplete := false, true;
      } else if originPending {
        CompareOrigin(token);
      } else if inProgress && verifyRow < verifyRows {
        CompareRow(token);
      }
    }

    method CompareAt(token: Token, ghost judged: Position)
      requires Between() && session.rows != [] && judged == At()
      modifies this`draft, this`inProgress, this`originPending, this`bonusPending, this`roundComplete,
               this`noFeed, this`verifyPending, this`verifyRow, this`verifyRows, this`draftIdx, this`committed,
               session.mem`attn, session.mem`rsIdx, session.mem`rsRestored
      ensures session.mem.rsRestored ==> old(session.mem.rsRestored)
      ensures TakeNormally() || TakeOrigin(token) || TakeDraft(token)
      ensures judged == At() && (session.mem.hybrid ==> draftLen <= session.mem.window)
      ensures PendingBelow(old(session.mem.rsIdx))
    {
      Compare(token);
    }

    method CompareOrigin(token: Token)
      requires Between() && originPending
      modifies this`draft, this`inProgress, this`originPending, this`noFeed, this`verifyPending, this`verifyRow,
               this`verifyRows, this`draftIdx, this`committed
      ensures TakeNormally() || TakeOrigin(token)
    {
      originPending := false;
      if token == draft[0] {
        noFeed, verifyPending, inProgress := true, true, true;
        verifyRow, verifyRows, committed, draftIdx := 0, |draft| - 1, 0, 2;
      } else {
        draft := [];
      }
    }

    method CompareRow(token: Token)
      requires Between() && Live()
      modifies this`draft, this`inProgress, this`bonusPending, this`noFeed, this`verifyRow, this`draftIdx,
               this`committed, session.mem`attn, session.mem`rsIdx, session.mem`rsRestored
      ensures session.mem.rsRestored ==> old(session.mem.rsRestored)
      ensures TakeNormally() || TakeDraft(token)
      ensures PendingBelow(old(session.mem.rsIdx))
      ensures noFeed <==> token == old(draft[draftIdx - 1])
      ensures noFeed ==> draft == old(draft) && committed == old(verifyRow) + 1
    {
      if token == draft[draftIdx - 1] {
        noFeed, committed := true, verifyRow + 1;
        verifyRow, draftIdx := verifyRow + 1, draftIdx + 1;
        if verifyRow >= verifyRows {
          inProgress, bonusPending := false, true;
        }
      } else {
        DropUncommitted(verifyRow + 1);
        inProgress, noFeed, verifyRow, draft := false, false, 0, [];
      }
    }

    // --- Decoding -----------------------------------------------------------------

    /** Decode one batch on top of the memory.  After a failure only the rows that
        reached the memory can be trusted. */
    method DecodeRows(toks: Tokens, start: int) returns (ok: bool, ghost written: nat)
      requires session.mem.State().Coherent() && toks != []
      modifies session`rows, session.mem`attn, session.mem`planes, session.mem`rsIdx, session.mem`faults
      ensures session.mem.faults >= old(session.mem.faults)
      ensures written <= |toks| && session.mem.State().Coherent()
      ensures old(session.mem.State()).PendingIsAhead() ==> session.mem.State().PendingIsAhead()
      ensures session.mem.attn == old(session.mem.attn) + toks[..written]
      ensures written == 0 ==> session.mem.State() == old(session.mem.State())
      ensures written > 0 ==> session.mem.rsIdx == 0
      ensures written > 0 && session.mem.hybrid ==> session.mem.State().FreshTo(Min(written - 1, session.mem.window))
      ensures ok ==> written == |toks|
      ensures start != |old(session.mem.attn)| ==> !ok && written == 0
      ensures forall d :: written <= d <= session.mem.window ==> session.mem.planes[d] == old(session.mem.planes)[d]
      ensures |session.rows| == |toks|
      ensures forall i :: 0 <= i < written ==> session.rows[i] == Exact(old(session.mem.attn) + toks[..i + 1])
      ensures !ok ==> session.mem.faults > old(session.mem.faults)
    {
      ghost var before := session.mem.State();
      var state := session.mem.State();
      ghost var code;
      ok, written, code := HandleDecode(session.mem, toks, start, true);
      assert toks[..|toks|] == toks;
      if written > 0 {
        DecodeRefreshes(before, toks[..written]);
      }
      var expected := seq(|toks|, i requires 0 <= i < |toks| => RowAfter(state, toks[..i + 1]));
      if ok {
        session.rows := expected;
      } else {
        assert |expected| == |toks|;
        var reached := session.mem.Length() - |state.attn|;
        var mixed :| |mixed| == |toks| && forall i :: 0 <= i < reached ==> mixed[i] == expected[i];
        session.rows := mixed;
      }
    }

    /** Feed one token: without a decode if a draft already put it in the memory. */
    method FeedToken(token: Token) returns (ok: bool)
      requires TakeDirect() || TakeOrigin(token) || TakeEnding(token) || TakeDraft(token)
      modifies session`rows, this`noFeed, session`tracker, session`nPast, session.mem`attn, session.mem`planes,
               session.mem`rsIdx, session.mem`faults
      ensures session.mem.faults >= old(session.mem.faults)
      ensures !noFeed && session.nPast == |session.tracker| && old(session.tracker) <= session.tracker
      ensures old(noFeed) ==>
                && ok && session.tracker == old(session.tracker) + [token]
                && session.mem.State() == old(session.mem.State()) && session.rows == old(session.rows)
      ensures !old(noFeed) ==> session.Lockstep()
      ensures !old(noFeed) && ok ==>
                && session.tracker == old(session.tracker) + [token] && session.rows == [Exact(session.tracker)]
                && session.mem.rsIdx == 0 && (session.mem.hybrid ==> session.mem.planes[0] == session.tracker)
      ensures !ok ==> session.mem.faults > old(session.mem.faults)
      ensures session.tracker <= old(session.tracker) + [token]
    {
      if noFeed {
        session.tracker := session.tracker + [token];
        session.nPast := session.nPast + 1;
        noFeed := false;
        return true;
      }
      ghost var written;
      session.tracker := session.tracker + [token];
      session.nPast := session.nPast + 1;
      ok, written := DecodeRows([token], session.nPast - 1);
      assert [token][..1] == [token] && [token][..0] == [];
      if !ok {
        session.nPast := session.mem.Length();
        if |session.tracker| > session.nPast {
          session.tracker := session.tracker[..session.nPast];
        }
      } else {
        assert session.rows == [session.rows[0]];
      }
    }

    /** An end-of-generation token that equals the next draft. */
    ghost predicate TakeEnding(token: Token)
      reads this`draft, session`rows, this`inProgress, this`originPending, this`bonusPending,
            this`roundComplete, this`noFeed, this`verifyPending, this`verifyRow, this`verifyRows, this`draftIdx,
            this`committed, session`tracker, session`nPast, session.mem
    {
      && noFeed && !verifyPending && !originPending && !roundComplete && !bonusPending && inProgress
      && 1 <= committed <= verifyRows == |draft| - 1 && draft[committed] == token && Ahead(committed)
    }

    /** Committing a matched draft, with tracker `t` before, moves one draft ahead. */
    lemma CommitDraft(t: Tokens, c: nat, token: Token)
      requires 1 <= c < |draft| <= draftLen && |session.rows| == |draft| && draft[c] == token
      requires session.tracker == t + [token] && session.nPast == |session.tracker| && session.nBatch > 0
      requires session.mem.State().Coherent() && session.mem.attn == t + draft[c..]
      requires session.mem.hybrid ==> session.mem.State().FreshTo(|draft| - c)
      requires forall i :: c - 1 <= i < |session.rows| ==> session.rows[i] == Exact(t + draft[c..i + 1])
      ensures Ahead(c + 1)
    {
      assert draft[c..] == [token] + draft[c + 1..];
      assert t + draft[c..] == session.tracker + draft[c + 1..];
      forall i | c <= i < |session.rows|
        ensures session.rows[i] == Exact(session.tracker + draft[c + 1..i + 1])
      {
        assert draft[c..i + 1] == [token] + draft[c + 1..i + 1];
        assert t + draft[c..i + 1] == session.tracker + draft[c + 1..i + 1];
      }
    }

    // --- After the feed ---------------------------------------------------------------

    /** d1 is in the tracker but not in the memory. */
    ghost predicate OwesOrigin()
      reads this`draft, this`inProgress, this`originPending, this`bonusPending, this`roundComplete, this`noFeed,
            this`verifyPending, this`verifyRow, this`verifyRows, this`draftIdx, this`committed, session`tracker,
            session`nPast, session.mem
    {
      && !noFeed && verifyPending && inProgress && !bonusPending && !originPending && !roundComplete
      && 1 <= |draft| <= draftLen && verifyRow == committed == 0 && verifyRows == |draft| - 1 && draftIdx == 2
      && session.mem.State().Coherent() && session.mem.State().PendingIsAhead()
      && session.nPast == |session.tracker| && session.nBatch > 0
      && session.tracker == session.mem.attn + [draft[0]]
    }

    ghost predicate RoundClosed()
      reads this`inProgress, this`originPending, this`bonusPending, this`roundComplete, this`noFeed, this`verifyPending
    {
      !inProgress && !originPending && !bonusPending && !roundComplete && !noFeed && !verifyPending
    }

    /** The next iteration samples the tracker's own row, no roll-back is pending, and unless
        verify rows are being compared a save would be exact. */
    ghost predicate Onward()
      reads this`inProgress, this`verifyRow, session`rows, session`tracker, session.mem
    {
      OnTrack() && (inProgress || Savable()) && (session.mem.hybrid ==> session.mem.rsIdx == 0)
    }

    /** The newest recurrent snapshot is the state of the tracker. */
    ghost predicate Savable()
      reads session`tracker, session.mem
    {
      session.mem.hybrid ==> |session.mem.planes| > 0 && session.mem.planes[0] == session.tracker
    }

    /** Decode the verify batch d1..dk. */
    method DecodeVerifyBatch() returns (ok: bool)
      requires OwesOrigin() && (session.mem.hybrid ==> draftLen <= session.mem.window)
      modifies session`rows, this`draft, this`inProgress, this`bonusPending, this`roundComplete,
               this`verifyPending, session`tracker, session`nPast, session.mem`attn, session.mem`planes,
               session.mem`rsIdx, session.mem`rsRestored, session.mem`faults
      ensures session.mem.faults >= old(session.mem.faults)
      ensures session.mem.rsRestored ==> old(session.mem.rsRestored)
      ensures ok ==> Between() && session.tracker == old(session.tracker) && session.rows != [] && Onward()
      ensures !ok ==> RoundClosed() && session.Lockstep()
      ensures !ok ==> session.tracker == old(session.tracker) || session.tracker == old(session.mem.attn)
      ensures !ok ==> session.mem.faults > old(session.mem.faults)
    {
      verifyPending := false;
      var k := |draft|;
      ghost var written;
      ghost var base := session.mem.attn;
      ok, written := DecodeRows(draft, session.nPast - 1);
      if !ok {
        AbandonVerify(base, written);
        return;
      }
      assert draft[..k] == draft;
      FirstDraftCommitted(base);
      if verifyRows == 0 {
        assert draft[1..] == [];
        inProgress, bonusPending, roundComplete := false, true, true;
      }
    }

    /** The decoded verify batch seen from behind its first draft. */
    lemma FirstDraftCommitted(base: Tokens)
      requires 1 <= |draft| <= draftLen && |session.rows| == |draft| && session.nBatch > 0
      requires session.tracker == base + [draft[0]] && session.nPast == |session.tracker|
      requires session.mem.State().Coherent() && session.mem.attn == base + draft
      requires session.mem.hybrid ==> draftLen <= session.mem.window && session.mem.State().FreshTo(Min(|draft| - 1, session.mem.window))
      requires forall i :: 0 <= i < |draft| ==> session.rows[i] == Exact(base + draft[..i + 1])
      ensures Ahead(1)
    {
      assert base + draft == session.tracker + draft[1..];
      forall i | 0 <= i < |session.rows|
        ensures session.rows[i] == Exact(session.tracker + draft[1..i + 1])
      {
        assert base + draft[..i + 1] == session.tracker + draft[1..i + 1];
      }
    }

    /** A failed verify batch: keep d1 if its row was written, else drop it. */
    method AbandonVerify(ghost base: Tokens, ghost written: nat)
      requires !noFeed && !originPending && !verifyPending && session.nBatch > 0
      requires 1 <= |draft| <= draftLen && written <= |draft| == |session.rows|
      requires session.mem.State().Coherent() && session.mem.State().PendingIsAhead()
      requires session.tracker == base + [draft[0]] && session.nPast == |session.tracker|
      requires session.mem.attn == base + draft[..written]
      requires session.mem.hybrid ==> draftLen <= session.mem.window
      requires written > 0 && session.mem.hybrid ==> session.mem.State().FreshTo(Min(written - 1, session.mem.window))
      modifies session`rows, this`draft, this`inProgress, this`bonusPending, this`roundComplete,
               session`tracker, session`nPast, session.mem`attn, session.mem`rsIdx, session.mem`rsRestored
      ensures session.mem.rsRestored ==> old(session.mem.rsRestored)
      ensures RoundClosed() && session.Lockstep()
      ensures session.tracker == if written > 0 then old(session.tracker) else base
    {
      ghost var before := session.mem.State();
      if written > 0 {
        assert before.attn[..|session.tracker|] == session.tracker;
        if before.hybrid {
          FreshRollback(before, written - 1);
        }
      }
      var ok := session.mem.SeqRm(session.nPast);
      if !ok {
        assert false;
      }
      if session.mem.Length() >= session.nPast {
        session.rows := session.rows[..1];
      } else {
        session.tracker := session.tracker[..|session.tracker| - 1];
        session.nPast := session.nPast - 1;
        session.rows := [];
      }
      inProgress, bonusPending, roundComplete, draft := false, false, false, [];
    }

    /** Post-feed advancement of the round. */
    method Advance() returns (ok: bool)
      requires OwesOrigin() || FedDraft() || FedNormally()
      requires session.mem.hybrid ==> draftLen <= session.mem.window
      modifies session`rows, this`draft, this`inProgress, this`originPending, this`bonusPending,
               this`roundComplete, this`verifyPending, session`tracker, session`nPast, session.mem`attn,
               session.mem`planes, session.mem`rsIdx, session.mem`rsRestored, session.mem`faults
      ensures session.mem.faults >= old(session.mem.faults)
      ensures session.mem.rsRestored ==> old(session.mem.rsRestored)
      ensures ok ==> Between() && session.tracker == old(session.tracker) && session.rows != [] && Onward()
      ensures !ok ==> RoundClosed() && session.Lockstep()
      ensures !ok ==> session.tracker == old(session.tracker) || session.tracker == old(session.mem.attn)
      ensures !ok ==> old(verifyPending)
      ensures !ok ==> session.mem.faults > old(session.mem.faults)
    {
      ok := true;
      if verifyPending {
        ok := DecodeVerifyBatch();
      } else if roundComplete {
        roundComplete := false;
      } else if !inProgress && !bonusPending && |session.rows| == 1 {
        var canDraft: bool := *;
        if canDraft {
          var drafts: Tokens :| |drafts| <= draftLen;
          if drafts != [] {
            draft, originPending := drafts, true;
          }
        }
      }
    }

    ghost predicate FedNormally()
      reads session`rows, this`inProgress, this`originPending, this`bonusPending, this`noFeed,
            this`verifyPending, session`tracker, session`nPast, session.mem
    {
      && !noFeed && !verifyPending && !inProgress && !bonusPending && !originPending
      && session.Lockstep() && session.rows == [Exact(session.tracker)] && Savable() && session.mem.rsIdx == 0
    }

    ghost predicate FedDraft()
      reads this`draft, session`rows, this`inProgress, this`originPending, this`bonusPending,
            this`roundComplete, this`noFeed, this`verifyPending, this`verifyRow, this`verifyRows, this`draftIdx,
            this`committed, session`tracker, session`nPast, session.mem
    {
      && !noFeed && !verifyPending && !originPending && !roundComplete
      && 1 <= committed == verifyRow <= verifyRows == |draft| - 1 && draftIdx == committed + 2
      && inProgress == (committed < verifyRows) && bonusPending == !inProgress
      && Ahead(committed + 1)
    }

    // --- Leaving the loop -------------------------------------------------------------

    /** Any state a break can leave.  `unfed` says that the token of the last
        iteration matched a draft but was not fed; `current` that, with no round left
        to settle, the batch's last row belongs to the tracker. */
    ghost predicate Broken(unfed: bool, current: bool)
      reads this`draft, session`rows, this`inProgress, this`originPending, this`bonusPending,
            this`roundComplete, this`noFeed, this`verifyPending, this`verifyRow, this`verifyRows, this`draftIdx,
            this`committed, session`tracker, session`nPast, session.mem
    {
      && session.nPast == |session.tracker| && session.nBatch > 0
      && (session.mem.hybrid ==> draftLen <= session.mem.window)
      && (if verifyPending then
            && inProgress && 1 <= |draft| <= draftLen && committed == 0 && verifyRows == |draft| - 1 && !bonusPending
                && session.rows != []
            && if unfed then session.Lockstep() else OwesOrigin()
          else if inProgress then
            && verifyRows == |draft| - 1 && committed <= verifyRows && !bonusPending
            && if unfed then 1 <= committed < verifyRows && Ahead(committed) else Ahead(committed + 1)
          else if unfed && bonusPending then
            |draft| > 1 && Ahead(|draft| - 1)
          else
            session.Lockstep() && (current ==> session.Ready()))
    }

    /** The token completed the last match of a round but was not fed: nothing will
        roll its cell back. */
    ghost predicate Stranded(unfed: bool)
      reads this`inProgress, this`bonusPending, this`verifyPending
    {
      unfed && !verifyPending && !inProgress && bonusPending
    }

    /** Verify rows were decoded that are not committed. */
    ghost predicate Uncommitted()
      reads this`inProgress, this`verifyPending, this`committed, this`verifyRows
    {
      !verifyPending && inProgress && committed < verifyRows
    }

    /** The post-loop cleanup: settle whatever round the break left.  Afterwards a roll-back is
        pending exactly if the break left verify rows uncommitted, or left one pending
        itself. */
    method Settle(ghost unfed: bool, ghost current: bool) returns (ok: bool, ghost written: nat)
      requires Broken(unfed, current)
      modifies session`rows, this`draft, this`inProgress, this`originPending, this`bonusPending,
               this`roundComplete, this`noFeed, this`verifyPending, this`verifyRow, this`draftIdx,
               this`committed, session`tracker, session`nPast, session.mem`attn, session.mem`planes,
               session.mem`rsIdx, session.mem`rsRestored, session.mem`faults
      ensures session.mem.faults >= old(session.mem.faults)
      ensures session.mem.rsRestored ==> old(session.mem.rsRestored)
      ensures RoundClosed()
      ensures ok ==> session.tracker == old(session.tracker) && (session.Lockstep() <==> !old(Stranded(unfed)))
      ensures ok && old(Stranded(unfed)) ==>
                session.nPast == |session.tracker| && session.mem.attn == session.tracker + [old(draft[|draft| - 1])]
      ensures ok && current && !unfed ==> session.Ready()
      ensures ok && old(session.rows) != [] ==> session.rows != []
      ensures ok && !old(inProgress) ==> session.rows == old(session.rows)
      ensures !ok ==> OwedOriginLost(old(session.mem.State()), old(session.tracker), written)
      ensures !ok ==> old(verifyPending) && !unfed
      ensures !ok ==> session.mem.faults > old(session.mem.faults)
      ensures ok && session.mem.hybrid && session.tracker != [] ==>
                session.mem.rsIdx ==
                  if old(Uncommitted()) then |old(draft)| - (if unfed then old(committed) else old(committed) + 1)
                  else if old(verifyPending) && !unfed then 0
                  else old(session.mem.rsIdx)
      ensures ok ==> PendingBelow(old(session.mem.rsIdx))
    {
      ok, written := true, 0;
      if verifyPending {
        ok, written := SettleOrigin(unfed);
      } else {
        SettleRows(unfed, current);
      }
      ForgetRound();
    }

    method ForgetRound()
      modifies this`draft, this`inProgress, this`originPending, this`bonusPending, this`roundComplete,
               this`noFeed, this`verifyPending, this`verifyRow, this`draftIdx, this`committed
      ensures RoundClosed()
    {
      verifyPending, inProgress, bonusPending, roundComplete, noFeed, originPending := false, false, false, false,
          false, false;
      verifyRow, committed, draftIdx, draft := 0, 0, 0, [];
    }

    /** Stale verify cells exist only while some verify rows are uncommitted. */
    method SettleRows(ghost unfed: bool, ghost current: bool)
      requires !verifyPending && Broken(unfed, current)
      modifies session`rows, session.mem`attn, session.mem`rsIdx, session.mem`rsRestored
      ensures session.mem.rsRestored ==> old(session.mem.rsRestored)
      ensures session.nPast == |session.tracker| && (session.Lockstep() <==> !Stranded(unfed))
      ensures Stranded(unfed) ==> session.mem.attn == session.tracker + [draft[|draft| - 1]]
      ensures current && !unfed ==> session.Ready()
      ensures session.rows == [] ==> old(session.rows) == []
      ensures !inProgress ==> session.rows == old(session.rows)
      ensures session.mem.hybrid && session.tracker != [] ==>
                session.mem.rsIdx ==
                  if Uncommitted() then |draft| - (if unfed then committed else committed + 1)
                      else old(session.mem.rsIdx)
      ensures PendingBelow(old(session.mem.rsIdx))
    {
      if inProgress {
        if committed < verifyRows {
          TruncateRound(unfed);
        } else {
          assert draft[committed + 1..] == [];
          assert session.tracker + draft[committed + 1..committed + 1] == session.tracker;
          assert session.tracker + [] == session.tracker;
        }
      } else if Stranded(unfed) {
        assert draft[|draft| - 1..] == [draft[|draft| - 1]];
      }
    }

    /** After a failed attempt to give d1 its cell, d1 is dropped.  The recurrent
        state is right unless the failed decode had written the row: the roll-back
        then takes the second snapshot, which a one-row decode does not refresh. */
    ghost predicate OwedOriginLost(before: Cache, tracker: Tokens, written: nat)
      reads session`tracker, session`nPast, session.mem
    {
      && session.InStep() && session.tracker == before.attn && |tracker| == |before.attn| + 1
          && session.tracker <= tracker
      && written <= 1 && before.Valid()
      && (session.Lockstep() <==>
          written == 0 || !before.hybrid || before.attn == [] || (before.window > 0 && before.planes[1] == before.attn))
    }

    /** The origin matched but the verify batch was never decoded. */
    method SettleOrigin(ghost unfed: bool) returns (ok: bool, ghost written: nat)
      requires verifyPending && Broken(unfed, false)
      modifies session`rows, this`draft, this`inProgress, session`tracker, session`nPast, session.mem`attn,
               session.mem`planes, session.mem`rsIdx, session.mem`rsRestored, session.mem`faults
      ensures session.mem.faults >= old(session.mem.faults)
      ensures session.mem.rsRestored ==> old(session.mem.rsRestored)
      ensures ok ==> session.Lockstep() && session.tracker == old(session.tracker)
      ensures ok && !unfed ==> session.rows == [Exact(session.tracker)]
      ensures unfed ==> ok && session.rows == old(session.rows)
      ensures !ok ==> OwedOriginLost(old(session.mem.State()), old(session.tracker), written)
      ensures !ok ==> session.mem.faults > old(session.mem.faults)
      ensures ok ==> session.mem.rsIdx == if unfed then old(session.mem.rsIdx) else 0
    {
      ok, written := true, 0;
      if session.nPast > session.mem.Length() {
        ok, written := DecodeRows([draft[0]], session.nPast - 1);
        assert [draft[0]][..1] == [draft[0]] && [draft[0]][..0] == [];
        if !ok {
          DropOrigin(written, old(session.mem.State()), old(session.tracker));
        } else {
          assert session.rows == [session.rows[0]];
        }
      }
      inProgress, draft := false, [];
    }

    method DropOrigin(ghost written: nat, ghost before: Cache, ghost tracker: Tokens)
      requires 1 <= |draft| <= draftLen && (session.mem.hybrid ==> draftLen <= session.mem.window)
      requires session.nPast == |session.tracker| && session.tracker == tracker == before.attn + [draft[0]]
              && session.nBatch > 0
      requires before.Coherent() && written <= 1 && session.mem.hybrid == before.hybrid
              && session.mem.window == before.window
      requires session.mem.State().Coherent() && session.mem.State().PendingIsAhead()
      requires session.mem.attn == before.attn + [draft[0]][..written]
      requires if written == 0 then session.mem.State() == before else session.mem.rsIdx == 0
      requires session.mem.window > 0 ==> session.mem.planes[1] == before.planes[1]
      modifies session`tracker, session`nPast, session.mem`attn, session.mem`rsIdx, session.mem`rsRestored
      ensures session.mem.rsRestored ==> old(session.mem.rsRestored)
      ensures OwedOriginLost(before, tracker, written)
    {
      session.nPast := session.nPast - 1;
      session.tracker := session.tracker[..|session.tracker| - 1];
      assert [draft[0]][..1] == [draft[0]] && [draft[0]][..0] == [];
      assert session.mem.attn[..|before.attn|] == before.attn;
      var ok := session.mem.SeqRm(session.nPast);
      if !ok {
        assert false;
      }
    }

    /** Verify rows were still uncommitted: roll back and shorten the batch. */
    method TruncateRound(ghost unfed: bool)
      requires Broken(unfed, false) && !verifyPending && inProgress && committed < verifyRows
      modifies session`rows, session.mem`attn, session.mem`rsIdx, session.mem`rsRestored
      ensures session.mem.rsRestored ==> old(session.mem.rsRestored)
      ensures session.Lockstep() && session.rows != []
      ensures !unfed ==> session.Ready()
      ensures session.mem.hybrid && session.tracker != [] ==>
              session.mem.rsIdx == |draft| - (if unfed then committed else committed + 1)
      ensures PendingBelow(0)
    {
      ghost var from := if unfed then committed else committed + 1;
      DropUncommitted(from);
      assert !unfed ==> session.tracker + draft[committed + 1..committed + 1] == session.tracker;
      session.rows := session.rows[..committed + 1];
    }

    // --- One iteration ------------------------------------------------------------------

    /** The checks at the top of the loop. */
    method TopOfLoop() returns (exit: Option)
      modifies session`lastContext, this`warned
      requires session.nPast == |session.tracker|
      ensures TopChecks(env, cfg, old(At())) == (if exit.Some? then Done(At(), exit.exit) else Next(At()))
      ensures exit == None ==> session.rows != []
      ensures exit != Some(DecodeFailed) && exit != Some(SettleFailed)
    {
      if env.stop(history) {
        return Some(Interrupted);
      }
      if cfg.canaryMax > 0 && count >= cfg.canaryMax {
        return Some(CanaryCap);
      }
      if cfg.canaryMax == 0 {
        if env.timeout(history) {
          return Some(TurnTimeout);
        }
        var line := cfg.nCtx * 9 / 10;
        var crossed := session.lastContext < line && session.nPast >= line;
        session.lastContext := session.nPast;
        if session.nPast >= line && !warned && !cfg.reincarnating {
          warned := true;
          if crossed {
            return Some(ContextCrossing);
          }
        }
        if session.nPast >= cfg.nCtx - 10 {
          return Some(ContextExhausted);
        }
      }
      exit := if session.rows == [] then Some(EmptyBatch) else None;
    }

    /** End the turn on an end-of-generation token: it is fed like any other, after
        the comparison that the break would skip. */
    method EndTurn(token: Token) returns (ok: bool)
      requires Between()
      modifies session`rows, this`draft, this`inProgress, this`bonusPending, this`noFeed, this`verifyRow,
               this`committed, session`tracker, session`nPast, session.mem`attn, session.mem`planes,
               session.mem`rsIdx, session.mem`rsRestored, session.mem`faults
      ensures session.mem.faults >= old(session.mem.faults)
      ensures session.mem.rsRestored ==> old(session.mem.rsRestored)
      ensures Broken(false, ok) && (ok ==> session.tracker == old(session.tracker) + [token] && session.rows != [])
      ensures !ok ==> Lost()
      ensures old(session.tracker) <= session.tracker
      ensures !ok ==> session.mem.faults > old(session.mem.faults)
      ensures session.tracker <= old(session.tracker) + [token]
      ensures ok ==> PendingBelow(0)
    {
      if inProgress && verifyRow < verifyRows {
        if token == draft[draftIdx - 1] {
          noFeed, committed := true, verifyRow + 1;
        } else {
          DropUncommitted(verifyRow + 1);
          inProgress, noFeed, verifyRow, draft := false, false, 0, [];
        }
      } else if bonusPending {
        bonusPending := false;
      }
      ok := Feed(token);
    }

    /** A failed feed leaves no round to settle. */
    ghost predicate Lost()
      reads this`inProgress, this`verifyPending, session`tracker, session`nPast, session.mem
    {
      !inProgress && !verifyPending && session.Lockstep()
    }

    /** The feed before a break. */
    method Feed(token: Token) returns (ok: bool)
      requires TakeDirect() || TakeOrigin(token) || TakeEnding(token) || TakeDraft(token)
      requires session.mem.hybrid ==> draftLen <= session.mem.window
      modifies session`rows, this`noFeed, session`tracker, session`nPast, session.mem`attn, session.mem`planes,
               session.mem`rsIdx, session.mem`faults
      ensures session.mem.faults >= old(session.mem.faults)
      ensures !noFeed && Broken(false, ok)
              && (ok ==> session.tracker == old(session.tracker) + [token] && session.rows != [])
      ensures !ok ==> Lost()
      ensures old(session.tracker) <= session.tracker
      ensures old(verifyPending) ==> ok && OwesOrigin()
      ensures old(noFeed) && !verifyPending ==> ok && Ahead(committed + 1)
      ensures !old(noFeed) && ok ==>
                session.Lockstep() && session.rows == [Exact(session.tracker)] && Savable() && session.mem.rsIdx == 0
      ensures !ok ==> session.mem.faults > old(session.mem.faults)
      ensures session.tracker <= old(session.tracker) + [token]
      ensures ok ==> PendingBelow(0)
    {
      hide Broken;
      ghost var from := committed;
      ok := FeedToken(token);
      if old(noFeed) && !verifyPending {
        CommitDraft(old(session.tracker), from, token);
        DraftFedIsBroken(ok);
      } else if !old(noFeed) {
        DirectFedIsBroken(ok);
      } else {
        OriginFedIsBroken(ok);
      }
    }

    lemma DraftFedIsBroken(ok: bool)
      requires !verifyPending && session.nPast == |session.tracker| && session.nBatch > 0
      requires session.mem.hybrid ==> draftLen <= session.mem.window
      requires 1 <= committed <= verifyRows == |draft| - 1 && Ahead(committed + 1)
      requires inProgress ==> !bonusPending
      requires !inProgress ==> committed == verifyRows
      ensures Broken(false, ok) && session.rows != []
    {
      if !inProgress {
        assert draft[committed + 1..] == [];
        assert session.tracker + [] == session.tracker;
        assert session.tracker + draft[committed + 1..committed + 1] == session.tracker;
      }
    }

    lemma DirectFedIsBroken(ok: bool)
      requires !verifyPending && !inProgress && session.Lockstep() && (ok ==> session.rows == [Exact(session.tracker)])
      requires session.mem.hybrid ==> draftLen <= session.mem.window
      ensures Broken(false, ok)
    {
    }

    lemma OriginFedIsBroken(ok: bool)
      requires verifyPending && OwesOrigin() && session.rows != []
      requires session.mem.hybrid ==> draftLen <= session.mem.window
      ensures Broken(false, ok)
    {
    }

    /** Feed the token and advance the round. */
    method CommitAndAdvance(token: Token) returns (ok: bool)
      requires TakeNormally() || TakeOrigin(token) || TakeDraft(token)
      requires session.mem.hybrid ==> draftLen <= session.mem.window
      modifies session`rows, this`draft, this`inProgress, this`originPending, this`bonusPending,
               this`roundComplete, this`noFeed, this`verifyPending, session`tracker, session`nPast,
               session.mem`attn, session.mem`planes, session.mem`rsIdx, session.mem`rsRestored,
               session.mem`faults
      ensures session.mem.faults >= old(session.mem.faults)
      ensures session.mem.rsRestored ==> old(session.mem.rsRestored)
      ensures ok ==> Between() && session.tracker == old(session.tracker) + [token] && session.rows != [] && Onward()
      ensures !ok ==> Broken(false, false) && Lost() && old(session.tracker) <= session.tracker
      ensures !ok ==> session.mem.faults > old(session.mem.faults)
      ensures session.tracker <= old(session.tracker) + [token]
    {
      ok := Feed(token);
      if ok {
        ok := Advance();
      }
    }

    /** The text so far ends in a nested thinking tag. */
    predicate TrippedWire()
      reads this`pieces
    {
      pieces != [] && env.verdict(pieces) == Tripwire
    }

    /** What a break leaves behind. */
    ghost predicate Left(exit: Exit, unfed: bool, current: bool, ready: bool)
      reads this, session`rows, session`lastContext, session`tracker, session`nPast, session.mem
    {
      && Broken(unfed, current) && exit != SettleFailed
      && (exit == DecodeFailed ==> Lost() && !unfed)
      && (ready && !current ==> exit == DecodeFailed || TrippedWire())
      && (unfed ==> TrippedWire())
      && (Stranded(unfed) ==> |draft| > 0 && draft[|draft| - 1] == pieces[|pieces| - 1].token)
    }

    /** A failed decode stopped the iteration on its way to `outcome`: the sampler's calls and
        the text are complete, and no token is committed that the plain loop would not. */
    ghost predicate CutShort(outcome: Outcome)
      reads this`history, this`pieces, session`tracker
    {
      session.tracker <= outcome.at.tracker && history == outcome.at.history && pieces == outcome.at.pieces
    }

    ghost predicate Running()
      reads this, session`rows, session`lastContext, session`tracker, session`nPast, session.mem
    {
      Between() && Onward() && session.rows != [] && session.tracker != []
    }

    /** One trip around the loop is one step of the plain loop. */
    method Iterate() returns (exit: Option, opens: bool, ghost unfed: bool, ghost current: bool)
      requires Between()
      modifies this, session`rows, session`lastContext, session`tracker, session`nPast, session.mem`attn,
               session.mem`planes, session.mem`rsIdx, session.mem`rsRestored, session.mem`faults
      ensures session.mem.faults >= old(session.mem.faults)
      ensures session.mem.rsRestored ==> old(session.mem.rsRestored)
      ensures old(session.tracker) <= session.tracker
      ensures exit == None ==> Running() && Step(env, cfg, old(At()), old(SampledRow())) == Next(At())
      ensures exit.Some? && verifyPending && !unfed ==> session.mem.attn == old(session.tracker)
      ensures exit.Some? ==> Left(exit.exit, unfed, current, old(OnTrack()) || session.tracker != old(session.tracker))
      ensures exit.Some? && exit.exit != DecodeFailed ==>
              Step(env, cfg, old(At()), old(SampledRow())) == Done(At(), exit.exit)
      ensures exit == Some(DecodeFailed) ==> session.mem.faults > old(session.mem.faults)
      ensures exit == None ==> opens == (env.verdict(pieces) == ToolOpened)
      ensures exit == Some(DecodeFailed) ==> CutShort(Step(env, cfg, old(At()), old(SampledRow())))
      ensures exit.Some? && exit.exit != DecodeFailed ==> PendingBelow(old(session.mem.rsIdx))
    {
      hide Broken, Take, TopChecks, Running, CutShort;
      exit := TopOfLoop();
      if exit.Some? {
        BreakAtTop();
        LeftAtTop(exit.exit);
        opens, unfed, current := false, false, OnTrack();
      } else {
        exit, opens, unfed, current := TakeToken();
      }
    }

    /** Sample, compare, judge and feed one token. */
    method TakeToken() returns (exit: Option, opens: bool, ghost unfed: bool, ghost current: bool)
      requires Between() && session.rows != []
      modifies this, session`rows, session`lastContext, session`tracker, session`nPast, session.mem`attn,
               session.mem`planes, session.mem`rsIdx, session.mem`rsRestored, session.mem`faults
      ensures session.mem.faults >= old(session.mem.faults)
      ensures session.mem.rsRestored ==> old(session.mem.rsRestored)
      ensures old(session.tracker) <= session.tracker
      ensures exit == None ==> Running() && Take(env, old(At()), old(SampledRow())) == Next(At())
      ensures exit.Some? && verifyPending && !unfed ==> session.mem.attn == old(session.tracker)
      ensures exit.Some? ==> Left(exit.exit, unfed, current, true)
      ensures exit.Some? && exit.exit != DecodeFailed ==>
              Take(env, old(At()), old(SampledRow())) == Done(At(), exit.exit)
      ensures exit == Some(DecodeFailed) ==> session.mem.faults > old(session.mem.faults)
      ensures exit == None ==> opens == (env.verdict(pieces) == ToolOpened)
      ensures exit == Some(DecodeFailed) ==> CutShort(Take(env, old(At()), old(SampledRow())))
      ensures exit.Some? && exit.exit != DecodeFailed ==> PendingBelow(old(session.mem.rsIdx))
    {
      hide Broken, Running, Judge, PendingBelow;
      ghost var start, row := At(), SampledRow();
      var token, recovered, ends := SampleNext();
      ghost var picked := start.(history := history, thinkEogs := thinkEogs);
      if ends {
        assert Take(env, start, row) == Done(Commit(picked, token), EndOfGeneration(env.inCall(picked.pieces)));
        exit, current := FinishTurn(token);
        opens, unfed := false, false;
      } else {
        ghost var judged := picked.(pieces := pieces + [Piece(token, recovered)]);
        assert Take(env, start, row) == Judge(env, judged, token);
        exit, opens, unfed, current := WeighToken(token, recovered, judged);
      }
    }

    method FinishTurn(token: Token) returns (exit: Option, ghost current: bool)
      requires Between() && session.rows != []
      modifies session`rows, this`draft, this`inProgress, this`bonusPending, this`noFeed, this`verifyRow,
               this`committed, session`tracker, session`nPast, session.mem`attn, session.mem`planes,
               session.mem`rsIdx, session.mem`rsRestored, session.mem`faults
      ensures session.mem.faults >= old(session.mem.faults)
      ensures session.mem.rsRestored ==> old(session.mem.rsRestored)
      ensures old(session.tracker) <= session.tracker
      ensures exit.Some? && Left(exit.exit, false, current, true)
      ensures exit.exit == EndOfGeneration(env.inCall(pieces)) || exit.exit == DecodeFailed
      ensures exit.exit.EndOfGeneration? ==> At() == Commit(old(At()), token)
      ensures exit == Some(DecodeFailed) ==> session.mem.faults > old(session.mem.faults)
      ensures exit == Some(DecodeFailed) ==> CutShort(Next(Commit(old(At()), token)))
      ensures exit.Some? && exit.exit != DecodeFailed ==> PendingBelow(old(session.mem.rsIdx))
    {
      var ok := EndTurn(token);
      exit, current := Some(if ok then EndOfGeneration(env.inCall(pieces)) else DecodeFailed), ok;
    }

    method WeighToken(token: Token, recovered: bool, ghost judged: Position)
      returns (exit: Option, opens: bool, ghost unfed: bool, ghost current: bool)
      requires Between() && session.rows != [] && judged == At().(pieces := pieces + [Piece(token, recovered)])
      modifies this, session`rows, session`lastContext, session`tracker, session`nPast, session.mem`attn,
               session.mem`planes, session.mem`rsIdx, session.mem`rsRestored, session.mem`faults
      ensures session.mem.faults >= old(session.mem.faults)
      ensures session.mem.rsRestored ==> old(session.mem.rsRestored)
      ensures old(session.tracker) <= session.tracker
      ensures exit == None ==> Running() && Judge(env, judged, token) == Next(At())
      ensures exit.Some? && verifyPending && !unfed ==> session.mem.attn == old(session.tracker)
      ensures exit.Some? ==> Left(exit.exit, unfed, current, true)
      ensures exit.Some? && exit.exit != DecodeFailed ==> Judge(env, judged, token) == Done(At(), exit.exit)
      ensures exit == Some(DecodeFailed) ==> session.mem.faults > old(session.mem.faults)
      ensures exit == None ==> opens == (env.verdict(pieces) == ToolOpened)
      ensures exit == Some(DecodeFailed) ==> CutShort(Judge(env, judged, token))
      ensures exit.Some? && exit.exit != DecodeFailed ==> PendingBelow(old(session.mem.rsIdx))
    {
      hide Broken, Running, Judge, Ahead;
      CompareAt(token, At());
      pieces := pieces + [Piece(token, recovered)];
      exit, opens, unfed, current := ActOnText(token);
    }

    /** A break between two iterations, or between a comparison and its feed, is one
        the cleanup can settle. */
    lemma BreakAtTop()
      requires Between()
      ensures Broken(false, OnTrack())
    {
    }

    lemma LeftAtTop(exit: Exit)
      requires Between() && exit != DecodeFailed && exit != SettleFailed
      ensures Left(exit, false, OnTrack(), OnTrack())
    {
    }

    lemma BreakBeforeFeed(token: Token, exit: Exit)
      requires TakeNormally() || TakeOrigin(token) || TakeDraft(token)
      requires session.mem.hybrid ==> draftLen <= session.mem.window
      requires TrippedWire() && pieces[|pieces| - 1].token == token && exit != SettleFailed && exit != DecodeFailed
      ensures Left(exit, noFeed, false, true)
    {
    }

    /** Follow the verdict on the text, then feed the token unless the wire tripped. */
    method ActOnText(token: Token) returns (exit: Option, opens: bool, ghost unfed: bool, ghost current: bool)
      requires TakeNormally() || TakeOrigin(token) || TakeDraft(token)
      requires pieces != [] && pieces[|pieces| - 1].token == token && session.rows != []
      requires session.mem.hybrid ==> draftLen <= session.mem.window
      modifies session`rows, this`draft, this`inProgress, this`originPending, this`bonusPending,
               this`roundComplete, this`noFeed, this`verifyPending, this`count, session`tracker, session`nPast,
               session.mem`attn, session.mem`planes, session.mem`rsIdx, session.mem`rsRestored,
               session.mem`faults
      ensures session.mem.faults >= old(session.mem.faults)
      ensures session.mem.rsRestored ==> old(session.mem.rsRestored)
      ensures old(session.tracker) <= session.tracker
      ensures exit == None ==> Running() && Judge(env, old(At()), token) == Next(At())
      ensures exit.Some? && verifyPending && !unfed ==> session.mem.attn == old(session.tracker)
      ensures exit.Some? ==> Left(exit.exit, unfed, current, true)
      ensures exit.Some? && exit.exit != DecodeFailed ==> Judge(env, old(At()), token) == Done(At(), exit.exit)
      ensures exit == Some(DecodeFailed) ==> session.mem.faults > old(session.mem.faults)
      ensures exit == None ==> opens == (env.verdict(pieces) == ToolOpened)
      ensures exit == Some(DecodeFailed) ==> CutShort(Judge(env, old(At()), token))
      ensures exit.Some? && exit.exit != DecodeFailed ==> PendingBelow(old(session.mem.rsIdx))
    {
      if env.verdict(pieces) == Tripwire {
        exit := Some(if env.stop(history) then Interrupted else TextBreak(Tripwire));
        opens, unfed, current := false, noFeed, false;
        BreakBeforeFeed(token, exit.exit);
      } else {
        exit, opens, current := CommitByVerdict(token);
        unfed := false;
      }
    }

    method CommitByVerdict(token: Token) returns (exit: Option, opens: bool, ghost current: bool)
      requires TakeNormally() || TakeOrigin(token) || TakeDraft(token)
      requires pieces != [] && env.verdict(pieces) != Tripwire
      requires session.mem.hybrid ==> draftLen <= session.mem.window
      modifies session`rows, this`draft, this`inProgress, this`originPending, this`bonusPending,
               this`roundComplete, this`noFeed, this`verifyPending, this`count, session`tracker, session`nPast,
               session.mem`attn, session.mem`planes, session.mem`rsIdx, session.mem`rsRestored,
               session.mem`faults
      ensures session.mem.faults >= old(session.mem.faults)
      ensures session.mem.rsRestored ==> old(session.mem.rsRestored)
      ensures old(session.tracker) <= session.tracker
      ensures exit == None ==> Running() && Judge(env, old(At()), token) == Next(At())
      ensures exit.Some? && verifyPending ==> session.mem.attn == old(session.tracker)
      ensures exit.Some? ==> Left(exit.exit, false, current, true)
      ensures exit.Some? && exit.exit != DecodeFailed ==> Judge(env, old(At()), token) == Done(At(), exit.exit)
      ensures opens == (env.verdict(pieces) == ToolOpened)
      ensures exit == Some(DecodeFailed) ==> session.mem.faults > old(session.mem.faults)
      ensures exit == Some(DecodeFailed) ==> CutShort(Judge(env, old(At()), token))
      ensures exit.Some? && exit.exit != DecodeFailed ==> PendingBelow(old(session.mem.rsIdx))
    {
      hide Broken, Running, TakeNormally, TakeOrigin, TakeDraft, PendingBelow;
      var verdict := env.verdict(pieces);
      opens := verdict == ToolOpened;
      if verdict == Continue || verdict == ToolOpened {
        exit, current := CountAndCommit(token);
      } else {
        exit, current := CommitAndBreak(token);
      }
    }

    /** The feed before the break of a finished or hopeless tool call. */
    method CommitAndBreak(token: Token) returns (exit: Option, ghost current: bool)
      requires TakeNormally() || TakeOrigin(token) || TakeDraft(token)
      requires session.mem.hybrid ==> draftLen <= session.mem.window
      modifies session`rows, this`noFeed, session`tracker, session`nPast, session.mem`attn, session.mem`planes,
               session.mem`rsIdx, session.mem`faults
      ensures session.mem.faults >= old(session.mem.faults)
      ensures old(session.tracker) <= session.tracker
      ensures verifyPending ==> session.mem.attn == old(session.tracker)
      ensures exit.Some? && Left(exit.exit, false, current, true)
      ensures exit.exit == TextBreak(env.verdict(pieces)) || exit.exit == DecodeFailed
      ensures exit.exit != DecodeFailed ==> At() == Commit(old(At()), token)
      ensures exit == Some(DecodeFailed) ==> session.mem.faults > old(session.mem.faults)
      ensures exit == Some(DecodeFailed) ==> CutShort(Next(Commit(old(At()), token)))
      ensures exit.Some? && exit.exit != DecodeFailed ==> PendingBelow(old(session.mem.rsIdx))
    {
      var ok := Feed(token);
      exit, current := Some(if ok then TextBreak(env.verdict(pieces)) else DecodeFailed), ok;
    }

    method CountAndCommit(token: Token) returns (exit: Option, ghost current: bool)
      requires TakeNormally() || TakeOrigin(token) || TakeDraft(token)
      requires session.mem.hybrid ==> draftLen <= session.mem.window
      modifies session`rows, this`draft, this`inProgress, this`originPending, this`bonusPending,
               this`roundComplete, this`noFeed, this`verifyPending, this`count, session`tracker, session`nPast,
               session.mem`attn, session.mem`planes, session.mem`rsIdx, session.mem`rsRestored,
               session.mem`faults
      ensures session.mem.faults >= old(session.mem.faults)
      ensures session.mem.rsRestored ==> old(session.mem.rsRestored)
      ensures old(session.tracker) <= session.tracker
      ensures exit == None || exit == Some(DecodeFailed)
      ensures exit == None ==> Running() && At() == Commit(old(At()), token).(count := old(count) + 1)
      ensures exit.Some? ==> Left(exit.exit, false, current, true)
      ensures exit == Some(DecodeFailed) ==> session.mem.faults > old(session.mem.faults)
      ensures exit == Some(DecodeFailed) ==> CutShort(Next(Commit(old(At()), token)))
    {
      count := count + 1;
      var ok := CommitAndAdvance(token);
      exit, current := if ok then None else Some(DecodeFailed), false;
    }

    // --- The whole generation ---------------------------------------------------------------

    /** Fire the FUNC_START hook: the recurrent state may be saved exactly when no
        verify row is uncommitted. */
    method FireHook(opens: bool)
      requires Running() && (hooked ==> session.SlotsAligned())
      modifies session`toolIdx, session`slotSaved, session`slotHasTarget, session`toolNPast, session.mem`stack
      ensures Running() && (old(session.SlotsAligned()) ==> session.SlotsAligned())
      ensures opens && hooked ==>
                && session.toolNPast == |session.tracker|
                && (session.slotHasTarget <==> session.mem.attn == session.tracker)
      ensures !(opens && hooked) ==> session.mem.stack == old(session.mem.stack) && session.Slot() == old(session.Slot())
      ensures old(session.SlotKnown()) ==> session.SlotKnown()
    {
      if !(opens && hooked) {
        return;
      }
      var lockstep := !(inProgress && committed < verifyRows);
      if inProgress {
        assert draft[verifyRow + 1..] != [];
        assert |session.mem.attn| > |session.tracker|;
      }
      session.OnToolStart(lockstep);
      StackIsNoRow(old(session.mem.State()));
    }

    /** The rounds do not look at the checkpoint stack. */
    lemma StackIsNoRow(before: Cache)
      requires session.mem.State() == before.(stack := session.mem.stack)
      ensures before.Valid() ==> session.mem.State().Valid()
      ensures before.Coherent() ==> session.mem.State().Coherent()
      ensures forall d: nat :: before.FreshTo(d) ==> session.mem.State().FreshTo(d)
    {
    }

    /** The generation loop: the tokens and the sampler calls of the plain loop,
        whatever the drafts are; the tracker and the memory in step on every exit
        but one; checkpoints and stack entries kept. */
    method Generate() returns (exit: Exit, ghost stranded: bool)
      requires Between()
      requires hooked ==> session.SlotsAligned()
      modifies this, session`rows, session`lastContext, session`tracker, session`nPast, session`toolIdx,
               session`slotSaved, session`slotHasTarget, session`toolNPast, session.mem`attn,
               session.mem`planes, session.mem`rsIdx, session.mem`rsRestored, session.mem`stack,
               session.mem`faults
      ensures session.mem.faults >= old(session.mem.faults)
      ensures session.mem.rsRestored ==> old(session.mem.rsRestored)
      ensures Ended(Run(env, cfg, old(At()), old(SampledRow())), exit, stranded, old(OnTrack())
              || session.tracker != old(session.tracker))
      ensures old(session.tracker) <= session.tracker
      ensures old(session.SlotsAligned()) ==> session.SlotsAligned()
      ensures old(session.CheckpointsOrdered()) ==> session.CheckpointsOrdered()
      ensures exit == DecodeFailed || exit == SettleFailed ==> session.mem.faults > old(session.mem.faults)
      ensures !hooked ==> session.mem.stack == old(session.mem.stack) && session.Slot() == old(session.Slot())
      ensures exit != DecodeFailed && exit != SettleFailed ==> PendingBelow(old(session.mem.rsIdx))
      ensures old(session.SlotKnown()) ==> session.SlotKnown()
    {
      hide Between, Running, Broken, Left, Ended, Step, OnTrack, CutShort;
      ghost var start, row := At(), SampledRow();
      ghost var aligned, ordered := session.SlotsAligned(), session.CheckpointsOrdered();
      exit, stranded := DecodeFailed, false;
      var running := true;
      while running
        invariant running ==> Between() && Run(env, cfg, start, row) == Run(env, cfg, At(), SampledRow())
        invariant running && (old(OnTrack()) || session.tracker != old(session.tracker)) ==> OnTrack()
        invariant !running ==>
                    Ended(Run(env, cfg, start, row), exit, stranded, old(OnTrack())
                        || session.tracker != old(session.tracker))
        invariant old(session.tracker) <= session.tracker
        invariant running && session.mem.hybrid ==>
                session.mem.rsIdx == 0 || session.mem.rsIdx == old(session.mem.rsIdx)
        invariant !running && exit != DecodeFailed && exit != SettleFailed ==> PendingBelow(old(session.mem.rsIdx))
        invariant old(session.SlotKnown()) ==> session.SlotKnown()
        invariant aligned ==> session.SlotsAligned()
        invariant ordered ==> session.CheckpointsOrdered()
        invariant session.mem.rsRestored ==> old(session.mem.rsRestored)
        invariant session.mem.faults >= old(session.mem.faults)
        invariant !hooked ==> session.mem.stack == old(session.mem.stack) && session.Slot() == old(session.Slot())
        invariant !running && (exit == DecodeFailed || exit == SettleFailed) ==>
                session.mem.faults > old(session.mem.faults)
        decreases running, if running then Remaining(cfg, At()) else 0
      {
        ghost var at, sampled, onTrack, tracker := At(), SampledRow(), OnTrack(), session.tracker;
        running, exit, stranded := Cycle();
        if running {
          RunUnfolds(at, sampled);
        } else {
          EndedInRun(at, sampled, exit, stranded, onTrack || session.tracker != tracker,
                     old(OnTrack()) || session.tracker != old(session.tracker));
        }
      }
    }

    lemma RunUnfolds(p: Position, row: Row)
      requires Step(env, cfg, p, row) == Next(At()) && OnTrack() && session.rows != []
      ensures Run(env, cfg, p, row) == Run(env, cfg, At(), SampledRow())
    {
      StepProgress(env, cfg, p, row);
    }

    lemma EndedWeaker(outcome: Outcome, exit: Exit, stranded: bool, nearly: bool, ready: bool)
      requires Ended(outcome, exit, stranded, nearly) && (ready ==> nearly)
      ensures Ended(outcome, exit, stranded, ready)
    {
    }

    /** How the last iteration ends is how the generation ends. */
    lemma EndedInRun(p: Position, row: Row, exit: Exit, stranded: bool, nearly: bool, ready: bool)
      requires Ended(Step(env, cfg, p, row), exit, stranded, nearly) && (ready ==> nearly)
      ensures Ended(Run(env, cfg, p, row), exit, stranded, ready)
    {
      var s := Step(env, cfg, p, row);
      if s.Next? {
        RunExtends(env, cfg, s.at, Exact(s.at.tracker));
      }
    }

    /** One iteration and the hook behind it. */
    method Cycle() returns (running: bool, exit: Exit, ghost stranded: bool)
      requires Between() && (hooked ==> session.SlotsAligned())
      modifies this, session`rows, session`lastContext, session`tracker, session`nPast, session`toolIdx,
               session`slotSaved, session`slotHasTarget, session`toolNPast, session.mem`attn,
               session.mem`planes, session.mem`rsIdx, session.mem`rsRestored, session.mem`stack,
               session.mem`faults
      ensures session.mem.faults >= old(session.mem.faults)
      ensures session.mem.rsRestored ==> old(session.mem.rsRestored)
      ensures running ==>
                && Between() && OnTrack() && session.rows != []
                    && Step(env, cfg, old(At()), old(SampledRow())) == Next(At())
                && Remaining(cfg, At()) < Remaining(cfg, old(At()))
      ensures !running ==>
                Ended(Step(env, cfg, old(At()), old(SampledRow())), exit, stranded, old(OnTrack())
                    || session.tracker != old(session.tracker))
      ensures old(session.tracker) <= session.tracker
      ensures old(session.SlotsAligned()) ==> session.SlotsAligned()
      ensures old(session.CheckpointsOrdered()) ==> session.CheckpointsOrdered()
      ensures !running && (exit == DecodeFailed || exit == SettleFailed) ==>
              session.mem.faults > old(session.mem.faults)
      ensures running && hooked && env.verdict(pieces) == ToolOpened ==>
                && session.toolNPast == |session.tracker|
                && (session.slotHasTarget <==> session.mem.attn == session.tracker)
      ensures !hooked ==> session.mem.stack == old(session.mem.stack) && session.Slot() == old(session.Slot())
      ensures !running && exit != DecodeFailed && exit != SettleFailed ==> PendingBelow(old(session.mem.rsIdx))
      ensures running && session.mem.hybrid ==> session.mem.rsIdx == 0
      ensures old(session.SlotKnown()) ==> session.SlotKnown()
    {
      hide Broken, Left, Ended, Step, CutShort;
      ghost var before, row := At(), SampledRow();
      var opens;
      running, opens, exit, stranded := IterateOrEnd();
      if running {
        StepProgress(env, cfg, before, row);
        FireHook(opens);
      }
    }

    /** One iteration, with the cleanup after its break. */
    method IterateOrEnd() returns (running: bool, opens: bool, exit: Exit, ghost stranded: bool)
      requires Between()
      modifies this, session`rows, session`lastContext, session`tracker, session`nPast, session.mem`attn,
               session.mem`planes, session.mem`rsIdx, session.mem`rsRestored, session.mem`faults
      ensures session.mem.faults >= old(session.mem.faults)
      ensures session.mem.rsRestored ==> old(session.mem.rsRestored)
      ensures running ==> Running() && Step(env, cfg, old(At()), old(SampledRow())) == Next(At())
      ensures !running ==>
                Ended(Step(env, cfg, old(At()), old(SampledRow())), exit, stranded, old(OnTrack())
                    || session.tracker != old(session.tracker))
      ensures old(session.tracker) <= session.tracker
      ensures old(session.SlotsAligned()) ==> session.SlotsAligned()
      ensures old(session.CheckpointsOrdered()) ==> session.CheckpointsOrdered()
      ensures !running && (exit == DecodeFailed || exit == SettleFailed) ==>
              session.mem.faults > old(session.mem.faults)
      ensures running ==> opens == (env.verdict(pieces) == ToolOpened)
      ensures !running && exit != DecodeFailed && exit != SettleFailed ==> PendingBelow(old(session.mem.rsIdx))
    {
      hide Between, Running, Broken, Left, Ended, Step, OnTrack, CutShort;
      ghost var unfed, current;
      var next;
      next, opens, unfed, current := Iterate();
      running, exit, stranded := next == None, Interrupted, false;
      if next.Some? {
        ghost var outcome := Step(env, cfg, old(At()), old(SampledRow()));
        ghost var ready := old(OnTrack()) || session.tracker != old(session.tracker);
        exit, stranded := CloseRound(next.exit, outcome, unfed, current, ready);
        EndedWeaker(outcome, exit, stranded, ready || exit != next.exit, old(OnTrack())
            || session.tracker != old(session.tracker));
      }
      session.KeepsAligned();
    }

    /** How a generation, or its last iteration, ends.  Unless a decode failed, the
        outcome is the plain loop's.  The memory holds exactly the tracker, and the
        batch's last row predicts what comes after it, unless the tripwire fired on
        the last match of a round: then the memory is one token ahead. */
    ghost predicate Ended(outcome: Outcome, exit: Exit, stranded: bool, ready: bool)
      reads this, session`rows, session`lastContext, session`tracker, session`nPast, session.mem
    {
      && (exit != DecodeFailed && exit != SettleFailed ==> outcome == Done(At(), exit))
      && (exit != SettleFailed ==> (session.Lockstep() <==> !stranded))
      && (exit == DecodeFailed || exit == SettleFailed ==>
            && session.tracker <= outcome.at.tracker && history <= outcome.at.history && pieces <= outcome.at.pieces)
      && (stranded ==>
            && draftLen > 1 && TrippedWire() && session.nPast == |session.tracker|
            && session.mem.attn == session.tracker + [pieces[|pieces| - 1].token])
      && (ready && exit != DecodeFailed && exit != SettleFailed && !TrippedWire() ==> session.Ready())
      && (exit == SettleFailed ==> session.InStep())
    }

    /** So every token a generation has added to the tracker, however it ended and whatever was
        drafted, is what the sampler said about exactly the tokens in front of it; it is an
        end-of-generation token only inside the thinking block or at the end of a turn. */
    lemma EndedSays(p: Position, row: Row, exit: Exit, stranded: bool, ready: bool, i: nat)
      requires Ended(Run(env, cfg, p, row), exit, stranded, ready) && |p.tracker| <= i < |session.tracker|
      ensures var o := Run(env, cfg, p, row);
              && p.tracker <= o.at.tracker && i < |o.at.tracker| && session.tracker[i] == o.at.tracker[i]
              && (exit.EndOfGeneration? && i == |session.tracker| - 1 ==> env.isEog(session.tracker[i]))
              && (exit != DecodeFailed && exit != SettleFailed
                  && !(exit.EndOfGeneration? && i == |session.tracker| - 1) ==>
                    var k := |p.pieces| + i - |p.tracker|;
                    && k < |pieces| && session.tracker[i] == pieces[k].token
                    && (pieces[k].recovered ==> !env.isEog(session.tracker[i]))
                    && (env.isEog(session.tracker[i]) ==> env.inThinking(pieces[..k]))
                    && exists j ::
                         && |p.history| <= j < |history| && history[j] == Sampled(RowFor(p, row, session.tracker, i))
                         && session.tracker[i] == env.sample(history[..j], RowFor(p, row, session.tracker, i)))
    {
      RunExtends(env, cfg, p, row);
      RunSays(env, cfg, p, row, i);
      hide Run, RowFor;
    }

    /** The post-loop cleanup, and what it makes of the exit. */
    method CloseRound(left: Exit, ghost outcome: Outcome, ghost unfed: bool, ghost current: bool, ghost ready: bool)
      returns (exit: Exit, ghost stranded: bool)
      requires Left(left, unfed, current, ready)
      requires if left == DecodeFailed then CutShort(outcome) else outcome == Done(At(), left)
      modifies session`rows, this`draft, this`inProgress, this`originPending, this`bonusPending,
               this`roundComplete, this`noFeed, this`verifyPending, this`verifyRow, this`draftIdx,
               this`committed, session`tracker, session`nPast, session.mem`attn, session.mem`planes,
               session.mem`rsIdx, session.mem`rsRestored, session.mem`faults
      ensures session.mem.faults >= old(session.mem.faults)
      ensures session.mem.rsRestored ==> old(session.mem.rsRestored)
      ensures exit == left || exit == SettleFailed
      ensures exit == left ==> session.tracker == old(session.tracker)
      ensures Ended(outcome, exit, stranded, ready || exit != left)
      ensures exit == SettleFailed ==>
                old(verifyPending) && !unfed && session.tracker == old(session.mem.attn)
      ensures exit == SettleFailed ==> session.mem.faults > old(session.mem.faults)
      ensures exit != DecodeFailed && exit != SettleFailed ==> PendingBelow(old(session.mem.rsIdx))
    {
      stranded := Stranded(unfed);
      ghost var written;
      var ok;
      ok, written := Settle(unfed, current);
      exit := if ok then left else SettleFailed;
      if !ok {
        stranded := false;
      }
    }
  }

  datatype Option = None | Some(exit: Exit)
}
