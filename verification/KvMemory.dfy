/** The memory of one sequence of a hybrid (attention + recurrent) or pure
    attention model: the attention rows, the recurrent cell with its snapshot
    planes, and the stack of recurrent checkpoints.

    A recurrent state is represented by the token prefix it has consumed, so two
    states are identified only when they are the same computation.  Both caches
    always hold the same positions, so the last position is |attn| - 1. */
module KvMemory {
  type Token = int
  type Tokens = seq<Token>

  datatype Cache = Cache(
    hybrid: bool,        // false: plain attention cache, no recurrent state
    window: nat,         // n_rs_seq
    attn: Tokens,        // attention row p holds attn[p]
    planes: seq<Tokens>, // plane 0 is the newest state, plane d the d-th snapshot
    rsIdx: nat,          // plane the next decode reads; non-zero: pending roll-back
    rsRestored: bool,    // set by a checkpoint restore
    stack: seq<Tokens>)  // recurrent checkpoints, oldest first
  {
    ghost predicate Valid() {
      && |planes| == window + 1
      && rsIdx <= window
      && (attn == [] ==> rsIdx == 0)
    }

    /** The recurrent state the next decode continues from. */
    function Recurrent(): Tokens
      requires Valid()
    {
      if attn == [] then [] else planes[rsIdx]
    }

    /** The recurrent state matches the attention rows. */
    ghost predicate Coherent() {
      Valid() && (hybrid ==> Recurrent() == attn)
    }

    /** A pending roll-back has left the newest plane ahead of the attention rows,
        unless a checkpoint was restored into it. */
    ghost predicate PendingIsAhead() {
      Valid() && (hybrid && rsIdx > 0 ==> rsRestored || |planes[0]| > |attn|)
    }

    /** Coherent, with no roll-back pending and no restore flag left over: every
        later operation sees exactly the state of a session that decoded `attn`. */
    ghost predicate Settled() {
      Coherent() && (hybrid ==> rsIdx == 0 && !rsRestored)
    }

    /** Cutting the rows at p, after a restore of p's checkpoint or by the memory itself,
        gives the state of p: unless the distance fits the snapshot window and the snapshot
        for it is not p's. */
    predicate CutIsRight(p: int) {
      var d := |attn| - p;
      !hybrid || p <= 0 || d <= 0 || d > window || (d < |planes| && planes[d] == attn[..p])
    }

    /** Planes 0..d hold the states 0..d tokens back. */
    ghost predicate FreshTo(d: nat) {
      && Valid()
      && d <= window
      && d <= |attn|
      && rsIdx == 0
      && forall e {:trigger planes[e]} :: 0 <= e <= d ==> planes[e] == attn[..|attn| - e]
    }

    function Clear(): (c: Cache) {
      this.(attn := [], planes := seq(window + 1, _ => []), rsIdx := 0, rsRestored := false, stack := [])
    }

    /** llama_memory_seq_rm(mem, 0, p, -1): the recurrent cell decides first. */
    function SeqRm(p: nat): (r: (Cache, bool))
      requires Valid()
    {
      if p >= |attn| then (this, true)
      else if !hybrid then (this.(attn := attn[..p], rsIdx := if p == 0 then 0 else rsIdx), true)
      else if p == 0 then (this.(attn := [], rsIdx := 0), true)
      else
        var back := |attn| - p;
        if rsIdx == 0 && back <= window then (this.(attn := attn[..p], rsIdx := back), true)
        else if rsRestored then (this.(attn := attn[..p], rsIdx := 0, rsRestored := false), true)
        else (this, false)
    }

    /** llama_decode of a batch that starts at the next position. */
    function Decode(toks: Tokens): (c: Cache)
      requires Valid()
      ensures c.Valid() && c.attn == attn + toks
      ensures c.stack == stack && c.rsRestored == rsRestored && c.window == window && c.hybrid == hybrid
    {
      if toks == [] then this
      else
        var start := Recurrent();
        var n := |toks|;
        this.(
        attn := attn + toks,
        planes := seq(window + 1, d requires 0 <= d <= window => if d < n then start + toks[..n - d] else planes[d]),
        rsIdx := 0)
    }

    function Save(): (c: Cache)
      requires Valid()
    {
      if !hybrid || attn == [] then this else this.(stack := stack + [planes[0]])
    }

    function Overwrite(i: nat): (c: Cache)
      requires Valid()
    {
      if !hybrid || attn == [] || i >= |stack| then this else this.(stack := stack[i := planes[0]])
    }

    function Restore(i: nat): (c: Cache)
      requires Valid()
    {
      if !hybrid || attn == [] || i >= |stack| then this
      else this.(planes := planes[0 := stack[i]], rsIdx := 0, rsRestored := true)
    }

    /** Keep entries 0..k.  Resizing a shorter stack would grow it with blank
        entries; callers must not do that. */
    function Prune(k: nat): (c: Cache)
      requires hybrid ==> k < |stack|
    {
      if !hybrid then this else this.(stack := stack[..k + 1])
    }
  }

  /** What the logits of one decoded row depend on: the attention rows up to it
      and the recurrent state after it. */
  datatype Row = Row(attn: Tokens, recurrent: Tokens)

  /** The row of a memory that holds exactly `toks`. */
  function Exact(toks: Tokens): Row {
    Row(toks, toks)
  }

  /** The row of the newest token of a memory. */
  function LastRow(c: Cache): Row
    requires c.Valid()
  {
    Row(c.attn, if c.hybrid then c.Recurrent() else c.attn)
  }

  /** The last row of a decode of `toks` on top of `c`. */
  function RowAfter(c: Cache, toks: Tokens): Row
    requires c.Valid()
  {
    Row(c.attn + toks, (if c.hybrid then c.Recurrent() else c.attn) + toks)
  }

  function Min(a: nat, b: nat): nat {
    if a < b then a else b
  }

  // --- Decoding and rolling back ---------------------------------------------

  /** A decode refreshes exactly as many snapshots as it had tokens. */
  lemma DecodeRefreshes(c: Cache, toks: Tokens)
    requires c.Coherent() && toks != []
    ensures c.Decode(toks).Coherent()
    ensures c.Decode(toks).rsIdx == 0
    ensures c.hybrid ==> c.Decode(toks).FreshTo(Min(|toks| - 1, c.window))
  {
    var r := c.Decode(toks);
    if c.hybrid {
      assert c.attn + toks[..|toks|] == r.attn;
      forall e | 0 <= e <= Min(|toks| - 1, c.window)
        ensures r.planes[e] == r.attn[..|r.attn| - e]
      {
        assert c.attn + toks[..|toks| - e] == r.attn[..|r.attn| - e];
      }
    }
  }

  /** Two decodes in a row leave the same attention rows and the same live state
      as one decode of the concatenation: chunking does not matter. */
  lemma DecodeAppends(c: Cache, a: Tokens, b: Tokens)
    requires c.Valid()
    ensures c.Decode(a).Decode(b).attn == c.Decode(a + b).attn
    ensures c.Decode(a).Decode(b).Recurrent() == c.Decode(a + b).Recurrent()
  {
    if b == [] {
      assert a + b == a;
    } else if a == [] {
      assert a + b == b;
    } else {
      assert c.Recurrent() + a[..|a|] == c.Recurrent() + a;
      assert (a + b)[..|a| + |b|] == a + b[..|b|];
      assert c.Recurrent() + a + b[..|b|] == c.Recurrent() + (a + b)[..|a + b|];
      assert c.attn + a + b == c.attn + (a + b);
    }
  }

  /** The size of the next micro-batch of n tokens: the last `tail` tokens of a batch
      are never split. */
  function NextMicroBatch(n: nat, ubatch: nat, tail: nat): (k: nat)
    requires n > 0 && ubatch > tail
    ensures 0 < k <= n && k <= ubatch && (k < n ==> n - k >= tail)
  {
    if n <= ubatch then n else if n - ubatch < tail then n - tail else ubatch
  }

  /** llama_decode as it runs: one micro-batch after the other. */
  function DecodeInMicroBatches(c: Cache, toks: Tokens, ubatch: nat): (r: Cache)
    requires c.Valid() && ubatch > KeptTail(c.window)
    decreases |toks|
  {
    if toks == [] then c
    else
      var k := NextMicroBatch(|toks|, ubatch, KeptTail(c.window));
      DecodeInMicroBatches(c.Decode(toks[..k]), toks[k..], ubatch)
  }

  /** The tokens that must stay in one micro-batch for the snapshots' sake. */
  function KeptTail(window: nat): nat {
    if window > 0 then window + 1 else 0
  }

  /** Cutting a batch into micro-batches changes nothing: rows, live state and every
      snapshot are those of one decode of the whole batch. */
  lemma {:induction false} MicroBatchesAreOneDecode(c: Cache, toks: Tokens, ubatch: nat)
    requires c.Valid() && ubatch > KeptTail(c.window)
    ensures DecodeInMicroBatches(c, toks, ubatch) == c.Decode(toks)
    decreases |toks|
  {
    if toks != [] {
      var k := NextMicroBatch(|toks|, ubatch, KeptTail(c.window));
      MicroBatchesAreOneDecode(c.Decode(toks[..k]), toks[k..], ubatch);
      SplitKeepsSnapshots(c, toks[..k], toks[k..]);
      assert toks[..k] + toks[k..] == toks;
    }
  }

  /** A second decode that covers the whole snapshot window leaves nothing of the first
      one's snapshots. */
  lemma SplitKeepsSnapshots(c: Cache, a: Tokens, b: Tokens)
    requires c.Valid() && a != [] && (b == [] || |b| > c.window)
    ensures c.Decode(a).Decode(b) == c.Decode(a + b)
  {
    if b == [] {
      assert a + b == a;
    } else {
      DecodeAppends(c, a, b);
      var two, one := c.Decode(a).Decode(b), c.Decode(a + b);
      var start := c.Recurrent();
      assert start + a[..|a|] == start + a;
      forall d | 0 <= d <= c.window
        ensures two.planes[d] == one.planes[d]
      {
        assert start + a + b[..|b| - d] == start + (a + b)[..|a + b| - d];
      }
    }
  }

  /** When computing a micro-batch of n tokens fails, its positions are removed again but
      its snapshots were never written.  On a hybrid model the removal is accepted exactly
      if n fits the window, and then reads snapshot n, which was taken before those tokens
      existed; so a state that was just decoded is lost. */
  lemma FailedMicroBatch(c: Cache, toks: Tokens)
    requires c.hybrid && c.Settled() && c.attn != [] && toks != []
    ensures var r := c.(attn := c.attn + toks).SeqRm(|c.attn|);
            && (r.1 <==> |toks| <= c.window)
            && (r.1 ==> r.0.attn == c.attn && (r.0.Recurrent() == c.attn <==> c.planes[|toks|] == c.attn))
            && (r.1 && c.FreshTo(|toks|) ==> r.0.Recurrent() != c.attn)
  {
    assert (c.attn + toks)[..|c.attn|] == c.attn;
    if c.FreshTo(|toks|) {
      assert c.planes[|toks|] == c.attn[..|c.attn| - |toks|];
    }
  }

  /** Rolling back inside freshly decoded rows always succeeds and is exact. */
  lemma FreshRollback(c: Cache, d: nat)
    requires c.hybrid && c.FreshTo(d) && d < |c.attn|
    ensures c.SeqRm(|c.attn| - d).1
    ensures c.SeqRm(|c.attn| - d).0.Coherent()
    ensures c.SeqRm(|c.attn| - d).0.attn == c.attn[..|c.attn| - d]
    ensures c.SeqRm(|c.attn| - d).0.rsIdx == d
  {
    assert c.planes[d] == c.attn[..|c.attn| - d];
    assert c.attn[..|c.attn|] == c.attn;
  }

  /** Without a checkpoint, a settled hybrid cache accepts a roll-back exactly
      inside the window, and the result is coherent exactly when the snapshot for
      that distance is the right one. */
  lemma PlainRollbackExact(c: Cache, p: nat)
    requires c.hybrid && c.Settled() && 0 < p < |c.attn|
    ensures c.SeqRm(p).1 <==> |c.attn| - p <= c.window
    ensures c.SeqRm(p).1 ==>
              (c.SeqRm(p).0.Coherent() <==> c.planes[|c.attn| - p] == c.attn[..p])
    ensures !c.SeqRm(p).1 ==> c.SeqRm(p).0 == c
  {
  }

  /** A checkpoint restore followed by a roll-back always succeeds.  It leaves a
      coherent cache exactly when the distance lies outside the snapshot window
      (or is zero), or the snapshot it picks instead happens to be right; and it
      consumes the restore flag exactly when the distance lies outside. */
  lemma RestoredRollbackExact(c: Cache, i: nat, p: nat)
    requires c.hybrid && c.Valid() && i < |c.stack| && 0 < p <= |c.attn| && c.stack[i] == c.attn[..p]
    ensures c.Restore(i).SeqRm(p).1
    ensures var back := |c.attn| - p;
            c.Restore(i).SeqRm(p).0.Coherent() <==>
            (back == 0 || back > c.window || c.planes[back] == c.attn[..p])
    ensures c.Restore(i).SeqRm(p).0.Settled() <==> |c.attn| - p > c.window
  {
    if p == |c.attn| {
      assert c.attn[..p] == c.attn;
    }
  }

  /** The flag left over by a short-distance restore makes a later roll-back
      succeed with the wrong recurrent state: a four-token context, a one-token
      window, a restore to position 3, then a roll-back to position 1. */
  lemma StaleRestoreFlagAcceptsWrongState()
    ensures var c := Cache(true, 1, [7, 8, 9, 5], [[7, 8, 9, 5], [7, 8, 9]], 0, false, [[7, 8, 9]]);
            var r := c.Restore(0).SeqRm(3).0;
            && c.Settled() && r.Coherent() && r.SeqRm(1).1 && !r.SeqRm(1).0.Coherent()
  {
    var c := Cache(true, 1, [7, 8, 9, 5], [[7, 8, 9, 5], [7, 8, 9]], 0, false, [[7, 8, 9]]);
    var r := c.Restore(0).SeqRm(3).0;
    assert r == Cache(true, 1, [7, 8, 9], [[7, 8, 9], [7, 8, 9]], 1, true, [[7, 8, 9]]);
    assert r.SeqRm(1).0 == Cache(true, 1, [7], [[7, 8, 9], [7, 8, 9]], 0, false, [[7, 8, 9]]);
    assert |[7, 8, 9]| != |[7]|;
  }

  /** A saved checkpoint is the state of the attention rows exactly when no fresh
      roll-back is pending: the save reads plane 0, not the pending plane. */
  lemma SaveExactUnlessPending(c: Cache, d: nat)
    requires c.hybrid && c.FreshTo(d) && d < |c.attn|
    ensures var r := c.SeqRm(|c.attn| - d).0;
            r.Save().stack == r.stack + [r.attn] <==> r.rsIdx == 0
  {
    FreshRollback(c, d);
    var r := c.SeqRm(|c.attn| - d).0;
    assert c.planes[0] == c.attn[..|c.attn|] == c.attn;
    var saved := r.Save().stack;
    assert saved[|r.stack|] == c.attn;
    assert (r.stack + [r.attn])[|r.stack|] == r.attn;
  }

  /** A checkpoint brings back its own state: saved or overwritten at entry i, and restored
      after more tokens than the snapshot window holds, it gives the rows and the live state
      of the moment it was taken, with nothing pending and the entries up to it kept. */
  lemma CheckpointRoundTrip(c: Cache, i: nat, more: Tokens)
    requires c.hybrid && c.Settled() && c.attn != [] && i <= |c.stack| && |more| > c.window
    ensures var saved := if i == |c.stack| then c.Save() else c.Overwrite(i);
            var r := saved.Decode(more).Restore(i).Prune(i).SeqRm(|c.attn|);
            && r.1 && r.0.Settled() && r.0.attn == c.attn
            && r.0.stack == c.stack[..i] + [c.attn]
  {
    var saved := if i == |c.stack| then c.Save() else c.Overwrite(i);
    assert saved.stack[i] == c.attn;
    assert (c.attn + more)[..|c.attn|] == c.attn;
  }

  // --- The memory object -------------------------------------------------------

  /** Return classes of llama_decode, as handle_llama_decode_error reads them. */
  datatype DecodeCode = Success | InvalidBatch | Exhausted | Aborted | Fatal

  class Memory {
    const hybrid: bool
    const window: nat
    var attn: Tokens
    var planes: seq<Tokens>
    var rsIdx: nat
    var rsRestored: bool
    var stack: seq<Tokens>
    ghost var faults: nat         // decodes that did not succeed

    function State(): Cache
      reads this
    {
      Cache(hybrid, window, attn, planes, rsIdx, rsRestored, stack)
    }

    constructor (hybrid: bool, window: nat)
      ensures State() == Cache(hybrid, window, [], seq(window + 1, _ => []), 0, false, [])
      ensures State().Settled()
    {
      this.hybrid, this.window := hybrid, window;
      attn, planes, rsIdx, rsRestored, stack := [], seq(window + 1, _ => []), 0, false, [];
    }

    method Clear()
      modifies this`attn, this`planes, this`rsIdx, this`rsRestored, this`stack
      ensures State() == old(State()).Clear()
    {
      attn, planes := [], seq(window + 1, _ => []);
      rsIdx, rsRestored, stack := 0, false, [];
    }

    method SeqRm(p: nat) returns (ok: bool)
      requires State().Valid()
      modifies this`attn, this`rsIdx, this`rsRestored
      ensures (State(), ok) == old(State()).SeqRm(p)
      ensures State().Valid()
    {
      if p >= |attn| {
        return true;
      }
      if !hybrid || p == 0 {
        if p == 0 {
          rsIdx := 0;
        }
        attn := attn[..p];
        return true;
      }
      var back := |attn| - p;
      if rsIdx == 0 && back <= window {
        rsIdx := back;
      } else if rsRestored {
        rsIdx, rsRestored := 0, false;
      } else {
        return false;
      }
      attn := attn[..p];
      ok := true;
    }

    method Save()
      requires State().Valid()
      modifies this`stack
      ensures State() == old(State()).Save()
    {
      if hybrid && attn != [] {
        stack := stack + [planes[0]];
      }
    }

    method Overwrite(i: nat)
      requires State().Valid()
      modifies this`stack
      ensures State() == old(State()).Overwrite(i)
    {
      if hybrid && attn != [] && i < |stack| {
        stack := stack[i := planes[0]];
      }
    }

    method Restore(i: nat)
      requires State().Valid()
      modifies this`planes, this`rsIdx, this`rsRestored
      ensures State() == old(State()).Restore(i)
      ensures State().Valid()
    {
      if hybrid && attn != [] && i < |stack| {
        planes := planes[0 := stack[i]];
        rsIdx, rsRestored := 0, true;
      }
    }

    /** Loading a saved state: the memory is cleared, and attention rows and the newest
        recurrent state come from the file. */
    method LoadState(toks: Tokens)
      modifies this`attn, this`planes, this`rsIdx, this`rsRestored, this`stack
      ensures State() == Cache(hybrid, window, toks, seq(window + 1, _ => [])[0 := toks], 0, false, [])
      ensures State().Settled()
    {
      Clear();
      attn, planes := toks, planes[0 := toks];
    }

    method Prune(k: nat)
      requires hybrid ==> k < |stack|
      modifies this`stack
      ensures State() == old(State()).Prune(k)
    {
      if hybrid {
        stack := stack[..k + 1];
      }
    }

    /** One llama_decode.  A batch that does not start at the next position is
        rejected before any row is written, and so is one for which there is no room;
        otherwise the outcome is arbitrary: a success takes all rows, a failure keeps
        some prefix of them and is counted. */
    method Decode(toks: Tokens, start: int) returns (code: DecodeCode, ghost rows: nat)
      requires State().Valid()
      modifies this`attn, this`planes, this`rsIdx, this`faults
      ensures faults == old(faults) + (if code == Success then 0 else 1)
      ensures rows <= |toks| && State() == old(State()).Decode(toks[..rows])
      ensures code == Success ==> rows == |toks|
      ensures code == InvalidBatch || code == Exhausted ==> rows == 0
      ensures start != |old(attn)| || toks == [] ==> code == InvalidBatch
      ensures State().Valid()
    {
      if start != |attn| || toks == [] {
        faults := faults + 1;
        return InvalidBatch, 0;
      }
      code := *;
      var kept: nat :| kept <= |toks|;
      if code == Success {
        kept := |toks|;
      } else if code == InvalidBatch || code == Exhausted {
        kept := 0;
      }
      rows := kept;
      faults := faults + (if code == Success then 0 else 1);
      var after := State().Decode(toks[..kept]);
      attn, planes, rsIdx := after.attn, after.planes, after.rsIdx;
    }

    /** llama_memory_seq_pos_max + 1. */
    function Length(): nat
      reads this
    {
      |attn|
    }
  }
}
