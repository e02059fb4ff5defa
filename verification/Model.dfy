/** The decode wrapper of model.cc. */
module Model {
  import opened KvMemory

  /** handle_llama_decode_error: run one decode and classify its return code.  With
      `shouldBreak` false an exhausted or aborted decode is reported as a success,
      so the caller must compare positions itself. */
  method HandleDecode(mem: Memory, batch: Tokens, start: int, shouldBreak: bool)
    returns (ok: bool, ghost rows: nat, ghost code: DecodeCode)
    requires mem.State().Valid()
    modifies mem`attn, mem`planes, mem`rsIdx, mem`faults
    ensures mem.faults >= old(mem.faults) && (!ok || rows < |batch| ==> mem.faults > old(mem.faults))
    ensures rows <= |batch| && mem.State() == old(mem.State()).Decode(batch[..rows])
    ensures mem.State().Valid()
    ensures ok && shouldBreak ==> rows == |batch|
    ensures ok <==> code == Success || (!shouldBreak && (code == Exhausted || code == Aborted))
    ensures code == Success <==> mem.faults == old(mem.faults)
    ensures code == Success ==> rows == |batch|
    ensures start != old(mem.Length()) || batch == [] ==> code == InvalidBatch
    ensures code == InvalidBatch || code == Exhausted ==> rows == 0
  {
    var returned;
    returned, rows := mem.Decode(batch, start);
    code := returned;
    match returned {
      case Success => ok := true;
      case Fatal => ok := false;
      case InvalidBatch => ok := false;
      case Exhausted => ok := !shouldBreak;
      case Aborted => ok := !shouldBreak;
    }
  }
}
