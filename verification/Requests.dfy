/** What requests of all kinds share: replies of remote calls and results of phases. */
module Requests {

  /** A call that reports an error may still have taken effect. */
  datatype CallReply = Accepted | Rejected(applied: bool)

  predicate TookEffect(r: CallReply) {
    r.Accepted? || r.applied
  }

  /** Any reply. */
  method Reply() returns (r: CallReply)
    ensures r.Accepted? || r.Rejected?
  {
    var accepted, applied: bool := *, *;
    return if accepted then Accepted else Rejected(applied);
  }

  /** What a phase returns: go on, stop and come back later, or stop with an error. */
  datatype Result = Next | Requeue | Error

  /** Always true; a fact guarded by it is used only where a proof mentions it. */
  predicate Unfold(k: nat) { true }

  /** The same, for what holds between phases. */
  predicate Enter(k: nat) { true }

  /** The same, for what was sent. */
  predicate Look(k: nat) { true }
}
