/** Status patches: a JSON merge patch of the difference between a snapshot and the object in
    memory (RFC 7396, section 2), and the decoding of the server's answer over that object. */
module StatusPatch {

  /** What became of a status patch. A conflict is reported to the caller as a success. */
  datatype PatchOutcome =
    | Applied
    | Swallowed
    | Failed(applied: bool)

  predicate Persists(o: PatchOutcome) {
    o.Applied? || (o.Failed? && o.applied)
  }

  /** Any outcome; nothing persists on an object that is gone. */
  method AnswerPatch(gone: bool) returns (o: PatchOutcome)
    ensures Persists(o) ==> !gone
  {
    var answer: PatchOutcome := *;
    return if gone && Persists(answer) then Failed(false) else answer;
  }

  /** A field the patch does not mention keeps the server's value; lists are replaced whole. */
  function MergeField<T(==)>(server: T, snapshot: T, memory: T): T {
    if snapshot == memory then server else memory
  }

  /** Absent (empty) fields of the answer leave the object in memory as it was. */
  function DecodeString(server: string, memory: string): string {
    if server != "" then server else memory
  }

  function DecodeFlag(server: bool, memory: bool): bool {
    server || memory
  }

  function DecodeList<T(==)>(server: seq<T>, memory: seq<T>): seq<T> {
    if server != [] then server else memory
  }
}
