// The multi-replica storage gate (replica_storage.go).
module Storage {
  import opened Cluster

  // Several pods may share the claim: one pod at most, or a claim every node can write,
  // or a claim every node can read that is mounted read-only.
  predicate Shareable(modes: seq<Mode>, replicas: int, readOnly: bool)
  {
    replicas <= 1 || ReadWriteMany in modes || (ReadOnlyMany in modes && readOnly)
  }

  method ValidateReplicaStorage(modes: seq<Mode>, replicas: int, readOnly: bool) returns (ok: bool)
    ensures ok <==> Shareable(modes, replicas, readOnly)
    ensures ok <==> replicas <= 1 || ReadWriteMany in modes || (ReadOnlyMany in modes && readOnly)
  {
    if replicas <= 1 {
      return true;
    }
    var hasRWX, hasROX := false, false;
    for i := 0 to |modes|
      invariant hasRWX <==> ReadWriteMany in modes[..i]
      invariant hasROX <==> ReadOnlyMany in modes[..i]
    {
      match modes[i]
      case ReadWriteMany => hasRWX := true;
      case ReadOnlyMany => hasROX := true;
      case _ =>
    }
    return hasRWX || (hasROX && readOnly);
  }
}
