/** What each call that is not a send or a receive does to the resource half. */
module TableCalls {
  import opened Sequences
  import opened KernelSteps
  import opened KernelInvariant
  import P = Processes
  import R = Resources
  import J = ResourceInvariant

  /** What a call that sends and receives nothing does to the table. */
  ghost predicate TableCall(t: R.Table, u: R.Table, pid: nat, e: Event) {
    R.WellLinked(t) && pid in t.files && (t.descPool != [] ==> t.ptrPool != []) && match e
      case OpenResource(id, rtype, mode) =>
        R.OpenDefined(t, pid, id, rtype, mode) && u == R.OpenResource(t, pid, id, rtype, mode).table
      case CloseResource(fd) => u == R.Close(t, pid, fd).table
      case DestroyResource(id) => u == R.Destroy(t, id).table
      case MqOpen(id, rtype, mode) =>
        R.MqOpenDefined(t, pid, id, rtype, mode) && u == R.MqOpen(t, pid, id, rtype, mode).table
      case MqClose(fd) => u == R.Close(t, pid, fd).table
      case MqUnlink(id) => R.UnlinkDefined(t, id) && u == R.MqUnlink(t, id).table
      case Exit(_) =>
        NoDup(t.files[pid].descs) && (u == t || u == R.FreeProcess(R.CloseAll(t, pid, t.files[pid].descs), pid))
      case Wait(_, _) => u == t || exists c :: u == R.FreeProcess(t, c)
      case Spawn(_, _) => exists c :: u == R.NewProcess(t, c)
      case Fork => exists c :: u == R.NewProcess(t, c)
      case _ => u == t
  }

  lemma HandleIsTableCall(s: State, e: Event)
    requires KernelInv(s) && !e.Tick? && !e.MqSend? && !e.MqReceive? && CallDefined(s.ps, s.rs, e)
    ensures TableCall(s.rs, Handle(s, e).rs, s.ps.running.value, e)
  {
    hide J.TableInv, P.Exit, P.Wait, P.Spawn, P.Schedule, P.Sleep, P.Return, P.Buried, P.Allocated;
    hide R.WellLinked, R.OpenResource, R.MqOpen, R.Close, R.Destroy, R.MqUnlink, R.CloseAll, NoDup, P.AwaitedIndex;
    InvHalves(s);
    J.InvLinked(s.rs);
  }
}
