/** The deletion of the checkpointed pod (controllers/checkpoint.go, controllers/utils/utils.go). */
module Termination {
  import opened Storage

  datatype WatchEvent = Added | Modified | Deleted | Failed

  /** What WaitForPodDeletion reports on the events up to the close of the watch. */
  function DeletionError(events: seq<WatchEvent>): Option<string> {
    if Deleted in events then None else Some("pod not found or already deleted")
  }

  /** WaitForPodDeletion: read watch events until one says Deleted or the channel is closed. */
  method WaitForPodDeletion(events: seq<WatchEvent>) returns (err: Option<string>)
    ensures err == DeletionError(events)
    ensures err.None? <==> Deleted in events
  {
    var next := 0;
    while true
      invariant 0 <= next <= |events|
      invariant Deleted !in events[..next]
      decreases |events| - next
    {
      if next == |events| {
        assert events[..next] == events;
        break;
      }
      if events[next] == Deleted {
        return None;
      }
      next := next + 1;
    }
    return Some("pod not found or already deleted");
  }

  function GetError(getOk: bool): Option<string> {
    if getOk then None else Some("unable to get pod")
  }

  function DeleteError(deleteOk: bool): Option<string> {
    if deleteOk then None else Some("unable to delete pod")
  }

  /** The error variable of TerminateCheckpointedPod after its calls: each call overwrites it. */
  function LastError(getOk: bool, deleteOk: bool, events: seq<WatchEvent>): Option<string> {
    var err := GetError(getOk);
    var err := DeleteError(deleteOk);
    var err := DeletionError(events);
    err
  }

  /** What it returns: the variable is logged, and the return statement ignores it. */
  function TerminationError(getOk: bool, deleteOk: bool, events: seq<WatchEvent>): (result: Option<string>)
    ensures result == None
  {
    var err := LastError(getOk, deleteOk, events);
    None
  }

  /** TerminateCheckpointedPod: every failure is logged and overwritten, so whatever the API server
      and the watch answer, no error comes back; the pod is gone if the deletion was accepted. */
  method TerminateCheckpointedPod(getOk: bool, deleteOk: bool, events: seq<WatchEvent>)
    returns (result: Option<string>, gone: bool)
    ensures result == TerminationError(getOk, deleteOk, events) == None
    ensures gone <==> deleteOk
  {
    var err := GetError(getOk);
    err := DeleteError(deleteOk);
    gone := err.None?;
    err := WaitForPodDeletion(events);
    assert err == LastError(getOk, deleteOk, events);
    result := None;
  }
}
