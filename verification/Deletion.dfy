/** The deletion plan of a VirtualCluster (internal/controller/deletion.go). */
module Deletion {
  import opened Api
  import opened Lifecycle

  function NameIf(work: Option<Work>, name: string): seq<string> {
    if work.Some? then [name] else []
  }

  /** Blocked exactly when one of the Works is foreign, as the lifecycle's deletion round has it; otherwise the plan is the
      Instance Work and then the Foundation Work, as far as they exist. */
  method BuildDeletionPlan(instance: Option<Work>, instanceName: string, foundation: Option<Work>, foundationName: string, uid: string)
    returns (steps: seq<string>, blocked: bool)
    ensures blocked == Blocked(instance, foundation, uid)
    ensures !blocked ==> steps == NameIf(instance, instanceName) + NameIf(foundation, foundationName)
  {
    steps, blocked := [], false;
    var works := [(instance, instanceName), (foundation, foundationName)];
    for i := 0 to 2
      invariant forall j :: 0 <= j < i ==> works[j].0.Some? ==> uid != "" && works[j].0.value.Uid() == uid
      invariant steps == (if i == 0 then [] else if i == 1 then NameIf(instance, instanceName)
                          else NameIf(instance, instanceName) + NameIf(foundation, foundationName))
      invariant !blocked
    {
      var work := works[i].0;
      if work.Some? {
        if uid == "" || work.value.Uid() != uid {
          assert works[0].0 == instance && works[1].0 == foundation;
          return steps, true;
        }
        steps := steps + [works[i].1];
      }
    }
    assert works[0].0 == instance && works[1].0 == foundation;
  }
}
