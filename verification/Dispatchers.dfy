/** The in-memory dispatcher of minos/dispatch/fakedispatch/fakedispatch.go: one namespace of named pods. */
module Dispatchers {
  import opened Tasks
  import opened ArgusRules

  class Dispatcher {
    var pods: map<PodName, Phase>
    var spawnError: bool

    constructor ()
      ensures pods == map[] && !spawnError
    {
      pods := map[];
      spawnError := false;
    }

    /** A new pod is Pending; a name in use, or an injected error, refuses the spawn. */
    method SpawnPod(name: PodName) returns (ok: bool)
      modifies this`pods
      ensures ok <==> !spawnError && name !in old(pods)
      ensures pods == if ok then old(pods)[name := PhasePending] else old(pods)
    {
      if spawnError || name in pods {
        return false;
      }
      pods := pods[name := PhasePending];
      return true;
    }

    method DeletePod(name: PodName) returns (found: bool)
      modifies this`pods
      ensures found <==> name in old(pods)
      ensures pods == old(pods) - {name}
    {
      found := name in pods;
      if found {
        pods := map p | p in pods && p != name :: pods[p];
      }
    }

    method PodPhase(name: PodName) returns (a: Answer)
      ensures a == if name in pods then Seen(pods[name]) else NoSuchPod
    {
      a := if name in pods then Seen(pods[name]) else NoSuchPod;
    }
  }
}
