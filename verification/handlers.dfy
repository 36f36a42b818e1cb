/** The watch handlers: the requests they return are those the model's watches add to the queue. */
module Handlers {
  import opened GoTypes
  import opened RolloutManagers
  import opened Cluster

  function Elements(requests: seq<Request>): set<Request> {
    set q | q in requests
  }

  lemma ElementsPush(requests: seq<Request>, q: Request)
    ensures Elements(requests + [q]) == Elements(requests) + {q}
  {
    forall x ensures x in Elements(requests + [q]) <==> x in Elements(requests) + {q} {
      assert x in requests + [q] <==> x in requests || x == q;
    }
  }

  /** What a List of all RolloutManagers returns: each of them, in some order, or an error. */
  predicate Lists(w: World, list: Result<seq<Request>, ApiError>) {
    list.Ok? ==> Elements(list.value) == w.rms.Keys
  }

  method EnqueueOtherRolloutManagersExceptObj(ghost w: World, list: Result<seq<Request>, ApiError>, obj: Request)
    returns (requests: seq<Request>)
    requires Lists(w, list)
    ensures Elements(requests) == Others(w, obj, list.Ok?)
    ensures list.Ok? ==> |requests| == |list.value| - multiset(list.value)[obj]
  {
    requests := [];
    if list.Err? {
      return;
    }
    for idx := 0 to |list.value|
      invariant Elements(requests) == Elements(list.value[..idx]) - {obj}
      invariant |requests| == idx - multiset(list.value[..idx])[obj]
    {
      assert list.value[..idx + 1] == list.value[..idx] + [list.value[idx]];
      var rm := list.value[idx];
      ElementsPush(list.value[..idx], rm);
      ElementsPush(requests, rm);
      if rm == obj {
        continue;
      }
      requests := requests + [rm];
    }
    assert list.value[..|list.value|] == list.value;
  }

  method EnqueueAllRolloutManagers(ghost w: World, list: Result<seq<Request>, ApiError>, k: Key, before: Option<Obj>,
                                   after: Option<Obj>)
    returns (requests: seq<Request>)
    requires Lists(w, list) && WakesEveryone(k) && before != after
    ensures Elements(requests) == Woken(w.rms.Keys, k, before, after, list.Ok?)
    ensures list.Ok? ==> requests == list.value
  {
    requests := [];
    if list.Err? {
      return;
    }
    for idx := 0 to |list.value|
      invariant requests == list.value[..idx]
    {
      assert list.value[..idx + 1] == list.value[..idx] + [list.value[idx]];
      requests := requests + [list.value[idx]];
    }
    assert list.value[..|list.value|] == list.value;
  }
}
