/** The mapping from a changed BMCCluster to the machines to reconcile. */
module WakeUp {
  import opened Wrappers

  datatype ClusterMachine = ClusterMachine(namespace: string, infrastructureName: string)

  datatype Request = Request(namespace: string, name: string)

  /** How the lookups before the loop end. */
  datatype Listing = NotABMCCluster | OwnerMissing | OwnerLookupFailed | ListFailed | Listed(machines: seq<ClusterMachine>)

  /** The machines that name an infrastructure object, in order. */
  function Requests(ms: seq<ClusterMachine>): seq<Request> {
    if ms == [] then []
    else
      (if ms[0].infrastructureName != "" then [Request(ms[0].namespace, ms[0].infrastructureName)] else [])
      + Requests(ms[1..])
  }

  lemma {:induction false} RequestsAppend(xs: seq<ClusterMachine>, ys: seq<ClusterMachine>)
    ensures Requests(xs + ys) == Requests(xs) + Requests(ys)
  {
    if xs == [] {
      assert xs + ys == ys;
    } else {
      assert (xs + ys)[1..] == xs[1..] + ys;
      RequestsAppend(xs[1..], ys);
    }
  }

  /** Where each request comes from: positions in the list, strictly ascending and none left out. */
  predicate Traces(ms: seq<ClusterMachine>, rs: seq<Request>, at: seq<nat>) {
    && |at| == |rs|
    && (forall i :: 0 <= i < |at| ==> at[i] < |ms| && rs[i] == Request(ms[at[i]].namespace, ms[at[i]].infrastructureName))
    && (forall i, j :: 0 <= i < j < |at| ==> at[i] < at[j])
    && (forall n :: 0 <= n < |ms| ==> (ms[n].infrastructureName != "" <==> n in at))
  }

  lemma TraceSkips(ms: seq<ClusterMachine>, last: ClusterMachine, rs: seq<Request>, at: seq<nat>)
    requires Traces(ms, rs, at) && last.infrastructureName == ""
    ensures Traces(ms + [last], rs, at)
  {
    assert forall n :: n in at ==> n < |ms|;
  }

  lemma TraceTakes(ms: seq<ClusterMachine>, last: ClusterMachine, rs: seq<Request>, at: seq<nat>)
    requires Traces(ms, rs, at) && last.infrastructureName != ""
    ensures Traces(ms + [last], rs + [Request(last.namespace, last.infrastructureName)], at + [|ms|])
  {
    var more := at + [|ms|];
    assert forall n :: n in more <==> n in at || n == |ms|;
    assert forall n :: n in at ==> n < |ms|;
  }

  /** Exactly one request for every machine with an infrastructure name, in the order of the list, and no other. */
  lemma {:induction false} RequestsTraceTheList(ms: seq<ClusterMachine>) returns (at: seq<nat>)
    ensures Traces(ms, Requests(ms), at)
  {
    if ms == [] {
      at := [];
    } else {
      var n := |ms| - 1;
      var init, last := ms[..n], ms[n];
      at := RequestsTraceTheList(init);
      assert ms == init + [last];
      RequestsAppend(init, [last]);
      if last.infrastructureName == "" {
        assert Requests([last]) == [];
        TraceSkips(init, last, Requests(init), at);
      } else {
        assert Requests([last]) == [Request(last.namespace, last.infrastructureName)];
        TraceTakes(init, last, Requests(init), at);
        at := at + [n];
      }
    }
  }

  /** BMCClusterToBMCMachines; None is a nil slice. */
  method BMCClusterToBMCMachines(listing: Listing) returns (result: Option<seq<Request>>)
    ensures match listing
            case NotABMCCluster => result == None
            case OwnerMissing => result == Some([])
            case OwnerLookupFailed => result == Some([])
            case ListFailed => result == None
            case Listed(ms) => result == Some(Requests(ms))
  {
    if listing.NotABMCCluster? {
      return None;
    }
    if listing.OwnerMissing? || listing.OwnerLookupFailed? {
      return Some([]);
    }
    if listing.ListFailed? {
      return None;
    }
    var ms := listing.machines;
    var found: seq<Request> := [];
    for i := 0 to |ms|
      invariant found == Requests(ms[..i])
    {
      assert ms[..i + 1] == ms[..i] + [ms[i]];
      RequestsAppend(ms[..i], [ms[i]]);
      if ms[i].infrastructureName != "" {
        found := found + [Request(ms[i].namespace, ms[i].infrastructureName)];
      }
    }
    assert ms[..|ms|] == ms;
    result := Some(found);
  }
}
