/** The guard before a delete: the wait for Gateways to go, the findings that let a
    delete pass, and the order of finding and deletion. */
module GatewayGuards {
  import opened Kube
  import opened Environment
  import opened Histories

  /** A poll for remaining Gateways. */
  datatype Poll = Empty | Remaining | Unreachable

  datatype WaitResult = Drained | StillDeleting | GaveUp

  /** The result of polling until the deadline: drained as soon as a poll finds
      nothing, still deleting if the last poll could see Gateways. */
  function WaitVerdict(polls: seq<Poll>): WaitResult {
    if Empty in polls then Drained
    else if polls != [] && polls[|polls| - 1] == Unreachable then GaveUp
    else StillDeleting
  }

  /** What poll i of a history saw. */
  function PollOf(steps: seq<Step>, i: nat): Poll
    requires i < |steps|
  {
    if !steps[i].outcome.Answered? then Unreachable
    else if Met(steps, i).shoot.gateways == map[] then Empty
    else Remaining
  }

  /** The calls added are polls, and this is what they saw. */
  ghost predicate ArePolls(before: seq<Step>, after: seq<Step>, polls: seq<Poll>) {
    && before <= after && |after| == |before| + |polls|
    && forall i :: |before| <= i < |after| ==> after[i].call == PollGateways && polls[i - |before|] == PollOf(after, i)
  }

  lemma PollsAppend(before: seq<Step>, mid: seq<Step>, after: seq<Step>, polls: seq<Poll>, poll: Poll)
    requires ArePolls(before, mid, polls) && mid <= after && |after| == |mid| + 1
    requires after[|mid|].call == PollGateways && poll == PollOf(after, |mid|)
    ensures ArePolls(before, after, polls + [poll])
  {
    PollsLonger(mid, after);
    forall i | |before| <= i < |after|
      ensures after[i].call == PollGateways && (polls + [poll])[i - |before|] == PollOf(after, i)
    {
      assert i < |mid| ==> after[i] == mid[i];
    }
  }

  lemma PollsLonger(steps: seq<Step>, more: seq<Step>)
    requires steps <= more
    ensures forall i :: 0 <= i < |steps| ==> PollOf(more, i) == PollOf(steps, i)
  {
    forall i | 0 <= i < |steps|
      ensures PollOf(more, i) == PollOf(steps, i)
    {
    }
  }

  /** The wait ended with Gateways in sight, or had no time to look. */
  ghost predicate StillRemain(before: seq<Step>, after: seq<Step>, deadline: nat) {
    deadline == 0 ||
    (|after| > |before| && after[|after| - 1].call == PollGateways && PollOf(after, |after| - 1) == Remaining)
  }

  /** The Gateway is gone or on its way out. */
  predicate Doomed(w: World, k: Key) {
    k !in w.shoot.gateways || k in w.terminating
  }

  ghost predicate SawDoomed(n: nat, steps: seq<Step>, k: Key) {
    exists z :: n <= z < |steps| && (Doomed(Met(steps, z), k) || Doomed(Left(steps, z), k))
  }

  /** The calls added ask Gateways of the given set to go. */
  ghost predicate AsksOnly(before: seq<Step>, after: seq<Step>, asked: set<Key>) {
    before <= after && forall x :: |before| <= x < |after| ==> after[x].call.DeleteGateway? && after[x].call.gateway in asked
  }

  /** A listing, then a request to every Gateway it found staying. */
  lemma AllDoomed(before: seq<Step>, listing: seq<Step>, after: seq<Step>, staying: set<Key>)
    requires before <= listing && |listing| == |before| + 1 && listing[|before|].call == ListGateways
    requires AsksOnly(listing, after, staying)
    requires forall k :: k !in staying ==> Doomed(Left(listing, |before|), k)
    ensures Within(before, after, {Gateways})
    ensures (forall k :: k in staying ==> SawDoomed(|listing|, after, k)) ==> forall k :: SawDoomed(|before|, after, k)
  {
    assert Left(after, |before|) == Left(listing, |before|);
    forall x | |before| <= x < |after|
      ensures Stays(after[x], {Gateways})
    {
      assert x == |before| ==> after[x] == listing[x];
    }
  }

  /** Every Gateway was seen gone or on its way out, unless a call was not answered. */
  ghost predicate Asked(before: seq<Step>, after: seq<Step>) {
    Unanswered(before, after) || forall k :: SawDoomed(|before|, after, k)
  }

  lemma AskedLonger(a: seq<Step>, b: seq<Step>, c: seq<Step>, d: seq<Step>)
    requires a <= b <= c <= d && Asked(b, c)
    ensures Asked(a, d)
  {
    if Unanswered(b, c) {
      UnansweredLonger(a, b, c, d);
    } else {
      SawDoomedLonger(|b|, c, d);
      forall k
        ensures SawDoomed(|a|, d, k)
      {
        assert SawDoomed(|b|, d, k);
      }
    }
  }

  lemma SawDoomedLonger(n: nat, steps: seq<Step>, more: seq<Step>)
    requires steps <= more
    ensures forall k :: SawDoomed(n, steps, k) ==> SawDoomed(n, more, k)
  {
    forall k | SawDoomed(n, steps, k)
      ensures SawDoomed(n, more, k)
    {
      var z :| n <= z < |steps| && (Doomed(Met(steps, z), k) || Doomed(Left(steps, z), k));
      assert Met(more, z) == Met(steps, z) && Left(more, z) == Left(steps, z);
    }
  }

  /** A finding that lets a delete go ahead: on a live shoot, a listing met no
      Gateways; on a deleting one, the last poll of the wait met none or could
      not reach the API server. */
  predicate Permits(steps: seq<Step>, i: nat, deleting: bool)
    requires i < |steps|
  {
    if deleting then
      && steps[i].call == PollGateways && PollOf(steps, i) != Remaining
      && i + 1 < |steps| && steps[i + 1].call == ClearFinalizer
    else
      steps[i].call == ListGateways && steps[i].outcome.Answered? && Met(steps, i).shoot.gateways == map[]
  }

  ghost predicate Permitted(n: nat, steps: seq<Step>, j: nat, deleting: bool)
    requires j <= |steps|
  {
    exists i :: n <= i < j && Permits(steps, i, deleting)
  }

  lemma PermittedLonger(n: nat, m: nat, steps: seq<Step>, more: seq<Step>, j: nat, deleting: bool)
    requires m <= n && steps <= more && |steps| <= j <= |more| && Permitted(n, steps, |steps|, deleting)
    ensures Permitted(m, more, j, deleting)
  {
    var i :| n <= i < |steps| && Permits(steps, i, deleting);
    assert Permits(more, i, deleting);
  }

  /** The ManagedResource is deleted, and so comes to be in deletion, only after a
      finding of the stretch that permits it. */
  ghost predicate DeletedWhenPermitted(start: World, before: seq<Step>, after: seq<Step>, deleting: bool) {
    && before <= after
    && (forall j :: |before| <= j < |after| && after[j].call == DeleteResource ==> Permitted(|before|, after, j, deleting))
    && (!InDeletion(At(start, after, |before|)) ==>
          forall j :: |before| <= j <= |after| && InDeletion(At(start, after, j)) ==> Permitted(|before|, after, j, deleting))
  }

  /** So it is if no retirement comes before the check, and the check either ended
      the operation or found that it may go on. */
  lemma GuardHolds(start: World, before: seq<Step>, checked: seq<Step>, after: seq<Step>, areas: set<Area>, deleting: bool)
    requires IsHistory(start, after) && Within(before, checked, areas) && Retire !in areas && checked <= after
    requires checked == after || Permitted(|before|, checked, |checked|, deleting)
    ensures DeletedWhenPermitted(start, before, after, deleting)
  {
    AreasOf(before, checked, areas);
    assert forall x :: |before| <= x < |checked| ==> after[x] == checked[x];
    forall j | |before| <= j < |after| && after[j].call == DeleteResource
      ensures Permitted(|before|, after, j, deleting)
    {
      PermittedLonger(|before|, |before|, checked, after, j, deleting);
    }
    if !InDeletion(At(start, after, |before|)) {
      forall j | |before| <= j <= |after| && InDeletion(At(start, after, j))
        ensures Permitted(|before|, after, j, deleting)
      {
        if j <= |checked| {
          DeletionPersists(start, after, |before|, j);
        } else {
          PermittedLonger(|before|, |before|, checked, after, j, deleting);
        }
      }
    }
  }
}
