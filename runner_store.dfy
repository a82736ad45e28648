/** The list of runners the app knows about
    (mobile-app/src/core/stores/runnerStore.ts). */
module RunnerStore {
  import opened Wrappers
  import opened Types
  import Seqs

  /** `updateRunnerAvailability`: sets the flag of every runner with the id
      and changes nothing else. */
  function AfterSetAvailability(runners: seq<Runner>, runnerId: string, isAvailable: bool): (r: seq<Runner>)
    ensures |r| == |runners|
    ensures forall i :: 0 <= i < |runners| ==>
      r[i] == if runners[i].id == runnerId then runners[i].(isAvailable := isAvailable) else runners[i]
  {
    Seqs.MapWhere(runners, (x: Runner) => x.id == runnerId, (x: Runner) => x.(isAvailable := isAvailable))
  }

  /** The spread in `updateRunnerLocation`: new coordinates, the same address
      and city. */
  function Moved(runner: Runner, latitude: real, longitude: real): (r: Runner)
    ensures r.currentLocation.latitude == latitude && r.currentLocation.longitude == longitude
    ensures r.currentLocation.address == runner.currentLocation.address
    ensures r.currentLocation.city == runner.currentLocation.city
    ensures r.(currentLocation := runner.currentLocation) == runner
  {
    runner.(currentLocation := runner.currentLocation.(latitude := latitude, longitude := longitude))
  }

  /** `updateRunnerLocation`: moves every runner with the id. */
  function AfterSetLocation(runners: seq<Runner>, runnerId: string, latitude: real, longitude: real): (r: seq<Runner>)
    ensures |r| == |runners|
    ensures forall i :: 0 <= i < |runners| ==>
      r[i] == if runners[i].id == runnerId then Moved(runners[i], latitude, longitude) else runners[i]
  {
    Seqs.MapWhere(runners, (x: Runner) => x.id == runnerId, (x: Runner) => Moved(x, latitude, longitude))
  }

  /** `getAvailableRunners`: exactly the available runners, in list order. */
  function AvailableRunners(runners: seq<Runner>): (r: seq<Runner>)
    ensures forall x :: x in r <==> x in runners && x.isAvailable
  {
    Seqs.Filter(runners, (x: Runner) => x.isAvailable)
  }

  /** `getRunnerById`: the first runner with the id, or nothing. */
  function RunnerById(runners: seq<Runner>, runnerId: string): (r: Option<Runner>)
    ensures r.None? <==> forall x :: x in runners ==> x.id != runnerId
    ensures r.Some? ==> exists i :: 0 <= i < |runners| && runners[i] == r.value && r.value.id == runnerId &&
                                    forall j :: 0 <= j < i ==> runners[j].id != runnerId
  {
    Seqs.Find(runners, (x: Runner) => x.id == runnerId)
  }

  /** A runner switched off no longer appears among the available runners;
      one switched on does, and no other runner's presence changes. */
  lemma AvailabilityControlsListing(runners: seq<Runner>, runnerId: string, isAvailable: bool)
    ensures forall x :: x in AvailableRunners(AfterSetAvailability(runners, runnerId, isAvailable)) ==>
                          x.id == runnerId ==> isAvailable
    ensures forall x :: x in runners && x.id == runnerId && isAvailable ==>
                          x.(isAvailable := true) in AvailableRunners(AfterSetAvailability(runners, runnerId, isAvailable))
    ensures forall x :: x in runners && x.id != runnerId ==>
                          (x in AvailableRunners(AfterSetAvailability(runners, runnerId, isAvailable)) <==> x.isAvailable)
  {
    var after := AfterSetAvailability(runners, runnerId, isAvailable);
    forall x | x in after && x.id == runnerId
      ensures isAvailable || !x.isAvailable
    {
      var i :| 0 <= i < |after| && after[i] == x;
    }
    forall x | x in runners && x.id == runnerId && isAvailable
      ensures x.(isAvailable := true) in after
    {
      var i :| 0 <= i < |runners| && runners[i] == x;
      assert after[i] == x.(isAvailable := true);
    }
    forall x | x in runners && x.id != runnerId
      ensures x in after
    {
      var i :| 0 <= i < |runners| && runners[i] == x;
      assert after[i] == x;
    }
  }

  /** Moving a runner does not change who is available: the available list
      keeps its length, and the lookup by id finds the moved runner. */
  lemma MoveKeepsAvailability(runners: seq<Runner>, runnerId: string, latitude: real, longitude: real)
    ensures |AvailableRunners(AfterSetLocation(runners, runnerId, latitude, longitude))| == |AvailableRunners(runners)|
    ensures RunnerById(AfterSetLocation(runners, runnerId, latitude, longitude), runnerId) ==
            match RunnerById(runners, runnerId)
            case None => None
            case Some(x) => Some(Moved(x, latitude, longitude))
  {
    var after := AfterSetLocation(runners, runnerId, latitude, longitude);
    Seqs.FilterLengthAgrees(runners, after, (x: Runner) => x.isAvailable);
    Seqs.FindIndexAgrees(runners, after, (x: Runner) => x.id == runnerId);
  }

  class RunnerStore {
    var runners: seq<Runner>

    constructor ()
      ensures runners == []
    {
      runners := [];
    }

    method SetRunners(runners: seq<Runner>)
      modifies this
      ensures this.runners == runners
    {
      this.runners := runners;
    }

    method UpdateRunnerAvailability(runnerId: string, isAvailable: bool)
      modifies this
      ensures runners == AfterSetAvailability(old(runners), runnerId, isAvailable)
    {
      runners := Seqs.MapWhere(runners, (x: Runner) => x.id == runnerId,
                               (x: Runner) => x.(isAvailable := isAvailable));
    }

    method UpdateRunnerLocation(runnerId: string, latitude: real, longitude: real)
      modifies this
      ensures runners == AfterSetLocation(old(runners), runnerId, latitude, longitude)
    {
      runners := Seqs.MapWhere(runners, (x: Runner) => x.id == runnerId,
                               (x: Runner) => Moved(x, latitude, longitude));
    }

    function GetAvailableRunners(): (r: seq<Runner>)
      reads this
      ensures forall x :: x in r <==> x in runners && x.isAvailable
    {
      AvailableRunners(runners)
    }

    function GetRunnerById(runnerId: string): (r: Option<Runner>)
      reads this
      ensures r.None? <==> forall x :: x in runners ==> x.id != runnerId
      ensures r.Some? ==> exists i :: 0 <= i < |runners| && runners[i] == r.value && r.value.id == runnerId &&
                                      forall j :: 0 <= j < i ==> runners[j].id != runnerId
    {
      RunnerById(runners, runnerId)
    }
  }
}
