/** Create: the choice, the launch, and what a failed launch leaves behind
    (pkg/providers/instance/instance.go). */
module Provisioning {
  import opened Options
  import opened Availability
  import opened Launch
  import Instances
  import Labels

  /** `BadRequest` is a payload that cannot be built; the other two failures are told apart by callers. */
  datatype CreateResult =
    | Created(inst: Instances.Instance)
    | InsufficientCapacity
    | BadRequest
    | LaunchFailed(error: LaunchError)

  /** What the cloud makes of the request: the chosen type and zone, and the labels as they were sent. */
  function Requested(t: string, z: string, labels: Labels.LabelMap, createdAt: Time): Instances.Server {
    Instances.Server(t, z, Instances.STATUS_CREATING, Some(createdAt), Labels.LabelsToAPI(Some(labels)))
  }

  /** The offering a Create acts on. */
  ghost predicate ActsOn(its: seq<InstanceType>, claim: Claim, t: string, z: string) {
    exists i, j :: IsChoice(its, claim, i, j) && its[i].name == t && its[i].offerings[j].zone == z
  }

  /** `payloadOk` is whether networking and name are acceptable, `failure` the cloud's error if it refuses
      the launch, `newID` the id it gives the server otherwise. A server appears only in the cheapest
      candidate's type and zone and with exactly the given labels; a refused launch changes the marks for
      exactly that type and zone; and without a candidate nothing happens at all. */
  method Create(p: Instances.InstanceProvider, marks: UnavailableOfferings, its: seq<InstanceType>, claim: Claim,
                labels: Labels.LabelMap, payloadOk: bool, failure: Option<LaunchError>, newID: string, now: Time)
    returns (r: CreateResult)
    requires marks.Valid() && newID !in p.client.servers
    modifies p, p.client, marks
    ensures marks.Valid()
    ensures r.InsufficientCapacity? <==> forall i, j :: !Candidate(its, claim, i, j)
    ensures r.InsufficientCapacity? || r.BadRequest? ==> p.View() == old(p.View()) && marks.View() == old(marks.View())
    ensures !r.InsufficientCapacity? ==>
      && (r.BadRequest? <==> !payloadOk)
      && (r.LaunchFailed? <==> payloadOk && failure.Some?)
      && (r.Created? <==> payloadOk && failure.None?)
    ensures r.LaunchFailed? ==>
      && failure == Some(r.error) && p.View() == old(p.View())
      && exists t, z :: ActsOn(its, claim, t, z) && marks.View() == Record(old(marks.View()), now, r.error, t, z)
    ensures r.Created? ==>
      && marks.View() == old(marks.View()) && r.inst.id == newID && r.inst.labels == labels
      && ActsOn(its, claim, r.inst.machineType, r.inst.zone)
      && var server := Requested(r.inst.machineType, r.inst.zone, labels, now);
         r.inst == Instances.NewInstance(newID, server)
         && p.View() == Instances.Launched(old(p.View()), now, newID, server)
    ensures r.Created? ==>
      && newID in p.client.servers && p.client.servers - {newID} == old(p.client.servers)
      && p.client.accepted == old(p.client.accepted)
      && p.instanceCache == old(p.instanceCache)[newID := Instances.Cached(r.inst, now + 60_000_000_000)]
      && var server := p.client.servers[newID];
         && server.machineType == r.inst.machineType && server.zone == r.inst.zone
         && server.status == r.inst.status == "CREATING"
         && server.createdAt == r.inst.createdAt == Some(now)
         && Labels.LabelsFromAPI(server.labels) == labels
  {
    var best := CheapestOffering(its, claim);
    if best.None? {
      return InsufficientCapacity;
    }
    var (i, j) := best.value;
    assert Candidate(its, claim, i, j);
    var t, z := its[i].name, its[i].offerings[j].zone;
    assert ActsOn(its, claim, t, z);
    if !payloadOk {
      return BadRequest;
    }
    if failure.Some? {
      RecordLaunchFailure(marks, failure.value, t, z, now);
      return LaunchFailed(failure.value);
    }
    var server := Requested(t, z, labels, now);
    p.client.CreateServer(newID, server);
    var inst := Instances.NewInstance(newID, server);
    Labels.ApiRoundTrip(labels, map[]);
    p.instanceCache := p.instanceCache[newID := Instances.Cached(inst, now + Instances.DEFAULT_TTL)];
    r := Created(inst);
  }
}
