/** Keeping the labels of running servers equal to what their NodeClass asks for
    (pkg/controllers/nodeclaim/labeling/controller.go), and every server findable. */
module Labeling {
  import opened Options
  import opened Availability
  import opened Instances
  import Labels
  import ZoneNames
  import Teardown

  /** What the controller reads off the NodeClaim. */
  datatype NodeClaim = NodeClaim(name: string, deleting: bool, providerID: string,
                                 pool: Option<string>, className: Option<string>)

  /** `Stuck` and `Vanished` are returned errors. `Vanished` is the one that the source means to ignore: the
      update was answered 404, the ignored error is nil, and wrapping nil gives a new error. */
  datatype Outcome = Skipped | InSync | Updated | NoServer | Vanished | Stuck

  /** One reconcile of a launched claim; `vanishes` says that the server disappears between the read and the
      update. */
  function Relabel(w: World, now: Time, id: string, desired: LabelMap, getFault: Fault, vanishes: bool,
                   updateFault: Fault): (World, Outcome)
  {
    var (w1, got) := Get(w, now, id, false, getFault);
    match got
    case Failure(e) => (w1, if e.NotFound? then NoServer else Stuck)
    case Success(inst) =>
      if inst.labels == desired then (w1, InSync)
      else
        var (w2, r) := Update(if vanishes then Disappear(w1, id) else w1, id, desired, updateFault);
        (w2, if r.Success? then Updated else if r.error.NotFound? then Vanished else Stuck)
  }

  function Desired(claim: NodeClaim, userLabels: LabelMap, clusterName: string): LabelMap
    requires claim.className.Some?
  {
    Labels.ManagedLabels(userLabels, claim.className.value, claim.name, claim.pool, clusterName)
  }

  /** The desired labels key by key: the four managed ones say where the server belongs, every other is the
      user's. */
  lemma DesiredKeyByKey(claim: NodeClaim, userLabels: LabelMap, clusterName: string, k: string)
    requires claim.className.Some?
    ensures var m := Desired(claim, userLabels, clusterName);
      && "karpenter.k8s.stackit/nodeclass" in m && m["karpenter.k8s.stackit/nodeclass"] == claim.className.value
      && "karpenter.sh/nodeclaim" in m && m["karpenter.sh/nodeclaim"] == claim.name
      && "karpenter.sh/managed-by" in m && m["karpenter.sh/managed-by"] == clusterName
      && (claim.pool.Some? ==> "karpenter.sh/nodepool" in m && m["karpenter.sh/nodepool"] == claim.pool.value)
      && (k !in {"karpenter.k8s.stackit/nodeclass", "karpenter.sh/nodeclaim", "karpenter.sh/managed-by",
                 "karpenter.sh/nodepool"}
          || (k == "karpenter.sh/nodepool" && claim.pool.None?) ==>
            (k in m <==> k in userLabels) && (k in userLabels ==> m[k] == userLabels[k]))
  {
    Labels.ManagedKeysWin(userLabels, claim.className.value, claim.name, claim.pool, clusterName, k);
  }

  /** `userLabels` are spec.labels of the claim's NodeClass, None when there is no such NodeClass. */
  method Reconcile(p: InstanceProvider, claim: NodeClaim, userLabels: Option<LabelMap>, now: Time, getFault: Fault,
                   vanishes: bool, updateFault: Fault)
    returns (r: Outcome)
    modifies p, p.client
    ensures var id := ZoneNames.ParseInstanceID(claim.providerID);
      if claim.deleting || id.None? || claim.className.None? || userLabels.None?
      then r == Skipped && p.View() == old(p.View())
      else (p.View(), r) == Relabel(old(p.View()), now, id.value, Desired(claim, userLabels.value, p.clusterName),
                                    getFault, vanishes, updateFault)
    ensures r.Updated? ==>
      var id := ZoneNames.ParseInstanceID(claim.providerID);
      && id.Some? && id.value in p.client.servers && claim.className.Some?
      && var labels := Labels.LabelsFromAPI(p.client.servers[id.value].labels);
         && Labels.NODE_CLASS in labels && labels[Labels.NODE_CLASS] == claim.className.value
         && Labels.NODE_CLAIM in labels && labels[Labels.NODE_CLAIM] == claim.name
         && Labels.MANAGED_BY in labels && labels[Labels.MANAGED_BY] == p.clusterName
         && (claim.pool.Some? ==> Labels.NODE_POOL in labels && labels[Labels.NODE_POOL] == claim.pool.value)
  {
    if claim.deleting || claim.providerID == "" {
      return Skipped;
    }
    var id := ZoneNames.ParseInstanceID(claim.providerID);
    if id.None? || claim.className.None? || userLabels.None? {
      return Skipped;
    }
    var got := p.GetInstance(id.value, false, now, getFault);
    if got.Failure? {
      return if got.error.NotFound? then NoServer else Stuck;
    }
    var desired := Desired(claim, userLabels.value, p.clusterName);
    if desired == got.value.labels {
      return InSync;
    }
    if vanishes {
      p.client.Finish(id.value);
    }
    var updated := p.UpdateLabels(id.value, desired, updateFault);
    Labels.ApiRoundTrip(desired, map[]);
    DesiredKeyByKey(claim, userLabels.value, p.clusterName, "");
    r := if updated.Success? then Updated else if updated.error.NotFound? then Vanished else Stuck;
  }

  /** When a reconcile ends how. What it reads is a live cached copy or else the server. */
  lemma RelabelOutcome(w: World, now: Time, id: string, desired: LabelMap, getFault: Fault, vanishes: bool,
                       updateFault: Fault)
    ensures var r := Relabel(w, now, id, desired, getFault, vanishes, updateFault).1;
      var hit := id in w.cache && now <= w.cache[id].expiry;
      if !hit && getFault.Some? then r == Stuck
      else if !hit && id !in w.servers then r == NoServer
      else
        var read := if hit then w.cache[id].inst.labels else Labels.LabelsFromAPI(w.servers[id].labels);
        r == if read == desired then InSync
             else if updateFault.Some? then Stuck
             else if id !in w.servers || vanishes then Vanished
             else Updated
  {
  }

  /** What an update leaves behind: the server's labels are the desired ones, its cached copy is gone, and nothing
      else has changed. */
  lemma RelabelEffect(w: World, now: Time, id: string, desired: LabelMap, getFault: Fault, vanishes: bool,
                      updateFault: Fault)
    requires Relabel(w, now, id, desired, getFault, vanishes, updateFault).1 == Updated
    ensures var w' := Relabel(w, now, id, desired, getFault, vanishes, updateFault).0;
      && id in w.servers && id in w'.servers && id !in w'.cache
      && Labels.LabelsFromAPI(w'.servers[id].labels) == desired
      && w'.servers[id].(labels := None) == w.servers[id].(labels := None)
      && w'.servers - {id} == w.servers - {id} && w'.cache == w.cache - {id} && w'.accepted == w.accepted
  {
    Labels.ApiRoundTrip(desired, map[]);
  }

  /** Any other outcome leaves the servers as they are, but for the one that disappears by itself, and every cached
      copy of another. */
  lemma RelabelKeeps(w: World, now: Time, id: string, desired: LabelMap, getFault: Fault, vanishes: bool,
                     updateFault: Fault)
    requires Relabel(w, now, id, desired, getFault, vanishes, updateFault).1 != Updated
    ensures var w' := Relabel(w, now, id, desired, getFault, vanishes, updateFault).0;
      && w'.servers - {id} == w.servers - {id} && w'.cache - {id} == w.cache - {id} && w'.accepted == w.accepted
      && (!vanishes ==> w'.servers == w.servers)
  {
  }

  // ---------------------------------------------------------------- convergence

  function ServerLabels(w: World, id: string): LabelMap
    requires id in w.servers
  {
    Labels.LabelsFromAPI(w.servers[id].labels)
  }

  /** The cached copy, when Get would use one, shows the server's own labels. */
  predicate ReadsCurrent(w: World, now: Time, id: string) {
    id in w.servers && (CacheHit(w, now, id) ==> w.cache[id].inst.labels == ServerLabels(w, id))
  }

  /** One reconcile whose calls are answered leaves the server with exactly the desired labels, unless it
      read a stale copy that already looked right. */
  lemma ConvergesIff(w: World, now: Time, id: string, desired: LabelMap)
    requires id in w.servers
    ensures var (w', r) := Relabel(w, now, id, desired, None, false, None);
            && id in w'.servers && (r.InSync? || r.Updated?)
            && (ServerLabels(w', id) == desired
                <==> !(CacheHit(w, now, id) && w.cache[id].inst.labels == desired && ServerLabels(w, id) != desired))
            && (forall other :: other in w.servers && other != id ==>
                  other in w'.servers && w'.servers[other] == w.servers[other])
  {
    Labels.ApiRoundTrip(desired, map[]);
  }

  /** Reading current labels, one reconcile makes them the desired ones and the next one sends nothing. */
  lemma SecondReconcileIsIdle(w: World, now: Time, later: Time, id: string, desired: LabelMap)
    requires ReadsCurrent(w, now, id)
    ensures var (w1, r1) := Relabel(w, now, id, desired, None, false, None);
            var (w2, r2) := Relabel(w1, later, id, desired, None, false, None);
            && ServerLabels(w1, id) == desired && (r1.InSync? <==> ServerLabels(w, id) == desired)
            && r2.InSync? && w2.servers == w1.servers
  {
    Labels.ApiRoundTrip(desired, map[]);
  }

  /** What keeps reads current: every step of the provider does - Get, List, Delete, a launch, a reconcile - and so
      does a label write that goes through it. */
  lemma ProviderKeepsReadsCurrent(w: World, now: Time, later: Time, id: string, other: string, labels: LabelMap,
                                  fault: Fault, skip: bool, vanishes: bool, instances: seq<Instance>, server: Server)
    requires ReadsCurrent(w, later, id) && now <= later && (vanishes ==> other != id)
    ensures ReadsCurrent(Get(w, now, other, skip, fault).0, later, id)
    ensures ReadsCurrent(Update(w, other, labels, fault).0, later, id)
    ensures ReadsCurrent(DeleteCall(w, now, other, fault, vanishes, fault).0, later, id)
    ensures ReadsCurrent(Relabel(w, now, other, labels, fault, vanishes, fault).0, later, id)
    ensures Reads(instances, w.servers) ==>
      ReadsCurrent(w.(cache := RememberAll(w.cache, now, instances)), later, id)
    ensures other !in w.servers ==> ReadsCurrent(Launched(w, now, other, server), later, id)
  {
    GetKeepsReadsCurrent(w, now, later, id, other, fault, skip);
    UpdateKeepsReadsCurrent(w, later, id, other, labels, fault);
    DeleteKeepsReadsCurrent(w, now, later, id, other, fault, vanishes);
    RelabelKeepsReadsCurrent(w, now, later, id, other, labels, fault, vanishes);
    if Reads(instances, w.servers) {
      ListKeepsReadsCurrent(w, now, later, id, instances);
    }
  }

  lemma DeleteKeepsReadsCurrent(w: World, now: Time, later: Time, id: string, other: string, fault: Fault,
                                vanishes: bool)
    requires ReadsCurrent(w, later, id) && now <= later && (vanishes ==> other != id)
    ensures ReadsCurrent(DeleteCall(w, now, other, fault, vanishes, fault).0, later, id)
  {
    GetKeepsReadsCurrent(w, now, later, id, other, fault, true);
    var fetched := Get(w, now, other, true, fault).0;
    DestroyKeepsReadsCurrent(if vanishes then Disappear(fetched, other) else fetched, later, id, other, fault);
  }

  lemma RelabelKeepsReadsCurrent(w: World, now: Time, later: Time, id: string, other: string, desired: LabelMap,
                                 fault: Fault, vanishes: bool)
    requires ReadsCurrent(w, later, id) && now <= later && (vanishes ==> other != id)
    ensures ReadsCurrent(Relabel(w, now, other, desired, fault, vanishes, fault).0, later, id)
  {
    GetKeepsReadsCurrent(w, now, later, id, other, fault, false);
    var got := Get(w, now, other, false, fault).0;
    UpdateKeepsReadsCurrent(if vanishes then Disappear(got, other) else got, later, id, other, desired, fault);
  }

  lemma GetKeepsReadsCurrent(w: World, now: Time, later: Time, id: string, other: string, fault: Fault, skip: bool)
    requires ReadsCurrent(w, later, id) && now <= later
    ensures ReadsCurrent(Get(w, now, other, skip, fault).0, later, id)
  {
  }

  lemma UpdateKeepsReadsCurrent(w: World, later: Time, id: string, other: string, labels: LabelMap, fault: Fault)
    requires ReadsCurrent(w, later, id)
    ensures ReadsCurrent(Update(w, other, labels, fault).0, later, id)
  {
  }

  lemma ListKeepsReadsCurrent(w: World, now: Time, later: Time, id: string, instances: seq<Instance>)
    requires ReadsCurrent(w, later, id) && Reads(instances, w.servers)
    ensures ReadsCurrent(w.(cache := RememberAll(w.cache, now, instances)), later, id)
  {
    ListingRefreshes(w.cache, now, instances, id);
    if Listed(instances, id) {
      var i :| 0 <= i < |instances| && instances[i].id == id;
      assert RememberAll(w.cache, now, instances)[id].inst == instances[i];
    }
  }

  lemma DestroyKeepsReadsCurrent(w: World, later: Time, id: string, other: string, fault: Fault)
    requires ReadsCurrent(w, later, id)
    ensures ReadsCurrent(Destroy(w, other, fault).0, later, id)
  {
  }

  // ---------------------------------------------------------------- a server that is gone

  /** When a reconcile returns the error it means to ignore: exactly when the update is answered and meets no
      server, after a read that showed other labels - a live cached copy of a server that is gone or goes, or a
      fresh one of a server that goes. */
  lemma VanishedIff(w: World, now: Time, id: string, desired: LabelMap, getFault: Fault,
                    vanishes: bool, updateFault: Fault)
    ensures Relabel(w, now, id, desired, getFault, vanishes, updateFault).1.Vanished? <==>
      && updateFault.None?
      && if CacheHit(w, now, id) then w.cache[id].inst.labels != desired && (vanishes || id !in w.servers)
         else getFault.None? && vanishes && id in w.servers && ServerLabels(w, id) != desired
  {
  }

  /** The outcomes of reconciles at these times, all of them answered, with nothing else moving. */
  function Outcomes(w: World, id: string, desired: LabelMap, times: seq<Time>): (r: seq<Outcome>)
    ensures |r| == |times|
    decreases |times|
  {
    if times == [] then []
    else
      var (w', outcome) := Relabel(w, times[0], id, desired, None, false, None);
      [outcome] + Outcomes(w', id, desired, times[1..])
  }

  predicate InOrder(times: seq<Time>) {
    forall i, j :: 0 <= i < j < |times| ==> times[i] <= times[j]
  }

  /** The error leaves the cached copy of the gone server where it is, so every retry fails the same way until
      that copy expires, and none after. */
  lemma {:induction false} RetriesFailUntilExpiry(w: World, id: string, desired: LabelMap, times: seq<Time>, k: nat)
    requires id !in w.servers && id in w.cache && w.cache[id].inst.labels != desired
    requires InOrder(times) && k < |times|
    ensures Outcomes(w, id, desired, times)[k] == if times[k] <= w.cache[id].expiry then Vanished else NoServer
    decreases |times|
  {
    var w' := Relabel(w, times[0], id, desired, None, false, None).0;
    if times[0] <= w.cache[id].expiry {
      assert w' == w;
      if k > 0 {
        RetriesFailUntilExpiry(w, id, desired, times[1..], k - 1);
      }
    } else if k > 0 {
      GoneStaysNoServer(w', id, desired, times[1..], k - 1);
    }
  }

  lemma {:induction false} GoneStaysNoServer(w: World, id: string, desired: LabelMap, times: seq<Time>, k: nat)
    requires id !in w.servers && id !in w.cache && k < |times|
    ensures Outcomes(w, id, desired, times)[k] == NoServer
    decreases |times|
  {
    if k > 0 {
      assert Relabel(w, times[0], id, desired, None, false, None).0 == w.(cache := w.cache - {id});
      GoneStaysNoServer(w.(cache := w.cache - {id}), id, desired, times[1..], k - 1);
    }
  }

  /** So a server that goes between a fresh read and its update makes its claim's reconciles fail for the rest of
      the cached copy's minute. */
  lemma VanishedFailsForTheTTL(w: World, now: Time, id: string, desired: LabelMap, times: seq<Time>, k: nat)
    requires id in w.servers && !CacheHit(w, now, id) && ServerLabels(w, id) != desired
    requires InOrder(times) && k < |times|
    ensures var (w', r) := Relabel(w, now, id, desired, None, true, None);
      && r == Vanished
      && Outcomes(w', id, desired, times)[k] == if times[k] <= now + 60_000_000_000 then Vanished else NoServer
  {
    var w' := Relabel(w, now, id, desired, None, true, None).0;
    RetriesFailUntilExpiry(w', id, desired, times, k);
  }

  // ---------------------------------------------------------------- convergence over runs

  /** Every cached copy of a server that is there shows the server's own labels. */
  ghost predicate CacheCurrent(s: Teardown.Sys) {
    && (forall id :: id in s.world.servers ==> id in s.seen)
    && (forall id :: id in s.world.cache ==>
          id in s.seen && (id in s.world.servers ==> s.world.cache[id].inst.labels == ServerLabels(s.world, id)))
  }

  /** A Get that found no server stores nothing and a List stores what it found, so an id is only ever cached once
      it was launched. */
  lemma CacheCurrentStep(s: Teardown.Sys, e: Teardown.Event)
    requires CacheCurrent(s) && Teardown.Enabled(s, e)
    ensures CacheCurrent(Teardown.Next(s, e))
  {
    if e.Listing? {
      CacheCurrentListing(s, e.instances, e.now);
    }
  }

  lemma CacheCurrentListing(s: Teardown.Sys, instances: seq<Instance>, now: Time)
    requires CacheCurrent(s) && Reads(instances, s.world.servers)
    ensures CacheCurrent(s.(world := s.world.(cache := RememberAll(s.world.cache, now, instances))))
  {
    var cache := RememberAll(s.world.cache, now, instances);
    forall id | id in cache
      ensures id in s.seen
      ensures id in s.world.servers ==> cache[id].inst.labels == ServerLabels(s.world, id)
    {
      ListingRefreshes(s.world.cache, now, instances, id);
      if Listed(instances, id) {
        var i :| 0 <= i < |instances| && instances[i].id == id;
        assert cache[id].inst == instances[i];
      }
    }
  }

  lemma {:induction false} CacheCurrentRun(s: Teardown.Sys, es: seq<Teardown.Event>)
    requires CacheCurrent(s) && Teardown.Run(s, es)
    ensures CacheCurrent(Teardown.After(s, es))
    decreases |es|
  {
    if es != [] {
      CacheCurrentStep(s, es[0]);
      CacheCurrentRun(Teardown.Next(s, es[0]), es[1..]);
    }
  }

  /** After any run in which every label write goes through the provider, one answered reconcile of any server
      that is there makes its labels the desired ones, and the next sends nothing. */
  lemma EveryReconcileConverges(es: seq<Teardown.Event>, now: Time, later: Time, id: string, desired: LabelMap)
    requires Teardown.Run(Teardown.INIT, es) && id in Teardown.After(Teardown.INIT, es).world.servers
    ensures var w := Teardown.After(Teardown.INIT, es).world;
            var (w1, r1) := Relabel(w, now, id, desired, None, false, None);
            var (w2, r2) := Relabel(w1, later, id, desired, None, false, None);
            && ServerLabels(w1, id) == desired && (r1.InSync? <==> ServerLabels(w, id) == desired)
            && r2.InSync? && w2.servers == w1.servers
  {
    CacheCurrentRun(Teardown.INIT, es);
    SecondReconcileIsIdle(Teardown.After(Teardown.INIT, es).world, now, later, id, desired);
  }

  // ---------------------------------------------------------------- no server is lost

  /** Labels as this controller computes them, at launch or later, whatever the user's labels are. */
  ghost predicate Managed(labels: LabelMap, clusterName: string) {
    exists user: LabelMap, className: string, claimName: string, pool: Option<string> ::
      labels == Labels.ManagedLabels(user, className, claimName, pool, clusterName)
  }

  ghost predicate OurEvent(e: Teardown.Event, clusterName: string) {
    match e
    case Launch(_, server, _) =>
      exists labels: LabelMap :: Managed(labels, clusterName) && server.labels == Labels.LabelsToAPI(Some(labels))
    case Relabel(_, labels) => Managed(labels, clusterName)
    case _ => true
  }

  ghost predicate AllManaged(s: Teardown.Sys, clusterName: string) {
    forall id :: id in s.world.servers ==> ManagedBy(s.world.servers[id], clusterName)
  }

  lemma ManagedIsManagedBy(labels: LabelMap, clusterName: string, server: Server)
    requires Managed(labels, clusterName) && server.labels == Labels.LabelsToAPI(Some(labels))
    ensures ManagedBy(server, clusterName)
  {
    var user: LabelMap, className, claimName, pool :|
      labels == Labels.ManagedLabels(user, className, claimName, pool, clusterName);
    Labels.ManagedKeysWin(user, className, claimName, pool, clusterName, "");
    Labels.ApiRoundTrip(labels, map[]);
  }

  lemma AllManagedStep(s: Teardown.Sys, e: Teardown.Event, clusterName: string)
    requires AllManaged(s, clusterName) && Teardown.Enabled(s, e) && OurEvent(e, clusterName)
    ensures AllManaged(Teardown.Next(s, e), clusterName)
  {
    match e
    case Launch(id, server, _) =>
      var labels :| Managed(labels, clusterName) && server.labels == Labels.LabelsToAPI(Some(labels));
      ManagedIsManagedBy(labels, clusterName, server);
    case Relabel(id, labels) =>
      ManagedIsManagedBy(labels, clusterName, Relabelled(s.world.servers, id, labels)[id]);
    case _ =>
  }

  lemma {:induction false} AllManagedRun(s: Teardown.Sys, es: seq<Teardown.Event>, clusterName: string)
    requires AllManaged(s, clusterName) && Teardown.Run(s, es)
    requires forall e :: e in es ==> OurEvent(e, clusterName)
    ensures AllManaged(Teardown.After(s, es), clusterName)
    decreases |es|
  {
    if es != [] {
      assert es[0] in es;
      AllManagedStep(s, es[0], clusterName);
      AllManagedRun(Teardown.Next(s, es[0]), es[1..], clusterName);
    }
  }

  /** Over all runs of launches, relabellings, status changes, deletes and disappearances, whatever labels
      users write, the selector List sends matches every server that is still there - exactly when the
      cluster's name has no ','. */
  lemma NoServerIsLost(es: seq<Teardown.Event>, clusterName: string, selector: string, id: string)
    requires Teardown.Run(Teardown.INIT, es) && forall e :: e in es ==> OurEvent(e, clusterName)
    requires Labels.IsSelector(selector, map[Labels.MANAGED_BY := clusterName])
    requires id in Teardown.After(Teardown.INIT, es).world.servers
    ensures Matches(Teardown.After(Teardown.INIT, es).world.servers[id], Labels.ParseSelector(selector))
       <==> ',' !in clusterName
  {
    AllManagedRun(Teardown.INIT, es, clusterName);
    var server := Teardown.After(Teardown.INIT, es).world.servers[id];
    assert ManagedBy(server, clusterName);
    if ',' in clusterName {
      CommaHidesEveryServer(selector, clusterName, server);
    } else {
      ManagedSelector(selector, clusterName);
    }
  }
}
