/** Servers behind NodeClaims: reading, listing, relabelling and the retried delete
    (pkg/providers/instance/instance.go, pkg/providers/instance/types.go).

    The cloud is a map of servers. A call to it can be given a failing status from outside; what it
    never does is answer 404 for a server that exists. */
module Instances {
  import opened Options
  import opened Availability
  import Labels

  type LabelMap = Labels.LabelMap

  const STATUS_CREATING := "CREATING"
  const STATUS_DELETING := "DELETING"
  const STATUS_DELETED := "DELETED"
  const DEFAULT_TTL: nat := MINUTE

  datatype Server = Server(
    machineType: string, zone: string, status: string, createdAt: Option<Time>,
    labels: Option<map<string, Labels.ApiValue>>)

  datatype Instance = Instance(
    id: string, machineType: string, zone: string, status: string, createdAt: Option<Time>, labels: LabelMap)

  function NewInstance(id: string, s: Server): Instance {
    Instance(id, s.machineType, s.zone, s.status, s.createdAt, Labels.LabelsFromAPI(s.labels))
  }

  predicate Terminating(status: string) {
    status == STATUS_DELETING || status == STATUS_DELETED
  }

  /** A failing status the cloud may be made to answer with. 404 is not one of them. */
  type Fault = f: Option<int> | f != Some(404) witness None

  datatype Reply<+T> = Ok(value: T) | Failed(status: int)

  /** The provider's errors. The last three are the ones a caller retries. */
  datatype Error = NotFound | ApiFailed(status: int) | StillDeleting | Busy | Requested

  datatype Result<+T> = Success(value: T) | Failure(error: Error)

  datatype Cached = Cached(inst: Instance, expiry: Time)

  /** `accepted` counts the DeleteServer calls the cloud accepted, per server. */
  datatype World = World(servers: map<string, Server>, accepted: multiset<string>, cache: map<string, Cached>)

  // ---------------------------------------------------------------- the cloud

  function ApiGet(servers: map<string, Server>, id: string, fault: Fault): Reply<Server> {
    if fault.Some? then Failed(fault.value)
    else if id in servers then Ok(servers[id])
    else Failed(404)
  }

  /** An accepted delete moves the server to DELETING; it disappears later. */
  function MarkDeleting(servers: map<string, Server>, id: string): map<string, Server>
    requires id in servers
  {
    servers[id := servers[id].(status := STATUS_DELETING)]
  }

  function Relabelled(servers: map<string, Server>, id: string, labels: LabelMap): map<string, Server>
    requires id in servers
  {
    servers[id := servers[id].(labels := Labels.LabelsToAPI(Some(labels)))]
  }

  predicate Matches(s: Server, selector: LabelMap) {
    var labels := Labels.LabelsFromAPI(s.labels);
    forall k :: k in selector ==> k in labels && labels[k] == selector[k]
  }

  class Cloud {
    var servers: map<string, Server>
    var accepted: multiset<string>

    constructor ()
      ensures servers == map[] && accepted == multiset{}
    {
      servers := map[];
      accepted := multiset{};
    }

    method CreateServer(id: string, s: Server)
      requires id !in servers
      modifies this
      ensures servers == old(servers)[id := s] && accepted == old(accepted)
    {
      servers := servers[id := s];
    }

    method GetServer(id: string, fault: Fault) returns (r: Reply<Server>)
      ensures r == ApiGet(servers, id, fault)
    {
      r := if fault.Some? then Failed(fault.value) else if id in servers then Ok(servers[id]) else Failed(404);
    }

    method DeleteServer(id: string, fault: Fault) returns (r: Reply<()>)
      modifies this
      ensures fault.Some? ==> r == Failed(fault.value) && unchanged(this)
      ensures fault.None? && id !in old(servers) ==> r == Failed(404) && unchanged(this)
      ensures fault.None? && id in old(servers) ==>
                r == Ok(()) && servers == MarkDeleting(old(servers), id) && accepted == old(accepted) + multiset{id}
    {
      if fault.Some? {
        return Failed(fault.value);
      }
      if id !in servers {
        return Failed(404);
      }
      servers := MarkDeleting(servers, id);
      accepted := accepted + multiset{id};
      r := Ok(());
    }

    /** The server is gone. */
    method Finish(id: string)
      modifies this
      ensures servers == old(servers) - {id} && accepted == old(accepted)
    {
      servers := servers - {id};
    }

    method UpdateServerLabels(id: string, labels: LabelMap, fault: Fault) returns (r: Reply<()>)
      modifies this
      ensures fault.Some? ==> r == Failed(fault.value) && unchanged(this)
      ensures fault.None? && id !in old(servers) ==> r == Failed(404) && unchanged(this)
      ensures fault.None? && id in old(servers) ==>
                r == Ok(()) && servers == Relabelled(old(servers), id, labels) && accepted == old(accepted)
    {
      if fault.Some? {
        return Failed(fault.value);
      }
      if id !in servers {
        return Failed(404);
      }
      servers := Relabelled(servers, id, labels);
      r := Ok(());
    }

    /** The ids of the matching servers, in whatever order the cloud lists them. */
    method ListServers(selector: string, fault: Option<int>) returns (r: Reply<seq<string>>)
      ensures fault.Some? ==> r == Failed(fault.value)
      ensures fault.None? ==> r.Ok?
      ensures r.Ok? ==>
        forall id :: id in r.value <==> id in servers && Matches(servers[id], Labels.ParseSelector(selector))
      ensures r.Ok? ==> forall i, j :: 0 <= i < j < |r.value| ==> r.value[i] != r.value[j]
    {
      if fault.Some? {
        return Failed(fault.value);
      }
      var rest := servers.Keys;
      var ids: seq<string> := [];
      while rest != {}
        invariant rest <= servers.Keys
        invariant forall id ::
          id in ids <==> id in servers && id !in rest && Matches(servers[id], Labels.ParseSelector(selector))
        invariant forall i, j :: 0 <= i < j < |ids| ==> ids[i] != ids[j]
        decreases |rest|
      {
        var id :| id in rest;
        rest := rest - {id};
        if Matches(servers[id], Labels.ParseSelector(selector)) {
          ids := ids + [id];
        }
      }
      r := Ok(ids);
    }
  }

  // ---------------------------------------------------------------- the provider's steps

  function Remember(cache: map<string, Cached>, now: Time, inst: Instance): map<string, Cached> {
    cache[inst.id := Cached(inst, now + DEFAULT_TTL)]
  }

  predicate CacheHit(w: World, now: Time, id: string) {
    id in w.cache && now <= w.cache[id].expiry
  }

  /** Get with the cache skipped: one GetServer call and what it does to the cache. */
  function Fetch(w: World, now: Time, id: string, fault: Fault): (World, Result<Instance>) {
    match ApiGet(w.servers, id, fault)
    case Ok(s) => (w.(cache := Remember(w.cache, now, NewInstance(id, s))), Success(NewInstance(id, s)))
    case Failed(status) =>
      if status == 404 then (w.(cache := w.cache - {id}), Failure(NotFound)) else (w, Failure(ApiFailed(status)))
  }

  function Get(w: World, now: Time, id: string, skipCache: bool, fault: Fault): (World, Result<Instance>) {
    if !skipCache && CacheHit(w, now, id) then (w, Success(w.cache[id].inst)) else Fetch(w, now, id, fault)
  }

  /** The second half of Delete: the DeleteServer call and its consequences. */
  function Destroy(w: World, id: string, fault: Fault): (World, Error) {
    if fault.Some? then (w, if fault.value == 409 then Busy else ApiFailed(fault.value))
    else if id !in w.servers then (w.(cache := w.cache - {id}), NotFound)
    else (World(MarkDeleting(w.servers, id), w.accepted + multiset{id}, w.cache - {id}), Requested)
  }

  function Disappear(w: World, id: string): World {
    w.(servers := w.servers - {id})
  }

  /** Delete when nothing else happens to the world; `vanishes` says that the server disappears between its
      two calls. */
  function DeleteCall(w: World, now: Time, id: string, getFault: Fault, vanishes: bool,
                      deleteFault: Fault): (World, Error)
  {
    var (w', got) := Fetch(w, now, id, getFault);
    match got
    case Failure(e) => (w', e)
    case Success(inst) =>
      if Terminating(inst.status) then (w', StillDeleting)
      else Destroy(if vanishes then Disappear(w', id) else w', id, deleteFault)
  }

  /** A launch that the cloud accepted: the server, and the cached copy of it. */
  function Launched(w: World, now: Time, id: string, server: Server): World {
    w.(servers := w.servers[id := server], cache := Remember(w.cache, now, NewInstance(id, server)))
  }

  /** UpdateLabels: the whole label set is replaced and the cached copy dropped. */
  function Update(w: World, id: string, labels: LabelMap, fault: Fault): (World, Result<()>) {
    if fault.Some? then (w, Failure(ApiFailed(fault.value)))
    else if id !in w.servers then (w, Failure(NotFound))
    else (w.(servers := Relabelled(w.servers, id, labels), cache := w.cache - {id}), Success(()))
  }

  class InstanceProvider {
    const clusterName: string
    const client: Cloud
    var instanceCache: map<string, Cached>

    function View(): World
      reads this, client
    {
      World(client.servers, client.accepted, instanceCache)
    }

    constructor (clusterName: string, client: Cloud)
      ensures this.clusterName == clusterName && this.client == client && instanceCache == map[]
    {
      this.clusterName := clusterName;
      this.client := client;
      instanceCache := map[];
    }

    method GetInstance(id: string, skipCache: bool, now: Time, fault: Fault) returns (r: Result<Instance>)
      modifies this
      ensures (View(), r) == Get(old(View()), now, id, skipCache, fault)
      ensures
        if !skipCache && id in old(instanceCache) && now <= old(instanceCache)[id].expiry then
          r == Success(old(instanceCache)[id].inst) && unchanged(this)
        else if fault.Some? then
          r == Failure(ApiFailed(fault.value)) && unchanged(this)
        else if id !in client.servers then
          r == Failure(NotFound) && instanceCache == old(instanceCache) - {id}
        else
          var s := client.servers[id];
          && r == Success(Instance(id, s.machineType, s.zone, s.status, s.createdAt, Labels.LabelsFromAPI(s.labels)))
          && instanceCache == old(instanceCache)[id := Cached(r.value, now + 60_000_000_000)]
    {
      if !skipCache {
        if id in instanceCache && now <= instanceCache[id].expiry {
          return Success(instanceCache[id].inst);
        }
      }
      var reply := client.GetServer(id, fault);
      match reply {
        case Failed(status) =>
          if status == 404 {
            instanceCache := instanceCache - {id};
            r := Failure(NotFound);
          } else {
            r := Failure(ApiFailed(status));
          }
        case Ok(server) =>
          var inst := NewInstance(id, server);
          instanceCache := instanceCache[id := Cached(inst, now + DEFAULT_TTL)];
          r := Success(inst);
      }
    }

    /** The source returns an error on every path, so there is no success to return here. The first read
        refreshes the cached copy; it is dropped when the delete is accepted or the server is gone. */
    method DeleteInstance(id: string, now: Time, getFault: Fault, vanishes: bool, deleteFault: Fault) returns (e: Error)
      modifies this, client
      ensures (View(), e) == DeleteCall(old(View()), now, id, getFault, vanishes, deleteFault)
      ensures instanceCache - {id} == old(instanceCache) - {id}
      ensures e == Requested || e == NotFound ==> id !in instanceCache
      ensures
        var alive := getFault.None? && id in old(client.servers)
          && old(client.servers)[id].status != "DELETING" && old(client.servers)[id].status != "DELETED";
        if !alive then
          && unchanged(client)
          && e == (if getFault.Some? then ApiFailed(getFault.value)
                   else if id in client.servers then StillDeleting else NotFound)
        else if deleteFault.None? && !vanishes then
          && e == Requested && client.accepted == old(client.accepted) + multiset{id}
          && client.servers == old(client.servers)[id := old(client.servers)[id].(status := "DELETING")]
        else
          && client.accepted == old(client.accepted)
          && client.servers == (if vanishes then old(client.servers) - {id} else old(client.servers))
          && e == (if deleteFault.None? then NotFound
                   else if deleteFault.value == 409 then Busy else ApiFailed(deleteFault.value))
    {
      var got := GetInstance(id, true, now, getFault);
      if got.Failure? {
        return got.error;
      }
      if Terminating(got.value.status) {
        return StillDeleting;
      }
      if vanishes {
        client.Finish(id);
      }
      var reply := client.DeleteServer(id, deleteFault);
      if reply.Failed? {
        if reply.status == 404 {
          instanceCache := instanceCache - {id};
          return NotFound;
        }
        if reply.status == 409 {
          return Busy;
        }
        return ApiFailed(reply.status);
      }
      instanceCache := instanceCache - {id};
      e := Requested;
    }

    method UpdateLabels(id: string, labels: LabelMap, fault: Fault) returns (r: Result<()>)
      modifies this, client
      ensures (View(), r) == Update(old(View()), id, labels, fault)
      ensures
        if fault.Some? || id !in old(client.servers) then
          && r == Failure(if fault.Some? then ApiFailed(fault.value) else NotFound)
          && unchanged(this) && unchanged(client)
        else
          var sent := map k | k in labels :: Labels.Text(labels[k]);
          && r == Success(()) && instanceCache == old(instanceCache) - {id}
          && client.accepted == old(client.accepted)
          && client.servers == old(client.servers)[id := old(client.servers)[id].(labels := Some(sent))]
    {
      var reply := client.UpdateServerLabels(id, labels, fault);
      if reply.Failed? {
        return Failure(if reply.status == 404 then NotFound else ApiFailed(reply.status));
      }
      instanceCache := instanceCache - {id};
      r := Success(());
    }

    /** The loop of List over the servers the cloud returned. */
    method RememberEach(ids: seq<string>, now: Time) returns (instances: seq<Instance>)
      requires forall k :: 0 <= k < |ids| ==> ids[k] in client.servers
      modifies this
      ensures |instances| == |ids|
      ensures forall k :: 0 <= k < |ids| ==> instances[k] == NewInstance(ids[k], client.servers[ids[k]])
      ensures instanceCache == RememberAll(old(instanceCache), now, instances)
    {
      instances := [];
      for i := 0 to |ids|
        invariant |instances| == i
        invariant forall k :: 0 <= k < i ==> instances[k] == NewInstance(ids[k], client.servers[ids[k]])
        invariant instanceCache == RememberAll(old(instanceCache), now, instances)
      {
        var inst := NewInstance(ids[i], client.servers[ids[i]]);
        instanceCache := instanceCache[ids[i] := Cached(inst, now + DEFAULT_TTL)];
        assert (instances + [inst])[..i] == instances;
        instances := instances + [inst];
      }
    }

    /** Every server whose managed-by label is the cluster name, and no other, each once and each as
        the cloud has it. It takes a cluster name with no ','. */
    method List(now: Time, fault: Fault) returns (r: Result<seq<Instance>>)
      modifies this
      ensures fault.Some? ==> r == Failure(ApiFailed(fault.value)) && unchanged(this)
      ensures fault.None? ==> r.Success? && Reads(r.value, client.servers)
      ensures fault.None? ==> instanceCache == RememberAll(old(instanceCache), now, r.value)
      ensures fault.None? && ',' !in clusterName ==>
        forall id :: Listed(r.value, id) <==>
          && id in client.servers
          && var labels := Labels.LabelsFromAPI(client.servers[id].labels);
             Labels.MANAGED_BY in labels && labels[Labels.MANAGED_BY] == clusterName
      ensures r.Success? ==> forall i :: 0 <= i < |r.value| ==>
        && r.value[i].id in client.servers
        && var s := client.servers[r.value[i].id];
           r.value[i] == Instance(r.value[i].id, s.machineType, s.zone, s.status, s.createdAt,
                                  Labels.LabelsFromAPI(s.labels))
    {
      var filter := map[Labels.MANAGED_BY := clusterName];
      var selector := Labels.LabelSelector(filter);
      var reply := client.ListServers(selector, fault);
      if reply.Failed? {
        return Failure(ApiFailed(reply.status));
      }
      var ids := reply.value;
      assert forall k :: 0 <= k < |ids| ==> ids[k] in ids;
      var instances := RememberEach(ids, now);
      r := Success(instances);
      ListedIds(instances, ids);
      if ',' !in clusterName {
        ManagedSelector(selector, clusterName);
        assert forall id :: Listed(instances, id) <==>
          id in client.servers && ManagedBy(client.servers[id], clusterName);
      }
    }
  }

  /** Instances as the cloud has them, no server twice. */
  predicate Reads(instances: seq<Instance>, servers: map<string, Server>) {
    && (forall i :: 0 <= i < |instances| ==>
          instances[i].id in servers && instances[i] == NewInstance(instances[i].id, servers[instances[i].id]))
    && (forall i, j :: 0 <= i < j < |instances| ==> instances[i].id != instances[j].id)
  }

  function RememberAll(cache: map<string, Cached>, now: Time, instances: seq<Instance>): map<string, Cached> {
    if instances == [] then cache
    else Remember(RememberAll(cache, now, instances[..|instances| - 1]), now, instances[|instances| - 1])
  }

  /** A listing refreshes the entry of every server it returned and touches no other. */
  lemma {:induction false} ListingRefreshes(cache: map<string, Cached>, now: Time, instances: seq<Instance>, id: string)
    requires forall i, j :: 0 <= i < j < |instances| ==> instances[i].id != instances[j].id
    ensures var cache' := RememberAll(cache, now, instances);
            && (forall i :: 0 <= i < |instances| && instances[i].id == id ==>
                  id in cache' && cache'[id] == Cached(instances[i], now + 60_000_000_000))
            && (!Listed(instances, id) ==> (id in cache' <==> id in cache) && (id in cache ==> cache'[id] == cache[id]))
  {
    if instances != [] {
      var init := instances[..|instances| - 1];
      ListingRefreshes(cache, now, init, id);
      assert forall i :: 0 <= i < |init| ==> init[i] == instances[i];
      assert Listed(init, id) ==> Listed(instances, id);
      assert instances[|instances| - 1].id == id ==> Listed(instances, id);
    }
  }

  lemma ListedIds(instances: seq<Instance>, ids: seq<string>)
    requires |instances| == |ids| && forall i :: 0 <= i < |ids| ==> instances[i].id == ids[i]
    ensures forall id :: Listed(instances, id) <==> id in ids
  {
    forall id | id in ids ensures Listed(instances, id) {
      var i :| 0 <= i < |ids| && ids[i] == id;
      assert instances[i].id == id;
    }
  }

  // ---------------------------------------------------------------- which servers List sees

  predicate Listed(instances: seq<Instance>, id: string) {
    exists i :: 0 <= i < |instances| && instances[i].id == id
  }

  predicate ManagedBy(s: Server, clusterName: string) {
    var labels := Labels.LabelsFromAPI(s.labels);
    Labels.MANAGED_BY in labels && labels[Labels.MANAGED_BY] == clusterName
  }

  lemma ManagedSelector(selector: string, clusterName: string)
    requires Labels.IsSelector(selector, map[Labels.MANAGED_BY := clusterName]) && ',' !in clusterName
    ensures Labels.ParseSelector(selector) == map[Labels.MANAGED_BY := clusterName]
    ensures forall s: Server :: Matches(s, Labels.ParseSelector(selector)) <==> ManagedBy(s, clusterName)
  {
    var m := map[Labels.MANAGED_BY := clusterName];
    ManagedByIsPlain();
    Labels.SelectorRoundTrip(selector, m);
    forall s: Server ensures Matches(s, m) <==> ManagedBy(s, clusterName) {
      MatchesOne(s, clusterName);
    }
  }

  lemma ManagedByIsPlain()
    ensures ',' !in Labels.MANAGED_BY && '=' !in Labels.MANAGED_BY
  {
  }

  lemma MatchesOne(s: Server, clusterName: string)
    ensures Matches(s, map[Labels.MANAGED_BY := clusterName]) <==> ManagedBy(s, clusterName)
  {
  }

  /** A ',' in the cluster name, which no option check rejects, hides every server of the cluster from
      its own List: the value the API reads out of the selector is never the name. */
  lemma CommaHidesEveryServer(selector: string, clusterName: string, s: Server)
    requires Labels.IsSelector(selector, map[Labels.MANAGED_BY := clusterName]) && ',' in clusterName
    requires ManagedBy(s, clusterName)
    ensures !Matches(s, Labels.ParseSelector(selector))
  {
    var m := map[Labels.MANAGED_BY := clusterName];
    var ks :| Labels.EnumeratesSorted(ks, m) && selector == Labels.Join(Labels.Parts(ks, m));
    Labels.SortedUnique(ks, [Labels.MANAGED_BY]);
    assert selector == Labels.MANAGED_BY + "=" + clusterName;
    FirstPartNamesManagedBy(selector, clusterName);
    Labels.SplitParts(selector, ',');
    Labels.ParsedIsSelectable(Labels.Split(selector, ','));
  }

  /** Whatever follows, the first key of a selector is read back. */
  lemma FirstPart(key: string, value: string)
    requires ',' !in key && '=' !in key
    ensures key in Labels.ParseSelector(key + "=" + value)
  {
    var selector := key + "=" + value;
    var (before, after) := Labels.Cut(value, ',');
    if after.Some? {
      assert selector == (key + "=" + before) + [','] + after.value;
      Labels.CutAt(key + "=" + before, ',', after.value);
    } else {
      assert ',' !in selector;
      Labels.CutNone(selector, ',');
    }
    var parts := Labels.Split(selector, ',');
    assert parts[0] == key + ['='] + before;
    Labels.CutAt(key, '=', before);
  }

  lemma FirstPartNamesManagedBy(selector: string, clusterName: string)
    requires selector == Labels.MANAGED_BY + "=" + clusterName
    ensures Labels.MANAGED_BY in Labels.ParseSelector(selector)
  {
    ManagedByIsPlain();
    FirstPart(Labels.MANAGED_BY, clusterName);
  }
}
