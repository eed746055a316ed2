/** The machine type catalog, the instance types cached from it and the memory observed on real nodes
    (pkg/providers/instancetype/instancetype.go). */
module Catalog {
  import opened Options
  import opened Availability
  import Pricing

  const HOUR: Time := 60 * MINUTE
  const DISCOVERED_CAPACITY_TTL: Time := 60 * 24 * HOUR

  type Machine = Pricing.MachineTypeSpec

  /** What the instance type cache is keyed by: everything the resolver reads off a NodeClass. */
  datatype ClassKey = ClassKey(zones: set<string>, bootVolumeGB: int, kubelet: string)

  datatype NodeClass = NodeClass(zones: seq<string>, bootVolumeGB: int, kubelet: string)

  function CacheKey(c: NodeClass): ClassKey {
    ClassKey((set z | z in c.zones), c.bootVolumeGB, c.kubelet)
  }

  datatype InstanceType = InstanceType(machine: Machine, memory: int)

  /** The estimated memory of a machine type under a NodeClass. */
  type Resolver = (Machine, ClassKey) -> int

  datatype Listed = Listed(types: set<InstanceType>, expiry: Time)

  datatype DiscoveryKey = DiscoveryKey(machineType: string, bootVolumeGB: int)

  datatype Discovered = Discovered(memory: int, expiry: Time)

  /** `seen` is the last listing the change monitor remembers, which compares listings as sets. */
  datatype State = State(
    machineTypes: map<string, Machine>,
    lists: map<ClassKey, Listed>,
    seen: Option<set<Machine>>,
    discovered: map<DiscoveryKey, Discovered>)

  const EMPTY := State(map[], map[], None, map[])

  function Elements(listing: seq<Machine>): set<Machine> {
    set m | m in listing
  }

  /** Of two machines with one name the later wins. */
  function ByName(listing: seq<Machine>): (r: map<string, Machine>)
    ensures forall m :: m in listing ==> m.name in r
    ensures forall n :: n in r ==> r[n].name == n && r[n] in listing
  {
    if listing == [] then map[]
    else
      var last := listing[|listing| - 1];
      assert listing == listing[..|listing| - 1] + [last];
      ByName(listing[..|listing| - 1])[last.name := last]
  }

  lemma {:induction false} LaterSpecWins(listing: seq<Machine>, i: nat)
    requires i < |listing| && forall j :: i < j < |listing| ==> listing[j].name != listing[i].name
    ensures listing[i].name in ByName(listing) && ByName(listing)[listing[i].name] == listing[i]
  {
    if i < |listing| - 1 {
      LaterSpecWins(listing[..|listing| - 1], i);
    }
  }

  // ---------------------------------------------------------------- the operations

  /** None is a failed listing; that and an empty one are errors. */
  function Update(s: State, listing: Option<seq<Machine>>): (State, bool) {
    if listing.None? || listing.value == [] then (s, false)
    else
      var changed := s.seen != Some(Elements(listing.value));
      (s.(machineTypes := ByName(listing.value),
          lists := if changed then map[] else s.lists,
          seen := Some(Elements(listing.value))), true)
  }

  /** A refresh that worked leaves exactly the listed names, each with its last spec. The lists survive it exactly
      when the set of machines listed is the remembered one. */
  lemma UpdateMeaning(s: State, listing: seq<Machine>)
    requires listing != []
    ensures var (s', ok) := Update(s, Some(listing));
      && ok && s'.seen == Some(set m | m in listing) && s'.discovered == s.discovered
      && s'.lists == (if s.seen == s'.seen then s.lists else map[])
      && (forall n :: n in s'.machineTypes <==> exists m :: m in listing && m.name == n)
      && (forall i :: 0 <= i < |listing| ==>
            var m := listing[i];
            (forall j :: i < j < |listing| ==> listing[j].name != m.name) ==> s'.machineTypes[m.name] == m)
  {
    forall i | 0 <= i < |listing| && forall j :: i < j < |listing| ==> listing[j].name != listing[i].name
      ensures ByName(listing)[listing[i].name] == listing[i]
    {
      LaterSpecWins(listing, i);
    }
  }

  /** The memory seen on real nodes comes before the estimate, while it lasts. */
  function Memory(s: State, now: Time, m: Machine, key: ClassKey, estimate: int): int {
    var d := DiscoveryKey(m.name, key.bootVolumeGB);
    if d in s.discovered && now <= s.discovered[d].expiry then s.discovered[d].memory else estimate
  }

  function ResolveOne(s: State, now: Time, m: Machine, key: ClassKey, resolve: Resolver): InstanceType {
    InstanceType(m, Memory(s, now, m, key, resolve(m, key)))
  }

  /** The instance types of some names of the catalog. */
  function ResolvedOf(s: State, names: set<string>, now: Time, key: ClassKey, resolve: Resolver): set<InstanceType>
    requires names <= s.machineTypes.Keys
  {
    set n | n in names :: ResolveOne(s, now, s.machineTypes[n], key, resolve)
  }

  lemma ResolvedOneMore(s: State, names: set<string>, n: string, now: Time, key: ClassKey, resolve: Resolver)
    requires names <= s.machineTypes.Keys && n in s.machineTypes
    ensures ResolvedOf(s, names + {n}, now, key, resolve)
         == ResolvedOf(s, names, now, key, resolve) + {ResolveOne(s, now, s.machineTypes[n], key, resolve)}
  {
  }

  function Resolved(s: State, now: Time, key: ClassKey, resolve: Resolver): set<InstanceType> {
    ResolvedOf(s, s.machineTypes.Keys, now, key, resolve)
  }

  function List(s: State, now: Time, c: NodeClass, resolve: Resolver): (State, Option<set<InstanceType>>) {
    var key := CacheKey(c);
    if s.machineTypes == map[] || c.zones == [] then (s, None)
    else if key in s.lists && now <= s.lists[key].expiry then (s, Some(s.lists[key].types))
    else
      var types := Resolved(s, now, key, resolve);
      (s.(lists := s.lists[key := Listed(types, now + OFFERINGS_TTL)]), Some(types))
  }

  /** A live list is returned as it is; otherwise every machine of the catalog is listed anew, with the memory seen
      on a real node while that is remembered and with the estimate after, and the list is kept for five minutes
      under everything the resolver reads off the NodeClass. */
  lemma ListMeaning(s: State, now: Time, c: NodeClass, resolve: Resolver)
    ensures var (s', types) := List(s, now, c, resolve);
      var key := ClassKey((set z | z in c.zones), c.bootVolumeGB, c.kubelet);
      if s.machineTypes == map[] || c.zones == [] then types.None? && s' == s
      else if key in s.lists && now <= s.lists[key].expiry then types == Some(s.lists[key].types) && s' == s
      else
        && types.Some? && s' == s.(lists := s.lists[key := Listed(types.value, now + 300_000_000_000)])
        && (forall t :: t in types.value <==> exists n ::
              && n in s.machineTypes && t.machine == s.machineTypes[n]
              && var d := DiscoveryKey(t.machine.name, c.bootVolumeGB);
                 t.memory == if d in s.discovered && now <= s.discovered[d].expiry
                             then s.discovered[d].memory else resolve(t.machine, key))
  {
    var types := Resolved(s, now, CacheKey(c), resolve);
    forall t ensures t in types <==> exists n :: n in s.machineTypes
                                        && t == ResolveOne(s, now, s.machineTypes[n], CacheKey(c), resolve)
    {
    }
  }

  predicate Finds(s: State, d: DiscoveryKey, at: Time) {
    d in s.discovered && at <= s.discovered[d].expiry
  }

  /** The two halves of an observation: the decision, from what the cache shows, and the write. */
  predicate WouldStore(s: State, now: Time, d: DiscoveryKey, memory: int) {
    !(Finds(s, d, now) && memory > s.discovered[d].memory)
  }

  function StoreMemory(s: State, now: Time, d: DiscoveryKey, memory: int): State {
    s.(discovered := s.discovered[d := Discovered(memory, now + DISCOVERED_CAPACITY_TTL)])
  }

  /** The smallest value wins; a larger one does not even refresh the entry. */
  function Observe(s: State, now: Time, d: DiscoveryKey, memory: int): State {
    if WouldStore(s, now, d, memory) then StoreMemory(s, now, d, memory) else s
  }

  function Reset(s: State): State {
    s.(machineTypes := map[], lists := map[], discovered := map[])
  }

  class InstanceTypeProvider {
    var machineTypes: map<string, Machine>
    var instanceTypesCache: map<ClassKey, Listed>
    var seen: Option<set<Machine>>
    var discoveredCapacityCache: map<DiscoveryKey, Discovered>
    const resolve: Resolver

    function View(): State
      reads this
    {
      State(machineTypes, instanceTypesCache, seen, discoveredCapacityCache)
    }

    ghost predicate Valid()
      reads this
    {
      Coherent(View())
    }

    constructor (resolve: Resolver)
      ensures Valid() && View() == EMPTY && this.resolve == resolve
    {
      machineTypes := map[];
      instanceTypesCache := map[];
      seen := None;
      discoveredCapacityCache := map[];
      this.resolve := resolve;
    }

    method UpdateMachineTypes(listing: Option<seq<Machine>>) returns (ok: bool)
      requires Valid()
      modifies this
      ensures Valid() && (View(), ok) == Update(old(View()), listing)
      ensures ok <==> listing.Some? && listing.value != []
      ensures !ok ==> unchanged(this)
      ensures ok ==> seen == Some(set m | m in listing.value)
      ensures ok ==> instanceTypesCache == if old(seen) == seen then old(instanceTypesCache) else map[]
      ensures unchanged(this`discoveredCapacityCache)
    {
      if listing.None? || listing.value == [] {
        return false;
      }
      CoherentUpdate(View(), listing.value);
      var all := listing.value;
      var byName := SliceToMap(all);
      var changed := HasChanged(all);
      if changed {
        instanceTypesCache := map[];
      }
      machineTypes := byName;
      ok := true;
    }

    method HasChanged(all: seq<Machine>) returns (changed: bool)
      modifies this`seen
      ensures changed == (old(seen) != Some(Elements(all))) && seen == Some(Elements(all))
    {
      var listed := Elements(all);
      changed := seen != Some(listed);
      seen := Some(listed);
    }

    static method SliceToMap(all: seq<Machine>) returns (byName: map<string, Machine>)
      ensures byName == ByName(all)
    {
      byName := map[];
      for i := 0 to |all|
        invariant byName == ByName(all[..i])
      {
        assert all[..i + 1][..i] == all[..i];
        byName := byName[all[i].name := all[i]];
      }
      assert all[..|all|] == all;
    }

    method ResolveAll(key: ClassKey, now: Time) returns (found: set<InstanceType>)
      ensures found == Resolved(View(), now, key, resolve)
    {
      ghost var s := View();
      var names := machineTypes.Keys;
      ghost var done: set<string> := {};
      found := {};
      while names != {}
        invariant names + done == machineTypes.Keys
        invariant found == ResolvedOf(s, done, now, key, resolve)
        decreases |names|
      {
        var n :| n in names;
        var machine := machineTypes[n];
        var memory := resolve(machine, key);
        var d := DiscoveryKey(machine.name, key.bootVolumeGB);
        if d in discoveredCapacityCache && now <= discoveredCapacityCache[d].expiry {
          memory := discoveredCapacityCache[d].memory;
        }
        ResolvedOneMore(s, done, n, now, key, resolve);
        found := found + {InstanceType(machine, memory)};
        names := names - {n};
        done := done + {n};
      }
      assert done == machineTypes.Keys;
    }

    /** The names listed are those of the catalog, from the cache or not. */
    method ListInstanceTypes(c: NodeClass, now: Time) returns (types: Option<set<InstanceType>>)
      requires Valid()
      modifies this
      ensures Valid() && (View(), types) == List(old(View()), now, c, resolve)
      ensures types.Some? ==> Names(types.value) == machineTypes.Keys
    {
      CoherentStep(View(), ListOp(c, now), resolve);
      if machineTypes == map[] || c.zones == [] {
        return None;
      }
      var key := CacheKey(c);
      if key in instanceTypesCache && now <= instanceTypesCache[key].expiry {
        return Some(instanceTypesCache[key].types);
      }
      var found := ResolveAll(key, now);
      instanceTypesCache := instanceTypesCache[key := Listed(found, now + OFFERINGS_TTL)];
      types := Some(found);
    }

    /** `instanceType` is the node's label; a node without it tells nothing. */
    method UpdateInstanceTypeCapacityFromNode(instanceType: Option<string>, memory: int, c: NodeClass, now: Time)
      requires Valid()
      modifies this
      ensures Valid()
      ensures View() == if instanceType.None? then old(View())
                        else Observe(old(View()), now, DiscoveryKey(instanceType.value, c.bootVolumeGB), memory)
      ensures unchanged(this`machineTypes, this`instanceTypesCache, this`seen)
      ensures
        if instanceType.None? then unchanged(this)
        else
          var d, before := DiscoveryKey(instanceType.value, c.bootVolumeGB), old(discoveredCapacityCache);
          if d in before && now <= before[d].expiry && before[d].memory < memory then unchanged(this)
          else discoveredCapacityCache == before[d := Discovered(memory, now + 5_184_000_000_000_000)]
    {
      if instanceType.None? {
        return;
      }
      var d := DiscoveryKey(instanceType.value, c.bootVolumeGB);
      var found := d in discoveredCapacityCache && now <= discoveredCapacityCache[d].expiry;
      if found && memory > discoveredCapacityCache[d].memory {
        return;
      }
      discoveredCapacityCache := discoveredCapacityCache[d := Discovered(memory, now + DISCOVERED_CAPACITY_TTL)];
    }

    method Drop()
      modifies this
      ensures Valid() && View() == Reset(old(View()))
      ensures machineTypes == map[] && instanceTypesCache == map[] && discoveredCapacityCache == map[]
      ensures unchanged(this`seen)
    {
      machineTypes := map[];
      instanceTypesCache := map[];
      discoveredCapacityCache := map[];
    }
  }

  // ---------------------------------------------------------------- runs

  /** What can happen to the provider. `Forget` is the change monitor's own expiry, the other two the
      caches' janitors. */
  datatype Op =
    | UpdateOp(listing: Option<seq<Machine>>)
    | ListOp(c: NodeClass, at: Time)
    | ObserveOp(key: DiscoveryKey, memory: int, at: Time)
    | ResetOp
    | Forget
    | ExpireList(class_: ClassKey)
    | ExpireDiscovered(key: DiscoveryKey, at: Time)

  function Step(s: State, op: Op, resolve: Resolver): State {
    match op
    case UpdateOp(listing) => Update(s, listing).0
    case ListOp(c, at) => List(s, at, c, resolve).0
    case ObserveOp(key, memory, at) => Observe(s, at, key, memory)
    case ResetOp => Reset(s)
    case Forget => s.(seen := None)
    case ExpireList(key) => s.(lists := s.lists - {key})
    case ExpireDiscovered(key, at) =>
      if key in s.discovered && s.discovered[key].expiry < at then s.(discovered := s.discovered - {key}) else s
  }

  /** The steps of a run are the provider's operations, and what expires goes alone. */
  lemma StepsAreOperations(s: State, listing: Option<seq<Machine>>, c: NodeClass, at: Time, d: DiscoveryKey,
                           memory: int, key: ClassKey, resolve: Resolver)
    ensures Step(s, UpdateOp(listing), resolve) == Update(s, listing).0
    ensures Step(s, ListOp(c, at), resolve) == List(s, at, c, resolve).0
    ensures Step(s, ObserveOp(d, memory, at), resolve) ==
      if d in s.discovered && at <= s.discovered[d].expiry && s.discovered[d].memory < memory then s
      else s.(discovered := s.discovered[d := Discovered(memory, at + 5_184_000_000_000_000)])
    ensures Step(s, ResetOp, resolve) == State(map[], map[], s.seen, map[])
    ensures Step(s, Forget, resolve) == State(s.machineTypes, s.lists, None, s.discovered)
    ensures Step(s, ExpireList(key), resolve) == s.(lists := s.lists - {key})
    ensures d in s.discovered && s.discovered[d].expiry < at ==>
      Step(s, ExpireDiscovered(d, at), resolve) == s.(discovered := s.discovered - {d})
  {
  }

  function After(s: State, ops: seq<Op>, resolve: Resolver): State {
    if ops == [] then s else Step(After(s, ops[..|ops| - 1], resolve), ops[|ops| - 1], resolve)
  }

  function Names(types: set<InstanceType>): set<string> {
    set t | t in types :: t.machine.name
  }

  function Machines(types: set<InstanceType>): set<Machine> {
    set t | t in types :: t.machine
  }

  predicate BuiltFrom(machineTypes: map<string, Machine>, seen: Option<set<Machine>>, listing: seq<Machine>) {
    seen == Some(Elements(listing)) && machineTypes == ByName(listing)
  }

  lemma SameNames(other: seq<Machine>, listing: seq<Machine>)
    requires Elements(other) == Elements(listing)
    ensures ByName(other).Keys == ByName(listing).Keys
  {
    forall n | n in ByName(other)
      ensures n in ByName(listing)
    {
      assert ByName(other)[n] in Elements(listing);
    }
    forall n | n in ByName(listing)
      ensures n in ByName(other)
    {
      assert ByName(listing)[n] in Elements(other);
    }
  }

  /** Every cached list names the catalog, and the catalog is the listing the monitor remembers. */
  ghost predicate Coherent(s: State) {
    && (forall n :: n in s.machineTypes ==> s.machineTypes[n].name == n)
    && (s.machineTypes == map[] ==> s.lists == map[])
    && (s.machineTypes != map[] && s.seen.Some? ==> exists l :: BuiltFrom(s.machineTypes, s.seen, l))
    && (forall k :: k in s.lists ==> Names(s.lists[k].types) == s.machineTypes.Keys)
  }

  lemma ResolvedNames(s: State, now: Time, key: ClassKey, resolve: Resolver)
    requires forall n :: n in s.machineTypes ==> s.machineTypes[n].name == n
    ensures Names(Resolved(s, now, key, resolve)) == s.machineTypes.Keys
    ensures Machines(Resolved(s, now, key, resolve)) == s.machineTypes.Values
  {
    var types := Resolved(s, now, key, resolve);
    forall n | n in s.machineTypes
      ensures n in Names(types) && s.machineTypes[n] in Machines(types)
    {
      assert ResolveOne(s, now, s.machineTypes[n], key, resolve) in types;
    }
  }

  lemma CatalogNames(machineTypes: map<string, Machine>, seen: Option<set<Machine>>, listing: seq<Machine>)
    requires exists l :: BuiltFrom(machineTypes, seen, l)
    requires seen == Some(Elements(listing))
    ensures machineTypes.Keys == ByName(listing).Keys
  {
    var l :| BuiltFrom(machineTypes, seen, l);
    SameNames(listing, l);
  }

  lemma CoherentUpdate(s: State, listing: seq<Machine>)
    requires Coherent(s) && listing != []
    ensures Coherent(Update(s, Some(listing)).0)
  {
    assert listing[0] in listing && listing[0].name in ByName(listing);
    assert BuiltFrom(ByName(listing), Some(Elements(listing)), listing);
    if s.machineTypes != map[] && s.seen == Some(Elements(listing)) {
      CatalogNames(s.machineTypes, s.seen, listing);
    } else {
      assert Update(s, Some(listing)).0.lists == map[];
    }
  }

  lemma CoherentStep(s: State, op: Op, resolve: Resolver)
    requires Coherent(s)
    ensures Coherent(Step(s, op, resolve))
    ensures op.ListOp? && List(s, op.at, op.c, resolve).1.Some? ==>
      Names(List(s, op.at, op.c, resolve).1.value) == s.machineTypes.Keys
  {
    match op
    case UpdateOp(listing) =>
      if listing.Some? && listing.value != [] {
        CoherentUpdate(s, listing.value);
      }
    case ListOp(c, at) =>
      ResolvedNames(s, at, CacheKey(c), resolve);
    case _ =>
  }

  /** After any run of refreshes, failed refreshes, listings, observations, resets and expiries, a listed result
      names exactly the machine types of the current catalog, served from the cache or rebuilt. */
  lemma {:induction false} ListedNamesAreTheCatalog(ops: seq<Op>, c: NodeClass, now: Time, resolve: Resolver)
    ensures Coherent(After(EMPTY, ops, resolve))
    ensures var s := After(EMPTY, ops, resolve);
      && (List(s, now, c, resolve).1.None? <==> s.machineTypes == map[] || c.zones == [])
      && (List(s, now, c, resolve).1.Some? ==> Names(List(s, now, c, resolve).1.value) == s.machineTypes.Keys)
  {
    if ops != [] {
      ListedNamesAreTheCatalog(ops[..|ops| - 1], c, now, resolve);
      CoherentStep(After(EMPTY, ops[..|ops| - 1], resolve), ops[|ops| - 1], resolve);
    }
    CoherentStep(After(EMPTY, ops, resolve), ListOp(c, now), resolve);
  }

  // ---------------------------------------------------------------- the machines behind the names

  predicate OneSpecPerName(machines: set<Machine>) {
    forall a, b :: a in machines && b in machines && a.name == b.name ==> a == b
  }

  predicate WellListed(op: Op) {
    op.UpdateOp? && op.listing.Some? ==> OneSpecPerName(Elements(op.listing.value))
  }

  /** The monitor's test for change looks at the set of machines, the catalog is built in listing order: the
      set determines the catalog exactly when no name is listed with two specs. */
  lemma SetDecidesCatalogIff(listing: seq<Machine>)
    ensures OneSpecPerName(Elements(listing)) <==>
      forall other: seq<Machine> :: Elements(other) == Elements(listing) ==> ByName(other) == ByName(listing)
  {
    if OneSpecPerName(Elements(listing)) {
      forall other: seq<Machine> | Elements(other) == Elements(listing)
        ensures ByName(other) == ByName(listing)
      {
        SameElements(other, listing);
      }
    } else {
      var other := TwoSpecsTwoCatalogs(listing);
    }
  }

  lemma TwoSpecsTwoCatalogs(listing: seq<Machine>) returns (other: seq<Machine>)
    requires !OneSpecPerName(Elements(listing))
    ensures Elements(other) == Elements(listing) && ByName(other) != ByName(listing)
  {
    var a, b :| a in listing && b in listing && a.name == b.name && a != b;
    RepeatedLast(listing, a);
    RepeatedLast(listing, b);
    other := listing + [if ByName(listing + [a]) != ByName(listing) then a else b];
  }

  lemma RepeatedLast(listing: seq<Machine>, a: Machine)
    requires a in listing
    ensures Elements(listing + [a]) == Elements(listing)
    ensures a.name in ByName(listing + [a]) && ByName(listing + [a])[a.name] == a
  {
    assert (listing + [a])[..|listing|] == listing;
  }

  lemma SameElements(other: seq<Machine>, listing: seq<Machine>)
    requires OneSpecPerName(Elements(listing)) && Elements(other) == Elements(listing)
    ensures ByName(other) == ByName(listing)
  {
    SameNames(other, listing);
    forall n | n in ByName(other)
      ensures ByName(other)[n] == ByName(listing)[n]
    {
      SameSpec(other, listing, n);
    }
  }

  lemma SameSpec(other: seq<Machine>, listing: seq<Machine>, n: string)
    requires OneSpecPerName(Elements(listing)) && Elements(other) == Elements(listing)
    requires n in ByName(other) && n in ByName(listing)
    ensures ByName(other)[n] == ByName(listing)[n]
  {
    var a, b := ByName(other)[n], ByName(listing)[n];
    assert a in Elements(other) && b in Elements(listing);
  }

  /** Every cached list was built from the specs that the catalog has now. */
  ghost predicate Exact(s: State) {
    && Coherent(s)
    && (s.machineTypes != map[] && s.seen.Some? ==> OneSpecPerName(s.seen.value))
    && (forall k :: k in s.lists ==> Machines(s.lists[k].types) == s.machineTypes.Values)
  }

  lemma ExactStep(s: State, op: Op, resolve: Resolver)
    requires Exact(s) && WellListed(op)
    ensures Exact(Step(s, op, resolve))
    ensures op.ListOp? && List(s, op.at, op.c, resolve).1.Some? ==>
      Machines(List(s, op.at, op.c, resolve).1.value) == s.machineTypes.Values
  {
    match op
    case UpdateOp(listing) =>
      if listing.Some? && listing.value != [] {
        ExactUpdate(s, listing.value, resolve);
      }
    case ListOp(c, at) =>
      ExactList(s, c, at, resolve);
    case _ =>
  }

  lemma ExactList(s: State, c: NodeClass, at: Time, resolve: Resolver)
    requires Exact(s)
    ensures Exact(List(s, at, c, resolve).0)
    ensures List(s, at, c, resolve).1.Some? ==> Machines(List(s, at, c, resolve).1.value) == s.machineTypes.Values
  {
    ResolvedNames(s, at, CacheKey(c), resolve);
  }

  lemma ExactUpdate(s: State, listing: seq<Machine>, resolve: Resolver)
    requires Exact(s) && OneSpecPerName(Elements(listing)) && listing != []
    ensures Exact(Update(s, Some(listing)).0)
  {
    CoherentStep(s, UpdateOp(Some(listing)), resolve);
    if s.machineTypes != map[] && s.seen == Some(Elements(listing)) {
      SameCatalog(s.machineTypes, s.seen, listing);
    } else {
      assert Update(s, Some(listing)).0.lists == map[];
    }
  }

  lemma SameCatalog(machineTypes: map<string, Machine>, seen: Option<set<Machine>>, listing: seq<Machine>)
    requires exists l :: BuiltFrom(machineTypes, seen, l)
    requires OneSpecPerName(Elements(listing)) && seen == Some(Elements(listing))
    ensures machineTypes == ByName(listing)
  {
    var l :| BuiltFrom(machineTypes, seen, l);
    SameElements(l, listing);
  }

  /** When no listing gives a name two specs, a listed result is also built from the current spec of every
      machine type, however old the cached list. */
  lemma {:induction false} ListedMachinesAreTheCatalog(ops: seq<Op>, c: NodeClass, now: Time, resolve: Resolver)
    requires forall op :: op in ops ==> WellListed(op)
    ensures Exact(After(EMPTY, ops, resolve))
    ensures var s := After(EMPTY, ops, resolve);
      List(s, now, c, resolve).1.Some? ==> Machines(List(s, now, c, resolve).1.value) == s.machineTypes.Values
  {
    if ops != [] {
      ListedMachinesAreTheCatalog(ops[..|ops| - 1], c, now, resolve);
      ExactStep(After(EMPTY, ops[..|ops| - 1], resolve), ops[|ops| - 1], resolve);
    }
    ExactStep(After(EMPTY, ops, resolve), ListOp(c, now), resolve);
  }

  predicate Relists(op: Op, machines: set<Machine>) {
    op.UpdateOp? && op.listing.Some? ==> Elements(op.listing.value) == machines
  }

  /** The run that goes wrong: the same machines in another order, which the monitor takes for no change. */
  lemma StaleRun(listing: seq<Machine>, other: seq<Machine>, c: NodeClass, now: Time, resolve: Resolver)
    returns (ops: seq<Op>)
    requires listing != [] && c.zones != []
    requires Elements(other) == Elements(listing) && ByName(other) != ByName(listing)
    ensures forall op :: op in ops ==> Relists(op, Elements(listing))
    ensures var s := After(EMPTY, ops, resolve);
      && s.machineTypes == ByName(other)
      && List(s, now, c, resolve).1.Some?
      && Machines(List(s, now, c, resolve).1.value) == ByName(listing).Values != s.machineTypes.Values
  {
    ops := [UpdateOp(Some(listing)), ListOp(c, now), UpdateOp(Some(other))];
    AfterThree(ops[0], ops[1], ops[2], resolve);
    assert listing[0] in Elements(other) && other != [];
    SameNames(other, listing);
    DifferentValues(other, listing);
    ListedOnce(listing, c, now, resolve);
    var s2 := List(Update(EMPTY, Some(listing)).0, now, c, resolve).0;
    assert After(EMPTY, ops, resolve) == s2.(machineTypes := ByName(other));
    assert listing[0].name in ByName(other);
  }

  /** A list cached from a first listing. */
  lemma ListedOnce(listing: seq<Machine>, c: NodeClass, now: Time, resolve: Resolver)
    requires listing != [] && c.zones != []
    ensures var s := List(Update(EMPTY, Some(listing)).0, now, c, resolve).0;
      && s.machineTypes == ByName(listing) && s.seen == Some(Elements(listing)) && s.machineTypes != map[]
      && CacheKey(c) in s.lists && s.lists[CacheKey(c)].expiry == now + OFFERINGS_TTL
      && Machines(s.lists[CacheKey(c)].types) == ByName(listing).Values
  {
    var s := Update(EMPTY, Some(listing)).0;
    assert listing[0] in listing && listing[0].name in ByName(listing);
    ResolvedNames(s, now, CacheKey(c), resolve);
  }

  lemma AfterThree(op1: Op, op2: Op, op3: Op, resolve: Resolver)
    ensures After(EMPTY, [op1, op2, op3], resolve) == Step(Step(Step(EMPTY, op1, resolve), op2, resolve), op3, resolve)
  {
    assert [op1, op2, op3][..2] == [op1, op2] && [op1, op2][..1] == [op1] && [op1][..0] == [];
    assert After(EMPTY, [op1], resolve) == Step(EMPTY, op1, resolve);
    assert After(EMPTY, [op1, op2], resolve) == Step(Step(EMPTY, op1, resolve), op2, resolve);
  }

  lemma DifferentValues(other: seq<Machine>, listing: seq<Machine>)
    requires ByName(other).Keys == ByName(listing).Keys && ByName(other) != ByName(listing)
    ensures ByName(other).Values != ByName(listing).Values
  {
    var n :| n in ByName(other) && ByName(other)[n] != ByName(listing)[n];
    assert ByName(other)[n] in ByName(other).Values;
    assert ByName(other)[n] !in ByName(listing).Values;
  }

  predicate ListsCurrentSpecs(s: State, now: Time, c: NodeClass, resolve: Resolver) {
    List(s, now, c, resolve).1.Some? ==> Machines(List(s, now, c, resolve).1.value) == s.machineTypes.Values
  }

  /** As long as refreshes keep finding the same machines, listed results are built from the current specs in
      every run if and only if no name among them has two specs. */
  lemma CurrentSpecsIff(listing: seq<Machine>, c: NodeClass, now: Time, resolve: Resolver)
    requires listing != [] && c.zones != []
    ensures OneSpecPerName(Elements(listing)) <==>
      forall ops: seq<Op> :: (forall op :: op in ops ==> Relists(op, Elements(listing))) ==>
        ListsCurrentSpecs(After(EMPTY, ops, resolve), now, c, resolve)
  {
    if OneSpecPerName(Elements(listing)) {
      forall ops: seq<Op> | forall op :: op in ops ==> Relists(op, Elements(listing))
        ensures ListsCurrentSpecs(After(EMPTY, ops, resolve), now, c, resolve)
      {
        ListedMachinesAreTheCatalog(ops, c, now, resolve);
      }
    } else {
      var other := TwoSpecsTwoCatalogs(listing);
      var ops := StaleRun(listing, other, c, now, resolve);
      assert !ListsCurrentSpecs(After(EMPTY, ops, resolve), now, c, resolve);
    }
  }

  // ---------------------------------------------------------------- discovered memory

  datatype Observation = Observation(memory: int, at: Time)

  /** The observations of `d` in a run since the last one that found no live entry. */
  function Era(ops: seq<Op>, d: DiscoveryKey, resolve: Resolver): seq<Observation> {
    if ops == [] then []
    else
      var before, op := ops[..|ops| - 1], ops[|ops| - 1];
      var s := After(EMPTY, before, resolve);
      if op.ObserveOp? && op.key == d then
        if Finds(s, d, op.at) then Era(before, d, resolve) + [Observation(op.memory, op.at)]
        else [Observation(op.memory, op.at)]
      else Era(before, d, resolve)
  }

  /** The entry holds the era's minimum and expires the TTL after position `i`, where that minimum was observed
      for the last time. */
  predicate HeldSince(entry: Discovered, era: seq<Observation>, i: nat) {
    && i < |era|
    && entry == Discovered(era[i].memory, era[i].at + DISCOVERED_CAPACITY_TTL)
    && (forall k :: 0 <= k < |era| ==> era[i].memory <= era[k].memory)
    && (forall k :: i < k < |era| ==> era[i].memory < era[k].memory)
  }

  lemma HeldAfterOneMore(entry: Discovered, era: seq<Observation>, i: nat, o: Observation)
    requires HeldSince(entry, era, i)
    ensures entry.memory < o.memory ==> HeldSince(entry, era + [o], i)
    ensures o.memory <= entry.memory ==>
      HeldSince(Discovered(o.memory, o.at + DISCOVERED_CAPACITY_TTL), era + [o], |era|)
  {
  }

  lemma EntryAfter(s: State, op: Op, d: DiscoveryKey, resolve: Resolver)
    requires d in Step(s, op, resolve).discovered
    ensures !(op.ObserveOp? && op.key == d) ==>
      d in s.discovered && Step(s, op, resolve).discovered[d] == s.discovered[d]
    ensures op.ObserveOp? && op.key == d && Finds(s, d, op.at) && op.memory > s.discovered[d].memory ==>
      Step(s, op, resolve).discovered[d] == s.discovered[d]
    ensures op.ObserveOp? && op.key == d && !(Finds(s, d, op.at) && op.memory > s.discovered[d].memory) ==>
      Step(s, op, resolve).discovered[d] == Discovered(op.memory, op.at + DISCOVERED_CAPACITY_TTL)
  {
  }

  /** The entry is the smallest memory observed since it was last gone, and it lives for the TTL after the last
      time that smallest value was seen; larger observations do not prolong it. */
  lemma {:induction false} DiscoveredIsTheMinimum(ops: seq<Op>, d: DiscoveryKey, resolve: Resolver)
    requires d in After(EMPTY, ops, resolve).discovered
    ensures exists i :: HeldSince(After(EMPTY, ops, resolve).discovered[d], Era(ops, d, resolve), i)
  {
    var before, op := ops[..|ops| - 1], ops[|ops| - 1];
    var s := After(EMPTY, before, resolve);
    EntryAfter(s, op, d, resolve);
    var entry, era := After(EMPTY, ops, resolve).discovered[d], Era(ops, d, resolve);
    if op.ObserveOp? && op.key == d && !Finds(s, d, op.at) {
      assert HeldSince(entry, era, 0);
    } else {
      DiscoveredIsTheMinimum(before, d, resolve);
      var i :| HeldSince(s.discovered[d], Era(before, d, resolve), i);
      if op.ObserveOp? && op.key == d {
        HeldAfterOneMore(s.discovered[d], Era(before, d, resolve), i, Observation(op.memory, op.at));
      }
    }
  }

  /** Two observations that overlap. Both decide on the same state, each at its own moment, `x` first; then the
      writes come in either order. */
  function Overlapped(s: State, d: DiscoveryKey, x: Observation, y: Observation, yLast: bool,
                      wx: Time, wy: Time): State
  {
    var storesX, storesY := WouldStore(s, x.at, d, x.memory), WouldStore(s, y.at, d, y.memory);
    if yLast then
      var s' := if storesX then StoreMemory(s, wx, d, x.memory) else s;
      if storesY then StoreMemory(s', wy, d, y.memory) else s'
    else
      var s' := if storesY then StoreMemory(s, wy, d, y.memory) else s;
      if storesX then StoreMemory(s', wx, d, x.memory) else s'
  }

  /** The later write is the larger value, and neither value was ruled out by the entry. */
  predicate LargerLast(s: State, d: DiscoveryKey, x: Observation, y: Observation, yLast: bool) {
    && WouldStore(s, x.at, d, x.memory) && WouldStore(s, y.at, d, y.memory)
    && if yLast then x.memory < y.memory else y.memory < x.memory
  }

  /** No lock spans an observation. Two that overlap leave the memory that they would leave one after the other,
      which is the era's minimum, if and only if the later write is not the larger of two values that were both
      due to be stored; otherwise the larger value stays. An entry may expire between the two decisions. */
  lemma OverlapIsSequentialIff(s: State, d: DiscoveryKey, x: Observation, y: Observation, yLast: bool,
                               wx: Time, wy: Time)
    requires x.at <= y.at <= x.at + DISCOVERED_CAPACITY_TTL
    ensures var entries := Overlapped(s, d, x, y, yLast, wx, wy).discovered;
      var one := Observe(Observe(s, x.at, d, x.memory), y.at, d, y.memory).discovered;
      && d in entries && d in one
      && (entries[d].memory == one[d].memory <==> !LargerLast(s, d, x, y, yLast))
      && (LargerLast(s, d, x, y, yLast) ==> entries[d].memory == if yLast then y.memory else x.memory)
  {
  }

  predicate IsLeast(s: State, now: Time, d: DiscoveryKey, a: int, b: int, memory: int) {
    && memory <= a && memory <= b && (Finds(s, d, now) ==> memory <= s.discovered[d].memory)
    && (memory == a || memory == b || (Finds(s, d, now) && memory == s.discovered[d].memory))
  }

  /** When both decide at one moment, that is the least of what was observed and what was there. */
  lemma OverlapKeepsTheLeastIff(s: State, now: Time, d: DiscoveryKey, a: int, b: int, wx: Time, wy: Time)
    ensures var x, y := Observation(a, now), Observation(b, now);
      var entries := Overlapped(s, d, x, y, true, wx, wy).discovered;
      && d in entries
      && (IsLeast(s, now, d, a, b, entries[d].memory) <==> !(a < b && WouldStore(s, now, d, b)))
  {
  }
}
