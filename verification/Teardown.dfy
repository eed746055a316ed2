/** The retried delete over whole runs: Delete cut at its two cloud calls, with the cloud moving between
    them and between calls (pkg/providers/instance/instance.go). */
module Teardown {
  import opened Options
  import opened Availability
  import opened Instances

  /** A Delete in flight has seen the server alive and is about to destroy it. */
  datatype Phase = Idle | Deleting(id: string)

  /** `seen` are the ids ever used: the cloud does not use an id twice. `last` is the latest answer. */
  datatype Sys = Sys(world: World, seen: set<string>, phase: Phase, last: Option<(string, Error)>)

  const INIT := Sys(World(map[], multiset{}, map[]), {}, Idle, None)

  datatype Event =
    | Launch(id: string, server: Server, now: Time)
    | Change(id: string, status: string)
    | Relabel(id: string, labels: LabelMap)
    | Vanish(id: string)
    | Look(id: string, now: Time, fault: Fault)
    | Strike(fault: Fault)
    | Read(id: string, now: Time, fault: Fault)
    | Listing(instances: seq<Instance>, now: Time)
    | Forget(id: string)

  /** The cloud may change any status except that a terminating server stays terminating. A server may
      vanish at any time. Read is Get outside a Delete, Listing is List with what it found, Forget a cache entry's
      expiry. */
  predicate Enabled(s: Sys, e: Event) {
    match e
    case Launch(id, server, _) => id !in s.seen && !Terminating(server.status)
    case Change(id, status) =>
      id in s.world.servers && (Terminating(s.world.servers[id].status) ==> Terminating(status))
    case Relabel(id, labels) => id in s.world.servers
    case Vanish(id) => id in s.world.servers
    case Look(_, _, _) => s.phase.Idle?
    case Strike(_) => s.phase.Deleting?
    case Read(_, _, _) => true
    case Listing(instances, _) => Reads(instances, s.world.servers)
    case Forget(_) => true
  }

  function Next(s: Sys, e: Event): Sys
    requires Enabled(s, e)
  {
    match e
    case Launch(id, server, now) => s.(world := Launched(s.world, now, id, server), seen := s.seen + {id})
    case Read(id, now, fault) => s.(world := Get(s.world, now, id, false, fault).0)
    case Listing(instances, now) => s.(world := s.world.(cache := RememberAll(s.world.cache, now, instances)))
    case Change(id, status) =>
      s.(world := s.world.(servers := s.world.servers[id := s.world.servers[id].(status := status)]))
    case Relabel(id, labels) =>
      s.(world := s.world.(servers := Relabelled(s.world.servers, id, labels), cache := s.world.cache - {id}))
    case Vanish(id) => s.(world := s.world.(servers := s.world.servers - {id}))
    case Forget(id) => s.(world := s.world.(cache := s.world.cache - {id}))
    case Look(id, now, fault) =>
      var (w, got) := Fetch(s.world, now, id, fault);
      if got.Failure? then s.(world := w, last := Some((id, got.error)))
      else if Terminating(got.value.status) then s.(world := w, last := Some((id, StillDeleting)))
      else s.(world := w, phase := Deleting(id), last := None)
    case Strike(fault) =>
      var (w, error) := Destroy(s.world, s.phase.id, fault);
      s.(world := w, phase := Idle, last := Some((s.phase.id, error)))
  }

  predicate Run(s: Sys, es: seq<Event>)
    decreases |es|
  {
    es == [] || (Enabled(s, es[0]) && Run(Next(s, es[0]), es[1..]))
  }

  function After(s: Sys, es: seq<Event>): Sys
    requires Run(s, es)
    decreases |es|
  {
    if es == [] then s else After(Next(s, es[0]), es[1..])
  }

  /** With nothing but the server's disappearance between its halves the stepped Delete is the method's
      specification. */
  lemma UndisturbedDelete(s: Sys, id: string, now: Time, getFault: Fault, vanishes: bool, deleteFault: Fault)
    requires s.phase.Idle?
    ensures var (w, error) := DeleteCall(s.world, now, id, getFault, vanishes, deleteFault);
            var s1 := Next(s, Look(id, now, getFault));
            var s2 := if s1.phase.Deleting? && vanishes then Next(s1, Vanish(id)) else s1;
            var s3 := if s1.phase.Deleting? then Next(s2, Strike(deleteFault)) else s1;
            s3.world == w && s3.last == Some((id, error)) && s3.phase.Idle?
  {
  }

  /** The other steps of the provider are its calls too: Get, List, UpdateLabels and an accepted launch. What the
      cloud does by itself touches no cached copy, and an expiry no server. */
  lemma StepsAreCalls(s: Sys, id: string, now: Time, fault: Fault, labels: LabelMap, status: string, server: Server,
                      instances: seq<Instance>)
    ensures Next(s, Read(id, now, fault)) == s.(world := Get(s.world, now, id, false, fault).0)
    ensures Reads(instances, s.world.servers) ==>
      Next(s, Listing(instances, now)) == s.(world := s.world.(cache := RememberAll(s.world.cache, now, instances)))
    ensures id in s.world.servers ==>
      Next(s, Relabel(id, labels)) == s.(world := Update(s.world, id, labels, None).0)
    ensures id !in s.seen && status == "ACTIVE" ==>
      var launched := server.(status := status);
      Next(s, Launch(id, launched, now)) == s.(world := Launched(s.world, now, id, launched), seen := s.seen + {id})
    ensures id in s.world.servers ==>
      && Next(s, Vanish(id)) == s.(world := Disappear(s.world, id))
      && (!Terminating(s.world.servers[id].status) ==>
            var changed := s.world.servers[id := s.world.servers[id].(status := status)];
            Next(s, Change(id, status)) == s.(world := s.world.(servers := changed)))
    ensures Next(s, Forget(id)) == s.(world := s.world.(cache := s.world.cache - {id}))
  {
  }

  // ---------------------------------------------------------------- at most one accepted delete

  /** A server whose delete was accepted is terminating or gone, and a Delete in flight is for a server
      none of whose deletes was accepted. */
  ghost predicate Once(s: Sys) {
    && (forall id :: s.world.accepted[id] <= 1)
    && (forall id :: id in s.world.servers || s.world.accepted[id] > 0 ==> id in s.seen)
    && (forall id :: id in s.world.servers && s.world.accepted[id] > 0 ==> Terminating(s.world.servers[id].status))
    && (s.phase.Deleting? ==> s.phase.id in s.seen && s.world.accepted[s.phase.id] == 0)
  }

  lemma OnceStep(s: Sys, e: Event)
    requires Once(s) && Enabled(s, e)
    ensures Once(Next(s, e))
  {
    match e
    case Strike(fault) => OnceStrike(s, fault);
    case Change(_, _) =>
    case Relabel(_, _) =>
    case _ =>
  }

  lemma OnceStrike(s: Sys, fault: Fault)
    requires Once(s) && Enabled(s, Strike(fault))
    ensures Once(Next(s, Strike(fault)))
  {
  }

  /** However many times Delete is called for a server, over any run, the cloud accepts at most one of
      the calls. */
  lemma {:induction false} AtMostOneAccepted(s: Sys, es: seq<Event>)
    requires Once(s) && Run(s, es)
    ensures Once(After(s, es))
    decreases |es|
  {
    if es != [] {
      OnceStep(s, es[0]);
      AtMostOneAccepted(Next(s, es[0]), es[1..]);
    }
  }

  lemma AtMostOneFromStart(es: seq<Event>, id: string)
    requires Run(INIT, es)
    ensures After(INIT, es).world.accepted[id] <= 1
  {
    AtMostOneAccepted(INIT, es);
  }

  // ---------------------------------------------------------------- NotFound means gone

  /** The step that answers NotFound saw the cloud without the server, whatever the cache held, and
      leaves no cache entry; and no other step answers it. */
  lemma NotFoundIsSeen(s: Sys, e: Event, id: string)
    requires Enabled(s, e) && (e.Look? || e.Strike?)
    ensures Next(s, e).last == Some((id, NotFound))
       <==> && id == (if e.Look? then e.id else s.phase.id)
            && id !in s.world.servers && e.fault.None?
    ensures Next(s, e).last == Some((id, NotFound)) ==> id !in Next(s, e).world.cache
  {
  }

  ghost predicate Gone(s: Sys, id: string) {
    id in s.seen && id !in s.world.servers
  }

  lemma {:induction false} GoneForGood(s: Sys, es: seq<Event>, id: string)
    requires Run(s, es) && Gone(s, id)
    ensures Gone(After(s, es), id)
    decreases |es|
  {
    if es != [] {
      GoneForGood(Next(s, es[0]), es[1..], id);
    }
  }

  /** NotFound for a server that was launched means it is gone, and it stays gone. */
  lemma NotFoundIsFinal(past: seq<Event>, e: Event, es: seq<Event>, id: string)
    requires Run(INIT, past) && id in After(INIT, past).seen
    requires var s := After(INIT, past);
             && Enabled(s, e) && (e.Look? || e.Strike?) && Next(s, e).last == Some((id, NotFound))
             && Run(Next(s, e), es)
    ensures id !in After(Next(After(INIT, past), e), es).world.servers
  {
    var s := After(INIT, past);
    NotFoundIsSeen(s, e, id);
    GoneForGood(Next(s, e), es, id);
  }

  // ---------------------------------------------------------------- the retries end

  /** Terminating or gone, for good. */
  ghost predicate Doomed(s: Sys, id: string) {
    id in s.seen && (id in s.world.servers ==> Terminating(s.world.servers[id].status))
  }

  lemma {:induction false} DoomedStays(s: Sys, es: seq<Event>, id: string)
    requires Run(s, es) && Doomed(s, id)
    ensures Doomed(After(s, es), id)
    decreases |es|
  {
    if es != [] {
      DoomedStays(Next(s, es[0]), es[1..], id);
    }
  }

  /** A Delete none of whose calls was made to fail dooms the server, and answers NotFound exactly
      when the server is gone by then. Its only other answers are that the delete was requested or
      is under way. */
  lemma DeleteProgress(s: Sys, id: string, now: Time, between: seq<Event>)
    requires s.phase.Idle? && id in s.seen
    requires forall e :: e in between ==> !e.Look? && !e.Strike?
    requires Run(Next(s, Look(id, now, None)), between)
    ensures var s1 := Next(s, Look(id, now, None));
            var s2 := After(s1, between);
            && s2.phase == s1.phase && s2.last == s1.last
            && var end := if s1.phase.Deleting? then Next(s2, Strike(None)) else s2;
               && Doomed(end, id) && end.last.Some? && end.last.value.0 == id
               && end.last.value.1 in {NotFound, StillDeleting, Requested}
               && (end.last.value.1 == NotFound
                   <==> if s1.phase.Deleting? then id !in s2.world.servers else id !in s.world.servers)
  {
    var s1 := Next(s, Look(id, now, None));
    CloudOnly(s1, between, id);
    if !s1.phase.Deleting? {
      DoomedStays(s1, between, id);
    }
  }

  lemma {:induction false} CloudOnly(s: Sys, es: seq<Event>, id: string)
    requires Run(s, es) && id in s.seen
    requires forall e :: e in es ==> !e.Look? && !e.Strike?
    ensures After(s, es).phase == s.phase && After(s, es).last == s.last && id in After(s, es).seen
    decreases |es|
  {
    if es != [] {
      assert es[0] in es;
      CloudOnly(Next(s, es[0]), es[1..], id);
    }
  }

  /** Once the cloud has finished deleting a server, the next Delete whose GetServer is answered says
      NotFound, however long the run in between. */
  lemma RetriesEnd(s: Sys, es: seq<Event>, id: string, now: Time)
    requires Gone(s, id) && Run(s, es) && After(s, es).phase.Idle?
    ensures Next(After(s, es), Look(id, now, None)).last == Some((id, NotFound))
  {
    GoneForGood(s, es, id);
  }

  // ---------------------------------------------------------------- an accepted delete shows

  /** Terminating or gone, and no cached copy says otherwise. */
  ghost predicate ShownDoomed(s: Sys, id: string) {
    Doomed(s, id) && (id in s.world.cache ==> Terminating(s.world.cache[id].inst.status))
  }

  lemma ShownDoomedStep(s: Sys, e: Event, id: string)
    requires Enabled(s, e) && ShownDoomed(s, id)
    ensures ShownDoomed(Next(s, e), id)
  {
    if e.Listing? {
      ListingRefreshes(s.world.cache, e.now, e.instances, id);
      if Listed(e.instances, id) {
        var i :| 0 <= i < |e.instances| && e.instances[i].id == id;
        assert e.instances[i] == NewInstance(id, s.world.servers[id]);
      }
    }
  }

  lemma {:induction false} ShownDoomedStays(s: Sys, es: seq<Event>, id: string)
    requires Run(s, es) && ShownDoomed(s, id)
    ensures ShownDoomed(After(s, es), id)
    decreases |es|
  {
    if es != [] {
      ShownDoomedStep(s, es[0], id);
      ShownDoomedStays(Next(s, es[0]), es[1..], id);
    }
  }

  /** Once the cloud has accepted a server's delete, no read shows the server alive again, over any run and
      although reads may come from the cache: an answered one shows it terminating or says NotFound. */
  lemma AcceptedDeleteShows(past: seq<Event>, strike: Fault, es: seq<Event>, id: string, now: Time, skipCache: bool,
                            fault: Fault)
    requires Run(INIT, past) && Enabled(After(INIT, past), Strike(strike))
    requires var s := Next(After(INIT, past), Strike(strike));
             s.last == Some((id, Requested)) && Run(s, es)
    ensures var s := After(Next(After(INIT, past), Strike(strike)), es);
            var got := Get(s.world, now, id, skipCache, fault).1;
            && (got.Success? ==> got.value.status == "DELETING" || got.value.status == "DELETED")
            && (fault.None? && got.Failure? ==> got.error == NotFound)
  {
    AtMostOneAccepted(INIT, past);
    ShownDoomedStays(Next(After(INIT, past), Strike(strike)), es, id);
  }

  /** A caller that skipped GetServer's fresh answer and trusted the cache would be told of a server
      that is gone; Delete cannot be, because it always fetches. */
  lemma CacheMayLie(w: World, now: Time, id: string, vanishes: bool, deleteFault: Fault)
    requires id !in w.servers && CacheHit(w, now, id)
    ensures Get(w, now, id, false, None).1.Success?
    ensures DeleteCall(w, now, id, None, vanishes, deleteFault) == (w.(cache := w.cache - {id}), NotFound)
  {
  }
}
