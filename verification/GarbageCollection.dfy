/** Reaping servers without a NodeClaim (pkg/controllers/nodeclaim/garbagecollection/controller.go).

    The first half is one pass over two snapshots; the second is the pass as a timed protocol running
    beside launches, recordings and deletions. */
module GarbageCollection {
  import opened Options
  import opened Availability
  import opened Instances

  const GRACE: nat := 2 * MINUTE

  /** A server as the cloud snapshot shows it; None is a missing creation time. */
  datatype Seen = Seen(providerID: string, createdAt: Option<Time>)

  /** The three checks of the loop body, in the source's order. */
  predicate Reapable(n: Seen, claimed: set<string>, at: Time) {
    && n.providerID !in claimed
    && n.createdAt.Some?
    && at - n.createdAt.value >= GRACE
  }

  /** What Delete answered for a server: NotFound is swallowed, everything else is the pass's error,
      because Delete has no success to return. */
  function ReapError(e: Error): Option<Error> {
    if e == NotFound then None else Some(e)
  }

  /** One pass's loop. `order` is the order in which the parallel workers get to the servers, `at[i]`
      the clock when server i is checked, `answers[i]` what Delete would answer for it. Reaped are
      exactly the unclaimed, timestamped, old-enough servers, whatever the order, and a server's error is what
      Delete answered unless that was NotFound. */
  method ReapAll(servers: seq<Seen>, claimed: set<string>, order: seq<nat>, at: seq<Time>, answers: seq<Error>)
    returns (reaped: set<nat>, errs: array<Option<Error>>)
    requires |at| == |servers| == |answers|
    requires forall i :: i in order <==> 0 <= i < |servers|
    ensures reaped == set i | 0 <= i < |servers| && Reapable(servers[i], claimed, at[i])
    ensures fresh(errs) && errs.Length == |servers|
    ensures forall i :: i in reaped <==>
      && 0 <= i < |servers| && servers[i].providerID !in claimed
      && servers[i].createdAt.Some? && at[i] - servers[i].createdAt.value >= 120_000_000_000
    ensures forall i :: 0 <= i < |servers| ==> (errs[i].Some? <==> i in reaped && answers[i] != NotFound)
    ensures forall i :: 0 <= i < |servers| && errs[i].Some? ==> errs[i].value == answers[i]
  {
    errs := new Option<Error>[|servers|](_ => None);
    reaped := {};
    for k := 0 to |order|
      invariant reaped == set i | 0 <= i < |servers| && i in order[..k] && Reapable(servers[i], claimed, at[i])
      invariant forall i :: 0 <= i < |servers| ==> errs[i] == if i in reaped then ReapError(answers[i]) else None
    {
      var i := order[k];
      assert i in order;
      assert order[..k + 1] == order[..k] + [i];
      if servers[i].providerID !in claimed && servers[i].createdAt.Some? {
        if at[i] - servers[i].createdAt.value >= GRACE {
          reaped := reaped + {i};
          errs[i] := ReapError(answers[i]);
        }
      }
    }
    assert order[..|order|] == order;
  }

  class Controller {
    var successfulCount: nat

    constructor ()
      ensures successfulCount == 0
    {
      successfulCount := 0;
    }

    /** The end of a pass. It succeeds, and the next passes may slow down, only when every server it
        reaped had already gone. None is the combined error. */
    method Finish(errs: array<Option<Error>>) returns (requeueAfter: Option<nat>)
      modifies this
      ensures requeueAfter.Some? <==> forall i :: 0 <= i < errs.Length ==> errs[i].None?
      ensures successfulCount == old(successfulCount) + (if requeueAfter.Some? then 1 else 0)
      ensures requeueAfter.Some? ==>
        requeueAfter.value == if successfulCount <= 20 then 10_000_000_000 else 120_000_000_000
    {
      for i := 0 to errs.Length
        invariant forall k :: 0 <= k < i ==> errs[k].None?
      {
        if errs[i].Some? {
          return None;
        }
      }
      successfulCount := successfulCount + 1;
      requeueAfter := Some(if successfulCount <= 20 then 10 * SECOND else 2 * MINUTE);
    }

    /** A whole pass. None is a listing that failed; `claims` are the providerIDs of the cluster's NodeClaims, ""
        while a claim has none. Nothing is reaped unless all three listings worked, and then the pass succeeds
        exactly when Delete found every server it reaped already gone. */
    method Reconcile(cloud: Option<seq<Seen>>, claims: Option<seq<string>>, nodesListed: bool, order: seq<nat>,
                     at: seq<Time>, answers: seq<Error>)
      returns (reaped: set<nat>, requeueAfter: Option<nat>)
      requires cloud.Some? ==> |at| == |cloud.value| == |answers|
      requires cloud.Some? ==> forall i :: i in order <==> 0 <= i < |cloud.value|
      modifies this
      ensures var listed := cloud.Some? && claims.Some? && nodesListed;
        && (forall i :: i in reaped <==>
              && listed && 0 <= i < |cloud.value|
              && (cloud.value[i].providerID == "" || cloud.value[i].providerID !in claims.value)
              && cloud.value[i].createdAt.Some? && at[i] - cloud.value[i].createdAt.value >= 120_000_000_000)
        && (requeueAfter.Some? <==> listed && forall i :: i in reaped ==> answers[i] == NotFound)
      ensures successfulCount == old(successfulCount) + (if requeueAfter.Some? then 1 else 0)
      ensures requeueAfter.Some? ==>
        requeueAfter.value == if successfulCount <= 20 then 10_000_000_000 else 120_000_000_000
    {
      if cloud.None? || claims.None? || !nodesListed {
        return {}, None;
      }
      var claimed := set id | id in claims.value && id != "";
      var errs;
      reaped, errs := ReapAll(cloud.value, claimed, order, at, answers);
      requeueAfter := Finish(errs);
    }
  }

  // ---------------------------------------------------------------- the timed protocol

  /** A server, and whether its NodeClaim is live and already carries its providerID. */
  datatype Tracked = Tracked(createdAt: Option<Time>, claimLive: bool, recorded: bool)

  datatype Pass =
    | NoPass
    | Listed(cloud: map<string, Option<Time>>)
    | Checking(cloud: map<string, Option<Time>>, claimed: set<string>, since: Time)

  /** `gone` are ids the cloud will not use again; `reaped` is what the latest step handed to Delete. */
  datatype Sys = Sys(now: Time, servers: map<string, Tracked>, gone: set<string>, pass: Pass, reaped: Option<string>)

  const INIT := Sys(0, map[], {}, NoPass, None)

  /** `record`: a claim carries its server's providerID no later than this after the server's creation.
      `check`: a pass checks its last server no later than this after its cluster snapshot. */
  datatype Bounds = Bounds(record: nat, check: nat)

  datatype Event =
    | Tick(d: nat)
    | Launch(id: string, stamped: bool)
    | Record(id: string)
    | ClaimGone(id: string)
    | Vanish(id: string)
    | ListCloud
    | ListCluster
    | Check(id: string)
    | EndPass

  predicate Due(t: Tracked, at: Time, b: Bounds) {
    t.claimLive && !t.recorded && t.createdAt.Some? && at > t.createdAt.value + b.record
  }

  /** Time does not pass a live claim's recording deadline, nor a check's. */
  predicate Enabled(s: Sys, e: Event, b: Bounds) {
    match e
    case Tick(d) =>
      && (forall id :: id in s.servers ==> !Due(s.servers[id], s.now + d, b))
    case Launch(id, _) => id !in s.servers && id !in s.gone
    case Record(id) => id in s.servers && s.servers[id].claimLive
    case ClaimGone(id) => id in s.servers
    case Vanish(id) => id in s.servers
    case ListCloud => s.pass.NoPass?
    case ListCluster => s.pass.Listed?
    case Check(id) => s.pass.Checking? && id in s.pass.cloud && s.now <= s.pass.since + b.check
    case EndPass => s.pass.Checking?
  }

  /** The providerIDs the cluster snapshot collects: those on live claims that carry one. */
  function Recorded(servers: map<string, Tracked>): set<string> {
    set id | id in servers && servers[id].claimLive && servers[id].recorded
  }

  function Next(s: Sys, e: Event, b: Bounds): Sys
    requires Enabled(s, e, b)
  {
    match e
    case Tick(d) => s.(now := s.now + d, reaped := None)
    case Launch(id, stamped) =>
      s.(servers := s.servers[id := Tracked(if stamped then Some(s.now) else None, true, false)], reaped := None)
    case Record(id) => s.(servers := s.servers[id := s.servers[id].(recorded := true)], reaped := None)
    case ClaimGone(id) => s.(servers := s.servers[id := s.servers[id].(claimLive := false)], reaped := None)
    case Vanish(id) => s.(servers := s.servers - {id}, gone := s.gone + {id}, reaped := None)
    case ListCloud => s.(pass := Listed(map id | id in s.servers :: s.servers[id].createdAt), reaped := None)
    case ListCluster => s.(pass := Checking(s.pass.cloud, Recorded(s.servers), s.now), reaped := None)
    case Check(id) =>
      s.(reaped := if Reapable(Seen(id, s.pass.cloud[id]), s.pass.claimed, s.now) then Some(id) else None)
    case EndPass => s.(pass := NoPass, reaped := None)
  }

  predicate Run(s: Sys, es: seq<Event>, b: Bounds)
    decreases |es|
  {
    es == [] || (Enabled(s, es[0], b) && Run(Next(s, es[0], b), es[1..], b))
  }

  function After(s: Sys, es: seq<Event>, b: Bounds): Sys
    requires Run(s, es, b)
    decreases |es|
  {
    if es == [] then s else After(Next(s, es[0], b), es[1..], b)
  }

  /** A server whose claim is live and carries its id, just handed to Delete. */
  predicate WronglyReaped(s: Sys) {
    s.reaped.Some? && s.reaped.value in s.servers
    && s.servers[s.reaped.value].claimLive && s.servers[s.reaped.value].recorded
  }

  /** Deadlines are kept, snapshots show the creation times there are, and a live claim missing from
      the cluster snapshot was still inside its recording window then. */
  ghost predicate Inv(s: Sys, b: Bounds) {
    && (forall id :: id in s.servers ==> !Due(s.servers[id], s.now, b))
    && (!s.pass.NoPass? ==> forall id :: id in s.pass.cloud ==>
          && (id in s.servers || id in s.gone)
          && (id in s.servers ==> s.servers[id].createdAt == s.pass.cloud[id]))
    && (s.pass.Checking? ==> forall id ::
          id in s.pass.cloud && id !in s.pass.claimed && id in s.servers && s.servers[id].claimLive
          && s.pass.cloud[id].Some? ==>
            s.pass.since <= s.pass.cloud[id].value + b.record)
    && (b.record + b.check < GRACE ==> !WronglyReaped(s))
  }

  lemma InvStep(s: Sys, e: Event, b: Bounds)
    requires Inv(s, b) && Enabled(s, e, b)
    ensures Inv(Next(s, e, b), b)
  {
  }

  lemma {:induction false} InvRun(s: Sys, es: seq<Event>, b: Bounds)
    requires Inv(s, b) && Run(s, es, b)
    ensures Inv(After(s, es, b), b)
    decreases |es|
  {
    if es != [] {
      InvStep(s, es[0], b);
      InvRun(Next(s, es[0], b), es[1..], b);
    }
  }

  predicate Safe(es: seq<Event>, b: Bounds)
    requires Run(INIT, es, b)
  {
    !WronglyReaped(After(INIT, es, b))
  }

  ghost predicate Leads(s: Sys, es: seq<Event>, end: Sys, b: Bounds) {
    Run(s, es, b) && After(s, es, b) == end
  }

  lemma Before(s: Sys, e: Event, es: seq<Event>, end: Sys, b: Bounds)
    requires Enabled(s, e, b) && Leads(Next(s, e, b), es, end, b)
    ensures Leads(s, [e] + es, end, b)
  {
    assert ([e] + es)[1..] == es;
  }

  /** The other half: a server that is old enough when its claim goes is reaped by the next pass that checks it in
      time, whatever its claim carried, and one without a creation time never is. */
  lemma OrphanIsReaped(s: Sys, id: string, b: Bounds)
    requires s.pass.NoPass? && id in s.servers
    ensures var es := [ClaimGone(id), ListCloud, ListCluster, Check(id)];
      var createdAt := s.servers[id].createdAt;
      && Run(s, es, b)
      && (After(s, es, b).reaped == Some(id) <==> createdAt.Some? && createdAt.value + 120_000_000_000 <= s.now)
      && After(s, es, b).servers.Keys == s.servers.Keys
  {
    var s1 := Next(s, ClaimGone(id), b);
    var s2 := Next(s1, ListCloud, b);
    var s3 := Next(s2, ListCluster, b);
    var s4 := Next(s3, Check(id), b);
    assert id !in Recorded(s2.servers);
    Before(s3, Check(id), [], s4, b);
    Before(s2, ListCluster, [Check(id)] + [], s4, b);
    Before(s1, ListCloud, [ListCluster] + ([Check(id)] + []), s4, b);
    Before(s, ClaimGone(id), [ListCloud] + ([ListCluster] + ([Check(id)] + [])), s4, b);
    assert [ClaimGone(id)] + ([ListCloud] + ([ListCluster] + ([Check(id)] + [])))
        == [ClaimGone(id), ListCloud, ListCluster, Check(id)];
  }

  /** A server of a live claim that a pass has listed; the claim is not recorded yet and the pass has just read
      the cluster. */
  function JustMissed(b: Bounds): Sys {
    var cloud := map["s" := Some(0)];
    Sys(b.record, map["s" := Tracked(Some(0), true, false)], {}, Checking(cloud, {}, b.record), None)
  }

  lemma ReachJustMissed(es: seq<Event>, end: Sys, b: Bounds) returns (all: seq<Event>)
    requires Leads(JustMissed(b), es, end, b)
    ensures Leads(INIT, all, end, b)
  {
    var cloud := map["s" := Some(0)];
    var s1 := Sys(0, map["s" := Tracked(Some(0), true, false)], {}, NoPass, None);
    var s2 := s1.(pass := Listed(cloud));
    var s3 := s2.(now := b.record);
    assert Recorded(s3.servers) == {};
    Before(s3, ListCluster, es, end, b);
    all := [ListCluster] + es;
    Before(s2, Tick(b.record), all, end, b);
    all := [Tick(b.record)] + all;
    assert cloud == map id | id in s1.servers :: s1.servers[id].createdAt;
    Before(s1, ListCloud, all, end, b);
    all := [ListCloud] + all;
    Before(INIT, Launch("s", true), all, end, b);
    all := [Launch("s", true)] + all;
  }

  /** Bounds that add up to the grace period or more let a pass read the cluster just before a claim is
      recorded and reach the server when its grace is over. */
  lemma LateBoundsReapALiveClaim(b: Bounds) returns (es: seq<Event>)
    requires b.record + b.check >= GRACE
    ensures Run(INIT, es, b) && !Safe(es, b)
  {
    var wait := if b.record < GRACE then GRACE - b.record else 0;
    var s4 := JustMissed(b);
    var s5 := s4.(servers := map["s" := Tracked(Some(0), true, true)]);
    var s6 := s5.(now := b.record + wait);
    var s7 := s6.(reaped := Some("s"));
    Before(s6, Check("s"), [], s7, b);
    Before(s5, Tick(wait), [Check("s")] + [], s7, b);
    assert Next(s4, Record("s"), b) == s5;
    Before(s4, Record("s"), [Tick(wait)] + ([Check("s")] + []), s7, b);
    es := ReachJustMissed([Record("s")] + ([Tick(wait)] + ([Check("s")] + [])), s7, b);
    assert WronglyReaped(s7);
  }

  /** No pass, in any interleaving, reaps a server whose claim is live and recorded, exactly when the two
      bounds together stay below the grace period. Equal is not enough. */
  lemma SafeExactlyWithinGrace(b: Bounds)
    ensures (forall es: seq<Event> :: Run(INIT, es, b) ==> Safe(es, b)) <==> b.record + b.check < GRACE
  {
    if b.record + b.check < GRACE {
      forall es: seq<Event> | Run(INIT, es, b) ensures Safe(es, b) {
        InvRun(INIT, es, b);
      }
    } else {
      var es := LateBoundsReapALiveClaim(b);
    }
  }
}
