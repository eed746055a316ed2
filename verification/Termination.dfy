/** The finalizer that keeps a NodeClass until its NodeClaims are gone
    (pkg/controllers/nodeclass/termination/controller.go), against launches that resolve the NodeClass
    at the same time (pkg/cloudprovider/cloudprovider.go).

    The API server's reads are taken as linearizable: a list shows every claim there is. */
module Termination {
  import opened Options

  const TERMINATION_FINALIZER := "karpenter.k8s.stackit/termination"
  const REQUEUE_WHILE_IN_USE := 10

  // ---------------------------------------------------------------- the controller

  /** How the API server answers a patch. A NotFound is ignored by the controller. */
  datatype PatchReply = Patched | PatchNotFound | PatchFailed

  datatype Outcome = Done | RequeueAfter(seconds: nat) | Error

  /** The stored object. */
  class NodeClassObject {
    var deleting: bool
    var finalizers: set<string>

    constructor (deleting: bool, finalizers: set<string>)
      ensures this.deleting == deleting && this.finalizers == finalizers
    {
      this.deleting := deleting;
      this.finalizers := finalizers;
    }
  }

  /** One reconcile. `claims` is the length of the list of claims, None when listing failed; `reply` is
      the answer to the one patch a reconcile may send. The finalizer appears on an object that is not
      being deleted, disappears from one that is being deleted and has no claims, and stays otherwise. */
  method Reconcile(nodeClass: NodeClassObject, claims: Option<nat>, reply: PatchReply) returns (r: Outcome)
    modifies nodeClass
    ensures nodeClass.deleting == old(nodeClass.deleting)
    ensures nodeClass.finalizers - {TERMINATION_FINALIZER} == old(nodeClass.finalizers) - {TERMINATION_FINALIZER}
    ensures TERMINATION_FINALIZER in nodeClass.finalizers <==>
      if old(nodeClass.deleting)
      then TERMINATION_FINALIZER in old(nodeClass.finalizers) && !(claims == Some(0) && reply.Patched?)
      else TERMINATION_FINALIZER in old(nodeClass.finalizers) || reply.Patched?
    ensures r == RequeueAfter(10) <==> old(nodeClass.deleting) && claims.Some? && claims.value > 0
    ensures r.RequeueAfter? ==> r == RequeueAfter(10)
    ensures r == Error <==>
      || (old(nodeClass.deleting) && (claims.None? || (claims.value == 0 && reply.PatchFailed?)))
      || (!old(nodeClass.deleting) && TERMINATION_FINALIZER !in old(nodeClass.finalizers) && reply.PatchFailed?)
  {
    if !nodeClass.deleting {
      if TERMINATION_FINALIZER !in nodeClass.finalizers {
        if reply.Patched? {
          nodeClass.finalizers := nodeClass.finalizers + {TERMINATION_FINALIZER};
        }
        return if reply.PatchFailed? then Error else Done;
      }
      return Done;
    }
    if claims.None? {
      return Error;
    }
    if claims.value > 0 {
      return RequeueAfter(REQUEUE_WHILE_IN_USE);
    }
    if reply.Patched? {
      nodeClass.finalizers := nodeClass.finalizers - {TERMINATION_FINALIZER};
    }
    r := if reply.PatchFailed? then Error else Done;
  }

  // ---------------------------------------------------------------- who else moves

  datatype NodeClass = Absent | Present(finalizer: bool, deleting: bool)

  /** A claim's Create: not begun or failed, past the NodeClass check, or finished. */
  datatype Progress = Waiting | Resolved | Launched

  /** `server`: a server launched for the claim is still there. */
  datatype Claim = Claim(progress: Progress, server: bool)

  /** The termination reconcile between its list and its patch. */
  datatype Worker = Resting | Releasing

  datatype Sys = Sys(class_: NodeClass, claims: map<string, Claim>, worker: Worker)

  datatype Event =
    | AttachFinalizer
    | UserDelete
    | ListClaims
    | Release(reply: PatchReply)
    | NewClaim(c: string)
    | Resolve(c: string, ready: bool)
    | LaunchServer(c: string)
    | CreateFails(c: string)
    | ServerGone(c: string)
    | RemoveClaim(c: string)

  /** A claim is removed only when Delete has reported its server gone, and not while its own Create is
      under way: one worker handles a claim at a time. */
  predicate Enabled(s: Sys, e: Event) {
    match e
    case AttachFinalizer => s.class_.Present? && !s.class_.deleting
    case UserDelete => s.class_.Present?
    case ListClaims => s.worker.Resting? && s.class_.Present? && s.class_.deleting
    case Release(_) => s.worker.Releasing?
    case NewClaim(c) => c !in s.claims
    case Resolve(c, _) => c in s.claims && s.claims[c].progress.Waiting?
    case LaunchServer(c) => c in s.claims && s.claims[c].progress.Resolved?
    case CreateFails(c) => c in s.claims && s.claims[c].progress.Resolved?
    case ServerGone(c) => c in s.claims
    case RemoveClaim(c) => c in s.claims && !s.claims[c].server && !s.claims[c].progress.Resolved?
  }

  /** The check at the head of Create: a NodeClass that is missing, terminating or not ready stops it. */
  predicate MayLaunch(class_: NodeClass, ready: bool) {
    class_.Present? && !class_.deleting && ready
  }

  /** The API server drops an object that is being deleted and has no finalizer. */
  function Next(s: Sys, e: Event): Sys
    requires Enabled(s, e)
  {
    match e
    case AttachFinalizer => s.(class_ := s.class_.(finalizer := true))
    case UserDelete => s.(class_ := if s.class_.finalizer then s.class_.(deleting := true) else Absent)
    case ListClaims => s.(worker := if s.claims == map[] then Releasing else Resting)
    case Release(reply) => s.(class_ := if reply.Patched? then Absent else s.class_, worker := Resting)
    case NewClaim(c) => s.(claims := s.claims[c := Claim(Waiting, false)])
    case Resolve(c, ready) =>
      if MayLaunch(s.class_, ready) then s.(claims := s.claims[c := s.claims[c].(progress := Resolved)]) else s
    case LaunchServer(c) => s.(claims := s.claims[c := Claim(Launched, true)])
    case CreateFails(c) => s.(claims := s.claims[c := s.claims[c].(progress := Waiting)])
    case ServerGone(c) => s.(claims := s.claims[c := s.claims[c].(server := false)])
    case RemoveClaim(c) => s.(claims := s.claims - {c})
  }

  predicate Run(s: Sys, es: seq<Event>)
    decreases |es|
  {
    es == [] || (Enabled(s, es[0]) && Run(Next(s, es[0]), es[1..]))
  }

  function After(s: Sys, es: seq<Event>): Sys
    requires Run(s, es)
    decreases |es|
  {
    if es == [] then s else After(Next(s, es[0]), es[1..])
  }

  /** A server is running, or a Create past the check may still launch one. */
  predicate Engaged(c: Claim) {
    c.server || c.progress.Resolved?
  }

  predicate AnyEngaged(s: Sys) {
    exists c :: c in s.claims && Engaged(s.claims[c])
  }

  /** No server is left without its NodeClass. */
  predicate Safe(s: Sys) {
    forall c :: c in s.claims && s.claims[c].server ==> s.class_.Present?
  }

  ghost predicate Protected(s: Sys) {
    && (AnyEngaged(s) ==> s.class_.Present?)
    && (s.class_.Present? ==> s.class_.finalizer)
    && (s.worker.Releasing? ==> !AnyEngaged(s) && (s.class_.Present? ==> s.class_.deleting))
  }

  lemma ProtectedStep(s: Sys, e: Event)
    requires Protected(s) && Enabled(s, e)
    ensures Protected(Next(s, e))
  {
    var s' := Next(s, e);
    if c :| c in s'.claims && Engaged(s'.claims[c]) && !AnyEngaged(s) {
      assert e.Resolve? && e.c == c;
    }
  }

  lemma {:induction false} ProtectedRun(s: Sys, es: seq<Event>)
    requires Protected(s) && Run(s, es)
    ensures Protected(After(s, es)) && Safe(After(s, es))
    decreases |es|
  {
    if es != [] {
      ProtectedStep(s, es[0]);
      ProtectedRun(Next(s, es[0]), es[1..]);
    } else {
      forall c | c in s.claims && s.claims[c].server ensures s.class_.Present? {
        assert Engaged(s.claims[c]);
      }
    }
  }

  /** A NodeClass nobody has used or begun to delete yet. */
  predicate Unused(s: Sys) {
    s.class_.Present? && !s.class_.deleting && s.worker.Resting? && !AnyEngaged(s)
  }

  lemma {:induction false} Chain(states: seq<Sys>, es: seq<Event>)
    requires |states| == |es| + 1
    requires forall i :: 0 <= i < |es| ==> Enabled(states[i], es[i]) && states[i + 1] == Next(states[i], es[i])
    ensures Run(states[0], es) && After(states[0], es) == states[|es|]
    decreases |es|
  {
    if es != [] {
      Chain(states[1..], es[1..]);
    }
  }

  /** The run nothing forbids when the finalizer is not attached yet: Create looks at readiness and the
      deletion timestamp, not at the finalizer. */
  lemma LaunchBeforeFinalizer(s: Sys, c: string) returns (es: seq<Event>)
    requires Unused(s) && !s.class_.finalizer && c !in s.claims
    ensures Run(s, es) && !Safe(After(s, es))
  {
    es := [NewClaim(c), Resolve(c, true), LaunchServer(c), UserDelete];
    var s1 := Next(s, es[0]);
    var s2 := Next(s1, es[1]);
    var s3 := Next(s2, es[2]);
    var s4 := Next(s3, es[3]);
    Chain([s, s1, s2, s3, s4], es);
    assert s4.claims[c].server && s4.class_.Absent?;
  }

  /** From an unused NodeClass, every interleaving of deletion, list, release, claims and Creates leaves
      every server its NodeClass exactly when the finalizer was attached at the start. */
  lemma FinalizerDecides(s: Sys)
    requires Unused(s)
    ensures (forall es: seq<Event> :: Run(s, es) ==> Safe(After(s, es))) <==> s.class_.finalizer
  {
    if s.class_.finalizer {
      forall es: seq<Event> | Run(s, es) ensures Safe(After(s, es)) {
        ProtectedRun(s, es);
      }
    } else {
      var c := NewName(s.claims.Keys);
      var es := LaunchBeforeFinalizer(s, c);
    }
  }

  /** A name no claim has. */
  lemma {:induction false} NewName(names: set<string>) returns (name: string)
    ensures name !in names
  {
    var bound := LongerThanAll(names);
    name := seq(bound, _ => 'x');
  }

  lemma {:induction false} LongerThanAll(names: set<string>) returns (bound: nat)
    ensures forall n :: n in names ==> |n| < bound
    decreases |names|
  {
    if names == {} {
      bound := 0;
    } else {
      var n :| n in names;
      var rest := LongerThanAll(names - {n});
      bound := if rest <= |n| then |n| + 1 else rest;
    }
  }

  /** A Create gets past the check exactly while its NodeClass is there, ready and not being deleted; the finalizer
      is not asked for. A check that fails changes nothing. */
  lemma ResolveIff(s: Sys, c: string, ready: bool)
    requires Enabled(s, Resolve(c, ready))
    ensures var s' := Next(s, Resolve(c, ready));
      if s.class_.Present? && !s.class_.deleting && ready
      then s' == s.(claims := s.claims[c := Claim(Resolved, s.claims[c].server)])
      else s' == s
  {
  }

  predicate Closed(s: Sys) {
    s.class_.Absent? || s.class_.deleting
  }

  /** Once the NodeClass is being deleted, no Create gets past the check: whoever is engaged later was
      engaged already, so the set of servers and of Creates that may launch one only shrinks. */
  lemma {:induction false} NoLaunchAfterDeletion(s: Sys, es: seq<Event>, c: string)
    requires Closed(s) && Run(s, es)
    ensures Closed(After(s, es))
    ensures c in After(s, es).claims && Engaged(After(s, es).claims[c]) ==> c in s.claims && Engaged(s.claims[c])
    decreases |es|
  {
    if es != [] {
      NoLaunchAfterDeletion(Next(s, es[0]), es[1..], c);
    }
  }

  /** Once the last claim's server has gone, the claim, the list and the patch take the NodeClass with them. A
      Create that is under way fails first. */
  lemma LastClaimReleases(s: Sys, c: string)
    requires s.worker.Resting? && s.class_.Present? && s.class_.deleting && s.claims.Keys == {c}
    ensures var ends := if s.claims[c].progress.Resolved? then [CreateFails(c)] else [];
      var es := ends + [ServerGone(c), RemoveClaim(c), ListClaims, Release(Patched)];
      Run(s, es) && After(s, es) == Sys(Absent, map[], Resting)
  {
    var es := [ServerGone(c), RemoveClaim(c), ListClaims, Release(Patched)];
    if s.claims[c].progress.Resolved? {
      LastStepsRelease(Next(s, CreateFails(c)), c);
      assert ([CreateFails(c)] + es)[1..] == es;
    } else {
      LastStepsRelease(s, c);
      assert [] + es == es;
    }
  }

  lemma LastStepsRelease(s: Sys, c: string)
    requires s.worker.Resting? && s.class_.Present? && s.class_.deleting && s.claims.Keys == {c}
    requires !s.claims[c].progress.Resolved?
    ensures var es := [ServerGone(c), RemoveClaim(c), ListClaims, Release(Patched)];
      Run(s, es) && After(s, es) == Sys(Absent, map[], Resting)
  {
    var s1 := Next(s, ServerGone(c));
    var s2 := Next(s1, RemoveClaim(c));
    assert s2 == s.(claims := map[]);
    var s3 := Next(s2, ListClaims);
    Chain([s, s1, s2, s3, Next(s3, Release(Patched))],
          [ServerGone(c), RemoveClaim(c), ListClaims, Release(Patched)]);
  }

  /** The wait ends: with no claims left, a list and an answered patch remove the object. */
  lemma ReleaseHappens(s: Sys)
    requires s.worker.Resting? && s.class_.Present? && s.class_.deleting
    ensures var s' := Next(s, ListClaims);
            if s.claims == map[] then
              && s'.worker.Releasing? && Next(s', Release(Patched)).class_.Absent?
              && Next(s', Release(PatchFailed)) == s == Next(s', Release(PatchNotFound))
            else s' == s
  {
  }
}
