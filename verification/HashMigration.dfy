/** Re-stamping NodeClaims when the hash algorithm's version moves
    (pkg/controllers/nodeclass/hash/controller.go), with crashes, failed patches and retries at any
    point. */
module HashMigration {
  import opened Options
  import opened Drift

  datatype PatchReply = Patched | PatchNotFound | PatchFailed

  /** `flagged`: the claim has a Drifted condition. */
  datatype Claim = Claim(annotations: Annotations, flagged: bool)

  predicate UpToDate(a: Annotations) {
    HASH_VERSION in a && a[HASH_VERSION] == CURRENT_VERSION
  }

  /** The annotations a patch sets, computed from the claim as it was listed. */
  function Changes(listed: Claim, hash: string): Annotations {
    if listed.flagged then map[HASH_VERSION := CURRENT_VERSION]
    else map[HASH_VERSION := CURRENT_VERSION, HASH := hash]
  }

  function Migrate(c: Claim, hash: string): Claim {
    if UpToDate(c.annotations) then c else c.(annotations := c.annotations + Changes(c, hash))
  }

  /** The claim after its patch, which may not arrive. */
  function Answered(c: Claim, arrived: bool, hash: string): Claim {
    if arrived then Migrate(c, hash) else c
  }

  function StampClass(a: Annotations, hash: string): Annotations {
    a + map[HASH := hash, HASH_VERSION := CURRENT_VERSION]
  }

  // ---------------------------------------------------------------- the controller

  class ClaimObject {
    var annotations: Annotations
    const flagged: bool

    constructor (annotations: Annotations, flagged: bool)
      ensures this.annotations == annotations && this.flagged == flagged
    {
      this.annotations := annotations;
      this.flagged := flagged;
    }

    function View(): Claim
      reads this
    {
      Claim(annotations, flagged)
    }
  }

  class NodeClassObject {
    var annotations: Annotations

    constructor (annotations: Annotations)
      ensures this.annotations == annotations
    {
      this.annotations := annotations;
    }
  }

  /** The loop over the claims; `listed` says whether listing them worked. Each listed claim is migrated or, if
      its patch does not arrive, left as it was; the loop goes on after a failure, and a claim that no longer
      exists is no failure. A listing that fails is one, and then nothing is touched. */
  method UpdateNodeClaimHash(listed: bool, claims: seq<ClaimObject>, hash: string, replies: seq<PatchReply>)
    returns (failed: bool)
    requires |replies| == |claims|
    requires forall i, j :: 0 <= i < j < |claims| ==> claims[i] != claims[j]
    modifies claims
    ensures forall i :: 0 <= i < |claims| ==>
      claims[i].View() == Answered(old(claims[i].View()), listed && replies[i].Patched?, hash)
    ensures forall i :: 0 <= i < |claims| ==>
      var before, after := old(claims[i].annotations), claims[i].annotations;
      if listed && replies[i].Patched? && !(HASH_VERSION in before && before[HASH_VERSION] == "v1") then
        && HASH_VERSION in after && after[HASH_VERSION] == "v1"
        && (claims[i].flagged ==> after - {HASH_VERSION} == before - {HASH_VERSION})
        && (!claims[i].flagged ==> HASH in after && after[HASH] == hash)
        && after - {HASH, HASH_VERSION} == before - {HASH, HASH_VERSION}
      else after == before
    ensures failed <==>
      !listed || exists i :: 0 <= i < |claims| && replies[i].PatchFailed? && !UpToDate(old(claims[i].annotations))
  {
    KeysDiffer();
    if !listed {
      return true;
    }
    failed := false;
    for k := 0 to |claims|
      invariant forall i :: 0 <= i < k ==>
        claims[i].View() == Answered(old(claims[i].View()), replies[i].Patched?, hash)
      invariant forall i :: k <= i < |claims| ==> claims[i].annotations == old(claims[i].annotations)
      invariant failed <==> exists i :: 0 <= i < k && replies[i].PatchFailed? && !UpToDate(old(claims[i].annotations))
    {
      var nc := claims[k];
      if !UpToDate(nc.annotations) {
        var updated := nc.annotations[HASH_VERSION := CURRENT_VERSION];
        if !nc.flagged {
          updated := updated[HASH := hash];
        }
        assert updated == nc.annotations + Changes(nc.View(), hash);
        if replies[k].Patched? {
          nc.annotations := updated;
        }
        if replies[k].PatchFailed? {
          failed := true;
        }
      }
    }
  }

  /** One undisturbed reconcile: claims first, the NodeClass only when the listing and every claim's patch
      worked. */
  method Reconcile(nodeClass: NodeClassObject, listed: bool, claims: seq<ClaimObject>, hash: string,
                   replies: seq<PatchReply>, own: PatchReply)
    returns (ok: bool)
    requires |replies| == |claims|
    requires forall i, j :: 0 <= i < j < |claims| ==> claims[i] != claims[j]
    modifies nodeClass, claims
    ensures UpToDate(old(nodeClass.annotations)) ==>
      forall i :: 0 <= i < |claims| ==> claims[i].annotations == old(claims[i].annotations)
    ensures !UpToDate(old(nodeClass.annotations)) ==> forall i :: 0 <= i < |claims| ==>
      claims[i].View() == Answered(old(claims[i].View()), listed && replies[i].Patched?, hash)
    ensures var blocked := !UpToDate(old(nodeClass.annotations))
              && (!listed || exists i ::
                    0 <= i < |claims| && replies[i].PatchFailed? && !UpToDate(old(claims[i].annotations)));
      var stamped := StampClass(old(nodeClass.annotations), hash);
      && nodeClass.annotations == (if !blocked && own.Patched? then stamped else old(nodeClass.annotations))
      && (ok <==> !blocked && (own.PatchFailed? ==> stamped == old(nodeClass.annotations)))
      && (!blocked && own.Patched? ==>
            && HASH in nodeClass.annotations && nodeClass.annotations[HASH] == hash
            && HASH_VERSION in nodeClass.annotations && nodeClass.annotations[HASH_VERSION] == "v1")
    ensures nodeClass.annotations - {HASH, HASH_VERSION} == old(nodeClass.annotations) - {HASH, HASH_VERSION}
  {
    KeysDiffer();
    if !UpToDate(nodeClass.annotations) {
      var failed := UpdateNodeClaimHash(listed, claims, hash, replies);
      if failed {
        return false;
      }
    }
    var stamped := nodeClass.annotations + map[HASH := hash, HASH_VERSION := CURRENT_VERSION];
    if stamped != nodeClass.annotations {
      if own.Patched? {
        nodeClass.annotations := stamped;
      }
      return !own.PatchFailed?;
    }
    ok := true;
  }

  // ---------------------------------------------------------------- one claim, before and after

  /** What migration does to the drift verdict of an unflagged claim: afterwards it drifts exactly when it
      already carried the current version with another hash. */
  lemma UnflaggedAfterMigration(c: Claim, class_: Annotations, hash: string)
    requires !c.flagged
    ensures StaticDrift(Migrate(c, hash).annotations, StampClass(class_, hash))
       <==> UpToDate(c.annotations) && HASH in c.annotations && c.annotations[HASH] != hash
  {
    KeysDiffer();
  }

  /** A flagged claim keeps its hash, and drifts afterwards exactly when that differs from the new one. */
  lemma FlaggedAfterMigration(c: Claim, class_: Annotations, hash: string)
    requires c.flagged
    ensures HASH in c.annotations <==> HASH in Migrate(c, hash).annotations
    ensures HASH in c.annotations ==> Migrate(c, hash).annotations[HASH] == c.annotations[HASH]
    ensures StaticDrift(Migrate(c, hash).annotations, StampClass(class_, hash))
       <==> HASH in c.annotations && c.annotations[HASH] != hash
  {
    KeysDiffer();
  }

  /** Drift that nobody has flagged yet is forgiven: a claim that drifts under the old version does not
      drift once it and its NodeClass are migrated. */
  lemma UnflaggedDriftIsForgiven(c: Claim, class_: Annotations, hash: string)
    requires !c.flagged && StaticDrift(c.annotations, class_) && !UpToDate(class_)
    ensures !StaticDrift(Migrate(c, hash).annotations, StampClass(class_, hash))
  {
    KeysDiffer();
  }

  // ---------------------------------------------------------------- interrupted runs

  /** A reconcile between its list and its own patch: the claims still to do, as they were listed. */
  datatype Phase = Idle | Migrating(todo: map<string, Claim>, failed: bool)

  datatype Sys = Sys(class_: Annotations, claims: map<string, Claim>, phase: Phase)

  datatype Event =
    | Start
    | PatchClaim(name: string, reply: PatchReply)
    | PatchClass(reply: PatchReply)
    | Crash
    | Flag(name: string) | Unflag(name: string)
    | Launch(name: string)
    | Remove(name: string)

  /** The spec, and so the hash, does not change during the run. A patch is answered NotFound only for a
      claim that is gone, and arrives only for one that is there. */
  predicate Enabled(s: Sys, e: Event) {
    match e
    case Start => s.phase.Idle?
    case PatchClaim(name, reply) =>
      && s.phase.Migrating? && name in s.phase.todo
      && (reply.Patched? ==> name in s.claims) && (reply.PatchNotFound? ==> name !in s.claims)
    case PatchClass(_) => s.phase.Migrating? && s.phase.todo == map[] && !s.phase.failed
    case Crash => true
    case Flag(name) => name in s.claims
    case Unflag(name) => name in s.claims
    case Launch(name) => name !in s.claims
    case Remove(name) => name in s.claims
  }

  /** Start lists the claims when the NodeClass's version is behind and lists nothing otherwise; claims
      that are up to date are passed over. */
  function Next(s: Sys, e: Event, hash: string): Sys
    requires Enabled(s, e)
  {
    match e
    case Start =>
      var todo :=
        if UpToDate(s.class_) then map[]
        else map n | n in s.claims && !UpToDate(s.claims[n].annotations) :: s.claims[n];
      s.(phase := Migrating(todo, false))
    case PatchClaim(name, reply) =>
      var phase := Migrating(s.phase.todo - {name}, s.phase.failed || reply.PatchFailed?);
      if reply.Patched? then
        var c := s.claims[name];
        var patched := c.(annotations := c.annotations + Changes(s.phase.todo[name], hash));
        s.(phase := phase, claims := s.claims[name := patched])
      else s.(phase := phase)
    case PatchClass(reply) =>
      s.(phase := Idle, class_ := if reply.Patched? then StampClass(s.class_, hash) else s.class_)
    case Crash => s.(phase := Idle)
    case Flag(name) => s.(claims := s.claims[name := s.claims[name].(flagged := true)])
    case Unflag(name) => s.(claims := s.claims[name := s.claims[name].(flagged := false)])
    case Launch(name) =>
      s.(claims := s.claims[name := Claim(map[HASH := hash, HASH_VERSION := CURRENT_VERSION], false)])
    case Remove(name) => s.(claims := s.claims - {name})
  }

  predicate Run(s: Sys, es: seq<Event>, hash: string)
    decreases |es|
  {
    es == [] || (Enabled(s, es[0]) && Run(Next(s, es[0], hash), es[1..], hash))
  }

  function After(s: Sys, es: seq<Event>, hash: string): Sys
    requires Run(s, es, hash)
    decreases |es|
  {
    if es == [] then s else After(Next(s, es[0], hash), es[1..], hash)
  }

  /** Carries no hash of the current version but the current hash. */
  predicate Truthful(a: Annotations, hash: string) {
    UpToDate(a) && HASH in a ==> a[HASH] == hash
  }

  /** Kept by every step for a claim that is never flagged. */
  ghost predicate Clean(s: Sys, name: string, hash: string) {
    && Truthful(s.class_, hash)
    && (name in s.claims ==>
          && !s.claims[name].flagged
          && Truthful(s.claims[name].annotations, hash)
          && !StaticDrift(s.claims[name].annotations, s.class_))
    && (s.phase.Migrating? && name in s.phase.todo ==> !s.phase.todo[name].flagged)
  }

  lemma CleanStep(s: Sys, e: Event, name: string, hash: string)
    requires Clean(s, name, hash) && Enabled(s, e) && e != Flag(name)
    ensures Clean(Next(s, e, hash), name, hash)
  {
    KeysDiffer();
  }

  /** Crash safety. In every state of every run in which the claim is not flagged - any subset of the
      patches done, any of them failed, the controller restarted at any point, other claims launched,
      flagged and removed - a claim that did not drift at the start does not drift. What it takes of the
      start is that a hash already stamped with the current version is the current hash. */
  lemma {:induction false} NoDriftAtAnyPoint(s: Sys, es: seq<Event>, name: string, hash: string)
    requires Clean(s, name, hash) && Run(s, es, hash) && Flag(name) !in es
    ensures var s' := After(s, es, hash);
            name in s'.claims ==> !StaticDrift(s'.claims[name].annotations, s'.class_)
    decreases |es|
  {
    if es != [] {
      CleanStep(s, es[0], name, hash);
      NoDriftAtAnyPoint(Next(s, es[0], hash), es[1..], name, hash);
    }
  }

  /** Flagged, and no reconcile under way holds an older view of it. */
  ghost predicate KnownDrifted(s: Sys, name: string, hashed: Option<string>) {
    && name in s.claims && s.claims[name].flagged
    && (if HASH in s.claims[name].annotations then hashed == Some(s.claims[name].annotations[HASH]) else hashed.None?)
    && (s.phase.Migrating? && name in s.phase.todo ==> s.phase.todo[name].flagged)
  }

  /** A flagged claim's hash is never rewritten, over any run that does not unflag or remove it. */
  lemma {:induction false} FlaggedHashIsKept(s: Sys, es: seq<Event>, name: string, hash: string, hashed: Option<string>)
    requires KnownDrifted(s, name, hashed) && Run(s, es, hash)
    requires Unflag(name) !in es && Remove(name) !in es
    ensures KnownDrifted(After(s, es, hash), name, hashed)
    decreases |es|
  {
    KeysDiffer();
    if es != [] {
      assert KnownDrifted(Next(s, es[0], hash), name, hashed);
      FlaggedHashIsKept(Next(s, es[0], hash), es[1..], name, hash, hashed);
    }
  }

  /** The flag is read from the list. A claim flagged between the list and its patch has its hash
      rewritten after all. */
  lemma LateFlagIsForgiven(s: Sys, name: string, hash: string)
    requires s.phase.Idle? && !UpToDate(s.class_) && name in s.claims && !s.claims[name].flagged
    requires HASH in s.claims[name].annotations && s.claims[name].annotations[HASH] != hash
    requires !UpToDate(s.claims[name].annotations)
    ensures var s1 := Next(s, Start, hash);
            var s2 := Next(s1, Flag(name), hash);
            && Enabled(s2, PatchClaim(name, Patched))
            && var c := Next(s2, PatchClaim(name, Patched), hash).claims[name];
               c.flagged && HASH in c.annotations && c.annotations[HASH] == hash
  {
    KeysDiffer();
  }

  function HashOf(s: Sys, name: string): Option<string> {
    if name in s.claims && HASH in s.claims[name].annotations then Some(s.claims[name].annotations[HASH]) else None
  }

  /** A reconcile under way listed the claim before it was flagged and has not patched it yet. */
  predicate ListedUnflagged(s: Sys, name: string) {
    s.phase.Migrating? && name in s.phase.todo && !s.phase.todo[name].flagged
  }

  /** A claim that is flagged, with another hash than the current one or none, keeps what it has over every run that
      does not unflag or remove it, if and only if no reconcile under way has listed it before it was flagged. */
  lemma FlaggedHashKeptIff(s: Sys, name: string, hash: string)
    requires name in s.claims && s.claims[name].flagged && HashOf(s, name) != Some(hash)
    ensures (forall es: seq<Event> :: Run(s, es, hash) && Unflag(name) !in es && Remove(name) !in es ==>
               HashOf(After(s, es, hash), name) == HashOf(s, name))
       <==> !ListedUnflagged(s, name)
  {
    if ListedUnflagged(s, name) {
      KeysDiffer();
      RunOne(s, PatchClaim(name, Patched), hash);
      assert HashOf(After(s, [PatchClaim(name, Patched)], hash), name) == Some(hash);
    } else {
      forall es: seq<Event> | Run(s, es, hash) && Unflag(name) !in es && Remove(name) !in es
        ensures HashOf(After(s, es, hash), name) == HashOf(s, name)
      {
        FlaggedHashIsKept(s, es, name, hash, HashOf(s, name));
      }
    }
  }

  /** A restart forgets what was listed and done and changes nothing else: the next reconcile lists the claims as
      they are then, exactly those whose version is behind, unless the NodeClass is up to date. */
  lemma RestartListsAfresh(s: Sys, hash: string, name: string)
    ensures var s' := Next(Next(s, Crash, hash), Start, hash);
      && s'.claims == s.claims && s'.class_ == s.class_ && s'.phase.Migrating? && !s'.phase.failed
      && (name in s'.phase.todo <==>
            && name in s.claims && !(HASH_VERSION in s.class_ && s.class_[HASH_VERSION] == "v1")
            && !(HASH_VERSION in s.claims[name].annotations && s.claims[name].annotations[HASH_VERSION] == "v1"))
      && (name in s'.phase.todo ==> s'.phase.todo[name] == s.claims[name])
  {
  }

  /** A condition that comes and goes, and a claim that is launched, change that claim alone. */
  lemma OneClaimMoves(s: Sys, hash: string, name: string)
    ensures name in s.claims ==>
      && Next(s, Flag(name), hash) == s.(claims := s.claims[name := Claim(s.claims[name].annotations, true)])
      && Next(s, Unflag(name), hash) == s.(claims := s.claims[name := Claim(s.claims[name].annotations, false)])
      && name !in Next(s, Remove(name), hash).claims
      && Next(s, Remove(name), hash).claims == s.claims - {name}
    ensures name !in s.claims ==>
      var s' := Next(s, Launch(name), hash);
      && s'.claims - {name} == s.claims && name in s'.claims && !s'.claims[name].flagged
      && s'.claims[name].annotations == map[HASH := hash, HASH_VERSION := "v1"]
  {
  }

  // ---------------------------------------------------------------- convergence

  predicate Alone(e: Event) {
    e.Start? || e.PatchClaim? || e.PatchClass? || e.Crash?
  }

  function MigrateAll(claims: map<string, Claim>, hash: string): map<string, Claim> {
    map n | n in claims :: Migrate(claims[n], hash)
  }

  /** Every claim is as it was or migrated; those no longer to do are migrated unless a patch failed; and
      the NodeClass is stamped only over migrated claims. */
  ghost predicate Converging(s0: Sys, s: Sys, hash: string) {
    && s.claims.Keys == s0.claims.Keys
    && (forall n :: n in s.claims ==> s.claims[n] == s0.claims[n] || s.claims[n] == Migrate(s0.claims[n], hash))
    && (s.class_ == s0.class_ || (s.class_ == StampClass(s0.class_, hash) && s.claims == MigrateAll(s0.claims, hash)))
    && (s.phase.Migrating? ==>
          && (forall n :: n in s.phase.todo ==>
                n in s.claims && s.phase.todo[n] == s.claims[n] && !UpToDate(s.claims[n].annotations))
          && (!s.phase.failed ==>
                forall n :: n in s.claims && n !in s.phase.todo ==> s.claims[n] == Migrate(s0.claims[n], hash)))
  }

  lemma ConvergingStep(s0: Sys, s: Sys, e: Event, hash: string)
    requires !UpToDate(s0.class_)
    requires Converging(s0, s, hash) && Enabled(s, e) && Alone(e)
    ensures Converging(s0, Next(s, e, hash), hash)
  {
    match e
    case PatchClaim(name, reply) => ConvergingPatch(s0, s, name, reply, hash);
    case PatchClass(reply) => ConvergingStamp(s0, s, reply, hash);
    case _ => ConvergingRest(s0, s, e, hash);
  }

  lemma ConvergingPatch(s0: Sys, s: Sys, name: string, reply: PatchReply, hash: string)
    requires !UpToDate(s0.class_)
    requires Converging(s0, s, hash) && Enabled(s, PatchClaim(name, reply))
    ensures Converging(s0, Next(s, PatchClaim(name, reply), hash), hash)
  {
    KeysDiffer();
    var c := s.claims[name];
    assert s.phase.todo[name] == c;
    assert UpToDate(Migrate(s0.claims[name], hash).annotations);
    assert c == s0.claims[name];
    var s' := Next(s, PatchClaim(name, reply), hash);
    if reply.Patched? {
      assert s'.claims[name] == Migrate(c, hash);
      assert s.claims != MigrateAll(s0.claims, hash);
    }
  }

  lemma ConvergingStamp(s0: Sys, s: Sys, reply: PatchReply, hash: string)
    requires !UpToDate(s0.class_)
    requires Converging(s0, s, hash) && Enabled(s, PatchClass(reply))
    ensures Converging(s0, Next(s, PatchClass(reply), hash), hash)
  {
    assert s.claims == MigrateAll(s0.claims, hash);
    assert StampClass(StampClass(s0.class_, hash), hash) == StampClass(s0.class_, hash);
  }

  lemma ConvergingRest(s0: Sys, s: Sys, e: Event, hash: string)
    requires !UpToDate(s0.class_)
    requires Converging(s0, s, hash) && Enabled(s, e) && (e.Start? || e.Crash?)
    ensures Converging(s0, Next(s, e, hash), hash)
  {
    KeysDiffer();
  }

  /** However often the migration is interrupted and retried, the NodeClass ends up stamped only together
      with exactly the claims one uninterrupted run produces. */
  lemma {:induction false} RetriesConverge(s0: Sys, s: Sys, es: seq<Event>, hash: string)
    requires !UpToDate(s0.class_) && Converging(s0, s, hash) && Run(s, es, hash)
    requires forall e :: e in es ==> Alone(e)
    ensures var s' := After(s, es, hash);
            && Converging(s0, s', hash)
            && (UpToDate(s'.class_) ==>
                  s'.class_ == StampClass(s0.class_, hash) && s'.claims == MigrateAll(s0.claims, hash))
    decreases |es|
  {
    if es != [] {
      assert es[0] in es;
      ConvergingStep(s0, s, es[0], hash);
      RetriesConverge(s0, Next(s, es[0], hash), es[1..], hash);
    }
  }

  lemma LastPatch(s0: Sys, s: Sys, hash: string)
    requires !UpToDate(s0.class_) && Converging(s0, s, hash) && s.phase.Migrating?
    requires !s.phase.failed && s.phase.todo == map[]
    ensures Enabled(s, PatchClass(Patched))
    ensures Next(s, PatchClass(Patched), hash) == Sys(StampClass(s0.class_, hash), MigrateAll(s0.claims, hash), Idle)
  {
    assert s.claims == MigrateAll(s0.claims, hash);
    assert StampClass(StampClass(s0.class_, hash), hash) == StampClass(s0.class_, hash);
  }

  /** From any point of such a run, patches that arrive finish the migration. */
  lemma {:induction false} Finishes(s0: Sys, s: Sys, hash: string) returns (es: seq<Event>)
    requires !UpToDate(s0.class_) && Converging(s0, s, hash) && s.phase.Migrating? && !s.phase.failed
    ensures Run(s, es, hash) && (forall e :: e in es ==> Alone(e))
    ensures After(s, es, hash) == Sys(StampClass(s0.class_, hash), MigrateAll(s0.claims, hash), Idle)
    decreases |s.phase.todo|
  {
    if s.phase.todo == map[] {
      es := [PatchClass(Patched)];
      LastPatch(s0, s, hash);
      assert es[1..] == [];
    } else {
      var name :| name in s.phase.todo;
      var e := PatchClaim(name, Patched);
      ConvergingStep(s0, s, e, hash);
      assert |s.phase.todo - {name}| < |s.phase.todo|;
      var rest := Finishes(s0, Next(s, e, hash), hash);
      es := [e] + rest;
      assert es[1..] == rest;
    }
  }

  // ---------------------------------------------------------------- exactly when

  predicate DriftFree(s: Sys, name: string) {
    name in s.claims ==> !StaticDrift(s.claims[name].annotations, s.class_)
  }

  /** A run that leaves an untruthful claim, or a claim launched under an untruthful NodeClass, drifted. */
  lemma UntruthfulDrifts(s: Sys, name: string, hash: string) returns (es: seq<Event>)
    requires s.phase.Idle? && name in s.claims && !s.claims[name].flagged
    requires !Truthful(s.class_, hash) || !Truthful(s.claims[name].annotations, hash)
    ensures Run(s, es, hash) && Flag(name) !in es && !DriftFree(After(s, es, hash), name)
  {
    KeysDiffer();
    if !Truthful(s.class_, hash) {
      es := [Remove(name), Launch(name)];
      RunTwo(s, Remove(name), Launch(name), hash);
    } else if UpToDate(s.class_) {
      es := [Start, PatchClass(Patched)];
      RunTwo(s, Start, PatchClass(Patched), hash);
    } else {
      ConvergingStep(s, s, Start, hash);
      var rest := Finishes(s, Next(s, Start, hash), hash);
      es := [Start] + rest;
      assert es[1..] == rest;
      UnflaggedAfterMigration(s.claims[name], s.class_, hash);
    }
  }

  lemma RunOne(s: Sys, e: Event, hash: string)
    requires Enabled(s, e)
    ensures Run(s, [e], hash) && After(s, [e], hash) == Next(s, e, hash)
  {
    assert [e][1..] == [];
  }

  lemma RunTwo(s: Sys, e1: Event, e2: Event, hash: string)
    requires Enabled(s, e1) && Enabled(Next(s, e1, hash), e2)
    ensures Run(s, [e1, e2], hash) && After(s, [e1, e2], hash) == Next(Next(s, e1, hash), e2, hash)
  {
    assert [e1, e2][1..] == [e2];
    RunOne(Next(s, e1, hash), e2, hash);
  }

  /** Between reconciles, an unflagged claim that does not drift stays free of drift over every run that does
      not flag it exactly when neither it nor its NodeClass carries a current-version hash other than the
      current one. */
  lemma DriftFreeIff(s: Sys, name: string, hash: string)
    requires s.phase.Idle? && name in s.claims && !s.claims[name].flagged && DriftFree(s, name)
    ensures (forall es: seq<Event> :: Run(s, es, hash) && Flag(name) !in es ==> DriftFree(After(s, es, hash), name))
       <==> Truthful(s.class_, hash) && Truthful(s.claims[name].annotations, hash)
  {
    if Truthful(s.class_, hash) && Truthful(s.claims[name].annotations, hash) {
      forall es: seq<Event> | Run(s, es, hash) && Flag(name) !in es
        ensures DriftFree(After(s, es, hash), name)
      {
        NoDriftAtAnyPoint(s, es, name, hash);
      }
    } else {
      var es := UntruthfulDrifts(s, name, hash);
    }
  }
}
