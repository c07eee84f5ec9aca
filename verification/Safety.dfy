/** Which requests the controller may send in which state, what holds in every state it
    can reach, and what other actors leave alone. */
module Safety {
  import opened Basics
  import opened Templates
  import opened Cluster
  import Hostnames
  import Ingresses

  const MAX_BUNDLES: nat := 3

  // ---- the invariant ----

  type Pinned = map<Name, nat>

  predicate SecretsFresh(secrets: map<Name, Secret>, next: nat) {
    forall n :: n in secrets ==> 0 < secrets[n].uid < next && secrets[n].rv < next && 0 < secrets[n].created
  }

  predicate DeployFresh(w: Workload, next: nat) { w.deploy.Some? ==> w.deploy.value.rv < next }

  predicate IngressFresh(i: Option<Ingress>, next: nat) { i.Some? ==> i.value.rv < next }

  predicate MineFresh(mine: map<nat, Made>, next: nat) { forall u :: u in mine ==> 0 < u < next }

  /** Every UID and resource version was issued before `next`. */
  predicate Fresh(s: State) {
    && 0 < s.next && s.inst.rv < s.next && SecretsFresh(s.secrets, s.next)
    && MineFresh(s.past.mine, s.next) && DeployFresh(s.work, s.next) && IngressFresh(s.ingress, s.next)
  }

  /** A Secret with a UID of ours is what we created, under the name we created it. */
  predicate Genuine(secrets: map<Name, Secret>, mine: map<nat, Made>) {
    forall n :: n in secrets && secrets[n].uid in mine ==>
      mine[secrets[n].uid] == Made(n, secrets[n].data) && secrets[n].immutable
  }

  predicate OursAt(h: History, n: Name, u: nat) { u in h.mine && h.mine[u].name == n }

  predicate PinsOurs(pins: Pinned, h: History) {
    && (forall n :: n in pins ==> OursAt(h, n, pins[n]))
    && (h.pending.Some? ==>
          && OursAt(h, h.pending.value.0, h.pending.value.1) && h.pending.value.1 !in h.erased
          && forall n :: n in pins ==> pins[n] != h.pending.value.1)
  }

  predicate PinsBounded(pins: Pinned) {
    && (forall n :: n in pins ==> n.Session? || n.Access?)
    && (pins != map[] ==> Name.Session in pins)
    && |pins| <= MAX_BUNDLES + 1
  }

  predicate CacheBehind(c: Cached, d: Deployment) {
    && c.generation <= d.generation && d.observed <= c.generation
    && (c.generation == d.generation ==> c.replicas == d.replicas && c.template == d.template)
    && (0 < c.replicas ==> c.template == d.template)
  }

  /** The fields that the controller never assigns refer to no bundle. */
  predicate BundlesManaged(t: PodTemplate) { forall n :: n in UnmanagedRefs(t.spec) ==> !n.Access? }

  lemma UnmanagedAreRefs(t: PodTemplate)
    ensures AccessRefs(t) == {} ==> BundlesManaged(t)
  {
    assert forall c :: c in t.spec.ephemeral ==> c in t.spec.init + t.spec.containers + t.spec.ephemeral;
    assert forall n :: n in SecretRefs(t.spec) && n.Access? ==> n in AccessRefs(t);
  }

  /** All pods run the Deployment's current template, and so will every pod that the
      possibly stale Deployment controller can still create. */
  predicate OneTemplate(w: Workload) {
    match w.deploy
    case None => w.pods == [] && w.cache.None?
    case Some(d) =>
      && 0 < d.generation && BundlesManaged(d.template)
      && (forall i :: 0 <= i < |w.pods| ==> w.pods[i].template == d.template)
      && (if w.cache.Some? then CacheBehind(w.cache.value, d) else d.observed == 0)
  }

  /** Every bundle the Deployment template mounts is pinned, and was not erased. */
  predicate MountsPinned(w: Workload, pins: Pinned, erased: set<nat>) { Holds(pins, erased, OwnMounts(w)) }

  predicate Holds(pins: Pinned, erased: set<nat>, names: set<Name>) { names <= pins.Keys && NoneErased(names, pins, erased) }

  lemma MountsAreRefs(w: Workload)
    ensures OwnMounts(w) <= OwnRefs(w)
  {}

  /** A spec that does not name a bundle as its backend credentials. */
  predicate Ordinary(s: State, inst: Instance) { s.solo ==> !inst.spec.secretRef.Access? }

  function ErasedPins(pins: Pinned, erased: set<nat>): set<nat> { erased * pins.Values }

  /** Deletions against dropped pins: an erased UID is still pinned, or its pin was dropped. */
  predicate Counted(pins: Pinned, h: History) { |h.erased - pins.Values| <= h.retired }

  /** Only bundles are ever erased. */
  predicate ErasedBundles(h: History) { forall u :: u in h.erased ==> u in h.mine && h.mine[u].name.Access? }

  predicate NoneHeld(secrets: map<Name, Secret>) { forall n :: n in secrets ==> !secrets[n].held }

  predicate ErasedGone(secrets: map<Name, Secret>, erased: set<nat>) {
    forall n :: n in secrets ==> secrets[n].uid !in erased
  }

  /** A Secret this controller asked to delete is gone or being deleted. */
  predicate ErasedMarked(secrets: map<Name, Secret>, erased: set<nat>) {
    forall n :: n in secrets && secrets[n].uid in erased ==> secrets[n].deleting
  }

  predicate NoneErased(names: set<Name>, pins: Pinned, erased: set<nat>) {
    forall n :: n in names && n in pins ==> pins[n] !in erased
  }

  predicate Alone(s: State) {
    && |ErasedPins(Pins(s), s.past.erased)| <= 1
    && NoneHeld(s.secrets) && NoBundles(s.others) && ErasedGone(s.secrets, s.past.erased)
    && NoneErased(OwnRefs(s.work), Pins(s), s.past.erased) && Ordinary(s, s.inst)
  }

  /** `b` is the instance as it was read later than `a`; every edit of the spec gives a new generation. */
  predicate Lineage(a: Instance, b: Instance) { a.generation <= b.generation && (a.generation == b.generation ==> a.spec == b.spec) }

  /** The pass goes by an earlier version of the instance, and a pruned slug is never stored. */
  predicate Snapped(s: State) { Lineage(s.pass.inst, s.inst) && Stored(s, s.inst.status) == s.inst.status }

  predicate Good(s: State) {
    && Fresh(s) && Genuine(s.secrets, s.past.mine) && PinsOurs(Pins(s), s.past) && PinsBounded(Pins(s))
    && OneTemplate(s.work) && MountsPinned(s.work, Pins(s), s.past.erased) && ErasedMarked(s.secrets, s.past.erased)
    && ErasedBundles(s.past) && Counted(Pins(s), s.past) && Snapped(s)
    && (s.solo ==> Alone(s))
  }

  /** Where a run may start: no history, no pins; an older Deployment may exist. */
  predicate Initial(s: State) {
    && Fresh(s) && OneTemplate(s.work) && OwnRefs(s.work) == {}
    && Pins(s) == map[] && s.past == History(map[], None, {}, {}, 0) && s.pass == NoChecks(s.inst, None)
    && Stored(s, s.inst.status) == s.inst.status
    && (s.solo ==> NoneHeld(s.secrets) && NoBundles(s.others) && Ordinary(s, s.inst))
  }

  lemma InitialGood(s: State)
    requires Initial(s)
    ensures Good(s)
  {
    assert Pins(s).Values == {};
    assert ErasedPins(Pins(s), s.past.erased) == {};
  }

  // ---- permission ----

  /** If the object still has the version that was read, it is still the object that was read. */
  predicate SecretAsRead(s: State, n: Name, read: Secret) {
    && read.rv < s.next
    && (n in s.secrets && s.secrets[n].rv == read.rv ==> s.secrets[n] == read)
  }

  predicate DeploymentAsRead(s: State, read: Deployment) {
    && read.rv < s.next
    && (s.work.deploy.Some? && s.work.deploy.value.rv == read.rv ==> s.work.deploy.value == read)
  }

  predicate IngressAsRead(s: State, read: Ingress) {
    && read.rv < s.next
    && (s.ingress.Some? && s.ingress.value.rv == read.rv ==> s.ingress == Some(read))
  }

  /** The Deployment is scaled to zero, the Deployment controller has seen that, and no pod is left. */
  predicate Stopped(w: Workload) {
    && w.deploy.Some? && w.deploy.value.replicas == 0 && w.deploy.value.generation <= w.deploy.value.observed
    && w.pods == []
  }

  predicate PinStep(s: State, pins: map<Name, nat>) {
    && s.past.pending.Some? && s.past.pending.value.0 !in Pins(s)
    && pins == Pins(s)[s.past.pending.value.0 := s.past.pending.value.1]
    && (if s.past.pending.value.0.Session? then Pins(s) == map[]
        else s.past.pending.value.0.Access? && Name.Session in Pins(s) && |Pins(s)| <= MAX_BUNDLES)
  }

  ghost predicate UnpinStep(s: State, pins: map<Name, nat>) {
    exists n :: n in Pins(s) && DropsPin(s, n) && pins == Pins(s) - {n}
  }

  /** The lists of this pass show no workload that refers to the bundle. */
  predicate ListedIdle(p: Pass, n: Name) {
    && p.deployRefs.Some? && p.podRefs.Some? && n !in p.deployRefs.value && n !in p.podRefs.value
  }

  predicate DropsPin(s: State, n: Name) { n.Access? && n in s.past.gone && n !in OwnRefs(s.work) && ListedIdle(s.pass, n) }

  predicate MayErase(s: State, n: Name, read: Secret, room: Name) {
    && MayRead(s) && ListedIdle(s.pass, n)
    && n.Access? && n in Pins(s) && Pins(s)[n] == read.uid && n !in OwnRefs(s.work)
    && n != room && room !in Pins(s)
    && read.owned && read.immutable && SecretAsRead(s, n, read)
    && (s.solo ==> ErasedPins(Pins(s), s.past.erased) <= {read.uid})
  }

  /** The spec was edited after the pass read it. */
  predicate Edited(s: State) { s.pass.inst.generation < s.inst.generation }

  /** A bundle that is referred to but not mounted: the spec came to name it after the checks of the
      pass, and a pin made the pass read it again. */
  predicate RefsFit(s: State, template: PodTemplate) {
    AccessRefs(template) <= BundleMounts(template) || (s.pass.pinned && Edited(s))
  }

  /** A template may be written: its mounts are pinned, and none of its bundles was erased. */
  ghost predicate Permissible(s: State, template: PodTemplate) {
    && Holds(Pins(s), s.past.erased, BundleMounts(template)) && BundlesManaged(template) && RefsFit(s, template)
    && (s.solo ==> NoneErased(AccessRefs(template), Pins(s), s.past.erased))
  }

  ghost predicate MayUpdate(s: State, read: Deployment, template: PodTemplate) {
    && read.owned && DeploymentAsRead(s, read)
    && (template != read.template ==>
          Permissible(s, template) && Unowned(s.ingress) && (s.work.deploy == Some(read) ==> Stopped(s.work)))
  }

  /** More than one replica is asked for only when the spec was edited after the pass read it. */
  predicate ReplicasFit(s: State, replicas: nat) { replicas <= 1 || Edited(s) }

  /** The image and replica checks of this pass. */
  predicate Admitted(p: Pass) { ImageAllowed(p.inst.spec.image) && p.approved && p.inst.spec.replicas <= 1 }

  /** The last list of Ingresses left the selected host unclaimed. */
  predicate HostClear(p: Pass) { p.host.Some? && p.clear == p.host }

  /** Credentials may be read, and resources created: image, replicas and hostname are checked. */
  predicate MayRead(s: State) { Admitted(s.pass) && HostClear(s.pass) }

  predicate Ready(s: State) { MayRead(s) && s.pass.rolled && s.pass.endpoints && s.pass.healthy && s.pass.resolved }

  /** The address is that of the selected host. */
  predicate ShowsHost(p: Pass, url: string) {
    p.host.Some? && (url == "https://" + p.host.value || url == "http://" + p.host.value)
  }

  /** The route serves the selected host and no other. */
  predicate RoutesHost(p: Pass, body: Ingresses.Body) {
    p.host.Some? && body.defaultBackend.None? && forall i :: 0 <= i < |body.rules| ==> body.rules[i].host == p.host.value
  }

  /** The status does not call the instance ready and shows no address. */
  predicate Closed(x: Status) { !x.condition.ready && x.url == "" }

  /** The generation is that of a version of the instance since the pass read it. */
  predicate Dated(s: State, x: Status) {
    s.pass.inst.generation <= x.observed <= s.inst.generation && x.condition.observed == x.observed
  }

  ghost predicate MaySave(s: State, x: Status) {
    && MayRead(s) && x.pins == Pins(s) && Dated(s, x) && ShowsHost(s.pass, x.url) && (x.condition.ready ==> Ready(s))
  }

  /** The controller's side of the protocol. Reads of anything but Secrets are free. */
  ghost predicate Allowed(s: State, op: Op) {
    match op
    case ReadCredential => MayRead(s)
    case ReadSecret(_) => MayRead(s)
    case CreateSecret(n, _) => MayRead(s) && (n.Session? || n.Access?) && n !in Pins(s)
    case DeleteSecret(n, read, room) => MayErase(s, n, read, room)
    case PatchPins(_, pins) => MayRead(s) && (PinStep(s, pins) || UnpinStep(s, pins))
    case PatchStatus(before, after) => Closed(after) && Dated(s, after)
    case PutStatus(rv, status) => MaySave(s, status)
    case CreateDeployment(template, replicas) => MayRead(s) && Permissible(s, template) && ReplicasFit(s, replicas)
    case UpdateDeployment(read, replicas, template, _) =>
      && MayUpdate(s, read, template) && ReplicasFit(s, replicas)
      && (template != read.template || replicas > 0 ==> MayRead(s))
    case DeleteIngress(seen) => seen.owned && IngressAsRead(s, seen)
    case UpdateIngress(seen, body) => seen.owned && IngressAsRead(s, seen) && MayRead(s) && RoutesHost(s.pass, body)
    case CreateIngress(body) => MayRead(s) && RoutesHost(s.pass, body)
    case CreateService => MayRead(s)
    case UpdateService(_) => MayRead(s)
    case _ => true
  }

  // ---- what others leave alone ----

  predicate SameHistory(s: State, t: State) {
    && t.inst.status == s.inst.status && t.inst.finalizer == s.inst.finalizer
    && t.past == s.past && t.pass == s.pass && t.solo == s.solo && t.keepsPins == s.keepsPins && t.keepsSlug == s.keepsSlug
  }

  predicate SameTemplate(was: Deployment, now: Deployment) {
    now.template == was.template && now.recreate == was.recreate && now.selector == was.selector
  }

  predicate SameWorkload(v: Workload, w: Workload, next: nat) {
    && (if v.deploy.Some? then w.deploy.Some? && SameTemplate(v.deploy.value, w.deploy.value)
        else w.deploy.Some? ==> AccessRefs(w.deploy.value.template) == {})
    && (w.deploy.Some? && w.deploy.value.rv < next ==> v.deploy == w.deploy)
    && (Stopped(v) && w.deploy == v.deploy ==> Stopped(w))
  }

  predicate SameSecrets(was: map<Name, Secret>, now: map<Name, Secret>, next: nat) {
    && (forall n :: n in now && now[n].rv < next ==> n in was && was[n] == now[n])
    && (forall n :: n in now && now[n].uid < next ==> n in was && was[n].uid == now[n].uid)
  }

  ghost predicate Rely(s: State, t: State) {
    && s.next <= t.next && s.clock <= t.clock
    && SameHistory(s, t) && SameWorkload(s.work, t.work, s.next)
    && (t.inst.rv < s.next ==> t.inst == s.inst) && Lineage(s.inst, t.inst)
    && SameSecrets(s.secrets, t.secrets, s.next)
    && (Unowned(s.ingress) ==> Unowned(t.ingress))
    && (t.ingress.Some? && t.ingress.value.rv < s.next ==> t.ingress == s.ingress)
  }

  lemma RelyReflexive(s: State)
    ensures Rely(s, s)
  {}

  lemma RelyTransitive(s: State, t: State, u: State)
    requires Fresh(s) && Rely(s, t) && Rely(t, u)
    ensures Rely(s, u)
  {}

  /** One Secret after an act: new, gone, unchanged, or the same UID with a new version. */
  predicate NextVersion(was: Option<Secret>, now: Option<Secret>, stamp: nat) {
    now.Some? ==>
      || was == now
      || (now.value.rv == stamp && was.None? && now.value.uid == stamp && 0 < now.value.created)
      || (now.value.rv == stamp && was.Some? && now.value.uid == was.value.uid && now.value.created == was.value.created
          && (was.value.immutable ==> now.value.immutable && now.value.data == was.value.data)
          && (was.value.deleting ==> now.value.deleting))
  }

  lemma SecretStepVersion(was: Option<Secret>, x: SecretAct, stamp: nat, clock: nat, solo: bool)
    requires 0 < clock
    ensures NextVersion(was, SecretStep(was, x, stamp, clock, solo), stamp)
    ensures solo && SecretStep(was, x, stamp, clock, solo).Some? ==> !SecretStep(was, x, stamp, clock, solo).value.held
  {}

  lemma StoreSafe(m: map<Name, Secret>, mine: map<nat, Made>, erased: set<nat>, n: Name, now: Option<Secret>, stamp: nat)
    requires SecretsFresh(m, stamp) && Genuine(m, mine) && 0 < stamp && MineFresh(mine, stamp)
    requires NextVersion(Lookup(m, n), now, stamp) && erased <= mine.Keys
    ensures var t := Store(m, n, now);
      && SecretsFresh(t, stamp + 1) && Genuine(t, mine) && SameSecrets(m, t, stamp)
      && (ErasedGone(m, erased) ==> ErasedGone(t, erased)) && (ErasedMarked(m, erased) ==> ErasedMarked(t, erased))
      && (NoneHeld(m) && (now.Some? ==> !now.value.held) ==> NoneHeld(t))
  {
    hide ErasedGone, ErasedMarked, NoneHeld;
    StoreMarks(m, mine, erased, n, now, stamp);
  }

  lemma StoreMarks(m: map<Name, Secret>, mine: map<nat, Made>, erased: set<nat>, n: Name, now: Option<Secret>, stamp: nat)
    requires NextVersion(Lookup(m, n), now, stamp) && erased <= mine.Keys && MineFresh(mine, stamp)
    ensures var t := Store(m, n, now);
      && (ErasedGone(m, erased) ==> ErasedGone(t, erased)) && (ErasedMarked(m, erased) ==> ErasedMarked(t, erased))
      && (NoneHeld(m) && (now.Some? ==> !now.value.held) ==> NoneHeld(t))
  {}

  lemma WorkStepSafe(w: Workload, x: WorkAct, stamp: nat)
    requires OneTemplate(w) && (w.deploy.Some? ==> w.deploy.value.rv < stamp)
    ensures OneTemplate(WorkStep(w, x, stamp)) && SameWorkload(w, WorkStep(w, x, stamp), stamp)
    ensures WorkStep(w, x, stamp).deploy.Some? ==> WorkStep(w, x, stamp).deploy.value.rv <= stamp
  {
    hide BundlesManaged;
    if x.Foreign? {
      UnmanagedAreRefs(x.template);
    }
  }

  /** The parts that others may change, each within its own limits. */
  predicate Tolerable(s: State, t: State) {
    match s.past
    case History(mine, _, _, erased, _) =>
      && s.next < t.next && s.clock <= t.clock && SameHistory(s, t)
      && (t.inst == s.inst || t.inst.rv == s.next) && Lineage(s.inst, t.inst)
      && SecretsFresh(t.secrets, t.next) && Genuine(t.secrets, mine) && SameSecrets(s.secrets, t.secrets, s.next)
      && ErasedMarked(t.secrets, erased)
      && OneTemplate(t.work) && DeployFresh(t.work, t.next) && SameWorkload(s.work, t.work, s.next)
      && (t.ingress == s.ingress || t.ingress.None? || t.ingress.value.rv == s.next) && (Unowned(s.ingress) ==> Unowned(t.ingress))
      && (s.solo ==> NoneHeld(t.secrets) && NoBundles(t.others) && ErasedGone(t.secrets, erased) && Ordinary(t, t.inst))
  }

  lemma TolerableSafe(s: State, t: State)
    requires Good(s) && Tolerable(s, t)
    ensures Good(t) && Rely(s, t)
  {
    hide Genuine, PinsBounded, Counted, OneTemplate, ErasedGone, NoneHeld, NoBundles, Mounted, SecretRefs, ErasedPins;
    assert OwnRefs(t.work) <= OwnRefs(s.work);
    MountsAreRefs(t.work);
  }

  lemma SecretsTolerable(s: State, n: Name, now: Option<Secret>)
    requires Good(s) && NextVersion(Lookup(s.secrets, n), now, s.next)
    requires s.solo && now.Some? ==> !now.value.held
    ensures Tolerable(s, WithSecret(s, n, now))
  {
    StoreSafe(s.secrets, s.past.mine, s.past.erased, n, now, s.next);
  }

  lemma WorkActTolerable(s: State, x: WorkAct)
    requires Good(s)
    ensures Tolerable(s, AfterWorkAct(s, x))
  {
    WorkStepSafe(s.work, x, s.next);
  }

  lemma IngressActTolerable(s: State, x: IngressAct)
    requires Good(s)
    ensures Tolerable(s, AfterIngressAct(s, x))
  {
    hide Genuine, MineFresh, OneTemplate, NoneHeld, NoBundles, ErasedGone, Counted, PinsOurs, PinsBounded, NoneErased;
  }

  lemma InstanceActTolerable(s: State, spec: Spec, deleting: bool)
    requires Good(s)
    ensures Tolerable(s, AfterInstanceAct(s, spec, deleting))
  {}

  lemma RestActTolerable(s: State, r: Rest)
    requires Good(s)
    ensures Tolerable(s, AfterRestAct(s, r))
  {}

  lemma EnvTolerable(s: State, a: Act)
    requires Good(s)
    ensures Tolerable(s, EnvStep(s, a))
  {
    hide Tolerable, Good;
    match a
    case OnSecret(n, x) =>
      SecretStepVersion(Lookup(s.secrets, n), x, s.next, s.clock + 1, s.solo);
      SecretsTolerable(s, n, SecretStep(Lookup(s.secrets, n), x, s.next, s.clock + 1, s.solo));
    case OnWork(x) => WorkActTolerable(s, x);
    case OnIngress(x) => IngressActTolerable(s, x);
    case OnInstance(spec, deleting) => InstanceActTolerable(s, spec, deleting);
    case OnRest(r) => RestActTolerable(s, r);
  }

  lemma EnvActSafe(s: State, a: Act)
    requires Good(s)
    ensures Good(EnvStep(s, a)) && Rely(s, EnvStep(s, a))
  {
    hide Good, Tolerable;
    EnvTolerable(s, a);
    TolerableSafe(s, EnvStep(s, a));
  }

  lemma {:induction false} EnvRunSafe(s: State, acts: seq<Act>)
    requires Good(s)
    ensures Good(EnvRun(s, acts)) && Rely(s, EnvRun(s, acts))
    decreases |acts|
  {
    if acts == [] {
      RelyReflexive(s);
    } else {
      var t := EnvStep(s, acts[0]);
      EnvActSafe(s, acts[0]);
      EnvRunSafe(t, acts[1..]);
      RelyTransitive(s, t, EnvRun(t, acts[1..]));
    }
  }

  /** Permission survives whatever others do before the request arrives. */
  lemma AllowedStable(s: State, t: State, op: Op)
    requires Rely(s, t) && Allowed(s, op)
    ensures Allowed(t, op)
  {}
}
