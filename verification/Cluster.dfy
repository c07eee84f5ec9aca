/** The API server's state as one instance sees it, the requests the controller sends,
    and what everybody else may do between two of them. Names, UIDs and resource
    versions are assigned as the API server assigns them; one counter provides all. */
module Cluster {
  import opened Basics
  import opened Templates
  import Ingresses
  import Hostnames

  type Data = map<string, string>

  datatype Secret = Secret(uid: nat, rv: nat, owned: bool, immutable: bool, deleting: bool, held: bool,
                           created: nat, data: Data)

  /** `observed` and the counts after it are the status that the Deployment controller reports. */
  datatype Deployment = Deployment(rv: nat, generation: nat, owned: bool, selector: bool, replicas: nat, recreate: bool,
                                   template: PodTemplate, observed: nat, running: nat, updated: nat, ready: nat, available: nat)

  /** The spec the Deployment controller acts on; it may be stale. */
  datatype Cached = Cached(generation: nat, replicas: nat, template: PodTemplate)

  datatype Pod = Pod(template: PodTemplate, terminating: bool)

  datatype Ingress = Ingress(uid: nat, rv: nat, owned: bool, body: Ingresses.Body)

  datatype Service = Service(rv: nat, owned: bool, matches: bool)

  datatype Condition = Condition(ready: bool, reason: string, observed: nat)

  datatype Status = Status(pins: map<Name, nat>, slug: string, source: Hostnames.Source, url: string, phase: string,
                           condition: Condition, observed: nat)

  datatype Spec = Spec(image: string, replicas: int, secretRef: Name)

  datatype Instance = Instance(rv: nat, generation: nat, spec: Spec, finalizer: bool, deleting: bool, status: Status)

  /** What the current pass goes by: the instance as it was read, the host that operator policy gives it, and what
      its own requests found: `clear` is the host of the last list of Ingresses if that list left it unclaimed,
      `deployRefs` and `podRefs` are the Secrets that the last listed workloads refer to, and `pinned` says
      that the pass recorded or dropped a pin. */
  datatype Pass = Pass(
    inst: Instance, host: Option<string>, approved: bool, clear: Option<string>, deployRefs: Option<set<Name>>,
    podRefs: Option<set<Name>>, pinned: bool, rolled: bool, endpoints: bool, healthy: bool, resolved: bool)

  datatype Made = Made(name: Name, data: Data)

  /** A Deployment, the spec its controller last cached, and its pods, terminating ones included. */
  datatype Workload = Workload(deploy: Option<Deployment>, cache: Option<Cached>, pods: seq<Pod>)

  datatype Probes = Probes(endpoints: bool, healthy: bool, resolves: bool)

  /** The Secrets this controller's own creations got (`mine`), the creation not pinned yet
      (`pending`), the names the controller read as absent since it last created them
      (`gone`), the UIDs it asked to delete (`erased`), and how many pins it dropped. */
  datatype History = History(mine: map<nat, Made>, pending: Option<(Name, nat)>, gone: set<Name>, erased: set<nat>, retired: nat)

  /** `others` holds the pod specs of every other workload in the namespace and `routes` the rule hosts
      of every other Ingress. `keepsPins` and `keepsSlug` are false under a schema that prunes the pins or the slug,
      and `solo` says that no other workload and no spec refers to a bundle and no finalizer holds a Secret. */
  datatype State = State(
    next: nat, clock: nat, secrets: map<Name, Secret>, credential: Option<string>, inst: Instance, work: Workload,
    others: seq<PodSpec>, ingress: Option<Ingress>, routes: seq<seq<string>>, service: Option<Service>, probes: Probes,
    keepsPins: bool, keepsSlug: bool, solo: bool, past: History, pass: Pass)

  function Pins(s: State): map<Name, nat> { s.inst.status.pins }

  function AccessRefs(t: PodTemplate): set<Name> { set n | n in SecretRefs(t.spec) && n.Access? }

  /** The bundles a template mounts; it may refer to more in other ways. */
  function BundleMounts(t: PodTemplate): set<Name> { set n | n in Mounted(t.spec.volumes) && n.Access? }

  function OwnMounts(w: Workload): set<Name> {
    if w.deploy.None? then {} else BundleMounts(w.deploy.value.template)
  }

  /** The bundles the instance's own Deployment template refers to. */
  function OwnRefs(w: Workload): set<Name> {
    if w.deploy.None? then {} else AccessRefs(w.deploy.value.template)
  }

  /** None of these pods refers to a bundle of this instance. */
  predicate NoBundles(specs: seq<PodSpec>) {
    forall i :: 0 <= i < |specs| ==> forall n :: n in SecretRefs(specs[i]) ==> !n.Access?
  }

  predicate Unowned(i: Option<Ingress>) { i.None? || !i.value.owned }

  // ---- requests ----

  datatype Op =
    | ReadInstance(selected: Option<string>) | RereadInstance
    | ReadSecret(name: Name) | ReadCredential | ListDeployments | ListPods
    | CreateSecret(name: Name, data: Data)
    | DeleteSecret(name: Name, read: Secret, room: Name)
    | PatchPins(rv: nat, pins: map<Name, nat>)
    | PatchStatus(before: Status, after: Status) | PutStatus(rv: nat, status: Status) | PutFinalizer(rv: nat, present: bool)
    | ReadDeployment | CreateDeployment(template: PodTemplate, replicas: nat) | ListMatchingPods
    | UpdateDeployment(was: Deployment, replicas: nat, template: PodTemplate, recreate: bool)
    | ReadIngress | ListIngresses(host: string) | CreateIngress(body: Ingresses.Body)
    | DeleteIngress(seen: Ingress) | UpdateIngress(seen: Ingress, body: Ingresses.Body)
    | ReadService | CreateService | UpdateService(service: Service)
    | ReadEndpoints | ProbeService | ResolveHost

  /** One Ingress of a list: whether it is the instance's own, and the hosts of its rules. */
  datatype Listed = Listed(own: bool, hosts: seq<string>)

  datatype Reply =
    | Failed | Absent | Done
    | GotInstance(inst: Instance) | GotSecret(secret: Secret) | GotCredential(text: string) | Specs(specs: seq<PodSpec>)
    | GotDeployment(deploy: Deployment) | Count(n: nat) | GotIngress(ingress: Ingress) | Ingresses(items: seq<Listed>)
    | GotService(service: Service) | Answer(yes: bool)

  /** A fault is one of: the request never arrives, its effect happens but the reply is lost, or none. */
  datatype Fault = Clean | Dropped | Lost

  function Found<T>(o: Option<T>, wrap: T -> Reply): Reply { if o.None? then Absent else wrap(o.value) }

  function PodSpecs(pods: seq<Pod>): seq<PodSpec> {
    seq(|pods|, i requires 0 <= i < |pods| => pods[i].template.spec)
  }

  /** Every Deployment of the namespace, and below every pod. */
  function DeploymentSpecs(s: State): seq<PodSpec> {
    (if s.work.deploy.None? then [] else [s.work.deploy.value.template.spec]) + s.others
  }

  function ListedPods(s: State): seq<PodSpec> { PodSpecs(s.work.pods) + s.others }

  function RefsOf(specs: seq<PodSpec>): set<Name> {
    set i, n | 0 <= i < |specs| && n in SecretRefs(specs[i]) :: n
  }

  function HostsOf(b: Ingresses.Body): seq<string> {
    seq(|b.rules|, i requires 0 <= i < |b.rules| => b.rules[i].host)
  }

  function ListedIngresses(s: State): seq<Listed> {
    (if s.ingress.None? then [] else [Listed(s.ingress.value.owned, HostsOf(s.ingress.value.body))])
    + seq(|s.routes|, i requires 0 <= i < |s.routes| => Listed(false, s.routes[i]))
  }

  /** No rule outside the instance's own Ingress claims the host. */
  predicate Unclaimed(items: seq<Listed>, host: string) {
    forall i :: 0 <= i < |items| && !items[i].own ==>
      forall j :: 0 <= j < |items[i].hosts| ==> !Hostnames.ClaimsHost(items[i].hosts[j], host)
  }

  function Changed<T(==)>(before: T, after: T, current: T): T { if before == after then current else after }

  /** A merge patch carries only the fields that differ between the two copies. */
  function Merge(before: Status, after: Status, current: Status): Status {
    Status(current.pins, Changed(before.slug, after.slug, current.slug), Changed(before.source, after.source, current.source),
           Changed(before.url, after.url, current.url), Changed(before.phase, after.phase, current.phase),
           Changed(before.condition, after.condition, current.condition), Changed(before.observed, after.observed, current.observed))
  }

  function Stamp(s: State): State { s.(next := s.next + 1) }

  function WithDeployment(s: State, d: Deployment): State { s.(work := s.work.(deploy := Some(d))) }

  /** What the schema keeps of a status; the pins are dealt with where they are written. */
  function Stored(s: State, x: Status): Status {
    if s.keepsSlug then x else x.(slug := "", source := Hostnames.NoSource)
  }

  function WithStatus(s: State, status: Status): State {
    Stamp(s).(inst := s.inst.(rv := s.next, status := status))
  }

  predicate WritesStatus(op: Op) { op.PatchStatus? || op.PutStatus? || op.PutFinalizer? }

  predicate WritesWork(op: Op) { op.CreateDeployment? || op.UpdateDeployment? }

  predicate WritesRoute(op: Op) {
    op.CreateIngress? || op.DeleteIngress? || op.UpdateIngress? || op.CreateService? || op.UpdateService?
  }

  function Serve(s: State, op: Op): (State, Reply) {
    if op.CreateSecret? then ServeCreateSecret(s, op.name, op.data)
    else if op.DeleteSecret? then ServeDeleteSecret(s, op.name, op.read)
    else if op.PatchPins? then ServePatchPins(s, op.rv, op.pins)
    else if WritesStatus(op) then ServeStatus(s, op)
    else if WritesWork(op) then ServeWork(s, op)
    else if WritesRoute(op) then ServeRoute(s, op)
    else (s, Answered(s, op))
  }

  /** The answer to a request that only reads. */
  function Answered(s: State, op: Op): Reply {
    match op
    case ReadInstance(_) => GotInstance(s.inst)
    case RereadInstance => GotInstance(s.inst)
    case ReadSecret(n) => if n in s.secrets then GotSecret(s.secrets[n]) else Absent
    case ReadCredential => Found(s.credential, c => GotCredential(c))
    case ListDeployments => Specs(DeploymentSpecs(s))
    case ListPods => Specs(ListedPods(s))
    case ReadDeployment => Found(s.work.deploy, d => GotDeployment(d))
    case ListMatchingPods => Count(|s.work.pods|)
    case ReadIngress => Found(s.ingress, i => GotIngress(i))
    case ListIngresses(_) => Ingresses(ListedIngresses(s))
    case ReadService => Found(s.service, x => GotService(x))
    case ReadEndpoints => Reply.Answer(s.probes.endpoints)
    case ProbeService => Reply.Answer(s.probes.healthy)
    case ResolveHost => Reply.Answer(s.probes.resolves)
    case _ => Failed
  }

  function ServeStatus(s: State, op: Op): (State, Reply) {
    match op
    case PatchStatus(before, after) =>
      var t := WithStatus(s, Stored(s, Merge(before, after, s.inst.status))); (t, GotInstance(t.inst))
    case PutStatus(rv, status) =>
      if s.inst.rv != rv then (s, Failed)
      else var t := WithStatus(s, Stored(s, status.(pins := if s.keepsPins then status.pins else Pins(s)))); (t, GotInstance(t.inst))
    case PutFinalizer(rv, present) =>
      if s.inst.rv != rv then (s, Failed)
      else var t := Stamp(s).(inst := s.inst.(rv := s.next, finalizer := present)); (t, GotInstance(t.inst))
    case _ => (s, Failed)
  }

  function ServeWork(s: State, op: Op): (State, Reply) {
    match op
    case CreateDeployment(template, replicas) =>
      if s.work.deploy.Some? then (s, Failed)
      else (WithDeployment(Stamp(s), Deployment(s.next, 1, true, true, replicas, true, template, 0, 0, 0, 0, 0)), Done)
    case UpdateDeployment(was, replicas, template, recreate) => ServeUpdateDeployment(s, was, replicas, template, recreate)
    case _ => (s, Failed)
  }

  function ServeRoute(s: State, op: Op): (State, Reply) {
    match op
    case CreateIngress(body) =>
      if s.ingress.Some? then (s, Failed)
      else (s.(ingress := Some(Ingress(s.next, s.next, true, body)), next := s.next + 1), Done)
    case DeleteIngress(seen) =>
      if s.ingress.None? then (s, Absent)
      else if s.ingress.value.uid != seen.uid || s.ingress.value.rv != seen.rv then (s, Failed)
      else (s.(ingress := None), Done)
    case UpdateIngress(seen, body) =>
      if s.ingress.None? then (s, Absent)
      else if s.ingress.value.rv != seen.rv then (s, Failed)
      else (Stamp(s).(ingress := Some(s.ingress.value.(rv := s.next, body := body))), Done)
    case CreateService =>
      if s.service.Some? then (s, Failed) else (Stamp(s).(service := Some(Service(s.next, true, true))), Done)
    case UpdateService(x) =>
      if s.service.None? then (s, Absent)
      else if s.service.value.rv != x.rv then (s, Failed)
      else (Stamp(s).(service := Some(s.service.value.(rv := s.next, matches := true))), Done)
    case _ => (s, Failed)
  }

  function ServeCreateSecret(s: State, n: Name, data: Data): (State, Reply) {
    if n in s.secrets then (s, Failed)
    else
      var made := Secret(s.next, s.next, true, true, false, false, s.clock + 1, data);
      (Stamp(s).(secrets := s.secrets[n := made],
                 past := s.past.(mine := s.past.mine[s.next := Made(n, data)], pending := Some((n, s.next)),
                                 gone := s.past.gone - {n})), GotSecret(made))
  }

  function ServeDeleteSecret(s: State, n: Name, read: Secret): (State, Reply) {
    if n !in s.secrets then (s, Absent)
    else if s.secrets[n].uid != read.uid || s.secrets[n].rv != read.rv then (s, Failed)
    else
      var t := s.(past := s.past.(erased := s.past.erased + {read.uid}));
      (if s.secrets[n].held then Stamp(t).(secrets := s.secrets[n := s.secrets[n].(rv := s.next, deleting := true)])
       else t.(secrets := s.secrets - {n}), Done)
  }

  /** An old schema prunes the unknown pins field: the write succeeds and stores nothing. */
  function ServePatchPins(s: State, rv: nat, pins: map<Name, nat>): (State, Reply) {
    if s.inst.rv != rv then (s, Failed)
    else
      (WithStatus(s, s.inst.status.(pins := if s.keepsPins then pins else Pins(s)))
         .(past := s.past.(retired := if Pins(s).Keys <= pins.Keys then s.past.retired else s.past.retired + 1,
                           pending := if s.keepsPins then None else s.past.pending)), Done)
  }

  function ServeUpdateDeployment(s: State, was: Deployment, replicas: nat, template: PodTemplate, recreate: bool): (State, Reply) {
    if s.work.deploy.None? then (s, Absent)
    else
      var d := s.work.deploy.value;
      if d.rv != was.rv then (s, Failed)
      else
        var same := d.replicas == replicas && d.template == template && d.recreate == recreate;
        (WithDeployment(Stamp(s), d.(rv := s.next, generation := if same then d.generation else d.generation + 1,
                                     replicas := replicas, template := template, recreate := recreate)), Done)
  }

  const SUPPORTED_IMAGE := "ghcr.io/open-webui/open-webui@sha256:096c8f3d3132016210ca87b0b4dff01d2d66d9fe4fee088fae13fc30f9ac54f3"
  const APP := "open-webui"

  predicate ImageAllowed(image: string) { image == "" || image == SUPPORTED_IMAGE }

  predicate SupportedContainers(cs: seq<Container>) {
    forall i :: 0 <= i < |cs| && cs[i].name == APP ==> cs[i].image == SUPPORTED_IMAGE
  }

  /** No Deployment, or one of the instance that has the supported image or is scaled down. */
  predicate Approved(w: Workload) {
    w.deploy.Some? ==>
      && w.deploy.value.owned
      && (SupportedContainers(w.deploy.value.template.spec.containers) || ScaledDown(w.deploy.value))
  }

  predicate ScaledDown(d: Deployment) { d.replicas == 0 && d.generation <= d.observed && d.running == 0 }

  predicate RolledOut(d: Deployment) {
    var want := if d.replicas > 0 then d.replicas else 1;
    d.generation <= d.observed && want <= d.updated && want <= d.ready && want <= d.available
  }

  /** Where a pass begins. */
  function NoChecks(inst: Instance, host: Option<string>): Pass {
    Pass(inst, host, false, None, None, None, false, false, false, false, false)
  }

  /** What the controller knows after a delivered reply. A pass starts with a fresh record. */
  function Learn(s: State, op: Op, r: Reply): State {
    match op
    case ReadInstance(selected) => s.(pass := NoChecks(s.inst, selected), past := s.past.(pending := None))
    case ReadSecret(n) => if r.Absent? then s.(past := s.past.(gone := s.past.gone + {n})) else s
    case PatchPins(_, _) => if r.Done? then s.(pass := s.pass.(pinned := true)) else s
    case ListDeployments => s.(pass := s.pass.(deployRefs := Some(RefsOf(DeploymentSpecs(s)))))
    case ListPods => s.(pass := s.pass.(podRefs := Some(RefsOf(ListedPods(s)))))
    case ListIngresses(host) =>
      s.(pass := s.pass.(clear := if Unclaimed(ListedIngresses(s), host) then Some(host) else None))
    case ReadDeployment => s.(pass := s.pass.(rolled := s.work.deploy.Some? && RolledOut(s.work.deploy.value),
                                             approved := s.pass.approved || Approved(s.work)))
    case ReadEndpoints => s.(pass := s.pass.(endpoints := s.probes.endpoints))
    case ProbeService => s.(pass := s.pass.(healthy := s.probes.healthy))
    case ResolveHost => s.(pass := s.pass.(resolved := s.probes.resolves))
    case _ => s
  }

  function After(s: State, op: Op, fault: Fault): (State, Reply) {
    match fault
    case Dropped => (s, Failed)
    case Lost => (Serve(s, op).0, Failed)
    case Clean => (Learn(Serve(s, op).0, op, Serve(s, op).1), Serve(s, op).1)
  }

  // ---- everybody else ----

  /** Remove a Secret, or create it or write to it; `deleting` asks for its deletion. */
  datatype SecretAct = Remove | Write(owned: bool, immutable: bool, deleting: bool, held: bool, data: Data)

  datatype WorkAct =
    | Scale(replicas: nat) | Reown(owned: bool) | Foreign(template: PodTemplate, replicas: nat, recreate: bool)
    | SyncCache | Observe(running: nat, updated: nat, ready: nat, available: nat) | SpawnPod | StopPod(pod: nat) | ReapPod(pod: nat)

  datatype IngressAct = ForeignIngress(body: Ingresses.Body) | EditIngress(body: Ingresses.Body, keepOwner: bool) | DropIngress

  /** The last kind sets everything whose value nothing below constrains. */
  datatype Act =
    | OnSecret(name: Name, secretAct: SecretAct) | OnWork(workAct: WorkAct) | OnIngress(ingressAct: IngressAct)
    | OnInstance(spec: Spec, deleting: bool) | OnRest(rest: Rest)

  datatype Rest = Rest(credential: Option<string>, others: seq<PodSpec>, routes: seq<seq<string>>, service: Option<Service>, probes: Probes)

  /** `stamp` is the UID or resource version a write gets. The UID of a live object, its age
      and immutable contents never change, and a requested deletion is never taken back. */
  function SecretStep(was: Option<Secret>, a: SecretAct, stamp: nat, clock: nat, solo: bool): Option<Secret> {
    match a
    case Remove => None
    case Write(owned, immutable, deleting, held, data) =>
      if was.None? then Some(Secret(stamp, stamp, owned, immutable, false, held && !solo, clock, data))
      else
        var x := was.value;
        Some(Secret(x.uid, stamp, owned, x.immutable || immutable, x.deleting || deleting, held && !solo, x.created,
                    if x.immutable then x.data else data))
  }

  /** Third parties may scale the Deployment and edit its metadata but not its template, and
      do not delete it; a foreign one may take the name first. Pods come from the cached spec. */
  function WorkStep(w: Workload, a: WorkAct, stamp: nat): Workload {
    match a
    case Scale(replicas) =>
      if w.deploy.None? then w
      else w.(deploy := Some(w.deploy.value.(rv := stamp, replicas := replicas, generation := w.deploy.value.generation + 1)))
    case Reown(owned) =>
      if w.deploy.None? then w else w.(deploy := Some(w.deploy.value.(rv := stamp, owned := owned)))
    case Foreign(template, replicas, recreate) =>
      if w.deploy.Some? || AccessRefs(template) != {} then w
      else w.(deploy := Some(Deployment(stamp, 1, false, true, replicas, recreate, template, 0, 0, 0, 0, 0)))
    case SyncCache =>
      if w.deploy.None? then w
      else w.(cache := Some(Cached(w.deploy.value.generation, w.deploy.value.replicas, w.deploy.value.template)))
    case Observe(running, updated, ready, available) =>
      if w.deploy.None? || w.cache.None? then w
      else w.(deploy := Some(w.deploy.value.(rv := stamp, observed := w.cache.value.generation, running := running,
                                             updated := updated, ready := ready, available := available)))
    case SpawnPod =>
      if w.cache.None? || w.cache.value.replicas == 0 then w
      else w.(pods := w.pods + [Pod(w.cache.value.template, false)])
    case StopPod(i) => if i < |w.pods| then w.(pods := w.pods[i := w.pods[i].(terminating := true)]) else w
    case ReapPod(i) => if i < |w.pods| then w.(pods := w.pods[..i] + w.pods[i + 1..]) else w
  }

  /** Nobody else creates an Ingress that the instance controls. */
  function IngressStep(i: Option<Ingress>, a: IngressAct, stamp: nat): Option<Ingress> {
    match a
    case ForeignIngress(body) => if i.Some? then i else Some(Ingress(stamp, stamp, false, body))
    case EditIngress(body, keepOwner) =>
      if i.None? then i else Some(i.value.(rv := stamp, body := body, owned := keepOwner && i.value.owned))
    case DropIngress => None
  }

  function Lookup<K, V>(m: map<K, V>, k: K): Option<V> { if k in m then Some(m[k]) else None }

  function Store<K, V>(m: map<K, V>, k: K, v: Option<V>): map<K, V> { if v.Some? then m[k := v.value] else m - {k} }

  function WithSecret(s: State, n: Name, now: Option<Secret>): State {
    Stamp(s).(clock := s.clock + 1, secrets := Store(s.secrets, n, now))
  }

  function AfterWorkAct(s: State, x: WorkAct): State { Stamp(s).(work := WorkStep(s.work, x, s.next)) }

  function AfterIngressAct(s: State, x: IngressAct): State { Stamp(s).(ingress := IngressStep(s.ingress, x, s.next)) }

  function AfterInstanceAct(s: State, spec: Spec, deleting: bool): State {
    Stamp(s).(inst := s.inst.(rv := s.next, generation := s.inst.generation + 1,
                              spec := if s.solo && spec.secretRef.Access? then s.inst.spec else spec,
                              deleting := deleting || s.inst.deleting))
  }

  function AfterRestAct(s: State, r: Rest): State {
    Stamp(s).(credential := r.credential, routes := r.routes, service := r.service, probes := r.probes,
              others := if s.solo && !NoBundles(r.others) then s.others else r.others)
  }

  function EnvStep(s: State, a: Act): State {
    match a
    case OnSecret(n, x) => WithSecret(s, n, SecretStep(Lookup(s.secrets, n), x, s.next, s.clock + 1, s.solo))
    case OnWork(x) => AfterWorkAct(s, x)
    case OnIngress(x) => AfterIngressAct(s, x)
    case OnInstance(spec, deleting) => AfterInstanceAct(s, spec, deleting)
    case OnRest(r) => AfterRestAct(s, r)
  }

  function EnvRun(s: State, acts: seq<Act>): State
    decreases |acts|
  {
    if acts == [] then s else EnvRun(EnvStep(s, acts[0]), acts[1..])
  }
}
