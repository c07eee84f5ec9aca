/** Pod templates: which Secrets one references, and how the managed template is
    merged over an existing one (internal/controller/access_resources.go and
    internal/controller/access_secret_history.go). */
module Templates {
  import opened Basics

  datatype Port = Port(number: nat, protocol: string)

  datatype Handler = HttpGet(target: string, scheme: string) | Command(line: string)

  datatype Probe = Probe(handler: Handler, timing: string, success: int)

  datatype EnvVar = Plain(name: string, value: string) | FromSecret(name: string, secret: Name)

  datatype EnvFrom = SecretSource(secret: Name) | OtherSource(text: string)

  /** `exec` stands for every other field that is copied as it is: command, arguments,
      mounts and security context. */
  datatype Container = Container(
    name: string, image: string, exec: string, pullPolicy: string, termination: string, ports: seq<Port>,
    readiness: Option<Probe>, liveness: Option<Probe>, startup: Option<Probe>,
    resources: string, env: seq<EnvVar>, envFrom: seq<EnvFrom>)

  datatype Volume =
    | SecretVolume(name: string, secret: Name, mode: Option<nat>)
    | Projected(name: string, sources: seq<Option<Name>>)
    | OtherVolume(name: string)

  /** `rest` stands for the pod fields the controller never assigns. */
  datatype PodSpec = PodSpec(
    containers: seq<Container>, init: seq<Container>, ephemeral: seq<Container>, volumes: seq<Volume>,
    pulls: seq<Name>, security: string, automount: bool, hostNamespaces: bool, shareProcesses: bool, rest: string)

  datatype PodTemplate = PodTemplate(annotations: map<string, string>, labels: map<string, string>, spec: PodSpec)

  // ---- Secret references ----

  function VolumeRefs(v: Volume): set<Name> {
    match v
    case SecretVolume(_, secret, _) => {secret}
    case Projected(_, sources) => set s | s in sources && s.Some? :: s.value
    case OtherVolume(_) => {}
  }

  function EnvRefs(e: EnvVar): set<Name> { if e.FromSecret? then {e.secret} else {} }

  function EnvFromRefs(e: EnvFrom): set<Name> { if e.SecretSource? then {e.secret} else {} }

  /** A container refers to the Secrets its variables take values from. */
  predicate ContainerRefers(c: Container, n: Name) {
    (exists e :: e in c.env && n in EnvRefs(e)) || (exists e :: e in c.envFrom && n in EnvFromRefs(e))
  }

  /** The meaning of a reference: some volume, pull secret or container names it. */
  ghost predicate Refers(spec: PodSpec, n: Name) {
    || (exists v :: v in spec.volumes && n in VolumeRefs(v))
    || n in spec.pulls
    || (exists c :: c in spec.init + spec.containers + spec.ephemeral && ContainerRefers(c, n))
  }

  function Mounted(volumes: seq<Volume>): set<Name> {
    set v, n | v in volumes && n in VolumeRefs(v) :: n
  }

  function EnvNames(env: seq<EnvVar>): set<Name> {
    set e, n | e in env && n in EnvRefs(e) :: n
  }

  function EnvFromNames(env: seq<EnvFrom>): set<Name> {
    set e, n | e in env && n in EnvFromRefs(e) :: n
  }

  function ContainerNames(cs: seq<Container>): set<Name> {
    set c, n | c in cs && n in EnvNames(c.env) + EnvFromNames(c.envFrom) :: n
  }

  lemma ContainerNamesSnoc(cs: seq<Container>, c: Container)
    ensures ContainerNames(cs + [c]) == ContainerNames(cs) + EnvNames(c.env) + EnvFromNames(c.envFrom)
  {
    assert forall n :: n in EnvNames(c.env) + EnvFromNames(c.envFrom) ==> c in cs + [c] && n in ContainerNames(cs + [c]);
    assert forall d :: d in cs ==> d in cs + [c];
  }

  function SecretRefs(spec: PodSpec): set<Name> {
    Mounted(spec.volumes) + (set n | n in spec.pulls) + ContainerNames(spec.init + spec.containers + spec.ephemeral)
  }

  /** The references of fields that the controller never assigns. */
  function UnmanagedRefs(spec: PodSpec): set<Name> { (set n | n in spec.pulls) + ContainerNames(spec.ephemeral) }

  lemma SecretRefsMeaning(spec: PodSpec, n: Name)
    ensures n in SecretRefs(spec) <==> Refers(spec, n)
  {
    var all := spec.init + spec.containers + spec.ephemeral;
    assert n in ContainerNames(all) <==> exists c :: c in all && n in EnvNames(c.env) + EnvFromNames(c.envFrom);
    forall c | c in all ensures n in EnvNames(c.env) + EnvFromNames(c.envFrom) <==> ContainerRefers(c, n) {}
  }

  /** `collectSecretReferences`: adds every referenced name to `names`. */
  method CollectSecretReferences(spec: PodSpec, names: set<Name>) returns (found: set<Name>)
    ensures found == names + SecretRefs(spec)
  {
    found := names;
    for i := 0 to |spec.volumes|
      invariant found == names + Mounted(spec.volumes[..i])
    {
      assert spec.volumes[..i + 1] == spec.volumes[..i] + [spec.volumes[i]];
      found := found + VolumeRefs(spec.volumes[i]);
    }
    assert spec.volumes[..|spec.volumes|] == spec.volumes;
    ghost var before := found;
    for i := 0 to |spec.pulls|
      invariant found == before + (set n | n in spec.pulls[..i])
    {
      assert spec.pulls[..i + 1] == spec.pulls[..i] + [spec.pulls[i]];
      found := found + {spec.pulls[i]};
    }
    assert spec.pulls[..|spec.pulls|] == spec.pulls;
    before := found;
    var containers := spec.init + spec.containers + spec.ephemeral;
    for i := 0 to |containers|
      invariant found == before + ContainerNames(containers[..i])
    {
      assert containers[..i + 1] == containers[..i] + [containers[i]];
      ContainerNamesSnoc(containers[..i], containers[i]);
      found := CollectContainer(containers[i], found);
    }
    assert containers[..|containers|] == containers;
  }

  method CollectContainer(c: Container, names: set<Name>) returns (found: set<Name>)
    ensures found == names + EnvNames(c.env) + EnvFromNames(c.envFrom)
  {
    found := names;
    for i := 0 to |c.env|
      invariant found == names + EnvNames(c.env[..i])
    {
      assert c.env[..i + 1] == c.env[..i] + [c.env[i]];
      found := found + EnvRefs(c.env[i]);
    }
    assert c.env[..|c.env|] == c.env;
    ghost var before := found;
    for i := 0 to |c.envFrom|
      invariant found == before + EnvFromNames(c.envFrom[..i])
    {
      assert c.envFrom[..i + 1] == c.envFrom[..i] + [c.envFrom[i]];
      found := found + EnvFromRefs(c.envFrom[i]);
    }
    assert c.envFrom[..|c.envFrom|] == c.envFrom;
  }

  // ---- the managed template ----

  const PULL_IF_NOT_PRESENT := "IfNotPresent"
  const TERMINATION_DEFAULT := "/dev/termination-log File"
  const SECRET_MODE: nat := 420 // 0644

  function NormalPorts(ports: seq<Port>): seq<Port> {
    seq(|ports|, i requires 0 <= i < |ports| => ports[i].(protocol := "TCP"))
  }

  function NormalProbe(probe: Option<Probe>): Option<Probe> {
    if probe.None? then None
    else
      var p := probe.value;
      Some(p.(success := 1, handler := if p.handler.HttpGet? then p.handler.(scheme := "HTTP") else p.handler))
  }

  function Normal(c: Container): Container {
    c.(pullPolicy := PULL_IF_NOT_PRESENT, termination := TERMINATION_DEFAULT, ports := NormalPorts(c.ports),
       readiness := NormalProbe(c.readiness), liveness := NormalProbe(c.liveness), startup := NormalProbe(c.startup))
  }

  /** The resource sizing that container `name` keeps: that of the last container of
      the same name in `prior`, else its own. */
  function Sized(prior: seq<Container>, name: string, own: string): string {
    if prior == [] then own
    else Sized(prior[1..], name, if prior[0].name == name then prior[0].resources else own)
  }

  function ManagedContainer(prior: seq<Container>, c: Container): Container {
    Normal(c).(resources := Sized(prior, c.name, c.resources))
  }

  function ManagedVolume(v: Volume): Volume {
    if v.SecretVolume? then v.(mode := Some(SECRET_MODE)) else v
  }

  function ManagedContainers(prior: seq<Container>, want: seq<Container>): (r: seq<Container>)
    ensures |r| == |want| && forall i :: 0 <= i < |r| ==> r[i] == ManagedContainer(prior, want[i])
  {
    seq(|want|, i requires 0 <= i < |want| => ManagedContainer(prior, want[i]))
  }

  function ManagedVolumes(want: seq<Volume>): (r: seq<Volume>)
    ensures |r| == |want| && forall i :: 0 <= i < |r| ==> r[i] == ManagedVolume(want[i])
  {
    seq(|want|, i requires 0 <= i < |want| => ManagedVolume(want[i]))
  }

  function Managed(existing: PodTemplate, desired: PodTemplate): PodTemplate {
    PodTemplate(
      existing.annotations + desired.annotations,
      existing.labels + desired.labels,
      existing.spec.(
        containers := ManagedContainers(existing.spec.containers, desired.spec.containers),
        init := [],
        volumes := ManagedVolumes(desired.spec.volumes),
        security := desired.spec.security,
        automount := false, hostNamespaces := false, shareProcesses := false))
  }

  method NormalizePorts(ports: seq<Port>) returns (r: seq<Port>)
    ensures r == NormalPorts(ports)
  {
    r := ports;
    for j := 0 to |r|
      invariant |r| == |ports|
      invariant forall k :: 0 <= k < |r| ==> r[k] == if k < j then ports[k].(protocol := "TCP") else ports[k]
    {
      r := r[j := r[j].(protocol := "TCP")];
    }
  }

  /** `managedAccessTemplate`: the copied containers and volumes are edited in place. */
  method ManagedAccessTemplate(existing: PodTemplate, desired: PodTemplate) returns (result: PodTemplate)
    ensures result == Managed(existing, desired)
  {
    var want := desired.spec.containers;
    var containers := new Container[|want|](i requires 0 <= i < |want| => want[i]);
    for i := 0 to containers.Length
      invariant forall k :: 0 <= k < |want| ==>
        containers[k] == if k < i then ManagedContainer(existing.spec.containers, want[k]) else want[k]
    {
      var ports := NormalizePorts(containers[i].ports);
      containers[i] := containers[i].(pullPolicy := PULL_IF_NOT_PRESENT, termination := TERMINATION_DEFAULT, ports := ports);
      var prior := existing.spec.containers;
      for j := 0 to |prior|
        invariant forall k :: 0 <= k < i ==> containers[k] == ManagedContainer(prior, want[k])
        invariant forall k :: i < k < |want| ==> containers[k] == want[k]
        invariant containers[i] == want[i].(pullPolicy := PULL_IF_NOT_PRESENT, termination := TERMINATION_DEFAULT,
                                            ports := ports, resources := containers[i].resources)
        invariant Sized(prior[j..], want[i].name, containers[i].resources) == Sized(prior, want[i].name, want[i].resources)
      {
        assert prior[j..][1..] == prior[j + 1..];
        if prior[j].name == containers[i].name {
          containers[i] := containers[i].(resources := prior[j].resources);
        }
      }
      var c := containers[i];
      containers[i] := c.(readiness := NormalProbe(c.readiness), liveness := NormalProbe(c.liveness),
        startup := NormalProbe(c.startup));
    }
    var settled := containers[..];
    assert settled == ManagedContainers(existing.spec.containers, want);
    var volumes := new Volume[|desired.spec.volumes|](i requires 0 <= i < |desired.spec.volumes| => desired.spec.volumes[i]);
    for i := 0 to volumes.Length
      invariant forall k :: 0 <= k < volumes.Length ==>
        volumes[k] == if k < i then ManagedVolume(desired.spec.volumes[k]) else desired.spec.volumes[k]
    {
      if volumes[i].SecretVolume? {
        volumes[i] := volumes[i].(mode := Some(SECRET_MODE));
      }
    }
    assert volumes[..] == ManagedVolumes(desired.spec.volumes);
    result := PodTemplate(existing.annotations + desired.annotations, existing.labels + desired.labels,
      existing.spec.(containers := settled, init := [], volumes := volumes[..], security := desired.spec.security,
        automount := false, hostNamespaces := false, shareProcesses := false));
  }

  // ---- convergence ----

  predicate Names(cs: seq<Container>, name: string) {
    exists i :: 0 <= i < |cs| && cs[i].name == name
  }

  predicate DistinctNames(cs: seq<Container>) {
    forall i, j :: 0 <= i < j < |cs| ==> cs[i].name != cs[j].name
  }

  /** Two desired containers that share a name, and find no sizing in `prior`, ask for
      the same resources. Distinct names are the usual way to meet it. */
  predicate SizesAgree(prior: seq<Container>, cs: seq<Container>) {
    forall i, j :: 0 <= i < |cs| && 0 <= j < |cs| && cs[i].name == cs[j].name && !Names(prior, cs[i].name) ==>
      cs[i].resources == cs[j].resources
  }

  /** `Sized` is the sizing of the last match: `i` is its position, or there is none. */
  lemma {:induction false} SizedMeaning(prior: seq<Container>, name: string, own: string) returns (i: nat)
    ensures i <= |prior|
    ensures i < |prior| ==> prior[i].name == name && Sized(prior, name, own) == prior[i].resources
    ensures forall k :: i < k < |prior| ==> prior[k].name != name
    ensures i == |prior| ==> Sized(prior, name, own) == own && !Names(prior, name)
  {
    if prior == [] {
      i := 0;
    } else {
      var rest := SizedMeaning(prior[1..], name, if prior[0].name == name then prior[0].resources else own);
      if rest < |prior| - 1 {
        i := rest + 1;
      } else {
        i := if prior[0].name == name then 0 else |prior|;
        assert forall k :: 0 <= k < |prior| - 1 ==> prior[1..][k].name != name;
      }
      assert forall k :: 0 < k < |prior| ==> prior[k] == prior[1..][k - 1];
    }
  }

  /** A second pass changes nothing when same-named containers agree on their size. */
  lemma SecondPass(prior: seq<Container>, want: seq<Container>, i: nat)
    requires i < |want| && SizesAgree(prior, want)
    ensures ManagedContainer(ManagedContainers(prior, want), want[i]) == ManagedContainer(prior, want[i])
  {
    var once := ManagedContainers(prior, want);
    var last := SizedMeaning(once, want[i].name, want[i].resources);
    assert once[i].name == want[i].name;
    var a := SizedMeaning(prior, want[i].name, want[i].resources);
    var b := SizedMeaning(prior, want[i].name, want[last].resources);
  }

  /** It changes something when they do not: both get the size of the last one. */
  lemma SecondPassMoves(prior: seq<Container>, want: seq<Container>)
    requires !SizesAgree(prior, want)
    ensures ManagedContainers(ManagedContainers(prior, want), want) != ManagedContainers(prior, want)
  {
    var i, j :| 0 <= i < |want| && 0 <= j < |want| && want[i].name == want[j].name && !Names(prior, want[i].name)
      && want[i].resources != want[j].resources;
    var once := ManagedContainers(prior, want);
    var a := SizedMeaning(prior, want[i].name, want[i].resources);
    var b := SizedMeaning(prior, want[j].name, want[j].resources);
    assert once[i].resources != once[j].resources;
    var c := SizedMeaning(once, want[i].name, want[i].resources);
    var d := SizedMeaning(once, want[j].name, want[j].resources);
    assert once[i].name == want[i].name;
    assert c == d < |want|;
    assert ManagedContainer(once, want[i]).resources == ManagedContainer(once, want[j]).resources;
  }

  /** Idempotence, with its exact condition. */
  lemma ManagedTemplateConverges(existing: PodTemplate, desired: PodTemplate)
    ensures Managed(Managed(existing, desired), desired) == Managed(existing, desired)
       <==> SizesAgree(existing.spec.containers, desired.spec.containers)
    ensures DistinctNames(desired.spec.containers) ==> SizesAgree(existing.spec.containers, desired.spec.containers)
  {
    var want, prior := desired.spec.containers, existing.spec.containers;
    var once := Managed(existing, desired);
    var twice := Managed(once, desired);
    if SizesAgree(prior, want) {
      forall i: nat | i < |want| ensures twice.spec.containers[i] == once.spec.containers[i] {
        SecondPass(prior, want, i);
      }
      assert twice.spec.containers == once.spec.containers;
      assert twice.annotations == once.annotations && twice.labels == once.labels;
    } else {
      SecondPassMoves(prior, want);
    }
  }

  /** What the kubelet will run: everything but sizing, extra metadata and the pod
      fields the controller does not manage. */
  ghost predicate SameExecutable(a: PodTemplate, b: PodTemplate) {
    && |a.spec.containers| == |b.spec.containers|
    && (forall i :: 0 <= i < |a.spec.containers| ==>
          a.spec.containers[i].(resources := "") == b.spec.containers[i].(resources := ""))
    && a.spec.volumes == b.spec.volumes && a.spec.init == b.spec.init && a.spec.security == b.spec.security
    && a.spec.automount == b.spec.automount && a.spec.hostNamespaces == b.spec.hostNamespaces
    && a.spec.shareProcesses == b.spec.shareProcesses
  }

  /** Whatever an earlier template held, the executable part of the result is the one a
      fresh template gets; unmanaged metadata and unmanaged pod fields survive. */
  lemma OnlyDeclaredFieldsSurvive(existing: PodTemplate, desired: PodTemplate)
    ensures SameExecutable(Managed(existing, desired), Managed(desired, desired))
    ensures var r := Managed(existing, desired);
      && (forall k :: k in desired.annotations ==> k in r.annotations && r.annotations[k] == desired.annotations[k])
      && (forall k :: k in desired.labels ==> k in r.labels && r.labels[k] == desired.labels[k])
      && (forall k :: k in existing.annotations && k !in desired.annotations ==>
            k in r.annotations && r.annotations[k] == existing.annotations[k])
      && (forall k :: k in existing.labels && k !in desired.labels ==> k in r.labels && r.labels[k] == existing.labels[k])
      && r.annotations.Keys == existing.annotations.Keys + desired.annotations.Keys
      && r.labels.Keys == existing.labels.Keys + desired.labels.Keys
      && r.spec.rest == existing.spec.rest && r.spec.pulls == existing.spec.pulls
      && r.spec.ephemeral == existing.spec.ephemeral
  {
    var a, b := Managed(existing, desired), Managed(desired, desired);
    forall i | 0 <= i < |a.spec.containers|
      ensures a.spec.containers[i].(resources := "") == b.spec.containers[i].(resources := "")
    {
      assert a.spec.containers[i].(resources := "") == Normal(desired.spec.containers[i]).(resources := "");
      assert b.spec.containers[i].(resources := "") == Normal(desired.spec.containers[i]).(resources := "");
    }
  }

  lemma ContainerNamesConcat(a: seq<Container>, b: seq<Container>)
    ensures ContainerNames(a + b) == ContainerNames(a) + ContainerNames(b)
  {
    hide EnvNames, EnvFromNames;
    assert forall c :: c in a + b <==> c in a || c in b;
  }

  lemma ManagedNames(prior: seq<Container>, want: seq<Container>)
    ensures ContainerNames(ManagedContainers(prior, want)) == ContainerNames(want)
  {
    hide EnvNames, EnvFromNames, Sized;
    var got := ManagedContainers(prior, want);
    assert forall i :: 0 <= i < |want| ==> got[i].env == want[i].env && got[i].envFrom == want[i].envFrom;
    forall n | n in ContainerNames(got) ensures n in ContainerNames(want) {
      var i :| 0 <= i < |got| && n in EnvNames(got[i].env) + EnvFromNames(got[i].envFrom);
      assert want[i] in want;
    }
    forall n | n in ContainerNames(want) ensures n in ContainerNames(got) {
      var i :| 0 <= i < |want| && n in EnvNames(want[i].env) + EnvFromNames(want[i].envFrom);
      assert got[i] in got;
    }
  }

  lemma ManagedMounted(want: seq<Volume>)
    ensures Mounted(ManagedVolumes(want)) == Mounted(want)
  {
    var got := ManagedVolumes(want);
    forall n | n in Mounted(got) ensures n in Mounted(want) {
      var i :| 0 <= i < |got| && n in VolumeRefs(got[i]);
      assert want[i] in want && n in VolumeRefs(want[i]);
    }
    forall n | n in Mounted(want) ensures n in Mounted(got) {
      var i :| 0 <= i < |want| && n in VolumeRefs(want[i]);
      assert got[i] in got && n in VolumeRefs(got[i]);
    }
  }

  /** The merged template refers to what the desired volumes and containers refer to, and to what the
      unmanaged fields of the existing one do. */
  lemma ManagedRefs(existing: PodTemplate, desired: PodTemplate)
    ensures SecretRefs(Managed(existing, desired).spec)
         == Mounted(desired.spec.volumes) + ContainerNames(desired.spec.containers) + UnmanagedRefs(existing.spec)
    ensures UnmanagedRefs(Managed(existing, desired).spec) == UnmanagedRefs(existing.spec)
  {
    hide ContainerNames, Mounted, ManagedContainers, ManagedVolumes;
    var r := Managed(existing, desired).spec;
    ManagedNames(existing.spec.containers, desired.spec.containers);
    ManagedMounted(desired.spec.volumes);
    ContainerNamesConcat(r.containers, r.ephemeral);
    assert r.init + r.containers + r.ephemeral == r.containers + r.ephemeral;
  }
}
