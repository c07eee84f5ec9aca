/** The instance's Deployment and how its pods are replaced: withdraw the route, stop the
    pods, see that they are gone, and only then change the template
    (internal/controller/access_resources.go, internal/controller/image_policy.go and
    internal/controller/chatuiinstance_controller.go). */
module Workloads {
  import opened Basics
  import opened Templates
  import opened Cluster
  import opened Safety
  import opened Runs
  import opened Server
  import opened Pinning
  import opened Access

  // ---- what the steps leave alone ----

  /** Everything that permission to write the Deployment depends on. */
  ghost predicate WorkKept(s: State, t: State) {
    && s.next <= t.next && Pins(t) == Pins(s) && t.past.erased == s.past.erased && t.solo == s.solo
    && SameWorkload(s.work, t.work, s.next) && (Unowned(s.ingress) ==> Unowned(t.ingress))
    && t.inst.status == s.inst.status && SamePass(s, t)
  }

  lemma WorkKeptTransitive(s: State, t: State, u: State)
    requires Good(s) && WorkKept(s, t) && WorkKept(t, u)
    ensures WorkKept(s, u)
  {
    hide Genuine, PinsOurs, PinsBounded, Counted, Alone, OneTemplate, MountsPinned, SecretsFresh, MineFresh;
  }

  lemma KeptWork(s: State, t: State)
    requires Kept(s, t)
    ensures WorkKept(s, t)
  {}

  lemma ReadStillHolds(s: State, t: State, d: Deployment)
    requires WorkKept(s, t) && DeploymentAsRead(s, d)
    ensures DeploymentAsRead(t, d)
  {}

  /** Only the Ingress and notes differ. */
  predicate OnlyIngress(s: State, t: State) { SameButNotes(s, t.(ingress := s.ingress)) && (Unowned(s.ingress) ==> Unowned(t.ingress)) }

  /** Only the Deployment object and notes differ. */
  predicate OnlyWork(s: State, t: State) { SameButNotes(s, t.(work := s.work, next := s.next)) }

  // ---- withdrawing the route ----

  lemma IngressServed(s: State)
    ensures Serve(s, ReadIngress).1 == if s.ingress.Some? then GotIngress(s.ingress.value) else Absent
    ensures Unowned(s.ingress) <==> s.ingress.None? || !s.ingress.value.owned
  {}

  lemma IngressRead(seen: State, now: State)
    requires Good(seen) && SameButNotes(seen, now)
    ensures seen.ingress.Some? ==> IngressAsRead(now, seen.ingress.value)
  {
    hide Genuine, PinsOurs, PinsBounded, Counted, Alone, OneTemplate, MountsPinned, SecretsFresh, MineFresh;
  }

  lemma WithdrawAllowed(s: State, i: Ingress)
    requires i.owned && IngressAsRead(s, i)
    ensures Allowed(s, DeleteIngress(i))
  {}

  lemma RouteDropped(s: State, t: State)
    requires t == s || (t == s.(ingress := None))
    ensures WorkKept(s, t) && OnlyIngress(s, t)
  {}

  lemma WithdrawServed(s: State, i: Ingress, fault: Fault)
    ensures var (t, r) := After(s, DeleteIngress(i), fault);
      && WorkKept(s, t) && OnlyIngress(s, t)
      && (r == Absent || r == Done ==> Unowned(t.ingress))
      && (r == Absent || r == Done || r == Failed)
      && (fault == Clean && s.ingress == Some(i) ==> r == Done)
  {
    hide WorkKept, OnlyIngress;
    RouteDropped(s, After(s, DeleteIngress(i), fault).0);
  }

  lemma RelyWork(s: State, t: State)
    requires Rely(s, t)
    ensures WorkKept(s, t)
  {
    RelyIsKept(s, t);
    KeptWork(s, t);
  }

  lemma NotesIngress(s: State, t: State, u: State)
    requires SameButNotes(s, t) && OnlyIngress(t, u)
    ensures OnlyIngress(s, u)
  {}

  /** `withdrawAccess`: an Ingress of somebody else with the same name stays. */
  method WithdrawAccess(api: ApiServer) returns (e: Option<Err>)
    requires api.Inv()
    modifies api
    ensures api.Inv() && old(api.moves) <= api.moves && WorkKept(old(api.st), api.st)
    ensures e.None? || e.value == NotOwnedIngress ==> Unowned(api.st.ingress)
    ensures e.Some? ==> e.value == NotOwnedIngress || e.value == Api
    ensures e == Some(Api) ==> PartFailed(api.start, |old(api.moves)|, api.moves, RoutePart)
    ensures Quiet(old(api.script)) ==> Quiet(api.script) && OnlyIngress(old(api.st), api.st)
    ensures old(api.script) == [] ==> api.script == []
    ensures old(api.script) == [] ==>
      (e.None? <==> old(api.st).ingress.None? || old(api.st).ingress.value.owned) && e != Some(Api)
  {
    hide *;
    CalmIsQuiet(api.script);
    ReadAllowed(api.st, ReadIngress);
    RouteRequests(Op.ReadIngress);
    InvGood(api);
    var reply := Read(api, ReadIngress);
    ghost var read := api.st;
    IngressServed(api.seen);
    KeptWork(old(api.st), read);
    NotesSameIngress(api.seen, read);
    if reply.Failed? {
      return Some(Api);
    }
    if reply.Absent? {
      return None;
    }
    if !reply.ingress.owned {
      return Some(NotOwnedIngress);
    }
    IngressRead(api.seen, read);
    WithdrawAllowed(api.st, reply.ingress);
    QuietCall(api.script);
    ghost var fault := Head(api.script).fault;
    var deleted := api.Call(DeleteIngress(reply.ingress));
    RouteRequests(DeleteIngress(reply.ingress));
    WithdrawServed(api.seen, reply.ingress, fault);
    RelyWork(read, api.seen);
    WorkKeptTransitive(old(api.st), read, api.seen);
    WorkKeptTransitive(old(api.st), api.seen, api.st);
    if Quiet(old(api.script)) {
      NotesIngress(old(api.st), read, api.st);
    }
    if deleted.Failed? {
      FailureRefuses(api.seen, DeleteIngress(reply.ingress), fault);
      PartFails(api.start, |old(api.moves)|, api.moves, api.seen, DeleteIngress(reply.ingress), fault, RoutePart);
      return Some(Api);
    }
    e := None;
  }

  lemma RouteRequests(op: Op)
    ensures op.ReadIngress? || op.DeleteIngress? ==> Concerns(op, RoutePart)
    ensures op.ReadDeployment? || op.UpdateDeployment? ==> Concerns(op, StopPart)
  {}

  lemma FailureRefuses(s: State, op: Op, fault: Fault)
    ensures var r := After(s, op, fault).1; r == Failed || (op.UpdateDeployment? && r == Absent) ==> Refused(s, op, fault)
  {
    hide After;
  }

  lemma NotesSameIngress(s: State, t: State)
    requires SameButNotes(s, t)
    ensures t.ingress == s.ingress && OnlyIngress(s, t)
  {}

  // ---- scaling to zero ----

  /** An owned Deployment asks for no pods. */
  predicate AtZero(w: Workload) { w.deploy.Some? && w.deploy.value.owned ==> w.deploy.value.replicas == 0 }

  lemma DeploymentServed(s: State)
    requires Good(s)
    ensures Serve(s, ReadDeployment).1 == if s.work.deploy.Some? then GotDeployment(s.work.deploy.value) else Absent
    ensures s.work.deploy.Some? ==> DeploymentAsRead(s, s.work.deploy.value)
    ensures Learn(s, ReadDeployment, Serve(s, ReadDeployment).1).pass.approved <==> s.pass.approved || Approved(s.work)
  {
    hide Genuine, PinsOurs, PinsBounded, Counted, Alone, OneTemplate, MountsPinned, SecretsFresh, MineFresh;
  }

  /** Scaling to zero is always permitted; any other size needs the checks of the pass. */
  lemma ScaleAllowed(s: State, d: Deployment, replicas: nat)
    requires d.owned && DeploymentAsRead(s, d) && (replicas == 0 || (MayRead(s) && ReplicasFit(s, replicas)))
    ensures Allowed(s, UpdateDeployment(d, replicas, d.template, d.recreate))
  {}

  lemma UpdateEffect(s: State, d: Deployment, replicas: nat, template: PodTemplate, recreate: bool)
    ensures var (t, r) := ServeUpdateDeployment(s, d, replicas, template, recreate);
      && Pins(t) == Pins(s) && t.past == s.past && t.solo == s.solo && t.inst == s.inst && t.pass == s.pass && t.ingress == s.ingress
      && t.keepsSlug == s.keepsSlug && OnlyWork(s, t) && s.next <= t.next && (r == Done || r == Absent || r == Failed)
      && (s.work.deploy == Some(d) ==>
            && r == Done && t.work == s.work.(deploy := t.work.deploy) && t.work.deploy.Some? && t.work.deploy.value.owned == d.owned
            && t.work.deploy.value.replicas == replicas && t.work.deploy.value.template == template)
  {}

  lemma UpdateServed(was: State, s: State, d: Deployment, replicas: nat, template: PodTemplate, recreate: bool, fault: Fault)
    requires Rely(was, s)
    ensures var (t, r) := After(s, UpdateDeployment(d, replicas, template, recreate), fault);
      && Pins(t) == Pins(was) && t.past.erased == was.past.erased && t.solo == was.solo && t.inst.status == was.inst.status
      && was.next <= t.next && (Unowned(was.ingress) ==> Unowned(t.ingress)) && SamePass(was, t)
      && (r == Done || r == Absent || r == Failed)
      && (was == s ==> OnlyWork(s, t))
      && (was == s && fault == Clean && s.work.deploy == Some(d) ==> r == Done)
  {
    hide ServeUpdateDeployment, OnlyWork, SameWorkload, SameSecrets;
    UpdateEffect(s, d, replicas, template, recreate);
    NotesReflexive(s);
    NotesOnlyWork(s, s);
  }

  /** A delivered update found the object that was read. */
  lemma UpdateDone(was: State, s: State, d: Deployment, replicas: nat, template: PodTemplate, recreate: bool, fault: Fault)
    requires Rely(was, s) && DeploymentAsRead(was, d)
    requires After(s, UpdateDeployment(d, replicas, template, recreate), fault).1 == Done
    ensures Written(After(s, UpdateDeployment(d, replicas, template, recreate), fault).0.work, d, replicas, template, recreate)
  {
    hide SameSecrets;
  }

  lemma {:induction false} FindUnsupported(cs: seq<Container>, i: nat)
    requires i < |cs| && cs[i].name == APP && cs[i].image != SUPPORTED_IMAGE
    ensures !SupportedContainers(cs)
  {}

  /** The loop over the template's containers. */
  method UnsupportedImage(cs: seq<Container>, force: bool) returns (unapproved: bool)
    ensures unapproved <==> force || !SupportedContainers(cs)
  {
    unapproved := force;
    for i := 0 to |cs|
      invariant unapproved <==> force || !SupportedContainers(cs[..i])
    {
      assert cs[..i + 1] == cs[..i] + [cs[i]];
      if cs[i].name == APP && cs[i].image != SUPPORTED_IMAGE {
        FindUnsupported(cs[..i + 1], i);
        unapproved := true;
      } else if !unapproved {
        assert forall j :: 0 <= j < i ==> cs[..i + 1][j] == cs[..i][j];
      } else if !force {
        var j :| 0 <= j < i && cs[..i][j].name == APP && cs[..i][j].image != SUPPORTED_IMAGE;
        FindUnsupported(cs[..i + 1], j);
      }
    }
    assert cs[..|cs|] == cs;
  }

  /** An update of the object that was read: when it is answered, that object has the new contents. */
  method UpdateObject(api: ApiServer, d: Deployment, replicas: nat, template: PodTemplate, recreate: bool) returns (done: bool)
    requires api.Inv() && DeploymentAsRead(api.st, d) && Allowed(api.st, UpdateDeployment(d, replicas, template, recreate))
    modifies api
    ensures api.Inv() && old(api.moves) <= api.moves
    ensures Pins(api.st) == Pins(old(api.st)) && api.st.past.erased == old(api.st).past.erased && api.st.solo == old(api.st).solo
    ensures api.st.inst.status == old(api.st).inst.status && SamePass(old(api.st), api.st)
    ensures Unowned(old(api.st).ingress) ==> Unowned(api.st.ingress)
    ensures done ==> Written(api.st.work, d, replicas, template, recreate)
    ensures !done ==> PartFailed(api.start, |old(api.moves)|, api.moves, StopPart)
    ensures Quiet(old(api.script)) ==> Quiet(api.script) && OnlyWork(old(api.st), api.st)
    ensures old(api.script) == [] ==> api.script == [] && (old(api.st).work.deploy == Some(d) ==> done)
  {
    hide *;
    QuietCall(api.script);
    ghost var fault, op := Head(api.script).fault, UpdateDeployment(d, replicas, template, recreate);
    var updated := api.Call(UpdateDeployment(d, replicas, template, recreate));
    UpdateServed(old(api.st), api.seen, d, replicas, template, recreate, fault);
    if !updated.Done? {
      RouteRequests(op);
      FailureRefuses(api.seen, op, fault);
      PartFails(api.start, |old(api.moves)|, api.moves, api.seen, op, fault, StopPart);
      return false;
    }
    UpdateDone(old(api.st), api.seen, d, replicas, template, recreate, fault);
    done := true;
  }

  /** The Deployment has these contents, and the owner of the one that was read. */
  predicate Written(w: Workload, d: Deployment, replicas: nat, template: PodTemplate, recreate: bool) {
    && w.deploy.Some? && w.deploy.value.owned == d.owned && w.deploy.value.recreate == recreate
    && w.deploy.value.replicas == replicas && w.deploy.value.template == template
  }

  lemma WrittenMeans(w: Workload, d: Deployment, replicas: nat, template: PodTemplate, recreate: bool)
    requires Written(w, d, replicas, template, recreate)
    ensures replicas == 0 ==> AtZero(w)
    ensures d.owned && recreate ==> Applied(w, template, replicas)
  {}

  /** `stopUnapprovedDeployment`: `force` stops an owned Deployment whatever its image. */
  method StopUnapproved(api: ApiServer, force: bool) returns (r: Result<bool, Err>)
    requires api.Inv()
    modifies api
    ensures api.Inv() && old(api.moves) <= api.moves
    ensures Pins(api.st) == Pins(old(api.st)) && api.st.inst.status == old(api.st).inst.status && api.st.solo == old(api.st).solo
    ensures SamePass(old(api.st), api.st)
    ensures Unowned(old(api.st).ingress) ==> Unowned(api.st.ingress)
    ensures r == Ok(false) && !force ==> api.st.pass.approved
    ensures r.Err? ==> r.error == Api || r.error == NotOwnedDeployment
    ensures (r.Ok? && (force || r.value)) || r == Err(NotOwnedDeployment) ==> AtZero(api.st.work)
    ensures r == Err(Api) ==> PartFailed(api.start, |old(api.moves)|, api.moves, StopPart)
    ensures Quiet(old(api.script)) ==> Quiet(api.script) && OnlyWork(old(api.st), api.st)
    ensures old(api.script) == [] ==> api.script == [] && r != Err(Api)
    ensures old(api.script) == [] && !force ==> (r == Ok(false) <==> Approved(old(api.st).work))
    ensures Quiet(old(api.script)) && r == Ok(false) ==> SameButNotes(old(api.st), api.st)
  {
    hide *;
    CalmIsQuiet(api.script);
    ReadAllowed(api.st, ReadDeployment);
    RouteRequests(Op.ReadDeployment);
    InvGood(api);
    var reply := Read(api, ReadDeployment);
    ghost var seen, read := api.seen, api.st;
    DeploymentServed(seen);
    KeptWork(old(api.st), read);
    WorkKeptMeans(old(api.st), read);
    AdmissionGoesOn(old(api.st), read, read);
    NotesKept(seen, read);
    KeptWork(seen, read);
    NotesOnlyWork(seen, read);
    if reply.Failed? {
      return Err(Api);
    }
    AtZeroMeans(read.work);
    ApprovedMeans(seen.work);
    if reply.Absent? {
      return Ok(false);
    }
    var d := reply.deploy;
    if !d.owned {
      return Err(NotOwnedDeployment);
    }
    var unapproved := UnsupportedImage(d.template.spec.containers, force);
    if !unapproved {
      return Ok(false);
    }
    if d.replicas != 0 {
      ReadStillHolds(seen, read, d);
      ScaleAllowed(read, d, 0);
      ghost var before := api.moves;
      var updated := UpdateObject(api, d, 0, d.template, d.recreate);
      PassGoesOn(old(api.st), read, api.st);
      if Quiet(old(api.script)) {
        OnlyWorkCompose(seen, read, api.st);
      }
      if !updated {
        PartFailsStill(api.start, |old(api.moves)|, |before|, api.moves, api.moves, StopPart);
        return Err(Api);
      }
      WrittenMeans(api.st.work, d, 0, d.template, d.recreate);
      return Ok(true);
    }
    r := Ok(d.observed < d.generation || d.running != 0);
  }

  /** At some point since the first `before` moves, an owned Deployment asked for no pods. */
  ghost predicate WasAtZero(start: State, before: nat, moves: seq<Move>) {
    exists k :: before <= k <= |moves| && AtZero(Exec(start, moves[..k]).work)
  }

  lemma ZeroNow(start: State, before: nat, moves: seq<Move>, s: State)
    requires s == Exec(start, moves) && AtZero(s.work) && before <= |moves|
    ensures WasAtZero(start, before, moves)
  {
    hide Exec, AtZero;
    assert moves[..|moves|] == moves;
  }

  lemma ZeroStill(start: State, before: nat, first: nat, moves: seq<Move>, more: seq<Move>)
    requires WasAtZero(start, first, moves) && before <= first && moves <= more
    ensures WasAtZero(start, before, more)
  {
    hide Exec, AtZero;
    var k :| first <= k <= |moves| && AtZero(Exec(start, moves[..k]).work);
    assert moves[..k] == more[..k];
  }

  lemma ReachedNow(api: ApiServer)
    requires api.Inv()
    ensures api.st == Exec(api.start, api.moves)
  {
    hide Good, Initial, Legal, Exec;
  }

  lemma AtZeroMeans(w: Workload)
    ensures AtZero(w) <==> (w.deploy.Some? && w.deploy.value.owned ==> w.deploy.value.replicas == 0)
  {}

  lemma ApprovedMeans(w: Workload)
    ensures w.deploy.None? ==> Approved(w)
    ensures w.deploy.Some? && !w.deploy.value.owned ==> !Approved(w)
    ensures w.deploy.Some? && w.deploy.value.owned ==>
      (Approved(w) <==>
         || SupportedContainers(w.deploy.value.template.spec.containers)
         || (w.deploy.value.replicas == 0 && w.deploy.value.generation <= w.deploy.value.observed && w.deploy.value.running == 0))
  {}

  lemma WorkKeptMeans(s: State, t: State)
    requires WorkKept(s, t)
    ensures Pins(t) == Pins(s) && t.past.erased == s.past.erased && t.solo == s.solo && t.inst.status == s.inst.status
    ensures (Unowned(s.ingress) ==> Unowned(t.ingress)) && SamePass(s, t)
  {}

  lemma NotesOnlyWork(s: State, t: State)
    requires SameButNotes(s, t)
    ensures t.work == s.work && OnlyWork(s, t)
  {}

  lemma OnlyWorkCompose(s: State, t: State, u: State)
    requires SameButNotes(s, t) && OnlyWork(t, u)
    ensures OnlyWork(s, u)
  {}

  // ---- cutover ----

  lemma PodsServed(s: State)
    ensures Serve(s, ListMatchingPods).1 == Count(|s.work.pods|)
  {}

  /** The object that was read is at zero and observed, and no pod was listed. */
  lemma SeenStopped(seen: State, now: State, d: Deployment)
    requires DeploymentAsRead(seen, d) && WorkKept(seen, now) && |seen.work.pods| == 0
    requires d.replicas == 0 && d.generation <= d.observed
    ensures now.work.deploy == Some(d) ==> Stopped(now.work)
  {}

  /** `waitForAccessCutover`: `Ok(true)` means wait, `Ok(false)` that the pods are gone. */
  method WaitForCutover(api: ApiServer, existing: Deployment) returns (r: Result<bool, Err>)
    requires api.Inv() && existing.owned && DeploymentAsRead(api.st, existing)
    modifies api
    ensures api.Inv() && old(api.moves) <= api.moves
    ensures Pins(api.st) == Pins(old(api.st)) && api.st.past.erased == old(api.st).past.erased && api.st.solo == old(api.st).solo
    ensures api.st.inst.status == old(api.st).inst.status && SamePass(old(api.st), api.st)
    ensures r == Ok(false) ==>
      && DeploymentAsRead(api.st, existing) && Unowned(api.st.ingress)
      && (api.st.work.deploy == Some(existing) ==> Stopped(api.st.work))
    ensures r.Ok? ==> Unowned(api.st.ingress)
    ensures r == Ok(true) ==> existing.replicas == 0 || AtZero(api.st.work)
    ensures r.Err? ==> r.error == Api || r.error == NotOwnedIngress || r.error == NoSelector
    ensures Quiet(old(api.script)) ==> Quiet(api.script)
    ensures Quiet(old(api.script)) && r.Ok? && old(api.st).work.deploy == Some(existing) ==> AtZero(api.st.work)
    ensures Quiet(old(api.script)) && r == Ok(false) ==> api.st.work == old(api.st).work
    ensures old(api.script) == [] ==> api.script == []
    ensures old(api.script) == [] && old(api.st).work.deploy == Some(existing) ==>
      (r == Ok(false) <==>
         && Stopped(old(api.st).work) && existing.running == 0 && existing.selector
         && (old(api.st).ingress.None? || old(api.st).ingress.value.owned))
  {
    hide *;
    CalmIsQuiet(api.script);
    StoppedMeans(api.st.work, existing);
    InvGood(api);
    var withdrawn := WithdrawAccess(api);
    ghost var routeless := api.st;
    WorkKeptMeans(old(api.st), routeless);
    ReadStillHolds(old(api.st), routeless, existing);
    if Quiet(old(api.script)) {
      OnlyIngressWork(old(api.st), routeless);
    }
    InvGood(api);
    if withdrawn.Some? {
      return Err(withdrawn.value);
    }
    if existing.replicas != 0 {
      ScaleAllowed(routeless, existing, 0);
      var updated := UpdateObject(api, existing, 0, existing.template, existing.recreate);
      PassGoesOn(old(api.st), routeless, api.st);
      if !updated {
        return Err(Api);
      }
      WrittenMeans(api.st.work, existing, 0, existing.template, existing.recreate);
      return Ok(true);
    }
    if !existing.selector {
      return Err(NoSelector);
    }
    ReadAllowed(api.st, ListMatchingPods);
    var pods := Read(api, ListMatchingPods);
    PodsServed(api.seen);
    KeptWork(routeless, api.st);
    KeptWork(routeless, api.seen);
    WorkKeptMeans(routeless, api.st);
    PassGoesOn(old(api.st), routeless, api.st);
    ReadStillHolds(routeless, api.st, existing);
    ReadStillHolds(routeless, api.seen, existing);
    NotesKept(api.seen, api.st);
    KeptWork(api.seen, api.st);
    NotesOnlyWork(api.seen, api.st);
    AtZeroMeans(api.st.work);
    if pods.Failed? {
      return Err(Api);
    }
    if existing.observed < existing.generation || existing.running != 0 || pods.n != 0 {
      return Ok(true);
    }
    SeenStopped(api.seen, api.st, existing);
    r := Ok(false);
  }

  lemma StoppedMeans(w: Workload, d: Deployment)
    ensures w.deploy == Some(d) ==> (Stopped(w) <==> d.replicas == 0 && d.generation <= d.observed && |w.pods| == 0)
  {}

  lemma OnlyIngressWork(s: State, t: State)
    requires OnlyIngress(s, t)
    ensures t.work == s.work && t.others == s.others && t.inst == s.inst
  {}

  // ---- the desired template ----

  /** `proxyImage` is operator configuration; `name` and `uid` identify the instance. */
  datatype Settings = Settings(name: string, uid: string, proxyImage: string)

  const OAUTH_IMAGE := "oauth2-proxy image"

  function Volumes(bundle: Name): seq<Volume> {
    [SecretVolume("webui-guard", bundle, None), SecretVolume("gate-config", bundle, None),
     SecretVolume("oauth-config", bundle, None), OtherVolume("webui-data"), OtherVolume("webui-tmp")]
  }

  function AppEnv(ref: Name, url: string): seq<EnvVar> {
    [FromSecret("WEBUI_SECRET_KEY", Name.Session), FromSecret("OPENAI_API_KEY", ref), FromSecret("OPENAI_API_BASE_URL", ref),
     Plain("CORS_ALLOW_ORIGIN", url)]
  }

  function Containers(settings: Settings, image: string, ref: Name, url: string): seq<Container> {
    var startup := Some(Probe(Command("health"), "startup", 0));
    var web := Some(Probe(HttpGet("/", ""), "web", 0));
    [Container(APP, image, "uvicorn chatui_guard:app", "", "", [], startup, startup, startup, "", AppEnv(ref, url), []),
     Container("instance-access", settings.proxyImage, "/access-proxy", "", "", [Port(8083, "")], web, web, web, "", [], []),
     Container("oauth2-proxy", OAUTH_IMAGE, url, "", "", [Port(8080, "")], web, web, None, "", [], [])]
  }

  function Revision(bundle: Name): string { if bundle.Access? then bundle.rev else "" }

  function PodFor(settings: Settings, image: string, checksum: string, ref: Name, b: Bundle): PodTemplate {
    PodTemplate(
      map["ui.privatellms.msp/secret-checksum" := checksum, "ui.privatellms.msp/access-revision" := Revision(b.name)],
      map["app.kubernetes.io/name" := "open-webui", "ui.privatellms.msp/instance" := settings.name,
          "ui.privatellms.msp/instance-uid" := settings.uid],
      PodSpec(Containers(settings, image, ref, b.url), [], [], Volumes(b.name), [], "fsGroup=1000", false, false, false, ""))
  }

  /** `buildDeployment` followed by `applyAccessDeployment`: the defaults are filled in once. */
  function Desired(settings: Settings, image: string, checksum: string, ref: Name, b: Bundle): PodTemplate {
    var pod := PodFor(settings, image, checksum, ref, b); Managed(pod, pod)
  }

  lemma ThreeNames(settings: Settings, image: string, ref: Name, url: string)
    ensures DistinctNames(Containers(settings, image, ref, url))
  {
    var cs := Containers(settings, image, ref, url);
    assert |cs[0].name| == 10 && |cs[1].name| == 15 && |cs[2].name| == 12;
  }

  lemma SameNames(prior: seq<Container>, want: seq<Container>)
    requires DistinctNames(want)
    ensures DistinctNames(ManagedContainers(prior, want))
  {
    hide Sized;
  }

  lemma DesiredNamesDiffer(settings: Settings, image: string, checksum: string, ref: Name, b: Bundle)
    ensures DistinctNames(Desired(settings, image, checksum, ref, b).spec.containers)
  {
    hide *;
    DesiredIs(settings, image, checksum, ref, b);
    ThreeNames(settings, image, ref, b.url);
    SameNames(Containers(settings, image, ref, b.url), Containers(settings, image, ref, b.url));
  }

  lemma DesiredIs(settings: Settings, image: string, checksum: string, ref: Name, b: Bundle)
    ensures var pod, d := PodFor(settings, image, checksum, ref, b), Desired(settings, image, checksum, ref, b);
      && d == Managed(pod, pod) && d.spec.containers == ManagedContainers(pod.spec.containers, pod.spec.containers)
      && d.spec.volumes == ManagedVolumes(pod.spec.volumes) && UnmanagedRefs(pod.spec) == {}
      && pod.spec.containers == Containers(settings, image, ref, b.url) && pod.spec.volumes == Volumes(b.name)
  {
    hide ManagedContainers, ManagedVolumes, Containers, Volumes;
  }

  lemma VolumesMount(bundle: Name)
    ensures Mounted(Volumes(bundle)) == {bundle}
  {
    var volumes := Volumes(bundle);
    assert volumes[0] in volumes && bundle in VolumeRefs(volumes[0]);
  }

  lemma ContainersRefer(settings: Settings, image: string, ref: Name, url: string)
    ensures ContainerNames(Containers(settings, image, ref, url)) == {ref, Name.Session}
  {
    var cs := Containers(settings, image, ref, url);
    var env := AppEnv(ref, url);
    assert env[0] in env && env[1] in env && Name.Session in EnvRefs(env[0]) && ref in EnvRefs(env[1]);
    assert EnvNames(env) == {ref, Name.Session};
    assert cs[0].env == env && cs[1].env == [] && cs[2].env == [];
    NamesOfThree(cs, env);
  }

  lemma NamesOfThree(cs: seq<Container>, env: seq<EnvVar>)
    requires |cs| == 3 && cs[0].env == env && cs[1].env == [] && cs[2].env == []
    requires cs[0].envFrom == [] && cs[1].envFrom == [] && cs[2].envFrom == []
    ensures ContainerNames(cs) == EnvNames(env)
  {
    assert cs[0] in cs;
    forall c | c in cs ensures EnvNames(c.env) + EnvFromNames(c.envFrom) <= EnvNames(env) {}
  }

  lemma VolumesOf(existing: PodTemplate, desired: PodTemplate)
    ensures Managed(existing, desired).spec.volumes == ManagedVolumes(desired.spec.volumes)
  {}

  lemma MountsOf(t: PodTemplate, bundle: Name)
    requires Mounted(t.spec.volumes) == {bundle} && bundle.Access?
    ensures BundleMounts(t) == {bundle}
  {}

  /** The merged template mounts exactly the prepared bundle, and refers to exactly that bundle, the
      session and the backend Secret, and to what the unmanaged fields of the existing template do. */
  lemma MergedRefs(existing: PodTemplate, settings: Settings, image: string, checksum: string, ref: Name, b: Bundle)
    requires b.name.Access?
    ensures var t := Managed(existing, Desired(settings, image, checksum, ref, b));
      && BundleMounts(t) == {b.name} && UnmanagedRefs(t.spec) == UnmanagedRefs(existing.spec)
      && SecretRefs(t.spec) == {b.name, ref, Name.Session} + UnmanagedRefs(existing.spec)
    ensures var d := Desired(settings, image, checksum, ref, b);
      BundleMounts(d) == {b.name} && SecretRefs(d.spec) == {b.name, ref, Name.Session} && UnmanagedRefs(d.spec) == {}
  {
    hide *;
    var pod := PodFor(settings, image, checksum, ref, b);
    var d := Desired(settings, image, checksum, ref, b);
    DesiredIs(settings, image, checksum, ref, b);
    VolumesMount(b.name);
    ContainersRefer(settings, image, ref, b.url);
    ManagedMounted(pod.spec.volumes);
    ManagedMounted(d.spec.volumes);
    ManagedNames(pod.spec.containers, pod.spec.containers);
    ManagedRefs(pod, pod);
    ManagedRefs(existing, d);
    VolumesOf(existing, d);
    MountsOf(d, b.name);
    MountsOf(Managed(existing, d), b.name);
  }

  /** The written template refers to a bundle beyond the prepared one iff the backend reference in
      memory names one: the reserved-name check was made of an earlier copy. */
  lemma BeyondTheBundle(existing: PodTemplate, settings: Settings, image: string, checksum: string, ref: Name, b: Bundle)
    requires b.name.Access? && BundlesManaged(existing)
    ensures var t := Managed(existing, Desired(settings, image, checksum, ref, b));
      && AccessRefs(t) == {b.name} + (if ref.Access? then {ref} else {}) && BundlesManaged(t)
      && (AccessRefs(t) != BundleMounts(t) <==> ref.Access? && ref != b.name)
    ensures var d := Desired(settings, image, checksum, ref, b);
      && AccessRefs(d) == {b.name} + (if ref.Access? then {ref} else {}) && BundlesManaged(d)
      && (AccessRefs(d) != BundleMounts(d) <==> ref.Access? && ref != b.name)
  {
    hide Managed, Desired, SecretRefs, UnmanagedRefs, Mounted;
    MergedRefs(existing, settings, image, checksum, ref, b);
    if ref.Access? && ref != b.name {
      assert ref in {b.name, ref} && ref !in {b.name};
    }
  }

  // ---- reconciling the Deployment ----

  /** The prepared bundle is pinned, and not one that was erased. */
  ghost predicate Held(s: State, bundle: Name) {
    && bundle.Access? && bundle in Pins(s) && Pins(s)[bundle] !in s.past.erased
  }

  lemma HeldStays(s: State, t: State, bundle: Name)
    requires Held(s, bundle) && Pins(t) == Pins(s) && t.past.erased == s.past.erased && t.solo == s.solo
    ensures Held(t, bundle)
  {}

  /** The backend reference names another bundle only after an edit that a new pin brought into memory. */
  predicate RefFits(s: State, bundle: Name, ref: Name) { ref.Access? && ref != bundle ==> s.pass.pinned && Edited(s) }

  lemma FitsStay(s: State, t: State, bundle: Name, ref: Name, replicas: nat)
    requires SamePass(s, t)
    ensures (RefFits(s, bundle, ref) ==> RefFits(t, bundle, ref)) && (ReplicasFit(s, replicas) ==> ReplicasFit(t, replicas))
    ensures MayRead(s) ==> MayRead(t)
  {}

  lemma MergedPermissible(now: State, template: PodTemplate, bundle: Name, ref: Name)
    requires Held(now, bundle) && (now.solo ==> !ref.Access?) && RefFits(now, bundle, ref)
    requires BundleMounts(template) == {bundle} && BundlesManaged(template)
    requires AccessRefs(template) == {bundle} + (if ref.Access? then {ref} else {})
    ensures Permissible(now, template)
  {
    hide SecretRefs, Mounted, BundlesManaged, AccessRefs, BundleMounts;
  }

  lemma SwapAllowed(s: State, now: State, d: Deployment, replicas: nat, template: PodTemplate)
    requires Permissible(s, template) && d.owned
    requires Pins(now) == Pins(s) && now.past.erased == s.past.erased && now.solo == s.solo
    requires DeploymentAsRead(now, d) && Unowned(now.ingress) && (now.work.deploy == Some(d) ==> Stopped(now.work))
    requires SamePass(s, now) && MayRead(s) && ReplicasFit(s, replicas)
    ensures Allowed(now, UpdateDeployment(d, replicas, template, true))
  {
    hide SecretRefs, Mounted, AccessRefs, BundlesManaged, BundleMounts, MayRead;
    ChecksStay(s, now);
  }

  /** Lines 340-354: wait for the cutover, then write the template that was read and merged. */
  method SwapTemplate(api: ApiServer, d: Deployment, template: PodTemplate, replicas: nat) returns (e: Option<Err>)
    requires api.Inv() && d.owned && DeploymentAsRead(api.st, d) && Permissible(api.st, template)
    requires MayRead(api.st) && ReplicasFit(api.st, replicas)
    modifies api
    ensures api.Inv() && old(api.moves) <= api.moves
    ensures Pins(api.st) == Pins(old(api.st)) && api.st.inst.status == old(api.st).inst.status && api.st.solo == old(api.st).solo
    ensures SamePass(old(api.st), api.st)
    ensures e == Some(Cutover) ==> Unowned(api.st.ingress) && (d.replicas == 0 || AtZero(api.st.work))
    ensures Quiet(old(api.script)) ==> Quiet(api.script)
    ensures Quiet(old(api.script)) && e == Some(Cutover) && old(api.st).work.deploy == Some(d) ==> AtZero(api.st.work)
    ensures e.None? ==> Applied(api.st.work, template, replicas)
    ensures old(api.script) == [] ==> api.script == []
  {
    hide *;
    var waiting := WaitForCutover(api, d);
    if waiting.Err? {
      return Some(waiting.error);
    }
    if waiting.value {
      return Some(Cutover);
    }
    SwapAllowed(old(api.st), api.st, d, replicas, template);
    ghost var stopped := api.st;
    var updated := UpdateObject(api, d, replicas, template, true);
    PassGoesOn(old(api.st), stopped, api.st);
    if !updated {
      return Some(Api);
    }
    WrittenMeans(api.st.work, d, replicas, template, true);
    e := None;
  }

  lemma DesiredAllowed(s: State, t: PodTemplate, replicas: nat)
    requires Permissible(s, t) && MayRead(s) && ReplicasFit(s, replicas)
    ensures Allowed(s, CreateDeployment(t, replicas))
  {
    hide SecretRefs, Mounted;
  }

  lemma CreationEffect(s: State, template: PodTemplate, replicas: nat)
    ensures var (t, r) := Serve(s, CreateDeployment(template, replicas));
      && t == s.(work := t.work, next := t.next) && (r == Done || r == Failed) && (r == Done <==> s.work.deploy.None?)
      && (r == Done ==> Applied(t.work, template, replicas))
  {}

  lemma CreateDeploymentServed(was: State, s: State, template: PodTemplate, replicas: nat, fault: Fault)
    requires Rely(was, s)
    ensures var (t, r) := After(s, CreateDeployment(template, replicas), fault);
      && Pins(t) == Pins(was) && t.past.erased == was.past.erased && t.solo == was.solo && t.inst.status == was.inst.status
      && SamePass(was, t) && (r == Done || r == Failed)
      && (was == s ==> OnlyWork(s, t))
      && (r == Done ==> Applied(t.work, template, replicas))
      && (was == s && fault == Clean ==> (r == Done <==> s.work.deploy.None?))
  {
    hide SameWorkload, SameSecrets, Serve, Applied;
    CreationEffect(s, template, replicas);
  }

  /** The instance's Deployment runs this template with this many replicas. */
  predicate Applied(w: Workload, template: PodTemplate, replicas: nat) {
    w.deploy.Some? && w.deploy.value.owned && w.deploy.value.recreate && w.deploy.value.template == template
    && w.deploy.value.replicas == replicas
  }

  /** Lines 320-332: the Deployment is created when there is none. */
  method CreateFresh(api: ApiServer, settings: Settings, replicas: nat, image: string, checksum: string, ref: Name, b: Bundle)
    returns (e: Option<Err>)
    requires api.Inv() && Held(api.st, b.name) && (api.st.solo ==> !ref.Access?)
    requires MayRead(api.st) && RefFits(api.st, b.name, ref) && ReplicasFit(api.st, replicas)
    modifies api
    ensures api.Inv() && old(api.moves) <= api.moves
    ensures Pins(api.st) == Pins(old(api.st)) && api.st.inst.status == old(api.st).inst.status && api.st.solo == old(api.st).solo
    ensures SamePass(old(api.st), api.st)
    ensures e.None? || e == Some(Api)
    ensures e.None? ==> Applied(api.st.work, Desired(settings, image, checksum, ref, b), replicas)
    ensures Quiet(old(api.script)) ==> Quiet(api.script)
    ensures old(api.script) == [] ==> api.script == []
  {
    hide *;
    var desired := Desired(settings, image, checksum, ref, b);
    HeldAccess(api.st, b.name);
    PodsClean(settings, image, checksum, ref, b);
    BeyondTheBundle(PodFor(settings, image, checksum, ref, b), settings, image, checksum, ref, b);
    MergedRefs(desired, settings, image, checksum, ref, b);
    MergedPermissible(api.st, desired, b.name, ref);
    DesiredAllowed(api.st, desired, replicas);
    QuietCall(api.script);
    ghost var fault := Head(api.script).fault;
    var created := api.Call(CreateDeployment(desired, replicas));
    CreateDeploymentServed(old(api.st), api.seen, desired, replicas, fault);
    e := if created.Done? then None else Some(Api);
  }

  /** Lines 339-354: the template that was read and merged goes through a cutover. */
  method Migrate(api: ApiServer, d: Deployment, settings: Settings, replicas: nat, image: string, checksum: string, ref: Name, b: Bundle)
    returns (e: Option<Err>)
    requires api.Inv() && Held(api.st, b.name) && (api.st.solo ==> !ref.Access?)
    requires MayRead(api.st) && RefFits(api.st, b.name, ref) && ReplicasFit(api.st, replicas)
    requires d.owned && DeploymentAsRead(api.st, d) && BundlesManaged(d.template)
    modifies api
    ensures api.Inv() && old(api.moves) <= api.moves
    ensures Pins(api.st) == Pins(old(api.st)) && api.st.inst.status == old(api.st).inst.status && api.st.solo == old(api.st).solo
    ensures SamePass(old(api.st), api.st)
    ensures e == Some(Cutover) ==> Unowned(api.st.ingress) && (d.replicas == 0 || AtZero(api.st.work))
    ensures Quiet(old(api.script)) ==> Quiet(api.script)
    ensures Quiet(old(api.script)) && e == Some(Cutover) && old(api.st).work.deploy == Some(d) ==> AtZero(api.st.work)
    ensures e.None? ==> Applied(api.st.work, Managed(d.template, Desired(settings, image, checksum, ref, b)), replicas)
    ensures old(api.script) == [] ==> api.script == []
  {
    hide *;
    var desired := Desired(settings, image, checksum, ref, b);
    var template := ManagedAccessTemplate(d.template, desired);
    HeldAccess(api.st, b.name);
    BeyondTheBundle(d.template, settings, image, checksum, ref, b);
    MergedRefs(d.template, settings, image, checksum, ref, b);
    MergedPermissible(api.st, template, b.name, ref);
    e := SwapTemplate(api, d, template, replicas);
  }

  /** Lines 334-354: the Deployment that was read. */
  method ReconcileExisting(api: ApiServer, d: Deployment, settings: Settings, replicas: nat, image: string, checksum: string,
                           ref: Name, b: Bundle) returns (e: Option<Err>)
    requires api.Inv() && Held(api.st, b.name) && (api.st.solo ==> !ref.Access?)
    requires MayRead(api.st) && RefFits(api.st, b.name, ref) && ReplicasFit(api.st, replicas)
    requires api.st.work.deploy == Some(d) && DeploymentAsRead(api.st, d) && BundlesManaged(d.template)
    modifies api
    ensures api.Inv() && old(api.moves) <= api.moves
    ensures Pins(api.st) == Pins(old(api.st)) && api.st.inst.status == old(api.st).inst.status && api.st.solo == old(api.st).solo
    ensures SamePass(old(api.st), api.st)
    ensures e == Some(Cutover) ==> Unowned(api.st.ingress) && (d.replicas == 0 || AtZero(api.st.work))
    ensures Quiet(old(api.script)) ==> Quiet(api.script) && (e == Some(Cutover) ==> AtZero(api.st.work))
    ensures e.None? ==> Applied(api.st.work, Managed(d.template, Desired(settings, image, checksum, ref, b)), replicas)
    ensures old(api.script) == [] ==> api.script == []
    ensures old(api.script) == [] && Converged(old(api.st).work, Desired(settings, image, checksum, ref, b), replicas) ==>
      e.None? && api.st == old(api.st)
  {
    hide *;
    var desired := Desired(settings, image, checksum, ref, b);
    DesiredNamesDiffer(settings, image, checksum, ref, b);
    ConvergedMeans(api.st.work, desired, replicas);
    PassGoesOn(api.st, api.st, api.st);
    if !d.owned {
      return Some(NotOwnedDeployment);
    }
    var template := ManagedAccessTemplate(d.template, desired);
    if d.template != template || !d.recreate {
      e := Migrate(api, d, settings, replicas, image, checksum, ref, b);
      return e;
    }
    if d.replicas == replicas {
      AppliedMeans(api.st.work, template, replicas);
      return None;
    }
    ScaleAllowed(api.st, d, replicas);
    var updated := UpdateObject(api, d, replicas, d.template, d.recreate);
    if !updated {
      return Some(Api);
    }
    WrittenMeans(api.st.work, d, replicas, d.template, d.recreate);
    e := None;
  }

  /** `reconcileDeployment`. */
  method ReconcileDeployment(api: ApiServer, settings: Settings, replicas: nat, image: string, checksum: string,
                             ref: Name, b: Bundle) returns (e: Option<Err>)
    requires api.Inv() && Held(api.st, b.name) && (api.st.solo ==> !ref.Access?)
    requires MayRead(api.st) && RefFits(api.st, b.name, ref) && ReplicasFit(api.st, replicas)
    modifies api
    ensures api.Inv() && old(api.moves) <= api.moves
    ensures Pins(api.st) == Pins(old(api.st)) && api.st.inst.status == old(api.st).inst.status && api.st.solo == old(api.st).solo
    ensures SamePass(old(api.st), api.st)
    ensures e == Some(Cutover) ==> Unowned(api.st.ingress) && WasAtZero(api.start, |old(api.moves)|, api.moves)
    ensures Quiet(old(api.script)) ==> Quiet(api.script)
    ensures Quiet(old(api.script)) && e == Some(Cutover) ==> AtZero(api.st.work)
    ensures e.None? ==> Converged(api.st.work, Desired(settings, image, checksum, ref, b), replicas)
    ensures Quiet(old(api.script)) && e.None? ==>
      Applied(api.st.work, MergedOver(old(api.st).work, Desired(settings, image, checksum, ref, b)), replicas)
    ensures old(api.script) == [] ==> api.script == []
    ensures old(api.script) == [] && Converged(old(api.st).work, Desired(settings, image, checksum, ref, b), replicas) ==>
      e.None? && SameButNotes(old(api.st), api.st)
  {
    hide *;
    ghost var desired := Desired(settings, image, checksum, ref, b);
    CalmIsQuiet(api.script);
    ReadAllowed(api.st, ReadDeployment);
    InvGood(api);
    var reply := Read(api, ReadDeployment);
    ghost var seen, read, readMoves := api.seen, api.st, api.moves;
    DeploymentServed(seen);
    NotesOnlyWork(seen, read);
    KeptWork(old(api.st), read);
    WorkKeptMeans(old(api.st), read);
    HeldStays(old(api.st), read, b.name);
    FitsStay(old(api.st), read, b.name, ref, replicas);
    MergedMeans(old(api.st).work, desired);
    DesiredNamesDiffer(settings, image, checksum, ref, b);
    ConvergedMeans(old(api.st).work, desired, replicas);
    if reply.Failed? {
      return Some(Api);
    }
    if reply.Absent? {
      e := CreateFresh(api, settings, replicas, image, checksum, ref, b);
      PassGoesOn(old(api.st), read, api.st);
      if e.None? {
        FreshConverges(api.st.work, settings, image, checksum, ref, b, replicas);
      }
      return e;
    }
    ReachedNow(api);
    ExistingRead(seen, read, reply.deploy);
    e := ReconcileExisting(api, reply.deploy, settings, replicas, image, checksum, ref, b);
    PassGoesOn(old(api.st), read, api.st);
    MergedConverges(api.st.work, reply.deploy.template, desired, replicas);
    if e == Some(Cutover) {
      ReachedNow(api);
      CutoverZero(api.start, |old(api.moves)|, readMoves, api.moves, read, api.st, reply.deploy);
    }
  }

  lemma ExistingRead(seen: State, read: State, d: Deployment)
    requires Good(seen) && SameButNotes(seen, read) && seen.work.deploy == Some(d)
    ensures read.work.deploy == Some(d) && DeploymentAsRead(read, d) && BundlesManaged(d.template)
  {
    hide *;
    SeenClean(seen, d);
    DeploymentServed(seen);
    NotesKept(seen, read);
    KeptWork(seen, read);
    ReadStillHolds(seen, read, d);
    NotesOnlyWork(seen, read);
  }

  /** The Deployment was at zero when it was read, or is after the request that scaled it. */
  lemma CutoverZero(start: State, before: nat, first: seq<Move>, moves: seq<Move>, read: State, now: State, d: Deployment)
    requires before <= |first| && first <= moves && read == Exec(start, first) && now == Exec(start, moves)
    requires read.work.deploy == Some(d) && (d.replicas == 0 || AtZero(now.work))
    ensures WasAtZero(start, before, moves)
  {
    hide *;
    AtZeroMeans(read.work);
    if d.replicas == 0 {
      ZeroNow(start, before, first, read);
      ZeroStill(start, before, before, first, moves);
    } else {
      ZeroNow(start, before, moves, now);
    }
  }

  lemma MergedConverges(w: Workload, prior: PodTemplate, desired: PodTemplate, replicas: nat)
    ensures Applied(w, Managed(prior, desired), replicas) ==> Converged(w, desired, replicas)
  {
    hide Applied, Managed;
  }

  lemma FreshConverges(w: Workload, settings: Settings, image: string, checksum: string, ref: Name, b: Bundle, replicas: nat)
    requires Applied(w, Desired(settings, image, checksum, ref, b), replicas)
    ensures Converged(w, Desired(settings, image, checksum, ref, b), replicas)
  {
    hide Applied, Managed, Desired;
    var d := Desired(settings, image, checksum, ref, b);
    DesiredIsMerged(settings, image, checksum, ref, b);
    assert Applied(w, Managed(d, d), replicas);
  }

  lemma PodsClean(settings: Settings, image: string, checksum: string, ref: Name, b: Bundle)
    ensures BundlesManaged(PodFor(settings, image, checksum, ref, b))
  {
    hide Containers, Volumes;
    DesiredIs(settings, image, checksum, ref, b);
  }

  lemma SeenClean(s: State, d: Deployment)
    requires Good(s) && s.work.deploy == Some(d)
    ensures BundlesManaged(d.template)
  {
    hide Fresh, Genuine, PinsOurs, PinsBounded, MountsPinned, ErasedMarked, ErasedBundles, Counted, Alone, BundlesManaged;
  }

  /** What a fresh or a merged template looks like. */
  function MergedOver(w: Workload, desired: PodTemplate): PodTemplate {
    if w.deploy.None? then desired else Managed(w.deploy.value.template, desired)
  }

  /** The desired template was merged before and nothing else is to change. */
  ghost predicate Converged(w: Workload, desired: PodTemplate, replicas: nat) {
    exists prior :: Applied(w, Managed(prior, desired), replicas)
  }

  lemma AppliedMeans(w: Workload, template: PodTemplate, replicas: nat)
    ensures Applied(w, template, replicas) <==>
      && w.deploy.Some? && w.deploy.value.owned && w.deploy.value.recreate && w.deploy.value.template == template
      && w.deploy.value.replicas == replicas
  {}

  lemma MergedMeans(w: Workload, desired: PodTemplate)
    ensures MergedOver(w, desired) == if w.deploy.None? then desired else Managed(w.deploy.value.template, desired)
  {}

  lemma OnlyOwnSize(cs: seq<Container>, i: nat)
    requires DistinctNames(cs) && i < |cs|
    ensures Sized(cs, cs[i].name, cs[i].resources) == cs[i].resources
  {
    var k := SizedMeaning(cs, cs[i].name, cs[i].resources);
  }

  /** The template of a fresh Deployment is a fixpoint of the merge. */
  lemma DesiredIsMerged(settings: Settings, image: string, checksum: string, ref: Name, b: Bundle)
    ensures var d := Desired(settings, image, checksum, ref, b); Managed(d, d) == d
  {
    hide PodFor, Sized;
    var pod, d := PodFor(settings, image, checksum, ref, b), Desired(settings, image, checksum, ref, b);
    DesiredNamesDiffer(settings, image, checksum, ref, b);
    var twice := Managed(d, d);
    forall i: nat | i < |d.spec.containers| ensures twice.spec.containers[i] == d.spec.containers[i] {
      OnlyOwnSize(d.spec.containers, i);
      NormalTwice(pod.spec.containers[i]);
    }
    assert twice.spec.containers == d.spec.containers;
    assert twice.spec.volumes == d.spec.volumes;
    assert twice.annotations == d.annotations && twice.labels == d.labels;
  }

  lemma NormalTwice(c: Container)
    ensures Normal(Normal(c)) == Normal(c)
  {
    assert NormalPorts(NormalPorts(c.ports)) == NormalPorts(c.ports);
  }

  /** A pass right after a successful one finds nothing to write: whatever template was there before,
      the one that `ReconcileDeployment` leaves is converged. */
  lemma WrittenTemplatesConverge(before: Workload, after: Workload, settings: Settings, image: string, checksum: string,
                                 ref: Name, b: Bundle, replicas: nat)
    requires Applied(after, MergedOver(before, Desired(settings, image, checksum, ref, b)), replicas)
    ensures Converged(after, Desired(settings, image, checksum, ref, b), replicas)
  {
    hide Desired, Managed;
    var d := Desired(settings, image, checksum, ref, b);
    DesiredIsMerged(settings, image, checksum, ref, b);
    assert Applied(after, Managed(if before.deploy.None? then d else before.deploy.value.template, d), replicas);
  }

  lemma HeldAccess(s: State, bundle: Name)
    requires Held(s, bundle)
    ensures bundle.Access?
  {}

  lemma ConvergedMeans(w: Workload, desired: PodTemplate, replicas: nat)
    requires DistinctNames(desired.spec.containers)
    ensures Converged(w, desired, replicas) ==>
      && w.deploy.Some? && w.deploy.value.owned && w.deploy.value.recreate && w.deploy.value.replicas == replicas
      && w.deploy.value.template == Managed(w.deploy.value.template, desired)
  {
    if Converged(w, desired, replicas) {
      var prior :| Applied(w, Managed(prior, desired), replicas);
      ManagedTemplateConverges(prior, desired);
    }
  }
}
