/** The public route of an instance: nobody else may claim its host; then the Service, the
    Ingress and the readiness checks (internal/controller/hostname_policy.go and
    internal/controller/chatuiinstance_controller.go). */
module Routes {
  import opened Basics
  import opened Cluster
  import opened Safety
  import opened Runs
  import opened Server
  import opened Pinning
  import opened Workloads
  import Hostnames
  import Ingresses

  // ---- the hostname ----

  predicate NoClaim(hosts: seq<string>, host: string) {
    forall j :: 0 <= j < |hosts| ==> !Hostnames.ClaimsHost(hosts[j], host)
  }

  /** The scan over all listed Ingresses but the instance's own. */
  method ScanClaims(items: seq<Listed>, host: string) returns (clear: bool)
    ensures clear <==> Unclaimed(items, host)
  {
    for i := 0 to |items|
      invariant forall k :: 0 <= k < i && !items[k].own ==> NoClaim(items[k].hosts, host)
    {
      if items[i].own {
        continue;
      }
      var hosts := items[i].hosts;
      for j := 0 to |hosts|
        invariant forall k :: 0 <= k < j ==> !Hostnames.ClaimsHost(hosts[k], host)
      {
        if Hostnames.ClaimsHost(hosts[j], host) {
          return false;
        }
      }
    }
    return true;
  }

  /** What route requests leave alone. */
  ghost predicate RouteKept(s: State, t: State) {
    && Pins(t) == Pins(s) && t.past.erased == s.past.erased && t.solo == s.solo && t.inst.status == s.inst.status
    && SameAdmission(s, t)
  }

  lemma RouteKeptTransitive(s: State, t: State, u: State)
    ensures RouteKept(s, s) && (RouteKept(s, t) && RouteKept(t, u) ==> RouteKept(s, u))
  {}

  lemma KeptRoute(s: State, t: State)
    requires Kept(s, t)
    ensures RouteKept(s, t) && SamePass(s, t) && (Unowned(s.ingress) ==> Unowned(t.ingress))
  {}

  lemma ListedRoute(s: State, t: State)
    requires KeptButClear(s, t)
    ensures RouteKept(s, t) && (Unowned(s.ingress) ==> Unowned(t.ingress))
  {
    hide Kept, RouteKept;
    KeptRoute(s, Unlisted(s, t));
    UnlistedRoute(s, t);
  }

  lemma UnlistedRoute(s: State, t: State)
    ensures RouteKept(s, Unlisted(s, t)) ==> RouteKept(s, t)
  {}

  lemma IngressNoted(s: State)
    ensures Learn(s, ReadIngress, Serve(s, ReadIngress).1) == s
  {}

  lemma SameRoutes(s: State, t: State)
    requires SameButNotes(s, t) || SameButClear(s, t)
    ensures ListedIngresses(t) == ListedIngresses(s) && t.ingress == s.ingress
  {}

  /** Nobody else holds the instance's Ingress name or claims the host. */
  predicate HostFree(s: State, host: string) {
    (s.ingress.Some? ==> s.ingress.value.owned) && Unclaimed(ListedIngresses(s), host)
  }

  /** `checkHostname`: success is the last list's answer for this host. */
  method CheckHostname(api: ApiServer, host: string) returns (e: Option<Err>)
    requires api.Inv()
    modifies api
    ensures api.Inv() && old(api.moves) <= api.moves && KeptButClear(old(api.st), api.st)
    ensures e.None? ==> api.st.pass.clear == Some(host) && Unclaimed(ListedIngresses(api.st), host)
    ensures e.Some? ==> e.value == Api || e.value == NotOwnedIngress || e.value == HostConflict
    ensures e == Some(NotOwnedIngress) ==> Unowned(api.st.ingress)
    ensures e == Some(HostConflict) ==> !Unclaimed(ListedIngresses(api.st), host)
    ensures Quiet(old(api.script)) ==> Quiet(api.script) && SameButClear(old(api.st), api.st)
    ensures Quiet(old(api.script)) && e.None? ==> HostFree(old(api.st), host)
    ensures old(api.script) == [] ==> api.script == [] && (e.None? <==> HostFree(old(api.st), host))
  {
    hide *;
    CalmIsQuiet(api.script);
    InvGood(api);
    ReadAllowed(api.st, ReadIngress);
    HostFreeMeans(api.st, host);
    var reply := Read(api, ReadIngress);
    ghost var read := api.st;
    IngressServed(api.seen);
    SameRoutes(api.seen, read);
    IngressServed(read);
    KeptIsButClear(old(api.st), read, read);
    if reply.Failed? {
      return Some(Api);
    }
    if reply.GotIngress? && !reply.ingress.owned {
      return Some(NotOwnedIngress);
    }
    var list := ListRoutes(api, host);
    SameRoutes(api.seen, api.st);
    KeptIsButClear(old(api.st), read, api.st);
    if list.Failed? {
      return Some(Api);
    }
    var clear := ScanClaims(list.items, host);
    e := if clear then None else Some(HostConflict);
  }

  lemma HostFreeMeans(s: State, host: string)
    ensures HostFree(s, host) <==> (s.ingress.Some? ==> s.ingress.value.owned) && Unclaimed(ListedIngresses(s), host)
  {}

  // ---- the Ingress ----

  /** What a successful pass leaves: the managed body for the host. */
  predicate Routed(s: State, t: State, cfg: Ingresses.Config, host: string, path: string, service: string) {
    && t.ingress.Some? && t.ingress.value.owned
    && t.ingress.value.body == (if s.ingress.None? then Ingresses.Built(cfg, host, path, service)
                                else Ingresses.Updated(s.ingress.value.body, cfg, host, path, service))
  }

  lemma RelyRoute(s: State, t: State)
    requires Rely(s, t)
    ensures RouteKept(s, t) && t.pass == s.pass
  {
    hide SameWorkload, SameSecrets;
  }

  /** Workload, probes and instance are untouched. */
  predicate OnlyRoute(s: State, t: State) { t.work == s.work && t.probes == s.probes && t.inst == s.inst }

  lemma OnlyRouteTransitive(s: State, t: State, u: State)
    ensures OnlyRoute(s, s) && (OnlyRoute(s, t) && OnlyRoute(t, u) ==> OnlyRoute(s, u))
    ensures SameButNotes(s, t) || SameButClear(s, t) ==> OnlyRoute(s, t)
  {
    hide SamePass;
  }

  /** A request that writes an Ingress or a Service changes nothing else. */
  lemma RouteWritten(s: State, t: State)
    requires t == s.(ingress := t.ingress, service := t.service, next := t.next)
    ensures RouteKept(s, t) && t.pass == s.pass && OnlyRoute(s, t)
  {}

  predicate IsRouteWrite(op: Op) { op.CreateIngress? || op.UpdateIngress? || op.CreateService? || op.UpdateService? }

  lemma RouteServes(s: State, op: Op)
    requires IsRouteWrite(op)
    ensures var t := Serve(s, op).0; t == s.(ingress := t.ingress, service := t.service, next := t.next)
    ensures Serve(s, op).1 == Done || Serve(s, op).1 == Failed || (Serve(s, op).1 == Absent && (op.UpdateIngress? || op.UpdateService?))
  {
    RouteFrame(s, op);
  }

  /** A write that reaches the server happens at once, and only a clean one is answered. */
  lemma RouteAnswered(s: State, op: Op, fault: Fault)
    requires IsRouteWrite(op)
    ensures var (t, r) := After(s, op, fault);
      && RouteKept(s, t) && t.pass == s.pass && OnlyRoute(s, t)
      && (if fault == Clean then (t, r) == Serve(s, op) else r == Failed)
      && (r == Done || r == Failed || (r == Absent && (op.UpdateIngress? || op.UpdateService?)))
  {
    hide RouteKept, OnlyRoute, Serve;
    RouteServes(s, op);
    RouteWritten(s, s);
    RouteWritten(s, Serve(s, op).0);
  }

  lemma CreateRouteServed(s: State, body: Ingresses.Body, fault: Fault)
    ensures var (t, r) := After(s, CreateIngress(body), fault);
      && RouteKept(s, t) && t.pass == s.pass && (r == Done || r == Failed) && OnlyRoute(s, t)
      && (r == Done ==> t.ingress.Some? && t.ingress.value.owned && t.ingress.value.body == body)
      && (fault == Clean && s.ingress.None? ==> r == Done)
  {
    hide RouteKept, OnlyRoute, After;
    RouteAnswered(s, CreateIngress(body), fault);
  }

  lemma UpdateRouteServed(s: State, i: Ingress, body: Ingresses.Body, fault: Fault)
    ensures var (t, r) := After(s, UpdateIngress(i, body), fault);
      && RouteKept(s, t) && t.pass == s.pass && (r == Done || r == Absent || r == Failed) && OnlyRoute(s, t)
      && (s.ingress == Some(i) && i.owned && r == Done ==>
            t.ingress.Some? && t.ingress.value.owned && t.ingress.value.body == body)
      && (fault == Clean && s.ingress == Some(i) ==> r == Done)
  {
    hide RouteKept, OnlyRoute, After;
    RouteAnswered(s, UpdateIngress(i, body), fault);
  }

  /** The managed body, built or repaired, serves the selected host and no other. */
  lemma BodiesRoute(p: Pass, body: Ingresses.Body, cfg: Ingresses.Config, host: string, path: string, service: string)
    requires p.host == Some(host)
    ensures RoutesHost(p, Ingresses.Built(cfg, host, path, service))
    ensures RoutesHost(p, Ingresses.Updated(body, cfg, host, path, service))
  {}

  lemma PublishAllowed(s: State, body: Ingresses.Body)
    requires MayRead(s) && RoutesHost(s.pass, body)
    ensures Allowed(s, CreateIngress(body))
  {}

  lemma RepairAllowed(s: State, i: Ingress, body: Ingresses.Body)
    requires MayRead(s) && RoutesHost(s.pass, body) && i.owned && IngressAsRead(s, i)
    ensures Allowed(s, UpdateIngress(i, body))
  {}

  /** The hostname check completes the checks that publishing needs. */
  lemma CheckedMayRead(s: State, host: string)
    requires Admitted(s.pass) && s.pass.host == Some(host)
    ensures s.pass.clear == Some(host) <==> MayRead(s)
  {}

  lemma RoutedMeans(s: State, t: State, cfg: Ingresses.Config, host: string, path: string, service: string)
    ensures Routed(s, t, cfg, host, path, service) <==>
      && t.ingress.Some? && t.ingress.value.owned
      && t.ingress.value.body == (if s.ingress.None? then Ingresses.Built(cfg, host, path, service)
                                  else Ingresses.Updated(s.ingress.value.body, cfg, host, path, service))
  {}

  /** Lines 610-632: edit the object that was read, and write it back when something changed. */
  method RepairIngress(api: ApiServer, i: Ingress, cfg: Ingresses.Config, host: string, path: string, service: string)
    returns (e: Option<Err>)
    requires api.Inv() && i.owned && IngressAsRead(api.st, i) && MayRead(api.st) && api.st.pass.host == Some(host)
    modifies api
    ensures api.Inv() && old(api.moves) <= api.moves && RouteKept(old(api.st), api.st) && api.st.pass == old(api.st).pass
    ensures Quiet(old(api.script)) ==> Quiet(api.script)
    ensures Quiet(old(api.script)) && e.None? && old(api.st).ingress == Some(i) ==>
      Routed(old(api.st), api.st, cfg, host, path, service)
    ensures Quiet(old(api.script)) ==> OnlyRoute(old(api.st), api.st)
    ensures old(api.script) == [] ==> api.script == []
    ensures old(api.script) == [] && old(api.st).ingress == Some(i) ==> e.None?
  {
    hide *;
    OnlyRouteTransitive(api.st, api.st, api.st);
    RouteKeptTransitive(api.st, api.st, api.st);
    var object_ := new Ingresses.Object(i.body);
    var updated := object_.UpdatePass(cfg, host, path, service);
    ghost var body := Ingresses.Updated(i.body, cfg, host, path, service);
    RoutedMeans(old(api.st), api.st, cfg, host, path, service);
    if !updated {
      return None;
    }
    BodiesRoute(api.st.pass, i.body, cfg, host, path, service);
    RepairAllowed(api.st, i, body);
    QuietCall(api.script);
    ghost var fault := Head(api.script).fault;
    var written := api.Call(UpdateIngress(i, object_.Contents()));
    RelyRoute(old(api.st), api.seen);
    UpdateRouteServed(api.seen, i, body, fault);
    RouteKeptTransitive(old(api.st), api.seen, api.st);
    RoutedMeans(old(api.st), api.st, cfg, host, path, service);
    e := if written.Done? then None else Some(Api);
  }

  lemma SameChecked(s: State, t: State)
    requires t.pass == s.pass
    ensures MayRead(t) <==> MayRead(s)
  {}

  lemma RoutedFrom(s: State, t: State, u: State, cfg: Ingresses.Config, host: string, path: string, service: string)
    requires t.ingress == s.ingress
    ensures Routed(t, u, cfg, host, path, service) <==> Routed(s, u, cfg, host, path, service)
  {}

  /** `reconcileIngress`: a fresh check, then create, repair or leave the Ingress. */
  method ReconcileIngress(api: ApiServer, cfg: Ingresses.Config, host: string, path: string, service: string)
    returns (e: Option<Err>)
    requires api.Inv() && Admitted(api.st.pass) && api.st.pass.host == Some(host)
    modifies api
    ensures api.Inv() && old(api.moves) <= api.moves && RouteKept(old(api.st), api.st)
    ensures e.None? ==> MayRead(api.st)
    ensures Quiet(old(api.script)) ==> Quiet(api.script)
    ensures Quiet(old(api.script)) && e.None? ==>
      HostFree(old(api.st), host) && Routed(old(api.st), api.st, cfg, host, path, service)
    ensures Quiet(old(api.script)) ==> OnlyRoute(old(api.st), api.st)
    ensures old(api.script) == [] ==> api.script == [] && (e.None? <==> HostFree(old(api.st), host))
  {
    hide *;
    CalmIsQuiet(api.script);
    e := CheckHostname(api, host);
    ghost var checked := api.st;
    ListedRoute(old(api.st), checked);
    PassStays(old(api.st), checked);
    ChecksStay(old(api.st), checked);
    CheckedMayRead(checked, host);
    OnlyRouteTransitive(old(api.st), checked, checked);
    HostFreeMeans(old(api.st), host);
    if Quiet(old(api.script)) {
      SameRoutes(old(api.st), checked);
    }
    if e.Some? {
      return e;
    }
    ReadAllowed(api.st, ReadIngress);
    var reply := Read(api, ReadIngress);
    ghost var read := api.st;
    IngressServed(api.seen);
    IngressNoted(api.seen);
    KeptRoute(checked, read);
    ChecksStay(checked, read);
    PassStays(checked, read);
    RouteKeptTransitive(old(api.st), checked, read);
    OnlyRouteTransitive(checked, read, read);
    OnlyRouteTransitive(old(api.st), checked, read);
    if reply.Failed? {
      return Some(Api);
    }
    if reply.Absent? {
      var body := Ingresses.Built(cfg, host, path, service);
      BodiesRoute(read.pass, body, cfg, host, path, service);
      PublishAllowed(read, body);
      QuietCall(api.script);
      ghost var fault := Head(api.script).fault;
      var created := api.Call(CreateIngress(body));
      RelyRoute(read, api.seen);
      CreateRouteServed(api.seen, body, fault);
      RouteKeptTransitive(old(api.st), read, api.seen);
      RouteKeptTransitive(old(api.st), api.seen, api.st);
      OnlyRouteTransitive(old(api.st), read, api.st);
      RoutedMeans(old(api.st), api.st, cfg, host, path, service);
      SameChecked(read, api.st);
      return if created.Done? then None else Some(Api);
    }
    if !reply.ingress.owned {
      return Some(NotOwnedIngress);
    }
    IngressRead(api.seen, read);
    e := RepairIngress(api, reply.ingress, cfg, host, path, service);
    RouteKeptTransitive(old(api.st), read, api.st);
    OnlyRouteTransitive(old(api.st), read, api.st);
    SameChecked(read, api.st);
    if Quiet(old(api.script)) {
      RoutedFrom(old(api.st), read, api.st, cfg, host, path, service);
    }
  }

  // ---- the Service ----

  predicate Served(s: State) { s.service.Some? && s.service.value.owned && s.service.value.matches }

  lemma ServiceServed(s: State)
    ensures Reads(ReadService) && Allowed(s, ReadService) && (MayRead(s) ==> Allowed(s, CreateService))
    ensures Serve(s, ReadService).1 == if s.service.Some? then GotService(s.service.value) else Absent
  {}

  lemma CreateServiceServed(s: State, fault: Fault)
    ensures var (t, r) := After(s, CreateService, fault); RouteKept(s, t) && (r == Done ==> Served(t))
  {
    hide RouteKept, OnlyRoute, After;
    RouteAnswered(s, CreateService, fault);
  }

  lemma UpdateServiceServed(s: State, x: Service, fault: Fault)
    ensures var (t, r) := After(s, UpdateService(x), fault);
      RouteKept(s, t) && (r == Done && s.service == Some(x) && x.owned ==> Served(t))
  {
    hide RouteKept, OnlyRoute, After;
    RouteAnswered(s, UpdateService(x), fault);
  }

  lemma ServedMeans(s: State)
    ensures Served(s) <==> s.service.Some? && s.service.value.owned && s.service.value.matches
  {}

  lemma SameService(s: State, t: State)
    requires SameButNotes(s, t)
    ensures t.service == s.service
  {}

  lemma ServiceAllowed(s: State, x: Service)
    requires MayRead(s)
    ensures Allowed(s, UpdateService(x))
  {}

  /** `reconcileService`. */
  method ReconcileService(api: ApiServer) returns (e: Option<Err>)
    requires api.Inv() && MayRead(api.st)
    modifies api
    ensures api.Inv() && old(api.moves) <= api.moves && RouteKept(old(api.st), api.st)
    ensures Quiet(old(api.script)) ==> Quiet(api.script) && (e.None? ==> Served(api.st))
    ensures old(api.script) == [] ==> api.script == []
    ensures old(api.script) == [] && Served(old(api.st)) ==> e.None? && SameButNotes(old(api.st), api.st)
  {
    hide *;
    CalmIsQuiet(api.script);
    ServiceServed(api.st);
    var reply := Read(api, ReadService);
    ghost var read := api.st;
    KeptRoute(old(api.st), read);
    ChecksStay(old(api.st), read);
    ServiceServed(api.seen);
    SameService(api.seen, read);
    ServedMeans(api.seen);
    ServedMeans(read);
    ServiceServed(read);
    if reply.Failed? {
      return Some(Api);
    }
    QuietCall(api.script);
    ghost var fault := Head(api.script).fault;
    if reply.Absent? {
      var created := api.Call(CreateService);
      RelyRoute(read, api.seen);
      CreateServiceServed(api.seen, fault);
      RouteKeptTransitive(old(api.st), read, api.seen);
      RouteKeptTransitive(old(api.st), api.seen, api.st);
      return if created.Done? then None else Some(Api);
    }
    var x := reply.service;
    if !x.owned {
      return Some(NotOwnedService);
    }
    if x.matches {
      return None;
    }
    ServiceAllowed(read, x);
    var updated := api.Call(UpdateService(x));
    RelyRoute(read, api.seen);
    UpdateServiceServed(api.seen, x, fault);
    RouteKeptTransitive(old(api.st), read, api.seen);
    RouteKeptTransitive(old(api.st), api.seen, api.st);
    e := if updated.Done? then None else Some(Api);
  }

  // ---- readiness ----

  lemma ReadinessServed(s: State)
    ensures Reads(ReadDeployment) && Allowed(s, ReadDeployment)
    ensures Learn(s, ReadDeployment, Serve(s, ReadDeployment).1).pass
         == s.pass.(rolled := s.work.deploy.Some? && RolledOut(s.work.deploy.value), approved := s.pass.approved || Approved(s.work))
  {}

  /** Every check of the readiness evaluation would pass. */
  predicate AllHealthy(s: State) {
    && s.work.deploy.Some? && RolledOut(s.work.deploy.value)
    && s.probes.endpoints && s.probes.healthy && s.probes.resolves
  }

  lemma HealthMeans(s: State)
    ensures AllHealthy(s) <==>
      s.work.deploy.Some? && RolledOut(s.work.deploy.value) && s.probes == Probes(true, true, true)
  {}

  lemma ReadyMeans(s: State)
    ensures Ready(s) <==> MayRead(s) && s.pass.rolled && s.pass.endpoints && s.pass.healthy && s.pass.resolved
  {}

  /** Why a Deployment has not rolled out; nothing when it has. */
  method Progress(d: Deployment) returns (reason: Option<string>)
    ensures reason.None? <==> RolledOut(d)
  {
    var want := if d.replicas > 0 then d.replicas else 1;
    if d.observed < d.generation || d.updated < want {
      return Some("DeploymentProgressing");
    }
    if d.ready < want {
      return Some("DeploymentNotReady");
    }
    if d.available < want {
      return Some("DeploymentNotAvailable");
    }
    return None;
  }

  predicate IsProbe(op: Op) { op.ReadEndpoints? || op.ProbeService? || op.ResolveHost? }

  function ProbeOf(p: Probes, op: Op): bool
    requires IsProbe(op)
  {
    if op.ReadEndpoints? then p.endpoints else if op.ProbeService? then p.healthy else p.resolves
  }

  function Marked(p: Pass, op: Op, yes: bool): Pass
    requires IsProbe(op)
  {
    if op.ReadEndpoints? then p.(endpoints := yes) else if op.ProbeService? then p.(healthy := yes) else p.(resolved := yes)
  }

  lemma ProbeServed(s: State, op: Op)
    requires IsProbe(op)
    ensures Reads(op) && Allowed(s, op) && Serve(s, op).1 == Answer(ProbeOf(s.probes, op))
    ensures Learn(s, op, Serve(s, op).1).pass == Marked(s.pass, op, ProbeOf(s.probes, op))
  {}

  method Ask(api: ApiServer, op: Op) returns (r: Reply)
    requires api.Inv() && IsProbe(op)
    modifies api
    ensures api.Inv() && old(api.moves) <= api.moves && RouteKept(old(api.st), api.st) && SamePass(old(api.st), api.st)
    ensures r.Failed? || r.Answer?
    ensures r == Answer(true) ==> api.st.pass == Marked(old(api.st).pass, op, true)
    ensures Quiet(old(api.script)) ==> Quiet(api.script) && SameButNotes(old(api.st), api.st)
    ensures Quiet(old(api.script)) && r.Answer? ==> r.yes == ProbeOf(old(api.st).probes, op)
    ensures old(api.script) == [] ==> api.script == [] && r.Answer?
  {
    hide *;
    CalmIsQuiet(api.script);
    ProbeServed(api.st, op);
    r := Read(api, op);
    ProbeServed(api.seen, op);
    SameProbes(api.seen, api.st);
    KeptRoute(old(api.st), api.st);
  }

  lemma ProbesMean(p: Probes)
    ensures ProbeOf(p, ReadEndpoints) == p.endpoints && ProbeOf(p, ProbeService) == p.healthy && ProbeOf(p, ResolveHost) == p.resolves
  {}

  lemma MarkedMeans(p: Pass)
    ensures Marked(Marked(Marked(p, ReadEndpoints, true), ProbeService, true), ResolveHost, true)
         == p.(endpoints := true, healthy := true, resolved := true)
  {}

  lemma ProbesAreProbes()
    ensures IsProbe(ReadEndpoints) && IsProbe(ProbeService) && IsProbe(ResolveHost)
  {}

  /** Lines 825-840: endpoints, the service probe, then DNS. */
  method EvaluateProbes(api: ApiServer) returns (r: Result<Option<string>, Err>)
    requires api.Inv()
    modifies api
    ensures api.Inv() && old(api.moves) <= api.moves && RouteKept(old(api.st), api.st) && SamePass(old(api.st), api.st)
    ensures r == Ok(None) ==> api.st.pass == old(api.st).pass.(endpoints := true, healthy := true, resolved := true)
    ensures Quiet(old(api.script)) ==>
      Quiet(api.script) && SameButNotes(old(api.st), api.st) && (r == Ok(None) ==> old(api.st).probes == Probes(true, true, true))
    ensures old(api.script) == [] ==>
      api.script == [] && r.Ok? && (r == Ok(None) <==> old(api.st).probes == Probes(true, true, true))
  {
    hide *;
    CalmIsQuiet(api.script);
    ProbesAreProbes();
    ProbesMean(api.st.probes);
    MarkedMeans(api.st.pass);
    NotesReflexive(api.st);
    var endpoints := Ask(api, ReadEndpoints);
    ghost var s1 := api.st;
    if Quiet(old(api.script)) {
      SameProbes(old(api.st), s1);
    }
    if endpoints.Failed? {
      return Err(Api);
    }
    if !endpoints.yes {
      return Ok(Some("ServiceEndpointsMissing"));
    }
    var probe := Ask(api, ProbeService);
    ghost var s2 := api.st;
    RouteKeptTransitive(old(api.st), s1, s2);
    PassGoesOn(old(api.st), s1, s2);
    if Quiet(old(api.script)) {
      SameProbes(s1, s2);
      NotesCompose(old(api.st), s1, s2);
    }
    if probe != Answer(true) {
      return Ok(Some("HealthCheckFailed"));
    }
    var dns := Ask(api, ResolveHost);
    RouteKeptTransitive(old(api.st), s2, api.st);
    PassGoesOn(old(api.st), s2, api.st);
    if Quiet(old(api.script)) {
      NotesCompose(old(api.st), s2, api.st);
    }
    if dns != Answer(true) {
      return Ok(Some("DNSNotReady"));
    }
    r := Ok(None);
  }

  lemma SameProbes(s: State, t: State)
    requires SameButNotes(s, t)
    ensures t.work == s.work && t.probes == s.probes
  {}

  /** `evaluateInstanceReadiness`: `Ok(None)` means ready, else the reason why not. */
  method EvaluateReadiness(api: ApiServer) returns (r: Result<Option<string>, Err>)
    requires api.Inv()
    modifies api
    ensures api.Inv() && old(api.moves) <= api.moves && RouteKept(old(api.st), api.st)
    ensures MayRead(old(api.st)) ==> MayRead(api.st) && (r == Ok(None) ==> Ready(api.st))
    ensures Quiet(old(api.script)) ==>
      Quiet(api.script) && SameButNotes(old(api.st), api.st) && (r == Ok(None) ==> AllHealthy(old(api.st)))
    ensures old(api.script) == [] ==> api.script == [] && r.Ok? && (r == Ok(None) <==> AllHealthy(old(api.st)))
  {
    hide *;
    CalmIsQuiet(api.script);
    ReadinessServed(api.st);
    HealthMeans(api.st);
    InvGood(api);
    var deploy := Read(api, ReadDeployment);
    ghost var read := api.st;
    InvGood(api);
    DeploymentServed(api.seen);
    ReadinessServed(api.seen);
    SameProbes(api.seen, read);
    KeptRoute(old(api.st), read);
    ChecksStay(old(api.st), read);
    if deploy.Failed? {
      return Err(Api);
    }
    if deploy.Absent? {
      return Ok(Some("DeploymentNotFound"));
    }
    var reason := Progress(deploy.deploy);
    if reason.Some? {
      return Ok(reason);
    }
    r := EvaluateProbes(api);
    RouteKeptTransitive(old(api.st), read, api.st);
    if Quiet(old(api.script)) {
      NotesCompose(old(api.st), read, api.st);
    }
    ChecksStay(read, api.st);
    ReadyMeans(api.st);
  }

  lemma PassStays(s: State, t: State)
    requires RouteKept(s, t)
    ensures SameAdmission(s, t) && Pins(t) == Pins(s) && t.inst.status == s.inst.status && t.solo == s.solo
  {}
}
