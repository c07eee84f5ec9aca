/** Runs of the protocol: every request the controller is permitted to send keeps the
    invariant, so every state of every legal run satisfies it. */
module Runs {
  import opened Basics
  import opened Templates
  import opened Cluster
  import opened Safety

  lemma Later(s: State)
    requires Fresh(s)
    ensures SecretsFresh(s.secrets, s.next + 1) && MineFresh(s.past.mine, s.next + 1)
  {}

  // ---- creating a Secret ----

  lemma CreatedSecrets(m: map<Name, Secret>, h: History, n: Name, x: Secret, stamp: nat)
    requires SecretsFresh(m, stamp) && Genuine(m, h.mine) && MineFresh(h.mine, stamp) && 0 < stamp && ErasedBundles(h)
    requires x.uid == x.rv == stamp && x.immutable && !x.held && 0 < x.created
    ensures SecretsFresh(m[n := x], stamp + 1) && Genuine(m[n := x], h.mine[stamp := Made(n, x.data)])
    ensures MineFresh(h.mine[stamp := Made(n, x.data)], stamp + 1)
    ensures NoneHeld(m) ==> NoneHeld(m[n := x])
    ensures ErasedGone(m, h.erased) ==> ErasedGone(m[n := x], h.erased)
    ensures ErasedMarked(m, h.erased) ==> ErasedMarked(m[n := x], h.erased)
  {}

  lemma CreatedHistory(pins: Pinned, h: History, n: Name, data: Data, stamp: nat)
    requires PinsOurs(pins, h) && Counted(pins, h) && MineFresh(h.mine, stamp) && ErasedBundles(h)
    ensures var k := h.(mine := h.mine[stamp := Made(n, data)], pending := Some((n, stamp)), gone := h.gone - {n});
      PinsOurs(pins, k) && Counted(pins, k) && ErasedBundles(k)
  {
    var k := h.(mine := h.mine[stamp := Made(n, data)], pending := Some((n, stamp)), gone := h.gone - {n});
    forall m | m in pins ensures OursAt(k, m, pins[m]) {
      assert OursAt(h, m, pins[m]);
    }
  }

  lemma CreateSafe(s: State, n: Name, data: Data)
    requires Good(s) && n !in s.secrets
    ensures Good(ServeCreateSecret(s, n, data).0)
  {
    hide SecretsFresh, Genuine, PinsOurs, Counted, OneTemplate, MountsPinned, NoneHeld, ErasedGone, MineFresh;
    CreatedSecrets(s.secrets, s.past, n, Secret(s.next, s.next, true, true, false, false, s.clock + 1, data), s.next);
    CreatedHistory(Pins(s), s.past, n, data, s.next);
  }

  // ---- erasing a Secret ----

  /** Only the pin of the name it was created under can hold a UID of ours. */
  lemma PinsInjective(pins: Pinned, h: History, m: Name, n: Name)
    requires PinsOurs(pins, h) && m in pins && n in pins && pins[m] == pins[n]
    ensures m == n
  {
    assert OursAt(h, m, pins[m]) && OursAt(h, n, pins[n]);
  }

  lemma ErasedHistory(pins: Pinned, h: History, n: Name)
    requires PinsOurs(pins, h) && Counted(pins, h) && n in pins && n.Access? && ErasedBundles(h)
    ensures var k := h.(erased := h.erased + {pins[n]});
      && Counted(pins, k) && ErasedBundles(k)
      && PinsOurs(pins, k)
      && (ErasedPins(pins, h.erased) <= {pins[n]} ==> |ErasedPins(pins, k.erased)| <= 1)
      && (forall names :: NoneErased(names, pins, h.erased) && n !in names ==> NoneErased(names, pins, k.erased))
  {
    var k := h.(erased := h.erased + {pins[n]});
    assert OursAt(h, n, pins[n]);
    assert k.erased - pins.Values == h.erased - pins.Values;
    forall m | m in pins ensures OursAt(k, m, pins[m]) {
      assert OursAt(h, m, pins[m]);
    }
    if ErasedPins(pins, h.erased) <= {pins[n]} {
      assert ErasedPins(pins, k.erased) == {pins[n]};
    }
    forall names | NoneErased(names, pins, h.erased) && n !in names ensures NoneErased(names, pins, k.erased) {
      forall m | m in names && m in pins ensures pins[m] !in k.erased {
        if pins[m] == pins[n] {
          PinsInjective(pins, h, m, n);
        }
      }
    }
  }

  lemma ErasedSecrets(m: map<Name, Secret>, h: History, n: Name, stamp: nat)
    requires SecretsFresh(m, stamp) && Genuine(m, h.mine) && n in m && m[n].uid in h.mine && ErasedBundles(h)
    ensures SecretsFresh(m - {n}, stamp) && Genuine(m - {n}, h.mine)
    ensures var held := m[n := m[n].(rv := stamp, deleting := true)]; SecretsFresh(held, stamp + 1) && Genuine(held, h.mine)
    ensures NoneHeld(m) ==> NoneHeld(m - {n})
    ensures ErasedGone(m, h.erased) ==> ErasedGone(m - {n}, h.erased + {m[n].uid})
    ensures ErasedMarked(m, h.erased) ==>
      && ErasedMarked(m - {n}, h.erased + {m[n].uid})
      && ErasedMarked(m[n := m[n].(rv := stamp, deleting := true)], h.erased + {m[n].uid})
  {}

  /** What a permitted deletion that finds its object knows of it. */
  lemma MayEraseMeans(s: State, n: Name, read: Secret, room: Name)
    requires Good(s) && MayErase(s, n, read, room)
    ensures n in Pins(s) && n.Access? && n !in OwnRefs(s.work) && Pins(s)[n] == read.uid
    ensures s.solo ==> ErasedPins(Pins(s), s.past.erased) <= {read.uid}
    ensures n in s.secrets && s.secrets[n].uid == read.uid ==>
      s.secrets[n].uid in s.past.mine && (s.solo ==> !s.secrets[n].held)
  {
    hide SecretsFresh, Genuine, Counted, OneTemplate, ErasedGone, ErasedMarked, NoneErased, ErasedPins, OwnRefs, MayRead, ListedIdle,
      SecretAsRead, Snapped;
    PinUidOurs(Pins(s), s.past, n);
  }

  lemma EraseSafe(s: State, n: Name, read: Secret, room: Name)
    requires Good(s) && MayErase(s, n, read, room)
    ensures Good(ServeDeleteSecret(s, n, read).0)
  {
    hide SecretsFresh, Genuine, PinsOurs, Counted, OneTemplate, ErasedGone, ErasedMarked, NoneErased, ErasedPins, OwnMounts, MayErase,
      OwnRefs, PinsBounded, Snapped, NoBundles, NoneHeld;
    MayEraseMeans(s, n, read, room);
    if n in s.secrets && s.secrets[n].uid == read.uid && s.secrets[n].rv == read.rv {
      MountsAreRefs(s.work);
      ErasedSecrets(s.secrets, s.past, n, s.next);
      ErasedHistory(Pins(s), s.past, n);
      StillSnapped(s, ServeDeleteSecret(s, n, read).0);
    }
  }

  lemma StillSnapped(s: State, t: State)
    requires t.inst == s.inst && t.pass == s.pass && t.keepsSlug == s.keepsSlug
    ensures Snapped(t) <==> Snapped(s)
  {}

  lemma PinUidOurs(pins: Pinned, h: History, n: Name)
    requires PinsOurs(pins, h) && n in pins
    ensures pins[n] in h.mine && h.mine[pins[n]].name == n
  {
    assert OursAt(h, n, pins[n]);
  }

  // ---- writing pins ----

  lemma SizeOfUpdate(pins: Pinned, n: Name, u: nat)
    requires n !in pins
    ensures |pins[n := u]| == |pins| + 1
  {
    assert pins[n := u].Keys == pins.Keys + {n};
    assert |pins[n := u]| == |pins[n := u].Keys| && |pins| == |pins.Keys|;
  }

  lemma ValuesOfUpdate(pins: Pinned, n: Name, u: nat)
    requires n !in pins
    ensures pins[n := u].Values == pins.Values + {u}
  {
    var more := pins[n := u];
    assert more[n] == u;
    forall v | v in pins.Values ensures v in more.Values {
      var m :| m in pins && pins[m] == v;
      assert more[m] == v;
    }
  }

  lemma PinnedHistory(s: State, pins: Pinned)
    requires Good(s) && PinStep(s, pins)
    ensures var k := s.past.(pending := None);
      && PinsOurs(pins, k) && PinsBounded(pins) && Counted(pins, k) && Holds(pins, k.erased, OwnMounts(s.work)) && Pins(s).Keys <= pins.Keys
      && ErasedPins(pins, k.erased) == ErasedPins(Pins(s), s.past.erased)
      && (NoneErased(OwnRefs(s.work), Pins(s), s.past.erased) ==> NoneErased(OwnRefs(s.work), pins, k.erased))
  {
    var n, u := s.past.pending.value.0, s.past.pending.value.1;
    SizeOfUpdate(Pins(s), n, u);
    ValuesOfUpdate(Pins(s), n, u);
    forall m | m in pins ensures OursAt(s.past, m, pins[m]) {
      assert m in Pins(s) ==> OursAt(s.past, m, Pins(s)[m]);
    }
    assert s.past.erased - pins.Values == s.past.erased - Pins(s).Values;
  }

  /** Dropping one pin leaves the others, and at most one erased UID loses its pin. */
  lemma UnpinnedHistory(s: State, n: Name)
    requires Good(s) && n in Pins(s) && DropsPin(s, n)
    ensures var pins, k := Pins(s) - {n}, s.past.(retired := s.past.retired + 1, pending := None);
      && PinsOurs(pins, k) && PinsBounded(pins) && Counted(pins, k) && Holds(pins, k.erased, OwnMounts(s.work)) && !(Pins(s).Keys <= pins.Keys)
      && ErasedPins(pins, k.erased) <= ErasedPins(Pins(s), s.past.erased)
      && (NoneErased(OwnRefs(s.work), Pins(s), s.past.erased) ==> NoneErased(OwnRefs(s.work), pins, k.erased))
  {
    var pins, h := Pins(s) - {n}, s.past;
    assert pins.Keys == Pins(s).Keys - {n};
    assert Name.Session in pins;
    forall m | m in pins ensures OursAt(h, m, pins[m]) {
      assert OursAt(h, m, Pins(s)[m]);
    }
    var x, y := h.erased - pins.Values, h.erased - Pins(s).Values;
    forall u | u in x ensures u in y + {Pins(s)[n]} {
      if u in Pins(s).Values {
        var m :| m in Pins(s) && Pins(s)[m] == u;
        assert m in pins ==> u in pins.Values;
      }
    }
    assert x <= y + {Pins(s)[n]};
    MountsAreRefs(s.work);
    SubsetSize(x, y + {Pins(s)[n]});
    assert |y + {Pins(s)[n]}| <= |y| + 1;
    SubsetSize(pins.Keys, Pins(s).Keys);
  }

  lemma {:induction false} SubsetSize<T>(a: set<T>, b: set<T>)
    requires a <= b
    ensures |a| <= |b|
  {
    if a != {} {
      var x :| x in a;
      SubsetSize(a - {x}, b - {x});
    }
  }

  /** Under a schema that prunes them, no pin is ever stored. */
  lemma PrunedSafe(s: State, rv: nat, pins: Pinned)
    requires Good(s) && !s.keepsPins
    ensures Good(ServePatchPins(s, rv, pins).0)
  {
    hide Good, PinsOurs, PinsBounded, Counted, ErasedPins, NoneErased, Alone, PinStep;
    if s.inst.rv == rv {
      var k := ServePatchPins(s, rv, pins).0.past;
      MoreRetired(s, k);
      if s.solo {
        SoloHistory(s);
      }
      RepinSafe(s, Pins(s), k);
    }
  }

  lemma MoreRetired(s: State, k: History)
    requires Good(s) && s.past.retired <= k.retired && k == s.past.(retired := k.retired)
    ensures PinsOurs(Pins(s), k) && PinsBounded(Pins(s)) && Counted(Pins(s), k) && Holds(Pins(s), s.past.erased, OwnMounts(s.work))
  {}

  lemma PatchSafe(s: State, rv: nat, pins: Pinned)
    requires Good(s) && (PinStep(s, pins) || UnpinStep(s, pins))
    ensures Good(ServePatchPins(s, rv, pins).0)
  {
    if !s.keepsPins {
      PrunedSafe(s, rv, pins);
    } else if PinStep(s, pins) {
      PinSafe(s, rv, pins);
    } else {
      var n :| n in Pins(s) && DropsPin(s, n) && pins == Pins(s) - {n};
      UnpinSafe(s, rv, n, pins);
    }
  }

  lemma RepinSafe(s: State, pins: Pinned, k: History)
    requires Good(s) && k.mine == s.past.mine && k.erased == s.past.erased
    requires PinsOurs(pins, k) && PinsBounded(pins) && Counted(pins, k) && Holds(pins, k.erased, OwnMounts(s.work))
    requires s.solo ==> |ErasedPins(pins, k.erased)| <= 1 && NoneErased(OwnRefs(s.work), pins, k.erased)
    ensures Good(WithStatus(s, s.inst.status.(pins := pins)).(past := k))
  {
    hide PinsOurs, PinsBounded, Counted, NoneErased, Genuine, OneTemplate, SecretsFresh, MineFresh;
    Later(s);
  }

  lemma PinSafe(s: State, rv: nat, pins: Pinned)
    requires Good(s) && PinStep(s, pins) && s.keepsPins
    ensures Good(ServePatchPins(s, rv, pins).0)
  {
    hide Good, PinsOurs, PinsBounded, Counted, ErasedPins, NoneErased, PinStep, Alone;
    if s.inst.rv == rv {
      PinnedHistory(s, pins);
      if s.solo {
        SoloHistory(s);
      }
      RepinSafe(s, pins, s.past.(pending := None));
    }
  }

  lemma UnpinSafe(s: State, rv: nat, n: Name, pins: Pinned)
    requires Good(s) && n in Pins(s) && DropsPin(s, n) && s.keepsPins && pins == Pins(s) - {n}
    ensures Good(ServePatchPins(s, rv, pins).0)
  {
    hide Good, PinsOurs, PinsBounded, Counted, NoneErased, Alone, DropsPin;
    if s.inst.rv == rv {
      UnpinnedHistory(s, n);
      if s.solo {
        SoloHistory(s);
        SubsetSize(ErasedPins(pins, s.past.erased), ErasedPins(Pins(s), s.past.erased));
      }
      var k := s.past.(retired := s.past.retired + 1, pending := None);
      RepinSafe(s, pins, k);
      assert ServePatchPins(s, rv, pins).0 == WithStatus(s, s.inst.status.(pins := pins)).(past := k);
    }
  }

  lemma SoloHistory(s: State)
    requires Good(s) && s.solo
    ensures |ErasedPins(Pins(s), s.past.erased)| <= 1 && NoneErased(OwnRefs(s.work), Pins(s), s.past.erased)
  {}

  // ---- the Deployment ----

  lemma UpdatedWorkload(w: Workload, was: Deployment, d: Deployment, stamp: nat)
    requires OneTemplate(w) && w.deploy == Some(was)
    requires d.observed == was.observed
    requires d.generation == if d.replicas == was.replicas && d.template == was.template && d.recreate == was.recreate
                             then was.generation else was.generation + 1
    requires d.template != was.template ==> Stopped(w) && BundlesManaged(d.template)
    ensures OneTemplate(w.(deploy := Some(d)))
  {}

  lemma DeploySafe(s: State, w: Workload)
    requires Good(s) && OneTemplate(w) && w.deploy.Some? && w.deploy.value.rv == s.next
    requires Holds(Pins(s), s.past.erased, OwnMounts(w)) && (s.solo ==> NoneErased(OwnRefs(w), Pins(s), s.past.erased))
    ensures Good(Stamp(s).(work := w))
  {
    hide PinsOurs, PinsBounded, Counted, ErasedPins, NoneErased, Genuine, SecretsFresh, MineFresh, OneTemplate;
    Later(s);
  }

  lemma UpdateSafe(s: State, was: Deployment, replicas: nat, template: PodTemplate, recreate: bool)
    requires Good(s) && MayUpdate(s, was, template)
    ensures Good(ServeUpdateDeployment(s, was, replicas, template, recreate).0)
  {
    hide Good, PinsOurs, PinsBounded, Counted, ErasedPins, NoneErased, Genuine, SecretsFresh, OneTemplate, Alone;
    var t := ServeUpdateDeployment(s, was, replicas, template, recreate).0;
    if t != s {
      var d := t.work.deploy.value;
      assert s.work.deploy == Some(was);
      GoodWorkload(s);
      UpdatedWorkload(s.work, was, d, s.next);
      DeploySafe(s, s.work.(deploy := Some(d)));
    }
  }

  lemma GoodWorkload(s: State)
    requires Good(s)
    ensures OneTemplate(s.work) && Holds(Pins(s), s.past.erased, OwnMounts(s.work))
    ensures s.solo ==> NoneErased(OwnRefs(s.work), Pins(s), s.past.erased)
  {}

  lemma CreateDeploymentSafe(s: State, template: PodTemplate, replicas: nat)
    requires Good(s) && Allowed(s, CreateDeployment(template, replicas)) && s.work.deploy.None?
    ensures Good(Serve(s, CreateDeployment(template, replicas)).0)
  {
    hide Good, PinsOurs, PinsBounded, Counted, ErasedPins, NoneErased, Genuine, SecretsFresh, Alone;
    GoodWorkload(s);
    var t := Serve(s, CreateDeployment(template, replicas)).0;
    DeploySafe(s, t.work);
  }

  // ---- any request ----

  lemma InstanceSafe(s: State, inst: Instance)
    requires Good(s) && inst.rv == s.next && inst.status.pins == Pins(s) && inst.spec == s.inst.spec
    requires inst.generation == s.inst.generation && Stored(s, inst.status) == inst.status
    ensures Good(Stamp(s).(inst := inst))
  {
    hide PinsOurs, PinsBounded, Counted, ErasedPins, NoneErased, Genuine, SecretsFresh, MineFresh, OneTemplate, MountsPinned;
    Later(s);
  }

  lemma RouteSafe(s: State, ingress: Option<Ingress>, service: Option<Service>, next: nat)
    requires Good(s) && IngressFresh(ingress, next) && (next == s.next || next == s.next + 1)
    ensures Good(s.(ingress := ingress, service := service, next := next))
  {
    hide PinsOurs, PinsBounded, Counted, ErasedPins, NoneErased, Genuine, SecretsFresh, MineFresh, OneTemplate, MountsPinned;
    Later(s);
  }

  lemma GoodIngress(s: State)
    requires Good(s)
    ensures IngressFresh(s.ingress, s.next)
  {}

  lemma RouteRequestSafe(s: State, op: Op)
    requires Good(s)
    requires op.CreateIngress? || op.DeleteIngress? || op.UpdateIngress? || op.CreateService? || op.UpdateService?
    ensures Good(Serve(s, op).0)
  {
    hide Good;
    GoodIngress(s);
    var t := Serve(s, op).0;
    if t != s {
      RouteSafe(s, t.ingress, t.service, t.next);
    }
  }

  lemma GoodSnapped(s: State)
    requires Good(s)
    ensures Lineage(s.pass.inst, s.inst) && Stored(s, s.inst.status) == s.inst.status
  {
    hide Fresh, Genuine, PinsOurs, PinsBounded, OneTemplate, MountsPinned, ErasedMarked, ErasedBundles, Counted, Alone;
  }

  lemma StatusRequestSafe(s: State, op: Op)
    requires Good(s) && Allowed(s, op)
    requires op.PatchStatus? || op.PutStatus? || op.PutFinalizer?
    ensures Good(Serve(s, op).0)
  {
    hide Good, Dated, ShowsHost, Ready, MayRead;
    var t := Serve(s, op).0;
    GoodSnapped(s);
    if t != s {
      InstanceSafe(s, t.inst);
    }
  }

  lemma ServeSafe(s: State, op: Op)
    requires Good(s) && Allowed(s, op)
    ensures Good(Serve(s, op).0)
  {
    hide Good, Merge, MayUpdate, MayErase, MaySave, PinStep, UnpinStep, RoutesHost, ListedIngresses, DeploymentSpecs, ListedPods,
      ServeDeleteSecret, ServePatchPins, ServeUpdateDeployment;
    match op
    case CreateSecret(n, data) =>
      if n !in s.secrets {
        CreateSafe(s, n, data);
      }
    case DeleteSecret(n, read, room) => EraseSafe(s, n, read, room);
    case PatchPins(rv, pins) => PatchSafe(s, rv, pins);
    case PatchStatus(_, _) => StatusRequestSafe(s, op);
    case PutStatus(_, _) => StatusRequestSafe(s, op);
    case PutFinalizer(_, _) => StatusRequestSafe(s, op);
    case CreateDeployment(template, replicas) =>
      if s.work.deploy.None? {
        CreateDeploymentSafe(s, template, replicas);
      }
    case UpdateDeployment(was, replicas, template, recreate) => UpdateSafe(s, was, replicas, template, recreate);
    case CreateIngress(_) => RouteRequestSafe(s, op);
    case DeleteIngress(_) => RouteRequestSafe(s, op);
    case UpdateIngress(_, _) => RouteRequestSafe(s, op);
    case CreateService => RouteRequestSafe(s, op);
    case UpdateService(_) => RouteRequestSafe(s, op);
    case _ =>
  }

  lemma NotesSafe(s: State, k: History, pass: Pass)
    requires Good(s) && k == s.past.(pending := k.pending, gone := k.gone) && (k.pending == s.past.pending || k.pending.None?)
    requires Lineage(pass.inst, s.inst)
    ensures Good(s.(past := k, pass := pass))
  {
    hide Genuine, SecretsFresh, MineFresh, OneTemplate, MountsPinned, ErasedPins, NoneErased, PinsBounded, NoneHeld, NoBundles,
      ErasedGone;
  }

  /** The notes of the pass after a reply, which `Learn` keeps in the state. */
  function Noted(s: State, op: Op, r: Reply): Pass {
    match op
    case ReadInstance(selected) => NoChecks(s.inst, selected)
    case PatchPins(_, _) => if r.Done? then s.pass.(pinned := true) else s.pass
    case ListDeployments => s.pass.(deployRefs := Some(RefsOf(DeploymentSpecs(s))))
    case ListPods => s.pass.(podRefs := Some(RefsOf(ListedPods(s))))
    case ListIngresses(host) => s.pass.(clear := if Unclaimed(ListedIngresses(s), host) then Some(host) else None)
    case ReadDeployment => s.pass.(rolled := s.work.deploy.Some? && RolledOut(s.work.deploy.value),
                                   approved := s.pass.approved || Approved(s.work))
    case ReadEndpoints => s.pass.(endpoints := s.probes.endpoints)
    case ProbeService => s.pass.(healthy := s.probes.healthy)
    case ResolveHost => s.pass.(resolved := s.probes.resolves)
    case _ => s.pass
  }

  lemma LearnNotes(s: State, op: Op, r: Reply)
    ensures Learn(s, op, r).pass == Noted(s, op, r)
  {
    hide Unclaimed, RolledOut, Approved, ListedIngresses, RefsOf, DeploymentSpecs, ListedPods;
  }

  /** What the controller learns changes nothing but its own notes. */
  lemma LearnMine(s: State, op: Op, r: Reply)
    ensures var t := Learn(s, op, r);
      && t == s.(past := s.past.(gone := t.past.gone, pending := t.past.pending), pass := t.pass)
      && (t.past.pending == s.past.pending || t.past.pending.None?)
  {
    hide NoChecks, Unclaimed, RolledOut, Approved, ListedIngresses, RefsOf, DeploymentSpecs, ListedPods;
  }

  lemma LearnSnapshot(s: State, op: Op, r: Reply)
    ensures Learn(s, op, r).pass.inst == if op.ReadInstance? then s.inst else s.pass.inst
    ensures Learn(s, op, r).pass.host == if op.ReadInstance? then op.selected else s.pass.host
    ensures Learn(s, op, r).inst == s.inst
  {
    hide Learn, Noted;
    LearnNotes(s, op, r);
    LearnMine(s, op, r);
    NotedSnapshot(s, op, r);
  }

  lemma NotedSnapshot(s: State, op: Op, r: Reply)
    ensures Noted(s, op, r).inst == if op.ReadInstance? then s.inst else s.pass.inst
    ensures Noted(s, op, r).host == if op.ReadInstance? then op.selected else s.pass.host
  {
    hide Unclaimed, RolledOut, Approved, ListedIngresses, RefsOf, DeploymentSpecs, ListedPods;
  }

  /** What the controller learns changes only its own notes. */
  lemma LearnSafe(s: State, op: Op, r: Reply)
    requires Good(s)
    ensures Good(Learn(s, op, r))
  {
    hide Good, Learn;
    GoodSnapped(s);
    LearnMine(s, op, r);
    LearnSnapshot(s, op, r);
    NotesSafe(s, Learn(s, op, r).past, Learn(s, op, r).pass);
  }

  // ---- what a request can change ----

  lemma StatusFrame(s: State, op: Op)
    ensures var t := ServeStatus(s, op).0;
      t == s.(inst := s.inst.(rv := t.inst.rv, finalizer := t.inst.finalizer, status := t.inst.status), next := t.next)
  {
    hide Merge, Stored, WithStatus;
    if op.PatchStatus? {
      StatusWrite(s, Stored(s, Merge(op.before, op.after, s.inst.status)));
    } else if op.PutStatus? {
      StatusWrite(s, Stored(s, op.status.(pins := if s.keepsPins then op.status.pins else Pins(s))));
    }
  }

  lemma StatusWrite(s: State, x: Status)
    ensures var t := WithStatus(s, x);
      t == s.(inst := s.inst.(rv := t.inst.rv, finalizer := t.inst.finalizer, status := t.inst.status), next := t.next)
  {}

  lemma WorkFrame(s: State, op: Op)
    ensures var t := ServeWork(s, op).0; t == s.(work := t.work, next := t.next)
  {}

  lemma RouteFrame(s: State, op: Op)
    ensures var t := ServeRoute(s, op).0; t == s.(ingress := t.ingress, service := t.service, next := t.next)
  {}

  lemma CreateFrame(s: State, n: Name, data: Data)
    ensures var t := ServeCreateSecret(s, n, data).0;
      && t == s.(secrets := t.secrets, next := t.next, past := t.past)
      && t.past == s.past.(mine := t.past.mine, pending := t.past.pending, gone := t.past.gone)
  {}

  lemma EraseFrame(s: State, n: Name, read: Secret)
    ensures var t := ServeDeleteSecret(s, n, read).0;
      t == s.(secrets := t.secrets, next := t.next, past := s.past.(erased := t.past.erased))
  {}

  lemma PatchFrame(s: State, rv: nat, pins: Pinned)
    ensures var t := ServePatchPins(s, rv, pins).0;
      && t == s.(inst := s.inst.(rv := t.inst.rv, status := t.inst.status), next := t.next, past := t.past)
      && t.past == s.past.(retired := t.past.retired, pending := t.past.pending)
  {}

  predicate WritesSecret(op: Op) { op.CreateSecret? || op.DeleteSecret? }

  predicate WritesInstance(op: Op) { op.PatchPins? || WritesStatus(op) }

  /** Each kind of request changes its own part of the state, and none the notes of the pass. */
  lemma ServeFrames(s: State, op: Op)
    ensures var t := Serve(s, op).0;
      && t == s.(secrets := t.secrets, inst := t.inst, work := t.work, ingress := t.ingress, service := t.service,
                 past := t.past, next := t.next)
      && (!WritesSecret(op) ==> t.secrets == s.secrets)
      && (!WritesInstance(op) ==> t.inst == s.inst)
      && (!WritesWork(op) ==> t.work == s.work)
      && (!WritesRoute(op) ==> t.ingress == s.ingress && t.service == s.service)
      && (!WritesSecret(op) && !op.PatchPins? ==> t.past == s.past)
      && t.inst.generation == s.inst.generation && t.inst.spec == s.inst.spec
  {
    hide ServeCreateSecret, ServeDeleteSecret, ServePatchPins, ServeStatus, ServeWork, ServeRoute, Answered;
    if op.CreateSecret? {
      CreateFrame(s, op.name, op.data);
    } else if op.DeleteSecret? {
      EraseFrame(s, op.name, op.read);
    } else if op.PatchPins? {
      PatchFrame(s, op.rv, op.pins);
    } else if WritesStatus(op) {
      StatusFrame(s, op);
    } else if WritesWork(op) {
      WorkFrame(s, op);
    } else if WritesRoute(op) {
      RouteFrame(s, op);
    }
  }

  // ---- runs ----

  /** One step of a run: somebody else acts, or the controller sends a request. */
  datatype Move = Other(act: Act) | Request(op: Op, fault: Fault)

  function Step(s: State, m: Move): State {
    match m
    case Other(act) => EnvStep(s, act)
    case Request(op, fault) => After(s, op, fault).0
  }

  ghost predicate Permitted(s: State, m: Move) { m.Request? ==> Allowed(s, m.op) }

  function Exec(s: State, moves: seq<Move>): State {
    if moves == [] then s else Step(Exec(s, moves[..|moves| - 1]), moves[|moves| - 1])
  }

  ghost predicate Legal(s: State, moves: seq<Move>) {
    moves == [] || (Legal(s, moves[..|moves| - 1]) && Permitted(Exec(s, moves[..|moves| - 1]), moves[|moves| - 1]))
  }

  /** `s` is the state that a legal run from an initial state ends in. */
  ghost predicate Reached(start: State, moves: seq<Move>, s: State) {
    Initial(start) && Legal(start, moves) && s == Exec(start, moves)
  }

  lemma ReachedNext(start: State, moves: seq<Move>, s: State, m: Move)
    requires Reached(start, moves, s) && Good(s) && Permitted(s, m)
    ensures Reached(start, moves + [m], Step(s, m)) && Good(Step(s, m))
  {
    hide Good, Initial, Permitted, Step;
    StepSafe(s, m);
    assert (moves + [m])[..|moves|] == moves;
  }

  lemma StepSafe(s: State, m: Move)
    requires Good(s) && Permitted(s, m)
    ensures Good(Step(s, m))
  {
    hide Good, Allowed, Serve, Learn, EnvStep;
    match m
    case Other(act) => EnvActSafe(s, act);
    case Request(op, fault) =>
      if fault.Lost? {
        ServeSafe(s, op);
      } else if fault.Clean? {
        ServeSafe(s, op);
        LearnSafe(Serve(s, op).0, op, Serve(s, op).1);
      }
  }

  /** Every state of every legal run satisfies the invariant, whatever the others do and
      wherever a request or its reply is lost. */
  lemma {:induction false} LegalRunsSafe(s: State, moves: seq<Move>)
    requires Initial(s) && Legal(s, moves)
    ensures Good(Exec(s, moves))
  {
    hide Good, Initial, Permitted, Step;
    if moves == [] {
      InitialGood(s);
    } else {
      LegalRunsSafe(s, moves[..|moves| - 1]);
      StepSafe(Exec(s, moves[..|moves| - 1]), moves[|moves| - 1]);
    }
  }

  lemma {:induction false} LegalPrefix(s: State, moves: seq<Move>, k: nat)
    requires Legal(s, moves) && k <= |moves|
    ensures Legal(s, moves[..k])
    decreases |moves| - k
  {
    hide Permitted, Step;
    if k < |moves| {
      LegalPrefix(s, moves, k + 1);
      assert moves[..k + 1][..k] == moves[..k];
    } else {
      assert moves[..k] == moves;
    }
  }
}
