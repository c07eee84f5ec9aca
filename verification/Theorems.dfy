/** What holds over whole runs: any interleaving of the controller's permitted requests with
    the acts of others, with requests and replies lost anywhere. */
module Theorems {
  import opened Basics
  import opened Templates
  import opened Cluster
  import opened Safety
  import opened Runs

  /** State `k` of a run. */
  function At(start: State, moves: seq<Move>, k: nat): State
    requires k <= |moves|
  {
    Exec(start, moves[..k])
  }

  lemma AtStep(start: State, moves: seq<Move>, k: nat)
    requires k < |moves|
    ensures At(start, moves, k + 1) == Step(At(start, moves, k), moves[k])
  {
    assert moves[..k + 1][..k] == moves[..k];
  }

  lemma AtGood(start: State, moves: seq<Move>, k: nat)
    requires Initial(start) && Legal(start, moves) && k <= |moves|
    ensures Good(At(start, moves, k))
  {
    hide Good;
    LegalPrefix(start, moves, k);
    LegalRunsSafe(start, moves[..k]);
  }

  lemma AtPermitted(start: State, moves: seq<Move>, k: nat)
    requires Legal(start, moves) && k < |moves|
    ensures Permitted(At(start, moves, k), moves[k])
  {
    hide Permitted;
    LegalPrefix(start, moves, k + 1);
    assert moves[..k + 1][..k] == moves[..k];
  }

  // ---- pods and templates ----

  predicate SomeTemplate(w: Workload, template: PodTemplate) { w.deploy.Some? && w.deploy.value.template == template }

  /** Every live or terminating pod of the instance runs the Deployment's current template. */
  lemma PodsRunOneTemplate(start: State, moves: seq<Move>, k: nat, i: nat, j: nat)
    requires Initial(start) && Legal(start, moves) && k <= |moves|
    requires i < |At(start, moves, k).work.pods| && j < |At(start, moves, k).work.pods|
    ensures SomeTemplate(At(start, moves, k).work, At(start, moves, k).work.pods[i].template)
    ensures At(start, moves, k).work.pods[i].template == At(start, moves, k).work.pods[j].template
  {
    hide Exec, Legal, Initial;
    AtGood(start, moves, k);
    GoodWorkload(At(start, moves, k));
  }

  lemma EnvKeepsTemplate(s: State, a: Act)
    requires s.work.deploy.Some?
    ensures EnvStep(s, a).work.deploy.Some? && EnvStep(s, a).work.deploy.value.template == s.work.deploy.value.template
  {}

  lemma WorkServes(s: State, op: Op)
    requires WritesWork(op)
    ensures Serve(s, op) == ServeWork(s, op)
  {
    hide ServeWork;
  }

  lemma WorkKeepsTemplate(s: State, op: Op)
    requires WritesWork(op) && s.work.deploy.Some?
    ensures var t := ServeWork(s, op).0;
      && t.work.deploy.Some?
      && (t.work.deploy.value.template != s.work.deploy.value.template ==>
            op.UpdateDeployment? && s.work.deploy.value.rv == op.was.rv && op.template != s.work.deploy.value.template)
  {}

  lemma ServeKeepsTemplate(s: State, op: Op)
    requires s.work.deploy.Some?
    ensures var t := Serve(s, op).0;
      && t.work.deploy.Some?
      && (t.work.deploy.value.template != s.work.deploy.value.template ==>
            op.UpdateDeployment? && s.work.deploy.value.rv == op.was.rv && op.template != s.work.deploy.value.template)
  {
    hide Serve, ServeWork;
    ServeFrames(s, op);
    if WritesWork(op) {
      WorkServes(s, op);
      WorkKeepsTemplate(s, op);
    }
  }

  lemma OnlyUpdatesChangeTemplates(s: State, op: Op, fault: Fault)
    requires s.work.deploy.Some?
    ensures var t := After(s, op, fault).0;
      && t.work.deploy.Some?
      && (t.work.deploy.value.template != s.work.deploy.value.template ==>
            op.UpdateDeployment? && s.work.deploy.value.rv == op.was.rv && op.template != s.work.deploy.value.template)
  {
    hide Serve, Learn;
    ServeKeepsTemplate(s, op);
    LearnMine(Serve(s, op).0, op, Serve(s, op).1);
  }

  lemma UpdateMeans(s: State, op: Op)
    requires Allowed(s, op) && op.UpdateDeployment? && s.work.deploy.Some? && s.work.deploy.value.rv == op.was.rv
    requires op.template != s.work.deploy.value.template
    ensures Stopped(s.work) && Unowned(s.ingress)
  {}

  /** The template changes only while no pod is left, the Deployment controller has seen zero
      replicas, and the owned route is withdrawn. */
  lemma TemplateChangesWhenStopped(start: State, moves: seq<Move>, k: nat)
    requires Initial(start) && Legal(start, moves) && k < |moves| && At(start, moves, k).work.deploy.Some?
    ensures At(start, moves, k + 1).work.deploy.Some?
    ensures At(start, moves, k + 1).work.deploy.value.template != At(start, moves, k).work.deploy.value.template ==>
      && At(start, moves, k).work.pods == [] && Stopped(At(start, moves, k).work) && Unowned(At(start, moves, k).ingress)
      && moves[k].Request? && moves[k].op.UpdateDeployment?
  {
    hide Exec, Legal, Initial, EnvStep, After, Allowed;
    var s := At(start, moves, k);
    AtStep(start, moves, k);
    AtPermitted(start, moves, k);
    match moves[k]
    case Other(act) => EnvKeepsTemplate(s, act);
    case Request(op, fault) =>
      OnlyUpdatesChangeTemplates(s, op, fault);
      if op.UpdateDeployment? && s.work.deploy.value.rv == op.was.rv && op.template != s.work.deploy.value.template {
        UpdateMeans(s, op);
      }
  }

  // ---- mounted bundles ----

  /** The Deployment's template, or a live or terminating pod, mounts the bundle. */
  predicate Mounts(w: Workload, n: Name) {
    n in OwnMounts(w) || exists i :: 0 <= i < |w.pods| && n in BundleMounts(w.pods[i].template)
  }

  lemma MountsAreOwn(w: Workload, n: Name)
    requires OneTemplate(w) && Mounts(w, n)
    ensures n in OwnMounts(w) && n in OwnRefs(w) && n.Access?
  {
    MountsAreRefs(w);
  }

  lemma MountedHeld(s: State, n: Name)
    requires Good(s) && Mounts(s.work, n)
    ensures n in Pins(s) && Pins(s)[n] !in s.past.erased && n in OwnRefs(s.work)
  {
    hide Fresh, Genuine, PinsOurs, PinsBounded, Counted, Alone, OneTemplate, Mounts;
    MountsAreOwn(s.work, n);
  }

  lemma OthersKeepPins(s: State, a: Act)
    requires Good(s)
    ensures Pins(EnvStep(s, a)) == Pins(s) && EnvStep(s, a).past == s.past
  {
    hide Good;
    EnvActSafe(s, a);
  }

  /** In every run, a mounted bundle is pinned and was never asked to be deleted; the next step
      keeps its pin, and if it is a request of the controller it leaves its Secret as it is. */
  lemma MountedBundlesAreSafe(start: State, moves: seq<Move>, k: nat, n: Name)
    requires Initial(start) && Legal(start, moves) && k < |moves| && Mounts(At(start, moves, k).work, n)
    ensures var s, t := At(start, moves, k), At(start, moves, k + 1);
      && n in Pins(s) && Pins(s)[n] !in s.past.erased
      && n in Pins(t) && Pins(t)[n] == Pins(s)[n]
      && (moves[k].Request? && n in s.secrets ==> Lookup(t.secrets, n) == Some(s.secrets[n]))
  {
    hide Exec, Legal, Initial, Good, Allowed, After, EnvStep, Mounts;
    var s := At(start, moves, k);
    AtGood(start, moves, k);
    AtStep(start, moves, k);
    AtPermitted(start, moves, k);
    MountedHeld(s, n);
    match moves[k]
    case Other(act) => OthersKeepPins(s, act);
    case Request(op, fault) =>
      UnpinsKnownGone(s, op, fault, n);
      if n in s.secrets && Lookup(After(s, op, fault).0.secrets, n) != Some(s.secrets[n]) {
        ErasesExactly(s, op, fault, n);
      }
  }

  // ---- deletions and dropped pins ----

  lemma ErasesExactly(s: State, op: Op, fault: Fault, n: Name)
    requires Allowed(s, op) && n in s.secrets && Lookup(After(s, op, fault).0.secrets, n) != Some(s.secrets[n])
    ensures op.DeleteSecret? && op.name == n && s.secrets[n] == op.read
    ensures n.Access? && n in Pins(s) && s.secrets[n].uid == Pins(s)[n] && s.secrets[n].owned && s.secrets[n].immutable
    ensures n !in OwnRefs(s.work) && n != op.room && op.room !in Pins(s) && ListedIdle(s.pass, n)
  {
    hide Serve, Learn, OwnRefs, NoneErased, ErasedPins, MayRead, ListedIdle, Permissible;
    LearnMine(Serve(s, op).0, op, Serve(s, op).1);
    AltersSecret(s, op, n);
  }

  lemma CreationServes(s: State, op: Op)
    requires op.CreateSecret?
    ensures Serve(s, op) == ServeCreateSecret(s, op.name, op.data)
  {
    hide ServeCreateSecret;
  }

  lemma CreationAdds(s: State, m: Name, data: Data, n: Name)
    requires n in s.secrets
    ensures Lookup(ServeCreateSecret(s, m, data).0.secrets, n) == Some(s.secrets[n])
  {}

  lemma DeletionServes(s: State, op: Op)
    requires op.DeleteSecret?
    ensures Serve(s, op) == ServeDeleteSecret(s, op.name, op.read)
  {
    hide ServeDeleteSecret;
  }

  lemma DeletionAlters(s: State, m: Name, read: Secret, n: Name)
    requires n in s.secrets && Lookup(ServeDeleteSecret(s, m, read).0.secrets, n) != Some(s.secrets[n])
    ensures m == n && s.secrets[n].uid == read.uid && s.secrets[n].rv == read.rv
  {}

  lemma AltersSecret(s: State, op: Op, n: Name)
    requires n in s.secrets && Lookup(Serve(s, op).0.secrets, n) != Some(s.secrets[n])
    ensures op.DeleteSecret? && op.name == n && s.secrets[n].uid == op.read.uid && s.secrets[n].rv == op.read.rv
  {
    hide Serve, ServeCreateSecret, ServeDeleteSecret;
    ServeFrames(s, op);
    if op.CreateSecret? {
      CreationServes(s, op);
      CreationAdds(s, op.name, op.data, n);
    } else if op.DeleteSecret? {
      DeletionServes(s, op);
      DeletionAlters(s, op.name, op.read, n);
    }
  }

  /** Whenever a request of the controller removes or changes a Secret, that Secret is a pinned
      bundle with exactly the pinned UID, still the object that was read, owned, immutable, neither the session
      nor the bundle to be made, and no workload refers to it: not the instance's own, and none that the last
      lists of Deployments and pods of the same pass showed. */
  lemma DeletionsAreExact(start: State, moves: seq<Move>, k: nat, n: Name)
    requires Initial(start) && Legal(start, moves) && k < |moves| && moves[k].Request? && n in At(start, moves, k).secrets
    requires Lookup(At(start, moves, k + 1).secrets, n) != Some(At(start, moves, k).secrets[n])
    ensures var s, op := At(start, moves, k), moves[k].op;
      && op.DeleteSecret? && op.name == n && s.secrets[n] == op.read && n.Access?
      && n in Pins(s) && s.secrets[n].uid == Pins(s)[n] && s.secrets[n].owned && s.secrets[n].immutable
      && n !in OwnRefs(s.work) && n != op.room && op.room !in Pins(s)
    ensures Confirmed(start, moves[..k], DeploymentsIdle(n)) && Confirmed(start, moves[..k], PodsIdle(n))
  {
    hide Exec, Legal, Initial, Allowed, After, OwnRefs, Confirmed;
    AtStep(start, moves, k);
    AtPermitted(start, moves, k);
    ErasesExactly(At(start, moves, k), moves[k].op, moves[k].fault, n);
    FlagConfirmed(start, moves[..k], DeploymentsIdle(n));
    FlagConfirmed(start, moves[..k], PodsIdle(n));
  }

  lemma UnpinsKnownGone(s: State, op: Op, fault: Fault, n: Name)
    requires Allowed(s, op) && n in Pins(s)
    ensures var t := After(s, op, fault).0;
      if n in Pins(t) then Pins(t)[n] == Pins(s)[n] else DropsPin(s, n)
  {
    hide Allowed, Serve, Learn, OwnRefs, PinStep, UnpinStep, ServePatchPins;
    LearnMine(Serve(s, op).0, op, Serve(s, op).1);
    if op.PatchPins? {
      PatchServes(s, op);
      PatchUnpins(s, op.rv, op.pins, n);
    } else {
      OnlyPatchesPin(s, op);
    }
  }

  lemma PatchServes(s: State, op: Op)
    requires Allowed(s, op) && op.PatchPins?
    ensures Serve(s, op) == ServePatchPins(s, op.rv, op.pins) && (PinStep(s, op.pins) || UnpinStep(s, op.pins))
  {
    hide ServePatchPins, PinStep, UnpinStep, MayRead;
  }

  lemma PatchUnpins(s: State, rv: nat, pins: Pinned, n: Name)
    requires (PinStep(s, pins) || UnpinStep(s, pins)) && n in Pins(s)
    ensures var t := ServePatchPins(s, rv, pins).0;
      if n in Pins(t) then Pins(t)[n] == Pins(s)[n] else DropsPin(s, n)
  {
    hide OwnRefs;
  }

  lemma OnlyPatchesPin(s: State, op: Op)
    requires Allowed(s, op) && !op.PatchPins?
    ensures Pins(Serve(s, op).0) == Pins(s)
  {
    hide Serve, Allowed;
    if WritesInstance(op) {
      StatusKeepsPins(s, op);
    } else {
      RestKeepsInstance(s, op);
    }
  }

  lemma StatusKeepsPins(s: State, op: Op)
    requires Allowed(s, op) && WritesInstance(op) && !op.PatchPins?
    ensures Pins(Serve(s, op).0) == Pins(s)
    ensures op.PutFinalizer? ==> Serve(s, op).0.inst.status == s.inst.status
  {
    hide MayRead, Ready, ShowsHost, Dated, Closed;
  }

  lemma RestKeepsInstance(s: State, op: Op)
    requires !WritesInstance(op)
    ensures Serve(s, op).0.inst == s.inst
  {
    hide Serve;
    ServeFrames(s, op);
  }

  /** The pass read that the name was absent at step `j`, and no Secret of that name was created by
      this controller since. */
  ghost predicate ReadAbsent(start: State, moves: seq<Move>, j: nat, n: Name) {
    && j < |moves| && moves[j] == Request(ReadSecret(n), Clean) && n !in At(start, moves, j).secrets
    && forall i :: j < i < |moves| ==> !Creates(At(start, moves, i), moves[i], n)
  }

  predicate Creates(s: State, m: Move, n: Name) {
    m.Request? && m.op.CreateSecret? && m.op.name == n && !m.fault.Dropped? && n !in s.secrets
  }

  lemma OthersKeepHistory(s: State, a: Act)
    ensures EnvStep(s, a).past == s.past
  {
    hide SecretStep, WorkStep, IngressStep, NoBundles, Store, Lookup;
  }

  lemma CreationForgets(s: State, m: Name, data: Data, n: Name)
    requires n in ServeCreateSecret(s, m, data).0.past.gone
    ensures n in s.past.gone && (m != n || n in s.secrets)
  {}

  lemma PinningServes(s: State, op: Op)
    requires op.PatchPins?
    ensures Serve(s, op).0.past.gone == s.past.gone
  {
    hide ServePatchPins;
    PatchFrame(s, op.rv, op.pins);
  }

  lemma ServeGone(s: State, op: Op, n: Name)
    requires n in Serve(s, op).0.past.gone
    ensures n in s.past.gone && !Creates(s, Request(op, Clean), n)
  {
    hide Serve, ServeCreateSecret;
    if op.CreateSecret? {
      CreationServes(s, op);
      CreationForgets(s, op.name, op.data, n);
    } else if op.PatchPins? {
      PinningServes(s, op);
    } else {
      RestKeepsPast(s, op);
    }
  }

  lemma LearnGone(s: State, op: Op, n: Name)
    requires n in Learn(Serve(s, op).0, op, Serve(s, op).1).past.gone
    ensures n in Serve(s, op).0.past.gone || (op == ReadSecret(n) && n !in s.secrets)
  {
    hide Merge, Unclaimed, RolledOut, Approved, ListedIngresses;
  }

  lemma GoneRequest(s: State, op: Op, fault: Fault, n: Name)
    requires n in After(s, op, fault).0.past.gone
    ensures (n in s.past.gone && !Creates(s, Request(op, fault), n))
         || (op == ReadSecret(n) && fault.Clean? && n !in s.secrets)
  {
    hide Serve, Learn;
    if fault.Clean? {
      LearnGone(s, op, n);
    }
    if n in Serve(s, op).0.past.gone {
      ServeGone(s, op, n);
    }
  }

  lemma GoneStep(s: State, m: Move, n: Name)
    requires n in Step(s, m).past.gone
    ensures (n in s.past.gone && !Creates(s, m, n)) || (m == Request(ReadSecret(n), Clean) && n !in s.secrets)
  {
    hide EnvStep, After;
    match m
    case Other(act) => OthersKeepHistory(s, act);
    case Request(op, fault) => GoneRequest(s, op, fault, n);
  }

  lemma AtPrefix(start: State, moves: seq<Move>, k: nat, j: nat)
    requires j <= k <= |moves|
    ensures At(start, moves[..k], j) == At(start, moves, j)
  {
    assert moves[..k][..j] == moves[..j];
  }

  /** A name noted as gone was read as absent, after the last time it was created. */
  lemma {:induction false} GoneWasRead(start: State, moves: seq<Move>, n: Name) returns (j: nat)
    requires Initial(start) && n in Exec(start, moves).past.gone
    ensures ReadAbsent(start, moves, j, n)
  {
    hide Initial, Step;
    if moves == [] {
      NothingGone(start, n);
    } else {
      var k := |moves| - 1;
      var s := Exec(start, moves[..k]);
      GoneStep(s, moves[k], n);
      if n in s.past.gone && !Creates(s, moves[k], n) {
        j := GoneWasRead(start, moves[..k], n);
        AtPrefix(start, moves, k, j);
        forall i | j < i < |moves| ensures !Creates(At(start, moves, i), moves[i], n) {
          AtPrefix(start, moves, k, i);
        }
      } else {
        j := k;
      }
    }
  }

  lemma NothingGone(s: State, n: Name)
    requires Initial(s)
    ensures n !in s.past.gone
  {}

  /** A pin is dropped only after a read showed that its Secret was absent, and while neither the instance's own
      workload nor any that the last lists of the same pass showed refers to it. */
  lemma PinsDroppedAfterReads(start: State, moves: seq<Move>, k: nat, n: Name) returns (j: nat)
    requires Initial(start) && Legal(start, moves) && k < |moves|
    requires n in Pins(At(start, moves, k)) && n !in Pins(At(start, moves, k + 1))
    ensures ReadAbsent(start, moves[..k], j, n) && n.Access? && n !in OwnRefs(At(start, moves, k).work)
    ensures Confirmed(start, moves[..k], DeploymentsIdle(n)) && Confirmed(start, moves[..k], PodsIdle(n))
  {
    hide Legal, Initial, Good, Allowed, After, EnvStep, OwnRefs, Exec, Confirmed;
    AtGood(start, moves, k);
    AtStep(start, moves, k);
    AtPermitted(start, moves, k);
    match moves[k] {
      case Other(act) => OthersKeepPins(At(start, moves, k), act);
      case Request(op, fault) => UnpinsKnownGone(At(start, moves, k), op, fault, n);
    }
    j := GoneWasRead(start, moves[..k], n);
    FlagConfirmed(start, moves[..k], DeploymentsIdle(n));
    FlagConfirmed(start, moves[..k], PodsIdle(n));
  }

  // ---- no adoption ----

  /** UID `u` is the one the API server gave to this controller's own creation at step `j`. */
  ghost predicate CreatedAt(start: State, moves: seq<Move>, j: nat, n: Name, u: nat, data: Data) {
    && j < |moves| && moves[j].Request? && moves[j].op == CreateSecret(n, data) && !moves[j].fault.Dropped?
    && n !in At(start, moves, j).secrets && u == At(start, moves, j).next
  }

  lemma ServeMine(s: State, op: Op)
    ensures if op.CreateSecret? then Serve(s, op) == ServeCreateSecret(s, op.name, op.data) else Serve(s, op).0.past.mine == s.past.mine
  {
    hide Serve, ServeCreateSecret;
    if op.CreateSecret? {
      CreationServes(s, op);
    } else if op.PatchPins? {
      PatchKeepsMine(s, op);
    } else {
      RestKeepsPast(s, op);
    }
  }

  lemma PatchKeepsMine(s: State, op: Op)
    requires op.PatchPins?
    ensures Serve(s, op).0.past.mine == s.past.mine
  {
    hide ServePatchPins;
    PatchFrame(s, op.rv, op.pins);
  }

  lemma MineRequest(s: State, op: Op, fault: Fault, u: nat)
    requires u in After(s, op, fault).0.past.mine
    ensures var mine := After(s, op, fault).0.past.mine;
      || (u in s.past.mine && s.past.mine[u] == mine[u])
      || (op == CreateSecret(mine[u].name, mine[u].data) && !fault.Dropped? && mine[u].name !in s.secrets && u == s.next)
  {
    hide Serve, Learn;
    ServeMine(s, op);
    LearnMine(Serve(s, op).0, op, Serve(s, op).1);
  }

  lemma MineStep(s: State, m: Move, u: nat)
    requires u in Step(s, m).past.mine
    ensures var mine := Step(s, m).past.mine;
      || (u in s.past.mine && s.past.mine[u] == mine[u])
      || (m.Request? && m.op == CreateSecret(mine[u].name, mine[u].data) && !m.fault.Dropped?
          && mine[u].name !in s.secrets && u == s.next)
  {
    hide EnvStep, After;
    match m
    case Other(act) => OthersKeepHistory(s, act);
    case Request(op, fault) => MineRequest(s, op, fault, u);
  }

  lemma {:induction false} MineWasCreated(start: State, moves: seq<Move>, u: nat) returns (j: nat)
    requires Initial(start) && u in Exec(start, moves).past.mine
    ensures var made := Exec(start, moves).past.mine[u]; CreatedAt(start, moves, j, made.name, u, made.data)
  {
    hide Initial, Step;
    if moves == [] {
      NothingMine(start, u);
    } else {
      var k := |moves| - 1;
      var s := Exec(start, moves[..k]);
      MineStep(s, moves[k], u);
      if u in s.past.mine && s.past.mine[u] == Exec(start, moves).past.mine[u] {
        j := MineWasCreated(start, moves[..k], u);
        AtPrefix(start, moves, k, j);
      } else {
        j := k;
      }
    }
  }

  lemma NothingMine(s: State, u: nat)
    requires Initial(s)
    ensures u !in s.past.mine
  {}

  lemma PinsAreOurs(s: State, n: Name)
    requires Good(s) && n in Pins(s)
    ensures Pins(s)[n] in s.past.mine && s.past.mine[Pins(s)[n]].name == n
    ensures n in s.secrets && s.secrets[n].uid == Pins(s)[n] ==>
      s.secrets[n].immutable && s.secrets[n].data == s.past.mine[Pins(s)[n]].data
  {
    hide Fresh, PinsBounded, Counted, Alone, OneTemplate, MountsPinned;
    assert OursAt(s.past, n, Pins(s)[n]);
  }

  /** Every pin of every run is a UID that the server assigned to this controller's own creation
      under that name, and a stored Secret that still has that UID has what was created: nothing
      that others create, however it is named, owned or filled, is ever pinned. */
  lemma PinsAreOwnCreations(start: State, moves: seq<Move>, n: Name) returns (j: nat)
    requires Initial(start) && Legal(start, moves) && n in Pins(Exec(start, moves))
    ensures var s := Exec(start, moves);
      exists data ::
        && CreatedAt(start, moves, j, n, Pins(s)[n], data)
        && (n in s.secrets && s.secrets[n].uid == Pins(s)[n] ==> s.secrets[n].immutable && s.secrets[n].data == data)
  {
    hide Exec, Legal, Initial, Good;
    var s := Exec(start, moves);
    LegalRunsSafe(start, moves);
    PinsAreOurs(s, n);
    j := MineWasCreated(start, moves, Pins(s)[n]);
  }

  // ---- orphans ----

  /** A UID of this controller that is neither pinned nor the creation in progress. */
  ghost predicate Orphan(s: State, u: nat) {
    && u in s.past.mine && (forall n :: n in Pins(s) ==> Pins(s)[n] != u)
    && (s.past.pending.Some? ==> s.past.pending.value.1 != u)
  }

  lemma OrphanCreates(s: State, n: Name, data: Data, u: nat)
    requires Good(s) && Orphan(s, u)
    ensures Orphan(ServeCreateSecret(s, n, data).0, u)
  {
    hide Genuine, PinsBounded, Counted, Alone, OneTemplate, MountsPinned, PinsOurs, SecretsFresh;
  }

  lemma OrphanPatches(s: State, rv: nat, pins: Pinned, u: nat)
    requires Orphan(s, u) && (PinStep(s, pins) || UnpinStep(s, pins))
    ensures Orphan(ServePatchPins(s, rv, pins).0, u)
  {}

  lemma OrphanServed(s: State, op: Op, u: nat)
    requires Good(s) && Allowed(s, op) && Orphan(s, u)
    ensures Orphan(Serve(s, op).0, u)
  {
    hide Good, Orphan, ServeCreateSecret, ServePatchPins;
    if op.CreateSecret? {
      OrphanCreates(s, op.name, op.data, u);
    } else if op.PatchPins? {
      OrphanPatches(s, op.rv, op.pins, u);
    } else {
      RestKeepsPins(s, op);
      OrphanStays(s, Serve(s, op).0, u);
    }
  }

  lemma RestKeepsPins(s: State, op: Op)
    requires Allowed(s, op) && !op.CreateSecret? && !op.PatchPins?
    ensures Pins(Serve(s, op).0) == Pins(s) && Serve(s, op).0.past.mine == s.past.mine
    ensures Serve(s, op).0.past.pending == s.past.pending
  {
    hide Allowed, Serve;
    OnlyPatchesPin(s, op);
    RestKeepsPast(s, op);
  }

  lemma RestKeepsPast(s: State, op: Op)
    requires !op.CreateSecret? && !op.PatchPins?
    ensures Serve(s, op).0.past == s.past.(erased := Serve(s, op).0.past.erased)
  {
    hide Serve, ServeDeleteSecret;
    ServeFrames(s, op);
    if op.DeleteSecret? {
      DeletionServes(s, op);
      EraseFrame(s, op.name, op.read);
    }
  }

  lemma OrphanStays(s: State, t: State, u: nat)
    requires Orphan(s, u) && Pins(t) == Pins(s) && t.past.mine == s.past.mine
    requires t.past.pending == s.past.pending || t.past.pending.None?
    ensures Orphan(t, u)
  {}

  lemma OrphanRequest(s: State, op: Op, fault: Fault, u: nat)
    requires Good(s) && Allowed(s, op) && Orphan(s, u)
    ensures Orphan(After(s, op, fault).0, u)
  {
    hide Serve, Learn, Orphan, Good, Allowed;
    OrphanServed(s, op, u);
    LearnMine(Serve(s, op).0, op, Serve(s, op).1);
    OrphanStays(Serve(s, op).0, Learn(Serve(s, op).0, op, Serve(s, op).1), u);
  }

  /** An orphan left between a creation and its pin is never pinned, however the run goes on. */
  lemma {:induction false} OrphansStayOrphans(start: State, moves: seq<Move>, k: nat, l: nat, u: nat)
    requires Initial(start) && Legal(start, moves) && k <= l <= |moves| && Orphan(At(start, moves, k), u)
    ensures Orphan(At(start, moves, l), u)
    decreases l - k
  {
    hide Exec, Legal, Initial, Good, Allowed, After, EnvStep, Orphan;
    if k < l {
      AtGood(start, moves, k);
      AtStep(start, moves, k);
      AtPermitted(start, moves, k);
      match moves[k] {
        case Other(act) =>
          OthersKeepPins(At(start, moves, k), act);
          OrphanStays(At(start, moves, k), EnvStep(At(start, moves, k), act), u);
        case Request(op, fault) => OrphanRequest(At(start, moves, k), op, fault, u);
      }
      OrphansStayOrphans(start, moves, k + 1, l, u);
    }
  }

  /** A pass that starts after a crash finds the creation in progress orphaned. */
  lemma CrashOrphans(s: State, host: Option<string>, fault: Fault)
    requires s.past.pending.Some? && fault.Clean? && s.past.pending.value.1 in s.past.mine
    requires forall n :: n in Pins(s) ==> Pins(s)[n] != s.past.pending.value.1
    ensures Orphan(After(s, ReadInstance(host), fault).0, s.past.pending.value.1)
  {
    assert Pins(After(s, ReadInstance(host), fault).0) == Pins(s);
  }

  // ---- the bounded history ----

  /** One session pin and at most three bundle pins; bundles imply the session. */
  lemma HistoryIsBounded(start: State, moves: seq<Move>)
    requires Initial(start) && Legal(start, moves)
    ensures var pins := Pins(Exec(start, moves));
      && (forall n :: n in pins ==> n.Session? || n.Access?)
      && |pins.Keys - {Name.Session}| <= MAX_BUNDLES
      && (pins != map[] ==> Name.Session in pins)
  {
    hide Exec, Legal, Initial;
    LegalRunsSafe(start, moves);
    var pins := Pins(Exec(start, moves));
    if Name.Session in pins {
      assert pins.Keys == (pins.Keys - {Name.Session}) + {Name.Session};
      assert |pins| == |pins.Keys|;
    } else {
      assert pins.Keys - {Name.Session} == {};
    }
  }

  /** The session pin never changes and never disappears. */
  lemma {:induction false} SessionPinIsForever(start: State, moves: seq<Move>, k: nat, l: nat)
    requires Initial(start) && Legal(start, moves) && k <= l <= |moves| && Name.Session in Pins(At(start, moves, k))
    ensures Name.Session in Pins(At(start, moves, l))
    ensures Pins(At(start, moves, l))[Name.Session] == Pins(At(start, moves, k))[Name.Session]
    decreases l - k
  {
    hide Exec, Legal, Initial, Good, Allowed, After, EnvStep;
    if k < l {
      AtGood(start, moves, k);
      AtStep(start, moves, k);
      AtPermitted(start, moves, k);
      match moves[k] {
        case Other(act) => OthersKeepPins(At(start, moves, k), act);
        case Request(op, fault) => UnpinsKnownGone(At(start, moves, k), op, fault, Name.Session);
      }
      SessionPinIsForever(start, moves, k + 1, l);
    }
  }

  lemma SplitErased(pins: Pinned, h: History)
    requires Counted(pins, h)
    ensures |h.erased| <= h.retired + |ErasedPins(pins, h.erased)|
  {
    assert h.erased == (h.erased - pins.Values) + ErasedPins(pins, h.erased);
  }

  /** Every Secret asked to be deleted had its pin dropped or is still pinned; with immediate
      deletion and nobody else using a bundle, at most one is still pinned. */
  lemma DeletionsAreBounded(start: State, moves: seq<Move>)
    requires Initial(start) && Legal(start, moves)
    ensures var s := Exec(start, moves);
      && |s.past.erased| <= s.past.retired + |ErasedPins(Pins(s), s.past.erased)|
      && (s.solo ==> |s.past.erased| <= s.past.retired + 1)
  {
    hide Exec, Legal, Initial, PinsOurs, PinsBounded, Genuine, OneTemplate, MountsPinned, ErasedPins;
    LegalRunsSafe(start, moves);
    SplitErased(Pins(Exec(start, moves)), Exec(start, moves).past);
  }

  // ---- checks before credentials, routes and readiness ----

  datatype Check =
    | HostUnclaimed(host: string) | ImageApproved | DeploymentsIdle(name: Name) | PodsIdle(name: Name) | PinWritten
    | RolledOutFully | HasEndpoints | IsHealthy | Resolves

  /** The pass counts the check as passed. */
  predicate Flag(p: Pass, c: Check) {
    match c
    case HostUnclaimed(host) => p.clear == Some(host)
    case ImageApproved => p.approved
    case DeploymentsIdle(n) => p.deployRefs.Some? && n !in p.deployRefs.value
    case PodsIdle(n) => p.podRefs.Some? && n !in p.podRefs.value
    case PinWritten => p.pinned
    case RolledOutFully => p.rolled
    case HasEndpoints => p.endpoints
    case IsHealthy => p.healthy
    case Resolves => p.resolved
  }

  predicate Delivered(m: Move) { m.Request? && m.fault.Clean? }

  /** The move is a delivered request whose answer shows, in state `s`, that the check passes. */
  predicate Confirms(s: State, m: Move, c: Check) {
    Delivered(m) &&
    match c
    case HostUnclaimed(host) => m.op == ListIngresses(host) && Unclaimed(ListedIngresses(s), host)
    case ImageApproved => m.op.ReadDeployment? && Approved(s.work)
    case DeploymentsIdle(n) => m.op.ListDeployments? && n !in RefsOf(DeploymentSpecs(s))
    case PodsIdle(n) => m.op.ListPods? && n !in RefsOf(ListedPods(s))
    case PinWritten => m.op.PatchPins? && m.op.rv == s.inst.rv
    case RolledOutFully => m.op.ReadDeployment? && s.work.deploy.Some? && RolledOut(s.work.deploy.value)
    case HasEndpoints => m.op.ReadEndpoints? && s.probes.endpoints
    case IsHealthy => m.op.ProbeService? && s.probes.healthy
    case Resolves => m.op.ResolveHost? && s.probes.resolves
  }

  /** The move is a delivered request whose answer decides the check anew; a workload that was found
      approved and a pin that was written count for the rest of the pass. */
  predicate Asks(m: Move, c: Check) {
    Delivered(m) &&
    match c
    case HostUnclaimed(_) => m.op.ListIngresses?
    case ImageApproved => false
    case DeploymentsIdle(_) => m.op.ListDeployments?
    case PodsIdle(_) => m.op.ListPods?
    case PinWritten => false
    case RolledOutFully => m.op.ReadDeployment?
    case HasEndpoints => m.op.ReadEndpoints?
    case IsHealthy => m.op.ProbeService?
    case Resolves => m.op.ResolveHost?
  }

  predicate Starts(m: Move) { Delivered(m) && m.op.ReadInstance? }

  /** Where the pass in progress began: just after the last delivered read of the instance. */
  function PassStart(moves: seq<Move>): (b: nat)
    ensures b <= |moves| && (b > 0 ==> Starts(moves[b - 1]))
  {
    if moves == [] then 0
    else if Starts(moves[|moves| - 1]) then |moves|
    else PassStart(moves[..|moves| - 1])
  }

  lemma ServeKeepsPass(s: State, op: Op)
    ensures Serve(s, op).0.pass == s.pass
  {
    hide Serve;
    ServeFrames(s, op);
  }

  lemma NotedFlags(s: State, op: Op, r: Reply, c: Check)
    requires Flag(Noted(s, op, r), c) && !c.PinWritten?
    ensures Confirms(s, Request(op, Clean), c) || (Flag(s.pass, c) && !op.ReadInstance? && !Asks(Request(op, Clean), c))
  {
    hide Unclaimed, RolledOut, Approved, ListedIngresses, RefsOf, DeploymentSpecs, ListedPods;
  }

  lemma NotedPins(s: State, op: Op, r: Reply)
    requires Noted(s, op, r).pinned
    ensures (op.PatchPins? && r.Done?) || (s.pass.pinned && !op.ReadInstance?)
  {
    hide Unclaimed, RolledOut, Approved, ListedIngresses, RefsOf, DeploymentSpecs, ListedPods;
  }

  lemma LearnFlags(s: State, op: Op, r: Reply, c: Check)
    requires Flag(Learn(s, op, r).pass, c)
    ensures (Confirms(s, Request(op, Clean), c) && !c.PinWritten?) || (c.PinWritten? && op.PatchPins? && r.Done?)
         || (Flag(s.pass, c) && !op.ReadInstance? && !Asks(Request(op, Clean), c))
  {
    hide Learn, Noted, Confirms;
    LearnNotes(s, op, r);
    if c.PinWritten? {
      NotedPins(s, op, r);
    } else {
      NotedFlags(s, op, r, c);
    }
  }

  lemma AsksChangeNothing(s: State, op: Op, c: Check)
    requires Confirms(Serve(s, op).0, Request(op, Clean), c) && !c.PinWritten?
    ensures Confirms(s, Request(op, Clean), c)
  {
    hide Unclaimed, RolledOut, Approved, ListedIngresses, RefsOf, DeploymentSpecs, ListedPods, Merge, Stored;
  }

  lemma PinServed(s: State, op: Op)
    requires op.PatchPins? && Serve(s, op).1.Done?
    ensures Confirms(s, Request(op, Clean), PinWritten)
  {
    hide Merge, Stored;
  }

  lemma OthersKeepPass(s: State, a: Act)
    ensures EnvStep(s, a).pass == s.pass
  {
    hide SecretStep, WorkStep, IngressStep, NoBundles, Store, Lookup;
  }

  lemma FlagStep(s: State, m: Move, c: Check)
    requires Flag(Step(s, m).pass, c)
    ensures Confirms(s, m, c) || (Flag(s.pass, c) && !Starts(m) && !Asks(m, c))
  {
    hide EnvStep, Serve, Learn, Flag, Confirms;
    match m
    case Other(act) => OthersKeepPass(s, act);
    case Request(op, fault) =>
      ServeKeepsPass(s, op);
      if fault.Clean? {
        LearnFlags(Serve(s, op).0, op, Serve(s, op).1, c);
        if c.PinWritten? && op.PatchPins? && Serve(s, op).1.Done? {
          PinServed(s, op);
        }
        if Confirms(Serve(s, op).0, m, c) && !c.PinWritten? {
          AsksChangeNothing(s, op, c);
        }
      }
  }

  /** Request `j` of the pass in progress confirmed the check, and none since has asked again. */
  ghost predicate ConfirmedAt(start: State, moves: seq<Move>, j: nat, c: Check) {
    && PassStart(moves) <= j < |moves| && Confirms(At(start, moves, j), moves[j], c)
    && forall i :: j < i < |moves| ==> !Asks(moves[i], c)
  }

  /** A check that counts as passed was passed by a request of the same pass, and by the last that asked. */
  lemma {:induction false} FlagWasConfirmed(start: State, moves: seq<Move>, c: Check) returns (j: nat)
    requires Initial(start) && Flag(Exec(start, moves).pass, c)
    ensures ConfirmedAt(start, moves, j, c)
  {
    hide Initial, Step, Confirms, Flag, Asks, Starts;
    if moves == [] {
      NothingChecked(start, c);
    } else {
      var k := |moves| - 1;
      var s := Exec(start, moves[..k]);
      FlagStep(s, moves[k], c);
      if Confirms(s, moves[k], c) {
        j := k;
        StartConfirmsNothing(s, moves[k], c);
      } else {
        j := FlagWasConfirmed(start, moves[..k], c);
        AtPrefix(start, moves, k, j);
      }
    }
  }

  lemma StartConfirmsNothing(s: State, m: Move, c: Check)
    requires Confirms(s, m, c)
    ensures !Starts(m)
  {}

  lemma NothingChecked(s: State, c: Check)
    requires Initial(s)
    ensures !Flag(s.pass, c)
  {}

  lemma SnapshotStep(s: State, m: Move)
    ensures Step(s, m).pass.inst == if Starts(m) then s.inst else s.pass.inst
    ensures Step(s, m).pass.host == if Starts(m) then m.op.selected else s.pass.host
    ensures Starts(m) ==> Step(s, m).inst == s.inst
  {
    hide EnvStep, Serve, Learn;
    match m
    case Other(act) => OthersKeepPass(s, act);
    case Request(op, fault) =>
      ServeKeepsPass(s, op);
      LearnSnapshot(Serve(s, op).0, op, Serve(s, op).1);
      if op.ReadInstance? {
        StartServes(s, op);
      }
  }

  lemma StartServes(s: State, op: Op)
    requires op.ReadInstance?
    ensures Serve(s, op).0 == s
  {}

  /** The instance as the pass in progress read it, and the host that was selected for it. */
  function Snapshot(start: State, moves: seq<Move>): Instance {
    if PassStart(moves) == 0 then start.inst else At(start, moves, PassStart(moves) - 1).inst
  }

  function SelectedHost(moves: seq<Move>): Option<string> {
    if PassStart(moves) == 0 then None else moves[PassStart(moves) - 1].op.selected
  }

  lemma {:induction false} SnapshotIsRead(start: State, moves: seq<Move>)
    requires Initial(start)
    ensures Exec(start, moves).pass.inst == Snapshot(start, moves) && Exec(start, moves).pass.host == SelectedHost(moves)
  {
    hide Initial, Step, Starts;
    if moves == [] {
      InitialSnapshot(start);
    } else {
      var k := |moves| - 1;
      SnapshotStep(Exec(start, moves[..k]), moves[k]);
      SnapshotIsRead(start, moves[..k]);
      if !Starts(moves[k]) && PassStart(moves) > 0 {
        AtPrefix(start, moves, k, PassStart(moves) - 1);
      }
    }
  }

  lemma InitialSnapshot(s: State)
    requires Initial(s)
    ensures s.pass.inst == s.inst && s.pass.host.None?
  {}

  /** In the pass in progress a request confirmed the check. */
  ghost predicate Confirmed(start: State, moves: seq<Move>, c: Check) { exists j :: ConfirmedAt(start, moves, j, c) }

  lemma FlagConfirmed(start: State, moves: seq<Move>, c: Check)
    requires Initial(start) && Flag(Exec(start, moves).pass, c)
    ensures Confirmed(start, moves, c)
  {
    var j := FlagWasConfirmed(start, moves, c);
  }

  /** The snapshot of the pass asks for an allowed image and at most one replica, and a request of
      the pass found no workload with another image. */
  ghost predicate AdmittedPass(start: State, moves: seq<Move>) {
    && ImageAllowed(Snapshot(start, moves).spec.image) && Snapshot(start, moves).spec.replicas <= 1
    && Confirmed(start, moves, ImageApproved)
  }

  /** And the last list of Ingresses left the host that was selected for the pass unclaimed. */
  ghost predicate CheckedPass(start: State, moves: seq<Move>) {
    && AdmittedPass(start, moves) && SelectedHost(moves).Some?
    && Confirmed(start, moves, HostUnclaimed(SelectedHost(moves).value))
  }

  lemma AdmittedWasChecked(start: State, moves: seq<Move>)
    requires Initial(start) && Admitted(Exec(start, moves).pass)
    ensures AdmittedPass(start, moves)
  {
    hide Initial, Exec;
    SnapshotIsRead(start, moves);
    FlagConfirmed(start, moves, ImageApproved);
  }

  lemma MayReadWasChecked(start: State, moves: seq<Move>)
    requires Initial(start) && MayRead(Exec(start, moves))
    ensures CheckedPass(start, moves)
  {
    hide Initial, Exec, Admitted, AdmittedPass;
    SnapshotIsRead(start, moves);
    AdmittedWasChecked(start, moves);
    FlagConfirmed(start, moves, HostUnclaimed(SelectedHost(moves).value));
  }

  /** Reading a credential, creating, deleting or pinning a Secret, creating the Deployment, changing its
      template or giving it pods, writing the Service or the Ingress, and saving a settled status. */
  predicate NeedsChecks(op: Op) {
    || op.ReadCredential? || op.ReadSecret? || op.CreateSecret? || op.DeleteSecret? || op.PatchPins?
    || op.CreateDeployment? || (op.UpdateDeployment? && (op.template != op.was.template || op.replicas > 0))
    || op.CreateService? || op.UpdateService? || op.CreateIngress? || op.UpdateIngress? || op.PutStatus?
  }

  lemma NeededAreAllowed(s: State, op: Op)
    requires Allowed(s, op) && NeedsChecks(op)
    ensures MayRead(s)
  {
    hide MayRead, Permissible, MayUpdate, PinStep, UnpinStep, RoutesHost;
  }

  lemma AllowedAt(start: State, moves: seq<Move>, k: nat)
    requires Legal(start, moves) && k < |moves| && moves[k].Request?
    ensures Allowed(At(start, moves, k), moves[k].op)
  {
    hide Allowed, Legal, Exec;
    AtPermitted(start, moves, k);
  }

  /** Every credential is read, and every resource created, only after the image, replica and hostname
      checks of the same pass, and the hostname check was made for the host that was selected for it. */
  lemma CredentialsAreReadAfterChecks(start: State, moves: seq<Move>, k: nat)
    requires Initial(start) && Legal(start, moves) && k < |moves| && moves[k].Request? && NeedsChecks(moves[k].op)
    ensures CheckedPass(start, moves[..k])
  {
    hide Exec, Legal, Initial, CheckedPass, Allowed, NeedsChecks, MayRead;
    AllowedAt(start, moves, k);
    NeededAreAllowed(At(start, moves, k), moves[k].op);
    MayReadWasChecked(start, moves[..k]);
  }

  lemma SaveMeans(s: State, op: Op)
    requires Allowed(s, op) && op.PutStatus?
    ensures MayRead(s) && ShowsHost(s.pass, op.status.url) && Dated(s, op.status) && op.status.pins == Pins(s)
    ensures op.status.condition.ready ==>
      Flag(s.pass, RolledOutFully) && Flag(s.pass, HasEndpoints) && Flag(s.pass, IsHealthy) && Flag(s.pass, Resolves)
  {
    hide MayRead, ShowsHost, Dated;
  }

  predicate ShownFor(host: Option<string>, url: string) {
    host.Some? && (url == "https://" + host.value || url == "http://" + host.value)
  }

  /** Every write of a ready status, whatever was stored before, follows every check of the same pass,
      and it shows the address of the host that the pass found unclaimed. */
  lemma ReadyIsWrittenAfterChecks(start: State, moves: seq<Move>, k: nat)
    requires Initial(start) && Legal(start, moves) && k < |moves|
    requires moves[k].Request? && moves[k].op.PutStatus? && moves[k].op.status.condition.ready
    ensures CheckedPass(start, moves[..k]) && ShownFor(SelectedHost(moves[..k]), moves[k].op.status.url)
    ensures Confirmed(start, moves[..k], RolledOutFully) && Confirmed(start, moves[..k], HasEndpoints)
    ensures Confirmed(start, moves[..k], IsHealthy) && Confirmed(start, moves[..k], Resolves)
  {
    hide Exec, Legal, Initial, CheckedPass, Confirmed, Allowed, MayRead, Flag, SelectedHost;
    AllowedAt(start, moves, k);
    SaveMeans(At(start, moves, k), moves[k].op);
    MayReadWasChecked(start, moves[..k]);
    SnapshotIsRead(start, moves[..k]);
    FlagConfirmed(start, moves[..k], RolledOutFully);
    FlagConfirmed(start, moves[..k], HasEndpoints);
    FlagConfirmed(start, moves[..k], IsHealthy);
    FlagConfirmed(start, moves[..k], Resolves);
  }

  lemma BecomesReady(s: State, op: Op, fault: Fault)
    requires Allowed(s, op) && !s.inst.status.condition.ready && After(s, op, fault).0.inst.status.condition.ready
    ensures op.PutStatus? && op.status.condition.ready
  {
    hide Serve, Learn, Allowed;
    LearnSnapshot(Serve(s, op).0, op, Serve(s, op).1);
    if WritesInstance(op) {
      StatusTurns(s, op);
    } else {
      RestKeepsInstance(s, op);
    }
  }

  lemma StatusTurns(s: State, op: Op)
    requires Allowed(s, op) && WritesInstance(op) && Serve(s, op).0.inst.status.condition.ready && !s.inst.status.condition.ready
    ensures op.PutStatus? && op.status.condition.ready
  {
    hide MayRead, Ready, ShowsHost, Dated, PinStep, UnpinStep;
  }

  /** So the stored status turns ready only by such a write. */
  lemma ReadyTurnsTrueByAWrite(start: State, moves: seq<Move>, k: nat)
    requires Initial(start) && Legal(start, moves) && k < |moves|
    requires !At(start, moves, k).inst.status.condition.ready && At(start, moves, k + 1).inst.status.condition.ready
    ensures moves[k].Request? && moves[k].op.PutStatus? && moves[k].op.status.condition.ready
  {
    hide Exec, Legal, Initial, Good, Allowed, After, EnvStep;
    AtStep(start, moves, k);
    AtGood(start, moves, k);
    var s := At(start, moves, k);
    match moves[k] {
      case Other(act) => OthersKeepStatus(s, act);
      case Request(op, fault) =>
        AllowedAt(start, moves, k);
        BecomesReady(s, op, fault);
    }
  }

  lemma OthersKeepStatus(s: State, a: Act)
    requires Good(s)
    ensures EnvStep(s, a).inst.status == s.inst.status
  {
    hide Good;
    EnvActSafe(s, a);
  }

  /** What a request leaves as the Ingress, if it writes one. */
  lemma RouteServes(s: State, op: Op)
    requires WritesRoute(op)
    ensures Serve(s, op) == ServeRoute(s, op)
  {
    hide ServeRoute;
  }

  lemma RouteBody(s: State, op: Op)
    requires ServeRoute(s, op).0.ingress != s.ingress && ServeRoute(s, op).0.ingress.Some?
    ensures (op.CreateIngress? || op.UpdateIngress?) && ServeRoute(s, op).0.ingress.value.body == op.body
  {}

  lemma RouteIsWritten(s: State, op: Op)
    requires Serve(s, op).0.ingress != s.ingress && Serve(s, op).0.ingress.Some?
    ensures (op.CreateIngress? || op.UpdateIngress?) && Serve(s, op).0.ingress.value.body == op.body
  {
    hide Serve, ServeRoute;
    ServeFrames(s, op);
    if WritesRoute(op) {
      RouteServes(s, op);
      RouteBody(s, op);
    }
  }

  lemma RouteIsAllowed(s: State, op: Op)
    requires Allowed(s, op) && (op.CreateIngress? || op.UpdateIngress?)
    ensures MayRead(s) && RoutesHost(s.pass, op.body)
  {
    hide MayRead, RoutesHost;
  }

  /** Only rules for this host, and no default backend. */
  predicate ServesOnly(i: Ingress, host: Option<string>) {
    && host.Some? && i.body.defaultBackend.None?
    && forall r :: 0 <= r < |i.body.rules| ==> i.body.rules[r].host == host.value
  }

  /** The controller publishes or edits a route only after all the checks, and the route serves exactly
      the host that the pass found unclaimed. */
  lemma RoutesArePublishedAfterChecks(start: State, moves: seq<Move>, k: nat)
    requires Initial(start) && Legal(start, moves) && k < |moves| && moves[k].Request?
    requires At(start, moves, k + 1).ingress != At(start, moves, k).ingress && At(start, moves, k + 1).ingress.Some?
    ensures CheckedPass(start, moves[..k]) && ServesOnly(At(start, moves, k + 1).ingress.value, SelectedHost(moves[..k]))
  {
    hide Exec, Legal, Initial, Allowed, Serve, Learn, CheckedPass, MayRead, SelectedHost;
    var s, op := At(start, moves, k), moves[k].op;
    AtStep(start, moves, k);
    AllowedAt(start, moves, k);
    LearnMine(Serve(s, op).0, op, Serve(s, op).1);
    RouteIsWritten(s, op);
    RouteIsAllowed(s, op);
    MayReadWasChecked(start, moves[..k]);
    SnapshotIsRead(start, moves[..k]);
  }

  // ---- what rests on the spec that was checked ----

  /** Somebody edited the instance since the pass in progress read it. */
  ghost predicate EditedSince(moves: seq<Move>) {
    exists j :: PassStart(moves) <= j < |moves| && moves[j].Other? && moves[j].act.OnInstance?
  }

  lemma GenerationStep(s: State, m: Move)
    ensures Step(s, m).inst.generation != s.inst.generation ==> m.Other? && m.act.OnInstance?
  {
    hide EnvStep, Serve, Learn;
    match m
    case Other(act) => OthersKeepGeneration(s, act);
    case Request(op, fault) =>
      ServeKeepsGeneration(s, op);
      LearnSnapshot(Serve(s, op).0, op, Serve(s, op).1);
  }

  lemma OthersKeepGeneration(s: State, a: Act)
    ensures !a.OnInstance? ==> EnvStep(s, a).inst == s.inst
  {
    hide SecretStep, WorkStep, IngressStep, NoBundles, Store, Lookup;
  }

  lemma ServeKeepsGeneration(s: State, op: Op)
    ensures Serve(s, op).0.inst.generation == s.inst.generation
  {
    hide Serve;
    ServeFrames(s, op);
  }

  lemma {:induction false} EditsAreMoves(start: State, moves: seq<Move>)
    requires Initial(start) && Exec(start, moves).inst.generation != Exec(start, moves).pass.inst.generation
    ensures EditedSince(moves)
  {
    hide Initial, Step, Starts;
    if moves == [] {
      InitialSnapshot(start);
    } else {
      var k := |moves| - 1;
      var s := Exec(start, moves[..k]);
      SnapshotStep(s, moves[k]);
      GenerationStep(s, moves[k]);
      if moves[k].Other? && moves[k].act.OnInstance? {
        assert !Starts(moves[k]) by { OthersStartNothing(moves[k]); }
      } else {
        EditsAreMoves(start, moves[..k]);
        var j :| PassStart(moves[..k]) <= j < k && moves[..k][j].Other? && moves[..k][j].act.OnInstance?;
        assert moves[j] == moves[..k][j];
      }
    }
  }

  lemma OthersStartNothing(m: Move)
    ensures m.Other? ==> !Starts(m)
  {}

  /** The status that a request carries. */
  function StatusOf(op: Op): Status
    requires op.PutStatus? || op.PatchStatus?
  {
    if op.PutStatus? then op.status else op.after
  }

  lemma StatusMeans(s: State, op: Op)
    requires Allowed(s, op) && (op.PutStatus? || op.PatchStatus?)
    ensures Dated(s, StatusOf(op)) && (op.PutStatus? ==> MayRead(s)) && (op.PatchStatus? ==> Closed(op.after))
  {
    hide MayRead, Dated, ShowsHost, Closed;
  }

  lemma SnapshotOlder(start: State, moves: seq<Move>)
    requires Initial(start) && Legal(start, moves)
    ensures Lineage(Snapshot(start, moves), Exec(start, moves).inst)
  {
    hide Initial, Legal, Exec, Good;
    LegalRunsSafe(start, moves);
    GoodSnapped(Exec(start, moves));
    SnapshotIsRead(start, moves);
  }

  /** The generation that a status reports is that of the spec which the pass read, and for a settled status also
      checked, unless somebody edited the instance during the pass; while the stored generation is that one, so is the spec. */
  lemma StatusesRestOnTheChecks(start: State, moves: seq<Move>, k: nat)
    requires Initial(start) && Legal(start, moves) && k < |moves| && moves[k].Request?
    requires moves[k].op.PutStatus? || moves[k].op.PatchStatus?
    ensures var g, was, now := StatusOf(moves[k].op).observed, Snapshot(start, moves[..k]), At(start, moves, k).inst;
      && was.generation <= g <= now.generation
      && (now.generation == was.generation ==> now.spec == was.spec)
      && (g != was.generation ==> EditedSince(moves[..k]))
      && (moves[k].op.PutStatus? ==> CheckedPass(start, moves[..k]))
  {
    hide Exec, Legal, Initial, Allowed, CheckedPass, MayRead, EditedSince, Snapshot;
    var s, op := At(start, moves, k), moves[k].op;
    AllowedAt(start, moves, k);
    StatusMeans(s, op);
    LegalPrefix(start, moves, k);
    SnapshotOlder(start, moves[..k]);
    SnapshotIsRead(start, moves[..k]);
    if s.inst.generation != s.pass.inst.generation {
      EditsAreMoves(start, moves[..k]);
    }
    if op.PutStatus? {
      MayReadWasChecked(start, moves[..k]);
    }
  }

  /** The template that a request writes, if it writes a new one. */
  predicate WritesTemplate(op: Op) { op.CreateDeployment? || (op.UpdateDeployment? && op.template != op.was.template) }

  lemma DeploymentMeans(s: State, op: Op)
    requires Allowed(s, op) && (op.CreateDeployment? || op.UpdateDeployment?)
    ensures ReplicasFit(s, op.replicas)
    ensures WritesTemplate(op) ==> RefsFit(s, op.template)
  {
    hide MayRead, ReplicasFit, RefsFit, Holds, NoneErased, BundlesManaged, DeploymentAsRead, AccessRefs;
  }

  /** More than one replica is asked for only if somebody edited the instance during the pass, and a template
      refers to a bundle that it does not mount only if, besides, the pass wrote a pin. */
  lemma DeploymentsRestOnTheChecks(start: State, moves: seq<Move>, k: nat)
    requires Initial(start) && Legal(start, moves) && k < |moves| && moves[k].Request?
    requires moves[k].op.CreateDeployment? || moves[k].op.UpdateDeployment?
    ensures moves[k].op.replicas > 1 ==> EditedSince(moves[..k])
    ensures WritesTemplate(moves[k].op) && !(AccessRefs(moves[k].op.template) <= BundleMounts(moves[k].op.template)) ==>
      EditedSince(moves[..k]) && Confirmed(start, moves[..k], PinWritten)
  {
    hide Exec, Legal, Initial, Allowed, EditedSince, Confirmed, AccessRefs, BundleMounts;
    var s := At(start, moves, k);
    AllowedAt(start, moves, k);
    DeploymentMeans(s, moves[k].op);
    if Edited(s) {
      EditsAreMoves(start, moves[..k]);
    }
    if s.pass.pinned {
      FlagConfirmed(start, moves[..k], PinWritten);
    }
  }

  // ---- objects of somebody else ----

  lemma LeavesForeign(s: State, op: Op)
    requires Allowed(s, op)
    ensures var t := Serve(s, op).0;
      && (s.work.deploy.Some? && !s.work.deploy.value.owned ==> t.work.deploy == s.work.deploy)
      && (s.ingress.Some? && !s.ingress.value.owned ==> t.ingress == s.ingress)
  {
    hide Allowed, Serve;
    if op.UpdateDeployment? {
      ForeignDeploymentStays(s, op);
    } else if op.DeleteIngress? || op.UpdateIngress? {
      ForeignIngressStays(s, op);
    } else {
      RestKeepsObjects(s, op);
    }
  }

  lemma ForeignDeploymentStays(s: State, op: Op)
    requires Allowed(s, op) && op.UpdateDeployment?
    ensures s.work.deploy.Some? && !s.work.deploy.value.owned ==> Serve(s, op).0.work.deploy == s.work.deploy
    ensures Serve(s, op).0.ingress == s.ingress
  {
    hide Permissible, MayRead, ReplicasFit, Stopped;
  }

  lemma ForeignIngressStays(s: State, op: Op)
    requires Allowed(s, op) && (op.DeleteIngress? || op.UpdateIngress?)
    ensures s.ingress.Some? && !s.ingress.value.owned ==> Serve(s, op).0.ingress == s.ingress
    ensures Serve(s, op).0.work == s.work
  {
    hide Merge, Stored, WithStatus, ServeCreateSecret, ServeDeleteSecret, ServePatchPins, ServeUpdateDeployment,
      DeploymentSpecs, ListedPods, ListedIngresses;
  }

  lemma CreationLeaves(s: State, op: Op)
    requires !op.UpdateDeployment?
    ensures s.work.deploy.Some? ==> ServeWork(s, op).0.work.deploy == s.work.deploy
  {}

  lemma PublishingLeaves(s: State, op: Op)
    requires !op.DeleteIngress? && !op.UpdateIngress?
    ensures s.ingress.Some? ==> ServeRoute(s, op).0.ingress == s.ingress
  {}

  lemma RestKeepsObjects(s: State, op: Op)
    requires !op.UpdateDeployment? && !op.DeleteIngress? && !op.UpdateIngress?
    ensures s.work.deploy.Some? ==> Serve(s, op).0.work.deploy == s.work.deploy
    ensures s.ingress.Some? ==> Serve(s, op).0.ingress == s.ingress
  {
    hide Serve, ServeRoute, ServeWork;
    ServeFrames(s, op);
    if WritesWork(op) {
      WorkServes(s, op);
      CreationLeaves(s, op);
    } else if WritesRoute(op) {
      RouteServes(s, op);
      PublishingLeaves(s, op);
    }
  }

  /** No request changes or removes a Deployment or an Ingress that the instance does not control,
      even if it was replaced under the same name after the controller read its own. */
  lemma ForeignObjectsStay(start: State, moves: seq<Move>, k: nat)
    requires Legal(start, moves) && k < |moves| && moves[k].Request?
    ensures var s, t := At(start, moves, k), At(start, moves, k + 1);
      && (s.work.deploy.Some? && !s.work.deploy.value.owned ==> t.work.deploy == s.work.deploy)
      && (s.ingress.Some? && !s.ingress.value.owned ==> t.ingress == s.ingress)
  {
    hide Exec, Legal, Allowed, Serve, Learn;
    var s := At(start, moves, k);
    AtStep(start, moves, k);
    AtPermitted(start, moves, k);
    LeavesForeign(s, moves[k].op);
    LearnMine(Serve(s, moves[k].op).0, moves[k].op, Serve(s, moves[k].op).1);
  }
}
