/** Legal runs that reach what the theorems leave open: a second deletion before the first pin is
    dropped, and a Deployment that rests on a spec which its pass never checked. Requests that only
    read and are noted nowhere are left out of them. */
module Witnesses {
  import opened Basics
  import opened Templates
  import opened Cluster
  import opened Safety
  import opened Runs
  import opened Pinning
  import opened History
  import A = Access
  import W = Workloads
  import R = Reconciling
  import Hostnames

  const HOST := "chat"
  const FIRST := Name.Access("1")
  const SECOND := Name.Access("2")
  const THIRD := Name.Access("3")
  const FOURTH := Name.Access("4")

  /** An instance that was never reconciled, under a schema that keeps everything. */
  function Beginning(): State {
    var inst := Instance(0, 1, Spec("", 1, Name.Other("backend")), true, false,
                         Status(map[], "", Hostnames.NoSource, "", "", Condition(false, "", 0), 0));
    State(1, 0, map[], None, inst, Workload(None, None, []), [], None, [], None, Probes(false, false, false),
          true, true, false, Cluster.History(map[], None, {}, {}, 0), NoChecks(inst, None))
  }

  lemma BeginningIsInitial()
    ensures Initial(Beginning()) && Good(Beginning()) && Reached(Beginning(), [], Beginning())
  {
    InitialGood(Beginning());
  }

  // ---- steps ----

  lemma Advance(start: State, moves: seq<Move>, s: State, op: Op) returns (more: seq<Move>, t: State)
    requires Reached(start, moves, s) && Good(s) && Allowed(s, op)
    ensures Reached(start, more, t) && Good(t) && more == moves + [Request(op, Clean)]
    ensures t == Learn(Serve(s, op).0, op, Serve(s, op).1)
  {
    hide Reached, Good, Allowed, Serve, Learn;
    RequestMeans(s, op);
    ReachedNext(start, moves, s, Request(op, Clean));
    more, t := moves + [Request(op, Clean)], Step(s, Request(op, Clean));
  }

  lemma RequestMeans(s: State, op: Op)
    ensures Allowed(s, op) ==> Permitted(s, Request(op, Clean))
    ensures Step(s, Request(op, Clean)) == Learn(Serve(s, op).0, op, Serve(s, op).1)
  {
    hide Allowed, Serve, Learn;
  }

  lemma OthersAct(start: State, moves: seq<Move>, s: State, a: Act) returns (more: seq<Move>, t: State)
    requires Reached(start, moves, s) && Good(s)
    ensures Reached(start, more, t) && Good(t) && more == moves + [Move.Other(a)] && t == EnvStep(s, a)
  {
    hide Reached, Good, EnvStep;
    ActMeans(s, a);
    ReachedNext(start, moves, s, Move.Other(a));
    more, t := moves + [Move.Other(a)], EnvStep(s, a);
  }

  lemma ActMeans(s: State, a: Act)
    ensures Permitted(s, Move.Other(a)) && Step(s, Move.Other(a)) == EnvStep(s, a)
  {
    hide EnvStep;
  }

  /** Only what the controller noted differs. */
  predicate OnlyNotes(s: State, t: State) { t == s.(pass := t.pass, past := s.past.(pending := None)) }

  /** A new pass with all its checks passed. */
  lemma NewPass(start: State, moves: seq<Move>, s: State) returns (more: seq<Move>, t: State)
    requires Reached(start, moves, s) && Good(s)
    requires ImageAllowed(s.inst.spec.image) && s.inst.spec.replicas <= 1 && s.work.deploy.None? && ListedIngresses(s) == []
    ensures moves <= more && Reached(start, more, t) && Good(t) && OnlyNotes(s, t) && MayRead(t) && t.pass.inst == s.inst && t.pass.host == Some(HOST)
  {
    hide Reached, Good, ListedIngresses, ImageAllowed, RolledOut;
    var m1, s1 := Advance(start, moves, s, ReadInstance(Some(HOST)));
    var m2, s2 := Advance(start, m1, s1, Op.ReadDeployment);
    SameList(s, s2);
    more, t := Advance(start, m2, s2, ListIngresses(HOST));
  }

  lemma SameList(s: State, t: State)
    requires t.ingress == s.ingress && t.routes == s.routes
    ensures ListedIngresses(t) == ListedIngresses(s)
  {}

  /** The state after creating a Secret and pinning it. */
  function WithBundle(s: State, n: Name, data: Data): State {
    s.(next := s.next + 2, secrets := s.secrets[n := Secret(s.next, s.next, true, true, false, false, s.clock + 1, data)],
       inst := s.inst.(rv := s.next + 1, status := s.inst.status.(pins := Pins(s)[n := s.next])),
       past := s.past.(mine := s.past.mine[s.next := Made(n, data)], gone := s.past.gone - {n}, pending := None),
       pass := s.pass.(pinned := true))
  }

  lemma AddSecret(start: State, moves: seq<Move>, s: State, n: Name, data: Data) returns (more: seq<Move>, t: State)
    requires Reached(start, moves, s) && Good(s) && MayRead(s) && PinRoom(Pins(s), n) && n !in s.secrets && s.keepsPins
    ensures Reached(start, more, t) && Good(t) && t == WithBundle(s, n, data) && MayRead(t)
    ensures |more| > 0 && more[|more| - 1].Request? && more[|more| - 1].op.PatchPins?
  {
    hide Reached, Good, Allowed, MayRead, PinRoom;
    CreateAllowed(s, n, data);
    var m1, s1 := Advance(start, moves, s, CreateSecret(n, data));
    SamePassReads(s, s1);
    PinAllowed(s1, s1.inst.rv, n, s.next);
    more, t := Advance(start, m1, s1, PatchPins(s1.inst.rv, Pins(s1)[n := s.next]));
    SamePassReads(s, t);
    SizeOfUpdate(Pins(s), n, s.next);
    assert Pins(s).Keys <= Pins(s1)[n := s.next].Keys;
  }

  lemma SamePassReads(s: State, t: State)
    requires t.pass == s.pass || t.pass == s.pass.(pinned := true)
    ensures MayRead(t) <==> MayRead(s)
  {}

  // ---- a second deletion ----

  /** The state after listing the workloads and deleting a bundle that none of them refers to. */
  function WithoutBundle(s: State, n: Name): State
    requires n in s.secrets
  {
    s.(secrets := s.secrets - {n}, past := s.past.(erased := s.past.erased + {s.secrets[n].uid}),
       pass := s.pass.(deployRefs := Some(RefsOf(s.others)), podRefs := Some(RefsOf(s.others))))
  }

  predicate Deletable(s: State, n: Name) {
    && n.Access? && n in Pins(s) && n in s.secrets && s.secrets[n].uid == Pins(s)[n]
    && s.secrets[n].owned && s.secrets[n].immutable && !s.secrets[n].held
    && s.work == Workload(None, None, []) && n !in RefsOf(s.others) && !s.solo
  }

  lemma ListsAreOthers(s: State)
    requires s.work == Workload(None, None, [])
    ensures DeploymentSpecs(s) == s.others && ListedPods(s) == s.others
  {}

  /** Both lists of the pass, of the workloads of others alone. */
  function AfterLists(s: State): State {
    s.(pass := s.pass.(deployRefs := Some(RefsOf(s.others)), podRefs := Some(RefsOf(s.others))))
  }

  lemma ListWorkloads(start: State, moves: seq<Move>, s: State) returns (more: seq<Move>, t: State)
    requires Reached(start, moves, s) && Good(s) && s.work == Workload(None, None, [])
    ensures moves <= more && Reached(start, more, t) && Good(t) && t == AfterLists(s) && (MayRead(t) <==> MayRead(s))
  {
    hide Reached, Good, MayRead, RefsOf, DeploymentSpecs, ListedPods;
    ListsAreOthers(s);
    var m1, s1 := Advance(start, moves, s, ListDeployments);
    ListsAreOthers(s1);
    more, t := Advance(start, m1, s1, ListPods);
    SameAdmissionReads(s, t);
  }

  lemma MayDelete(s: State, n: Name, room: Name)
    requires Good(s) && MayRead(s) && Deletable(s, n) && room !in Pins(s)
    ensures Allowed(AfterLists(s), DeleteSecret(n, s.secrets[n], room))
  {
    hide Good, MayRead, RefsOf;
    SameAdmissionReads(s, AfterLists(s));
    FreshSecret(s, n);
  }

  lemma Deletes(s: State, n: Name, room: Name)
    requires n in s.secrets && !s.secrets[n].held
    ensures var op := DeleteSecret(n, s.secrets[n], room);
      Learn(Serve(AfterLists(s), op).0, op, Serve(AfterLists(s), op).1) == WithoutBundle(s, n)
  {
    hide RefsOf;
  }

  lemma DeleteBundle(start: State, moves: seq<Move>, s: State, n: Name, room: Name) returns (more: seq<Move>, t: State)
    requires Reached(start, moves, s) && Good(s) && MayRead(s) && Deletable(s, n) && room !in Pins(s)
    ensures moves < more && Exec(start, more[..|more| - 1]) == AfterLists(s)
    ensures more[|more| - 1] == Request(DeleteSecret(n, s.secrets[n], room), Clean)
    ensures Reached(start, more, t) && Good(t) && t == WithoutBundle(s, n)
  {
    hide Good, MayRead, Allowed, AfterLists, WithoutBundle, Serve, Learn, Exec, Legal, Initial;
    var m1, s1 := ListWorkloads(start, moves, s);
    MayDelete(s, n, room);
    DeletableMeans(s, n);
    Deletes(s, n, room);
    more, t := Advance(start, m1, s1, DeleteSecret(n, s.secrets[n], room));
    assert more[..|more| - 1] == m1;
  }

  lemma DeletableMeans(s: State, n: Name)
    requires Deletable(s, n)
    ensures n in s.secrets && !s.secrets[n].held && s.work == Workload(None, None, [])
  {}

  lemma SameAdmissionReads(s: State, t: State)
    requires t.pass == s.pass.(deployRefs := t.pass.deployRefs, podRefs := t.pass.podRefs)
    ensures MayRead(t) <==> MayRead(s)
  {}

  lemma FreshSecret(s: State, n: Name)
    requires Good(s) && n in s.secrets
    ensures s.secrets[n].rv < s.next
  {
    hide Genuine, PinsOurs, PinsBounded, OneTemplate, MountsPinned, ErasedMarked, ErasedBundles, Counted, Snapped, Alone;
  }

  /** A workload that refers to one Secret. */
  function Mounting(n: Name): PodSpec { PodSpec([], [], [], [SecretVolume("bundle", n, None)], [], "", false, false, false, "") }

  lemma MountingRefs(n: Name)
    ensures RefsOf([Mounting(n)]) == {n} && RefsOf([]) == {}
  {
    var spec := Mounting(n);
    assert spec.volumes[0] in spec.volumes && n in VolumeRefs(spec.volumes[0]);
    assert SecretRefs(spec) == {n};
    assert [spec][0] == spec;
  }

  /** Exactly these Secrets exist; all are pinned, of one age, and none was deleted. */
  predicate Holding(s: State, names: set<Name>) {
    && Pins(s).Keys == names && s.secrets.Keys == names
    && (forall n :: n in names ==>
          && s.secrets[n].uid == Pins(s)[n] < s.next && s.secrets[n].owned && s.secrets[n].immutable && !s.secrets[n].held
          && s.secrets[n].created == s.clock + 1)
    && (forall m, n :: m in names && n in names && m != n ==> Pins(s)[m] != Pins(s)[n])
  }

  /** Nothing else happened. */
  predicate Untouched(s: State) {
    && s.past.erased == {} && s.past.retired == 0 && s.work == Workload(None, None, []) && s.others == [] && !s.solo
    && s.ingress.None? && s.routes == [] && s.inst.spec == Beginning().inst.spec && s.inst.generation == 1 && s.keepsPins && s.keepsSlug
  }

  lemma HoldingMore(s: State, names: set<Name>, n: Name, data: Data)
    requires Holding(s, names) && Untouched(s) && n !in names
    ensures Holding(WithBundle(s, n, data), names + {n}) && Untouched(WithBundle(s, n, data))
  {}

  lemma HoldingRoom(s: State, names: set<Name>, n: Name)
    requires Holding(s, names) && n !in names && |names| <= MAX_BUNDLES
    requires if n.Session? then names == {} else n.Access? && Name.Session in names
    ensures PinRoom(Pins(s), n) && n !in s.secrets
  {
    assert |Pins(s)| == |Pins(s).Keys|;
    if n.Session? {
      assert Pins(s) == map[];
    }
  }

  lemma HoldingNotes(s: State, t: State, names: set<Name>)
    requires OnlyNotes(s, t) && Holding(s, names) && Untouched(s)
    ensures Holding(t, names) && Untouched(t)
  {}

  /** One more bundle. */
  lemma Fill(start: State, moves: seq<Move>, s: State, names: set<Name>, n: Name) returns (more: seq<Move>, t: State)
    requires Reached(start, moves, s) && Good(s) && MayRead(s) && Holding(s, names) && Untouched(s) && n !in names && |names| <= MAX_BUNDLES
    requires if n.Session? then names == {} else n.Access? && Name.Session in names
    ensures Reached(start, more, t) && Good(t) && MayRead(t) && Holding(t, names + {n}) && Untouched(t)
  {
    hide Reached, Good, MayRead, Holding, PinRoom;
    HoldingRoom(s, names, n);
    more, t := AddSecret(start, moves, s, n, map[]);
    HoldingMore(s, names, n, map[]);
  }

  lemma Begin() returns (moves: seq<Move>, s: State)
    ensures Reached(Beginning(), moves, s) && Good(s) && MayRead(s) && Holding(s, {}) && Untouched(s)
  {
    hide Reached, Good, MayRead, Initial;
    BeginningIsInitial();
    moves, s := NewPass(Beginning(), [], Beginning());
  }

  const ALL := {Name.Session, FIRST, SECOND, THIRD}

  lemma FillHistory() returns (moves: seq<Move>, s: State)
    ensures Reached(Beginning(), moves, s) && Good(s) && MayRead(s) && Holding(s, ALL) && Untouched(s)
  {
    hide Reached, Good, MayRead, Initial, Holding, Untouched, Beginning;
    NamesDiffer();
    var m1, s1 := Begin();
    var m2, s2 := Fill(Beginning(), m1, s1, {}, Name.Session);
    var m3, s3 := Fill(Beginning(), m2, s2, {} + {Name.Session}, FIRST);
    var m4, s4 := Fill(Beginning(), m3, s3, {} + {Name.Session} + {FIRST}, SECOND);
    moves, s := Fill(Beginning(), m4, s4, {} + {Name.Session} + {FIRST} + {SECOND}, THIRD);
    assert {} + {Name.Session} + {FIRST} + {SECOND} + {THIRD} == ALL;
  }

  lemma NamesDiffer()
    ensures FIRST != SECOND && SECOND != THIRD && FIRST != THIRD && FOURTH !in ALL
  {
    assert "1"[0] != "2"[0] && "2"[0] != "3"[0] && "1"[0] != "3"[0] && "4"[0] != "1"[0] && "4"[0] != "2"[0] && "4"[0] != "3"[0];
  }

  lemma RevisionsOrdered()
    ensures Less("1", "2") && Less("2", "3") && Less("1", "3")
  {}

  lemma EldestOfTwo(s: State)
    requires Pins(s).Keys == {Name.Session, FIRST, SECOND, THIRD} && FIRST in InUse(s) && SECOND !in InUse(s)
    requires SECOND in s.secrets && THIRD in s.secrets && s.secrets[SECOND].created == s.secrets[THIRD].created
    ensures IsEldest(s, SECOND)
  {
    hide InUse;
    RevisionsOrdered();
    forall m | m in Idle(s) && m != SECOND ensures Before(CandidateOf(s, SECOND), CandidateOf(s, m)) {
      assert m == THIRD;
    }
  }

  lemma EldestOfThree(s: State)
    requires Holding(s, ALL) && Untouched(s)
    ensures IsEldest(s, FIRST)
  {
    hide SecretRefs;
    RevisionsOrdered();
    NamesDiffer();
    forall m | m in Idle(s) && m != FIRST ensures Before(CandidateOf(s, FIRST), CandidateOf(s, m)) {
      assert m == SECOND || m == THIRD;
    }
  }

  /** Where the first deletion leaves the history, when another workload refers to the deleted bundle. */
  predicate Referred(s: State, t: State) {
    && Pins(t).Keys == ALL && t.secrets == s.secrets - {FIRST} && t.work == Workload(None, None, [])
    && t.others == [Mounting(FIRST)] && !t.solo && t.inst == s.inst && t.past.erased == {Pins(s)[FIRST]} && t.past.retired == 0
    && t.ingress.None? && t.routes == []
  }

  /** What the rest of the run needs to know of the state after the first deletion. */
  lemma FirstGone(s: State)
    requires Holding(s, ALL) && Untouched(s)
    ensures Deletable(s, FIRST)
    ensures Referred(s, EnvStep(WithoutBundle(s, FIRST), OnRest(Rest(None, [Mounting(FIRST)], [], None, s.probes))))
  {
    NamesDiffer();
    MountingRefs(FIRST);
  }

  lemma ListsKeepEldest(s: State, n: Name)
    requires IsEldest(s, n)
    ensures IsEldest(AfterLists(s), n)
  {
    hide RefsOf, Before;
    assert Idle(AfterLists(s)) == Idle(s);
  }

  /** This request of the run deletes the bundle, which is the eldest idle one. */
  ghost predicate DeletesEldest(moves: seq<Move>, k: nat, n: Name) {
    && k < |moves| && moves[k].Request? && moves[k].op.DeleteSecret? && moves[k].op.name == n
    && IsEldest(Exec(Beginning(), moves[..k]), n)
  }

  lemma DeletionKept(moves: seq<Move>, more: seq<Move>, k: nat, n: Name)
    requires DeletesEldest(moves, k, n) && moves <= more
    ensures DeletesEldest(more, k, n)
  {
    hide Exec, IsEldest, Beginning;
    assert moves[..k] == more[..k];
  }

  lemma FirstDeletion() returns (moves: seq<Move>, j: nat, s: State, t: State)
    ensures Reached(Beginning(), moves, t) && Good(t) && Holding(s, ALL) && Untouched(s) && Referred(s, t) && DeletesEldest(moves, j, FIRST)
  {
    hide Reached, Good, MayRead, Initial, Holding, Untouched, Beginning, Legal, Exec, Deletable, WithoutBundle, AfterLists, IsEldest, EnvStep;
    NamesDiffer();
    var m1, s1 := FillHistory();
    FirstGone(s1);
    HoldingPins(s1, FOURTH);
    EldestOfThree(s1);
    ListsKeepEldest(s1, FIRST);
    var m2, s2 := DeleteBundle(Beginning(), m1, s1, FIRST, FOURTH);
    moves, t := OthersAct(Beginning(), m2, s2, OnRest(Rest(None, [Mounting(FIRST)], [], None, s1.probes)));
    j, s := |m2| - 1, s1;
    DeletionKept(m2, moves, j, FIRST);
  }

  /** The controller deletes the eldest idle bundle and is cut off before it drops the pin; another workload then
      refers to the deleted bundle; the next pass deletes the eldest of the others. Two deletions, no pin dropped. */
  lemma SecondDeletionHappens() returns (moves: seq<Move>, j: nat, k: nat)
    ensures Initial(Beginning()) && Legal(Beginning(), moves) && j < k == |moves| - 1
    ensures DeletesEldest(moves, j, FIRST) && DeletesEldest(moves, k, SECOND)
    ensures var s, t := Exec(Beginning(), moves[..k]), Exec(Beginning(), moves);
      SECOND in s.secrets && ReferredAgain(s, FIRST) && NoneHeld(s.secrets) && |t.past.erased| == t.past.retired + 2
  {
    hide Reached, Good, MayRead, Initial, Holding, Untouched, Beginning, Legal, Exec, Deletable, WithoutBundle, AfterLists, IsEldest,
      ReferredAgain, NoneHeld;
    var m1, first, s, t := FirstDeletion();
    SpecStays(s);
    NoIngresses(t);
    var m2, u := NewPass(Beginning(), m1, t);
    SecondNext(s, t, u);
    var m3, v := DeleteBundle(Beginning(), m2, u, SECOND, FOURTH);
    moves, j, k := m3, first, |m3| - 1;
    ReachedMeans(Beginning(), moves, v);
    DeletionKept(m1, moves, j, FIRST);
  }

  lemma ReachedMeans(start: State, moves: seq<Move>, s: State)
    requires Reached(start, moves, s)
    ensures Initial(start) && Legal(start, moves) && s == Exec(start, moves)
  {
    hide Initial, Legal, Exec;
  }

  lemma HoldingPins(s: State, n: Name)
    requires Holding(s, ALL)
    ensures n !in ALL ==> n !in Pins(s)
  {}

  lemma NoIngresses(s: State)
    requires s.ingress.None? && s.routes == []
    ensures ListedIngresses(s) == []
  {}

  lemma SpecStays(s: State)
    requires Untouched(s)
    ensures ImageAllowed(s.inst.spec.image) && s.inst.spec.replicas <= 1
  {}

  /** The second deletion: what it finds, and what it leaves. */
  lemma SecondNext(s: State, t: State, u: State)
    requires Holding(s, ALL) && OnlyNotes(t, u) && Referred(s, t)
    ensures Deletable(u, SECOND) && FOURTH !in Pins(u)
    ensures IsEldest(AfterLists(u), SECOND) && ReferredAgain(AfterLists(u), FIRST) && NoneHeld(AfterLists(u).secrets)
    ensures SECOND in AfterLists(u).secrets
    ensures |WithoutBundle(u, SECOND).past.erased| == WithoutBundle(u, SECOND).past.retired + 2
  {
    hide RefsOf, Before, IsEldest;
    NamesDiffer();
    MountingRefs(FIRST);
    ListsAreOthers(u);
    ListsAreOthers(AfterLists(u));
    EldestOfTwo(AfterLists(u));
    assert WithoutBundle(u, SECOND).past.erased == {Pins(s)[FIRST], Pins(s)[SECOND]};
  }

  // ---- a spec that nothing checked ----

  const NEWER := Spec("", 5, FIRST)

  /** Two bundles pinned, the second by the pass in progress; then somebody edits the spec. */
  lemma Edit(s: State, names: set<Name>)
    requires Holding(s, names) && Untouched(s) && s.pass.inst.generation == 1 && s.pass.pinned && MayRead(s)
    ensures var t := EnvStep(s, OnInstance(NEWER, false));
      && Holding(t, names) && t.pass == s.pass && t.past.erased == {} && !t.solo && t.work == Workload(None, None, []) && t.keepsSlug
      && MayRead(t) && Edited(t) && t.inst.spec == NEWER && t.inst.generation == 2
  {}

  function TemplateOf(cfg: R.Operator, checksum: string, copy: Instance): PodTemplate {
    W.Desired(cfg.settings, SUPPORTED_IMAGE, checksum, copy.spec.secretRef, A.Bundle(SECOND, R.Url(cfg, HOST)))
  }

  /** The template that the code computes from the copy read back mounts one bundle and refers to two. */
  lemma TemplateRefers(cfg: R.Operator, checksum: string, copy: Instance)
    requires copy.spec.secretRef == FIRST
    ensures var t := TemplateOf(cfg, checksum, copy);
      BundleMounts(t) == {SECOND} && AccessRefs(t) == {SECOND, FIRST} && BundlesManaged(t)
  {
    hide W.Desired, BundleMounts, AccessRefs, BundlesManaged;
    var b := A.Bundle(SECOND, R.Url(cfg, HOST));
    var pod := W.PodFor(cfg.settings, SUPPORTED_IMAGE, checksum, FIRST, b);
    W.PodsClean(cfg.settings, SUPPORTED_IMAGE, checksum, FIRST, b);
    W.BeyondTheBundle(pod, cfg.settings, SUPPORTED_IMAGE, checksum, FIRST, b);
    W.MergedRefs(pod, cfg.settings, SUPPORTED_IMAGE, checksum, FIRST, b);
  }

  lemma MayDeploy(s: State, names: set<Name>, template: PodTemplate)
    requires Holding(s, names) && SECOND in names && s.past.erased == {} && !s.solo && MayRead(s) && Edited(s) && s.pass.pinned
    requires BundleMounts(template) == {SECOND} && BundlesManaged(template)
    ensures Allowed(s, CreateDeployment(template, 5))
  {
    hide MayRead, Edited, BundlesManaged, BundleMounts, AccessRefs;
  }

  lemma Deployed(s: State, template: PodTemplate)
    requires s.work.deploy.None?
    ensures var op := CreateDeployment(template, 5); var t := Learn(Serve(s, op).0, op, Serve(s, op).1);
      && t == s.(work := t.work, next := t.next) && t.work.deploy.Some?
      && t.work.deploy.value.template == template && t.work.deploy.value.replicas == 5
  {}

  lemma MaySettle(cfg: R.Operator, s: State)
    requires MayRead(s) && s.pass.host == Some(HOST) && s.pass.inst.generation <= s.inst.generation
    ensures Allowed(s, PutStatus(s.inst.rv, R.Settling(cfg, s.inst, HOST, false, "DeploymentProgressing")))
  {
    hide MayRead;
    Hostnames.TrimKeepsFirst(HOST);
  }

  lemma SettledStatus(cfg: R.Operator, s: State)
    requires s.keepsSlug
    ensures var x := R.Settling(cfg, s.inst, HOST, false, "DeploymentProgressing");
      var op := PutStatus(s.inst.rv, x); var t := Learn(Serve(s, op).0, op, Serve(s, op).1);
      t.work == s.work && t.pass == s.pass && t.inst.generation == s.inst.generation && t.inst.status.observed == s.inst.generation
  {}

  lemma Reread(s: State)
    ensures Allowed(s, RereadInstance) && Serve(s, RereadInstance) == (s, GotInstance(s.inst))
    ensures Learn(s, RereadInstance, GotInstance(s.inst)) == s
  {}

  lemma BundlePass(s: State, n: Name, data: Data)
    ensures WithBundle(s, n, data).pass == s.pass.(pinned := true)
  {}

  /** Up to the pin of the second bundle, in a pass of its own. */
  lemma PinTwo() returns (moves: seq<Move>, s: State)
    ensures Reached(Beginning(), moves, s) && Good(s) && Holding(s, {Name.Session, FIRST, SECOND}) && Untouched(s)
    ensures MayRead(s) && s.pass.pinned && s.pass.host == Some(HOST) && s.pass.inst.generation == 1
    ensures s.pass.inst.spec == Beginning().inst.spec
    ensures |moves| > 0 && moves[|moves| - 1].Request? && moves[|moves| - 1].op.PatchPins?
  {
    hide Reached, Good, MayRead, Initial, Holding, Beginning, PinRoom, WithBundle;
    NamesDiffer();
    var m1, s1 := Begin();
    var m2, s2 := Fill(Beginning(), m1, s1, {}, Name.Session);
    var m3, s3 := Fill(Beginning(), m2, s2, {} + {Name.Session}, FIRST);
    SpecStays(s3);
    NoIngresses(s3);
    var m4, s4 := NewPass(Beginning(), m3, s3);
    HoldingNotes(s3, s4, {} + {Name.Session} + {FIRST});
    HoldingRoom(s4, {} + {Name.Session} + {FIRST}, SECOND);
    moves, s := AddSecret(Beginning(), m4, s4, SECOND, map[]);
    HoldingMore(s4, {} + {Name.Session} + {FIRST}, SECOND, map[]);
    BundlePass(s4, SECOND, map[]);
    assert {} + {Name.Session} + {FIRST} + {SECOND} == {Name.Session, FIRST, SECOND};
  }

  /** The spec is edited between the write of a pin and its read-back: the copy read back is then of a spec
      that the pass never checked. The Deployment that the code computes from it asks for five replicas and
      refers to a bundle beyond the prepared one, and the status reports the new generation. */
  lemma UncheckedSpecIsApplied(cfg: R.Operator, checksum: string) returns (moves: seq<Move>, j: nat)
    ensures Initial(Beginning()) && Legal(Beginning(), moves) && 0 < j && j + 3 == |moves|
    ensures moves[j - 1].Request? && moves[j - 1].op.PatchPins? && moves[j] == Move.Other(OnInstance(NEWER, false))
    ensures moves[j + 1] == Request(RereadInstance, Clean)
    ensures var copy := Exec(Beginning(), moves[..j + 1]).inst;
      && copy.spec == NEWER && moves[j + 2].Request?
      && moves[j + 2].op == CreateDeployment(TemplateOf(cfg, checksum, copy), R.ReplicasOf(copy))
    ensures var t := Exec(Beginning(), moves);
      && t.pass.inst.spec == Beginning().inst.spec && t.pass.inst.generation == 1
      && t.work.deploy.Some? && t.work.deploy.value.replicas == 5
      && BundleMounts(t.work.deploy.value.template) == {SECOND} && AccessRefs(t.work.deploy.value.template) == {SECOND, FIRST}
  {
    hide Reached, Good, MayRead, Initial, Holding, Beginning, Legal, Exec, EnvStep, Allowed, Serve, Learn, TemplateOf, BundleMounts, AccessRefs,
      Edited, Untouched, BundlesManaged;
    BeginningIsInitial();
    var m1, s1 := PinTwo();
    Edit(s1, {Name.Session, FIRST, SECOND});
    var m2, s2 := OthersAct(Beginning(), m1, s1, OnInstance(NEWER, false));
    Reread(s2);
    var m3, s3 := Advance(Beginning(), m2, s2, RereadInstance);
    TemplateRefers(cfg, checksum, s2.inst);
    MayDeploy(s2, {Name.Session, FIRST, SECOND}, TemplateOf(cfg, checksum, s2.inst));
    Deployed(s2, TemplateOf(cfg, checksum, s2.inst));
    var m4, s4 := Advance(Beginning(), m3, s3, CreateDeployment(TemplateOf(cfg, checksum, s2.inst), 5));
    moves, j := m4, |m1|;
    ReachedMeans(Beginning(), m2, s2);
    ReachedMeans(Beginning(), m4, s4);
    assert moves[..j + 1] == m2;
  }

  /** And the status that is saved next reports the generation of the unchecked spec. */
  lemma UncheckedGenerationIsReported(cfg: R.Operator, checksum: string) returns (moves: seq<Move>)
    ensures Initial(Beginning()) && Legal(Beginning(), moves) && |moves| > 0
    ensures moves[|moves| - 1].Request? && moves[|moves| - 1].op.PutStatus?
    ensures var t := Exec(Beginning(), moves);
      t.pass.inst.generation == 1 && t.inst.generation == 2 && t.inst.status.observed == 2
  {
    hide Reached, Good, MayRead, Initial, Holding, Beginning, Legal, Exec, EnvStep, Allowed, Serve, Learn, Edited, Untouched;
    BeginningIsInitial();
    var m1, s1 := PinTwo();
    Edit(s1, {Name.Session, FIRST, SECOND});
    var m2, s2 := OthersAct(Beginning(), m1, s1, OnInstance(NEWER, false));
    Reread(s2);
    var m3, s3 := Advance(Beginning(), m2, s2, RereadInstance);
    MaySettle(cfg, s3);
    SettledStatus(cfg, s3);
    var m4, s4 := Advance(Beginning(), m3, s3, PutStatus(s3.inst.rv, R.Settling(cfg, s3.inst, HOST, false, "DeploymentProgressing")));
    moves := m4;
    ReachedMeans(Beginning(), m4, s4);
  }
}
