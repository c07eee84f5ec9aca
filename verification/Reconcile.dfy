/** One reconcile pass (internal/controller/chatuiinstance_controller.go). Whatever it finds
    wrong, it withdraws the route, stops the workload and says so in the status. */
module Reconciling {
  import opened Basics
  import opened Cluster
  import opened Safety
  import opened Runs
  import opened Server
  import opened Pinning
  import opened Access
  import opened Workloads
  import opened Routes
  import History
  import Hostnames
  import Ingresses

  // ---- status ----

  /** Closed, with this phase and reason. */
  predicate Says(x: Status, phase: string, reason: string) { Closed(x) && x.phase == phase && x.condition.reason == reason }

  function Denying(x: Status, phase: string, reason: string, generation: nat): Status {
    x.(url := "", phase := phase, observed := generation, condition := Condition(false, reason, generation))
  }

  /** The patch between two copies of a faithful memory stores what the schema keeps of the second copy. */
  lemma MergeFaithful(s: State, before: Status, after: Status)
    requires Shows(s, before)
    ensures SameButPins(Stored(s, Merge(before, after, s.inst.status)), Stored(s, after))
    ensures Merge(before, after, s.inst.status).pins == s.inst.status.pins
  {}

  /** Only the instance's status and resource version differ. */
  predicate OnlyStatus(s: State, t: State) {
    t == s.(inst := s.inst.(rv := t.inst.rv, status := t.inst.status), next := t.next) && Pins(t) == Pins(s)
  }

  ghost predicate StatusKept(s: State, t: State) {
    && Pins(t) == Pins(s) && t.past.erased == s.past.erased && t.solo == s.solo && SameAdmission(s, t)
    && (Unowned(s.ingress) ==> Unowned(t.ingress))
  }

  lemma StatusKeptTransitive(s: State, t: State, u: State)
    ensures StatusKept(s, s) && (StatusKept(s, t) && StatusKept(t, u) ==> StatusKept(s, u))
  {}

  lemma RelyStatus(s: State, t: State)
    requires Rely(s, t)
    ensures StatusKept(s, t) && t.inst.status == s.inst.status && t.pass == s.pass
  {
    hide SameWorkload, SameSecrets;
  }

  lemma StatusWritten(s: State, t: State)
    requires t == s || OnlyStatus(s, t)
    ensures StatusKept(s, t) && t.work == s.work && SameRouting(s, t) && t.pass == s.pass
  {}

  lemma PatchStatusServed(s: State, before: Status, after: Status, fault: Fault)
    ensures var (t, r) := After(s, PatchStatus(before, after), fault);
      && StatusKept(s, t) && t.work == s.work && SameRouting(s, t) && t.pass == s.pass
      && (r == Failed || r == GotInstance(t.inst))
      && (t.inst.status == s.inst.status || t.inst.status == Stored(s, Merge(before, after, s.inst.status)))
      && (r != Failed ==> t.inst.status == Stored(s, Merge(before, after, s.inst.status)) && t.inst.spec == s.inst.spec)
      && (fault == Clean ==> r != Failed)
  {
    hide StatusKept, Merge;
    MergeKeepsPins(s, before, after);
    StatusWritten(s, After(s, PatchStatus(before, after), fault).0);
  }

  lemma MergeKeepsPins(s: State, before: Status, after: Status)
    ensures Stored(s, Merge(before, after, s.inst.status)).pins == s.inst.status.pins
  {}

  /** The Ingresses of the cluster are the same. */
  predicate SameRouting(s: State, t: State) { t.ingress == s.ingress && t.routes == s.routes }

  lemma SameHostFree(s: State, t: State, host: string)
    requires SameRouting(s, t)
    ensures HostFree(t, host) <==> HostFree(s, host)
  {
    assert ListedIngresses(t) == ListedIngresses(s);
  }

  lemma RoutingTransitive(s: State, t: State, u: State)
    ensures SameRouting(s, s) && (SameRouting(s, t) && SameRouting(t, u) ==> SameRouting(s, u))
  {}

  /** A closed status of the generation in memory may be written. */
  lemma PatchAllowed(s: State, inst: Instance, before: Status, after: Status)
    requires Closed(after) && Traced(s, inst) && after.observed == inst.generation && after.condition.observed == inst.generation
    ensures Allowed(s, PatchStatus(before, after))
  {}

  lemma StoredSpecOrdinary(s: State)
    requires Good(s)
    ensures Ordinary(s, s.inst) && Stored(s, s.inst.status) == s.inst.status
  {
    hide Fresh, Genuine, OneTemplate, MountsPinned, PinsOurs, PinsBounded, Counted, ErasedMarked, ErasedBundles;
  }

  lemma VouchedMeans(s: State, inst: Instance)
    ensures Vouched(s, inst) <==> Ordinary(s, inst) && Traced(s, inst) && Shows(s, inst.status)
    ensures Pins(s) == s.inst.status.pins
  {}

  lemma VouchedSame(s: State, t: State, inst: Instance)
    requires t.inst.status == s.inst.status && t.solo == s.solo && SameAdmission(s, t)
    ensures Vouched(s, inst) ==> Vouched(t, inst)
    ensures Traced(s, inst) ==> Traced(t, inst)
  {}

  lemma ShowsMeans(s: State, t: State, x: Status)
    requires t.keepsSlug == s.keepsSlug
    ensures Shows(s, x) <==> SameButPins(s.inst.status, Stored(s, x))
    ensures Stored(t, x) == Stored(s, x)
  {}

  /** Decoded over the local copy, a reply to a faithful patch still shows what is stored. */
  lemma DecodedShows(s: State, t: State, before: Status, local: Instance)
    requires Shows(s, before) && t.keepsSlug == s.keepsSlug
    requires t.inst.status == Stored(s, Merge(before, local.status, s.inst.status))
    ensures Shows(t, Decoded(local, t.inst).status)
  {}

  lemma DecodedMeans(local: Instance, reply: Instance)
    ensures Decoded(local, reply).generation == reply.generation && Decoded(local, reply).spec == reply.spec
    ensures Decoded(local, reply).status.pins == reply.status.pins
    ensures Closed(reply.status) ==> Closed(Decoded(local, reply).status)
  {}

  /** Write a closed status: the change is made in memory, then sent as a patch whose reply is
      decoded over the copy in memory. */
  method PatchTo(api: ApiServer, mem: Memory, after: Status) returns (e: Option<Err>)
    requires api.Inv() && Traced(api.st, mem.inst) && Closed(after) && after.pins == mem.inst.status.pins
    requires after.observed == mem.inst.generation && after.condition.observed == mem.inst.generation
    modifies api, mem
    ensures api.Inv() && old(api.moves) <= api.moves && StatusKept(old(api.st), api.st) && Traced(api.st, mem.inst)
    ensures e.None? ==> mem.inst.status.pins == Pins(api.st)
    ensures e.None? && Vouched(old(api.st), old(mem.inst)) ==> Vouched(api.st, mem.inst) && Shows(api.st, after)
    ensures e.Some? ==> mem.inst == old(mem.inst).(status := after)
    ensures e.Some? ==> PartFailed(api.start, |old(api.moves)|, api.moves, StatusPart)
    ensures api.st.inst.status == old(api.st).inst.status
         || api.st.inst.status == Stored(old(api.st), Merge(old(mem.inst).status, after, old(api.st).inst.status))
    ensures Quiet(old(api.script)) ==>
      Quiet(api.script) && api.st.work == old(api.st).work && SameRouting(old(api.st), api.st)
    ensures old(api.script) == [] ==> api.script == [] && e.None?
  {
    hide *;
    var before := mem.inst.status;
    PatchAllowed(api.st, mem.inst, before, after);
    TracedMeans(api.st, mem.inst, mem.inst.(status := after));
    mem.inst := mem.inst.(status := after);
    ghost var local := mem.inst;
    QuietCall(api.script);
    ghost var fault := Head(api.script).fault;
    var reply := api.Call(PatchStatus(before, after));
    RelyStatus(old(api.st), api.seen);
    PatchStatusServed(api.seen, before, after, fault);
    StatusKeptTransitive(old(api.st), api.seen, api.st);
    StatusKeptMeans(old(api.st), api.st);
    StatusKeptMeans(old(api.st), api.seen);
    TracedStays(old(api.st), api.st, mem.inst);
    SameStored(old(api.st), api.seen);
    if reply.Failed? {
      PatchFails(api.seen, before, after, fault);
      PartFails(api.start, |old(api.moves)|, api.moves, api.seen, PatchStatus(before, after), fault, StatusPart);
      return Some(Api);
    }
    mem.inst := Decoded(mem.inst, reply.inst);
    InvGood(api);
    StoredTraced(api.st);
    DecodedMeans(local, api.st.inst);
    TracedMeans(api.st, api.st.inst, mem.inst);
    VouchedMeans(api.st, mem.inst);
    if Vouched(old(api.st), old(mem.inst)) {
      PatchVouches(old(api.st), api.seen, api.st, old(mem.inst), local);
    }
    e := None;
  }

  lemma SameStored(s: State, t: State)
    requires SameAdmission(s, t)
    ensures forall x :: Stored(t, x) == Stored(s, x)
  {}

  lemma PatchFails(s: State, before: Status, after: Status, fault: Fault)
    requires After(s, PatchStatus(before, after), fault).1 == Failed
    ensures Refused(s, PatchStatus(before, after), fault) && Concerns(PatchStatus(before, after), StatusPart)
  {
    hide After;
  }

  /** After a delivered patch from a faithful memory, the memory is faithful again and the stored
      status is what the schema keeps of the one that was sent. */
  lemma PatchVouches(s: State, seen: State, t: State, was: Instance, local: Instance)
    requires Vouched(s, was) && StatusKept(s, seen) && seen.inst.status == s.inst.status && StatusKept(seen, t) && Good(t)
    requires t.inst.status == Stored(seen, Merge(was.status, local.status, seen.inst.status))
    ensures Vouched(t, Decoded(local, t.inst)) && Shows(t, local.status)
  {
    hide *;
    StatusKeptMeans(s, seen);
    StatusKeptMeans(seen, t);
    AdmissionGoesOn(s, seen, t);
    VouchedMeans(s, was);
    SameStored(s, seen);
    SameStored(seen, t);
    KeepsSame(s, seen);
    KeepsSame(seen, t);
    ShowsMeans(s, seen, was.status);
    ShowsMeans(seen, t, was.status);
    ShowsMeans(t, t, local.status);
    MergeFaithful(seen, was.status, local.status);
    DecodedShows(seen, t, was.status, local);
    StoredSpecOrdinary(t);
    StoredTraced(t);
    DecodedMeans(local, t.inst);
    TracedMeans(t, t.inst, Decoded(local, t.inst));
    SameOrdinary(t, t.inst, Decoded(local, t.inst));
    VouchedMeans(t, Decoded(local, t.inst));
  }

  lemma KeepsSame(s: State, t: State)
    requires SameAdmission(s, t)
    ensures t.keepsSlug == s.keepsSlug
  {}

  lemma SameOrdinary(s: State, inst: Instance, copy: Instance)
    requires copy.spec == inst.spec
    ensures Ordinary(s, copy) <==> Ordinary(s, inst)
  {}

  lemma DenyingCloses(s: State, x: Status, phase: string, reason: string, generation: nat)
    ensures var y := Denying(x, phase, reason, generation);
      && Closed(y) && y.pins == x.pins && y.observed == generation && y.condition.observed == generation
      && (Shows(s, y) ==> Says(s.inst.status, phase, reason))
  {}

  /** `updateImagePolicyStatus`. */
  method UpdateImagePolicyStatus(api: ApiServer, mem: Memory, phase: string, reason: string) returns (e: Option<Err>)
    requires api.Inv() && Traced(api.st, mem.inst)
    modifies api, mem
    ensures api.Inv() && old(api.moves) <= api.moves && StatusKept(old(api.st), api.st) && Traced(api.st, mem.inst)
    ensures e.None? && Vouched(old(api.st), old(mem.inst)) ==> Says(api.st.inst.status, phase, reason)
    ensures e.Some? ==> PartFailed(api.start, |old(api.moves)|, api.moves, StatusPart)
    ensures Quiet(old(api.script)) ==> Quiet(api.script) && api.st.work == old(api.st).work
    ensures old(api.script) == [] ==> api.script == [] && e.None?
  {
    hide *;
    DenyingCloses(api.st, mem.inst.status, phase, reason, mem.inst.generation);
    var after := Denying(mem.inst.status, phase, reason, mem.inst.generation);
    e := PatchTo(api, mem, after);
    DenyingCloses(api.st, old(mem.inst).status, phase, reason, old(mem.inst).generation);
  }

  const PHASE_ERROR := "Error"
  const PROVISIONING := "Provisioning"

  // ---- closing down ----

  /** Which of its three parts failed; each is done whatever became of the ones before. */
  datatype Closing = Closing(routeFailed: bool, stopFailed: bool, statusFailed: bool)

  const ALL_CLOSED := Closing(false, false, false)

  /** A part counts as failed only if a request of that part was refused, and unless the stop failed,
      an owned Deployment was at zero at some point. */
  ghost predicate Accounted(start: State, before: nat, moves: seq<Move>, c: Closing) {
    && (c.routeFailed ==> PartFailed(start, before, moves, RoutePart))
    && (c.stopFailed ==> PartFailed(start, before, moves, StopPart))
    && (c.statusFailed ==> PartFailed(start, before, moves, StatusPart))
    && (!c.stopFailed ==> WasAtZero(start, before, moves))
  }

  lemma AccountedMeans(start: State, before: nat, moves: seq<Move>, c: Closing)
    ensures Accounted(start, before, moves, c) <==>
      && (c.routeFailed ==> PartFailed(start, before, moves, RoutePart))
      && (c.stopFailed ==> PartFailed(start, before, moves, StopPart))
      && (c.statusFailed ==> PartFailed(start, before, moves, StatusPart))
      && (!c.stopFailed ==> WasAtZero(start, before, moves))
    ensures c == ALL_CLOSED <==> !c.routeFailed && !c.stopFailed && !c.statusFailed
  {}

  /** What was established since a later point, or up to an earlier one, still holds. */
  lemma Spans(start: State, before: nat, first: nat, moves: seq<Move>, more: seq<Move>)
    requires before <= first && moves <= more
    ensures forall part :: PartFailed(start, first, moves, part) ==> PartFailed(start, before, more, part)
    ensures WasAtZero(start, first, moves) ==> WasAtZero(start, before, more)
  {
    hide *;
    forall part | PartFailed(start, first, moves, part) ensures PartFailed(start, before, more, part) {
      PartFailsStill(start, before, first, moves, more, part);
    }
    if WasAtZero(start, first, moves) {
      ZeroStill(start, before, first, moves, more);
    }
  }

  /** `denyAccess`, `rejectReplicas` and `rejectImage`: withdraw the route, stop the workload,
      write the status. */
  method CloseDown(api: ApiServer, mem: Memory, reason: string) returns (c: Closing)
    requires api.Inv() && Traced(api.st, mem.inst)
    modifies api, mem
    ensures api.Inv() && old(api.moves) <= api.moves
    ensures Accounted(api.start, |old(api.moves)|, api.moves, c)
    ensures !c.routeFailed ==> Unowned(api.st.ingress)
    ensures !c.statusFailed && Vouched(old(api.st), old(mem.inst)) ==> Says(api.st.inst.status, PHASE_ERROR, reason)
    ensures Quiet(old(api.script)) ==> Quiet(api.script) && (!c.stopFailed ==> AtZero(api.st.work))
    ensures old(api.script) == [] ==> api.script == [] && c == ALL_CLOSED
  {
    hide *;
    CalmIsQuiet(api.script);
    var withdrawn := WithdrawAccess(api);
    ghost var m1 := api.moves;
    WorkKeptMeans(old(api.st), api.st);
    AdmissionGoesOn(old(api.st), api.st, api.st);
    VouchedSame(old(api.st), api.st, mem.inst);
    ghost var routeless := api.st;
    var stopped := StopUnapproved(api, true);
    ghost var m2 := api.moves;
    AdmissionGoesOn(routeless, api.st, api.st);
    VouchedSame(routeless, api.st, mem.inst);
    ghost var quiet := api.st;
    ReachedNow(api);
    if AtZero(quiet.work) {
      ZeroNow(api.start, |m1|, m2, quiet);
    }
    var written := UpdateImagePolicyStatus(api, mem, PHASE_ERROR, reason);
    StatusKeptMeans(quiet, api.st);
    c := Closing(withdrawn == Some(Api), stopped == Err(Api), written.Some?);
    Spans(api.start, |old(api.moves)|, |old(api.moves)|, m1, api.moves);
    Spans(api.start, |old(api.moves)|, |m1|, m2, api.moves);
    Spans(api.start, |old(api.moves)|, |m2|, api.moves, api.moves);
    AccountedMeans(api.start, |old(api.moves)|, api.moves, c);
  }

  lemma StatusKeptMeans(s: State, t: State)
    requires StatusKept(s, t)
    ensures Pins(t) == Pins(s) && t.past.erased == s.past.erased && t.solo == s.solo && SameAdmission(s, t)
    ensures Unowned(s.ingress) ==> Unowned(t.ingress)
  {}

  // ---- the hostname ----

  /** Operator configuration. `object` is the instance's identity; `digest` and `checksum` stand for hashes. */
  datatype Operator = Operator(
    access: Access.Config, settings: Settings, ingress: Ingresses.Config, names: Hostnames.Policy,
    digest: string -> Hostnames.Digest, base: string, object_: Hostnames.Object, checksum: Data -> string)

  function Selected(cfg: Operator): Result<Hostnames.Selection, Hostnames.Failure> {
    Hostnames.Select(cfg.names, cfg.digest, cfg.object_)
  }

  /** The host that the operator's policy gives the instance. */
  function HostOf(cfg: Operator): Option<string> {
    if Selected(cfg).Err? then None else Hostnames.Host(cfg.base, Selected(cfg).value.slug)
  }

  function SlugPending(x: Status, s: Hostnames.Selection, generation: nat): Status {
    Denying(x, PROVISIONING, "HostnamePending", generation).(slug := s.slug, source := s.source)
  }

  lemma PendingCloses(s: State, x: Status, n: Hostnames.Selection, generation: nat)
    ensures var y := SlugPending(x, n, generation);
      && Closed(y) && y.pins == x.pins && y.observed == generation && y.condition.observed == generation
      && (Shows(s, y) ==> Says(s.inst.status, PROVISIONING, "HostnamePending"))
      && (Shows(s, y) && s.keepsSlug ==> s.inst.status.slug == n.slug && s.inst.status.source == n.source)
  {}

  /** The status shows the selected slug already. */
  predicate SlugCurrent(cfg: Operator, x: Status) {
    Selected(cfg).Ok? && x.slug == Selected(cfg).value.slug && x.source == Selected(cfg).value.source
  }

  lemma SlugCurrentMeans(cfg: Operator, x: Status)
    ensures SlugCurrent(cfg, x) <==>
      Selected(cfg).Ok? && x.slug == Selected(cfg).value.slug && x.source == Selected(cfg).value.source
  {}

  /** The selected slug always has a source, so a schema that prunes it never stores the selection. */
  lemma SelectionStored(cfg: Operator, s: State)
    requires Good(s) && Selected(cfg).Ok?
    ensures !s.keepsSlug ==> s.inst.status.source != Selected(cfg).value.source
  {
    hide Fresh, Genuine, OneTemplate, MountsPinned, PinsOurs, PinsBounded, Counted, ErasedMarked, ErasedBundles, Alone;
  }

  /** Lines 281-302: the slug is written, and read back into a fresh object. */
  method WriteSlug(api: ApiServer, mem: Memory, n: Hostnames.Selection) returns (e: Option<Err>)
    requires api.Inv() && Vouched(api.st, mem.inst)
    modifies api, mem
    ensures api.Inv() && old(api.moves) <= api.moves && StatusKept(old(api.st), api.st) && Traced(api.st, mem.inst)
    ensures e.Some? ==> e.value == SlugUnsaved || e.value == Api || e.value == SchemaPrunes
    ensures e.None? ==> api.st.inst.status.slug == n.slug && api.st.inst.status.source == n.source
    ensures e == Some(SchemaPrunes) ==> !api.st.keepsSlug && Says(api.st.inst.status, PROVISIONING, "HostnamePending")
    ensures e == Some(SchemaPrunes) ==> Closed(mem.inst.status)
    ensures e != Some(SlugUnsaved) ==> Vouched(api.st, mem.inst) && mem.inst.status.pins == Pins(api.st)
    ensures e == Some(SlugUnsaved) ==>
      && Closed(mem.inst.status) && PartFailed(api.start, |old(api.moves)|, api.moves, StatusPart)
      && (api.st.inst.status == old(api.st).inst.status
          || api.st.inst.status == Stored(old(api.st), Merge(old(mem.inst).status, mem.inst.status, old(api.st).inst.status)))
    ensures Quiet(old(api.script)) ==>
      Quiet(api.script) && api.st.work == old(api.st).work && SameRouting(old(api.st), api.st)
    ensures old(api.script) == [] ==> api.script == [] && e != Some(SlugUnsaved) && e != Some(Api)
  {
    hide *;
    CalmIsQuiet(api.script);
    VouchedMeans(api.st, mem.inst);
    PendingCloses(api.st, mem.inst.status, n, mem.inst.generation);
    var after := SlugPending(mem.inst.status, n, mem.inst.generation);
    e := PatchTo(api, mem, after);
    ghost var patched := api.st;
    if e.Some? {
      return Some(SlugUnsaved);
    }
    VouchedMeans(patched, mem.inst);
    PendingCloses(patched, old(mem.inst).status, n, old(mem.inst).generation);
    SaysMeans(patched.inst.status, PROVISIONING, "HostnamePending");
    ShowsClosed(patched, mem.inst.status);
    RereadServed(patched);
    var again := Read(api, RereadInstance);
    RereadServed(api.seen);
    KeptStatus(patched, api.st);
    KeepsSame(patched, api.st);
    NotesKeepInstance(api.seen, api.st);
    SameWork(api.seen, api.st);
    StatusKeptTransitive(old(api.st), patched, api.st);
    RoutingTransitive(old(api.st), patched, api.st);
    VouchedSame(patched, api.st, mem.inst);
    if again.Failed? {
      return Some(Api);
    }
    if again.inst.status.slug != n.slug || again.inst.status.source != n.source {
      return Some(SchemaPrunes);
    }
    e := None;
  }

  /** `ensureSlug`. When its status write fails, the memory looks closed whatever is stored; under a
      schema that prunes the slug it fails closed, and so does every later pass. */
  method EnsureSlug(cfg: Operator, api: ApiServer, mem: Memory) returns (r: Result<string, Err>)
    requires api.Inv() && Vouched(api.st, mem.inst) && mem.inst.status == api.st.inst.status
    modifies api, mem
    ensures api.Inv() && old(api.moves) <= api.moves && StatusKept(old(api.st), api.st) && Traced(api.st, mem.inst)
    ensures r.Ok? ==> Selected(cfg).Ok? && r.value == Selected(cfg).value.slug
    ensures r.Ok? ==> api.st.inst.status.slug == r.value && api.st.inst.status.source == Selected(cfg).value.source
    ensures r.Err? && r.error != SlugUnsaved ==> r.error == Api || r.error == Unmapped || r.error == Identity || r.error == SchemaPrunes
    ensures r != Err(SlugUnsaved) ==> Vouched(api.st, mem.inst) && mem.inst.status.pins == Pins(api.st)
    ensures r.Ok? ==> api.st.keepsSlug
    ensures r == Err(SchemaPrunes) ==>
      !api.st.keepsSlug && Closed(mem.inst.status) && Says(api.st.inst.status, PROVISIONING, "HostnamePending")
    ensures r == Err(SlugUnsaved) ==>
      && Closed(mem.inst.status) && Selected(cfg).Ok? && PartFailed(api.start, |old(api.moves)|, api.moves, StatusPart)
      && (api.st.inst.status == old(api.st).inst.status
          || api.st.inst.status == Stored(old(api.st), Merge(old(mem.inst).status, mem.inst.status, old(api.st).inst.status)))
    ensures Quiet(old(api.script)) ==>
      Quiet(api.script) && api.st.work == old(api.st).work && SameRouting(old(api.st), api.st)
    ensures old(api.script) == [] ==> api.script == [] && r != Err(SlugUnsaved)
    ensures old(api.script) == [] ==>
      (r.Ok? <==> Selected(cfg).Ok? && old(api.st).keepsSlug) && (r == Err(SchemaPrunes) <==> Selected(cfg).Ok? && !old(api.st).keepsSlug)
    ensures SlugCurrent(cfg, old(mem.inst).status) ==>
      r.Ok? && api.st == old(api.st) && mem.inst == old(mem.inst) && api.script == old(api.script)
  {
    hide *;
    CalmIsQuiet(api.script);
    InvGood(api);
    SlugCurrentMeans(cfg, mem.inst.status);
    StatusKeptTransitive(api.st, api.st, api.st);
    RoutingTransitive(api.st, api.st, api.st);
    VouchedMeans(api.st, mem.inst);
    var selection := Selected(cfg);
    if selection.Err? {
      return Err(if selection.error.Unmapped? then Unmapped else Identity);
    }
    SelectionStored(cfg, api.st);
    if mem.inst.status.slug != selection.value.slug || mem.inst.status.source != selection.value.source {
      var e := WriteSlug(api, mem, selection.value);
      KeepsAlike(old(api.st), api.st);
      InvGood(api);
      SelectionStored(cfg, api.st);
      if e.Some? {
        return Err(e.value);
      }
    }
    VouchedMeans(api.st, mem.inst);
    r := Ok(selection.value.slug);
  }

  lemma KeepsAlike(s: State, t: State)
    requires StatusKept(s, t)
    ensures t.keepsSlug == s.keepsSlug && SameAdmission(s, t)
  {}

  lemma ShowsClosed(s: State, x: Status)
    ensures Shows(s, x) ==> (Closed(s.inst.status) <==> Closed(x))
  {}

  lemma SameWork(s: State, t: State)
    requires SameButNotes(s, t)
    ensures t.work == s.work && SameRouting(s, t)
  {}

  lemma KeptStatus(s: State, t: State)
    requires Kept(s, t)
    ensures StatusKept(s, t) && t.inst.status == s.inst.status && Pins(t) == Pins(s) && t.solo == s.solo && SamePass(s, t)
    ensures SameAdmission(s, t)
  {}

  lemma ListedStatus(s: State, t: State)
    requires KeptButClear(s, t)
    ensures StatusKept(s, t) && t.inst.status == s.inst.status
  {
    hide Kept, StatusKept;
    KeptStatus(s, Unlisted(s, t));
    UnlistedStatus(s, t);
  }

  lemma UnlistedStatus(s: State, t: State)
    ensures StatusKept(s, Unlisted(s, t)) ==> StatusKept(s, t)
  {}

  /** When the status write of hostname selection fails, the stored status ends up closed iff it
      was closed before, or the write took effect and only its reply was lost. The memory looks
      closed either way, so `HostnameFailure` writes nothing more. */
  lemma SlugWriteFailure(s: State, selection: Hostnames.Selection, fault: Fault)
    ensures var after := SlugPending(s.inst.status, selection, s.inst.generation);
      var (t, r) := After(s, PatchStatus(s.inst.status, after), fault);
      && Closed(after)
      && (r == Failed ==> (Closed(t.inst.status) <==> Closed(s.inst.status) || fault == Lost))
  {}

  /** `selectedInstanceHost`. */
  method SelectedInstanceHost(cfg: Operator, api: ApiServer, mem: Memory) returns (r: Result<string, Err>)
    requires api.Inv() && Vouched(api.st, mem.inst) && mem.inst.status == api.st.inst.status
    modifies api, mem
    ensures api.Inv() && old(api.moves) <= api.moves && StatusKept(old(api.st), api.st) && Traced(api.st, mem.inst)
    ensures r.Ok? ==> HostOf(cfg) == Some(r.value) && api.st.pass.clear == Some(r.value)
    ensures r.Ok? ==> Unclaimed(ListedIngresses(api.st), r.value)
    ensures r != Err(SlugUnsaved) ==> Vouched(api.st, mem.inst) && mem.inst.status.pins == Pins(api.st)
    ensures r == Err(SchemaPrunes) ==>
      !api.st.keepsSlug && Closed(mem.inst.status) && Says(api.st.inst.status, PROVISIONING, "HostnamePending")
    ensures r == Err(SlugUnsaved) ==>
      && Closed(mem.inst.status) && PartFailed(api.start, |old(api.moves)|, api.moves, StatusPart)
      && (api.st.inst.status == old(api.st).inst.status
          || api.st.inst.status == Stored(old(api.st), Merge(old(mem.inst).status, mem.inst.status, old(api.st).inst.status)))
    ensures Quiet(old(api.script)) ==> Quiet(api.script)
    ensures Quiet(old(api.script)) && r.Ok? ==> HostFree(old(api.st), r.value)
    ensures old(api.script) == [] ==> api.script == [] && r != Err(SlugUnsaved)
    ensures old(api.script) == [] ==> (r == Err(SchemaPrunes) <==> Selected(cfg).Ok? && !old(api.st).keepsSlug)
    ensures old(api.script) == [] && SlugCurrent(cfg, old(mem.inst).status) ==>
      && SameButClear(old(api.st), api.st) && mem.inst == old(mem.inst)
      && (r.Ok? <==> HostOf(cfg).Some? && HostFree(old(api.st), HostOf(cfg).value))
  {
    hide *;
    CalmIsQuiet(api.script);
    InvGood(api);
    NotesReflexive(api.st);
    KeptIsButClear(api.st, api.st, api.st);
    var slug := EnsureSlug(cfg, api, mem);
    ghost var named := api.st;
    HostOfMeans(cfg);
    if slug.Err? {
      return Err(slug.error);
    }
    var host := Hostnames.Host(cfg.base, slug.value);
    if host.None? {
      return Err(BadHost);
    }
    var e := CheckHostname(api, host.value);
    ListedStatus(named, api.st);
    StatusKeptTransitive(old(api.st), named, api.st);
    StatusKeptMeans(named, api.st);
    VouchedSame(named, api.st, mem.inst);
    if Quiet(old(api.script)) {
      SameHostFree(old(api.st), named, host.value);
    }
    r := if e.Some? then Err(e.value) else Ok(host.value);
  }

  lemma HostOfMeans(cfg: Operator)
    ensures HostOf(cfg) == if Selected(cfg).Err? then None else Hostnames.Host(cfg.base, Selected(cfg).value.slug)
  {}

  // ---- hostname failures ----

  predicate Named(cause: Err) { cause.Unmapped? || cause.Identity? || cause.NotOwnedIngress? || cause.HostConflict? }

  function NamedReason(cause: Err): string {
    if cause.Unmapped? then "LegacyHostnameUnmapped" else if cause.Identity? then "HostnameIdentityError"
    else if cause.NotOwnedIngress? then "HostnameOwnershipError" else "HostnameConflict"
  }

  function NamedFailure(x: Status, cause: Err, generation: nat): Status {
    var denied := Denying(x, PHASE_ERROR, NamedReason(cause), generation);
    if cause.Unmapped? || cause.Identity? then denied.(slug := "", source := Hostnames.NoSource) else denied
  }

  lemma NamedCloses(s: State, x: Status, cause: Err, generation: nat)
    ensures var y := NamedFailure(x, cause, generation);
      && Closed(y) && y.pins == x.pins && y.observed == generation && y.condition.observed == generation
      && (Shows(s, y) ==> SaysNamed(s.inst.status, cause))
    ensures SaysNamed(s.inst.status, cause) ==> Closed(s.inst.status)
  {}

  /** The failure's own reason; without a mapping or identity no hostname is shown either. */
  predicate SaysNamed(x: Status, cause: Err) {
    && Says(x, PHASE_ERROR, NamedReason(cause))
    && (cause.Unmapped? || cause.Identity? ==> x.slug == "" && x.source == Hostnames.NoSource)
  }

  lemma ClosedMeans(x: Status)
    ensures Closed(x) <==> !x.condition.ready && x.url == ""
  {}

  /** `hostnameFailure`: an unnamed cause writes nothing when the memory already looks closed. */
  method HostnameFailure(api: ApiServer, mem: Memory, cause: Err) returns (e: Option<Err>)
    requires api.Inv() && Traced(api.st, mem.inst)
    modifies api, mem
    ensures api.Inv() && old(api.moves) <= api.moves && StatusKept(old(api.st), api.st) && Traced(api.st, mem.inst)
    ensures e.None? && Vouched(old(api.st), old(mem.inst)) ==> Closed(api.st.inst.status)
    ensures e.None? && Vouched(old(api.st), old(mem.inst)) && Named(cause) ==> SaysNamed(api.st.inst.status, cause)
    ensures e.Some? ==> PartFailed(api.start, |old(api.moves)|, api.moves, StatusPart)
    ensures !Named(cause) && Closed(old(mem.inst).status) ==> e.None? && api.st == old(api.st)
    ensures Quiet(old(api.script)) ==> Quiet(api.script) && api.st.work == old(api.st).work
    ensures old(api.script) == [] ==> api.script == [] && e.None?
  {
    hide *;
    StatusKeptTransitive(api.st, api.st, api.st);
    VouchedMeans(api.st, mem.inst);
    ShowsClosed(api.st, mem.inst.status);
    ClosedMeans(mem.inst.status);
    NamedMeans(cause);
    if cause.Unmapped? || cause.Identity? || cause.NotOwnedIngress? || cause.HostConflict? {
      NamedCloses(api.st, mem.inst.status, cause, mem.inst.generation);
      var after := NamedFailure(mem.inst.status, cause, mem.inst.generation);
      if after == mem.inst.status {
        return None;
      }
      e := PatchTo(api, mem, after);
      NamedCloses(api.st, old(mem.inst).status, cause, old(mem.inst).generation);
    } else {
      if mem.inst.status.url == "" && !mem.inst.status.condition.ready {
        return None;
      }
      e := UpdateImagePolicyStatus(api, mem, PHASE_ERROR, "HostnameCheckFailed");
      SaysMeans(api.st.inst.status, PHASE_ERROR, "HostnameCheckFailed");
    }
  }

  lemma SaysMeans(x: Status, phase: string, reason: string)
    ensures Says(x, phase, reason) ==> Closed(x)
  {}

  lemma NamedMeans(cause: Err)
    ensures Named(cause) <==> cause.Unmapped? || cause.Identity? || cause.NotOwnedIngress? || cause.HostConflict?
  {}

  /** `stopForHostnameFailure`. */
  method StopForHostnameFailure(api: ApiServer, mem: Memory, cause: Err) returns (c: Closing)
    requires api.Inv() && Traced(api.st, mem.inst)
    modifies api, mem
    ensures api.Inv() && old(api.moves) <= api.moves
    ensures Accounted(api.start, |old(api.moves)|, api.moves, c)
    ensures !c.routeFailed ==> Unowned(api.st.ingress)
    ensures !c.statusFailed && Vouched(old(api.st), old(mem.inst)) ==> Closed(api.st.inst.status)
    ensures !c.statusFailed && Vouched(old(api.st), old(mem.inst)) && Named(cause) ==> SaysNamed(api.st.inst.status, cause)
    ensures !Named(cause) && Closed(old(mem.inst).status) ==>
      !c.statusFailed && api.st.inst.status == old(api.st).inst.status
    ensures Quiet(old(api.script)) ==> Quiet(api.script) && (!c.stopFailed ==> AtZero(api.st.work))
    ensures old(api.script) == [] ==> api.script == [] && c == ALL_CLOSED
  {
    hide *;
    CalmIsQuiet(api.script);
    var withdrawn := WithdrawAccess(api);
    ghost var m1 := api.moves;
    WorkKeptMeans(old(api.st), api.st);
    AdmissionGoesOn(old(api.st), api.st, api.st);
    VouchedSame(old(api.st), api.st, mem.inst);
    ghost var routeless := api.st;
    var stopped := StopUnapproved(api, true);
    ghost var m2 := api.moves;
    AdmissionGoesOn(routeless, api.st, api.st);
    VouchedSame(routeless, api.st, mem.inst);
    ghost var quiet := api.st;
    ReachedNow(api);
    if AtZero(quiet.work) {
      ZeroNow(api.start, |m1|, m2, quiet);
    }
    var written := HostnameFailure(api, mem, cause);
    StatusKeptMeans(quiet, api.st);
    c := Closing(withdrawn == Some(Api), stopped == Err(Api), written.Some?);
    Spans(api.start, |old(api.moves)|, |old(api.moves)|, m1, api.moves);
    Spans(api.start, |old(api.moves)|, |m1|, m2, api.moves);
    Spans(api.start, |old(api.moves)|, |m2|, api.moves, api.moves);
    AccountedMeans(api.start, |old(api.moves)|, api.moves, c);
  }

  // ---- the pass ----

  /** How a pass ends. `Denied`: it stopped before the route was reconciled; `closing` says which part of
      closing down failed, `unsaved` that the hostname's status write failed. `Requeued`: the
      finalizer was added first. `Unchecked`: readiness could not be read. */
  datatype Outcome =
    | Aborted | Gone | Requeued | Unchecked
    | Denied(closing: Closing, unsaved: bool)
    | Settled(ready: bool, saved: bool)

  /** What a denial leaves, each part whatever became of the other two: no owned route, a status that is
      closed, and since the pass began an owned Deployment at zero. */
  ghost predicate FailsClosed(start: State, before: nat, moves: seq<Move>, s: State, o: Outcome) {
    o.Denied? ==>
      && Accounted(start, before, moves, o.closing)
      && (!o.closing.routeFailed ==> Unowned(s.ingress))
      && (!o.closing.statusFailed && !o.unsaved ==> Closed(s.inst.status))
      && (o.unsaved ==> PartFailed(start, before, moves, StatusPart))
  }

  lemma FailsClosedMeans(start: State, before: nat, moves: seq<Move>, s: State, o: Outcome)
    ensures FailsClosed(start, before, moves, s, o) <==>
      (o.Denied? ==>
        && Accounted(start, before, moves, o.closing)
        && (!o.closing.routeFailed ==> Unowned(s.ingress))
        && (!o.closing.statusFailed && !o.unsaved ==> Closed(s.inst.status))
        && (o.unsaved ==> PartFailed(start, before, moves, StatusPart)))
  {}

  lemma FailsClosedSince(start: State, before: nat, first: nat, moves: seq<Move>, s: State, o: Outcome)
    requires before <= first
    ensures FailsClosed(start, first, moves, s, o) ==> FailsClosed(start, before, moves, s, o)
    ensures o.Denied? && Accounted(start, first, moves, o.closing) ==> Accounted(start, before, moves, o.closing)
  {
    hide PartFailed, WasAtZero;
    Spans(start, before, first, moves, moves);
  }

  /** Withdraw the route and write the status; the workload is dealt with already. */
  method WithdrawAndSay(api: ApiServer, mem: Memory, phase: string, reason: string) returns (routeFailed: bool, statusFailed: bool)
    requires api.Inv() && Traced(api.st, mem.inst)
    modifies api, mem
    ensures api.Inv() && old(api.moves) <= api.moves
    ensures routeFailed ==> PartFailed(api.start, |old(api.moves)|, api.moves, RoutePart)
    ensures statusFailed ==> PartFailed(api.start, |old(api.moves)|, api.moves, StatusPart)
    ensures !routeFailed ==> Unowned(api.st.ingress)
    ensures !statusFailed && Vouched(old(api.st), old(mem.inst)) ==> Says(api.st.inst.status, phase, reason)
    ensures Quiet(old(api.script)) ==> Quiet(api.script) && api.st.work == old(api.st).work
    ensures old(api.script) == [] ==> api.script == [] && !routeFailed && !statusFailed
  {
    hide *;
    CalmIsQuiet(api.script);
    var withdrawn := WithdrawAccess(api);
    ghost var m1 := api.moves;
    WorkKeptMeans(old(api.st), api.st);
    AdmissionGoesOn(old(api.st), api.st, api.st);
    VouchedSame(old(api.st), api.st, mem.inst);
    if Quiet(old(api.script)) {
      OnlyIngressWork(old(api.st), api.st);
    }
    ghost var quiet := api.st;
    var written := UpdateImagePolicyStatus(api, mem, phase, reason);
    StatusKeptMeans(quiet, api.st);
    routeFailed, statusFailed := withdrawn == Some(Api), written.Some?;
    Spans(api.start, |old(api.moves)|, |old(api.moves)|, m1, api.moves);
    Spans(api.start, |old(api.moves)|, |m1|, api.moves, api.moves);
  }

  /** Closing down as the outcome of the pass. */
  method Deny(api: ApiServer, mem: Memory, reason: string) returns (o: Outcome)
    requires api.Inv() && Vouched(api.st, mem.inst)
    modifies api, mem
    ensures api.Inv() && old(api.moves) <= api.moves
    ensures o.Denied? && !o.unsaved && FailsClosed(api.start, |old(api.moves)|, api.moves, api.st, o)
    ensures !o.closing.statusFailed ==> Says(api.st.inst.status, PHASE_ERROR, reason)
    ensures Quiet(old(api.script)) ==> Quiet(api.script) && (!o.closing.stopFailed ==> AtZero(api.st.work))
    ensures old(api.script) == [] ==> api.script == [] && o.closing == ALL_CLOSED
  {
    hide *;
    VouchedMeans(api.st, mem.inst);
    var c := CloseDown(api, mem, reason);
    o := Denied(c, false);
    SaysMeans(api.st.inst.status, PHASE_ERROR, reason);
    FailsClosedMeans(api.start, |old(api.moves)|, api.moves, api.st, o);
  }

  lemma AdmittedMeans(p: Pass)
    ensures Admitted(p) <==> ImageAllowed(p.inst.spec.image) && p.approved && p.inst.spec.replicas <= 1
  {}

  lemma AdmittedStays(s: State, t: State)
    requires SameAdmission(s, t)
    ensures t.pass.inst == s.pass.inst && t.pass.host == s.pass.host && (Admitted(s.pass) ==> Admitted(t.pass))
  {}

  /** The outcome when the present Deployment had to be dealt with first. */
  lemma StoppedFirst(start: State, before: nat, first: seq<Move>, moves: seq<Move>, s: State, c: Closing)
    requires before <= |first| && first <= moves
    requires c.routeFailed ==> PartFailed(start, |first|, moves, RoutePart)
    requires c.statusFailed ==> PartFailed(start, |first|, moves, StatusPart)
    requires if c.stopFailed then PartFailed(start, before, first, StopPart) else WasAtZero(start, before, first)
    requires (!c.routeFailed ==> Unowned(s.ingress)) && (!c.statusFailed ==> Closed(s.inst.status))
    ensures FailsClosed(start, before, moves, s, Denied(c, false))
    ensures c == ALL_CLOSED <==> !c.routeFailed && !c.stopFailed && !c.statusFailed
  {
    hide *;
    Spans(start, before, before, first, moves);
    Spans(start, before, |first|, moves, moves);
    AccountedMeans(start, before, moves, c);
    FailsClosedMeans(start, before, moves, s, Denied(c, false));
  }

  /** Lines 131-149: the image, the present Deployment's image, and the replicas. */
  method CheckWorkload(api: ApiServer, mem: Memory) returns (o: Option<Outcome>)
    requires api.Inv() && Vouched(api.st, mem.inst) && mem.inst.status.pins == Pins(api.st) && api.st.pass.inst == mem.inst
    modifies api, mem
    ensures api.Inv() && old(api.moves) <= api.moves
    ensures o.Some? ==> o.value.Denied? && !o.value.unsaved && FailsClosed(api.start, |old(api.moves)|, api.moves, api.st, o.value)
    ensures o.None? ==> Admitted(api.st.pass) && mem.inst == old(mem.inst) && api.st.inst.status == old(api.st).inst.status
    ensures o.None? ==> Vouched(api.st, mem.inst) && mem.inst.status.pins == Pins(api.st) && SameAdmission(old(api.st), api.st)
    ensures o.Some? && !o.value.closing.statusFailed && !ImageAllowed(old(mem.inst).spec.image) ==>
      Says(api.st.inst.status, PHASE_ERROR, "ImageNotAllowed")
    ensures Quiet(old(api.script)) ==> Quiet(api.script) && (o.Some? && !o.value.closing.stopFailed ==> AtZero(api.st.work))
    ensures old(api.script) == [] ==> api.script == [] && (o.Some? ==> o.value.closing == ALL_CLOSED)
    ensures Quiet(old(api.script)) && o.None? ==> SameButNotes(old(api.st), api.st)
    ensures old(api.script) == [] ==>
      (o.None? <==> ImageAllowed(old(mem.inst).spec.image) && Approved(old(api.st).work) && old(mem.inst).spec.replicas <= 1)
  {
    hide *;
    if !ImageAllowed(mem.inst.spec.image) {
      var denied := Deny(api, mem, "ImageNotAllowed");
      return Some(denied);
    }
    var stopping := StopUnapproved(api, false);
    ghost var m1, checked := api.moves, api.st;
    AdmissionGoesOn(old(api.st), checked, checked);
    VouchedSame(old(api.st), checked, mem.inst);
    VouchedMeans(checked, mem.inst);
    AdmittedStays(old(api.st), checked);
    ReachedNow(api);
    if AtZero(checked.work) {
      ZeroNow(api.start, |old(api.moves)|, m1, checked);
    }
    if stopping.Err? {
      var reason := if stopping.error == Api then "ImageCheckFailed" else "ImagePolicyError";
      var routeFailed, statusFailed := WithdrawAndSay(api, mem, PHASE_ERROR, reason);
      SaysMeans(api.st.inst.status, PHASE_ERROR, reason);
      var c := Closing(routeFailed, stopping.error == Api, statusFailed);
      StoppedFirst(api.start, |old(api.moves)|, m1, api.moves, api.st, c);
      return Some(Denied(c, false));
    }
    if stopping.value {
      var routeFailed, statusFailed := WithdrawAndSay(api, mem, PROVISIONING, "ImageMigration");
      SaysMeans(api.st.inst.status, PROVISIONING, "ImageMigration");
      var c := Closing(routeFailed, false, statusFailed);
      StoppedFirst(api.start, |old(api.moves)|, m1, api.moves, api.st, c);
      return Some(Denied(c, false));
    }
    if mem.inst.spec.replicas > 1 {
      var denied := Deny(api, mem, "UnsupportedReplicas");
      FailsClosedSince(api.start, |old(api.moves)|, |m1|, api.moves, api.st, denied);
      return Some(denied);
    }
    AdmittedMeans(api.st.pass);
    o := None;
  }

  lemma SaveServed(s: State, rv: nat, status: Status, fault: Fault)
    requires status.pins == Pins(s)
    ensures var (t, r) := After(s, PutStatus(rv, status), fault);
      && (r != Failed ==> t.inst.status == Stored(s, status))
      && (fault == Clean && rv == s.inst.rv ==> r != Failed)
  {}

  /** A settled status may be saved: the checks were made for this host, and the generation is that in memory. */
  lemma SaveAllowed(cfg: Operator, s: State, inst: Instance, host: string, ready: bool, reason: string)
    requires MayRead(s) && (ready ==> Ready(s)) && Traced(s, inst) && inst.status.pins == Pins(s)
    requires s.pass.host == Some(host) && Hostnames.TrimSpace(host) != ""
    ensures Allowed(s, PutStatus(inst.rv, Settling(cfg, inst, host, ready, reason)))
  {
    hide Ready, MayRead;
  }

  function Url(cfg: Operator, host: string): string {
    if Hostnames.TrimSpace(host) == "" then "" else (if cfg.access.https then "https://" else "http://") + host
  }

  /** The status at the end of a pass that got as far as the readiness checks. */
  function Settling(cfg: Operator, inst: Instance, host: string, ready: bool, reason: string): Status {
    inst.status.(condition := Condition(ready, reason, inst.generation), observed := inst.generation,
      phase := if ready then "Ready" else PROVISIONING, url := Url(cfg, host))
  }

  lemma SettlingMeans(cfg: Operator, inst: Instance, host: string, ready: bool, reason: string, s: State)
    ensures var x := Settling(cfg, inst, host, ready, reason);
      && x.pins == inst.status.pins && Stored(s, x).condition.ready == ready && Stored(s, x).url == Url(cfg, host)
      && Stored(s, x).observed == inst.generation
  {}

  /** `updateProvisioningStatus` and `updateReadyStatus`: an update under the version in memory. */
  method SaveStatus(cfg: Operator, api: ApiServer, mem: Memory, host: string, ready: bool, reason: string) returns (saved: bool)
    requires api.Inv() && mem.inst.status.pins == Pins(api.st) && Traced(api.st, mem.inst)
    requires MayRead(api.st) && (ready ==> Ready(api.st)) && api.st.pass.host == Some(host) && Hostnames.TrimSpace(host) != ""
    modifies api, mem
    ensures api.Inv() && old(api.moves) <= api.moves
    ensures saved ==> api.st.inst.status == Stored(old(api.st), Settling(cfg, old(mem.inst), host, ready, reason))
    ensures saved ==> api.st.inst.status.condition.ready == ready && api.st.inst.status.url == Url(cfg, host)
    ensures saved ==> api.st.inst.status.observed == old(mem.inst).generation
    ensures Quiet(old(api.script)) ==> Quiet(api.script)
    ensures old(api.script) == [] ==> api.script == []
    ensures old(api.script) == [] && old(mem.inst) == old(api.st).inst ==> saved
  {
    hide *;
    SettlingMeans(cfg, mem.inst, host, ready, reason, api.st);
    SaveAllowed(cfg, api.st, mem.inst, host, ready, reason);
    var status := Settling(cfg, mem.inst, host, ready, reason);
    mem.inst := mem.inst.(status := status);
    QuietCall(api.script);
    ghost var fault := Head(api.script).fault;
    var reply := api.Call(PutStatus(mem.inst.rv, status));
    RelyStatus(old(api.st), api.seen);
    StatusKeptMeans(old(api.st), api.seen);
    SameStored(old(api.st), api.seen);
    SaveServed(api.seen, mem.inst.rv, status, fault);
    if reply.GotInstance? {
      mem.inst := reply.inst;
    }
    saved := !reply.Failed?;
  }

  const ROOT := "/"

  predicate Blank(n: Name) { n.Other? && Hostnames.TrimSpace(n.text) == "" }

  lemma KeptHeld(s: State, t: State, bundle: Name)
    requires Kept(s, t) && Held(s, bundle)
    ensures Held(t, bundle)
  {
    hide Kept;
    KeptSteady(s, t);
    KeptStatus(s, t);
  }

  lemma OrdinaryRef(s: State, inst: Instance)
    requires Vouched(s, inst)
    ensures s.solo ==> !inst.spec.secretRef.Access?
  {}

  function ReplicasOf(inst: Instance): nat { if inst.spec.replicas <= 0 then 1 else inst.spec.replicas }

  /** The backend credentials exist and the Deployment needs no change. */
  ghost predicate WorkloadSettled(cfg: Operator, s: State, inst: Instance, b: Bundle) {
    && !Blank(inst.spec.secretRef) && inst.spec.secretRef in s.secrets
    && Converged(s.work, Desired(cfg.settings, SUPPORTED_IMAGE, cfg.checksum(s.secrets[inst.spec.secretRef].data),
                                 inst.spec.secretRef, b), ReplicasOf(inst))
  }

  lemma SettledMeans(cfg: Operator, s: State, inst: Instance, b: Bundle)
    ensures WorkloadSettled(cfg, s, inst, b) ==>
      && !Blank(inst.spec.secretRef) && inst.spec.secretRef in s.secrets
      && Converged(s.work, Desired(cfg.settings, SUPPORTED_IMAGE, cfg.checksum(s.secrets[inst.spec.secretRef].data),
                                   inst.spec.secretRef, b), ReplicasOf(inst))
    ensures ReplicasOf(inst) == if inst.spec.replicas <= 0 then 1 else inst.spec.replicas
  {}

  // ---- what rests on the checks ----

  /** A copy in memory of the generation that the pass read has the checked spec: an allowed image and one
      replica. Any other copy is of a later edit that nothing checked in this pass. */
  lemma RestsOnTheChecks(s: State, inst: Instance)
    requires Admitted(s.pass) && Traced(s, inst)
    ensures inst.generation == s.pass.inst.generation ==>
      inst.spec == s.pass.inst.spec && ImageAllowed(inst.spec.image) && ReplicasOf(inst) == 1
    ensures inst.generation != s.pass.inst.generation ==> Edited(s)
    ensures ReplicasFit(s, ReplicasOf(inst))
  {}

  /** The reserved-name check was made of the copy before; only a copy that was read again since, and
      whose spec was edited, can name a bundle. */
  lemma ReadAgainFits(s: State, t: State, before: Instance, after: Instance, bundle: Name)
    requires SamePass(s, t) && Traced(s, before) && Reread(s, t, before, after) && !IsReserved(before.spec.secretRef)
    requires Traced(t, after)
    ensures RefFits(t, bundle, after.spec.secretRef)
    ensures after.spec.secretRef.Access? ==> after != before && t.pass.pinned && Edited(t)
  {}

  /** Lines 169-195: the backend credentials, then the Deployment. On success the pass goes on. */
  method ProvisionWorkload(cfg: Operator, api: ApiServer, mem: Memory, b: Bundle) returns (o: Option<Outcome>)
    requires api.Inv() && Vouched(api.st, mem.inst) && mem.inst.status.pins == Pins(api.st) && Held(api.st, b.name)
    requires MayRead(api.st) && RefFits(api.st, b.name, mem.inst.spec.secretRef)
    modifies api, mem
    ensures api.Inv() && old(api.moves) <= api.moves
    ensures o.Some? ==> o.value.Denied? && !o.value.unsaved && FailsClosed(api.start, |old(api.moves)|, api.moves, api.st, o.value)
    ensures o.None? ==> SamePass(old(api.st), api.st) && mem.inst == old(mem.inst)
    ensures o.None? ==> Vouched(api.st, mem.inst) && mem.inst.status.pins == Pins(api.st)
    ensures Quiet(old(api.script)) ==> Quiet(api.script) && (o.Some? && !o.value.closing.stopFailed ==> AtZero(api.st.work))
    ensures old(api.script) == [] ==> api.script == [] && (o.Some? ==> o.value.closing == ALL_CLOSED)
    ensures old(api.script) == [] && WorkloadSettled(cfg, old(api.st), old(mem.inst), b) ==> o.None? && SameButNotes(old(api.st), api.st)
  {
    hide *;
    CalmIsQuiet(api.script);
    SettledMeans(cfg, api.st, mem.inst, b);
    History.SecretServed(api.st, mem.inst.spec.secretRef);
    if Blank(mem.inst.spec.secretRef) {
      var denied := Deny(api, mem, "AccessNotConfigured");
      return Some(denied);
    }
    SecretReadAllowed(api.st, mem.inst.spec.secretRef);
    var reply := Read(api, ReadSecret(mem.inst.spec.secretRef));
    ghost var m1, read := api.moves, api.st;
    KeptStatus(old(api.st), read);
    VouchedSame(old(api.st), read, mem.inst);
    KeptHeld(old(api.st), read, b.name);
    if Quiet(old(api.script)) {
      SameWork(old(api.st), read);
    }
    if !reply.GotSecret? {
      var denied := Deny(api, mem, "AccessNotConfigured");
      FailsClosedSince(api.start, |old(api.moves)|, |m1|, api.moves, api.st, denied);
      return Some(denied);
    }
    var replicas: nat := if mem.inst.spec.replicas <= 0 then 1 else mem.inst.spec.replicas;
    OrdinaryRef(read, mem.inst);
    VouchedMeans(old(api.st), mem.inst);
    MayReadMeans(old(api.st));
    RestsOnTheChecks(old(api.st), mem.inst);
    FitsStay(old(api.st), read, b.name, mem.inst.spec.secretRef, replicas);
    var e := ReconcileDeployment(api, cfg.settings, replicas, SUPPORTED_IMAGE, cfg.checksum(reply.secret.data),
      mem.inst.spec.secretRef, b);
    ghost var m2, deployed := api.moves, api.st;
    AdmissionGoesOn(read, deployed, deployed);
    VouchedSame(read, deployed, mem.inst);
    if SameButNotes(read, deployed) && Quiet(old(api.script)) {
      NotesCompose(old(api.st), read, deployed);
    }
    PassGoesOn(old(api.st), read, deployed);
    if e == Some(Cutover) {
      o := SayMigrating(api, mem, |m1|);
      FailsClosedSince(api.start, |old(api.moves)|, |m1|, api.moves, api.st, o.value);
      return o;
    }
    if e.Some? {
      var denied := Deny(api, mem, "AccessNotConfigured");
      FailsClosedSince(api.start, |old(api.moves)|, |m2|, api.moves, api.st, denied);
      return Some(denied);
    }
    o := None;
  }

  /** Lines 191-192: the route is withdrawn and the workload stopped already. */
  method SayMigrating(api: ApiServer, mem: Memory, ghost since: nat) returns (o: Option<Outcome>)
    requires api.Inv() && Vouched(api.st, mem.inst) && Unowned(api.st.ingress)
    requires since <= |api.moves| && WasAtZero(api.start, since, api.moves)
    modifies api, mem
    ensures api.Inv() && old(api.moves) <= api.moves
    ensures o.Some? && o.value.Denied? && !o.value.unsaved && FailsClosed(api.start, since, api.moves, api.st, o.value)
    ensures !o.value.closing.routeFailed && !o.value.closing.stopFailed
    ensures !o.value.closing.statusFailed ==> Says(api.st.inst.status, PROVISIONING, "AccessMigration")
    ensures Quiet(old(api.script)) ==> Quiet(api.script) && api.st.work == old(api.st).work
    ensures old(api.script) == [] ==> api.script == [] && o.value.closing == ALL_CLOSED
  {
    hide *;
    VouchedMeans(api.st, mem.inst);
    ghost var before, was := api.moves, api.st;
    var written := UpdateImagePolicyStatus(api, mem, PROVISIONING, "AccessMigration");
    SaysMeans(api.st.inst.status, PROVISIONING, "AccessMigration");
    StatusKeptMeans(was, api.st);
    var c := Closing(false, false, written.Some?);
    Spans(api.start, since, since, before, api.moves);
    Spans(api.start, since, |before|, api.moves, api.moves);
    AccountedMeans(api.start, since, api.moves, c);
    FailsClosedMeans(api.start, since, api.moves, api.st, Denied(c, false));
    o := Some(Denied(c, false));
  }

  lemma NotesHostFree(s: State, t: State, host: string)
    requires SameButNotes(s, t)
    ensures HostFree(t, host) <==> HostFree(s, host)
  {
    SameRoutes(s, t);
  }

  lemma SameHealth(s: State, t: State)
    requires OnlyRoute(s, t)
    ensures AllHealthy(t) <==> AllHealthy(s)
  {}

  lemma OnlyRouteInst(s: State, t: State)
    ensures OnlyRoute(s, t) ==> t.inst == s.inst
  {}

  lemma HostNotBlank(cfg: Operator, host: string)
    requires HostOf(cfg) == Some(host)
    ensures Hostnames.TrimSpace(host) != ""
  {
    hide Selected;
    Hostnames.HostsAreNotBlank(cfg.base, Selected(cfg).value.slug);
  }

  /** Lines 197-226: the Service, the Ingress, readiness, and the final status. */
  method ProvisionRoute(cfg: Operator, api: ApiServer, mem: Memory, host: string) returns (o: Outcome)
    requires api.Inv() && Vouched(api.st, mem.inst) && mem.inst.status.pins == Pins(api.st)
    requires MayRead(api.st) && api.st.pass.host == HostOf(cfg) == Some(host)
    modifies api, mem
    ensures api.Inv() && old(api.moves) <= api.moves
    ensures o.Denied? ==> !o.unsaved
    ensures FailsClosed(api.start, |old(api.moves)|, api.moves, api.st, o)
    ensures o.Settled? && o.saved ==> api.st.inst.status.condition.ready == o.ready && api.st.inst.status.url == Url(cfg, host)
    ensures o.Settled? && o.saved ==> api.st.inst.status.observed == old(mem.inst).generation
    ensures Quiet(old(api.script)) ==> Quiet(api.script) && (o.Denied? && !o.closing.stopFailed ==> AtZero(api.st.work))
    ensures old(api.script) == [] ==> api.script == [] && (o.Denied? ==> o.closing == ALL_CLOSED)
    ensures old(api.script) == [] && old(mem.inst) == old(api.st).inst && Served(old(api.st)) && HostFree(old(api.st), host) ==>
      o == Settled(AllHealthy(old(api.st)), true)
  {
    hide *;
    CalmIsQuiet(api.script);
    HostNotBlank(cfg, host);
    MayReadMeans(api.st);
    var service := ReconcileService(api);
    ghost var m1, serviced := api.moves, api.st;
    PassStays(old(api.st), serviced);
    VouchedSame(old(api.st), serviced, mem.inst);
    AdmittedStays(old(api.st), serviced);
    OnlyRouteTransitive(old(api.st), serviced, serviced);
    if SameButNotes(old(api.st), serviced) {
      NotesHostFree(old(api.st), serviced, host);
    }
    if service.Some? {
      o := Deny(api, mem, "AccessNotConfigured");
      FailsClosedSince(api.start, |old(api.moves)|, |m1|, api.moves, api.st, o);
      return o;
    }
    var route := ReconcileIngress(api, cfg.ingress, host, ROOT, cfg.settings.name + "-chatui");
    ghost var m2, routed := api.moves, api.st;
    PassStays(serviced, routed);
    VouchedSame(serviced, routed, mem.inst);
    AdmittedStays(serviced, routed);
    OnlyRouteTransitive(old(api.st), serviced, routed);
    VouchedMeans(routed, mem.inst);
    if route.Some? {
      var c := StopForHostnameFailure(api, mem, route.value);
      o := Denied(c, false);
      FailsClosedMeans(api.start, |m2|, api.moves, api.st, o);
      FailsClosedSince(api.start, |old(api.moves)|, |m2|, api.moves, api.st, o);
      return o;
    }
    if OnlyRoute(old(api.st), routed) {
      SameHealth(old(api.st), routed);
    }
    OnlyRouteInst(old(api.st), routed);
    o := Settle(cfg, api, mem, host);
    FailsClosedMeans(api.start, |old(api.moves)|, api.moves, api.st, o);
  }

  /** Lines 208-226: readiness, then the final status. */
  method Settle(cfg: Operator, api: ApiServer, mem: Memory, host: string) returns (o: Outcome)
    requires api.Inv() && Vouched(api.st, mem.inst) && mem.inst.status.pins == Pins(api.st)
    requires MayRead(api.st) && api.st.pass.host == Some(host) && Hostnames.TrimSpace(host) != ""
    modifies api, mem
    ensures api.Inv() && old(api.moves) <= api.moves
    ensures o.Settled? || o == Unchecked
    ensures o.Settled? && o.saved ==> api.st.inst.status.condition.ready == o.ready && api.st.inst.status.url == Url(cfg, host)
    ensures o.Settled? && o.saved ==> api.st.inst.status.observed == old(mem.inst).generation
    ensures Quiet(old(api.script)) ==> Quiet(api.script) && (o == Settled(true, true) ==> AllHealthy(old(api.st)))
    ensures old(api.script) == [] ==> api.script == []
    ensures old(api.script) == [] && old(mem.inst) == old(api.st).inst ==> o == Settled(AllHealthy(old(api.st)), true)
  {
    hide *;
    CalmIsQuiet(api.script);
    var ready := EvaluateReadiness(api);
    PassStays(old(api.st), api.st);
    VouchedSame(old(api.st), api.st, mem.inst);
    VouchedMeans(api.st, mem.inst);
    AdmittedStays(old(api.st), api.st);
    OnlyRouteTransitive(old(api.st), api.st, api.st);
    OnlyRouteInst(old(api.st), api.st);
    if ready.Err? {
      return Unchecked;
    }
    var reason := if ready.value.Some? then ready.value.value else "Provisioned";
    var saved := SaveStatus(cfg, api, mem, host, ready.value.None?, reason);
    o := Settled(ready.value.None?, saved);
  }

  lemma StartServed(s: State, host: Option<string>, fault: Fault)
    requires Good(s)
    ensures var (t, r) := After(s, ReadInstance(host), fault);
      && (r == Failed || r == GotInstance(t.inst)) && t.inst == s.inst && t.keepsSlug == s.keepsSlug
      && (r != Failed ==>
            t.pass == NoChecks(t.inst, host) && t.past.pending.None? && Vouched(t, t.inst) && t.inst.status.pins == Pins(t))
  {
    hide Fresh, Genuine, OneTemplate, MountsPinned, PinsOurs, PinsBounded, Counted, ErasedGone, NoneErased, NoBundles, NoneHeld;
  }

  lemma StartMeans(inst: Instance, host: Option<string>)
    ensures NoChecks(inst, host).inst == inst && NoChecks(inst, host).host == host
  {}

  lemma FinalizerAllowed(s: State, rv: nat, present: bool)
    ensures Allowed(s, PutFinalizer(rv, present))
  {}

  lemma AllowedStart(s: State, host: Option<string>)
    ensures Allowed(s, ReadInstance(host))
  {}

  lemma MayReadMeans(s: State)
    ensures MayRead(s) <==> Admitted(s.pass) && s.pass.host.Some? && s.pass.clear == s.pass.host
  {}

  lemma PreparedIs(cfg: Access.Config, host: string, s: State, b: Bundle)
    requires Good(s) && Prepared(cfg, host, s, b) && b.name in Pins(s) && Pins(s)[b.name] !in s.past.erased
    ensures Held(s, b.name)
  {
    hide Good, GoodKeys, BundleData;
  }

  /** Everything is as the operator wants it, up to the readiness checks. */
  ghost predicate InOrder(cfg: Operator, k: Entropy, s: State) {
    && !s.inst.deleting && ImageAllowed(s.inst.spec.image) && Approved(s.work) && s.inst.spec.replicas <= 1
    && SlugCurrent(cfg, s.inst.status) && HostOf(cfg).Some? && Converging(cfg, k, s, HostOf(cfg).value)
  }

  lemma InOrderMeans(cfg: Operator, k: Entropy, s: State)
    ensures InOrder(cfg, k, s) <==>
      && !s.inst.deleting && ImageAllowed(s.inst.spec.image) && Approved(s.work) && s.inst.spec.replicas <= 1
      && SlugCurrent(cfg, s.inst.status) && HostOf(cfg).Some? && Converging(cfg, k, s, HostOf(cfg).value)
    ensures Converging(cfg, k, s, if HostOf(cfg).Some? then HostOf(cfg).value else "") && HostOf(cfg).Some? ==>
      HostFree(s, HostOf(cfg).value)
  {}

  /** What the controller noted does not matter for that. */
  lemma ClearIsPass(s: State, t: State)
    requires SameButNotes(s, t) || SameButClear(s, t)
    ensures t == s.(pass := t.pass, past := t.past)
  {}

  lemma StartIsCalm(s: State, host: Option<string>)
    ensures var t := After(s, ReadInstance(host), Clean).0;
      After(s, ReadInstance(host), Clean).1 == GotInstance(s.inst) && t == s.(pass := t.pass, past := t.past)
  {}

  /** Starting a pass changes nothing that the pass looks at. */
  lemma StartInOrder(cfg: Operator, k: Entropy, s: State, t: State)
    requires t == s.(pass := t.pass, past := t.past)
    ensures InOrder(cfg, k, s) ==> InOrder(cfg, k, t)
    ensures AllHealthy(t) <==> AllHealthy(s)
  {
    hide Converged, Desired, Unclaimed, RolledOut, Approved, Hostnames.Host, Selected, GoodKeys, NewKeys, BundleData;
  }

  /** The three checks of the workload pass, a host is selected, but the schema would not store it. */
  predicate Pruning(cfg: Operator, s: State) {
    && !s.inst.deleting && ImageAllowed(s.inst.spec.image) && Approved(s.work) && s.inst.spec.replicas <= 1
    && Selected(cfg).Ok? && !s.keepsSlug
  }

  lemma PruningMeans(cfg: Operator, s: State, t: State)
    ensures Pruning(cfg, s) <==>
      && !s.inst.deleting && ImageAllowed(s.inst.spec.image) && Approved(s.work) && s.inst.spec.replicas <= 1
      && Selected(cfg).Ok? && !s.keepsSlug
    ensures t == s.(pass := t.pass, past := t.past) ==> (Pruning(cfg, t) <==> Pruning(cfg, s))
  {
    hide Approved, Selected;
  }

  /** A failed hostname write leaves the stored status as it was or closed. */
  lemma UnsavedStatus(s: State, t: State, before: Status, after: Status)
    requires Shows(s, before) && Closed(after)
    requires t.inst.status == s.inst.status || t.inst.status == Stored(s, Merge(before, after, s.inst.status))
    ensures Closed(t.inst.status) || t.inst.status == s.inst.status
  {}

  /** Lines 131-227: the pass of an instance that is not being deleted. */
  method ReconcileLive(cfg: Operator, api: ApiServer, mem: Memory, k: Entropy) returns (o: Outcome)
    requires api.Inv() && Vouched(api.st, mem.inst) && mem.inst == api.st.pass.inst && mem.inst.status == api.st.inst.status
    requires api.st.pass.host == HostOf(cfg)
    modifies api, mem
    ensures api.Inv() && old(api.moves) <= api.moves
    ensures FailsClosed(api.start, |old(api.moves)|, api.moves, api.st, o)
    ensures o.Denied? && o.unsaved && !o.closing.statusFailed ==>
      Closed(api.st.inst.status) || api.st.inst.status == old(api.st).inst.status
    ensures o.Settled? && o.saved ==> HostOf(cfg).Some?
    ensures o.Settled? && o.saved ==>
      api.st.inst.status.condition.ready == o.ready && api.st.inst.status.url == Url(cfg, HostOf(cfg).value)
    ensures Quiet(old(api.script)) ==> Quiet(api.script) && (o.Denied? && !o.closing.stopFailed ==> AtZero(api.st.work))
    ensures old(api.script) == [] ==> api.script == [] && (o.Denied? ==> o.closing == ALL_CLOSED && !o.unsaved)
    ensures old(api.script) == [] && old(mem.inst) == old(api.st).inst && Pruning(cfg, old(api.st)) ==>
      o.Denied? && Says(api.st.inst.status, PROVISIONING, "HostnamePending")
    ensures old(api.script) == [] && old(mem.inst) == old(api.st).inst && InOrder(cfg, k, old(api.st)) ==>
      o == Settled(AllHealthy(old(api.st)), true)
  {
    hide *;
    CalmIsQuiet(api.script);
    RereadServed(api.st);
    if old(api.script) == [] {
      InOrderMeans(cfg, k, api.st);
      PruningMeans(cfg, api.st, api.st);
    }
    var denied := CheckWorkload(api, mem);
    if denied.Some? {
      return denied.value;
    }
    ghost var m1, admitted := api.moves, api.st;
    if old(api.script) == [] {
      ClearIsPass(old(api.st), admitted);
      StartInOrder(cfg, k, old(api.st), admitted);
    }
    AdmittedStays(old(api.st), admitted);
    KeepsSame(old(api.st), admitted);
    o := Publish(cfg, api, mem, k);
    FailsClosedSince(api.start, |old(api.moves)|, |m1|, api.moves, api.st, o);
  }

  /** Lines 151-226: the hostname, then everything that needs it. */
  method Publish(cfg: Operator, api: ApiServer, mem: Memory, k: Entropy) returns (o: Outcome)
    requires api.Inv() && Vouched(api.st, mem.inst) && mem.inst.status == api.st.inst.status
    requires Admitted(api.st.pass) && api.st.pass.host == HostOf(cfg)
    modifies api, mem
    ensures api.Inv() && old(api.moves) <= api.moves
    ensures FailsClosed(api.start, |old(api.moves)|, api.moves, api.st, o)
    ensures o.Denied? && o.unsaved && !o.closing.statusFailed ==>
      Closed(api.st.inst.status) || api.st.inst.status == old(api.st).inst.status
    ensures o.Settled? && o.saved ==> HostOf(cfg).Some?
    ensures o.Settled? && o.saved ==>
      api.st.inst.status.condition.ready == o.ready && api.st.inst.status.url == Url(cfg, HostOf(cfg).value)
    ensures Quiet(old(api.script)) ==> Quiet(api.script) && (o.Denied? && !o.closing.stopFailed ==> AtZero(api.st.work))
    ensures old(api.script) == [] ==> api.script == [] && (o.Denied? ==> o.closing == ALL_CLOSED && !o.unsaved)
    ensures old(api.script) == [] && Selected(cfg).Ok? && !old(api.st).keepsSlug ==>
      o.Denied? && Says(api.st.inst.status, PROVISIONING, "HostnamePending")
    ensures old(api.script) == [] && old(mem.inst) == old(api.st).inst && InOrder(cfg, k, old(api.st)) ==>
      o == Settled(AllHealthy(old(api.st)), true)
  {
    hide *;
    CalmIsQuiet(api.script);
    InOrderMeans(cfg, k, api.st);
    VouchedMeans(api.st, mem.inst);
    var host := SelectedInstanceHost(cfg, api, mem);
    ghost var m1, named := api.moves, api.st;
    StatusKeptMeans(old(api.st), named);
    AdmittedStays(old(api.st), named);
    MayReadMeans(named);
    if SameButClear(old(api.st), named) {
      ClearIsPass(old(api.st), named);
      StartInOrder(cfg, k, old(api.st), named);
      InOrderMeans(cfg, k, named);
    }
    if host.Err? {
      VouchedMeans(named, mem.inst);
      NamedMeans(host.error);
      if host.error == SlugUnsaved {
        UnsavedStatus(old(api.st), named, old(mem.inst).status, mem.inst.status);
      }
      o := HostnameDenied(api, mem, host.error, |old(api.moves)|);
      return o;
    }
    o := Provision(cfg, api, mem, host.value, k);
    FailsClosedSince(api.start, |old(api.moves)|, |m1|, api.moves, api.st, o);
  }

  /** What a hostname failure leaves. */
  method HostnameDenied(api: ApiServer, mem: Memory, cause: Err, ghost since: nat) returns (o: Outcome)
    requires api.Inv() && Traced(api.st, mem.inst) && (cause != SlugUnsaved ==> Vouched(api.st, mem.inst)) && since <= |api.moves|
    requires cause == SlugUnsaved ==> Closed(mem.inst.status) && PartFailed(api.start, since, api.moves, StatusPart)
    modifies api, mem
    ensures api.Inv() && old(api.moves) <= api.moves
    ensures o.Denied? && o.unsaved == (cause == SlugUnsaved) && FailsClosed(api.start, since, api.moves, api.st, o)
    ensures !Named(cause) && Closed(old(mem.inst).status) ==>
      !o.closing.statusFailed && api.st.inst.status == old(api.st).inst.status
    ensures Quiet(old(api.script)) ==> Quiet(api.script) && (!o.closing.stopFailed ==> AtZero(api.st.work))
    ensures old(api.script) == [] ==> api.script == [] && o.closing == ALL_CLOSED
  {
    hide *;
    ghost var before := api.moves;
    var c := StopForHostnameFailure(api, mem, cause);
    o := Denied(c, cause == SlugUnsaved);
    Spans(api.start, since, since, before, api.moves);
    FailsClosedSince(api.start, since, |before|, api.moves, api.st, o);
    FailsClosedMeans(api.start, since, api.moves, api.st, o);
  }

  /** `Reconcile`. */
  method Reconcile(cfg: Operator, api: ApiServer, mem: Memory, k: Entropy) returns (o: Outcome)
    requires api.Inv()
    modifies api, mem
    ensures api.Inv() && old(api.moves) <= api.moves
    ensures FailsClosed(api.start, |old(api.moves)|, api.moves, api.st, o)
    ensures o.Denied? && o.unsaved && !o.closing.statusFailed ==>
      Closed(api.st.inst.status) || api.st.inst.status == old(api.st).inst.status
    ensures o.Settled? && o.saved ==> HostOf(cfg).Some?
    ensures o.Settled? && o.saved ==>
      api.st.inst.status.condition.ready == o.ready && api.st.inst.status.url == Url(cfg, HostOf(cfg).value)
    ensures Quiet(old(api.script)) ==> Quiet(api.script) && (o.Denied? && !o.closing.stopFailed ==> AtZero(api.st.work))
    ensures old(api.script) == [] ==> api.script == [] && (o.Denied? ==> o.closing == ALL_CLOSED && !o.unsaved)
    ensures old(api.script) == [] && Pruning(cfg, old(api.st)) ==>
      o.Denied? && Says(api.st.inst.status, PROVISIONING, "HostnamePending")
    ensures old(api.script) == [] && InOrder(cfg, k, old(api.st)) ==> o == Settled(AllHealthy(old(api.st)), true)
  {
    hide *;
    AllowedStart(api.st, HostOf(cfg));
    QuietCall(api.script);
    ghost var fault := Head(api.script).fault;
    var reply := api.Call(ReadInstance(HostOf(cfg)));
    ghost var m1 := api.moves;
    StartServed(api.seen, HostOf(cfg), fault);
    StartIsCalm(old(api.st), HostOf(cfg));
    RelyStatus(old(api.st), api.seen);
    FailsClosedMeans(api.start, |old(api.moves)|, api.moves, api.st, Aborted);
    PruningMeans(cfg, old(api.st), api.st);
    InOrderMeans(cfg, k, old(api.st));
    if !reply.GotInstance? {
      return Aborted;
    }
    mem.inst := reply.inst;
    StartMeans(mem.inst, HostOf(cfg));
    if old(api.script) == [] {
      StartInOrder(cfg, k, old(api.st), api.st);
    }
    if mem.inst.deleting {
      if mem.inst.finalizer {
        FinalizerAllowed(api.st, mem.inst.rv, false);
        QuietCall(api.script);
        var removed := api.Call(PutFinalizer(mem.inst.rv, false));
      }
      FailsClosedMeans(api.start, |old(api.moves)|, api.moves, api.st, Gone);
      return Gone;
    }
    o := ReconcileLive(cfg, api, mem, k);
    FailsClosedSince(api.start, |old(api.moves)|, |m1|, api.moves, api.st, o);
  }

  /** Nothing is left to create, to change or to wait for before the route. */
  ghost predicate Converging(cfg: Operator, k: Entropy, s: State, host: string) {
    && s.inst.finalizer && CanPrepare(cfg.access, host, k, s) && BothExist(cfg.access, host, k, s)
    && WorkloadSettled(cfg, s, s.inst, BundleFor(cfg.access, host, k, s)) && Served(s) && HostFree(s, host)
  }

  lemma ConvergingMeans(cfg: Operator, k: Entropy, s: State, host: string)
    ensures Converging(cfg, k, s, host) <==>
      && s.inst.finalizer && CanPrepare(cfg.access, host, k, s) && BothExist(cfg.access, host, k, s)
      && WorkloadSettled(cfg, s, s.inst, BundleFor(cfg.access, host, k, s)) && Served(s) && HostFree(s, host)
  {}

  lemma NotesConverging(cfg: Operator, s: State, t: State, inst: Instance, b: Bundle, host: string)
    requires SameButNotes(s, t)
    ensures t.inst == s.inst && (Served(t) <==> Served(s)) && (HostFree(t, host) <==> HostFree(s, host))
    ensures (AllHealthy(t) <==> AllHealthy(s)) && (WorkloadSettled(cfg, t, inst, b) <==> WorkloadSettled(cfg, s, inst, b))
  {
    hide Converged, Desired, Unclaimed, RolledOut;
    NotesHostFree(s, t, host);
  }

  /** Lines 156-226: access, the finalizer, the workload, the route. */
  method Provision(cfg: Operator, api: ApiServer, mem: Memory, host: string, k: Entropy) returns (o: Outcome)
    requires api.Inv() && Vouched(api.st, mem.inst) && mem.inst.status.pins == Pins(api.st)
    requires MayRead(api.st) && api.st.pass.host == HostOf(cfg) == Some(host)
    modifies api, mem
    ensures api.Inv() && old(api.moves) <= api.moves
    ensures o.Denied? ==> !o.unsaved
    ensures FailsClosed(api.start, |old(api.moves)|, api.moves, api.st, o)
    ensures o.Settled? && o.saved ==> api.st.inst.status.condition.ready == o.ready && api.st.inst.status.url == Url(cfg, host)
    ensures Quiet(old(api.script)) ==> Quiet(api.script) && (o.Denied? && !o.closing.stopFailed ==> AtZero(api.st.work))
    ensures old(api.script) == [] ==> api.script == [] && (o.Denied? ==> o.closing == ALL_CLOSED)
    ensures old(api.script) == [] && old(mem.inst) == old(api.st).inst && Converging(cfg, k, old(api.st), host) ==>
      o == Settled(AllHealthy(old(api.st)), true)
  {
    hide *;
    CalmIsQuiet(api.script);
    ConvergingMeans(cfg, k, api.st, host);
    VouchedMeans(api.st, mem.inst);
    var access := PrepareAccess(cfg.access, api, mem, host, k);
    ghost var m1, prepared := api.moves, api.st;
    InvGood(api);
    ChecksStay(old(api.st), prepared);
    AdmissionGoesOn(old(api.st), prepared, prepared);
    VouchedMeans(prepared, mem.inst);
    if SameButNotes(old(api.st), prepared) && access.Ok? {
      NotesConverging(cfg, old(api.st), prepared, mem.inst, access.value, host);
    }
    if access.Err? {
      o := Deny(api, mem, "AccessNotConfigured");
      FailsClosedSince(api.start, |old(api.moves)|, |m1|, api.moves, api.st, o);
      return o;
    }
    PreparedIs(cfg.access, host, prepared, access.value);
    ReadAgainFits(old(api.st), prepared, old(mem.inst), mem.inst, access.value.name);
    if !mem.inst.finalizer {
      FinalizerAllowed(api.st, mem.inst.rv, true);
      QuietCall(api.script);
      var added := api.Call(PutFinalizer(mem.inst.rv, true));
      FailsClosedMeans(api.start, |old(api.moves)|, api.moves, api.st, Requeued);
      return Requeued;
    }
    var denied := ProvisionWorkload(cfg, api, mem, access.value);
    ghost var m2, deployed := api.moves, api.st;
    if denied.Some? {
      FailsClosedSince(api.start, |old(api.moves)|, |m1|, api.moves, api.st, denied.value);
      return denied.value;
    }
    ChecksStay(prepared, deployed);
    AdmissionGoesOn(prepared, deployed, deployed);
    if SameButNotes(prepared, deployed) {
      NotesConverging(cfg, prepared, deployed, mem.inst, access.value, host);
    }
    o := ProvisionRoute(cfg, api, mem, host);
    FailsClosedSince(api.start, |old(api.moves)|, |m2|, api.moves, api.st, o);
  }

  /** Passes one after another, each with a fresh memory: whatever was cut off in between, the
      run so far is legal, and it extends the one before. */
  method RunPasses(cfg: Operator, api: ApiServer, keys: seq<Entropy>) returns (outcomes: seq<Outcome>)
    requires api.Inv()
    modifies api
    ensures api.Inv() && old(api.moves) <= api.moves && Reached(api.start, api.moves, api.st)
    ensures |outcomes| == |keys|
    ensures Quiet(old(api.script)) ==> Quiet(api.script)
    ensures keys != [] ==> FailsClosed(api.start, |old(api.moves)|, api.moves, api.st, outcomes[|keys| - 1])
    ensures keys != [] && Quiet(old(api.script)) && outcomes[|keys| - 1].Denied? && !outcomes[|keys| - 1].closing.stopFailed ==>
      AtZero(api.st.work)
  {
    hide Good, FailsClosed, AtZero, Reached, Quiet;
    outcomes := [];
    for i := 0 to |keys|
      invariant api.Inv() && old(api.moves) <= api.moves
      invariant |outcomes| == i
      invariant Quiet(old(api.script)) ==> Quiet(api.script)
      invariant i > 0 ==> FailsClosed(api.start, |old(api.moves)|, api.moves, api.st, outcomes[i - 1])
      invariant i > 0 && Quiet(old(api.script)) && outcomes[i - 1].Denied? && !outcomes[i - 1].closing.stopFailed ==>
        AtZero(api.st.work)
    {
      var mem := new Memory(api.st.inst);
      ghost var before := api.moves;
      var o := Reconcile(cfg, api, mem, keys[i]);
      FailsClosedSince(api.start, |old(api.moves)|, |before|, api.moves, api.st, o);
      outcomes := outcomes + [o];
    }
  }
}
