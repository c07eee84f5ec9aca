/** Recording pins in the instance's status (internal/controller/access_resources.go). */
module Pinning {
  import opened Basics
  import opened Cluster
  import opened Safety
  import opened Runs
  import opened Server

  predicate SameButPins(a: Status, b: Status) { b == a.(pins := b.pins) }

  /** The stored status is what the schema keeps of this one, pins aside. */
  predicate Shows(s: State, x: Status) { SameButPins(s.inst.status, Stored(s, x)) }

  /** The copy of the instance is a version of it since the pass began, its spec is ordinary, and the stored
      status is the one in it. */
  predicate Vouched(s: State, inst: Instance) { Ordinary(s, inst) && Traced(s, inst) && Shows(s, inst.status) }

  /** What stays the same while pins or Secrets are written. */
  ghost predicate Steady(s: State, t: State) {
    && OwnRefs(t.work) <= OwnRefs(s.work) && t.solo == s.solo && t.keepsPins == s.keepsPins
    && SameButPins(s.inst.status, t.inst.status) && SamePass(s, t)
    && s.past.mine.Keys <= t.past.mine.Keys && (forall u :: u in s.past.mine ==> t.past.mine[u] == s.past.mine[u])
  }

  /** The copy of the instance is the same, or it was read again when a pin was written. */
  predicate Reread(s: State, t: State, before: Instance, after: Instance) {
    after == before || (t.pass.pinned && Lineage(s.inst, after))
  }

  lemma RereadStays(s: State, t: State, u: State, before: Instance, now: Instance, after: Instance)
    requires Steady(s, t) && (u == t || Steady(t, u))
    ensures Reread(s, t, before, before)
    ensures Reread(s, t, before, now) && Reread(t, u, now, after) ==> Reread(s, u, before, after)
    ensures t.pass.pinned ==> Reread(s, t, before, t.inst)
  {
    hide OwnRefs;
  }

  lemma SteadyPinned(s: State, t: State)
    requires Steady(s, t)
    ensures s.pass.pinned ==> t.pass.pinned
  {
    hide OwnRefs;
  }

  lemma SteadyTransitive(s: State, t: State, u: State)
    requires Steady(s, t) && Steady(t, u)
    ensures Steady(s, u)
  {}

  lemma SteadyRefs(s: State, t: State)
    requires Steady(s, t)
    ensures OwnRefs(t.work) <= OwnRefs(s.work)
  {}

  lemma VouchedSteady(s: State, t: State, inst: Instance)
    requires Steady(s, t)
    ensures (Vouched(s, inst) ==> Vouched(t, inst)) && SamePass(s, t) && SameAdmission(s, t)
    ensures MayRead(s) ==> MayRead(t)
  {}

  lemma JustRead(s: State, t: State)
    requires Good(s) && SameButNotes(s, t)
    ensures Vouched(t, s.inst)
  {
    hide Fresh, Genuine, OneTemplate, MountsPinned, PinsOurs, PinsBounded, Counted, ErasedMarked, ErasedBundles;
  }

  lemma KeptSteady(s: State, t: State)
    requires Kept(s, t)
    ensures Steady(s, t) && Pins(t) == Pins(s) && t.past.erased == s.past.erased && t.past.mine == s.past.mine
    ensures t.past.pending == s.past.pending && t.past.retired == s.past.retired && s.past.gone <= t.past.gone
  {}

  /** Secrets, pins and notes may change, what this controller created stays known. */
  lemma FramedSteady(s: State, t: State)
    requires t.work == s.work && t.solo == s.solo && t.keepsPins == s.keepsPins && t.keepsSlug == s.keepsSlug
    requires SameButPins(s.inst.status, t.inst.status) && t.inst.generation == s.inst.generation && t.inst.spec == s.inst.spec
    requires t.pass == s.pass || t.pass == s.pass.(pinned := true)
    requires s.past.mine.Keys <= t.past.mine.Keys && forall u :: u in s.past.mine ==> t.past.mine[u] == s.past.mine[u]
    ensures Steady(s, t)
  {
    hide OwnRefs;
  }

  lemma PatchEffect(s: State, rv: nat, pins: Pinned)
    ensures var (t, r) := ServePatchPins(s, rv, pins);
      && SameButPins(s.inst.status, t.inst.status) && t.past.mine == s.past.mine && t.past.erased == s.past.erased
      && (r == Done || r == Failed) && (r == Done <==> rv == s.inst.rv) && (r == Failed ==> t == s)
  {
    PatchFrame(s, rv, pins);
  }

  lemma PatchAnswered(s: State, rv: nat, pins: Pinned, fault: Fault)
    ensures var (t, r) := After(s, PatchPins(rv, pins), fault); var served := ServePatchPins(s, rv, pins);
      && (t == s || t == served.0 || (t == served.0.(pass := served.0.pass.(pinned := true)) && served.1 == Done))
      && (r == Failed || (r == served.1 == Done && t == served.0.(pass := served.0.pass.(pinned := true))))
      && (fault == Clean && served.1 == Done ==> r == Done)
  {
    hide ServePatchPins;
    PatchEffect(s, rv, pins);
  }

  lemma PinnedNotes(s: State)
    ensures SameButNotes(s, s) && SameButNotes(s, s.(pass := s.pass.(pinned := true)))
  {}

  lemma PatchServed(old_: State, s: State, rv: nat, pins: Pinned, fault: Fault)
    requires Rely(old_, s) && Good(s)
    ensures var t := After(s, PatchPins(rv, pins), fault).0;
      && Steady(old_, t) && t.past.erased == old_.past.erased && t.past.mine == old_.past.mine
      && (t == s || SameButNotes(ServePatchPins(s, rv, pins).0, t))
      && (After(s, PatchPins(rv, pins), fault).1 != Failed ==>
            t.pass.pinned && SameButNotes(ServePatchPins(s, rv, pins).0, t) && rv == s.inst.rv)
      && (fault == Clean && rv == s.inst.rv ==> After(s, PatchPins(rv, pins), fault).1 == Done)
  {
    hide Good, Rely, Steady, SameButNotes, After, ServePatchPins, SameButPins;
    RelyIsKept(old_, s);
    KeptSteady(old_, s);
    PatchEffect(s, rv, pins);
    PatchFrame(s, rv, pins);
    PatchAnswered(s, rv, pins, fault);
    PinnedNotes(ServePatchPins(s, rv, pins).0);
    AlikePins(s.inst.status);
    FramedSteady(s, After(s, PatchPins(rv, pins), fault).0);
    SteadyTransitive(old_, s, After(s, PatchPins(rv, pins), fault).0);
  }

  lemma AlikePins(x: Status)
    ensures SameButPins(x, x)
  {}

  /** `persistAccessSecretPins`: an optimistic write, then a read of a fresh object. */
  method PersistPins(api: ApiServer, mem: Memory, pins: Pinned) returns (e: Option<Err>)
    requires api.Inv() && Allowed(api.st, PatchPins(mem.inst.rv, pins))
    modifies api, mem
    ensures api.Inv() && old(api.moves) <= api.moves
    ensures Steady(old(api.st), api.st) && api.st.past.erased == old(api.st).past.erased && api.st.past.mine == old(api.st).past.mine
    ensures e.None? ==> mem.inst == api.st.inst && mem.inst.status.pins == pins == Pins(api.st)
    ensures Reread(old(api.st), api.st, old(mem.inst), mem.inst)
    ensures Vouched(old(api.st), old(mem.inst)) ==> Vouched(api.st, mem.inst)
    ensures e.Some? ==> mem.inst == old(mem.inst) && (e.value.Api? || e.value.SchemaPrunes?)
    ensures Quiet(old(api.script)) ==> Quiet(api.script)
    ensures Quiet(old(api.script)) ==>
      SameButNotes(old(api.st), api.st) || SameButNotes(ServePatchPins(old(api.st), old(mem.inst).rv, pins).0, api.st)
    ensures Quiet(old(api.script)) && e.None? ==>
      SameButNotes(ServePatchPins(old(api.st), old(mem.inst).rv, pins).0, api.st)
    ensures old(api.script) == [] ==> api.script == []
    ensures old(api.script) == [] ==>
      (e.None? <==> old(mem.inst).rv == old(api.st).inst.rv && (old(api.st).keepsPins || pins == Pins(old(api.st))))
  {
    hide *;
    ghost var rv := mem.inst.rv;
    var reply := api.Call(PatchPins(mem.inst.rv, pins));
    ghost var found, written := api.seen, api.st;
    InvGood(api);
    PatchServed(old(api.st), found, rv, pins, Head(old(api.script)).fault);
    QuietCall(old(api.script));
    NotesReflexive(written);
    VouchedSteady(old(api.st), written, mem.inst);
    RereadStays(old(api.st), written, written, mem.inst, mem.inst, mem.inst);
    if reply.Failed? {
      return Some(Api);
    }
    PatchStores(found, rv, pins);
    NotesKeepInstance(ServePatchPins(found, rv, pins).0, written);
    RereadServed(api.st);
    var again := Read(api, RereadInstance);
    RereadServed(api.seen);
    KeptSteady(written, api.st);
    KeptSteady(written, api.seen);
    SteadyTransitive(old(api.st), written, api.st);
    NotesKeepInstance(api.seen, api.st);
    VouchedSteady(old(api.st), api.st, mem.inst);
    SteadyPinned(written, api.st);
    RereadStays(old(api.st), api.st, api.st, mem.inst, mem.inst, mem.inst);
    if Quiet(old(api.script)) {
      NotesCompose(ServePatchPins(found, rv, pins).0, written, api.st);
    }
    if again.Failed? {
      return Some(Api);
    }
    if again.inst.status.pins != pins {
      return Some(SchemaPrunes);
    }
    mem.inst := again.inst;
    JustRead(api.seen, api.st);
    e := None;
  }

  lemma PatchStores(s: State, rv: nat, pins: Pinned)
    requires rv == s.inst.rv
    ensures Pins(ServePatchPins(s, rv, pins).0) == if s.keepsPins then pins else Pins(s)
  {}

  lemma RereadServed(s: State)
    ensures Serve(s, RereadInstance).1 == GotInstance(s.inst) && s.inst.status.pins == Pins(s)
    ensures Reads(RereadInstance) && Allowed(s, RereadInstance)
  {}

  lemma NotesKeepInstance(s: State, t: State)
    requires SameButNotes(s, t)
    ensures t.inst == s.inst && Pins(t) == Pins(s)
  {}

  // ---- creating a Secret and pinning it ----

  /** Whether the pins can take one more name: the session comes first and alone, then at most three bundles. */
  predicate PinRoom(pins: Pinned, n: Name) {
    n !in pins && (n.Session? || n.Access?)
    && (if n.Session? then pins == map[] else Name.Session in pins && |pins| <= MAX_BUNDLES)
  }

  /** Only the Secret `n` and its pin are new. */
  ghost predicate CreatedAndPinned(s: State, t: State, n: Name, data: Data) {
    && n !in s.secrets && n in t.secrets && t.secrets == s.secrets[n := t.secrets[n]]
    && Usable(t.secrets[n], t.secrets[n].uid) && t.secrets[n].data == data
    && Pins(t) == Pins(s)[n := t.secrets[n].uid]
    && t.credential == s.credential && t.keepsPins == s.keepsPins && t.work == s.work && t.others == s.others
    && t.inst == s.inst.(rv := t.inst.rv, status := s.inst.status.(pins := Pins(t)))
  }

  /** An owned immutable Secret with the pinned UID that nobody is deleting. */
  predicate Usable(x: Secret, uid: nat) { x.owned && x.immutable && !x.deleting && x.uid == uid && uid != 0 }

  lemma CreateAnswered(s: State, n: Name, data: Data, fault: Fault)
    ensures var (t, r) := After(s, CreateSecret(n, data), fault);
      && (t == s || (n !in s.secrets && t == ServeCreateSecret(s, n, data).0))
      && (r.GotSecret? ==> t != s && n in t.secrets && r.secret == t.secrets[n])
      && (r == Failed || r.GotSecret?)
      && (fault == Clean && n !in s.secrets ==> r.GotSecret?)
  {}

  lemma CreateEffect(s: State, n: Name, data: Data)
    requires Good(s)
    ensures var t := ServeCreateSecret(s, n, data).0;
      && s.past.mine.Keys <= t.past.mine.Keys && (forall u :: u in s.past.mine ==> t.past.mine[u] == s.past.mine[u])
  {
    hide Genuine, OneTemplate, MountsPinned, Counted, NoBundles, PinsBounded, PinsOurs, Alone, ErasedMarked, ErasedBundles, Snapped,
      SecretsFresh;
  }

  lemma CreateServed(s: State, n: Name, data: Data, fault: Fault)
    requires Good(s)
    ensures var (t, r) := After(s, CreateSecret(n, data), fault);
      && Steady(s, t) && Pins(t) == Pins(s) && t.past.erased == s.past.erased
      && (t == s || (n !in s.secrets && t == ServeCreateSecret(s, n, data).0))
      && (r.GotSecret? ==> t != s && n in t.secrets && r.secret == t.secrets[n])
      && (r == Failed || r.GotSecret?)
      && (fault == Clean && n !in s.secrets ==> r.GotSecret?)
  {
    hide Good, Steady, After, ServeCreateSecret, SameButPins;
    CreateAnswered(s, n, data, fault);
    CreateEffect(s, n, data);
    CreateFrame(s, n, data);
    AlikePins(s.inst.status);
    FramedSteady(s, After(s, CreateSecret(n, data), fault).0);
  }

  lemma CreatedFacts(s: State, n: Name, data: Data)
    requires Good(s) && n !in s.secrets
    ensures var t := ServeCreateSecret(s, n, data).0;
      && n in t.secrets && t.past.pending == Some((n, t.secrets[n].uid)) && t.secrets[n].data == data
      && t.secrets[n].uid in t.past.mine && t.past.mine[t.secrets[n].uid] == Made(n, data)
      && t.secrets[n].uid != 0 && t.secrets[n].uid !in t.past.erased && t.inst == s.inst && t.keepsPins == s.keepsPins
  {
    hide Genuine, OneTemplate, MountsPinned, Counted, NoBundles, PinsBounded, Alone;
    assert forall u :: u in s.past.erased ==> u in s.past.mine;
  }

  lemma PinAllowed(s: State, rv: nat, n: Name, uid: nat)
    requires MayRead(s) && s.past.pending == Some((n, uid)) && PinRoom(Pins(s), n)
    ensures Allowed(s, PatchPins(rv, Pins(s)[n := uid]))
    ensures |Pins(s)[n := uid]| <= MAX_BUNDLES + 1 && Pins(s)[n := uid] != Pins(s)
  {
    SizeOfUpdate(Pins(s), n, uid);
  }

  lemma CreatedThenPinned(s: State, t: State, now: State, n: Name, data: Data, rv: nat)
    requires Good(s) && n !in s.secrets && t == ServeCreateSecret(s, n, data).0
    requires SameButNotes(t, now) || SameButNotes(ServePatchPins(t, rv, Pins(t)[n := t.secrets[n].uid]).0, now)
    ensures now.past.pending.None? || (n !in Pins(s) && Pins(now) == Pins(s)[n := t.secrets[n].uid]) ==>
      CreatedAndPinned(s, now, n, data) && Lookup(now.secrets, n) == Some(t.secrets[n])
  {
    hide Genuine, OneTemplate, MountsPinned, Counted, NoBundles, PinsBounded, Alone, PinsOurs;
  }

  /** `pinAccessSecret`; a full history cannot happen here. */
  method PinAccessSecret(api: ApiServer, mem: Memory, n: Name, x: Secret) returns (e: Option<Err>)
    requires api.Inv() && mem.inst.status.pins == Pins(api.st)
    requires api.st.past.pending == Some((n, x.uid)) && PinRoom(Pins(api.st), n) && MayRead(api.st)
    modifies api, mem
    ensures api.Inv() && old(api.moves) <= api.moves
    ensures Steady(old(api.st), api.st) && api.st.past.erased == old(api.st).past.erased && api.st.past.mine == old(api.st).past.mine
    ensures e.None? ==> mem.inst == api.st.inst && mem.inst.status.pins == Pins(api.st) == Pins(old(api.st))[n := x.uid]
    ensures Reread(old(api.st), api.st, old(mem.inst), mem.inst)
    ensures Vouched(old(api.st), old(mem.inst)) ==> Vouched(api.st, mem.inst)
    ensures e.Some? ==> mem.inst == old(mem.inst) && e.value != HistoryFull && e.value != HistoryInvalid
    ensures Quiet(old(api.script)) ==> Quiet(api.script)
    ensures Quiet(old(api.script)) ==>
      SameButNotes(old(api.st), api.st)
      || SameButNotes(ServePatchPins(old(api.st), old(mem.inst).rv, Pins(old(api.st))[n := x.uid]).0, api.st)
    ensures Quiet(old(api.script)) && e.None? ==>
      SameButNotes(ServePatchPins(old(api.st), old(mem.inst).rv, Pins(old(api.st))[n := x.uid]).0, api.st)
    ensures old(api.script) == [] ==> api.script == []
    ensures old(api.script) == [] ==>
      (e.None? <==> old(mem.inst).rv == old(api.st).inst.rv && old(api.st).keepsPins && x.uid != 0)
  {
    hide *;
    KeptReflexive(api.st);
    KeptSteady(api.st, api.st);
    NotesReflexive(api.st);
    RereadStays(api.st, api.st, api.st, mem.inst, mem.inst, mem.inst);
    if x.uid == 0 {
      return Some(Api);
    }
    var pins := mem.inst.status.pins[n := x.uid];
    PinAllowed(api.st, mem.inst.rv, n, x.uid);
    if |pins| > MAX_BUNDLES + 1 {
      return Some(HistoryFull);
    }
    e := PersistPins(api, mem, pins);
  }

  /** Create a Secret and record the UID it got. */
  method CreatePinned(api: ApiServer, mem: Memory, n: Name, data: Data) returns (r: Result<Secret, Err>)
    requires api.Inv() && mem.inst.status.pins == Pins(api.st) && PinRoom(Pins(api.st), n) && MayRead(api.st)
    modifies api, mem
    ensures api.Inv() && old(api.moves) <= api.moves && Steady(old(api.st), api.st)
    ensures r.Ok? ==> mem.inst == api.st.inst && mem.inst.status.pins == Pins(api.st) == Pins(old(api.st))[n := r.value.uid]
    ensures Reread(old(api.st), api.st, old(mem.inst), mem.inst)
    ensures Vouched(old(api.st), old(mem.inst)) ==> Vouched(api.st, mem.inst)
    ensures r.Ok? ==> r.value.data == data && r.value.uid in api.st.past.mine && api.st.past.mine[r.value.uid] == Made(n, data)
                      && r.value.uid !in api.st.past.erased
    ensures r.Err? ==> mem.inst == old(mem.inst) && r.error != HistoryFull && r.error != HistoryInvalid
    ensures Quiet(old(api.script)) ==> Quiet(api.script)
    ensures Quiet(old(api.script)) && api.st.past.pending.None? ==>
      SameButNotes(old(api.st), api.st) || CreatedAndPinned(old(api.st), api.st, n, data)
    ensures old(api.script) == [] ==> api.script == []
    ensures old(api.script) == [] && old(mem.inst) == old(api.st).inst ==>
      (r.Ok? <==> n !in old(api.st).secrets && old(api.st).keepsPins)
    ensures Quiet(old(api.script)) && r.Ok? ==>
      CreatedAndPinned(old(api.st), api.st, n, data) && Lookup(api.st.secrets, n) == Some(r.value)
  {
    hide *;
    CreateAllowed(api.st, n, data);
    CalmIsQuiet(api.script);
    var reply := api.Call(CreateSecret(n, data));
    ghost var created := api.st;
    RelyIsKept(old(api.st), api.seen);
    KeptSteady(old(api.st), api.seen);
    CreateServed(api.seen, n, data, Head(old(api.script)).fault);
    SteadyTransitive(old(api.st), api.seen, created);
    VouchedSteady(old(api.st), created, mem.inst);
    QuietCall(old(api.script));
    NotesReflexive(created);
    if n !in api.seen.secrets {
      CreatedFacts(api.seen, n, data);
      if created != api.seen && Quiet(old(api.script)) {
        CreatedThenPinned(api.seen, created, created, n, data, 0);
      }
    }
    RereadStays(old(api.st), created, created, mem.inst, mem.inst, mem.inst);
    if !reply.GotSecret? {
      return Err(Api);
    }
    ghost var seen, rv := api.seen, mem.inst.rv;
    var e := PinAccessSecret(api, mem, n, reply.secret);
    SteadyTransitive(old(api.st), created, api.st);
    RereadStays(old(api.st), created, api.st, old(mem.inst), old(mem.inst), mem.inst);
    if Quiet(old(api.script)) {
      CreatedThenPinned(seen, created, api.st, n, data, rv);
    }
    if e.Some? {
      return Err(e.value);
    }
    r := Ok(reply.secret);
  }

  lemma CreateAllowed(s: State, n: Name, data: Data)
    requires PinRoom(Pins(s), n) && MayRead(s)
    ensures Allowed(s, CreateSecret(n, data)) && n !in Pins(s)
  {}
}
