/** The session Secret and the access bundle of an instance (internal/controller/access_resources.go). */
module Access {
  import opened Basics
  import opened Templates
  import opened Cluster
  import opened Safety
  import opened Runs
  import opened Server
  import opened Pinning
  import opened History
  import Base64

  /** Two 32-byte random keys, or no entropy. */
  datatype Keys = Keys(cookie: seq<Base64.byte>, webui: seq<Base64.byte>)

  type Entropy = k: Option<Keys> | k.Some? ==> |k.value.cookie| == 32 && |k.value.webui| == 32
    witness None

  /** Operator configuration of access to one instance. `gate` renders the gate's
      configuration for a host and `revision` hashes the bundle's contents. */
  datatype Config = Config(entry: bool, https: bool, isolated: bool, gate: string -> string, oauth: string, guard: string,
                           revision: Data -> string)

  datatype Bundle = Bundle(name: Name, url: string)

  const COOKIE_SECRET := "cookie-secret"
  const WEBUI_SECRET := "webui-secret"
  const SESSION_PREFIX := "chatui-session-"

  function Value(d: Data, key: string): string { if key in d then d[key] else "" }

  predicate IsKey(text: string) {
    Base64.Decode(Base64.Standard, text).Some? && |Base64.Decode(Base64.Standard, text).value| == 32
  }

  function NewKeys(k: Keys): Data {
    map[COOKIE_SECRET := Base64.Encode(Base64.Standard, k.cookie), WEBUI_SECRET := Base64.Encode(Base64.Standard, k.webui)]
  }

  predicate GoodKeys(d: Data) { IsKey(Value(d, COOKIE_SECRET)) && IsKey(Value(d, WEBUI_SECRET)) }

  lemma NewKeysGood(k: Keys)
    requires |k.cookie| == 32 && |k.webui| == 32
    ensures GoodKeys(NewKeys(k))
  {
    Base64.RoundTrip(Base64.Standard, k.cookie);
    Base64.RoundTrip(Base64.Standard, k.webui);
    assert COOKIE_SECRET[0] != WEBUI_SECRET[0];
  }

  // ---- when it succeeds undisturbed ----

  function PinOf(pins: Pinned, n: Name): nat { if n in pins then pins[n] else 0 }

  predicate SessionPossible(k: Entropy, s: State) {
    if Name.Session in s.secrets then
      Usable(s.secrets[Name.Session], PinOf(Pins(s), Name.Session)) && GoodKeys(s.secrets[Name.Session].data)
    else Name.Session !in Pins(s) && s.keepsPins && k.Some?
  }

  ghost predicate BundlePossible(s: State, n: Name, data: Data) {
    if n in s.secrets then Usable(s.secrets[n], PinOf(Pins(s), n)) && s.secrets[n].data == data
    else n !in Pins(s) && s.keepsPins && RoomPossible(s)
  }

  /** A Secret is what this controller created: its UID is one that our own Create got, with these contents. */
  predicate Ours(s: State, n: Name, data: Data) {
    n in Pins(s) && Pins(s)[n] in s.past.mine && s.past.mine[Pins(s)[n]] == Made(n, data)
  }

  lemma ReadIsOurs(s: State, n: Name, x: Secret)
    requires Good(s) && Lookup(s.secrets, n) == Some(x) && Usable(x, PinOf(Pins(s), n))
    ensures Ours(s, n, x.data) && Pins(s)[n] !in s.past.erased
  {
    hide OneTemplate, MountsPinned, Counted, NoBundles, PinsBounded, Fresh;
    assert n in Pins(s) && OursAt(s.past, n, Pins(s)[n]);
  }

  lemma OursKept(s: State, t: State, n: Name, data: Data)
    requires Ours(s, n, data) && Steady(s, t) && (n in Pins(s) ==> n in Pins(t) && Pins(t)[n] == Pins(s)[n])
    ensures Ours(t, n, data)
  {}

  lemma NewIsOurs(s: State, n: Name, x: Secret)
    requires n in Pins(s) && Pins(s)[n] == x.uid && x.uid in s.past.mine && s.past.mine[x.uid] == Made(n, x.data)
    ensures Ours(s, n, x.data)
  {}

  lemma NotesCreated(s: State, t: State, u: State, n: Name, data: Data)
    requires SameButNotes(s, t)
    ensures CreatedAndPinned(t, u, n, data) <==> CreatedAndPinned(s, u, n, data)
  {}

  lemma SessionFirst(s: State)
    requires Good(s)
    ensures Name.Session !in Pins(s) ==> PinRoom(Pins(s), Name.Session)
  {
    hide Fresh, Genuine, OneTemplate, MountsPinned, PinsOurs, Counted, Alone;
  }

  lemma SameSecretsPins(s: State, t: State)
    requires SameButNotes(s, t)
    ensures t.secrets == s.secrets && Pins(t) == Pins(s) && t.inst == s.inst && t.keepsPins == s.keepsPins && t.credential == s.credential
  {}

  /** `sessionSecret`. */
  method SessionSecret(api: ApiServer, mem: Memory, k: Entropy) returns (r: Result<Secret, Err>)
    requires api.Inv() && mem.inst.status.pins == Pins(api.st) && MayRead(api.st)
    modifies api, mem
    ensures api.Inv() && old(api.moves) <= api.moves && Steady(old(api.st), api.st)
    ensures r.Ok? ==> mem.inst.status.pins == Pins(api.st) && Ours(api.st, Name.Session, r.value.data) && GoodKeys(r.value.data)
    ensures Vouched(old(api.st), old(mem.inst)) ==> Vouched(api.st, mem.inst)
    ensures Reread(old(api.st), api.st, old(mem.inst), mem.inst)
    ensures r.Err? ==> mem.inst == old(mem.inst) && r.error != HistoryFull && r.error != HistoryInvalid
    ensures Quiet(old(api.script)) ==> Quiet(api.script)
    ensures Quiet(old(api.script)) && api.st.past.pending.None? ==>
      || SameButNotes(old(api.st), api.st)
      || (k.Some? && CreatedAndPinned(old(api.st), api.st, Name.Session, NewKeys(k.value)))
    ensures old(api.script) == [] ==> api.script == []
    ensures old(api.script) == [] && old(mem.inst) == old(api.st).inst ==> (r.Ok? <==> SessionPossible(k, old(api.st)))
    ensures Quiet(old(api.script)) && old(mem.inst) == old(api.st).inst && r.Ok? ==> mem.inst == api.st.inst
    ensures Quiet(old(api.script)) && r.Ok? ==>
      && Lookup(api.st.secrets, Name.Session) == Some(r.value)
      && (SameButNotes(old(api.st), api.st)
          || (k.Some? && CreatedAndPinned(old(api.st), api.st, Name.Session, NewKeys(k.value))))
  {
    hide *;
    CalmIsQuiet(api.script);
    SecretServed(api.st, Name.Session);
    SecretReadAllowed(api.st, Name.Session);
    var reply := Read(api, ReadSecret(Name.Session));
    ghost var read := api.st;
    SecretServed(api.seen, Name.Session);
    KeptSteady(old(api.st), read);
    VouchedSteady(old(api.st), read, mem.inst);
    KeptSteady(old(api.st), api.seen);
    SessionMeans(k, old(api.st));
    RereadStays(old(api.st), read, read, mem.inst, mem.inst, mem.inst);
    SameSecretsPins(api.seen, read);
    if reply.Failed? {
      return Err(Api);
    }
    if reply.GotSecret? {
      var x := reply.secret;
      if !Usable(x, PinOf(mem.inst.status.pins, Name.Session)) {
        return Err(SessionMismatch);
      }
      if !GoodKeys(x.data) {
        return Err(BadKeys);
      }
      ReadIsOurs(api.seen, Name.Session, x);
      NotesKept(api.seen, read);
      KeptSteady(api.seen, read);
      OursKept(api.seen, read, Name.Session, x.data);
      return Ok(x);
    }
    InvGood(api);
    Unpinned(read, Name.Session);
    if PinOf(mem.inst.status.pins, Name.Session) != 0 {
      return Err(SessionMissing);
    }
    if k.None? {
      return Err(BadKeys);
    }
    SessionFirst(read);
    SteadyChecks(old(api.st), read);
    NewKeysGood(k.value);
    r := CreatePinned(api, mem, Name.Session, NewKeys(k.value));
    SteadyTransitive(old(api.st), read, api.st);
    RereadStays(old(api.st), read, api.st, old(mem.inst), old(mem.inst), mem.inst);
    if r.Ok? {
      NewIsOurs(api.st, Name.Session, r.value);
    }
    if Quiet(old(api.script)) {
      NotesCreated(old(api.st), read, api.st, Name.Session, NewKeys(k.value));
      if SameButNotes(read, api.st) {
        NotesCompose(old(api.st), read, api.st);
      }
    }
  }

  /** No pin is the empty UID. */
  lemma Unpinned(s: State, n: Name)
    requires Good(s)
    ensures PinOf(Pins(s), n) == 0 <==> n !in Pins(s)
  {
    if n in Pins(s) {
      PinKinds(s, n);
    }
  }

  lemma SessionMeans(k: Entropy, s: State)
    ensures SessionPossible(k, s) <==>
      if Name.Session in s.secrets then
        Usable(s.secrets[Name.Session], PinOf(Pins(s), Name.Session)) && GoodKeys(s.secrets[Name.Session].data)
      else Name.Session !in Pins(s) && s.keepsPins && k.Some?
  {}

  // ---- the access bundle ----

  lemma BundleMeans(s: State, n: Name, data: Data)
    ensures BundlePossible(s, n, data) <==>
      if n in s.secrets then Usable(s.secrets[n], PinOf(Pins(s), n)) && s.secrets[n].data == data
      else n !in Pins(s) && s.keepsPins && RoomPossible(s)
  {}

  lemma RoomForBundle(s: State, n: Name)
    requires n.Access? && n !in Pins(s) && Name.Session in Pins(s) && |Pins(s)| <= MAX_BUNDLES
    ensures PinRoom(Pins(s), n)
  {}

  /** Retiring some other bundle leaves this one as possible as it was. */
  lemma RetiringBundle(s: State, t: State, n: Name, data: Data)
    requires Retiring(s, t) && n !in Pins(s)
    ensures n !in Pins(t) && (n in t.secrets <==> n in s.secrets) && t.keepsPins == s.keepsPins
    ensures n !in s.secrets && BundlePossible(s, n, data) && RoomPossible(t) ==> BundlePossible(t, n, data)
  {
    hide InUse, RoomPossible;
    assert n !in Idle(s) && Lookup(t.secrets, n) == Lookup(s.secrets, n) && Lookup(Pins(t), n) == Lookup(Pins(s), n);
  }

  lemma CreatedIsPossible(s: State, t: State, n: Name, data: Data)
    requires CreatedAndPinned(s, t, n, data)
    ensures BundlePossible(t, n, data)
  {
    hide RoomPossible;
  }

  lemma NotesBundle(s: State, t: State, n: Name, data: Data)
    requires SameButNotes(s, t)
    ensures BundlePossible(t, n, data) <==> BundlePossible(s, n, data)
  {
    hide RoomPossible;
    NotesRoom(s, t);
  }

  /** Nothing that another Secret name or the configuration could notice has changed. */
  ghost predicate Aside(s: State, t: State) {
    && Lookup(t.secrets, Name.Session) == Lookup(s.secrets, Name.Session)
    && PinOf(Pins(t), Name.Session) == PinOf(Pins(s), Name.Session) && (Name.Session in Pins(t) <==> Name.Session in Pins(s))
    && t.credential == s.credential && t.keepsPins == s.keepsPins && t.inst.spec == s.inst.spec
  }

  lemma AsideTransitive(s: State, t: State, u: State)
    requires Aside(s, t) && Aside(t, u)
    ensures Aside(s, u)
  {}

  lemma NotesAside(s: State, t: State)
    requires SameButNotes(s, t)
    ensures Aside(s, t)
  {}

  lemma RetiringAside(s: State, t: State)
    requires Retiring(s, t)
    ensures Aside(s, t)
  {
    hide InUse;
    assert Name.Session !in Idle(s);
    assert Lookup(Pins(t), Name.Session) == Lookup(Pins(s), Name.Session);
  }

  lemma CreatedAside(s: State, t: State, n: Name, data: Data)
    requires CreatedAndPinned(s, t, n, data) && n.Access?
    ensures Aside(s, t)
  {}

  /** `prepareAccess`, lines 214-231: no such Secret exists and none is pinned. */
  method CreateBundle(api: ApiServer, mem: Memory, n: Name, data: Data) returns (e: Option<Err>)
    requires api.Inv() && mem.inst.status.pins == Pins(api.st) && n.Access? && n !in Pins(api.st)
    requires Name.Session in Pins(api.st) && MayRead(api.st)
    modifies api, mem
    ensures api.Inv() && old(api.moves) <= api.moves && Steady(old(api.st), api.st)
    ensures e.None? ==> mem.inst.status.pins == Pins(api.st) && Ours(api.st, n, data)
    ensures Vouched(old(api.st), old(mem.inst)) ==> Vouched(api.st, mem.inst)
    ensures e.None? ==> n in Pins(api.st) && Pins(api.st)[n] !in api.st.past.erased
    ensures e.None? ==> Name.Session in Pins(api.st) && Pins(api.st)[Name.Session] == Pins(old(api.st))[Name.Session]
    ensures Reread(old(api.st), api.st, old(mem.inst), mem.inst)
    ensures e.Some? ==> e.value != HistoryFull && e.value != HistoryInvalid
    ensures Quiet(old(api.script)) ==> Quiet(api.script)
    ensures Quiet(old(api.script)) && api.st.past.pending.None? && BundlePossible(old(api.st), n, data) && n !in old(api.st).secrets ==>
      BundlePossible(api.st, n, data) && Aside(old(api.st), api.st)
    ensures old(api.script) == [] ==> api.script == []
    ensures old(api.script) == [] && old(mem.inst) == old(api.st).inst ==>
      (e.None? <==> RoomPossible(old(api.st)) && n !in old(api.st).secrets && old(api.st).keepsPins) && (e.None? ==> mem.inst == api.st.inst)
  {
    hide *;
    CalmIsQuiet(api.script);
    BundleMeans(api.st, n, data);
    e := MakeAccessSecretRoom(api, mem, n);
    ghost var roomy, roomyInst := api.st, mem.inst;
    if Quiet(old(api.script)) {
      RetiringBundle(old(api.st), roomy, n, data);
      RetiringAside(old(api.st), roomy);
    }
    if e.Some? {
      return e;
    }
    RoomForBundle(roomy, n);
    SteadyChecks(old(api.st), roomy);
    var r := CreatePinned(api, mem, n, data);
    SteadyTransitive(old(api.st), roomy, api.st);
    RereadStays(old(api.st), roomy, api.st, old(mem.inst), roomyInst, mem.inst);
    if Quiet(old(api.script)) {
      AfterCreation(old(api.st), roomy, api.st, n, data);
    }
    if r.Err? {
      return Some(r.error);
    }
    NewIsOurs(api.st, n, r.value);
    e := None;
  }

  /** `prepareAccess`, lines 205-231: use the pinned bundle or create one. */
  method BundleSecret(api: ApiServer, mem: Memory, n: Name, data: Data) returns (e: Option<Err>)
    requires api.Inv() && mem.inst.status.pins == Pins(api.st) && n.Access? && Name.Session in Pins(api.st) && MayRead(api.st)
    modifies api, mem
    ensures api.Inv() && old(api.moves) <= api.moves && Steady(old(api.st), api.st)
    ensures e.None? ==> mem.inst.status.pins == Pins(api.st) && Ours(api.st, n, data)
    ensures Vouched(old(api.st), old(mem.inst)) ==> Vouched(api.st, mem.inst)
    ensures e.None? ==> n in Pins(api.st) && Pins(api.st)[n] !in api.st.past.erased
    ensures e.None? ==> Name.Session in Pins(api.st) && Pins(api.st)[Name.Session] == Pins(old(api.st))[Name.Session]
    ensures Reread(old(api.st), api.st, old(mem.inst), mem.inst)
    ensures e.Some? ==> e.value != HistoryFull && e.value != HistoryInvalid
    ensures Quiet(old(api.script)) ==> Quiet(api.script)
    ensures Quiet(old(api.script)) && api.st.past.pending.None? && BundlePossible(old(api.st), n, data) ==>
      BundlePossible(api.st, n, data) && Aside(old(api.st), api.st)
    ensures Quiet(old(api.script)) && n in old(api.st).secrets ==> SameButNotes(old(api.st), api.st)
    ensures old(api.script) == [] ==> api.script == []
    ensures old(api.script) == [] && old(mem.inst) == old(api.st).inst ==>
      (e.None? <==> BundlePossible(old(api.st), n, data)) && (e.None? ==> mem.inst == api.st.inst)
  {
    hide *;
    CalmIsQuiet(api.script);
    BundleMeans(api.st, n, data);
    SecretReadAllowed(api.st, n);
    var reply := Read(api, ReadSecret(n));
    ghost var seen, read := api.seen, api.st;
    InvGood(api);
    SecretServed(seen, n);
    KeptSteady(old(api.st), read);
    VouchedSteady(old(api.st), read, mem.inst);
    KeptSteady(old(api.st), seen);
    SameSecretsPins(seen, read);
    NotesAside(seen, read);
    NotesBundle(seen, read, n, data);
    BundleMeans(read, n, data);
    RereadStays(old(api.st), read, read, mem.inst, mem.inst, mem.inst);
    if reply.Failed? {
      return Some(Api);
    }
    if reply.GotSecret? {
      var x := reply.secret;
      if !Usable(x, PinOf(mem.inst.status.pins, n)) || x.data != data {
        return Some(BundleMismatch);
      }
      ReadIsOurs(seen, n, x);
      NotesKept(seen, read);
      KeptSteady(seen, read);
      OursKept(seen, read, n, data);
      OursPinned(read, n, data);
      return None;
    }
    Unpinned(read, n);
    if PinOf(mem.inst.status.pins, n) != 0 {
      return Some(BundleMissing);
    }
    SteadyChecks(old(api.st), read);
    e := CreateBundle(api, mem, n, data);
    SteadyTransitive(old(api.st), read, api.st);
    RereadStays(old(api.st), read, api.st, old(mem.inst), old(mem.inst), mem.inst);
    if Quiet(old(api.script)) && Aside(read, api.st) {
      AsideTransitive(old(api.st), read, api.st);
    }
  }

  lemma AfterCreation(s: State, t: State, u: State, n: Name, data: Data)
    requires Aside(s, t) && n.Access?
    ensures CreatedAndPinned(t, u, n, data) ==> BundlePossible(u, n, data) && Aside(s, u)
    ensures SameButNotes(t, u) ==> (BundlePossible(u, n, data) <==> BundlePossible(t, n, data)) && Aside(s, u)
  {
    hide *;
    if CreatedAndPinned(t, u, n, data) {
      CreatedIsPossible(t, u, n, data);
      CreatedAside(t, u, n, data);
      AsideTransitive(s, t, u);
    }
    if SameButNotes(t, u) {
      NotesBundle(t, u, n, data);
      NotesAside(t, u);
      AsideTransitive(s, t, u);
    }
  }

  lemma OursPinned(s: State, n: Name, data: Data)
    requires Ours(s, n, data)
    ensures n in Pins(s)
  {}

  // ---- preparing access ----

  function SessionData(k: Entropy, s: State): Data {
    if Name.Session in s.secrets then s.secrets[Name.Session].data else if k.Some? then NewKeys(k.value) else map[]
  }

  function CookieOf(session: Data): string {
    var c := Base64.OauthCookieSecret(Value(session, COOKIE_SECRET)); if c.Some? then c.value else ""
  }

  function BundleData(cfg: Config, host: string, credential: string, session: Data): Data {
    map["gate.json" := cfg.gate("https://" + host), "oauth.json" := cfg.oauth, "client-secret" := credential,
        "cookie-secret" := CookieOf(session), "chatui_guard.py" := cfg.guard]
  }

  function BundleName(cfg: Config, data: Data): Name { Access(cfg.revision(data)) }

  /** Names the operator keeps for its own Secrets. */
  predicate IsReserved(n: Name) {
    n.Session? || n.Access? || (n.Other? && SESSION_PREFIX <= n.text)
  }

  const MIN_CREDENTIAL := 16

  predicate Configured(cfg: Config, s: State) {
    && cfg.entry && cfg.https && cfg.isolated && !IsReserved(s.inst.spec.secretRef)
    && s.credential.Some? && |s.credential.value| >= MIN_CREDENTIAL
  }

  /** When an undisturbed `PrepareAccess` succeeds. */
  ghost predicate CanPrepare(cfg: Config, host: string, k: Entropy, s: State) {
    && Configured(cfg, s) && SessionPossible(k, s)
    && var data := BundleData(cfg, host, s.credential.value, SessionData(k, s));
      BundlePossible(s, BundleName(cfg, data), data)
  }

  /** Both Secrets of a prepared bundle are this controller's own, with contents made of
      the session keys and of the operator's credential. */
  ghost predicate Prepared(cfg: Config, host: string, s: State, b: Bundle) {
    exists credential, session ::
      && |credential| >= MIN_CREDENTIAL && GoodKeys(session) && Ours(s, Name.Session, session)
      && Ours(s, b.name, BundleData(cfg, host, credential, session))
      && b == Bundle(BundleName(cfg, BundleData(cfg, host, credential, session)), "https://" + host)
  }

  /** The bundle that access from this state leads to. */
  function BundleFor(cfg: Config, host: string, k: Entropy, s: State): Bundle {
    var credential := if s.credential.Some? then s.credential.value else "";
    Bundle(BundleName(cfg, BundleData(cfg, host, credential, SessionData(k, s))), "https://" + host)
  }

  /** Both Secrets exist already. */
  predicate BothExist(cfg: Config, host: string, k: Entropy, s: State) {
    Name.Session in s.secrets && BundleFor(cfg, host, k, s).name in s.secrets
  }

  lemma BundleForMeans(cfg: Config, host: string, k: Entropy, s: State, credential: string, data: Data)
    requires s.credential == Some(credential) && data == BundleData(cfg, host, credential, SessionData(k, s))
    ensures BundleFor(cfg, host, k, s) == Bundle(BundleName(cfg, data), "https://" + host)
    ensures BothExist(cfg, host, k, s) <==> Name.Session in s.secrets && BundleName(cfg, data) in s.secrets
  {}

  lemma CreatedWasAbsent(s: State, t: State, n: Name, data: Data)
    requires CreatedAndPinned(s, t, n, data)
    ensures n !in s.secrets
  {}

  lemma SessionIsFirst(s: State)
    requires Good(s) && Name.Session !in Pins(s)
    ensures Pins(s) == map[]
  {
    hide Fresh, Genuine, OneTemplate, MountsPinned, PinsOurs, Counted, Alone;
  }

  /** Once the session Secret is created and pinned, the same preparation goes on. */
  lemma SessionCreated(cfg: Config, host: string, k: Entropy, s: State, t: State)
    requires Good(s) && k.Some? && CreatedAndPinned(s, t, Name.Session, NewKeys(k.value))
    ensures SessionData(k, t) == SessionData(k, s) && t.credential == s.credential && t.inst.spec == s.inst.spec
    ensures SessionPossible(k, s) ==> SessionPossible(k, t)
    ensures Configured(cfg, t) <==> Configured(cfg, s)
    ensures forall n: Name, data: Data :: n.Access? && SessionPossible(k, s) ==> (BundlePossible(t, n, data) <==> BundlePossible(s, n, data))
    ensures SessionPossible(k, s) ==> (CanPrepare(cfg, host, k, s) <==> CanPrepare(cfg, host, k, t))
  {
    hide Good, GoodKeys, IsEldest, Sound, NewKeys;
    NewKeysGood(k.value);
    if SessionPossible(k, s) {
      SessionIsFirst(s);
      assert |Pins(t)| == |Pins(t).Keys| == 1 by { assert Pins(t).Keys == {Name.Session}; }
    }
  }

  lemma AsidePossible(cfg: Config, host: string, k: Entropy, s: State, t: State, data: Data)
    requires Aside(s, t) && CanPrepare(cfg, host, k, s) && data == BundleData(cfg, host, s.credential.value, SessionData(k, s))
    requires BundlePossible(t, BundleName(cfg, data), data)
    ensures CanPrepare(cfg, host, k, t)
  {
    hide BundlePossible, GoodKeys, NewKeys, BundleData;
  }

  lemma PossibleMeans(cfg: Config, host: string, k: Entropy, s: State)
    ensures CanPrepare(cfg, host, k, s) <==>
      && Configured(cfg, s) && SessionPossible(k, s)
      && BundlePossible(s, BundleName(cfg, BundleData(cfg, host, s.credential.value, SessionData(k, s))),
           BundleData(cfg, host, s.credential.value, SessionData(k, s)))
    ensures Configured(cfg, s) ==> s.credential.Some?
  {}

  lemma ConfiguredMeans(cfg: Config, s: State)
    ensures Configured(cfg, s) <==>
      && cfg.entry && cfg.https && cfg.isolated && !IsReserved(s.inst.spec.secretRef)
      && s.credential.Some? && |s.credential.value| >= MIN_CREDENTIAL
  {}

  lemma CredentialServed(s: State)
    requires MayRead(s)
    ensures Allowed(s, ReadCredential) && Reads(ReadCredential)
    ensures Serve(s, ReadCredential).1 == if s.credential.Some? then GotCredential(s.credential.value) else Absent
  {}

  lemma DataOf(k: Entropy, s: State, x: Secret)
    requires Lookup(s.secrets, Name.Session) == Some(x)
    ensures SessionData(k, s) == x.data
  {}

  lemma NotesCanPrepare(cfg: Config, host: string, k: Entropy, s: State, t: State)
    requires SameButNotes(s, t)
    ensures SessionPossible(k, t) <==> SessionPossible(k, s)
    ensures SessionData(k, t) == SessionData(k, s) && (Configured(cfg, t) <==> Configured(cfg, s))
    ensures CanPrepare(cfg, host, k, t) <==> CanPrepare(cfg, host, k, s)
  {
    hide BundlePossible, GoodKeys, NewKeys;
    forall n: Name, data: Data { NotesBundle(s, t, n, data); }
  }

  lemma PreparedFrom(cfg: Config, host: string, s: State, b: Bundle, credential: string, session: Data)
    requires |credential| >= MIN_CREDENTIAL && GoodKeys(session) && Ours(s, Name.Session, session)
    requires Ours(s, b.name, BundleData(cfg, host, credential, session))
    requires b == Bundle(BundleName(cfg, BundleData(cfg, host, credential, session)), "https://" + host)
    ensures Prepared(cfg, host, s, b)
  {}

  lemma CookieDecodes(session: Data)
    requires GoodKeys(session)
    ensures Base64.OauthCookieSecret(Value(session, COOKIE_SECRET)) == Some(CookieOf(session))
  {}

  /** Lines 163-179: the configuration checks, then the operator's client credential. */
  method OperatorCredential(cfg: Config, api: ApiServer, mem: Memory) returns (r: Result<string, Err>)
    requires api.Inv() && MayRead(api.st)
    modifies api
    ensures api.Inv() && old(api.moves) <= api.moves && Kept(old(api.st), api.st)
    ensures r.Ok? ==> |r.value| >= MIN_CREDENTIAL && !IsReserved(mem.inst.spec.secretRef)
    ensures r.Err? ==> r.error != HistoryFull && r.error != HistoryInvalid
    ensures Quiet(old(api.script)) ==> Quiet(api.script) && SameButNotes(old(api.st), api.st)
    ensures Quiet(old(api.script)) && r.Ok? ==> old(api.st).credential == Some(r.value)
    ensures old(api.script) == [] ==> api.script == []
    ensures old(api.script) == [] && mem.inst == old(api.st).inst ==> (r.Ok? <==> Configured(cfg, old(api.st)))
  {
    hide *;
    CalmIsQuiet(api.script);
    NotesReflexive(api.st);
    KeptReflexive(api.st);
    ConfiguredMeans(cfg, api.st);
    if !cfg.entry {
      return Err(NoEntry);
    }
    if !cfg.https || !cfg.isolated {
      return Err(NotIsolated);
    }
    if IsReserved(mem.inst.spec.secretRef) {
      return Err(ReservedName);
    }
    CredentialServed(api.st);
    var reply := Read(api, ReadCredential);
    CredentialRead(api.seen, reply);
    if !reply.GotCredential? {
      return Err(NoCredential);
    }
    if |reply.text| < MIN_CREDENTIAL {
      return Err(ShortCredential);
    }
    r := Ok(reply.text);
  }

  predicate HasCredential(cfg: Config, credential: string, s: State) { s.credential == Some(credential) && Configured(cfg, s) }

  ghost predicate CanAssemble(cfg: Config, host: string, k: Entropy, credential: string, s: State) {
    s.credential == Some(credential) && CanPrepare(cfg, host, k, s)
  }

  lemma AssembleMeans(cfg: Config, host: string, k: Entropy, credential: string, s: State)
    ensures CanAssemble(cfg, host, k, credential, s) <==> s.credential == Some(credential) && CanPrepare(cfg, host, k, s)
    ensures HasCredential(cfg, credential, s) <==> s.credential == Some(credential) && Configured(cfg, s)
  {}

  /** Which bundle it is, that nothing is written when both Secrets exist, and that the preparation
      stays possible, when nobody else acts. */
  lemma AssembledQuietly(cfg: Config, host: string, k: Entropy, s: State, joined: State, now: State, credential: string, data: Data,
                         session: Secret)
    requires s.credential == Some(credential)
    requires SameButNotes(s, joined) || (k.Some? && CreatedAndPinned(s, joined, Name.Session, NewKeys(k.value)))
    requires Lookup(joined.secrets, Name.Session) == Some(session) && SessionData(k, joined) == SessionData(k, s)
    requires joined.credential == s.credential && data == BundleData(cfg, host, credential, session.data)
    ensures BundleFor(cfg, host, k, s) == Bundle(BundleName(cfg, data), "https://" + host)
    ensures BothExist(cfg, host, k, s) ==> SameButNotes(s, joined) && BundleName(cfg, data) in joined.secrets
    ensures BothExist(cfg, host, k, s) && SameButNotes(joined, now) ==> SameButNotes(s, now)
    ensures CanPrepare(cfg, host, k, joined) && Aside(joined, now) && BundlePossible(now, BundleName(cfg, data), data) ==>
      CanPrepare(cfg, host, k, now)
  {
    hide *;
    DataOf(k, joined, session);
    PreparedExactly(cfg, host, k, s, joined, credential, data, session);
    if BothExist(cfg, host, k, s) {
      SameSecretsPins(s, joined);
      if SameButNotes(joined, now) {
        NotesCompose(s, joined, now);
      }
    }
    if CanPrepare(cfg, host, k, joined) && Aside(joined, now) && BundlePossible(now, BundleName(cfg, data), data) {
      AsidePossible(cfg, host, k, joined, now, data);
    }
  }

  /** Lines 180-232: the session keys, the bundle's contents and name, the bundle. */
  method Assemble(cfg: Config, api: ApiServer, mem: Memory, host: string, k: Entropy, credential: string)
    returns (r: Result<Bundle, Err>)
    requires api.Inv() && mem.inst.status.pins == Pins(api.st) && |credential| >= MIN_CREDENTIAL && MayRead(api.st)
    modifies api, mem
    ensures api.Inv() && old(api.moves) <= api.moves && Steady(old(api.st), api.st)
    ensures r.Ok? ==> mem.inst.status.pins == Pins(api.st) && Prepared(cfg, host, api.st, r.value)
    ensures Vouched(old(api.st), old(mem.inst)) ==> Vouched(api.st, mem.inst)
    ensures r.Ok? ==> r.value.name in Pins(api.st) && Pins(api.st)[r.value.name] !in api.st.past.erased
    ensures Reread(old(api.st), api.st, old(mem.inst), mem.inst)
    ensures r.Err? ==> r.error != HistoryFull && r.error != HistoryInvalid
    ensures Quiet(old(api.script)) ==> Quiet(api.script)
    ensures Quiet(old(api.script)) && api.st.past.pending.None? && CanAssemble(cfg, host, k, credential, old(api.st)) ==>
      CanPrepare(cfg, host, k, api.st)
    ensures old(api.script) == [] ==> api.script == []
    ensures old(api.script) == [] && old(mem.inst) == old(api.st).inst && HasCredential(cfg, credential, old(api.st)) ==>
      (r.Ok? <==> CanPrepare(cfg, host, k, old(api.st))) && (r.Ok? ==> mem.inst == api.st.inst)
    ensures Quiet(old(api.script)) && r.Ok? && old(api.st).credential == Some(credential) ==>
      r.value == BundleFor(cfg, host, k, old(api.st))
    ensures Quiet(old(api.script)) && r.Ok? && old(api.st).credential == Some(credential) && BothExist(cfg, host, k, old(api.st)) ==>
      SameButNotes(old(api.st), api.st)
  {
    hide *;
    CalmIsQuiet(api.script);
    InvGood(api);
    PossibleMeans(cfg, host, k, api.st);
    AssembleMeans(cfg, host, k, credential, api.st);
    var session := SessionSecret(api, mem, k);
    ghost var joined, joinedInst := api.st, mem.inst;
    if Quiet(old(api.script)) {
      AfterSession(cfg, host, k, old(api.st), joined);
    }
    if session.Err? {
      return Err(session.error);
    }
    CookieDecodes(session.value.data);
    var cookie := Base64.OauthCookieSecret(Value(session.value.data, COOKIE_SECRET));
    if cookie.None? {
      return Err(BadKeys);
    }
    var data := BundleData(cfg, host, credential, session.value.data);
    var name := BundleName(cfg, data);
    OursPinned(joined, Name.Session, session.value.data);
    NamesAccess(cfg, data);
    SteadyChecks(old(api.st), joined);
    var e := BundleSecret(api, mem, name, data);
    SteadyTransitive(old(api.st), joined, api.st);
    RereadStays(old(api.st), joined, api.st, old(mem.inst), joinedInst, mem.inst);
    if Quiet(old(api.script)) && old(api.st).credential == Some(credential) {
      DataOf(k, joined, session.value);
      PossibleMeans(cfg, host, k, joined);
      AssembledQuietly(cfg, host, k, old(api.st), joined, api.st, credential, data, session.value);
    }
    if e.Some? {
      return Err(e.value);
    }
    r := Ok(Bundle(name, "https://" + host));
    OursKept(joined, api.st, Name.Session, session.value.data);
    PreparedFrom(cfg, host, api.st, r.value, credential, session.value.data);
  }

  /** `prepareAccess`. */
  method PrepareAccess(cfg: Config, api: ApiServer, mem: Memory, host: string, k: Entropy) returns (r: Result<Bundle, Err>)
    requires api.Inv() && mem.inst.status.pins == Pins(api.st) && MayRead(api.st)
    modifies api, mem
    ensures api.Inv() && old(api.moves) <= api.moves
    ensures r.Ok? ==> mem.inst.status.pins == Pins(api.st) && Prepared(cfg, host, api.st, r.value)
    ensures Vouched(old(api.st), old(mem.inst)) ==> Vouched(api.st, mem.inst)
    ensures SamePass(old(api.st), api.st)
    ensures Reread(old(api.st), api.st, old(mem.inst), mem.inst)
    ensures r.Ok? ==> !IsReserved(old(mem.inst).spec.secretRef)
    ensures r.Ok? ==> r.value.name in Pins(api.st) && Pins(api.st)[r.value.name] !in api.st.past.erased
    ensures r.Err? ==> r.error != HistoryFull && r.error != HistoryInvalid
    ensures Quiet(old(api.script)) ==> Quiet(api.script)
    ensures Quiet(old(api.script)) && api.st.past.pending.None? && CanPrepare(cfg, host, k, old(api.st)) ==>
      CanPrepare(cfg, host, k, api.st)
    ensures old(api.script) == [] ==> api.script == []
    ensures old(api.script) == [] && old(mem.inst) == old(api.st).inst ==>
      (r.Ok? <==> CanPrepare(cfg, host, k, old(api.st))) && (r.Ok? ==> mem.inst == api.st.inst)
    ensures Quiet(old(api.script)) && r.Ok? ==> r.value == BundleFor(cfg, host, k, old(api.st))
    ensures Quiet(old(api.script)) && r.Ok? && BothExist(cfg, host, k, old(api.st)) ==> SameButNotes(old(api.st), api.st)
  {
    hide *;
    CalmIsQuiet(api.script);
    PossibleMeans(cfg, host, k, api.st);
    var credential := OperatorCredential(cfg, api, mem);
    ghost var read := api.st;
    KeptSteady(old(api.st), read);
    VouchedSteady(old(api.st), read, mem.inst);
    if Quiet(old(api.script)) {
      NotesCanPrepare(cfg, host, k, old(api.st), read);
      SameSecretsPins(old(api.st), read);
      NotesBundleFor(cfg, host, k, old(api.st), read);
    }
    RereadStays(old(api.st), read, read, mem.inst, mem.inst, mem.inst);
    if credential.Err? {
      return Err(credential.error);
    }
    AssembleMeans(cfg, host, k, credential.value, read);
    SteadyChecks(old(api.st), read);
    r := Assemble(cfg, api, mem, host, k, credential.value);
    SteadyTransitive(old(api.st), read, api.st);
    VouchedSteady(old(api.st), api.st, mem.inst);
    RereadStays(old(api.st), read, api.st, old(mem.inst), old(mem.inst), mem.inst);
    if Quiet(old(api.script)) && SameButNotes(read, api.st) {
      NotesCompose(old(api.st), read, api.st);
    }
  }

  lemma NotesBundleFor(cfg: Config, host: string, k: Entropy, s: State, t: State)
    requires SameButNotes(s, t)
    ensures BundleFor(cfg, host, k, t) == BundleFor(cfg, host, k, s)
    ensures BothExist(cfg, host, k, t) <==> BothExist(cfg, host, k, s)
  {
    hide BundleData, NewKeys;
  }

  /** Which bundle it is, and whether the session step wrote anything. */
  lemma PreparedExactly(cfg: Config, host: string, k: Entropy, s: State, joined: State, credential: string, data: Data, session: Secret)
    requires s.credential == Some(credential)
    requires SameButNotes(s, joined) || (k.Some? && CreatedAndPinned(s, joined, Name.Session, NewKeys(k.value)))
    requires Lookup(joined.secrets, Name.Session) == Some(session) && SessionData(k, joined) == SessionData(k, s)
    requires data == BundleData(cfg, host, credential, session.data)
    ensures BundleFor(cfg, host, k, s) == Bundle(BundleName(cfg, data), "https://" + host)
    ensures BothExist(cfg, host, k, s) ==> SameButNotes(s, joined) && BundleName(cfg, data) in s.secrets
  {
    hide *;
    DataOf(k, joined, session);
    BundleForMeans(cfg, host, k, s, credential, data);
    if k.Some? && CreatedAndPinned(s, joined, Name.Session, NewKeys(k.value)) {
      CreatedWasAbsent(s, joined, Name.Session, NewKeys(k.value));
    }
  }

  lemma NamesAccess(cfg: Config, data: Data)
    ensures BundleName(cfg, data).Access?
  {}

  lemma CredentialRead(s: State, r: Reply)
    requires r == Failed || r == Serve(s, ReadCredential).1
    ensures r != Failed ==> r == if s.credential.Some? then GotCredential(s.credential.value) else Absent
  {}

  /** What the session step leaves, when no creation is left unpinned. */
  lemma AfterSession(cfg: Config, host: string, k: Entropy, s: State, t: State)
    requires Good(s)
    ensures SameButNotes(s, t) || (k.Some? && CreatedAndPinned(s, t, Name.Session, NewKeys(k.value))) ==>
      && (SessionPossible(k, s) ==> SessionPossible(k, t) && (CanPrepare(cfg, host, k, s) <==> CanPrepare(cfg, host, k, t)))
      && SessionData(k, t) == SessionData(k, s) && t.credential == s.credential && (Configured(cfg, t) <==> Configured(cfg, s))
  {
    hide *;
    if SameButNotes(s, t) {
      NotesCanPrepare(cfg, host, k, s, t);
      SameSecretsPins(s, t);
    } else if k.Some? && CreatedAndPinned(s, t, Name.Session, NewKeys(k.value)) {
      SessionCreated(cfg, host, k, s, t);
    }
  }
}
