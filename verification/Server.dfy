/** The API server as the controller calls it. An arbitrary script decides, for every
    request, what others do before it arrives and whether it or its reply is lost; a
    crash is a script that drops every later request of the pass. */
module Server {
  import opened Basics
  import opened Cluster
  import opened Safety
  import opened Runs
  import Hostnames

  datatype Turn = Turn(acts: seq<Act>, fault: Fault)

  const CALM := Turn([], Clean)

  function Head(script: seq<Turn>): Turn { if script == [] then CALM else script[0] }

  function Tail(script: seq<Turn>): seq<Turn> { if script == [] then [] else script[1..] }

  /** Nobody else acts; faults may happen. */
  predicate Quiet(script: seq<Turn>) { forall i :: 0 <= i < |script| ==> script[i].acts == [] }

  lemma CalmIsQuiet(script: seq<Turn>)
    ensures script == [] ==> Quiet(script)
  {}

  lemma QuietCall(script: seq<Turn>)
    ensures Quiet(script) ==> Quiet(Tail(script)) && Head(script).acts == []
    ensures script == [] ==> Quiet(script) && Tail(script) == [] && Head(script) == CALM
    ensures CALM.fault == Clean
  {}

  class ApiServer {
    var st: State
    var script: seq<Turn>
    ghost const start: State
    ghost var moves: seq<Move>
    ghost var seen: State // the state that the last request found

    /** The history so far is a legal run that led here. */
    ghost predicate Inv()
      reads this
    {
      Reached(start, moves, st) && Good(st)
    }

    constructor (s: State, script: seq<Turn>)
      requires Initial(s)
      ensures Inv() && st == s && this.script == script && start == s && moves == []
    {
      st, this.script, start, moves, seen := s, script, s, [], s;
      new;
      InitialGood(s);
    }

    /** One request. Others act first; permission is checked in the state the caller knows
        and still holds when the request arrives. */
    method Call(op: Op) returns (r: Reply)
      requires Inv() && Allowed(st, op)
      modifies this
      ensures Inv() && old(moves) <= moves && |old(moves)| < |moves| && Sent(start, moves, seen, op, Head(old(script)).fault)
      ensures script == Tail(old(script)) && (Quiet(old(script)) ==> Quiet(script))
      ensures Rely(old(st), seen) && Good(seen) && seen.pass == old(st).pass
      ensures Head(old(script)).acts == [] ==> seen == old(st)
      ensures (st, r) == After(seen, op, Head(old(script)).fault)
    {
      hide *;
      InvMeans(this);
      QuietTurns(script);
      var turn := Head(script);
      script := Tail(script);
      var i := 0;
      RelyReflexive(st);
      FreshAtStart(st);
      while i < |turn.acts|
        invariant 0 <= i <= |turn.acts|
        invariant Reached(start, moves, st) && Good(st) && old(moves) <= moves && script == Tail(old(script))
        invariant Rely(old(st), st) && Allowed(st, op) && st.pass == old(st).pass && (i == 0 ==> st == old(st))
      {
        var was := st;
        OtherSteps(st, turn.acts[i]);
        ReachedNext(start, moves, st, Move.Other(turn.acts[i]));
        EnvActSafe(st, turn.acts[i]);
        st := EnvStep(st, turn.acts[i]);
        moves := moves + [Move.Other(turn.acts[i])];
        AllowedStable(was, st, op);
        RelyHistory(was, st);
        RelyTransitive(old(st), was, st);
        i := i + 1;
      }
      seen := st;
      RequestSteps(seen, op, turn.fault);
      ReachedNext(start, moves, seen, Request(op, turn.fault));
      SentNow(start, moves, seen, op, turn.fault);
      var (next, reply) := After(st, op, turn.fault);
      st, r := next, reply;
      moves := moves + [Request(op, turn.fault)];
      InvMeans(this);
    }
  }

  lemma InvMeans(api: ApiServer)
    ensures api.Inv() <==> Reached(api.start, api.moves, api.st) && Good(api.st)
  {
    hide Good, Reached;
  }

  lemma QuietTurns(script: seq<Turn>)
    ensures Quiet(script) ==> Quiet(Tail(script))
  {}

  lemma OtherSteps(s: State, a: Act)
    ensures Permitted(s, Move.Other(a)) && Step(s, Move.Other(a)) == EnvStep(s, a)
  {
    hide EnvStep;
  }

  lemma RequestSteps(s: State, op: Op, fault: Fault)
    ensures Allowed(s, op) ==> Permitted(s, Request(op, fault))
    ensures Step(s, Request(op, fault)) == After(s, op, fault).0
  {
    hide Allowed, After;
  }

  /** The last move is this request, and `seen` is the state that it found. */
  ghost predicate Sent(start: State, moves: seq<Move>, seen: State, op: Op, fault: Fault) {
    && moves != [] && moves[|moves| - 1] == Request(op, fault) && seen == Exec(start, moves[..|moves| - 1])
  }

  lemma SentNow(start: State, moves: seq<Move>, seen: State, op: Op, fault: Fault)
    requires Reached(start, moves, seen)
    ensures Sent(start, moves + [Request(op, fault)], seen, op, fault)
  {
    hide Initial, Legal, Exec;
    assert (moves + [Request(op, fault)])[..|moves|] == moves;
  }

  lemma RelyHistory(s: State, t: State)
    requires Rely(s, t)
    ensures t.pass == s.pass && t.past == s.past
  {}

  lemma FreshAtStart(s: State)
    requires Good(s)
    ensures Fresh(s)
  {}

  /** The controller's in-memory copy of the instance. */
  class Memory {
    var inst: Instance

    constructor (inst: Instance)
      ensures this.inst == inst
    {
      this.inst := inst;
    }
  }

  /** Decoding a reply into the copy in memory leaves a local slug in place where the reply has none. */
  function Decoded(local: Instance, reply: Instance): Instance {
    reply.(status := reply.status.(
      slug := if reply.status.slug == "" then local.status.slug else reply.status.slug,
      source := if reply.status.source == Hostnames.NoSource then local.status.source else reply.status.source))
  }

  datatype Err =
    | Api | SchemaPrunes | HistoryFull | HistoryInvalid | HistoryMismatch | HistoryInUse | AwaitingDeletion
    | SessionMismatch | BadKeys | SessionMissing | BundleMissing | BundleMismatch
    | NoEntry | NotIsolated | ReservedName | NoCredential | ShortCredential
    | NotOwnedDeployment | NotOwnedIngress | NotOwnedService | NoSelector | Cutover
    | Unmapped | Identity | SlugUnsaved | BadHost | HostConflict | NoBackendName

  // ---- the parts of closing down ----

  /** Closing down withdraws the route, stops the workload and writes the status. */
  datatype Part = RoutePart | StopPart | StatusPart

  predicate Concerns(op: Op, part: Part) {
    match part
    case RoutePart => op.ReadIngress? || op.DeleteIngress?
    case StopPart => op.ReadDeployment? || op.UpdateDeployment?
    case StatusPart => op.PatchStatus?
  }

  /** The request or its reply was lost, or the request was refused. */
  predicate Refused(s: State, op: Op, fault: Fault) {
    After(s, op, fault).1.Failed? || (op.UpdateDeployment? && After(s, op, fault).1.Absent?)
  }

  /** Since the first `before` moves a request that belongs to this part was refused. */
  ghost predicate PartFailed(start: State, before: nat, moves: seq<Move>, part: Part) {
    exists k :: before <= k < |moves| && moves[k].Request? && Concerns(moves[k].op, part)
      && Refused(Exec(start, moves[..k]), moves[k].op, moves[k].fault)
  }

  lemma PartFails(start: State, before: nat, moves: seq<Move>, seen: State, op: Op, fault: Fault, part: Part)
    requires Sent(start, moves, seen, op, fault) && before < |moves| && Concerns(op, part) && Refused(seen, op, fault)
    ensures PartFailed(start, before, moves, part)
  {
    hide Exec, Concerns, Refused;
    assert moves[|moves| - 1].Request?;
  }

  lemma PartFailsStill(start: State, before: nat, first: nat, moves: seq<Move>, more: seq<Move>, part: Part)
    requires PartFailed(start, first, moves, part) && before <= first && moves <= more
    ensures PartFailed(start, before, more, part)
  {
    hide Exec, Concerns, Refused;
    var k :| first <= k < |moves| && moves[k].Request? && Concerns(moves[k].op, part)
      && Refused(Exec(start, moves[..k]), moves[k].op, moves[k].fault);
    assert moves[..k] == more[..k];
  }

  // ---- what reads leave alone ----

  /** The pass goes on: its snapshot and selected host stay, and so does a workload check that went well;
      meanwhile the instance may have been edited. */
  predicate SameAdmission(s: State, t: State) {
    && t.pass.inst == s.pass.inst && t.pass.host == s.pass.host && (s.pass.approved ==> t.pass.approved)
    && (s.pass.pinned ==> t.pass.pinned)
    && Lineage(s.inst, t.inst) && t.keepsSlug == s.keepsSlug
  }

  /** Nor were the Ingresses listed again. */
  predicate SamePass(s: State, t: State) { SameAdmission(s, t) && t.pass.clear == s.pass.clear }

  lemma PassGoesOn(s: State, t: State, u: State)
    ensures SamePass(s, s) && (SamePass(s, t) && SamePass(t, u) ==> SamePass(s, u))
  {}

  lemma AdmissionGoesOn(s: State, t: State, u: State)
    ensures SameAdmission(s, s) && (SameAdmission(s, t) && SameAdmission(t, u) ==> SameAdmission(s, u))
    ensures SamePass(s, t) ==> SameAdmission(s, t)
  {}

  /** What the checks have shown stays so. */
  lemma ChecksStay(s: State, t: State)
    ensures SamePass(s, t) && MayRead(s) ==> MayRead(t)
    ensures SameAdmission(s, t) && Admitted(s.pass) ==> Admitted(t.pass)
    ensures SameAdmission(s, t) ==> t.pass.host == s.pass.host && t.pass.inst == s.pass.inst && t.keepsSlug == s.keepsSlug
  {}

  /** The copy of the instance is a version of it since the pass began. */
  predicate Traced(s: State, inst: Instance) { Lineage(s.pass.inst, inst) && Lineage(inst, s.inst) }

  lemma TracedStays(s: State, t: State, inst: Instance)
    requires SameAdmission(s, t)
    ensures Traced(s, inst) ==> Traced(t, inst)
  {}

  lemma TracedMeans(s: State, inst: Instance, copy: Instance)
    requires copy.generation == inst.generation && copy.spec == inst.spec
    ensures Traced(s, copy) <==> Traced(s, inst)
  {}

  lemma StoredTraced(s: State)
    requires Good(s)
    ensures Traced(s, s.inst)
  {
    hide Fresh, Genuine, PinsOurs, PinsBounded, OneTemplate, MountsPinned, ErasedMarked, ErasedBundles, Counted, Alone;
  }

  /** Between the two states the controller only read; others may have acted. */
  ghost predicate Kept(s: State, t: State) {
    && SamePass(s, t)
    && Rely(s, t.(past := s.past, pass := s.pass))
    && t.past == s.past.(gone := t.past.gone) && s.past.gone <= t.past.gone
  }

  /** Nobody else acted either. */
  predicate SameButNotes(s: State, t: State) {
    && t == s.(past := s.past.(gone := t.past.gone), pass := t.pass) && s.past.gone <= t.past.gone
    && SamePass(s, t)
  }

  lemma KeptReflexive(s: State)
    ensures Kept(s, s)
  {
    RelyReflexive(s);
    assert s.(past := s.past, pass := s.pass) == s;
  }

  lemma KeptTransitive(s: State, t: State, u: State)
    requires Good(s) && Kept(s, t) && Kept(t, u)
    ensures Kept(s, u)
  {
    hide Good;
    FreshAtStart(s);
    RelyTransitive(s, t.(past := s.past, pass := s.pass), u.(past := s.past, pass := s.pass));
  }

  lemma RelyIsKept(s: State, t: State)
    requires Rely(s, t)
    ensures Kept(s, t)
  {
    assert t.(past := s.past, pass := s.pass) == t;
  }

  predicate Reads(op: Op) {
    || op.RereadInstance? || op.ReadSecret? || op.ReadCredential? || op.ListDeployments? || op.ListPods? || op.ReadDeployment?
    || op.ListMatchingPods? || op.ReadIngress? || op.ReadService? || op.ReadEndpoints?
    || op.ProbeService? || op.ResolveHost?
  }

  lemma ReadsOnly(s: State, op: Op)
    requires Reads(op)
    ensures Serve(s, op).0 == s && Serve(s, op).1 != Failed && SameButNotes(s, Learn(s, op, Serve(s, op).1))
  {
    hide *;
    ReadsServe(s, op);
    ReadsNote(s, op, Serve(s, op).1);
  }

  lemma ReadsServe(s: State, op: Op)
    requires Reads(op)
    ensures Serve(s, op).0 == s && Serve(s, op).1 != Failed
  {
    hide DeploymentSpecs, ListedPods, ListedIngresses, ServeCreateSecret, ServeDeleteSecret, ServePatchPins, ServeStatus, ServeWork, ServeRoute;
  }

  lemma ReadsNote(s: State, op: Op, r: Reply)
    requires Reads(op)
    ensures SameButNotes(s, Learn(s, op, r))
  {
    hide RefsOf, Approved, RolledOut, DeploymentSpecs, ListedPods, ListedIngresses, Unclaimed;
  }

  /** A request that only reads: what it returns was true when it was served. */
  method Read(api: ApiServer, op: Op) returns (r: Reply)
    requires api.Inv() && Allowed(api.st, op) && Reads(op)
    modifies api
    ensures api.Inv() && old(api.moves) <= api.moves
    ensures Kept(old(api.st), api.st) && Kept(old(api.st), api.seen) && SameButNotes(api.seen, api.st) && Good(api.seen)
    ensures api.seen.pass == old(api.st).pass
    ensures Quiet(old(api.script)) ==> Quiet(api.script) && api.seen == old(api.st)
    ensures r == Failed || (r == Serve(api.seen, op).1 && api.st == Learn(api.seen, op, r))
    ensures r == Failed ==> api.st == api.seen
    ensures r == Failed ==> forall part :: Concerns(op, part) ==> PartFailed(api.start, |old(api.moves)|, api.moves, part)
    ensures old(api.script) == [] ==> api.script == [] && r != Failed && api.seen == old(api.st)
  {
    hide *;
    InvGood(api);
    QuietCall(api.script);
    ghost var fault := Head(api.script).fault;
    r := api.Call(op);
    ReadsOnly(api.seen, op);
    Delivered(api.seen, op, fault);
    forall part | r == Failed && Concerns(op, part) ensures PartFailed(api.start, |old(api.moves)|, api.moves, part) {
      PartFails(api.start, |old(api.moves)|, api.moves, api.seen, op, fault, part);
    }
    NotesReflexive(api.seen);
    RelyIsKept(old(api.st), api.seen);
    NotesKept(api.seen, api.st);
    KeptTransitive(old(api.st), api.seen, api.st);
  }

  /** A request that changes nothing: it is answered and noted, or fails and leaves everything. */
  lemma Delivered(s: State, op: Op, fault: Fault)
    requires Serve(s, op).0 == s && Serve(s, op).1 != Failed
    ensures var (t, r) := After(s, op, fault);
      if fault == Clean then r == Serve(s, op).1 && t == Learn(s, op, r) else r == Failed && t == s
    ensures After(s, op, fault).1 == Failed ==> Refused(s, op, fault)
  {
    hide Serve, Learn;
  }

  lemma NotesReflexive(s: State)
    ensures SameButNotes(s, s)
  {}

  lemma NotesCompose(s: State, t: State, u: State)
    requires SameButNotes(s, t) && SameButNotes(t, u)
    ensures SameButNotes(s, u)
  {}

  lemma ReadAllowed(s: State, op: Op)
    requires op.ReadDeployment? || op.ReadIngress? || op.RereadInstance? || op.ListMatchingPods?
    ensures Reads(op) && Allowed(s, op)
  {}

  lemma SecretReadAllowed(s: State, n: Name)
    requires MayRead(s)
    ensures Reads(ReadSecret(n)) && Allowed(s, ReadSecret(n))
  {}

  lemma InvGood(api: ApiServer)
    requires api.Inv()
    ensures Good(api.st)
  {}

  lemma NotesKept(s: State, t: State)
    requires SameButNotes(s, t)
    ensures Kept(s, t)
  {
    RelyReflexive(s);
    assert t.(past := s.past, pass := s.pass) == s;
  }

  // ---- listing the Ingresses ----

  /** The state with what the pass knew before about the host. */
  function Unlisted(s: State, t: State): State { t.(pass := t.pass.(clear := s.pass.clear)) }

  /** The controller only read, and may have listed the Ingresses. */
  ghost predicate KeptButClear(s: State, t: State) { Kept(s, Unlisted(s, t)) }

  predicate SameButClear(s: State, t: State) { SameButNotes(s, Unlisted(s, t)) }

  lemma KeptIsButClear(s: State, t: State, u: State)
    ensures Kept(s, t) ==> KeptButClear(s, t)
    ensures SameButNotes(s, t) ==> SameButClear(s, t)
    ensures Good(s) && Kept(s, t) && KeptButClear(t, u) ==> KeptButClear(s, u)
    ensures SameButNotes(s, t) && SameButClear(t, u) ==> SameButClear(s, u)
  {
    hide Good, Rely, Kept;
    if Kept(s, t) {
      KeptPass(s, t);
      assert Unlisted(s, t) == t;
      if Good(s) && KeptButClear(t, u) {
        assert Unlisted(s, u) == Unlisted(t, u);
        KeptTransitive(s, t, Unlisted(t, u));
      }
    }
    if SameButNotes(s, t) {
      assert Unlisted(s, t) == t && Unlisted(s, u) == Unlisted(t, u);
    }
  }

  lemma KeptPass(s: State, t: State)
    requires Kept(s, t)
    ensures SamePass(s, t)
  {}

  lemma ListServed(s: State, host: string)
    ensures Allowed(s, ListIngresses(host)) && Serve(s, ListIngresses(host)) == (s, Ingresses(ListedIngresses(s)))
    ensures var t := Learn(s, ListIngresses(host), Ingresses(ListedIngresses(s)));
      SameButClear(s, t) && t.pass == s.pass.(clear := if Unclaimed(ListedIngresses(s), host) then Some(host) else None)
  {
    hide ListedIngresses, Unclaimed;
  }

  /** Lists every Ingress of the cluster; which host it is done for is the controller's own note. */
  method ListRoutes(api: ApiServer, host: string) returns (r: Reply)
    requires api.Inv()
    modifies api
    ensures api.Inv() && old(api.moves) <= api.moves && Good(api.seen)
    ensures KeptButClear(old(api.st), api.st) && Kept(old(api.st), api.seen) && SameButClear(api.seen, api.st)
    ensures Quiet(old(api.script)) ==> Quiet(api.script) && api.seen == old(api.st)
    ensures r == Failed || r == Ingresses(ListedIngresses(api.seen))
    ensures r != Failed ==> api.st.pass.clear == if Unclaimed(ListedIngresses(api.seen), host) then Some(host) else None
    ensures old(api.script) == [] ==> api.script == [] && r != Failed
  {
    hide *;
    QuietCall(api.script);
    ghost var fault := Head(api.script).fault;
    InvGood(api);
    ListServed(api.st, host);
    r := api.Call(ListIngresses(host));
    ListServed(api.seen, host);
    Delivered(api.seen, ListIngresses(host), fault);
    RelyIsKept(old(api.st), api.seen);
    NotesReflexive(api.seen);
    KeptIsButClear(api.seen, api.seen, api.seen);
    ListedKept(api.seen, api.st);
    KeptIsButClear(old(api.st), api.seen, api.st);
  }

  lemma ListedKept(s: State, t: State)
    ensures SameButClear(s, t) ==> KeptButClear(s, t)
  {
    if SameButClear(s, t) {
      NotesKept(s, Unlisted(s, t));
    }
  }
}
