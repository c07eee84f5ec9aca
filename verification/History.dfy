/** Bounded rollback history of access bundles (internal/controller/access_secret_history.go). */
module History {
  import opened Basics
  import opened Templates
  import opened Cluster
  import opened Safety
  import opened Runs
  import opened Server
  import opened Pinning

  // ---- references ----

  lemma RefsOfSnoc(specs: seq<PodSpec>, spec: PodSpec)
    ensures RefsOf(specs + [spec]) == RefsOf(specs) + SecretRefs(spec)
  {
    var more := specs + [spec];
    forall n | n in RefsOf(specs) ensures n in RefsOf(more) {
      var i :| 0 <= i < |specs| && n in SecretRefs(specs[i]);
      assert more[i] == specs[i];
    }
    forall n | n in SecretRefs(spec) ensures n in RefsOf(more) {
      assert more[|specs|] == spec;
    }
  }

  /** Adds what the listed pods refer to. */
  method CollectAll(specs: seq<PodSpec>, names: set<Name>) returns (found: set<Name>)
    ensures found == names + RefsOf(specs)
  {
    found := names;
    for i := 0 to |specs|
      invariant found == names + RefsOf(specs[..i])
    {
      assert specs[..i + 1] == specs[..i] + [specs[i]];
      RefsOfSnoc(specs[..i], specs[i]);
      found := CollectSecretReferences(specs[i], found);
    }
    assert specs[..|specs|] == specs;
  }

  /** Every Secret that some Deployment or pod of the namespace refers to. */
  function InUse(s: State): set<Name> { RefsOf(DeploymentSpecs(s)) + RefsOf(ListedPods(s)) }

  // ---- candidates ----

  /** A pinned bundle no workload refers to, as it was read; missing ones have no object. */
  datatype Candidate = Candidate(name: Name, secret: Option<Secret>)

  /** A missing bundle has the zero creation time. */
  function Age(c: Candidate): nat { if c.secret.Some? then c.secret.value.created else 0 }

  predicate Before(c: Candidate, d: Candidate)
    requires c.name.Access? && d.name.Access?
  {
    Age(c) < Age(d) || (Age(c) == Age(d) && Less(c.name.rev, d.name.rev))
  }

  predicate Bundles(cs: seq<Candidate>) { forall i :: 0 <= i < |cs| ==> cs[i].name.Access? }

  function Insert(c: Candidate, cs: seq<Candidate>): (r: seq<Candidate>)
    requires c.name.Access? && Bundles(cs)
    ensures Bundles(r) && |r| == |cs| + 1
  {
    if cs == [] || Before(c, cs[0]) then [c] + cs else [cs[0]] + Insert(c, cs[1..])
  }

  /** The library's sort by creation time and name. */
  function Sorted(cs: seq<Candidate>): (r: seq<Candidate>)
    requires Bundles(cs)
    ensures Bundles(r) && |r| == |cs|
  {
    if cs == [] then [] else Insert(cs[0], Sorted(cs[1..]))
  }

  lemma {:induction false} InsertPermutes(c: Candidate, cs: seq<Candidate>)
    requires c.name.Access? && Bundles(cs)
    ensures multiset(Insert(c, cs)) == multiset(cs) + multiset{c}
  {
    if cs != [] && !Before(c, cs[0]) {
      InsertPermutes(c, cs[1..]);
      assert cs == [cs[0]] + cs[1..];
    }
  }

  lemma {:induction false} SortedPermutes(cs: seq<Candidate>)
    requires Bundles(cs)
    ensures multiset(Sorted(cs)) == multiset(cs)
  {
    if cs != [] {
      SortedPermutes(cs[1..]);
      InsertPermutes(cs[0], Sorted(cs[1..]));
      assert cs == [cs[0]] + cs[1..];
    }
  }

  lemma BeforeStrict(c: Candidate, d: Candidate, e: Candidate)
    requires c.name.Access? && d.name.Access? && e.name.Access?
    ensures Before(c, d) && Before(d, e) ==> Before(c, e)
    ensures Before(c, d) || Before(d, c) || c.name == d.name
    ensures !Before(c, c) && !(Before(c, d) && Before(d, c))
  {
    LessTotal(c.name.rev, d.name.rev);
    LessStrict(c.name.rev, d.name.rev, e.name.rev);
    LessStrict(c.name.rev, d.name.rev, c.name.rev);
  }

  predicate DistinctNames(cs: seq<Candidate>) {
    forall i, j :: 0 <= i < j < |cs| ==> cs[i].name != cs[j].name
  }

  /** The first of the sorted list comes before every other candidate. */
  lemma {:induction false} SortedFirst(cs: seq<Candidate>)
    requires Bundles(cs) && cs != [] && DistinctNames(cs)
    ensures Sorted(cs)[0] in cs
    ensures forall c :: c in cs && c != Sorted(cs)[0] ==> Before(Sorted(cs)[0], c)
  {
    if |cs| > 1 {
      var rest := Sorted(cs[1..]);
      SortedFirst(cs[1..]);
      assert rest[0] in cs[1..];
      forall c | c in cs && c != Sorted(cs)[0] ensures Before(Sorted(cs)[0], c) {
        BeforeStrict(cs[0], rest[0], c);
        BeforeStrict(rest[0], cs[0], c);
        if c != cs[0] {
          var i :| 0 <= i < |cs| && cs[i] == c;
          assert cs[1..][i - 1] == c;
        }
      }
    }
  }

  // ---- listing the workloads ----

  /** Names a retirement must spare: they include what the instance's own workload mounts,
      and none of them is the name of an erased bundle. */
  ghost predicate Spared(s: State, names: set<Name>) {
    OwnRefs(s.work) <= names && (s.solo ==> NoneErased(names, Pins(s), s.past.erased))
  }

  lemma KeptRefs(s: State, t: State)
    requires Kept(s, t)
    ensures OwnRefs(t.work) <= OwnRefs(s.work) && Pins(t) == Pins(s) && t.past.erased == s.past.erased && t.solo == s.solo
  {}

  lemma SparedStable(s: State, t: State, names: set<Name>)
    requires Kept(s, t) && Spared(s, names)
    ensures Spared(t, names)
  {
    hide Kept, NoneErased;
    KeptRefs(s, t);
  }

  lemma DeploymentRefsSpared(s: State)
    requires Good(s)
    ensures Spared(s, RefsOf(DeploymentSpecs(s)))
  {
    var refs := RefsOf(DeploymentSpecs(s));
    if s.work.deploy.Some? {
      assert DeploymentSpecs(s)[0] == s.work.deploy.value.template.spec;
      assert forall n :: n in OwnRefs(s.work) ==> n in refs;
    }
    if s.solo {
      forall n | n in refs && n in Pins(s) ensures Pins(s)[n] !in s.past.erased {
        assert OursAt(s.past, n, Pins(s)[n]);
        if n.Access? {
          var i :| 0 <= i < |DeploymentSpecs(s)| && n in SecretRefs(DeploymentSpecs(s)[i]);
          assert i == 0 && s.work.deploy.Some?;
        }
      }
    }
  }

  lemma PodRefsClean(s: State)
    requires Good(s) && s.solo
    ensures NoneErased(RefsOf(ListedPods(s)), Pins(s), s.past.erased)
  {
    var specs := ListedPods(s);
    forall n | n in RefsOf(specs) && n in Pins(s) ensures Pins(s)[n] !in s.past.erased {
      assert OursAt(s.past, n, Pins(s)[n]);
      if n.Access? {
        var i :| 0 <= i < |specs| && n in SecretRefs(specs[i]);
        assert i < |s.work.pods|;
        assert s.work.pods[i].template == s.work.deploy.value.template;
        assert n in OwnRefs(s.work);
      }
    }
  }

  lemma DeploymentsServed(s: State)
    ensures Reads(ListDeployments) && Allowed(s, ListDeployments) && Serve(s, ListDeployments).1 == Specs(DeploymentSpecs(s))
    ensures Learn(s, ListDeployments, Specs(DeploymentSpecs(s))).pass.deployRefs == Some(RefsOf(DeploymentSpecs(s)))
  {
    hide RefsOf, DeploymentSpecs;
  }

  lemma PodsServed(s: State)
    ensures Reads(ListPods) && Allowed(s, ListPods) && Serve(s, ListPods).1 == Specs(ListedPods(s))
    ensures Learn(s, ListPods, Specs(ListedPods(s))).pass == s.pass.(podRefs := Some(RefsOf(ListedPods(s))))
  {
    hide RefsOf, ListedPods;
  }

  /** These are the references that the lists of the pass show. */
  predicate ListsShow(p: Pass, refs: set<Name>) {
    p.deployRefs.Some? && p.podRefs.Some? && refs == p.deployRefs.value + p.podRefs.value
  }

  lemma ListsShown(p: Pass, refs: set<Name>, pods: set<Name>)
    requires p.deployRefs == Some(refs)
    ensures ListsShow(p.(podRefs := Some(pods)), refs + pods)
  {}

  /** What was listed first still has to be spared when the second list arrives, and after it. */
  lemma ListedSpared(first: State, between: State, second: State, now: State)
    requires Good(first) && Good(second) && SameButNotes(first, between) && Kept(between, second) && SameButNotes(second, now)
    ensures Spared(now, RefsOf(DeploymentSpecs(first)) + RefsOf(ListedPods(second)))
  {
    hide Good, Kept, Spared, SameButNotes, RefsOf, NoneErased;
    DeploymentRefsSpared(first);
    NotesKept(first, between);
    SparedStable(first, between, RefsOf(DeploymentSpecs(first)));
    SparedStable(between, second, RefsOf(DeploymentSpecs(first)));
    if second.solo {
      PodRefsClean(second);
    }
    SparedUnion(second, RefsOf(DeploymentSpecs(first)), RefsOf(ListedPods(second)));
    NotesKept(second, now);
    SparedStable(second, now, RefsOf(DeploymentSpecs(first)) + RefsOf(ListedPods(second)));
  }

  lemma SameInUse(s: State, t: State)
    requires SameButNotes(s, t)
    ensures RefsOf(DeploymentSpecs(s)) + RefsOf(ListedPods(t)) == InUse(s)
  {}

  /** Lines 31-46: what Deployments refer to, then what pods refer to. */
  method ListReferences(api: ApiServer) returns (r: Result<set<Name>, Err>)
    requires api.Inv()
    modifies api
    ensures api.Inv() && old(api.moves) <= api.moves && Kept(old(api.st), api.st)
    ensures old(api.script) == [] ==> api.script == []
    ensures Quiet(old(api.script)) ==> Quiet(api.script) && SameButNotes(old(api.st), api.st)
    ensures r.Ok? ==> Spared(api.st, r.value) && ListsShow(api.st.pass, r.value)
    ensures r.Ok? && Quiet(old(api.script)) ==> r.value == InUse(old(api.st))
    ensures old(api.script) == [] ==> r.Ok?
  {
    hide *;
    InvGood(api);
    DeploymentsServed(api.st);
    var deployments := Read(api, ListDeployments);
    ghost var first, between := api.seen, api.st;
    DeploymentsServed(first);
    if !deployments.Specs? {
      return Err(Api);
    }
    PodsServed(between);
    var pods := Read(api, ListPods);
    ghost var second := api.seen;
    PodsServed(second);
    KeptTransitive(old(api.st), between, api.st);
    if !pods.Specs? {
      return Err(Api);
    }
    ListedSpared(first, between, second, api.st);
    ListsShown(between.pass, RefsOf(DeploymentSpecs(first)), RefsOf(ListedPods(second)));
    if Quiet(old(api.script)) {
      NotesCompose(first, between, api.st);
      SameInUse(first, second);
    }
    var referenced := CollectAll(deployments.specs, {});
    referenced := CollectAll(pods.specs, referenced);
    assert referenced == RefsOf(DeploymentSpecs(first)) + RefsOf(ListedPods(second));
    r := Ok(referenced);
  }

  lemma SparedUnion(s: State, names: set<Name>, more: set<Name>)
    requires Spared(s, names) && (s.solo ==> NoneErased(more, Pins(s), s.past.erased))
    ensures Spared(s, names + more)
  {}

  // ---- candidates for retirement ----

  /** What is known of a candidate until the pins change. */
  ghost predicate Vetted(s: State, c: Candidate, refs: set<Name>) {
    && c.name.Access? && c.name in Pins(s) && c.name !in refs
    && (c.secret.None? ==> c.name in s.past.gone)
    && (c.secret.Some? ==> VettedSecret(s, c.name, c.secret.value))
  }

  ghost predicate VettedSecret(s: State, n: Name, x: Secret)
    requires n in Pins(s)
  {
    && x.owned && x.immutable && x.uid == Pins(s)[n] && 0 < x.created && SecretAsRead(s, n, x)
    && (s.solo ==> x.uid !in s.past.erased)
  }

  /** Every bundle that was erased and is still pinned shows up as a missing one. */
  ghost predicate Covered(s: State, cs: seq<Candidate>, todo: set<Name>) {
    s.solo ==> forall n :: n in Pins(s) && n !in todo && Pins(s)[n] in s.past.erased ==> Candidate(n, None) in cs
  }

  lemma VettedStable(s: State, t: State, c: Candidate, refs: set<Name>)
    requires Kept(s, t) && Vetted(s, c, refs)
    ensures Vetted(t, c, refs)
  {}

  lemma CoveredStable(s: State, t: State, cs: seq<Candidate>, todo: set<Name>)
    requires Kept(s, t) && Covered(s, cs, todo)
    ensures Covered(t, cs, todo)
  {
    KeptRefs(s, t);
  }

  /** The stored bundle, if any, is the pinned one. */
  predicate SoundAt(s: State, n: Name)
    requires n in Pins(s)
  {
    n in s.secrets ==> Pristine(s.secrets[n], Pins(s)[n])
  }

  function CandidateOf(s: State, n: Name): Candidate { Candidate(n, Lookup(s.secrets, n)) }

  predicate Pristine(x: Secret, uid: nat) { x.owned && x.immutable && x.uid == uid }

  lemma Considered(s: State, seen: State, t: State, n: Name, refs: set<Name>, r: Reply)
    requires Kept(s, seen) && Kept(s, t) && Good(seen) && SameButNotes(seen, t)
    requires n.Access? && n in Pins(s) && Spared(s, refs)
    requires r == Serve(seen, ReadSecret(n)).1 && t == Learn(seen, ReadSecret(n), r)
    ensures r.Absent? || r.GotSecret?
    ensures r.Absent? ==>
      && (n !in refs ==> Vetted(t, Candidate(n, None), refs))
      && (n in refs && s.solo ==> Pins(s)[n] !in s.past.erased)
    ensures r.GotSecret? && Pristine(r.secret, Pins(s)[n]) ==>
      && (n !in refs ==> Vetted(t, Candidate(n, Some(r.secret)), refs))
      && (s.solo ==> Pins(s)[n] !in s.past.erased)
    ensures seen == s ==>
      && CandidateOf(s, n) == Candidate(n, if r.Absent? then None else Some(r.secret))
      && (SoundAt(s, n) <==> r.Absent? || Pristine(r.secret, Pins(s)[n]))
  {
    hide *;
    SecretServed(seen, n);
    KeptRefs(s, t);
    KeptRefs(s, seen);
    SparedStable(s, t, refs);
    NotesSecrets(seen, t);
    if r.Absent? {
      AbsentNoted(seen, n);
      AbsentVetted(t, n, refs);
    } else {
      FoundVetted(seen, t, n, refs);
    }
    PristineMeans(s, n);
  }

  lemma SecretServed(s: State, n: Name)
    ensures Serve(s, ReadSecret(n)).1 == if n in s.secrets then GotSecret(s.secrets[n]) else Absent
    ensures n in s.secrets ==> Lookup(s.secrets, n) == Some(s.secrets[n])
  {}

  lemma NotesSecrets(s: State, t: State)
    requires SameButNotes(s, t)
    ensures t.secrets == s.secrets && Pins(t) == Pins(s) && t.past.erased == s.past.erased && t.solo == s.solo && t.next == s.next
  {}

  lemma AbsentVetted(t: State, n: Name, refs: set<Name>)
    requires n.Access? && n in Pins(t) && n in t.past.gone && Spared(t, refs)
    ensures n !in refs ==> Vetted(t, Candidate(n, None), refs)
    ensures n in refs && t.solo ==> Pins(t)[n] !in t.past.erased
  {
    hide OwnRefs;
  }

  lemma FoundVetted(seen: State, t: State, n: Name, refs: set<Name>)
    requires Good(seen) && n.Access? && n in Pins(t) && n in seen.secrets
    requires t.secrets == seen.secrets && Pins(t) == Pins(seen) && t.past.erased == seen.past.erased && t.solo == seen.solo && t.next == seen.next
    ensures Pristine(seen.secrets[n], Pins(t)[n]) ==>
      && (n !in refs ==> Vetted(t, Candidate(n, Some(seen.secrets[n])), refs))
      && (t.solo ==> Pins(t)[n] !in t.past.erased)
  {
    hide Genuine, OneTemplate, MountsPinned, PinsOurs, PinsBounded, Counted, NoBundles, ErasedMarked, ErasedBundles, Snapped, NoneErased, NoneHeld;
  }

  lemma PristineMeans(s: State, n: Name)
    requires n in Pins(s)
    ensures CandidateOf(s, n) == Candidate(n, if n in s.secrets then Some(s.secrets[n]) else None)
    ensures SoundAt(s, n) <==> n !in s.secrets || Pristine(s.secrets[n], Pins(s)[n])
  {}

  /** Lines 55-66 for one pinned bundle. */
  method Consider(api: ApiServer, n: Name, uid: nat, refs: set<Name>) returns (r: Result<Option<Candidate>, Err>)
    requires api.Inv() && n.Access? && n in Pins(api.st) && uid == Pins(api.st)[n] && Spared(api.st, refs) && MayRead(api.st)
    modifies api
    ensures api.Inv() && old(api.moves) <= api.moves && Kept(old(api.st), api.st) && api.st.pass == old(api.st).pass
    ensures old(api.script) == [] ==> api.script == []
    ensures Quiet(old(api.script)) ==> Quiet(api.script) && SameButNotes(old(api.st), api.st)
    ensures r.Err? ==> r.error != HistoryInvalid && r.error != HistoryFull
    ensures r.Ok? && r.value.Some? ==> r.value.value.name == n && Vetted(api.st, r.value.value, refs)
    ensures r.Ok? && r.value != Some(Candidate(n, None)) && old(api.st).solo ==> uid !in old(api.st).past.erased
    ensures r.Ok? && Quiet(old(api.script)) ==>
      SoundAt(old(api.st), n) && r.value == if n in refs then None else Some(CandidateOf(old(api.st), n))
    ensures old(api.script) == [] ==> (r.Ok? <==> SoundAt(old(api.st), n))
  {
    hide *;
    SecretReadAllowed(api.st, n);
    var reply := Read(api, ReadSecret(n));
    if reply.Failed? {
      return Err(Api);
    }
    SecretNoted(api.seen, n, reply);
    Considered(old(api.st), api.seen, api.st, n, refs, reply);
    if reply.Absent? {
      r := Ok(if n in refs then None else Some(Candidate(n, None)));
    } else if !Pristine(reply.secret, uid) {
      r := Err(HistoryMismatch);
    } else {
      r := Ok(if n in refs then None else Some(Candidate(n, Some(reply.secret))));
    }
  }

  lemma SecretNoted(s: State, n: Name, r: Reply)
    ensures Learn(s, ReadSecret(n), r).pass == s.pass
  {}

  ghost predicate AllVetted(s: State, cs: seq<Candidate>, refs: set<Name>, todo: set<Name>) {
    && (forall c :: c in cs ==> Vetted(s, c, refs) && c.name !in todo)
    && DistinctNames(cs)
  }

  /** The candidates are exactly the stored state of the unreferenced bundles. */
  ghost predicate Exact(s: State, cs: seq<Candidate>, refs: set<Name>, todo: set<Name>) {
    && (forall n :: n in Pins(s) && n.Access? && n !in todo ==> SoundAt(s, n))
    && (forall c :: c in cs ==> c.name in Pins(s) && c.name.Access? && c.name !in todo && c.name !in refs && c == CandidateOf(s, c.name))
    && (forall n :: n in Pins(s) && n.Access? && n !in todo && n !in refs ==> CandidateOf(s, n) in cs)
  }

  predicate Sound(s: State) { forall n :: n in Pins(s) && n.Access? ==> SoundAt(s, n) }

  lemma AllVettedStable(s: State, t: State, cs: seq<Candidate>, refs: set<Name>, todo: set<Name>)
    requires Kept(s, t) && AllVetted(s, cs, refs, todo)
    ensures AllVetted(t, cs, refs, todo)
  {
    hide Kept, Vetted;
    forall c | c in cs ensures Vetted(t, c, refs) {
      VettedStable(s, t, c, refs);
    }
  }

  lemma NextVetted(s: State, cs: seq<Candidate>, found: Option<Candidate>, n: Name, refs: set<Name>, todo: set<Name>)
    requires AllVetted(s, cs, refs, todo) && Covered(s, cs, todo)
    requires n in todo && n in Pins(s) && (found.Some? ==> found.value.name == n && Vetted(s, found.value, refs))
    requires s.solo && found != Some(Candidate(n, None)) ==> Pins(s)[n] !in s.past.erased
    ensures var more := if found.Some? then cs + [found.value] else cs;
      AllVetted(s, more, refs, todo - {n}) && Covered(s, more, todo - {n})
  {
    hide Vetted;
    var more := if found.Some? then cs + [found.value] else cs;
    assert forall c :: c in cs ==> c in more;
    if found.Some? {
      assert more[|cs|] == found.value;
      assert forall i :: 0 <= i < |cs| ==> cs[i].name in {cs[i].name} && cs[i] in cs;
    }
  }

  lemma NextExact(s: State, cs: seq<Candidate>, found: Option<Candidate>, n: Name, refs: set<Name>, todo: set<Name>)
    requires Exact(s, cs, refs, todo) && n in todo && n in Pins(s) && n.Access?
    requires SoundAt(s, n) && found == if n in refs then None else Some(CandidateOf(s, n))
    ensures var more := if found.Some? then cs + [found.value] else cs; Exact(s, more, refs, todo - {n})
  {
    hide SoundAt, CandidateOf;
    var more := if found.Some? then cs + [found.value] else cs;
    assert forall c :: c in cs ==> c in more;
    if found.Some? {
      assert more[|cs|] == found.value;
      assert CandidateOf(s, n).name == n by { NameOf(s, n); }
    }
  }

  lemma NameOf(s: State, n: Name)
    ensures CandidateOf(s, n).name == n
  {}

  lemma SessionSkipped(s: State, cs: seq<Candidate>, n: Name, refs: set<Name>, todo: set<Name>)
    requires Good(s) && AllVetted(s, cs, refs, todo) && Covered(s, cs, todo) && n.Session?
    ensures AllVetted(s, cs, refs, todo - {n}) && Covered(s, cs, todo - {n})
  {
    hide Vetted;
    if n in Pins(s) {
      assert OursAt(s.past, n, Pins(s)[n]);
    }
  }

  lemma SessionExact(s: State, cs: seq<Candidate>, n: Name, refs: set<Name>, todo: set<Name>)
    requires Exact(s, cs, refs, todo) && n.Session?
    ensures Exact(s, cs, refs, todo - {n})
  {
    hide SoundAt, CandidateOf;
  }

  lemma AllSound(s: State, cs: seq<Candidate>, refs: set<Name>, n: Name)
    ensures Exact(s, cs, refs, {}) ==> Sound(s)
    ensures n in Pins(s) && n.Access? && !SoundAt(s, n) ==> !Sound(s)
  {}

  lemma NotesExact(s: State, t: State, n: Name)
    requires SameButNotes(s, t)
    ensures Pins(t) == Pins(s) && (n in Pins(s) ==> (SoundAt(t, n) <==> SoundAt(s, n))) && CandidateOf(t, n) == CandidateOf(s, n)
  {}

  lemma PinKinds(s: State, n: Name)
    requires Good(s) && n in Pins(s)
    ensures (n.Session? || n.Access?) && Pins(s)[n] != 0
  {
    assert OursAt(s.past, n, Pins(s)[n]);
  }

  /** Lines 47-67: the map of pins is visited in an arbitrary order. */
  method Candidates(api: ApiServer, pins: Pinned, refs: set<Name>) returns (r: Result<seq<Candidate>, Err>)
    requires api.Inv() && pins == Pins(api.st) && Spared(api.st, refs) && MayRead(api.st)
    modifies api
    ensures api.Inv() && old(api.moves) <= api.moves && Kept(old(api.st), api.st) && api.st.pass == old(api.st).pass
    ensures old(api.script) == [] ==> api.script == []
    ensures Quiet(old(api.script)) ==> Quiet(api.script) && SameButNotes(old(api.st), api.st)
    ensures r.Err? ==> r.error != HistoryInvalid && r.error != HistoryFull
    ensures r.Ok? ==> AllVetted(api.st, r.value, refs, {}) && Covered(api.st, r.value, {})
    ensures r.Ok? && Quiet(old(api.script)) ==> Exact(old(api.st), r.value, refs, {})
    ensures old(api.script) == [] ==> (r.Ok? <==> Sound(old(api.st)))
  {
    hide *;
    InvGood(api);
    KeptReflexive(api.st);
    NotesReflexive(api.st);
    CalmIsQuiet(api.script);
    var todo, cs := pins.Keys, [];
    NothingVetted(api.st, refs);
    while todo != {}
      invariant todo <= pins.Keys
      invariant api.Inv() && old(api.moves) <= api.moves && Kept(old(api.st), api.st)
      invariant old(api.script) == [] ==> api.script == []
      invariant Quiet(old(api.script)) ==> Quiet(api.script) && SameButNotes(old(api.st), api.st)
      invariant pins == Pins(api.st) && Spared(api.st, refs) && MayRead(api.st) && api.st.pass == old(api.st).pass
      invariant AllVetted(api.st, cs, refs, todo) && Covered(api.st, cs, todo)
      invariant Quiet(old(api.script)) ==> Exact(old(api.st), cs, refs, todo)
      decreases todo
    {
      var n :| n in todo;
      InvGood(api);
      PinKinds(api.st, n);
      if n.Session? {
        SessionSkipped(api.st, cs, n, refs, todo);
        if Quiet(old(api.script)) {
          SessionExact(old(api.st), cs, n, refs, todo);
        }
      } else if !n.Access? || pins[n] == 0 {
        return Err(HistoryInvalid);
      } else {
        ghost var was := api.st;
        var found := Consider(api, n, pins[n], refs);
        KeptTransitive(old(api.st), was, api.st);
        SameChecks(was, api.st);
        if Quiet(old(api.script)) {
          NotesExact(old(api.st), was, n);
          NotesCompose(old(api.st), was, api.st);
          if found.Ok? {
            NextExact(old(api.st), cs, found.value, n, refs, todo);
          }
        }
        AllSound(old(api.st), cs, refs, n);
        if found.Err? {
          return Err(found.error);
        }
        KeptRefs(was, api.st);
        SparedStable(was, api.st, refs);
        AllVettedStable(was, api.st, cs, refs, todo);
        CoveredStable(was, api.st, cs, todo);
        NextVetted(api.st, cs, found.value, n, refs, todo);
        if found.value.Some? {
          cs := cs + [found.value.value];
        }
      }
      todo := todo - {n};
    }
    AllSound(old(api.st), cs, refs, Name.Session);
    r := Ok(cs);
  }

  lemma SameChecks(s: State, t: State)
    requires t.pass == s.pass
    ensures MayRead(t) <==> MayRead(s)
  {}

  lemma NothingVetted(s: State, refs: set<Name>)
    ensures AllVetted(s, [], refs, Pins(s).Keys) && Covered(s, [], Pins(s).Keys) && Exact(s, [], refs, Pins(s).Keys)
  {}

  // ---- which bundle goes ----

  /** Pinned bundles that nothing in the namespace refers to. */
  function Idle(s: State): set<Name> { set n | n in Pins(s) && n.Access? && n !in InUse(s) }

  /** Missing bundles first, then the oldest, ties by name. */
  ghost predicate IsEldest(s: State, n: Name) {
    n in Idle(s) && forall m :: m in Idle(s) && m != n ==> Before(CandidateOf(s, n), CandidateOf(s, m))
  }

  lemma EldestUnique(s: State, m: Name, n: Name)
    requires IsEldest(s, m) && IsEldest(s, n)
    ensures m == n
  {
    if m != n {
      BeforeStrict(CandidateOf(s, m), CandidateOf(s, n), CandidateOf(s, m));
    }
  }

  /** As long as some idle bundle is missing, a missing one is retired. */
  lemma MissingGoesFirst(s: State, n: Name, m: Name)
    requires SecretsFresh(s.secrets, s.next) && IsEldest(s, n) && m in Idle(s) && m !in s.secrets
    ensures n !in s.secrets
  {
    if n != m {
      assert Before(CandidateOf(s, n), CandidateOf(s, m));
    }
  }

  lemma {:induction false} EldestOf(s: State, names: set<Name>) returns (n: Name)
    requires names != {} && forall m :: m in names ==> m.Access?
    ensures n in names && forall m :: m in names && m != n ==> Before(CandidateOf(s, n), CandidateOf(s, m))
  {
    var k :| k in names;
    if names == {k} {
      n := k;
    } else {
      var rest := EldestOf(s, names - {k});
      BeforeStrict(CandidateOf(s, k), CandidateOf(s, rest), CandidateOf(s, k));
      n := if Before(CandidateOf(s, k), CandidateOf(s, rest)) then k else rest;
      forall m | m in names && m != n ensures Before(CandidateOf(s, n), CandidateOf(s, m)) {
        BeforeStrict(CandidateOf(s, n), CandidateOf(s, rest), CandidateOf(s, m));
      }
    }
  }

  /** Without finalizers one idle bundle is enough. */
  lemma RoomWithoutFinalizers(s: State)
    requires NoneHeld(s.secrets)
    ensures RoomPossible(s) <==> |Pins(s)| <= MAX_BUNDLES || (s.keepsPins && Sound(s) && Idle(s) != {})
  {
    hide InUse, Sound;
    if Idle(s) != {} {
      var n := EldestOf(s, Idle(s));
      assert IsEldest(s, n) && Removable(s, n);
    }
  }

  /** When an undisturbed call succeeds: there is room, or the stored bundles are the
      pinned ones and the eldest idle one can go at once. */
  ghost predicate RoomPossible(s: State) {
    || |Pins(s)| <= MAX_BUNDLES
    || (s.keepsPins && Sound(s) && exists n :: IsEldest(s, n) && Removable(s, n))
  }

  predicate Removable(s: State, n: Name) { n in s.secrets ==> !s.secrets[n].held }

  /** The first of the sorted candidates is the eldest. */
  lemma FirstIsEldest(s: State, cs: seq<Candidate>)
    requires Exact(s, cs, InUse(s), {}) && DistinctNames(cs) && cs != [] && Bundles(cs)
    ensures IsEldest(s, Sorted(cs)[0].name) && Sorted(cs)[0] == CandidateOf(s, Sorted(cs)[0].name)
  {
    hide SoundAt, InUse;
    SortedFirst(cs);
    var first := Sorted(cs)[0];
    forall m | m in Idle(s) && m != first.name ensures Before(CandidateOf(s, first.name), CandidateOf(s, m)) {
      assert CandidateOf(s, m) in cs;
    }
  }

  lemma NoneIdle(s: State)
    requires Exact(s, [], InUse(s), {})
    ensures Idle(s) == {}
  {
    hide SoundAt, InUse;
  }

  lemma VettedBundles(s: State, cs: seq<Candidate>, refs: set<Name>)
    requires AllVetted(s, cs, refs, {})
    ensures Bundles(cs) && DistinctNames(cs)
  {
    hide VettedSecret;
  }

  /** A bundle that was erased and is still pinned is missing, so it comes first. */
  lemma ErasedComesFirst(s: State, cs: seq<Candidate>, refs: set<Name>)
    requires AllVetted(s, cs, refs, {}) && Covered(s, cs, {}) && Bundles(cs) && cs != []
    requires s.solo && ErasedPins(Pins(s), s.past.erased) != {}
    ensures Sorted(cs)[0].secret.None?
  {
    hide Sorted, SecretAsRead;
    SortedFirst(cs);
    var u :| u in ErasedPins(Pins(s), s.past.erased);
    var n :| n in Pins(s) && Pins(s)[n] == u;
    assert Candidate(n, None) in cs;
    assert Vetted(s, Sorted(cs)[0], refs);
  }

  /** The chosen bundle may be erased, or is already known to be missing. */
  lemma ChosenMayGo(s: State, cs: seq<Candidate>, refs: set<Name>, room: Name)
    requires AllVetted(s, cs, refs, {}) && Covered(s, cs, {}) && Spared(s, refs) && cs != [] && Bundles(cs)
    requires room !in Pins(s) && MayRead(s) && ListsShow(s.pass, refs)
    ensures Chosen(s, Sorted(cs)[0], room)
  {
    hide Sorted, SecretAsRead, NoneErased, MayRead;
    SortedFirst(cs);
    var c := Sorted(cs)[0];
    assert Vetted(s, c, refs);
    if s.solo && ErasedPins(Pins(s), s.past.erased) != {} {
      ErasedComesFirst(s, cs, refs);
    }
  }

  lemma EraseSteady(s: State, n: Name, x: Secret)
    ensures Steady(s, s) && Steady(s, ServeDeleteSecret(s, n, x).0) && Pins(ServeDeleteSecret(s, n, x).0) == Pins(s)
  {
    hide Steady, ServeDeleteSecret, SameButPins;
    EraseFrame(s, n, x);
    AlikePins(s.inst.status);
    FramedSteady(s, s);
    FramedSteady(s, ServeDeleteSecret(s, n, x).0);
  }

  /** What the deletion request does when `s` is the state that it finds. */
  lemma EraseServed(s: State, n: Name, x: Secret, room: Name, fault: Fault)
    ensures var (t, r) := After(s, DeleteSecret(n, x, room), fault);
      && Steady(s, t) && Pins(t) == Pins(s) && t.pass == s.pass && (t == s || t == ServeDeleteSecret(s, n, x).0)
      && (fault == Clean ==> t == ServeDeleteSecret(s, n, x).0)
      && (fault == Clean && Lookup(s.secrets, n) == Some(x) ==> r == Done)
  {
    hide Steady, ServeDeleteSecret;
    EraseFrame(s, n, x);
    EraseSteady(s, n, x);
    EraseReply(s, n, x);
  }

  lemma EraseReply(s: State, n: Name, x: Secret)
    ensures Lookup(s.secrets, n) == Some(x) ==> ServeDeleteSecret(s, n, x).1 == Done
    ensures Lookup(s.secrets, n) == Some(x) ==> (n in ServeDeleteSecret(s, n, x).0.secrets <==> x.held)
  {}

  /** Lines 78-88: delete exactly the object that was read, and see that it is gone. */
  method Retire(api: ApiServer, n: Name, x: Secret, room: Name) returns (e: Option<Err>)
    requires api.Inv() && MayErase(api.st, n, x, room)
    modifies api
    ensures api.Inv() && old(api.moves) <= api.moves
    ensures Steady(old(api.st), api.st) && Pins(api.st) == Pins(old(api.st)) && api.st.pass == old(api.st).pass
    ensures e.None? ==> n in api.st.past.gone
    ensures e.Some? ==> e.value != HistoryInvalid && e.value != HistoryFull
    ensures Quiet(old(api.script)) ==> Quiet(api.script)
    ensures Quiet(old(api.script)) ==>
      SameButNotes(old(api.st), api.st) || SameButNotes(ServeDeleteSecret(old(api.st), n, x).0, api.st)
    ensures old(api.script) == [] ==> api.script == [] && SameButNotes(ServeDeleteSecret(old(api.st), n, x).0, api.st)
    ensures old(api.script) == [] && Lookup(old(api.st).secrets, n) == Some(x) ==> (e.None? <==> !x.held)
  {
    hide *;
    EraseAllowed(api.st, n, x, room);
    var reply := api.Call(DeleteSecret(n, x, room));
    ghost var asked := api.st;
    RelyIsKept(old(api.st), api.seen);
    KeptSteady(old(api.st), api.seen);
    EraseServed(api.seen, n, x, room, Head(old(api.script)).fault);
    EraseReply(api.seen, n, x);
    SteadyTransitive(old(api.st), api.seen, asked);
    QuietCall(old(api.script));
    QuietCall(api.script);
    NotesReflexive(asked);
    if reply.Failed? {
      return Some(Api);
    }
    SteadyChecks(old(api.st), api.st);
    SecretReadAllowed(api.st, n);
    var remaining := Read(api, ReadSecret(n));
    KeptSteady(asked, api.st);
    SteadyTransitive(old(api.st), asked, api.st);
    AbsentNoted(api.seen, n);
    SecretNoted(api.seen, n, remaining);
    if remaining.Failed? {
      return Some(Api);
    }
    if remaining.GotSecret? {
      return Some(AwaitingDeletion);
    }
    e := None;
  }

  lemma EraseAllowed(s: State, n: Name, x: Secret, room: Name)
    requires MayErase(s, n, x, room)
    ensures Allowed(s, DeleteSecret(n, x, room)) && MayRead(s)
  {}

  lemma SteadyChecks(s: State, t: State)
    requires Steady(s, t)
    ensures MayRead(s) ==> MayRead(t)
  {}

  lemma AbsentNoted(s: State, n: Name)
    ensures var r := Serve(s, ReadSecret(n)).1;
      && (r.Absent? || r.GotSecret?) && (r.Absent? <==> n !in s.secrets)
      && (r.Absent? ==> n in Learn(s, ReadSecret(n), r).past.gone)
  {}

  /** Lines 31-77: the candidate that goes. */
  method Choose(api: ApiServer, pins: Pinned, room: Name) returns (r: Result<Candidate, Err>)
    requires api.Inv() && pins == Pins(api.st) && room !in pins && MayRead(api.st)
    modifies api
    ensures api.Inv() && old(api.moves) <= api.moves && Kept(old(api.st), api.st)
    ensures old(api.script) == [] ==> api.script == []
    ensures Quiet(old(api.script)) ==> Quiet(api.script) && SameButNotes(old(api.st), api.st)
    ensures r.Err? ==> r.error != HistoryInvalid && r.error != HistoryFull
    ensures r.Ok? ==> Chosen(api.st, r.value, room)
    ensures r.Ok? && Quiet(old(api.script)) ==>
      Sound(old(api.st)) && IsEldest(old(api.st), r.value.name) && r.value == CandidateOf(old(api.st), r.value.name)
    ensures old(api.script) == [] ==> (r.Ok? <==> Sound(old(api.st)) && Idle(old(api.st)) != {})
  {
    hide *;
    InvGood(api);
    CalmIsQuiet(api.script);
    var refs := ListReferences(api);
    ghost var listed := api.st;
    KeptRefs(old(api.st), listed);
    KeptChecks(old(api.st), listed);
    if refs.Err? {
      return Err(Api);
    }
    var cs := Candidates(api, pins, refs.value);
    KeptRefs(listed, api.st);
    KeptTransitive(old(api.st), listed, api.st);
    SparedStable(listed, api.st, refs.value);
    if Quiet(old(api.script)) {
      NotesCompose(old(api.st), listed, api.st);
      NotesRoom(old(api.st), listed);
    }
    if cs.Err? {
      return Err(cs.error);
    }
    SameChecks(listed, api.st);
    VettedBundles(api.st, cs.value, refs.value);
    if cs.value == [] {
      if Quiet(old(api.script)) {
        NoneIdle(listed);
      }
      return Err(HistoryInUse);
    }
    var first := Sorted(cs.value)[0];
    ChosenMayGo(api.st, cs.value, refs.value, room);
    if Quiet(old(api.script)) {
      AllSound(listed, cs.value, refs.value, Name.Session);
      FirstIsEldest(listed, cs.value);
      EldestIdle(old(api.st), first.name);
    }
    r := Ok(first);
  }

  lemma KeptChecks(s: State, t: State)
    requires Kept(s, t)
    ensures MayRead(s) ==> MayRead(t)
  {}

  ghost predicate Chosen(s: State, c: Candidate, room: Name) {
    && MayRead(s) && c.name in Pins(s) && c.name.Access? && c.name !in OwnRefs(s.work) && ListedIdle(s.pass, c.name)
    && (c.secret.None? ==> c.name in s.past.gone)
    && (c.secret.Some? ==> MayErase(s, c.name, c.secret.value, room))
  }

  lemma EldestIdle(s: State, n: Name)
    requires IsEldest(s, n)
    ensures n in Idle(s) && Idle(s) != {} && n in Pins(s)
  {}

  /** What the controller notes down does not matter for any of this. */
  lemma NotesRoom(s: State, t: State)
    requires SameButNotes(s, t)
    ensures Pins(t) == Pins(s) && InUse(t) == InUse(s) && Idle(t) == Idle(s) && (Sound(t) <==> Sound(s))
    ensures forall n :: CandidateOf(t, n) == CandidateOf(s, n) && (IsEldest(t, n) <==> IsEldest(s, n))
    ensures RoomPossible(t) <==> RoomPossible(s)
  {
    hide RefsOf, Before;
    assert Idle(t) == Idle(s);
    assert forall n :: IsEldest(t, n) <==> IsEldest(s, n);
  }

  // ---- making room ----

  /** Between `s` and `t` nothing changed but idle bundles, their pins and the controller's notes. */
  ghost predicate Retiring(s: State, t: State) {
    && t.credential == s.credential && t.keepsPins == s.keepsPins && t.solo == s.solo && t.work == s.work && t.others == s.others
    && t.inst == s.inst.(rv := t.inst.rv, status := s.inst.status.(pins := Pins(t))) && t.past.mine == s.past.mine
    && forall n :: n !in Idle(s) ==> Lookup(t.secrets, n) == Lookup(s.secrets, n) && Lookup(Pins(t), n) == Lookup(Pins(s), n)
  }

  lemma RetiringTransitive(s: State, t: State, u: State)
    requires Retiring(s, t) && Retiring(t, u)
    ensures Retiring(s, u)
  {
    assert InUse(t) == InUse(s);
    assert Idle(t) <= Idle(s) by {
      forall n | n in Idle(t) ensures n in Idle(s) {
        assert n in Pins(t) && n.Access? && n !in InUse(t);
      }
    }
  }

  lemma NotesRetiring(s: State, t: State)
    requires SameButNotes(s, t)
    ensures Retiring(s, t)
  {}

  /** With the eldest removed, it is missing, hence still the eldest. */
  lemma RemovedStaysEldest(s: State, t: State, n: Name)
    requires IsEldest(s, n) && SecretsFresh(s.secrets, s.next)
    requires t.secrets == s.secrets - {n} && Idle(t) == Idle(s)
    ensures IsEldest(t, n)
  {
    hide InUse;
    forall m | m in Idle(t) && m != n ensures Before(CandidateOf(t, n), CandidateOf(t, m)) {
      assert Before(CandidateOf(s, n), CandidateOf(s, m));
    }
  }

  lemma SameIdle(s: State, t: State)
    requires Pins(t) == Pins(s) && t.work == s.work && t.others == s.others
    ensures InUse(t) == InUse(s) && Idle(t) == Idle(s)
  {
    hide RefsOf;
  }

  lemma EraseRetiring(s: State, n: Name, x: Secret)
    requires n in Idle(s)
    ensures Retiring(s, ServeDeleteSecret(s, n, x).0) && Pins(ServeDeleteSecret(s, n, x).0) == Pins(s)
  {
    hide Idle, ServeDeleteSecret;
    EraseLookup(s, n, x);
    EraseFrame(s, n, x);
  }

  lemma EraseLookup(s: State, n: Name, x: Secret)
    ensures forall m :: m != n ==> Lookup(ServeDeleteSecret(s, n, x).0.secrets, m) == Lookup(s.secrets, m)
  {}

  /** So a retirement cut off after the deletion can be resumed. */
  lemma EraseRoom(s: State, n: Name, x: Secret)
    requires IsEldest(s, n) && SecretsFresh(s.secrets, s.next) && RoomPossible(s)
    ensures RoomPossible(ServeDeleteSecret(s, n, x).0)
  {
    hide Idle, IsEldest, SecretsFresh, Sound, InUse;
    var t := ServeDeleteSecret(s, n, x).0;
    SameIdle(s, t);
    if |Pins(s)| > MAX_BUNDLES && t != s {
      var m :| IsEldest(s, m) && Removable(s, m);
      EldestUnique(s, m, n);
      RemovedStaysEldest(s, t, n);
      StillSound(s, t, n);
    }
  }

  lemma StillSound(s: State, t: State, n: Name)
    requires Sound(s) && t.secrets == s.secrets - {n} && Pins(t) == Pins(s)
    ensures Sound(t)
  {
    forall m | m in Pins(t) && m.Access? ensures SoundAt(t, m) {
      assert SoundAt(s, m);
    }
  }

  /** Dropping the pin of an idle bundle makes room. */
  lemma DropRoom(s: State, n: Name, rv: nat)
    requires n in Idle(s) && |Pins(s)| <= MAX_BUNDLES + 1
    ensures Retiring(s, ServePatchPins(s, rv, Pins(s) - {n}).0)
    ensures RoomPossible(s) ==> RoomPossible(ServePatchPins(s, rv, Pins(s) - {n}).0)
    ensures |Pins(s) - {n}| <= MAX_BUNDLES
  {
    hide RefsOf;
    var t := ServePatchPins(s, rv, Pins(s) - {n}).0;
    SizeWithout(Pins(s), n);
    if t == s || !s.keepsPins {
      assert Pins(t) == Pins(s);
    }
  }

  lemma SizeWithout(pins: Pinned, n: Name)
    requires n in pins
    ensures |pins - {n}| == |pins| - 1
  {
    assert (pins - {n}).Keys == pins.Keys - {n};
    assert |(pins - {n}).Keys| == |pins - {n}| && |pins.Keys| == |pins|;
  }

  lemma WithinBounds(s: State)
    requires Good(s)
    ensures |Pins(s)| <= MAX_BUNDLES + 1 && SecretsFresh(s.secrets, s.next)
  {}

  lemma UnpinAllowed(s: State, rv: nat, n: Name)
    requires n in Pins(s) && n.Access? && n in s.past.gone && n !in OwnRefs(s.work) && ListedIdle(s.pass, n) && MayRead(s)
    ensures Allowed(s, PatchPins(rv, Pins(s) - {n}))
  {
    assert DropsPin(s, n);
  }

  /** The three phases of a retirement under a quiet script, each possibly without effect. */
  lemma PhasesRetire(s: State, chosen: State, erased: State, now: State, n: Name, x: Option<Secret>, rv: nat)
    requires SecretsFresh(s.secrets, s.next) && |Pins(s)| <= MAX_BUNDLES + 1
    requires IsEldest(s, n) && SameButNotes(s, chosen)
    requires SameButNotes(chosen, erased) || (x.Some? && SameButNotes(ServeDeleteSecret(chosen, n, x.value).0, erased))
    requires SameButNotes(erased, now) || SameButNotes(ServePatchPins(erased, rv, Pins(s) - {n}).0, now)
    ensures Retiring(s, now) && (RoomPossible(s) ==> RoomPossible(now))
  {
    hide *;
    EldestIdle(s, n);
    NotesRoom(s, chosen);
    NotesRetiring(s, chosen);
    NotesFresh(s, chosen);
    ghost var after := if x.Some? then ServeDeleteSecret(chosen, n, x.value).0 else chosen;
    if x.Some? {
      EraseRetiring(chosen, n, x.value);
      if RoomPossible(chosen) {
        EraseRoom(chosen, n, x.value);
      }
      EraseIdle(chosen, n, x.value);
    }
    if SameButNotes(chosen, erased) {
      NotesRoom(chosen, erased);
      NotesRetiring(chosen, erased);
    } else {
      NotesRoom(after, erased);
      NotesRetiring(after, erased);
      RetiringTransitive(chosen, after, erased);
    }
    RetiringTransitive(s, chosen, erased);
    DropRoom(erased, n, rv);
    if SameButNotes(erased, now) {
      NotesRoom(erased, now);
      NotesRetiring(erased, now);
    } else {
      ghost var dropped := ServePatchPins(erased, rv, Pins(s) - {n}).0;
      NotesRoom(dropped, now);
      NotesRetiring(dropped, now);
      RetiringTransitive(erased, dropped, now);
    }
    RetiringTransitive(s, erased, now);
  }

  lemma EraseIdle(s: State, n: Name, x: Secret)
    ensures Idle(ServeDeleteSecret(s, n, x).0) == Idle(s) && Pins(ServeDeleteSecret(s, n, x).0) == Pins(s)
  {
    SameIdle(s, ServeDeleteSecret(s, n, x).0);
  }

  lemma NotesFresh(s: State, t: State)
    requires SameButNotes(s, t)
    ensures t.secrets == s.secrets && t.next == s.next && t.inst == s.inst && t.keepsPins == s.keepsPins
  {}

  /** Lines 78-91: erase the chosen bundle unless it is gone already, then drop its pin. */
  method RetireChosen(api: ApiServer, mem: Memory, c: Candidate, room: Name) returns (e: Option<Err>)
    requires api.Inv() && mem.inst.status.pins == Pins(api.st) && Chosen(api.st, c, room)
    modifies api, mem
    ensures api.Inv() && old(api.moves) <= api.moves && Steady(old(api.st), api.st)
    ensures e.None? ==> mem.inst == api.st.inst && mem.inst.status.pins == Pins(api.st) == Pins(old(api.st)) - {c.name}
    ensures Reread(old(api.st), api.st, old(mem.inst), mem.inst)
    ensures Vouched(old(api.st), old(mem.inst)) ==> Vouched(api.st, mem.inst)
    ensures e.Some? ==> mem.inst == old(mem.inst) && e.value != HistoryInvalid && e.value != HistoryFull
    ensures Quiet(old(api.script)) ==> Quiet(api.script)
    ensures Quiet(old(api.script)) && IsEldest(old(api.st), c.name) ==>
      Retiring(old(api.st), api.st) && (RoomPossible(old(api.st)) ==> RoomPossible(api.st))
    ensures old(api.script) == [] ==> api.script == []
    ensures old(api.script) == [] && old(mem.inst) == old(api.st).inst && c == CandidateOf(old(api.st), c.name) ==>
      (e.None? <==> old(api.st).keepsPins && Removable(old(api.st), c.name)) && (e.None? ==> mem.inst == api.st.inst)
  {
    hide *;
    InvGood(api);
    CalmIsQuiet(api.script);
    WithinBounds(api.st);
    NotesReflexive(api.st);
    KeptReflexive(api.st);
    KeptSteady(api.st, api.st);
    ChosenFacts(api.st, c, room);
    if c == CandidateOf(api.st, c.name) {
      CandidateRemovable(api.st, c);
    }
    ghost var rv := mem.inst.rv;
    if c.secret.Some? {
      e := Retire(api, c.name, c.secret.value, room);
      SteadyRefs(old(api.st), api.st);
      VouchedSteady(old(api.st), api.st, mem.inst);
      RereadStays(old(api.st), api.st, api.st, mem.inst, mem.inst, mem.inst);
      if Quiet(old(api.script)) {
        EraseKeeps(old(api.st), c.name, c.secret.value, api.st);
      }
      if e.Some? {
        if Quiet(old(api.script)) && IsEldest(old(api.st), c.name) {
          NotesReflexive(api.st);
          PhasesRetire(old(api.st), old(api.st), api.st, api.st, c.name, c.secret, rv);
        }
        return e;
      }
    }
    ghost var erased := api.st;
    var pins := mem.inst.status.pins - {c.name};
    UnpinAllowed(api.st, mem.inst.rv, c.name);
    SizeWithout(mem.inst.status.pins, c.name);
    RereadStays(old(api.st), erased, erased, mem.inst, mem.inst, mem.inst);
    e := PersistPins(api, mem, pins);
    SteadyTransitive(old(api.st), erased, api.st);
    RereadStays(old(api.st), erased, api.st, old(mem.inst), old(mem.inst), mem.inst);
    if Quiet(old(api.script)) && IsEldest(old(api.st), c.name) {
      PhasesRetire(old(api.st), old(api.st), erased, api.st, c.name, c.secret, rv);
    }
  }

  /** `makeAccessSecretRoom`. */
  method MakeAccessSecretRoom(api: ApiServer, mem: Memory, room: Name) returns (e: Option<Err>)
    requires api.Inv() && mem.inst.status.pins == Pins(api.st) && room !in Pins(api.st) && MayRead(api.st)
    modifies api, mem
    ensures api.Inv() && old(api.moves) <= api.moves && Steady(old(api.st), api.st)
    ensures e.None? ==> mem.inst.status.pins == Pins(api.st) && |Pins(api.st)| <= MAX_BUNDLES && room !in Pins(api.st)
    ensures Reread(old(api.st), api.st, old(mem.inst), mem.inst)
    ensures e.None? && Name.Session in Pins(old(api.st)) ==>
      Name.Session in Pins(api.st) && Pins(api.st)[Name.Session] == Pins(old(api.st))[Name.Session]
    ensures Vouched(old(api.st), old(mem.inst)) ==> Vouched(api.st, mem.inst)
    ensures e.Some? ==> mem.inst == old(mem.inst) && e.value != HistoryInvalid && e.value != HistoryFull
    ensures Quiet(old(api.script)) ==> Quiet(api.script) && Retiring(old(api.st), api.st)
    ensures Quiet(old(api.script)) && RoomPossible(old(api.st)) ==> RoomPossible(api.st)
    ensures Quiet(old(api.script)) && e.None? && |Pins(old(api.st))| > MAX_BUNDLES ==>
      exists n :: IsEldest(old(api.st), n) && Pins(api.st) == Pins(old(api.st)) - {n}
    ensures old(api.script) == [] ==> api.script == []
    ensures old(api.script) == [] && old(mem.inst) == old(api.st).inst ==>
      (e.None? <==> RoomPossible(old(api.st))) && (e.None? ==> mem.inst == api.st.inst)
  {
    hide *;
    CalmIsQuiet(api.script);
    NotesReflexive(api.st);
    NotesRetiring(api.st, api.st);
    KeptReflexive(api.st);
    KeptSteady(api.st, api.st);
    EnoughRoom(api.st);
    RereadStays(api.st, api.st, api.st, mem.inst, mem.inst, mem.inst);
    if |mem.inst.status.pins| <= MAX_BUNDLES {
      return None;
    }
    InvGood(api);
    WithinBounds(api.st);
    var chosen := Choose(api, mem.inst.status.pins, room);
    ghost var picked := api.st;
    KeptSteady(old(api.st), picked);
    VouchedSteady(old(api.st), picked, mem.inst);
    if Quiet(old(api.script)) {
      NotesRoom(old(api.st), picked);
      NotesRetiring(old(api.st), picked);
      NotesFresh(old(api.st), picked);
    }
    RoomMeans(old(api.st), if chosen.Ok? then chosen.value.name else room);
    RereadStays(old(api.st), picked, picked, mem.inst, mem.inst, mem.inst);
    if chosen.Err? {
      return Some(chosen.error);
    }
    ChosenFacts(api.st, chosen.value, room);
    e := RetireChosen(api, mem, chosen.value, room);
    SteadyTransitive(old(api.st), picked, api.st);
    RereadStays(old(api.st), picked, api.st, old(mem.inst), old(mem.inst), mem.inst);
    SizeWithout(old(mem.inst).status.pins, chosen.value.name);
    if Quiet(old(api.script)) {
      RetiringTransitive(old(api.st), picked, api.st);
      NotesRemovable(old(api.st), picked, chosen.value.name);
    }
  }

  lemma NotesRemovable(s: State, t: State, n: Name)
    requires SameButNotes(s, t)
    ensures Removable(t, n) <==> Removable(s, n)
  {}

  lemma RoomMeans(s: State, n: Name)
    requires |Pins(s)| > MAX_BUNDLES
    ensures !Sound(s) || Idle(s) == {} ==> !RoomPossible(s)
    ensures IsEldest(s, n) ==> (RoomPossible(s) <==> s.keepsPins && Sound(s) && Removable(s, n))
  {
    hide Sound, Idle;
    if IsEldest(s, n) {
      forall m | IsEldest(s, m) ensures m == n {
        EldestUnique(s, m, n);
      }
    }
    if Idle(s) == {} {
      forall m ensures !IsEldest(s, m) {}
    }
  }

  lemma CandidateRemovable(s: State, c: Candidate)
    requires c == CandidateOf(s, c.name)
    ensures Lookup(s.secrets, c.name) == c.secret
    ensures Removable(s, c.name) <==> c.secret.None? || !c.secret.value.held
  {}

  lemma EraseKeeps(s: State, n: Name, x: Secret, t: State)
    requires SameButNotes(s, t) || SameButNotes(ServeDeleteSecret(s, n, x).0, t)
    ensures t.inst == s.inst && t.keepsPins == s.keepsPins
  {}

  lemma EnoughRoom(s: State)
    ensures |Pins(s)| <= MAX_BUNDLES ==> RoomPossible(s)
  {}

  lemma ChosenFacts(s: State, c: Candidate, room: Name)
    requires Chosen(s, c, room)
    ensures c.name in Pins(s) && c.name.Access? && c.name !in OwnRefs(s.work) && ListedIdle(s.pass, c.name) && MayRead(s)
    ensures c.secret.None? ==> c.name in s.past.gone
    ensures c.secret.Some? ==> MayErase(s, c.name, c.secret.value, room)
  {}

  // ---- more than one deletion ahead ----

  /** A deleted bundle whose pin is still there and which some workload refers to again. */
  ghost predicate ReferredAgain(s: State, m: Name) { m in Pins(s) && Pins(s)[m] in s.past.erased && m in InUse(s) }

  lemma ErasedIsMissing(s: State, n: Name, m: Name)
    requires Good(s) && Sound(s) && ErasedGone(s.secrets, s.past.erased) && IsEldest(s, n) && n in s.secrets
    requires m in Pins(s) && Pins(s)[m] in s.past.erased
    ensures m.Access? && m !in s.secrets && ReferredAgain(s, m)
  {
    hide Fresh, Genuine, OneTemplate, MountsPinned, Counted, Alone, InUse, PinsBounded;
    assert OursAt(s.past, m, Pins(s)[m]);
    WithinBounds(s);
    assert SoundAt(s, m);
    if m !in s.secrets && m !in InUse(s) {
      MissingGoesFirst(s, n, m);
    }
  }

  lemma TwoErased(pins: Pinned, erased: set<nat>, a: Name, b: Name)
    requires a in pins && b in pins && pins[a] != pins[b] && pins[a] in erased && pins[b] in erased
    ensures |ErasedPins(pins, erased)| > 1
  {
    SubsetSize({pins[a], pins[b]}, ErasedPins(pins, erased));
  }

  /** With immediate deletion, deleting the eldest idle bundle leaves more than one deleted bundle
      pinned exactly when a workload has come to refer to one that was deleted before. */
  lemma SecondDeletion(s: State, n: Name)
    requires Good(s) && Sound(s) && ErasedGone(s.secrets, s.past.erased) && IsEldest(s, n) && n in s.secrets
    ensures var t := ServeDeleteSecret(s, n, s.secrets[n]).0;
      |ErasedPins(Pins(t), t.past.erased)| > 1 <==> exists m :: ReferredAgain(s, m)
  {
    hide Good, InUse, ErasedPins, ErasedGone;
    var t := ServeDeleteSecret(s, n, s.secrets[n]).0;
    EldestIdle(s, n);
    assert SoundAt(s, n);
    EldestAlive(s, n);
    if m :| ReferredAgain(s, m) {
      PinsApart(s, m, n);
      TwoErased(Pins(t), t.past.erased, m, n);
    } else {
      forall m | m in Pins(s) && Pins(s)[m] in s.past.erased ensures false {
        ErasedIsMissing(s, n, m);
      }
      OnlyOne(Pins(s), s.past.erased, Pins(s)[n]);
    }
  }

  lemma EldestAlive(s: State, n: Name)
    requires ErasedGone(s.secrets, s.past.erased) && n in s.secrets
    ensures s.secrets[n].uid !in s.past.erased
  {}

  lemma PinsApart(s: State, m: Name, n: Name)
    requires ReferredAgain(s, m) && n in Idle(s) && Pins(s)[n] !in s.past.erased
    ensures m in Pins(s) && Pins(s)[m] in s.past.erased && Pins(s)[m] != Pins(s)[n]
  {}

  lemma OnlyOne(pins: Pinned, erased: set<nat>, u: nat)
    requires forall m :: m in pins ==> pins[m] !in erased
    ensures |ErasedPins(pins, erased + {u})| <= 1
  {
    SubsetSize(ErasedPins(pins, erased + {u}), {u});
  }
}
