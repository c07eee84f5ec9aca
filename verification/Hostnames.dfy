/** Hostname selection from operator configuration (internal/hostnamepolicy/policy.go)
    and claims of other routes on a host (internal/controller/hostname_policy.go). */
module Hostnames {
  import opened Basics

  // ---- DNS names ----

  predicate AlphaNumeric(c: char) { 'a' <= c <= 'z' || '0' <= c <= '9' }

  /** One label of a DNS name, section 2.1 of RFC 1123, in lower case. */
  predicate LabelShape(s: string) {
    && |s| > 0 && AlphaNumeric(s[0]) && AlphaNumeric(s[|s| - 1])
    && forall i :: 0 <= i < |s| ==> AlphaNumeric(s[i]) || s[i] == '-'
  }

  /** With the length limit of section 2.3.4 of RFC 1035. */
  predicate IsLabel(s: string) { |s| <= 63 && LabelShape(s) }

  function Split(s: string): (labels: seq<string>)
    ensures |labels| > 0
  {
    if s == "" then [""]
    else
      var rest := Split(s[1..]);
      if s[0] == '.' then [""] + rest else [[s[0]] + rest[0]] + rest[1..]
  }

  predicate IsSubdomain(s: string) {
    |s| <= 253 && forall l :: l in Split(s) ==> LabelShape(l)
  }

  predicate IsSpace(c: char) {
    || '\U{9}' <= c <= '\U{d}' || c == ' ' || c == '\U{85}' || c == '\U{a0}' || c == '\U{1680}' || '\U{2000}' <= c <= '\U{200a}'
    || c == '\U{2028}' || c == '\U{2029}' || c == '\U{202f}' || c == '\U{205f}' || c == '\U{3000}'
  }

  function TrimSpace(s: string): string {
    if s == "" then ""
    else if IsSpace(s[0]) then TrimSpace(s[1..])
    else if IsSpace(s[|s| - 1]) then TrimSpace(s[..|s| - 1])
    else s
  }

  predicate ValidHost(host: string, slug: string) {
    IsLabel(slug) && IsSubdomain(host) && forall l :: l in Split(host) ==> IsLabel(l)
  }

  function Host(base: string, slug: string): Option<string> {
    var host := slug + "." + TrimSpace(base);
    if ValidHost(host, slug) then Some(host) else None
  }

  // ---- policy ----

  datatype Mode = Legacy | Derive | Unknown(text: string)

  datatype Entry = Entry(uid: string, namespace: string, name: string, mode: Mode, slug: string)

  datatype Policy = Policy(cutover: int, entries: map<string, Entry>)

  datatype Source = FromLegacy | Derived | NoSource

  datatype Selection = Selection(slug: string, source: Source)

  datatype Failure = Unmapped | Identity

  /** `created` is absent for a zero timestamp. */
  datatype Object = Object(uid: string, namespace: string, name: string, created: Option<int>)

  predicate HexDigit(c: char) { 'a' <= c <= 'f' || '0' <= c <= '9' }

  /** The first 16 bytes of a SHA-256 digest, in hexadecimal. */
  type Digest = s: string | |s| == 32 && forall i :: 0 <= i < |s| ==> HexDigit(s[i])
    witness seq(32, i => '0')

  /** The format that `derive` owns. */
  predicate Reserved(s: string) {
    |s| == 35 && s[..3] == "ui-" && forall i :: 3 <= i < |s| ==> HexDigit(s[i])
  }

  predicate ValidEntry(e: Entry) {
    && e.uid != "" && TrimSpace(e.uid) == e.uid && IsLabel(e.namespace) && IsSubdomain(e.name)
    && match e.mode
       case Legacy => IsLabel(e.slug) && !Reserved(e.slug)
       case Derive => e.slug == ""
       case Unknown(_) => false
  }

  /** No two entries describe one object or claim one legacy slug. */
  predicate Unambiguous(entries: seq<Entry>) {
    forall i, j :: 0 <= i < j < |entries| ==> !Clash(entries[i], entries[j])
  }

  predicate Clash(a: Entry, b: Entry) {
    || a.uid == b.uid
    || (a.namespace, a.name) == (b.namespace, b.name)
    || (a.mode.Legacy? && b.mode.Legacy? && a.slug == b.slug)
  }

  /** A policy that `Parse` can return. */
  ghost predicate WellFormed(p: Policy) {
    && (forall u :: u in p.entries ==> p.entries[u].uid == u && ValidEntry(p.entries[u]))
    && (forall u, v :: u in p.entries && v in p.entries && u != v ==> !Clash(p.entries[u], p.entries[v]))
  }

  function IdentityKey(e: Entry): string { e.namespace + "/" + e.name }

  /** The joined key cannot confuse two objects, because a namespace has no slash. */
  lemma IdentityKeyInjective(a: Entry, b: Entry)
    requires IsLabel(a.namespace) && IsLabel(b.namespace)
    ensures IdentityKey(a) == IdentityKey(b) <==> (a.namespace, a.name) == (b.namespace, b.name)
  {
    if IdentityKey(a) == IdentityKey(b) {
      var k := IdentityKey(a);
      assert k[|a.namespace|] == '/' && k[|b.namespace|] == '/';
      assert forall i :: 0 <= i < |a.namespace| ==> k[i] == a.namespace[i] != '/';
      assert forall i :: 0 <= i < |b.namespace| ==> k[i] == b.namespace[i] != '/';
      assert |a.namespace| == |b.namespace|;
      assert a.namespace == k[..|a.namespace|] && b.namespace == k[..|b.namespace|];
      assert a.name == k[|a.namespace| + 1..] && b.name == k[|b.namespace| + 1..];
    }
  }

  /** What the three maps of `Parse` hold after the entries `seen`. */
  ghost predicate Indexed(seen: seq<Entry>, byUid: map<string, Entry>, slugs: set<string>, identities: set<string>) {
    && Unambiguous(seen)
    && (forall e :: e in seen ==> ValidEntry(e) && e.uid in byUid && byUid[e.uid] == e)
    && (forall u :: u in byUid ==> byUid[u] in seen && byUid[u].uid == u)
    && identities == (set e | e in seen :: IdentityKey(e))
    && slugs == (set e | e in seen && e.mode.Legacy? :: e.slug)
  }

  lemma UnambiguousSnoc(seen: seq<Entry>, item: Entry)
    ensures Unambiguous(seen + [item]) <==> Unambiguous(seen) && forall e :: e in seen ==> !Clash(e, item)
  {
    var all := seen + [item];
    if Unambiguous(all) {
      forall i, j | 0 <= i < j < |seen| ensures !Clash(seen[i], seen[j]) { assert !Clash(all[i], all[j]); }
      forall e | e in seen ensures !Clash(e, item) {
        var i :| 0 <= i < |seen| && seen[i] == e;
        assert !Clash(all[i], all[|seen|]);
      }
    }
  }

  lemma AmbiguousPrefix(entries: seq<Entry>, n: nat)
    requires n <= |entries| && !Unambiguous(entries[..n])
    ensures !Unambiguous(entries)
  {
    var i, j :| 0 <= i < j < n && Clash(entries[..n][i], entries[..n][j]);
    assert Clash(entries[i], entries[j]);
  }

  /** The duplicate tests admit the next entry exactly when it clashes with none before. */
  lemma AdmitsExactly(seen: seq<Entry>, item: Entry, byUid: map<string, Entry>, slugs: set<string>, identities: set<string>)
    requires Indexed(seen, byUid, slugs, identities) && ValidEntry(item)
    ensures Unambiguous(seen + [item])
       <==> !(item.uid in byUid || IdentityKey(item) in identities || (item.mode.Legacy? && item.slug in slugs))
    ensures Unambiguous(seen + [item]) ==>
      Indexed(seen + [item], byUid[item.uid := item],
        if item.mode.Legacy? then slugs + {item.slug} else slugs, identities + {IdentityKey(item)})
  {
    UnambiguousSnoc(seen, item);
    forall e | e in seen
      ensures IdentityKey(e) == IdentityKey(item) <==> (e.namespace, e.name) == (item.namespace, item.name)
    {
      IdentityKeyInjective(e, item);
    }
  }

  lemma IndexedWellFormed(entries: seq<Entry>, byUid: map<string, Entry>, slugs: set<string>, identities: set<string>, cutover: int)
    requires Indexed(entries, byUid, slugs, identities)
    ensures WellFormed(Policy(cutover, byUid))
  {
    forall u, v | u in byUid && v in byUid && u != v ensures !Clash(byUid[u], byUid[v]) {
      var i :| 0 <= i < |entries| && entries[i] == byUid[u];
      var j :| 0 <= j < |entries| && entries[j] == byUid[v];
      assert if i < j then !Clash(entries[i], entries[j]) else !Clash(entries[j], entries[i]);
    }
  }

  lemma NothingIndexed()
    ensures Indexed([], map[], {}, {})
  {}

  /** The decoded document's loop of `Parse`; an unreadable timestamp is `None`. */
  method Parse(cutover: Option<int>, entries: seq<Entry>) returns (r: Option<Policy>)
    ensures r.Some? <==> cutover.Some? && (forall e :: e in entries ==> ValidEntry(e)) && Unambiguous(entries)
    ensures r.Some? ==> WellFormed(r.value) && r.value.cutover == cutover.value
    ensures r.Some? ==> forall e :: e in entries ==> e.uid in r.value.entries && r.value.entries[e.uid] == e
    ensures r.Some? ==> forall u :: u in r.value.entries ==> r.value.entries[u] in entries
  {
    hide ValidEntry, Clash, IdentityKey, WellFormed, Unambiguous;
    NothingIndexed();
    if cutover.None? {
      return None;
    }
    var byUid: map<string, Entry> := map[];
    var slugs: set<string> := {};
    var identities: set<string> := {};
    for i := 0 to |entries|
      invariant Indexed(entries[..i], byUid, slugs, identities)
    {
      var item := entries[i];
      if !ValidEntry(item) {
        return None;
      }
      AdmitsExactly(entries[..i], item, byUid, slugs, identities);
      assert entries[..i + 1] == entries[..i] + [item];
      if !Unambiguous(entries[..i + 1]) {
        AmbiguousPrefix(entries, i + 1);
      }
      if item.uid in byUid || IdentityKey(item) in identities {
        return None;
      }
      if item.mode.Legacy? && item.slug in slugs {
        return None;
      }
      byUid := byUid[item.uid := item];
      identities := identities + {IdentityKey(item)};
      if item.mode.Legacy? {
        slugs := slugs + {item.slug};
      }
    }
    assert entries[..|entries|] == entries;
    r := Some(Policy(cutover.value, byUid));
    IndexedWellFormed(entries, byUid, slugs, identities, cutover.value);
  }

  /** `Select`; `digest` stands for the truncated SHA-256 of the prefixed UID. */
  function Select(p: Policy, digest: string -> Digest, o: Object): Result<Selection, Failure> {
    if o.uid == "" || o.created.None? then Err(Identity)
    else if o.uid in p.entries then
      var e := p.entries[o.uid];
      if e.namespace != o.namespace || e.name != o.name then Err(Identity)
      else if e.mode.Legacy? then Ok(Selection(e.slug, FromLegacy))
      else Ok(Selection("ui-" + digest(o.uid), Derived))
    else if o.created.value <= p.cutover then Err(Unmapped)
    else Ok(Selection("ui-" + digest(o.uid), Derived))
  }

  predicate Validated(p: Policy, base: string) {
    && Host(base, PROBE).Some?
    && forall u :: u in p.entries && p.entries[u].mode.Legacy? ==> Host(base, p.entries[u].slug).Some?
  }

  const PROBE := "ui-aaaaaaaaaaaaaaaaaaaaaaaaaaaaaaaa"

  /** `ValidatePublicHost`: the map is visited in an arbitrary order. */
  method ValidatePublicHost(p: Policy, base: string) returns (ok: bool)
    ensures ok <==> Validated(p, base)
  {
    if Host(base, PROBE).None? {
      return false;
    }
    var todo := p.entries.Keys;
    while todo != {}
      invariant todo <= p.entries.Keys
      invariant forall u :: u in p.entries && u !in todo && p.entries[u].mode.Legacy? ==> Host(base, p.entries[u].slug).Some?
      decreases todo
    {
      var u :| u in todo;
      if p.entries[u].mode.Legacy? && Host(base, p.entries[u].slug).None? {
        return false;
      }
      todo := todo - {u};
    }
    return true;
  }

  // ---- injectivity ----

  lemma DerivedReserved(d: Digest)
    ensures Reserved("ui-" + d)
  {
    var s := "ui-" + d;
    assert forall i :: 3 <= i < |s| ==> s[i] == d[i - 3];
  }

  /** Two objects get one slug only if both names are derived and their digests collide. */
  lemma SlugsCollideOnlyByDigest(p: Policy, digest: string -> Digest, a: Object, b: Object)
    requires WellFormed(p) && a.uid != b.uid
    requires Select(p, digest, a).Ok? && Select(p, digest, b).Ok?
    ensures var x, y := Select(p, digest, a).value, Select(p, digest, b).value;
      (x.slug == y.slug) <==> (x.source == Derived && y.source == Derived && digest(a.uid) == digest(b.uid))
  {
    var x, y := Select(p, digest, a).value, Select(p, digest, b).value;
    DerivedReserved(digest(a.uid));
    DerivedReserved(digest(b.uid));
    if x.source == Derived && y.source == Derived {
      assert x.slug[3..] == digest(a.uid) && y.slug[3..] == digest(b.uid);
    }
  }

  /** Hence different hosts on one base, when the digest separates the two UIDs. */
  lemma HostsDiffer(p: Policy, digest: string -> Digest, a: Object, b: Object, base: string)
    requires WellFormed(p) && a.uid != b.uid && digest(a.uid) != digest(b.uid)
    requires Select(p, digest, a).Ok? && Select(p, digest, b).Ok?
    requires Host(base, Select(p, digest, a).value.slug).Some? && Host(base, Select(p, digest, b).value.slug).Some?
    ensures Host(base, Select(p, digest, a).value.slug) != Host(base, Select(p, digest, b).value.slug)
  {
    SlugsCollideOnlyByDigest(p, digest, a, b);
    AppendInjective(Select(p, digest, a).value.slug, Select(p, digest, b).value.slug, "." + TrimSpace(base));
    assert forall l: string :: l + "." + TrimSpace(base) == l + ("." + TrimSpace(base));
  }

  lemma AppendInjective(s: string, t: string, tail: string)
    ensures s + tail == t + tail ==> s == t
  {
    if s + tail == t + tail {
      assert s == (s + tail)[..|s|] && t == (t + tail)[..|t|];
    }
  }

  // ---- startup validation ----

  lemma {:induction false} SplitFirst(slug: string, rest: string)
    requires forall i :: 0 <= i < |slug| ==> slug[i] != '.'
    ensures Split(slug + "." + rest) == [slug] + Split(rest)
  {
    var s := slug + "." + rest;
    if slug == "" {
      assert s[1..] == rest;
    } else {
      SplitFirst(slug[1..], rest);
      assert s[1..] == slug[1..] + "." + rest;
      assert [slug[0]] + slug[1..] == slug;
    }
  }

  /** A host is accepted because of its label, the labels of the base, and its length. */
  lemma HostMeaning(base: string, slug: string)
    ensures Host(base, slug).Some? <==>
      && IsLabel(slug) && |slug| + 1 + |TrimSpace(base)| <= 253
      && forall l :: l in Split(TrimSpace(base)) ==> IsLabel(l)
  {
    if IsLabel(slug) {
      SplitFirst(slug, TrimSpace(base));
      assert forall l :: l in Split(TrimSpace(base)) ==> l in [slug] + Split(TrimSpace(base));
    }
  }

  lemma DerivedIsLabel(d: Digest)
    ensures IsLabel("ui-" + d) && |"ui-" + d| == 35
  {
    var s := "ui-" + d;
    assert forall i :: 0 <= i < |s| ==> s[i] == if i == 0 then 'u' else if i == 1 then 'i' else if i == 2 then '-' else d[i - 3];
  }

  /** The startup check is exact: it passes iff every slug a later selection can return
      gives a valid host. */
  lemma StartupValidationExact(p: Policy, base: string)
    ensures Validated(p, base) <==>
      && (forall d: Digest :: Host(base, "ui-" + d).Some?)
      && (forall u :: u in p.entries && p.entries[u].mode.Legacy? ==> Host(base, p.entries[u].slug).Some?)
  {
    hide Host, TrimSpace, Split, IsLabel;
    var probe: Digest := "aaaaaaaaaaaaaaaaaaaaaaaaaaaaaaaa";
    assert PROBE == "ui-" + probe;
    HostMeaning(base, PROBE);
    DerivedIsLabel(probe);
    forall d: Digest ensures Host(base, "ui-" + d).Some? <==> Host(base, PROBE).Some? {
      HostMeaning(base, "ui-" + d);
      DerivedIsLabel(d);
    }
  }

  lemma StartupValidationCoversEveryRun(p: Policy, digest: string -> Digest, base: string, o: Object)
    requires Validated(p, base)
    requires Select(p, digest, o).Ok?
    ensures Host(base, Select(p, digest, o).value.slug).Some?
  {
    StartupValidationExact(p, base);
    if Select(p, digest, o).value.source == Derived {
      var d := digest(o.uid);
      assert Host(base, "ui-" + d).Some?;
    }
  }

  // ---- claims of other routes ----

  function LowerChar(c: char): char { if 'A' <= c <= 'Z' then c - 'A' + 'a' else c }

  function Lower(s: string): (r: string)
    ensures |r| == |s|
  {
    seq(|s|, i requires 0 <= i < |s| => LowerChar(s[i]))
  }

  /** `fold` stands for the folding of letter case, character by character. */
  function Fold(fold: char -> char, s: string): (r: string)
    ensures |r| == |s|
  {
    seq(|s|, i requires 0 <= i < |s| => fold(s[i]))
  }

  function Dots(s: string): nat {
    if s == "" then 0 else (if s[0] == '.' then 1 else 0) + Dots(s[1..])
  }

  predicate HasSuffix(s: string, suffix: string) {
    |suffix| <= |s| && s[|s| - |suffix|..] == suffix
  }

  /** `claimsHost`, of texts that are folded already. */
  predicate Claims(r: string, h: string) {
    || r == h
    || (|r| >= 2 && r[..2] == "*." && HasSuffix(h, "." + r[2..]) && Dots(h) == Dots(r[2..]) + 1)
  }

  predicate ClaimsBy(fold: char -> char, rule: string, host: string) { Claims(Fold(fold, rule), Fold(fold, host)) }

  /** Hosts of Ingress rules are ASCII, as the API server demands. */
  predicate ClaimsHost(rule: string, host: string) { ClaimsBy(LowerChar, rule, host) }

  predicate DotFree(s: string) { '.' !in s }

  /** What a rule means label by label. */
  ghost predicate Covers(fold: char -> char, rule: string, host: string) {
    Fold(fold, rule) == Fold(fold, host) || WildcardCovers(Fold(fold, rule), Fold(fold, host))
  }

  ghost predicate WildcardCovers(r: string, h: string) {
    |r| >= 2 && r[..2] == "*." && exists l: string :: DotFree(l) && h == l + "." + r[2..]
  }

  lemma {:induction false} DotsAppend(a: string, b: string)
    ensures Dots(a + b) == Dots(a) + Dots(b)
  {
    if a == "" {
      assert a + b == b;
    } else {
      assert (a + b)[1..] == a[1..] + b;
      DotsAppend(a[1..], b);
    }
  }

  lemma {:induction false} NoDots(a: string)
    ensures Dots(a) == 0 <==> '.' !in a
  {
    if a != "" {
      NoDots(a[1..]);
      assert a == [a[0]] + a[1..];
    }
  }

  lemma SuffixDots(first: string, suffix: string)
    ensures Dots(first + "." + suffix) == Dots(suffix) + 1 <==> DotFree(first)
  {
    DotsAppend(first, "." + suffix);
    assert first + "." + suffix == first + ("." + suffix);
    assert ("." + suffix)[1..] == suffix;
    NoDots(first);
  }

  lemma SuffixSplits(h: string, first: string, suffix: string)
    ensures h == first + "." + suffix ==> HasSuffix(h, "." + suffix) && first == h[..|h| - |suffix| - 1]
    ensures HasSuffix(h, "." + suffix) ==> h == h[..|h| - |suffix| - 1] + "." + suffix
  {
    if h == first + "." + suffix {
      assert h == first + ("." + suffix);
      assert h[|first|..] == "." + suffix;
      assert h[..|first|] == first;
    }
    if HasSuffix(h, "." + suffix) {
      var f := h[..|h| - |suffix| - 1];
      assert h == f + h[|f|..];
      assert f + ("." + suffix) == f + "." + suffix;
    }
  }

  lemma WildcardClaims(r: string, h: string)
    requires |r| >= 2 && r[..2] == "*."
    ensures HasSuffix(h, "." + r[2..]) && Dots(h) == Dots(r[2..]) + 1 <==> WildcardCovers(r, h)
  {
    hide HasSuffix, Dots, DotFree;
    var suffix := r[2..];
    SuffixSplits(h, "", suffix);
    if HasSuffix(h, "." + suffix) {
      SuffixMeans(h, "." + suffix);
      SuffixDots(h[..|h| - |suffix| - 1], suffix);
    }
    if WildcardCovers(r, h) {
      var l: string :| DotFree(l) && h == l + "." + suffix;
      SuffixSplits(h, l, suffix);
      SuffixDots(l, suffix);
    }
  }

  lemma SuffixMeans(s: string, suffix: string)
    requires HasSuffix(s, suffix)
    ensures |suffix| <= |s|
  {}

  /** The suffix test with its dot count is exactly the label-wise meaning, however letter case is folded. */
  lemma ClaimsHostMeaning(fold: char -> char, rule: string, host: string)
    ensures ClaimsBy(fold, rule, host) <==> Covers(fold, rule, host)
  {
    hide HasSuffix, Dots, WildcardCovers, Fold;
    var r, h := Fold(fold, rule), Fold(fold, host);
    if |r| >= 2 && r[..2] == "*." {
      WildcardClaims(r, h);
    } else {
      NoWildcard(r, h);
    }
  }

  lemma NoWildcard(r: string, h: string)
    requires !(|r| >= 2 && r[..2] == "*.")
    ensures !WildcardCovers(r, h)
  {}

  lemma {:induction false} TrimKeepsFirst(s: string)
    requires s != "" && !IsSpace(s[0])
    ensures TrimSpace(s) != ""
    decreases |s|
  {
    if IsSpace(s[|s| - 1]) {
      TrimKeepsFirst(s[..|s| - 1]);
    }
  }

  /** A valid host is not blank. */
  lemma HostsAreNotBlank(base: string, slug: string)
    requires Host(base, slug).Some?
    ensures TrimSpace(Host(base, slug).value) != ""
  {
    assert Host(base, slug).value[0] == slug[0];
    TrimKeepsFirst(Host(base, slug).value);
  }

  /** The folding leaves the characters of valid hosts as they are. */
  ghost predicate KeepsHosts(fold: char -> char) {
    forall c: char :: AlphaNumeric(c) || c == '-' || c == '.' ==> fold(c) == c
  }

  lemma LowerKeepsHosts()
    ensures KeepsHosts(LowerChar)
  {}

  /** Two different managed hosts on one base never claim each other. */
  lemma ManagedHostsDisjoint(fold: char -> char, base: string, s: string, t: string)
    requires KeepsHosts(fold) && s != t && Host(base, s).Some? && Host(base, t).Some?
    ensures !ClaimsBy(fold, Host(base, s).value, Host(base, t).value)
  {
    hide Split, TrimSpace, IsSubdomain, KeepsHosts, Dots, HasSuffix;
    var g, h := Host(base, s).value, Host(base, t).value;
    AppendInjective(s, t, "." + TrimSpace(base));
    assert g == s + ("." + TrimSpace(base)) && h == t + ("." + TrimSpace(base));
    ManagedHostKept(fold, base, s);
    ManagedHostKept(fold, base, t);
    assert g[0] == s[0] && AlphaNumeric(g[0]);
  }

  /** In particular they do not when only ASCII letters are folded. */
  lemma ManagedHostsStayApart(base: string, s: string, t: string)
    requires s != t && Host(base, s).Some? && Host(base, t).Some?
    ensures !ClaimsHost(Host(base, s).value, Host(base, t).value)
  {
    hide Host, ClaimsBy, KeepsHosts;
    LowerKeepsHosts();
    ManagedHostsDisjoint(LowerChar, base, s, t);
  }

  lemma ManagedHostKept(fold: char -> char, base: string, s: string)
    requires KeepsHosts(fold) && Host(base, s).Some?
    ensures Fold(fold, Host(base, s).value) == Host(base, s).value
  {
    SplitChars(fold, Host(base, s).value);
  }

  lemma {:induction false} SplitChars(fold: char -> char, h: string)
    requires KeepsHosts(fold)
    requires forall l :: l in Split(h) ==> forall i :: 0 <= i < |l| ==> AlphaNumeric(l[i]) || l[i] == '-'
    ensures Fold(fold, h) == h
  {
    if h != "" {
      var rest := Split(h[1..]);
      if h[0] == '.' {
        assert Split(h) == [""] + rest;
        assert forall l :: l in rest ==> l in Split(h);
      } else {
        var first := [h[0]] + rest[0];
        assert Split(h) == [first] + rest[1..];
        assert first in Split(h) && first[0] == h[0];
        forall l | l in rest ensures forall i :: 0 <= i < |l| ==> AlphaNumeric(l[i]) || l[i] == '-' {
          if l == rest[0] {
            assert forall i :: 0 <= i < |l| ==> l[i] == first[i + 1];
          } else {
            assert l in Split(h);
          }
        }
      }
      SplitChars(fold, h[1..]);
      assert fold(h[0]) == h[0];
      assert h == [h[0]] + h[1..];
      assert forall i :: 0 < i < |h| ==> Fold(fold, h)[i] == Fold(fold, h[1..])[i - 1] == h[1..][i - 1];
    }
  }
}
