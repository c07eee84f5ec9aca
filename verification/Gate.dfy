/** The access gate in front of the application (internal/accessgate/gate.go): the identity it
    derives, the headers it forwards, and how long a stream may live. */
module Gate {
  import opened Basics
  import Hostnames
  import Guard = SocketGuard

  // ---- identity ----

  datatype Claims = Claims(issuer: string, subject: string, audiences: seq<string>, party: string, expires: int)

  datatype Config = Config(issuer: string, client: string)

  /** A SHA-256 digest in hexadecimal. */
  type Digest = s: string | |s| == 64 && forall i :: 0 <= i < |s| ==> Hostnames.HexDigit(s[i])
    witness seq(64, i => '0')

  predicate ClaimsAccepted(cfg: Config, c: Claims, now: int) {
    && c.issuer == cfg.issuer && c.subject != "" && cfg.client in c.audiences && now < c.expires
    && (|c.audiences| > 1 ==> c.party == cfg.client) && (c.party != "" ==> c.party == cfg.client)
  }

  function EmailOf(digest: string -> Digest, c: Claims): string { digest(c.issuer + "\0" + c.subject) + Guard.DOMAIN }

  /** The claim checks of `oidcIdentity`. */
  method OidcIdentity(cfg: Config, c: Claims, now: int, digest: string -> Digest) returns (r: Option<(string, int)>)
    ensures r.Some? <==> ClaimsAccepted(cfg, c, now)
    ensures r.Some? ==> r.value == (EmailOf(digest, c), c.expires) && now < r.value.1
  {
    var found := false;
    for i := 0 to |c.audiences|
      invariant found <==> cfg.client in c.audiences[..i]
    {
      assert c.audiences[..i + 1] == c.audiences[..i] + [c.audiences[i]];
      if c.audiences[i] == cfg.client {
        found := true;
      }
    }
    assert c.audiences[..|c.audiences|] == c.audiences;
    if c.issuer != cfg.issuer || c.subject == "" || !found || c.expires <= now
       || (|c.audiences| > 1 && c.party != cfg.client) || (c.party != "" && c.party != cfg.client) {
      return None;
    }
    r := Some((EmailOf(digest, c), c.expires));
  }

  /** Two accepted subjects never share an application account, unless their digests collide. */
  lemma AccountsDiffer(cfg: Config, a: Claims, b: Claims, now: int, later: int, digest: string -> Digest)
    requires ClaimsAccepted(cfg, a, now) && ClaimsAccepted(cfg, b, later)
    ensures EmailOf(digest, a) == EmailOf(digest, b) <==> digest(a.issuer + "\0" + a.subject) == digest(b.issuer + "\0" + b.subject)
    ensures a.issuer + "\0" + a.subject == b.issuer + "\0" + b.subject <==> a.subject == b.subject
  {
    Hostnames.AppendInjective(digest(a.issuer + "\0" + a.subject), digest(b.issuer + "\0" + b.subject), Guard.DOMAIN);
    var p := cfg.issuer + "\0";
    assert (p + a.subject)[|p|..] == a.subject && (p + b.subject)[|p|..] == b.subject;
  }

  lemma EmailShape(digest: string -> Digest, c: Claims)
    ensures Guard.Ascii(EmailOf(digest, c)) && Guard.HasSuffix(EmailOf(digest, c), Guard.DOMAIN)
  {
    var d, e := digest(c.issuer + "\0" + c.subject), EmailOf(digest, c);
    assert e[|e| - |Guard.DOMAIN|..] == Guard.DOMAIN;
    assert Guard.Ascii(Guard.DOMAIN);
    forall i | 0 <= i < |e| ensures e[i] < 128 as char {
      if i < |d| {
        assert e[i] == d[i] && Hostnames.HexDigit(d[i]);
      } else {
        assert e[i] == Guard.DOMAIN[i - |d|];
      }
    }
  }

  // ---- headers ----

  type Fields = map<string, seq<string>>

  datatype Cookie = Cookie(name: string, value: string)

  const EMAIL_HEADER := "X-Chatui-Email"
  const ROLE_HEADER := "X-Chatui-Role"
  const PROTO_HEADER := "X-Forwarded-Proto"
  const HOST_HEADER := "X-Forwarded-Host"
  const COOKIE_HEADER := "Cookie"
  const SESSION_COOKIE := "__Host-chatui-session"

  function Upper(c: char): char { if 'a' <= c <= 'z' then c - 'a' + 'A' else c }

  /** Characters of a header name, section 5.6.2 of RFC 9110. */
  predicate TokenChar(c: char) {
    || 'a' <= c <= 'z' || 'A' <= c <= 'Z' || '0' <= c <= '9' || c == '!' || '#' <= c <= '\'' || c == '*' || c == '+'
    || c == '-' || c == '.' || '^' <= c <= '`' || c == '|' || c == '~'
  }

  function CanonAt(s: string, i: nat): char
    requires i < |s|
  {
    if i == 0 || s[i - 1] == '-' then Upper(s[i]) else Hostnames.LowerChar(s[i])
  }

  /** The canonical form of a header name; a name that is not a token is left as it is. */
  function Canon(s: string): (r: string)
    ensures |r| == |s|
  {
    if exists i :: 0 <= i < |s| && !TokenChar(s[i]) then s
    else seq(|s|, i requires 0 <= i < |s| => CanonAt(s, i))
  }

  predicate Canonical(m: Fields) { forall k :: k in m ==> Canon(k) == k }

  predicate StartsWith(s: string, prefix: string) { prefix <= s }

  /** Names that could carry an identity, or pass for one that does. */
  predicate CarriesIdentity(name: string) {
    var n := Hostnames.Lower(name);
    || '_' in n || StartsWith(n, "x-chatui-") || StartsWith(n, "x-forwarded-") || StartsWith(n, "x-auth-")
    || StartsWith(n, "x-remote-") || StartsWith(n, "impersonate-") || n == "forwarded" || n == "x-api-key"
  }

  function IdentityKeys(m: Fields): set<string> { set k | k in m && CarriesIdentity(k) :: Canon(k) }

  function Allowed(cookies: seq<Cookie>): seq<Cookie> {
    if cookies == [] then []
    else (if StartsWith(cookies[0].name, SESSION_COOKIE) then [] else [cookies[0]]) + Allowed(cookies[1..])
  }

  lemma {:induction false} AllowedSnoc(cs: seq<Cookie>, c: Cookie)
    ensures Allowed(cs + [c]) == Allowed(cs) + (if StartsWith(c.name, SESSION_COOKIE) then [] else [c])
  {
    if cs == [] {
      assert cs + [c] == [c];
    } else {
      assert (cs + [c])[1..] == cs[1..] + [c];
      AllowedSnoc(cs[1..], c);
    }
  }

  lemma {:induction false} AllowedMeaning(cs: seq<Cookie>)
    ensures forall c :: c in Allowed(cs) <==> c in cs && !StartsWith(c.name, SESSION_COOKIE)
  {
    if cs != [] {
      AllowedMeaning(cs[1..]);
      assert forall c :: c in cs <==> c == cs[0] || c in cs[1..];
    }
  }

  /** The client's fields without those that carry an identity, then the gate's own. */
  function WithOwn(m: Fields, identity: string, host: string): Fields {
    (m - IdentityKeys(m))[EMAIL_HEADER := [identity]][ROLE_HEADER := ["user"]][PROTO_HEADER := ["https"]][HOST_HEADER := [host]]
  }

  function WithCookies(m: Fields, kept: seq<Cookie>, render: seq<Cookie> -> string): Fields {
    if kept == [] then m - {COOKIE_HEADER} else m[COOKIE_HEADER := [render(kept)]]
  }

  /** What the gate sends on. */
  function Rewritten(m: Fields, identity: string, host: string, kept: seq<Cookie>, render: seq<Cookie> -> string): Fields {
    WithCookies(WithOwn(m, identity, host), kept, render)
  }

  /** A header object that is edited in place. */
  class HeaderMap {
    var m: Fields

    constructor (m: Fields)
      ensures this.m == m
    {
      this.m := m;
    }

    method Del(name: string)
      modifies this
      ensures m == old(m) - {Canon(name)}
    {
      m := m - {Canon(name)};
    }

    method Set(name: string, value: string)
      modifies this
      ensures m == old(m)[Canon(name) := [value]]
    {
      m := m[Canon(name) := [value]];
    }

    /** `stripIdentity`: the names are visited in an arbitrary order while they are deleted. */
    method StripIdentity()
      modifies this
      ensures m == old(m) - IdentityKeys(old(m))
    {
      var todo := m.Keys;
      while todo != {}
        invariant todo <= old(m).Keys
        invariant m == old(m) - (set k | k in old(m) && k !in todo && CarriesIdentity(k) :: Canon(k))
        decreases todo
      {
        var name :| name in todo;
        ghost var gone := set k | k in old(m) && k !in todo && CarriesIdentity(k) :: Canon(k);
        if CarriesIdentity(name) {
          Del(name);
        }
        todo := todo - {name};
        assert (set k | k in old(m) && k !in todo && CarriesIdentity(k) :: Canon(k))
            == gone + (if CarriesIdentity(name) then {Canon(name)} else {});
      }
      assert (set k | k in old(m) && k !in todo && CarriesIdentity(k) :: Canon(k)) == IdentityKeys(old(m));
    }

    /** Lines 111-117: put back the cookies that are not the session's, one by one. */
    method KeepCookies(cookies: seq<Cookie>, render: seq<Cookie> -> string) returns (kept: seq<Cookie>)
      modifies this
      ensures kept == Allowed(cookies) && m == WithCookies(old(m), kept, render)
    {
      hide Canon;
      OwnNames();
      Del(COOKIE_HEADER);
      kept := [];
      for i := 0 to |cookies|
        invariant kept == Allowed(cookies[..i]) && m == WithCookies(old(m), kept, render)
      {
        assert cookies[..i + 1] == cookies[..i] + [cookies[i]];
        AllowedSnoc(cookies[..i], cookies[i]);
        if !StartsWith(cookies[i].name, SESSION_COOKIE) {
          kept := kept + [cookies[i]];
          Set(COOKIE_HEADER, render(kept));
        }
      }
      assert cookies[..|cookies|] == cookies;
    }

    /** The `Rewrite` closure; `parse` and `render` stand for the library's cookie syntax. */
    method Rewrite(identity: string, host: string, parse: seq<string> -> seq<Cookie>, render: seq<Cookie> -> string)
      returns (kept: seq<Cookie>)
      modifies this
      ensures kept == Allowed(parse(CookieLines(WithOwn(old(m), identity, host))))
      ensures m == Rewritten(old(m), identity, host, kept, render)
    {
      hide Canon, IdentityKeys, Allowed, WithCookies;
      OwnNames();
      StripIdentity();
      Set(EMAIL_HEADER, identity);
      Set(ROLE_HEADER, "user");
      Set(PROTO_HEADER, "https");
      Set(HOST_HEADER, host);
      kept := KeepCookies(parse(CookieLines(m)), render);
    }
  }

  function CookieLines(m: Fields): seq<string> { if COOKIE_HEADER in m then m[COOKIE_HEADER] else [] }

  /** Letter `i` has the case that the canonical form gives it. */
  predicate ProperAt(s: string, i: nat)
    requires i < |s|
  {
    s[i] == '-' || (if i == 0 || s[i - 1] == '-' then 'A' <= s[i] <= 'Z' else 'a' <= s[i] <= 'z')
  }

  lemma ProperLetter(s: string, i: nat)
    requires i < |s| && ProperAt(s, i)
    ensures TokenChar(s[i]) && CanonAt(s, i) == s[i]
  {}

  lemma ProperIsCanonical(s: string)
    requires forall i :: 0 <= i < |s| ==> ProperAt(s, i)
    ensures Canon(s) == s
  {
    hide TokenChar, ProperAt, CanonAt;
    forall i | 0 <= i < |s| ensures TokenChar(s[i]) && CanonAt(s, i) == s[i] {
      ProperLetter(s, i);
    }
    assert Canon(s) == s;
  }

  lemma OwnNames()
    ensures Canon(EMAIL_HEADER) == EMAIL_HEADER && Canon(ROLE_HEADER) == ROLE_HEADER && Canon(COOKIE_HEADER) == COOKIE_HEADER
    ensures Canon(PROTO_HEADER) == PROTO_HEADER && Canon(HOST_HEADER) == HOST_HEADER
  {
    hide Canon;
    ProperIsCanonical(EMAIL_HEADER);
    ProperIsCanonical(ROLE_HEADER);
    ProperIsCanonical(COOKIE_HEADER);
    ProperIsCanonical(PROTO_HEADER);
    ProperIsCanonical(HOST_HEADER);
  }

  lemma NamesDiffer()
    ensures EMAIL_HEADER != ROLE_HEADER && COOKIE_HEADER !in {EMAIL_HEADER, ROLE_HEADER, PROTO_HEADER, HOST_HEADER}
    ensures EMAIL_HEADER !in {PROTO_HEADER, HOST_HEADER} && ROLE_HEADER !in {PROTO_HEADER, HOST_HEADER}
  {
    assert |COOKIE_HEADER| == 6 && |ROLE_HEADER| == 13 && |EMAIL_HEADER| == 14 && |HOST_HEADER| == 16 && |PROTO_HEADER| == 17;
  }

  lemma OwnKeys(m: Fields)
    requires Canonical(m)
    ensures forall k :: k in m && CarriesIdentity(k) ==> k in IdentityKeys(m)
    ensures forall k :: k in IdentityKeys(m) ==> CarriesIdentity(k)
  {
    hide Canon, CarriesIdentity;
    forall k | k in m && CarriesIdentity(k) ensures k in IdentityKeys(m) {
      assert Canon(k) == k;
    }
  }

  /** Of any canonical header map, what is forwarded names exactly one identity and one role, the
      gate's; no other field that could carry one is left, no session cookie, and the rest is as sent. */
  lemma ForwardedIdentity(m: Fields, identity: string, host: string, cookies: seq<Cookie>, render: seq<Cookie> -> string)
    requires Canonical(m)
    ensures var r := Rewritten(m, identity, host, Allowed(cookies), render);
      && EMAIL_HEADER in r && r[EMAIL_HEADER] == [identity] && ROLE_HEADER in r && r[ROLE_HEADER] == ["user"]
      && (forall k :: k in r && CarriesIdentity(k) ==> k in {EMAIL_HEADER, ROLE_HEADER, PROTO_HEADER, HOST_HEADER, COOKIE_HEADER})
      && (forall k :: k in m && !CarriesIdentity(k) && k !in {EMAIL_HEADER, ROLE_HEADER, PROTO_HEADER, HOST_HEADER, COOKIE_HEADER} ==>
            k in r && r[k] == m[k])
      && (forall c :: c in Allowed(cookies) ==> !StartsWith(c.name, SESSION_COOKIE))
      && Canonical(r)
  {
    hide Canon, CarriesIdentity, IdentityKeys;
    OwnNames();
    NamesDiffer();
    OwnKeys(m);
    AllowedMeaning(cookies);
  }

  // ---- from the gate to the guard ----

  /** A header list spells out the map: names in any case, one header a value, in any order. */
  ghost predicate SpellsOut(list: seq<Guard.Header>, m: Fields) {
    && (forall k :: k in m ==> multiset(Guard.Values(list, Hostnames.Lower(k))) == multiset(m[k]))
    && (forall h :: h in list ==> exists k :: k in m && Hostnames.Lower(k) == Hostnames.Lower(h.key))
  }

  lemma SingletonValues(s: seq<string>, x: string)
    requires multiset(s) == multiset([x])
    ensures s == [x]
  {
    assert |s| == |multiset(s)| == 1;
    assert s[0] in multiset(s);
  }

  lemma LowerNames()
    ensures Hostnames.Lower(EMAIL_HEADER) == Guard.EMAIL
    ensures Hostnames.Lower(ROLE_HEADER) == Guard.ROLE
  {
    assert Hostnames.Lower(EMAIL_HEADER) == Guard.EMAIL;
    assert Hostnames.Lower(ROLE_HEADER) == Guard.ROLE;
  }

  /** What the gate forwards for accepted claims, the guard reads back as exactly that identity. */
  lemma GuardReadsGateIdentity(m: Fields, host: string, cookies: seq<Cookie>, render: seq<Cookie> -> string,
                               digest: string -> Digest, c: Claims, list: seq<Guard.Header>)
    requires Canonical(m)
    requires SpellsOut(list, Rewritten(m, EmailOf(digest, c), host, Allowed(cookies), render))
    ensures Guard.IdentityOf(list) == Guard.User(EmailOf(digest, c))
  {
    hide Canon, CarriesIdentity, IdentityKeys, Rewritten, EmailOf, Guard.Values, Guard.Ascii, Guard.HasSuffix;
    ForwardedIdentity(m, EmailOf(digest, c), host, cookies, render);
    LowerNames();
    EmailShape(digest, c);
    SingletonValues(Guard.Values(list, Guard.EMAIL), EmailOf(digest, c));
    SingletonValues(Guard.Values(list, Guard.ROLE), "user");
  }

  /** And what the guard then lets through carries no credential of anybody else. */
  lemma GateThenGuard(m: Fields, host: string, cookies: seq<Cookie>, render: seq<Cookie> -> string,
                      digest: string -> Digest, c: Claims, list: seq<Guard.Header>,
                      skip: bool, parse: Guard.Cookies, lookup: Guard.Lookup)
    requires Canonical(m)
    requires SpellsOut(list, Rewritten(m, EmailOf(digest, c), host, Allowed(cookies), render))
    requires Guard.AllFine(list, 0, EmailOf(digest, c), skip, parse, lookup)
    ensures Guard.IdentityOf(list) == Guard.User(EmailOf(digest, c))
    ensures var out := Guard.Passing(list, 0, EmailOf(digest, c), skip, parse, lookup);
      && Guard.Others(out, parse) == Guard.Others(list, parse)
      && (forall h :: h in out && Guard.Carried(h, parse).Some? ==> !skip && Guard.Vetted(h, EmailOf(digest, c), parse, lookup))
  {
    hide *;
    GuardReadsGateIdentity(m, host, cookies, render, digest, c, list);
    Guard.FilterMeaning(list, 0, EmailOf(digest, c), skip, parse, lookup);
  }

  // ---- streams ----

  /** The recheck interval, the timeout of one check, both in seconds. */
  const RECHECK := 30
  const TIMEOUT := 5

  /** One permission check: how long it takes, when within that time the permission is looked at, and
      whether it confirms the identity. */
  datatype Probe = Probe(delay: nat, looked: nat, ok: bool)

  /** The first tick after time `t`; the ticker starts at zero. */
  function NextTick(t: nat, interval: nat): nat
    requires interval > 0
  {
    (t / interval + 1) * interval
  }

  lemma NextTickBounds(t: nat, interval: nat)
    requires interval > 0
    ensures t < NextTick(t, interval) <= t + interval
  {
    assert t == t / interval * interval + t % interval;
  }

  /** The channel holds one tick: the first one that falls into a check waits, later ones are dropped. */
  function NextCheck(start: nat, delay: nat, interval: nat): (n: nat)
    requires interval > 0
    ensures start < n
  {
    NextTickBounds(start, interval);
    if NextTick(start, interval) <= start + delay then start + delay else NextTick(start, interval)
  }

  /** When the `k`-th check starts. */
  function CheckStart(k: nat, interval: nat, probes: nat -> Probe): (n: nat)
    requires interval > 0
    ensures n > k
  {
    if k == 0 then interval else NextCheck(CheckStart(k - 1, interval, probes), probes(k - 1).delay, interval)
  }

  function Min(a: nat, b: nat): nat { if a < b then a else b }

  function Max(a: nat, b: nat): nat { if a < b then b else a }

  /** When the stream is closed, seen from check `k` on. */
  function ClosedAt(k: nat, interval: nat, expiry: nat, probes: nat -> Probe): nat
    requires interval > 0
    decreases expiry - k
  {
    var start := CheckStart(k, interval, probes);
    if expiry <= start then expiry
    else if !probes(k).ok then Min(start + probes(k).delay, expiry)
    else ClosedAt(k + 1, interval, expiry, probes)
  }

  /** The recheck goroutine: it ends with the deadline, or cancels at the first failing check. */
  method Watch(interval: nat, expiry: nat, probes: nat -> Probe) returns (closed: nat)
    requires interval > 0
    ensures closed == ClosedAt(0, interval, expiry, probes)
  {
    var start, k := interval, 0;
    while start < expiry
      invariant start == CheckStart(k, interval, probes)
      invariant ClosedAt(0, interval, expiry, probes) == ClosedAt(k, interval, expiry, probes)
      decreases expiry - k
    {
      if !probes(k).ok {
        return Min(start + probes(k).delay, expiry);
      }
      start := NextCheck(start, probes(k).delay, interval);
      k := k + 1;
    }
    closed := expiry;
  }

  /** Every check takes at most the timeout, and looks at the permission within that time. */
  ghost predicate Timely(probes: nat -> Probe, timeout: nat) {
    forall k :: probes(k).looked <= probes(k).delay <= timeout
  }

  /** From time `r` on, no check that looks finds the permission. */
  ghost predicate RevokedAt(r: nat, interval: nat, probes: nat -> Probe)
    requires interval > 0
  {
    forall k :: r <= CheckStart(k, interval, probes) + probes(k).looked ==> !probes(k).ok
  }

  /** Nothing outlives the token, and a stream that no check objects to lives exactly as long. */
  lemma {:induction false} ClosedByExpiry(k: nat, interval: nat, expiry: nat, probes: nat -> Probe)
    requires interval > 0
    ensures ClosedAt(k, interval, expiry, probes) <= expiry
    ensures (forall i :: probes(i).ok) ==> ClosedAt(k, interval, expiry, probes) == expiry
    decreases expiry - k
  {
    if CheckStart(k, interval, probes) < expiry && probes(k).ok {
      ClosedByExpiry(k + 1, interval, expiry, probes);
    }
  }

  lemma {:induction false} ClosedFrom(k: nat, interval: nat, timeout: nat, expiry: nat, probes: nat -> Probe, r: nat)
    requires interval > 0 && Timely(probes, timeout) && RevokedAt(r, interval, probes)
    requires CheckStart(k, interval, probes) <= r + Max(interval, timeout)
    ensures r + Max(interval, timeout) + timeout <= expiry ==>
      ClosedAt(k, interval, expiry, probes) <= r + Max(interval, timeout) + timeout
    decreases expiry - k
  {
    var start := CheckStart(k, interval, probes);
    assert probes(k).looked <= probes(k).delay <= timeout;
    if start < expiry && probes(k).ok {
      assert start + probes(k).looked < r;
      NextTickBounds(start, interval);
      ClosedFrom(k + 1, interval, timeout, expiry, probes, r);
    }
  }

  /** A stream whose permission is revoked at `r` is closed by then plus the longer of interval and
      timeout, plus the timeout, and never later than the token's expiry. */
  lemma RevokedStreamsClose(interval: nat, timeout: nat, expiry: nat, probes: nat -> Probe, r: nat)
    requires interval > 0 && Timely(probes, timeout) && RevokedAt(r, interval, probes)
    ensures ClosedAt(0, interval, expiry, probes) <= Min(expiry, r + Max(interval, timeout) + timeout)
  {
    ClosedByExpiry(0, interval, expiry, probes);
    ClosedFrom(0, interval, timeout, expiry, probes, r);
  }

  /** With the gate's own numbers: half a minute and one timeout. */
  lemma RevokedWithin35Seconds(expiry: nat, probes: nat -> Probe, r: nat)
    requires Timely(probes, TIMEOUT) && RevokedAt(r, RECHECK, probes)
    ensures ClosedAt(0, RECHECK, expiry, probes) <= Min(expiry, r + 35)
  {
    RevokedStreamsClose(RECHECK, TIMEOUT, expiry, probes, r);
  }
}
