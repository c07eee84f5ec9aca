/** The managed Ingress of an instance: how it is built and how one pass repairs it
    (internal/controller/chatuiinstance_controller.go). */
module Ingresses {
  import opened Basics

  const ENTRY_POINTS := "traefik.ingress.kubernetes.io/router.entrypoints"
  const ROUTER_TLS := "traefik.ingress.kubernetes.io/router.tls"
  const DNS_NAMES := "dns.gardener.cloud/dnsnames"
  const CLASS_NAME := "traefik"
  const SERVICE_PORT: nat := 8080

  datatype Path = Path(path: string, pathType: string, service: string, port: nat)

  datatype Rule = Rule(host: string, paths: seq<Path>)

  datatype Tls = Tls(hosts: seq<string>, secret: string)

  datatype Body = Body(annotations: map<string, string>, class_: Option<string>, rules: seq<Rule>,
                       defaultBackend: Option<string>, tls: seq<Tls>)

  /** Operator configuration; `tlsSecret` is already trimmed. */
  datatype Config = Config(https: bool, extra: map<string, string>, tlsSecret: string)

  function EntryPoints(https: bool): string { if https then "websecure,web" else "web" }

  function ManagedRule(host: string, path: string, service: string): Rule {
    Rule(host, [Path(path, "Prefix", service, SERVICE_PORT)])
  }

  function RouterAnnotations(a: map<string, string>, https: bool): map<string, string> {
    var entry := a[ENTRY_POINTS := EntryPoints(https)];
    if https then entry[ROUTER_TLS := "true"] else entry - {ROUTER_TLS}
  }

  function DnsAnnotation(a: map<string, string>, host: string): map<string, string> {
    if host == "" then a else a[DNS_NAMES := host]
  }

  predicate TlsServes(tls: seq<Tls>, host: string, secret: string) {
    |tls| > 0 && tls[0].secret == secret && |tls[0].hosts| > 0 && tls[0].hosts[0] == host
  }

  function ManagedTls(tls: seq<Tls>, cfg: Config, host: string): seq<Tls> {
    if !cfg.https || cfg.tlsSecret == "" || TlsServes(tls, host, cfg.tlsSecret) then tls
    else [Tls([host], cfg.tlsSecret)]
  }

  /** The object one update pass leaves behind. */
  function Updated(b: Body, cfg: Config, host: string, path: string, service: string): Body {
    Body(DnsAnnotation(RouterAnnotations(b.annotations, cfg.https) + cfg.extra, host),
         Some(CLASS_NAME), [ManagedRule(host, path, service)], None, ManagedTls(b.tls, cfg, host))
  }

  /** `buildDesiredIngress`. */
  function Built(cfg: Config, host: string, path: string, service: string): Body {
    Body(DnsAnnotation(map[ENTRY_POINTS := EntryPoints(cfg.https)] + cfg.extra, host),
         Some(CLASS_NAME), [ManagedRule(host, path, service)], None,
         if cfg.https && cfg.tlsSecret != "" then [Tls([host], cfg.tlsSecret)] else [])
  }

  /** An Ingress that was read from the API server and is edited in memory. */
  class Object {
    var annotations: map<string, string>
    var class_: Option<string>
    var rules: seq<Rule>
    var defaultBackend: Option<string>
    var tls: seq<Tls>

    function Contents(): Body reads this { Body(annotations, class_, rules, defaultBackend, tls) }

    constructor (b: Body)
      ensures Contents() == b
    {
      annotations, class_, rules, defaultBackend, tls := b.annotations, b.class_, b.rules, b.defaultBackend, b.tls;
    }

    method EnsureAnnotations(https: bool) returns (updated: bool)
      modifies this`annotations
      ensures annotations == RouterAnnotations(old(annotations), https)
      ensures updated <==> annotations != old(annotations)
    {
      updated := false;
      if !(ENTRY_POINTS in annotations && annotations[ENTRY_POINTS] == EntryPoints(https)) {
        annotations := annotations[ENTRY_POINTS := EntryPoints(https)];
        updated := true;
      }
      assert annotations == old(annotations)[ENTRY_POINTS := EntryPoints(https)];
      if https {
        if !(ROUTER_TLS in annotations && annotations[ROUTER_TLS] == "true") {
          annotations := annotations[ROUTER_TLS := "true"];
          updated := true;
        }
      } else if ROUTER_TLS in annotations {
        annotations := annotations - {ROUTER_TLS};
        updated := true;
      }
    }

    /** The extra annotations are visited in an arbitrary order. */
    method ApplyExtra(extra: map<string, string>, override: bool) returns (updated: bool)
      modifies this`annotations
      ensures annotations == old(annotations) + extra
      ensures override ==> (updated <==> extra != map[])
      ensures !override ==> (updated <==> annotations != old(annotations))
    {
      updated := false;
      var todo := extra.Keys;
      while todo != {}
        invariant todo <= extra.Keys
        invariant annotations == old(annotations) + (map k | k in extra && k !in todo :: extra[k])
        invariant override ==> (updated <==> todo != extra.Keys)
        invariant !override ==> (updated <==> annotations != old(annotations))
        decreases todo
      {
        var k :| k in todo;
        if k !in annotations || override || annotations[k] != extra[k] {
          assert k in extra && k !in (map j | j in extra && j !in todo :: extra[j]);
          annotations := annotations[k := extra[k]];
          updated := true;
        }
        todo := todo - {k};
      }
      assert (map k | k in extra && k !in todo :: extra[k]) == extra;
    }

    method EnsureDns(host: string) returns (updated: bool)
      modifies this`annotations
      ensures annotations == DnsAnnotation(old(annotations), host)
      ensures updated <==> annotations != old(annotations)
    {
      if host == "" {
        return false;
      }
      if DNS_NAMES in annotations && annotations[DNS_NAMES] == host {
        assert annotations == annotations[DNS_NAMES := host];
        return false;
      }
      annotations := annotations[DNS_NAMES := host];
      return true;
    }

    /** Lines 606-632: every helper edits the object; the flag says whether to write. */
    method UpdatePass(cfg: Config, host: string, path: string, service: string) returns (updated: bool)
      modifies this
      ensures Contents() == Updated(old(Contents()), cfg, host, path, service)
      ensures !updated ==> Contents() == old(Contents())
      ensures cfg.extra != map[] ==> updated
    {
      updated := EnsureAnnotations(cfg.https);
      var more := ApplyExtra(cfg.extra, true);
      updated := updated || more;
      var dns := EnsureDns(host);
      updated := updated || dns;
      if class_ != Some(CLASS_NAME) {
        class_ := Some(CLASS_NAME);
        updated := true;
      }
      if rules != [ManagedRule(host, path, service)] || defaultBackend.Some? {
        rules, defaultBackend := [ManagedRule(host, path, service)], None;
        updated := true;
      }
      if cfg.https && cfg.tlsSecret != "" && !TlsServes(tls, host, cfg.tlsSecret) {
        tls := [Tls([host], cfg.tlsSecret)];
        updated := true;
      }
    }
  }

  // ---- convergence ----

  /** From any contents, one pass leaves one host, path and backend, keeps every
      annotation it does not manage, and a second pass finds the same object. */
  lemma IngressConverges(b: Body, cfg: Config, host: string, path: string, service: string)
    ensures var u := Updated(b, cfg, host, path, service);
      && (forall r, p :: r in u.rules && p in r.paths ==> r.host == host && p == Path(path, "Prefix", service, SERVICE_PORT))
      && |u.rules| == 1 && |u.rules[0].paths| == 1 && u.defaultBackend.None?
      && (forall k :: k in b.annotations && k !in {ENTRY_POINTS, ROUTER_TLS, DNS_NAMES} + cfg.extra.Keys ==>
            k in u.annotations && u.annotations[k] == b.annotations[k])
      && (forall k :: k in u.annotations ==> k in {ENTRY_POINTS, ROUTER_TLS, DNS_NAMES} + cfg.extra.Keys + b.annotations.Keys)
      && (cfg.https && cfg.tlsSecret != "" ==> TlsServes(u.tls, host, cfg.tlsSecret))
      && Updated(u, cfg, host, path, service) == u
  {
    var u := Updated(b, cfg, host, path, service);
    var w := Updated(u, cfg, host, path, service);
    forall k
      ensures k in w.annotations <==> k in u.annotations
      ensures k in u.annotations ==> w.annotations[k] == u.annotations[k]
    {
    }
    assert w.annotations == u.annotations;
  }

  /** A freshly built Ingress is already converged except for the TLS router annotation,
      which creation leaves out and the first update adds. */
  lemma BuiltConverges(cfg: Config, host: string, path: string, service: string)
    ensures var b := Built(cfg, host, path, service);
      (Updated(b, cfg, host, path, service) == b) <==> (!cfg.https || ROUTER_TLS in cfg.extra)
    ensures Updated(Built(cfg, host, path, service), cfg, host, path, service)
         == if !cfg.https || ROUTER_TLS in cfg.extra then Built(cfg, host, path, service)
            else var b := Built(cfg, host, path, service); b.(annotations := b.annotations[ROUTER_TLS := "true"])
  {
    var b := Built(cfg, host, path, service);
    var u := Updated(b, cfg, host, path, service);
    KeysDiffer();
    assert u.annotations == if !cfg.https || ROUTER_TLS in cfg.extra then b.annotations else b.annotations[ROUTER_TLS := "true"];
    assert u.tls == b.tls;
    if cfg.https && ROUTER_TLS !in cfg.extra {
      assert ROUTER_TLS in u.annotations && ROUTER_TLS !in b.annotations;
    }
  }

  lemma KeysDiffer()
    ensures ENTRY_POINTS != ROUTER_TLS && ROUTER_TLS != DNS_NAMES && ENTRY_POINTS != DNS_NAMES
  {
    assert |DNS_NAMES| < |ROUTER_TLS| < |ENTRY_POINTS|;
  }
}
