/** Validation and normalisation of a deserialised configuration: the checks
    `readConfig` applies before the server starts, and the TLS configuration
    it attaches to the frontends that ask for termination. */
module Validation {
  import opened Config
  import opened RoundRobin

  /** Why a single frontend is refused, in the order the checks are made. */
  datatype FrontendFault = NoBackends | MissingBackendAddr | TlsLoadFailed

  /** Why a configuration is refused. */
  datatype ConfigError =
    | MissingBindAddr
    | NoFrontends
    | BadFrontend(name: string, fault: FrontendFault)

  /** A frontend asks for TLS termination when either path is given. */
  predicate WantsTls(tlsCrt: string, tlsKey: string) {
    tlsCrt != "" || tlsKey != ""
  }

  /** Loading the certificate/key pair. Certificate parsing is outside the model:
      `canLoad` says whether the pair at those paths loads, and a failure
      yields no configuration at all. */
  function LoadTlsConfig(tlsCrt: string, tlsKey: string, canLoad: (string, string) -> bool): (r: Option<TlsConfig>)
    ensures r.Some? <==> canLoad(tlsCrt, tlsKey)
    ensures r.Some? ==> r.value.certFile == tlsCrt && r.value.keyFile == tlsKey
  {
    if canLoad(tlsCrt, tlsKey) then Some(TlsConfig(tlsCrt, tlsKey)) else None
  }

  /** The first check that a frontend with these fields fails, if any:
      no backends, then a backend without an address, then a TLS pair that
      does not load. */
  function FrontendFaultOf(backends: seq<Backend>, tlsCrt: string, tlsKey: string,
                           canLoad: (string, string) -> bool): (r: Option<FrontendFault>)
    ensures r == None <==>
              && 1 <= |backends|
              && (forall i :: 0 <= i < |backends| ==> backends[i].addr != "")
              && (WantsTls(tlsCrt, tlsKey) ==> canLoad(tlsCrt, tlsKey))
    ensures r == Some(NoBackends) <==> |backends| == 0
    ensures r == Some(MissingBackendAddr) <==>
              1 <= |backends| && exists i :: 0 <= i < |backends| && backends[i].addr == ""
    ensures r == Some(TlsLoadFailed) <==>
              && 1 <= |backends|
              && (forall i :: 0 <= i < |backends| ==> backends[i].addr != "")
              && WantsTls(tlsCrt, tlsKey) && !canLoad(tlsCrt, tlsKey)
  {
    if |backends| == 0 then Some(NoBackends)
    else if exists i :: 0 <= i < |backends| && backends[i].addr == "" then Some(MissingBackendAddr)
    else if WantsTls(tlsCrt, tlsKey) && !canLoad(tlsCrt, tlsKey) then Some(TlsLoadFailed)
    else None
  }

  /** The fault of a frontend object, read from its deserialised fields. */
  function FaultOf(f: Frontend, canLoad: (string, string) -> bool): (r: Option<FrontendFault>)
    reads f`backends, f`tlsCrt, f`tlsKey
  {
    FrontendFaultOf(f.backends, f.tlsCrt, f.tlsKey, canLoad)
  }

  /** The configuration is accepted: a bind address, at least one frontend,
      and no frontend at fault. */
  predicate Acceptable(c: Configuration, canLoad: (string, string) -> bool)
    reads c.frontends.Values`backends, c.frontends.Values`tlsCrt, c.frontends.Values`tlsKey
  {
    && c.bindAddr != ""
    && |c.frontends| > 0
    && forall name :: name in c.frontends ==> FaultOf(c.frontends[name], canLoad) == None
  }

  /** The TLS configuration a frontend holds once it has been validated:
      the loaded pair when it names one, what it held before otherwise. */
  function ValidatedTls(f: Frontend, before: Option<TlsConfig>, canLoad: (string, string) -> bool): (r: Option<TlsConfig>)
    reads f`tlsCrt, f`tlsKey
    ensures FaultOf(f, canLoad) == None && WantsTls(f.tlsCrt, f.tlsKey) ==> r == Some(TlsConfig(f.tlsCrt, f.tlsKey))
    ensures !WantsTls(f.tlsCrt, f.tlsKey) ==> r == before
  {
    if WantsTls(f.tlsCrt, f.tlsKey) then LoadTlsConfig(f.tlsCrt, f.tlsKey, canLoad) else before
  }

  /** Checks the backends of one frontend. Each backend's timeout is defaulted
      on a local copy only, so the stored backends keep their timeouts. */
  method CheckBackends(backends: seq<Backend>) returns (ok: bool)
    ensures ok <==> forall i :: 0 <= i < |backends| ==> backends[i].addr != ""
  {
    var i := 0;
    while i < |backends|
      invariant 0 <= i <= |backends|
      invariant forall j :: 0 <= j < i ==> backends[j].addr != ""
    {
      var back := backends[i];
      back := WithDefaultTimeout(back);
      if back.addr == "" {
        return false;
      }
      i := i + 1;
    }
    return true;
  }

  /** Checks one frontend and, when it asks for termination, attaches the
      loaded TLS configuration to it (none at all when loading fails). */
  method ValidateFrontend(front: Frontend, canLoad: (string, string) -> bool)
    returns (fault: Option<FrontendFault>)
    modifies front`tlsConfig
    ensures fault == FaultOf(front, canLoad)
    ensures fault == None ==> front.tlsConfig == ValidatedTls(front, old(front.tlsConfig), canLoad)
    ensures fault == Some(NoBackends) || fault == Some(MissingBackendAddr) ==> front.tlsConfig == old(front.tlsConfig)
    ensures fault == Some(TlsLoadFailed) ==> front.tlsConfig == None
    ensures front.tlsConfig == old(front.tlsConfig) ||
            (WantsTls(front.tlsCrt, front.tlsKey) && front.tlsConfig == LoadTlsConfig(front.tlsCrt, front.tlsKey, canLoad))
  {
    if |front.backends| == 0 {
      return Some(NoBackends);
    }
    var ok := CheckBackends(front.backends);
    if !ok {
      return Some(MissingBackendAddr);
    }
    if front.tlsCrt != "" || front.tlsKey != "" {
      front.tlsConfig := LoadTlsConfig(front.tlsCrt, front.tlsKey, canLoad);
      if front.tlsConfig == None {
        return Some(TlsLoadFailed);
      }
    }
    return None;
  }

  /** Validates `c` and attaches TLS configurations to the frontends that ask
      for termination; frontends are examined in an unspecified order and the
      first fault found is reported. */
  method ValidateConfiguration(c: Configuration, canLoad: (string, string) -> bool)
    returns (err: Option<ConfigError>)
    modifies c.frontends.Values`tlsConfig
    ensures err == None <==> Acceptable(c, canLoad)
    ensures c.bindAddr == "" ==> err == Some(MissingBindAddr)
    ensures c.bindAddr != "" && |c.frontends| == 0 ==> err == Some(NoFrontends)
    ensures err.Some? && c.bindAddr != "" && |c.frontends| > 0 ==> err.value.BadFrontend?
    ensures err.Some? && err.value.BadFrontend? ==>
              err.value.name in c.frontends && FaultOf(c.frontends[err.value.name], canLoad) == Some(err.value.fault)
    ensures err.Some? && err.value.BadFrontend? && err.value.fault != TlsLoadFailed ==>
              c.frontends[err.value.name].tlsConfig == old(c.frontends[err.value.name].tlsConfig)
    ensures err.Some? && err.value.BadFrontend? && err.value.fault == TlsLoadFailed ==>
              c.frontends[err.value.name].tlsConfig == None
    ensures c.bindAddr == "" ==> forall f :: f in c.frontends.Values ==> f.tlsConfig == old(f.tlsConfig)
    ensures err == None ==>
              forall name :: name in c.frontends ==>
                c.frontends[name].tlsConfig == ValidatedTls(c.frontends[name], old(c.frontends[name].tlsConfig), canLoad)
    ensures forall f :: f in c.frontends.Values ==>
              f.tlsConfig == old(f.tlsConfig) ||
              (WantsTls(f.tlsCrt, f.tlsKey) && f.tlsConfig == LoadTlsConfig(f.tlsCrt, f.tlsKey, canLoad))
    ensures forall f :: f in c.frontends.Values ==> f.backends == old(f.backends)
  {
    if c.bindAddr == "" {
      return Some(MissingBindAddr);
    }
    if |c.frontends| == 0 {
      return Some(NoFrontends);
    }
    var remaining := c.frontends.Keys;
    while remaining != {}
      invariant remaining <= c.frontends.Keys
      invariant forall name :: name in c.frontends && name !in remaining ==>
                  && FaultOf(c.frontends[name], canLoad) == None
                  && c.frontends[name].tlsConfig == ValidatedTls(c.frontends[name], old(c.frontends[name].tlsConfig), canLoad)
      invariant forall f :: f in c.frontends.Values ==>
                  f.tlsConfig == old(f.tlsConfig) ||
                  (WantsTls(f.tlsCrt, f.tlsKey) && f.tlsConfig == LoadTlsConfig(f.tlsCrt, f.tlsKey, canLoad))
      invariant forall f :: f in c.frontends.Values && FaultOf(f, canLoad) != None ==> f.tlsConfig == old(f.tlsConfig)
      decreases remaining
    {
      var name :| name in remaining;
      var fault := ValidateFrontend(c.frontends[name], canLoad);
      if fault.Some? {
        return Some(BadFrontend(name, fault.value));
      }
      remaining := remaining - {name};
    }
    return None;
  }

  /** What an accepted configuration guarantees each frontend, and conversely
      what makes it refused. */
  lemma AcceptableMeans(c: Configuration, canLoad: (string, string) -> bool)
    ensures Acceptable(c, canLoad) <==>
              && c.bindAddr != ""
              && |c.frontends| > 0
              && forall name :: name in c.frontends ==>
                   && 1 <= |c.frontends[name].backends|
                   && (forall i :: 0 <= i < |c.frontends[name].backends| ==> c.frontends[name].backends[i].addr != "")
                   && (WantsTls(c.frontends[name].tlsCrt, c.frontends[name].tlsKey) ==>
                         canLoad(c.frontends[name].tlsCrt, c.frontends[name].tlsKey))
  {
  }

  /** The strategy a frontend of an accepted configuration runs with: it
      starts over the frontend's backends and meets the precondition of
      `NextBackend`. */
  method StrategyFor(c: Configuration, canLoad: (string, string) -> bool, name: string)
    returns (s: RoundRobinStrategy)
    requires Acceptable(c, canLoad) && name in c.frontends
    ensures fresh(s) && s.Valid()
    ensures s.backends == c.frontends[name].backends && s.idx == 0
  {
    s := new RoundRobinStrategy(c.frontends[name].backends);
  }

  /** A configuration deserialised from one frontend `host` with a single
      backend that names no connect timeout: it is accepted exactly when it has
      a bind address, the backend an address, and a requested pair loads; the
      stored backend keeps its zero timeout; and an accepted frontend holds the
      loaded pair when it names one and no TLS configuration otherwise. */
  method OneFrontendScenario(bindAddr: string, host: string, addr: string, tlsCrt: string, tlsKey: string,
                             canLoad: (string, string) -> bool)
    returns (err: Option<ConfigError>, storedTimeout: int, tls: Option<TlsConfig>)
    ensures err == None <==> bindAddr != "" && addr != "" && (WantsTls(tlsCrt, tlsKey) ==> canLoad(tlsCrt, tlsKey))
    ensures bindAddr != "" && addr == "" ==> err == Some(BadFrontend(host, MissingBackendAddr))
    ensures bindAddr != "" && addr != "" && WantsTls(tlsCrt, tlsKey) && !canLoad(tlsCrt, tlsKey) ==>
              err == Some(BadFrontend(host, TlsLoadFailed))
    ensures storedTimeout == 0
    ensures err == None && WantsTls(tlsCrt, tlsKey) ==> tls == Some(TlsConfig(tlsCrt, tlsKey))
    ensures !WantsTls(tlsCrt, tlsKey) || err != None ==> tls == None
  {
    var front := new Frontend([Backend(addr, 0)], "roundrobin", tlsCrt, tlsKey);
    var c := Configuration(bindAddr, map[host := front]);
    assert front in c.frontends.Values by { assert c.frontends[host] == front; }
    err := ValidateConfiguration(c, canLoad);
    storedTimeout := front.backends[0].connectTimeout;
    tls := front.tlsConfig;
  }
}
