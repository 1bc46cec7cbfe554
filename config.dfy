/** The configuration entities of the proxy: backends, frontends and the
    top-level configuration, as they stand after the YAML file has been
    deserialised. */
module Config {

  datatype Option<+T> = None | Some(value: T)

  /** Connect timeout, in milliseconds, that a backend gets when it names none. */
  const DefaultConnectTimeout: int := 10000

  /** One upstream target: a network address and a connect timeout in
      milliseconds (zero means "not given"). A value: it is copied, never shared. */
  datatype Backend = Backend(addr: string, connectTimeout: int)

  /** The TLS server configuration built from one certificate/key pair. The
      certificate parsing itself happens outside the model; the value records
      which pair of files it was loaded from. */
  datatype TlsConfig = TlsConfig(certFile: string, keyFile: string)

  /** A frontend, reached through a pointer: the map of the configuration
      holds references, and validation assigns `tlsConfig` in place. */
  class Frontend {
    var backends: seq<Backend>
    var strategy: string
    var tlsCrt: string
    var tlsKey: string
    var tlsConfig: Option<TlsConfig>

    /** A frontend as deserialisation leaves it: no TLS configuration yet. */
    constructor (backends: seq<Backend>, strategy: string, tlsCrt: string, tlsKey: string)
      ensures this.backends == backends && this.strategy == strategy
      ensures this.tlsCrt == tlsCrt && this.tlsKey == tlsKey
      ensures tlsConfig == None
    {
      this.backends := backends;
      this.strategy := strategy;
      this.tlsCrt := tlsCrt;
      this.tlsKey := tlsKey;
      tlsConfig := None;
    }
  }

  /** The bind address and the frontends keyed by hostname. */
  datatype Configuration = Configuration(bindAddr: string, frontends: map<string, Frontend>)

  /** The backend with its connect timeout defaulted: a zero timeout becomes
      the default, every other field and every non-zero timeout is kept. */
  function WithDefaultTimeout(b: Backend): (r: Backend)
    ensures r.addr == b.addr
    ensures r.connectTimeout != 0
    ensures b.connectTimeout != 0 ==> r == b
    ensures b.connectTimeout == 0 ==> r.connectTimeout == DefaultConnectTimeout
  {
    if b.connectTimeout == 0 then b.(connectTimeout := DefaultConnectTimeout) else b
  }
}
