/** Start-up: the plaintext listener, and the TLS listener that is started
    only when both the private key and the certificate were loaded. */
module Listeners {
  import opened Wrappers

  /** The TLS options, filled in field by field as the PEM files are found. */
  class SslOptions {
    var key: Option<string>
    var cert: Option<string>

    constructor ()
      ensures key == None && cert == None
    {
      key := None;
      cert := None;
    }
  }

  /** Where the TLS listener sends the decrypted traffic. */
  datatype Upstream = Upstream(host: string, port: int)

  /** A TLS-terminating listener in front of the plaintext one. */
  datatype TlsListener = TlsListener(port: int, key: string, cert: string, upstream: Upstream, xfwd: bool)

  /** The listeners the process binds. */
  datatype Servers = Servers(plainPort: int, tls: Option<TlsListener>)

  /** Bring up the listeners.  `keyFile` and `certFile` are the contents of
      the PEM files, `None` when a file does not exist; `port` and `sslPort`
      are the ports taken from the command line. */
  method StartServers(port: int, sslPort: int, keyFile: Option<string>, certFile: Option<string>)
    returns (servers: Servers)
    ensures servers.plainPort == port
    ensures servers.tls.Some? <==> Truthy(keyFile) && Truthy(certFile)
    ensures servers.tls.Some? ==>
              && servers.tls.value.port == sslPort
              && servers.tls.value.key == keyFile.value
              && servers.tls.value.cert == certFile.value
              && servers.tls.value.upstream == Upstream("localhost", port)
              && servers.tls.value.xfwd
  {
    var sslOptions := new SslOptions();
    if keyFile.Some? {
      sslOptions.key := keyFile;
    }
    if certFile.Some? {
      sslOptions.cert := certFile;
    }
    servers := Servers(port, None);
    if sslOptions.key.Some? && sslOptions.key.value != "" && sslOptions.cert.Some? && sslOptions.cert.value != "" {
      var tls := TlsListener(sslPort, sslOptions.key.value, sslOptions.cert.value, Upstream("localhost", port), true);
      servers := servers.(tls := Some(tls));
    }
  }
}
