/** The proxy derivation of MainApplication.updateProxy. */
module Proxies {
  import opened Wrappers
  import opened Preferences

  /** The largest port InetSocketAddress accepts. */
  const MAX_PORT: int := 65535

  /** An address whose host name is kept as given, never resolved here. */
  datatype SocketAddress = Unresolved(hostName: string, port: int)

  /** A proxy as the network layer receives it; its type is never Direct. */
  datatype ProxySetting = ProxySetting(kind: ProxyType, address: SocketAddress)

  /** InetSocketAddress.createUnresolved: throws for a port outside 0..65535 and
      accepts any non-null host name, the empty one included. */
  function CreateUnresolved(host: string, port: int): (r: Option<SocketAddress>)
    ensures r.Some? <==> 0 <= port <= MAX_PORT
    ensures r.Some? ==> r.value.hostName == host && r.value.port == port
  {
    if 0 <= port <= MAX_PORT then Some(Unresolved(host, port)) else None
  }

  /** The proxy for a type, host and port: none for Direct, an unresolved
      address for Http and Socks, and none when building the address fails. */
  function DeriveProxy(kind: ProxyType, host: string, port: int): (r: Option<ProxySetting>)
    ensures kind == Direct ==> r == None
    ensures kind != Direct ==> (r.Some? <==> 0 <= port <= MAX_PORT)
    ensures r.Some? ==> r.value == ProxySetting(kind, Unresolved(host, port))
  {
    match kind
    case Direct => None
    case Http | Socks =>
      var address := CreateUnresolved(host, port);
      if address.Some? then Some(ProxySetting(kind, address.value)) else None
  }

  /** The proxy for the values currently in the store. */
  function ProxyFor(store: Store): Option<ProxySetting> {
    DeriveProxy(store.proxyType, store.proxyHost, store.proxyPort)
  }

  /** Direct yields no proxy whatever the host and port. */
  lemma DirectIgnoresHostAndPort(store: Store, host: string, port: int)
    requires store.proxyType == Direct
    ensures ProxyFor(store) == None
    ensures ProxyFor(store.(proxyHost := host, proxyPort := port)) == None
  {
  }

  /** A malformed address under Http or Socks fails open: no proxy. */
  lemma MalformedAddressMeansNoProxy(store: Store)
    requires store.proxyType != Direct && !(0 <= store.proxyPort <= MAX_PORT)
    ensures ProxyFor(store) == None
  {
  }
}
