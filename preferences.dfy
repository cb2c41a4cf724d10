/** The preferences the coordinator reads. The store always has a value for
    each key; a change notification carries the key only. */
module Preferences {
  datatype AutoSync = Never | Wifi | Always

  datatype ProxyType = Direct | Http | Socks

  /** The keys the coordinator reacts to; every other key of the store is `Other`. */
  datatype Key = AutoSyncKey | UpdateUnstableKey | ProxyTypeKey | ProxyHostKey | ProxyPortKey | Other(name: string)

  /** The values the store holds at one moment. */
  datatype Store = Store(
    autoSync: AutoSync,
    updateUnstable: bool,
    proxyType: ProxyType,
    proxyHost: string,
    proxyPort: int)

  predicate IsProxyKey(key: Key) {
    key == ProxyTypeKey || key == ProxyHostKey || key == ProxyPortKey
  }
}
