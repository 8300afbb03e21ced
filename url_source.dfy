/** The unit of work both providers produce (src/source/mod.rs). */
module UrlSources {
  /** A url to watch and the Zabbix host it belongs to. */
  datatype UrlSource = UrlSource(zabbixHost: string, url: string)
}
