/** `find_zabbix_host_id` (src/zabbix/host.rs): one `host.get` call filtered
    on a single technical host name, then the first host found, if any. */
module Hosts {
  import opened Wrappers
  import opened Requests
  import opened ZabbixApi

  /** The filter of the lookup: exactly the one name given. */
  function HostRequest(hostname: string): (filter: HostFilter)
    ensures filter.host == [hostname]
  {
    HostFilter([hostname])
  }

  function FindZabbixHostId(s: Server, hostname: string): (r: Result<Option<string>, Error>)
    ensures r.Failure? <==> s.Refuses(HostGet(HostRequest(hostname)))
    ensures r.Failure? ==> r.error == ApiError(HostGet(HostRequest(hostname)))
    ensures r.Success? ==> r.value == (if hostname in s.hostIds then Some(s.hostIds[hostname]) else None)
  {
    match s.GetHosts(HostRequest(hostname))
    case Failure(e) => Failure(e)
    case Success(hosts) =>
      if |hosts| > 0 then Success(Some(hosts[0].hostId)) else Success(None)
  }

  /** `find_zabbix_host_id` through the client: the one `host.get` call,
      then the id of the first host found. */
  method FindHostId(client: ZabbixClient, hostname: string) returns (r: Result<Option<string>, Error>)
    ensures r == FindZabbixHostId(client.State(), hostname)
  {
    var found := client.GetHosts(HostRequest(hostname));
    if found.Failure? {
      return Failure(found.error);
    }
    if |found.value| > 0 {
      r := Success(Some(found.value[0].hostId));
    } else {
      r := Success(None);
    }
  }

  /** The answer depends only on the hosts and the refused request: creating
      items, scenarios or triggers does not change it. */
  lemma FindZabbixHostIdStable(s: Server, t: Server, hostname: string)
    requires s.hostIds == t.hostIds && s.failure == t.failure
    ensures FindZabbixHostId(s, hostname) == FindZabbixHostId(t, hostname)
  {
  }
}
