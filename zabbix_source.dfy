/** The Zabbix provider (src/source/zabbix.rs): log in, fetch the items whose
    key matches the search mask, fetch the hosts of those items, and turn
    every item whose whole key reads `<mask>[<url>]` into a url source for
    its host. The three remote calls are parameters. */
module ZabbixSource {
  import opened Wrappers
  import opened Strings
  import opened UrlSources
  import opened Requests

  /** An item as `item.get` returns it. */
  datatype ZabbixItem = ZabbixItem(name: string, key: string, hostId: string)

  const AuthErrorMessage: string := "zabbix auth error"
  const ItemsErrorMessage: string := "unable to find zabbix items"
  const HostsErrorMessage: string := "unable to find hosts"

  /** The pattern `^<mask>\[(.*)\]$` applied to a whole key, with the mask
      read literally: the capture runs from the `[` right after the mask to
      the key's last character, which must be `]`. `.` does not match a line
      feed and `$` is the end of the text. */
  function MatchKey(mask: string, key: string): Option<string>
  {
    if |key| >= |mask| + 2 && StartsWith(key, mask) && key[|mask|] == '[' && key[|key| - 1] == ']'
       && '\n' !in key[|mask| + 1..|key| - 1]
    then Some(key[|mask| + 1..|key| - 1])
    else None
  }

  /** A matching key is the mask, `[`, the captured url and `]`. */
  lemma MatchKeyShape(mask: string, key: string)
    requires MatchKey(mask, key).Some?
    ensures key == mask + "[" + MatchKey(mask, key).value + "]"
  {
    var url := MatchKey(mask, key).value;
    assert key == key[..|mask|] + [key[|mask|]] + key[|mask| + 1..|key| - 1] + [key[|key| - 1]];
  }

  /** Wrapping a url in the mask and brackets and matching gives it back,
      whatever `[` or `]` it holds; only a line feed defeats the match. */
  lemma MatchKeyRoundTrip(mask: string, url: string)
    ensures MatchKey(mask, mask + "[" + url + "]") == (if '\n' in url then None else Some(url))
  {
    var key := mask + "[" + url + "]";
    assert key[..|mask|] == mask;
    assert key[|mask|] == '[';
    assert key[|mask| + 1..|key| - 1] == url;
  }

  /** A key not starting with the mask never matches. */
  lemma MatchKeyNeedsMask(mask: string, key: string)
    requires !StartsWith(key, mask)
    ensures MatchKey(mask, key) == None
  {
  }

  /** The host ids of the items, in item order. */
  function HostIds(items: seq<ZabbixItem>): (ids: seq<string>)
    ensures |ids| == |items| && forall i :: 0 <= i < |items| ==> ids[i] == items[i].hostId
  {
    if items == [] then [] else [items[0].hostId] + HostIds(items[1..])
  }

  /** `hosts.iter().find(|host| host.host_id == id)`: the first host carrying the id. */
  function FindHost(hosts: seq<ZabbixHost>, id: string): (r: Option<ZabbixHost>)
    ensures r.None? <==> forall h :: h in hosts ==> h.hostId != id
    ensures forall i :: (0 <= i < |hosts| && hosts[i].hostId == id
                         && forall j :: 0 <= j < i ==> hosts[j].hostId != id) ==> r == Some(hosts[i])
  {
    if hosts == [] then None
    else if hosts[0].hostId == id then Some(hosts[0])
    else
      var r := FindHost(hosts[1..], id);
      assert forall i :: 1 <= i < |hosts| ==> hosts[i] == hosts[1..][i - 1];
      r
  }

  /** What one item contributes: a source when its key matches and its host is known. */
  function ItemSource(mask: string, hosts: seq<ZabbixHost>, item: ZabbixItem): seq<UrlSource>
  {
    match MatchKey(mask, item.key)
    case None => []
    case Some(url) =>
      match FindHost(hosts, item.hostId)
      case None => []
      case Some(host) => [UrlSource(host.host, url)]
  }

  /** The sources of `items`, in item order. */
  function ItemSources(mask: string, hosts: seq<ZabbixHost>, items: seq<ZabbixItem>): seq<UrlSource>
  {
    if items == [] then []
    else ItemSources(mask, hosts, items[..|items| - 1]) + ItemSource(mask, hosts, items[|items| - 1])
  }

  /** `ZabbixUrlSourceProvider::get_url_sources`. */
  method GetUrlSources(mask: string, user: string, password: string,
                       getAuthSession: (string, string) -> Result<string, Error>,
                       getItems: (string, string) -> Result<seq<ZabbixItem>, Error>,
                       getHosts: (string, seq<string>) -> Result<seq<ZabbixHost>, Error>)
    returns (r: Result<seq<UrlSource>, Error>)
    ensures getAuthSession(user, password).Failure? ==>
              r == Failure(Context(AuthErrorMessage, getAuthSession(user, password).error))
    ensures getAuthSession(user, password).Success? ==>
              var session := getAuthSession(user, password).value;
              (getItems(session, mask).Failure? ==>
                 r == Failure(Context(ItemsErrorMessage, getItems(session, mask).error)))
              && (getItems(session, mask).Success? ==>
                 var items := getItems(session, mask).value;
                 (getHosts(session, HostIds(items)).Failure? ==>
                    r == Failure(Context(HostsErrorMessage, getHosts(session, HostIds(items)).error)))
                 && (getHosts(session, HostIds(items)).Success? ==>
                    r == Success(ItemSources(mask, getHosts(session, HostIds(items)).value, items))))
  {
    var authToken := getAuthSession(user, password);
    if authToken.Failure? {
      return Failure(Context(AuthErrorMessage, authToken.error));
    }
    var session := authToken.value;
    var itemsFound := getItems(session, mask);
    if itemsFound.Failure? {
      return Failure(Context(ItemsErrorMessage, itemsFound.error));
    }
    var items := itemsFound.value;
    var hostsFound := getHosts(session, HostIds(items));
    if hostsFound.Failure? {
      return Failure(Context(HostsErrorMessage, hostsFound.error));
    }
    var hosts := hostsFound.value;
    var results: seq<UrlSource> := [];
    for i := 0 to |items|
      invariant results == ItemSources(mask, hosts, items[..i])
    {
      var item := items[i];
      var url := MatchKey(mask, item.key);
      if url.Some? {
        var host := FindHost(hosts, item.hostId);
        if host.Some? {
          results := results + [UrlSource(host.value.host, url.value)];
        }
      }
      assert items[..i + 1][..i] == items[..i];
    }
    assert items[..|items|] == items;
    r := Success(results);
  }

  /** At most one source per item. */
  lemma {:induction false} ItemSourcesBound(mask: string, hosts: seq<ZabbixHost>, items: seq<ZabbixItem>)
    ensures |ItemSources(mask, hosts, items)| <= |items|
    decreases |items|
  {
    if items != [] {
      ItemSourcesBound(mask, hosts, items[..|items| - 1]);
    }
  }

  /** Items are handled one by one and their sources concatenated in order. */
  lemma {:induction false} ItemSourcesAppend(mask: string, hosts: seq<ZabbixHost>, a: seq<ZabbixItem>, b: seq<ZabbixItem>)
    ensures ItemSources(mask, hosts, a + b) == ItemSources(mask, hosts, a) + ItemSources(mask, hosts, b)
    decreases |b|
  {
    if b == [] {
      assert a + b == a;
    } else {
      assert (a + b)[..|a + b| - 1] == a + b[..|b| - 1];
      ItemSourcesAppend(mask, hosts, a, b[..|b| - 1]);
    }
  }

  /** A source is produced iff some item's key matches with that url and the
      first host carrying the item's host id has that name. */
  lemma {:induction false} ItemSourcesMember(mask: string, hosts: seq<ZabbixHost>, items: seq<ZabbixItem>, source: UrlSource)
    ensures source in ItemSources(mask, hosts, items) <==>
      exists i :: 0 <= i < |items| && MatchKey(mask, items[i].key) == Some(source.url)
                  && FindHost(hosts, items[i].hostId).Some?
                  && FindHost(hosts, items[i].hostId).value.host == source.zabbixHost
    decreases |items|
  {
    if items != [] {
      var init := items[..|items| - 1];
      ItemSourcesMember(mask, hosts, init, source);
      forall i | 0 <= i < |init|
        ensures init[i] == items[i]
      {
      }
    }
  }
}
