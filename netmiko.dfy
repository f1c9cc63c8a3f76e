/** The netmiko adapter: a static operations table, facts that hold only the
    platform name netmiko reports for the connection, and `get_config` and
    `edit_config`, which always refuse. It overrides `__rpc__`, so its
    capabilities list only `get_capabilities` and `get`. */
module Netmiko {
  import opened Outcomes
  import Py = PyValues
  import opened Transport
  import CP = CliconfPlugins

  /** `__rpc__` */
  const Rpc: seq<string> := ["get_capabilities", "get"]

  /** `_device_operations`: none of commit, replace and diff is supported */
  const Operations: map<string, bool> :=
    map["supports_commit" := false, "supports_replace" := false, "supports_diff" := false]

  /** `get_operations`: the static table, or one entry of it */
  function GetOperations(key: Option<string>): (r: CP.Answer<bool>)
    ensures !CP.KeyGiven(key) ==> r == CP.Whole(Operations)
    ensures CP.KeyGiven(key) ==>
              r.Single? && (r.value.Some? <==> key.value in {"supports_commit", "supports_replace", "supports_diff"})
    ensures r.Single? && r.value.Some? ==> !r.value.value
    ensures r.Whole? ==> forall k :: k in r.entries ==> !r.entries[k]
  {
    CP.Lookup(Operations, key)
  }

  /** The facts table `get_facts` builds: only the platform name, which is
      the connection's `device_type` */
  function DeviceFacts(deviceType: string): (facts: map<string, string>)
    ensures facts.Keys == {"network_os"} && facts["network_os"] == deviceType
  {
    map["network_os" := deviceType]
  }

  /** Looking up a key in that table: `network_os` gives the device type,
      and every other key gives None. */
  lemma DeviceFactsLookup(deviceType: string, key: string)
    requires key != ""
    ensures CP.Lookup(DeviceFacts(deviceType), Some(key)) == CP.Single(if key == "network_os" then Some(deviceType) else None)
  {
  }

  /** The message both refusing operations raise */
  const NotSupported := "edit_config is not supported when using netmiko"

  /** One call of `get_facts` as written: the new cache and the result. With
      a key and a cache the entry is looked up. Any other call raises
      AttributeError, for `_device_facts` or `_device` is missing; the
      handler caches a fresh table and then calls `self.device_facts`, which
      does not exist either, so the call raises AttributeError again. */
  function FactsAsWritten(cache: Option<map<string, string>>, deviceType: string, key: Option<string>):
    (Option<map<string, string>>, Result<CP.Answer<string>>)
  {
    if CP.KeyGiven(key) && cache.Some? then (cache, Ok(CP.Lookup(cache.value, key)))
    else (Some(DeviceFacts(deviceType)), Err(AttributeError("device_facts")))
  }

  /** The corrected `get_facts`: the table is built on first use and then
      answers every call. */
  function Facts(cache: Option<map<string, string>>, deviceType: string, key: Option<string>):
    (Option<map<string, string>>, Result<CP.Answer<string>>)
  {
    var table := if cache.Some? then cache.value else DeviceFacts(deviceType);
    (Some(table), Ok(CP.Lookup(table, key)))
  }

  /** As written, asking for all facts always raises, and a keyed lookup
      raises on the first call and only answers from the second on; the
      corrected version answers every call, and both leave the same table
      cached. */
  lemma FactsAsWrittenFails(cache: Option<map<string, string>>, deviceType: string, key: Option<string>)
    requires cache.None? || cache.value == DeviceFacts(deviceType)
    ensures !CP.KeyGiven(key) ==> FactsAsWritten(cache, deviceType, key).1 == Err(AttributeError("device_facts"))
    ensures FactsAsWritten(None, deviceType, key).1 == Err(AttributeError("device_facts"))
    ensures var (cached, _) := FactsAsWritten(None, deviceType, key);
            CP.KeyGiven(key) ==> FactsAsWritten(cached, deviceType, key).1 == Ok(CP.Lookup(DeviceFacts(deviceType), key))
    ensures FactsAsWritten(cache, deviceType, key).0 == Facts(cache, deviceType, key).0
    ensures Facts(cache, deviceType, key).1 == Ok(CP.Lookup(DeviceFacts(deviceType), key))
  {
  }

  class Cliconf {
    const base: CP.CliconfBase
    /** `_device_facts`, once built */
    var facts: Option<map<string, string>>

    /** A cached table is the one built from the connection's device type. */
    ghost predicate Valid()
      reads this, base, base.connection
    {
      base.Valid() && (facts.Some? ==> facts.value == DeviceFacts(base.connection.deviceType))
    }

    constructor (connection: Connection)
      requires connection.answered == []
      ensures Valid()
      ensures base.connection == connection && base.rpc == Rpc && facts == None
      ensures fresh(base)
    {
      base := new CP.CliconfBase(connection, Rpc);
      facts := None;
    }

    /** `get_capabilities`: the shared record, with the two netmiko RPCs */
    function GetCapabilities(): (c: CP.Capabilities)
      reads this, base
      requires base.rpc == Rpc
      ensures c.rpc == ["get_capabilities", "get"] && c.networkApi == "cliconf"
    {
      base.GetCapabilities()
    }

    /** `get_facts`, corrected: the platform-name table, built on first use,
        or one entry of it; nothing is ever sent. */
    method GetFacts(key: Option<string>) returns (r: Result<CP.Answer<string>>)
      requires Valid()
      modifies this
      ensures Valid()
      ensures (facts, r) == Facts(old(facts), base.connection.deviceType, key)
      ensures facts == Some(DeviceFacts(base.connection.deviceType))
      ensures r == Ok(CP.Lookup(DeviceFacts(base.connection.deviceType), key))
    {
      if facts.None? {
        facts := Some(map["network_os" := base.connection.deviceType]);
      }
      r := Ok(CP.Lookup(facts.value, key));
    }

    /** `get_config`: always refuses, before anything is sent */
    method GetConfig(source: string, filter: Option<seq<string>>) returns (r: Result<string>)
      requires Valid()
      ensures r == Err(AnsibleError(NotSupported))
    {
      r := Err(AnsibleError(NotSupported));
    }

    /** `edit_config`: always refuses, before anything is sent */
    method EditConfig(candidate: Option<string>, commit: Py.Value, replace: Py.Value) returns (r: Result<()>)
      requires Valid()
      ensures r == Err(AnsibleError(NotSupported))
    {
      r := Err(AnsibleError(NotSupported));
    }
  }
}
