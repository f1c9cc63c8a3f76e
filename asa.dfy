/** The Cisco ASA adapter: a static operations table, facts read from `show
    version`, `get_config` and a direct-apply `edit_config`, both under
    `enable_mode`. */
module Asa {
  import opened Outcomes
  import Py = PyValues
  import opened Text
  import opened Patterns
  import opened Transport
  import opened Script
  import CP = CliconfPlugins

  /** `_device_operations`: none of commit, replace and diff is supported */
  const Operations: map<string, bool> :=
    map["supports_commit" := false, "supports_replace" := false, "supports_diff" := false]

  /** `get_operations`: the static table, or one entry of it */
  function GetOperations(key: Option<string>): (r: CP.Answer<bool>)
    ensures !CP.KeyGiven(key) ==> r == CP.Whole(Operations)
    ensures CP.KeyGiven(key) ==>
              r.Single? && (r.value.Some? <==> key.value in {"supports_commit", "supports_replace", "supports_diff"})
    ensures r.Single? && r.value.Some? ==> !r.value.value
    ensures r.Whole? ==> forall k :: k in r.entries ==> !r.entries[k]
  {
    CP.Lookup(Operations, key)
  }

  const ShowVersion := "show version"
  const VersionPattern := CommaToken("Version ")
  const ModelPattern := SpacedLineGroup("Model Id:", " (revision")
  const HostnamePattern := LineGroup("", " up")

  /** The facts read from the (stripped) reply to `show version`: the
      platform name always, and version, model and hostname each only when
      its pattern matches, as the leftmost match's group. */
  function ParseFacts(data: string): (facts: map<string, string>)
    ensures facts.Keys <= CP.FactKeys
    ensures "network_os" in facts && facts["network_os"] == "asa"
    ensures CP.Extracted(facts, "network_os_version", VersionPattern, data)
    ensures CP.Extracted(facts, "network_os_model", ModelPattern, data)
    ensures CP.Extracted(facts, "network_os_hostname", HostnamePattern, data)
  {
    var f := CP.WithMatch(map["network_os" := "asa"], "network_os_version", VersionPattern, data);
    var f := CP.WithMatch(f, "network_os_model", ModelPattern, data);
    CP.WithMatch(f, "network_os_hostname", HostnamePattern, data)
  }

  /** Computing the facts: one `show version` */
  function Facts(device: Device): Query<map<string, string>> {
    Query([ShowVersion], match device.Answer(ShowVersion)
                         case Ok(reply) => Ok(ParseFacts(Strip(reply)))
                         case Err(e) => Err(e))
  }

  /** The error `get_config` raises for a source it does not know */
  function Unsupported(source: string): Error {
    ValueError("fetching configuration from " + source + " is not supported")
  }

  class Cliconf {
    const base: CP.CliconfBase
    /** `_device_facts`, once computed */
    var facts: Option<map<string, string>>

    ghost predicate Valid()
      reads this, base, base.connection
    {
      base.Valid() && Cache()
    }

    /** A cached table is what computing the facts yields. */
    ghost predicate Cache()
      reads this
    {
      facts.Some? ==> Facts(base.connection.device).result == Ok(facts.value)
    }

    constructor (connection: Connection)
      requires connection.answered == []
      ensures Valid()
      ensures base.connection == connection && base.rpc == CP.BaseRpc && facts == None
      ensures fresh(base)
    {
      base := new CP.CliconfBase(connection, CP.BaseRpc);
      facts := None;
    }

    /** `get_facts`, reading the cache from `_device_facts` (the source
        reads `_device.facts` when no key is given; see `CP.FactsAsWritten`).
        The facts are computed at most once: with a cached table nothing is
        sent. */
    method GetFacts(key: Option<string>) returns (r: Result<CP.Answer<string>>)
      requires Valid()
      modifies this, base, base.connection
      ensures Valid()
      ensures var q := CP.Cached(old(facts), Facts(base.connection.device), key);
              base.Sent(q.cmds) && r == q.result
      ensures old(facts).Some? ==> facts == old(facts) && base.connection.sent == old(base.connection.sent)
      ensures r.Ok? ==> facts.Some?
    {
      if facts.Some? {
        r := Ok(CP.Lookup(facts.value, key));
      } else {
        r := Refresh(key);
      }
    }

    /** `get_facts` with nothing cached: the facts are computed, stored, and
        then looked up. */
    method Refresh(key: Option<string>) returns (r: Result<CP.Answer<string>>)
      requires Valid() && facts.None?
      modifies this, base, base.connection
      ensures Valid()
      ensures var q := Facts(base.connection.device);
              base.Sent(q.cmds) && r == CP.Cached(None, q, key).result
      ensures r.Ok? ==> facts.Some?
    {
      var table := ComputeFacts();
      if table.Err? {
        return Err(table.error);
      }
      r := Ok(CP.Lookup(table.value, key));
    }

    /** The body of the `except AttributeError` branch of `get_facts`:
        `show version`, the extraction, and the table stored in
        `_device_facts` */
    method ComputeFacts() returns (r: Result<map<string, string>>)
      requires Valid()
      modifies this, base, base.connection
      ensures Valid()
      ensures var q := Facts(base.connection.device);
              base.Sent(q.cmds) && r == q.result
      ensures facts == if r.Ok? then Some(r.value) else old(facts)
    {
      var reply := base.SendPlain(ShowVersion);
      if reply.Err? {
        return Err(reply.error);
      }
      r := Ok(ParseFacts(Strip(reply.value)));
      facts := Some(r.value);
    }

    /** `get_config`: privileged only; `show running-config` or `show
        startup-config` with the filters, or ValueError for another source */
    method GetConfig(source: string, filter: Option<seq<string>>) returns (r: Result<string>)
      requires Valid()
      modifies base, base.connection
      ensures Valid()
      ensures var q := CP.ConfigQuery(CP.Privileged(base.connection.prompt), source, filter, Unsupported(source), base.connection.device);
              base.Sent(q.cmds) && r == q.result
    {
      r := base.GetConfigGuarded(source, filter, Unsupported(source));
    }

    /** `edit_config`: privileged only; checks its arguments, refuses a
        commit or replace that is `True`, loads the filtered lines and sends
        `end` */
    method EditConfig(candidate: Option<string>, commit: Py.Value, replace: Py.Value) returns (r: Result<()>)
      requires Valid()
      modifies base, base.connection
      ensures Valid()
      ensures var q := DirectEdit(CP.Privileged(base.connection.prompt), candidate, commit, replace, base.connection.device);
              base.Sent(q.cmds) && r == q.result
    {
      r := base.DirectEditGuarded(candidate, commit, replace);
    }
  }
}
