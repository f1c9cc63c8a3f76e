/** The VyOS adapter: a static operations table, facts read from `show
    version` and `show host name`, `get_config`, and an `edit_config` that
    loads into configuration mode, compares, then commits or discards. No
    operation is guarded by `enable_mode`. */
module Vyos {
  import opened Outcomes
  import Py = PyValues
  import opened Text
  import opened Patterns
  import opened Transport
  import opened Script
  import CP = CliconfPlugins

  /** `_device_operations`: commit and diff are supported, replace is not */
  const Operations: map<string, bool> :=
    map["supports_commit" := true, "supports_replace" := false, "supports_diff" := true]

  /** `get_operations`: the static table, or one entry of it */
  function GetOperations(key: Option<string>): (r: CP.Answer<bool>)
    ensures !CP.KeyGiven(key) ==> r == CP.Whole(Operations)
    ensures CP.KeyGiven(key) ==>
              r.Single? && (r.value.Some? <==> key.value in {"supports_commit", "supports_replace", "supports_diff"})
    ensures CP.KeyGiven(key) && r.value.Some? ==> (r.value.value <==> key.value != "supports_replace")
  {
    CP.Lookup(Operations, key)
  }

  const ShowVersion := "show version"
  const ShowHostName := "show host name"
  const VersionPattern := LabelToken("Version:")
  const ModelPattern := LabelToken("HW model:")

  /** The facts read from the two stripped replies: the platform name;
      version and model, each the first non-blank word after its label in
      the version reply, and only when the label is followed by one; and the
      hostname reply. */
  function ParseFacts(data: string, hostname: string): (facts: map<string, string>)
    ensures facts.Keys <= CP.FactKeys
    ensures "network_os" in facts && facts["network_os"] == "vyos"
    ensures CP.Extracted(facts, "network_os_version", VersionPattern, data)
    ensures CP.Extracted(facts, "network_os_model", ModelPattern, data)
    ensures "network_os_hostname" in facts && facts["network_os_hostname"] == hostname
  {
    var f := map["network_os" := "vyos", "network_os_hostname" := hostname];
    var f := CP.WithMatch(f, "network_os_version", VersionPattern, data);
    CP.WithMatch(f, "network_os_model", ModelPattern, data)
  }

  /** Computing the facts: `show version`, then `show host name`; an error
      in either propagates. */
  function Facts(device: Device): Query<map<string, string>> {
    match device.Answer(ShowVersion)
    case Err(e) => Query([ShowVersion], Err(e))
    case Ok(version) =>
      Query([ShowVersion, ShowHostName], match device.Answer(ShowHostName)
                                         case Err(e) => Err(e)
                                         case Ok(hostname) => Ok(ParseFacts(Strip(version), Strip(hostname))))
  }

  /** The command `get_config` sends: the source is ignored and a filter is
      appended after a blank only when it is given and not empty. */
  function ConfigCommand(filter: Option<string>): (command: string)
    ensures filter.None? || filter.value == "" ==> command == "show configuration"
    ensures filter.Some? && filter.value != "" ==> command == "show configuration " + filter.value
  {
    var command := "show configuration";
    if filter.Some? && filter.value != "" then command + " " + filter.value else command
  }

  /** The command always starts with `show configuration`, and a non-empty
      filter reads back from what follows the blank ... */
  lemma ConfigCommandReadsBack(filter: Option<string>)
    ensures |ConfigCommand(filter)| >= 18 && ConfigCommand(filter)[..18] == "show configuration"
    ensures filter.Some? && filter.value != "" ==>
              |ConfigCommand(filter)| > 18 && ConfigCommand(filter)[18] == ' ' && ConfigCommand(filter)[19..] == filter.value
  {
  }

  /** ... so different filters ask for different commands. */
  lemma ConfigCommandInjective(a: string, b: string)
    requires a != "" && b != "" && ConfigCommand(Some(a)) == ConfigCommand(Some(b))
    ensures a == b
  {
    ConfigCommandReadsBack(Some(a));
    ConfigCommandReadsBack(Some(b));
  }

  /** `edit_config`: the argument checks, then the commit-or-discard load;
      `commit` is read for its truth value, so a commit of 1 commits. `replace` is
      checked and otherwise ignored. */
  function Edit(candidate: Option<string>, commit: Py.Value, replace: Py.Value, device: Device): Query<string> {
    match ValidateEdit(candidate, commit, replace)
    case Err(e) => Query([], Err(e))
    case Ok(args) => CommitDiscard(ConfigureAll(args.lines, device), Py.Truthy(args.commit), device)
  }

  /** Bad arguments send nothing, and `replace`, once it passes its check,
      changes nothing at all. */
  lemma EditIgnoresReplace(candidate: Option<string>, commit: Py.Value, replace: Py.Value, device: Device)
    ensures ValidateEdit(candidate, commit, replace).Err? ==> Edit(candidate, commit, replace, device).cmds == []
    ensures ValidateEdit(candidate, commit, replace).Ok? ==>
              Edit(candidate, commit, replace, device) == Edit(candidate, commit, Py.Bool(false), device)
  {
  }

  /** No `end` is ever sent unless the candidate itself holds an `end` line,
      which vyos sends like any other. */
  lemma {:induction false} EditSendsNoEnd(lines: seq<string>, commit: bool, device: Device)
    requires "end" !in lines
    ensures "end" !in CommitDiscard(ConfigureAll(lines, device), commit, device).cmds
  {
    EachSpec(SendAll, ["configure"] + lines, device);
    FilteredAll(["configure"] + lines);
  }

  class Cliconf {
    const base: CP.CliconfBase
    /** `_device_facts`, once computed */
    var facts: Option<map<string, string>>

    ghost predicate Valid()
      reads this, base, base.connection
    {
      base.Valid() && Cache()
    }

    /** A cached table is what computing the facts yields. */
    ghost predicate Cache()
      reads this
    {
      facts.Some? ==> Facts(base.connection.device).result == Ok(facts.value)
    }

    constructor (connection: Connection)
      requires connection.answered == []
      ensures Valid()
      ensures base.connection == connection && base.rpc == CP.BaseRpc && facts == None
      ensures fresh(base)
    {
      base := new CP.CliconfBase(connection, CP.BaseRpc);
      facts := None;
    }

    /** `get_facts`: computed at most once; with a cached table nothing is sent. */
    method GetFacts(key: Option<string>) returns (r: Result<CP.Answer<string>>)
      requires Valid()
      modifies this, base, base.connection
      ensures Valid()
      ensures var q := CP.Cached(old(facts), Facts(base.connection.device), key);
              base.Sent(q.cmds) && r == q.result
      ensures old(facts).Some? ==> facts == old(facts) && base.connection.sent == old(base.connection.sent)
      ensures r.Ok? ==> facts.Some?
    {
      ghost var computed := Facts(base.connection.device);
      if facts.None? {
        var version := base.SendPlain(ShowVersion);
        if version.Err? {
          return Err(version.error);
        }
        var hostname := base.SendPlain(ShowHostName);
        SentInTwo(old(base.connection.sent), old(base.history), [ShowVersion], [ShowHostName], base.connection.device);
        if hostname.Err? {
          return Err(hostname.error);
        }
        facts := Some(ParseFacts(Strip(version.value), Strip(hostname.value)));
        assert computed == Query([ShowVersion, ShowHostName], Ok(facts.value));
      }
      r := Ok(CP.Lookup(facts.value, key));
    }

    /** `get_config`: one `show configuration` command */
    method GetConfig(source: string, filter: Option<string>) returns (r: Result<string>)
      requires Valid()
      modifies base, base.connection
      ensures Valid()
      ensures base.Sent([ConfigCommand(filter)])
      ensures r == base.connection.device.Answer(ConfigCommand(filter))
    {
      r := base.SendPlain(ConfigCommand(filter));
    }

    /** `edit_config` */
    method EditConfig(candidate: Option<string>, commit: Py.Value, replace: Py.Value) returns (r: Result<string>)
      requires Valid()
      modifies base, base.connection
      ensures Valid()
      ensures var q := Edit(candidate, commit, replace, base.connection.device);
              base.Sent(q.cmds) && r == q.result
    {
      var args := ValidateEdit(candidate, commit, replace);
      if args.Err? {
        return Err(args.error);
      }
      r := Load(args.value.lines, Py.Truthy(args.value.commit));
    }

    /** The load of `edit_config`: configuration mode and every line, with
        `exit discard` on an error; then `compare`, and `commit` or `exit
        discard` */
    method Load(lines: seq<string>, commit: bool) returns (r: Result<string>)
      requires Valid()
      modifies base, base.connection
      ensures Valid()
      ensures var q := CommitDiscard(ConfigureAll(lines, base.connection.device), commit, base.connection.device);
              base.Sent(q.cmds) && r == q.result
    {
      ghost var device := base.connection.device;
      ghost var load := ConfigureAll(lines, device);
      var loaded := base.SendLines(SendAll, ["configure"] + lines);
      if loaded.Err? {
        r := Discard(loaded.error);
        SentInTwo(old(base.connection.sent), old(base.history), load.cmds, ["exit discard"], base.connection.device);
        return;
      }
      ghost var close := CompareAndClose(commit, device);
      r := Close(commit);
      SentInTwo(old(base.connection.sent), old(base.history), load.cmds, close.cmds, base.connection.device);
    }

    /** After a failed load: `exit discard`, then the load's error raised
        again, unless `exit discard` raised first */
    method Discard(error: Error) returns (r: Result<string>)
      requires Valid()
      modifies base, base.connection
      ensures Valid()
      ensures base.Sent(["exit discard"])
      ensures var discard := Issue("exit discard", base.connection.device);
              r == Err(if discard.failure.Some? then discard.failure.value else error)
    {
      var discarded := base.SendPlain("exit discard");
      if discarded.Err? {
        return Err(discarded.error);
      }
      r := Err(error);
    }

    /** After a clean load: `compare`, then `commit` or `exit discard` */
    method Close(commit: bool) returns (r: Result<string>)
      requires Valid()
      modifies base, base.connection
      ensures Valid()
      ensures var q := CompareAndClose(commit, base.connection.device);
              base.Sent(q.cmds) && r == q.result
    {
      var diff := base.SendPlain("compare");
      if diff.Err? {
        return Err(diff.error);
      }
      var text := StripIfAny(diff.value);
      var closing := if commit then "commit" else "exit discard";
      var closed := base.SendPlain(closing);
      SentInTwo(old(base.connection.sent), old(base.history), ["compare"], [closing], base.connection.device);
      if closed.Err? {
        return Err(closed.error);
      }
      r := Ok(text);
    }
  }
}
