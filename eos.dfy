/** The Arista EOS adapter: an operations table computed on first use from
    the `ANSIBLE_EOS_USE_SESSIONS` setting, facts read from two JSON
    replies, `get_config`, and an `edit_config` that either merges the
    candidate straight into the running configuration or loads it into a
    configuration session and commits or aborts that session. `get_config`
    and `edit_config` are guarded by `enable_mode`. */
module Eos {
  import opened Outcomes
  import Py = PyValues
  import opened Text
  import opened Transport
  import opened Script
  import CP = CliconfPlugins

  /** `ANSIBLE_EOS_USE_SESSIONS` as `get_operations` reads it: unset (the
      default `True`, which `int` turns into 1), a value `int` accepts, or a
      value `int` refuses */
  datatype SessionsSetting = Unset | Integer(n: int) | NotInteger

  /** `bool(use_sessions)` once the setting has gone through `int` */
  function UseSessions(setting: SessionsSetting): bool {
    match setting
    case Unset => true
    case Integer(n) => n != 0
    case NotInteger => true
  }

  /** The probe `get_operations` sends when `use_sessions is True` */
  const ProbeCommand := "show configuration session"

  /** `{'supports_<k>': on for k in (commit, replace, diff, sessions)}` */
  function OperationsTable(on: bool): map<string, bool> {
    map["supports_commit" := on, "supports_replace" := on, "supports_diff" := on, "supports_sessions" := on]
  }

  /** Computing `_device_operations`. `use_sessions is True` holds only when
      `int` refused the setting (an unset setting has become the integer 1),
      and only then is the probe sent; its error propagates, and whatever
      it answers is stored in the misspelt `use_sesssions` and never read. */
  function Operations(setting: SessionsSetting, device: Device): Query<map<string, bool>> {
    if setting.NotInteger? then
      match device.Answer(ProbeCommand)
      case Err(e) => Query([ProbeCommand], Err(e))
      case Ok(_) => Query([ProbeCommand], Ok(OperationsTable(true)))
    else Query([], Ok(OperationsTable(UseSessions(setting))))
  }

  /** The four operations are always reported alike, and they are off
      exactly when the setting is the integer 0; the probe is sent exactly
      when the setting is not an integer. */
  lemma OperationsAgree(setting: SessionsSetting, device: Device)
    ensures var q := Operations(setting, device);
            (q.cmds == [ProbeCommand] <==> setting.NotInteger?) && (q.cmds == [] <==> !setting.NotInteger?) &&
            (q.result.Err? <==> setting.NotInteger? && ProbeCommand in device.rejected) &&
            (q.result.Ok? ==>
               q.result.value.Keys == {"supports_commit", "supports_replace", "supports_diff", "supports_sessions"} &&
               forall k :: k in q.result.value ==> (q.result.value[k] <==> setting != Integer(0)))
  {
  }

  /** What the probe answers never changes the table: two devices that
      reject the same commands give the same operations, whatever they
      reply. */
  lemma OperationsIgnoreProbeReply(setting: SessionsSetting, a: Device, b: Device)
    requires a.rejected == b.rejected
    ensures Operations(setting, a) == Operations(setting, b)
  {
  }

  const ShowVersion := "show version | json"
  const ShowHostname := "show hostname | json"

  /** `json.loads` on the replies read here: the fields of the JSON object
      the text holds, or None when the text is not such a document */
  type Decoder = string -> Option<map<string, string>>

  /** Computing `_device_facts`: `show version | json`, its `version` and
      `modelName` fields, then `show hostname | json` and its `hostname`
      field. A reply that does not decode raises, a missing field raises
      KeyError, and any error propagates at once. */
  function Facts(decode: Decoder, device: Device): Query<map<string, string>> {
    match device.Answer(ShowVersion)
    case Err(e) => Query([ShowVersion], Err(e))
    case Ok(version) =>
      match decode(version)
      case None => Query([ShowVersion], Err(JsonDecodeError(version)))
      case Some(data) =>
        if "version" !in data then Query([ShowVersion], Err(KeyError("version")))
        else if "modelName" !in data then Query([ShowVersion], Err(KeyError("modelName")))
        else
          Query([ShowVersion, ShowHostname], match HostnameField(decode, device)
            case Err(e) => Err(e)
            case Ok(hostname) =>
              Ok(map["network_os" := "eos", "network_os_version" := data["version"],
                     "network_os_model" := data["modelName"], "network_os_hostname" := hostname]))
  }

  /** `json.loads(self.get('show hostname | json'))['hostname']` */
  function HostnameField(decode: Decoder, device: Device): Result<string> {
    match device.Answer(ShowHostname)
    case Err(e) => Err(e)
    case Ok(reply) =>
      match decode(reply)
      case None => Err(JsonDecodeError(reply))
      case Some(data) => if "hostname" in data then Ok(data["hostname"]) else Err(KeyError("hostname"))
  }

  /** The version document is all that decides whether the hostname is
      asked for; a complete table holds exactly the four fact keys, the
      platform name and the three fields as the device reported them. */
  lemma FactsSpec(decode: Decoder, device: Device)
    ensures var q := Facts(decode, device);
            (q.cmds == [ShowVersion] || q.cmds == [ShowVersion, ShowHostname]) &&
            (q.cmds == [ShowVersion, ShowHostname] <==>
               ShowVersion !in device.rejected && decode(device.reply(ShowVersion)).Some? &&
               "version" in decode(device.reply(ShowVersion)).value &&
               "modelName" in decode(device.reply(ShowVersion)).value) &&
            (q.result.Ok? ==>
               q.result.value.Keys == CP.FactKeys && q.result.value["network_os"] == "eos" &&
               q.result.value["network_os_version"] == decode(device.reply(ShowVersion)).value["version"] &&
               q.result.value["network_os_model"] == decode(device.reply(ShowVersion)).value["modelName"] &&
               q.result.value["network_os_hostname"] == decode(device.reply(ShowHostname)).value["hostname"])
  {
  }

  /** The error `get_config` is meant to raise for a source it does not
      know, worded as the other adapters word it */
  function Unsupported(source: string): Error {
    ValueError("fetching configuration from " + source + " is not supported")
  }

  /** `get_config` as written: for a source it does not know it calls
      `self.invalid_params`, which the adapter does not have, so the
      attribute lookup raises before the message is used. */
  function ConfigAsWritten(privileged: bool, source: string, filter: Option<seq<string>>, device: Device): Query<string> {
    CP.ConfigQuery(privileged, source, filter, AttributeError("invalid_params"), device)
  }

  /** As written, an unknown source such as "candidate" raises AttributeError
      naming `invalid_params`; the corrected query raises a ValueError naming
      the source. Both send nothing, and for a known source they agree. */
  lemma ConfigAsWrittenRaises(source: string, filter: Option<seq<string>>, device: Device)
    ensures source !in CP.ConfigSources ==>
              ConfigAsWritten(true, source, filter, device) == Query([], Err(AttributeError("invalid_params")))
    ensures source !in CP.ConfigSources ==>
              CP.ConfigQuery(true, source, filter, Unsupported(source), device)
                == Query([], Err(ValueError("fetching configuration from " + source + " is not supported")))
    ensures source in CP.ConfigSources ==>
              ConfigAsWritten(true, source, filter, device) == CP.ConfigQuery(true, source, filter, Unsupported(source), device)
    ensures "candidate" !in CP.ConfigSources
  {
  }

  /** `edit_config` on the path without sessions: refuse `replace is True`,
      refuse `commit is False`, then send `configure`, the filtered lines and
      `end`. Without sessions nothing is returned. */
  function Merge(args: EditArgs, device: Device): Query<Option<string>> {
    if Py.IsTrue(args.replace) then Query([], Err(ValueError("config replace not supported for merge operations")))
    else if Py.IsFalse(args.commit) then Query([], Err(ValueError("cannot load candidate configuration when commit is False")))
    else Finish(DirectApply(["configure"] + args.lines, device), None)
  }

  /** The session name `ansible_<seconds since the epoch>` */
  function SessionName(now: nat): string {
    "ansible_" + Decimal(now)
  }

  /** `edit_config` past its argument checks: the session path when the
      device supports sessions, the merge path otherwise. `if replace:` tests
      truth, `commit is True` identity. */
  function Apply(sessions: bool, args: EditArgs, now: nat, device: Device): Query<Option<string>> {
    if !sessions then Merge(args, device)
    else Session(SessionName(now), Py.Truthy(args.replace), Each(SkipEndAndComments, args.lines, device),
                 Py.IsTrue(args.commit), device)
  }

  /** `self.supports_sessions`, read through `get_operations`: sessions are
      used only when the table holds `True` for them. */
  function SessionsQuery(cache: Option<map<string, bool>>, setting: SessionsSetting, device: Device): Query<bool> {
    var q := CP.Cached(cache, Operations(setting, device), Some("supports_sessions"));
    Query(q.cmds, if q.result.Err? then Err(q.result.error) else Ok(q.result.value == CP.Single(Some(true))))
  }

  /** Before the table is cached, the sessions question sends what
      computing the table sends, fails exactly when that fails, and
      otherwise answers whether the setting turns sessions on. */
  lemma SessionsFollowSetting(setting: SessionsSetting, device: Device)
    ensures var s := SessionsQuery(None, setting, device);
            s.cmds == Operations(setting, device).cmds &&
            (s.result.Err? <==> Operations(setting, device).result.Err?) &&
            (s.result.Ok? ==> s.result.value == UseSessions(setting))
  {
    var ops := Operations(setting, device);
    if ops.result.Ok? {
      var table := OperationsTable(UseSessions(setting));
      assert ops.result.value == table;
      assert "supports_sessions" in table && table["supports_sessions"] == UseSessions(setting);
      assert CP.Lookup(table, Some("supports_sessions")) == CP.Single(Some(UseSessions(setting)));
    }
  }

  /** `edit_config` under `enable_mode`: the privilege check, the argument
      checks, then the rest of the edit. `now` is `int(time.time())`. */
  function Edit(privileged: bool, candidate: Option<string>, commit: Py.Value, replace: Py.Value,
                cache: Option<map<string, bool>>, setting: SessionsSetting, now: nat, device: Device): Query<Option<string>> {
    if !privileged then Query([], Err(PrivilegeRequired))
    else match ValidateEdit(candidate, commit, replace)
      case Err(e) => Query([], Err(e))
      case Ok(args) => EditChecked(args, cache, setting, now, device)
  }

  /** `edit_config` past its argument checks: the sessions question, which
      may send the probe and whose error propagates, then one of the two
      loads */
  function EditChecked(args: EditArgs, cache: Option<map<string, bool>>, setting: SessionsSetting, now: nat, device: Device): Query<Option<string>> {
    var s := SessionsQuery(cache, setting, device);
    if s.result.Err? then Query(s.cmds, Err(s.result.error))
    else
      var rest := Apply(s.result.value, args, now, device);
      Query(s.cmds + rest.cmds, rest.result)
  }

  /** Without sessions, the merge sends `configure`, the lines that are not
      `end` or comments, and one `end`, and succeeds exactly when the device
      takes all of them; `replace` set to `True` and `commit` set to `False`
      are refused before anything is sent. */
  lemma MergeSpec(args: EditArgs, device: Device)
    ensures Py.IsTrue(args.replace) ==>
              Merge(args, device) == Query([], Err(ValueError("config replace not supported for merge operations")))
    ensures !Py.IsTrue(args.replace) && Py.IsFalse(args.commit) ==>
              Merge(args, device) == Query([], Err(ValueError("cannot load candidate configuration when commit is False")))
    ensures !Py.IsTrue(args.replace) && !Py.IsFalse(args.commit) &&
            "configure" !in device.rejected && Clean(SkipEndAndComments, args.lines, device) && "end" !in device.rejected ==>
              Merge(args, device) == Query(["configure"] + Filtered(SkipEndAndComments, args.lines) + ["end"], Ok(None))
  {
    if !Py.IsTrue(args.replace) && !Py.IsFalse(args.commit) &&
       "configure" !in device.rejected && Clean(SkipEndAndComments, args.lines, device) && "end" !in device.rejected {
      var all := ["configure"] + args.lines;
      assert Clean(SkipEndAndComments, all, device) by {
        forall k | 0 <= k < |all| ensures Fine(SkipEndAndComments, all[k], device) {
          if k > 0 {
            assert all[k] == args.lines[k - 1];
          }
        }
      }
      DirectApplySpec(all, device);
      assert all[1..] == args.lines;
    }
  }

  /** With sessions and a device that takes every command, the edit opens
      `ansible_<now>`, loads the filtered lines, reads the diff, commits
      only when `commit is True` and aborts otherwise, sends `end`, and
      returns the stripped diff. */
  lemma SessionEditSpec(args: EditArgs, now: nat, device: Device)
    requires Clean(SkipEndAndComments, args.lines, device)
    requires OpensCleanly(SessionName(now), Py.Truthy(args.replace), device)
    requires DiffCommand !in device.rejected && "end" !in device.rejected
    requires (if Py.IsTrue(args.commit) then "commit" else "abort") !in device.rejected
    ensures Apply(true, args, now, device) ==
              Query(SessionOpening(SessionName(now), Py.Truthy(args.replace)) + Filtered(SkipEndAndComments, args.lines) +
                    [DiffCommand, if Py.IsTrue(args.commit) then "commit" else "abort", "end"],
                    Ok(Some(Strip(device.reply(DiffCommand)))))
  {
    EachClean(SkipEndAndComments, args.lines, device);
    SessionSucceeds(SessionName(now), Py.Truthy(args.replace), Each(SkipEndAndComments, args.lines, device),
                    Py.IsTrue(args.commit), device);
  }

  /** `edit_config` as written: `supports_sessions` calls
      `self.device_operations`, which does not exist, so every edit that
      passes the privilege and argument checks raises AttributeError before
      anything is sent. */
  function EditAsWritten(privileged: bool, candidate: Option<string>, commit: Py.Value, replace: Py.Value): Query<Option<string>> {
    if !privileged then Query([], Err(PrivilegeRequired))
    else match ValidateEdit(candidate, commit, replace)
      case Err(e) => Query([], Err(e))
      case Ok(_) => Query([], Err(AttributeError("device_operations")))
  }

  /** As written no edit ever reaches the device, while the corrected edit
      under the default setting, with a cache still empty, opens a session
      as its first command. */
  lemma EditAsWrittenNeverLoads(candidate: Option<string>, commit: Py.Value, replace: Py.Value, now: nat, device: Device)
    ensures EditAsWritten(true, candidate, commit, replace).cmds == []
    ensures EditAsWritten(true, candidate, commit, replace).result.Err?
    ensures ValidateEdit(candidate, commit, replace).Ok? ==>
              EditAsWritten(true, candidate, commit, replace).result == Err(AttributeError("device_operations"))
    ensures ValidateEdit(candidate, commit, replace).Ok? ==>
              var q := Edit(true, candidate, commit, replace, None, Unset, now, device);
              |q.cmds| > 0 && q.cmds[0] == "configure session " + SessionName(now)
  {
    if ValidateEdit(candidate, commit, replace).Ok? {
      var args := ValidateEdit(candidate, commit, replace).value;
      SessionsFollowSetting(Unset, device);
      var session := Apply(true, args, now, device);
      SessionOpensFirst(SessionName(now), Py.Truthy(args.replace), Each(SkipEndAndComments, args.lines, device),
                        Py.IsTrue(args.commit), device);
      assert EditChecked(args, None, Unset, now, device) == Query([] + session.cmds, session.result);
      assert [] + session.cmds == session.cmds;
    }
  }

  /** The session path as written loads `config`, a name that is not
      defined: the NameError is caught, `abort` is sent, and the error is
      raised again. */
  function SessionAsWritten(name: string, replace: bool, commit: bool, device: Device): Query<Option<string>> {
    Session(name, replace, Run([], Some(NameError("config"))), commit, device)
  }

  /** As written, an opened session always ends in `abort` with nothing
      loaded and nothing committed, whatever the candidate. */
  lemma SessionAsWrittenAborts(name: string, replace: bool, commit: bool, device: Device)
    requires OpensCleanly(name, replace, device)
    ensures SessionAsWritten(name, replace, commit, device).cmds == SessionOpening(name, replace) + ["abort"]
    ensures "commit" !in SessionAsWritten(name, replace, commit, device).cmds
    ensures "abort" !in device.rejected ==>
              SessionAsWritten(name, replace, commit, device).result == Err(NameError("config"))
  {
    SessionAbortsOnLoadError(name, replace, Run([], Some(NameError("config"))), commit, device);
    assert SessionOpening(name, replace) + [] + ["abort"] == SessionOpening(name, replace) + ["abort"];
  }

  class Cliconf {
    const base: CP.CliconfBase
    /** `ANSIBLE_EOS_USE_SESSIONS` in the environment */
    const setting: SessionsSetting
    /** `json.loads` */
    const decode: Decoder
    /** `_device_operations`, once computed */
    var operations: Option<map<string, bool>>
    /** `_device_facts`, once computed */
    var facts: Option<map<string, string>>

    ghost predicate Valid()
      reads this, base, base.connection
    {
      base.Valid() && Cache()
    }

    /** Each cached table is what computing it yields. */
    ghost predicate Cache()
      reads this
    {
      (operations.Some? ==> Operations(setting, base.connection.device).result == Ok(operations.value)) &&
      (facts.Some? ==> Facts(decode, base.connection.device).result == Ok(facts.value))
    }

    constructor (connection: Connection, setting: SessionsSetting, decode: Decoder)
      requires connection.answered == []
      ensures Valid()
      ensures base.connection == connection && base.rpc == CP.BaseRpc
      ensures this.setting == setting && this.decode == decode && operations == None && facts == None
      ensures fresh(base)
    {
      base := new CP.CliconfBase(connection, CP.BaseRpc);
      this.setting := setting;
      this.decode := decode;
      operations := None;
      facts := None;
    }

    /** `get_operations`: the table is computed at most once; with a cached
        table nothing is sent. */
    method GetOperations(key: Option<string>) returns (r: Result<CP.Answer<bool>>)
      requires Valid()
      modifies this, base, base.connection
      ensures Valid()
      ensures var q := CP.Cached(old(operations), Operations(setting, base.connection.device), key);
              base.Sent(q.cmds) && r == q.result
      ensures old(operations).Some? ==> operations == old(operations) && base.connection.sent == old(base.connection.sent)
      ensures r.Ok? ==> operations.Some?
      ensures facts == old(facts)
    {
      if operations.None? {
        var table := ComputeOperations();
        if table.Err? {
          return Err(table.error);
        }
        operations := Some(table.value);
      }
      r := Ok(CP.Lookup(operations.value, key));
    }

    /** The body of the `except AttributeError` branch of `get_operations` */
    method ComputeOperations() returns (r: Result<map<string, bool>>)
      requires Valid()
      modifies base, base.connection
      ensures Valid()
      ensures var q := Operations(setting, base.connection.device);
              base.Sent(q.cmds) && r == q.result
    {
      var on := true;
      match setting {
        case Unset => on := true;
        case Integer(n) => on := n != 0;
        case NotInteger =>
          var probe := base.SendPlain(ProbeCommand);
          if probe.Err? {
            return Err(probe.error);
          }
      }
      r := Ok(OperationsTable(on));
    }

    /** `get_facts`: the facts are computed at most once; with a cached
        table nothing is sent. */
    method GetFacts(key: Option<string>) returns (r: Result<CP.Answer<string>>)
      requires Valid()
      modifies this, base, base.connection
      ensures Valid()
      ensures var q := CP.Cached(old(facts), Facts(decode, base.connection.device), key);
              base.Sent(q.cmds) && r == q.result
      ensures old(facts).Some? ==> facts == old(facts) && base.connection.sent == old(base.connection.sent)
      ensures r.Ok? ==> facts.Some?
      ensures operations == old(operations)
    {
      if facts.None? {
        var table := ComputeFacts();
        if table.Err? {
          return Err(table.error);
        }
        facts := Some(table.value);
      }
      r := Ok(CP.Lookup(facts.value, key));
    }

    /** The body of the `except AttributeError` branch of `get_facts` */
    method ComputeFacts() returns (r: Result<map<string, string>>)
      requires Valid()
      modifies base, base.connection
      ensures Valid()
      ensures var q := Facts(decode, base.connection.device);
              base.Sent(q.cmds) && r == q.result
    {
      ghost var q := Facts(decode, base.connection.device);
      var version := base.SendPlain(ShowVersion);
      if version.Err? {
        return Err(version.error);
      }
      var data := decode(version.value);
      if data.None? {
        return Err(JsonDecodeError(version.value));
      }
      if "version" !in data.value {
        return Err(KeyError("version"));
      }
      if "modelName" !in data.value {
        return Err(KeyError("modelName"));
      }
      var hostname := ReadHostname();
      SentInTwo(old(base.connection.sent), old(base.history), [ShowVersion], [ShowHostname], base.connection.device);
      if hostname.Err? {
        return Err(hostname.error);
      }
      r := Ok(map["network_os" := "eos", "network_os_version" := data.value["version"],
                  "network_os_model" := data.value["modelName"], "network_os_hostname" := hostname.value]);
    }

    /** The hostname half of computing the facts */
    method ReadHostname() returns (r: Result<string>)
      requires Valid()
      modifies base, base.connection
      ensures Valid()
      ensures base.Sent([ShowHostname])
      ensures r == HostnameField(decode, base.connection.device)
    {
      var reply := base.SendPlain(ShowHostname);
      if reply.Err? {
        return Err(reply.error);
      }
      var data := decode(reply.value);
      if data.None? {
        return Err(JsonDecodeError(reply.value));
      }
      if "hostname" !in data.value {
        return Err(KeyError("hostname"));
      }
      r := Ok(data.value["hostname"]);
    }

    /** `get_config`: privileged only; `show running-config` or `show
        startup-config` with the filters; another source raises ValueError */
    method GetConfig(source: string, filter: Option<seq<string>>) returns (r: Result<string>)
      requires Valid()
      modifies base, base.connection
      ensures Valid()
      ensures var q := CP.ConfigQuery(CP.Privileged(base.connection.prompt), source, filter, Unsupported(source), base.connection.device);
              base.Sent(q.cmds) && r == q.result
    {
      r := base.GetConfigGuarded(source, filter, Unsupported(source));
    }

    /** `supports_sessions`, read through `get_operations` */
    method SupportsSessions() returns (r: Result<bool>)
      requires Valid()
      modifies this, base, base.connection
      ensures Valid()
      ensures var q := SessionsQuery(old(operations), setting, base.connection.device);
              base.Sent(q.cmds) && r == q.result
      ensures facts == old(facts)
      ensures old(operations).Some? ==> operations == old(operations)
      ensures r.Ok? ==> operations.Some?
    {
      var answer := GetOperations(Some("supports_sessions"));
      if answer.Err? {
        return Err(answer.error);
      }
      r := Ok(answer.value == CP.Single(Some(true)));
    }

    /** `edit_config`: privileged only; checks its arguments, asks whether
        sessions are supported, then merges or runs a session. `now` is the
        clock reading the session is named after. */
    method EditConfig(candidate: Option<string>, commit: Py.Value, replace: Py.Value, now: nat) returns (r: Result<Option<string>>)
      requires Valid()
      modifies this, base, base.connection
      ensures Valid()
      ensures var q := Edit(CP.Privileged(base.connection.prompt), candidate, commit, replace,
                            old(operations), setting, now, base.connection.device);
              base.Sent(q.cmds) && r == q.result
      ensures facts == old(facts)
      ensures old(operations).Some? ==> operations == old(operations)
      ensures (CP.Privileged(base.connection.prompt) && ValidateEdit(candidate, commit, replace).Ok?
               && SessionsQuery(old(operations), setting, base.connection.device).result.Ok?) ==> operations.Some?
    {
      ghost var q := Edit(CP.Privileged(base.connection.prompt), candidate, commit, replace,
                          operations, setting, now, base.connection.device);
      var guard := base.EnableMode();
      if guard.Err? {
        assert q == Query([], Err(PrivilegeRequired));
        return Err(guard.error);
      }
      var args := ValidateEdit(candidate, commit, replace);
      if args.Err? {
        assert q == Query([], Err(args.error));
        return Err(args.error);
      }
      assert q == EditChecked(args.value, operations, setting, now, base.connection.device);
      r := EditValidated(args.value, now);
    }

    /** `edit_config` past its argument checks */
    method EditValidated(args: EditArgs, now: nat) returns (r: Result<Option<string>>)
      requires Valid()
      modifies this, base, base.connection
      ensures Valid()
      ensures var q := EditChecked(args, old(operations), setting, now, base.connection.device);
              base.Sent(q.cmds) && r == q.result
      ensures facts == old(facts)
      ensures old(operations).Some? ==> operations == old(operations)
      ensures SessionsQuery(old(operations), setting, base.connection.device).result.Ok? ==> operations.Some?
    {
      ghost var s := SessionsQuery(operations, setting, base.connection.device);
      var sessions := SupportsSessions();
      if sessions.Err? {
        return Err(sessions.error);
      }
      ghost var rest := Apply(sessions.value, args, now, base.connection.device);
      r := ApplyEdit(sessions.value, args, now);
      SentInTwo(old(base.connection.sent), old(base.history), s.cmds, rest.cmds, base.connection.device);
    }

    /** `edit_config` past the sessions question */
    method ApplyEdit(sessions: bool, args: EditArgs, now: nat) returns (r: Result<Option<string>>)
      requires Valid()
      modifies base, base.connection
      ensures Valid()
      ensures var q := Apply(sessions, args, now, base.connection.device);
              base.Sent(q.cmds) && r == q.result
    {
      if !sessions {
        r := MergeLoad(args);
      } else {
        r := RunSession(SessionName(now), Py.Truthy(args.replace), args.lines, Py.IsTrue(args.commit));
      }
    }

    /** The merge path: `_loader` over `configure` and the lines, then `end` */
    method MergeLoad(args: EditArgs) returns (r: Result<Option<string>>)
      requires Valid()
      modifies base, base.connection
      ensures Valid()
      ensures var q := Merge(args, base.connection.device);
              base.Sent(q.cmds) && r == q.result
    {
      if Py.IsTrue(args.replace) {
        return Err(ValueError("config replace not supported for merge operations"));
      }
      if Py.IsFalse(args.commit) {
        return Err(ValueError("cannot load candidate configuration when commit is False"));
      }
      var loaded := base.DirectLoad(["configure"] + args.lines);
      if loaded.Err? {
        return Err(loaded.error);
      }
      r := Ok(None);
    }

    /** The session path: open the session, then load and close it */
    method RunSession(name: string, replace: bool, lines: seq<string>, commit: bool) returns (r: Result<Option<string>>)
      requires Valid()
      modifies base, base.connection
      ensures Valid()
      ensures var q := Session(name, replace, Each(SkipEndAndComments, lines, base.connection.device), commit, base.connection.device);
              base.Sent(q.cmds) && r == q.result
    {
      ghost var open := SessionOpen(name, replace, base.connection.device);
      ghost var rest := InSession(Each(SkipEndAndComments, lines, base.connection.device), commit, base.connection.device);
      var started := OpenSession(name, replace);
      if started.Err? {
        return Err(started.error);
      }
      r := LoadInSession(lines, commit);
      SentInTwo(old(base.connection.sent), old(base.history), open.cmds, rest.cmds, base.connection.device);
    }

    /** Inside the open session: `_loader` over the lines, then the end of
        the session */
    method LoadInSession(lines: seq<string>, commit: bool) returns (r: Result<Option<string>>)
      requires Valid()
      modifies base, base.connection
      ensures Valid()
      ensures var q := InSession(Each(SkipEndAndComments, lines, base.connection.device), commit, base.connection.device);
              base.Sent(q.cmds) && r == q.result
    {
      ghost var device := base.connection.device;
      ghost var load := Each(SkipEndAndComments, lines, device);
      var loaded := base.SendLines(SkipEndAndComments, lines);
      var failure := if loaded.Err? then Some(loaded.error) else None;
      assert failure == load.failure;
      r := FinishSession(failure, commit);
      SentInTwo(old(base.connection.sent), old(base.history), load.cmds, AfterLoad(failure, commit, device).cmds, base.connection.device);
    }

    /** `configure session <name>`, and `rollback clean-config` when replacing */
    method OpenSession(name: string, replace: bool) returns (r: Result<()>)
      requires Valid()
      modifies base, base.connection
      ensures Valid()
      ensures var open := SessionOpen(name, replace, base.connection.device);
              base.Sent(open.cmds) &&
              r == if open.failure.Some? then Err(open.failure.value) else Ok(())
    {
      var configured := base.SendPlain("configure session " + name);
      if configured.Err? {
        return Err(configured.error);
      }
      if replace {
        var cleaned := base.SendPlain("rollback clean-config");
        SentInTwo(old(base.connection.sent), old(base.history), ["configure session " + name], ["rollback clean-config"], base.connection.device);
        if cleaned.Err? {
          return Err(cleaned.error);
        }
      }
      r := Ok(());
    }

    /** After the load: `abort` and the load's error raised again, unless
        `abort` raised first; or, after a clean load, the diff, `commit` or
        `abort`, and `end` */
    method FinishSession(failure: Option<Error>, commit: bool) returns (r: Result<Option<string>>)
      requires Valid()
      modifies base, base.connection
      ensures Valid()
      ensures var q := AfterLoad(failure, commit, base.connection.device);
              base.Sent(q.cmds) && r == q.result
    {
      if failure.Some? {
        var aborted := base.SendPlain("abort");
        if aborted.Err? {
          return Err(aborted.error);
        }
        return Err(failure.value);
      }
      r := CloseSession(commit);
    }

    /** After a clean load: the diff, then `commit` or `abort` and `end` */
    method CloseSession(commit: bool) returns (r: Result<Option<string>>)
      requires Valid()
      modifies base, base.connection
      ensures Valid()
      ensures var q := SessionClose(commit, base.connection.device);
              base.Sent(q.cmds) && r == q.result
    {
      var diff := base.SendPlain(DiffCommand);
      if diff.Err? {
        return Err(diff.error);
      }
      var text := StripIfAny(diff.value);
      ghost var end := SessionEnd(commit, base.connection.device);
      var ended := EndSession(commit);
      SentInTwo(old(base.connection.sent), old(base.history), [DiffCommand], end.cmds, base.connection.device);
      if ended.Err? {
        return Err(ended.error);
      }
      r := Ok(Some(text));
    }

    /** `commit` or `abort`, then `end` */
    method EndSession(commit: bool) returns (r: Result<()>)
      requires Valid()
      modifies base, base.connection
      ensures Valid()
      ensures var q := SessionEnd(commit, base.connection.device);
              base.Sent(q.cmds) && r == q.result
    {
      var closing := if commit then "commit" else "abort";
      var closed := base.SendPlain(closing);
      if closed.Err? {
        return Err(closed.error);
      }
      var ended := base.SendPlain("end");
      SentInTwo(old(base.connection.sent), old(base.history), [closing], ["end"], base.connection.device);
      if ended.Err? {
        return Err(ended.error);
      }
      r := Ok(());
    }
  }

  /** `get_operations`, an `edit_config`, then `get_operations` again: the
      table is computed at most once, so once the first call has answered,
      the second gives the same answer and sends nothing. */
  method OperationsSurviveEdit(adapter: Cliconf, key: Option<string>, candidate: Option<string>,
                               commit: Py.Value, replace: Py.Value, now: nat)
      returns (first: Result<CP.Answer<bool>>, second: Result<CP.Answer<bool>>)
    requires adapter.Valid()
    modifies adapter, adapter.base, adapter.base.connection
    ensures first.Ok? ==> second == first
  {
    first := adapter.GetOperations(key);
    var edited := adapter.EditConfig(candidate, commit, replace, now);
    second := adapter.GetOperations(key);
  }
}
