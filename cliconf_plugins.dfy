/** The base of every device adapter: the command executor with its audit
    history, the privilege guard, the rpc list, the capabilities record, the
    argument checks every `edit_config` starts with, and the key lookup that
    `get_operations` and `get_facts` share. */
module CliconfPlugins {
  import opened Outcomes
  import Py = PyValues
  import opened Text
  import opened Transport
  import opened Script
  import opened Patterns

  /** `CliconfBase.__rpc__` */
  const BaseRpc: seq<string> := ["get_config", "edit_config", "get_capabilities", "get"]

  /** The test `enable_mode` applies to the prompt before it lets the wrapped
      operation run. */
  predicate Privileged(prompt: string) {
    var t := Strip(prompt);
    t != [] && t[|t| - 1] == '#'
  }

  /** The prompt ends in '#' followed only by whitespace. */
  predicate EndsInHash(prompt: string) {
    exists i :: 0 <= i < |prompt| && prompt[i] == '#' && OnlySpaceAfter(prompt, i)
  }

  predicate OnlySpaceAfter(s: string, i: nat) {
    forall j :: i < j < |s| ==> IsSpace(s[j])
  }

  /** The prompt passes the guard exactly when its last non-blank character
      is '#'. */
  lemma PrivilegedIff(prompt: string)
    ensures Privileged(prompt) <==> EndsInHash(prompt)
  {
    if Privileged(prompt) {
      PrivilegedEndsInHash(prompt);
    }
    if EndsInHash(prompt) {
      var i :| 0 <= i < |prompt| && prompt[i] == '#' && OnlySpaceAfter(prompt, i);
      EndsInHashPrivileged(prompt, i);
    }
  }

  lemma PrivilegedEndsInHash(prompt: string)
    requires Privileged(prompt)
    ensures EndsInHash(prompt)
  {
    var l := LStrip(prompt);
    var k := |prompt| - |l|;
    var t := RStrip(l);
    assert Strip(prompt) == t;
    var i := k + |t| - 1;
    assert l == prompt[k..];
    assert t == l[..|t|];
    assert prompt[i] == l[|t| - 1] == t[|t| - 1];
    forall j | i < j < |prompt| ensures IsSpace(prompt[j]) {
      assert prompt[j] == l[j - k];
      assert |t| <= j - k < |l|;
    }
    assert OnlySpaceAfter(prompt, i);
  }

  lemma EndsInHashPrivileged(prompt: string, i: nat)
    requires 0 <= i < |prompt| && prompt[i] == '#' && OnlySpaceAfter(prompt, i)
    ensures Privileged(prompt)
  {
    var l := LStrip(prompt);
    var k := |prompt| - |l|;
    LStripKeeps(prompt, i);
    var t := RStrip(l);
    RStripKeeps(l, i - k);
    assert t[|t| - 1] == l[|t| - 1] == prompt[|t| - 1 + k];
    assert |t| - 1 + k == i;
    assert Strip(prompt) == t;
  }

  /** The keyword arguments of `send_command` after `command` */
  datatype SendOptions = SendOptions(
    prompt: Option<string>,
    answer: Option<string>,
    sendonly: Py.Value,
    newline: Py.Value,
    promptRetryCheck: Py.Value,
    nolog: Py.Value)

  /** `send_command(command)` with every keyword argument left at its default */
  const Defaults := SendOptions(None, None, Py.Bool(false), Py.Bool(true), Py.Bool(false), Py.Bool(true))

  /** The first of `sendonly`, `newline`, `prompt_retry_check` that is not
      None, True or False, if any; `send_command` raises naming it. */
  function FirstBadFlag(o: SendOptions): (r: Option<Py.Value>)
    ensures r.None? <==> Py.IsFlag(o.sendonly) && Py.IsFlag(o.newline) && Py.IsFlag(o.promptRetryCheck)
    ensures r.Some? ==> !Py.IsFlag(r.value)
    ensures r.Some? ==> r.value == o.sendonly || (Py.IsFlag(o.sendonly) && r.value == o.newline)
                        || (Py.IsFlag(o.sendonly) && Py.IsFlag(o.newline) && r.value == o.promptRetryCheck)
  {
    if !Py.IsFlag(o.sendonly) then Some(o.sendonly)
    else if !Py.IsFlag(o.newline) then Some(o.newline)
    else if !Py.IsFlag(o.promptRetryCheck) then Some(o.promptRetryCheck)
    else None
  }

  /** The request `send_command` builds: the command and the three flags
      always, prompt and answer only when given */
  function RequestFor(command: string, o: SendOptions): Request {
    Request(command, o.sendonly, o.newline, o.promptRetryCheck, o.prompt, o.answer)
  }

  /** The answer of `get_operations(key)` or `get_facts(key)`: the whole table
      when no key is given, else `table.get(key)` */
  datatype Answer<V> = Whole(entries: map<string, V>) | Single(value: Option<V>)

  /** `if key:` */
  predicate KeyGiven(key: Option<string>) {
    key.Some? && key.value != ""
  }

  function Lookup<V>(table: map<string, V>, key: Option<string>): (r: Answer<V>)
    ensures !KeyGiven(key) ==> r == Whole(table)
    ensures KeyGiven(key) ==> r.Single? && (r.value.Some? <==> key.value in table)
    ensures KeyGiven(key) && key.value in table ==> r.value == Some(table[key.value])
  {
    if KeyGiven(key) then Single(if key.value in table then Some(table[key.value]) else None)
    else Whole(table)
  }

  /** A table computed on first use, as `get_operations` and `get_facts`
      keep them: a cached table answers without sending anything; otherwise
      the table is computed, its commands are sent, and its error, if any,
      propagates. */
  function Cached<V>(cache: Option<map<string, V>>, computed: Query<map<string, V>>, key: Option<string>): (q: Query<Answer<V>>)
    ensures cache.Some? ==> q == Query([], Ok(Lookup(cache.value, key)))
    ensures cache.None? ==> q.cmds == computed.cmds && (q.result.Ok? <==> computed.result.Ok?)
    ensures cache.None? && computed.result.Ok? ==> q.result.value == Lookup(computed.result.value, key)
  {
    if cache.Some? then Query([], Ok(Lookup(cache.value, key)))
    else Query(computed.cmds, if computed.result.Ok? then Ok(Lookup(computed.result.value, key)) else Err(computed.result.error))
  }

  /** Caching changes what is sent, never the answer: once the computed
      table is stored, a later call with any key sends nothing and answers
      as a call that computed the table afresh would. */
  lemma CachedTransparent<V>(computed: Query<map<string, V>>, key: Option<string>)
    requires computed.result.Ok?
    ensures Cached(Some(computed.result.value), computed, key).cmds == []
    ensures Cached(Some(computed.result.value), computed, key).result == Cached(None, computed, key).result
  {
  }

  /** A keyed lookup gives the entry the whole table holds for that key. */
  lemma LookupAgreesWithWhole<V>(table: map<string, V>, key: string)
    requires key != ""
    ensures Lookup(table, Some(key)).value == if key in Lookup(table, None).entries then Some(Lookup(table, None).entries[key]) else None
  {
  }

  /** `get_facts` as ios and asa write it: without a key it returns
      `self._device.facts`, an attribute that does not exist; the
      AttributeError is caught, the facts are computed and cached again, and
      `get_facts(key)` is called again with the same missing key. `depth` is
      the number of nested calls the interpreter still allows. */
  function FactsAsWritten<V>(cache: Option<map<string, V>>, computed: Query<map<string, V>>, key: Option<string>, depth: nat): Query<Answer<V>>
    decreases depth
  {
    if depth == 0 then Query([], Err(RecursionError))
    else if KeyGiven(key) && cache.Some? then Query([], Ok(Lookup(cache.value, key)))
    else if computed.result.Err? then Query(computed.cmds, Err(computed.result.error))
    else
      var rest := FactsAsWritten(Some(computed.result.value), computed, key, depth - 1);
      Query(computed.cmds + rest.cmds, rest.result)
  }

  /** `n` copies of `cmds` */
  function Repeat(cmds: seq<string>, n: nat): (r: seq<string>)
    ensures |r| == n * |cmds|
  {
    if n == 0 then [] else cmds + Repeat(cmds, n - 1)
  }

  /** As written, asking for all facts never answers: every nested call
      sends the facts commands again until the recursion limit is hit, while
      the corrected lookup answers with the whole table. */
  lemma {:induction false} FactsAsWrittenRecurses<V>(cache: Option<map<string, V>>, computed: Query<map<string, V>>, key: Option<string>, depth: nat)
    requires !KeyGiven(key) && computed.result.Ok?
    ensures FactsAsWritten(cache, computed, key, depth) == Query(Repeat(computed.cmds, depth), Err(RecursionError))
    ensures Cached(None, computed, key).result == Ok(Whole(computed.result.value))
    decreases depth
  {
    if depth > 0 {
      FactsAsWrittenRecurses(Some(computed.result.value), computed, key, depth - 1);
    }
  }

  /** The keys a facts table may hold */
  const FactKeys: set<string> := {"network_os", "network_os_version", "network_os_model", "network_os_hostname"}

  /** `key` is set exactly when `p` matches `data`, and then to the group of
      the leftmost match (what `Search` returns). */
  predicate Extracted(facts: map<string, string>, key: string, p: Pattern, data: string) {
    (key in facts <==> Search(p, data).Some?) && (key in facts ==> facts[key] == Search(p, data).value)
  }

  /** `match = re.search(p, data); if match: facts[key] = match.group(1)` */
  function WithMatch(facts: map<string, string>, key: string, p: Pattern, data: string): (r: map<string, string>)
    requires key !in facts
    ensures Extracted(r, key, p, data)
    ensures r.Keys <= facts.Keys + {key}
    ensures forall k :: k != key ==> (k in r <==> k in facts)
    ensures forall k :: k != key && k in facts ==> r[k] == facts[k]
  {
    match Search(p, data)
    case None => facts
    case Some(v) => facts[key := v]
  }

  /** `{'running': 'running-config', 'startup': 'startup-config'}` */
  const ConfigSources: map<string, string> := map["running" := "running-config", "startup" := "startup-config"]

  /** The command `get_config` sends for a supported source: `show <name> `
      followed by the filters joined with blanks, all stripped. A filter given
      as one string is the one-element list `to_list` makes of it. */
  function ShowConfig(source: string, filter: Option<seq<string>>): (r: Option<string>)
    ensures r.Some? <==> source in ConfigSources
  {
    if source !in ConfigSources then None
    else
      var flags := if filter.None? then [] else filter.value;
      Some(Strip("show " + ConfigSources[source] + " " + Join(flags, " ")))
  }

  /** Without filters the command is `show running-config` or `show
      startup-config`. */
  lemma ShowConfigBare(source: string, filter: Option<seq<string>>)
    requires source in ConfigSources
    requires filter.None? || filter.value == []
    ensures ShowConfig(source, filter) == Some("show " + ConfigSources[source])
  {
    ShowConfigFiltered(source, []);
  }

  /** With any filters the command is `show <name>-config`, then, unless the
      joined filters are all whitespace, a blank and the joined filters with
      their trailing whitespace stripped (leading whitespace of the filters
      survives, since only the ends of the whole command are stripped). */
  lemma ShowConfigFiltered(source: string, flags: seq<string>)
    requires source in ConfigSources
    ensures var joined := RStrip(Join(flags, " "));
            ShowConfig(source, Some(flags))
            == Some(if joined == "" then "show " + ConfigSources[source] else "show " + ConfigSources[source] + " " + joined)
  {
    ShowConfigWord(source);
    StripWordThenBlank("show " + ConfigSources[source], Join(flags, " "));
  }

  /** Filters whose joined text is not empty and does not end in whitespace
      appear in the command unchanged, after one blank. */
  lemma ShowConfigKeepsFilters(source: string, flags: seq<string>)
    requires source in ConfigSources
    requires Join(flags, " ") != "" && !IsSpace(Join(flags, " ")[|Join(flags, " ")| - 1])
    ensures ShowConfig(source, Some(flags)) == Some("show " + ConfigSources[source] + " " + Join(flags, " "))
  {
    ShowConfigFiltered(source, flags);
    RStripOfUnspaced(Join(flags, " "));
  }

  lemma ShowConfigWord(source: string)
    requires source in ConfigSources
    ensures IsStripped("show " + ConfigSources[source])
  {
    var word := "show " + ConfigSources[source];
    assert word == "show running-config" || word == "show startup-config";
  }

  /** `get_config` on eos, ios and asa: the privilege check, then the source
      check (which raises `unsupported`), then one command */
  function ConfigQuery(privileged: bool, source: string, filter: Option<seq<string>>, unsupported: Error, device: Device): Query<string> {
    if !privileged then Query([], Err(PrivilegeRequired))
    else match ShowConfig(source, filter)
      case None => Query([], Err(unsupported))
      case Some(command) => Query([command], device.Answer(command))
  }

  /** The `device_info` part of the capabilities record */
  datatype DeviceInfo = DeviceInfo(
    networkOs: Option<string>,
    version: Option<string>,
    model: Option<string>,
    hostname: Option<string>)

  /** The `operations` part of the capabilities record */
  datatype OperationFlags = OperationFlags(commit: bool, replace: bool, diff: bool)

  datatype Capabilities = Capabilities(
    networkApi: string,
    rpc: seq<string>,
    deviceInfo: DeviceInfo,
    operations: OperationFlags)

  class CliconfBase {
    const connection: Connection
    /** `__rpc__`, which a subclass may override */
    const rpc: seq<string>
    /** the class attributes `network_os`, `network_os_version`, ... */
    const deviceInfo: DeviceInfo
    /** the class attributes `supports_commit`, `supports_replace`, `supports_diff` */
    const supports: OperationFlags
    var history: seq<Entry>

    /** The history is exactly the literal transcript of the exchanges the
        device completed: a request that raised leaves no entry, and no entry
        is ever the redaction marker. */
    ghost predicate Valid()
      reads this, connection
    {
      history == connection.answered
    }

    /** Between the state before and the state now, exactly the requests for
        `cmds` went out, in order, and the history grew by exactly the
        exchanges the device completed among them. */
    twostate predicate Sent(cmds: seq<string>)
      reads this, connection
    {
      connection.sent == old(connection.sent) + PlainAll(cmds)
      && history == old(history) + Answered(cmds, connection.device)
    }

    /** The adapter owns its connection from the start. */
    constructor (connection: Connection, rpc: seq<string>)
      requires connection.answered == []
      ensures Valid()
      ensures this.connection == connection && this.rpc == rpc && history == []
      ensures deviceInfo == DeviceInfo(None, None, None, None)
      ensures supports == OperationFlags(false, false, false)
    {
      this.connection := connection;
      this.rpc := rpc;
      deviceInfo := DeviceInfo(None, None, None, None);
      supports := OperationFlags(false, false, false);
      history := [];
    }

    /** `enable_mode`: the check made before a privileged operation runs */
    method EnableMode() returns (r: Result<()>)
      ensures r.Ok? <==> Privileged(connection.prompt)
      ensures r.Err? ==> r.error == PrivilegeRequired
    {
      var prompt := connection.GetPrompt();
      if !Privileged(prompt) {
        return Err(PrivilegeRequired);
      }
      return Ok(());
    }

    /** Sends one command. A bad flag raises before anything is sent. Otherwise
        the request goes to the device and its reply comes back unchanged;
        when the device answers, exactly one literal entry is appended to the
        history (`nolog` is overwritten with False before it is read, so the
        redacted entry is never written). */
    method SendCommand(command: string, options: SendOptions) returns (r: Result<string>)
      requires Valid()
      modifies this, connection
      ensures Valid()
      ensures FirstBadFlag(options).Some? ==>
                r == Err(BadValue("invalid value for ", FirstBadFlag(options).value))
                && connection.sent == old(connection.sent) && history == old(history)
      ensures FirstBadFlag(options).None? ==>
                connection.sent == old(connection.sent) + [RequestFor(command, options)]
                && r == connection.device.Answer(command)
                && history == old(history) + (if r.Ok? then [(command, r.value)] else [])
    {
      var bad := FirstBadFlag(options);
      if bad.Some? {
        return Err(BadValue("invalid value for ", bad.value));
      }
      var request := RequestFor(command, options);
      r := connection.Send(request);
      assert connection.sent[..|connection.sent| - 1] == old(connection.sent);
      if r.Ok? {
        history := history + [(command, r.value)];
      }
    }

    /** `get`: `send_command` with `prompt_retry_check` and `nolog` at their
        defaults */
    method Get(command: string, prompt: Option<string>, answer: Option<string>, sendonly: Py.Value, newline: Py.Value)
      returns (r: Result<string>)
      requires Valid()
      modifies this, connection
      ensures Valid()
      ensures !Py.IsFlag(sendonly) || !Py.IsFlag(newline) ==>
                r == Err(BadValue("invalid value for ", if !Py.IsFlag(sendonly) then sendonly else newline))
                && connection.sent == old(connection.sent) && history == old(history)
      ensures Py.IsFlag(sendonly) && Py.IsFlag(newline) ==>
                connection.sent == old(connection.sent) + [Request(command, sendonly, newline, Py.Bool(false), prompt, answer)]
                && r == connection.device.Answer(command)
                && history == old(history) + (if r.Ok? then [(command, r.value)] else [])
    {
      r := SendCommand(command, SendOptions(prompt, answer, sendonly, newline, Py.Bool(false), Py.Bool(true)));
    }

    /** `get_base_rpc` */
    function GetBaseRpc(): (r: seq<string>)
      ensures r == rpc
    {
      rpc
    }

    /** `get_history`: every answered command with its reply, in the order sent */
    method GetHistory() returns (h: seq<Entry>)
      requires Valid()
      ensures h == connection.answered
    {
      h := history;
    }

    /** `get_capabilities` */
    function GetCapabilities(): (c: Capabilities)
      ensures c.networkApi == "cliconf"
      ensures c.rpc == GetBaseRpc()
      ensures c.deviceInfo == deviceInfo && c.operations == supports
    {
      Capabilities("cliconf", rpc, deviceInfo, supports)
    }

    /** The default `commit`. It builds its method-not-found message from
        `self._play_context`, which the adapter does not have, so the
        attribute lookup raises before the connection is consulted. */
    method Commit(comment: Option<string>) returns (r: Result<()>)
      requires Valid()
      ensures r == Err(AttributeError("_play_context"))
      ensures Valid()
    {
      r := Err(AttributeError("_play_context"));
    }

    /** The default `discard_changes`, which fails the same way */
    method DiscardChanges() returns (r: Result<()>)
      requires Valid()
      ensures r == Err(AttributeError("_play_context"))
      ensures Valid()
    {
      r := Err(AttributeError("_play_context"));
    }

    /** `send_command(command)` with every other argument at its default, as
        the vendor adapters call it */
    method SendPlain(command: string) returns (r: Result<string>)
      requires Valid()
      modifies this, connection
      ensures Valid()
      ensures Sent([command])
      ensures r == connection.device.Answer(command)
    {
      r := SendCommand(command, Defaults);
    }

    /** The body of the eos, ios and asa `get_config` under `enable_mode` */
    method GetConfigGuarded(source: string, filter: Option<seq<string>>, unsupported: Error) returns (r: Result<string>)
      requires Valid()
      modifies this, connection
      ensures Valid()
      ensures var q := ConfigQuery(Privileged(connection.prompt), source, filter, unsupported, connection.device);
              Sent(q.cmds) && r == q.result
    {
      var guard := EnableMode();
      if guard.Err? {
        return Err(guard.error);
      }
      var command := ShowConfig(source, filter);
      if command.None? {
        return Err(unsupported);
      }
      r := SendPlain(command.value);
    }

    /** The ios and asa `edit_config` under `enable_mode` */
    method DirectEditGuarded(candidate: Option<string>, commit: Py.Value, replace: Py.Value) returns (r: Result<()>)
      requires Valid()
      modifies this, connection
      ensures Valid()
      ensures var q := DirectEdit(Privileged(connection.prompt), candidate, commit, replace, connection.device);
              Sent(q.cmds) && r == q.result
    {
      ghost var q := DirectEdit(Privileged(connection.prompt), candidate, commit, replace, connection.device);
      var guard := EnableMode();
      if guard.Err? {
        assert q == Query([], Err(PrivilegeRequired));
        return Err(guard.error);
      }
      assert q == DirectEdit(true, candidate, commit, replace, connection.device);
      r := DirectEditChecked(candidate, commit, replace);
    }

    /** The body of the ios and asa `edit_config` */
    method DirectEditChecked(candidate: Option<string>, commit: Py.Value, replace: Py.Value) returns (r: Result<()>)
      requires Valid()
      modifies this, connection
      ensures Valid()
      ensures var q := DirectEdit(true, candidate, commit, replace, connection.device);
              Sent(q.cmds) && r == q.result
    {
      ghost var q := DirectEdit(true, candidate, commit, replace, connection.device);
      var args := ValidateEdit(candidate, commit, replace);
      if args.Err? {
        assert q == Query([], Err(args.error));
        return Err(args.error);
      }
      if Py.IsTrue(args.value.commit) || Py.IsTrue(args.value.replace) {
        assert q == Query([], Err(ValueError("commit and/or replace are not supported on this platform")));
        return Err(ValueError("commit and/or replace are not supported on this platform"));
      }
      assert q == Finish(DirectApply(args.value.lines, connection.device), ());
      r := DirectLoad(args.value.lines);
    }

    /** Loading lines straight into the running configuration: the filtered
        lines, then `end` */
    method DirectLoad(lines: seq<string>) returns (r: Result<()>)
      requires Valid()
      modifies this, connection
      ensures Valid()
      ensures Sent(DirectApply(lines, connection.device).cmds)
      ensures r == Finish(DirectApply(lines, connection.device), ()).result
    {
      ghost var run := Each(SkipEndAndComments, lines, connection.device);
      var loaded := SendLines(SkipEndAndComments, lines);
      if loaded.Err? {
        return loaded;
      }
      var ended := SendPlain("end");
      SentInTwo(old(connection.sent), old(history), run.cmds, ["end"], connection.device);
      if ended.Err? {
        return Err(ended.error);
      }
      r := Ok(());
    }

    /** The loop the vendors write out to load a candidate line by line:
        `send_command` on each line `rule` lets through, stopping at the
        first error (for the filtering rule, an empty line raises IndexError
        when `line[0]` is read). */
    method SendLines(rule: LineRule, lines: seq<string>) returns (r: Result<()>)
      requires Valid()
      modifies this, connection
      ensures Valid()
      ensures Sent(Each(rule, lines, connection.device).cmds)
      ensures r == Finish(Each(rule, lines, connection.device), ()).result
    {
      var device := connection.device;
      ghost var start := connection.sent;
      ghost var startHistory := history;
      var i := 0;
      while i < |lines|
        invariant 0 <= i <= |lines|
        invariant Valid()
        invariant Clean(rule, lines[..i], device)
        invariant connection.sent == start + PlainAll(Filtered(rule, lines[..i]))
        invariant history == startHistory + Answered(Filtered(rule, lines[..i]), device)
      {
        StepForward(rule, lines, i, device);
        var step := SendLine(rule, lines[i]);
        SentInTwo(start, startHistory, Filtered(rule, lines[..i]), Step(rule, lines[i], device).cmds, device);
        if step.Err? {
          StopsAt(rule, lines, device, i);
          return step;
        }
        i := i + 1;
      }
      assert lines[..i] == lines;
      EachClean(rule, lines, device);
      r := Ok(());
    }

    /** One iteration of that loop */
    method SendLine(rule: LineRule, line: string) returns (r: Result<()>)
      requires Valid()
      modifies this, connection
      ensures Valid()
      ensures Sent(Step(rule, line, connection.device).cmds)
      ensures r == Finish(Step(rule, line, connection.device), ()).result
    {
      if rule.SkipEndAndComments? && line == "" {
        return Err(IndexError);
      }
      if Sends(rule, line) {
        var reply := SendPlain(line);
        if reply.Err? {
          return Err(reply.error);
        }
      }
      r := Ok(());
    }
  }
}
