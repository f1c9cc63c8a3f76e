/** Reference definitions of what the adapters' configuration operations send
    and return, written as values: a `Run` is the commands handed to the
    device in order together with the error that stopped them, if any. The
    adapter methods are proved to behave exactly as these definitions say;
    the lemmas here give their closed forms. */
module Script {
  import opened Outcomes
  import opened Text
  import opened Transport
  import Py = PyValues

  datatype Run = Run(cmds: seq<string>, failure: Option<Error>)

  const Done := Run([], None)

  /** One `send_command(command)` */
  function Issue(command: string, device: Device): (r: Run)
    ensures r.cmds == [command]
    ensures r.failure.None? <==> command !in device.rejected
    ensures r.failure.Some? ==> r.failure.value == DeviceError(command)
  {
    Run([command], if command in device.rejected then Some(DeviceError(command)) else None)
  }

  /** `a` followed by `b`; an error in `a` propagates and `b` never starts */
  function Then(a: Run, b: Run): (r: Run)
    ensures a.failure.Some? ==> r == a
    ensures a.failure.None? ==> r.cmds == a.cmds + b.cmds && r.failure == b.failure
  {
    if a.failure.Some? then a else Run(a.cmds + b.cmds, b.failure)
  }

  /** Doing nothing before or after a run leaves it unchanged. */
  lemma ThenDone(a: Run)
    ensures Then(Done, a) == a && Then(a, Done) == a
  {
  }

  /** Sequencing is associative, so a chain of steps reads the same
      however it is grouped. */
  lemma ThenAssoc(a: Run, b: Run, c: Run)
    ensures Then(Then(a, b), c) == Then(a, Then(b, c))
  {
  }

  /** How a loop sends the lines of a candidate: every line (vyos), or only
      the lines that are not `end` and do not start with `!`, reading
      `line[0]` to decide (eos `_loader`, ios and asa `edit_config`) */
  datatype LineRule = SendAll | SkipEndAndComments

  /** The line is sent by a loop that follows `rule`. */
  predicate Sends(rule: LineRule, line: string) {
    rule.SendAll? || (line != "end" && line != "" && line[0] != '!')
  }

  /** The line goes through without raising: it is not the empty line whose
      `line[0]` fails, and the device accepts it if it is sent. */
  predicate Fine(rule: LineRule, line: string, device: Device) {
    (rule.SendAll? || line != "") && (Sends(rule, line) ==> line !in device.rejected)
  }

  predicate Clean(rule: LineRule, lines: seq<string>, device: Device) {
    forall k :: 0 <= k < |lines| ==> Fine(rule, lines[k], device)
  }

  /** The lines a loop following `rule` sends, in order */
  function Filtered(rule: LineRule, lines: seq<string>): seq<string> {
    if lines == [] then []
    else (if Sends(rule, lines[0]) then [lines[0]] else []) + Filtered(rule, lines[1..])
  }

  /** One iteration of such a loop */
  function Step(rule: LineRule, line: string, device: Device): (r: Run)
    ensures r.cmds == if Sends(rule, line) then [line] else []
    ensures r.failure.None? <==> Fine(rule, line, device)
  {
    match rule
    case SendAll => Issue(line, device)
    case SkipEndAndComments =>
      if line == "end" then Done
      else if line == "" then Run([], Some(IndexError))
      else if line[0] == '!' then Done
      else Issue(line, device)
  }

  /** The whole loop */
  function Each(rule: LineRule, lines: seq<string>, device: Device): Run {
    if lines == [] then Done
    else Then(Step(rule, lines[0], device), Each(rule, lines[1..], device))
  }

  lemma {:induction false} EachConcat(rule: LineRule, a: seq<string>, b: seq<string>, device: Device)
    ensures Each(rule, a + b, device) == Then(Each(rule, a, device), Each(rule, b, device))
  {
    if a == [] {
      assert a + b == b;
    } else {
      assert (a + b)[0] == a[0];
      assert (a + b)[1..] == a[1..] + b;
      EachConcat(rule, a[1..], b, device);
      ThenAssoc(Step(rule, a[0], device), Each(rule, a[1..], device), Each(rule, b, device));
    }
  }

  lemma {:induction false} FilteredConcat(rule: LineRule, a: seq<string>, b: seq<string>)
    ensures Filtered(rule, a + b) == Filtered(rule, a) + Filtered(rule, b)
  {
    if a == [] {
      assert a + b == b;
    } else {
      assert (a + b)[0] == a[0];
      assert (a + b)[1..] == a[1..] + b;
      FilteredConcat(rule, a[1..], b);
    }
  }

  /** One more iteration of the loop: what it sends and whether the prefix
      stays clean */
  lemma StepForward(rule: LineRule, lines: seq<string>, i: nat, device: Device)
    requires i < |lines|
    ensures Filtered(rule, lines[..i + 1]) == Filtered(rule, lines[..i]) + Step(rule, lines[i], device).cmds
    ensures Clean(rule, lines[..i], device) && Fine(rule, lines[i], device) ==> Clean(rule, lines[..i + 1], device)
  {
    assert lines[..i + 1] == lines[..i] + [lines[i]];
    FilteredConcat(rule, lines[..i], [lines[i]]);
    assert Filtered(rule, [lines[i]]) == Step(rule, lines[i], device).cmds by {
      assert [lines[i]][1..] == [];
    }
  }

  /** A loop over clean lines sends exactly the lines its rule lets through. */
  lemma {:induction false} EachClean(rule: LineRule, lines: seq<string>, device: Device)
    requires Clean(rule, lines, device)
    ensures Each(rule, lines, device) == Run(Filtered(rule, lines), None)
  {
    if lines != [] {
      assert Fine(rule, lines[0], device);
      EachClean(rule, lines[1..], device);
    }
  }

  /** A loop stops at its first troublesome line: it has sent what the rule
      lets through up to and including that line, and raises that line's
      error. */
  lemma EachStopsAt(rule: LineRule, lines: seq<string>, device: Device, k: nat)
    requires k < |lines| && !Fine(rule, lines[k], device)
    requires Clean(rule, lines[..k], device)
    ensures Each(rule, lines, device) == Run(Filtered(rule, lines[..k + 1]), Step(rule, lines[k], device).failure)
  {
    assert lines == lines[..k] + lines[k..];
    EachConcat(rule, lines[..k], lines[k..], device);
    EachClean(rule, lines[..k], device);
    assert lines[..k + 1] == lines[..k] + [lines[k]];
    FilteredConcat(rule, lines[..k], [lines[k]]);
    assert Filtered(rule, [lines[k]]) == Step(rule, lines[k], device).cmds by {
      assert [lines[k]][1..] == [];
    }
  }

  /** `EachStopsAt` as the outcome of an operation that runs the loop */
  lemma StopsAt(rule: LineRule, lines: seq<string>, device: Device, k: nat)
    requires k < |lines| && !Fine(rule, lines[k], device)
    requires Clean(rule, lines[..k], device)
    ensures Each(rule, lines, device).cmds == Filtered(rule, lines[..k + 1])
    ensures Finish(Each(rule, lines, device), ()).result == Err(Step(rule, lines[k], device).failure.value)
  {
    EachStopsAt(rule, lines, device, k);
  }

  /** The loop raises exactly when some line is troublesome; what it sent is
      always a prefix of what a clean run would send. */
  lemma {:induction false} EachSpec(rule: LineRule, lines: seq<string>, device: Device)
    ensures Each(rule, lines, device).failure.None? <==> Clean(rule, lines, device)
    ensures Clean(rule, lines, device) ==> Each(rule, lines, device).cmds == Filtered(rule, lines)
    ensures Each(rule, lines, device).cmds <= Filtered(rule, lines)
  {
    if Clean(rule, lines, device) {
      EachClean(rule, lines, device);
    } else {
      var k := FirstTrouble(rule, lines, device);
      EachStopsAt(rule, lines, device, k);
      assert lines == lines[..k + 1] + lines[k + 1..];
      FilteredConcat(rule, lines[..k + 1], lines[k + 1..]);
    }
  }

  /** The index of the first troublesome line */
  function FirstTrouble(rule: LineRule, lines: seq<string>, device: Device): (k: nat)
    requires !Clean(rule, lines, device)
    ensures k < |lines| && !Fine(rule, lines[k], device) && Clean(rule, lines[..k], device)
  {
    if !Fine(rule, lines[0], device) then 0
    else
      var k := FirstTrouble(rule, lines[1..], device);
      assert lines[..k + 1] == [lines[0]] + lines[1..][..k];
      k + 1
  }

  /** Lines the device saw: `end` is never among them when the loop skips it. */
  lemma {:induction false} FilteredSkipsEnd(lines: seq<string>)
    ensures "end" !in Filtered(SkipEndAndComments, lines)
  {
    if lines != [] {
      FilteredSkipsEnd(lines[1..]);
    }
  }

  /** A loop that sends every line sends exactly the lines. */
  lemma {:induction false} FilteredAll(lines: seq<string>)
    ensures Filtered(SendAll, lines) == lines
  {
    if lines != [] {
      FilteredAll(lines[1..]);
    }
  }

  /** The arguments of `edit_config` once checked: the candidate's lines and
      the normalised `commit` and `replace` */
  datatype EditArgs = EditArgs(lines: seq<string>, commit: Py.Value, replace: Py.Value)

  /** The checks every `edit_config` starts with: `commit` and `replace`, after
      `x or False`, must be in `(True, False)`, and a candidate is required;
      the candidate text is stripped and split into lines. */
  function ValidateEdit(candidate: Option<string>, commit: Py.Value, replace: Py.Value): (r: Result<EditArgs>)
    ensures r.Ok? <==> Py.InBools(Py.OrFalse(commit)) && Py.InBools(Py.OrFalse(replace)) && candidate.Some?
    ensures !Py.InBools(Py.OrFalse(commit)) ==>
              r == Err(BadValue("`commit` must be a bool, got ", Py.OrFalse(commit)))
    ensures Py.InBools(Py.OrFalse(commit)) && !Py.InBools(Py.OrFalse(replace)) ==>
              r == Err(BadValue("`replace` must be a bool, got ", Py.OrFalse(replace)))
    ensures Py.InBools(Py.OrFalse(commit)) && Py.InBools(Py.OrFalse(replace)) && candidate.None? ==>
              r == Err(ValueError("must provide a candidate config to load"))
    ensures r.Ok? ==> Join(r.value.lines, "\n") == Strip(candidate.value)
    ensures r.Ok? ==> r.value.commit == Py.OrFalse(commit) && r.value.replace == Py.OrFalse(replace)
  {
    var c := Py.OrFalse(commit);
    var p := Py.OrFalse(replace);
    if !Py.InBools(c) then Err(BadValue("`commit` must be a bool, got ", c))
    else if !Py.InBools(p) then Err(BadValue("`replace` must be a bool, got ", p))
    else if candidate.None? then Err(ValueError("must provide a candidate config to load"))
    else Ok(EditArgs(Lines(candidate.value), c, p))
  }

  /** The commands an operation sends, and its outcome */
  datatype Query<T> = Query(cmds: seq<string>, result: Result<T>)

  /** An operation that returns `value` unless its run raised */
  function Finish<T>(run: Run, value: T): (q: Query<T>)
    ensures q.cmds == run.cmds
    ensures q.result.Ok? <==> run.failure.None?
    ensures q.result.Ok? ==> q.result.value == value
    ensures q.result.Err? ==> q.result.error == run.failure.value
  {
    Query(run.cmds, if run.failure.Some? then Err(run.failure.value) else Ok(value))
  }

  /** Loading lines straight into the running configuration: the filtered
      lines, then `end` */
  function DirectApply(lines: seq<string>, device: Device): Run {
    Then(Each(SkipEndAndComments, lines, device), Issue("end", device))
  }

  /** `end` closes a direct load exactly when every line went through, and is
      then the only `end` sent; otherwise the load stops early, having sent a
      prefix of the filtered lines and no `end` at all. */
  lemma DirectApplySpec(lines: seq<string>, device: Device)
    ensures Clean(SkipEndAndComments, lines, device) ==>
              DirectApply(lines, device) == Then(Run(Filtered(SkipEndAndComments, lines), None), Issue("end", device))
    ensures !Clean(SkipEndAndComments, lines, device) ==>
              DirectApply(lines, device).failure.Some? &&
              DirectApply(lines, device).cmds <= Filtered(SkipEndAndComments, lines) &&
              "end" !in DirectApply(lines, device).cmds
  {
    EachSpec(SkipEndAndComments, lines, device);
    FilteredSkipsEnd(lines);
  }

  /** The ios and asa `edit_config` under `enable_mode`: the privilege check,
      the argument checks, the refusal of `commit` or `replace` being `True`
      (a commit of 1 passes, since `1 is True` is false), then a direct load */
  function DirectEdit(privileged: bool, candidate: Option<string>, commit: Py.Value, replace: Py.Value, device: Device): Query<()> {
    if !privileged then Query([], Err(PrivilegeRequired))
    else match ValidateEdit(candidate, commit, replace)
      case Err(e) => Query([], Err(e))
      case Ok(args) =>
        if Py.IsTrue(args.commit) || Py.IsTrue(args.replace) then
          Query([], Err(ValueError("commit and/or replace are not supported on this platform")))
        else Finish(DirectApply(args.lines, device), ())
  }

  /** Past its checks, a direct edit is the direct load. */
  lemma DirectEditPasses(candidate: Option<string>, commit: Py.Value, replace: Py.Value, device: Device)
    requires ValidateEdit(candidate, commit, replace).Ok?
    requires !Py.IsTrue(ValidateEdit(candidate, commit, replace).value.commit)
    requires !Py.IsTrue(ValidateEdit(candidate, commit, replace).value.replace)
    ensures DirectEdit(true, candidate, commit, replace, device) ==
              Finish(Then(Each(SkipEndAndComments, ValidateEdit(candidate, commit, replace).value.lines, device), Issue("end", device)), ())
  {
  }

  /** Nothing reaches the device unless the prompt is privileged, the
      arguments are well formed and neither `commit` nor `replace` is `True`;
      each check raises its own error. */
  lemma DirectEditGuards(privileged: bool, candidate: Option<string>, commit: Py.Value, replace: Py.Value, device: Device)
    ensures var q := DirectEdit(privileged, candidate, commit, replace, device);
            var v := ValidateEdit(candidate, commit, replace);
            (q.cmds != [] ==> privileged && v.Ok? && !Py.IsTrue(v.value.commit) && !Py.IsTrue(v.value.replace)) &&
            (!privileged ==> q.result == Err(PrivilegeRequired)) &&
            (privileged && v.Err? ==> q.result == Err(v.error)) &&
            (privileged && v.Ok? && (Py.IsTrue(v.value.commit) || Py.IsTrue(v.value.replace)) ==>
               q.result == Err(ValueError("commit and/or replace are not supported on this platform")))
  {
  }

  /** Past the checks, the filtered lines go out in order followed by exactly
      one `end`, and the edit succeeds exactly when every line and `end` go
      through; a troublesome line stops the load before `end` is sent. */
  lemma DirectEditLoads(candidate: Option<string>, commit: Py.Value, replace: Py.Value, device: Device)
    requires ValidateEdit(candidate, commit, replace).Ok?
    requires !Py.IsTrue(ValidateEdit(candidate, commit, replace).value.commit)
    requires !Py.IsTrue(ValidateEdit(candidate, commit, replace).value.replace)
    ensures var lines := ValidateEdit(candidate, commit, replace).value.lines;
            var q := DirectEdit(true, candidate, commit, replace, device);
            var f := Filtered(SkipEndAndComments, lines);
            (q.result.Ok? <==> Clean(SkipEndAndComments, lines, device) && "end" !in device.rejected) &&
            (Clean(SkipEndAndComments, lines, device) ==> q.cmds == f + ["end"]) &&
            (!Clean(SkipEndAndComments, lines, device) ==> q.cmds <= f && "end" !in q.cmds)
  {
    var lines := ValidateEdit(candidate, commit, replace).value.lines;
    DirectApplySpec(lines, device);
    EachSpec(SkipEndAndComments, lines, device);
  }

  /** The command that shows what an eos configuration session changes */
  const DiffCommand := "show session-config diffs"

  /** The eos configuration session: open it (and clear it when replacing),
      then run the rest of the session in it. */
  function Session(name: string, replace: bool, load: Run, commit: bool, device: Device): Query<Option<string>> {
    var open := SessionOpen(name, replace, device);
    if open.failure.Some? then Query(open.cmds, Err(open.failure.value))
    else
      var rest := InSession(load, commit, device);
      Query(open.cmds + rest.cmds, rest.result)
  }

  /** Inside an open session: run `load`, then finish the session */
  function InSession(load: Run, commit: bool, device: Device): Query<Option<string>> {
    var after := AfterLoad(load.failure, commit, device);
    Query(load.cmds + after.cmds, after.result)
  }

  /** After the load: on an error send `abort` and raise the error again
      (the error of `abort` itself wins if that fails too); otherwise close
      the session. */
  function AfterLoad(failure: Option<Error>, commit: bool, device: Device): Query<Option<string>> {
    if failure.Some? then
      Query(["abort"], Err(if "abort" in device.rejected then DeviceError("abort") else failure.value))
    else SessionClose(commit, device)
  }

  /** A session always starts by opening itself, whatever happens next. */
  lemma SessionOpensFirst(name: string, replace: bool, load: Run, commit: bool, device: Device)
    ensures |Session(name, replace, load, commit, device).cmds| > 0
    ensures Session(name, replace, load, commit, device).cmds[0] == "configure session " + name
  {
  }

  /** `configure session <name>`, then `rollback clean-config` when replacing */
  function SessionOpen(name: string, replace: bool, device: Device): Run {
    Then(Issue("configure session " + name, device), if replace then Issue("rollback clean-config", device) else Done)
  }

  /** The end of a session whose load went through: the diff query, then
      `commit` or `abort` and `end`. The result is the stripped diff unless
      one of them raised; stripping an empty reply leaves it empty, so the
      `if diff:` guard in front of the strip changes nothing. */
  function SessionClose(commit: bool, device: Device): Query<Option<string>> {
    if DiffCommand in device.rejected then Query([DiffCommand], Err(DeviceError(DiffCommand)))
    else
      var end := SessionEnd(commit, device);
      Query([DiffCommand] + end.cmds, if end.result.Err? then Err(end.result.error) else Ok(Some(Strip(device.reply(DiffCommand)))))
  }

  /** `commit` or `abort`, then `end`, each sent only when the one before
      went through */
  function SessionEnd(commit: bool, device: Device): Query<()> {
    var closing := if commit then "commit" else "abort";
    if closing in device.rejected then Query([closing], Err(DeviceError(closing)))
    else if "end" in device.rejected then Query([closing, "end"], Err(DeviceError("end")))
    else Query([closing, "end"], Ok(()))
  }

  function SessionOpening(name: string, replace: bool): seq<string> {
    ["configure session " + name] + (if replace then ["rollback clean-config"] else [])
  }

  /** The device accepts the commands that open the session. */
  predicate OpensCleanly(name: string, replace: bool, device: Device) {
    "configure session " + name !in device.rejected && (replace ==> "rollback clean-config" !in device.rejected)
  }

  /** When the device accepts every command, a session sends the opening,
      the load, the diff query, `commit` or `abort`, and `end`, and returns
      the stripped diff. */
  lemma SessionSucceeds(name: string, replace: bool, load: Run, commit: bool, device: Device)
    requires load.failure.None?
    requires OpensCleanly(name, replace, device)
    requires DiffCommand !in device.rejected && "end" !in device.rejected
    requires (if commit then "commit" else "abort") !in device.rejected
    ensures Session(name, replace, load, commit, device) ==
              Query(SessionOpening(name, replace) + load.cmds + [DiffCommand, if commit then "commit" else "abort", "end"],
                    Ok(Some(Strip(device.reply(DiffCommand)))))
  {
    var closing := if commit then "commit" else "abort";
    assert SessionOpen(name, replace, device) == Run(SessionOpening(name, replace), None);
    assert SessionEnd(commit, device) == Query([closing, "end"], Ok(()));
    var after := AfterLoad(load.failure, commit, device);
    assert after.cmds == [DiffCommand, closing, "end"];
    assert after.result == Ok(Some(Strip(device.reply(DiffCommand))));
    assert InSession(load, commit, device).cmds == load.cmds + after.cmds;
  }

  /** A load that raises inside an open session is always followed by
      `abort` as the last command: the diff is never read, nothing is
      committed, and the operation raises. */
  lemma SessionAbortsOnLoadError(name: string, replace: bool, load: Run, commit: bool, device: Device)
    requires load.failure.Some?
    requires OpensCleanly(name, replace, device)
    ensures Session(name, replace, load, commit, device).cmds == SessionOpening(name, replace) + load.cmds + ["abort"]
    ensures Session(name, replace, load, commit, device).result.Err?
    ensures "abort" !in device.rejected ==>
              Session(name, replace, load, commit, device).result == Err(load.failure.value)
  {
  }

  /** The vyos edit once its load has run: on an error in the load send
      `exit discard` and raise again (the error of `exit discard` itself wins
      if that fails too); otherwise compare, then commit or `exit discard`.
      The result is the stripped comparison. */
  function CommitDiscard(load: Run, commit: bool, device: Device): Query<string> {
    if load.failure.Some? then
      var discard := Issue("exit discard", device);
      Query(load.cmds + ["exit discard"],
            Err(if discard.failure.Some? then discard.failure.value else load.failure.value))
    else
      var close := CompareAndClose(commit, device);
      Query(load.cmds + close.cmds, close.result)
  }

  /** The end of a vyos edit whose load went through: `compare`, then, if
      that went through, `commit` or `exit discard`; the result is the
      stripped comparison unless one of the two raised. */
  function CompareAndClose(commit: bool, device: Device): Query<string> {
    var closing := if commit then "commit" else "exit discard";
    if "compare" in device.rejected then Query(["compare"], Err(DeviceError("compare")))
    else if closing in device.rejected then Query(["compare", closing], Err(DeviceError(closing)))
    else Query(["compare", closing], Ok(Strip(device.reply("compare"))))
  }

  /** The vyos load: configuration mode, then every line unfiltered */
  function ConfigureAll(lines: seq<string>, device: Device): Run {
    Each(SendAll, ["configure"] + lines, device)
  }

  /** When the device accepts every command, vyos sends `configure`, the
      lines, `compare`, and `commit` or `exit discard`, and returns the
      stripped comparison. */
  lemma CommitDiscardSucceeds(lines: seq<string>, commit: bool, device: Device)
    requires Clean(SendAll, ["configure"] + lines, device)
    requires "compare" !in device.rejected && (if commit then "commit" else "exit discard") !in device.rejected
    ensures CommitDiscard(ConfigureAll(lines, device), commit, device) ==
              Query(["configure"] + lines + ["compare", if commit then "commit" else "exit discard"],
                    Ok(Strip(device.reply("compare"))))
  {
    EachClean(SendAll, ["configure"] + lines, device);
    FilteredAll(["configure"] + lines);
  }

  /** A line the device rejects makes vyos discard: everything up to and
      including that line was sent, then `exit discard`, and nothing is
      compared or committed. */
  lemma CommitDiscardDiscardsOnError(lines: seq<string>, commit: bool, device: Device, k: nat)
    requires k < |lines| && lines[k] in device.rejected
    requires "configure" !in device.rejected
    requires forall j :: 0 <= j < k ==> lines[j] !in device.rejected
    ensures CommitDiscard(ConfigureAll(lines, device), commit, device).cmds == ["configure"] + lines[..k + 1] + ["exit discard"]
    ensures "exit discard" !in device.rejected ==>
              CommitDiscard(ConfigureAll(lines, device), commit, device).result == Err(DeviceError(lines[k]))
    ensures CommitDiscard(ConfigureAll(lines, device), commit, device).result.Err?
  {
    var all := ["configure"] + lines;
    assert all[k + 1] == lines[k];
    assert all[..k + 1] == ["configure"] + lines[..k];
    EachStopsAt(SendAll, all, device, k + 1);
    FilteredAll(all[..k + 2]);
    assert all[..k + 2] == ["configure"] + lines[..k + 1];
  }
}
