# cliconf plugins: a verified model of the CLI configuration layer

This project models the command-line configuration plugins of a network
automation tool. It covers the shared base class `CliconfBase` and five
device adapters: Arista EOS, VyOS, Cisco IOS, Cisco ASA, and the generic
netmiko adapter. An adapter drives one device connection. It sends commands
one by one and keeps a history of every command the device answered.

The model answers one question: for each operation, which commands reach the
device, in what order, and what does the operation return or raise?

- **Connection** (`transport.dfy`). A `Connection` records every request in a
  ghost log `sent` and every answered exchange in `answered`. The device is a
  value: the set of commands it rejects, and the reply it gives to every other
  command.
- **Base class** (`cliconf_plugins.dfy`). `CliconfBase` holds the history, and
  its `Valid()` states that the history is exactly the device's transcript.
  Its members are:
  - `send_command`, which checks its flags before sending;
  - `get`;
  - the `enable_mode` privilege guard (the stripped prompt must end in `#`);
  - the rpc list and the capabilities record;
  - `commit` and `discard_changes`.
- **Reference definitions** (`script.dfy`). Every configuration sequence is
  stated as a value first: a `Query` holds the commands sent and the outcome.
  These definitions cover:
  - the line loops, with the filtering rule that skips `end` and `!` comments
    and raises IndexError on a blank line;
  - the direct load used by ios and asa;
  - the eos configuration session (open, load, diff, `commit` or `abort`,
    `end`, and `abort` when a load fails);
  - the vyos commit-or-discard load.
- **Adapters** (`eos.dfy`, `vyos.dfy`, `ios.dfy`, `asa.dfy`, `netmiko.dfy`).
  Each adapter is a `Cliconf` class with its base and its caches. Each method
  is proved to send exactly the commands its reference definition lists and to
  return exactly the outcome that definition gives. Lemmas beside the
  definitions state the promised properties. "Sends exactly" covers both
  logs (`CliconfBase.Sent`): the request log grows by one plain request per
  command, and the history grows by exactly the exchanges the device
  completes for those commands, in order. Caches are computed at most once,
  a cached table sends nothing, and every method states which cache it
  leaves unchanged.
- **Python value semantics** (`py_values.dfy`). Loosely typed arguments follow
  Python: `x or False`, membership in `(True, False)` (which lets `0` and `1`
  through), and `is True` as identity.
- **Text and patterns** (`text.dfy`, `patterns.dfy`). Text operations are
  `strip`, `split('\n')` and `' '.join`. The fact-extraction regular
  expressions are written out as leftmost-match searches.

Where the source calls something it does not have, the model raises what
Python would raise, and each such case is listed under "## Findings". The
base `commit` and `discard_changes`, which read `self._play_context`, are
the exception: they raise AttributeError in the model as in the source, and
"## Left out" says why no corrected version is modelled.

## Model

| member | source | states |
|---|---|---|
| PyValues.OrFalse | cliconf_plugins/ios.py:91 | `x or False` keeps a truthy value and turns every falsy value into False |
| PyValues.NormalisedFlag | cliconf_plugins/ios.py:91-97 | the checks let through exactly the falsy values, True and 1; afterwards only True and 1 are truthy and only True is `True` |
| Text.LStrip | cliconf_plugins/__init__.py:48 | `lstrip()` keeps the longest suffix that does not start with whitespace, and drops only whitespace |
| Text.RStrip | cliconf_plugins/__init__.py:48 | `rstrip()` keeps the longest prefix that does not end with whitespace, and drops only whitespace |
| Text.Strip | cliconf_plugins/__init__.py:48 | `strip()` leaves no whitespace at either end and never lengthens the text |
| Text.StripValue | cliconf_plugins/ios.py:57 | the stripped reply is the middle of the reply, with only whitespace before and after it |
| Text.StripUnique | cliconf_plugins/ios.py:57 | conversely, any middle with no whitespace at its ends and only whitespace around it is what `strip()` returns |
| Text.StripOfStripped | cliconf_plugins/vyos.py:57 | stripping text with no blank at either end changes nothing, so stripping is idempotent |
| Text.StripIfAny | cliconf_plugins/vyos.py:116-117 | stripping a diff only when it is not empty is the same as always stripping it |
| Text.StripWordThenBlank | cliconf_plugins/ios.py:81-85 | `show <name> ` plus any text, stripped, is `show <name>` when the text is all whitespace, and otherwise `show <name>`, a blank, and the text with its trailing whitespace removed |
| Text.RStripUnique | cliconf_plugins/ios.py:85 | a prefix that does not end in whitespace and is followed only by whitespace is exactly what `rstrip()` keeps |
| Text.JoinSplit | cliconf_plugins/ios.py:102 | joining the pieces of `split('\n')` with newlines gives back the text |
| Text.SplitJoin | cliconf_plugins/ios.py:102 | splitting pieces that hold no newline, once joined, gives back the pieces |
| Text.Lines | cliconf_plugins/ios.py:102 | the candidate's lines hold no newline, there is at least one, and joined they are the stripped candidate |
| Text.Decimal | cliconf_plugins/eos.py:194 | `str(n)` of the clock reading is a non-empty string of digits, with a leading zero only for 0 |
| Text.DecimalValue | cliconf_plugins/eos.py:194 | the digits of `str(n)` read back as n, so different clock readings name different sessions |
| Text.DecimalOfDigits | cliconf_plugins/eos.py:194 | every digit string without a leading zero is `str` of the number it denotes |
| Patterns.LabelTokenAt | cliconf_plugins/vyos.py:59 | `label\s*(\S+)` matches only where the label starts, and its group is a non-empty word without blanks |
| Patterns.CommaTokenAt | cliconf_plugins/ios.py:59 | `Version (\S+),` matches at the marker, and its group is a non-empty word followed by a comma |
| Patterns.LineGroupAt | cliconf_plugins/ios.py:63-69 | `^prefix(.+)suffix` under `re.M` matches only at a line start, and its group is non-empty and stays on one line |
| Patterns.SpacedLineGroupAt | cliconf_plugins/asa.py:49 | `^Model Id:\s+(.+) \(revision` matches only at a line start, and its group is non-empty and stays on one line |
| Patterns.LabelTokenSpec | cliconf_plugins/vyos.py:59-65 | `label\s*(\S+)` matches at a position with group g exactly when the label is there, only blanks follow it up to g, and g is the whole non-blank word there |
| Patterns.CommaTokenSpec | cliconf_plugins/ios.py:59 | `Version (\S+),` matches with group g exactly when g is a word right after the marker, followed by a comma, and the word reaches no later comma |
| Patterns.GroupBeforeSpec | cliconf_plugins/ios.py:63-69 | `(.+)suffix` matches with group g exactly when g stays on the line, the suffix follows it, and the suffix occurs at no later place on the line |
| Patterns.LineGroupSpec | cliconf_plugins/ios.py:63-69 | `^prefix(.+)suffix` matches with group g exactly at a line start holding the prefix, followed by that group |
| Patterns.SpacedLineGroupSpec | cliconf_plugins/asa.py:49 | `^Model Id:\s+(.+) \(revision` matches with group g exactly when, after the fewest blanks given back, `(.+) \(revision` matches with g and keeping more blanks matches nothing |
| Patterns.SpacedGroupFound | cliconf_plugins/asa.py:49 | where `\s+(.+)suffix` matches by backing off over the blank run, the group is a spaced group: blanks, then `(.+)suffix` with g, and keeping more blanks matches nothing |
| Patterns.SpacedGroupOnly | cliconf_plugins/asa.py:49 | conversely, every spaced group at a position is the one backing off finds |
| Patterns.BackOffFound | cliconf_plugins/asa.py:49 | giving blanks back one by one finds the group at the highest position where `(.+)suffix` matches |
| Patterns.BackOffOnly | cliconf_plugins/asa.py:49 | and the group at that highest position is the one found |
| Patterns.Search | cliconf_plugins/ios.py:59-69 | `re.search` finds a group exactly when the pattern matches somewhere, and the group is the leftmost match's |
| Transport.AnsweredConcat | cliconf_plugins/__init__.py:150 | the exchanges of two batches sent one after the other are those of the first batch, then those of the second |
| Transport.AnsweredAccepted | cliconf_plugins/__init__.py:150 | a device that accepts every command answers each one, in order, with its reply; one that rejects them all leaves no exchange |
| Transport.PlainAllConcat | cliconf_plugins/__init__.py:110-111 | the requests for two batches are those of each batch, in order |
| Transport.Connection.Send | cliconf_plugins/__init__.py:150 | every request is logged once, and only an answered one joins the transcript |
| Transport.Connection.GetPrompt | cliconf_plugins/__init__.py:47 | `get_prompt` returns the connection's prompt |
| Script.ThenDone | cliconf_plugins/eos.py:195-198 | sending nothing before or after a run leaves the run unchanged |
| Script.ThenAssoc | cliconf_plugins/eos.py:195-198 | running steps one after another gives the same commands and error however the steps are grouped, so an early error stops all later steps |
| Script.Step | cliconf_plugins/ios.py:107-111 | one iteration sends the line exactly when the rule lets it through, and fails exactly on a blank line or a rejected line |
| Script.EachConcat | cliconf_plugins/eos.py:135-139 | looping over two lists is looping over the first, then over the second if the first went through |
| Script.FilteredConcat | cliconf_plugins/eos.py:135-139 | the lines sent from two lists are the lines sent from each, in order |
| Script.EachClean | cliconf_plugins/eos.py:135-139 | a loop over lines that all go through sends exactly the lines its rule lets through, in order |
| Script.EachStopsAt | cliconf_plugins/ios.py:107-111 | the loop stops at its first troublesome line, after sending what the rule lets through up to that line, and raises that line's error |
| Script.EachSpec | cliconf_plugins/eos.py:135-139 | the loop raises exactly when some line is troublesome, and it always sends a prefix of the filtered lines |
| Script.FilteredSkipsEnd | cliconf_plugins/ios.py:108 | the filtering loop never sends `end` |
| Script.FilteredAll | cliconf_plugins/vyos.py:109-110 | the vyos loop sends every line, `end` and comments included |
| Script.ValidateEdit | cliconf_plugins/ios.py:91-102 | the edit arguments pass exactly when normalised commit and replace are in `(True, False)` and a candidate is given; each failure raises its own error; the lines joined are the stripped candidate |
| Script.DirectApplySpec | cliconf_plugins/ios.py:107-113 | a direct load sends the filtered lines and then one `end` when every line goes through; otherwise it raises having sent a prefix of them and no `end` |
| Script.DirectEditPasses | cliconf_plugins/ios.py:104-113 | past its checks, a direct edit is the direct load |
| Script.DirectEditGuards | cliconf_plugins/ios.py:89-105 | nothing is sent unless the prompt is privileged, the arguments are valid and neither commit nor replace is `True`; each check raises its own error |
| Script.DirectEditLoads | cliconf_plugins/ios.py:107-113 | past the checks, the edit succeeds exactly when every line and `end` go through; it then sends the filtered lines and one `end`, and otherwise no `end` |
| Script.SessionOpensFirst | cliconf_plugins/eos.py:194-195 | the first command of every session is `configure session <name>` |
| Script.SessionSucceeds | cliconf_plugins/eos.py:194-217 | when the device accepts everything, a session sends the opening, the load, the diff request, `commit` or `abort`, and `end`, and returns the stripped diff |
| Script.SessionAbortsOnLoadError | cliconf_plugins/eos.py:200-204 | a load that raises inside an open session is followed by `abort` as the last command, and the load's error is raised again |
| Script.CommitDiscardSucceeds | cliconf_plugins/vyos.py:108-126 | when the device accepts everything, vyos sends `configure`, the lines, `compare`, and `commit` or `exit discard`, and returns the stripped comparison |
| Script.CommitDiscardDiscardsOnError | cliconf_plugins/vyos.py:108-113 | a rejected line makes vyos send `exit discard` right after it; nothing is compared or committed, and the error is raised again |
| CliconfPlugins.PrivilegedIff | cliconf_plugins/__init__.py:44-51 | the guard lets an operation run exactly when the prompt's last non-blank character is `#` |
| CliconfPlugins.PrivilegedEndsInHash | cliconf_plugins/__init__.py:48 | a prompt that passes the guard has `#` followed only by blanks |
| CliconfPlugins.EndsInHashPrivileged | cliconf_plugins/__init__.py:48 | a prompt with `#` followed only by blanks passes the guard |
| CliconfPlugins.FirstBadFlag | cliconf_plugins/__init__.py:133-135 | a flag is reported exactly when one of sendonly, newline or prompt_retry_check is outside None/True/False, and it is the first such flag in that order |
| CliconfPlugins.LookupAgreesWithWhole | cliconf_plugins/eos.py:37-41 | a keyed lookup gives the entry the whole table holds for that key, or None |
| CliconfPlugins.CachedTransparent | cliconf_plugins/eos.py:37-57 | once the computed table is stored, a later call sends nothing and answers as computing afresh would |
| CliconfPlugins.FactsAsWrittenRecurses | cliconf_plugins/ios.py:46-73 | as written, `get_facts()` with no key sends the facts commands again on every nested call until the recursion limit, while the corrected lookup returns the whole table |
| CliconfPlugins.WithMatch | cliconf_plugins/ios.py:59-61 | the key is set exactly when the pattern matches, and to its leftmost group; every other key is unchanged |
| CliconfPlugins.ShowConfig | cliconf_plugins/ios.py:77-85 | a command is produced exactly for the sources running and startup |
| CliconfPlugins.ShowConfigBare | cliconf_plugins/ios.py:81-85 | without filters the command is `show running-config` or `show startup-config` |
| CliconfPlugins.ShowConfigFiltered | cliconf_plugins/ios.py:81-85 | for every filter list the command is `show <name>-config`, followed, unless the space-joined filters are all whitespace, by a blank and the joined filters without their trailing whitespace |
| CliconfPlugins.ShowConfigKeepsFilters | cliconf_plugins/ios.py:81-85 | filters whose joined text is non-empty and does not end in whitespace appear unchanged after `show <name>-config ` |
| CliconfPlugins.CliconfBase.constructor | cliconf_plugins/__init__.py:100-102 | a new adapter has an empty history over a fresh connection, the given rpc list, and the default capability attributes |
| CliconfPlugins.CliconfBase.EnableMode | cliconf_plugins/__init__.py:44-51 | the guard passes exactly for a privileged prompt and otherwise raises "operation requires privilege escalation" |
| CliconfPlugins.CliconfBase.SendCommand | cliconf_plugins/__init__.py:110-157 | a bad flag raises before sending and leaves the history alone; otherwise exactly one request goes out, the reply comes back unchanged, and an answered command appends exactly its literal pair to the history |
| CliconfPlugins.CliconfBase.Get | cliconf_plugins/__init__.py:219-231 | `get` is `send_command` with the defaults for prompt_retry_check and nolog: a bad `sendonly`, else a bad `newline`, is reported as `invalid value for` that value with nothing sent; otherwise the device's answer, logged |
| CliconfPlugins.CliconfBase.GetBaseRpc | cliconf_plugins/__init__.py:159-161 | `get_base_rpc` returns the adapter's rpc list |
| CliconfPlugins.CliconfBase.GetHistory | cliconf_plugins/__init__.py:163-172 | the history is the device's transcript, in the order sent |
| CliconfPlugins.CliconfBase.GetCapabilities | cliconf_plugins/__init__.py:233-272 | the record names the api `cliconf`, the rpc list, the four device attributes and the three `supports_*` flags |
| CliconfPlugins.CliconfBase.Commit | cliconf_plugins/__init__.py:275-286 | the default `commit` raises AttributeError for `_play_context` |
| CliconfPlugins.CliconfBase.DiscardChanges | cliconf_plugins/__init__.py:288-297 | the default `discard_changes` raises AttributeError for `_play_context` |
| CliconfPlugins.CliconfBase.SendPlain | cliconf_plugins/__init__.py:110-111 | `send_command(cmd)` with defaults sends one plain request, appends the exchange to the history when the device answers, and returns the device's answer |
| CliconfPlugins.CliconfBase.GetConfigGuarded | cliconf_plugins/ios.py:75-87 | `get_config` under the guard sends the one `show` command for a known source and raises without sending otherwise |
| CliconfPlugins.CliconfBase.DirectEditGuarded | cliconf_plugins/ios.py:89-113 | the ios/asa `edit_config` sends exactly what the direct edit definition lists and returns its outcome |
| CliconfPlugins.CliconfBase.DirectEditChecked | cliconf_plugins/ios.py:90-113 | the body of that `edit_config` under a privileged prompt does the same |
| CliconfPlugins.CliconfBase.DirectLoad | cliconf_plugins/ios.py:107-113 | the line loop followed by `end` sends what the direct load lists |
| CliconfPlugins.CliconfBase.SendLines | cliconf_plugins/eos.py:135-139 | the line loop sends exactly what the loop definition lists and raises its error |
| CliconfPlugins.CliconfBase.SendLine | cliconf_plugins/eos.py:136-139 | one iteration sends exactly what the step definition lists |
| Vyos.GetOperations | cliconf_plugins/vyos.py:33-43 | commit and diff are supported and replace is not; no other key is present |
| Vyos.ParseFacts | cliconf_plugins/vyos.py:52-68 | network_os is vyos; version and model are set exactly when their label is followed by a word; the hostname is the stripped reply |
| Vyos.ConfigCommandReadsBack | cliconf_plugins/vyos.py:88-90 | the command always starts with `show configuration`, and a non-empty filter reads back from what follows one blank |
| Vyos.ConfigCommandInjective | cliconf_plugins/vyos.py:88-90 | different non-empty filters ask for different commands |
| Vyos.EditIgnoresReplace | cliconf_plugins/vyos.py:99-106 | bad arguments send nothing, and a valid `replace` changes nothing |
| Vyos.EditSendsNoEnd | cliconf_plugins/vyos.py:108-126 | vyos never sends `end` unless the candidate holds an `end` line |
| Vyos.Cliconf.constructor | cliconf_plugins/__init__.py:100-102 | a new vyos adapter has no cached facts and a base of its own, so its methods can be called at once |
| Vyos.Cliconf.GetFacts | cliconf_plugins/vyos.py:45-71 | facts are computed at most once, and a cached table sends nothing |
| Vyos.Cliconf.GetConfig | cliconf_plugins/vyos.py:73-92 | one `show configuration` command is sent, whatever the source |
| Vyos.Cliconf.EditConfig | cliconf_plugins/vyos.py:94-126 | the edit sends exactly the argument checks' and the commit-or-discard load's commands |
| Vyos.Cliconf.Load | cliconf_plugins/vyos.py:108-126 | the load, with `exit discard` on an error, then `compare` and `commit` or `exit discard` |
| Vyos.Cliconf.Discard | cliconf_plugins/vyos.py:111-113 | after a failed load, `exit discard` is sent and the load's error is raised unless `exit discard` raised first |
| Vyos.Cliconf.Close | cliconf_plugins/vyos.py:115-126 | after a clean load, `compare` and then `commit` or `exit discard`, returning the stripped comparison |
| Ios.GetOperations | cliconf_plugins/ios.py:34-44 | commit, replace and diff are all unsupported, and no other key is present |
| Ios.ParseFacts | cliconf_plugins/ios.py:53-69 | network_os is ios; version, model and hostname are each set exactly when their pattern matches, to its leftmost group |
| Ios.Cliconf.constructor | cliconf_plugins/__init__.py:100-102 | a new ios adapter has no cached facts and a base of its own, so its methods can be called at once |
| Ios.Cliconf.GetFacts | cliconf_plugins/ios.py:46-73 | facts come from one `show version`, computed at most once; a cached table sends nothing |
| Ios.Cliconf.GetConfig | cliconf_plugins/ios.py:75-87 | privileged only; a known source sends one command, and any other source raises ValueError without sending |
| Ios.RunningConfigOfNewAdapter | cliconf_plugins/ios.py:75-87 | a new adapter over an unused connection can be used at once: asked for the running configuration, it gets the device's answer to `show running-config` at a privileged prompt and raises the privilege error otherwise |
| Ios.Cliconf.EditConfig | cliconf_plugins/ios.py:89-113 | privileged only; the direct edit |
| Asa.GetOperations | cliconf_plugins/asa.py:20-30 | commit, replace and diff are all unsupported, and no other key is present |
| Asa.ParseFacts | cliconf_plugins/asa.py:39-55 | network_os is asa; version, model and hostname are each set exactly when their pattern matches, to its leftmost group |
| Asa.Cliconf.constructor | cliconf_plugins/__init__.py:100-102 | a new asa adapter has no cached facts and a base of its own, so its methods can be called at once |
| Asa.Cliconf.GetFacts | cliconf_plugins/asa.py:32-59 | facts come from one `show version`, computed at most once; a cached table sends nothing |
| Asa.Cliconf.GetConfig | cliconf_plugins/asa.py:61-73 | privileged only; a known source sends one command, and any other source raises ValueError without sending |
| Asa.Cliconf.EditConfig | cliconf_plugins/asa.py:75-99 | privileged only; the direct edit |
| Eos.OperationsAgree | cliconf_plugins/eos.py:43-54 | the four operations are always equal, off exactly when the setting is the integer 0; the probe is sent exactly when the setting is not an integer |
| Eos.OperationsIgnoreProbeReply | cliconf_plugins/eos.py:48-54 | what the probe replies never changes the table |
| Eos.FactsSpec | cliconf_plugins/eos.py:76-88 | the hostname is asked for exactly when the version document decodes and holds both fields; a complete table holds exactly the four fact keys with the reported values |
| Eos.SessionsFollowSetting | cliconf_plugins/eos.py:43-57 | before the table is cached, the sessions question sends what computing the table sends, and answers whether the setting turns sessions on |
| Eos.MergeSpec | cliconf_plugins/eos.py:183-191 | without sessions, replace `True` and commit `False` each raise before sending; otherwise `configure`, the filtered lines and `end` are sent |
| Eos.SessionEditSpec | cliconf_plugins/eos.py:193-217 | with sessions and a device that accepts everything, the edit opens `ansible_<now>`, loads the filtered lines, reads the diff, commits only when commit is `True`, sends `end`, and returns the stripped diff |
| Eos.EditAsWrittenNeverLoads | cliconf_plugins/eos.py:22-24 | as written, every privileged edit with valid arguments raises AttributeError before sending; the corrected edit under the default setting opens a session first |
| Eos.SessionAsWrittenAborts | cliconf_plugins/eos.py:200-204 | as written, an opened session always ends in `abort` with nothing loaded or committed |
| Eos.OperationsSurviveEdit | cliconf_plugins/eos.py:26-57 | `get_operations`, `edit_config`, `get_operations`: once the first call has answered, the second gives the same answer, so the table is never recomputed |
| Eos.Cliconf.constructor | cliconf_plugins/eos.py:20 | a new eos adapter has neither table cached and a base of its own, so its methods can be called at once |
| Eos.Cliconf.GetOperations | cliconf_plugins/eos.py:26-57 | the operations table is computed at most once, and a cached table sends nothing |
| Eos.Cliconf.ComputeOperations | cliconf_plugins/eos.py:42-56 | the table, with the probe sent only when the setting is not an integer |
| Eos.Cliconf.GetFacts | cliconf_plugins/eos.py:59-91 | facts are computed at most once, a cached table sends nothing, and the operations table is left alone |
| Eos.Cliconf.ComputeFacts | cliconf_plugins/eos.py:76-90 | `show version \| json`, its fields, then `show hostname \| json`; every failure raises at once |
| Eos.Cliconf.ReadHostname | cliconf_plugins/eos.py:86-88 | one `show hostname \| json`, decoded, and its `hostname` field |
| Eos.ConfigAsWrittenRaises | cliconf_plugins/eos.py:110-112 | as written, an unknown source such as "candidate" raises AttributeError for `invalid_params`; the corrected query raises a ValueError naming the source; both send nothing, and they agree for a known source |
| Eos.Cliconf.GetConfig | cliconf_plugins/eos.py:94-122 | privileged only; a known source sends one command, and any other source raises ValueError without sending |
| Eos.Cliconf.SupportsSessions | cliconf_plugins/eos.py:22-24 | sessions are used exactly when the operations table holds `True` for them; a cached table is kept, and a successful answer leaves the table cached |
| Eos.Cliconf.EditConfig | cliconf_plugins/eos.py:141-217 | privileged only; the argument checks, the sessions question, then the merge or the session; the facts cache is unchanged, a cached operations table is kept, and an answered sessions question leaves it cached |
| Eos.Cliconf.EditValidated | cliconf_plugins/eos.py:179-217 | past the checks, the sessions question and then the load it selects, with the same cache frame as `edit_config` |
| Eos.Cliconf.ApplyEdit | cliconf_plugins/eos.py:183-213 | the merge without sessions, the session with them |
| Eos.Cliconf.MergeLoad | cliconf_plugins/eos.py:183-191 | the merge path sends exactly what the merge definition lists |
| Eos.Cliconf.RunSession | cliconf_plugins/eos.py:193-215 | the session path sends exactly what the session definition lists |
| Eos.Cliconf.OpenSession | cliconf_plugins/eos.py:194-198 | `configure session <name>`, and `rollback clean-config` only when replacing |
| Eos.Cliconf.LoadInSession | cliconf_plugins/eos.py:200-215 | the loader inside the session, then the end of the session |
| Eos.Cliconf.FinishSession | cliconf_plugins/eos.py:200-213 | after a failed load, `abort` and the load's error; after a clean one, the close |
| Eos.Cliconf.CloseSession | cliconf_plugins/eos.py:206-215 | the diff request, then `commit` or `abort` and `end`, returning the stripped diff |
| Eos.Cliconf.EndSession | cliconf_plugins/eos.py:210-215 | `commit` when commit is `True`, `abort` otherwise, then `end` |
| Netmiko.GetOperations | cliconf_plugins/netmiko.py:37-47 | commit, replace and diff are all unsupported |
| Netmiko.DeviceFactsLookup | cliconf_plugins/netmiko.py:56-60 | looking up `network_os` gives the connection's device type, and every other key gives None |
| Netmiko.FactsAsWrittenFails | cliconf_plugins/netmiko.py:49-60 | as written, `get_facts()` without a key always raises, and a keyed call raises the first time; the corrected version always answers, and both cache the same table |
| Netmiko.Cliconf.constructor | cliconf_plugins/netmiko.py:35 | a netmiko adapter advertises only `get_capabilities` and `get` |
| Netmiko.Cliconf.GetCapabilities | cliconf_plugins/netmiko.py:35 | the capabilities list exactly `get_capabilities` and `get` |
| Netmiko.Cliconf.GetFacts | cliconf_plugins/netmiko.py:49-60 | the device-type table, built on first use, answers every call; nothing is sent |
| Netmiko.Cliconf.GetConfig | cliconf_plugins/netmiko.py:62-63 | always raises AnsibleError, and changes nothing |
| Netmiko.Cliconf.EditConfig | cliconf_plugins/netmiko.py:65-66 | always raises AnsibleError, whatever its arguments, and changes nothing |

## Left out

- `copy_file` and `get_file` (`cliconf_plugins/__init__.py:299-321`): they hand files to scp or sftp and hold no logic of their own.
- The command timeout handler, the `display` logger and the `import q` debugging call in the constructor: signals and logging. They do not change what is sent.
- Encoding: `to_bytes` and `to_text` are the identity. Commands and replies are text. The `get_config` command (`cliconf_plugins/ios.py:81-85`, `cliconf_plugins/asa.py:67-71`, `cliconf_plugins/eos.py:114-118`) starts as a byte string under Python 2.7 and stays one when every filter is a byte string; its `strip()` then removes only ASCII whitespace. CliconfPlugins.ShowConfig strips it with Text.Strip, the `unicode` strip that applies once a `unicode` filter is joined in, so for byte-string filters ending in a byte such as 0x85 or 0xA0, which `unicode` counts as whitespace, the model strips a character the source keeps.
- The transport: a connection's device is fixed when the connection is made, as a set of rejected commands and a reply function. Prompts never change during a session. Timeouts and reconnects are not modelled.
- Eos.Cliconf.GetFacts: `json.loads` is a parameter that gives the string fields of a JSON object, or None. JSON values that are not strings, and documents that are not objects, are not modelled.
- Eos.Cliconf.GetOperations: the environment variable arrives already classified, as unset, an integer, or not an integer. The probe reply check `'error' not in resp` is stored in a variable that is never read, so the reply is not examined.
- Eos.Cliconf.EditConfig: the clock reading `int(time.time())` is a parameter.
- Regular expressions: only the four pattern shapes the extractors use are written out. There is no general regex engine.
- Mapping lines in the eos, ios and asa loaders: the candidate is always text split into strings, so the branch for a line that is a mapping is never taken.
- CliconfPlugins.CliconfBase.SendCommand: the ValueError for a bad flag keeps the message prefix and the offending value as two fields. It does not format them into one string.
- CliconfPlugins.CliconfBase.GetCapabilities: `json` is never imported (`cliconf_plugins/__init__.py:258`), and the `operations` dictionary holds the malformed entry `'diff', self.supports_diff` (`cliconf_plugins/__init__.py:270`). The module as written does not parse. The model returns the record the code evidently means, not its JSON text.
- Vyos.Cliconf.GetConfig: the stray `if filter` at `cliconf_plugins/vyos.py:91` does not parse either, and the model leaves it out. Only a text filter is modelled.
- CliconfPlugins.FactsAsWritten: the interpreter's recursion limit is a depth parameter.
- CliconfPlugins.CliconfBase.Commit and CliconfPlugins.CliconfBase.DiscardChanges: they read `self._play_context`, which the adapter does not have, so both raise AttributeError. Evidently `self.connection._play_context` was meant, as `cliconf_plugins/__init__.py:107` reads it. The corrected message would go to `connection.method_not_found`, whose behaviour belongs to the connection and is not part of this model, so no corrected version is modelled.
- Python version: the code is Python 2.7. Under Python 3, `b'show %s ' % name` (`cliconf_plugins/eos.py:114`, `cliconf_plugins/ios.py:81`) would raise TypeError. The model follows Python 2.7: the `%` formatting works, `strip()` on text removes `unicode` whitespace (Text.IsSpace; see the Encoding line for the byte-string command), and `\s` in a pattern compiled without `re.UNICODE` is one of the six ASCII blanks (Patterns.IsRegexSpace).

## Findings

| source | as written | input that shows it | evidently intended | confidence | as-written member | corrected member |
|---|---|---|---|---|---|---|
| cliconf_plugins/eos.py:24 | `supports_sessions` calls `self.device_operations`, which does not exist | a privileged `edit_config` with candidate "hostname a": AttributeError, nothing sent | `self.get_operations('supports_sessions')` | high, not executed | Eos.EditAsWritten | Eos.Cliconf.SupportsSessions |
| cliconf_plugins/eos.py:201 | the session path loads `config`, an undefined name | any session-path edit with candidate "hostname a": `abort` follows the opening and the NameError is raised | `self._loader(candidate)` | high, not executed | Eos.SessionAsWritten | Eos.Cliconf.LoadInSession |
| cliconf_plugins/ios.py:51 | `get_facts()` without a key reads `self._device.facts` | `get_facts()`: `show version` is sent again on every nested call until RecursionError | `return self._device_facts` | high, not executed | CliconfPlugins.FactsAsWritten | Ios.Cliconf.GetFacts |
| cliconf_plugins/asa.py:37 | `get_facts()` without a key reads `self._device.facts` | `get_facts()`: `show version` is sent again on every nested call until RecursionError | `return self._device_facts` | high, not executed | CliconfPlugins.FactsAsWritten | Asa.Cliconf.GetFacts |
| cliconf_plugins/eos.py:112 | for an unknown source `get_config` calls `self.invalid_params`, which does not exist | `get_config('candidate')` at a privileged prompt: AttributeError for `invalid_params`, nothing sent | raise ValueError("fetching configuration from candidate is not supported"), as ios and asa do | high, not executed | Eos.ConfigAsWritten | Eos.Cliconf.GetConfig |
| cliconf_plugins/netmiko.py:60 | after caching, the handler calls `self.device_facts(key)`, which does not exist; without a key it first reads `self._device.facts` (line 54) | `get_facts()` always raises AttributeError; the first `get_facts('network_os')` raises too | `return self.get_facts(key)`, reading `self._device_facts` | high, not executed | Netmiko.FactsAsWritten | Netmiko.Cliconf.GetFacts |
