# VersionOps agent: discovery and reporting core

This project is a Dafny model of the discovery-and-reporting core of the VersionOps Linux agent (`versionops_agent.py`). The agent runs on a host and finds out which applications are installed there and at which versions. It reports them to the VersionOps server.

- **Configurations.** The server sends application configurations. Each one names candidate paths, a probe command (`version_command`) and a pattern (`version_regex`).
- **Plugins.** For each configuration the agent builds a `DynamicPlugin`. The plugin probes every candidate path that exists: it runs the probe command and extracts the version from the output.
- **Session.** The agent object authenticates with a service token, loads the plugins into a dictionary, registers the host and posts one record per application found.
- **Run modes.** It does this once (`run_once`) or periodically (`run_daemon`).

Modules, one file each:

- `wrappers.dfy`: `Option`.
- `strings.dfy`: the string operations the probe uses:
  - `shlex.split`, taken as a split on whitespace;
  - `' '.join`;
  - `str.replace`;
  - `in` on strings.
- `probe.dfy`: `get_version` and `run_command`. It builds the probe command, picks a shell or an argument vector, captures the output and extracts the version.
- `discovery.dfy`: `DynamicPlugin.discover`, as a specification function and a method with a loop.
- `registry.dfy`: the `plugins` dictionary, as a list of entries with distinct keys kept in insertion order. It covers what `load_plugins` stores in it and what `discover_applications` collects from it.
- `protocol.dfy`: the requests the agent sends and the daemon loop, both as functions of the server's replies.
- `agent.dfy`: the `VersionOpsAgent` class. Its fields are the session token, `running`, `host_id` and `plugins`, plus three histories: every request sent, every completed sleep, and (as ghost state) the host state of every discovery pass. Its methods are the agent's operations.

The outside world is a set of oracles:

- A `Host` says whether a path exists (`os.path.exists`). It also gives the outcome of running an invocation (`subprocess.run` with its 30-second timeout) and what a pattern search finds (`re.search(...).group(1)`).
- The server is a function from the number of requests sent so far to a `Response`: a status with a body, or a raised transport exception.
- The daemon gets one host state and one `Fate` per iteration:
  - `Calm`: the cycle and the sleep complete;
  - `Faulted`: an exception, then the 60-second cooldown;
  - `Interrupted`: a keyboard interrupt in the loop;
  - `FaultedThenInterrupted`: an interrupt during the cooldown.

  It runs for at most `fuel` iterations.

Some behaviours of the code are worth knowing before reading the model:

- **Patterns are not validated.** A pattern that does not compile, or that has no group 1, makes `get_version` return no version. It is not rejected in advance (`Search.Raises`).
- **Building a plugin cannot fail.** `DynamicPlugin(...)` only stores its arguments. A configuration without a `name` raises `KeyError` at versionops_agent.py:201, outside the inner `try`. That ends the whole loading loop, not just the one entry. Entries stored earlier are kept (`Registry.LoadStopsAtUnnamed`).
- **A transport exception stops the remaining reports.** A non-200 reply to a record's POST does not stop the loop. An exception does: the rest of the records are not posted, and the result is False (`Protocol.PostInOrder`).
- **Registration can succeed without a host id.** A 200 reply to the registration whose JSON object has no `host_id` counts as success. Reporting then refuses to send anything (`Agent.RegisteredWithoutIdReportsNothing`).
- **Registration happens once, at start-up.** It is not repeated every cycle.
- **An interrupt during the cooldown escapes.** A keyboard interrupt during the 60-second cooldown sleep is not caught and unwinds `run_daemon` (`Exit.Unwound`).
- **Other dispatch rules:**
  - An argument list in which some argument contains `|` is joined with spaces and run through the shell (`Probe.VectorDispatch`).
  - A negative `collection_interval`, or one above 9223372036 seconds (CPython's 64-bit nanosecond limit), makes `time.sleep` raise, so the loop takes the cooldown instead (`Protocol.SleepAfter`).
  - `default_paths` is walked as Python iterates it: a list's elements, an object's keys, or a string's characters (`Discovery.Descriptor`).

## Model

| member | source | states |
|---|---|---|
| Strings.Split | versionops_agent.py:417 | every word that splitting a command string yields is non-empty and free of separators |
| Strings.JoinContains | versionops_agent.py:360-365 | a character (here `\|`) occurs in a list joined with single spaces exactly when it occurs in one of the list's elements |
| Strings.SplitJoin | versionops_agent.py:369-370 | splitting a list of non-empty, separator-free words joined with spaces gives back exactly that list |
| Strings.ReplaceAbsent | versionops_agent.py:409-412 | replacing a placeholder that does not occur leaves the template unchanged, so the `'{path}' in version_cmd` test does not change the result |
| Strings.ReplaceKeeps | versionops_agent.py:408-410 | replacing `{path}` cannot remove a `\|` from a pipeline template |
| Probe.BuildCommand | versionops_agent.py:406-420 | probe command construction:<br>• building fails, giving no command, exactly for null, a number or an object;<br>• the default is `[path, "--version"]`;<br>• exactly the templates containing `\|` become shell lines, which keep their `\|`, have every `{path}` replaced by the candidate path, and equal the template verbatim when there is no `{path}`;<br>• a flag gives `[path, flag]`;<br>• a command string of at most one word gives `[path, "--version"]`;<br>• a list gives `[path] + list`;<br>• every argument vector starts with the path |
| Probe.TokenisedProbe | versionops_agent.py:416-418 | a command string `prog a1 … an` probes `[path, a1, …, an]`, or `[path, "--version"]` when n = 0 |
| Probe.Dispatch | versionops_agent.py:359-371 | the shell is used exactly when the command text (a list joined with spaces) contains `\|`, and then runs that text; otherwise a list runs unchanged and a string runs split into words |
| Probe.VectorDispatch | versionops_agent.py:359-367 | an argument list goes to the shell exactly when one of its arguments contains `\|`, and otherwise runs as given |
| Probe.RunCommand | versionops_agent.py:357-376 | never fails: a finished process gives its stdout, stderr and status; a timeout gives `("", "Command timeout", 1)`; any other failure gives `("", reason, 1)` |
| Probe.ExtractVersion | versionops_agent.py:422-435 | a non-zero exit gives no version; a version is group 1 of a match in stdout, or in stderr when stdout has no match; a match in stdout takes precedence |
| Probe.GetVersion | versionops_agent.py:403-438 | no command gives no version; otherwise the version is exactly what extraction gives from running the built command with the configured pattern (default `(\d+\.\d+\.\d+)`), a match in stdout taking precedence over one in stderr; so a version is returned only when a command could be built, the probe exited with 0 and the pattern matched stdout or stderr |
| Discovery.VersionAt | versionops_agent.py:386-388 | a path contributes a version exactly when it exists and `get_version` gives a non-empty string there, and that version is what `get_version` gives |
| Discovery.Discover | versionops_agent.py:378-401 | the loop over `default_paths` returns exactly `Found`: one record per accepted candidate path, in path order; `[]` when the configuration has no name |
| Discovery.ProbePath | versionops_agent.py:386-388 | a version is accepted at a path exactly when the path exists and `get_version` gives a non-empty string there; the accepted version is what `get_version` gives, and it is the one the specification of `discover` accepts |
| Discovery.FoundInConcat | versionops_agent.py:385-395 | discovery over a concatenation of path lists is the concatenation of the discoveries, so records keep path order |
| Discovery.FoundInSound | versionops_agent.py:385-395 | there are at most as many records as paths; every record names one of the paths, carries exactly the version accepted there, the configuration's name and `dynamic_plugin` |
| Discovery.FoundInComplete | versionops_agent.py:385-395 | every path at which a version is accepted gives a record with exactly that version |
| Discovery.FoundCharacterised | versionops_agent.py:378-401 | `discover` returns exactly the records of the existing candidate paths at which `get_version` gives a non-empty version, each with that version, and nothing for an unnamed configuration |
| Registry.Put | versionops_agent.py:204 | storing under a key replaces the value in place when the key exists and appends the key otherwise; the key then maps to the new plugin and no other key changes |
| Registry.PutValid | versionops_agent.py:200-204 | storing a plugin under its own name keeps the keys distinct and every entry under its plugin's name |
| Registry.LoadLastWins | versionops_agent.py:200-205 | after loading, a key holds the last configuration of that name before the first unnamed one, or what it held before |
| Registry.LoadStopsAtUnnamed | versionops_agent.py:200-209 | nothing after a configuration without a name is loaded, and everything before it is |
| Registry.LoadKeepsOrder | versionops_agent.py:200-205 | loading keeps the registry well formed and keeps the existing keys in place, new keys appended |
| Registry.DiscoverAllSound | versionops_agent.py:249-263 | every record `discover_applications` returns comes from one registered plugin, is named by that plugin's key, and is one of that plugin's findings |
| Protocol.PostInOrder | versionops_agent.py:271-284 | the i-th POST carries the i-th record; the result is True exactly when no request raised, and then every record was posted; otherwise posting stopped right after the first request that raised |
| Protocol.CycleOnlyReportsDiscovered | versionops_agent.py:286-296 | a cycle sends nothing when nothing was discovered or there is no host id; otherwise it sends only POSTs of the discovered records, in order, to the host's endpoint, with the session token |
| Protocol.ErrorsDoNotStopDaemon | versionops_agent.py:314-324 | without an interrupt the loop runs every iteration and stays `running`; it sleeps the interval after each calm iteration whose interval `time.sleep` accepts, and 60 s after every other one |
| Protocol.SleepsAt | versionops_agent.py:316-324 | the i-th sleep of an uninterrupted run belongs to the i-th iteration |
| Protocol.InterruptStopsDaemon | versionops_agent.py:314-326 | at the first interrupt in the loop, with none in a cooldown before it, the loop clears `running` and returns 0, having slept once per earlier iteration |
| Protocol.DaemonReturnsZeroOnlyOnInterrupt | versionops_agent.py:314-326 | the loop returns only 0, and only after an interrupt, with `running` cleared; it unwinds only after an interrupt during a cooldown |
| Agent.ValidateConfig | versionops_agent.py:145-153 | the configuration is valid exactly when both the backend URL and the service token are set |
| Agent.ValidatedConfigReachesServer | versionops_agent.py:155-168 | with a valid configuration, start-up's first request is the token check carrying the configured token |
| Agent.StartupOutcome | versionops_agent.py:155-236 | start-up succeeds exactly when a token is set, the token check gets 200 and the registration gets 200 with a JSON object:<br>• no token means no request;<br>• every request carries the token;<br>• success means exactly the three requests and the server's host id;<br>• failure keeps the old host id;<br>• plugins are loaded only after a successful token check |
| Agent.StartupKeepsRegistryValid | versionops_agent.py:190-209 | start-up keeps the plugin registry well formed |
| Agent.LoadedValid | versionops_agent.py:192-209 | whatever the server replies to the configuration request, `load_plugins` keeps the registry well formed |
| Agent.RegisteredWithoutIdReportsNothing | versionops_agent.py:225-229 | a 200 registration reply without `host_id` counts as success, after which every cycle sends nothing |
| Agent.VersionOpsAgent.constructor | versionops_agent.py:76-89 | a new agent has no token, no host id, no plugins, has run no discovery, and is not running |
| Agent.VersionOpsAgent.Authenticate | versionops_agent.py:155-188 | no token: False and no request. Otherwise the session carries the token, one configuration request is sent, and the result is True exactly on status 200 |
| Agent.VersionOpsAgent.LoadPlugins | versionops_agent.py:190-209 | one configuration request is sent; the registry becomes what loading the replied list gives on a 200 list reply, and stays as it was otherwise; it stays well formed |
| Agent.VersionOpsAgent.RegisterHost | versionops_agent.py:211-236 | one registration request with the hostname and agent version 1.0.0 is sent; the result is True exactly on a 200 JSON object, and only then is the host id replaced, by the reply's |
| Agent.VersionOpsAgent.DiscoverApplications | versionops_agent.py:249-263 | returns every plugin's records, plugin after plugin in registry order, and records one discovery pass over the given host state |
| Agent.VersionOpsAgent.ReportApplications | versionops_agent.py:265-270 | without a host id, returns False and sends nothing; otherwise sends exactly the POSTs `Protocol.PostInOrder` characterises and returns their result |
| Agent.VersionOpsAgent.PostAll | versionops_agent.py:271-284 | the posting loop sends the records' POSTs in order, up to and including the first one that raises, and returns True exactly when none raised, as `Protocol.PostInOrder` characterises |
| Agent.VersionOpsAgent.CollectionCycle | versionops_agent.py:286-296 | runs one discovery pass and sends exactly the requests of reporting the registry's discoveries, and nothing when nothing is found |
| Agent.VersionOpsAgent.Startup | versionops_agent.py:302-312 | authenticates, loads and registers as `Open` describes, stopping after a failed authentication |
| Agent.VersionOpsAgent.RunOnce | versionops_agent.py:328-342 | returns 1 exactly when start-up fails, having sent only start-up's requests and run no discovery; otherwise runs exactly one collection cycle (one discovery pass) on the registry, host id and token start-up left, and returns 0 |
| Agent.VersionOpsAgent.RunDaemon | versionops_agent.py:298-326 | after a failed start-up: returns 1 with `running` set, no discovery has run, and nothing more is sent or slept. Otherwise its requests, sleeps, `running` flag and outcome are those of the loop model, and it runs one discovery pass per loop iteration, no more: pass `i` probes `hosts(i)`, and there are as many passes as sleeps, plus one when an interrupt ended the loop |
| Agent.VersionOpsAgent.MainLoop | versionops_agent.py:314-326 | the `while self.running` loop leaves exactly the requests, sleeps, flag and outcome that `Protocol.Loop` describes, after exactly one discovery pass per iteration run, over `hosts(0)`, …, `hosts(k - 1)`: `k <= fuel` is the number of sleeps, plus one when an interrupt ended the loop |
| Agent.VersionOpsAgent.Pass | versionops_agent.py:315-324 | one iteration of the loop keeps it on course for the history `Protocol.Loop` predicts: afterwards the remaining iterations still lead there, or the loop has stopped or unwound exactly there; it adds one discovery pass over `hosts(n)`, and one sleep exactly when the loop goes on |
| Agent.PassesAt | versionops_agent.py:314-316 | the daemon's discovery pass `i` probes the host state of iteration `i` |
| Agent.VersionOpsAgent.Iteration | versionops_agent.py:315-324 | one iteration runs the collection cycle (one discovery pass) and then:<br>• sleeps the interval (calm) or 60 s (fault, or an interval `time.sleep` rejects);<br>• clears `running` on an interrupt;<br>• unwinds on an interrupt during the cooldown |
| Agent.VersionOpsAgent.Stop | versionops_agent.py:344-346 | clears `running` |

## Left out

- HTTP transport (URLs, headers, JSON encoding, timeouts): a request is its endpoint and bearer token. A reply is a status with a body reduced to what the agent reads: a list of configurations, an object with or without `host_id`, or something that does not parse. Or it is a raised exception.
- The 401 and 403 branches of `authenticate` only log, so the model merges them with the other failures.
- `subprocess`, `os.path.exists` and `re.search` are oracles. The model does not give the actual regular-expression semantics or the process environment.
- `shlex.split` quoting and escaping rules: splitting is on whitespace only. A quoted argument containing spaces, or a string with unbalanced quotes (which raises in `shlex`), is not modelled.
- `ApplicationInfo.detected_at`, a wall-clock timestamp, is not part of a record.
- A fractional `collection_interval` from the configuration file, such as 0.5: `time.sleep` accepts it, but the model's interval is a whole number of seconds. The overflow bound `MaxSleep` is CPython's on platforms with a 64-bit nanosecond clock; other interpreters may reject a different range.
- Values of the wrong JSON type for `name` or `host_id`, such as numbers: both are strings in the model.
- `"version_regex": null`: `re.search(None, …)` raises, the handler at versionops_agent.py:436 catches it, and there is no version. In the model a missing pattern (`None`) always means the default pattern.
- A `version_command` list with items that are not strings: `' '.join` raises at versionops_agent.py:361, the handler at 375 turns it into exit status 1, and there is no version. In the model a list command (`Items`) holds only strings.
- A `default_paths` entry that is not a string, such as null: `os.path.exists` raises `TypeError`, the handler at versionops_agent.py:399 catches it, and the whole plugin returns `[]`, dropping records already found. In the model every candidate path is a string.
- `time.sleep` durations and real signal delivery:
  - interrupts arrive only after an iteration's collection cycle;
  - an interrupt in the middle of a cycle, which would cut a report short, is not modelled.
- `run_daemon` is cut off after `fuel` iterations (`Exit.Bounded`). The model does not describe an infinite run.
- Logging, loading and saving the configuration file, `setup_logging`, the systemd unit, `main` and argument parsing, `get_ip_address`, and the `ip_address` and `os_type` fields of the registration. These are I/O and platform queries with no effect on the modelled state.
