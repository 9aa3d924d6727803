/** How `DynamicPlugin.get_version` asks a candidate binary for its version:
    it builds a probe command from the configured `version_command`, hands it
    to `run_command` (which picks a shell or an argument vector and turns
    every failure into an exit code of 1), and extracts the version from the
    captured output with the configured pattern.

    The operating system and the regular-expression engine are oracles: a
    `Host` says whether a path exists, what running an invocation yields and
    what searching a text for a pattern finds. */
module Probe {
  import opened Wrappers
  import opened Strings

  /** Probe flag used when no `version_command` is configured, and when a
      command string has fewer than two words. */
  const DefaultFlag := "--version"

  /** Placeholder for the candidate path in a pipeline template. */
  const Placeholder := "{path}"

  /** Pattern used when no `version_regex` is configured. */
  const DefaultPattern := @"(\d+\.\d+\.\d+)"

  /** The standard-error text of a probe that hit the 30-second timeout. */
  const TimeoutMessage := "Command timeout"

  /** The `version_command` entry of an application configuration. */
  datatype CommandSpec =
    | Unset                     // the key is absent
    | Text(text: string)        // a string: pipeline template, flag or command line
    | Items(items: seq<string>) // a list of arguments
    | Unusable                  // null, a number or an object: `[path] + value` raises

  /** What `get_version` passes to `run_command`: a string or a list. */
  datatype Command = Line(line: string) | Argv(args: seq<string>)

  /** `s.startswith('--') or s.startswith('-')`. */
  predicate IsFlag(s: string) {
    "--" <= s || "-" <= s
  }

  /** The probe command for candidate `path`; `None` when building it raises,
      which `get_version` reports as "no version". */
  function BuildCommand(spec: CommandSpec, path: string): (c: Option<Command>)
    ensures c.None? <==> spec.Unusable?
    // only a configured string holding `|` becomes a shell line, and that line still holds `|`
    ensures c.Some? ==> (c.value.Line? <==> spec.Text? && '|' in spec.text)
    ensures c.Some? && c.value.Line? ==> '|' in c.value.line
    ensures c.Some? && c.value.Line? && !Contains(spec.text, Placeholder) ==> c.value.line == spec.text
    // a pipeline template has every `{path}` replaced by the candidate path
    ensures spec.Text? && '|' in spec.text && Contains(spec.text, Placeholder) ==>
              c == Some(Line(ReplaceAll(spec.text, Placeholder, path)))
    // an argument vector always runs the candidate path itself
    ensures c.Some? && c.value.Argv? ==> c.value.args != [] && c.value.args[0] == path
    ensures spec.Unset? ==> c == Some(Argv([path, DefaultFlag]))
    ensures spec.Items? ==> c == Some(Argv([path] + spec.items))
    ensures spec.Text? && '|' !in spec.text && IsFlag(spec.text) ==> c == Some(Argv([path, spec.text]))
    ensures spec.Text? && '|' !in spec.text && !IsFlag(spec.text) && |Split(spec.text)| <= 1 ==>
              c == Some(Argv([path, DefaultFlag]))
  {
    var command := if spec.Unset? then Text(DefaultFlag) else spec;
    match command
    case Text(s) =>
      if '|' in s then
        ReplaceKeeps(s, Placeholder, path, '|');
        Some(Line(if Contains(s, Placeholder) then ReplaceAll(s, Placeholder, path) else s))
      else if IsFlag(s) then
        Some(Argv([path, s]))
      else
        var parts := Split(s);
        Some(Argv(if |parts| > 1 then [path] + parts[1..] else [path, DefaultFlag]))
    case Items(a) => Some(Argv([path] + a))
    case _ => None
  }

  /** A command string that is neither a pipeline nor a flag runs the
      candidate path with the string's words after the first. */
  lemma WordsProbe(s: string, words: seq<string>, path: string)
    requires '|' !in s && !IsFlag(s)
    requires Split(s) == words
    ensures BuildCommand(Text(s), path)
            == Some(Argv([path] + (if |words| <= 1 then [DefaultFlag] else words[1..])))
  {
    assert [path] + [DefaultFlag] == [path, DefaultFlag];
  }

  /** A string that does not start with `-` is not a flag. */
  lemma NotFlag(s: string)
    requires s != [] && s[0] != '-'
    ensures !IsFlag(s)
  {
  }

  /** Words joined with single spaces: a string that starts with the first
      word, holds `|` only if a word does, and splits back into the words. */
  lemma JoinedWords(words: seq<string>)
    requires forall i | 0 <= i < |words| :: words[i] != [] && Solid(words[i]) && '|' !in words[i]
    requires words != []
    ensures var s := Join(words, " ");
            s != [] && s[0] == words[0][0] && '|' !in s && Split(s) == words
  {
    var s := Join(words, " ");
    if |words| > 1 {
      assert s == words[0] + " " + Join(words[1..], " ");
    }
    JoinContains(words, " ", '|');
    SplitJoin(words);
  }

  /** A command line made of words `program flag1 ... flagN` probes the
      candidate path with the same flags: the configured program name is
      dropped, and with no flags at all `--version` is used. */
  lemma TokenisedProbe(words: seq<string>, path: string)
    requires forall i | 0 <= i < |words| :: words[i] != [] && Solid(words[i]) && '|' !in words[i]
    requires words != [] && words[0][0] != '-'
    ensures BuildCommand(Text(Join(words, " ")), path)
            == Some(Argv([path] + (if |words| <= 1 then [DefaultFlag] else words[1..])))
  {
    var s := Join(words, " ");
    JoinedWords(words);
    NotFlag(s);
    WordsProbe(s, words, path);
  }

  /** How `run_command` executes a command: through the shell, or as an
      argument vector. */
  datatype Invocation = Shell(script: string) | Exec(argv: seq<string>)

  /** The string `run_command` searches for `|`: a list joined with single spaces. */
  function CommandText(c: Command): string {
    match c
    case Line(l) => l
    case Argv(a) => Join(a, " ")
  }

  /** The execution mode `run_command` picks. */
  function Dispatch(c: Command): (inv: Invocation)
    ensures inv.Shell? <==> '|' in CommandText(c)
    ensures inv.Shell? ==> inv.script == CommandText(c)
    ensures inv.Exec? && c.Argv? ==> inv.argv == c.args
    ensures inv.Exec? && c.Line? ==> inv.argv == Split(c.line)
  {
    var text := CommandText(c);
    if '|' in text then Shell(text)
    else
      match c
      case Line(l) => Exec(Split(l))
      case Argv(a) => Exec(a)
  }

  /** An argument vector is handed to the shell, joined with spaces, exactly
      when one of its arguments holds `|`; otherwise it runs unchanged. */
  lemma VectorDispatch(args: seq<string>)
    ensures Dispatch(Argv(args)).Shell? <==> exists i | 0 <= i < |args| :: '|' in args[i]
    ensures Dispatch(Argv(args)).Exec? ==> Dispatch(Argv(args)) == Exec(args)
  {
    JoinContains(args, " ", '|');
  }

  /** What the operating system reports for one invocation: it finished with
      an exit status, it hit the 30-second timeout, or it could not be run
      at all (missing executable, permission denied, ...). */
  datatype Outcome =
    | Finished(out: string, err: string, status: int)
    | TimedOut
    | Failed(reason: string)

  /** The `(stdout, stderr, returncode)` triple `run_command` returns. */
  datatype Captured = Captured(stdout: string, stderr: string, code: int)

  /** `run_command`: runs `c` and never raises. */
  function RunCommand(c: Command, exec: Invocation -> Outcome): (r: Captured)
    ensures exec(Dispatch(c)).Finished? ==>
              r == Captured(exec(Dispatch(c)).out, exec(Dispatch(c)).err, exec(Dispatch(c)).status)
    ensures !exec(Dispatch(c)).Finished? ==> r.stdout == "" && r.code == 1
    ensures exec(Dispatch(c)).TimedOut? ==> r.stderr == TimeoutMessage
    ensures exec(Dispatch(c)).Failed? ==> r.stderr == exec(Dispatch(c)).reason
  {
    match exec(Dispatch(c))
    case Finished(out, err, status) => Captured(out, err, status)
    case TimedOut => Captured("", TimeoutMessage, 1)
    case Failed(reason) => Captured("", reason, 1)
  }

  /** What `re.search(pattern, text)` followed by `.group(1)` yields: no
      match; a match whose group 1 captured text or did not take part
      (`None`); or an exception (the pattern does not compile, or it has no
      group 1). */
  datatype Search = NoMatch | Matched(group: Option<string>) | Raises

  /** The version `get_version` extracts from a probe's output. */
  function ExtractVersion(r: Captured, pattern: string, search: (string, string) -> Search): (v: Option<string>)
    // a failed probe never yields a version, whatever it printed
    ensures r.code != 0 ==> v.None?
    // a version is group 1 of a match in stdout, or in stderr when stdout has no match
    ensures v.Some? ==>
              search(pattern, r.stdout) == Matched(v) ||
              (search(pattern, r.stdout) == NoMatch && search(pattern, r.stderr) == Matched(v))
    // a match in stdout takes precedence over stderr
    ensures r.code == 0 && search(pattern, r.stdout).Matched? ==> v == search(pattern, r.stdout).group
    ensures r.code == 0 && search(pattern, r.stdout) == NoMatch && search(pattern, r.stderr).Matched? ==>
              v == search(pattern, r.stderr).group
  {
    if r.code != 0 then None
    else
      match search(pattern, r.stdout)
      case Matched(g) => g
      case Raises => None
      case NoMatch =>
        match search(pattern, r.stderr)
        case Matched(g) => g
        case _ => None
  }

  /** The machine the agent runs on, as far as discovery can observe it. */
  datatype Host = Host(
    present: string -> bool,               // os.path.exists
    exec: Invocation -> Outcome,           // subprocess.run with a 30-second timeout
    search: (string, string) -> Search)    // re.search(pattern, text).group(1)

  /** `get_version(path)` for a configuration with the given probe command
      and (optional) pattern. */
  function GetVersion(spec: CommandSpec, regex: Option<string>, path: string, host: Host): (v: Option<string>)
    // no command, no version; otherwise the version is what extraction finds in the probe's output
    ensures BuildCommand(spec, path).None? ==> v.None?
    ensures BuildCommand(spec, path).Some? ==>
              v == ExtractVersion(RunCommand(BuildCommand(spec, path).value, host.exec),
                                  regex.GetOr(DefaultPattern), host.search)
    ensures v.Some? ==> BuildCommand(spec, path).Some?
    ensures v.Some? ==> RunCommand(BuildCommand(spec, path).value, host.exec).code == 0
    ensures v.Some? ==>
              var out := RunCommand(BuildCommand(spec, path).value, host.exec);
              var pattern := regex.GetOr(DefaultPattern);
              host.search(pattern, out.stdout) == Matched(v) ||
              host.search(pattern, out.stderr) == Matched(v)
  {
    match BuildCommand(spec, path)
    case None => None
    case Some(c) => ExtractVersion(RunCommand(c, host.exec), regex.GetOr(DefaultPattern), host.search)
  }
}
