/** `DynamicPlugin.discover`: one application configuration sent by the
    server, probed at each of its candidate paths in order. A plugin holds
    nothing but its configuration and never changes it, so a plugin is
    modelled by its `Descriptor`. */
module Discovery {
  import opened Wrappers
  import opened Probe

  /** The `detection_method` of an `ApplicationInfo`. */
  datatype DetectionMethod = Auto | DynamicPlugin

  /** An `ApplicationInfo` record, without its `detected_at` timestamp. */
  datatype AppRecord = AppRecord(name: string, version: string, path: string, detectionMethod: DetectionMethod)

  /** An application configuration as the server sends it. `name` is `None`
      when the key is missing. `paths` is what `for path in paths` walks
      through for `default_paths`: the elements of a list, the keys of an
      object in order, or the one-character strings of a string. It is
      `None` when the key is absent, or when its value (null, a number, a
      boolean) cannot be iterated and `discover` returns no records: both
      yield no candidates. */
  datatype Descriptor = Descriptor(
    name: Option<string>,
    paths: Option<seq<string>>,
    command: CommandSpec,          // version_command
    regex: Option<string>)         // version_regex

  /** The candidate paths `discover` walks through. */
  function Candidates(d: Descriptor): seq<string> {
    if d.paths.Some? then d.paths.value else []
  }

  /** The version `discover` accepts for `path`: the path exists and
      `get_version` returns a non-empty string. */
  function VersionAt(d: Descriptor, path: string, host: Host): (v: Option<string>)
    ensures v.Some? <==>
              host.present(path) && GetVersion(d.command, d.regex, path, host).Some? &&
              GetVersion(d.command, d.regex, path, host).value != ""
    ensures v.Some? ==> GetVersion(d.command, d.regex, path, host) == v
  {
    if !host.present(path) then None
    else
      match GetVersion(d.command, d.regex, path, host)
      case Some(v) => if v != "" then Some(v) else None
      case None => None
  }

  /** The version `discover` accepts at each path, as a function. */
  function Accept(d: Descriptor, host: Host): string -> Option<string> {
    (path: string) => VersionAt(d, path, host)
  }

  /** The records found at the paths `ps`, in their order, named `name`,
      when `accept` gives the version accepted at a path. */
  function FoundIn(name: string, ps: seq<string>, accept: string -> Option<string>): seq<AppRecord> {
    if ps == [] then []
    else
      (match accept(ps[0])
       case Some(v) => [AppRecord(name, v, ps[0], DynamicPlugin)]
       case None => [])
      + FoundIn(name, ps[1..], accept)
  }

  /** What `discover` returns. Without a name no record can be built (the
      `KeyError` at record construction is caught and yields `[]`). */
  function Found(d: Descriptor, host: Host): seq<AppRecord> {
    if d.name.None? then [] else FoundIn(d.name.value, Candidates(d), Accept(d, host))
  }

  /** `DynamicPlugin.discover`. */
  method Discover(d: Descriptor, host: Host) returns (apps: seq<AppRecord>)
    ensures apps == Found(d, host)
  {
    apps := [];
    var paths := Candidates(d);
    var i := 0;
    while i < |paths|
      invariant 0 <= i <= |paths|
      invariant d.name.Some? ==> apps == FoundIn(d.name.value, paths[..i], Accept(d, host))
      invariant d.name.None? ==> apps == []
    {
      var path := paths[i];
      var version := ProbePath(d, path, host);
      if version.Some? {
        if d.name.None? {
          // `self.app_config["name"]` raises; the handler returns []
          return [];
        }
        apps := apps + [AppRecord(d.name.value, version.value, path, DynamicPlugin)];
      }
      if d.name.Some? {
        assert paths[..i + 1] == paths[..i] + [path];
        FoundInSnoc(d.name.value, paths[..i], path, Accept(d, host));
      }
      i := i + 1;
    }
    assert paths[..i] == paths;
  }

  /** The probe of one candidate path in `discover`: the version, when
      the path exists and `get_version` gives a non-empty string there. */
  method ProbePath(d: Descriptor, path: string, host: Host) returns (accepted: Option<string>)
    ensures accepted.Some? <==>
              host.present(path) && GetVersion(d.command, d.regex, path, host).Some? &&
              GetVersion(d.command, d.regex, path, host).value != ""
    ensures accepted.Some? ==> accepted == GetVersion(d.command, d.regex, path, host)
    // the same as the version `Found` accepts at `path`
    ensures accepted == Accept(d, host)(path)
  {
    accepted := None;
    if host.present(path) {
      var version := GetVersion(d.command, d.regex, path, host);
      if version.Some? && version.value != "" {
        accepted := version;
      }
    }
  }

  /** Discovery over a list of paths is discovery over its parts, one after
      the other: records keep the order of the paths they were found at. */
  lemma {:induction false} FoundInConcat(name: string, ps: seq<string>, qs: seq<string>, accept: string -> Option<string>)
    ensures FoundIn(name, ps + qs, accept) == FoundIn(name, ps, accept) + FoundIn(name, qs, accept)
    decreases |ps|
  {
    if ps == [] {
      assert ps + qs == qs;
    } else {
      assert (ps + qs)[0] == ps[0];
      assert (ps + qs)[1..] == ps[1..] + qs;
      FoundInConcat(name, ps[1..], qs, accept);
    }
  }

  /** One more path adds its record, if a version is accepted there. */
  lemma FoundInSnoc(name: string, ps: seq<string>, p: string, accept: string -> Option<string>)
    ensures FoundIn(name, ps + [p], accept) ==
            FoundIn(name, ps, accept) + if accept(p).Some? then [AppRecord(name, accept(p).value, p, DynamicPlugin)] else []
  {
    FoundInConcat(name, ps, [p], accept);
    assert [p][1..] == [];
  }

  /** There are at most as many records as paths, and every record stands
      for one of the paths, with the version accepted there, the given name
      and the `dynamic_plugin` method. */
  lemma {:induction false} FoundInSound(name: string, ps: seq<string>, accept: string -> Option<string>)
    ensures |FoundIn(name, ps, accept)| <= |ps|
    ensures forall r | r in FoundIn(name, ps, accept) ::
              r.name == name && r.path in ps && r.detectionMethod == DynamicPlugin &&
              accept(r.path) == Some(r.version)
    decreases |ps|
  {
    if ps != [] {
      FoundInSound(name, ps[1..], accept);
      forall r | r in FoundIn(name, ps[1..], accept) ensures r.path in ps {
        assert r.path in ps[1..];
      }
    }
  }

  /** Every path at which a version is accepted gives a record, with exactly
      that version. */
  lemma {:induction false} FoundInComplete(name: string, ps: seq<string>, accept: string -> Option<string>)
    ensures forall p | p in ps && accept(p).Some? ::
              AppRecord(name, accept(p).value, p, DynamicPlugin) in FoundIn(name, ps, accept)
    decreases |ps|
  {
    if ps != [] {
      FoundInComplete(name, ps[1..], accept);
      forall p | p in ps && accept(p).Some?
        ensures AppRecord(name, accept(p).value, p, DynamicPlugin) in FoundIn(name, ps, accept)
      {
        if p != ps[0] {
          assert p in ps[1..];
        }
      }
    }
  }

  /** `discover` yields exactly the records of the existing candidate paths
      that give a non-empty version, and nothing when the configuration is
      unnamed. */
  lemma FoundCharacterised(d: Descriptor, host: Host)
    ensures d.name.None? ==> Found(d, host) == []
    ensures forall r | r in Found(d, host) ::
              Some(r.name) == d.name && r.path in Candidates(d) && r.detectionMethod == DynamicPlugin &&
              VersionAt(d, r.path, host) == Some(r.version) &&
              host.present(r.path) && r.version != "" &&
              GetVersion(d.command, d.regex, r.path, host) == Some(r.version)
    ensures d.name.Some? ==>
              forall p | p in Candidates(d) && VersionAt(d, p, host).Some? ::
                AppRecord(d.name.value, VersionAt(d, p, host).value, p, DynamicPlugin) in Found(d, host)
  {
    if d.name.Some? {
      FoundInSound(d.name.value, Candidates(d), Accept(d, host));
      FoundInComplete(d.name.value, Candidates(d), Accept(d, host));
    }
  }
}
