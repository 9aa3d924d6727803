/** The `VersionOpsAgent` object: its session state (the bearer token its
    HTTP session carries, the registered host id, the plugin registry, the
    `running` flag) and the operations that update it, from authentication
    to the periodic collection loop.

    Two histories stand for what the agent does to the outside world: `sent`,
    every request the session has sent, and `slept`, the length of every
    sleep that completed. The server's replies come from the oracle
    `server`, indexed by the number of requests sent before. */
module Agent {
  import opened Wrappers
  import opened Probe
  import opened Discovery
  import opened Registry
  import opened Protocol

  /** The configuration entries the core reads. */
  datatype Config = Config(
    backendUrl: string,         // backend_url
    serviceToken: string,       // service_token
    hostname: string,           // hostname
    collectionInterval: int)    // collection_interval, in seconds

  /** `validate_config`: both the backend URL and the service token are set
      (the backend URL is checked first, but the result is the same). */
  function ValidateConfig(c: Config): (ok: bool)
    ensures ok <==> c.backendUrl != "" && c.serviceToken != ""
  {
    if c.backendUrl == "" then false
    else if c.serviceToken == "" then false
    else true
  }

  /** What the start-up sequence shared by `run_once` and `run_daemon`
      (`authenticate`, then `load_plugins`, then `register_host`) sends and
      leaves: the requests, whether it may go on, and the new registry,
      host id and session token. */
  datatype Opening = Opening(requests: seq<Request>, ok: bool, plugins: seq<Entry>,
                             hostId: Option<string>, bearer: Option<string>)

  /** The start-up sequence, its first request being the `n`-th, from
      registry `reg`, host id `hostId` and session token `bearer`. Without a
      token `authenticate` fails before sending anything; a failed
      authentication stops before `load_plugins`; `load_plugins` never
      fails; a failed registration leaves the host id as it was. */
  function Open(config: Config, server: nat -> Response, n: nat,
                reg: seq<Entry>, hostId: Option<string>, bearer: Option<string>): Opening
  {
    if config.serviceToken == "" then Opening([], false, reg, hostId, bearer)
    else
      var token := Some(config.serviceToken);
      var auth := Request(ApplicationConfigs, token);
      if !Accepted(server(n)) then Opening([auth], false, reg, hostId, token)
      else
        var loaded := LoadedFrom(reg, server(n + 1));
        var reqs := [auth, Request(ApplicationConfigs, token), Request(Register(config.hostname, AgentVersion), token)];
        var reply := server(n + 2);
        if Registers(reply) then Opening(reqs, true, loaded, reply.body.hostId, token)
        else Opening(reqs, false, loaded, hostId, token)
  }

  /** Start-up succeeds exactly when a token is configured, the server
      accepts it and then accepts the registration. It then has sent three
      requests, all carrying the token: the token check, the configuration
      fetch and the registration, and the host id is the one the server
      assigned. The registry changes only after a successful token check,
      and then as `load_plugins` dictates. */
  lemma StartupOutcome(config: Config, server: nat -> Response, n: nat,
                       reg: seq<Entry>, hostId: Option<string>, bearer: Option<string>)
    ensures var o := Open(config, server, n, reg, hostId, bearer);
            (o.ok <==> config.serviceToken != "" && Accepted(server(n)) && Registers(server(n + 2))) &&
            (o.requests == [] <==> config.serviceToken == "") &&
            (config.serviceToken != "" ==>
               o.bearer == Some(config.serviceToken) &&
               forall i | 0 <= i < |o.requests| :: o.requests[i].bearer == o.bearer) &&
            (o.ok ==> |o.requests| == 3 && o.requests[2].endpoint == Register(config.hostname, AgentVersion) &&
                      o.hostId == server(n + 2).body.hostId) &&
            (!o.ok ==> o.hostId == hostId) &&
            (o.plugins == if config.serviceToken != "" && Accepted(server(n)) then LoadedFrom(reg, server(n + 1)) else reg)
  {
  }

  /** A configuration that passes `validate_config` always gets as far as
      asking the server: start-up's first request is the token check, sent
      with the configured token. */
  lemma ValidatedConfigReachesServer(config: Config, server: nat -> Response, n: nat,
                                     reg: seq<Entry>, hostId: Option<string>, bearer: Option<string>)
    requires ValidateConfig(config)
    ensures var o := Open(config, server, n, reg, hostId, bearer);
            o.requests != [] && o.requests[0] == Request(ApplicationConfigs, Some(config.serviceToken))
  {
  }

  /** A registration reply without a host id still counts as success, but
      every collection cycle after it then sends nothing. */
  lemma RegisteredWithoutIdReportsNothing(config: Config, server: nat -> Response, n: nat,
                                          reg: seq<Entry>, hostId: Option<string>, bearer: Option<string>,
                                          apps: seq<AppRecord>, m: nat)
    requires Registers(server(n + 2)) && server(n + 2).body.hostId.None?
    requires config.serviceToken != "" && Accepted(server(n))
    ensures var o := Open(config, server, n, reg, hostId, bearer);
            o.ok && CycleRequests(apps, o.hostId, o.bearer, server, m) == []
  {
    CycleOnlyReportsDiscovered(apps, None, Some(config.serviceToken), server, m);
  }

  /** Start-up keeps the registry well formed. */
  lemma StartupKeepsRegistryValid(config: Config, server: nat -> Response, n: nat,
                                  reg: seq<Entry>, hostId: Option<string>, bearer: Option<string>)
    requires Registry.Valid(reg)
    ensures Registry.Valid(Open(config, server, n, reg, hostId, bearer).plugins)
  {
    LoadedValid(reg, server(n + 1));
    var plugins := Open(config, server, n, reg, hostId, bearer).plugins;
    assert plugins == reg || plugins == LoadedFrom(reg, server(n + 1));
  }

  /** Whatever the server replies, `load_plugins` keeps the registry well
      formed. */
  lemma LoadedValid(reg: seq<Entry>, r: Response)
    requires Registry.Valid(reg)
    ensures Registry.Valid(LoadedFrom(reg, r))
  {
    if Accepted(r) && r.body.ConfigList? {
      LoadKeepsOrder(reg, r.body.configs);
    }
  }

  /** The start-up sequence once the token check has passed, in the shape
      `Startup` produces it: three requests, then what registration decides.
      Stated once here so that `Startup` need not unfold `Open` itself. */
  lemma OpenAccepted(config: Config, server: nat -> Response, n: nat,
                     reg: seq<Entry>, hostId: Option<string>, bearer: Option<string>)
    requires config.serviceToken != "" && Accepted(server(n))
    ensures var token := Some(config.serviceToken);
            var reply := server(n + 2);
            Open(config, server, n, reg, hostId, bearer) ==
              Opening([Request(ApplicationConfigs, token), Request(ApplicationConfigs, token),
                       Request(Register(config.hostname, AgentVersion), token)],
                      Registers(reply), LoadedFrom(reg, server(n + 1)),
                      if Registers(reply) then reply.body.hostId else hostId, token)
  {
  }

  /** Three requests sent one after the other extend the history by all three.
      Stated once here so that `Startup` need not rediscover it: without it that
      proof costs the solver about three times as much. */
  lemma AppendThree(s: seq<Request>, a: Request, b: Request, c: Request)
    ensures s + [a] + [b] + [c] == s + [a, b, c]
  {
  }

  /** What each daemon iteration discovers: the records of the registry's
      plugins on that iteration's host state. */
  function Discoveries(reg: seq<Entry>, hosts: nat -> Host): nat -> seq<AppRecord> {
    (i: nat) => DiscoverAll(reg, hosts(i))
  }

  /** The host states of the daemon's first `n` discovery passes. */
  function Passes(hosts: nat -> Host, n: nat): (r: seq<Host>)
    ensures |r| == n
  {
    if n == 0 then [] else Passes(hosts, n - 1) + [hosts(n - 1)]
  }

  /** Pass `i` of the daemon probes host state `hosts(i)`. */
  lemma {:induction false} PassesAt(hosts: nat -> Host, n: nat, i: nat)
    requires i < n
    ensures Passes(hosts, n)[i] == hosts(i)
  {
    if i < n - 1 {
      PassesAt(hosts, n - 1, i);
    }
  }

  /** One more discovery pass extends the history by the next host state. */
  lemma PassesSnoc(before: seq<Host>, hosts: nat -> Host, n: nat)
    ensures before + Passes(hosts, n) + [hosts(n)] == before + Passes(hosts, n + 1)
  {
    assert Passes(hosts, n + 1) == Passes(hosts, n) + [hosts(n)];
  }

  class VersionOpsAgent {
    const config: Config
    const server: nat -> Response
    var bearer: Option<string>       // the session's Authorization header
    var running: bool
    var hostId: Option<string>
    var plugins: seq<Entry>          // the `plugins` dictionary
    var sent: seq<Request>
    var slept: seq<int>
    // every host state a discovery pass has probed, oldest first
    ghost var probed: seq<Host>

    /** The registry is well formed. */
    ghost predicate Valid()
      reads this`plugins
    {
      Registry.Valid(plugins)
    }

    /** A fresh agent: no token, no host id, no plugins, not running. */
    constructor (config: Config, server: nat -> Response)
      ensures this.config == config && this.server == server
      ensures bearer == None && !running && hostId == None && plugins == []
      ensures sent == [] && slept == [] && probed == []
      ensures Valid()
    {
      this.config := config;
      this.server := server;
      bearer := None;
      running := false;
      hostId := None;
      plugins := [];
      sent := [];
      slept := [];
      probed := [];
    }

    /** Sends one request with the session's current token and returns the
        server's reply. */
    method Send(e: Endpoint) returns (r: Response)
      modifies this`sent
      ensures sent == old(sent) + [Request(e, bearer)]
      ensures r == server(|old(sent)|)
    {
      r := server(|sent|);
      sent := sent + [Request(e, bearer)];
    }

    /** `time.sleep(seconds)`, completed. */
    method Sleep(seconds: int)
      modifies this`slept
      ensures slept == old(slept) + [seconds]
    {
      slept := slept + [seconds];
    }

    /** `authenticate`: without a token it fails at once; otherwise it puts
        the token in the session and succeeds exactly when the server
        answers the configuration request with 200 (401, 403, any other
        status and a transport exception all fail). */
    method Authenticate() returns (ok: bool)
      modifies this`bearer, this`sent
      ensures config.serviceToken == "" ==> !ok && bearer == old(bearer) && sent == old(sent)
      ensures config.serviceToken != "" ==>
                bearer == Some(config.serviceToken) &&
                sent == old(sent) + [Request(ApplicationConfigs, bearer)] &&
                (ok <==> Accepted(server(|old(sent)|)))
    {
      if config.serviceToken == "" {
        return false;
      }
      bearer := Some(config.serviceToken);
      var response := Send(ApplicationConfigs);
      if response.Raised? {
        return false;
      }
      if response.status == 200 {
        return true;
      } else if response.status == 401 {
        return false;
      } else if response.status == 403 {
        return false;
      } else {
        return false;
      }
    }

    /** `load_plugins`: fetches the configurations and stores a plugin per
        configuration under its name, up to the first unnamed one; any other
        reply, or an exception, leaves the registry as it was. */
    method LoadPlugins()
      requires Valid()
      modifies this`plugins, this`sent
      ensures Valid()
      ensures sent == old(sent) + [Request(ApplicationConfigs, bearer)]
      ensures plugins == LoadedFrom(old(plugins), server(|old(sent)|))
    {
      var response := Send(ApplicationConfigs);
      if response.Raised? || response.status != 200 || !response.body.ConfigList? {
        return;
      }
      var configs := response.body.configs;
      var i := 0;
      while i < |configs|
        invariant 0 <= i <= |configs|
        invariant Registry.Valid(plugins)
        invariant sent == old(sent) + [Request(ApplicationConfigs, bearer)]
        invariant Load(old(plugins), configs) == Load(plugins, configs[i..])
      {
        var config := configs[i];
        if config.name.None? {
          // `config["name"]` raises; the handler around the loop catches it
          break;
        }
        var name := config.name.value;
        PutValid(plugins, config);
        assert configs[i..][1..] == configs[i + 1..];
        plugins := Put(plugins, name, config);
        i := i + 1;
      }
    }

    /** `register_host`: succeeds exactly when the server answers the
        registration with 200 and a JSON object, and then takes the host id
        from it (which may be missing). */
    method RegisterHost() returns (ok: bool)
      modifies this`hostId, this`sent
      ensures sent == old(sent) + [Request(Register(config.hostname, AgentVersion), bearer)]
      ensures ok <==> Registers(server(|old(sent)|))
      ensures hostId == if ok then server(|old(sent)|).body.hostId else old(hostId)
    {
      var response := Send(Register(config.hostname, AgentVersion));
      if response.Raised? || response.status != 200 {
        return false;
      }
      match response.body
      case HostInfo(id) =>
        hostId := id;
        return true;
      case _ =>
        // `data.get` on a list, or `response.json()` on text, raises
        return false;
    }

    /** `discover_applications`: every plugin's records, plugin after plugin
        in registry order. */
    method DiscoverApplications(host: Host) returns (apps: seq<AppRecord>)
      modifies this`probed
      ensures apps == DiscoverAll(plugins, host)
      ensures probed == old(probed) + [host]
    {
      apps := [];
      var i := 0;
      while i < |plugins|
        invariant 0 <= i <= |plugins|
        invariant apps == DiscoverAll(plugins[..i], host)
        invariant probed == old(probed)
      {
        var found := Discover(plugins[i].plugin, host);
        assert plugins[..i + 1][..i] == plugins[..i];
        apps := apps + found;
        i := i + 1;
      }
      assert plugins[..i] == plugins;
      probed := probed + [host];
    }

    /** `report_applications`: without a host id nothing is sent and the
        result is False; otherwise the records are posted under it. */
    method ReportApplications(apps: seq<AppRecord>) returns (ok: bool)
      modifies this`sent
      ensures sent == old(sent) + Report(apps, hostId, bearer, server, |old(sent)|).requests
      ensures ok == Report(apps, hostId, bearer, server, |old(sent)|).ok
    {
      if hostId.None? || hostId.value == "" {
        return false;
      }
      ok := PostAll(hostId.value, apps);
    }

    /** The loop of `report_applications`: posts each record in order under
        host id `id`, ignoring the status of each reply; an exception ends
        the loop with False. */
    method PostAll(id: string, apps: seq<AppRecord>) returns (ok: bool)
      modifies this`sent
      ensures var p := Post(apps, id, bearer, server, |old(sent)|);
              sent == old(sent) + p.requests && ok == p.ok
    {
      ghost var whole := Post(apps, id, bearer, server, |sent|);
      ghost var done: seq<Request> := [];
      var pending := apps;
      while pending != []
        invariant sent == old(sent) + done
        invariant whole == var p := Post(pending, id, bearer, server, |sent|);
                           Posting(done + p.requests, p.ok)
      {
        var app := pending[0];
        PostStep(whole, id, bearer, server, |sent|, done, pending);
        var response := Send(Applications(id, app));
        if response.Raised? {
          return false;
        }
        done := done + [Request(Applications(id, app), bearer)];
        pending := pending[1..];
      }
      return true;
    }

    /** `collection_cycle`: discovery, then a report when something was
        found; the report's result is ignored. */
    method CollectionCycle(host: Host)
      modifies this`sent, this`probed
      ensures sent == old(sent) + CycleRequests(DiscoverAll(plugins, host), hostId, bearer, server, |old(sent)|)
      ensures probed == old(probed) + [host]
    {
      var applications := DiscoverApplications(host);
      if applications != [] {
        var _ := ReportApplications(applications);
      }
    }

    /** The start-up sequence shared by `run_once` and `run_daemon`. */
    method Startup() returns (ok: bool)
      requires Valid()
      modifies this`bearer, this`plugins, this`hostId, this`sent
      ensures Valid()
      ensures var o := Open(config, server, |old(sent)|, old(plugins), old(hostId), old(bearer));
              ok == o.ok && sent == old(sent) + o.requests &&
              plugins == o.plugins && hostId == o.hostId && bearer == o.bearer
    {
      ghost var o := Open(config, server, |sent|, plugins, hostId, bearer);
      ghost var s0 := sent;
      var authenticated := Authenticate();
      if !authenticated {
        assert o.requests == [] || o.requests == [Request(ApplicationConfigs, bearer)];
        return false;
      }
      ghost var token := bearer;
      OpenAccepted(config, server, |s0|, old(plugins), old(hostId), old(bearer));
      LoadPlugins();
      ok := RegisterHost();
      AppendThree(s0, Request(ApplicationConfigs, token), Request(ApplicationConfigs, token),
                  Request(Register(config.hostname, AgentVersion), token));
    }

    /** `run_once`: start-up, then one collection cycle; 1 when start-up
        fails, 0 otherwise. */
    method RunOnce(host: Host) returns (code: int)
      requires Valid()
      modifies this`bearer, this`plugins, this`hostId, this`sent, this`probed
      ensures Valid()
      ensures var o := Open(config, server, |old(sent)|, old(plugins), old(hostId), old(bearer));
              (code == 0 <==> o.ok) && (code == 1 <==> !o.ok) &&
              plugins == o.plugins && hostId == o.hostId && bearer == o.bearer
      // a failed start-up sends nothing more and discovers nothing
      ensures var o := Open(config, server, |old(sent)|, old(plugins), old(hostId), old(bearer));
              !o.ok ==> sent == old(sent) + o.requests && probed == old(probed)
      // the cycle runs on the registry, host id and token start-up left
      ensures var o := Open(config, server, |old(sent)|, old(plugins), old(hostId), old(bearer));
              o.ok ==> probed == old(probed) + [host]
      ensures var o := Open(config, server, |old(sent)|, old(plugins), old(hostId), old(bearer));
              o.ok ==> sent == old(sent) + o.requests +
                               CycleRequests(DiscoverAll(plugins, host), hostId, bearer, server, |old(sent) + o.requests|)
    {
      var ok := Startup();
      if !ok {
        return 1;
      }
      CollectionCycle(host);
      return 0;
    }

    /** `run_daemon`: sets `running`, runs start-up (1 when it fails), then
        loops over collection cycles until an interrupt: iteration `i` sees
        host state `hosts(i)` and ends as `fates(i)`, and the loop is cut
        off after `fuel` iterations. */
    method RunDaemon(hosts: nat -> Host, fates: nat -> Fate, fuel: nat) returns (exit: Exit)
      requires Valid()
      modifies this`bearer, this`plugins, this`hostId, this`sent, this`slept, this`running, this`probed
      ensures Valid()
      ensures var o := Open(config, server, |old(sent)|, old(plugins), old(hostId), old(bearer));
              plugins == o.plugins && hostId == o.hostId && bearer == o.bearer
      // a failed start-up ends the daemon before any discovery
      ensures var o := Open(config, server, |old(sent)|, old(plugins), old(hostId), old(bearer));
              !o.ok ==> exit == Returned(1) && running && sent == old(sent) + o.requests && slept == old(slept) &&
                        probed == old(probed)
      // the loop runs on the registry, host id and token start-up left; each
      // iteration it runs is one discovery pass, pass `i` on host state
      // `hosts(i)`, and every iteration sleeps except one an interrupt ends
      ensures var o := Open(config, server, |old(sent)|, old(plugins), old(hostId), old(bearer));
              o.ok ==>
                var e := Loop(Context(hostId, bearer, server, config.collectionInterval),
                              Discoveries(plugins, hosts), fates, fuel, 0, |old(sent) + o.requests|);
                exit == e.exit && running == e.running &&
                sent == old(sent) + o.requests + e.sent && slept == old(slept) + e.slept &&
                probed == old(probed) + Passes(hosts, |e.slept| + if e.exit.Bounded? then 0 else 1)
    {
      running := true;
      var ok := Startup();
      if !ok {
        return Returned(1);
      }
      ghost var e, k;
      exit, e, k := MainLoop(hosts, fates, fuel);
    }


    /** The `while self.running` loop of `run_daemon`, entered with `running`
        set, iteration `i` running on host state `hosts(i)`: it ends as the
        loop model dictates, and touches neither the registry, nor the host
        id, nor the session token. */
    method MainLoop(hosts: nat -> Host, fates: nat -> Fate, fuel: nat) returns (exit: Exit, ghost e: LoopEnd, ghost k: nat)
      requires running
      modifies this`sent, this`slept, this`running, this`probed
      ensures k <= fuel && probed == old(probed) + Passes(hosts, k)
      ensures e == Loop(Context(hostId, bearer, server, config.collectionInterval),
                        Discoveries(plugins, hosts), fates, fuel, 0, |old(sent)|)
      // one pass per iteration run: each sleeps, except one an interrupt ends
      ensures k == |e.slept| + if e.exit.Bounded? then 0 else 1
      ensures exit == e.exit && running == e.running
      ensures sent == old(sent) + e.sent && slept == old(slept) + e.slept
    {
      ghost var ctx := Context(hostId, bearer, server, config.collectionInterval);
      ghost var found := Discoveries(plugins, hosts);
      ghost var sent0, slept0, probed0 := sent, slept, probed;
      e := Loop(ctx, found, fates, fuel, 0, |sent0|);
      // the history the loop will have left: `e` after what came before
      ghost var whole := Resume(ctx, found, fates, fuel, 0, sent0, slept0);
      var n, unwound := 0, false;
      while running && !unwound && n < fuel
        invariant n <= fuel
        invariant ctx == Context(hostId, bearer, server, config.collectionInterval)
        invariant unwound ==> running && whole == LoopEnd(sent, slept, true, Unwound)
        invariant running && !unwound ==> whole == Resume(ctx, found, fates, fuel, n, sent, slept)
        invariant !running ==> whole == LoopEnd(sent, slept, false, Returned(0))
        invariant probed == probed0 + Passes(hosts, n)
        invariant |slept0| + n == |slept| + if running && !unwound then 0 else 1
      {
        unwound := Pass(hosts, fates, fuel, n, ctx, found, whole, probed0);
        n := n + 1;
      }
      k := n;
      if unwound {
        exit := Unwound;
      } else if running {
        ResumeEnd(ctx, found, fates, fuel, n, sent, slept);
        exit := Bounded;
      } else {
        exit := Returned(0);
      }
      assert whole == LoopEnd(sent, slept, running, exit) == LoopEnd(sent0 + e.sent, slept0 + e.slept, e.running, e.exit);
    }

    /** Iteration `n` of the daemon loop, still running, against the history
        `whole` the loop will have left: afterwards the remaining iterations
        still lead to `whole`, or the loop has stopped there, and the pass
        has probed `hosts(n)`. */
    method Pass(hosts: nat -> Host, fates: nat -> Fate, fuel: nat, n: nat,
                ghost ctx: Context, ghost found: nat -> seq<AppRecord>, ghost whole: LoopEnd,
                ghost probed0: seq<Host>) returns (unwound: bool)
      requires n < fuel && running
      requires ctx == Context(hostId, bearer, server, config.collectionInterval)
      requires found == Discoveries(plugins, hosts)
      requires whole == Resume(ctx, found, fates, fuel, n, sent, slept)
      requires probed == probed0 + Passes(hosts, n)
      modifies this`sent, this`slept, this`running, this`probed
      ensures probed == probed0 + Passes(hosts, n + 1)
      ensures |slept| == |old(slept)| + if !unwound && running then 1 else 0
      ensures unwound ==> running && whole == LoopEnd(sent, slept, true, Unwound)
      ensures !unwound && running ==> whole == Resume(ctx, found, fates, fuel, n + 1, sent, slept)
      ensures !unwound && !running ==> whole == LoopEnd(sent, slept, false, Returned(0))
    {
      ghost var reqs := CycleRequests(found(n), ctx.hostId, ctx.bearer, ctx.server, |sent|);
      if fates(n) == Interrupted {
        ResumeInterrupted(ctx, found, fates, fuel, n, sent, slept, reqs);
      } else if fates(n) == FaultedThenInterrupted {
        ResumeUnwound(ctx, found, fates, fuel, n, sent, slept, reqs);
      } else {
        ResumeGoesOn(ctx, found, fates, fuel, n, sent, slept, reqs);
      }
      PassesSnoc(probed0, hosts, n);
      unwound := Iteration(hosts(n), fates(n), ctx, found(n));
    }

    /** One pass of the daemon loop's body: a collection cycle, then the
        sleep; an iteration that an interrupt ends clears `running`, or
        unwinds when the interrupt came during the cooldown. `ctx` names
        what the loop reads and `apps` what the cycle discovers. */
    method Iteration(host: Host, fate: Fate, ghost ctx: Context, ghost apps: seq<AppRecord>) returns (unwound: bool)
      requires ctx == Context(hostId, bearer, server, config.collectionInterval)
      requires apps == DiscoverAll(plugins, host)
      modifies this`sent, this`slept, this`running, this`probed
      ensures sent == old(sent) + CycleRequests(apps, ctx.hostId, ctx.bearer, ctx.server, |old(sent)|)
      ensures probed == old(probed) + [host]
      ensures unwound <==> fate == FaultedThenInterrupted
      ensures running == (old(running) && fate != Interrupted)
      ensures slept == old(slept) + if Stops(fate) then [] else [SleepAfter(fate, ctx.interval)]
    {
      CollectionCycle(host);
      match fate {
        case Interrupted =>
          running := false;
        case FaultedThenInterrupted =>
          return true;
        case Faulted =>
          Sleep(Cooldown);
        case Calm =>
          if 0 <= config.collectionInterval <= MaxSleep {
            Sleep(config.collectionInterval);
          } else {
            // `time.sleep` raises on a negative or too long interval: the handler's cooldown
            Sleep(Cooldown);
          }
      }
      return false;
    }

    /** `stop`: clears `running`. */
    method Stop()
      modifies this`running
      ensures !running
    {
      running := false;
    }
  }
}
