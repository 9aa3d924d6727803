/** The agent's conversation with the VersionOps server, and the daemon's
    loop, as functions of the server's replies.

    The server is an oracle `server: nat -> Response`: the n-th request the
    agent sends (counting from 0) gets `server(n)`. A request is recorded with
    the bearer token the session carried when it was sent. */
module Protocol {
  import opened Wrappers
  import opened Discovery
  import opened Registry

  /** The agent's version, sent on registration. */
  const AgentVersion := "1.0.0"

  /** Seconds the daemon waits after an error in a cycle. */
  const Cooldown := 60
  /** The longest sleep, in whole seconds, that `time.sleep` accepts: CPython
      counts time in 64-bit nanoseconds, and a longer one raises
      `OverflowError`. */
  const MaxSleep := 9_223_372_036

  /** The endpoints the agent calls. */
  datatype Endpoint =
    | ApplicationConfigs                           // GET  /api/agent/application-configs
    | Register(hostname: string, version: string)  // POST /api/agent/register
    | Applications(hostId: string, app: AppRecord) // POST /api/hosts/{hostId}/applications

  datatype Request = Request(endpoint: Endpoint, bearer: Option<string>)

  /** The JSON body of a reply, as far as the agent reads it. */
  datatype Body =
    | ConfigList(configs: seq<Descriptor>)  // a list of application configurations
    | HostInfo(hostId: Option<string>)      // an object, with or without "host_id"
    | Unparsable                            // not JSON

  /** A reply with a status code, or an exception raised by the transport
      (connection refused, timeout, DNS failure, ...). */
  datatype Response = Reply(status: int, body: Body) | Raised

  /** `response.status_code == 200`. */
  predicate Accepted(r: Response) {
    r.Reply? && r.status == 200
  }

  /** The registry `load_plugins` leaves, given the reply to its request:
      only a 200 reply holding a list changes it; any other reply, or an
      exception, is caught and logged as a warning. */
  function LoadedFrom(reg: seq<Entry>, r: Response): seq<Entry> {
    if Accepted(r) && r.body.ConfigList? then Load(reg, r.body.configs) else reg
  }

  /** `register_host` succeeds: a 200 reply whose body is a JSON object. */
  predicate Registers(r: Response) {
    Accepted(r) && r.body.HostInfo?
  }

  /** The requests one `report_applications` call sends, and its result. */
  datatype Posting = Posting(requests: seq<Request>, ok: bool)

  /** The loop of `report_applications` over `apps` for host `id`, its first
      request being the `n`-th: one POST per record, in order; a reply with
      any status lets the loop go on; a raised exception ends it with False. */
  function Post(apps: seq<AppRecord>, id: string, bearer: Option<string>, server: nat -> Response, n: nat): Posting
    decreases |apps|
  {
    if apps == [] then Posting([], true)
    else
      var req := Request(Applications(id, apps[0]), bearer);
      if server(n).Raised? then Posting([req], false)
      else
        var rest := Post(apps[1..], id, bearer, server, n + 1);
        Posting([req] + rest.requests, rest.ok)
  }

  /** One step of the posting loop, when `done` has been posted, `pending`
      is left and the next request is the `m`-th: that request either
      raises, and then the loop's outcome `whole` is known, or joins `done`. */
  lemma PostStep(whole: Posting, id: string, bearer: Option<string>, server: nat -> Response,
                 m: nat, done: seq<Request>, pending: seq<AppRecord>)
    requires pending != []
    requires var p := Post(pending, id, bearer, server, m);
             whole == Posting(done + p.requests, p.ok)
    ensures var req := Request(Applications(id, pending[0]), bearer);
            var p := Post(pending[1..], id, bearer, server, m + 1);
            whole == if server(m).Raised? then Posting(done + [req], false)
                     else Posting((done + [req]) + p.requests, p.ok)
  {
    var req := Request(Applications(id, pending[0]), bearer);
    var p := Post(pending[1..], id, bearer, server, m + 1);
    assert done + ([req] + p.requests) == (done + [req]) + p.requests;
  }

  /** `report_applications`: without a (truthy) host id nothing is sent and
      the result is False. */
  function Report(apps: seq<AppRecord>, hostId: Option<string>, bearer: Option<string>, server: nat -> Response, n: nat): Posting {
    if hostId.None? || hostId.value == "" then Posting([], false)
    else Post(apps, hostId.value, bearer, server, n)
  }

  /** Records are posted once each, in list order, up to the first exception:
      the i-th request posts the i-th record; the result is True exactly when
      no request raised, and then every record was posted; otherwise the
      loop stopped right after the first request that raised. */
  lemma {:induction false} PostInOrder(apps: seq<AppRecord>, id: string, bearer: Option<string>, server: nat -> Response, n: nat)
    ensures var p := Post(apps, id, bearer, server, n);
            |p.requests| <= |apps| &&
            (forall i | 0 <= i < |p.requests| :: p.requests[i] == Request(Applications(id, apps[i]), bearer)) &&
            (p.ok <==> forall k | n <= k < n + |apps| :: !server(k).Raised?) &&
            (p.ok ==> |p.requests| == |apps|) &&
            (!p.ok ==> p.requests != [] && server(n + |p.requests| - 1).Raised? &&
                       forall k | n <= k < n + |p.requests| - 1 :: !server(k).Raised?)
    decreases |apps|
  {
    if apps != [] && !server(n).Raised? {
      PostInOrder(apps[1..], id, bearer, server, n + 1);
      var rest := Post(apps[1..], id, bearer, server, n + 1);
      var p := Post(apps, id, bearer, server, n);
      assert p.requests == [Request(Applications(id, apps[0]), bearer)] + rest.requests;
      forall i | 0 <= i < |p.requests| ensures p.requests[i] == Request(Applications(id, apps[i]), bearer) {
        if i > 0 {
          assert p.requests[i] == rest.requests[i - 1];
          assert apps[1..][i - 1] == apps[i];
        }
      }
    }
  }

  /** The requests of one `collection_cycle` that discovered `apps`:
      reporting happens only when something was discovered. */
  function CycleRequests(apps: seq<AppRecord>, hostId: Option<string>, bearer: Option<string>,
                         server: nat -> Response, n: nat): seq<Request> {
    if apps == [] then [] else Report(apps, hostId, bearer, server, n).requests
  }

  /** A cycle sends only POSTs of records it discovered, each once and in
      discovery order, to the registered host's endpoint, and nothing at all
      when discovery found nothing or there is no host id. */
  lemma CycleOnlyReportsDiscovered(apps: seq<AppRecord>, hostId: Option<string>, bearer: Option<string>,
                                   server: nat -> Response, n: nat)
    ensures var reqs := CycleRequests(apps, hostId, bearer, server, n);
            (apps == [] || hostId.None? || hostId == Some("") ==> reqs == []) &&
            |reqs| <= |apps| &&
            forall i | 0 <= i < |reqs| ::
              reqs[i] == Request(Applications(hostId.value, apps[i]), bearer) && hostId.value != ""
  {
    if apps != [] && hostId.Some? && hostId.value != "" {
      PostInOrder(apps, hostId.value, bearer, server, n);
    }
  }

  /** How one iteration of the daemon loop ends, after its collection cycle:
      - `Calm`: the cycle and the sleep of `collection_interval` complete
        (a negative or too long interval makes `time.sleep` raise, which
        the loop handles like any other error);
      - `Faulted`: an exception escapes the iteration; the loop logs it and
        sleeps the cooldown;
      - `Interrupted`: a keyboard interrupt reaches the loop, which clears
        `running`;
      - `FaultedThenInterrupted`: an exception, then a keyboard interrupt
        during the cooldown sleep, which no handler catches. */
  datatype Fate = Calm | Faulted | Interrupted | FaultedThenInterrupted

  /** How `run_daemon` ends: it returns a code, a keyboard interrupt
      propagates out of it, or it is still looping when the model's
      iteration bound is reached. */
  datatype Exit = Returned(code: int) | Unwound | Bounded

  /** What the daemon loop reads and never changes. */
  datatype Context = Context(hostId: Option<string>, bearer: Option<string>,
                             server: nat -> Response, interval: int)

  /** What the daemon loop adds: the requests it sends, the sleeps it
      completes, the `running` flag it leaves, and how it ends. */
  datatype LoopEnd = LoopEnd(sent: seq<Request>, slept: seq<int>, running: bool, exit: Exit)

  /** The fate ends the loop: a keyboard interrupt arrived. */
  predicate Stops(f: Fate) {
    f == Interrupted || f == FaultedThenInterrupted
  }

  /** The sleep an iteration that goes on completes: the collection
      interval after a calm iteration (the cooldown when the interval is
      negative or too long and `time.sleep` raises), the cooldown after a
      fault. */
  function SleepAfter(f: Fate, interval: int): int {
    if f == Calm && 0 <= interval <= MaxSleep then interval else Cooldown
  }

  /** The `while self.running` loop of `run_daemon` from iteration `n` on,
      `count` requests having been sent before it, for at most `fuel`
      iterations in all; the collection cycle of iteration `i` discovers
      `found(i)`, and the iteration then ends as `fates(i)`. */
  function Loop(ctx: Context, found: nat -> seq<AppRecord>, fates: nat -> Fate, fuel: nat, n: nat, count: nat): LoopEnd
    decreases fuel - n
  {
    if n >= fuel then LoopEnd([], [], true, Bounded)
    else
      var reqs := CycleRequests(found(n), ctx.hostId, ctx.bearer, ctx.server, count);
      var f := fates(n);
      if f == Interrupted then LoopEnd(reqs, [], false, Returned(0))
      else if f == FaultedThenInterrupted then LoopEnd(reqs, [], true, Unwound)
      else
        var rest := Loop(ctx, found, fates, fuel, n + 1, count + |reqs|);
        LoopEnd(reqs + rest.sent, [SleepAfter(f, ctx.interval)] + rest.slept, rest.running, rest.exit)
  }

  /** The sleeps of iterations `n` to `fuel - 1` when none is interrupted. */
  function Sleeps(interval: int, fates: nat -> Fate, n: nat, fuel: nat): (r: seq<int>)
    ensures |r| == if n <= fuel then fuel - n else 0
    decreases fuel - n
  {
    if n >= fuel then [] else [SleepAfter(fates(n), interval)] + Sleeps(interval, fates, n + 1, fuel)
  }

  /** The i-th of those sleeps belongs to iteration `n + i`. */
  lemma {:induction false} SleepsAt(interval: int, fates: nat -> Fate, n: nat, fuel: nat, i: nat)
    requires n + i < fuel
    ensures Sleeps(interval, fates, n, fuel)[i] == SleepAfter(fates(n + i), interval)
    decreases i
  {
    if i > 0 {
      SleepsAt(interval, fates, n + 1, fuel, i - 1);
    }
  }

  /** Errors never end the daemon: while no interrupt arrives it runs every
      iteration, sleeping the interval after a calm one (when `time.sleep`
      accepts it) and the cooldown otherwise, and keeps `running` set. */
  lemma {:induction false} ErrorsDoNotStopDaemon(ctx: Context, found: nat -> seq<AppRecord>, fates: nat -> Fate, fuel: nat,
                                                 n: nat, count: nat)
    requires forall i | n <= i < fuel :: !Stops(fates(i))
    ensures var e := Loop(ctx, found, fates, fuel, n, count);
            e.exit == Bounded && e.running && e.slept == Sleeps(ctx.interval, fates, n, fuel)
    decreases fuel - n
  {
    if n < fuel {
      var reqs := CycleRequests(found(n), ctx.hostId, ctx.bearer, ctx.server, count);
      ErrorsDoNotStopDaemon(ctx, found, fates, fuel, n + 1, count + |reqs|);
    }
  }

  /** One iteration that no interrupt ends: its cycle's requests and its
      sleep come before those of the rest of the loop. */
  lemma LoopStep(ctx: Context, found: nat -> seq<AppRecord>, fates: nat -> Fate, fuel: nat, n: nat, count: nat)
    requires n < fuel && !Stops(fates(n))
    ensures var reqs := CycleRequests(found(n), ctx.hostId, ctx.bearer, ctx.server, count);
            var rest := Loop(ctx, found, fates, fuel, n + 1, count + |reqs|);
            Loop(ctx, found, fates, fuel, n, count) ==
              LoopEnd(reqs + rest.sent, [SleepAfter(fates(n), ctx.interval)] + rest.slept, rest.running, rest.exit)
  {
  }

  /** An interrupted iteration sends its cycle's requests, completes no
      sleep, clears `running` and makes `run_daemon` return 0. */
  lemma LoopInterrupted(ctx: Context, found: nat -> seq<AppRecord>, fates: nat -> Fate, fuel: nat, n: nat, count: nat)
    requires n < fuel && fates(n) == Interrupted
    ensures Loop(ctx, found, fates, fuel, n, count) ==
              LoopEnd(CycleRequests(found(n), ctx.hostId, ctx.bearer, ctx.server, count), [], false, Returned(0))
  {
  }

  /** A keyboard interrupt in the loop ends the daemon gracefully: at the
      first interrupt, if no interrupted cooldown came before it, the loop
      stops with `running` cleared and `run_daemon` returns 0, having
      completed one sleep per earlier iteration. */
  lemma {:induction false} InterruptStopsDaemon(ctx: Context, found: nat -> seq<AppRecord>, fates: nat -> Fate, fuel: nat,
                                                n: nat, count: nat, k: nat)
    requires n <= k < fuel && fates(k) == Interrupted
    requires forall i | n <= i < k :: !Stops(fates(i))
    ensures var e := Loop(ctx, found, fates, fuel, n, count);
            e.exit == Returned(0) && !e.running && e.slept == Sleeps(ctx.interval, fates, n, k)
    decreases k - n
  {
    if n == k {
      LoopInterrupted(ctx, found, fates, fuel, n, count);
    } else {
      var reqs := CycleRequests(found(n), ctx.hostId, ctx.bearer, ctx.server, count);
      InterruptStopsDaemon(ctx, found, fates, fuel, n + 1, count + |reqs|, k);
      LoopStep(ctx, found, fates, fuel, n, count);
    }
  }

  /** The agent's whole history once the loop is over, seen from iteration
      `n`, when `sent` and `slept` are its history so far. */
  function Resume(ctx: Context, found: nat -> seq<AppRecord>, fates: nat -> Fate, fuel: nat, n: nat,
                  sent: seq<Request>, slept: seq<int>): LoopEnd
  {
    var l := Loop(ctx, found, fates, fuel, n, |sent|);
    LoopEnd(sent + l.sent, slept + l.slept, l.running, l.exit)
  }

  /** An iteration that no interrupt ends adds its cycle's requests and
      its sleep to the history, and the loop goes on. */
  lemma ResumeGoesOn(ctx: Context, found: nat -> seq<AppRecord>, fates: nat -> Fate, fuel: nat, n: nat,
                     sent: seq<Request>, slept: seq<int>, reqs: seq<Request>)
    requires n < fuel && !Stops(fates(n))
    requires reqs == CycleRequests(found(n), ctx.hostId, ctx.bearer, ctx.server, |sent|)
    ensures Resume(ctx, found, fates, fuel, n, sent, slept) ==
            Resume(ctx, found, fates, fuel, n + 1, sent + reqs, slept + [SleepAfter(fates(n), ctx.interval)])
  {
    var s := SleepAfter(fates(n), ctx.interval);
    var l := Loop(ctx, found, fates, fuel, n + 1, |sent| + |reqs|);
    LoopStep(ctx, found, fates, fuel, n, |sent|);
    assert sent + (reqs + l.sent) == (sent + reqs) + l.sent;
    assert slept + ([s] + l.slept) == (slept + [s]) + l.slept;
  }

  /** An iteration interrupted in the loop adds its cycle's requests, and
      the loop stops with `running` cleared and 0 returned. */
  lemma ResumeInterrupted(ctx: Context, found: nat -> seq<AppRecord>, fates: nat -> Fate, fuel: nat, n: nat,
                          sent: seq<Request>, slept: seq<int>, reqs: seq<Request>)
    requires n < fuel && fates(n) == Interrupted
    requires reqs == CycleRequests(found(n), ctx.hostId, ctx.bearer, ctx.server, |sent|)
    ensures Resume(ctx, found, fates, fuel, n, sent, slept) == LoopEnd(sent + reqs, slept, false, Returned(0))
  {
  }

  /** An iteration interrupted during its cooldown adds its cycle's
      requests, and the interrupt unwinds the loop with `running` still set. */
  lemma ResumeUnwound(ctx: Context, found: nat -> seq<AppRecord>, fates: nat -> Fate, fuel: nat, n: nat,
                      sent: seq<Request>, slept: seq<int>, reqs: seq<Request>)
    requires n < fuel && fates(n) == FaultedThenInterrupted
    requires reqs == CycleRequests(found(n), ctx.hostId, ctx.bearer, ctx.server, |sent|)
    ensures Resume(ctx, found, fates, fuel, n, sent, slept) == LoopEnd(sent + reqs, slept, true, Unwound)
  {
  }

  /** Once the iterations are used up the history is complete. */
  lemma ResumeEnd(ctx: Context, found: nat -> seq<AppRecord>, fates: nat -> Fate, fuel: nat, n: nat,
                  sent: seq<Request>, slept: seq<int>)
    requires n >= fuel
    ensures Resume(ctx, found, fates, fuel, n, sent, slept) == LoopEnd(sent, slept, true, Bounded)
  {
  }

  /** The loop never returns a failure code, and it returns 0 only after
      some iteration was interrupted. */
  lemma {:induction false} DaemonReturnsZeroOnlyOnInterrupt(ctx: Context, found: nat -> seq<AppRecord>, fates: nat -> Fate, fuel: nat,
                                                            n: nat, count: nat)
    ensures var e := Loop(ctx, found, fates, fuel, n, count);
            (e.exit.Returned? ==> e.exit.code == 0 && !e.running &&
                                  exists i | n <= i < fuel :: fates(i) == Interrupted) &&
            (e.exit.Unwound? ==> exists i | n <= i < fuel :: fates(i) == FaultedThenInterrupted)
    decreases fuel - n
  {
    if n < fuel && !Stops(fates(n)) {
      var reqs := CycleRequests(found(n), ctx.hostId, ctx.bearer, ctx.server, count);
      DaemonReturnsZeroOnlyOnInterrupt(ctx, found, fates, fuel, n + 1, count + |reqs|);
    }
  }
}
