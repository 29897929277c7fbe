/** The SSH tunnel supervisor: an SSH connection that opens a dynamic (SOCKS)
    port forward, a status flag reported through an optional callback, and a
    reconnect loop with a failure counter, linear back-off and a stop flag.

    The SSH library, the HTTP probe, password decryption and the event loop's
    clock are oracles: each pass of the reconnect loop is given a `Round` saying
    what those calls do, and every `asyncio.sleep` is recorded in a log of
    durations. A `stop()` from another task is modelled as landing during one
    chosen sleep. */
module SshClient {
  import opened Wrappers

  // ---------------------------------------------------------------------------
  // Configuration

  /** `SSHConfig` with its defaults: dynamic port 1080, keepalive 0/0 (off),
      no test URL, a 5 second probe timeout. */
  datatype SSHConfig = SSHConfig(
    host: string, port: int, user: string, authMethod: string,
    password: Option<string>, keyPath: Option<string>,
    dynamicPort: int, keepaliveInterval: int, keepaliveCountMax: int,
    testUrl: Option<string>, testTimeout: int)

  /** Python truthiness of an optional string: present and non-empty. */
  predicate Truthy(s: Option<string>)
  {
    s.Some? && s.value != []
  }

  /** The ValueError messages of `__post_init__`. */
  datatype ConfigError = BadAuthMethod | MissingPassword | MissingKeyPath

  /** `SSHConfig.__post_init__`: the first failing check, or None. */
  function PostInit(cfg: SSHConfig): (e: Option<ConfigError>)
    ensures e == Some(BadAuthMethod) <==> cfg.authMethod != "password" && cfg.authMethod != "key"
    ensures e == Some(MissingPassword) <==> cfg.authMethod == "password" && !Truthy(cfg.password)
    ensures e == Some(MissingKeyPath) <==> cfg.authMethod == "key" && !Truthy(cfg.keyPath)
  {
    if cfg.authMethod != "password" && cfg.authMethod != "key" then Some(BadAuthMethod)
    else if cfg.authMethod == "password" && !Truthy(cfg.password) then Some(MissingPassword)
    else if cfg.authMethod == "key" && !Truthy(cfg.keyPath) then Some(MissingKeyPath)
    else None
  }

  /** A configuration `__post_init__` accepts. */
  predicate ValidConfig(cfg: SSHConfig)
  {
    PostInit(cfg).None?
  }

  /** A configuration is accepted exactly when it names one of the two methods
      and carries that method's non-empty credential. */
  lemma ValidConfigMeans(cfg: SSHConfig)
    ensures ValidConfig(cfg) <==>
      || (cfg.authMethod == "password" && Truthy(cfg.password))
      || (cfg.authMethod == "key" && Truthy(cfg.keyPath))
  {
  }

  // ---------------------------------------------------------------------------
  // Connection parameters

  /** A value in the keyword arguments given to `asyncssh.connect`. */
  datatype Param = Str(s: string) | Num(n: int) | Nothing | KeyList(paths: seq<string>)

  /** The base parameters, plus each keepalive setting only when it is non-zero. */
  function BaseParameters(cfg: SSHConfig): (m: map<string, Param>)
    ensures "host" in m && m["host"] == Str(cfg.host) && "port" in m && m["port"] == Num(cfg.port)
    ensures "username" in m && m["username"] == Str(cfg.user) && "known_hosts" in m && m["known_hosts"] == Nothing
    ensures "keepalive_interval" in m <==> cfg.keepaliveInterval != 0
    ensures "keepalive_count_max" in m <==> cfg.keepaliveCountMax != 0
    ensures "keepalive_interval" in m ==> m["keepalive_interval"] == Num(cfg.keepaliveInterval)
    ensures "keepalive_count_max" in m ==> m["keepalive_count_max"] == Num(cfg.keepaliveCountMax)
    ensures "password" !in m && "client_keys" !in m
  {
    var m := map["host" := Str(cfg.host), "port" := Num(cfg.port), "username" := Str(cfg.user), "known_hosts" := Nothing];
    var m := if cfg.keepaliveInterval != 0 then m["keepalive_interval" := Num(cfg.keepaliveInterval)] else m;
    if cfg.keepaliveCountMax != 0 then m["keepalive_count_max" := Num(cfg.keepaliveCountMax)] else m
  }

  /** The parameters with credentials: the decrypted password in password mode,
      the key path as the only client key otherwise; None when decryption raised
      or the key path is missing (both raise SSHConnectionError). */
  function AuthParameters(cfg: SSHConfig, decrypted: Option<string>): (m: Option<map<string, Param>>)
    ensures m.None? <==> (if cfg.authMethod == "password" then decrypted.None? else !Truthy(cfg.keyPath))
    ensures m.Some? && cfg.authMethod == "password" ==>
      m.value == BaseParameters(cfg)["password" := Str(decrypted.value)]
    ensures m.Some? && cfg.authMethod != "password" ==>
      m.value == BaseParameters(cfg)["client_keys" := KeyList([cfg.keyPath.value])]
  {
    var base := BaseParameters(cfg);
    if cfg.authMethod == "password" then
      match decrypted
      case None => None
      case Some(p) => Some(base["password" := Str(p)])
    else if !Truthy(cfg.keyPath) then None
    else Some(base["client_keys" := KeyList([cfg.keyPath.value])])
  }

  /** The `finally` of `connect`: a password entry is overwritten with None. */
  function Scrubbed(m: map<string, Param>): (r: map<string, Param>)
    ensures r.Keys == m.Keys
    ensures "password" in r ==> r["password"] == Nothing
    ensures forall k :: k in m && k != "password" ==> r[k] == m[k]
  {
    if "password" in m then m["password" := Nothing] else m
  }

  /** An accepted key-mode configuration never reaches the "SSH key path not
      provided" error. */
  lemma ValidKeyConfigHasKey(cfg: SSHConfig, decrypted: Option<string>)
    requires ValidConfig(cfg) && cfg.authMethod == "key"
    ensures AuthParameters(cfg, decrypted).Some?
  {
  }

  // ---------------------------------------------------------------------------
  // The client state and the oracles

  /** The fields of `SSHClient` that the supervisor changes, plus the log of
      values passed to the status callback and of the sleeps requested. */
  datatype ClientState = ClientState(
    running: bool, connected: bool, attempts: nat,
    hasConnection: bool, hasForwarder: bool,
    hasCallback: bool, notified: seq<bool>, sleeps: seq<nat>)

  /** `max_reconnect_attempts` */
  const MaxReconnectAttempts: nat := 10

  /** The state after `SSHClient.__init__`. */
  function Initial(hasCallback: bool): (s: ClientState)
    ensures s.running && !s.connected && s.attempts == 0 && !s.hasConnection && !s.hasForwarder
    ensures s.notified == [] && s.sleeps == [] && s.hasCallback == hasCallback
  {
    ClientState(true, false, 0, false, false, hasCallback, [], [])
  }

  /** How the test request through the SOCKS port ends. */
  datatype ProbeOutcome = Responded(status: int) | ProbeFailed

  /** How the session ends once the forwarder is up: `wait_closed` returns,
      raises DisconnectError/OSError, or raises something else. */
  datatype SessionEnd = ForwarderClosed | Disconnected | SessionCrashed

  /** What the SSH library does in one `connect`: `wait_for` times out,
      `asyncssh.connect` raises DisconnectError/OSError, raises something else,
      the connection is made but `forward_socks` raises, or the forward is
      served until the session ends. */
  datatype ConnectOutcome = TimedOut | TransportError | ConnectCrashed | ListenerFailed | Served(end: SessionEnd)

  /** One pass of the reconnect loop as the environment decides it. */
  datatype Round = Round(
    transportClosed: bool,       // `connection.is_closed()`
    probe: ProbeOutcome,         // the test request
    decrypted: Option<string>,   // `decrypt_password` (None: it raised)
    connect: ConnectOutcome)

  // ---------------------------------------------------------------------------
  // Status notifications

  /** No value follows itself in the callback log. */
  predicate NoRepeats(log: seq<bool>)
  {
    forall i :: 0 <= i < |log| - 1 ==> log[i] != log[i + 1]
  }

  /** The callback log is consistent with the status flag: without a callback
      nothing is logged; with one, the log has no repeats and its last entry is
      the flag (False before any entry). */
  predicate NotifyInv(s: ClientState)
  {
    && NoRepeats(s.notified)
    && (!s.hasCallback ==> s.notified == [])
    && (s.hasCallback ==> (if s.notified == [] then !s.connected else s.notified[|s.notified| - 1] == s.connected))
  }

  /** `_update_status(connected)`: the callback runs only when the flag changes
      (its exceptions are swallowed, so the flag still ends equal to the argument). */
  function Notify(s: ClientState, connected: bool): (r: ClientState)
    ensures r.connected == connected
    ensures r.notified == (if s.connected != connected && s.hasCallback then s.notified + [connected] else s.notified)
    ensures r == s.(connected := connected, notified := r.notified)
    ensures NotifyInv(s) ==> NotifyInv(r)
  {
    if s.connected != connected then
      s.(connected := connected, notified := if s.hasCallback then s.notified + [connected] else s.notified)
    else s
  }

  /** `_cleanup_connection`: forwarder and connection closed and dropped, status False. */
  function CleanupState(s: ClientState): (r: ClientState)
    ensures !r.hasConnection && !r.hasForwarder && !r.connected
    ensures r.running == s.running && r.attempts == s.attempts && r.sleeps == s.sleeps
    ensures NotifyInv(s) ==> NotifyInv(r)
  {
    Notify(s.(hasConnection := false, hasForwarder := false), false)
  }

  /** `stop()`: the loop flag cleared, forwarder and connection dropped, status False. */
  function StopState(s: ClientState): (r: ClientState)
    ensures !r.running && !r.hasConnection && !r.hasForwarder && !r.connected
    ensures r.attempts == s.attempts && r.sleeps == s.sleeps
    ensures NotifyInv(s) ==> NotifyInv(r)
  {
    Notify(s.(running := false, hasConnection := false, hasForwarder := false), false)
  }

  /** A second `stop()` changes nothing and fires no callback. */
  lemma StopIdempotent(s: ClientState)
    ensures StopState(StopState(s)) == StopState(s)
    ensures StopState(StopState(s)).notified == StopState(s).notified
  {
  }

  /** `is_connected`: False without probing unless there is a connection that is
      not closed and a forwarder; otherwise the probe decides: False without a
      test URL, True exactly on HTTP 200. */
  function Liveness(s: ClientState, cfg: SSHConfig, r: Round): (live: bool)
    ensures live <==>
      && s.hasConnection && !r.transportClosed && s.hasForwarder
      && Truthy(cfg.testUrl) && r.probe == Responded(200)
  {
    if !(s.hasConnection && !r.transportClosed && s.hasForwarder) then false
    else if !Truthy(cfg.testUrl) then false
    else match r.probe
      case Responded(status) => status == 200
      case ProbeFailed => false
  }

  // ---------------------------------------------------------------------------
  // connect

  /** How `connect` ends: it returns, raises SSHConnectionError, or raises
      anything else. */
  datatype ConnectResult = Returned | SshError | OtherError

  /** The state, result and (scrubbed) parameters after `connect`. */
  datatype ConnectRun = ConnectRun(state: ClientState, result: ConnectResult, params: map<string, Param>)

  /** The `finally` of `connect`: without the status flag the resources are cleaned up. */
  function ConnectFinally(s: ClientState): (r: ClientState)
    ensures !s.connected ==> r == CleanupState(s)
    ensures s.connected ==> r == s
  {
    if !s.connected then CleanupState(s) else s
  }

  /** What `connect` ends with, which depends only on the configuration and the
      round. */
  function ConnectResultOf(cfg: SSHConfig, r: Round): (res: ConnectResult)
    ensures res == Returned <==> AuthParameters(cfg, r.decrypted).Some? && r.connect == Served(ForwarderClosed)
    ensures res == OtherError <==>
      AuthParameters(cfg, r.decrypted).Some? && (r.connect == ConnectCrashed || r.connect == Served(SessionCrashed))
  {
    if AuthParameters(cfg, r.decrypted).None? then SshError
    else match r.connect
      case TimedOut => SshError
      case TransportError => SshError
      case ConnectCrashed => OtherError
      case ListenerFailed => SshError
      case Served(ForwarderClosed) => Returned
      case Served(Disconnected) => SshError
      case Served(SessionCrashed) => OtherError
  }

  /** `connect()`: clean up, build the parameters, connect with a 10 second
      timeout, open the SOCKS forward, reset the counter and report True, wait
      for the forward to close; errors become SSHConnectionError as the source
      maps them; the `finally` scrubs the password and cleans up when the status
      is False. */
  function ConnectStep(s: ClientState, cfg: SSHConfig, r: Round): (run: ConnectRun)
    ensures run.result == ConnectResultOf(cfg, r)
    ensures run.state.running == s.running && run.state.sleeps == s.sleeps && run.state.hasCallback == s.hasCallback
    ensures run.result != Returned && run.state.connected ==>
      run.result == OtherError && r.connect == Served(SessionCrashed)
    ensures run.result == Returned ==>
      run.state.connected && run.state.hasConnection && run.state.hasForwarder && run.state.attempts == 0
    ensures !run.state.connected ==> !run.state.hasConnection && !run.state.hasForwarder
    ensures run.state.attempts == (if AuthParameters(cfg, r.decrypted).Some? && r.connect.Served? then 0 else s.attempts)
    ensures "password" in run.params ==> run.params["password"] == Nothing
    ensures AuthParameters(cfg, r.decrypted).Some? ==> run.params == Scrubbed(AuthParameters(cfg, r.decrypted).value)
    ensures NotifyInv(s) ==> NotifyInv(run.state)
  {
    var s1 := CleanupState(s);
    match AuthParameters(cfg, r.decrypted)
    case None => ConnectRun(ConnectFinally(s1), SshError, BaseParameters(cfg))
    case Some(params) =>
      var scrubbed := Scrubbed(params);
      match r.connect
      case TimedOut => ConnectRun(ConnectFinally(s1), SshError, scrubbed)
      case TransportError => ConnectRun(ConnectFinally(Notify(s1, false)), SshError, scrubbed)
      case ConnectCrashed => ConnectRun(ConnectFinally(s1), OtherError, scrubbed)
      case ListenerFailed => ConnectRun(ConnectFinally(s1.(hasConnection := true)), SshError, scrubbed)
      case Served(end) =>
        var up := Notify(s1.(hasConnection := true, hasForwarder := true, attempts := 0), true);
        match end
        case ForwarderClosed => ConnectRun(ConnectFinally(up), Returned, scrubbed)
        case Disconnected => ConnectRun(ConnectFinally(Notify(up, false)), SshError, scrubbed)
        case SessionCrashed => ConnectRun(ConnectFinally(up), OtherError, scrubbed)
  }

  // ---------------------------------------------------------------------------
  // manage_connection

  /** `min(5 * n, 60)` */
  function Backoff(n: nat): (b: nat)
    ensures b <= 60
    ensures n <= 12 ==> b == 5 * n
    ensures n >= 12 ==> b == 60
  {
    if 5 * n < 60 then 5 * n else 60
  }

  /** Once a `stop()` scheduled for sleep number `k` has run, the loop flag is
      clear and no further sleep is requested. */
  predicate Quiet(s: ClientState, stopAt: Option<nat>)
  {
    stopAt.None? || |s.sleeps| <= stopAt.value || (!s.running && |s.sleeps| == stopAt.value + 1)
  }

  /** `await asyncio.sleep(d)`; a `stop()` scheduled for this sleep runs during it. */
  function SleepState(s: ClientState, d: nat, stopAt: Option<nat>): (r: ClientState)
    ensures r.sleeps == s.sleeps + [d]
    ensures r.attempts == s.attempts
    ensures stopAt == Some(|s.sleeps|) ==> r == StopState(s.(sleeps := r.sleeps))
    ensures stopAt != Some(|s.sleeps|) ==> r == s.(sleeps := r.sleeps)
    ensures NotifyInv(s) ==> NotifyInv(r)
    ensures s.running && Quiet(s, stopAt) ==> Quiet(r, stopAt)
  {
    var slept := s.(sleeps := s.sleeps + [d]);
    if stopAt == Some(|s.sleeps|) then StopState(slept) else slept
  }

  /** `for _ in range(k): if not self._running: return; await asyncio.sleep(1)` */
  function Ticks(s: ClientState, k: nat, stopAt: Option<nat>): (r: ClientState)
    ensures r.attempts == s.attempts
    ensures |s.sleeps| <= |r.sleeps| <= |s.sleeps| + k && r.sleeps[..|s.sleeps|] == s.sleeps
    ensures !s.running ==> r == s
    ensures NotifyInv(s) ==> NotifyInv(r)
    ensures Quiet(s, stopAt) ==> Quiet(r, stopAt)
    decreases k
  {
    if k == 0 || !s.running then s else Ticks(SleepState(s, 1, stopAt), k - 1, stopAt)
  }

  /** One pass of the `while self._running` loop. */
  function RoundStep(s: ClientState, cfg: SSHConfig, r: Round, stopAt: Option<nat>): (t: ClientState)
    requires s.running
    ensures NotifyInv(s) ==> NotifyInv(t)
    ensures Quiet(s, stopAt) ==> Quiet(t, stopAt)
  {
    if Liveness(s, cfg, r) then Ticks(s, 10, stopAt)
    else
      var run := ConnectStep(Notify(s, false), cfg, r);
      assert run.state.running && run.state.sleeps == s.sleeps;
      assert NotifyInv(s) ==> NotifyInv(run.state);
      match run.result
      case Returned => run.state.(attempts := 0)
      case SshError =>
        var failed := run.state.(attempts := run.state.attempts + 1);
        assert NotifyInv(run.state) ==> NotifyInv(failed);
        if failed.attempts >= MaxReconnectAttempts then StopState(failed)
        else Ticks(failed, Backoff(failed.attempts), stopAt)
      case OtherError => SleepState(run.state, 5, stopAt)
  }

  /** `manage_connection` over a run of rounds: passes continue while the loop
      flag is set; the model ends when the rounds run out. */
  function Manage(s: ClientState, cfg: SSHConfig, rounds: seq<Round>, stopAt: Option<nat>): (t: ClientState)
    ensures NotifyInv(s) ==> NotifyInv(t)
    ensures Quiet(s, stopAt) ==> Quiet(t, stopAt)
    ensures !s.running ==> t == s
    decreases |rounds|
  {
    if !s.running || rounds == [] then s
    else Manage(RoundStep(s, cfg, rounds[0], stopAt), cfg, rounds[1..], stopAt)
  }

  /** `n` one-second sleeps. */
  function Ones(n: nat): (r: seq<nat>)
    ensures |r| == n && forall i :: 0 <= i < n ==> r[i] == 1
  {
    seq(n, _ => 1)
  }

  /** The back-off waits still to come when the counter stands at `n` and every
      further connect raises SSHConnectionError before serving: after failure
      `m`, while `m` is below the limit, `min(5m, 60)` seconds; none after the
      last. */
  function Backoffs(n: nat): seq<nat>
    decreases MaxReconnectAttempts - n
  {
    if n + 1 >= MaxReconnectAttempts then [] else [Backoff(n + 1)] + Backoffs(n + 1)
  }

  /** Each wait of `d` seconds as `d` one-second sleeps. */
  function Expand(waits: seq<nat>): seq<nat>
  {
    if waits == [] then [] else Ones(waits[0]) + Expand(waits[1..])
  }

  /** The one-second sleeps of the waits still to come. */
  function Waits(n: nat): seq<nat>
  {
    Expand(Backoffs(n))
  }

  /** The sleeps after failure `n + 1` come first, then the later ones. */
  lemma WaitsStep(before: seq<nat>, n: nat)
    requires n + 1 < MaxReconnectAttempts
    ensures before + Ones(Backoff(n + 1)) + Waits(n + 1) == before + Waits(n)
  {
    assert Backoffs(n)[1..] == Backoffs(n + 1);
    assert Waits(n) == Ones(Backoff(n + 1)) + Waits(n + 1);
  }

  function Sum(waits: seq<nat>): nat
  {
    if waits == [] then 0 else waits[0] + Sum(waits[1..])
  }

  lemma {:induction false} ExpandLength(waits: seq<nat>)
    ensures |Expand(waits)| == Sum(waits)
  {
    if waits != [] {
      ExpandLength(waits[1..]);
    }
  }

  /** With the counter at `n`, the waits still to come are 5(n+1), 5(n+2),
      ... seconds, one per failure until the limit. */
  lemma {:induction false} BackoffsFrom(n: nat)
    requires n < MaxReconnectAttempts
    ensures |Backoffs(n)| == MaxReconnectAttempts - 1 - n
    ensures forall i | 0 <= i < |Backoffs(n)| :: Backoffs(n)[i] == 5 * (n + 1 + i)
    decreases MaxReconnectAttempts - n
  {
    if n + 1 < MaxReconnectAttempts {
      BackoffsFrom(n + 1);
    }
  }

  /** From a fresh counter the waits are 5, 10, ..., 45 seconds. */
  lemma DefaultBackoffs()
    ensures Backoffs(0) == [5, 10, 15, 20, 25, 30, 35, 40, 45]
  {
    BackoffsFrom(0);
  }

  /** From a fresh counter the waits add up to 225 one-second sleeps. */
  lemma DefaultSchedule()
    ensures |Waits(0)| == 225
  {
    var b := Backoffs(0);
    DefaultBackoffs();
    ExpandLength(b);
    SumOfDefault();
  }

  lemma SumOfDefault()
    ensures Sum([5, 10, 15, 20, 25, 30, 35, 40, 45]) == 225
  {
    var w := [5, 10, 15, 20, 25, 30, 35, 40, 45];
    assert w[1..] == [10, 15, 20, 25, 30, 35, 40, 45];
    assert w[1..][1..] == [15, 20, 25, 30, 35, 40, 45];
    assert Sum([15, 20, 25, 30, 35, 40, 45]) == 210 by {
      var v := [15, 20, 25, 30, 35, 40, 45];
      assert v[1..] == [20, 25, 30, 35, 40, 45];
      assert v[1..][1..] == [25, 30, 35, 40, 45];
      assert v[1..][1..][1..] == [30, 35, 40, 45];
      assert v[1..][1..][1..][1..] == [35, 40, 45];
      assert v[1..][1..][1..][1..][1..] == [40, 45];
      assert v[1..][1..][1..][1..][1..][1..] == [45];
      assert v[1..][1..][1..][1..][1..][1..][1..] == [];
    }
  }

  /** `k` ticks with the loop flag set and no stop scheduled append `k`
      one-second sleeps and change nothing else. */
  lemma {:induction false} TicksUninterrupted(s: ClientState, k: nat)
    requires s.running
    ensures Ticks(s, k, None) == s.(sleeps := s.sleeps + Ones(k))
    decreases k
  {
    if k == 0 {
      assert s.sleeps + Ones(0) == s.sleeps;
    } else {
      var s1 := SleepState(s, 1, None);
      TicksUninterrupted(s1, k - 1);
      assert s.sleeps + [1] + Ones(k - 1) == s.sleeps + Ones(k);
    }
  }

  /** The connect of this round gets the forward up (whatever ends it later). */
  predicate ServesForward(cfg: SSHConfig, r: Round)
  {
    AuthParameters(cfg, r.decrypted).Some? && r.connect.Served?
  }

  /** The connect of this round raises SSHConnectionError before the forward is up. */
  predicate FailsEarly(cfg: SSHConfig, r: Round)
  {
    ConnectResultOf(cfg, r) == SshError && !ServesForward(cfg, r)
  }

  /** A pass whose connect raises SSHConnectionError before the forward is up,
      from a state without a live tunnel: the counter goes up by one; below the limit it waits
      `min(5n, 60)` seconds in one-second sleeps, at the limit it stops without
      sleeping. */
  lemma FailingRound(s: ClientState, cfg: SSHConfig, r: Round)
    requires s.running && !Liveness(s, cfg, r)
    requires FailsEarly(cfg, r)
    ensures var t := RoundStep(s, cfg, r, None);
      && t.attempts == s.attempts + 1
      && !t.hasConnection && !t.connected
      && (t.running <==> s.attempts + 1 < MaxReconnectAttempts)
      && t.sleeps == s.sleeps + (if s.attempts + 1 < MaxReconnectAttempts then Ones(Backoff(s.attempts + 1)) else [])
  {
    var run := ConnectStep(Notify(s, false), cfg, r);
    assert run.result == SshError && run.state.attempts == s.attempts;
    assert run.state.running && !run.state.connected && run.state.sleeps == s.sleeps;
    var failed := run.state.(attempts := run.state.attempts + 1);
    var t := RoundStep(s, cfg, r, None);
    if failed.attempts < MaxReconnectAttempts {
      assert t == Ticks(failed, Backoff(failed.attempts), None);
      TicksUninterrupted(failed, Backoff(failed.attempts));
    } else {
      assert t == StopState(failed);
      assert s.sleeps + [] == s.sleeps;
    }
  }

  /** With every connect raising SSHConnectionError and no external stop, the
      loop sleeps exactly `Waits(n)` and then stops itself with the counter at
      the limit, using one pass per failure. */
  lemma {:induction false} FailingRun(s: ClientState, cfg: SSHConfig, rounds: seq<Round>, n: nat)
    requires s.running && s.attempts == n < MaxReconnectAttempts
    requires |rounds| >= MaxReconnectAttempts - n && !Liveness(s, cfg, rounds[0])
    requires forall r | r in rounds :: FailsEarly(cfg, r)
    ensures var t := Manage(s, cfg, rounds, None);
      && !t.running && t.attempts == MaxReconnectAttempts && !t.connected
      && t.sleeps == s.sleeps + Waits(n)
    decreases MaxReconnectAttempts - n
  {
    var t := RoundStep(s, cfg, rounds[0], None);
    FailingRound(s, cfg, rounds[0]);
    ManageStep(s, cfg, rounds, None);
    if n + 1 < MaxReconnectAttempts {
      var rest := rounds[1..];
      assert forall r | r in rest :: r in rounds;
      FailingRun(t, cfg, rest, n + 1);
      WaitsStep(s.sleeps, n);
    } else {
      assert Backoffs(n) == [];
      assert s.sleeps + [] == s.sleeps;
    }
  }

  /** A pass with the loop flag set is one round of the loop. */
  lemma ManageStep(s: ClientState, cfg: SSHConfig, rounds: seq<Round>, stopAt: Option<nat>)
    requires s.running && rounds != []
    ensures Manage(s, cfg, rounds, stopAt) == Manage(RoundStep(s, cfg, rounds[0], stopAt), cfg, rounds[1..], stopAt)
  {
  }

  /** From a fresh client whose every connect raises SSHConnectionError, the
      supervisor gives up after ten passes, having slept 5, 10, ..., 45 seconds. */
  lemma GivesUpAfterTenFailures(cfg: SSHConfig, hasCallback: bool, rounds: seq<Round>)
    requires |rounds| >= 10
    requires forall r | r in rounds :: FailsEarly(cfg, r)
    ensures var t := Manage(Initial(hasCallback), cfg, rounds, None);
      && !t.running && t.attempts == 10 && !t.connected
      && t.sleeps == Expand([5, 10, 15, 20, 25, 30, 35, 40, 45]) && |t.sleeps| == 225
  {
    FailingRun(Initial(hasCallback), cfg, rounds, 0);
    DefaultBackoffs();
    DefaultSchedule();
  }

  /** A pass whose connect returns resets the counter and leaves the tunnel up. */
  lemma SuccessResets(s: ClientState, cfg: SSHConfig, r: Round, stopAt: Option<nat>)
    requires s.running && !Liveness(s, cfg, r)
    requires ConnectResultOf(cfg, r) == Returned
    ensures var t := RoundStep(s, cfg, r, stopAt);
      t.attempts == 0 && t.running && t.connected && t.sleeps == s.sleeps
  {
  }

  /** A pass whose connect raises anything other than SSHConnectionError sleeps
      five seconds without counting a failure (the counter is only reset when
      the forward had come up). */
  lemma OtherErrorSleepsFive(s: ClientState, cfg: SSHConfig, r: Round, stopAt: Option<nat>)
    requires s.running && !Liveness(s, cfg, r)
    requires ConnectResultOf(cfg, r) == OtherError
    ensures var t := RoundStep(s, cfg, r, stopAt);
      t.attempts == (if ServesForward(cfg, r) then 0 else s.attempts) && t.sleeps == s.sleeps + [5]
  {
  }

  /** A session that comes up and is then dropped counts as the first failure of
      a new series, whatever the counter stood at, and reports True then False. */
  lemma DroppedSessionRestartsCount(s: ClientState, cfg: SSHConfig, r: Round)
    requires s.running && !Liveness(s, cfg, r)
    requires AuthParameters(cfg, r.decrypted).Some? && r.connect == Served(Disconnected)
    ensures var t := RoundStep(s, cfg, r, None);
      && t.attempts == 1 && t.running && !t.connected
      && t.notified == Notify(s, false).notified + (if s.hasCallback then [true, false] else [])
      && t.sleeps == s.sleeps + Ones(5)
  {
    var run := ConnectStep(Notify(s, false), cfg, r);
    assert run.result == SshError && run.state.attempts == 0 && run.state.running;
    var failed := run.state.(attempts := 1);
    assert RoundStep(s, cfg, r, None) == Ticks(failed, 5, None);
    TicksUninterrupted(failed, 5);
  }

  /** A tunnel that passes the probe is not touched: ten one-second sleeps. */
  lemma LiveTunnelIdles(s: ClientState, cfg: SSHConfig, r: Round)
    requires s.running && Liveness(s, cfg, r)
    ensures RoundStep(s, cfg, r, None) == s.(sleeps := s.sleeps + Ones(10))
  {
    TicksUninterrupted(s, 10);
  }

  /** A `stop()` that lands during sleep number `k` is obeyed at once: no sleep
      follows it and the loop ends with the flag clear. */
  lemma StopIsPrompt(s: ClientState, cfg: SSHConfig, rounds: seq<Round>, k: nat)
    requires |s.sleeps| <= k
    ensures var t := Manage(s, cfg, rounds, Some(k));
      |t.sleeps| <= k + 1 && (|t.sleeps| == k + 1 ==> !t.running)
  {
  }

  /** Starting from a new client, the callback never receives the same value
      twice in a row, and its last value is the status flag. */
  lemma NoDuplicateNotifications(cfg: SSHConfig, hasCallback: bool, rounds: seq<Round>, stopAt: Option<nat>)
    ensures var t := Manage(Initial(hasCallback), cfg, rounds, stopAt);
      && NoRepeats(t.notified)
      && (hasCallback && t.notified != [] ==> t.notified[|t.notified| - 1] == t.connected)
  {
  }

  // ---------------------------------------------------------------------------
  // The client object

  /** `SSHClient`. The connection and forwarder objects are represented by
      whether they are present; the status callback by whether one was given and
      the log of values it received; the event loop's sleeps by their log. */
  class SSHClient {
    const config: SSHConfig
    const hasCallback: bool
    const maxReconnectAttempts: nat := MaxReconnectAttempts
    var running: bool
    var connected: bool
    var reconnectAttempts: nat
    var hasConnection: bool
    var hasForwarder: bool
    var notified: seq<bool>
    var sleeps: seq<nat>

    /** The supervisor fields as a value. */
    function State(): ClientState
      reads this
    {
      ClientState(running, connected, reconnectAttempts, hasConnection, hasForwarder, hasCallback, notified, sleeps)
    }

    constructor (config: SSHConfig, hasCallback: bool)
      ensures State() == Initial(hasCallback)
      ensures this.config == config
    {
      this.config := config;
      this.hasCallback := hasCallback;
      running, connected, reconnectAttempts := true, false, 0;
      hasConnection, hasForwarder := false, false;
      notified, sleeps := [], [];
    }

    /** `_update_status` */
    method UpdateStatus(status: bool)
      modifies this
      ensures State() == Notify(old(State()), status)
    {
      if connected != status {
        connected := status;
        if hasCallback {
          notified := notified + [status];
        }
      }
    }

    /** `_cleanup_connection` */
    method CleanupConnection()
      modifies this
      ensures State() == CleanupState(old(State()))
    {
      if hasForwarder {
        hasForwarder := false;
      }
      if hasConnection {
        hasConnection := false;
      }
      UpdateStatus(false);
    }

    /** `stop()` */
    method Stop()
      modifies this
      ensures State() == StopState(old(State()))
    {
      running := false;
      if hasForwarder {
        hasForwarder := false;
      }
      if hasConnection {
        hasConnection := false;
      }
      UpdateStatus(false);
    }

    /** `is_connected()`; changes nothing. */
    method IsConnected(r: Round) returns (live: bool)
      ensures live == Liveness(State(), config, r)
    {
      if !(hasConnection && !r.transportClosed && hasForwarder) {
        return false;
      }
      if !Truthy(config.testUrl) {
        return false;
      }
      match r.probe
      case Responded(status) => live := status == 200;
      case ProbeFailed => live := false;
    }

    /** `connect()`; returns how it ended and the parameter dictionary as the
        `finally` clause leaves it. */
    method Connect(r: Round) returns (result: ConnectResult, params: map<string, Param>)
      modifies this
      ensures ConnectRun(State(), result, params) == ConnectStep(old(State()), config, r)
    {
      CleanupConnection();
      // the dictionary as far as it was built: with the credentials, or only
      // the base entries when building it raised
      var auth := AuthParameters(config, r.decrypted);
      params := if auth.Some? then auth.value else BaseParameters(config);
      var ok := auth.Some?;
      var raised: Option<ConnectResult> := if ok then None else Some(SshError);
      if raised.None? {
        match r.connect
        case TimedOut =>
          raised := Some(SshError);
        case TransportError =>
          UpdateStatus(false);
          raised := Some(SshError);
        case ConnectCrashed =>
          raised := Some(OtherError);
        case ListenerFailed =>
          hasConnection := true;
          raised := Some(SshError);
        case Served(end) =>
          hasConnection, hasForwarder := true, true;
          reconnectAttempts := 0;
          UpdateStatus(true);
          match end
          case ForwarderClosed =>
          case Disconnected =>
            UpdateStatus(false);
            raised := Some(SshError);
          case SessionCrashed =>
            raised := Some(OtherError);
      }
      ghost var settled := State();
      assert ConnectStep(old(State()), config, r)
          == ConnectRun(ConnectFinally(settled), if raised.Some? then raised.value else Returned, Scrubbed(params));
      // finally
      if "password" in params {
        params := params["password" := Nothing];
      }
      if !connected {
        CleanupConnection();
      }
      result := if raised.Some? then raised.value else Returned;
    }

    /** `await asyncio.sleep(d)`, during which a `stop()` scheduled for this
        sleep runs. */
    method Sleep(d: nat, stopAt: Option<nat>)
      modifies this
      ensures State() == SleepState(old(State()), d, stopAt)
    {
      var index := |sleeps|;
      sleeps := sleeps + [d];
      if stopAt == Some(index) {
        Stop();
      }
    }

    /** `for _ in range(k): if not self._running: return; await asyncio.sleep(1)` */
    method Tick(k: nat, stopAt: Option<nat>)
      modifies this
      ensures State() == Ticks(old(State()), k, stopAt)
    {
      var j := 0;
      while j < k
        invariant 0 <= j <= k
        invariant Ticks(old(State()), k, stopAt) == Ticks(State(), k - j, stopAt)
      {
        if !running {
          return;
        }
        Sleep(1, stopAt);
        j := j + 1;
      }
    }

    /** One pass of the `while self._running` loop; the `return`s of the source
        leave the loop flag clear, so the loop test ends the run there. */
    method Pass(r: Round, stopAt: Option<nat>)
      requires running
      modifies this
      ensures State() == RoundStep(old(State()), config, r, stopAt)
    {
      var live := IsConnected(r);
      if !live {
        UpdateStatus(false);
        var result, _ := Connect(r);
        match result
        case Returned =>
          reconnectAttempts := 0;
        case SshError =>
          reconnectAttempts := reconnectAttempts + 1;
          if reconnectAttempts >= maxReconnectAttempts {
            Stop();
            return;
          }
          var backoff := if 5 * reconnectAttempts < 60 then 5 * reconnectAttempts else 60;
          Tick(backoff, stopAt);
        case OtherError =>
          Sleep(5, stopAt);
      } else {
        Tick(10, stopAt);
      }
    }

    /** `manage_connection()` over the given rounds. */
    method ManageConnection(rounds: seq<Round>, stopAt: Option<nat>)
      modifies this
      ensures State() == Manage(old(State()), config, rounds, stopAt)
    {
      var i := 0;
      while running && i < |rounds|
        invariant 0 <= i <= |rounds|
        invariant Manage(old(State()), config, rounds, stopAt) == Manage(State(), config, rounds[i..], stopAt)
        decreases |rounds| - i
      {
        assert rounds[i..][1..] == rounds[i + 1..];
        Pass(rounds[i], stopAt);
        i := i + 1;
      }
    }
  }
}
