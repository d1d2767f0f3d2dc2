/**
 * The configuration document the apply edits in place, and the connection to
 * the set it reads from and sends through. Every command's effect is the one
 * module Server gives it.
 */
module Client {
  import opened Wrappers
  import opened ReplicaSet
  import opened MemberPlan
  import opened PlanLoops
  import opened Server
  import opened Timing
  import opened ReconfigRetry
  import opened MemberWait

  class RSConfig {
    var setName: string
    var version: int
    var members: seq<Member>
    var settings: Settings

    constructor (c: Config)
      ensures Value() == c
    {
      setName, version, members, settings := c.setName, c.version, c.members, c.settings;
    }

    function Value(): Config
      reads this
    {
      Config(setName, version, members, settings)
    }

    /** Writes the overrides onto the members, in place; an unknown host stops it half way. */
    method MergeMembers(overrides: seq<Block>) returns (found: bool)
      modifies this`members
      ensures found <==> Merged(old(members), overrides).Some?
      ensures found ==> Some(members) == Merged(old(members), overrides)
    {
      if |overrides| == 0 {
        return true;
      }
      var hostIndex := IndexByHost(members);
      for i := 0 to |overrides|
        invariant SameHosts(old(members), members)
        invariant Merged(members, overrides[i..]) == Merged(old(members), overrides)
      {
        var o := overrides[i];
        assert overrides[i..][0] == o && overrides[i..][1..] == overrides[i + 1..];
        AtByHosts(old(members), members, o.host);
        if o.host !in hostIndex {
          return false;
        }
        var idx := hostIndex[o.host];
        members := members[idx := members[idx].(
          priority := o.priority,
          votes := Some(o.votes),
          hidden := Some(o.hidden),
          arbiterOnly := Some(o.arbiterOnly),
          buildIndexes := Some(o.buildIndexes),
          tags := if o.tags.Some? then o.tags else None)];
      }
      return true;
    }
  }

  class ReplicaSetClient {
    const env: Env
    var config: Config
    var calls: nat
    var clock: nat
    ghost var log: seq<Event>

    constructor (env: Env, config: Config, clock: nat)
      ensures this.env == env && State() == World(config, 0, clock, [])
    {
      this.env, this.config, this.calls, this.clock, this.log := env, config, 0, clock, [];
    }

    ghost function State(): World
      reads this
    {
      World(config, calls, clock, log)
    }

    /** Foreign version bumps arrive and the command takes its time. */
    method Pass(took: nat)
      modifies this
      ensures State() == Tick(env, old(State()), took)
    {
      var bump := env(calls).bump;
      config := config.(version := config.version + bump);
      calls := calls + 1;
      clock := clock + took;
    }

    method GetReplSetConfig() returns (r: Reply<RSConfig>)
      modifies this
      ensures State() == GetConfig(env, old(State())).world
      ensures match GetConfig(env, old(State())).value
              case Errored(e) => r == Errored(e)
              case Answered(c) => r.Answered? && fresh(r.value) && r.value.Value() == c
      ensures clock >= old(clock)
    {
      var a := env(calls);
      Pass(a.readTook);
      if a.readError.Some? {
        return Errored(a.readError.value);
      }
      var cfg := new RSConfig(config);
      return Answered(cfg);
    }

    method SetReplSetConfig(cfg: RSConfig, maxTime: nat, ghost kind: Kind) returns (err: Option<MongoError>)
      modifies this
      ensures State() == Reconfigure(env, old(State()), kind, cfg.Value(), maxTime).world
      ensures err == Reconfigure(env, old(State()), kind, cfg.Value(), maxTime).value
      ensures cfg.Value() == old(cfg.Value()) && clock >= old(clock)
    {
      var a := env(calls);
      ghost var began := clock;
      Pass(a.took);
      log := log + [Reconfig(kind, config, cfg.Value(), began, maxTime, a.took)];
      if cfg.version <= config.version {
        return Some(VERSION_CONFLICT);
      }
      match a.reconfig
      case Accepted =>
        config := Config(cfg.setName, cfg.version, cfg.members, cfg.settings);
        err := None;
      case Refused(e) =>
        err := Some(e);
      case InstalledButFailed(e) =>
        config := Config(cfg.setName, cfg.version, cfg.members, cfg.settings);
        err := Some(e);
    }

    method GetReplSetStatus() returns (r: Reply<seq<StatusRow>>)
      modifies this
      ensures State() == GetStatus(env, old(State())).world && r == GetStatus(env, old(State())).value
    {
      var a := env(calls);
      Pass(a.took);
      if a.status.Answered? {
        log := log + [Status(a.status.value)];
      }
      return a.status;
    }

    method ProbeMember(hostOverride: bool, host: string) returns (r: Reply<IsMaster>)
      modifies this
      ensures State() == ProbeHost(env, old(State()), hostOverride, host).world
      ensures r == ProbeHost(env, old(State()), hostOverride, host).value
    {
      if hostOverride {
        r := Errored(PROBE_SKIPPED);
      } else {
        var a := env(calls);
        Pass(a.took);
        r := a.probe;
      }
      log := log + [Probe(host, r)];
    }

    method Sleep(ctx: nat, ms: nat) returns (interrupted: bool)
      modifies this
      ensures State() == Pause(old(State()), ctx, ms).world && interrupted == Pause(old(State()), ctx, ms).value
    {
      if ctx <= clock + ms {
        clock := if ctx > clock then ctx else clock;
        return true;
      }
      clock := clock + ms;
      return false;
    }
  }

  /** After a version conflict cfg takes the version after the live one. */
  method RereadVersion(client: ReplicaSetClient, cfg: RSConfig, e: MongoError) returns (err: Option<MongoError>)
    modifies client, cfg`version
    ensures var r := Refresh(client.env, old(client.State()), old(cfg.Value()), e);
            && client.State() == r.world
            && match r.value
               case Errored(error) => err == Some(error) && cfg.version == old(cfg.version)
               case Answered(refreshed) => err.None? && cfg.Value() == refreshed
    ensures cfg.Value() == old(cfg.Value()).(version := cfg.version) && client.clock >= old(client.clock)
  {
    hide GetConfig;
    if IsCode(e, CODE_VERSION_CONFLICT) {
      var current := client.GetReplSetConfig();
      if current.Errored? {
        return Some(current.error);
      }
      cfg.version := current.value.version + 1;
    }
    return None;
  }

  /** Sends cfg until it is installed, the error is not transient, the timeout has passed or the context ends. */
  method SetReplSetConfigWithRetry(client: ReplicaSetClient, ctx: nat, cfg: RSConfig, timeout: nat, ghost kind: Kind)
    returns (err: Option<CallError>)
    modifies client, cfg`version
    ensures var s := Send(client.env, old(client.State()), ctx, kind, old(cfg.Value()), old(client.clock) + timeout);
            client.State() == s.world && err == s.value
    ensures cfg.Value() == old(cfg.Value()).(version := cfg.version)
  {
    var deadline := client.clock + timeout;
    ghost var all := Send(client.env, client.State(), ctx, kind, cfg.Value(), deadline);
    while true
      invariant Send(client.env, client.State(), ctx, kind, cfg.Value(), deadline) == all
      invariant cfg.Value() == old(cfg.Value()).(version := cfg.version)
      decreases if client.clock <= deadline then deadline - client.clock + 1 else 0
    {
      hide Reconfigure, Refresh, Tick, Retryable;
      var maxTime := if deadline - client.clock < INIT_POLL then INIT_POLL else deadline - client.clock;
      var e := client.SetReplSetConfig(cfg, maxTime, kind);
      if e.None? {
        return None;
      }
      if !Retryable(e.value) {
        return Some(Rejected(e.value));
      }
      if client.clock > deadline {
        return Some(NotResolved(e.value));
      }
      var unreadable := RereadVersion(client, cfg, e.value);
      if unreadable.Some? {
        return Some(RereadFailed(unreadable.value));
      }
      var interrupted := client.Sleep(ctx, INIT_POLL);
      if interrupted {
        return Some(Cancelled);
      }
    }
  }

  /** Polls the status until host meets target, the timeout has passed or the context ends. */
  method WaitForMemberState(client: ReplicaSetClient, ctx: nat, host: string, target: WaitTarget, timeout: nat,
                            poll: nat)
    returns (res: WaitResult, cancelled: bool)
    requires poll > 0
    modifies client
    ensures var s := Await(client.env, old(client.State()), ctx, host, target, old(client.clock) + timeout, poll,
                           NOTHING_SEEN);
            client.State() == s.world && WaitEnd(res, cancelled) == s.value
  {
    var deadline := client.clock + timeout;
    res := NOTHING_SEEN;
    ghost var all := Await(client.env, client.State(), ctx, host, target, deadline, poll, res);
    while true
      invariant !res.met
      invariant Await(client.env, client.State(), ctx, host, target, deadline, poll, res) == all
      decreases if client.clock <= deadline then deadline - client.clock + 1 else 0
    {
      var status := client.GetReplSetStatus();
      if status.Answered? {
        var obs := ObserveMember(status.value, host, target);
        res := WaitResult(obs.met, res.everReachable || obs.reachable, true);
        if obs.met {
          return res, false;
        }
      }
      if client.clock > deadline {
        return res, false;
      }
      var interrupted := client.Sleep(ctx, poll);
      if interrupted {
        return res, true;
      }
    }
  }
}
