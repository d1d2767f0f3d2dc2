/**
 * The replica set as one apply meets it. Every server behaviour is a script
 * (Env) saying how each successive command is answered: quantifying over all
 * scripts quantifies over everything the server may do. Between two commands
 * the server may bump its configuration version on its own; it installs or
 * refuses a reconfig, or installs it and still reports an error; it may fail
 * any read. World is the state a command leaves behind, with the log of what
 * the apply sent and saw. Time is in milliseconds.
 */
module Server {
  import opened Wrappers
  import opened ReplicaSet
  import opened MemberPlan

  datatype ReconfigAnswer = Accepted | Refused(error: MongoError) | InstalledButFailed(error: MongoError)

  datatype Answer = Answer(
    bump: nat,                       // foreign version bumps just before the command
    took: nat,                       // how long the command takes, unless it reads the configuration
    readError: Option<MongoError>,   // replSetGetConfig
    readTook: nat,                   // how long reading the configuration takes
    reconfig: ReconfigAnswer,        // replSetReconfig, unless its version is stale
    status: Reply<seq<StatusRow>>,   // replSetGetStatus
    probe: Reply<IsMaster>)          // isMaster on a candidate host

  type Env = nat -> Answer

  /** Why a reconfig was sent. */
  datatype Kind = SettingsAndMembers | Stage(b: Block) | Promote(b: Block) | Rollback(host: string)

  datatype Event =
    | Reconfig(kind: Kind, live: Config, sent: Config, at: nat, maxTime: nat, took: nat)
    | Status(rows: seq<StatusRow>)
    | Probe(host: string, reply: Reply<IsMaster>)

  datatype World = World(config: Config, calls: nat, clock: nat, log: seq<Event>)

  /** What a step leaves behind and gives back. */
  datatype Step<+T> = Step(world: World, value: T)

  /** One command has been answered: foreign bumps are in and its time has passed. */
  function Tick(env: Env, w: World, took: nat): World {
    w.(config := w.config.(version := w.config.version + env(w.calls).bump),
       calls := w.calls + 1,
       clock := w.clock + took)
  }

  function GetConfig(env: Env, w: World): Step<Reply<Config>> {
    var t := Tick(env, w, env(w.calls).readTook);
    Step(t, match env(w.calls).readError
            case Some(e) => Errored(e)
            case None => Answered(t.config))
  }

  const VERSION_CONFLICT := CommandError(CODE_VERSION_CONFLICT, false)

  /** One replSetReconfig: a version not above the live one is a conflict, else the script decides. */
  function Reconfigure(env: Env, w: World, kind: Kind, cfg: Config, maxTime: nat): Step<Option<MongoError>> {
    var a, t := env(w.calls), Tick(env, w, env(w.calls).took);
    var seen := t.(log := w.log + [Reconfig(kind, t.config, cfg, w.clock, maxTime, a.took)]);
    if cfg.version <= t.config.version then Step(seen, Some(VERSION_CONFLICT))
    else match a.reconfig
         case Accepted => Step(seen.(config := cfg), None)
         case Refused(e) => Step(seen, Some(e))
         case InstalledButFailed(e) => Step(seen.(config := cfg), Some(e))
  }

  function GetStatus(env: Env, w: World): Step<Reply<seq<StatusRow>>> {
    var a, t := env(w.calls), Tick(env, w, env(w.calls).took);
    Step(match a.status
         case Answered(rows) => t.(log := w.log + [Status(rows)])
         case Errored(_) => t,
         a.status)
  }

  const PROBE_SKIPPED := OtherError(false, false)

  /** isMaster on a candidate; under host_override nothing is sent and no host can be inspected. */
  function ProbeHost(env: Env, w: World, hostOverride: bool, host: string): Step<Reply<IsMaster>> {
    var reply := if hostOverride then Errored(PROBE_SKIPPED) else env(w.calls).probe;
    var t := if hostOverride then w else Tick(env, w, env(w.calls).took);
    Step(t.(log := w.log + [Probe(host, reply)]), reply)
  }

  /** Sleeping until ms have passed or the context, which ends at ctx, is over (true). */
  function Pause(w: World, ctx: nat, ms: nat): Step<bool> {
    if ctx <= w.clock + ms then Step(w.(clock := if ctx > w.clock then ctx else w.clock), true)
    else Step(w.(clock := w.clock + ms), false)
  }

  // ------------------------------------------------------ reading the log

  /** How many reconfigs the log holds. */
  function Reconfigs(log: seq<Event>): nat {
    if log == [] then 0
    else Reconfigs(log[..|log| - 1]) + (if log[|log| - 1].Reconfig? then 1 else 0)
  }

  /** Some status in the log showed host up and SECONDARY or PRIMARY. */
  ghost predicate ShownSynced(log: seq<Event>, host: string) {
    exists i :: 0 <= i < |log| && log[i].Status? && RowSynced(log[i].rows, host)
  }

  ghost predicate RowSynced(rows: seq<StatusRow>, host: string) {
    exists j :: 0 <= j < |rows| && rows[j].name == host && rows[j].health == HEALTH_UP
                && (rows[j].state == STATE_SECONDARY || rows[j].state == STATE_PRIMARY)
  }

  ghost predicate Extends(w: World, w': World) {
    w.log <= w'.log && w.calls <= w'.calls && w.clock <= w'.clock
  }

  /** A step that sent no reconfig: only the version may have moved. */
  ghost predicate Quiet(w: World, w': World) {
    && Extends(w, w')
    && w'.config == w.config.(version := w'.config.version) && w.config.version <= w'.config.version
    && forall i | |w.log| <= i < |w'.log| :: !w'.log[i].Reconfig?
  }

  lemma {:induction false} ReconfigsAppended(log: seq<Event>, e: Event)
    ensures Reconfigs(log + [e]) == Reconfigs(log) + (if e.Reconfig? then 1 else 0)
  {
    assert (log + [e])[..|log|] == log;
  }

  lemma {:induction false} QuietSendsNothing(a: seq<Event>, b: seq<Event>)
    requires a <= b && forall i | |a| <= i < |b| :: !b[i].Reconfig?
    ensures Reconfigs(b) == Reconfigs(a)
    decreases |b|
  {
    if a != b {
      QuietSendsNothing(a, b[..|b| - 1]);
    }
  }

  /** A status that meets the SECONDARY target contains a row that shows the host synced. */
  lemma {:induction false} MetShowsSynced(rows: seq<StatusRow>, host: string)
    requires Observe(rows, host, WaitSecondary).met
    ensures RowSynced(rows, host)
  {
    if rows[0].name == host {
      assert rows[0].health == HEALTH_UP;
    } else {
      MetShowsSynced(rows[1..], host);
      var j :| 0 <= j < |rows[1..]| && rows[1..][j].name == host && rows[1..][j].health == HEALTH_UP
               && (rows[1..][j].state == STATE_SECONDARY || rows[1..][j].state == STATE_PRIMARY);
      assert rows[j + 1] == rows[1..][j];
    }
  }

  lemma {:induction false} ShownStaysShown(log: seq<Event>, log': seq<Event>, host: string)
    requires ShownSynced(log, host) && log <= log'
    ensures ShownSynced(log', host)
  {
    var i :| 0 <= i < |log| && log[i].Status? && RowSynced(log[i].rows, host);
    assert log'[i] == log[i];
  }
}
