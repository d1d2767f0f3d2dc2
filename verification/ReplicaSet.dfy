/**
 * The documents the resource exchanges with a replica set: the configuration
 * (replSetGetConfig), the status (replSetGetStatus), a host's own isMaster
 * answer, and the member blocks a user declares.
 *
 * Optional BSON fields, which the source holds as pointers, are Options here.
 */
module ReplicaSet {
  import opened Wrappers

  type Tags = map<string, string>

  datatype Member = Member(
    id: int,
    host: string,
    arbiterOnly: Option<bool>,
    buildIndexes: Option<bool>,
    hidden: Option<bool>,
    priority: real,
    tags: Option<Tags>,
    slaveDelay: Option<int>,
    votes: Option<int>)

  datatype Settings = Settings(
    chainingAllowed: bool,
    heartbeatIntervalMillis: int,
    heartbeatTimeoutSecs: int,
    electionTimeoutMillis: int,
    catchUpTimeoutMillis: int)

  datatype Config = Config(setName: string, version: int, members: seq<Member>, settings: Settings)

  /** A member block as the user declares it. */
  datatype Block = Block(
    host: string,
    priority: real,
    votes: int,
    hidden: bool,
    arbiterOnly: bool,
    buildIndexes: bool,
    tags: Option<Tags>)

  function Flag(p: Option<bool>): bool {
    p.Some? && p.value
  }

  function Votes(m: Member): int {
    if m.votes.Some? then m.votes.value else 0
  }

  // Member health and the member states the resource tells apart.
  const HEALTH_UP := 1
  const STATE_PRIMARY := 1
  const STATE_SECONDARY := 2
  const STATE_ARBITER := 7

  /** One member's row of replSetGetStatus. */
  datatype StatusRow = StatusRow(name: string, health: int, state: int)

  /** A host's answer to isMaster; an absent string field is empty. */
  datatype IsMaster = IsMaster(isReplicaSet: bool, setName: string, msg: string)

  // Error codes the resource treats specially.
  const CODE_UNAUTHORIZED := 13
  const CODE_AUTHENTICATION_FAILED := 18
  const CODE_VERSION_CONFLICT := 103
  const CODE_CONFIG_NOT_COMMITTED := 308
  const CODE_NOT_WRITE_READY := 17405

  /**
   * An error of the driver: an answer carrying a code (and possibly the
   * NetworkError label), or anything else, of which only two facts matter:
   * whether its text speaks of failed authentication, and whether it is a
   * timeout or network failure.
   */
  datatype MongoError =
    | CommandError(code: int, networkLabel: bool)
    | OtherError(mentionsAuth: bool, transport: bool)

  predicate IsCode(e: MongoError, code: int) {
    e.CommandError? && e.code == code
  }

  predicate IsAuthError(e: MongoError) {
    match e
    case CommandError(code, _) => code == CODE_UNAUTHORIZED || code == CODE_AUTHENTICATION_FAILED
    case OtherError(mentionsAuth, _) => mentionsAuth
  }

  predicate IsConnectionError(e: MongoError) {
    !IsAuthError(e) && match e
                       case CommandError(_, networkLabel) => networkLabel
                       case OtherError(_, transport) => transport
  }

  /** What a call gives back: a value or an error. */
  datatype Reply<+T> = Answered(value: T) | Errored(error: MongoError)
}
