/**
 * What a sharded cluster's properties expand to: one provider alias for every
 * node, and the resources that refer to them. This is the specification the
 * builders of Cluster are proved against.
 */
module ClusterPlan {
  import opened Wrappers
  import opened Text
  import opened Terraform

  // ------------------------------------------------------ the properties

  datatype Credentials = Credentials(username: string, password: string)

  datatype Node = Node(host: string, port: nat, credentials: Option<Credentials>)

  /** Something declared under a name: a user, a role, a profiler, a parameter; settings holds the rest of it. */
  datatype Named = Named(name: string, settings: Body)

  /** What every component has: its nodes and the accounts declared on it. */
  datatype Group = Group(members: seq<Node>, users: seq<Named>, roles: seq<Named>, originalUsers: seq<Named>)

  datatype ReplicaSet = ReplicaSet(name: string, group: Group, settings: Body)

  datatype Zone = Zone(shard: string, zone: string)

  datatype Range = Range(namespace: string, zone: string, bounds: Body)

  datatype Props = Props(
    mongos: seq<Group>,
    configServers: ReplicaSet,
    shards: seq<ReplicaSet>,
    credentials: Option<Credentials>,
    users: seq<Named>,
    roles: seq<Named>,
    originalUsers: seq<Named>,
    registerShards: bool,
    balancer: Option<Body>,
    zones: seq<Zone>,
    ranges: seq<Range>,
    collections: seq<Named>,
    profilers: seq<Named>,
    parameters: seq<Named>,
    fcv: Option<Body>)

  // ------------------------------------------------------ names

  datatype Component = Shard | ConfigServer | Mongos

  function Prefix(c: Component): string {
    match c
    case Shard => "shard"
    case ConfigServer => "configsvr"
    case Mongos => "mongos"
  }

  function ProviderAliasName(c: Component, rsName: string, index: nat): string {
    if rsName == "" then Prefix(c) + "_" + Decimal(index)
    else Prefix(c) + "_" + rsName + "_" + Decimal(index)
  }

  function Aliases(c: Component, rsName: string, offset: nat, count: nat): seq<string> {
    seq(count, i requires 0 <= i < count => ProviderAliasName(c, rsName, offset + i))
  }

  function SanitizeName(name: string): string {
    seq(|name|, i requires 0 <= i < |name| => if IsAlphanumeric(name[i]) then name[i] else '_')
  }

  predicate IsAlphanumeric(c: char) {
    'a' <= c <= 'z' || 'A' <= c <= 'Z' || '0' <= c <= '9'
  }

  // The prefixes of resource names.
  function RolePrefix(alias: string): string { alias + "_role_" }
  function UserPrefix(alias: string): string { alias + "_user_" }
  function OriginalUserPrefix(alias: string): string { alias + "_origuser_" }
  function ProfilerPrefix(alias: string): string { alias + "_profiler_" }
  function ParameterPrefix(alias: string): string { alias + "_param_" }
  function ShardConfigName(rsName: string): string { SanitizeName(rsName) + "_config" }
  function FcvName(alias: string): string { alias + "_fcv" }

  // ------------------------------------------------------ one component

  const DEFAULT_PORT := 27017
  const AUTH_DATABASE := "admin"

  /** What a node is logged in to with: its own credentials if it has some, else the cluster's. */
  function Login(n: Node, credentials: Option<Credentials>): Option<Credentials> {
    if n.credentials.Some? then n.credentials else credentials
  }

  /** A node without a login has none to write; the builder does not get that far. */
  function ProviderBody(n: Node, credentials: Option<Credentials>, direct: bool): Body {
    [n.host, Decimal(if n.port == 0 then DEFAULT_PORT else n.port)]
    + (match Login(n, credentials)
       case Some(c) => [c.username, c.password]
       case None => [])
    + [AUTH_DATABASE, if direct then "direct" else "routed"]
  }

  function Providers(c: Component, rsName: string, offset: nat, members: seq<Node>,
                     credentials: Option<Credentials>)
    : seq<ProviderBlock>
  {
    seq(|members|, i requires 0 <= i < |members| =>
      ProviderBlock(ProviderAliasName(c, rsName, offset + i), ProviderBody(members[i], credentials, c != Mongos)))
  }

  /** One block for each item, named by a prefix and the item. */
  function Blocks(kind: Kind, prefix: string, items: seq<Named>, provider: string, deps: seq<string>)
    : seq<ResourceBlock>
  {
    seq(|items|, i requires 0 <= i < |items| =>
      ResourceBlock(kind, prefix + SanitizeName(items[i].name), [items[i].name] + items[i].settings, provider, deps))
  }

  function Refs(blocks: seq<ResourceBlock>): seq<string> {
    seq(|blocks|, i requires 0 <= i < |blocks| => Address(blocks[i]))
  }

  function RoleBlocks(alias: string, roles: seq<Named>): seq<ResourceBlock> {
    Blocks(DbRole, RolePrefix(alias), roles, ProviderRef(alias), [])
  }

  function Roles(aliases: seq<string>, roles: seq<Named>): seq<ResourceBlock> {
    if aliases == [] then []
    else Roles(aliases[..|aliases| - 1], roles) + RoleBlocks(aliases[|aliases| - 1], roles)
  }

  /** The users of an alias depend on every role of that alias. */
  function Users(aliases: seq<string>, users: seq<Named>, roles: seq<Named>): seq<ResourceBlock> {
    if aliases == [] then []
    else
      var alias := aliases[|aliases| - 1];
      Users(aliases[..|aliases| - 1], users, roles)
      + Blocks(DbUser, UserPrefix(alias), users, ProviderRef(alias), Refs(RoleBlocks(alias, roles)))
  }

  /** Items without dependencies on every alias: profilers and server parameters. */
  function OnEach(kind: Kind, prefix: string -> string, aliases: seq<string>, items: seq<Named>): seq<ResourceBlock> {
    if aliases == [] then []
    else
      var alias := aliases[|aliases| - 1];
      OnEach(kind, prefix, aliases[..|aliases| - 1], items) + Blocks(kind, prefix(alias), items, ProviderRef(alias), [])
  }

  function OriginalUsers(alias: string, users: seq<Named>): seq<ResourceBlock> {
    Blocks(OriginalUser, OriginalUserPrefix(alias), users, "", [])
  }

  function MergeRoles(cluster: seq<Named>, component: seq<Named>): (merged: seq<Named>)
    ensures merged == cluster + component
  {
    if |cluster| == 0 then component
    else if |component| == 0 then cluster
    else cluster + component
  }

  /** One component of the cluster, with the number its aliases start from. */
  datatype Part = Part(component: Component, name: string, group: Group, settings: Body, offset: nat)

  function PartAliases(t: Part): seq<string> {
    Aliases(t.component, t.name, t.offset, |t.group.members|)
  }

  function PartProviders(p: Props, t: Part): seq<ProviderBlock> {
    Providers(t.component, t.name, t.offset, t.group.members, p.credentials)
  }

  /** The shard_config of a replica set, through its first member; a mongos group has none. */
  function ShardConfigOf(t: Part): seq<ResourceBlock>
    requires t.group.members != []
  {
    if t.component == Mongos then []
    else [ResourceBlock(ShardConfig, ShardConfigName(t.name), [t.name] + t.settings,
                        ProviderRef(PartAliases(t)[0]), [])]
  }

  function FirstMemberResources(t: Part): seq<ResourceBlock> {
    if t.group.members == [] then []
    else ShardConfigOf(t) + OriginalUsers(PartAliases(t)[0], t.group.originalUsers)
  }

  function Compatibility(p: Props, t: Part): seq<ResourceBlock> {
    if t.component == Mongos || p.fcv.None? || t.group.members == [] then []
    else [ResourceBlock(Fcv, FcvName(PartAliases(t)[0]), p.fcv.value, ProviderRef(PartAliases(t)[0]), [])]
  }

  function Accounts(aliases: seq<string>, users: seq<Named>, roles: seq<Named>): seq<ResourceBlock> {
    Roles(aliases, roles) + Users(aliases, users, roles)
  }

  function PerNode(p: Props, aliases: seq<string>): seq<ResourceBlock> {
    OnEach(Profiler, ProfilerPrefix, aliases, p.profilers)
    + OnEach(ServerParameter, ParameterPrefix, aliases, p.parameters)
  }

  function PartResources(p: Props, t: Part): seq<ResourceBlock> {
    Accounts(PartAliases(t), t.group.users, MergeRoles(p.roles, t.group.roles)) + FirstMemberResources(t)
    + PerNode(p, PartAliases(t)) + Compatibility(p, t)
  }

  // ------------------------------------------------------ all components

  function ReplicaSetPart(c: Component, rs: ReplicaSet): Part {
    Part(c, rs.name, rs.group, rs.settings, 0)
  }

  function ShardParts(shards: seq<ReplicaSet>): seq<Part> {
    seq(|shards|, i requires 0 <= i < |shards| => ReplicaSetPart(Shard, shards[i]))
  }

  /** How many nodes the groups have together: the number the next mongos alias gets. */
  function NodeCount(groups: seq<Group>): nat {
    if groups == [] then 0 else NodeCount(groups[..|groups| - 1]) + |groups[|groups| - 1].members|
  }

  function MongosPart(groups: seq<Group>, i: nat): Part
    requires i < |groups|
  {
    Part(Mongos, "", groups[i], [], NodeCount(groups[..i]))
  }

  function MongosParts(groups: seq<Group>): seq<Part> {
    seq(|groups|, i requires 0 <= i < |groups| => MongosPart(groups, i))
  }

  function Parts(p: Props): seq<Part> {
    [ReplicaSetPart(ConfigServer, p.configServers)] + ShardParts(p.shards) + MongosParts(p.mongos)
  }

  function AllProviders(p: Props, parts: seq<Part>): seq<ProviderBlock> {
    if parts == [] then [] else AllProviders(p, parts[..|parts| - 1]) + PartProviders(p, parts[|parts| - 1])
  }

  function AllResources(p: Props, parts: seq<Part>): seq<ResourceBlock> {
    if parts == [] then [] else AllResources(p, parts[..|parts| - 1]) + PartResources(p, parts[|parts| - 1])
  }

  // ------------------------------------------------------ cluster-level resources

  /** All aliases of these parts, in order. */
  function EveryAlias(parts: seq<Part>): seq<string> {
    if parts == [] then [] else EveryAlias(parts[..|parts| - 1]) + PartAliases(parts[|parts| - 1])
  }

  /** The first alias of each part that has one. */
  function FirstAliases(parts: seq<Part>): seq<string> {
    if parts == [] then []
    else FirstAliases(parts[..|parts| - 1]) + PartAliases(parts[|parts| - 1])[..if parts[|parts| - 1].group.members == [] then 0 else 1]
  }

  function UserTargets(p: Props): seq<string> {
    EveryAlias(MongosParts(p.mongos)) + FirstAliases(ShardParts(p.shards))
  }

  function OriginalUserTargets(p: Props): seq<string> {
    FirstAliases(MongosParts(p.mongos) + [ReplicaSetPart(ConfigServer, p.configServers)] + ShardParts(p.shards))
  }

  function OriginalUsersOn(aliases: seq<string>, users: seq<Named>): seq<ResourceBlock> {
    if aliases == [] then []
    else OriginalUsersOn(aliases[..|aliases| - 1], users) + OriginalUsers(aliases[|aliases| - 1], users)
  }

  function ClusterAccounts(p: Props): seq<ResourceBlock> {
    (if p.users == [] then []
     else Accounts(UserTargets(p), p.users, p.roles))
    + OriginalUsersOn(OriginalUserTargets(p), p.originalUsers)
  }

  function HostPort(n: Node): string {
    n.host + ":" + Decimal(n.port)
  }

  function HostPorts(members: seq<Node>): seq<string> {
    seq(|members|, i requires 0 <= i < |members| => HostPort(members[i]))
  }

  function ShardEntries(shards: seq<ReplicaSet>): seq<Named> {
    seq(|shards|, i requires 0 <= i < |shards| => Named(shards[i].name, HostPorts(shards[i].group.members)))
  }

  function Registrations(p: Props, mongos: string): seq<ResourceBlock> {
    if !p.registerShards then []
    else Blocks(MongoShard, "shard_", ShardEntries(p.shards), ProviderRef(mongos), [])
  }

  function ZoneBlocks(zones: seq<Zone>, mongos: string, deps: seq<string>): seq<ResourceBlock> {
    seq(|zones|, i requires 0 <= i < |zones| =>
      ResourceBlock(ShardZone, SanitizeName(zones[i].shard) + "_" + SanitizeName(zones[i].zone),
                    [zones[i].shard, zones[i].zone], ProviderRef(mongos), deps))
  }

  function RangeBlocks(ranges: seq<Range>, mongos: string, deps: seq<string>): seq<ResourceBlock> {
    seq(|ranges|, i requires 0 <= i < |ranges| =>
      ResourceBlock(ZoneKeyRange,
                    SanitizeName(ranges[i].namespace) + "_" + SanitizeName(ranges[i].zone) + "_" + Decimal(i),
                    [ranges[i].namespace, ranges[i].zone] + ranges[i].bounds, ProviderRef(mongos), deps))
  }

  /** Zones depend on the registrations of the shards they name. */
  function Zones(p: Props, mongos: string): seq<ResourceBlock> {
    ZoneBlocks(p.zones, mongos, Refs(Registrations(p, mongos)))
  }

  /** Key ranges depend on the zones. */
  function Ranges(p: Props, mongos: string): seq<ResourceBlock> {
    RangeBlocks(p.ranges, mongos, Refs(Zones(p, mongos)))
  }

  function Balancing(p: Props, mongos: string): seq<ResourceBlock> {
    if p.balancer.None? then []
    else [ResourceBlock(BalancerConfig, "balancer", p.balancer.value, ProviderRef(mongos), Refs(Registrations(p, mongos)))]
  }

  function CollectionBalancing(p: Props, mongos: string): seq<ResourceBlock> {
    Blocks(CollBalancing, "colbal_", p.collections, ProviderRef(mongos), Refs(Registrations(p, mongos)))
  }

  /** What is run through the first mongos. */
  function Routed(p: Props, mongos: string): seq<ResourceBlock> {
    Registrations(p, mongos) + Balancing(p, mongos) + Zones(p, mongos) + Ranges(p, mongos) + CollectionBalancing(p, mongos)
  }

  // ------------------------------------------------------ validation and outcome

  const MIN_REPLICA_SET_MEMBERS := 3
  const MAX_MEMBERS := 50

  datatype Problem =
    | NoMongos | NoShards | DuplicateReplicaSetName | EmptyReplicaSetName | TooFewMembers | TooManyMembers
    | DuplicateHostPort

  function ValidateReplicaSetMembers(c: Component, members: seq<Node>): Option<Problem> {
    if c != Mongos && |members| < MIN_REPLICA_SET_MEMBERS then Some(TooFewMembers)
    else if |members| > MAX_MEMBERS then Some(TooManyMembers)
    else None
  }

  /** What building a part comes to: an error, an index out of range, or its blocks. */
  datatype Verdict = Fine | Rejected(problem: Problem) | Panicked

  ghost function PartProblem(t: Part): Option<Problem> {
    if t.component != Mongos && t.name == "" then Some(EmptyReplicaSetName)
    else if ValidateReplicaSetMembers(t.component, t.group.members).Some?
    then ValidateReplicaSetMembers(t.component, t.group.members)
    else if !Distinct(HostPorts(t.group.members)) then Some(DuplicateHostPort)
    else None
  }

  /** Some node has no credentials, nor has the cluster. */
  ghost predicate LacksLogin(members: seq<Node>, credentials: Option<Credentials>) {
    exists i :: 0 <= i < |members| && Login(members[i], credentials).None?
  }

  /**
   * Providers take the login of each node, and original users go through the
   * first: without one, building them panics.
   */
  ghost function PartVerdict(p: Props, t: Part): Verdict {
    if PartProblem(t).Some? then Rejected(PartProblem(t).value)
    else if LacksLogin(t.group.members, p.credentials) then Panicked
    else if t.group.members == [] && t.group.originalUsers != [] then Panicked
    else Fine
  }

  /** The first part that does not go well decides. */
  ghost function PartsVerdict(p: Props, parts: seq<Part>): Verdict {
    if parts == [] then Fine
    else
      var before := PartsVerdict(p, parts[..|parts| - 1]);
      if before.Fine? then PartVerdict(p, parts[|parts| - 1]) else before
  }

  function ReplicaSetNames(p: Props): seq<string> {
    [p.configServers.name] + seq(|p.shards|, i requires 0 <= i < |p.shards| => p.shards[i].name)
  }

  ghost function ClusterVerdict(p: Props): Verdict {
    if p.mongos == [] then Rejected(NoMongos)
    else if p.shards == [] then Rejected(NoShards)
    else if !Distinct(ReplicaSetNames(p)) then Rejected(DuplicateReplicaSetName)
    else
      var v := PartsVerdict(p, Parts(p));
      if !v.Fine? then v
      else if p.mongos[0].members == [] then Panicked
      else Fine
  }

  /** The alias every cluster-level resource goes through. */
  const FIRST_MONGOS := ProviderAliasName(Mongos, "", 0)

  function ClusterProviders(p: Props): seq<ProviderBlock> {
    AllProviders(p, Parts(p))
  }

  function ClusterResources(p: Props): seq<ResourceBlock> {
    AllResources(p, Parts(p)) + ClusterAccounts(p) + Routed(p, FIRST_MONGOS)
  }
}
