/**
 * What a cluster that is built contains, in the words of its properties: on
 * which nodes the cluster's users and the bootstrap users stand, what goes
 * through the first mongos, and in which order that is created.
 */
module ClusterContents {
  import opened Wrappers
  import opened Text
  import opened Terraform
  import opened ClusterPlan
  import opened ClusterLaws
  import opened ClusterNames

  // ------------------------------------------------------ the nodes

  /** What every cluster that is built has: named replica sets of three members or more, and a mongos. */
  lemma {:induction false} BuiltHasMembers(p: Props)
    requires ClusterVerdict(p).Fine?
    ensures p.configServers.name != "" && |p.configServers.group.members| >= 3
    ensures forall i | 0 <= i < |p.shards| :: p.shards[i].name != "" && |p.shards[i].group.members| >= 3
    ensures p.mongos != [] && p.mongos[0].members != []
  {
    FinePartsAreValid(p);
    assert PartProblem(Parts(p)[0]).None?;
    forall i | 0 <= i < |p.shards| ensures p.shards[i].name != "" && |p.shards[i].group.members| >= 3 {
      assert Parts(p)[1 + i] == ReplicaSetPart(Shard, p.shards[i]);
      assert PartProblem(Parts(p)[1 + i]).None?;
    }
  }

  /** Each mongos, numbered through the groups. */
  ghost predicate IsMongos(p: Props, a: string) {
    exists n: nat :: n < NodeCount(p.mongos) && a == "mongos_" + Decimal(n)
  }

  /** The first member of a shard. */
  ghost predicate IsShardPrimary(p: Props, a: string) {
    exists k :: 0 <= k < |p.shards| && a == "shard_" + p.shards[k].name + "_0"
  }

  /** The first node of a mongos group that has one. */
  ghost predicate LeadsMongosGroup(p: Props, a: string) {
    exists g :: && 0 <= g < |p.mongos| && p.mongos[g].members != []
                && a == "mongos_" + Decimal(NodeCount(p.mongos[..g]))
  }

  lemma AliasNames(c: Component, name: string, n: nat)
    ensures ProviderAliasName(Mongos, "", n) == "mongos_" + Decimal(n)
    ensures name != "" ==>
              && ProviderAliasName(Shard, name, n) == "shard_" + name + "_" + Decimal(n)
              && ProviderAliasName(ConfigServer, name, n) == "configsvr_" + name + "_" + Decimal(n)
    ensures Decimal(0) == "0"
  {
    assert "shard" + "_" == "shard_" && "configsvr" + "_" == "configsvr_" && "mongos" + "_" == "mongos_";
  }

  lemma {:induction false} FirstAliasesAre(parts: seq<Part>, a: string)
    ensures a in FirstAliases(parts)
            <==> exists k :: 0 <= k < |parts| && parts[k].group.members != [] && a == PartAliases(parts[k])[0]
  {
    hide PartAliases;
    if parts != [] {
      var front, last := parts[..|parts| - 1], parts[|parts| - 1];
      FirstOfOne(last, a);
      FirstAliasesAre(front, a);
      assert FirstAliases(parts) == FirstAliases(front) + FirstAlias(last);
      hide FirstAliases, FirstAlias;
      assert forall k | 0 <= k < |front| :: front[k] == parts[k];
    }
  }

  ghost function FirstAlias(t: Part): seq<string> {
    PartAliases(t)[..if t.group.members == [] then 0 else 1]
  }

  lemma {:induction false} FirstOfOne(t: Part, a: string)
    ensures a in FirstAlias(t) <==> t.group.members != [] && a == PartAliases(t)[0]
  {
    assert |PartAliases(t)| == |t.group.members|;
    hide PartAliases;
  }

  lemma {:induction false} FirstOfShards(p: Props, a: string)
    requires forall i | 0 <= i < |p.shards| :: p.shards[i].name != "" && |p.shards[i].group.members| >= 3
    ensures a in FirstAliases(ShardParts(p.shards)) <==> IsShardPrimary(p, a)
  {
    var parts := ShardParts(p.shards);
    FirstAliasesAre(parts, a);
    forall k | 0 <= k < |parts|
      ensures parts[k].group.members != [] && PartAliases(parts[k])[0] == "shard_" + p.shards[k].name + "_0"
    {
      AliasNames(Shard, p.shards[k].name, 0);
    }
    hide ShardParts, FirstAliases, PartAliases;
  }

  /** The cluster's users stand on every mongos and on every shard's primary, and nowhere else. */
  lemma {:induction false} UserTargetsExactly(p: Props, a: string)
    requires ClusterVerdict(p).Fine?
    ensures a in UserTargets(p) <==> IsMongos(p, a) || IsShardPrimary(p, a)
  {
    BuiltHasMembers(p);
    hide ClusterVerdict;
    MongosExactly(p, a);
    FirstOfShards(p, a);
    hide EveryAlias, FirstAliases, IsMongos, IsShardPrimary, MongosParts, ShardParts;
  }

  /** The cluster's bootstrap users stand on the first node of every mongos group, config server and shard. */
  lemma {:induction false} OriginalUserTargetsExactly(p: Props, a: string)
    requires ClusterVerdict(p).Fine?
    ensures a in OriginalUserTargets(p)
            <==> || LeadsMongosGroup(p, a) || a == "configsvr_" + p.configServers.name + "_0"
                 || IsShardPrimary(p, a)
  {
    BuiltHasMembers(p);
    var mongos, config, shards := MongosParts(p.mongos), [ReplicaSetPart(ConfigServer, p.configServers)], ShardParts(p.shards);
    hide *;
    OriginalUserTargetsAre(p);
    FirstTogether(mongos + config, shards, a);
    FirstTogether(mongos, config, a);
    FirstOfShards(p, a);
    FirstOfConfig(p, a);
    FirstOfMongos(p, a);
  }

  lemma OriginalUserTargetsAre(p: Props)
    ensures OriginalUserTargets(p)
            == FirstAliases(MongosParts(p.mongos) + [ReplicaSetPart(ConfigServer, p.configServers)] + ShardParts(p.shards))
  {
  }

  lemma {:induction false} FirstOfConfig(p: Props, a: string)
    requires p.configServers.name != "" && |p.configServers.group.members| >= 3
    ensures a in FirstAliases([ReplicaSetPart(ConfigServer, p.configServers)])
            <==> a == "configsvr_" + p.configServers.name + "_0"
  {
    var parts := [ReplicaSetPart(ConfigServer, p.configServers)];
    FirstAliasesAre(parts, a);
    AliasNames(ConfigServer, p.configServers.name, 0);
    assert PartAliases(parts[0])[0] == "configsvr_" + p.configServers.name + "_0";
    hide FirstAliases, PartAliases;
  }

  lemma {:induction false} FirstOfMongos(p: Props, a: string)
    ensures a in FirstAliases(MongosParts(p.mongos)) <==> LeadsMongosGroup(p, a)
  {
    var parts := MongosParts(p.mongos);
    FirstAliasesAre(parts, a);
    forall g | 0 <= g < |parts| && parts[g].group.members != []
      ensures PartAliases(parts[g])[0] == "mongos_" + Decimal(NodeCount(p.mongos[..g]))
    {
      AliasNames(Mongos, "", NodeCount(p.mongos[..g]));
    }
    assert |parts| == |p.mongos| && forall g | 0 <= g < |parts| :: parts[g].group == p.mongos[g];
    hide FirstAliases, PartAliases, MongosParts, Decimal, NodeCount;
  }

  lemma {:induction false} FirstTogether(x: seq<Part>, y: seq<Part>, a: string)
    ensures a in FirstAliases(x + y) <==> a in FirstAliases(x) || a in FirstAliases(y)
  {
    FirstAliasesAre(x, a);
    FirstAliasesAre(y, a);
    FirstAliasesAre(x + y, a);
    hide FirstAliases, PartAliases;
    assert forall k | 0 <= k < |x| :: (x + y)[k] == x[k];
    assert forall k | 0 <= k < |y| :: (x + y)[|x| + k] == y[k];
  }

  // ------------------------------------------------------ cluster users

  /**
   * Each user of the cluster is created on each of those nodes, through its
   * provider, after exactly the cluster's roles on that node, which are
   * created too.
   */
  lemma {:induction false} ClusterUsersStandEverywhere(p: Props, u: Named, a: string, j: nat)
    returns (user: ResourceBlock, role: ResourceBlock)
    requires ClusterVerdict(p).Fine? && u in p.users && j < |p.roles|
    requires IsMongos(p, a) || IsShardPrimary(p, a)
    ensures user in ClusterResources(p)
    ensures user.kind == DbUser && user.name == a + "_user_" + SanitizeName(u.name)
    ensures user.body == [u.name] + u.settings && user.provider == "mongodb." + a
    ensures |user.dependsOn| == |p.roles|
    ensures user.dependsOn[j] == "mongodb_db_role." + (a + "_role_" + SanitizeName(p.roles[j].name))
    ensures role in ClusterResources(p)
    ensures role == ResourceBlock(DbRole, a + "_role_" + SanitizeName(p.roles[j].name),
                                  [p.roles[j].name] + p.roles[j].settings, "mongodb." + a, [])
  {
    UserTargetsExactly(p, a);
    user, role := UserAt(a, u, p.roles), RoleAt(a, p.roles[j]);
    assert UserSite(p, a, u, p.roles);
    RoleOnTarget(p, a, p.roles[j]);
    AccountBlocks(a, u, p.roles, j);
    hide *;
    UserExactly(p, user);
    RoleExactly(p, role);
    RoleAtIs(a, p.roles[j]);
  }

  lemma {:induction false} RoleOnTarget(p: Props, a: string, x: Named)
    requires a in UserTargets(p) && x in p.roles
    ensures RoleSite(p, a, x)
  {
    TargetsAreAliases(p);
    AliasHasPart(p, a);
    hide PartAliases, UserTargets, EveryAlias, Parts;
    var t :| t in Parts(p) && a in PartAliases(t);
    assert x in p.roles + t.group.roles;
  }

  lemma RoleAtIs(a: string, x: Named)
    ensures RoleAt(a, x) == Item(DbRole, RolePrefix(a), x, ProviderRef(a), [])
    ensures RoleAt(a, x).kind == DbRole
    ensures forall u, roles :: UserAt(a, u, roles).kind == DbUser
  {
  }

  /** The account blocks on one node, spelled out. */
  lemma {:induction false} AccountBlocks(a: string, u: Named, roles: seq<Named>, j: nat)
    requires j < |roles|
    ensures var user := UserAt(a, u, roles);
            && user.name == a + "_user_" + SanitizeName(u.name) && user.body == [u.name] + u.settings
            && user.provider == "mongodb." + a && |user.dependsOn| == |roles|
            && user.dependsOn[j] == "mongodb_db_role." + (a + "_role_" + SanitizeName(roles[j].name))
    ensures RoleAt(a, roles[j]) == ResourceBlock(DbRole, a + "_role_" + SanitizeName(roles[j].name),
                                                 [roles[j].name] + roles[j].settings, "mongodb." + a, [])
  {
    hide SanitizeName;
    assert "mongodb" + "." == "mongodb." && "mongodb_db_role" + "." == "mongodb_db_role.";
    assert RoleBlocks(a, roles)[j] == RoleAt(a, roles[j]);
  }

  // ------------------------------------------------------ through the first mongos

  lemma {:induction false} InRefs(blocks: seq<ResourceBlock>, s: ResourceBlock)
    requires s in blocks
    ensures Address(s) in Refs(blocks)
  {
    var i :| 0 <= i < |blocks| && blocks[i] == s;
    assert Refs(blocks)[i] == Address(s);
  }

  /**
   * Shards are registered before anything names them: the balancer, every zone
   * and every balanced collection depend on every registration, and every key
   * range on every zone.
   */
  lemma {:induction false} RoutedInOrder(p: Props, r: ResourceBlock, s: ResourceBlock)
    requires r in ClusterResources(p) && s in ClusterResources(p)
    requires || (r.kind in {BalancerConfig, ShardZone, CollBalancing} && s.kind == MongoShard)
             || (r.kind == ZoneKeyRange && s.kind == ShardZone)
    ensures Address(s) in r.dependsOn
  {
    hide ClusterResources, Routed, Registrations, Refs, ProviderRef, SanitizeName, Address, Decimal;
    RoutedExactly(p, r);
    RoutedExactly(p, s);
    RoutedByKind(p, FIRST_MONGOS, r);
    RoutedByKind(p, FIRST_MONGOS, s);
    if s.kind == MongoShard {
      InRefs(Registrations(p, FIRST_MONGOS), s);
    } else {
      InRefs(Zones(p, FIRST_MONGOS), s);
    }
  }

  // ------------------------------------------------------ on first members

  /** The k-th replica set, the config server being the first. */
  ghost function SetAt(p: Props, k: nat): ReplicaSet
    requires k <= |p.shards|
  {
    if k == 0 then p.configServers else p.shards[k - 1]
  }

  /** What the names of its nodes begin with. */
  ghost function SetName(p: Props, k: nat): string
    requires k <= |p.shards|
  {
    (if k == 0 then "configsvr_" else "shard_") + SetAt(p, k).name + "_"
  }

  lemma PartCount(p: Props)
    ensures |Parts(p)| == 1 + |p.shards| + |p.mongos|
  {
  }

  lemma {:induction false} LeaderIsFirst(p: Props, i: nat)
    requires ClusterVerdict(p).Fine? && i <= |p.shards|
    ensures var t := Parts(p)[i];
            && t in Parts(p) && t.component != Mongos && t.group.members != []
            && t.name == SetAt(p, i).name && t.settings == SetAt(p, i).settings
            && PartAliases(t)[0] == SetName(p, i) + "0"
  {
    BuiltHasMembers(p);
    hide ClusterVerdict, Decimal;
    var rs := SetAt(p, i);
    AliasNames(Shard, rs.name, 0);
    assert Parts(p)[i] == ReplicaSetPart(if i == 0 then ConfigServer else Shard, rs);
  }

  lemma {:induction false} ReplicaSetIndex(p: Props, t: Part) returns (i: nat)
    requires t in Parts(p) && t.component != Mongos
    ensures i <= |p.shards| && t == Parts(p)[i]
  {
    i :| i < |Parts(p)| && Parts(p)[i] == t;
    assert forall n | |p.shards| < n < |Parts(p)| :: Parts(p)[n] == MongosParts(p.mongos)[n - 1 - |p.shards|];
  }

  /** The shard_config of the i-th replica set, through its first member. */
  ghost function ConfigOf(p: Props, i: nat): ResourceBlock
    requires i <= |p.shards|
  {
    var rs := SetAt(p, i);
    ResourceBlock(ShardConfig, SanitizeName(rs.name) + "_config", [rs.name] + rs.settings,
                  "mongodb." + (SetName(p, i) + "0"), [])
  }

  /** Each replica set has one shard_config, through its first member, and mongos groups have none. */
  lemma {:induction false} ShardConfigsExactly(p: Props, r: ResourceBlock)
    requires ClusterVerdict(p).Fine? && r.kind == ShardConfig
    ensures r in ClusterResources(p) <==> exists i :: 0 <= i <= |p.shards| && r == ConfigOf(p, i)
  {
    hide ClusterVerdict, ClusterResources, SanitizeName, SetName, SetAt, Parts, PartAliases;
    ConfigExactly(p, r);
    PartCount(p);
    assert forall t | ConfigSite(p, t) :: t in Parts(p) && t.component != Mongos;
    assert "mongodb" + "." == "mongodb.";
    forall i | 0 <= i <= |p.shards| ensures ConfigSite(p, Parts(p)[i]) && ConfigAt(Parts(p)[i]) == ConfigOf(p, i) {
      LeaderIsFirst(p, i);
    }
    hide *;
    if t :| ConfigSite(p, t) && r == ConfigAt(t) {
      var i := ReplicaSetIndex(p, t);
      assert r == ConfigOf(p, i);
    }
  }

  /** The compatibility version of the i-th replica set, through its first member. */
  ghost function VersionOf(p: Props, i: nat): ResourceBlock
    requires i <= |p.shards|
  {
    var leader := SetName(p, i) + "0";
    ResourceBlock(Fcv, leader + "_fcv", if p.fcv.Some? then p.fcv.value else [], "mongodb." + leader, [])
  }

  /** A compatibility version stands on the first member of each replica set, when one is declared. */
  lemma {:induction false} VersionsExactly(p: Props, r: ResourceBlock)
    requires ClusterVerdict(p).Fine? && r.kind == Fcv
    ensures r in ClusterResources(p)
            <==> p.fcv.Some? && exists i :: 0 <= i <= |p.shards| && r == VersionOf(p, i)
  {
    hide *;
    VersionExactly(p, r);
    PartCount(p);
    forall i | 0 <= i <= |p.shards|
      ensures Parts(p)[i] in Parts(p)
      ensures r in Compatibility(p, Parts(p)[i]) <==> p.fcv.Some? && r == VersionOf(p, i)
    {
      VersionOfReplicaSet(p, i);
    }
    if t :| t in Parts(p) && r in Compatibility(p, t) {
      OnlyReplicaSetsHaveVersions(p, t, r);
      var i := ReplicaSetIndex(p, t);
      assert r == VersionOf(p, i);
    }
  }

  lemma {:induction false} VersionOfReplicaSet(p: Props, i: nat)
    requires ClusterVerdict(p).Fine? && i <= |p.shards|
    ensures Parts(p)[i] in Parts(p)
    ensures Compatibility(p, Parts(p)[i]) == if p.fcv.Some? then [VersionOf(p, i)] else []
  {
    LeaderIsFirst(p, i);
    hide ClusterVerdict, SetName, SetAt, Parts, PartAliases;
    assert "mongodb" + "." == "mongodb.";
  }

  lemma OnlyReplicaSetsHaveVersions(p: Props, t: Part, r: ResourceBlock)
    requires r in Compatibility(p, t)
    ensures t.component != Mongos && p.fcv.Some?
  {
  }

  // ------------------------------------------------------ block by block

  /** What the registrations are referred to by, in shard order. */
  ghost function RegistrationRefs(p: Props): seq<string> {
    if p.registerShards
    then seq(|p.shards|, i requires 0 <= i < |p.shards| => "mongodb_shard." + ("shard_" + SanitizeName(p.shards[i].name)))
    else []
  }

  ghost function ZoneName(z: Zone): string {
    SanitizeName(z.shard) + "_" + SanitizeName(z.zone)
  }

  ghost function ZoneRefs(p: Props): seq<string> {
    seq(|p.zones|, i requires 0 <= i < |p.zones| => "mongodb_shard_zone." + ZoneName(p.zones[i]))
  }

  lemma {:induction false} RefsAre(p: Props)
    ensures Refs(Registrations(p, FIRST_MONGOS)) == RegistrationRefs(p)
    ensures Refs(Zones(p, FIRST_MONGOS)) == ZoneRefs(p)
    ensures ProviderRef(FIRST_MONGOS) == "mongodb.mongos_0"
  {
    AliasNames(Mongos, "", 0);
    assert "mongodb" + "." + ("mongos_" + "0") == "mongodb.mongos_0";
    assert "mongodb_shard" + "." == "mongodb_shard." && "mongodb_shard_zone" + "." == "mongodb_shard_zone.";
    hide SanitizeName, HostPorts;
    var registered, zones := Registrations(p, FIRST_MONGOS), Zones(p, FIRST_MONGOS);
    assert |registered| == |RegistrationRefs(p)|
           && forall i | 0 <= i < |registered| :: Address(registered[i]) == RegistrationRefs(p)[i];
    assert |zones| == |p.zones| && forall i | 0 <= i < |zones| :: Address(zones[i]) == ZoneRefs(p)[i];
  }

  /** A replica set's hosts as they are registered. */
  ghost function HostList(rs: ReplicaSet): seq<string> {
    var nodes := rs.group.members;
    seq(|nodes|, i requires 0 <= i < |nodes| => nodes[i].host + ":" + Decimal(nodes[i].port))
  }

  /**
   * What goes through the first mongos: the registrations of the shards with
   * their hosts, if asked for, and the zones, key ranges, balanced collections
   * and balancer, each as declared and after what it names.
   */
  ghost predicate DeclaredRouted(p: Props, r: ResourceBlock) {
    && r.provider == "mongodb.mongos_0"
    && match r.kind
       case MongoShard =>
         p.registerShards && r.dependsOn == []
         && exists i :: && 0 <= i < |p.shards| && r.name == "shard_" + SanitizeName(p.shards[i].name)
                        && r.body == [p.shards[i].name] + HostList(p.shards[i])
       case ShardZone =>
         r.dependsOn == RegistrationRefs(p)
         && exists z :: z in p.zones && r.name == ZoneName(z) && r.body == [z.shard, z.zone]
       case ZoneKeyRange =>
         r.dependsOn == ZoneRefs(p)
         && exists i :: && 0 <= i < |p.ranges| && r.body == [p.ranges[i].namespace, p.ranges[i].zone] + p.ranges[i].bounds
                        && r.name == SanitizeName(p.ranges[i].namespace) + "_" + SanitizeName(p.ranges[i].zone) + "_"
                                     + Decimal(i)
       case CollBalancing =>
         r.dependsOn == RegistrationRefs(p)
         && exists c :: c in p.collections && r.name == "colbal_" + SanitizeName(c.name) && r.body == [c.name] + c.settings
       case BalancerConfig =>
         r.dependsOn == RegistrationRefs(p) && r.name == "balancer" && p.balancer == Some(r.body)
       case _ => false
  }

  lemma {:induction false} RoutedIsDeclaredExactlyWhen(p: Props, r: ResourceBlock)
    requires r.kind in {MongoShard, ShardZone, ZoneKeyRange, CollBalancing, BalancerConfig}
    ensures r in ClusterResources(p) <==> DeclaredRouted(p, r)
  {
    RoutedExactly(p, r);
    RoutedByKind(p, FIRST_MONGOS, r);
    RefsAre(p);
    hide ClusterResources, Routed, SanitizeName, Decimal, Registrations, Refs, RegistrationRefs, ZoneRefs, ProviderRef,
         DeclaredRouted, Ranges, Zones, CollectionBalancing, Balancing;
    match r.kind
    case MongoShard => RegistrationIsDeclared(p, r);
    case ShardZone => ZoneIsDeclared(p, r);
    case ZoneKeyRange => RangeIsDeclared(p, r);
    case CollBalancing => CollectionIsDeclared(p, r);
    case BalancerConfig => BalancerIsDeclared(p, r);
  }

  lemma {:induction false} RegistrationIsDeclared(p: Props, r: ResourceBlock)
    requires r.kind == MongoShard
    ensures r in Registrations(p, FIRST_MONGOS) <==> DeclaredRouted(p, r)
  {
    RefsAre(p);
    var registered := Registrations(p, FIRST_MONGOS);
    assert forall i | 0 <= i < |p.shards| :: HostPorts(p.shards[i].group.members) == HostList(p.shards[i]);
    assert p.registerShards ==> |registered| == |p.shards|;
    hide HostPorts, HostList, ProviderRef, SanitizeName, Decimal;
    if r in registered {
      var i :| 0 <= i < |registered| && registered[i] == r;
    }
    if DeclaredRouted(p, r) {
      var i :| && 0 <= i < |p.shards| && r.name == "shard_" + SanitizeName(p.shards[i].name)
               && r.body == [p.shards[i].name] + HostList(p.shards[i]);
      assert registered[i] == r;
    }
  }

  lemma {:induction false} ZoneIsDeclared(p: Props, r: ResourceBlock)
    requires r.kind == ShardZone
    ensures r in Zones(p, FIRST_MONGOS) <==> DeclaredRouted(p, r)
  {
    RefsAre(p);
    ZoneExactly(p, r);
    hide Zones, Registrations, Refs, RegistrationRefs, ProviderRef, SanitizeName;
  }

  lemma {:induction false} RangeIsDeclared(p: Props, r: ResourceBlock)
    requires r.kind == ZoneKeyRange
    ensures r in Ranges(p, FIRST_MONGOS) <==> DeclaredRouted(p, r)
  {
    RefsAre(p);
    var ranges := Ranges(p, FIRST_MONGOS);
    hide Zones, Refs, ZoneRefs, ProviderRef, SanitizeName, Decimal;
    assert |ranges| == |p.ranges|;
    if r in ranges {
      var i :| 0 <= i < |ranges| && ranges[i] == r;
    }
    if DeclaredRouted(p, r) {
      var i :| && 0 <= i < |p.ranges| && r.body == [p.ranges[i].namespace, p.ranges[i].zone] + p.ranges[i].bounds
               && r.name == SanitizeName(p.ranges[i].namespace) + "_" + SanitizeName(p.ranges[i].zone) + "_" + Decimal(i);
      assert ranges[i] == r;
    }
  }

  lemma {:induction false} CollectionIsDeclared(p: Props, r: ResourceBlock)
    requires r.kind == CollBalancing
    ensures r in CollectionBalancing(p, FIRST_MONGOS) <==> DeclaredRouted(p, r)
  {
    RefsAre(p);
    CollectionExactly(p, r);
    hide CollectionBalancing, Registrations, Refs, RegistrationRefs, ProviderRef, SanitizeName;
  }

  lemma {:induction false} BalancerIsDeclared(p: Props, r: ResourceBlock)
    requires r.kind == BalancerConfig
    ensures r in Balancing(p, FIRST_MONGOS) <==> DeclaredRouted(p, r)
  {
    RefsAre(p);
    hide Registrations, Refs, RegistrationRefs, ProviderRef;
  }

  // ------------------------------------------------------ on every node

  ghost predicate IsMember(p: Props, k: nat, a: string)
    requires k <= |p.shards|
  {
    exists i: nat :: i < |SetAt(p, k).group.members| && a == SetName(p, k) + Decimal(i)
  }

  /** A node of the cluster: a mongos, or a member of a replica set. */
  ghost predicate IsNode(p: Props, a: string) {
    IsMongos(p, a) || exists k :: 0 <= k <= |p.shards| && IsMember(p, k, a)
  }

  /** x's block on node a. */
  ghost predicate StandsOn(r: ResourceBlock, a: string, x: Named) {
    && r.name == a + (if r.kind == Profiler then "_profiler_" else "_param_") + SanitizeName(x.name)
    && r.body == [x.name] + x.settings && r.provider == "mongodb." + a && r.dependsOn == []
  }

  lemma {:induction false} StandsOnIs(r: ResourceBlock, a: string, x: Named)
    requires r.kind in {Profiler, ServerParameter}
    ensures StandsOn(r, a, x) <==> r == Item(r.kind, NodePrefix(r.kind, a), x, ProviderRef(a), [])
  {
    assert "mongodb" + "." == "mongodb.";
    hide SanitizeName;
  }

  /** Every profiler and parameter stands on every node, under the node's name and through its provider. */
  lemma {:induction false} ProfilersExactly(p: Props, r: ResourceBlock)
    requires ClusterVerdict(p).Fine? && r.kind in {Profiler, ServerParameter}
    ensures r in ClusterResources(p)
            <==> exists a, x :: && IsNode(p, a) && x in (if r.kind == Profiler then p.profilers else p.parameters)
                                && StandsOn(r, a, x)
  {
    BuiltHasMembers(p);
    NodeItemExactly(p, r);
    assert NodeItems(p, r.kind) == if r.kind == Profiler then p.profilers else p.parameters;
    forall a, x ensures NodeSite(p, r.kind, a, x) <==> a in EveryAlias(Parts(p)) && x in NodeItems(p, r.kind) {
    }
    hide *;
    forall a ensures a in EveryAlias(Parts(p)) <==> IsNode(p, a) {
      NodesExactly(p, a);
    }
    forall a, x ensures StandsOn(r, a, x) <==> r == Item(r.kind, NodePrefix(r.kind, a), x, ProviderRef(a), []) {
      StandsOnIs(r, a, x);
    }
  }

  lemma {:induction false} NodesExactly(p: Props, a: string)
    requires p.configServers.name != "" && forall i | 0 <= i < |p.shards| :: p.shards[i].name != ""
    ensures a in EveryAlias(Parts(p)) <==> IsNode(p, a)
  {
    var sets, mongos := [ReplicaSetPart(ConfigServer, p.configServers)] + ShardParts(p.shards), MongosParts(p.mongos);
    assert Parts(p) == sets + mongos && |sets| == 1 + |p.shards|;
    assert forall k | 0 <= k <= |p.shards| :: Parts(p)[k] == sets[k];
    hide *;
    MongosExactly(p, a);
    EveryTogether(sets, mongos, a);
    AliasOfSomePart(sets, a);
    forall k | 0 <= k <= |p.shards| ensures a in PartAliases(sets[k]) <==> IsMember(p, k, a) {
      AliasOfReplicaSet(p, k, a);
    }
    NodeIs(p, a);
  }

  lemma NodeIs(p: Props, a: string)
    ensures IsNode(p, a) <==> IsMongos(p, a) || exists k :: 0 <= k <= |p.shards| && IsMember(p, k, a)
  {
  }

  lemma {:induction false} EveryTogether(x: seq<Part>, y: seq<Part>, a: string)
    ensures a in EveryAlias(x + y) <==> a in EveryAlias(x) || a in EveryAlias(y)
  {
    AliasOfSomePart(x, a);
    AliasOfSomePart(y, a);
    AliasOfSomePart(x + y, a);
    hide EveryAlias, PartAliases;
    assert forall k | 0 <= k < |x| :: (x + y)[k] == x[k];
    assert forall k | 0 <= k < |y| :: (x + y)[|x| + k] == y[k];
  }

  lemma {:induction false} MongosExactly(p: Props, a: string)
    ensures a in EveryAlias(MongosParts(p.mongos)) <==> IsMongos(p, a)
  {
    MongosAreNumberedThrough(p.mongos);
    var aliases := Aliases(Mongos, "", 0, NodeCount(p.mongos));
    forall n: nat | n < NodeCount(p.mongos) ensures aliases[n] == "mongos_" + Decimal(n) {
      AliasNames(Mongos, "", n);
    }
    assert |aliases| == NodeCount(p.mongos);
    hide Aliases, Decimal, NodeCount, EveryAlias, MongosParts;
    if a in aliases {
      var n: nat :| n < |aliases| && aliases[n] == a;
    }
  }

  lemma {:induction false} AliasOfReplicaSet(p: Props, k: nat, a: string)
    requires k <= |p.shards|
    requires p.configServers.name != "" && forall i | 0 <= i < |p.shards| :: p.shards[i].name != ""
    ensures a in PartAliases(Parts(p)[k]) <==> IsMember(p, k, a)
  {
    var rs := SetAt(p, k);
    var t := ReplicaSetPart(if k == 0 then ConfigServer else Shard, rs);
    assert Parts(p)[k] == t;
    var aliases := PartAliases(t);
    assert |aliases| == |rs.group.members|;
    forall i: nat | i < |aliases| ensures aliases[i] == SetName(p, k) + Decimal(i) {
      AliasNames(t.component, rs.name, i);
    }
    hide PartAliases, Decimal, Parts, SetName;
    if a in aliases {
      var i: nat :| i < |aliases| && aliases[i] == a;
    }
  }
}
