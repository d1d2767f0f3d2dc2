/**
 * The builders of the cluster generator: they validate the properties part by
 * part and add provider aliases and resources to one shared stack.
 */
module Cluster {
  import opened Wrappers
  import opened Text
  import opened Terraform
  import opened ClusterPlan

  // ------------------------------------------------------ validation

  method ValidateDuplicates(keys: seq<string>) returns (unique: bool)
    ensures unique <==> Distinct(keys)
  {
    var seen: set<string> := {};
    for i := 0 to |keys|
      invariant Distinct(keys[..i])
      invariant forall k :: k in seen <==> k in keys[..i]
    {
      if keys[i] in seen {
        ghost var j: nat :| j < i && keys[..i][j] == keys[i];
        assert keys[j] == keys[i];
        return false;
      }
      seen := seen + {keys[i]};
    }
    assert keys[..|keys|] == keys;
    return true;
  }

  // ------------------------------------------------------ builders

  /** One provider per node, up to the first that has no login. */
  method BuildProvidersWithOffset(stack: TerraformStack, c: Component, rsName: string, members: seq<Node>,
                                  credentials: Option<Credentials>, offset: nat)
    returns (panicked: bool, aliases: seq<string>)
    modifies stack
    ensures panicked <==> LacksLogin(members, credentials)
    ensures !panicked ==>
              && aliases == Aliases(c, rsName, offset, |members|)
              && stack.providers == old(stack.providers) + Providers(c, rsName, offset, members, credentials)
    ensures stack.resources == old(stack.resources)
  {
    hide ProviderAliasName, ProviderBody;
    aliases := [];
    for i := 0 to |members|
      invariant forall j | 0 <= j < i :: Login(members[j], credentials).Some?
      invariant aliases == Aliases(c, rsName, offset, i)
      invariant stack.providers == old(stack.providers) + Providers(c, rsName, offset, members, credentials)[..i]
      invariant stack.resources == old(stack.resources)
    {
      var alias := ProviderAliasName(c, rsName, offset + i);
      if Login(members[i], credentials).None? {
        return true, aliases;
      }
      stack.AddProvider(alias, ProviderBody(members[i], credentials, c != Mongos));
      aliases := aliases + [alias];
    }
    return false, aliases;
  }

  /** One resource for each item; the result refers to them. */
  method AddBlocks(stack: TerraformStack, kind: Kind, prefix: string, items: seq<Named>, provider: string,
                   deps: seq<string>)
    returns (refs: seq<string>)
    modifies stack
    ensures stack.resources == old(stack.resources) + Blocks(kind, prefix, items, provider, deps)
    ensures stack.providers == old(stack.providers)
    ensures refs == Refs(Blocks(kind, prefix, items, provider, deps))
  {
    hide TypeName, SanitizeName;
    refs := [];
    for i := 0 to |items|
      invariant stack.resources == old(stack.resources) + Blocks(kind, prefix, items, provider, deps)[..i]
      invariant stack.providers == old(stack.providers)
      invariant refs == Refs(Blocks(kind, prefix, items, provider, deps))[..i]
    {
      var name := prefix + SanitizeName(items[i].name);
      stack.AddResource(kind, name, [items[i].name] + items[i].settings, provider, deps);
      refs := refs + [Ref(kind, name)];
    }
  }

  method BuildRoles(stack: TerraformStack, aliases: seq<string>, roles: seq<Named>)
    returns (roleDeps: map<string, seq<string>>)
    modifies stack
    ensures stack.resources == old(stack.resources) + Roles(aliases, roles)
    ensures stack.providers == old(stack.providers)
    ensures forall a :: a in roleDeps <==> a in aliases
    ensures forall a | a in roleDeps :: roleDeps[a] == Refs(RoleBlocks(a, roles))
  {
    hide Blocks, Refs, TypeName, ProviderRef, UserPrefix, RolePrefix;
    roleDeps := map[];
    for i := 0 to |aliases|
      invariant stack.resources == old(stack.resources) + Roles(aliases[..i], roles)
      invariant stack.providers == old(stack.providers)
      invariant forall a :: a in roleDeps <==> a in aliases[..i]
      invariant forall a | a in roleDeps :: roleDeps[a] == Refs(RoleBlocks(a, roles))
    {
      var alias := aliases[i];
      var deps := AddBlocks(stack, DbRole, RolePrefix(alias), roles, ProviderRef(alias), []);
      roleDeps := roleDeps[alias := deps];
      assert aliases[..i + 1][..i] == aliases[..i];
    }
    assert aliases[..|aliases|] == aliases;
  }

  method BuildUsers(stack: TerraformStack, aliases: seq<string>, users: seq<Named>, roleDeps: map<string, seq<string>>,
                    ghost roles: seq<Named>)
    requires forall a | a in aliases :: a in roleDeps && roleDeps[a] == Refs(RoleBlocks(a, roles))
    modifies stack
    ensures stack.resources == old(stack.resources) + Users(aliases, users, roles)
    ensures stack.providers == old(stack.providers)
  {
    hide Blocks, Refs, TypeName, ProviderRef, UserPrefix, RolePrefix;
    for i := 0 to |aliases|
      invariant stack.resources == old(stack.resources) + Users(aliases[..i], users, roles)
      invariant stack.providers == old(stack.providers)
    {
      var alias := aliases[i];
      var deps := if alias in roleDeps then roleDeps[alias] else [];
      var _ := AddBlocks(stack, DbUser, UserPrefix(alias), users, ProviderRef(alias), deps);
      assert aliases[..i + 1][..i] == aliases[..i];
    }
    assert aliases[..|aliases|] == aliases;
  }

  /** Profilers and server parameters: every item on every alias. */
  method BuildOnEach(stack: TerraformStack, kind: Kind, prefix: string -> string, aliases: seq<string>, items: seq<Named>)
    modifies stack
    ensures stack.resources == old(stack.resources) + OnEach(kind, prefix, aliases, items)
    ensures stack.providers == old(stack.providers)
  {
    for i := 0 to |aliases|
      invariant stack.resources == old(stack.resources) + OnEach(kind, prefix, aliases[..i], items)
      invariant stack.providers == old(stack.providers)
    {
      var alias := aliases[i];
      var _ := AddBlocks(stack, kind, prefix(alias), items, ProviderRef(alias), []);
      assert aliases[..i + 1][..i] == aliases[..i];
    }
    assert aliases[..|aliases|] == aliases;
  }

  /** Roles first, then the users that depend on them. */
  method BuildAccounts(stack: TerraformStack, aliases: seq<string>, users: seq<Named>, roles: seq<Named>)
    modifies stack
    ensures stack.resources == old(stack.resources) + Accounts(aliases, users, roles)
    ensures stack.providers == old(stack.providers)
  {
    hide Roles, Users, RoleBlocks, Refs;
    var roleDeps := BuildRoles(stack, aliases, roles);
    BuildUsers(stack, aliases, users, roleDeps, roles);
  }

  method BuildPerNode(stack: TerraformStack, p: Props, aliases: seq<string>)
    modifies stack
    ensures stack.resources == old(stack.resources) + PerNode(p, aliases)
    ensures stack.providers == old(stack.providers)
  {
    hide OnEach;
    BuildOnEach(stack, Profiler, ProfilerPrefix, aliases, p.profilers);
    BuildOnEach(stack, ServerParameter, ParameterPrefix, aliases, p.parameters);
  }

  method BuildOriginalUsers(stack: TerraformStack, alias: string, users: seq<Named>)
    modifies stack
    ensures stack.resources == old(stack.resources) + OriginalUsers(alias, users)
    ensures stack.providers == old(stack.providers)
  {
    var _ := AddBlocks(stack, OriginalUser, OriginalUserPrefix(alias), users, "", []);
  }

  method BuildShardZones(stack: TerraformStack, mongos: string, zones: seq<Zone>, deps: seq<string>)
    returns (refs: seq<string>)
    modifies stack
    ensures stack.resources == old(stack.resources) + ZoneBlocks(zones, mongos, deps)
    ensures stack.providers == old(stack.providers)
    ensures refs == Refs(ZoneBlocks(zones, mongos, deps))
  {
    refs := [];
    for i := 0 to |zones|
      invariant stack.resources == old(stack.resources) + ZoneBlocks(zones, mongos, deps)[..i]
      invariant stack.providers == old(stack.providers)
      invariant refs == Refs(ZoneBlocks(zones, mongos, deps))[..i]
    {
      var name := SanitizeName(zones[i].shard) + "_" + SanitizeName(zones[i].zone);
      stack.AddResource(ShardZone, name, [zones[i].shard, zones[i].zone], ProviderRef(mongos), deps);
      refs := refs + [Ref(ShardZone, name)];
    }
  }

  method BuildZoneKeyRanges(stack: TerraformStack, mongos: string, ranges: seq<Range>, deps: seq<string>)
    modifies stack
    ensures stack.resources == old(stack.resources) + RangeBlocks(ranges, mongos, deps)
    ensures stack.providers == old(stack.providers)
  {
    for i := 0 to |ranges|
      invariant stack.resources == old(stack.resources) + RangeBlocks(ranges, mongos, deps)[..i]
      invariant stack.providers == old(stack.providers)
    {
      var r := ranges[i];
      stack.AddResource(ZoneKeyRange, SanitizeName(r.namespace) + "_" + SanitizeName(r.zone) + "_" + Decimal(i),
                        [r.namespace, r.zone] + r.bounds, ProviderRef(mongos), deps);
    }
  }

  // ------------------------------------------------------ components

  method ValidatePart(t: Part) returns (problem: Option<Problem>)
    ensures problem == PartProblem(t)
    ensures problem.None? && t.component != Mongos ==> t.group.members != []
  {
    if t.component != Mongos && t.name == "" {
      return Some(EmptyReplicaSetName);
    }
    problem := ValidateReplicaSetMembers(t.component, t.group.members);
    if problem.Some? {
      return problem;
    }
    var unique := ValidateDuplicates(HostPorts(t.group.members));
    return if unique then None else Some(DuplicateHostPort);
  }

  lemma {:induction false} Regroup<T>(s: seq<T>, a: seq<T>, b: seq<T>, c: seq<T>, d: seq<T>)
    ensures s + a + b + c + d == s + (a + b + c + d)
  {
  }

  /** A config server or a shard: everything for its nodes, or the reason it cannot be built. */
  method NewReplicaSet(stack: TerraformStack, p: Props, t: Part) returns (verdict: Verdict)
    requires t.component != Mongos
    modifies stack
    ensures verdict == PartVerdict(p, t)
    ensures verdict.Fine? ==>
              && stack.providers == old(stack.providers) + PartProviders(p, t)
              && stack.resources == old(stack.resources) + PartResources(p, t)
  {
    hide PartProblem, Accounts, PerNode, FirstMemberResources, Compatibility, Providers, Aliases, MergeRoles;
    var problem := ValidatePart(t);
    if problem.Some? {
      return Rejected(problem.value);
    }
    var panicked, aliases := BuildProvidersWithOffset(stack, t.component, t.name, t.group.members, p.credentials, t.offset);
    if panicked {
      return Panicked;
    }
    BuildAccounts(stack, aliases, t.group.users, MergeRoles(p.roles, t.group.roles));
    BuildOnFirstMember(stack, t, aliases);
    BuildPerNode(stack, p, aliases);
    BuildFCV(stack, p, t, aliases);
    Regroup(old(stack.resources), Accounts(aliases, t.group.users, MergeRoles(p.roles, t.group.roles)),
            FirstMemberResources(t), PerNode(p, aliases), Compatibility(p, t));
    return Fine;
  }

  /** The shard_config and the bootstrap users of a replica set go through its first member. */
  method BuildOnFirstMember(stack: TerraformStack, t: Part, aliases: seq<string>)
    requires t.component != Mongos && t.group.members != [] && aliases == PartAliases(t)
    modifies stack
    ensures stack.resources == old(stack.resources) + FirstMemberResources(t)
    ensures stack.providers == old(stack.providers)
  {
    assert |aliases| == |t.group.members|;
    hide OriginalUsers, Aliases, ShardConfigName, ProviderRef;
    stack.AddResource(ShardConfig, ShardConfigName(t.name), [t.name] + t.settings, ProviderRef(aliases[0]), []);
    BuildOriginalUsers(stack, aliases[0], t.group.originalUsers);
  }

  method BuildFCV(stack: TerraformStack, p: Props, t: Part, aliases: seq<string>)
    requires t.component != Mongos && t.group.members != [] && aliases == PartAliases(t)
    modifies stack
    ensures stack.resources == old(stack.resources) + Compatibility(p, t)
    ensures stack.providers == old(stack.providers)
  {
    assert |aliases| == |t.group.members|;
    hide Aliases, FcvName, ProviderRef;
    if p.fcv.Some? {
      stack.AddResource(Fcv, FcvName(aliases[0]), p.fcv.value, ProviderRef(aliases[0]), []);
    }
  }

  /** A mongos group has no shard_config and no compatibility version. */
  method NewMongosWithOffset(stack: TerraformStack, p: Props, t: Part) returns (verdict: Verdict)
    requires t.component == Mongos
    modifies stack
    ensures verdict == PartVerdict(p, t)
    ensures verdict.Fine? ==>
              && stack.providers == old(stack.providers) + PartProviders(p, t)
              && stack.resources == old(stack.resources) + PartResources(p, t)
  {
    var problem := ValidatePart(t);
    if problem.Some? {
      return Rejected(problem.value);
    }
    assert |PartAliases(t)| == |t.group.members|;
    assert t.group.originalUsers == [] ==> forall alias :: OriginalUsers(alias, t.group.originalUsers) == [];
    hide PartProblem, Accounts, PerNode, OriginalUsers, Providers, Aliases, MergeRoles;
    var panicked, aliases := BuildProvidersWithOffset(stack, Mongos, t.name, t.group.members, p.credentials, t.offset);
    if panicked {
      return Panicked;
    }
    BuildAccounts(stack, aliases, t.group.users, MergeRoles(p.roles, t.group.roles));
    if |t.group.originalUsers| > 0 {
      if |aliases| == 0 {
        return Panicked;
      }
      BuildOriginalUsers(stack, aliases[0], t.group.originalUsers);
    }
    BuildPerNode(stack, p, aliases);
    return Fine;
  }

  // ------------------------------------------------------ the cluster

  lemma {:induction false} FirstVerdictDecides(p: Props, parts: seq<Part>, k: nat)
    requires k <= |parts| && !PartsVerdict(p, parts[..k]).Fine?
    ensures PartsVerdict(p, parts) == PartsVerdict(p, parts[..k])
    decreases |parts|
  {
    if k == |parts| {
      assert parts[..k] == parts;
    } else {
      assert parts[..|parts| - 1][..k] == parts[..k];
      FirstVerdictDecides(p, parts[..|parts| - 1], k);
    }
  }

  /** The first k parts are built. */
  ghost predicate BuiltUpTo(p: Props, k: nat, providers: seq<ProviderBlock>, resources: seq<ResourceBlock>) {
    && k <= |Parts(p)|
    && PartsVerdict(p, Parts(p)[..k]).Fine?
    && providers == AllProviders(p, Parts(p)[..k])
    && resources == AllResources(p, Parts(p)[..k])
  }

  lemma {:induction false} BuildingOneMore(p: Props, k: nat, t: Part, providers: seq<ProviderBlock>,
                                           resources: seq<ResourceBlock>)
    requires BuiltUpTo(p, k, providers, resources) && k < |Parts(p)| && Parts(p)[k] == t
    ensures PartVerdict(p, t).Fine? ==>
              BuiltUpTo(p, k + 1, providers + PartProviders(p, t), resources + PartResources(p, t))
    ensures !PartVerdict(p, t).Fine? ==> PartsVerdict(p, Parts(p)) == PartVerdict(p, t)
  {
    var parts := Parts(p);
    hide Parts, PartVerdict, PartProviders, PartResources;
    assert parts[..k + 1][..k] == parts[..k];
    assert PartsVerdict(p, parts[..k + 1]) == PartVerdict(p, t);
    if !PartVerdict(p, t).Fine? {
      FirstVerdictDecides(p, parts, k + 1);
    }
  }

  lemma {:induction false} PartAt(p: Props)
    ensures |Parts(p)| == 1 + |p.shards| + |p.mongos|
    ensures Parts(p)[0] == ReplicaSetPart(ConfigServer, p.configServers)
    ensures forall i | 0 <= i < |p.shards| :: Parts(p)[1 + i] == ReplicaSetPart(Shard, p.shards[i])
    ensures forall i | 0 <= i < |p.mongos| :: Parts(p)[1 + |p.shards| + i] == MongosPart(p.mongos, i)
  {
  }

  method BuildShards(stack: TerraformStack, p: Props) returns (verdict: Verdict)
    requires BuiltUpTo(p, 1, stack.providers, stack.resources)
    modifies stack
    ensures verdict.Fine? ==> BuiltUpTo(p, 1 + |p.shards|, stack.providers, stack.resources)
    ensures !verdict.Fine? ==> verdict == PartsVerdict(p, Parts(p))
  {
    PartAt(p);
    hide BuiltUpTo, Parts, PartVerdict, PartsVerdict, PartProviders, PartResources;
    for i := 0 to |p.shards|
      invariant BuiltUpTo(p, 1 + i, stack.providers, stack.resources)
    {
      BuildingOneMore(p, 1 + i, ReplicaSetPart(Shard, p.shards[i]), stack.providers, stack.resources);
      verdict := NewReplicaSet(stack, p, ReplicaSetPart(Shard, p.shards[i]));
      if !verdict.Fine? {
        return verdict;
      }
    }
    return Fine;
  }

  /** The aliases of the mongos groups are numbered on from group to group. */
  method BuildMongos(stack: TerraformStack, p: Props) returns (verdict: Verdict)
    requires BuiltUpTo(p, 1 + |p.shards|, stack.providers, stack.resources)
    modifies stack
    ensures verdict.Fine? ==> BuiltUpTo(p, 1 + |p.shards| + |p.mongos|, stack.providers, stack.resources)
    ensures !verdict.Fine? ==> verdict == PartsVerdict(p, Parts(p))
  {
    PartAt(p);
    hide BuiltUpTo, Parts, PartVerdict, PartsVerdict, PartProviders, PartResources;
    var mongosOffset := 0;
    for i := 0 to |p.mongos|
      invariant mongosOffset == NodeCount(p.mongos[..i])
      invariant BuiltUpTo(p, 1 + |p.shards| + i, stack.providers, stack.resources)
    {
      var t := Part(Mongos, "", p.mongos[i], [], mongosOffset);
      assert MongosPart(p.mongos, i) == t;
      BuildingOneMore(p, 1 + |p.shards| + i, t, stack.providers, stack.resources);
      verdict := NewMongosWithOffset(stack, p, t);
      if !verdict.Fine? {
        return verdict;
      }
      assert p.mongos[..i + 1][..i] == p.mongos[..i];
      mongosOffset := mongosOffset + |p.mongos[i].members|;
    }
    return Fine;
  }

  /** The config server, then the shards, then the mongos groups. */
  method BuildParts(stack: TerraformStack, p: Props) returns (verdict: Verdict)
    requires stack.providers == [] && stack.resources == []
    modifies stack
    ensures verdict == PartsVerdict(p, Parts(p))
    ensures verdict.Fine? ==>
              stack.providers == AllProviders(p, Parts(p)) && stack.resources == AllResources(p, Parts(p))
  {
    var t := ReplicaSetPart(ConfigServer, p.configServers);
    PartAt(p);
    assert BuiltUpTo(p, 0, [], []);
    hide BuiltUpTo, Parts, PartVerdict, PartsVerdict, PartProviders, PartResources, AllProviders, AllResources;
    BuildingOneMore(p, 0, t, stack.providers, stack.resources);
    verdict := NewReplicaSet(stack, p, t);
    if verdict.Fine? {
      verdict := BuildShards(stack, p);
    }
    if verdict.Fine? {
      verdict := BuildMongos(stack, p);
    }
    if verdict.Fine? {
      AllBuilt(p, stack.providers, stack.resources);
    }
  }

  lemma {:induction false} AllBuilt(p: Props, providers: seq<ProviderBlock>, resources: seq<ResourceBlock>)
    requires BuiltUpTo(p, |Parts(p)|, providers, resources)
    ensures PartsVerdict(p, Parts(p)).Fine?
    ensures providers == AllProviders(p, Parts(p)) && resources == AllResources(p, Parts(p))
  {
    hide Parts;
    assert Parts(p)[..|Parts(p)|] == Parts(p);
  }

  method BuildClusterAccounts(stack: TerraformStack, p: Props)
    modifies stack
    ensures stack.resources == old(stack.resources) + ClusterAccounts(p)
    ensures stack.providers == old(stack.providers)
  {
    hide Accounts, UserTargets, OriginalUserTargets, OriginalUsers;
    if |p.users| > 0 {
      BuildAccounts(stack, UserTargets(p), p.users, p.roles);
    }
    ghost var before := stack.resources;
    var targets := OriginalUserTargets(p);
    for i := 0 to |targets|
      invariant stack.resources == before + OriginalUsersOn(targets[..i], p.originalUsers)
      invariant stack.providers == old(stack.providers)
    {
      BuildOriginalUsers(stack, targets[i], p.originalUsers);
      assert targets[..i + 1][..i] == targets[..i];
    }
    assert targets[..|targets|] == targets;
  }

  method BuildShardRegistrations(stack: TerraformStack, p: Props, mongos: string) returns (refs: seq<string>)
    modifies stack
    ensures stack.resources == old(stack.resources) + Registrations(p, mongos)
    ensures stack.providers == old(stack.providers)
    ensures refs == Refs(Registrations(p, mongos))
  {
    refs := [];
    if p.registerShards {
      var entries := [];
      for i := 0 to |p.shards|
        invariant entries == ShardEntries(p.shards)[..i]
      {
        entries := entries + [Named(p.shards[i].name, HostPorts(p.shards[i].group.members))];
      }
      hide Blocks, Refs, ProviderRef, ShardEntries;
      refs := AddBlocks(stack, MongoShard, "shard_", entries, ProviderRef(mongos), []);
    }
  }

  /** Everything that goes through the first mongos, in dependency order. */
  method BuildRouted(stack: TerraformStack, p: Props, mongos: string)
    modifies stack
    ensures stack.resources == old(stack.resources) + Routed(p, mongos)
    ensures stack.providers == old(stack.providers)
  {
    hide Registrations, ZoneBlocks, RangeBlocks, Blocks, Refs, ProviderRef;
    var shardRefs := BuildShardRegistrations(stack, p, mongos);
    if p.balancer.Some? {
      stack.AddResource(BalancerConfig, "balancer", p.balancer.value, ProviderRef(mongos), shardRefs);
    }
    assert stack.resources == old(stack.resources) + Registrations(p, mongos) + Balancing(p, mongos);
    hide Balancing;
    var zoneRefs := BuildShardZones(stack, mongos, p.zones, shardRefs);
    BuildZoneKeyRanges(stack, mongos, p.ranges, zoneRefs);
    var _ := AddBlocks(stack, CollBalancing, "colbal_", p.collections, ProviderRef(mongos), shardRefs);
  }

  /**
   * Validates and builds a cluster. An error or a panic of the generator
   * leaves no cluster; otherwise the stack holds exactly the planned
   * blocks.
   */
  method NewMongoShardedCluster(p: Props) returns (verdict: Verdict, stack: TerraformStack)
    ensures verdict == ClusterVerdict(p) && fresh(stack)
    ensures verdict.Fine? ==> stack.providers == ClusterProviders(p) && stack.resources == ClusterResources(p)
  {
    stack := new TerraformStack();
    if |p.mongos| == 0 {
      return Rejected(NoMongos), stack;
    }
    if |p.shards| == 0 {
      return Rejected(NoShards), stack;
    }
    var unique := ValidateDuplicates(ReplicaSetNames(p));
    if !unique {
      return Rejected(DuplicateReplicaSetName), stack;
    }
    hide PartsVerdict, Parts, AllProviders, AllResources, ClusterAccounts, Routed;
    verdict := BuildParts(stack, p);
    if !verdict.Fine? {
      return verdict, stack;
    }
    BuildClusterAccounts(stack, p);
    var aliases := Aliases(Mongos, "", 0, |p.mongos[0].members|);
    if |aliases| == 0 {
      return Panicked, stack;
    }
    BuildRouted(stack, p, aliases[0]);
    return Fine, stack;
  }
}
