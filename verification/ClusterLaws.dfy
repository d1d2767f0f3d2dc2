/**
 * What holds of every generated cluster: provider aliases are pairwise
 * distinct, every reference names something in the document, and depends_on
 * has no cycle.
 */
module ClusterLaws {
  import opened Wrappers
  import opened Text
  import opened Terraform
  import TerraformLaws
  import opened ClusterPlan

  // ------------------------------------------------------ aliases

  function AliasTail(rsName: string, index: nat): string {
    if rsName == "" then Decimal(index) else rsName + "_" + Decimal(index)
  }

  lemma {:induction false} AliasTailIsInjective(rs: string, i: nat, rs': string, j: nat)
    requires AliasTail(rs, i) == AliasTail(rs', j)
    ensures rs == rs' && i == j
  {
    if rs != "" && rs' != "" {
      LastCutIsUnique(rs, Decimal(i), '_', rs', Decimal(j));
    }
    assert rs != "" ==> AliasTail(rs, i)[|rs|] == '_';
    assert rs' != "" ==> AliasTail(rs', j)[|rs'|] == '_';
    DecimalIsInjective(i, j);
  }

  /** A provider alias determines the type, the replica set and the index it was made of. */
  lemma {:induction false} AliasNamesAreInjective(c: Component, rs: string, i: nat, c': Component, rs': string, j: nat)
    requires ProviderAliasName(c, rs, i) == ProviderAliasName(c', rs', j)
    ensures c == c' && rs == rs' && i == j
  {
    AliasCut(c, rs, i);
    AliasCut(c', rs', j);
    assert |Prefix(c)| == |Prefix(c')| ==> c == c';
    hide Prefix, AliasTail, ProviderAliasName;
    FirstCutIsUnique(Prefix(c), AliasTail(rs, i), '_', Prefix(c'), AliasTail(rs', j));
    AliasTailIsInjective(rs, i, rs', j);
  }

  lemma {:induction false} AliasCut(c: Component, rs: string, i: nat)
    ensures ProviderAliasName(c, rs, i) == Prefix(c) + ['_'] + AliasTail(rs, i) && '_' !in Prefix(c)
  {
    hide Decimal;
    if rs != "" {
      assert Prefix(c) + "_" + rs + "_" + Decimal(i) == Prefix(c) + "_" + (rs + "_" + Decimal(i));
    }
  }

  /** Two parts whose aliases cannot meet. */
  ghost predicate Apart(a: Part, b: Part) {
    a.component != b.component || a.name != b.name || a.offset + |a.group.members| <= b.offset
  }

  lemma {:induction false} ApartShareNoAlias(a: Part, b: Part, alias: string)
    requires Apart(a, b) && alias in PartAliases(a)
    ensures alias !in PartAliases(b)
  {
    var i: nat :| i < |a.group.members| && PartAliases(a)[i] == alias;
    forall j: nat | j < |b.group.members| ensures PartAliases(b)[j] != alias {
      if ProviderAliasName(a.component, a.name, a.offset + i) == ProviderAliasName(b.component, b.name, b.offset + j) {
        AliasNamesAreInjective(a.component, a.name, a.offset + i, b.component, b.name, b.offset + j);
      }
    }
  }

  lemma {:induction false} PartAliasesAreDistinct(t: Part)
    ensures Distinct(PartAliases(t))
  {
    forall i, j | 0 <= i < j < |t.group.members| ensures PartAliases(t)[i] != PartAliases(t)[j] {
      if ProviderAliasName(t.component, t.name, t.offset + i) == ProviderAliasName(t.component, t.name, t.offset + j) {
        AliasNamesAreInjective(t.component, t.name, t.offset + i, t.component, t.name, t.offset + j);
      }
    }
  }

  lemma {:induction false} AliasOfSomePart(parts: seq<Part>, alias: string)
    ensures alias in EveryAlias(parts) <==> exists k :: 0 <= k < |parts| && alias in PartAliases(parts[k])
  {
    if parts != [] {
      var front := parts[..|parts| - 1];
      AliasOfSomePart(front, alias);
      hide PartAliases;
      assert forall k | 0 <= k < |front| :: front[k] == parts[k];
    }
  }

  lemma {:induction false} EveryAliasIsDistinct(parts: seq<Part>)
    requires forall k, l | 0 <= k < l < |parts| :: Apart(parts[k], parts[l])
    ensures Distinct(EveryAlias(parts))
  {
    if parts != [] {
      var front, t := parts[..|parts| - 1], parts[|parts| - 1];
      EveryAliasIsDistinct(front);
      PartAliasesAreDistinct(t);
      forall alias | alias in EveryAlias(front) ensures alias !in PartAliases(t) {
        AliasOfSomePart(front, alias);
        var k :| 0 <= k < |front| && alias in PartAliases(front[k]);
        ApartShareNoAlias(parts[k], t, alias);
      }
      hide PartAliases;
      DistinctTogether(EveryAlias(front), PartAliases(t));
    }
  }

  lemma {:induction false} DistinctTogether(a: seq<string>, b: seq<string>)
    requires Distinct(a) && Distinct(b) && forall x | x in a :: x !in b
    ensures Distinct(a + b)
  {
    forall i, j | 0 <= i < j < |a + b| ensures (a + b)[i] != (a + b)[j] {
      if i < |a| <= j {
        assert a[i] in a && b[j - |a|] in b;
      }
    }
  }

  lemma {:induction false} NodeCountGrows(groups: seq<Group>, k: nat, l: nat)
    requires k < l <= |groups|
    ensures NodeCount(groups[..k]) + |groups[k].members| <= NodeCount(groups[..l])
  {
    assert groups[..l][..l - 1] == groups[..l - 1];
    if k < l - 1 {
      NodeCountGrows(groups, k, l - 1);
    }
  }

  lemma {:induction false} PartsAreApart(p: Props, k: nat, l: nat)
    requires Distinct(ReplicaSetNames(p)) && k < l < |Parts(p)|
    ensures Apart(Parts(p)[k], Parts(p)[l])
  {
    var n := 1 + |p.shards|;
    if k >= n {
      NodeCountGrows(p.mongos, k - n, l - n);
    } else if 0 < k && l < n {
      assert ReplicaSetNames(p)[k] != ReplicaSetNames(p)[l];
    }
  }

  lemma {:induction false} AliasesOfProviders(p: Props, parts: seq<Part>)
    ensures |AllProviders(p, parts)| == |EveryAlias(parts)|
    ensures forall i | 0 <= i < |EveryAlias(parts)| :: AllProviders(p, parts)[i].alias == EveryAlias(parts)[i]
  {
    if parts != [] {
      AliasesOfProviders(p, parts[..|parts| - 1]);
      var t := parts[|parts| - 1];
      assert |PartProviders(p, t)| == |PartAliases(t)|;
      assert forall i | 0 <= i < |PartAliases(t)| :: PartProviders(p, t)[i].alias == PartAliases(t)[i];
      hide PartProviders, PartAliases;
    }
  }

  /** Over the whole cluster no two providers share an alias. */
  lemma {:induction false} ClusterAliasesAreDistinct(p: Props)
    requires Distinct(ReplicaSetNames(p))
    ensures forall i, j | 0 <= i < j < |ClusterProviders(p)| :: ClusterProviders(p)[i].alias != ClusterProviders(p)[j].alias
  {
    forall k, l | 0 <= k < l < |Parts(p)| ensures Apart(Parts(p)[k], Parts(p)[l]) {
      PartsAreApart(p, k, l);
    }
    EveryAliasIsDistinct(Parts(p));
    AliasesOfProviders(p, Parts(p));
  }

  /** The mongos aliases are numbered through, whatever the groups. */
  lemma {:induction false} MongosAreNumberedThrough(groups: seq<Group>)
    ensures EveryAlias(MongosParts(groups)) == Aliases(Mongos, "", 0, NodeCount(groups))
  {
    if groups == [] {
      assert MongosParts(groups) == [];
    } else {
      var front := groups[..|groups| - 1];
      MongosAreNumberedThrough(front);
      assert MongosParts(groups)[..|groups| - 1] == MongosParts(front) by {
        assert forall i | 0 <= i < |front| :: front[..i] == groups[..i];
      }
      hide ProviderAliasName;
    }
  }

  // ------------------------------------------------------ references

  /** Where a resource type stands in the order of dependencies. */
  function Level(k: Kind): nat {
    match k
    case DbUser | BalancerConfig | ShardZone | CollBalancing => 1
    case ZoneKeyRange => 2
    case _ => 0
  }

  ghost predicate Points(r: ResourceBlock, aliases: seq<string>) {
    r.provider == "" || exists a :: a in aliases && r.provider == ProviderRef(a)
  }

  /** Every dependency of r is in the pool, at a lower level. */
  ghost predicate Rests(r: ResourceBlock, pool: seq<ResourceBlock>) {
    forall d | d in r.dependsOn :: exists s :: s in pool && Address(s) == d && Level(s.kind) < Level(r.kind)
  }

  ghost predicate Grounded(rs: seq<ResourceBlock>, aliases: seq<string>, pool: seq<ResourceBlock>) {
    forall r | r in rs :: Points(r, aliases) && Rests(r, pool)
  }

  ghost predicate Among<T(!new)>(a: seq<T>, b: seq<T>) {
    forall x | x in a :: x in b
  }

  /** Blocks that depend on all of the lower blocks they are given. */
  ghost predicate BuiltOn(rs: seq<ResourceBlock>, provider: string, lower: seq<ResourceBlock>) {
    && (forall r | r in rs :: r.provider == provider && (r.dependsOn == [] || r.dependsOn == Refs(lower)))
    && (forall r, s | r in rs && s in lower :: Level(s.kind) < Level(r.kind))
  }

  lemma {:induction false} BuiltIsGrounded(rs: seq<ResourceBlock>, provider: string, lower: seq<ResourceBlock>,
                                           aliases: seq<string>, pool: seq<ResourceBlock>)
    requires BuiltOn(rs, provider, lower) && Among(lower, pool)
    requires provider == "" || exists a :: a in aliases && provider == ProviderRef(a)
    ensures Grounded(rs, aliases, pool)
  {
    forall r, d | r in rs && d in r.dependsOn
      ensures exists s :: s in pool && Address(s) == d && Level(s.kind) < Level(r.kind)
    {
      var i: nat :| i < |lower| && Refs(lower)[i] == d;
      assert lower[i] in pool && Address(lower[i]) == d;
    }
    hide Refs, Address, Level;
  }

  lemma {:induction false} GroundedTogether(a: seq<ResourceBlock>, b: seq<ResourceBlock>, aliases: seq<string>,
                                            pool: seq<ResourceBlock>)
    requires Grounded(a, aliases, pool) && Grounded(b, aliases, pool)
    ensures Grounded(a + b, aliases, pool)
  {
    hide Points, Rests;
  }

  lemma {:induction false} BlocksAreBuilt(kind: Kind, prefix: string, items: seq<Named>, provider: string,
                                          lower: seq<ResourceBlock>)
    requires forall s | s in lower :: Level(s.kind) < Level(kind)
    ensures BuiltOn(Blocks(kind, prefix, items, provider, Refs(lower)), provider, lower)
    ensures forall r | r in Blocks(kind, prefix, items, provider, Refs(lower)) :: r.kind == kind
  {
    hide Level, Refs, SanitizeName;
  }

  lemma {:induction false} OnEachIsGrounded(kind: Kind, prefix: string -> string, on: seq<string>, items: seq<Named>,
                                            aliases: seq<string>, pool: seq<ResourceBlock>)
    requires Among(on, aliases)
    ensures Grounded(OnEach(kind, prefix, on, items), aliases, pool)
  {
    if on != [] {
      var alias := on[|on| - 1];
      OnEachIsGrounded(kind, prefix, on[..|on| - 1], items, aliases, pool);
      assert Refs([]) == [];
      BlocksAreBuilt(kind, prefix(alias), items, ProviderRef(alias), []);
      assert alias in aliases;
      hide Blocks, ProviderRef, Level, Address;
      BuiltIsGrounded(Blocks(kind, prefix(alias), items, ProviderRef(alias), []), ProviderRef(alias), [], aliases, pool);
      hide Grounded, Refs, BuiltOn;
      GroundedTogether(OnEach(kind, prefix, on[..|on| - 1], items),
                       Blocks(kind, prefix(alias), items, ProviderRef(alias), []), aliases, pool);
    }
  }

  lemma {:induction false} RolesAreOnEach(on: seq<string>, roles: seq<Named>)
    ensures Roles(on, roles) == OnEach(DbRole, RolePrefix, on, roles)
  {
    if on != [] {
      RolesAreOnEach(on[..|on| - 1], roles);
    }
  }

  lemma {:induction false} UsersAreGrounded(on: seq<string>, users: seq<Named>, roles: seq<Named>, aliases: seq<string>,
                                            pool: seq<ResourceBlock>)
    requires Among(on, aliases) && Among(Roles(on, roles), pool)
    ensures Grounded(Users(on, users, roles), aliases, pool)
  {
    if on != [] {
      var alias, front := on[|on| - 1], on[..|on| - 1];
      assert Roles(on, roles) == Roles(front, roles) + RoleBlocks(alias, roles);
      assert forall s | s in RoleBlocks(alias, roles) :: s.kind == DbRole;
      assert alias in aliases;
      var deps := Refs(RoleBlocks(alias, roles));
      BlocksAreBuilt(DbUser, UserPrefix(alias), users, ProviderRef(alias), RoleBlocks(alias, roles));
      hide Blocks, ProviderRef, Level, RoleBlocks, Refs, UserPrefix, Address, Roles, BuiltOn, Grounded;
      UsersAreGrounded(front, users, roles, aliases, pool);
      var last := Blocks(DbUser, UserPrefix(alias), users, ProviderRef(alias), deps);
      BuiltIsGrounded(last, ProviderRef(alias), RoleBlocks(alias, roles), aliases, pool);
      GroundedTogether(Users(front, users, roles), last, aliases, pool);
    }
  }

  lemma {:induction false} AccountsAreGrounded(on: seq<string>, users: seq<Named>, roles: seq<Named>,
                                               aliases: seq<string>, pool: seq<ResourceBlock>)
    requires Among(on, aliases) && Among(Accounts(on, users, roles), pool)
    ensures Grounded(Accounts(on, users, roles), aliases, pool)
  {
    hide Roles, Users, OnEach, Grounded;
    RolesAreOnEach(on, roles);
    OnEachIsGrounded(DbRole, RolePrefix, on, roles, aliases, pool);
    UsersAreGrounded(on, users, roles, aliases, pool);
    GroundedTogether(Roles(on, roles), Users(on, users, roles), aliases, pool);
  }

  lemma {:induction false} OriginalUsersAreGrounded(alias: string, users: seq<Named>, aliases: seq<string>,
                                                    pool: seq<ResourceBlock>)
    ensures Grounded(OriginalUsers(alias, users), aliases, pool)
  {
    assert Refs([]) == [];
    BlocksAreBuilt(OriginalUser, OriginalUserPrefix(alias), users, "", []);
    BuiltIsGrounded(OriginalUsers(alias, users), "", [], aliases, pool);
  }

  lemma {:induction false} FirstMemberIsGrounded(p: Props, t: Part, aliases: seq<string>, pool: seq<ResourceBlock>)
    requires Among(PartAliases(t), aliases)
    ensures Grounded(FirstMemberResources(t), aliases, pool) && Grounded(Compatibility(p, t), aliases, pool)
  {
    if t.group.members != [] {
      var alias := PartAliases(t)[0];
      assert alias in aliases;
      OriginalUsersAreGrounded(alias, t.group.originalUsers, aliases, pool);
      hide PartAliases, OriginalUsers, ShardConfigName, FcvName, ProviderRef, Level, Address;
      assert Grounded(ShardConfigOf(t), aliases, pool);
      GroundedTogether(ShardConfigOf(t), OriginalUsers(alias, t.group.originalUsers), aliases, pool);
    }
  }

  lemma {:induction false} PerNodeIsGrounded(p: Props, on: seq<string>, aliases: seq<string>, pool: seq<ResourceBlock>)
    requires Among(on, aliases)
    ensures Grounded(PerNode(p, on), aliases, pool)
  {
    OnEachIsGrounded(Profiler, ProfilerPrefix, on, p.profilers, aliases, pool);
    OnEachIsGrounded(ServerParameter, ParameterPrefix, on, p.parameters, aliases, pool);
    hide OnEach, Grounded;
    GroundedTogether(OnEach(Profiler, ProfilerPrefix, on, p.profilers),
                     OnEach(ServerParameter, ParameterPrefix, on, p.parameters), aliases, pool);
  }

  lemma {:induction false} PartIsGrounded(p: Props, t: Part, aliases: seq<string>, pool: seq<ResourceBlock>)
    requires Among(PartAliases(t), aliases) && Among(PartResources(p, t), pool)
    ensures Grounded(PartResources(p, t), aliases, pool)
  {
    var a, b, c, d := Accounts(PartAliases(t), t.group.users, MergeRoles(p.roles, t.group.roles)),
      FirstMemberResources(t), PerNode(p, PartAliases(t)), Compatibility(p, t);
    assert PartResources(p, t) == a + b + c + d;
    hide PartResources, Accounts, FirstMemberResources, PerNode, Compatibility, Grounded, PartAliases, MergeRoles;
    AccountsAreGrounded(PartAliases(t), t.group.users, MergeRoles(p.roles, t.group.roles), aliases, pool);
    FirstMemberIsGrounded(p, t, aliases, pool);
    PerNodeIsGrounded(p, PartAliases(t), aliases, pool);
    GroundedTogether(a, b, aliases, pool);
    GroundedTogether(a + b, c, aliases, pool);
    GroundedTogether(a + b + c, d, aliases, pool);
  }

  lemma {:induction false} PartsAreGrounded(p: Props, parts: seq<Part>, aliases: seq<string>, pool: seq<ResourceBlock>)
    requires Among(EveryAlias(parts), aliases) && Among(AllResources(p, parts), pool)
    ensures Grounded(AllResources(p, parts), aliases, pool)
  {
    if parts != [] {
      var front, t := parts[..|parts| - 1], parts[|parts| - 1];
      hide PartAliases, PartResources, Grounded;
      PartsAreGrounded(p, front, aliases, pool);
      PartIsGrounded(p, t, aliases, pool);
      GroundedTogether(AllResources(p, front), PartResources(p, t), aliases, pool);
    }
  }

  lemma {:induction false} OriginalUsersOnAreGrounded(on: seq<string>, users: seq<Named>, aliases: seq<string>,
                                                      pool: seq<ResourceBlock>)
    ensures Grounded(OriginalUsersOn(on, users), aliases, pool)
  {
    if on != [] {
      hide OriginalUsers;
      OriginalUsersOnAreGrounded(on[..|on| - 1], users, aliases, pool);
      OriginalUsersAreGrounded(on[|on| - 1], users, aliases, pool);
      GroundedTogether(OriginalUsersOn(on[..|on| - 1], users), OriginalUsers(on[|on| - 1], users), aliases, pool);
    }
  }

  lemma {:induction false} FirstAmongEvery(parts: seq<Part>)
    ensures Among(FirstAliases(parts), EveryAlias(parts))
  {
    if parts != [] {
      FirstAmongEvery(parts[..|parts| - 1]);
      hide PartAliases;
    }
  }

  lemma {:induction false} EveryAliasOf(some: seq<Part>, parts: seq<Part>)
    requires Among(some, parts)
    ensures Among(EveryAlias(some), EveryAlias(parts))
  {
    forall alias | alias in EveryAlias(some) ensures alias in EveryAlias(parts) {
      AliasOfSomePart(some, alias);
      var k :| 0 <= k < |some| && alias in PartAliases(some[k]);
      assert some[k] in parts;
      AliasOfSomePart(parts, alias);
    }
  }

  lemma {:induction false} TargetsAreAliases(p: Props)
    ensures Among(UserTargets(p), EveryAlias(Parts(p)))
  {
    var mongos, shards := MongosParts(p.mongos), ShardParts(p.shards);
    hide MongosParts, ShardParts, EveryAlias, FirstAliases;
    FirstAmongEvery(shards);
    EveryAliasOf(mongos, Parts(p));
    EveryAliasOf(shards, Parts(p));
  }

  lemma {:induction false} ClusterAccountsAreGrounded(p: Props, aliases: seq<string>, pool: seq<ResourceBlock>)
    requires Among(UserTargets(p), aliases) && Among(ClusterAccounts(p), pool)
    ensures Grounded(ClusterAccounts(p), aliases, pool)
  {
    hide UserTargets, OriginalUserTargets, Accounts, OriginalUsersOn;
    var originals := OriginalUsersOn(OriginalUserTargets(p), p.originalUsers);
    OriginalUsersOnAreGrounded(OriginalUserTargets(p), p.originalUsers, aliases, pool);
    if p.users == [] {
      GroundedTogether([], originals, aliases, pool);
    } else {
      AccountsAreGrounded(UserTargets(p), p.users, p.roles, aliases, pool);
      GroundedTogether(Accounts(UserTargets(p), p.users, p.roles), originals, aliases, pool);
    }
  }

  lemma {:induction false} ZonesAreBuilt(zones: seq<Zone>, ranges: seq<Range>, mongos: string,
                                         shards: seq<ResourceBlock>)
    requires forall s | s in shards :: s.kind == MongoShard
    ensures BuiltOn(ZoneBlocks(zones, mongos, Refs(shards)), ProviderRef(mongos), shards)
    ensures var lower := ZoneBlocks(zones, mongos, Refs(shards));
            BuiltOn(RangeBlocks(ranges, mongos, Refs(lower)), ProviderRef(mongos), lower)
  {
    hide Refs, ProviderRef, SanitizeName, Decimal;
  }

  lemma {:induction false} RoutedIsBuilt(p: Props, mongos: string)
    ensures BuiltOn(Registrations(p, mongos), ProviderRef(mongos), [])
    ensures BuiltOn(Balancing(p, mongos), ProviderRef(mongos), Registrations(p, mongos))
    ensures BuiltOn(Zones(p, mongos), ProviderRef(mongos), Registrations(p, mongos))
    ensures BuiltOn(Ranges(p, mongos), ProviderRef(mongos), Zones(p, mongos))
    ensures BuiltOn(CollectionBalancing(p, mongos), ProviderRef(mongos), Registrations(p, mongos))
  {
    var shards := Registrations(p, mongos);
    assert Refs([]) == [];
    BlocksAreBuilt(MongoShard, "shard_", ShardEntries(p.shards), ProviderRef(mongos), []);
    assert forall s | s in shards :: s.kind == MongoShard;
    BlocksAreBuilt(CollBalancing, "colbal_", p.collections, ProviderRef(mongos), shards);
    ZonesAreBuilt(p.zones, p.ranges, mongos, shards);
    hide Blocks, Registrations, Refs, ProviderRef, ZoneBlocks, RangeBlocks;
  }

  lemma {:induction false} RoutedIsGrounded(p: Props, mongos: string, aliases: seq<string>, pool: seq<ResourceBlock>)
    requires mongos in aliases && Among(Routed(p, mongos), pool)
    ensures Grounded(Routed(p, mongos), aliases, pool)
  {
    RoutedIsBuilt(p, mongos);
    var a, b, c, d, e := Registrations(p, mongos), Balancing(p, mongos), Zones(p, mongos), Ranges(p, mongos),
      CollectionBalancing(p, mongos);
    hide Registrations, Balancing, Zones, Ranges, CollectionBalancing, BuiltOn, ProviderRef, Grounded;
    BuiltIsGrounded(a, ProviderRef(mongos), [], aliases, pool);
    BuiltIsGrounded(b, ProviderRef(mongos), a, aliases, pool);
    BuiltIsGrounded(c, ProviderRef(mongos), a, aliases, pool);
    BuiltIsGrounded(d, ProviderRef(mongos), c, aliases, pool);
    BuiltIsGrounded(e, ProviderRef(mongos), a, aliases, pool);
    GroundedTogether(a, b, aliases, pool);
    GroundedTogether(a + b, c, aliases, pool);
    GroundedTogether(a + b + c, d, aliases, pool);
    GroundedTogether(a + b + c + d, e, aliases, pool);
  }

  lemma {:induction false} FirstMongosIsAnAlias(p: Props)
    requires p.mongos != [] && p.mongos[0].members != []
    ensures FIRST_MONGOS in EveryAlias(Parts(p))
  {
    var t := MongosPart(p.mongos, 0);
    assert Parts(p)[1 + |p.shards|] == t;
    assert PartAliases(t)[0] == FIRST_MONGOS;
    AliasOfSomePart(Parts(p), FIRST_MONGOS);
  }

  /**
   * Every provider a resource names is one of the cluster's, and everything it
   * depends on is among the cluster's resources, at a lower level.
   */
  lemma {:induction false} ClusterIsGrounded(p: Props)
    requires p.mongos != [] && p.mongos[0].members != []
    ensures Grounded(ClusterResources(p), EveryAlias(Parts(p)), ClusterResources(p))
  {
    var pool, aliases := ClusterResources(p), EveryAlias(Parts(p));
    var a, b, c := AllResources(p, Parts(p)), ClusterAccounts(p), Routed(p, FIRST_MONGOS);
    TargetsAreAliases(p);
    FirstMongosIsAnAlias(p);
    hide AllResources, ClusterAccounts, Routed, Grounded, EveryAlias, Parts, UserTargets;
    PartsAreGrounded(p, Parts(p), aliases, pool);
    ClusterAccountsAreGrounded(p, aliases, pool);
    RoutedIsGrounded(p, FIRST_MONGOS, aliases, pool);
    GroundedTogether(a, b, aliases, pool);
    GroundedTogether(a + b, c, aliases, pool);
  }

  // ------------------------------------------------------ no cycle

  lemma {:induction false} TypeNamesAreDistinct(k: Kind, k': Kind)
    requires TypeName(k) == TypeName(k')
    ensures k == k'
  {
    assert |TypeName(k)| == |TypeName(k')|;
    assert |TypeName(k)| == 15 ==> TypeName(k)[11] == TypeName(k')[11];
  }

  /** An address determines the kind and the name. */
  lemma {:induction false} RefsAreInjective(k: Kind, name: string, k': Kind, name': string)
    requires Ref(k, name) == Ref(k', name')
    ensures k == k' && name == name'
  {
    TypeNameHasNoDot(k);
    TypeNameHasNoDot(k');
    hide TypeName;
    FirstCutIsUnique(TypeName(k), name, '.', TypeName(k'), name');
    TypeNamesAreDistinct(k, k');
  }

  /** In the document, the resource at address a depends on address b. */
  ghost predicate DependsOn(doc: Document, a: string, b: string) {
    exists kind, name :: Holds(doc.resources, kind, name) && Ref(kind, name) == a
                         && b in doc.resources[kind][name].dependsOn
  }

  /** Each address of the path depends on the next. */
  ghost predicate IsPath(doc: Document, path: seq<string>) {
    forall i | 0 <= i < |path| - 1 :: DependsOn(doc, path[i], path[i + 1])
  }

  ghost predicate ProvidersResolve(doc: Document) {
    forall kind, name | Holds(doc.resources, kind, name) && doc.resources[kind][name].provider.Some? ::
      exists i :: 0 <= i < |doc.providers|
                  && doc.resources[kind][name].provider.value == ProviderRef(doc.providers[i].alias)
  }

  ghost predicate DependenciesResolve(doc: Document) {
    forall a, b | DependsOn(doc, a, b) ::
      exists kind, name :: Holds(doc.resources, kind, name) && Ref(kind, name) == b
  }

  ghost predicate HasNoCycle(doc: Document) {
    forall path | |path| >= 2 && IsPath(doc, path) :: path[0] != path[|path| - 1]
  }

  /** An entry was written from some block of its kind and name. */
  lemma {:induction false} EntryHasBlock(rs: seq<ResourceBlock>, kind: Kind, name: string) returns (r: ResourceBlock)
    requires Holds(Grouped(rs), kind, name)
    ensures r in rs && r.kind == kind && r.name == name && Grouped(rs)[kind][name] == EntryOf(r)
  {
    GroupedHolds(rs, kind, name);
    var i: nat :| i < |rs| && rs[i].kind == kind && rs[i].name == name;
    var k := HasLast(rs, i);
    LastIsWritten(rs, k);
    r := rs[k];
  }

  /** A dependency leads to a block at a lower level. */
  lemma {:induction false} DependencyDescends(doc: Document, rs: seq<ResourceBlock>, aliases: seq<string>, a: string,
                                              b: string)
    returns (r: ResourceBlock, s: ResourceBlock)
    requires doc.resources == Grouped(rs) && Grounded(rs, aliases, rs) && DependsOn(doc, a, b)
    ensures r in rs && s in rs && Address(r) == a && Address(s) == b && Level(s.kind) < Level(r.kind)
  {
    var kind, name :| Holds(doc.resources, kind, name) && Ref(kind, name) == a
                      && b in doc.resources[kind][name].dependsOn;
    r := EntryHasBlock(rs, kind, name);
    assert b in r.dependsOn && Rests(r, rs);
    s :| s in rs && Address(s) == b && Level(s.kind) < Level(r.kind);
  }

  lemma {:induction false} FrontIsPath(doc: Document, path: seq<string>)
    requires |path| > 0 && IsPath(doc, path)
    ensures IsPath(doc, path[..|path| - 1])
  {
    hide DependsOn;
    var front := path[..|path| - 1];
    forall i | 0 <= i < |front| - 1 ensures DependsOn(doc, front[i], front[i + 1]) {
      assert DependsOn(doc, path[i], path[i + 1]);
    }
  }

  lemma {:induction false} PathDescends(doc: Document, rs: seq<ResourceBlock>, aliases: seq<string>, path: seq<string>)
    returns (r: ResourceBlock, s: ResourceBlock)
    requires doc.resources == Grouped(rs) && Grounded(rs, aliases, rs) && |path| >= 2 && IsPath(doc, path)
    ensures r in rs && s in rs && Address(r) == path[0] && Address(s) == path[|path| - 1]
    ensures Level(s.kind) < Level(r.kind)
    decreases |path|
  {
    assert DependsOn(doc, path[|path| - 2], path[|path| - 1]);
    hide Grouped, Grounded, DependsOn, IsPath, Level;
    var r', s' := DependencyDescends(doc, rs, aliases, path[|path| - 2], path[|path| - 1]);
    r, s := r', s';
    if |path| > 2 {
      var front := path[..|path| - 1];
      FrontIsPath(doc, path);
      var m;
      r, m := PathDescends(doc, rs, aliases, front);
      RefsAreInjective(m.kind, m.name, r'.kind, r'.name);
    }
  }

  lemma {:induction false} GroundedHasNoCycle(doc: Document, rs: seq<ResourceBlock>, aliases: seq<string>)
    requires doc.resources == Grouped(rs) && Grounded(rs, aliases, rs)
    ensures HasNoCycle(doc)
  {
    forall path | |path| >= 2 && IsPath(doc, path) ensures path[0] != path[|path| - 1] {
      hide IsPath, Grounded, Grouped, Level;
      var r, s := PathDescends(doc, rs, aliases, path);
      if path[0] == path[|path| - 1] {
        RefsAreInjective(r.kind, r.name, s.kind, s.name);
      }
    }
  }

  lemma {:induction false} GroundedResolves(doc: Document, rs: seq<ResourceBlock>, aliases: seq<string>)
    requires doc.resources == Grouped(rs) && Grounded(rs, aliases, rs)
    requires forall a | a in aliases :: exists i :: 0 <= i < |doc.providers| && doc.providers[i].alias == a
    ensures ProvidersResolve(doc) && DependenciesResolve(doc)
  {
    forall kind, name | Holds(doc.resources, kind, name) && doc.resources[kind][name].provider.Some?
      ensures exists i :: 0 <= i < |doc.providers|
                          && doc.resources[kind][name].provider.value == ProviderRef(doc.providers[i].alias)
    {
      var r := EntryHasBlock(rs, kind, name);
      assert Points(r, aliases);
    }
    forall a, b | DependsOn(doc, a, b) ensures exists kind, name :: Holds(doc.resources, kind, name) && Ref(kind, name) == b {
      var _, s := DependencyDescends(doc, rs, aliases, a, b);
      GroupedHolds(rs, s.kind, s.name);
      assert Holds(doc.resources, s.kind, s.name) && Ref(s.kind, s.name) == b;
    }
  }

  /**
   * The document of every cluster that is built, whatever order the sort leaves
   * ties in, is well formed: provider aliases are pairwise distinct, every
   * provider reference and every depends_on entry names a block of the
   * document, and no resource depends on itself through others.
   */
  lemma {:induction false} DocumentIsWellFormed(p: Props, ps: seq<ProviderBlock>, rs: seq<ResourceBlock>)
    requires ClusterVerdict(p).Fine?
    requires IsSorted(ps, Alias, ClusterProviders(p)) && IsSorted(rs, Address, ClusterResources(p))
    ensures var doc := Written(ps, rs);
            && (forall i, j | 0 <= i < j < |doc.providers| :: doc.providers[i].alias != doc.providers[j].alias)
            && ProvidersResolve(doc) && DependenciesResolve(doc) && HasNoCycle(doc)
  {
    WhatIsWritten(p, ps, rs);
    hide *;
    ProvidersComeOutDistinct(p, ps);
    ClusterIsGrounded(p);
    SortedIsGrounded(rs, ClusterResources(p), EveryAlias(Parts(p)));
    var doc := Document(ps, Grouped(rs));
    GroundedResolves(doc, rs, EveryAlias(Parts(p)));
    GroundedHasNoCycle(doc, rs, EveryAlias(Parts(p)));
  }

  /** The document of a cluster is determined by its properties exactly when blocks of one address agree. */
  lemma {:induction false} ClusterDocumentIsDeterministicExactlyWhen(p: Props, ps: seq<ProviderBlock>,
                                                                     rs: seq<ResourceBlock>)
    requires ClusterVerdict(p).Fine?
    requires IsSorted(ps, Alias, ClusterProviders(p)) && IsSorted(rs, Address, ClusterResources(p))
    ensures TerraformLaws.BlocksAgree(ClusterResources(p))
            <==> forall ps', rs' | IsSorted(ps', Alias, ClusterProviders(p)) && IsSorted(rs', Address, ClusterResources(p)) ::
                   Written(ps', rs') == Written(ps, rs)
  {
    WhatIsWritten(p, ps, rs);
    ClusterAliasesAreDistinct(p);
    hide ClusterProviders, ClusterResources, ClusterVerdict, Written, IsSorted, TerraformLaws.BlocksAgree;
    TerraformLaws.SynthIsDeterministicExactlyWhen(ps, rs, ClusterProviders(p), ClusterResources(p));
  }

  lemma {:induction false} WhatIsWritten(p: Props, ps: seq<ProviderBlock>, rs: seq<ResourceBlock>)
    requires ClusterVerdict(p).Fine?
    requires IsSorted(ps, Alias, ClusterProviders(p)) && IsSorted(rs, Address, ClusterResources(p))
    ensures Distinct(ReplicaSetNames(p)) && p.mongos != [] && p.mongos[0].members != []
    ensures multiset(ps) == multiset(ClusterProviders(p)) && multiset(rs) == multiset(ClusterResources(p))
    ensures Written(ps, rs) == Document(ps, Grouped(rs))
  {
  }

  lemma {:induction false} ProvidersComeOutDistinct(p: Props, ps: seq<ProviderBlock>)
    requires Distinct(ReplicaSetNames(p)) && multiset(ps) == multiset(ClusterProviders(p))
    ensures forall i, j | 0 <= i < j < |ps| :: ps[i].alias != ps[j].alias
    ensures forall a | a in EveryAlias(Parts(p)) :: exists i :: 0 <= i < |ps| && ps[i].alias == a
  {
    var aliases, providers := EveryAlias(Parts(p)), ClusterProviders(p);
    ClusterAliasesAreDistinct(p);
    AliasesOfProviders(p, Parts(p));
    hide EveryAlias, ClusterProviders, Parts;
    SortedKeepsDistinct(ps, providers);
    forall a | a in aliases ensures exists i :: 0 <= i < |ps| && ps[i].alias == a {
      var k: nat :| k < |aliases| && aliases[k] == a;
      assert providers[k] in multiset(ps);
    }
  }

  lemma {:induction false} SortedKeepsDistinct(ps: seq<ProviderBlock>, from: seq<ProviderBlock>)
    requires multiset(ps) == multiset(from)
    requires forall i, j | 0 <= i < j < |from| :: from[i].alias != from[j].alias
    ensures forall i, j | 0 <= i < j < |ps| :: ps[i].alias != ps[j].alias
  {
    forall i, j | 0 <= i < j < |ps| ensures ps[i].alias != ps[j].alias {
      if ps[i].alias == ps[j].alias {
        OneOfEach(from, ps[i]);
        assert ps[i] in multiset(from) && ps[j] in multiset(from);
        assert ps[i] == ps[j];
        TwiceIsTwo(ps, i, j);
      }
    }
  }

  lemma {:induction false} OneOfEach(from: seq<ProviderBlock>, x: ProviderBlock)
    requires forall i, j | 0 <= i < j < |from| :: from[i].alias != from[j].alias
    ensures multiset(from)[x] <= 1
  {
    if from != [] {
      var front := from[..|from| - 1];
      OneOfEach(front, x);
      assert from == front + [from[|from| - 1]];
      assert x == from[|from| - 1] ==> x !in front;
    }
  }

  lemma {:induction false} TwiceIsTwo(ps: seq<ProviderBlock>, i: nat, j: nat)
    requires i < j < |ps| && ps[i] == ps[j]
    ensures multiset(ps)[ps[i]] >= 2
  {
    assert ps == ps[..j] + [ps[j]] + ps[j + 1..];
    assert ps[i] in ps[..j];
  }

  lemma {:induction false} SortedIsGrounded(rs: seq<ResourceBlock>, from: seq<ResourceBlock>, aliases: seq<string>)
    requires multiset(rs) == multiset(from) && Grounded(from, aliases, from)
    ensures Grounded(rs, aliases, rs)
  {
    hide Points, Address, Level;
    assert forall r | r in rs :: r in multiset(from);
    forall r | r in rs ensures Rests(r, rs) {
      assert Rests(r, from);
      assert forall s | s in from :: s in multiset(rs);
    }
  }

  // ------------------------------------------------------ when there is a cluster

  /** The properties meet every stated demand. */
  ghost predicate Valid(p: Props) {
    && p.mongos != [] && p.shards != [] && Distinct(ReplicaSetNames(p))
    && forall i | 0 <= i < |Parts(p)| :: PartProblem(Parts(p)[i]).None?
  }

  /** Two of the nodes have the same host and port. */
  ghost predicate SharedAddress(members: seq<Node>) {
    exists i, j :: 0 <= i < j < |members|
                   && members[i].host + ":" + Decimal(members[i].port) == members[j].host + ":" + Decimal(members[j].port)
  }

  /** A replica set must have a name, 3 to 50 members, and no two at one address; a mongos group 50 members at most. */
  lemma {:induction false} ProblemExactlyWhen(t: Part)
    ensures var replicaSet, n := t.component != Mongos, |t.group.members|;
            PartProblem(t) == if replicaSet && t.name == "" then Some(EmptyReplicaSetName)
                              else if replicaSet && n <= 2 then Some(TooFewMembers)
                              else if n >= 51 then Some(TooManyMembers)
                              else if SharedAddress(t.group.members) then Some(DuplicateHostPort)
                              else None
  {
    var members := t.group.members;
    var addresses := HostPorts(members);
    assert forall i | 0 <= i < |members| :: addresses[i] == members[i].host + ":" + Decimal(members[i].port);
    hide HostPorts, Decimal;
    assert Distinct(addresses) <==> !SharedAddress(members);
  }

  ghost predicate ValidSet(rs: ReplicaSet) {
    rs.name != "" && 3 <= |rs.group.members| <= 50 && !SharedAddress(rs.group.members)
  }

  /**
   * Properties are valid exactly when there is a mongos group and a shard, the
   * config server and the shards have distinct names, and each of them and of
   * the mongos groups is valid by itself.
   */
  lemma {:induction false} ValidExactlyWhen(p: Props)
    ensures Valid(p)
            <==> && p.mongos != [] && p.shards != [] && ValidSet(p.configServers)
                 && (forall i | 0 <= i < |p.shards| ::
                       ValidSet(p.shards[i]) && p.shards[i].name != p.configServers.name)
                 && (forall i, j | 0 <= i < j < |p.shards| :: p.shards[i].name != p.shards[j].name)
                 && forall i | 0 <= i < |p.mongos| ::
                      |p.mongos[i].members| <= 50 && !SharedAddress(p.mongos[i].members)
  {
    NamesAreDistinctExactlyWhen(p);
    var parts := Parts(p);
    assert forall i | 0 <= i < |p.shards| :: parts[1 + i] == ReplicaSetPart(Shard, p.shards[i]);
    assert forall i | 0 <= i < |p.mongos| :: parts[1 + |p.shards| + i] == MongosPart(p.mongos, i);
    assert parts[0] == ReplicaSetPart(ConfigServer, p.configServers) && |parts| == 1 + |p.shards| + |p.mongos|;
    forall i | 0 <= i < |parts|
      ensures PartProblem(parts[i]).None?
              <==> if i == 0 then ValidSet(p.configServers)
                   else if i <= |p.shards| then ValidSet(p.shards[i - 1])
                   else var g := p.mongos[i - 1 - |p.shards|]; |g.members| <= 50 && !SharedAddress(g.members)
    {
      ProblemExactlyWhen(parts[i]);
      assert i > |p.shards| ==> parts[i] == MongosPart(p.mongos, i - 1 - |p.shards|);
      assert 0 < i <= |p.shards| ==> parts[i] == ReplicaSetPart(Shard, p.shards[i - 1]);
      hide PartProblem, SharedAddress, Parts;
    }
    hide PartProblem, SharedAddress, ValidSet, Parts;
    PartsValidExactlyWhen(p, parts);
  }

  lemma {:induction false} PartsValidExactlyWhen(p: Props, parts: seq<Part>)
    requires |parts| == 1 + |p.shards| + |p.mongos|
    requires forall i | 0 <= i < |parts| ::
               PartProblem(parts[i]).None?
               <==> if i == 0 then ValidSet(p.configServers)
                    else if i <= |p.shards| then ValidSet(p.shards[i - 1])
                    else var g := p.mongos[i - 1 - |p.shards|]; |g.members| <= 50 && !SharedAddress(g.members)
    ensures (forall i | 0 <= i < |parts| :: PartProblem(parts[i]).None?)
            <==> && ValidSet(p.configServers) && (forall i | 0 <= i < |p.shards| :: ValidSet(p.shards[i]))
                 && forall i | 0 <= i < |p.mongos| ::
                      |p.mongos[i].members| <= 50 && !SharedAddress(p.mongos[i].members)
  {
    hide PartProblem, ValidSet, SharedAddress;
    if forall i | 0 <= i < |parts| :: PartProblem(parts[i]).None? {
      forall i | 0 <= i < |p.shards| ensures ValidSet(p.shards[i]) {
        assert PartProblem(parts[i + 1]).None?;
      }
      forall i | 0 <= i < |p.mongos| ensures |p.mongos[i].members| <= 50 && !SharedAddress(p.mongos[i].members) {
        assert PartProblem(parts[1 + |p.shards| + i]).None?;
      }
      assert PartProblem(parts[0]).None?;
    }
  }

  lemma {:induction false} NamesAreDistinctExactlyWhen(p: Props)
    ensures Distinct(ReplicaSetNames(p))
            <==> && (forall i | 0 <= i < |p.shards| :: p.shards[i].name != p.configServers.name)
                 && forall i, j | 0 <= i < j < |p.shards| :: p.shards[i].name != p.shards[j].name
  {
    var names := ReplicaSetNames(p);
    assert names[0] == p.configServers.name && |names| == 1 + |p.shards|;
    assert forall i | 0 <= i < |p.shards| :: names[i + 1] == p.shards[i].name;
    hide ReplicaSetNames;
    if Distinct(names) {
      forall i, j | 0 <= i < j < |p.shards| ensures p.shards[i].name != p.shards[j].name {
        assert names[i + 1] != names[j + 1];
      }
    }
    assert forall i | 1 <= i < |names| :: names[i] == p.shards[i - 1].name;
  }

  /** Properties on which the generator takes the first of an empty list of aliases. */
  ghost predicate OutOfRange(p: Props) {
    && p.mongos != []
    && (p.mongos[0].members == []
        || exists i :: 0 <= i < |p.mongos| && p.mongos[i].members == [] && p.mongos[i].originalUsers != [])
  }

  /** Properties on which the generator asks missing credentials for a user name. */
  ghost predicate WithoutLogin(p: Props) {
    p.credentials.None?
    && exists k, i :: 0 <= k < |Parts(p)| && 0 <= i < |Parts(p)[k].group.members|
                      && Parts(p)[k].group.members[i].credentials.None?
  }

  lemma {:induction false} PartsVerdictSumsUp(p: Props, parts: seq<Part>)
    ensures PartsVerdict(p, parts).Fine? <==> forall i | 0 <= i < |parts| :: PartVerdict(p, parts[i]).Fine?
    ensures !PartsVerdict(p, parts).Fine? ==>
              exists i :: 0 <= i < |parts| && PartVerdict(p, parts[i]) == PartsVerdict(p, parts)
  {
    if parts != [] {
      var front := parts[..|parts| - 1];
      PartsVerdictSumsUp(p, front);
      hide PartVerdict;
      assert forall i | 0 <= i < |front| :: front[i] == parts[i];
    }
  }

  lemma {:induction false} LoginOfParts(p: Props)
    ensures WithoutLogin(p) <==> exists k :: 0 <= k < |Parts(p)| && LacksLogin(Parts(p)[k].group.members, p.credentials)
  {
    hide Parts;
    if k :| 0 <= k < |Parts(p)| && LacksLogin(Parts(p)[k].group.members, p.credentials) {
      var i :| 0 <= i < |Parts(p)[k].group.members| && Login(Parts(p)[k].group.members[i], p.credentials).None?;
      assert Parts(p)[k].group.members[i].credentials.None?;
    }
    if WithoutLogin(p) {
      var k, i :| 0 <= k < |Parts(p)| && 0 <= i < |Parts(p)[k].group.members|
                  && Parts(p)[k].group.members[i].credentials.None?;
      assert Login(Parts(p)[k].group.members[i], p.credentials).None?;
    }
  }

  lemma {:induction false} ValidPartsMayPanic(p: Props, i: nat)
    requires Valid(p) && i < |Parts(p)|
    ensures var v := PartVerdict(p, Parts(p)[i]);
            v.Fine? || (v.Panicked? && (OutOfRange(p) || LacksLogin(Parts(p)[i].group.members, p.credentials)))
  {
    var n := 1 + |p.shards|;
    if i >= n {
      assert Parts(p)[i] == MongosPart(p.mongos, i - n);
    }
    hide ValidateReplicaSetMembers, LacksLogin;
    assert PartProblem(Parts(p)[i]).None?;
    assert i < n ==> |Parts(p)[i].group.members| >= MIN_REPLICA_SET_MEMBERS by {
      assert i < n ==> Parts(p)[i].component != Mongos;
    }
  }

  lemma {:induction false} FinePartsAreValid(p: Props)
    requires ClusterVerdict(p).Fine?
    ensures Valid(p) && !OutOfRange(p) && !WithoutLogin(p)
  {
    PartsVerdictSumsUp(p, Parts(p));
    LoginOfParts(p);
    hide WithoutLogin, LacksLogin;
    forall i | 0 <= i < |Parts(p)|
      ensures PartProblem(Parts(p)[i]).None? && !LacksLogin(Parts(p)[i].group.members, p.credentials)
    {
      assert PartVerdict(p, Parts(p)[i]).Fine?;
    }
    forall i | 0 <= i < |p.mongos| ensures p.mongos[i].members == [] ==> p.mongos[i].originalUsers == [] {
      assert Parts(p)[1 + |p.shards| + i] == MongosPart(p.mongos, i);
      assert PartVerdict(p, MongosPart(p.mongos, i)).Fine?;
    }
  }

  /**
   * A cluster is built exactly when its properties are valid, no list of
   * aliases it takes the first of is empty, and every node has credentials or
   * the cluster has; valid properties are never rejected, but they do panic
   * otherwise.
   */
  lemma {:induction false} BuiltExactlyWhen(p: Props)
    ensures ClusterVerdict(p).Fine? <==> Valid(p) && !OutOfRange(p) && !WithoutLogin(p)
    ensures Valid(p) && (OutOfRange(p) || WithoutLogin(p)) ==> ClusterVerdict(p).Panicked?
  {
    if ClusterVerdict(p).Fine? {
      FinePartsAreValid(p);
    } else if Valid(p) {
      PartsVerdictSumsUp(p, Parts(p));
      LoginOfParts(p);
      forall i | 0 <= i < |Parts(p)|
        ensures var v := PartVerdict(p, Parts(p)[i]);
                v.Fine? || (v.Panicked? && (OutOfRange(p) || LacksLogin(Parts(p)[i].group.members, p.credentials)))
      {
        ValidPartsMayPanic(p, i);
      }
      hide Parts, PartVerdict, PartProblem, LacksLogin, WithoutLogin;
    }
  }
}
