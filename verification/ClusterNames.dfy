/**
 * Which declared names must stay apart once they are sanitized and prefixed,
 * for the generated document not to depend on how the sort breaks ties.
 */
module ClusterNames {
  import opened Wrappers
  import opened Text
  import opened Terraform
  import opened TerraformLaws
  import opened ClusterPlan
  import opened ClusterLaws

  // ------------------------------------------------------ where each resource comes from

  /** The one block an item becomes. */
  function Item(kind: Kind, prefix: string, x: Named, provider: string, deps: seq<string>): (r: ResourceBlock)
    ensures r.kind == kind && r.name == prefix + SanitizeName(x.name)
  {
    ResourceBlock(kind, prefix + SanitizeName(x.name), [x.name] + x.settings, provider, deps)
  }

  function RoleAt(a: string, x: Named): ResourceBlock {
    Item(DbRole, RolePrefix(a), x, ProviderRef(a), [])
  }

  function OriginalAt(a: string, x: Named): ResourceBlock {
    Item(OriginalUser, OriginalUserPrefix(a), x, "", [])
  }

  /** The prefix of what stands on every node: profilers and server parameters. */
  function NodePrefix(kind: Kind, a: string): string {
    if kind == Profiler then ProfilerPrefix(a) else ParameterPrefix(a)
  }

  function NodeItems(p: Props, kind: Kind): seq<Named> {
    if kind == Profiler then p.profilers else p.parameters
  }

  function NodeItemAt(kind: Kind, a: string, x: Named): ResourceBlock {
    Item(kind, NodePrefix(kind, a), x, ProviderRef(a), [])
  }

  function UserAt(a: string, x: Named, roles: seq<Named>): ResourceBlock {
    Item(DbUser, UserPrefix(a), x, ProviderRef(a), Refs(RoleBlocks(a, roles)))
  }

  function ConfigAt(t: Part): ResourceBlock
    requires t.group.members != []
  {
    ResourceBlock(ShardConfig, ShardConfigName(t.name), [t.name] + t.settings, ProviderRef(PartAliases(t)[0]), [])
  }

  /** Role x is declared for alias a: by its component or by the cluster. */
  ghost predicate RoleSite(p: Props, a: string, x: Named) {
    exists t :: t in Parts(p) && a in PartAliases(t) && x in p.roles + t.group.roles
  }

  /** User x is declared for alias a, depending on these roles: the component's and the cluster's, or the cluster's. */
  ghost predicate UserSite(p: Props, a: string, x: Named, roles: seq<Named>) {
    || (exists t :: t in Parts(p) && a in PartAliases(t) && x in t.group.users && roles == p.roles + t.group.roles)
    || (a in UserTargets(p) && x in p.users && roles == p.roles)
  }

  /** Bootstrap user x is declared under the prefix a. */
  ghost predicate OriginalSite(p: Props, a: string, x: Named) {
    || (exists t :: t in Parts(p) && t.group.members != [] && a == PartAliases(t)[0] && x in t.group.originalUsers)
    || (a in OriginalUserTargets(p) && x in p.originalUsers)
  }

  ghost predicate NodeSite(p: Props, kind: Kind, a: string, x: Named) {
    a in EveryAlias(Parts(p)) && x in NodeItems(p, kind)
  }

  ghost predicate ConfigSite(p: Props, t: Part) {
    t in Parts(p) && t.component != Mongos && t.group.members != []
  }

  ghost predicate Plain(c: char) {
    'a' <= c <= 'z' || 'A' <= c <= 'Z' || '0' <= c <= '9'
  }

  /**
   * Names sanitize alike exactly when they are equally long and differ only
   * where neither has a letter or a digit; a name of those and underscores
   * alone stays as it is.
   */
  lemma {:induction false} SanitizeAlikeExactlyWhen(s: string, t: string)
    ensures SanitizeName(s) == SanitizeName(t)
            <==> |s| == |t| && forall i | 0 <= i < |s| :: s[i] == t[i] || (!Plain(s[i]) && !Plain(t[i]))
    ensures SanitizeName(s) == s <==> forall i | 0 <= i < |s| :: Plain(s[i]) || s[i] == '_'
  {
    var a, b := SanitizeName(s), SanitizeName(t);
    assert |a| == |s| && |b| == |t|;
    assert forall i | 0 <= i < |s| :: a[i] == if Plain(s[i]) then s[i] else '_';
    assert forall i | 0 <= i < |t| :: b[i] == if Plain(t[i]) then t[i] else '_';
    hide SanitizeName;
    if |s| == |t| && forall i | 0 <= i < |s| :: s[i] == t[i] || (!Plain(s[i]) && !Plain(t[i])) {
      assert a == b;
    }
    if a == b {
      forall i | 0 <= i < |s| ensures s[i] == t[i] || (!Plain(s[i]) && !Plain(t[i])) {
        assert a[i] == b[i];
      }
    }
    if forall i | 0 <= i < |s| :: Plain(s[i]) || s[i] == '_' {
      assert a == s;
    }
    if a == s {
      forall i | 0 <= i < |s| ensures Plain(s[i]) || s[i] == '_' {
        assert a[i] == s[i];
      }
    }
  }

  lemma {:induction false} InBlocks(kind: Kind, prefix: string, items: seq<Named>, provider: string, deps: seq<string>,
                                    r: ResourceBlock)
    ensures r in Blocks(kind, prefix, items, provider, deps)
            <==> exists x :: x in items && r == Item(kind, prefix, x, provider, deps)
  {
    var blocks := Blocks(kind, prefix, items, provider, deps);
    assert forall i | 0 <= i < |items| :: blocks[i] == Item(kind, prefix, items[i], provider, deps) && items[i] in items;
    hide Blocks, Item;
    if x :| x in items && r == Item(kind, prefix, x, provider, deps) {
      var i :| 0 <= i < |items| && items[i] == x;
      assert blocks[i] == r;
    }
  }

  lemma {:induction false} InOnEach(kind: Kind, prefix: string -> string, on: seq<string>, items: seq<Named>,
                                    r: ResourceBlock)
    ensures r in OnEach(kind, prefix, on, items)
            <==> exists a, x :: a in on && x in items && r == Item(kind, prefix(a), x, ProviderRef(a), [])
  {
    if on != [] {
      var front, last := on[..|on| - 1], on[|on| - 1];
      InOnEach(kind, prefix, front, items, r);
      InBlocks(kind, prefix(last), items, ProviderRef(last), [], r);
      hide Item, Blocks, ProviderRef;
      assert forall a :: a in on <==> a in front || a == last;
    }
  }

  lemma {:induction false} InUsers(on: seq<string>, users: seq<Named>, roles: seq<Named>, r: ResourceBlock)
    ensures r in Users(on, users, roles) <==> exists a, x :: a in on && x in users && r == UserAt(a, x, roles)
  {
    if on != [] {
      var front, last := on[..|on| - 1], on[|on| - 1];
      InUsers(front, users, roles, r);
      InBlocks(DbUser, UserPrefix(last), users, ProviderRef(last), Refs(RoleBlocks(last, roles)), r);
      assert forall x :: UserAt(last, x, roles)
                         == Item(DbUser, UserPrefix(last), x, ProviderRef(last), Refs(RoleBlocks(last, roles)));
      hide Item, Blocks, ProviderRef, UserAt, RoleBlocks, Refs;
      assert forall a :: a in on <==> a in front || a == last;
    }
  }

  lemma {:induction false} InOriginalUsersOn(on: seq<string>, users: seq<Named>, r: ResourceBlock)
    ensures r in OriginalUsersOn(on, users)
            <==> exists a, x :: a in on && x in users && r == Item(OriginalUser, OriginalUserPrefix(a), x, "", [])
  {
    if on != [] {
      var front, last := on[..|on| - 1], on[|on| - 1];
      InOriginalUsersOn(front, users, r);
      InBlocks(OriginalUser, OriginalUserPrefix(last), users, "", [], r);
      hide Item, Blocks;
      assert forall a :: a in on <==> a in front || a == last;
    }
  }

  lemma {:induction false} InAllResources(p: Props, parts: seq<Part>, r: ResourceBlock)
    ensures r in AllResources(p, parts) <==> exists t :: t in parts && r in PartResources(p, t)
  {
    if parts != [] {
      var front, last := parts[..|parts| - 1], parts[|parts| - 1];
      InAllResources(p, front, r);
      hide PartResources;
      assert forall t :: t in parts <==> t in front || t == last;
    }
  }

  /** A part's resources, kind by kind. */
  lemma {:induction false} PartByKind(p: Props, t: Part, r: ResourceBlock)
    ensures r in PartResources(p, t)
            <==> match r.kind
                 case DbRole => r in Roles(PartAliases(t), p.roles + t.group.roles)
                 case DbUser => r in Users(PartAliases(t), t.group.users, p.roles + t.group.roles)
                 case OriginalUser =>
                   t.group.members != [] && r in OriginalUsers(PartAliases(t)[0], t.group.originalUsers)
                 case Profiler => r in OnEach(Profiler, ProfilerPrefix, PartAliases(t), p.profilers)
                 case ServerParameter => r in OnEach(ServerParameter, ParameterPrefix, PartAliases(t), p.parameters)
                 case ShardConfig => t.group.members != [] && r in ShardConfigOf(t)
                 case Fcv => r in Compatibility(p, t)
                 case _ => false
  {
    var on, roles := PartAliases(t), p.roles + t.group.roles;
    assert |on| == |t.group.members|;
    RolesAreOnEach(on, roles);
    InOnEach(DbRole, RolePrefix, on, roles, r);
    InUsers(on, t.group.users, roles, r);
    InOnEach(Profiler, ProfilerPrefix, on, p.profilers, r);
    InOnEach(ServerParameter, ParameterPrefix, on, p.parameters, r);
    if t.group.members != [] {
      InBlocks(OriginalUser, OriginalUserPrefix(on[0]), t.group.originalUsers, "", [], r);
    }
    hide Roles, Users, OnEach, Blocks, PartAliases, ProviderRef, ShardConfigName, FcvName, SanitizeName, Refs, RoleBlocks;
  }

  lemma {:induction false} AccountsByKind(p: Props, r: ResourceBlock)
    ensures r in ClusterAccounts(p)
            <==> match r.kind
                 case DbRole => p.users != [] && r in Roles(UserTargets(p), p.roles)
                 case DbUser => p.users != [] && r in Users(UserTargets(p), p.users, p.roles)
                 case OriginalUser => r in OriginalUsersOn(OriginalUserTargets(p), p.originalUsers)
                 case _ => false
  {
    RolesAreOnEach(UserTargets(p), p.roles);
    InOnEach(DbRole, RolePrefix, UserTargets(p), p.roles, r);
    InUsers(UserTargets(p), p.users, p.roles, r);
    InOriginalUsersOn(OriginalUserTargets(p), p.originalUsers, r);
    hide Roles, Users, OnEach, OriginalUsersOn, UserTargets, OriginalUserTargets, ProviderRef, SanitizeName, Refs, RoleBlocks;
  }

  lemma {:induction false} RoutedByKind(p: Props, m: string, r: ResourceBlock)
    ensures r in Routed(p, m)
            <==> match r.kind
                 case MongoShard => r in Registrations(p, m)
                 case BalancerConfig => r in Balancing(p, m)
                 case ShardZone => r in Zones(p, m)
                 case ZoneKeyRange => r in Ranges(p, m)
                 case CollBalancing => r in CollectionBalancing(p, m)
                 case _ => false
  {
    InBlocks(MongoShard, "shard_", ShardEntries(p.shards), ProviderRef(m), [], r);
    InBlocks(CollBalancing, "colbal_", p.collections, ProviderRef(m), Refs(Registrations(p, m)), r);
    hide Blocks, ProviderRef, SanitizeName, Refs, Decimal, ShardEntries;
  }

  // ------------------------------------------------------ sites and resources

  lemma {:induction false} InResources(p: Props, r: ResourceBlock)
    ensures r in ClusterResources(p)
            <==> (exists t :: t in Parts(p) && r in PartResources(p, t))
                 || r in ClusterAccounts(p) || r in Routed(p, FIRST_MONGOS)
  {
    InAllResources(p, Parts(p), r);
    hide AllResources, ClusterAccounts, Routed, PartResources, Parts;
  }

  lemma {:induction false} RoleExactly(p: Props, r: ResourceBlock)
    requires r.kind == DbRole
    ensures r in ClusterResources(p)
            <==> exists a, x :: RoleSite(p, a, x) && r == Item(DbRole, RolePrefix(a), x, ProviderRef(a), [])
  {
    InResources(p, r);
    AccountsByKind(p, r);
    RoutedByKind(p, FIRST_MONGOS, r);
    TargetsAreAliases(p);
    forall t ensures r in PartResources(p, t)
                     <==> exists a, x :: a in PartAliases(t) && x in p.roles + t.group.roles
                                         && r == Item(DbRole, RolePrefix(a), x, ProviderRef(a), [])
    {
      PartByKind(p, t, r);
      RolesAreOnEach(PartAliases(t), p.roles + t.group.roles);
      InOnEach(DbRole, RolePrefix, PartAliases(t), p.roles + t.group.roles, r);
    }
    RolesAreOnEach(UserTargets(p), p.roles);
    InOnEach(DbRole, RolePrefix, UserTargets(p), p.roles, r);
    forall a ensures a in EveryAlias(Parts(p)) <==> exists t :: t in Parts(p) && a in PartAliases(t) {
      AliasHasPart(p, a);
    }
    hide Roles, OnEach, PartAliases, Item, ProviderRef, RolePrefix, Parts, UserTargets, EveryAlias, PartResources,
         ClusterAccounts, Routed, ClusterResources;
  }

  lemma {:induction false} AliasHasPart(p: Props, a: string)
    ensures a in EveryAlias(Parts(p)) <==> exists t :: t in Parts(p) && a in PartAliases(t)
  {
    AliasOfSomePart(Parts(p), a);
    hide EveryAlias, PartAliases, Parts;
  }

  lemma {:induction false} UserExactly(p: Props, r: ResourceBlock)
    requires r.kind == DbUser
    ensures r in ClusterResources(p) <==> exists a, x, roles :: UserSite(p, a, x, roles) && r == UserAt(a, x, roles)
  {
    InResources(p, r);
    AccountsByKind(p, r);
    RoutedByKind(p, FIRST_MONGOS, r);
    forall t ensures r in PartResources(p, t)
                     <==> exists a, x :: a in PartAliases(t) && x in t.group.users
                                         && r == UserAt(a, x, p.roles + t.group.roles)
    {
      PartByKind(p, t, r);
      InUsers(PartAliases(t), t.group.users, p.roles + t.group.roles, r);
    }
    InUsers(UserTargets(p), p.users, p.roles, r);
    hide Users, PartAliases, UserAt, Parts, UserTargets, PartResources, ClusterAccounts, Routed, ClusterResources;
  }

  lemma {:induction false} OriginalExactly(p: Props, r: ResourceBlock)
    requires r.kind == OriginalUser
    ensures r in ClusterResources(p)
            <==> exists a, x :: OriginalSite(p, a, x) && r == Item(OriginalUser, OriginalUserPrefix(a), x, "", [])
  {
    InResources(p, r);
    AccountsByKind(p, r);
    RoutedByKind(p, FIRST_MONGOS, r);
    forall t ensures r in PartResources(p, t)
                     <==> t.group.members != []
                          && exists x :: x in t.group.originalUsers
                                         && r == Item(OriginalUser, OriginalUserPrefix(PartAliases(t)[0]), x, "", [])
    {
      PartByKind(p, t, r);
      if t.group.members != [] {
        InBlocks(OriginalUser, OriginalUserPrefix(PartAliases(t)[0]), t.group.originalUsers, "", [], r);
      }
    }
    InOriginalUsersOn(OriginalUserTargets(p), p.originalUsers, r);
    forall t ensures |PartAliases(t)| == |t.group.members| {}
    hide OriginalUsersOn, OriginalUsers, PartAliases, Item, OriginalUserPrefix, Parts, OriginalUserTargets, PartResources,
         ClusterAccounts, Routed, ClusterResources;
  }

  lemma {:induction false} NodeItemInPart(p: Props, t: Part, r: ResourceBlock)
    requires r.kind in {Profiler, ServerParameter}
    ensures r in PartResources(p, t)
            <==> exists a, x :: && a in PartAliases(t) && x in NodeItems(p, r.kind)
                                && r == Item(r.kind, NodePrefix(r.kind, a), x, ProviderRef(a), [])
  {
    PartByKind(p, t, r);
    if r.kind == Profiler {
      InNodeItems(r.kind, ProfilerPrefix, PartAliases(t), p.profilers, r);
    } else {
      InNodeItems(r.kind, ParameterPrefix, PartAliases(t), p.parameters, r);
    }
    hide *;
    NodeItemsAre(p);
  }

  lemma {:induction false} NodeItemsAre(p: Props)
    ensures NodeItems(p, Profiler) == p.profilers && NodeItems(p, ServerParameter) == p.parameters
  {
  }

  lemma {:induction false} InNodeItems(kind: Kind, prefix: string -> string, on: seq<string>, items: seq<Named>,
                                       r: ResourceBlock)
    requires forall a :: prefix(a) == NodePrefix(kind, a)
    ensures r in OnEach(kind, prefix, on, items)
            <==> exists a, x :: && a in on && x in items && r == Item(kind, NodePrefix(kind, a), x, ProviderRef(a), [])
  {
    InOnEach(kind, prefix, on, items, r);
    hide *;
    if a, x :| a in on && x in items && r == Item(kind, prefix(a), x, ProviderRef(a), []) {
      assert r == Item(kind, NodePrefix(kind, a), x, ProviderRef(a), []);
    }
    if a, x :| a in on && x in items && r == Item(kind, NodePrefix(kind, a), x, ProviderRef(a), []) {
      assert r == Item(kind, prefix(a), x, ProviderRef(a), []);
    }
  }

  lemma {:induction false} NodeItemExactly(p: Props, r: ResourceBlock)
    requires r.kind in {Profiler, ServerParameter}
    ensures r in ClusterResources(p)
            <==> exists a, x :: && NodeSite(p, r.kind, a, x)
                                && r == Item(r.kind, NodePrefix(r.kind, a), x, ProviderRef(a), [])
  {
    hide OnEach, PartAliases, Item, ProviderRef, NodePrefix, NodeItems, Parts, EveryAlias, PartResources, ClusterAccounts,
         Routed, ClusterResources;
    InResources(p, r);
    AccountsByKind(p, r);
    RoutedByKind(p, FIRST_MONGOS, r);
    forall t ensures r in PartResources(p, t)
                     <==> exists a, x :: && a in PartAliases(t) && x in NodeItems(p, r.kind)
                                         && r == Item(r.kind, NodePrefix(r.kind, a), x, ProviderRef(a), [])
    {
      NodeItemInPart(p, t, r);
    }
    forall a ensures a in EveryAlias(Parts(p)) <==> exists t :: t in Parts(p) && a in PartAliases(t) {
      AliasHasPart(p, a);
    }
  }

  lemma {:induction false} ConfigExactly(p: Props, r: ResourceBlock)
    requires r.kind == ShardConfig
    ensures r in ClusterResources(p) <==> exists t :: ConfigSite(p, t) && r == ConfigAt(t)
  {
    InResources(p, r);
    AccountsByKind(p, r);
    RoutedByKind(p, FIRST_MONGOS, r);
    forall t ensures r in PartResources(p, t)
                     <==> t.group.members != [] && t.component != Mongos && r == ConfigAt(t)
    {
      PartByKind(p, t, r);
    }
    hide ConfigAt, PartAliases, Parts, PartResources, ClusterAccounts, Routed, ClusterResources;
  }

  lemma {:induction false} VersionExactly(p: Props, r: ResourceBlock)
    requires r.kind == Fcv
    ensures r in ClusterResources(p) <==> exists t :: t in Parts(p) && r in Compatibility(p, t)
  {
    InResources(p, r);
    AccountsByKind(p, r);
    RoutedByKind(p, FIRST_MONGOS, r);
    forall t ensures r in PartResources(p, t) <==> r in Compatibility(p, t) {
      PartByKind(p, t, r);
    }
    hide Compatibility, Parts, PartResources, ClusterAccounts, Routed, ClusterResources;
  }

  /** The kinds that only go through the first mongos. */
  lemma {:induction false} RoutedExactly(p: Props, r: ResourceBlock)
    requires r.kind in {MongoShard, BalancerConfig, ShardZone, ZoneKeyRange, CollBalancing}
    ensures r in ClusterResources(p) <==> r in Routed(p, FIRST_MONGOS)
  {
    InResources(p, r);
    AccountsByKind(p, r);
    forall t ensures r !in PartResources(p, t) {
      PartByKind(p, t, r);
    }
    hide Parts, PartResources, ClusterAccounts, Routed, ClusterResources;
  }

  // ------------------------------------------------------ what must stay apart

  ghost predicate RolesApart(p: Props) {
    forall a, x, b, y | RoleSite(p, a, x) && RoleSite(p, b, y)
                        && RolePrefix(a) + SanitizeName(x.name) == RolePrefix(b) + SanitizeName(y.name) ::
      a == b && x == y
  }

  /** A user declared twice must wait for the same roles, too. */
  ghost predicate UsersApart(p: Props) {
    forall a, x, roles, b, y, roles' | UserSite(p, a, x, roles) && UserSite(p, b, y, roles')
                                       && UserPrefix(a) + SanitizeName(x.name) == UserPrefix(b) + SanitizeName(y.name) ::
      a == b && x == y && roles == roles'
  }

  ghost predicate OriginalUsersApart(p: Props) {
    forall a, x, b, y | OriginalSite(p, a, x) && OriginalSite(p, b, y)
                        && OriginalUserPrefix(a) + SanitizeName(x.name) == OriginalUserPrefix(b) + SanitizeName(y.name) ::
      x == y
  }

  ghost predicate NodeItemsApart(p: Props, kind: Kind) {
    forall a, x, b, y | NodeSite(p, kind, a, x) && NodeSite(p, kind, b, y)
                        && NodePrefix(kind, a) + SanitizeName(x.name) == NodePrefix(kind, b) + SanitizeName(y.name) ::
      a == b && x == y
  }

  ghost predicate ReplicaSetsApart(p: Props) {
    forall n, m | n in ReplicaSetNames(p) && m in ReplicaSetNames(p) && SanitizeName(n) == SanitizeName(m) :: n == m
  }

  ghost predicate ZonesApart(p: Props) {
    forall z, w | z in p.zones && w in p.zones
                  && SanitizeName(z.shard) + "_" + SanitizeName(z.zone)
                     == SanitizeName(w.shard) + "_" + SanitizeName(w.zone) :: z == w
  }

  ghost predicate CollectionsApart(p: Props) {
    forall x, y | x in p.collections && y in p.collections && SanitizeName(x.name) == SanitizeName(y.name) :: x == y
  }

  /** No two declarations that differ end up under one resource name. */
  ghost predicate NamesKeepApart(p: Props) {
    && RolesApart(p) && UsersApart(p) && OriginalUsersApart(p) && NodeItemsApart(p, Profiler)
    && NodeItemsApart(p, ServerParameter)
    && ReplicaSetsApart(p) && ZonesApart(p) && CollectionsApart(p)
  }

  /** Resources of one kind and name have one entry. */
  ghost predicate AgreeOn(pool: seq<ResourceBlock>, kind: Kind) {
    forall r, s | r in pool && s in pool && r.kind == kind && SameAddress(r, s) ::
      EntryOf(r) == EntryOf(s)
  }

  lemma {:induction false} SameItems(r: ResourceBlock, s: ResourceBlock, prefix: string, x: Named, via: string,
                                     deps: seq<string>, prefix': string, y: Named, via': string, deps': seq<string>)
    requires r == Item(r.kind, prefix, x, via, deps) && s == Item(s.kind, prefix', y, via', deps')
    requires EntryOf(r) == EntryOf(s)
    ensures x == y && via == via' && multiset(deps) == multiset(deps')
  {
    assert ([x.name] + x.settings)[0] == x.name && ([x.name] + x.settings)[1..] == x.settings;
    assert ([y.name] + y.settings)[0] == y.name && ([y.name] + y.settings)[1..] == y.settings;
  }

  lemma {:induction false} SameVia(a: string, b: string)
    requires ProviderRef(a) == ProviderRef(b)
    ensures a == b
  {
    var head := PROVIDER_TYPE + ".";
    assert ProviderRef(a)[|head|..] == a && ProviderRef(b)[|head|..] == b;
  }

  // ------------------------------------------------------ what a pool of resources holds, kind by kind

  ghost predicate RolesIn(p: Props, pool: seq<ResourceBlock>) {
    forall r: ResourceBlock | r.kind == DbRole ::
      r in pool <==> exists a, x :: RoleSite(p, a, x) && r == RoleAt(a, x)
  }

  ghost predicate UsersIn(p: Props, pool: seq<ResourceBlock>) {
    forall r: ResourceBlock | r.kind == DbUser ::
      r in pool <==> exists a, x, roles :: UserSite(p, a, x, roles) && r == UserAt(a, x, roles)
  }

  ghost predicate OriginalUsersIn(p: Props, pool: seq<ResourceBlock>) {
    forall r: ResourceBlock | r.kind == OriginalUser ::
      r in pool <==> exists a, x :: OriginalSite(p, a, x) && r == OriginalAt(a, x)
  }

  ghost predicate NodeItemsIn(p: Props, kind: Kind, pool: seq<ResourceBlock>) {
    forall r: ResourceBlock | r.kind == kind ::
      r in pool <==> exists a, x :: NodeSite(p, kind, a, x) && r == NodeItemAt(kind, a, x)
  }

  ghost predicate ConfigsIn(p: Props, pool: seq<ResourceBlock>) {
    forall r: ResourceBlock | r.kind == ShardConfig :: r in pool <==> exists t :: ConfigSite(p, t) && r == ConfigAt(t)
  }

  ghost predicate VersionsIn(p: Props, pool: seq<ResourceBlock>) {
    forall r | r in pool && r.kind == Fcv :: exists t :: t in Parts(p) && r in Compatibility(p, t)
  }

  ghost predicate RegistrationsIn(p: Props, pool: seq<ResourceBlock>) {
    forall r | r in pool && r.kind == MongoShard :: exists i :: 0 <= i < |p.shards| && r == RegistrationAt(p, i)
  }

  ghost predicate BalancersIn(p: Props, pool: seq<ResourceBlock>) {
    forall r | r in pool && r.kind == BalancerConfig :: r in Balancing(p, FIRST_MONGOS)
  }

  ghost predicate ZonesIn(p: Props, pool: seq<ResourceBlock>) {
    forall r: ResourceBlock | r.kind == ShardZone :: r in pool <==> exists z :: z in p.zones && r == ZoneAt(p, z)
  }

  ghost predicate RangesIn(p: Props, pool: seq<ResourceBlock>) {
    forall r | r in pool && r.kind == ZoneKeyRange ::
      exists i :: 0 <= i < |p.ranges| && r == RangeAt(p, i)
  }

  ghost predicate CollectionsIn(p: Props, pool: seq<ResourceBlock>) {
    forall r: ResourceBlock | r.kind == CollBalancing ::
      r in pool <==> exists x :: x in p.collections && r == CollectionAt(p, x)
  }

  function RangeAt(p: Props, i: nat): ResourceBlock
    requires i < |p.ranges|
  {
    Ranges(p, FIRST_MONGOS)[i]
  }

  function CollectionAt(p: Props, x: Named): ResourceBlock {
    Item(CollBalancing, "colbal_", x, ProviderRef(FIRST_MONGOS), Refs(Registrations(p, FIRST_MONGOS)))
  }

  lemma {:induction false} RegistrationExactly(p: Props, r: ResourceBlock)
    requires r.kind == MongoShard && r in Registrations(p, FIRST_MONGOS)
    ensures exists i :: 0 <= i < |p.shards| && r == RegistrationAt(p, i)
  {
    var entries := ShardEntries(p.shards);
    InBlocks(MongoShard, "shard_", entries, ProviderRef(FIRST_MONGOS), [], r);
    var x :| x in entries && r == Item(MongoShard, "shard_", x, ProviderRef(FIRST_MONGOS), []);
    var i :| 0 <= i < |p.shards| && entries[i] == x;
    assert r == RegistrationAt(p, i);
  }

  lemma {:induction false} ZoneExactly(p: Props, r: ResourceBlock)
    requires r.kind == ShardZone
    ensures r in Zones(p, FIRST_MONGOS) <==> exists z :: z in p.zones && r == ZoneAt(p, z)
  {
    hide Refs, ProviderRef, Registrations, SanitizeName;
    var zones := Zones(p, FIRST_MONGOS);
    assert forall i | 0 <= i < |p.zones| :: zones[i] == ZoneAt(p, p.zones[i]) && p.zones[i] in p.zones;
    assert |zones| == |p.zones|;
    hide Zones, ZoneBlocks, ZoneAt;
    if z :| z in p.zones && r == ZoneAt(p, z) {
      var i :| 0 <= i < |p.zones| && p.zones[i] == z;
      assert zones[i] == r;
    }
  }

  /** And for what goes through the first mongos. */
  lemma {:induction false} RoutedAreDeclared(p: Props)
    ensures var pool := ClusterResources(p);
            && RegistrationsIn(p, pool) && BalancersIn(p, pool) && ZonesIn(p, pool) && RangesIn(p, pool)
            && CollectionsIn(p, pool)
  {
    hide ClusterResources, Routed, RegistrationAt, ZoneAt, CollectionAt, Registrations, Balancing, Zones, Ranges;
    forall r | r in ClusterResources(p) && r.kind == MongoShard
      ensures exists i :: 0 <= i < |p.shards| && r == RegistrationAt(p, i)
    {
      RoutedExactly(p, r);
      RoutedByKind(p, FIRST_MONGOS, r);
      RegistrationExactly(p, r);
    }
    forall r | r in ClusterResources(p) && r.kind == BalancerConfig ensures r in Balancing(p, FIRST_MONGOS) {
      RoutedExactly(p, r);
      RoutedByKind(p, FIRST_MONGOS, r);
    }
    forall r: ResourceBlock | r.kind == ShardZone
      ensures r in ClusterResources(p) <==> exists z :: z in p.zones && r == ZoneAt(p, z)
    {
      RoutedExactly(p, r);
      RoutedByKind(p, FIRST_MONGOS, r);
      ZoneExactly(p, r);
    }
    forall r | r in ClusterResources(p) && r.kind == ZoneKeyRange
      ensures exists i :: 0 <= i < |p.ranges| && r == RangeAt(p, i)
    {
      RoutedExactly(p, r);
      RoutedByKind(p, FIRST_MONGOS, r);
      RangeHasIndex(p, r);
    }
    forall r: ResourceBlock | r.kind == CollBalancing
      ensures r in ClusterResources(p) <==> exists x :: x in p.collections && r == CollectionAt(p, x)
    {
      RoutedExactly(p, r);
      RoutedByKind(p, FIRST_MONGOS, r);
      CollectionExactly(p, r);
    }
  }

  lemma {:induction false} RangeHasIndex(p: Props, r: ResourceBlock)
    requires r in Ranges(p, FIRST_MONGOS)
    ensures exists i :: 0 <= i < |p.ranges| && r == RangeAt(p, i)
  {
    var ranges := Ranges(p, FIRST_MONGOS);
    assert |ranges| == |p.ranges|;
    hide Ranges;
    var i: nat :| i < |ranges| && ranges[i] == r;
    assert r == RangeAt(p, i);
  }

  lemma {:induction false} CollectionExactly(p: Props, r: ResourceBlock)
    ensures r in CollectionBalancing(p, FIRST_MONGOS) <==> exists x :: x in p.collections && r == CollectionAt(p, x)
  {
    InBlocks(CollBalancing, "colbal_", p.collections, ProviderRef(FIRST_MONGOS), Refs(Registrations(p, FIRST_MONGOS)), r);
    hide Blocks, Refs, ProviderRef, Registrations, Item;
  }

  /** A cluster holds just the accounts its properties declare. */
  lemma {:induction false} AccountsAreDeclared(p: Props)
    ensures var pool := ClusterResources(p); RolesIn(p, pool) && UsersIn(p, pool) && OriginalUsersIn(p, pool)
  {
    assert forall a, x :: RoleAt(a, x) == Item(DbRole, RolePrefix(a), x, ProviderRef(a), []);
    assert forall a, x :: OriginalAt(a, x) == Item(OriginalUser, OriginalUserPrefix(a), x, "", []);
    hide ClusterResources, Item, RolePrefix, OriginalUserPrefix, ProviderRef, RoleSite, UserSite, OriginalSite, RoleAt,
         UserAt, OriginalAt;
    forall r: ResourceBlock | r.kind == DbRole
      ensures r in ClusterResources(p) <==> exists a, x :: RoleSite(p, a, x) && r == RoleAt(a, x)
    {
      RoleExactly(p, r);
    }
    forall r: ResourceBlock | r.kind == DbUser
      ensures r in ClusterResources(p) <==> exists a, x, roles :: UserSite(p, a, x, roles) && r == UserAt(a, x, roles)
    {
      UserExactly(p, r);
    }
    forall r: ResourceBlock | r.kind == OriginalUser
      ensures r in ClusterResources(p) <==> exists a, x :: OriginalSite(p, a, x) && r == OriginalAt(a, x)
    {
      OriginalExactly(p, r);
    }
  }

  /** So for what stands on every node, and on the first of a replica set. */
  lemma {:induction false} NodesAreDeclared(p: Props)
    ensures var pool := ClusterResources(p);
            && NodeItemsIn(p, Profiler, pool) && NodeItemsIn(p, ServerParameter, pool) && ConfigsIn(p, pool)
            && VersionsIn(p, pool)
  {
    assert forall kind, a, x :: NodeItemAt(kind, a, x) == Item(kind, NodePrefix(kind, a), x, ProviderRef(a), []);
    hide ClusterResources, Item, NodePrefix, ProviderRef, NodeSite, Parts, Compatibility, NodeItemAt, ConfigAt;
    forall r: ResourceBlock | r.kind in {Profiler, ServerParameter}
      ensures r in ClusterResources(p) <==> exists a, x :: NodeSite(p, r.kind, a, x) && r == NodeItemAt(r.kind, a, x)
    {
      NodeItemExactly(p, r);
    }
    forall r: ResourceBlock | r.kind == ShardConfig
      ensures r in ClusterResources(p) <==> exists t :: ConfigSite(p, t) && r == ConfigAt(t)
    {
      ConfigExactly(p, r);
    }
    forall r | r in ClusterResources(p) && r.kind == Fcv ensures exists t :: t in Parts(p) && r in Compatibility(p, t) {
      VersionExactly(p, r);
    }
  }

  lemma {:induction false} RolesAgree(p: Props, pool: seq<ResourceBlock>)
    requires RolesIn(p, pool)
    ensures AgreeOn(pool, DbRole) <==> RolesApart(p)
  {
    hide RoleSite, RolePrefix, ProviderRef, SanitizeName;
    if AgreeOn(pool, DbRole) {
      forall a, x, b, y | RoleSite(p, a, x) && RoleSite(p, b, y)
                          && RolePrefix(a) + SanitizeName(x.name) == RolePrefix(b) + SanitizeName(y.name)
        ensures a == b && x == y
      {
        var r, s := RoleAt(a, x), RoleAt(b, y);
        assert SameAddress(r, s) && r in pool && s in pool;
        SameItems(r, s, RolePrefix(a), x, ProviderRef(a), [], RolePrefix(b), y, ProviderRef(b), []);
        SameVia(a, b);
      }
    }
  }

  lemma {:induction false} NodeItemsAgree(p: Props, kind: Kind, pool: seq<ResourceBlock>)
    requires NodeItemsIn(p, kind, pool)
    ensures AgreeOn(pool, kind) <==> NodeItemsApart(p, kind)
  {
    hide NodeSite, NodePrefix, ProviderRef, SanitizeName;
    if AgreeOn(pool, kind) {
      forall a, x, b, y | NodeSite(p, kind, a, x) && NodeSite(p, kind, b, y)
                          && NodePrefix(kind, a) + SanitizeName(x.name) == NodePrefix(kind, b) + SanitizeName(y.name)
        ensures a == b && x == y
      {
        var r, s := NodeItemAt(kind, a, x), NodeItemAt(kind, b, y);
        assert SameAddress(r, s) && r in pool && s in pool;
        SameItems(r, s, NodePrefix(kind, a), x, ProviderRef(a), [], NodePrefix(kind, b), y, ProviderRef(b), []);
        SameVia(a, b);
      }
    }
  }

  lemma {:induction false} OriginalUsersAgree(p: Props, pool: seq<ResourceBlock>)
    requires OriginalUsersIn(p, pool)
    ensures AgreeOn(pool, OriginalUser) <==> OriginalUsersApart(p)
  {
    hide OriginalSite, OriginalUserPrefix, SanitizeName;
    if AgreeOn(pool, OriginalUser) {
      forall a, x, b, y | OriginalSite(p, a, x) && OriginalSite(p, b, y)
                          && OriginalUserPrefix(a) + SanitizeName(x.name) == OriginalUserPrefix(b) + SanitizeName(y.name)
        ensures x == y
      {
        var r, s := OriginalAt(a, x), OriginalAt(b, y);
        assert SameAddress(r, s) && r in pool && s in pool;
        SameItems(r, s, OriginalUserPrefix(a), x, "", [], OriginalUserPrefix(b), y, "", []);
      }
    }
  }

  /** An alias belongs to one part only. */
  lemma {:induction false} PartOfAlias(p: Props, t: Part, u: Part, a: string)
    requires Distinct(ReplicaSetNames(p))
    requires t in Parts(p) && u in Parts(p) && a in PartAliases(t) && a in PartAliases(u)
    ensures t == u
  {
    var k: nat, l: nat :| k < |Parts(p)| && Parts(p)[k] == t && l < |Parts(p)| && Parts(p)[l] == u;
    if k < l {
      PartsAreApart(p, k, l);
      ApartShareNoAlias(t, u, a);
    } else if l < k {
      PartsAreApart(p, l, k);
      ApartShareNoAlias(u, t, a);
    }
  }

  /** On one alias, users that wait for as many roles wait for the same. */
  lemma {:induction false} RolesOfUser(p: Props, a: string, x: Named, roles: seq<Named>, y: Named, roles': seq<Named>)
    requires Distinct(ReplicaSetNames(p))
    requires UserSite(p, a, x, roles) && UserSite(p, a, y, roles') && |roles| == |roles'|
    ensures roles == roles'
  {
    forall t, u | t in Parts(p) && u in Parts(p) && a in PartAliases(t) && a in PartAliases(u) ensures t == u {
      PartOfAlias(p, t, u, a);
    }
    hide Parts, PartAliases, UserTargets, Distinct, ReplicaSetNames;
    assert roles == p.roles || exists t :: t in Parts(p) && a in PartAliases(t) && roles == p.roles + t.group.roles;
    assert roles' == p.roles || exists t :: t in Parts(p) && a in PartAliases(t) && roles' == p.roles + t.group.roles;
  }

  lemma {:induction false} AsManyRoles(a: string, roles: seq<Named>, roles': seq<Named>)
    requires multiset(Refs(RoleBlocks(a, roles))) == multiset(Refs(RoleBlocks(a, roles')))
    ensures |roles| == |roles'|
  {
    SameLength(Refs(RoleBlocks(a, roles)), Refs(RoleBlocks(a, roles')));
  }

  lemma {:induction false} UsersAgree(p: Props, pool: seq<ResourceBlock>)
    requires UsersIn(p, pool)
    requires Distinct(ReplicaSetNames(p))
    ensures AgreeOn(pool, DbUser) <==> UsersApart(p)
  {
    hide UserSite, UserPrefix, ProviderRef, SanitizeName, Refs, RoleBlocks, Distinct;
    if AgreeOn(pool, DbUser) {
      forall a, x, roles, b, y, roles' | UserSite(p, a, x, roles) && UserSite(p, b, y, roles')
                                         && UserPrefix(a) + SanitizeName(x.name) == UserPrefix(b) + SanitizeName(y.name)
        ensures a == b && x == y && roles == roles'
      {
        var r, s := UserAt(a, x, roles), UserAt(b, y, roles');
        assert SameAddress(r, s) && r in pool && s in pool;
        SameItems(r, s, UserPrefix(a), x, ProviderRef(a), Refs(RoleBlocks(a, roles)),
                  UserPrefix(b), y, ProviderRef(b), Refs(RoleBlocks(b, roles')));
        SameVia(a, b);
        AsManyRoles(a, roles, roles');
        RolesOfUser(p, a, x, roles, y, roles');
      }
    }
  }

  /** The parts with a shard_config are the replica sets, in the order of their names. */
  lemma {:induction false} ConfigSites(p: Props, k: nat)
    requires k < |Parts(p)|
    ensures ReplicaSetNames(p) != []
    ensures Parts(p)[k].component != Mongos ==> k < |ReplicaSetNames(p)|
    ensures k < |ReplicaSetNames(p)| ==> Parts(p)[k].component != Mongos && Parts(p)[k].name == ReplicaSetNames(p)[k]
    ensures |ReplicaSetNames(p)| <= |Parts(p)|
    ensures k < |ReplicaSetNames(p)| && PartProblem(Parts(p)[k]).None? ==> Parts(p)[k].group.members != []
  {
  }

  lemma {:induction false} NameOfConfig(p: Props, t: Part) returns (k: nat)
    requires ConfigSite(p, t)
    ensures k < |ReplicaSetNames(p)| <= |Parts(p)| && Parts(p)[k] == t && ReplicaSetNames(p)[k] == t.name
  {
    k :| k < |Parts(p)| && Parts(p)[k] == t;
    ConfigSites(p, k);
  }

  lemma {:induction false} ConfigOfName(p: Props, n: string) returns (t: Part)
    requires ClusterVerdict(p).Fine? && n in ReplicaSetNames(p)
    ensures ConfigSite(p, t) && t.name == n
  {
    FinePartsAreValid(p);
    var k: nat :| k < |ReplicaSetNames(p)| && ReplicaSetNames(p)[k] == n;
    ConfigSites(p, 0);
    t := Parts(p)[k];
    ConfigSites(p, k);
  }

  lemma {:induction false} SuffixCut(a: string, b: string, suffix: string)
    ensures a + suffix == b + suffix ==> a == b
  {
    if a + suffix == b + suffix {
      assert a == (a + suffix)[..|a + suffix| - |suffix|] && b == (b + suffix)[..|b + suffix| - |suffix|];
    }
  }

  lemma {:induction false} ConfigsAgree(p: Props, pool: seq<ResourceBlock>)
    requires ConfigsIn(p, pool)
    requires ClusterVerdict(p).Fine?
    ensures AgreeOn(pool, ShardConfig) <==> ReplicaSetsApart(p)
  {
    hide ReplicaSetNames, Parts, PartAliases, ProviderRef, SanitizeName;
    assert Distinct(ReplicaSetNames(p));
    hide ClusterVerdict;
    if AgreeOn(pool, ShardConfig) {
      forall n, m | n in ReplicaSetNames(p) && m in ReplicaSetNames(p) && SanitizeName(n) == SanitizeName(m)
        ensures n == m
      {
        var t := ConfigOfName(p, n);
        var u := ConfigOfName(p, m);
        assert SameAddress(ConfigAt(t), ConfigAt(u)) && EntryOf(ConfigAt(t)) == EntryOf(ConfigAt(u));
        assert ([n] + t.settings)[0] == n && ([m] + u.settings)[0] == m;
      }
    } else {
      var r, s :| r in pool && s in pool && r.kind == ShardConfig && SameAddress(r, s)
                  && EntryOf(r) != EntryOf(s);
      var t :| ConfigSite(p, t) && r == ConfigAt(t);
      var u :| ConfigSite(p, u) && s == ConfigAt(u);
      SuffixCut(SanitizeName(t.name), SanitizeName(u.name), "_config");
      var k := NameOfConfig(p, t);
      var l := NameOfConfig(p, u);
      assert t != u;
      assert t.name in ReplicaSetNames(p) && u.name in ReplicaSetNames(p) && t.name != u.name;
    }
  }

  lemma {:induction false} VersionsAgree(p: Props, pool: seq<ResourceBlock>)
    requires VersionsIn(p, pool)
    ensures AgreeOn(pool, Fcv)
  {
    forall r, s | r in pool && s in pool && r.kind == Fcv && SameAddress(r, s)
      ensures EntryOf(r) == EntryOf(s)
    {
      hide Parts, Compatibility;
      var t :| t in Parts(p) && r in Compatibility(p, t);
      var u :| u in Parts(p) && s in Compatibility(p, u);
      OneVersion(p, t, r, u, s);
    }
  }

  lemma {:induction false} OneVersion(p: Props, t: Part, r: ResourceBlock, u: Part, s: ResourceBlock)
    requires r in Compatibility(p, t) && s in Compatibility(p, u) && r.name == s.name
    ensures r == s
  {
    assert |PartAliases(t)| == |t.group.members| && |PartAliases(u)| == |u.group.members|;
    hide PartAliases, ProviderRef;
    SuffixCut(PartAliases(t)[0], PartAliases(u)[0], "_fcv");
  }

  lemma {:induction false} RegistrationsAgree(p: Props, pool: seq<ResourceBlock>)
    requires RegistrationsIn(p, pool)
    requires Distinct(ReplicaSetNames(p)) && ReplicaSetsApart(p)
    ensures AgreeOn(pool, MongoShard)
  {
    forall r, s | r in pool && s in pool && r.kind == MongoShard && SameAddress(r, s)
      ensures r == s
    {
      hide RegistrationAt;
      var i: nat :| i < |p.shards| && r == RegistrationAt(p, i);
      var j: nat :| j < |p.shards| && s == RegistrationAt(p, j);
      OneRegistration(p, i, j);
    }
  }

  lemma {:induction false} OneRegistration(p: Props, i: nat, j: nat)
    requires Distinct(ReplicaSetNames(p)) && ReplicaSetsApart(p)
    requires i < |p.shards| && j < |p.shards| && RegistrationAt(p, i).name == RegistrationAt(p, j).name
    ensures i == j
  {
    var x, y := p.shards[i].name, p.shards[j].name;
    PrefixCut("shard_", SanitizeName(x), SanitizeName(y));
    assert SanitizeName(x) == SanitizeName(y);
    var names := ReplicaSetNames(p);
    assert names[1 + i] == x && names[1 + j] == y;
    hide ReplicaSetNames, SanitizeName, RegistrationAt;
  }

  lemma {:induction false} PrefixCut(prefix: string, a: string, b: string)
    ensures prefix + a == prefix + b ==> a == b
  {
    assert (prefix + a)[|prefix|..] == a && (prefix + b)[|prefix|..] == b;
  }

  function RegistrationAt(p: Props, i: nat): ResourceBlock
    requires i < |p.shards|
  {
    Item(MongoShard, "shard_", Named(p.shards[i].name, HostPorts(p.shards[i].group.members)), ProviderRef(FIRST_MONGOS), [])
  }

  lemma {:induction false} BalancerAgrees(p: Props, pool: seq<ResourceBlock>)
    requires BalancersIn(p, pool)
    ensures AgreeOn(pool, BalancerConfig)
  {
    hide Refs, ProviderRef, Registrations;
  }

  function ZoneAt(p: Props, z: Zone): ResourceBlock {
    ResourceBlock(ShardZone, SanitizeName(z.shard) + "_" + SanitizeName(z.zone), [z.shard, z.zone],
                  ProviderRef(FIRST_MONGOS), Refs(Registrations(p, FIRST_MONGOS)))
  }

  lemma {:induction false} ZonesAgree(p: Props, pool: seq<ResourceBlock>)
    requires ZonesIn(p, pool)
    ensures AgreeOn(pool, ShardZone) <==> ZonesApart(p)
  {
    hide SanitizeName, Registrations, Refs, ProviderRef;
    if AgreeOn(pool, ShardZone) {
      forall z, w | z in p.zones && w in p.zones
                    && SanitizeName(z.shard) + "_" + SanitizeName(z.zone)
                       == SanitizeName(w.shard) + "_" + SanitizeName(w.zone)
        ensures z == w
      {
        assert ZoneAt(p, z) in pool && ZoneAt(p, w) in pool;
        assert SameAddress(ZoneAt(p, z), ZoneAt(p, w)) && [z.shard, z.zone] == [w.shard, w.zone];
        assert [z.shard, z.zone][0] == z.shard && [z.shard, z.zone][1] == z.zone;
      }
    }
  }

  lemma {:induction false} RangesAgree(p: Props, pool: seq<ResourceBlock>)
    requires RangesIn(p, pool)
    ensures AgreeOn(pool, ZoneKeyRange)
  {
    forall r, s | r in pool && s in pool && r.kind == ZoneKeyRange && SameAddress(r, s) ensures r == s {
      var i: nat :| i < |p.ranges| && r == RangeAt(p, i);
      var j: nat :| j < |p.ranges| && s == RangeAt(p, j);
      hide Refs, ProviderRef, Zones, SanitizeName, Decimal;
      OneRange(p.ranges, i, j);
    }
  }

  lemma {:induction false} OneRange(ranges: seq<Range>, i: nat, j: nat)
    requires i < |ranges| && j < |ranges|
    requires SanitizeName(ranges[i].namespace) + "_" + SanitizeName(ranges[i].zone) + "_" + Decimal(i)
             == SanitizeName(ranges[j].namespace) + "_" + SanitizeName(ranges[j].zone) + "_" + Decimal(j)
    ensures i == j
  {
    var x, y := ranges[i], ranges[j];
    LastCutIsUnique(SanitizeName(x.namespace) + "_" + SanitizeName(x.zone), Decimal(i), '_',
                    SanitizeName(y.namespace) + "_" + SanitizeName(y.zone), Decimal(j));
    DecimalIsInjective(i, j);
  }

  lemma {:induction false} CollectionsAgree(p: Props, pool: seq<ResourceBlock>)
    requires CollectionsIn(p, pool)
    ensures AgreeOn(pool, CollBalancing) <==> CollectionsApart(p)
  {
    hide SanitizeName, Refs, ProviderRef, Registrations;
    if AgreeOn(pool, CollBalancing) {
      forall x, y | x in p.collections && y in p.collections && SanitizeName(x.name) == SanitizeName(y.name) ensures x == y {
        var r, s := CollectionAt(p, x), CollectionAt(p, y);
        assert SameAddress(r, s) && r in pool && s in pool;
        var via, deps := ProviderRef(FIRST_MONGOS), Refs(Registrations(p, FIRST_MONGOS));
        SameItems(r, s, "colbal_", x, via, deps, "colbal_", y, via, deps);
      }
    } else {
      var r, s :| r in pool && s in pool && r.kind == CollBalancing && SameAddress(r, s)
                  && EntryOf(r) != EntryOf(s);
      var x :| x in p.collections && r == CollectionAt(p, x);
      var y :| y in p.collections && s == CollectionAt(p, y);
      PrefixCut("colbal_", SanitizeName(x.name), SanitizeName(y.name));
    }
  }

  // ------------------------------------------------------ the document

  /** Resources of one address agree exactly when no two declarations that differ end up under one resource name. */
  lemma {:induction false} BlocksAgreeExactlyWhen(p: Props)
    requires ClusterVerdict(p).Fine?
    ensures BlocksAgree(ClusterResources(p)) <==> NamesKeepApart(p)
  {
    hide ClusterVerdict, Distinct, Parts, ReplicaSetNames, BlocksAgree, ClusterResources, AgreeOn, RolesIn, UsersIn,
         OriginalUsersIn, NodeItemsIn, ConfigsIn, VersionsIn, RegistrationsIn, BalancersIn, ZonesIn, RangesIn,
         CollectionsIn, RolesApart, UsersApart,
         OriginalUsersApart, NodeItemsApart, ReplicaSetsApart, ZonesApart, CollectionsApart;
    BuiltNamesAreDistinct(p);
    var pool := ClusterResources(p);
    AccountsAreDeclared(p);
    NodesAreDeclared(p);
    RoutedAreDeclared(p);
    AgreeKindByKind(pool);
    RolesAgree(p, pool);
    UsersAgree(p, pool);
    OriginalUsersAgree(p, pool);
    NodeItemsAgree(p, Profiler, pool);
    NodeItemsAgree(p, ServerParameter, pool);
    ConfigsAgree(p, pool);
    VersionsAgree(p, pool);
    if ReplicaSetsApart(p) {
      RegistrationsAgree(p, pool);
    }
    BalancerAgrees(p, pool);
    ZonesAgree(p, pool);
    RangesAgree(p, pool);
    CollectionsAgree(p, pool);
  }

  lemma {:induction false} BuiltNamesAreDistinct(p: Props)
    requires ClusterVerdict(p).Fine?
    ensures Distinct(ReplicaSetNames(p))
  {
  }

  ghost predicate AllAgree(pool: seq<ResourceBlock>) {
    && AgreeOn(pool, DbRole) && AgreeOn(pool, DbUser) && AgreeOn(pool, OriginalUser) && AgreeOn(pool, Profiler)
    && AgreeOn(pool, ServerParameter) && AgreeOn(pool, ShardConfig) && AgreeOn(pool, Fcv) && AgreeOn(pool, MongoShard)
    && AgreeOn(pool, BalancerConfig) && AgreeOn(pool, ShardZone) && AgreeOn(pool, ZoneKeyRange) && AgreeOn(pool, CollBalancing)
  }

  lemma {:induction false} KindAgrees(pool: seq<ResourceBlock>, k: Kind)
    requires AllAgree(pool)
    ensures AgreeOn(pool, k)
  {
    hide AgreeOn;
  }

  lemma {:induction false} AgreeKindByKind(pool: seq<ResourceBlock>)
    ensures BlocksAgree(pool) <==> AllAgree(pool)
  {
    hide EntryOf;
    if AllAgree(pool) {
      forall a, b | a in pool && b in pool && SameAddress(a, b)
        ensures EntryOf(a) == EntryOf(b)
      {
        KindAgrees(pool, a.kind);
        hide AllAgree;
      }
    }
    if BlocksAgree(pool) {
      forall k: Kind ensures AgreeOn(pool, k) {}
      hide AgreeOn;
    }
  }

  /** No other sorted arrangement of the cluster's blocks is written differently. */
  ghost predicate OnlyDocument(p: Props, ps: seq<ProviderBlock>, rs: seq<ResourceBlock>) {
    forall ps', rs' | IsSorted(ps', Alias, ClusterProviders(p)) && IsSorted(rs', Address, ClusterResources(p)) ::
      Written(ps', rs') == Written(ps, rs)
  }

  /** The document of a cluster is determined by its properties exactly when their names keep apart. */
  lemma {:induction false} DocumentIsDeterministicExactlyWhen(p: Props, ps: seq<ProviderBlock>, rs: seq<ResourceBlock>)
    requires ClusterVerdict(p).Fine?
    ensures IsSorted(ps, Alias, ClusterProviders(p)) && IsSorted(rs, Address, ClusterResources(p)) ==>
              (NamesKeepApart(p) <==> OnlyDocument(p, ps, rs))
  {
    hide ClusterProviders, ClusterResources, ClusterVerdict, Written, IsSorted, BlocksAgree, NamesKeepApart;
    BlocksAgreeExactlyWhen(p);
    if IsSorted(ps, Alias, ClusterProviders(p)) && IsSorted(rs, Address, ClusterResources(p)) {
      ClusterDocumentIsDeterministicExactlyWhen(p, ps, rs);
    }
  }
}
