/**
 * Nothing declared is forgotten: every node has a provider with the right
 * connection, and every user waits for every role of its component on the same
 * node.
 */
module ClusterCoverage {
  import opened Wrappers
  import Text
  import opened Terraform
  import opened ClusterPlan
  import opened ClusterLaws

  lemma {:induction false} ProvidersOfPart(p: Props, parts: seq<Part>, k: nat)
    requires k < |parts|
    ensures Among(PartProviders(p, parts[k]), AllProviders(p, parts))
    decreases |parts|
  {
    hide PartProviders;
    if k < |parts| - 1 {
      ProvidersOfPart(p, parts[..|parts| - 1], k);
    }
  }

  lemma {:induction false} ResourcesOfPart(p: Props, parts: seq<Part>, k: nat)
    requires k < |parts|
    ensures Among(PartResources(p, parts[k]), AllResources(p, parts))
    decreases |parts|
  {
    hide PartResources;
    if k < |parts| - 1 {
      ResourcesOfPart(p, parts[..|parts| - 1], k);
    }
  }

  function LoginBody(c: Credentials): Body {
    [c.username, c.password]
  }

  /**
   * Node i of component k is connected to under its own alias: by its own
   * credentials if it has some, else the cluster's; by the default port if it
   * names none; directly unless it is a mongos.
   */
  lemma {:induction false} EveryNodeIsProvided(p: Props, k: nat, i: nat) returns (b: ProviderBlock)
    requires k < |Parts(p)| && i < |Parts(p)[k].group.members|
    ensures b in ClusterProviders(p) && b.alias == PartAliases(Parts(p)[k])[i]
    ensures var node := Parts(p)[k].group.members[i];
            && |b.body| >= 4 && b.body[0] == node.host
            && (node.port != 0 ==> b.body[1] == Text.Decimal(node.port))
            && (node.port == 0 ==> b.body[1] == Text.Decimal(DEFAULT_PORT))
            && b.body[|b.body| - 2..] == [AUTH_DATABASE, if Parts(p)[k].component != Mongos then "direct" else "routed"]
            && (node.credentials.Some? ==> b.body[2..|b.body| - 2] == LoginBody(node.credentials.value))
            && (node.credentials.None? && p.credentials.Some? ==>
                  b.body[2..|b.body| - 2] == LoginBody(p.credentials.value))
  {
    var t := Parts(p)[k];
    ProvidersOfPart(p, Parts(p), k);
    b := PartProviders(p, t)[i];
    hide Parts, AllProviders;
    assert b in AllProviders(p, Parts(p));
  }

  lemma {:induction false} RolesOfAlias(on: seq<string>, roles: seq<Named>, i: nat)
    requires i < |on|
    ensures Among(RoleBlocks(on[i], roles), Roles(on, roles))
    decreases |on|
  {
    hide RoleBlocks;
    if i < |on| - 1 {
      RolesOfAlias(on[..|on| - 1], roles, i);
    }
  }

  ghost function UserBlocks(alias: string, users: seq<Named>, roles: seq<Named>): seq<ResourceBlock> {
    Blocks(DbUser, UserPrefix(alias), users, ProviderRef(alias), Refs(RoleBlocks(alias, roles)))
  }

  lemma {:induction false} UsersOfAlias(on: seq<string>, users: seq<Named>, roles: seq<Named>, i: nat)
    requires i < |on|
    ensures Among(UserBlocks(on[i], users, roles), Users(on, users, roles))
    decreases |on|
  {
    hide Blocks, Refs, RoleBlocks;
    if i < |on| - 1 {
      UsersOfAlias(on[..|on| - 1], users, roles, i);
    }
  }

  lemma {:induction false} AccountsOfPart(p: Props, t: Part, i: nat)
    requires i < |t.group.members|
    ensures var roles := MergeRoles(p.roles, t.group.roles);
            && Among(RoleBlocks(PartAliases(t)[i], roles), PartResources(p, t))
            && Among(UserBlocks(PartAliases(t)[i], t.group.users, roles), PartResources(p, t))
  {
    var roles := MergeRoles(p.roles, t.group.roles);
    RolesOfAlias(PartAliases(t), roles, i);
    UsersOfAlias(PartAliases(t), t.group.users, roles, i);
    hide Roles, Users, RoleBlocks, UserBlocks, PartAliases, FirstMemberResources, PerNode, Compatibility;
  }

  /**
   * On node i of component k, user u is created through that node's provider
   * and depends on role r of the component or the cluster, created there too.
   */
  lemma {:induction false} UsersAwaitTheirRoles(p: Props, k: nat, i: nat, u: nat, r: nat)
    returns (user: ResourceBlock, role: ResourceBlock)
    requires k < |Parts(p)| && i < |Parts(p)[k].group.members|
    requires u < |Parts(p)[k].group.users| && r < |p.roles + Parts(p)[k].group.roles|
    ensures user in ClusterResources(p) && role in ClusterResources(p)
    ensures var t := Parts(p)[k];
            var via := ProviderRef(PartAliases(t)[i]);
            && user.kind == DbUser && user.provider == via
            && user.body == [t.group.users[u].name] + t.group.users[u].settings
            && role.kind == DbRole && role.provider == via
            && role.body == [(p.roles + t.group.roles)[r].name] + (p.roles + t.group.roles)[r].settings
    ensures Address(role) in user.dependsOn
  {
    var t := Parts(p)[k];
    var alias, roles := PartAliases(t)[i], MergeRoles(p.roles, t.group.roles);
    role, user := RoleBlocks(alias, roles)[r], UserBlocks(alias, t.group.users, roles)[u];
    assert Refs(RoleBlocks(alias, roles))[r] == Address(role);
    assert role in RoleBlocks(alias, roles) && user in UserBlocks(alias, t.group.users, roles);
    AccountsOfPart(p, t, i);
    ResourcesOfPart(p, Parts(p), k);
    hide RoleBlocks, UserBlocks, Blocks, Address, Refs, PartResources, AllResources, Parts, PartAliases, ClusterAccounts,
         Routed;
    assert role in AllResources(p, Parts(p)) && user in AllResources(p, Parts(p));
  }
}
