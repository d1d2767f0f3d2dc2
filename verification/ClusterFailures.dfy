/**
 * Inputs on which the generator falls short of what one would expect of it:
 * valid properties that panic, and a cluster whose document depends on how the
 * sort breaks ties.
 */
module ClusterFailures {
  import opened Wrappers
  import opened Text
  import opened Terraform
  import opened TerraformLaws
  import opened ClusterPlan
  import opened ClusterLaws
  import opened ClusterNames

  function NodeOf(host: string): Node {
    Node(host, 0, None)
  }

  function ThreeNodes(): Group {
    Group([NodeOf("a"), NodeOf("b"), NodeOf("c")], [], [], [])
  }

  /** A config server and one shard of three nodes each, with these mongos groups, cluster roles and credentials. */
  function Small(mongos: seq<Group>, roles: seq<Named>, credentials: Option<Credentials>): Props {
    Props(mongos, ReplicaSet("cfg", ThreeNodes(), []), [ReplicaSet("rs", ThreeNodes(), [])],
          credentials, [], roles, [], false, None, [], [], [], [], [], None)
  }

  lemma {:induction false} HostPortsDiffer(a: string, b: string)
    requires |a| == |b| == 1 && a != b
    ensures HostPort(NodeOf(a)) != HostPort(NodeOf(b))
  {
    assert HostPort(NodeOf(a))[0] == a[0] && HostPort(NodeOf(b))[0] == b[0];
  }

  lemma {:induction false} ThreeNodesAreValid(c: Component, name: string, settings: Body)
    requires name != ""
    ensures PartProblem(Part(c, name, ThreeNodes(), settings, 0)).None?
  {
    HostPortsDiffer("a", "b");
    HostPortsDiffer("a", "c");
    HostPortsDiffer("b", "c");
    var ports := HostPorts(ThreeNodes().members);
    assert ports == [HostPort(NodeOf("a")), HostPort(NodeOf("b")), HostPort(NodeOf("c"))];
    hide HostPort, HostPorts;
    assert Distinct(ports);
  }

  /** With one mongos group of at most one node, these properties are valid. */
  lemma {:induction false} SmallIsValid(members: seq<Node>, roles: seq<Named>, credentials: Option<Credentials>)
    requires |members| <= 1
    ensures Valid(Small([Group(members, [], [], [])], roles, credentials))
  {
    var mongos := [Group(members, [], [], [])];
    var p := Small(mongos, roles, credentials);
    ThreeNodesAreValid(ConfigServer, "cfg", []);
    ThreeNodesAreValid(Shard, "rs", []);
    assert Parts(p) == [ReplicaSetPart(ConfigServer, p.configServers), ReplicaSetPart(Shard, p.shards[0]),
                        MongosPart(mongos, 0)];
    assert ReplicaSetNames(p) == ["cfg", "rs"];
    assert PartProblem(MongosPart(mongos, 0)).None? by {
      assert |HostPorts(members)| <= 1;
      hide HostPorts;
    }
    hide PartProblem, Parts, ReplicaSetNames;
  }

  const ADMIN := Some(Credentials("admin", "secret"))

  /** A mongos group without nodes is valid, and panics. */
  lemma {:induction false} EmptyMongosPanics()
    ensures var p := Small([Group([], [], [], [])], [], ADMIN);
            Valid(p) && OutOfRange(p) && !WithoutLogin(p) && ClusterVerdict(p).Panicked?
  {
    SmallIsValid([], [], ADMIN);
    BuiltExactlyWhen(Small([Group([], [], [], [])], [], ADMIN));
    hide Valid, ClusterVerdict;
  }

  /** Properties without any credentials are valid, and panic. */
  lemma {:induction false} MissingCredentialsPanic()
    ensures var p := Small([Group([NodeOf("m")], [], [], [])], [], None);
            Valid(p) && !OutOfRange(p) && WithoutLogin(p) && ClusterVerdict(p).Panicked?
  {
    var p := Small([Group([NodeOf("m")], [], [], [])], [], None);
    SmallIsValid([NodeOf("m")], [], None);
    BuiltExactlyWhen(p);
    assert Parts(p)[0] == ReplicaSetPart(ConfigServer, p.configServers);
    assert Parts(p)[0].group.members[0] == NodeOf("a");
    hide Valid, ClusterVerdict, Parts;
  }

  /** Two cluster roles that differ and sanitize alike make the document of any cluster ambiguous. */
  lemma {:induction false} CollidingRolesDisagree(p: Props, x: Named, y: Named)
    requires ClusterVerdict(p).Fine?
    requires x in p.roles && y in p.roles && x != y && SanitizeName(x.name) == SanitizeName(y.name)
    ensures !NamesKeepApart(p) && !BlocksAgree(ClusterResources(p))
  {
    BlocksAgreeExactlyWhen(p);
    hide ClusterResources, BlocksAgree, ClusterVerdict, Parts, PartAliases, SanitizeName, RolePrefix;
    var t, a := SomeAlias(p);
    assert x in p.roles + t.group.roles && y in p.roles + t.group.roles;
    assert RoleSite(p, a, x) && RoleSite(p, a, y);
    RolesMeet(p, a, x, y);
  }

  lemma {:induction false} RolesMeet(p: Props, a: string, x: Named, y: Named)
    requires x != y && SanitizeName(x.name) == SanitizeName(y.name)
    ensures NamesKeepApart(p) ==> !(RoleSite(p, a, x) && RoleSite(p, a, y))
  {
    hide RoleSite, SanitizeName, RolePrefix, UsersApart, OriginalUsersApart, NodeItemsApart,
         ReplicaSetsApart, ZonesApart, CollectionsApart;
  }

  lemma {:induction false} SomeAlias(p: Props) returns (t: Part, a: string)
    requires ClusterVerdict(p).Fine?
    ensures t in Parts(p) && a in PartAliases(t)
  {
    FinePartsAreValid(p);
    t := Parts(p)[0];
    assert PartProblem(t).None? && t.component != Mongos;
    a := PartAliases(t)[0];
  }

  /**
   * Cluster roles "a.b" and "a_b" of different settings get one resource name
   * on every alias: the cluster is built, and which of the two its document
   * holds depends on how the sort breaks the tie.
   */
  lemma {:induction false} CollidingRolesAreAmbiguous()
    ensures var p := Small([Group([NodeOf("m")], [], [], [])], [Named("a.b", ["x"]), Named("a_b", ["y"])], ADMIN);
            && Valid(p) && !OutOfRange(p) && ClusterVerdict(p).Fine?
            && !NamesKeepApart(p) && !BlocksAgree(ClusterResources(p))
  {
    var x, y := Named("a.b", ["x"]), Named("a_b", ["y"]);
    var p := Small([Group([NodeOf("m")], [], [], [])], [x, y], ADMIN);
    SmallIsValid([NodeOf("m")], [x, y], ADMIN);
    BuiltExactlyWhen(p);
    SameSanitized();
    assert x.settings[0] == "x" && y.settings[0] == "y";
    hide Valid, ClusterVerdict, SanitizeName, NamesKeepApart, BlocksAgree, ClusterResources;
    CollidingRolesDisagree(p, x, y);
  }

  lemma {:induction false} SameSanitized()
    ensures SanitizeName("a.b") == SanitizeName("a_b")
  {
    assert SanitizeName("a.b") == "a_b" == SanitizeName("a_b");
  }
}
