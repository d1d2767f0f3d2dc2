/**
 * The synthesis engine of the cluster generator: a stack accumulates provider
 * aliases and resource blocks and writes them out as one Terraform document,
 * in an order that does not depend on the order they were added in.
 */
module Terraform {
  import opened Wrappers
  import opened Text

  // ------------------------------------------------------ blocks, addresses, references

  const PROVIDER_TYPE := "mongodb"

  /** The resource types the generator writes. */
  datatype Kind =
    | DbRole | DbUser | ShardConfig | OriginalUser | MongoShard | BalancerConfig | ShardZone | ZoneKeyRange
    | CollBalancing | Profiler | ServerParameter | Fcv

  function TypeName(k: Kind): string {
    match k
    case DbRole => "mongodb_db_role"
    case DbUser => "mongodb_db_user"
    case ShardConfig => "mongodb_shard_config"
    case OriginalUser => "mongodb_original_user"
    case MongoShard => "mongodb_shard"
    case BalancerConfig => "mongodb_balancer_config"
    case ShardZone => "mongodb_shard_zone"
    case ZoneKeyRange => "mongodb_zone_key_range"
    case CollBalancing => "mongodb_collection_balancing"
    case Profiler => "mongodb_profiler"
    case ServerParameter => "mongodb_server_parameter"
    case Fcv => "mongodb_feature_compatibility_version"
  }

  lemma {:induction false} TypeNameHasNoDot(k: Kind)
    ensures '.' !in TypeName(k)
  {
    if |TypeName(k)| < 19 {
      ShortTypeName(k);
    } else if |TypeName(k)| < 23 {
      MiddleTypeName(k);
    } else if |TypeName(k)| < 28 {
      LongTypeName(k);
    } else {
      LongestTypeName(k);
    }
  }

  lemma {:induction false} ShortTypeName(k: Kind)
    requires |TypeName(k)| < 19
    ensures '.' !in TypeName(k)
  {
  }

  lemma {:induction false} MiddleTypeName(k: Kind)
    requires 19 <= |TypeName(k)| < 23
    ensures '.' !in TypeName(k)
  {
  }

  lemma {:induction false} LongTypeName(k: Kind)
    requires 23 <= |TypeName(k)| < 28
    ensures '.' !in TypeName(k)
  {
  }

  lemma {:induction false} LongestTypeName(k: Kind)
    requires |TypeName(k)| >= 28
    ensures '.' !in TypeName(k)
  {
  }

  /** A block's own settings, as texts. */
  type Body = seq<string>

  datatype ProviderBlock = ProviderBlock(alias: string, body: Body)

  /** A resource; it has no provider when its connection is inline. */
  datatype ResourceBlock = ResourceBlock(kind: Kind, name: string, body: Body, provider: string,
                                         dependsOn: seq<string>)

  function ProviderRef(alias: string): string {
    PROVIDER_TYPE + "." + alias
  }

  function Ref(kind: Kind, name: string): string {
    TypeName(kind) + "." + name
  }

  function Address(r: ResourceBlock): string {
    Ref(r.kind, r.name)
  }

  // ------------------------------------------------------ the stack

  class TerraformStack {
    var providers: seq<ProviderBlock>
    var resources: seq<ResourceBlock>

    constructor ()
      ensures providers == [] && resources == []
    {
      providers, resources := [], [];
    }

    method AddProvider(alias: string, body: Body)
      modifies this
      ensures providers == old(providers) + [ProviderBlock(alias, body)] && resources == old(resources)
    {
      providers := providers + [ProviderBlock(alias, body)];
    }

    method AddResource(kind: Kind, name: string, body: Body, provider: string, dependsOn: seq<string>)
      modifies this
      ensures resources == old(resources) + [ResourceBlock(kind, name, body, provider, dependsOn)]
      ensures providers == old(providers)
    {
      resources := resources + [ResourceBlock(kind, name, body, provider, dependsOn)];
    }

    /**
     * Writes the document from the blocks as sort.Slice ordered them: any
     * permutation that is sorted, for the sort need not keep ties in order.
     */
    method Synth(ps: seq<ProviderBlock>, rs: seq<ResourceBlock>) returns (doc: Document)
      requires IsSorted(ps, Alias, providers) && IsSorted(rs, Address, resources)
      ensures doc == Written(ps, rs)
    {
      hide TypeName, AtMost;
      var grouped: map<Kind, map<string, Entry>> := map[];
      for i := 0 to |rs|
        invariant grouped == Grouped(rs[..i])
      {
        var r := rs[i];
        assert rs[..i + 1] == rs[..i] + [r];
        GroupedAppended(rs[..i], r);
        if r.kind !in grouped {
          grouped := grouped[r.kind := map[]];
        }
        grouped := grouped[r.kind := grouped[r.kind][r.name := EntryOf(r)]];
      }
      assert rs[..|rs|] == rs;
      return Document(ps, grouped);
    }
  }

  // ------------------------------------------------------ the document

  /** A block as written; depends_on is written sorted, so only what it holds matters. */
  datatype Entry = Entry(body: Body, provider: Option<string>, dependsOn: multiset<string>)

  datatype Document = Document(providers: seq<ProviderBlock>, resources: map<Kind, map<string, Entry>>)

  function EntryOf(r: ResourceBlock): Entry {
    Entry(r.body, if r.provider != "" then Some(r.provider) else None, multiset(r.dependsOn))
  }

  function Alias(p: ProviderBlock): string {
    p.alias
  }

  ghost predicate IsSorted<T(!new)>(s: seq<T>, key: T -> string, from: seq<T>) {
    multiset(s) == multiset(from) && IsOrdered(s, key)
  }

  ghost predicate IsOrdered<T(!new)>(s: seq<T>, key: T -> string) {
    forall i, j | 0 <= i < j < |s| :: AtMost(key(s[i]), key(s[j]))
  }

  /** Resources grouped by kind and name; a later block replaces an earlier one of its address. */
  function Grouped(rs: seq<ResourceBlock>): map<Kind, map<string, Entry>> {
    if rs == [] then map[]
    else
      var g, r := Grouped(rs[..|rs| - 1]), rs[|rs| - 1];
      g[r.kind := (if r.kind in g then g[r.kind] else map[])[r.name := EntryOf(r)]]
  }

  function Written(ps: seq<ProviderBlock>, rs: seq<ResourceBlock>): Document {
    Document(ps, Grouped(rs))
  }

  lemma {:induction false} GroupedAppended(rs: seq<ResourceBlock>, r: ResourceBlock)
    ensures var g := Grouped(rs);
            Grouped(rs + [r]) == g[r.kind := (if r.kind in g then g[r.kind] else map[])[r.name := EntryOf(r)]]
  {
    assert (rs + [r])[..|rs|] == rs;
  }

  // ------------------------------------------------------ what the document holds

  ghost predicate Holds(g: map<Kind, map<string, Entry>>, kind: Kind, name: string) {
    kind in g && name in g[kind]
  }

  predicate SameAddress(a: ResourceBlock, b: ResourceBlock) {
    a.kind == b.kind && a.name == b.name
  }

  ghost predicate Somewhere(rs: seq<ResourceBlock>, kind: Kind, name: string) {
    exists i :: 0 <= i < |rs| && rs[i].kind == kind && rs[i].name == name
  }

  /** The document has an entry for exactly the kinds and names some block was added under. */
  lemma {:induction false} GroupedHolds(rs: seq<ResourceBlock>, kind: Kind, name: string)
    ensures Holds(Grouped(rs), kind, name) <==> Somewhere(rs, kind, name)
  {
    if rs != [] {
      var front, r := rs[..|rs| - 1], rs[|rs| - 1];
      GroupedHolds(front, kind, name);
      SomewhereAppended(front, r, kind, name);
      hide Somewhere, EntryOf;
      assert rs == front + [r];
    }
  }

  lemma {:induction false} SomewhereAppended(rs: seq<ResourceBlock>, r: ResourceBlock, kind: Kind, name: string)
    ensures Somewhere(rs + [r], kind, name) <==> Somewhere(rs, kind, name) || (r.kind == kind && r.name == name)
  {
    assert (rs + [r])[|rs|] == r && forall i | 0 <= i < |rs| :: (rs + [r])[i] == rs[i];
  }

  /** No block behind i shares its address. */
  ghost predicate IsLast(rs: seq<ResourceBlock>, i: nat)
    requires i < |rs|
  {
    forall j | i < j < |rs| :: !SameAddress(rs[i], rs[j])
  }

  /** The last block of an address is the one written. */
  lemma {:induction false} LastIsWritten(rs: seq<ResourceBlock>, i: nat)
    requires i < |rs| && IsLast(rs, i)
    ensures Holds(Grouped(rs), rs[i].kind, rs[i].name)
    ensures Grouped(rs)[rs[i].kind][rs[i].name] == EntryOf(rs[i])
  {
    var front := rs[..|rs| - 1];
    if i < |rs| - 1 {
      assert front[i] == rs[i] && forall j | i < j < |front| :: front[j] == rs[j];
      LastIsWritten(front, i);
      assert !SameAddress(rs[i], rs[|rs| - 1]);
    }
  }

  lemma {:induction false} HasLast(rs: seq<ResourceBlock>, i: nat) returns (k: nat)
    requires i < |rs|
    ensures i <= k < |rs| && SameAddress(rs[i], rs[k]) && IsLast(rs, k)
    decreases |rs| - i
  {
    if j :| i < j < |rs| && SameAddress(rs[i], rs[j]) {
      k := HasLast(rs, j);
    } else {
      k := i;
    }
  }
}
