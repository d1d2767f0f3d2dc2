/**
 * The document is deterministic: providers with distinct aliases come out in
 * one order only, and the resources do not depend on how the sort breaks ties
 * exactly when blocks of one address agree.
 */
module TerraformLaws {
  import opened Wrappers
  import opened Text
  import opened Terraform

  // ------------------------------------------------------ the order of the providers

  ghost predicate KeyIsInjective<T(!new)>(s: seq<T>, key: T -> string) {
    forall x, y | x in s && y in s && key(x) == key(y) :: x == y
  }

  lemma {:induction false} HeadsAgree<T(!new)>(a: seq<T>, b: seq<T>, key: T -> string)
    requires multiset(a) == multiset(b) && IsOrdered(a, key) && IsOrdered(b, key) && KeyIsInjective(a, key)
    requires a != [] && b != []
    ensures a[0] == b[0]
  {
    assert a[0] in multiset(b) && b[0] in multiset(a);
    var i: nat, j: nat :| i < |b| && b[i] == a[0] && j < |a| && a[j] == b[0];
    AtMostIsReflexive(key(a[0]));
    assert AtMost(key(b[0]), key(b[i])) && AtMost(key(a[0]), key(a[j]));
    AtMostIsAntisymmetric(key(a[0]), key(b[0]));
  }

  lemma {:induction false} SameLength<T(!new)>(a: seq<T>, b: seq<T>)
    requires multiset(a) == multiset(b)
    ensures |a| == |b|
  {
    assert |a| == |multiset(a)| == |multiset(b)| == |b|;
  }

  lemma {:induction false} Cancel<T(!new)>(x: T, a: multiset<T>, b: multiset<T>)
    requires multiset{x} + a == multiset{x} + b
    ensures a == b
  {
    assert a == (multiset{x} + a) - multiset{x};
    assert b == (multiset{x} + b) - multiset{x};
  }

  lemma {:induction false} TailStaysOrdered<T(!new)>(a: seq<T>, key: T -> string)
    requires a != [] && IsOrdered(a, key) && KeyIsInjective(a, key)
    ensures IsOrdered(a[1..], key) && KeyIsInjective(a[1..], key)
    ensures multiset(a) == multiset{a[0]} + multiset(a[1..])
  {
    hide AtMost;
    assert a == [a[0]] + a[1..];
    assert forall i | 0 <= i < |a[1..]| :: a[1..][i] == a[i + 1];
  }

  /** Two ordered arrangements of the same items are the same when no two items share a key. */
  lemma {:induction false} OrderedIsUnique<T(!new)>(a: seq<T>, b: seq<T>, key: T -> string)
    requires multiset(a) == multiset(b) && IsOrdered(a, key) && IsOrdered(b, key) && KeyIsInjective(a, key)
    ensures a == b
  {
    SameLength(a, b);
    if a != [] {
      HeadsAgree(a, b, key);
      assert KeyIsInjective(b, key) by {
        assert forall x | x in b :: x in multiset(a);
      }
      TailStaysOrdered(a, key);
      TailStaysOrdered(b, key);
      hide AtMost, IsOrdered, KeyIsInjective;
      Cancel(a[0], multiset(a[1..]), multiset(b[1..]));
      OrderedIsUnique(a[1..], b[1..], key);
      assert a == [a[0]] + a[1..] && b == [b[0]] + b[1..];
    }
  }

  lemma {:induction false} AtMostIsReflexive(s: string)
    ensures AtMost(s, s)
  {
    if s != "" {
      AtMostIsReflexive(s[1..]);
    }
  }

  // ------------------------------------------------------ ties among the resources

  ghost predicate BlocksAgree(rs: seq<ResourceBlock>) {
    forall a, b | a in rs && b in rs && SameAddress(a, b) :: EntryOf(a) == EntryOf(b)
  }

  lemma {:induction false} KindsOfGrouped(rs: seq<ResourceBlock>, kind: Kind)
    ensures kind in Grouped(rs) <==> exists i :: 0 <= i < |rs| && rs[i].kind == kind
  {
    if rs != [] {
      var front := rs[..|rs| - 1];
      KindsOfGrouped(front, kind);
      assert forall i | 0 <= i < |front| :: front[i] == rs[i];
      assert (exists i :: 0 <= i < |rs| && rs[i].kind == kind)
        <==> (exists i :: 0 <= i < |front| && front[i].kind == kind) || rs[|rs| - 1].kind == kind;
    }
  }

  lemma {:induction false} SameEntries(rs: seq<ResourceBlock>, rs': seq<ResourceBlock>, kind: Kind, name: string)
    requires multiset(rs) == multiset(rs') && BlocksAgree(rs) && Holds(Grouped(rs), kind, name)
    ensures Holds(Grouped(rs'), kind, name) && Grouped(rs)[kind][name] == Grouped(rs')[kind][name]
  {
    GroupedHolds(rs, kind, name);
    var i: nat :| i < |rs| && rs[i].kind == kind && rs[i].name == name;
    var k := HasLast(rs, i);
    LastIsWritten(rs, k);
    assert rs[i] in multiset(rs');
    var i': nat :| i' < |rs'| && rs'[i'] == rs[i];
    var k' := HasLast(rs', i');
    LastIsWritten(rs', k');
    assert rs'[k'] in multiset(rs);
  }

  lemma {:induction false} SameKinds(rs: seq<ResourceBlock>, rs': seq<ResourceBlock>, kind: Kind)
    requires multiset(rs) == multiset(rs') && kind in Grouped(rs)
    ensures kind in Grouped(rs')
  {
    KindsOfGrouped(rs, kind);
    KindsOfGrouped(rs', kind);
    var i: nat :| i < |rs| && rs[i].kind == kind;
    assert rs[i] in multiset(rs');
  }

  /** When blocks of one address agree, the arrangement does not matter. */
  lemma {:induction false} TiesDoNotMatter(rs: seq<ResourceBlock>, rs': seq<ResourceBlock>)
    requires multiset(rs) == multiset(rs') && BlocksAgree(rs)
    ensures Grouped(rs) == Grouped(rs')
  {
    var g, g' := Grouped(rs), Grouped(rs');
    assert BlocksAgree(rs') by {
      forall r | r in rs' ensures r in rs {
        assert r in multiset(rs);
      }
    }
    forall kind ensures kind in g <==> kind in g' {
      if kind in g {
        SameKinds(rs, rs', kind);
      } else if kind in g' {
        SameKinds(rs', rs, kind);
      }
    }
    forall kind | kind in g ensures g[kind] == g'[kind] {
      forall name ensures name in g[kind] <==> name in g'[kind] {
        if name in g[kind] {
          SameEntries(rs, rs', kind, name);
        } else if name in g'[kind] {
          SameEntries(rs', rs, kind, name);
        }
      }
      forall name | name in g[kind] ensures g[kind][name] == g'[kind][name] {
        SameEntries(rs, rs', kind, name);
      }
    }
  }

  function Swapped(rs: seq<ResourceBlock>, m: nat, k: nat): seq<ResourceBlock>
    requires m < k < |rs|
  {
    rs[m := rs[k]][k := rs[m]]
  }

  lemma {:induction false} SwapKeepsSorted(rs: seq<ResourceBlock>, from: seq<ResourceBlock>, m: nat, k: nat)
    requires IsSorted(rs, Address, from) && m < k < |rs| && SameAddress(rs[m], rs[k])
    ensures IsSorted(Swapped(rs, m, k), Address, from)
  {
    var rs' := Swapped(rs, m, k);
    assert forall x | 0 <= x < |rs| :: Address(rs'[x]) == Address(rs[x]);
    hide AtMost, Address;
  }

  lemma {:induction false} SwapChangesTheLast(rs: seq<ResourceBlock>, m: nat, k: nat)
    requires m < k < |rs| && SameAddress(rs[m], rs[k]) && IsLast(rs, k) && EntryOf(rs[m]) != EntryOf(rs[k])
    ensures Grouped(Swapped(rs, m, k)) != Grouped(rs)
  {
    var rs' := Swapped(rs, m, k);
    assert rs'[k] == rs[m] && IsLast(rs', k);
    LastIsWritten(rs, k);
    LastIsWritten(rs', k);
  }

  /** When two blocks of one address differ, the same stack has two sorted arrangements with different documents. */
  lemma {:induction false} TiesMatterOtherwise(rs: seq<ResourceBlock>, from: seq<ResourceBlock>)
    returns (rs': seq<ResourceBlock>)
    requires IsSorted(rs, Address, from) && !BlocksAgree(from)
    ensures IsSorted(rs', Address, from) && Grouped(rs') != Grouped(rs)
  {
    hide Grouped, AtMost, IsOrdered;
    var a, b :| a in from && b in from && SameAddress(a, b) && EntryOf(a) != EntryOf(b);
    assert a in multiset(rs) && b in multiset(rs);
    var i: nat, j: nat :| i < |rs| && rs[i] == a && j < |rs| && rs[j] == b;
    var k := HasLast(rs, if i < j then j else i);
    var m := if EntryOf(rs[k]) == EntryOf(a) then j else i;
    SwapKeepsSorted(rs, from, m, k);
    SwapChangesTheLast(rs, m, k);
    rs' := Swapped(rs, m, k);
  }

  /** The document is determined by what the stack holds exactly when its blocks of one address agree. */
  lemma {:induction false} SynthIsDeterministicExactlyWhen(ps: seq<ProviderBlock>, rs: seq<ResourceBlock>,
                                                           providers: seq<ProviderBlock>, resources: seq<ResourceBlock>)
    requires IsSorted(ps, Alias, providers) && IsSorted(rs, Address, resources) && KeyIsInjective(providers, Alias)
    ensures BlocksAgree(resources)
            <==> forall ps', rs' | IsSorted(ps', Alias, providers) && IsSorted(rs', Address, resources) ::
                   Written(ps', rs') == Written(ps, rs)
  {
    if BlocksAgree(resources) {
      forall ps', rs' | IsSorted(ps', Alias, providers) && IsSorted(rs', Address, resources)
        ensures Written(ps', rs') == Written(ps, rs)
      {
        assert KeyIsInjective(ps, Alias) by {
          assert forall p | p in ps :: p in multiset(providers);
        }
        OrderedIsUnique(ps, ps', Alias);
        assert BlocksAgree(rs) by {
          forall r | r in rs ensures r in resources {
            assert r in multiset(resources);
          }
        }
        TiesDoNotMatter(rs, rs');
      }
    } else {
      var rs' := TiesMatterOtherwise(rs, resources);
      assert Written(ps, rs') != Written(ps, rs);
    }
  }
}
