/**
 * A shard's address as addShard takes it and listShards gives it back:
 * "name/host1:port,host2:port".
 */
module ShardAddress {
  import opened Wrappers
  import opened Text

  const SLASH := '/'
  const COMMA := ','

  function Join(parts: seq<string>, c: char): string {
    if parts == [] then ""
    else if |parts| == 1 then parts[0]
    else parts[0] + [c] + Join(parts[1..], c)
  }

  function Split(s: string, c: char): (parts: seq<string>)
    ensures parts != [] && forall p | p in parts :: c !in p
    ensures Join(parts, c) == s
    decreases |s|
  {
    match Index(s, c)
    case None => [s]
    case Some(k) => [s[..k]] + Split(s[k + 1..], c)
  }

  function BuildShardConnectionString(name: string, hosts: seq<string>): string {
    name + [SLASH] + Join(hosts, COMMA)
  }

  datatype ShardHost = ShardHost(name: string, hosts: seq<string>) | MissingSlash | EmptyName | EmptyHosts

  function ParseShardHost(s: string): ShardHost {
    match Index(s, SLASH)
    case None => MissingSlash
    case Some(k) =>
      if k == 0 then EmptyName
      else if s[k + 1..] == "" then EmptyHosts
      else ShardHost(s[..k], Split(s[k + 1..], COMMA))
  }

  // ------------------------------------------------------------- its laws

  lemma {:induction false} SplitUndoesJoin(parts: seq<string>, c: char)
    requires parts != [] && forall p | p in parts :: c !in p
    ensures Split(Join(parts, c), c) == parts
  {
    assert parts[0] in parts;
    if |parts| > 1 {
      SplitUndoesJoin(parts[1..], c);
      SplitAtFirst(parts[0], c, Join(parts[1..], c));
      hide Split;
      assert parts == [parts[0]] + parts[1..];
    }
  }

  lemma {:induction false} SplitAtFirst(head: string, c: char, rest: string)
    requires c !in head
    ensures Split(head + [c] + rest, c) == [head] + Split(rest, c)
  {
    IndexIsFirst(head, c, rest);
    var s := head + [c] + rest;
    hide Index;
    assert s[..|head|] == head && s[|head| + 1..] == rest;
  }

  lemma {:induction false} EmptyJoin(parts: seq<string>, c: char)
    ensures Join(parts, c) == "" <==> parts == [] || parts == [""]
  {
  }

  /** Parsing a built string gives back the name and the hosts exactly under these conditions. */
  lemma {:induction false} ParseUndoesBuildExactlyWhen(name: string, hosts: seq<string>)
    ensures ParseShardHost(BuildShardConnectionString(name, hosts)) == ShardHost(name, hosts)
            <==> && name != "" && SLASH !in name
                 && hosts != [] && hosts != [""] && forall h | h in hosts :: COMMA !in h
  {
    var s := BuildShardConnectionString(name, hosts);
    EmptyJoin(hosts, COMMA);
    if SLASH !in name {
      IndexIsFirst(name, SLASH, Join(hosts, COMMA));
      assert s[..|name|] == name && s[|name| + 1..] == Join(hosts, COMMA);
      if hosts != [] && forall h | h in hosts :: COMMA !in h {
        SplitUndoesJoin(hosts, COMMA);
      }
    }
  }

  /** Building from a parsed string gives that string back: no two strings parse alike. */
  lemma {:induction false} BuildUndoesParse(s: string)
    requires ParseShardHost(s).ShardHost?
    ensures BuildShardConnectionString(ParseShardHost(s).name, ParseShardHost(s).hosts) == s
  {
    var k := Index(s, SLASH).value;
    assert s == s[..k] + [SLASH] + s[k + 1..];
  }

  /** A string is refused exactly when it lacks a slash, or nothing stands before or behind the first one. */
  lemma {:induction false} ParsesExactlyWhen(s: string)
    ensures ParseShardHost(s).ShardHost?
            <==> exists k :: 0 < k < |s| - 1 && s[k] == SLASH && SLASH !in s[..k]
  {
    var i := Index(s, SLASH);
    if i.Some? {
      assert s[i.value + 1..] == "" <==> i.value == |s| - 1;
      forall k | 0 <= k < |s| && s[k] == SLASH && SLASH !in s[..k] ensures k == i.value {
        assert forall j | 0 <= j < k :: s[..k][j] == s[j];
        assert forall j | 0 <= j < i.value :: s[..i.value][j] == s[j];
      }
    }
  }
}
