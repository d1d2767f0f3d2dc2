/**
 * The oplog size over all members: the resize fan-out, secondaries first and
 * the primary last, and the read-back that aggregates what concurrent reads
 * found.
 */
module Oplog {
  import opened Wrappers
  import opened ReplicaSet

  // ------------------------------------------------------ the order of the fan-out

  /** The hosts of the members that bear data, in configuration order. */
  function DataHosts(members: seq<Member>): seq<string> {
    if members == [] then []
    else DataHosts(members[..|members| - 1])
         + (if Flag(members[|members| - 1].arbiterOnly) then [] else [members[|members| - 1].host])
  }

  function Only(hosts: seq<string>, primary: string): seq<string> {
    if hosts == [] then []
    else Only(hosts[..|hosts| - 1], primary) + (if hosts[|hosts| - 1] == primary then [primary] else [])
  }

  function Except(hosts: seq<string>, primary: string): seq<string> {
    if hosts == [] then []
    else Except(hosts[..|hosts| - 1], primary) + (if hosts[|hosts| - 1] == primary then [] else [hosts[|hosts| - 1]])
  }

  function ResizeOrder(members: seq<Member>, primary: string): seq<string> {
    if primary == "" then DataHosts(members)
    else Except(DataHosts(members), primary) + Only(DataHosts(members), primary)
  }

  lemma {:induction false} AppendHost(hosts: seq<string>, h: string, primary: string)
    ensures Only(hosts + [h], primary) == Only(hosts, primary) + (if h == primary then [primary] else [])
    ensures Except(hosts + [h], primary) == Except(hosts, primary) + (if h == primary then [] else [h])
  {
    assert (hosts + [h])[..|hosts|] == hosts;
  }

  lemma {:induction false} AppendMember(members: seq<Member>, m: Member, primary: string)
    ensures DataHosts(members + [m]) == DataHosts(members) + if Flag(m.arbiterOnly) then [] else [m.host]
    ensures Flag(m.arbiterOnly) ==> DataHosts(members + [m]) == DataHosts(members)
  {
    assert (members + [m])[..|members|] == members;
  }

  /** Each member that is no arbiter contributes its host, in its place. */
  lemma {:induction false} DataHostsInOrder(a: seq<Member>, m: Member, b: seq<Member>)
    ensures DataHosts(a + [m] + b)
            == DataHosts(a) + (if m.arbiterOnly == Some(true) then [] else [m.host]) + DataHosts(b)
    decreases b
  {
    if b == [] {
      assert a + [m] + b == a + [m];
      AppendMember(a, m, "");
    } else {
      var front, last := b[..|b| - 1], b[|b| - 1];
      assert a + [m] + b == (a + [m] + front) + [last] && b == front + [last];
      DataHostsInOrder(a, m, front);
      AppendMember(a + [m] + front, last, "");
      AppendMember(front, last, "");
    }
  }

  method OplogMemberHosts(members: seq<Member>, primaryHost: string) returns (r: seq<string>)
    ensures r == ResizeOrder(members, primaryHost)
  {
    var hosts: seq<string>, primary: seq<string> := [], [];
    for i := 0 to |members|
      invariant primaryHost == "" ==> hosts == DataHosts(members[..i]) && primary == []
      invariant primaryHost != "" ==> hosts == Except(DataHosts(members[..i]), primaryHost)
                                      && primary == Only(DataHosts(members[..i]), primaryHost)
    {
      var m := members[i];
      assert members[..i + 1] == members[..i] + [m];
      AppendMember(members[..i], m, primaryHost);
      if Flag(m.arbiterOnly) {
        continue;
      }
      AppendHost(DataHosts(members[..i]), m.host, primaryHost);
      if primaryHost != "" && m.host == primaryHost {
        primary := primary + [m.host];
        continue;
      }
      hosts := hosts + [m.host];
    }
    assert members[..|members|] == members;
    return hosts + primary;
  }

  lemma {:induction false} AbsentHost(hosts: seq<string>, primary: string)
    requires primary !in hosts
    ensures Only(hosts, primary) == [] && Except(hosts, primary) == hosts
  {
    if hosts != [] {
      var front, last := hosts[..|hosts| - 1], hosts[|hosts| - 1];
      assert last in hosts && forall h | h in front :: h in hosts;
      AbsentHost(front, primary);
      assert front + [last] == hosts;
    }
  }

  lemma {:induction false} OnlyAndExceptTogether(a: seq<string>, b: seq<string>, primary: string)
    ensures Only(a + b, primary) == Only(a, primary) + Only(b, primary)
    ensures Except(a + b, primary) == Except(a, primary) + Except(b, primary)
  {
    if b == [] {
      assert a + b == a;
    } else {
      assert (a + b)[..|a + b| - 1] == a + b[..|b| - 1];
      OnlyAndExceptTogether(a, b[..|b| - 1], primary);
    }
  }

  lemma {:induction false} SplitAround(front: seq<string>, primary: string, back: seq<string>)
    requires primary !in front && primary !in back
    ensures Only(front + [primary] + back, primary) == [primary]
    ensures Except(front + [primary] + back, primary) == front + back
  {
    OnlyAndExceptTogether(front + [primary], back, primary);
    AppendHost(front, primary, primary);
    AbsentHost(front, primary);
    AbsentHost(back, primary);
    assert front + [] == front;
  }

  /**
   * The fan-out visits the data-bearing hosts in configuration order, except
   * that the primary is taken out of its place and put last.
   */
  lemma {:induction false} PrimaryGoesLast(members: seq<Member>, primary: string, k: nat)
    requires Distinct(DataHosts(members)) && k < |DataHosts(members)| && DataHosts(members)[k] == primary != ""
    ensures ResizeOrder(members, primary) == DataHosts(members)[..k] + DataHosts(members)[k + 1..] + [primary]
  {
    var hosts := DataHosts(members);
    assert hosts == hosts[..k] + [primary] + hosts[k + 1..];
    SplitAround(hosts[..k], primary, hosts[k + 1..]);
  }

  lemma {:induction false} NoPrimaryKeepsOrder(members: seq<Member>, primary: string)
    requires primary == "" || primary !in DataHosts(members)
    ensures ResizeOrder(members, primary) == DataHosts(members)
  {
    if primary != "" {
      AbsentHost(DataHosts(members), primary);
    }
  }

  lemma {:induction false} SplitConserves(hosts: seq<string>, primary: string)
    ensures multiset(Except(hosts, primary)) + multiset(Only(hosts, primary)) == multiset(hosts)
  {
    if hosts != [] {
      var front, last := hosts[..|hosts| - 1], hosts[|hosts| - 1];
      SplitConserves(front, primary);
      assert hosts == front + [last];
    }
  }

  /** No data-bearing host is left out or visited twice. */
  lemma {:induction false} ResizeOrderIsPermutation(members: seq<Member>, primary: string)
    ensures multiset(ResizeOrder(members, primary)) == multiset(DataHosts(members))
  {
    SplitConserves(DataHosts(members), primary);
  }

  // ------------------------------------------------------ the fan-out

  datatype ResizeAnswer = Resized | Skipped | ResizeError

  datatype ResizeEnd = NoDataBearing | FailedOn(host: string) | SkippedEverywhere | ResizeDone

  /**
   * Resizes one host after the other and stops at the first error; resize(i)
   * is the answer to the i-th attempt. It reports success only if every host
   * was attempted and at least one was resized.
   */
  method ResizeOplogAcrossMembers(members: seq<Member>, primaryHost: string, resize: nat -> ResizeAnswer)
    returns (end: ResizeEnd, attempted: seq<string>)
    ensures attempted <= ResizeOrder(members, primaryHost)
    ensures forall i | 0 <= i < |attempted| - 1 :: !resize(i).ResizeError?
    ensures match end
            case NoDataBearing => DataHosts(members) == []
            case FailedOn(host) =>
              attempted != [] && attempted[|attempted| - 1] == host && resize(|attempted| - 1).ResizeError?
            case SkippedEverywhere =>
              && attempted == ResizeOrder(members, primaryHost) != []
              && forall i | 0 <= i < |attempted| :: resize(i).Skipped?
            case ResizeDone =>
              && attempted == ResizeOrder(members, primaryHost)
              && (forall i | 0 <= i < |attempted| :: !resize(i).ResizeError?)
              && exists i :: 0 <= i < |attempted| && resize(i).Resized?
  {
    var hosts := OplogMemberHosts(members, primaryHost);
    SameHosts(members, primaryHost);
    hide ResizeOrder, DataHosts;
    attempted := [];
    if |hosts| == 0 {
      return NoDataBearing, [];
    }
    var resized := 0;
    for i := 0 to |hosts|
      invariant attempted == hosts[..i] && resized >= 0
      invariant forall j | 0 <= j < i :: !resize(j).ResizeError?
      invariant resized == 0 ==> forall j | 0 <= j < i :: resize(j).Skipped?
      invariant resized > 0 ==> exists j :: 0 <= j < i && resize(j).Resized?
    {
      attempted := attempted + [hosts[i]];
      match resize(i)
      case ResizeError => return FailedOn(hosts[i]), attempted;
      case Resized => resized := resized + 1;
      case Skipped =>
    }
    assert attempted == hosts;
    return if resized == 0 then SkippedEverywhere else ResizeDone, attempted;
  }

  // ------------------------------------------------------ when the fan-out runs, and on whom

  /** The first row in PRIMARY names the primary; without one, or without a status, there is none. */
  function PrimaryHost(status: Reply<seq<StatusRow>>): string {
    if status.Errored? then "" else FirstPrimary(status.value)
  }

  function FirstPrimary(rows: seq<StatusRow>): string {
    if rows == [] then "" else if rows[0].state == STATE_PRIMARY then rows[0].name else FirstPrimary(rows[1..])
  }

  /** Row j is the first in state 1, which is PRIMARY. */
  ghost predicate FirstInPrimary(rows: seq<StatusRow>, j: int) {
    0 <= j < |rows| && rows[j].state == 1 && forall i | 0 <= i < j :: rows[i].state != 1
  }

  lemma {:induction false} PrimaryIsFirst(rows: seq<StatusRow>, j: int)
    requires FirstInPrimary(rows, j)
    ensures FirstPrimary(rows) == rows[j].name
  {
    if j > 0 {
      assert rows[0].state != 1;
      assert FirstInPrimary(rows[1..], j - 1) by {
        assert forall i | 0 <= i < j - 1 :: rows[1..][i] == rows[i + 1];
      }
      PrimaryIsFirst(rows[1..], j - 1);
    }
  }

  lemma {:induction false} NoPrimaryNamed(rows: seq<StatusRow>)
    requires forall row | row in rows :: row.state != 1
    ensures FirstPrimary(rows) == ""
  {
    if rows != [] {
      assert rows[0] in rows;
      NoPrimaryNamed(rows[1..]);
    }
  }

  /**
   * The fan-out of an apply leaves the configuration order only to put the
   * host that the status first shows as PRIMARY last; without a status, or a
   * PRIMARY among the data-bearing hosts, the order stays.
   */
  lemma {:induction false} StatusDecidesOrder(members: seq<Member>, status: Reply<seq<StatusRow>>)
    requires Distinct(DataHosts(members))
    ensures var hosts := DataHosts(members);
            && (forall j, k | status.Answered? && FirstInPrimary(status.value, j) && 0 <= k < |hosts|
                              && hosts[k] == status.value[j].name != "" ::
                  ResizeOrder(members, PrimaryHost(status)) == hosts[..k] + hosts[k + 1..] + [hosts[k]])
            && ((status.Answered? ==> forall j | FirstInPrimary(status.value, j) ::
                                        status.value[j].name == "" || status.value[j].name !in hosts) ==>
                  ResizeOrder(members, PrimaryHost(status)) == hosts)
  {
    hide ResizeOrder, DataHosts, FirstPrimary;
    var hosts := DataHosts(members);
    if status.Answered? {
      if j :| FirstInPrimary(status.value, j) {
        forall j' | FirstInPrimary(status.value, j') ensures FirstPrimary(status.value) == status.value[j'].name {
          PrimaryIsFirst(status.value, j');
        }
        forall k | 0 <= k < |hosts| && hosts[k] == FirstPrimary(status.value) != ""
          ensures ResizeOrder(members, PrimaryHost(status)) == hosts[..k] + hosts[k + 1..] + [hosts[k]]
        {
          assert hosts[k] in hosts;
          PrimaryGoesLast(members, hosts[k], k);
        }
        if status.value[j].name == "" || status.value[j].name !in hosts {
          NoPrimaryKeepsOrder(members, PrimaryHost(status));
        }
      } else {
        NoFirst(status.value);
        NoPrimaryNamed(status.value);
        NoPrimaryKeepsOrder(members, "");
      }
    } else {
      NoPrimaryKeepsOrder(members, "");
    }
  }

  lemma {:induction false} NoFirst(rows: seq<StatusRow>)
    requires forall j :: !FirstInPrimary(rows, j)
    ensures forall row | row in rows :: row.state != 1
  {
    forall i | 0 <= i < |rows| ensures rows[i].state != 1 {
      NoneUpTo(rows, i + 1);
    }
  }

  lemma {:induction false} NoneUpTo(rows: seq<StatusRow>, n: nat)
    requires n <= |rows| && forall j :: !FirstInPrimary(rows, j)
    ensures forall i | 0 <= i < n :: rows[i].state != 1
  {
    if n > 0 {
      NoneUpTo(rows, n - 1);
      assert !FirstInPrimary(rows, n - 1);
    }
  }

  /** A member still syncing has no oplog to resize; without a status every member is tried. */
  ghost predicate Resizable(status: Reply<seq<StatusRow>>, host: string) {
    status.Answered? ==>
      exists row :: row in status.value && row.name == host
                    && (row.state == 1 || row.state == 2)
  }

  /**
   * Runs the fan-out when a size is known and the resource is new or the size
   * changed; command(i) says whether connecting to the i-th host and resizing
   * it went well. Success means every host in PRIMARY or SECONDARY was resized,
   * and that there was one.
   */
  method ApplyOplogConfig(planned: Option<real>, isNew: bool, changed: bool, members: seq<Member>,
                          status: Reply<seq<StatusRow>>, command: nat -> bool)
    returns (ran: bool, end: ResizeEnd, attempted: seq<string>)
    ensures ran <==> planned.Some? && planned.value != 0.0 && (isNew || changed)
    ensures !ran ==> attempted == []
    ensures attempted <= ResizeOrder(members, PrimaryHost(status))
    ensures ran && end.ResizeDone? ==>
              && attempted == ResizeOrder(members, PrimaryHost(status))
              && (forall i | 0 <= i < |attempted| && Resizable(status, attempted[i]) :: command(i))
              && exists i :: 0 <= i < |attempted| && Resizable(status, attempted[i]) && command(i)
    ensures ran && end.FailedOn? ==>
              && attempted != [] && end.host == attempted[|attempted| - 1]
              && Resizable(status, end.host) && !command(|attempted| - 1)
    ensures ran && end.SkippedEverywhere? ==>
              forall host | host in DataHosts(members) :: !Resizable(status, host)
  {
    if planned.None? || planned.value == 0.0 || (!isNew && !changed) {
      return false, NoDataBearing, [];
    }
    hide PrimaryHost, FirstPrimary, ResizeOrder, DataHosts;
    var primary := PrimaryHost(status);
    var hosts := OplogMemberHosts(members, primary);
    var rows := if status.Answered? then status.value else [];
    var resizable := set row | row in rows && (row.state == STATE_PRIMARY || row.state == STATE_SECONDARY) :: row.name;
    assert forall host :: Resizable(status, host) <==> status.Errored? || host in resizable;
    var resize := (i: nat) =>
      if i < |hosts| && status.Answered? && hosts[i] !in resizable then Skipped
      else if command(i) then Resized
      else ResizeError;
    end, attempted := ResizeOplogAcrossMembers(members, primary, resize);
    forall i | 0 <= i < |attempted| && end.ResizeDone? && Resizable(status, attempted[i]) ensures command(i) {
      assert !resize(i).ResizeError?;
    }
    if end.SkippedEverywhere? {
      forall i | 0 <= i < |hosts| ensures !Resizable(status, hosts[i]) {
        assert resize(i).Skipped?;
      }
      SameHosts(members, primary);
    }
    return true, end, attempted;
  }

  lemma {:induction false} SameHosts(members: seq<Member>, primary: string)
    ensures forall host :: host in ResizeOrder(members, primary) <==> host in DataHosts(members)
    ensures ResizeOrder(members, primary) == [] <==> DataHosts(members) == []
  {
    ResizeOrderIsPermutation(members, primary);
    assert DataHosts(members) != [] ==> DataHosts(members)[0] in multiset(DataHosts(members));
    forall host ensures host in ResizeOrder(members, primary) <==> host in DataHosts(members) {
      assert host in multiset(ResizeOrder(members, primary)) <==> host in multiset(DataHosts(members));
    }
  }

  // ------------------------------------------------------ the aggregate size

  const MISMATCH := -1.0

  datatype Reading = Readable(size: real) | Unreadable

  /** A size that is not positive counts as a failed read. */
  ghost function Checked(r: Reply<real>): Reading {
    if r.Answered? && r.value > 0.0 then Readable(r.value) else Unreadable
  }

  ghost function Readings(count: nat, read: nat -> Reply<real>): seq<Reading> {
    seq(count, i requires 0 <= i < count => Checked(read(i)))
  }

  /**
   * The reads run concurrently and finish in any order, each filling its own
   * slot with the answer read(i) of the i-th host: the order leaves no trace.
   */
  method ReadConcurrently(count: nat, read: nat -> Reply<real>) returns (slots: array<Reading>)
    ensures fresh(slots) && slots[..] == Readings(count, read)
  {
    slots := new Reading[count](_ => Unreadable);
    var running: set<nat> := {};
    for i := 0 to count
      invariant forall j: nat :: j in running <==> j < i
    {
      running := running + {i};
    }
    while running != {}
      invariant forall j | j in running :: j < count
      invariant forall j: nat | j < count && j !in running :: slots[j] == Checked(read(j))
      decreases running
    {
      var i :| i in running;
      match read(i) {
        case Answered(size) => slots[i] := if size <= 0.0 then Unreadable else Readable(size);
        case Errored(_) => slots[i] := Unreadable;
      }
      running := running - {i};
    }
  }

  ghost predicate SomeReadable(readings: seq<Reading>, n: nat)
    requires n <= |readings|
  {
    exists i :: 0 <= i < n && readings[i].Readable?
  }

  ghost predicate AllReadableAre(readings: seq<Reading>, n: nat, size: real)
    requires n <= |readings|
  {
    forall i | 0 <= i < n && readings[i].Readable? :: readings[i].size == size
  }

  ghost predicate TwoDiffer(readings: seq<Reading>, n: nat)
    requires n <= |readings|
  {
    exists i, j :: 0 <= i < j < n && readings[i].Readable? && readings[j].Readable?
                   && readings[i].size != readings[j].size
  }

  /**
   * The common size when all readable members agree, the mismatch marker when
   * two differ, nothing exactly when none could be read, whatever the order in
   * which the reads finished.
   */
  method OplogSizeAcrossMembers(members: seq<Member>, read: nat -> Reply<real>) returns (size: Option<real>)
    ensures var n := |DataHosts(members)|;
            var readings := Readings(n, read);
            && (size.None? <==> !SomeReadable(readings, n))
            && (size == Some(MISMATCH) <==> TwoDiffer(readings, n))
            && (size.Some? && size != Some(MISMATCH) ==> size.value > 0.0 && AllReadableAre(readings, n, size.value))
  {
    var hosts := OplogMemberHosts(members, "");
    if |hosts| == 0 {
      return None;
    }
    var slots := ReadConcurrently(|hosts|, read);
    ghost var readings := slots[..];
    forall j | 0 <= j < |hosts| ensures readings[j].Readable? ==> readings[j].size > 0.0 {
      assert readings[j] == Checked(read(j));
    }
    var common := 0.0;
    var readCount := 0;
    for i := 0 to |hosts|
      invariant slots[..] == readings && readCount >= 0
      invariant readCount == 0 <==> !SomeReadable(readings, i)
      invariant readCount == 0 ==> !TwoDiffer(readings, i)
      invariant readCount > 0 ==> (common == MISMATCH <==> TwoDiffer(readings, i))
      invariant readCount > 0 && common != MISMATCH ==> common > 0.0 && AllReadableAre(readings, i, common)
    {
      assert slots[i] == readings[i];
      if slots[i].Unreadable? {
        continue;
      }
      readCount := readCount + 1;
      if readCount == 1 {
        common := slots[i].size;
      } else if slots[i].size != common {
        common := MISMATCH;
      }
    }
    if readCount == 0 {
      return None;
    }
    return Some(common);
  }

  // ------------------------------------------------------ what state records

  /**
   * After a resize was attempted, state never claims a size no member
   * confirmed: it holds the mismatch marker or the size every readable member,
   * and at least one, reports.
   */
  method ReadOplogConfig(members: seq<Member>, read: nat -> Reply<real>, before: real, hostOverride: bool,
                         resizeAttempted: bool)
    returns (after: real)
    ensures hostOverride ==> after == before
    ensures var n := |DataHosts(members)|;
            var readings := Readings(n, read);
            !hostOverride ==>
              && (SomeReadable(readings, n) ==>
                    if TwoDiffer(readings, n) then after == MISMATCH else after > 0.0 && AllReadableAre(readings, n, after))
              && (!SomeReadable(readings, n) ==> after == if resizeAttempted then MISMATCH else before)
  {
    if hostOverride {
      return before;
    }
    var size := OplogSizeAcrossMembers(members, read);
    match size
    case Some(s) => return s;
    case None => return if resizeAttempted then MISMATCH else before;
  }
}
