/**
 * Waiting for a host to become usable: connecting until the provider's user is
 * let in, and polling until a fresh replica set has elected its primary. How
 * the host answers each successive attempt is a script; ctx is the instant the
 * operation's context ends. Time is in milliseconds.
 */
module Readiness {
  import opened Wrappers
  import opened ReplicaSet
  import opened Timing

  // ------------------------------------------------------ why a login was refused

  datatype AuthRequirement = AuthRequired | AuthNotEnforced | AuthUnknown

  /** What replSetGetStatus without credentials says about it: none, an answer, or an error. */
  function ClassifyAuthProbe(error: Option<MongoError>): AuthRequirement {
    if error.None? then AuthNotEnforced
    else if IsAuthError(error.value) then AuthRequired
    else if error.value.CommandError? then AuthNotEnforced
    else AuthUnknown
  }

  // ------------------------------------------------------ the attempts

  /** One attempt: what connecting gave and, had the login been refused, what the probe would give. */
  datatype Attempt = Attempt(error: Option<MongoError>, took: nat, probe: Option<MongoError>, probeTook: nat)

  type Script = nat -> Attempt

  /** The error is a refused login: Unauthorized, AuthenticationFailed, or a text that says so. */
  ghost predicate Refuses(e: MongoError) {
    match e
    case CommandError(code, _) => code == 13 || code == 18
    case OtherError(mentionsAuth, _) => mentionsAuth
  }

  /** The error is a network failure or a timeout. */
  ghost predicate LosesConnection(e: MongoError) {
    match e
    case CommandError(_, networkLabel) => networkLabel
    case OtherError(_, transport) => transport
  }

  ghost predicate LoginRefused(a: Attempt) {
    a.error.Some? && Refuses(a.error.value)
  }

  /** The host answers without credentials, if only to say that it has no configuration yet. */
  ghost predicate Open(probe: Option<MongoError>) {
    probe.None? || (probe.value.CommandError? && !Refuses(probe.value))
  }

  /** A failure worth another attempt. */
  ghost predicate Retried(a: Attempt) {
    a.error.Some? && if LoginRefused(a) then !Open(a.probe) else LosesConnection(a.error.value)
  }

  /** When attempt k begins if every earlier one is retried. */
  ghost function StartOf(script: Script, now: nat, poll: nat, k: nat): nat {
    if k == 0 then now
    else StartOf(script, now, poll, k - 1) + script(k - 1).took
         + (if LoginRefused(script(k - 1)) then script(k - 1).probeTook else 0) + poll
  }

  /** Attempt k is made. */
  ghost predicate Made(script: Script, ctx: nat, now: nat, poll: nat, k: nat) {
    (forall j: nat | j < k :: Retried(script(j))) && (k > 0 ==> StartOf(script, now, poll, k) < ctx)
  }

  /** Attempt k failed, or succeeded, before the context ended. */
  ghost predicate InTime(script: Script, ctx: nat, now: nat, poll: nat, k: nat) {
    StartOf(script, now, poll, k) + script(k).took < ctx
  }

  // ------------------------------------------------------ what the wait reports

  datatype Headline = ConnectionsNotAccepted | CredentialsNotAccepted

  datatype Detail = NoDetail | AuthIsEnforced | ProbeGotNoAnswer

  /** The error of a wait that ran out of time. */
  datatype Report = Report(headline: Headline, detail: Detail, last: Option<MongoError>)

  datatype Readiness = Connected | NoAuth | Fatal(error: MongoError) | NotReady(report: Report)

  /** The report that speaks of this attempt, and of it alone. */
  ghost function Describe(a: Attempt): Report {
    if LoginRefused(a)
    then Report(CredentialsNotAccepted,
                if a.probe.Some? && Refuses(a.probe.value) then AuthIsEnforced else ProbeGotNoAnswer,
                a.error)
    else Report(ConnectionsNotAccepted, NoDetail, a.error)
  }

  /** How a wait of that many attempts may end. */
  ghost predicate Ends(script: Script, ctx: nat, now: nat, poll: nat, attempts: nat, end: Readiness) {
    && attempts > 0
    && Made(script, ctx, now, poll, attempts - 1)
    && var final, inTime := script(attempts - 1), InTime(script, ctx, now, poll, attempts - 1);
       match end
       case Connected => final.error.None?
       case NoAuth => inTime && LoginRefused(final) && !Retried(final)
       case Fatal(e) => inTime && final.error == Some(e) && !LoginRefused(final) && !Retried(final)
       case NotReady(report) =>
         && final.error.Some?
         && ctx <= StartOf(script, now, poll, attempts)
         && (inTime ==> Retried(final) && report == Describe(final))
         && (!inTime && attempts > 1 ==> report == Describe(script(attempts - 2)))
         && (!inTime && attempts == 1 ==> report == Report(ConnectionsNotAccepted, NoDetail, final.error))
  }

  method WaitForShardClient(script: Script, ctx: nat, now: nat, poll: nat) returns (end: Readiness, attempts: nat)
    requires poll > 0
    ensures Ends(script, ctx, now, poll, attempts, end)
  {
    var clock := now;
    var headline, detail, last := ConnectionsNotAccepted, NoDetail, None;
    attempts := 0;
    while true
      invariant clock == StartOf(script, now, poll, attempts)
      invariant Made(script, ctx, now, poll, attempts)
      invariant Report(headline, detail, last) == if attempts == 0 then Report(ConnectionsNotAccepted, NoDetail, None)
                                                  else Describe(script(attempts - 1))
      decreases if clock < ctx then ctx - clock else 0
    {
      var a := script(attempts);
      attempts := attempts + 1;
      clock := clock + a.took;
      if a.error.None? {
        return Connected, attempts;
      }
      if clock < ctx {
        if IsAuthError(a.error.value) {
          headline := CredentialsNotAccepted;
          clock := clock + a.probeTook;
          match ClassifyAuthProbe(a.probe)
          case AuthNotEnforced => return NoAuth, attempts;
          case AuthRequired => detail := AuthIsEnforced;
          case AuthUnknown => detail := ProbeGotNoAnswer;
        } else if IsConnectionError(a.error.value) {
          headline, detail := ConnectionsNotAccepted, NoDetail;
        } else {
          return Fatal(a.error.value), attempts;
        }
        last := a.error;
      } else if last.None? {
        last := a.error;
      }
      if ctx <= clock + poll {
        return NotReady(Report(headline, detail, last)), attempts;
      }
      clock := clock + poll;
    }
  }

  // ------------------------------------------------------ its laws

  lemma {:induction false} StartsAdvance(script: Script, now: nat, poll: nat, j: nat, k: nat)
    requires j <= k
    ensures StartOf(script, now, poll, j) <= StartOf(script, now, poll, k)
  {
    if j < k {
      StartsAdvance(script, now, poll, j, k - 1);
    }
  }

  lemma {:induction false} PausesAddUp(script: Script, now: nat, poll: nat, k: nat)
    ensures now + k * poll <= StartOf(script, now, poll, k)
  {
    if k > 0 {
      PausesAddUp(script, now, poll, k - 1);
      assert (k - 1) * poll + poll == k * poll;
    }
  }

  /** No attempt is made after the one the wait ended on. */
  lemma {:induction false} NoneMadeLater(script: Script, ctx: nat, now: nat, poll: nat, attempts: nat, end: Readiness,
                                         k: nat)
    requires Ends(script, ctx, now, poll, attempts, end) && attempts <= k
    ensures !Made(script, ctx, now, poll, k)
  {
    StartsAdvance(script, now, poll, attempts, k);
    hide StartOf;
    if end.NotReady? {
      assert StartOf(script, now, poll, k) >= ctx;
    } else {
      assert !Retried(script(attempts - 1));
    }
  }

  /** One script gives one wait: its length and its end are determined. */
  lemma {:induction false} EndIsUnique(script: Script, ctx: nat, now: nat, poll: nat, m: nat, a: Readiness, n: nat,
                                       b: Readiness)
    requires Ends(script, ctx, now, poll, m, a) && Ends(script, ctx, now, poll, n, b)
    ensures m == n && a == b
  {
    if m < n {
      NoneMadeLater(script, ctx, now, poll, m, a, n - 1);
    } else if n < m {
      NoneMadeLater(script, ctx, now, poll, n, b, m - 1);
    }
  }

  /**
   * The wait connects exactly when an attempt it gets to make succeeds, asks
   * for initialization without credentials exactly when a login it gets to make
   * is refused in time by a host whose probe shows no access control, and is
   * fatal exactly when an attempt it gets to make fails in time otherwise.
   */
  lemma {:induction false} EndsExactlyWhen(script: Script, ctx: nat, now: nat, poll: nat, attempts: nat,
                                           end: Readiness)
    requires Ends(script, ctx, now, poll, attempts, end)
    ensures end.Connected? <==> exists k: nat :: Made(script, ctx, now, poll, k) && script(k).error.None?
    ensures end.NoAuth? <==>
            exists k: nat :: && Made(script, ctx, now, poll, k) && InTime(script, ctx, now, poll, k)
                             && LoginRefused(script(k)) && Open(script(k).probe)
    ensures end.Fatal? <==>
            exists k: nat :: && Made(script, ctx, now, poll, k) && InTime(script, ctx, now, poll, k)
                             && script(k).error.Some? && !LoginRefused(script(k))
                             && !LosesConnection(script(k).error.value)
  {
    forall k: nat | Made(script, ctx, now, poll, k) && !Retried(script(k)) ensures k == attempts - 1 {
      if k >= attempts {
        NoneMadeLater(script, ctx, now, poll, attempts, end, k);
      }
    }
  }

  /** The latest attempt that failed before the context ended, or the first attempt if none did. */
  ghost predicate Decisive(script: Script, ctx: nat, now: nat, poll: nat, attempts: nat, k: nat) {
    && k < attempts
    && (forall j: nat | k < j < attempts :: !InTime(script, ctx, now, poll, j))
    && (InTime(script, ctx, now, poll, k) || k == 0)
  }

  /**
   * At the deadline the last error reported is always that of the decisive
   * attempt. The headline and the detail speak of that same attempt exactly
   * when the first attempt failed in time or was not a refused login.
   */
  lemma {:induction false} ReportIsCoherentExactlyWhen(script: Script, ctx: nat, now: nat, poll: nat, attempts: nat,
                                                       report: Report, k: nat)
    requires Ends(script, ctx, now, poll, attempts, NotReady(report))
    requires Decisive(script, ctx, now, poll, attempts, k)
    ensures report.last == script(k).error
    ensures report == Describe(script(k)) <==> now + script(0).took < ctx || !LoginRefused(script(0))
  {
    assert StartOf(script, now, poll, 0) == now;
    if attempts > 1 {
      StartsAdvance(script, now, poll, 1, attempts - 1);
      assert StartOf(script, now, poll, 1) >= now + script(0).took;
      assert StartOf(script, now, poll, attempts - 1) >= StartOf(script, now, poll, attempts - 2) + script(attempts - 2).took;
      hide StartOf;
      assert InTime(script, ctx, now, poll, attempts - 2);
      assert Retried(script(attempts - 2));
      assert k == if InTime(script, ctx, now, poll, attempts - 1) then attempts - 1 else attempts - 2;
    } else {
      hide StartOf;
    }
  }

  /**
   * The case where it is not: the one login of the wait is refused only as the
   * context ends, and the error says that connections were not accepted.
   */
  lemma {:induction false} LateRefusalIsMisreported(took: nat, poll: nat)
    requires poll > 0
    ensures var refused := OtherError(true, false);
            var script: Script := (_: nat) => Attempt(Some(refused), took, None, 0);
            var end := NotReady(Report(ConnectionsNotAccepted, NoDetail, Some(refused)));
            Ends(script, took, 0, poll, 1, end) && end.report != Describe(script(0))
  {
    var script: Script := (_: nat) => Attempt(Some(OtherError(true, false)), took, None, 0);
    assert StartOf(script, 0, poll, 0) == 0;
    assert StartOf(script, 0, poll, 1) == took + poll;
  }

  /** Attempts are a full pause apart and none but the first begins after the context ended. */
  lemma {:induction false} AttemptsAreBounded(script: Script, ctx: nat, now: nat, poll: nat, attempts: nat,
                                              end: Readiness)
    requires poll > 0 && Ends(script, ctx, now, poll, attempts, end)
    ensures attempts > 1 ==> (attempts - 1) * poll < ctx - now
    ensures attempts <= 1 + (if ctx > now then (ctx - now) / poll else 0)
  {
    PausesAddUp(script, now, poll, attempts - 1);
    if attempts > 1 {
      DivideBound(attempts - 1, poll, ctx - now);
    }
  }

  // ------------------------------------------------------ waiting for a primary

  /** One replSetGetStatus: the answering member's own state, unless the read failed. */
  datatype StatePoll = StatePoll(state: Option<int>, took: nat)

  datatype Election = Elected | TimedOut | Cancelled

  predicate ShowsPrimary(p: StatePoll) {
    p.state == Some(STATE_PRIMARY)
  }

  function PollAt(script: nat -> StatePoll, now: nat, k: nat): nat {
    if k == 0 then now else PollAt(script, now, k - 1) + script(k - 1).took + INIT_POLL
  }

  /** Poll k is made: none before showed a primary, and neither the timeout nor the context is over. */
  ghost predicate Polled(script: nat -> StatePoll, ctx: nat, now: nat, timeout: nat, k: nat) {
    && (forall j: nat | j < k :: !ShowsPrimary(script(j)))
    && PollAt(script, now, k) <= now + timeout
    && (k > 0 ==> PollAt(script, now, k) < ctx)
  }

  /**
   * It succeeds exactly when a poll it gets to make shows PRIMARY, and makes at
   * most timeout / 500 + 1 polls.
   */
  method WaitForPrimary(script: nat -> StatePoll, ctx: nat, now: nat, timeout: nat)
    returns (end: Election, polls: nat)
    ensures end.Elected? <==> exists k: nat :: Polled(script, ctx, now, timeout, k) && ShowsPrimary(script(k))
    ensures forall k: nat :: k < polls <==> Polled(script, ctx, now, timeout, k)
    ensures end.TimedOut? ==> PollAt(script, now, polls) > now + timeout
    ensures end.Cancelled? ==> PollAt(script, now, polls) >= ctx
    ensures 1 <= polls <= timeout / INIT_POLL + 1
  {
    var deadline := now + timeout;
    var clock := now;
    polls := 0;
    end := Cancelled;
    while true
      invariant clock == PollAt(script, now, polls)
      invariant forall j: nat | j < polls :: !ShowsPrimary(script(j))
      invariant polls > 0 ==> clock < ctx && Polled(script, ctx, now, timeout, polls - 1)
      decreases if clock <= deadline then deadline - clock + 1 else 0
    {
      if clock > deadline {
        end := TimedOut;
        break;
      }
      assert Polled(script, ctx, now, timeout, polls);
      var p := script(polls);
      polls := polls + 1;
      if ShowsPrimary(p) {
        end := Elected;
        break;
      }
      clock := clock + p.took;
      if ctx <= clock + INIT_POLL {
        break;
      }
      clock := clock + INIT_POLL;
    }
    PollsStop(script, ctx, now, timeout, polls);
  }

  lemma {:induction false} PollsFollow(script: nat -> StatePoll, now: nat, j: nat, k: nat)
    requires j <= k
    ensures PollAt(script, now, j) + (k - j) * INIT_POLL <= PollAt(script, now, k)
  {
    if j < k {
      PollsFollow(script, now, j, k - 1);
    }
  }

  /** The polls made are those before the first that is not, and they are few. */
  lemma {:induction false} PollsStop(script: nat -> StatePoll, ctx: nat, now: nat, timeout: nat, polls: nat)
    requires polls > 0 && Polled(script, ctx, now, timeout, polls - 1) && !Polled(script, ctx, now, timeout, polls)
    ensures forall k: nat :: k < polls <==> Polled(script, ctx, now, timeout, k)
    ensures polls <= timeout / INIT_POLL + 1
  {
    forall k: nat ensures k < polls <==> Polled(script, ctx, now, timeout, k) {
      if k < polls {
        PollsFollow(script, now, k, polls - 1);
      } else {
        PollsFollow(script, now, polls, k);
      }
      hide PollAt;
    }
    PollsFollow(script, now, 0, polls - 1);
  }
}
