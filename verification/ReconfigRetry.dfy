/**
 * replSetReconfig with retries: transient errors are retried until a deadline,
 * a version conflict after re-reading the version, each attempt bounded by the
 * time left.
 */
module ReconfigRetry {
  import opened Wrappers
  import opened ReplicaSet
  import opened MemberPlan
  import opened Server
  import opened Timing

  datatype CallError =
    | Rejected(error: MongoError)
    | NotResolved(error: MongoError)
    | RereadFailed(error: MongoError)
    | Cancelled

  predicate Retryable(e: MongoError) {
    IsCode(e, CODE_NOT_WRITE_READY) || IsCode(e, CODE_VERSION_CONFLICT) || IsCode(e, CODE_CONFIG_NOT_COMMITTED)
  }

  function MaxTime(deadline: nat, now: nat): nat {
    if deadline - now < INIT_POLL then INIT_POLL else deadline - now
  }

  /** After a version conflict the version is read again; every other error keeps it. */
  function Refresh(env: Env, w: World, cfg: Config, e: MongoError): Step<Reply<Config>> {
    if IsCode(e, CODE_VERSION_CONFLICT) then
      var g := GetConfig(env, w);
      Step(g.world, match g.value
                    case Errored(err) => Errored(err)
                    case Answered(current) => Answered(cfg.(version := current.version + 1)))
    else Step(w, Answered(cfg))
  }

  function Send(env: Env, w: World, ctx: nat, kind: Kind, cfg: Config, deadline: nat): Step<Option<CallError>>
    decreases if w.clock <= deadline then deadline - w.clock + 1 else 0
  {
    var s := Reconfigure(env, w, kind, cfg, MaxTime(deadline, w.clock));
    if s.value.None? then Step(s.world, None)
    else
      var e := s.value.value;
      if !Retryable(e) then Step(s.world, Some(Rejected(e)))
      else if s.world.clock > deadline then Step(s.world, Some(NotResolved(e)))
      else
        var r := Refresh(env, s.world, cfg, e);
        if r.value.Errored? then Step(r.world, Some(RereadFailed(r.value.error)))
        else
          var p := Pause(r.world, ctx, INIT_POLL);
          if p.value then Step(p.world, Some(Cancelled))
          else Send(env, p.world, ctx, kind, r.value.value, deadline)
  }

  // ------------------------------------------------------------- its laws

  /** The n-th attempt is the reconfig at position n of what the call appended to the log. */
  ghost predicate Attempt(w: World, w': World, i: int) {
    |w.log| <= i < |w'.log|
  }

  lemma {:induction false} OneAttempt(env: Env, w: World, kind: Kind, cfg: Config, maxTime: nat)
    ensures var s := Reconfigure(env, w, kind, cfg, maxTime);
            && s.world.log == w.log + [Reconfig(kind, Tick(env, w, env(w.calls).took).config, cfg, w.clock, maxTime,
                                                env(w.calls).took)]
            && s.world.clock == w.clock + env(w.calls).took && s.world.calls == w.calls + 1
            && w.config.version <= s.world.config.version
            && (s.world.config == w.config.(version := s.world.config.version) || s.world.config == cfg)
            && (s.value.None? ==> s.world.config == cfg)
  {
  }

  lemma {:induction false} OneRefresh(env: Env, w: World, cfg: Config, e: MongoError)
    ensures var r := Refresh(env, w, cfg, e);
            && r.world.log == w.log && w.clock <= r.world.clock && w.calls <= r.world.calls
            && w.config.version <= r.world.config.version
            && r.world.config == w.config.(version := r.world.config.version)
            && (r.value.Answered? ==> r.value.value == cfg.(version := r.value.value.version))
  {
  }

  /**
   * Whatever the server does, a send logs nothing but attempts of this config,
   * altered in its version only; the live members stay or become the sent
   * ones, and they are the sent ones when the send succeeds.
   */
  lemma {:induction false} SendOnlyMovesVersion(env: Env, w: World, ctx: nat, kind: Kind, cfg: Config, deadline: nat)
    ensures var s := Send(env, w, ctx, kind, cfg, deadline);
            && Extends(w, s.world) && w.config.version <= s.world.config.version
            && (forall i | Attempt(w, s.world, i) ::
                  && s.world.log[i].Reconfig? && s.world.log[i].kind == kind
                  && s.world.log[i].sent == cfg.(version := s.world.log[i].sent.version))
            && (s.world.config == w.config.(version := s.world.config.version)
                || s.world.config == cfg.(version := s.world.config.version))
            && (s.value.None? ==> s.world.config == cfg.(version := s.world.config.version))
    decreases if w.clock <= deadline then deadline - w.clock + 1 else 0
  {
    var s := Reconfigure(env, w, kind, cfg, MaxTime(deadline, w.clock));
    OneAttempt(env, w, kind, cfg, MaxTime(deadline, w.clock));
    hide Reconfigure, Tick, Retryable, Refresh;
    if s.value.Some? && Retryable(s.value.value) && s.world.clock <= deadline {
      var r := Refresh(env, s.world, cfg, s.value.value);
      OneRefresh(env, s.world, cfg, s.value.value);
      if r.value.Answered? {
        var p := Pause(r.world, ctx, INIT_POLL);
        if !p.value {
          SendOnlyMovesVersion(env, p.world, ctx, kind, r.value.value, deadline);
        }
      }
    }
  }

  /**
   * At most timeout / 500ms + 2 attempts, each allowed the time then left, or
   * 500ms if that is more.
   */
  lemma {:induction false} SendIsBounded(env: Env, w: World, ctx: nat, kind: Kind, cfg: Config, deadline: nat)
    ensures var s := Send(env, w, ctx, kind, cfg, deadline);
            && w.log <= s.world.log
            && 1 <= |s.world.log| - |w.log| <= (if w.clock <= deadline then (deadline - w.clock) / INIT_POLL + 2 else 1)
            && forall i | Attempt(w, s.world, i) ::
                 var e := s.world.log[i];
                 && e.Reconfig? && w.clock <= e.at
                 && e.maxTime >= 500 && e.maxTime >= deadline - e.at
                 && (e.maxTime == 500 || e.maxTime == deadline - e.at)
    decreases if w.clock <= deadline then deadline - w.clock + 1 else 0
  {
    var s := Reconfigure(env, w, kind, cfg, MaxTime(deadline, w.clock));
    OneAttempt(env, w, kind, cfg, MaxTime(deadline, w.clock));
    hide Reconfigure, Tick, Retryable, Refresh;
    if s.value.Some? && Retryable(s.value.value) && s.world.clock <= deadline {
      var r := Refresh(env, s.world, cfg, s.value.value);
      OneRefresh(env, s.world, cfg, s.value.value);
      if r.value.Answered? {
        var p := Pause(r.world, ctx, INIT_POLL);
        if !p.value {
          SendIsBounded(env, p.world, ctx, kind, r.value.value, deadline);
        }
      }
    }
  }

  /** A server that honours maxTime, with reads taking no time, holds a send up for the timeout and one second more. */
  lemma {:induction false} SendEndsInTime(env: Env, w: World, ctx: nat, kind: Kind, cfg: Config, deadline: nat)
    requires w.clock <= deadline + INIT_POLL
    requires forall i: nat :: env(i).readTook == 0
    requires var w' := Send(env, w, ctx, kind, cfg, deadline).world;
             forall i | Attempt(w, w', i) && w'.log[i].Reconfig? :: w'.log[i].took <= w'.log[i].maxTime
    ensures Send(env, w, ctx, kind, cfg, deadline).world.clock <= deadline + 1000
    decreases if w.clock <= deadline then deadline - w.clock + 1 else 0
  {
    SendOnlyMovesVersion(env, w, ctx, kind, cfg, deadline);
    var s := Reconfigure(env, w, kind, cfg, MaxTime(deadline, w.clock));
    var end := Send(env, w, ctx, kind, cfg, deadline).world;
    if s.value.Some? && Retryable(s.value.value) && s.world.clock <= deadline {
      var r := Refresh(env, s.world, cfg, s.value.value);
      if r.value.Answered? {
        var p := Pause(r.world, ctx, INIT_POLL);
        if !p.value {
          SendOnlyMovesVersion(env, p.world, ctx, kind, r.value.value, deadline);
          SendEndsInTime(env, p.world, ctx, kind, r.value.value, deadline);
        }
      }
    }
    assert s.world.log[|w.log|].took == env(w.calls).took;
    assert Attempt(w, end, |w.log|) && end.log[|w.log|] == s.world.log[|w.log|] by {
      SendBeginsWithAttempt(env, w, ctx, kind, cfg, deadline);
    }
  }

  lemma {:induction false} SendBeginsWithAttempt(env: Env, w: World, ctx: nat, kind: Kind, cfg: Config, deadline: nat)
    ensures Reconfigure(env, w, kind, cfg, MaxTime(deadline, w.clock)).world.log
            <= Send(env, w, ctx, kind, cfg, deadline).world.log
  {
    var s := Reconfigure(env, w, kind, cfg, MaxTime(deadline, w.clock));
    if s.value.Some? && Retryable(s.value.value) && s.world.clock <= deadline {
      var r := Refresh(env, s.world, cfg, s.value.value);
      if r.value.Answered? {
        var p := Pause(r.world, ctx, INIT_POLL);
        if !p.value {
          SendOnlyMovesVersion(env, p.world, ctx, kind, r.value.value, deadline);
        }
      }
    }
  }

  /** The errors that pass: not writable yet, a version conflict, the current config not yet committed. */
  ghost predicate Transient(e: MongoError) {
    e.CommandError? && e.code in {17405, 103, 308}
  }

  /**
   * An attempt is followed by another exactly when it failed with a transient
   * error before the deadline, the version could be read if it had conflicted,
   * and the pause after that ended before the context.
   */
  lemma {:induction false} SendTriesAgainExactlyWhen(env: Env, w: World, ctx: nat, kind: Kind, cfg: Config,
                                                     deadline: nat)
    ensures var first := Reconfigure(env, w, kind, cfg, MaxTime(deadline, w.clock));
            var read := env(first.world.calls);
            |Send(env, w, ctx, kind, cfg, deadline).world.log| > |w.log| + 1
            <==> && first.value.Some? && Transient(first.value.value) && first.world.clock <= deadline
                 && if first.value.value.code == 103
                    then read.readError.None? && first.world.clock + read.readTook + 500 < ctx
                    else first.world.clock + 500 < ctx
  {
    var s := Reconfigure(env, w, kind, cfg, MaxTime(deadline, w.clock));
    OneAttempt(env, w, kind, cfg, MaxTime(deadline, w.clock));
    hide Reconfigure;
    if s.value.Some? && Transient(s.value.value) && s.world.clock <= deadline {
      var r := Refresh(env, s.world, cfg, s.value.value);
      if r.value.Answered? {
        var p := Pause(r.world, ctx, INIT_POLL);
        if !p.value {
          SendIsBounded(env, p.world, ctx, kind, r.value.value, deadline);
        }
      }
    }
  }

  /** The last command of w' was a reconfig above the live version, which the script answered with e. */
  ghost predicate LastAnswered(env: Env, w: World, w': World, e: MongoError) {
    && w.calls < w'.calls && |w.log| < |w'.log| && w'.log[|w'.log| - 1].Reconfig?
    && var last, answer := w'.log[|w'.log| - 1], env(w'.calls - 1).reconfig;
       if last.sent.version <= last.live.version then e.CommandError? && e.code == 103
       else answer == Refused(e) || answer == InstalledButFailed(e)
  }

  /**
   * How a send gives up: at the first error that is not transient, with a
   * transient one only after the deadline, on a version it could not read
   * again, or once the context is over.
   */
  lemma {:induction false} SendGivesUp(env: Env, w: World, ctx: nat, kind: Kind, cfg: Config, deadline: nat)
    ensures var s := Send(env, w, ctx, kind, cfg, deadline);
            match s.value
            case None => true
            case Some(Rejected(e)) => !Transient(e) && LastAnswered(env, w, s.world, e)
            case Some(NotResolved(e)) => Transient(e) && s.world.clock > deadline && LastAnswered(env, w, s.world, e)
            case Some(RereadFailed(e)) => w.calls < s.world.calls && env(s.world.calls - 1).readError == Some(e)
            case Some(Cancelled) => s.world.clock >= ctx
    decreases if w.clock <= deadline then deadline - w.clock + 1 else 0
  {
    var s := Reconfigure(env, w, kind, cfg, MaxTime(deadline, w.clock));
    OneAttempt(env, w, kind, cfg, MaxTime(deadline, w.clock));
    AttemptAnswered(env, w, kind, cfg, MaxTime(deadline, w.clock));
    if s.value.Some? {
      var e := s.value.value;
      assert Retryable(e) <==> Transient(e);
      var r := Refresh(env, s.world, cfg, e);
      assert r.value.Errored? ==> env(r.world.calls - 1).readError == Some(r.value.error);
      OneRefresh(env, s.world, cfg, e);
      hide Reconfigure, Refresh, Transient, Retryable, LastAnswered;
      if Retryable(e) && s.world.clock <= deadline && r.value.Answered? {
        var p := Pause(r.world, ctx, INIT_POLL);
        if !p.value {
          SendGivesUp(env, p.world, ctx, kind, r.value.value, deadline);
          SendIsBounded(env, p.world, ctx, kind, r.value.value, deadline);
          LastAnsweredLater(env, w, p.world, Send(env, p.world, ctx, kind, r.value.value, deadline).world);
        }
      }
    }
  }

  lemma {:induction false} AttemptAnswered(env: Env, w: World, kind: Kind, cfg: Config, maxTime: nat)
    ensures var s := Reconfigure(env, w, kind, cfg, maxTime);
            s.value.Some? ==> LastAnswered(env, w, s.world, s.value.value)
  {
  }

  lemma {:induction false} LastAnsweredLater(env: Env, w: World, mid: World, w': World)
    requires w.calls <= mid.calls && |w.log| <= |mid.log|
    ensures forall e :: LastAnswered(env, mid, w', e) ==> LastAnswered(env, w, w', e)
  {
  }

  /**
   * What the n commands from position at on cost a send in failed attempts: a
   * foreign version bump one, a refusal one, and a config installed but
   * reported failed two, since the next attempt meets its version.
   */
  ghost function Setbacks(env: Env, at: nat, n: nat): nat
    decreases n
  {
    if n == 0 then 0
    else (if env(at).bump > 0 then 1 else 0)
         + (match env(at).reconfig
            case Accepted => 0
            case Refused(_) => 1
            case InstalledButFailed(_) => 2)
         + Setbacks(env, at + 1, n - 1)
  }

  /** The command answers a read, and a reconfig by accepting it or with a transient error, in at most d milliseconds. */
  ghost predicate Passing(a: Answer, d: nat) {
    && a.readError.None? && a.took <= d && a.readTook <= d
    && match a.reconfig
       case Accepted => true
       case Refused(e) => Transient(e)
       case InstalledButFailed(e) => Transient(e)
  }

  /** The longest k rounds of a failed attempt, a re-read and a pause can take. */
  ghost function Rounds(k: nat, d: nat): nat {
    if k == 0 then 0 else 500 + 2 * d + Rounds(k - 1, d)
  }

  /**
   * Transient errors cannot defeat a send, in any mix: if k of them, counting
   * the conflicts foreign bumps and lost acknowledgements cause, are all there
   * are, and k rounds of commands of at most d milliseconds and their pauses
   * fit before the deadline and the context, attempt k + 1 at the latest
   * installs the config.
   */
  lemma {:induction false} SendOutlastsSetbacks(env: Env, w: World, ctx: nat, kind: Kind, cfg: Config, deadline: nat,
                                                k: nat, d: nat)
    requires forall i | w.calls <= i <= w.calls + 2 * k :: Passing(env(i), d)
    requires Setbacks(env, w.calls, 2 * k + 1) + (if cfg.version <= w.config.version then 1 else 0) <= k
    requires w.clock + Rounds(k, d) <= deadline && w.clock + Rounds(k, d) < ctx
    ensures var s := Send(env, w, ctx, kind, cfg, deadline);
            && s.value.None? && s.world.config == cfg.(version := s.world.config.version)
            && |s.world.log| - |w.log| <= k + 1
    decreases k
  {
    var s := Reconfigure(env, w, kind, cfg, MaxTime(deadline, w.clock));
    OneAttempt(env, w, kind, cfg, MaxTime(deadline, w.clock));
    assert Passing(env(w.calls), d);
    if s.value.Some? {
      var e := s.value.value;
      assert Passing(env(w.calls + 1), d) by { assert k > 0; }
      RoundCosts(env, w, kind, cfg, MaxTime(deadline, w.clock), k, d);
      var r := Refresh(env, s.world, cfg, e);
      var p := Pause(r.world, ctx, INIT_POLL);
      hide Reconfigure, Refresh, Passing, Setbacks, Transient;
      SendOutlastsSetbacks(env, p.world, ctx, kind, r.value.value, deadline, k - 1, d);
    }
  }

  /** A failed attempt is transient, and it and the re-read it may need use up a setback and bounded time. */
  lemma {:induction false} RoundCosts(env: Env, w: World, kind: Kind, cfg: Config, maxTime: nat, k: nat, d: nat)
    requires Passing(env(w.calls), d) && Passing(env(w.calls + 1), d)
    requires Setbacks(env, w.calls, 2 * k + 1) + (if cfg.version <= w.config.version then 1 else 0) <= k
    requires Reconfigure(env, w, kind, cfg, maxTime).value.Some?
    ensures var s := Reconfigure(env, w, kind, cfg, maxTime);
            var r := Refresh(env, s.world, cfg, s.value.value);
            && k > 0 && Retryable(s.value.value)
            && r.value.Answered? && r.world.log == s.world.log
            && r.value.value == cfg.(version := r.value.value.version)
            && w.calls < r.world.calls <= w.calls + 2
            && r.world.clock <= w.clock + 2 * d
            && Setbacks(env, r.world.calls, 2 * (k - 1) + 1)
               + (if r.value.value.version <= r.world.config.version then 1 else 0) <= k - 1
  {
    var s := Reconfigure(env, w, kind, cfg, maxTime);
    var e := s.value.value;
    assert k > 0 && Transient(e);
    FewerSetbacks(env, w.calls + 1, 2 * k);
    FewerSetbacks(env, w.calls + 2, 2 * k - 1);
  }

  /** Setbacks are counted command by command. */
  lemma {:induction false} FewerSetbacks(env: Env, at: nat, n: nat)
    ensures n > 0 ==> Setbacks(env, at + 1, n - 1) <= Setbacks(env, at, n)
    ensures n > 0 ==> Setbacks(env, at, n - 1) <= Setbacks(env, at, n)
    decreases n
  {
    if n > 1 {
      FewerSetbacks(env, at + 1, n - 1);
    }
  }
  /**
   * A read of the configuration at w is answered, and a send right after it
   * meets k setbacks at most, which timeout and context leave time for.
   */
  ghost predicate Bearable(env: Env, w: World, ctx: nat, timeout: nat, k: nat, d: nat) {
    && env(w.calls).readError.None?
    && (forall i | w.calls + 1 <= i <= w.calls + 1 + 2 * k :: Passing(env(i), d))
    && Setbacks(env, w.calls + 1, 2 * k + 1) <= k
    && Rounds(k, d) <= timeout && w.clock + env(w.calls).readTook + Rounds(k, d) < ctx
  }

  /** Sending the next version of a configuration just read goes through if the setbacks are bearable. */
  lemma {:induction false} ReadThenSend(env: Env, w: World, ctx: nat, kind: Kind, members: seq<Member>, timeout: nat,
                                        k: nat, d: nat)
    requires Bearable(env, w, ctx, timeout, k, d)
    ensures var g := GetConfig(env, w);
            && g.value.Answered? && g.world.log == w.log && g.value.value.members == w.config.members
            && var sent := g.value.value.(members := members, version := g.value.value.version + 1);
               var s := Send(env, g.world, ctx, kind, sent, g.world.clock + timeout);
               s.value.None? && s.world.config.members == members
  {
    hide Send, Passing, Setbacks, Rounds;
    var g := GetConfig(env, w);
    var sent := g.value.value.(members := members, version := g.value.value.version + 1);
    assert g.world.calls == w.calls + 1 && g.world.clock == w.clock + env(w.calls).readTook;
    assert sent.version > g.world.config.version && sent.members == members;
    hide *;
    SendOutlastsSetbacks(env, g.world, ctx, kind, sent, g.world.clock + timeout, k, d);
  }
}
