/** The connection ladder run at start-up.

    The timeout grows in five steps, 100 ms to 4100 ms by 1000 ms; at each
    step every configured profile is tried in configuration order, and the
    first connect that succeeds ends both loops. Whether a connect succeeds
    is the network's business, so it is an oracle of the profile's position
    and the timeout in force. */
module Connection {
  import opened Wrappers

  /** One configuration section. `timeout` is in whole seconds, as the
      configuration file gives it. */
  datatype Profile = Profile(host: string, port: Option<int>, password: Option<string>, timeout: Option<int>)

  const DefaultPort := 6600

  /** The port connected to: the configured one, else 6600. */
  function PortOf(p: Profile): (r: int)
    ensures p.port.None? ==> r == DefaultPort
    ensures p.port.Some? ==> r == p.port.value
  {
    if p.port.Some? then p.port.value else DefaultPort
  }

  /** Number of timeout steps: `range(100, 5100, 1000)` has five values. */
  const Steps := 5

  /** The timeout of step `step`, in milliseconds. */
  function StepTimeout(step: nat): int {
    100 + 1000 * step
  }

  /** One connect call: which profile (by position), the host and port
      dialled, and the timeout (ms) in force. */
  datatype Attempt = Attempt(profile: nat, host: string, port: int, timeout: int)

  function AttemptOf(profiles: seq<Profile>, j: nat, step: nat): Attempt
    requires j < |profiles|
  {
    Attempt(j, profiles[j].host, PortOf(profiles[j]), StepTimeout(step))
  }

  /** The outcome of a successful ladder: the profile that connected, the
      password sent to the daemon if any, and the session timeout (ms). */
  datatype Session = Session(profile: nat, password: Option<string>, timeout: int)

  /** One sweep over the profiles at step `step`. */
  function Sweep(profiles: seq<Profile>, step: nat): (r: seq<Attempt>)
    ensures |r| == |profiles|
    ensures forall j :: 0 <= j < |profiles| ==> r[j] == AttemptOf(profiles, j, step)
  {
    seq(|profiles|, j requires 0 <= j < |profiles| => AttemptOf(profiles, j, step))
  }

  /** The attempts of the first `steps` sweeps, had none succeeded. */
  function Schedule(profiles: seq<Profile>, steps: nat): seq<Attempt> {
    if steps == 0 then [] else Schedule(profiles, steps - 1) + Sweep(profiles, steps - 1)
  }

  /** The schedule is timeout-major, profile-minor: attempt `step * n + j`
      tries profile `j` at the timeout of step `step`. */
  lemma {:induction false} ScheduleAt(profiles: seq<Profile>, steps: nat, step: nat, j: nat)
    requires step < steps && j < |profiles|
    ensures |Schedule(profiles, steps)| == steps * |profiles|
    ensures step * |profiles| + j < |Schedule(profiles, steps)|
    ensures Schedule(profiles, steps)[step * |profiles| + j] == AttemptOf(profiles, j, step)
  {
    var n := |profiles|;
    ScheduleLength(profiles, steps);
    ScheduleLength(profiles, steps - 1);
    assert (steps - 1) * n == steps * n - n;
    if step < steps - 1 {
      ScheduleAt(profiles, steps - 1, step, j);
      assert step * n + j < (steps - 1) * n by {
        assert step * n <= (steps - 2) * n;
      }
    }
  }

  /** Had every connect failed, there would be `steps` attempts per profile. */
  lemma {:induction false} ScheduleLength(profiles: seq<Profile>, steps: nat)
    ensures |Schedule(profiles, steps)| == steps * |profiles|
  {
    if steps > 0 {
      ScheduleLength(profiles, steps - 1);
      assert (steps - 1) * |profiles| + |profiles| == steps * |profiles|;
    }
  }

  /** Earlier schedules are prefixes of later ones. */
  lemma {:induction false} SchedulePrefix(profiles: seq<Profile>, s: nat, t: nat)
    requires s <= t
    ensures Schedule(profiles, s) <= Schedule(profiles, t)
  {
    if s < t {
      SchedulePrefix(profiles, s, t - 1);
    }
  }

  /** A ladder stopped inside a sweep has made a prefix of the full schedule. */
  lemma PartialSweepPrefix(profiles: seq<Profile>, step: nat, j: nat)
    requires step < Steps && j <= |profiles|
    ensures Schedule(profiles, step) + Sweep(profiles, step)[..j] <= Schedule(profiles, Steps)
  {
    SchedulePrefix(profiles, step + 1, Steps);
    assert Schedule(profiles, step + 1) == Schedule(profiles, step) + Sweep(profiles, step);
  }

  /** The session a connect of profile `j` at timeout `ms` opens: the
      password goes out only when one is configured and non-empty, and the
      session timeout is the configured one, else ten times `ms`. */
  function SessionFor(profiles: seq<Profile>, j: nat, ms: int): (r: Session)
    requires j < |profiles|
    ensures r.profile == j
    ensures r.password.Some? <==> profiles[j].password.Some? && profiles[j].password.value != ""
    ensures r.password.Some? ==> r.password == profiles[j].password
    ensures profiles[j].timeout.Some? ==> r.timeout == 1000 * profiles[j].timeout.value
    ensures profiles[j].timeout.None? ==> r.timeout == 10 * ms
  {
    var p := profiles[j];
    Session(j,
            if p.password.Some? && p.password.value != "" then p.password else None,
            if p.timeout.Some? then 1000 * p.timeout.value else 10 * ms)
  }

  /** The ladder. `trace` lists every connect call in order; `session` is
      the opened session, if any; `timeout` is the client's timeout (ms)
      when the ladder ends. */
  method Connect(profiles: seq<Profile>, succeeds: (nat, int) -> bool)
    returns (trace: seq<Attempt>, session: Option<Session>, timeout: int)
    ensures trace <= Schedule(profiles, Steps)
    ensures forall k :: 0 <= k < |trace| - 1 ==> !succeeds(trace[k].profile, trace[k].timeout)
    ensures session.None? ==>
      && trace == Schedule(profiles, Steps)
      && (forall k :: 0 <= k < |trace| ==> !succeeds(trace[k].profile, trace[k].timeout))
      && timeout == StepTimeout(Steps - 1)
    ensures session.Some? ==>
      && |trace| > 0
      && var last := trace[|trace| - 1];
      && last.profile < |profiles|
      && succeeds(last.profile, last.timeout)
      && session.value == SessionFor(profiles, last.profile, last.timeout)
      && timeout == session.value.timeout
  {
    var n := |profiles|;
    trace, session, timeout := [], None, 0;
    var step := 0;
    while step < Steps
      invariant 0 <= step <= Steps
      invariant trace == Schedule(profiles, step)
      invariant forall k :: 0 <= k < |trace| ==> !succeeds(trace[k].profile, trace[k].timeout)
      invariant step > 0 ==> timeout == StepTimeout(step - 1)
    {
      timeout := StepTimeout(step);
      var j := 0;
      while j < n
        invariant 0 <= j <= n
        invariant trace == Schedule(profiles, step) + Sweep(profiles, step)[..j]
        invariant forall k :: 0 <= k < |trace| ==> !succeeds(trace[k].profile, trace[k].timeout)
      {
        var attempt := AttemptOf(profiles, j, step);
        assert Sweep(profiles, step)[..j + 1] == Sweep(profiles, step)[..j] + [attempt];
        trace := trace + [attempt];
        if succeeds(j, timeout) {
          PartialSweepPrefix(profiles, step, j + 1);
          session := Some(SessionFor(profiles, j, timeout));
          timeout := session.value.timeout;
          return;
        }
        j := j + 1;
      }
      assert Sweep(profiles, step)[..n] == Sweep(profiles, step);
      step := step + 1;
    }
  }
}
