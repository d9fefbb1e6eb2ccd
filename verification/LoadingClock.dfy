/**
 The loading cache under a clock: how long a lease lasts, how long a loader may run, and when
 two loaders for one key can be at work at once.
 */
module LoadingClock {
  import opened Wrappers
  import opened LeaseScripts
  import Cache = LoadingCache

  type Time = int   // microseconds

  /** The two settings, of which the constructor asks that the lease outlast the loader. */
  datatype Config = Config(leaseTtl: Time, loadTimeout: Time)

  predicate Accepted(config: Config) {
    0 < config.loadTimeout < config.leaseTtl
  }

  /** `max(1, int(lease_ttl * 1000))` milliseconds. */
  function Lease(config: Config): Time {
    (if config.leaseTtl / 1000 < 1 then 1 else config.leaseTtl / 1000) * 1000
  }

  /** `until`: when the lease may be gone. History: when each caller last got the lease, and started its loader. */
  datatype State = State(cache: Cache.State, now: Time, until: Time, claimedAt: map<Cache.CallerId, Time>, startedAt: map<Cache.CallerId, Time>)

  datatype Timed = Timed(at: Time, event: Cache.Event)

  function Start(now: Time): State {
    State(Cache.START, now, now, map[], map[])
  }

  /** Any number of events can happen in one microsecond; a lease lasts its time. */
  predicate Enabled(s: State, te: Timed) {
    te.at >= s.now && Cache.Enabled(s.cache, te.event) && (te.event.LeaseExpires? ==> te.at >= s.until)
  }

  predicate Acquires(s: State, e: Cache.Event) {
    e.Claim? && Claimable(s.cache.keys.lease)
  }

  /** A failure marker takes the place of the lease, for the same time. */
  predicate Marks(s: State, e: Cache.Event)
    requires Cache.Enabled(s.cache, e)
  {
    e.Fail? && s.cache.keys.lease == Some(s.cache.callers[e.c].phase.token)
  }

  function Step(config: Config, s: State, te: Timed): State {
    if !Enabled(s, te) then s else
      var e, cache := te.event, Cache.Step(s.cache, te.event);
      State(cache, te.at,
            if Acquires(s, e) || Marks(s, e) then te.at + Lease(config) else s.until,
            if Acquires(s, e) then s.claimedAt[e.c := te.at] else s.claimedAt,
            if e.Recheck? && cache.callers[e.c].phase.Loading? then s.startedAt[e.c := te.at] else s.startedAt)
  }

  function Exec(config: Config, s: State, run: seq<Timed>): State
    decreases |run|
  {
    if run == [] then s else Step(config, Exec(config, s, run[..|run| - 1]), run[|run| - 1])
  }

  predicate Loads(s: State, c: Cache.CallerId) {
    c in s.cache.callers && s.cache.callers[c].phase.Loading?
  }

  /** The loader started within the given delay of its lease, and is still within its timeout. */
  predicate OnTime(config: Config, delay: Time, s: State, c: Cache.CallerId) {
    c in s.claimedAt && c in s.startedAt && s.startedAt[c] <= s.claimedAt[c] + delay && s.now <= s.startedAt[c] + config.loadTimeout
  }

  // ---------- what every run keeps ----------

  predicate Early(s: State, c: Cache.CallerId) {
    c in s.cache.callers && (s.cache.callers[c].phase.Rechecking? || s.cache.callers[c].phase.Loading?)
  }

  /** Until its lease has run out, a caller that loads or is about to has it. */
  predicate Guarded(config: Config, s: State, c: Cache.CallerId)
    requires Early(s, c)
  {
    && c in s.claimedAt && s.claimedAt[c] <= s.now
    && (s.cache.callers[c].phase.Loading? ==> c in s.startedAt && s.claimedAt[c] <= s.startedAt[c] <= s.now)
    && (s.now >= s.claimedAt[c] + Lease(config) ||
        (s.cache.keys.lease == Some(s.cache.callers[c].phase.token) && s.until == s.claimedAt[c] + Lease(config)))
  }

  ghost predicate Inv(config: Config, s: State) {
    Cache.Inv(s.cache) && forall c :: Early(s, c) ==> Guarded(config, s, c)
  }

  lemma StepKeepsInv(config: Config, s: State, te: Timed)
    requires Inv(config, s)
    ensures Inv(config, Step(config, s, te))
  {
    if Enabled(s, te) {
      Cache.StepKeepsInv(s.cache, te.event);
      forall c | Early(Step(config, s, te), c) ensures Guarded(config, Step(config, s, te), c) {
        if Early(s, c) && s.cache.callers[c].phase.token == Step(config, s, te).cache.callers[c].phase.token {
          StaysGuarded(config, s, te, c);
        } else {
          BecomesGuarded(config, s, te, c);
        }
      }
    }
  }

  lemma StaysGuarded(config: Config, s: State, te: Timed, c: Cache.CallerId)
    requires Inv(config, s) && Enabled(s, te) && Early(s, c) && Early(Step(config, s, te), c)
    requires s.cache.callers[c].phase.token == Step(config, s, te).cache.callers[c].phase.token
    ensures Guarded(config, Step(config, s, te), c)
  {
    assert Guarded(config, s, c) && Cache.CallerInv(s.cache, s.cache.callers[c]);
    var token := s.cache.callers[c].phase.token;
    if s.cache.keys.lease == Some(token) {
      Cache.NotAFailure(token);
      assert Cache.HasToken(s.cache, c);
      if Cache.Step(s.cache, te.event).keys.lease != s.cache.keys.lease {
        Cache.HeldLeaseStep(s.cache, te.event, c);
      }
    }
  }

  /** A caller that was not early is so only by acquiring the lease. */
  lemma BecomesGuarded(config: Config, s: State, te: Timed, c: Cache.CallerId)
    requires Inv(config, s) && Enabled(s, te) && Early(Step(config, s, te), c)
    requires !Early(s, c) || s.cache.callers[c].phase.token != Step(config, s, te).cache.callers[c].phase.token
    ensures Guarded(config, Step(config, s, te), c)
  {
  }

  lemma {:induction false} InvAlways(config: Config, start: Time, run: seq<Timed>)
    ensures Inv(config, Exec(config, Start(start), run))
    decreases |run|
  {
    if run != [] {
      InvAlways(config, start, run[..|run| - 1]);
      StepKeepsInv(config, Exec(config, Start(start), run[..|run| - 1]), run[|run| - 1]);
    }
  }

  // ---------- a lease that outlasts the delay and the loader ----------

  lemma {:induction false} LoadersExclude(config: Config, delay: Time, start: Time, run: seq<Timed>, c: Cache.CallerId, d: Cache.CallerId)
    requires delay + config.loadTimeout < Lease(config) && c != d
    requires var s := Exec(config, Start(start), run); OnTime(config, delay, s, c) && OnTime(config, delay, s, d)
    ensures var s := Exec(config, Start(start), run); !(Loads(s, c) && Loads(s, d))
  {
    InvAlways(config, start, run);
    var s := Exec(config, Start(start), run);
    if Loads(s, c) && Loads(s, d) {
      assert Guarded(config, s, c) && Guarded(config, s, d);
      assert Cache.HasToken(s.cache, c) && Cache.HasToken(s.cache, d);
      assert false;
    }
  }

  // ---------- and one that does not ----------

  ghost predicate Reached(config: Config, s: State) {
    exists run :: s == Exec(config, Start(0), run)
  }

  lemma Next(config: Config, s: State, te: Timed, n: State)
    requires Reached(config, s) && n == Step(config, s, te)
    ensures Reached(config, n)
  {
    var run :| s == Exec(config, Start(0), run);
    assert (run + [te])[..|run + [te]| - 1] == run;
    assert n == Exec(config, Start(0), run + [te]);
  }

  /** A caller that finds neither a value nor a lease starts its loader. */
  lemma StartsToLoad(config: Config, s: State, c: Cache.CallerId, uuid: string, claim: Time, start: Time) returns (n: State)
    requires Reached(config, s) && s.now <= claim <= start
    requires c !in s.cache.callers && s.cache.keys == Keys(None, None) && Token(uuid) !in s.cache.issued
    ensures Reached(config, n) && n.now == start && n.until == claim + Lease(config)
    ensures n.claimedAt == s.claimedAt[c := claim] && n.startedAt == s.startedAt[c := start]
    ensures n.cache.keys == Keys(Some(Token(uuid)), None) && n.cache.issued == s.cache.issued + {Token(uuid)}
    ensures Loads(n, c) && n.cache.callers == s.cache.callers[c := n.cache.callers[c]]
  {
    var s1 := Step(config, s, Timed(claim, Cache.Call(c)));
    Next(config, s, Timed(claim, Cache.Call(c)), s1);
    var s2 := Step(config, s1, Timed(claim, Cache.Look(c)));
    Next(config, s1, Timed(claim, Cache.Look(c)), s2);
    var s3 := Step(config, s2, Timed(claim, Cache.Claim(c, uuid, false)));
    Next(config, s2, Timed(claim, Cache.Claim(c, uuid, false)), s3);
    n := Step(config, s3, Timed(start, Cache.Recheck(c)));
    Next(config, s3, Timed(start, Cache.Recheck(c)), n);
  }

  lemma LoadersOverlap(config: Config, delay: Time, c: Cache.CallerId, d: Cache.CallerId) returns (n: State)
    requires c != d && delay >= 0 && config.loadTimeout >= 0 && delay + config.loadTimeout >= Lease(config)
    ensures Reached(config, n) && Loads(n, c) && Loads(n, d) && OnTime(config, delay, n, c) && OnTime(config, delay, n, d)
  {
    assert Start(0) == Exec(config, Start(0), []);
    var s1 := StartsToLoad(config, Start(0), c, "c", 0, delay);
    var t := if delay < Lease(config) then Lease(config) else delay;
    var s2 := Step(config, s1, Timed(t, Cache.LeaseExpires));
    Next(config, s1, Timed(t, Cache.LeaseExpires), s2);
    assert Token("c")[|IN_PROGRESS_PREFIX|] == 'c' && Token("d")[|IN_PROGRESS_PREFIX|] == 'd';
    n := StartsToLoad(config, s2, d, "d", t, t);
  }

  /** In every run, no two loaders that are on time are at work for the key at once. */
  ghost predicate NeverTwoLoaders(config: Config, delay: Time) {
    forall start, run, c, d ::
      var s := Exec(config, Start(start), run);
      c != d && OnTime(config, delay, s, c) && OnTime(config, delay, s, d) ==> !(Loads(s, c) && Loads(s, d))
  }

  /**
   The exact condition: the delay between the acquire script and the start of the loader, plus
   the load timeout, stays below the lease as Redis gets it. For the delay of zero that is what
   the constructor asks for, but for the truncation to milliseconds.
   */
  lemma {:induction false} NeverTwoLoadersExactly(config: Config, delay: Time)
    requires Accepted(config) && delay >= 0
    ensures NeverTwoLoaders(config, delay) <==> delay + config.loadTimeout < Lease(config)
  {
    if delay + config.loadTimeout < Lease(config) {
      forall start, run, c, d | c != d && OnTime(config, delay, Exec(config, Start(start), run), c) && OnTime(config, delay, Exec(config, Start(start), run), d)
        ensures !(Loads(Exec(config, Start(start), run), c) && Loads(Exec(config, Start(start), run), d))
      {
        LoadersExclude(config, delay, start, run, c, d);
      }
    } else {
      var n := LoadersOverlap(config, delay, 0, 1);
      var run :| n == Exec(config, Start(0), run);
      assert !NeverTwoLoaders(config, delay);
    }
  }

  /** What a caller can rely on: a lease TTL that exceeds the load timeout by the delay and one millisecond. */
  lemma EnoughMargin(config: Config, delay: Time)
    requires Accepted(config) && delay >= 0 && config.leaseTtl >= config.loadTimeout + delay + 1000
    ensures delay + config.loadTimeout < Lease(config)
  {
  }

  /** The constructor's own check does not suffice, even when every loader starts at once. */
  lemma AcceptedIsNotEnough()
    ensures exists config :: Accepted(config) && !NeverTwoLoaders(config, 0)
  {
    var config := Config(1_500, 1_200);
    NeverTwoLoadersExactly(config, 0);
    assert Accepted(config) && !NeverTwoLoaders(config, 0);
  }
}
