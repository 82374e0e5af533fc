/** The community snapshot: one upstream fetch at a time, spaced after successes and after failures,
    the last good snapshot kept. */
module CommunityCache {
  import opened Outcomes

  datatype Cached<S> = Cached(at: nat, snapshot: S)

  function FreshOf<S>(entry: Option<Cached<S>>, ttl: nat, now: nat): Option<S> {
    if entry.Some? && now < entry.value.at + ttl then Some(entry.value.snapshot) else None
  }

  predicate BackingOff(retryAt: Option<nat>, now: nat) {
    retryAt.Some? && now < retryAt.value
  }

  function StaleOf<S>(entry: Option<Cached<S>>): Option<S> {
    if entry.Some? then Some(entry.value.snapshot) else None
  }

  // ---------- any number of callers ----------

  /** Where a caller is; each of its reads and writes of the cache is a step of its own. From `Locked`
      to `Leaving` it holds the fetch lock. */
  datatype Position<S> =
    | Outside
    | Missed
    | Resting
    | Waiting
    | Locked
    | MissedAgain
    | RestingInside
    | Fetching
    | Fetched(result: Option<S>)
    | Noted
    | Leaving(answer: Option<S>)
    | Answered(answer: Option<S>)

  /** A fetch: when it began, when its outcome was recorded, and the outcome. */
  datatype Fetch<S> = Fetch(began: nat, ended: nat, result: Option<S>)

  datatype Settings = Settings(ttl: nat, negativeTtl: nat)

  /** `done` are the fetches whose outcome is recorded; `running` when the one under way began. */
  datatype State<S> = State(
    now: nat, entry: Option<Cached<S>>, retryAt: Option<nat>, lock: Option<nat>,
    callers: map<nat, Position<S>>, done: seq<Fetch<S>>, running: Option<nat>)

  datatype Action<S> =
    | Tick(passed: nat)
    | Arrive(caller: nat)
    | CheckBackoff(caller: nat)
    | ReadStale(caller: nat)
    | Acquire(caller: nat)
    | Reread(caller: nat)
    | RecheckBackoff(caller: nat)
    | Upstream(caller: nat, result: Option<S>)
    | Record(caller: nat)
    | Leave(caller: nat)

  function Initial<S>(): State<S> {
    State(0, None, None, None, map[], [], None)
  }

  function At<S>(s: State<S>, caller: nat): Position<S> {
    if caller in s.callers then s.callers[caller] else Outside
  }

  function Moved<S>(s: State<S>, caller: nat, p: Position<S>): State<S> {
    s.(callers := s.callers[caller := p])
  }

  /** The outcome goes into the cache and into the record. */
  function Recorded<S>(g: Settings, s: State<S>, result: Option<S>): State<S>
    requires s.running.Some?
  {
    var fetch := Fetch(s.running.value, s.now, result);
    var t := s.(done := s.done + [fetch], running := None);
    match result
    case Some(snapshot) => t.(entry := Some(Cached(s.now, snapshot)), retryAt := None)
    case None => t.(retryAt := Some(s.now + g.negativeTtl))
  }

  /** One step; an action that is not possible where its caller stands does nothing. */
  function Step<S>(g: Settings, s: State<S>, a: Action<S>): State<S> {
    match a
    case Tick(passed) => s.(now := s.now + passed)
    case Arrive(c) =>
      if !(At(s, c).Outside? || At(s, c).Answered?) then s
      else
        var hit := FreshOf(s.entry, g.ttl, s.now);
        Moved(s, c, if hit.Some? then Answered(hit) else Missed)
    case CheckBackoff(c) =>
      if !At(s, c).Missed? then s
      else Moved(s, c, if BackingOff(s.retryAt, s.now) then Resting else Waiting)
    case ReadStale(c) =>
      if At(s, c).Resting? then Moved(s, c, Answered(StaleOf(s.entry)))
      else if At(s, c).RestingInside? || At(s, c).Noted? then Moved(s, c, Leaving(StaleOf(s.entry)))
      else s
    case Acquire(c) =>
      if At(s, c).Waiting? && s.lock.None? then Moved(s.(lock := Some(c)), c, Locked) else s
    case Reread(c) =>
      if !At(s, c).Locked? then s
      else
        var hit := FreshOf(s.entry, g.ttl, s.now);
        Moved(s, c, if hit.Some? then Leaving(hit) else MissedAgain)
    case RecheckBackoff(c) =>
      if !At(s, c).MissedAgain? then s
      else if BackingOff(s.retryAt, s.now) then Moved(s, c, RestingInside)
      else Moved(s.(running := Some(s.now)), c, Fetching)
    case Upstream(c, result) =>
      if At(s, c).Fetching? then Moved(s, c, Fetched(result)) else s
    case Record(c) =>
      if !At(s, c).Fetched? || s.running.None? then s
      else
        var result := At(s, c).result;
        Moved(Recorded(g, s, result), c, if result.Some? then Leaving(result) else Noted)
    case Leave(c) =>
      if At(s, c).Leaving? then Moved(s.(lock := None), c, Answered(At(s, c).answer)) else s
  }

  function RunFrom<S>(g: Settings, s: State<S>, actions: seq<Action<S>>): State<S> {
    if actions == [] then s else Step(g, RunFrom(g, s, actions[..|actions| - 1]), actions[|actions| - 1])
  }

  function Run<S>(g: Settings, actions: seq<Action<S>>): State<S> {
    RunFrom(g, Initial(), actions)
  }

  predicate InSection<S>(p: Position<S>) {
    p.Locked? || p.MissedAgain? || p.RestingInside? || p.Fetching? || p.Fetched? || p.Noted? || p.Leaving?
  }

  /** The fetch lock is held by exactly the caller in the locked section. */
  ghost predicate Exclusive<S>(s: State<S>) {
    forall c: nat :: InSection(At(s, c)) <==> s.lock == Some(c)
  }

  /** A fetch is under way exactly while the lock's holder is fetching or has not recorded yet. */
  predicate FetchingNow<S>(s: State<S>) {
    s.lock.Some? && (At(s, s.lock.value).Fetching? || At(s, s.lock.value).Fetched?)
  }

  /** How long the next fetch must wait after this one. */
  function Rest<S>(g: Settings, f: Fetch<S>): nat {
    if f.result.Some? then g.ttl else g.negativeTtl
  }

  predicate Spaced<S>(g: Settings, done: seq<Fetch<S>>) {
    && (forall i :: 0 <= i < |done| ==> done[i].began <= done[i].ended)
    && (forall i :: 0 <= i < |done| - 1 ==> done[i].ended + Rest(g, done[i]) <= done[i + 1].began)
  }

  /** What the cache says of the last fetch, and of the one under way. */
  ghost predicate CacheAgrees<S>(g: Settings, s: State<S>) {
    && (s.running.Some? <==> FetchingNow(s))
    && (s.running.Some? ==> s.running.value <= s.now)
    && (s.running.Some? && s.done != [] ==>
          s.done[|s.done| - 1].ended + Rest(g, s.done[|s.done| - 1]) <= s.running.value)
    && (s.done != [] && s.done[|s.done| - 1].result.Some? ==>
          s.entry == Some(Cached(s.done[|s.done| - 1].ended, s.done[|s.done| - 1].result.value)))
    && s.retryAt == (if s.done != [] && s.done[|s.done| - 1].result.None?
                     then Some(s.done[|s.done| - 1].ended + g.negativeTtl) else None)
    && (forall i :: 0 <= i < |s.done| ==> s.done[i].ended <= s.now)
  }

  /** A caller past the second look at the cache found it old, and it has not changed since. */
  predicate LookedTwice<S>(g: Settings, s: State<S>) {
    s.lock.Some? && At(s, s.lock.value).MissedAgain? && s.entry.Some? ==> s.entry.value.at + g.ttl <= s.now
  }

  /** What the last good fetch brought. */
  function LastGood<S>(done: seq<Fetch<S>>): Option<Cached<S>> {
    if done == [] then None
    else
      var f := done[|done| - 1];
      if f.result.Some? then Some(Cached(f.ended, f.result.value)) else LastGood(done[..|done| - 1])
  }

  /** The cache holds what the last good fetch brought, whatever failed since. */
  ghost predicate Kept<S>(s: State<S>) {
    s.entry == LastGood(s.done)
  }

  ghost predicate Timed<S>(g: Settings, s: State<S>) {
    Spaced(g, s.done) && CacheAgrees(g, s) && LookedTwice(g, s)
  }

  ghost predicate Inv<S>(g: Settings, s: State<S>) {
    Exclusive(s) && Timed(g, s) && Kept(s)
  }

  // ---------- every step keeps this ----------

  lemma StepKeepsExclusive<S>(g: Settings, s: State<S>, a: Action<S>)
    requires Exclusive(s)
    ensures Exclusive(Step(g, s, a))
  {
    var t := Step(g, s, a);
    if !a.Tick? {
      assert forall c: nat :: c != a.caller ==> At(t, c) == At(s, c);
    }
  }

  lemma Inside<S>(s: State<S>, c: nat)
    requires Exclusive(s) && InSection(At(s, c))
    ensures s.lock == Some(c)
  {
  }

  /** A step of a caller outside the locked section, or of the clock. */
  lemma OutsideKeepsTimes<S>(g: Settings, s: State<S>, a: Action<S>)
    requires Exclusive(s) && Timed(g, s)
    requires a.Tick? || !InSection(At(s, a.caller))
    ensures Timed(g, Step(g, s, a))
  {
  }

  /** A step of the lock's holder that begins or ends no fetch. */
  lemma QuietKeepsTimes<S>(g: Settings, s: State<S>, a: Action<S>)
    requires Timed(g, s) && !a.Tick? && s.lock == Some(a.caller)
    requires !a.Record? && !a.RecheckBackoff?
    ensures Timed(g, Step(g, s, a))
  {
  }

  lemma BeginKeepsTimes<S>(g: Settings, s: State<S>, c: nat)
    requires Timed(g, s) && s.lock == Some(c)
    ensures Timed(g, Step(g, s, RecheckBackoff(c)))
  {
  }

  lemma RecordKeepsTimes<S>(g: Settings, s: State<S>, c: nat)
    requires Timed(g, s) && s.lock == Some(c)
    ensures Timed(g, Step(g, s, Record(c)))
  {
    if At(s, c).Fetched? && s.running.Some? {
      var fetch := Fetch(s.running.value, s.now, At(s, c).result);
      SpacedMore(g, s.done, fetch);
    }
  }

  lemma SpacedMore<S>(g: Settings, done: seq<Fetch<S>>, f: Fetch<S>)
    requires Spaced(g, done) && f.began <= f.ended
    requires done != [] ==> done[|done| - 1].ended + Rest(g, done[|done| - 1]) <= f.began
    ensures Spaced(g, done + [f])
  {
  }

  lemma StepKeepsTimes<S>(g: Settings, s: State<S>, a: Action<S>)
    requires Exclusive(s) && Timed(g, s)
    ensures Timed(g, Step(g, s, a))
  {
    hide Exclusive, Timed, Step;
    if a.Tick? || !InSection(At(s, a.caller)) {
      OutsideKeepsTimes(g, s, a);
    } else {
      Inside(s, a.caller);
      if a.Record? {
        RecordKeepsTimes(g, s, a.caller);
      } else if a.RecheckBackoff? {
        BeginKeepsTimes(g, s, a.caller);
      } else {
        QuietKeepsTimes(g, s, a);
      }
    }
  }

  lemma StepKeepsEntry<S>(g: Settings, s: State<S>, a: Action<S>)
    requires Kept(s)
    ensures Kept(Step(g, s, a))
  {
    if a.Record? && At(s, a.caller).Fetched? && s.running.Some? {
      LastGoodMore(s.done, Fetch(s.running.value, s.now, At(s, a.caller).result));
    }
  }

  lemma LastGoodMore<S>(done: seq<Fetch<S>>, f: Fetch<S>)
    ensures LastGood(done + [f]) == if f.result.Some? then Some(Cached(f.ended, f.result.value)) else LastGood(done)
  {
    assert (done + [f])[..|done|] == done;
  }

  lemma StepKeepsInv<S>(g: Settings, s: State<S>, a: Action<S>)
    requires Inv(g, s)
    ensures Inv(g, Step(g, s, a))
  {
    hide Step, Exclusive, Timed, Kept;
    StepKeepsExclusive(g, s, a);
    StepKeepsTimes(g, s, a);
    StepKeepsEntry(g, s, a);
  }

  lemma InitialInv<S>(g: Settings)
    ensures Inv(g, Initial<S>())
  {
  }

  lemma {:induction false} RunKeepsInv<S>(g: Settings, actions: seq<Action<S>>)
    ensures Inv(g, Run(g, actions))
  {
    hide Inv, Step;
    if actions == [] {
      InitialInv<S>(g);
    } else {
      RunKeepsInv(g, actions[..|actions| - 1]);
      StepKeepsInv(g, Run(g, actions[..|actions| - 1]), actions[|actions| - 1]);
    }
  }

  // ---------- the results ----------

  lemma OneFetchAtATime<S>(g: Settings, actions: seq<Action<S>>, c: nat, d: nat)
    requires At(Run(g, actions), c).Fetching? && At(Run(g, actions), d).Fetching?
    ensures c == d
  {
    RunKeepsInv(g, actions);
    assert InSection(At(Run(g, actions), c)) && InSection(At(Run(g, actions), d));
  }

  /** The next fetch waits out `ttl` after a success and `negativeTtl` after a failure. */
  lemma FetchesSpaced<S>(g: Settings, actions: seq<Action<S>>)
    ensures var s := Run(g, actions);
            && (forall i :: 0 <= i < |s.done| - 1 ==> s.done[i].ended + Rest(g, s.done[i]) <= s.done[i + 1].began)
            && (s.running.Some? && s.done != [] ==>
                  s.done[|s.done| - 1].ended + Rest(g, s.done[|s.done| - 1]) <= s.running.value)
  {
    RunKeepsInv(g, actions);
  }

  /** At every moment the cache holds exactly the snapshot of the last fetch that succeeded, and its time;
      nothing that fails after it takes it away. */
  lemma EntryIsLastGood<S>(g: Settings, actions: seq<Action<S>>)
    ensures Run(g, actions).entry == LastGood(Run(g, actions).done)
  {
    RunKeepsInv(g, actions);
  }

  lemma {:induction false} GoodFetchLeavesSome<S>(done: seq<Fetch<S>>, k: nat)
    requires k < |done| && done[k].result.Some?
    ensures LastGood(done).Some?
  {
    if k < |done| - 1 {
      GoodFetchLeavesSome(done[..|done| - 1], k);
    }
  }

  /** After one good fetch, a caller that falls back to the cache is always given a snapshot. */
  lemma AnsweredAfterSuccess<S>(g: Settings, actions: seq<Action<S>>, k: nat, c: nat)
    requires k < |Run(g, actions).done| && Run(g, actions).done[k].result.Some?
    requires var p := At(Run(g, actions), c); p.Resting? || p.RestingInside? || p.Noted?
    ensures var p := At(Step(g, Run(g, actions), ReadStale(c)), c);
            (p.Answered? || p.Leaving?) && p.answer.Some?
  {
    EntryIsLastGood(g, actions);
    GoodFetchLeavesSome(Run(g, actions).done, k);
  }

  // ---------- how old an answer is, and how long callers hold back ----------

  /** A fetch brought this snapshot less than `ttl` ago. */
  ghost predicate Recent<S>(g: Settings, s: State<S>, snapshot: S) {
    exists k :: 0 <= k < |s.done| && s.done[k].result == Some(snapshot)
                && s.done[k].ended <= s.now < s.done[k].ended + g.ttl
  }

  /** Every snapshot fetched has reached `ttl`. */
  ghost predicate AllOld<S>(g: Settings, s: State<S>) {
    forall k :: 0 <= k < |s.done| && s.done[k].result.Some? ==> s.done[k].ended + g.ttl <= s.now
  }

  /** The last fetch failed, less than `negativeTtl` ago. */
  predicate JustFailed<S>(g: Settings, s: State<S>) {
    && s.done != [] && s.done[|s.done| - 1].result.None?
    && s.now < s.done[|s.done| - 1].ended + g.negativeTtl
  }

  /** The last good fetch, and that no good one ended after it. */
  lemma {:induction false} LastGoodIsNewest<S>(g: Settings, done: seq<Fetch<S>>)
    requires Spaced(g, done)
    ensures match LastGood(done)
            case None => forall k :: 0 <= k < |done| ==> done[k].result.None?
            case Some(c) =>
              && (exists k :: 0 <= k < |done| && done[k].ended == c.at && done[k].result == Some(c.snapshot))
              && (forall k :: 0 <= k < |done| && done[k].result.Some? ==> done[k].ended <= c.at)
  {
    if done != [] {
      var n := |done| - 1;
      var init := done[..n];
      LastGoodIsNewest(g, init);
      if done[n].result.Some? {
        forall k | 0 <= k < |done| ensures done[k].ended <= done[n].ended {
          EndsAscend(g, done, k, n);
        }
      } else if LastGood(init).Some? {
        var k :| 0 <= k < |init| && init[k].ended == LastGood(init).value.at
                 && init[k].result == Some(LastGood(init).value.snapshot);
        assert done[k] == init[k];
      }
    }
  }

  lemma {:induction false} EndsAscend<S>(g: Settings, done: seq<Fetch<S>>, i: nat, j: nat)
    requires Spaced(g, done) && i <= j < |done|
    ensures done[i].ended <= done[j].ended
  {
    if i < j {
      EndsAscend(g, done, i, j - 1);
      assert done[j - 1].ended + Rest(g, done[j - 1]) <= done[j - 1 + 1].began;
    }
  }

  /** A look at the cache hits exactly when some snapshot was fetched less than `ttl` ago, and gives such
      a one; a look at the backoff holds back exactly when the last fetch has just failed. */
  lemma Looked<S>(g: Settings, s: State<S>)
    requires Inv(g, s)
    ensures FreshOf(s.entry, g.ttl, s.now).Some? ==> Recent(g, s, FreshOf(s.entry, g.ttl, s.now).value)
    ensures FreshOf(s.entry, g.ttl, s.now).None? <==> AllOld(g, s)
    ensures BackingOff(s.retryAt, s.now) <==> JustFailed(g, s)
  {
    LastGoodIsNewest(g, s.done);
    if s.entry.Some? {
      var k :| 0 <= k < |s.done| && s.done[k].ended == s.entry.value.at
               && s.done[k].result == Some(s.entry.value.snapshot);
      assert s.done[k].ended <= s.now;
    }
  }

  /** A caller that arrives is given a snapshot exactly when one was fetched less than `ttl` ago, and such
      a one. */
  lemma ArrivalAnswers<S>(g: Settings, actions: seq<Action<S>>, c: nat)
    requires At(Run(g, actions), c).Outside? || At(Run(g, actions), c).Answered?
    ensures var s := Run(g, actions);
            var p := At(Step(g, s, Arrive(c)), c);
            if AllOld(g, s) then p.Missed? else p.Answered? && p.answer.Some? && Recent(g, s, p.answer.value)
  {
    hide FreshOf, Recent, AllOld, JustFailed, BackingOff, Inv;
    RunKeepsInv(g, actions);
    Looked(g, Run(g, actions));
  }

  /** So is a caller that has the lock. */
  lemma HolderAnswers<S>(g: Settings, actions: seq<Action<S>>, c: nat)
    requires At(Run(g, actions), c).Locked?
    ensures var s := Run(g, actions);
            var p := At(Step(g, s, Reread(c)), c);
            if AllOld(g, s) then p.MissedAgain? else p.Leaving? && p.answer.Some? && Recent(g, s, p.answer.value)
  {
    hide FreshOf, Recent, AllOld, JustFailed, BackingOff, Inv;
    RunKeepsInv(g, actions);
    Looked(g, Run(g, actions));
  }

  /** A caller that missed holds back exactly while the last fetch failed less than `negativeTtl` ago, at
      both of its looks; if it does not, it waits for the lock, or with the lock begins a fetch. */
  lemma BackoffEnds<S>(g: Settings, actions: seq<Action<S>>, c: nat)
    ensures var s := Run(g, actions);
            && (At(s, c).Missed? ==>
                  At(Step(g, s, CheckBackoff(c)), c) == if JustFailed(g, s) then Resting else Waiting)
            && (At(s, c).MissedAgain? ==>
                  var t := Step(g, s, RecheckBackoff(c));
                  if JustFailed(g, s) then At(t, c).RestingInside? && t.running == s.running
                  else At(t, c).Fetching? && t.running == Some(s.now))
  {
    hide FreshOf, Recent, AllOld, JustFailed, BackingOff, Inv;
    RunKeepsInv(g, actions);
    Looked(g, Run(g, actions));
  }

  /** A caller that holds back, or whose fetch failed, is given the last snapshot ever fetched, however
      old, or none if there was none. */
  lemma FallbackAnswers<S>(g: Settings, actions: seq<Action<S>>, c: nat)
    requires var p := At(Run(g, actions), c); p.Resting? || p.RestingInside? || p.Noted?
    ensures var s := Run(g, actions);
            var p := At(Step(g, s, ReadStale(c)), c);
            && (p.Answered? || p.Leaving?)
            && match p.answer
               case None => forall k :: 0 <= k < |s.done| ==> s.done[k].result.None?
               case Some(x) =>
                 exists k :: 0 <= k < |s.done| && s.done[k].result == Some(x)
                             && forall j :: k < j < |s.done| ==> s.done[j].result.None?
  {
    hide Exclusive, Timed;
    RunKeepsInv(g, actions);
    LastGoodIsLast(Run(g, actions).done);
  }

  lemma {:induction false} LastGoodIsLast<S>(done: seq<Fetch<S>>)
    ensures match LastGood(done)
            case None => forall k :: 0 <= k < |done| ==> done[k].result.None?
            case Some(c) =>
              exists k :: 0 <= k < |done| && done[k].result == Some(c.snapshot)
                          && forall j :: k < j < |done| ==> done[j].result.None?
  {
    if done != [] {
      var n := |done| - 1;
      var init := done[..n];
      LastGoodIsLast(init);
      if done[n].result.Some? {
        assert done[n].result == Some(LastGood(done).value.snapshot);
      } else if LastGood(init).Some? {
        var k :| 0 <= k < |init| && init[k].result == Some(LastGood(init).value.snapshot)
                 && forall j :: k < j < |init| ==> init[j].result.None?;
        assert done[k] == init[k];
        forall j | k < j < |done| ensures done[j].result.None? {
          if j < n {
            assert done[j] == init[j];
          }
        }
      }
    }
  }

  // ---------- the code of one caller takes these steps ----------

  predicate Others<S>(actions: seq<Action<S>>, c: nat) {
    forall k :: 0 <= k < |actions| ==> actions[k].Tick? || actions[k].caller != c
  }

  lemma {:induction false} RunSplits<S>(g: Settings, s: State<S>, a: seq<Action<S>>, b: seq<Action<S>>)
    ensures RunFrom(g, s, a + b) == RunFrom(g, RunFrom(g, s, a), b)
  {
    hide Step;
    if b == [] {
      assert a + b == a;
    } else {
      RunSplits(g, s, a, b[..|b| - 1]);
      assert (a + b)[..|a + b| - 1] == a + b[..|b| - 1];
    }
  }

  lemma RunMore<S>(g: Settings, s: State<S>, actions: seq<Action<S>>, a: Action<S>)
    ensures RunFrom(g, s, actions + [a]) == Step(g, RunFrom(g, s, actions), a)
  {
    assert (actions + [a])[..|actions|] == actions;
  }

  lemma {:induction false} OthersLeaveAlone<S>(g: Settings, s: State<S>, actions: seq<Action<S>>, c: nat)
    requires Others(actions, c)
    ensures At(RunFrom(g, s, actions), c) == At(s, c)
  {
    if actions != [] {
      OthersLeaveAlone(g, s, actions[..|actions| - 1], c);
    }
  }

  /** While a caller holds the lock, nothing others do changes the cache. */
  lemma OtherKeepsCache<S>(g: Settings, s: State<S>, a: Action<S>, c: nat)
    requires Exclusive(s) && s.lock == Some(c) && (a.Tick? || a.caller != c)
    ensures var t := Step(g, s, a);
            t.entry == s.entry && t.retryAt == s.retryAt && t.lock == s.lock && t.done == s.done
            && t.running == s.running && t.now >= s.now && At(t, c) == At(s, c)
  {
    if !a.Tick? {
      assert !InSection(At(s, a.caller));
    }
  }

  lemma {:induction false} OthersKeepCache<S>(g: Settings, s: State<S>, actions: seq<Action<S>>, c: nat)
    requires Exclusive(s) && s.lock == Some(c) && Others(actions, c)
    ensures var t := RunFrom(g, s, actions);
            t.entry == s.entry && t.retryAt == s.retryAt && t.lock == s.lock && t.done == s.done
            && t.running == s.running && t.now >= s.now && At(t, c) == At(s, c) && Exclusive(t)
  {
    hide Step, Exclusive, At;
    if actions != [] {
      var n := |actions| - 1;
      OthersKeepCache(g, s, actions[..n], c);
      OtherKeepsCache(g, RunFrom(g, s, actions[..n]), actions[n], c);
      StepKeepsExclusive(g, RunFrom(g, s, actions[..n]), actions[n]);
    }
  }

  /** What the other callers do while this one is on its way: before it looks at the backoff, before it
      falls back or gets the lock, between its looks inside, and during its fetch. */
  datatype Meanwhile<S> =
    Meanwhile(first: seq<Action<S>>, second: seq<Action<S>>, third: seq<Action<S>>, fourth: seq<Action<S>>)

  predicate AllOthers<S>(m: Meanwhile<S>, c: nat) {
    Others(m.first, c) && Others(m.second, c) && Others(m.third, c) && Others(m.fourth, c)
  }

  /** The moment a caller looks at the backoff, having missed. */
  function Looking<S>(g: Settings, s: State<S>, c: nat, m: Meanwhile<S>): State<S> {
    RunFrom(g, Step(g, s, Arrive(c)), m.first)
  }

  /** The moment it falls back to the cache, or gets the lock. */
  function Coming<S>(g: Settings, s: State<S>, c: nat, m: Meanwhile<S>): State<S> {
    RunFrom(g, Step(g, Looking(g, s, c, m), CheckBackoff(c)), m.second)
  }

  /** The moment it looks at the backoff again, with the lock. */
  function LookingAgain<S>(g: Settings, s: State<S>, c: nat, m: Meanwhile<S>): State<S> {
    RunFrom(g, Step(g, Step(g, s, Acquire(c)), Reread(c)), m.third)
  }

  /** The moment its fetch ends, if it came to one. */
  function Ending<S>(g: Settings, s: State<S>, c: nat, m: Meanwhile<S>): State<S> {
    RunFrom(g, Step(g, Step(g, LookingAgain(g, s, c, m), RecheckBackoff(c)), ReadStale(c)), m.fourth)
  }

  function Turn<S>(g: Settings, s: State<S>, c: nat, m: Meanwhile<S>, upstream: Option<S>): State<S> {
    Step(g, Step(g, Step(g, Step(g, Ending(g, s, c, m), Upstream(c, upstream)), Record(c)), ReadStale(c)), Leave(c))
  }

  function TurnActions<S>(c: nat, m: Meanwhile<S>, upstream: Option<S>): seq<Action<S>> {
    [Acquire(c)] + [Reread(c)] + m.third + [RecheckBackoff(c)] + [ReadStale(c)]
    + m.fourth + [Upstream(c, upstream)] + [Record(c)] + [ReadStale(c)] + [Leave(c)]
  }

  /** The steps of a caller's code and of the others around it, from a state `s` in which it is idle. */
  function OwnActions<S>(g: Settings, s: State<S>, c: nat, m: Meanwhile<S>, upstream: Option<S>): seq<Action<S>> {
    if At(Step(g, s, Arrive(c)), c).Answered? then [Arrive(c)]
    else
      [Arrive(c)] + m.first + [CheckBackoff(c)] + m.second
      + (if At(Coming(g, s, c, m), c).Resting? then [ReadStale(c)] else TurnActions(c, m, upstream))
  }

  lemma TurnRuns<S>(g: Settings, s: State<S>, c: nat, m: Meanwhile<S>, upstream: Option<S>)
    ensures RunFrom(g, s, TurnActions(c, m, upstream)) == Turn(g, s, c, m, upstream)
  {
    hide Step;
    var a: seq<Action<S>> := [Acquire(c)];
    RunMore(g, s, [], Acquire(c));
    assert [] + a == a;
    RunMore(g, s, a, Reread(c));
    RunSplits(g, s, a + [Reread(c)], m.third);
    a := a + [Reread(c)] + m.third;
    RunMore(g, s, a, RecheckBackoff(c));
    RunMore(g, s, a + [RecheckBackoff(c)], ReadStale(c));
    RunSplits(g, s, a + [RecheckBackoff(c)] + [ReadStale(c)], m.fourth);
    a := a + [RecheckBackoff(c)] + [ReadStale(c)] + m.fourth;
    RunMore(g, s, a, Upstream(c, upstream));
    RunMore(g, s, a + [Upstream(c, upstream)], Record(c));
    RunMore(g, s, a + [Upstream(c, upstream)] + [Record(c)], ReadStale(c));
    RunMore(g, s, a + [Upstream(c, upstream)] + [Record(c)] + [ReadStale(c)], Leave(c));
  }

  /** What a caller's steps come to: an answer at arrival, a fallback, or its turn with the lock. */
  lemma OwnRuns<S>(g: Settings, s: State<S>, c: nat, m: Meanwhile<S>, upstream: Option<S>)
    ensures RunFrom(g, s, OwnActions(g, s, c, m, upstream)) ==
            if At(Step(g, s, Arrive(c)), c).Answered? then Step(g, s, Arrive(c))
            else if At(Coming(g, s, c, m), c).Resting? then Step(g, Coming(g, s, c, m), ReadStale(c))
            else Turn(g, Coming(g, s, c, m), c, m, upstream)
  {
    hide Step, Turn, TurnActions, At;
    RunMore(g, s, [], Arrive(c));
    assert [] + [Action<S>.Arrive(c)] == [Arrive(c)];
    RunSplits(g, s, [Arrive(c)], m.first);
    RunMore(g, s, [Arrive(c)] + m.first, CheckBackoff(c));
    RunSplits(g, s, [Arrive(c)] + m.first + [CheckBackoff(c)], m.second);
    var a := [Arrive(c)] + m.first + [CheckBackoff(c)] + m.second;
    RunMore(g, s, a, ReadStale(c));
    RunSplits(g, s, a, TurnActions(c, m, upstream));
    TurnRuns(g, Coming(g, s, c, m), c, m, upstream);
  }

  /** Taking the lock and looking at the cache again. */
  lemma Taken<S>(g: Settings, s: State<S>, c: nat)
    requires Exclusive(s) && At(s, c).Waiting? && s.lock.None?
    ensures var hit, t := FreshOf(s.entry, g.ttl, s.now), Step(g, Step(g, s, Acquire(c)), Reread(c));
            && Exclusive(t) && t == Moved(s.(lock := Some(c)), c, At(t, c))
            && At(t, c) == if hit.Some? then Leaving(hit) else MissedAgain
  {
    hide FreshOf, Exclusive;
    StepKeepsExclusive(g, s, Acquire(c));
    StepKeepsExclusive(g, Step(g, s, Acquire(c)), Reread(c));
  }

  /** Looking at the backoff again, with the lock: to fall back or to fetch. */
  lemma Decided<S>(g: Settings, s: State<S>, c: nat)
    requires Exclusive(s) && s.lock == Some(c) && (At(s, c).MissedAgain? || At(s, c).Leaving?)
    ensures var t := Step(g, Step(g, s, RecheckBackoff(c)), ReadStale(c));
            && Exclusive(t) && t.lock == Some(c)
            && t.entry == s.entry && t.retryAt == s.retryAt && t.done == s.done
            && At(t, c) == (if At(s, c).Leaving? then At(s, c)
                            else if BackingOff(s.retryAt, s.now) then Leaving(StaleOf(s.entry))
                            else Fetching)
            && (At(t, c).Fetching? ==> t.running == Some(s.now))
  {
    hide BackingOff, StaleOf, Exclusive;
    StepKeepsExclusive(g, s, RecheckBackoff(c));
    StepKeepsExclusive(g, Step(g, s, RecheckBackoff(c)), ReadStale(c));
  }

  /** Recording the fetch, if there was one, and letting go. */
  lemma Concluded<S>(g: Settings, s: State<S>, c: nat, upstream: Option<S>)
    requires At(s, c).Leaving? || (At(s, c).Fetching? && s.running.Some?)
    ensures var end := Step(g, Step(g, Step(g, Step(g, s, Upstream(c, upstream)), Record(c)), ReadStale(c)), Leave(c));
            if At(s, c).Leaving? then
              At(end, c) == Answered(At(s, c).answer)
              && end.entry == s.entry && end.retryAt == s.retryAt && end.done == s.done
            else
              && end.done == s.done + [Fetch(s.running.value, s.now, upstream)]
              && (upstream.Some? ==>
                    At(end, c) == Answered(upstream)
                    && end.entry == Some(Cached(s.now, upstream.value)) && end.retryAt == None)
              && (upstream.None? ==>
                    At(end, c) == Answered(StaleOf(s.entry))
                    && end.entry == s.entry && end.retryAt == Some(s.now + g.negativeTtl))
  {
    hide StaleOf;
  }

  /** A turn with the lock, from the state `s` in which it is taken. */
  lemma TurnOutcome<S>(g: Settings, s: State<S>, c: nat, m: Meanwhile<S>, upstream: Option<S>)
    requires Exclusive(s) && At(s, c).Waiting? && s.lock.None? && AllOthers(m, c)
    ensures var end := Turn(g, s, c, m, upstream);
            var hit, again := FreshOf(s.entry, g.ttl, s.now), LookingAgain(g, s, c, m).now;
            var done := Ending(g, s, c, m).now;
            if hit.Some? then
              At(end, c) == Answered(hit) && end.entry == s.entry && end.retryAt == s.retryAt && end.done == s.done
            else if BackingOff(s.retryAt, again) then
              At(end, c) == Answered(StaleOf(s.entry))
              && end.entry == s.entry && end.retryAt == s.retryAt && end.done == s.done
            else
              && end.done == s.done + [Fetch(again, done, upstream)]
              && (upstream.Some? ==>
                    At(end, c) == Answered(upstream)
                    && end.entry == Some(Cached(done, upstream.value)) && end.retryAt == None)
              && (upstream.None? ==>
                    At(end, c) == Answered(StaleOf(s.entry))
                    && end.entry == s.entry && end.retryAt == Some(done + g.negativeTtl))
  {
    hide Exclusive, FreshOf, StaleOf, BackingOff, RunFrom, Others, Step;
    Taken(g, s, c);
    OthersKeepCache(g, Step(g, Step(g, s, Acquire(c)), Reread(c)), m.third, c);
    var again := LookingAgain(g, s, c, m);
    Decided(g, again, c);
    OthersKeepCache(g, Step(g, Step(g, again, RecheckBackoff(c)), ReadStale(c)), m.fourth, c);
    Concluded(g, Ending(g, s, c, m), c, upstream);
  }

  lemma ComingExclusive<S>(g: Settings, prior: seq<Action<S>>, c: nat, m: Meanwhile<S>)
    ensures Exclusive(Coming(g, Run(g, prior), c, m))
  {
    hide Step, Exclusive, Timed, Kept;
    var s, a := Run(g, prior), [Arrive(c)] + m.first + [CheckBackoff(c)] + m.second;
    RunMore(g, s, [], Arrive(c));
    assert [] + [Action<S>.Arrive(c)] == [Arrive(c)];
    RunSplits(g, s, [Arrive(c)], m.first);
    RunMore(g, s, [Arrive(c)] + m.first, CheckBackoff(c));
    RunSplits(g, s, [Arrive(c)] + m.first + [CheckBackoff(c)], m.second);
    RunSplits(g, Initial(), prior, a);
    RunKeepsInv(g, prior + a);
  }

  /** The cache at a moment. */
  datatype Seen<S> = Seen(entry: Option<Cached<S>>, retryAt: Option<nat>, now: nat)

  function SeenAt<S>(s: State<S>): Seen<S> {
    Seen(s.entry, s.retryAt, s.now)
  }

  class Handle<S> {
    var entry: Option<Cached<S>>
    var retryAt: Option<nat>
    const enabled: bool
    const settings: Settings

    constructor (enabled: bool, settings: Settings)
      ensures entry == None && retryAt == None && this.enabled == enabled && this.settings == settings
    {
      entry, retryAt := None, None;
      this.enabled, this.settings := enabled, settings;
    }

    method Fresh(now: nat) returns (r: Option<S>)
      ensures r == FreshOf(entry, settings.ttl, now)
    {
      if entry.None? {
        return None;
      }
      r := if now < entry.value.at + settings.ttl then Some(entry.value.snapshot) else None;
    }

    method InBackoff(now: nat) returns (r: bool)
      ensures r == BackingOff(retryAt, now)
    {
      r := retryAt.Some? && now < retryAt.value;
    }

    method Stale() returns (r: Option<S>)
      ensures r == StaleOf(entry)
    {
      r := if entry.Some? then Some(entry.value.snapshot) else None;
    }

    method Store(now: nat, snapshot: S)
      modifies this
      ensures entry == Some(Cached(now, snapshot)) && retryAt == None
    {
      entry := Some(Cached(now, snapshot));
      retryAt := None;
    }

    method NoteFailure(now: nat)
      modifies this
      ensures entry == old(entry) && retryAt == Some(now + settings.negativeTtl)
    {
      retryAt := Some(now + settings.negativeTtl);
    }

    /** The code of one caller, after any run `prior` of all of them, with any `m` around it. It finds the
        cache as `looked` when it looks at the backoff and as `came` when it falls back or gets the lock,
        looks again at `again`, and records its fetch, which answers `upstream`, at `done`. What it is
        given, what it leaves in the cache and whether it fetched are those of its steps. */
    method Snapshot(arrived: nat, looked: Seen<S>, came: Seen<S>, again: nat, upstream: Option<S>, done: nat,
                    ghost prior: seq<Action<S>>, ghost c: nat, ghost m: Meanwhile<S>)
      returns (r: Option<S>, fetched: bool)
      requires var s := Run(settings, prior);
               && SeenAt(s) == Seen(entry, retryAt, arrived)
               && (At(s, c).Outside? || At(s, c).Answered?) && AllOthers(m, c)
               && looked == SeenAt(Looking(settings, s, c, m))
               && came == SeenAt(Coming(settings, s, c, m))
               && (At(Coming(settings, s, c, m), c).Waiting? ==> Coming(settings, s, c, m).lock.None?)
               && again == LookingAgain(settings, Coming(settings, s, c, m), c, m).now
               && done == Ending(settings, Coming(settings, s, c, m), c, m).now
      modifies this
      ensures !enabled ==> r == None && !fetched && entry == old(entry) && retryAt == old(retryAt)
      ensures enabled ==>
                var s := Run(settings, prior);
                var end := Run(settings, prior + OwnActions(settings, s, c, m, upstream));
                && At(end, c) == Answered(r) && entry == end.entry && retryAt == end.retryAt
                && (fetched ==> end.done == Coming(settings, s, c, m).done + [Fetch(again, done, upstream)])
      ensures fetched <==>
              && enabled
              && FreshOf(old(entry), settings.ttl, arrived).None? && !BackingOff(looked.retryAt, looked.now)
              && FreshOf(came.entry, settings.ttl, came.now).None? && !BackingOff(came.retryAt, again)
    {
      hide RunFrom, OwnActions, TurnActions, Turn, LookingAgain, Ending, FreshOf, StaleOf, BackingOff, Others;
      if !enabled {
        return None, false;
      }
      ghost var s := Run(settings, prior);
      RunSplits(settings, Initial(), prior, OwnActions(settings, s, c, m, upstream));
      OwnRuns(settings, s, c, m, upstream);
      var hit := Fresh(arrived);
      if hit.Some? {
        return hit, false;
      }
      OthersLeaveAlone(settings, Step(settings, s, Arrive(c)), m.first, c);
      OthersLeaveAlone(settings, Step(settings, Looking(settings, s, c, m), CheckBackoff(c)), m.second, c);
      entry, retryAt := looked.entry, looked.retryAt;
      var waiting := InBackoff(looked.now);
      entry, retryAt := came.entry, came.retryAt;
      if waiting {
        r := Stale();
        return r, false;
      }
      ComingExclusive(settings, prior, c, m);
      TurnOutcome(settings, Coming(settings, s, c, m), c, m, upstream);
      hit := Fresh(came.now);
      if hit.Some? {
        return hit, false;
      }
      waiting := InBackoff(again);
      if waiting {
        r := Stale();
        return r, false;
      }
      fetched := true;
      match upstream {
        case Some(snapshot) =>
          Store(done, snapshot);
          r := Some(snapshot);
        case None =>
          NoteFailure(done);
          r := Stale();
      }
    }
  }
}
