/** The readiness probe: callers share one stored verdict, and queue behind one check when it is old. */
module HealthProbe {
  import opened Outcomes

  /** Times are nanoseconds of one clock that never runs back. */
  const TTL := 1_000_000_000

  datatype Verdict = Verdict(at: nat, ready: bool)

  function FreshOf(last: Option<Verdict>, now: nat): Option<bool> {
    if last.Some? && now < last.value.at + TTL then Some(last.value.ready) else None
  }

  // ---------- any number of callers ----------

  /** Where a caller is. From `Holding` to `Leaving` it holds the refresh lock. */
  datatype Position =
    | Outside
    | Waiting
    | Holding
    | Checking
    | Checked(ready: bool)
    | Leaving(ready: bool)
    | Answered(ready: bool)

  /** A verdict as it was stored, and whose check it was. */
  datatype Kept = Kept(caller: nat, at: nat, ready: bool)

  /** `starts` and `stores` record when each check began and what was stored of it. */
  datatype State = State(
    now: nat, last: Option<Verdict>, lock: Option<nat>, callers: map<nat, Position>,
    starts: seq<nat>, stores: seq<Kept>)

  datatype Action =
    | Tick(passed: nat)
    | Arrive(caller: nat)
    | Acquire(caller: nat)
    | Reread(caller: nat)
    | Finish(caller: nat, ready: bool)
    | Keep(caller: nat)
    | Leave(caller: nat)

  const INITIAL := State(0, None, None, map[], [], [])

  function At(s: State, caller: nat): Position {
    if caller in s.callers then s.callers[caller] else Outside
  }

  function Moved(s: State, caller: nat, p: Position): State {
    s.(callers := s.callers[caller := p])
  }

  /** One step; an action that is not possible where its caller stands does nothing. */
  function Step(s: State, a: Action): State {
    match a
    case Tick(passed) => s.(now := s.now + passed)
    case Arrive(c) =>
      if !(At(s, c).Outside? || At(s, c).Answered?) then s
      else
        var hit := FreshOf(s.last, s.now);
        Moved(s, c, if hit.Some? then Answered(hit.value) else Waiting)
    case Acquire(c) =>
      if At(s, c).Waiting? && s.lock.None? then Moved(s.(lock := Some(c)), c, Holding) else s
    case Reread(c) =>
      if !At(s, c).Holding? then s
      else
        var hit := FreshOf(s.last, s.now);
        if hit.Some? then Moved(s, c, Leaving(hit.value))
        else Moved(s.(starts := s.starts + [s.now]), c, Checking)
    case Finish(c, ready) =>
      if At(s, c).Checking? then Moved(s, c, Checked(ready)) else s
    case Keep(c) =>
      if At(s, c).Checked?
      then Moved(s.(last := Some(Verdict(s.now, At(s, c).ready)), stores := s.stores + [Kept(c, s.now, At(s, c).ready)]),
                 c, Leaving(At(s, c).ready))
      else s
    case Leave(c) =>
      if At(s, c).Leaving? then Moved(s.(lock := None), c, Answered(At(s, c).ready)) else s
  }

  function Run(s: State, actions: seq<Action>): State {
    if actions == [] then s else Step(Run(s, actions[..|actions| - 1]), actions[|actions| - 1])
  }

  predicate InSection(p: Position) {
    p.Holding? || p.Checking? || p.Checked? || p.Leaving?
  }

  predicate InFlight(s: State) {
    s.lock.Some? && (At(s, s.lock.value).Checking? || At(s, s.lock.value).Checked?)
  }

  /** The lock is held by exactly the caller in the locked section. */
  ghost predicate Exclusive(s: State) {
    forall c: nat :: InSection(At(s, c)) <==> s.lock == Some(c)
  }

  /** Every check was stored before the next began, and the next began only once that was too old. */
  predicate Spaced(starts: seq<nat>, stores: seq<Kept>) {
    && |stores| <= |starts| <= |stores| + 1
    && (forall i :: 0 <= i < |stores| ==> starts[i] <= stores[i].at)
    && (forall i :: 0 <= i < |starts| - 1 ==> stores[i].at + TTL <= starts[i + 1])
  }

  /** A check not yet stored is still running; the last one stored is the verdict callers see. */
  predicate LastKept(s: State) {
    && (|s.starts| > |s.stores| ==> InFlight(s))
    && (InFlight(s) ==> |s.starts| > |s.stores|)
    && s.last == if s.stores == [] then None
                 else Some(Verdict(s.stores[|s.stores| - 1].at, s.stores[|s.stores| - 1].ready))
  }

  predicate Past(s: State) {
    && (forall i :: 0 <= i < |s.starts| ==> s.starts[i] <= s.now)
    && (forall i :: 0 <= i < |s.stores| ==> s.stores[i].at <= s.now)
  }

  ghost predicate Timed(s: State) {
    Spaced(s.starts, s.stores) && LastKept(s) && Past(s)
  }

  ghost predicate Inv(s: State) {
    Exclusive(s) && Timed(s)
  }

  lemma StepKeepsExclusive(s: State, a: Action)
    requires Exclusive(s)
    ensures Exclusive(Step(s, a))
  {
  }

  /** The one caller in the locked section. */
  lemma Inside(s: State, c: nat)
    requires Exclusive(s) && InSection(At(s, c))
    ensures s.lock == Some(c)
  {
  }

  /** A step of a caller outside the locked section, or of the clock. */
  lemma OutsideKeepsTimes(s: State, a: Action)
    requires Exclusive(s) && Timed(s)
    requires a.Tick? || !InSection(At(s, a.caller))
    ensures Timed(Step(s, a))
  {
    if s.lock.Some? && !a.Tick? {
      assert InSection(At(s, s.lock.value));
      assert At(Step(s, a), s.lock.value) == At(s, s.lock.value);
    }
  }

  /** A step of the lock's holder that begins or stores no check. */
  lemma QuietKeepsTimes(s: State, a: Action)
    requires Timed(s) && !a.Tick? && s.lock == Some(a.caller)
    requires !a.Reread? && !a.Keep?
    ensures Timed(Step(s, a))
  {
  }

  lemma BeginKeepsTimes(s: State, c: nat)
    requires Timed(s) && s.lock == Some(c)
    ensures Timed(Step(s, Reread(c)))
  {
  }

  lemma StoreKeepsTimes(s: State, c: nat)
    requires Timed(s) && s.lock == Some(c)
    ensures Timed(Step(s, Keep(c)))
  {
  }

  lemma StepKeepsTimes(s: State, a: Action)
    requires Exclusive(s) && Timed(s)
    ensures Timed(Step(s, a))
  {
    hide Exclusive, Timed, Step;
    if a.Tick? || !InSection(At(s, a.caller)) {
      OutsideKeepsTimes(s, a);
    } else {
      Inside(s, a.caller);
      if a.Reread? {
        BeginKeepsTimes(s, a.caller);
      } else if a.Keep? {
        StoreKeepsTimes(s, a.caller);
      } else {
        QuietKeepsTimes(s, a);
      }
    }
  }

  lemma StepKeepsInv(s: State, a: Action)
    requires Inv(s)
    ensures Inv(Step(s, a))
  {
    hide Step, Exclusive, Timed;
    StepKeepsExclusive(s, a);
    StepKeepsTimes(s, a);
  }

  lemma InitialInv()
    ensures Inv(INITIAL)
  {
  }

  lemma {:induction false} RunKeepsInv(actions: seq<Action>)
    ensures Inv(Run(INITIAL, actions))
  {
    hide Inv, Step;
    if actions == [] {
      InitialInv();
    } else {
      RunKeepsInv(actions[..|actions| - 1]);
      StepKeepsInv(Run(INITIAL, actions[..|actions| - 1]), actions[|actions| - 1]);
    }
  }

  /** However callers interleave, no two are ever checking at once. */
  lemma OneCheckAtATime(actions: seq<Action>, c: nat, d: nat)
    requires At(Run(INITIAL, actions), c).Checking? && At(Run(INITIAL, actions), d).Checking?
    ensures c == d
  {
    RunKeepsInv(actions);
    assert InSection(At(Run(INITIAL, actions), c)) && InSection(At(Run(INITIAL, actions), d));
  }

  /** Once a verdict is stored, the next check begins no sooner than `TTL` after that. */
  lemma CheckAfterStore(actions: seq<Action>, i: nat)
    requires i + 1 < |Run(INITIAL, actions).starts|
    ensures var s := Run(INITIAL, actions);
            i < |s.stores| && s.starts[i] <= s.stores[i].at && s.stores[i].at + TTL <= s.starts[i + 1]
  {
    RunKeepsInv(actions);
  }

  lemma {:induction false} SpacedApart(starts: seq<nat>, stores: seq<Kept>, i: nat, j: nat)
    requires Spaced(starts, stores) && i <= j < |starts|
    ensures starts[i] + (j - i) * TTL <= starts[j]
  {
    if i < j {
      SpacedApart(starts, stores, i, j - 1);
      assert stores[j - 1].at + TTL <= starts[j - 1 + 1];
    }
  }

  /** Whatever the number of callers, checks that begin within a window of length `w` number at most
      `w / TTL + 1`. */
  lemma ChecksInWindow(actions: seq<Action>, i: nat, j: nat, w: nat)
    requires i <= j < |Run(INITIAL, actions).starts|
    requires Run(INITIAL, actions).starts[j] - Run(INITIAL, actions).starts[i] <= w
    ensures j - i + 1 <= w / TTL + 1
  {
    RunKeepsInv(actions);
    SpacedApart(Run(INITIAL, actions).starts, Run(INITIAL, actions).stores, i, j);
  }

  // ---------- how old an answer is, and whose ----------

  /** A stored verdict of this readiness is younger than the limit. */
  ghost predicate Recent(s: State, ready: bool) {
    exists k :: 0 <= k < |s.stores| && s.stores[k].at <= s.now < s.stores[k].at + TTL && s.stores[k].ready == ready
  }

  /** Every stored verdict has reached the limit. */
  ghost predicate AllOld(s: State) {
    forall k :: 0 <= k < |s.stores| ==> s.stores[k].at + TTL <= s.now
  }

  lemma {:induction false} LastIsNewest(starts: seq<nat>, stores: seq<Kept>, k: nat)
    requires Spaced(starts, stores) && k < |stores|
    ensures stores[k].at <= stores[|stores| - 1].at
    decreases |stores| - k
  {
    if k < |stores| - 1 {
      assert stores[k].at + TTL <= starts[k + 1] <= stores[k + 1].at;
      LastIsNewest(starts, stores, k + 1);
    }
  }

  /** A look at the stored verdict: the caller is answered exactly when one is younger than the limit, and
      with the readiness of that one; otherwise every verdict is too old. */
  lemma Looked(s: State)
    requires Inv(s)
    ensures FreshOf(s.last, s.now).Some? ==> Recent(s, FreshOf(s.last, s.now).value)
    ensures FreshOf(s.last, s.now).None? <==> AllOld(s)
  {
    if s.stores != [] {
      var n := |s.stores| - 1;
      forall k | 0 <= k < |s.stores| ensures s.stores[k].at <= s.stores[n].at {
        LastIsNewest(s.starts, s.stores, k);
      }
      if FreshOf(s.last, s.now).Some? {
        assert s.stores[n].at <= s.now < s.stores[n].at + TTL;
      }
    }
  }

  predicate Idle(s: State, c: nat) {
    At(s, c).Outside? || At(s, c).Answered?
  }

  /** A caller that arrives is answered exactly when some verdict was stored less than `TTL` ago, and with
      that verdict; otherwise it must wait. */
  lemma ArrivalAnswers(actions: seq<Action>, c: nat)
    requires Idle(Run(INITIAL, actions), c)
    ensures var s := Run(INITIAL, actions);
            var p := At(Step(s, Arrive(c)), c);
            if AllOld(s) then p == Waiting else p.Answered? && Recent(s, p.ready)
  {
    hide FreshOf, Recent, AllOld;
    RunKeepsInv(actions);
    Looked(Run(INITIAL, actions));
  }

  /** A caller that has the lock begins a check exactly when no verdict was stored less than `TTL` ago;
      otherwise it leaves with such a verdict, and checks nothing. */
  lemma HolderAnswers(actions: seq<Action>, c: nat)
    requires At(Run(INITIAL, actions), c).Holding?
    ensures var s := Run(INITIAL, actions);
            var t := Step(s, Reread(c));
            if AllOld(s) then At(t, c) == Checking && t.starts == s.starts + [s.now]
            else At(t, c).Leaving? && Recent(s, At(t, c).ready) && t.starts == s.starts
  {
    hide FreshOf, Recent, AllOld;
    RunKeepsInv(actions);
    Looked(Run(INITIAL, actions));
  }

  /** Action `i` is the outcome of this caller's own check. */
  ghost predicate CheckedAt(actions: seq<Action>, i: nat, c: nat, ready: bool) {
    i < |actions| && actions[i] == Finish(c, ready) && At(Run(INITIAL, actions[..i]), c).Checking?
  }

  ghost predicate WasChecked(actions: seq<Action>, c: nat, ready: bool) {
    exists i :: 0 <= i < |actions| && CheckedAt(actions, i, c, ready)
  }

  /** At action `i` the caller looked and was given a verdict younger than the limit. */
  ghost predicate ReadAt(actions: seq<Action>, i: nat, c: nat, ready: bool) {
    && i < |actions|
    && (actions[i] == Arrive(c) || actions[i] == Reread(c))
    && Recent(Run(INITIAL, actions[..i]), ready)
  }

  /** The caller has not come again since action `i`. */
  ghost predicate SameVisit(actions: seq<Action>, i: nat, c: nat) {
    forall j :: i < j < |actions| && actions[j] == Arrive(c) ==> !Idle(Run(INITIAL, actions[..j]), c)
  }

  /** Where an answer comes from: this visit's look at a verdict younger than the limit, or this visit's
      own check. */
  ghost predicate Justified(actions: seq<Action>, c: nat, ready: bool) {
    exists i :: 0 <= i < |actions| && (CheckedAt(actions, i, c, ready) || ReadAt(actions, i, c, ready))
                && SameVisit(actions, i, c)
  }

  /** Every stored verdict is the outcome its own caller's check gave. */
  ghost predicate StoresChecked(actions: seq<Action>) {
    var s := Run(INITIAL, actions);
    forall k :: 0 <= k < |s.stores| ==> WasChecked(actions, s.stores[k].caller, s.stores[k].ready)
  }

  predicate Answering(p: Position) {
    p.Checked? || p.Leaving? || p.Answered?
  }

  function ReadyOf(p: Position): bool
    requires Answering(p)
  {
    match p
    case Checked(ready) => ready
    case Leaving(ready) => ready
    case Answered(ready) => ready
  }

  /** Only at the outcome of a check, and at a look that hits, does a caller come to an answer; after that
      it keeps it until it comes again. */
  lemma AnswerStep(s: State, a: Action, c: nat)
    requires Answering(At(Step(s, a), c))
    ensures var ready := ReadyOf(At(Step(s, a), c));
            || (a == Finish(c, ready) && At(s, c).Checking?)
            || ((a == Arrive(c) || a == Reread(c)) && FreshOf(s.last, s.now) == Some(ready))
            || (Answering(At(s, c)) && ReadyOf(At(s, c)) == ready && !(a == Arrive(c) && Idle(s, c)))
  {
    hide FreshOf;
  }

  lemma JustifiedMore(actions: seq<Action>, c: nat, ready: bool)
    requires actions != [] && Justified(actions[..|actions| - 1], c, ready)
    requires !(actions[|actions| - 1] == Arrive(c) && Idle(Run(INITIAL, actions[..|actions| - 1]), c))
    ensures Justified(actions, c, ready)
  {
    hide Idle, Recent, Run;
    var init := actions[..|actions| - 1];
    var i :| 0 <= i < |init| && (CheckedAt(init, i, c, ready) || ReadAt(init, i, c, ready)) && SameVisit(init, i, c);
    assert forall j :: 0 <= j <= |init| ==> init[..j] == actions[..j];
    assert CheckedAt(actions, i, c, ready) || ReadAt(actions, i, c, ready);
    forall j | i < j < |actions| && actions[j] == Arrive(c) ensures !Idle(Run(INITIAL, actions[..j]), c) {
      if j < |init| {
        assert init[j] == Arrive(c);
      }
    }
  }

  lemma JustifiedNow(actions: seq<Action>, c: nat, ready: bool)
    requires actions != []
    requires CheckedAt(actions, |actions| - 1, c, ready) || ReadAt(actions, |actions| - 1, c, ready)
    ensures Justified(actions, c, ready)
  {
    assert SameVisit(actions, |actions| - 1, c);
  }

  /** However callers interleave, and however long the database has been down: every answer was, in this
      very visit, either read from a verdict stored less than `TTL` before, or the outcome of the caller's
      own check. */
  lemma {:induction false} EveryAnswerJustified(actions: seq<Action>, c: nat)
    requires Answering(At(Run(INITIAL, actions), c))
    ensures Justified(actions, c, ReadyOf(At(Run(INITIAL, actions), c)))
  {
    hide Step, FreshOf, Idle, Recent, AllOld, Justified, Inv;
    if actions != [] {
      var n := |actions| - 1;
      var s, a := Run(INITIAL, actions[..n]), actions[n];
      var ready := ReadyOf(At(Run(INITIAL, actions), c));
      AnswerStep(s, a, c);
      RunKeepsInv(actions[..n]);
      Looked(s);
      if (a == Finish(c, ready) && At(s, c).Checking?)
         || ((a == Arrive(c) || a == Reread(c)) && FreshOf(s.last, s.now) == Some(ready)) {
        JustifiedNow(actions, c, ready);
      } else {
        EveryAnswerJustified(actions[..n], c);
        JustifiedMore(actions, c, ready);
      }
    }
  }

  lemma StoreStep(s: State, a: Action)
    ensures var t := Step(s, a);
            || t.stores == s.stores
            || (a.Keep? && At(s, a.caller).Checked?
                && t.stores == s.stores + [Kept(a.caller, s.now, At(s, a.caller).ready)])
  {
  }

  lemma CheckedMore(actions: seq<Action>, c: nat, ready: bool)
    requires actions != [] && WasChecked(actions[..|actions| - 1], c, ready)
    ensures WasChecked(actions, c, ready)
  {
    var init := actions[..|actions| - 1];
    var i :| 0 <= i < |init| && CheckedAt(init, i, c, ready);
    assert init[..i] == actions[..i];
    assert CheckedAt(actions, i, c, ready);
  }

  lemma CheckedStep(s: State, a: Action, c: nat)
    requires At(Step(s, a), c).Checked?
    ensures At(s, c) == At(Step(s, a), c) || (a == Finish(c, At(Step(s, a), c).ready) && At(s, c).Checking?)
  {
  }

  /** A caller with an outcome in hand was given it by its own check. */
  lemma {:induction false} OutcomeIsOwn(actions: seq<Action>, c: nat)
    requires At(Run(INITIAL, actions), c).Checked?
    ensures WasChecked(actions, c, At(Run(INITIAL, actions), c).ready)
  {
    hide Step;
    if actions != [] {
      var n := |actions| - 1;
      CheckedStep(Run(INITIAL, actions[..n]), actions[n], c);
      if At(Run(INITIAL, actions[..n]), c).Checked? {
        OutcomeIsOwn(actions[..n], c);
        CheckedMore(actions, c, At(Run(INITIAL, actions), c).ready);
      } else {
        assert CheckedAt(actions, n, c, At(Run(INITIAL, actions), c).ready);
      }
    }
  }

  /** Every verdict ever stored is what the check of the caller that stored it found. */
  lemma {:induction false} VerdictsAreOutcomes(actions: seq<Action>)
    ensures StoresChecked(actions)
  {
    hide Step, WasChecked;
    if actions != [] {
      var n := |actions| - 1;
      var s, a := Run(INITIAL, actions[..n]), actions[n];
      VerdictsAreOutcomes(actions[..n]);
      StoreStep(s, a);
      if a.Keep? && At(s, a.caller).Checked? {
        OutcomeIsOwn(actions[..n], a.caller);
        CheckedMore(actions, a.caller, At(s, a.caller).ready);
      }
      forall k | 0 <= k < |s.stores|
        ensures WasChecked(actions, s.stores[k].caller, s.stores[k].ready)
      {
        CheckedMore(actions, s.stores[k].caller, s.stores[k].ready);
      }
    }
  }

  // ---------- the code of one caller takes these steps ----------

  lemma RunMore(s: State, actions: seq<Action>, a: Action)
    ensures Run(s, actions + [a]) == Step(Run(s, actions), a)
  {
    assert (actions + [a])[..|actions|] == actions;
  }

  predicate Others(actions: seq<Action>, c: nat) {
    forall k :: 0 <= k < |actions| ==> actions[k].Tick? || actions[k].caller != c
  }

  /** What others do does not move a caller. */
  lemma {:induction false} OthersLeaveAlone(s: State, actions: seq<Action>, c: nat)
    requires Others(actions, c)
    ensures At(Run(s, actions), c) == At(s, c)
  {
    if actions != [] {
      OthersLeaveAlone(s, actions[..|actions| - 1], c);
    }
  }

  /** After others have acted, the caller's turn: the lock, the second look, and the check if it must. */
  function Turn(s: State, c: nat, wait: nat, ready: bool): State {
    Step(Step(Step(Step(Step(Step(s, Acquire(c)), Reread(c)), Tick(wait)), Finish(c, ready)), Keep(c)), Leave(c))
  }

  function TurnActions(c: nat, wait: nat, ready: bool): seq<Action> {
    [Acquire(c)] + [Reread(c)] + [Tick(wait)] + [Finish(c, ready)] + [Keep(c)] + [Leave(c)]
  }

  lemma TurnRuns(s: State, c: nat, wait: nat, ready: bool)
    ensures Run(s, TurnActions(c, wait, ready)) == Turn(s, c, wait, ready)
  {
    hide Step;
    RunMore(s, [], Acquire(c));
    assert [] + [Acquire(c)] == [Acquire(c)];
    RunMore(s, [Acquire(c)], Reread(c));
    RunMore(s, [Acquire(c)] + [Reread(c)], Tick(wait));
    RunMore(s, [Acquire(c)] + [Reread(c)] + [Tick(wait)], Finish(c, ready));
    RunMore(s, [Acquire(c)] + [Reread(c)] + [Tick(wait)] + [Finish(c, ready)], Keep(c));
    RunMore(s, [Acquire(c)] + [Reread(c)] + [Tick(wait)] + [Finish(c, ready)] + [Keep(c)], Leave(c));
  }

  lemma TurnOutcome(s: State, c: nat, wait: nat, ready: bool)
    requires At(s, c).Waiting? && s.lock.None?
    ensures var hit, end := FreshOf(s.last, s.now), Turn(s, c, wait, ready);
            && end.lock.None?
            && (hit.Some? ==> At(end, c) == Answered(hit.value) && end.last == s.last)
            && (hit.None? ==> At(end, c) == Answered(ready) && end.last == Some(Verdict(s.now + wait, ready)))
  {
    hide FreshOf;
  }

  /** The state a caller that missed finds when it gets the lock. */
  ghost function Found(s: State, c: nat, between: seq<Action>): State {
    Run(Step(s, Arrive(c)), between)
  }

  class Probe {
    var last: Option<Verdict>

    constructor ()
      ensures last == None
    {
      last := None;
    }

    method Fresh(now: nat) returns (r: Option<bool>)
      ensures r == FreshOf(last, now)
    {
      if last.None? {
        return None;
      }
      r := if now < last.value.at + TTL then Some(last.value.ready) else None;
    }

    method Store(now: nat, ready: bool)
      modifies this
      ensures last == Some(Verdict(now, ready))
    {
      last := Some(Verdict(now, ready));
    }

    /** One caller's code, from any state `s` of the callers in which it is idle. If it misses, others
        act for a while and it gets the lock at `held`, finding their verdict `meanwhile`; a check
        would answer `ready` and be stored at `done`. Its answer, and the cache it leaves, are those
        of its steps. */
    method Answer(arrived: nat, meanwhile: Option<Verdict>, held: nat, ready: bool, done: nat,
                  ghost s: State, ghost c: nat, ghost between: seq<Action>)
      returns (answer: bool)
      requires s.now == arrived && s.last == last && Idle(s, c) && Others(between, c)
      requires At(Step(s, Arrive(c)), c).Waiting? ==>
                 var found := Found(s, c, between);
                 found.lock.None? && found.last == meanwhile && found.now == held <= done
      modifies this
      ensures var arrival := Step(s, Arrive(c));
              if arrival.callers[c].Answered?
              then arrival.callers[c] == Answered(answer) && last == arrival.last
              else
                var end := Run(Found(s, c, between), TurnActions(c, done - held, ready));
                At(end, c) == Answered(answer) && last == end.last && end.lock.None?
      ensures if old(last).Some? && arrived < old(last).value.at + TTL then answer == old(last).value.ready
              else if meanwhile.Some? && held < meanwhile.value.at + TTL then answer == meanwhile.value.ready
              else answer == ready && last == Some(Verdict(done, ready))
    {
      hide Turn, TurnActions, Run;
      var hit := Fresh(arrived);
      if hit.Some? {
        return hit.value;
      }
      OthersLeaveAlone(Step(s, Arrive(c)), between, c);
      TurnRuns(Found(s, c, between), c, done - held, ready);
      TurnOutcome(Found(s, c, between), c, done - held, ready);
      last := meanwhile;
      hit := Fresh(held);
      if hit.Some? {
        return hit.value;
      }
      Store(done, ready);
      answer := ready;
    }
  }
}
