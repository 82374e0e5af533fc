/** Deciding a person's coverage state at an instant.

    The code works on episodes: recovery intervals are derived, everything is sorted, and touching
    intervals are merged. The specification is pointwise and never mentions an episode. */
module Evaluation {
  import opened Outcomes
  import opened Ordering
  import opened Coverage

  // ---------- the pointwise specification ----------

  predicate PaidBy(f: Fact, t: int) {
    f.startsAt <= t < f.paidUntil
  }

  predicate RecoveryBy(f: Fact, t: int) {
    f.failedRenewalId.Some? && f.paidUntil <= t < f.paidUntil + RENEWAL_RECOVERY_SECONDS
  }

  ghost predicate PaidAt(facts: seq<Fact>, t: int) {
    exists f :: f in facts && PaidBy(f, t)
  }

  ghost predicate RecoveryAt(facts: seq<Fact>, t: int) {
    exists f :: f in facts && RecoveryBy(f, t)
  }

  ghost predicate CoveredAt(facts: seq<Fact>, t: int) {
    PaidAt(facts, t) || RecoveryAt(facts, t)
  }

  /** `u` is the first uncovered instant after `now`. */
  ghost predicate CoverageRunsOut(facts: seq<Fact>, now: int, u: int) {
    now < u && !CoveredAt(facts, u) && forall t :: now <= t < u ==> CoveredAt(facts, t)
  }

  /** `e` is the instant at which the last coverage before `now` ended. */
  ghost predicate CoverageEndedAt(facts: seq<Fact>, now: int, e: int) {
    e <= now && CoveredAt(facts, e - 1) && forall t :: e <= t <= now ==> !CoveredAt(facts, t)
  }

  /** `u` is the latest end of a recovery running at `now`. */
  ghost predicate RecoveryEndsAt(facts: seq<Fact>, now: int, u: int) {
    && (exists f :: f in facts && RecoveryBy(f, now) && u == f.paidUntil + RENEWAL_RECOVERY_SECONDS)
    && (forall f :: f in facts && RecoveryBy(f, now) ==> f.paidUntil + RENEWAL_RECOVERY_SECONDS <= u)
  }

  ghost predicate CoveredBefore(facts: seq<Fact>, now: int) {
    exists t: int :: t < now && CoveredAt(facts, t)
  }

  ghost predicate CoveredInWindow(facts: seq<Fact>, now: int) {
    exists t: int :: now - EXPORT_WINDOW_SECONDS <= t < now && CoveredAt(facts, t)
  }

  ghost predicate Decides(facts: seq<Fact>, now: Int64, d: CoverageDecision) {
    && (d.state == Paid <==> PaidAt(facts, now))
    && (d.state == RenewalRecovery <==> RecoveryAt(facts, now) && !PaidAt(facts, now))
    && (d.state == ExportOnly <==> !CoveredAt(facts, now) && CoveredInWindow(facts, now))
    && (d.state == Expired <==>
          !CoveredAt(facts, now) && CoveredBefore(facts, now) && !CoveredInWindow(facts, now))
    && (d.state == Free <==> !CoveredAt(facts, now) && !CoveredBefore(facts, now))
    && (d.activeUntil.Some? <==> CoveredAt(facts, now))
    && (d.activeUntil.Some? ==> CoverageRunsOut(facts, now, d.activeUntil.value))
    && (d.recoveryUntil.Some? <==> d.state == RenewalRecovery)
    && (d.recoveryUntil.Some? ==> RecoveryEndsAt(facts, now, d.recoveryUntil.value))
    && (d.exportUntil.Some? <==> d.state == ExportOnly || d.state == Expired)
    && (d.exportUntil.Some? ==> CoverageEndedAt(facts, now, d.exportUntil.value - EXPORT_WINDOW_SECONDS))
  }

  /** The export deadline of the last coverage before `now` does not fit in 64 bits. */
  ghost predicate ExportDeadlineTooLate(facts: seq<Fact>, now: Int64) {
    && !CoveredAt(facts, now)
    && exists e :: CoverageEndedAt(facts, now, e) && e + EXPORT_WINDOW_SECONDS > I64_MAX
  }

  // ---------- eligible intervals ----------

  datatype IntervalKind = PaidKind | RecoveryKind

  datatype EligibleInterval = EligibleInterval(
    startsAt: Int64, endsAt: Int64, kind: IntervalKind, coverageId: string)

  datatype Episode = Episode(startsAt: Int64, endsAt: Int64)

  predicate EligibleLe(l: EligibleInterval, r: EligibleInterval) {
    if l.startsAt != r.startsAt then l.startsAt < r.startsAt
    else if l.endsAt != r.endsAt then l.endsAt < r.endsAt
    else if l.kind != r.kind then l.kind == PaidKind
    else StrLe(l.coverageId, r.coverageId)
  }

  function PaidPart(f: Fact): EligibleInterval {
    EligibleInterval(f.startsAt, f.paidUntil, PaidKind, f.coverageId)
  }

  function RecoveryPart(f: Fact): EligibleInterval
    requires WellFormed(f) && f.failedRenewalId.Some?
  {
    EligibleInterval(
      f.paidUntil, f.paidUntil + RENEWAL_RECOVERY_SECONDS, RecoveryKind, f.coverageId)
  }

  ghost predicate PartOf(e: EligibleInterval, f: Fact) {
    WellFormed(f) && (e == PaidPart(f) || (f.failedRenewalId.Some? && e == RecoveryPart(f)))
  }

  /** The intervals are exactly the paid and recovery parts of the facts. */
  ghost predicate PartsOf(s: seq<EligibleInterval>, facts: seq<Fact>) {
    forall e :: e in s <==> exists f :: f in facts && PartOf(e, f)
  }

  predicate During(e: EligibleInterval, t: int) {
    e.startsAt <= t < e.endsAt
  }

  method EligibleIntervals(coverage: PersonCoverage)
    returns (r: Result<seq<EligibleInterval>, InvalidCoverage>)
    ensures r.Ok? <==> Normalise(coverage.beneficiaryId, coverage.paidIntervals).Ok?
    ensures r.Err? ==> r.error == Normalise(coverage.beneficiaryId, coverage.paidIntervals).error
    ensures r.Ok? ==> PartsOf(r.value, coverage.paidIntervals) && Sorted(EligibleLe, r.value)
  {
    var normal := NormaliseConfirmedIntervals(coverage);
    NormaliseAdmits(coverage.beneficiaryId, coverage.paidIntervals);
    if normal.Err? {
      return Err(normal.error);
    }
    var unique := normal.value;
    var eligible: seq<EligibleInterval> := [];
    for k := 0 to |unique|
      invariant PartsOf(eligible, unique[..k])
    {
      var interval := unique[k];
      ghost var before := eligible;
      assert WellFormed(interval);
      assert unique[..k + 1] == unique[..k] + [interval];
      eligible := eligible + [PaidPart(interval)];
      if interval.failedRenewalId.Some? {
        eligible := eligible + [RecoveryPart(interval)];
      }
      PartsStep(before, unique[..k], interval, eligible);
    }
    assert unique[..|unique|] == unique;
    EligibleLeOrder();
    SortBySorted(EligibleLe, eligible);
    r := Ok(SortBy(EligibleLe, eligible));
  }

  lemma EligibleLeOrder()
    ensures TotalPreorder(EligibleLe)
  {
    StrLeOrder();
  }

  lemma PartsStep(
    s: seq<EligibleInterval>, facts: seq<Fact>, f: Fact, next: seq<EligibleInterval>)
    requires PartsOf(s, facts) && WellFormed(f)
    requires next == s + [PaidPart(f)] + if f.failedRenewalId.Some? then [RecoveryPart(f)] else []
    ensures PartsOf(next, facts + [f])
  {
    forall e ensures e in next <==> exists g :: g in facts + [f] && PartOf(e, g) {
      if e in next {
        if e in s {
          var g :| g in facts && PartOf(e, g);
          assert g in facts + [f];
        } else {
          assert f in facts + [f] && PartOf(e, f);
        }
      }
      if exists g :: g in facts + [f] && PartOf(e, g) {
        var g :| g in facts + [f] && PartOf(e, g);
        if g in facts {
          assert e in s;
        }
      }
    }
  }

  // ---------- episodes ----------

  ghost predicate AnyDuring(s: seq<EligibleInterval>, t: int) {
    exists e :: e in s && During(e, t)
  }

  ghost predicate AnyEpisode(s: seq<Episode>, t: int) {
    exists e :: e in s && e.startsAt <= t < e.endsAt
  }

  /** Episodes are nonempty, apart from each other, and in order. */
  ghost predicate Separated(s: seq<Episode>) {
    && (forall i :: 0 <= i < |s| ==> s[i].startsAt < s[i].endsAt)
    && (forall i, j :: 0 <= i < j < |s| ==> s[i].endsAt < s[j].startsAt)
  }

  /** Merging keeps exactly the covered instants. */
  method Episodes(intervals: seq<EligibleInterval>) returns (episodes: seq<Episode>)
    requires Sorted(EligibleLe, intervals)
    requires forall e :: e in intervals ==> e.startsAt < e.endsAt
    ensures Separated(episodes)
    ensures forall t :: AnyEpisode(episodes, t) <==> AnyDuring(intervals, t)
  {
    episodes := [];
    for k := 0 to |intervals|
      invariant Separated(episodes)
      invariant forall t :: AnyEpisode(episodes, t) <==> AnyDuring(intervals[..k], t)
      invariant episodes != [] ==>
                  k > 0 && episodes[|episodes| - 1].startsAt <= intervals[k - 1].startsAt
    {
      var interval := intervals[k];
      assert intervals[..k + 1] == intervals[..k] + [interval];
      AppendedInterval(intervals[..k], interval);
      assert k > 0 ==> EligibleLe(intervals[k - 1], interval);
      if episodes != [] && interval.startsAt <= episodes[|episodes| - 1].endsAt {
        MergedEpisode(episodes, interval);
        var last := episodes[|episodes| - 1];
        var endsAt := if last.endsAt <= interval.endsAt then interval.endsAt else last.endsAt;
        episodes := episodes[|episodes| - 1 := last.(endsAt := endsAt)];
      } else {
        AppendedEpisode(episodes, interval);
        episodes := episodes + [Episode(interval.startsAt, interval.endsAt)];
      }
    }
    assert intervals[..|intervals|] == intervals;
  }

  lemma AppendedInterval(s: seq<EligibleInterval>, e: EligibleInterval)
    ensures forall t :: AnyDuring(s + [e], t) <==> AnyDuring(s, t) || During(e, t)
  {
    forall t ensures AnyDuring(s + [e], t) <==> AnyDuring(s, t) || During(e, t) {
      assert e in s + [e];
      assert forall x :: x in s ==> x in s + [e];
    }
  }

  lemma AppendedEpisode(s: seq<Episode>, e: EligibleInterval)
    requires Separated(s) && e.startsAt < e.endsAt
    requires s == [] || s[|s| - 1].endsAt < e.startsAt
    ensures Separated(s + [Episode(e.startsAt, e.endsAt)])
    ensures forall t ::
              AnyEpisode(s + [Episode(e.startsAt, e.endsAt)], t) <==> AnyEpisode(s, t) || During(e, t)
  {
    var x := Episode(e.startsAt, e.endsAt);
    forall t ensures AnyEpisode(s + [x], t) <==> AnyEpisode(s, t) || During(e, t) {
      assert x in s + [x];
      assert forall y :: y in s ==> y in s + [x];
    }
  }

  lemma MergedEpisode(s: seq<Episode>, e: EligibleInterval)
    requires Separated(s) && e.startsAt < e.endsAt
    requires s != [] && s[|s| - 1].startsAt <= e.startsAt <= s[|s| - 1].endsAt
    ensures var last := s[|s| - 1];
            var endsAt := if last.endsAt <= e.endsAt then e.endsAt else last.endsAt;
            Separated(s[|s| - 1 := last.(endsAt := endsAt)])
    ensures var last := s[|s| - 1];
            var endsAt := if last.endsAt <= e.endsAt then e.endsAt else last.endsAt;
            forall t :: AnyEpisode(s[|s| - 1 := last.(endsAt := endsAt)], t) <==>
                          AnyEpisode(s, t) || During(e, t)
  {
    var n := |s| - 1;
    var last := s[n];
    var x := last.(endsAt := if last.endsAt <= e.endsAt then e.endsAt else last.endsAt);
    var r := s[n := x];
    forall t ensures AnyEpisode(r, t) <==> AnyEpisode(s, t) || During(e, t) {
      if AnyEpisode(r, t) {
        var y :| y in r && y.startsAt <= t < y.endsAt;
        var i :| 0 <= i < |r| && r[i] == y;
        assert i != n ==> s[i] in s;
        assert s[n] in s;
      }
      if AnyEpisode(s, t) {
        var y :| y in s && y.startsAt <= t < y.endsAt;
        var i :| 0 <= i < |s| && s[i] == y;
        assert r[i] in r;
      }
      assert r[n] in r;
    }
  }

  // ---------- the decision ----------

  /** The first episode containing `now`. */
  function FindCurrent(episodes: seq<Episode>, now: Int64): (r: Option<Episode>)
    ensures r.Some? <==> AnyEpisode(episodes, now)
    ensures r.Some? ==> r.value in episodes && r.value.startsAt <= now < r.value.endsAt
  {
    if episodes == [] then None
    else
      assert episodes == [episodes[0]] + episodes[1..];
      if episodes[0].startsAt <= now < episodes[0].endsAt then Some(episodes[0])
      else FindCurrent(episodes[1..], now)
  }

  /** The latest end among the recovery intervals containing `now`. */
  function LatestRecovery(intervals: seq<EligibleInterval>, now: Int64): (r: Option<Int64>)
    ensures r.Some? <==> exists e :: e in intervals && e.kind == RecoveryKind && During(e, now)
    ensures r.Some? ==>
              && (exists e :: e in intervals && e.kind == RecoveryKind && During(e, now) && e.endsAt == r.value)
              && (forall e :: e in intervals && e.kind == RecoveryKind && During(e, now) ==> e.endsAt <= r.value)
  {
    if intervals == [] then None
    else
      assert intervals == [intervals[0]] + intervals[1..];
      var rest := LatestRecovery(intervals[1..], now);
      var e := intervals[0];
      if e.kind == RecoveryKind && During(e, now) && (rest.None? || rest.value <= e.endsAt)
      then Some(e.endsAt) else rest
  }

  /** The episode ended by `now` that ended last. */
  function LatestEnded(episodes: seq<Episode>, now: Int64): (r: Option<Episode>)
    ensures r.Some? <==> exists e :: e in episodes && e.endsAt <= now
    ensures r.Some? ==>
              && r.value in episodes && r.value.endsAt <= now
              && (forall e :: e in episodes && e.endsAt <= now ==> e.endsAt <= r.value.endsAt)
  {
    if episodes == [] then None
    else
      assert episodes == [episodes[0]] + episodes[1..];
      var rest := LatestEnded(episodes[1..], now);
      var e := episodes[0];
      if e.endsAt <= now && (rest.None? || rest.value.endsAt < e.endsAt) then Some(e) else rest
  }

  function Decide(intervals: seq<EligibleInterval>, episodes: seq<Episode>, now: Int64)
    : Result<CoverageDecision, InvalidCoverage>
  {
    match FindCurrent(episodes, now)
    case Some(current) =>
      var paidNow := exists e :: e in intervals && e.kind == PaidKind && During(e, now);
      Ok(CoverageDecision(
           if paidNow then Paid else RenewalRecovery,
           Some(current.endsAt),
           if paidNow then None else LatestRecovery(intervals, now),
           None))
    case None =>
      match LatestEnded(episodes, now)
      case None => Ok(CoverageDecision(Free, None, None, None))
      case Some(ended) =>
        match CheckedAdd(ended.endsAt, EXPORT_WINDOW_SECONDS)
        case None => Err(ExportDeadlineOverflow)
        case Some(exportUntil) =>
          Ok(CoverageDecision(
               if now < exportUntil then ExportOnly else Expired, None, None, Some(exportUntil)))
  }

  /** Episodes decide as the pointwise specification does. */
  method Evaluate(coverage: PersonCoverage, now: Int64)
    returns (r: Result<CoverageDecision, InvalidCoverage>)
    ensures var facts := coverage.paidIntervals;
            var admitted := Normalise(coverage.beneficiaryId, facts);
            if admitted.Err? then r == Err(admitted.error)
            else if ExportDeadlineTooLate(facts, now) then r == Err(ExportDeadlineOverflow)
            else r.Ok? && Decides(facts, now, r.value)
  {
    var eligible := EligibleIntervals(coverage);
    if eligible.Err? {
      return Err(eligible.error);
    }
    NormaliseAdmits(coverage.beneficiaryId, coverage.paidIntervals);
    var intervals := eligible.value;
    PartsCover(intervals, coverage.paidIntervals);
    var episodes := Episodes(intervals);
    r := Decide(intervals, episodes, now);
    DecideIsPointwise(coverage.paidIntervals, intervals, episodes, now);
  }

  lemma PartsCover(s: seq<EligibleInterval>, facts: seq<Fact>)
    requires PartsOf(s, facts) && Admissible(facts)
    ensures forall e :: e in s ==> e.startsAt < e.endsAt
    ensures forall t :: AnyDuring(s, t) <==> CoveredAt(facts, t)
    ensures forall t :: (exists e :: e in s && e.kind == PaidKind && During(e, t)) <==> PaidAt(facts, t)
    ensures forall t ::
              (exists e :: e in s && e.kind == RecoveryKind && During(e, t)) <==> RecoveryAt(facts, t)
  {
    forall t
      ensures (exists e :: e in s && e.kind == PaidKind && During(e, t)) <==> PaidAt(facts, t)
    {
      if PaidAt(facts, t) {
        var f :| f in facts && PaidBy(f, t);
        assert PartOf(PaidPart(f), f);
        assert PaidPart(f) in s && During(PaidPart(f), t);
      }
    }
    forall t
      ensures (exists e :: e in s && e.kind == RecoveryKind && During(e, t)) <==> RecoveryAt(facts, t)
    {
      if RecoveryAt(facts, t) {
        var f :| f in facts && RecoveryBy(f, t);
        assert PartOf(RecoveryPart(f), f);
        assert RecoveryPart(f) in s && During(RecoveryPart(f), t);
      }
    }
    forall t ensures AnyDuring(s, t) <==> CoveredAt(facts, t) {
      if AnyDuring(s, t) {
        var e :| e in s && During(e, t);
        assert e.kind == PaidKind || e.kind == RecoveryKind;
      }
    }
  }

  /** Where an episode ends, coverage ends. */
  lemma EpisodeEndUncovered(episodes: seq<Episode>, e: Episode)
    requires Separated(episodes) && e in episodes
    ensures !AnyEpisode(episodes, e.endsAt)
  {
  }

  lemma CurrentEpisodeIsPointwise(facts: seq<Fact>, episodes: seq<Episode>, now: Int64)
    requires Separated(episodes) && (forall t :: AnyEpisode(episodes, t) <==> CoveredAt(facts, t))
    requires FindCurrent(episodes, now).Some?
    ensures CoverageRunsOut(facts, now, FindCurrent(episodes, now).value.endsAt)
  {
    var current := FindCurrent(episodes, now).value;
    EpisodeEndUncovered(episodes, current);
    forall t | now <= t < current.endsAt ensures CoveredAt(facts, t) {
      assert AnyEpisode(episodes, t);
    }
    assert !CoveredAt(facts, current.endsAt);
  }

  lemma EndedEpisodeIsPointwise(facts: seq<Fact>, episodes: seq<Episode>, now: Int64)
    requires Separated(episodes) && (forall t :: AnyEpisode(episodes, t) <==> CoveredAt(facts, t))
    requires FindCurrent(episodes, now).None?
    ensures LatestEnded(episodes, now).Some? <==> CoveredBefore(facts, now)
    ensures LatestEnded(episodes, now).Some? ==>
              CoverageEndedAt(facts, now, LatestEnded(episodes, now).value.endsAt)
  {
    assert !AnyEpisode(episodes, now);
    if CoveredBefore(facts, now) {
      var t: int :| t < now && CoveredAt(facts, t);
      assert AnyEpisode(episodes, t);
      var e :| e in episodes && e.startsAt <= t < e.endsAt;
      assert !(e.startsAt <= now < e.endsAt);
    }
    if LatestEnded(episodes, now).Some? {
      var ended := LatestEnded(episodes, now).value;
      var i :| 0 <= i < |episodes| && episodes[i] == ended;
      assert ended.startsAt <= ended.endsAt - 1 < ended.endsAt;
      assert AnyEpisode(episodes, ended.endsAt - 1);
      assert CoveredAt(facts, ended.endsAt - 1);
      forall t | ended.endsAt <= t <= now ensures !CoveredAt(facts, t) {
        assert !AnyEpisode(episodes, t);
      }
    }
  }

  lemma DecideIsPointwise(
    facts: seq<Fact>, intervals: seq<EligibleInterval>, episodes: seq<Episode>, now: Int64)
    requires PartsOf(intervals, facts) && Admissible(facts)
    requires Separated(episodes) && forall t :: AnyEpisode(episodes, t) <==> AnyDuring(intervals, t)
    ensures var r := Decide(intervals, episodes, now);
            if ExportDeadlineTooLate(facts, now) then r == Err(ExportDeadlineOverflow)
            else r.Ok? && Decides(facts, now, r.value)
  {
    PartsCover(intervals, facts);
    assert forall t :: AnyEpisode(episodes, t) <==> CoveredAt(facts, t);
    if FindCurrent(episodes, now).Some? {
      DecideWhileCovered(facts, intervals, episodes, now);
    } else {
      DecideWhileUncovered(facts, intervals, episodes, now);
    }
  }

  lemma DecideWhileCovered(
    facts: seq<Fact>, intervals: seq<EligibleInterval>, episodes: seq<Episode>, now: Int64)
    requires PartsOf(intervals, facts) && Admissible(facts)
    requires Separated(episodes) && forall t :: AnyEpisode(episodes, t) <==> CoveredAt(facts, t)
    requires FindCurrent(episodes, now).Some?
    ensures Decide(intervals, episodes, now).Ok?
    ensures !ExportDeadlineTooLate(facts, now)
    ensures Decides(facts, now, Decide(intervals, episodes, now).value)
  {
    PartsCover(intervals, facts);
    assert CoveredAt(facts, now);
    CurrentEpisodeIsPointwise(facts, episodes, now);
    if !PaidAt(facts, now) {
      RecoveryEndIsPointwise(facts, intervals, now);
    }
    CoveredDecision(facts, now, Decide(intervals, episodes, now).value);
  }

  lemma CoveredDecision(facts: seq<Fact>, now: Int64, d: CoverageDecision)
    requires CoveredAt(facts, now)
    requires d.state == if PaidAt(facts, now) then Paid else RenewalRecovery
    requires d.activeUntil.Some? && CoverageRunsOut(facts, now, d.activeUntil.value)
    requires PaidAt(facts, now) ==> d.recoveryUntil.None?
    requires !PaidAt(facts, now) ==>
               d.recoveryUntil.Some? && RecoveryEndsAt(facts, now, d.recoveryUntil.value)
    requires d.exportUntil.None?
    ensures Decides(facts, now, d) && !ExportDeadlineTooLate(facts, now)
  {
  }

  lemma DecideWhileUncovered(
    facts: seq<Fact>, intervals: seq<EligibleInterval>, episodes: seq<Episode>, now: Int64)
    requires Separated(episodes) && forall t :: AnyEpisode(episodes, t) <==> CoveredAt(facts, t)
    requires FindCurrent(episodes, now).None?
    ensures var r := Decide(intervals, episodes, now);
            if ExportDeadlineTooLate(facts, now) then r == Err(ExportDeadlineOverflow)
            else r.Ok? && Decides(facts, now, r.value)
  {
    assert !CoveredAt(facts, now);
    EndedEpisodeIsPointwise(facts, episodes, now);
    if LatestEnded(episodes, now).Some? {
      ExportWindowIsPointwise(facts, now, LatestEnded(episodes, now).value.endsAt);
    } else {
      NeverCoveredHasNoDeadline(facts, now);
    }
  }

  lemma NeverCoveredHasNoDeadline(facts: seq<Fact>, now: Int64)
    requires !CoveredAt(facts, now) && !CoveredBefore(facts, now)
    ensures !CoveredInWindow(facts, now) && !ExportDeadlineTooLate(facts, now)
  {
  }

  lemma RecoveryEndIsPointwise(facts: seq<Fact>, intervals: seq<EligibleInterval>, now: Int64)
    requires PartsOf(intervals, facts) && Admissible(facts)
    requires RecoveryAt(facts, now)
    ensures LatestRecovery(intervals, now).Some?
    ensures RecoveryEndsAt(facts, now, LatestRecovery(intervals, now).value)
  {
    PartsCover(intervals, facts);
    assert exists e :: e in intervals && e.kind == RecoveryKind && During(e, now);
    var u := LatestRecovery(intervals, now).value;
    forall f | f in facts && RecoveryBy(f, now)
      ensures f.paidUntil + RENEWAL_RECOVERY_SECONDS <= u
    {
      assert PartOf(RecoveryPart(f), f);
      assert RecoveryPart(f) in intervals && During(RecoveryPart(f), now);
    }
    var e :| e in intervals && e.kind == RecoveryKind && During(e, now) && e.endsAt == u;
    var f :| f in facts && PartOf(e, f);
    assert RecoveryBy(f, now);
  }

  lemma ExportWindowIsPointwise(facts: seq<Fact>, now: Int64, e: Int64)
    requires CoverageEndedAt(facts, now, e)
    ensures !CoveredAt(facts, now) && CoveredBefore(facts, now)
    ensures CoveredInWindow(facts, now) <==> now < e + EXPORT_WINDOW_SECONDS
    ensures ExportDeadlineTooLate(facts, now) <==> e + EXPORT_WINDOW_SECONDS > I64_MAX
  {
    assert CoveredAt(facts, e - 1);
    if CoveredInWindow(facts, now) {
      var t: int :| now - EXPORT_WINDOW_SECONDS <= t < now && CoveredAt(facts, t);
      assert t < e;
    }
    if ExportDeadlineTooLate(facts, now) {
      var x :| CoverageEndedAt(facts, now, x) && x + EXPORT_WINDOW_SECONDS > I64_MAX;
      CoverageEndUnique(facts, now, e, x);
    }
  }

  lemma CoverageEndUnique(facts: seq<Fact>, now: int, e: int, x: int)
    requires CoverageEndedAt(facts, now, e) && CoverageEndedAt(facts, now, x)
    ensures e == x
  {
  }

  // ---------- the specification settles everything ----------

  /** The pointwise specification leaves no freedom: one decision meets it. */
  lemma DecisionUnique(facts: seq<Fact>, now: Int64, c: CoverageDecision, d: CoverageDecision)
    requires Decides(facts, now, c) && Decides(facts, now, d)
    ensures c == d
  {
    if c.activeUntil.Some? {
      var u, v := c.activeUntil.value, d.activeUntil.value;
      assert now <= u < v ==> CoveredAt(facts, u);
      assert now <= v < u ==> CoveredAt(facts, v);
    }
    if c.exportUntil.Some? {
      CoverageEndUnique(facts, now,
                        c.exportUntil.value - EXPORT_WINDOW_SECONDS,
                        d.exportUntil.value - EXPORT_WINDOW_SECONDS);
    }
  }

  /** Which facts a person has is all that matters: order and repetition change no decision. */
  lemma DecisionIgnoresOrder(facts: seq<Fact>, other: seq<Fact>, now: Int64, d: CoverageDecision)
    requires forall f :: f in facts <==> f in other
    ensures Decides(facts, now, d) <==> Decides(other, now, d)
    ensures ExportDeadlineTooLate(facts, now) <==> ExportDeadlineTooLate(other, now)
  {
    forall t ensures CoveredAt(facts, t) <==> CoveredAt(other, t) {}
    assert forall e :: CoverageEndedAt(facts, now, e) <==> CoverageEndedAt(other, now, e);
    assert forall u :: CoverageRunsOut(facts, now, u) <==> CoverageRunsOut(other, now, u);
    assert forall u :: RecoveryEndsAt(facts, now, u) <==> RecoveryEndsAt(other, now, u);
  }
}
