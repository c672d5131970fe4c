/** The session clock, and what a blackout means for every later evaluation. */
module Session {
  import opened StrategyFsm
  import opened StrategyTheorems

  const MINUTE: int := 60000000000
  const DAY: int := 1440 * MINUTE

  /** The UTC date of a clock reading, as a day number. */
  function Date(now: int): int {
    now / DAY
  }

  /** The close on the date of `now`; `close` is the time of day. */
  function CloseOf(now: int, close: int): int {
    Date(now) * DAY + close
  }

  function MinutesToClose(now: int, close: int): (m: nat)
  {
    if now >= CloseOf(now, close) then 0 else (CloseOf(now, close) - now) / MINUTE
  }

  predicate AllowsEntry(now: int, close: int, blackoutMinutes: int) {
    MinutesToClose(now, close) > blackoutMinutes
  }

  datatype PhaseSnapshot = PhaseSnapshot(allowsEntry: bool, phase: string, minutesToExpiry: nat, flattenSignal: bool)

  /** What _publish_phase puts on the bus. */
  function PhaseAt(now: int, close: int, blackoutMinutes: int): PhaseSnapshot {
    var allows := AllowsEntry(now, close, blackoutMinutes);
    PhaseSnapshot(allows, if allows then "NORMAL" else "BLACKOUT", MinutesToClose(now, close), !allows)
  }

  /**
   * What is published at a moment of the day that began at `midnight`, with the close that much later:
   * entry is allowed exactly while a whole minute more than the blackout remains, or always if that is
   * negative; everything else follows from it. Clock readings are nanoseconds.
   */
  lemma AllowsEntryIff(now: int, midnight: int, close: int, blackoutMinutes: int)
    requires midnight % 86400000000000 == 0 && midnight <= now < midnight + 86400000000000
    ensures var p := PhaseAt(now, close, blackoutMinutes);
            && (p.allowsEntry <==>
                  blackoutMinutes < 0 || midnight + close - now >= (blackoutMinutes + 1) * 60000000000)
            && (p.flattenSignal <==> !p.allowsEntry)
            && p.phase == (if p.allowsEntry then "NORMAL" else "BLACKOUT")
            && (midnight + close <= now ==> p.minutesToExpiry == 0)
            && (midnight + close > now ==>
                  p.minutesToExpiry * 60000000000 <= midnight + close - now < (p.minutesToExpiry + 1) * 60000000000)
  {
    CloseIs(now, midnight, close);
    var left := midnight + close - now;
    if left > 0 {
      WholeUnits(left, MinutesToClose(now, close), MINUTE);
      WholeUnits(left, MinutesToClose(now, close) + 1, MINUTE);
      if blackoutMinutes >= 0 {
        WholeUnits(left, blackoutMinutes + 1, MINUTE);
      }
    }
  }

  lemma CloseIs(now: int, midnight: int, close: int)
    requires midnight % 86400000000000 == 0 && midnight <= now < midnight + 86400000000000
    ensures CloseOf(now, close) == midnight + close
  {
    assert DAY == 86400000000000;
    assert now / DAY == midnight / DAY;
  }

  lemma WholeUnits(x: int, n: nat, unit: int)
    requires unit > 0
    ensures x / unit >= n <==> x >= n * unit
  {
    var q := x / unit;
    assert q * unit <= x < q * unit + unit;
    if q >= n {
      assert q * unit >= n * unit;
    } else {
      assert (q + 1) * unit <= n * unit;
    }
  }

  /** On one date permission to enter is only ever lost. */
  lemma PermissionIsLostForTheDate(now: int, later: int, close: int, blackoutMinutes: int)
    requires now <= later && Date(now) == Date(later)
    ensures AllowsEntry(later, close, blackoutMinutes) ==> AllowsEntry(now, close, blackoutMinutes)
    ensures MinutesToClose(later, close) <= MinutesToClose(now, close)
  {
    var a, b := CloseOf(now, close) - now, CloseOf(later, close) - later;
    assert b <= a;
    if b > 0 {
      QuotientMonotone(b, a, MINUTE);
    }
  }

  lemma QuotientMonotone(x: int, y: int, unit: int)
    requires 0 <= x <= y && unit > 0
    ensures x / unit <= y / unit
  {
    WholeUnits(y, x / unit, unit);
    assert x / unit * unit <= x;
  }

  /** The clock does not run backwards, and every session message is the snapshot of its moment. */
  ghost predicate Genuine(events: seq<Event>, times: seq<int>, close: int, blackoutMinutes: int) {
    && |times| == |events|
    && (forall i, j :: 0 <= i < j < |times| ==> times[i] <= times[j])
    && forall k :: 0 <= k < |events| && events[k].SessionPhase? ==>
         && events[k].allowsEntry == PhaseAt(times[k], close, blackoutMinutes).allowsEntry
         && events[k].flattenSignal == PhaseAt(times[k], close, blackoutMinutes).flattenSignal
  }

  /** Between i and j no session message of a later date is delivered. */
  ghost predicate SameDate(events: seq<Event>, times: seq<int>, i: nat, j: nat)
    requires i < j <= |events| && |times| == |events|
  {
    forall k :: i < k < j && events[k].SessionPhase? ==> Date(times[k]) == Date(times[i])
  }

  lemma {:induction false} StillBlackedOut(events: seq<Event>, times: seq<int>, close: int, blackoutMinutes: int,
                                           i: nat, j: nat)
    requires i < j <= |events| && Genuine(events, times, close, blackoutMinutes)
    requires events[i].SessionPhase? && !events[i].allowsEntry && SameDate(events, times, i, j)
    ensures LastSession(events[..j]).Some? && !LastSession(events[..j]).value.0
    decreases j
  {
    assert events[..j][..j - 1] == events[..j - 1];
    if events[j - 1].SessionPhase? {
      if i < j - 1 {
        PermissionIsLostForTheDate(times[i], times[j - 1], close, blackoutMinutes);
      }
    } else {
      assert i < j - 1;
      StillBlackedOut(events, times, close, blackoutMinutes, i, j - 1);
    }
  }

  /** Without permission from the last session message nothing passes. */
  lemma NothingPassesWithoutPermission(cfg: Config, history: seq<Event>, e: Event)
    requires LastSession(history).Some? && !LastSession(history).value.0
    ensures !JournalsPass(Run(Initial(cfg), history), e)
  {
    hide Step, Run, ContextFromChain, ContextFromTick, JournalsPass;
    RunRemembers(cfg, history);
    PassedIffGatesOpen(Run(Initial(cfg), history), e);
  }

  /**
   * Once a blackout snapshot is delivered, no callback appends a GREEK_PASSED record until a
   * snapshot of a later date is delivered.
   */
  lemma BlackoutIsPermanent(cfg: Config, events: seq<Event>, times: seq<int>, close: int, blackoutMinutes: int,
                            i: nat, j: nat)
    requires i < j < |events| && Genuine(events, times, close, blackoutMinutes)
    requires events[i].SessionPhase? && !events[i].allowsEntry && SameDate(events, times, i, j)
    ensures !JournalsPass(Run(Initial(cfg), events[..j]), events[j])
  {
    hide Step, Genuine, SameDate, Run, Initial, JournalsPass;
    var history, e := events[..j], events[j];
    StillBlackedOut(events, times, close, blackoutMinutes, i, j);
    NothingPassesWithoutPermission(cfg, history, e);
  }
}
