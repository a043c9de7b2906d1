/**
 * The "completed today" check for one volume: scan the volume's snapshots and
 * raise a flag if any of them was started on today's day of the year and is in
 * the `completed` state.
 */
module Snapshots {

  /** A day of the year, as a calendar time reports it: 1 to 365, or 366 in a leap year. */
  type YearDay = d: int | 1 <= d <= 366 witness 1

  /** A calendar day; the check reads only `yearDay`. */
  datatype Date = Date(year: int, yearDay: YearDay)

  /** One snapshot record of a volume: the day it was started and its lifecycle state. */
  datatype Snapshot = Snapshot(startTime: Date, state: string)

  /** The only lifecycle state that counts as a finished backup. */
  const Completed := "completed"

  /**
   * The condition tested for each snapshot: same day of the year as `today`
   * (the year is not compared) and state exactly `completed`.
   */
  predicate IsCompletedToday(s: Snapshot, today: Date)
  {
    s.startTime.yearDay == today.yearDay && s.state == Completed
  }

  /**
   * The flag after scanning `snapshots` in order: it is raised by the first
   * snapshot that passes and never lowered again. It holds exactly when some
   * snapshot passes, so an empty list never passes.
   */
  function CompletedToday(snapshots: seq<Snapshot>, today: Date): (flag: bool)
    ensures flag <==> exists i :: 0 <= i < |snapshots| && IsCompletedToday(snapshots[i], today)
  {
    if snapshots == [] then false
    else
      var last := |snapshots| - 1;
      CompletedToday(snapshots[..last], today) || IsCompletedToday(snapshots[last], today)
  }

  /** Scanning further can only keep a raised flag raised. */
  lemma CompletedTodayMonotone(snapshots: seq<Snapshot>, today: Date, i: nat, j: nat)
    requires i <= j <= |snapshots|
    requires CompletedToday(snapshots[..i], today)
    ensures CompletedToday(snapshots[..j], today)
  {
  }

  /** The outcome does not depend on the order in which the snapshots are listed. */
  lemma CompletedTodayPermutation(s: seq<Snapshot>, t: seq<Snapshot>, today: Date)
    requires multiset(s) == multiset(t)
    ensures CompletedToday(s, today) == CompletedToday(t, today)
  {
    if CompletedToday(s, today) {
      var k :| 0 <= k < |s| && IsCompletedToday(s[k], today);
      assert s[k] in multiset(t);
      var k' :| 0 <= k' < |t| && t[k'] == s[k];
    }
    if CompletedToday(t, today) {
      var k :| 0 <= k < |t| && IsCompletedToday(t[k], today);
      assert t[k] in multiset(s);
      var k' :| 0 <= k' < |s| && s[k'] == t[k];
    }
  }

  /**
   * Only the day of the year is compared: a completed snapshot started on the
   * same day of the year in any other year passes as well.
   */
  lemma CompletedTodayIgnoresYear(snapshots: seq<Snapshot>, today: Date, year: int)
    requires Snapshot(Date(year, today.yearDay), Completed) in snapshots
    ensures CompletedToday(snapshots, today)
  {
  }

  /**
   * The scan loop: the flag starts lowered and is raised by every snapshot that
   * passes the check. It is never lowered again: the second invariant says a
   * flag raised after any earlier prefix is still raised.
   */
  method ScanSnapshots(snapshots: seq<Snapshot>, today: Date) returns (completeFlag: bool)
    ensures completeFlag == CompletedToday(snapshots, today)
  {
    completeFlag := false;
    var j := 0;
    while j < |snapshots|
      invariant 0 <= j <= |snapshots|
      invariant completeFlag == CompletedToday(snapshots[..j], today)
      invariant forall k :: 0 <= k <= j && CompletedToday(snapshots[..k], today) ==> completeFlag
    {
      assert snapshots[..j + 1][..j] == snapshots[..j];
      forall k | 0 <= k <= j + 1 && CompletedToday(snapshots[..k], today)
        ensures CompletedToday(snapshots[..j + 1], today)
      {
        CompletedTodayMonotone(snapshots, today, k, j + 1);
      }
      if snapshots[j].startTime.yearDay == today.yearDay && snapshots[j].state == Completed {
        completeFlag := true;
      }
      j := j + 1;
    }
    assert snapshots[..j] == snapshots;
  }
}
