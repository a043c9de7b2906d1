/**
 * One invocation of the snapshot check: describe the instance's block-device
 * mappings, collect the attached volumes, and for each volume in order query
 * its snapshots, decide the flag and publish one notification. The first
 * failing call ends the invocation with that call's error.
 *
 * The cloud calls are parameters: `describe` is the outcome of the
 * describe-instance query, `query` answers the snapshot query for a volume,
 * `publish(i)` is the outcome of the i-th publish (counted from 0), and `today`
 * is the clock's date. What the invocation publishes is the log `sent`.
 */
module Handler {
  import opened Results
  import opened Volumes
  import opened Snapshots
  import opened Messages

  /** The error value an AWS call returns; passed on to the caller unchanged. */
  datatype Error = Error(message: string)

  /** What an invocation did: the notifications it published, in order, and the error it returned, if any. */
  datatype Report = Report(sent: seq<Notification>, err: Option<Error>)

  /** The notification for a volume whose snapshot query returned `snapshots`. */
  function NotificationFor(instanceId: string, snapshots: seq<Snapshot>, today: Date): Notification
  {
    Compose(CompletedToday(snapshots, today), instanceId)
  }

  /** Volume `i` ends the invocation: its snapshot query fails, or else its publish does. */
  predicate FailsAt(volumes: seq<string>, query: string -> Result<seq<Snapshot>, Error>,
                    publish: nat -> Option<Error>, i: nat)
    requires i < |volumes|
  {
    query(volumes[i]).Err? || publish(i).Some?
  }

  /** The error volume `i` ends the invocation with: the query's if it failed, else the publish's. */
  function ErrorAt(volumes: seq<string>, query: string -> Result<seq<Snapshot>, Error>,
                   publish: nat -> Option<Error>, i: nat): Error
    requires i < |volumes| && FailsAt(volumes, query, publish, i)
  {
    if query(volumes[i]).Err? then query(volumes[i]).error else publish(i).value
  }

  /**
   * The first volume at or after `i` that ends the invocation, or the number
   * of volumes if none does.
   */
  function FirstFailure(volumes: seq<string>, query: string -> Result<seq<Snapshot>, Error>,
                        publish: nat -> Option<Error>, i: nat): (k: nat)
    requires i <= |volumes|
    ensures i <= k <= |volumes|
    ensures forall j :: i <= j < k ==> !FailsAt(volumes, query, publish, j)
    ensures k < |volumes| ==> FailsAt(volumes, query, publish, k)
    decreases |volumes| - i
  {
    if i == |volumes| || FailsAt(volumes, query, publish, i) then i
    else FirstFailure(volumes, query, publish, i + 1)
  }

  /** `FirstFailure` is the least failing index: a `k` with no failure before it and a failure (or the end) at it is it. */
  lemma FirstFailureIsLeast(volumes: seq<string>, query: string -> Result<seq<Snapshot>, Error>,
                            publish: nat -> Option<Error>, i: nat, k: nat)
    requires i <= k <= |volumes|
    requires forall j :: i <= j < k ==> !FailsAt(volumes, query, publish, j)
    requires k < |volumes| ==> FailsAt(volumes, query, publish, k)
    ensures FirstFailure(volumes, query, publish, i) == k
  {
  }

  /**
   * The notifications of volumes `0 .. n-1`, in order, each chosen by the
   * flag of that volume's snapshot list; a volume whose query failed is never
   * published, and `Compose(false, instanceId)` stands in for it.
   */
  function Expected(instanceId: string, volumes: seq<string>, query: string -> Result<seq<Snapshot>, Error>,
                    today: Date, n: nat): (notes: seq<Notification>)
    requires n <= |volumes|
    ensures |notes| == n
    ensures forall j :: 0 <= j < n && query(volumes[j]).Ok? ==>
              notes[j] == NotificationFor(instanceId, query(volumes[j]).value, today)
  {
    if n == 0 then []
    else
      var note := match query(volumes[n - 1])
        case Ok(snapshots) => NotificationFor(instanceId, snapshots, today)
        case Err(_) => Compose(false, instanceId);
      Expected(instanceId, volumes, query, today, n - 1) + [note]
  }

  /**
   * The dispatch loop over `volumes`: the notifications of every volume before
   * the first failing one, and that volume's error; every notification and no
   * error when nothing fails.
   */
  function Run(instanceId: string, volumes: seq<string>, query: string -> Result<seq<Snapshot>, Error>,
               publish: nat -> Option<Error>, today: Date): Report
  {
    var k := FirstFailure(volumes, query, publish, 0);
    Report(Expected(instanceId, volumes, query, today, k),
           if k < |volumes| then Some(ErrorAt(volumes, query, publish, k)) else None)
  }

  /**
   * When no snapshot query and no publish fails, the invocation succeeds and
   * publishes exactly one notification per volume, in volume order, each
   * chosen by that volume's flag alone. In particular no volumes means no
   * notifications and success.
   */
  lemma RunSucceeds(instanceId: string, volumes: seq<string>, query: string -> Result<seq<Snapshot>, Error>,
                    publish: nat -> Option<Error>, today: Date)
    requires forall i :: 0 <= i < |volumes| ==> query(volumes[i]).Ok? && publish(i).None?
    ensures var r := Run(instanceId, volumes, query, publish, today);
      && r.err == None
      && |r.sent| == |volumes|
      && forall i :: 0 <= i < |volumes| ==>
           r.sent[i] == Compose(CompletedToday(query(volumes[i]).value, today), instanceId)
  {
  }

  /**
   * If volume `k` is the first to fail, the invocation returns its error (the
   * snapshot query's if that failed, else the publish's), having published
   * the notifications of volumes `0 .. k-1` and nothing for volume `k` or
   * after.
   */
  lemma RunFailsAtFirstFailure(instanceId: string, volumes: seq<string>,
                               query: string -> Result<seq<Snapshot>, Error>,
                               publish: nat -> Option<Error>, today: Date, k: nat)
    requires k < |volumes| && FailsAt(volumes, query, publish, k)
    requires forall i :: 0 <= i < k ==> !FailsAt(volumes, query, publish, i)
    ensures var r := Run(instanceId, volumes, query, publish, today);
      && r.err == Some(if query(volumes[k]).Err? then query(volumes[k]).error else publish(k).value)
      && |r.sent| == k
      && forall i :: 0 <= i < k ==>
           query(volumes[i]).Ok? && r.sent[i] == Compose(CompletedToday(query(volumes[i]).value, today), instanceId)
  {
    FirstFailureIsLeast(volumes, query, publish, 0, k);
    forall i | 0 <= i < k ensures query(volumes[i]).Ok? {
      assert !FailsAt(volumes, query, publish, i);
    }
  }

  /**
   * The invocation reports an error exactly when some volume's snapshot query
   * or publish fails. What was published is always a prefix of `Expected`
   * over all the volumes, and a strictly shorter one when there is an error.
   */
  lemma RunErrorIffSomeFailure(instanceId: string, volumes: seq<string>,
                               query: string -> Result<seq<Snapshot>, Error>,
                               publish: nat -> Option<Error>, today: Date)
    ensures var r := Run(instanceId, volumes, query, publish, today);
      && (r.err.Some? <==> exists k :: 0 <= k < |volumes| && FailsAt(volumes, query, publish, k))
      && (r.err.Some? ==> |r.sent| < |volumes|)
      && r.sent == Expected(instanceId, volumes, query, today, |volumes|)[..|r.sent|]
  {
    var k := FirstFailure(volumes, query, publish, 0);
    var r := Run(instanceId, volumes, query, publish, today);
    var all := Expected(instanceId, volumes, query, today, |volumes|);
    ExpectedPrefix(instanceId, volumes, query, today, k, |volumes|);
    if k < |volumes| {
      assert FailsAt(volumes, query, publish, k);
    }
  }

  /** The expected notifications of a shorter prefix of the volumes are a prefix of those of a longer one. */
  lemma {:induction false} ExpectedPrefix(instanceId: string, volumes: seq<string>,
                                          query: string -> Result<seq<Snapshot>, Error>, today: Date, m: nat, n: nat)
    requires m <= n <= |volumes|
    ensures Expected(instanceId, volumes, query, today, m) == Expected(instanceId, volumes, query, today, n)[..m]
    decreases n - m
  {
    if m < n {
      ExpectedPrefix(instanceId, volumes, query, today, m, n - 1);
      var shorter := Expected(instanceId, volumes, query, today, n - 1);
      assert Expected(instanceId, volumes, query, today, n)[..n - 1] == shorter;
      assert shorter[..m] == Expected(instanceId, volumes, query, today, n)[..m];
    } else {
      assert Expected(instanceId, volumes, query, today, n)[..n] == Expected(instanceId, volumes, query, today, n);
    }
  }

  /**
   * Volume identifiers matter only through what their snapshot queries
   * return: two invocations whose volumes, position by position, get the same
   * query error or the same flag publish the same notifications and return
   * the same error.
   */
  lemma RunIgnoresVolumeIds(instanceId: string, today: Date, publish: nat -> Option<Error>,
                            v: seq<string>, q: string -> Result<seq<Snapshot>, Error>,
                            w: seq<string>, p: string -> Result<seq<Snapshot>, Error>)
    requires |v| == |w|
    requires forall k :: 0 <= k < |v| ==> q(v[k]).Err? == p(w[k]).Err?
    requires forall k :: 0 <= k < |v| && q(v[k]).Err? ==> q(v[k]).error == p(w[k]).error
    requires forall k :: 0 <= k < |v| && q(v[k]).Ok? ==>
               CompletedToday(q(v[k]).value, today) == CompletedToday(p(w[k]).value, today)
    ensures Run(instanceId, v, q, publish, today) == Run(instanceId, w, p, publish, today)
  {
    var k := FirstFailure(v, q, publish, 0);
    forall j | 0 <= j <= |v| ensures (j < |v| ==> FailsAt(v, q, publish, j) == FailsAt(w, p, publish, j)) {
    }
    FirstFailureIsLeast(w, p, publish, 0, k);
    var a := Expected(instanceId, v, q, today, k);
    var b := Expected(instanceId, w, p, today, k);
    forall j | 0 <= j < k ensures a[j] == b[j] {
      assert !FailsAt(v, q, publish, j);
    }
  }

  /**
   * Two volumes with the same flag get textually identical notifications;
   * in particular every failure notification of one invocation is the same,
   * and each names the instance.
   */
  lemma SameFlagSameNotification(instanceId: string, s: seq<Snapshot>, t: seq<Snapshot>, today: Date)
    requires CompletedToday(s, today) == CompletedToday(t, today)
    ensures NotificationFor(instanceId, s, today) == NotificationFor(instanceId, t, today)
    ensures Parse(NotificationFor(instanceId, s, today)) == Some((CompletedToday(s, today), instanceId))
  {
  }

  /**
   * Instance `i-abc123` with volumes `vol-1` (a snapshot completed today) and
   * `vol-2` (none today): a success notification, then a failure notification,
   * both naming the instance, and no error.
   */
  lemma TwoVolumeExample(query: string -> Result<seq<Snapshot>, Error>, publish: nat -> Option<Error>, today: Date)
    requires query("vol-1") == Ok([Snapshot(today, Completed)])
    requires query("vol-2") == Ok([])
    requires publish(0) == None && publish(1) == None
    ensures Run("i-abc123", ["vol-1", "vol-2"], query, publish, today)
      == Report([Compose(true, "i-abc123"), Compose(false, "i-abc123")], None)
  {
  }

  /**
   * The handler. A failed describe-instance query ends the invocation before
   * anything is published; otherwise the attached volumes are collected and
   * the dispatch loop runs over them.
   */
  method Handle(instanceId: string, describe: Result<seq<BlockDeviceMapping>, Error>,
                query: string -> Result<seq<Snapshot>, Error>, publish: nat -> Option<Error>, today: Date)
    returns (sent: seq<Notification>, err: Option<Error>)
    ensures describe.Err? ==> sent == [] && err == Some(describe.error)
    ensures describe.Ok? ==> Report(sent, err) == Run(instanceId, VolumeIds(describe.value), query, publish, today)
  {
    sent := [];
    if describe.Err? {
      return sent, Some(describe.error);
    }
    var attachedEbs := CollectVolumeIds(describe.value);
    var i := 0;
    while i < |attachedEbs|
      invariant 0 <= i <= |attachedEbs|
      invariant forall j :: 0 <= j < i ==> !FailsAt(attachedEbs, query, publish, j)
      invariant sent == Expected(instanceId, attachedEbs, query, today, i)
    {
      var snapshots := query(attachedEbs[i]);
      if snapshots.Err? {
        FirstFailureIsLeast(attachedEbs, query, publish, 0, i);
        return sent, Some(snapshots.error);
      }
      var completeFlag := ScanSnapshots(snapshots.value, today);
      var notification := Compose(completeFlag, instanceId);
      var outcome := publish(i);
      if outcome.Some? {
        FirstFailureIsLeast(attachedEbs, query, publish, 0, i);
        return sent, outcome;
      }
      sent := sent + [notification];
      i := i + 1;
    }
    FirstFailureIsLeast(attachedEbs, query, publish, 0, i);
    err := None;
  }
}
