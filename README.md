# aws-snapshot-check: the per-invocation snapshot check, modelled in Dafny

The repository is a single Lambda function. Each time it is invoked, it checks
that every EBS volume attached to one EC2 instance has a snapshot that was
started today and has completed. It then publishes one SNS notification per
volume. This project models the decision logic of that handler
(`functions/main/main.go`, the closure passed to `apex.HandleFunc`) and proves
what it does.

- `volumes.dfy` (module `Volumes`) models volume collection. The instance's
  block-device mappings become an ordered list of volume identifiers: one per
  mapping, in mapping order, with no de-duplication.
- `snapshots.dfy` (module `Snapshots`) models the "completed today" flag. It
  is raised when some snapshot of the volume was started on today's day of
  the year and has state exactly `completed`. The year is never compared.
- `messages.dfy` (module `Messages`) models the two notification templates.
  The flag alone picks the template, and the body names the *instance*, never
  the volume. `Parse` reads a notification back and is proved to be the
  inverse of `Compose`.
- `handler.dfy` (module `Handler`) models the handler itself. The loop in
  `Handle` mirrors the Go code. `Run` is its declarative reference: the
  notifications of every volume before the first failing one, plus that
  volume's error (or no error).
- `results.dfy` (module `Results`) holds the `Option`/`Result` values that the
  abstracted cloud calls return.

The cloud calls are parameters of `Handle`:
- `describe` is the outcome of `DescribeInstanceAttribute`: the mappings, or an error.
- `query` maps a volume identifier to the outcome of `DescribeSnapshots`: the snapshot records, or an error.
- `publish(i)` is the outcome of the i-th publish: `None` on success, `Some(e)` on failure.
  Each volume reached with a successful snapshot query gets exactly one publish attempt, and the
  loop stops at the first failed query or publish, so the attempt number is the volume's position.
- `today` is the clock's date.

What the handler published is the returned log `sent`. Its returned error is `err`.

Three facts about the code that the model keeps as they are:
- Only the body interpolates the instance identifier. The subjects are the two
  fixed strings `【SUCCESS】aws snapshot backup` and `【ERROR】aws snapshot backup`
  (main.go:142, 145).
- Nothing rejects an empty `INSTANCE_ID` before `DescribeInstanceAttribute` is
  called (main.go:90-96). The model has no such check either.
- "Created today" is a day-of-year comparison (`YearDay()`, main.go:129-134).
  A completed snapshot from the same day of an earlier year also passes, as
  `CompletedTodayIgnoresYear` shows.

## Model

| member | source | states |
|---|---|---|
| `Volumes.VolumeIds` | functions/main/main.go:103-106 | The collected list has one entry per mapping: the same length, and entry i is mapping i's volume id. So order is kept and duplicates are not removed. |
| `Volumes.VolumeIdsAppend` | functions/main/main.go:103-106 | Collecting the volumes of concatenated mapping lists gives the concatenation of the two collected lists, so collection preserves order. |
| `Volumes.CollectVolumeIds` | functions/main/main.go:103-106 | The append loop produces exactly `VolumeIds` of the mappings. |
| `Snapshots.CompletedToday` | functions/main/main.go:109-137 | The flag holds iff some snapshot has today's day of the year and state exactly `completed`. An empty list gives false. |
| `Snapshots.CompletedTodayMonotone` | functions/main/main.go:109-137 | Once raised on a prefix of the list, the flag stays raised on every longer prefix. |
| `Snapshots.CompletedTodayPermutation` | functions/main/main.go:128-137 | The flag does not depend on the order of the snapshot list: any permutation gives the same flag. |
| `Snapshots.CompletedTodayIgnoresYear` | functions/main/main.go:129-134 | A completed snapshot from today's day of the year in any year, earlier ones included, raises the flag. |
| `Snapshots.ScanSnapshots` | functions/main/main.go:109-137 | The scan loop that starts from false and sets the flag on a passing snapshot computes `CompletedToday`. |
| `Messages.ParseCompose` | functions/main/main.go:139-146 | A composed notification gives back its flag (from the subject) and its instance id (from the body), so the two templates differ and the body holds the instance id. |
| `Messages.ComposeParse` | functions/main/main.go:139-146 | Every notification that parses is exactly what its template composes for that flag and instance. No third shape exists. |
| `Messages.SubjectIgnoresInstance` | functions/main/main.go:142-145 | The subject depends on the flag alone. It is the success subject iff the flag is set. |
| `Handler.FirstFailure` | functions/main/main.go:108-154 | Gives the index of the first volume whose snapshot query or publish fails, or the volume count if none fails. Every volume before it succeeds. |
| `Handler.FirstFailureIsLeast` | functions/main/main.go:108-154 | Any index with no failure before it and a failure (or the end) at it is `FirstFailure`. |
| `Handler.Expected` | functions/main/main.go:139-146 | Gives one notification per volume of the prefix. For a volume whose query succeeded, it is the template chosen by that volume's flag. |
| `Handler.ExpectedPrefix` | functions/main/main.go:108-154 | The notifications for a shorter prefix of the volumes are a prefix of those for a longer one. |
| `Handler.RunSucceeds` | functions/main/main.go:108-155 | With no query or publish failure, the handler returns no error and publishes exactly one notification per volume, in order, chosen by that volume's flag. No volumes means nothing published and success. |
| `Handler.RunFailsAtFirstFailure` | functions/main/main.go:108-152 | If volume k is the first to fail, the handler returns that error: the query's, or else the publish's. Only volumes 0..k-1 were notified, and nothing for k or after. |
| `Handler.RunErrorIffSomeFailure` | functions/main/main.go:108-155 | The handler returns an error iff some volume's query or publish fails. What was published is always a prefix of `Expected` over all volumes, and a strictly shorter one when there is an error. |
| `Handler.RunIgnoresVolumeIds` | functions/main/main.go:112-146 | Volume ids affect the outcome only through their query results. Position-wise equal errors and flags give identical logs and errors. |
| `Handler.SameFlagSameNotification` | functions/main/main.go:140-146 | Two volumes with the same flag get identical (subject, body) pairs, and the body names the instance. |
| `Handler.TwoVolumeExample` | functions/main/main.go:108-155 | Instance `i-abc123`, with `vol-1` completed today and `vol-2` without a snapshot, gets a success notification and then a failure notification, and no error. |
| `Handler.Handle` | functions/main/main.go:96-155 | A failed describe returns its error with nothing published. Otherwise the collection and dispatch loops publish and return exactly `Run` over the collected volumes. |

## Left out

- Loading the `.env` file and creating the SDK session (functions/main/main.go:76-85), `AwsConfig` (lines 20-38) and the global invocation context: this is configuration plumbing. Its early error returns are not modelled.
- `sendMessageBySns` (lines 41-63) is a publish outcome per attempt. The session it creates and the topic address it reads are not modelled.
- The AWS calls are not modelled: `DescribeInstanceAttribute`, `DescribeSnapshots` and `Publish` are network calls. They appear only as the outcomes passed to `Handle`.
- The snapshot query is a function of the volume id, so a volume listed twice gets the same answer both times. A real service could answer differently between the two calls.
- The clock is read once, as `today`, although the code calls `time.Now()` for every snapshot. Midnight passing during a scan, and time zones, are clock effects, not logic.
- Nil pointers (`Ebs.VolumeId`, `State`) are assumed present, so the panics they would cause are not modelled.
- The `apex.HandleFunc` runtime and the JSON event are not modelled: they are the invocation harness. The handler's `(nil, err)` result is `err`.
