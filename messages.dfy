/**
 * The two notification templates. Which one is used depends only on the
 * volume's flag; the instance identifier (never the volume identifier) is
 * written into the body. The subject is a fixed string per template.
 */
module Messages {
  import opened Results

  /** One message published to the notification topic. */
  datatype Notification = Notification(subject: string, body: string)

  const SuccessSubject := "【SUCCESS】aws snapshot backup"
  const ErrorSubject := "【ERROR】aws snapshot backup"
  const BodyPrefix := "Creating the snapshot of "
  const SuccessSuffix := " was successed."
  const FailureSuffix := " was failed."

  /** The end of the body for a flag. */
  function Suffix(completed: bool): string
  {
    if completed then SuccessSuffix else FailureSuffix
  }

  /** The notification sent for a volume whose flag is `completed`, on instance `instanceId`. */
  function Compose(completed: bool, instanceId: string): Notification
  {
    Notification(if completed then SuccessSubject else ErrorSubject,
                 BodyPrefix + instanceId + Suffix(completed))
  }

  /**
   * Reads a notification back: the flag from its subject, and the instance
   * identifier from between the fixed start and end of its body. `None` for
   * anything no template produces.
   */
  function Parse(n: Notification): Option<(bool, string)>
  {
    if n.subject != SuccessSubject && n.subject != ErrorSubject then None
    else
      var completed := n.subject == SuccessSubject;
      var suffix := Suffix(completed);
      if |n.body| < |BodyPrefix| + |suffix| then None
      else if n.body[..|BodyPrefix|] != BodyPrefix then None
      else if n.body[|n.body| - |suffix|..] != suffix then None
      else Some((completed, n.body[|BodyPrefix|..|n.body| - |suffix|]))
  }

  /** A composed notification determines both the flag and the instance identifier. */
  lemma ParseCompose(completed: bool, instanceId: string)
    ensures Parse(Compose(completed, instanceId)) == Some((completed, instanceId))
  {
  }

  /** Every notification that parses is the one its template composes: the two templates are all there is. */
  lemma ComposeParse(n: Notification, completed: bool, instanceId: string)
    requires Parse(n) == Some((completed, instanceId))
    ensures Compose(completed, instanceId) == n
  {
  }

  /** The subject does not mention the instance: it depends on the flag alone. */
  lemma SubjectIgnoresInstance(completed: bool, a: string, b: string)
    ensures Compose(completed, a).subject == Compose(completed, b).subject
    ensures Compose(completed, a).subject == SuccessSubject <==> completed
  {
  }
}
