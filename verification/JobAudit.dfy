/** The job transition history as an audit log: it replays to the record it belongs to,
    and counting its entries accounts for every claim. */
module JobAudit {
  import opened Common
  import opened QueueJobs

  predicate LogShape(h: seq<Entry>) {
    && |h| > 0
    && h[0].Created?
    && (h[0].status.Queued? || h[0].status.Scheduled?)
    && (forall i :: 0 < i < |h| ==> h[i].Transition?)
  }

  function Front(h: seq<Entry>): (r: seq<Entry>)
    requires |h| > 1
    ensures LogShape(h) ==> LogShape(r)
  {
    h[..|h| - 1]
  }

  function Last(h: seq<Entry>): Entry
    requires |h| > 0
  {
    h[|h| - 1]
  }

  /** A created job's tracked fields: the entry gives status and ready time, the rest is empty. */
  function CreationValue(e: Entry, f: Field): Value
    requires e.Created?
  {
    match f
    case StatusField => StatusValue(e.status)
    case ReadyAtField => TimeValue(Some(e.readyAt))
    case AttemptsField => CountValue(0)
    case ReclaimsField => CountValue(0)
    case WorkerField => WorkerValue(None)
    case ResultField => ResultValue(None)
    case ErrorField => ErrorValue(None)
    case _ => TimeValue(None)
  }

  /** Fold the changed fields over the creation values. */
  function Replayed(h: seq<Entry>, f: Field): Value
    requires LogShape(h)
  {
    if |h| == 1 then CreationValue(h[0], f)
    else if f in Last(h).changed then Last(h).changed[f].becomes
    else Replayed(Front(h), f)
  }

  /** Entry `e` continues the log `h`. */
  ghost predicate Continues(h: seq<Entry>, e: Entry)
    requires LogShape(h) && e.Transition?
  {
    && e.changed != map[]
    && (forall f :: f in e.changed ==> e.changed[f].was == Replayed(h, f) && e.changed[f].was != e.changed[f].becomes)
    && Replayed(h, StatusField) == StatusValue(e.fromStatus)
    && (if StatusField in e.changed then e.changed[StatusField].becomes == StatusValue(e.toStatus)
        else e.toStatus == e.fromStatus)
    && (e.event.ClaimedEvent? <==> e.toStatus.Running? && !e.fromStatus.Running?)
  }

  ghost predicate Chained(h: seq<Entry>)
    requires LogShape(h)
  {
    |h| > 1 ==> Continues(Front(h), Last(h)) && Chained(Front(h))
  }

  ghost predicate Faithful(j: Job) {
    && LogShape(j.history)
    && Chained(j.history)
    && forall f :: Replayed(j.history, f) == Tracked(j, f)
  }

  /** Whatever an update changes, the log stays faithful, and it only grows. */
  lemma UpdateKeepsLog(current: Job, changes: Job, reason: Option<Reason>, now: Time)
    requires Faithful(current)
    ensures var j := Updated(current, changes, reason, now);
            Faithful(j) && current.history <= j.history && |j.history| <= |current.history| + 1
  {
    var j := Updated(current, changes, reason, now);
    var changed := ChangedFields(current, changes);
    if changed == map[] {
      forall f ensures Replayed(j.history, f) == Tracked(j, f) {
        assert f !in changed;
      }
    } else {
      assert Front(j.history) == current.history;
      assert Last(j.history) == TransitionEntry(current, changes, reason, now);
      assert StatusField in changed <==> current.status != changes.status;
      forall f ensures Replayed(j.history, f) == Tracked(j, f) {
        assert f in changed <==> Tracked(current, f) != Tracked(changes, f);
      }
    }
  }

  /** The chain, read entry by entry: each `from` is the value the log before it replays to. */
  lemma {:induction false} ChainAt(h: seq<Entry>, i: nat, f: Field)
    requires LogShape(h) && Chained(h) && 0 < i < |h| && f in h[i].changed
    ensures LogShape(h[..i]) && LogShape(h[..i + 1])
    ensures h[i].changed[f].was == Replayed(h[..i], f)
    ensures h[i].changed[f].becomes == Replayed(h[..i + 1], f) != Replayed(h[..i], f)
  {
    if i == |h| - 1 {
      assert h[..i] == Front(h) && h[..i + 1] == h;
    } else {
      ChainAt(Front(h), i, f);
      assert Front(h)[..i] == h[..i] && Front(h)[..i + 1] == h[..i + 1] && Front(h)[i] == h[i];
    }
  }

  // ---------- counting ----------

  function Claims(h: seq<Entry>): nat {
    if |h| <= 1 then 0
    else Claims(Front(h)) + (if Last(h).Transition? && Last(h).event.ClaimedEvent? then 1 else 0)
  }

  /** Entries that take the job out of running. */
  function Exits(h: seq<Entry>): nat {
    if |h| <= 1 then 0
    else Exits(Front(h)) +
         (if Last(h).Transition? && Last(h).fromStatus.Running? && !Last(h).toStatus.Running? then 1 else 0)
  }

  predicate CanceledWhileRunning(h: seq<Entry>) {
    |h| > 1 &&
    ((Last(h).Transition? && Last(h).event.CanceledEvent? && Last(h).fromStatus.Running?)
     || CanceledWhileRunning(Front(h)))
  }

  predicate NeverRescheduled(h: seq<Entry>) {
    |h| > 1 ==> (Last(h).Transition? ==> Last(h).reason != Some(OperatorReschedule)) && NeverRescheduled(Front(h))
  }

  /** ready_at as it was at creation or after the last operator reschedule. */
  function Origin(h: seq<Entry>): Time
    requires LogShape(h)
  {
    if |h| > 1 && Last(h).reason != Some(OperatorReschedule) then Origin(Front(h))
    else match Replayed(h, ReadyAtField)
      case TimeValue(Some(t)) => t
      case _ => 0
  }

  /** In any chained log, claims exceed exits by one exactly while the job is running. */
  lemma {:induction false} ClaimsBalanceExits(h: seq<Entry>)
    requires LogShape(h) && Chained(h)
    ensures Claims(h) == Exits(h) + if Replayed(h, StatusField) == StatusValue(Running) then 1 else 0
  {
    if |h| > 1 {
      ClaimsBalanceExits(Front(h));
    }
  }

  lemma RunningMeansOneOpenClaim(j: Job)
    requires Faithful(j)
    ensures Claims(j.history) - Exits(j.history) == if j.status.Running? then 1 else 0
  {
    ClaimsBalanceExits(j.history);
    assert Replayed(j.history, StatusField) == Tracked(j, StatusField);
  }

  /** What one update adds to each count. */
  lemma UpdateCounts(current: Job, changes: Job, reason: Option<Reason>, now: Time)
    requires Faithful(current)
    ensures var j := Updated(current, changes, reason, now);
            var logged := LoggedReason(reason, changes);
            && Faithful(j)
            && Claims(j.history) == Claims(current.history)
                 + (if changes.status.Running? && !current.status.Running? then 1 else 0)
            && (CanceledWhileRunning(j.history) <==>
                CanceledWhileRunning(current.history) || (changes.status.Canceled? && current.status.Running?))
            && (if ChangedFields(current, changes) == map[] then j.history == current.history
                else if logged == Some(OperatorReschedule) then
                  !NeverRescheduled(j.history) && Origin(j.history) == j.readyAt
                else NeverRescheduled(j.history) == NeverRescheduled(current.history)
                     && Origin(j.history) == Origin(current.history))
  {
    UpdateKeepsLog(current, changes, reason, now);
    var j := Updated(current, changes, reason, now);
    if ChangedFields(current, changes) == map[] {
      assert StatusField !in ChangedFields(current, changes);
    } else {
      assert Front(j.history) == current.history;
      assert Last(j.history) == TransitionEntry(current, changes, reason, now);
      assert Replayed(j.history, ReadyAtField) == Tracked(j, ReadyAtField);
    }
  }
}
