/** What the continuity of a session says in its own fields: when which advice is given, what a compaction and a
    carry-forward summary record, and what their lines read. */
module ContinuityLaws {
  import opened Common
  import opened Text
  import opened BoundedText
  import opened Continuity

  // ---------- what is counted ----------

  function PlacesOutside(messages: seq<Message>, ids: seq<MessageId>): set<nat> {
    set i: nat | i < |messages| && messages[i].id !in ids
  }

  function PlacesOf(messages: seq<Message>, role: string): set<nat> {
    set i: nat | i < |messages| && messages[i].role == role
  }

  lemma {:induction false} OutsideCounts(messages: seq<Message>, ids: seq<MessageId>)
    ensures |Outside(messages, ids)| == |PlacesOutside(messages, ids)|
  {
    if messages != [] {
      var n := |messages| - 1;
      var front, here := messages[..n], messages[n].id !in ids;
      OutsideCounts(front, ids);
      var last: set<nat> := if here then {n} else {};
      assert PlacesOutside(messages, ids) == PlacesOutside(front, ids) + last;
      assert n !in PlacesOutside(front, ids);
    }
  }

  lemma {:induction false} RolesCount(messages: seq<Message>, role: string)
    ensures CountRole(messages, role) == |PlacesOf(messages, role)|
  {
    if messages != [] {
      var n := |messages| - 1;
      var front := messages[..n];
      RolesCount(front, role);
      var last: set<nat> := if messages[n].role == role then {n} else {};
      assert PlacesOf(messages, role) == PlacesOf(front, role) + last;
      assert n !in PlacesOf(front, role);
    }
  }

  /** The first compaction with the id on record. */
  predicate Named(c: Continuity, i: nat) {
    && i < |c.compactions| && c.activeId == Some(c.compactions[i].id)
    && forall k :: 0 <= k < i ==> c.activeId != Some(c.compactions[k].id)
  }

  /** The compaction in use: the first with the id on record, else the newest; there is none only if none is stored. */
  lemma ActiveLaw(c: Continuity)
    ensures Active(c).None? <==> c.compactions == []
    ensures c.compactions != []
            && (forall i :: 0 <= i < |c.compactions| ==> c.activeId != Some(c.compactions[i].id)) ==>
              Active(c) == Some(c.compactions[0])
  {
    hide WithId;
    if c.activeId.Some? && (forall i :: 0 <= i < |c.compactions| ==> c.compactions[i].id != c.activeId.value) {
      NoneWithId(c.compactions, c.activeId.value);
    }
    if c.compactions == [] && c.activeId.Some? { NoneWithId([], c.activeId.value); }
  }

  lemma NamedIsActive(c: Continuity, i: nat)
    requires Named(c, i)
    ensures Active(c) == Some(c.compactions[i])
  {
    FirstWithId(c.compactions, c.activeId.value, i);
  }

  lemma {:induction false} NoneWithId(compactions: seq<Compaction>, id: CompactionId)
    requires forall i :: 0 <= i < |compactions| ==> compactions[i].id != id
    ensures WithId(compactions, id).None?
  {
    if compactions != [] { NoneWithId(compactions[1..], id); }
  }

  lemma {:induction false} FirstWithId(compactions: seq<Compaction>, id: CompactionId, i: nat)
    requires i < |compactions| && compactions[i].id == id && forall k :: 0 <= k < i ==> compactions[k].id != id
    ensures WithId(compactions, id) == Some(compactions[i])
  {
    if i > 0 { FirstWithId(compactions[1..], id, i - 1); }
  }

  // ---------- the advice ----------

  /** The advice: to compact, more than twelve messages of which none was ever compacted; to compact again, more than
      eight messages that the compaction in use does not cover; to refresh, a compaction without a summary; to watch, a
      summary that is full in its messages, its memories or its characters; else nothing. */
  lemma AdviceLaw(v: View)
    ensures var c, advice := v.continuity, Recommendation(v);
            if c.compactions == [] then
              advice == (if |v.messages| > 12 then CompactNow
                         else if Full(c.summary) then MonitorBudget else WithinBudget)
            else
              && Active(c).Some?
              && advice == (if |PlacesOutside(v.messages, Active(c).value.compacted)| > 8 then RecompactNow
                            else if c.summary.None? then RefreshSummary
                            else if Full(c.summary) then MonitorBudget else WithinBudget)
  {
    hide Active;
    ActiveLaw(v.continuity);
    if Active(v.continuity).Some? { OutsideCounts(v.messages, Active(v.continuity).value.compacted); }
  }

  predicate Full(summary: Option<Summary>) {
    summary.Some? && (|summary.value.recent| >= 4 || |summary.value.memories| >= 4 || |summary.value.text| >= 900)
  }

  // ---------- lists of names ----------

  /** Names are kept in the order in which they first occur: what follows only adds to them. */
  lemma {:induction false} UniqueStringsGrow(values: seq<Option<string>>, n: nat)
    requires n <= |values|
    ensures UniqueStrings(values[..n]) <= UniqueStrings(values)
  {
    if n < |values| {
      var front := values[..|values| - 1];
      UniqueStringsGrow(front, n);
      assert front[..n] == values[..n];
    } else {
      assert values[..n] == values;
    }
  }

  // ---------- a compaction ----------

  /** Compacting needs positive settings and more messages than are kept. It folds all but the last `keep` messages:
      how many, by whom, their ids and those kept, the memories at hand, and the workflows of the folded messages and
      of the memories; unless the compaction in use has the same messages and memories. */
  lemma CompactionLaw(v: View, s: Settings, recalled: Recalled, id: CompactionId, now: Time)
    ensures var r := Outcome(v, s, recalled, id, now);
            if s.keep <= 0 || s.memoryLimit <= 0 || s.maxSummaryChars <= 0 then r == Refused
            else if |v.messages| <= s.keep then r == NotEnoughMessages
            else
              var n := |v.messages| - s.keep;
              var older, newer := v.messages[..n], v.messages[n..];
              var memories := UniqueStrings(Present(MemoryIds(recalled.recent))
                                            + Present(MemoryIds(recalled.ofWorkflows)));
              if v.continuity.compactions != [] && Active(v.continuity).Some?
                 && Active(v.continuity).value.compacted == IdsOf(older)
                 && Active(v.continuity).value.retained == IdsOf(newer)
                 && Active(v.continuity).value.memories == memories
              then r == AlreadyCompacted
              else
                && r.Compacted?
                && var c := r.compaction;
                   c == Compaction(id, now, BoundedLines(WindowLines(older), s.maxSummaryChars), n,
                                   |PlacesOf(older, "user")|, |PlacesOf(older, "assistant")|,
                                   |PlacesOf(older, "system")|,
                                   IdsOf(older), IdsOf(newer), memories,
                                   UniqueStrings(WorkflowsOfMessages(older) + WorkflowsOfMemories(recalled.recent)
                                                 + WorkflowsOfMemories(recalled.ofWorkflows)))
  {
    hide BoundedLines, WindowLines, UniqueStrings, Active, CountRole;
    ActiveLaw(v.continuity);
    if s.Valid() && |v.messages| > s.keep {
      var older := v.messages[..|v.messages| - s.keep];
      RolesCount(older, "user");
      RolesCount(older, "assistant");
      RolesCount(older, "system");
    }
  }

  /** After a compaction it comes first among the stored ones, of which the newest five are kept, and it is in use;
      messages and all else of the session stay. */
  lemma CompactedLaw(v: View, s: Settings, recalled: Recalled, carried: Recalled, id: CompactionId, now: Time)
    ensures var w := Compact(v, s, recalled, carried, id, now);
            match Outcome(v, s, recalled, id, now)
            case Compacted(c) =>
              && w == v.(continuity := w.continuity)
              && w.continuity.activeId == Some(c.id) && w.continuity.updatedAt == Some(now)
              && w.continuity.compactions == ([c] + v.continuity.compactions)[..Min(5, |v.continuity.compactions| + 1)]
              && w.continuity.summary.Some?
            case _ => w == v
  {
    hide BoundedLines, WindowLines, UniqueStrings, SummaryLines, SelectFrom, NewCompaction, SaysTheSame;
  }

  // ---------- the carry-forward summary ----------

  /** A summary is based on the compaction in use and carries the last four messages, the first four memories at hand,
      and the workflows of the session, of the compaction, and of what it carries. */
  lemma SummaryLaw(v: View, recalled: Recalled, now: Time)
    ensures var w := Refreshed(v, recalled, now);
            && w == v.(continuity := w.continuity) && w.continuity.compactions == v.continuity.compactions
            && match Active(v.continuity)
               case None => w.continuity.summary.None? && w.continuity.updatedAt == v.continuity.updatedAt
                            && w.continuity.activeId == v.continuity.activeId
               case Some(active) =>
                 && w.continuity.activeId == Some(active.id) && w.continuity.updatedAt == Some(now)
                 && w.continuity.summary.Some?
                 && var x := w.continuity.summary.value;
                    var recent := if |v.messages| <= 4 then v.messages else v.messages[|v.messages| - 4..];
                    var memories := SelectFrom(recalled.recent + recalled.ofWorkflows, [], 4);
                    && x.basedOn == active.id && x.updatedAt == now
                    && x.recent == IdsOf(recent) && x.memories == MemoryIds(memories)
                    && (forall name :: name in x.workflows <==>
                          name != "" && Names([v.workflow] + Present(active.workflows) + WorkflowsOfMessages(recent)
                                              + WorkflowsOfMemories(memories), name))
                    && x.text == BoundedLines(SummaryLines(v, active, recent, memories, 900), 900)
  {
    hide BoundedLines, UniqueStrings, SummaryLines, SelectFrom, Active, Names;
    if Active(v.continuity).Some? {
      var active := Active(v.continuity).value;
      var recent := LastOf(v.messages, RECENT_LIMIT);
      var memories := SelectFrom(recalled.recent + recalled.ofWorkflows, [], MEMORY_LIMIT);
      UniqueStringsHold([v.workflow] + Present(active.workflows) + WorkflowsOfMessages(recent)
                        + WorkflowsOfMemories(memories));
    }
  }

  // ---------- what the lines read ----------

  function DigitValue(c: char): int { c as int - '0' as int }

  /** What a decimal number says. */
  function ReadBack(s: string): int { if s == "" then 0 else ReadBack(s[..|s| - 1]) * 10 + DigitValue(s[|s| - 1]) }

  lemma DigitReads(n: nat)
    requires n < 10
    ensures DigitValue("0123456789"[n]) == n
  {
    assert n == 0 || n == 1 || n == 2 || n == 3 || n == 4 || n == 5 || n == 6 || n == 7 || n == 8 || n == 9;
  }

  /** Numbers are written so that they read back. */
  lemma {:induction false} DecimalReadsBack(n: nat)
    ensures ReadBack(Decimal(n)) == n
  {
    DigitReads(n % 10);
    var s := Decimal(n);
    if n < 10 {
      assert s[..0] == "";
    } else {
      DecimalReadsBack(n / 10);
      assert s[..|s| - 1] == Decimal(n / 10);
    }
  }

  /** Too long a text is cut to leave room for dots, and white space in front of the dots goes too, no more. */
  lemma TruncateLaw(text: string, limit: nat) returns (k: nat)
    requires 3 <= limit < |text|
    ensures k <= limit - 3 && TruncateText(text, limit) == text[..k] + "..."
    ensures (forall p :: k <= p < limit - 3 ==> IsSpace(text[p])) && (k > 0 ==> !IsSpace(text[k - 1]))
  {
    hide StripRight;
    var front := text[..limit - 3];
    k := StrippedLength(front);
    assert front[..k] == text[..k];
    assert forall p :: 0 <= p < |front| ==> front[p] == text[p];
  }

  lemma {:induction false} StrippedLength(s: string) returns (k: nat)
    ensures k <= |s| && StripRight(s) == s[..k]
    ensures (forall p :: k <= p < |s| ==> IsSpace(s[p])) && (k > 0 ==> !IsSpace(s[k - 1]))
  {
    if s != [] && IsSpace(s[|s| - 1]) {
      k := StrippedLength(s[..|s| - 1]);
      assert s[..|s| - 1][..k] == s[..k];
    } else {
      k := |s|;
      assert s[..k] == s;
    }
  }

  /** A compaction reads: how many messages there were, from when to when and by whom, then each of them. */
  lemma WindowLaw(messages: seq<Message>)
    requires messages != []
    ensures var lines, n := WindowLines(messages), |messages|;
            && |lines| == n + 1
            && lines[0] == "Compacted " + Decimal(n) + " earlier messages spanning " + messages[0].createdAt + " to "
                           + messages[n - 1].createdAt + ". Roles: user=" + Decimal(|PlacesOf(messages, "user")|)
                           + ", assistant=" + Decimal(|PlacesOf(messages, "assistant")|)
                           + ", system=" + Decimal(|PlacesOf(messages, "system")|) + "."
            && forall i :: 0 <= i < n ==> lines[i + 1] == Preview(messages[i], 96)
  {
    hide CountRole, Preview, Decimal;
    RolesCount(messages, "user");
    RolesCount(messages, "assistant");
    RolesCount(messages, "system");
  }

  /** Every message carried, every memory at hand and the text of the compaction have their line in the summary, the
      messages cut at 84 characters, the memories at 92, the compaction at 480 or half the limit. */
  lemma SummaryLinesLaw(v: View, active: Compaction, recent: seq<Message>, memories: seq<MemoryRef>, maxChars: nat)
    ensures var lines := SummaryLines(v, active, recent, memories, maxChars);
            && (forall m :: m in recent ==> Preview(m, 84) in lines)
            && (forall x :: x in memories ==>
                  "- [" + x.id + "] " + (if x.summary.Some? && TruncateText(x.summary.value, 92) != ""
                                         then TruncateText(x.summary.value, 92) else "memory") in lines)
            && (var cut := TruncateText(active.summary, if maxChars / 2 < 480 then maxChars / 2 else 480);
                cut != "" ==> cut in lines)
            && |lines| >= 2 && lines[0] == "Carry-forward summary for this session."
            && lines[1] == "Session status: " + v.status + ". Current workflow: "
                           + (if v.workflow.Some? && v.workflow.value != "" then v.workflow.value else "none")
                           + ". Memory scope: " + v.scopeKind
                           + (if v.scopeValue.Some? && v.scopeValue.value != "" then ":" + v.scopeValue.value else "")
                           + "."
  {
    hide Preview, TruncateText;
    LinesOfMessages(recent);
    LinesOfMemories(memories);
    var scope := v.scopeValue;
    if scope.Some? && scope.value != "" {
      assert v.scopeKind + ":" + scope.value == v.scopeKind + (":" + scope.value);
    } else {
      assert v.scopeKind + "" == v.scopeKind;
    }
  }

  lemma LinesOfMessages(messages: seq<Message>)
    ensures forall m :: m in messages ==> Preview(m, 84) in Previews(messages, 84)
  {
    hide Preview;
    forall m | m in messages ensures Preview(m, 84) in Previews(messages, 84) {
      var i :| 0 <= i < |messages| && messages[i] == m;
      assert Previews(messages, 84)[i] == Preview(m, 84);
    }
  }

  lemma LinesOfMemories(memories: seq<MemoryRef>)
    ensures forall x :: x in memories ==>
              "- [" + x.id + "] " + (if x.summary.Some? && TruncateText(x.summary.value, 92) != ""
                                     then TruncateText(x.summary.value, 92) else "memory") in MemoryLines(memories)
  {
    hide TruncateText;
    forall x | x in memories
      ensures "- [" + x.id + "] " + (if x.summary.Some? && TruncateText(x.summary.value, 92) != ""
                                     then TruncateText(x.summary.value, 92) else "memory") in MemoryLines(memories)
    {
      var i :| 0 <= i < |memories| && memories[i] == x;
      assert MemoryLines(memories)[i]
          == "- [" + x.id + "] " + (if x.summary.Some? && TruncateText(x.summary.value, 92) != ""
                                    then TruncateText(x.summary.value, 92) else "memory");
    }
  }

  /** An exchange adds its two messages and what it says about the session; the summary is made anew unless the run
      raised. */
  lemma AppendedLaw(v: View, e: Exchange)
    ensures var w := Appended(v, e);
            && w == View(e.status, e.workflow, v.scopeKind, v.scopeValue, v.messages + [e.user, e.reply], w.continuity)
            && w.continuity == (if e.raised then v.continuity
                                else Refreshed(w.(continuity := v.continuity), e.recalled, e.now).continuity)
  {
    hide BuildSummary;
  }

  /** A message reads as who wrote it, with the status if it is not completed, and what, with the status for a blank
      text. */
  lemma PreviewLaw(m: Message, limit: nat)
    ensures var said := if m.content.Some? && Strip(m.content.value) != "" then Strip(m.content.value)
                        else "[" + m.status + "]";
            var cut := TruncateText(said, limit);
            Preview(m, limit) == "- " + (if m.status == "completed" then m.role else m.role + " (" + m.status + ")")
                                 + ": " + (if cut == "" then "[" + m.status + "]" else cut)
  {
    hide TruncateText, Strip;
  }
}
