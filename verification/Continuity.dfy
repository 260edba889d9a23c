/** Session continuity in runtime/session.py: folding the older messages of a session into a compaction,
    and the budget that says when to do so. */
module Continuity {
  import opened Common
  import opened Text
  import opened BoundedText

  type Time = int
  type MessageId = nat
  type CompactionId = nat

  datatype Message = Message(id: MessageId, role: string, content: Option<string>, status: string, createdAt: string,
                             workflow: Option<string>)

  /** What the memory store says about a memory. */
  datatype MemoryRef = MemoryRef(id: string, workflow: Option<string>, summary: Option<string>)

  /** The memories of the session's scope and those of its workflows, each list cut at a limit. */
  datatype Recalled = Recalled(recent: seq<MemoryRef>, ofWorkflows: seq<MemoryRef>)

  datatype Compaction = Compaction(
    id: CompactionId, createdAt: Time, summary: string, count: nat, users: nat, assistants: nat, systems: nat,
    compacted: seq<MessageId>, retained: seq<MessageId>, memories: seq<string>, workflows: seq<string>)

  datatype Summary = Summary(
    basedOn: CompactionId, updatedAt: Time, text: string, recent: seq<MessageId>, memories: seq<string>,
        workflows: seq<string>)

  datatype Continuity = Continuity(
    compactions: seq<Compaction>, activeId: Option<CompactionId>, summary: Option<Summary>, updatedAt: Option<Time>)

  datatype View = View(
    status: string, workflow: Option<string>, scopeKind: string, scopeValue: Option<string>,
    messages: seq<Message>, continuity: Continuity)

  const MAX_STORED := 5
  const RECENT_LIMIT := 4
  const MEMORY_LIMIT := 4
  const MAX_SUMMARY_CHARS := 900
  const MAX_UNCOMPACTED := 8
  const MAX_BEFORE_COMPACTION := 12

  const NO_CONTINUITY := Continuity([], None, None, None)

  // ---------- reading the continuity ----------

  function IdsOf(messages: seq<Message>): seq<MessageId> {
    seq(|messages|, i requires 0 <= i < |messages| => messages[i].id)
  }

  function WithId(compactions: seq<Compaction>, id: CompactionId): Option<Compaction> {
    if compactions == [] then None
    else if compactions[0].id == id then Some(compactions[0]) else WithId(compactions[1..], id)
  }

  /** continuity_metadata: the compaction with the active id, else the newest one. */
  function Active(c: Continuity): Option<Compaction> {
    var named := if c.activeId.Some? then WithId(c.compactions, c.activeId.value) else None;
    if named.Some? then named else if c.compactions != [] then Some(c.compactions[0]) else None
  }

  /** The messages whose ids are not among `ids`, in their order. */
  function Outside(messages: seq<Message>, ids: seq<MessageId>): seq<Message> {
    if messages == [] then []
    else
      var front := Outside(messages[..|messages| - 1], ids);
      var last := messages[|messages| - 1];
      if last.id in ids then front else front + [last]
  }

  function Uncompacted(v: View): seq<Message> {
    match Active(v.continuity) case None => v.messages case Some(c) => Outside(v.messages, c.compacted)
  }

  function SinceCompaction(v: View): seq<Message> {
    match Active(v.continuity) case None => v.messages case Some(c) => Outside(v.messages, c.compacted + c.retained)
  }

  datatype Advice = WithinBudget | CompactNow | RecompactNow | RefreshSummary | MonitorBudget

  /** The recommendation of session_continuity_budget. */
  function Recommendation(v: View): Advice {
    var active, summary := Active(v.continuity), v.continuity.summary;
    if active.None? && |v.messages| > MAX_BEFORE_COMPACTION then CompactNow
    else if active.Some? && |Uncompacted(v)| > MAX_UNCOMPACTED then RecompactNow
    else if summary.None? && active.Some? then RefreshSummary
    else if summary.Some? && (|summary.value.recent| >= RECENT_LIMIT || |summary.value.memories| >= MEMORY_LIMIT
                              || |summary.value.text| >= MAX_SUMMARY_CHARS) then MonitorBudget
    else WithinBudget
  }

  // ---------- the texts ----------

  /** unique_strings: strip, drop what is absent or blank, keep the first of each. */
  function UniqueStrings(values: seq<Option<string>>): seq<string> {
    if values == [] then []
    else
      var front, last := UniqueStrings(values[..|values| - 1]), values[|values| - 1];
      if last.None? || Strip(last.value) == "" || Strip(last.value) in front then front else front + [Strip(last.value)]
  }

  predicate Names(values: seq<Option<string>>, name: string) {
    exists i :: 0 <= i < |values| && values[i].Some? && Strip(values[i].value) == name
  }

  /** Every stripped name that is not blank, once. */
  lemma {:induction false} UniqueStringsHold(values: seq<Option<string>>)
    ensures Distinct(UniqueStrings(values))
    ensures forall name :: name in UniqueStrings(values) <==> name != "" && Names(values, name)
  {
    if values != [] {
      var n := |values| - 1;
      UniqueStringsHold(values[..n]);
      forall name ensures Names(values, name) <==>
            Names(values[..n], name) || (values[n].Some? && Strip(values[n].value) == name) {
        if Names(values[..n], name) {
          var i :| 0 <= i < n && values[..n][i].Some? && Strip(values[..n][i].value) == name;
          assert values[i].Some?;
        }
        if Names(values, name) {
          var i :| 0 <= i < |values| && values[i].Some? && Strip(values[i].value) == name;
          assert i < n ==> values[..n][i].Some?;
        }
      }
    }
  }

  function Decimal(n: nat): string {
    if n < 10 then ["0123456789"[n]] else Decimal(n / 10) + ["0123456789"[n % 10]]
  }

  function CountRole(messages: seq<Message>, role: string): nat {
    if messages == [] then 0
    else CountRole(messages[..|messages| - 1], role) + (if messages[|messages| - 1].role == role then 1 else 0)
  }

  function InBrackets(status: string): string { "[" + status + "]" }

  /** message_preview_for_summary */
  function Preview(m: Message, limit: nat): string {
    var content := if m.content.None? || Strip(m.content.value) == "" then InBrackets(m.status)
                   else Strip(m.content.value);
    var cut := TruncateText(content, limit);
    var caption := if m.status == "completed" then m.role else m.role + " (" + m.status + ")";
    "- " + caption + ": " + (if cut != "" then cut else InBrackets(m.status))
  }

  function Previews(messages: seq<Message>, limit: nat): seq<string> {
    seq(|messages|, i requires 0 <= i < |messages| => Preview(messages[i], limit))
  }

  /** The lines of summarize_message_window. */
  function WindowLines(messages: seq<Message>): seq<string>
    requires messages != []
  {
    ["Compacted " + Decimal(|messages|) + " earlier messages spanning " + messages[0].createdAt + " to "
     + messages[|messages| - 1].createdAt + ". Roles: user=" + Decimal(CountRole(messages, "user"))
     + ", assistant=" + Decimal(CountRole(messages, "assistant"))
     + ", system=" + Decimal(CountRole(messages, "system")) + "."]
    + Previews(messages, 96)
  }

  function LastOf(messages: seq<Message>, n: nat): seq<Message> {
    if |messages| <= n then messages else messages[|messages| - n..]
  }

  /** select_continuity_memories, given what it has selected so far. */
  function SelectFrom(refs: seq<MemoryRef>, selected: seq<MemoryRef>, limit: nat): seq<MemoryRef> {
    if refs == [] then selected
    else if Strip(refs[0].id) == "" || refs[0].id in MemoryIds(selected) then SelectFrom(refs[1..], selected, limit)
    else if |selected| + 1 >= limit then selected + [refs[0]]
    else SelectFrom(refs[1..], selected + [refs[0]], limit)
  }

  function MemoryIds(refs: seq<MemoryRef>): seq<string> { seq(|refs|, i requires 0 <= i < |refs| => refs[i].id) }

  function WorkflowsOfMessages(messages: seq<Message>): seq<Option<string>> {
    seq(|messages|, i requires 0 <= i < |messages| => messages[i].workflow)
  }

  function WorkflowsOfMemories(refs: seq<MemoryRef>): seq<Option<string>> {
    seq(|refs|, i requires 0 <= i < |refs| => refs[i].workflow)
  }

  function Present(names: seq<string>): seq<Option<string>> {
    seq(|names|, i requires 0 <= i < |names| => Some(names[i]))
  }

  function MemoryLines(refs: seq<MemoryRef>): seq<string> {
    seq(|refs|, i requires 0 <= i < |refs| =>
      var cut := if refs[i].summary.Some? then TruncateText(refs[i].summary.value, 92) else "";
      "- [" + refs[i].id + "] " + (if cut != "" then cut else "memory"))
  }

  function OrNone(value: Option<string>): string { if value.Some? && value.value != "" then value.value else "none" }

  function ScopeText(v: View): string {
    if v.scopeValue.Some? && v.scopeValue.value != "" then v.scopeKind + ":" + v.scopeValue.value else v.scopeKind
  }

  /** The lines of build_session_continuity_summary. */
  function SummaryLines(v: View, active: Compaction, recent: seq<Message>, memories: seq<MemoryRef>,
                        maxChars: nat): seq<string> {
    var earlier := TruncateText(active.summary, Min(maxChars / 2, 480));
    ["Carry-forward summary for this session.",
     "Session status: " + v.status + ". Current workflow: " + OrNone(v.workflow)
     + ". Memory scope: " + ScopeText(v) + "."]
    + (if earlier != "" then ["Earlier compacted context:", earlier] else [])
    + (if recent != [] then ["Recent message tail:"] + Previews(recent, 84) else [])
    + (if memories != [] then ["Relevant continuity memories:"] + MemoryLines(memories) else [])
  }

  /** build_session_continuity_summary, with no message excluded. */
  function BuildSummary(v: View, recalled: Recalled, now: Time): Option<Summary> {
    match Active(v.continuity)
    case None => None
    case Some(active) =>
      var recent := LastOf(v.messages, RECENT_LIMIT);
      var memories := SelectFrom(recalled.recent + recalled.ofWorkflows, [], MEMORY_LIMIT);
      var workflows := UniqueStrings([v.workflow] + Present(active.workflows) + WorkflowsOfMessages(recent)
                                     + WorkflowsOfMemories(memories));
      Some(Summary(active.id, now,
                   BoundedLines(SummaryLines(v, active, recent, memories, MAX_SUMMARY_CHARS), MAX_SUMMARY_CHARS),
                   IdsOf(recent), MemoryIds(memories), workflows))
  }

  /** refresh_session_continuity_summary */
  function Refreshed(v: View, recalled: Recalled, now: Time): View {
    var c := Continuity(v.continuity.compactions, ActiveId(v.continuity), None, v.continuity.updatedAt);
    match BuildSummary(v, recalled, now)
    case None => v.(continuity := c)
    case Some(summary) => v.(continuity := c.(summary := Some(summary), updatedAt := Some(now)))
  }

  /** The id continuity_metadata reports: that of the compaction found, else the stored one. */
  function ActiveId(c: Continuity): Option<CompactionId> {
    match Active(c) case None => c.activeId case Some(active) => Some(active.id)
  }

  // ---------- compaction ----------

  datatype Settings = Settings(keep: int, memoryLimit: int, maxSummaryChars: int) {
    predicate Valid() { keep > 0 && memoryLimit > 0 && maxSummaryChars > 0 }
  }

  datatype Result = Refused | NotEnoughMessages | AlreadyCompacted | Compacted(compaction: Compaction)

  function SourceMemories(recalled: Recalled): seq<string> {
    UniqueStrings(Present(MemoryIds(recalled.recent)) + Present(MemoryIds(recalled.ofWorkflows)))
  }

  function NewCompaction(v: View, s: Settings, recalled: Recalled, id: CompactionId, now: Time): Compaction
    requires s.Valid() && |v.messages| > s.keep
  {
    var n := |v.messages| - s.keep;
    var older, newer := v.messages[..n], v.messages[n..];
    Compaction(
      id, now, BoundedLines(WindowLines(older), s.maxSummaryChars), n,
      CountRole(older, "user"), CountRole(older, "assistant"), CountRole(older, "system"),
      IdsOf(older), IdsOf(newer), SourceMemories(recalled),
      UniqueStrings(WorkflowsOfMessages(older) + WorkflowsOfMemories(recalled.recent)
                    + WorkflowsOfMemories(recalled.ofWorkflows)))
  }

  /** The active compaction already says what a new one would. */
  predicate SaysTheSame(v: View, c: Compaction) {
    var active := Active(v.continuity);
    && active.Some?
    && active.value.compacted == c.compacted && active.value.retained == c.retained
    && active.value.memories == c.memories
  }

  function Outcome(v: View, s: Settings, recalled: Recalled, id: CompactionId, now: Time): Result {
    if !s.Valid() then Refused
    else if |v.messages| <= s.keep then NotEnoughMessages
    else
      var c := NewCompaction(v, s, recalled, id, now);
      if SaysTheSame(v, c) then AlreadyCompacted else Compacted(c)
  }

  /** The session after compact_session_continuity. `recalled` is what the memory store lists under the
      caller's limit, `carried` what it lists under the limit of the carry-forward summary. */
  function Compact(v: View, s: Settings, recalled: Recalled, carried: Recalled, id: CompactionId, now: Time): View {
    match Outcome(v, s, recalled, id, now)
    case Compacted(c) =>
      var stored := [c] + v.continuity.compactions;
      Refreshed(v.(continuity := Continuity(if |stored| > MAX_STORED then stored[..MAX_STORED] else stored, Some(c.id),
                                            None, Some(now))),
                carried, now)
    case _ => v
  }

  predicate DistinctIds(messages: seq<Message>) {
    forall i, j :: 0 <= i < j < |messages| ==> messages[i].id != messages[j].id
  }

  // ---------- the effect of a compaction ----------

  /** After a compaction, it is the active one and a summary is based on it. */
  lemma CompactedIsActive(v: View, s: Settings, recalled: Recalled, carried: Recalled, id: CompactionId, now: Time)
    requires Outcome(v, s, recalled, id, now).Compacted?
    ensures var w := Compact(v, s, recalled, carried, id, now); var c := Outcome(v, s, recalled, id, now).compaction;
            && Active(w.continuity) == Some(c) && w.messages == v.messages
            && w.continuity.compactions != [] && w.continuity.compactions[0] == c
            && |w.continuity.compactions| <= MAX_STORED
            && w.continuity.summary.Some? && w.continuity.summary.value.basedOn == c.id
            && c == NewCompaction(v, s, recalled, id, now)
  {
    hide NewCompaction, SaysTheSame, BoundedLines, SummaryLines, SelectFrom, UniqueStrings;
  }

  lemma {:induction false} OutsideSplits(a: seq<Message>, b: seq<Message>, ids: seq<MessageId>)
    ensures Outside(a + b, ids) == Outside(a, ids) + Outside(b, ids)
  {
    if b == [] {
      assert a + b == a;
    } else {
      var n := |b| - 1;
      OutsideSplits(a, b[..n], ids);
      assert (a + b)[..|a + b| - 1] == a + b[..n];
    }
  }

  lemma {:induction false} OutsideNone(a: seq<Message>, ids: seq<MessageId>)
    ensures (forall m :: m in a ==> m.id in ids) ==> Outside(a, ids) == []
    ensures (forall m :: m in a ==> m.id !in ids) ==> Outside(a, ids) == a
  {
    if a != [] { OutsideNone(a[..|a| - 1], ids); }
  }

  lemma IdsOfHolds(a: seq<Message>)
    ensures forall m :: m in a ==> m.id in IdsOf(a)
    ensures forall x :: x in IdsOf(a) ==> exists i :: 0 <= i < |a| && a[i].id == x
  {
    forall m | m in a ensures m.id in IdsOf(a) {
      var i :| 0 <= i < |a| && a[i] == m;
      assert IdsOf(a)[i] == m.id;
    }
  }

  lemma PrefixIsOutside(a: seq<Message>, b: seq<Message>)
    requires DistinctIds(a + b)
    ensures Outside(a + b, IdsOf(a)) == b
  {
    IdsOfHolds(a);
    forall m | m in b ensures m.id !in IdsOf(a) {
      var j :| 0 <= j < |b| && b[j] == m;
      assert (a + b)[|a| + j] == m;
      forall i | 0 <= i < |a| ensures a[i].id != m.id {
        assert (a + b)[i] == a[i];
      }
    }
    OutsideSplits(a, b, IdsOf(a));
    OutsideNone(a, IdsOf(a));
    OutsideNone(b, IdsOf(a));
  }

  /** Compacted and retained ids are the session's messages, each once and in order, and the last `keep`
      are retained. */
  lemma CompactionPartitions(v: View, s: Settings, recalled: Recalled, id: CompactionId, now: Time)
    requires Outcome(v, s, recalled, id, now).Compacted?
    ensures var c := Outcome(v, s, recalled, id, now).compaction;
            && c.compacted + c.retained == IdsOf(v.messages) && |c.retained| == s.keep && |c.compacted| == c.count > 0
  {
    hide BoundedLines, WindowLines, UniqueStrings;
    var n := |v.messages| - s.keep;
    assert v.messages == v.messages[..n] + v.messages[n..];
  }

  /** `w` is `v` some time later: `more` messages were appended, the summary perhaps refreshed. */
  predicate Later(v: View, w: View, more: seq<Message>) {
    && w.messages == v.messages + more
    && w.continuity.compactions == v.continuity.compactions && w.continuity.activeId == v.continuity.activeId
    && (v.continuity.summary.Some? ==> w.continuity.summary.Some?)
  }

  /** After a compaction, what is uncompacted are the messages kept and those appended since, so the
      advice is to compact again exactly when these are more than eight; never to compact for the first
      time or to refresh. With `more` empty and keep at most eight the budget is restored. */
  lemma CompactionRestoresBudget(v: View, s: Settings, recalled: Recalled, carried: Recalled, id: CompactionId,
                                 now: Time, w: View, more: seq<Message>)
    requires Outcome(v, s, recalled, id, now).Compacted? && DistinctIds(v.messages + more)
    requires Later(Compact(v, s, recalled, carried, id, now), w, more)
    ensures Uncompacted(w) == v.messages[|v.messages| - s.keep..] + more && SinceCompaction(w) == more
    ensures Recommendation(w).RecompactNow? <==> s.keep + |more| > MAX_UNCOMPACTED
    ensures !Recommendation(w).CompactNow? && !Recommendation(w).RefreshSummary?
  {
    hide BoundedLines, WindowLines, UniqueStrings, SummaryLines, SelectFrom, Compact, SaysTheSame;
    CompactedIsActive(v, s, recalled, carried, id, now);
    CompactionPartitions(v, s, recalled, id, now);
    var n := |v.messages| - s.keep;
    var older, newer := v.messages[..n], v.messages[n..];
    var all := v.messages + more;
    assert all == older + (newer + more);
    PrefixIsOutside(older, newer + more);
    PrefixIsOutside(v.messages, more);
  }

  /** Compacting again at once, with the memories unchanged, changes nothing. */
  lemma RepeatIsNoOp(v: View, s: Settings, recalled: Recalled, carried: Recalled, id: CompactionId, now: Time,
                     laterId: CompactionId, laterNow: Time)
    ensures var w := Compact(v, s, recalled, carried, id, now);
            Compact(w, s, recalled, carried, laterId, laterNow) == w
            && !Outcome(w, s, recalled, laterId, laterNow).Compacted?
            && (Outcome(v, s, recalled, id, now).Compacted? ==>
                  Outcome(w, s, recalled, laterId, laterNow) == AlreadyCompacted)
  {
    hide BoundedLines, WindowLines, UniqueStrings, SummaryLines, SelectFrom, Refreshed, CountRole;
    if Outcome(v, s, recalled, id, now).Compacted? { CompactedIsActive(v, s, recalled, carried, id, now); }
  }

  /** When compacting does anything: the settings are positive, there is something to fold, and either
      there is no compaction yet, or its messages or memories are not those of now. */
  lemma CompactsExactlyWhen(v: View, s: Settings, recalled: Recalled, id: CompactionId, now: Time)
    ensures Outcome(v, s, recalled, id, now).Compacted? <==>
              s.Valid() && |v.messages| > s.keep
              && match Active(v.continuity)
                 case None => true
                 case Some(c) => !(IdsOf(v.messages) == c.compacted + c.retained && |c.retained| == s.keep
                                   && c.memories == SourceMemories(recalled))
  {
    hide BoundedLines, WindowLines, UniqueStrings, CountRole;
    if s.Valid() && |v.messages| > s.keep {
      var n := |v.messages| - s.keep;
      assert IdsOf(v.messages)[..n] == IdsOf(v.messages[..n]);
      assert IdsOf(v.messages)[n..] == IdsOf(v.messages[n..]);
    }
  }

  /** No more than five compactions are ever stored. */
  lemma StoredIsBounded(v: View, s: Settings, recalled: Recalled, carried: Recalled, id: CompactionId, now: Time)
    requires |v.continuity.compactions| <= MAX_STORED
    ensures |Compact(v, s, recalled, carried, id, now).continuity.compactions| <= MAX_STORED
    ensures |Refreshed(v, carried, now).continuity.compactions| <= MAX_STORED
  {
    hide BoundedLines, WindowLines, UniqueStrings, SummaryLines, SelectFrom, CountRole;
  }

  // ---------- the sizes of the texts ----------

  lemma MoreMemoryIds(a: seq<MemoryRef>, b: seq<MemoryRef>)
    requires a <= b
    ensures forall id :: id in MemoryIds(a) ==> id in MemoryIds(b)
  {
    assert forall i :: 0 <= i < |a| ==> MemoryIds(b)[i] == MemoryIds(a)[i];
  }

  lemma {:induction false} SelectionHolds(refs: seq<MemoryRef>, selected: seq<MemoryRef>, limit: nat)
    requires |selected| < limit && Distinct(MemoryIds(selected))
    ensures |SelectFrom(refs, selected, limit)| <= limit && Distinct(MemoryIds(SelectFrom(refs, selected, limit)))
    ensures selected <= SelectFrom(refs, selected, limit)
    ensures forall m :: m in SelectFrom(refs, selected, limit) ==> m in selected || m in refs
    ensures |SelectFrom(refs, selected, limit)| == limit
            || forall m :: m in refs && Strip(m.id) != "" ==> m.id in MemoryIds(SelectFrom(refs, selected, limit))
  {
    if refs != [] {
      if Strip(refs[0].id) == "" || refs[0].id in MemoryIds(selected) {
        SelectionHolds(refs[1..], selected, limit);
        MoreMemoryIds(selected, SelectFrom(refs[1..], selected, limit));
      } else {
        assert MemoryIds(selected + [refs[0]]) == MemoryIds(selected) + [refs[0].id];
        if |selected| + 1 < limit {
          SelectionHolds(refs[1..], selected + [refs[0]], limit);
          MoreMemoryIds(selected + [refs[0]], SelectFrom(refs[1..], selected + [refs[0]], limit));
        }
      }
    }
  }

  /** The carry-forward summary stays within four characters of its limit and carries the last four
      messages, or all, and at most four memories, each once. */
  lemma SummaryIsBounded(v: View, recalled: Recalled, now: Time)
    requires BuildSummary(v, recalled, now).Some?
    ensures var summary := BuildSummary(v, recalled, now).value;
            && |summary.text| <= MAX_SUMMARY_CHARS + 4
            && |summary.recent| == Min(RECENT_LIMIT, |v.messages|)
            && summary.recent == IdsOf(v.messages)[|v.messages| - |summary.recent|..]
            && |summary.memories| <= MEMORY_LIMIT && Distinct(summary.memories)
  {
    hide BoundedLines, UniqueStrings, SelectFrom, SummaryLines;
    var memories := SelectFrom(recalled.recent + recalled.ofWorkflows, [], MEMORY_LIMIT);
    SelectionHolds(recalled.recent + recalled.ofWorkflows, [], MEMORY_LIMIT);
    var lines := SummaryLines(v, Active(v.continuity).value, LastOf(v.messages, RECENT_LIMIT), memories,
                              MAX_SUMMARY_CHARS);
    assert lines != [] by {
      SummaryHasLines(v, Active(v.continuity).value, LastOf(v.messages, RECENT_LIMIT), memories);
    }
    BoundedFits(lines, MAX_SUMMARY_CHARS);
  }

  lemma SummaryHasLines(v: View, active: Compaction, recent: seq<Message>, memories: seq<MemoryRef>)
    ensures SummaryLines(v, active, recent, memories, MAX_SUMMARY_CHARS) != []
  {
  }

  lemma DecimalEndsInDigit(n: nat)
    ensures Decimal(n) != "" && forall i :: 0 <= i < |Decimal(n)| ==> !IsSpace(Decimal(n)[i])
  {
    forall k | 0 <= k < 10 ensures !IsSpace("0123456789"[k]) {
      assert k == 0 || k == 1 || k == 2 || k == 3 || k == 4 || k == 5 || k == 6 || k == 7 || k == 8 || k == 9;
    }
  }

  /** The first line of a compaction's summary is long, and cutting one or two characters off its end
      leaves no trailing space. */
  lemma HeaderEnd(messages: seq<Message>)
    requires messages != []
    ensures var line := WindowLines(messages)[0];
            |line| > 20 && !IsSpace(line[|line| - 2]) && !IsSpace(line[|line| - 3])
  {
    hide CountRole, Previews, Decimal;
    var line, count := WindowLines(messages)[0], Decimal(CountRole(messages, "system"));
    DecimalEndsInDigit(CountRole(messages, "system"));
    var tail := "=" + count + ".";
    assert line == line[..|line| - |tail|] + tail;
    assert line[|line| - 2] == tail[|tail| - 2] && line[|line| - 3] == tail[|tail| - 3];
  }

  /** A compaction's summary is within four characters of its limit exactly when the limit is at least
      three: the smaller limits cut the end off the first line only, which is always too long. */
  lemma CompactionTextIsBounded(v: View, s: Settings, recalled: Recalled, id: CompactionId, now: Time)
    requires Outcome(v, s, recalled, id, now).Compacted?
    ensures |Outcome(v, s, recalled, id, now).compaction.summary| <= s.maxSummaryChars + 4 <==> s.maxSummaryChars >= 3
  {
    hide BoundedLines, UniqueStrings, CountRole, WindowLines;
    var older := v.messages[..|v.messages| - s.keep];
    var lines := WindowLines(older);
    assert lines != [] by { WindowHasLines(older); }
    BoundedFits(lines, s.maxSummaryChars);
    HeaderEnd(older);
    assert s.maxSummaryChars < 3 ==> !IsSpace(lines[0][|lines[0]| + s.maxSummaryChars - 4]);
  }

  lemma WindowHasLines(messages: seq<Message>)
    requires messages != []
    ensures WindowLines(messages) != []
  {
  }

  // ---------- time passing ----------

  predicate ActiveIsNamed(c: Continuity) { c.activeId == ActiveId(c) }

  /** Appending messages and refreshing the summary is only time passing, however often it happens. */
  lemma AppendIsLater(v: View, changed: View, more: seq<Message>, recalled: Recalled, now: Time)
    requires ActiveIsNamed(v.continuity)
    requires changed.messages == v.messages + more && changed.continuity == v.continuity
    ensures Later(v, changed, more)
    ensures var w := Refreshed(changed, recalled, now);
            ActiveIsNamed(w.continuity) && (v.continuity.compactions != [] ==> Later(v, w, more))
  {
    hide BoundedLines, UniqueStrings, SummaryLines, SelectFrom, LastOf;
  }

  lemma LaterThrough(u: View, v: View, w: View, a: seq<Message>, b: seq<Message>)
    requires Later(u, v, a) && Later(v, w, b)
    ensures Later(u, w, a + b)
  {
  }

  lemma CompactedIsNamed(v: View, s: Settings, recalled: Recalled, carried: Recalled, id: CompactionId, now: Time)
    requires Outcome(v, s, recalled, id, now).Compacted?
    ensures ActiveIsNamed(Compact(v, s, recalled, carried, id, now).continuity)
  {
    hide NewCompaction, SaysTheSame, BoundedLines, SummaryLines, SelectFrom, UniqueStrings;
  }

  // ---------- exchanges ----------

  /** One call of append_session_message: two messages, and what the run behind it came to. */
  datatype Exchange = Exchange(
    user: Message, reply: Message, status: string, workflow: Option<string>, raised: bool, recalled: Recalled,
        now: Time)

  function Appended(v: View, e: Exchange): View {
    var changed := v.(status := e.status, workflow := e.workflow, messages := v.messages + [e.user, e.reply]);
    if e.raised then changed else Refreshed(changed, e.recalled, e.now)
  }

  function AllAppended(v: View, exchanges: seq<Exchange>): View {
    if exchanges == [] then v
    else Appended(AllAppended(v, exchanges[..|exchanges| - 1]), exchanges[|exchanges| - 1])
  }

  function MessagesOf(exchanges: seq<Exchange>): seq<Message> {
    if exchanges == [] then []
    else
      MessagesOf(exchanges[..|exchanges| - 1])
      + [exchanges[|exchanges| - 1].user, exchanges[|exchanges| - 1].reply]
  }

  lemma AppendedIsLater(v: View, e: Exchange)
    requires ActiveIsNamed(v.continuity) && v.continuity.compactions != []
    ensures Later(v, Appended(v, e), [e.user, e.reply])
    ensures ActiveIsNamed(Appended(v, e).continuity)
  {
    hide Later, ActiveIsNamed, Refreshed;
    var changed := v.(status := e.status, workflow := e.workflow, messages := v.messages + [e.user, e.reply]);
    AppendIsLater(v, changed, [e.user, e.reply], e.recalled, e.now);
    assert ActiveIsNamed(changed.continuity);
  }

  lemma {:induction false} ExchangesAreLater(v: View, exchanges: seq<Exchange>)
    requires ActiveIsNamed(v.continuity) && v.continuity.compactions != []
    ensures Later(v, AllAppended(v, exchanges), MessagesOf(exchanges))
    ensures ActiveIsNamed(AllAppended(v, exchanges).continuity)
    ensures AllAppended(v, exchanges).continuity.compactions != []
    ensures |MessagesOf(exchanges)| == 2 * |exchanges|
  {
    hide ActiveIsNamed, Appended;
    if exchanges == [] {
      assert v.messages + [] == v.messages;
    } else {
      var n := |exchanges| - 1;
      var front, last := exchanges[..n], exchanges[n];
      ExchangesAreLater(v, front);
      AppendedIsLater(AllAppended(v, front), last);
      LaterThrough(v, AllAppended(v, front), AllAppended(v, exchanges), MessagesOf(front), [last.user, last.reply]);
    }
  }

  lemma CompactedHasOne(v: View, s: Settings, recalled: Recalled, carried: Recalled, id: CompactionId, now: Time)
    requires Outcome(v, s, recalled, id, now).Compacted?
    ensures var w := Compact(v, s, recalled, carried, id, now);
            w.continuity.compactions != [] && ActiveIsNamed(w.continuity)
  {
    hide Compact, ActiveIsNamed;
    CompactedIsActive(v, s, recalled, carried, id, now);
    CompactedIsNamed(v, s, recalled, carried, id, now);
  }

  /** After a compaction and any number of exchanges, raised or not, the advice is to compact again exactly
      when the messages kept and the two of each exchange are more than eight; it is never to compact for
      the first time, and never to refresh. */
  lemma AdviceAfterExchanges(v: View, s: Settings, recalled: Recalled, carried: Recalled, id: CompactionId, now: Time,
                             exchanges: seq<Exchange>)
    requires Outcome(v, s, recalled, id, now).Compacted? && DistinctIds(v.messages + MessagesOf(exchanges))
    ensures var w := AllAppended(Compact(v, s, recalled, carried, id, now), exchanges);
            && (Recommendation(w).RecompactNow? <==> s.keep + 2 * |exchanges| > MAX_UNCOMPACTED)
            && !Recommendation(w).CompactNow? && !Recommendation(w).RefreshSummary?
            && SinceCompaction(w) == MessagesOf(exchanges)
  {
    hide Outcome, Compact, Recommendation, Uncompacted, SinceCompaction, ActiveIsNamed, AllAppended, Later, DistinctIds;
    hide MessagesOf, NewCompaction, SaysTheSame, BoundedLines;
    var compacted := Compact(v, s, recalled, carried, id, now);
    CompactedHasOne(v, s, recalled, carried, id, now);
    ExchangesAreLater(compacted, exchanges);
    CompactionRestoresBudget(v, s, recalled, carried, id, now, AllAppended(compacted, exchanges),
                             MessagesOf(exchanges));
  }

  // ---------- the session ----------

  class Session {
    var status: string
    var workflow: Option<string>
    var scopeKind: string
    var scopeValue: Option<string>
    var messages: seq<Message>
    var continuity: Continuity

    function Contents(): View
      reads this
    {
      View(status, workflow, scopeKind, scopeValue, messages, continuity)
    }

    constructor (status: string, scopeKind: string, scopeValue: Option<string>)
      ensures Contents() == View(status, None, scopeKind, scopeValue, [], NO_CONTINUITY)
    {
      this.status, this.scopeKind, this.scopeValue := status, scopeKind, scopeValue;
      workflow, messages, continuity := None, [], NO_CONTINUITY;
    }

    method RefreshSummary(recalled: Recalled, now: Time)
      modifies this`continuity
      ensures Contents() == Refreshed(old(Contents()), recalled, now)
    {
      hide BoundedLines, UniqueStrings, SummaryLines, SelectFrom, LastOf;
      var active := Active(continuity);
      var state := Continuity(continuity.compactions,
                              if active.Some? then Some(active.value.id) else continuity.activeId,
                              None, continuity.updatedAt);
      if active.Some? {
        var recent := LastOf(messages, RECENT_LIMIT);
        var memories := SelectMemories(recalled.recent + recalled.ofWorkflows, MEMORY_LIMIT);
        var text := BoundedLinesText(SummaryLines(Contents(), active.value, recent, memories, MAX_SUMMARY_CHARS),
                                     MAX_SUMMARY_CHARS);
        var workflows := Unique([workflow] + Present(active.value.workflows) + WorkflowsOfMessages(recent)
                                + WorkflowsOfMemories(memories));
        state := state.(summary := Some(Summary(active.value.id, now, text, IdsOf(recent), MemoryIds(memories),
                                                workflows)),
                        updatedAt := Some(now));
      }
      continuity := state;
    }

    /** append_session_message as far as continuity goes: two messages, and a new summary unless the run raised. */
    method AppendExchange(e: Exchange)
      modifies this
      ensures Contents() == Appended(old(Contents()), e)
    {
      hide Refreshed;
      messages := messages + [e.user];
      status, workflow := e.status, e.workflow;
      messages := messages + [e.reply];
      assert messages == old(messages) + [e.user, e.reply];
      if !e.raised {
        RefreshSummary(e.recalled, e.now);
      }
    }

    /** compact_session_continuity */
    method CompactContinuity(s: Settings, recalled: Recalled, carried: Recalled, id: CompactionId,
                             now: Time) returns (r: Result)
      modifies this`continuity
      ensures r == Outcome(old(Contents()), s, recalled, id, now)
      ensures Contents() == Compact(old(Contents()), s, recalled, carried, id, now)
    {
      hide BoundedLines, UniqueStrings, WindowLines, Refreshed;
      if !s.Valid() {
        return Refused;
      }
      if |messages| <= s.keep {
        return NotEnoughMessages;
      }
      var n := |messages| - s.keep;
      var older, newer := messages[..n], messages[n..];
      var sources := Unique(Present(MemoryIds(recalled.recent)) + Present(MemoryIds(recalled.ofWorkflows)));
      var workflows := Unique(WorkflowsOfMessages(older) + WorkflowsOfMemories(recalled.recent)
                              + WorkflowsOfMemories(recalled.ofWorkflows));
      var active := Active(continuity);
      if active.Some? && active.value.compacted == IdsOf(older) && active.value.retained == IdsOf(newer)
         && active.value.memories == sources {
        return AlreadyCompacted;
      }
      var users, assistants, systems := CountRoles(older);
      var text := BoundedLinesText(WindowLines(older), s.maxSummaryChars);
      var c := Compaction(id, now, text, n, users, assistants, systems, IdsOf(older), IdsOf(newer), sources, workflows);
      var stored := [c] + continuity.compactions;
      continuity := Continuity(if |stored| > MAX_STORED then stored[..MAX_STORED] else stored, Some(c.id), None,
                               Some(now));
      RefreshSummary(carried, now);
      r := Compacted(c);
    }
  }

  method CountRoles(messages: seq<Message>) returns (users: nat, assistants: nat, systems: nat)
    ensures users == CountRole(messages, "user")
    ensures assistants == CountRole(messages, "assistant") && systems == CountRole(messages, "system")
  {
    users, assistants, systems := 0, 0, 0;
    for i := 0 to |messages|
      invariant users == CountRole(messages[..i], "user")
      invariant assistants == CountRole(messages[..i], "assistant") && systems == CountRole(messages[..i], "system")
    {
      assert messages[..i + 1][..i] == messages[..i];
      if messages[i].role == "user" {
        users := users + 1;
      }
      if messages[i].role == "assistant" {
        assistants := assistants + 1;
      }
      if messages[i].role == "system" {
        systems := systems + 1;
      }
    }
    assert messages[..|messages|] == messages;
  }

  method Unique(values: seq<Option<string>>) returns (kept: seq<string>)
    ensures kept == UniqueStrings(values)
  {
    kept := [];
    for i := 0 to |values|
      invariant kept == UniqueStrings(values[..i])
    {
      assert values[..i + 1][..i] == values[..i];
      if values[i].None? || Strip(values[i].value) == "" || Strip(values[i].value) in kept {
        continue;
      }
      kept := kept + [Strip(values[i].value)];
    }
    assert values[..|values|] == values;
  }

  /** select_continuity_memories */
  method SelectMemories(refs: seq<MemoryRef>, limit: nat) returns (selected: seq<MemoryRef>)
    ensures selected == SelectFrom(refs, [], limit)
  {
    selected := [];
    var i := 0;
    while i < |refs|
      invariant i <= |refs| && SelectFrom(refs[i..], selected, limit) == SelectFrom(refs, [], limit)
    {
      assert refs[i..][1..] == refs[i + 1..] && refs[i..][0] == refs[i];
      if Strip(refs[i].id) != "" && refs[i].id !in MemoryIds(selected) {
        selected := selected + [refs[i]];
        if |selected| >= limit {
          return;
        }
      }
      i := i + 1;
    }
  }
}
