/** What an answer of query_memories says about every memory there is: which memories are hits, how they are scored
    and ordered, what was left out, and that nothing a memory says is kept from the search. */
module MemoryLaws {
  import opened Common
  import opened Text
  import opened Summaries
  import opened MemoryQuery

  // ---------- searching ----------

  /** The same but for upper and lower case. */
  predicate SameLetter(c: char, d: char) {
    || c == d
    || ('A' <= c <= 'Z' && d as int == c as int + 32)
    || ('A' <= d <= 'Z' && c as int == d as int + 32)
  }

  predicate SaysAt(text: string, part: string, k: nat) {
    k + |part| <= |text| && forall i :: 0 <= i < |part| ==> SameLetter(text[k + i], part[i])
  }

  /** The part stands somewhere in the text, upper and lower case alike. */
  predicate Mentions(text: string, part: string) { exists k: nat :: k <= |text| && SaysAt(text, part, k) }

  lemma SayingIsOccurring(text: string, part: string, k: nat)
    ensures OccursAt(Lower(text), Lower(part), k) <==> SaysAt(text, part, k)
  {
    var s, p := Lower(text), Lower(part);
    if k + |part| <= |text| {
      forall i | 0 <= i < |part| ensures s[k..k + |part|][i] == p[i] <==> SameLetter(text[k + i], part[i]) {}
      assert SaysAt(text, part, k) ==> s[k..k + |part|] == p;
    }
  }

  lemma ContainsLaw(text: string, part: string)
    ensures Contains(Lower(text), Lower(part)) <==> Mentions(text, part)
  {
    hide SaysAt, OccursAt, Lower;
    var s, p := Lower(text), Lower(part);
    if k: nat :| k <= |text| && SaysAt(text, part, k) {
      SayingIsOccurring(text, part, k);
      assert k <= |s| by { SaysWithin(text, part, k); }
      assert OccursAt(s, p, k);
    }
    if Contains(s, p) {
      var k := FindFrom(s, p, 0).value;
      SayingIsOccurring(text, part, k);
      assert k <= |text| by { SaysWithin(text, part, k); }
      assert SaysAt(text, part, k);
    }
  }

  lemma SaysWithin(text: string, part: string, k: nat)
    requires SaysAt(text, part, k)
    ensures k <= |text| == |Lower(text)|
  {
  }

  lemma TokensAreLower(t: string)
    requires forall c :: c in t ==> TokenChar(c)
    ensures Lower(t) == t
  {
    assert forall i :: 0 <= i < |t| ==> TokenChar(t[i]);
  }

  /** A small letter, a digit or an underscore, by their ASCII codes. */
  predicate Searchable(c: char) { 97 <= c as int <= 122 || 48 <= c as int <= 57 || c as int == 95 }

  lemma SearchableLaw(c: char)
    ensures TokenChar(c) <==> Searchable(c)
  {
  }

  /** A run of searchable characters that cannot be made longer. */
  predicate LongestRun(s: string, i: nat, j: nat) {
    && i < j <= |s| && (forall k :: i <= k < j ==> TokenChar(s[k]))
    && (i > 0 ==> !TokenChar(s[i - 1])) && (j < |s| ==> !TokenChar(s[j]))
  }

  predicate IsRun(s: string, t: string) {
    exists i: nat, j: nat :: i <= j <= |s| && LongestRun(s, i, j) && s[i..j] == t
  }

  lemma RunIsRun(s: string, i: nat, j: nat)
    requires i <= j <= |s| && LongestRun(s, i, j)
    ensures IsRun(s, s[i..j])
  {
  }

  /** Searchable characters, then a gap. */
  predicate GapAt(s: string, n: nat) {
    n < |s| && (forall k :: 0 <= k < n ==> TokenChar(s[k])) && !TokenChar(s[n])
  }

  lemma RunsBehindGap(s: string, n: nat, i: nat, j: nat)
    requires GapAt(s, n) && i <= j <= |s| - n - 1
    ensures LongestRun(s, n + 1 + i, n + 1 + j) <==> LongestRun(s[n + 1..], i, j)
    ensures s[n + 1 + i..n + 1 + j] == s[n + 1..][i..j]
  {
    var rest := s[n + 1..];
    if i > 0 { assert rest[i - 1] == s[n + i]; }
    if j < |rest| { assert rest[j] == s[n + 1 + j]; }
    if LongestRun(s, n + 1 + i, n + 1 + j) {
      forall k | i <= k < j ensures TokenChar(rest[k]) {
        assert rest[k] == s[n + 1 + k];
      }
    }
    if LongestRun(rest, i, j) {
      forall k | n + 1 + i <= k < n + 1 + j ensures TokenChar(s[k]) {
        assert rest[k - n - 1] == s[k];
      }
    }
  }

  lemma RunBeforeGap(s: string, n: nat, i: nat, j: nat)
    requires GapAt(s, n) && i <= n
    ensures LongestRun(s, i, j) <==> i == 0 && j == n > 0
  {
  }

  /** The runs of a text with a gap: the one in front of it, and those behind it. */
  lemma RunsAroundGap(s: string, n: nat, t: string)
    requires GapAt(s, n)
    ensures IsRun(s, t) <==> (n > 0 && t == s[..n]) || IsRun(s[n + 1..], t)
  {
    hide LongestRun;
    var rest := s[n + 1..];
    if IsRun(s, t) {
      var i: nat, j: nat :| i <= j <= |s| && LongestRun(s, i, j) && s[i..j] == t;
      if i <= n {
        RunBeforeGap(s, n, i, j);
        assert s[0..n] == s[..n];
      } else {
        RunsBehindGap(s, n, i - n - 1, j - n - 1);
        RunIsRun(rest, i - n - 1, j - n - 1);
      }
    }
    if n > 0 && t == s[..n] {
      RunBeforeGap(s, n, 0, n);
      RunIsRun(s, 0, n);
      assert s[0..n] == s[..n];
    }
    if IsRun(rest, t) {
      var i: nat, j: nat :| i <= j <= |rest| && LongestRun(rest, i, j) && rest[i..j] == t;
      RunsBehindGap(s, n, i, j);
      RunIsRun(s, n + 1 + i, n + 1 + j);
    }
  }

  lemma {:induction false} TokensAreRuns(s: string, run: string, t: string)
    requires forall c :: c in run ==> TokenChar(c)
    ensures t in TokensFrom(s, run) <==> IsRun(run + s, t)
  {
    hide IsRun;
    if s == [] {
      assert run + s == run;
      AllOneRun(run, t);
    } else if TokenChar(s[0]) {
      TokensAreRuns(s[1..], run + [s[0]], t);
      assert run + [s[0]] + s[1..] == run + s;
    } else {
      var whole := run + s;
      RunsAroundGap(whole, |run|, t);
      assert whole[..|run|] == run && whole[|run| + 1..] == s[1..];
      TokensAreRuns(s[1..], "", t);
      assert "" + s[1..] == s[1..];
    }
  }

  lemma AllOneRun(s: string, t: string)
    requires forall c :: c in s ==> TokenChar(c)
    ensures IsRun(s, t) <==> s != "" && t == s
  {
    if s != "" {
      assert LongestRun(s, 0, |s|);
      assert s[0..|s|] == s;
    }
    if IsRun(s, t) {
      var i: nat, j: nat :| i <= j <= |s| && LongestRun(s, i, j) && s[i..j] == t;
      assert i == 0 && j == |s|;
    }
  }

  /** The tokens of a query are the longest runs of letters, digits and underscores in it, in lower case. */
  lemma TokensLaw(query: string, t: string)
    ensures t in QueryTokens(query) <==> IsRun(Lower(query), t)
  {
    TokensAreRuns(Lower(query), "", t);
    assert "" + Lower(query) == Lower(query);
  }

  /** A query is refused exactly if a limit is not positive or it has no letter, digit or underscore. */
  lemma RefusalLaw(query: string, limits: Limits)
    ensures !limits.Valid() || QueryTokens(query) == [] <==>
              limits.results <= 0 || limits.chars <= 0 || limits.summaryChars <= 0
              || forall c :: c in query ==> !Searchable(c) && !(65 <= c as int <= 90)
  {
    TokensHold(Lower(query), "");
    var low := Lower(query);
    forall k | 0 <= k < |query|
      ensures TokenChar(low[k]) <==> Searchable(query[k]) || 65 <= query[k] as int <= 90
    {
    }
    if forall c :: c in query ==> !Searchable(c) && !(65 <= c as int <= 90) {
      assert forall k :: 0 <= k < |query| ==> query[k] in query;
    } else {
      var c :| c in query && (Searchable(c) || 65 <= c as int <= 90);
      var k :| 0 <= k < |query| && query[k] == c;
      assert low[k] in low;
    }
  }

  /** A memory's score: nothing if it mentions no token of the query; else one for each token it mentions, two if it
      mentions the whole query, and one more if its payload does. */
  lemma ScoreLaw(m: Memory, query: string)
    ensures var tokens := QueryTokens(query); var said := set t | t in tokens && Mentions(SearchText(m), t);
            && MatchedTerms(m, tokens) == said
            && Score(m, query, tokens)
               == if said == {} then 0
                  else |said| + (if Mentions(SearchText(m), query) then 2 else 0)
                       + (if PayloadText(m) != "" && Mentions(PayloadText(m), query) then 1 else 0)
  {
    hide SearchText, PayloadText, Contains, Lower, Mentions, TokensFrom;
    var tokens := QueryTokens(query);
    TokensHold(Lower(query), "");
    forall t | t in tokens ensures Contains(Lower(SearchText(m)), t) <==> Mentions(SearchText(m), t) {
      TokensAreLower(t);
      ContainsLaw(SearchText(m), t);
    }
    ContainsLaw(SearchText(m), query);
    ContainsLaw(PayloadText(m), query);
  }

  // ---------- the answer ----------

  /** A memory the query asks for: it passes every filter that is set, and mentions a token of the query. */
  predicate AskedFor(m: Memory, query: string, f: Filters) {
    && (f.memoryType.None? || f.memoryType.value == m.memoryType)
    && (f.scopeKind.None? || f.scopeKind.value == m.scopeKind)
    && (f.agent.None? || m.agent == Some(Strip(f.agent.value)))
    && (f.workflow.None? || m.workflow == Some(Strip(f.workflow.value)))
    && (f.run.None? || m.run == Some(Strip(f.run.value)))
    && (f.tags.None? || forall t :: t in f.tags.value ==> Strip(t) in m.tags)
    && exists t :: t in QueryTokens(query) && Mentions(SearchText(m), t)
  }

  lemma CandidatesLaw(store: Store, query: string, filters: Filters)
    ensures Candidates(store, query, filters) == set id | id in store && AskedFor(store[id], query, filters)
  {
    hide SearchText, PayloadText, Mentions, QueryTokens, Score, Strip, MatchedTerms;
    forall id | id in store
      ensures id in Candidates(store, query, filters) <==> AskedFor(store[id], query, filters)
    {
      ScoreLaw(store[id], query);
      var said := set t | t in QueryTokens(query) && Mentions(SearchText(store[id]), t);
      assert Score(store[id], query, QueryTokens(query)) > 0 <==> said != {};
      if t :| t in QueryTokens(query) && Mentions(SearchText(store[id]), t) { assert t in said; }
    }
  }

  /** A better score, or with equal scores an earlier creation, or with equal times a smaller id. */
  predicate Ahead(p: nat, s: Time, a: MemoryId, q: nat, t: Time, b: MemoryId) {
    p > q || (p == q && (s < t || (s == t && a < b)))
  }

  lemma RankingIsAhead(store: Store, query: string, filters: Filters, ranked: seq<MemoryId>)
    requires Ranking(store, query, filters, ranked)
    ensures forall i :: 0 <= i < |ranked| ==> ranked[i] in store && AskedFor(store[ranked[i]], query, filters)
    ensures forall id :: id in store && AskedFor(store[id], query, filters) ==> id in ranked
    ensures forall i, j :: 0 <= i < j < |ranked| ==>
              Ahead(Score(store[ranked[i]], query, QueryTokens(query)), store[ranked[i]].createdAt, ranked[i],
                    Score(store[ranked[j]], query, QueryTokens(query)), store[ranked[j]].createdAt, ranked[j])
  {
    hide AskedFor, Score, QueryTokens, Candidates;
    CandidatesLaw(store, query, filters);
    FirstOfAll(ranked, Candidates(store, query, filters), None, (a: nat, b: nat) => Before(store, query, a, b));
    assert forall i :: 0 <= i < |ranked| ==> ranked[i] in Elements(ranked);
  }

  /** The results are memories the query asks for, each with its score, the terms it mentions and its summary, the
      best first; and whatever else the query asks for comes after all of them. */
  lemma AnswerLaw(store: Store, query: string, filters: Filters, limits: Limits, ranked: seq<MemoryId>, a: Answer)
    requires Ranking(store, query, filters, ranked) && GoodAnswer(store, query, limits, ranked, a)
    ensures forall i :: 0 <= i < |a.results| ==>
              var hit := a.results[i];
              && hit.id in store && AskedFor(store[hit.id], query, filters)
              && hit.score == Score(store[hit.id], query, QueryTokens(query))
              && hit.terms == MatchedTerms(store[hit.id], QueryTokens(query))
    ensures forall i, j :: 0 <= i < j < |a.results| ==>
              var x, y := a.results[i], a.results[j];
              Ahead(x.score, store[x.id].createdAt, x.id, y.score, store[y.id].createdAt, y.id)
    ensures forall i, other :: 0 <= i < |a.results| && other in store && AskedFor(store[other], query, filters)
                               && (forall k :: 0 <= k < |a.results| ==> a.results[k].id != other) ==>
              var x := a.results[i];
              Ahead(x.score, store[x.id].createdAt, x.id,
                    Score(store[other], query, QueryTokens(query)), store[other].createdAt, other)
  {
    hide AskedFor, Score, QueryTokens, MatchedTerms, Ranking, Used, SummaryAt, Ahead;
    RankingIsAhead(store, query, filters, ranked);
    forall i, other | 0 <= i < |a.results| && other in store && AskedFor(store[other], query, filters)
                      && (forall k :: 0 <= k < |a.results| ==> a.results[k].id != other)
      ensures var x := a.results[i];
              Ahead(x.score, store[x.id].createdAt, x.id,
                    Score(store[other], query, QueryTokens(query)), store[other].createdAt, other)
    {
      assert other in ranked;
      var j :| 0 <= j < |ranked| && ranked[j] == other;
      assert forall k :: 0 <= k < |a.results| ==> a.results[k].id == ranked[k];
      assert j >= |a.results|;
    }
  }

  // ---------- what is searched ----------

  lemma MentionsAt(text: string, part: string, k: nat)
    requires k + |part| <= |text| && text[k..k + |part|] == part
    ensures Mentions(text, part)
  {
    forall i | 0 <= i < |part| ensures SameLetter(text[k + i], part[i]) {
      assert text[k..k + |part|][i] == text[k + i];
    }
    assert SaysAt(text, part, k);
  }

  /** Joining keeps every part whole. */
  lemma {:induction false} JoinedKeeps(parts: seq<string>, separator: string, i: nat) returns (k: nat)
    requires i < |parts|
    ensures k + |parts[i]| <= |JoinedBy(parts, separator)|
    ensures JoinedBy(parts, separator)[k..k + |parts[i]|] == parts[i]
  {
    var whole := JoinedBy(parts, separator);
    if |parts| == 1 {
      k := 0;
    } else if i == 0 {
      k := 0;
    } else {
      var rest := JoinedBy(parts[1..], separator);
      k := JoinedKeeps(parts[1..], separator, i - 1);
      var start := |parts[0]| + |separator|;
      assert whole == parts[0] + separator + rest;
      assert whole[start..] == rest;
      assert whole[start + k..start + k + |parts[i]|] == rest[k..k + |parts[i]|];
      k := start + k;
    }
  }

  /** What is said in one of the parts, without blanks at its ends, is found in all of them joined and stripped. */
  lemma StrippedMentions(parts: seq<string>, separator: string, i: nat, part: string, at: nat)
    requires i < |parts| && Clean(part) && at + |part| <= |parts[i]| && parts[i][at..at + |part|] == part
    ensures Mentions(Strip(JoinedBy(parts, separator)), part)
  {
    hide Strip, JoinedBy, Lead, Mentions;
    var whole := JoinedBy(parts, separator);
    var k := JoinedKeeps(parts, separator, i);
    var from := k + at;
    SliceOfSlice(whole, k, k + |parts[i]|, at, |part|);
    assert whole[from..from + |part|] == part;
    assert whole[from] == part[0] && whole[from + |part| - 1] == part[|part| - 1];
    CleanPieceSurvives(whole, from, |part|);
    StripIsSlice(whole);
    var inner := Strip(whole);
    SliceOfSlice(whole, Lead(whole), Lead(whole) + |inner|, from - Lead(whole), |part|);
    MentionsAt(inner, part, from - Lead(whole));
  }

  /** The texts memory_search_text joins. */
  function SearchParts(m: Memory): seq<string> {
    Shown(m.memoryType) + Shown(PayloadText(m)) + Shown(JoinedBy(m.tags, " "))
    + Stripped(m.agent) + Stripped(m.workflow) + Stripped(m.run)
  }

  lemma PartIsFound(m: Memory, whole: string, part: string, at: nat)
    requires whole in SearchParts(m) && Clean(part) && at + |part| <= |whole| && whole[at..at + |part|] == part
    ensures Mentions(SearchText(m), part)
  {
    hide SearchParts, JoinedBy, Mentions, PayloadText, Strip;
    var parts := SearchParts(m);
    var i :| 0 <= i < |parts| && parts[i] == whole;
    StrippedMentions(parts, " ", i, part, at);
    SearchTextIs(m);
  }

  lemma SearchTextIs(m: Memory)
    ensures SearchText(m) == Strip(JoinedBy(SearchParts(m), " "))
  {
    hide JoinedBy, PayloadText, Strip;
  }

  /** Its type, its agent, its workflow and its run are found. */
  lemma NamesAreFound(m: Memory)
    ensures Clean(m.memoryType) ==> Mentions(SearchText(m), m.memoryType)
    ensures forall name :: name in {m.agent, m.workflow, m.run} && name.Some? && Strip(name.value) != "" ==>
              Mentions(SearchText(m), Strip(name.value))
  {
    hide SearchText, PayloadText, Mentions, JoinedBy, Strip, Clean;
    if Clean(m.memoryType) {
      assert m.memoryType != "" by { CleanIsText(m.memoryType); }
      assert m.memoryType in SearchParts(m);
      PartIsFound(m, m.memoryType, m.memoryType, 0);
    }
    forall name | name in {m.agent, m.workflow, m.run} && name.Some? && Strip(name.value) != ""
      ensures Mentions(SearchText(m), Strip(name.value))
    {
      StripIsClean(name.value);
      assert Strip(name.value) in SearchParts(m);
      PartIsFound(m, Strip(name.value), Strip(name.value), 0);
    }
  }

  lemma CleanIsText(s: string)
    requires Clean(s)
    ensures s != ""
  {
  }

  /** Every tag is found. */
  lemma TagsAreFound(m: Memory, i: nat)
    requires i < |m.tags| && Clean(m.tags[i])
    ensures Mentions(SearchText(m), m.tags[i])
  {
    hide SearchText, PayloadText, Mentions, JoinedBy, Strip;
    var all := JoinedBy(m.tags, " ");
    var k := JoinedKeeps(m.tags, " ", i);
    assert all in SearchParts(m);
    PartIsFound(m, all, m.tags[i], k);
  }

  /** Every text of the payload is found, given that its fields have different names. */
  lemma PayloadIsFound(m: Memory, i: nat)
    requires i < |m.payload| && Strip(m.payload[i].1) != ""
    requires forall a, b :: 0 <= a < b < |m.payload| ==> m.payload[a].0 != m.payload[b].0
    ensures Mentions(SearchText(m), Strip(m.payload[i].1)) && Mentions(PayloadText(m), Strip(m.payload[i].1))
  {
    hide SearchText, Mentions, JoinedBy, Strip, OrderedFields, NamedFields, OtherFields;
    var part := Strip(m.payload[i].1);
    StripIsClean(m.payload[i].1);
    var names := OrderedFields(m.memoryType);
    var parts := NamedFields(m.payload, names) + OtherFields(m.payload, names);
    if m.payload[i].0 in names { NamedIsThere(m.payload, names, i); } else { OtherIsThere(m.payload, names, i); }
    assert part in parts;
    var j :| 0 <= j < |parts| && parts[j] == part;
    var k := JoinedKeeps(parts, " | ", j);
    assert PayloadText(m) == JoinedBy(parts, " | ");
    MentionsAt(PayloadText(m), part, k);
    assert PayloadText(m) in SearchParts(m) by { PayloadIsPart(m); }
    PartIsFound(m, PayloadText(m), part, k);
  }

  lemma PayloadIsPart(m: Memory)
    ensures PayloadText(m) != "" ==> PayloadText(m) in SearchParts(m)
  {
    hide PayloadText, JoinedBy, Strip;
  }

  lemma {:induction false} FieldIs(payload: seq<(string, string)>, i: nat)
    requires i < |payload| && forall a, b :: 0 <= a < b < |payload| ==> payload[a].0 != payload[b].0
    ensures Field(payload, payload[i].0) == Strip(payload[i].1)
  {
    hide Strip;
    if i > 0 { FieldIs(payload[1..], i - 1); }
  }

  lemma {:induction false} NamedIsThere(payload: seq<(string, string)>, names: seq<string>, i: nat)
    requires i < |payload| && payload[i].0 in names && Strip(payload[i].1) != ""
    requires forall a, b :: 0 <= a < b < |payload| ==> payload[a].0 != payload[b].0
    ensures Strip(payload[i].1) in NamedFields(payload, names)
  {
    hide Strip, Field;
    FieldIs(payload, i);
    if names[0] != payload[i].0 { NamedIsThere(payload, names[1..], i); }
  }

  lemma {:induction false} OtherIsThere(payload: seq<(string, string)>, names: seq<string>, i: nat)
    requires i < |payload| && payload[i].0 !in names && Strip(payload[i].1) != ""
    ensures Strip(payload[i].1) in OtherFields(payload, names)
  {
    hide Strip;
    if i > 0 { OtherIsThere(payload[1..], names, i - 1); }
  }

  // ---------- what comes first ----------

  /** The two fields that lead the payload's text, by type. */
  predicate Leading(memoryType: string, first: string, second: string) {
    (memoryType, first, second) in {("fact", "statement", "subject"), ("summary", "text", "source"),
                                    ("observation", "text", "source"), ("artifact_ref", "description", "artifact_id")}
  }

  lemma LeadingIsOrdered(memoryType: string, first: string, second: string)
    requires Leading(memoryType, first, second)
    ensures OrderedFields(memoryType) == [first, second]
  {
  }

  lemma JoinedBegins(x: string, y: string, rest: seq<string>, separator: string)
    ensures x + separator + y <= JoinedBy([x, y] + rest, separator)
    ensures x <= JoinedBy([x] + rest, separator)
  {
    assert ([x, y] + rest)[1..] == [y] + rest && ([y] + rest)[1..] == rest && ([x] + rest)[1..] == rest;
    assert y <= JoinedBy([y] + rest, separator);
    var tail := JoinedBy([y] + rest, separator);
    assert JoinedBy([x, y] + rest, separator) == x + separator + tail;
    assert (x + separator + tail)[..|x + separator + y|] == x + separator + y;
  }

  /** The payload of a fact begins with its statement and its subject, and so on for the other types. */
  lemma PayloadBegins(m: Memory, i: nat, j: nat)
    requires i < |m.payload| && j < |m.payload| && Leading(m.memoryType, m.payload[i].0, m.payload[j].0)
    requires Strip(m.payload[i].1) != "" && Strip(m.payload[j].1) != ""
    requires forall a, b :: 0 <= a < b < |m.payload| ==> m.payload[a].0 != m.payload[b].0
    ensures Strip(m.payload[i].1) + " | " + Strip(m.payload[j].1) <= PayloadText(m)
  {
    hide Strip, JoinedBy, OtherFields, Leading, OrderedFields, Field;
    var first, second := m.payload[i].0, m.payload[j].0;
    LeadingIsOrdered(m.memoryType, first, second);
    FieldIs(m.payload, i);
    FieldIs(m.payload, j);
    var names := [first, second];
    assert names[1..] == [second] && [second][1..] == [];
    var x, y := Strip(m.payload[i].1), Strip(m.payload[j].1);
    assert NamedFields(m.payload, []) == [];
    assert NamedFields(m.payload, [second]) == [y];
    assert NamedFields(m.payload, names) == [x, y];
    JoinedBegins(x, y, OtherFields(m.payload, names), " | ");
  }

  /** The payload of any other memory begins with its first text. */
  lemma OtherPayloadBegins(m: Memory)
    requires forall a, b :: !Leading(m.memoryType, a, b)
    requires m.payload != [] && Strip(m.payload[0].1) != ""
    ensures Strip(m.payload[0].1) <= PayloadText(m)
  {
    hide Strip, JoinedBy;
    assert !Leading(m.memoryType, "statement", "subject") && !Leading(m.memoryType, "text", "source");
    assert !Leading(m.memoryType, "description", "artifact_id");
    assert NamedFields(m.payload, []) == [];
    var x := Strip(m.payload[0].1);
    var rest := OtherFields(m.payload[1..], []);
    assert [] + ([x] + rest) == [x] + rest;
    JoinedBegins(x, x, rest, " | ");
  }
}
