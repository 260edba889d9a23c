/** query_memories of runtime/memory.py: the best matching memories, summarized, within a character budget. */
module MemoryQuery {
  import opened Common
  import opened Text
  import opened Summaries

  type MemoryId = nat
  type Time = int

  /** `payload` are the fields of the payload that are strings, in their order. */
  datatype Memory = Memory(
    memoryType: string, scopeKind: string, agent: Option<string>, workflow: Option<string>, run: Option<string>,
    tags: seq<string>, payload: seq<(string, string)>, createdAt: Time)

  datatype Filters = Filters(
    memoryType: Option<string>, scopeKind: Option<string>, agent: Option<string>, workflow: Option<string>,
        run: Option<string>,
    tags: Option<seq<string>>)

  // ---------- searching text ----------

  predicate TokenChar(c: char) { 'a' <= c <= 'z' || '0' <= c <= '9' || c == '_' }

  /** The maximal runs of token characters, `run` being the one that is open. */
  function TokensFrom(s: string, run: string): seq<string> {
    if s == [] then if run == "" then [] else [run]
    else if TokenChar(s[0]) then TokensFrom(s[1..], run + [s[0]])
    else (if run == "" then [] else [run]) + TokensFrom(s[1..], "")
  }

  function QueryTokens(query: string): seq<string> { TokensFrom(Lower(query), "") }

  /** Every token is a non-empty run of token characters, and there is one exactly when the query has
      a searchable character. */
  lemma {:induction false} TokensHold(s: string, run: string)
    requires forall c :: c in run ==> TokenChar(c)
    ensures forall t :: t in TokensFrom(s, run) ==> t != "" && forall c :: c in t ==> TokenChar(c)
    ensures TokensFrom(s, run) == [] <==> run == "" && forall c :: c in s ==> !TokenChar(c)
  {
    if s != [] { TokensHold(s[1..], if TokenChar(s[0]) then run + [s[0]] else ""); }
    if s != [] && TokenChar(s[0]) { assert s[0] in run + [s[0]]; }
  }

  // ---------- the text of a memory ----------

  function OrderedFields(memoryType: string): seq<string> {
    if memoryType == "fact" then ["statement", "subject"]
    else if memoryType == "summary" || memoryType == "observation" then ["text", "source"]
    else if memoryType == "artifact_ref" then ["description", "artifact_id"]
    else []
  }

  function Field(payload: seq<(string, string)>, name: string): string {
    if payload == [] then "" else if payload[0].0 == name then Strip(payload[0].1) else Field(payload[1..], name)
  }

  function Shown(value: string): seq<string> { if value == "" then [] else [value] }

  function NamedFields(payload: seq<(string, string)>, names: seq<string>): seq<string> {
    if names == [] then [] else Shown(Field(payload, names[0])) + NamedFields(payload, names[1..])
  }

  function OtherFields(payload: seq<(string, string)>, names: seq<string>): seq<string> {
    if payload == [] then []
    else (if payload[0].0 in names then [] else Shown(Strip(payload[0].1))) + OtherFields(payload[1..], names)
  }

  function JoinedBy(parts: seq<string>, separator: string): string {
    if parts == [] then "" else if |parts| == 1 then parts[0]
    else parts[0] + separator + JoinedBy(parts[1..], separator)
  }

  /** memory_payload_text */
  function PayloadText(m: Memory): string {
    var names := OrderedFields(m.memoryType);
    JoinedBy(NamedFields(m.payload, names) + OtherFields(m.payload, names), " | ")
  }

  function Stripped(value: Option<string>): seq<string> { if value.None? then [] else Shown(Strip(value.value)) }

  /** memory_search_text */
  function SearchText(m: Memory): string {
    Strip(JoinedBy(Shown(m.memoryType) + Shown(PayloadText(m)) + Shown(JoinedBy(m.tags, " "))
                   + Stripped(m.agent) + Stripped(m.workflow) + Stripped(m.run), " "))
  }

  /** memory_matches_filters */
  predicate MatchesFilters(m: Memory, f: Filters) {
    && (f.memoryType.Some? ==> m.memoryType == f.memoryType.value)
    && (f.scopeKind.Some? ==> m.scopeKind == f.scopeKind.value)
    && (f.agent.Some? ==> m.agent == Some(Strip(f.agent.value)))
    && (f.workflow.Some? ==> m.workflow == Some(Strip(f.workflow.value)))
    && (f.run.Some? ==> m.run == Some(Strip(f.run.value)))
    && (f.tags.Some? ==> forall i :: 0 <= i < |f.tags.value| ==> Strip(f.tags.value[i]) in m.tags)
  }

  // ---------- the score ----------

  function MatchedTerms(m: Memory, tokens: seq<string>): set<string> {
    set t | t in tokens && Contains(Lower(SearchText(m)), t)
  }

  /** memory_match_score */
  function Score(m: Memory, query: string, tokens: seq<string>): nat {
    var terms := MatchedTerms(m, tokens);
    if terms == {} then 0
    else
      |terms| + (if Contains(Lower(SearchText(m)), Lower(query)) then 2 else 0)
      + (if PayloadText(m) != "" && Contains(Lower(PayloadText(m)), Lower(query)) then 1 else 0)
  }

  /** A memory has a score exactly when some token of the query occurs in its text, and the score is at
      most three more than the number of tokens. */
  lemma ScoreHolds(m: Memory, query: string, tokens: seq<string>)
    ensures Score(m, query, tokens) > 0 <==> exists i :: 0 <= i < |tokens| && Contains(Lower(SearchText(m)), tokens[i])
    ensures Score(m, query, tokens) <= |tokens| + 3
  {
    hide SearchText, PayloadText, Contains, Lower;
    var terms := MatchedTerms(m, tokens);
    if i :| 0 <= i < |tokens| && Contains(Lower(SearchText(m)), tokens[i]) { assert tokens[i] in terms; }
    if terms != {} {
      var t :| t in terms;
      assert t in tokens;
    }
    assert terms <= Elements(tokens);
    SubsetCount(terms, Elements(tokens));
    FewElements(tokens);
  }

  // ---------- the query ----------

  datatype Hit = Hit(id: MemoryId, score: nat, terms: set<string>, summary: string)

  datatype Answer = Refused | Answer(results: seq<Hit>, usedChars: nat, truncated: bool)

  datatype Limits = Limits(results: int, chars: int, summaryChars: int) {
    predicate Valid() { results > 0 && chars > 0 && summaryChars > 0 }
  }

  type Store = map<MemoryId, Memory>

  function Candidates(store: Store, query: string, filters: Filters): set<MemoryId> {
    set id | id in store && MatchesFilters(store[id], filters) && Score(store[id], query, QueryTokens(query)) > 0
  }

  /** The sort key: best score first, then oldest, then smallest id. */
  predicate Before(store: Store, query: string, a: MemoryId, b: MemoryId) {
    a in store && b in store
    && var sa, sb := Score(store[a], query, QueryTokens(query)), Score(store[b], query, QueryTokens(query));
       || sa > sb
       || (sa == sb && store[a].createdAt < store[b].createdAt)
       || (sa == sb && store[a].createdAt == store[b].createdAt && a <= b)
  }

  lemma BeforeIsOrder(store: Store, query: string, ids: set<MemoryId>)
    requires ids <= store.Keys
    ensures Preorder(ids, (a: nat, b: nat) => Before(store, query, a, b))
  {
    hide Score, QueryTokens;
  }

  /** The ranked candidates are one list only: ties are broken by the ids. */
  lemma BeforeIsStrict(store: Store, query: string, a: MemoryId, b: MemoryId)
    requires Before(store, query, a, b) && Before(store, query, b, a)
    ensures a == b
  {
    hide Score, QueryTokens;
  }

  ghost predicate Ranking(store: Store, query: string, filters: Filters, ranked: seq<MemoryId>) {
    FirstOf(ranked, Candidates(store, query, filters), None, (a: nat, b: nat) => Before(store, query, a, b))
  }

  /** The summary of a candidate at place `i`: the first is cut down further if it alone exceeds the budget. */
  function SummaryAt(m: Memory, query: string, limits: Limits, i: nat): string
    requires limits.Valid()
  {
    var usual := SummarizeText(PayloadText(m), query, limits.summaryChars);
    if i == 0 && |usual| > limits.chars then SummarizeText(PayloadText(m), query, limits.chars) else usual
  }

  function HitAt(store: Store, query: string, limits: Limits, ranked: seq<MemoryId>, i: nat): Hit
    requires limits.Valid() && i < |ranked| && ranked[i] in store
  {
    var m := store[ranked[i]];
    Hit(ranked[i], Score(m, query, QueryTokens(query)), MatchedTerms(m, QueryTokens(query)),
        SummaryAt(m, query, limits, i))
  }

  function Used(results: seq<Hit>): nat {
    if results == [] then 0 else Used(results[..|results| - 1]) + |results[|results| - 1].summary|
  }

  /** The results are the first `n` ranked candidates. */
  ghost predicate Took(store: Store, query: string, limits: Limits, ranked: seq<MemoryId>, results: seq<Hit>) {
    && limits.Valid() && |results| <= |ranked|
    && forall i :: 0 <= i < |results| ==> ranked[i] in store && results[i] == HitAt(store, query, limits, ranked, i)
  }

  ghost predicate GoodAnswer(store: Store, query: string, limits: Limits, ranked: seq<MemoryId>, a: Answer) {
    && a.Answer? && Took(store, query, limits, ranked, a.results)
    && (ranked != [] ==> a.results != [])
    && |a.results| <= limits.results
    && a.usedChars == Used(a.results) <= limits.chars
    && (forall i :: 0 <= i < |a.results| ==> |a.results[i].summary| <= limits.summaryChars)
    && (a.truncated <==> |a.results| < |ranked|)
    && (a.truncated ==>
          |a.results| == limits.results
          || (ranked[|a.results|] in store
              && a.usedChars + |HitAt(store, query, limits, ranked, |a.results|).summary| > limits.chars))
  }

  lemma SummaryAtFits(m: Memory, query: string, limits: Limits, i: nat)
    requires limits.Valid()
    ensures |SummaryAt(m, query, limits, i)| <= limits.summaryChars
    ensures i == 0 ==> |SummaryAt(m, query, limits, i)| <= limits.chars
  {
    hide SummarizeText, PayloadText;
    SummarizeFits(PayloadText(m), query, limits.summaryChars);
    SummarizeFits(PayloadText(m), query, limits.chars);
  }

  /** What the loop has gathered so far: the first results, their length, all within the limits. */
  ghost predicate Gathered(store: Store, query: string, limits: Limits, ranked: seq<MemoryId>, results: seq<Hit>,
                           used: nat) {
    && Took(store, query, limits, ranked, results)
    && |results| <= limits.results && used == Used(results) <= limits.chars
    && forall k :: 0 <= k < |results| ==> |results[k].summary| <= limits.summaryChars
  }

  lemma NothingGathered(store: Store, query: string, limits: Limits, ranked: seq<MemoryId>)
    requires limits.Valid()
    ensures Gathered(store, query, limits, ranked, [], 0)
  {
  }

  /** One turn of the loop: the next ranked candidate joins if it is the first or still fits. */
  lemma TakeNext(store: Store, query: string, limits: Limits, ranked: seq<MemoryId>, results: seq<Hit>, used: nat)
    requires Gathered(store, query, limits, ranked, results, used)
    requires |results| < |ranked| && |results| < limits.results && ranked[|results|] in store
    requires var hit := HitAt(store, query, limits, ranked, |results|);
             results == [] || used + |hit.summary| <= limits.chars
    ensures var hit := HitAt(store, query, limits, ranked, |results|);
            Gathered(store, query, limits, ranked, results + [hit], used + |hit.summary|)
  {
    hide SummaryAt, MatchedTerms, Score, QueryTokens;
    var i := |results|;
    SummaryAtFits(store[ranked[i]], query, limits, i);
    var more := results + [HitAt(store, query, limits, ranked, i)];
    assert more[..i] == results;
    assert Took(store, query, limits, ranked, more);
  }

  /** query_memories. The ranked candidates are cut where the next one would be one too many or would
      exceed the character budget, and nowhere else. */
  method QueryMemories(store: Store, query: string, filters: Filters, limits: Limits)
    returns (a: Answer, ghost ranked: seq<MemoryId>)
    ensures a.Refused? <==> !limits.Valid() || QueryTokens(Strip(query)) == []
    ensures a.Answer? ==>
              Ranking(store, Strip(query), filters, ranked) && GoodAnswer(store, Strip(query), limits, ranked, a)
  {
    hide QueryTokens, Score, MatchedTerms, SummarizeText, PayloadText, Strip, MatchesFilters;
    hide Took, Used, Before, FirstOf;
    ranked := [];
    var q := Strip(query);
    if q == "" || !limits.Valid() || QueryTokens(q) == [] {
      BlankHasNoTokens();
      return Refused, [];
    }
    var candidates := Candidates(store, q, filters);
    BeforeIsOrder(store, q, candidates);
    var sorted := SortIds(candidates, (a: nat, b: nat) => Before(store, q, a, b));
    ranked := sorted;
    assert forall i :: 0 <= i < |sorted| ==> sorted[i] in candidates by {
      assert forall i :: 0 <= i < |sorted| ==> sorted[i] in Elements(sorted);
    }
    var results: seq<Hit> := [];
    var used: nat, truncated := 0, false;
    assert Gathered(store, q, limits, sorted, results, used) by { NothingGathered(store, q, limits, sorted); }
    for i := 0 to |sorted|
      invariant i == |results| && !truncated
      invariant Gathered(store, q, limits, sorted, results, used)
    {
      if |results| >= limits.results {
        truncated := true;
        break;
      }
      var m := store[sorted[i]];
      var summary := SummarizeText(PayloadText(m), q, limits.summaryChars);
      if results != [] && used + |summary| > limits.chars {
        truncated := true;
        break;
      }
      if results == [] && |summary| > limits.chars {
        summary := SummarizeText(PayloadText(m), q, limits.chars);
      }
      TakeNext(store, q, limits, sorted, results, used);
      used := used + |summary|;
      results := results
                 + [Hit(sorted[i], Score(m, q, QueryTokens(q)), MatchedTerms(m, QueryTokens(q)), summary)];
    }
    a := Answer(results, used, truncated);
  }

  lemma BlankHasNoTokens()
    ensures QueryTokens("") == []
  {
  }

  // ---------- the answer is determined ----------

  lemma {:induction false} RankingsAgree(store: Store, query: string, filters: Filters, r: seq<MemoryId>,
                                         s: seq<MemoryId>, i: nat)
    requires Ranking(store, query, filters, r) && Ranking(store, query, filters, s) && i <= |r|
    ensures |r| == |s| && r[..i] == s[..i]
  {
    hide Candidates, Before;
    if i > 0 {
      RankingsAgree(store, query, filters, r, s, i - 1);
      NextIsBefore(store, query, filters, r, s, i - 1);
      NextIsBefore(store, query, filters, s, r, i - 1);
      BeforeIsStrict(store, query, r[i - 1], s[i - 1]);
    }
  }

  lemma NextIsBefore(store: Store, query: string, filters: Filters, r: seq<MemoryId>, s: seq<MemoryId>, i: nat)
    requires Ranking(store, query, filters, r) && Ranking(store, query, filters, s)
    requires i < |r| == |s| && r[..i] == s[..i]
    ensures Before(store, query, s[i], r[i])
  {
    hide Candidates, Before;
    FirstOfAll(s, Candidates(store, query, filters), None, (a: nat, b: nat) => Before(store, query, a, b));
    assert r[i] in Elements(r);
    assert r[i] in Elements(s);
    forall k | 0 <= k < i ensures s[k] != r[i] {
      assert r[..i][k] == s[..i][k];
    }
    var j :| 0 <= j < |s| && s[j] == r[i];
    if j == i { BeforeItself(store, query, filters, s[i]); }
  }

  lemma BeforeItself(store: Store, query: string, filters: Filters, id: MemoryId)
    requires id in Candidates(store, query, filters)
    ensures Before(store, query, id, id)
  {
  }

  lemma {:induction false} UsedGrows(results: seq<Hit>, n: nat)
    requires n <= |results|
    ensures Used(results[..n]) <= Used(results)
  {
    if n == |results| {
      assert results[..n] == results;
    } else {
      UsedGrows(results[..|results| - 1], n);
      assert results[..|results| - 1][..n] == results[..n];
    }
  }

  lemma NotShorter(store: Store, query: string, limits: Limits, ranked: seq<MemoryId>, a: Answer, b: Answer)
    requires GoodAnswer(store, query, limits, ranked, a) && GoodAnswer(store, query, limits, ranked, b)
    ensures |a.results| >= |b.results|
  {
    hide HitAt, Used;
    var n := Min(|a.results|, |b.results|);
    assert a.results[..n] == b.results[..n];
    assert a.results[..|a.results|] == a.results;
    if |a.results| < |b.results| { NextFits(store, query, limits, ranked, b, |a.results|); }
  }

  lemma NextFits(store: Store, query: string, limits: Limits, ranked: seq<MemoryId>, a: Answer, n: nat)
    requires GoodAnswer(store, query, limits, ranked, a) && n < |a.results|
    ensures n < limits.results
    ensures Used(a.results[..n]) + |HitAt(store, query, limits, ranked, n).summary| <= limits.chars
  {
    hide HitAt, Used;
    UsedGrows(a.results, n + 1);
    UsedNext(a.results, n);
  }

  lemma UsedNext(results: seq<Hit>, n: nat)
    requires n < |results|
    ensures Used(results[..n + 1]) == Used(results[..n]) + |results[n].summary|
  {
    assert results[..n + 1][..n] == results[..n];
  }

  /** The contract of a query leaves no choice: any two answers that meet it are the same. */
  lemma AnswerIsDetermined(store: Store, query: string, filters: Filters, limits: Limits,
                           r: seq<MemoryId>, a: Answer, s: seq<MemoryId>, b: Answer)
    requires Ranking(store, query, filters, r) && GoodAnswer(store, query, limits, r, a)
    requires Ranking(store, query, filters, s) && GoodAnswer(store, query, limits, s, b)
    ensures r == s && a == b
  {
    hide HitAt, Used, Ranking;
    RankingsAgree(store, query, filters, r, s, |r|);
    assert r[..|r|] == r && s[..|s|] == s;
    NotShorter(store, query, limits, r, a, b);
    NotShorter(store, query, limits, r, b, a);
    assert a.results == b.results;
  }
}
