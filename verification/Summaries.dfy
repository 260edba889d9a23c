/** summarize_text of runtime/memory.py: a text cut around the first place where the query occurs, and
    exactly when what was found is still there after the cut. */
module Summaries {
  import opened Common
  import opened Text
  import opened BoundedText

  // ---------- searching text ----------

  function LowerChar(c: char): char { if 'A' <= c <= 'Z' then c + 32 as char else c }

  function Lower(s: string): string { seq(|s|, i requires 0 <= i < |s| => LowerChar(s[i])) }

  predicate OccursAt(s: string, part: string, i: nat) { i + |part| <= |s| && s[i..i + |part|] == part }

  /** s.find(part), looking from `i` on. */
  function FindFrom(s: string, part: string, i: nat): (r: Option<nat>)
    requires i <= |s|
    ensures r.Some? ==> i <= r.value <= |s| && OccursAt(s, part, r.value) && forall k :: i <= k < r.value ==>
              !OccursAt(s, part, k)
    ensures r.None? ==> forall k :: i <= k <= |s| ==> !OccursAt(s, part, k)
    decreases |s| - i
  {
    if OccursAt(s, part, i) then Some(i) else if i == |s| then None else FindFrom(s, part, i + 1)
  }

  predicate Contains(s: string, part: string) { FindFrom(s, part, 0).Some? }

  // ---------- the summary ----------

  /** Where the window around a match begins: a third of it before the match, unless the window would begin
      before the text or, moved back for that reason, end after it. */
  function WindowStart(text: string, index: nat, max: nat): (start: nat)
    requires index <= |text| && max < |text|
    ensures start + max <= |text| && start <= index
  {
    var from := Max(index - max / 3, 0);
    if from + max > |text| then |text| - max else from
  }

  function Window(text: string, index: nat, max: nat): (window: string)
    requires index <= |text| && max < |text|
    ensures |window| == max
  {
    text[WindowStart(text, index, max)..WindowStart(text, index, max) + max]
  }

  function FrontMark(text: string, index: nat, max: nat): string
    requires index <= |text| && max < |text|
  {
    if WindowStart(text, index, max) > 0 then DOTS else ""
  }

  function BackMark(text: string, index: nat, max: nat): string
    requires index <= |text| && max < |text|
  {
    if WindowStart(text, index, max) + max < |text| then DOTS else ""
  }

  function Snippet(text: string, index: nat, max: nat): string
    requires index <= |text| && max < |text|
  {
    FrontMark(text, index, max) + Strip(Window(text, index, max)) + BackMark(text, index, max)
  }

  function Cut(s: string, max: nat): string
    requires 3 <= max <= |s|
  {
    StripRight(s[..max - 3]) + DOTS
  }

  /** summarize_text */
  function SummarizeText(text: string, query: string, max: nat): string {
    if max <= 3 then Slice(text, max)
    else if |text| <= max then text
    else
      match FindFrom(Lower(text), Lower(query), 0)
      case None => Cut(text, max)
      case Some(index) =>
        var snippet := Snippet(text, index, max);
        if |snippet| > max then Cut(snippet, max) else snippet
  }

  /** A summary never exceeds its limit, and it is the text itself exactly when the text fits. */
  lemma SummarizeFits(text: string, query: string, max: nat)
    ensures |SummarizeText(text, query, max)| <= max
    ensures SummarizeText(text, query, max) == text <==> |text| <= max
  {
    hide Snippet, Lower;
  }

  // ---------- what is found ----------

  predicate Shows(s: string, part: string) { exists k: nat :: k <= |s| && OccursAt(s, part, k) }

  lemma ShowsAt(s: string, part: string, k: nat)
    requires OccursAt(s, part, k)
    ensures Shows(s, part)
  {
  }

  /** `part` is what stands in the text where the query was found first. */
  predicate FoundFirst(text: string, query: string, index: nat, part: string) {
    && FindFrom(Lower(text), Lower(query), 0) == Some(index) && OccursAt(text, part, index) && |part| == |query|
  }

  lemma LowerAt(s: string, i: nat, n: nat)
    requires i + n <= |s|
    ensures Lower(s)[i..i + n] == Lower(s[i..i + n])
  {
  }

  /** What was found occurs nowhere before. */
  lemma NotBefore(text: string, query: string, index: nat, part: string, t: nat)
    requires FoundFirst(text, query, index, part) && OccursAt(text, part, t)
    ensures index <= t
  {
    LowerAt(text, index, |part|);
    LowerAt(text, t, |part|);
    assert OccursAt(Lower(text), Lower(query), t);
  }

  lemma LowerKeeps(s: string, k: nat)
    requires k < |s|
    ensures IsSpace(Lower(s)[k]) <==> IsSpace(s[k])
    ensures Lower(s)[k] == '.' <==> s[k] == '.'
  {
  }

  /** It has no blank ends and no dots if the query has none. */
  lemma FoundIsLikeQuery(text: string, query: string, index: nat, part: string)
    requires FoundFirst(text, query, index, part)
    ensures Clean(query) ==> Clean(part)
    ensures '.' !in query ==> '.' !in part
  {
    LowerAt(text, index, |part|);
    assert Lower(part) == Lower(query);
    forall k | 0 <= k < |part|
      ensures (IsSpace(part[k]) <==> IsSpace(query[k])) && (part[k] == '.' <==> query[k] == '.')
    {
      LowerKeeps(part, k);
      LowerKeeps(query, k);
    }
  }

  // ---------- where it stands in the snippet ----------

  /** How many blanks stripping takes off the front. */
  function Lead(s: string): nat { |s| - |StripLeft(s)| }

  /** Where the stripped text lies in the text. */
  lemma StripIsSlice(s: string)
    ensures Lead(s) + |Strip(s)| <= |s| && Strip(s) == s[Lead(s)..Lead(s) + |Strip(s)|]
  {
    LeftIsSuffix(s);
    RightIsPrefix(StripLeft(s));
  }

  lemma {:induction false} LeftIsSuffix(s: string)
    ensures StripLeft(s) == s[Lead(s)..]
  {
    if s != [] && IsSpace(s[0]) { LeftIsSuffix(s[1..]); }
  }

  lemma {:induction false} RightIsPrefix(s: string)
    ensures StripRight(s) == s[..|StripRight(s)|]
  {
    if s != [] && IsSpace(s[|s| - 1]) { RightIsPrefix(s[..|s| - 1]); }
  }

  /** A piece with characters at both its ends lies in the stripped text. */
  lemma CleanPieceSurvives(s: string, at: nat, size: nat)
    requires 0 < size && at + size <= |s| && !IsSpace(s[at]) && !IsSpace(s[at + size - 1])
    ensures Lead(s) <= at && at + size <= Lead(s) + |Strip(s)|
  {
    var i, j := StripKeeps(s, at, at + size - 1);
    var k := StripLeftKeeps(s, at);
    var rest := s[k..];
    var end := StripRightKeeps(rest, at + size - 1 - k);
  }

  /** The place of what was found in the snippet. */
  function Place(text: string, index: nat, max: nat): int
    requires index <= |text| && max < |text|
  {
    |FrontMark(text, index, max)| + (index - WindowStart(text, index, max)) - Lead(Window(text, index, max))
  }

  /** An occurrence in the stripped window is one in the text, and the other way round. */
  lemma WindowOccurrence(text: string, index: nat, max: nat, part: string, k: nat)
    requires index <= |text| && max < |text|
    ensures var window, start := Window(text, index, max), WindowStart(text, index, max);
            k + |part| <= |Strip(window)| ==>
              (OccursAt(Strip(window), part, k) <==> OccursAt(text, part, start + Lead(window) + k))
  {
    var window, start := Window(text, index, max), WindowStart(text, index, max);
    StripIsSlice(window);
    if k + |part| <= |Strip(window)| {
      var a := Strip(window)[k..k + |part|];
      var b := text[start + Lead(window) + k..start + Lead(window) + k + |part|];
      forall p | 0 <= p < |part| ensures a[p] == b[p] {
        assert Strip(window)[k + p] == window[Lead(window) + k + p];
      }
      assert a == b;
    }
  }

  // ---------- occurrences between marks ----------

  /** Marks consist of dots. */
  predicate Mark(s: string) { forall c :: c in s ==> c == '.' }

  /** In marked text a part without dots occurs only inside the text, between the marks. */
  lemma BetweenMarks(front: string, s: string, back: string, part: string, k: nat)
    requires Mark(front) && Mark(back) && '.' !in part && part != ""
    requires OccursAt(front + s + back, part, k)
    ensures |front| <= k && k + |part| <= |front| + |s| && OccursAt(s, part, k - |front|)
  {
    var whole, size := front + s + back, |part|;
    assert whole[k..k + size][0] == whole[k] && whole[k..k + size][size - 1] == whole[k + size - 1];
    assert whole[k] in part && whole[k + size - 1] in part;
    assert forall p :: 0 <= p < |front| ==> whole[p] == front[p] && front[p] in front;
    forall q | |front| + |s| <= q < |whole| ensures whole[q] == '.' {
      assert whole[q] == back[q - |front| - |s|] && back[q - |front| - |s|] in back;
    }
    var a, b := s[k - |front|..k - |front| + size], whole[k..k + size];
    forall p | 0 <= p < size ensures a[p] == b[p] {
      assert whole[k + p] == s[k - |front| + p];
    }
  }

  lemma InsideMarks(front: string, s: string, back: string, part: string, k: nat)
    requires OccursAt(s, part, k)
    ensures OccursAt(front + s + back, part, |front| + k)
  {
    var whole, size := front + s + back, |part|;
    var a, b := whole[|front| + k..|front| + k + size], s[k..k + size];
    forall p | 0 <= p < size ensures a[p] == b[p] {
      assert whole[|front| + k + p] == s[k + p];
    }
  }

  // ---------- the law ----------

  /** What was found is not cut off: it lies in the window, and either the snippet needs no cut or it ends
      before the cut. Limits up to three and texts that fit know no snippet. */
  predicate MatchStands(text: string, index: nat, size: nat, max: nat)
    requires index <= |text|
  {
    if |text| <= max then true
    else if max <= 3 then index + size <= max
    else
      && index + size <= WindowStart(text, index, max) + max
      && (|Snippet(text, index, max)| <= max || Place(text, index, max) + size <= max - 3)
  }

  lemma MarksAreMarks(text: string, index: nat, max: nat)
    requires index <= |text| && max < |text|
    ensures Mark(FrontMark(text, index, max)) && Mark(BackMark(text, index, max)) && Mark(DOTS)
  {
  }

  /** What was found lies in the window where it should, or not at all. */
  lemma InWindow(text: string, query: string, index: nat, part: string, max: nat)
    requires FoundFirst(text, query, index, part) && Clean(part) && max < |text|
    requires index + |part| <= WindowStart(text, index, max) + max
    ensures var k := Place(text, index, max) - |FrontMark(text, index, max)|;
            0 <= k && k + |part| <= |Strip(Window(text, index, max))|
            && OccursAt(Strip(Window(text, index, max)), part, k)
  {
    hide Strip, WindowStart, FrontMark;
    var window, start := Window(text, index, max), WindowStart(text, index, max);
    var at := index - start;
    assert text[index..index + |part|][0] == text[index] == window[at];
    assert text[index..index + |part|][|part| - 1] == text[index + |part| - 1] == window[at + |part| - 1];
    CleanPieceSurvives(window, at, |part|);
    WindowOccurrence(text, index, max, part, at - Lead(window));
  }

  /** Any occurrence in the stripped window is not before it. */
  lemma OnlyInWindow(text: string, query: string, index: nat, part: string, max: nat, k: nat)
    requires FoundFirst(text, query, index, part) && max < |text|
    requires OccursAt(Strip(Window(text, index, max)), part, k)
    ensures Place(text, index, max) - |FrontMark(text, index, max)| <= k
    ensures index + |part| <= WindowStart(text, index, max) + max
  {
    hide Strip, WindowStart, FrontMark;
    var window, start := Window(text, index, max), WindowStart(text, index, max);
    StripIsSlice(window);
    WindowOccurrence(text, index, max, part, k);
    NotBefore(text, query, index, part, start + Lead(window) + k);
  }

  /** The snippet shows what was found exactly when it lies in the window. */
  lemma SnippetShows(text: string, query: string, index: nat, part: string, max: nat)
    requires FoundFirst(text, query, index, part) && Clean(part) && '.' !in part && max < |text|
    ensures Shows(Snippet(text, index, max), part) <==> index + |part| <= WindowStart(text, index, max) + max
  {
    hide Strip, WindowStart, FrontMark, BackMark, Mark;
    MarksAreMarks(text, index, max);
    var front, back := FrontMark(text, index, max), BackMark(text, index, max);
    var inside := Strip(Window(text, index, max));
    if index + |part| <= WindowStart(text, index, max) + max {
      InWindow(text, query, index, part, max);
      var k := Place(text, index, max) - |front|;
      InsideMarks(front, inside, back, part, k);
      ShowsAt(front + inside + back, part, |front| + k);
    }
    if Shows(Snippet(text, index, max), part) {
      var k: nat :| k <= |Snippet(text, index, max)| && OccursAt(front + inside + back, part, k);
      BetweenMarks(front, inside, back, part, k);
      OnlyInWindow(text, query, index, part, max, k - |front|);
    }
  }

  /** A part that ends in a character stands in a cut text exactly where it stands before the cut. */
  lemma CutOccurrence(s: string, max: nat, part: string, k: nat)
    requires 3 <= max <= |s| && Clean(part) && '.' !in part
    ensures OccursAt(Cut(s, max), part, k) <==> OccursAt(s, part, k) && k + |part| <= max - 3
  {
    hide StripRight, Mark;
    var kept := StripRight(s[..max - 3]);
    RightIsPrefix(s[..max - 3]);
    assert kept == s[..|kept|];
    DotsAreMark();
    if OccursAt(Cut(s, max), part, k) {
      assert "" + kept + DOTS == Cut(s, max);
      BetweenMarks("", kept, DOTS, part, k);
      assert kept[k..k + |part|] == s[k..k + |part|];
    }
    if OccursAt(s, part, k) && k + |part| <= max - 3 {
      assert s[k..k + |part|][|part| - 1] == s[k + |part| - 1] == s[..max - 3][k + |part| - 1];
      var j := StripRightKeeps(s[..max - 3], k + |part| - 1);
      assert Cut(s, max)[k..k + |part|] == s[k..k + |part|];
    }
  }

  lemma DotsAreMark()
    ensures Mark("") && Mark(DOTS)
  {
  }

  /** A snippet that has to be cut shows what was found exactly when it ends before the cut. */
  lemma CutSnippetShows(text: string, query: string, index: nat, part: string, max: nat)
    requires FoundFirst(text, query, index, part) && Clean(part) && '.' !in part && 3 < max < |text|
    requires |Snippet(text, index, max)| > max
    ensures Shows(Cut(Snippet(text, index, max), max), part) <==>
              index + |part| <= WindowStart(text, index, max) + max && Place(text, index, max) + |part| <= max - 3
  {
    hide Strip, WindowStart, FrontMark, BackMark, Mark, Cut;
    MarksAreMarks(text, index, max);
    var front, back := FrontMark(text, index, max), BackMark(text, index, max);
    var inside := Strip(Window(text, index, max));
    var snippet := Snippet(text, index, max);
    if index + |part| <= WindowStart(text, index, max) + max && Place(text, index, max) + |part| <= max - 3 {
      InWindow(text, query, index, part, max);
      var k := Place(text, index, max) - |front|;
      InsideMarks(front, inside, back, part, k);
      CutOccurrence(snippet, max, part, |front| + k);
      ShowsAt(Cut(snippet, max), part, |front| + k);
    }
    if Shows(Cut(snippet, max), part) {
      var k: nat :| k <= |Cut(snippet, max)| && OccursAt(Cut(snippet, max), part, k);
      CutOccurrence(snippet, max, part, k);
      BetweenMarks(front, inside, back, part, k);
      OnlyInWindow(text, query, index, part, max, k - |front|);
    }
  }

  lemma SmallLimitShows(text: string, query: string, index: nat, part: string, max: nat)
    requires FoundFirst(text, query, index, part) && max < |text|
    ensures Shows(text[..max], part) <==> index + |part| <= max
  {
    if index + |part| <= max {
      assert text[..max][index..index + |part|] == text[index..index + |part|];
      ShowsAt(text[..max], part, index);
    }
    if Shows(text[..max], part) {
      var k: nat :| k <= max && OccursAt(text[..max], part, k);
      assert text[..max][k..k + |part|] == text[k..k + |part|];
      NotBefore(text, query, index, part, k);
    }
  }

  /** For a query without dots and without blanks at its ends, the summary shows what was found exactly when
      it is not cut off. */
  lemma SummaryShowsMatch(text: string, query: string, max: nat)
    requires Clean(query) && '.' !in query && FindFrom(Lower(text), Lower(query), 0).Some?
    ensures var index := FindFrom(Lower(text), Lower(query), 0).value;
            index + |query| <= |text|
            && (Shows(SummarizeText(text, query, max), text[index..index + |query|])
                <==> MatchStands(text, index, |query|, max))
  {
    hide Snippet, Cut, Shows, Place, WindowStart, StripRight;
    var index := FindFrom(Lower(text), Lower(query), 0).value;
    var part := text[index..index + |query|];
    FoundIsLikeQuery(text, query, index, part);
    if |text| <= max {
      ShowsAt(text, part, index);
      SummarizeFits(text, query, max);
    } else if max <= 3 {
      SmallLimitShows(text, query, index, part, max);
    } else if |Snippet(text, index, max)| > max {
      CutSnippetShows(text, query, index, part, max);
    } else {
      SnippetShows(text, query, index, part, max);
    }
  }

  // ---------- the same for every query ----------

  lemma InsideIsClean(text: string, index: nat, max: nat)
    requires index <= |text| && max < |text|
    ensures var inside := Strip(Window(text, index, max)); inside == "" || Clean(inside)
  {
    StripIsClean(Window(text, index, max));
  }

  lemma MarkPrefix(mark: string, n: nat)
    requires Mark(mark) && n <= |mark|
    ensures Mark(mark[..n]) && StripRight(mark[..n]) == mark[..n]
  {
    forall c | c in mark[..n] ensures c == '.' { assert c in mark; }
    if n > 0 { assert mark[..n][n - 1] in mark; }
  }

  lemma MarksJoin(a: string, b: string)
    requires Mark(a) && Mark(b)
    ensures Mark(a + b)
  {
  }

  /** Cutting marked text in its text: the front mark stays, and of the text what ends in a character. */
  lemma CutInText(front: string, s: string, c: nat) returns (kept: nat)
    requires Mark(front) && (s == "" || Clean(s)) && c <= |s|
    ensures kept <= c && StripRight(front + s[..c]) == front + s[..kept]
    ensures forall p :: 0 <= p < c && !IsSpace(s[p]) ==> p < kept
  {
    hide Mark, Strip;
    var whole := front + s[..c];
    if c == 0 {
      kept := 0;
      assert whole == front[..|front|] && s[..0] == "" && front + "" == front;
      MarkPrefix(front, |front|);
    } else {
      assert whole[|front|] == s[0];
      var j := StripRightKeeps(whole, |front|);
      kept := j - |front|;
      assert whole[..j] == front + s[..kept];
      forall p | 0 <= p < c && !IsSpace(s[p]) ensures p < kept {
        assert whole[|front| + p] == s[p];
        var i := StripRightKeeps(whole, |front| + p);
        assert |whole[..i]| == |whole[..j]|;
      }
    }
  }

  /** Cutting marked text in its back mark leaves the text. */
  lemma CutInMark(front: string, s: string, back: string, n: nat)
    requires Mark(back) && 0 < n <= |back|
    ensures StripRight(front + s + back[..n]) == front + s + back[..n]
  {
    var whole := front + s + back[..n];
    assert whole[|whole| - 1] == back[n - 1] && back[n - 1] in back;
  }

  /** The stripped window as a slice of the text, and what was found in it. */
  lemma InsideIsSlice(text: string, query: string, index: nat, part: string, max: nat) returns (from: nat)
    requires FoundFirst(text, query, index, part) && Clean(part) && max < |text|
    ensures var inside := Strip(Window(text, index, max));
            && from + |inside| <= WindowStart(text, index, max) + max <= |text|
            && inside == text[from..from + |inside|]
            && Place(text, index, max) == |FrontMark(text, index, max)| + index - from
            && (index + |part| <= WindowStart(text, index, max) + max
                <==> from <= index && index + |part| <= from + |inside|)
  {
    hide Strip, WindowStart, FrontMark;
    var window, start := Window(text, index, max), WindowStart(text, index, max);
    StripIsSlice(window);
    from := start + Lead(window);
    SliceOfSlice(text, start, start + max, Lead(window), |Strip(window)|);
    if index + |part| <= start + max { InWindow(text, query, index, part, max); }
  }

  lemma SliceOfSlice(s: string, from: nat, end: nat, at: nat, size: nat)
    requires from + at + size <= end <= |s|
    ensures s[from..end][at..at + size] == s[from + at..from + at + size]
  {
    var window := s[from..end];
    var a, b := window[at..at + size], s[from + at..from + at + size];
    forall p | 0 <= p < size ensures a[p] == b[p] {
      assert window[at + p] == s[from + at + p];
    }
  }

  /** Cut marked text is a slice of the text between marks; a character of it that is no blank lies in that
      slice exactly when it stands before the cut. */
  lemma CutKeeps(front: string, s: string, back: string, max: nat) returns (front': string, kept: nat, back': string)
    requires Mark(front) && Mark(back) && (s == "" || Clean(s)) && 3 < max < |front + s + back|
    ensures Mark(front') && Mark(back') && kept <= |s|
    ensures Cut(front + s + back, max) == front' + s[..kept] + back'
    ensures forall p :: 0 <= p < |s| && !IsSpace(s[p]) ==> (p < kept <==> |front| + p < max - 3)
  {
    hide Mark, Strip;
    var whole, cut := front + s + back, max - 3;
    DotsAreMark();
    if cut <= |front| {
      front', kept, back' := front[..cut], 0, DOTS;
      assert whole[..cut] == front[..cut] && s[..0] == "" && front[..cut] + "" == front[..cut];
      MarkPrefix(front, cut);
    } else if cut <= |front| + |s| {
      kept := CutInText(front, s, cut - |front|);
      front', back' := front, DOTS;
      assert whole[..cut] == front + s[..cut - |front|];
    } else {
      var n := cut - |front| - |s|;
      front', kept, back' := front, |s|, back[..n] + DOTS;
      assert whole[..cut] == front + s + back[..n] && s[..kept] == s;
      CutInMark(front, s, back, n);
      MarkPrefix(back, n);
      MarksJoin(back[..n], DOTS);
      assert front + s + back[..n] + DOTS == front + s + (back[..n] + DOTS);
    }
  }

  lemma CutSnippetKeeps(text: string, query: string, index: nat, part: string, max: nat)
    returns (front: string, a: nat, b: nat, back: string)
    requires FoundFirst(text, query, index, part) && Clean(part) && 3 < max < |text|
    requires |Snippet(text, index, max)| > max
    ensures Mark(front) && Mark(back) && a <= b <= |text|
    ensures Cut(Snippet(text, index, max), max) == front + text[a..b] + back
    ensures a <= index && index + |part| <= b
            <==> index + |part| <= WindowStart(text, index, max) + max && Place(text, index, max) + |part| <= max - 3
  {
    hide Strip, WindowStart, FrontMark, BackMark, Mark, Cut, Place, Window, FindFrom, Lower;
    MarksAreMarks(text, index, max);
    InsideIsClean(text, index, max);
    var from := InsideIsSlice(text, query, index, part, max);
    var inside := Strip(Window(text, index, max));
    var kept;
    front, kept, back := CutKeeps(FrontMark(text, index, max), inside, BackMark(text, index, max), max);
    a, b := from, from + kept;
    SliceOfSlice(text, from, from + |inside|, 0, kept);
    assert inside[..kept] == inside[0..0 + kept];
    if from <= index && index + |part| <= from + |inside| {
      var p := index - from + |part| - 1;
      assert part == text[index..index + |part|];
      assert part[|part| - 1] == text[index + |part| - 1] == inside[p];
    }
  }

  lemma SnippetKeeps(text: string, query: string, index: nat, part: string, max: nat)
    returns (front: string, a: nat, b: nat, back: string)
    requires FoundFirst(text, query, index, part) && Clean(part) && 3 < max < |text|
    ensures Mark(front) && Mark(back) && a <= b <= |text|
    ensures Snippet(text, index, max) == front + text[a..b] + back
    ensures a <= index && index + |part| <= b <==> index + |part| <= WindowStart(text, index, max) + max
  {
    hide Strip, WindowStart, FrontMark, BackMark, Mark, Place, Window, FindFrom, Lower;
    MarksAreMarks(text, index, max);
    var from := InsideIsSlice(text, query, index, part, max);
    front, back := FrontMark(text, index, max), BackMark(text, index, max);
    a, b := from, from + |Strip(Window(text, index, max))|;
  }

  /** Whatever the query, the summary is a slice of the text between marks, and what was found lies in that
      slice exactly when it is not cut off. */
  lemma SummaryKeepsMatch(text: string, query: string, max: nat)
    returns (front: string, a: nat, b: nat, back: string)
    requires Clean(query) && FindFrom(Lower(text), Lower(query), 0).Some? && 3 < max < |text|
    ensures Mark(front) && Mark(back) && a <= b <= |text|
    ensures SummarizeText(text, query, max) == front + text[a..b] + back
    ensures var index := FindFrom(Lower(text), Lower(query), 0).value;
            a <= index && index + |query| <= b <==> MatchStands(text, index, |query|, max)
  {
    hide Snippet, Cut, Place, WindowStart, Mark;
    var index := FindFrom(Lower(text), Lower(query), 0).value;
    var part := text[index..index + |query|];
    FoundIsLikeQuery(text, query, index, part);
    if |Snippet(text, index, max)| > max {
      front, a, b, back := CutSnippetKeeps(text, query, index, part, max);
    } else {
      front, a, b, back := SnippetKeeps(text, query, index, part, max);
    }
  }

  // ---------- the end of the text ----------

  /** The window would end after the text and was moved back. */
  predicate Moved(text: string, index: nat, max: nat) { index - max / 3 + max > |text| }

  lemma MovedSnippet(text: string, index: nat, max: nat)
    requires index <= |text| && 3 < max < |text| && Moved(text, index, max)
    requires !IsSpace(text[|text| - max]) && !IsSpace(text[|text| - 1])
    ensures WindowStart(text, index, max) == |text| - max
    ensures Snippet(text, index, max) == DOTS + text[|text| - max..]
    ensures Place(text, index, max) == 3 + index - (|text| - max)
  {
    var window := Window(text, index, max);
    assert window == text[|text| - max..];
    assert Clean(window);
    CleanStays(window);
  }

  /** A moved window without blanks at its ends always loses the last six characters of the text; so what
      was found is shown exactly when it ends before them. */
  lemma MovedWindowLosesEnd(text: string, query: string, max: nat)
    requires 6 <= max < |text| && FindFrom(Lower(text), Lower(query), 0).Some?
    requires Moved(text, FindFrom(Lower(text), Lower(query), 0).value, max)
    requires !IsSpace(text[|text| - max]) && !IsSpace(text[|text| - 1])
    ensures SummarizeText(text, query, max) == StripRight(DOTS + text[|text| - max..|text| - 6]) + DOTS
    ensures Clean(query) && '.' !in query ==>
              var index := FindFrom(Lower(text), Lower(query), 0).value;
              index + |query| <= |text|
              && (Shows(SummarizeText(text, query, max), text[index..index + |query|]) <==>
                    index + |query| <= |text| - 6)
  {
    hide Snippet, Shows, Place, WindowStart, StripRight;
    var index := FindFrom(Lower(text), Lower(query), 0).value;
    MovedSnippet(text, index, max);
    assert (DOTS + text[|text| - max..])[..max - 3] == DOTS + text[|text| - max..|text| - 6];
    if Clean(query) && '.' !in query { SummaryShowsMatch(text, query, max); }
  }

  function Filler(n: nat): string { seq(n, i requires 0 <= i < n => 'x') }

  lemma KeyIsFound(n: nat)
    ensures FindFrom(Lower(Filler(n) + "key"), Lower("key"), 0) == Some(n)
  {
    var low, part := Lower(Filler(n) + "key"), Lower("key");
    assert part == "key" && |low| == n + 3;
    assert low[n..n + 3] == part;
    assert OccursAt(low, part, n);
    forall k | 0 <= k < n ensures !OccursAt(low, part, k) {
      assert low[k] == 'x' && (k + 3 <= |low| ==> low[k..k + 3][0] == low[k]);
    }
  }

  /** The witness, for every limit from six on and every longer text of this kind, such as 300 characters at the usual
      limit of 240: a match at the very end is not in the summary that was cut around it. */
  lemma MatchAtEndIsCutOff(n: nat, max: nat)
    requires 6 <= max < n + 3
    ensures !Shows(SummarizeText(Filler(n) + "key", "key", max), "key")
  {
    hide SummarizeText, Shows, FindFrom, Lower;
    var text, query := Filler(n) + "key", "key";
    KeyIsFound(n);
    assert forall k :: 0 <= k < |text| ==> !IsSpace(text[k]);
    MovedWindowLosesEnd(text, query, max);
    assert text[n..n + |query|] == query;
  }
}
