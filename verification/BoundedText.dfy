/** The shortened texts of runtime/session.py: truncate_text and bounded_lines_text. */
module BoundedText {
  import opened Common
  import opened Text

  /** s[:end] with Python's meaning of a negative end. */
  function Slice(s: string, end: int): string {
    if end >= |s| then s else if end >= 0 then s[..end] else if |s| + end > 0 then s[..|s| + end] else []
  }

  const DOTS := "..."

  /** truncate_text of a text that is there. */
  function TruncateText(s: string, limit: int): string {
    if |s| <= limit then s else StripRight(Slice(s, limit - 3)) + DOTS
  }

  /** The limit holds exactly when the text was short enough already or the dots fit. Below three the
      slice counts from the end, and what remains is longer than the limit. */
  lemma TruncateFits(s: string, limit: int)
    ensures |TruncateText(s, limit)| <= limit <==> |s| <= limit || limit >= 3
  {
  }

  /** The first `k` lines, joined by line breaks. */
  function Joined(lines: seq<string>, k: nat): string
    requires k <= |lines|
  {
    if k == 0 then "" else if k == 1 then lines[0] else Joined(lines, k - 1) + "\n" + lines[k - 1]
  }

  const MORE := "\n..."

  /** The text of bounded_lines_text, given that the first `i` lines are already in it. */
  function BoundedFrom(lines: seq<string>, i: nat, text: string, max: int): string
    requires i <= |lines|
    decreases |lines| - i
  {
    if i == |lines| then text
    else
      var candidate := if i == 0 then lines[i] else "\n" + lines[i];
      if |text| + |candidate| <= max then BoundedFrom(lines, i + 1, text + candidate, max)
      else if i > 0 then text + MORE
      else
        var cut := TruncateText(lines[0], max);
        if cut != "" then cut else Slice(lines[0], max)
  }

  function BoundedLines(lines: seq<string>, max: int): string { BoundedFrom(lines, 0, "", max) }

  /** bounded_lines_text */
  method BoundedLinesText(lines: seq<string>, max: int) returns (text: string)
    ensures text == BoundedLines(lines, max)
  {
    text := "";
    for i := 0 to |lines|
      invariant BoundedFrom(lines, i, text, max) == BoundedLines(lines, max)
    {
      var candidate := if i == 0 then lines[i] else "\n" + lines[i];
      if |text| + |candidate| > max {
        if i == 0 {
          text := TruncateText(lines[0], max);
          return if text != "" then text else Slice(lines[0], max);
        }
        return text + MORE;
      }
      text := text + candidate;
    }
  }

  /** `text` is the longest prefix of whole lines that fits, marked if lines were left out. */
  predicate CutAfter(lines: seq<string>, k: nat, max: int, text: string) {
    && 0 < k < |lines| && |Joined(lines, k)| <= max < |Joined(lines, k + 1)|
    && text == Joined(lines, k) + MORE
  }

  predicate CutSomewhere(lines: seq<string>, max: int, text: string) {
    exists k: nat :: k <= |lines| && CutAfter(lines, k, max, text)
  }

  predicate AllFit(lines: seq<string>, max: int) { |Joined(lines, |lines|)| <= max }

  lemma JoinedNext(lines: seq<string>, i: nat)
    requires i < |lines|
    ensures Joined(lines, i + 1) == Joined(lines, i) + (if i == 0 then lines[i] else "\n" + lines[i])
    ensures |Joined(lines, i)| <= |Joined(lines, i + 1)|
  {
  }

  lemma {:induction false} JoinedGrows(lines: seq<string>, i: nat, j: nat)
    requires i <= j <= |lines|
    ensures |Joined(lines, i)| <= |Joined(lines, j)|
  {
    if i < j {
      JoinedGrows(lines, i, j - 1);
      JoinedNext(lines, j - 1);
    }
  }

  lemma {:induction false} BoundedFromHolds(lines: seq<string>, i: nat, max: int)
    requires i <= |lines| && |Joined(lines, i)| <= max
    ensures AllFit(lines, max) ==> BoundedFrom(lines, i, Joined(lines, i), max) == Joined(lines, |lines|)
    ensures !AllFit(lines, max) && |lines[0]| <= max ==>
              CutSomewhere(lines, max, BoundedFrom(lines, i, Joined(lines, i), max))
    ensures !AllFit(lines, max) && |lines[0]| > max ==>
              BoundedFrom(lines, i, Joined(lines, i), max) == TruncateText(lines[0], max)
    decreases |lines| - i
  {
    if i < |lines| {
      JoinedNext(lines, i);
      JoinedGrows(lines, i + 1, |lines|);
      if |Joined(lines, i + 1)| <= max {
        BoundedFromHolds(lines, i + 1, max);
        assert BoundedFrom(lines, i, Joined(lines, i), max) == BoundedFrom(lines, i + 1, Joined(lines, i + 1), max);
      } else if i > 0 {
        JoinedGrows(lines, 1, i);
        assert CutAfter(lines, i, max, Joined(lines, i) + MORE);
      } else {
        assert TruncateText(lines[0], max) != "";
      }
    }
  }

  /** What the text is: all lines if they fit; otherwise the whole lines that fit and a mark; only a
      first line that is too long by itself is cut inside. */
  lemma BoundedHolds(lines: seq<string>, max: nat)
    ensures AllFit(lines, max) ==> BoundedLines(lines, max) == Joined(lines, |lines|)
    ensures !AllFit(lines, max) && |lines[0]| <= max ==> CutSomewhere(lines, max, BoundedLines(lines, max))
    ensures !AllFit(lines, max) && |lines[0]| > max ==> BoundedLines(lines, max) == TruncateText(lines[0], max)
  {
    BoundedFromHolds(lines, 0, max);
  }

  predicate BlankBetween(line: string, n: int, m: int) {
    forall p :: 0 <= p < |line| && n <= p < m ==> IsSpace(line[p])
  }

  /** A line cut for a limit below three is within four characters of the limit exactly when what is left of
      it is white space but for its beginning. */
  lemma SmallLimitFits(line: string, max: nat)
    requires max < 3 && |line| > max
    ensures |TruncateText(line, max)| <= max + 4 <==> BlankBetween(line, max + 1, |line| + max - 3)
  {
    var kept := Slice(line, max - 3);
    StripRightFits(kept, max + 1);
    assert forall p :: 0 <= p < |kept| ==> kept[p] == line[p];
  }

  /** The text is at most four characters over its limit exactly when the limit is at least three, or the
      first line is within it, or the first line is white space from one place after the limit up to the
      end that the small limit cuts off. */
  lemma BoundedFits(lines: seq<string>, max: nat)
    requires lines != []
    ensures |BoundedLines(lines, max)| <= max + 4 <==>
              max >= 3 || |lines[0]| <= max || BlankBetween(lines[0], max + 1, |lines[0]| + max - 3)
  {
    hide BoundedLines, BlankBetween, TruncateText;
    BoundedHolds(lines, max);
    JoinedGrows(lines, 1, |lines|);
    TruncateFits(lines[0], max);
    if max < 3 && |lines[0]| > max { SmallLimitFits(lines[0], max); }
    if !AllFit(lines, max) && |lines[0]| <= max {
      var k: nat :| k <= |lines| && CutAfter(lines, k, max, BoundedLines(lines, max));
    }
  }

  /** Four is the least such number: a text may be over its limit by just that. */
  lemma FourOverIsReached(line: string, more: string)
    requires more != ""
    ensures |BoundedLines([line, more], |line|)| == |line| + 4
  {
    var lines := [line, more];
    assert "" + line == line;
    assert BoundedFrom(lines, 0, "", |line|) == BoundedFrom(lines, 1, line, |line|) == line + MORE;
  }
}
