/** The chat reply view of the medai front end: the test that decides whether an
    assistant reply is a medical record, and the line-by-line rendering of a record.
    Every regular expression of the original is re-expressed as a scanner over
    positions of the string. */
module RecordView {
  import opened Text
  import opened Wrappers

  datatype Role = User | Assistant

  /** The 25 fixed section words whose presence marks a reply as a record. */
  const Keywords: seq<string> := [
    "病历记录", "Medical Record", "患者信息", "主诉", "Chief Complaint",
    "现病史", "Present Illness", "既往史", "Past Medical History",
    "过敏史", "Allergies", "家族史", "Family History",
    "体格检查", "Physical Examination", "辅助检查", "Auxiliary Examination",
    "诊断", "Diagnosis", "处置意见", "Treatment Plan",
    "中医辩证", "TCM Diagnosis", "中药处方", "TCM Prescription"]

  /** Phrases that mark the introductory sentence of a record. */
  const IntroMarkers: seq<string> := ["根据您提供的资料", "我将整理成病历记录"]

  const RecordTitle: string := "医疗记录 / Medical Record"

  const FullWidthColon: char := '：'

  predicate HasKeyword(content: string) {
    exists k :: 0 <= k < |Keywords| && Contains(content, Keywords[k])
  }

  // ---------------------------------------------------------------------
  // Scanners

  predicate NoStarBetween(s: string, i: int, j: int) {
    forall k :: i <= k < j && 0 <= k < |s| ==> s[k] != '*'
  }

  /** The first position at or after i holding a '*' (or |s|). */
  function SkipNonStar(s: string, i: nat): (j: nat)
    requires i <= |s|
    ensures i <= j <= |s|
    ensures NoStarBetween(s, i, j)
    ensures j < |s| ==> s[j] == '*'
    decreases |s| - i
  {
    if i == |s| || s[i] == '*' then i else SkipNonStar(s, i + 1)
  }

  predicate IsDigit(c: char) { '0' <= c <= '9' }

  /** The first position at or after i that is not an ASCII digit (or |s|). */
  function SkipDigits(s: string, i: nat): (j: nat)
    requires i <= |s|
    ensures i <= j <= |s|
    ensures forall k :: i <= k < j ==> IsDigit(s[k])
    ensures j < |s| ==> !IsDigit(s[j])
    decreases |s| - i
  {
    if i == |s| || !IsDigit(s[i]) then i else SkipDigits(s, i + 1)
  }

  /** A `**label**` fragment: "**" at i, a non-empty '*'-free label, "**" at j. */
  predicate BoldAt(s: string, i: int, j: int) {
    0 <= i && i + 2 < j && j + 2 <= |s| && s[i] == '*' && s[i + 1] == '*'
    && s[j] == '*' && s[j + 1] == '*' && NoStarBetween(s, i + 2, j)
  }

  /** A label opened at p (just after "**") runs to the next '*' and is closed by "**". */
  predicate BoldClosesFrom(s: string, p: nat)
    requires p <= |s|
  {
    var j := SkipNonStar(s, p);
    p < j && j + 1 < |s| && s[j + 1] == '*'
  }

  predicate HasBoldFrom(s: string, i: nat)
    requires i <= |s|
    decreases |s| - i
  {
    i + 1 < |s| && ((s[i] == '*' && s[i + 1] == '*' && BoldClosesFrom(s, i + 2)) || HasBoldFrom(s, i + 1))
  }

  /** Scanner for `/\*\*[^*]+\*\*\s*：?\s*`.test(content); the tail of that pattern
      can match nothing, so it is the `**label**` test alone. */
  predicate HasBoldLabel(s: string) {
    HasBoldFrom(s, 0)
  }

  lemma {:induction false} HasBoldFromIff(s: string, i: nat)
    requires i <= |s|
    ensures HasBoldFrom(s, i) <==> exists a, b :: i <= a && BoldAt(s, a, b)
    decreases |s| - i
  {
    if i + 1 < |s| {
      HasBoldFromIff(s, i + 1);
      if s[i] == '*' && s[i + 1] == '*' && BoldClosesFrom(s, i + 2) {
        assert BoldAt(s, i, SkipNonStar(s, i + 2));
      }
      if exists a, b :: i <= a && BoldAt(s, a, b) {
        var a, b :| i <= a && BoldAt(s, a, b);
        if a == i {
          assert SkipNonStar(s, i + 2) == b;
        } else {
          assert i + 1 <= a && BoldAt(s, a, b);
        }
      }
    }
  }

  /** The number of non-overlapping, leftmost matches of `/\*\s*\*\/g` from position i. */
  function StarPairsFrom(s: string, i: nat): nat
    requires i <= |s|
    decreases |s| - i
  {
    if i == |s| then 0
    else
      var m := SkipSpace(s, i + 1);
      if s[i] == '*' && m < |s| && s[m] == '*' then 1 + StarPairsFrom(s, m + 1)
      else StarPairsFrom(s, i + 1)
  }

  function CountStarPairs(s: string): nat {
    StarPairsFrom(s, 0)
  }

  /** Number of '*' characters from position i on. */
  function StarsFrom(s: string, i: nat): nat
    requires i <= |s|
    decreases |s| - i
  {
    if i == |s| then 0 else (if s[i] == '*' then 1 else 0) + StarsFrom(s, i + 1)
  }

  lemma {:induction false} StarsSkipSpace(s: string, i: nat, j: nat)
    requires i <= j <= |s| && SpaceBetween(s, i, j)
    ensures StarsFrom(s, i) == StarsFrom(s, j)
    decreases j - i
  {
    if i < j {
      StarsSkipSpace(s, i + 1, j);
    }
  }

  lemma {:induction false} StarsMonotone(s: string, i: nat, j: nat)
    requires i <= j <= |s|
    ensures StarsFrom(s, j) <= StarsFrom(s, i)
    decreases j - i
  {
    if i < j {
      StarsMonotone(s, i + 1, j);
    }
  }

  /** Every counted fragment consumes two stars. */
  lemma {:induction false} StarPairsBound(s: string, i: nat)
    requires i <= |s|
    ensures 2 * StarPairsFrom(s, i) <= StarsFrom(s, i)
    decreases |s| - i
  {
    if i < |s| {
      var m := SkipSpace(s, i + 1);
      if s[i] == '*' && m < |s| && s[m] == '*' {
        StarPairsBound(s, m + 1);
        StarsSkipSpace(s, i + 1, m);
      } else {
        StarPairsBound(s, i + 1);
      }
    }
  }

  /** A match of `\*\s*\*` at i: a '*' at i, a '*' at j, only white space between. */
  predicate StarPairAt(s: string, i: int, j: int) {
    0 <= i < j < |s| && s[i] == '*' && s[j] == '*' && SpaceBetween(s, i + 1, j)
  }

  /** Star pairs (start, end) in increasing order, none overlapping, the first
      starting at or after i. */
  ghost predicate PairChain(s: string, i: int, ps: seq<(int, int)>)
    decreases |ps|
  {
    ps == [] || (i <= ps[0].0 && StarPairAt(s, ps[0].0, ps[0].1) && PairChain(s, ps[0].1 + 1, ps[1..]))
  }

  /** White space never starts a pair, so the count is the same across it. */
  lemma {:induction false} StarPairsSkipSpace(s: string, i: nat, j: nat)
    requires i <= j <= |s| && SpaceBetween(s, i, j)
    ensures StarPairsFrom(s, i) == StarPairsFrom(s, j)
    decreases j - i
  {
    if i < j {
      assert IsSpace(s[i]) && !IsSpace('*');
      StarPairsSkipSpace(s, i + 1, j);
    }
  }

  /** One more position can add at most one pair and never removes one. */
  lemma {:induction false} StarPairsStep(s: string, i: nat)
    requires i < |s|
    ensures StarPairsFrom(s, i + 1) <= StarPairsFrom(s, i) <= 1 + StarPairsFrom(s, i + 1)
    decreases |s| - i, 0
  {
    var m := SkipSpace(s, i + 1);
    if s[i] == '*' && m < |s| && s[m] == '*' {
      assert StarPairsFrom(s, i) == 1 + StarPairsFrom(s, m + 1);
      StarPairsSkipSpace(s, i + 1, m);
      StarPairsStep(s, m);
      StarPairsMonotone(s, i + 1, m + 1);
    } else {
      assert StarPairsFrom(s, i) == StarPairsFrom(s, i + 1);
    }
  }

  /** Starting later never finds more pairs. */
  lemma {:induction false} StarPairsMonotone(s: string, i: nat, j: nat)
    requires i <= j <= |s|
    ensures StarPairsFrom(s, j) <= StarPairsFrom(s, i)
    decreases |s| - i, 1
  {
    if i < j {
      StarPairsStep(s, i);
      StarPairsMonotone(s, i + 1, j);
    }
  }

  /** The pairs the scanner takes, leftmost first. */
  ghost function LeftmostPairs(s: string, i: nat): (ps: seq<(int, int)>)
    requires i <= |s|
    ensures PairChain(s, i, ps)
    ensures |ps| == StarPairsFrom(s, i)
    decreases |s| - i
  {
    if i == |s| then []
    else
      var m := SkipSpace(s, i + 1);
      if s[i] == '*' && m < |s| && s[m] == '*' then
        var rest := LeftmostPairs(s, m + 1);
        assert ([(i as int, m as int)] + rest)[1..] == rest;
        [(i as int, m as int)] + rest
      else LeftmostPairs(s, i + 1)
  }

  /** No chain of pairs is longer than the scanner's count: leftmost first is optimal. */
  lemma {:induction false} ChainBound(s: string, i: nat, ps: seq<(int, int)>)
    requires i <= |s| && PairChain(s, i, ps)
    ensures |ps| <= StarPairsFrom(s, i)
    decreases |ps|
  {
    if ps != [] {
      var (a, b) := ps[0];
      SkipSpacePast(s, a + 1, b);
      assert !IsSpace('*');
      StarPairsMonotone(s, i, a);
      ChainBound(s, b + 1, ps[1..]);
    }
  }

  /** The scanner counts the largest number of non-overlapping star pairs. */
  lemma StarPairsMaximal(s: string)
    ensures PairChain(s, 0, LeftmostPairs(s, 0)) && |LeftmostPairs(s, 0)| == CountStarPairs(s)
    ensures forall ps :: PairChain(s, 0, ps) ==> |ps| <= CountStarPairs(s)
  {
    forall ps | PairChain(s, 0, ps)
      ensures |ps| <= CountStarPairs(s)
    {
      ChainBound(s, 0, ps);
    }
  }

  /** The record test of a reply. */
  function IsRecord(content: string, role: Role): (r: bool)
    ensures r ==> role == Assistant
  {
    role == Assistant && (HasKeyword(content) || HasBoldLabel(content) || CountStarPairs(content) >= 3)
  }

  /** An assistant reply is a record exactly when it contains one of the 25 keywords,
      or a `**label**` fragment, or at least three non-overlapping star pairs. */
  lemma IsRecordIff(content: string)
    ensures IsRecord(content, Assistant) <==>
      (exists k :: 0 <= k < |Keywords| && Contains(content, Keywords[k]))
      || (exists i, j :: BoldAt(content, i, j))
      || (exists ps :: |ps| >= 3 && PairChain(content, 0, ps))
  {
    HasBoldFromIff(content, 0);
    StarPairsMaximal(content);
  }

  /** A bold label needs four stars and three star pairs need six, so a reply with
      fewer than four stars is a record only through a keyword. */
  lemma FewStarsNeedKeyword(content: string)
    requires StarsFrom(content, 0) < 4
    requires IsRecord(content, Assistant)
    ensures HasKeyword(content)
  {
    StarPairsBound(content, 0);
    HasBoldFromIff(content, 0);
    if HasBoldLabel(content) {
      var i, j :| 0 <= i && BoldAt(content, i, j);
      StarsMonotone(content, 0, i);
      StarsMonotone(content, i + 2, j);
      assert StarsFrom(content, i) == 2 + StarsFrom(content, i + 2);
      assert StarsFrom(content, j) >= 2;
    }
  }

  // ---------------------------------------------------------------------
  // Line roles

  datatype Block =
    | Intro(line: string)
    | NewHeading(name: string, body: string)
    | OldHeading(name: string, body: string)
    | Bullet(text: string)
    | Continuation(text: string)

  datatype View = Markdown(source: string) | RecordCard(title: string, blocks: seq<Block>)

  /** [i, j) may separate a heading label from its body: white space, at most one
      full-width colon, white space. */
  predicate IsGapIn(s: string, i: int, j: int) {
    SpaceBetween(s, i, j)
    || exists k :: i <= k < j && 0 <= k < |s| && s[k] == FullWidthColon && SpaceBetween(s, i, k) && SpaceBetween(s, k + 1, j)
  }

  /** Greedy skip of `\s*：?\s*` from position i. */
  function GapEnd(s: string, i: nat): (j: nat)
    requires i <= |s|
    ensures i <= j <= |s|
    ensures IsGapIn(s, i, j)
    ensures j < |s| ==> !IsSpace(s[j])
  {
    var a := SkipSpace(s, i);
    if a < |s| && s[a] == FullWidthColon then
      var b := SkipSpace(s, a + 1);
      assert s[a] == FullWidthColon && SpaceBetween(s, i, a) && SpaceBetween(s, a + 1, b);
      b
    else a
  }

  /** The greedy skip goes at least as far as any admissible gap. */
  lemma GapEndMaximal(s: string, i: nat, j: nat)
    requires i <= j <= |s| && IsGapIn(s, i, j)
    ensures j <= GapEnd(s, i)
  {
    if SpaceBetween(s, i, j) {
      SkipSpacePast(s, i, j);
    } else {
      var k :| i <= k < j && 0 <= k < |s| && s[k] == FullWidthColon && SpaceBetween(s, i, k) && SpaceBetween(s, k + 1, j);
      SkipSpacePast(s, i, k);
      SkipSpacePast(s, k + 1, j);
    }
  }

  /** The common tail of both heading patterns, `\s*：?\s*(.*)$`, from position e: the
      greedy gap, then a rest that must not hold a line terminator. */
  function HeadingTail(t: string, caption: string, e: nat): Option<(string, string)>
    requires e <= |t|
  {
    var r := GapEnd(t, e);
    if NoBreakFrom(t, r) then Some((caption, t[r..])) else None
  }

  /** Scanner for `^\*\*([^*]+)\*\*\s*：?\s*(.*)$`: the label and the tail. */
  function NewFormatMatch(t: string): Option<(string, string)> {
    if |t| < 2 || t[0] != '*' || t[1] != '*' then None
    else
      var j := SkipNonStar(t, 2);
      if j == 2 || j + 1 >= |t| || t[j + 1] != '*' then None
      else HeadingTail(t, t[2..j], j + 2)
  }

  /** The shape the new-format pattern describes: "**", a label in [2, j), "**",
      a gap in [j + 2, r), and a rest from r without a line terminator. */
  predicate NewShape(t: string, j: int, r: int) {
    2 < j && j + 2 <= r <= |t| && t[0] == '*' && t[1] == '*' && NoStarBetween(t, 2, j)
    && t[j] == '*' && t[j + 1] == '*' && IsGapIn(t, j + 2, r) && NoBreakFrom(t, r)
  }

  /** Every new-format match has the shape of the pattern, with the label and the rest
      read off the line. */
  lemma NewFormatSound(t: string)
    requires NewFormatMatch(t).Some?
    ensures NewShape(t, 2 + |NewFormatMatch(t).value.0|, |t| - |NewFormatMatch(t).value.1|)
    ensures NewFormatMatch(t).value.0 == t[2..2 + |NewFormatMatch(t).value.0|]
    ensures NewFormatMatch(t).value.1 == t[|t| - |NewFormatMatch(t).value.1|..]
  {
  }

  /** Every line of the pattern's shape matches: the label is the one of the shape,
      and the body is the part of the shape's rest left after the greedy gap. */
  lemma NewFormatComplete(t: string, j: int, r: int)
    requires NewShape(t, j, r)
    ensures NewFormatMatch(t).Some?
    ensures NewFormatMatch(t).value.0 == t[2..j]
    ensures r <= |t| - |NewFormatMatch(t).value.1|
    ensures NewFormatMatch(t).value.1 == t[|t| - |NewFormatMatch(t).value.1|..]
  {
    assert t[j] == '*';
    assert SkipNonStar(t, 2) == j;
    GapEndMaximal(t, j + 2, r);
  }

  /** Scanner for `^\*\s*\*([^*]+)\*\*?\s*：?\s*(.*)$`: the label and the tail. */
  function OldFormatMatch(t: string): Option<(string, string)> {
    if t == [] || t[0] != '*' then None else OldLabelFrom(t, SkipSpace(t, 1))
  }

  /** The old-format pattern after its first star and white space, which end at a. */
  function OldLabelFrom(t: string, a: nat): Option<(string, string)>
    requires a <= |t|
  {
    if a == |t| || t[a] != '*' then None
    else
      var j := SkipNonStar(t, a + 1);
      if j == a + 1 || j == |t| then None
      else HeadingTail(t, t[a + 1..j], if j + 1 < |t| && t[j + 1] == '*' then j + 2 else j + 1)
  }

  /** The shape the old-format pattern describes: "*", white space up to a, "*", a label
      in [a + 1, j), one or two stars up to e, a gap in [e, r), and a rest from r
      without a line terminator. */
  predicate OldShape(t: string, a: int, j: int, e: int, r: int) {
    1 <= a && a + 1 < j && (e == j + 1 || e == j + 2) && e <= r <= |t|
    && t[0] == '*' && SpaceBetween(t, 1, a) && t[a] == '*' && NoStarBetween(t, a + 1, j)
    && t[j] == '*' && (e == j + 2 ==> t[j + 1] == '*')
    && IsGapIn(t, e, r) && NoBreakFrom(t, r)
  }

  /** Every old-format match has the shape of the pattern: the label starts after the
      first star, the white space and the second star. */
  lemma OldFormatSound(t: string)
    requires OldFormatMatch(t).Some?
    ensures var a := SkipSpace(t, 1);
      var j := a + 1 + |OldFormatMatch(t).value.0|;
      && OldFormatMatch(t).value.0 == t[a + 1..j]
      && (OldShape(t, a, j, j + 1, |t| - |OldFormatMatch(t).value.1|)
          || OldShape(t, a, j, j + 2, |t| - |OldFormatMatch(t).value.1|))
    ensures OldFormatMatch(t).value.1 == t[|t| - |OldFormatMatch(t).value.1|..]
  {
  }

  /** A gap never starts with a star. */
  lemma GapNoStar(s: string, i: int, j: int)
    requires 0 <= i < j <= |s| && IsGapIn(s, i, j)
    ensures s[i] != '*'
  {
  }

  /** Every line of the old-format shape matches, with the shape's label, and the body
      is the part of the shape's rest left after the greedy gap. */
  lemma OldFormatComplete(t: string, a: int, j: int, e: int, r: int)
    requires OldShape(t, a, j, e, r)
    ensures OldFormatMatch(t).Some?
    ensures OldFormatMatch(t).value.0 == t[a + 1..j]
    ensures r <= |t| - |OldFormatMatch(t).value.1|
  {
    SkipSpacePast(t, 1, a);
    assert SkipNonStar(t, a + 1) == j;
    var e' := if j + 1 < |t| && t[j + 1] == '*' then j + 2 else j + 1;
    OldGapEnd(t, j, e, e', r);
    OldLabelUnfold(t, a, j);
  }

  /** With the label's stars in place, the old-format scanner is the common tail. */
  lemma OldLabelUnfold(t: string, a: nat, j: nat)
    requires 0 < |t| && t[0] == '*' && SkipSpace(t, 1) == a
    requires a < |t| && t[a] == '*' && a + 1 < j < |t| && SkipNonStar(t, a + 1) == j
    ensures OldFormatMatch(t) == HeadingTail(t, t[a + 1..j], if j + 1 < |t| && t[j + 1] == '*' then j + 2 else j + 1)
  {
  }

  /** Whether or not the optional second star is taken, the greedy gap ends at or after r. */
  lemma OldGapEnd(t: string, j: int, e: int, e': int, r: int)
    requires 0 <= j && (e == j + 1 || e == j + 2) && e <= r <= |t|
    requires e == j + 2 ==> j + 1 < |t| && t[j + 1] == '*'
    requires e' == if j + 1 < |t| && t[j + 1] == '*' then j + 2 else j + 1
    requires e' <= |t| && IsGapIn(t, e, r)
    ensures r <= GapEnd(t, e')
  {
    if e' == e {
      GapEndMaximal(t, e, r);
    } else {
      // the shape took no second star, so its gap starts at the star the scanner takes
      if e < r {
        GapNoStar(t, e, r);
      }
    }
  }

  /** `^\d+\.\s`: digits, a full stop and one white-space character. */
  predicate IsNumberedItem(t: string) {
    var d := SkipDigits(t, 0);
    1 <= d && d + 1 < |t| && t[d] == '.' && IsSpace(t[d + 1])
  }

  /** `replace(/^(\d+\.\s*|\-\s*)/, '')`: drops a list marker and the white space after it. */
  function StripMarker(t: string): string {
    var d := SkipDigits(t, 0);
    if 1 <= d && d < |t| && t[d] == '.' then t[SkipSpace(t, d + 1)..]
    else if t != [] && t[0] == '-' then t[SkipSpace(t, 1)..]
    else t
  }

  function DropTrailingColon(s: string): string {
    if s != [] && s[|s| - 1] == FullWidthColon then s[..|s| - 1] else s
  }

  /** The role of one trimmed, non-blank line; the first rule that applies wins. */
  function ClassifyLine(t: string): Block {
    if Contains(t, IntroMarkers[0]) || Contains(t, IntroMarkers[1]) then Intro(t)
    else match NewFormatMatch(t)
      case Some((caption, tail)) => NewHeading(Trim(caption), Trim(tail))
      case None =>
        match OldFormatMatch(t)
        case Some((caption, tail)) => OldHeading(DropTrailingColon(Trim(caption)), Trim(tail))
        case None => ListLine(t)
  }

  /** The last three rules: a numbered or "- " item, a "-" sub-item, or plain text. */
  function ListLine(t: string): Block {
    if IsNumberedItem(t) || StartsWith(t, "- ") then Bullet(StripMarker(t))
    else if StartsWith(t, "-") then Bullet(Trim(t[1..]))
    else Continuation(t)
  }

  /** t[..m] is digits up to d, a full stop at d, then white space. */
  predicate NumberMarker(t: string, d: int, m: int) {
    0 < d < m <= |t| && (forall k :: 0 <= k < d ==> IsDigit(t[k])) && t[d] == '.' && SpaceBetween(t, d + 1, m)
  }

  /** t[..m] is a list marker (digits and a full stop, or a dash) followed by white
      space, and the marker takes all the white space that follows it. */
  ghost predicate MarkerEndsAt(t: string, m: int) {
    && 0 < m <= |t| && (m == |t| || !IsSpace(t[m]))
    && ((t[0] == '-' && SpaceBetween(t, 1, m)) || (exists d :: NumberMarker(t, d, m)))
  }

  /** For a trimmed line, the dash rule drops the dash and the white space after it. */
  lemma DashText(t: string)
    requires Trim(t) == t
    requires t != [] && t[0] == '-'
    ensures Trim(t[1..]) == t[SkipSpace(t, 1)..]
  {
    var u := t[1..];
    var m := SkipSpace(t, 1);
    TrimSlice(t);
    assert forall k :: 1 <= k <= |t| ==> SkipSpace(u, k - 1) == SkipSpace(t, k) - 1 by {
      forall k | 1 <= k <= |t|
        ensures SkipSpace(u, k - 1) == SkipSpace(t, k) - 1
      {
        SkipSpaceShift(t, k);
      }
    }
    if u != [] {
      assert !IsSpace(u[|u| - 1]);
      assert SkipSpaceBack(u, |u|) == |u|;
    }
  }

  lemma {:induction false} SkipSpaceShift(t: string, k: nat)
    requires 1 <= k <= |t|
    ensures SkipSpace(t[1..], k - 1) == SkipSpace(t, k) - 1
    decreases |t| - k
  {
    if k < |t| && IsSpace(t[k]) {
      SkipSpaceShift(t, k + 1);
    }
  }

  lemma NumberedText(t: string)
    requires ListLine(t).Bullet?
    requires 1 <= SkipDigits(t, 0) < |t| && t[SkipDigits(t, 0)] == '.'
    ensures ListLine(t).text == t[SkipSpace(t, SkipDigits(t, 0) + 1)..]
    ensures MarkerEndsAt(t, SkipSpace(t, SkipDigits(t, 0) + 1))
  {
    var d := SkipDigits(t, 0);
    var m := SkipSpace(t, d + 1);
    assert 1 <= d && d < |t| && t[d] == '.';
    assert StripMarker(t) == t[m..];
    assert IsDigit(t[0]);
    assert !StartsWith(t, "-") by {
      assert t[..1][0] == t[0];
    }
    assert NumberMarker(t, d, m);
  }

  lemma DashBulletText(t: string)
    requires Trim(t) == t
    requires ListLine(t).Bullet?
    requires !(1 <= SkipDigits(t, 0) < |t| && t[SkipDigits(t, 0)] == '.')
    ensures t[0] == '-'
    ensures ListLine(t).text == t[SkipSpace(t, 1)..]
    ensures MarkerEndsAt(t, SkipSpace(t, 1))
  {
    if !(IsNumberedItem(t) || StartsWith(t, "- ")) {
      DashText(t);
    }
  }

  // ---------------------------------------------------------------------
  // Rendering

  /** What one line of the record maps to: nothing (React's null) when its trim is
      empty, otherwise the block its trimmed text is classified as. */
  function RenderLine(line: string): Option<Block> {
    var t := Trim(line);
    if t == [] then None else Some(ClassifyLine(t))
  }

  /** The line-by-line map over the record's lines. */
  function RenderLines(lines: seq<string>): (r: seq<Option<Block>>)
    ensures |r| == |lines|
    ensures forall j :: 0 <= j < |lines| ==> r[j] == RenderLine(lines[j])
  {
    seq(|lines|, j requires 0 <= j < |lines| => RenderLine(lines[j]))
  }

  /** The values of the entries from i on that are present, in order: the nulls a
      map returns render as nothing. */
  function PresentFrom<A>(xs: seq<Option<A>>, i: nat): seq<A>
    requires i <= |xs|
    decreases |xs| - i
  {
    if i == |xs| then []
    else (if xs[i].Some? then [xs[i].value] else []) + PresentFrom(xs, i + 1)
  }

  /** The indices from i on of the entries that are present, in order. */
  function PresentIndices<A>(xs: seq<Option<A>>, i: nat): (idx: seq<nat>)
    requires i <= |xs|
    ensures forall k :: 0 <= k < |idx| ==> i <= idx[k] < |xs|
    decreases |xs| - i
  {
    if i == |xs| then []
    else (if xs[i].Some? then [i] else []) + PresentIndices(xs, i + 1)
  }

  /** Dropping the absent entries keeps one value per present entry, in order: the
      k-th value is the k-th present entry's, the indices strictly increase, and no
      present entry is skipped. */
  lemma PresentFromSpec<A>(xs: seq<Option<A>>, i: nat)
    requires i <= |xs|
    ensures |PresentFrom(xs, i)| == |PresentIndices(xs, i)|
    ensures forall k :: 0 <= k < |PresentIndices(xs, i)| ==>
      xs[PresentIndices(xs, i)[k]] == Some(PresentFrom(xs, i)[k])
    ensures forall k, m :: 0 <= k < m < |PresentIndices(xs, i)| ==>
      PresentIndices(xs, i)[k] < PresentIndices(xs, i)[m]
    ensures forall j :: i <= j < |xs| && xs[j].Some? ==> j in PresentIndices(xs, i)
  {
    PresentLength(xs, i);
    forall k | 0 <= k < |PresentIndices(xs, i)|
      ensures xs[PresentIndices(xs, i)[k]] == Some(PresentFrom(xs, i)[k])
    {
      PresentAt(xs, i, k);
    }
    PresentIncreasing(xs, i);
    forall j | i <= j < |xs| && xs[j].Some?
      ensures j in PresentIndices(xs, i)
    {
      PresentComplete(xs, i, j);
    }
  }

  lemma {:induction false} PresentLength<A>(xs: seq<Option<A>>, i: nat)
    requires i <= |xs|
    ensures |PresentFrom(xs, i)| == |PresentIndices(xs, i)|
    decreases |xs| - i
  {
    if i < |xs| {
      PresentLength(xs, i + 1);
    }
  }

  lemma {:induction false} PresentAt<A>(xs: seq<Option<A>>, i: nat, k: nat)
    requires i <= |xs| && k < |PresentIndices(xs, i)|
    ensures k < |PresentFrom(xs, i)| && xs[PresentIndices(xs, i)[k]] == Some(PresentFrom(xs, i)[k])
    decreases |xs| - i
  {
    PresentLength(xs, i);
    PresentLength(xs, i + 1);
    var rest, kept := PresentFrom(xs, i + 1), PresentIndices(xs, i + 1);
    if xs[i].None? {
      assert PresentFrom(xs, i) == rest && PresentIndices(xs, i) == kept;
      PresentAt(xs, i + 1, k);
    } else if k > 0 {
      assert PresentFrom(xs, i) == [xs[i].value] + rest && PresentIndices(xs, i) == [i] + kept;
      PresentAt(xs, i + 1, k - 1);
    }
  }

  lemma {:induction false} PresentIncreasing<A>(xs: seq<Option<A>>, i: nat)
    requires i <= |xs|
    ensures forall k, m :: 0 <= k < m < |PresentIndices(xs, i)| ==>
      PresentIndices(xs, i)[k] < PresentIndices(xs, i)[m]
    decreases |xs| - i
  {
    if i < |xs| {
      PresentIncreasing(xs, i + 1);
    }
  }

  lemma {:induction false} PresentComplete<A>(xs: seq<Option<A>>, i: nat, j: nat)
    requires i <= j < |xs| && xs[j].Some?
    ensures j in PresentIndices(xs, i)
    decreases |xs| - i
  {
    if i < j {
      PresentComplete(xs, i + 1, j);
    }
  }

  /** The blocks of a record: one per line whose trim is not empty, in line order,
      each classified from its own trimmed line alone; blank lines produce nothing. */
  lemma RenderSpec(lines: seq<string>)
    ensures |PresentFrom(RenderLines(lines), 0)| == |PresentIndices(RenderLines(lines), 0)|
    ensures forall k :: 0 <= k < |PresentIndices(RenderLines(lines), 0)| ==>
      var j := PresentIndices(RenderLines(lines), 0)[k];
      Trim(lines[j]) != [] && PresentFrom(RenderLines(lines), 0)[k] == ClassifyLine(Trim(lines[j]))
    ensures forall k, m :: 0 <= k < m < |PresentIndices(RenderLines(lines), 0)| ==>
      PresentIndices(RenderLines(lines), 0)[k] < PresentIndices(RenderLines(lines), 0)[m]
    ensures forall j :: 0 <= j < |lines| && Trim(lines[j]) != [] ==> j in PresentIndices(RenderLines(lines), 0)
  {
    PresentFromSpec(RenderLines(lines), 0);
  }

  /** The view of one message: records get the titled card, everything else Markdown. */
  function Render(content: string, role: Role): (v: View)
    ensures v.RecordCard? <==> IsRecord(content, role)
    ensures v.Markdown? ==> v.source == content
    ensures v.RecordCard? ==> v.title == RecordTitle && v.blocks == PresentFrom(RenderLines(Split(content, '\n')), 0)
  {
    if IsRecord(content, role) then RecordCard(RecordTitle, PresentFrom(RenderLines(Split(content, '\n')), 0))
    else Markdown(content)
  }

  // ---------------------------------------------------------------------
  // Examples

  lemma ContainsHead(s: string, sub: string)
    requires sub != [] && Contains(s, sub)
    ensures sub[0] in s
  {
    ContainsIff(s, sub);
    var i :| OccursAt(s, sub, i);
    assert s[i..i + |sub|][0] == s[i];
  }

  lemma {:induction false} NoStars(s: string, i: nat)
    requires i <= |s| && '*' !in s
    ensures StarsFrom(s, i) == 0
    decreases |s| - i
  {
    if i < |s| {
      NoStars(s, i + 1);
    }
  }

  /** Every keyword starts with a CJK character or with one of the capitals A to T other than H. */
  predicate KeywordHead(c: char) {
    c >= '\U{0100}' || ('A' <= c <= 'T' && c != 'H')
  }

  lemma KeywordHeads()
    ensures forall k :: 0 <= k < |Keywords| ==> Keywords[k] != [] && KeywordHead(Keywords[k][0])
  {
  }

  lemma GreetingHasNoKeyword()
    ensures !HasKeyword("Hello, how are you today?")
  {
    var s := "Hello, how are you today?";
    assert forall i :: 0 <= i < |s| ==> !KeywordHead(s[i]);
    KeywordHeads();
    forall k | 0 <= k < |Keywords|
      ensures !Contains(s, Keywords[k])
    {
      if Contains(s, Keywords[k]) {
        ContainsHead(s, Keywords[k]);
      }
    }
  }

  /** An ordinary greeting takes the Markdown path. */
  lemma GreetingIsNotRecord()
    ensures Render("Hello, how are you today?", Assistant) == Markdown("Hello, how are you today?")
  {
    var s := "Hello, how are you today?";
    GreetingHasNoKeyword();
    NoStars(s, 0);
    StarPairsBound(s, 0);
    HasBoldFromIff(s, 0);
  }

  // The sample reply of the front end's record-formatting scenario, shortened to its
  // first heading: an introductory sentence, an old-format heading line whose body is
  // the rest of the line, and a closing remark.

  const SampleIntro: string := "好的，根据您提供的资料，我将整理成病历记录："
  const SampleHeading: string := "* *病历记录** * *主诉：** 无。"
  const SampleClosing: string := "患者需密切注意症状变化。"
  const SampleLines: seq<string> := [SampleIntro, SampleHeading, SampleClosing]
  const SampleReply: string := SampleIntro + "\n" + SampleHeading + "\n" + SampleClosing

  lemma NoHeadNoContains(s: string, sub: string)
    requires sub != [] && sub[0] !in s
    ensures !Contains(s, sub)
  {
    if Contains(s, sub) {
      ContainsHead(s, sub);
    }
  }

  lemma SampleIntroLine()
    ensures ClassifyLine(SampleIntro) == Intro(SampleIntro)
  {
    assert OccursAt(SampleIntro, IntroMarkers[0], 3);
    ContainsIff(SampleIntro, IntroMarkers[0]);
  }

  lemma SampleHeadingNoIntro()
    ensures !Contains(SampleHeading, IntroMarkers[0]) && !Contains(SampleHeading, IntroMarkers[1])
  {
    assert '根' !in SampleHeading && '我' !in SampleHeading;
    NoHeadNoContains(SampleHeading, IntroMarkers[0]);
    NoHeadNoContains(SampleHeading, IntroMarkers[1]);
  }

  lemma SampleHeadingNotNew()
    ensures NewFormatMatch(SampleHeading) == None
  {
    assert SampleHeading[1] == ' ';
  }

  lemma SampleHeadingScan()
    ensures SkipSpace(SampleHeading, 1) == 2 && SkipNonStar(SampleHeading, 3) == 7
    ensures GapEnd(SampleHeading, 9) == 10
  {
    assert SkipSpace(SampleHeading, 9) == 10;
  }

  lemma SampleHeadingOld()
    ensures OldFormatMatch(SampleHeading) == Some(("病历记录", SampleHeading[10..]))
  {
    var t := SampleHeading;
    SampleHeadingScan();
    assert NoBreakFrom(t, 10);
    OldLabelUnfold(t, 2, 7);
    assert t[3..7] == "病历记录";
  }

  lemma SampleHeadingParts()
    ensures Trim("病历记录") == "病历记录" && DropTrailingColon("病历记录") == "病历记录"
    ensures Trim(SampleHeading[10..]) == SampleHeading[10..]
  {
    TrimUnchanged("病历记录");
    TrimUnchanged(SampleHeading[10..]);
  }

  lemma SampleHeadingBody()
    ensures SampleHeading[10..] == "* *主诉：** 无。"
  {
  }

  /** The second line is an old-format heading named 病历记录 whose body is everything
      after the heading, including the next heading's stars. */
  lemma SampleHeadingLine()
    ensures ClassifyLine(SampleHeading) == OldHeading("病历记录", SampleHeading[10..])
  {
    SampleHeadingNoIntro();
    SampleHeadingNotNew();
    SampleHeadingOld();
    SampleHeadingParts();
  }

  lemma SampleClosingNoIntro()
    ensures !Contains(SampleClosing, IntroMarkers[0]) && !Contains(SampleClosing, IntroMarkers[1])
  {
    assert '根' !in SampleClosing && '我' !in SampleClosing;
    NoHeadNoContains(SampleClosing, IntroMarkers[0]);
    NoHeadNoContains(SampleClosing, IntroMarkers[1]);
  }

  lemma SampleClosingNoHeading()
    ensures NewFormatMatch(SampleClosing) == None && OldFormatMatch(SampleClosing) == None
  {
    assert SampleClosing[0] == '患';
  }

  lemma SampleClosingPlain()
    ensures ListLine(SampleClosing) == Continuation(SampleClosing)
  {
    assert SampleClosing[0] == '患';
    assert SkipDigits(SampleClosing, 0) == 0;
    assert !StartsWith(SampleClosing, "-");
  }

  lemma SampleClosingLine()
    ensures ClassifyLine(SampleClosing) == Continuation(SampleClosing)
  {
    SampleClosingNoIntro();
    SampleClosingNoHeading();
    SampleClosingPlain();
  }

  lemma SampleLinesTrimmed()
    ensures Trim(SampleIntro) == SampleIntro && Trim(SampleHeading) == SampleHeading
    ensures Trim(SampleClosing) == SampleClosing
  {
    TrimUnchanged(SampleIntro);
    TrimUnchanged(SampleHeading);
    TrimUnchanged(SampleClosing);
  }

  lemma RenderThree(a: string, b: string, c: string)
    requires Trim(a) == a != [] && Trim(b) == b != [] && Trim(c) == c != []
    ensures PresentFrom(RenderLines([a, b, c]), 0) == [ClassifyLine(a), ClassifyLine(b), ClassifyLine(c)]
  {
    var x, y, z := RenderLine(a), RenderLine(b), RenderLine(c);
    assert x == Some(ClassifyLine(a)) && y == Some(ClassifyLine(b)) && z == Some(ClassifyLine(c));
    var xs := RenderLines([a, b, c]);
    assert xs == [x, y, z];
    assert PresentFrom(xs, 2) == [z.value];
    assert PresentFrom(xs, 1) == [y.value, z.value];
  }

  lemma SampleSplit()
    ensures Split(SampleReply, '\n') == SampleLines
  {
    JoinThree(SampleIntro, SampleHeading, SampleClosing, "\n");
    assert '\n' !in SampleIntro && '\n' !in SampleHeading && '\n' !in SampleClosing;
    SplitJoin(SampleLines, '\n');
  }

  lemma SampleIsRecord()
    ensures IsRecord(SampleReply, Assistant)
  {
    assert OccursAt(SampleReply, Keywords[0], 17);
    ContainsIff(SampleReply, Keywords[0]);
  }

  /** The sample reply renders as a record card with one intro line, one old-format
      heading 病历记录 carrying the rest of its line, and one continuation line. */
  lemma SampleReplyRendering()
    ensures Render(SampleReply, Assistant) == RecordCard(RecordTitle,
      [Intro(SampleIntro), OldHeading("病历记录", "* *主诉：** 无。"), Continuation(SampleClosing)])
  {
    SampleIsRecord();
    SampleSplit();
    SampleLinesTrimmed();
    RenderThree(SampleIntro, SampleHeading, SampleClosing);
    SampleIntroLine();
    SampleHeadingLine();
    SampleClosingLine();
    SampleHeadingBody();
  }

}
