/**
 * The plain-text inspection report of the backend: `results_to_text` renders
 * the per-photo analysis results as four lines per photo, and
 * `generate_comparison_report` puts a line diff of two such reports under a
 * fixed header.
 *
 * A per-photo result is a JSON object; it is modelled as a map from key to the
 * text that Python's f-string rendering gives its value.
 */
module Report {
  import opened Text

  type Item = map<string, string>

  /** The labels of the first nine photo slots, in upload order. */
  const PartNames: seq<string> := ["Front View", "Right Side", "Rear View", "Left Side",
    "Front Windshield", "Interior Front", "Interior Back", "Dashboard", "Trunk"]

  const SeverityDefault := "none"
  const DescriptionDefault := "No description provided"

  /** The label of slot i: its name among the first nine, "Part {i+1}" after them. */
  function PartLabel(i: nat): string
  {
    if i < |PartNames| then PartNames[i] else "Part " + NatToString(i + 1)
  }

  /** `item.get(key, default)`. */
  function Lookup(item: Item, key: string, default: string): string
  {
    if key in item then item[key] else default
  }

  /** The four lines one result contributes, the last one an empty separator. */
  function ItemLines(i: nat, item: Item): seq<string>
  {
    ["--- " + PartLabel(i) + " ---",
     "Severity: " + Lookup(item, "severity", SeverityDefault),
     "Description: " + Lookup(item, "description", DescriptionDefault),
     ""]
  }

  /** The list `lines` that `results_to_text` builds, result by result. */
  function ReportLines(results: seq<Item>): seq<string>
  {
    if |results| == 0 then []
    else ReportLines(results[..|results| - 1]) + ItemLines(|results| - 1, results[|results| - 1])
  }

  /** The report text: the lines joined with newlines. */
  function ReportText(results: seq<Item>): string
  {
    Join(ReportLines(results), "\n")
  }

  /** `results_to_text`: builds the line list in a loop, then joins it. */
  method ResultsToText(results: seq<Item>) returns (text: string)
    ensures text == ReportText(results)
  {
    var lines: seq<string> := [];
    var i := 0;
    while i < |results|
      invariant 0 <= i <= |results|
      invariant lines == ReportLines(results[..i])
    {
      var item := results[i];
      var part := if i < |PartNames| then PartNames[i] else "Part " + NatToString(i + 1);
      var severity := if "severity" in item then item["severity"] else SeverityDefault;
      var desc := if "description" in item then item["description"] else DescriptionDefault;
      ghost var before := lines;
      lines := lines + ["--- " + part + " ---"];
      lines := lines + ["Severity: " + severity];
      lines := lines + ["Description: " + desc];
      lines := lines + [""];
      AppendFour(before, "--- " + part + " ---", "Severity: " + severity, "Description: " + desc, "");
      assert part == PartLabel(i);
      assert ["--- " + part + " ---", "Severity: " + severity, "Description: " + desc, ""] == ItemLines(i, item);
      ReportLinesSnoc(results, i);
      assert lines == ReportLines(results[..i + 1]);
      i := i + 1;
    }
    assert results[..|results|] == results;
    text := Join(lines, "\n");
  }

  /** Four appends of one element each append the four elements. */
  lemma AppendFour<T>(s: seq<T>, a: T, b: T, c: T, d: T)
    ensures s + [a] + [b] + [c] + [d] == s + [a, b, c, d]
  {
  }

  /** The lines of the first i + 1 results are those of the first i, then result i's. */
  lemma ReportLinesSnoc(results: seq<Item>, i: nat)
    requires i < |results|
    ensures ReportLines(results[..i + 1]) == ReportLines(results[..i]) + ItemLines(i, results[i])
  {
    var upTo := results[..i + 1];
    assert upTo[..i] == results[..i] && upTo[i] == results[i];
  }

  /** Four lines per result, in the fixed order, with the defaults for missing keys. */
  lemma ReportLinesAt(results: seq<Item>, i: nat)
    requires i < |results|
    ensures |ReportLines(results)| == 4 * |results|
    ensures ReportLines(results)[4 * i] == "--- " + PartLabel(i) + " ---"
    ensures ReportLines(results)[4 * i + 1] == "Severity: " +
      (if "severity" in results[i] then results[i]["severity"] else "none")
    ensures ReportLines(results)[4 * i + 2] == "Description: " +
      (if "description" in results[i] then results[i]["description"] else "No description provided")
    ensures ReportLines(results)[4 * i + 3] == ""
  {
    ReportLinesBlock(results, i);
    var item := results[i];
    var severity := if "severity" in item then item["severity"] else "none";
    var description := if "description" in item then item["description"] else "No description provided";
    assert Lookup(item, "severity", SeverityDefault) == severity;
    assert Lookup(item, "description", DescriptionDefault) == description;
    var block := ItemLines(i, item);
    assert block[1] == "Severity: " + severity;
    assert block[2] == "Description: " + description;
    SliceElements(ReportLines(results), 4 * i, block);
  }

  /** The elements of a four-element slice are the elements of the sequence at the offset. */
  lemma SliceElements<T>(s: seq<T>, j: nat, block: seq<T>)
    requires |block| == 4 && j + 4 <= |s| && s[j..j + 4] == block
    ensures s[j] == block[0] && s[j + 1] == block[1]
    ensures s[j + 2] == block[2] && s[j + 3] == block[3]
  {
    assert s[j..j + 4][0] == s[j] && s[j..j + 4][1] == s[j + 1];
    assert s[j..j + 4][2] == s[j + 2] && s[j..j + 4][3] == s[j + 3];
  }

  /** Lines 4i to 4i+3 of the report are the four lines of result i. */
  lemma ReportLinesBlock(results: seq<Item>, i: nat)
    requires i < |results|
    ensures |ReportLines(results)| == 4 * |results|
    ensures ReportLines(results)[4 * i..4 * i + 4] == ItemLines(i, results[i])
  {
    var before := ReportLines(results[..i]);
    var block := ItemLines(i, results[i]);
    ReportLinesSnoc(results, i);
    ReportLinesPrefix(results, i + 1);
    ReportLinesLength(results[..i]);
    ReportLinesLength(results);
    PrefixSlice(before + block, ReportLines(results), 4 * i, 4 * i + 4);
    AppendSlices(before, block, 0, 0);
  }

  /** The lines of the first j results start the lines of all of them. */
  lemma {:induction false} ReportLinesPrefix(results: seq<Item>, j: nat)
    requires j <= |results|
    ensures ReportLines(results[..j]) <= ReportLines(results)
    decreases |results|
  {
    if j < |results| {
      var front := results[..|results| - 1];
      assert front[..j] == results[..j];
      ReportLinesPrefix(front, j);
      assert ReportLines(results) == ReportLines(front) + ItemLines(|results| - 1, results[|results| - 1]);
    } else {
      assert results[..j] == results;
    }
  }

  /** A slice of a prefix is the same slice of the whole sequence. */
  lemma PrefixSlice<T>(a: seq<T>, b: seq<T>, lo: nat, hi: nat)
    requires a <= b && lo <= hi <= |a|
    ensures b[lo..hi] == a[lo..hi]
  {
    assert a == b[..|a|];
  }

  /** A slice inside the first part of a concatenation, and the slice that is the second part. */
  lemma AppendSlices<T>(a: seq<T>, b: seq<T>, lo: nat, hi: nat)
    requires lo <= hi <= |a|
    ensures (a + b)[lo..hi] == a[lo..hi]
    ensures (a + b)[|a|..|a| + |b|] == b
  {
  }

  lemma {:induction false} ReportLinesLength(results: seq<Item>)
    ensures |ReportLines(results)| == 4 * |results|
    decreases |results|
  {
    if |results| > 0 {
      ReportLinesLength(results[..|results| - 1]);
    }
  }

  /**
   * The label of slot i is the i-th name for the first nine slots; after them
   * it is "Part " followed by digits that read back as i + 1.
   */
  lemma PartLabelCases(i: nat)
    ensures i < 9 ==> PartLabel(i) == PartNames[i]
    ensures i >= 9 ==>
      && |PartLabel(i)| > 5 && PartLabel(i)[..5] == "Part "
      && IsDigitString(PartLabel(i)[5..]) && ParseDecimal(PartLabel(i)[5..]) == i + 1
  {
    if i >= 9 {
      var d := NatToString(i + 1);
      assert PartLabel(i)[5..] == d;
      ParseNatToString(i + 1);
    }
  }

  /** The slot a name belongs to: the first letter and the length tell the nine names apart. */
  function SlotOfName(name: string): int
  {
    if |name| == 0 then -1
    else if name[0] == 'F' then (if |name| == 10 then 0 else 4)
    else if name[0] == 'R' then (if |name| == 10 then 1 else 2)
    else if name[0] == 'L' then 3
    else if name[0] == 'I' then (if |name| == 14 then 5 else 6)
    else if name[0] == 'D' then 7
    else 8
  }

  lemma PartNameSlot(i: nat)
    requires i < |PartNames|
    ensures |PartNames[i]| > 0 && PartNames[i][0] != 'P' && SlotOfName(PartNames[i]) == i
  {
  }

  /** No two slots share a label, so every section of the report names its photo. */
  lemma PartLabelsDistinct(i: nat, j: nat)
    requires i != j
    ensures PartLabel(i) != PartLabel(j)
  {
    if i >= |PartNames| && j >= |PartNames| {
      NumberedLabelsDistinct(i, j);
    } else if i >= |PartNames| {
      NamedLabelNotNumbered(j, i);
    } else if j >= |PartNames| {
      NamedLabelNotNumbered(i, j);
    } else {
      PartNameSlot(i);
      PartNameSlot(j);
    }
  }

  lemma NumberedLabelsDistinct(i: nat, j: nat)
    requires i != j && i >= |PartNames| && j >= |PartNames|
    ensures PartLabel(i) != PartLabel(j)
  {
    if PartLabel(i) == PartLabel(j) {
      var a, b := NatToString(i + 1), NatToString(j + 1);
      assert ("Part " + a)[5..] == a;
      assert ("Part " + b)[5..] == b;
      NatToStringInjective(i + 1, j + 1);
    }
  }

  lemma NamedLabelNotNumbered(i: nat, j: nat)
    requires i < |PartNames| <= j
    ensures PartLabel(i) != PartLabel(j)
  {
    PartNameSlot(i);
    assert PartLabel(j)[0] == 'P';
  }

  /** Only an empty result list renders as the empty text. */
  lemma ReportTextEmpty(results: seq<Item>)
    ensures ReportText(results) == "" <==> |results| == 0
  {
    if |results| > 0 {
      ReportLinesAt(results, 0);
      var lines := ReportLines(results);
      assert |lines| > 1;
      assert Join(lines, "\n")[0] == lines[0][0] == '-';
    }
  }

  /**
   * When no rendered field holds a newline, splitting the report text on
   * newlines gives the report lines back: the text is four lines per result.
   * This is `split("\n")`, not the `splitlines()` the differ applies, which
   * drops the final empty line and also breaks at '\r', '\x0b', '\x85' and
   * other line boundaries; it does not describe the lines the differ sees.
   */
  lemma ReportTextSplits(results: seq<Item>)
    requires |results| > 0
    requires forall k :: 0 <= k < |results| ==> '\n' !in Lookup(results[k], "severity", SeverityDefault)
    requires forall k :: 0 <= k < |results| ==> '\n' !in Lookup(results[k], "description", DescriptionDefault)
    ensures SplitOn(ReportText(results), '\n') == ReportLines(results)
  {
    var lines := ReportLines(results);
    ReportLinesLength(results);
    ReportLinesNoNewline(results);
    SplitJoin(lines, '\n');
  }

  lemma {:induction false} ReportLinesNoNewline(results: seq<Item>)
    requires forall k :: 0 <= k < |results| ==> '\n' !in Lookup(results[k], "severity", SeverityDefault)
    requires forall k :: 0 <= k < |results| ==> '\n' !in Lookup(results[k], "description", DescriptionDefault)
    ensures forall m :: 0 <= m < |ReportLines(results)| ==> '\n' !in ReportLines(results)[m]
    decreases |results|
  {
    var n := |results|;
    if n > 0 {
      var front := results[..n - 1];
      ReportLinesNoNewline(front);
      PartLabelNoNewline(n - 1);
      var tail := ItemLines(n - 1, results[n - 1]);
      assert forall m :: 0 <= m < |tail| ==> '\n' !in tail[m];
    }
  }

  lemma PartLabelNoNewline(i: nat)
    ensures '\n' !in PartLabel(i)
  {
    if i >= |PartNames| {
      var d := NatToString(i + 1);
      assert forall k :: 0 <= k < |d| ==> d[k] != '\n';
    }
  }

  /** The header every comparison report starts with. */
  const ComparisonHeader: string := "COMPARISON REPORT\n" + Repeat('=', 60) + "\n\n"
  const NoChangesMessage := "No significant changes detected between the reports."

  /** Holds of a report differ that finds nothing to report between a text and itself. */
  ghost predicate QuietOnEqual(compare: (string, string) -> string)
  {
    forall t :: compare(t, t) == ""
  }

  /**
   * `generate_comparison_report`: render both result lists, diff the texts with
   * `compare` (the backend's `compare_reports`), and put the diff, or the fixed
   * "no changes" line when it is empty, under the header.
   */
  function GenerateComparisonReport(oldResults: seq<Item>, newResults: seq<Item>,
                                    compare: (string, string) -> string): (r: string)
    ensures ComparisonHeader <= r
    ensures |r| > |ComparisonHeader|
  {
    var diff := compare(ReportText(oldResults), ReportText(newResults));
    if diff == "" then ComparisonHeader + NoChangesMessage else ComparisonHeader + diff
  }

  /** A non-empty diff is what follows the header, word for word. */
  lemma DiffFollowsHeader(oldResults: seq<Item>, newResults: seq<Item>,
                          compare: (string, string) -> string)
    ensures var diff := compare(ReportText(oldResults), ReportText(newResults));
      diff != "" ==> GenerateComparisonReport(oldResults, newResults, compare)[|ComparisonHeader|..] == diff
  {
    var diff := compare(ReportText(oldResults), ReportText(newResults));
    if diff != "" {
      assert (ComparisonHeader + diff)[|ComparisonHeader|..] == diff;
    }
  }

  /**
   * The fixed "no changes" report comes out exactly when the diff is empty or is
   * itself the "no changes" line: the report cannot tell those two apart.
   */
  lemma NoChangesReportIff(oldResults: seq<Item>, newResults: seq<Item>,
                           compare: (string, string) -> string)
    ensures var diff := compare(ReportText(oldResults), ReportText(newResults));
      var report := GenerateComparisonReport(oldResults, newResults, compare);
      report == ComparisonHeader + NoChangesMessage <==> diff == "" || diff == NoChangesMessage
  {
    var diff := compare(ReportText(oldResults), ReportText(newResults));
    var r := GenerateComparisonReport(oldResults, newResults, compare);
    if diff != "" && r == ComparisonHeader + NoChangesMessage {
      assert r[|ComparisonHeader|..] == diff;
      assert (ComparisonHeader + NoChangesMessage)[|ComparisonHeader|..] == NoChangesMessage;
    }
  }

  /**
   * Two result lists that agree, slot by slot, on the rendered severity and
   * description render to the same text, whatever other keys they carry.
   */
  lemma {:induction false} ReportTextDependsOnRenderedFields(a: seq<Item>, b: seq<Item>)
    requires |a| == |b|
    requires forall k :: 0 <= k < |a| ==>
      Lookup(a[k], "severity", SeverityDefault) == Lookup(b[k], "severity", SeverityDefault)
    requires forall k :: 0 <= k < |a| ==>
      Lookup(a[k], "description", DescriptionDefault) == Lookup(b[k], "description", DescriptionDefault)
    ensures ReportLines(a) == ReportLines(b)
    ensures ReportText(a) == ReportText(b)
    decreases |a|
  {
    if |a| > 0 {
      var n := |a|;
      ReportTextDependsOnRenderedFields(a[..n - 1], b[..n - 1]);
      assert ItemLines(n - 1, a[n - 1]) == ItemLines(n - 1, b[n - 1]);
    }
  }

  /** Result lists that render alike give the fixed "no changes" report. */
  lemma NoChangesForSameRendering(oldResults: seq<Item>, newResults: seq<Item>,
                                  compare: (string, string) -> string)
    requires QuietOnEqual(compare)
    requires |oldResults| == |newResults|
    requires forall k :: 0 <= k < |oldResults| ==>
      Lookup(oldResults[k], "severity", SeverityDefault) == Lookup(newResults[k], "severity", SeverityDefault)
    requires forall k :: 0 <= k < |oldResults| ==>
      Lookup(oldResults[k], "description", DescriptionDefault) == Lookup(newResults[k], "description", DescriptionDefault)
    ensures GenerateComparisonReport(oldResults, newResults, compare) == ComparisonHeader + NoChangesMessage
  {
    ReportTextDependsOnRenderedFields(oldResults, newResults);
    assert compare(ReportText(oldResults), ReportText(oldResults)) == "";
  }
}
