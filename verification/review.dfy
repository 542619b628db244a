/**
 * The final-report side of the review API: the Markdown rendering of a final
 * report, how the audit named in a URL is looked up, the gate that lets only
 * completed audits through, and the name of the downloaded report file.
 */
module Review {
  import opened Wrappers
  import opened Text
  import opened Paths

  /**
   * A critical issue or a warning of a final report, as a dictionary: an
   * absent `title` or `description` key is None, absent or empty
   * `recommendations` are [].
   */
  datatype Item = Item(title: Option<string>, description: Option<string>, recommendations: seq<string>)

  /** The final report produced by the report generator. */
  datatype FinalReport = FinalReport(
    executiveSummary: string,
    criticalIssues: seq<Item>,
    warnings: seq<Item>,
    recommendations: seq<string>,
    overallAssessment: string)

  /** The columns of an audit row the review routes read. */
  datatype Audit = Audit(id: int, externalId: string, status: string, documentId: Option<int>)

  /** The columns of a document row the download routes read. */
  datatype StoredDocument = StoredDocument(id: int, originalFilename: string)

  const CriticalIssueTitle := "Critical Issue"
  const WarningTitle := "Warning"
  const CriticalIssuesHeading := "## Critical Issues"
  const WarningsHeading := "## Warnings"
  const RecommendationsHeading := "## Overall Recommendations"
  const AssessmentHeading := "## Overall Assessment"
  const SummaryHeading := "## Executive Summary"
  const RecommendationsLabel := "**Recommendations:**"

  // ---------------------------------------------------------------------------
  // Markdown rendering (specification)
  // ---------------------------------------------------------------------------

  /** One "- <rec>" line per recommendation, in input order. */
  function Bullets(recs: seq<string>): (lines: seq<string>)
    ensures |lines| == |recs|
    ensures forall k :: 0 <= k < |recs| ==> lines[k] == "- " + recs[k]
  {
    if recs == [] then [] else Bullets(recs[..|recs| - 1]) + ["- " + recs[|recs| - 1]]
  }

  /**
   * The lines of one issue or warning: its title (or the default) as a
   * level-3 heading, its description (or ""), and a recommendations block
   * when it has recommendations.
   */
  function ItemLines(item: Item, defaultTitle: string): seq<string> {
    ["### " + item.title.GetOr(defaultTitle), "", item.description.GetOr(""), ""]
    + (if item.recommendations == [] then []
       else [RecommendationsLabel] + Bullets(item.recommendations) + [""])
  }

  /** The lines of several items, one after the other. */
  function ItemsLines(items: seq<Item>, defaultTitle: string): seq<string> {
    if items == [] then []
    else ItemsLines(items[..|items| - 1], defaultTitle) + ItemLines(items[|items| - 1], defaultTitle)
  }

  function HeaderLines(report: FinalReport, externalId: string): seq<string> {
    ["# Final Compliance Report: " + externalId, "", SummaryHeading, "", report.executiveSummary, ""]
  }

  /** A section of items: nothing when there are none. */
  function ItemSection(heading: string, items: seq<Item>, defaultTitle: string): seq<string> {
    if items == [] then [] else [heading, ""] + ItemsLines(items, defaultTitle)
  }

  function RecommendationSection(recs: seq<string>): seq<string> {
    if recs == [] then [] else [RecommendationsHeading, ""] + Bullets(recs) + [""]
  }

  function AssessmentLines(report: FinalReport): seq<string> {
    [AssessmentHeading, "", report.overallAssessment, ""]
  }

  /** The lines of the rendered report, before they are joined. */
  function MarkdownLines(report: FinalReport, externalId: string): seq<string> {
    HeaderLines(report, externalId)
    + ItemSection(CriticalIssuesHeading, report.criticalIssues, CriticalIssueTitle)
    + ItemSection(WarningsHeading, report.warnings, WarningTitle)
    + RecommendationSection(report.recommendations)
    + AssessmentLines(report)
  }

  /** The rendered report: its lines joined with newlines. */
  function Markdown(report: FinalReport, externalId: string): string {
    Join(MarkdownLines(report, externalId), "\n")
  }

  // ---------------------------------------------------------------------------
  // Markdown rendering (the serialiser)
  // ---------------------------------------------------------------------------

  /** Appends one bullet line per recommendation. */
  method AppendBullets(lines: seq<string>, recs: seq<string>) returns (out: seq<string>)
    ensures out == lines + Bullets(recs)
  {
    out := lines;
    for i := 0 to |recs|
      invariant out == lines + Bullets(recs[..i])
    {
      out := out + ["- " + recs[i]];
      assert recs[..i + 1][..i] == recs[..i];
    }
    assert recs[..|recs|] == recs;
  }

  /** Appends the heading, description and recommendations block of one item. */
  method AppendItem(lines: seq<string>, item: Item, defaultTitle: string) returns (out: seq<string>)
    ensures out == lines + ItemLines(item, defaultTitle)
  {
    out := lines + ["### " + item.title.GetOr(defaultTitle), "", item.description.GetOr(""), ""];
    if item.recommendations != [] {
      out := out + [RecommendationsLabel];
      out := AppendBullets(out, item.recommendations);
      out := out + [""];
    }
  }

  /** Appends the lines of each item in turn. */
  method AppendItems(lines: seq<string>, items: seq<Item>, defaultTitle: string) returns (out: seq<string>)
    ensures out == lines + ItemsLines(items, defaultTitle)
  {
    out := lines;
    for i := 0 to |items|
      invariant out == lines + ItemsLines(items[..i], defaultTitle)
    {
      ItemsLinesStep(items, i, defaultTitle);
      out := AppendItem(out, items[i], defaultTitle);
    }
    assert items[..|items|] == items;
  }

  lemma ItemsLinesStep(items: seq<Item>, i: nat, defaultTitle: string)
    requires i < |items|
    ensures ItemsLines(items[..i + 1], defaultTitle) == ItemsLines(items[..i], defaultTitle) + ItemLines(items[i], defaultTitle)
  {
    assert items[..i + 1][..i] == items[..i];
  }

  /** A section of issues or warnings: its heading and its items, only when there are items. */
  method AppendItemSection(lines: seq<string>, heading: string, items: seq<Item>, defaultTitle: string)
    returns (out: seq<string>)
    ensures out == lines + ItemSection(heading, items, defaultTitle)
  {
    out := lines;
    if items != [] {
      out := out + [heading, ""];
      out := AppendItems(out, items, defaultTitle);
    }
  }

  /** The overall recommendations section, only when there are recommendations. */
  method AppendRecommendationSection(lines: seq<string>, recs: seq<string>) returns (out: seq<string>)
    ensures out == lines + RecommendationSection(recs)
  {
    out := lines;
    if recs != [] {
      var heading := lines + [RecommendationsHeading, ""];
      var bullets := AppendBullets(heading, recs);
      out := bullets + [""];
      assert out == lines + ([RecommendationsHeading, ""] + Bullets(recs) + [""]);
    }
  }

  /** `_final_report_to_markdown`: builds the list of lines section by section, then joins it. */
  method FinalReportToMarkdown(report: FinalReport, audit: Audit) returns (markdown: string)
    ensures markdown == Markdown(report, audit.externalId)
  {
    var lines := ["# Final Compliance Report: " + audit.externalId, "", SummaryHeading, "",
                  report.executiveSummary, ""];
    lines := AppendItemSection(lines, CriticalIssuesHeading, report.criticalIssues, CriticalIssueTitle);
    lines := AppendItemSection(lines, WarningsHeading, report.warnings, WarningTitle);
    lines := AppendRecommendationSection(lines, report.recommendations);
    lines := lines + [AssessmentHeading, "", report.overallAssessment, ""];
    markdown := Join(lines, "\n");
  }

  // ---------------------------------------------------------------------------
  // Markdown rendering (properties)
  // ---------------------------------------------------------------------------

  /**
   * Every report opens with the title line and the executive summary block,
   * and closes with the overall assessment block, whatever else it holds.
   */
  lemma MarkdownFrame(report: FinalReport, externalId: string)
    ensures var lines := MarkdownLines(report, externalId);
      && |lines| >= 10
      && lines[..6] == ["# Final Compliance Report: " + externalId, "", "## Executive Summary", "",
                        report.executiveSummary, ""]
      && lines[|lines| - 4..] == ["## Overall Assessment", "", report.overallAssessment, ""]
  {
    Framed(HeaderLines(report, externalId),
           ItemSection(CriticalIssuesHeading, report.criticalIssues, CriticalIssueTitle),
           ItemSection(WarningsHeading, report.warnings, WarningTitle),
           RecommendationSection(report.recommendations),
           AssessmentLines(report));
  }

  /** Five blocks of lines, one after the other, start with the first and end with the last. */
  lemma Framed<T>(first: seq<T>, b: seq<T>, c: seq<T>, d: seq<T>, last: seq<T>)
    ensures var lines := first + b + c + d + last;
      && |lines| >= |first| + |last|
      && lines[..|first|] == first
      && lines[|lines| - |last|..] == last
  {
    var lines := first + b + c + d + last;
    assert lines == first + (b + c + d + last);
    assert lines == (first + b + c + d) + last;
  }

  /**
   * An item's recommendations block, when it has one, is the label, exactly
   * one bullet per recommendation in input order, and a blank line; an item
   * without recommendations is the four heading and description lines only.
   */
  lemma ItemRecommendationBlock(item: Item, defaultTitle: string)
    ensures var lines := ItemLines(item, defaultTitle);
      var recs := item.recommendations;
      && lines[0] == "### " + (if item.title.Some? then item.title.value else defaultTitle)
      && lines[2] == (if item.description.Some? then item.description.value else "")
      && |lines| == (if recs == [] then 4 else |recs| + 6)
      && (recs != [] ==>
            && lines[4] == "**Recommendations:**"
            && (forall k :: 0 <= k < |recs| ==> lines[5 + k] == "- " + recs[k])
            && lines[|lines| - 1] == "")
  {
  }

  /** A line that reads as a level-2 Markdown heading. */
  predicate IsHeading(line: string) {
    StartsWith(line, "## ")
  }

  /** The level-2 headings among some lines, in order. */
  function Headings(lines: seq<string>): seq<string> {
    if lines == [] then []
    else Headings(lines[..|lines| - 1]) + (if IsHeading(lines[|lines| - 1]) then [lines[|lines| - 1]] else [])
  }

  lemma {:induction false} HeadingsAppend(a: seq<string>, b: seq<string>)
    ensures Headings(a + b) == Headings(a) + Headings(b)
    decreases |b|
  {
    if b == [] {
      assert a + b == a;
    } else {
      assert (a + b)[..|a + b| - 1] == a + b[..|b| - 1];
      assert (a + b)[|a + b| - 1] == b[|b| - 1];
      HeadingsAppend(a, b[..|b| - 1]);
    }
  }

  /** A line that does not start with "## " is not a heading. */
  lemma NotHeading(line: string, k: nat)
    requires k < 3 && k < |line| && line[k] != "## "[k]
    ensures !IsHeading(line)
  {
  }

  lemma {:induction false} NoHeadings(lines: seq<string>)
    requires forall k :: 0 <= k < |lines| ==> !IsHeading(lines[k])
    ensures Headings(lines) == []
  {
    if lines != [] {
      NoHeadings(lines[..|lines| - 1]);
    }
  }

  lemma OneHeading(heading: string, rest: seq<string>)
    requires IsHeading(heading)
    requires forall k :: 0 <= k < |rest| ==> !IsHeading(rest[k])
    ensures Headings([heading] + rest) == [heading]
  {
    assert [heading][..0] == [];
    NoHeadings(rest);
    HeadingsAppend([heading], rest);
  }

  lemma BulletsHaveNoHeadings(recs: seq<string>)
    ensures forall k :: 0 <= k < |recs| ==> !IsHeading(Bullets(recs)[k])
  {
    forall k | 0 <= k < |recs|
      ensures !IsHeading(Bullets(recs)[k])
    {
      NotHeading(Bullets(recs)[k], 0);
    }
  }

  /** The user-supplied text of an item never reads as a level-2 heading. */
  predicate PlainItem(item: Item) {
    !IsHeading(item.description.GetOr(""))
  }

  lemma ItemHasNoHeadings(item: Item, defaultTitle: string)
    requires PlainItem(item)
    ensures forall k :: 0 <= k < |ItemLines(item, defaultTitle)| ==> !IsHeading(ItemLines(item, defaultTitle)[k])
  {
    var lines := ItemLines(item, defaultTitle);
    var recs := item.recommendations;
    BulletsHaveNoHeadings(recs);
    forall k | 0 <= k < |lines|
      ensures !IsHeading(lines[k])
    {
      if k == 0 {
        NotHeading(lines[k], 2);
      } else if k == 4 {
        NotHeading(lines[k], 0);
      } else if 5 <= k < 5 + |recs| {
        assert lines[k] == Bullets(recs)[k - 5];
      }
    }
  }

  lemma {:induction false} ItemsHaveNoHeadings(items: seq<Item>, defaultTitle: string)
    requires forall k :: 0 <= k < |items| ==> PlainItem(items[k])
    ensures Headings(ItemsLines(items, defaultTitle)) == []
  {
    if items != [] {
      ItemsHaveNoHeadings(items[..|items| - 1], defaultTitle);
      ItemHasNoHeadings(items[|items| - 1], defaultTitle);
      NoHeadings(ItemLines(items[|items| - 1], defaultTitle));
      HeadingsAppend(ItemsLines(items[..|items| - 1], defaultTitle), ItemLines(items[|items| - 1], defaultTitle));
    }
  }

  /** No user-supplied line of the report reads as a level-2 heading. */
  predicate PlainReport(report: FinalReport) {
    && !IsHeading(report.executiveSummary)
    && !IsHeading(report.overallAssessment)
    && (forall k :: 0 <= k < |report.criticalIssues| ==> PlainItem(report.criticalIssues[k]))
    && (forall k :: 0 <= k < |report.warnings| ==> PlainItem(report.warnings[k]))
  }

  /**
   * The section headings of a rendered report: the executive summary, then
   * "## Critical Issues" exactly when there are critical issues, "## Warnings"
   * exactly when there are warnings, "## Overall Recommendations" exactly when
   * there are overall recommendations, and always the overall assessment last.
   */
  lemma MarkdownHeadings(report: FinalReport, externalId: string)
    requires PlainReport(report)
    ensures Headings(MarkdownLines(report, externalId)) ==
      ["## Executive Summary"]
      + (if report.criticalIssues != [] then ["## Critical Issues"] else [])
      + (if report.warnings != [] then ["## Warnings"] else [])
      + (if report.recommendations != [] then ["## Overall Recommendations"] else [])
      + ["## Overall Assessment"]
  {
    var header := HeaderLines(report, externalId);
    var critical := ItemSection(CriticalIssuesHeading, report.criticalIssues, CriticalIssueTitle);
    var warnings := ItemSection(WarningsHeading, report.warnings, WarningTitle);
    var recs := RecommendationSection(report.recommendations);
    var assessment := AssessmentLines(report);
    HeadingConstants();
    HeaderHeadings(report, externalId);
    SectionHeadings(CriticalIssuesHeading, report.criticalIssues, CriticalIssueTitle);
    SectionHeadings(WarningsHeading, report.warnings, WarningTitle);
    RecommendationSectionHeadings(report.recommendations);
    AssessmentHeadings(report);
    assert MarkdownLines(report, externalId) == header + critical + warnings + recs + assessment;
    HeadingsOfBlocks(header, critical, warnings, recs, assessment);
  }

  lemma HeadingConstants()
    ensures IsHeading(CriticalIssuesHeading) && IsHeading(WarningsHeading)
    ensures IsHeading(RecommendationsHeading) && IsHeading(AssessmentHeading) && IsHeading(SummaryHeading)
  {
    assert CriticalIssuesHeading[..3] == "## ";
    assert WarningsHeading[..3] == "## ";
    assert RecommendationsHeading[..3] == "## ";
    assert AssessmentHeading[..3] == "## ";
    assert SummaryHeading[..3] == "## ";
  }

  /** The headings of five blocks of lines are the headings of each block, in turn. */
  lemma HeadingsOfBlocks(a: seq<string>, b: seq<string>, c: seq<string>, d: seq<string>, e: seq<string>)
    ensures Headings(a + b + c + d + e) == Headings(a) + Headings(b) + Headings(c) + Headings(d) + Headings(e)
  {
    HeadingsAppend(a, b);
    HeadingsAppend(a + b, c);
    HeadingsAppend(a + b + c, d);
    HeadingsAppend(a + b + c + d, e);
  }

  lemma RecommendationSectionHeadings(recs: seq<string>)
    ensures Headings(RecommendationSection(recs)) == (if recs == [] then [] else [RecommendationsHeading])
  {
    if recs != [] {
      var bullets := Bullets(recs);
      BulletsHaveNoHeadings(recs);
      NoHeadings(bullets);
      NoHeadings([""]);
      HeadingThenBlank(RecommendationsHeading);
      HeadingsAppend([RecommendationsHeading, ""], bullets);
      HeadingsAppend([RecommendationsHeading, ""] + bullets, [""]);
    }
  }

  /** A heading followed by a blank line holds just that heading. */
  lemma HeadingThenBlank(heading: string)
    requires IsHeading(heading)
    ensures Headings([heading, ""]) == [heading]
  {
    OneHeading(heading, [""]);
    assert [heading, ""] == [heading] + [""];
  }

  lemma AssessmentHeadings(report: FinalReport)
    requires !IsHeading(report.overallAssessment)
    ensures Headings(AssessmentLines(report)) == [AssessmentHeading]
  {
    var lines := AssessmentLines(report);
    OneHeading(AssessmentHeading, lines[1..]);
    assert lines == [AssessmentHeading] + lines[1..];
  }

  lemma HeaderHeadings(report: FinalReport, externalId: string)
    requires !IsHeading(report.executiveSummary)
    ensures Headings(HeaderLines(report, externalId)) == [SummaryHeading]
  {
    var header := HeaderLines(report, externalId);
    NotHeading(header[0], 1);
    NoHeadings(header[..2]);
    OneHeading(SummaryHeading, header[3..]);
    assert header == header[..2] + ([SummaryHeading] + header[3..]);
    HeadingsAppend(header[..2], [SummaryHeading] + header[3..]);
  }

  lemma SectionHeadings(heading: string, items: seq<Item>, defaultTitle: string)
    requires IsHeading(heading)
    requires forall k :: 0 <= k < |items| ==> PlainItem(items[k])
    ensures Headings(ItemSection(heading, items, defaultTitle)) == (if items == [] then [] else [heading])
  {
    if items != [] {
      ItemsHaveNoHeadings(items, defaultTitle);
      HeadingThenBlank(heading);
      HeadingsAppend([heading, ""], ItemsLines(items, defaultTitle));
    }
  }

  /** Text without a line break. */
  predicate SingleLine(s: string) {
    '\n' !in s
  }

  predicate AllSingleLine(lines: seq<string>) {
    forall k :: 0 <= k < |lines| ==> SingleLine(lines[k])
  }

  predicate SingleLineItem(item: Item) {
    && SingleLine(item.title.GetOr(""))
    && SingleLine(item.description.GetOr(""))
    && (forall k :: 0 <= k < |item.recommendations| ==> SingleLine(item.recommendations[k]))
  }

  /** No text that goes into the report holds a line break. */
  predicate SingleLineReport(report: FinalReport, externalId: string) {
    && SingleLine(externalId)
    && SingleLine(report.executiveSummary)
    && SingleLine(report.overallAssessment)
    && (forall k :: 0 <= k < |report.criticalIssues| ==> SingleLineItem(report.criticalIssues[k]))
    && (forall k :: 0 <= k < |report.warnings| ==> SingleLineItem(report.warnings[k]))
    && (forall k :: 0 <= k < |report.recommendations| ==> SingleLine(report.recommendations[k]))
  }

  lemma ItemLinesSingle(item: Item, defaultTitle: string)
    requires SingleLineItem(item) && SingleLine(defaultTitle)
    ensures AllSingleLine(ItemLines(item, defaultTitle))
  {
    var lines := ItemLines(item, defaultTitle);
    var recs := item.recommendations;
    forall k | 0 <= k < |lines|
      ensures SingleLine(lines[k])
    {
      if 5 <= k < 5 + |recs| {
        assert lines[k] == "- " + recs[k - 5];
      }
    }
  }

  lemma {:induction false} ItemsLinesSingle(items: seq<Item>, defaultTitle: string)
    requires forall k :: 0 <= k < |items| ==> SingleLineItem(items[k])
    requires SingleLine(defaultTitle)
    ensures AllSingleLine(ItemsLines(items, defaultTitle))
  {
    if items != [] {
      ItemsLinesSingle(items[..|items| - 1], defaultTitle);
      ItemLinesSingle(items[|items| - 1], defaultTitle);
    }
  }

  lemma AllSingleLineAppend(a: seq<string>, b: seq<string>)
    requires AllSingleLine(a) && AllSingleLine(b)
    ensures AllSingleLine(a + b)
  {
    forall k | 0 <= k < |a + b|
      ensures SingleLine((a + b)[k])
    {
      if k >= |a| {
        assert (a + b)[k] == b[k - |a|];
      }
    }
  }

  lemma RecommendationSectionSingle(recs: seq<string>)
    requires forall k :: 0 <= k < |recs| ==> SingleLine(recs[k])
    ensures AllSingleLine(RecommendationSection(recs))
  {
    var lines := RecommendationSection(recs);
    forall k | 0 <= k < |lines|
      ensures SingleLine(lines[k])
    {
      if 2 <= k < 2 + |recs| {
        assert lines[k] == "- " + recs[k - 2];
      }
    }
  }

  lemma ItemSectionSingle(heading: string, items: seq<Item>, defaultTitle: string)
    requires SingleLine(heading) && SingleLine(defaultTitle)
    requires forall k :: 0 <= k < |items| ==> SingleLineItem(items[k])
    ensures AllSingleLine(ItemSection(heading, items, defaultTitle))
  {
    if items != [] {
      ItemsLinesSingle(items, defaultTitle);
      AllSingleLineAppend([heading, ""], ItemsLines(items, defaultTitle));
    }
  }

  lemma MarkdownLinesSingle(report: FinalReport, externalId: string)
    requires SingleLineReport(report, externalId)
    ensures AllSingleLine(MarkdownLines(report, externalId))
  {
    var header := HeaderLines(report, externalId);
    var critical := ItemSection(CriticalIssuesHeading, report.criticalIssues, CriticalIssueTitle);
    var warnings := ItemSection(WarningsHeading, report.warnings, WarningTitle);
    var recs := RecommendationSection(report.recommendations);
    var assessment := AssessmentLines(report);
    FrameSingle(report, externalId);
    ConstantsSingle();
    ItemSectionSingle(CriticalIssuesHeading, report.criticalIssues, CriticalIssueTitle);
    ItemSectionSingle(WarningsHeading, report.warnings, WarningTitle);
    RecommendationSectionSingle(report.recommendations);
    AllSingleLineBlocks(header, critical, warnings, recs, assessment);
  }

  lemma ConstantsSingle()
    ensures SingleLine(CriticalIssuesHeading) && SingleLine(CriticalIssueTitle)
    ensures SingleLine(WarningsHeading) && SingleLine(WarningTitle)
  {
  }

  lemma FrameSingle(report: FinalReport, externalId: string)
    requires SingleLine(externalId) && SingleLine(report.executiveSummary) && SingleLine(report.overallAssessment)
    ensures AllSingleLine(HeaderLines(report, externalId))
    ensures AllSingleLine(AssessmentLines(report))
  {
    var title := "# Final Compliance Report: " + externalId;
    assert forall k :: 0 <= k < |title| - |externalId| ==> title[k] == "# Final Compliance Report: "[k];
    assert forall k :: |title| - |externalId| <= k < |title| ==> title[k] == externalId[k - (|title| - |externalId|)];
  }

  lemma AllSingleLineBlocks(a: seq<string>, b: seq<string>, c: seq<string>, d: seq<string>, e: seq<string>)
    requires AllSingleLine(a) && AllSingleLine(b) && AllSingleLine(c) && AllSingleLine(d) && AllSingleLine(e)
    ensures AllSingleLine(a + b + c + d + e)
  {
    AllSingleLineAppend(a, b);
    AllSingleLineAppend(a + b, c);
    AllSingleLineAppend(a + b + c, d);
    AllSingleLineAppend(a + b + c + d, e);
  }

  /**
   * When no text in the report holds a line break, splitting the rendered
   * Markdown on line breaks gives back exactly the lines it was built from.
   */
  lemma MarkdownSplitsIntoLines(report: FinalReport, externalId: string)
    requires SingleLineReport(report, externalId)
    ensures Split(Markdown(report, externalId), '\n') == MarkdownLines(report, externalId)
  {
    MarkdownLinesSingle(report, externalId);
    SplitJoin(MarkdownLines(report, externalId), '\n');
  }

  // ---------------------------------------------------------------------------
  // Finding an audit
  // ---------------------------------------------------------------------------

  /** Why a lookup raises instead of answering. */
  datatype LookupError =
    | InvalidLiteral(literal: string)     // `int()` refuses the identifier
    | KeyOutOfRange(literal: string)      // SQLite cannot bind the primary key (`OverflowError`)
    | MultipleResults(externalId: string) // `scalar_one_or_none()` finds several rows

  /**
   * The most digits `int()` converts from a string: CPython's default limit
   * on integer string conversion. Every digit counts, leading zeros included.
   */
  const MaxIntDigits: nat := 4300

  /** The largest value of SQLite's 64-bit signed INTEGER. */
  const SqliteMaxInteger: nat := 0x7FFF_FFFF_FFFF_FFFF

  /** `session.get(Audit, pk)`: the audit with that primary key, if any. */
  function AuditById(audits: seq<Audit>, id: int): (r: Option<Audit>)
    ensures r.Some? ==> r.value in audits && r.value.id == id
    ensures r.None? ==> forall a :: a in audits ==> a.id != id
  {
    if audits == [] then None
    else if audits[0].id == id then Some(audits[0])
    else AuditById(audits[1..], id)
  }

  /**
   * A decimal identifier that `int()` converts and SQLite can bind as a
   * primary key.
   */
  predicate ReadableKey(identifier: string) {
    IsDecimal(identifier) && |identifier| <= MaxIntDigits && DecimalValue(identifier) <= SqliteMaxInteger
  }

  /**
   * `session.get(Audit, int(identifier))` for a decimal identifier: `int()`
   * raises on more than `MaxIntDigits` digits, and binding a key beyond
   * SQLite's INTEGER range raises; otherwise the audit with that key, if any.
   */
  function AuditByKey(audits: seq<Audit>, identifier: string): (r: Result<Option<Audit>, LookupError>)
    requires IsDecimal(identifier)
    ensures r.Success? <==> ReadableKey(identifier)
    ensures r.Success? && r.value.Some? ==> r.value.value in audits && r.value.value.id == DecimalValue(identifier)
    ensures r.Success? && r.value.None? ==> forall a :: a in audits ==> a.id != DecimalValue(identifier)
    ensures r.Failure? && |identifier| > MaxIntDigits ==> r.error == InvalidLiteral(identifier)
    ensures r.Failure? && |identifier| <= MaxIntDigits ==> r.error == KeyOutOfRange(identifier)
  {
    if |identifier| > MaxIntDigits then Failure(InvalidLiteral(identifier))
    else if DecimalValue(identifier) > SqliteMaxInteger then Failure(KeyOutOfRange(identifier))
    else Success(AuditById(audits, DecimalValue(identifier)))
  }

  /** The audits whose external id is `externalId`, in table order. */
  function WithExternalId(audits: seq<Audit>, externalId: string): (r: seq<Audit>)
    ensures forall a :: a in r <==> a in audits && a.externalId == externalId
    ensures |r| <= |audits|
  {
    if audits == [] then []
    else (if audits[0].externalId == externalId then [audits[0]] else []) + WithExternalId(audits[1..], externalId)
  }

  /** `scalar_one_or_none()`: no row, the one row, or an error for several. */
  function OneOrNone(rows: seq<Audit>, externalId: string): (r: Result<Option<Audit>, LookupError>)
    ensures r == Success(None) <==> rows == []
    ensures r.Success? && r.value.Some? <==> |rows| == 1
    ensures r.Success? && r.value.Some? ==> r.value.value == rows[0]
    ensures r.Failure? <==> |rows| >= 2
    ensures r.Failure? ==> r.error == MultipleResults(externalId)
  {
    if |rows| == 0 then Success(None)
    else if |rows| == 1 then Success(Some(rows[0]))
    else Failure(MultipleResults(externalId))
  }

  /**
   * `_resolve_audit` as written: an identifier that `str.isdigit()` accepts is
   * read with `int()` as a primary key; any other is looked up as an external
   * id. `int()` raises on the digits that `isdigit()` lets through but that
   * are not decimal, such as superscript two or circled one, and on decimal
   * identifiers that are too long.
   */
  function ResolveAuditAsWritten(audits: seq<Audit>, identifier: string): (r: Result<Option<Audit>, LookupError>)
    ensures r.Failure? && r.error.InvalidLiteral? <==>
      IsDigits(identifier) && (!IsDecimal(identifier) || |identifier| > MaxIntDigits)
    ensures r.Failure? && r.error.KeyOutOfRange? <==>
      IsDecimal(identifier) && |identifier| <= MaxIntDigits && DecimalValue(identifier) > SqliteMaxInteger
    ensures r.Failure? && r.error.MultipleResults? ==> !IsDigits(identifier)
  {
    if IsDigits(identifier) then
      if IsDecimal(identifier) then AuditByKey(audits, identifier)
      else Failure(InvalidLiteral(identifier))
    else OneOrNone(WithExternalId(audits, identifier), identifier)
  }

  /**
   * `_resolve_audit` with the test `int()` can honour (`str.isdecimal()`): a
   * decimal identifier is a primary key, anything else an external id. The
   * lookup raises when several audits share that external id, and on a
   * decimal identifier that is too long for `int()` or too large for SQLite.
   */
  function ResolveAudit(audits: seq<Audit>, identifier: string): (r: Result<Option<Audit>, LookupError>)
    ensures ReadableKey(identifier) ==> r.Success?
    ensures ReadableKey(identifier) && r.value.Some? ==>
      r.value.value in audits && r.value.value.id == DecimalValue(identifier)
    ensures ReadableKey(identifier) && r.value.None? ==>
      forall a :: a in audits ==> a.id != DecimalValue(identifier)
    ensures !IsDecimal(identifier) && r.Success? && r.value.Some? ==>
      r.value.value in audits && r.value.value.externalId == identifier
    ensures !IsDecimal(identifier) ==>
      (r == Success(None) <==> forall a :: a in audits ==> a.externalId != identifier)
    ensures r.Failure? <==>
      (IsDecimal(identifier) && !ReadableKey(identifier))
      || (!IsDecimal(identifier) && |WithExternalId(audits, identifier)| >= 2)
    ensures r.Failure? && !IsDecimal(identifier) ==> r.error == MultipleResults(identifier)
    ensures r.Failure? && IsDecimal(identifier) ==>
      r.error == (if |identifier| > MaxIntDigits then InvalidLiteral(identifier) else KeyOutOfRange(identifier))
  {
    if IsDecimal(identifier) then AuditByKey(audits, identifier)
    else
      var rows := WithExternalId(audits, identifier);
      assert rows == [] <==> forall a :: a in audits ==> a.externalId != identifier by {
        if rows != [] {
          assert rows[0] in rows;
        }
      }
      OneOrNone(rows, identifier)
  }

  /**
   * The two lookups agree except on identifiers made of digits of which at
   * least one is not decimal. The written lookup raises `int()`'s error on
   * exactly those and on decimal identifiers that are too long.
   */
  lemma ResolveAuditDiffersOnlyOnDigitOnly(audits: seq<Audit>, identifier: string)
    ensures ResolveAuditAsWritten(audits, identifier) == Failure(InvalidLiteral(identifier))
        <==> IsDigits(identifier) && (!IsDecimal(identifier) || |identifier| > MaxIntDigits)
    ensures !(IsDigits(identifier) && !IsDecimal(identifier)) ==>
      ResolveAuditAsWritten(audits, identifier) == ResolveAudit(audits, identifier)
  {
    if IsDecimal(identifier) {
      assert IsDigits(identifier);
    }
  }

  // ---------------------------------------------------------------------------
  // The completed-status gate
  // ---------------------------------------------------------------------------

  const CompletedStatus := "completed"

  /** What a final-report route does before generating anything. */
  datatype Gate =
    | NotFound(identifier: string) // 404, "Audit '<id>' not found."
    | NotCompleted                 // 400, the audit is not completed yet
    | ServerError                  // 500, the lookup raised outside the route's handler
    | Proceed(audit: Audit)        // the report is generated for this audit

  function StatusCode(g: Gate): int
    requires !g.Proceed?
  {
    match g
    case NotFound(_) => 404
    case NotCompleted => 400
    case ServerError => 500
  }

  function ErrorMessage(g: Gate): string
    requires g.NotFound? || g.NotCompleted?
  {
    if g.NotFound? then "Audit '" + g.identifier + "' not found."
    else "Audit must be completed before generating final report."
  }

  function GateOn(lookup: Result<Option<Audit>, LookupError>, identifier: string): Gate {
    match lookup
    case Failure(_) => ServerError
    case Success(None) => NotFound(identifier)
    case Success(Some(audit)) => if audit.status != CompletedStatus then NotCompleted else Proceed(audit)
  }

  /** The gate of the final-report routes, on the corrected lookup. */
  function ReportGate(audits: seq<Audit>, identifier: string): Gate {
    GateOn(ResolveAudit(audits, identifier), identifier)
  }

  /** The gate of the final-report routes as written. */
  function ReportGateAsWritten(audits: seq<Audit>, identifier: string): Gate {
    GateOn(ResolveAuditAsWritten(audits, identifier), identifier)
  }

  /**
   * A report is generated only for an audit that exists and is completed,
   * and then for the audit the identifier names; a missing audit is a 404
   * and an audit in any other status a 400.
   */
  lemma ReportGateDecides(audits: seq<Audit>, identifier: string)
    ensures var g := ReportGate(audits, identifier);
      && (g.Proceed? <==> ResolveAudit(audits, identifier).Success?
                          && ResolveAudit(audits, identifier).value.Some?
                          && ResolveAudit(audits, identifier).value.value.status == "completed")
      && (g.Proceed? ==> g.audit in audits && g.audit.status == "completed"
                         && (if IsDecimal(identifier) then g.audit.id == DecimalValue(identifier)
                             else g.audit.externalId == identifier))
      && (g.NotFound? <==> ResolveAudit(audits, identifier) == Success(None))
      && (g.NotCompleted? <==> ResolveAudit(audits, identifier).Success?
                               && ResolveAudit(audits, identifier).value.Some?
                               && ResolveAudit(audits, identifier).value.value in audits
                               && ResolveAudit(audits, identifier).value.value.status != "completed")
      && (g.ServerError? <==>
            (IsDecimal(identifier) && !ReadableKey(identifier))
            || (!IsDecimal(identifier) && |WithExternalId(audits, identifier)| >= 2))
  {
    var g := ReportGate(audits, identifier);
    if g.Proceed? && !IsDecimal(identifier) {
      assert g.audit.externalId == identifier;
    }
  }

  /**
   * The lookup of `_resolve_audit` as written turns the identifier "²" (a
   * superscript two, which `str.isdigit()` accepts and `int()` rejects) into
   * a server error where no such audit should give a 404.
   */
  lemma SuperscriptIdentifierCrashes(audits: seq<Audit>)
    requires forall a :: a in audits ==> a.externalId != "\U{B2}"
    ensures ResolveAuditAsWritten(audits, "\U{B2}") == Failure(InvalidLiteral("\U{B2}"))
    ensures ReportGateAsWritten(audits, "\U{B2}") == ServerError
    ensures ReportGate(audits, "\U{B2}") == NotFound("\U{B2}")
  {
    assert IsDigitOnlyChar("\U{B2}"[0]);
    assert !IsDecimal("\U{B2}") by {
      assert !IsDecimalChar("\U{B2}"[0]);
    }
  }

  /**
   * A decimal identifier of more than 4300 digits, or one naming a key beyond
   * SQLite's range, is a server error on both lookups, never a 404.
   */
  lemma UnreadableKeyIsServerError(audits: seq<Audit>, identifier: string)
    requires IsDecimal(identifier) && !ReadableKey(identifier)
    ensures ReportGateAsWritten(audits, identifier) == ServerError
    ensures ReportGate(audits, identifier) == ServerError
  {
    assert IsDigits(identifier);
  }

  // ---------------------------------------------------------------------------
  // The name of the downloaded report
  // ---------------------------------------------------------------------------

  datatype ExportFormat = Json | Pdf | Docx

  function FormatExtension(format: ExportFormat): string {
    match format
    case Json => "json"
    case Pdf => "pdf"
    case Docx => "docx"
  }

  /** `session.get(Document, pk)`. */
  function DocumentById(documents: seq<StoredDocument>, id: int): (r: Option<StoredDocument>)
    ensures r.Some? ==> r.value in documents && r.value.id == id
    ensures r.None? ==> forall d :: d in documents ==> d.id != id
  {
    if documents == [] then None
    else if documents[0].id == id then Some(documents[0])
    else DocumentById(documents[1..], id)
  }

  /** The audit's document, looked up only when `document_id` is set and non-zero. */
  function AuditDocument(documents: seq<StoredDocument>, documentId: Option<int>): Option<StoredDocument> {
    if documentId.None? || documentId.value == 0 then None else DocumentById(documents, documentId.value)
  }

  /**
   * The name part as written: the original filename with every occurrence
   * of its suffix removed, or `audit_<external id>` without a document.
   */
  function AuditNameAsWritten(document: Option<StoredDocument>, externalId: string): (name: string)
    ensures document.Some? ==> |name| <= |document.value.originalFilename|
  {
    if document.Some? then
      var filename := document.value.originalFilename;
      RemoveAll(filename, Suffix(filename))
    else "audit_" + externalId
  }

  /** `PurePosixPath(p).stem`: the name without its suffix. */
  function Stem(p: string): (stem: string)
    ensures stem + Suffix(p) == Name(p)
  {
    var name := Name(p);
    name[..|name| - |NameSuffix(name)|]
  }

  /** The name part with only the trailing suffix removed. */
  function AuditName(document: Option<StoredDocument>, externalId: string): (name: string)
    ensures document.Some? ==>
      name + Suffix(document.value.originalFilename) == Name(document.value.originalFilename)
  {
    if document.Some? then Stem(document.value.originalFilename) else "audit_" + externalId
  }

  /** The download name: `final_report_<name>_<date>.<format>`. */
  function DownloadFilename(audit: Audit, documents: seq<StoredDocument>, dateStr: string,
                            format: ExportFormat): string
  {
    "final_report_" + AuditName(AuditDocument(documents, audit.documentId), audit.externalId)
    + DownloadTail(dateStr, format)
  }

  /** The download name as written, with every occurrence of the suffix removed from the name part. */
  function DownloadFilenameAsWritten(audit: Audit, documents: seq<StoredDocument>, dateStr: string,
                                     format: ExportFormat): string
  {
    "final_report_" + AuditNameAsWritten(AuditDocument(documents, audit.documentId), audit.externalId)
    + DownloadTail(dateStr, format)
  }

  /** The end of every download name: `_<date>.<format>`. */
  function DownloadTail(dateStr: string, format: ExportFormat): string {
    "_" + dateStr + "." + FormatExtension(format)
  }

  /**
   * Every download name starts with "final_report_" and ends with the date
   * and the format's extension; an audit without a document (no id, id 0,
   * or no such row) is named after its external id.
   */
  lemma DownloadFilenameShape(audit: Audit, documents: seq<StoredDocument>, dateStr: string, format: ExportFormat)
    ensures var f := DownloadFilename(audit, documents, dateStr, format);
      var tail := DownloadTail(dateStr, format);
      && StartsWith(f, "final_report_")
      && |f| >= 13 + |tail| && f[|f| - |tail|..] == tail
      && (AuditDocument(documents, audit.documentId).None? ==>
            f == "final_report_audit_" + audit.externalId + tail)
      && (AuditDocument(documents, audit.documentId).Some? ==>
            f == "final_report_" + Stem(AuditDocument(documents, audit.documentId).value.originalFilename) + tail)
  {
    var tail := DownloadTail(dateStr, format);
    var document := AuditDocument(documents, audit.documentId);
    var name := AuditName(document, audit.externalId);
    NamedDownload(name, tail);
    if document.None? {
      assert "final_report_" + name + tail == "final_report_audit_" + audit.externalId + tail;
    }
  }

  /**
   * The download name as written has the same frame: it starts with
   * "final_report_" and ends with the date and extension; without a document
   * it is the same name, and with one its name part is the original file
   * name with every occurrence of the suffix removed.
   */
  lemma DownloadFilenameAsWrittenShape(audit: Audit, documents: seq<StoredDocument>, dateStr: string,
                                       format: ExportFormat)
    ensures var f := DownloadFilenameAsWritten(audit, documents, dateStr, format);
      var tail := DownloadTail(dateStr, format);
      var document := AuditDocument(documents, audit.documentId);
      && StartsWith(f, "final_report_")
      && |f| >= 13 + |tail| && f[|f| - |tail|..] == tail
      && (document.None? ==> f == DownloadFilename(audit, documents, dateStr, format))
      && (document.Some? ==>
            f == "final_report_" + RemoveAll(document.value.originalFilename, Suffix(document.value.originalFilename)) + tail)
  {
    var tail := DownloadTail(dateStr, format);
    var document := AuditDocument(documents, audit.documentId);
    NamedDownload(AuditNameAsWritten(document, audit.externalId), tail);
  }

  /**
   * The two download names agree for a plain file name whose suffix occurs
   * only at its end.
   */
  lemma DownloadNamesAgree(audit: Audit, documents: seq<StoredDocument>, dateStr: string, format: ExportFormat)
    requires var document := AuditDocument(documents, audit.documentId);
      document.Some? ==>
        var f := document.value.originalFilename;
        '/' !in f && f != "" && f != "." && !Contains(f[..|f| - 1], Suffix(f))
    ensures DownloadFilenameAsWritten(audit, documents, dateStr, format) == DownloadFilename(audit, documents, dateStr, format)
  {
    var document := AuditDocument(documents, audit.documentId);
    if document.Some? {
      AsWrittenNameIsStem(document.value, audit.externalId);
    }
  }

  /** A download name made of the prefix, a name part and a tail. */
  lemma NamedDownload(name: string, tail: string)
    ensures var f := "final_report_" + name + tail;
      && StartsWith(f, "final_report_")
      && |f| >= 13 + |tail| && f[|f| - |tail|..] == tail
  {
    var f := "final_report_" + name + tail;
    assert f[..13] == "final_report_";
  }

  /** A file name with no `/` that is neither empty nor "." is its own `PurePath.name`. */
  lemma PlainName(filename: string)
    requires '/' !in filename && filename != "" && filename != "."
    ensures Name(filename) == filename
  {
    SplitWithoutSeparator(filename, '/');
  }

  /**
   * On a plain file name whose suffix occurs only at its end, removing every
   * occurrence of the suffix is the same as taking the stem.
   */
  lemma AsWrittenNameIsStem(document: StoredDocument, externalId: string)
    requires '/' !in document.originalFilename
    requires document.originalFilename != "" && document.originalFilename != "."
    requires var f := document.originalFilename; !Contains(f[..|f| - 1], Suffix(f))
    ensures AuditNameAsWritten(Some(document), externalId) == AuditName(Some(document), externalId)
  {
    var f := document.originalFilename;
    PlainName(f);
    RemoveTrailingSuffix(f, Stem(f), Suffix(f));
  }

  /** Removing every copy of an ending that occurs only at the end leaves what precedes it. */
  lemma RemoveTrailingSuffix(f: string, stem: string, x: string)
    requires f != [] && stem + x == f
    requires !Contains(f[..|f| - 1], x)
    ensures RemoveAll(f, x) == stem
  {
    if x == [] {
      assert stem == f;
    } else {
      RemoveAllTrailing(stem, x);
    }
  }

  /**
   * Removing every occurrence of the suffix also eats an earlier copy of it:
   * "notes.md.md" becomes "notes" where its stem is "notes.md".
   */
  lemma RepeatedSuffixIsRemovedTwice(externalId: string)
    ensures AuditNameAsWritten(Some(StoredDocument(1, "notes.md.md")), externalId) == "notes"
    ensures AuditName(Some(StoredDocument(1, "notes.md.md")), externalId) == "notes.md"
  {
    NotesSuffix();
    NotesRemoval();
    NotesStem();
  }

  lemma NotesSuffix()
    ensures Name("notes.md.md") == "notes.md.md"
    ensures Suffix("notes.md.md") == ".md"
  {
    PlainName("notes.md.md");
    SuffixOfEnding("notes.md.md", ".md");
  }

  lemma NotesStem()
    ensures Stem("notes.md.md") == "notes.md"
  {
    var f := "notes.md.md";
    NotesSuffix();
    var stem := Stem(f);
    assert stem + ".md" == f;
    assert |stem| == 8;
    assert stem == f[..8];
  }

  lemma NotesRemoval()
    ensures RemoveAll("notes.md.md", ".md") == "notes"
  {
    var p := ".md";
    var a := "notes";
    RemoveAllDrops(p, "");
    assert p + "" == p;
    RemoveAllDrops(p, p);
    RemoveAllKeepsPrefix(a, p + p, p);
    assert a + (p + p) == "notes.md.md";
  }
}
