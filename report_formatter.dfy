/**
 * Report rendering (src/reportFormatter.js): the Slack text for a charity
 * record, and the four error templates.
 *
 * Lengths are JavaScript lengths, counted in UTF-16 code units. Showing a
 * website link needs `extractDomainFromUrl`, which parses a URL; it is the
 * parameter `hostLabel`.
 */
module ReportFormatter {
  import opened Wrappers
  import opened Text
  import opened CharityLookup

  // ---------------------------------------------------------------------------
  // formatErrorMessage
  // ---------------------------------------------------------------------------

  const NotFoundError := "not_found"
  const ExtractionFailedError := "extraction_failed"
  const ApiError := "api_error"

  const NotFoundLead := "\U{2753}" + " I couldn't find reliable information about \""
  const NotFoundTail := "\" from available sources.\n\n"
    + "\U{1F4A1} *Try:*\n"
    + "\U{2022} Check the spelling\n"
    + "\U{2022} Use the official charity name\n"
    + "\U{2022} Try searching for key words from the charity name"
  const ExtractionFailedText := "\U{1F914}" + " I couldn't identify a charity name in that message.\n\n\U{1F4A1} *Tip:* Make sure to mention a specific charity or organization name in your message."
  const ApiErrorText := "\U{26A0}" + "\U{FE0F} Sorry, I'm having trouble searching for charity information right now.\n\n\U{1F504} Please try again in a moment."
  const OtherErrorLead := "\U{274C}" + " Something went wrong while searching for \""
  const OtherErrorTail := "\".\n\n\U{1F504} Please try again later."

  /** The four templates of the `switch`; any unrecognised error type takes the default one. */
  datatype ErrorTemplate = NotFoundTemplate | ExtractionFailedTemplate | ApiErrorTemplate | OtherTemplate

  function TemplateFor(errorType: string): ErrorTemplate {
    if errorType == NotFoundError then NotFoundTemplate
    else if errorType == ExtractionFailedError then ExtractionFailedTemplate
    else if errorType == ApiError then ApiErrorTemplate
    else OtherTemplate
  }

  /** Which template a message came from, read off its leading emoji. */
  function TemplateOfMessage(message: string): Option<ErrorTemplate> {
    if message == [] then None
    else if message[0] == '\U{2753}' then Some(NotFoundTemplate)
    else if message[0] == '\U{1F914}' then Some(ExtractionFailedTemplate)
    else if message[0] == '\U{26A0}' then Some(ApiErrorTemplate)
    else if message[0] == '\U{274C}' then Some(OtherTemplate)
    else None
  }

  /** The quoted name inside a message of a template that embeds one. */
  function NameInMessage(message: string, template: ErrorTemplate): string
    requires template == NotFoundTemplate || template == OtherTemplate
  {
    var lead := if template == NotFoundTemplate then |NotFoundLead| else |OtherErrorLead|;
    var tail := if template == NotFoundTemplate then |NotFoundTail| else |OtherErrorTail|;
    if lead + tail <= |message| then message[lead..|message| - tail] else ""
  }

  /** `formatErrorMessage(charityName, errorType = 'api_error')`. */
  function FormatErrorMessage(charityName: string, errorType: string := ApiError): (message: string)
    ensures TemplateOfMessage(message) == Some(TemplateFor(errorType))
  {
    if errorType == NotFoundError then
      var message := NotFoundLead + charityName + NotFoundTail;
      assert message[0] == NotFoundLead[0];
      message
    else if errorType == ExtractionFailedError then ExtractionFailedText
    else if errorType == ApiError then ApiErrorText
    else
      var message := OtherErrorLead + charityName + OtherErrorTail;
      assert message[0] == OtherErrorLead[0];
      message
  }

  /**
   * The `not_found` and default templates quote the charity name, and it can
   * be read back out of the message; the `extraction_failed` and `api_error`
   * templates are the same whatever the name.
   */
  lemma ErrorMessageNames(charityName: string, otherName: string, errorType: string)
    ensures var template := TemplateFor(errorType);
      && (template == NotFoundTemplate || template == OtherTemplate ==>
            NameInMessage(FormatErrorMessage(charityName, errorType), template) == charityName)
      && (template == ExtractionFailedTemplate || template == ApiErrorTemplate ==>
            FormatErrorMessage(charityName, errorType) == FormatErrorMessage(otherName, errorType))
  {
    var template := TemplateFor(errorType);
    var message := FormatErrorMessage(charityName, errorType);
    if template == NotFoundTemplate {
      assert message[|NotFoundLead|..|message| - |NotFoundTail|] == charityName;
    } else if template == OtherTemplate {
      assert message[|OtherErrorLead|..|message| - |OtherErrorTail|] == charityName;
    }
  }

  /** Leaving out the error type is the same as asking for `api_error`. */
  lemma DefaultErrorTypeIsApiError(charityName: string)
    ensures FormatErrorMessage(charityName) == ApiErrorText
    ensures TemplateOfMessage(FormatErrorMessage(charityName)) == Some(ApiErrorTemplate)
  {
  }

  // ---------------------------------------------------------------------------
  // formatCharityReport
  // ---------------------------------------------------------------------------

  const SummarySentinel := "Information not available"
  const ActivitiesSentinel := "Information not available"
  const MaxAreas := 5
  const MaxCitations := 3
  const TruncationLimit := 39000
  const TruncationMarker := "... _[truncated due to Slack message limit]_"
  const ShowingMostRelevant := "_Showing most relevant result_\n"
  const GatheredFromSearch := "_Information gathered from web search_\n"
  const SummaryLead := "\U{1F4DD} "
  const IdLead := "\U{1F194} *Registration ID:* "
  const FoundedLead := "\U{1F5D3}\U{FE0F} *Founded:* "
  const WebsiteLead := "\U{1F310} *Website:* <"
  const ActivitiesLead := "*What they do:* "
  const AreasLead := "\U{1F4CD} *Areas served:* "
  const SourcesHeading := "\U{1F517} *Sources:*\n"

  /** `s.slice(0, n)`. */
  function Take<T>(s: seq<T>, n: nat): (r: seq<T>)
    ensures |r| == if |s| <= n then |s| else n
    ensures r == s[..|r|]
  {
    if |s| <= n then s else s[..n]
  }

  /** `parts.join(sep)`. */
  function Join(parts: seq<string>, sep: string): string {
    if parts == [] then ""
    else if |parts| == 1 then parts[0]
    else parts[0] + sep + Join(parts[1..], sep)
  }

  function Heading(name: string): string {
    "*" + name + "*\n\n"
  }

  function SummarySection(summary: Option<string>): string {
    if Truthy(summary) && summary.value != SummarySentinel then SummaryLead + summary.value + "\n\n" else ""
  }

  function IdSection(id: Option<string>): string {
    if Truthy(id) && !StartsWith(id.value, FallbackIdPrefix) then IdLead + id.value + "\n\n" else ""
  }

  function FoundedSection(foundedYear: Option<string>): string {
    if Truthy(foundedYear) && foundedYear.value != NotAvailable then FoundedLead + foundedYear.value + "\n\n"
    else ""
  }

  function WebsiteSection(website: Option<string>, hostLabel: string -> string): string {
    if Truthy(website) && website.value != NotAvailable then
      WebsiteLead + website.value + "|" + hostLabel(website.value) + ">\n\n"
    else ""
  }

  function ActivitiesSection(activities: string): string {
    if activities != "" && activities != ActivitiesSentinel then ActivitiesLead + activities + "\n\n" else ""
  }

  /** ` (+k more)` for the areas beyond the first five. */
  function MoreAreas(count: nat): string {
    if count > MaxAreas then " (+" + NatToDecimal(count - MaxAreas) + " more)" else ""
  }

  function AreasSection(areas: seq<string>): string {
    if |areas| > 0 then AreasLead + Join(Take(areas, MaxAreas), ", ") + MoreAreas(|areas|) + "\n\n" else ""
  }

  function CitationLine(citation: Citation): string {
    "\U{2022} <" + citation.url + "|" + citation.title + ">\n"
  }

  /** The bullets the `forEach` appends, one per citation, in order. */
  function CitationLines(citations: seq<Citation>): string {
    if citations == [] then ""
    else CitationLines(citations[..|citations| - 1]) + CitationLine(citations[|citations| - 1])
  }

  /** `  _... and k more sources_` for the citations beyond the first three. */
  function MoreSources(count: nat): string {
    if count > MaxCitations then "  _... and " + NatToDecimal(count - MaxCitations) + " more sources_\n" else ""
  }

  function SourcesSection(citations: seq<Citation>): string {
    if |citations| > 0 then
      SourcesHeading + CitationLines(Take(citations, MaxCitations)) + MoreSources(|citations|) + "\n"
    else ""
  }

  function Footer(totalFound: int): string {
    if totalFound > 1 then ShowingMostRelevant else GatheredFromSearch
  }

  /** The report before the length check: heading, then each section in its fixed order, then the footer. */
  function FullReport(data: CharityData, hostLabel: string -> string): string {
    Heading(data.name)
    + SummarySection(data.summary)
    + IdSection(data.id)
    + FoundedSection(data.foundedYear)
    + WebsiteSection(data.website, hostLabel)
    + ActivitiesSection(data.activities)
    + AreasSection(data.areas)
    + SourcesSection(data.citations)
    + Footer(data.totalFound)
  }

  /** Keeps a report within Slack's message limit, marking a cut. */
  function Truncate(report: string): string {
    if Utf16Length(report) > TruncationLimit then TakeUtf16(report, TruncationLimit) + TruncationMarker
    else report
  }

  /** What `formatCharityReport(charityData, originalQuery)` returns. */
  function CharityReport(charityData: Option<CharityData>, originalQuery: string,
                         hostLabel: string -> string): string {
    if charityData.None? then FormatErrorMessage(originalQuery, NotFoundError)
    else Truncate(FullReport(charityData.value, hostLabel))
  }

  /** `formatCharityReport`: the heading, then one conditional append per section, then the footer and the length check. */
  method FormatCharityReport(charityData: Option<CharityData>, originalQuery: string,
                             hostLabel: string -> string)
    returns (report: string)
    ensures report == CharityReport(charityData, originalQuery, hostLabel)
  {
    if charityData.None? {
      return FormatErrorMessage(originalQuery, NotFoundError);
    }
    var data := charityData.value;

    report := "*" + data.name + "*\n\n";
    report := AppendSummary(report, data.summary);
    report := AppendId(report, data.id);
    report := AppendFounded(report, data.foundedYear);
    report := AppendWebsite(report, data.website, hostLabel);
    report := AppendActivities(report, data.activities);
    report := AppendAreas(report, data.areas);
    report := AppendSources(report, data.citations);
    if data.totalFound > 1 {
      report := report + ShowingMostRelevant;
    } else {
      report := report + GatheredFromSearch;
    }
    assert report == FullReport(data, hostLabel);

    if Utf16Length(report) > TruncationLimit {
      report := TakeUtf16(report, TruncationLimit) + TruncationMarker;
    }
  }

  // One method per `if (...) { report += ... }` block of `formatCharityReport`.

  method AppendSummary(report: string, summary: Option<string>) returns (r: string)
    ensures r == report + SummarySection(summary)
  {
    r := report;
    if Truthy(summary) && summary.value != SummarySentinel {
      r := r + (SummaryLead + summary.value + "\n\n");
    }
  }

  method AppendId(report: string, id: Option<string>) returns (r: string)
    ensures r == report + IdSection(id)
  {
    r := report;
    if Truthy(id) && !StartsWith(id.value, FallbackIdPrefix) {
      r := r + (IdLead + id.value + "\n\n");
    }
  }

  method AppendFounded(report: string, foundedYear: Option<string>) returns (r: string)
    ensures r == report + FoundedSection(foundedYear)
  {
    r := report;
    if Truthy(foundedYear) && foundedYear.value != NotAvailable {
      r := r + (FoundedLead + foundedYear.value + "\n\n");
    }
  }

  method AppendWebsite(report: string, website: Option<string>, hostLabel: string -> string) returns (r: string)
    ensures r == report + WebsiteSection(website, hostLabel)
  {
    r := report;
    if Truthy(website) && website.value != NotAvailable {
      r := r + (WebsiteLead + website.value + "|" + hostLabel(website.value) + ">\n\n");
    }
  }

  method AppendActivities(report: string, activities: string) returns (r: string)
    ensures r == report + ActivitiesSection(activities)
  {
    r := report;
    if activities != "" && activities != ActivitiesSentinel {
      r := r + (ActivitiesLead + activities + "\n\n");
    }
  }

  method AppendAreas(report: string, areas: seq<string>) returns (r: string)
    ensures r == report + AreasSection(areas)
  {
    r := report;
    if |areas| > 0 {
      var moreAreas := if |areas| > MaxAreas then " (+" + NatToDecimal(|areas| - MaxAreas) + " more)" else "";
      r := r + (AreasLead + Join(Take(areas, MaxAreas), ", ") + moreAreas + "\n\n");
    }
  }

  /** The citations block: a heading, a bullet per shown citation appended in a loop, and the overflow line. */
  method AppendSources(report: string, citations: seq<Citation>) returns (r: string)
    ensures r == report + SourcesSection(citations)
  {
    r := report;
    if |citations| > 0 {
      r := r + SourcesHeading;
      ghost var section := SourcesHeading;
      var shown := Take(citations, MaxCitations);
      var i := 0;
      while i < |shown|
        invariant 0 <= i <= |shown|
        invariant section == SourcesHeading + CitationLines(shown[..i])
        invariant r == report + section
      {
        assert shown[..i + 1][..i] == shown[..i];
        var line := "\U{2022} <" + shown[i].url + "|" + shown[i].title + ">\n";
        ConcatAssoc(report, section, line);
        ConcatAssoc(SourcesHeading, CitationLines(shown[..i]), line);
        r := r + line;
        section := section + line;
        i := i + 1;
      }
      assert shown[..i] == shown;
      if |citations| > MaxCitations {
        var more := "  _... and " + NatToDecimal(|citations| - MaxCitations) + " more sources_\n";
        ConcatAssoc(report, section, more);
        r := r + more;
        section := section + more;
      }
      ConcatAssoc(report, section, "\n");
      r := r + "\n";
      section := section + "\n";
      assert section == SourcesSection(citations);
    }
  }

  // ---------------------------------------------------------------------------
  // What the report promises
  // ---------------------------------------------------------------------------

  /** A missing record renders as the `not_found` message for the name that was searched. */
  lemma MissingRecordIsNotFound(originalQuery: string, hostLabel: string -> string)
    ensures CharityReport(None, originalQuery, hostLabel) == FormatErrorMessage(originalQuery, NotFoundError)
    ensures TemplateOfMessage(CharityReport(None, originalQuery, hostLabel)) == Some(NotFoundTemplate)
    ensures NameInMessage(CharityReport(None, originalQuery, hostLabel), NotFoundTemplate) == originalQuery
  {
    ErrorMessageNames(originalQuery, originalQuery, NotFoundError);
  }

  /** The truncation marker is ASCII: 44 characters, 44 code units. */
  lemma MarkerLength()
    ensures Utf16Length(TruncationMarker) == |TruncationMarker| == 44
  {
    AsciiUtf16Length(TruncationMarker);
  }

  /**
   * A report within 39000 code units is returned whole; a longer one is cut
   * to a prefix of 38999 or 39000 code units followed by the truncation
   * marker, so no report exceeds 39000 code units plus the marker.
   */
  lemma TruncateWithinLimit(report: string)
    ensures Utf16Length(report) <= TruncationLimit ==> Truncate(report) == report
    ensures Utf16Length(report) > TruncationLimit ==>
      var cut := Truncate(report);
      && |TruncationMarker| <= |cut|
      && var kept := cut[..|cut| - |TruncationMarker|];
         && cut == kept + TruncationMarker
         && StartsWith(report, kept)
         && TruncationLimit - 1 <= Utf16Length(kept) <= TruncationLimit
    ensures Utf16Length(Truncate(report)) <= TruncationLimit + |TruncationMarker|
  {
    MarkerLength();
    if Utf16Length(report) > TruncationLimit {
      var kept := TakeUtf16(report, TruncationLimit);
      var cut := kept + TruncationMarker;
      assert cut[..|cut| - |TruncationMarker|] == kept;
      TakeUtf16NearlyFull(report, TruncationLimit);
      Utf16LengthAppend(kept, TruncationMarker);
    }
  }

  /** Truncation keeps any opening shorter than the limit, such as the heading. */
  lemma TruncateKeepsOpening(report: string, opening: string)
    requires StartsWith(report, opening)
    requires Utf16Length(opening) < TruncationLimit
    ensures StartsWith(Truncate(report), opening)
  {
    if Utf16Length(report) > TruncationLimit {
      var kept := TakeUtf16(report, TruncationLimit);
      TakeUtf16NearlyFull(report, TruncationLimit);
      ShorterPrefixIsPrefix(report, opening, kept);
      assert (kept + TruncationMarker)[..|opening|] == kept[..|opening|];
    }
  }

  /** Unless the record's name alone nearly fills the limit, the report opens with `*name*`. */
  lemma ReportOpensWithName(data: CharityData, originalQuery: string, hostLabel: string -> string)
    requires Utf16Length(Heading(data.name)) < TruncationLimit
    ensures StartsWith(CharityReport(Some(data), originalQuery, hostLabel), Heading(data.name))
  {
    var heading := Heading(data.name);
    assert StartsWith(heading, heading);
    // Each section appended after the heading keeps it as the opening.
    var r := heading;
    StartsWithAppend(r, SummarySection(data.summary), heading);
    r := r + SummarySection(data.summary);
    StartsWithAppend(r, IdSection(data.id), heading);
    r := r + IdSection(data.id);
    StartsWithAppend(r, FoundedSection(data.foundedYear), heading);
    r := r + FoundedSection(data.foundedYear);
    StartsWithAppend(r, WebsiteSection(data.website, hostLabel), heading);
    r := r + WebsiteSection(data.website, hostLabel);
    StartsWithAppend(r, ActivitiesSection(data.activities), heading);
    r := r + ActivitiesSection(data.activities);
    StartsWithAppend(r, AreasSection(data.areas), heading);
    r := r + AreasSection(data.areas);
    StartsWithAppend(r, SourcesSection(data.citations), heading);
    r := r + SourcesSection(data.citations);
    StartsWithAppend(r, Footer(data.totalFound), heading);
    r := r + Footer(data.totalFound);
    assert r == FullReport(data, hostLabel);
    TruncateKeepsOpening(FullReport(data, hostLabel), heading);
  }

  /** The sentinels read exactly like a missing value: they never produce a section of their own. */
  lemma SentinelsReadAsAbsent(data: CharityData, hostLabel: string -> string)
    ensures FullReport(data.(summary := Some(SummarySentinel)), hostLabel) == FullReport(data.(summary := None), hostLabel)
    ensures FullReport(data.(activities := ActivitiesSentinel), hostLabel) == FullReport(data.(activities := ""), hostLabel)
    ensures FullReport(data.(foundedYear := Some(NotAvailable)), hostLabel) == FullReport(data.(foundedYear := None), hostLabel)
    ensures FullReport(data.(website := Some(NotAvailable)), hostLabel) == FullReport(data.(website := None), hostLabel)
    ensures FullReport(data.(summary := Some("")), hostLabel) == FullReport(data.(summary := None), hostLabel)
  {
  }

  /** The ID line appears exactly when the id is non-empty and not a `search_` fallback id. */
  lemma IdLineShownIff(id: Option<string>)
    ensures IdSection(id) != "" <==> Truthy(id) && !StartsWith(id.value, "search_")
  {
  }

  /**
   * Each optional section appears exactly when its value is present, non-empty
   * and not the "not available" sentinel.
   */
  lemma SectionsShownIff(summary: Option<string>, foundedYear: Option<string>, website: Option<string>,
                         hostLabel: string -> string, activities: string)
    ensures SummarySection(summary) != "" <==> Truthy(summary) && summary.value != SummarySentinel
    ensures FoundedSection(foundedYear) != "" <==> Truthy(foundedYear) && foundedYear.value != NotAvailable
    ensures WebsiteSection(website, hostLabel) != "" <==> Truthy(website) && website.value != NotAvailable
    ensures ActivitiesSection(activities) != "" <==> activities != "" && activities != ActivitiesSentinel
  {
  }

  /** `part` occurs somewhere in `report`. */
  ghost predicate Shows(report: string, part: string) {
    exists before: string :: StartsWith(report, before + part)
  }

  lemma ShowsInSection(before: string, part: string, tail: string)
    ensures StartsWith(before + (part + tail), before + part)
  {
    assert (before + (part + tail))[..|before + part|] == before + part;
  }

  lemma SummaryShown(data: CharityData, hostLabel: string -> string)
    requires Truthy(data.summary) && data.summary.value != SummarySentinel
    ensures Shows(FullReport(data, hostLabel), SummaryLead + data.summary.value)
  {
    var before := Heading(data.name);
    var part := SummaryLead + data.summary.value;
    ShowsInSection(before, part, "\n\n");
    var r := before + SummarySection(data.summary);
    StartsWithAppend(r, IdSection(data.id), before + part);
    r := r + IdSection(data.id);
    StartsWithAppend(r, FoundedSection(data.foundedYear), before + part);
    r := r + FoundedSection(data.foundedYear);
    StartsWithAppend(r, WebsiteSection(data.website, hostLabel), before + part);
    r := r + WebsiteSection(data.website, hostLabel);
    StartsWithAppend(r, ActivitiesSection(data.activities), before + part);
    r := r + ActivitiesSection(data.activities);
    StartsWithAppend(r, AreasSection(data.areas), before + part);
    r := r + AreasSection(data.areas);
    StartsWithAppend(r, SourcesSection(data.citations), before + part);
    r := r + SourcesSection(data.citations);
    StartsWithAppend(r, Footer(data.totalFound), before + part);
    r := r + Footer(data.totalFound);
    assert StartsWith(FullReport(data, hostLabel), before + part);
  }

  lemma FoundedShown(data: CharityData, hostLabel: string -> string)
    requires Truthy(data.foundedYear) && data.foundedYear.value != NotAvailable
    ensures Shows(FullReport(data, hostLabel), FoundedLead + data.foundedYear.value)
  {
    var before := Heading(data.name) + SummarySection(data.summary) + IdSection(data.id);
    var part := FoundedLead + data.foundedYear.value;
    ShowsInSection(before, part, "\n\n");
    var r := before + FoundedSection(data.foundedYear);
    StartsWithAppend(r, WebsiteSection(data.website, hostLabel), before + part);
    r := r + WebsiteSection(data.website, hostLabel);
    StartsWithAppend(r, ActivitiesSection(data.activities), before + part);
    r := r + ActivitiesSection(data.activities);
    StartsWithAppend(r, AreasSection(data.areas), before + part);
    r := r + AreasSection(data.areas);
    StartsWithAppend(r, SourcesSection(data.citations), before + part);
    r := r + SourcesSection(data.citations);
    StartsWithAppend(r, Footer(data.totalFound), before + part);
    r := r + Footer(data.totalFound);
    assert StartsWith(FullReport(data, hostLabel), before + part);
  }

  lemma WebsiteShown(data: CharityData, hostLabel: string -> string)
    requires Truthy(data.website) && data.website.value != NotAvailable
    ensures Shows(FullReport(data, hostLabel), WebsiteLead + data.website.value)
  {
    var before := Heading(data.name) + SummarySection(data.summary) + IdSection(data.id)
      + FoundedSection(data.foundedYear);
    var part := WebsiteLead + data.website.value;
    var tail := "|" + hostLabel(data.website.value) + ">\n\n";
    assert WebsiteSection(data.website, hostLabel) == part + tail;
    ShowsInSection(before, part, tail);
    var r := before + WebsiteSection(data.website, hostLabel);
    StartsWithAppend(r, ActivitiesSection(data.activities), before + part);
    r := r + ActivitiesSection(data.activities);
    StartsWithAppend(r, AreasSection(data.areas), before + part);
    r := r + AreasSection(data.areas);
    StartsWithAppend(r, SourcesSection(data.citations), before + part);
    r := r + SourcesSection(data.citations);
    StartsWithAppend(r, Footer(data.totalFound), before + part);
    r := r + Footer(data.totalFound);
    assert StartsWith(FullReport(data, hostLabel), before + part);
  }

  lemma ActivitiesShown(data: CharityData, hostLabel: string -> string)
    requires data.activities != "" && data.activities != ActivitiesSentinel
    ensures Shows(FullReport(data, hostLabel), ActivitiesLead + data.activities)
  {
    var before := Heading(data.name) + SummarySection(data.summary) + IdSection(data.id)
      + FoundedSection(data.foundedYear) + WebsiteSection(data.website, hostLabel);
    var part := ActivitiesLead + data.activities;
    ShowsInSection(before, part, "\n\n");
    var r := before + ActivitiesSection(data.activities);
    StartsWithAppend(r, AreasSection(data.areas), before + part);
    r := r + AreasSection(data.areas);
    StartsWithAppend(r, SourcesSection(data.citations), before + part);
    r := r + SourcesSection(data.citations);
    StartsWithAppend(r, Footer(data.totalFound), before + part);
    r := r + Footer(data.totalFound);
    assert StartsWith(FullReport(data, hostLabel), before + part);
  }

  /**
   * A present summary, founded year, website and activities text that is not
   * the sentinel is shown in the report with its label; the report is sent
   * uncut when it fits the limit, so the same then holds of what is posted.
   */
  lemma PresentFieldsShown(data: CharityData, originalQuery: string, hostLabel: string -> string)
    ensures var report := FullReport(data, hostLabel);
      && (Truthy(data.summary) && data.summary.value != SummarySentinel ==>
            Shows(report, SummaryLead + data.summary.value))
      && (Truthy(data.foundedYear) && data.foundedYear.value != NotAvailable ==>
            Shows(report, FoundedLead + data.foundedYear.value))
      && (Truthy(data.website) && data.website.value != NotAvailable ==>
            Shows(report, WebsiteLead + data.website.value))
      && (data.activities != "" && data.activities != ActivitiesSentinel ==>
            Shows(report, ActivitiesLead + data.activities))
    ensures Utf16Length(FullReport(data, hostLabel)) <= TruncationLimit ==>
      CharityReport(Some(data), originalQuery, hostLabel) == FullReport(data, hostLabel)
  {
    if Truthy(data.summary) && data.summary.value != SummarySentinel {
      SummaryShown(data, hostLabel);
    }
    if Truthy(data.foundedYear) && data.foundedYear.value != NotAvailable {
      FoundedShown(data, hostLabel);
    }
    if Truthy(data.website) && data.website.value != NotAvailable {
      WebsiteShown(data, hostLabel);
    }
    if data.activities != "" && data.activities != ActivitiesSentinel {
      ActivitiesShown(data, hostLabel);
    }
  }

  /** A fallback id never reaches a report. */
  lemma FallbackIdNeverShown(charityName: string)
    ensures IdSection(Some(GenerateFallbackId(charityName))) == ""
  {
  }

  /**
   * For every record the lookup produces: an id that was not given by the
   * search (a fallback id) is never shown, and the footer is always the
   * web-search note, since the lookup reports a single result.
   */
  lemma LookupRecordsInReports(charityName: string, response: Outcome<Option<SearchResponse>>,
                               domainName: string -> string)
    requires LookupOutcome(charityName, response, domainName).Ok?
    requires LookupOutcome(charityName, response, domainName).value.Some?
    ensures var d := LookupOutcome(charityName, response, domainName).value.value;
      && (d.id != response.value.value.parsed.value.registrationNumber ==> IdSection(d.id) == "")
      && Footer(d.totalFound) == GatheredFromSearch
  {
    LookupRecordShape(charityName, response, domainName);
  }

  /** The footer names the most relevant of several results exactly when more than one was found. */
  lemma FooterChoice(totalFound: int)
    ensures Footer(totalFound) == ShowingMostRelevant <==> totalFound > 1
    ensures Footer(totalFound) == GatheredFromSearch <==> totalFound <= 1
  {
  }

  /** Only the first five areas are listed: areas after the fifth change nothing but their count. */
  lemma OnlyFirstFiveAreasListed(areas: seq<string>, other: seq<string>)
    requires |areas| == |other|
    requires Take(areas, MaxAreas) == Take(other, MaxAreas)
    ensures AreasSection(areas) == AreasSection(other)
  {
  }

  /** Only the first three citations are listed as bullets: later ones change nothing but their count. */
  lemma OnlyFirstThreeSourcesListed(citations: seq<Citation>, other: seq<Citation>)
    requires |citations| == |other|
    requires Take(citations, MaxCitations) == Take(other, MaxCitations)
    ensures SourcesSection(citations) == SourcesSection(other)
  {
  }

  /** The ` (+k more)` suffix appears exactly when there are more than five areas, and k reads back as the number left out. */
  lemma MoreAreasCount(count: nat)
    ensures MoreAreas(count) != "" <==> count > MaxAreas
    ensures count > MaxAreas ==>
      var note := MoreAreas(count);
      && 9 <= |note|
      && AllDigits(note[3..|note| - 6])
      && DecimalValue(note[3..|note| - 6]) == count - MaxAreas
  {
    if count > MaxAreas {
      var note := MoreAreas(count);
      assert note[3..|note| - 6] == NatToDecimal(count - MaxAreas);
      DecimalRoundTrip(count - MaxAreas);
    }
  }

  /** The `... and k more sources` line appears exactly when there are more than three citations, and k reads back as the number left out. */
  lemma MoreSourcesCount(count: nat)
    ensures MoreSources(count) != "" <==> count > MaxCitations
    ensures count > MaxCitations ==>
      var note := MoreSources(count);
      && 27 <= |note|
      && AllDigits(note[11..|note| - 15])
      && DecimalValue(note[11..|note| - 15]) == count - MaxCitations
  {
    if count > MaxCitations {
      var note := MoreSources(count);
      assert note[11..|note| - 15] == NatToDecimal(count - MaxCitations);
      DecimalRoundTrip(count - MaxCitations);
    }
  }

  /** One bullet per citation shown: the bullet text is the citations' lines in order. */
  lemma {:induction false} CitationLinesSplit(a: seq<Citation>, b: seq<Citation>)
    ensures CitationLines(a + b) == CitationLines(a) + CitationLines(b)
    decreases |b|
  {
    if b == [] {
      assert a + b == a;
    } else {
      var last := |b| - 1;
      assert (a + b)[..|a + b| - 1] == a + b[..last];
      CitationLinesSplit(a, b[..last]);
    }
  }
}
