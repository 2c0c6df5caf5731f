/**
 * The local part of `lookupCharity` (src/charityLookup.js): turning the web
 * search reply into a charity record. The search call itself, JSON parsing and
 * URL parsing are outside the model; they arrive as values and functions.
 */
module CharityLookup {
  import opened Wrappers
  import opened Text

  /** The sentinel the search schema asks for when a field is unknown. */
  const NotAvailable := "Not available"
  const NoActivities := "Information not available"
  const FallbackIdPrefix := "search_"
  const FallbackIdMaxChars := 12

  /** The structured JSON the search returns, as `JSON.parse` gives it; an absent field is `None`. */
  datatype CharityInfo = CharityInfo(
    officialName: Option<string>,
    registrationNumber: Option<string>,
    activities: Option<string>,
    areasOfOperation: Option<seq<string>>,
    website: Option<string>,
    foundedYear: Option<string>,
    summary: Option<string>)

  /** One entry of `web_search_call.action.sources`: a bare URL string or an object. */
  datatype Source =
    | BareUrl(url: string)
    | SourceEntry(url: string, title: Option<string>, snippet: Option<string>)

  /**
   * The reply of the search call. `parsed` is `JSON.parse(outputText)`, `None`
   * when parsing throws; `sources` is `None` when any link of
   * `web_search_call.action.sources` is missing.
   */
  datatype SearchResponse = SearchResponse(
    outputText: Option<string>,
    parsed: Option<CharityInfo>,
    sources: Option<seq<Source>>)

  datatype Citation = Citation(url: string, title: string, textSnippet: string)

  /** The record `lookupCharity` returns, which the report formatter reads. */
  datatype CharityData = CharityData(
    id: Option<string>,
    name: string,
    activities: string,
    areas: seq<string>,
    website: Option<string>,
    foundedYear: Option<string>,
    summary: Option<string>,
    totalFound: int,
    citations: seq<Citation>,
    structuredData: CharityInfo)

  // ---------------------------------------------------------------------------
  // generateFallbackId
  // ---------------------------------------------------------------------------

  predicate IsLowerAlnum(c: char) {
    'a' <= c <= 'z' || '0' <= c <= '9'
  }

  predicate IsUpperAscii(c: char) {
    'A' <= c <= 'Z'
  }

  /** `toLowerCase` on one character, for the ASCII letters. */
  function LowerAscii(c: char): char {
    if IsUpperAscii(c) then (c as int + 32) as char else c
  }

  /**
   * `toLowerCase`: no upper-case letter is left, each upper-case letter
   * becomes its lower-case partner, and every other character, [a-z0-9] among
   * them, stays where it was.
   */
  function ToLowerCase(s: string): (r: string)
    ensures |r| == |s|
    ensures forall i :: 0 <= i < |r| ==> !IsUpperAscii(r[i])
    ensures forall i :: 0 <= i < |s| && !IsUpperAscii(s[i]) ==> r[i] == s[i]
    ensures forall i :: 0 <= i < |s| && IsUpperAscii(s[i]) ==> 'a' <= r[i] <= 'z' && r[i] as int == s[i] as int + 32
  {
    seq(|s|, i requires 0 <= i < |s| => LowerAscii(s[i]))
  }

  /** Lower-casing twice is lower-casing once. */
  lemma ToLowerCaseIdempotent(s: string)
    ensures ToLowerCase(ToLowerCase(s)) == ToLowerCase(s)
  {
    var r := ToLowerCase(s);
    assert forall i :: 0 <= i < |r| ==> ToLowerCase(r)[i] == r[i];
  }

  /** `.replace(/[^a-z0-9]/g, '')`. */
  function KeepLowerAlnum(s: string): (r: string)
    ensures |r| <= |s|
    ensures forall i :: 0 <= i < |r| ==> IsLowerAlnum(r[i])
    ensures (forall i :: 0 <= i < |s| ==> IsLowerAlnum(s[i])) ==> r == s
    ensures |s| == 1 ==> r == (if IsLowerAlnum(s[0]) then s else "")
    decreases |s|
  {
    if s == [] then []
    else
      var rest := KeepLowerAlnum(s[1..]);
      if IsLowerAlnum(s[0]) then
        var r := [s[0]] + rest;
        assert r[1..] == rest;
        assert s == [s[0]] + s[1..];
        r
      else
        rest
  }

  /**
   * The filter works character by character: filtering a concatenation is
   * filtering each part, so together with the one-character case every
   * [a-z0-9] character is kept, in order, and every other one dropped.
   */
  lemma {:induction false} KeepLowerAlnumAppend(a: string, b: string)
    ensures KeepLowerAlnum(a + b) == KeepLowerAlnum(a) + KeepLowerAlnum(b)
    decreases |a|
  {
    if a == [] {
      assert a + b == b;
    } else {
      assert (a + b)[0] == a[0];
      assert (a + b)[1..] == a[1..] + b;
      KeepLowerAlnumAppend(a[1..], b);
    }
  }

  /** For example, `"a-b"` filters to `"ab"`. */
  lemma KeepLowerAlnumDropsPunctuation()
    ensures KeepLowerAlnum("a-b") == "ab"
  {
    KeepLowerAlnumAppend("a", "-b");
    KeepLowerAlnumAppend("-", "b");
    assert "a-b" == "a" + "-b" && "-b" == "-" + "b";
  }

  /** `'search_' + name.toLowerCase().replace(/[^a-z0-9]/g, '').substring(0, 12)`. */
  function GenerateFallbackId(charityName: string): (id: string)
    ensures StartsWith(id, FallbackIdPrefix)
    ensures |id| <= |FallbackIdPrefix| + FallbackIdMaxChars
    ensures forall i :: |FallbackIdPrefix| <= i < |id| ==> IsLowerAlnum(id[i])
  {
    var kept := KeepLowerAlnum(ToLowerCase(charityName));
    var slug := if |kept| <= FallbackIdMaxChars then kept else kept[..FallbackIdMaxChars];
    var id := FallbackIdPrefix + slug;
    assert forall i :: |FallbackIdPrefix| <= i < |id| ==> id[i] == slug[i - |FallbackIdPrefix|];
    id
  }

  /** A name that is already a short lower-case slug is used as it stands. */
  lemma FallbackIdOfSlug(slug: string)
    requires |slug| <= FallbackIdMaxChars
    requires forall i :: 0 <= i < |slug| ==> IsLowerAlnum(slug[i])
    ensures GenerateFallbackId(slug) == FallbackIdPrefix + slug
  {
    var lowered := ToLowerCase(slug);
    assert lowered == slug;
  }

  /** Upper- and lower-case spellings of a name give the same fallback id. */
  lemma FallbackIdIgnoresCase(charityName: string)
    ensures GenerateFallbackId(ToLowerCase(charityName)) == GenerateFallbackId(charityName)
  {
    ToLowerCaseIdempotent(charityName);
  }

  // ---------------------------------------------------------------------------
  // Citations
  // ---------------------------------------------------------------------------

  /** The object `sources.map` builds for one source; `domainName` is `extractDomainName`. */
  function CitationOf(source: Source, domainName: string -> string): Citation {
    match source
    case BareUrl(url) => Citation(url, domainName(url), "")
    case SourceEntry(url, title, snippet) =>
      Citation(url,
               if Truthy(title) then title.value else domainName(url),
               if Truthy(snippet) then snippet.value else "")
  }

  function SourceList(sources: Option<seq<Source>>): seq<Source> {
    if sources.Some? then sources.value else []
  }

  /** `citationUrls` after `citationUrls.push(...sources.map(...))`, as a value. */
  function Citations(sources: Option<seq<Source>>, domainName: string -> string): seq<Citation> {
    var list := SourceList(sources);
    seq(|list|, i requires 0 <= i < |list| => CitationOf(list[i], domainName))
  }

  /**
   * Fills `citationUrls` one source at a time: one citation per source, in
   * the order of the sources, none when there are no sources.
   */
  method CollectCitations(sources: Option<seq<Source>>, domainName: string -> string)
    returns (citationUrls: seq<Citation>)
    ensures |citationUrls| == |SourceList(sources)|
    ensures forall i :: 0 <= i < |citationUrls| ==>
      citationUrls[i] == CitationOf(SourceList(sources)[i], domainName)
    ensures sources.None? ==> citationUrls == []
  {
    citationUrls := [];
    if sources.Some? {
      var list := sources.value;
      var i := 0;
      while i < |list|
        invariant 0 <= i <= |list|
        invariant |citationUrls| == i
        invariant forall j :: 0 <= j < i ==> citationUrls[j] == CitationOf(list[j], domainName)
      {
        citationUrls := citationUrls + [CitationOf(list[i], domainName)];
        i := i + 1;
      }
    }
  }

  // ---------------------------------------------------------------------------
  // The record
  // ---------------------------------------------------------------------------

  /** The object literal `lookupCharity` returns once `charityInfo` is parsed. */
  function CharityRecord(charityName: string, info: CharityInfo, citations: seq<Citation>): CharityData {
    var name := if Truthy(info.officialName) then info.officialName.value else charityName;
    CharityData(
      id := if info.registrationNumber != Some(NotAvailable) then info.registrationNumber
            else Some(GenerateFallbackId(name)),
      name := name,
      activities := if Truthy(info.activities) then info.activities.value else NoActivities,
      areas := if info.areasOfOperation.Some? then info.areasOfOperation.value else [],
      website := if info.website != Some(NotAvailable) then info.website else None,
      foundedYear := if info.foundedYear != Some(NotAvailable) then info.foundedYear else None,
      summary := info.summary,
      totalFound := 1,
      citations := citations,
      structuredData := info)
  }

  function LookupFailurePrefix(charityName: string): string {
    "Failed to lookup charity \"" + charityName + "\": "
  }

  /**
   * What `lookupCharity(charityName)` resolves to (`Ok(Some(record))` or
   * `Ok(None)` for null) or the Error it rejects with, given what the search
   * call returned or threw.
   */
  function LookupOutcome(charityName: string, response: Outcome<Option<SearchResponse>>,
                         domainName: string -> string): Outcome<Option<CharityData>>
  {
    match response
    case Fail(message) => Fail(LookupFailurePrefix(charityName) + message)
    case Ok(None) => Ok(None)
    case Ok(Some(reply)) =>
      if !Truthy(reply.outputText) || reply.parsed.None? then Ok(None)
      else Ok(Some(CharityRecord(charityName, reply.parsed.value, Citations(reply.sources, domainName))))
  }

  /** `lookupCharity` after the search call: the record built with the citations collected in place. */
  method LookupCharity(charityName: string, response: Outcome<Option<SearchResponse>>,
                       domainName: string -> string)
    returns (r: Outcome<Option<CharityData>>)
    ensures r == LookupOutcome(charityName, response, domainName)
  {
    match response {
      case Fail(message) =>
        r := Fail(LookupFailurePrefix(charityName) + message);
      case Ok(None) =>
        r := Ok(None);
      case Ok(Some(reply)) =>
        if !Truthy(reply.outputText) || reply.parsed.None? {
          r := Ok(None);
        } else {
          var citationUrls := CollectCitations(reply.sources, domainName);
          assert citationUrls == Citations(reply.sources, domainName);
          r := Ok(Some(CharityRecord(charityName, reply.parsed.value, citationUrls)));
        }
    }
  }

  // ---------------------------------------------------------------------------
  // What the lookup promises
  // ---------------------------------------------------------------------------

  /**
   * The lookup rejects exactly when the search call throws, with a message
   * naming the charity; it resolves to null exactly when there is no reply,
   * no output text, or output that does not parse.
   */
  lemma LookupErrorCases(charityName: string, response: Outcome<Option<SearchResponse>>,
                         domainName: string -> string)
    ensures var r := LookupOutcome(charityName, response, domainName);
      && (r.Fail? <==> response.Fail?)
      && (r.Fail? ==> StartsWith(r.message, "Failed to lookup charity \"" + charityName + "\": "))
      && (r == Ok(None) <==>
           response.Ok? && (response.value.None? || !Truthy(response.value.value.outputText)
                            || response.value.value.parsed.None?))
  {
    var r := LookupOutcome(charityName, response, domainName);
    if r.Fail? {
      var prefix := "Failed to lookup charity \"" + charityName + "\": ";
      assert r.message == prefix + response.message;
      assert r.message[..|prefix|] == prefix;
    }
  }

  /**
   * Every record the lookup returns has a non-empty name when the searched
   * name is non-empty, a non-empty activities text, no `'Not available'`
   * website or founding year, `totalFound` 1, and an id that is either the
   * registration number or a fallback id of at most twelve `[a-z0-9]`
   * characters after `search_`.
   */
  lemma LookupRecordShape(charityName: string, response: Outcome<Option<SearchResponse>>,
                          domainName: string -> string)
    requires LookupOutcome(charityName, response, domainName).Ok?
    requires LookupOutcome(charityName, response, domainName).value.Some?
    ensures var d := LookupOutcome(charityName, response, domainName).value.value;
      var info := response.value.value.parsed.value;
      && (charityName != "" ==> d.name != "")
      && d.activities != ""
      && d.website != Some(NotAvailable)
      && d.foundedYear != Some(NotAvailable)
      && d.totalFound == 1
      && d.structuredData == info
      && (d.id == info.registrationNumber
          || (&& info.registrationNumber == Some(NotAvailable)
              && d.id.Some?
              && StartsWith(d.id.value, FallbackIdPrefix)
              && |d.id.value| <= |FallbackIdPrefix| + FallbackIdMaxChars
              && (forall i :: |FallbackIdPrefix| <= i < |d.id.value| ==> IsLowerAlnum(d.id.value[i]))))
  {
  }

  /**
   * Fields other than the sentinel pass through unchanged; a missing official
   * name falls back to the searched one, missing activities to the
   * `'Information not available'` text and missing areas to none; a
   * `'Not available'` registration number is replaced by the fallback id of
   * the record's name.
   */
  lemma LookupPassesFieldsThrough(charityName: string, info: CharityInfo, citations: seq<Citation>)
    ensures var d := CharityRecord(charityName, info, citations);
      && (info.website != Some(NotAvailable) ==> d.website == info.website)
      && (info.foundedYear != Some(NotAvailable) ==> d.foundedYear == info.foundedYear)
      && (info.registrationNumber != Some(NotAvailable) ==> d.id == info.registrationNumber)
      && (info.registrationNumber == Some(NotAvailable) ==> d.id == Some(GenerateFallbackId(d.name)))
      && (Truthy(info.activities) ==> d.activities == info.activities.value)
      && (!Truthy(info.activities) ==> d.activities == "Information not available")
      && (info.areasOfOperation.Some? ==> d.areas == info.areasOfOperation.value)
      && (info.areasOfOperation.None? ==> d.areas == [])
      && (!Truthy(info.officialName) ==> d.name == charityName)
      && (Truthy(info.officialName) ==> d.name == info.officialName.value)
      && d.summary == info.summary
      && d.citations == citations
  {
  }

  /**
   * The citations of a record follow the sources one for one and in order;
   * a missing title falls back to the source's domain and a missing snippet
   * to the empty string.
   */
  lemma CitationsFollowSources(sources: Option<seq<Source>>, domainName: string -> string, i: nat)
    requires i < |SourceList(sources)|
    ensures |Citations(sources, domainName)| == |SourceList(sources)|
    ensures var c := Citations(sources, domainName)[i];
      var s := SourceList(sources)[i];
      && c.url == s.url
      && (s.SourceEntry? && Truthy(s.title) ==> c.title == s.title.value)
      && (s.BareUrl? || !Truthy(s.title) ==> c.title == domainName(s.url))
      && (s.SourceEntry? && Truthy(s.snippet) ==> c.textSnippet == s.snippet.value)
      && (s.BareUrl? || !Truthy(s.snippet) ==> c.textSnippet == "")
  {
  }
}
