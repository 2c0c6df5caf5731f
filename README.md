# A verified model of the Slack charity researcher's webhook

The slack-researcher service is a Slack bot. When someone reacts to a message with the trigger emoji, the bot:

1. reads that message;
2. asks an OpenAI model for the charity it names;
3. posts a "Searching for …" message in the thread;
4. runs an OpenAI web search for the charity;
5. replaces the progress message with a formatted report.

This project models the service's logic in Dafny and proves what it promises:

- **The webhook gate**, in order:
  - configuration check;
  - development-mode branch;
  - URL-verification challenge;
  - replay window and HMAC signature;
  - trigger-reaction filter.
- **The lookup orchestration:**
  - the Slack calls it makes, in order, with their texts and thread/message timestamps;
  - its recovery through two nested catch blocks.
- **The development endpoint**, which answers with JSON instead of calling Slack.
- **The report renderer and the four error templates**, with string lengths counted in UTF-16 code units as JavaScript counts them.
- **The normalisation of the search reply into a charity record**, including fallback ids and citations.
- **Configuration validation** over an environment map.

Modules (one file each):

| Module | Contents |
|---|---|
| `Wrappers` | `Option`, `Outcome` (a value or a thrown error's message), JavaScript truthiness of strings |
| `Text` | prefixes, UTF-16 length and cutting, decimal numerals |
| `Config` | src/config.js |
| `CharityLookup` | the record mapping of src/charityLookup.js |
| `ReportFormatter` | src/reportFormatter.js |
| `SlackSignature` | `verifySlackSignature` |
| `SlackClient` | the Slack Web API client as a class whose call log grows with each call |
| `SlackEvents` | the handler, `handleCharityLookupRequest` and `handleDevModeRequest` |

How the model is built:

- **Imperative code becomes methods.** The handler, the two request handlers, the report builder and the citation loop are methods. Each is proved equal to a specification function (`HandleSpec`, `LookupRequestLog`, `DevModeResponse`, `CharityReport`, `Citations`). The lemmas state the properties of those functions.
- **Foreign services are parameters:**
  - the OpenAI extraction and search (fields of `SlackEvents.Services`);
  - HMAC-SHA256 (`hmac`);
  - the clock (`nowMillis`);
  - the two URL parsers (`domainName`, `hostLabel`);
  - Slack's answers (`respond`, held by the client). It is given the whole call log, so an answer may depend on everything sent before it.

Behaviour of the code worth knowing, each point proved in the model:

- **A failed update is followed by a second one.** A failing first `chat.update` (api/slack-events.js:137-141) is caught by the lookup's catch block, which makes a second update with the `api_error` text (143-151). If that one fails too, the outer catch block also posts the nameless `api_error` text in the thread (154-166). `SearchingPlaceholderThenUpdates` and `LookupCallShape` state this, up to five calls per run.
- **The `api_error` text carries no name.** The lookup-failure update uses `formatErrorMessage(charityName, 'api_error')`, and that template does not contain the name (src/reportFormatter.js:107-109).
- **A successful run makes three Slack calls.** The reacted-to message is first read with `conversations.history`; then come the progress post and the report update.
- **A malformed signature header is a 500.** A missing header, or one whose UTF-8 encoding is not 67 bytes, makes `Buffer.from` or `crypto.timingSafeEqual` throw. The handler's catch block then answers 500, not 401 (`MalformedSignatureIs500`).
- **A non-numeric timestamp skips the replay check.** A missing header, or one that `Number()` reads as NaN, gives NaN, and `NaN > 300` is false (`NaNTimestampPassesWindow`).
- **Configuration comes first.** `getConfig` runs before the development-mode check, so an invalid configuration is a 500 in development mode as well (`ConfigFailureIs500`).

## Model

| member | source | states |
|---|---|---|
| Config.MissingKeys | src/config.js:41 | a key is in the missing list iff it is listed and unset or empty; the list is a subsequence of the keys, in their order, and no longer than them |
| Config.MissingKeysCounts | src/config.js:41 | each unset or empty key occurs in the missing list as often as in the keys, and a set key never occurs |
| Config.ValidateConfig | src/config.js:34-53 | validation passes iff SLACK_BOT_TOKEN, SLACK_SIGNING_SECRET and OPENAI_API_KEY are all set and non-empty |
| Config.TriggerEmoji | src/config.js:18 | the trigger emoji is never empty |
| Config.GetConfig | src/config.js:8-28 | getConfig throws (with the fixed message) iff validation fails; otherwise the three credentials are copied from the environment and the trigger emoji is the configured or default one |
| Config.MissingRequiredKeys | src/config.js:35-41 | for the required list: at most three names missing, each missing iff unset or empty, TRIGGER_EMOJI never among them |
| Config.TriggerEmojiNeverRequired | src/config.js:35-39 | setting, changing or removing TRIGGER_EMOJI never changes whether validation passes |
| Config.TriggerEmojiDefault | src/config.js:18 | the trigger emoji is TRIGGER_EMOJI when that is non-empty, otherwise "question" |
| CharityLookup.ToLowerCase | src/charityLookup.js:152 | lower-casing keeps the length, leaves no letter A-Z, keeps every other character and turns each capital into its lower-case letter |
| CharityLookup.ToLowerCaseIdempotent | src/charityLookup.js:152 | lower-casing an already lower-cased name changes nothing |
| CharityLookup.KeepLowerAlnum | src/charityLookup.js:153 | the filter leaves only [a-z0-9], never lengthens, keeps a string that is already all [a-z0-9], and keeps a single character exactly when it is in [a-z0-9] |
| CharityLookup.KeepLowerAlnumAppend | src/charityLookup.js:153 | filtering a concatenation is the concatenation of the filtered parts, so together with the one-character case each character is kept or dropped on its own, in order |
| CharityLookup.KeepLowerAlnumDropsPunctuation | src/charityLookup.js:153 | "a-b" is filtered to "ab" |
| CharityLookup.GenerateFallbackId | src/charityLookup.js:150-155 | a fallback id is "search_" followed by at most 12 characters, all in [a-z0-9] |
| CharityLookup.FallbackIdOfSlug | src/charityLookup.js:150-155 | a name that is already a slug of at most 12 [a-z0-9] characters becomes "search_" + that name |
| CharityLookup.FallbackIdIgnoresCase | src/charityLookup.js:152-154 | a name and its lower-cased form give the same fallback id |
| CharityLookup.CollectCitations | src/charityLookup.js:111-122 | the citations array holds one citation per source, in source order, and none when sources are absent |
| CharityLookup.LookupCharity | src/charityLookup.js:96-141 | the lookup after the search call equals LookupOutcome: a rejection, null, or the normalised record |
| CharityLookup.LookupErrorCases | src/charityLookup.js:96-141 | the lookup rejects iff the search call throws, with a message starting `Failed to lookup charity "<name>": `; it resolves to null iff there is no reply, no output text or unparsable output |
| CharityLookup.LookupRecordShape | src/charityLookup.js:125-136 | every record has a non-empty name (for a non-empty query), non-empty activities, no "Not available" website or year, totalFound 1, the parsed data attached, and an id that is the registration number or, when that is "Not available", a search_ fallback id |
| CharityLookup.LookupPassesFieldsThrough | src/charityLookup.js:125-136 | the name is official_name when truthy, else the query; website, founded year and id pass through unless "Not available"; a "Not available" registration number becomes the fallback id built from that name; activities default to "Information not available" and areas to the empty list; summary and citations pass through unchanged |
| CharityLookup.CitationsFollowSources | src/charityLookup.js:115-122 | citation i takes source i's url; its title is source i's title when truthy, else the source's domain; its snippet is the source's snippet when truthy, else "" |
| Text.TakeUtf16 | src/reportFormatter.js:82 | the cut is a prefix of the report of at most the limit in UTF-16 code units, and the next character would pass the limit |
| Text.TakeUtf16NearlyFull | src/reportFormatter.js:82 | cutting a string longer than the limit keeps at least limit - 1 code units |
| ReportFormatter.FormatErrorMessage | src/reportFormatter.js:94-115 | each error type selects its template (not_found, extraction_failed, api_error, any other type the default), recognisable by the message's leading emoji |
| ReportFormatter.ErrorMessageNames | src/reportFormatter.js:96-113 | the not_found and default templates quote the name, and it reads back from between the template's fixed parts; extraction_failed and api_error do not depend on the name |
| ReportFormatter.DefaultErrorTypeIsApiError | src/reportFormatter.js:94 | leaving out the error type gives the api_error message |
| ReportFormatter.FormatCharityReport | src/reportFormatter.js:10-86 | the report built by successive appends equals CharityReport: the not_found message for no record, otherwise the sections in their fixed order, then truncated |
| ReportFormatter.AppendSummary | src/reportFormatter.js:30-32 | appends the summary section: empty for a falsy summary or the "Information not available" sentinel |
| ReportFormatter.AppendId | src/reportFormatter.js:35-37 | appends the registration-id section: empty for a falsy id or one starting with "search_" |
| ReportFormatter.AppendFounded | src/reportFormatter.js:40-42 | appends the founded section: empty for a falsy year or "Not available" |
| ReportFormatter.AppendWebsite | src/reportFormatter.js:45-47 | appends the website link labelled by its host: empty for a falsy website or "Not available" |
| ReportFormatter.AppendActivities | src/reportFormatter.js:50-52 | appends the activities section: empty for "" or the "Information not available" sentinel |
| ReportFormatter.AppendAreas | src/reportFormatter.js:55-59 | appends the areas section: first five areas joined by ", " and the count of the others |
| ReportFormatter.AppendSources | src/reportFormatter.js:62-71 | the citation loop appends the sources heading, a bullet per citation among the first three, in order, and the overflow line |
| ReportFormatter.MissingRecordIsNotFound | src/reportFormatter.js:11-13 | a null record gives exactly the not_found message for the query, and the query reads back from it |
| ReportFormatter.MarkerLength | src/reportFormatter.js:82 | the truncation marker is 44 code units |
| ReportFormatter.TruncateWithinLimit | src/reportFormatter.js:81-83 | a report of at most 39000 code units is unchanged; a longer one becomes a prefix of it with 38999 or 39000 code units followed by the marker; no result exceeds 39000 units plus the marker |
| ReportFormatter.TruncateKeepsOpening | src/reportFormatter.js:81-83 | truncation keeps every opening shorter than the limit |
| ReportFormatter.ReportOpensWithName | src/reportFormatter.js:27-83 | every report of a record opens with `*name*` and a blank line, truncated or not (when the heading itself fits) |
| ReportFormatter.SentinelsReadAsAbsent | src/reportFormatter.js:30-52 | a sentinel summary, activities, founded year or website renders exactly as if the field were absent |
| ReportFormatter.IdLineShownIff | src/reportFormatter.js:35-37 | the id line appears iff the id is non-empty and does not start with "search_" |
| ReportFormatter.SectionsShownIff | src/reportFormatter.js:29-52 | the summary, founded, website and activities sections each appear iff the value is present, non-empty and not its sentinel |
| ReportFormatter.PresentFieldsShown | src/reportFormatter.js:27-52 | a present, non-sentinel summary, founded year, website and activities text each occur in the report after their label; a report within the limit is posted uncut |
| ReportFormatter.FallbackIdNeverShown | src/reportFormatter.js:35-37 | a generated fallback id never produces an id line |
| ReportFormatter.LookupRecordsInReports | src/charityLookup.js:125-136 | for every record the lookup returns: an id other than the registration number is never shown, and the footer is the web-search note |
| ReportFormatter.FooterChoice | src/reportFormatter.js:74-78 | the footer is "Showing most relevant result" iff totalFound > 1, and the web-search note otherwise |
| ReportFormatter.OnlyFirstFiveAreasListed | src/reportFormatter.js:55-59 | two area lists with the same length and the same first five areas render the same |
| ReportFormatter.OnlyFirstThreeSourcesListed | src/reportFormatter.js:62-71 | two citation lists with the same length and the same first three citations render the same |
| ReportFormatter.MoreAreasCount | src/reportFormatter.js:57 | the " (+k more)" suffix appears iff there are more than five areas, and k reads back as the count minus five |
| ReportFormatter.MoreSourcesCount | src/reportFormatter.js:67-69 | the "... and k more sources" line appears iff there are more than three citations, and k reads back as the count minus three |
| ReportFormatter.CitationLinesSplit | src/reportFormatter.js:64-66 | the bullets of two citation lists placed one after the other are the two lists' bullets in order |
| SlackSignature.Hex | api/slack-events.js:76-79 | the hex digest has two lower-case hex digits per byte |
| SlackSignature.HexRoundTrip | api/slack-events.js:76-79 | the digest reads back from its hex form |
| SlackSignature.ExpectedSignature | api/slack-events.js:74-79 | the expected signature is 67 characters |
| SlackSignature.ExpectedSignatureShape | api/slack-events.js:74-79 | the expected signature is "v0=" and 64 lower-case hex digits, 67 bytes of UTF-8, from which the HMAC of "v0:timestamp:body" reads back |
| SlackSignature.VerifySlackSignature | api/slack-events.js:67-85 | outside the 300-second window the check returns false; inside it, it returns true iff the header equals the expected signature, and throws iff the header is missing or not 67 bytes of UTF-8 |
| SlackSignature.TimestampReadsBack | api/slack-events.js:70 | a timestamp header holding a decimal number is read as that number |
| SlackSignature.StaleRequestRejected | api/slack-events.js:69-72 | a timestamp more than 300 seconds from the clock is refused whatever the signature |
| SlackSignature.WindowBoundaryPasses | api/slack-events.js:69-72 | a skew of exactly 300 seconds is inside the window |
| SlackSignature.NaNTimestampPassesWindow | api/slack-events.js:70 | a missing timestamp, or one holding a character that never occurs in a JavaScript number (punctuation other than the sign and point, letters outside hex digits, prefixes, exponent and Infinity), is NaN and passes the window check |
| SlackSignature.FreshRequestVerdicts | api/slack-events.js:74-84 | for a fresh timestamp: accepted iff the header is the expected signature, refused iff it differs with the right length, throws otherwise |
| SlackSignature.BaseStringSeparatesTimestamps | api/slack-events.js:75 | different timestamps give different signed strings for the same body |
| SlackClient.WebClient.constructor | api/slack-events.js:23 | a new client has made no call |
| SlackClient.WebClient.ConversationsHistory | api/slack-events.js:95-100 | the history call is appended to the log and answered by the workspace |
| SlackClient.WebClient.PostMessage | api/slack-events.js:114-118 | the post is appended to the log and answered by the workspace |
| SlackClient.WebClient.ChatUpdate | api/slack-events.js:137-141 | the update is appended to the log and answered by the workspace |
| SlackEvents.LookupAndUpdate | api/slack-events.js:129-152 | the inner try/catch makes the calls of LookupAndUpdateSpec and reports whether an error leaves it |
| SlackEvents.HandleCharityLookupRequest | api/slack-events.js:92-168 | the lookup request never throws, and the calls it adds to the log are those of LookupRequestLog |
| SlackEvents.HandleDevModeRequest | api/slack-events.js:172-233 | the development endpoint answers DevModeResponse |
| SlackEvents.Handle | api/slack-events.js:14-57 | the handler's response and Slack calls are those of HandleSpec |
| SlackEvents.ConfigFailureIs500 | api/slack-events.js:14-56 | an environment that does not validate gives 500 "Internal server error" and no Slack call, in development mode too |
| SlackEvents.DevModeNeverVerifies | api/slack-events.js:19-21 | in development mode the answer is the development endpoint's, with no Slack call, regardless of challenge, signature, timestamp and clock |
| SlackEvents.ChallengeEchoedBeforeVerification | api/slack-events.js:26-28 | a truthy challenge is echoed with 200 and no Slack call, whatever the signature |
| SlackEvents.SignatureFailuresAnswered | api/slack-events.js:36-39 | a signature check returning false gives 401 "Invalid signature", one that throws gives 500; neither makes a Slack call |
| SlackEvents.StaleRequestRejected | api/slack-events.js:69-72 | a request stamped more than 300 seconds away from the clock gets 401 and no Slack call |
| SlackEvents.MalformedSignatureIs500 | api/slack-events.js:81-84 | a fresh request whose signature header is missing or not 67 bytes gets 500, not 401 |
| SlackEvents.BodilessRequestIs500 | api/slack-events.js:31-41 | an undefined body is signed as "undefined" and a null one as "null"; with that signature accepted, reading `req.body.event` throws and the answer is 500 with no Slack call |
| SlackEvents.AuthenticatedRequestAcknowledged | api/slack-events.js:41-51 | an authenticated request gets 200 {ok: true}; the lookup's calls are made iff the event is reaction_added with the trigger emoji, and no call otherwise |
| SlackEvents.NoCallsUnlessAuthenticatedAndTriggered | api/slack-events.js:23-51 | any Slack call implies valid configuration, production mode, no challenge, an accepted signature, a trigger reaction with an item, and the 200 acknowledgement |
| SlackEvents.StatusCodes | api/slack-events.js:14-57 | every answer is 200, 400, 401 or 500; 400 only in development mode, 401 only past configuration outside it |
| SlackEvents.UpdateShape | api/slack-events.js:129-152 | the inner try/catch adds one or two updates, all of the progress message's channel and ts |
| SlackEvents.TryShape | api/slack-events.js:93-152 | the outer try block reads the message first and then makes at most three calls, all in the item's thread or channel |
| SlackEvents.LookupCallShape | api/slack-events.js:92-168 | every lookup run makes two to five calls: first the history read, then only posts into the item's thread or updates in its channel |
| SlackEvents.ExtractionFailedPostsOnce | api/slack-events.js:110-120 | with no name found, exactly one post with the extraction_failed text goes to the thread and nothing is updated; the apology follows only when that post fails |
| SlackEvents.SearchingPlaceholderThenUpdates | api/slack-events.js:122-152 | with a name found, "Searching for <name>" is posted second; every later update targets the channel and the ts Slack returned for it; the report replaces it when lookup and update succeed, the api_error text follows a failed lookup or a failed first update, and the apology is posted after it exactly when that update is refused |
| SlackEvents.EarlyFailuresPostApology | api/slack-events.js:154-167 | a failed or empty history read or a throwing extraction leads to exactly one more call: the nameless api_error post in the thread |
| SlackEvents.MissingItemMakesNoCall | api/slack-events.js:154-166 | an event without an item makes no Slack call and does not throw |
| SlackEvents.DevModeOutcomes | api/slack-events.js:172-233 | 400 iff the message is missing or empty; 500 iff the body is undefined or null (with the TypeError naming which) or extraction throws; 200 otherwise; a report is returned only with an extracted name and is that lookup's rendering |

## Left out

- The OpenAI calls are parameters: `extractCharityName` (src/messageParser.js) and the web-search request in `lookupCharity` (src/charityLookup.js:65-94). The trimming and `'NONE'` handling inside the extractor is part of that parameter.
- HMAC-SHA256 is the parameter `hmac`. The constant-time property of `crypto.timingSafeEqual` cannot be expressed; the model compares strings once the byte lengths agree.
- `Date.now()` is the parameter `nowMillis`, and `Math.floor(now / 1000)` is integer division.
- SlackSignature.JsNumber: reads only the empty string, digits, and a sign followed by digits. All other numeric text is treated as NaN: surrounding whitespace, fractions, exponents, hex/octal/binary literals and `Infinity`.
- SlackSignature.NaNTimestampPassesWindow: covers missing headers and headers holding a character that never occurs in a number. Other texts `Number()` reads as NaN, such as "1.2.3", are not covered.
- `JSON.stringify(req.body)` is the field `Request.json`, an opaque string. `JSON.parse` of the search output is the field `SearchResponse.parsed`: a record, or `None` when parsing fails.
- `new URL` parsing in `extractDomainName` and `extractDomainFromUrl` is the parameters `domainName` and `hostLabel`.
- Inside the body and the search reply, `undefined` and `null` are both `None`; `req.body` itself distinguishes them, since they sign differently. Fields of unexpected JSON types are not modelled: a non-string id, a non-array areas list, a source object with a falsy url, an item without channel or ts, or a parsed reply that is not an object.
- Text.TakeUtf16: differs from `substring(0, 39000)` when the cut falls inside a surrogate pair. JavaScript keeps the lone high surrogate; Dafny strings cannot hold one, so the model drops the whole character.
- ReportFormatter.TruncateWithinLimit: allows a kept part of 38999 or 39000 code units instead of exactly 39000, because of the surrogate-pair cut described for Text.TakeUtf16.
- CharityLookup.ToLowerCase: lower-cases ASCII letters only. JavaScript's `toLowerCase` also maps a few non-ASCII characters onto [a-z], such as the Kelvin sign and the dotted capital I.
- The Slack Web API transport and the bot token are not modelled. Slack's answers are the client's `respond` function, and a rejected promise is `Failed`.
- `UndefinedBodyText` and `NullBodyText` are the V8 wording of the TypeError for destructuring an undefined or null body. Other engines word it differently.
- `console` logging, asynchronous scheduling and concurrency between requests are not modelled. dev/dev-server.js is not part of this model.
