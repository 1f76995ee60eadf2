# Salesforce Record Comparator — a Dafny model of its core

The extension is a popup. It picks up the CRM record shown in the active
browser tab, takes a snapshot of its fields, and compares two such snapshots
field by field. This project models the deterministic core behind that popup
and proves properties of the model:

- **The popup's comparison session** (`SalesforceComparator.tsx`). The class
  `Comparator.Session` holds the React state `sourceRecord`, `targetRecord`,
  `comparison` and `error`, with the setters as field writes.
  - `CompareRecords` walks the union of the two records' keys in `Set`
    insertion order and pushes each key into one of four buckets.
  - `ClearRecords` forgets both records and the comparison.
  - `SelectSource`/`SelectTarget` store a snapshot or report why there is none.
- **The field differ as a specification** (`field_diff.dfy`).
  - `Diff` is the comparison as a function.
  - The lemmas state which bucket a key lands in and with which values, and
    that the buckets partition the keys.
  - They also state the order of the buckets, the self-comparison and the swap
    of the two records.
- **Both copies of `extractRecordInfo`**: the popup's (`comparator.dfy`) and
  the content script's (`content.dfy`).
  - Both use the same URL classification.
  - The two regular expressions are written out as leftmost-match searches
    (`url_patterns.dfy`).
  - The name comes from a DOM probe tried over an ordered list of selectors.
  - The Classic object type comes from URL substrings in the popup, and from
    the table of id prefixes in the content script.
  - The content script's `getRecordInfo` message wraps the outcome as
    `{success, data}` or `{success, error}`.
- **The placeholder snapshot builders**.
  - The REST helper's `getMockRecordData`, and its `fetchRecordData`, which
    always takes the no-session path (`salesforce_api.dfy`).
  - The background worker's `fetchSalesforceRecord` (`background.dfy`).
  - The popup's two-field `fetchRecordData`, and `formatValue` and
    `isSalesforceTab`.
- **Cross-copy results**.
  - `mock_parity.dfy` runs the popup's own differ over the snapshots the
    builders produce.
  - `copies.dfy` states where the two extractors agree and where they part.

Both builders are written as the source writes them: an object literal, then
one assignment per type-specific field, in order. Each `AddXFields` method
holds one branch's assignments, and `Records.AddMockField` is one
assignment.

- `Records.IsMockObject` is each builder's specification.
- `Records.IsPartialMock` is the invariant that each assignment keeps.

Some behaviours of the code are easy to misread; the model follows the code:

- **Name probing.** The name is the trimmed text of the *first selector that
  finds an element*. An element whose text trims to nothing gives `''`, and
  later selectors are not tried (`UrlPatterns.RecordNameFromFirstFound`).
- **Classic object type in the popup.** The popup's copy does not use the
  prefix table. It tests whether the whole URL contains `/001`, `/003`,
  `/006`, `/00Q` or `/500`, and otherwise leaves the type `''`.
  - `Copies.ClassicTypesAgree` states exactly when the two copies agree.
  - `Copies.QuotePageDiverges` shows a page where they do not.
- **Selectors.** The popup tries three selectors per page kind, the content
  script four (`Copies.NamesAgree`).
- **Error message.** The two copies throw different messages.

Inputs that the source reads from its environment are parameters:

- `window.location.href`, `window.location.origin` and
  `document.querySelector(...).textContent` form a `UrlPatterns.Page`.
- The outcome of the popup's script injection is a `Comparator.Selection`.
- The pretty printer of `JSON.stringify(v, null, 2)` is a function argument.

## Model

| member | source | states |
|---|---|---|
| Comparator.Session.constructor | src/components/SalesforceComparator.tsx:24-30 | the session starts with no records, no comparison and an empty error |
| Comparator.Session.SelectSource | src/components/SalesforceComparator.tsx:62-95 | the error is cleared; a fetched snapshot becomes the source; with no result the error is the not-detected message; a failure gives the source prefix plus its message; nothing else changes |
| Comparator.Session.SelectTarget | src/components/SalesforceComparator.tsx:97-130 | the same as SelectSource for the target side |
| Comparator.Session.CompareRecords | src/components/SalesforceComparator.tsx:132-173 | a missing record or differing object types set their error and keep the old comparison; otherwise the comparison is `Diff` of the two field objects and the error is cleared; every key of either record is then listed exactly once; the records are never changed |
| Comparator.Session.ClearRecords | src/components/SalesforceComparator.tsx:175-182 | both records and the comparison become null and the error stays as it was |
| Comparator.FormatValue | src/components/SalesforceComparator.tsx:184-188 | null prints as "null", arrays and objects as the pretty printer's text, strings as themselves, booleans as "true"/"false", and numbers as a decimal that parses back to the number |
| Comparator.IsSalesforceUrl | src/components/SalesforceComparator.tsx:190-192 | the three substring tests together hold exactly when the URL contains `force.com`; the background worker's `isSalesforce` (public/background.js, lines 13 to 15) is the same three tests |
| Comparator.FirstMarker | src/components/SalesforceComparator.tsx:406-410 | the result is '' exactly when the URL contains no marker; otherwise it is the type of a contained marker that no earlier marker precedes |
| Comparator.ClassicTypeFromUrl | src/components/SalesforceComparator.tsx:406-410 | the type is '' exactly when none of `/001`, `/003`, `/006`, `/00Q`, `/500` occurs; `/001` anywhere gives Account; the type is one of the five or '' |
| Comparator.ClassicTypeIsFirstCheck | src/components/SalesforceComparator.tsx:406-410 | the marker table read in order is the source's `if`/`else if` chain |
| Comparator.ClassicObjectType | src/components/SalesforceComparator.tsx:405-411 | the chain of `includes` checks assigns the type ClassicTypeFromUrl specifies |
| Comparator.Extraction | src/components/SalesforceComparator.tsx:375-431 | a failure carries the source's message; a success has a 15 to 18 character word id and the page origin; it succeeds exactly on a Lightning page whose pattern matches or a Classic page whose pattern matches |
| Comparator.ExtractRecordInfo | src/components/SalesforceComparator.tsx:375-431 | the branch-by-branch assignments of `recordId`, `objectType` and `recordName`, then the throw or return, compute Extraction |
| Comparator.LightningExtraction | src/components/SalesforceComparator.tsx:382-398 | on a Lightning page the popup succeeds exactly when the pattern matches; the type and id are its captures and the name comes from the three Lightning selectors |
| Comparator.ClassicExtraction | src/components/SalesforceComparator.tsx:399-420 | on a Classic page the popup succeeds exactly when the pattern matches; the id is the match and the type is ClassicTypeFromUrl of the whole URL |
| Comparator.NoBranchThrows | src/components/SalesforceComparator.tsx:421-423 | a page of neither kind throws the no-record-id error |
| Comparator.LightningExample | src/components/SalesforceComparator.tsx:382-388 | `https://org.lightning.force.com/lightning/r/Account/001ABCDEFGHIJKL` yields Account and `001ABCDEFGHIJKL` |
| Comparator.FetchRecordData | src/components/SalesforceComparator.tsx:433-447 | the identity is copied and the fields are exactly `Id` (the id) and `Name` (the name as given), in that order |
| FieldDiff.InsertionOrder | src/components/SalesforceComparator.tsx:150-152 | the `Set` of both key lists holds each key of either list exactly once |
| FieldDiff.InsertionOrderAppend | src/components/SalesforceComparator.tsx:150-152 | the `Set` lists the source keys in their order, then the target keys the source lacks, in theirs |
| FieldDiff.DiffOverMembership | src/components/SalesforceComparator.tsx:154-169 | an entry is in a bucket exactly when its key was walked, has that bucket's kind and carries that bucket's values |
| FieldDiff.DiffOverOrder | src/components/SalesforceComparator.tsx:154-169 | each bucket lists its keys in walk order: the walked keys of its kind, and no others |
| FieldDiff.DiffBuckets | src/components/SalesforceComparator.tsx:155-168 | a shared key with equal values is in `same` with the source value; with unequal values it is in `different` with both values; a key of one record only is in that side's bucket with its value, and no bucket holds anything else |
| FieldDiff.DiffOrder | src/components/SalesforceComparator.tsx:150-169 | the walk is the source keys, then the target keys the source lacks; each bucket is the subsequence of that walk of its own kind |
| FieldDiff.DiffPartitionsKeys | src/components/SalesforceComparator.tsx:150-169 | every key of either record is listed exactly once over the four buckets, and no other key is listed |
| FieldDiff.BucketsDisjoint | src/components/SalesforceComparator.tsx:158-168 | no key is in two buckets |
| FieldDiff.DiffWithItself | src/components/SalesforceComparator.tsx:154-169 | comparing a record with itself leaves `different`, `sourceOnly` and `targetOnly` empty, and `same` lists every field in key order with its value |
| FieldDiff.TargetOnlyIsSwappedSourceOnly | src/components/SalesforceComparator.tsx:164-168 | the target-only bucket is the source-only bucket of the swapped comparison, entry for entry |
| FieldDiff.DiffSwap | src/components/SalesforceComparator.tsx:154-169 | swapping the records swaps `sourceOnly` and `targetOnly` exactly, keeps the entries of `same`, and keeps the keys of `different` with the two values exchanged |
| FieldDiff.DiffOfPrefix | src/components/SalesforceComparator.tsx:154-169 | when the target is the source with its last fields left out, the shared fields are `same`, the left-out ones are `sourceOnly`, and nothing differs |
| Text.Trim | public/content.js:38 | `trim()` returns a slice of the text with only white space before and after it, and neither end of the slice is white space; the result is empty exactly when the text is all white space |
| Text.TrimIdempotent | public/content.js:38 | trimming a trimmed text changes nothing |
| Text.IntToStringRoundTrip | src/components/SalesforceComparator.tsx:187 | `String(n)` of an integer parses back to `n` |
| UrlPatterns.WordRun | public/content.js:26 | the run of `\w` characters at an index is maximal: all word characters, then a non-word character or the end |
| UrlPatterns.LightningAtIsMatch | public/content.js:26 | the Lightning match computed at an index is exactly the declarative one: the path, a whole word run as type, a slash, and 15 to 18 word characters the greedy quantifier cannot extend |
| UrlPatterns.MatchLightningIsLeftmost | public/content.js:26 | `match` finds nothing exactly when no index matches; otherwise it returns the match at the leftmost matching index |
| UrlPatterns.ClassicAtIsMatch | public/content.js:44 | the Classic match at an index is exactly a slash, 15 to 18 word characters, then `?`, `/` or the end |
| UrlPatterns.MatchClassicIsLeftmost | public/content.js:44 | `match` finds nothing exactly when no index matches; otherwise it returns the match at the leftmost matching index |
| UrlPatterns.MatchedIdsAreWellFormed | public/content.js:26-46 | either match yields an id of 15 to 18 word characters |
| UrlPatterns.LightningRecordUrl | public/content.js:26-30 | `https://<host>/lightning/r/<type>/<id><rest>` with a slash-free host yields that type and id |
| UrlPatterns.ClassicRecordUrl | public/content.js:44-47 | `https://<host>/<id><rest>` yields the id when the host has no slash or `?` and is not one word run, and the rest starts with `?` or `/` or is empty |
| UrlPatterns.FirstElement | public/content.js:33-36 | the chain of `querySelector` calls joined by logical or finds nothing exactly when no selector does; otherwise it is the text of the first selector that finds an element |
| UrlPatterns.ProbeName | public/content.js:33-39 | the assignment of `recordName` computes RecordName |
| UrlPatterns.RecordNameFromFirstFound | public/content.js:33-39 | the name is the trimmed text of the first selector that finds an element, '' when that text is all white space, with no later selector tried |
| UrlPatterns.RecordNameWithoutElement | public/content.js:65-71 | with no element found the name is '' |
| Content.IdPrefix | public/content.js:50 | `substring(0, 3)` is the first three characters, or the whole id when shorter |
| Content.ObjectTypeForPrefix | public/content.js:51-62 | a prefix in the table gives its type and any other prefix gives 'Unknown', so the type is never '' |
| Content.Extraction | public/content.js:18-85 | a failure carries the script's message; a success has a 15 to 18 character word id, the origin and the full URL; it succeeds exactly on a Lightning page whose pattern matches or a Classic page whose pattern matches; a Classic type is never '' |
| Content.ExtractRecordInfo | public/content.js:18-85 | the branch-by-branch assignments, then the throw or return, compute Extraction |
| Content.LightningExtraction | public/content.js:25-40 | on a Lightning page the script succeeds exactly when the pattern matches, with its captures and the name from the four Lightning selectors |
| Content.ClassicExtraction | public/content.js:43-72 | on a Classic page the script succeeds exactly when the pattern matches; the type is the table's for the id's first three characters |
| Content.NoBranchThrows | public/content.js:74-76 | a page of neither kind throws |
| Content.OrgClassicUrl | public/content.js:43 | `https://org.salesforce.com/<id>` with no `n` in the id takes the Classic branch |
| Content.ClassicExample | public/content.js:43-62 | `https://org.salesforce.com/500ZZZZZZZZZZZZ` yields the Case record `500ZZZZZZZZZZZZ` |
| Content.OnMessage | public/content.js:6-16 | a `getRecordInfo` request is answered with success and the extraction, or failure and its message; any other request gets no reply |
| Records.Fields.Put | src/utils/salesforceApi.ts:80-95 | `obj[key] = value` makes the key hold the value; an existing key keeps its place and a new key goes to the end |
| Records.PutKeepsOthers | src/utils/salesforceApi.ts:80-95 | an assignment changes no other key |
| Records.PutKeepsValid | src/utils/salesforceApi.ts:80-95 | an assignment keeps each key listed once, and exactly the keys that hold a value |
| Records.FieldsExtensional | src/utils/salesforceApi.ts:70-96 | two objects with the same key order and the same values are the same object |
| Records.NameOrDefault | src/utils/salesforceApi.ts:72 | a non-empty name is kept and an empty (falsy) name becomes 'Sample Record', so the result is never empty |
| Records.BaseValue | src/utils/salesforceApi.ts:70-76 | exactly the five base keys get a base value |
| Records.MockBaseObject | src/utils/salesforceApi.ts:70-76 | the literal is the placeholder object with no extra fields: the five base keys in order, with the id, the name or its default, and the three constants; the background worker's literal (public/background.js, lines 51 to 58) is the same |
| Records.MockStep | src/utils/salesforceApi.ts:79-96 | assigning the next table field extends a partial placeholder by that key at the end, with the table's value |
| Records.AddMockField | src/utils/salesforceApi.ts:80-95 | one assignment `mockFieldData.X = v` keeps the partial-placeholder invariant with one more field |
| Records.MockIsUnique | src/utils/salesforceApi.ts:69-105 | a placeholder snapshot is determined by its record and its extra-field table |
| Records.MockBaseFields | src/utils/salesforceApi.ts:70-76 | every placeholder snapshot starts with the five base keys, with the id, the name or 'Sample Record', and the three constant values |
| SalesforceApi.ExtraFields | src/utils/salesforceApi.ts:78-96 | each object type's extra fields are well formed and new to the base keys |
| SalesforceApi.AddAccountFields | src/utils/salesforceApi.ts:79-85 | the Account branch's six assignments complete the placeholder object |
| SalesforceApi.AddContactFields | src/utils/salesforceApi.ts:86-90 | the Contact branch's four assignments complete the placeholder object |
| SalesforceApi.AddOpportunityFields | src/utils/salesforceApi.ts:91-96 | the Opportunity branch's four assignments complete the placeholder object |
| SalesforceApi.GetMockRecordData | src/utils/salesforceApi.ts:69-105 | the result is the placeholder snapshot: the identity copied, the base fields then the type's fields, in order, with their values |
| SalesforceApi.FetchRecordData | src/utils/salesforceApi.ts:31-38 | with no session the answer is the placeholder snapshot |
| SalesforceApi.MockKeys | src/utils/salesforceApi.ts:78-96 | the exact keys per type: Account adds Type, Industry, Phone, Website, BillingCity, BillingState; Contact adds Email, Phone, Title, Department; Opportunity adds Amount, StageName, CloseDate, Probability; other types have only the base keys |
| Background.ExtraFields | public/background.js:60-74 | each object type's extra fields are well formed and new to the base keys |
| Background.AddAccountFields | public/background.js:61-65 | the Account branch's four assignments complete the placeholder object |
| Background.AddContactFields | public/background.js:66-69 | the Contact branch's three assignments complete the placeholder object |
| Background.AddOpportunityFields | public/background.js:70-74 | the Opportunity branch's three assignments complete the placeholder object |
| Background.FetchSalesforceRecord | public/background.js:40-86 | the result is the placeholder snapshot over the background worker's tables, with the identity copied |
| Background.MockKeys | public/background.js:60-74 | the exact keys per type: no Billing fields, no Department and no Probability; other types have only the base keys |
| MockParity.TablesAgree | public/background.js:60-74 | each background table is the REST helper's table with its last fields left out, with the same values |
| MockParity.ApiVersusBackground | public/background.js:51-82 | comparing the REST helper's placeholder with the background worker's finds nothing different and nothing only in the worker's; BillingCity and BillingState, Department or Probability are the REST helper's alone |
| MockParity.PopupVersusApi | src/components/SalesforceComparator.tsx:433-447 | for a named record, the popup's two-field placeholder agrees with the REST helper's on Id and Name, and lacks every other field |
| Copies.ExtractionsAgree | public/content.js:18-85 | the two copies succeed on the same pages, with the same id and origin, and on Lightning pages with the same type |
| Copies.ClassicTypesAgree | public/content.js:49-62 | on a Classic page the two copies give the same type exactly when the id's prefix is one of the popup's markers and no earlier marker occurs in the URL |
| Copies.SelectorsExtend | public/content.js:65-68 | the content script's selectors are the popup's plus one at the end, on both kinds of page |
| Copies.NameWithExtraSelector | public/content.js:33-36 | an extra last selector changes the name only when no earlier selector finds an element |
| Copies.NamesAgree | public/content.js:33-39 | the two copies read the same name unless none of the popup's selectors finds an element; then the popup has '' and the content script the text its extra selector finds |
| Copies.QuotePageDiverges | public/content.js:57 | on `https://org.salesforce.com/0Q0ZZZZZZZZZZZZ` the content script gives Quote and the popup gives '' |

## Left out

- Chrome extension plumbing is not modelled:
  - `chrome.tabs.query`, `chrome.scripting.executeScript`, `chrome.storage.local` and the `chrome.runtime` listeners;
  - the background worker's `onInstalled` and `onUpdated` injection, and its `fetchRecordData` message handler (`public/background.js:31-38`);
  - the content listener's `return true`.
  - These are asynchronous browser APIs. Only their outcome enters the model, as a `Selection` or a `Page`.
- Comparator.Session.SelectSource, Comparator.Session.SelectTarget: these do not model the loading flags, the storage write, or how the injected script's result reaches `fetchRecordData`. The source's own catch path becomes `Failed(message)`.
- `loadStoredRecords`, `useEffect` with `currentTab`, the storage removal in `clearRecords`, and all React rendering are left out: they are storage, mount logic and UI.
- The REST branch of `fetchRecordData` (`src/utils/salesforceApi.ts:40-61`) and `describeObject` are left out: they are network requests to an unseen endpoint. `getSalesforceSessionId` always answers null, so that branch is unreachable in the model.
- `addExtensionIndicator` and its `setTimeout` are left out: they are DOM side effects and a timer.
- Asynchrony is not modelled: every `async` function becomes a synchronous function or method.
- `JSON.stringify` equality is structural equality of the `Json` datatype, whose objects keep their members in order.
  - Numbers are integers.
  - `undefined`-valued fields and `Object.keys` putting integer-like keys first are not modelled.
- Comparator.FormatValue: the pretty-printed text for arrays and objects is a parameter, not JSON text. `undefined` is not a `Json` value, so its "null" case is absent.
- Records.NameOrDefault: a missing `recordName` (optional in `RecordInfo`) is modelled as the empty string, which `||` treats the same way.
- Text.Trim: characters are Dafny `char` values, so strings are not treated as UTF-16 code units.
- The background worker's `catch` that rethrows with `'Failed to fetch record data: '` is left out: its `try` block throws only when `recordInfo` is missing, which the model's `RecordInfo` type excludes.
