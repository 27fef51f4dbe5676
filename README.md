# WebMonitoringDb client model

A Dafny model of the `WebMonitoringDb` client of web-monitoring-ui. The client talks to the
web-monitoring-db REST API. The model covers the client's own logic:

- **Connection settings.** The constructor falls back to the staging server URL and makes
  sure the base URL ends in `/`. It copies `user` and `password` unchanged.
- **URL construction.** `createUrl` joins `api/v0/` and a path onto the base URL. When the
  query has entries, it appends `?` and the `&`-joined components. Each endpoint's path is
  modelled, and so is the URL that endpoint requests.
- **Basic authentication.** The header is `"Basic " + btoa(user + ":" + password)`. `btoa` is
  modelled in full as Base64 (section 4 of RFC 4648), with a decoder and a round-trip proof.
- **Response normalisers.** `parseVersion`, `parseAnnotation` and `parsePage` copy a record
  and replace its timestamp fields with `Date` values. A page also re-normalises its embedded
  `latest` version and every element of `versions`.

JavaScript values are `Json.Value`. Decoded objects are maps from property name to value
(`Json.Record`). `Date` objects hold an `Instant`, which is a time value or an invalid date.
Some behaviour comes from the host, not from this code:

- `new Date(x)` is the parameter `parse: DateParser`.
- `encodeURIComponent` is the parameter `enc: string -> string`.

Exceptions the code can raise are `Failure` results:

- reading a property of `null`/`undefined` raises `TypeError`;
- calling `.map` on something that is not an array raises `TypeError`;
- `btoa` of a character above U+00FF raises `InvalidCharacterError`.

Modules: `Wrappers` (Option, Result), `Json` (values, truthiness, own properties), `Normalize`
(the three normalisers), `Query` (query components, join and split), `Base64` (`btoa`/`atob`),
`Client` (the `WebMonitoringDb` class).

Some behaviour of the code is easy to miss:

- A page's `latest` and `versions` are re-normalised only when they are truthy. A `versions`
  that is truthy but not an array makes `parsePage` raise `TypeError`.
- A query value is emitted as a bare key when it is `== null`. That holds for `undefined`
  as well as for `null`.
- `getDiff` repeats the API prefix in the URL it requests (see Findings).

## Model

| member | source | states |
|---|---|---|
| `Normalize.StampDates` | src/services/web-monitoring-db.ts:154-158 | The copy holds exactly the source's own properties plus the stamped fields. Each stamped field is `Date(parse(old value))`. Every other own property is copied unchanged. |
| `Normalize.ParseVersion` | src/services/web-monitoring-db.ts:153-159 | Raises `TypeError` exactly for null/undefined input. Otherwise the result adds `capture_time`, `created_at` and `updated_at` to the input's keys, each the parsed date of the original value, and keeps every other field unchanged. |
| `Normalize.ParseAnnotation` | src/services/web-monitoring-db.ts:161-166 | Raises `TypeError` exactly for null/undefined input. Otherwise it replaces `created_at` and `updated_at` with parsed dates and keeps every other field unchanged. |
| `Normalize.NormalizeLatest` | src/services/web-monitoring-db.ts:142-144 | A truthy `latest` becomes the object `parseVersion` builds from it. Otherwise the page is unchanged. No other field changes and the key set stays the same. |
| `Normalize.NormalizeVersions` | src/services/web-monitoring-db.ts:146-148 | Raises `TypeError` exactly when `versions` is truthy and is not an array of non-null elements. On success a truthy `versions` is mapped element-wise by `parseVersion`, keeping length and order. A falsy one leaves the page unchanged. No other field changes. |
| `Normalize.ParsePage` | src/services/web-monitoring-db.ts:136-151 | Raises `TypeError` exactly for null/undefined input or a truthy non-mappable `versions`. On success: the keys are the input's keys plus the two date fields; those fields are parsed dates; a truthy `latest` is normalised and a falsy one kept; a truthy `versions` is mapped element-wise and a falsy one kept; every other field is unchanged. |
| `Normalize.ParseEach` | src/services/web-monitoring-db.ts:147 | `items.map(f)` succeeds exactly when `f` succeeds on every element. The result then has the same length and order, and each element is `f` of the original. A failure carries the error of the first element on which `f` raises, and every earlier element succeeded. |
| `Normalize.MapArray` | src/services/web-monitoring-db.ts:147 | `.map` on a non-array raises `TypeError`. On an array it succeeds exactly when `ParseEach` does, with the same elements or the same error. |
| `Normalize.ParseVersionNormalizes` | src/services/web-monitoring-db.ts:153-159 | A normalised version has all three timestamps as `Date` values. |
| `Normalize.ParsePageNormalizes` | src/services/web-monitoring-db.ts:136-151 | A normalised page satisfies the timestamp invariant: its dates are `Date` values, a truthy `latest` is a normalised version, and a truthy `versions` is an array of normalised versions. |
| `Normalize.StampDatesFixed` | src/services/web-monitoring-db.ts:154-158 | With a parser that copies `Date` arguments, re-stamping fields that already hold dates is the identity. |
| `Normalize.NormalizedVersionFixed` | src/services/web-monitoring-db.ts:153-159 | A normalised version is a fixed point of `parseVersion`. |
| `Normalize.ParseVersionIdempotent` | src/services/web-monitoring-db.ts:153-159 | `parseVersion(parseVersion(d)) == parseVersion(d)` for a parser that copies dates. |
| `Normalize.ParseAnnotationIdempotent` | src/services/web-monitoring-db.ts:161-166 | `parseAnnotation` is idempotent for a parser that copies dates. |
| `Normalize.NormalizedVersionsFixed` | src/services/web-monitoring-db.ts:146-148 | An array of normalised versions passes through the `versions` step unchanged. |
| `Normalize.NormalizedPageFixed` | src/services/web-monitoring-db.ts:136-151 | A page satisfying the timestamp invariant is a fixed point of `parsePage`. |
| `Normalize.ParsePageIdempotent` | src/services/web-monitoring-db.ts:136-151 | `parsePage(parsePage(d)) == parsePage(d)`, embedded versions included, for a parser that copies dates. |
| `Normalize.ParsePagesIdempotent` | src/services/web-monitoring-db.ts:63-67 | `getPages`' `data.map(parsePage)`: when `parsePage` accepts every element, the map succeeds, and mapping `parsePage` over the list it produced gives the same list, for a parser that copies dates. |
| `Normalize.ParsePageWithoutVersions` | src/services/web-monitoring-db.ts:136-151 | With no truthy `latest` or `versions`, `parsePage` gives exactly what `parseAnnotation` gives. |
| `Json.Truthy` | src/services/web-monitoring-db.ts:142-148 | The tests `if (page.latest)` and `if (page.versions)`: null and undefined are falsy, every object, array and date is truthy, and a string is truthy exactly when it is non-empty. |
| `Json.Prop` | src/services/web-monitoring-db.ts:138-139 | A read such as `data.created_at`: on an object it is that own property, and a defined result is always an own property that `Object.assign` copies. A key that is not an own property reads as `undefined`. |
| `Json.OwnProps` | src/services/web-monitoring-db.ts:137-140 | What `Object.assign` copies from an object is exactly its fields. Values other than objects, arrays and strings contribute nothing. |
| `Json.ArrayLikeOwnProps` | src/services/web-monitoring-db.ts:154-158 | From an array or a string, `Object.assign` copies exactly the index properties "0", "1", …, each holding its element or character. |
| `Json.IndexedPropsValues` | src/services/web-monitoring-db.ts:162-165 | Each index property holds its own element, because distinct indices have distinct decimal names. |
| `Query.Component` | src/services/web-monitoring-db.ts:117-122 | When the encoder escapes `&` and `=`, a component holds no `&` and splits at `=` into the encoded key, then the encoded value exactly when the value is not null/undefined. |
| `Query.Join` | src/services/web-monitoring-db.ts:125 | `queryList.join('&')` starts with the first component, holds a `&` once there are two, and holds no character besides `&` and those of the components. `Query.SplitJoin` is its inverse. |
| `Query.Components` | src/services/web-monitoring-db.ts:114-123 | One component per entry, in iteration order. A null/undefined value gives `enc(key)`; any other value gives `enc(key) + "=" + enc(value)`. |
| `Query.SplitJoin` | src/services/web-monitoring-db.ts:125 | Splitting the `&`-join of a non-empty list of `&`-free parts gives the parts back. |
| `Query.QueryStringRoundTrip` | src/services/web-monitoring-db.ts:114-126 | When the encoder escapes `&` and `=`, the query string splits back into the components in order. Each component splits into the encoded key, followed by the encoded value exactly when the value is not null/undefined. |
| `Client.WebMonitoringDb.constructor` | src/services/web-monitoring-db.ts:53-61 | The stored URL ends in `/`. An absent or empty URL gives the staging default. A URL ending in `/` is kept unchanged; any other gets exactly one `/` appended. `user` and `password` are copied unchanged. |
| `Client.WebMonitoringDb.CreateUrl` | src/services/web-monitoring-db.ts:111-129 | With no query or an empty one, the result is `url + "api/v0/" + path`. Otherwise it is that plus `?` and the `&`-joined components of the entries. |
| `Client.WebMonitoringDb.GetPagesUrl` | src/services/web-monitoring-db.ts:64 | `getPages` requests `url + "api/v0/pages"`. |
| `Client.WebMonitoringDb.GetPageUrl` | src/services/web-monitoring-db.ts:70 | `getPage` requests `url + "api/v0/pages/" + pageId`. |
| `Client.WebMonitoringDb.GetVersionsUrl` | src/services/web-monitoring-db.ts:76 | `getVersions` requests `url + "api/v0/pages/" + pageId + "/versions"`. |
| `Client.WebMonitoringDb.GetVersionUrl` | src/services/web-monitoring-db.ts:82 | `getVersion` requests `.../pages/{pageId}/versions/{versionId}` under the prefix. |
| `Client.WebMonitoringDb.GetDiffUrl` | src/services/web-monitoring-db.ts:89 | As written, `getDiff` requests `url + "api/v0//api/v0/pages/..."`, with the prefix twice. |
| `Client.DiffUrlRepeatsPrefix` | src/services/web-monitoring-db.ts:89 | The diff URL as written equals the intended URL with an extra `/api/v0/` inserted, so the two always differ. |
| `Client.WebMonitoringDb.GetDiffUrlIntended` | src/services/web-monitoring-db.ts:88 | The URL shown in the comment: `url + "api/v0/pages/{pageId}/changes/{a}..{b}/diff/{type}"`. |
| `Client.Show` | src/services/web-monitoring-db.ts:132 | Inside the template literal, a present credential is inserted verbatim and a missing one as the text "undefined". |
| `Client.WebMonitoringDb.Credentials` | src/services/web-monitoring-db.ts:132 | The credentials text is the rendered user, a `:`, then the rendered password, with lengths adding up. |
| `Client.WebMonitoringDb.BasicAuthHeader` | src/services/web-monitoring-db.ts:131-133 | Raises `InvalidCharacterError` exactly when a credential character is above U+00FF. Otherwise the header is exactly `"Basic "` followed by `btoa(user + ":" + password)`, with a missing value rendered as "undefined", and its encoded part decodes back to the credentials. |
| `Client.WebMonitoringDb.AnnotateVersionRequest` | src/services/web-monitoring-db.ts:98-103 | `annotateVersion` posts to `.../pages/{pageId}/versions/{versionId}/annotations` with the Basic authentication header. |
| `Base64.EncodeDigits` | src/services/web-monitoring-db.ts:132 | The encoding has four digits per started group of three bytes. |
| `Base64.DecodeEncodeDigits` | src/services/web-monitoring-db.ts:132 | Decoding the digits of an encoding gives the bytes back. |
| `Base64.DecodeEncode` | src/services/web-monitoring-db.ts:132 | `Decode(Encode(bs)) == bs` for every byte sequence. |
| `Base64.Btoa` | src/services/web-monitoring-db.ts:132 | `btoa` raises `InvalidCharacterError` exactly for non-Latin-1 input. Otherwise it returns `4 * ceil(n / 3)` characters. |
| `Base64.BtoaRoundTrip` | src/services/web-monitoring-db.ts:132 | `atob(btoa(s)) == s` for every Latin-1 string. |

## Left out

- `fetch`, `response.json()` and the promise chains of the six endpoint methods are network I/O. So are the `Headers` object and the `credentials`, `mode` and `method` options. Only the URL each endpoint requests and the header it builds are modelled.
- The `data.data` unwrapping of responses sits inside that I/O chain. The element-wise `.map(parsePage)` and `.map(parseVersion)` are modelled by `Normalize.ParseEach`.
- `JSON.stringify` of the annotation body is host serialisation and is not modelled.
- `new Date(x)` is the host's date parsing, so it is the parameter `parse`. The idempotence lemmas assume only that it copies the time value of a `Date` argument, as ECMAScript's `Date` constructor does.
- `encodeURIComponent` is the parameter `enc`. Its URIError on lone surrogates is not modelled. The query round trip assumes only that it escapes `&` and `=`.
- Query objects are ordered lists of entries, and every value is a string or null/undefined. Three things follow. Inherited enumerable properties are not modelled. Non-string values are not converted by `ToString`. A truthy primitive query, such as a string, is not modelled.
- A JavaScript object keeps its keys in insertion order. Records here are maps, so the order of keys in a copied record is not modelled.
- Special property names are not modelled: a `__proto__` key, accessors, and prototype properties other than `map` on arrays.
- Strings are sequences of Unicode scalar values, not UTF-16 code units. This only affects the index properties copied from a string record and the `btoa` check on astral characters, which raises in both models.
- Json.Prop: reading an index key such as `"0"` on an array or a string gives `undefined` here, where JavaScript gives the element. The code reads only timestamp field names, which are never index keys.
- Numbers are reals. JSON has no NaN, so `NaN` is not modelled.
- src/constants/DiffTypes.tsx is a constant table of labels with no behaviour.

## Findings

| source | as written | input that shows it | evidently intended | confidence | as-written member | corrected member |
|---|---|---|---|---|---|---|
| src/services/web-monitoring-db.ts:89 | `getDiff` passes a path that already begins with `/api/v0/` to `createUrl`. `createUrl` adds `api/v0/` itself. | base `https://web-monitoring-db-staging.herokuapp.com/`, page `p`, versions `a` and `b`, type `html_text` give `https://web-monitoring-db-staging.herokuapp.com/api/v0//api/v0/pages/p/changes/a..b/diff/html_text` | `.../api/v0/pages/p/changes/a..b/diff/html_text`, the URL shown in the comment on line 88 | high; not executed | `Client.WebMonitoringDb.GetDiffUrl` (exhibited by `Client.DiffUrlRepeatsPrefix`) | `Client.WebMonitoringDb.GetDiffUrlIntended` |
