# Danmaku import for LunaTV, in Dafny

This project models LunaTV's danmaku (overlay comment) import subsystem and
proves properties of the model. Every network call, the clock, MD5, the
cookie cipher and the database are parameters or small state models.

The model covers:

- **Canonical slug.** `buildCanonicalSlug` normalises a title so that every
  source of the same content shares one comment bucket.
- **Bilibili WBI signing.** The 64-entry mixin permutation, the `!'()*`
  character filter, the sorted `k=v&…` query that is hashed, and the six-hour
  cache of image keys.
- **Comment parsers.** Five parsers read a comma-separated `p` field into an
  item: the DanDanPlay and Bilibili parsers of both library files
  (`danmakuImport.ts` and its older copy `danmaku.import.ts`), and the import
  route's own two. They differ in three things, which `ParserSpec` fixes:
  - the field that holds the colour (2 or 3);
  - which mode values pin a comment (4, or 4 and 5);
  - how the colour is rendered (lower-case hex whatever the number, or
    upper-case hex with a white default).

  The route's DanDanPlay parser differs in two more ways. It calls
  `comment.p.split` without `String()`, so one comment whose `p` is not a
  string empties the whole result. It also stores `comment.m` as it is, where
  the library stores `String(comment.m)`.
- **Candidate selection.**
  - DanDanPlay: the first candidate with a matching episode wins, with a
    fallback for a single candidate that has a single episode.
  - Bilibili: the first result dated in the year wins, otherwise the first
    result; then the episode is picked by index.
- **The import ledger.** `isEpisodeImported` and `ensureEpisodeImported`, over
  a store of sorted-set buckets and strings. Writes may be refused, key by
  key.
- **The routes.**
  - manual import, with canonical mirroring;
  - the read path, with its canonical fallback, and single-comment posting;
  - the auto-import chain: cached season, then DanDanPlay, then Bilibili;
  - the ensure and trigger routes, with their configuration-driven choice of
    provider, external id and title;
  - the admin configuration route: cookie redaction, merge, cookie
    set and clear;
  - the settings route: admission and schema bounds.

The store is keyed by `Common.Key` values. The module `Keys` gives the key
strings the code writes, and proves that different keys have different
strings when no source, id or slug contains `:` and no episode source is
`canonical` or `map`. It also exhibits colliding keys for the other inputs.

The store is the class `Storage.Store`:

- sorted-set buckets, appended to by `zadd` and read by `zrange`;
- a string store, read by `getString` and written by `setString`;
- `rejects`, the keys whose writes the database refuses, each with the
  error's message;
- `log`, every write issued, in order.

Each route is a method on this store and is proved against a function that
gives the reply and the sequence of writes. The lemmas about those functions
state what the routes promise.

## Model

| member | source | states |
|---|---|---|
| `Text.Trim` | src/lib/danmaku.util.ts:3 | `trim` gives the slice of the string left once a blank prefix and a blank suffix are removed (JavaScript white space); the result is empty exactly for a blank string, and otherwise neither starts nor ends with white space |
| `Text.PadStart` | src/lib/danmakuImport.ts:180 | `padStart(width, fill)` keeps the string as the result's suffix, fills only in front, and makes the result `max(|s|, width)` long |
| `Text.SplitJoin` | src/lib/danmakuImport.ts:486 | splitting a `,`-joined list of comma-free fields gives back the fields |
| `Text.DigitsWellFormed` | src/lib/danmakuImport.ts:180 | `n.toString(radix)` writes at least one digit, all of them digits of the radix |
| `Text.DigitsRoundTrip` | src/lib/danmakuImport.ts:180 | the digits `toString(radix)` writes read back as `n` |
| `Text.LeadingZeros` | src/lib/danmakuImport.ts:180 | zero padding in front does not change a digit string's value |
| `Text.HexLengthBound` | src/lib/danmakuImport.ts:180 | a number below 16^w has at most w hexadecimal digits, so padding to six never truncates a 24-bit colour |
| `Text.DigitPrefix` | src/lib/danmakuImport.ts:177-179 | the run of digits `parseInt` reads is a prefix of the input, all of it digits, and stops at the first non-digit |
| `Text.ParseIntOfDecimal` | src/lib/danmakuImport.ts:401-402 | `parseInt(String(n))` is `n` for every non-negative integer |
| `Text.ParseIntOfDigits` | src/lib/danmakuImport.ts:177-179 | `parseInt` of a plain decimal digit string is its value |
| `Text.ParseIntOfUnsigned` | src/lib/danmakuImport.ts:177-179 | without leading white space or a sign, `parseInt` reads only the magnitude |
| `Text.FilterIdempotent` | src/lib/danmaku.util.ts:6-8 | removing characters by a fixed test twice is removing them once |
| `Text.FilterNested` | src/lib/danmaku.util.ts:6-8 | a stricter filter applied after a looser one makes the looser one redundant |
| `Slug.LowerAscii` | src/lib/danmaku.util.ts:5 | `toLowerCase` never yields an ASCII capital; it changes exactly the capitals, each into a small letter that `toUpperCase` turns back into it |
| `Slug.LowerAllAt` | src/lib/danmaku.util.ts:5 | lower-casing keeps the length and lowers each character in place |
| `Slug.NormTitle` | src/lib/danmaku.util.ts:4-8 | the normalised title holds only `a-z`, `0-9` and U+4E00–U+9FFF |
| `Slug.NormTitleOneFilter` | src/lib/danmaku.util.ts:6-8 | the white-space pass is subsumed: the title part is the lowered title filtered to slug characters |
| `Slug.YearPart` | src/lib/danmaku.util.ts:9 | the year part is absent exactly when the year is missing or blank; a present one is non-empty |
| `Slug.BuildCanonicalSlug` | src/lib/danmaku.util.ts:2-11 | null exactly for a missing or blank title; otherwise it starts with the normalised title, and it is exactly that title when the year part is absent |
| `Slug.SlugSplits` | src/lib/danmaku.util.ts:9-10 | splitting a slug at its first `-` gives back the normalised title and the trimmed year, so a slug determines both |
| `Slug.NoiseIgnored` | src/lib/danmaku.util.ts:6-8 | inserting white space, punctuation or any other non-slug character anywhere in a non-blank title leaves the slug unchanged |
| `Slug.NormTitleNoise` | src/lib/danmaku.util.ts:6-8 | the same, for the title part alone |
| `Slug.CaseIgnored` | src/lib/danmaku.util.ts:5 | titles equal up to ASCII case have the same slug |
| `Slug.SlugIdempotent` | src/lib/danmaku.util.ts:4-10 | with no year, the slug of a non-empty slug is the slug itself |
| `Slug.PunctuationOnlyTitle` | src/lib/danmaku.util.ts:3-10 | a title that is not blank but has no letter, digit or CJK character normalises to the empty string, so it yields the empty slug (with or without a year) and not null |
| `Requests.StringField` | src/app/api/danmaku/import/route.ts:11 | `z.string().min(n)` accepts exactly a string field of at least n characters, and yields that string |
| `Requests.OptionalString` | src/app/api/danmaku/import/route.ts:19-20 | `z.string().optional()`: an absent field is accepted as absent, a string as itself, any other value (`null` included) is refused |
| `Requests.IndexField` | src/app/api/danmaku/import/route.ts:13 | `z.number().int().min(0)` accepts exactly a whole non-negative number and yields it |
| `Requests.BoundedNumber` | src/app/api/danmaku/settings/route.ts:12-15 | `z.number().min(lo).max(hi)` accepts exactly a number in `[lo, hi]` and yields it |
| `Requests.CoerceIndex` | src/app/api/danmaku/route.ts:26 | `z.coerce.number().int().min(0)` accepts exactly a value that coerces to an integer at least 0 |
| `Requests.MissingIsZero` | src/app/api/danmaku/route.ts:26 | a missing or blank query value coerces to episode 0 |
| `Requests.DecimalCoerces` | src/app/api/danmaku/route.ts:26 | a decimal numeral coerces to its value |
| `Config.MappingByKey` | src/app/api/danmaku/ensure/route.ts:20-21 | the mapping used is the first whose key is `source+id` |
| `Config.Resolution` | src/app/api/danmaku/ensure/route.ts:27-29 | provider = the mapping's, else the configured default, else the route's fallback; external id and alias title come from the mapping; the title falls back to the request's |
| `Config.ExternalIdByDecimalKey` | src/app/api/danmaku/ensure/route.ts:28 | the external id is looked up under the episode's decimal text as given: episode 1 reads key "1", episode 0 key "0" |
| `Common.FirstWhere` | src/app/api/danmaku/settings/route.ts:29 | `find` yields the first index satisfying the test, and nothing exactly when no element does |
| `Storage.Store.ZRangeFirst` | src/app/api/danmaku/auto-import/route.ts:56 | `zrange(k, 0, 0)` is empty exactly when the bucket is, and otherwise holds the bucket's first member |
| `Storage.Store.ZRangeAll` | src/app/api/danmaku/route.ts:52 | `zrange(k, 0, -1)` is the whole bucket |
| `Storage.Store.ZAdd` | src/app/api/danmaku/import/route.ts:79 | an accepted `zadd` appends the members to its bucket and touches nothing else; a refused one throws its key's error and changes nothing; both are logged |
| `Storage.Store.GetString` | src/app/api/danmaku/route.ts:58 | `getString` yields the stored value, nothing for an unset key |
| `Storage.Store.SetString` | src/app/api/danmaku/import/route.ts:92 | an accepted `setString` replaces only its key; a refused one throws and changes nothing; both are logged |
| `Storage.BucketsOnlyGrow` | src/app/api/danmaku/import/route.ts:79 | whatever a bucket held stays at its front whatever writes follow |
| `Storage.AllRefused` | src/lib/danmakuImport.ts:139-142 | writes that are all refused leave both stores as they were |
| `Ledger.IsEpisodeImported` | src/lib/danmakuImport.ts:64-72 | true exactly when the episode's bucket has a member |
| `Ledger.EnsureEpisodeImported` | src/lib/danmakuImport.ts:74-143 | the outcome and the writes are those of the ledger's specification, from the bucket's state before the call; the string store is untouched |
| `Ledger.EarlyExits` | src/lib/danmakuImport.ts:83-111 | an existing member gives `already-exists`; DanDanPlay always gives `auth-required`; Bilibili without a cid gives `cid-required`; none of them writes |
| `Ledger.OneZAddPerImport` | src/lib/danmakuImport.ts:125-138 | a write is issued exactly for `Imported` and `save-failed`, and it is one `zadd` to the episode's bucket holding one member per item, scored by time, stamped imported, as many as the reported count |
| `Ledger.StoreEffect` | src/lib/danmakuImport.ts:135-142 | only `Imported` changes the store, by appending the members to the episode's bucket; the string store never changes |
| `Ledger.CommitStep` | src/lib/danmakuImport.ts:115-142 | with a cid: an HTTP failure or transport error gives `fetch-failed` with its message, an empty reply `empty`, a refused `zadd` `save-failed` with its message, otherwise the count is the number of comments |
| `Ledger.UnlistedProviderIsEmpty` | src/lib/danmakuImport.ts:120-123 | a provider other than the two fetches nothing and ends as `empty` without writing |
| `Ledger.CopiesAgree` | src/lib/danmaku.import.ts:39-107 | the two library copies give the same outcome and write the same number of members; only the colours differ |
| `Comments.ParseTags` | src/lib/danmakuImport.ts:485-499 | one item per matched element |
| `Comments.ParseXml` | src/lib/danmakuImport.ts:485-499 | the `while`/`push` loop yields one item per element, in document order, each parsed from its own `p` and text |
| `Comments.ParseXmlWithStats` | src/app/api/danmaku/import/route.ts:213-239 | the route's loop yields the same items and `colorStats` counts them: one entry per colour present, holding that colour's number of items |
| `Comments.ParseRouteTag` | src/app/api/danmaku/import/route.ts:214-226 | one element as the route parses it, and the colour it is counted under is the item's colour |
| `Comments.DdpItems` | src/lib/danmakuImport.ts:174-182 | the DanDanPlay map yields one item per comment |
| `Comments.FetchBilibili` | src/lib/danmakuImport.ts:467-503 | an HTTP failure throws `Bilibili API error: <status>`, a transport error throws its own message, a reply gives the parsed elements |
| `Comments.FetchBilibiliLocal` | src/app/api/danmaku/import/route.ts:175-252 | the route's parser gives `[]` for any failure and otherwise the elements parsed with field 3 and a white default |
| `Comments.ParseFields` | src/lib/danmakuImport.ts:486-491 | for comma-free fields, the time comes from field 0, the mode from field 1 and the colour from the parser's colour field |
| `Comments.CopiesReadDifferentFields` | src/lib/danmaku.import.ts:367-372 | with Bilibili's layout `time,mode,size,colour,…` the library reads the colour from field 3, the copy from field 2 (the font size) |
| `Comments.LowerHexRoundTrip` | src/lib/danmakuImport.ts:179-180 | a colour `0 <= c < 2^24` is written as `#` and six hex digits that read back as `c` |
| `Comments.UpperHexRoundTrip` | src/app/api/danmaku/import/route.ts:222-226 | the route writes the same six digits in upper case, which read back as `c` too |
| `Comments.UpperKeepsDigits` | src/app/api/danmaku/import/route.ts:224 | upper-casing hex digits keeps them digits and keeps their value |
| `Comments.WhiteDefault` | src/app/api/danmaku/import/route.ts:222-226 | NaN or a negative colour gives `#FFFFFF`, which a genuine 16777215 also gives |
| `Comments.NaNColour` | src/lib/danmakuImport.ts:179-180 | without a number, the library renders `#000NaN` |
| `Comments.NegativeColour` | src/lib/danmakuImport.ts:179-180 | for every negative number the sign lands inside the padding, just before the magnitude's digits, so the colour is not six hex digits |
| `Comments.NegativeColourExample` | src/lib/danmakuImport.ts:179-180 | -255 is rendered `#000-ff` |
| `Comments.DdpOneItemPerComment` | src/lib/danmakuImport.ts:167-182 | a `comments` array yields one item per comment, in order, each with `String(comment.m)` as its text |
| `Comments.ModeFiveDiffers` | src/app/api/danmaku/import/route.ts:155 | for the same fields and text the library's and the route's DanDanPlay parsers agree on every mode except 5, which the library pins and the route scrolls |
| `Comments.LocalDdpAllOrNothing` | src/app/api/danmaku/import/route.ts:151-168 | the route's DanDanPlay parser yields every comment exactly when every `p` is a string; one bad `p` empties the result |
| `Comments.FetchDanDanPlayLocal` | src/app/api/danmaku/import/route.ts:125-170 | a non-empty result comes from a reply with a `comments` array, with one item per comment, each carrying `comment.m` as it is as its text, and a colour |
| `Comments.RouteKeepsRawText` | src/app/api/danmaku/import/route.ts:160 | the route stores `comment.m` itself and the library `String(comment.m)`: a missing `m` gives no text in one and `"undefined"` in the other, a numeric `m` a number in one and its decimal text in the other |
| `Search.FindDanDanEpisodeId` | src/lib/danmakuImport.ts:185-244 | the `for` scan with its early return computes the selection function |
| `Search.ScanPicksFirst` | src/lib/danmakuImport.ts:216-231 | the scan returns what the first candidate yielding an id yields |
| `Search.ScanSound` | src/lib/danmakuImport.ts:216-231 | the scan returns only an id some candidate yields, and returns one whenever some candidate does |
| `Search.FindEpisodeFirst` | src/lib/danmakuImport.ts:220-225 | `find` returns the first matching episode, and nothing only when none matches |
| `Search.MatchIsSubstring` | src/lib/danmakuImport.ts:220-225 | the `第n集` and `第n话` tests add nothing: an episode matches exactly when its title contains the decimal number or its `episodeNo` is the number |
| `Search.ThirteenMatchesOne` | src/lib/danmakuImport.ts:220-225 | for episode 1, a list with `第13集` before `第1集` yields the id of `第13集` |
| `Search.DanDanOutcomes` | src/lib/danmakuImport.ts:185-244 | a blank title or no candidates gives null; otherwise the first yielding candidate's id, or, with no such candidate, only the single episode of a single candidate |
| `Search.SearchBilibiliCid` | src/lib/danmakuImport.ts:358-465 | the cid is the selection function's for the signed search; the key cache changes only as `getWbiKeys` changes it, and not at all for a blank title |
| `Search.FindYearFirst` | src/lib/danmakuImport.ts:398-408 | the year search finds the first result whose date text contains the year |
| `Search.FindYearNone` | src/lib/danmakuImport.ts:398-408 | with no result dated in the year, the search finds nothing |
| `Search.SignedNeverThrows` | src/lib/danmakuImport.ts:401 | the library's `String(...)` wrapper means its year search never throws |
| `Search.BestMatchPrefersYear` | src/lib/danmakuImport.ts:396-408 | the best match is the first result dated in `String(parseInt(year))` |
| `Search.BestMatchDefault` | src/lib/danmakuImport.ts:396-408 | without a year, or with no result dated in it, the best match is `results[0]` |
| `Search.CopyNumericPubtime` | src/lib/danmaku.import.ts:264-274 | in the copy, a first result with no `pubdate` and a non-zero numeric `pubtime` makes `includes` throw, so a search with a year gives null |
| `Search.CidByIndex` | src/lib/danmakuImport.ts:436-451 | an episode index gives that episode's cid; an index past the list, or a falsy cid, gives null |
| `Search.FailedRequestsGiveNone` | src/lib/danmakuImport.ts:380-383 | a failed search or detail request gives null |
| `Search.UnsignedQuery` | src/lib/danmakuImport.ts:329 | without keys the search query is the plain sorted `keyword=…&search_type=media_bangumi` |
| `Wbi.MixinTableIsPermutation` | src/lib/danmakuImport.ts:252-257 | `mixinKeyEncTab` has 64 entries and is a permutation of 0..63, with an explicit inverse |
| `Wbi.PickInRange` | src/lib/danmakuImport.ts:262 | with in-range indices, `tab.map(i => orig[i]).join('')` has one character per index, character i being `orig[tab[i]]` |
| `Wbi.MixinKeyOfFullInput` | src/lib/danmakuImport.ts:261-264 | for a 64-character input the mixin key has 32 characters, character i is `orig[mixinKeyEncTab[i]]`, and no input position is used twice |
| `Wbi.FilterWbiCharsRemovesExactly` | src/lib/danmakuImport.ts:270-273 | the filter removes exactly `!'()*` and keeps every other character in order |
| `Wbi.FilterWbiCharsClean` | src/lib/danmakuImport.ts:270-273 | the result holds no special character, a string without one is unchanged, and filtering is idempotent |
| `Wbi.PutGet` | src/lib/danmakuImport.ts:337-339 | after `ps[k] = v`, `k` reads `v`, every other key reads as before, the key set grows by `k`, and keys stay unique |
| `Wbi.PutFresh` | src/lib/danmakuImport.ts:339 | assigning a new key appends it last |
| `Wbi.RemoveAppended` | src/lib/danmakuImport.ts:347 | removing a key just appended gives back the record |
| `Wbi.SortByKeySorted` | src/lib/danmakuImport.ts:341-342 | `Object.keys(...).sort()` order: the result is sorted by key and a permutation of the entries |
| `Wbi.PairsAt` | src/lib/danmakuImport.ts:343 | pair i is `key=value` of entry i |
| `Wbi.BuildQuerySplits` | src/lib/danmakuImport.ts:275-280 | a built query splits at `&` back into the `k=encode(String(v))` pairs of all entries, in key order |
| `Wbi.FilterValuesKeys` | src/lib/danmakuImport.ts:335-338 | the filtered record has the same keys in the same order, string values filtered and other values kept |
| `Wbi.SignWbiParams` | src/lib/danmakuImport.ts:325-348 | the loop building `filtered`, then `wts` and `w_rid`, computes the signing function |
| `Wbi.UnsignedWithoutKeys` | src/lib/danmakuImport.ts:329 | without keys the parameters go out unchanged |
| `Wbi.SignedContents` | src/lib/danmakuImport.ts:331-347 | a signed request has the original keys plus `wts` and `w_rid`; `wts` is the time in whole seconds; other values are the originals, strings filtered |
| `Wbi.GetFilterValues` | src/lib/danmakuImport.ts:337 | a key of the filtered record reads the filtered value of the original |
| `Wbi.SignatureChecks` | src/lib/danmakuImport.ts:341-347 | a receiver that drops `w_rid` and hashes the sorted query of the rest with the mixin key gets `w_rid` back |
| `Wbi.AlnumSuffix` | src/lib/danmakuImport.ts:311-312 | the longest alphanumeric suffix: a suffix, alphanumeric, preceded by a non-alphanumeric character when shorter than the input |
| `Wbi.ExtractKeySound` | src/lib/danmakuImport.ts:311-315 | an extracted key is non-empty and alphanumeric, and the URL ends in `/key.png` or `/key.jpg` |
| `Wbi.ExtractKeyOf` | src/lib/danmakuImport.ts:311-315 | every URL ending in `/key.png` or `/key.jpg` yields that key |
| `Wbi.CacheRules` | src/lib/danmakuImport.ts:282-323 | a hit serves the cached keys and changes nothing; a miss that yields keys stores them stamped `now`; a failed fetch or extraction gives null and leaves the cache alone |
| `Wbi.CachedWithinTtl` | src/lib/danmakuImport.ts:284-286 | keys stored at `t` are served unchanged, without a request, at every time before `t` plus six hours |
| `Wbi.ExpiredRefetches` | src/lib/danmakuImport.ts:284 | six hours after the stamp the next lookup uses the nav reply again |
| `Wbi.WbiKeyCache.constructor` | src/lib/danmakuImport.ts:259 | the cache starts empty |
| `Wbi.WbiKeyCache.GetWbiKeys` | src/lib/danmakuImport.ts:282-323 | the keys served and the new cache are those of the cache functions |
| `ImportRoute.PostImport` | src/app/api/danmaku/import/route.ts:27-118 | an invalid body gives 400 and no write; otherwise the reply and writes are the import's |
| `ImportRoute.Import` | src/app/api/danmaku/import/route.ts:39-109 | the reply and the writes are those of the import's specification; nothing is read from the store |
| `ImportRoute.FetchItems` | src/app/api/danmaku/import/route.ts:48-53 | the provider picks the route's own fetcher |
| `ImportRoute.Mirror` | src/app/api/danmaku/import/route.ts:81-99 | the mirroring writes, whose failures are caught |
| `ImportRoute.Validation` | src/app/api/danmaku/import/route.ts:10-37 | accepted exactly when source, videoId and externalId are non-empty strings, episodeIndex is a whole number at least 0, the provider is one of the two, and title and year are absent or strings |
| `ImportRoute.EmptyWritesNothing` | src/app/api/danmaku/import/route.ts:55-60 | no items gives 404 naming the provider and writes nothing |
| `ImportRoute.AlwaysAppends` | src/app/api/danmaku/import/route.ts:62-79 | with items, the first write is always the bucket's `zadd` of one member per item, scored by time, stamped imported; on success the reply counts the items and names the provider |
| `ImportRoute.Mirroring` | src/app/api/danmaku/import/route.ts:82-95 | with a truthy slug the same members go to the slug's canonical bucket and then `{title, year, slug}` to the map key; without one, neither is written |
| `ImportRoute.MirrorFailuresIgnored` | src/app/api/danmaku/import/route.ts:96-109 | the reply depends on the store's refusals only through the episode's bucket |
| `ImportRoute.AcceptedWrites` | src/app/api/danmaku/import/route.ts:79-92 | with items, a truthy slug and no refusal, the writes are exactly the bucket's, the canonical bucket's and the map record |
| `ImportRoute.AcceptedImport` | src/app/api/danmaku/import/route.ts:79-92 | then, key by key, the two buckets grew by the members, the map key holds the record, and nothing else changed; the three keys are different strings when they are plain (`ImportRoute.ImportKeyTexts`) |
| `ImportRoute.ImportKeyTexts` | src/app/api/danmaku/import/route.ts:63-91 | the bucket, canonical and map key strings are pairwise different when the keys are plain; a `canonical` source whose video id is the slug writes the bucket and the canonical bucket under one string |
| `Keys.KeyTextInjective` | src/lib/danmakuImport.ts:29-30 | two plain keys have the same string exactly when they are the same key |
| `Keys.DecimalInjective` | src/lib/danmakuImport.ts:30 | different episode numbers give different `String(episode)` |
| `Keys.KeyCollisions` | src/app/api/danmaku/import/route.ts:63-91 | keys that differ share a string when the source is `canonical` (the id becomes a slug) or `map` (the episode becomes an id), or when a `:` inside the source or id moves the field boundary |
| `ReadRoute.Get` | src/app/api/danmaku/route.ts:32-92 | the handler answers the read function of the store's contents |
| `ReadRoute.Post` | src/app/api/danmaku/route.ts:97-137 | an invalid body gives 400 and no write; a valid one issues the single `zadd` and leaves strings alone; a refused write gives the fixed 500 `Internal Server Error` reply, which does not carry the store's message |
| `ReadRoute.QueryValidation` | src/app/api/danmaku/route.ts:23-46 | a query is accepted exactly when source and id are non-empty and the episode coerces to a whole number at least 0; otherwise 400 |
| `ReadRoute.MissingEpisodeIsZero` | src/app/api/danmaku/route.ts:26 | a missing `episode` parameter reads episode 0 |
| `ReadRoute.OwnBucketWins` | src/app/api/danmaku/route.ts:51-55 | a non-empty bucket is answered as it is, whatever the map record and the canonical buckets hold |
| `ReadRoute.CanonicalFallback` | src/app/api/danmaku/route.ts:55-71 | an empty bucket falls back to the same episode's canonical bucket of the record's slug, else of the slug of its title and year |
| `ReadRoute.FallbackNeverFails` | src/app/api/danmaku/route.ts:55-83 | a valid query always answers comments; with no record, an unparsable one or no slug, the (empty) bucket |
| `ReadRoute.CommentValidation` | src/app/api/danmaku/route.ts:14-19 | a comment has a 1 to 100 character text and a mode absent, 0 or 1, and keeps the values given; other modes are refused |
| `ReadRoute.OneMemberPerPost` | src/app/api/danmaku/route.ts:112-126 | a valid post issues one `zadd` of one member to the episode's bucket, scored by time and stamped with the server time; an invalid one issues nothing |
| `TriggerRoute.StepOf` | src/app/api/admin/danmaku/trigger/route.ts:24-32 | one loop pass gives one result naming its episode |
| `TriggerRoute.Steps` | src/app/api/admin/danmaku/trigger/route.ts:22-33 | the loop gives one result per requested episode |
| `TriggerRoute.PostTrigger` | src/app/api/admin/danmaku/trigger/route.ts:9-41 | the loop's reply and writes are those of the step function, each pass seeing the buckets the earlier ones left |
| `TriggerRoute.TriggerOne` | src/app/api/admin/danmaku/trigger/route.ts:24-32 | one ensure call: its result and its writes |
| `TriggerRoute.StepsOfPrefix` | src/app/api/admin/danmaku/trigger/route.ts:22-33 | earlier passes' results and writes are a prefix of later ones' |
| `TriggerRoute.OneResultPerEpisode` | src/app/api/admin/danmaku/trigger/route.ts:22-33 | one result per requested episode, in request order, each naming its episode |
| `TriggerRoute.SharedResolution` | src/app/api/admin/danmaku/trigger/route.ts:19-30 | every episode uses the same provider and title; the external id is the mapping's entry for each episode's decimal text |
| `TriggerRoute.DefaultsDiffer` | src/app/api/admin/danmaku/trigger/route.ts:20 | without a mapped or configured provider, this route asks DanDanPlay and the ensure route Bilibili |
| `TriggerRoute.DanDanPlayWritesNothing` | src/app/api/admin/danmaku/trigger/route.ts:20-31 | with DanDanPlay resolved, nothing is written and each episode ends already there or needing authentication |
| `TriggerRoute.ImportFills` | src/app/api/admin/danmaku/trigger/route.ts:24-31 | a pass that imports leaves its bucket filled |
| `TriggerRoute.PrefixWrites` | src/app/api/admin/danmaku/trigger/route.ts:22-33 | the writes of the first k1 passes begin those of the first k2 |
| `TriggerRoute.FilledByImport` | src/app/api/admin/danmaku/trigger/route.ts:23-33 | once entry i has imported, its bucket stays filled |
| `TriggerRoute.RepeatImportedOnce` | src/app/api/admin/danmaku/trigger/route.ts:23-33 | an episode listed twice is imported at most once: the later entry finds it already there |
| `EnsureRoute.PostEnsure` | src/app/api/danmaku/ensure/route.ts:11-49 | the reply is the ensure outcome for the resolved parameters and the writes are the import's followed by the map record's |
| `EnsureRoute.RecordSlug` | src/app/api/danmaku/ensure/route.ts:31-41 | the map write, issued only for a truthy slug, its failure caught |
| `EnsureRoute.MissingParamsRule` | src/app/api/danmaku/ensure/route.ts:13-16 | refused exactly when source, id or episode is missing or falsy, episode 0 included; a refusal writes nothing |
| `EnsureRoute.DefaultsToBilibili` | src/app/api/danmaku/ensure/route.ts:27 | without a mapped or configured provider, the route imports from Bilibili |
| `EnsureRoute.SlugRecordedRegardless` | src/app/api/danmaku/ensure/route.ts:32-37 | with a truthy slug, the map key ends up holding `{title, slug}` whatever the import's outcome; otherwise it keeps its value |
| `EnsureRoute.ReplyIgnoresMapRefusal` | src/app/api/danmaku/ensure/route.ts:38-43 | whether the map write is refused does not change the reply |
| `EnsureRoute.NoTitleNoMapWrite` | src/app/api/danmaku/ensure/route.ts:33-34 | a missing or blank chosen title means only the import's writes |
| `AdminRoute.AdminConfig.Get` | src/app/api/admin/danmaku/route.ts:10-17 | `GET` answers the redacted view of the live section |
| `AdminRoute.AdminConfig.Post` | src/app/api/admin/danmaku/route.ts:20-47 | the live section becomes the merged one even when the save fails; a successful save also reaches the database and the cache |
| `AdminRoute.Redaction` | src/app/api/admin/danmaku/route.ts:12-16 | `GET` never shows the encrypted cookie, flags it exactly when it is a non-empty string, and shows every other field unchanged |
| `AdminRoute.MergeRule` | src/app/api/admin/danmaku/route.ts:26-28 | a body field other than `cookie` and `clearCookie` overrides the stored one, other stored fields stay, and the two cookie keys are never stored |
| `AdminRoute.CookieRule` | src/app/api/admin/danmaku/route.ts:31-35 | a truthy `clearCookie` empties the cookie even when one is sent; else a non-blank cookie string is stored trimmed and encrypted; else the merged value stands |
| `AdminRoute.ViewAfterPost` | src/app/api/admin/danmaku/route.ts:31-35 | after a clear `GET` reports no cookie; after a set with a non-empty ciphertext it reports one |
| `AdminRoute.PassphraseFallback` | src/app/api/admin/danmaku/route.ts:30 | the passphrase is `PASSWORD`, else `USERNAME`, else `moontv`, skipping empty values, and is never empty |
| `SettingsRoute.SettingsStore.Get` | src/app/api/danmaku/settings/route.ts:19-40 | a refused user gets 401 with the admission message; an admitted one gets their own settings or null |
| `SettingsRoute.SettingsStore.Post` | src/app/api/danmaku/settings/route.ts:42-68 | the reply and the saved settings follow admission, then the schema, then the write |
| `SettingsRoute.AdmissionRule` | src/app/api/danmaku/settings/route.ts:22-32 | a signed-in user is admitted exactly when they are the owner or the first user-list entry with their name is not banned |
| `SettingsRoute.Refusals` | src/app/api/danmaku/settings/route.ts:22-30 | no name is refused as not signed in; the owner skips the user list; a non-owner missing from it is refused as unknown |
| `SettingsRoute.BannedRefused` | src/app/api/danmaku/settings/route.ts:31 | a non-owner whose first entry is banned is refused as banned |
| `SettingsRoute.SettingsBounds` | src/app/api/danmaku/settings/route.ts:11-17 | accepted exactly when opacity is in [0,1], fontSize in [10,80], speed in [1,10], areaBottom a string or number and synchronousPlayback a boolean; the values are kept |
| `SettingsRoute.WriteOnlyWhenAdmittedAndValid` | src/app/api/danmaku/settings/route.ts:49-60 | settings change only for an admitted user with valid settings, and only that user's entry; a refusal does not look at the body |
| `SettingsRoute.SaveThenRead` | src/app/api/danmaku/settings/route.ts:56-59 | after a successful save, the user's entry is what was saved |
| `AutoImport.PostAutoImport` | src/app/api/danmaku/auto-import/route.ts:46-256 | an invalid body gives 400 with no write and no search; otherwise the reply, the writes and the key cache are the chain's |
| `AutoImport.AutoImportChain` | src/app/api/danmaku/auto-import/route.ts:54-109 | steps 1 to 8 compute the chain function from the bucket, the map key and the key cache as they were |
| `AutoImport.ImportFallback` | src/app/api/danmaku/auto-import/route.ts:111-165 | DanDanPlay first, then the search when DanDanPlay gave nothing or its save was refused |
| `AutoImport.SaveDanDanPlay` | src/app/api/danmaku/auto-import/route.ts:121-132 | the DanDanPlay list's save, caught when refused |
| `AutoImport.SearchThenImport` | src/app/api/danmaku/auto-import/route.ts:151-165 | the Bilibili search, then the import of the cid it found |
| `AutoImport.ImportBilibili` | src/app/api/danmaku/auto-import/route.ts:167-238 | fetch, save and, on a first import, the mapping |
| `AutoImport.WriteMapping` | src/app/api/danmaku/auto-import/route.ts:194-230 | the mapping write of a first import, its failures caught |
| `AutoImport.DanDanPlayList` | src/app/api/danmaku/auto-import/route.ts:112-121 | the DanDanPlay step yields a list only when it is non-empty |
| `AutoImport.AutoSchema` | src/app/api/danmaku/auto-import/route.ts:14-20 | accepted exactly when source, id and title are strings, episode is a whole number at least 0, and year is absent or a string |
| `AutoImport.FailuresRefused` | src/app/api/danmaku/auto-import/route.ts:121-191 | a run that does not load wrote only refused writes to the episode's bucket; a refused bucket never loads |
| `AutoImport.NothingChangesUnlessLoaded` | src/app/api/danmaku/auto-import/route.ts:56-179 | every reply but a load leaves every bucket and string as it was |
| `AutoImport.LoadAppends` | src/app/api/danmaku/auto-import/route.ts:182-191 | a load appends to the episode's bucket the `count` members it reports, stamped with the import time, behind what was there |
| `AutoImport.OwnKeysOnly` | src/app/api/danmaku/auto-import/route.ts:132-223 | a run changes only the episode's bucket and the video's map key; distinct key strings for plain keys (`Keys.KeyTextInjective`) |
| `AutoImport.MappingOnlyOnFirstImport` | src/app/api/danmaku/auto-import/route.ts:195-230 | the map is written only on a Bilibili load of a video with no mapping, with a `bilibili` record naming the title and import time |
| `AutoImport.OnlyBucketRefusalMatters` | src/app/api/danmaku/auto-import/route.ts:194-238 | stores that agree on the episode's bucket give the same reply and writes: a refused map write is swallowed |
| `AutoImport.CachedSeasonFirst` | src/app/api/danmaku/auto-import/route.ts:84-112 | a cached season naming the episode's cid goes straight to Bilibili: DanDanPlay and the search are not consulted |
| `AutoImport.DanDanPlayBeforeSearch` | src/app/api/danmaku/auto-import/route.ts:112-142 | without a cached cid, a DanDanPlay list that saves is the answer: one write and no search |
| `AutoImport.SearchWhenOthersFail` | src/app/api/danmaku/auto-import/route.ts:151-164 | the search runs exactly when neither the cached season nor DanDanPlay loaded the episode; finding no cid answers 404 `not-found` |
| `AutoImport.AlreadyThere` | src/app/api/danmaku/auto-import/route.ts:55-65 | an episode with a member is answered `already-exists` with no fetch or write; an empty one is never answered so |

## Left out

- Outbound HTTP, `response.json()`, header construction (`getBiliHeaders`, cookie decryption included) and `encodeURIComponent` are parameters: every reply is an argument (a body, a non-2xx status or a transport error).
- MD5, `SimpleCrypto.encrypt`, `Date.now` and `process.env` are parameters; nothing is claimed about digests or ciphertexts.
- JavaScript numbers are modelled as exact integers and reals: rounding to the nearest double (above 2^53 for integers) and the exponent form `String(n)` takes from 1e21 are not modelled, so episode numbers, years and colours are taken to be small enough to be exact.
- ParseIntOfDecimal: holds of the code only for integers below 2^53; above that `String` writes the rounded double, and from 1e21 it writes `1e+21`, which `parseInt` reads as `1`.
- DecimalCoerces: holds of the code only for numerals below 2^53; `Number` rounds a longer numeral (`9007199254740993` reads episode `9007199254740992`), so the read key differs from the one written here.
- The clock is one reading per handler. The code calls `Date.now()` once for each member it stamps (src/lib/danmakuImport.ts:131, src/lib/danmaku.import.ts:96, src/app/api/danmaku/import/route.ts:74, src/app/api/danmaku/auto-import/route.ts:128 and 187), so members of one import, the episodes of one trigger request and a mapping written after network calls can carry different times; the model gives all of them the same `now`.
- AutoImport.LoadAppends: every appended member carries the run's single `now` as its `importTime`; in the code each member's `importTime` is its own `Date.now()` reading.
- AutoImport.MappingOnlyOnFirstImport: the record's `createdAt` is the same `now` as the members' `importTime`; the code reads the clock again at src/app/api/danmaku/auto-import/route.ts:220, so `createdAt` may be later.
- `parseFloat` is a parameter: times are already-parsed reals.
- `toLowerCase`/`toUpperCase` are modelled for ASCII letters only, and string lengths count code points rather than UTF-16 units.
- The comment regex is not modelled: the `<d p="…">…</d>` scan is a sequence of already-matched elements.
- Common.Key: the store is keyed by `Key` values, not by strings. `ImportRoute.AcceptedImport`, `AutoImport.OwnKeysOnly`, `AutoImport.LoadAppends`, `ReadRoute.Get` and the other lemmas saying which keys change hold of the code's string keys only for plain keys (`Keys.KeyTextInjective`). `Keys.KeyCollisions` exhibits the colliding inputs: source `canonical` with an id equal to the slug, source `map`, and a `:` inside a source or an id.
- Storage.Store: Redis sorted-set semantics are not modelled. A bucket is a sequence and `zadd` appends; members are not ordered by score, and identical members are not collapsed. Reads never throw; only writes can be refused.
- `db.ts`, `config.ts`, the auth cookie reader and `SimpleCrypto` are not part of this model; `getConfig`, `saveAdminConfig` and `setCachedConfig` appear only through what they store.
- Requests.CoerceIndex: `Number(s)` is modelled for blank strings and optionally signed decimal integers with surrounding white space; fractions, exponents, hex and `Infinity` are treated as not coercible.
- JSON bodies carry strings, integers, reals, booleans, null, arrays and objects; JSON text and `JSON.parse` are not modelled. A map value that does not parse is a distinct `Unparsable` value.
- Configuration values the ensure and trigger routes read must be strings; other types are treated as absent.
- TriggerRoute.PostTrigger: the episodes are integers; `Number(ep)` of a non-numeric entry (NaN) is not modelled. Every episode is stamped with the request's single `now`, whereas the code reads the clock afresh inside each episode's `ensureEpisodeImported`, after the previous episode's fetch.
- EnsureRoute.PostEnsure: the episode is an integer; `Number(episode)` of a string episode is not modelled.
- AdminRoute.AdminConfig.Post: a body that is not a JSON object contributes no fields.
- Ledger.ErrorText: `String(e)` of an `Error` with an empty message is modelled as `"Error"`; other thrown values are not modelled.
- The `dandanplay` branch of the library `ensureEpisodeImported` that fetches from DanDanPlay is commented out in the source; the model follows the live code, which always answers `auth-required`.
- Invalid JSON in a request body (500) and a throwing settings write outside the modelled `writeFails` flag are not modelled; a failing settings read is not modelled either.
- Concurrency: two requests racing between the existence check and the write.
- Logging (`console.*`) and Next.js response plumbing beyond status and payload.
- The import route's `GET` handler (a pass-through DanDanPlay search), the React components and the Bilibili proxy route are not part of this model.
