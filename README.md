# fxfurtrack link previews, modelled in Dafny

fxfurtrack answers link-preview requests for furtrack.com paths. It has two processes:

- The **master** (`master/master.js`) answers some requests directly:
  - an empty path gets 400;
  - `/` gets a redirect page to the project's repository;
  - any path that does not begin with `/p`, `/user` or `/index` gets 404.

  Every other path goes onto a job queue. When the job succeeds, the master renders the job's result as an HTML page of `<meta>` tags, or 500 if the result is an error.
- The **worker** (`worker/worker.js`) takes a job and works in this order:
  1. It rewrites the first `/uploads/` in the path to `/photography/`.
  2. It looks the rewritten path up in a cache and returns a hit as it is.
  3. On a miss, it classifies the path as a post, a user profile or an album.
  4. It fetches the matching upstream records and builds the Open Graph and Twitter tag lists.
  5. It caches a successful result for 86400 seconds.

The model has five modules:

- `Text` (`text.dfy`): the JavaScript string operations the code relies on, over `string`.
  - `replace` with a string pattern and a replacement without `$` (such as `/photography/`), which rewrites only the first occurrence. JavaScript's expansion of `$&`, `$$`, `` $` `` and `$'` in the replacement is not modelled.
  - `split` on one character, where `""` splits into `[""]`.
  - `pop()` of a split, `join`, `indexOf`, `includes` and `startsWith`.
  - Lemmas relating `split`, `join` and `replace`.
- `MetadataWorker` (`worker.dfy`): the worker. The pure parts are functions:
  - normalisation and classification;
  - the username, album id and section extraction;
  - the tag groups and their names;
  - titles, descriptions and the three card builders;
  - `Resolve`, the whole handler after a cache miss. It returns the outcome and the list of upstream endpoints fetched, in order.

  The stateful part is the class `Worker`:
  - `cache: map<string, Entry>` is the cache store.
  - `Process` is the queue handler.
  - It delegates to `FetchPost`, `FetchProfile` and `FetchAlbum`. These build the tag lists by pushes, in `BuildPostCards`, `BuildProfileCards` and `BuildAlbumCards`.
- `WorkerProperties` (`worker_properties.dfy`): lemmas about the worker.
- `Master` (`master.dfy`): the master.
  - the request gate, `Gate`;
  - the `<meta>` renderer, `Render` and `HtmlPage`;
  - the `succeeded` handler, `OnSucceeded`;
  - `Serve`, which runs one request through the gate, a `Worker` and the handler.
- `MasterProperties` (`master_properties.dfy`): lemmas about the master, and about requests from end to end.

Upstream replies are inputs. An `Upstream` value gives, for each endpoint, an ok reply with its record or a not-ok one. A `Failed` outcome is a job that throws. This happens for an album path without `/user/`, where `split('/user/')[1]` is undefined. The master registers no handler for failed jobs and sets no timeout, so such a request is never answered (`AlbumWithoutUserIsUnanswered`).

Some JavaScript behaviour is modelled as the code writes it:

- The camera emoji in the title is stored in the source as mis-decoded text. It is the four-character constant `CameraMark`.
- A missing first photographer renders as `undefined`.
- A null general-tag name joins as the empty string.
- An empty `tagName` is falsy, so its tag is general with a null name.

Behaviour of the code worth knowing:

- The post title has no `@` before the photographer's name (`TitleAddsNoAt`).
- The rules run in this order: a numeric last segment makes a post, then a profile is tried, then an album. A numeric last segment wins even under `/user/` or `album`.
- A trailing slash is kept, so `/p/123/` has an empty last segment and is not a post (`TrailingSlashIsNotPost`).
- The `/uploads/` rewrite is not idempotent: `/uploads/uploads/` changes again on a second pass (`NormalizeNotIdempotent`).
- The worker resolves only posts, profiles and albums. Any other accepted path, such as most `/index/...` paths, is the error result and is answered 500 (`UnknownPathIs500`).
- The worker has no browser fallback and the master sets no timeout. A thrown exception fails the job, and the request then stays unanswered.

## Model

| member | source | states |
|---|---|---|
| Text.ReplaceFirstAt | worker/worker.js:49 | `replace` with a string pattern rewrites only the leftmost occurrence; the text before it and all text after it, later occurrences included, are kept |
| Text.FirstFieldSpec | worker/worker.js:126 | `split(c)[0]` is the longest prefix without `c`, followed by `c` or by the end of the string |
| Text.LastFieldSpec | worker/worker.js:64 | `split(c).pop()` is the longest suffix without `c`, preceded by `c` or by the start of the string |
| Text.LastFieldAfter | worker/worker.js:64 | the last field after a separator is all that follows it, when no separator follows |
| Text.ReplaceFirst | worker/worker.js:49 | definition of `replace` with a string pattern; stated by `Text.ReplaceFirstAt` and `Text.ReplaceFirstAbsent` |
| Text.Split | worker/worker.js:64 | `split(c)` has at least one field and no field holds `c`; pinned down by `Text.JoinSplit` and `Text.SplitJoin` |
| Text.JoinSplit | worker/worker.js:64 | joining the fields of `split(c)` with `c` gives the string back |
| Text.SplitJoin | worker/worker.js:64 | splitting the join of fields without `c` gives the fields back |
| MetadataWorker.Capitalize | worker/worker.js:44-46 | `capitalizeFirstLetter` keeps the length and every character after the first, and upper-cases the first |
| MetadataWorker.Filter | worker/worker.js:79-87 | `filter` returns exactly the elements that pass the test, all taken from the input |
| MetadataWorker.Normalize | worker/worker.js:49 | definition; stated by `WorkerProperties.NormalizeChangesIff`, `NormalizeLeftmost` and `NormalizeNotIdempotent` |
| MetadataWorker.LastSegment | worker/worker.js:64-66 | definition; stated by `Text.LastFieldSpec` and `WorkerProperties.TrailingSlashIsNotPost` |
| MetadataWorker.IsPostId | worker/worker.js:64 | definition; stated by `WorkerProperties.NumericLastSegmentIsPost` and `TrailingSlashIsNotPost` |
| MetadataWorker.Classify | worker/worker.js:64-187 | definition; stated by `WorkerProperties.NumericLastSegmentIsPost` and `ClassifyWithoutPostId` |
| MetadataWorker.Username | worker/worker.js:126 | definition, also used at worker.js:153; stated by `WorkerProperties.UsernameSpec` and `UsernameOfUserPath` |
| MetadataWorker.AlbumId | worker/worker.js:154 | definition; stated by `WorkerProperties.AlbumIdSpec` |
| MetadataWorker.Section | worker/worker.js:135 | definition; stated by `WorkerProperties.SectionPrecedence` |
| MetadataWorker.PostEndpoint | worker/worker.js:68 | definition; stated by `WorkerProperties.PostDependsOnPostReply` |
| MetadataWorker.UserEndpoint | worker/worker.js:127 | definition, also used at worker.js:156; stated by `WorkerProperties.AlbumNeedsBothReplies` |
| MetadataWorker.AlbumEndpoint | worker/worker.js:163 | definition; stated by `WorkerProperties.AlbumNeedsBothReplies` |
| MetadataWorker.IsCharacterTag | worker/worker.js:79 | definition; stated by `WorkerProperties.TagInExactlyOneGroup` |
| MetadataWorker.IsPhotographerTag | worker/worker.js:83 | definition; stated by `WorkerProperties.TagInExactlyOneGroup` |
| MetadataWorker.IsGeneralTag | worker/worker.js:87 | definition; stated by `WorkerProperties.TagInExactlyOneGroup` |
| MetadataWorker.SecondField | worker/worker.js:80-84 | definition; stated by `WorkerProperties.SecondFieldAfterPrefix` |
| MetadataWorker.GeneralName | worker/worker.js:90-92 | definition; stated by `WorkerProperties.GeneralNameSpec` |
| MetadataWorker.CharacterNames | worker/worker.js:79-80 | definition; stated by `WorkerProperties.TagPartition` and `TypicalCharacterNames` |
| MetadataWorker.PhotographerNames | worker/worker.js:83-84 | definition; stated by `WorkerProperties.TagPartition` and `TypicalPhotographerNames` |
| MetadataWorker.GeneralNames | worker/worker.js:87-92 | definition; stated by `WorkerProperties.TagPartition` and `TypicalGeneralNames` |
| MetadataWorker.Credit | worker/worker.js:95-99 | definition of `${photographers[0]}`; stated by `WorkerProperties.PostTitleCases` |
| MetadataWorker.PostTitle | worker/worker.js:94-100 | definition; stated by `WorkerProperties.PostTitleCases` and `TitleAddsNoAt` |
| MetadataWorker.ImageUrl | worker/worker.js:101 | definition; stated by `WorkerProperties.ImageUrlExample` |
| MetadataWorker.Description | worker/worker.js:105 | definition; stated by `WorkerProperties.DescriptionExamples` and `DescriptionAppend` |
| MetadataWorker.PostCards | worker/worker.js:75-118 | definition; stated by `WorkerProperties.PostCardsKeys` and `PostCardsContents` |
| MetadataWorker.PostCardsFrom | worker/worker.js:94-118 | definition; stated by `MetadataWorker.BuildPostCards` and `WorkerProperties.PostCardsFromNames` |
| MetadataWorker.ProfileCards | worker/worker.js:138-150 | definition; stated by `WorkerProperties.ProfileAndAlbumCardsShape` |
| MetadataWorker.AlbumCards | worker/worker.js:170-182 | definition; stated by `WorkerProperties.ProfileAndAlbumCardsShape` |
| MetadataWorker.Resolve | worker/worker.js:59-188 | definition; stated by `WorkerProperties.ResolveErrorMessage`, `ResolvedIsCacheable`, `NoKindFetchesNothing`, `ResolvePost`, `ResolveProfile`, `AlbumNeedsBothReplies` and `AlbumWithoutUserFails` |
| MetadataWorker.Cacheable | worker/worker.js:187-191 | definition; stated by `WorkerProperties.ResolvedIsCacheable` |
| MetadataWorker.Worker.Valid | worker/worker.js:187-191 | definition; kept by `MetadataWorker.Worker.Process` |
| MetadataWorker.Worker.Process | worker/worker.js:48-195 | key is the normalised path; a hit returns the stored result, which is always a resolved page and never an error, fetches nothing, changes no entry; a miss returns exactly what `Resolve` gives for the key; only a resolved page is written, under the key, TTL 86400, other entries unchanged; the cache only ever holds resolved pages titled `og:title` whose url is the site plus their key |
| MetadataWorker.FetchPost | worker/worker.js:63-123 | the post branch fetches the post endpoint of the last segment, answers a not-ok reply with the error, and otherwise builds the post's cards; its outcome and fetches are those of `Resolve`, and its page is cacheable |
| MetadataWorker.FetchProfile | worker/worker.js:124-151 | the profile branch fetches the user named after `/user/` and builds the profile cards for the section; it agrees with `Resolve` and its page is cacheable |
| MetadataWorker.FetchAlbum | worker/worker.js:152-183 | the album branch throws without `/user/`, fetches the user and then the album, and stops at the first not-ok reply; it agrees with `Resolve` and its page is cacheable |
| MetadataWorker.BuildPostCards | worker/worker.js:94-118 | the pushes onto `metadata` and `twitter`, with the branch on the character count, build the post's card lists |
| MetadataWorker.BuildProfileCards | worker/worker.js:138-150 | the pushes build the profile's card lists |
| MetadataWorker.BuildAlbumCards | worker/worker.js:170-182 | the pushes build the album's card lists |
| MetadataWorker.ProcessTwice | worker/worker.js:53-57 | a second request for a path whose first request resolved is served from the cache: same outcome, nothing fetched, whatever upstream now replies; after an error the second request resolves afresh |
| WorkerProperties.NormalizeWithoutUploads | worker/worker.js:49 | a path without `/uploads/` is its own cache key |
| WorkerProperties.NormalizeLeftmost | worker/worker.js:49 | only the leftmost `/uploads/` becomes `/photography/`; everything after it is kept |
| WorkerProperties.NormalizeChangesIff | worker/worker.js:49 | the rewrite changes a path if and only if it holds `/uploads/`, and then lengthens it by four |
| WorkerProperties.NormalizeFirstPass | worker/worker.js:49 | `/uploads/uploads/` becomes `/photography/uploads/` |
| WorkerProperties.NormalizeNotIdempotent | worker/worker.js:49 | rewriting `/uploads/uploads/` twice differs from rewriting it once |
| WorkerProperties.NormalizeProfileUploads | worker/worker.js:49 | `/user/<n>/uploads/` becomes `/user/<n>/photography/` for every name without `/` other than `uploads` |
| WorkerProperties.TrailingSlashIsNotPost | worker/worker.js:64 | a trailing slash leaves an empty last segment, so the path is never a post |
| WorkerProperties.NumericLastSegmentIsPost | worker/worker.js:64-66 | a numeric last segment makes a post whose id is that segment, whatever precedes it |
| WorkerProperties.ClassifyWithoutPostId | worker/worker.js:124-152 | without a post id: `album` anywhere makes an album; otherwise a profile exactly when `/user/` occurs; no kind exactly when neither occurs |
| WorkerProperties.UsernameSpec | worker/worker.js:126 | the username is the text between the first `/user/` and the next `/` or the end, and holds no `/` |
| WorkerProperties.UsernameOfUserPath | worker/worker.js:126 | the username of `/user/<n>/...` is `n` for a name without `/` |
| WorkerProperties.AlbumIdSpec | worker/worker.js:154 | the album id is the text after the last `-` of the whole path, or the whole path without a `-` |
| WorkerProperties.SectionPrecedence | worker/worker.js:135 | the section is photography exactly when the path holds `photography`; fursuiting exactly when it holds `fursuiting` but not `photography`; favorites exactly when it holds `likes` but neither word before; empty exactly when it holds none of the three |
| WorkerProperties.TagInExactlyOneGroup | worker/worker.js:79-87 | every tag is a character, photographer or general tag, and only one of them |
| WorkerProperties.FilterAppend | worker/worker.js:79-87 | filtering distributes over concatenation, so each group keeps the input order |
| WorkerProperties.FilterPartition | worker/worker.js:79-87 | three mutually exclusive, exhaustive filters split a list: every element in exactly one result, as a multiset |
| WorkerProperties.TagPartition | worker/worker.js:79-87 | the three tag groups together hold every tag exactly once (multiset and count) |
| WorkerProperties.SecondFieldAfterPrefix | worker/worker.js:80-84 | a character or photographer name is the text after the two-character prefix up to the next `:` |
| WorkerProperties.GeneralNameSpec | worker/worker.js:90-92 | a general name is null exactly for a missing or empty `tagName`, holds no `:`, and is the name itself when it has no `:` |
| WorkerProperties.TypicalCharacterNames | worker/worker.js:79-80 | of `1:c`, `3:p` and `g`, only the first is a character tag, named `c` |
| WorkerProperties.TypicalPhotographerNames | worker/worker.js:83-84 | of `1:c`, `3:p` and `g`, only the second is a photographer tag, named `p` |
| WorkerProperties.TypicalGeneralNames | worker/worker.js:87-92 | of `1:c`, `3:p` and `g`, only the third is general, named by its last `:`-field |
| WorkerProperties.TypicalTagNames | worker/worker.js:79-92 | the three name lists of such a post are `[c]`, `[p]` and `[g']` |
| WorkerProperties.CapitalizeIdempotent | worker/worker.js:44-46 | capitalising twice is capitalising once; only `""` capitalises to `""` |
| WorkerProperties.PostTitleCases | worker/worker.js:94-100 | a sole character gives `Name (camera p)` with the first photographer; any other count gives `Photo by p`; no photographer gives `undefined` |
| WorkerProperties.TitleAddsNoAt | worker/worker.js:98 | the title adds no `@` before the photographer's name |
| WorkerProperties.DescriptionExamples | worker/worker.js:105 | no general tag gives `#`; `nature` gives `#nature`; a null name leaves an empty entry, as in `#a # #b` |
| WorkerProperties.DescriptionAppend | worker/worker.js:105 | the description of two non-empty name lists concatenated is their two descriptions separated by a space |
| WorkerProperties.PostCardsKeys | worker/worker.js:94-118 | a post has the eight og keys and the five twitter keys, in the source's order |
| WorkerProperties.PostCardsContents | worker/worker.js:94-118 | twitter title equals og title; description and image appear in both lists; og:url is `https://furtrack.com/p/` plus the id; width and height come from the record |
| WorkerProperties.PostCardsFromNames | worker/worker.js:94-106 | with names `[c]`, `[p]`, `[g]`, the titles are `Capitalize(c) (camera p)`, the description is `#g` and the image is the record's gallery URL |
| WorkerProperties.ImageUrlExample | worker/worker.js:101 | the image of record `1`/`12345`/`abc`/`jpg` is `https://orca2.furtrack.com/gallery/1/12345-abc.jpg` |
| WorkerProperties.ProfileAndAlbumCardsShape | worker/worker.js:138-182 | profiles and albums have five og and four twitter entries in the source's order, no `twitter:title`, the card holding the title and the icon as image |
| WorkerProperties.ResolveErrorMessage | worker/worker.js:63-188 | every error a resolution returns carries `No metadata found` |
| WorkerProperties.ResolvedIsCacheable | worker/worker.js:183-191 | a resolved page has the site URL of its key and starts with `og:title`, so it may be cached |
| WorkerProperties.NoKindFetchesNothing | worker/worker.js:187-188 | a path of no kind is the error, with no upstream call |
| WorkerProperties.PostDependsOnPostReply | worker/worker.js:64-71 | a post fetches only its post endpoint and depends on nothing but that reply |
| WorkerProperties.ResolvePost | worker/worker.js:63-123 | a post path with an ok reply is the post's cards under the site URL of the path, after one fetch |
| WorkerProperties.AlbumNeedsBothReplies | worker/worker.js:152-166 | an album fetches the user, then the album; either not-ok reply is the error; it resolves exactly when both replies are ok |
| WorkerProperties.AlbumWithoutUserFails | worker/worker.js:153 | an album path without `/user/` fails before any fetch |
| WorkerProperties.PhotographyProfile | worker/worker.js:124-135 | `/user/<n>/photography/` is the profile of `n` in the photography section |
| WorkerProperties.ResolveProfile | worker/worker.js:124-151 | a profile path with an ok reply is the profile's cards for its section, after one fetch |
| WorkerProperties.UploadsProfileIsPhotography | worker/worker.js:49-151 | a profile's upload path resolves, under its photography key, to the photography gallery's cards |
| WorkerProperties.ExamplePath | worker/worker.js:64-66 | `/p/12345` is its own key and a post with id `12345` |
| WorkerProperties.EndToEndPost | worker/worker.js:63-123 | a post tagged `1:c`, `3:p`, `g` resolves with one fetch to the site URL of its path, title `Capitalize(c) (camera p)`, description `#g` and the gallery image |
| Master.Allowed | master/master.js:30 | definition; stated by `MasterProperties.GateIsPrefixTest` |
| Master.MetaTag | master/master.js:48-49 | definition; stated by `MasterProperties.RenderShowsTag` |
| Master.Render | master/master.js:48-49 | definition; stated by `MasterProperties.RenderAppend`, `RenderAt` and `RenderShowsTag` |
| Master.HtmlPage | master/master.js:43-69 | definition; stated by `MasterProperties.PageShowsEveryTag` |
| Master.HandleFresh | master/master.js:21-70 | definition; stated by `Master.Serve`, `MasterProperties.PostPathIsPostPage` and `UnknownPathIs500` |
| Master.Gate | master/master.js:21-34 | a job is created exactly for a path with an accepted prefix, and its payload is the path unchanged; other paths get 200, 400 or 404 |
| Master.OnSucceeded | master/master.js:36-69 | an error result is 500 `Internal Server Error`, and anything else is not |
| Master.Respond | master/master.js:36-70 | a request gets an answer unless its job failed, for which no handler exists |
| Master.Serve | master/master.js:18-72 | a direct answer touches no cache; a queued path is answered from the worker's cache with status 200, leaving it unchanged, or, on a miss, as the fresh resolution of its normalised path, after which the cache holds that result under the normalised path if it resolved and is unchanged otherwise |
| MasterProperties.GateAnswers | master/master.js:21-32 | `""` is 400 `URL is required`, `/` is 200 with the redirect page, any other path without an accepted prefix is 404 `Invalid URL`; exactly these are answered directly |
| MasterProperties.GateIsPrefixTest | master/master.js:30-32 | `/photos`, `/users` and `/indexes` pass the gate; `/P/1` and `/u/alice` get 404 |
| MasterProperties.EnqueuedPathIsProper | master/master.js:21-34 | a queued path is never empty and never the root |
| MasterProperties.RenderAppend | master/master.js:48-49 | rendering a list is rendering its parts side by side, in order |
| MasterProperties.RenderAt | master/master.js:48-49 | each tag renders between the tags before it and those after it |
| MasterProperties.RenderShowsTag | master/master.js:48-49 | every entry's `<meta>` text, with its content unescaped, appears in the rendering |
| MasterProperties.PageShowsEveryTag | master/master.js:43-69 | the page holds a `property` tag for every og entry and a `name` tag for every twitter entry |
| MasterProperties.ErrorShowsNoTag | master/master.js:37-40 | an error answer is 500 and holds no `<meta` at all, whatever the message |
| MasterProperties.UnknownPathIs500 | master/master.js:34-40 | an accepted path of no kind, such as most `/index/...` paths, is answered 500 |
| MasterProperties.AlbumWithoutUserIsUnanswered | master/master.js:34-70 | an accepted album path without `/user/` is never answered |
| MasterProperties.PostPathIsPostPage | master/master.js:34-69 | an accepted post path with an ok reply is answered 200 with the page of the post's cards |
| MasterProperties.UploadsRequestIsPhotographyPage | master/master.js:30-69 | a request for a profile's upload path is answered 200 with the page of its photography gallery |

## Left out

- Redis, the Bee queue, `fetch` and the TLS agent are external I/O. Upstream replies are the `Upstream` parameter, the cache is a map field, and a job is a call.
- The `TOKEN` startup check, the request headers, `console.log`, Express routing and `app.listen` are configuration and logging.
- The page's client-side `<script>` and CSS are kept only as the literal text they add to the page.
- Cache expiry needs a clock. Each entry records its TTL of 86400 instead, and nothing expires.
- Concurrency is not modelled: simultaneous jobs, event delivery order, and a second worker writing the same key.
- A `fetch` that rejects (a network or TLS error at worker.js:68, :127, :156 or :163) is not modelled: a reply is only ok or not ok. In the code such a rejection throws, the job fails and the request stays unanswered; in the model `Failed` arises only for an album path without `/user/`.
- Malformed upstream JSON is not modelled. Missing `post`, `tags` or `user` fields would make the handler throw. Records are modelled as well-formed datatypes.
- Numeric upstream fields (`metaWidth`, `metaHeight`, ids) are modelled as the strings the templates render.
- Text.ReplaceFirst: a `$` pattern in the replacement is not expanded as JavaScript would; the code's only replacement, `/photography/`, has none.
- MetadataWorker.IsPostId: `!isNaN(seg) && seg != ""` is modelled as non-empty ASCII digits. The JavaScript number grammar also accepts whitespace, signs, decimals, hex, exponents and `Infinity`.
- MetadataWorker.Capitalize: upper-cases ASCII `a`-`z` only, not full Unicode `toUpperCase`.
- MetadataWorker.Worker.Process: the handler's `await` points are collapsed. A cache lookup, the fetches and the write happen as one step.
- Master.Serve: the `res` object is modelled as the returned reply. `None` stands for a request that is never answered.
