# WeChat article copy helper — a verified model

This project is a Dafny model of WeChat Copy Helper, a browser extension.
On WeChat article pages (`mp.weixin.qq.com/s/...`) it copies the article in two formats.
- A rich copy: HTML with the header block and the images inlined as data URLs.
- A plain-text copy: the header lines, then the article text.

The core modelled here has these parts:

- **The string-operation engine** (`wasmLoader.js`).
  - The reference functions:
    - `normalizeImageUrl`, `decideReferrerPolicy`, `sanitizeFilename`;
    - the two escape loops;
    - `ensureWechatCdnParams`.
  - The `Compute` facade, which tries a direct WASM export, then a linear-memory export, then the reference function.
  - The batch helpers.
- **The copy pipeline** (`content.js`).
  - The article header: `getArticleMeta`, `buildMetaText`, `buildMetaHtml` and the local escapers.
  - Inlining images in a detached copy of the article: `processImagesForCopy`.
  - The two-tier image fetch, direct and then through the background relay.
  - The tiered clipboard write of the copy-all button.
  - The flags that make `bypassAntiHotlink` run at most once per image.
- **Update notes** (`version-manager.js`).
  - Version comparison.
  - The changelog table.
  - The decision to show the update modal, and its per-version "shown" flags.
- **The release script** (`scripts/version-manager.js`).
  - Version parsing and bumping.
  - The changelog splice.
  - The `run` command dispatcher.
- **The popup's licence controls** (`popup.js`).
  - The localStorage branch of its storage shim.
  - The `friendlyError` message table.
  - The status prefix.
  - The activate, validate and deactivate handlers with their failure counter.
- **The licence proxy** (`serverless/lemon_license_proxy.js`): CORS origin choice, rate token, action routing, form building and error mapping.
- **The two diagnostic scripts** (`debug-image-copy-enhanced.js`, `debug-image-copy.js`): suggestion and report tables, the pixel test, the canvas size fallback, the load test and test-image selection.

## How the model is built

Each source file has its own Dafny module.
- `JsStrings` (js_strings.dfy) holds the JavaScript string built-ins the code uses.
  - Strings are sequences of UTF-16 code units (`CodeUnit`, 0..0xFFFF), so surrogate handling can be stated exactly.
  - It covers `includes`, `indexOf`, `split`, `join` and `trim`, and integer printing and reading.
- `StringOps` (string_ops.dfy) holds the `js` reference functions of `wasmLoader.js`, shared by every module that uses them.
- `Wrappers` holds `Option` and `Result`.

Anything the code receives from the browser or the network is a parameter:
- the URL parser and serializer (`UrlCodec`);
- the WASM exports (`Engine`);
- fetch responses and relay replies;
- clipboard results;
- the licence API's reply;
- canvas pixels and load events.

Where the source works step by step, the model does too:
- The escape loops, `compareVersions`, storage `get`/`set`, `checkImages`, `generateReport`, `generateSuggestions`, `testImageCopy` and the meta builders are methods with loops or successive pushes. Each is proved equal to a specification function.
- Objects whose fields the source updates are classes:
  - image elements with their `dataset` flags;
  - the page;
  - `VersionManager`;
  - the release tool;
  - the popup's licence panel;
  - localStorage;
  - `URLSearchParams`.

## Model

| member | source | states |
|---|---|---|
| StringOps.WithCdnParams | wasmLoader.js:10-13 | scheme, host, path and fragment are kept; a non-CDN URL is unchanged; on a CDN host `wx_fmt` and `tp` end up present, and a value already there is kept |
| StringOps.WithCdnParamsKeepsQuery | wasmLoader.js:10-13 | on a CDN host the query is the old one, every pair in place and in order, followed by `wx_fmt=png` when `wx_fmt` was missing and then `tp=webp` when `tp` was missing |
| StringOps.GetParam | wasmLoader.js:11-12 | `searchParams.get` is defined exactly when `has` holds |
| StringOps.SetParam | serverless/lemon_license_proxy.js:43-47 | after `set(name, v)` the first value of `name` is `v`; a name not yet present is appended at the end (section 6.2 of the WHATWG URL Standard) |
| StringOps.FirstIndex | serverless/lemon_license_proxy.js:43-47 | the position of the first pair with the name: it has the name and no earlier pair does |
| StringOps.RemoveParam | serverless/lemon_license_proxy.js:43-47 | dropping every pair of a name leaves none of it |
| StringOps.SetParamReplacesFirst | serverless/lemon_license_proxy.js:43-47 | `set` on a name already present keeps the pairs before its first position, puts the new pair there, and drops the name from the rest |
| StringOps.SetParamKeepsOthers | serverless/lemon_license_proxy.js:43-47 | `set` leaves the pairs of every other name as they were, in order |
| StringOps.SetParamOnlyOnce | serverless/lemon_license_proxy.js:43-47 | after `set` the name occurs exactly once: at its old first position, or appended at the end when it was absent |
| StringOps.CdnQueryFacts | wasmLoader.js:11-12 | each conditional `set` leaves an existing `wx_fmt`/`tp` value alone and adds `png`/`webp` only when absent |
| StringOps.WithCdnParamsIdempotent | wasmLoader.js:10-13 | the query rewrite applied twice equals once |
| StringOps.NormalizeImageUrl | wasmLoader.js:6-18 | falsy input is returned as is; a parse failure returns the input; otherwise the result is the serialization of the rewritten URL |
| StringOps.NormalizeImageUrlIdempotent | wasmLoader.js:6-18 | normalizing twice equals normalizing once (no duplicate parameters), for any parser and serializer that round-trip the URLs the normalization itself produces: a parsed URL with the CDN parameters added |
| StringOps.NormalizeImageUrlAddsCdnParams | wasmLoader.js:10-13 | a normalized CDN URL parses again, carries both parameters and keeps any earlier values, under the same round trip, asked only of parsed URLs with the CDN parameters added |
| StringOps.DecideReferrerPolicy | wasmLoader.js:19-26 | `no-referrer-when-downgrade` exactly when the URL parses and its host contains `mmbiz.qpic.cn`; `no-referrer` otherwise, including on a parse failure |
| StringOps.DropReservedRunShape | wasmLoader.js:28 | what remains after a leading run of reserved characters is a suffix starting with a non-reserved one |
| StringOps.CollapseReservedShape | wasmLoader.js:28 | the `/[\\/:*?"<>|]+/g` replacement leaves no reserved character, never lengthens the text, and keeps non-empty text non-empty |
| StringOps.SanitizeFilename | wasmLoader.js:27-30 | the result has 1 to 120 code units and no reserved character |
| StringOps.SanitizeFilenameValue | wasmLoader.js:27-30 | the result is the first min(120, length) code units of the replaced text, with '' read as `file`; so '' gives `file`, and a clean name of 1 to 120 units is kept as is |
| StringOps.CollapseReservedClean | wasmLoader.js:28 | a name without reserved characters is unchanged by the replacement |
| StringOps.CollapseReservedRun | wasmLoader.js:28 | each maximal run of reserved characters becomes exactly one `_` |
| StringOps.SanitizeFilenameIdempotent | wasmLoader.js:27-30 | sanitizing a sanitized name changes nothing |
| StringOps.SanitizeFilenameExample | tests/e2e-test.js:227-236 | the shape of `test/file:name*.jpg` → `test_file_name_.jpg`: each separator becomes `_` and the clean pieces are kept |
| StringOps.SanitizeFilenameAllSlashes | tests/batch_equivalence.js:48-58 | any positive number of slashes (200 in the test) gives `_` |
| StringOps.EscapeHtml | wasmLoader.js:32-44 | the loop's output is the unit-by-unit escape of the input; `null`/`undefined` gives '' |
| StringOps.EscapeAttr | wasmLoader.js:46-60 | as `EscapeHtml`, with `"` and `'` escaped too |
| StringOps.EscapeAllSafe | wasmLoader.js:32-60 | the output has no `<` or `>`, and no quote in attribute mode; every `&` starts `&amp;`, `&lt;` or `&gt;`, or in attribute mode also `&quot;` or `&#39;` |
| StringOps.EscapeAllNoSurrogates | wasmLoader.js:37 | no surrogate unit survives, whether it was paired or lone |
| StringOps.ScrubSurrogates | wasmLoader.js:37 | each surrogate unit at its position is replaced by `_`; every other unit is kept |
| StringOps.DecodeEscapeAll | wasmLoader.js:32-60 | decoding the entities of the output gives the input with only its surrogates replaced: the escape loses nothing else |
| StringOps.EnsureWechatCdnParams | wasmLoader.js:61-63 | `ensureWechatCdnParams` is `normalizeImageUrl` |
| Compute.DirectTier | wasmLoader.js:100-113 | a name in `directFns` yields a string only when the module is ready, the export exists and the call returns a string; otherwise `null` |
| Compute.MemoryTier | wasmLoader.js:117-151 | a memory-ABI call yields a result only when ready, with the ABI and the export present and no throw; output pointer 0 gives '' |
| Compute.NotLoadedIsReference | wasmLoader.js:171-208 | before WASM is ready every facade operation equals its `js` counterpart |
| Compute.MissingExportIsReference | wasmLoader.js:171-208 | an operation the module does not export falls back to the reference |
| Compute.EmptyResultOnlyFromReference | wasmLoader.js:173-190 | for the URL, policy and filename operations an empty WASM result is never used: '' can only come from the reference |
| Compute.DirectResultWins | wasmLoader.js:172-175 | a usable string from the direct export is returned without trying the other tiers; for the escapers this includes '' (lines 191-202) |
| Compute.MemoryResultSecond | wasmLoader.js:174-175 | a result that differs from the reference while the direct tier gave nothing usable comes from the memory tier |
| Compute.AgreeingModuleIsReference | wasmLoader.js:171-208 | a module whose direct export agrees with the reference makes the facade the reference |
| Compute.JoinedTier | wasmLoader.js:214-222 | the joined export is used only when it exists and returns a string |
| Compute.MapScalar | wasmLoader.js:225 | `list.map(x => this.op(x))`: same length, the scalar facade at each index |
| Compute.Batch | wasmLoader.js:210-274 | a non-array argument gives `[]` |
| Compute.BatchWithoutJoinedIsMap | wasmLoader.js:210-274 | without a usable joined export, a batch has the list's length and equals the scalar facade at every index |
| Compute.BatchJoinedIsMap | wasmLoader.js:216-222 | a joined export that is pointwise, on a non-empty list whose answers do not contain U+0001, gives the scalar map |
| Compute.BatchSeparatorInInput | wasmLoader.js:216-221 | one input containing U+0001 comes back as two elements: the joined path is not a map then |
| Compute.BatchEmptyListAsWritten | wasmLoader.js:216-221 | as written, the empty list sent through a joined export comes back as a one-element list |
| Compute.BatchCorrected | wasmLoader.js:210-226 | the corrected helper gives `[]` for a non-array and for an empty list |
| Compute.BatchCorrectedIsMap | wasmLoader.js:216-225 | with the empty list answered by the map, a pointwise joined export equals the scalar map on every list |
| ArticleMeta.SelectorText | content.js:545-548 | the text of a selector is trimmed, and '' when nothing matches |
| ArticleMeta.FirstText | content.js:549-552 | the `||` chain gives the first selector with non-empty text, and '' exactly when all are empty |
| ArticleMeta.GetArticleMeta | content.js:544-554 | title, author, account and time are their selector chains, url is `location.href` |
| ArticleMeta.ArticleMetaTrimmed | content.js:545-553 | every text field of the header is already trimmed |
| ArticleMeta.ContentEscapeUnitSafe | content.js:556-558 | each of `& < > " '` becomes its entity and every other unit is copied; the result decodes back to the unit |
| ArticleMeta.ContentEscapeHtmlSafe | content.js:556-558 | the local `escapeHtml` output is safe for attributes too, and decoding it gives the input back exactly |
| ArticleMeta.ContentEscapeAttrIsHtml | content.js:559-561 | no `"` survives `escapeHtml`, so the local `escapeAttr` equals `escapeHtml` |
| ArticleMeta.EscapersDiffer | content.js:556-558 | the local `escapeHtml` and the engine's `escapeHtml` differ on `"x"`: only the local one escapes quotes |
| ArticleMeta.ExtrasShape | content.js:565-583 | the labelled fields after the title: only non-empty ones, at most four, in the order author, account, time, url; empty exactly when all four are empty; the url is last and marked as a link |
| ArticleMeta.PlainParts | content.js:580-583 | `label + value` for each field, one per field |
| ArticleMeta.CollectPlainParts | content.js:579-583 | the pushes into `extra` are the `label + value` parts of the non-empty fields, in order |
| ArticleMeta.BuildMetaText | content.js:576-588 | the builder's output is the text header `MetaText` |
| ArticleMeta.MetaTextShape | content.js:576-588 | the text header is '' exactly when every field is empty, otherwise ends in a newline, and starts with the title line when there is a title |
| ArticleMeta.HtmlParts | content.js:565-568 | one escaped part per field |
| ArticleMeta.Heading | content.js:572 | the `<h1>` is present exactly when the title is non-empty |
| ArticleMeta.CollectHtmlParts | content.js:564-568 | the pushes into `parts` are the HTML parts of the non-empty fields, in order |
| ArticleMeta.BuildMetaHtml | content.js:562-575 | the builder's output is the HTML header `MetaHtml` |
| ArticleMeta.MetaHtml | content.js:569-574 | the header opens with the block `<div>` and is never only that |
| ArticleMeta.MetaHtmlShape | content.js:569-574 | the block `<div>`, the optional heading and the line `<div>` come first and the closing tags last; the meta line between them is empty when no field is set, and otherwise, when no field value holds U+3000, splits at U+3000 into exactly the HTML parts of the set fields, in order |
| ArticleMeta.MetaHtmlFieldsEscaped | content.js:565-568 | every field is interpolated through the local `escapeHtml`, and the href through `escapeAttr` |
| ImageInliner.AskRelay | content.js:474-486 | a relay reply is accepted only with `success` and a non-empty `dataUrl`; otherwise the error is `reply.error` or `proxy_failed`; a throwing `sendMessage` gives `no_chrome_runtime` |
| ImageInliner.FetchImageAsDataUrlWithProxy | content.js:458-488 | an ok direct response with a body is returned without contacting the relay; anything else asks the relay about the same URL |
| ImageInliner.FetchFailureHasReason | content.js:458-488 | a failed fetch always carries a non-empty reason |
| ImageInliner.FetchedDataUrlOrigin | content.js:458-488 | a data URL only ever comes from the direct body or from an accepted relay reply |
| ImageInliner.SourceOf | content.js:501 | the source is `src`, else `data-src` |
| ImageInliner.DefaultAlt | content.js:515-526 | `alt` is set only when empty |
| ImageInliner.InlineImage | content.js:498-529 | no source: a `[图片缺失]` span and `no_src`; success exactly when the source exists and the fetch succeeded, with the rewritten image; otherwise the placeholder image and the fetch's reason |
| ImageInliner.InlinedAttrsSpec | content.js:511-517 | on success `src` is the data URL, `srcset`, `data-src` and `crossorigin` are gone, `referrerpolicy` is `no-referrer`, `alt` defaults to `[图片]`, and no other attribute changes |
| ImageInliner.PlaceholderAttrsSpec | content.js:521-527 | on failure `src` is the transparent PNG, `data-inline-failed` is `true`, `alt` defaults to `[图片不可用]`, and no other attribute changes |
| ImageInliner.ImageCount | content.js:496 | the images are a subset of the nodes |
| ImageInliner.CountSuccesses | content.js:532-533 | the successes are at most the results |
| ImageInliner.InlinedFragment | content.js:491-541 | the rewritten copy has as many nodes as the original |
| ImageInliner.ProcessImagesForCopy | content.js:491-541 | every image gets exactly one outcome, numbered in order; other nodes are kept; `successCount` counts the successes and is at most the number of images; the copy is a fresh value, so the live root is untouched |
| ImageInliner.CountSuccessful | content.js:532-533 | the loop counts exactly the successful outcomes |
| ClipboardCopy.TiersStopAtFirstSuccess | content.js:757-809 | the handler makes one to three clipboard calls and stops at the first that takes effect: every earlier call failed, and a message other than the failure message is shown exactly when the last call took effect |
| ClipboardCopy.RichWriteFirst | content.js:758-771 | with images and `ClipboardItem` available, the first call is one write carrying both HTML and text; full success is reported exactly when it took effect; the degraded message exactly when it failed and `writeText(text)` succeeded, and then those are the only two calls |
| ClipboardCopy.ExecCommandPath | content.js:775-786 | without `navigator.clipboard` or `ClipboardItem`, the off-screen textarea is used and success is always reported |
| ClipboardCopy.RecoveryWrite | content.js:793-808 | the degraded-after-error message comes only with the asynchronous API, after every earlier call failed, and its last call writes the header plus the untrimmed text |
| ClipboardCopy.RootText | content.js:751-754 | `innerText \|\| textContent \|\| ''` is '' exactly when both are empty |
| ClipboardCopy.CopyAllClick | content.js:739-810 | with images the text is header plus untrimmed body; without, it is trimmed; the clipboard calls and message are the tier selection on those texts |
| ClipboardCopy.ClipboardWrite | content.js:757-808 | the `try`/`catch` of clipboard calls performs exactly the tier selection |
| ClipboardCopy.ImagesGoRich | content.js:749-763 | with images and the asynchronous API, the first call is always the two-format write, because the HTML header is never empty |
| AntiHotlink.BypassOne | content.js:74-139 | computes one pass of the per-image body: skip a processed image, else mark it, fill an empty `src` from `data-src`, apply the WeChat fix to a WeChat image, and install the error listener unless installed before; its properties are the lemmas below |
| AntiHotlink.OnError | content.js:110-138 | computes the `error` listener: it removes itself and, for a WeChat image not yet retried, flags the retry, drops `referrerpolicy` and switches `src` to `data-src` when that differs, else to the text before the first `?`; its properties are `OnErrorFacts` and `OnErrorOnce` |
| AntiHotlink.FixWechatImage | content.js:88-107 | only `src`, `referrerpolicy` and the `urlFixed` flag can change |
| AntiHotlink.BypassIdempotent | content.js:76-79 | a pass marks the image processed; a second pass changes nothing; an already processed image is skipped |
| AntiHotlink.BypassOneKeeps | content.js:74-107 | a pass keeps `data-src`, the retry flag and an existing `referrerpolicy`, and installs the error handler once over the image's lifetime |
| AntiHotlink.BypassOneNonWechat | content.js:82-107 | `data-src` fills an empty `src`; an image that is not a WeChat image gets no referrer policy and no URL fix |
| AntiHotlink.FixWechatImageFacts | content.js:88-107 | `referrerpolicy` is set only if absent; the URL is normalized only while `urlFixed` is unset, and the normalized address is used only when it is non-empty and different; the flag is set afterwards |
| AntiHotlink.OnErrorFacts | content.js:110-138 | the listener removes itself; `src` changes only for a WeChat image not yet retried, which is then flagged; such an image loses `referrerpolicy` and switches to `data-src` if that differs, else to the URL without its query |
| AntiHotlink.OnErrorOnce | content.js:110-138 | a second error event changes nothing |
| AntiHotlink.StepKeepsFlags | content.js:74-138 | no pass or error event clears a flag |
| AntiHotlink.AtMostOneRetry | content.js:116-131 | however passes and errors interleave, an image is retried at most once |
| AntiHotlink.AtMostOneNormalisation | content.js:99-106 | however passes and errors interleave, an image's URL is normalized at most once |
| AntiHotlink.ImageElement.Bypass | content.js:74-139 | the element's new state is one pass of the per-image body |
| AntiHotlink.ImageElement.FixWechat | content.js:88-107 | the element's new state is the WeChat fix |
| AntiHotlink.ImageElement.FireError | content.js:110-138 | the element's new state is the error handler's effect |
| AntiHotlink.Page.BypassAntiHotlink | content.js:58-140 | the referrer `<meta>` is added only when missing, and every image gets one pass, the list itself unchanged |
| UpdateNotes.CompareVersions | version-manager.js:79-94 | the loop's result is the lexicographic comparison of the padded components |
| UpdateNotes.CompareFalsy | version-manager.js:80 | an empty argument compares equal to anything |
| UpdateNotes.CompareFromFirstDifference | version-manager.js:82-93 | the result is decided by the first differing component: -1 if smaller, 1 if larger, 0 when none differs |
| UpdateNotes.CompareRange | version-manager.js:79-94 | the result is -1, 0 or 1 |
| UpdateNotes.CompareReflexive | version-manager.js:79-94 | every version equals itself |
| UpdateNotes.CompareAntisymmetric | version-manager.js:79-94 | swapping the arguments negates the result |
| UpdateNotes.CompareZeroPadded | version-manager.js:85-86 | components equal up to 0-padding compare equal |
| UpdateNotes.TrailingZero | version-manager.js:85-86 | `v.0` and `v` compare equal, as `1.0` vs `1.0.0` |
| UpdateNotes.GetChangelog | version-manager.js:97-169 | `1.1.0` and `1.0.0` give their own table entries; a name of `Object.prototype` (`constructor`, `toString`, `__proto__`, …) finds the inherited member, which is truthy; every other version gives `null` |
| UpdateNotes.ShownKeysDistinct | version-manager.js:47-76 | the flag keys `changelogKey_v` are distinct per version and never the version key |
| UpdateNotes.MarkIsPerVersion | version-manager.js:47-76 | marking `v` shown makes `hasShownChangelog(v)` true and changes no other version's flag; saving the version touches no flag |
| UpdateNotes.UpdateNotice | version-manager.js:329-345 | computes the modal's changelog: the current version's entry when there is no stored version or it is lower, and the current version's flag is unset; otherwise none; its properties are the four lemmas below |
| UpdateNotes.VersionManager.GetStoredVersion | version-manager.js:16-31 | returns the stored version, '' when none |
| UpdateNotes.VersionManager.SaveVersion | version-manager.js:34-44 | stores the version under its key and nothing else |
| UpdateNotes.VersionManager.HasShownChangelog | version-manager.js:47-62 | true exactly when the version's flag is stored |
| UpdateNotes.VersionManager.MarkChangelogShown | version-manager.js:65-76 | sets the version's flag, after which it reads as shown |
| UpdateNotes.VersionManager.CheckForUpdates | version-manager.js:327-350 | the modal gets the decision `UpdateNotice` of the old store, and the stored version is the current one afterwards |
| UpdateNotes.FirstInstallShowsChangelog | version-manager.js:329-345 | a first install shows the current changelog, an own entry of the table |
| UpdateNotes.SecondCheckQuiet | version-manager.js:329-345 | after one check, the next shows nothing |
| UpdateNotes.ShownNeverAgain | version-manager.js:329-345 | a changelog marked shown never shows again |
| UpdateNotes.NoNoticeWithoutUpgrade | version-manager.js:329-345 | the same or a lower stored version never shows the modal |
| ReleaseScript.ReadParts | scripts/version-manager.js:51-61 | the three parts read as numbers, defined exactly when all are numbers |
| ReleaseScript.ParseVersion | scripts/version-manager.js:51-61 | succeeds exactly when there are three dot-separated numeric parts; the error message names the input |
| ReleaseScript.ParseFormatVersion | scripts/version-manager.js:51-89 | printing a version with exact integer parts and parsing it again gives the same record |
| ReleaseScript.EmptyPartReadsAsZero | scripts/version-manager.js:55-58 | an empty part is not rejected: `1..3` reads as 1.0.3 |
| ReleaseScript.BumpTypeOf | scripts/version-manager.js:85-86 | a type is accepted exactly when it is `patch`, `minor` or `major` |
| ReleaseScript.BumpFollowsSemVer | scripts/version-manager.js:69-84 | the bumps of Semantic Versioning 2.0.0, items 6–8: patch+1; minor+1 with patch 0; major+1 with minor and patch 0; the bumped version has higher precedence |
| ReleaseScript.BumpIncreasesPrecedence | scripts/version-manager.js:69-84 | every bump goes strictly up in precedence, for every parsed record, negative parts included |
| ReleaseScript.IncrementVersion | scripts/version-manager.js:69-90 | a parse error is passed on; an unknown type throws `Unsupported version type`; otherwise the bumped version is printed |
| ReleaseScript.IncrementRoundTrip | scripts/version-manager.js:51-89 | a bumped version parses back to the bumped record |
| ReleaseScript.ChangelogEntryMarked | scripts/version-manager.js:131-139 | every entry starts with the section marker `\n## ` |
| ReleaseScript.SpliceChangelogShape | scripts/version-manager.js:144-149 | the entry goes right before the first `\n## `, or at the end; the text on either side is kept |
| ReleaseScript.SpliceMakesEntryFirst | scripts/version-manager.js:144-149 | after the splice, the entry's section is the first section of the file |
| ReleaseScript.SetValidatesFirst | scripts/version-manager.js:266-276 | `set` ends normally exactly when a target is given and parses; otherwise nothing changes and nothing is tagged; on success both manifests hold the target and the changelog is kept |
| ReleaseScript.BumpOutcome | scripts/version-manager.js:240-262 | an unparsable current version crashes and changes nothing; otherwise both manifests get the bumped version, which parses back to the bumped record, it is tagged exactly without `--no-git`, and without `--no-changelog` its entry becomes the first section of a readable changelog |
| ReleaseScript.DoneMeansInStep | scripts/version-manager.js:224-299 | every command except `current` and `help` that ends normally leaves the two manifests agreeing |
| ReleaseScript.FormatVersion | scripts/version-manager.js:89 | computes `major.minor.patch` from the decimal texts of the parts; `ParseFormatVersion` proves it parses back |
| ReleaseScript.ChangelogEntry | scripts/version-manager.js:131-139 | computes the section text: marker, `[version] - date`, the type heading with its emoji and upper-case name, then the description; `ChangelogEntryMarked` proves it opens a section |
| ReleaseScript.SpliceChangelog | scripts/version-manager.js:144-149 | computes the changelog with the entry inserted before the first `\n## `, or appended when there is none; `SpliceChangelogShape` and `SpliceMakesEntryFirst` state its properties |
| ReleaseScript.RunSpec | scripts/version-manager.js:224-299 | computes the new manifests, changelog, exit and tag of each command; `SetValidatesFirst`, `BumpOutcome` and `DoneMeansInStep` state its properties |
| ReleaseScript.ReleaseTool.GetCurrentVersion | scripts/version-manager.js:96-106 | `package.json` wins even when the manifests disagree |
| ReleaseScript.ReleaseTool.UpdateVersion | scripts/version-manager.js:112-122 | both manifests get the new version; the changelog is kept |
| ReleaseScript.ReleaseTool.SyncVersions | scripts/version-manager.js:208-219 | a no-op when the manifests agree; otherwise `package.json`'s version goes to both |
| ReleaseScript.ReleaseTool.UpdateChangelog | scripts/version-manager.js:130-156 | a readable changelog gets the entry spliced in; an unreadable one is left alone |
| ReleaseScript.ReleaseTool.RunBump | scripts/version-manager.js:240-262 | the bump branch does what `RunSpec` says |
| ReleaseScript.ReleaseTool.Run | scripts/version-manager.js:224-299 | new state, exit and tag are as `RunSpec` says, for every command |
| Popup.GetSpec | popup.js:40-49 | `storage.get(defaults)` returns exactly the keys of `defaults` |
| Popup.SetSpec | popup.js:52-61 | the written keys hold their serialized value and every other key is kept |
| Popup.SetThenGet | popup.js:36-61 | a value whose text parses back to itself is read back as written |
| Popup.RemoveThenDefault | popup.js:62-69 | a removed key reads as its default again |
| Popup.LocalStorage.Get | popup.js:40-49 | the loop over default keys computes `GetSpec` |
| Popup.LocalStorage.Set | popup.js:52-61 | the loop over entries stores exactly `SetSpec` |
| Popup.LocalStorage.Remove | popup.js:62-69 | the removed keys are gone and nothing else changes |
| Popup.FriendlyError | popup.js:73-102 | computes `${action}失败：` and the reason: network error for a fetch `TypeError`, no service without a response, the server's `error` when non-empty, else the message of the status; its properties are the three lemmas below |
| Popup.FriendlyErrorPrefix | popup.js:73-102 | every message starts with `${action}失败：` |
| Popup.FriendlyErrorNamesCause | popup.js:81-101 | once the failure is not a network `TypeError`, the server's `data.error` is shown verbatim; without one, a 500/502/503 or any other non-ok status outside 401, 403, 422 and 429 is named in the message |
| Popup.FriendlyErrorOrder | popup.js:75-80 | a fetch `TypeError` wins over everything else, then a missing response always reads as "no service" |
| Popup.StatusLine | popup.js:266-273 | computes the shown status: the text itself when it starts with `状态：`, else the prefix and the text |
| Popup.StatusLineShape | popup.js:266-273 | the shown text starts with `状态：`, ends with the given text and adds at most the prefix |
| Popup.StatusLineIdempotent | popup.js:266-273 | the prefix is added only when absent, so showing a status twice is showing it once |
| Popup.FailureShownPrefix | popup.js:164-170 | a failure is shown as `❌ ` and the action's `friendlyError` text |
| Popup.ActivateSpec | popup.js:137-172 | computes the request, stored licence and message of an activate click from the trimmed key and email and the reply; `ActivateRules` states its properties |
| Popup.ValidateSpec | popup.js:184-217 | computes the same for a validate click, with the input key or the stored one and the stored instance; `ValidateRules` states its properties |
| Popup.DeactivateSpec | popup.js:220-248 | computes the same for a deactivate click, which needs a key and a stored instance; `DeactivateRules` states its properties |
| Popup.ActivateRules | popup.js:137-172 | a request is sent exactly when the trimmed key is not blank, and carries it; without one nothing is stored; a success resets the failure counter to 0, a failure adds 1; only a success can make the licence valid |
| Popup.ValidateRules | popup.js:184-217 | a request is sent exactly when the input-or-stored key is not blank, and carries it; a success resets the counter and marks the licence valid, a failure adds 1 and marks it invalid |
| Popup.DeactivateRules | popup.js:220-248 | a request is sent exactly when there are both a key and a stored instance, and carries them; a success forgets the instance and marks the licence invalid; the failure counter is never touched |
| Popup.BlankInputHidesStoredKey | popup.js:186-188 | a blank input wins over the stored key (`'  '` is truthy), and an empty input falls back to it |
| Popup.FailureIsReported | popup.js:137-248 | a failed activate or deactivate shows `❌ ` and the action's failure text; validate shows `❌ ` exactly when its request failed |
| Popup.LicensePanel.UpdateLicenseStatus | popup.js:266-273 | the status element shows the prefixed line; without the element, nothing changes |
| Popup.LicensePanel.ActivateClick | popup.js:137-172 | the request, the stored licence and the status line are those of `ActivateSpec` |
| Popup.LicensePanel.ValidateClick | popup.js:184-217 | as `ValidateSpec` |
| Popup.LicensePanel.DeactivateClick | popup.js:220-248 | as `DeactivateSpec` |
| Popup.LicensePanel.OnActivateReply | popup.js:141-171 | the `try` block after the key check: the request, stored licence and status line of `ActivateReplied` |
| Popup.LicensePanel.OnValidateReply | popup.js:189-216 | as `ValidateReplied` |
| Popup.LicensePanel.OnDeactivateReply | popup.js:223-247 | as `DeactivateReplied` |
| LicenseProxy.AllowOrigin | serverless/lemon_license_proxy.js:16-22 | `*` for an empty or `*` list; otherwise the request origin when it is an entry of the comma-split list, else the fallback origin (section 3.2 of the Fetch Standard) |
| LicenseProxy.EmptyOriginWithTrailingComma | serverless/lemon_license_proxy.js:17-19 | a list with a trailing comma reflects an absent `Origin` header as '' |
| LicenseProxy.StripTrailingSlashes | serverless/lemon_license_proxy.js:36 | the result is the path without its trailing slashes and never ends in one |
| LicenseProxy.StripSlashesSuffix | serverless/lemon_license_proxy.js:36 | any number of trailing slashes is removed and nothing more |
| LicenseProxy.ActionIsLastSegment | serverless/lemon_license_proxy.js:36-37 | the action is the last segment, whatever comes before and however many slashes follow |
| LicenseProxy.TrailingSlashesRouteAlike | serverless/lemon_license_proxy.js:36-40 | a path with trailing slashes routes like the one without |
| LicenseProxy.FormFieldsTruthy | serverless/lemon_license_proxy.js:43-47 | the form holds exactly the truthy fields, once each, with the body's values |
| LicenseProxy.SearchParams.Set | serverless/lemon_license_proxy.js:43-47 | `form.set` replaces the first pair of the name and drops the rest, or appends |
| LicenseProxy.BuildForm | serverless/lemon_license_proxy.js:42-47 | the successive `set` calls give the truthy-field form |
| LicenseProxy.SetIfTruthy | serverless/lemon_license_proxy.js:44-47 | one guarded `set` of a name not yet in the form appends its pair exactly when the value is truthy |
| LicenseProxy.HandleSpec | serverless/lemon_license_proxy.js:15-66 | computes the handler's answer and its upstream call, checks in source order: preflight, rate token, action, `null` body, then the call and the `Response` constructor; its properties are `HandlerOrder` |
| LicenseProxy.HandlerOrder | serverless/lemon_license_proxy.js:24-65 | OPTIONS gets only the CORS headers; a wrong rate token gives 401 before routing; an unknown action gives 404; a JSON `null` body gives 500 with an error message and no upstream call; any other routed request posts to `apiBase/action` and passes the status and text through when `new Response` accepts that status with a body; a status outside 200..599 or a null body status (101, 103, 204, 205, 304) makes the constructor throw, and that gives 500, as does a throw of the call; every answer has a status in 200..599 and carries the CORS headers; without an upstream call the status is 200, 401, 404 or 500; the upstream is called exactly for routed requests whose body is not `null` |
| LicenseProxy.HandleFetch | serverless/lemon_license_proxy.js:15-66 | the handler answers and calls upstream as `HandleSpec` says |
| ImageDebugger.DebugImageInfoAsWritten | debug-image-copy-enhanced.js:49-64 | as written, the reported `naturalHeight` is the displayed `height` |
| ImageDebugger.DebugImageInfo | debug-image-copy-enhanced.js:49-64 | each size is reported under its own name |
| ImageDebugger.LoadSpec | debug-image-copy-enhanced.js:67-116 | an already complete image with non-zero width succeeds at once with load time 0 |
| ImageDebugger.LoadTestAlwaysSettles | debug-image-copy-enhanced.js:67-116 | the test settles exactly when the image is already loaded or some callback fires (the timeout always does), resolves with success only on load, and never rejects |
| ImageDebugger.TestImageLoad | debug-image-copy-enhanced.js:67-116 | the result is `LoadSpec`; the listeners are removed once it settles, and only then |
| ImageDebugger.Fallback | debug-image-copy-enhanced.js:124-125 | `a \|\| b \|\| d` is the first non-zero of the three, positive for a positive default |
| ImageDebugger.CanvasSize | debug-image-copy-enhanced.js:124-125 | the canvas is never empty and uses the intrinsic size when there is one |
| ImageDebugger.CanvasSizeFallback | debug-image-copy-enhanced.js:124-125 | only a zero intrinsic size falls back to the displayed size, then to 300 by 200 |
| ImageDebugger.SomeFromSpec | debug-image-copy-enhanced.js:139-143 | the `.some` callback from an index on finds a colour byte that is not 255 |
| ImageDebugger.HasContentSpec | debug-image-copy-enhanced.js:139-143 | `hasContent` holds exactly when some red, green or blue byte is not 255 |
| ImageDebugger.HasContentIgnoresAlpha | debug-image-copy-enhanced.js:139-143 | changing alpha bytes never changes `hasContent` |
| ImageDebugger.TestCanvasDrawing | debug-image-copy-enhanced.js:119-158 | success exactly when drawing did not throw, with the chosen canvas size; after a throw, no content |
| ImageDebugger.TestClipboardApi | debug-image-copy-enhanced.js:161-205 | both presence flags are reported as found; the image write is reported exactly when `navigator.clipboard` and `window.ClipboardItem` exist and `clipboard.write` accepts the item, since `new ClipboardItem` throws otherwise; without `navigator.clipboard` nothing is tried; the permission reads `unknown` exactly when its query throws |
| ImageDebugger.NoClipboardItemCannotWriteImage | debug-image-copy-enhanced.js:161-205 | without `window.ClipboardItem` the "cannot write image" suggestion (line 284) is always listed and the all-pass line never is |
| ImageDebugger.Texts | debug-image-copy-enhanced.js:266-290 | one text per suggestion, in order |
| ImageDebugger.FoundMembers | debug-image-copy-enhanced.js:266-286 | a check is listed exactly when it finds its problem |
| ImageDebugger.FoundOrdered | debug-image-copy-enhanced.js:266-286 | keeping some checks of a ranked list keeps the rank order |
| ImageDebugger.Suggestions | debug-image-copy-enhanced.js:266-290 | computes the suggestions: the checks that find a problem, in rank order, or the all-pass line when none does; `SuggestionsOrdered` and `SuggestionsListProblems` state its properties |
| ImageDebugger.SuggestionsOrdered | debug-image-copy-enhanced.js:266-290 | the list is never empty and is in the fixed order load, size, canvas, clipboard API, image write |
| ImageDebugger.SuggestionsListProblems | debug-image-copy-enhanced.js:266-290 | every problem found is listed and nothing else; canvas-failed and canvas-empty never both appear; the all-pass line appears exactly when there is no other line, which is exactly when every check passes |
| ImageDebugger.GenerateSuggestions | debug-image-copy-enhanced.js:263-293 | the pushes, joined with `<br>`, are the texts of `Suggestions` |
| ImageDebugger.ZeroSizeFalseAlarm | debug-image-copy-enhanced.js:49-64 | as written (the `naturalHeight` of line 54, read by the check of lines 270-272), a loaded 640×480 image displayed at height 0 gets the zero-size suggestion; corrected, it does not |
| ImageDebugger.ZeroSizeMeansUnloaded | debug-image-copy-enhanced.js:270-272 | corrected, the zero-size suggestion appears exactly when an intrinsic dimension is 0 |
| CopyDiagnosis.IsWechatArticle | debug-image-copy.js:19 | the page is an article exactly when the host is `mp.weixin.qq.com` and the path contains `/s/` |
| CopyDiagnosis.ShortPathIsNoArticle | debug-image-copy.js:19 | a path shorter than `/s/` is never an article, whatever the host |
| CopyDiagnosis.ArticlePathAnywhere | debug-image-copy.js:19 | on the article host, `/s/` anywhere in the path makes the page an article |
| CopyDiagnosis.InfoOf | debug-image-copy.js:35-51 | a record keeps index and source; it is a WeChat image exactly when its src contains `mmbiz.qpic.cn`; `hasDataSrc` needs a non-empty `data-src`; visible exactly when both offsets are positive |
| CopyDiagnosis.CheckImages | debug-image-copy.js:26-72 | one record per image, in document order, numbered from 1 |
| CopyDiagnosis.Filter | debug-image-copy.js:62-64 | `filter` keeps exactly the records passing the test and is no longer than its input |
| CopyDiagnosis.FilterMonotone | debug-image-copy.js:62-64 | a test weaker on every record keeps at least as many records |
| CopyDiagnosis.CheckClipboardSupport | debug-image-copy.js:75-94 | the write methods are reported only with `navigator.clipboard`, and then as their `typeof` checks say |
| CopyDiagnosis.Problems | debug-image-copy.js:227-264 | computes the problems found, image problems first and then clipboard problems; `Issues`, `Advice` and `GenerateReport` map them to texts |
| CopyDiagnosis.Issues | debug-image-copy.js:227-264 | one issue text per problem |
| CopyDiagnosis.Advice | debug-image-copy.js:227-264 | one suggestion text per problem |
| CopyDiagnosis.EmptyPageOnePair | debug-image-copy.js:231-253 | with no images, the image section contributes exactly one pair, and the visible, WeChat and button checks are skipped |
| CopyDiagnosis.ShortfallIff | debug-image-copy.js:249-252 | the copy-button shortfall appears exactly when fewer images carry a button than are visible, with those two counts |
| CopyDiagnosis.ShortfallWitness | debug-image-copy.js:249-252 | a shortfall implies some visible image without a button |
| CopyDiagnosis.NothingVisibleNoShortfall | debug-image-copy.js:235-252 | with images but none visible, the visibility issue appears and never a shortfall |
| CopyDiagnosis.Headline | debug-image-copy.js:267-274 | "no obvious problems" exactly when the issue list is empty |
| CopyDiagnosis.Numbered | debug-image-copy.js:270-280 | one numbered line per item |
| CopyDiagnosis.NumberedLine | debug-image-copy.js:270-280 | each line ends with its item and carries its 1-based position, which reads back as a number |
| CopyDiagnosis.ReportLines | debug-image-copy.js:267-283 | title, headline, the numbered issues, the suggestions block only when there are suggestions, and the help line last |
| CopyDiagnosis.ReportImages | debug-image-copy.js:231-253 | the image block's pushes are the texts of the image problems |
| CopyDiagnosis.ReportClipboard | debug-image-copy.js:256-264 | the clipboard block appends the texts of the clipboard problems |
| CopyDiagnosis.GenerateReport | debug-image-copy.js:224-284 | issues and suggestions are the texts of the problems found, pushed in pairs so of equal length, and the printed lines are `ReportLines` |
| CopyDiagnosis.ReportAllClear | debug-image-copy.js:267-274 | the report opens with the all-clear line exactly when no image or clipboard check fails |
| CopyDiagnosis.TestImageCopy | debug-image-copy.js:133-196 | no images, or none visible and complete, is reported; otherwise the first visible and complete image is chosen, with canvas size `naturalWidth \|\| width \|\| 300` by `naturalHeight \|\| height \|\| 200` |

## Left out

- The WHATWG URL parser and serializer (`new URL(u, base)`, `toString()`) are parameters. Resolution against `location.href` is inside the parser, so a non-CDN URL is "unchanged" only up to serialization.
- WASM internals (`initWasm`, instantiation, linear-memory pointers, TextEncoder/Decoder) are left out. Each export is an opaque function of its input, seen through the direct and the memory calling conventions.
- `Promise.allSettled` and event timing are modelled as a sequential loop. Each image's fetch outcome is given, and a thrown error is that image's failure. The code has no fetch timeout, and neither does the model.
- background.js is not part of this model. Only the reply shapes it sends reach `fetchImageAsDataUrlWithProxy`.
- audio-utils.js, scripts/build_wasm.mjs and scripts/moonbit_coverage_report.mjs are left out: they are audio synthesis and build plumbing.
- The DOM and UI code in content.js is left out: copy-restriction CSS, buttons, drag and hover, canvas copy and download, `showMessage` timers, audio hooks, and the settings listener.
- AntiHotlink.ImageState: `src` is kept as the last string assigned to it. In the browser, reading `img.src` gives the address resolved against the page, so the comparisons at content.js:82, 88, 98, 116, 123 and 128 see resolved values. For a relative or protocol-relative address the model can then differ. Example: `<img src="//mmbiz.qpic.cn/a?x=1" data-src="//mmbiz.qpic.cn/a?x=1" data-url-fixed="true">` on error: the source sees `https://mmbiz.qpic.cn/a?x=1` differ from `data-src` and assigns `data-src` again, while the model sees them equal and strips the query. The same reading applies to AntiHotlink.OnErrorFacts, AntiHotlink.FixWechatImageFacts and AntiHotlink.BypassOneNonWechat.
- ClipboardCopy.CopyAllClick: the include-images checkbox is read once. The source reads `includeImagesCheckbox.checked` before and again after awaiting `processImagesForCopy` (content.js:747 and 759); if the box is unticked during that await, the source writes the untrimmed text with `writeText`, which the model does not capture.
- ClipboardCopy.CopyAllClick: `execCommand('copy')`'s result is never read by the source, so the model treats it as success.
- ClipboardCopy.CopyAllClick: the root's `innerHTML` is given already parsed into nodes; HTML parsing and serializing are outside the model.
- JsStrings.ToNumber reads optional-sign decimal integers and '' (as 0); the rest of the `Number()` grammar (fractions, exponents, hex, `Infinity`) is not modelled.
- Version parts are exact, unbounded integers in the model. In the source they are IEEE-754 doubles. The two agree on every part below 2^53; the lines below say what differs above that.
- ReleaseScript.ParseVersion: a part above 2^53 is read exactly, where the source rounds it to the nearest double (`9007199254740993` reads as 9007199254740992).
- ReleaseScript.ParseFormatVersion: the round trip is proved for exact integers. In the source a part of 10^21 or more prints in exponent form (`1.5e+21`), which does not parse back.
- ReleaseScript.IncrementVersion: the increment is exact. In the source `patch++` at 2^53 leaves the part unchanged, and a part of 10^21 or more prints in exponent form.
- ReleaseScript.IncrementRoundTrip: it holds in the source only while the bumped parts stay below 10^21, for the reason given under ReleaseScript.ParseFormatVersion.
- ReleaseScript.BumpIncreasesPrecedence: a bump goes strictly up only for parts below 2^53 in the source, where an increment at 2^53 is lost.
- UpdateNotes.CompareVersions: parts compare as exact integers. In the source, parts that round to the same double compare equal (`9007199254740993` against `9007199254740992` gives 0, where the model gives 1).
- version-manager.js: `createUpdateModal`, the chrome.storage callbacks, `shouldPlayAudio` and the modal timers are UI or I/O. Changelog feature lists are kept as display text only. `showChangelog(version)` opens a modal for exactly the lookups GetChangelog finds, including an inherited member; what `createUpdateModal` then renders for one is not modelled.
- scripts/version-manager.js: JSON reading and writing, file I/O, `git` commands and console output are left out. The date is a parameter.
- popup.js: `showHelp`, toggles and tab queries are left out. The chrome.storage branch of the storage shim is left out; only the localStorage branch is modelled.
- popup.js: the `fetch` to the licence API is left out; its reply is a parameter.
- popup.js: `licenseMeta`, the intermediate "…中" status texts and `buildInstanceName` are left out. The clock is a parameter.
- serverless/lemon_license_proxy.js: URL parsing of the request and the form-body text encoding are left out. The path and the parsed JSON body arrive as values: not JSON, `null`, or an object. The exception messages of the runtime are a parameter (`Runtime`): the one the first field read throws on a `null` body, and the one the `Response` constructor throws on a refused status.
- serverless/lemon_license_proxy.js: a JSON body that is a number, string, boolean or array has none of the four fields, so it is given as an object without fields. A field value that is not a string is given as the text `form.set` converts it to, and its truthiness as that of the text.
- debug-image-copy-enhanced.js: `formatDebugInfo`'s HTML, console output, `testCanvasFunction`, `checkExtensionStatus` and the `runDiagnosis` sequencing are left out. The properties `alt`, `crossOrigin`, `referrerPolicy`, `loading` and `currentSrc` are only logged and are not modelled.
- debug-image-copy.js: `checkPageInfo`'s console output, `testCanvasFunction` and `checkExtensionStatus` only log and are left out; of `checkPageInfo` only the `isWechatArticle` test is modelled. The `ImageInfo` properties `alt`, `crossOrigin` and `referrerPolicy` are only logged and are not part of the record.
- CopyDiagnosis.TestImageCopy: after the test image is chosen, the asynchronous blob and clipboard steps only write to the console and are not modelled.
- Compute.BatchJoinedIsMap: the `\u0001` joined batch path equals the map only under its preconditions: a pointwise export, a non-empty list, and no answer containing U+0001. BatchSeparatorInInput shows why.

## Findings

| source | as written | input that shows it | evidently intended | confidence | as-written member | corrected member |
|---|---|---|---|---|---|---|
| wasmLoader.js:216-221 | an empty list is joined to '' and sent to the joined export, whose string answer is split into a one-element list | `normalizeImageUrls([])` with a joined export returning a string without U+0001 | `[]`, the result of `list.map` on an empty list | not executed | Compute.BatchEmptyListAsWritten | Compute.BatchCorrected, Compute.BatchCorrectedIsMap |
| debug-image-copy-enhanced.js:54 | `naturalHeight: img.height` reports the displayed height as the intrinsic one | a complete image with naturalWidth 640, naturalHeight 480, width 640, height 0 gets the "image size is 0" suggestion | `naturalHeight: img.naturalHeight` | not executed | ImageDebugger.DebugImageInfoAsWritten, ImageDebugger.ZeroSizeFalseAlarm | ImageDebugger.DebugImageInfo, ImageDebugger.ZeroSizeMeansUnloaded |
