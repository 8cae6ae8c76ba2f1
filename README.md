# Lokallook performance and storefront helpers, modelled in Dafny

This project models the small decision logic that the Lokallook shop (a
Laravel/Bagisto application) adds around its storefront:

- the HTTP cache-header middleware, which picks no caching, untouched, a 304,
  or a response decorated with `ETag`, `Last-Modified`, `Cache-Control` and
  `Vary`, and classifies each path and route into one of three
  `Cache-Control` policies (sections 8.8.2, 8.8.3 and 13.1.2 of RFC 9110,
  section 5.2.2 of RFC 9111, section 3 of RFC 5861, section 2 of RFC 8246);
- the performance helpers:
  - a read-through cache (`cache_result`, `cache_forever`) over a key/value store
    with PHP truthiness as the hit test;
  - model lookups keyed by class basename (`get_with_cache`);
  - the eager-load relation table;
  - pattern invalidation under `perf:`;
  - `measure_performance`;
  - the slow-query test;
- the bundler's asset classifiers (`manualChunks`, `assetFileNames`,
  `renderBuiltUrl`);
- the optional VAT-number rule and its `setCountry`;
- the `NumberFormatter` stand-in used when PHP's intl extension is missing;
- the image storage-link fixer script:
  - the relative link target;
  - the link, directory or absent decision;
  - the sample listing with its URLs;
  - the final status;
- the command-line performance checklist. It has three append-only result
  lists, four groups of checks, and a summary with a total, a pass rate and a
  three-way verdict.

Opaque collaborators are parameters of the operations that use them: SHA-256
(FIPS 180-4), HTTP-date formatting, `now`, the strict VAT validator,
`number_format`, the ORM's `find`, and every file-system, environment and
process query of the two scripts.

Modules:

| module | file | models |
|---|---|---|
| `Php` | php.dfy | PHP values, truthiness, `===`, `in_array(..., true)`, `(string)` |
| `Strings` | strings.dfy | substring tests, `explode`/`implode`, `basename`, `rtrim`, `str_replace` with `''`, `strtolower` |
| `Glob` | glob.dfy | key patterns with `*` and `?` |
| `HttpCacheHeaders` | http_cache_headers.dfy | app/Http/Middleware/SetHttpCacheHeaders.php |
| `PerformanceHelper` | performance_helper.dfy | app/Helpers/PerformanceHelper.php, with the tables of config/performance.php |
| `AssetBundling` | asset_bundling.dfy | packages/Webkul/Shop/vite.config.js |
| `VatId` | vat_id_rule.dfy | packages/Webkul/Customer/src/Rules/VatIdRule.php |
| `NumberFormatter` | number_formatter.dfy | app/Support/NumberFormatterPolyfill.php |
| `StorageLinkFixer` | storage_link_fixer.dfy | fix-images.php |
| `PerformanceChecker` | performance_checker.dfy | optimize.php |

Where the code and its documentation disagree, the model follows the code:

- the documented pattern `model:product:*` misses the keys `get_with_cache`
  writes for `Product`;
- category relations are looked up under `categorys`.

## Model

| member | source | states |
|---|---|---|
| HttpCacheHeaders.CacheControl | app/Http/Middleware/SetHttpCacheHeaders.php:64-91 | the result is one of the three policies; immutable iff the path ends in a listed static extension (with at most one newline after it); a day iff not static and the route name contains `product` or `category`; an hour otherwise, `home` and the unnamed route included |
| HttpCacheHeaders.SvgIsImmutable | app/Http/Middleware/SetHttpCacheHeaders.php:69-71 | a path ending in `.svg` is immutable whatever the route name |
| HttpCacheHeaders.FontExtensions | app/Http/Middleware/SetHttpCacheHeaders.php:70 | `woff2?` covers both `woff` and `woff2` |
| HttpCacheHeaders.TrailingNewline | app/Http/Middleware/SetHttpCacheHeaders.php:70 | `$` without the D modifier accepts one trailing newline and not two |
| HttpCacheHeaders.UpperCaseExtension | app/Http/Middleware/SetHttpCacheHeaders.php:70 | the extension test is case-sensitive |
| HttpCacheHeaders.NoLowerExtension | app/Http/Middleware/SetHttpCacheHeaders.php:70 | a path not ending in a lower-case letter or digit ends in no listed extension |
| HttpCacheHeaders.Handle | app/Http/Middleware/SetHttpCacheHeaders.php:16-56 | authenticated requests first, then POST, are returned without caching; other non-GET requests come back untouched; a GET is decorated with the quoted SHA-256 ETag, `Last-Modified` = now, the chosen `Cache-Control`, `Vary: Accept-Encoding` and public; no request ever gets a 304 |
| HttpCacheHeaders.HandleCorrected | app/Http/Middleware/SetHttpCacheHeaders.php:31-53 | the intended GET path: a 304 with an empty body and the ETag iff the client sent the response's quoted ETag; every other unauthenticated GET gets exactly the decorated response, whose ETag the client did not send; other branches as in Handle |
| PerformanceHelper.CacheStore.Put | app/Helpers/PerformanceHelper.php:27 | the store afterwards maps the key to the value with the given expiry, and nothing else changes |
| PerformanceHelper.CacheStore.Forever | app/Helpers/PerformanceHelper.php:87 | the store afterwards maps the key to the value with no expiry, and nothing else changes |
| PerformanceHelper.CacheStore.Forget | app/Helpers/PerformanceHelper.php:147 | the key is removed, and nothing else changes |
| PerformanceHelper.CacheResult | app/Helpers/PerformanceHelper.php:17-30 | under `perf:`+key, the callback runs iff the live stored value is missing or falsy; a truthy value is returned and the store is unchanged; otherwise the callback's value, falsy or not, is stored with expiry now + 60·minutes and returned |
| PerformanceHelper.CacheForever | app/Helpers/PerformanceHelper.php:78-91 | the same read-through under `perf:forever:`+key, storing without expiry |
| PerformanceHelper.TruthyResultIsReused | app/Helpers/PerformanceHelper.php:19-27 | after a truthy result is stored, every later call before expiry returns it without running its callback and leaves the store as it is |
| PerformanceHelper.FalsyResultIsRecomputed | app/Helpers/PerformanceHelper.php:22-27 | a stored falsy result is never served: the next call runs its callback again |
| PerformanceHelper.ReadThroughIsolated | app/Helpers/PerformanceHelper.php:19-29 | a read-through call changes no lookup of any other key |
| PerformanceHelper.EagerLoad | app/Helpers/PerformanceHelper.php:64-67 | the configured relations for `products`, `categories` and `orders` (config/performance.php:121-125), `[]` for every other model type |
| PerformanceHelper.ClassBasename | app/Helpers/PerformanceHelper.php:106 | the class basename contains neither `/` nor `\`; its full meaning is stated by ClassBasenameIsLastSegment |
| PerformanceHelper.ClassBasenameIsLastSegment | app/Helpers/PerformanceHelper.php:106 | the class basename is the longest tail after the last namespace separator (`\` or `/`, trailing ones dropped) |
| PerformanceHelper.GetWithCache | app/Helpers/PerformanceHelper.php:103-118 | a read-through call under `perf:model:`+basename+`:`+id with expiry now + 60·minutes, whose callback loads the model with the relations listed under lower-case basename+`s` |
| PerformanceHelper.ModelPatternSelectsBasename | app/Helpers/PerformanceHelper.php:103-128 | the pattern `model:<b>:*` matches a model key iff `b` is exactly, case-sensitively, the class basename |
| PerformanceHelper.ProductBasename | app/Helpers/PerformanceHelper.php:106 | the basename of `App\Models\Product` is `Product` |
| PerformanceHelper.LowerCasePatternMissesModelKeys | app/Helpers/PerformanceHelper.php:103-128 | the documented pattern `model:product:*` matches no key written for a class whose basename is `Product`, such as `App\Models\Product`, while `model:Product:*` matches all of them |
| PerformanceHelper.RelationLookupByPlural | app/Helpers/PerformanceHelper.php:109 | `Product` and `Order` find their configured relations; `Category` is looked up as `categorys` and finds none |
| PerformanceHelper.MatchingKeys | app/Helpers/PerformanceHelper.php:133-144 | exactly the stored keys that match `perf:`+pattern |
| PerformanceHelper.InvalidateCache | app/Helpers/PerformanceHelper.php:128-150 | the intended eviction: on the `file` and `redis` stores every stored key matching `perf:`+pattern is forgotten, one at a time; on any other store nothing changes (what the stock back ends actually remove is under Left out) |
| PerformanceHelper.InvalidatedExactly | app/Helpers/PerformanceHelper.php:128-150 | a key survives iff it was stored and is not a match on a scanning store; survivors keep their entries |
| PerformanceHelper.InvalidateIdempotent | app/Helpers/PerformanceHelper.php:128-150 | invalidating twice is invalidating once |
| PerformanceHelper.ProductEviction | app/Helpers/PerformanceHelper.php:125-147 | `model:product:*` evicts products 5 and 9 and keeps category 1 |
| PerformanceHelper.MeasurePerformance | app/Helpers/PerformanceHelper.php:161-176 | the callback's result is returned unchanged |
| PerformanceHelper.ShouldLogQuery | app/Helpers/PerformanceHelper.php:186-193 | false while slow-query logging is off; with logging on, true iff the time exceeds the configured threshold, or 1000 when none is configured |
| PerformanceHelper.ShouldLogQueryMonotone | app/Helpers/PerformanceHelper.php:192 | a slower query is logged whenever a faster one is; a time equal to the threshold is not logged |
| PerformanceHelper.ShippedMonitoringThreshold | config/performance.php:160-166 | with the shipped settings a query is logged iff it takes more than 1000 ms |
| AssetBundling.ManualChunks | packages/Webkul/Shop/vite.config.js:20-27 | no chunk iff the id lacks `node_modules`; inside it, `vue` iff the id contains `vue`, `vee-validate` iff it contains that and not `vue`, `axios` iff it contains that and neither earlier name, `vendor` otherwise |
| AssetBundling.ApplicationModule | packages/Webkul/Shop/vite.config.js:21 | an application source module gets no manual chunk |
| AssetBundling.VueWinsOverAxios | packages/Webkul/Shop/vite.config.js:22-24 | `vue-axios` goes to the `vue` chunk |
| AssetBundling.VendorChunk | packages/Webkul/Shop/vite.config.js:25 | a package whose path has neither `v` nor `x` goes to `vendor` |
| AssetBundling.AxiosChunk | packages/Webkul/Shop/vite.config.js:24 | a file of the `axios` package with no `v` in its path goes to `axios` |
| AssetBundling.AssetFileNames | packages/Webkul/Shop/vite.config.js:30-39 | exactly one of the three templates; images iff the extension contains an image name; fonts iff not an image and it contains a font name; css otherwise |
| AssetBundling.ExtensionIsAfterLastDot | packages/Webkul/Shop/vite.config.js:31-32 | the extension is the text after the last `.`, or the whole name when it has no `.` |
| AssetBundling.ExtensionOf | packages/Webkul/Shop/vite.config.js:31-32 | the extension of `base.ext` is `ext` for a dot-free `ext` |
| AssetBundling.WebpIsStylesheet | packages/Webkul/Shop/vite.config.js:33-38 | a `.webp` file is filed under `css/` |
| AssetBundling.SvgIsImage | packages/Webkul/Shop/vite.config.js:33-34 | a `.svg` file is filed under `images/` |
| AssetBundling.Woff2IsFont | packages/Webkul/Shop/vite.config.js:35-36 | a `.woff2` file is filed under `fonts/` |
| AssetBundling.DotlessName | packages/Webkul/Shop/vite.config.js:31-34 | a name without a dot is its own extension, so `svg…` without a dot is an image |
| AssetBundling.RenderBuiltUrl | packages/Webkul/Shop/vite.config.js:86-90 | a URL iff the host type is `css`; it is the longest slash-free tail of the file name once trailing slashes are dropped, i.e. its `basename` |
| AssetBundling.CssReferenceIsFileName | packages/Webkul/Shop/vite.config.js:86-90 | for `dir/file` the CSS reference is `file` |
| VatId.PatternIsLengthOnAlnum | packages/Webkul/Customer/src/Rules/VatIdRule.php:37 | on letters and digits the basic pattern is exactly a length of 5 to 30 |
| VatId.TrailingNewline | packages/Webkul/Customer/src/Rules/VatIdRule.php:37 | one trailing newline is tolerated, two are not |
| VatId.Subject | packages/Webkul/Customer/src/Rules/VatIdRule.php:37 | arrays make `preg_match` throw; every other value, objects through their `__toString`, is matched as its string form |
| VatId.VatIdRule.SetCountry | packages/Webkul/Customer/src/Rules/VatIdRule.php:50-55 | the country is stored and the same rule is returned |
| VatId.VatIdRule.Validate | packages/Webkul/Customer/src/Rules/VatIdRule.php:26-43 | an empty value never fails and consults nothing; the strict validator is consulted iff a non-empty value misses the basic pattern; at most one failure, `invalid-format`, exactly when the strict validator rejects (value, country) |
| VatId.ValidateForCountry | packages/Webkul/Customer/src/Rules/VatIdRule.php:26-55 | after `setCountry(c)` the rule fails iff the value misses the pattern and the validator rejects it for `c`; 5–30 letters or digits pass for every country |
| NumberFormatter.NumberFormatterPolyfill.constructor | app/Support/NumberFormatterPolyfill.php:39-44 | locale, style and pattern as given; no currency symbol stored |
| NumberFormatter.NumberFormatterPolyfill.Create | app/Support/NumberFormatterPolyfill.php:100-103 | a fresh object equal to what the constructor builds |
| NumberFormatter.NumberFormatterPolyfill.SetAttribute | app/Support/NumberFormatterPolyfill.php:46-52 | returns true and changes nothing |
| NumberFormatter.NumberFormatterPolyfill.SetSymbol | app/Support/NumberFormatterPolyfill.php:54-60 | returns true; stores the value only for the exact string `CURRENCY_SYMBOL`; no other field changes |
| NumberFormatter.NumberFormatterPolyfill.SetTextAttribute | app/Support/NumberFormatterPolyfill.php:62-68 | returns true; stores the value only for the exact string `CURRENCY_CODE`; no other field changes |
| NumberFormatter.NumberFormatterPolyfill.GetSymbol | app/Support/NumberFormatterPolyfill.php:70-76 | the stored symbol, `$` while none is stored; `''` for any other attribute |
| NumberFormatter.NumberFormatterPolyfill.GetAttribute | app/Support/NumberFormatterPolyfill.php:78-84 | 2 iff the attribute is `FRACTION_DIGITS`, null otherwise |
| NumberFormatter.NumberFormatterPolyfill.Format | app/Support/NumberFormatterPolyfill.php:86-98 | currency: symbol then formatted number; decimal: the formatted number; percent: it followed by `%`; any other style: the value as a string |
| NumberFormatter.ConfigureWithIntegerConstants | app/Support/NumberFormatterPolyfill.php:16-68 | passing the integer constants to both setters leaves the symbol unchanged |
| NumberFormatter.ConfigureWithNames | app/Support/NumberFormatterPolyfill.php:62-91 | after `setTextAttribute('CURRENCY_CODE', c)` the symbol is `c`, and a currency formatter prints it first |
| NumberFormatter.FreshCurrencyFormatter | app/Support/NumberFormatterPolyfill.php:86-103 | a freshly created currency formatter prints `$` before the number |
| StorageLinkFixer.DiffAssoc | fix-images.php:154 | no longer than `to`, and every kept segment is one of `to` |
| StorageLinkFixer.KeptIndicesExact | fix-images.php:154 | the reference index list is strictly increasing and holds exactly the indices `i` where `from` has no entry or a different one |
| StorageLinkFixer.DiffAssocKeepsInOrder | fix-images.php:154 | `array_diff_assoc($to, $from)` is exactly the segments `to[i]` at those indices, in increasing order of `i` |
| StorageLinkFixer.GetRelativePath | fix-images.php:149-157 | the result, split at `/`, is exactly the segment list `array_diff_assoc` keeps (the empty string when it keeps none) |
| StorageLinkFixer.RelativePath | fix-images.php:149-157 | the intended relative path: split at `/`, it is the `..` steps up to the common ancestor followed by the rest of `to` (the empty string for equal paths) |
| StorageLinkFixer.RelativePathSegments | fix-images.php:149-157 | the result joins the kept segments, each a segment of `to`, so no `..` is ever produced |
| StorageLinkFixer.RelativePathSame | fix-images.php:149-157 | equal paths give `''` |
| StorageLinkFixer.RelativePathBelow | fix-images.php:149-157 | for `to` = `from/rest` the result is `rest` |
| StorageLinkFixer.LinkTargetAsWritten | fix-images.php:63 | for the script's two paths the target is `storage/app/public`, whatever the working directory |
| StorageLinkFixer.LinkTargetMissesStorage | fix-images.php:63-65 | that target, read from `public/`, leads to `public/storage/app/public`, which is not the storage directory |
| StorageLinkFixer.RelativePathRoundTrip | fix-images.php:149-157 | the corrected target, resolved from `from`, reaches `to` for any two distinct paths without `..` segments |
| StorageLinkFixer.LinkTargetCorrected | fix-images.php:63 | the corrected target for the script's paths is `../storage/app/public` |
| StorageLinkFixer.CreateStorageLink | fix-images.php:54-73 | the storage directory exists afterwards; `public/storage` becomes a link to the computed target iff `symlink` succeeds, and is otherwise unchanged |
| StorageLinkFixer.CheckStorageLink | fix-images.php:31-52 | an existing link, valid or not, is kept; otherwise a real directory is removed and the link is created |
| StorageLinkFixer.FinalStatus | fix-images.php:134-146 | READY iff `public/storage` is a link or a directory |
| StorageLinkFixer.StatusAfterCheck | fix-images.php:31-146 | after the check the status is READY iff a link was already there or `symlink` succeeded; a link the script creates has target `storage/app/public` |
| StorageLinkFixer.DirectoryLostOnFailedLink | fix-images.php:43-65 | a real directory that counted as READY ends NEEDS FIX when the link cannot be made |
| StorageLinkFixer.CheckIdempotentOnLink | fix-images.php:37-41 | once a link exists a second run changes nothing |
| StorageLinkFixer.ValidateImages | fix-images.php:98-125 | nothing iff `products/` is missing; otherwise the count, the first min(count, 5) files in order with basename and URL, and "N more" iff count > 5, with N = count − 5 |
| StorageLinkFixer.ProductImageUrl | fix-images.php:117 | a product image is served under `/storage//products/<name>`: the storage path is removed but its following slash stays |
| StorageLinkFixer.SampleOfProductImage | fix-images.php:117-118 | a product image's sample is its file name with that URL |
| PerformanceChecker.Checker.constructor | optimize.php:15-18 | every trailing `/` is stripped from the project path; the three lists start empty |
| PerformanceChecker.Checker.AddCheck | optimize.php:266-273 | one ✅ entry appended to the checks; warnings, errors and path unchanged |
| PerformanceChecker.Checker.AddWarning | optimize.php:275-282 | one ⚠️ entry appended to the warnings; checks, errors and path unchanged |
| PerformanceChecker.Checker.AddError | optimize.php:284-291 | one ❌ entry appended to the errors; checks, warnings and path unchanged |
| PerformanceChecker.Checker.CheckConfiguration | optimize.php:36-75 | the lists afterwards are the configuration step's function of the old lists and the files read |
| PerformanceChecker.Checker.CheckFiles | optimize.php:77-108 | the lists afterwards are the old ones with one entry per required file in order, then the bundler-configuration entry |
| PerformanceChecker.Checker.CheckEnvironment | optimize.php:110-140 | the lists afterwards are the environment step's function of the old lists and the environment |
| PerformanceChecker.Checker.CheckDependencies | optimize.php:142-194 | the lists afterwards are the old ones extended by the Laravel entry, one entry per required package, then the Vite and Vue entries |
| PerformanceChecker.Checker.GenerateReport | optimize.php:230-264 | the total is the sum of the three list sizes; the pass rate and verdict are those of PassRate and VerdictOf |
| PerformanceChecker.ListedBaseNames | optimize.php:81-173 | each entry name shown for a required file or package is the `basename` of what is checked |
| PerformanceChecker.FileListShape | optimize.php:89-96 | one entry per required file, a check per existing file and a warning per missing one, never an error; earlier entries stay in place |
| PerformanceChecker.MissingFileWarns | optimize.php:93-95 | a missing required file leaves a warning |
| PerformanceChecker.FilesShape | optimize.php:77-108 | `checkFiles` adds five entries, plus one when the bundler configuration exists, and never an error |
| PerformanceChecker.PackageListShape | optimize.php:169-175 | one entry per required package; no warning when every package is declared under `require` or `require-dev` |
| PerformanceChecker.DependenciesShape | optimize.php:142-194 | no error; with Laravel declared there is a check iff its constraint contains `11`; with it absent nothing is added |
| PerformanceChecker.ConfigurationShape | optimize.php:36-75 | an error iff the performance configuration is missing; at most four checks and warnings together |
| PerformanceChecker.EnvironmentShape | optimize.php:110-140 | four entries; errors for an old PHP and a missing Node.js; a warning iff Redis is missing |
| PerformanceChecker.VerdictOf | optimize.php:244-258 | ALL PASSED iff no errors and no warnings; READY WITH WARNINGS iff no errors and some warnings; ISSUES FOUND iff some error |
| PerformanceChecker.VerdictMonotone | optimize.php:244-258 | more warnings or errors never improve the verdict |
| PerformanceChecker.PassRate | optimize.php:232-233 | between 0 and 100; 0 when the total is 0 or nothing passed; 100 iff something passed and there are no warnings or errors |
| PerformanceChecker.RunShape | optimize.php:20-34 | over a run, errors exist iff the configuration is missing, PHP is below 8.2 or Node.js is unavailable; a missing file or Redis leaves a warning; at least ten entries (one per required file plus five) |
| PerformanceChecker.Run | optimize.php:20-34 | ISSUES FOUND iff the configuration is missing, PHP is below 8.2 or Node.js is unavailable; ALL PASSED needs Redis and every required file; at least ten entries (one per required file plus five) |
| Php.NatToStringRoundTrip | app/Helpers/PerformanceHelper.php:106 | the decimal rendering of a natural id, as it goes into a model key, reads back to the id |
| Strings.ContainsIffOccurs | packages/Webkul/Shop/vite.config.js:21-24 | the substring scan holds iff the text occurs at some position |
| Strings.SplitJoin | fix-images.php:151-156 | splitting a join of separator-free pieces gives the pieces back |
| Strings.JoinSplit | fix-images.php:151-156 | joining the pieces of a split gives the string back |
| Strings.BasenameOfPath | optimize.php:92 | the basename of `dir/f` is `f` for a non-empty, slash-free `f` |
| Glob.LiteralMatchesItself | app/Helpers/PerformanceHelper.php:133 | a wildcard-free pattern matches exactly itself |
| Glob.PrefixStar | app/Helpers/PerformanceHelper.php:144 | a literal followed by `*` matches exactly the keys it begins |

## Left out

- Symfony's `withoutCaching`, `setEtag`, `setPublic` and `setNotModified`: only
  their effect on a header map and a public flag is modelled. The headers
  `withoutCaching` writes are not.
- HttpCacheHeaders.Handle and HandleCorrected store the chosen `Cache-Control`
  policy verbatim. Symfony's header bag re-renders that header with its
  directives sorted, so the served text may list them in another order.
- The middleware pipeline `$next` is an input response. SHA-256 and HTTP-date
  formatting are function parameters. `now` is a parameter.
- PerformanceHelper.InvalidateCache gives the intended eviction, not what the
  code achieves against the stock stores. Both back ends are modelled as
  "forget every stored key that matches `perf:` + pattern". Laravel's file
  store names its files by a SHA-1 hash of the key, in nested directories, so
  the `glob` over `perf:<pattern>` in the data directory matches no file and
  nothing is removed. Redis `KEYS 'perf:…'` ignores the connection and cache
  prefixes the stored keys carry. The on-disk layout, the prefixes, and glob
  bracket classes and escapes are not modelled.
- PerformanceHelper.CacheResult: a non-positive `minutes` leaves a dead entry in
  the model, while Laravel forgets the key. Every lookup sees the same result.
- `chunk_query`: it is ORM `chunk` plus garbage collection, with no logic of its own.
- `measure_performance`'s timing, memory measurement and logging. Only the
  returned value is modelled.
- The ORM lookups `find` and `with(...)->find` are one function parameter.
- `number_format` and the float cast in `format`: an opaque function parameter.
  PHP floats are not part of the value model.
- PerformanceChecker.PassRate: an exact rational, not a float. The `(int)`
  truncation used when it is printed is not modelled.
- PerformanceChecker.Checker.AddCheck, AddWarning, AddError and the entry
  names of every check: optimize.php stores its status marks as mis-encoded
  bytes. The model uses the characters they evidently stand for (✅, ⚠️, ❌,
  ℹ️), so the entry texts differ from the script's bytes in their marks.
- optimize.php: `displayResults` and all console output are not modelled.
  `getenv`, `phpversion`/`version_compare`, `extension_loaded`, `exec('node
  --version')`, `file_exists`/`file_get_contents` and `json_decode` are inputs.
  A manifest that does not decode is the empty map.
- fix-images.php: `fixPermissions` (`chmod`), console output and `readlink` are
  not modelled.
- fix-images.php: `removeDirectory` and `mkdir` are assumed to succeed.
- fix-images.php: `public/storage` is a link, a directory or absent. Other kinds
  of file are not modelled.
- fix-images.php: the `glob` listing of product files is an input, in `glob`'s
  order.
- The strict VAT validator is not part of this model. It is a predicate
  parameter over (value, country).
- resources/js/utils/asyncComponents.js, the seeders, the views, the language
  files, the service providers and config/performance-dashboard.php are not
  part of this model. They are framework wiring, templates or data that no
  modelled code reads.

## Findings

| source | as written | input that shows it | evidently intended | confidence | as-written member | corrected member |
|---|---|---|---|---|---|---|
| app/Http/Middleware/SetHttpCacheHeaders.php:40-42 | the If-None-Match test strictly compares the whole array of client ETags with a one-element array holding the unquoted hash, so it never holds | a GET whose `If-None-Match` repeats the `ETag` the previous response carried: it gets the full decorated response, not a 304 | a 304 when a client tag equals the response's quoted ETag | not executed | HttpCacheHeaders.Handle | HttpCacheHeaders.HandleCorrected |
| fix-images.php:149-157 | `getRelativePath` drops common leading segments but never climbs with `..`, so the link `public/storage` gets the target `storage/app/public`, relative to `public/` | working directory `/srv/shop`: the link names `/srv/shop/public/storage/app/public`, a path through the link itself, not `/srv/shop/storage/app/public`; `is_link` still makes the final status READY | the target `../storage/app/public`, which resolves to the storage directory | not executed | StorageLinkFixer.LinkTargetMissesStorage | StorageLinkFixer.RelativePathRoundTrip |
