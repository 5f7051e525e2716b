# Notus advisory store, feed loader and result handler

A Dafny model of the Notus part of `ospd-openvas`: the advisory cache kept in
Redis, the loader that fills it from the signed `*.notus` feed files, the
normaliser that turns each raw advisory into the record the scanner queries,
and the handler that batches the results the Notus scanner sends for a scan.

- `text.dfy` (module `Text`): the string helpers the code relies on: the
  split after the last `/` used on Redis keys and by `Path.name`,
  `Path.stem`, and Python's `str()` of an integer.
- `normalizer.dfy` (module `Normalizer`): the raw advisory, the file-level
  metadata and the canonical record, and `__to_ospd` as the pure function
  `ToOspd`: fixed package-advisory fields, defaults for absent keys, the
  CVSS v3-then-v2 severity vector and the `refs` map.
- `store.dfy` (module `AdvisoryStore`): the Redis database as a map from key
  to list. `LPUSH` pushes onto the front and `LINDEX key 0` reads the front,
  so the latest write wins while older values stay in the list. The class
  `Cache` holds the database and its key prefix.
- `loader.dfy` (module `FeedLoader`): one reload pass as the functions
  `LoadAdvisories` and `LoadFiles`, the flag state machine as `Reload`,
  and the class `Notus`, whose `ReloadCache` runs the two nested loops of
  `reload_cache` against those functions. It also models
  `get_filenames_and_oids`, `exists` and `get_nvt_metadata`.
- `aggregator.dfy` (module `ResultAggregator`): the per-scan result buffers
  of `NotusResultHandler`. A pending 0.25-second timer is a scan id in a
  multiset. The report function is a fixed function value, and every call
  to it is recorded in order. Arbitrary interleavings of arrivals and timer
  firings are modelled as event sequences.

The feed directory is given as the sequence of its files in the order the
directory listing yields them, each already parsed. The signature verifier
is a function from path to boolean.

Two behaviours are modelled as the code has them, not as its comments or
names suggest:

- The wait in `reload_cache`, meant to block until the running load ends, is written
  `while not self.loading`. It is reached only when `loading` is true, so it
  never runs, and a reload requested while another is running returns at
  once without waiting.
- `exists` and `get_nvt_metadata` of `Notus` read the cache without
  triggering a reload. Only `get_filenames_and_oids` reloads first.

## Model

| member | source | states |
|---|---|---|
| Text.LastIndexOf | ospd_openvas/notus.py:53 | the index of the last occurrence of the separator, with no occurrence after it, and -1 exactly when it is absent |
| Text.LastSegment | ospd_openvas/notus.py:53 | `rsplit('/', 1)[-1]` gives a suffix of the key that holds no '/', and the whole key when it has none |
| Text.LastSegmentAfterLastSlash | ospd_openvas/notus.py:53 | when the key holds a '/', the segment starts right after the last one |
| Text.LastSegmentOfJoin | ospd_openvas/notus.py:40-53 | splitting a key built as `prefix/oid` gives the oid back whenever the oid holds no '/' |
| Text.LastSegmentLosesSlashedOid | ospd_openvas/notus.py:40-53 | for every prefix and every oid holding a '/', the key split gives back only the oid's own last segment, never the oid |
| Text.Stem | ospd_openvas/notus.py:136 | `Path.stem` drops the suffix from the last '.' when that dot is neither the first nor the last character, and is otherwise the whole name |
| Text.StemOfFeedFile | ospd_openvas/notus.py:136 | the stem of `<family>.notus` is `<family>` for every non-empty family, dots included |
| Text.NatToDecimal | ospd_openvas/notus.py:102-104 | the decimal rendering of a natural number is non-empty and all digits |
| Text.NatToDecimalDenotes | ospd_openvas/notus.py:102-104 | the rendering denotes the number, and starts with '0' only when it is "0" |
| Text.IntToDecimal | ospd_openvas/notus.py:102-104 | `str()` of an integer is non-empty and starts with '-' exactly when the integer is negative |
| Text.IntToDecimalDenotes | ospd_openvas/notus.py:102-104 | `str()` of an integer is an optional '-' followed by digits, with no leading zero after the sign or without one, and denotes the integer |
| Normalizer.SeverityVector | ospd_openvas/notus.py:116-120 | the v3 vector when it is truthy, otherwise the v2 value as given; nothing when the advisory has no severity; never a value from elsewhere |
| Normalizer.BuildRefs | ospd_openvas/notus.py:122-135 | `url` is the advisory xref (or "") followed by the xrefs; `cve` is present exactly when the CVE list is non-empty; `advisory_id` is present exactly when the id is non-empty; no other key |
| Normalizer.ToOspdFields | ospd_openvas/notus.py:97-139 | category "3", VendorFix, the fixed solution and detection texts and empty vt_params; filename is the base name; family falls back to the stem; name falls back to ""; qod_type falls back to "package"; each date is `str()` of the given value (`Str`, whose integer case IntToDecimalDenotes pins down) and "0" when absent; modification time equals last modification; text fields are copied. `ToOspd`, the model of `__to_ospd`, is stated by this lemma, RefsRoundTrip and FamilyDefaultsToStem |
| Normalizer.RefsRoundTrip | ospd_openvas/notus.py:122-135 | the CVEs, the URLs and the advisory id are read back from the refs exactly as the advisory gave them |
| Normalizer.FamilyDefaultsToStem | ospd_openvas/notus.py:121-136 | a file `dir/<family>.notus` without a family key gives its records the family `<family>` and the file name `<family>.notus`, for families with dots such as `ubuntu-20.04` too |
| Normalizer.DebianExample | ospd_openvas/notus.py:116-135 | a concrete advisory with both CVSS vectors and one CVE: the v3 vector wins, the CVE is listed, and the URL list is `[""]` |
| Normalizer.DebianExampleDefaults | ospd_openvas/notus.py:100-138 | for the same advisory: the file's family, category "3", QoD type "package", creation date "0" and an empty name |
| AdvisoryStore.Push | ospd_openvas/notus.py:39-40 | `LPUSH` puts the value at the front of the key's list, keeps the old list behind it, touches no other key, and never leaves an empty list |
| AdvisoryStore.Latest | ospd_openvas/notus.py:45-49 | `LINDEX 0` gives nothing exactly when the key is absent or its list is empty, and otherwise the front of the list |
| AdvisoryStore.KeysUnderEnumeratesOids | ospd_openvas/notus.py:51-53 | every oid stored under the prefix without a '/' is enumerated, and no enumerated name holds a '/' |
| AdvisoryStore.StoreThenRead | ospd_openvas/notus.py:39-49 | latest wins: a stored value is read back at once, and a second store hides it while keeping it second in the list above the older values |
| AdvisoryStore.Cache.constructor | ospd_openvas/notus.py:35-37 | the cache wraps the given database under the given prefix |
| AdvisoryStore.Cache.StoreAdvisory | ospd_openvas/notus.py:39-40 | the database becomes the push of the value under `prefix/oid`, and the returned length is the old list's length plus one |
| AdvisoryStore.Cache.Exists | ospd_openvas/notus.py:42-43 | an oid exists exactly when an advisory can be read for it |
| AdvisoryStore.Cache.GetAdvisory | ospd_openvas/notus.py:45-49 | nothing exactly when the key is absent or empty, otherwise the most recently stored value |
| AdvisoryStore.Cache.GetKeys | ospd_openvas/notus.py:51-53 | every name is the last segment of a stored key under the prefix and holds no '/', and every stored oid without a '/' is among the names |
| FeedLoader.LoadAdvisories | ospd_openvas/notus.py:86-89 | pushing the records of one file's advisories in order never leaves an empty list in the store |
| FeedLoader.LoadFiles | ospd_openvas/notus.py:83-93 | a pass over the feed files in order never leaves an empty list in the store |
| FeedLoader.Reload | ospd_openvas/notus.py:75-95 | a reload while loading changes nothing; otherwise the store becomes what the pass leaves, loading is released on every way out, and the cache counts as loaded exactly when the pass ran to the end |
| FeedLoader.ReloadAsWritten | ospd_openvas/notus.py:75-95 | as written, the store is what the pass leaves, and the loader stays loading, and not loaded, exactly when the pass raised |
| FeedLoader.ReloadAsWrittenSticks | ospd_openvas/notus.py:75-89 | one verified file with an advisory lacking an oid leaves the loader loading for good: every later reload returns at once |
| FeedLoader.LoadAdvisoriesOverlay | ospd_openvas/notus.py:87-89 | whether a file's pass completes does not depend on the store, and the value read afterwards is the pass's own latest value for the key, or else the old one |
| FeedLoader.LoadFilesOverlay | ospd_openvas/notus.py:83-93 | the same for a whole pass over the feed |
| FeedLoader.ReloadTwiceReadsAsOnce | ospd_openvas/notus.py:75-95 | reloading an unchanged feed twice gives the same flags and reads the same latest value under every key as reloading once |
| FeedLoader.LoadAdvisoriesExtends | ospd_openvas/notus.py:87-89 | a file's pass only pushes: every old list stays as the tail of the new one |
| FeedLoader.LoadFilesExtends | ospd_openvas/notus.py:83-93 | a whole pass never drops or rewrites a stored value |
| FeedLoader.AdvisoriesStored | ospd_openvas/notus.py:87-89 | after a file's pass that completes, every advisory had an oid and its record is in the list under that oid |
| FeedLoader.VerifiedAdvisoriesStored | ospd_openvas/notus.py:83-89 | after a pass that completes, the record of every advisory of every verified file is in the list under its oid |
| FeedLoader.Accepted | ospd_openvas/notus.py:84 | a file is kept exactly when it is in the feed and the verifier accepts it |
| FeedLoader.AcceptedCounts | ospd_openvas/notus.py:84 | each accepted file is kept as often as the feed holds it, and a rejected one never |
| FeedLoader.AcceptedAppend | ospd_openvas/notus.py:83-84 | the filter keeps the feed's order: filtering a concatenation concatenates the filtered parts |
| FeedLoader.RejectedFilesContributeNothing | ospd_openvas/notus.py:83-93 | a pass over the feed equals the pass over the verified files alone |
| FeedLoader.LoadNextAdvisory | ospd_openvas/notus.py:87-89 | one more advisory either stops the pass, when it has no oid, or pushes its normalised record under its oid |
| FeedLoader.LoadAdvisoriesStops | ospd_openvas/notus.py:87-89 | once an advisory without an oid has raised, the rest of the file is not stored |
| FeedLoader.LoadFilesStops | ospd_openvas/notus.py:83-89 | once the pass has raised, no later file is read |
| FeedLoader.FilenamesAndOids | ospd_openvas/notus.py:141-147 | each pair yielded is an oid that the key scan gives, holding no '/', with the file name of the latest record stored for it |
| FeedLoader.FilenamesAndOidsComplete | ospd_openvas/notus.py:144-147 | every stored oid without a '/' is yielded with the file name of its latest record |
| FeedLoader.Notus.constructor | ospd_openvas/notus.py:56-73 | a new loader is neither loaded nor loading and uses the given cache and verifier |
| FeedLoader.Notus.ReloadCache | ospd_openvas/notus.py:75-95 | the new store and flags are those of the reload function applied to the old state, and the result is false exactly when the pass raised |
| FeedLoader.Notus.StoreFileAdvisories | ospd_openvas/notus.py:86-89 | the store after the loop over one file's advisories is that of the file's pass, and the result says whether it completed |
| FeedLoader.Notus.GetFilenamesAndOids | ospd_openvas/notus.py:141-147 | reloads only when not loaded; gives nothing exactly when that reload raised; otherwise gives the pairs of the store as it then is |
| FeedLoader.Notus.ReadFilenamesAndOids | ospd_openvas/notus.py:144-147 | the loop over the keys collects exactly the filename and oid pairs of the store, skipping keys with nothing to read |
| FeedLoader.Notus.Exists | ospd_openvas/notus.py:149-150 | an oid exists exactly when its metadata can be read, without a reload |
| FeedLoader.Notus.GetNvtMetadata | ospd_openvas/notus.py:152-153 | nothing exactly when no value is stored for the oid, otherwise the latest one, without a reload |
| ResultAggregator.Receive | ospd_openvas/notus.py:173-188 | the result is appended to its scan's buffer, no other buffer changes, a timer is started exactly when the scan had no buffer, and nothing is reported |
| ResultAggregator.Flush | ospd_openvas/notus.py:163-171 | the scan's buffer is removed with its timer, other buffers are kept, and one call of the report function with the whole buffer is recorded |
| ResultAggregator.ReceiveKeepsInv | ospd_openvas/notus.py:173-188 | receiving keeps exactly one pending timer per buffered scan and no empty buffer |
| ResultAggregator.FlushKeepsInv | ospd_openvas/notus.py:163-171 | flushing keeps exactly one pending timer per buffered scan and no empty buffer |
| ResultAggregator.StepConserves | ospd_openvas/notus.py:163-188 | one event neither loses nor reorders a scan's results: reported then buffered grows by exactly the arriving result |
| ResultAggregator.ResultsConserved | ospd_openvas/notus.py:163-188 | over any interleaving of arrivals and timer firings, a scan's reported results followed by its buffered ones are its earlier ones followed by every arrival, in order |
| ResultAggregator.RunArrivals | ospd_openvas/notus.py:173-188 | results of one scan arriving in a row are appended in order, and only the first of them starts a timer |
| ResultAggregator.OneBatchPerWindow | ospd_openvas/notus.py:163-188 | results of an idle scan arriving before its timer fires are reported as one batch in arrival order, after which the handler is back where it started |
| ResultAggregator.NotusResultHandler.constructor | ospd_openvas/notus.py:159-161 | a new handler has no buffers, no timers and has reported nothing |
| ResultAggregator.NotusResultHandler.ResultHandler | ospd_openvas/notus.py:173-188 | the new state is the receive step of the old one, and a timer is scheduled exactly when the scan had no buffer |
| ResultAggregator.NotusResultHandler.ReportResults | ospd_openvas/notus.py:163-171 | the new state is the flush step of the old one, and the result is the report function's answer for the scan's whole buffer |

## Left out

- The Redis client is a map from key to list. Connections, JSON
  serialisation of the stored values, and bytes-versus-text keys are not
  modelled. A stored record is read back as the same value.
- `glob('*.notus')` and `read_bytes` are not modelled. The feed is given as
  the sequence of its parsed files. A file that is not valid JSON, or whose
  `advisories` is not a list, is not modelled.
- A JSON `null` is not told apart from an absent key. The date fields are
  integers or strings; `str()` of any other JSON value is not modelled.
- The prefix is used as given. Glob metacharacters in it, which
  `SCAN MATCH` would interpret, are not modelled.
- Blocking while another reload runs, threads, and the 0.25-second timers
  are not modelled. A pending timer is a scan id in a multiset, and its
  firing is an event of a sequence.
- Logging is not modelled: the warning for a rejected signature and for a
  report the report function refused.
- `NotusParser` and `ResultMessage.serialize` are not part of this model. A
  message is its scan id and the rest of its serialized form.
- FeedLoader.Notus.ReloadCache: follows the corrected reload. When an
  advisory without an oid raises, the class sets `loading` back to false and
  returns false, where the source leaves `loading` set (the as-written
  behaviour is `ReloadAsWritten`). The raised KeyError is not propagated.
  Since every call ends with `loading` false, the early return for a reload
  already under way is reached only by a call made during another reload,
  which this sequential model does not have.
- FeedLoader.Notus.GetFilenamesAndOids: after a reload that raised, the next
  call reloads again and gives nothing if it raises again. In the source the
  stuck `loading` makes that call return from the reload at once and yield
  the partly loaded store.
- FeedLoader.Notus.GetFilenamesAndOids: the generator is modelled as the set of pairs
  it yields. The order in which `SCAN` visits keys is not modelled.

## Findings

| source | as written | input that shows it | evidently intended | confidence | as-written member | corrected member |
|---|---|---|---|---|---|---|
| ospd_openvas/notus.py:81-95 | an advisory without an `oid` raises KeyError out of the loop, so `self.loading = False` is never reached | one verified feed file whose only advisory has no `oid` key | the loading flag is released on every way out, so a later reload can run | medium, not executed | FeedLoader.ReloadAsWrittenSticks | FeedLoader.Reload |
