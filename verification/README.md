# Vault loader model

A Dafny model of the control logic of `VaultLoader` in the DANS migration
verifier. Given a bag identifier, the loader asks the bag index about the
bag and skips it unless it is the base (first) version of its lineage. It then
processes the bag alone, or the whole lineage in comparator order. For each bag
version it produces the expected-state records that a later step compares
against the migrated dataset: one `ExpectedFile` per manifest entry, one per
migration-only metadata file, and an `ExpectedDataset`. A bag with an empty
`dataset.xml` instead produces a single deleted `ExpectedDataset`.

The model is functional. Every remote fetch is a field of `Services`, a
function from an identifier to `Fetched<T>`: either the body or a transport
failure. Collaborators whose code lies outside the loader are fields of
`Collaborators`. These are the bag-index JSON decoder, the `dataset.xml` rights
and license readers, `DatasetRights.expectedDataset`,
`FileRights.applyDefaults` and `BagInfoComparator`. The account-substitution
table is a plain map. Saving becomes appending to the `records` of a `Run`. A
thrown exception becomes the run's `error`. Records saved before the exception
stay in the run, as they stay in the database.

Modules:

- `Wrappers`: `Option` (Java `null`) and `Result`.
- `Records`: rights, manifest entries, expected records, the `Error` kinds and
  `Run`.
- `BagIndex`: `BagInfo`, the `NotFound` placeholder (every field null) and the
  reading of a bag-index reply.
- `Depositor`: the depositor account in `bag-info.txt`, Java's `String.trim`,
  and the `.*:` replacement.
- `Ordering`: a stable insertion sort driven by a Java-style comparator.
- `VaultLoader`: per-bag emission (`ProcessBag`, `CreateAll`, `EmitBag`) and
  dispatch (`Classify`, `PlanWith`, `RunCalls`, `LoadFromVault`).
- `LoaderProperties`: lemmas relating whole loads to their inputs.

Notes on how the model reads the code:

- A lineage is resolved in full before any bag is processed, because
  `sorted()` consumes the whole stream first. So a load is modelled as a plan
  (the list of `processBag` calls, or an error) followed by running the calls.
  A transport failure while resolving any member aborts before anything is
  saved.
- `processBag` is keyed by a string. A member whose `baseId` is null is fetched
  under `"null"`, which is what Java's `uuid + "/"` produces (`KeyOf`).
- `bagId.equals(baseId)` is false when `baseId` is null (`IsBase`).
- `bag-info.txt` and the bag-sequence reply are modelled as sequences of lines,
  already split at the line separator. A header line may still hold other
  line terminators, such as the carriage return of a CRLF file. Java's regex
  `.` does not match a terminator, so `replaceAll(".*:", "")` strips each
  terminator-free stretch up to and including its last `:` and keeps the
  terminators. A stretch without `:` is kept whole.
- `String.trim` strips characters at or below U+0020 from both ends.
- The loader decides that `dataset.xml` is empty from the length of its UTF-8
  bytes. That length is zero exactly when the string is empty.

## Model

| member | source | states |
|---|---|---|
| `BagIndex.ReadBagInfo` | src/main/java/nl/knaw/dans/migration/core/VaultLoader.java:201-219 | an empty reply and an undecodable reply both give the `NotFound` placeholder (null bag id); only a transport failure is an error; a found bag id always comes from a decoded non-empty reply |
| `Depositor.Trim` | src/main/java/nl/knaw/dans/migration/core/VaultLoader.java:190 | the result is a slice `s[a..b]` where everything outside the slice is at or below U+0020 and neither end of the result is |
| `Depositor.TrimStart` | src/main/java/nl/knaw/dans/migration/core/VaultLoader.java:190 | removes exactly the leading run of characters at or below U+0020 |
| `Depositor.TrimEnd` | src/main/java/nl/knaw/dans/migration/core/VaultLoader.java:190 | removes exactly the trailing run of characters at or below U+0020 |
| `Depositor.TrimIdempotent` | src/main/java/nl/knaw/dans/migration/core/VaultLoader.java:190 | trimming an already trimmed depositor changes nothing |
| `Depositor.AfterLastColon` | src/main/java/nl/knaw/dans/migration/core/VaultLoader.java:190 | on a stretch without terminators, the result is the longest suffix holding no `:`; it is preceded by `:` unless it is the whole stretch |
| `Depositor.DropColonPrefixes` | src/main/java/nl/knaw/dans/migration/core/VaultLoader.java:190 | no `:` survives the replacement; on a line without terminators it is `AfterLastColon` |
| `Depositor.StretchesStrippedApart` | src/main/java/nl/knaw/dans/migration/core/VaultLoader.java:190 | the replacement never reaches across a line terminator: the stretch before it and the text after it are stripped independently, and the terminator stays |
| `Depositor.CarriageReturnIgnored` | src/main/java/nl/knaw/dans/migration/core/VaultLoader.java:187-190 | an account line of a CRLF header, `key:value` followed by a carriage return, still yields exactly the trimmed value |
| `Depositor.AfterColonSuffix` | src/main/java/nl/knaw/dans/migration/core/VaultLoader.java:190 | for `head:tail` with no `:` in `tail`, exactly `tail` survives, whatever colons `head` holds |
| `Depositor.FirstAccountLine` | src/main/java/nl/knaw/dans/migration/core/VaultLoader.java:187-191 | the index of the first line starting with `EASY-User-Account`; no earlier line starts with it; `|lines|` when none does |
| `Depositor.ReadDepositor` | src/main/java/nl/knaw/dans/migration/core/VaultLoader.java:187-194 | fails, naming the bag, exactly when no line starts with `EASY-User-Account`; otherwise yields the trimmed result of the colon replacement on the first such line |
| `Depositor.LaterLinesIgnored` | src/main/java/nl/knaw/dans/migration/core/VaultLoader.java:191 | once a header has an account line, appending lines does not change which line is used |
| `Depositor.Account` | src/main/java/nl/knaw/dans/migration/core/VaultLoader.java:119 | the substitute when the table has the depositor as a key, the depositor itself otherwise |
| `Ordering.Insert` | src/main/java/nl/knaw/dans/migration/core/VaultLoader.java:95 | inserting adds exactly the one element (multiset) |
| `Ordering.Sort` | src/main/java/nl/knaw/dans/migration/core/VaultLoader.java:92-95 | the sorted lineage is a permutation of the resolved lineage |
| `Ordering.InsertSorted` | src/main/java/nl/knaw/dans/migration/core/VaultLoader.java:95 | under a comparator that meets its contract, inserting into an ordered sequence keeps it ordered |
| `Ordering.SortSorted` | src/main/java/nl/knaw/dans/migration/core/VaultLoader.java:95 | under a comparator that meets its contract, the result is ordered by the comparator |
| `Ordering.SortedLastIsLatest` | src/main/java/nl/knaw/dans/migration/core/VaultLoader.java:95-100 | the last element of an ordered sequence is one that every element may precede |
| `Ordering.LatestOfPermutation` | src/main/java/nl/knaw/dans/migration/core/VaultLoader.java:92-95 | being a latest member does not depend on the order of the list |
| `Ordering.SortedPermutationUnique` | src/main/java/nl/knaw/dans/migration/core/VaultLoader.java:95 | when no two distinct elements compare as zero, two ordered permutations of one collection are equal |
| `Ordering.SortIgnoresInputOrder` | src/main/java/nl/knaw/dans/migration/core/VaultLoader.java:95 | when no two distinct elements of the input compare as zero, the sort's result does not depend on the order of its input |
| `Ordering.DistinctKeysNoTies` | src/main/java/nl/knaw/dans/migration/core/VaultLoader.java:95 | a comparator that compares two members as equal only when their keys (of any type, such as the `created` field) are equal has no ties among members whose keys differ pairwise; nothing is assumed about values outside the members |
| `Ordering.PermutedImages` | src/main/java/nl/knaw/dans/migration/core/VaultLoader.java:92-94 | mapping two permutations of one list element by element gives two permutations of one list |
| `VaultLoader.CreateExpected` | src/main/java/nl/knaw/dans/migration/core/VaultLoader.java:132-137 | succeeds exactly when the path has rights; the file record carries the doi, the manifest entry and `applyDefaults(fileRights[path], defaults)`; otherwise the error names the path |
| `VaultLoader.CreateAll` | src/main/java/nl/knaw/dans/migration/core/VaultLoader.java:123-125 | one record per manifest entry, in manifest order, all carrying the doi; stops at the first path without rights, keeping the records before it and reporting that path |
| `VaultLoader.MigrationRecords` | src/main/java/nl/knaw/dans/migration/core/VaultLoader.java:106 | one file record per migration-only name, in the listed order, with the dataset default rights |
| `VaultLoader.EmitBag` | src/main/java/nl/knaw/dans/migration/core/VaultLoader.java:123-129 | completes exactly when every manifest path has rights; then it emits manifest count + 3 + 1 records ending with the dataset record, every record carrying the doi |
| `VaultLoader.ProcessBag` | src/main/java/nl/knaw/dans/migration/core/VaultLoader.java:108-130 | every record carries the bag's doi; a completed bag ends with its dataset record, and a dataset record appears only there; an empty `dataset.xml` gives exactly one deleted dataset record |
| `VaultLoader.ProcessDataset` | src/main/java/nl/knaw/dans/migration/core/VaultLoader.java:117-119 | a header fetch failure or a header without an account line aborts the bag before anything is saved |
| `VaultLoader.ProcessFiles` | src/main/java/nl/knaw/dans/migration/core/VaultLoader.java:122-123 | a failure fetching `files.xml` or the manifest aborts the bag before anything is saved |
| `VaultLoader.ResolveAll` | src/main/java/nl/knaw/dans/migration/core/VaultLoader.java:92-94 | succeeds exactly when every member's bag-index fetch succeeds; then member i resolves to element i; otherwise the error is the transport failure of the first listed member whose fetch fails |
| `VaultLoader.Classify` | src/main/java/nl/knaw/dans/migration/core/VaultLoader.java:80-95 | skip exactly for an unknown or non-base bag; a single bag is the looked-up bag with a listing of at most one; a lineage is the sort of all resolved members |
| `VaultLoader.CallsFor` | src/main/java/nl/knaw/dans/migration/core/VaultLoader.java:97-100 | one call per member in order, keyed as the keying asks |
| `VaultLoader.BaseCases` | src/main/java/nl/knaw/dans/migration/core/VaultLoader.java:82-84 | a bag counts as a base exactly when both ids are present and equal; the not-found placeholder and a bag with a null base id never count; a base is keyed the same by either id |
| `VaultLoader.KeyOf` | src/main/java/nl/knaw/dans/migration/core/VaultLoader.java:99 | a present id is its own key; a null id becomes the string `"null"` |
| `VaultLoader.DatasetFor` | src/main/java/nl/knaw/dans/migration/core/VaultLoader.java:119-120 | the dataset record is the one for the substituted account when the table has the depositor, for the depositor itself otherwise; its license is the one read for the dataset's access category |
| `VaultLoader.PlanWith` | src/main/java/nl/knaw/dans/migration/core/VaultLoader.java:80-100 | fails exactly when the dispatch fails, with its error; plans nothing exactly for an unknown or non-base bag; one call under the requested id for a single bag; for a lineage, one call per listed member, over the ordered members |
| `VaultLoader.RunCalls` | src/main/java/nl/knaw/dans/migration/core/VaultLoader.java:96-100 | a run completes exactly when every call's bag is processed without an error |
| `VaultLoader.LoadFromVaultOwnBags` | src/main/java/nl/knaw/dans/migration/core/VaultLoader.java:97-100 | corrected loader: identical dispatch, single-bag and error behaviour; a lineage member is processed under its own bag id |
| `VaultLoader.RunSingle` | src/main/java/nl/knaw/dans/migration/core/VaultLoader.java:89-90 | running one call is processing that one bag |
| `VaultLoader.LoadFromVault` | src/main/java/nl/knaw/dans/migration/core/VaultLoader.java:79-103 | a lookup failure aborts with nothing saved; an unknown or non-base bag saves nothing and does not fail; a single-bag lineage is one `ProcessBag` under the requested id; a sequence fetch failure aborts |
| `LoaderProperties.NonBaseIgnoresSequence` | src/main/java/nl/knaw/dans/migration/core/VaultLoader.java:82-88 | for a skipped bag the bag-sequence service is never consulted: replacing it changes nothing |
| `LoaderProperties.SingleBagProcessedOnce` | src/main/java/nl/knaw/dans/migration/core/VaultLoader.java:88-90 | with a listing of at most one element, exactly one call is planned, keyed by the input id and using its own BagInfo |
| `LoaderProperties.LineageProcessedInOrder` | src/main/java/nl/knaw/dans/migration/core/VaultLoader.java:91-100 | every listed member is resolved; the calls are a permutation of the resolved members, ordered by the comparator, each keyed by that member's base id |
| `LoaderProperties.MemberLookupFailureAborts` | src/main/java/nl/knaw/dans/migration/core/VaultLoader.java:92-95 | a transport failure on any member aborts the load before any bag is processed, with the error of the first listed member whose fetch fails |
| `LoaderProperties.ResolvedPermuted` | src/main/java/nl/knaw/dans/migration/core/VaultLoader.java:92-94 | resolving a reordered listing succeeds exactly as often and gives a reordering of the same descriptions |
| `LoaderProperties.ReorderedListingSamePlan` | src/main/java/nl/knaw/dans/migration/core/VaultLoader.java:88-95 | when no two distinct resolved members compare as zero, a bag-sequence reply listing the same members in another order gives the same calls, and a plan that fails for one fails for the other |
| `LoaderProperties.RunCallsAppend` | src/main/java/nl/knaw/dans/migration/core/VaultLoader.java:97-100 | running a + b is running a and then b, and a failure in a stops everything after it |
| `LoaderProperties.LastVersionDecides` | src/main/java/nl/knaw/dans/migration/core/VaultLoader.java:97-100 | the last record of a completed run is the last call's dataset record, with that call's doi |
| `LoaderProperties.LastCallDecides` | src/main/java/nl/knaw/dans/migration/core/VaultLoader.java:97-100 | in a completed run over a lineage's calls, the last record is the last member's dataset record, with its doi |
| `LoaderProperties.LatestMemberDecides` | src/main/java/nl/knaw/dans/migration/core/VaultLoader.java:91-100 | in a completed lineage load, the final record is a DatasetRec carrying a latest member's doi; it is the record that member's own processing ends with |
| `LoaderProperties.LatestVersionDecidesDataset` | src/main/java/nl/knaw/dans/migration/core/VaultLoader.java:91-100 | as written, the final record is what a latest member gives when its resources are fetched under its base id |
| `LoaderProperties.LineageReadsBaseBagOnly` | src/main/java/nl/knaw/dans/migration/core/VaultLoader.java:99 | as written, when all members share one base, every call fetches the base bag; a member with a different bag id is never fetched under it |
| `LoaderProperties.OwnBagsAgreeOutsideLineage` | src/main/java/nl/knaw/dans/migration/core/VaultLoader.java:79-100 | the corrected loader equals the one as written outside a lineage; within one, it visits the same members in the same order and keys a base member alike |
| `LoaderProperties.OwnBagsLatestVersionDecides` | src/main/java/nl/knaw/dans/migration/core/VaultLoader.java:97-100 | corrected, the final record is what a latest member's own bag gives |
| `LoaderProperties.DeletedBagIgnoresMetadata` | src/main/java/nl/knaw/dans/migration/core/VaultLoader.java:110-116 | an empty `dataset.xml` gives exactly one record: deleted, with the bag's doi; the header, `files.xml`, the manifest and the account table are never consulted |
| `LoaderProperties.ReadableBagEmits` | src/main/java/nl/knaw/dans/migration/core/VaultLoader.java:108-129 | a bag whose `dataset.xml`, header, `files.xml` and manifest all read reaches the emitting step with exactly those inputs, the rights read from `dataset.xml` and the dataset record for the header's depositor |
| `LoaderProperties.EmitBagCompletes` | src/main/java/nl/knaw/dans/migration/core/VaultLoader.java:123-129 | when every manifest path has rights, a record is created for every manifest entry, and the bag emits those, then the migration records, then the dataset record |
| `LoaderProperties.CompletedLayout` | src/main/java/nl/knaw/dans/migration/core/VaultLoader.java:123-129 | in a completed bag, position j < manifest count holds entry j's file record, the next three hold `provenance.xml`, `dataset.xml` and `files.xml`, and the last holds the dataset record |
| `LoaderProperties.BagRecordsInOrder` | src/main/java/nl/knaw/dans/migration/core/VaultLoader.java:117-129 | a readable bag emits one file record per manifest entry in order, with defaulted rights; then `provenance.xml`, `dataset.xml` and `files.xml` with the default rights; then the dataset record for the substituted account, with the license and the doi |
| `LoaderProperties.MissingRightsAbortsBag` | src/main/java/nl/knaw/dans/migration/core/VaultLoader.java:123-136 | the first manifest path without rights aborts the bag; the records of the entries before it are kept, and no migration or dataset record is emitted |
| `LoaderProperties.NoAccountAbortsBag` | src/main/java/nl/knaw/dans/migration/core/VaultLoader.java:117 | a non-empty dataset whose header has no account line aborts before anything is saved |

## Findings

| source | as written | input that shows it | evidently intended | confidence | as-written member | corrected member |
|---|---|---|---|---|---|---|
| src/main/java/nl/knaw/dans/migration/core/VaultLoader.java:99 | each member of a multi-version lineage is processed as `processBag(info.getBaseId(), info)`, so its `dataset.xml`, `bag-info.txt`, `files.xml` and manifest are fetched under the base bag's id | a lineage listing `b1, b2` where `b2` has `bagId = b2` and `baseId = b1`: both calls fetch `bags/b1/…`, and `b2`'s own files are never read | process each member under its own `bagId`, so that the latest version's files decide the final expected state | medium, not executed | `LoaderProperties.LineageReadsBaseBagOnly`, `LoaderProperties.LatestVersionDecidesDataset` | `LoaderProperties.OwnBagsLatestVersionDecides` (about `VaultLoader.LoadFromVaultOwnBags`) |

`LoadFromVault` keeps the code as written, because it is the behaviour the
loader has. `LoadFromVaultOwnBags` differs from it only in the key that lineage
members are fetched under (`Keying.ByBagId`). The two share all other
definitions.

## Left out

- HTTP request building and execution (`URI.resolve`, `URIBuilder`,
  `executeReq`) are left out. Each fetch is a function from the bag identifier
  to its body or a transport failure. Which URL is requested is not modelled.
- Jackson decoding of the bag-index envelope is left out, because it is a
  foreign library. It is the parameter `decodeBagInfo`, and `None` means the
  reply does not parse. A reply that parses but has no result (a
  `NullPointerException` in Java) is not modelled.
- The XML readers (`DatasetRightsHandler`, `DatasetLicenseHandler`,
  `FileRightsHandler`) and `ManifestCsv.parse` are not part of this model.
  Their results are given: `files.xml` and the manifest arrive parsed, and the
  rights and license readers are parameters that cannot fail.
- `DatasetRights.expectedDataset` and the `ExpectedFile` constructor are not
  part of this model. The dataset record a depositor account yields is the
  parameter `datasetRecord`. A file record keeps its manifest entry as given.
  The fields of `ExpectedDataset` other than doi, deleted, depositor, access
  category and license are left out.
- `FileRights.applyDefaults` and `BagInfoComparator` are not part of this
  model, so they are parameters. No tie-break rule and no idempotence is
  claimed for them. Sortedness is proved only for comparators that meet the
  `java.util.Comparator` contract (`IsTotalPreorder`). That the ordered result
  is the only one, and so equals Java's, is proved only when no two distinct
  members being sorted compare as zero (`IsTieFreeOn`). Values outside the
  lineage may tie. A comparator that calls two members equal only when their
  `created` values are equal meets this for members with distinct `created`
  values (`DistinctKeysNoTies`). When members tie, the
  model's insertion sort is stable, as Java's list sort is, but the two are
  not shown to agree.
- `expectedMigrationFiles`, `retriedSave`, `saveExpectedDataset` and the DAOs
  belong to `ExpectedLoader`, which is not part of this model. Saving is
  appending to the run's records. Retries and persistent write failures are
  not modelled. A migration-only file is recorded by its name with the
  dataset default rights.
- Logging, the constructor, `ObjectMapper` set-up and `Accounts.load` are left
  out. The substitution table is a plain map in `Env`.
- Java's `String.split` on `System.lineSeparator()` is left out. Both the
  header and the bag-sequence reply are given as already split lines.
  An empty sequence reply, which Java splits into one empty line, counts as a
  listing of at most one element either way.
- Exceptions the comparator could raise on a not-found member (null fields)
  are not modelled. Such a member is sorted and processed under the key
  `"null"`.
