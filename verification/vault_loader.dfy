/** The control logic of the vault loader: which bags of a lineage are
    processed, in what order, and which expected records each produces.
    Remote fetches, parsers and the comparator are pure parameters. */
module VaultLoader {
  import opened Wrappers
  import opened Records
  import opened BagIndex
  import Depositor
  import Ordering

  /** The remote resources, one fetch per kind, each keyed by a bag
      identifier. Manifest and `files.xml` come already parsed. */
  datatype Services = Services(
    bagIndex: string -> Fetched<string>,
    bagSequence: string -> Fetched<seq<string>>,
    datasetXml: string -> Fetched<string>,
    bagInfoTxt: string -> Fetched<seq<string>>,
    filesXml: string -> Fetched<map<string, FileRights>>,
    manifest: string -> Fetched<seq<ManifestEntry>>)

  /** Collaborators whose definitions lie outside the loader. */
  datatype Collaborators = Collaborators(
    /** Reads the bag-index JSON envelope; `None` when it does not parse. */
    decodeBagInfo: string -> Option<BagInfo>,
    /** Dataset rights read from `dataset.xml`. */
    datasetRights: string -> DatasetRights,
    /** The dataset record the rights describe, for a depositor account. */
    datasetRecord: (DatasetRights, string) -> ExpectedDataset,
    /** The license read from `dataset.xml` and the access category. */
    license: (string, string) -> string,
    /** `explicit.applyDefaults(defaults)`. */
    applyDefaults: (FileRights, FileRights) -> FileRights,
    /** The lineage comparator. */
    compare: (BagInfo, BagInfo) -> int)

  datatype Env = Env(services: Services, collaborators: Collaborators, substitutes: map<string, string>)

  /** Metadata files that exist in every migrated bag but are not in its
      payload manifest. */
  const MigrationFiles: seq<string> := ["provenance.xml", "dataset.xml", "files.xml"]

  /** The key a bag is fetched under; Java's string concatenation turns a
      null identifier into "null". */
  function KeyOf(id: Option<string>): (k: string)
    ensures id.Some? ==> k == id.value
    ensures id.None? ==> k == "null"
  {
    id.GetOr("null")
  }

  /** Only a bag that names itself as its base heads a lineage: the
      `NotFound` placeholder and a bag without a base id never do, and a
      base bag's base id and bag id give the same key. */
  lemma BaseCases(info: BagInfo)
    ensures !IsBase(NotFound)
    ensures info.baseId.None? ==> !IsBase(info)
    ensures IsBase(info) <==> info.bagId.Some? && info.baseId.Some? && info.bagId.value == info.baseId.value
    ensures IsBase(info) ==> KeyOf(info.baseId) == KeyOf(info.bagId) == info.bagId.value
  {
  }

  // ---------------------------------------------------------------------
  // Per-bag record emission
  // ---------------------------------------------------------------------

  /** The file record of a manifest entry whose path has explicit rights. */
  function ManifestRecord(env: Env, doi: Option<string>, entry: ManifestEntry,
                          fileRights: map<string, FileRights>, defaults: FileRights): Record
    requires entry.path in fileRights
  {
    FileRec(ExpectedFile(doi, Manifested(entry), env.collaborators.applyDefaults(fileRights[entry.path], defaults)))
  }

  /** The record of one manifest entry; fails when `files.xml` has no
      rights for its path. */
  function CreateExpected(env: Env, doi: Option<string>, entry: ManifestEntry,
                          fileRights: map<string, FileRights>, defaults: FileRights): (r: Result<Record, Error>)
    ensures r.Success? <==> entry.path in fileRights
    ensures r.Failure? ==> r.error == MissingFileRights(entry.path)
    ensures r.Success? ==>
              && r.value.FileRec?
              && r.value.file.doi == doi
              && r.value.file.origin == Manifested(entry)
              && r.value.file.rights == env.collaborators.applyDefaults(fileRights[entry.path], defaults)
  {
    if entry.path in fileRights then Success(ManifestRecord(env, doi, entry, fileRights, defaults))
    else Failure(MissingFileRights(entry.path))
  }

  /** The records of the manifest entries in manifest order, stopping at
      the first entry without rights; the records before it are kept. */
  function CreateAll(env: Env, doi: Option<string>, manifest: seq<ManifestEntry>,
                     fileRights: map<string, FileRights>, defaults: FileRights): (r: Run)
    ensures |r.records| <= |manifest|
    ensures forall j :: 0 <= j < |r.records| ==>
              manifest[j].path in fileRights
              && r.records[j] == ManifestRecord(env, doi, manifest[j], fileRights, defaults)
    ensures forall j :: 0 <= j < |r.records| ==> r.records[j].FileRec? && r.records[j].Doi() == doi
    ensures r.error.None? ==> |r.records| == |manifest|
    ensures r.error.Some? ==>
              && |r.records| < |manifest|
              && manifest[|r.records|].path !in fileRights
              && r.error.value == MissingFileRights(manifest[|r.records|].path)
  {
    if |manifest| == 0 then Run([], None)
    else match CreateExpected(env, doi, manifest[0], fileRights, defaults)
      case Failure(e) => Abort(e)
      case Success(rec) =>
        var rest := CreateAll(env, doi, manifest[1..], fileRights, defaults);
        Run([rec] + rest.records, rest.error)
  }

  /** One file record per migration-only file, with the dataset's default
      rights. */
  function MigrationRecords(doi: Option<string>, defaults: FileRights): (r: seq<Record>)
    ensures |r| == |MigrationFiles|
    ensures forall j :: 0 <= j < |r| ==> r[j] == FileRec(ExpectedFile(doi, MigrationOnly(MigrationFiles[j]), defaults))
  {
    seq(|MigrationFiles|, j requires 0 <= j < |MigrationFiles| => FileRec(ExpectedFile(doi, MigrationOnly(MigrationFiles[j]), defaults)))
  }

  /** The dataset record of a deactivated (or missing) dataset. */
  const Deleted: ExpectedDataset := ExpectedDataset(None, true, None, None, None)

  /** The dataset record for a non-empty `dataset.xml`, before its doi is set. */
  function DatasetFor(env: Env, ddm: string, rights: DatasetRights, depositor: string): (r: ExpectedDataset)
    ensures r.license == Some(env.collaborators.license(ddm, rights.accessCategory))
    ensures depositor in env.substitutes ==>
              r.(license := None) == env.collaborators.datasetRecord(rights, env.substitutes[depositor]).(license := None)
    ensures depositor !in env.substitutes ==>
              r.(license := None) == env.collaborators.datasetRecord(rights, depositor).(license := None)
  {
    var account := Depositor.Account(env.substitutes, depositor);
    env.collaborators.datasetRecord(rights, account)
      .(license := Some(env.collaborators.license(ddm, rights.accessCategory)))
  }

  /** The shape of every bag's output: all records carry the bag's doi, a
      completed bag ends with its dataset record, and the dataset record
      appears only there. */
  predicate BagShaped(r: Run, doi: Option<string>) {
    && (forall j :: 0 <= j < |r.records| ==> r.records[j].Doi() == doi)
    && (r.error.None? ==> |r.records| > 0 && r.records[|r.records| - 1].DatasetRec?)
    && (forall j :: 0 <= j < |r.records| && r.records[j].DatasetRec? ==>
          r.error.None? && j == |r.records| - 1)
  }

  /** The records of a bag whose metadata has been read: the manifest
      files, then the migration-only files, then the dataset. */
  function EmitBag(env: Env, doi: Option<string>, manifest: seq<ManifestEntry>,
                   fileRights: map<string, FileRights>, rights: DatasetRights,
                   dataset: ExpectedDataset): (r: Run)
    ensures BagShaped(r, doi)
    ensures r.error.None? <==> forall j :: 0 <= j < |manifest| ==> manifest[j].path in fileRights
    ensures r.error.None? ==>
              && |r.records| == |manifest| + |MigrationFiles| + 1
              && r.records[|r.records| - 1] == DatasetRec(dataset.(doi := doi))
  {
    var files := CreateAll(env, doi, manifest, fileRights, rights.defaultFileRights);
    if files.error.Some? then files
    else
      var r := files.records + MigrationRecords(doi, rights.defaultFileRights)
               + [DatasetRec(dataset.(doi := doi))];
      assert forall j :: 0 <= j < |r| - 1 ==> r[j].FileRec?;
      Run(r, None)
  }

  /** The records of one bag version, fetched under `key` and described by
      `info`. An empty `dataset.xml` marks a deactivated dataset. */
  function ProcessBag(env: Env, key: string, info: BagInfo): (r: Run)
    ensures BagShaped(r, info.doi)
    ensures env.services.datasetXml(key).Failure? ==>
              r == Abort(TransportFailure(env.services.datasetXml(key).error))
    ensures env.services.datasetXml(key) == Success("") ==>
              && r.error.None?
              && |r.records| == 1
              && r.records[0].DatasetRec?
              && r.records[0].dataset.deleted
  {
    match env.services.datasetXml(key)
    case Failure(m) => Abort(TransportFailure(m))
    case Success(ddm) =>
      if |ddm| == 0 then Run([DatasetRec(Deleted.(doi := info.doi))], None)
      else ProcessDataset(env, key, info.doi, ddm)
  }

  /** A bag with dataset metadata: the depositor comes first, and a header
      without one aborts the bag. */
  function ProcessDataset(env: Env, key: string, doi: Option<string>, ddm: string): (r: Run)
    ensures BagShaped(r, doi)
    ensures env.services.bagInfoTxt(key).Failure? ==>
              r == Abort(TransportFailure(env.services.bagInfoTxt(key).error))
    ensures env.services.bagInfoTxt(key).Success? &&
            Depositor.ReadDepositor(env.services.bagInfoTxt(key).value, key).Failure? ==>
              r == Abort(NoUserAccount(key))
  {
    match env.services.bagInfoTxt(key)
    case Failure(m) => Abort(TransportFailure(m))
    case Success(lines) =>
      match Depositor.ReadDepositor(lines, key)
      case Failure(e) => Abort(e)
      case Success(depositor) =>
        var rights := env.collaborators.datasetRights(ddm);
        ProcessFiles(env, key, doi, rights, DatasetFor(env, ddm, rights, depositor))
  }

  /** A bag whose dataset record is known: read the file rights and the
      manifest, then emit. */
  function ProcessFiles(env: Env, key: string, doi: Option<string>, rights: DatasetRights,
                        dataset: ExpectedDataset): (r: Run)
    ensures BagShaped(r, doi)
    ensures env.services.filesXml(key).Failure? ==>
              r == Abort(TransportFailure(env.services.filesXml(key).error))
    ensures env.services.filesXml(key).Success? && env.services.manifest(key).Failure? ==>
              r == Abort(TransportFailure(env.services.manifest(key).error))
  {
    match env.services.filesXml(key)
    case Failure(m) => Abort(TransportFailure(m))
    case Success(fileRights) =>
      match env.services.manifest(key)
      case Failure(m) => Abort(TransportFailure(m))
      case Success(manifest) => EmitBag(env, doi, manifest, fileRights, rights, dataset)
  }

  // ---------------------------------------------------------------------
  // Dispatch
  // ---------------------------------------------------------------------

  /** One invocation of per-bag processing: the key its resources are
      fetched under and the description it uses. */
  datatype Call = Call(key: string, info: BagInfo)

  /** The bag-index description of one identifier. */
  function Resolve(env: Env, id: string): Result<BagInfo, Error> {
    ReadBagInfo(env.services.bagIndex(id), env.collaborators.decodeBagInfo)
  }

  /** `ids[i]` is the first listed member whose bag-index fetch fails. */
  predicate FirstLookupFailure(env: Env, ids: seq<string>, i: int) {
    && 0 <= i < |ids|
    && (forall j :: 0 <= j < i ==> env.services.bagIndex(ids[j]).Success?)
    && env.services.bagIndex(ids[i]).Failure?
  }

  /** The bag-index descriptions of the lineage members, in listing order;
      the first transport failure aborts. */
  function ResolveAll(env: Env, ids: seq<string>): (r: Result<seq<BagInfo>, Error>)
    ensures r.Success? <==> forall i :: 0 <= i < |ids| ==> env.services.bagIndex(ids[i]).Success?
    ensures r.Failure? ==> exists i ::
              FirstLookupFailure(env, ids, i) && r.error == TransportFailure(env.services.bagIndex(ids[i]).error)
    ensures r.Success? ==>
              && |r.value| == |ids|
              && forall i :: 0 <= i < |ids| ==>
                   Resolve(env, ids[i]) == Success(r.value[i])
  {
    if |ids| == 0 then Success([])
    else match Resolve(env, ids[0])
      case Failure(e) =>
        assert FirstLookupFailure(env, ids, 0);
        Failure(e)
      case Success(info) =>
        match ResolveAll(env, ids[1..])
        case Failure(e) =>
          var i :| FirstLookupFailure(env, ids[1..], i) && e == TransportFailure(env.services.bagIndex(ids[1..][i]).error);
          assert forall j :: 1 <= j <= i + 1 ==> ids[1..][j - 1] == ids[j];
          assert FirstLookupFailure(env, ids, i + 1);
          Failure(e)
        case Success(rest) =>
          assert forall i :: 1 <= i < |ids| ==> ids[1..][i - 1] == ids[i];
          Success([info] + rest)
  }

  /** What the first lookup decides: skip the bag, process it alone, or
      process its whole lineage in comparator order. */
  datatype Dispatch = Skip | Single(info: BagInfo) | Lineage(ordered: seq<BagInfo>)

  /** Resolves `uuid` and, for the base of a lineage of several bags, every
      member; a transport failure on the way aborts. */
  function Classify(env: Env, uuid: string): (r: Result<Dispatch, Error>)
    ensures Resolve(env, uuid).Failure? ==> r == Failure(Resolve(env, uuid).error)
    ensures r.Success? && r.value.Skip? <==> Resolve(env, uuid).Success? && !IsBase(Resolve(env, uuid).value)
    ensures r.Success? && !r.value.Skip? ==>
              && Resolve(env, uuid).Success? && IsBase(Resolve(env, uuid).value)
              && env.services.bagSequence(uuid).Success?
    ensures r.Success? && r.value.Single? ==>
              && r.value.info == Resolve(env, uuid).value
              && |env.services.bagSequence(uuid).value| <= 1
    ensures r.Success? && r.value.Lineage? ==>
              && |env.services.bagSequence(uuid).value| > 1
              && ResolveAll(env, env.services.bagSequence(uuid).value).Success?
              && r.value.ordered == Ordering.Sort(env.collaborators.compare,
                                                  ResolveAll(env, env.services.bagSequence(uuid).value).value)
  {
    match Resolve(env, uuid)
    case Failure(e) => Failure(e)
    case Success(info) =>
      if !IsBase(info) then Success(Skip)
      else match env.services.bagSequence(uuid)
        case Failure(m) => Failure(TransportFailure(m))
        case Success(ids) =>
          if |ids| <= 1 then Success(Single(info))
          else match ResolveAll(env, ids)
            case Failure(e) => Failure(e)
            case Success(infos) => Success(Lineage(Ordering.Sort(env.collaborators.compare, infos)))
  }

  /** Which identifier a lineage member's resources are fetched under. */
  datatype Keying = ByBaseId | ByBagId

  function MemberKey(keying: Keying, info: BagInfo): string {
    match keying
    case ByBaseId => KeyOf(info.baseId)
    case ByBagId => KeyOf(info.bagId)
  }

  /** One invocation per member of an ordered lineage, in order. */
  function CallsFor(keying: Keying, infos: seq<BagInfo>): (r: seq<Call>)
    ensures |r| == |infos|
    ensures forall i :: 0 <= i < |r| ==> r[i].info == infos[i] && r[i].key == MemberKey(keying, infos[i])
  {
    seq(|infos|, i requires 0 <= i < |infos| => Call(MemberKey(keying, infos[i]), infos[i]))
  }

  /** The per-bag invocations a load of `uuid` makes, in order, or the
      error that stops it before any of them. */
  function PlanWith(env: Env, uuid: string, keying: Keying): (r: Result<seq<Call>, Error>)
    ensures r.Failure? <==> Classify(env, uuid).Failure?
    ensures r.Failure? ==> r.error == Classify(env, uuid).error
    ensures r == Success([]) <==> Resolve(env, uuid).Success? && !IsBase(Resolve(env, uuid).value)
    ensures Classify(env, uuid).Success? && Classify(env, uuid).value.Single? ==>
              r == Success([Call(uuid, Resolve(env, uuid).value)])
    ensures Classify(env, uuid).Success? && Classify(env, uuid).value.Lineage? ==>
              && r.Success?
              && |r.value| == |env.services.bagSequence(uuid).value|
              && r.value == CallsFor(keying, Classify(env, uuid).value.ordered)
  {
    match Classify(env, uuid)
    case Failure(e) => Failure(e)
    case Success(Skip) => Success([])
    case Success(Single(info)) => Success([Call(uuid, info)])
    case Success(Lineage(ordered)) => Success(CallsFor(keying, ordered))
  }

  /** Runs the invocations in order; the first failing one aborts the rest,
      and what was persisted before it stays. */
  function RunCalls(env: Env, calls: seq<Call>): (r: Run)
    ensures r.error.None? <==> forall i :: 0 <= i < |calls| ==> Completes(env, calls[i])
  {
    if |calls| == 0 then Run([], None)
    else
      var first := ProcessBag(env, calls[0].key, calls[0].info);
      if first.error.Some? then first
      else
        var rest := RunCalls(env, calls[1..]);
        assert forall i :: 1 <= i < |calls| ==> calls[1..][i - 1] == calls[i];
        Run(first.records + rest.records, rest.error)
  }

  /** Processing the bag of one invocation ends without an error. */
  predicate Completes(env: Env, c: Call) {
    ProcessBag(env, c.key, c.info).error.None?
  }

  /** Running one invocation is processing that bag. */
  lemma RunSingle(env: Env, c: Call)
    ensures RunCalls(env, [c]) == ProcessBag(env, c.key, c.info)
  {
    assert [c][1..] == [];
    var p := ProcessBag(env, c.key, c.info);
    assert p.records + [] == p.records;
  }

  function LoadWith(env: Env, uuid: string, keying: Keying): Run {
    match PlanWith(env, uuid, keying)
    case Failure(e) => Abort(e)
    case Success(calls) => RunCalls(env, calls)
  }

  /** The invocations of the loader as written: lineage members are
      processed under their base id. */
  function Plan(env: Env, uuid: string): Result<seq<Call>, Error> {
    PlanWith(env, uuid, ByBaseId)
  }

  /** Loads the expected records of the lineage `uuid` heads, as written:
      every lineage member is fetched under its base id. */
  function LoadFromVault(env: Env, uuid: string): (r: Run)
    ensures Resolve(env, uuid).Failure? ==> r == Abort(Resolve(env, uuid).error)
    ensures Resolve(env, uuid).Success? && !IsBase(Resolve(env, uuid).value) ==> r == Run([], None)
    ensures Classify(env, uuid).Success? && Classify(env, uuid).value.Single? ==>
              r == ProcessBag(env, uuid, Resolve(env, uuid).value)
    ensures Resolve(env, uuid).Success? && IsBase(Resolve(env, uuid).value)
            && env.services.bagSequence(uuid).Failure? ==>
              r == Abort(TransportFailure(env.services.bagSequence(uuid).error))
  {
    // Both arms are the same load; the match only names the looked-up bag
    // so that `RunSingle` can show the single-bag case is one `ProcessBag`.
    match Resolve(env, uuid)
    case Failure(_) => LoadWith(env, uuid, ByBaseId)
    case Success(info) =>
      RunSingle(env, Call(uuid, info));
      LoadWith(env, uuid, ByBaseId)
  }

  /** The load with each lineage member fetched under its own bag id. */
  function LoadFromVaultOwnBags(env: Env, uuid: string): (r: Run)
    ensures Classify(env, uuid).Failure? ==> r == Abort(Classify(env, uuid).error)
    ensures Classify(env, uuid) == Success(Skip) ==> r == Run([], None)
    ensures Classify(env, uuid).Success? && Classify(env, uuid).value.Single? ==>
              r == ProcessBag(env, uuid, Resolve(env, uuid).value)
    ensures Classify(env, uuid).Success? && Classify(env, uuid).value.Lineage? ==>
              var ordered := Classify(env, uuid).value.ordered;
              && r == RunCalls(env, CallsFor(ByBagId, ordered))
              && forall i :: 0 <= i < |ordered| ==>
                   CallsFor(ByBagId, ordered)[i] == Call(KeyOf(ordered[i].bagId), ordered[i])
  {
    // Both arms are the same load; the match only names the looked-up bag
    // so that `RunSingle` can show the single-bag case is one `ProcessBag`.
    match Resolve(env, uuid)
    case Failure(_) => LoadWith(env, uuid, ByBagId)
    case Success(info) =>
      RunSingle(env, Call(uuid, info));
      LoadWith(env, uuid, ByBagId)
  }
}
