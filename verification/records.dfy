/** The values the vault loader reads and the expected-state records it
    produces. */
module Records {
  import opened Wrappers

  /** Access rights of a file. The rights vocabulary is defined outside the
      loader; unset fields are `None`. */
  datatype FileRights = FileRights(accessibleTo: Option<string>, visibleTo: Option<string>)

  /** Dataset-level rights derived from `dataset.xml`: the access category
      and the rights every file falls back to. */
  datatype DatasetRights = DatasetRights(accessCategory: string, defaultFileRights: FileRights)

  /** One line of the bag's checksum manifest. */
  datatype ManifestEntry = ManifestEntry(path: string, checksum: string)

  /** Where an expected file comes from: the payload manifest, or the fixed
      list of metadata files every migrated bag carries. */
  datatype FileOrigin = Manifested(entry: ManifestEntry) | MigrationOnly(name: string)

  datatype ExpectedFile = ExpectedFile(doi: Option<string>, origin: FileOrigin, rights: FileRights)

  /** The expected dataset; `None` fields are the ones left null. */
  datatype ExpectedDataset = ExpectedDataset(
    doi: Option<string>,
    deleted: bool,
    depositor: Option<string>,
    accessCategory: Option<string>,
    license: Option<string>)

  /** A record handed to persistence. */
  datatype Record = FileRec(file: ExpectedFile) | DatasetRec(dataset: ExpectedDataset) {
    function Doi(): Option<string> {
      match this
      case FileRec(f) => f.doi
      case DatasetRec(d) => d.doi
    }
  }

  /** The fatal conditions of a load; each aborts the current top-level
      identifier. */
  datatype Error =
    | TransportFailure(message: string)
    | NoUserAccount(bag: string)
    | MissingFileRights(path: string)

  /** A fetch from a remote service: its body, or the transport failure. */
  type Fetched<T> = Result<T, string>

  /** What a load leaves behind: the records persisted, in order, and the
      error that stopped it, if any. Records persisted before an error stay
      persisted. */
  datatype Run = Run(records: seq<Record>, error: Option<Error>)

  /** A run that fails before persisting anything. */
  function Abort(e: Error): Run {
    Run([], Some(e))
  }
}
