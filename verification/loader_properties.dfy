/** Properties of the vault loader's dispatch and per-bag emission, each
    relating one outcome of a load to its inputs. */
module LoaderProperties {
  import opened Wrappers
  import opened Records
  import opened BagIndex
  import opened VaultLoader
  import Depositor
  import Ordering

  // ---------------------------------------------------------------------
  // Dispatch
  // ---------------------------------------------------------------------

  /** A skipped bag never has its lineage looked up: replacing the
      bag-sequence service changes nothing. */
  lemma NonBaseIgnoresSequence(env: Env, uuid: string, other: string -> Fetched<seq<string>>)
    requires Resolve(env, uuid).Success?
    requires !IsBase(Resolve(env, uuid).value)
    ensures LoadFromVault(env.(services := env.services.(bagSequence := other)), uuid)
              == LoadFromVault(env, uuid)
  {
  }

  /** A base bag alone in its lineage is processed exactly once, under the
      requested identifier and with its own description. */
  lemma SingleBagProcessedOnce(env: Env, uuid: string)
    requires Resolve(env, uuid).Success? && IsBase(Resolve(env, uuid).value)
    requires env.services.bagSequence(uuid).Success?
    requires |env.services.bagSequence(uuid).value| <= 1
    ensures Plan(env, uuid) == Success([Call(uuid, Resolve(env, uuid).value)])
    ensures LoadFromVault(env, uuid) == ProcessBag(env, uuid, Resolve(env, uuid).value)
  {
    var c := Call(uuid, Resolve(env, uuid).value);
    assert Plan(env, uuid) == Success([c]);
    RunSingle(env, c);
  }

  /** A lineage of several bags: every member is resolved and processed
      exactly once, under its base id, in comparator order. */
  lemma LineageProcessedInOrder(env: Env, uuid: string)
    requires Resolve(env, uuid).Success? && IsBase(Resolve(env, uuid).value)
    requires env.services.bagSequence(uuid).Success?
    requires |env.services.bagSequence(uuid).value| > 1
    requires ResolveAll(env, env.services.bagSequence(uuid).value).Success?
    ensures
      var ids := env.services.bagSequence(uuid).value;
      var resolved := ResolveAll(env, ids).value;
      var ordered := Ordering.Sort(env.collaborators.compare, resolved);
      && Plan(env, uuid) == Success(CallsFor(ByBaseId, ordered))
      && LoadFromVault(env, uuid) == RunCalls(env, CallsFor(ByBaseId, ordered))
      && |ordered| == |ids|
      && multiset(ordered) == multiset(resolved)
      && (forall i :: 0 <= i < |ids| ==> Resolve(env, ids[i]) == Success(resolved[i]))
      && (forall i :: 0 <= i < |ordered| ==>
            CallsFor(ByBaseId, ordered)[i] == Call(KeyOf(ordered[i].baseId), ordered[i]))
      && (Ordering.IsTotalPreorder(env.collaborators.compare) ==>
            Ordering.SortedBy(env.collaborators.compare, ordered))
  {
    var resolved := ResolveAll(env, env.services.bagSequence(uuid).value).value;
    if Ordering.IsTotalPreorder(env.collaborators.compare) {
      Ordering.SortSorted(env.collaborators.compare, resolved);
    }
  }

  /** A transport failure while resolving any lineage member aborts the
      load before any bag is processed, with the failure of the first
      listed member whose lookup fails. */
  lemma MemberLookupFailureAborts(env: Env, uuid: string)
    requires Resolve(env, uuid).Success? && IsBase(Resolve(env, uuid).value)
    requires env.services.bagSequence(uuid).Success?
    requires |env.services.bagSequence(uuid).value| > 1
    requires exists i :: 0 <= i < |env.services.bagSequence(uuid).value|
               && env.services.bagIndex(env.services.bagSequence(uuid).value[i]).Failure?
    ensures
      var ids := env.services.bagSequence(uuid).value;
      exists i :: FirstLookupFailure(env, ids, i)
        && LoadFromVault(env, uuid) == Abort(TransportFailure(env.services.bagIndex(ids[i]).error))
  {
    var ids := env.services.bagSequence(uuid).value;
    assert ResolveAll(env, ids).Failure?;
    var i :| FirstLookupFailure(env, ids, i)
             && ResolveAll(env, ids).error == TransportFailure(env.services.bagIndex(ids[i]).error);
  }

  /** What a member resolves to, as a total function: its description, or
      the `NotFound` placeholder when its lookup fails. */
  function ResolvedOr(env: Env, id: string): BagInfo {
    match Resolve(env, id)
    case Success(info) => info
    case Failure(_) => NotFound
  }

  /** Resolving depends only on the bag-index service and its decoder. */
  lemma ResolveAllSameIndex(env: Env, other: Env, ids: seq<string>)
    requires other.services.bagIndex == env.services.bagIndex
    requires other.collaborators.decodeBagInfo == env.collaborators.decodeBagInfo
    ensures ResolveAll(other, ids) == ResolveAll(env, ids)
  {
    if |ids| > 0 {
      ResolveAllSameIndex(env, other, ids[1..]);
    }
  }

  /** Whether every member's lookup succeeds does not depend on the order
      the members are listed in. */
  lemma LookupsSucceedPermuted(env: Env, ids1: seq<string>, ids2: seq<string>)
    requires multiset(ids1) == multiset(ids2)
    requires forall i :: 0 <= i < |ids1| ==> env.services.bagIndex(ids1[i]).Success?
    ensures forall i :: 0 <= i < |ids2| ==> env.services.bagIndex(ids2[i]).Success?
  {
    forall i | 0 <= i < |ids2|
      ensures env.services.bagIndex(ids2[i]).Success?
    {
      assert ids2[i] in multiset(ids1);
      var j :| 0 <= j < |ids1| && ids1[j] == ids2[i];
    }
  }

  /** Resolving a reordered listing yields a reordering of the members'
      descriptions. */
  lemma ResolvedPermuted(env: Env, ids1: seq<string>, ids2: seq<string>)
    requires multiset(ids1) == multiset(ids2)
    requires ResolveAll(env, ids1).Success?
    ensures ResolveAll(env, ids2).Success?
    ensures multiset(ResolveAll(env, ids1).value) == multiset(ResolveAll(env, ids2).value)
  {
    LookupsSucceedPermuted(env, ids1, ids2);
    var g := id => ResolvedOr(env, id);
    var r1 := ResolveAll(env, ids1).value;
    var r2 := ResolveAll(env, ids2).value;
    assert Ordering.ImagesOf(g, ids1, r1);
    assert Ordering.ImagesOf(g, ids2, r2);
    Ordering.PermutedImages(g, ids1, r1, ids2, r2);
  }

  /** With a comparator that meets its contract and has no ties among the
      lineage's resolved members, the processing order does not depend on
      the order of the bag-sequence listing: a reordered listing gives the
      same invocations, and a load that fails fails either way. */
  lemma ReorderedListingSamePlan(env: Env, uuid: string, other: string -> Fetched<seq<string>>)
    requires Ordering.IsTotalPreorder(env.collaborators.compare)
    requires env.services.bagSequence(uuid).Success? && other(uuid).Success?
    requires ResolveAll(env, env.services.bagSequence(uuid).value).Success? ==>
               Ordering.IsTieFreeOn(env.collaborators.compare, ResolveAll(env, env.services.bagSequence(uuid).value).value)
    requires multiset(other(uuid).value) == multiset(env.services.bagSequence(uuid).value)
    ensures
      var reordered := env.(services := env.services.(bagSequence := other));
      && (Plan(reordered, uuid).Success? <==> Plan(env, uuid).Success?)
      && (Plan(env, uuid).Success? ==> Plan(reordered, uuid) == Plan(env, uuid))
  {
    var reordered := env.(services := env.services.(bagSequence := other));
    var ids1 := env.services.bagSequence(uuid).value;
    var ids2 := other(uuid).value;
    assert |ids1| == |ids2| by {
      assert |ids1| == |multiset(ids1)| == |multiset(ids2)| == |ids2|;
    }
    assert Resolve(reordered, uuid) == Resolve(env, uuid);
    ResolveAllSameIndex(env, reordered, ids2);
    if Resolve(env, uuid).Success? && IsBase(Resolve(env, uuid).value) && |ids1| > 1 {
      if ResolveAll(env, ids1).Success? {
        ResolvedPermuted(env, ids1, ids2);
        Ordering.SortIgnoresInputOrder(env.collaborators.compare,
                                       ResolveAll(env, ids1).value, ResolveAll(env, ids2).value);
      } else if ResolveAll(env, ids2).Success? {
        ResolvedPermuted(env, ids2, ids1);
      }
    }
  }

  // ---------------------------------------------------------------------
  // Running the invocations
  // ---------------------------------------------------------------------

  /** Running two lists of invocations one after the other is running
      their concatenation; a failure in the first stops the second. */
  lemma {:induction false} RunCallsAppend(env: Env, a: seq<Call>, b: seq<Call>)
    ensures RunCalls(env, a + b) ==
              if RunCalls(env, a).error.Some? then RunCalls(env, a)
              else Run(RunCalls(env, a).records + RunCalls(env, b).records, RunCalls(env, b).error)
  {
    if |a| == 0 {
      assert a + b == b;
    } else {
      assert (a + b)[0] == a[0];
      assert (a + b)[1..] == a[1..] + b;
      var first := ProcessBag(env, a[0].key, a[0].info);
      if first.error.None? {
        RunCallsAppend(env, a[1..], b);
        var tail := RunCalls(env, a[1..]);
        if tail.error.None? {
          var rb := RunCalls(env, b);
          assert first.records + (tail.records + rb.records) == (first.records + tail.records) + rb.records;
        }
      }
    }
  }

  /** The record persisted last by a completed run is the dataset record
      of the last invocation, so later versions overwrite earlier ones. */
  lemma LastVersionDecides(env: Env, earlier: seq<Call>, last: Call)
    requires RunCalls(env, earlier + [last]).error.None?
    ensures EndsLike(RunCalls(env, earlier + [last]).records, ProcessBag(env, last.key, last.info).records)
    ensures EndsWithDataset(RunCalls(env, earlier + [last]).records, last.info.doi)
  {
    RunCallsAppend(env, earlier, [last]);
    RunSingle(env, last);
    var before := RunCalls(env, earlier);
    var own := ProcessBag(env, last.key, last.info);
    assert before.error.None? && own.error.None?;
    assert BagShaped(own, last.info.doi);
    var r := before.records + own.records;
    assert RunCalls(env, earlier + [last]).records == r;
    var final := own.records[|own.records| - 1];
    assert r[|r| - 1] == final;
  }

  /** `r` ends with the record `own` ends with. */
  predicate EndsLike(r: seq<Record>, own: seq<Record>) {
    |r| > 0 && |own| > 0 && r[|r| - 1] == own[|own| - 1]
  }

  /** `r` ends with a dataset record carrying `doi`. */
  predicate EndsWithDataset(r: seq<Record>, doi: Option<string>) {
    |r| > 0 && r[|r| - 1].DatasetRec? && r[|r| - 1].Doi() == doi
  }

  /** In a lineage processed in comparator order, the final record is the
      dataset record of a latest member: one no other member comes after. */
  lemma LatestMemberDecides(env: Env, uuid: string, keying: Keying)
    requires Ordering.IsTotalPreorder(env.collaborators.compare)
    requires Classify(env, uuid).Success? && Classify(env, uuid).value.Lineage?
    requires LoadWith(env, uuid, keying).error.None?
    ensures
      var resolved := ResolveAll(env, env.services.bagSequence(uuid).value).value;
      var r := LoadWith(env, uuid, keying).records;
      exists m :: Ordering.IsLatest(env.collaborators.compare, m, resolved)
        && EndsWithDataset(r, m.doi)
        && EndsLike(r, ProcessBag(env, MemberKey(keying, m), m).records)
  {
    var cmp := env.collaborators.compare;
    var resolved := ResolveAll(env, env.services.bagSequence(uuid).value).value;
    var ordered := Classify(env, uuid).value.ordered;
    assert ordered == Ordering.Sort(cmp, resolved);
    assert LoadWith(env, uuid, keying) == RunCalls(env, CallsFor(keying, ordered)) by {
      assert PlanWith(env, uuid, keying) == Success(CallsFor(keying, ordered));
    }
    Ordering.SortSorted(cmp, resolved);
    var m := LastCallDecides(env, keying, ordered);
    Ordering.SortedLastIsLatest(cmp, ordered);
    Ordering.LatestOfPermutation(cmp, m, ordered, resolved);
    var r := LoadWith(env, uuid, keying).records;
    assert Ordering.IsLatest(cmp, m, resolved) && EndsWithDataset(r, m.doi);
  }

  /** The final record of a completed run over a lineage's calls is the
      dataset record of its last member. */
  lemma LastCallDecides(env: Env, keying: Keying, ordered: seq<BagInfo>) returns (m: BagInfo)
    requires |ordered| > 0
    requires RunCalls(env, CallsFor(keying, ordered)).error.None?
    ensures m == ordered[|ordered| - 1]
    ensures EndsWithDataset(RunCalls(env, CallsFor(keying, ordered)).records, m.doi)
    ensures EndsLike(RunCalls(env, CallsFor(keying, ordered)).records,
                     ProcessBag(env, MemberKey(keying, m), m).records)
  {
    m := ordered[|ordered| - 1];
    var calls := CallsFor(keying, ordered);
    var earlier := calls[..|calls| - 1];
    var last := Call(MemberKey(keying, m), m);
    SplitLast(calls);
    LastVersionDecides(env, earlier, last);
  }

  /** A non-empty sequence is its prefix followed by its last element. */
  lemma SplitLast<T>(s: seq<T>)
    requires |s| > 0
    ensures s == s[..|s| - 1] + [s[|s| - 1]]
  {
  }

  /** As written: the final dataset record of a lineage is the one a latest
      member yields when fetched under its base id, i.e. from the base bag's
      resources. */
  lemma LatestVersionDecidesDataset(env: Env, uuid: string)
    requires Ordering.IsTotalPreorder(env.collaborators.compare)
    requires Classify(env, uuid).Success? && Classify(env, uuid).value.Lineage?
    requires LoadFromVault(env, uuid).error.None?
    ensures
      var resolved := ResolveAll(env, env.services.bagSequence(uuid).value).value;
      var r := LoadFromVault(env, uuid).records;
      exists m :: Ordering.IsLatest(env.collaborators.compare, m, resolved)
        && EndsWithDataset(r, m.doi)
        && EndsLike(r, ProcessBag(env, KeyOf(m.baseId), m).records)
  {
    LatestMemberDecides(env, uuid, ByBaseId);
  }

  /** As written, every invocation of a lineage of one base fetches the
      base bag: a later version's own resources are never read. */
  lemma LineageReadsBaseBagOnly(env: Env, uuid: string)
    requires Classify(env, uuid).Success? && Classify(env, uuid).value.Lineage?
    requires
      var base := Resolve(env, uuid).value;
      forall x :: x in ResolveAll(env, env.services.bagSequence(uuid).value).value ==> x.baseId == base.baseId
    ensures Plan(env, uuid).Success?
    ensures
      var base := Resolve(env, uuid).value;
      var calls := Plan(env, uuid).value;
      && (forall i :: 0 <= i < |calls| ==> calls[i].key == KeyOf(base.baseId))
      && (forall x :: (x in ResolveAll(env, env.services.bagSequence(uuid).value).value
                        && x.bagId.Some? && x.bagId != base.baseId) ==>
            forall i :: 0 <= i < |calls| ==> calls[i].key != KeyOf(x.bagId))
  {
    var base := Resolve(env, uuid).value;
    var resolved := ResolveAll(env, env.services.bagSequence(uuid).value).value;
    var ordered := Ordering.Sort(env.collaborators.compare, resolved);
    var calls := CallsFor(ByBaseId, ordered);
    assert Plan(env, uuid) == Success(calls);
    forall i | 0 <= i < |calls|
      ensures calls[i].key == KeyOf(base.baseId)
    {
      assert ordered[i] in multiset(resolved);
    }
  }

  /** Corrected: with each member fetched under its own bag id, the final
      dataset record is the one a latest member's own bag yields. */
  lemma OwnBagsLatestVersionDecides(env: Env, uuid: string)
    requires Ordering.IsTotalPreorder(env.collaborators.compare)
    requires Classify(env, uuid).Success? && Classify(env, uuid).value.Lineage?
    requires LoadFromVaultOwnBags(env, uuid).error.None?
    ensures
      var resolved := ResolveAll(env, env.services.bagSequence(uuid).value).value;
      var r := LoadFromVaultOwnBags(env, uuid).records;
      exists m :: Ordering.IsLatest(env.collaborators.compare, m, resolved)
        && EndsWithDataset(r, m.doi)
        && EndsLike(r, ProcessBag(env, KeyOf(m.bagId), m).records)
  {
    LatestMemberDecides(env, uuid, ByBagId);
  }

  /** The corrected loader departs from the one as written only in the
      keys of a lineage's invocations: outside a lineage the two loads are
      the same, and within one they visit the same members in the same
      order, keyed alike wherever the member is the base bag. */
  lemma OwnBagsAgreeOutsideLineage(env: Env, uuid: string)
    ensures !(Classify(env, uuid).Success? && Classify(env, uuid).value.Lineage?) ==>
              LoadFromVaultOwnBags(env, uuid) == LoadFromVault(env, uuid)
    ensures Classify(env, uuid).Success? && Classify(env, uuid).value.Lineage? ==>
              var ordered := Classify(env, uuid).value.ordered;
              var own := CallsFor(ByBagId, ordered);
              var asWritten := CallsFor(ByBaseId, ordered);
              && |own| == |asWritten|
              && forall i :: 0 <= i < |own| ==>
                   && own[i].info == asWritten[i].info
                   && (IsBase(own[i].info) ==> own[i].key == asWritten[i].key)
  {
    if !(Classify(env, uuid).Success? && Classify(env, uuid).value.Lineage?) {
      assert PlanWith(env, uuid, ByBagId) == PlanWith(env, uuid, ByBaseId);
      assert LoadFromVaultOwnBags(env, uuid) == LoadWith(env, uuid, ByBagId);
      assert LoadFromVault(env, uuid) == LoadWith(env, uuid, ByBaseId);
    }
  }

  // ---------------------------------------------------------------------
  // One bag
  // ---------------------------------------------------------------------

  /** A deactivated dataset (empty `dataset.xml`) gives one deleted dataset
      record carrying the bag's doi, and nothing else: the header, the
      file rights, the manifest and the account table are never read. */
  lemma DeletedBagIgnoresMetadata(env: Env, key: string, info: BagInfo, services: Services,
                                  substitutes: map<string, string>)
    requires env.services.datasetXml(key) == Success("")
    requires services.datasetXml == env.services.datasetXml
    ensures ProcessBag(env, key, info) == Run([DatasetRec(Deleted.(doi := info.doi))], None)
    ensures ProcessBag(env.(services := services, substitutes := substitutes), key, info)
              == ProcessBag(env, key, info)
  {
  }

  /** The inputs of a bag whose metadata all reads: a non-empty
      `dataset.xml`, a header that names a depositor, the file rights of
      `files.xml` and the manifest. */
  predicate ReadsAs(env: Env, key: string, ddm: string, depositor: string,
                    fileRights: map<string, FileRights>, manifest: seq<ManifestEntry>) {
    && env.services.datasetXml(key) == Success(ddm)
    && ddm != ""
    && env.services.bagInfoTxt(key).Success?
    && Depositor.ReadDepositor(env.services.bagInfoTxt(key).value, key) == Success(depositor)
    && env.services.filesXml(key) == Success(fileRights)
    && env.services.manifest(key) == Success(manifest)
  }

  /** A readable bag reaches the emitting step with the inputs it read. */
  lemma ReadableBagEmits(env: Env, key: string, info: BagInfo, ddm: string, depositor: string,
                         fileRights: map<string, FileRights>, manifest: seq<ManifestEntry>)
    requires ReadsAs(env, key, ddm, depositor, fileRights, manifest)
    ensures
      var rights := env.collaborators.datasetRights(ddm);
      ProcessBag(env, key, info)
        == EmitBag(env, info.doi, manifest, fileRights, rights, DatasetFor(env, ddm, rights, depositor))
  {
    var rights := env.collaborators.datasetRights(ddm);
    var dataset := DatasetFor(env, ddm, rights, depositor);
    var emitted := EmitBag(env, info.doi, manifest, fileRights, rights, dataset);
    assert ProcessFiles(env, key, info.doi, rights, dataset) == emitted;
    assert ProcessDataset(env, key, info.doi, ddm) == emitted;
  }

  /** When every manifest path has rights, the emitting step completes with
      the manifest records, the migration records and the dataset record. */
  lemma EmitBagCompletes(env: Env, doi: Option<string>, manifest: seq<ManifestEntry>,
                         fileRights: map<string, FileRights>, rights: DatasetRights,
                         dataset: ExpectedDataset)
    requires forall j :: 0 <= j < |manifest| ==> manifest[j].path in fileRights
    ensures CreateAll(env, doi, manifest, fileRights, rights.defaultFileRights).error.None?
    ensures |CreateAll(env, doi, manifest, fileRights, rights.defaultFileRights).records| == |manifest|
    ensures EmitBag(env, doi, manifest, fileRights, rights, dataset)
              == Run(CreateAll(env, doi, manifest, fileRights, rights.defaultFileRights).records
                     + MigrationRecords(doi, rights.defaultFileRights)
                     + [DatasetRec(dataset.(doi := doi))], None)
  {
    assert CreateAll(env, doi, manifest, fileRights, rights.defaultFileRights).error.None?;
  }

  /** The layout of a completed bag's records: the manifest records, then
      the migration records, then the dataset record. */
  lemma CompletedLayout(env: Env, doi: Option<string>, manifest: seq<ManifestEntry>,
                        fileRights: map<string, FileRights>, defaults: FileRights, last: Record)
    requires forall j :: 0 <= j < |manifest| ==> manifest[j].path in fileRights
    ensures
      var r := CreateAll(env, doi, manifest, fileRights, defaults).records
               + MigrationRecords(doi, defaults) + [last];
      && |r| == |manifest| + 3 + 1
      && (forall j :: 0 <= j < |manifest| ==>
            r[j] == FileRec(ExpectedFile(doi, Manifested(manifest[j]),
                                         env.collaborators.applyDefaults(fileRights[manifest[j].path], defaults))))
      && r[|manifest|] == FileRec(ExpectedFile(doi, MigrationOnly("provenance.xml"), defaults))
      && r[|manifest| + 1] == FileRec(ExpectedFile(doi, MigrationOnly("dataset.xml"), defaults))
      && r[|manifest| + 2] == FileRec(ExpectedFile(doi, MigrationOnly("files.xml"), defaults))
      && r[|manifest| + 3] == last
  {
    var files := CreateAll(env, doi, manifest, fileRights, defaults);
    var migration := MigrationRecords(doi, defaults);
    assert files.error.None?;
    var head := files.records + migration;
    var r := head + [last];
    assert forall j :: 0 <= j < |head| ==> r[j] == head[j];
    assert forall j :: 0 <= j < |manifest| ==> head[j] == files.records[j];
    assert forall j :: 0 <= j < 3 ==> head[|manifest| + j] == migration[j];
  }

  /** A readable bag whose every manifest path has rights emits, in this
      order: one file per manifest entry with its rights completed by the
      dataset defaults, one file per migration-only name with the defaults,
      and the dataset record for the substituted depositor account. */
  lemma BagRecordsInOrder(env: Env, key: string, info: BagInfo, ddm: string, depositor: string,
                          fileRights: map<string, FileRights>, manifest: seq<ManifestEntry>)
    requires ReadsAs(env, key, ddm, depositor, fileRights, manifest)
    requires forall j :: 0 <= j < |manifest| ==> manifest[j].path in fileRights
    ensures
      var rights := env.collaborators.datasetRights(ddm);
      var defaults := rights.defaultFileRights;
      var account := if depositor in env.substitutes then env.substitutes[depositor] else depositor;
      var r := ProcessBag(env, key, info);
      && r.error.None?
      && |r.records| == |manifest| + 3 + 1
      && (forall j :: 0 <= j < |manifest| ==>
            r.records[j] == FileRec(ExpectedFile(info.doi, Manifested(manifest[j]),
                                      env.collaborators.applyDefaults(fileRights[manifest[j].path], defaults))))
      && r.records[|manifest|] == FileRec(ExpectedFile(info.doi, MigrationOnly("provenance.xml"), defaults))
      && r.records[|manifest| + 1] == FileRec(ExpectedFile(info.doi, MigrationOnly("dataset.xml"), defaults))
      && r.records[|manifest| + 2] == FileRec(ExpectedFile(info.doi, MigrationOnly("files.xml"), defaults))
      && r.records[|manifest| + 3] == DatasetRec(env.collaborators.datasetRecord(rights, account)
           .(license := Some(env.collaborators.license(ddm, rights.accessCategory)), doi := info.doi))
  {
    var rights := env.collaborators.datasetRights(ddm);
    var dataset := DatasetFor(env, ddm, rights, depositor);
    ReadableBagEmits(env, key, info, ddm, depositor, fileRights, manifest);
    EmitBagCompletes(env, info.doi, manifest, fileRights, rights, dataset);
    CompletedLayout(env, info.doi, manifest, fileRights, rights.defaultFileRights,
                    DatasetRec(dataset.(doi := info.doi)));
  }

  /** The first manifest path without rights aborts the bag: the records
      of the entries before it stay, and nothing after it is emitted. */
  lemma MissingRightsAbortsBag(env: Env, key: string, info: BagInfo, ddm: string, depositor: string,
                               fileRights: map<string, FileRights>, manifest: seq<ManifestEntry>)
    requires ReadsAs(env, key, ddm, depositor, fileRights, manifest)
    requires exists j :: 0 <= j < |manifest| && manifest[j].path !in fileRights
    ensures
      var defaults := env.collaborators.datasetRights(ddm).defaultFileRights;
      var r := ProcessBag(env, key, info);
      var k := |r.records|;
      && k < |manifest|
      && manifest[k].path !in fileRights
      && r.error == Some(MissingFileRights(manifest[k].path))
      && (forall j :: 0 <= j < k ==>
            manifest[j].path in fileRights
            && r.records[j] == FileRec(ExpectedFile(info.doi, Manifested(manifest[j]),
                                         env.collaborators.applyDefaults(fileRights[manifest[j].path], defaults))))
  {
    var rights := env.collaborators.datasetRights(ddm);
    var dataset := DatasetFor(env, ddm, rights, depositor);
    var files := CreateAll(env, info.doi, manifest, fileRights, rights.defaultFileRights);
    assert files.error.Some?;
    ReadableBagEmits(env, key, info, ddm, depositor, fileRights, manifest);
    assert EmitBag(env, info.doi, manifest, fileRights, rights, dataset) == files;
  }

  /** A header without an account line aborts the bag before anything is
      persisted. */
  lemma NoAccountAbortsBag(env: Env, key: string, info: BagInfo)
    requires env.services.datasetXml(key).Success? && env.services.datasetXml(key).value != ""
    requires env.services.bagInfoTxt(key).Success?
    requires forall i :: 0 <= i < |env.services.bagInfoTxt(key).value| ==>
               !Depositor.IsAccountLine(env.services.bagInfoTxt(key).value[i])
    ensures ProcessBag(env, key, info) == Abort(NoUserAccount(key))
  {
  }
}
