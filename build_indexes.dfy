/** The offline index builder. For each configured repository it runs the
    loaders in a fixed order, accumulating their documents and skipping
    the ones that fail, splits every document with the splitter its
    language selects, and saves one vector index per repository.

    The collaborators are parameters: `load` runs a loader described by a
    `LoaderSpec` (a failure carries the exception's text) and `split` is the
    text splitter's `split_documents([doc])`. The vector store on disk is
    an `IndexStore` object mapping directories to saved indexes. Printed
    lines are recorded as `BuildEvent`s. */
module BuildIndexes {
  import opened Common
  import opened Loaders

  /** The loader types tried for every repository, in this order. */
  const DesiredLoaderTypes: seq<LoaderType> :=
    [Lang(JAVA), Lang(PYTHON), Lang(JS), Named(GeneralUnstructured)]

  const ChunkSize: nat := 1000
  const ChunkOverlap: nat := 200

  /** A text splitter's configuration: language-aware for `Some(language)`,
      the general character splitter for `None`. */
  datatype Splitter = Splitter(language: Option<Language>, chunkSize: nat, chunkOverlap: nat)

  /** The splitter table, keyed by language value, plus the `"general"` entry. */
  const Splitters: map<string, Splitter> := map[
    JAVA.Value() := Splitter(Some(JAVA), ChunkSize, ChunkOverlap),
    PYTHON.Value() := Splitter(Some(PYTHON), ChunkSize, ChunkOverlap),
    JS.Value() := Splitter(Some(JS), ChunkSize, ChunkOverlap),
    "general" := Splitter(None, ChunkSize, ChunkOverlap)
  ]

  datatype LoadFailure = FactoryRejected(error: LoaderError) | LoaderRaised(message: string)

  datatype SkipReason = NoDocuments | NoChunks

  /** What building one repository came to. `Crashed` is the factory's
      exception for an empty path, which nothing in the builder catches. */
  datatype BuildOutcome =
    | Crashed(error: LoaderError)
    | Skipped(reason: SkipReason)
    | Saved(dir: string, chunks: seq<Doc>)

  /** The lines the builder prints, one constructor per kind of line. */
  datatype BuildEvent =
    | BuildingRepo(repo: string)
    | LoadingDocuments
    | LoaderWarning(loaderType: LoaderType, cause: LoadFailure)
    | NoDocumentsWarning(repo: string)
    | LoadedDocuments(count: nat)
    | NoChunksWarning(repo: string)
    | CreatedChunks(count: nat)
    | CreatingEmbeddings(model: string)
    | IndexSaved(repo: string)
    | InvalidEntryWarning(entry: RepoEntry)
    | AllIndexesBuilt

  /** A saved vector index: the chunks it was built from and the embedding
      model that embedded them. */
  datatype Index = Index(chunks: seq<Doc>, embeddingModel: string)

  /** The directory tree of saved indexes. */
  class IndexStore {
    var indexes: map<string, Index>

    constructor (initial: map<string, Index>)
      ensures indexes == initial
    {
      indexes := initial;
    }

    /** Saving an index replaces whatever was saved in that directory. */
    method SaveLocal(dir: string, index: Index)
      modifies this
      ensures indexes == old(indexes)[dir := index]
    {
      indexes := indexes[dir := index];
    }
  }

  /** The splitter for a document: the one its `language` metadata names
      when the table has it, otherwise the general one. */
  function SelectSplitter(doc: Doc): (s: Splitter)
    ensures s.chunkSize == ChunkSize && s.chunkOverlap == ChunkOverlap
    ensures s.language.Some? <==>
      "language" in doc.metadata && doc.metadata["language"] in {"java", "python", "js"}
    ensures s.language.Some? ==> s.language.value.Value() == doc.metadata["language"]
  {
    if "language" in doc.metadata && doc.metadata["language"] in Splitters
    then Splitters[doc.metadata["language"]]
    else Splitters["general"]
  }

  /** One turn of the loading loop: ask the factory for the loader, then run it. */
  function LoadStep(factory: LoaderFactory, loaderType: LoaderType,
                    load: LoaderSpec -> Result<seq<Doc>, string>): (r: Result<seq<Doc>, LoadFailure>)
    ensures r.Success? <==>
      factory.GetLoader(loaderType).Success? && load(factory.GetLoader(loaderType).value).Success?
    ensures r.Success? ==> r.value == load(factory.GetLoader(loaderType).value).value
    ensures r.Failure? && r.error.FactoryRejected? ==> r.error.error == UnsupportedLoaderType(loaderType)
    ensures r.Failure? && r.error.LoaderRaised? ==>
      factory.GetLoader(loaderType).Success? && load(factory.GetLoader(loaderType).value) == Failure(r.error.message)
    ensures loaderType in DesiredLoaderTypes ==> !(r.Failure? && r.error.FactoryRejected?)
  {
    match factory.GetLoader(loaderType)
    case Failure(e) => Failure(FactoryRejected(e))
    case Success(spec) =>
      match load(spec)
      case Failure(message) => Failure(LoaderRaised(message))
      case Success(docs) => Success(docs)
  }

  /** The documents of the loader types that did not fail, in order. */
  function LoadAll(factory: LoaderFactory, types: seq<LoaderType>,
                   load: LoaderSpec -> Result<seq<Doc>, string>): seq<Doc>
    decreases |types|
  {
    if types == [] then []
    else
      LoadAll(factory, types[..|types| - 1], load) +
      match LoadStep(factory, types[|types| - 1], load)
      case Success(docs) => docs
      case Failure(_) => []
  }

  /** The warnings of the loader types that failed, in order. */
  function LoadWarnings(factory: LoaderFactory, types: seq<LoaderType>,
                        load: LoaderSpec -> Result<seq<Doc>, string>): seq<BuildEvent>
    decreases |types|
  {
    if types == [] then []
    else
      var t := types[|types| - 1];
      LoadWarnings(factory, types[..|types| - 1], load) +
      match LoadStep(factory, t, load)
      case Success(_) => []
      case Failure(cause) => [LoaderWarning(t, cause)]
  }

  /** Every document split on its own, the pieces concatenated in order. */
  function SplitAll(docs: seq<Doc>, split: (Splitter, Doc) -> seq<Doc>): seq<Doc>
    decreases |docs|
  {
    if docs == [] then []
    else
      var d := docs[|docs| - 1];
      SplitAll(docs[..|docs| - 1], split) + split(SelectSplitter(d), d)
  }

  /** What `build_index_for_repo` does for one repository: its outcome and
      the lines it prints. */
  function RepoRun(name: string, path: string, embeddingModel: string,
                   load: LoaderSpec -> Result<seq<Doc>, string>,
                   split: (Splitter, Doc) -> seq<Doc>): (BuildOutcome, seq<BuildEvent>)
  {
    match NewLoaderFactory(Some(path))
    case Failure(e) => (Crashed(e), [BuildingRepo(name)])
    case Success(factory) =>
      var docs := LoadAll(factory, DesiredLoaderTypes, load);
      var loadLog := [BuildingRepo(name), LoadingDocuments] + LoadWarnings(factory, DesiredLoaderTypes, load);
      if docs == [] then
        (Skipped(NoDocuments), loadLog + [NoDocumentsWarning(name)])
      else
        var chunks := SplitAll(docs, split);
        if chunks == [] then
          (Skipped(NoChunks), loadLog + [LoadedDocuments(|docs|), NoChunksWarning(name)])
        else
          (Saved(IndexDir(name), chunks),
           loadLog + [LoadedDocuments(|docs|), CreatedChunks(|chunks|),
                      CreatingEmbeddings(embeddingModel), IndexSaved(name)])
  }

  /** The loading loop of `build_index_for_repo`: try each desired loader
      type in turn, keeping the documents of those that succeed and a
      warning for each that fails. */
  method LoadDocuments(factory: LoaderFactory, load: LoaderSpec -> Result<seq<Doc>, string>)
    returns (allDocs: seq<Doc>, warnings: seq<BuildEvent>)
    ensures allDocs == LoadAll(factory, DesiredLoaderTypes, load)
    ensures warnings == LoadWarnings(factory, DesiredLoaderTypes, load)
  {
    allDocs, warnings := [], [];
    var types := DesiredLoaderTypes;
    for i := 0 to |types|
      invariant allDocs == LoadAll(factory, types[..i], load)
      invariant warnings == LoadWarnings(factory, types[..i], load)
    {
      assert types[..i + 1][..i] == types[..i];
      match LoadStep(factory, types[i], load) {
        case Success(docs) =>
          allDocs := allDocs + docs;
        case Failure(cause) =>
          warnings := warnings + [LoaderWarning(types[i], cause)];
      }
    }
    assert types[..|types|] == types;
  }

  /** The splitting loop of `build_index_for_repo`. */
  method SplitDocuments(allDocs: seq<Doc>, split: (Splitter, Doc) -> seq<Doc>)
    returns (finalChunks: seq<Doc>)
    ensures finalChunks == SplitAll(allDocs, split)
  {
    finalChunks := [];
    for i := 0 to |allDocs|
      invariant finalChunks == SplitAll(allDocs[..i], split)
    {
      assert allDocs[..i + 1][..i] == allDocs[..i];
      var doc := allDocs[i];
      var splitter := SelectSplitter(doc);
      finalChunks := finalChunks + split(splitter, doc);
    }
    assert allDocs[..|allDocs|] == allDocs;
  }

  /** `build_index_for_repo`. */
  method BuildIndexForRepo(store: IndexStore, repoName: string, repoPath: string, embeddingModel: string,
                           load: LoaderSpec -> Result<seq<Doc>, string>,
                           split: (Splitter, Doc) -> seq<Doc>)
    returns (outcome: BuildOutcome, log: seq<BuildEvent>)
    modifies store
    ensures (outcome, log) == RepoRun(repoName, repoPath, embeddingModel, load, split)
    ensures store.indexes ==
      if outcome.Saved? then old(store.indexes)[outcome.dir := Index(outcome.chunks, embeddingModel)]
      else old(store.indexes)
  {
    var indexDir := IndexDir(repoName);
    log := [BuildingRepo(repoName)];

    var created := NewLoaderFactory(Some(repoPath));
    if created.Failure? {
      outcome := Crashed(created.error);
      return;
    }
    var factory := created.value;

    log := log + [LoadingDocuments];
    assert log == [BuildingRepo(repoName), LoadingDocuments];
    var allDocs, warnings := LoadDocuments(factory, load);
    log := log + warnings;

    if allDocs == [] {
      log := log + [NoDocumentsWarning(repoName)];
      outcome := Skipped(NoDocuments);
      return;
    }
    ghost var loadLog := log;
    log := log + [LoadedDocuments(|allDocs|)];

    var finalChunks := SplitDocuments(allDocs, split);

    if finalChunks == [] {
      log := log + [NoChunksWarning(repoName)];
      assert log == loadLog + [LoadedDocuments(|allDocs|), NoChunksWarning(repoName)];
      outcome := Skipped(NoChunks);
      return;
    }
    log := log + [CreatedChunks(|finalChunks|), CreatingEmbeddings(embeddingModel)];
    store.SaveLocal(indexDir, Index(finalChunks, embeddingModel));
    log := log + [IndexSaved(repoName)];
    assert log == loadLog + [LoadedDocuments(|allDocs|), CreatedChunks(|finalChunks|),
                             CreatingEmbeddings(embeddingModel), IndexSaved(repoName)];
    outcome := Saved(indexDir, finalChunks);
  }

  /** An entry the main loop builds: both its name and its path are non-empty. */
  predicate ValidEntry(entry: RepoEntry)
  {
    Present(entry.name) && Present(entry.path)
  }

  /** The entries of the main loop that are built, in config order. */
  function ValidEntries(entries: seq<RepoEntry>): seq<RepoEntry>
    decreases |entries|
  {
    if entries == [] then []
    else
      var e := entries[|entries| - 1];
      ValidEntries(entries[..|entries| - 1]) + if ValidEntry(e) then [e] else []
  }

  /** The outcome of every built entry, named by its repository, in config order. */
  function MainOutcomes(entries: seq<RepoEntry>, embeddingModel: string,
                        load: LoaderSpec -> Result<seq<Doc>, string>,
                        split: (Splitter, Doc) -> seq<Doc>): seq<(string, BuildOutcome)>
    decreases |entries|
  {
    if entries == [] then []
    else
      var e := entries[|entries| - 1];
      MainOutcomes(entries[..|entries| - 1], embeddingModel, load, split) +
      if ValidEntry(e) then [(e.name.value, RepoRun(e.name.value, e.path.value, embeddingModel, load, split).0)]
      else []
  }

  /** The lines the main loop prints for its entries. */
  function MainLog(entries: seq<RepoEntry>, embeddingModel: string,
                   load: LoaderSpec -> Result<seq<Doc>, string>,
                   split: (Splitter, Doc) -> seq<Doc>): seq<BuildEvent>
    decreases |entries|
  {
    if entries == [] then []
    else
      var e := entries[|entries| - 1];
      MainLog(entries[..|entries| - 1], embeddingModel, load, split) +
      if ValidEntry(e) then RepoRun(e.name.value, e.path.value, embeddingModel, load, split).1
      else [InvalidEntryWarning(e)]
  }

  /** The store after the saves of a sequence of outcomes, later ones overwriting. */
  function SaveAll(indexes: map<string, Index>, outcomes: seq<(string, BuildOutcome)>,
                   embeddingModel: string): map<string, Index>
    decreases |outcomes|
  {
    if outcomes == [] then indexes
    else
      var o := outcomes[|outcomes| - 1].1;
      var before := SaveAll(indexes, outcomes[..|outcomes| - 1], embeddingModel);
      if o.Saved? then before[o.dir := Index(o.chunks, embeddingModel)] else before
  }

  /** The `__main__` block: refuse a missing embedding model before building
      anything, then build the valid entries in config order. */
  method BuildAll(store: IndexStore, config: Config,
                  load: LoaderSpec -> Result<seq<Doc>, string>,
                  split: (Splitter, Doc) -> seq<Doc>)
    returns (r: Result<seq<(string, BuildOutcome)>, ConfigError>, log: seq<BuildEvent>)
    modifies store
    ensures !Present(config.embedding) ==>
      r == Failure(MissingEmbeddingModel) && log == [] && store.indexes == old(store.indexes)
    ensures Present(config.embedding) ==>
      var emb := config.embedding.value;
      && r == Success(MainOutcomes(config.repositories, emb, load, split))
      && log == MainLog(config.repositories, emb, load, split) + [AllIndexesBuilt]
      && store.indexes == SaveAll(old(store.indexes), r.value, emb)
  {
    log := [];
    if !Present(config.embedding) {
      r := Failure(MissingEmbeddingModel);
      return;
    }
    var emb := config.embedding.value;
    var entries := config.repositories;
    var outcomes: seq<(string, BuildOutcome)> := [];
    for i := 0 to |entries|
      invariant outcomes == MainOutcomes(entries[..i], emb, load, split)
      invariant log == MainLog(entries[..i], emb, load, split)
      invariant store.indexes == SaveAll(old(store.indexes), outcomes, emb)
    {
      assert entries[..i + 1][..i] == entries[..i];
      var entry := entries[i];
      if Present(entry.name) && Present(entry.path) {
        var outcome, repoLog := BuildIndexForRepo(store, entry.name.value, entry.path.value, emb, load, split);
        outcomes := outcomes + [(entry.name.value, outcome)];
        assert outcomes[..|outcomes| - 1] == MainOutcomes(entries[..i], emb, load, split);
        log := log + repoLog;
      } else {
        log := log + [InvalidEntryWarning(entry)];
      }
    }
    assert entries[..|entries|] == entries;
    log := log + [AllIndexesBuilt];
    r := Success(outcomes);
  }

  // ---------------------------------------------------------------------
  // Properties of the loading stage

  /** Loading a sequence of loader types in two parts gives the two
      parts' documents, one after the other. */
  lemma {:induction false} LoadAllAppend(factory: LoaderFactory, a: seq<LoaderType>, b: seq<LoaderType>,
                                         load: LoaderSpec -> Result<seq<Doc>, string>)
    ensures LoadAll(factory, a + b, load) == LoadAll(factory, a, load) + LoadAll(factory, b, load)
    decreases |b|
  {
    if b == [] {
      assert a + b == a;
    } else {
      var ab := a + b;
      assert ab[..|ab| - 1] == a + b[..|b| - 1];
      assert ab[|ab| - 1] == b[|b| - 1];
      LoadAllAppend(factory, a, b[..|b| - 1], load);
    }
  }

  /** A loader type that fails contributes no documents: the others'
      documents are kept, in the same order. */
  lemma LoadAllSkipsFailure(factory: LoaderFactory, a: seq<LoaderType>, t: LoaderType, b: seq<LoaderType>,
                            load: LoaderSpec -> Result<seq<Doc>, string>)
    requires LoadStep(factory, t, load).Failure?
    ensures LoadAll(factory, a + [t] + b, load) == LoadAll(factory, a + b, load)
  {
    LoadAllAppend(factory, a + [t], b, load);
    LoadAllAppend(factory, a, [t], load);
    LoadAllAppend(factory, a, b, load);
    assert [t][..0] == [];
  }

  /** Every loaded document comes from a loader type that succeeded. */
  lemma {:induction false} LoadAllOrigin(factory: LoaderFactory, types: seq<LoaderType>,
                                         load: LoaderSpec -> Result<seq<Doc>, string>, d: Doc)
    requires d in LoadAll(factory, types, load)
    ensures exists i :: 0 <= i < |types| && LoadStep(factory, types[i], load).Success? &&
                        d in LoadStep(factory, types[i], load).value
    decreases |types|
  {
    var init := types[..|types| - 1];
    var last := LoadStep(factory, types[|types| - 1], load);
    if last.Success? && d in last.value {
      assert LoadStep(factory, types[|types| - 1], load).Success? &&
             d in LoadStep(factory, types[|types| - 1], load).value;
    } else {
      LoadAllOrigin(factory, init, load, d);
      var i :| 0 <= i < |init| && LoadStep(factory, init[i], load).Success? &&
               d in LoadStep(factory, init[i], load).value;
      assert types[i] == init[i];
    }
  }

  /** No warning is printed exactly when every loader type succeeds. */
  lemma {:induction false} LoadWarningsEmptyIff(factory: LoaderFactory, types: seq<LoaderType>,
                                                load: LoaderSpec -> Result<seq<Doc>, string>)
    ensures LoadWarnings(factory, types, load) == [] <==>
      forall i :: 0 <= i < |types| ==> LoadStep(factory, types[i], load).Success?
    decreases |types|
  {
    if types != [] {
      var init := types[..|types| - 1];
      LoadWarningsEmptyIff(factory, init, load);
      assert forall i :: 0 <= i < |init| ==> init[i] == types[i];
    }
  }

  /** Every warning names a loader type that was tried and the failure it had. */
  lemma {:induction false} LoadWarningsSound(factory: LoaderFactory, types: seq<LoaderType>,
                                             load: LoaderSpec -> Result<seq<Doc>, string>, k: nat)
    requires k < |LoadWarnings(factory, types, load)|
    ensures var w := LoadWarnings(factory, types, load)[k];
      && w.LoaderWarning?
      && w.loaderType in types
      && LoadStep(factory, w.loaderType, load) == Failure(w.cause)
    decreases |types|
  {
    var init := types[..|types| - 1];
    if k < |LoadWarnings(factory, init, load)| {
      LoadWarningsSound(factory, init, load, k);
      var w := LoadWarnings(factory, init, load)[k];
      assert w.loaderType in init;
    } else {
      assert types[|types| - 1] in types;
    }
  }

  /** A repository with one Python document whose unstructured loader
      fails still loads that document, and only that document, with one
      warning for the failing loader. */
  lemma UnstructuredFailureIsNotFatal(factory: LoaderFactory, load: LoaderSpec -> Result<seq<Doc>, string>,
                                      pythonDoc: Doc, message: string)
    requires load(factory.GetLoader(Lang(JAVA)).value) == Success([])
    requires load(factory.GetLoader(Lang(PYTHON)).value) == Success([pythonDoc])
    requires load(factory.GetLoader(Lang(JS)).value) == Success([])
    requires load(factory.GetLoader(Named(GeneralUnstructured)).value) == Failure(message)
    ensures LoadAll(factory, DesiredLoaderTypes, load) == [pythonDoc]
    ensures LoadWarnings(factory, DesiredLoaderTypes, load) ==
      [LoaderWarning(Named(GeneralUnstructured), LoaderRaised(message))]
  {
    var ts := DesiredLoaderTypes;
    assert ts[..1][..0] == [] && ts[..2][..1] == ts[..1] && ts[..3][..2] == ts[..2] && ts[..3] == ts[..|ts| - 1];
    assert LoadAll(factory, ts[..1], load) == [] && LoadWarnings(factory, ts[..1], load) == [];
    assert LoadAll(factory, ts[..2], load) == [pythonDoc] && LoadWarnings(factory, ts[..2], load) == [];
    assert LoadAll(factory, ts[..3], load) == [pythonDoc] && LoadWarnings(factory, ts[..3], load) == [];
  }

  // ---------------------------------------------------------------------
  // Properties of the splitting stage

  /** Splitting is document by document: splitting two lists of documents
      gives the two lists' chunks, one after the other. */
  lemma {:induction false} SplitAllAppend(a: seq<Doc>, b: seq<Doc>, split: (Splitter, Doc) -> seq<Doc>)
    ensures SplitAll(a + b, split) == SplitAll(a, split) + SplitAll(b, split)
    decreases |b|
  {
    if b == [] {
      assert a + b == a;
    } else {
      var ab := a + b;
      assert ab[..|ab| - 1] == a + b[..|b| - 1];
      assert ab[|ab| - 1] == b[|b| - 1];
      SplitAllAppend(a, b[..|b| - 1], split);
    }
  }

  /** Every chunk comes from splitting one of the documents with the
      splitter that document selects. */
  lemma {:induction false} SplitAllOrigin(docs: seq<Doc>, split: (Splitter, Doc) -> seq<Doc>, c: Doc)
    requires c in SplitAll(docs, split)
    ensures exists i :: 0 <= i < |docs| && c in split(SelectSplitter(docs[i]), docs[i])
    decreases |docs|
  {
    var init := docs[..|docs| - 1];
    var d := docs[|docs| - 1];
    if c in split(SelectSplitter(d), d) {
      assert docs[|docs| - 1] == d;
    } else {
      SplitAllOrigin(init, split, c);
      var i :| 0 <= i < |init| && c in split(SelectSplitter(init[i]), init[i]);
      assert docs[i] == init[i];
    }
  }

  // ---------------------------------------------------------------------
  // Properties of one repository's build

  /** The outcome of building one repository: an empty path crashes; else
      the index is saved, under the repository's directory and holding the
      chunks of all loaded documents, exactly when some documents were
      loaded and splitting them produced some chunks. */
  lemma RepoRunOutcome(name: string, path: string, embeddingModel: string,
                       load: LoaderSpec -> Result<seq<Doc>, string>,
                       split: (Splitter, Doc) -> seq<Doc>)
    ensures var outcome := RepoRun(name, path, embeddingModel, load, split).0;
      var docs := LoadAll(LoaderFactory(path), DesiredLoaderTypes, load);
      && (outcome.Crashed? <==> path == "")
      && (path != "" && docs == [] ==> outcome == Skipped(NoDocuments))
      && (path != "" && docs != [] && SplitAll(docs, split) == [] ==> outcome == Skipped(NoChunks))
      && (outcome.Saved? <==> path != "" && docs != [] && SplitAll(docs, split) != [])
      && (outcome.Saved? ==> outcome.dir == IndexDir(name) && outcome.chunks == SplitAll(docs, split))
  {
  }

  /** A repository with a non-empty name saves under `faiss_indexes/<name>`,
      and two repositories with different names never save to the same place. */
  lemma SavedDirectoryNamesRepository(a: string, pa: string, b: string, pb: string, embeddingModel: string,
                                      load: LoaderSpec -> Result<seq<Doc>, string>,
                                      split: (Splitter, Doc) -> seq<Doc>)
    requires a != ""
    ensures RepoRun(a, pa, embeddingModel, load, split).0.Saved? ==>
      RepoRun(a, pa, embeddingModel, load, split).0.dir == "faiss_indexes/" + a
    ensures a != b && RepoRun(a, pa, embeddingModel, load, split).0.Saved? &&
            RepoRun(b, pb, embeddingModel, load, split).0.Saved? ==>
      RepoRun(a, pa, embeddingModel, load, split).0.dir != RepoRun(b, pb, embeddingModel, load, split).0.dir
  {
    RepoRunOutcome(a, pa, embeddingModel, load, split);
    RepoRunOutcome(b, pb, embeddingModel, load, split);
    if a != b {
      IndexDirInjective(a, b);
    }
  }

  // ---------------------------------------------------------------------
  // Properties of the main loop

  /** The built entries are exactly the valid entries of the config. */
  lemma {:induction false} ValidEntriesExactly(entries: seq<RepoEntry>, x: RepoEntry)
    ensures x in ValidEntries(entries) <==> x in entries && ValidEntry(x)
    decreases |entries|
  {
    if entries != [] {
      var init := entries[..|entries| - 1];
      ValidEntriesExactly(init, x);
      assert entries == init + [entries[|entries| - 1]];
    }
  }

  /** The main loop builds the valid entries in config order, one outcome each. */
  lemma {:induction false} MainOutcomesInConfigOrder(entries: seq<RepoEntry>, embeddingModel: string,
                                                     load: LoaderSpec -> Result<seq<Doc>, string>,
                                                     split: (Splitter, Doc) -> seq<Doc>)
    ensures var outcomes := MainOutcomes(entries, embeddingModel, load, split);
      var valid := ValidEntries(entries);
      && |outcomes| == |valid|
      && forall k :: 0 <= k < |valid| ==>
           ValidEntry(valid[k]) &&
           outcomes[k] == (valid[k].name.value,
                           RepoRun(valid[k].name.value, valid[k].path.value, embeddingModel, load, split).0)
    decreases |entries|
  {
    if entries != [] {
      MainOutcomesInConfigOrder(entries[..|entries| - 1], embeddingModel, load, split);
    }
  }

  /** No entry the main loop builds crashes: each has a non-empty path. */
  lemma MainNeverCrashes(entries: seq<RepoEntry>, embeddingModel: string,
                         load: LoaderSpec -> Result<seq<Doc>, string>,
                         split: (Splitter, Doc) -> seq<Doc>, k: nat)
    requires k < |MainOutcomes(entries, embeddingModel, load, split)|
    ensures !MainOutcomes(entries, embeddingModel, load, split)[k].1.Crashed?
  {
    MainOutcomesInConfigOrder(entries, embeddingModel, load, split);
    var valid := ValidEntries(entries);
    ValidEntriesExactly(entries, valid[k]);
  }

  /** After the main loop a directory holds an index exactly when it held
      one before or some built repository was saved there. */
  lemma {:induction false} SaveAllKeys(indexes: map<string, Index>, outcomes: seq<(string, BuildOutcome)>,
                                       embeddingModel: string, dir: string)
    ensures dir in SaveAll(indexes, outcomes, embeddingModel) <==>
      dir in indexes ||
      exists k :: 0 <= k < |outcomes| && outcomes[k].1.Saved? && outcomes[k].1.dir == dir
    decreases |outcomes|
  {
    if outcomes != [] {
      var init := outcomes[..|outcomes| - 1];
      SaveAllKeys(indexes, init, embeddingModel, dir);
      assert forall k :: 0 <= k < |init| ==> init[k] == outcomes[k];
    }
  }
}
