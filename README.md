# Repository indexing and chat routing, modelled in Dafny

This project models the deterministic core of a retrieval-augmented chat
tool over source-code repositories. There are three parts:

- **Loader factory** (`loaders.dfy`, module `Loaders`). A factory is built
  from a repository path and refuses an absent or empty one. Its one field
  is written only by its initializer and never changed afterwards. So the
  factory is an immutable value, `NewLoaderFactory` is the initializer, and
  `GetLoader` is a function of it that cannot change it. Given a
  requested loader type, it returns a *description* of the loader to run:
  - Java, Python and JS give a code loader. Each has its extension's glob and
    suffix, the requested parser language, and a parser threshold of 10.
  - `"general_unstructured"` gives a recursive, multithreaded directory loader
    that silently skips files it cannot parse.
  - Anything else is an `UnsupportedLoaderType` error.
- **Index builder** (`build_indexes.dfy`, module `BuildIndexes`).
  - For one repository, it tries the loaders in the fixed order Java, Python,
    JS, general-unstructured. It accumulates the documents of those that
    succeed and records a warning for each one that fails.
  - A repository with no documents, or no chunks, is skipped.
  - Otherwise each document is split by the splitter its `language` metadata
    selects (falling back to the general splitter). The chunks are
    concatenated in document order, and one index is saved under
    `faiss_indexes/<name>`.
  - The main loop refuses a missing embedding model before building anything.
    It then builds the valid configuration entries in order and warns about
    the others.
- **Session router** (`app_ui.dfy`, module `AppUi`). This covers the startup
  configuration check and a `Session` class.
  - The class's key-value `store` (`chat_profile`, `chat_chain`, `rag_chain`)
    and its log of `sent` messages are fields that the two handlers update in
    place.
  - `OnChatStart` always stores the direct chat chain. For the `"Repo Q&A"`
    profile, it loads one retriever (k = 5) for each configured repository
    whose index directory exists, and sends one warning for each one that
    does not, in configuration order. It stores the retrieval chain only when
    at least one retriever loaded.
  - `OnMessage` dispatches on the profile and never falls back from the
    retrieval path to direct chat. Citations are labelled
    `"Source <i+1>: " + basename(source)`, one per returned document.

`common.dfy` (module `Common`) holds the shared values: `Option`/`Result`,
documents, the configuration record, the index-directory layout, the decimal
rendering of numbers and the POSIX `basename`.

Collaborators that are not part of this model are parameters:
- `load` runs a loader description and returns its documents or the
  exception's text.
- `split` is a splitter's `split_documents([doc])`.
- `invokeRag` and `invokeChat` are the two chains.
- `indexDirs` is the set of index directories that exist on disk.

The disk of saved indexes is the `IndexStore` class. The builder's printed
lines are recorded as `BuildEvent` values. Chat messages are recorded with
their exact text.

Modelling choices that follow the code rather than the design prose:
- The unstructured loader's glob is the literal
  `**/*[.pdf|.docx|.md|.txt|.xml|.json]`, a bracket character class. It is
  not a list of extensions.
- Any exception from `get_loader` or `load` is caught, not only parse errors.
- Profiles are compared as strings. Any profile other than `"Repo Q&A"`,
  including none, takes the direct chat path.
- An empty repository list gives a "No valid repository indexes" notice. No
  error type is raised for it.
- The language tag of JavaScript documents is `"js"`.
- `FAISS_ROOT_DIR / name` with an empty name is the root directory itself,
  so `IndexDir("")` is `faiss_indexes`.
- The splitter table is keyed by the language enumeration, whose members are
  strings. So a document's `language` metadata is compared by its string
  value.
- The retrieval chain is built without asking it to return source documents
  (no `return_source_documents=True`, app_ui.py:95-97). So as written its
  response never carries `source_documents`, and no citation is ever shown.
  The response's `sourceDocuments` is kept optional so that the citation
  loop is modelled for a chain that does return them; with the chain as
  built it is always `None`.

## Model

| member | source | states |
|---|---|---|
| `Common.IndexDir` | build_indexes.py:17 | the index directory of a repository starts with `faiss_indexes` and ends with the name; for a non-empty name the two are joined by one `/` |
| `Common.IndexDirInjective` | build_indexes.py:17 | for names as modelled (no normalisation of `./` or trailing slashes), different repository names never map to the same index directory (including the empty name, which maps to the root) |
| `Common.NatToString` | app_ui.py:128 | the decimal rendering is non-empty, all digits, with no leading zero |
| `Common.NatToStringRoundTrip` | app_ui.py:128 | reading a rendered number back gives the number |
| `Common.NatToStringInjective` | app_ui.py:99 | different counts render as different text |
| `Common.Basename` | app_ui.py:128 | the result is the longest slash-free suffix of the path: a suffix, with no `/`, preceded by `/` when shorter than the path |
| `Loaders.Language.Value` | build_indexes.py:46-56 | each language member has a non-empty string value, and exactly JAVA, PYTHON and JS have the values `java`, `python` and `js` that the splitter lookup matches |
| `Loaders.NewLoaderFactory` | loaders/loader_factory.py:13-17 | an absent or empty path is refused with `MissingRepoPath`; any other is stored unchanged |
| `Loaders.LoaderFactory.GetLoader` | loaders/loader_factory.py:19-50 | succeeds exactly for JAVA, PYTHON, JS and `"general_unstructured"`, else fails with `UnsupportedLoaderType(t)`; every loader is rooted at the factory's path; gives the exact code loaders (`**/*.java`/`[".java"]`, `**/*.py`/`[".py"]`, `**/*.js`/`[".js"]`, requested language, threshold 10) and the unstructured loader (its glob, recursive, progress, multithreaded, silent errors) |
| `Loaders.CodeLoaderShape` | loaders/loader_factory.py:29-36 | a code loader has exactly one suffix, its glob is `**/*` followed by that suffix, and it parses with the requested language at threshold 10 |
| `Loaders.GetLoaderInjective` | loaders/loader_factory.py:23-48 | distinct supported loader types give distinct loaders |
| `BuildIndexes.SelectSplitter` | build_indexes.py:46-56 | every splitter has chunk size 1000 and overlap 200; the splitter is language-aware exactly when the document's `language` is `java`, `python` or `js`, and then for that language; otherwise it is the general one |
| `BuildIndexes.LoadStep` | build_indexes.py:33-37 | one turn of the loading loop succeeds exactly when the factory gives a loader and that loader returns documents, and then gives those documents; a factory rejection is only ever for an unsupported type, so none of the desired loader types is rejected; a loader's failure carries its message |
| `BuildIndexes.LoadDocuments` | build_indexes.py:29-37 | the loading loop yields exactly `LoadAll` (documents of the succeeding loader types in order) and `LoadWarnings` (one warning per failing type in order) over the fixed loader order |
| `BuildIndexes.SplitDocuments` | build_indexes.py:53-57 | the splitting loop yields exactly `SplitAll`, each document split on its own with its selected splitter, concatenated in order |
| `BuildIndexes.IndexStore.SaveLocal` | build_indexes.py:67-68 | saving replaces what the directory held and changes nothing else |
| `BuildIndexes.BuildIndexForRepo` | build_indexes.py:14-69 | outcome and printed lines equal `RepoRun`; the store gains the saved index under its directory when saved and is unchanged otherwise |
| `BuildIndexes.BuildAll` | build_indexes.py:72-92 | a missing or empty embedding model fails before anything is built or saved; otherwise the outcomes are those of the valid entries in config order, the lines are theirs plus the invalid-entry warnings, and the store is the old one after those saves |
| `BuildIndexes.LoadAllAppend` | build_indexes.py:32-35 | documents of a split sequence of loader types are the parts' documents concatenated |
| `BuildIndexes.LoadAllSkipsFailure` | build_indexes.py:33-37 | a failing loader type contributes nothing and does not stop the others: removing it changes nothing |
| `BuildIndexes.LoadAllOrigin` | build_indexes.py:32-35 | every loaded document comes from a loader type that succeeded |
| `BuildIndexes.LoadWarningsEmptyIff` | build_indexes.py:36-37 | no warning is printed if and only if every loader type succeeds |
| `BuildIndexes.LoadWarningsSound` | build_indexes.py:36-37 | every warning names a tried loader type and the failure it had |
| `BuildIndexes.UnstructuredFailureIsNotFatal` | build_indexes.py:22-37 | with one Python document and a failing unstructured loader, exactly that document is loaded, with one warning for the unstructured loader |
| `BuildIndexes.SplitAllAppend` | build_indexes.py:53-57 | splitting two document lists gives the two lists' chunks concatenated |
| `BuildIndexes.SplitAllOrigin` | build_indexes.py:53-57 | every chunk comes from splitting one of the documents with the splitter that document selects |
| `BuildIndexes.RepoRunOutcome` | build_indexes.py:39-68 | an empty path crashes; with no documents the repository is skipped, with no chunks it is skipped; it is saved exactly when both are non-empty, under `IndexDir(name)` with the chunks of all loaded documents |
| `BuildIndexes.SavedDirectoryNamesRepository` | build_indexes.py:17 | a saved index of a named repository is under `faiss_indexes/<name>`; for names as modelled, two differently named repositories, whatever their paths, never save to the same directory |
| `BuildIndexes.ValidEntriesExactly` | build_indexes.py:84-90 | the entries built are exactly those with a non-empty name and path |
| `BuildIndexes.MainOutcomesInConfigOrder` | build_indexes.py:84-88 | the main loop has one outcome per valid entry, in config order, each the outcome of building that entry |
| `BuildIndexes.MainNeverCrashes` | build_indexes.py:87-88 | no entry the main loop builds raises the empty-path error |
| `BuildIndexes.SaveAllKeys` | build_indexes.py:84-88 | after the loop a directory holds an index exactly when it did before or some built repository was saved there |
| `AppUi.StartupModels` | app_ui.py:22-31 | startup succeeds exactly when the config exists and both model names are non-empty, giving those names; a missing file and a missing model are distinct errors |
| `AppUi.Session.Profile` | app_ui.py:57 | the profile is present exactly when the store holds a profile name under `chat_profile`, and is that name |
| `AppUi.Session.LoadRetrievers` | app_ui.py:83-91 | the repository loop yields exactly `Retrievers` (one per existing index, in config order) and sends exactly `MissingWarnings` (one per missing index, in config order), leaving the store alone |
| `AppUi.MissingIndexText` | app_ui.py:91 | the warning is the fixed prefix, then the repository name, then the fixed suffix pointing at `build_indexes.py` |
| `AppUi.ReadyText` | app_ui.py:99 | the ready notice is the fixed prefix, the count in decimal digits that read back as the count, then ` repositories!` |
| `AppUi.Session.OnChatStart` | app_ui.py:51-103 | `chat_chain` is always stored and the profile unchanged; for other profiles only the General Chat notice is sent; for Repo Q&A with no config file, loading notice then error and no `rag_chain`; otherwise one retriever per existing index and one warning per missing one in config order, `rag_chain` stored exactly when some retriever loaded, and a ready message with their count or the no-index notice |
| `AppUi.Session.OnMessage` | app_ui.py:106-143 | exactly one message is sent and the store is unchanged; Repo Q&A without `rag_chain` sends the RAG configuration message, with it sends the chain's answer cited by its documents; any other profile sends the direct chain's answer, or the chat configuration message when there is none |
| `AppUi.SourceOf` | app_ui.py:128 | a document's source is its `source` metadata when present and the empty string otherwise |
| `AppUi.BuildCitations` | app_ui.py:125-131 | one element per source document, in order, labelled by position from 1 and basename, showing the document's text; none when no list is returned |
| `AppUi.EachRepoLoadsOrWarns` | app_ui.py:83-91 | every configured repository gives exactly one retriever or one warning |
| `AppUi.RetrieversSound` | app_ui.py:86-89 | every retriever is over an existing index directory of a configured repository, with the configured embedding model and k = 5 |
| `AppUi.WarningsNameMissingIndexes` | app_ui.py:90-91 | a warning naming a repository is sent if and only if a configured repository of that name has no index directory |
| `AppUi.MissingIndexTextInjective` | app_ui.py:91 | warnings for different repository names are different messages |
| `AppUi.OnlyExistingIndexesAreLoaded` | app_ui.py:83-91 | with repositories A and B and only A's index present: one retriever over A, one warning naming B |
| `AppUi.CitationLabelParts` | app_ui.py:128 | a label is `Source `, then position plus one in decimal (which reads back as that number), then `: `, then the file name |
| `AppUi.CitationLabelsDiffer` | app_ui.py:127-128 | labels at different positions differ whatever the file names |
| `AppUi.CitationLabelsDistinct` | app_ui.py:125-131 | the labels of a citation list are pairwise distinct, with no deduplication of documents |

## Left out

- Text splitting itself (`RecursiveCharacterTextSplitter`): `split` is a parameter. No claim is made about chunk sizes, overlap or syntactic boundaries beyond the configured 1000/200.
- File-system scanning, glob matching, language parsing and multithreaded loading: `load` is a parameter taking the loader description.
- Embedding, FAISS index construction, `save_local` and `load_local` internals: a saved index is recorded as its chunks and embedding model name. Loading an existing directory is assumed to succeed.
- Ensemble rank fusion, `RetrievalQA` and `LLMChain`: the retrieval chain is recorded as its model and ordered retrievers, and answers come from `invokeRag` / `invokeChat`.
- Exceptions from splitting, embedding, saving or invoking a chain: these propagate uncaught in the source, and the collaborators are total here.
- YAML parsing and opening `config.yml`: the configuration is a `Config` record. For `StartupModels` and `OnChatStart` an absent file is `None`. `BuildAll` takes a plain `Config`, so the builder's crash on a missing `config.yml` (build_indexes.py:75-76) is not represented. A malformed file is not modelled.
- The chat transport, `async`/`make_async`, and the chat-profile registration (including its second, redundant definition): sending a message appends it to `sent`, and the chosen profile is placed in the store by the `Session` constructor.
- `FAISS_ROOT_DIR.mkdir`: the directory tree is the `IndexStore`.
- Path normalisation beyond the empty component: absolute names, `..` and trailing slashes in repository names are not modelled.
- AppUi.Session.OnChatStart: requires every configured repository to have a name, because a missing name makes the source crash on the path join.
- Language: only a representative part of the library's language enumeration is listed. Only JAVA, PYTHON and JS behave differently from the rest.
- Builder output text: printed lines are structured `BuildEvent` values, not formatted strings.
- Design prose that the code does not carry out: atomic index writes, rebuild determinism, retriever fairness, and an error type for an empty retriever set.
