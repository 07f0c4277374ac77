/** The chat application: the configuration check at startup, and the two
    handlers that drive one chat session. A session keeps a key-value
    store (`chat_profile`, `chat_chain`, `rag_chain`) and the messages it
    has sent. Loading an index, running a chain and the chat transport are
    outside the model: which index directories exist is a parameter, and
    the chains' answers are given by `invokeRag` and `invokeChat`. */
module AppUi {
  import opened Common

  const RepoQA: string := "Repo Q&A"

  /** The number of documents each per-repository retriever returns. */
  const RetrieverK: nat := 5

  /** The two model names, once the startup check has accepted them. */
  datatype Models = Models(llm: string, embedding: string)

  /** A retriever over one saved index. */
  datatype Retriever = Retriever(indexDir: string, embeddingModel: string, k: nat)

  /** The values a session stores. `RagChain` answers over an ensemble of
      the retrievers, in the order given. */
  datatype SessionValue =
    | ProfileName(name: string)
    | ChatChain(llm: string)
    | RagChain(llm: string, retrievers: seq<Retriever>)

  /** A text element shown inline under a message. */
  datatype Element = TextElement(name: string, content: string)

  datatype Message = Message(content: string, elements: seq<Element>)

  /** What the retrieval chain returns: its answer and, when it returns
      them, the documents it used. */
  datatype RagResponse = RagResponse(result: string, sourceDocuments: Option<seq<Doc>>)

  const LoadingIndexesText: string := "Loading repository indexes for **Repo Q&A** mode..."
  const ConfigNotFoundText: string := "Error: `config.yml` not found."
  const NoIndexesText: string := "No valid repository indexes were loaded."
  const GeneralModeText: string := "**General Chat** mode activated. I will not use your repositories as context."
  const RagNotConfiguredText: string :=
    "The RAG system is not configured. Please restart the chat in the 'Repo Q&A' profile."
  const ChatNotConfiguredText: string := "The chat system is not configured. Please restart the chat."

  const MissingIndexPrefix: string := "Warning: Index for repo '"
  const MissingIndexSuffix: string := "' not found. Please run `build_indexes.py`."

  /** The warning for a repository whose index directory is missing. */
  function MissingIndexText(name: string): (t: string)
    ensures |t| == |MissingIndexPrefix| + |name| + |MissingIndexSuffix|
    ensures t[..|MissingIndexPrefix|] == MissingIndexPrefix
    ensures t[|MissingIndexPrefix|..|MissingIndexPrefix| + |name|] == name
    ensures t[|MissingIndexPrefix| + |name|..] == MissingIndexSuffix
  {
    MissingIndexPrefix + name + MissingIndexSuffix
  }

  const ReadyPrefix: string := "Ready to answer questions about "
  const ReadySuffix: string := " repositories!"

  /** The notice that `count` retrievers loaded; the count reads back from it. */
  function ReadyText(count: nat): (t: string)
    ensures |t| > |ReadyPrefix| + |ReadySuffix|
    ensures t[..|ReadyPrefix|] == ReadyPrefix
    ensures t[|t| - |ReadySuffix|..] == ReadySuffix
    ensures var digits := t[|ReadyPrefix|..|t| - |ReadySuffix|];
      AllDigits(digits) && DigitsValue(digits) == count
  {
    var digits := NatToString(count);
    NatToStringRoundTrip(count);
    var t := ReadyPrefix + digits + ReadySuffix;
    assert t[|ReadyPrefix|..|t| - |ReadySuffix|] == digits;
    t
  }

  /** The module-level configuration check: a missing file, or a missing
      or empty model name, stops the application. */
  function StartupModels(config: Option<Config>): (r: Result<Models, ConfigError>)
    ensures r.Success? <==> config.Some? && Present(config.value.llm) && Present(config.value.embedding)
    ensures config.None? ==> r == Failure(ConfigNotFound)
    ensures config.Some? && r.Failure? ==> r == Failure(MissingModels)
    ensures r.Success? ==> r.value == Models(config.value.llm.value, config.value.embedding.value)
  {
    match config
    case None => Failure(ConfigNotFound)
    case Some(c) =>
      if Present(c.llm) && Present(c.embedding) then Success(Models(c.llm.value, c.embedding.value))
      else Failure(MissingModels)
  }

  // ---------------------------------------------------------------------
  // Loading the indexes of the configured repositories

  predicate AllNamed(repos: seq<RepoEntry>)
  {
    forall i :: 0 <= i < |repos| ==> repos[i].name.Some?
  }

  /** One retriever per repository whose index directory exists, in config order. */
  function Retrievers(repos: seq<RepoEntry>, indexDirs: set<string>, embeddingModel: string): seq<Retriever>
    requires AllNamed(repos)
    decreases |repos|
  {
    if repos == [] then []
    else
      var dir := IndexDir(repos[|repos| - 1].name.value);
      Retrievers(repos[..|repos| - 1], indexDirs, embeddingModel) +
      if dir in indexDirs then [Retriever(dir, embeddingModel, RetrieverK)] else []
  }

  /** One warning per repository whose index directory is missing, in config order. */
  function MissingWarnings(repos: seq<RepoEntry>, indexDirs: set<string>): seq<Message>
    requires AllNamed(repos)
    decreases |repos|
  {
    if repos == [] then []
    else
      var name := repos[|repos| - 1].name.value;
      MissingWarnings(repos[..|repos| - 1], indexDirs) +
      if IndexDir(name) in indexDirs then [] else [Message(MissingIndexText(name), [])]
  }

  // ---------------------------------------------------------------------
  // Citations

  /** `doc.metadata.get('source', '')`. */
  function SourceOf(doc: Doc): (s: string)
    ensures "source" in doc.metadata ==> s == doc.metadata["source"]
    ensures "source" !in doc.metadata ==> s == ""
  {
    if "source" in doc.metadata then doc.metadata["source"] else ""
  }

  /** The label of the citation at position `i` (counting from zero) for a
      file called `name`. */
  function CitationLabel(i: nat, name: string): string
  {
    "Source " + NatToString(i + 1) + ": " + name
  }

  /** The label of the citation at position `i` for `doc`. */
  function SourceLabel(i: nat, doc: Doc): string
  {
    CitationLabel(i, Basename(SourceOf(doc)))
  }

  /** `elements` cites `docs`: one element per document, in order, each
      labelled by its position and showing the document's text. */
  predicate IsCitationList(docs: seq<Doc>, elements: seq<Element>)
  {
    && |elements| == |docs|
    && forall i :: 0 <= i < |docs| ==> elements[i] == TextElement(SourceLabel(i, docs[i]), docs[i].content)
  }

  /** The documents a response cites: none when it returns no list. */
  function CitedDocs(response: RagResponse): seq<Doc>
  {
    if response.sourceDocuments.Some? then response.sourceDocuments.value else []
  }

  lemma CitationListExtend(docs: seq<Doc>, i: nat, elements: seq<Element>)
    requires i < |docs| && IsCitationList(docs[..i], elements)
    ensures IsCitationList(docs[..i + 1], elements + [TextElement(SourceLabel(i, docs[i]), docs[i].content)])
  {
    var next := elements + [TextElement(SourceLabel(i, docs[i]), docs[i].content)];
    forall k | 0 <= k < i + 1
      ensures next[k] == TextElement(SourceLabel(k, docs[..i + 1][k]), docs[..i + 1][k].content)
    {
      if k < i {
        assert next[k] == elements[k] && docs[..i][k] == docs[k];
      }
    }
  }

  /** The citation loop of `on_message`. */
  method BuildCitations(sourceDocuments: Option<seq<Doc>>) returns (elements: seq<Element>)
    ensures IsCitationList(if sourceDocuments.Some? then sourceDocuments.value else [], elements)
  {
    elements := [];
    if sourceDocuments.Some? {
      var docs := sourceDocuments.value;
      for i := 0 to |docs|
        invariant IsCitationList(docs[..i], elements)
      {
        var sourceName := SourceLabel(i, docs[i]);
        CitationListExtend(docs, i, elements);
        elements := elements + [TextElement(sourceName, docs[i].content)];
      }
      assert docs[..|docs|] == docs;
    }
  }

  // ---------------------------------------------------------------------
  // The session

  class Session {
    var store: map<string, SessionValue>
    var sent: seq<Message>

    /** A new session, with the profile the user picked, if any. */
    constructor (profile: Option<string>)
      ensures store == if profile.Some? then map["chat_profile" := ProfileName(profile.value)] else map[]
      ensures sent == []
    {
      store := if profile.Some? then map["chat_profile" := ProfileName(profile.value)] else map[];
      sent := [];
    }

    /** `cl.user_session.get("chat_profile")`. */
    function Profile(): (p: Option<string>)
      reads this
      ensures p.Some? <==> "chat_profile" in store && store["chat_profile"].ProfileName?
      ensures p.Some? ==> store["chat_profile"] == ProfileName(p.value)
    {
      if "chat_profile" in store && store["chat_profile"].ProfileName?
      then Some(store["chat_profile"].name)
      else None
    }

    /** The loop of `on_chat_start` over the configured repositories: a
        retriever for each one whose index directory exists, and a warning
        sent for each one whose directory is missing, in config order. */
    method LoadRetrievers(repos: seq<RepoEntry>, indexDirs: set<string>, embeddingModel: string)
      returns (listOfRetrievers: seq<Retriever>)
      requires AllNamed(repos)
      modifies this`sent
      ensures listOfRetrievers == Retrievers(repos, indexDirs, embeddingModel)
      ensures sent == old(sent) + MissingWarnings(repos, indexDirs)
    {
      ghost var before := sent;
      listOfRetrievers := [];
      for i := 0 to |repos|
        invariant listOfRetrievers == Retrievers(repos[..i], indexDirs, embeddingModel)
        invariant sent == before + MissingWarnings(repos[..i], indexDirs)
      {
        assert repos[..i + 1][..i] == repos[..i];
        var repoName := repos[i].name.value;
        var indexDir := IndexDir(repoName);
        if indexDir in indexDirs {
          listOfRetrievers := listOfRetrievers + [Retriever(indexDir, embeddingModel, RetrieverK)];
        } else {
          sent := sent + [Message(MissingIndexText(repoName), [])];
        }
      }
      assert repos[..|repos|] == repos;
    }

    /** `on_chat_start`: store the direct chat chain; for the Repo Q&A
        profile, load a retriever for every repository whose index exists,
        warn about each one that does not, and store the retrieval chain
        when at least one loaded. `repoConfigs` is `None` when the
        configuration file cannot be found. */
    method OnChatStart(models: Models, repoConfigs: Option<seq<RepoEntry>>, indexDirs: set<string>)
      requires repoConfigs.Some? ==> AllNamed(repoConfigs.value)
      modifies this
      ensures Profile() == old(Profile())
      ensures "chat_chain" in store && store["chat_chain"] == ChatChain(models.llm)
      ensures old(Profile()) != Some(RepoQA) ==>
        && store == old(store)["chat_chain" := ChatChain(models.llm)]
        && sent == old(sent) + [Message(GeneralModeText, [])]
      ensures old(Profile()) == Some(RepoQA) && repoConfigs.None? ==>
        && store == old(store)["chat_chain" := ChatChain(models.llm)]
        && sent == old(sent) + [Message(LoadingIndexesText, []), Message(ConfigNotFoundText, [])]
      ensures old(Profile()) == Some(RepoQA) && repoConfigs.Some? ==>
        var retrievers := Retrievers(repoConfigs.value, indexDirs, models.embedding);
        && store == (if retrievers == [] then old(store)["chat_chain" := ChatChain(models.llm)]
                     else old(store)["chat_chain" := ChatChain(models.llm)]
                                    ["rag_chain" := RagChain(models.llm, retrievers)])
        && sent == old(sent) + [Message(LoadingIndexesText, [])]
                             + MissingWarnings(repoConfigs.value, indexDirs)
                             + [Message(if retrievers == [] then NoIndexesText else ReadyText(|retrievers|), [])]
      ensures "rag_chain" !in old(store) ==>
        ("rag_chain" in store <==>
           old(Profile()) == Some(RepoQA) && repoConfigs.Some? &&
           Retrievers(repoConfigs.value, indexDirs, models.embedding) != [])
    {
      var chatProfile := Profile();
      assert "chat_chain" != "chat_profile" && "rag_chain" != "chat_profile";
      store := store["chat_chain" := ChatChain(models.llm)];

      if chatProfile == Some(RepoQA) {
        sent := sent + [Message(LoadingIndexesText, [])];
        if repoConfigs.None? {
          sent := sent + [Message(ConfigNotFoundText, [])];
          return;
        }
        var listOfRetrievers := LoadRetrievers(repoConfigs.value, indexDirs, models.embedding);

        if listOfRetrievers != [] {
          store := store["rag_chain" := RagChain(models.llm, listOfRetrievers)];
          sent := sent + [Message(ReadyText(|listOfRetrievers|), [])];
        } else {
          sent := sent + [Message(NoIndexesText, [])];
        }
      } else {
        sent := sent + [Message(GeneralModeText, [])];
      }
    }

    /** `on_message`: the Repo Q&A profile answers with the retrieval chain
        and cites the documents it returns, or reports that the chain is
        not configured; every other profile answers with the direct chain,
        or reports that it is not configured. Exactly one message is sent. */
    method OnMessage(content: string,
                     invokeRag: (SessionValue, string) -> RagResponse,
                     invokeChat: (SessionValue, string) -> string)
      modifies this`sent
      ensures store == old(store)
      ensures |sent| == |old(sent)| + 1 && sent[..|old(sent)|] == old(sent)
      ensures var reply := sent[|sent| - 1];
        && (Profile() == Some(RepoQA) && "rag_chain" !in store ==>
              reply == Message(RagNotConfiguredText, []))
        && (Profile() == Some(RepoQA) && "rag_chain" in store ==>
              var response := invokeRag(store["rag_chain"], content);
              reply.content == response.result && IsCitationList(CitedDocs(response), reply.elements))
        && (Profile() != Some(RepoQA) && "chat_chain" !in store ==>
              reply == Message(ChatNotConfiguredText, []))
        && (Profile() != Some(RepoQA) && "chat_chain" in store ==>
              reply == Message(invokeChat(store["chat_chain"], content), []))
    {
      var chatProfile := Profile();
      if chatProfile == Some(RepoQA) {
        if "rag_chain" !in store {
          sent := sent + [Message(RagNotConfiguredText, [])];
          return;
        }
        var response := invokeRag(store["rag_chain"], content);
        var sourceElements := BuildCitations(response.sourceDocuments);
        sent := sent + [Message(response.result, sourceElements)];
      } else {
        if "chat_chain" !in store {
          sent := sent + [Message(ChatNotConfiguredText, [])];
          return;
        }
        var answer := invokeChat(store["chat_chain"], content);
        sent := sent + [Message(answer, [])];
      }
    }
  }

  // ---------------------------------------------------------------------
  // Properties

  /** Every configured repository either loads one retriever or produces
      one warning, never both and never neither. */
  lemma {:induction false} EachRepoLoadsOrWarns(repos: seq<RepoEntry>, indexDirs: set<string>, embeddingModel: string)
    requires AllNamed(repos)
    ensures |Retrievers(repos, indexDirs, embeddingModel)| + |MissingWarnings(repos, indexDirs)| == |repos|
    decreases |repos|
  {
    if repos != [] {
      EachRepoLoadsOrWarns(repos[..|repos| - 1], indexDirs, embeddingModel);
    }
  }

  /** Every retriever reads an existing index of a configured repository,
      embeds with the configured model and returns five documents. */
  lemma {:induction false} RetrieversSound(repos: seq<RepoEntry>, indexDirs: set<string>, embeddingModel: string, k: nat)
    requires AllNamed(repos)
    requires k < |Retrievers(repos, indexDirs, embeddingModel)|
    ensures var r := Retrievers(repos, indexDirs, embeddingModel)[k];
      && r.indexDir in indexDirs
      && r.embeddingModel == embeddingModel
      && r.k == RetrieverK
      && exists i :: 0 <= i < |repos| && r.indexDir == IndexDir(repos[i].name.value)
    decreases |repos|
  {
    var init := repos[..|repos| - 1];
    if k < |Retrievers(init, indexDirs, embeddingModel)| {
      RetrieversSound(init, indexDirs, embeddingModel, k);
      var r := Retrievers(init, indexDirs, embeddingModel)[k];
      var i :| 0 <= i < |init| && r.indexDir == IndexDir(init[i].name.value);
      assert repos[i] == init[i];
    } else {
      assert Retrievers(repos, indexDirs, embeddingModel)[k] ==
             Retriever(IndexDir(repos[|repos| - 1].name.value), embeddingModel, RetrieverK);
    }
  }

  /** A warning is sent for a repository exactly when its index directory
      is missing. */
  lemma {:induction false} WarningsNameMissingIndexes(repos: seq<RepoEntry>, indexDirs: set<string>, name: string)
    requires AllNamed(repos)
    ensures Message(MissingIndexText(name), []) in MissingWarnings(repos, indexDirs) <==>
      exists i :: 0 <= i < |repos| && repos[i].name == Some(name) && IndexDir(name) !in indexDirs
    decreases |repos|
  {
    if repos != [] {
      var init := repos[..|repos| - 1];
      var last := repos[|repos| - 1].name.value;
      WarningsNameMissingIndexes(init, indexDirs, name);
      assert forall i :: 0 <= i < |init| ==> init[i] == repos[i];
      if Message(MissingIndexText(name), []) == Message(MissingIndexText(last), []) {
        MissingIndexTextInjective(name, last);
      }
    }
  }

  /** Different repository names give different warnings. */
  lemma MissingIndexTextInjective(a: string, b: string)
    requires MissingIndexText(a) == MissingIndexText(b)
    ensures a == b
  {
    var n := |MissingIndexPrefix|;
    assert |a| == |b|;
    assert a == MissingIndexText(a)[n..n + |a|];
    assert b == MissingIndexText(b)[n..n + |b|];
  }

  /** The configuration with repositories A and B where only A's index
      exists: one warning, naming B, and one retriever, over A's index. */
  lemma OnlyExistingIndexesAreLoaded(embeddingModel: string)
    ensures var repos := [RepoEntry(Some("A"), None), RepoEntry(Some("B"), None)];
      var dirs := {IndexDir("A")};
      && Retrievers(repos, dirs, embeddingModel) == [Retriever(IndexDir("A"), embeddingModel, RetrieverK)]
      && MissingWarnings(repos, dirs) == [Message(MissingIndexText("B"), [])]
  {
    var repos := [RepoEntry(Some("A"), None), RepoEntry(Some("B"), None)];
    IndexDirInjective("A", "B");
    assert repos[..1][..0] == [];
    assert repos[..1] == repos[..|repos| - 1];
  }

  /** Where the number and the colon sit in a citation label. */
  lemma CitationLabelDigits(i: nat, name: string)
    ensures var text := CitationLabel(i, name);
      var digits := NatToString(i + 1);
      && |text| == 9 + |digits| + |name|
      && (forall k :: 0 <= k < |digits| ==> text[7 + k] == digits[k])
      && text[7 + |digits|] == ':'
  {
    var digits := NatToString(i + 1);
    var p := "Source " + digits;
    var q := p + ": ";
    assert CitationLabel(i, name) == q + name;
    assert forall k :: 0 <= k < |digits| ==> p[7 + k] == digits[k];
    assert forall k :: 0 <= k < |p| ==> q[k] == p[k];
    assert q[|p|] == ':';
  }

  /** A citation label reads "Source ", the position plus one in decimal,
      ": ", and the file name. */
  lemma CitationLabelParts(i: nat, name: string)
    ensures var text := CitationLabel(i, name);
      var digits := NatToString(i + 1);
      && DigitsValue(digits) == i + 1
      && |text| == 9 + |digits| + |name|
      && text[..7] == "Source "
      && (forall k :: 0 <= k < |digits| ==> text[7 + k] == digits[k])
      && text[7 + |digits|] == ':' && text[8 + |digits|] == ' '
      && text[9 + |digits|..] == name
  {
    NatToStringRoundTrip(i + 1);
    CitationLabelDigits(i, name);
    var digits := NatToString(i + 1);
    var p := "Source " + digits;
    var q := p + ": ";
    var text := q + name;
    assert text == CitationLabel(i, name);
    assert p[..7] == "Source ";
    assert text[..7] == p[..7];
    assert text[8 + |digits|] == q[|p| + 1];
    assert text[|q|..] == name;
  }

  /** Labels at different positions differ, whatever the file names: each
      carries its own number, counting from one. */
  lemma CitationLabelsDiffer(i: nat, j: nat, x: string, y: string)
    requires i != j
    ensures CitationLabel(i, x) != CitationLabel(j, y)
  {
    var si, sj := NatToString(i + 1), NatToString(j + 1);
    var lx, ly := CitationLabel(i, x), CitationLabel(j, y);
    CitationLabelDigits(i, x);
    CitationLabelDigits(j, y);
    if |si| < |sj| {
      assert IsDigit(sj[|si|]);
      assert lx[7 + |si|] != ly[7 + |si|];
    } else if |sj| < |si| {
      assert IsDigit(si[|sj|]);
      assert lx[7 + |sj|] != ly[7 + |sj|];
    } else {
      NatToStringInjective(i + 1, j + 1);
      var k :| 0 <= k < |si| && si[k] != sj[k];
      assert lx[7 + k] != ly[7 + k];
    }
  }

  /** A citation list has one element per document, labels all different. */
  lemma CitationLabelsDistinct(docs: seq<Doc>, elements: seq<Element>, i: nat, j: nat)
    requires IsCitationList(docs, elements)
    requires i < j < |elements|
    ensures elements[i].name != elements[j].name
  {
    CitationLabelsDiffer(i, j, Basename(SourceOf(docs[i])), Basename(SourceOf(docs[j])));
  }
}
