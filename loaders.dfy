/** The loader factory: from a repository root and a requested loader
    type, a description of the document loader to run. The loaders
    themselves (file-system scanning, parsing) are not modelled; a
    `LoaderSpec` records the configuration the factory hands them. */
module Loaders {
  import opened Common

  /** The code languages of the text-splitting library's enumeration. */
  datatype Language =
    | CPP | GO | JAVA | KOTLIN | JS | TS | PHP | PROTO | PYTHON | RST | RUBY | RUST
    | SCALA | SWIFT | MARKDOWN | LATEX | HTML | SOL | CSHARP | COBOL | C | LUA | PERL | HASKELL
  {
    /** The member's string value, which is also what a loaded document
        carries under its `language` metadata key. */
    function Value(): (v: string)
      ensures v != ""
      ensures v == "java" <==> this == JAVA
      ensures v == "python" <==> this == PYTHON
      ensures v == "js" <==> this == JS
    {
      match this
      case CPP => "cpp"
      case GO => "go"
      case JAVA => "java"
      case KOTLIN => "kotlin"
      case JS => "js"
      case TS => "ts"
      case PHP => "php"
      case PROTO => "proto"
      case PYTHON => "python"
      case RST => "rst"
      case RUBY => "ruby"
      case RUST => "rust"
      case SCALA => "scala"
      case SWIFT => "swift"
      case MARKDOWN => "markdown"
      case LATEX => "latex"
      case HTML => "html"
      case SOL => "sol"
      case CSHARP => "csharp"
      case COBOL => "cobol"
      case C => "c"
      case LUA => "lua"
      case PERL => "perl"
      case HASKELL => "haskell"
    }
  }

  /** What a caller may pass to `get_loader`: a member of the language
      enumeration or a plain string. */
  datatype LoaderType = Lang(language: Language) | Named(name: string)

  /** The configuration of a loader, as the factory builds it. */
  datatype LoaderSpec =
    | CodeLoader(path: string, glob: string, suffixes: seq<string>,
                 parserLanguage: Language, parserThreshold: nat)
    | UnstructuredLoader(path: string, glob: string, loaderClass: string, recursive: bool,
                         showProgress: bool, useMultithreading: bool, silentErrors: bool)

  datatype LoaderError = MissingRepoPath | UnsupportedLoaderType(loaderType: LoaderType)

  const GeneralUnstructured: string := "general_unstructured"

  /** The glob handed to the directory loader, kept as the literal it is. */
  const UnstructuredGlob: string := "**/*[.pdf|.docx|.md|.txt|.xml|.json]"

  const UnstructuredFileLoader: string := "UnstructuredFileLoader"

  const ParserThreshold: nat := 10

  /** The languages that have a code loader and their file extensions. */
  const CodeExtensions: map<Language, string> := map[JAVA := "java", PYTHON := "py", JS := "js"]

  /** A factory rooted at a repository path. Its one field is written
      only when it is created, by `NewLoaderFactory`. */
  datatype LoaderFactory = LoaderFactory(repoPath: string)
  {
    /** The loader for `loaderType`, or the error the factory raises. */
    function GetLoader(loaderType: LoaderType): (r: Result<LoaderSpec, LoaderError>)
      ensures r.Success? <==>
        loaderType == Lang(JAVA) || loaderType == Lang(PYTHON) || loaderType == Lang(JS) ||
        loaderType == Named(GeneralUnstructured)
      ensures r.Failure? ==> r.error == UnsupportedLoaderType(loaderType)
      ensures r.Success? ==> r.value.path == repoPath
      ensures r.Success? ==> (r.value.CodeLoader? <==> loaderType.Lang?)
      ensures loaderType == Lang(JAVA) ==> r == Success(CodeLoader(repoPath, "**/*.java", [".java"], JAVA, 10))
      ensures loaderType == Lang(PYTHON) ==> r == Success(CodeLoader(repoPath, "**/*.py", [".py"], PYTHON, 10))
      ensures loaderType == Lang(JS) ==> r == Success(CodeLoader(repoPath, "**/*.js", [".js"], JS, 10))
      ensures loaderType == Named(GeneralUnstructured) ==>
        r == Success(UnstructuredLoader(repoPath, UnstructuredGlob, UnstructuredFileLoader, true, true, true, true))
    {
      assert "**/*." + "java" == "**/*.java" && "." + "java" == ".java";
      assert "**/*." + "py" == "**/*.py" && "." + "py" == ".py";
      assert "**/*." + "js" == "**/*.js" && "." + "js" == ".js";
      if loaderType.Lang? && loaderType.language in CodeExtensions then
        var extension := CodeExtensions[loaderType.language];
        Success(CodeLoader(repoPath, "**/*." + extension, ["." + extension],
                           loaderType.language, ParserThreshold))
      else if loaderType == Named(GeneralUnstructured) then
        Success(UnstructuredLoader(repoPath, UnstructuredGlob, UnstructuredFileLoader,
                                   true, true, true, true))
      else
        Failure(UnsupportedLoaderType(loaderType))
    }
  }

  /** The factory's initializer: an absent or empty path is refused,
      any other is kept unchanged. */
  function NewLoaderFactory(repoPath: Option<string>): (r: Result<LoaderFactory, LoaderError>)
    ensures r.Success? <==> Present(repoPath)
    ensures r.Success? ==> r.value.repoPath == repoPath.value
    ensures r.Failure? ==> r.error == MissingRepoPath
  {
    if !Present(repoPath) then Failure(MissingRepoPath) else Success(LoaderFactory(repoPath.value))
  }

  /** A code loader looks for exactly one suffix, the one its glob ends in,
      and parses with the language it was asked for. */
  lemma CodeLoaderShape(f: LoaderFactory, language: Language)
    requires f.GetLoader(Lang(language)).Success?
    ensures var spec := f.GetLoader(Lang(language)).value;
      && spec.CodeLoader?
      && |spec.suffixes| == 1
      && spec.glob == "**/*" + spec.suffixes[0]
      && spec.parserLanguage == language
      && spec.parserThreshold == ParserThreshold
  {
  }

  /** Distinct supported loader types give distinct loaders. */
  lemma GetLoaderInjective(f: LoaderFactory, s: LoaderType, t: LoaderType)
    requires s != t
    requires f.GetLoader(s).Success? && f.GetLoader(t).Success?
    ensures f.GetLoader(s).value != f.GetLoader(t).value
  {
  }
}
