/** Values shared by the index builder and the chat application:
    optional and fallible results, documents, the configuration record,
    the index directory layout, and the small string helpers used to
    build user-visible text. */
module Common {

  datatype Option<T> = None | Some(value: T)

  datatype Result<T, E> = Success(value: T) | Failure(error: E)

  /** Python truthiness of an optional string: present and non-empty. */
  predicate Present(s: Option<string>)
  {
    s.Some? && s.value != ""
  }

  /** A document or a chunk of one: its text and its metadata mapping
      (`source`, and for code documents `language`). */
  datatype Doc = Doc(content: string, metadata: map<string, string>)

  /** One entry of the `repositories` list of the configuration file;
      either key may be absent. */
  datatype RepoEntry = RepoEntry(name: Option<string>, path: Option<string>)

  /** The configuration file, already parsed: `models.llm`,
      `models.embedding` and `repositories` (an absent list reads as empty). */
  datatype Config = Config(llm: Option<string>, embedding: Option<string>, repositories: seq<RepoEntry>)

  datatype ConfigError = ConfigNotFound | MissingModels | MissingEmbeddingModel

  const FaissRootDir: string := "faiss_indexes"

  /** `FAISS_ROOT_DIR / name`: an empty component adds nothing to the path. */
  function IndexDir(name: string): (d: string)
    ensures |FaissRootDir| <= |d| && d[..|FaissRootDir|] == FaissRootDir
    ensures |name| <= |d| && d[|d| - |name|..] == name
    ensures name != "" ==> |d| == |FaissRootDir| + 1 + |name| && d[|FaissRootDir|] == '/'
  {
    if name == "" then FaissRootDir else FaissRootDir + "/" + name
  }

  /** Different repository names never share an index directory. */
  lemma IndexDirInjective(a: string, b: string)
    requires a != b
    ensures IndexDir(a) != IndexDir(b)
  {
    if a == "" {
      assert |IndexDir(b)| > |IndexDir(a)|;
    } else if b == "" {
      assert |IndexDir(a)| > |IndexDir(b)|;
    } else {
      var n := |FaissRootDir| + 1;
      assert IndexDir(a)[n..] == a && IndexDir(b)[n..] == b;
    }
  }

  predicate IsDigit(c: char)
  {
    '0' <= c <= '9'
  }

  predicate AllDigits(s: string)
  {
    forall i :: 0 <= i < |s| ==> IsDigit(s[i])
  }

  function DigitChar(d: nat): (c: char)
    requires d < 10
    ensures IsDigit(c) && (c as int) - ('0' as int) == d
  {
    (('0' as int) + d) as char
  }

  /** Decimal rendering of a natural number, as Python's `str` gives it. */
  function NatToString(n: nat): (s: string)
    ensures |s| >= 1 && AllDigits(s)
    ensures n >= 10 ==> s[0] != '0'
    decreases n
  {
    if n < 10 then [DigitChar(n)] else NatToString(n / 10) + [DigitChar(n % 10)]
  }

  /** The value of a string of decimal digits. */
  function DigitsValue(s: string): nat
    requires AllDigits(s)
    decreases |s|
  {
    if s == [] then 0
    else DigitsValue(s[..|s| - 1]) * 10 + ((s[|s| - 1] as int) - ('0' as int))
  }

  /** Reading back a rendered number gives the number. */
  lemma {:induction false} NatToStringRoundTrip(n: nat)
    ensures DigitsValue(NatToString(n)) == n
    decreases n
  {
    var s := NatToString(n);
    if n < 10 {
      assert s[..|s| - 1] == [];
    } else {
      NatToStringRoundTrip(n / 10);
      assert s[..|s| - 1] == NatToString(n / 10);
    }
  }

  lemma NatToStringInjective(m: nat, n: nat)
    requires m != n
    ensures NatToString(m) != NatToString(n)
  {
    NatToStringRoundTrip(m);
    NatToStringRoundTrip(n);
  }

  /** POSIX `os.path.basename`: the longest suffix of `p` that holds no
      slash, that is, everything after the last `/`. */
  function Basename(p: string): (b: string)
    ensures '/' !in b
    ensures |b| <= |p| && b == p[|p| - |b|..]
    ensures |b| < |p| ==> p[|p| - |b| - 1] == '/'
    decreases |p|
  {
    if p == [] then []
    else if p[|p| - 1] == '/' then []
    else
      var init := p[..|p| - 1];
      var b := Basename(init);
      assert p[|p| - |b| - 1..] == init[|init| - |b|..] + [p[|p| - 1]];
      b + [p[|p| - 1]]
  }
}
