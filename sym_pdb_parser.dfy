/**
 * The ISymUnmanagedReader back end (DumpLines/SymPdbParser.cpp). The CLR hosting, metadata
 * and symbol-reader COM objects are not modelled: what they answer is an input, a
 * `SymEngine`. What the parser itself does around those answers — deriving the assembly
 * path from the PDB path, probing the MethodDef token range, filling the records, the
 * hexadecimal fallback names and sorting the document list — is modelled.
 */
module SymPdbParsing {
  import opened Wrappers
  import opened PdbCommon
  import opened TextFormat
  import opened Sorting

  /**
   * MethodDef tokens: table 0x06 in the top byte (ECMA-335 Partition II section 22.26),
   * row numbers from 1 in the low three bytes (Partition III section 1.9). The parser
   * probes rows 1 to 0xFFFF.
   */
  const FIRST_METHOD_TOKEN: uint32 := 0x06000001
  const METHOD_TOKEN_END: uint32 := 0x06010000

  const SYM_READER_GUID: string := "N/A (ISymUnmanagedReader)"

  /** The first sequence point of a method, as far as the parser reads it. */
  datatype SequencePoint = SequencePoint(
    url: Option<string>,  // the document URL; None when either GetURL call fails or reports length 0
    line: uint32)         // the start line of the sequence point

  /** What the COM objects answer about one method found by `GetMethod`. */
  datatype SymMethod = SymMethod(
    token: Option<uint32>,               // GetToken; None when it fails
    props: Option<string>,               // GetMethodProps' name; None when it fails
    firstPoint: Option<SequencePoint>)   // None when there is no sequence point with a document

  datatype Document = NullDocument | Document(url: Option<string>)

  /**
   * How far the chain CLRCreateInstance, GetRuntime, GetInterface, OpenScope, CoCreateInstance,
   * GetReaderForFile gets. HostingFailed stops before OpenScope; ScopeFailed is OpenScope failing
   * or giving back a null scope; BinderFailed is CoCreateInstance failing with the scope open;
   * ReaderFailed is GetReaderForFile failing, which leaves its out-parameter null.
   */
  datatype ComChain = HostingFailed | ScopeFailed | BinderFailed | ReaderFailed | ReaderOpened

  /** The answers of the COM objects for one PDB and its assembly. */
  datatype SymEngine = SymEngine(
    open: string -> ComChain,               // by module path
    getMethod: uint32 -> Option<SymMethod>,  // ISymUnmanagedReader::GetMethod, by token
    documentCount: Option<nat>,             // the first GetDocuments call
    documents: Option<seq<Document>>)       // the second GetDocuments call

  // ---------------------------------------------------------------- path derivation

  predicate OccursAt(s: string, pat: string, i: nat) {
    i + |pat| <= |s| && s[i..i + |pat|] == pat
  }

  /** `std::string::rfind`: the last position at which `pat` occurs in `s`. */
  function RFind(s: string, pat: string): (r: Option<nat>)
    ensures r.Some? ==> OccursAt(s, pat, r.value)
    ensures r.Some? ==> forall j: nat :: r.value < j ==> !OccursAt(s, pat, j)
    ensures r.None? ==> forall j: nat :: !OccursAt(s, pat, j)
  {
    if |s| < |pat| then None
    else if s[|s| - |pat|..] == pat then Some(|s| - |pat|)
    else
      var r := RFind(s[..|s| - 1], pat);
      assert forall j: nat :: OccursAt(s, pat, j) && j < |s| - |pat| ==> OccursAt(s[..|s| - 1], pat, j) by {
        forall j: nat | OccursAt(s, pat, j) && j < |s| - |pat| ensures OccursAt(s[..|s| - 1], pat, j) {
          assert s[..|s| - 1][j..j + |pat|] == s[j..j + |pat|];
        }
      }
      assert r.Some? ==> OccursAt(s, pat, r.value) by {
        if r.Some? {
          assert s[..|s| - 1][r.value..r.value + |pat|] == s[r.value..r.value + |pat|];
        }
      }
      r
  }

  /** The path without its `.pdb` extension, when `.pdb` last occurs exactly at the end. */
  function PdbStem(path: string): Option<string> {
    match RFind(path, ".pdb")
    case Some(i) => if i == |path| - 4 then Some(path[..i]) else None
    case None => None
  }

  /** The rfind test is exactly "ends with `.pdb`", case-sensitively. */
  lemma PdbStemIsSuffixTest(path: string)
    ensures PdbStem(path).Some? <==> |path| >= 4 && path[|path| - 4..] == ".pdb"
    ensures PdbStem(path).Some? ==> path == PdbStem(path).value + ".pdb"
  {
  }

  lemma UpperCaseExtensionRejected()
    ensures PdbStem("app.PDB") == None
    ensures PdbStem("app.pdb") == Some("app")
    ensures PdbStem("pdb") == None
  {
    PdbStemIsSuffixTest("app.PDB");
    PdbStemIsSuffixTest("app.pdb");
    assert "app.pdb"[..3] == "app";
    PdbStemIsSuffixTest("pdb");
  }

  /** The assembly next to the PDB: `.dll` if that file exists, else `.exe` if that one exists. */
  function AssemblyPath(pdbPath: string, fileExists: string -> bool): Option<string> {
    match PdbStem(pdbPath)
    case None => None
    case Some(stem) =>
      if fileExists(stem + ".dll") then Some(stem + ".dll")
      else if fileExists(stem + ".exe") then Some(stem + ".exe")
      else None
  }

  lemma AssemblyPathSpec(pdbPath: string, fileExists: string -> bool)
    ensures AssemblyPath(pdbPath, fileExists).Some? <==>
      PdbStem(pdbPath).Some? &&
      (fileExists(PdbStem(pdbPath).value + ".dll") || fileExists(PdbStem(pdbPath).value + ".exe"))
    ensures AssemblyPath(pdbPath, fileExists).Some? ==>
      var stem := PdbStem(pdbPath).value;
      var m := AssemblyPath(pdbPath, fileExists).value;
      pdbPath == stem + ".pdb" && fileExists(m) &&
      (m == stem + ".dll" || (m == stem + ".exe" && !fileExists(stem + ".dll")))
  {
  }

  // ---------------------------------------------------------------- records

  /** The name used when the metadata cannot name a method: "0x" and eight hex digits. */
  function FallbackName(token: uint32): (name: string)
    ensures |name| == 10 && name[..2] == "0x"
  {
    Pow16Of8();
    "0x" + HexFixed(token, 8)
  }

  lemma FallbackNameSpec(token: uint32)
    ensures AllLowerHex(FallbackName(token)[2..])
    ensures ParseHex(FallbackName(token)[2..]) == token
  {
    Pow16Of8();
    assert FallbackName(token)[2..] == HexFixed(token, 8);
    ParseHexFixed(token, 8);
  }

  /**
   * GetMethodInfoFromSymbol: the record for one method. None when GetToken fails.
   * `metadataOpen` says whether the metadata import was obtained.
   */
  function MethodInfoFromSymbol(m: SymMethod, metadataOpen: bool): (r: Option<MethodInfo>)
    ensures r.None? <==> m.token.None?
    ensures r.Some? ==> r.value.index == r.value.rva == m.token.value
    ensures r.Some? ==> r.value.modBase == 0 && r.value.address == 0 && r.value.size == 0
    ensures r.Some? && r.value.sourceFile == "" ==> r.value.lineNumber == 0
  {
    match m.token
    case None => None
    case Some(token) =>
      var name := if metadataOpen && m.props.Some? then m.props.value else FallbackName(token);
      var file := if m.firstPoint.Some? then m.firstPoint.value.url.GetOr("") else "";
      var line := if file == "" then 0 else m.firstPoint.value.line;
      Some(MethodInfo(name, 0, 0, 0, token, token, file, line))
  }

  /** The name is the metadata's when it answers, and otherwise the hexadecimal token. */
  lemma MethodNameSpec(m: SymMethod, metadataOpen: bool)
    requires m.token.Some?
    ensures var info := MethodInfoFromSymbol(m, metadataOpen).value;
      info.name == (if metadataOpen && m.props.Some? then m.props.value else FallbackName(m.token.value))
    ensures var info := MethodInfoFromSymbol(m, metadataOpen).value;
      (m.firstPoint.None? || m.firstPoint.value.url.None?) ==> info.sourceFile == "" && info.lineNumber == 0
  {
  }

  /** The record probing one token yields: none when GetMethod or GetToken fails. */
  function ProbedMethod(getMethod: uint32 -> Option<SymMethod>, metadataOpen: bool, t: uint32): Option<MethodInfo> {
    if getMethod(t).Some? then MethodInfoFromSymbol(getMethod(t).value, metadataOpen) else None
  }

  /** The methods found by probing the tokens from FIRST_METHOD_TOKEN up to, not including, `hi`. */
  function ProbeMethods(getMethod: uint32 -> Option<SymMethod>, metadataOpen: bool, hi: uint32): (r: seq<MethodInfo>)
    ensures |r| <= if hi <= FIRST_METHOD_TOKEN then 0 else hi - FIRST_METHOD_TOKEN
  {
    if hi <= FIRST_METHOD_TOKEN then []
    else
      var found := ProbedMethod(getMethod, metadataOpen, hi - 1);
      ProbeMethods(getMethod, metadataOpen, hi - 1) + (if found.Some? then [found.value] else [])
  }

  /** A record is listed iff probing some token of the range yields it. */
  lemma {:induction false} ProbeMethodsSpec(getMethod: uint32 -> Option<SymMethod>, metadataOpen: bool, hi: uint32)
    ensures forall m :: m in ProbeMethods(getMethod, metadataOpen, hi) <==>
      exists t: uint32 :: FIRST_METHOD_TOKEN <= t < hi && ProbedMethod(getMethod, metadataOpen, t) == Some(m)
  {
    if hi > FIRST_METHOD_TOKEN {
      ProbeMethodsSpec(getMethod, metadataOpen, hi - 1);
      forall m | (exists t: uint32 :: FIRST_METHOD_TOKEN <= t < hi && ProbedMethod(getMethod, metadataOpen, t) == Some(m))
        ensures m in ProbeMethods(getMethod, metadataOpen, hi)
      {
        var t: uint32 :| FIRST_METHOD_TOKEN <= t < hi && ProbedMethod(getMethod, metadataOpen, t) == Some(m);
        if t == hi - 1 {
          assert m == ProbeMethods(getMethod, metadataOpen, hi)[|ProbeMethods(getMethod, metadataOpen, hi)| - 1];
        } else {
          assert m in ProbeMethods(getMethod, metadataOpen, hi - 1);
        }
      }
    }
  }

  /** The reader answers GetMethod(t) with the method whose token is t. */
  ghost predicate TokensFaithful(getMethod: uint32 -> Option<SymMethod>) {
    forall t: uint32 :: getMethod(t).Some? ==> getMethod(t).value.token == Some(t)
  }

  predicate StrictlyIncreasingIndex(ms: seq<MethodInfo>) {
    forall i, j :: 0 <= i < j < |ms| ==> ms[i].index < ms[j].index
  }

  /**
   * When GetToken gives back the probed token, the method list is ordered by strictly
   * increasing token and stays within the probed MethodDef range.
   */
  lemma {:induction false} ProbeMethodsOrdered(getMethod: uint32 -> Option<SymMethod>, metadataOpen: bool, hi: uint32)
    requires TokensFaithful(getMethod)
    ensures StrictlyIncreasingIndex(ProbeMethods(getMethod, metadataOpen, hi))
    ensures forall m :: m in ProbeMethods(getMethod, metadataOpen, hi) ==> FIRST_METHOD_TOKEN <= m.index < hi
  {
    if hi > FIRST_METHOD_TOKEN {
      ProbeMethodsOrdered(getMethod, metadataOpen, hi - 1);
    }
  }

  /** The record for a token for which GetMethod succeeds. */
  function TokenRecord(token: uint32): (t: TokenInfo)
    ensures t.token == t.index == token
    ensures t.flags == 0 && t.value == 0 && t.address == 0 && t.tag == 0
    ensures |t.name| == 11 && t.name[..3] == " 0x"
  {
    Pow16Of8();
    TokenInfo(token, token, 0, 0, 0, 0, " 0x" + HexFixed(token, 8))
  }

  lemma TokenRecordName(token: uint32)
    ensures ParseHex(TokenRecord(token).name[3..]) == token
  {
    Pow16Of8();
    assert TokenRecord(token).name[3..] == HexFixed(token, 8);
    ParseHexFixed(token, 8);
  }

  /** The token records found by probing the tokens from FIRST_METHOD_TOKEN up to, not including, `hi`. */
  function ProbeTokens(getMethod: uint32 -> Option<SymMethod>, hi: uint32): seq<TokenInfo> {
    if hi <= FIRST_METHOD_TOKEN then []
    else ProbeTokens(getMethod, hi - 1) + (if getMethod(hi - 1).Some? then [TokenRecord(hi - 1)] else [])
  }

  /**
   * The token list holds exactly the probed tokens that GetMethod accepts, in strictly
   * increasing order.
   */
  lemma {:induction false} ProbeTokensSpec(getMethod: uint32 -> Option<SymMethod>, hi: uint32)
    ensures forall i, j :: 0 <= i < j < |ProbeTokens(getMethod, hi)| ==>
      ProbeTokens(getMethod, hi)[i].token < ProbeTokens(getMethod, hi)[j].token
    ensures forall t: uint32 :: TokenRecord(t) in ProbeTokens(getMethod, hi) <==>
      FIRST_METHOD_TOKEN <= t < hi && getMethod(t).Some?
    ensures forall r :: r in ProbeTokens(getMethod, hi) ==> r == TokenRecord(r.token) && FIRST_METHOD_TOKEN <= r.token < hi
  {
    if hi > FIRST_METHOD_TOKEN {
      ProbeTokensSpec(getMethod, hi - 1);
      var prev := ProbeTokens(getMethod, hi - 1);
      forall t: uint32 | TokenRecord(t) in ProbeTokens(getMethod, hi)
        ensures FIRST_METHOD_TOKEN <= t < hi && getMethod(t).Some?
      {
        if TokenRecord(t) !in prev {
          assert TokenRecord(t) == TokenRecord(hi - 1);
        }
      }
    }
  }

  /** The URLs of the documents, in the reader's order, skipping null documents and unreadable URLs. */
  function DocumentUrls(docs: seq<Document>): (urls: seq<string>)
    ensures |urls| <= |docs|
  {
    if docs == [] then []
    else
      var last := docs[|docs| - 1];
      DocumentUrls(docs[..|docs| - 1]) + (if last.Document? && last.url.Some? then [last.url.value] else [])
  }

  /** A URL is listed iff some document in the list is non-null and answers with that URL. */
  lemma {:induction false} DocumentUrlsSpec(docs: seq<Document>)
    ensures forall u :: u in DocumentUrls(docs) <==> Document(Some(u)) in docs
  {
    if docs != [] {
      var init := docs[..|docs| - 1];
      DocumentUrlsSpec(init);
      assert docs == init + [docs[|docs| - 1]];
    }
  }

  /** ComputeSourceFiles succeeds exactly when the reader reports at least one document and lists them. */
  predicate DocumentsListed(engine: SymEngine) {
    engine.documentCount.Some? && engine.documentCount.value > 0 && engine.documents.Some?
  }

  /** How far opening gets: none when the PDB or its assembly is missing, else where the COM chain ends. */
  function OpenOutcome(pdbPath: string, fileExists: string -> bool, engine: SymEngine): Option<ComChain> {
    if fileExists(pdbPath) && AssemblyPath(pdbPath, fileExists).Some? then
      Some(engine.open(AssemblyPath(pdbPath, fileExists).value))
    else None
  }

  /** The COM chain reaches OpenScope, which then writes the metadata handle. */
  predicate ScopeAttempted(pdbPath: string, fileExists: string -> bool, engine: SymEngine) {
    OpenOutcome(pdbPath, fileExists, engine).Some?
    && OpenOutcome(pdbPath, fileExists, engine) != Some(HostingFailed)
  }

  /** The COM chain obtains the metadata scope of the assembly. */
  predicate ScopeOpens(pdbPath: string, fileExists: string -> bool, engine: SymEngine) {
    ScopeAttempted(pdbPath, fileExists, engine)
    && OpenOutcome(pdbPath, fileExists, engine) != Some(ScopeFailed)
  }

  /** The COM chain reaches GetReaderForFile, which then writes the reader handle. */
  predicate ReaderAttempted(pdbPath: string, fileExists: string -> bool, engine: SymEngine) {
    OpenOutcome(pdbPath, fileExists, engine) == Some(ReaderFailed)
    || OpenOutcome(pdbPath, fileExists, engine) == Some(ReaderOpened)
  }

  /** The PDB exists, its assembly is found, and the COM chain reaches the symbol reader. */
  predicate ReaderOpens(pdbPath: string, fileExists: string -> bool, engine: SymEngine) {
    OpenOutcome(pdbPath, fileExists, engine) == Some(ReaderOpened)
  }

  /** LoadPdbFile succeeds: the symbol reader is opened and the documents are listed. */
  predicate LoadSucceeds(pdbPath: string, fileExists: string -> bool, engine: SymEngine) {
    ReaderOpens(pdbPath, fileExists, engine) && DocumentsListed(engine)
  }

  // ---------------------------------------------------------------- the parser object

  class SymPdbParser {
    var readerOpen: bool    // the ISymUnmanagedReader has been obtained
    var metadataOpen: bool  // the IMetaDataImport has been obtained
    var methods: seq<MethodInfo>
    var sourceFiles: seq<string>
    var tokens: seq<TokenInfo>
    var guid: string
    var age: uint32
    var pdbFilePath: string

    constructor ()
      ensures !readerOpen && !metadataOpen
      ensures methods == [] && sourceFiles == [] && tokens == []
      ensures guid == "" && age == 0 && pdbFilePath == ""
    {
      readerOpen, metadataOpen := false, false;
      methods, sourceFiles, tokens := [], [], [];
      guid, age, pdbFilePath := "", 0, "";
    }

    /** Appends a record for every probed token whose method the reader knows and whose token it reports. */
    method ComputeMethodsInfo(engine: SymEngine) returns (ok: bool)
      modifies this`methods
      ensures ok == readerOpen
      ensures methods == if ok then old(methods) + ProbeMethods(engine.getMethod, metadataOpen, METHOD_TOKEN_END)
                         else old(methods)
    {
      if !readerOpen {
        return false;
      }
      var token: uint32 := FIRST_METHOD_TOKEN;
      while token < METHOD_TOKEN_END
        invariant FIRST_METHOD_TOKEN <= token <= METHOD_TOKEN_END
        invariant methods == old(methods) + ProbeMethods(engine.getMethod, metadataOpen, token)
      {
        var found := engine.getMethod(token);
        if found.Some? {
          var info := MethodInfoFromSymbol(found.value, metadataOpen);
          if info.Some? {
            methods := methods + [info.value];
          }
        }
        token := token + 1;
      }
      return true;
    }

    /** Collects the URLs of all documents and sorts them. */
    method ComputeSourceFiles(engine: SymEngine) returns (ok: bool)
      modifies this`sourceFiles
      ensures ok == (readerOpen && DocumentsListed(engine))
      ensures !ok ==> sourceFiles == old(sourceFiles)
      ensures ok ==> IsSortingOf(sourceFiles, old(sourceFiles) + DocumentUrls(engine.documents.value), StrLe)
    {
      if !readerOpen || engine.documentCount.None? || engine.documentCount.value == 0 || engine.documents.None? {
        return false;
      }
      var docs := engine.documents.value;
      var i := 0;
      while i < |docs|
        invariant 0 <= i <= |docs|
        invariant sourceFiles == old(sourceFiles) + DocumentUrls(docs[..i])
      {
        assert docs[..i + 1][..i] == docs[..i];
        if docs[i].Document? && docs[i].url.Some? {
          sourceFiles := sourceFiles + [docs[i].url.value];
        }
        i := i + 1;
      }
      assert docs[..i] == docs;
      sourceFiles := SortBy(sourceFiles, StrLe);
      SortStringsSpec(old(sourceFiles) + DocumentUrls(docs));
      return true;
    }

    /** Appends a token record for every probed token the reader knows. */
    method ComputeTokens(engine: SymEngine) returns (ok: bool)
      modifies this`tokens
      ensures ok == readerOpen
      ensures tokens == if ok then old(tokens) + ProbeTokens(engine.getMethod, METHOD_TOKEN_END) else old(tokens)
    {
      if !readerOpen {
        return false;
      }
      var token: uint32 := FIRST_METHOD_TOKEN;
      while token < METHOD_TOKEN_END
        invariant FIRST_METHOD_TOKEN <= token <= METHOD_TOKEN_END
        invariant tokens == old(tokens) + ProbeTokens(engine.getMethod, token)
      {
        if engine.getMethod(token).Some? {
          tokens := tokens + [TokenRecord(token)];
        }
        token := token + 1;
      }
      return true;
    }

    /** The three lists after the probes: what was there before plus what was collected. */
    ghost predicate ListsFilled(engine: SymEngine, methods0: seq<MethodInfo>, sourceFiles0: seq<string>, tokens0: seq<TokenInfo>)
      reads this
      requires engine.documents.Some?
    {
      && methods == methods0 + ProbeMethods(engine.getMethod, metadataOpen, METHOD_TOKEN_END)
      && IsSortingOf(sourceFiles, sourceFiles0 + DocumentUrls(engine.documents.value), StrLe)
      && tokens == tokens0 + ProbeTokens(engine.getMethod, METHOD_TOKEN_END)
    }

    /**
     * The three lists once the reader and the metadata are open: the probed methods are
     * appended whatever happens next, and the source files and tokens are filled only
     * when the whole load succeeds.
     */
    ghost predicate ListsAfterOpen(engine: SymEngine, ok: bool, methods0: seq<MethodInfo>, sourceFiles0: seq<string>, tokens0: seq<TokenInfo>)
      reads this
    {
      && methods == methods0 + ProbeMethods(engine.getMethod, metadataOpen, METHOD_TOKEN_END)
      && (ok ==>
            && engine.documents.Some?
            && IsSortingOf(sourceFiles, sourceFiles0 + DocumentUrls(engine.documents.value), StrLe)
            && tokens == tokens0 + ProbeTokens(engine.getMethod, METHOD_TOKEN_END))
      && (!ok ==> sourceFiles == sourceFiles0 && tokens == tokens0)
    }

    /** Runs the three computations in order, stopping at the first that fails. */
    method ComputeLists(engine: SymEngine) returns (ok: bool)
      modifies this`methods, this`sourceFiles, this`tokens
      ensures ok == (readerOpen && DocumentsListed(engine))
      ensures ok ==> ListsFilled(engine, old(methods), old(sourceFiles), old(tokens))
      ensures methods == if readerOpen then old(methods) + ProbeMethods(engine.getMethod, metadataOpen, METHOD_TOKEN_END)
                         else old(methods)
      ensures !ok ==> sourceFiles == old(sourceFiles) && tokens == old(tokens)
    {
      ok := ComputeMethodsInfo(engine);
      if !ok {
        return;
      }
      ok := ComputeSourceFiles(engine);
      if !ok {
        return;
      }
      ok := ComputeTokens(engine);
    }

    /**
     * Records the path, finds the assembly beside the PDB and walks the COM chain to the
     * symbol reader. OpenScope and GetReaderForFile write their handle whether or not they
     * succeed; a step the chain does not reach leaves its handle as it was.
     */
    method OpenReader(path: string, fileExists: string -> bool, engine: SymEngine) returns (ok: bool)
      modifies this`pdbFilePath, this`metadataOpen, this`readerOpen
      ensures pdbFilePath == path
      ensures ok == ReaderOpens(path, fileExists, engine)
      ensures metadataOpen ==
        if ScopeAttempted(path, fileExists, engine) then ScopeOpens(path, fileExists, engine) else old(metadataOpen)
      ensures readerOpen == if ReaderAttempted(path, fileExists, engine) then ok else old(readerOpen)
    {
      pdbFilePath := path;
      if !fileExists(path) {
        return false;
      }
      var modulePath := AssemblyPath(path, fileExists);
      if modulePath.None? {
        return false;
      }
      assert OpenOutcome(path, fileExists, engine) == Some(engine.open(modulePath.value));
      match engine.open(modulePath.value)
      case HostingFailed =>
        return false;
      case ScopeFailed =>
        metadataOpen := false;
        return false;
      case BinderFailed =>
        metadataOpen := true;
        return false;
      case ReaderFailed =>
        metadataOpen, readerOpen := true, false;
        return false;
      case ReaderOpened =>
        metadataOpen, readerOpen := true, true;
        return true;
    }

    /** With the reader open: sets the placeholder GUID and age, then fills the three lists. */
    method FillLists(engine: SymEngine, ghost methods0: seq<MethodInfo>, ghost sourceFiles0: seq<string>, ghost tokens0: seq<TokenInfo>)
      returns (ok: bool)
      requires readerOpen && metadataOpen
      requires methods == methods0 && sourceFiles == sourceFiles0 && tokens == tokens0
      modifies this`guid, this`age, this`methods, this`sourceFiles, this`tokens
      ensures ok == DocumentsListed(engine)
      ensures guid == SYM_READER_GUID && age == 0
      ensures ListsAfterOpen(engine, ok, methods0, sourceFiles0, tokens0)
    {
      guid, age := SYM_READER_GUID, 0;
      ok := ComputeLists(engine);
    }

    /** Opens the PDB through its assembly and fills the three lists; fails at the first step that fails. */
    method LoadPdbFile(path: string, fileExists: string -> bool, engine: SymEngine) returns (ok: bool)
      modifies this
      ensures pdbFilePath == path
      ensures ok == LoadSucceeds(path, fileExists, engine)
      ensures metadataOpen ==
        if ScopeAttempted(path, fileExists, engine) then ScopeOpens(path, fileExists, engine) else old(metadataOpen)
      ensures readerOpen ==
        if ReaderAttempted(path, fileExists, engine) then ReaderOpens(path, fileExists, engine) else old(readerOpen)
      // a missing file, a path not ending in ".pdb", a missing assembly or a COM failure
      ensures !ReaderOpens(path, fileExists, engine) ==>
        && guid == old(guid) && age == old(age)
        && methods == old(methods) && sourceFiles == old(sourceFiles) && tokens == old(tokens)
      // the reader is open: the methods are appended even when the documents cannot be listed
      ensures ReaderOpens(path, fileExists, engine) ==>
        && guid == SYM_READER_GUID && age == 0
        && ListsAfterOpen(engine, ok, old(methods), old(sourceFiles), old(tokens))
    {
      ghost var methods0, sourceFiles0, tokens0 := methods, sourceFiles, tokens;
      var readerFound := OpenReader(path, fileExists, engine);
      if !readerFound {
        return false;
      }
      ok := FillLists(engine, methods0, sourceFiles0, tokens0);
    }
  }
}
