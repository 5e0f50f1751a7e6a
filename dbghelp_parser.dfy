/**
 * The DbgHelp back end (DumpLines/DbgHelpParser.cpp). The DbgHelp engine is not
 * modelled: what its calls answer is an input, a `DbgEngine`, and the symbols and file
 * names it hands to the enumeration callbacks are input sequences. What the parser does
 * with them — the guards of LoadPdbFile, the GUID string, the function-tag filter, the
 * RVA, the sorting and the consecutive token probe — is modelled.
 */
module DbgHelpParsing {
  import opened Wrappers
  import opened PdbCommon
  import opened TextFormat
  import opened Sorting

  /** SymTagFunction in DbgHelp's SymTagEnum. */
  const SYM_TAG_FUNCTION: uint32 := 5

  /** The fields of a SYMBOL_INFO that the parser reads. */
  datatype SymbolInfo = SymbolInfo(
    name: string,
    modBase: uint64,
    address: uint64,
    size: uint32,
    index: uint32,
    tag: uint32,
    flags: uint32,
    value: uint64)

  /** An IMAGEHLP_LINE64 as SymGetLineFromAddr64 fills it; a null file name is None. */
  datatype LineInfo = LineInfo(fileName: Option<string>, lineNumber: uint32)

  type Bytes8 = s: seq<uint8> | |s| == 8 witness [0, 0, 0, 0, 0, 0, 0, 0]

  /** A GUID as Windows lays it out: Data1, Data2, Data3 and the eight bytes of Data4. */
  datatype Guid = Guid(data1: uint32, data2: uint16, data3: uint16, data4: Bytes8)

  /** The part of IMAGEHLP_MODULE64 that the parser reads. */
  datatype ModuleInfo = ModuleInfo(pdbAge: uint32, pdbSig70: Guid)

  /** The answers of the DbgHelp engine for one PDB. */
  datatype DbgEngine = DbgEngine(
    loadModule: string -> uint64,            // SymLoadModuleEx: the base address, 0 on failure
    moduleInfo: Option<ModuleInfo>,          // SymGetModuleInfo64
    symbols: Option<seq<SymbolInfo>>,        // what SymEnumSymbols passes to the callback; None when it fails
    lineAt: uint64 -> Option<LineInfo>,      // SymGetLineFromAddr64, by address
    sourceFiles: Option<seq<Option<string>>>, // what SymEnumSourceFiles passes; None when it fails
    fromToken: uint32 -> Option<SymbolInfo>) // SymFromToken, by token

  // ---------------------------------------------------------------- GUID string

  /** The eight Data4 bytes, two hexadecimal digits each. */
  function BytesHex(bs: seq<uint8>): (s: string)
    ensures |s| == 2 * |bs| && AllLowerHex(s)
  {
    if bs == [] then "" else HexFixed(bs[0], 2) + BytesHex(bs[1..])
  }

  /**
   * The GUID as "%08x%04x%04x" followed by "%02x" for each Data4 byte: 32 lower-case
   * hexadecimal digits with no separators.
   */
  function GuidString(g: Guid): (s: string)
    ensures |s| == 32 && AllLowerHex(s)
  {
    Pow16Of8();
    HexFixed(g.data1, 8) + HexFixed(g.data2, 4) + HexFixed(g.data3, 4) + BytesHex(g.data4)
  }

  function ParseBytes(s: string): (bs: seq<uint8>)
    requires AllLowerHex(s) && |s| % 2 == 0
    ensures |bs| == |s| / 2
  {
    if s == [] then []
    else
      assert AllLowerHex(s[..2]);
      ParseHexBound(s[..2]);
      [ParseHex(s[..2])] + ParseBytes(s[2..])
  }

  lemma {:induction false} ParseHexBound(s: string)
    requires AllLowerHex(s)
    ensures ParseHex(s) < Pow16(|s|)
  {
    if s != [] {
      ParseHexBound(s[..|s| - 1]);
    }
  }

  /** Reads back a GUID from its 32-digit string. */
  function ParseGuid(s: string): Guid
    requires |s| == 32 && AllLowerHex(s)
  {
    Pow16Of8();
    ParseHexBound(s[..8]);
    ParseHexBound(s[8..12]);
    ParseHexBound(s[12..16]);
    Guid(ParseHex(s[..8]), ParseHex(s[8..12]), ParseHex(s[12..16]), ParseBytes(s[16..]))
  }

  lemma {:induction false} ParseBytesHex(bs: seq<uint8>)
    ensures ParseBytes(BytesHex(bs)) == bs
  {
    if bs != [] {
      var s := BytesHex(bs);
      assert s[..2] == HexFixed(bs[0], 2);
      assert s[2..] == BytesHex(bs[1..]);
      ParseHexFixed(bs[0], 2);
      ParseBytesHex(bs[1..]);
    }
  }

  /** The GUID string determines the GUID: no two GUIDs share a string. */
  lemma GuidStringRoundTrip(g: Guid)
    ensures ParseGuid(GuidString(g)) == g
  {
    Pow16Of8();
    var s := GuidString(g);
    assert s[..8] == HexFixed(g.data1, 8);
    assert s[8..12] == HexFixed(g.data2, 4);
    assert s[12..16] == HexFixed(g.data3, 4);
    assert s[16..] == BytesHex(g.data4);
    ParseHexFixed(g.data1, 8);
    ParseHexFixed(g.data2, 4);
    ParseHexFixed(g.data3, 4);
    ParseBytesHex(g.data4);
  }

  // ---------------------------------------------------------------- method records

  /**
   * The RVA stored for a symbol: the unsigned 64-bit difference of address and module base,
   * truncated to 32 bits.
   */
  function Rva(address: uint64, modBase: uint64): (rva: uint32)
    ensures (modBase + rva) % TWO_32 == address % TWO_32
    ensures modBase <= address < modBase + TWO_32 ==> rva == address - modBase
  {
    var diff64 := (address - modBase) % TWO_64;
    diff64 % TWO_32
  }

  /** The record the method callback builds for a function symbol and its line lookup. */
  function MethodFromSymbol(sym: SymbolInfo, line: Option<LineInfo>): (m: MethodInfo)
    ensures m.name == sym.name && m.modBase == sym.modBase && m.address == sym.address
    ensures m.size == sym.size && m.index == sym.index && m.rva == Rva(sym.address, sym.modBase)
    ensures line.None? ==> m.sourceFile == "" && m.lineNumber == 0
    ensures line.Some? ==> m.sourceFile == line.value.fileName.GetOr("") && m.lineNumber == line.value.lineNumber
  {
    var file := if line.Some? then line.value.fileName.GetOr("") else "";
    var lineNumber := if line.Some? then line.value.lineNumber else 0;
    MethodInfo(sym.name, sym.modBase, sym.address, sym.size, Rva(sym.address, sym.modBase), sym.index, file, lineNumber)
  }

  /** The records the method callback appends, in enumeration order: function symbols only. */
  function FunctionRecords(syms: seq<SymbolInfo>, lineAt: uint64 -> Option<LineInfo>): (ms: seq<MethodInfo>)
    ensures |ms| <= |syms|
  {
    if syms == [] then []
    else
      var last := syms[|syms| - 1];
      FunctionRecords(syms[..|syms| - 1], lineAt)
        + (if last.tag == SYM_TAG_FUNCTION then [MethodFromSymbol(last, lineAt(last.address))] else [])
  }

  /** Every collected record comes from a function symbol, and every function symbol yields one. */
  lemma {:induction false} FunctionRecordsSpec(syms: seq<SymbolInfo>, lineAt: uint64 -> Option<LineInfo>)
    ensures forall m :: m in FunctionRecords(syms, lineAt) ==>
      exists s :: s in syms && s.tag == SYM_TAG_FUNCTION && m == MethodFromSymbol(s, lineAt(s.address))
    ensures forall s :: s in syms && s.tag == SYM_TAG_FUNCTION ==>
      MethodFromSymbol(s, lineAt(s.address)) in FunctionRecords(syms, lineAt)
    ensures |FunctionRecords(syms, lineAt)| == |FunctionSymbols(syms)|
  {
    if syms != [] {
      var init := syms[..|syms| - 1];
      FunctionRecordsSpec(init, lineAt);
      assert syms == init + [syms[|syms| - 1]];
      assert FunctionSymbols(syms) == FunctionSymbols(init) + FunctionSymbols([syms[|syms| - 1]]);
    }
  }

  function FunctionSymbols(syms: seq<SymbolInfo>): seq<SymbolInfo> {
    if syms == [] then []
    else FunctionSymbols(syms[..|syms| - 1]) + (if syms[|syms| - 1].tag == SYM_TAG_FUNCTION then [syms[|syms| - 1]] else [])
  }

  predicate AddressLe(a: MethodInfo, b: MethodInfo) {
    a.address <= b.address
  }

  lemma AddressLeIsTotalPreorder()
    ensures TotalPreorder(AddressLe)
  {
  }

  /** The file names the source-file callback appends: null names are skipped. */
  function FileNames(files: seq<Option<string>>): (names: seq<string>)
    ensures |names| <= |files|
    ensures forall n :: n in names <==> Some(n) in files
  {
    if files == [] then []
    else
      var init := files[..|files| - 1];
      var last := files[|files| - 1];
      assert files == init + [last];
      FileNames(init) + (if last.Some? then [last.value] else [])
  }

  // ---------------------------------------------------------------- token probe

  /**
   * The first token from `t` on that SymFromToken rejects, or 2^32 when it accepts every
   * remaining ULONG value.
   */
  function FirstRejected(fromToken: uint32 -> Option<SymbolInfo>, t: nat): (r: nat)
    requires 1 <= t <= TWO_32
    ensures t <= r <= TWO_32
    ensures forall u: uint32 :: t <= u < r ==> fromToken(u).Some?
    ensures r < TWO_32 ==> fromToken(r).None?
    decreases TWO_32 - t
  {
    if t == TWO_32 then t
    else if fromToken(t).None? then t
    else FirstRejected(fromToken, t + 1)
  }

  /** A token that SymFromToken rejects after an accepted run from `t` is the first rejected one. */
  lemma FirstRejectedAt(fromToken: uint32 -> Option<SymbolInfo>, t: nat, r: nat)
    requires 1 <= t <= r <= TWO_32
    requires forall u: uint32 :: t <= u < r ==> fromToken(u).Some?
    requires r < TWO_32 ==> fromToken(r).None?
    ensures FirstRejected(fromToken, t) == r
  {
  }

  function TokenFromSymbol(token: uint32, sym: SymbolInfo): (info: TokenInfo)
    ensures info.token == token && info.index == sym.index && info.flags == sym.flags
    ensures info.value == sym.value && info.address == sym.address && info.tag == sym.tag && info.name == sym.name
  {
    TokenInfo(token, sym.index, sym.flags, sym.value, sym.address, sym.tag, sym.name)
  }

  /** The records for tokens 1 up to, not including, `hi`, all of which SymFromToken accepts. */
  function TokenRun(fromToken: uint32 -> Option<SymbolInfo>, hi: nat): (run: seq<TokenInfo>)
    requires 1 <= hi <= TWO_32
    requires forall u: uint32 :: 1 <= u < hi ==> fromToken(u).Some?
    ensures |run| == hi - 1
  {
    if hi == 1 then []
    else TokenRun(fromToken, hi - 1) + [TokenFromSymbol(hi - 1, fromToken(hi - 1).value)]
  }

  /** What ComputeTokens collects: the run of accepted tokens starting at 1. */
  function ConsecutiveTokens(fromToken: uint32 -> Option<SymbolInfo>): seq<TokenInfo> {
    TokenRun(fromToken, FirstRejected(fromToken, 1))
  }

  /**
   * The k-th record is for token k+1 and carries SymFromToken's answer for it; the run ends
   * where SymFromToken first rejects a token (or at the end of the ULONG range).
   */
  lemma {:induction false} TokenRunPositions(fromToken: uint32 -> Option<SymbolInfo>, hi: nat, k: nat)
    requires 1 <= hi <= TWO_32
    requires forall u: uint32 :: 1 <= u < hi ==> fromToken(u).Some?
    requires k < hi - 1
    ensures TokenRun(fromToken, hi)[k] == TokenFromSymbol(k + 1, fromToken(k + 1).value)
  {
    if k < hi - 2 {
      TokenRunPositions(fromToken, hi - 1, k);
    }
  }

  lemma ConsecutiveTokensSpec(fromToken: uint32 -> Option<SymbolInfo>)
    ensures var n := |ConsecutiveTokens(fromToken)|;
      (n + 1 < TWO_32 ==> fromToken(n + 1).None?) &&
      forall k :: 0 <= k < n ==> ConsecutiveTokens(fromToken)[k].token == k + 1 && fromToken(k + 1).Some?
  {
    var hi := FirstRejected(fromToken, 1);
    forall k | 0 <= k < hi - 1
      ensures ConsecutiveTokens(fromToken)[k].token == k + 1
    {
      TokenRunPositions(fromToken, hi, k);
    }
  }

  /** The module is loaded and its information read: the process is open, the PDB exists and both calls succeed. */
  predicate ModuleLoads(processOpen: bool, pdbPath: string, fileExists: string -> bool, engine: DbgEngine) {
    && processOpen
    && fileExists(pdbPath)
    && engine.loadModule(pdbPath) != 0
    && engine.moduleInfo.Some?
  }

  /** LoadPdbFile succeeds: the module loads and both enumerations run. */
  predicate LoadSucceeds(processOpen: bool, pdbPath: string, fileExists: string -> bool, engine: DbgEngine) {
    && ModuleLoads(processOpen, pdbPath, fileExists, engine)
    && engine.symbols.Some?
    && engine.sourceFiles.Some?
  }

  // ---------------------------------------------------------------- the parser object

  class DbgHelpParser {
    var processOpen: bool  // SymInitialize succeeded, so the process handle is not null
    var baseAddress: uint64
    var guid: string
    var age: uint32
    var methods: seq<MethodInfo>
    var sourceFiles: seq<string>
    var tokens: seq<TokenInfo>

    constructor (symInitializeOk: bool)
      ensures processOpen == symInitializeOk && baseAddress == 0
      ensures guid == "" && age == 0
      ensures methods == [] && sourceFiles == [] && tokens == []
    {
      processOpen, baseAddress := symInitializeOk, 0;
      guid, age := "", 0;
      methods, sourceFiles, tokens := [], [], [];
    }

    /** The symbol callback: appends a record for a function symbol and skips every other symbol. */
    method EnumMethodSymbolsCallback(sym: SymbolInfo, lineAt: uint64 -> Option<LineInfo>)
      modifies this`methods
      ensures methods == old(methods) + FunctionRecords([sym], lineAt)
      ensures sym.tag == SYM_TAG_FUNCTION ==> methods == old(methods) + [MethodFromSymbol(sym, lineAt(sym.address))]
      ensures sym.tag != SYM_TAG_FUNCTION ==> methods == old(methods)
    {
      if sym.tag == SYM_TAG_FUNCTION {
        methods := methods + [MethodFromSymbol(sym, lineAt(sym.address))];
      }
    }

    /** Enumerates the symbols through the callback, then sorts the methods by address. */
    method ComputeMethodsInfo(engine: DbgEngine) returns (ok: bool)
      modifies this`methods
      ensures ok == engine.symbols.Some?
      ensures !ok ==> methods == old(methods)
      ensures ok ==> IsSortingOf(methods, old(methods) + FunctionRecords(engine.symbols.value, engine.lineAt), AddressLe)
    {
      if engine.symbols.None? {
        return false;
      }
      var syms := engine.symbols.value;
      var i := 0;
      while i < |syms|
        invariant 0 <= i <= |syms|
        invariant methods == old(methods) + FunctionRecords(syms[..i], engine.lineAt)
      {
        EnumMethodSymbolsCallback(syms[i], engine.lineAt);
        assert syms[..i + 1][..i] == syms[..i];
        i := i + 1;
      }
      assert syms[..i] == syms;
      var collected := methods;
      methods := SortBy(collected, AddressLe);
      AddressLeIsTotalPreorder();
      SortBySorted(collected, AddressLe);
      return true;
    }

    /** The source-file callback: appends the file name unless it is null. */
    method EnumSourceFilesCallback(file: Option<string>)
      modifies this`sourceFiles
      ensures sourceFiles == old(sourceFiles) + FileNames([file])
    {
      if file.Some? {
        sourceFiles := sourceFiles + [file.value];
      }
    }

    /** Enumerates the source files through the callback, then sorts them. */
    method ComputeSourceFiles(engine: DbgEngine) returns (ok: bool)
      modifies this`sourceFiles
      ensures ok == engine.sourceFiles.Some?
      ensures !ok ==> sourceFiles == old(sourceFiles)
      ensures ok ==> IsSortingOf(sourceFiles, old(sourceFiles) + FileNames(engine.sourceFiles.value), StrLe)
    {
      if engine.sourceFiles.None? {
        return false;
      }
      var files := engine.sourceFiles.value;
      var i := 0;
      while i < |files|
        invariant 0 <= i <= |files|
        invariant sourceFiles == old(sourceFiles) + FileNames(files[..i])
      {
        EnumSourceFilesCallback(files[i]);
        assert files[..i + 1][..i] == files[..i];
        i := i + 1;
      }
      assert files[..i] == files;
      var collected := sourceFiles;
      sourceFiles := SortBy(collected, StrLe);
      SortStringsSpec(collected);
      return true;
    }

    /** Records tokens 1, 2, ... until SymFromToken rejects one. */
    method ComputeTokens(engine: DbgEngine) returns (ok: bool)
      modifies this`tokens
      ensures ok
      ensures tokens == old(tokens) + ConsecutiveTokens(engine.fromToken)
    {
      var token: nat := 1;
      while token < TWO_32
        invariant 1 <= token <= TWO_32
        invariant forall u: uint32 :: 1 <= u < token ==> engine.fromToken(u).Some?
        invariant tokens == old(tokens) + TokenRun(engine.fromToken, token)
        decreases TWO_32 - token
      {
        var sym := engine.fromToken(token);
        if sym.None? {
          break;
        }
        tokens := tokens + [TokenFromSymbol(token, sym.value)];
        token := token + 1;
      }
      FirstRejectedAt(engine.fromToken, 1, token);
      return true;
    }

    /** The three lists after the enumerations: what was there before plus what was collected, sorted. */
    ghost predicate ListsFilled(engine: DbgEngine, methods0: seq<MethodInfo>, sourceFiles0: seq<string>, tokens0: seq<TokenInfo>)
      reads this
      requires engine.symbols.Some? && engine.sourceFiles.Some?
    {
      && IsSortingOf(methods, methods0 + FunctionRecords(engine.symbols.value, engine.lineAt), AddressLe)
      && IsSortingOf(sourceFiles, sourceFiles0 + FileNames(engine.sourceFiles.value), StrLe)
      && tokens == tokens0 + ConsecutiveTokens(engine.fromToken)
    }

    /** Runs the three enumerations in order, stopping at the first that fails. */
    method ComputeLists(engine: DbgEngine) returns (ok: bool)
      modifies this`methods, this`sourceFiles, this`tokens
      ensures ok == (engine.symbols.Some? && engine.sourceFiles.Some?)
      ensures ok ==> ListsFilled(engine, old(methods), old(sourceFiles), old(tokens))
      ensures engine.symbols.None? ==> methods == old(methods)
      ensures engine.symbols.Some? ==>
        IsSortingOf(methods, old(methods) + FunctionRecords(engine.symbols.value, engine.lineAt), AddressLe)
      ensures !ok ==> sourceFiles == old(sourceFiles) && tokens == old(tokens)
    {
      ok := ComputeMethodsInfo(engine);
      if !ok {
        return;
      }
      ok := ComputeSourceFiles(engine);
      if !ok {
        return;
      }
      ok := ComputeTokens(engine);
    }

    /**
     * Loads the module for the PDB and reads its age and GUID from the module information.
     * Nothing changes when the process is not open or the file is missing; past those guards
     * the base address is overwritten with what the load returns, 0 included, and it stays
     * set when the module information cannot be read.
     */
    method LoadModule(path: string, fileExists: string -> bool, engine: DbgEngine) returns (ok: bool)
      modifies this`baseAddress, this`age, this`guid
      ensures ok == ModuleLoads(processOpen, path, fileExists, engine)
      ensures !processOpen || !fileExists(path) ==> baseAddress == old(baseAddress)
      ensures processOpen && fileExists(path) ==> baseAddress == engine.loadModule(path)
      ensures !ok ==> age == old(age) && guid == old(guid)
      ensures ok ==> age == engine.moduleInfo.value.pdbAge && guid == GuidString(engine.moduleInfo.value.pdbSig70)
    {
      if !processOpen || !fileExists(path) {
        return false;
      }
      baseAddress := engine.loadModule(path);
      if baseAddress == 0 || engine.moduleInfo.None? {
        return false;
      }
      age := engine.moduleInfo.value.pdbAge;
      guid := GuidString(engine.moduleInfo.value.pdbSig70);
      return true;
    }

    /** Loads the module, then fills the three lists; fails at the first step that fails. */
    method LoadPdbFile(path: string, fileExists: string -> bool, engine: DbgEngine) returns (ok: bool)
      modifies this
      ensures ok == LoadSucceeds(old(processOpen), path, fileExists, engine)
      ensures processOpen == old(processOpen)
      ensures !processOpen || !fileExists(path) ==> baseAddress == old(baseAddress)
      ensures processOpen && fileExists(path) ==> baseAddress == engine.loadModule(path)
      // the module did not load or its information could not be read
      ensures !ModuleLoads(processOpen, path, fileExists, engine) ==>
        && guid == old(guid) && age == old(age)
        && methods == old(methods) && sourceFiles == old(sourceFiles) && tokens == old(tokens)
      // GUID and age are set before the enumerations, whose failures keep them
      ensures ModuleLoads(processOpen, path, fileExists, engine) ==>
        && age == engine.moduleInfo.value.pdbAge && guid == GuidString(engine.moduleInfo.value.pdbSig70)
        && (engine.symbols.None? ==> methods == old(methods))
        && (engine.symbols.Some? ==>
              IsSortingOf(methods, old(methods) + FunctionRecords(engine.symbols.value, engine.lineAt), AddressLe))
      ensures !ok ==> sourceFiles == old(sourceFiles) && tokens == old(tokens)
      ensures ok ==> ListsFilled(engine, old(methods), old(sourceFiles), old(tokens))
    {
      ok := LoadModule(path, fileExists, engine);
      ghost var loadedGuid := guid;
      if ok {
        ok := ComputeLists(engine);
      }
      assert guid == loadedGuid;
    }
  }
}
