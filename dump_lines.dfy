/**
 * The command-line tool (DumpLines/DumpLines.cpp): argument validation, the choice of back
 * end and of listing, the exit codes, and the source location shown for each method.
 * Console text (banner, help, column padding, rulers) is not modelled; what is modelled
 * is which listing is produced and which location string each method gets.
 */
module DumpLines {
  import opened Wrappers
  import opened PdbCommon
  import opened TextFormat
  import opened Sorting
  import Sym = SymPdbParsing
  import Dbg = DbgHelpParsing

  const USAGE_EXIT: int := -1
  const LOAD_FAILED_EXIT: int := -2
  const EMPTY_LISTING_EXIT: int := -3

  datatype Config = Config(pdbFilename: string, showSourceFiles: bool, showTokens: bool, useSymParser: bool)

  /** The usage errors; each one prints its own help message and exits with USAGE_EXIT. */
  datatype UsageError = InvalidArguments | MissingPdbFilename | InvalidOption(option: string) | ConflictingOptions

  // ---------------------------------------------------------------- arguments

  /** A last argument that is rejected as a file name: longer than two characters and starting with "--". */
  predicate LooksLikeFlag(arg: string) {
    |arg| > 2 && arg[..2] == "--"
  }

  predicate IsOption(arg: string) {
    arg == "--source" || arg == "--token" || arg == "--sym"
  }

  /** The position of the first argument that is not one of the three options. */
  function FirstInvalidOption(args: seq<string>): (r: Option<nat>)
    ensures r.None? <==> forall i :: 0 <= i < |args| ==> IsOption(args[i])
    ensures r.Some? ==> r.value < |args| && !IsOption(args[r.value])
    ensures r.Some? ==> forall i :: 0 <= i < r.value ==> IsOption(args[i])
  {
    if args == [] then None
    else if !IsOption(args[0]) then Some(0)
    else
      match FirstInvalidOption(args[1..])
      case None => None
      case Some(i) => Some(i + 1)
  }

  /**
   * What the command line means: argv[0] is the program, the last argument is the PDB,
   * and every argument in between must be an option.
   */
  function ParseCommandLine(argv: seq<string>): Result<Config, UsageError> {
    if |argv| < 2 then Failure(InvalidArguments)
    else
      var file := argv[|argv| - 1];
      var options := argv[1..|argv| - 1];
      if LooksLikeFlag(file) then Failure(MissingPdbFilename)
      else
        match FirstInvalidOption(options)
        case Some(i) => Failure(InvalidOption(options[i]))
        case None =>
          if "--source" in options && "--token" in options then Failure(ConflictingOptions)
          else Success(Config(file, "--source" in options, "--token" in options, "--sym" in options))
  }

  /** The argument loop of `main`: sets one flag per option and stops at the first error. */
  method ParseArguments(argv: seq<string>) returns (r: Result<Config, UsageError>)
    ensures r == ParseCommandLine(argv)
  {
    if |argv| < 2 {
      return Failure(InvalidArguments);
    }
    var showSourceFiles, showTokens, useSymParser := false, false, false;
    var pdbFilename := argv[|argv| - 1];
    if |pdbFilename| > 2 && pdbFilename[..2] == "--" {
      return Failure(MissingPdbFilename);
    }
    var i := 1;
    while i < |argv| - 1
      invariant 1 <= i <= |argv| - 1
      invariant forall k :: 1 <= k < i ==> IsOption(argv[k])
      invariant showSourceFiles == ("--source" in argv[1..i])
      invariant showTokens == ("--token" in argv[1..i])
      invariant useSymParser == ("--sym" in argv[1..i])
    {
      var arg := argv[i];
      assert argv[1..i + 1] == argv[1..i] + [arg];
      if arg == "--source" {
        showSourceFiles := true;
      } else if arg == "--token" {
        showTokens := true;
      } else if arg == "--sym" {
        useSymParser := true;
      } else {
        assert argv[1..|argv| - 1][i - 1] == arg;
        return Failure(InvalidOption(arg));
      }
      i := i + 1;
    }
    assert argv[1..i] == argv[1..|argv| - 1];
    if showSourceFiles && showTokens {
      return Failure(ConflictingOptions);
    }
    return Success(Config(pdbFilename, showSourceFiles, showTokens, useSymParser));
  }

  lemma TooFewArguments(argv: seq<string>)
    requires |argv| < 2
    ensures ParseCommandLine(argv) == Failure(InvalidArguments)
  {
  }

  /** The PDB is always the last argument, and "--" alone is accepted as a file name. */
  lemma PdbIsLastArgument(argv: seq<string>)
    requires ParseCommandLine(argv).Success?
    ensures ParseCommandLine(argv).value.pdbFilename == argv[|argv| - 1]
    ensures !LooksLikeFlag(argv[|argv| - 1])
    ensures ParseCommandLine(["DumpLines", "--"]) == Success(Config("--", false, false, false))
    ensures ParseCommandLine(["DumpLines", "--sym"]) == Failure(MissingPdbFilename)
  {
  }

  /** Every middle argument must be an option; the first one that is not is reported. */
  lemma InvalidOptionReported(argv: seq<string>, k: nat)
    requires 1 <= k < |argv| - 1 && !LooksLikeFlag(argv[|argv| - 1])
    requires !IsOption(argv[k]) && forall j :: 1 <= j < k ==> IsOption(argv[j])
    ensures ParseCommandLine(argv) == Failure(InvalidOption(argv[k]))
  {
  }

  /** The two argument lists hold the same strings, in any order and any number of times. */
  ghost predicate SameElements(o1: seq<string>, o2: seq<string>) {
    forall a :: a in o1 <==> a in o2
  }

  /**
   * The options are flags: repeating or reordering them does not change the outcome, as
   * long as the same options occur.
   */
  lemma OptionsOrderIndependent(argv1: seq<string>, argv2: seq<string>)
    requires |argv1| >= 2 && |argv2| >= 2 && argv1[|argv1| - 1] == argv2[|argv2| - 1]
    requires SameElements(argv1[1..|argv1| - 1], argv2[1..|argv2| - 1])
    ensures ParseCommandLine(argv1).Success? <==> ParseCommandLine(argv2).Success?
    ensures ParseCommandLine(argv1).Success? ==> ParseCommandLine(argv1) == ParseCommandLine(argv2)
  {
    var o1, o2 := argv1[1..|argv1| - 1], argv2[1..|argv2| - 1];
    assert (forall i :: 0 <= i < |o1| ==> IsOption(o1[i])) <==> (forall i :: 0 <= i < |o2| ==> IsOption(o2[i])) by {
      if forall i :: 0 <= i < |o1| ==> IsOption(o1[i]) {
        forall i | 0 <= i < |o2| ensures IsOption(o2[i]) {
          assert o2[i] in o1;
        }
      }
      if forall i :: 0 <= i < |o2| ==> IsOption(o2[i]) {
        forall i | 0 <= i < |o1| ensures IsOption(o1[i]) {
          assert o1[i] in o2;
        }
      }
    }
  }

  /** --source together with --token is a usage error, whatever else is given. */
  lemma SourceAndTokenConflict(argv: seq<string>)
    requires |argv| >= 2
    requires "--source" in argv[1..|argv| - 1] && "--token" in argv[1..|argv| - 1]
    ensures ParseCommandLine(argv).Failure?
  {
  }

  // ---------------------------------------------------------------- source locations

  /** The line part of a location: "hidden" for the hidden-line marker, else the decimal number. */
  function LineText(line: uint32): string {
    if line == HIDDEN_LINE then "hidden" else Decimal(line)
  }

  /**
   * The location shown for a method: "<file>:<line>" when it has a source file and a
   * positive line, where <file> is the basename of the path; "N/A" otherwise.
   */
  function RenderLocation(sourceFile: string, lineNumber: uint32): string {
    if sourceFile != "" && lineNumber > 0 then Basename(CStr(sourceFile)) + ":" + LineText(lineNumber)
    else "N/A"
  }

  /** "N/A" is shown exactly for a method without a source file or without a line. */
  lemma RenderLocationUnavailable(sourceFile: string, lineNumber: uint32)
    ensures RenderLocation(sourceFile, lineNumber) == "N/A" <==> sourceFile == "" || lineNumber == 0
  {
    if sourceFile != "" && lineNumber > 0 {
      var name := Basename(CStr(sourceFile));
      var loc := RenderLocation(sourceFile, lineNumber);
      assert loc[|name|] == ':';
      if |loc| == 3 {
        assert "N/A"[|name|] != ':';
      }
    }
  }

  /** A shown location ends in ":hidden" exactly for the marker and otherwise in the decimal line. */
  lemma RenderLocationShown(sourceFile: string, lineNumber: uint32)
    requires sourceFile != "" && lineNumber > 0
    ensures var name := Basename(CStr(sourceFile));
      && (lineNumber == HIDDEN_LINE ==> RenderLocation(sourceFile, lineNumber) == name + ":hidden")
      && (lineNumber != HIDDEN_LINE ==> RenderLocation(sourceFile, lineNumber) == name + ":" + Decimal(lineNumber))
    ensures lineNumber != HIDDEN_LINE ==>
      LineText(lineNumber) != "hidden" && ParseDecimal(LineText(lineNumber)) == lineNumber
  {
    if lineNumber != HIDDEN_LINE {
      ParseDecimalOfDecimal(lineNumber);
      assert !IsDecimalDigit("hidden"[0]);
    }
  }

  // ---------------------------------------------------------------- listings

  /** One row of the method listing: name, token (the record's index) and location. */
  datatype MethodRow = MethodRow(name: string, token: uint32, location: string)

  function MethodRowOf(m: MethodInfo): MethodRow {
    MethodRow(m.name, m.index, RenderLocation(m.sourceFile, m.lineNumber))
  }

  datatype Listing =
    | SourceFileListing(files: seq<string>)
    | TokenListing(tokens: seq<TokenInfo>)
    | MethodListing(methods: seq<MethodInfo>, rows: seq<MethodRow>)

  /** The loop that prints the method table, one row per record in list order. */
  method RenderMethodRows(methods: seq<MethodInfo>) returns (rows: seq<MethodRow>)
    ensures |rows| == |methods|
    ensures forall i :: 0 <= i < |methods| ==> rows[i] == MethodRowOf(methods[i])
  {
    rows := [];
    for i := 0 to |methods|
      invariant |rows| == i
      invariant forall k :: 0 <= k < i ==> rows[k] == MethodRowOf(methods[k])
    {
      rows := rows + [MethodRowOf(methods[i])];
    }
  }

  /** The three lists a back end yields. */
  datatype PdbLists = PdbLists(methods: seq<MethodInfo>, sourceFiles: seq<string>, tokens: seq<TokenInfo>)

  /** The records the chosen back end collects, before it sorts them. */
  function Collected(cfg: Config, dbg: Dbg.DbgEngine, sym: Sym.SymEngine): PdbLists {
    if cfg.useSymParser then
      PdbLists(
        Sym.ProbeMethods(sym.getMethod, true, Sym.METHOD_TOKEN_END),
        Sym.DocumentUrls(sym.documents.GetOr([])),
        Sym.ProbeTokens(sym.getMethod, Sym.METHOD_TOKEN_END))
    else
      PdbLists(
        Dbg.FunctionRecords(dbg.symbols.GetOr([]), dbg.lineAt),
        Dbg.FileNames(dbg.sourceFiles.GetOr([])),
        Dbg.ConsecutiveTokens(dbg.fromToken))
  }

  predicate Loads(cfg: Config, fileExists: string -> bool, symInitializeOk: bool, dbg: Dbg.DbgEngine, sym: Sym.SymEngine) {
    if cfg.useSymParser then Sym.LoadSucceeds(cfg.pdbFilename, fileExists, sym)
    else Dbg.LoadSucceeds(symInitializeOk, cfg.pdbFilename, fileExists, dbg)
  }

  /**
   * The lists a back end hands to `main` are the collected ones after its sorting: source
   * files by name for both, methods by address for DbgHelp, in token order for the
   * symbol reader.
   */
  ghost predicate ListsFrom(cfg: Config, lists: PdbLists, collected: PdbLists) {
    && lists.tokens == collected.tokens
    && IsSortingOf(lists.sourceFiles, collected.sourceFiles, StrLe)
    && (if cfg.useSymParser then lists.methods == collected.methods
        else IsSortingOf(lists.methods, collected.methods, Dbg.AddressLe))
  }

  /** The lists of a freshly loaded back end, with the back end's own guarantees. */
  method LoadLists(cfg: Config, fileExists: string -> bool, symInitializeOk: bool, dbg: Dbg.DbgEngine, sym: Sym.SymEngine)
    returns (ok: bool, lists: PdbLists)
    ensures ok == Loads(cfg, fileExists, symInitializeOk, dbg, sym)
    ensures ok ==> ListsFrom(cfg, lists, Collected(cfg, dbg, sym))
  {
    if cfg.useSymParser {
      var parser := new Sym.SymPdbParser();
      ok := parser.LoadPdbFile(cfg.pdbFilename, fileExists, sym);
      lists := PdbLists(parser.methods, parser.sourceFiles, parser.tokens);
    } else {
      var parser := new Dbg.DbgHelpParser(symInitializeOk);
      ok := parser.LoadPdbFile(cfg.pdbFilename, fileExists, dbg);
      lists := PdbLists(parser.methods, parser.sourceFiles, parser.tokens);
    }
  }

  /** The listing `main` chooses: source files, else tokens, else methods. */
  ghost predicate ListingFor(cfg: Config, listing: Listing, lists: PdbLists) {
    if cfg.showSourceFiles then listing == SourceFileListing(lists.sourceFiles)
    else if cfg.showTokens then listing == TokenListing(lists.tokens)
    else listing.MethodListing? && listing.methods == lists.methods
  }

  ghost predicate SelectedEmpty(cfg: Config, lists: PdbLists) {
    if cfg.showSourceFiles then lists.sourceFiles == []
    else if cfg.showTokens then lists.tokens == []
    else lists.methods == []
  }

  /**
   * The listing `main` prints for a loaded PDB: source files, else tokens, else methods;
   * EMPTY_LISTING_EXIT instead when the chosen list is empty.
   */
  method ChooseListing(cfg: Config, lists: PdbLists) returns (exitCode: int, listing: Option<Listing>)
    ensures exitCode == 0 || exitCode == EMPTY_LISTING_EXIT
    ensures exitCode == EMPTY_LISTING_EXIT <==> SelectedEmpty(cfg, lists)
    ensures listing.Some? <==> exitCode == 0
    ensures listing.Some? ==> ListingFor(cfg, listing.value, lists)
    ensures listing.Some? && listing.value.MethodListing? ==>
      |listing.value.rows| == |listing.value.methods| &&
      forall i :: 0 <= i < |listing.value.methods| ==> listing.value.rows[i] == MethodRowOf(listing.value.methods[i])
  {
    if cfg.showSourceFiles {
      if |lists.sourceFiles| == 0 {
        return EMPTY_LISTING_EXIT, None;
      }
      listing := Some(SourceFileListing(lists.sourceFiles));
    } else if cfg.showTokens {
      if |lists.tokens| == 0 {
        return EMPTY_LISTING_EXIT, None;
      }
      listing := Some(TokenListing(lists.tokens));
    } else {
      if |lists.methods| == 0 {
        return EMPTY_LISTING_EXIT, None;
      }
      var rows := RenderMethodRows(lists.methods);
      listing := Some(MethodListing(lists.methods, rows));
    }
    return 0, listing;
  }

  /** Sorting keeps the number of records, so a list is empty exactly when what was collected is. */
  lemma SelectedEmptyCollected(cfg: Config, lists: PdbLists, collected: PdbLists)
    requires ListsFrom(cfg, lists, collected)
    ensures SelectedEmpty(cfg, lists) <==> SelectedEmpty(cfg, collected)
  {
  }

  /**
   * `main` after COM start-up: parse the arguments, load the PDB with the chosen back end,
   * and pick the listing. Exit code -1 for a usage error, -2 when the back end fails to
   * load, -3 when the chosen list is empty, 0 with a listing otherwise.
   */
  method RunDumpLines(argv: seq<string>, fileExists: string -> bool, symInitializeOk: bool,
                      dbg: Dbg.DbgEngine, sym: Sym.SymEngine)
    returns (exitCode: int, listing: Option<Listing>)
    ensures exitCode == USAGE_EXIT <==> ParseCommandLine(argv).Failure?
    ensures listing.Some? <==> exitCode == 0
    ensures ParseCommandLine(argv).Success? ==>
      var cfg := ParseCommandLine(argv).value;
      var loads := Loads(cfg, fileExists, symInitializeOk, dbg, sym);
      && (exitCode == LOAD_FAILED_EXIT <==> !loads)
      && (exitCode == EMPTY_LISTING_EXIT <==> loads && SelectedEmpty(cfg, Collected(cfg, dbg, sym)))
      && (exitCode == 0 <==> loads && !SelectedEmpty(cfg, Collected(cfg, dbg, sym)))
      && (listing.Some? ==> exists lists :: ListsFrom(cfg, lists, Collected(cfg, dbg, sym)) && ListingFor(cfg, listing.value, lists))
    ensures listing.Some? && listing.value.MethodListing? ==>
      |listing.value.rows| == |listing.value.methods| &&
      forall i :: 0 <= i < |listing.value.methods| ==> listing.value.rows[i] == MethodRowOf(listing.value.methods[i])
  {
    var parsed := ParseArguments(argv);
    if parsed.Failure? {
      return USAGE_EXIT, None;
    }
    var cfg := parsed.value;
    var ok, lists := LoadLists(cfg, fileExists, symInitializeOk, dbg, sym);
    if !ok {
      return LOAD_FAILED_EXIT, None;
    }
    SelectedEmptyCollected(cfg, lists, Collected(cfg, dbg, sym));
    exitCode, listing := ChooseListing(cfg, lists);
  }
}
