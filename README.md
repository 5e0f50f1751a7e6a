# DumpLines and the PDB record list, in Dafny

DumpLines is a Windows console tool. It lists the methods recorded in a program database (PDB), together with each method's source file and start line. It can also list the source files or the managed metadata tokens instead. It has two back ends:

- DbgHelp, the default: the tool loads the PDB as a module and enumerates its symbols and source files through callbacks.
- ISymUnmanagedReader (`--sym`): the tool finds the assembly next to the PDB, opens it through the CLR hosting and symbol-binder COM objects, and probes the MethodDef token range.

Beside the tool, the repository has a small C# class, `PDBFormatReaderTest`, that keeps a list of text records.

This project models:

- **Command line and listing** (`dump_lines.dfy`, module `DumpLines`):
  - the argument rules, as a specification function and as the argument loop proved equal to it;
  - the exit codes: -1 for a usage error, -2 when loading fails, -3 for an empty listing, 0 otherwise;
  - which listing is chosen: source files first, then tokens, then methods;
  - the `file:line` / `file:hidden` / `N/A` location shown for each method.
- **ISymUnmanagedReader back end** (`sym_pdb_parser.dfy`, module `SymPdbParsing`):
  - deriving the `.dll`/`.exe` path from the PDB path;
  - the COM chain, as one abstract outcome that says which call stopped it;
  - the method and token probes over tokens `0x06000001` up to, not including, `0x06010000`;
  - the record fields and the hexadecimal fallback names;
  - the sorted document list.
- **DbgHelp back end** (`dbghelp_parser.dfy`, module `DbgHelpParsing`):
  - the guards of `LoadPdbFile`;
  - the 32-digit GUID string;
  - the function-tag filter of the symbol callback, the truncated RVA and the records;
  - the sorting by address and by name;
  - the run of consecutive tokens from 1.
- **Record list** (`pdb_formats_lib.dfy`, module `PdbFormatsLib`; the C# class `PDBFormatsLibTest.PDBFormatReaderTest` is the Dafny class `PdbFormatReader`):
  - `Initialize`, `AddRecord` and `Clear`, which change the list in place, and the `FilePath`/`Records` setters;
  - the derived `RecordCount`, the joined listing with its "No records available" message, and the statistics line;
  - null references: a member that would throw returns the exception instead.
- **Shared modules**:
  - `pdb_common.dfy`: the `MethodInfo` and `TokenInfo` records and the fixed-width integer types;
  - `text_format.dfy`: hexadecimal and decimal rendering with their parsers, the C-string view, `strrchr` and the basename rule;
  - `sorting.dfy`: what `std::sort` promises;
  - `wrappers.dfy`: `Option` and `Result`.

Inputs stand in for the engines the code calls:

- COM and DbgHelp are values of the datatypes `SymEngine` and `DbgEngine`. Each field says what one call answers. Enumerations become the sequence of items the engine hands to the callback; a failed enumeration is `None`.
- `GetFileAttributesA` becomes a predicate `fileExists`.
- `SymInitialize`'s success is a boolean.
- `Environment.NewLine` is a string parameter.

The parsers are classes: their fields are the lists the C++ code pushes into. Each method is proved against recursive specification functions (`ProbeMethods`, `ProbeTokens`, `DocumentUrls`, `FunctionRecords`, `FileNames`, `ConsecutiveTokens`), and lemmas state those functions' properties. A sorted list is specified as "ordered, and a permutation of what was collected" (`Sorting.IsSortingOf`).

## Model

| member | source | states |
|---|---|---|
| TextFormat.HexFixed | DumpLines/SymPdbParser.cpp:241-242 | `setw(8)`/`setfill('0')`/`hex` output has exactly the field width, all lower-case hex digits |
| TextFormat.ParseHexFixed | DumpLines/SymPdbParser.cpp:241-242 | reading the padded digits back gives the value: hexadecimal rendering loses nothing |
| TextFormat.HexFixedInjective | DumpLines/SymPdbParser.cpp:437-439 | two values never render to the same fixed-width digits |
| TextFormat.Decimal | DumpLines/DumpLines.cpp:236 | `%u` output is non-empty decimal digits with no leading zero |
| TextFormat.ParseDecimalOfDecimal | DumpLines/DumpLines.cpp:236 | the printed line number reads back as the line number |
| TextFormat.CStr | DumpLines/DumpLines.cpp:224 | the `c_str()` view is the prefix before the first NUL, which it does not contain |
| TextFormat.CStrOfNulFree | DumpLines/DumpLines.cpp:224 | for text without NUL the C-string view is the whole text |
| TextFormat.LastIndexOf | DumpLines/DumpLines.cpp:225-226 | `strrchr`: absent iff the character does not occur; otherwise that position holds it and no later one does |
| TextFormat.Basename | DumpLines/DumpLines.cpp:224-227 | the shown file name is a suffix of the path: after the last `\` if any, else after the last `/`, else the whole path |
| TextFormat.BasenameBackslashFirst | DumpLines/DumpLines.cpp:225-227 | a backslash wins over a later slash: `a\b/c.cs` shows as `b/c.cs` |
| Sorting.SortBy | DumpLines/DbgHelpParser.cpp:166-170 | the sorted list has the same elements with the same multiplicities |
| Sorting.SortBySorted | DumpLines/DbgHelpParser.cpp:166-170 | under a total, transitive comparison the result is ordered |
| Sorting.StrLeIsTotalPreorder | DumpLines/SymPdbParser.cpp:407 | `std::string` ordering is total and transitive |
| Sorting.SortStringsSpec | DumpLines/DbgHelpParser.cpp:206 | sorting strings yields an ordered permutation of them |
| SymPdbParsing.RFind | DumpLines/SymPdbParser.cpp:62 | `rfind` finds the last occurrence of the pattern, and finds none when there is none |
| SymPdbParsing.PdbStem | DumpLines/SymPdbParser.cpp:61-66 | the stem is the path before a `.pdb` found by `rfind` exactly at length-4; any other path has none |
| SymPdbParsing.AssemblyPath | DumpLines/SymPdbParser.cpp:68-86 | the stem plus `.dll` if that file exists, else plus `.exe` if that exists, else none |
| SymPdbParsing.PdbStemIsSuffixTest | DumpLines/SymPdbParser.cpp:62-66 | the rfind test accepts exactly the paths ending in `.pdb`; path = stem + `.pdb` |
| SymPdbParsing.UpperCaseExtensionRejected | DumpLines/SymPdbParser.cpp:62-66 | the test is case-sensitive: `app.PDB` and `pdb` are rejected, `app.pdb` gives `app` |
| SymPdbParsing.AssemblyPathSpec | DumpLines/SymPdbParser.cpp:68-86 | an assembly is found iff the stem has an existing `.dll` or `.exe`; `.dll` is chosen when it exists |
| SymPdbParsing.FallbackName | DumpLines/SymPdbParser.cpp:240-251 | the fallback name is `0x` plus 8 digits, 10 characters |
| SymPdbParsing.FallbackNameSpec | DumpLines/SymPdbParser.cpp:240-251 | the digits of the fallback name are the token in hexadecimal |
| SymPdbParsing.MethodInfoFromSymbol | DumpLines/SymPdbParser.cpp:184-316 | no record iff GetToken fails; `index == rva == token`; modBase, address and size are 0; no source file means line 0 |
| SymPdbParsing.MethodNameSpec | DumpLines/SymPdbParser.cpp:205-313 | the name is GetMethodProps' when metadata is open and it succeeds, else the fallback; no sequence point or URL gives an empty file and line 0 |
| SymPdbParsing.ProbeMethods | DumpLines/SymPdbParser.cpp:330-345 | the records probed from `0x06000001` up to the bound, in token order, at most one per token |
| SymPdbParsing.ProbeMethodsSpec | DumpLines/SymPdbParser.cpp:330-345 | a record is listed iff probing some token of the range yields it |
| SymPdbParsing.ProbeMethodsOrdered | DumpLines/SymPdbParser.cpp:330-345 | when GetToken returns the probed token, the methods are in strictly increasing token order within the probed range |
| SymPdbParsing.TokenRecord | DumpLines/SymPdbParser.cpp:429-439 | token and index are the probed token, the other numbers 0, the name ` 0x` plus 8 digits |
| SymPdbParsing.TokenRecordName | DumpLines/SymPdbParser.cpp:437-439 | the token can be read back from its record's name |
| SymPdbParsing.ProbeTokens | DumpLines/SymPdbParser.cpp:423-444 | one token record for each probed token that GetMethod accepts, in token order |
| SymPdbParsing.ProbeTokensSpec | DumpLines/SymPdbParser.cpp:423-444 | token records are strictly increasing, and a token is listed iff it is in the probed range and GetMethod accepts it |
| SymPdbParsing.DocumentUrls | DumpLines/SymPdbParser.cpp:378-404 | the URLs in the reader's document order, at most one per document |
| SymPdbParsing.DocumentUrlsSpec | DumpLines/SymPdbParser.cpp:378-404 | a URL is listed iff some non-null document answers with it; null documents and failed URL lookups contribute nothing |
| SymPdbParsing.SymPdbParser.constructor | DumpLines/SymPdbParser.cpp:28-33 | a new parser holds no reader, no metadata, empty lists and age 0 |
| SymPdbParsing.SymPdbParser.ComputeMethodsInfo | DumpLines/SymPdbParser.cpp:318-348 | fails iff no reader; otherwise appends exactly the probed method records, in token order |
| SymPdbParsing.SymPdbParser.ComputeSourceFiles | DumpLines/SymPdbParser.cpp:350-410 | fails iff no reader, the count call fails, the count is 0 or the list call fails; otherwise the list becomes a sorted permutation of old list + URLs |
| SymPdbParsing.SymPdbParser.ComputeTokens | DumpLines/SymPdbParser.cpp:412-447 | fails iff no reader; otherwise appends exactly the probed token records |
| SymPdbParsing.SymPdbParser.ComputeLists | DumpLines/SymPdbParser.cpp:163-181 | the three computations in order: succeeds iff the reader is open and the documents are listed, and then all three lists are filled; with the reader open the methods are appended even when the documents fail; on failure source files and tokens are unchanged |
| SymPdbParsing.SymPdbParser.OpenReader | DumpLines/SymPdbParser.cpp:49-155 | records the path; succeeds iff the PDB exists, an assembly is found and the COM chain reaches the reader; once the chain reaches OpenScope the metadata handle is open iff OpenScope gave a non-null scope, and once it reaches GetReaderForFile the reader handle is open iff that call succeeded; a handle whose call was not reached keeps its old state |
| SymPdbParsing.SymPdbParser.FillLists | DumpLines/SymPdbParser.cpp:157-181 | with the reader open: the placeholder GUID and age 0 are set, success iff the documents are listed, the methods are appended in every case, and source files and tokens are filled on success and unchanged otherwise |
| SymPdbParsing.SymPdbParser.LoadPdbFile | DumpLines/SymPdbParser.cpp:49-182 | succeeds iff `LoadSucceeds`; then the three lists are as collected; the two handles end as `OpenReader` leaves them; a missing PDB, a path not ending in `.pdb`, a missing assembly or a COM failure leaves GUID, age and lists unchanged; once the reader is open GUID is the placeholder, age 0 and the methods are appended, and a document failure leaves source files and tokens unchanged |
| DbgHelpParsing.BytesHex | DumpLines/DbgHelpParser.cpp:86-89 | two lower-case hex digits per Data4 byte |
| DbgHelpParsing.GuidString | DumpLines/DbgHelpParser.cpp:84-91 | the GUID string is 32 lower-case hex digits |
| DbgHelpParsing.GuidStringRoundTrip | DumpLines/DbgHelpParser.cpp:84-91 | the GUID can be parsed back from its string, so distinct GUIDs print differently |
| DbgHelpParsing.Rva | DumpLines/DbgHelpParser.cpp:128 | base + RVA equals the address modulo 2^32; inside a 4 GiB window above the base, the RVA is the exact difference |
| DbgHelpParsing.MethodFromSymbol | DumpLines/DbgHelpParser.cpp:123-144 | name, base, address, size and index are copied, rva is the truncated difference, and file/line come from the line lookup or are empty/0 |
| DbgHelpParsing.FunctionRecords | DumpLines/DbgHelpParser.cpp:114-150 | the callback adds at most one record per symbol |
| DbgHelpParsing.FunctionRecordsSpec | DumpLines/DbgHelpParser.cpp:118-147 | every record comes from a function symbol, every function symbol yields one, and there is one per function symbol |
| DbgHelpParsing.AddressLeIsTotalPreorder | DumpLines/DbgHelpParser.cpp:166-170 | ordering by address is total and transitive, so the sort is well defined |
| DbgHelpParsing.FileNames | DumpLines/DbgHelpParser.cpp:180-190 | a name is listed iff it was passed as a non-null file name |
| DbgHelpParsing.FirstRejected | DumpLines/DbgHelpParser.cpp:224-235 | every token between the start and the result is accepted, and the result is rejected (or is 2^32) |
| DbgHelpParsing.FirstRejectedAt | DumpLines/DbgHelpParser.cpp:224-235 | a rejected token after an accepted run is the first rejected one |
| DbgHelpParsing.TokenFromSymbol | DumpLines/DbgHelpParser.cpp:237-244 | the record holds the probed token and SymFromToken's index, flags, value, address, tag and name |
| DbgHelpParsing.TokenRunPositions | DumpLines/DbgHelpParser.cpp:237-247 | the k-th record is the one for token k+1 |
| DbgHelpParsing.ConsecutiveTokens | DumpLines/DbgHelpParser.cpp:223-248 | the records for the tokens from 1 up to the first one SymFromToken rejects |
| DbgHelpParsing.ConsecutiveTokensSpec | DumpLines/DbgHelpParser.cpp:223-248 | records are for tokens 1..n in order, all accepted, and token n+1 is rejected |
| DbgHelpParsing.DbgHelpParser.constructor | DumpLines/DbgHelpParser.cpp:11-30 | the process handle is usable iff SymInitialize succeeded; base 0, age 0, empty lists |
| DbgHelpParsing.DbgHelpParser.EnumMethodSymbolsCallback | DumpLines/DbgHelpParser.cpp:114-150 | a function symbol appends its record; any other symbol changes nothing |
| DbgHelpParsing.DbgHelpParser.ComputeMethodsInfo | DumpLines/DbgHelpParser.cpp:152-172 | fails iff the enumeration fails; otherwise methods become a permutation of old + function records, ordered by address |
| DbgHelpParsing.DbgHelpParser.EnumSourceFilesCallback | DumpLines/DbgHelpParser.cpp:180-190 | a non-null file name is appended; a null one is skipped |
| DbgHelpParsing.DbgHelpParser.ComputeSourceFiles | DumpLines/DbgHelpParser.cpp:192-209 | fails iff the enumeration fails; otherwise the list becomes a sorted permutation of old + file names |
| DbgHelpParsing.DbgHelpParser.ComputeTokens | DumpLines/DbgHelpParser.cpp:216-251 | always succeeds, appending the consecutive accepted run from token 1 |
| DbgHelpParsing.DbgHelpParser.ComputeLists | DumpLines/DbgHelpParser.cpp:93-111 | the three enumerations in order: succeeds iff both enumerations succeed, and then all three lists are filled; a successful symbol enumeration sorts its records in even when the file enumeration fails; on failure source files and tokens are unchanged |
| DbgHelpParsing.DbgHelpParser.LoadModule | DumpLines/DbgHelpParser.cpp:47-91 | succeeds iff the process is open, the file exists, the module loads at a non-zero base and module info is returned; past the two guards the base is whatever the load returned, 0 included; age and GUID change only on success |
| DbgHelpParsing.DbgHelpParser.LoadPdbFile | DumpLines/DbgHelpParser.cpp:47-112 | succeeds iff `LoadSucceeds`; a closed process or missing file changes nothing; past those guards the base is what the load returned; when the module does not load GUID, age and lists are unchanged; once it loads GUID and age are set and the methods sorted in even if a later enumeration fails; on failure source files and tokens are unchanged |
| DumpLines.FirstInvalidOption | DumpLines/DumpLines.cpp:58-81 | none iff every middle argument is an option; otherwise the first non-option, with only options before it |
| DumpLines.ParseCommandLine | DumpLines/DumpLines.cpp:33-89 | the meaning of the command line: too few arguments, a flag-like last argument, the first non-option and `--source` with `--token` are usage errors; otherwise the PDB and the three flags |
| DumpLines.ParseArguments | DumpLines/DumpLines.cpp:33-89 | the argument loop computes exactly `ParseCommandLine` |
| DumpLines.TooFewArguments | DumpLines/DumpLines.cpp:33-38 | fewer than two arguments is a usage error |
| DumpLines.PdbIsLastArgument | DumpLines/DumpLines.cpp:47-55 | the PDB is the last argument and does not look like a flag; a bare `--` is accepted as a file name, `--sym` alone is a missing file name |
| DumpLines.InvalidOptionReported | DumpLines/DumpLines.cpp:58-81 | the first non-option argument is the one reported |
| DumpLines.OptionsOrderIndependent | DumpLines/DumpLines.cpp:58-89 | reordering or repeating options does not change the outcome |
| DumpLines.SourceAndTokenConflict | DumpLines/DumpLines.cpp:84-89 | `--source` together with `--token` is always a usage error |
| DumpLines.RenderLocation | DumpLines/DumpLines.cpp:221-242 | the location string: basename of the C-string path, `:` and the line text, or `N/A` |
| DumpLines.RenderLocationUnavailable | DumpLines/DumpLines.cpp:221-242 | `N/A` is shown iff the source file is empty or the line is 0 |
| DumpLines.RenderLocationShown | DumpLines/DumpLines.cpp:221-238 | otherwise basename + `:hidden` for 0xFEEFEE, else basename + `:` + the line, which reads back as the line |
| DumpLines.RenderMethodRows | DumpLines/DumpLines.cpp:212-245 | one row per method, in list order, with its name, token and location |
| DumpLines.LoadLists | DumpLines/DumpLines.cpp:98-143 | `--sym` picks the symbol reader, else DbgHelp; success iff that back end loads, and then the lists are the back end's sorted/probed lists |
| DumpLines.ChooseListing | DumpLines/DumpLines.cpp:145-246 | source files, else tokens, else methods; -3 iff the chosen list is empty |
| DumpLines.SelectedEmptyCollected | DumpLines/DumpLines.cpp:145-204 | sorting keeps the count, so the chosen list is empty iff the back end collected nothing of that kind |
| DumpLines.RunDumpLines | DumpLines/DumpLines.cpp:26-250 | exit -1 iff the arguments are invalid, -2 iff loading fails, -3 iff the chosen list is empty, otherwise 0 with that listing |
| PdbFormatsLib.Join | PDBFormatsLibTest/PDBFormatReaderTest.cs:93 | `string.Join`: the items with the separator between each two consecutive ones |
| PdbFormatsLib.FormatRecords | PDBFormatsLibTest/PDBFormatReaderTest.cs:86-94 | the message for an empty list, otherwise the records joined by the newline |
| PdbFormatsLib.RecordTexts | PDBFormatsLibTest/PDBFormatReaderTest.cs:93 | one text per element, a null element giving the empty string |
| PdbFormatsLib.JoinLength | PDBFormatsLibTest/PDBFormatReaderTest.cs:93 | the joined text has every record's characters plus one separator per gap |
| PdbFormatsLib.JoinAppend | PDBFormatsLibTest/PDBFormatReaderTest.cs:93 | joining one more record adds a separator and that record at the end |
| PdbFormatsLib.JoinStart | PDBFormatsLibTest/PDBFormatReaderTest.cs:93 | the joined text begins with the first record and a separator |
| PdbFormatsLib.NoRecordsMessage | PDBFormatsLibTest/PDBFormatReaderTest.cs:86-94 | with a line-break separator the message appears iff the list is empty or its only record is that message |
| PdbFormatsLib.StatisticsCountReadBack | PDBFormatsLibTest/PDBFormatReaderTest.cs:109-112 | the line starts with `File: `; a null path shows `Not specified`; the count is the last word and reads back |
| PdbFormatsLib.PdbFormatReader.constructor | PDBFormatsLibTest/PDBFormatReaderTest.cs:43-46 | a new reader has an empty list and no path |
| PdbFormatsLib.PdbFormatReader.WithPath | PDBFormatsLibTest/PDBFormatReaderTest.cs:52-55 | the path constructor also sets the path |
| PdbFormatsLib.PdbFormatReader.SetFilePath | PDBFormatsLibTest/PDBFormatReaderTest.cs:17-21 | the setter installs the path |
| PdbFormatsLib.PdbFormatReader.SetRecords | PDBFormatsLibTest/PDBFormatReaderTest.cs:26-30 | the setter installs the list, possibly null or holding null elements |
| PdbFormatsLib.PdbFormatReader.RecordCount | PDBFormatsLibTest/PDBFormatReaderTest.cs:35-38 | the number of elements, null ones included; 0 for a null list |
| PdbFormatsLib.PdbFormatReader.Initialize | PDBFormatsLibTest/PDBFormatReaderTest.cs:60-67 | replaces the list by exactly the HEADER, TITLE and AUTHOR records (count 3); a null list throws and stays null |
| PdbFormatsLib.PdbFormatReader.AddRecord | PDBFormatsLibTest/PDBFormatReaderTest.cs:73-80 | a null or empty record throws ArgumentException and changes nothing; otherwise the record is appended and the count grows by one |
| PdbFormatsLib.PdbFormatReader.Clear | PDBFormatsLibTest/PDBFormatReaderTest.cs:99-103 | the list becomes empty (count 0); a null list throws |
| PdbFormatsLib.PdbFormatReader.FormattedRecords | PDBFormatsLibTest/PDBFormatReaderTest.cs:86-94 | throws iff the list is null; an empty list gives the message; otherwise the joined text, null elements as empty lines, has the joined length |
| PdbFormatsLib.PdbFormatReader.Statistics | PDBFormatsLibTest/PDBFormatReaderTest.cs:109-112 | the statistics line for the current path and record count |
| PdbFormatsLib.ClearIdempotent | PDBFormatsLibTest/PDBFormatReaderTest.cs:99-103 | clearing twice is clearing once |
| PdbFormatsLib.NullRecordFormatting | PDBFormatsLibTest/PDBFormatReaderTest.cs:26-38 | a null element set through `Records` is counted and adds an empty line to the listing |
| PdbFormatsLib.AddRecordFormatting | PDBFormatsLibTest/PDBFormatReaderTest.cs:73-94 | after adding to a non-empty list, the listing is the old listing, a newline and the new record |
| PdbFormatsLib.ConsoleScenario | ConsoleAppTest/Program.cs:13-42 | the demo sees counts 3, 4 and 0, statistics for `sample.pdb` with 3 records, and the four records joined |

## Left out

- COM, CLR hosting and DbgHelp themselves: `CoInitialize`, `CLRCreateInstance`, `OpenScope`, `GetReaderForFile`, `SymInitialize`, `SymLoadModuleEx`, `SymEnumSymbols`, `SymFromToken`, and the rest. What they answer is an input; reference counting, `Release`, `SymUnloadModule64` and `SymCleanup` are not modelled.
- SymPdbParsing.SymPdbParser.OpenReader: a failing OpenScope or GetReaderForFile is taken to leave its out-parameter null, as COM requires of a failing call, so the model closes that handle; a callee that broke the rule and left a stale pointer is not modelled.
- Code-page conversions (`MultiByteToWideChar`, `WideCharToMultiByte`): names and URLs are the strings the engine yields. Whatever those strings contain, such as a terminating NUL counted in a URL length, is kept as given. The C-string view in the location handles such a NUL.
- Console output: the banner, help text, column padding, rulers, the `0x%08X` token columns and the header lines with GUID and age. The model keeps only which listing is produced and the location text per method.
- `SymOptions` flags set in the DbgHelp constructor: they only configure the engine.
- DbgHelpParsing.DbgHelpParser.ComputeTokens: the C++ loop counts with a 32-bit `ULONG`. If SymFromToken accepted every token, the counter would wrap to 0 and the loop would never end. The model stops at 2^32 instead.
- DbgHelpParsing.DbgHelpParser.ComputeMethodsInfo: a failing `SymEnumSymbols` is modelled as failing before any callback. Records appended before a failure part-way are not modelled. The same holds for ComputeSourceFiles.
- Sorting.SortBy: `std::sort` leaves the order of equal elements unspecified. The model promises only an ordered permutation, not one particular arrangement.
- SymPdbParsing.ProbeMethodsOrdered: the order is proved only when GetToken returns the probed token; the code takes that for granted.
- PdbFormatsLib.PdbFormatReader.SetRecords: the `Records` getter hands out the list object itself, so a caller can change it behind the reader. The model keeps the list as a value and does not model that aliasing.
- `Console.WriteLine` in `Initialize` and `Clear`, and `Console.ReadKey` in the demo.
- The header files DumpLines/SymPdbParser.h and DumpLines/DbgHelpParser.h: the model follows DumpLines/PdbCommon.h and the .cpp files and ignores where the headers disagree with them. SymPdbParser.h declares `ComputeMethodsInfoByTypes`, which no .cpp file defines. DbgHelpParser.h declares its own five-field `MethodInfo`, which clashes with PdbCommon.h. DbgHelpParser.h also lacks the source-file and token members that DbgHelpParser.cpp defines and uses. The getters are field reads.
