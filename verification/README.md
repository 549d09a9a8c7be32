# csc_adapt — a Dafny model of CMake's C# compiler adapter

`csc_adapt` sits between CMake's Makefile generators and `csc.exe`. CMake
expects to compile each source to an object file and link the objects
afterwards. `csc.exe` compiles a whole program from all its sources in one
call. The adapter bridges the two by deferring compilation:

- `compile_object SOURCE OBJECT` compiles nothing. It writes the source path
  as the single line of the placeholder object file (the "backtrace") and
  exits 0. The path comes back intact only if it has no white space at
  either end and does not start with U+FEFF.
- `link_executable` / `shared_library` pass every token before the first
  `---`-prefixed sentinel through as a compiler flag. Every later non-sentinel
  token is read as a placeholder and replaced by its trimmed contents. The
  adapter then runs the compiler once on the resulting space-terminated
  argument string and, when the compiler run ends, exits with the
  compiler's code.
- `test_csc SOURCE`, and `compile_object` with exactly one argument, compile
  the source directly.
- The dispatcher matches the first argument exactly. `Main` turns every
  `ApplicationException` (no subcommand, unknown subcommand, wrong arity)
  into exit code 1. Any other failure escapes: a missing placeholder, an
  unwritable object path, or a compiler that cannot be started.

The model is functional:

- The file system is a `Store`: a map from path to contents, plus the set of
  paths that cannot be opened for writing.
- The compiler is a total function from the argument string to
  `Exited(code)` or `NotStarted`.
- `Environment.NewLine` is `Lf` or `CrLf`.
- Each subcommand yields an `Outcome`. Its status separates a returned exit
  code, a handled `AppError` and an `Unhandled` failure.

Files and modules:

- `wrappers.dfy` (`Wrappers`): `Option` and `Result`.
- `text.dfy` (`Text`): `Char.IsWhiteSpace`, `String.Trim`, ordinal
  `StartsWith`, `String.Join`, and the space-terminated string a
  `StringBuilder` accumulates.
- `filestore.dfy` (`FileStore`): the store, `WriteLine` and `ReadToEnd`.
- `linker.dfy` (`Linker`): the argument loop, modelled three times. `Scan`
  is a state machine with the `is_parsing_objects` latch; `Link` runs it
  through `LinkerArguments`. `LinkItems` is a reference split into a flag
  zone and an object zone. `BuildArguments` is the imperative loop. All
  three are proved equal: `Scan` to the zones by `ScanFollowsZones`, and
  `BuildArguments` both to the zones and to `LinkerArguments` in its own
  contract.
- `cscadapt.dfy` (`CscAdapt`): the subcommand type, `CompileObject`,
  `TestCsc`, `Link`, `Dispatch` (`_Main`) and `Run` (`Main`).
- `protocol.dfy` (`Protocol`): properties of whole runs and of
  compile-then-link sequences.

Where the adapter's documented behaviour and its code differ, the model follows the
code:

- `compile_object` with one argument is not an arity error. The dispatcher
  routes it to the direct-compile path, so its exit code is the compiler's.
- Exit code -1 never leaves `Main`, because every path assigns the exit
  code. It has no counterpart in the model.

## Model

| member | source | states |
|---|---|---|
| Text.Trim | Modules/CSCAdapt/csc_adapt.cs:147 | the trimmed string has no white space (as `Char.IsWhiteSpace` defines it) at either end |
| Text.TrimStartDropsWhiteSpace | Modules/CSCAdapt/csc_adapt.cs:147 | the front pass of Trim keeps a suffix of its input and removes only white space |
| Text.TrimEndDropsWhiteSpace | Modules/CSCAdapt/csc_adapt.cs:147 | the back pass of Trim keeps a prefix of its input and removes only white space |
| Text.TrimCutsWhiteSpaceMargins | Modules/CSCAdapt/csc_adapt.cs:147 | what Trim keeps is a factor of the input whose cut-off prefix and suffix are entirely white space |
| Text.TrimRemovesPadding | Modules/CSCAdapt/csc_adapt.cs:147 | Trim of a white-space prefix, a string with no white space at its ends, and a white-space suffix gives back exactly that middle string |
| Text.TrimDropsTrailingWhiteSpace | Modules/CSCAdapt/csc_adapt.cs:132-147 | Trim of a string with no white space at its ends, followed by white space such as a line terminator, gives back that string |
| Text.TrimBeforeWhiteSpace | Modules/CSCAdapt/csc_adapt.cs:132-147 | Trim of a string followed by white space, such as a line terminator, is never longer than that string |
| Text.TrimFixedPoints | Modules/CSCAdapt/csc_adapt.cs:147 | Trim leaves a string unchanged if and only if neither end is white space |
| Text.SpaceTerminated | Modules/CSCAdapt/csc_adapt.cs:164-168 | the builder's string is empty exactly when no item was appended, and holds at least one character per item |
| Text.SpaceTerminatedShape | Modules/CSCAdapt/csc_adapt.cs:164-168 | a non-empty argument string starts with the first item and a space, and ends with a space |
| Text.SpaceTerminatedSnoc | Modules/CSCAdapt/csc_adapt.cs:164-168 | appending one more item to the builder appends that item and one space to the string |
| Text.Join | Modules/CSCAdapt/csc_adapt.cs:57 | joining no items gives the empty string; a non-empty join starts with the first item, followed by the separator when there is a second |
| Text.JoinThenSpace | Modules/CSCAdapt/csc_adapt.cs:55-58 | `string.Join(" ", items)` followed by one space equals the space-terminated string the Linker builds, for any non-empty list |
| Text.TokensOfSpaceTerminated | Modules/CSCAdapt/csc_adapt.cs:164-171 | splitting the space-terminated argument string at spaces recovers the item list, in order and with its count, provided no item contains a space |
| FileStore.NewLine.Chars | Modules/CSCAdapt/csc_adapt.cs:132 | the terminator `WriteLine` appends, "\n" or "\r\n", is non-empty and entirely white space |
| FileStore.WriteLine | Modules/CSCAdapt/csc_adapt.cs:131-133 | writing succeeds exactly for a non-empty writable path; afterwards that file holds the line plus the terminator, and every other file is unchanged |
| FileStore.WithoutByteOrderMark | Modules/CSCAdapt/csc_adapt.cs:145 | decoding drops one leading U+FEFF, which StreamReader takes for a UTF-8 byte-order mark, and leaves every other text unchanged |
| FileStore.ReadToEnd | Modules/CSCAdapt/csc_adapt.cs:145-146 | reading succeeds exactly for an existing, non-empty path and returns its contents less a leading byte-order mark; otherwise it raises the read failure for that path |
| FileStore.ByteOrderMarkOfLine | Modules/CSCAdapt/csc_adapt.cs:132-146 | a line terminator never starts with U+FEFF, so only the written line itself can lose a leading byte-order mark on reading |
| FileStore.WriteThenRead | Modules/CSCAdapt/csc_adapt.cs:131-146 | reading a file just written returns the written line followed by the line terminator, less a leading U+FEFF; a line not starting with U+FEFF comes back unchanged |
| Linker.IsSentinel | Modules/CSCAdapt/csc_adapt.cs:159 | a token is a sentinel exactly when its first three characters are `---`, compared ordinally |
| Linker.BackTraceSourceFile | Modules/CSCAdapt/csc_adapt.cs:143-148 | a placeholder resolves exactly when it exists; the result is its decoded contents trimmed, and a missing or empty path gives the read failure |
| Linker.Scan | Modules/CSCAdapt/csc_adapt.cs:157-170 | the constructor's loop with its latch: a successful pass emits exactly one item per non-sentinel token |
| Linker.LinkerArguments | Modules/CSCAdapt/csc_adapt.cs:155-171 | `csc_args` is empty exactly when no non-sentinel token follows the subcommand, and otherwise ends with a space |
| Linker.FirstSentinel | Modules/CSCAdapt/csc_adapt.cs:157-161 | the returned position holds the first `---`-prefixed token, with no sentinel before it |
| Linker.ResolveAll | Modules/CSCAdapt/csc_adapt.cs:157-165 | resolving placeholders in order succeeds if and only if no placeholder is unreadable, giving one item per path; otherwise it fails as the first unreadable path does |
| Linker.ResolvedContents | Modules/CSCAdapt/csc_adapt.cs:162-164 | after a successful resolution, the item at each position is the backtrace of the placeholder at that position, so order is kept |
| Linker.ScanLatched | Modules/CSCAdapt/csc_adapt.cs:159-165 | once the latch is set, every later sentinel is dropped and every non-sentinel token is resolved through the store, never passed verbatim |
| Linker.ScanFollowsZones | Modules/CSCAdapt/csc_adapt.cs:155-171 | the argument loop yields the flag zone followed by the resolved object zone, or the failure of the first unreadable placeholder |
| Linker.ZonesPartitionNonSentinels | Modules/CSCAdapt/csc_adapt.cs:157-170 | the flag zone followed by the object zone is exactly the non-sentinel tokens in input order: sentinels are dropped, nothing is reordered or deduplicated |
| Linker.LinkItemCount | Modules/CSCAdapt/csc_adapt.cs:157-171 | a successful link emits exactly one item per non-sentinel token |
| Linker.LatchIsOneWay | Modules/CSCAdapt/csc_adapt.cs:156-165 | with the first sentinel after the flags, the flags pass through and every non-sentinel token after it is resolved, however many further sentinels follow |
| Linker.NoSentinelNoReads | Modules/CSCAdapt/csc_adapt.cs:157-170 | with no sentinel, the loop's output is the tokens themselves, whatever the store holds, so no placeholder is read |
| Linker.NoSentinelString | Modules/CSCAdapt/csc_adapt.cs:155-171 | with no sentinel after the subcommand, `csc_args` is the operands themselves, each followed by one space, whatever the store holds |
| Linker.LinkReadsOnlyObjectZone | Modules/CSCAdapt/csc_adapt.cs:162-165 | two stores that agree on the object-zone paths give the same link result |
| Linker.BuildArguments | Modules/CSCAdapt/csc_adapt.cs:150-172 | the constructor's loop returns the space-terminated flag zone followed by the resolved object zone, or raises the first read failure; this is exactly the `csc_args` that `Link` hands to the compiler |
| CscAdapt.ParseSubcommand | Modules/CSCAdapt/csc_adapt.cs:217-250 | a name is recognised exactly when it is one of the four subcommand names, and it maps to the subcommand with that name |
| CscAdapt.InvokeCompiler | Modules/CSCAdapt/csc_adapt.cs:60-97 | the result is the compiler's own exit code exactly when it ran, and the unhandled launch failure when it could not be started |
| CscAdapt.CompileObject | Modules/CSCAdapt/csc_adapt.cs:106-135 | without exactly a source and an object it raises the arity error and leaves the store alone; with both it returns 0, stores the source plus a terminator at the object path and changes nothing else; an unwritable path is unhandled |
| CscAdapt.TestCsc | Modules/CSCAdapt/csc_adapt.cs:185-202 | with one argument it returns the compiler's exit code on that argument; otherwise it raises the arity error; the adapter itself never writes |
| CscAdapt.Link | Modules/CSCAdapt/csc_adapt.cs:174-177 | the adapter itself never writes when linking, and never raises an ApplicationException |
| CscAdapt.Dispatch | Modules/CSCAdapt/csc_adapt.cs:208-252 | an ApplicationException is raised if and only if there is no subcommand, the subcommand is unknown, `compile_object` has neither one nor two arguments, or `test_csc` lacks exactly one; only a `compile_object` with two arguments can change the store through the adapter's own writes |
| CscAdapt.Run | Modules/CSCAdapt/csc_adapt.cs:254-273 | every ApplicationException becomes exit code 1 with the store untouched; a returned code is the exit code; any other failure crashes the process |
| Protocol.CompileObjectRun | Modules/CSCAdapt/csc_adapt.cs:110-135 | `compile_object S O` exits 0 with O holding S plus the terminator and no other change, or crashes without a change when O cannot be written |
| Protocol.TestModeRun | Modules/CSCAdapt/csc_adapt.cs:217-232 | `compile_object S` and `test_csc S` exit as the compiler does on S, and the adapter itself writes nothing |
| Protocol.HandledErrorsExitOne | Modules/CSCAdapt/csc_adapt.cs:208-273 | no arguments, an unknown subcommand, `compile_object` with one token or four or more, and `test_csc` with other than two tokens all exit 1 without touching the store |
| Protocol.BacktraceRoundTrip | Modules/CSCAdapt/csc_adapt.cs:131-148 | after `compile_object S O`, the backtrace read from O equals S if and only if S has no white space at either end and does not start with U+FEFF |
| Protocol.CompileObjectIdempotent | Modules/CSCAdapt/csc_adapt.cs:131-134 | repeating `compile_object` with the same arguments leaves the same outcome and the same files |
| Protocol.LinkRun | Modules/CSCAdapt/csc_adapt.cs:233-241 | `link_executable` and `shared_library` do not write through the adapter; they exit as the compiler does on the built string, or crash with the Linker's failure |
| Protocol.LinkerArgumentsByZones | Modules/CSCAdapt/csc_adapt.cs:143-171 | the built string is the flags and then the trimmed placeholder contents, each followed by one space; a missing placeholder is a failure naming the first one, not exit code 1 |
| Protocol.CompileAllRecords | Modules/CSCAdapt/csc_adapt.cs:125-135 | after `compile_object` runs to distinct writable object paths, each object file holds its own source line and every other file is unchanged |
| Protocol.ResolveRecorded | Modules/CSCAdapt/csc_adapt.cs:143-148 | placeholders holding source lines that survive a backtrace resolve to exactly those sources, in order |
| Protocol.FlagsThenPlaceholders | Modules/CSCAdapt/csc_adapt.cs:156-171 | flags, then `---`, then placeholders that resolve to some sources give the flags followed by those sources |
| Protocol.DeferredCompilation | Modules/CSCAdapt/csc_adapt.cs:125-177 | compiling each source that survives a backtrace to its own placeholder and then linking calls the compiler on the flags followed by the original sources in order, each followed by one space, and exits with the compiler's code |

## Left out

- `CSC.Invoke` process handling (Modules/CSCAdapt/csc_adapt.cs:60-97) is an
  oracle. Starting the child process, redirecting its streams, relaying its
  output after exit and the console logging are not modelled.
- `CscAdapt.InvokeCompiler`: the model assumes every compiler run that
  starts also ends, since `Launch` is `Exited(code)` or `NotStarted`. In the
  source the adapter redirects the compiler's output (csc_adapt.cs:77-78) and
  waits for it to exit (:85). It reads that output only afterwards (:89-90).
  A compiler that writes more than a pipe buffer holds, such as a failing
  build with a few kilobytes of diagnostics, therefore blocks on its write
  while the adapter blocks in `WaitForExit`. Neither process ends. This hang
  has no counterpart in the model.
- `CMakeVars.NormPath` and `CMakeVars.CSC_COMPILER` are generated elsewhere
  and are not part of this model. The compiler path is folded into the
  oracle.
- The `CSC(ArrayList)` constructor has an empty body and no caller, so it is
  not modelled. The `CSC(string[])` join has no caller either. It is modelled
  only as `Text.Join`, related to the Linker's string by `JoinThenSpace`.
- Diagnostics and exception message text are not modelled. This covers the
  lines `Main` prints and the text of each `ApplicationException`. Only the
  exit code and the kind of error are kept.
- `Text.StartsWith`: C#'s `StartsWith(string)` is culture-sensitive. The
  model compares ordinally. The two can differ in three ways:
  - a token that begins with characters the culture ignores;
  - an ignorable character among the first three dashes, such as
    `"-\u00AD--x"`, which the culture matches and the ordinal test does not;
  - a combining mark on the third dash, such as `"---\u0301x"`, which the
    ordinal test takes for a sentinel and the culture does not.
- Text encoding is modelled only where it changes characters. The store
  holds the characters of each file. `StreamWriter` writes UTF-8 without a
  byte-order mark, and `StreamReader` drops leading bytes EF BB BF, so a
  written line that starts with U+FEFF loses that character on reading
  (`FileStore.WithoutByteOrderMark`). UTF-16 and UTF-32 byte-order marks
  cannot come from UTF-8 text. Files written in other encodings by other
  programs are not modelled.
  Strings are modelled as sequences of Unicode scalar values, while a C#
  string is a sequence of UTF-16 code units. Strings with unpaired
  surrogates are out of scope. On such a source path, `StreamWriter` would
  already have created or truncated the object file, and closing it would
  raise an encoder exception that `Main` does not catch. The process would
  crash and leave the object file empty. `Protocol.CompileObjectRun` states
  neither outcome for that case.
- `Text.IsWhiteSpace` follows `String.Trim` on .NET Framework 4.6.2 and
  later and on .NET Core, which strip exactly the characters
  `Char.IsWhiteSpace` accepts under Unicode 6.3 or later data. U+180E is
  not white space there. Earlier runtimes differ:
  - .NET Framework versions that use older Unicode data also strip U+180E;
  - .NET Framework 3.5 and earlier also strip U+200B and U+FEFF, and do not
    strip U+180E, U+202F or U+205F.

  Those runtimes are not modelled.
- `FileStore.WriteLine`: paths are neither normalised nor case-folded. The
  store compares paths by their exact spelling, so `a.obj`, `./a.obj` and,
  on Windows, `A.OBJ` are separate keys, though the file system treats them
  as one file. "Every other file is unchanged" in `WriteLine`,
  `CscAdapt.CompileObject` and `Protocol.CompileAllRecords`, and `Distinct`
  there, are statements about spellings.
- `CscAdapt.InvokeCompiler`: the compiler's own file reads and writes are
  outside the `Store`. This covers the sources it reads and the `/out:`
  artifact it writes. Its exit code is modelled as depending on the argument
  string alone. "Never writes" in `TestCsc`, `Link`, `Dispatch`,
  `Protocol.TestModeRun` and `Protocol.LinkRun` speaks of the adapter's own
  writes.
- File-system failures are reduced to two kinds:
  - a read fails for the empty path (`InvalidPath`) or a path that is not a
    file (`FileNotFound`);
  - a write fails for the empty path or a path in the store's `denied` set.

  Partial writes, full disks and other I/O errors are not modelled.
- `Text.TokensOfSpaceTerminated` covers only items without spaces. The
  compiler's own command-line parsing is not modelled: quoting, and paths
  that contain spaces, are out of scope.
- Exit codes are unbounded integers. The process's 32-bit exit status is not
  modelled.
- `Source/cmIncludeDirectoryCommand.h` only declares a command, and its
  implementation is not part of this model.
