# Broadway decoder build script, modelled in Dafny

The repository's `src/index.js` builds the Broadway H.264 decoder for the web.
It compiles the decoder's C sources with Emscripten (`emcc`) into `build/avc.js`,
then wraps that file between two templates to produce `build/Decoder.js`.

The model keeps the script's decisions and treats every I/O step as an input:

- `Build` models `build()`. It covers the 16 fixed emcc arguments plus one mode
  flag (`-O2` only when `BROADWAY_PRODUCTION` is exactly `"true"`, else `-g1`),
  the 28 source paths, the ordered command tokens and their space-joined command
  line. `RunBuild` creates the output directory, runs the command once and
  settles with the compiler's completion signal.
- `Pipeline` models `buildAll()`. It checks the exit code, reads the two
  templates and `avc.js`, and writes `Decoder.js` as prefix + body + suffix.
  It also models the top-level `.then`/`.catch` handlers.
- `Text` holds `Array.prototype.join` with a one-character separator, its
  inverse (splitting), and decimal rendering of a number.
- `Paths` holds an abstract `path.join` (`dir + "/" + name`, no normalisation)
  and the script's fixed directory layout.
- `Wrappers` holds `Option`, `Result` and `Status`.

The constant tables are kept in one `BuildConfig` value: the heap size, the
exported entry points and the source list. `Broadway` is the table written in
the script. The general lemmas hold for any table. Short lemmas check the facts
about the concrete one, for example that no name contains a space or a comma.

`ComposeArgs`, `RunBuild` and `BuildAll` are methods, because the script builds
these values step by step: the push onto `args`, and the early throw followed
by read, concatenate and write. The source mapping and command assembly are
expressions in the script, so they are functions here.

A run's filesystem results and compiler result arrive as one `World` value.
`BuildAll` returns the outcome and the trace of visible steps (`Effect`):
directory creation, command execution, file reads and file writes. The
contracts state the properties in terms of that trace. For example, a failed
compilation leaves no read and no write in it.

Three behaviours of the script are worth spelling out:

- A rejected run still leaves exit status 0. The `.catch` handler
  (src/index.js:176-178) only prints `err.message`, and nothing in the script
  sets an exit code (`ScriptExitStatus`, tied to each run by `BuildAll`).
- An error from writing `Decoder.js` is not a rejection. `writeFileSync` runs
  inside the `fs.readFile` callback (src/index.js:160-163), so an exception
  from it escapes both the promise and the handlers. The model gives it its
  own outcome, `Crashed`, with no console line and no exit status set by the
  script.
- The library hook path is `Broadway/decoder/library.js`, with a lower-case
  `decoder`, while the source and include roots use `Broadway/Decoder`. The
  model keeps the path as written.

## Model

| member | source | states |
|---|---|---|
| `Build.ComposeArgs` | src/index.js:18-50 | Exactly 17 arguments. The first 16 are the fixed list. The last is `-O2` exactly when the variable is `"true"`, otherwise `-g1`. `-O2` occurs iff the build is production, and `-g1` occurs iff it is not. |
| `Build.ModeFlagExclusive` | src/index.js:84-90 | For every table, directory and variable value, exactly one of `-O2` and `-g1` is in the argument list, chosen by `=== "true"` (both directions). |
| `Build.ModeFlagExamples` | src/index.js:84 | Only `"true"` gives `-O2`. Unset, `"TRUE"`, `"1"` and `""` give `-g1`. |
| `Build.FixedArgsShared` | src/index.js:18-50 | The 16 leading arguments are the same in both modes. |
| `Build.InitialMemoryArg` | src/index.js:32 | The initial-memory argument is the prefix followed by decimal digits, and the digits read back as the table's heap size. With a 52428800-byte heap it is `-sINITIAL_MEMORY=52428800`. |
| `Build.InitialMemoryDecimal` | src/index.js:32 | The Broadway heap is 50*1024*1024 = 52428800, and its decimal rendering is `"52428800"`. |
| `Build.ExportedFlagUnique` | src/index.js:47 | With an absolute Broadway directory, the argument at position 13 is the only one starting with `-sEXPORTED_FUNCTIONS=`. If no name holds a comma, splitting its value at commas gives the exported table back in order. |
| `Build.BroadwayExports` | src/index.js:47 | The exported table has 8 names. Each starts with `_broadway` and none holds a comma. |
| `Build.BroadwayExportedFlag` | src/index.js:47 | For the Broadway tables, exactly one exported-functions argument exists, and its value splits into the 8 entry points in the written order. |
| `Build.Resolve` | src/index.js:93-96 | One path per file name, in the same order. Path i is `Join(src, files[i])`. No existence check is made. |
| `Build.ResolveInverse` | src/index.js:93-96 | Every resolved path lies under `src`, and stripping `src/` gives back the file name at the same position. |
| `Build.CommandShape` | src/index.js:104 | The tokens are `emcc`, `-I<src>`, `-I<inc>`, the 17 arguments, the n sources, `-o` and `<out>/avc.js`, in that order: 22 + n tokens. |
| `Build.BroadwayCommandShape` | src/index.js:53-82 | The Broadway table has 28 sources, so the command has 50 tokens, and the last is `<out>/avc.js`. |
| `Build.CommandRoundTrip` | src/index.js:104 | If neither the script's directory nor any table entry contains a space, splitting the space-joined command line at spaces gives back exactly the token sequence. |
| `Build.BroadwayCommandRoundTrip` | src/index.js:104 | For the Broadway tables and a directory without spaces, the command line splits back into its 50 tokens. |
| `Build.BroadwayTablesWithoutSpace` | src/index.js:53-82 | No source file name and no exported name contains a space. |
| `Build.RunBuild` | src/index.js:98-128 | The trace is exactly `MakeDirectory(out)` and, when that succeeds, one `Execute` of the composed command line. If mkdir fails, `build()` rejects with its message and nothing runs. The result resolves with the close code, or rejects with the launch error. `build()` reads and writes no file. |
| `Pipeline.BuildAll` | src/index.js:131-170 | Which step ends the run decides the outcome. A mkdir failure or launch error rejects with that error. A close code other than 0, or none, rejects with `CompilationFailed`, and exactly then. A failed read of either template rejects with `TemplateUnreadable`, and a failed read of `avc.js` with `OutputUnreadable`, each with the thrown message. It resolves with 0 iff every step succeeds. It ends `Crashed` iff all reads succeed and the write throws. The whole trace is given for each case. It is `MakeDirectory`, then `Execute(command)`, then the pre template, post template and `avc.js` reads, up to the one that fails. On success one `WriteFile` of `Decoder.js` with content `pre ++ avc ++ post` follows. Without the gate passing, nothing is read and no write is attempted. A write of `Decoder.js` is attempted at most once, and only after all three reads succeed. A compile failure prints exactly `non-zero exit code - compilation failed` on standard error. The exit status the script leaves is 0 unless the write threw. |
| `Pipeline.ComposeDecoder` | src/index.js:157 | The module is the prefix, then the body, then the suffix. Its length is the sum, and each part sits at its offset. |
| `Pipeline.ComposeDecoderInjective` | src/index.js:157 | With the templates fixed, equal modules have equal bodies. |
| `Pipeline.ComposeDecoderExample` | src/index.js:157 | `"PRE;"`, `"BODY"` and `";POST"` compose to `"PRE;BODY;POST"`. |
| `Pipeline.Report` | src/index.js:172-178 | A rejection prints exactly its message on standard error. Success prints one standard-output line, `exited with code ` followed by digits that read back as the code. An uncaught exception prints nothing through these handlers. |
| `Text.SplitJoin` | src/index.js:104 | If no part holds the separator, splitting a joined sequence gives the parts back. |
| `Text.JoinSplit` | src/index.js:104 | Joining the parts of any split gives the original text back. |
| `Text.JoinLength` | src/index.js:104 | A joined text is as long as its parts plus one separator between each pair of neighbours. |
| `Text.DecimalString` | src/index.js:32 | It renders a number as one or more decimal digits, with a leading `0` only for zero. |
| `Text.DecimalRoundTrip` | src/index.js:32 | Reading the decimal rendering back gives the number. |
| `Paths.JoinInverse` | src/index.js:95 | A joined path lies under its directory, and the name after the directory and `/` is recovered exactly. |
| `Paths.StaticLayoutAbsolute` | src/index.js:11-14 | With an absolute script directory, the Broadway, source, include and output directories are absolute. |
| `Paths.StaticLayoutNoSpace` | src/index.js:11-14 | A script directory without spaces gives layout directories without spaces. |

## Left out

- Running the subprocess (src/index.js:107-128). `child_process.exec`, the
  forwarding of its stdout and stderr to the console, and the race between
  `close` and `error` are not modelled. Only the first completion signal is
  modelled, as one `ExecEvent` input.
- Filesystem semantics. `mkdirSync`, `readFileSync`, `readFile` and
  `writeFileSync` are inputs (`World`) plus trace entries. The model makes no
  claim about directories existing afterwards, durability or atomicity.
- Loading `.env` (src/index.js:133) and the real `process.env`. The variable is
  a given `Option<string>`.
- Path normalisation. `Paths.Join`: models `path.join` as `dir + "/" + name`
  and does not resolve `..`, repeated separators or platform separators. Those
  live in Node's `path` module, which is not part of this model.
- Buffer-to-string conversion and UTF-8 decoding (src/index.js:157). Contents
  are taken as already-decoded strings.
- Shell parsing of the command line. The model has the token sequence and its
  space join. `Build.CommandRoundTrip` shows the join is lossless only when no
  token contains a space, and no quoting is modelled.
- The commented-out flags, the behaviour of `emcc` itself, and the C decoder
  sources. None of these are logic in this repository.
- `Pipeline.BuildAll`: its trace records attempted writes. When
  `writeFileSync` throws, the `WriteFile` entry is still there, and the model
  says nothing about what reached the disk.
- `Pipeline.ScriptExitStatus`: gives no status for an uncaught exception,
  because that status comes from Node's default handler and not from the
  script.
- `Pipeline.BuildAll`: sees the asynchronous steps as one sequence, so it does
  not model what else the event loop runs between them.
