# Cork front end: mesh exchange and command dispatch

This project models the part of the Cork Boolean-mesh library's `cork/main.cpp`
that is self-contained, and proves properties of that model. It has two parts.

- **Exchange adapter** (`exchange.dfy`, module `CorkExchange`). The file layer
  keeps a mesh as a sequence of vertices (`pos.x/y/z`) and a sequence of
  triangles (`a/b/c` vertex indices). The library boundary uses the flat
  record `CorkTriMesh`: two counts, plus arrays where slot `3*i+k` holds
  component `k` of element `i`.
  - `file2corktrimesh` becomes `File2CorkTriMesh`, plus one method per fill
    loop.
  - `corktrimesh2file` becomes `CorkTriMesh2File`.
  - Both are specified against the flatten/unflatten functions. The layout
    lemmas and both round trips are proved about those functions.
  - Coordinates are an opaque type `Coord`.
  - Indices and counts are the source's 32-bit `uint`. The contracts require
    every slot index `3*i+2` to fit in a `uint`, so the model never wraps.
- **Command dispatch** (`commands.dfy`, module `CorkCommands`).
  - `CmdList` is a class whose `commands` field holds the registry.
  - `regCmd` appends to it. `runCommands` is a `while` loop over an argument
    position that the handlers also advance.
  - A handler is described by what it does with the arguments:
    - `help` prints and exits with 0.
    - `solid` takes one argument.
    - The four Boolean commands take three arguments.
  - A handler's observable actions are recorded as a sequence of effects:
    load, compute, save, report, print help.
  - Every `exit(n)` becomes an `Exited(n, reason)` status that is returned to
    the caller.
  - `main` is modelled by `RunCork`, against the specification `Cork`.

The source initialises `found` to `true` (cork/main.cpp:171). So the
"is not recognized" branch can never run. A dashed name that matches no
command is consumed and silently skipped. The model follows the code as
written. `RunCommands` keeps the flag, the dead branch and the first-match
`break`. Its postcondition `r == RunFrom(...)` ties that loop to the
specification `RunFrom`, which skips unknown names. Given that link,
`NeverNotRecognized` holds by the construction of `RunFrom`.

A token of the empty string is rejected as lacking a dash. In C++11,
`arg_cmd[0]` on an empty `std::string` reads the terminating NUL.
`FirstChar` models that read.

The triangle fields `a`, `b` and `c` are typed as 32-bit unsigned here. The
header `files.h` that declares them is not part of this model. The type is
chosen to match the `uint` array of `CorkTriMesh` they are copied into.

## Model

| member | source | states |
|---|---|---|
| `CorkExchange.FileMesh.constructor` | cork/main.cpp:85 | a fresh structured mesh has no vertices and no triangles |
| `CorkExchange.CorkTriMesh.constructor` | cork/main.cpp:194-196 | the source leaves a fresh record's fields uninitialised; the model gives it zero counts and empty arrays, so it satisfies the three-slots-per-element invariant. No other contract relies on that: `File2CorkTriMesh` overwrites every field |
| `CorkExchange.FlattenTriangles` | cork/main.cpp:38-45 | the flat index array of `n` triangles has exactly `3n` slots |
| `CorkExchange.FlattenVertices` | cork/main.cpp:39-51 | the flat coordinate array of `n` vertices has exactly `3n` slots |
| `CorkExchange.FlattenTrianglesAt` | cork/main.cpp:41-45 | slots `3i`, `3i+1` and `3i+2` hold `a`, `b` and `c` of triangle `i`, in that order |
| `CorkExchange.FlattenVerticesAt` | cork/main.cpp:47-51 | slots `3i`, `3i+1` and `3i+2` hold `x`, `y` and `z` of vertex `i`, in that order |
| `CorkExchange.FillTriangleSlots` | cork/main.cpp:41-45 | the triangle loop leaves the array equal to the flat index array; all indices stay in bounds and within `uint` |
| `CorkExchange.FillVertexSlots` | cork/main.cpp:47-51 | the vertex loop leaves the array equal to the flat coordinate array; all indices stay in bounds and within `uint` |
| `CorkExchange.File2CorkTriMesh` | cork/main.cpp:34-52 | the counts equal the sequence lengths; both arrays are new with exactly three slots per element; their contents are the flattened triangles and vertices |
| `CorkExchange.Resize` | cork/main.cpp:55-56 | `std::vector::resize` gives length `n`, keeps the old prefix and fills new positions with the default element |
| `CorkExchange.UnflattenTriangles` | cork/main.cpp:58-62 | reading `n` triangles back gives exactly `n` triangles |
| `CorkExchange.UnflattenVertices` | cork/main.cpp:64-68 | reading `n` vertices back gives exactly `n` vertices |
| `CorkExchange.UnflattenTrianglesAt` | cork/main.cpp:58-62 | triangle `i` read back takes `a`, `b` and `c` from slots `3i`, `3i+1` and `3i+2` |
| `CorkExchange.UnflattenVerticesAt` | cork/main.cpp:64-68 | vertex `i` read back takes `x`, `y` and `z` from slots `3i`, `3i+1` and `3i+2` |
| `CorkExchange.CorkTriMesh2File` | cork/main.cpp:54-69 | the output sequences are resized to exactly the counts; element `i` is built from slots `3i..3i+2` |
| `CorkExchange.UnflattenFlattenTriangles` | cork/main.cpp:41-62 | unflattening the flattened triangles gives the same triangle sequence |
| `CorkExchange.UnflattenFlattenVertices` | cork/main.cpp:47-68 | unflattening the flattened vertices gives the same vertex sequence |
| `CorkExchange.FlattenUnflattenTriangles` | cork/main.cpp:41-62 | flattening the `n` triangles read back restores the first `3n` slots |
| `CorkExchange.FlattenUnflattenVertices` | cork/main.cpp:47-68 | flattening the `n` vertices read back restores the first `3n` slots |
| `CorkExchange.ExchangeRoundTrip` | cork/main.cpp:34-69 | converting a mesh to the flat record and back, with the two methods, yields the same triangles and vertices |
| `CorkCommands.SolidBody` | cork/main.cpp:248-262 | `solid` returns normally iff an argument is left; then it consumes exactly one, loads it and reports on it; otherwise it exits with 1, "too few args", having done nothing |
| `CorkCommands.BinaryOpBody` | cork/main.cpp:190-218 | a binary-op handler returns normally iff three arguments remain; then it consumes exactly three, loads two inputs, computes and saves to the third; otherwise it exits with 1, "too few args", after doing nothing (no argument), loading the first input (one argument) or loading both and computing (two arguments) |
| `CorkCommands.BinaryOpComputesBeforeOutputCheck` | cork/main.cpp:198-210 | with only two arguments left, both inputs are loaded and the operation computed before the handler exits for the missing output |
| `CorkCommands.Arity` | cork/main.cpp:187-262 | the number of arguments a handler takes: none for `help` (123-129), one for `solid` (251), three for each Boolean command (198-208); only `help` takes none |
| `CorkCommands.ExitCode` | cork/main.cpp:128-290 | the exit code of each way a run ends: 0 after help (128), for too few program arguments (228) and on normal completion (290); 1 for a missing dash (166), an unknown name (181) and too few handler arguments (198, 202, 208, 251) |
| `CorkCommands.Invoke` | cork/main.cpp:123-129 | `help` consumes nothing and its only effect is printing help, then it exits with 0; any other handler returns normally iff its arity is available, and then consumes exactly its arity |
| `CorkCommands.FirstChar` | cork/main.cpp:163 | `arg_cmd[0]` is the first character of a non-empty token and the terminating NUL of an empty one |
| `CorkCommands.HasDash` | cork/main.cpp:163 | only a non-empty token can have a dash, and a non-empty one has a dash iff its first character is `-`; so an empty token is rejected |
| `CorkCommands.HelpAlwaysFound` | cork/main.cpp:121-130 | in a registry that starts with `help`, the name `help` finds index 0 whatever is registered later, and running it prints help and exits with 0 |
| `CorkCommands.Lookup` | cork/main.cpp:172-178 | the result is the first index whose name matches; nothing is found iff no command has that name |
| `CorkCommands.LookupFinds` | cork/main.cpp:172-177 | the first index carrying a name is the one the search picks |
| `CorkCommands.LookupRegistered` | cork/main.cpp:132-144 | after one more registration, every earlier lookup is unchanged; the new command is found only for a name unused before |
| `CorkCommands.RunFrom` | cork/main.cpp:159-184 | a run never moves the iterator backwards or past the end; a normal return has consumed every argument; every exit carries its reason's code |
| `CorkCommands.RejectsTokenWithoutDash` | cork/main.cpp:163-167 | a token that does not begin with `-` stops the run with status 1 and no effects |
| `CorkCommands.UnknownCommandSkipped` | cork/main.cpp:171-182 | a dashed name that matches no command consumes one token and the run continues unchanged, with no error |
| `CorkCommands.NeverNotRecognized` | cork/main.cpp:171-182 | no run ever stops with the "not recognized" exit |
| `CorkCommands.FirstRegisteredWins` | cork/main.cpp:172-177 | registering a command under a name already taken changes no run: the first registration always runs |
| `CorkCommands.CmdList.constructor` | cork/main.cpp:121-130 | a new registry holds exactly the `help` command, so `help` comes first |
| `CorkCommands.CmdList.RegCmd` | cork/main.cpp:132-144 | appends one command at the end; earlier commands and their order are unchanged; `help` stays first |
| `CorkCommands.CmdList.RunCommands` | cork/main.cpp:159-184 | the dispatch loop, with its found flag and first-match break, computes exactly the run given by `RunFrom` |
| `CorkCommands.Cork` | cork/main.cpp:222-291 | every run of the program ends in an exit whose code its reason determines |
| `CorkCommands.RunCork` | cork/main.cpp:222-291 | `main` returns the run that `Cork` specifies: fewer than two arguments give a hint and status 0; else the standard registry runs from the first argument after the program name |
| `CorkCommands.UnionScenario` | cork/main.cpp:264-267 | `cork -union a b c` loads `a` and `b`, computes the union, saves to `c` and finishes with 0 |
| `CorkCommands.HelpScenario` | cork/main.cpp:123-129 | `-help` prints and exits with 0; later commands never run |
| `CorkCommands.UnknownCommandScenario` | cork/main.cpp:171-182 | `-frobnicate` is skipped and the `-solid` after it runs |
| `CorkCommands.MissingDashScenario` | cork/main.cpp:163-167 | a bare file name where a command is expected exits with 1 |

## Left out

- `loadMesh`, `saveMesh`, `file::readTriMesh` and `file::writeTriMesh` are
  file I/O through a header that is not part of this model. The model records
  the `Load` and `Save` requests as effects. It does not model their
  `exit(1)` on a read or write failure.
- `printHelp` and every `std::cout`/`std::cerr` message are output. Printing
  help is the single effect `PrintHelp`. The help strings are kept as data in
  the registry.
- `exit(n)` does not terminate a process. It becomes an `Exited(n, reason)`
  status returned to the caller.
- The commands call `computeUnion`, `computeDifference`,
  `computeIntersection`, `computeSymmetricDifference`, `isSolid` and
  `initRand` in `cork.h`, whose bodies are not shown. They appear only as the
  effects `Compute(op)` and `ReportSolid(file)`, and `initRand` is dropped.
- `new[]`, `delete[]` and `freeCorkTriMesh` are memory bookkeeping. Array
  allocation appears only as `fresh` arrays in `File2CorkTriMesh`.
- The narrowing of vertex coordinates from double to float is floating point.
  The single opaque type `Coord` stands for both `double` and `float`, so the
  conversion is the identity here. That is why `UnflattenFlattenVertices` and
  the vertex half of `ExchangeRoundTrip` hold. In the source, the round trip
  rounds each coordinate to the nearest `float`, so vertices come back equal
  only when their coordinates are representable as `float`.
- File2CorkTriMesh: requires fewer than 2^32/3 vertices and triangles. It
  does not model the `uint` truncation of larger sizes or the wrap-around of
  `3*i` and `(n)*3`.
- CorkTriMesh2File: requires the record's invariant: each array holds three
  slots per counted element, and `3*n` fits in a `uint`. A record that breaks
  it makes the source read out of bounds.
- `cork/isct/empty3d.h` holds only declarations. The intersection predicates
  and their counters have no bodies to model.
- `Cork` and `RunCork` start reading at argument 1. The source vector of all
  `argc` arguments becomes the sequence `argv`.
