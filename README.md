# AtMatrix demo, modelled in Dafny

`atmatrix_demo.py` drives the Arnold renderer SDK to render a short rigid-body
animation. It reads a text file of transforms dumped from Maya, one row of
whitespace-separated floats per line. Then it starts a render session and
loads the scene `cube_bounce.ass`. For every frame from `START = 1` to
`END - 1 = 139` it does four things:

- it names the output file `renders/bounce.%03d.exr`;
- it gives the cube a motion-blurred transform with two keys, built from rows
  `frame` and `frame + 1`;
- it renders;
- after a failed render it breaks out of the loop.

At the end it calls `AiEnd`.

The two helper functions do the marshaling.

- `xform_to_matrix` copies entries 0 to 15 of a flat list into an `AtMatrix`,
  in row-major order.
- `set_node_xform` dispatches on the length of its argument. A list shorter
  than 16 is a list of motion keys: it is packed into an `AtArray` and
  attached with `AiNodeSetArray`. A list of 16 or more entries is a single
  flat matrix, attached with `AiNodeSetMatrix`.

The model has five modules:

- `PyValues` models the Python behaviour the script relies on: floats and
  lists as dynamically typed values; `IndexError`, `TypeError` and
  `ValueError`; and left-to-right evaluation in which the first exception
  wins.
- `Text` models `str.split("\n")`, `str.split()` and `"%03d" % n`.
- `Arnold` models the renderer session as a class.
  - The session keeps a log of the SDK calls made on it, with their
    arguments, and a count of render calls.
  - An oracle supplies whether the n-th `AiRender` returns `AI_SUCCESS`.
  - `AtArray` is a class over an `array` of matrices.
- `Marshal` models `xform_to_matrix` and `set_node_xform`.
  - Each is an imperative method proved against a function of its input.
  - The function (`ToMatrix`, `Xform`) says which matrix or motion keys
    result, or which exception is raised.
- `Demo` models the main block.
  - The parsing loop (`ReadMats`), the loop body (`RenderFrame`), the frame
    loop (`RenderFrames`) and the whole run (`RunDemo`) are methods on a
    `Session`.
  - Each is specified by the calls it appends to the log and by how the run
    ends: `Exit` is `Finished`, `Stopped(frame)` after the `break`, or
    `Raised(error)` for an uncaught exception.
  - The specifications are the functions `Mats`, `FrameStep`, `LoopTrace`
    and `DemoTrace`, and the lemmas in the last part of `demo.dfy` prove
    properties of them.

A few functions are plain definitions, whose properties are stated by the
members that use them:

- `PyValues.Row` embeds a parsed row as a Python list of floats.
- `PyValues.AsFloat` is the store into a ctypes float field of an `AtMatrix`,
  which refuses a list with `TypeError`.
- `Demo.PyFloat` wraps the conversion `toFloat` as `float()`, with `None`
  raising `ValueError`.
- `Marshal.Cells` reads out a 4x4 array as a matrix.
- `Demo.FileNames` lists the file names of a range of frames.

The script has no `try`/`finally`. An exception therefore ends it on the spot
and `AiEnd` is not called. A failed render, by contrast, breaks out of the
loop, and `AiEnd` still follows. The model follows this.

The frame loop reads `mats[frame + 1]` up to `frame = END - 1`, that is
`mats[END]`. The loop therefore needs at least `END + 1 = 141` rows. A count
of `END - START + 1` rows (one per rendered frame, plus one) or of `END`
rows falls one short. The model follows the code: see
`Demo.FinishedReadsUpToEnd`.

## Model

| member | source | states |
|---|---|---|
| `PyValues.MapAll` | atmatrix_demo.py:53-54 | left-to-right evaluation succeeds iff every element succeeds, then with one result per element, position by position; otherwise the exception is one raised by some element |
| `PyValues.MapAllFirstError` | atmatrix_demo.py:53-54 | the exception raised is the one of the first failing element: nothing after it is evaluated |
| `Text.SplitOn` | atmatrix_demo.py:88 | `split("\n")` gives one more piece than there are newlines, and no piece contains a newline |
| `Text.JoinSplit` | atmatrix_demo.py:88 | joining the pieces of `split` with the separator gives back the text |
| `Text.SplitJoin` | atmatrix_demo.py:88 | splitting pieces joined by the separator gives back the pieces, when none contains it |
| `Text.SplitAppend` | atmatrix_demo.py:88 | a separator between two texts separates their pieces |
| `Text.SplitPiece` | atmatrix_demo.py:88 | a text without the separator is a single piece |
| `Text.EndsWithSeparator` | atmatrix_demo.py:88 | a text ending with the separator splits into at least two pieces, the last one empty |
| `Text.Tokens` | atmatrix_demo.py:91 | every token of `split()` is non-empty and holds no whitespace; a text starting with a non-space character has a first token starting with it |
| `Text.BlankHasNoTokens` | atmatrix_demo.py:91 | a line of only whitespace, the empty line included, has no tokens |
| `Text.TokensAppend` | atmatrix_demo.py:91 | a whitespace character between two texts separates their tokens |
| `Text.TokensOfWord` | atmatrix_demo.py:91 | a non-empty word without whitespace is one token |
| `Text.TokensOfJoin` | atmatrix_demo.py:91 | tokenising space-joined words gives back the words, in order |
| `Text.Decimal` | atmatrix_demo.py:108 | the decimal numeral of `n` is made of digits only, with at most 2 digits below 100 and at most 3 below 1000 |
| `Text.DecimalRoundTrip` | atmatrix_demo.py:108 | reading the numeral of `n` back as a decimal number gives `n` |
| `Text.DecimalShape` | atmatrix_demo.py:108 | the numeral of `n` has no leading zero from 10 on, at least 2 digits from 10 on and at least 3 from 100 on |
| `Text.Format03d` | atmatrix_demo.py:108 | `"%03d" % n`: the numeral of `n`, left-padded with zeros to 3 characters; its properties are stated by `Text.Format03dCorrect` and `Text.Format03dInjective` |
| `Text.Format03dCorrect` | atmatrix_demo.py:108 | `"%03d" % n` has at least 3 digits, exactly 3 iff `n < 1000`, a leading zero iff `n < 100`, is the plain numeral from 100 on, and reads back as `n`: this determines the string |
| `Text.Format03dInjective` | atmatrix_demo.py:108 | different frame numbers give different `"%03d"` strings |
| `Arnold.AtArray.Allocate` | atmatrix_demo.py:52 | `AiArrayAllocate(1, n, AI_TYPE_MATRIX)` gives a fresh array of `1 * n` slots |
| `Arnold.AtArray.SetMtx` | atmatrix_demo.py:54 | `AiArraySetMtx` replaces slot `i` and no other |
| `Arnold.Session.constructor` | atmatrix_demo.py:94 | a new session has an empty log, no render calls made yet, and the given oracle |
| `Arnold.Session.Begin` | atmatrix_demo.py:94 | `AiBegin` appends its call to the log |
| `Arnold.Session.MsgSetConsoleFlags` | atmatrix_demo.py:97 | `AiMsgSetConsoleFlags` appends its call, with its flags, to the log |
| `Arnold.Session.AssLoad` | atmatrix_demo.py:100 | `AiASSLoad` appends its call, with the path, to the log |
| `Arnold.Session.NodeLookUpByName` | atmatrix_demo.py:102-103 | the lookup appends its call to the log and returns the handle of the named node |
| `Arnold.Session.NodeSetStr` | atmatrix_demo.py:109 | `AiNodeSetStr` appends its call, with node, parameter and string, to the log |
| `Arnold.Session.NodeSetMatrix` | atmatrix_demo.py:61 | `AiNodeSetMatrix` appends its call, with the matrix, to the log |
| `Arnold.Session.NodeSetArray` | atmatrix_demo.py:55 | `AiNodeSetArray` appends its call, with the array's shape and its contents at the time of the call, to the log |
| `Arnold.Session.Render` | atmatrix_demo.py:116 | `AiRender` returns the oracle's answer for this render call, appends it to the log and counts one more render call |
| `Arnold.Session.End` | atmatrix_demo.py:122 | `AiEnd` appends its call to the log |
| `Marshal.MatrixOf` | atmatrix_demo.py:76-80 | a 4x4 matrix whose cell (y, x) holds entry `4 * y + x` of the list |
| `Marshal.FlattenMatrixOf` | atmatrix_demo.py:77-79 | the cells of the marshaled matrix, row by row, are exactly the first 16 entries of the list |
| `Marshal.MatrixOfFlatten` | atmatrix_demo.py:77-79 | every 4x4 matrix is the one marshaled from its own cells, row by row |
| `Marshal.MatrixOfIgnoresTail` | atmatrix_demo.py:77-79 | entries beyond index 15 never affect the matrix |
| `Marshal.ToMatrix` | atmatrix_demo.py:64-80 | `xform_to_matrix(v)` succeeds iff `v` is a list whose entries 0 to 15 exist and are floats; the result is then 4x4 with cell (y, x) equal to `v[4y+x]`. Otherwise it raises `IndexError` exactly when the list is shorter than 16 and all its entries are floats, and `TypeError` otherwise |
| `Marshal.ToMatrixRow` | atmatrix_demo.py:64-80 | a parsed row of at least 16 floats marshals to the matrix of its first 16 |
| `Marshal.ToMatrixReadsFirst16` | atmatrix_demo.py:77-79 | two lists that agree on their first 16 entries give the same matrix or the same exception |
| `Marshal.RowMajorWritesEachCellOnce` | atmatrix_demo.py:77-79 | the order of the nested loops has 16 steps and names each cell of the 4x4 matrix exactly once |
| `Marshal.XformToMatrix` | atmatrix_demo.py:64-80 | the imperative nested loops return what `ToMatrix` specifies (the matrix, or the exception at the first failing read), and on success they have written the cells in row-major order |
| `Marshal.Xform` | atmatrix_demo.py:50-61 | a list shorter than 16 gives one motion key per element, in order, each the matrix of that element, and there are never more than 15 keys; it fails iff some element cannot be marshaled. A longer list gives the static matrix `ToMatrix` of the list itself, or its exception; `len` of a float raises `TypeError` |
| `Marshal.XformSampledRows` | atmatrix_demo.py:50-55 | fewer than 16 rows of at least 16 floats become exactly that many keys, the i-th being the matrix of the i-th row |
| `Marshal.XformStaticRow` | atmatrix_demo.py:60-61 | a flat list of at least 16 floats becomes one static matrix, that of its first 16 entries |
| `Marshal.XformSampledFirstError` | atmatrix_demo.py:53-54 | when a key cannot be marshaled, `set_node_xform` raises the exception of the first such key |
| `Marshal.SetNodeXform` | atmatrix_demo.py:38-61 | on success exactly one call is logged: `AiNodeSetArray` with `(1, n)` and the n keys, or `AiNodeSetMatrix` with the static matrix, as `Xform` says. On an exception nothing is logged and the exception is `Xform`'s. No render call is made |
| `Demo.ParseRow` | atmatrix_demo.py:91 | a line parses iff each of its tokens converts, into one float per token, in order; otherwise it raises `ValueError` |
| `Demo.Mats` | atmatrix_demo.py:88-91 | the file's text parses iff every line does, into one row per line, in order (one more row than there are newlines); otherwise it raises `ValueError` |
| `Demo.ReadMats` | atmatrix_demo.py:88-91 | the imperative parsing loop returns what `Mats` specifies, stopping at the first line that does not parse |
| `Demo.BlankLineGivesEmptyRow` | atmatrix_demo.py:88-91 | a line of only whitespace, the empty line included, becomes an empty row |
| `Demo.FinalNewlineGivesEmptyRow` | atmatrix_demo.py:88-91 | a text ending with a newline has an empty last row |
| `Demo.ParseJoinedLines` | atmatrix_demo.py:88-91 | newline-joined lines are read back as one row per line, each the parse of that line |
| `Demo.FileNameCorrect` | atmatrix_demo.py:108 | different frames get different file names; a frame below 1000 is named by 3 digits that read back as the frame number |
| `Demo.FileName` | atmatrix_demo.py:108 | `"renders/bounce.%03d.exr" % frame`; its properties are stated by `Demo.FileNameCorrect` |
| `Demo.FrameXforms` | atmatrix_demo.py:112 | the list `[mats[frame], mats[frame+1]]`; what it attaches is stated by `Demo.FrameXformsSampled` |
| `Demo.Succeeds` | atmatrix_demo.py:116-117 | whether the render of `frame` returns `AI_SUCCESS`: it is render call number `frame - START` of the session, as `Demo.RenderFrames` maintains |
| `Demo.FrameStep` | atmatrix_demo.py:106-119 | one pass of the loop body. Its first call names the frame's file. It ends with an exception exactly when that is its only call. Otherwise its third call is the render with its result, and the loop goes on exactly when that render succeeded, or else breaks out at this frame. Its readable case is stated by `Demo.ReadablePass` |
| `Demo.LoopTrace` | atmatrix_demo.py:105-119 | the loop from `frame` on; a break happens at a frame between `frame` and `END - 1` whose render failed; its shape is stated by `Demo.LoopFinishes`, `Demo.LoopStops`, `Demo.LoopNamesFramesBelowEnd` and `Demo.FinishedReadsUpToEnd` |
| `Demo.StartRenderer` | atmatrix_demo.py:94-103 | startup logs `AiBegin`, the console flags, the scene load and the two lookups, in this order, and returns the handles of `cube` and `exr` |
| `Demo.Prelude` | atmatrix_demo.py:94-103 | the five startup calls in source order, as `Demo.StartRenderer` makes them |
| `Demo.DemoTrace` | atmatrix_demo.py:82-122 | the whole run: nothing after a parse error, otherwise startup, the loop, and `AiEnd` unless an exception was raised; stated by `Demo.RunDemo` and `Demo.ShutdownOnce` |
| `Demo.RenderFrame` | atmatrix_demo.py:106-119 | one pass of the loop body makes the calls `FrameStep` lists and ends as it says; a pass that gets to `AiRender` counts one render call |
| `Demo.RenderFrames` | atmatrix_demo.py:105-119 | the imperative frame loop appends exactly the calls of `LoopTrace` from `START` to the log and ends as `LoopTrace` says |
| `Demo.RunDemo` | atmatrix_demo.py:82-122 | the main block appends exactly the calls of `DemoTrace` to the log and ends as it says |
| `Demo.FrameXformsSampled` | atmatrix_demo.py:112-113 | the transform of a frame is two keys: the matrices of rows `frame` and `frame + 1` |
| `Demo.ReadablePass` | atmatrix_demo.py:108-119 | a pass whose two rows exist and hold at least 16 entries logs the file name, the two-key transform and the render, in this order, and stops the loop exactly when the render fails |
| `Demo.FramesLength` | atmatrix_demo.py:105-116 | frames `lo` to `hi - 1` make 3 calls each |
| `Demo.FramesAt` | atmatrix_demo.py:105-116 | the calls of frame `f` are at positions `3(f - lo)` to `3(f - lo) + 2`: frames are visited in increasing order |
| `Demo.LoopFinishes` | atmatrix_demo.py:105-116 | if every row read is long enough and every render succeeds, the loop makes the three calls of each frame from `frame` to `END - 1` in order and runs to its end |
| `Demo.LoopStops` | atmatrix_demo.py:105-119 | if the first failed render is at frame `k`, the loop makes the calls of frames up to `k` and none for any later frame, and ends with `Stopped(k)` |
| `Demo.LoopStopsHere` | atmatrix_demo.py:116-119 | a readable pass whose render fails ends the loop right after its three calls, breaking out at that frame |
| `Demo.FinishedPass` | atmatrix_demo.py:112-116 | a pass the loop gets past read rows `frame` and `frame + 1`, both with at least 16 entries |
| `Demo.FinishedReadsUpToEnd` | atmatrix_demo.py:105-113 | a loop that runs to its end from `frame` has read rows `frame` to `END`, each with at least 16 entries, so `mats` has more than `END` rows |
| `Demo.FilesNamedAppend` | atmatrix_demo.py:109 | the file names set by two runs of calls are those of the first, then those of the second |
| `Demo.StepNamesItsFile` | atmatrix_demo.py:108-109 | each pass of the loop body sets exactly one file name, its own frame's |
| `Demo.LoopNamesFramesBelowEnd` | atmatrix_demo.py:105-109 | whatever happens, the file names set are those of consecutive frames from `frame`, in increasing order, and none of `END` or above |
| `Demo.LoopNeverEnds` | atmatrix_demo.py:105-119 | the frame loop itself never calls `AiEnd` |
| `Demo.ShutdownOnce` | atmatrix_demo.py:116-122 | `AiEnd` is called iff no exception ended the run, and then exactly once, as the last call |

## Left out

- Reading `mats.txt` (lines 84-86) is left out. The model starts from the text read. Each `char` stands for one byte of the file, and no newline translation is applied.
- `float()` itself (line 91) is the parameter `toFloat`. Python's float syntax and the rounding of decimal text to a double are not modelled.
- Floats are of an abstract type `T`. The single-precision rounding that ctypes applies when an `AtMatrix` field is set (line 79) is not modelled.
- Only floats and lists are modelled as Python values. An `int`, a string or `None` in a transform list cannot be expressed, although the parsed input made by the script never contains one.
- The log messages `AiMsgInfo` (lines 56-59) and `AiMsgError` (line 118) are not modelled. They only write to the renderer's log. The model assumes Python 2, where `b"...".format` exists; under Python 3 line 56 would raise an `AttributeError`.
- `str.split()` treats only ASCII whitespace as separators (space, tab, line feed, vertical tab, form feed, carriage return), as it does on a Python 2 byte string.
- The `sys.path` change and the imports (lines 28-33) are environment setup and are not modelled.
- The renderer's behaviour is reduced to the calls made on the session, logged in order. Scene contents, what a render computes and the images it writes are beyond the SDK boundary. `AiNodeLookUpByName` always returns a handle naming the node; a missing node is not modelled.
- `AiArrayAllocate` and `AiArraySetMtx` act on the `AtArray` object and are not logged. `AiNodeSetArray` logs the array's contents at the time of the call.
