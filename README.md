# ImageJ.JS service bridge: the raw-image open path

ImageJ.JS exposes ImageJ, running in the browser's Java virtual machine, as
an RPC service. Almost every operation of the service forwards to the engine.
The one piece of logic of its own is in `viewImage`. It takes an ndarray
record (`_rvalue` bytes, `_rshape` dimensions, `_rdtype` type tag) and an
optional `options.name`. It stages the bytes as a virtual file under `/str/`.
It then builds the option string of ImageJ's `Raw...` import command from the
dtype and the shape, or throws the channel error, or does nothing.

This project models that derivation and the discipline around it. Every
operation that shows the page's loader hides it again on every exit path.

- `decimal.dfy` (`Decimal`): how a template literal writes an integral number
  of moderate size (plain digits, optional minus sign), and a reader that gets
  the number back.
- `raw_open.dfy` (`RawOpen`): the pure derivation. `FormatLabel` is the dtype
  table. `EffectiveName` and `StagingPath` give the staged file. `Derive` maps
  (record, name) to `Issue(command)`, `Reject(message)` or `Silent`.
  `OptionString` renders a command as `open=… image=… width=… height=…
  [number=…]`. `ParseDims` reads width, height and number back from the right
  of such a string, and `ParseHead` reads back the `open=` and `image=` text
  before them.
- `service.dfy` (`Service`): the service object as a class. `loader` is the
  loader's display. `events` is one ordered trace of every write to the
  loader and every call made into the engine, staging the bytes included, so
  the contracts say that each engine call happens while the loader is shown and
  that the bytes are staged before "Raw..." opens them. `files` is the staging
  file system. What each awaited engine call settles to (`Returned` or `Threw`) is a
  parameter of the operation. `ViewImage` mutates the caller's `ViewOptions`
  object in place, as the source mutates `options`.

## Model

| member | source | states |
|---|---|---|
| `RawOpen.FormatLabel` | src/imjoyAPI.js:91-99 | a dtype tag has an image type exactly when it is one of uint8, uint16, int16, uint32, int32; no tag maps to the RGB type |
| `RawOpen.FormatLabelRoundTrip` | src/imjoyAPI.js:91-97 | each table label names back the dtype it came from, so the table is one-to-one |
| `RawOpen.EffectiveName` | src/imjoyAPI.js:88-89 | the effective name is never empty; it is the caller's name, or "tmp" |
| `RawOpen.EffectiveNameIdempotent` | src/imjoyAPI.js:89 | a non-empty name is kept; writing the effective name back into `options` leaves the next call's name unchanged |
| `RawOpen.StagingPath` | src/imjoyAPI.js:90 | the staging path is "/str/" followed by the effective name, which is never empty |
| `RawOpen.StagingPathInjective` | src/imjoyAPI.js:90 | two calls share a staged file exactly when their effective names are equal |
| `RawOpen.Derive` | src/imjoyAPI.js:99-128 | no command exactly for shape lengths other than 2, 3, 4; a rejection always carries the channel message; every command opens the staging path and has a `number` entry exactly when the shape is not 2-D (the per-shape lemmas below state each branch in full) |
| `RawOpen.DerivePlane` | src/imjoyAPI.js:123-127 | a 2-D shape gives width shape[1], height shape[0], the dtype's type and no `number` |
| `RawOpen.DeriveStack` | src/imjoyAPI.js:101-110 | a 3-D shape with last axis not 3 gives width shape[1], height shape[0], number shape[2] and the dtype's type |
| `RawOpen.DeriveRgbPlane` | src/imjoyAPI.js:101-110 | a 3-D shape with last axis 3 gives "[24-bit RGB]" and number 1 whatever the dtype |
| `RawOpen.DeriveVolume` | src/imjoyAPI.js:111-122 | a 4-D shape with last axis 1 or 3 gives width shape[2], height shape[1], number shape[0]; RGB for 3, the dtype's type for 1 |
| `RawOpen.DeriveBadChannel` | src/imjoyAPI.js:115-117 | a 4-D shape with any other last axis throws "channel dimension (last) can only be 1 or 3" |
| `RawOpen.DeriveOutcomeKinds` | src/imjoyAPI.js:101-128 | no command exactly for shape lengths other than 2, 3, 4; a throw exactly for a 4-D shape with last axis outside {1, 3}; every command opens the staging path |
| `RawOpen.DeriveRgbIffLastAxis3` | src/imjoyAPI.js:99-122 | the RGB type is chosen exactly when a 3-D or 4-D shape ends in 3; otherwise the dtype table decides |
| `RawOpen.DeriveIgnoresBytes` | src/imjoyAPI.js:98-128 | the outcome does not depend on the bytes: their length is never checked against the shape |
| `RawOpen.OptionString` | src/imjoyAPI.js:107-127 | the option string starts with "open="; `HeadRoundTrip` and `DimsRoundTrip` show that it carries the path, the image type, width, height and the optional number, each recoverable |
| `RawOpen.HeadRoundTrip` | src/imjoyAPI.js:107-127 | the text before the width entry, read back by `ParseHead`, is exactly "open=", the path, " image=" and the image type (or "undefined") |
| `RawOpen.IssuedHead` | src/imjoyAPI.js:101-127 | the option string of an issued command opens the staging path with "[24-bit RGB]" exactly for a 3-D or 4-D shape ending in 3, and with the dtype's type otherwise |
| `RawOpen.DimsRoundTrip` | src/imjoyAPI.js:107-127 | width, height and the optional number written into the option string are read back unchanged by `ParseDims`, which reads from the right and so skips the path and image type |
| `RawOpen.IssuedGeometry` | src/imjoyAPI.js:101-127 | read back by `ParseDims`, the option string of an issued command carries the geometry each shape prescribes |
| `RawOpen.ExampleRgbPlane` | src/imjoyAPI.js:101-110 | shape [100, 200, 3] of uint8 opens "/str/tmp" as "[24-bit RGB]" with width 200, height 100, number 1 |
| `RawOpen.ExamplePlane16` | src/imjoyAPI.js:123-127 | shape [50, 60] of uint16 opens as "16-bit Unsigned" with width 60, height 50 and no number |
| `RawOpen.ExampleBadChannel` | src/imjoyAPI.js:111-117 | shape [2, 50, 60, 5] is rejected with the channel error |
| `RawOpen.ExampleUnknownDtype` | src/imjoyAPI.js:99-127 | a dtype outside the table leaves the image type undefined, and the option string reads back as "open=/str/cells image=undefined" before the width |
| `Decimal.NatToString` | src/imjoyAPI.js:109 | a number is written as a non-empty run of digits without leading zeros |
| `Decimal.IntToString` | src/imjoyAPI.js:121 | an integer is written with a leading "-" exactly when negative and never contains a space or "=" |
| `Decimal.IntRoundTrip` | src/imjoyAPI.js:126 | every integer written into the option string is read back unchanged |
| `Decimal.IntToStringInjective` | src/imjoyAPI.js:109 | distinct integers are written as distinct text |
| `Service.Css` | src/imjoyAPI.js:36-42 | the display value is "block" exactly while the loader is shown and "none" when it is hidden; every operation ends with "none" |
| `Service.NdArrayOf` | src/imjoyAPI.js:146-151 | the record is tagged "ndarray" and carries bytes, shape and type unchanged |
| `Service.NdArrayRoundTrip` | src/imjoyAPI.js:146-151 | the record loses nothing of the image data, and every "ndarray" record is one `getImage` could return |
| `Service.LoaderWritesAppend` | src/imjoyAPI.js:36-42 | the loader writes of two consecutive stretches of a trace are those of the first followed by those of the second |
| `Service.OperationKeepsPaired` | src/imjoyAPI.js:36-43 | showing the loader, making any engine calls and hiding it adds exactly one "block", "none" pair to the loader writes, so the writes stay paired |
| `Service.PairedEndsHidden` | src/imjoyAPI.js:41-42 | after any sequence of operations the last write to the loader hid it |
| `Service.RawCalls` | src/imjoyAPI.js:107-127 | `viewImage` makes one "Raw..." engine call, with the command's option string, exactly when `Derive` issues a command |
| `Service.Settled` | src/imjoyAPI.js:107-133 | `viewImage` rethrows the engine's error or returns its value for an issued command, throws the channel message for a rejection, and returns `undefined` otherwise |
| `Service.ImageJService.Open` | src/imjoyAPI.js:35-44 | the trace gains exactly: show the loader, the engine's open with the path, hide the loader; the result is what the engine settles to, returned or rethrown |
| `Service.ImageJService.Save` | src/imjoyAPI.js:45-54 | the trace gains exactly: show the loader, the engine's save with filename, format and extension, hide the loader; the result is what the engine settles to |
| `Service.ImageJService.RunRaw` | src/imjoyAPI.js:107-110 | one "Raw..." engine call with the command's option string; the engine's result or error is passed on |
| `Service.ImageJService.ViewImage` | src/imjoyAPI.js:85-134 | the trace gains, in order: show the loader, stage the bytes at the staging path, the "Raw..." call exactly when `Derive` issues a command, hide the loader, on every exit; writes the effective name into a given `options`; the staged file holds the bytes; settles as `Settled` says |
| `Service.ImageJService.RunDerived` | src/imjoyAPI.js:99-128 | the in-place branching over the shape, with `format` and `number` reassigned locally, does what `Derive` says |
| `Service.ImageJService.GetImage` | src/imjoyAPI.js:142-155 | the trace gains exactly: show the loader, the engine's image-data call, hide the loader; returns the data's "ndarray" record or rethrows |

## Left out

- `setupRPC`, `setup` and `api.export` (src/imjoyAPI.js:14-25, 158): the RPC host and its transport.
- `run` (src/imjoyAPI.js:26-33): an unawaited loop of `viewImage` calls; its interleaving is scheduling, not logic.
- `addMenuItem`, `runPlugIn`, `getSelection` (src/imjoyAPI.js:34, 82-84, 135-141): they forward to the engine and never touch the loader.
- `runMacro`, `installMacro`, `installTool` (src/imjoyAPI.js:55-81): they forward to the engine and only ever hide the loader.
- The engine itself (`openImage`, `saveImage`, `getImageData`, `imagej.run`) is a sink of recorded calls whose results are parameters. What ImageJ does with the option string is not modelled; `ParseDims` is this model's own reader.
- `new Uint8Array(img._rvalue)`: the bytes are modelled as already being bytes.
- Interleaving of overlapping calls: each method runs to completion, so the race on the shared loader is not modelled.
- JavaScript's loose values: shape entries are integers (no fractions, strings or NaN), and a name is a string or absent (other falsy names such as `null`, `0` or `false` also fall back to "tmp" in the source).
- When `options` is absent the source builds a fresh object that nobody else sees; the model only records the write into a caller's object.
- The loader's display before the first operation is whatever the page set; the constructor takes it as a parameter.
- `getImage` takes no format argument and always returns the "ndarray" record (src/imjoyAPI.js:142-155); the service has no `getDimensions` or `selectWindow`.
- The byte length is never checked against the shape and dtype; `DeriveIgnoresBytes` states that the outcome does not depend on the bytes.
- FormatLabel: `formats[img._rdtype]` is a property lookup on an ordinary object, so a tag naming an inherited member ("constructor", "toString", "valueOf", "hasOwnProperty", "__proto__") yields that member rather than `undefined`; the model gives `None` for every tag outside the five, and `ExampleUnknownDtype` holds only for such non-inherited tags.
- Decimal.IntToString: shape entries are JavaScript doubles, so integers of 1e21 and above are written in exponent form and integers above 2^53 are not exact; the model writes every digit of an unbounded integer, so `IntRoundTrip`, `DimsRoundTrip` and `IssuedGeometry` describe the source only for entries below those magnitudes.
- Staging with `cheerpjAddStringFile` (src/imjoyAPI.js:98) is a map update that always succeeds; in the source it could throw, in which case the loader is hidden and the error rethrown with no "Raw..." call.
