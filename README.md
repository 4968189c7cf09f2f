# VIN label printing: a verified model

This project models the logic beneath a point-of-sale label printer. An
operator types or scans a 17-character vehicle identification number (VIN).
The app checks it against a fixed list of authorized VINs and masks it to
`*` + last eight characters + `*`. It draws that text on a 384-pixel-wide
thermal-label canvas using the operator's typography settings. It then hands
the encoded image to the RawBT print-intent handler through a `rawbt:` URL,
once per copy.

Modules, one per part of the program:

- `VinEntry` (App.tsx, pure part): the keystroke filter `[^a-zA-Z0-9]` →
  removed, then upper-case; and the mask `processedVin`.
- `Constants` (constants.ts): the `AUTHORIZED_VINS` list, the scanner stub's
  VIN, and facts about the list.
- `Settings` (types.ts, App.tsx): the `PrintSettings` record,
  `DEFAULT_SETTINGS`, the settings store and the single-field edits. The
  store (browser storage) is a map from keys to records.
- `Canvas`: the HTML canvas and 2D context as `generatePrintImage` uses
  them. It has a size, a drawing state, a `save`/`restore` stack and the
  list of drawing commands issued. Resizing clears the bitmap and resets the
  context state, as HTML canvases do. The current transform is a rotation by
  whole quarter turns followed by a translation.
- `PrintService` (services/printService.ts): `generatePrintImage` as a
  method that creates and draws on a `Canvas`, proved against the layout
  function `LabelImage`; `sendToRawBT` as a loop that appends `Handoff(url)`
  and `Wait(1200)` events to the host's trace, proved against
  `DispatchEvents`; and the payload extraction `split(',')[1]`.
- `App` (App.tsx, stateful part): a class holding `vinInput`, `isPrinting`,
  `settings` and the store, with the edit handlers, `saveSettings`, the
  factory reset and `handlePrint`.

Three behaviours of the code worth knowing:

- With more than one copy, the code waits 1200 ms after every hand-off,
  including the last. So three copies give three waits, not two
  (`PrintService.DispatchShape`).
- The code never checks for an empty image before dispatching. Without a
  drawing context, the renderer returns `""`, and every hand-off goes to
  `rawbt:undefined` (`App.NoContextJobUrl`).
- An edit whose filtered text is longer than 17 characters is not cut
  down. The field keeps its previous value instead
  (`App.App.HandleInputChange`).

Host behaviour the code cannot see becomes parameters:

- whether `getContext('2d')` succeeds (`hasContext`);
- the PNG/base64 encoding `toDataURL` (`encode`, any function of the bitmap);
- the hand-off, if any, at which `window.location.href` throws (`rejectAt`).

## Model

| member | source | states |
|---|---|---|
| `VinEntry.StripNonAlnum` | App.tsx:59 | the regex replace keeps only ASCII letters and digits and never lengthens the string; the empty string stays empty; a one-character string is kept exactly when its character is an ASCII letter or digit, and otherwise becomes empty |
| `VinEntry.StripAppend` | App.tsx:59 | the regex replace works character by character: stripping a concatenation is concatenating the stripped parts, so what is kept stays in order |
| `VinEntry.UpperCase` | App.tsx:59 | `toUpperCase` keeps the length; each `a`-`z` becomes the letter 32 code points lower (`A`-`Z`), every other character is unchanged |
| `VinEntry.Filter` | App.tsx:59 | the filtered edit contains only `[A-Z0-9]` and is no longer than the raw input |
| `VinEntry.FilterAppend` | App.tsx:59 | filtering works character by character: the filter of a concatenation is the concatenation of the filters, so relative order is kept |
| `VinEntry.FilterChar` | App.tsx:59 | `[A-Z0-9]` is kept, a lower-case ASCII letter becomes its upper-case form, any other character is dropped |
| `VinEntry.FilterKeepsVinText` | App.tsx:59 | a string already made of `[A-Z0-9]` passes the filter unchanged |
| `VinEntry.FilterIdempotent` | App.tsx:59 | filtering twice equals filtering once |
| `VinEntry.Mask` | App.tsx:38-43 | with at least 8 characters: 10 characters, `*` at both ends, the last 8 input characters in between; otherwise exactly eight `*` |
| `Constants.EntriesHaveVinLength` | constants.ts:7-18 | the list has 10 entries, each exactly 17 characters long |
| `Constants.EntriesAreVinText` | constants.ts:8-17 | every entry is `[A-Z0-9]` only, so the keystroke filter leaves it unchanged |
| `Constants.EntriesAreDistinct` | constants.ts:8-17 | no two entries are equal |
| `Constants.ScannerStubIsListed` | components/ScannerOverlay.tsx:43 | the simulated scan's VIN is the first list entry |
| `App.IsCorrectLength` | App.tsx:34 | definition: the input has exactly 17 characters; see `App.AuthorizedIsCorrectLength` |
| `App.IsAuthorized` | App.tsx:35 | definition: the input equals one of the listed VINs; see `App.CanPrintIff` |
| `App.CanPrint` | App.tsx:36 | definition: the conjunction of the two tests above; `App.CanPrintIff` shows the length test is implied by the list test |
| `App.CanPrintIff` | App.tsx:34-36 | `canPrint` holds exactly when the input is one of the listed VINs, so the length test never changes the outcome |
| `App.AuthorizedIsCorrectLength` | App.tsx:34-36 | a listed VIN is 17 characters of `[A-Z0-9]`, so membership alone decides `canPrint` |
| `App.PrintableMask` | App.tsx:34-43 | whenever printing is allowed the label text is the 10-character form `*` + characters 9..16 + `*` |
| `App.ScannerStubPrintable` | App.tsx:287 | after a simulated scan `canPrint` holds and the label text is `*3A004352*` |
| `App.PrintJobHandoffs` | App.tsx:45-56 | a job the host accepts hands off `max(copies, 0)` times, waits `copies` times when `copies > 1` and never otherwise, raises no alert; one copy is exactly one hand-off |
| `App.RejectedJobAlerts` | App.tsx:48-53 | when the host throws at hand-off `k` the job has handed off `k` copies and ends with the error alert |
| `App.NoContextJobUrl` | App.tsx:49-50 | the empty image of a failed render is dispatched anyway, every hand-off to `rawbt:undefined` |
| `App.JobEvents` | App.tsx:48-53 | definition: the trace of a job the guard lets through, namely the dispatch of the rendered masked VIN up to the first rejected hand-off, then the error alert if the host threw; its properties are stated by `App.PrintJobHandoffs`, `App.RejectedJobAlerts` and `App.NoContextJobUrl` |
| `App.App.constructor` | App.tsx:20-27 | empty VIN, not printing, settings = stored record or defaults, memory and store in step |
| `App.App.SaveSettings` | App.tsx:29-32 | memory holds the new record, the store holds it under the settings key, and loading the store gives it back |
| `App.App.SelectOrientation` | App.tsx:113 | only the orientation changes; the result is saved and in step with the store |
| `App.App.MoveSlider` | App.tsx:139 | only the slider's field changes; the result is saved and in step with the store |
| `App.App.RestoreFactoryDefaults` | App.tsx:147 | memory and store both hold `DEFAULT_SETTINGS` |
| `App.App.HandleInputChange` | App.tsx:58-61 | the field becomes the filtered edit if it has at most 17 characters, otherwise keeps its old value; a well-formed field stays well formed |
| `App.App.PickFromList` | App.tsx:167 | the field gets the chosen entry, which is well formed and printable |
| `App.App.OnScan` | App.tsx:287 | the field takes the scanned value unfiltered; it is well formed exactly when the value is |
| `App.App.HandlePrint` | App.tsx:45-56 | with `canPrint` false nothing changes and nothing is sent; otherwise the flag is up while rendering and dispatching, down afterwards whether or not the host threw, and the host sees exactly the job's events |
| `Settings.LoadSettings` | App.tsx:24-27 | definition: the stored record under `furlong_print_settings`, or `DEFAULT_SETTINGS` when the key is absent; see `Settings.LoadAfterStore` and `Settings.LoadFromEmptyStore` |
| `Settings.StoreSettings` | App.tsx:31 | `setItem` adds the settings key and leaves every other key as it was |
| `Settings.LoadAfterStore` | App.tsx:24-32 | loading after a save gives back exactly the saved record |
| `Settings.LoadFromEmptyStore` | App.tsx:8-27 | with nothing stored, loading gives fontSize 52, letterSpacing 3, horizontal, margin 15, offset 0, height 80 |
| `Settings.WithSlider` | App.tsx:139 | the named field takes the value; the other five fields are unchanged |
| `Settings.WithOrientation` | App.tsx:113 | the orientation takes the value; the other five fields are unchanged |
| `Settings.DefaultsWithinSliderRanges` | App.tsx:123-127 | the defaults lie within every slider's `min`..`max` |
| `Settings.EditsKeepSliderRanges` | App.tsx:123-139 | slider values within range and orientation edits keep every slider field within its range |
| `Canvas.TurnCompose` | services/printService.ts:52 | quarter-turn rotations compose by adding their turn counts |
| `Canvas.ApplyTranslated` | services/printService.ts:51 | after `translate(x, y)` a point maps where the point shifted by `(x, y)` mapped before |
| `Canvas.ApplyRotated` | services/printService.ts:52 | after a quarter-turn rotation a point maps where the turned point mapped before |
| `Canvas.Canvas.constructor` | services/printService.ts:9-11 | a new canvas is 300 by 150, empty, in the default drawing state with nothing saved; `hasContext` records whether `getContext('2d')` succeeds |
| `Canvas.Canvas.SetWidth` | services/printService.ts:17-21 | assigning the width sets it, keeps the height, clears the painted commands and resets the drawing state and the save stack |
| `Canvas.Canvas.SetHeight` | services/printService.ts:18-22 | assigning the height sets it, keeps the width, clears the painted commands and resets the drawing state and the save stack |
| `Canvas.Canvas.SetFillStyle` | services/printService.ts:26-34 | only the fill colour of the drawing state changes |
| `Canvas.Canvas.SetTextAlign` | services/printService.ts:35 | only the text alignment of the drawing state changes |
| `Canvas.Canvas.SetTextBaseline` | services/printService.ts:36 | only the text baseline of the drawing state changes |
| `Canvas.Canvas.SetFont` | services/printService.ts:43 | only the font size of the drawing state changes |
| `Canvas.Canvas.FillRect` | services/printService.ts:27 | one rectangle command is appended, painted in the current fill colour under the current matrix |
| `Canvas.Canvas.FillText` | services/printService.ts:47-53 | one text command is appended, carrying the whole current drawing state |
| `Canvas.Canvas.Save` | services/printService.ts:50 | `save` pushes the current drawing state and changes nothing else |
| `Canvas.Canvas.Translate` | services/printService.ts:51 | only the current matrix changes, to the old one followed by the shift (see `Canvas.ApplyTranslated`) |
| `Canvas.Canvas.RotateQuarterTurns` | services/printService.ts:52 | only the current matrix changes, to the old one followed by the rotation (see `Canvas.ApplyRotated`) |
| `Canvas.Canvas.Restore` | services/printService.ts:54 | `restore` pops the last saved state and makes it current; with nothing saved it changes nothing |
| `PrintService.PadLength` | services/printService.ts:30 | never negative; for margin ≥ 0 it is `floor(margin / 5)`; below 5 it is 0 |
| `PrintService.Spaces` | services/printService.ts:30 | `" ".repeat(n)` has length `n` and every character is a space |
| `PrintService.PaddedText` | services/printService.ts:30-31 | length is that of the text plus `2·pad`; the text occurs unchanged at index `pad`; the first and last `pad` characters are spaces |
| `PrintService.CanvasHeight` | services/printService.ts:16-23 | definition: `canvasHeight` for horizontal, 400 for vertical; see `PrintService.LabelLayout` |
| `PrintService.LabelImage` | services/printService.ts:13-54 | definition of the bitmap the renderer leaves on the canvas; its layout is stated by `PrintService.LabelLayout` |
| `PrintService.LabelLayout` | services/printService.ts:13-54 | width 384; height `canvasHeight` (horizontal) or 400 (vertical); a white rectangle `(0, 0, width, height)` is painted first; then the padded text in black, centred, middle baseline, at the font size; anchored at `(width/2, height/2 + offset)` with no rotation (horizontal), or turned one quarter turn and anchored at `(width/2 − offset, height/2)` on the bitmap (vertical) |
| `PrintService.DrawRotated` | services/printService.ts:50-54 | the save/translate/rotate/draw/restore sequence leaves the drawing state, the current transform and the save stack exactly as on entry, and paints one text command at `(0, offset)` under translate-to-centre then a quarter turn |
| `PrintService.GeneratePrintImage` | services/printService.ts:7-59 | the result is `RenderedImage` of the inputs (empty without a context, the encoding of `LabelImage` with one), so equal inputs give equal images; without a context nothing is drawn; with one the canvas holds exactly `LabelImage(text, settings)` and no transform or saved state is left |
| `PrintService.SplitOnComma` | services/printService.ts:62 | at least one field, and no field contains a comma |
| `PrintService.JoinSplit` | services/printService.ts:62 | joining the fields with commas gives back the original string |
| `PrintService.SplitJoin` | services/printService.ts:62 | splitting a comma-join of comma-free fields gives back the fields |
| `PrintService.Payload` | services/printService.ts:62 | the extracted payload never contains a comma |
| `PrintService.RawBtUrl` | services/printService.ts:65 | every URL starts with `rawbt:` and contains no comma |
| `PrintService.DataUrlPayload` | services/printService.ts:62-65 | for a data URL `header,data` the payload is `data` and the URL is `rawbt:` + `data` |
| `PrintService.CommaFreeImageUrl` | services/printService.ts:62-65 | an image without a comma, the empty string included, gives the URL `rawbt:undefined` |
| `PrintService.SendToRawBT` | services/printService.ts:61-72 | the host's trace grows by exactly the events of the iterations before the first rejected hand-off (all `max(copies, 0)` of them if none is rejected), and the result says whether and where the host threw |
| `PrintService.Host.Navigate` | services/printService.ts:66 | the assignment succeeds exactly when the host accepts it, and only then is one hand-off recorded |
| `PrintService.Host.Sleep` | services/printService.ts:69 | one wait of the given length is recorded |
| `PrintService.Host.ShowAlert` | App.tsx:52 | one alert with the given message is recorded |
| `PrintService.DispatchEvents` | services/printService.ts:64-71 | definition: the events of the first `n` loop iterations, each iteration a hand-off followed by a 1200 ms wait when `copies > 1`; `PrintService.SendToRawBT` is proved against it and `PrintService.DispatchShape` and `PrintService.DispatchCounts` state its properties |
| `PrintService.DispatchShape` | services/printService.ts:64-71 | with `copies > 1` the events alternate hand-off and 1200 ms wait, ending on a wait; with one copy they are hand-offs only |
| `PrintService.DispatchCounts` | services/printService.ts:64-71 | `n` iterations give `n` hand-offs, all to the same URL, and `n` waits when `copies > 1`, none otherwise |

## Left out

- JSX layout, CSS classes, the list and settings panel toggles, the `isScanning` overlay flag, the loading overlay and the preview's display-only scaled styles (App.tsx:63-305): user interface.
- Pixel rasterisation, the font family, and the `'letterSpacing' in ctx` check and the letter-spacing assignment (services/printService.ts:38-43): browser canvas internals. The model keeps the font size and the colours, alignment and baseline of the text.
- `toDataURL` (services/printService.ts:57): PNG and base64 encoding are an arbitrary function `encode` of the painted bitmap.
- `window.location.href` navigation, `setTimeout` timing and `alert`: these appear only as `Handoff`, `Wait` and `Alert` events on the host's trace. Promise and async scheduling are not modelled.
- `localStorage`, `JSON.parse` and `JSON.stringify`: the store is a map of records. Malformed stored data and a stored empty string (which the code treats as absent) are not modelled.
- `sendToRawBT`'s default argument `copies = 1` (services/printService.ts:61): both callers pass a count (`handlePrint(1)` and `handlePrint(6)`, App.tsx:257 and 268), so `copies` is a required parameter.
- JavaScript numbers: settings fields and `copies` are unbounded integers. Fractional or NaN copy counts, and the unsigned conversion of `canvas.height`, are not modelled.
- String encoding: JavaScript strings count UTF-16 code units and Dafny strings count characters. The two differ only for non-ASCII text. The filter drops such text, and the two paths that bypass the filter set only ASCII values: the list panel the `[A-Z0-9]` entries (`Constants.EntriesAreVinText`) and the scanner its stub VIN, which is the first entry (`Constants.ScannerStubIsListed`). So the length test counts the same in both languages. `toUpperCase` is modelled on ASCII only, the only input the filter gives it.
- `ctx.rotate(Math.PI / 2)`: modelled as exactly one quarter turn. Floating-point rounding of π and of coordinates is not modelled; coordinates are real numbers.
- React state batching and render closures: `handlePrint` reads the current fields of the `App` object.
- components/ScannerOverlay.tsx (except its stub VIN), sw.js, `APP_THEME`, and the unused `VINData` and `AppScreen` types are not part of this model.
