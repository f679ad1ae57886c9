# Flower classification page: a verified model of its view logic

The page lets a user send an image, by file or by URL, to a flower classification
service. It lists the top-5 predicted classes. On a click it fetches a description
of one class and shows it as a nested table. This project models the page's logic
in Dafny:

- **Label lookup** (`labels.dfy`, module `Labels`): the Vietnamese label dictionary
  and the lookup `vietnameseLabels[k] || k`.
- **Metadata renderer** (`render.dfy`, module `Render`): `renderValue` handles values
  of any shape. An array becomes a list. A record becomes a labelled table. Any other
  value becomes text. A string that is an array element and begins with `http`
  becomes a link. The module also covers the detail table (`renderFlowerInfoTable`),
  the heading `flowerInfo.name?.commonName || "Flower Information"` and the rule
  that decides when the detail panel is open.
- **Result rows** (`results.dfy`, module `ResultPanel`): predictions whose
  two-decimal percentage is `"0.00"` are skipped. Each visible row keeps its index
  in the full list. That index picks its colour from a five-colour palette, with
  `bg-gray-100` as the fallback.
- **Session** (`app.dfy`, module `App`): a class `Session` holds the five pieces of
  state (`file`, `imageUrl`, `predictions`, `error`, `flowerInfo`). It has one method
  per handler and one for the Close button. Each request handler takes the
  service's reply as a parameter (`Ok(payload)` or `Fail`) and returns the request
  it sends, or `None` if it sends nothing. `View` is the screen for a state. The
  method `Walkthrough` walks the main path; its assertions are proved from the
  handlers' contracts.
- **Support modules**: `json.dfy` (module `JsonValue`) holds parsed JSON values and
  the JavaScript operations the page uses on them: truthiness, `Object.entries` and
  property lookup. `numerals.dfy` (module `Numerals`) holds the decimal text of
  integers, the `toFixed(2)` text of a percentage, and readers that undo both.

In these places the code differs from what the page seems to intend, and the model
follows the code:

- Only strings that are direct array elements become links. A URL stored directly
  under a record key, such as `sampleImageUrl`, is shown as plain text
  (`Render.KeyedUrlIsText`).
- A file upload with no file selected sets the error and leaves the prediction
  list as it was. It does not empty the list.
- Clicking a flower button needs no earlier prediction. The buttons exist only for
  predictions, but the handler itself checks nothing.
- The detail panel is open while `flowerInfo` is JavaScript-truthy, not merely
  non-null. A reply of `false`, `0` or `""` keeps the panel closed. For `0`, the
  expression `flowerInfo && (...)` yields `0`, and React shows the text `0` in the
  panel's place (`Render.ClosedPanelText`).
- "At most five rows" holds only because the service sends at most five
  predictions. The page does not cap the list itself (`ResultPanel.TopFiveColors`).

## Model

| member | source | states |
|---|---|---|
| `Labels.Label` | src/App.tsx:88-122 | a key in the dictionary gets its entry; any other key is returned unchanged; the label is empty only for the empty key |
| `Labels.LabelIdempotent` | src/App.tsx:152 | looking up a label again gives the same label, because no label is also a dictionary key |
| `JsonValue.FalsyValues` | src/App.tsx:255-259 | `Truthy`, the test behind the panel's `&&` and the heading's fallback, is false exactly for null, `false`, `0` and `""`; arrays and records, even empty ones, are truthy |
| `JsonValue.IndexKeysDistinct` | src/App.tsx:177-179 | the keys `Object.entries` gives an array or a string are pairwise distinct, so the detail rows' `key`s never clash |
| `JsonValue.Entries` | src/App.tsx:177 | `Object.entries`: a record's entries in order; an array's or a string's elements keyed by their decimal index; nothing for numbers and booleans |
| `JsonValue.Get` | src/App.tsx:259 | the lookup finds nothing exactly when no entry has the key; otherwise it returns the value of the first entry with that key |
| `Numerals.ParseIntToString` | src/App.tsx:164 | the text of an integer (`toString`) reads back as that integer, so number text is unambiguous |
| `Numerals.IntToStringInjective` | src/App.tsx:164 | different numbers never render to the same text |
| `Numerals.ParsePercentText` | src/App.tsx:229 | `PercentText`, the two-decimal percentage text (digits, a point, two digits), reads back as the percentage in hundredths |
| `Numerals.PercentTextZero` | src/App.tsx:229-231 | the percentage text is `"0.00"` exactly when the rounded percentage is zero |
| `Render.ScalarNode` | src/App.tsx:164 | null renders as nothing; a string as itself; a boolean as `true`/`false`; a number as its decimal text |
| `Render.RenderValue` | src/App.tsx:124-165 | an array becomes a list with one item per element, in order; a record becomes a table with one row per entry, in order, labelled by the lookup; any other value becomes its scalar text; the result is never a bare link |
| `Render.RenderItem` | src/App.tsx:128-141 | an array element becomes a link exactly when it is a string beginning with `http`, with that string as both href and text, a new browsing context and `noopener noreferrer`; otherwise it is rendered as a value |
| `Render.RenderItems` | src/App.tsx:128-143 | one list item per element, in order |
| `Render.RenderRows` | src/App.tsx:151-159 | one row per record entry, in order; row `i` is `RenderEntry` of entry `i`, whose title is the entry's label and whose cell is its rendered value |
| `Render.RenderLinks` | src/App.tsx:130-141 | the links of the rendered tree are exactly the `http` strings that are array elements, in document order; no other string, at any depth, becomes a link |
| `Render.RenderSize` | src/App.tsx:124-165 | the rendered tree has exactly one node per value node, at every depth: nothing is dropped or duplicated |
| `Render.KeyedUrlIsText` | src/App.tsx:147-164 | a URL stored directly under a record key is rendered as plain text, with no link |
| `Render.ListedUrlIsLink` | src/App.tsx:125-141 | the same URL inside an array under that key is rendered as a link |
| `Render.CommonName` | src/App.tsx:259 | `flowerInfo.name?.commonName` is present exactly when `flowerInfo` is a record whose `name` is a record holding `commonName`, and then it is that field's value |
| `Render.Heading` | src/App.tsx:259 | the heading is the common name when it is present and truthy, else `"Flower Information"`; it is never falsy |
| `Render.HeadingExamples` | src/App.tsx:259 | a non-empty common name is used; an empty one, a name that is not a record, or no name give the fallback |
| `Render.DetailRows` | src/App.tsx:177-183 | the detail table has one row per top-level entry of the record, in order, each with its label and the value rendered by `renderValue` |
| `Render.DetailRowsOfRecord` | src/App.tsx:167-189 | for a record, the detail table's rows equal the rows of the table `renderValue` builds for it |
| `Render.DetailView` | src/App.tsx:255-261 | the detail panel exists exactly when `flowerInfo` is truthy; the panel has the heading, the two column headers and the detail rows |
| `Render.ClosedPanelText` | src/App.tsx:255 | while the panel is closed, text stands in its place exactly when `flowerInfo` is the number 0, and the text is `0` |
| `ResultPanel.Color` | src/App.tsx:234-241 | index 0 to 4 gets the palette colour at that index; any larger index gets `bg-gray-100` |
| `ResultPanel.HiddenIffZero` | src/App.tsx:229-231 | `Hidden`, the comparison of the prediction's `PercentText` with `"0.00"`, holds exactly when its confidence rounds to zero hundredths of a percent |
| `ResultPanel.CaptionShowsPercent` | src/App.tsx:249 | `ResultRow.Caption` is the class name, `": "`, a two-decimal percentage that reads back as the prediction's hundredths, and `%` |
| `ResultPanel.RowsFrom` | src/App.tsx:228-252 | no more rows than predictions; each row's index lies in the list's range; indices strictly increase |
| `ResultPanel.RowsFromSound` | src/App.tsx:228-251 | each row shows a prediction that is not hidden, under that prediction's own position |
| `ResultPanel.RowsFromComplete` | src/App.tsx:228-251 | every prediction that is not hidden has a row at its own position |
| `ResultPanel.ResultRows` | src/App.tsx:228-252 | the rows appear in list order, at most one per prediction, each carrying an index into the full list |
| `ResultPanel.ResultRowsSound` | src/App.tsx:228-251 | every row is a prediction that is not hidden, together with its index in the full list, not its place among the visible rows; its colour (`ResultRow.Background`) is `Color` of that index, and the class it looks up (`ResultRow.ClassId`) is that prediction's `class_id` |
| `ResultPanel.ResultRowsComplete` | src/App.tsx:228-231 | every prediction that is not hidden has a row |
| `ResultPanel.TopFiveColors` | src/App.tsx:233-241 | with at most five predictions there are at most five rows, each in a palette colour, no two alike |
| `ResultPanel.RoseAndLily` | src/App.tsx:228-251 | a 92% rose and a 0% lily give one row, `Rose: 92.00%`, in `bg-green-200`, that looks up `r1` |
| `App.Session.constructor` | src/App.tsx:5-16 | no file, empty URL, no flower info, no predictions, no error |
| `App.Session.FileChange` | src/App.tsx:18-22 | the first picked file becomes `file`; an empty or missing file list leaves `file` as it was; nothing else changes |
| `App.Session.UrlChange` | src/App.tsx:24-26 | `imageUrl` becomes the field's value; nothing else changes |
| `App.Session.FileUpload` | src/App.tsx:28-47 | with no file: no request, error `Please select an image file.`, predictions kept; with a file: one request for that file, then on success the new predictions and an empty error, on failure the old predictions and `Failed to get predictions for file upload.`; `file`, `imageUrl` and `flowerInfo` never change |
| `App.Session.UrlSubmit` | src/App.tsx:49-67 | always sends the current URL, unvalidated; on success the new predictions and an empty error; on failure, including a response that is not ok, the old predictions and `Failed to get predictions for URL.`; only `predictions` and `error` change |
| `App.Session.FlowerButtonClick` | src/App.tsx:69-87 | sends a lookup for the given class; on success `flowerInfo` becomes the reply and the error is cleared; on failure `flowerInfo` is kept and the error is `Failed to get flower info.`; only `flowerInfo` and `error` change |
| `App.Session.Close` | src/App.tsx:262-264 | `flowerInfo` becomes null, which closes the panel; nothing else changes |
| `App.Session.View` | src/App.tsx:227-270 | the error line shows only a non-empty error, which in a valid session is one of the four messages; the result rows are those of the prediction list; the detail panel is `DetailView` of `flowerInfo` (open exactly while it is truthy, with its heading, headers and rows); a `flowerInfo` of 0 shows the text `0` instead |

Every `Session` method keeps `Valid()`: the error is always empty or one of the
four messages.

## Left out

- HTTP transport: axios, `fetch`, `FormData`, headers, JSON parsing and the local
  service addresses. A reply is an abstract `Ok(payload)` or `Fail`, and a handler
  reports the request it would send.
- `console.log` and `console.error`: they do not affect state.
- Floating-point confidences: a prediction carries its percentage already rounded
  to hundredths, which is what `toFixed(2)` shows. IEEE rounding is not modelled.
- Fractional JSON numbers: `Json.Num` holds an integer.
- Number width and exponent notation: a JavaScript number is a double. Integers
  beyond 2^53 are rounded when JSON is parsed, and `String(n)` writes magnitudes of
  10^21 or more in exponent form (`1e+21`). `Numerals.IntToString` writes every digit
  of any integer, so it matches JavaScript only below these bounds.
- Layout and Tailwind classes, except the palette and its fallback.
- Asynchronous interleaving: each handler is one atomic step. Overlapping requests,
  where the last reply wins, are not modelled.
- The text field's `onClick` also calls `handleUrlSubmit` (src/App.tsx:216). That is
  a second trigger of the same `UrlSubmit` step.
- JavaScript object details: prototype hits in the dictionary (a key such as
  `constructor`), the reordering of integer-like keys by `Object.entries`, and
  duplicate keys. Records are taken to have distinct keys in insertion order, and
  lookup returns the first match.
- A reply without `top5_predictions`: the predictions reply is taken to be a list.
- `JsonValue.Entries` on a string indexes Unicode code points. JavaScript indexes
  UTF-16 code units, so characters outside the Basic Multilingual Plane differ.
- `Render.Heading` returns the heading value, not React's rendering of it. React
  shows strings and numbers as text, shows nothing for `true`, and throws for a
  record.
