# UI Vision Coder: the upload → generate → display workflow

This is a Dafny model of the logic inside a single-page React UI. The user uploads
a screenshot of a user interface, picks one of three output formats, and gets a code
snippet back, which they can copy or download. In the current implementation,
generation is simulated: after a delay, the page returns a fixed body for the selected
format.

The model follows the three source files:

- `IndexPage` (`src/pages/Index.tsx`) is the page that owns the shared state.
  - The class `Workflow` holds the page's four state hooks (`uploadedImage`,
    `generatedCode`, `isGenerating`, `selectedFramework`) and a log of the toasts it
    raised.
  - `handleImageUpload` becomes `Upload`. `setSelectedFramework` becomes `SetFramework`.
  - `handleGenerateCode` is split at its `await` into two methods. `StartGenerate` runs
    the guard, sets the flag and returns a `Generation` that holds the format captured
    at that moment. `CompleteGenerate(g, success)` runs the `try`/`catch`/`finally` tail.
  - `getMockCode` becomes `MockCode`. Its three bodies are kept verbatim, line by line.
  - The `includes('react')` language rule becomes `LanguageOf`.
- `ImageUpload` (`src/components/ImageUpload.tsx`) is the upload panel.
  - The class `UploadPanel` holds `isDragOver` and `imagePreview`. Its `controller`
    field is the page whose handlers its callback props are.
  - It models the drag handlers, the first-file rule of drop and file input, and the
    `image/` MIME filter.
  - The reader's `onload` becomes `OnLoad`, which receives the decoded string.
  - The button's `disabled` rule is `GenerateDisabled`. The selector's three ids are
    `FrameworkIds`.
- `CodeDisplay` (`src/components/CodeDisplay.tsx`) is the code panel.
  - `SelectView` chooses among the three views by precedence.
  - `Extension` and `DownloadOf` give the download's extension, name and content.
  - The class `CodePanel` holds the `copied` flag. `HandleCopy` takes the clipboard's
    outcome as a boolean. The 2-second timer becomes a separate `ResetCopied` call.
- `Js` covers the JavaScript semantics the handlers rely on: `string | null` and its
  truthiness, `startsWith`, `endsWith`, `includes`, and a multi-line template literal.
- `Toasts` defines the notifications, each with its title, description and variant.
- `Scenarios` puts the page together and runs sessions of user events. Their
  postconditions say what the user sees at the end.

The object invariants are these:

- `Workflow.Valid`: non-empty code, a running generation and the in-progress flag all
  imply that the image is not `null` (it may still be the falsy empty string, when a
  decode yielding `""` lands during a generation), and any code is the output of
  `getMockCode`.
- `UploadPanel.Valid`: the preview equals the page's image.
- `CodePanel.Valid`: `copied` is only true while a reset is still due.

Ghost counters connect each asynchronous start to its completion:
`Workflow.inFlight`, `UploadPanel.pendingReads` and `CodePanel.pendingResets`. A
completion, an `onload` or a reset can only follow a matching start.

JavaScript truthiness is modelled exactly. `!uploadedImage`, `!imagePreview` and
`!code` treat the empty string like `null`. So an upload whose data URL is empty
counts as no image (`Scenarios.EmptyDataUrlSession`).

Behaviour of the code that is easy to miss:

- A failed generation leaves the code as it was, so code from an earlier success
  survives and stays shown (`Scenarios.FailureKeepsEarlierCode`).
- An upload leaves the in-progress flag as it is. An upload during a generation keeps
  the loading view, and the pending completion then writes its code next to the new
  image. Completions are not tagged with the image they started from, so the last
  writer wins (`Scenarios.StaleCompletion`).
- The generate handler itself never looks at the in-progress flag. Only the disabled
  button prevents a second start, and `UploadPanel.ClickGenerate` models that. For the
  same reason, the "No image uploaded" toast cannot be raised through the button.
- The language tag follows the format selected now, not the format the code was
  generated for. Changing the format during a generation shows the Tailwind page
  tagged `jsx`, and it downloads as `.jsx` (`Scenarios.FormatChangeDuringGeneration`).

## Model

| member | source | states |
|---|---|---|
| IndexPage.Workflow.constructor | src/pages/Index.tsx:7-10 | Initially there is no image, the code is empty, nothing is generating, the format is `html-tailwind` and no toast has been raised. |
| IndexPage.Workflow.Upload | src/pages/Index.tsx:12-15 | The image becomes exactly the given data URL and the code becomes empty. The in-progress flag, the format and the toasts are unchanged. The invariant is kept. |
| IndexPage.Workflow.StartGenerate | src/pages/Index.tsx:17-27 | A generation starts exactly when the image is truthy. If it is not, only one destructive "No image uploaded" toast is added. If it is, the flag is set and the returned generation holds the format selected at the start. Image, code and format are unchanged either way. |
| IndexPage.Workflow.CompleteGenerate | src/pages/Index.tsx:29-50 | On success, the code becomes `MockCode` of the format captured at the start and the success toast is added. On failure, the code is unchanged and the destructive "Generation failed" toast is added. Either way the flag is cleared, and the image and format are unchanged. |
| IndexPage.Workflow.SetFramework | src/pages/Index.tsx:197 | Only the selected format changes. It becomes exactly the given string. |
| IndexPage.MockCode | src/pages/Index.tsx:53-161 | The body `getMockCode` returns for any format string is never empty. |
| IndexPage.MockCodePlaceholder | src/pages/Index.tsx:53-160 | The placeholder comment comes back exactly for the strings other than `html-tailwind`, `react-tailwind` and `html-css`. |
| IndexPage.MockCodeContents | src/pages/Index.tsx:56-156 | The `html-tailwind` body contains the page title and the Tailwind CDN script tag. The `react-tailwind` body ends with `export default GeneratedComponent;`. The `html-css` body contains the title, a `<style>` block and a `.card` rule. |
| IndexPage.TailwindPageContents | src/pages/Index.tsx:56-75 | The Tailwind page's text contains its title tag and its CDN script tag. |
| IndexPage.ComponentModuleEnding | src/pages/Index.tsx:78-96 | The component module's text ends with its default export. |
| IndexPage.StyledPageContents | src/pages/Index.tsx:99-156 | The style-sheet page's text contains its title tag, the opening `<style>` tag and the `.card` rule. |
| IndexPage.LanguageOf | src/pages/Index.tsx:213 | The tag is `jsx` if and only if the format string contains `react`. Otherwise it is `html`. |
| IndexPage.Workflow.Language | src/pages/Index.tsx:213 | The `language` prop the page passes down is `jsx` if and only if the format selected now contains `react`, and `html` otherwise. |
| IndexPage.KnownLanguages | src/pages/Index.tsx:213 | Of the three known formats, `react-tailwind` is tagged `jsx`, and `html-tailwind` and `html-css` are tagged `html`. |
| ImageUpload.FirstFile | src/components/ImageUpload.tsx:40-43 | A drop yields no file if and only if the list is empty. Otherwise it yields the first file. |
| ImageUpload.PickedFile | src/components/ImageUpload.tsx:46-51 | The picker yields no file if and only if the list is absent or empty. Otherwise it yields the first file. |
| ImageUpload.FileToDecode | src/components/ImageUpload.tsx:53-56 | A file is decoded if and only if it is present and its type starts with `image/`. A decoded file is the handled file itself. |
| ImageUpload.GenerateDisabled | src/components/ImageUpload.tsx:148 | The button is enabled if and only if there is a non-empty preview and no generation is running. |
| ImageUpload.IsImageFile | src/components/ImageUpload.tsx:54 | A file passes the filter if and only if its MIME type is `image/` followed by some subtype. |
| ImageUpload.FrameworkIdsAreTheMockedOnes | src/components/ImageUpload.tsx:139-141 | The selector offers three distinct ids, and they are exactly the formats `getMockCode` has bodies for. |
| ImageUpload.FrameworkIdsHaveBodies | src/components/ImageUpload.tsx:139-141 | No id the selector offers maps to the placeholder. |
| ImageUpload.OfferedIdHasBody | src/components/ImageUpload.tsx:139-141 | The id at each position of the selector maps to a real body. |
| ImageUpload.UploadPanel.constructor | src/components/ImageUpload.tsx:22-23 | Initially the panel is not highlighted, has no preview and has no pending read. |
| ImageUpload.UploadPanel.HandleDragOver | src/components/ImageUpload.tsx:26-29 | Dragging over the zone sets `isDragOver`. |
| ImageUpload.UploadPanel.HandleDragLeave | src/components/ImageUpload.tsx:31-34 | Leaving the zone clears `isDragOver`. |
| ImageUpload.UploadPanel.HandleDrop | src/components/ImageUpload.tsx:36-44 | A drop clears `isDragOver`. It starts a decode only of the first dropped file, and only if that file is an image. Nothing else changes. |
| ImageUpload.UploadPanel.HandleFileInput | src/components/ImageUpload.tsx:46-51 | The picker starts a decode only of its first file, and only if the list is present and non-empty and the file is an image. |
| ImageUpload.UploadPanel.HandleFile | src/components/ImageUpload.tsx:53-65 | A decode starts if and only if the file's type starts with `image/`. Neither the preview nor the page changes. |
| ImageUpload.UploadPanel.GenerateEnabled | src/components/ImageUpload.tsx:148 | The panel's button can be clicked if and only if its preview is a non-empty string and the page is not generating; then the page holds a non-empty image. |
| ImageUpload.UploadPanel.OnLoad | src/components/ImageUpload.tsx:59-63 | The preview becomes the decoded string, and the page receives the same string as its new image, with its code cleared. Nothing else on the page changes. |
| ImageUpload.UploadPanel.ClickGenerate | src/components/ImageUpload.tsx:146-148 | A click starts a generation if and only if the button was enabled, capturing the format selected then. A click on a disabled button changes nothing. No toast is raised either way. |
| ImageUpload.UploadPanel.SelectFramework | src/components/ImageUpload.tsx:134-141 | Choosing one of the offered ids only changes the page's selected format. |
| CodeDisplay.SelectView | src/components/CodeDisplay.tsx:55-87 | The view is loading exactly while generating, whatever the code. Otherwise it is empty exactly when the code is empty, and the code view when the code is non-empty. |
| Scenarios.PageView | src/pages/Index.tsx:210-212 | The code panel fed from the page shows loading exactly while the page generates and the empty view exactly when it is idle with empty code; when it shows code, that code is a `getMockCode` body and the page holds an image. |
| CodeDisplay.Extension | src/components/CodeDisplay.tsx:37 | The extension is `jsx` if and only if the tag is `jsx`. Otherwise it is `html`. |
| CodeDisplay.DownloadOf | src/components/CodeDisplay.tsx:36-40 | The file holds exactly the code, as `text/plain`. Its name is `generated-ui.` followed by the extension. |
| CodeDisplay.DownloadNames | src/components/CodeDisplay.tsx:37-38 | The file is named `generated-ui.jsx` for the `jsx` tag and `generated-ui.html` for any other tag. |
| CodeDisplay.DownloadNameSuffix | src/components/CodeDisplay.tsx:37-38 | The name ends in `.jsx` if and only if the tag is `jsx`, and in `.html` if and only if it is not. |
| CodeDisplay.CodePanel.constructor | src/components/CodeDisplay.tsx:16 | Initially `copied` is false and no toast has been raised. |
| CodeDisplay.CodePanel.HandleCopy | src/components/CodeDisplay.tsx:18-34 | On success, the clipboard holds exactly the code, `copied` becomes true, a reset is scheduled and a success toast is added. On failure, nothing is written, `copied` is unchanged and a destructive toast is added. |
| CodeDisplay.CodePanel.ResetCopied | src/components/CodeDisplay.tsx:26 | The timer that fires after a successful copy sets `copied` back to false. |
| CodeDisplay.CodePanel.HandleDownload | src/components/CodeDisplay.tsx:36-53 | The saved file is `DownloadOf` of the code and the tag. A toast naming the file is added. |
| Scenarios.MountAndUpload | src/components/ImageUpload.tsx:36-63 | Dropping an image on a fresh page and decoding it gives the page that image, with empty code, no generation and the default format. |
| Scenarios.ComponentFormatSession | src/pages/Index.tsx:17-50 | Upload, then select `react-tailwind`, then generate. The code view shows the component body, which ends with its default export. The tag is `jsx` and the download is named `generated-ui.jsx`. |
| Scenarios.GenerateWithoutImage | src/pages/Index.tsx:18-25 | Without an image, the button is disabled. The handler refuses with exactly one destructive toast, and the panel stays empty. |
| Scenarios.EmptyDataUrlSession | src/pages/Index.tsx:18 | An empty data URL is stored as the image but counts as no image. The button stays disabled and the handler refuses with a toast. |
| Scenarios.WhileGenerating | src/components/ImageUpload.tsx:146-148 | While a generation runs, the panel shows the loading view and the button is disabled, so a second click starts nothing. |
| Scenarios.StaleCompletion | src/pages/Index.tsx:31-35 | A generation that completes after a newer upload still writes its code, which is then shown next to the newer image. The last writer wins. |
| Scenarios.FormatChangeDuringGeneration | src/pages/Index.tsx:34 | The completion uses the format captured at the click. The tag follows the current format, so the Tailwind body is tagged `jsx` and downloads as `generated-ui.jsx`. |
| Scenarios.FailedGeneration | src/pages/Index.tsx:41-50 | A failure keeps the image and the empty code and raises one destructive toast. The empty view returns and the button is enabled again. |
| Scenarios.FailureKeepsEarlierCode | src/pages/Index.tsx:41-50 | A failure after an earlier success leaves the earlier code shown. |
| Scenarios.RepeatedGeneration | src/pages/Index.tsx:34-35 | For each of the three offered formats, two generations in a row for the same image and that format produce identical code, the format's `MockCode` body. |
| Scenarios.NonImageDrop | src/components/ImageUpload.tsx:53-56 | Dropping a non-image file, even with an image after it in the list, starts no decode. There is no preview, no image and no toast. |
| Scenarios.CopySession | src/components/CodeDisplay.tsx:18-34 | A successful copy writes the code and shows `copied` until the reset. A later failed copy writes nothing and leaves `copied` false. The toasts are success, then failure. |
| Scenarios.DecodeReadiesPanels | src/components/ImageUpload.tsx:59-63 | From any page state with no generation running, a decoded non-empty image brings the code panel to its empty view and enables Generate. |
| Scenarios.DownloadIsJsxIffReact | src/components/CodeDisplay.tsx:37 | End to end, the download ends in `.jsx` if and only if the selected format string contains `react`. |
| Scenarios.OnlyComponentFormatDownloadsJsx | src/components/CodeDisplay.tsx:37 | Of the three offered ids, only `react-tailwind` downloads as `.jsx`. |

## Left out

- JSX markup, CSS classes, icons, the card, button and select components, and the header text: these are presentational.
- Decoding itself (`FileReader.readAsDataURL`): this is browser I/O. The model takes the decoded string as the argument of `UploadPanel.OnLoad`. The model assumes `result` is a string; a `null` or `ArrayBuffer` result is not modelled.
- The `e.preventDefault()` calls of `handleDragOver`, `handleDragLeave` and `handleDrop`: they only stop the browser's default drag handling, which is browser I/O.
- `handleClick`, which opens the file picker through the hidden input: this is browser I/O. What the picker returns is the file-list argument of `HandleFileInput`.
- The `Blob`, `URL.createObjectURL`/`revokeObjectURL` and anchor-click plumbing: this is browser I/O. Only the file that would be saved (`DownloadOf`) is modelled.
- `navigator.clipboard.writeText`: this is host I/O. Its outcome is the `clipboardAccepts` parameter.
- The 2000 ms delays of `setTimeout`: this is timing. Generation completion and the `copied` reset are later method calls (`CompleteGenerate`, `ResetCopied`), not time.
- The rejection of the simulated delay: the mocked promise never rejects. Failure is the `success` parameter of `CompleteGenerate`.
- The syntax highlighter, the toast library's rendering and dismissal, and `console.error`: these are foreign libraries. A toast is an entry in the raising component's log. The two components keep separate logs, so the relative order of toasts raised by different components is not modelled.
- React's re-rendering and its stale closures beyond the captured format: each handler is an atomic step on the current state, and the generate closure's view of the format is the `Generation` it returns.
- Concurrency: the app is single-threaded and event-driven, and each handler is one atomic method call.
