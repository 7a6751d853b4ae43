/** The page put together: its workflow state, the upload panel wired to the workflow's
    handlers, and the code panel fed from the workflow's state. The methods here are
    sessions of user events, each ending in what the user then sees. */
module Scenarios {
  import opened Js
  import opened Toasts
  import opened IndexPage
  import opened ImageUpload
  import opened CodeDisplay

  /** The view the code panel renders for the page's current state. */
  function PageView(page: Workflow): (view: View)
    reads page
    ensures view == Loading <==> page.isGenerating
    ensures view == Empty <==> !page.isGenerating && page.generatedCode == ""
    ensures page.Valid() && view == CodeView ==> page.uploadedImage.Some? && IsMockCode(page.generatedCode)
  {
    SelectView(page.generatedCode, page.isGenerating)
  }

  /** A freshly mounted page with its upload panel, after an image with the given data
      URL has been dropped and decoded. */
  method MountAndUpload(dataUrl: string) returns (page: Workflow, upload: UploadPanel)
    ensures fresh(page) && fresh(upload) && upload.Valid() && upload.controller == page
    ensures page.uploadedImage == Some(dataUrl) && page.generatedCode == "" && !page.isGenerating
    ensures page.selectedFramework == DefaultFramework && page.toasts == [] && page.inFlight == 0
    ensures upload.pendingReads == 0 && !upload.isDragOver
  {
    page := new Workflow();
    upload := new UploadPanel(page);
    upload.HandleDragOver();
    assert StartsWith("image/png", "image/");
    var reading := upload.HandleDrop([File("mockup.png", "image/png")]);
    upload.OnLoad(dataUrl);
  }

  /** Upload, pick the component format, generate: the panel shows the component body,
      tagged `jsx`, and it downloads as `generated-ui.jsx`. */
  method ComponentFormatSession(dataUrl: string) returns (view: View, code: string, language: string, filename: string)
    requires dataUrl != ""
    ensures view == CodeView && code == MockCode("react-tailwind")
    ensures EndsWith(code, "export default GeneratedComponent;")
    ensures language == "jsx" && filename == "generated-ui.jsx"
  {
    var page, upload := MountAndUpload(dataUrl);
    upload.SelectFramework("react-tailwind");
    var g := upload.ClickGenerate();
    page.CompleteGenerate(g.value, true);
    code := page.generatedCode;
    view := PageView(page);
    language := page.Language();
    KnownLanguages();
    MockCodeContents();
    var panel := new CodePanel();
    var file := panel.HandleDownload(code, language);
    DownloadNames(code, language);
    filename := file.filename;
  }

  /** The generate handler invoked with no image: one destructive toast and no other
      change; the code panel stays empty. Through the button this cannot happen, since
      the button is disabled without an image. */
  method GenerateWithoutImage() returns (enabled: bool, g: Option<Generation>, toasts: seq<Toast>, view: View)
    ensures !enabled && g.None?
    ensures toasts == [NoImage] && NoImage.variant == Destructive
    ensures view == Empty
  {
    var page := new Workflow();
    var upload := new UploadPanel(page);
    enabled := upload.GenerateEnabled();
    g := page.StartGenerate();
    toasts := page.toasts;
    view := PageView(page);
  }

  /** A decode that yields the empty string still replaces the image, but the page treats
      the empty string as no image: the button stays disabled and the handler refuses. */
  method EmptyDataUrlSession() returns (image: Option<string>, enabled: bool, g: Option<Generation>, toasts: seq<Toast>)
    ensures image == Some("") && !enabled
    ensures g.None? && toasts == [NoImage]
  {
    var page, upload := MountAndUpload("");
    image := page.uploadedImage;
    enabled := upload.GenerateEnabled();
    g := page.StartGenerate();
    toasts := page.toasts;
  }

  /** While a generation runs the button is disabled again and the panel shows the
      loading view; the generation started remembers the format selected at the click. */
  method WhileGenerating(dataUrl: string) returns (view: View, enabled: bool, second: Option<Generation>, first: Generation)
    requires dataUrl != ""
    ensures view == Loading && !enabled && second.None?
    ensures first == Generation(DefaultFramework)
  {
    var page, upload := MountAndUpload(dataUrl);
    var g := upload.ClickGenerate();
    first := g.value;
    view := PageView(page);
    enabled := upload.GenerateEnabled();
    second := upload.ClickGenerate();
  }

  /** No guard against stale completions: a generation started for one image and
      completed after a second image was uploaded still writes its code, so code that
      was generated from the first image is shown beside the second one. */
  method StaleCompletion(first: string, second: string) returns (image: Option<string>, code: string, view: View)
    requires first != ""
    ensures image == Some(second)
    ensures code == MockCode(DefaultFramework) && view == CodeView
  {
    var page, upload := MountAndUpload(first);
    var g := upload.ClickGenerate();
    var started := upload.HandleFile(File("second.png", "image/png"));
    upload.OnLoad(second);
    page.CompleteGenerate(g.value, true);
    image := page.uploadedImage;
    code := page.generatedCode;
    view := PageView(page);
  }

  /** A format change while a generation runs: the completion still uses the format
      captured at the click, while the language tag already follows the new format, so
      the Tailwind page is shown and downloaded as `jsx`. */
  method FormatChangeDuringGeneration(dataUrl: string) returns (code: string, language: string, filename: string)
    requires dataUrl != ""
    ensures code == MockCode("html-tailwind") && language == "jsx" && filename == "generated-ui.jsx"
  {
    var page, upload := MountAndUpload(dataUrl);
    var g := upload.ClickGenerate();
    upload.SelectFramework("react-tailwind");
    page.CompleteGenerate(g.value, true);
    code := page.generatedCode;
    language := page.Language();
    KnownLanguages();
    DownloadNames(code, language);
    filename := DownloadOf(code, language).filename;
  }

  /** A failed generation keeps the image and the (empty) code and raises a destructive
      toast; the panel is back to its empty view with the button enabled. */
  method FailedGeneration(dataUrl: string) returns (image: Option<string>, view: View, enabled: bool, toasts: seq<Toast>)
    requires dataUrl != ""
    ensures image == Some(dataUrl) && view == Empty && enabled
    ensures toasts == [GenerationFailed] && GenerationFailed.variant == Destructive
  {
    var page, upload := MountAndUpload(dataUrl);
    var g := upload.ClickGenerate();
    page.CompleteGenerate(g.value, false);
    image := page.uploadedImage;
    view := PageView(page);
    enabled := upload.GenerateEnabled();
    toasts := page.toasts;
  }

  /** A generation never clears the code when it starts, so one that fails after an
      earlier success leaves the earlier code in place and shown. */
  method FailureKeepsEarlierCode(dataUrl: string) returns (code: string, view: View)
    requires dataUrl != ""
    ensures code == MockCode(DefaultFramework) && view == CodeView
  {
    var page, upload := MountAndUpload(dataUrl);
    var g := upload.ClickGenerate();
    page.CompleteGenerate(g.value, true);
    g := upload.ClickGenerate();
    page.CompleteGenerate(g.value, false);
    code := page.generatedCode;
    view := PageView(page);
  }

  /** Generating twice in a row for the same image and format yields the same code. */
  method RepeatedGeneration(dataUrl: string, framework: string) returns (firstCode: string, secondCode: string)
    requires dataUrl != "" && framework in FrameworkIds
    ensures firstCode == secondCode == MockCode(framework)
  {
    var page, upload := MountAndUpload(dataUrl);
    upload.SelectFramework(framework);
    var g := upload.ClickGenerate();
    page.CompleteGenerate(g.value, true);
    firstCode := page.generatedCode;
    g := upload.ClickGenerate();
    page.CompleteGenerate(g.value, true);
    secondCode := page.generatedCode;
  }

  /** Dropping a file that is not an image leaves everything as it was: no decode
      starts, so there is no preview, no upload and no toast. */
  method NonImageDrop() returns (reading: Option<File>, preview: Option<string>, image: Option<string>, toasts: seq<Toast>)
    ensures reading.None? && preview.None? && image.None? && toasts == []
  {
    var page := new Workflow();
    var upload := new UploadPanel(page);
    assert !StartsWith("text/plain", "image/") by {
      assert "text/plain"[..6][0] == 't';
    }
    reading := upload.HandleDrop([File("notes.txt", "text/plain"), File("mockup.png", "image/png")]);
    preview := upload.imagePreview;
    image := page.uploadedImage;
    toasts := page.toasts;
  }

  /** A successful copy shows the confirmation until its reset fires; a failed copy
      raises a destructive toast and leaves the flag alone. */
  method CopySession(code: string) returns (written: Option<string>, shown: bool, afterReset: bool, failed: Option<string>, afterFailure: bool, toasts: seq<Toast>)
    ensures written == Some(code) && shown && !afterReset
    ensures failed.None? && !afterFailure
    ensures toasts == [Copied, CopyFailed]
  {
    var panel := new CodePanel();
    written := panel.HandleCopy(code, true);
    shown := panel.copied;
    panel.ResetCopied();
    afterReset := panel.copied;
    failed := panel.HandleCopy(code, false);
    afterFailure := panel.copied;
    toasts := panel.toasts;
  }

  /** For any page the user is looking at, decoding a new image while no generation runs
      brings the code panel to its empty view and enables the Generate button. */
  method DecodeReadiesPanels(upload: UploadPanel, dataUrl: string) returns (view: View, enabled: bool)
    requires upload.Valid() && upload.pendingReads > 0 && !upload.controller.isGenerating
    requires dataUrl != ""
    modifies upload, upload.controller
    ensures upload.Valid()
    ensures view == Empty && enabled
  {
    upload.OnLoad(dataUrl);
    view := PageView(upload.controller);
    enabled := upload.GenerateEnabled();
  }

  /** End to end, the download is a `.jsx` file exactly when the selected format id
      contains `react`. */
  lemma DownloadIsJsxIffReact(code: string, framework: string)
    ensures EndsWith(DownloadOf(code, LanguageOf(framework)).filename, ".jsx") <==> Includes(framework, "react")
  {
    DownloadNameSuffix(code, LanguageOf(framework));
  }

  /** Of the ids the selector offers, only `react-tailwind` downloads as `.jsx`. */
  lemma OnlyComponentFormatDownloadsJsx(code: string)
    ensures forall i :: 0 <= i < |FrameworkIds| ==>
      (EndsWith(DownloadOf(code, LanguageOf(FrameworkIds[i])).filename, ".jsx") <==> FrameworkIds[i] == "react-tailwind")
  {
    KnownLanguages();
    forall i | 0 <= i < |FrameworkIds|
      ensures EndsWith(DownloadOf(code, LanguageOf(FrameworkIds[i])).filename, ".jsx") <==> FrameworkIds[i] == "react-tailwind"
    {
      DownloadNameSuffix(code, LanguageOf(FrameworkIds[i]));
    }
  }
}
