/** The code panel: a loading view while a generation runs, an empty view until there
    is code, and otherwise the code with copy and download actions. Its props are the
    page's code, in-progress flag and language tag; its own state is the `copied` flag. */
module CodeDisplay {
  import opened Js
  import opened Toasts

  /** The three mutually exclusive views of the panel. */
  datatype View = Loading | Empty | CodeView

  /** The view the panel renders, by precedence: a running generation wins over any
      code, and an empty string counts as no code. */
  function SelectView(code: string, isGenerating: bool): (view: View)
    ensures view == Loading <==> isGenerating
    ensures view == Empty <==> !isGenerating && code == ""
    ensures view == CodeView <==> !isGenerating && code != ""
  {
    if isGenerating then Loading
    else if code == "" then Empty
    else CodeView
  }

  /** The download's file extension: `jsx` for the `jsx` tag, `html` for every other tag. */
  function Extension(language: string): (ext: string)
    ensures ext == "jsx" <==> language == "jsx"
    ensures ext == "html" <==> language != "jsx"
  {
    if language == "jsx" then "jsx" else "html"
  }

  /** A file the browser is asked to save. */
  datatype Download = Download(filename: string, content: string, mimeType: string)

  /** What `handleDownload` saves: the code exactly, as plain text, under a name
      `generated-ui.` followed by the extension for the tag. */
  function DownloadOf(code: string, language: string): (file: Download)
    ensures file.content == code && file.mimeType == "text/plain"
    ensures StartsWith(file.filename, "generated-ui.")
    ensures file.filename[|"generated-ui."|..] == Extension(language)
  {
    var name := "generated-ui." + Extension(language);
    assert name[..|"generated-ui."|] == "generated-ui.";
    assert name[|"generated-ui."|..] == Extension(language);
    Download(name, code, "text/plain")
  }

  /** The two names a download can have. */
  lemma DownloadNames(code: string, language: string)
    ensures DownloadOf(code, language).filename == if language == "jsx" then "generated-ui.jsx" else "generated-ui.html"
  {
  }

  /** The saved name ends in `.jsx` exactly for the `jsx` tag, and in `.html` otherwise. */
  lemma DownloadNameSuffix(code: string, language: string)
    ensures EndsWith(DownloadOf(code, language).filename, ".jsx") <==> language == "jsx"
    ensures EndsWith(DownloadOf(code, language).filename, ".html") <==> language != "jsx"
  {
    var name := DownloadOf(code, language).filename;
    DownloadNames(code, language);
    if language == "jsx" {
      assert name == "generated-ui.jsx";
      assert name[|name| - 4..] == ".jsx";
      assert name[|name| - 5..] != ".html" by {
        assert name[|name| - 5..][0] == 'i';
      }
    } else {
      assert name == "generated-ui.html";
      assert name[|name| - 5..] == ".html";
      assert name[|name| - 4..] != ".jsx" by {
        assert name[|name| - 4..][1] == 't';
      }
    }
  }

  class CodePanel {
    var copied: bool
    var toasts: seq<Toast>
    /** Resets of `copied` that have been scheduled and have not fired yet. */
    ghost var pendingResets: nat

    /** `copied` is only ever shown while a reset of it is on its way. */
    ghost predicate Valid()
      reads this
    {
      copied ==> pendingResets > 0
    }

    constructor ()
      ensures Valid()
      ensures !copied && toasts == [] && pendingResets == 0
    {
      copied := false;
      toasts := [];
      pendingResets := 0;
    }

    /** `handleCopy`: the clipboard is asked to hold exactly the code. When it accepts,
        `copied` becomes true, a success toast is raised and a reset is scheduled; when
        it refuses, the failure is caught: `copied` stays as it was and a destructive
        toast is raised. The result is what the clipboard then holds from this call. */
    method HandleCopy(code: string, clipboardAccepts: bool) returns (written: Option<string>)
      requires Valid()
      modifies this
      ensures Valid()
      ensures written == if clipboardAccepts then Some(code) else None
      ensures clipboardAccepts ==> copied && pendingResets == old(pendingResets) + 1
      ensures clipboardAccepts ==> toasts == old(toasts) + [Copied]
      ensures !clipboardAccepts ==> copied == old(copied) && pendingResets == old(pendingResets)
      ensures !clipboardAccepts ==> toasts == old(toasts) + [CopyFailed]
    {
      if clipboardAccepts {
        written := Some(code);
        copied := true;
        toasts := toasts + [Copied];
        pendingResets := pendingResets + 1;
      } else {
        written := None;
        toasts := toasts + [CopyFailed];
      }
    }

    /** The scheduled reset firing, two seconds after a successful copy. */
    method ResetCopied()
      requires Valid() && pendingResets > 0
      modifies this
      ensures Valid()
      ensures !copied && pendingResets == old(pendingResets) - 1 && toasts == old(toasts)
    {
      copied := false;
      pendingResets := pendingResets - 1;
    }

    /** `handleDownload`: saves the file and raises a toast naming it; `copied` is not touched. */
    method HandleDownload(code: string, language: string) returns (file: Download)
      modifies this`toasts
      ensures file == DownloadOf(code, language)
      ensures toasts == old(toasts) + [Downloaded(file.filename)]
    {
      file := DownloadOf(code, language);
      toasts := toasts + [Downloaded(file.filename)];
    }
  }
}
