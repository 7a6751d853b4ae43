/** The page that owns the workflow state: the uploaded image, the generated code,
    the in-progress flag and the selected output format. Generation is simulated:
    after a delay it yields a fixed body chosen by the format. */
module IndexPage {
  import opened Js
  import opened Toasts

  /** The output format selected when the page is first shown. */
  const DefaultFramework := "html-tailwind"

  /** The body produced for a format that has no mock of its own. */
  const Placeholder := "// Generated code will appear here..."

  /** The page title of both HTML bodies. */
  const TitleTag := "<title>Generated UI</title>"

  /** The script tag that loads Tailwind CSS from its CDN. */
  const TailwindScriptTag := "<script src=\"https://cdn.tailwindcss.com\"></script>"

  /** The opening lines both HTML bodies share, up to and including the page title. */
  const DocumentHeadLines: seq<string> := [
    "<!DOCTYPE html>",
    "<html lang=\"en\">",
    "<head>",
    "    <meta charset=\"UTF-8\">",
    "    <meta name=\"viewport\" content=\"width=device-width, initial-scale=1.0\">",
    "    " + TitleTag
  ]

  /** The rest of the "html-tailwind" body: the Tailwind CDN script and a card styled with utility classes. */
  const TailwindPageLines: seq<string> := [
    "    " + TailwindScriptTag,
    "</head>",
    "<body class=\"bg-gray-100\">",
    "    <div class=\"container mx-auto p-6\">",
    "        <div class=\"bg-white rounded-lg shadow-md p-6\">",
    "            <h1 class=\"text-2xl font-bold text-gray-800 mb-4\">Welcome</h1>",
    "            <p class=\"text-gray-600 mb-6\">This is your generated UI component.</p>",
    "            <button class=\"bg-blue-500 hover:bg-blue-600 text-white px-6 py-2 rounded-lg\">",
    "                Get Started",
    "            </button>",
    "        </div>",
    "    </div>",
    "</body>",
    "</html>"
  ]

  /** The "html-tailwind" body, line by line. */
  const HtmlTailwindLines: seq<string> := DocumentHeadLines + TailwindPageLines

  /** The "react-tailwind" body, line by line: a React component module. */
  const ReactTailwindLines: seq<string> := [
    "import React from 'react';",
    "",
    "const GeneratedComponent = () => {",
    "  return (",
    "    <div className=\"bg-gray-100 min-h-screen p-6\">",
    "      <div className=\"container mx-auto\">",
    "        <div className=\"bg-white rounded-lg shadow-md p-6\">",
    "          <h1 className=\"text-2xl font-bold text-gray-800 mb-4\">Welcome</h1>",
    "          <p className=\"text-gray-600 mb-6\">This is your generated UI component.</p>",
    "          <button className=\"bg-blue-500 hover:bg-blue-600 text-white px-6 py-2 rounded-lg transition-colors\">",
    "            Get Started",
    "          </button>",
    "        </div>",
    "      </div>",
    "    </div>",
    "  );",
    "};",
    "",
    "export default GeneratedComponent;"
  ]

  /** The opening of the embedded style sheet of the "html-css" body, with its `body` and `.container` rules. */
  const LayoutRuleLines: seq<string> := [
    "    <style>",
    "        body {",
    "            margin: 0;",
    "            padding: 0;",
    "            font-family: Arial, sans-serif;",
    "            background-color: #f5f5f5;",
    "        }",
    "        .container {",
    "            max-width: 1200px;",
    "            margin: 0 auto;",
    "            padding: 24px;",
    "        }"
  ]

  /** The `.card` rule of the embedded style sheet. */
  const CardRuleLines: seq<string> := [
    "        .card {",
    "            background: white;",
    "            border-radius: 8px;",
    "            box-shadow: 0 2px 10px rgba(0,0,0,0.1);",
    "            padding: 24px;",
    "        }"
  ]

  /** The `.title` and `.description` rules of the embedded style sheet. */
  const TextRuleLines: seq<string> := [
    "        .title {",
    "            font-size: 24px;",
    "            font-weight: bold;",
    "            color: #333;",
    "            margin-bottom: 16px;",
    "        }",
    "        .description {",
    "            color: #666;",
    "            margin-bottom: 24px;",
    "        }"
  ]

  /** The `.button` rules and the end of the embedded style sheet. */
  const ButtonRuleLines: seq<string> := [
    "        .button {",
    "            background-color: #3b82f6;",
    "            color: white;",
    "            padding: 8px 24px;",
    "            border: none;",
    "            border-radius: 6px;",
    "            cursor: pointer;",
    "            font-size: 16px;",
    "        }",
    "        .button:hover {",
    "            background-color: #2563eb;",
    "        }",
    "    </style>"
  ]

  /** The rest of the "html-css" body: a card marked up with the classes of the style sheet. */
  const StyledPageLines: seq<string> := [
    "</head>",
    "<body>",
    "    <div class=\"container\">",
    "        <div class=\"card\">",
    "            <h1 class=\"title\">Welcome</h1>",
    "            <p class=\"description\">This is your generated UI component.</p>",
    "            <button class=\"button\">Get Started</button>",
    "        </div>",
    "    </div>",
    "</body>",
    "</html>"
  ]

  /** The "html-css" body, line by line. */
  const HtmlCssLines: seq<string> :=
    DocumentHeadLines + LayoutRuleLines + CardRuleLines + TextRuleLines + ButtonRuleLines + StyledPageLines

  /** `getMockCode`: the fixed body for each of the three known formats, and the
      placeholder comment for every other string. */
  function MockCode(framework: string): (code: string)
    ensures code != ""
  {
    if framework == "html-tailwind" then
      JoinLinesStartsWith(HtmlTailwindLines);
      JoinLines(HtmlTailwindLines)
    else if framework == "react-tailwind" then
      JoinLinesStartsWith(ReactTailwindLines);
      JoinLines(ReactTailwindLines)
    else if framework == "html-css" then
      JoinLinesStartsWith(HtmlCssLines);
      JoinLines(HtmlCssLines)
    else
      Placeholder
  }

  /** A format id that `getMockCode` has a body for. */
  predicate HasMock(framework: string) {
    framework == "html-tailwind" || framework == "react-tailwind" || framework == "html-css"
  }

  /** The placeholder comes back exactly for the formats without a body of their own. */
  lemma MockCodePlaceholder(framework: string)
    ensures MockCode(framework) == Placeholder <==> !HasMock(framework)
  {
    if framework == "html-tailwind" {
      BodyIsNotPlaceholder(HtmlTailwindLines);
    } else if framework == "react-tailwind" {
      BodyIsNotPlaceholder(ReactTailwindLines);
    } else if framework == "html-css" {
      BodyIsNotPlaceholder(HtmlCssLines);
    }
  }

  /** A body whose first line does not start with a slash is not the placeholder. */
  lemma BodyIsNotPlaceholder(lines: seq<string>)
    requires |lines| > 0 && |lines[0]| > 0 && lines[0][0] != '/'
    ensures JoinLines(lines) != Placeholder
  {
    JoinLinesStartsWith(lines);
    assert JoinLines(lines)[0] == lines[0][0];
  }

  /** What each body contains: the Tailwind page has its title and the CDN script, the
      component module ends with its default export, and the style-sheet page has its
      title and embeds a style block with a `.card` rule. */
  lemma MockCodeContents()
    ensures Includes(MockCode("html-tailwind"), TitleTag)
    ensures Includes(MockCode("html-tailwind"), TailwindScriptTag)
    ensures EndsWith(MockCode("react-tailwind"), "export default GeneratedComponent;")
    ensures Includes(MockCode("html-css"), TitleTag)
    ensures Includes(MockCode("html-css"), "<style>")
    ensures Includes(MockCode("html-css"), ".card {")
  {
    TailwindPageContents();
    ComponentModuleEnding();
    StyledPageContents();
  }

  lemma TailwindPageContents()
    ensures Includes(JoinLines(HtmlTailwindLines), TitleTag)
    ensures Includes(JoinLines(HtmlTailwindLines), TailwindScriptTag)
  {
    assert HtmlTailwindLines[5] == DocumentHeadLines[5];
    IndentedLineIncludes(HtmlTailwindLines, 5, "    ", TitleTag);
    assert HtmlTailwindLines[6] == TailwindPageLines[0];
    IndentedLineIncludes(HtmlTailwindLines, 6, "    ", TailwindScriptTag);
  }

  lemma ComponentModuleEnding()
    ensures EndsWith(JoinLines(ReactTailwindLines), "export default GeneratedComponent;")
  {
    JoinLinesEndsWith(ReactTailwindLines);
  }

  lemma StyledPageContents()
    ensures Includes(JoinLines(HtmlCssLines), TitleTag)
    ensures Includes(JoinLines(HtmlCssLines), "<style>")
    ensures Includes(JoinLines(HtmlCssLines), ".card {")
  {
    assert HtmlCssLines[5] == DocumentHeadLines[5];
    IndentedLineIncludes(HtmlCssLines, 5, "    ", TitleTag);
    assert HtmlCssLines[6] == LayoutRuleLines[0];
    IndentedLineIncludes(HtmlCssLines, 6, "    ", "<style>");
    assert HtmlCssLines[18] == CardRuleLines[0];
    IndentedLineIncludes(HtmlCssLines, 18, "        ", ".card {");
  }

  /** A body includes what one of its lines holds after the line's indentation. */
  lemma IndentedLineIncludes(lines: seq<string>, k: nat, indent: string, text: string)
    requires k < |lines| && lines[k] == indent + text
    ensures Includes(JoinLines(lines), text)
  {
    StartsWithIncludes(text, text);
    IncludesInSuffix(indent, text, text);
    JoinLinesIncludes(lines, k);
    IncludesTransitive(JoinLines(lines), lines[k], text);
  }

  /** The language tag handed to the code panel: `jsx` exactly when the format id
      contains `react`, `html` otherwise. */
  function LanguageOf(framework: string): (language: string)
    ensures language == "jsx" <==> Includes(framework, "react")
    ensures language == "jsx" || language == "html"
  {
    if Includes(framework, "react") then "jsx" else "html"
  }

  /** Of the three known formats only the component format is tagged `jsx`. */
  lemma KnownLanguages()
    ensures LanguageOf("react-tailwind") == "jsx"
    ensures LanguageOf("html-tailwind") == "html"
    ensures LanguageOf("html-css") == "html"
  {
    StartsWithIncludes("react-tailwind", "react");
    NotIncludesWithoutFirstChar("html-tailwind", "react");
    NotIncludesWithoutFirstChar("html-css", "react");
  }

  /** A generation in flight, as the closure of the generate handler captured it when
      it started: the format selected at that moment. */
  datatype Generation = Generation(framework: string)

  /** Code that some generation step can have produced. */
  ghost predicate IsMockCode(code: string) {
    exists framework :: code == MockCode(framework)
  }

  /** The four state hooks of the page and the toasts it has raised. */
  class Workflow {
    var uploadedImage: Option<string>
    var generatedCode: string
    var isGenerating: bool
    var selectedFramework: string
    var toasts: seq<Toast>
    /** Generations that have started and not yet delivered their completion. */
    ghost var inFlight: nat

    /** Code is only ever there for an image, and it is the output of a generation. */
    ghost predicate Valid()
      reads this
    {
      (isGenerating ==> inFlight > 0) &&
      ((generatedCode != "" || inFlight > 0) ==> uploadedImage.Some?) &&
      (generatedCode == "" || IsMockCode(generatedCode))
    }

    constructor ()
      ensures Valid()
      ensures uploadedImage == None && generatedCode == "" && !isGenerating
      ensures selectedFramework == DefaultFramework
      ensures toasts == [] && inFlight == 0
    {
      uploadedImage := None;
      generatedCode := "";
      isGenerating := false;
      selectedFramework := DefaultFramework;
      toasts := [];
      inFlight := 0;
    }

    /** `handleImageUpload`: a new image replaces the old one and discards its code. */
    method Upload(imageDataUrl: string)
      requires Valid()
      modifies this
      ensures Valid()
      ensures uploadedImage == Some(imageDataUrl) && generatedCode == ""
      ensures isGenerating == old(isGenerating) && selectedFramework == old(selectedFramework)
      ensures toasts == old(toasts) && inFlight == old(inFlight)
    {
      uploadedImage := Some(imageDataUrl);
      generatedCode := "";
    }

    /** `handleGenerateCode` up to its `await`: without an image it only raises a
        destructive toast; otherwise it sets the in-progress flag and returns the
        generation, which remembers the format selected now. */
    method StartGenerate() returns (g: Option<Generation>)
      requires Valid()
      modifies this
      ensures Valid()
      ensures g.Some? <==> Truthy(old(uploadedImage))
      ensures uploadedImage == old(uploadedImage) && generatedCode == old(generatedCode)
      ensures selectedFramework == old(selectedFramework)
      ensures !Truthy(old(uploadedImage)) ==>
        isGenerating == old(isGenerating) && inFlight == old(inFlight) &&
        toasts == old(toasts) + [NoImage]
      ensures Truthy(old(uploadedImage)) ==>
        g == Some(Generation(old(selectedFramework))) && isGenerating &&
        inFlight == old(inFlight) + 1 && toasts == old(toasts)
    {
      if !Truthy(uploadedImage) {
        toasts := toasts + [NoImage];
        return None;
      }
      isGenerating := true;
      inFlight := inFlight + 1;
      g := Some(Generation(selectedFramework));
    }

    /** `handleGenerateCode` after its `await`: on success the code becomes the body
        for the format captured at the start, whatever image is current now; on failure
        the code stays and a destructive toast is raised; either way the in-progress
        flag is cleared. */
    method CompleteGenerate(g: Generation, success: bool)
      requires Valid() && inFlight > 0
      modifies this
      ensures Valid()
      ensures generatedCode == if success then MockCode(g.framework) else old(generatedCode)
      ensures toasts == old(toasts) + [if success then Generated else GenerationFailed]
      ensures !isGenerating && inFlight == old(inFlight) - 1
      ensures uploadedImage == old(uploadedImage) && selectedFramework == old(selectedFramework)
    {
      if success {
        generatedCode := MockCode(g.framework);
        toasts := toasts + [Generated];
      } else {
        toasts := toasts + [GenerationFailed];
      }
      isGenerating := false;
      inFlight := inFlight - 1;
    }

    /** `setSelectedFramework`: only the selected format changes. */
    method SetFramework(framework: string)
      requires Valid()
      modifies this
      ensures Valid()
      ensures selectedFramework == framework
      ensures uploadedImage == old(uploadedImage) && generatedCode == old(generatedCode)
      ensures isGenerating == old(isGenerating) && toasts == old(toasts) && inFlight == old(inFlight)
    {
      selectedFramework := framework;
    }

    /** The language tag the page passes to the code panel. */
    /** The `language` prop the page passes to the code panel, from the format selected now. */
    function Language(): (language: string)
      reads this
      ensures language == "jsx" <==> Includes(selectedFramework, "react")
      ensures language == "jsx" || language == "html"
    {
      LanguageOf(selectedFramework)
    }
  }
}
