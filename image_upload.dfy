/** The upload panel: a drop zone and file picker that accepts one image at a time,
    previews it once it is decoded, and offers the format selector and the Generate
    button. Its callback props are the page's workflow handlers. */
module ImageUpload {
  import opened Js
  import opened Toasts
  import opened IndexPage

  /** A file as the browser hands it over: all the panel looks at is its MIME type. */
  datatype File = File(name: string, mimeType: string)

  /** The format ids the selector offers, in the order it lists them. */
  const FrameworkIds: seq<string> := ["html-tailwind", "react-tailwind", "html-css"]

  /** The MIME filter of `handleFile`: only types starting with `image/` are read. */
  predicate IsImageFile(file: File): (image: bool)
    ensures image <==> exists subtype :: file.mimeType == "image/" + subtype
  {
    assert StartsWith(file.mimeType, "image/") ==>
      file.mimeType == "image/" + file.mimeType[|"image/"|..];
    assert forall subtype :: file.mimeType == "image/" + subtype ==> StartsWith(file.mimeType, "image/") by {
      forall subtype | file.mimeType == "image/" + subtype
        ensures StartsWith(file.mimeType, "image/")
      {
        assert file.mimeType[..|"image/"|] == "image/";
      }
    }
    StartsWith(file.mimeType, "image/")
  }

  /** `files[0]` when a drop or the picker delivered at least one file. */
  function FirstFile(files: seq<File>): (first: Option<File>)
    ensures first.None? <==> files == []
    ensures first.Some? ==> first.value == files[0]
  {
    if |files| > 0 then Some(files[0]) else None
  }

  /** The picker's file list, which may be absent altogether. */
  function PickedFile(files: Option<seq<File>>): (first: Option<File>)
    ensures first.None? <==> files.None? || files.value == []
    ensures first.Some? ==> files.Some? && first.value == files.value[0]
  {
    if files.Some? then FirstFile(files.value) else None
  }

  /** The file that a handler passes to `handleFile` and that is then decoded, if any. */
  function FileToDecode(handled: Option<File>): (decoded: Option<File>)
    ensures decoded.Some? <==> handled.Some? && IsImageFile(handled.value)
    ensures decoded.Some? ==> decoded == handled
  {
    if handled.Some? && IsImageFile(handled.value) then handled else None
  }

  /** The Generate button is disabled while there is no (non-empty) preview or while a
      generation runs. */
  function GenerateDisabled(imagePreview: Option<string>, isGenerating: bool): (disabled: bool)
    ensures !disabled <==> imagePreview.Some? && imagePreview.value != "" && !isGenerating
  {
    !Truthy(imagePreview) || isGenerating
  }

  /** The selector offers three distinct ids, exactly the ones `getMockCode` has a body for. */
  lemma FrameworkIdsAreTheMockedOnes()
    ensures |FrameworkIds| == 3
    ensures forall i, j :: 0 <= i < j < |FrameworkIds| ==> FrameworkIds[i] != FrameworkIds[j]
    ensures forall id :: HasMock(id) <==> id in FrameworkIds
  {
  }

  /** Every id the selector offers maps to a real body, never to the placeholder. */
  lemma FrameworkIdsHaveBodies()
    ensures forall i :: 0 <= i < |FrameworkIds| ==> MockCode(FrameworkIds[i]) != Placeholder
  {
    forall i | 0 <= i < |FrameworkIds|
      ensures MockCode(FrameworkIds[i]) != Placeholder
    {
      OfferedIdHasBody(i);
    }
  }

  lemma OfferedIdHasBody(i: nat)
    requires i < |FrameworkIds|
    ensures MockCode(FrameworkIds[i]) != Placeholder
  {
    var id := FrameworkIds[i];
    assert HasMock(id);
    MockCodePlaceholder(id);
  }

  class UploadPanel {
    /** The page whose handlers the panel's callback props are. */
    const controller: Workflow
    var isDragOver: bool
    var imagePreview: Option<string>
    /** File reads that have started and not yet delivered their `onload`. */
    ghost var pendingReads: nat

    /** The preview is the image the page holds: both change only when a decode completes. */
    ghost predicate Valid()
      reads this, controller
    {
      controller.Valid() && imagePreview == controller.uploadedImage
    }

    /** The panel as first mounted, beside a page that has no image yet. */
    constructor (controller: Workflow)
      requires controller.Valid() && controller.uploadedImage.None?
      ensures Valid() && this.controller == controller
      ensures !isDragOver && imagePreview.None? && pendingReads == 0
    {
      this.controller := controller;
      isDragOver := false;
      imagePreview := None;
      pendingReads := 0;
    }

    /** `handleDragOver`. */
    method HandleDragOver()
      requires Valid()
      modifies this`isDragOver
      ensures Valid()
      ensures isDragOver
    {
      isDragOver := true;
    }

    /** `handleDragLeave`. */
    method HandleDragLeave()
      requires Valid()
      modifies this`isDragOver
      ensures Valid()
      ensures !isDragOver
    {
      isDragOver := false;
    }

    /** `handleFile`: a file that is not an image is ignored; an image starts a decode
        whose completion arrives later as `OnLoad`. Neither the preview nor the page
        changes here. */
    method HandleFile(file: File) returns (reading: bool)
      requires Valid()
      modifies this`pendingReads
      ensures Valid()
      ensures reading == IsImageFile(file)
      ensures pendingReads == old(pendingReads) + (if reading then 1 else 0)
    {
      if !IsImageFile(file) {
        return false;
      }
      pendingReads := pendingReads + 1;
      reading := true;
    }

    /** `handleDrop`: clears the drag highlight and handles only the first dropped file. */
    method HandleDrop(files: seq<File>) returns (reading: Option<File>)
      requires Valid()
      modifies this`isDragOver, this`pendingReads
      ensures Valid()
      ensures !isDragOver
      ensures reading == FileToDecode(FirstFile(files))
      ensures pendingReads == old(pendingReads) + (if reading.Some? then 1 else 0)
    {
      isDragOver := false;
      reading := None;
      if |files| > 0 {
        var started := HandleFile(files[0]);
        if started {
          reading := Some(files[0]);
        }
      }
    }

    /** `handleFileInput`: handles only the first picked file, if the picker gave any. */
    method HandleFileInput(files: Option<seq<File>>) returns (reading: Option<File>)
      requires Valid()
      modifies this`pendingReads
      ensures Valid()
      ensures reading == FileToDecode(PickedFile(files))
      ensures pendingReads == old(pendingReads) + (if reading.Some? then 1 else 0)
    {
      reading := None;
      if files.Some? && |files.value| > 0 {
        var started := HandleFile(files.value[0]);
        if started {
          reading := Some(files.value[0]);
        }
      }
    }

    /** The reader's `onload`: the decoded data URL becomes the preview and is passed,
        unchanged, to the page's upload handler. */
    method OnLoad(result: string)
      requires Valid() && pendingReads > 0
      modifies this`imagePreview, this`pendingReads, controller
      ensures Valid()
      ensures imagePreview == Some(result) && pendingReads == old(pendingReads) - 1
      ensures controller.uploadedImage == Some(result) && controller.generatedCode == ""
      ensures controller.isGenerating == old(controller.isGenerating)
      ensures controller.selectedFramework == old(controller.selectedFramework)
      ensures controller.toasts == old(controller.toasts)
      ensures controller.inFlight == old(controller.inFlight)
    {
      imagePreview := Some(result);
      pendingReads := pendingReads - 1;
      controller.Upload(result);
    }

    /** Whether the Generate button can be clicked. */
    function GenerateEnabled(): (enabled: bool)
      reads this, controller
      ensures enabled <==> imagePreview.Some? && imagePreview.value != "" && !controller.isGenerating
      ensures Valid() && enabled ==> controller.uploadedImage.Some? && controller.uploadedImage.value != ""
    {
      !GenerateDisabled(imagePreview, controller.isGenerating)
    }

    /** A click on the Generate button. A disabled button delivers no click, so a click
        either does nothing or starts a generation; through the button the page's
        "no image" toast is never raised. */
    method ClickGenerate() returns (g: Option<Generation>)
      requires Valid()
      modifies controller
      ensures Valid()
      ensures g.Some? <==> old(GenerateEnabled())
      ensures g.Some? ==> g.value == Generation(old(controller.selectedFramework)) && controller.isGenerating
      ensures g.Some? ==> controller.inFlight == old(controller.inFlight) + 1
      ensures g.None? ==> controller.isGenerating == old(controller.isGenerating)
      ensures g.None? ==> controller.inFlight == old(controller.inFlight)
      ensures controller.uploadedImage == old(controller.uploadedImage)
      ensures controller.generatedCode == old(controller.generatedCode)
      ensures controller.selectedFramework == old(controller.selectedFramework)
      ensures controller.toasts == old(controller.toasts)
    {
      if !GenerateEnabled() {
        return None;
      }
      g := controller.StartGenerate();
    }

    /** The selector's `onValueChange`, which only ever reports one of its own ids. */
    method SelectFramework(id: string)
      requires Valid() && id in FrameworkIds
      modifies controller
      ensures Valid()
      ensures controller.selectedFramework == id
      ensures controller.uploadedImage == old(controller.uploadedImage)
      ensures controller.generatedCode == old(controller.generatedCode)
      ensures controller.isGenerating == old(controller.isGenerating)
      ensures controller.toasts == old(controller.toasts)
      ensures controller.inFlight == old(controller.inFlight)
    {
      controller.SetFramework(id);
    }
  }
}
