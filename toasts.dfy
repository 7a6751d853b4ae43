/** The notifications the UI raises through its toast hook. Each component keeps the
    toasts it has raised as an append-only log, so that a handler's effect on the user
    is part of its observable state. */
module Toasts {

  datatype Variant = Default | Destructive

  datatype Toast = Toast(title: string, description: string, variant: Variant)

  /** Raised by the generate handler when there is no image. */
  const NoImage := Toast("No image uploaded", "Please upload an image first to generate code.", Destructive)

  /** Raised when a generation completes. */
  const Generated := Toast("Code generated successfully!", "Your UI has been converted to code.", Default)

  /** Raised when a generation fails. */
  const GenerationFailed := Toast("Generation failed", "Failed to generate code. Please try again.", Destructive)

  /** Raised when the clipboard accepted the code. */
  const Copied := Toast("Code copied!", "The generated code has been copied to your clipboard.", Default)

  /** Raised when the clipboard refused the code. */
  const CopyFailed := Toast("Copy failed", "Failed to copy code to clipboard.", Destructive)

  /** Raised after a download, naming the file. */
  function Downloaded(filename: string): Toast {
    Toast("Code downloaded!", "File saved as " + filename, Default)
  }
}
