/** The display name of an uploaded resume or document. */
module UploadName {
  import opened Text

  /** `_display_name`: an absent form field is empty and falls back on the file name,
      which upload validation has found not to be empty. */
  function DisplayName(form: string, filename: string): string {
    Strip(if form != "" then form else filename)
  }

  lemma BlankForm(form: string, filename: string)
    requires form != "" && Blank(form)
    ensures DisplayName(form, filename) == ""
  {}

  lemma TrimmedForm(form: string, filename: string)
    requires form != "" && Trimmed(form)
    ensures DisplayName(form, filename) == form
  {
    StripTrimmed(form);
  }
}
