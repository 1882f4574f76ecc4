/** The product brands page: the brand-name check, the submit step with
    its guard and failure state, and the export projection. Its table,
    search box and reload step are those of `ListView`. */
module Brands {
  import opened Wrappers
  import opened Text
  import opened JsValues
  import opened Types
  import opened Api
  import opened ListView

  const MaxNameLength: nat := 100
  const NameRequired: string := "Brand name is required"
  const NameTooLong: string := "Brand name must be less than 100 characters"

  /** `validateForm()`: the recorded errors, keyed by field. */
  function ValidateForm(name: string): (errors: map<string, string>)
    ensures errors.Keys <= {"productBrandName"}
    ensures "productBrandName" !in errors <==> !IsBlank(name) && |Trim(name)| <= MaxNameLength
    ensures IsBlank(name) ==> errors == map["productBrandName" := NameRequired]
    ensures !IsBlank(name) && |Trim(name)| > MaxNameLength ==> errors == map["productBrandName" := NameTooLong]
  {
    if IsBlank(name) then map["productBrandName" := NameRequired]
    else if |Trim(name)| > MaxNameLength then map["productBrandName" := NameTooLong]
    else map[]
  }

  /** Surrounding white space is not counted: a 100-character name passes
      however much space surrounds it, one more character fails. */
  lemma LengthBoundary(core: string, pad: string)
    requires |core| == MaxNameLength && !IsWhitespace(core[0]) && !IsWhitespace(core[|core| - 1])
    requires IsBlank(pad)
    ensures ValidateForm(pad + core + pad) == map[]
    ensures ValidateForm(pad + (core + "x") + pad) == map["productBrandName" := NameTooLong]
  {
    TrimOfPadded(pad, core, pad);
    assert (pad + core + pad)[|pad|] == core[0];
    var longer := core + "x";
    assert longer[|longer| - 1] == 'x' && longer[0] == core[0];
    TrimOfPadded(pad, longer, pad);
    assert (pad + longer + pad)[|pad|] == core[0];
  }

  /** The call a valid submit makes. */
  datatype Call = AddBrand(name: string) | UpdateBrand(id: Num, name: string) | Reload(request: ListView.Request)

  datatype Page = Page(showModal: bool, name: string, errors: map<string, string>, editing: Option<ProductBrand>, calls: seq<Call>)

  const UnexpectedError: string := "An unexpected error occurred. Please try again."

  /** `handleSubmit`: an invalid form records its errors and sends
      nothing; otherwise the brand is saved (see `Saved`). */
  function Submit(p: Page, saved: Outcome<(bool, Json)>, term: string, currentPage: int): (r: Page)
    ensures "productBrandName" in ValidateForm(p.name) ==> r == p.(errors := ValidateForm(p.name))
    ensures "productBrandName" !in ValidateForm(p.name) ==> r == Saved(p, saved, term, currentPage)
  {
    var errors := ValidateForm(p.name);
    if "productBrandName" in errors then p.(errors := errors) else Saved(p, saved, term, currentPage)
  }

  /** The save step of a valid submit. The save call's result is an
      input: `success` and `message`, or a thrown error. A saved brand
      closes and resets the form and reloads the table; a failure records
      a general error and leaves the modal, the form and the brand being
      edited as they were. */
  function Saved(p: Page, saved: Outcome<(bool, Json)>, term: string, currentPage: int): (r: Page)
    ensures saved.Returned? && saved.value.0 ==>
      r == Page(false, "", map[], None, p.calls + [SaveCall(p), Reload(ReloadStart(term, currentPage))])
    ensures !(saved.Returned? && saved.value.0) ==>
      r.showModal == p.showModal && r.name == p.name && r.editing == p.editing
      && r.errors.Keys == {"general"} && r.calls == p.calls + [SaveCall(p)]
    ensures saved.Threw? ==> r.errors["general"] == UnexpectedError
  {
    match saved
    case Threw(_) => SaveFailed(p, UnexpectedError)
    case Returned((success, message)) =>
      if success then
        Page(false, "", map[], None, p.calls + [SaveCall(p), Reload(ReloadStart(term, currentPage))])
      else
        SaveFailed(p, if Truthy(message) then ToStr(message) else "Failed to save brand")
  }

  /** A failed save: the call went out, the general error is recorded,
      and the modal, the form and the brand being edited stay. */
  function SaveFailed(p: Page, message: string): (r: Page)
    ensures r.showModal == p.showModal && r.name == p.name && r.editing == p.editing
    ensures r.errors.Keys == {"general"} && r.errors["general"] == message
    ensures r.calls == p.calls + [SaveCall(p)]
  {
    p.(errors := map["general" := message], calls := p.calls + [SaveCall(p)])
  }

  /** Editing updates the brand being edited; otherwise a brand is added. */
  function SaveCall(p: Page): Call {
    if p.editing.Some? then UpdateBrand(p.editing.value.productBrandId, p.name) else AddBrand(p.name)
  }

  /** A blank name never reaches the server. */
  lemma BlankNameSendsNothing(p: Page, saved: Outcome<(bool, Json)>, term: string, currentPage: int)
    requires IsBlank(p.name)
    ensures Submit(p, saved, term, currentPage).calls == p.calls
    ensures Submit(p, saved, term, currentPage).errors["productBrandName"] == NameRequired
  {
  }

  /** A valid submit always sends exactly one save call first, whatever
      comes back. */
  lemma ValidSubmitSavesOnce(p: Page, saved: Outcome<(bool, Json)>, term: string, currentPage: int)
    requires !IsBlank(p.name) && |Trim(p.name)| <= MaxNameLength
    ensures var r := Submit(p, saved, term, currentPage);
      |r.calls| > |p.calls| && r.calls[..|p.calls| + 1] == p.calls + [SaveCall(p)]
  {
    assert Submit(p, saved, term, currentPage) == Saved(p, saved, term, currentPage) by {
      assert "productBrandName" !in ValidateForm(p.name);
    }
    SavedSendsSaveFirst(p, saved, term, currentPage);
  }

  /** The save step sends the save call before anything else. */
  lemma SavedSendsSaveFirst(p: Page, saved: Outcome<(bool, Json)>, term: string, currentPage: int)
    ensures var r := Saved(p, saved, term, currentPage);
      |r.calls| > |p.calls| && r.calls[..|p.calls| + 1] == p.calls + [SaveCall(p)]
  {
    var prefix := p.calls + [SaveCall(p)];
    var calls := Saved(p, saved, term, currentPage).calls;
    if saved.Returned? && saved.value.0 {
      var extra := [Reload(ReloadStart(term, currentPage))];
      assert calls == prefix + extra;
      assert (prefix + extra)[..|prefix|] == prefix;
    } else {
      assert calls == prefix;
    }
  }

  datatype ExportRow = ExportRow(brandId: Num, brandName: string)

  /** The brand's id and name, as exported. */
  function ExportRowOf(b: ProductBrand): (row: ExportRow)
    ensures row.brandId == b.productBrandId && row.brandName == b.productBrandName
  {
    ExportRow(b.productBrandId, b.productBrandName)
  }
}
