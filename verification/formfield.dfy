/** The labelled input used by the forms: its element ids, the validity
    and error icons, and the accessibility attributes. */
module FormField {
  import opened Wrappers
  import opened Text
  import opened JsValues

  /** `id || 'field-' + label.toLowerCase().replace(/\s+/g, '-')`. */
  function FieldId(id: Option<string>, caption: string): (r: string)
    ensures id.Some? && id.value != "" ==> r == id.value
    ensures id.None? || id.value == "" ==> r == "field-" + ReplaceWhitespaceRuns(ToLower(caption), '-')
  {
    if id.Some? && id.value != "" then id.value
    else "field-" + ReplaceWhitespaceRuns(ToLower(caption), '-')
  }

  /** A derived id holds no white space and no upper-case letter, so it
      is a usable element id; a caption already in that shape is kept
      as typed. */
  lemma DerivedIdShape(caption: string)
    ensures var r := FieldId(None, caption);
      && StartsWith(r, "field-")
      && (forall i :: 0 <= i < |r| ==> !IsWhitespace(r[i]))
      && ((forall i :: 0 <= i < |caption| ==> !IsWhitespace(caption[i]) && !IsUpperAscii(caption[i])) ==> r == "field-" + caption)
  {
    var lower := ToLower(caption);
    ReplaceWhitespaceRunsSpec(lower, '-');
    var tail := ReplaceWhitespaceRuns(lower, '-');
    var r := FieldId(None, caption);
    assert r == "field-" + tail;
    assert r[..6] == "field-";
    forall i | 0 <= i < |r|
      ensures !IsWhitespace(r[i])
    {
      if i >= 6 {
        assert r[i] == tail[i - 6];
      }
    }
    if forall i :: 0 <= i < |caption| ==> !IsWhitespace(caption[i]) && !IsUpperAscii(caption[i]) {
      assert lower == caption;
    }
  }

  /** `${fieldId}-error`. */
  function ErrorId(fieldId: string): (r: string)
    ensures r != fieldId && StartsWith(r, fieldId)
    ensures |r| == |fieldId| + 6 && r[|fieldId|..] == "-error"
  {
    assert (fieldId + "-error")[..|fieldId|] == fieldId;
    fieldId + "-error"
  }

  /** Distinct fields get distinct error ids. */
  lemma ErrorIdInjective(a: string, b: string)
    ensures ErrorId(a) == ErrorId(b) ==> a == b
  {
    if ErrorId(a) == ErrorId(b) {
      assert |a| == |b|;
      assert a == ErrorId(a)[..|a|] && b == ErrorId(b)[..|b|];
    }
  }

  /** What the field renders that matters to a reader or a screen
      reader. */
  datatype View = View(
    fieldId: string, ariaInvalid: string, ariaDescribedBy: Option<string>,
    errorIcon: bool, validIcon: bool, errorText: Option<string>, asterisk: bool)

  /** `props.value && String(props.value).length > 0`. */
  predicate HasValue(value: Json) {
    Truthy(value) && |ToStr(value)| > 0
  }

  /** The rendered field. `error` is the field's error message, when it
      has one; `isValid` and `required` are `false` when not given. */
  function Render(id: Option<string>, caption: string, error: Option<string>, required: bool, isValid: bool, value: Json): (v: View)
    ensures v.fieldId == FieldId(id, caption)
    ensures v.ariaInvalid == "true" <==> error.Some?
    ensures v.ariaInvalid == "false" <==> error.None?
    ensures v.ariaDescribedBy.Some? <==> error.Some?
    ensures v.ariaDescribedBy.Some? ==> v.ariaDescribedBy.value == ErrorId(v.fieldId)
    ensures v.errorIcon <==> error.Some?
    ensures v.errorText == error
    ensures v.validIcon <==> HasValue(value) && error.None? && isValid
    ensures !(v.validIcon && v.errorIcon)
    ensures v.asterisk <==> required
  {
    var fieldId := FieldId(id, caption);
    View(fieldId,
      if error.Some? then "true" else "false",
      if error.Some? then Some(ErrorId(fieldId)) else None,
      error.Some?,
      HasValue(value) && error.None? && isValid,
      error,
      required)
  }

  /** An empty value never shows the valid icon, whatever the validity. */
  lemma EmptyValueNoValidIcon(id: Option<string>, caption: string, error: Option<string>, required: bool, isValid: bool)
    ensures !Render(id, caption, error, required, isValid, JStr("")).validIcon
    ensures !Render(id, caption, error, required, isValid, JUndefined).validIcon
  {
  }
}
