/** One labelled profile field: whether it shows an input, and what it
    shows when it does not. */
module ProfileField {
  import opened Base
  import Decimal

  datatype FieldType = Text | Email | Tel | Date | Select | Checkbox | Number | Password

  /** A field's value: text, a flag or a number. */
  datatype FieldValue = Str(s: string) | Flag(b: bool) | Num(n: real)

  /** JavaScript truthiness of a field value. */
  predicate Truthy(v: FieldValue) {
    match v
    case Str(s) => s != ""
    case Flag(b) => b
    case Num(n) => n != 0.0
  }

  /** `type` defaults to text. */
  function EffectiveType(t: Option<FieldType>): (e: FieldType)
    ensures t.Some? ==> e == t.value
    ensures t.None? ==> e == Text
  {
    t.GetOr(Text)
  }

  /** `shouldRenderInput`: editing and not read-only; `isReadOnly`
      defaults to false. */
  function ShouldRenderInput(isEditing: bool, isReadOnly: Option<bool>): (b: bool)
    ensures b <==> isEditing && isReadOnly != Some(true)
  {
    isEditing && !isReadOnly.GetOr(false)
  }

  /** The shape `^\d{4}-\d{2}-\d{2}$`. */
  predicate IsIsoDate(s: string) {
    |s| == 10 && s[4] == '-' && s[7] == '-'
    && Decimal.AllDigits(s[0..4]) && Decimal.AllDigits(s[5..7]) && Decimal.AllDigits(s[8..10])
  }

  /** `displayValue`: a checkbox shows "Enabled" or "Disabled"; a date in
      YYYY-MM-DD form is shown as it is; any other falsy value shows
      "N/A" and any other truthy value is shown as it is. */
  function DisplayValue(t: Option<FieldType>, v: FieldValue): (d: FieldValue)
    ensures EffectiveType(t) == Checkbox ==>
              d == Str(if Truthy(v) then "Enabled" else "Disabled")
    ensures EffectiveType(t) != Checkbox && Truthy(v) ==> d == v
    ensures EffectiveType(t) != Checkbox && !Truthy(v) ==> d == Str("N/A")
  {
    var ty := EffectiveType(t);
    if ty == Checkbox then Str(if Truthy(v) then "Enabled" else "Disabled")
    else if ty == Date && v.Str? && IsIsoDate(v.s) then v
    else if Truthy(v) then v
    else Str("N/A")
  }

  /** The date branch changes nothing: a date field displays exactly what
      a text field with the same value would. */
  lemma DateBranchRedundant(v: FieldValue)
    ensures DisplayValue(Some(Date), v) == DisplayValue(Some(Text), v)
    ensures DisplayValue(None, v) == DisplayValue(Some(Text), v)
  {
  }

  /** What is displayed is never empty text. */
  lemma DisplayNeverBlank(t: Option<FieldType>, v: FieldValue)
    ensures DisplayValue(t, v) != Str("")
  {
  }
}
