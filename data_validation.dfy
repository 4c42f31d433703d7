/** The rules of `validateContentData`, which both store adapters implement
    with the same loop: for each declared field in order, a required-value
    check that short-circuits, a type check for email, url and number fields,
    and min/max length checks. The adapters differ only in what "length"
    means, which is the `LengthRule` parameter here. */
module DataValidation {
  import opened Common
  import opened ContentTypes

  /** `value.length` (the runner) or `value.toString().length` (the repository). */
  datatype LengthRule = ValueLength | StringLength

  datatype ValidationReport = ValidationReport(valid: bool, errors: seq<string>)

  function LengthOf(v: Value, rule: LengthRule): Option<int> {
    match rule
    case ValueLength => LengthMember(v)
    case StringLength => Some(Utf16Length(ToJsString(v)))
  }

  /** `data[key]`, with `None` for `undefined`. */
  function Lookup(data: map<string, Value>, key: string): Option<Value> {
    if key in data then Some(data[key]) else None
  }

  /** `value === undefined || value === null`. */
  predicate IsMissing(v: Option<Value>) {
    v.None? || v.value == Null
  }

  /** `value === undefined || value === null || value === ''`. */
  predicate IsBlank(v: Option<Value>) {
    IsMissing(v) || v.value == Str("")
  }

  /** A numeric bound is applied only when it is truthy: present and not 0. */
  predicate BoundSet(b: Option<int>) {
    b.Some? && b.value != 0
  }

  function RequiredMessage(name: string): string {
    "Field '" + name + "' is required"
  }

  function EmailMessage(name: string): string {
    "Field '" + name + "' must be a valid email"
  }

  function UrlMessage(name: string): string {
    "Field '" + name + "' must be a valid URL"
  }

  function NumberMessage(name: string): string {
    "Field '" + name + "' must be a number"
  }

  function MinMessage(name: string, min: int): string {
    "Field '" + name + "' must be at least " + IntToDecimal(min) + " characters"
  }

  function MaxMessage(name: string, max: int): string {
    "Field '" + name + "' must be at most " + IntToDecimal(max) + " characters"
  }

  /** The `switch (field.type)` of the loop body, on a present value. */
  function TypeErrors(f: ContentField, v: Value, host: Host): seq<string> {
    match f.fieldType
    case Email => if host.isEmail(ToJsString(v)) then [] else [EmailMessage(f.name)]
    case Url => if host.isUrl(ToJsString(v)) then [] else [UrlMessage(f.name)]
    case Number => if host.toNumber(v) == NaN then [NumberMessage(f.name)] else []
    case _ => []
  }

  /** The two length checks on a present value. A length that is `undefined`
      fails neither comparison. */
  function LengthErrors(f: ContentField, v: Value, rule: LengthRule): seq<string> {
    var len := LengthOf(v, rule);
    var min := f.validation.min;
    var max := f.validation.max;
    (if BoundSet(min) && len.Some? && len.value < min.value then [MinMessage(f.name, min.value)] else []) +
    (if BoundSet(max) && len.Some? && len.value > max.value then [MaxMessage(f.name, max.value)] else [])
  }

  /** The errors one field contributes. */
  function FieldErrors(f: ContentField, data: map<string, Value>, host: Host, rule: LengthRule): seq<string> {
    var v := Lookup(data, f.name);
    if f.validation.required && IsBlank(v) then [RequiredMessage(f.name)]
    else if IsMissing(v) then []
    else TypeErrors(f, v.value, host) + LengthErrors(f, v.value, rule)
  }

  /** The errors of the whole field list, in declaration order. */
  function DataErrors(fields: seq<ContentField>, data: map<string, Value>, host: Host, rule: LengthRule): seq<string> {
    FlatMap(fields, f => FieldErrors(f, data, host, rule))
  }

  /** The body of the adapters' loop for one field: the required check, which
      skips the rest, the type switch, then the two length checks. */
  method CheckField(field: ContentField, data: map<string, Value>, host: Host, rule: LengthRule) returns (fieldErrors: seq<string>)
    ensures fieldErrors == FieldErrors(field, data, host, rule)
  {
    var value := Lookup(data, field.name);
    fieldErrors := [];
    if field.validation.required && IsBlank(value) {
      return [RequiredMessage(field.name)];
    }
    if IsMissing(value) {
      return [];
    }
    var v := value.value;
    fieldErrors := CheckType(field, v, host);
    var len := LengthOf(v, rule);
    if BoundSet(field.validation.min) && len.Some? && len.value < field.validation.min.value {
      fieldErrors := fieldErrors + [MinMessage(field.name, field.validation.min.value)];
    }
    if BoundSet(field.validation.max) && len.Some? && len.value > field.validation.max.value {
      fieldErrors := fieldErrors + [MaxMessage(field.name, field.validation.max.value)];
    }
  }

  /** The `switch (field.type)` of the loop body. */
  method CheckType(field: ContentField, v: Value, host: Host) returns (typeErrors: seq<string>)
    ensures typeErrors == TypeErrors(field, v, host)
    ensures |typeErrors| <= 1
    ensures !(field.fieldType.Email? || field.fieldType.Url? || field.fieldType.Number?) ==> typeErrors == []
    ensures field.fieldType.Email? ==> (typeErrors == [] <==> host.isEmail(ToJsString(v)))
                                       && (typeErrors != [] ==> typeErrors == [EmailMessage(field.name)])
    ensures field.fieldType.Url? ==> (typeErrors == [] <==> host.isUrl(ToJsString(v)))
                                     && (typeErrors != [] ==> typeErrors == [UrlMessage(field.name)])
    ensures field.fieldType.Number? ==> (typeErrors == [] <==> host.toNumber(v) != NaN)
                                        && (typeErrors != [] ==> typeErrors == [NumberMessage(field.name)])
  {
    typeErrors := [];
    match field.fieldType {
      case Email =>
        if !host.isEmail(ToJsString(v)) { typeErrors := typeErrors + [EmailMessage(field.name)]; }
      case Url =>
        if !host.isUrl(ToJsString(v)) { typeErrors := typeErrors + [UrlMessage(field.name)]; }
      case Number =>
        if host.toNumber(v) == NaN { typeErrors := typeErrors + [NumberMessage(field.name)]; }
      case _ =>
    }
  }

  // ---------------------------------------------------------------------------
  // Properties

  lemma DataErrorsSnoc(s: seq<ContentField>, f: ContentField, data: map<string, Value>, host: Host, rule: LengthRule)
    ensures DataErrors(s + [f], data, host, rule) == DataErrors(s, data, host, rule) + FieldErrors(f, data, host, rule)
  {
    FlatMapSnoc(s, f, g => FieldErrors(g, data, host, rule));
  }

  /** Errors are collected field by field: the errors of a concatenation are
      the concatenation of the errors. */
  lemma DataErrorsAppend(a: seq<ContentField>, b: seq<ContentField>, data: map<string, Value>, host: Host, rule: LengthRule)
    ensures DataErrors(a + b, data, host, rule) == DataErrors(a, data, host, rule) + DataErrors(b, data, host, rule)
  {
    FlatMapAppend(a, b, g => FieldErrors(g, data, host, rule));
  }

  /** The data is valid exactly when no field contributes an error. */
  lemma DataErrorsEmptyIff(fields: seq<ContentField>, data: map<string, Value>, host: Host, rule: LengthRule)
    ensures DataErrors(fields, data, host, rule) == [] <==>
            forall i :: 0 <= i < |fields| ==> FieldErrors(fields[i], data, host, rule) == []
  {
    FlatMapEmptyIff(fields, g => FieldErrors(g, data, host, rule));
  }

  /** A required field whose value is undefined, null or '' yields exactly one
      error, the "is required" message, and no further check runs on it. */
  lemma RequiredBlankGivesOneError(f: ContentField, data: map<string, Value>, host: Host, rule: LengthRule)
    requires f.validation.required && IsBlank(Lookup(data, f.name))
    ensures FieldErrors(f, data, host, rule) == [RequiredMessage(f.name)]
  {
  }

  /** An absent or null value of a field that is not required yields no error. */
  lemma MissingOptionalGivesNoError(f: ContentField, data: map<string, Value>, host: Host, rule: LengthRule)
    requires !f.validation.required && IsMissing(Lookup(data, f.name))
    ensures FieldErrors(f, data, host, rule) == []
  {
  }

  /** The required message of a blank required field appears among the errors
      of any field list containing that field. */
  lemma RequiredBlankReported(fields: seq<ContentField>, i: int, data: map<string, Value>, host: Host, rule: LengthRule)
    requires 0 <= i < |fields|
    requires fields[i].validation.required && IsBlank(Lookup(data, fields[i].name))
    ensures RequiredMessage(fields[i].name) in DataErrors(fields, data, host, rule)
  {
    var before := fields[..i];
    var rest := fields[i + 1..];
    assert fields == before + [fields[i]] + rest;
    DataErrorsAppend(before + [fields[i]], rest, data, host, rule);
    DataErrorsAppend(before, [fields[i]], data, host, rule);
    assert DataErrors([fields[i]], data, host, rule) == [RequiredMessage(fields[i].name)];
  }

  /** A bound of 0 is falsy and is never applied. */
  lemma ZeroBoundsIgnored(f: ContentField, v: Value, rule: LengthRule)
    requires f.validation.min == Some(0) || f.validation.min.None?
    requires f.validation.max == Some(0) || f.validation.max.None?
    ensures LengthErrors(f, v, rule) == []
  {
  }

  /** On string values the two length rules coincide. */
  lemma {:induction false} RulesAgreeOnStrings(fields: seq<ContentField>, data: map<string, Value>, host: Host)
    requires forall k :: k in data ==> data[k].Str?
    ensures DataErrors(fields, data, host, ValueLength) == DataErrors(fields, data, host, StringLength)
  {
    if |fields| > 0 {
      RulesAgreeOnStrings(fields[..|fields| - 1], data, host);
      var f := fields[|fields| - 1];
      var v := Lookup(data, f.name);
      if v.Some? {
        assert LengthOf(v.value, ValueLength) == LengthOf(v.value, StringLength);
      }
    }
  }

  /** A text field `zip` with `min: 6`. */
  const ZipField := ContentField("zip", Text, None, None, NoValidation.(min := Some(6)), None, None, None, None, None, None)

  /** The string form of 12345 has five code units. */
  lemma ZipDigitsLength()
    ensures LengthOf(Num(12345), StringLength) == Some(5)
  {
    assert NatToDecimal(1) == "1";
    assert NatToDecimal(12) == "12";
    assert NatToDecimal(123) == "123";
    assert NatToDecimal(1234) == "1234";
    assert NatToDecimal(12345) == "12345";
    BmpLengthIsCharCount("12345");
  }

  /** On other values they differ: a text field with `min: 6` holding the
      number 12345 passes the runner's rule (a number has no `length`) and
      fails the repository's (its string form has 5 characters). */
  lemma RulesDifferOnNumbers(host: Host)
    ensures DataErrors([ZipField], map["zip" := Num(12345)], host, ValueLength) == []
    ensures DataErrors([ZipField], map["zip" := Num(12345)], host, StringLength) == [MinMessage("zip", 6)]
  {
    var data := map["zip" := Num(12345)];
    ZipDigitsLength();
    assert FieldErrors(ZipField, data, host, ValueLength) == [];
    assert FieldErrors(ZipField, data, host, StringLength) == [MinMessage("zip", 6)];
    assert [] + [ZipField] == [ZipField];
    DataErrorsSnoc([], ZipField, data, host, ValueLength);
    DataErrorsSnoc([], ZipField, data, host, StringLength);
  }

  /** A text field `mark` with `max: 1`. */
  const MarkField := ContentField("mark", Text, None, None, NoValidation.(max := Some(1)), None, None, None, None, None, None)

  /** Lengths are UTF-16 code units: one emoji exceeds `max: 1` under both
      rules. */
  lemma AstralCharExceedsMaxOne(host: Host, rule: LengthRule)
    ensures DataErrors([MarkField], map["mark" := Str("\U{1F600}")], host, rule) == [MaxMessage("mark", 1)]
  {
    var data := map["mark" := Str("\U{1F600}")];
    MarkFieldErrors(host, rule);
    assert [] + [MarkField] == [MarkField];
    DataErrorsSnoc([], MarkField, data, host, rule);
  }

  lemma MarkFieldErrors(host: Host, rule: LengthRule)
    ensures FieldErrors(MarkField, map["mark" := Str("\U{1F600}")], host, rule) == [MaxMessage("mark", 1)]
  {
    var v := Str("\U{1F600}");
    AstralCharCountsTwice();
    assert LengthOf(v, rule) == Some(2);
    assert TypeErrors(MarkField, v, host) == [];
    assert LengthErrors(MarkField, v, rule) == [MaxMessage("mark", 1)];
  }
}
