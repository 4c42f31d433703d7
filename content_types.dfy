/** The entities of the content engine (fields, models, items) and the
    JavaScript value semantics the engine relies on: truthiness, `String(v)`
    and `v.length`. */
module ContentTypes {
  import opened Common

  /** The catalogue of field types a content model may declare. */
  datatype FieldType =
    | Text | RichText | Number | Boolean | Date | DateTime | Email | Url | Slug
    | Json | Reference | Media | Select | MultiSelect | Array

  datatype Status = Draft | Published | Archived

  datatype ReferenceKind = One | Many

  /** A JSON-like payload value. An absent key of a data record stands for
      `undefined`. Numbers are integers or NaN: fractional and infinite numbers
      are not modelled. */
  datatype Value =
    | Null
    | Bool(b: bool)
    | Num(n: int)
    | NaN
    | Str(s: string)
    | Arr(elems: seq<Value>)
    | Obj(members: map<string, Value>)

  /** JavaScript truthiness of a value. */
  predicate IsTruthy(v: Value) {
    match v
    case Null => false
    case Bool(b) => b
    case Num(n) => n != 0
    case NaN => false
    case Str(s) => s != ""
    case Arr(_) => true
    case Obj(_) => true
  }

  /** Truthiness of `data[key]`, where a missing key reads as `undefined`. */
  predicate PresentAndTruthy(data: map<string, Value>, key: string) {
    key in data && IsTruthy(data[key])
  }

  /** `String(v)`, which is also what `v.toString()` returns here. Arrays join
      their elements with commas, writing null elements as empty strings. */
  function ToJsString(v: Value): string
    decreases v, 1
  {
    match v
    case Null => "null"
    case Bool(b) => if b then "true" else "false"
    case Num(n) => IntToDecimal(n)
    case NaN => "NaN"
    case Str(s) => s
    case Arr(a) => JoinElements(v, a)
    case Obj(_) => "[object Object]"
  }

  function JoinElements(ghost whole: Value, a: seq<Value>): string
    requires forall x :: x in a ==> x < whole
    decreases whole, 0, |a|
  {
    if |a| == 0 then ""
    else
      assert a[0] in a;
      assert forall x :: x in a[1..] ==> x in a;
      var head := if a[0] == Null then "" else ToJsString(a[0]);
      if |a| == 1 then head else head + "," + JoinElements(whole, a[1..])
  }

  /** `s.length`: JavaScript counts UTF-16 code units, so a character
      outside the Basic Multilingual Plane counts as two. */
  function Utf16Length(s: string): (n: nat)
    ensures |s| <= n <= 2 * |s|
  {
    if |s| == 0 then 0
    else (if s[0] as int >= 0x1_0000 then 2 else 1) + Utf16Length(s[1..])
  }

  /** Within the Basic Multilingual Plane the length is the number of
      characters. */
  lemma {:induction false} BmpLengthIsCharCount(s: string)
    requires forall i :: 0 <= i < |s| ==> s[i] as int < 0x1_0000
    ensures Utf16Length(s) == |s|
  {
    if |s| > 0 {
      assert forall i :: 0 <= i < |s[1..]| ==> s[1..][i] == s[i + 1];
      BmpLengthIsCharCount(s[1..]);
    }
  }

  /** One emoji is one character and two code units. */
  lemma AstralCharCountsTwice()
    ensures |"\U{1F600}"| == 1 && Utf16Length("\U{1F600}") == 2
  {
  }

  /** `v.length`: defined for strings and arrays (and objects that carry a
      numeric `length` member); `undefined` otherwise, which no comparison
      satisfies. */
  function LengthMember(v: Value): Option<int> {
    match v
    case Str(s) => Some(Utf16Length(s))
    case Arr(a) => Some(|a|)
    case Obj(m) => if "length" in m && m["length"].Num? then Some(m["length"].n) else None
    case _ => None
  }

  // ---------------------------------------------------------------------------
  // Field definitions

  datatype FieldValidation = FieldValidation(
    required: bool,
    min: Option<int>,
    max: Option<int>,
    pattern: Option<string>,
    unique: bool,
    enumValues: Option<seq<string>>)

  const NoValidation := FieldValidation(false, None, None, None, false, None)

  datatype SelectOption = SelectOption(labelText: string, value: string)

  datatype ContentField = ContentField(
    name: string,
    fieldType: FieldType,
    labelText: Option<string>,  // `label`, a reserved word in Dafny
    description: Option<string>,
    validation: FieldValidation,
    defaultValue: Option<Value>,
    referenceTo: Option<string>,
    referenceType: Option<ReferenceKind>,
    options: Option<seq<SelectOption>>,
    arrayOf: Option<FieldType>,
    arrayReferenceTo: Option<string>)

  /** `field.defaultValue ?? null`. */
  function DefaultOf(f: ContentField): Value {
    match f.defaultValue
    case Some(v) => v
    case None => Null
  }

  /** Model settings as stored: each key of the JSON object may be missing. */
  datatype ModelSettings = ModelSettings(
    singleton: Option<bool>,
    drafts: Option<bool>,
    versioning: Option<bool>,
    timestamps: Option<bool>,
    slugField: Option<string>)

  datatype ContentModel = ContentModel(
    id: string,
    name: string,
    slug: string,
    displayName: string,
    description: Option<string>,
    fields: seq<ContentField>,
    settings: ModelSettings,
    createdAt: string,
    updatedAt: string)

  datatype ContentItem = ContentItem(
    id: string,
    modelId: string,
    modelSlug: string,
    slug: Option<string>,
    status: Status,
    publishedAt: Option<string>,
    data: map<string, Value>,
    authorId: string,
    version: int,
    createdAt: string,
    updatedAt: string)

  /** `new Date().toISOString()`: never the empty string. */
  type Timestamp = s: string | |s| > 0 witness "1970-01-01T00:00:00.000Z"

  /** The runtime operations the engine calls but that this model does not
      define: floating-point coercion, date parsing, JSON parsing, the email
      regular expression, URL parsing and SQL `LIKE` matching. */
  datatype Host = Host(
    toNumber: Value -> Value,           // Number(v): Num or NaN
    toIsoDate: Value -> Option<string>, // new Date(v).toISOString(); None when it throws
    parseJson: string -> Option<Value>, // JSON.parse(s); None when it throws
    isEmail: string -> bool,            // the local@domain.tld regular expression
    isUrl: string -> bool,              // new URL(s) does not throw
    likeMatch: (ContentItem, string) -> bool) // data LIKE %term% OR slug LIKE %term%

  function ModelIdOf(m: ContentModel): string { m.id }
  function ItemIdOf(x: ContentItem): string { x.id }
}
