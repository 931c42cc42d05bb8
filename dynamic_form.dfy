/** The schema-driven input form (src/components/DynamicForm.tsx): projecting
    an input schema onto an ordered list of form fields, seeding initial
    values, converting what the user types into values, and the
    required-field check on submit. */
module Form {
  import opened Json
  import opened Text
  import opened Apify

  /** One form field, projected from one schema property. Every attribute
      keeps the JSON value it was read from (`kind` is the property's
      `type`, whatever JSON value that is). */
  datatype FormField = FormField(
    key: string,
    kind: Json,
    title: Json,
    description: Option<Json>,
    required: bool,
    default: Option<Json>,
    enum: Option<Json>,
    format: Option<Json>)

  /** What the effect that watches the schema ends in: no usable
      `properties` (fields cleared, form data left alone), a projected field
      list, or a TypeError thrown while projecting. */
  datatype Projection = NoProperties | Fields(fields: seq<FormField>) | TypeError

  /** `Object.entries(v)`: an object's own members in order; an array's or a
      string's elements keyed by their decimal index; nothing for other
      values. */
  function Entries(v: Json): (es: seq<(string, Json)>)
    ensures v.JObj? ==> es == v.members
    ensures v.JArr? ==> |es| == |v.items| && forall i :: 0 <= i < |es| ==> es[i] == (NatToString(i), v.items[i])
    ensures v.JStr? ==> |es| == |v.s| && forall i :: 0 <= i < |es| ==> es[i] == (NatToString(i), JStr([v.s[i]]))
    ensures !v.JObj? && !v.JArr? && !v.JStr? ==> es == []
  {
    match v
    case JObj(ms) => ms
    case JArr(items) => seq(|items|, i requires 0 <= i < |items| => (NatToString(i), items[i]))
    case JStr(s) => seq(|s|, i requires 0 <= i < |s| => (NatToString(i), JStr([s[i]])))
    case _ => []
  }

  /** Entry keys are distinct: an object's by the uniqueness of property
      names, an array's and a string's because they are distinct indices. */
  lemma EntriesDistinct(v: Json)
    requires v.JObj? ==> DistinctKeys(v.members)
    ensures DistinctKeys(Entries(v))
  {
    var es := Entries(v);
    if v.JArr? || v.JStr? {
      forall i, j | 0 <= i < j < |es| ensures es[i].0 != es[j].0 {
        if es[i].0 == es[j].0 {
          NatToStringInjective(i, j);
        }
      }
    }
  }

  /** `schema.required?.includes(key) || false`. An absent or null list is
      "not required"; an array is searched for the key; a string is searched
      for the key as a substring (String.prototype.includes); any other value
      has no `includes` method, so the call throws (`None`). */
  function RequiredIncludes(required: Option<Json>, key: string): (r: Option<bool>)
    ensures required.Some? && required.value.JArr? ==> r == Some(JStr(key) in required.value.items)
    ensures required.None? || required == Some(JNull) ==> r == Some(false)
    ensures r.None? <==> required.Some? && !(required.value.JNull? || required.value.JArr? || required.value.JStr?)
  {
    match required
    case None => Some(false)
    case Some(JNull) => Some(false)
    case Some(JArr(items)) => Some(JStr(key) in items)
    case Some(JStr(s)) => Some(Contains(s, key))
    case Some(_) => None
  }

  /** Reading `property.type` on a null property throws; every other
      property value, and a `required` value that has `includes`, projects. */
  predicate Projectable(key: string, property: Json, required: Option<Json>) {
    property != JNull && RequiredIncludes(required, key).Some?
  }

  /** The field for one `[key, property]` entry. */
  function FieldOf(key: string, property: Json, required: Option<Json>): (f: FormField)
    requires Projectable(key, property, required)
    ensures f.key == key
    ensures f.required == RequiredIncludes(required, key).value
    ensures f.default == Member(property, "default")
  {
    FormField(
      key,
      Or(Member(property, "type"), JStr("string")),
      Or(Member(property, "title"), JStr(key)),
      Member(property, "description"),
      RequiredIncludes(required, key).value,
      Member(property, "default"),
      Member(property, "enum"),
      Member(property, "format"))
  }

  /** The `map` over the entries: one field per entry, in entry order, or
      the TypeError of the first entry that cannot be projected. */
  function Project(es: seq<(string, Json)>, required: Option<Json>): (r: Option<seq<FormField>>)
    ensures r.Some? <==> forall i :: 0 <= i < |es| ==> Projectable(es[i].0, es[i].1, required)
    ensures r.Some? ==> |r.value| == |es|
    ensures r.Some? ==> forall i :: 0 <= i < |es| ==> r.value[i] == FieldOf(es[i].0, es[i].1, required)
  {
    if es == [] then Some([])
    else if !Projectable(es[0].0, es[0].1, required) then None
    else
      match Project(es[1..], required)
      case None => None
      case Some(rest) => Some([FieldOf(es[0].0, es[0].1, required)] + rest)
  }

  /** The projection performed by the effect on `[schema]`. */
  function ToFields(schema: Option<Json>): (p: Projection)
    ensures !Defined(schema) ==> p == NoProperties
    ensures p == NoProperties <==> !Defined(schema) || !Defined(Member(schema.value, "properties"))
  {
    if !Defined(schema) then NoProperties
    else
      var props := Member(schema.value, "properties");
      if !Defined(props) then NoProperties
      else
        match Project(Entries(props.value), Member(schema.value, "required"))
        case None => TypeError
        case Some(fs) => Fields(fs)
  }

  /** Exactly one field per schema property, in property order, with the key
      copied, the type defaulting to 'string', the title defaulting to the
      key, and `required` set exactly when the key is listed in an array
      `required`. */
  lemma ToFieldsShape(schema: Json, props: seq<(string, Json)>, i: int)
    requires Truthy(schema) && Member(schema, "properties") == Some(JObj(props))
    requires ToFields(Some(schema)).Fields?
    requires 0 <= i < |props|
    ensures var fs := ToFields(Some(schema)).fields;
      && |fs| == |props|
      && fs[i].key == props[i].0
      && fs[i].kind == (if Defined(Member(props[i].1, "type")) then Member(props[i].1, "type").value else JStr("string"))
      && fs[i].title == (if Defined(Member(props[i].1, "title")) then Member(props[i].1, "title").value else JStr(props[i].0))
      && (Member(schema, "required").Some? && Member(schema, "required").value.JArr? ==>
            (fs[i].required <==> JStr(props[i].0) in Member(schema, "required").value.items))
      && (Member(schema, "required").None? ==> !fs[i].required)
  {
  }

  /** The projection throws exactly when some property value is null, or
      when there is at least one property and `required` is a value without
      an `includes` method. */
  lemma ToFieldsThrows(schema: Json, props: seq<(string, Json)>)
    requires Truthy(schema) && Member(schema, "properties") == Some(JObj(props))
    ensures var req := Member(schema, "required");
      ToFields(Some(schema)) == TypeError <==>
        (exists i :: 0 <= i < |props| && props[i].1 == JNull)
        || (props != [] && RequiredIncludes(req, props[0].0).None?)
  {
    var req := Member(schema, "required");
    if props != [] && RequiredIncludes(req, props[0].0).None? {
      assert !Projectable(props[0].0, props[0].1, req);
    }
    if exists i :: 0 <= i < |props| && props[i].1 == JNull {
      var i :| 0 <= i < |props| && props[i].1 == JNull;
      assert !Projectable(props[i].0, props[i].1, req);
    }
    if props != [] && RequiredIncludes(req, props[0].0).Some? {
      forall i | 0 <= i < |props| ensures RequiredIncludes(req, props[i].0).Some? {
      }
    }
  }

  predicate DistinctFieldKeys(fields: seq<FormField>) {
    forall i, j :: 0 <= i < j < |fields| ==> fields[i].key != fields[j].key
  }

  /** Object property names are unique, so the projected fields have
      distinct keys. */
  lemma ProjectedKeysDistinct(es: seq<(string, Json)>, required: Option<Json>)
    requires DistinctKeys(es)
    requires Project(es, required).Some?
    ensures DistinctFieldKeys(Project(es, required).value)
  {
  }

  // ---------------------------------------------------------------------
  // initial values

  const ExampleUrl: string := "https://example.com"

  /** The value the effect seeds for one field, if any: an explicit default
      wins (even a null one); otherwise a required field gets an empty value
      of its type (a one-URL list for `startUrls`), and a required field of
      any other type, or a field that is not required, gets nothing. */
  function InitialValue(f: FormField): (v: Option<Json>)
    ensures f.default.Some? ==> v == f.default
    ensures f.default.None? ==>
      (v.Some? <==> f.required && f.kind in {JStr("array"), JStr("string"), JStr("boolean"), JStr("number"), JStr("integer")})
    ensures f.default.None? && v.Some? ==> (Truthy(v.value) <==> f.kind == JStr("array"))
    ensures f.default.None? && v.Some? && f.kind == JStr("string") ==> v.value == JStr("")
    ensures f.default.None? && v.Some? && f.kind == JStr("boolean") ==> v.value == JBool(false)
    ensures f.default.None? && v.Some? && f.kind in {JStr("number"), JStr("integer")} ==> v.value == JNum(0.0)
    ensures f.default.None? && v.Some? && f.kind == JStr("array") ==>
      v.value.JArr? && v.value.items == (if f.key == "startUrls" then [StartUrl(ExampleUrl)] else [])
  {
    if f.default.Some? then f.default
    else if !f.required then None
    else if f.kind == JStr("array") then
      Some(if f.key == "startUrls" then JArr([StartUrl(ExampleUrl)]) else JArr([]))
    else if f.kind == JStr("string") then Some(JStr(""))
    else if f.kind == JStr("boolean") then Some(JBool(false))
    else if f.kind == JStr("number") || f.kind == JStr("integer") then Some(JNum(0.0))
    else None
  }

  /** `data` maps `keys[..i]` to the values `vals[..i]`, each key once,
      and holds no other key. */
  ghost predicate SeededUpTo(keys: seq<string>, vals: seq<Option<Json>>, i: int, data: seq<(string, Json)>)
    requires |keys| == |vals| && 0 <= i <= |keys|
  {
    && DistinctKeys(data)
    && (forall j :: 0 <= j < i ==> Get(data, keys[j]) == vals[j])
    && (forall j :: i <= j < |keys| ==> keys[j] !in Keys(data))
    && (forall k :: k in Keys(data) ==> k in keys[..i])
  }

  /** Storing the next value, if there is one, keeps the seeding invariant. */
  lemma SeedStep(keys: seq<string>, vals: seq<Option<Json>>, i: int, data: seq<(string, Json)>)
    requires |keys| == |vals| && 0 <= i < |keys|
    requires forall j, l :: 0 <= j < l < |keys| ==> keys[j] != keys[l]
    requires SeededUpTo(keys, vals, i, data)
    ensures SeededUpTo(keys, vals, i + 1, if vals[i].Some? then Set(data, keys[i], vals[i].value) else data)
  {
    assert keys[..i + 1] == keys[..i] + [keys[i]];
    if vals[i].Some? {
      var data' := Set(data, keys[i], vals[i].value);
      SetKeepsDistinct(data, keys[i], vals[i].value);
      forall j | 0 <= j < i + 1
        ensures Get(data', keys[j]) == vals[j]
      {
        GetSet(data, keys[i], vals[i].value, keys[j]);
      }
    }
  }

  /** The `forEach` that fills `defaultData`: every field reads its initial
      value, no other key is set, and no key is set twice. */
  method SeedDefaults(fields: seq<FormField>) returns (data: seq<(string, Json)>)
    requires DistinctFieldKeys(fields)
    ensures DistinctKeys(data)
    ensures forall i :: 0 <= i < |fields| ==> Get(data, fields[i].key) == InitialValue(fields[i])
    ensures forall k :: k in Keys(data) ==> exists i :: 0 <= i < |fields| && fields[i].key == k
  {
    ghost var keys := seq(|fields|, j requires 0 <= j < |fields| => fields[j].key);
    ghost var vals := seq(|fields|, j requires 0 <= j < |fields| => InitialValue(fields[j]));
    data := [];
    for i := 0 to |fields|
      invariant SeededUpTo(keys, vals, i, data)
    {
      var f := fields[i];
      var value: Option<Json> := None;
      if f.default.Some? {
        value := f.default;
      } else if f.required {
        if f.kind == JStr("array") {
          if f.key == "startUrls" {
            value := Some(JArr([StartUrl(ExampleUrl)]));
          } else {
            value := Some(JArr([]));
          }
        } else if f.kind == JStr("string") {
          value := Some(JStr(""));
        } else if f.kind == JStr("boolean") {
          value := Some(JBool(false));
        } else if f.kind == JStr("number") || f.kind == JStr("integer") {
          value := Some(JNum(0.0));
        }
      }
      assert value == vals[i];
      SeedStep(keys, vals, i, data);
      if value.Some? {
        data := Set(data, f.key, value.value);
      }
    }
    assert keys[..|fields|] == keys;
    forall i | 0 <= i < |fields|
      ensures Get(data, fields[i].key) == InitialValue(fields[i])
    {
      assert keys[i] == fields[i].key && vals[i] == InitialValue(fields[i]);
    }
    forall k | k in Keys(data)
      ensures exists i :: 0 <= i < |fields| && fields[i].key == k
    {
      var i :| 0 <= i < |keys| && keys[i] == k;
      assert fields[i].key == k;
    }
  }

  // ---------------------------------------------------------------------
  // the required check on submit

  /** `!formData[key] || formData[key] === ''` for a required field. */
  predicate IsMissing(f: FormField, data: seq<(string, Json)>) {
    f.required && (!Defined(Get(data, f.key)) || Get(data, f.key) == Some(JStr("")))
  }

  /** The `=== ''` test adds nothing: a field is missing exactly when it is
      required and its value is undefined or falsy, so `false` and `0` count
      as missing. */
  lemma MissingIsFalsy(f: FormField, data: seq<(string, Json)>)
    ensures IsMissing(f, data) <==> f.required && !Defined(Get(data, f.key))
    ensures f.required && Get(data, f.key) in {Some(JBool(false)), Some(JNum(0.0))} ==> IsMissing(f, data)
  {
  }

  /** The `filter` of the fields that block submission, in field order. */
  function MissingRequired(fields: seq<FormField>, data: seq<(string, Json)>): (missing: seq<FormField>)
    ensures |missing| <= |fields|
    ensures forall f :: f in missing <==> f in fields && IsMissing(f, data)
  {
    if fields == [] then []
    else if IsMissing(fields[0], data) then [fields[0]] + MissingRequired(fields[1..], data)
    else MissingRequired(fields[1..], data)
  }

  /** The filter keeps field order: the missing fields of a concatenation
      are those of the first part followed by those of the second. */
  lemma {:induction false} MissingRequiredAppend(xs: seq<FormField>, ys: seq<FormField>, data: seq<(string, Json)>)
    ensures MissingRequired(xs + ys, data) == MissingRequired(xs, data) + MissingRequired(ys, data)
  {
    var zs := xs + ys;
    if xs == [] {
      assert zs == ys;
    } else {
      assert zs[0] == xs[0] && zs[1..] == xs[1..] + ys;
      MissingRequiredAppend(xs[1..], ys, data);
      var head := if IsMissing(xs[0], data) then [xs[0]] else [];
      assert MissingRequired(zs, data) == head + MissingRequired(zs[1..], data);
      assert MissingRequired(xs, data) == head + MissingRequired(xs[1..], data);
    }
  }

  function Titles(fields: seq<FormField>): (ts: seq<Json>)
    ensures |ts| == |fields|
    ensures forall i :: 0 <= i < |fields| ==> ts[i] == fields[i].title
  {
    if fields == [] then [] else [fields[0].title] + Titles(fields[1..])
  }

  /** Straight after seeding, a required field blocks submission exactly
      when its explicit default is falsy, or it has no default and is not an
      array: the seeded `''`, `false` and `0` are all falsy, the seeded `[]`
      is not, and a required object field is never seeded. */
  lemma MissingAfterSeeding(fields: seq<FormField>, data: seq<(string, Json)>, f: FormField)
    requires forall i :: 0 <= i < |fields| ==> Get(data, fields[i].key) == InitialValue(fields[i])
    requires f in fields
    ensures f in MissingRequired(fields, data) <==>
      f.required && (if f.default.Some? then !Truthy(f.default.value) else f.kind != JStr("array"))
  {
    var i :| 0 <= i < |fields| && fields[i] == f;
    assert Get(data, f.key) == InitialValue(f);
  }

  // ---------------------------------------------------------------------
  // converting what the user types

  /** `lines.filter(line => line.trim())`, in order. */
  function NonBlank(lines: seq<string>): (kept: seq<string>)
    ensures |kept| <= |lines|
    ensures forall i :: 0 <= i < |kept| ==> Trim(kept[i]) != "" && kept[i] in lines
    ensures forall l :: l in lines && Trim(l) != "" ==> l in kept
  {
    if lines == [] then []
    else if Trim(lines[0]) != "" then [lines[0]] + NonBlank(lines[1..])
    else NonBlank(lines[1..])
  }

  lemma {:induction false} NonBlankKeepsAll(lines: seq<string>)
    requires forall i :: 0 <= i < |lines| ==> Trim(lines[i]) != ""
    ensures NonBlank(lines) == lines
  {
    if lines != [] {
      NonBlankKeepsAll(lines[1..]);
    }
  }

  /** The lines a textarea for an array field keeps: split on '\n', blank
      lines dropped. */
  function TextLines(text: string): (lines: seq<string>)
    ensures forall i :: 0 <= i < |lines| ==> Trim(lines[i]) != "" && '\n' !in lines[i]
  {
    NonBlank(Split(text, '\n'))
  }

  /** The value an array field takes from its textarea: one entry per
      non-blank line, `{url: line.trim()}` for `startUrls` and the untrimmed
      line for every other array. */
  function ArrayFieldValue(key: string, text: string): (v: Json)
    ensures v.JArr? && |v.items| == |TextLines(text)|
    ensures key == "startUrls" ==> forall i :: 0 <= i < |v.items| ==>
      v.items[i] == StartUrl(Trim(TextLines(text)[i])) && Trim(TextLines(text)[i]) != ""
    ensures key != "startUrls" ==> forall i :: 0 <= i < |v.items| ==> v.items[i] == JStr(TextLines(text)[i])
  {
    var lines := TextLines(text);
    if key == "startUrls" then
      JArr(seq(|lines|, i requires 0 <= i < |lines| => StartUrl(Trim(lines[i]))))
    else
      JArr(seq(|lines|, i requires 0 <= i < |lines| => JStr(lines[i])))
  }

  /** Joining non-blank, newline-free lines and reading them back gives the
      same lines. */
  lemma TextLinesOfJoin(lines: seq<string>)
    requires forall i :: 0 <= i < |lines| ==> Trim(lines[i]) != "" && '\n' !in lines[i]
    ensures TextLines(Join(lines, '\n')) == lines
  {
    if lines == [] {
      assert Split("", '\n') == [""];
    } else {
      SplitJoin(lines, '\n');
      NonBlankKeepsAll(lines);
    }
  }

  /** Editing an array textarea without changing what it shows gives back
      the value it shows: for a list of non-blank, newline-free strings
      displayed one per line, and for a `startUrls` list of trimmed,
      non-empty, newline-free URLs displayed by their `url`. */
  lemma ArrayTextRoundTrip(key: string, lines: seq<string>)
    requires forall i :: 0 <= i < |lines| ==> Trim(lines[i]) != "" && '\n' !in lines[i]
    requires key == "startUrls" ==> forall i :: 0 <= i < |lines| ==> Trim(lines[i]) == lines[i]
    ensures var v := ArrayFieldValue(key, Join(lines, '\n'));
      && v.JArr? && |v.items| == |lines|
      && forall i :: 0 <= i < |lines| ==>
           v.items[i] == if key == "startUrls" then StartUrl(lines[i]) else JStr(lines[i])
  {
    TextLinesOfJoin(lines);
  }

  /** The value an object field takes from its textarea: the parsed text,
      an empty text read as `'{}'`, or the raw text when it does not parse. */
  function ObjectFieldValue(text: string, parse: string -> Option<Json>): (v: Json)
    ensures text != "" && parse(text).Some? ==> v == parse(text).value
    ensures text != "" && parse(text).None? ==> v == JStr(text)
    ensures text == "" && parse("{}").Some? ==> v == parse("{}").value
  {
    var source := if text == "" then "{}" else text;
    match parse(source)
    case Some(parsed) => parsed
    case None => JStr(text)
  }

  /** `parseInt(text) || 0` */
  function IntegerFieldValue(text: string): (v: Json)
    ensures v.JNum? && v.n == v.n.Floor as real
    ensures ParseInt(text).None? ==> v == JNum(0.0)
  {
    match ParseInt(text)
    case None => JNum(0.0)
    case Some(n) => JNum(n as real)
  }

  /** An integer typed in its decimal form is stored as that integer. */
  lemma IntegerFieldRoundTrip(n: nat, neg: bool)
    ensures IntegerFieldValue(if neg then "-" + NatToString(n) else NatToString(n))
            == JNum(if neg then 0.0 - n as real else n as real)
  {
    ParseIntNatToString(n, neg);
  }

  /** `parseFloat(text) || 0`, with parseFloat given (`None` is NaN). */
  function NumberFieldValue(text: string, parseFloat: string -> Option<real>): (v: Json)
    ensures v.JNum?
    ensures parseFloat(text).Some? ==> v == JNum(parseFloat(text).value)
    ensures parseFloat(text).None? ==> v == JNum(0.0)
  {
    match parseFloat(text)
    case None => JNum(0.0)
    case Some(x) => JNum(x)
  }

  /** What a change event carries: the element's `value` and, for a
      checkbox, `checked`. */
  datatype ChangeEvent = ChangeEvent(value: string, checked: bool)

  /** The value `renderField` hands to `handleFieldChange`, by the field's
      type: checkbox, integer, number, array, object; every other type
      (select, URL or text input) stores the text as typed. */
  function ChangedValue(f: FormField, e: ChangeEvent, parse: string -> Option<Json>,
                        parseFloat: string -> Option<real>): (v: Json)
    ensures f.kind == JStr("boolean") ==> v == JBool(e.checked)
    ensures f.kind == JStr("array") ==> v == ArrayFieldValue(f.key, e.value)
    ensures f.kind == JStr("object") ==> v == ObjectFieldValue(e.value, parse)
    ensures f.kind == JStr("integer") ==> v == IntegerFieldValue(e.value)
    ensures f.kind == JStr("number") ==> v == NumberFieldValue(e.value, parseFloat)
    ensures !(f.kind in {JStr("boolean"), JStr("integer"), JStr("number"), JStr("array"), JStr("object")})
            ==> v == JStr(e.value)
  {
    if f.kind == JStr("boolean") then JBool(e.checked)
    else if f.kind == JStr("integer") then IntegerFieldValue(e.value)
    else if f.kind == JStr("number") then NumberFieldValue(e.value, parseFloat)
    else if f.kind == JStr("array") then ArrayFieldValue(f.key, e.value)
    else if f.kind == JStr("object") then ObjectFieldValue(e.value, parse)
    else JStr(e.value)
  }

  // ---------------------------------------------------------------------
  // the component's state

  datatype Submission = Blocked(titles: seq<Json>) | Submitted(data: Json)

  class DynamicForm {
    var formData: seq<(string, Json)>
    var fields: seq<FormField>

    ghost predicate Valid()
      reads this
    {
      DistinctKeys(formData) && DistinctFieldKeys(fields)
    }

    constructor ()
      ensures Valid()
      ensures formData == [] && fields == []
    {
      formData := [];
      fields := [];
    }

    /** The effect on `[schema]`. Without usable properties the field list is
        cleared and the form data kept. A projection that throws raises its
        TypeError out of the effect (`threw`) before any state is set;
        otherwise the fields are replaced and the form data becomes the
        seeded defaults. The schema's property names are unique, as in any
        JavaScript object. */
    method ApplySchema(schema: Option<Json>) returns (threw: bool)
      requires Valid()
      requires (Defined(schema) && Defined(Member(schema.value, "properties"))
                && Member(schema.value, "properties").value.JObj?)
               ==> DistinctKeys(Member(schema.value, "properties").value.members)
      modifies this
      ensures Valid()
      ensures ToFields(schema) == NoProperties ==> fields == [] && formData == old(formData)
      ensures threw <==> ToFields(schema) == TypeError
      ensures threw ==> fields == old(fields) && formData == old(formData)
      ensures ToFields(schema).Fields? ==>
        && fields == ToFields(schema).fields
        && (forall i :: 0 <= i < |fields| ==> Get(formData, fields[i].key) == InitialValue(fields[i]))
        && (forall k :: k in Keys(formData) ==> exists i :: 0 <= i < |fields| && fields[i].key == k)
    {
      var p := ToFields(schema);
      threw := p == TypeError;
      match p
      case NoProperties =>
        fields := [];
      case TypeError =>
      case Fields(fs) =>
        var props := Member(schema.value, "properties").value;
        EntriesDistinct(props);
        ProjectedKeysDistinct(Entries(props), Member(schema.value, "required"));
        fields := fs;
        formData := SeedDefaults(fs);
    }

    /** `handleFieldChange(key, value)`: key `key` now reads `value`; every
        other key reads what it read before; the fields are untouched. */
    method HandleFieldChange(key: string, value: Json)
      requires Valid()
      modifies this`formData
      ensures Valid()
      ensures formData == Set(old(formData), key, value)
      ensures forall k :: Get(formData, k) == if k == key then Some(value) else Get(old(formData), k)
    {
      SetKeepsDistinct(formData, key, value);
      forall k ensures Get(Set(formData, key, value), k) == if k == key then Some(value) else Get(formData, k) {
        GetSet(formData, key, value, k);
      }
      formData := Set(formData, key, value);
    }

    /** A change event on one field's input. */
    method HandleChange(f: FormField, e: ChangeEvent, parse: string -> Option<Json>,
                        parseFloat: string -> Option<real>)
      requires Valid()
      modifies this`formData
      ensures Valid()
      ensures formData == Set(old(formData), f.key, ChangedValue(f, e, parse, parseFloat))
    {
      HandleFieldChange(f.key, ChangedValue(f, e, parse, parseFloat));
    }

    /** `handleSubmit`: blocked, naming the title of every missing required
        field in field order, or the form data submitted as it is. The form
        element is only rendered while there are fields; without any, the
        submit path is HandleSubmitWithoutFields. */
    method HandleSubmit() returns (s: Submission)
      requires fields != []
      ensures s.Blocked? <==> exists f :: f in fields && IsMissing(f, formData)
      ensures s.Blocked? ==> s.titles == Titles(MissingRequired(fields, formData))
      ensures s.Submitted? ==> s.data == JObj(formData)
    {
      var missing := MissingRequired(fields, formData);
      if |missing| > 0 {
        assert missing[0] in missing;
        s := Blocked(Titles(missing));
      } else {
        s := Submitted(JObj(formData));
      }
    }

    /** With no fields the form is replaced by a single button that submits
        an empty object, whatever the form data still holds. */
    method HandleSubmitWithoutFields() returns (s: Submission)
      requires fields == []
      ensures s == Submitted(JObj([]))
    {
      s := Submitted(JObj([]));
    }
  }
}
