/** The translation fields of modeltranslation/fields.py: the descriptors that stand
    for the original field on model instances, the per-language `TranslationField`
    with its equality and hashing, its `save_form_data`, and the supported-field check
    of `create_translation_field`. */
module Fields {
  import opened Common
  import opened Resolver

  /** The marker `NONE`: no fallback value or undefined value was given. */
  datatype Marker = NONE | Given(p: Py)

  /** A model instance: its attributes and the `_mt_init` flag set while its
      constructor runs. */
  class Instance {
    var attrs: map<string, Py>
    var mtInit: bool

    constructor(attrs: map<string, Py>, mtInit: bool)
      ensures this.attrs == attrs && this.mtInit == mtInit
    {
      this.attrs := attrs;
      this.mtInit := mtInit;
    }
  }

  /** `getattr(instance, name, None)`. */
  function Attr(attrs: map<string, Py>, name: string): Py {
    if name in attrs then attrs[name] else PyNone
  }

  /** The values an instance holds for `field` in the languages of `langs`, read from
      the attributes the naming gives, with `suffix` appended ("" for values, "_id" for
      relation ids). */
  function LocalizedValues(attrs: map<string, Py>, loc: Naming, field: string, suffix: string, langs: seq<string>): (r: seq<Py>)
    ensures |r| == |langs|
    ensures forall i :: 0 <= i < |langs| ==> r[i] == Attr(attrs, loc(field, langs[i]) + suffix)
  {
    seq(|langs|, i requires 0 <= i < |langs| => Attr(attrs, loc(field, langs[i]) + suffix))
  }

  /** The position of the first value that differs (by Python's `!=`) from `undefined`. */
  function FirstDefined(vals: seq<Py>, undefined: Py): (r: Option<nat>)
    ensures r.Some? ==> r.value < |vals| && !PyEq(vals[r.value], undefined)
    ensures r.Some? ==> forall j :: 0 <= j < r.value ==> PyEq(vals[j], undefined)
    ensures r.None? ==> forall j :: 0 <= j < |vals| ==> PyEq(vals[j], undefined)
  {
    if vals == [] then None
    else if !PyEq(vals[0], undefined) then Some(0)
    else
      match FirstDefined(vals[1..], undefined)
      case None => None
      case Some(i) => Some(i + 1)
  }

  /** `TranslationFieldDescriptor`: stands for the original field `field` on
      instances, with its fallback options and the field's default. */
  class TranslationFieldDescriptor {
    const field: string
    const fallbackValue: Marker
    const fallbackUndefined: Marker
    const fieldDefault: Py

    constructor(field: string, fallbackValue: Marker, fallbackUndefined: Marker, fieldDefault: Py)
      ensures this.field == field && this.fallbackValue == fallbackValue
      ensures this.fallbackUndefined == fallbackUndefined && this.fieldDefault == fieldDefault
    {
      this.field := field;
      this.fallbackValue := fallbackValue;
      this.fallbackUndefined := fallbackUndefined;
      this.fieldDefault := fieldDefault;
    }

    /** The value that counts as "no translation": `fallback_undefined`, or the field's
        default when none was given. */
    function Undefined(): Py {
      if fallbackUndefined.NONE? then fieldDefault else fallbackUndefined.p
    }

    /** What a read returns when no language has a value. */
    function Exhausted(enableFallbacks: bool): (r: Py)
      ensures enableFallbacks && fallbackValue.Given? ==> r == fallbackValue.p
      ensures !(enableFallbacks && fallbackValue.Given?) ==> r == fieldDefault
    {
      if enableFallbacks && fallbackValue.Given? then fallbackValue.p else fieldDefault
    }

    /** `__set__(instance, value)`: nothing while the instance is being constructed,
        otherwise the active language's localized attribute is set. */
    method Set(instance: Instance, value: Py, loc: Naming, current: string)
      modifies instance
      ensures instance.mtInit == old(instance.mtInit)
      ensures old(instance.mtInit) ==> instance.attrs == old(instance.attrs)
      ensures !old(instance.mtInit) ==> instance.attrs == old(instance.attrs)[loc(field, current) := value]
    {
      if instance.mtInit {
        return;
      }
      instance.attrs := instance.attrs[loc(field, current) := value];
    }

    /** `__get__(instance, owner)` with `langs` the resolution order of the active
        language for this field: the first value, in that order, that is not the
        undefined value; when there is none, the fallback value if fallbacks are enabled
        and one was given, otherwise the field's default. */
    method Get(instance: Instance, loc: Naming, langs: seq<string>, enableFallbacks: bool) returns (v: Py)
      ensures
        var vals := LocalizedValues(instance.attrs, loc, field, "", langs);
        match FirstDefined(vals, Undefined())
        case Some(i) => v == vals[i]
        case None => v == Exhausted(enableFallbacks)
    {
      var default := NONE;
      var undefined := fallbackUndefined;
      if undefined.NONE? {
        default := Given(fieldDefault);
        undefined := default;
      }
      ghost var vals := LocalizedValues(instance.attrs, loc, field, "", langs);
      var i := 0;
      while i < |langs|
        invariant 0 <= i <= |langs|
        invariant undefined == Given(Undefined())
        invariant forall j :: 0 <= j < i ==> PyEq(vals[j], Undefined())
      {
        var val := Attr(instance.attrs, loc(field, langs[i]));
        assert loc(field, langs[i]) + "" == loc(field, langs[i]);
        if !PyEq(val, undefined.p) {
          FirstDefinedAt(vals, Undefined(), i);
          return val;
        }
        i := i + 1;
      }
      FirstDefinedNone(vals, Undefined());
      if enableFallbacks && fallbackValue.Given? {
        return fallbackValue.p;
      }
      if default.NONE? {
        default := Given(fieldDefault);
      }
      v := default.p;
    }
  }

  /** The first defined value is found at the first position whose value differs. */
  lemma {:induction false} FirstDefinedAt(vals: seq<Py>, undefined: Py, i: nat)
    requires i < |vals| && !PyEq(vals[i], undefined)
    requires forall j :: 0 <= j < i ==> PyEq(vals[j], undefined)
    ensures FirstDefined(vals, undefined) == Some(i)
    decreases i
  {
    if i > 0 {
      FirstDefinedAt(vals[1..], undefined, i - 1);
    }
  }

  lemma FirstDefinedNone(vals: seq<Py>, undefined: Py)
    requires forall j :: 0 <= j < |vals| ==> PyEq(vals[j], undefined)
    ensures FirstDefined(vals, undefined) == None
  {
  }

  /** A write outside construction is what a later read in the same language finds
      first, unless it is the undefined value. */
  lemma ReadAfterWrite(d: TranslationFieldDescriptor, attrs: map<string, Py>, loc: Naming, value: Py,
                       current: string, langs: seq<string>)
    requires |langs| > 0 && langs[0] == current && !PyEq(value, d.Undefined())
    ensures
      var vals := LocalizedValues(attrs[loc(d.field, current) := value], loc, d.field, "", langs);
      FirstDefined(vals, d.Undefined()) == Some(0) && vals[0] == value
  {
    var vals := LocalizedValues(attrs[loc(d.field, current) := value], loc, d.field, "", langs);
    assert loc(d.field, current) + "" == loc(d.field, current);
    FirstDefinedAt(vals, d.Undefined(), 0);
  }

  /** `TranslatedRelationIdDescriptor`: stands for the `_id` attribute of the original
      foreign key `field`; a localized foreign key's attribute is its name followed by
      "_id". */
  class TranslatedRelationIdDescriptor {
    const field: string

    constructor(field: string)
      ensures this.field == field
    {
      this.field := field;
    }

    /** `__set__(instance, value)`: only the active language's `_id` attribute is set. */
    method Set(instance: Instance, value: Py, loc: Naming, current: string)
      modifies instance
      ensures instance.mtInit == old(instance.mtInit)
      ensures instance.attrs == old(instance.attrs)[loc(field, current) + "_id" := value]
    {
      instance.attrs := instance.attrs[loc(field, current) + "_id" := value];
    }

    /** `__get__(instance, owner)`: the first `_id` value, in resolution order, that is
        not `None`; `None` when there is none. */
    method Get(instance: Instance, loc: Naming, langs: seq<string>) returns (v: Py)
      ensures
        var vals := LocalizedValues(instance.attrs, loc, field, "_id", langs);
        match FirstDefined(vals, PyNone)
        case Some(i) => v == vals[i] && v != PyNone && forall j :: 0 <= j < i ==> vals[j] == PyNone
        case None => v == PyNone && forall j :: 0 <= j < |vals| ==> vals[j] == PyNone
    {
      ghost var vals := LocalizedValues(instance.attrs, loc, field, "_id", langs);
      var i := 0;
      while i < |langs|
        invariant 0 <= i <= |langs|
        invariant forall j :: 0 <= j < i ==> vals[j] == PyNone
      {
        var val := Attr(instance.attrs, loc(field, langs[i]) + "_id");
        if val != PyNone {
          FirstDefinedAt(vals, PyNone, i);
          return val;
        }
        i := i + 1;
      }
      FirstDefinedNone(vals, PyNone);
      v := PyNone;
    }
  }

  /** A model field as `TranslationField.__eq__` sees it: its creation counter and, for
      a translation field, its language (`getattr(other, 'language', None)`). */
  datatype ModelField = ModelField(creationCounter: int, language: Option<string>)

  /** A `TranslationField` for one language of a translated field: it shares the
      original's creation counter, and its name is the localized name. */
  datatype TranslationField = TranslationField(creationCounter: int, language: string, name: string)

  function AsModelField(f: TranslationField): ModelField {
    ModelField(f.creationCounter, Some(f.language))
  }

  /** `__eq__(other)` for another model field. */
  predicate Eq(f: TranslationField, other: ModelField) {
    f.creationCounter == other.creationCounter && other.language == Some(f.language)
  }

  /** `__ne__(other)`. */
  predicate Ne(f: TranslationField, other: ModelField) {
    !Eq(f, other)
  }

  /** What `__hash__` hashes: the pair (creation counter, language). */
  function HashKey(f: TranslationField): (int, string) {
    (f.creationCounter, f.language)
  }

  /** Equality and hashing agree: two translation fields are equal exactly when their
      hash keys are, so equal fields hash alike, and `__ne__` is the negation. */
  lemma EqualityMatchesHash(a: TranslationField, b: TranslationField)
    ensures Eq(a, AsModelField(b)) <==> HashKey(a) == HashKey(b)
    ensures Eq(a, AsModelField(b)) <==> Eq(b, AsModelField(a))
    ensures Ne(a, AsModelField(b)) <==> HashKey(a) != HashKey(b)
  {
  }

  /** The translation fields of one original field share its creation counter but are
      different fields, one per language; none equals a field without a language. */
  lemma LanguagesTellFieldsApart(a: TranslationField, b: TranslationField, other: ModelField)
    requires a.creationCounter == b.creationCounter && a.language != b.language
    requires other.language.None?
    ensures Ne(a, AsModelField(b)) && Ne(b, AsModelField(a))
    ensures Ne(a, other)
  {
  }

  /** `save_form_data(instance, data)` skips the save for the active language's field
      when the instance already has a value and the form sent none. */
  predicate SkipsSave(f: TranslationField, attrs: map<string, Py>, data: Py, current: string) {
    f.language == current && Truthy(Attr(attrs, f.name)) && !Truthy(data)
  }

  /** `save_form_data(instance, data)`: sets the field's attribute to `data` unless the
      save is skipped. */
  method SaveFormData(f: TranslationField, instance: Instance, data: Py, current: string)
    modifies instance
    ensures instance.mtInit == old(instance.mtInit)
    ensures SkipsSave(f, old(instance.attrs), data, current) ==> instance.attrs == old(instance.attrs)
    ensures !SkipsSave(f, old(instance.attrs), data, current) ==> instance.attrs == old(instance.attrs)[f.name := data]
  {
    if f.language == current && Truthy(Attr(instance.attrs, f.name)) && !Truthy(data) {
      return;
    }
    instance.attrs := instance.attrs[f.name := data];
  }

  /** The case the skip exists for: a form that knows only the original field sets it
      through the descriptor first, then saves the active language's field without a
      value; the value set first is kept. A field of another language is overwritten. */
  lemma FormSaveKeepsTranslatedValue(f: TranslationField, attrs: map<string, Py>, value: Py, data: Py, current: string)
    requires Truthy(value) && !Truthy(data)
    ensures f.language == current ==> SkipsSave(f, attrs[f.name := value], data, current)
    ensures f.language != current ==> !SkipsSave(f, attrs[f.name := value], data, current)
  {
  }

  /** `SUPPORTED_FIELDS`, by class name. */
  const SupportedFields: set<string> := {
    "CharField", "TextField", "IntegerField", "BooleanField", "NullBooleanField", "FloatField",
    "DecimalField", "IPAddressField", "DateField", "DateTimeField", "TimeField", "FileField",
    "ImageField", "ForeignKey", "GenericIPAddressField"}

  /** A model field to be translated: its name, its class's name, the names of all the
      classes it is an instance of, its creation counter and its default value
      (`get_default()`). */
  datatype SourceField = SourceField(name: string, className: string, classes: set<string>,
                                     creationCounter: int, default: Py)

  /** Whether `isinstance(field, SUPPORTED_FIELDS)` or the class name is one of
      `CUSTOM_FIELDS`. */
  predicate Supported(field: SourceField, customFields: set<string>) {
    (exists c :: c in field.classes && c in SupportedFields) || field.className in customFields
  }

  /** `create_translation_field(model, field_name, lang)`: `ImproperlyConfigured` for an
      unsupported field; otherwise the field's translation for `lang`, named by the
      naming and sharing its creation counter. */
  function CreateTranslationField(field: SourceField, lang: string, loc: Naming, customFields: set<string>): (r: Result<TranslationField>)
    ensures r.Failure? <==> !Supported(field, customFields)
    ensures r.Failure? ==> r.error == ImproperlyConfigured(field.className)
    ensures r.Success? ==> r.value.language == lang && r.value.name == loc(field.name, lang)
    ensures r.Success? ==> r.value.creationCounter == field.creationCounter
  {
    if !Supported(field, customFields) then
      Failure(ImproperlyConfigured(field.className))
    else
      Success(TranslationField(field.creationCounter, lang, loc(field.name, lang)))
  }

  /** A subclass of a supported class is accepted (an `EmailField` is a `CharField`);
      a class outside the hierarchy is accepted only when named in `CUSTOM_FIELDS`. */
  lemma SubclassesAccepted(field: SourceField, lang: string, loc: Naming, customFields: set<string>)
    ensures "CharField" in field.classes ==> CreateTranslationField(field, lang, loc, customFields).Success?
    ensures field.classes * SupportedFields == {} ==>
      (CreateTranslationField(field, lang, loc, customFields).Success? <==> field.className in customFields)
  {
    assert "CharField" in SupportedFields;
    if field.classes * SupportedFields == {} {
      assert forall c :: c in field.classes ==> c !in field.classes * SupportedFields;
    }
  }
}
