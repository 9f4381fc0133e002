/** The translator of modeltranslation/translator.py: the registry of translation
    options per model class, their inheritance through the model hierarchy, and what
    `register` does to a model class (localized fields, the patched constructor's
    keyword arguments, descriptors with their fallback values).

    Model classes are numbered; a model's metadata (`_meta`, `__bases__`) is a
    `ModelInfo` value, and the class object that `register` patches is a `ModelClass`. */
module Translator {
  import opened Common
  import opened LookupPath
  import opened Resolver
  import opened Fields

  // ---------------------------------------------------------------------------------
  // Options classes and FieldsAggregationMetaClass

  /** A base of a class being created: one made by `FieldsAggregationMetaClass`, with
      its aggregated `fields`, or any other class. */
  datatype OptionsBase = Aggregating(fields: set<string>) | OtherClass

  /** `FieldsAggregationMetaClass.__new__`: the declared `fields` together with the
      fields of every base made by the metaclass. Other bases contribute nothing. */
  method AggregateFields(declared: seq<string>, bases: seq<OptionsBase>) returns (fields: set<string>)
    ensures forall f :: f in fields <==>
      f in declared || exists i :: 0 <= i < |bases| && bases[i].Aggregating? && f in bases[i].fields
  {
    fields := set f | f in declared;
    var i := 0;
    while i < |bases|
      invariant 0 <= i <= |bases|
      invariant forall f :: f in fields <==>
        f in declared || exists j :: 0 <= j < i && bases[j].Aggregating? && f in bases[j].fields
    {
      if bases[i].Aggregating? {
        fields := fields + bases[i].fields;
      }
      i := i + 1;
    }
  }

  /** The `fallback_values` attribute of an options class: absent or `None`, a dict by
      field name, or one value shared by every field. */
  datatype FallbackValues = Unset | PerField(values: map<string, Py>) | Shared(value: Py)

  /** An options class: its aggregated `fields` and its `fallback_values`. */
  datatype OptionsClass = OptionsClass(fields: set<string>, fallbackValues: FallbackValues)

  /** `TranslationOptions` itself, used for base models and when no class is given. */
  const PlainOptions := OptionsClass({}, Unset)

  /** The four collections an options instance holds. */
  datatype OptionsState = OptionsState(
    fields: set<string>,
    inheritedFields: set<string>,
    localizedFieldnames: map<string, seq<string>>,
    inheritedLocalizedFieldnames: map<string, seq<string>>)

  /** What `__init__` leaves: copies of the class's fields and empty name maps. */
  function Initial(cls: OptionsClass): OptionsState {
    OptionsState(cls.fields, cls.fields, map[], map[])
  }

  /** The fields handled in the model's own table are among all its fields, and so are
      the localized names. */
  predicate Consistent(s: OptionsState) {
    s.fields <= s.inheritedFields && s.localizedFieldnames.Keys <= s.inheritedLocalizedFieldnames.Keys
  }

  /** `TranslationOptions.update(other)` on values: an abstract parent's fields and
      localized names become the model's own; every parent's are inherited. Later
      dictionary entries overwrite earlier ones, as `dict.update` does. */
  function Merged(s: OptionsState, otherAbstract: bool, o: OptionsState): (r: OptionsState)
    ensures r.inheritedFields == s.inheritedFields + o.inheritedFields
    ensures r.inheritedLocalizedFieldnames.Keys == s.inheritedLocalizedFieldnames.Keys + o.inheritedLocalizedFieldnames.Keys
    ensures forall k :: k in o.inheritedLocalizedFieldnames ==>
      r.inheritedLocalizedFieldnames[k] == o.inheritedLocalizedFieldnames[k]
    ensures otherAbstract ==> r.fields == s.fields + o.fields
    ensures !otherAbstract ==> r.fields == s.fields && r.localizedFieldnames == s.localizedFieldnames
  {
    OptionsState(
      if otherAbstract then s.fields + o.fields else s.fields,
      s.inheritedFields + o.inheritedFields,
      if otherAbstract then s.localizedFieldnames + o.localizedFieldnames else s.localizedFieldnames,
      s.inheritedLocalizedFieldnames + o.inheritedLocalizedFieldnames)
  }

  /** Merging the parents in order, first to last. */
  function MergedAll(s: OptionsState, flags: seq<bool>, others: seq<OptionsState>): OptionsState
    requires |flags| == |others|
    decreases |flags|
  {
    if flags == [] then s
    else Merged(MergedAll(s, flags[..|flags| - 1], others[..|others| - 1]), flags[|flags| - 1], others[|others| - 1])
  }

  /** Merging keeps an options instance consistent when the parent is. */
  lemma MergedConsistent(s: OptionsState, otherAbstract: bool, o: OptionsState)
    requires Consistent(s) && Consistent(o)
    ensures Consistent(Merged(s, otherAbstract, o))
  {
  }

  /** A concrete parent's fields are never the model's own, only inherited. */
  lemma {:induction false} ConcreteParentsOnlyInherited(s: OptionsState, flags: seq<bool>, others: seq<OptionsState>)
    requires |flags| == |others|
    requires forall i :: 0 <= i < |flags| ==> !flags[i]
    ensures MergedAll(s, flags, others).fields == s.fields
    ensures MergedAll(s, flags, others).localizedFieldnames == s.localizedFieldnames
    ensures forall i :: 0 <= i < |others| ==> others[i].inheritedFields <= MergedAll(s, flags, others).inheritedFields
    decreases |flags|
  {
    if flags != [] {
      var n := |flags| - 1;
      ConcreteParentsOnlyInherited(s, flags[..n], others[..n]);
      assert forall i :: 0 <= i < n ==> others[..n][i] == others[i];
    }
  }

  /** Every field of every parent is inherited; an abstract parent's fields are the
      model's own. */
  lemma {:induction false} ParentsFieldsReachModel(s: OptionsState, flags: seq<bool>, others: seq<OptionsState>, i: nat)
    requires |flags| == |others| && i < |flags|
    ensures others[i].inheritedFields <= MergedAll(s, flags, others).inheritedFields
    ensures flags[i] ==> others[i].fields <= MergedAll(s, flags, others).fields
    ensures s.fields <= MergedAll(s, flags, others).fields
    decreases |flags|
  {
    var n := |flags| - 1;
    if i < n {
      ParentsFieldsReachModel(s, flags[..n], others[..n], i);
      assert others[..n][i] == others[i] && flags[..n][i] == flags[i];
    } else if n > 0 {
      ParentsFieldsReachModel(s, flags[..n], others[..n], 0);
    }
  }

  /** `TranslationOptions`: one per model class, created once and cached. */
  class TranslationOptions {
    const model: ModelId
    const fallbackValues: FallbackValues
    var registered: bool
    var fields: set<string>
    var inheritedFields: set<string>
    var localizedFieldnames: map<string, seq<string>>
    var inheritedLocalizedFieldnames: map<string, seq<string>>

    function State(): OptionsState
      reads this
    {
      OptionsState(fields, inheritedFields, localizedFieldnames, inheritedLocalizedFieldnames)
    }

    /** `__init__(model)` of an instance of the options class `cls`. */
    constructor(model: ModelId, cls: OptionsClass)
      ensures this.model == model && fallbackValues == cls.fallbackValues && !registered
      ensures State() == Initial(cls)
    {
      this.model := model;
      this.fallbackValues := cls.fallbackValues;
      registered := false;
      fields := cls.fields;
      inheritedFields := cls.fields;
      localizedFieldnames := map[];
      inheritedLocalizedFieldnames := map[];
    }

    /** `update(other)`, where `otherAbstract` is `other.model._meta.abstract`. */
    method Update(other: TranslationOptions, otherAbstract: bool)
      modifies this
      ensures registered == old(registered)
      ensures State() == Merged(old(State()), otherAbstract, old(other.State()))
    {
      if otherAbstract {
        fields := fields + other.fields;
        localizedFieldnames := localizedFieldnames + other.localizedFieldnames;
      }
      inheritedFields := inheritedFields + other.inheritedFields;
      inheritedLocalizedFieldnames := inheritedLocalizedFieldnames + other.inheritedLocalizedFieldnames;
    }
  }

  // ---------------------------------------------------------------------------------
  // Models

  /** A base class of a model class: a model (it has `_meta`) or a plain class. */
  datatype ClassRef = WithMeta(id: ModelId) | WithoutMeta

  /** What the translator reads from a model class: `__bases__`, `_meta.abstract`, the
      fields by name, and the direct relation fields with their target models. */
  datatype ModelInfo = ModelInfo(
    bases: seq<ClassRef>,
    isAbstract: bool,
    fields: map<string, SourceField>,
    relations: map<string, ModelId>)

  /** Python class hierarchies are acyclic: the models are numbered so that every base
      model has a smaller number than its subclasses. */
  ghost predicate HierarchyOk(h: map<ModelId, ModelInfo>) {
    forall m, i :: m in h && 0 <= i < |h[m].bases| && h[m].bases[i].WithMeta? ==>
      h[m].bases[i].id < m && h[m].bases[i].id in h
  }

  /** The bases that have `_meta`, in order; the others are skipped. */
  function MetaIds(bases: seq<ClassRef>): seq<ModelId>
    decreases |bases|
  {
    if bases == [] then []
    else
      var last := bases[|bases| - 1];
      MetaIds(bases[..|bases| - 1]) + (if last.WithMeta? then [last.id] else [])
  }

  /** The states of a sequence of options instances. */
  ghost function StatesOf(ps: seq<TranslationOptions>): (r: seq<OptionsState>)
    reads set p | p in ps
    ensures |r| == |ps|
    decreases |ps|
  {
    if ps == [] then [] else StatesOf(ps[..|ps| - 1]) + [ps[|ps| - 1].State()]
  }

  /** The states of options objects none of which has changed are what they were. */
  twostate lemma StatesOfUnchanged(ps: seq<TranslationOptions>)
    requires forall j :: 0 <= j < |ps| ==> unchanged(ps[j])
    ensures StatesOf(ps) == old(StatesOf(ps))
    decreases |ps|
  {
    if ps != [] {
      StatesOfUnchanged(ps[..|ps| - 1]);
    }
  }

  /** A model class object as `register` patches it: the attribute names `hasattr`
      finds, the localized fields `add_to_class` has added, in order, and the
      descriptors that stand for the translated fields. */
  class ModelClass {
    var attributes: set<string>
    var added: seq<(string, TranslationField)>
    var descriptors: map<string, TranslationFieldDescriptor>

    constructor(attributes: set<string>)
      ensures this.attributes == attributes && added == [] && descriptors == map[]
    {
      this.attributes := attributes;
      added := [];
      descriptors := map[];
    }
  }

  /** The names of the translations of `field`, in `LANGUAGES` order. */
  function LocalizedNames(loc: Naming, field: string, languages: seq<string>): seq<string> {
    seq(|languages|, i requires 0 <= i < |languages| => loc(field, languages[i]))
  }

  /** What adding the translation of `field` for `lang` raises, in the order the source
      meets the conditions: the field lookup, the field's class, then an attribute the
      model already has under the localized name. */
  function LocalizeCheck(info: map<string, SourceField>, field: string, lang: string, loc: Naming,
                         custom: set<string>, attributes: set<string>): (r: Outcome)
    ensures r.Fail? ==> r.error.FieldDoesNotExist? || r.error.ImproperlyConfigured? || r.error.FieldNameClash?
  {
    if field !in info then Fail(FieldDoesNotExist(field))
    else match CreateTranslationField(info[field], lang, loc, custom)
      case Failure(e) => Fail(e)
      case Success(_) => if loc(field, lang) in attributes then Fail(FieldNameClash(loc(field, lang))) else Pass
  }

  /** An added entry is the translation of a field for a language. */
  ghost predicate TranslationOf(e: (string, TranslationField), info: map<string, SourceField>, fields: set<string>,
                                languages: seq<string>, loc: Naming, custom: set<string>)
  {
    exists f, i :: f in fields && 0 <= i < |languages| && f in info &&
      e.0 == loc(f, languages[i]) && CreateTranslationField(info[f], languages[i], loc, custom) == Success(e.1)
  }

  /** The translation of `field` for `lang` is among `added`. */
  ghost predicate Added(added: seq<(string, TranslationField)>, info: map<string, SourceField>, field: string,
                        lang: string, loc: Naming, custom: set<string>)
  {
    field in info && CreateTranslationField(info[field], lang, loc, custom).Success? &&
    (loc(field, lang), CreateTranslationField(info[field], lang, loc, custom).value) in added
  }

  /** The translations of `field` for the first `n` languages are among `added`. */
  ghost predicate AllAdded(added: seq<(string, TranslationField)>, info: map<string, SourceField>, field: string,
                           languages: seq<string>, n: int, loc: Naming, custom: set<string>)
    requires 0 <= n <= |languages|
  {
    forall i :: 0 <= i < n ==> Added(added, info, field, languages[i], loc, custom)
  }

  /** Translations recorded in `a` stay recorded when `a` is extended. */
  lemma AllAddedExtends(a: seq<(string, TranslationField)>, b: seq<(string, TranslationField)>, info: map<string, SourceField>,
                        field: string, languages: seq<string>, n: int, loc: Naming, custom: set<string>)
    requires 0 <= n <= |languages| && |a| <= |b| && b[..|a|] == a
    requires AllAdded(a, info, field, languages, n, loc, custom)
    ensures AllAdded(b, info, field, languages, n, loc, custom)
  {
    forall i | 0 <= i < n
      ensures Added(b, info, field, languages[i], loc, custom)
    {
      assert Added(a, info, field, languages[i], loc, custom);
      var e := (loc(field, languages[i]), CreateTranslationField(info[field], languages[i], loc, custom).value);
      var k :| 0 <= k < |a| && a[k] == e;
      assert b[k] == e;
    }
  }

  /** The inner loop of `add_localized_fields` for one field: its translation for every
      language in turn, or the first exception. */
  method AddFieldTranslations(cls: ModelClass, info: map<string, SourceField>, fields: set<string>, f: string,
                              languages: seq<string>, loc: Naming, custom: set<string>)
    returns (r: Result<seq<string>>)
    requires f in fields
    modifies cls
    ensures cls.attributes == old(cls.attributes) && cls.descriptors == old(cls.descriptors)
    ensures |old(cls.added)| <= |cls.added| && cls.added[..|old(cls.added)|] == old(cls.added)
    ensures forall k :: |old(cls.added)| <= k < |cls.added| ==>
      TranslationOf(cls.added[k], info, fields, languages, loc, custom)
    ensures r.Success? <==> forall i :: 0 <= i < |languages| ==>
      LocalizeCheck(info, f, languages[i], loc, custom, cls.attributes).Pass?
    ensures r.Failure? ==> exists i ::
      0 <= i < |languages| && LocalizeCheck(info, f, languages[i], loc, custom, cls.attributes) == Fail(r.error)
    ensures r.Success? ==> r.value == LocalizedNames(loc, f, languages)
    ensures r.Success? ==> AllAdded(cls.added, info, f, languages, |languages|, loc, custom)
  {
    var names: seq<string> := [];
    var j := 0;
    while j < |languages|
      invariant 0 <= j <= |languages|
      invariant cls.attributes == old(cls.attributes) && cls.descriptors == old(cls.descriptors)
      invariant |old(cls.added)| <= |cls.added| && cls.added[..|old(cls.added)|] == old(cls.added)
      invariant forall k :: |old(cls.added)| <= k < |cls.added| ==>
        TranslationOf(cls.added[k], info, fields, languages, loc, custom)
      invariant |names| == j && forall i :: 0 <= i < j ==> names[i] == loc(f, languages[i])
      invariant forall i :: 0 <= i < j ==> LocalizeCheck(info, f, languages[i], loc, custom, cls.attributes).Pass?
      invariant AllAdded(cls.added, info, f, languages, j, loc, custom)
    {
      if f !in info {
        assert LocalizeCheck(info, f, languages[j], loc, custom, cls.attributes) == Fail(FieldDoesNotExist(f));
        return Failure(FieldDoesNotExist(f));
      }
      var tf := CreateTranslationField(info[f], languages[j], loc, custom);
      if tf.Failure? {
        assert LocalizeCheck(info, f, languages[j], loc, custom, cls.attributes) == Fail(tf.error);
        return Failure(tf.error);
      }
      var name := loc(f, languages[j]);
      if name in cls.attributes {
        assert LocalizeCheck(info, f, languages[j], loc, custom, cls.attributes) == Fail(FieldNameClash(name));
        return Failure(FieldNameClash(name));
      }
      ghost var before := cls.added;
      var x := (name, tf.value);
      cls.added := cls.added + [x];
      assert cls.added[..|old(cls.added)|] == before[..|old(cls.added)|];
      assert TranslationOf(x, info, fields, languages, loc, custom);
      AllAddedExtends(before, cls.added, info, f, languages, j, loc, custom);
      names := names + [name];
      j := j + 1;
    }
    assert names == LocalizedNames(loc, f, languages);
    r := Success(names);
  }

  /** `add_localized_fields(model, fields)`: for every field and every language, the
      translation field is created and added under its localized name. It raises when a
      field is missing, of an unsupported class, or when the model already has an
      attribute of that name; the fields added before that stay added. On success the
      result maps each field to its localized names in `LANGUAGES` order. */
  method AddLocalizedFields(cls: ModelClass, info: map<string, SourceField>, fields: set<string>,
                            languages: seq<string>, loc: Naming, custom: set<string>)
    returns (r: Result<map<string, seq<string>>>)
    modifies cls
    ensures cls.attributes == old(cls.attributes) && cls.descriptors == old(cls.descriptors)
    ensures |old(cls.added)| <= |cls.added| && cls.added[..|old(cls.added)|] == old(cls.added)
    ensures forall k :: |old(cls.added)| <= k < |cls.added| ==>
      TranslationOf(cls.added[k], info, fields, languages, loc, custom)
    ensures r.Success? <==> forall f, i :: f in fields && 0 <= i < |languages| ==>
      LocalizeCheck(info, f, languages[i], loc, custom, cls.attributes).Pass?
    ensures r.Failure? ==> exists f, i ::
      f in fields && 0 <= i < |languages| &&
      LocalizeCheck(info, f, languages[i], loc, custom, cls.attributes) == Fail(r.error)
    ensures r.Success? ==> r.value == map f | f in fields :: LocalizedNames(loc, f, languages)
    ensures r.Success? ==> forall f :: f in fields ==> AllAdded(cls.added, info, f, languages, |languages|, loc, custom)
  {
    var localized: map<string, seq<string>> := map[];
    var todo := fields;
    while todo != {}
      invariant todo <= fields
      invariant cls.attributes == old(cls.attributes) && cls.descriptors == old(cls.descriptors)
      invariant |old(cls.added)| <= |cls.added| && cls.added[..|old(cls.added)|] == old(cls.added)
      invariant forall k :: |old(cls.added)| <= k < |cls.added| ==>
        TranslationOf(cls.added[k], info, fields, languages, loc, custom)
      invariant localized == map f | f in fields - todo :: LocalizedNames(loc, f, languages)
      invariant forall f, i :: f in fields - todo && 0 <= i < |languages| ==>
        LocalizeCheck(info, f, languages[i], loc, custom, cls.attributes).Pass?
      invariant forall f :: f in fields - todo ==> AllAdded(cls.added, info, f, languages, |languages|, loc, custom)
      decreases todo
    {
      var f :| f in todo;
      ghost var before := cls.added;
      var names := AddFieldTranslations(cls, info, fields, f, languages, loc, custom);
      if names.Failure? {
        return Failure(names.error);
      }
      assert cls.added[..|old(cls.added)|] == before[..|old(cls.added)|];
      forall g | g in fields - todo
        ensures AllAdded(cls.added, info, g, languages, |languages|, loc, custom)
      {
        AllAddedExtends(before, cls.added, info, g, languages, |languages|, loc, custom);
      }
      assert fields - (todo - {f}) == (fields - todo) + {f};
      localized := localized[f := names.value];
      todo := todo - {f};
    }
    r := Success(localized);
  }

  // ---------------------------------------------------------------------------------
  // Fallback values of the descriptors

  /** The fallback value `register` gives the descriptor of `field`, as written: `None`
      when the options have no fallback values, or when a dict has no entry for the
      field. `None` is a real fallback value for the descriptor, unlike `NONE`. */
  function FallbackValueAsWritten(fv: FallbackValues, field: string): (m: Marker)
    ensures m.Given?
    ensures fv.Unset? || (fv.PerField? && field !in fv.values) ==> m == Given(PyNone)
    ensures fv.PerField? && field in fv.values ==> m == Given(fv.values[field])
    ensures fv.Shared? ==> m == Given(fv.value)
  {
    match fv
    case Unset => Given(PyNone)
    case PerField(values) => if field in values then Given(values[field]) else Given(PyNone)
    case Shared(p) => Given(p)
  }

  /** The fallback value of the descriptor of `field` when none is given left as `NONE`,
      the descriptor's own default for "not provided". */
  function FallbackValue(fv: FallbackValues, field: string): (m: Marker)
    ensures m.NONE? <==> fv.Unset? || (fv.PerField? && field !in fv.values)
    ensures fv.PerField? && field in fv.values ==> m == Given(fv.values[field])
    ensures fv.Shared? ==> m == Given(fv.value)
  {
    match fv
    case Unset => NONE
    case PerField(values) => if field in values then Given(values[field]) else NONE
    case Shared(p) => Given(p)
  }

  /** The two selections agree whenever a fallback value is given for the field. */
  lemma FallbackSelectionsAgree(fv: FallbackValues, field: string)
    ensures FallbackValue(fv, field).Given? ==> FallbackValueAsWritten(fv, field) == FallbackValue(fv, field)
  {
  }

  /** As written, a model registered without fallback values reads as `None`, not as the
      field's default, when no language has a value and fallbacks are enabled. */
  lemma AsWrittenHidesDefault(d: TranslationFieldDescriptor)
    requires d.fallbackValue == FallbackValueAsWritten(Unset, d.field)
    ensures d.Exhausted(true) == PyNone
  {
  }

  /** With the corrected selection such a read gives the field's default. */
  lemma UnsetFallbackReadsDefault(d: TranslationFieldDescriptor, enableFallbacks: bool)
    requires d.fallbackValue == FallbackValue(Unset, d.field)
    ensures d.Exhausted(enableFallbacks) == d.fieldDefault
  {
  }

  /** Every field in `fields` has a descriptor for it with the fallback value `register`
      chooses (`FallbackValueAsWritten`), no fallback-undefined value and the field's
      default. */
  ghost predicate DescriptorsFor(ds: map<string, TranslationFieldDescriptor>, fields: set<string>,
                                 info: map<string, SourceField>, fv: FallbackValues)
  {
    forall f :: f in fields ==>
      f in info && f in ds && ds[f].field == f && ds[f].fallbackValue == FallbackValueAsWritten(fv, f) &&
      ds[f].fallbackUndefined == NONE && ds[f].fieldDefault == info[f].default
  }

  /** The loop of `register` that puts a descriptor in place of each translated field
      (`setattr(model, field_name, descriptor)`); `get_field` raises for a field the
      model does not have. */
  method InstallDescriptors(target: ModelClass, fields: set<string>, info: map<string, SourceField>, fv: FallbackValues)
    returns (r: Outcome)
    modifies target
    ensures target.added == old(target.added)
    ensures r.Pass? <==> fields <= info.Keys
    ensures r.Fail? ==> exists f :: f in fields && f !in info && r.error == FieldDoesNotExist(f)
    ensures r.Pass? ==> target.attributes == old(target.attributes) + fields
    ensures r.Pass? ==> DescriptorsFor(target.descriptors, fields, info, fv)
    ensures old(target.attributes) <= target.attributes <= old(target.attributes) + fields
    ensures forall g :: g in old(target.descriptors) && g !in fields ==>
      g in target.descriptors && target.descriptors[g] == old(target.descriptors[g])
    ensures target.descriptors.Keys <= old(target.descriptors.Keys) + fields
  {
    var todo := fields;
    while todo != {}
      invariant todo <= fields
      invariant target.added == old(target.added)
      invariant target.attributes == old(target.attributes) + (fields - todo)
      invariant forall g :: g in old(target.descriptors) && g !in fields ==>
        g in target.descriptors && target.descriptors[g] == old(target.descriptors[g])
      invariant target.descriptors.Keys <= old(target.descriptors.Keys) + fields
      invariant DescriptorsFor(target.descriptors, fields - todo, info, fv)
      decreases todo
    {
      var f :| f in todo;
      if f !in info {
        return Fail(FieldDoesNotExist(f));
      }
      var d := new TranslationFieldDescriptor(f, FallbackValueAsWritten(fv, f), NONE, info[f].default);
      target.descriptors := target.descriptors[f := d];
      target.attributes := target.attributes + {f};
      todo := todo - {f};
    }
    r := Pass;
  }

  // ---------------------------------------------------------------------------------
  // The patched constructor

  /** The loop of the patched `__init__` over `kwargs.items()`, starting from the
      dictionary `m`: the rewritten key of each item is set to the item's value unless
      the dictionary has it already (`setdefault`); the original keys stay. */
  function SetDefaults(s: Schema, loc: Naming, model: ModelId, current: string,
                       m: map<string, Py>, items: seq<(string, Py)>): (r: Result<map<string, Py>>)
    requires NamingOk(s, loc)
    ensures model in s.translatable ==> r.Success?
    ensures r.Success? ==> forall k :: k in m ==> k in r.value && r.value[k] == m[k]
    decreases |items|
  {
    if items == [] then Success(m)
    else
      match RewriteLookupKey(s, loc, model, items[0].0, current, current)
      case Failure(e) => Failure(e)
      case Success(k) => SetDefaults(s, loc, model, current, if k in m then m else m[k := items[0].1], items[1..])
  }

  /** The rewritten key of item `i` rewrites to `k`, and no earlier item's does. */
  ghost predicate FirstItemFor(s: Schema, loc: Naming, model: ModelId, current: string,
                               items: seq<(string, Py)>, k: string, i: int)
    requires NamingOk(s, loc)
  {
    0 <= i < |items| && RewriteLookupKey(s, loc, model, items[i].0, current, current) == Success(k) &&
    forall j :: 0 <= j < i ==> RewriteLookupKey(s, loc, model, items[j].0, current, current) != Success(k)
  }

  /** Every rewritten key ends up in the dictionary. */
  lemma {:induction false} SetDefaultsAddsEveryKey(s: Schema, loc: Naming, model: ModelId, current: string,
                                                   m: map<string, Py>, items: seq<(string, Py)>, i: nat)
    requires NamingOk(s, loc) && i < |items|
    requires SetDefaults(s, loc, model, current, m, items).Success?
    ensures RewriteLookupKey(s, loc, model, items[i].0, current, current).Success?
    ensures RewriteLookupKey(s, loc, model, items[i].0, current, current).value in SetDefaults(s, loc, model, current, m, items).value
    decreases |items|
  {
    var k := RewriteLookupKey(s, loc, model, items[0].0, current, current).value;
    var m1 := if k in m then m else m[k := items[0].1];
    if i > 0 {
      assert items[1..][i - 1] == items[i];
      SetDefaultsAddsEveryKey(s, loc, model, current, m1, items[1..], i - 1);
    }
  }

  /** A key the dictionary did not have holds the value of the first item rewriting to
      it; the dictionary gains no other key. */
  lemma {:induction false} SetDefaultsFirstWins(s: Schema, loc: Naming, model: ModelId, current: string,
                                                m: map<string, Py>, items: seq<(string, Py)>, k: string)
    requires NamingOk(s, loc)
    requires SetDefaults(s, loc, model, current, m, items).Success?
    requires k in SetDefaults(s, loc, model, current, m, items).value && k !in m
    ensures exists i ::
      FirstItemFor(s, loc, model, current, items, k, i) &&
      SetDefaults(s, loc, model, current, m, items).value[k] == items[i].1
    decreases |items|
  {
    var k0 := RewriteLookupKey(s, loc, model, items[0].0, current, current).value;
    var m1 := if k0 in m then m else m[k0 := items[0].1];
    var r := SetDefaults(s, loc, model, current, m, items).value;
    assert r == SetDefaults(s, loc, model, current, m1, items[1..]).value;
    if k == k0 {
      assert r[k] == m1[k] == items[0].1;
      assert FirstItemFor(s, loc, model, current, items, k, 0);
    } else {
      SetDefaultsFirstWins(s, loc, model, current, m1, items[1..], k);
      var i :| FirstItemFor(s, loc, model, current, items[1..], k, i) && r[k] == items[1..][i].1;
      assert forall j :: 1 <= j <= i ==> items[j] == items[1..][j - 1];
      assert FirstItemFor(s, loc, model, current, items, k, i + 1);
    }
  }

  // ---------------------------------------------------------------------------------
  // The translator

  /** The registry `r1` keeps every entry of `r0` and adds only models below `bound`. */
  ghost predicate Grows(r0: map<ModelId, TranslationOptions>, r1: map<ModelId, TranslationOptions>, bound: int) {
    (forall m :: m in r0 ==> m in r1 && r1[m] == r0[m]) &&
    (forall m :: m in r1 && m !in r0 ==> m < bound)
  }

  /** The bases with `_meta` of a model in a well-formed hierarchy are models declared
      before it. */
  lemma {:induction false} MetaIdsBelow(h: map<ModelId, ModelInfo>, m: ModelId, k: nat)
    requires HierarchyOk(h) && m in h && k <= |h[m].bases|
    ensures forall j :: 0 <= j < |MetaIds(h[m].bases[..k])| ==> MetaIds(h[m].bases[..k])[j] < m
    decreases k
  {
    if k > 0 {
      MetaIdsBelow(h, m, k - 1);
      MetaIdsStep(h[m].bases, k - 1);
    }
  }

  /** `parents` are the cached options of the models `ids`, in order. */
  ghost predicate ParentsIn(parents: seq<TranslationOptions>, ids: seq<ModelId>, r: map<ModelId, TranslationOptions>) {
    |parents| == |ids| && forall j :: 0 <= j < |ids| ==> ids[j] in r && parents[j] == r[ids[j]]
  }

  lemma MetaIdsStep(bases: seq<ClassRef>, i: int)
    requires 0 <= i < |bases|
    ensures MetaIds(bases[..i + 1]) == MetaIds(bases[..i]) + (if bases[i].WithMeta? then [bases[i].id] else [])
  {
    assert bases[..i + 1][..i] == bases[..i];
  }

  lemma StatesOfStep(ps: seq<TranslationOptions>, p: TranslationOptions)
    ensures StatesOf(ps + [p]) == StatesOf(ps) + [p.State()]
  {
    assert (ps + [p])[..|ps|] == ps;
  }

  lemma MergedAllStep(s: OptionsState, flags: seq<bool>, others: seq<OptionsState>, f: bool, o: OptionsState)
    requires |flags| == |others|
    ensures MergedAll(s, flags + [f], others + [o]) == Merged(MergedAll(s, flags, others), f, o)
  {
    assert (flags + [f])[..|flags|] == flags;
    assert (others + [o])[..|others|] == others;
  }

  lemma ParentsInStep(parents: seq<TranslationOptions>, ids: seq<ModelId>, r: map<ModelId, TranslationOptions>,
                      b: TranslationOptions, id: ModelId)
    requires ParentsIn(parents, ids, r) && id in r && b == r[id]
    ensures ParentsIn(parents + [b], ids + [id], r)
  {
    assert forall j :: 0 <= j < |ids| ==> (ids + [id])[j] == ids[j] && (parents + [b])[j] == parents[j];
  }

  lemma GrowsTrans(r0: map<ModelId, TranslationOptions>, r1: map<ModelId, TranslationOptions>,
                   r2: map<ModelId, TranslationOptions>, bound: int)
    requires Grows(r0, r1, bound) && Grows(r1, r2, bound)
    ensures Grows(r0, r2, bound)
  {
  }

  lemma ParentsInGrows(parents: seq<TranslationOptions>, ids: seq<ModelId>,
                       r0: map<ModelId, TranslationOptions>, r1: map<ModelId, TranslationOptions>, bound: int)
    requires ParentsIn(parents, ids, r0) && Grows(r0, r1, bound)
    ensures ParentsIn(parents, ids, r1)
  {
  }

  /** `Translator`: the registry caches the options of every model it has looked at,
      registered or not. */
  class Translator {
    const hierarchy: map<ModelId, ModelInfo>
    const loc: Naming
    var registry: map<ModelId, TranslationOptions>

    ghost predicate Valid()
      reads this, registry.Values
    {
      HierarchyOk(hierarchy) &&
      forall m :: m in registry ==>
        m in hierarchy && registry[m].model == m && Consistent(registry[m].State())
    }

    constructor(hierarchy: map<ModelId, ModelInfo>, loc: Naming)
      requires HierarchyOk(hierarchy)
      ensures Valid() && registry == map[]
      ensures this.hierarchy == hierarchy && this.loc == loc
    {
      this.hierarchy := hierarchy;
      this.loc := loc;
      registry := map[];
    }

    /** What the resolver reads: the registered models with their fields, and every
        model's relations. */
    function SchemaOf(): (s: Schema)
      reads this, registry.Values
      ensures forall m :: m in s.translatable <==> m in registry && registry[m].registered
      ensures forall m :: m in s.translatable ==> s.translatable[m] == registry[m].fields
    {
      Schema(map m | m in registry && registry[m].registered :: registry[m].fields,
             map m | m in hierarchy :: hierarchy[m].relations)
    }

    /** `_meta.abstract` of each of the given models. */
    function Flags(ids: seq<ModelId>): (flags: seq<bool>)
      ensures |flags| == |ids|
    {
      seq(|ids|, j requires 0 <= j < |ids| => ids[j] in hierarchy && hierarchy[ids[j]].isAbstract)
    }

    lemma FlagsStep(ids: seq<ModelId>, id: ModelId)
      ensures Flags(ids + [id]) == Flags(ids) + [id in hierarchy && hierarchy[id].isAbstract]
    {
    }

    /** The options being built for a model that is not cached are none of the cached
        ones. */
    lemma ParentsNotOpts(parents: seq<TranslationOptions>, ids: seq<ModelId>, opts: TranslationOptions, model: ModelId)
      requires Valid() && model !in registry && opts.model == model
      requires ParentsIn(parents, ids, registry)
      ensures opts !in parents
    {
      forall j | 0 <= j < |parents|
        ensures parents[j] != opts
      {
        assert parents[j].model == ids[j];
      }
    }

    /** `_get_options_for_model(model, opts_class, **options)`, with `cls` the class
        built from `opts_class` and `options`. A model seen before gets its cached
        options back and nothing changes, whatever `cls` is. Otherwise the options are
        created from `cls`, the options of every base with `_meta` (`parents`) are
        merged in order, and the new options are cached. */
    method GetOptions(model: ModelId, cls: OptionsClass) returns (opts: TranslationOptions, ghost parents: seq<TranslationOptions>)
      requires Valid() && model in hierarchy
      modifies this
      ensures Valid()
      ensures model in registry && registry[model] == opts
      ensures Grows(old(registry), registry, model + 1)
      ensures forall m :: m in registry && m !in old(registry) ==> !registry[m].registered
      ensures old(model in registry) ==> registry == old(registry)
      ensures !old(model in registry) ==>
        fresh(opts) && !opts.registered && opts.fallbackValues == cls.fallbackValues &&
        ParentsIn(parents, MetaIds(hierarchy[model].bases), registry) &&
        opts.State() == MergedAll(Initial(cls), Flags(MetaIds(hierarchy[model].bases)), StatesOf(parents))
      decreases model, 4
    {
      if model in registry {
        opts := registry[model];
        parents := [];
        return;
      }
      opts, parents := CreateOptions(model, cls);
    }

    /** `_get_options_for_model` for a model seen for the first time: new options from
        `cls`, the options of the bases merged in, then the result cached. */
    method CreateOptions(model: ModelId, cls: OptionsClass) returns (opts: TranslationOptions, ghost parents: seq<TranslationOptions>)
      requires Valid() && model in hierarchy && model !in registry
      modifies this
      ensures Valid()
      ensures model in registry && registry[model] == opts
      ensures Grows(old(registry), registry, model + 1)
      ensures forall m :: m in registry && m !in old(registry) ==> !registry[m].registered
      ensures fresh(opts) && !opts.registered && opts.fallbackValues == cls.fallbackValues
      ensures ParentsIn(parents, MetaIds(hierarchy[model].bases), registry)
      ensures opts.State() == MergedAll(Initial(cls), Flags(MetaIds(hierarchy[model].bases)), StatesOf(parents))
      decreases model, 3
    {
      opts := new TranslationOptions(model, cls);
      parents := MergeBases(opts, model, cls);
      Cache(model, opts, parents);
    }

    /** `self._registry[model] = opts`; the states of `parents` are not touched. */
    method Cache(model: ModelId, opts: TranslationOptions, ghost parents: seq<TranslationOptions>)
      requires Valid() && model in hierarchy && model !in registry
      requires opts.model == model && Consistent(opts.State())
      modifies this
      ensures Valid() && registry == old(registry)[model := opts]
      ensures StatesOf(parents) == old(StatesOf(parents))
    {
      registry := registry[model := opts];
      StatesOfUnchanged(parents);
    }

    /** The loop of `_get_options_for_model` over the bases of `model`: the options of
        every base with `_meta` are merged into `opts`, in order. */
    method MergeBases(opts: TranslationOptions, model: ModelId, cls: OptionsClass)
      returns (ghost parents: seq<TranslationOptions>)
      requires Valid() && model in hierarchy && model !in registry && opts.model == model
      requires opts.State() == Initial(cls) && Consistent(opts.State())
      modifies this, opts
      ensures Valid() && model !in registry
      ensures opts.registered == old(opts.registered) && Consistent(opts.State())
      ensures Grows(old(registry), registry, model)
      ensures forall m :: m in registry && m !in old(registry) ==> !registry[m].registered
      ensures ParentsIn(parents, MetaIds(hierarchy[model].bases), registry)
      ensures opts.State() == MergedAll(Initial(cls), Flags(MetaIds(hierarchy[model].bases)), StatesOf(parents))
      decreases model, 2
    {
      parents := [];
      var bases := hierarchy[model].bases;
      var i := 0;
      while i < |bases|
        invariant 0 <= i <= |bases|
        invariant Valid() && model !in registry
        invariant opts.registered == old(opts.registered) && Consistent(opts.State())
        invariant Grows(old(registry), registry, model)
        invariant forall m :: m in registry && m !in old(registry) ==> !registry[m].registered
        invariant ParentsIn(parents, MetaIds(bases[..i]), registry)
        invariant opts.State() == MergedAll(Initial(cls), Flags(MetaIds(bases[..i])), StatesOf(parents))
      {
        ghost var registryBefore := registry;
        parents := MergeBase(opts, model, cls, i, parents);
        GrowsTrans(old(registry), registryBefore, registry, model);
        i := i + 1;
      }
      assert bases[..|bases|] == bases;
    }

    /** One step of the loop over the bases of `model`: when base `i` has `_meta`, its
        options are looked up (and created and cached if need be) and merged into
        `opts`, the options being built for `model`. */
    method MergeBase(opts: TranslationOptions, model: ModelId, cls: OptionsClass, i: nat,
                     ghost parents: seq<TranslationOptions>) returns (ghost parents2: seq<TranslationOptions>)
      requires Valid() && model in hierarchy && i < |hierarchy[model].bases|
      requires model !in registry && opts.model == model && Consistent(opts.State())
      requires ParentsIn(parents, MetaIds(hierarchy[model].bases[..i]), registry)
      requires opts.State() == MergedAll(Initial(cls), Flags(MetaIds(hierarchy[model].bases[..i])), StatesOf(parents))
      modifies this, opts
      ensures Valid() && model !in registry
      ensures Grows(old(registry), registry, model)
      ensures forall m :: m in registry && m !in old(registry) ==> !registry[m].registered
      ensures opts.registered == old(opts.registered) && Consistent(opts.State())
      ensures ParentsIn(parents2, MetaIds(hierarchy[model].bases[..i + 1]), registry)
      ensures opts.State() == MergedAll(Initial(cls), Flags(MetaIds(hierarchy[model].bases[..i + 1])), StatesOf(parents2))
      decreases model, 1
    {
      var bases := hierarchy[model].bases;
      var ids := MetaIds(bases[..i]);
      MetaIdsStep(bases, i);
      parents2 := parents;
      if bases[i].WithMeta? {
        var id := bases[i].id;
        assert id < model && id in hierarchy;
        ghost var statesBefore := StatesOf(parents);
        ghost var registryBefore := registry;
        var b := AddParent(opts, id, model);
        ParentsInGrows(parents, ids, registryBefore, registry, model);
        ParentsNotOpts(parents, ids, opts, model);
        assert StatesOf(parents) == statesBefore;
        StatesOfStep(parents, b);
        FlagsStep(ids, id);
        MergedAllStep(Initial(cls), Flags(ids), statesBefore, Flags(ids + [id])[|ids|], b.State());
        ParentsInStep(parents, ids, registry, b, id);
        parents2 := parents + [b];
        assert StatesOf(parents2) == statesBefore + [b.State()];
        assert opts.State() == Merged(MergedAll(Initial(cls), Flags(ids), statesBefore), Flags(ids + [id])[|ids|], b.State());
        assert Flags(ids) + [Flags(ids + [id])[|ids|]] == Flags(ids + [id]);
        assert MetaIds(bases[..i + 1]) == ids + [id];
      } else {
        assert MetaIds(bases[..i + 1]) == ids;
      }
    }

    /** Looking up the options of base `id` and merging them into `opts`, the options
        being built for `model`. */
    method AddParent(opts: TranslationOptions, id: ModelId, model: ModelId) returns (b: TranslationOptions)
      requires Valid() && id in hierarchy && id < model && model !in registry && opts.model == model
      requires Consistent(opts.State())
      modifies this, opts
      ensures Valid() && model !in registry
      ensures Grows(old(registry), registry, model)
      ensures forall m :: m in registry && m !in old(registry) ==> !registry[m].registered
      ensures id in registry && b == registry[id] && b != opts
      ensures opts.registered == old(opts.registered)
      ensures opts.State() == Merged(old(opts.State()), hierarchy[id].isAbstract, b.State())
      ensures Consistent(opts.State())
      decreases model, 0
    {
      var _, _ := GetOptions(id, PlainOptions);
      b := registry[id];
      assert b.model == id;
      MergedConsistent(opts.State(), hierarchy[id].isAbstract, b.State());
      opts.Update(b, hierarchy[id].isAbstract);
      assert forall m :: m in registry ==> registry[m] != opts;
    }

    /** `get_options_for_model(model)`: the cached options of a registered model;
        `NotRegistered` otherwise (the options are cached all the same). */
    method GetOptionsForModel(model: ModelId) returns (r: Result<TranslationOptions>)
      requires Valid() && model in hierarchy
      modifies this
      ensures Valid()
      ensures model in registry
      ensures Grows(old(registry), registry, model + 1)
      ensures forall m :: m in registry && m !in old(registry) ==> !registry[m].registered
      ensures r.Success? <==> model in old(registry) && old(registry[model].registered)
      ensures r.Success? ==> r.value == registry[model]
      ensures r.Failure? ==> r.error == NotRegistered(model) && !registry[model].registered
    {
      var opts, _ := GetOptions(model, PlainOptions);
      if !opts.registered {
        return Failure(NotRegistered(model));
      }
      r := Success(opts);
    }

    /** `unregister(model)`: the model's options are marked unregistered; they stay
        cached. `NotRegistered` when the model was not registered. Nothing else changes. */
    method Unregister(model: ModelId) returns (r: Outcome)
      requires Valid() && model in hierarchy
      modifies this, registry.Values
      ensures Valid()
      ensures r.Pass? <==> model in old(registry) && old(registry[model].registered)
      ensures r.Fail? ==> r.error == NotRegistered(model)
      ensures model in registry && !registry[model].registered
      ensures forall m :: m in old(registry) ==>
        m in registry && registry[m] == old(registry[m]) && registry[m].State() == old(registry[m].State())
      ensures forall m :: m in old(registry) && m != model ==> registry[m].registered == old(registry[m].registered)
      ensures forall m :: m in registry && m !in old(registry) ==> !registry[m].registered
    {
      var o := GetOptionsForModel(model);
      if o.Failure? {
        return Fail(o.error);
      }
      o.value.registered := false;
      r := Pass;
    }

    /** `register(model, opts_class, **options)` for one model, with `cls` the options
        class, `target` the model class object, `languages` the codes of `LANGUAGES`
        and `custom` the names of `CUSTOM_FIELDS`. `AlreadyRegistered` exactly when the
        model's options were cached and registered. Otherwise the options are marked
        registered before the fields are added, so they stay registered when adding
        raises. On success every translated field has its localized names in both name
        maps and a descriptor in place of the field, with the fallback value chosen by
        `FallbackValueAsWritten`, and the class's record of added fields holds every
        field's translation in every language. Descriptors of other names stay as they
        were, and the other models' options do not change. `AlreadyRegistered` leaves the
        model class untouched. */
    method Register(model: ModelId, cls: OptionsClass, target: ModelClass, languages: seq<string>, custom: set<string>)
      returns (r: Outcome, ghost parents: seq<TranslationOptions>)
      requires Valid() && model in hierarchy
      modifies this, registry.Values, target
      ensures Valid()
      ensures model in registry && registry[model].registered
      ensures forall m :: m in old(registry) ==> m in registry && registry[m] == old(registry[m])
      ensures forall m :: m in old(registry) && m != model ==>
        registry[m].registered == old(registry[m].registered) && registry[m].State() == old(registry[m].State())
      ensures forall m :: m in registry && m !in old(registry) && m != model ==> !registry[m].registered
      ensures old(model in registry) ==> registry[model].fields == old(registry[model].fields)
      ensures r == Fail(AlreadyRegistered(model)) <==> model in old(registry) && old(registry[model].registered)
      ensures r.Fail? && r != Fail(AlreadyRegistered(model)) ==>
        r.error.FieldDoesNotExist? || r.error.ImproperlyConfigured? || r.error.FieldNameClash?
      ensures r.Pass? <==>
        !(model in old(registry) && old(registry[model].registered)) &&
        (forall f, i :: f in registry[model].fields && 0 <= i < |languages| ==>
          LocalizeCheck(hierarchy[model].fields, f, languages[i], loc, custom, old(target.attributes)).Pass?) &&
        (forall f :: f in registry[model].fields ==> f in hierarchy[model].fields)
      ensures r.Pass? ==> forall f :: f in registry[model].fields ==>
        f in registry[model].localizedFieldnames && f in registry[model].inheritedLocalizedFieldnames &&
        registry[model].localizedFieldnames[f] == LocalizedNames(loc, f, languages) &&
        registry[model].inheritedLocalizedFieldnames[f] == LocalizedNames(loc, f, languages)
      ensures r.Pass? ==> target.attributes == old(target.attributes) + registry[model].fields
      ensures r.Pass? ==>
        DescriptorsFor(target.descriptors, registry[model].fields, hierarchy[model].fields, registry[model].fallbackValues)
      ensures forall g :: g in old(target.descriptors) && g !in registry[model].fields ==>
        g in target.descriptors && target.descriptors[g] == old(target.descriptors[g])
      ensures |old(target.added)| <= |target.added| && target.added[..|old(target.added)|] == old(target.added)
      ensures forall k :: |old(target.added)| <= k < |target.added| ==>
        TranslationOf(target.added[k], hierarchy[model].fields, registry[model].fields, languages, loc, custom)
      ensures r.Pass? ==> forall f :: f in registry[model].fields ==>
        AllAdded(target.added, hierarchy[model].fields, f, languages, |languages|, loc, custom)
      ensures target.descriptors.Keys <= old(target.descriptors.Keys) + registry[model].fields
      ensures r == Fail(AlreadyRegistered(model)) ==>
        target.added == old(target.added) && target.attributes == old(target.attributes) &&
        target.descriptors == old(target.descriptors)
      ensures !old(model in registry) ==>
        registry[model].fallbackValues == cls.fallbackValues &&
        ParentsIn(parents, MetaIds(hierarchy[model].bases), registry) &&
        registry[model].fields ==
          MergedAll(Initial(cls), Flags(MetaIds(hierarchy[model].bases)), StatesOf(parents)).fields &&
        registry[model].inheritedFields ==
          MergedAll(Initial(cls), Flags(MetaIds(hierarchy[model].bases)), StatesOf(parents)).inheritedFields
    {
      var opts;
      opts, parents := GetOptions(model, cls);
      if opts.registered {
        r := Fail(AlreadyRegistered(model));
        return;
      }
      r := RegisterOptions(opts, model, parents, target, languages, custom);
    }

    /** `register` once the options are known not to be registered: they are marked
        registered, then the translations are added. The options of the bases are not
        touched. */
    method RegisterOptions(opts: TranslationOptions, model: ModelId, ghost parents: seq<TranslationOptions>,
                           target: ModelClass, languages: seq<string>, custom: set<string>) returns (r: Outcome)
      requires Valid() && model in registry && registry[model] == opts && !opts.registered
      modifies opts, target
      ensures Valid() && opts.registered
      ensures opts.fields == old(opts.fields) && opts.inheritedFields == old(opts.inheritedFields)
      ensures r.Pass? <==>
        (forall f, i :: f in opts.fields && 0 <= i < |languages| ==>
          LocalizeCheck(hierarchy[model].fields, f, languages[i], loc, custom, old(target.attributes)).Pass?) &&
        (forall f :: f in opts.fields ==> f in hierarchy[model].fields)
      ensures r.Pass? ==> forall f :: f in opts.fields ==>
        f in opts.localizedFieldnames && f in opts.inheritedLocalizedFieldnames &&
        opts.localizedFieldnames[f] == LocalizedNames(loc, f, languages) &&
        opts.inheritedLocalizedFieldnames[f] == LocalizedNames(loc, f, languages)
      ensures r.Fail? ==> r.error.FieldDoesNotExist? || r.error.ImproperlyConfigured? || r.error.FieldNameClash?
      ensures r.Pass? ==> target.attributes == old(target.attributes) + opts.fields
      ensures r.Pass? ==> DescriptorsFor(target.descriptors, opts.fields, hierarchy[model].fields, opts.fallbackValues)
      ensures forall g :: g in old(target.descriptors) && g !in opts.fields ==>
        g in target.descriptors && target.descriptors[g] == old(target.descriptors[g])
      ensures |old(target.added)| <= |target.added| && target.added[..|old(target.added)|] == old(target.added)
      ensures forall k :: |old(target.added)| <= k < |target.added| ==>
        TranslationOf(target.added[k], hierarchy[model].fields, opts.fields, languages, loc, custom)
      ensures r.Pass? ==> forall f :: f in opts.fields ==>
        AllAdded(target.added, hierarchy[model].fields, f, languages, |languages|, loc, custom)
      ensures target.descriptors.Keys <= old(target.descriptors.Keys) + opts.fields
      ensures ParentsIn(parents, MetaIds(hierarchy[model].bases), registry) ==>
        StatesOf(parents) == old(StatesOf(parents))
    {
      forall m | m in registry && m != model
        ensures registry[m] != opts
      {
        assert registry[m].model == m;
      }
      var bases := hierarchy[model].bases;
      MetaIdsBelow(hierarchy, model, |bases|);
      assert bases[..|bases|] == bases;
      opts.registered := true;
      r := AddTranslations(opts, model, target, languages, custom);
      if ParentsIn(parents, MetaIds(bases), registry) {
        StatesOfUnchanged(parents);
      }
    }

    /** What `register` does once the options are marked registered: the localized
        fields are added and recorded in both name maps, then the descriptors are put
        in place. */
    method AddTranslations(opts: TranslationOptions, model: ModelId, target: ModelClass,
                           languages: seq<string>, custom: set<string>) returns (r: Outcome)
      requires Valid() && model in registry && registry[model] == opts
      modifies opts, target
      ensures Valid()
      ensures opts.registered == old(opts.registered)
      ensures opts.fields == old(opts.fields) && opts.inheritedFields == old(opts.inheritedFields)
      ensures r.Pass? <==>
        (forall f, i :: f in opts.fields && 0 <= i < |languages| ==>
          LocalizeCheck(hierarchy[model].fields, f, languages[i], loc, custom, old(target.attributes)).Pass?) &&
        (forall f :: f in opts.fields ==> f in hierarchy[model].fields)
      ensures r.Pass? ==> forall f :: f in opts.fields ==>
        f in opts.localizedFieldnames && f in opts.inheritedLocalizedFieldnames &&
        opts.localizedFieldnames[f] == LocalizedNames(loc, f, languages) &&
        opts.inheritedLocalizedFieldnames[f] == LocalizedNames(loc, f, languages)
      ensures r.Fail? ==> r.error.FieldDoesNotExist? || r.error.ImproperlyConfigured? || r.error.FieldNameClash?
      ensures r.Pass? ==> target.attributes == old(target.attributes) + opts.fields
      ensures r.Pass? ==> DescriptorsFor(target.descriptors, opts.fields, hierarchy[model].fields, opts.fallbackValues)
      ensures forall g :: g in old(target.descriptors) && g !in opts.fields ==>
        g in target.descriptors && target.descriptors[g] == old(target.descriptors[g])
      ensures |old(target.added)| <= |target.added| && target.added[..|old(target.added)|] == old(target.added)
      ensures forall k :: |old(target.added)| <= k < |target.added| ==>
        TranslationOf(target.added[k], hierarchy[model].fields, opts.fields, languages, loc, custom)
      ensures r.Pass? ==> forall f :: f in opts.fields ==>
        AllAdded(target.added, hierarchy[model].fields, f, languages, |languages|, loc, custom)
      ensures target.descriptors.Keys <= old(target.descriptors.Keys) + opts.fields
    {
      var info := hierarchy[model].fields;
      var localized := AddLocalizedFields(target, info, opts.fields, languages, loc, custom);
      if localized.Failure? {
        return Fail(localized.error);
      }
      RecordLocalizedNames(opts, model, localized.value);
      r := InstallDescriptors(target, opts.fields, info, opts.fallbackValues);
    }

    /** `opts.localized_fieldnames.update(names)` and the same on
        `inherited_localized_fieldnames`, for the cached options of `model`. */
    method RecordLocalizedNames(opts: TranslationOptions, model: ModelId, names: map<string, seq<string>>)
      requires Valid() && model in registry && registry[model] == opts
      modifies opts
      ensures Valid()
      ensures opts.registered == old(opts.registered)
      ensures opts.fields == old(opts.fields) && opts.inheritedFields == old(opts.inheritedFields)
      ensures opts.localizedFieldnames == old(opts.localizedFieldnames) + names
      ensures opts.inheritedLocalizedFieldnames == old(opts.inheritedLocalizedFieldnames) + names
    {
      opts.localizedFieldnames := opts.localizedFieldnames + names;
      opts.inheritedLocalizedFieldnames := opts.inheritedLocalizedFieldnames + names;
      assert forall m :: m in registry && m != model ==> registry[m] != opts by {
        forall m | m in registry && m != model
          ensures registry[m] != opts
        {
          assert registry[m].model == m;
        }
      }
    }

    /** The keyword arguments the patched `__init__` of `model` passes on to the
        original constructor. */
    method PatchedInitKwargs(model: ModelId, kwargs: seq<(string, Py)>, current: string)
      returns (r: Result<map<string, Py>>)
      requires Valid() && NamingOk(SchemaOf(), loc) && DistinctKeys(kwargs)
      ensures r == SetDefaults(SchemaOf(), loc, model, current, MapOf(kwargs), kwargs)
    {
      var s := SchemaOf();
      var m := MapOf(kwargs);
      var i := 0;
      while i < |kwargs|
        invariant 0 <= i <= |kwargs|
        invariant SetDefaults(s, loc, model, current, MapOf(kwargs), kwargs) ==
          SetDefaults(s, loc, model, current, m, kwargs[i..])
      {
        var newKey := RewriteLookupKey(s, loc, model, kwargs[i].0, current, current);
        if newKey.Failure? {
          return Failure(newKey.error);
        }
        assert kwargs[i..][1..] == kwargs[i + 1..];
        if newKey.value !in m {
          m := m[newKey.value := kwargs[i].1];
        }
        i := i + 1;
      }
      r := Success(m);
    }
  }
}
