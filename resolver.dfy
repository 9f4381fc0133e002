/** The lookup-key resolver of modeltranslation/manager.py: `rewrite_lookup_key`,
    `rewrite_order_lookup_key`, `get_translatable_fields_for_model` and
    `get_fields_to_translatable_models`.

    The translator's registry and the models' metadata are read through a `Schema`
    value; the naming convention `build_localized_fieldname(field, language)` is the
    parameter `loc`. */
module Resolver {
  import opened Common
  import opened LookupPath

  /** `build_localized_fieldname(field_name, lang)`. */
  type Naming = (string, string) -> string

  /** What the resolver reads about the models. */
  datatype Schema = Schema(
    // registered models and the translatable field names of their options
    translatable: map<ModelId, set<string>>,
    // the direct relation fields of each model (model._meta) and their target models
    relations: map<ModelId, map<string, ModelId>>)

  /** The localized names of the translatable fields never contain the separator "__",
      in any language. The resolver's recursion through relations is only known to end
      under this condition: with a naming that may produce "r__t" from ("t", lang), a
      model whose translatable relation `r` points back to itself sends
      `rewrite_lookup_key` round the same key forever. Taken over every string, the
      program's `field + "_" + lang` does not meet it (`FieldLangNotOk`: the language
      "_" gives `field__`). A naming that agrees with `field + "_" + lang` on the
      configured codes does (`ConfiguredFieldLangOk`), when no translatable field name
      ends in '_' or contains "__", and no code starts with '_' or contains "__". */
  ghost predicate NamingOk(s: Schema, loc: Naming) {
    forall f, l :: f in TranslatableNames(s) ==> !HasSep(loc(f, l))
  }

  /** The names of the translatable fields of all registered models. */
  ghost function TranslatableNames(s: Schema): set<string> {
    set m, f | m in s.translatable && f in s.translatable[m] :: f
  }

  /** `build_localized_fieldname` as the program defines it. */
  function FieldLang(f: string, l: string): string {
    f + "_" + l
  }

  /** `FieldLang`, but only on the configured language codes; any other language
      leaves the name as it is. */
  function ConfiguredFieldLang(codes: set<string>): Naming {
    (f: string, l: string) => if l in codes then FieldLang(f, l) else f
  }

  /** Over every language string, `FieldLang` breaks `NamingOk` as soon as
      some model has a translatable field. */
  lemma FieldLangNotOk(s: Schema, f: string)
    requires f in TranslatableNames(s)
    ensures !NamingOk(s, FieldLang)
  {
    assert SepAt(FieldLang(f, "_"), |f|);
  }

  /** `FieldLang(f, l)` has no separator when neither part has one, the field does
      not end in '_' and the code does not start with '_'. */
  lemma FieldLangNoSep(f: string, l: string)
    requires !HasSep(f) && !HasSep(l)
    requires |f| == 0 || f[|f| - 1] != '_'
    requires |l| == 0 || l[0] != '_'
    ensures !HasSep(FieldLang(f, l))
  {
    var n := FieldLang(f, l);
    forall i | 0 <= i < |n|
      ensures !SepAt(n, i)
    {
      if i + 1 < |f| {
        assert !SepAt(f, i);
      } else if i > |f| {
        assert !SepAt(l, i - |f| - 1);
      }
    }
  }

  /** The program's naming, restricted to the configured codes, meets `NamingOk` on
      schemas whose translatable field names and codes are well formed. */
  lemma ConfiguredFieldLangOk(s: Schema, codes: set<string>)
    requires forall f :: f in TranslatableNames(s) ==> !HasSep(f) && (|f| == 0 || f[|f| - 1] != '_')
    requires forall c :: c in codes ==> !HasSep(c) && (|c| == 0 || c[0] != '_')
    ensures NamingOk(s, ConfiguredFieldLang(codes))
  {
    forall f, l | f in TranslatableNames(s)
      ensures !HasSep(ConfiguredFieldLang(codes)(f, l))
    {
      if l in codes {
        FieldLangNoSep(f, l);
      }
    }
  }

  function Related(s: Schema, model: ModelId): map<string, ModelId> {
    if model in s.relations then s.relations[model] else map[]
  }

  /** `get_translatable_fields_for_model`: the options' fields, or `None` when the model
      is not registered (the `NotRegistered` of the strict accessor is caught). */
  function TranslatableFields(s: Schema, model: ModelId): (r: Option<set<string>>)
    ensures r.Some? <==> model in s.translatable
    ensures r.Some? ==> r.value == s.translatable[model]
  {
    if model in s.translatable then Some(s.translatable[model]) else None
  }

  /** `get_fields_to_translatable_models`: the translatable fields of a registered model
      that are direct relations to a registered model, with their targets. The source
      builds a list in the iteration order of the field set; the names in it are distinct,
      so the first entry whose name matches is the only one, and a map keyed by the name
      is equivalent. The strict accessor raises `NotRegistered` for other models. */
  function FieldsToTranslatableModels(s: Schema, model: ModelId): (r: Result<map<string, ModelId>>)
    ensures r.Failure? <==> model !in s.translatable
    ensures r.Failure? ==> r.error == NotRegistered(model)
    ensures r.Success? ==> forall f :: f in r.value ==>
      f in s.translatable[model] && f in Related(s, model) && r.value[f] == Related(s, model)[f]
    ensures r.Success? ==> forall f :: f in r.value ==> r.value[f] in s.translatable
    ensures r.Success? ==> forall f ::
      (f in s.translatable[model] && f in Related(s, model) && Related(s, model)[f] in s.translatable) ==> f in r.value
  {
    if model !in s.translatable then Failure(NotRegistered(model))
    else
      var rel := Related(s, model);
      Success(map f | f in s.translatable[model] && f in rel && TranslatableFields(s, rel[f]).Some? :: rel[f])
  }

  /** The first half of `rewrite_lookup_key`: a first segment that is a translatable
      field of a registered model becomes its localized name; the rest is reattached. */
  function LocalizeFirst(s: Schema, loc: Naming, model: ModelId, key: string, lang: string): string {
    match TranslatableFields(s, model)
    case Some(fields) =>
      if Head(key) in fields then
        var rest := Tail(key);
        if rest != "" then loc(Head(key), lang) + Sep + rest else loc(Head(key), lang)
      else key
    case None => key
  }

  /** The recursive call of `rewrite_lookup_key` is on a shorter key. */
  lemma LocalizeFirstShrinks(s: Schema, loc: Naming, model: ModelId, key: string, lang: string)
    requires NamingOk(s, loc)
    ensures |Split(LocalizeFirst(s, loc, model, key, lang))| > 1 ==>
      |Tail(LocalizeFirst(s, loc, model, key, lang))| < |key|
  {
    HeadTail(key);
    if model in s.translatable && Head(key) in s.translatable[model] {
      var n := loc(Head(key), lang);
      assert !HasSep(n);
      if Tail(key) != "" {
        SplitAfterName(n, Tail(key));
        TailShorter(key);
      } else {
        HeadTail(n);
      }
    } else if HasSep(key) {
      TailShorter(key);
    }
  }

  /** `rewrite_lookup_key(model, key, lang)`: `current` is the active language
      (`get_language()`), which the recursive call through a relation uses in place of
      `lang`. A registered model never raises; an unregistered one raises
      `NotRegistered` exactly when the key has more than one segment. */
  function RewriteLookupKey(s: Schema, loc: Naming, model: ModelId, key: string, lang: string, current: string): (r: Result<string>)
    requires NamingOk(s, loc)
    ensures model in s.translatable ==> r.Success?
    ensures model !in s.translatable ==> (r.Failure? <==> HasSep(key))
    ensures model !in s.translatable && r.Failure? ==> r.error == NotRegistered(model)
    decreases |key|
  {
    var key1 := LocalizeFirst(s, loc, model, key, lang);
    HeadTail(key1);
    var pieces := Split(key1);
    if |pieces| <= 1 then Success(key1)
    else
      match FieldsToTranslatableModels(s, model)
      case Failure(e) => Failure(e)
      case Success(rels) =>
        if pieces[0] !in rels then Success(key1)
        else
          var sub := Join(pieces[1..]);
          if sub == "" then Success(key1)
          else
            LocalizeFirstShrinks(s, loc, model, key, lang);
            var inner := RewriteLookupKey(s, loc, rels[pieces[0]], sub, current, current);
            Success(pieces[0] + Sep + inner.value)
  }

  /** `rewrite_order_lookup_key`: a leading '-' (descending order) is kept and the rest is
      rewritten in the active language. */
  function RewriteOrderLookupKey(s: Schema, loc: Naming, model: ModelId, key: string, current: string): (r: Result<string>)
    requires NamingOk(s, loc)
    ensures model in s.translatable ==> r.Success?
    ensures r.Success? && |key| > 0 && key[0] == '-' ==> |r.value| > 0 && r.value[0] == '-'
  {
    if |key| > 0 && key[0] == '-' then
      match RewriteLookupKey(s, loc, model, key[1..], current, current)
      case Success(k) => Success("-" + k)
      case Failure(e) => Failure(e)
    else RewriteLookupKey(s, loc, model, key, current, current)
  }

  /** Ends with '_', so that a following "__" would be cut one position earlier. */
  predicate EndsWithUnderscore(n: string) {
    |n| > 0 && n[|n| - 1] == '_'
  }

  /** A lookup on a translatable field of a registered model is redirected to the
      localized field of `lang`, with the rest of the key (a lookup type) kept as it is. The
      localized name must not itself be a translatable field (physical names never are),
      and must not end with '_'. */
  lemma TranslatableFirstSegment(s: Schema, loc: Naming, model: ModelId, key: string, lang: string, current: string)
    requires NamingOk(s, loc)
    requires model in s.translatable && Head(key) in s.translatable[model]
    requires loc(Head(key), lang) !in s.translatable[model] && !EndsWithUnderscore(loc(Head(key), lang))
    ensures RewriteLookupKey(s, loc, model, key, lang, current) ==
      Success(if Tail(key) == "" then loc(Head(key), lang) else loc(Head(key), lang) + Sep + Tail(key))
  {
    var n := loc(Head(key), lang);
    assert !HasSep(n);
    if Tail(key) != "" {
      SplitAfterName(n, Tail(key));
    } else {
      HeadTail(n);
    }
  }

  /** A key whose first segment is not a translatable field of the registered model is
      returned unchanged: the relations followed are themselves translatable fields. */
  lemma NonTranslatableUnchanged(s: Schema, loc: Naming, model: ModelId, key: string, lang: string, current: string)
    requires NamingOk(s, loc)
    requires model in s.translatable && Head(key) !in s.translatable[model]
    ensures RewriteLookupKey(s, loc, model, key, lang, current) == Success(key)
  {
    HeadTail(key);
  }

  /** For a model that is not registered the translatable-field check is skipped: a
      one-segment key comes back unchanged, any longer key raises `NotRegistered` from
      the relation lookup. */
  lemma UnregisteredModel(s: Schema, loc: Naming, model: ModelId, key: string, lang: string, current: string)
    requires NamingOk(s, loc)
    requires model !in s.translatable
    ensures RewriteLookupKey(s, loc, model, key, lang, current) ==
      if HasSep(key) then Failure(NotRegistered(model)) else Success(key)
  {
    HeadTail(key);
  }

  /** When the (localized) first segment names a translatable relation to a registered
      model, the remainder is rewritten against that model in the ACTIVE language,
      whatever `lang` was asked for, and reattached behind the relation's name. */
  lemma RelationTraversal(s: Schema, loc: Naming, model: ModelId, key: string, lang: string, current: string)
    requires NamingOk(s, loc)
    requires model in s.translatable
    requires HasSep(LocalizeFirst(s, loc, model, key, lang))
    requires Head(LocalizeFirst(s, loc, model, key, lang)) in FieldsToTranslatableModels(s, model).value
    requires Tail(LocalizeFirst(s, loc, model, key, lang)) != ""
    ensures
      var key1 := LocalizeFirst(s, loc, model, key, lang);
      var target := Related(s, model)[Head(key1)];
      RewriteLookupKey(s, loc, model, key, lang, current) ==
        Success(Head(key1) + Sep + RewriteLookupKey(s, loc, target, Tail(key1), current, current).value)
  {
    HeadTail(LocalizeFirst(s, loc, model, key, lang));
  }

  /** The relations of `model` to registered models, whether or not the relation is
      itself a translatable field. */
  function RelationsToRegistered(s: Schema, model: ModelId): map<string, ModelId> {
    var rel := Related(s, model);
    map f | f in rel && rel[f] in s.translatable :: rel[f]
  }

  /** `rewrite_lookup_key` with the relation step looking through every relation of the
      model to a registered model, as the step's comment ("a lookup to a related trans
      model") says. As written, the step looks only among the model's translatable
      fields. One of them is a relation only when a ForeignKey is itself translated, and
      that one is compared after its name has been localized (`author_<lang>`), so no
      relation is ever followed (modeltranslation/manager.py:44-49, 113). */
  function RewriteLookupKeyThroughRelations(s: Schema, loc: Naming, model: ModelId, key: string,
                                            lang: string, current: string): string
    requires NamingOk(s, loc)
    decreases |key|
  {
    var key1 := LocalizeFirst(s, loc, model, key, lang);
    HeadTail(key1);
    var pieces := Split(key1);
    var rels := RelationsToRegistered(s, model);
    if |pieces| <= 1 || pieces[0] !in rels then key1
    else
      var sub := Join(pieces[1..]);
      if sub == "" then key1
      else
        LocalizeFirstShrinks(s, loc, model, key, lang);
        pieces[0] + Sep + RewriteLookupKeyThroughRelations(s, loc, rels[pieces[0]], sub, current, current)
  }

  /** Through a relation to a registered model that is not a translatable field, the
      corrected rewrite rewrites the rest of the key against the related model in the
      active language; on a key of a translatable field it localizes that field, as
      `rewrite_lookup_key` does. */
  lemma ThroughRelationsFollowsRelation(s: Schema, loc: Naming, model: ModelId, key: string, lang: string, current: string)
    requires NamingOk(s, loc)
    ensures (model in s.translatable && Head(key) in s.translatable[model] &&
             loc(Head(key), lang) !in RelationsToRegistered(s, model) && !EndsWithUnderscore(loc(Head(key), lang))) ==>
      RewriteLookupKeyThroughRelations(s, loc, model, key, lang, current) ==
        if Tail(key) == "" then loc(Head(key), lang) else loc(Head(key), lang) + Sep + Tail(key)
    ensures (!(model in s.translatable && Head(key) in s.translatable[model]) &&
             Head(key) in RelationsToRegistered(s, model) && Tail(key) != "") ==>
      RewriteLookupKeyThroughRelations(s, loc, model, key, lang, current) ==
        Head(key) + Sep + RewriteLookupKeyThroughRelations(s, loc, Related(s, model)[Head(key)], Tail(key), current, current)
  {
    HeadTail(key);
    if model in s.translatable && Head(key) in s.translatable[model] {
      var n := loc(Head(key), lang);
      assert !HasSep(n);
      if Tail(key) != "" {
        SplitAfterName(n, Tail(key));
      } else {
        HeadTail(n);
      }
    }
  }

  /** `Book.author` is a plain relation to the registered `Author`, whose `name` is
      translatable. As written, `author__name` is left as it is, so the query compares
      the original `name` column; the corrected rewrite gives `author__name_<current>`. */
  lemma RelatedLookupNotRewritten(loc: Naming, lang: string, current: string)
    requires NamingOk(Schema(map[1 := {"title"}, 2 := {"name"}], map[1 := map["author" := 2]]), loc)
    ensures var s := Schema(map[1 := {"title"}, 2 := {"name"}], map[1 := map["author" := 2]]);
      RewriteLookupKey(s, loc, 1, "author__name", lang, current) == Success("author__name") &&
      RewriteLookupKeyThroughRelations(s, loc, 1, "author__name", lang, current) == "author__" + loc("name", current)
  {
    var s := Schema(map[1 := {"title"}, 2 := {"name"}], map[1 := map["author" := 2]]);
    assert !HasSep("author") by {
      assert forall j :: 0 <= j < |"author"| ==> "author"[j] != '_';
    }
    assert !HasSep("name") by {
      assert forall j :: 0 <= j < |"name"| ==> "name"[j] != '_';
    }
    assert "author__name" == "author" + Sep + "name";
    SplitAfterName("author", "name");
    NonTranslatableUnchanged(s, loc, 1, "author__name", lang, current);
    assert "author" in RelationsToRegistered(s, 1);
    ThroughRelationsFollowsRelation(s, loc, 1, "author__name", lang, current);
    HeadTail("name");
    assert !HasSep(loc("name", current));
    HeadTail(loc("name", current));
  }

  /** A key whose first segment is a translatable field has that segment localized and
      nothing else rewritten, whether or not the field is a relation: its localized name
      is not among the translatable fields the relation step looks at. */
  lemma TranslatedHeadNotFollowed(s: Schema, loc: Naming, model: ModelId, r: string, rest: string,
                                  lang: string, current: string)
    requires NamingOk(s, loc)
    requires model in s.translatable && r in s.translatable[model] && !HasSep(r) && !EndsWithUnderscore(r)
    requires loc(r, lang) !in s.translatable[model] && !EndsWithUnderscore(loc(r, lang))
    ensures RewriteLookupKey(s, loc, model, r + Sep + rest, lang, current) ==
      Success(if rest == "" then loc(r, lang) else loc(r, lang) + Sep + rest)
  {
    SplitAfterName(r, rest);
    TranslatableFirstSegment(s, loc, model, r + Sep + rest, lang, current);
  }

  /** As written, a translated relation is not followed either: the localized first
      segment `author_<lang>` is compared with the translatable fields, which hold
      `author`, so the rest of the key stays as it is. */
  lemma TranslatedRelationNotFollowed(loc: Naming, lang: string, current: string)
    requires NamingOk(Schema(map[1 := {"author"}, 2 := {"name"}], map[1 := map["author" := 2]]), loc)
    requires loc("author", lang) != "author" && !EndsWithUnderscore(loc("author", lang))
    ensures var s := Schema(map[1 := {"author"}, 2 := {"name"}], map[1 := map["author" := 2]]);
      RewriteLookupKey(s, loc, 1, "author" + Sep + "name", lang, current) == Success(loc("author", lang) + Sep + "name")
  {
    var s := Schema(map[1 := {"author"}, 2 := {"name"}], map[1 := map["author" := 2]]);
    assert !HasSep("author") by {
      assert forall j :: 0 <= j < |"author"| ==> "author"[j] != '_';
    }
    TranslatedHeadNotFollowed(s, loc, 1, "author", "name", lang, current);
  }

  /** Rewriting a physical name again changes nothing, whatever language is asked for:
      localized names are not themselves translatable, so nothing is rewritten twice. */
  lemma PhysicalNameStable(s: Schema, loc: Naming, model: ModelId, f: string, lang: string, lang2: string, current: string)
    requires NamingOk(s, loc)
    requires model in s.translatable && f in s.translatable[model] && !HasSep(f)
    requires loc(f, lang) !in s.translatable[model]
    ensures RewriteLookupKey(s, loc, model, f, lang, current) == Success(loc(f, lang))
    ensures RewriteLookupKey(s, loc, model, RewriteLookupKey(s, loc, model, f, lang, current).value, lang2, current) ==
      RewriteLookupKey(s, loc, model, f, lang, current)
  {
    HeadTail(f);
    var n := loc(f, lang);
    assert !HasSep(n);
    HeadTail(n);
  }

  /** An ordering on a translatable field of a registered model, ascending or
      descending, becomes the same ordering on the field's column in the active
      language. */
  lemma OrderKeyOfTranslatableField(s: Schema, loc: Naming, model: ModelId, f: string, current: string)
    requires NamingOk(s, loc)
    requires model in s.translatable && f in s.translatable[model] && !HasSep(f)
    requires loc(f, current) !in s.translatable[model]
    ensures RewriteOrderLookupKey(s, loc, model, "-" + f, current) == Success("-" + loc(f, current))
    ensures !(|f| > 0 && f[0] == '-') ==> RewriteOrderLookupKey(s, loc, model, f, current) == Success(loc(f, current))
  {
    assert ("-" + f)[1..] == f;
    PhysicalNameStable(s, loc, model, f, current, current, current);
  }
}
