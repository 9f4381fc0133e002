# django-modeltranslation: a verified model of the translation layer

django-modeltranslation gives a Django model one database column per language for each
translated field (`name` becomes `name_en`, `name_de`, ...) and keeps the original field
name usable. This project models, in Dafny, the parts that make that work:

- **Lookup-key resolver** (`lookup_path.dfy`, `resolver.dfy`). `rewrite_lookup_key` turns a
  logical lookup such as `name__startswith` into `name_de__startswith`. When the first
  segment (after localization) names a translatable relation to a registered model, the
  rest of the key is rewritten against that model, recursively. As written, this step
  never fires for the program's `field_lang` naming (see "## Findings").
  `rewrite_order_lookup_key` keeps a leading `-`.
- **Fallback expander** (`query_tree.dfy`, `fallbacks.dfy`). `rewrite_with_fallbacks` turns
  one comparison into a right-nested AND/OR condition over the languages of the
  resolution order. It refuses `isnull`.
- **Query set** (`queryset.dfy`, `auto_populate.dfy`). `MultilingualQuerySet` is a class
  with the `_rewrite`, `_fallbacks` and `_populate` flags. It rewrites Q trees, F
  expressions, orderings and `update` keyword arguments. `auto_populate` is a scoped
  change of the `AUTO_POPULATE` setting.
- **Field descriptors** (`fields.py` → `fields.dfy`). A descriptor reads the first defined
  value in resolution order, then the fallback value or the default. It writes only the
  active language's column, and not during construction. Translation-field equality and
  hashing are keyed on (creation counter, language). A field class must be supported.
- **Translator registry** (`translator.dfy`). The registry is a per-model cache of
  `TranslationOptions` with a `registered` flag, inheritance from abstract bases,
  `add_localized_fields` with its name-clash check, the descriptors `register` installs,
  and the rewritten keyword arguments of the patched constructor.
- **`loaddata --populate`** (`loaddata.dfy`). The `check_mode` validator, and `handle`
  under `auto_populate`.

Django's `Q`/`Node` is a tagged tree of `Leaf(key, value)` and
`Node(connector, negated, children)`. Model classes are numbered by `ModelId`, with every
base numbered below its subclasses, as Python's class hierarchy is acyclic.

Some collaborators are parameters:
- `build_localized_fieldname` is a naming function `loc`.
- The active language is a string `current`.
- `resolution_order` is a non-empty list of languages.
- The settings `ENABLE_FALLBACKS`, `LANGUAGES` and `CUSTOM_FIELDS` are passed in.

The resolver reads the registry through a `Schema`: the translatable fields of each
registered model and the relations of each model. `Translator.SchemaOf` builds the
`Schema` from the registry.

`update` rewrites its keyword arguments only while `_rewrite` is on
(modeltranslation/manager.py:245-246).

## Model

| member | source | states |
|---|---|---|
| LookupPath.JoinSplit | modeltranslation/manager.py:34-40 | Joining the `__`-pieces of a key with `__` gives the key back, so taking `pieces[1:]` and re-joining keeps the rest of the lookup intact |
| LookupPath.HeadTail | modeltranslation/manager.py:34-45 | A key without `__` is one piece with an empty rest; otherwise it is its first piece, `__`, and the rejoined remaining pieces, with more than one piece |
| LookupPath.RSplitOnce | modeltranslation/manager.py:91 | `rsplit('__', 1)`: no second part exactly when the lookup has no `__`; otherwise the lookup is the first part, `__` and a last part that holds no `__` |
| Resolver.FieldsToTranslatableModels | modeltranslation/manager.py:110-118 | `NotRegistered` exactly for an unregistered model; otherwise exactly the translatable fields that are relations to a registered model, each with its target |
| Resolver.RewriteLookupKey | modeltranslation/manager.py:29-56 | Never fails for a registered model; for an unregistered model fails exactly on a multi-segment key, and then with `NotRegistered` |
| Resolver.TranslatableFirstSegment | modeltranslation/manager.py:38-42 | A translatable first segment becomes its localized name for `lang`, followed by `__` and the unchanged rest when there is a rest |
| Resolver.NonTranslatableUnchanged | modeltranslation/manager.py:38-56 | A key whose first segment is not a translatable field of the registered model comes back unchanged |
| Resolver.UnregisteredModel | modeltranslation/manager.py:21-33 | For an unregistered model the translatable-field check is skipped: a one-segment key comes back unchanged, a longer key raises `NotRegistered` |
| Resolver.RelationTraversal | modeltranslation/manager.py:44-54 | When the localized first segment names a translatable field that is a relation to a registered model, the remainder is rewritten against the related model in the active language and reattached behind the relation name |
| Resolver.ThroughRelationsFollowsRelation | modeltranslation/manager.py:44-54 | Corrected relation step: through a relation to a registered model that is not a translatable field, the rest of the key is rewritten against the related model in the active language; a translatable first segment is localized as before |
| Resolver.RelatedLookupNotRewritten | modeltranslation/manager.py:44-54 | As written, `author__name` on a model whose `author` is a plain relation to a registered model with a translatable `name` is left unchanged; corrected, it becomes `author__` followed by the localized `name` |
| Resolver.TranslatedHeadNotFollowed | modeltranslation/manager.py:38-54 | A key whose first segment is a translatable field has that segment localized and the rest kept as it is, even when the field is a relation, because its localized name is not among the translatable fields the relation step looks at |
| Resolver.TranslatedRelationNotFollowed | modeltranslation/manager.py:44-54 | As written, `author__name` on a model whose translated ForeignKey `author` points to a registered model with a translatable `name` becomes `author_<lang>__name`: the relation is not followed |
| Resolver.FieldLangNotOk | modeltranslation/manager.py:38 | The localized name built at this call, `field + "_" + lang`, contains `__` for the language `_`, so over every string the program's naming does not meet the resolver's hypothesis |
| Resolver.ConfiguredFieldLangOk | modeltranslation/manager.py:38 | On the configured codes, `field + "_" + lang` never contains `__` when no translatable field name ends in `_` or contains `__` and no code starts with `_` or contains `__`, so a naming that agrees with it there meets the resolver's hypothesis |
| Resolver.PhysicalNameStable | modeltranslation/manager.py:29-42 | Rewriting a name already rewritten to a localized column changes nothing, in any language |
| Resolver.RewriteOrderLookupKey | modeltranslation/manager.py:103-107 | Never fails for a registered model; a leading `-` is still there in the result |
| Resolver.OrderKeyOfTranslatableField | modeltranslation/manager.py:103-107 | On a registered model, `-f` for a translatable field `f` becomes `-` followed by `f`'s column in the active language, and `f` without the marker becomes that column |
| Fallbacks.ExpandFallbacks | modeltranslation/manager.py:59-68 | Never fails for a registered model; for an unregistered one fails exactly when the field part has `__` |
| Fallbacks.Columns | modeltranslation/manager.py:60 | One column per language, the rewrite of the field part for that language |
| Fallbacks.SingleLanguage | modeltranslation/manager.py:59-63 | With one language, the expansion is `col__isnull=False AND col__<type>=value`, with no OR |
| Fallbacks.SeveralLanguages | modeltranslation/manager.py:64-67 | With more languages, it is the first language's strengthened comparison OR (its column is NULL or '' AND the expansion of the remaining languages) |
| Fallbacks.ExpansionLeaves | modeltranslation/manager.py:59-68 | The leaves are the per-language blocks in language order; there are 4n-2 for n languages |
| Fallbacks.ExpansionMeaning | modeltranslation/manager.py:70-90 | A row satisfies the expansion exactly when some language's column is not NULL and matches while every earlier language's column is NULL or empty |
| Fallbacks.FirstNonEmptyDecides | modeltranslation/manager.py:71-89 | When the empty string never matches, the first language whose column is not empty decides the outcome, as the doc comment promises |
| Fallbacks.SplitLookupAsWritten | modeltranslation/manager.py:91-95 | As written: the field part is always the text before the last `__`, or the whole lookup when it has none; the type is the last segment when that is a query term, otherwise `exact` |
| Fallbacks.SplitLookup | modeltranslation/manager.py:91-95 | Corrected split: a last segment that is not a query term stays in the field part |
| Fallbacks.SplitAsWrittenDropsSegment | modeltranslation/manager.py:91-95 | As written, a last segment that is not a query term is dropped from the field part; the corrected split keeps the whole lookup |
| Fallbacks.SplitLookupKeepsLookup | modeltranslation/manager.py:91-95 | The corrected split is either the whole lookup with `exact`, or field part, `__` and a query term that concatenate back to the lookup |
| Fallbacks.SplitOfRelationLookup | modeltranslation/manager.py:91-95 | `author__name` splits as written into (`author`, `exact`), and as intended into (`author__name`, `exact`) |
| Fallbacks.RewriteWithFallbacksAsWritten | modeltranslation/manager.py:70-100 | As written: fails with `NotImplementedError` exactly when the last segment is `isnull`, and otherwise never for a registered model; the result is the expansion of the as-written split |
| Fallbacks.RewriteWithFallbacks | modeltranslation/manager.py:70-100 | Fails with the `isnull` error exactly when the last segment is `isnull`; otherwise it is the expansion of the corrected split, and it never fails for a registered model |
| Fallbacks.ExpandWithoutTranslatableFields | modeltranslation/manager.py:59-63 | On a model without translatable fields, one language compares the field part as it is |
| Fallbacks.AsWrittenComparesWrongColumn | modeltranslation/manager.py:91-99 | As written, `author__name=v` becomes a comparison of the column `author`; corrected, of `author__name` |
| QuerySet.RewriteLeaf | modeltranslation/manager.py:203-207 | With `_fallbacks` and `ENABLE_FALLBACKS` both on, a leaf becomes `rewrite_with_fallbacks` of it as written (the expansion of the as-written split); otherwise it becomes (rewritten key, same value) |
| QuerySet.RewriteQ | modeltranslation/manager.py:201-210 | On a registered model it never fails without fallbacks, and with them it fails only on `isnull` |
| QuerySet.RewriteQRenamesLeaves | modeltranslation/manager.py:201-210 | Without fallbacks the tree keeps its shape, connectors, negations and leaf count, and each leaf is (rewritten key, same value) |
| QuerySet.RewriteQFailure | modeltranslation/manager.py:201-210 | The tree rewrite fails exactly when some leaf's rewrite fails, and with that leaf's error |
| QuerySet.FallbacksRejectIsnull | modeltranslation/manager.py:204-205 | With fallbacks on a registered model, the rewrite fails exactly when some leaf key ends in `__isnull`, and then with the `isnull` error |
| QuerySet.UnregisteredConditionFails | modeltranslation/manager.py:201-210 | On an unregistered model, without fallbacks, the rewrite fails exactly when some leaf key has `__` |
| QuerySet.FallbackLeafCount | modeltranslation/manager.py:204-205 | With fallbacks and n languages, every leaf becomes 4n-2 leaves |
| QuerySet.RewriteF | modeltranslation/manager.py:213-222 | Never fails for a registered model |
| QuerySet.RewriteFRenames | modeltranslation/manager.py:213-222 | The expression keeps its shape and literals, and every `F` name is replaced by its rewrite, in order |
| QuerySet.RewriteFLiteral | modeltranslation/manager.py:217-222 | A value that is neither `F` nor a node is returned as it is |
| QuerySet.RewriteOrdering | modeltranslation/manager.py:197-198 | Succeeds exactly when every key rewrites; then it has the same length and each entry is its key's rewrite; never fails for a registered model |
| QuerySet.OrderingKeepsDirection | modeltranslation/manager.py:103-107 | Rewriting an ordering keeps its length and every descending marker |
| QuerySet.UpdateKwargs | modeltranslation/manager.py:247-250 | Never fails for a registered model |
| QuerySet.UpdateEntryFromItems | modeltranslation/manager.py:247-250 | Every entry left after the loop is some item's rewritten key with its `_rewrite_f` value, or an entry no item touched |
| QuerySet.UpdateLastWriterWins | modeltranslation/manager.py:247-250 | An item whose rewritten key no later item deletes or sets again ends up in the result with its rewritten value |
| QuerySet.UpdateKeepsUntouched | modeltranslation/manager.py:247-250 | An entry that no item deletes or sets survives unchanged |
| QuerySet.SetDefault | modeltranslation/manager.py:145-147 | `setdefault`: an explicit keyword argument wins over the current flag |
| QuerySet.MultilingualQuerySet.constructor | modeltranslation/manager.py:123-132 | A new query set starts with `_rewrite` on, `_fallbacks` off and no `_populate` mode |
| QuerySet.MultilingualQuerySet.PostInit | modeltranslation/manager.py:127-141 | Resets the flags to their defaults; without an ordering, adopts the model's default ordering rewritten, and fails exactly when that rewrite fails |
| QuerySet.MultilingualQuerySet.Clone | modeltranslation/manager.py:123-148 | The copy is built through the constructor, so its `_post_init` runs first: without an ordering of its own it adopts the model's default ordering rewritten in the active language, and the clone fails exactly when that rewrite fails; then every flag is this query set's unless given explicitly; the conditions are copied |
| QuerySet.MultilingualQuerySet.Rewrite | modeltranslation/manager.py:151-156 | A clone with only `_rewrite` changed, carrying the ordering the clone's `_post_init` leaves; it fails exactly when that step's rewrite of the default ordering fails |
| QuerySet.MultilingualQuerySet.Fallbacks | modeltranslation/manager.py:159-166 | A clone with only `_fallbacks` changed, carrying the ordering the clone's `_post_init` leaves; it fails exactly when that step's rewrite of the default ordering fails |
| QuerySet.MultilingualQuerySet.Populate | modeltranslation/manager.py:168-172 | A clone with only `_populate` changed, carrying the ordering the clone's `_post_init` leaves; it fails exactly when that step's rewrite of the default ordering fails |
| QuerySet.MultilingualQuerySet.RewriteOrder | modeltranslation/manager.py:196-198 | The ordering is replaced by its rewrite; the call fails exactly when some key's rewrite fails, and then the ordering is left as it was; nothing else changes |
| QuerySet.MultilingualQuerySet.FilterOrExclude | modeltranslation/manager.py:224-230 | Fails exactly when rewriting is on and the condition's rewrite fails, or the clone's `_post_init` fails to rewrite the default ordering; otherwise a clone with the same flags whose conditions gain the (rewritten when `_rewrite` is on, negated for exclude) condition |
| QuerySet.FilterCondition | modeltranslation/manager.py:224-230 | The condition added: the plain Q without rewriting, otherwise the rewritten Q; negated for exclude |
| QuerySet.MultilingualQuerySet.OrderBy | modeltranslation/manager.py:232-242 | Fails exactly when rewriting is on and some name's rewrite fails, or the clone's `_post_init` fails to rewrite the default ordering; otherwise a clone with the same flags and conditions whose ordering is the names as given without rewriting, and each name rewritten, in order, with it |
| QuerySet.MultilingualQuerySet.Update | modeltranslation/manager.py:244-251 | Without rewriting, the keyword arguments are passed on unchanged; with it, they are the result of the key-by-key delete-and-reinsert loop |
| QuerySet.MultilingualQuerySet.PopulateMode | modeltranslation/manager.py:256-260 | The global `AUTO_POPULATE` exactly when `_populate` is `None`, otherwise `_populate` |
| QuerySet.MultilingualQuerySet.Create | modeltranslation/manager.py:263-275 | Django's create runs with `AUTO_POPULATE` set to the population mode, and the setting is restored afterwards |
| AutoPopulate.Settings.Enter | modeltranslation/manager.py:267 | Entering `auto_populate(mode)` sets the mode and returns the setting it replaces |
| AutoPopulate.Settings.Exit | modeltranslation/manager.py:267 | Leaving the block restores the saved setting |
| Fields.TranslationFieldDescriptor.Set | modeltranslation/fields.py:233-242 | During construction nothing changes; otherwise only the active language's localized attribute is set |
| Fields.TranslationFieldDescriptor.Get | modeltranslation/fields.py:244-268 | Returns the first value in resolution order that differs from the undefined value; with none, the fallback value when fallbacks are on and one was given, else the default |
| Fields.TranslationFieldDescriptor.Exhausted | modeltranslation/fields.py:263-268 | The fallback value exactly when fallbacks are on and a fallback value was given, otherwise the field default |
| Fields.FirstDefined | modeltranslation/fields.py:258-262 | The first position whose value differs from `undefined`, with every earlier value equal to it; none when all are equal |
| Fields.LocalizedValues | modeltranslation/fields.py:258-260 | The attribute of each language's localized name, in resolution order, `None` when missing |
| Fields.ReadAfterWrite | modeltranslation/fields.py:233-262 | A value written in the active language is what a read in that language finds first, unless it is the undefined value |
| Fields.TranslatedRelationIdDescriptor.Set | modeltranslation/fields.py:280-285 | Only the active language's `_id` attribute is set |
| Fields.TranslatedRelationIdDescriptor.Get | modeltranslation/fields.py:287-298 | The first `_id` value in resolution order that is not `None`, with every earlier one `None`; `None` when all are |
| Fields.EqualityMatchesHash | modeltranslation/fields.py:153-163 | Equality holds exactly when the hash keys (creation counter, language) agree; it is symmetric, and `__ne__` is its negation |
| Fields.LanguagesTellFieldsApart | modeltranslation/fields.py:153-160 | Translations of one field into different languages are unequal to each other and to a field without a language |
| Fields.SaveFormData | modeltranslation/fields.py:189-199 | The save is skipped exactly when the field's language is active, the instance already holds a truthy value and `data` is falsy; otherwise `data` is stored |
| Fields.FormSaveKeepsTranslatedValue | modeltranslation/fields.py:190-198 | After the original field set a truthy value, an empty form value keeps it for the active language only |
| Fields.CreateTranslationField | modeltranslation/fields.py:46-65 | `ImproperlyConfigured` exactly for a field that is not an instance of a supported class and whose class is not a custom field; otherwise a translation named by the naming scheme, with the field's creation counter |
| Fields.SubclassesAccepted | modeltranslation/fields.py:11-30 | A subclass of a supported class is accepted; a class outside the supported ones only when it is a custom field |
| Translator.AggregateFields | modeltranslation/translator.py:24-29 | The options class's fields are exactly its declared fields together with those of every base made by the metaclass |
| Translator.Merged | modeltranslation/translator.py:64-72 | Inherited fields and names are always merged (the other's names win); fields and localized names are merged only from an abstract parent |
| Translator.MergedConsistent | modeltranslation/translator.py:64-72 | Merging keeps the fields within the inherited fields, and the localized names within the inherited names |
| Translator.ConcreteParentsOnlyInherited | modeltranslation/translator.py:64-72 | Merging any number of concrete parents leaves the fields and localized names unchanged, but every parent's inherited fields reach the model |
| Translator.ParentsFieldsReachModel | modeltranslation/translator.py:64-72 | Each parent's inherited fields, and an abstract parent's fields, end up in the model's options |
| Translator.TranslationOptions.constructor | modeltranslation/translator.py:54-62 | New options are unregistered, with the class's fields as both fields and inherited fields and empty name maps |
| Translator.TranslationOptions.Update | modeltranslation/translator.py:64-72 | The options' new state is the merge of the old one with the other's; the `registered` flag is untouched |
| Translator.LocalizeCheck | modeltranslation/translator.py:88-101 | The only errors adding one translation can raise: a missing field, an unsupported field class, or an attribute already named like the localized field |
| Translator.AddFieldTranslations | modeltranslation/translator.py:90-105 | Succeeds exactly when every language passes `LocalizeCheck`, then returns the localized names in language order and has added each translation; otherwise fails with some language's error |
| Translator.AddLocalizedFields | modeltranslation/translator.py:79-106 | Succeeds exactly when every field and language passes; then the result maps each field to its localized names in `LANGUAGES` order; otherwise fails with some field's error |
| Translator.FallbackValueAsWritten | modeltranslation/translator.py:229-236 | As written, the descriptor always gets a value: `None` when the model has no fallback values or its dictionary lacks the field, otherwise the dictionary's entry or the shared value |
| Translator.FallbackValue | modeltranslation/translator.py:229-236 | Corrected selection: "not provided" exactly when the model has none or the dictionary lacks the field; otherwise the dictionary's entry or the shared value |
| Translator.FallbackSelectionsAgree | modeltranslation/translator.py:229-236 | Where a fallback value is provided, the as-written and corrected selections agree |
| Translator.AsWrittenHidesDefault | modeltranslation/translator.py:229-240 | As written, with fallbacks on and no value in any language, a read returns `None` instead of the field's default |
| Translator.UnsetFallbackReadsDefault | modeltranslation/fields.py:263-268 | With the corrected selection and no fallback values, an exhausted read returns the field's default |
| Translator.InstallDescriptors | modeltranslation/translator.py:229-241 | Succeeds exactly when every field exists; then every field is a class attribute holding a descriptor with the fallback value chosen as written (`None` when none is given) and the field default; otherwise fails with a missing field; either way only those fields become attributes or gain descriptors, and descriptors of other names are unchanged |
| Translator.SetDefaults | modeltranslation/translator.py:135-139 | Never fails for a registered model, and every original keyword argument is kept with its value |
| Translator.SetDefaultsAddsEveryKey | modeltranslation/translator.py:136-139 | Every item's rewritten key is among the arguments passed on |
| Translator.SetDefaultsFirstWins | modeltranslation/translator.py:136-139 | A key added by the loop holds the value of the first item that rewrites to it, so explicitly passed localized values are never overwritten |
| Translator.Translator.constructor | modeltranslation/translator.py:182-184 | The registry starts empty |
| Translator.Translator.SchemaOf | modeltranslation/manager.py:21-26 | `get_translatable_fields_for_model`: a model has translatable fields in the resolver's view exactly when its cached options are registered (the strict accessor of translator.py:282-291), and they are the options' fields; `Resolver.TranslatableFields` reads this snapshot as `Some(fields)` or `None` |
| Translator.Translator.GetOptions | modeltranslation/translator.py:257-280 | A cached model's options are returned unchanged; a new model gets fresh unregistered options merged from the options of every base with `_meta`, in order, and is then cached; existing entries are kept, and every entry cached along the way for a base is unregistered |
| Translator.Translator.MergeBase | modeltranslation/translator.py:269-274 | After base i, the options are the merge of the initial state with the first i+1 bases that have `_meta` |
| Translator.Translator.AddParent | modeltranslation/translator.py:274 | The base's options are fetched (and cached), and merged into the options under construction |
| Translator.Translator.GetOptionsForModel | modeltranslation/translator.py:282-291 | Succeeds exactly when the model's cached options are registered; otherwise `NotRegistered`, with the options left cached and unregistered; options cached along the way for bases are unregistered |
| Translator.Translator.Unregister | modeltranslation/translator.py:246-255 | `NotRegistered` exactly when the model was not registered; afterwards it is unregistered, and every other model keeps its flag and options, and options cached along the way for bases are unregistered |
| Translator.Translator.Register | modeltranslation/translator.py:186-241 | `AlreadyRegistered` exactly when already registered; otherwise registered from then on; a model already cached keeps its cached fields and `cls` is ignored; options cached along the way for bases are unregistered; it succeeds exactly when every localized field can be added; then both name maps hold each field's localized names and the descriptors, with the fallback value chosen as written, are in place; the class's record of added fields is extended, never rewritten, only with translation fields of the options' fields, and on success holds every field's translation in every language; descriptors of other names and the other models' options are unchanged, and no descriptor appears under a name outside the options' fields; on `AlreadyRegistered` the model class is untouched; for a model not cached before, the options carry the class's fallback values and the fields of the class merged with those of the bases with `_meta`, as `GetOptions` computes them |
| Translator.Translator.AddTranslations | modeltranslation/translator.py:209-241 | Adds the localized fields: the class's record of added fields is only extended, with translation fields of the options' fields, and on success holds every field's translation in every language; records them in both name maps, then installs the descriptors with the fallback value chosen as written, leaving descriptors of other names unchanged and adding none outside the options' fields; it fails only with one of the three field errors |
| Translator.Translator.PatchedInitKwargs | modeltranslation/translator.py:135-140 | The arguments passed to the original constructor are the result of the `setdefault` loop over the given items |
| LoadData.MeansFalseSpellings | modeltranslation/management/commands/loaddata.py:14 | `value.lower() == 'false'` holds exactly for five-letter values whose letters are those of "false" in either case |
| LoadData.CheckMode | modeltranslation/management/commands/loaddata.py:9-17 | Accepts exactly `'0'`, any casing of `'false'`, and the exact strings `'all'`, `'default'` and `'required'`; the first two become `False`, the others are kept; an accepted value is in `ALLOWED`; anything else raises `OptionValueError` |
| LoadData.CheckModeExamples | modeltranslation/management/commands/loaddata.py:9-17 | `'False'` and `'0'` become `False`, `'required'` is kept, and `'ALL'` and `'1'` are refused |
| LoadData.ParserValues.CheckModeCallback | modeltranslation/management/commands/loaddata.py:13-18 | An accepted value is stored under `option.dest` and nothing else changes; a refused one leaves the values as they were |
| LoadData.Handle | modeltranslation/management/commands/loaddata.py:29-35 | The fixtures load under `auto_populate(mode)` exactly when `populate` is given and not `None`, otherwise under the global setting, which is restored afterwards |

## Left out

- Django's query machinery is not modelled: `super()` calls, `Constraint` objects, and `_rewrite_where` (manager.py:183-194). The query set keeps its conditions and ordering as values.
- `MultilingualManager` and `add_manager` are not modelled. They swap classes at runtime (manager.py:279-300, translator.py:109-127).
- `_rewrite_q` and `_rewrite_f` overwrite `children` and `name` in place. The model builds new values instead, so aliasing of a caller's Q or F object is not captured.
- Django's `Node.add` flattening of `&` and `|` is not modelled. Each connector builds a binary node.
- Django's `_clone` is modelled as far as it concerns this class: the copy is built through the constructor, so `_post_init` runs on it, and then the keyword arguments overwrite its flags. The other attributes Django's `_clone` copies are not modelled, and the model's `Meta.ordering` is a field of the query set.
- The `instance is None` path of the descriptors' `__get__`, which returns the descriptor itself on class access (fields.py:250-251, 288-289), is not modelled: the model's reads are always on an instance.
- Parameters, with their behaviour left out:
  - `build_localized_fieldname`.
  - `get_language`.
  - `resolution_order` and `fallback_languages`: the order is a parameter of the descriptor reads.
  - The settings `ENABLE_FALLBACKS`, `LANGUAGES` and `CUSTOM_FIELDS`.
- Resolver.RewriteLookupKey: requires that no localized name of a translatable field of a registered model contains `__`, in any language (`NamingOk`). Without that, the recursion through a relation need not terminate. The localized names of other fields are not constrained. This hypothesis holds for a naming that agrees with the program's `field + "_" + lang` on the configured language codes, when no translatable field name ends in `_` or contains `__`, and no code starts with `_` or contains `__` (`Resolver.ConfiguredFieldLangOk`). The literal `field + "_" + lang` over every string does not meet it, since the language `_` gives `field__` (`Resolver.FieldLangNotOk`). So the resolver's theorems reach the program through that restricted naming: they say nothing about a language outside the configured codes.
- The resolver's `Schema` is a snapshot, for the following reasons:
  - The source caches options of unregistered models while probing, through `get_options_for_model` inside `rewrite_lookup_key`.
  - The resolver does not model that side effect; it takes the snapshot instead.
  - `Translator.SchemaOf` ties the snapshot to the registry.
- `get_fields_to_translatable_models` is modelled as follows:
  - The source iterates the options' field set; the model uses a map keyed by field name instead.
  - The names are distinct, so the first match equals the map entry.
  - The `.fields.keys()` call on a set (manager.py:113) is not modelled literally.
- `get_attname_column` is not modelled; it calls `build_localized_fieldname` with one argument (fields.py:168).
- Also not modelled, as Django glue or UI:
  - `formfield` and `create_nullable_formfield`, `south_field_triple`, `related_name` handling and `field_factory`.
  - `delete_cache_fields`.
  - The management commands `sync_translation_fields` and `update_translation_fields`.
  - Widgets and forms.
- `TranslatedRelationIdDescriptor` resolves the localized `_id` attribute name as the localized field name followed by `_id`. The `get_field` lookup, and the `FieldDoesNotExist` it can raise, are not modelled.
- `add_to_class` is modelled as recording the translation field on the model class. It does not add a class attribute, so a later clash is detected only through names present before the call. Field classes that install their own class descriptor are not distinguished.
- `register` and `unregister` of an iterable of models are the single-model operations repeated, and the model states only the single-model operation.
- The `type(...)` call that builds an options class from `opts_class` and `**options` is an `OptionsClass` value passed in: its aggregated fields and its `fallback_values`. Only the metaclass union is modelled as an operation (`AggregateFields`).
- Translator.Translator.Register: the registered flag is set before the fields are added. A failure part-way therefore leaves the model registered with some translations added. The contract states the flag, the error, and that the class's record of added fields only grows by translation fields of the options' fields; it does not say which of them were added before the failure.
- The patched constructors stay on the model after `unregister`, as in the source. `PatchedInitKwargs` therefore does not require the model to be registered.
- Fields.TranslationFieldDescriptor.Get: the field default is a fixed value of the descriptor (`fieldDefault`). The source calls `self.field.get_default()` on every read (fields.py:255, 267), so a callable default that gives a fresh value each time is not modelled; the same holds for `Translator.InstallDescriptors`, which stores the default of the source field.
- LoadData.CheckMode: `str.lower()` is modelled on ASCII letters only; Unicode case mappings of other characters are not modelled.
- The `__str__` methods, `ALLOWED_FOR_PRINT` and the text of error messages are not modelled.

## Findings

The model follows each of these as written, as the code does; the corrected definition stands beside it, with the intended property proved about it.

| source | as written | input that shows it | evidently intended | confidence | as-written member | corrected member |
|---|---|---|---|---|---|---|
| modeltranslation/manager.py:91-95 | The field part is the text before the last `__` even when the last segment is not a query term | `filter(author__name=v)` with fallbacks on; it compares the column `author` with `v` | A last segment that is not a query term belongs to the field part, compared with `exact` | not executed | Fallbacks.AsWrittenComparesWrongColumn | Fallbacks.RewriteWithFallbacks |
| modeltranslation/manager.py:44-54 | The relation step looks only among the model's translatable fields. One of them is a relation only when a ForeignKey is itself translated, and that one is compared after its name has been localized (`author_<lang>`), so no relation is ever followed | `filter(author__name=v)` on a registered `Book` whose `author` is a plain relation to a registered `Author` with a translatable `name`: the key stays `author__name` | The rest of the key is rewritten against `Author`, giving `author__name_<lang>` | not executed | Resolver.RelatedLookupNotRewritten | Resolver.ThroughRelationsFollowsRelation |
| modeltranslation/translator.py:229-236 | `None` (not the "not provided" marker `NONE`) is passed as the fallback value when the model has no `fallback_values`, or its dictionary lacks the field | a model without `fallback_values`, `ENABLE_FALLBACKS` on, no language has a value: the read returns `None` | The field's default, as the descriptor's own `NONE` default provides (fields.py:222, 263-268) | not executed | Translator.AsWrittenHidesDefault | Translator.UnsetFallbackReadsDefault |
