# etl_sync reconciliation core in Dafny

etl_sync loads tabular records (one dict per CSV row) into Django models.
A `Mapper` cleans and transforms each row. An `InstanceGenerator` for the
target model then turns the record into a row of that model:

- it prepares every field the record carries through a per-type table
  (text truncation, lenient integer and float parsing, boolean tokens,
  date cleaning, geometry);
- it resolves foreign keys with generators of the related models;
- it defers many-to-many targets;
- it derives a persistence key from the model's uniqueness metadata;
- it queries the store with that key and creates, updates, marks as
  existing, skips or raises;
- finally it attaches the deferred targets, natively or through a
  junction model.

This project models that core:

- `values.dfy`: Python values, truthiness and Python 2's `unicode(int)`.
- `schema.dfy`: model metadata and the unique-field queries.
- `coercion.dfy`: the preparation table and the value preparations.
- `store.dfy`: an in-memory stand-in for the ORM calls the generators
  make.
- `reconcile.dfy`: the create-or-update decision as functions.
- `generators.dfy`: the generator as a class whose methods change
  `res`, `related_instances`, the record and the store.
- `reconcile_properties.dfy`: the properties the decision promises.
- `fixtures.dfy`: the test models of `tests/models.py` as a schema, with
  what the engine does on them.
- `mappers.dfy`: `replace_empty_string_with_none` and `Mapper`'s
  `__init__`, `is_valid` and `transform`.

The model follows the code as written, Python 2.7 included, and keeps
its quirks rather than fixing them:

- `related_instances` persists from one record to the next.
- `assign_related` rebinds `instance` to each junction row it creates,
  so later targets attach to that row.
- `assign_related` also runs when `instance_from_dic` returned None, and
  then raises AttributeError.
- An `auto_now` date prepares to None: `prepare` puts None in the record
  for it, whatever the record held.
- `instance_from_str` does nothing unless exactly one unique CharField
  exists.
- The `id` AutoField has no entry in the preparation table, so `prepare`
  raises a KeyError for a record that carries `id`.
- A bool counts as an int primary key.
- The derived key is computed, and may raise, whenever the generator has
  no key of its own, even when the record brings `etl_persistence`.

Behaviour of the code worth noting:

- With no match and `create` off, the code returns None and leaves
  `res` as it was; it does not reject the record.
- With one match and `update` off, the code returns None, not the
  matched row.
- Boolean tokens are compared with Python `==`, so `True` and `1.0` also
  prepare to True.
- An auto-set date is set to None in the prepared record, not skipped.
  Django then fills it from the clock when the row is saved, which the
  model does not do (see "## Left out").
- A record's own `etl_persistence` wins over the generator's key, which
  wins over the derived one.
- Key ambiguity is raised per record, not when the schema is read.
- Python 2's `int()` accepts whitespace between the sign and the digits,
  so the cell "- 5" prepares to -5.
- `prepare` visits fields in `_meta.get_fields()` order, where
  many-to-many fields come after all concrete fields, so their targets
  are resolved last.

## Model

| member | source | states |
|---|---|---|
| Values.IntToString | etl_sync/generators.py:209-210 | Python's spelling of an integer is non-empty and starts with '-' exactly when the integer is negative; Coercion.ParseIntRoundTrip inverts it |
| Schema.FieldNames | etl_sync/generators.py:72 | one name per field, the name of the field at the same position |
| Schema.UniqueFields | etl_sync/generators.py:13-19 | a name is listed exactly when some field with that name is unique and is not `id` |
| Schema.UniqueCharFields | etl_sync/generators.py:129-132 | a field is kept exactly when it is a field of the model, unique, and of internal type CharField |
| Schema.FieldNamed | etl_sync/generators.py:139 | the attribute found has the name asked for, and None means no field has that name |
| Coercion.HandlerOfRelation | etl_sync/generators.py:173-184 | the table sends a field to prepare_fk or prepare_m2m exactly when it is a relation; prepare_m2m exactly for ManyToManyField; prepare_fk exactly for ForeignKey and OneToOneField |
| Coercion.NoHandlerForAutoField | etl_sync/generators.py:252-254 | AutoField has no entry in the table, so preparing an `id` value raises |
| Coercion.PrepareText | etl_sync/generators.py:208-215 | the result is a prefix of `unicode(value)`, as long as `max_length` allows; the whole text without a max_length |
| Coercion.PrepareBooleanTrueExactly | etl_sync/generators.py:217-220 | the value prepares to True exactly when it is '1', 'True', 'true', 't', or equal to 1 in Python (1, True, 1.0) |
| Coercion.PrepareInteger | etl_sync/generators.py:222-226 | never an error: an int is kept, a bool gives 0 or 1, a float is truncated toward zero, a string gives n exactly when Python 2's `int()` parses it to n and None otherwise, any other value gives None |
| Coercion.Truncate | etl_sync/generators.py:224 | `int()` of a float drops the fraction toward zero: the result lies between zero and the float, less than 1 away from the float |
| Coercion.SpaceAfterSign | etl_sync/generators.py:224 | whitespace between the sign and the digits is skipped, so "- 5" prepares to -5 |
| Coercion.ParseIntRoundTrip | etl_sync/generators.py:222-226 | every integer written in decimal parses back to itself and prepares to that integer |
| Coercion.PrepareIntegerWithoutDigits | etl_sync/generators.py:222-226 | a string without a digit prepares to None, so the record goes on with that field set to None |
| Coercion.PrepareFloat | etl_sync/generators.py:228-232 | the result is a float or None, never an error |
| Coercion.CleanDate | etl_sync/generators.py:205-206 | an empty value is an invalid-value error for a required field and None for a nullable one |
| Coercion.PrepareDate | etl_sync/generators.py:203-206 | an auto_now or auto_now_add field prepares to None, whatever the record held |
| Store.MatchPositionsMeaning | etl_sync/generators.py:86 | the positions listed are exactly those of the rows that satisfy every condition, each once, in table order |
| Store.Select | etl_sync/generators.py:108-109 | the filter yields the key of each matching row, once, in table order: its length is the match count `len(qs)` and its head is the first match `qs[0]` |
| Store.Evaluate | etl_sync/generators.py:86-88 | `objects.none()` yields no row |
| Store.Insert | etl_sync/generators.py:90-91 | `create` appends one row with the next key, returns it, and leaves other tables and links alone |
| Store.Write | etl_sync/generators.py:93-97 | the row with the key takes the new values, other columns and rows keep theirs, other tables are unchanged |
| Store.WriteAll | etl_sync/generators.py:94 | `update` on a queryset writes the values over the old ones in every row whose key was selected; every other row, table and link is unchanged, and no row is added or removed |
| Store.Lookup | etl_sync/generators.py:126 | `objects.get` finds a row with that key, or there is none |
| Store.LookupFindsPosition | etl_sync/generators.py:126 | in a well-keyed table, `objects.get(pk=n)` succeeds exactly when 1 <= n <= the row count |
| Store.AddLinks | etl_sync/generators.py:141 | `add` leaves the tables alone and links the owner to exactly the given targets, on top of the links already present |
| Reconcile.SettingsFrom | etl_sync/generators.py:73-76 | the persistence key defaults to [], create and update to True; an option given overrides its default |
| Reconcile.PopOptions | etl_sync/generators.py:103-105 | popping removes exactly the three option keys and keeps every other value |
| Reconcile.OnlyFields | etl_sync/generators.py:106-107 | a key survives exactly when the record has it and it names a field of the model, with its value |
| Reconcile.KeyConditions | etl_sync/generators.py:82-85 | a condition is in the filter exactly when it names a key field the record holds with a truthy value, and tests that value |
| Reconcile.Decide | etl_sync/generators.py:109-123 | exactly one of five outcomes: create iff no match and create on; nothing iff no match and create off; update iff one match and update on; exists iff one match and update off; double entry iff several matches |
| Reconcile.SelectedPresent | etl_sync/generators.py:108-109 | every key a filter returns names an existing row |
| Reconcile.ReconciledFacts | etl_sync/generators.py:100-123 | reconciling keeps the store well keyed, deletes no row, and returns only an existing row of the model |
| Reconcile.AppliedFacts | etl_sync/generators.py:108-123 | the decision keeps the store well keyed, deletes no row, and returns only an existing row of the model |
| Generators.PreparedSkip | etl_sync/generators.py:250-251 | a field the record lacks leaves the record as it was |
| Generators.PreparedSet | etl_sync/generators.py:255 | a prepared field takes its prepared value and every other key keeps its value |
| Generators.PreparedDrop | etl_sync/generators.py:256-257 | a many-to-many field leaves the record and every other key keeps its value |
| Generators.JunctionRecordFlat | etl_sync/generators.py:145-151 | a junction record carries only the two endpoint keys and the persistence list, so preparing it resolves no nested record |
| Generators.Generator.constructor | etl_sync/generators.py:70-77 | the generator serves the named model, reads its settings from the options, and starts with no `res` and no deferred targets |
| Generators.Generator.GetInstance | etl_sync/generators.py:153-166 | an instance of the model is returned as existing; an int (or bool) marks `res` as exists and returns the row with that primary key, or DoesNotExist; a dict either fails in `prepare` on a field that may fail or returns what reconciling the prepared record returns (unless `assign_related` raises), with `res` set by that reconciliation, and with nothing deferred the store is exactly the reconciled one; a string goes through instance_from_str; anything else yields None and changes nothing; the store stays well keyed and grows, and a returned row exists |
| Generators.ResolveInstanceOrPk | etl_sync/generators.py:155-164 | a foreign key given as an instance of the target or as that instance's primary key resolves to the same row, and leaves the store alone |
| Generators.Generator.InstanceFromInt | etl_sync/generators.py:125-126 | succeeds exactly when a row with that key exists and returns it; otherwise DoesNotExist for that key |
| Generators.Generator.InstanceFromStr | etl_sync/generators.py:128-135 | the store, result and `res` are those of reconciling a one-field record that holds the string, cut to `max_length`, in the model's only unique CharField; with no such field or several, nothing happens and the result is None |
| Generators.Generator.CharRecordPrepared | etl_sync/generators.py:133-135 | preparing that one-field record cannot fail, and leaves the string cut to `max_length` |
| Generators.Generator.InstanceFromDic | etl_sync/generators.py:99-123 | either prepare fails on a field that may fail, or the record is prepared field by field and the store, result and `res` are those of reconciling the prepared record; the store after `prepare` is well keyed and lies between the old and the new store; a returned row exists |
| Generators.Generator.Prepare | etl_sync/generators.py:248-258 | on success every field the record carries is prepared as its table entry says and many-to-many fields are removed; a failure names a field that may fail; `res` is unchanged and a record without relations leaves the store and deferred targets alone |
| Generators.Generator.PrepareField | etl_sync/generators.py:249-257 | one pass of the loop extends the prepared prefix by one field, or fails on that field |
| Generators.Generator.PreparePresent | etl_sync/generators.py:252-257 | a field the record carries is prepared and written back; only a many-to-many field touches the deferred targets, only a relation touches the store |
| Generators.Generator.WriteBack | etl_sync/generators.py:255-257 | the prepared value replaces the field's value, or the many-to-many field is deleted |
| Generators.Generator.PrepareFunction | etl_sync/generators.py:252-255 | a non-relation field gets the value its table entry computes, without touching the store; a foreign key gets the row, None or error that a fresh generator of its target resolves the value to (as in Resolve), and the store that resolution leaves; a many-to-many field yields None and adds its name to the deferred targets |
| Generators.Generator.PrepareFk | etl_sync/generators.py:189-190 | the value becomes the instance a fresh generator of the target model resolves it to, or None, or that generator's error; the store is the one the resolution leaves |
| Generators.Generator.Resolve | etl_sync/generators.py:189-190 | a fresh generator of the target model (default options, no `res`, nothing deferred) resolves an instance of the target to itself, an int to the row with that primary key or DoesNotExist, a string and a dict to what reconciling them gives, and anything else to None; only a string or a dict changes the store |
| Generators.Generator.PrepareM2M | etl_sync/generators.py:192-201 | the field's deferred list is replaced (other keys kept), has one entry per input element (a non-list counts as one) and holds only instances of the target model |
| Generators.Generator.Reconcile | etl_sync/generators.py:101-123 | the store, result and `res` are exactly those of the decision on the record; the option keys are popped unless deriving the key raised |
| Generators.Generator.Apply | etl_sync/generators.py:108-123 | the store, result and `res` are exactly those of the decision table on the query's match count |
| Generators.Generator.CreateInDb | etl_sync/generators.py:90-91 | the store and result are those of inserting the record |
| Generators.Generator.UpdateInDb | etl_sync/generators.py:93-97 | the store is that of `update` on the selected rows (Store.WriteAll: each of them takes the record's values, nothing else changes) and the first selected row is returned |
| Generators.Generator.AssignRelated | etl_sync/generators.py:137-151 | with nothing deferred nothing happens; with no instance it raises AttributeError for a deferred key and leaves the store alone; with native relations only, the store gains exactly the links owner-to-target of every deferred key |
| Generators.Generator.AttachKey | etl_sync/generators.py:138-151 | one deferred key: with no instance, AttributeError; for a native relation, `add` links the instance to the key's targets and the owner stays the same |
| Generators.Generator.AttachThrough | etl_sync/generators.py:143-151 | no target leaves the store alone and keeps the owner; otherwise the owner afterwards is a junction row |
| ReconcileProperties.KeyDerivation | etl_sync/generators.py:47-65 | the first unique_together tuple is the key; with none, no unique field besides `id` gives the empty key and two such fields raise the ambiguity error |
| ReconcileProperties.TwoCandidates | etl_sync/generators.py:60-65 | two distinct unique fields besides `id` make key derivation fail |
| ReconcileProperties.KeyOfSingleUniqueField | etl_sync/generators.py:62-63 | a single unique field besides `id` is the key on its own |
| ReconcileProperties.KeyFilter | etl_sync/generators.py:79-86 | a row matches the key filter exactly when it agrees with the record on every key field the record holds with a truthy value |
| ReconcileProperties.FalsyKeyMatchesEveryRow | etl_sync/generators.py:80-86 | a truthy key whose values in the record are all falsy or absent gives an empty filter, which selects every row of the table |
| ReconcileProperties.DecisionMutating | etl_sync/generators.py:108-118 | no match with create on appends one row holding the record (auto-set dates as None, as the clock is not modelled) and returns it as created; one match with update on returns that row as updated with every record value written into it and no row added |
| ReconcileProperties.DecisionNonMutating | etl_sync/generators.py:109-123 | one match with update off marks exists and returns None; several matches raise double entry; no match with create off returns None and keeps `res`; none of them changes the store |
| ReconcileProperties.EmptyKeyInserts | etl_sync/generators.py:80-88 | on a model without unique columns, a falsy key queries no rows, so with create on every record is inserted as a new row |
| ReconcileProperties.RepeatedRecordDuplicates | etl_sync/generators.py:108-113 | on a model without unique columns, with a falsy key the same record reconciled twice adds two rows and returns two different instances |
| ReconcileProperties.SecondRunFindsCreatedRow | etl_sync/generators.py:99-118 | a new record under a key its own values satisfy is created the first time and, the second time, found and updated in place: the same row and the same store (auto-set dates are not refreshed, as the clock is not modelled) |
| ReconcileProperties.SecondApplyFindsCreatedRow | etl_sync/generators.py:108-118 | the same as SecondRunFindsCreatedRow, for the decision on a prepared record |
| ReconcileProperties.OwnKeyMatches | etl_sync/generators.py:79-86 | a row that holds the record's values satisfies the filter built from them |
| ReconcileProperties.MatchedRecordAddsNoRow | etl_sync/generators.py:109-123 | a record that matches a stored row never adds a row, whatever the flags |
| ReconcileProperties.Precedence | etl_sync/generators.py:101-105 | deriving the key fails exactly when the generator has no key and the model's key is ambiguous; otherwise the record's options win over the generator's, and the generator's key wins over the derived one |
| ReconcileProperties.FieldsOfRecord | etl_sync/generators.py:103-107 | the values that reach the query and the insert are exactly the record's entries for the model's fields |
| ReconcileProperties.JunctionReused | etl_sync/generators.py:143-151 | a junction record keyed on its two endpoints is created on the first pass and found and updated on the second, never duplicated |
| ReconcileProperties.KeyNamesOfStrValues | etl_sync/generators.py:82 | a list of names handed over as a key reads back as the same names |
| Fixtures.TestsWf | tests/models.py:1-135 | the test models are well formed: distinct field names, relations to registered models, and each junction model holds a foreign key to each end |
| Fixtures.WoFkHasEmptyKey | tests/models.py:4-11 | a model without a unique field gets the empty key |
| Fixtures.AutoNowDateIsCleared | tests/models.py:11 | the auto_now date of TestModelWoFk prepares to None, whatever the record holds |
| Fixtures.TestModelKey | tests/models.py:53-65 | TestModel's key is its unique `record` field |
| Fixtures.OneToOneIsAmbiguous | tests/models.py:68-80 | the unique one-to-one field joins `record` and makes TestOnetoOneModel's key ambiguous |
| Fixtures.StringLookupFields | tests/models.py:36-38 | a bare string names a Polish row by `record`; TestModelWoFk has no unique CharField and TwoUnique has two |
| Fixtures.IntermediateHasEmptyKey | tests/models.py:103-106 | the junction model IntermediateModel has no derived key |
| Fixtures.LnamesJunctionReused | tests/models.py:96-106 | linking a SomeModel row to an AnotherModel row twice creates one IntermediateModel row and then updates it |
| Fixtures.WellDefinedKey | tests/models.py:121-126 | unique_together gives WellDefinedModel the key (something, somenumber) |
| Fixtures.TwoUniqueIsAmbiguous | tests/models.py:133-135 | two unique fields make TwoUnique's key ambiguous |
| Mappers.WithoutSpaces | etl_sync/mappers.py:16 | `replace(' ', '')` leaves no space and never lengthens the string |
| Mappers.WithoutSpacesEmpty | etl_sync/mappers.py:16 | removing the spaces leaves nothing exactly when the string held only spaces |
| Mappers.ReplaceEmptyStringWithNone | etl_sync/mappers.py:10-19 | the same dict is returned, rewritten in place: each value is cleaned and nothing else changes |
| Mappers.CleanedMeaning | etl_sync/mappers.py:16-18 | a value changes exactly when it is a blank string, which becomes None; cleaning twice is cleaning once |
| Mappers.CleanedEntriesMeaning | etl_sync/mappers.py:14-19 | the keys stay the same; a key holds None afterwards exactly when it held None or a blank string; other values are kept; the rewrite is idempotent |
| Mappers.ConfiguredNone | etl_sync/mappers.py:27-40 | before any option is read the attributes hold their class values |
| Mappers.ConfiguredMeaning | etl_sync/mappers.py:27-50 | the instance has exactly the class attributes; an option sets an attribute of its name, other attributes keep their class value, and the encoding is never falsy (a truthy option is kept) |
| Mappers.Mapper.constructor | etl_sync/mappers.py:42-50 | the attributes are those the options configure; options naming a method shadow it; options naming nothing are ignored with a warning |
| Mappers.ReadOptions | etl_sync/mappers.py:43-50 | the loop over the options, in any order, ends with the configured attributes, the shadowed methods and the ignored options |
| Mappers.ReadOption | etl_sync/mappers.py:44-50 | one pass over one more option keeps attributes, shadowed methods and ignored options as the options read so far configure them |
| Mappers.ConfiguredStep | etl_sync/mappers.py:44-50 | setting one more option, then resetting a falsy encoding, gives the attributes the options read so far configure |
| Mappers.OptionStep | etl_sync/mappers.py:44-48 | one more option shadows a method when it names one that is not an attribute, and is ignored when it names neither |
| Mappers.Mapper.IsValid | etl_sync/mappers.py:52-55 | every record is accepted |
| Mappers.Mapper.Transform | etl_sync/mappers.py:57-69 | the result holds the keys of the default values and of the record; the record's value wins, a default fills the other keys; defaults that are not a dict are ignored |

## Left out

- The Django ORM itself is not modelled. A `Db` value of per-model row tables and native many-to-many links stands in for `objects.filter`, `create`, `update`, `get` and `add`. Rows are never deleted, primary keys count up from 1, and signals and transactions are not modelled.
- Django's DateTimeField parser, Python's `float()` on strings and GEOS's dimension reduction are parameters (`Env`), so their parsing is not modelled.
- Floats are reals: IEEE rounding, NaN and infinities are not modelled.
- `unicode()` of a float, a list or a dict is a placeholder spelling (`Values.ToText`), because Python's `repr` formats are not modelled. Integers, booleans, None and strings are spelt as Python spells them.
- `unicode()` of an instance is Django's default "<Model> object". A model's own `__unicode__` is not modelled, so for Numero and Polish in `tests/models.py`, which return their `name` and `ilosc` field, the text differs.
- `int()` strips ASCII whitespace only. Unicode whitespace and Unicode digits are not modelled.
- Database constraints are not modelled. `create` and `update` always succeed in the model, where Django raises IntegrityError for a repeated unique value, a repeated `unique_together` tuple or a NULL in a NOT NULL column. The lemmas about repeated inserts therefore assume a model without unique columns.
- Python 2's `str` versus `unicode` distinction is not modelled: a string is `seq<char>`, and `isinstance(obj, str)` in `get_instance` is taken to hold for every string value.
- Generators.Generator.GetInstance: Python 2's `int` versus `long` distinction is not modelled. Every integer (and every bool) is taken as `isinstance(obj, int)`, so a `long` primary key such as `5L` or `2**63`, for which the code falls through and returns None, is looked up as a primary key in the model.
- Generators.Generator.GetInstance: the record's dict is copied into a fresh `Record` before `instance_from_dic`, so the in-place rewriting of the caller's dict is not modelled. `prepare` writes the prepared values back and deletes the many-to-many keys, and the three option keys are popped, all in the caller's dict; the caller does not see these changes in the model. Nor is aliasing: a dict that occurs twice in a many-to-many list is processed afresh the second time, where the code sees it already prepared and without its `etl_persistence`, `etl_create` and `etl_update`.
- Django's clock is not modelled. `DateTimeField.pre_save` fills an `auto_now` column from `timezone.now()` on every save and an `auto_now_add` column on the first, so `objects.create` in `create_in_db` and `qs[0].save()` in `update_in_db` store the current time there. The model stores the None that `prepare` put in the record.
- Store.Insert: the new row holds the given values as they are; an auto-set date column holds None there, not the time of the insert.
- ReconcileProperties.DecisionMutating: the created or updated row is stated to hold the record's values, which in Django is true except for auto-set date columns, which hold the time.
- ReconcileProperties.SecondRunFindsCreatedRow: the second run leaving the store as the first run left it holds in Django only for a model without an `auto_now` column; the second save refreshes that timestamp.
- ReconcileProperties.SecondApplyFindsCreatedRow: the same clock caveat as SecondRunFindsCreatedRow.
- The `get_fields` and `get_internal_type` compatibility shims are replaced by schema data. Reverse relations, which `get_fields` also returns, are not part of a model's field list.
- A `ForeignKey` with `to_field` (ElNumero in `tests/models.py`) resolves by primary key like any other foreign key, because `to_field` is not modelled.
- Generators.Generator.Prepare: for a foreign key the loop's contract keeps only that the prepared value is None or an instance of the target model; which row it is, is stated one call down by PrepareFunction and PrepareFk.
- Generators.Generator.PrepareM2M: the contract states the length and target model of the deferred list, not which input element each entry came from.
- Generators.Generator.AttachThrough: the contract states where the owner ends up, not the contents of each junction row. Those are stated for a single junction record by ReconcileProperties.JunctionReused.
- Generators.Generator.AssignRelated: the `through` case states only that the store stays well keyed and grows. The rebinding of `instance` is implemented but not stated as a contract.
- A persistence value that is neither a list of names nor a string is modelled as a TypeError. Python raises one only for a value it cannot iterate or an unhashable item. It skips an item of another hashable type, and it accepts other iterables; neither case is modelled.
- `Mapper.load`, the CSV reader, logging and file handling are not modelled: they are I/O around the core.
- Mappers.Mapper.constructor: `warnings.warn` is modelled as the set of ignored options. Options that name a method are recorded as shadowing it, and calling a shadowed method is not modelled. `hasattr` is taken to find only the class attributes and the three methods, not Python's dunder attributes.
- Mappers.Mapper.Transform: `type(...) is dict` is modelled as "the default values are a dict". Dict subclasses are not modelled. The Python 3 TypeError from adding `items()` views is not modelled, because the package targets Python 2.7.
- The recursion of `get_instance` through nested records terminates by the nesting depth of the relation values (`Values.Rank`). A record nested inside itself cannot occur, since values are finite.
