# Cogito.Text.Json.Schema, modelled in Dafny

This project models the core of Cogito.Text.Json.Schema, a JSON Schema library for .NET.

## What is modelled

- **The reader.** It turns a parsed JSON document into a graph of schema nodes. `Reader.SchemaGraph` holds that graph as a sequence of nodes, updated in place.
  - Keywords are found by name (`ReaderKeywords.KeywordOf`).
  - Handlers that take no sub-schemas become one pure function, `ReaderKeywords.LoadPlain`.
  - Handlers that read sub-schemas are methods that append nodes to the graph.
  - Every method states when it raises and that, among the old nodes, only its target node changes.
  - On success the plain handlers give the node's new attributes outright.
  - On success the structured handlers state what the node then holds, as a recursive description (`ReadAs`, `LoadedAs`, `StructuredRead`): the attributes its handlers compute in document order, and for each link field a node that holds the schema read from the member value behind it.
  - Every method keeps the graph's links inside the graph (`Closed`).
- **The schema object model:**
  - the type flags (`SchemaTypes`);
  - the schema node with its attributes and sub-schema links (`Schemas`);
  - the lazily created collections (`Schemas.LazyField`);
  - the dictionary base class and its two subclasses (`Dictionaries`): the dependency dictionary keeps a count of the schema-valued entries, and the pattern dictionary keeps its patterns.
- **The resolvers.** These cover:
  - splitting off a URI fragment;
  - computing the base URI of a reference;
  - the schema reference itself;
  - the preloaded resolver (`Resolvers`, `PreloadedResolvers`).
- **The validation expression builder.**
  - **What validating means.** `Validation.Valid` gives the meaning of validating a JSON value against a schema node. The outcome is accept, reject, an exception, or divergence. The body of a node is the conjunction of its keyword checks (`Keywords`), of the property providers (`PropertyKeywords`) and of the "oneOf" provider.
  - **Short-circuiting.** `Outcomes` models the short-circuiting "all of", "any of" and "one of" combinators the builder emits.
  - **The compiler.** `Compiler.ExpressionBuilder` models the cycle-safe compiler.
    - A node that re-enters itself while its body is being built is not rebuilt: the call goes through a per-schema delegate variable (a slot).
    - `Build` then assigns each slot its stored body.
    - The main theorem is the `ensures` of `Compiler.ExpressionBuilder.Build`: the compiled program validates every value exactly as `Validation.Valid` does, at every fuel bound.
    - Building fails in two ways, as the code does. A dependency value of an unsupported kind fails with not supported. A node that sets pattern, a string-length or property-count bound, or a content keyword with no encoding or the base64 encoding fails with invalid operation: those builders make a conversion (JsonElement to string) or a comparison (int with long) that the expression factory refuses while the tree is built.
    - So for those keywords `Keywords` states the check the builder evidently intends, which `Validation.Valid` uses, while the compiler never produces it.

Some functions carry no contract of their own and are described by the lemma rows below:
- `Validation.Valid` by `Validation.BodyIsConjunction`, `Validation.ValidFalseNeverAccepts`, `Validation.NoKeywordsAcceptsAll`, the `Keywords` and `PropertyKeywords` lemmas about each keyword, and `Compiler.ExpressionBuilder.Build`;
- `ReaderKeywords.LoadPlain` by `ReaderKeywords.LoadPlainAccepts` and `ReaderKeywords.LoadPlainErrors`;
- `Keywords.IsSchemaTypeFunc` by `Keywords.TypeTestCases`;
- `Keywords.MultipleOfValue` by `Keywords.MultipleOfSkips`.

JSON values are a datatype (`JsonValues.Json`) with numbers as `real` and objects as sequences of members. The last member wins when a name is repeated.

These are parameters of the model, gathered in an `Env` value:
- regular-expression matching;
- the length of a text in text elements;
- deep equality of JSON values.

In two places the model follows the code where it and the library's documentation differ:
- The reader recognises the size keywords only under the spellings "maximumItems", "minimumItems", "maximumLength", "minimumLength", "maximumProperties" and "minimumProperties". The standard spellings ("maxItems", "minLength" and so on) are read as extension data.
- "exclusiveMaximum" and "exclusiveMinimum" accept a number as well as a boolean. A number sets the bound and makes it exclusive.

## Model

| member | source | states |
|---|---|---|
| SchemaTypes.UnionOf | src/Cogito.Text.Json.Schema/JsonSchemaType.cs:4-16 | the union of type flags contains every flag it is built from |
| SchemaTypes.KindsAreDistinctBits | src/Cogito.Text.Json.Schema/JsonSchemaType.cs:7-14 | None is 0 and the seven type flags are single, pairwise disjoint bits |
| SchemaTypes.UnionIsAllTypes | src/Cogito.Text.Json.Schema/JsonSchemaType.cs:7-14 | the union of all seven flags is the full type set |
| SchemaTypes.UnionFitsSevenBits | src/Cogito.Text.Json.Schema/JsonSchemaType.cs:7-14 | any union of type flags stays within the seven defined bits |
| Schemas.NewSchema | src/Cogito.Text.Json.Schema/JsonSchema.cs:59-63 | a new schema allows additional items and properties and has every other attribute unset and every collection empty |
| Schemas.Put | src/Cogito.Text.Json.Schema/JsonSchemaReader.cs:710-737 | storing under a key keeps keys unique, makes the key map to the value, keeps every other entry, and appends only for a new key |
| Schemas.LazyField.GetOrCreate | src/Cogito.Text.Json.Schema/JsonSchema.cs:72-78 | an existing target is returned unchanged; a missing one is created once by the factory and kept |
| Dictionaries.DictionaryBase.constructor | src/Cogito.Text.Json.Schema/Internal/DictionaryBase.cs:59-62 | a new dictionary is empty |
| Dictionaries.DictionaryBase.Add | src/Cogito.Text.Json.Schema/Internal/DictionaryBase.cs:89 | adding a present key raises a duplicate-key error and changes nothing; otherwise the key is bound to the value |
| Dictionaries.DictionaryBase.SetItem | src/Cogito.Text.Json.Schema/Internal/DictionaryBase.cs:30-34 | the indexer setter binds the key to the value, overwriting |
| Dictionaries.DictionaryBase.Get | src/Cogito.Text.Json.Schema/Internal/DictionaryBase.cs:30-34 | the indexer getter succeeds exactly for present keys with their value, and otherwise fails with key-not-found |
| Dictionaries.DictionaryBase.TryGetValue | src/Cogito.Text.Json.Schema/Internal/DictionaryBase.cs:168-171 | a value is found exactly for a present key, and it is that key's value |
| Dictionaries.DictionaryBase.GetObject | src/Cogito.Text.Json.Schema/Internal/DictionaryBase.cs:42-44 | the untyped getter refuses a null key, yields nothing for a key of the wrong type, and looks up a key of the right type |
| Dictionaries.DictionaryBase.Remove | src/Cogito.Text.Json.Schema/Internal/DictionaryBase.cs:107 | removal reports whether the key was present and leaves the key absent |
| Dictionaries.DictionaryBase.RemovePair | src/Cogito.Text.Json.Schema/Internal/DictionaryBase.cs:113-128 | a pair is removed exactly when the key is bound to that value; otherwise nothing changes |
| Dictionaries.DictionaryBase.Clear | src/Cogito.Text.Json.Schema/Internal/DictionaryBase.cs:93 | clearing empties the dictionary |
| Dictionaries.SchemaKeysUpdate | src/Cogito.Text.Json.Schema/JsonSchemaDependencyDictionary.cs:59-73 | overwriting an entry changes the number of schema-valued entries by the old entry's and the new entry's kinds |
| Dictionaries.SchemaKeysRemove | src/Cogito.Text.Json.Schema/JsonSchemaDependencyDictionary.cs:46-57 | removing a key lowers the number of schema-valued entries by one exactly when it held a schema |
| Dictionaries.SchemaKeysNonEmpty | src/Cogito.Text.Json.Schema/JsonSchemaDependencyDictionary.cs:25 | there are schema-valued entries exactly when some key maps to a schema |
| Dictionaries.DependencyDictionary.constructor | src/Cogito.Text.Json.Schema/JsonSchemaDependencyDictionary.cs:19 | a new dependency dictionary is empty with a zero schema count |
| Dictionaries.DependencyDictionary.HasSchemasIff | src/Cogito.Text.Json.Schema/JsonSchemaDependencyDictionary.cs:25 | HasSchemas holds exactly when some entry is a schema dependency |
| Dictionaries.DependencyDictionary.AddItem | src/Cogito.Text.Json.Schema/JsonSchemaDependencyDictionary.cs:27-33 | adding a new key binds it and raises the count by one for a schema value; a present key raises a duplicate-key error and changes nothing |
| Dictionaries.DependencyDictionary.ClearItems | src/Cogito.Text.Json.Schema/JsonSchemaDependencyDictionary.cs:35-39 | clearing empties the table and resets the count |
| Dictionaries.DependencyDictionary.RemoveItem | src/Cogito.Text.Json.Schema/JsonSchemaDependencyDictionary.cs:46-57 | removal reports presence, drops the key, and lowers the count exactly when a schema was removed |
| Dictionaries.DependencyDictionary.SetItem | src/Cogito.Text.Json.Schema/JsonSchemaDependencyDictionary.cs:59-73 | overwriting binds the key, takes one off the count for a replaced schema and adds one for a new schema |
| Dictionaries.DependencyDictionary.RemovePair | src/Cogito.Text.Json.Schema/Internal/DictionaryBase.cs:113-128 | a pair is removed only when the key holds that value, and the count keeps matching the schema entries |
| Dictionaries.PatternDictionary.constructor | src/Cogito.Text.Json.Schema/JsonSchemaPatternDictionary.cs:20 | a new pattern dictionary is empty |
| Dictionaries.PatternDictionary.Get | src/Cogito.Text.Json.Schema/JsonSchemaPatternDictionary.cs:25-29 | the getter succeeds exactly for a stored pattern, with its schema, and otherwise fails with key-not-found |
| Dictionaries.PatternDictionary.SetItem | src/Cogito.Text.Json.Schema/JsonSchemaPatternDictionary.cs:25-29 | the setter stores the pattern with its schema, so that reading it back yields the schema |
| Dictionaries.PatternDictionary.Add | src/Cogito.Text.Json.Schema/JsonSchemaPatternDictionary.cs:48-50 | adding a present pattern raises a duplicate-key error and changes nothing; otherwise the pattern is stored |
| Dictionaries.PatternDictionary.Clear | src/Cogito.Text.Json.Schema/JsonSchemaPatternDictionary.cs:52 | clearing empties the dictionary |
| Dictionaries.PatternDictionary.Contains | src/Cogito.Text.Json.Schema/JsonSchemaPatternDictionary.cs:54-57 | a pair is contained exactly when the pattern is stored with that schema |
| Dictionaries.PatternDictionary.Remove | src/Cogito.Text.Json.Schema/JsonSchemaPatternDictionary.cs:88-91 | removal reports presence and drops the pattern |
| Dictionaries.PatternDictionary.RemovePair | src/Cogito.Text.Json.Schema/JsonSchemaPatternDictionary.cs:83-86 | a pair is removed exactly when it is contained; otherwise nothing changes |
| Dictionaries.PatternDictionary.TryGetValue | src/Cogito.Text.Json.Schema/JsonSchemaPatternDictionary.cs:98-110 | a schema is found exactly for a stored pattern, and the pair is contained |
| Resolvers.Fragment | src/Cogito.Text.Json.Schema/JsonSchemaResolver.cs:37 | a URI has an empty fragment exactly when its text has no '#' |
| Resolvers.RemoveFragmentFails | src/Cogito.Text.Json.Schema/JsonSchemaResolver.cs:32-35 | removing the fragment fails exactly on a null URI, with an argument-null error |
| Resolvers.RemoveFragmentSplits | src/Cogito.Text.Json.Schema/JsonSchemaResolver.cs:43-57 | the base followed by the fragment is the original text; the base has no '#'; a fragment starts with '#'; there is no fragment exactly when the text has no '#' |
| Resolvers.AbsoluteWithoutFragmentUnchanged | src/Cogito.Text.Json.Schema/JsonSchemaResolver.cs:37-41 | an absolute URI without a fragment comes back as it is, with no fragment |
| Resolvers.RemoveFragmentIdempotent | src/Cogito.Text.Json.Schema/JsonSchemaResolver.cs:32-58 | removing the fragment from a base again finds no fragment and keeps the text |
| Resolvers.ResolveBaseUriCases | src/Cogito.Text.Json.Schema/JsonSchemaResolver.cs:60-77 | a relative '#' identifier keeps the resolver base and is all fragment; with no usable base the identifier's fragment is removed; combining with a base is not implemented |
| Resolvers.NewReference | src/Cogito.Text.Json.Schema/JsonSchemaReference.cs:17-21 | a reference is created exactly for a non-null base URI and keeps both parts; a null base is an argument-null error |
| Resolvers.ReferenceFragment | src/Cogito.Text.Json.Schema/JsonSchemaResolver.cs:18-23 | a resolved reference exists exactly when there is a base URI; it has a sub-schema identifier exactly when there is a fragment, and that identifier's text is the fragment |
| Resolvers.HashIdWithoutBaseFails | src/Cogito.Text.Json.Schema/JsonSchemaResolver.cs:64-68 | a '#' identifier with no resolver base yields no base URI, and the reference constructor refuses it |
| Resolvers.HashIdUnderBase | src/Cogito.Text.Json.Schema/JsonSchemaResolver.cs:64-68 | a '#' identifier under a resolver base refers into that base, with the whole identifier as the sub-schema |
| PreloadedResolvers.PreloadedResolver.constructor | src/Cogito.Text.Json.Schema/JsonSchemaPreloadedResolver.cs:21-30 | a new resolver has nothing preloaded and keeps its fallback |
| PreloadedResolvers.PreloadedResolver.GetSchemaResource | src/Cogito.Text.Json.Schema/JsonSchemaPreloadedResolver.cs:35-38 | preloaded bytes for the base URI win; otherwise the fallback answers, or nothing without one |
| PreloadedResolvers.PreloadedResolver.AddBytes | src/Cogito.Text.Json.Schema/JsonSchemaPreloadedResolver.cs:40-48 | a null URI or value is refused and nothing is stored; otherwise the bytes replace any earlier entry and are served for that URI |
| PreloadedResolvers.PreloadedResolver.AddStream | src/Cogito.Text.Json.Schema/JsonSchemaPreloadedResolver.cs:50-60 | a null URI or stream is refused; otherwise the stream's content is stored under the URI |
| PreloadedResolvers.PreloadedResolver.AddString | src/Cogito.Text.Json.Schema/JsonSchemaPreloadedResolver.cs:62-70 | a null URI is refused; a null or empty text is an invalid argument; otherwise the encoded text is stored |
| ReaderKeywords.UnknownNamesAreExtensions | src/Cogito.Text.Json.Schema/JsonSchemaReader.cs:894-897 | a property name outside the keyword table is read as extension data |
| ReaderKeywords.TypeFromString | src/Cogito.Text.Json.Schema/JsonSchemaReader.cs:846-860 | a type name is accepted exactly when it is one of the eight names; it yields None or one primitive flag; anything else is malformed |
| ReaderKeywords.EntryTypes | src/Cogito.Text.Json.Schema/JsonSchemaReader.cs:832-844 | the flags of a list of type names, one per entry, each as its name reads |
| ReaderKeywords.UnionOfSnoc | src/Cogito.Text.Json.Schema/JsonSchemaReader.cs:838-841 | adding one more flag to a union is a bitwise or |
| ReaderKeywords.TypeUnionIsOr | src/Cogito.Text.Json.Schema/JsonSchemaReader.cs:832-844 | an array of types is read exactly when every entry is a type name, and then gives the union of their flags; otherwise it is malformed |
| ReaderKeywords.TypeFromArrayElement | src/Cogito.Text.Json.Schema/JsonSchemaReader.cs:832-844 | the loop over the array computes the same result as the type union |
| ReaderKeywords.TypeUnionPrefixFails | src/Cogito.Text.Json.Schema/JsonSchemaReader.cs:836-841 | the first entry that is not a type name decides the error of the whole array |
| ReaderKeywords.TypeFromElementCases | src/Cogito.Text.Json.Schema/JsonSchemaReader.cs:821-830 | null gives no type, a type name gives its flag, an array of names gives their union; every other value is malformed |
| ReaderKeywords.LoadPlainAccepts | src/Cogito.Text.Json.Schema/JsonSchemaReader.cs:609-689 | a handler without sub-schemas succeeds exactly on the value shapes it accepts |
| ReaderKeywords.LoadPlainErrors | src/Cogito.Text.Json.Schema/JsonSchemaReader.cs:502-505 | a refused value is: not implemented for disallow and propertyNames; a format error for a size keyword given an unrepresentable number; a URI format error for a relative $schema; malformed otherwise |
| ReaderKeywords.DivisibleByIsMultipleOf | src/Cogito.Text.Json.Schema/JsonSchemaReader.cs:507-510 | "divisibleBy" is read exactly as "multipleOf" |
| ReaderKeywords.ExclusiveBounds | src/Cogito.Text.Json.Schema/JsonSchemaReader.cs:532-564 | a boolean exclusive bound sets only the flag; a numeric one sets the bound and turns the flag on |
| ReaderKeywords.ExtensionDataKeepsValue | src/Cogito.Text.Json.Schema/JsonSchemaReader.cs:894-897 | an unknown property is stored as extension data under its name with its value |
| Reader.DependencyNames | src/Cogito.Text.Json.Schema/JsonSchemaReader.cs:483-486 | a property dependency list is read exactly when every entry is a string, giving those strings in order; otherwise it is an invalid operation |
| Reader.ClosedIsWellFormed | src/Cogito.Text.Json.Schema/JsonSchemaReader.cs:145-150 | a graph whose nodes link only inside the graph is well formed |
| Reader.SchemaKeywordCases | src/Cogito.Text.Json.Schema/JsonSchemaReader.cs:199-346 | additionalItems and additionalProperties accept exactly a schema or a boolean, and the list keywords exactly an array of schemas |
| Reader.SingleKeywordCases | src/Cogito.Text.Json.Schema/JsonSchemaReader.cs:199-346 | the single-schema keywords accept exactly a schema, and items exactly an object schema or an array of schemas |
| Reader.TableKeywordCases | src/Cogito.Text.Json.Schema/JsonSchemaReader.cs:199-346 | properties and patternProperties accept a table of schemas, dependencies a dependency table, enum an array, required an array of strings, and type a type value |
| Reader.SchemaGraph.constructor | src/Cogito.Text.Json.Schema/JsonSchemaReader.cs:145-150 | the graph starts empty and closed |
| Reader.SchemaGraph.NewNode | src/Cogito.Text.Json.Schema/JsonSchemaReader.cs:147 | a new default node is appended and its index returned |
| Reader.SchemaGraph.Read | src/Cogito.Text.Json.Schema/JsonSchemaReader.cs:145-191 | reading succeeds exactly on a value of schema shape, returns a new node, and leaves the graph closed and well formed; a boolean gives a node with only valid set; the new node holds the schema read from the value: for an object, the attributes its members' handlers compute in document order and, for each link field, nodes read from the value of the last member that selects it |
| Reader.SchemaGraph.Load | src/Cogito.Text.Json.Schema/JsonSchemaReader.cs:174-191 | loading raises exactly when the value is not of schema shape; a boolean sets only valid; only the target node changes among the old nodes, and it then holds the old node loaded with every member in document order, each link field read from the last member that selects it or kept when none does |
| Reader.SchemaGraph.ReadAll | src/Cogito.Text.Json.Schema/JsonSchemaReader.cs:354-367 | an array is read exactly when every element is of schema shape, giving one new node per element in ascending order, each holding the schema read from its element |
| Reader.SchemaGraph.LoadProperty | src/Cogito.Text.Json.Schema/JsonSchemaReader.cs:199-346 | a property loads exactly when its value fits its keyword; a plain keyword updates the node's attributes as LoadPlain says, and nothing else; a structured keyword sets the attributes its handler computes and the one link field it owns, whose nodes hold the schemas read from the value |
| Reader.SchemaGraph.LoadPlainMember | src/Cogito.Text.Json.Schema/JsonSchemaReader.cs:609-689 | a plain keyword loads exactly on the shapes it accepts and replaces only the node's attributes |
| Reader.SchemaGraph.LoadAdditional | src/Cogito.Text.Json.Schema/JsonSchemaReader.cs:369-405 | additionalItems/additionalProperties load exactly from a boolean (sets the allow flag only) or an object (allows and links a new node that holds the schema read from the object) |
| Reader.SchemaGraph.LoadSchemaList | src/Cogito.Text.Json.Schema/JsonSchemaReader.cs:407-415 | allOf/anyOf/oneOf load exactly from an array of schemas, replacing the list with one new node per element, each holding the schema read from its element |
| Reader.SchemaGraph.LoadSingle | src/Cogito.Text.Json.Schema/JsonSchemaReader.cs:691-694 | contains/not/if/then/else load exactly from a schema value and link a new node that holds the schema read from it |
| Reader.SchemaGraph.LoadItems | src/Cogito.Text.Json.Schema/JsonSchemaReader.cs:589-607 | items load exactly from an object (one schema, single-schema mode) or an array of schemas (positional mode, one per element); each linked node holds the schema read from its value |
| Reader.SchemaGraph.ReadTable | src/Cogito.Text.Json.Schema/JsonSchemaReader.cs:725-737 | an object of schemas is read exactly when every member is of schema shape, with one unique entry per member name, each a new node holding the schema read from that name's value |
| Reader.SchemaGraph.LoadSchemaTable | src/Cogito.Text.Json.Schema/JsonSchemaReader.cs:710-737 | properties/patternProperties load exactly from an object of schemas and replace the table with the entries read, each entry's node holding the schema read from that name's value |
| Reader.SchemaGraph.ReadDependency | src/Cogito.Text.Json.Schema/JsonSchemaReader.cs:465-481 | a dependency is read exactly from a string, an array of strings, or a schema object, each as the matching dependency value; a schema dependency's node holds the schema read from the object |
| Reader.SchemaGraph.ReadDependencies | src/Cogito.Text.Json.Schema/JsonSchemaReader.cs:450-463 | an object of dependencies is read exactly when every member is a dependency, keeping one entry per name; each schema dependency's node holds the schema read from that name's value |
| Reader.SchemaGraph.LoadDependencies | src/Cogito.Text.Json.Schema/JsonSchemaReader.cs:450-491 | dependencies load exactly from an object of dependencies and replace the node's dependencies with those read, each schema dependency's node holding the schema read from its value |
| Reader.LastIndexSome | src/Cogito.Text.Json.Schema/JsonSchemaReader.cs:174-191 | the member that decides a link field selects that field's keyword, and no later member does, so the last one wins |
| Reader.LastIndexNone | src/Cogito.Text.Json.Schema/JsonSchemaReader.cs:174-191 | when no member decides a link field, no member selects its keyword |
| Reader.MembersLoadedSnoc | src/Cogito.Text.Json.Schema/JsonSchemaReader.cs:174-191 | loading one more member in document order moves the node's content from the prefix read so far to the prefix with that member: its attributes fold in the member's handler, its own field is taken from the member, every other field is kept |
| Reader.ReadAsStable | src/Cogito.Text.Json.Schema/JsonSchemaReader.cs:145-150 | a node that holds the schema read from a value keeps holding it while the graph grows and only nodes created before it change |
| Reader.SchemaGraph.LoadEnum | src/Cogito.Text.Json.Schema/JsonSchemaReader.cs:517-530 | enum loads exactly from an array and replaces the values with its elements in order |
| Reader.SchemaGraph.LoadRequired | src/Cogito.Text.Json.Schema/JsonSchemaReader.cs:764-789 | required loads exactly from an array of strings, replacing the names; anything else is malformed |
| Reader.SchemaGraph.LoadType | src/Cogito.Text.Json.Schema/JsonSchemaReader.cs:816-830 | type loads exactly from a type value and sets the type flags it reads |
| Outcomes.FromBool | src/Cogito.Text.Json.Schema.Validation/JsonSchemaExpressionBuilder.cs:1051-1060 | a boolean becomes accept or reject |
| Outcomes.And | src/Cogito.Text.Json.Schema.Validation/JsonSchemaExpressionBuilder.cs:187-195 | a conjunction accepts exactly when both do; a left side that does not accept decides |
| Outcomes.Or | src/Cogito.Text.Json.Schema.Validation/JsonSchemaExpressionBuilder.cs:202-210 | a disjunction rejects exactly when both do; a left side that does not reject decides |
| Outcomes.Neg | src/Cogito.Text.Json.Schema.Validation/JsonSchemaExpressionBuilder.cs:934-940 | negation swaps accept and reject and passes exceptions on |
| Outcomes.Cond | src/Cogito.Text.Json.Schema.Validation/JsonSchemaExpressionBuilder.cs:1062-1071 | a conditional takes the then branch on accept and the else branch on reject; an exception in the test passes on |
| Outcomes.IfThenElseTrue | src/Cogito.Text.Json.Schema.Validation/JsonSchemaExpressionBuilder.cs:177-180 | a failed test accepts, a passing test yields the branch |
| Outcomes.AndAllAccepts | src/Cogito.Text.Json.Schema.Validation/JsonSchemaExpressionBuilder.cs:187-195 | "all of" accepts exactly when every element accepts |
| Outcomes.AndAllFirstFailure | src/Cogito.Text.Json.Schema.Validation/JsonSchemaExpressionBuilder.cs:187-195 | "all of" stops at the first element that does not accept, and that element decides |
| Outcomes.OrAllRejects | src/Cogito.Text.Json.Schema.Validation/JsonSchemaExpressionBuilder.cs:202-210 | "any of" rejects exactly when every element rejects |
| Outcomes.OrAllFirstSuccess | src/Cogito.Text.Json.Schema.Validation/JsonSchemaExpressionBuilder.cs:202-210 | "any of" stops at the first element that does not reject, and that element decides |
| Outcomes.AndAllDefinite | src/Cogito.Text.Json.Schema.Validation/JsonSchemaExpressionBuilder.cs:187-195 | without exceptions, "all of" is the universal statement |
| Outcomes.OrAllDefinite | src/Cogito.Text.Json.Schema.Validation/JsonSchemaExpressionBuilder.cs:202-210 | without exceptions, "any of" is the existential statement |
| Outcomes.AndAllSnoc | src/Cogito.Text.Json.Schema.Validation/JsonSchemaExpressionBuilder.cs:187-195 | folding one more element into "all of" is one more conjunction |
| Outcomes.OrAllSnoc | src/Cogito.Text.Json.Schema.Validation/JsonSchemaExpressionBuilder.cs:202-210 | folding one more element into "any of" is one more disjunction |
| Outcomes.OneOfScanCounts | src/Cogito.Text.Json.Schema.Validation/JsonSchemaExpressionBuilder.cs:217-231 | without exceptions, "one of" accepts exactly when exactly one element accepts |
| Outcomes.OneOfOrderIndependent | src/Cogito.Text.Json.Schema.Validation/JsonSchemaExpressionBuilder.cs:217-231 | without exceptions, "one of" does not depend on the order of its elements |
| Outcomes.OneOfSecondSuccessRejects | src/Cogito.Text.Json.Schema.Validation/JsonSchemaExpressionBuilder.cs:217-231 | a second accepting element rejects at once |
| Outcomes.SeenRejectsAt | src/Cogito.Text.Json.Schema.Validation/JsonSchemaExpressionBuilder.cs:217-231 | once one element has accepted, any later accepting element rejects |
| Outcomes.RunAll | src/Cogito.Text.Json.Schema.Validation/JsonSchemaExpressionBuilder.cs:187-210 | running a list of expressions gives one outcome per expression |
| Outcomes.AllOf | src/Cogito.Text.Json.Schema.Validation/JsonSchemaExpressionBuilder.cs:187-195 | the built chain runs as "all of" over its elements; an empty list is the constant true |
| Outcomes.AnyOf | src/Cogito.Text.Json.Schema.Validation/JsonSchemaExpressionBuilder.cs:202-210 | the built chain runs as "any of" over its elements; an empty list is the constant false |
| Outcomes.OneOf | src/Cogito.Text.Json.Schema.Validation/JsonSchemaExpressionBuilder.cs:217-231 | the loop with its "seen" flag computes the "one of" scan |
| Keywords.SchemaTypeForTokenType | src/Cogito.Text.Json.Schema.Validation/JsonSchemaExpressionBuilder.cs:116-140 | a JSON kind maps to one type flag, except numbers, which map to integer or number |
| Keywords.Apply | src/Cogito.Text.Json.Schema.Validation/JsonSchemaExpressionBuilder.cs:418-432 | applying a list of sub-schemas gives one outcome per sub-schema |
| Keywords.Each | src/Cogito.Text.Json.Schema.Validation/JsonSchemaExpressionBuilder.cs:439-463 | applying one sub-schema to a list of values gives one outcome per value |
| Keywords.AllOfKeyword | src/Cogito.Text.Json.Schema.Validation/JsonSchemaExpressionBuilder.cs:418-424 | allOf contributes exactly when it has sub-schemas |
| Keywords.AnyOfKeyword | src/Cogito.Text.Json.Schema.Validation/JsonSchemaExpressionBuilder.cs:426-432 | anyOf contributes exactly when it has sub-schemas |
| Keywords.ConstKeyword | src/Cogito.Text.Json.Schema.Validation/JsonSchemaExpressionBuilder.cs:434-437 | const contributes when set and accepts exactly a deep-equal value |
| Keywords.ContainsKeyword | src/Cogito.Text.Json.Schema.Validation/JsonSchemaExpressionBuilder.cs:439-463 | contains contributes when set, and accepts any value that is not an array |
| Keywords.MemberTests | src/Cogito.Text.Json.Schema.Validation/JsonSchemaExpressionBuilder.cs:1013-1021 | each named member is tested for presence |
| Keywords.EqualityTests | src/Cogito.Text.Json.Schema.Validation/JsonSchemaExpressionBuilder.cs:630-636 | each candidate is tested for deep equality with the value |
| Keywords.DependenciesKeyword | src/Cogito.Text.Json.Schema.Validation/JsonSchemaExpressionBuilder.cs:583-592 | dependencies contribute exactly when there are some, and accept any value that is not an object |
| Keywords.DependencyItems | src/Cogito.Text.Json.Schema.Validation/JsonSchemaExpressionBuilder.cs:594-616 | each dependency gives its own outcome |
| Keywords.EnumKeyword | src/Cogito.Text.Json.Schema.Validation/JsonSchemaExpressionBuilder.cs:630-636 | enum contributes exactly when it has values |
| Keywords.ArrayLengthAtMost | src/Cogito.Text.Json.Schema.Validation/JsonSchemaExpressionBuilder.cs:654-694 | an array's length is compared with the bound; any other value raises an invalid operation |
| Keywords.TupleItems | src/Cogito.Text.Json.Schema.Validation/JsonSchemaExpressionBuilder.cs:654-694 | each positional schema gives the outcome for its own position |
| Keywords.ItemsKeyword | src/Cogito.Text.Json.Schema.Validation/JsonSchemaExpressionBuilder.cs:654-694 | items contribute exactly in positional mode or with item schemas; in single-schema mode a non-array accepts |
| Keywords.MaximumKeyword | src/Cogito.Text.Json.Schema.Validation/JsonSchemaExpressionBuilder.cs:696-753 | maximum contributes when set, compares numbers (strictly when exclusive), and accepts non-numbers |
| Keywords.MinimumKeyword | src/Cogito.Text.Json.Schema.Validation/JsonSchemaExpressionBuilder.cs:800-857 | minimum contributes when set, compares numbers (strictly when exclusive), and accepts non-numbers |
| Keywords.MaximumItemsKeyword | src/Cogito.Text.Json.Schema.Validation/JsonSchemaExpressionBuilder.cs:755-765 | the maximum item count accepts exactly non-arrays and arrays within the bound |
| Keywords.MinimumItemsKeyword | src/Cogito.Text.Json.Schema.Validation/JsonSchemaExpressionBuilder.cs:859-869 | the minimum item count accepts exactly non-arrays and arrays at or above the bound |
| Keywords.MaximumLengthKeyword | src/Cogito.Text.Json.Schema.Validation/JsonSchemaExpressionBuilder.cs:767-777 | the check the builder evidently intends, which the source cannot build: the maximum length accepts exactly non-strings and strings within the bound, in text elements |
| Keywords.MinimumLengthKeyword | src/Cogito.Text.Json.Schema.Validation/JsonSchemaExpressionBuilder.cs:871-882 | the check the builder evidently intends, which the source cannot build: the minimum length accepts exactly non-strings and strings at or above the bound, in text elements |
| Keywords.MaximumPropertiesKeyword | src/Cogito.Text.Json.Schema.Validation/JsonSchemaExpressionBuilder.cs:779-798 | the check the builder evidently intends, which the source cannot build: the maximum property count accepts exactly non-objects and objects within the bound |
| Keywords.MinimumPropertiesKeyword | src/Cogito.Text.Json.Schema.Validation/JsonSchemaExpressionBuilder.cs:884-903 | the check the builder evidently intends, which the source cannot build: the minimum property count accepts exactly non-objects and objects at or above the bound |
| Keywords.MultipleOfKeyword | src/Cogito.Text.Json.Schema.Validation/JsonSchemaExpressionBuilder.cs:905-915 | multipleOf contributes exactly when set |
| Keywords.NotKeyword | src/Cogito.Text.Json.Schema.Validation/JsonSchemaExpressionBuilder.cs:934-940 | not contributes exactly when set |
| Keywords.PatternKeyword | src/Cogito.Text.Json.Schema.Validation/JsonSchemaExpressionBuilder.cs:942-950 | the check the pattern builder evidently intends, which the source cannot build: pattern accepts exactly non-strings and strings the expression matches |
| Keywords.RequiredKeyword | src/Cogito.Text.Json.Schema.Validation/JsonSchemaExpressionBuilder.cs:1003-1011 | required contributes exactly when it names members, and accepts non-objects |
| Keywords.TypeKeyword | src/Cogito.Text.Json.Schema.Validation/JsonSchemaExpressionBuilder.cs:1023-1029 | type contributes exactly when set, and never raises |
| Keywords.UniqueItemsKeyword | src/Cogito.Text.Json.Schema.Validation/JsonSchemaExpressionBuilder.cs:1031-1039 | uniqueItems contributes exactly when on, and never raises |
| Keywords.ValidKeyword | src/Cogito.Text.Json.Schema.Validation/JsonSchemaExpressionBuilder.cs:1051-1060 | a boolean schema accepts or rejects everything |
| Keywords.IfThenElseKeyword | src/Cogito.Text.Json.Schema.Validation/JsonSchemaExpressionBuilder.cs:1062-1071 | if/then/else contributes exactly when there is an if |
| Keywords.ContainsLoop | src/Cogito.Text.Json.Schema.Validation/JsonSchemaExpressionBuilder.cs:439-463 | the loop over the array is "any of" over the elements |
| Keywords.CompareLocal | src/Cogito.Text.Json.Schema.Validation/JsonSchemaExpressionBuilder.cs:645-652 | the loop from the offset on checks every remaining element against the schema |
| Keywords.UniqueItems | src/Cogito.Text.Json.Schema.Validation/JsonSchemaExpressionBuilder.cs:1041-1049 | the pairwise loop says unique exactly when no two positions hold deep-equal values |
| Keywords.AllOfHolds | src/Cogito.Text.Json.Schema.Validation/JsonSchemaExpressionBuilder.cs:418-424 | without exceptions, allOf accepts exactly when every sub-schema accepts |
| Keywords.AnyOfHolds | src/Cogito.Text.Json.Schema.Validation/JsonSchemaExpressionBuilder.cs:426-432 | without exceptions, anyOf accepts exactly when some sub-schema accepts |
| Keywords.EnumHolds | src/Cogito.Text.Json.Schema.Validation/JsonSchemaExpressionBuilder.cs:630-636 | enum accepts exactly when some candidate is deep-equal to the value |
| Keywords.ContainsHolds | src/Cogito.Text.Json.Schema.Validation/JsonSchemaExpressionBuilder.cs:439-463 | contains accepts an array exactly when some element accepts; an empty array rejects |
| Keywords.DependencyItemHolds | src/Cogito.Text.Json.Schema.Validation/JsonSchemaExpressionBuilder.cs:594-628 | an absent trigger accepts; a name list requires the names; a schema dependency validates the object; any other dependency raises not supported |
| Keywords.DependenciesHold | src/Cogito.Text.Json.Schema.Validation/JsonSchemaExpressionBuilder.cs:583-592 | dependencies accept an object exactly when every dependency accepts |
| Keywords.SingleItemsHold | src/Cogito.Text.Json.Schema.Validation/JsonSchemaExpressionBuilder.cs:654-670 | in single-schema mode, items accept an array exactly when every element accepts |
| Keywords.TupleItemsHold | src/Cogito.Text.Json.Schema.Validation/JsonSchemaExpressionBuilder.cs:670-694 | in positional mode, items check each position against its schema and the rest against the additional-items rule |
| Keywords.TupleItemsUnguarded | src/Cogito.Text.Json.Schema.Validation/JsonSchemaExpressionBuilder.cs:670-694 | in positional mode a non-array is not guarded: the checks built for it raise |
| Keywords.NotNegates | src/Cogito.Text.Json.Schema.Validation/JsonSchemaExpressionBuilder.cs:934-940 | not accepts exactly when the sub-schema rejects |
| Keywords.RequiredHolds | src/Cogito.Text.Json.Schema.Validation/JsonSchemaExpressionBuilder.cs:1003-1021 | required accepts an object exactly when every required name is a member |
| Keywords.ShortArraysAreUnique | src/Cogito.Text.Json.Schema.Validation/JsonSchemaExpressionBuilder.cs:1041-1049 | arrays of zero or one element are unique |
| Keywords.UniqueItemsHolds | src/Cogito.Text.Json.Schema.Validation/JsonSchemaExpressionBuilder.cs:1031-1049 | uniqueItems rejects an array exactly when two positions hold deep-equal values |
| Keywords.IfThenElseSelects | src/Cogito.Text.Json.Schema.Validation/JsonSchemaExpressionBuilder.cs:1062-1071 | a passing if selects then, a failing if selects else, and a missing branch accepts |
| Keywords.TypeTestCases | src/Cogito.Text.Json.Schema.Validation/JsonSchemaExpressionBuilder.cs:157-169 | the type test, case by case: the draft 3/4 rule for whole numbers and integer, numbers against the numeric flags, and other kinds by their flag |
| Keywords.MultipleOfSkips | src/Cogito.Text.Json.Schema.Validation/JsonSchemaExpressionBuilder.cs:905-932 | multipleOf accepts non-numbers, and under draft 3/4 also whole numbers; otherwise it tests the number |
| PropertyKeywords.PropertyCheck | src/Cogito.Text.Json.Schema.Validation/Builders/PropertyExpressionBuilder.cs:61-72 | an absent property accepts; a present one is validated by its schema against its value |
| PropertyKeywords.PropertyChecks | src/Cogito.Text.Json.Schema.Validation/Builders/PropertyExpressionBuilder.cs:19-22 | one check per declared property |
| PropertyKeywords.PatternMembers | src/Cogito.Text.Json.Schema.Validation/Builders/PropertyExpressionBuilder.cs:79-87 | one outcome per member of the object for a pattern |
| PropertyKeywords.PatternPropertyChecks | src/Cogito.Text.Json.Schema.Validation/Builders/PropertyExpressionBuilder.cs:74-77 | one check per declared pattern |
| PropertyKeywords.MatchOutcome | src/Cogito.Text.Json.Schema.Validation/Builders/PropertyExpressionBuilder.cs:82-103 | a match result becomes accept or reject; an invalid expression raises |
| PropertyKeywords.MatchOutcomes | src/Cogito.Text.Json.Schema.Validation/Builders/PropertyExpressionBuilder.cs:89-97 | one match outcome per pattern for a name |
| PropertyKeywords.CoveredAll | src/Cogito.Text.Json.Schema.Validation/Builders/PropertyExpressionBuilder.cs:89-97 | for each member, whether a property or a pattern covers it |
| PropertyKeywords.AdditionalMembers | src/Cogito.Text.Json.Schema.Validation/Builders/PropertyExpressionBuilder.cs:99-108 | one additional-property outcome per member |
| PropertyKeywords.PropertiesPart | src/Cogito.Text.Json.Schema.Validation/Builders/PropertyExpressionBuilder.cs:24-59 | properties contribute exactly when declared, and accept non-objects |
| PropertyKeywords.PatternPropertiesPart | src/Cogito.Text.Json.Schema.Validation/Builders/PropertyExpressionBuilder.cs:24-59 | patternProperties contribute exactly when declared, and accept non-objects |
| PropertyKeywords.AdditionalPart | src/Cogito.Text.Json.Schema.Validation/Builders/PropertyExpressionBuilder.cs:24-59 | the additional-properties rule contributes exactly when they are disallowed or have a schema, and accepts non-objects |
| PropertyKeywords.PatternProperty | src/Cogito.Text.Json.Schema.Validation/Builders/PropertyExpressionBuilder.cs:79-87 | the loop over the members computes the pattern property check |
| PropertyKeywords.AnyPatternMatches | src/Cogito.Text.Json.Schema.Validation/Builders/PropertyExpressionBuilder.cs:89-97 | the loop computes "any of" over the pattern matches |
| PropertyKeywords.IsCovered | src/Cogito.Text.Json.Schema.Validation/Builders/PropertyExpressionBuilder.cs:89-97 | a name is covered by a declared property or else by a matching pattern |
| PropertyKeywords.AllowAdditionalProperties | src/Cogito.Text.Json.Schema.Validation/Builders/PropertyExpressionBuilder.cs:89-97 | the loop computes the disallow-additional check |
| PropertyKeywords.AdditionalProperties | src/Cogito.Text.Json.Schema.Validation/Builders/PropertyExpressionBuilder.cs:99-108 | the loop computes the additional-properties check |
| PropertyKeywords.CoveredMeans | src/Cogito.Text.Json.Schema.Validation/Builders/PropertyExpressionBuilder.cs:89-97 | with valid patterns, a name is covered exactly when a declared property has that name or a pattern matches it |
| PropertyKeywords.NonObjectsPass | src/Cogito.Text.Json.Schema.Validation/Builders/PropertyExpressionBuilder.cs:24-59 | the property provider accepts every value that is not an object |
| PropertyKeywords.PatternPropertyHolds | src/Cogito.Text.Json.Schema.Validation/Builders/PropertyExpressionBuilder.cs:79-87 | a pattern property accepts exactly when every matching member accepts |
| PropertyKeywords.DisallowRejectsUncovered | src/Cogito.Text.Json.Schema.Validation/Builders/PropertyExpressionBuilder.cs:89-97 | disallowing additional properties rejects exactly when some member is not covered |
| PropertyKeywords.AdditionalChecksUncovered | src/Cogito.Text.Json.Schema.Validation/Builders/PropertyExpressionBuilder.cs:99-108 | the additional-properties schema is applied to exactly the uncovered members |
| PropertyKeywords.RejectingAdditionalIsDisallow | src/Cogito.Text.Json.Schema.Validation/Builders/PropertyExpressionBuilder.cs:89-108 | a schema that rejects every value behaves as disallowing additional properties |
| Validation.OneOfProviderOutcome | src/Cogito.Text.Json.Schema.Validation/Builders/OneOfExpressionBuilder.cs:10-16 | the oneOf provider contributes exactly when there are sub-schemas |
| Validation.EveryBuilderIsConsulted | src/Cogito.Text.Json.Schema.Validation/JsonSchemaExpressionBuilder.cs:385-416 | every keyword builder is in the order the body consults |
| Validation.KeywordOutcomes | src/Cogito.Text.Json.Schema.Validation/JsonSchemaExpressionBuilder.cs:385-416 | one contribution per keyword builder, in order |
| Validation.ProviderOutcomes | src/Cogito.Text.Json.Schema.Validation/JsonSchemaExpressionBuilder.cs:385-416 | one contribution per provider, in order |
| Validation.AndAllAppend | src/Cogito.Text.Json.Schema.Validation/JsonSchemaExpressionBuilder.cs:187-195 | "all of" over two lists is the conjunction of each |
| Validation.PresentAllAppend | src/Cogito.Text.Json.Schema.Validation/JsonSchemaExpressionBuilder.cs:385-416 | dropping missing contributions commutes with concatenation |
| Validation.ConjunctionSplits | src/Cogito.Text.Json.Schema.Validation/JsonSchemaExpressionBuilder.cs:385-416 | the body over two groups of contributions is the conjunction of the groups |
| Validation.PresentAllAccepts | src/Cogito.Text.Json.Schema.Validation/JsonSchemaExpressionBuilder.cs:385-416 | the body accepts exactly when every present contribution accepts |
| Validation.BodyIsConjunction | src/Cogito.Text.Json.Schema.Validation/JsonSchemaExpressionBuilder.cs:374-416 | a schema accepts a value exactly when every keyword and every provider that contributes accepts |
| Validation.ValidFalseNeverAccepts | src/Cogito.Text.Json.Schema.Validation/JsonSchemaExpressionBuilder.cs:1051-1060 | the false schema accepts nothing |
| Validation.NoKeywordsAcceptsAll | src/Cogito.Text.Json.Schema.Validation/JsonSchemaExpressionBuilder.cs:385-416 | the empty schema accepts every value |
| Validation.OneOfHolds | src/Cogito.Text.Json.Schema.Validation/Builders/OneOfExpressionBuilder.cs:10-16 | without exceptions, oneOf accepts exactly when exactly one sub-schema accepts |
| Validation.OneOfIgnoresOrder | src/Cogito.Text.Json.Schema.Validation/Builders/OneOfExpressionBuilder.cs:10-16 | without exceptions, reordering the oneOf sub-schemas does not change the outcome |
| Validation.ApplyAppend | src/Cogito.Text.Json.Schema.Validation/JsonSchemaExpressionBuilder.cs:418-432 | applying sub-schemas commutes with concatenation |
| Validation.MapPreservesMultiset | src/Cogito.Text.Json.Schema.Validation/Builders/OneOfExpressionBuilder.cs:15 | permuting the sub-schemas permutes their outcomes |
| Congruence.BodyCongruence | src/Cogito.Text.Json.Schema.Validation/JsonSchemaExpressionBuilder.cs:374-416 | a body whose references are replaced by code that validates like them validates like the original body |
| Compiler.ExpressionBuilder.constructor | src/Cogito.Text.Json.Schema.Validation/JsonSchemaExpressionBuilder.cs:268-271 | a new builder has no delayed and no compiled nodes |
| Compiler.ExpressionBuilder.Eval | src/Cogito.Text.Json.Schema.Validation/JsonSchemaExpressionBuilder.cs:322-356 | a node whose body is in progress gets a slot call; otherwise its body is built, stored behind its slot when it recursed, and inlined and forgotten when it did not; a failure is not supported from a dependency value of an unsupported kind, or invalid operation from a keyword whose builder throws, somewhere in the graph; a node not yet in progress whose own keywords include one whose builder throws always fails |
| Compiler.ExpressionBuilder.Reenter | src/Cogito.Text.Json.Schema.Validation/JsonSchemaExpressionBuilder.cs:325-332 | a node met again allocates its slot once and returns a call through it |
| Compiler.ExpressionBuilder.StoreBody | src/Cogito.Text.Json.Schema.Validation/JsonSchemaExpressionBuilder.cs:343-348 | a recursive node's finished body is stored for its slot and the call goes through the slot |
| Compiler.ExpressionBuilder.InlineBody | src/Cogito.Text.Json.Schema.Validation/JsonSchemaExpressionBuilder.cs:350-352 | a node that never recursed is inlined and removed from the delayed table |
| Compiler.ExpressionBuilder.EvalDeps | src/Cogito.Text.Json.Schema.Validation/JsonSchemaExpressionBuilder.cs:594-616 | one compiled entry per dependency; a dependency of any other kind makes the list fail with not supported; any other failure is one of building's two faults, from a node of the graph |
| Compiler.ExpressionBuilder.EvalList | src/Cogito.Text.Json.Schema.Validation/JsonSchemaExpressionBuilder.cs:418-432 | list references are compiled in order, one code emitted per reference; a failure is one of building's two faults |
| Compiler.ExpressionBuilder.EvalOpt | src/Cogito.Text.Json.Schema.Validation/JsonSchemaExpressionBuilder.cs:418-432 | an absent reference stays absent, a present one gets code emitted for it; a failure is one of building's two faults |
| Compiler.ExpressionBuilder.EvalEntries | src/Cogito.Text.Json.Schema.Validation/Builders/PropertyExpressionBuilder.cs:24-36 | a keyed table keeps its keys in order, each value getting code emitted for it; a failure is one of building's two faults |
| Compiler.ExpressionBuilder.EvalItems | src/Cogito.Text.Json.Schema.Validation/JsonSchemaExpressionBuilder.cs:654-694 | single-schema mode compiles only the first item schema; positional mode compiles every item schema and, when additional items are allowed, the additional items schema; otherwise nothing is compiled |
| Compiler.ExpressionBuilder.EvalConditional | src/Cogito.Text.Json.Schema.Validation/JsonSchemaExpressionBuilder.cs:1062-1071 | if, then and else are compiled, in that order, exactly when if is present |
| Compiler.ExpressionBuilder.EvalLogicLinks | src/Cogito.Text.Json.Schema.Validation/JsonSchemaExpressionBuilder.cs:387-390 | allOf, anyOf and contains are compiled in the builders' order |
| Compiler.ExpressionBuilder.EvalShapeLinks | src/Cogito.Text.Json.Schema.Validation/JsonSchemaExpressionBuilder.cs:394-411 | items, not and the conditional are compiled in the builders' order; a length or property-count bound fails with invalid operation after items, and a pattern after not |
| Compiler.ExpressionBuilder.EvalKeywordLinks | src/Cogito.Text.Json.Schema.Validation/JsonSchemaExpressionBuilder.cs:387-411 | the keyword builders' links are compiled in their order, with only the providers' links left skipped; a content keyword that throws fails after contains, before dependencies; every node whose builders throw fails |
| Compiler.ExpressionBuilder.EvalPropertyLinks | src/Cogito.Text.Json.Schema.Validation/Builders/PropertyExpressionBuilder.cs:24-59 | properties, then pattern properties, then the additional properties schema exactly when additional properties are allowed |
| Compiler.ExpressionBuilder.EvalProviderLinks | src/Cogito.Text.Json.Schema.Validation/JsonSchemaExpressionBuilder.cs:413-414 | every listed provider compiles its own links, in list order; the keyword links are left as they were |
| Compiler.ExpressionBuilder.EvalProvider | src/Cogito.Text.Json.Schema.Validation/JsonSchemaExpressionBuilder.cs:413-414 | one provider emits code for its own links (oneOf, or properties, patternProperties and additionalProperties) and leaves every other keyword's compiled links as they were; a failure is one of building's two faults: not supported from an unsupported dependency value, or invalid operation from a keyword whose builder throws |
| Compiler.ExpressionBuilder.EvalBody | src/Cogito.Text.Json.Schema.Validation/JsonSchemaExpressionBuilder.cs:374-416 | the compiled body corresponds to the node, with every consulted reference replaced by code emitted for it; a node that sets pattern, a length or property-count bound, or a throwing content keyword always fails; a failure is not supported from an unsupported dependency value, or invalid operation from such a keyword, in the graph |
| Compiler.ExpressionBuilder.Build | src/Cogito.Text.Json.Schema.Validation/JsonSchemaExpressionBuilder.cs:294-314 | the program assigns exactly the allocated slots and validates every value exactly as the schema does, at every fuel bound; building fails only with not supported when the graph holds an unsupported dependency value, or with invalid operation when it holds a keyword whose builder throws; a root not yet built that sets pattern, a length or property-count bound, or a throwing content keyword always fails |

## Left out

- The content keywords (contentEncoding, contentMediaType): the check BuildContent would build is not modelled. Its two string cases convert the value to a string (src/Cogito.Text.Json.Schema.Validation/JsonSchemaExpressionBuilder.cs:480, :487), which throws while the tree is built, and `Compiler.ExpressionBuilder.EvalKeywordLinks` fails with invalid operation there; any other encoding builds no check. The file with `Constants.ContentEncodings` is not part of this model; the base64 name is taken as "base64".
- propertyNames: BuildPropertyNames is not modelled. The reader raises not implemented for propertyNames and disallow, and the model does the same.
- Keywords.MaximumLengthKeyword: the source cannot build this check. BuildMaximumLength converts the value to a string through StringLength (src/Cogito.Text.Json.Schema.Validation/JsonSchemaExpressionBuilder.cs:101, :775), which throws invalid operation while the tree is built; `Compiler.ExpressionBuilder.EvalShapeLinks` fails there. The function states the check the builder evidently intends, which `Validation.Valid` uses.
- Keywords.MinimumLengthKeyword: the source cannot build this check, for the same reason (src/Cogito.Text.Json.Schema.Validation/JsonSchemaExpressionBuilder.cs:101, :880); the compiler fails with invalid operation and the function states the intended check.
- Keywords.MaximumPropertiesKeyword: the source cannot build this check. BuildMaximumProperties compares the int count with a long bound (src/Cogito.Text.Json.Schema.Validation/JsonSchemaExpressionBuilder.cs:786-797), and no such comparison operator exists, so building throws invalid operation; the compiler fails there and the function states the intended check.
- Keywords.MinimumPropertiesKeyword: the source cannot build this check, for the same reason (src/Cogito.Text.Json.Schema.Validation/JsonSchemaExpressionBuilder.cs:891-902); the compiler fails with invalid operation and the function states the intended check.
- Keywords.PatternKeyword: the source cannot build this check. BuildPattern converts the value to a string (src/Cogito.Text.Json.Schema.Validation/JsonSchemaExpressionBuilder.cs:949), which throws invalid operation while the tree is built; the compiler fails there, after not. The function states the check the builder evidently intends, which `Validation.Valid` uses. Its catch-all Pattern helper (:952-962) is therefore never reached.
- Parsing JSON text and reading streams: the reader starts from a parsed `Json` value, and `AddStream` takes the stream's remaining content as bytes.
- Compiling to LINQ expression trees and running them: code is a datatype, and running it is an interpreter over that datatype.
- The dependency-injection container that supplies the property and oneOf providers: the providers are an explicit list.
- Regular expressions, text-element length and deep equality of JSON values: parameters of the model.
- Floating point: numbers are `real`, and the 64-bit integer range is checked explicitly.
- Keywords.MultipleOfValue: the integer test is chosen by the number's value. The source chooses it by whether the number's text reads as a 64-bit integer, so "1.0" takes the floating-point test there; the model has no number text.
- Compiler.ExpressionBuilder.Build: validation uses a fuel bound so that a schema that refers to itself without consuming input has a meaning. The theorem holds at every fuel value, but divergence is not related to the source's stack overflow.
- Schemas.LazyField.GetOrCreate: reference identity of the created collection is not modelled.
- URI parsing, escaping and comparison: a URI is its original text plus a flag saying whether it is absolute, which holds when the text starts with a scheme. Equality is equality of those two parts.
- Dictionaries: values are compared by value, not by reference.
- Dictionaries: the value and key collections, enumerators, CopyTo, the inner-dictionary accessor and the key and value type checks are left out.
- Dictionaries.PatternDictionary.SetItem: a null schema value is not modelled.
- Compiler.ExpressionBuilder.Build: a failure is tied to an unsupported dependency value or a keyword whose builder throws somewhere in the graph, not necessarily one the root node reaches; the model states that the root's own such keywords make building fail, but not that one reached from the root always does, nor which of two faults is reported first.
- Compiler.ExpressionBuilder.Eval: the builder's state after a failure is left partly unspecified. Only the extension of the old state is stated.
- Compiler.ExpressionBuilder.constructor: the null checks on the providers, and those in Build, are left out, because the model has no null references there.
- PreloadedResolvers.PreloadedResolver.AddString: the UTF-8 encoder is a parameter.
- Reader.SchemaGraph.Read: after a failed read, the partly loaded nodes are not described; only closure and extension of the graph are stated.
- Keywords.TypeTestCases: under drafts 3 and 4, a whole number is never of type integer. The model follows the code as written.
- Keywords.MultipleOfSkips: under drafts 3 and 4, a whole number is never tested against multipleOf. The model follows the code as written.
- ReadOrNull is not modelled, because no modelled handler calls it.
- Reader.DependencyNames: a null entry in a name list becomes a null name in the source; the model raises an invalid operation instead.
- ReaderKeywords.UnknownNamesAreExtensions: the keyword table is a map from names, and no lemma is stated about individual keyword spellings.
- GetSubschema (JsonSchemaResolver.cs:27-30) throws not implemented and is not modelled.
- Reading "$id", "$ref", "$schema", "format", "title", "description", "default", "readOnly" and "writeOnly" stores the value only. Resolving references is not part of this model.
