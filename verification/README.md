# leads_api core, modelled in Dafny

This project models four parts of the `leads_api` repository and proves properties of them.

- **The YAML-to-SQL importer** (`import_data.py`). `BaseSQLGenerator` and its subclasses form a fixed tree of generator objects. Each generator holds its own `rows`.
  - `process` sends every top-level key of the document to the child with that `column_key`.
  - `extract_rows` turns each entry of a (transformed) mapping into one row in the table's column order. It sends child keys down the tree together with the inherited foreign-key dictionary.
  - `get_sql` and `get_all_sql` render the rows as `COPY ... FROM STDIN;` blocks, in preorder.
  - The generators are a `class SQLGenerator` whose methods update `rows` in place. Each method is proved equal to a pure function over a value tree (`Extraction`, `Emission`), and the properties are proved about those functions.
- **The schema registry** (`leads_api/models/tables.py`). The 27 `Table` declarations are constants (`Schema.TableOf`). The foreign-key, key and type invariants are proved for every table (`Registry`).
- **The coverage view** (`leads_api/views/coverage.py`). `Coverage` has four parts:
  - the query as a specification over in-memory tables: every combination of one row per table, the join and filter conditions, a stable sort on `distance`, then `LIMIT`;
  - the response shaping, as a method with a loop;
  - the data the response carries (`data`, `status`, `metadata.params`);
  - how the response relates to the query.
- **The ZIP.DAT parser** (`import_zipcodes.py`). `MelissaZipParser` is a class whose constructor computes the field layout with a loop (`prep_fields`) and the row length. The per-line conversion (`is_valid_row`, `get_fields`, `to_model`) and the generator `process` are methods proved against functions. `parse_type` is a function.

Python dictionaries are modelled as association lists (`Document.Value`, `Document.Entry`). A mapping of the loaded document, and the result of `dict(pairs)`, is `Document.Dict` of its pairs: each key once, at the position of its first occurrence, holding the value of its last one. Every walk over a mapping iterates that dict. This covers `process`, `extract_rows` and the comprehensions of the transforms. A Python exception becomes an error value (`ImportError`, `ZipError`, `QueryError`). The model keeps the state reached at the moment of the exception, as Python does.

The model follows the code in these behaviours:

- **Year lists.** The year transform is a dict comprehension with a constant key (import_data.py:165). A list of years gives one row, holding the last year, not one row per year (`Extraction.YearListExtractRows`).
- **Foreign-key clashes.** `dict({fk: id}, **foreign_data)` lets the inherited value win when the names clash (import_data.py:99-102). Most year and model subgenerators declare `foreign_key = 'buyer_slug'`, so their own identity is dropped (`Extraction.ChildForeignLookup`).
- **Null values.** A `None` value in a String column renders as the quoted text `'None'`, not as a null marker (import_data.py:121-122, `Emission.RenderValueAllowed`).
- **Column filter.** `column not in self.subgenerators` compares `Column` objects with string keys, so every declared column is kept (import_data.py:70-75, `Registry.ColumnOrderDeclared`).
- **Data of the wrong shape.** A scalar where `extract_rows` expects a mapping raises (import_data.py:81-85). It is not skipped. `BuyerMakeSQLGenerator` iterates its data first (import_data.py:236-243). An empty list or an empty string gives `{}` and no row (`Extraction.MakeSlugEmptyData`). Any other value that is not a mapping raises.
- **The coverage join.** The coverage row joins the dealer by dealer code only (`buyer_dealer_code == code`, leads_api/views/coverage.py:60-73).
- **The coverage `make` field.** The returned `make` is the make's name, not its slug (leads_api/views/coverage.py:48).
- **The response envelope.** The view itself wraps the response in `status` and `metadata.params` (leads_api/views/coverage.py:111-117).
- **The header comment of `get_sql`.** It names `self.table_name` literally, because that f-string part has no braces (import_data.py:133).

## Model

| member | source | states |
|---|---|---|
| Generators.Subgenerators | import_data.py:16-24 | every child class in `__subgenerators__` lies strictly lower in the class tree, so the tree is finite |
| Generators.RootKeys | import_data.py:19-24 | the root's children are keyed `years`, `countries`, `makes`, `buyers`, in that order |
| Generators.SiblingKeysDistinct | import_data.py:151-366 | siblings all have a `column_key` and no two siblings share one, so the dict comprehension of `__init__` loses no child |
| Extraction.Initial | import_data.py:26-39 | a freshly built generator has no rows and has one child per subgenerator class, recursively |
| Extraction.ColumnIndex | import_data.py:87-88 | `self.columns.index(column)`: the first position whose column name is the key, or none when no column has that name |
| Extraction.FindChild | import_data.py:45-49 | `key in self.subgenerators`: the child whose `column_key` is the key, or none when no child has it |
| Extraction.Identity | import_data.py:95 | `data_values.get('slug', data_key) or None`: the slug when present and truthy, `None` when present and falsy, otherwise the key or `None` for the empty key |
| Extraction.ChildForeignLookup | import_data.py:99-102 | the child's inherited dictionary holds every inherited entry unchanged and the child's `foreign_key` only when it was not inherited; that key comes first |
| Extraction.ChildForeign | import_data.py:99-102 | `dict({fk: id}, **foreign_data)` holds no key twice, and its first key is the child's `foreign_key` |
| Extraction.Iterated | import_data.py:165 | `for x in data` works exactly on a list, a mapping or a string: a list gives its items, a string its characters as one-character strings, and a mapping exactly its keys |
| Extraction.YearListTransform | import_data.py:162-165 | the year transform succeeds exactly on an iterable and gives the one key `years`; the inner dictionary is empty exactly when there is no element, and otherwise its `year_slug` is the last element |
| Extraction.MakeSlugTransform | import_data.py:236-243 | on a mapping, the `BuyerMake` transform succeeds exactly when every value of the dict is a mapping; on anything else it succeeds exactly when there is nothing to iterate, and then gives `{}`; a success is always a mapping |
| Extraction.LegacyTransform | import_data.py:282-288 | the legacy transform succeeds exactly on a mapping with `id` and `name`, and gives the one key `legacy`, whose `legacy_id` and `legacy_name` read `id` and `name` |
| Extraction.TransformData | import_data.py:52-53 | the default `transform_data` returns the data unchanged, and an override that succeeds returns a mapping |
| Extraction.ColumnTextsDistinct | import_data.py:70-75 | no two columns of a generator's table share a name, so `self.columns.index` finds the one slot |
| Extraction.Extract | import_data.py:55-109 | `extract_rows` keeps the generator's class and the shape of its tree; it walks the data as a dict, one entry per key |
| Extraction.EntriesFrom | import_data.py:81-109 | the loop over entries keeps the generator's class and the shape of its tree |
| Extraction.ItemsFrom | import_data.py:85-108 | the loop over one entry's items leaves the generator's own rows alone and keeps the row as wide as the columns |
| Extraction.SendDown | import_data.py:92-103 | sending a value to a child keeps the generator's class and rows and the number of its children, and leaves every other child unchanged |
| Extraction.Process | import_data.py:41-50 | `process` keeps the class and the shape of the tree; it walks the document as a dict, one entry per key |
| Extraction.ProcessFrom | import_data.py:44-50 | the loop of `process` keeps the class and the shape of the tree |
| Extraction.SendTop | import_data.py:49-50 | a top-level send keeps the root's class and rows and the number of its children, and leaves every other child unchanged |
| Extraction.EntryRow | import_data.py:83-89 | the row an entry completes is exactly as wide as the columns |
| Extraction.EntryRowDict | import_data.py:81-89 | an entry's row is the same whether it is built from the entry's dict or from its raw pairs |
| Extraction.EntryRows | import_data.py:81-109 | one row per entry of the transformed data |
| Extraction.ItemsFill | import_data.py:85-89 | after the item loop, each slot holds the value of the last item with that column's name (inherited items come last and so win), or its old value |
| Extraction.ItemsKnown | import_data.py:104-108 | an item loop that raised nothing met only keys that are a column or a child key |
| Extraction.EntryRowFilled | import_data.py:83-89 | an entry that raised nothing gives exactly the row `EntryRow` describes |
| Extraction.EntriesRows | import_data.py:81-109 | an entry loop that raised nothing saw only mappings and appended exactly one `EntryRow` per entry, in order |
| Extraction.EntriesKnown | import_data.py:104-108 | an entry loop that raised nothing met no unknown key in any entry |
| Extraction.ExtractRows | import_data.py:55-109 | `extract_rows` that raises nothing had a table and a mapping of mappings, and appended exactly one row per key of the transformed dict, in order |
| Extraction.ExtractKnownKeys | import_data.py:85-108 | `extract_rows` that raises nothing met only keys that are a column or a child key, in every entry's own dict and in the inherited one |
| Extraction.EntryKeyKnown | import_data.py:85-108 | in a walk that raised nothing, every key of an entry's own dict or of the inherited dict is a column or a child key |
| Extraction.ExtractGrows | import_data.py:109 | `extract_rows` only appends: every generator's old rows are a prefix of its new rows, error or not |
| Extraction.EntriesGrows | import_data.py:81-109 | the entry loop only appends rows anywhere in the tree |
| Extraction.ItemsGrows | import_data.py:85-108 | the item loop only appends rows anywhere in the tree |
| Extraction.SendDownGrows | import_data.py:97-103 | sending a value down only appends rows |
| Extraction.ProcessGrows | import_data.py:44-50 | `process` only appends rows |
| Extraction.SendTopGrows | import_data.py:49-50 | a top-level send only appends rows |
| Extraction.InitialFits | import_data.py:26-39 | a new tree has no rows, so every row is as wide as its table |
| Extraction.ExtractFits | import_data.py:83-109 | `extract_rows` keeps every row of the tree exactly as wide as its table's columns |
| Extraction.EntriesFits | import_data.py:81-109 | the entry loop keeps every row as wide as its table |
| Extraction.ItemsFits | import_data.py:85-108 | the item loop keeps every row as wide as its table |
| Extraction.SendDownFits | import_data.py:97-103 | sending down keeps every row as wide as its table |
| Extraction.ProcessFits | import_data.py:44-50 | `process` keeps every row as wide as its table |
| Extraction.SendTopFits | import_data.py:49-50 | a top-level send keeps every row as wide as its table |
| Extraction.ProcessKnown | import_data.py:44-48 | a `process` that raised nothing saw only keys that are a child's `column_key` |
| Extraction.ProcessTopLevelKeys | import_data.py:44-48 | on the root, a `process` that raised nothing was given a mapping whose every key is `years`, `countries`, `makes` or `buyers` |
| Extraction.ProcessRejectsUnknownKey | import_data.py:44-48 | on the root, the first key outside those four raises the unknown-key error |
| Extraction.YearInner | import_data.py:165 | the year comprehension's inner dictionary has at most one entry |
| Extraction.YearListExtractRows | import_data.py:162-165 | a year subgenerator that raises nothing appends exactly one row, whatever the length of the list |
| Extraction.YearListEntryRows | import_data.py:162-165 | the year transform of a list always succeeds and gives exactly one entry |
| Extraction.YearRow | import_data.py:85-89 | in that row, `year_slug` holds the last element of the list (or `None` for the empty list) unless it is inherited; every other column holds its inherited value or `None` |
| Extraction.MakeSlugEntriesSucceed | import_data.py:236-243 | the `BuyerMake` transform succeeds exactly when every entry is a mapping, and keeps the number of entries |
| Extraction.MakeSlugEntriesAt | import_data.py:236-243 | each transformed entry keeps its key and fields and gains `make_slug` equal to its key |
| Extraction.MakeSlugExtractRows | import_data.py:227-243 | `BuyerMakeSQLGenerator.extract_rows` that raises nothing appends one row per key of the dict, from the transformed entries, in order |
| Extraction.MakeSlugDistinct | import_data.py:236-243 | the `BuyerMake` transform of a dict keeps its keys, so the result has each key once |
| Extraction.MakeSlugEmptyData | import_data.py:236-243 | `BuyerMakeSQLGenerator.extract_rows` of an empty list or an empty string raises nothing and appends no row |
| Extraction.MakeSlugRows | import_data.py:236-243 | one row per make, and its `make_slug` slot is the map key unless `make_slug` is inherited |
| Extraction.MakeSlugRow | import_data.py:236-243 | the `make_slug` slot of the row of make `m` is that make's key unless it is inherited |
| Extraction.LegacyErrors | import_data.py:282-288 | the legacy transform raises on a non-mapping, then on a missing `id`, then on a missing `name`, in that order |
| Extraction.LegacyExtractRows | import_data.py:276-288 | `LegacyBuyerTierSQLGenerator.extract_rows` that raises nothing had `id` and `name` and appends exactly one row |
| Extraction.LegacyEntryRows | import_data.py:282-288 | the legacy transform gives exactly the one `legacy` entry built from `id` and `name` |
| Extraction.LegacyRow | import_data.py:282-288 | in that row `legacy_id` and `legacy_name` hold `id` and `name` unless inherited; other columns hold their inherited value or `None` |
| Importer.SQLGenerator.constructor | import_data.py:26-39 | `__init__` builds a fresh, correctly wired tree of generators whose state is the initial tree for its class |
| Importer.SQLGenerator.Build | import_data.py:32-38 | the dict comprehension makes one fresh generator per subgenerator class, in order, each an initial tree, with disjoint footprints |
| Importer.SQLGenerator.ExtractRows | import_data.py:55-109 | `extract_rows` changes the tree exactly as `Extraction.Extract` says and reports its exception |
| Importer.SQLGenerator.FillRow | import_data.py:83-108 | the item loop of one entry fills the row and changes the tree exactly as `Extraction.ItemsFrom` says |
| Importer.SQLGenerator.PlaceItem | import_data.py:86-108 | one item fills its column slot, goes down to the child with that key, or raises unknown column |
| Importer.SQLGenerator.SendToChild | import_data.py:92-103 | the recursive `extract_rows` on child `c` changes only that child, as `Extraction.SendDown` says |
| Importer.SQLGenerator.Process | import_data.py:41-50 | `process` changes the tree exactly as `Extraction.Process` says and reports its exception |
| Importer.SQLGenerator.SendToTop | import_data.py:49-50 | `generator.extract_rows(_data)` changes only that child, as `Extraction.SendTop` says |
| Importer.SQLGenerator.GetSql | import_data.py:111-137 | `get_sql` returns `Emission.RenderSql` of the generator's rows |
| Importer.SQLGenerator.CopyStatement | import_data.py:115-137 | the row loop and the statement around it give `Emission.CopyBlock` |
| Importer.SQLGenerator.RenderLine | import_data.py:117-127 | the value loop of one row gives `Emission.RenderRow` |
| Importer.SQLGenerator.GetAllSql | import_data.py:139-145 | `get_all_sql` returns `Emission.AllSql` of the generator's tree |
| Importer.SQLGenerator.ChildrenAllSql | import_data.py:142-143 | the loop over the children concatenates their `get_all_sql` in order, and the first failure is raised |
| Importer.Run | import_data.py:404-418 | `main` between loading and writing: an exception from `process` ends the run with that error; otherwise rendering succeeds and gives `get_all_sql` of the processed tree |
| Emission.TypesOf | import_data.py:70-75 | one column type per column |
| Emission.RenderValue | import_data.py:117-126 | a value renders exactly in a String or an Integer column, and a String value is its `str()` between two quotes; any other type raises the unsupported-type error |
| Emission.Header | import_data.py:129-135 | the header is the literal comment line, then `COPY <table> (` and the columns, ending in `) FROM STDIN;` and a newline |
| Emission.RenderSql | import_data.py:111-137 | `get_sql` is empty without rows and raises without a table; otherwise it opens with the header and ends in a blank line |
| Emission.AllSql | import_data.py:139-145 | `get_all_sql` opens with the root's own `get_sql`, and raises the root's error when that raises |
| Emission.RenderValuesMeaning | import_data.py:117-126 | when every type is String or Integer, the values render without error, one text per value |
| Emission.RenderValueAllowed | import_data.py:121-124 | a String value renders as `str(value)` in quotes (so `None` renders `'None'`), an Integer value as bare `str(value)` |
| Emission.RenderValuesFailureSticks | import_data.py:125-126 | once a value fails to render, the whole row raises that error |
| Emission.UnsupportedTypeFails | import_data.py:125-126 | a value in a column of any other type raises the unsupported-type error |
| Emission.RenderRowsFailureSticks | import_data.py:116-127 | once a row fails, `get_sql` raises that row's error |
| Emission.RenderRowsMeaning | import_data.py:115-127 | when every row renders, the lines are the rendered rows, one per row, in order |
| Emission.Cells | import_data.py:117-124 | one rendered cell per value |
| Emission.RenderRowMeaning | import_data.py:117-127 | a row no wider than its columns renders as `(v1, v2, ...)` |
| Emission.CopyBlockMeaning | import_data.py:129-137 | the block is the header, the rendered rows joined by newlines, then a blank line |
| Emission.RenderSqlEmpty | import_data.py:111-113 | `get_sql` returns the empty text exactly when there are no rows |
| Emission.CopyBlockLonger | import_data.py:132-136 | a block is never empty |
| Emission.RenderSqlMeaning | import_data.py:111-137 | with rows as wide as the table, `get_sql` is the `COPY <table> (<columns>) FROM STDIN;` block of those rows |
| Emission.TypesAllowed | import_data.py:121-126 | every table's column types are String or Integer, so the unsupported-type branch is never taken |
| Emission.ConcatSqlAppend | import_data.py:139-145 | rendering two lists of nodes one after the other concatenates the texts, and the first error wins |
| Emission.TreeSqlPreorder | import_data.py:139-145 | the recursive walk is the concatenation of every node's SQL in preorder |
| Emission.ChildrenSqlPreorder | import_data.py:142-143 | the loop over the children is the preorder concatenation over their subtrees |
| Emission.AllSqlPreorder | import_data.py:139-145 | `get_all_sql` is every generator's `get_sql` in preorder |
| Emission.NodeSqlSucceeds | import_data.py:111-137 | a generator whose rows are as wide as its table renders without raising |
| Emission.RowFailureRaised | import_data.py:116-126 | the first value that fails to render, in the first failing row, is the error `get_sql` raises |
| Emission.ChildrenSqlFailureSticks | import_data.py:142-143 | once a child's subtree raises, the loop over the children raises that error |
| Emission.TreeSqlSucceeds | import_data.py:139-145 | when every node renders, so does the whole walk |
| Emission.ChildrenSqlSucceed | import_data.py:142-143 | when every node renders, so does the loop over the children |
| Emission.FitsRenders | import_data.py:111-137 | a tree whose rows fit their tables renders at every node |
| Emission.AllSqlSucceeds | import_data.py:139-145 | `get_all_sql` never raises on a tree whose rows fit their tables |
| Emission.AllSqlOfEmptyTree | import_data.py:111-113 | a freshly built tree renders as the empty text |
| Emission.TreeSqlOfEmpty | import_data.py:139-145 | a tree without rows renders empty under any rendering that is empty for no rows |
| Emission.InitialChildrenSql | import_data.py:142-143 | the children of a new tree render empty |
| Emission.RendersAfterProcess | import_data.py:404-418 | after any `process` of the root, error or not, `get_all_sql` succeeds |
| Document.Get | import_data.py:95 | lookup finds a value exactly when the key is present, and the value is one stored under that key |
| Document.Replace | import_data.py:238-242 | replacing a value keeps the keys and their order |
| Document.Set | import_data.py:238-242 | setting a key keeps the key order and appends a new key at the end |
| Document.Update | import_data.py:99-102 | `dict(d, **e)` keeps every key of `d` in place, first |
| Document.GetSet | import_data.py:238-242 | after setting `k` to `v`, `k` reads `v` and every other key reads as before |
| Document.GetReplaced | import_data.py:238-242 | after replacing `k`, `k` reads the new value if it was present and every other key reads as before |
| Document.GetAt | leads_api/views/coverage.py:94-106 | a key reads as the value of its last entry |
| Document.GetAppend | import_data.py:85 | in `items(a) + items(b)` a key reads from `b` when `b` has it, else from `a` |
| Document.GetUpdate | import_data.py:99-102 | in `dict(d, **e)` a key reads from `e` when `e` has it, else from `d` |
| Document.KeysUpdate | import_data.py:99-102 | `dict(d, **e)` has exactly the keys of `d` and of `e` |
| Document.Dict | import_data.py:409 | a mapping of the loaded document, like `dict(pairs)`, has each key once |
| Document.DictGet | import_data.py:409 | the dict built from pairs reads every key as the pairs do, with the last value, and has exactly their keys |
| Document.UpdateDistinct | import_data.py:99-102 | `dict(d, **e)` of a dict has each key once |
| Document.DictOfDict | import_data.py:236-243 | building a dict from a dict's own pairs changes nothing |
| PyText.NatToString | import_data.py:124 | `str(n)` of a natural number is a non-empty run of digits with no leading zero |
| PyText.NatToStringRoundTrip | import_data.py:124 | reading the digits of `str(n)` back gives `n` |
| PyText.IntToString | import_data.py:124 | `str(i)` starts with `-` exactly for negative `i`, followed by the digits of its absolute value |
| PyText.Join | import_data.py:127-130 | `sep.join` of no parts is empty and of one part is that part |
| PyText.RStrip | import_zipcodes.py:90 | `rstrip()` is the prefix that drops exactly the trailing whitespace |
| PyText.Slice | import_zipcodes.py:90 | `row[start:end]` is the substring when in range and never longer than the row |
| PyText.Quote | import_data.py:122 | `f"'{v}'"` is the text between two single quotes |
| Schema.TableOf | leads_api/models/tables.py:13-404 | the declaration of each of the 27 tables, named by its own name |
| Schema.ColTextInjective | leads_api/models/tables.py:13-404 | different columns have different SQL names |
| Schema.ColumnForeignKeysFrom | leads_api/models/tables.py:50-56 | the foreign keys written on columns are exactly those of the columns that carry a `ForeignKey` |
| Schema.KeysFromMeaning | leads_api/models/tables.py:13-404 | the primary-key view holds exactly the names of the columns marked `primary_key` |
| Schema.NamesFromMeaning | leads_api/models/tables.py:73-78 | the name view of a column list holds exactly its names |
| Schema.LocalColumnsMeaning | leads_api/models/tables.py:73-78 | the local-column view holds exactly the columns of some foreign key |
| Schema.RefNamesMeaning | leads_api/models/tables.py:73-78 | the referenced-column view holds exactly the referenced columns |
| Schema.PrimaryKeyMeaning | leads_api/models/tables.py:13-404 | a name is in a table's primary key exactly when a column of that name is marked `primary_key` |
| Schema.ForeignKeyColumnsMeaning | leads_api/models/tables.py:73-78 | a name is a foreign-key column exactly when some foreign key of the table lists it |
| Registry.TableForeignKeysSound | leads_api/models/tables.py:13-404 | every foreign key of every table is well shaped, uses declared columns and references its target's key |
| Registry.ColumnsDistinct | leads_api/models/tables.py:13-404 | no table declares two columns of the same name |
| Registry.TableTyped | leads_api/models/tables.py:13-404 | every column of every table has an allowed type |
| Registry.ForeignKeysWellShaped | leads_api/models/tables.py:263-280 | every foreign key has equally many local and referenced columns, at least one, all referenced in one target table |
| Registry.ForeignKeyColumnsDeclared | leads_api/models/tables.py:336-359 | every local column of every foreign key is a declared column of the same table |
| Registry.ForeignKeysReferenceKeys | leads_api/models/tables.py:298-301 | every foreign key references the whole primary key of its target, except `buyer_dealer(country_slug, state)`, which references `country_state(country_slug, abbr)` |
| Registry.AssociationKeys | leads_api/models/tables.py:103-117 | a table's foreign-key columns together equal its primary key exactly for the association tables |
| Registry.ColumnTypes | leads_api/models/tables.py:166 | only String and Integer columns occur, and Integer exactly for `legacy_id` and `distance` |
| Registry.CoverageTableKeys | leads_api/models/tables.py:396-404 | `buyer_tier_dealer_coverage` declares no foreign key and its key is `(buyer_tier_slug, dealer_code, zipcode)` |
| Registry.DealerColumnOrder | leads_api/models/tables.py:283-296 | `buyer_dealer`'s columns are `buyer_slug, code, name, address, city, state, zipcode, country_slug, phone`, the order the importer writes |
| Registry.ColumnOrderDeclared | import_data.py:70-75 | `self.columns` is every declared column of the table, in declaration order |
| Registry.ColumnTypeOrderDeclared | import_data.py:70-74 | `self.column_types` gives every column its declared type, in column order |
| Coverage.Take | leads_api/views/coverage.py:79 | `LIMIT n` returns at most `n` rows and never more than there are |
| Coverage.Joins | leads_api/views/coverage.py:60-73 | a combination that meets the conditions has its tier and its dealer under the same buyer, and the make and tier that the request names |
| Coverage.Limit | leads_api/views/coverage.py:38 | the limit is the one requested, or 3 when none is given |
| Coverage.Query | leads_api/views/coverage.py:44-79 | the query fails exactly for a negative limit, and returns at most `limit` rows and never more than the candidates |
| Coverage.DistanceLe | leads_api/views/coverage.py:75 | `ORDER BY distance` compares two numbers by value and puts `NULL` after every number |
| Coverage.CoverageEntry | leads_api/views/coverage.py:94-106 | a coverage entry has the ten keys, in order, each once |
| Coverage.Data | leads_api/views/coverage.py:85-109 | `data` holds `has_coverage` alone when there is no row, and otherwise `has_coverage`, `buyer`, `buyer_tier` and `coverage`, each once |
| Coverage.Response | leads_api/views/coverage.py:111-117 | the result has the keys `status`, `data` and `metadata`, in that order |
| Coverage.Insert | leads_api/views/coverage.py:75 | inserting into the sorted rows adds exactly one row |
| Coverage.SortByDistance | leads_api/views/coverage.py:75 | sorting keeps the number of rows |
| Coverage.ShapeResult | leads_api/views/coverage.py:85-117 | the loop that fills `data` and appends one coverage entry per row builds exactly `Response` |
| Coverage.CoverageGet | leads_api/views/coverage.py:36-118 | a negative limit ends in the database error; otherwise the view returns the response for the query's rows and the request's params |
| Coverage.PairsMembers | leads_api/views/coverage.py:44-59 | a pair occurs in the cross product exactly when each part occurs in its list |
| Coverage.ProductMembers | leads_api/views/coverage.py:44-59 | a combination occurs in the six-table product exactly when each of its rows is in its table |
| Coverage.MatchesMembers | leads_api/views/coverage.py:60-73 | a result row comes from a listed combination meeting every condition, and every such combination gives one |
| Coverage.CandidatesMembers | leads_api/views/coverage.py:44-73 | a row is a candidate exactly when some combination of table rows meets the five joins and three filters and gives it |
| Coverage.InsertWithin | leads_api/views/coverage.py:75 | inserting a row no farther than `d` into rows no farther than `d` keeps them all no farther than `d` |
| Coverage.InsertSorted | leads_api/views/coverage.py:75 | insertion keeps the rows in ascending distance |
| Coverage.InsertPermutation | leads_api/views/coverage.py:75 | insertion adds exactly the one row and loses none |
| Coverage.SortSorted | leads_api/views/coverage.py:75 | `ORDER BY distance` gives the same rows in ascending distance, `NULL` last |
| Coverage.AtDistanceAppend | leads_api/views/coverage.py:75 | the rows at one distance of two lists are those of the first, then those of the second |
| Coverage.InsertAtDistance | leads_api/views/coverage.py:75 | insertion puts the new row after every row at its own distance |
| Coverage.SortStable | leads_api/views/coverage.py:75 | rows at equal distance keep their relative order |
| Coverage.QueryLimit | leads_api/views/coverage.py:38 | the query succeeds exactly when the limit is not negative, returns `min(limit, candidates)` rows, and a missing limit means at most 3 |
| Coverage.QuerySorted | leads_api/views/coverage.py:75 | returned rows are in non-decreasing distance |
| Coverage.QuerySound | leads_api/views/coverage.py:60-73 | every returned row meets the joins, the make and tier filters and the zip code filter |
| Coverage.QueryClosest | leads_api/views/coverage.py:75-79 | a matching combination is returned, or the limit is full of rows no farther than it |
| Coverage.QueryStable | leads_api/views/coverage.py:75 | the rows returned at one distance are a prefix of the candidates at that distance, in candidate order |
| Coverage.ResponseStatus | leads_api/views/coverage.py:111-117 | the result has three keys, `status` is `'ok'` and `data` is the shaped data |
| Coverage.ResponseParams | leads_api/views/coverage.py:114-116 | `metadata` holds only `params`, and `params` reads every key as the request params do |
| Coverage.DataFlag | leads_api/views/coverage.py:85-109 | `has_coverage` is true exactly when there are rows, and `data` holds that one key alone exactly when there are none |
| Coverage.DataBuyer | leads_api/views/coverage.py:86-90 | with rows, `buyer` and `buyer_tier` come from the first row |
| Coverage.DataCoverage | leads_api/views/coverage.py:91-107 | with rows, `coverage` is a list of one entry per row, in row order |
| Coverage.CoverageEntryDealer | leads_api/views/coverage.py:95-96 | each entry copies the dealer's code and name |
| Coverage.CoverageEntryAddress | leads_api/views/coverage.py:97-98 | each entry copies the dealer's address and city |
| Coverage.CoverageEntryContact | leads_api/views/coverage.py:99-101 | each entry copies the dealer's state, zip code and phone |
| Coverage.CoverageEntryReach | leads_api/views/coverage.py:102-104 | each entry copies the distance, the coverage zip code and the make's name |
| Coverage.HasCoverageExactly | leads_api/views/coverage.py:44-87 | `has_coverage` is true exactly when the limit is positive and some combination of rows meets every join and filter |
| Zipcodes.Layout | import_zipcodes.py:67-73 | one span per entry of the size table |
| Zipcodes.Kept | import_zipcodes.py:71-72 | keeping the fields whose names do not start with `_` never adds fields |
| Zipcodes.LayoutContiguous | import_zipcodes.py:67-73 | the first field starts at 0, each field is as wide as its size, each starts where the previous ends, and names are kept |
| Zipcodes.PrepFields | import_zipcodes.py:60-74 | the loop of `prep_fields` gives the laid-out fields without those whose name starts with `_`, in order |
| Zipcodes.MaxEnd | import_zipcodes.py:33 | `max(end)` bounds every field's end and is the end of some field |
| Zipcodes.RecordLaidOut | import_zipcodes.py:13-28 | the ZIP.DAT size table lays out as the fourteen spans from 0 to 78 |
| Zipcodes.RecordKept | import_zipcodes.py:13-31 | `prep_fields` of the ZIP.DAT table keeps exactly the nine named fields with their offsets |
| Zipcodes.MelissaRowLength | import_zipcodes.py:33 | `row_length` is 75 |
| Zipcodes.Cell | import_zipcodes.py:90-91 | a field is `None` exactly when its slice is all whitespace; otherwise it is the slice up to its last non-whitespace character |
| Zipcodes.FieldMapKeys | import_zipcodes.py:88-92 | `get_fields` has exactly the names of the fields as keys |
| Zipcodes.FieldMap | import_zipcodes.py:88-92 | no field of the dictionary holds the empty string: a blank field is `None` |
| Zipcodes.FieldMapValue | import_zipcodes.py:89-91 | a field's value is its stripped slice, or `None` if empty |
| Zipcodes.MelissaNamesDistinct | import_zipcodes.py:13-28 | no two kept ZIP.DAT fields share a name |
| Zipcodes.MelissaField | import_zipcodes.py:88-92 | for the ZIP.DAT table, each kept field is a key holding its stripped slice |
| Zipcodes.ModelKeysPresent | import_zipcodes.py:95-125 | `get_fields` of any line provides every key `to_model` reads |
| Zipcodes.MelissaZipParser.constructor | import_zipcodes.py:30-33 | `__init__` sets `fields` to `prep_fields` of the size table, two header lines to skip, and `row_length` to the farthest field end |
| Zipcodes.MelissaZipParser.IsValidRow | import_zipcodes.py:50-58 | a line is valid exactly when every kept field's slice lies inside it |
| Zipcodes.MelissaZipParser.GetFields | import_zipcodes.py:88-92 | the loop of `get_fields` builds the field dictionary of the line |
| Zipcodes.MelissaZipParser.ToModel | import_zipcodes.py:94-126 | `None` exactly when `last_line` is not `'L'`; an invalid-zip error exactly when it is `'L'` and a required field is missing; otherwise the eight fields copied in order |
| Zipcodes.MelissaZipParser.RowFromLine | import_zipcodes.py:36-45 | a line gives a zip row exactly when it is at least 75 long, `last_line` is `L` and the five required fields are present, and then each part is the stripped slice at its fixed offsets |
| Zipcodes.MelissaZipParser.LineResult | import_zipcodes.py:36-45 | a line fails as too short exactly when it is not valid, and every other outcome comes from a valid line |
| Zipcodes.MelissaZipParser.ConvertLine | import_zipcodes.py:37-45 | one pass of the loop: a short line raises, otherwise `to_model(get_fields(row))` |
| Zipcodes.MelissaZipParser.Process | import_zipcodes.py:35-45 | the loop skips two lines and gives what the generator yields and the error that stops it |
| Zipcodes.Collect | import_zipcodes.py:36-45 | the generator yields at most one row per line |
| Zipcodes.CollectAppend | import_zipcodes.py:36-45 | the generator streams: lines after an error change nothing, and otherwise rows are yielded in line order |
| Zipcodes.CollectClean | import_zipcodes.py:36-43 | the generator finishes without error exactly when no line raises |
| Zipcodes.CollectFirstError | import_zipcodes.py:37-43 | the error that stops it is the first line's error |
| Zipcodes.CollectYields | import_zipcodes.py:44-45 | every yielded row is the `to_model` result of some line |
| Zipcodes.ParseTypeOfCell | import_zipcodes.py:196-201 | a field renders as `''` exactly when it is `None`; a string field renders as its text in single quotes, and a number field as its text |
| Zipcodes.ParseType | import_zipcodes.py:196-201 | `None` renders empty, a number renders as its text, and a string as its text between single quotes |

## Left out

- File, YAML and CLI I/O: `main` of both scripts, except the steps between loading and writing (`Importer.Run`), the `__main__` blocks, and `create_copy_statements`. The document is an input value.
- YAML floats, dates and non-string keys are not modelled. `Document.Text` renders scalars, lists and mappings, but it does not model Python's `repr` escaping of quotes inside strings within lists and mappings.
- `Document.Text`: `str()` of a mapping value renders the pairs it is given. A mapping of a loaded document never repeats a key, so this matches Python there. A mapping built with a repeated key would render the repeat, which Python does not.
- The name-based class lookup (`tables_by_name`, `generators_map`) is not modelled. The generator classes are a datatype and the tables an enumeration, so a lookup cannot fail.
- `Importer.SQLGenerator.constructor`: does not model `parent_generator`, a back-reference that nothing reads.
- `Importer.SQLGenerator.ExtractRows`: `self.columns` and `self.column_types` are recomputed on every call. The model reads the same values from `ColumnOrder` and `ColumnTypeOrder`, which `Registry.ColumnOrderDeclared` and `Registry.ColumnTypeOrderDeclared` prove equal to the declared columns.
- `Importer.SQLGenerator.SendToChild`: a child without `foreign_key` cannot occur in the tree. Its error case is modelled but is unreachable.
- `Emission.Header`: a table is named by its enumeration text. SQLAlchemy's quoting of names is not modelled.
- The SQLAlchemy session and the query plan: the query is a specification over in-memory tables.
- `Coverage.QueryStable`: ties among rows at the same distance keep the nested-loop enumeration order of the six tables. The database may return such rows in another order. `NULL` distances sort last, as in PostgreSQL's ascending order.
- `Coverage.CoverageGet`: a negative `limit` is modelled as a database error. The marshmallow and cornice validation, and the 400 response for a missing parameter, are not modelled. `dict(request.params)` is modelled as the params with later duplicates winning.
- `Zipcodes.ParseTypeOfCell`: `str()` of a float is not modelled. Values are the text fields of a line.
- `Zipcodes.MelissaZipParser.ToModel`: latitude and longitude stay text. `float()` and its failure are not modelled. It requires the nine keys `get_fields` always provides (`Zipcodes.ModelKeysPresent`). The `KeyError` of a dictionary without them is not modelled.
- `Zipcodes.MaxEnd`: requires at least one field, because `max()` of nothing raises. The ZIP.DAT table keeps nine fields.
- `Zipcodes.MelissaZipParser.Process`: the generator is lazy. The model returns every row it yields before it stops, together with the error that stops it.
- `leads_api/models/leads.py`, `leads_api/models/zipcode.py`, the tweens, the app setup and `create_schema_dump.py` are not part of this model.
