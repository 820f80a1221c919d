# Playwright language-injection generator, modelled in Dafny

`generate.py` builds two IntelliJ language-injection configuration files for
the Python Playwright API. One marks CSS selector arguments. The other marks
JavaScript expression arguments. Its logic is a classifier over the
methods of the generated API classes:

- An argument is a CSS injection point when its annotation is
  `selector: str`. Otherwise it is a JavaScript point when its annotation
  is `expression: str`.
- Two override tables map method names to annotation positions that the
  naming convention misses. The shipped CSS table is `{"drag_and_drop": 1}`;
  the shipped script table is empty.
- Every hit becomes a record `(method name, position, "module.Class")`.
  Both lists are sorted, and every record is rendered as a
  `<place><![CDATA[...]]></place>` line.

The project models that classifier and its renderers as pure functions over
explicit data, and proves what they promise.

- `surface.dfy` (`Surface`): the API surface as data. A surface is a
  sequence of modules, a module a sequence of classes. A class has a module
  name, a class name and methods. A method has a name and the ordered
  `(key, type)` list of its `__annotations__`, so `self` is absent and
  `return` comes last. `ApiSites` enumerates every method with its owner
  name, in input order.
- `classifier.dfy` (`Classifier`): `additional_method_matches`
  (`CheckOverride`), the per-method classification (`ClassifyMethod`), and
  `generate_css_js_injections` over a surface and two tables (`Generate`).
  Warnings come back as `Diagnostic` values instead of being printed.
- `ordering.dfy` (`Ordering`): Python's order on `(str, int, str)` tuples and
  a sort. Any two sorted permutations of a list are equal, so the model's
  sort gives exactly what `list.sort()` gives.
- `render.dfy` (`Render`): `generate_expression`, `generate_xml`,
  `"\n".join`, and the document envelope. It also has decoders that read
  each format back.
- `pipeline.dfy` (`Pipeline`): `main` without its I/O (classify, sort,
  render) and the shipped tables.
- `scenarios.dfy` (`Scenarios`): worked examples of `main` on small
  surfaces.

Out-of-range override positions: the source reads
`[*fn_annotations.values()][pos]`, which raises `IndexError` and aborts the
whole run when `pos` is past the end of the list. The model does not add a
precondition against this. Instead it skips that one override and reports an
`IndexOutOfRange` diagnostic. `Classifier.OutOfRangeDiagnosticIffSourceRaises`
proves that such a diagnostic appears exactly when the source would have
raised. On every other input, the records are those of the source.

Consequences of the code as written:

- The naming scan emits one record for every matching position of a method.
  An annotation dictionary cannot repeat a key, so on a real method that is
  at most one position of each kind (`Classifier.ScanAtMostOnePerKind`).
- Override positions count annotations, not parameters. For
  `evaluate_expr(self, context: Any, expression: str)`, position 1 is
  `expression: str`. So the table `{"evaluate_expr": 1}` hits, with no
  warning, and the triple is listed twice
  (`Scenarios.OverrideCountsAnnotationsExample`).
- Records are never deduplicated, and identical triples are not flagged
  (`Scenarios.DuplicateTripleExample`, `Classifier.MethodRecordMultiplicity`,
  `Pipeline.RunMultiplicity`).
- The same triple can be in both lists. This needs an override:
  `drag_and_drop` with an `expression: str` second annotation is one such
  case (`Scenarios.CrossKindExample`, `Classifier.CrossKindOnlyViaOverride`).

## Model

| member | source | states |
|---|---|---|
| Surface.ClassSites | generate.py:48-49 | A class contributes one site per method, in the order given, each paired with the class's `module.Class` owner name. |
| Surface.ApiSitesMembership | generate.py:45-49 | The enumeration yields a site exactly when it is method `k` of class `j` of module `i`, paired with that class's `module.Class` name: nothing is invented or skipped. |
| Surface.ApiSitesAppend | generate.py:45 | Enumerating two surfaces in turn is enumerating their concatenation, so the sync and async modules are not special-cased. |
| Classifier.CheckOverride | generate.py:11-20 | A lookup misses exactly when the name is not in the table. It hits exactly when the listed position is inside the annotation list and has the expected type. It is refused exactly otherwise: out of range when the position is past the end, or a mismatch that reports the annotation found there. |
| Classifier.OverrideRecords | generate.py:51-54 | At most one override record, present exactly on a hit, at the table's position and with the site's name and owner. |
| Classifier.OverrideDiagnostics | generate.py:15-19 | Exactly one warning for a refused lookup and none otherwise, of the table's kind and naming the method and owner. It carries the table's position; a type mismatch also carries the annotation found there and the expected type, an out-of-range warning the annotation count. |
| Classifier.Scan | generate.py:56-60 | A scanned CSS record is at a `selector: str` position. A scanned JS record is at an `expression: str` position. Every such position below `n` is recorded, and positions increase along each list. |
| Classifier.ScanCounts | generate.py:56-60 | The scan emits exactly one record per matching position of each kind. |
| Classifier.ScanAtMostOnePerKind | generate.py:56-60 | On a method whose annotation keys are distinct, as in a real `__annotations__` dictionary, the scan records at most one CSS and at most one JS position. |
| Classifier.ScanDisjoint | generate.py:57-60 | Because of the `elif`, no scanned triple is in both the CSS and the JS list. |
| Classifier.ClassifyMethod | generate.py:51-60 | A method's CSS (JS) list holds exactly the triples justified by a hit of the CSS (JS) override or by a matching position. Every index is a valid annotation position. There is exactly one warning per refused table entry, of that table's kind: a CSS (JS) warning appears only when the CSS (JS) entry is refused, and always when it is. It names the method, the owner and the position its table lists. A type-mismatch warning names an annotation of the method whose type is not `str`, and gives `str` as the required type. An out-of-range warning names a position at or past the end of the annotation list. |
| Classifier.MethodRecordCounts | generate.py:51-60 | No deduplication: a method's record count is its override hits plus its matching positions. |
| Classifier.MethodRecordMultiplicity | generate.py:51-60 | A record occurs in a method's CSS (JS) list once for a hit of the override at its position plus once if its position is a `selector: str` (`expression: str`) annotation, and never for another method or owner. |
| Classifier.IncreasingCount | generate.py:56-60 | A record list with strictly increasing positions, as the scan produces, holds each record at most once. |
| Classifier.OverrideWarnings | generate.py:11-20 | A refused entry yields exactly one warning of its own kind and no record. A hit or absent entry yields no warning. |
| Classifier.ClassifySitesAppend | generate.py:45-60 | Classifying two site lists in turn concatenates their classifications. |
| Classifier.ClassifySitesCss | generate.py:49-58 | A record is in the CSS list of a site list exactly when some site justifies it. |
| Classifier.ClassifySitesJs | generate.py:49-60 | A record is in the JS list of a site list exactly when some site justifies it. |
| Classifier.ClassifySitesMultiplicity | generate.py:49-60 | Over a list of sites, a record occurs as often as the sum of its per-method reasons: nothing is merged across methods or classes. |
| Classifier.ClassifySitesDiagnostics | generate.py:49-54 | A warning is reported exactly when some site's own classification reports it. |
| Classifier.GenerateCssMembership | generate.py:45-62 | A CSS record is produced exactly when some method of some class of some module justifies it. |
| Classifier.GenerateJsMembership | generate.py:45-62 | A JS record is produced exactly when some method of some class of some module justifies it. |
| Classifier.RecordProvenance | generate.py:52-60 | Every record names a method of the surface. Its owner is that class's module name, `.`, and class name. Its index is a valid position in that method's annotation list. |
| Classifier.MethodOutOfRange | generate.py:13-15 | A method reports an out-of-range override exactly when one of its table positions is at or past the end of its annotation list. |
| Classifier.OutOfRangeDiagnosticIffSourceRaises | generate.py:13-15 | The model reports `IndexOutOfRange` exactly when the source would raise `IndexError` for some method of the surface. |
| Classifier.CrossKindOnlyViaOverride | generate.py:51-60 | A triple in both lists of one method needs an override hit at that position. |
| Ordering.RecordLeTotalOrder | generate.py:84-85 | Tuple comparison of `(method, index, owner)` is reflexive, antisymmetric, transitive and total. |
| Ordering.StrLeAntisym | generate.py:84-85 | Code-point string comparison is antisymmetric. |
| Ordering.StrLeTrans | generate.py:84-85 | Code-point string comparison is transitive. |
| Ordering.StrLeTotal | generate.py:84-85 | Any two strings are comparable. |
| Ordering.Insert | generate.py:84-85 | Inserting into a sorted list keeps it sorted and adds exactly that record. |
| Ordering.Sort | generate.py:84-85 | The sorted list is non-decreasing and a permutation of its input. |
| Ordering.SortedUnique | generate.py:84-85 | Two sorted permutations of the same records are equal, so any correct sort gives this output. |
| Ordering.SortIgnoresOrder | generate.py:84-85 | The sorted output depends only on the multiset of records. |
| Render.Decimal | generate.py:66 | The `{index}` field is a non-empty run of digits with no leading zero. |
| Render.DecimalRoundTrip | generate.py:66 | Reading the digits back gives the index. |
| Render.Expression | generate.py:65-66 | For names free of quotes and newlines the pattern holds no newline. |
| Render.ExpressionRoundTrip | generate.py:65-66 | For names free of quotes and newlines, reading the pattern back gives the method name, index and owner it was made from. |
| Render.Place | generate.py:65-70 | A place line for names free of quotes and newlines holds no newline, so it occupies exactly one line of the joined text. |
| Render.FieldsRoundTrip | generate.py:66 | For names free of quotes and newlines, the method name, index and owner can be read back from the filled-in argument list. |
| Render.PlaceRoundTrip | generate.py:65-70 | For names free of quotes and newlines, parsing a rendered place gives back its record. |
| Render.PlaceInjective | generate.py:65-70 | For names free of quotes and newlines, distinct records give distinct place lines. |
| Render.SplitJoinLines | generate.py:91 | For a non-empty list of lines that contain no newline (the places of records whose names contain no newline), splitting the joined text at newlines gives the lines back; the empty list, which joins to `""` and splits to `[""]`, is handled separately when a document is decoded. |
| Render.ParsePlacesRoundTrip | generate.py:91 | For names free of quotes and newlines, parsing each place line gives back the record list, in order. |
| Render.Document | generate.py:74-98 | A document starts with the header for its kind and ends with the footer. |
| Render.DocumentRoundTrip | generate.py:74-98 | For names free of quotes and newlines, decoding a document gives back exactly the records it was rendered from, in order, the empty list included. |
| Pipeline.Run | generate.py:83-98 | Each reported list is sorted and is a permutation of the classified list. The warnings are the classifier's. |
| Pipeline.RunDocumentsDecode | generate.py:83-98 | For a surface whose names are free of quotes and newlines, both written documents decode to the sorted lists they were rendered from. |
| Pipeline.CssDocumentContents | generate.py:83-92 | For a surface whose names are free of quotes and newlines, the CSS document decodes to a sorted list. A record is in it exactly when some method of the surface justifies it as CSS. |
| Pipeline.JsDocumentContents | generate.py:83-98 | For a surface whose names are free of quotes and newlines, the JS document decodes to a sorted list. A record is in it exactly when some method of the surface justifies it as JS. |
| Pipeline.RunMultiplicity | generate.py:83-85 | Each reported list holds a record exactly as often as the methods of the surface have reasons for it: sorting drops no duplicate. |
| Pipeline.ModuleOrderIrrelevant | generate.py:45 | Feeding the sync and async modules in either order gives the same two documents. |
| Pipeline.ShippedRecords | generate.py:32-36 | With the shipped tables, every JS record is at an `expression: str` annotation. Every CSS record is at a `selector: str` annotation or is `drag_and_drop`'s override at position 1. |
| Pipeline.ShippedDiagnostics | generate.py:32-36 | With the shipped tables, the only possible warnings are CSS warnings about `drag_and_drop`. |
| Classifier.GenerateAppend | generate.py:45-60 | Classifying two surfaces in turn concatenates their classifications. |
| Scenarios.FillExample | generate.py:56-60 | `fill(selector: str, value: str) -> None` gives one CSS record at position 0, no JS record and no warning. |
| Scenarios.OverrideCountsAnnotationsExample | generate.py:51-60 | With `{"evaluate_expr": 1}`, `evaluate_expr(self, context: Any, expression: str)` is listed twice as JS at position 1, with no warning. |
| Scenarios.OverrideMismatchExample | generate.py:11-20 | An override position holding `context: Any` gives one type-mismatch warning and no override record. The naming rule still records `expression` at position 0. |
| Scenarios.SyncAsyncExample | generate.py:45-60 | `click(selector: str)` on `sync.Locator` and on `async.Locator` gives two records, both kept, ordered by owner. |
| Scenarios.DuplicateTripleExample | generate.py:53-58 | When `drag_and_drop`'s second annotation is `selector: str`, the override and the naming rule both fire, and the triple is listed twice. |
| Scenarios.CrossKindExample | generate.py:53-60 | When `drag_and_drop`'s second annotation is `expression: str`, the same triple is in both documents. |

## Left out

- Live reflection (`a.__dict__`, `isinstance(cls, type)`,
  `inspect.getmembers`, `fn.__annotations__`) is left out. The surface is
  explicit input data and is taken in the order given; `getmembers`'
  alphabetical order is not modelled.
- The Playwright imports and the version string in the file names are left
  out. They are foreign library data.
- `print` and `Path.write_text` are left out because they are I/O. Warnings
  are returned as `Diagnostic` values. The summary line's two counts are the
  lengths of `Run`'s lists.
- The exact whitespace of the XML template is not modelled. `Header` and
  `Footer` are a fixed concatenation around the joined places, close to the
  template but not byte-identical.
- Python type equality is abstracted to the datatype's equality: `Str` is
  the built-in `str`, and every other annotation is an opaque name.
  Annotations written as strings (postponed evaluation) are not modelled.
- Override tables map names to natural numbers. Python's negative positions,
  which count from the end of the list, are not modelled.
- Classifier.CheckOverride: an out-of-range position does not abort the run
  as `IndexError` does. It becomes an `IndexOutOfRange` diagnostic, and
  `OutOfRangeDiagnosticIffSourceRaises` states exactly when that happens.
- Render.FieldsRoundTrip: holds only for method and owner names free of
  `"` and newlines, because the source does not escape such names.
- Render.ExpressionRoundTrip: holds only for names free of `"` and
  newlines, for the same reason.
- Render.PlaceRoundTrip: holds only for names free of `"` and newlines,
  for the same reason.
- Render.PlaceInjective: holds only for names free of `"` and newlines;
  with a quote in a name, two records can render to the same place.
- Render.ParsePlacesRoundTrip: holds only for names free of `"` and
  newlines, for the same reason.
- Render.DocumentRoundTrip: holds only for names free of `"` and newlines,
  for the same reason.
- Pipeline.RunDocumentsDecode: requires a surface whose method, module and
  class names are free of `"` and newlines, for the same reason.
- Pipeline.CssDocumentContents: the decoding part requires such a surface,
  for the same reason.
- Pipeline.JsDocumentContents: the decoding part requires such a surface,
  for the same reason.
