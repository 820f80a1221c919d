/**
  Worked examples of `main` on small surfaces: a selector and an expression
  found by the naming convention, the script override counting every
  annotation, a refused override, the sync and async copies of one method,
  and a method listed twice or in both lists.
 */
module Scenarios {
  import opened Surface
  import opened Classifier
  import opened Ordering
  import opened Render
  import opened Pipeline

  /** A surface of one class with one method is classified as that method. */
  lemma GenerateOneMethod(cfg: Config, c: Class)
    requires |c.methods| == 1
    ensures Generate(cfg, [[c]]) == ClassifyMethod(cfg, Site(Owner(c), c.methods[0]))
  {
    var sites := [Site(Owner(c), c.methods[0])];
    assert ApiSites([[c]]) == sites by {
      assert ModuleSites([c]) == ClassSites(c) + ModuleSites([]);
      assert ApiSites([[c]]) == ModuleSites([c]) + ApiSites([]);
    }
    var r := ClassifyMethod(cfg, sites[0]);
    assert sites[1..] == [];
    assert ClassifySites(cfg, sites) == Concat(r, ClassifySites(cfg, []));
    assert r.css + [] == r.css && r.js + [] == r.js && r.diagnostics + [] == r.diagnostics;
  }

  /** The classification of one method, spelled out step by step. */
  lemma ClassifyMethodParts(cfg: Config, s: Site)
    ensures ClassifyMethod(cfg, s) == Classified(
      OverrideRecords(CheckOverride(cfg.cssOverrides, s.fn, SelectorArgType), s) + Scan(s, |s.fn.annotations|).css,
      OverrideRecords(CheckOverride(cfg.jsOverrides, s.fn, ExpressionArgType), s) + Scan(s, |s.fn.annotations|).js,
      OverrideDiagnostics(Js, CheckOverride(cfg.jsOverrides, s.fn, ExpressionArgType), ExpressionArgType, s)
        + OverrideDiagnostics(Css, CheckOverride(cfg.cssOverrides, s.fn, SelectorArgType), SelectorArgType, s))
  {
  }

  /** Sorting a record listed twice keeps both copies. */
  lemma SortTwice(x: Record)
    ensures Sort([x, x]) == [x, x]
  {
    RecordLeTotalOrder(x, x, x);
    assert [x, x][1..] == [x];
    assert Sort([x]) == [x];
  }

  /** `fill(selector: str, value: str) -> None`. */
  function FillMethod(): Method
  {
    Method("fill", [Annotation("selector", Str), Annotation("value", Str), Annotation("return", Other("None"))])
  }

  lemma FillScan(s: Site)
    requires s.fn == FillMethod()
    ensures Scan(s, |s.fn.annotations|) == Found([Record("fill", 0, s.owner)], [])
  {
    var a := s.fn.annotations;
    assert IsSelectorArg(a[0]);
    assert !IsSelectorArg(a[1]) && !IsExpressionArg(a[1]);
    assert !IsSelectorArg(a[2]) && !IsExpressionArg(a[2]);
    assert Scan(s, 1) == Found([Record("fill", 0, s.owner)], []);
    assert Scan(s, 2) == Scan(s, 1);
  }

  lemma FillFound(s: Site)
    requires s.fn == FillMethod()
    ensures ClassifyMethod(ShippedConfig, s) == Classified([Record("fill", 0, s.owner)], [], [])
  {
    ClassifyMethodParts(ShippedConfig, s);
    FillScan(s);
    assert CheckOverride(ShippedConfig.jsOverrides, s.fn, ExpressionArgType) == NotListed;
    assert CheckOverride(ShippedConfig.cssOverrides, s.fn, SelectorArgType) == NotListed;
    assert OverrideRecords(NotListed, s) == [];
  }

  /** `fill` yields one CSS record at position 0 and nothing for `value`. */
  lemma FillExample(c: Class)
    requires c.methods == [FillMethod()]
    ensures Run(ShippedConfig, [[c]]).css == [Record("fill", 0, Owner(c))]
    ensures Run(ShippedConfig, [[c]]).js == []
    ensures Run(ShippedConfig, [[c]]).diagnostics == []
  {
    GenerateOneMethod(ShippedConfig, c);
    FillFound(Site(Owner(c), c.methods[0]));
    RunLists(ShippedConfig, [[c]]);
    assert Sort([Record("fill", 0, Owner(c))]) == [Record("fill", 0, Owner(c))];
  }

  /** The script override table `{"evaluate_expr": 1}`. */
  const EvaluateConfig: Config := Config(map["evaluate_expr" := 1], map[])

  /** `evaluate_expr(self, context: Any, expression: str)`. */
  function EvaluateMethod(): Method
  {
    Method("evaluate_expr", [Annotation("context", Other("Any")), Annotation("expression", Str)])
  }

  lemma EvaluateScan(s: Site)
    requires s.fn == EvaluateMethod()
    ensures Scan(s, |s.fn.annotations|) == Found([], [Record("evaluate_expr", 1, s.owner)])
  {
    var a := s.fn.annotations;
    assert !IsSelectorArg(a[0]) && !IsExpressionArg(a[0]);
    assert !IsSelectorArg(a[1]) && IsExpressionArg(a[1]);
    assert Scan(s, 1) == Found([], []);
  }

  lemma EvaluateFound(s: Site)
    requires s.fn == EvaluateMethod()
    ensures
      var x := Record("evaluate_expr", 1, s.owner);
      ClassifyMethod(EvaluateConfig, s) == Classified([], [x, x], [])
  {
    ClassifyMethodParts(EvaluateConfig, s);
    EvaluateScan(s);
    assert CheckOverride(EvaluateConfig.jsOverrides, s.fn, ExpressionArgType) == Hit(1);
    assert CheckOverride(EvaluateConfig.cssOverrides, s.fn, SelectorArgType) == NotListed;
    assert OverrideRecords(Hit(1), s) == [Record("evaluate_expr", 1, s.owner)];
    assert OverrideRecords(NotListed, s) == [];
  }

  /** Positions count annotations, not parameters: `self` has none, so
      position 1 of `evaluate_expr` is `expression: str`.  The override hits,
      the naming rule hits the same position, and the triple is listed twice
      with no warning. */
  lemma OverrideCountsAnnotationsExample(c: Class)
    requires c.methods == [EvaluateMethod()]
    ensures Run(EvaluateConfig, [[c]]).js == [Record("evaluate_expr", 1, Owner(c)), Record("evaluate_expr", 1, Owner(c))]
    ensures Run(EvaluateConfig, [[c]]).css == []
    ensures Run(EvaluateConfig, [[c]]).diagnostics == []
  {
    GenerateOneMethod(EvaluateConfig, c);
    EvaluateFound(Site(Owner(c), c.methods[0]));
    RunLists(EvaluateConfig, [[c]]);
    SortTwice(Record("evaluate_expr", 1, Owner(c)));
  }

  /** `evaluate_expr(self, expression: str, context: Any)`. */
  function MismatchMethod(): Method
  {
    Method("evaluate_expr", [Annotation("expression", Str), Annotation("context", Other("Any"))])
  }

  lemma MismatchScan(s: Site)
    requires s.fn == MismatchMethod()
    ensures Scan(s, |s.fn.annotations|) == Found([], [Record("evaluate_expr", 0, s.owner)])
  {
    var a := s.fn.annotations;
    assert !IsSelectorArg(a[0]) && IsExpressionArg(a[0]);
    assert !IsSelectorArg(a[1]) && !IsExpressionArg(a[1]);
    assert Scan(s, 1) == Found([], [Record("evaluate_expr", 0, s.owner)]);
  }

  lemma MismatchFound(s: Site)
    requires s.fn == MismatchMethod()
    ensures ClassifyMethod(EvaluateConfig, s) == Classified(
      [], [Record("evaluate_expr", 0, s.owner)],
      [TypeMismatch(Js, "evaluate_expr", s.owner, 1, Annotation("context", Other("Any")), Str)])
  {
    ClassifyMethodParts(EvaluateConfig, s);
    MismatchScan(s);
    var o := Mismatch(1, Annotation("context", Other("Any")));
    assert CheckOverride(EvaluateConfig.jsOverrides, s.fn, ExpressionArgType) == o;
    assert CheckOverride(EvaluateConfig.cssOverrides, s.fn, SelectorArgType) == NotListed;
    assert OverrideRecords(o, s) == [] && OverrideRecords(NotListed, s) == [];
  }

  /** An override whose position holds a non-text annotation yields one
      warning and no override record, while the naming rule still applies to
      the method's other annotations. */
  lemma OverrideMismatchExample(c: Class)
    requires c.methods == [MismatchMethod()]
    ensures Run(EvaluateConfig, [[c]]).js == [Record("evaluate_expr", 0, Owner(c))]
    ensures Run(EvaluateConfig, [[c]]).css == []
    ensures Run(EvaluateConfig, [[c]]).diagnostics ==
      [TypeMismatch(Js, "evaluate_expr", Owner(c), 1, Annotation("context", Other("Any")), Str)]
  {
    GenerateOneMethod(EvaluateConfig, c);
    MismatchFound(Site(Owner(c), c.methods[0]));
    RunLists(EvaluateConfig, [[c]]);
    assert Sort([Record("evaluate_expr", 0, Owner(c))]) == [Record("evaluate_expr", 0, Owner(c))];
  }

  /** `click(selector: str)`, as on `Locator`. */
  function ClickMethod(): Method
  {
    Method("click", [Annotation("selector", Str)])
  }

  /** Any class whose only method is `click(selector: str)` yields one CSS
      record for it, whatever the class is called. */
  lemma ClickFound(c: Class)
    requires c.methods == [ClickMethod()]
    ensures Generate(ShippedConfig, [[c]]).css == [Record("click", 0, Owner(c))]
  {
    var s := Site(Owner(c), c.methods[0]);
    GenerateOneMethod(ShippedConfig, c);
    ClassifyMethodParts(ShippedConfig, s);
    assert CheckOverride(ShippedConfig.cssOverrides, s.fn, SelectorArgType) == NotListed;
    assert Scan(s, 1) == Found([Record("click", 0, Owner(c))], []);
  }

  /** Two modules holding one `click(selector: str)` class each give one
      record per module, in module order. */
  lemma SyncAsyncFound(cs: Class, ca: Class)
    requires cs.methods == [ClickMethod()]
    requires ca.methods == [ClickMethod()]
    ensures Generate(ShippedConfig, [[cs], [ca]]).css == [Record("click", 0, Owner(cs)), Record("click", 0, Owner(ca))]
  {
    ClickFound(cs);
    ClickFound(ca);
    GenerateAppend(ShippedConfig, [[cs]], [[ca]]);
    assert [[cs]] + [[ca]] == [[cs], [ca]];
  }

  /** Two records the order puts the other way round are swapped by the sort. */
  lemma SortSwapsPair(x: Record, y: Record)
    requires RecordLe(y, x) && !RecordLe(x, y)
    ensures Sort([x, y]) == [y, x]
  {
    assert [x, y][1..] == [y];
    assert Sort([y]) == [y];
    assert Insert(x, [y]) == [y] + Insert(x, []);
  }

  /** The asynchronous owner sorts before the synchronous one. */
  lemma SortSyncAsync(xs: Record, xa: Record)
    requires xs == Record("click", 0, "sync.Locator") && xa == Record("click", 0, "async.Locator")
    ensures Sort([xs, xa]) == [xa, xs]
  {
    assert xs.owner[0] == 's' && xa.owner[0] == 'a';
    assert StrLe(xa.owner, xs.owner) && !StrLe(xs.owner, xa.owner);
    SortSwapsPair(xs, xa);
  }

  /** The synchronous and asynchronous `Locator.click` give two records, both
      kept, next to each other and ordered by owner. */
  lemma SyncAsyncExample(cs: Class, ca: Class)
    requires cs.methods == [ClickMethod()] && Owner(cs) == "sync.Locator"
    requires ca.methods == [ClickMethod()] && Owner(ca) == "async.Locator"
    ensures Run(ShippedConfig, [[cs], [ca]]).css == [Record("click", 0, "async.Locator"), Record("click", 0, "sync.Locator")]
  {
    SyncAsyncFound(cs, ca);
    RunLists(ShippedConfig, [[cs], [ca]]);
    SortSyncAsync(Record("click", 0, "sync.Locator"), Record("click", 0, "async.Locator"));
  }

  /** `drag_and_drop(source: str, <key>: str)`. */
  function DragMethod(key: string): Method
  {
    Method("drag_and_drop", [Annotation("source", Str), Annotation(key, Str)])
  }

  lemma DragSelectorFound(s: Site)
    requires s.fn == DragMethod("selector")
    ensures
      var x := Record("drag_and_drop", 1, s.owner);
      ClassifyMethod(ShippedConfig, s) == Classified([x, x], [], [])
  {
    var x := Record("drag_and_drop", 1, s.owner);
    var a := s.fn.annotations;
    assert !IsSelectorArg(a[0]) && !IsExpressionArg(a[0]);
    assert IsSelectorArg(a[1]);
    assert Scan(s, 1) == Found([], []);
    assert Scan(s, 2) == Found([x], []);
    ClassifyMethodParts(ShippedConfig, s);
    assert CheckOverride(ShippedConfig.jsOverrides, s.fn, ExpressionArgType) == NotListed;
    assert CheckOverride(ShippedConfig.cssOverrides, s.fn, SelectorArgType) == Hit(1);
    assert OverrideRecords(Hit(1), s) == [x];
    assert OverrideRecords(NotListed, s) == [];
  }

  lemma DragExpressionFound(s: Site)
    requires s.fn == DragMethod("expression")
    ensures
      var x := Record("drag_and_drop", 1, s.owner);
      ClassifyMethod(ShippedConfig, s) == Classified([x], [x], [])
  {
    var x := Record("drag_and_drop", 1, s.owner);
    var a := s.fn.annotations;
    assert !IsSelectorArg(a[0]) && !IsExpressionArg(a[0]);
    assert !IsSelectorArg(a[1]) && IsExpressionArg(a[1]);
    assert Scan(s, 1) == Found([], []);
    assert Scan(s, 2) == Found([], [x]);
    ClassifyMethodParts(ShippedConfig, s);
    assert CheckOverride(ShippedConfig.jsOverrides, s.fn, ExpressionArgType) == NotListed;
    assert CheckOverride(ShippedConfig.cssOverrides, s.fn, SelectorArgType) == Hit(1);
    assert OverrideRecords(Hit(1), s) == [x];
    assert OverrideRecords(NotListed, s) == [];
  }

  /** No deduplication: when `drag_and_drop`'s second annotation is itself
      `selector: str`, the shipped override and the naming rule both fire and
      the same triple is listed twice. */
  lemma DuplicateTripleExample(c: Class)
    requires c.methods == [DragMethod("selector")]
    ensures Run(ShippedConfig, [[c]]).css == [Record("drag_and_drop", 1, Owner(c)), Record("drag_and_drop", 1, Owner(c))]
  {
    GenerateOneMethod(ShippedConfig, c);
    DragSelectorFound(Site(Owner(c), c.methods[0]));
    RunLists(ShippedConfig, [[c]]);
    SortTwice(Record("drag_and_drop", 1, Owner(c)));
  }

  /** One triple can be in both documents: the shipped selector override for
      `drag_and_drop` and the naming rule for an `expression: str` at the
      same position. */
  lemma CrossKindExample(c: Class)
    requires c.methods == [DragMethod("expression")]
    ensures Run(ShippedConfig, [[c]]).css == [Record("drag_and_drop", 1, Owner(c))]
    ensures Run(ShippedConfig, [[c]]).js == [Record("drag_and_drop", 1, Owner(c))]
  {
    var x := Record("drag_and_drop", 1, Owner(c));
    GenerateOneMethod(ShippedConfig, c);
    DragExpressionFound(Site(Owner(c), c.methods[0]));
    RunLists(ShippedConfig, [[c]]);
    assert Sort([x]) == [x];
  }
}
