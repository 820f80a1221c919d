/**
  The injection classifier of `generate_css_js_injections`.

  For every enumerated method it runs, in this order, the script override
  check, the selector override check, and a scan over every annotation
  position that applies the naming convention: a `selector: str` annotation
  is a CSS injection point, otherwise an `expression: str` annotation is a
  JavaScript one.  Records are appended and never merged.

  The source reads an override position with `[*annotations.values()][pos]`
  and raises `IndexError` when the position is past the end, which aborts
  the whole run.  This model instead skips that one override and reports an
  `IndexOutOfRange` diagnostic; `OutOfRangeDiagnosticIffSourceRaises` says
  that such a diagnostic appears exactly when the source would have raised.
 */
module Classifier {
  import opened Surface

  /** The argument name Playwright uses for every CSS selector argument. */
  const SelectorArgName: string := "selector"
  const SelectorArgType: AnnotationType := Str

  /** The argument name Playwright uses for every JavaScript expression argument. */
  const ExpressionArgName: string := "expression"
  const ExpressionArgType: AnnotationType := Str

  /** One injection point: (method name, annotation position, owner name). */
  datatype Record = Record(methodName: string, index: nat, owner: string)

  datatype Kind = Css | Js

  /** What the source prints as a warning, kept as data. */
  datatype Diagnostic =
    | TypeMismatch(kind: Kind, methodName: string, owner: string, index: nat, found: Annotation, expected: AnnotationType)
    | IndexOutOfRange(kind: Kind, methodName: string, owner: string, index: nat, arity: nat)

  /** Method name to the annotation position it is known to inject into. */
  type OverrideTable = map<string, nat>

  datatype Config = Config(jsOverrides: OverrideTable, cssOverrides: OverrideTable)

  /** The two record lists and the warnings of a classification. */
  datatype Classified = Classified(css: seq<Record>, js: seq<Record>, diagnostics: seq<Diagnostic>)

  function Concat(a: Classified, b: Classified): Classified
  {
    Classified(a.css + b.css, a.js + b.js, a.diagnostics + b.diagnostics)
  }

  predicate IsSelectorArg(a: Annotation)
  {
    a.key == SelectorArgName && a.typ == SelectorArgType
  }

  predicate IsExpressionArg(a: Annotation)
  {
    a.key == ExpressionArgName && a.typ == ExpressionArgType
  }

  // ---------------------------------------------------------------------
  // Override tables (additional_method_matches)
  // ---------------------------------------------------------------------

  /** The result of looking a method up in one override table. */
  datatype OverrideOutcome =
    | NotListed
    | Hit(index: nat)
    | Mismatch(index: nat, found: Annotation)
    | OutOfRange(index: nat)

  /** `table` lists `m` at position `i`, and the annotation there has the
      `expected` type: the override emits a record at `i`. */
  predicate OverrideApplies(table: OverrideTable, m: Method, expected: AnnotationType, i: nat)
  {
    && m.name in table
    && table[m.name] == i
    && i < |m.annotations|
    && m.annotations[i].typ == expected
  }

  /** `table` lists `m`, but not at an annotation of the `expected` type:
      the override is refused with a warning. */
  predicate OverrideRefused(table: OverrideTable, m: Method, expected: AnnotationType)
  {
    m.name in table && !OverrideApplies(table, m, expected, table[m.name])
  }

  function CheckOverride(table: OverrideTable, m: Method, expected: AnnotationType): (r: OverrideOutcome)
    ensures r.NotListed? <==> m.name !in table
    ensures r.Hit? <==> m.name in table && OverrideApplies(table, m, expected, table[m.name])
    ensures r.Mismatch? || r.OutOfRange? <==> OverrideRefused(table, m, expected)
    ensures r.OutOfRange? <==> m.name in table && |m.annotations| <= table[m.name]
    ensures !r.NotListed? ==> r.index == table[m.name]
    ensures r.Mismatch? ==> r.index < |m.annotations| && r.found == m.annotations[r.index] && r.found.typ != expected
  {
    if m.name !in table then NotListed
    else
      var pos := table[m.name];
      if pos >= |m.annotations| then OutOfRange(pos)
      else if m.annotations[pos].typ == expected then Hit(pos)
      else Mismatch(pos, m.annotations[pos])
  }

  function OverrideRecords(o: OverrideOutcome, s: Site): (r: seq<Record>)
    ensures |r| <= 1
    ensures forall x :: x in r <==> o.Hit? && x == Record(s.fn.name, o.index, s.owner)
  {
    if o.Hit? then [Record(s.fn.name, o.index, s.owner)] else []
  }

  function OverrideDiagnostics(kind: Kind, o: OverrideOutcome, expected: AnnotationType, s: Site): (r: seq<Diagnostic>)
    ensures |r| == if o.Mismatch? || o.OutOfRange? then 1 else 0
    ensures forall d :: d in r ==> d.kind == kind && d.methodName == s.fn.name && d.owner == s.owner
    ensures forall d :: d in r ==>
      && (o.Mismatch? || o.OutOfRange?)
      && d.index == o.index
      && (d.TypeMismatch? <==> o.Mismatch?)
      && (d.TypeMismatch? ==> d.found == o.found && d.expected == expected)
      && (d.IndexOutOfRange? ==> d.arity == |s.fn.annotations|)
  {
    match o
    case Mismatch(i, found) => [TypeMismatch(kind, s.fn.name, s.owner, i, found, expected)]
    case OutOfRange(i) => [IndexOutOfRange(kind, s.fn.name, s.owner, i, |s.fn.annotations|)]
    case _ => []
  }

  // ---------------------------------------------------------------------
  // Naming-convention scan
  // ---------------------------------------------------------------------

  /** The CSS and JavaScript records of the naming scan over one method. */
  datatype Found = Found(css: seq<Record>, js: seq<Record>)

  /** The scan over the first `n` annotation positions of `s.fn`, in order. */
  function Scan(s: Site, n: nat): (r: Found)
    requires n <= |s.fn.annotations|
    ensures forall x :: x in r.css <==>
      x.methodName == s.fn.name && x.owner == s.owner && x.index < n && IsSelectorArg(s.fn.annotations[x.index])
    ensures forall x :: x in r.js <==>
      x.methodName == s.fn.name && x.owner == s.owner && x.index < n && IsExpressionArg(s.fn.annotations[x.index])
    ensures forall i, j :: 0 <= i < j < |r.css| ==> r.css[i].index < r.css[j].index
    ensures forall i, j :: 0 <= i < j < |r.js| ==> r.js[i].index < r.js[j].index
    decreases n
  {
    if n == 0 then Found([], [])
    else
      var prev := Scan(s, n - 1);
      var a := s.fn.annotations[n - 1];
      var here := Record(s.fn.name, n - 1, s.owner);
      if IsSelectorArg(a) then Found(prev.css + [here], prev.js)
      else if IsExpressionArg(a) then Found(prev.css, prev.js + [here])
      else prev
  }

  /** The positions of `m` the naming convention marks as CSS. */
  function SelectorPositions(m: Method, n: nat): set<nat>
    requires n <= |m.annotations|
  {
    set p: nat | p < n && IsSelectorArg(m.annotations[p])
  }

  /** The positions of `m` the naming convention marks as JavaScript. */
  function ExpressionPositions(m: Method, n: nat): set<nat>
    requires n <= |m.annotations|
  {
    set p: nat | p < n && IsExpressionArg(m.annotations[p])
  }

  /** Extending the prefix by one position adds that position to the
      selector positions exactly when it is a selector. */
  lemma SelectorPositionsStep(m: Method, n: nat)
    requires 0 < n <= |m.annotations|
    ensures SelectorPositions(m, n) ==
      SelectorPositions(m, n - 1) + (if IsSelectorArg(m.annotations[n - 1]) then {n - 1} else {})
    ensures n - 1 !in SelectorPositions(m, n - 1)
  {
  }

  /** The script counterpart of `SelectorPositionsStep`. */
  lemma ExpressionPositionsStep(m: Method, n: nat)
    requires 0 < n <= |m.annotations|
    ensures ExpressionPositions(m, n) ==
      ExpressionPositions(m, n - 1) + (if IsExpressionArg(m.annotations[n - 1]) then {n - 1} else {})
    ensures n - 1 !in ExpressionPositions(m, n - 1)
  {
  }

  /** The scan emits one record per matching position, no more and no fewer. */
  lemma {:induction false} ScanCounts(s: Site, n: nat)
    requires n <= |s.fn.annotations|
    ensures |Scan(s, n).css| == |SelectorPositions(s.fn, n)|
    ensures |Scan(s, n).js| == |ExpressionPositions(s.fn, n)|
  {
    if n != 0 {
      ScanCounts(s, n - 1);
      SelectorPositionsStep(s.fn, n);
      ExpressionPositionsStep(s.fn, n);
    }
  }

  /** On a method whose keys are distinct, as in a real annotation
      dictionary, the scan finds at most one point of each kind. */
  lemma ScanAtMostOnePerKind(s: Site)
    requires DistinctKeys(s.fn)
    ensures |Scan(s, |s.fn.annotations|).css| <= 1
    ensures |Scan(s, |s.fn.annotations|).js| <= 1
  {
    var n := |s.fn.annotations|;
    ScanCounts(s, n);
    AtMostOne(SelectorPositions(s.fn, n));
    AtMostOne(ExpressionPositions(s.fn, n));
  }

  /** A set of positions that all coincide has at most one element. */
  lemma AtMostOne(ps: set<nat>)
    requires forall p, q :: p in ps && q in ps ==> p == q
    ensures |ps| <= 1
  {
    if ps != {} {
      var p :| p in ps;
      assert ps == {p};
    }
  }

  /** The `elif` in the scan, together with the distinct reserved names,
      keeps one position from being both a CSS and a JavaScript point. */
  lemma ScanDisjoint(s: Site, x: Record)
    ensures !(x in Scan(s, |s.fn.annotations|).css && x in Scan(s, |s.fn.annotations|).js)
  {
  }

  // ---------------------------------------------------------------------
  // One method
  // ---------------------------------------------------------------------

  /** A record in the CSS list for site `s`: the selector override, or the
      naming convention at that position. */
  predicate CssJustified(cfg: Config, s: Site, x: Record)
  {
    && x.methodName == s.fn.name
    && x.owner == s.owner
    && (|| OverrideApplies(cfg.cssOverrides, s.fn, SelectorArgType, x.index)
        || (x.index < |s.fn.annotations| && IsSelectorArg(s.fn.annotations[x.index])))
  }

  /** A record in the JavaScript list for site `s`. */
  predicate JsJustified(cfg: Config, s: Site, x: Record)
  {
    && x.methodName == s.fn.name
    && x.owner == s.owner
    && (|| OverrideApplies(cfg.jsOverrides, s.fn, ExpressionArgType, x.index)
        || (x.index < |s.fn.annotations| && IsExpressionArg(s.fn.annotations[x.index])))
  }

  /** The body of the per-method loop: script override, selector override,
      then the naming scan. */
  function ClassifyMethod(cfg: Config, s: Site): (r: Classified)
    ensures forall x :: x in r.css <==> CssJustified(cfg, s, x)
    ensures forall x :: x in r.js <==> JsJustified(cfg, s, x)
    ensures forall x :: x in r.css + r.js ==> x.index < |s.fn.annotations|
    ensures |r.diagnostics| ==
      (if OverrideRefused(cfg.jsOverrides, s.fn, ExpressionArgType) then 1 else 0) +
      (if OverrideRefused(cfg.cssOverrides, s.fn, SelectorArgType) then 1 else 0)
    ensures forall d :: d in r.diagnostics ==> d.methodName == s.fn.name && d.owner == s.owner
    ensures forall d :: d in r.diagnostics && d.kind == Css ==>
      s.fn.name in cfg.cssOverrides && d.index == cfg.cssOverrides[s.fn.name]
    ensures forall d :: d in r.diagnostics && d.kind == Js ==>
      s.fn.name in cfg.jsOverrides && d.index == cfg.jsOverrides[s.fn.name]
    ensures forall d :: d in r.diagnostics && d.TypeMismatch? ==>
      d.index < |s.fn.annotations| && d.found == s.fn.annotations[d.index] && d.found.typ != d.expected
    ensures forall d :: d in r.diagnostics && d.IndexOutOfRange? ==>
      |s.fn.annotations| <= d.index && d.arity == |s.fn.annotations|
    ensures forall d :: d in r.diagnostics ==>
      && (d.kind == Css ==> OverrideRefused(cfg.cssOverrides, s.fn, SelectorArgType))
      && (d.kind == Js ==> OverrideRefused(cfg.jsOverrides, s.fn, ExpressionArgType))
      && (d.TypeMismatch? ==> d.expected == (if d.kind == Css then SelectorArgType else ExpressionArgType))
    ensures OverrideRefused(cfg.cssOverrides, s.fn, SelectorArgType) ==>
      exists d :: d in r.diagnostics && d.kind == Css
    ensures OverrideRefused(cfg.jsOverrides, s.fn, ExpressionArgType) ==>
      exists d :: d in r.diagnostics && d.kind == Js
  {
    var jsCheck := CheckOverride(cfg.jsOverrides, s.fn, ExpressionArgType);
    var cssCheck := CheckOverride(cfg.cssOverrides, s.fn, SelectorArgType);
    var scan := Scan(s, |s.fn.annotations|);
    Classified(
      OverrideRecords(cssCheck, s) + scan.css,
      OverrideRecords(jsCheck, s) + scan.js,
      OverrideDiagnostics(Js, jsCheck, ExpressionArgType, s) + OverrideDiagnostics(Css, cssCheck, SelectorArgType, s))
  }

  /** Nothing is deduplicated: a method gets one record per override hit plus
      one per matching position, even when both name the same position. */
  lemma MethodRecordCounts(cfg: Config, s: Site)
    ensures |ClassifyMethod(cfg, s).css| ==
      (if s.fn.name in cfg.cssOverrides && OverrideApplies(cfg.cssOverrides, s.fn, SelectorArgType, cfg.cssOverrides[s.fn.name]) then 1 else 0)
      + |SelectorPositions(s.fn, |s.fn.annotations|)|
    ensures |ClassifyMethod(cfg, s).js| ==
      (if s.fn.name in cfg.jsOverrides && OverrideApplies(cfg.jsOverrides, s.fn, ExpressionArgType, cfg.jsOverrides[s.fn.name]) then 1 else 0)
      + |ExpressionPositions(s.fn, |s.fn.annotations|)|
  {
    ScanCounts(s, |s.fn.annotations|);
  }

  /** A record list whose positions strictly increase holds each record at
      most once. */
  lemma {:induction false} IncreasingCount(r: seq<Record>, x: Record)
    requires forall i, j :: 0 <= i < j < |r| ==> r[i].index < r[j].index
    ensures multiset(r)[x] == if x in r then 1 else 0
  {
    if |r| != 0 {
      IncreasingCount(r[1..], x);
      assert r == [r[0]] + r[1..];
      if x == r[0] {
        assert forall k :: 0 <= k < |r[1..]| ==> r[1..][k].index > x.index;
      }
    }
  }

  /** How many reasons site `s` has to list `x` as CSS: the selector
      override, and the naming convention at that position. */
  function CssReasons(cfg: Config, s: Site, x: Record): nat
  {
    if x.methodName == s.fn.name && x.owner == s.owner then
      (if OverrideApplies(cfg.cssOverrides, s.fn, SelectorArgType, x.index) then 1 else 0)
      + (if x.index < |s.fn.annotations| && IsSelectorArg(s.fn.annotations[x.index]) then 1 else 0)
    else 0
  }

  /** How many reasons site `s` has to list `x` as JavaScript. */
  function JsReasons(cfg: Config, s: Site, x: Record): nat
  {
    if x.methodName == s.fn.name && x.owner == s.owner then
      (if OverrideApplies(cfg.jsOverrides, s.fn, ExpressionArgType, x.index) then 1 else 0)
      + (if x.index < |s.fn.annotations| && IsExpressionArg(s.fn.annotations[x.index]) then 1 else 0)
    else 0
  }

  /** A method lists a record once per reason: once for the override and
      once more for the naming convention, so a position both name appears
      twice. */
  lemma MethodRecordMultiplicity(cfg: Config, s: Site, x: Record)
    ensures multiset(ClassifyMethod(cfg, s).css)[x] == CssReasons(cfg, s, x)
    ensures multiset(ClassifyMethod(cfg, s).js)[x] == JsReasons(cfg, s, x)
  {
    var jsCheck := CheckOverride(cfg.jsOverrides, s.fn, ExpressionArgType);
    var cssCheck := CheckOverride(cfg.cssOverrides, s.fn, SelectorArgType);
    var scan := Scan(s, |s.fn.annotations|);
    IncreasingCount(OverrideRecords(cssCheck, s), x);
    IncreasingCount(OverrideRecords(jsCheck, s), x);
    IncreasingCount(scan.css, x);
    IncreasingCount(scan.js, x);
  }

  /** The number of diagnostics of one kind. */
  function CountKind(ds: seq<Diagnostic>, k: Kind): (n: nat)
    ensures n <= |ds|
    ensures n == 0 <==> forall d :: d in ds ==> d.kind != k
  {
    if |ds| == 0 then 0
    else (if ds[0].kind == k then 1 else 0) + CountKind(ds[1..], k)
  }

  lemma {:induction false} CountKindAppend(a: seq<Diagnostic>, b: seq<Diagnostic>, k: Kind)
    ensures CountKind(a + b, k) == CountKind(a, k) + CountKind(b, k)
  {
    if |a| == 0 {
      assert a + b == b;
    } else {
      assert (a + b)[0] == a[0];
      assert (a + b)[1..] == a[1..] + b;
      CountKindAppend(a[1..], b, k);
      assert CountKind(a + b, k) == (if a[0].kind == k then 1 else 0) + CountKind(a[1..] + b, k);
    }
  }

  /** A table entry that cannot be honoured yields exactly one warning of its
      kind and no override record; an honoured or absent entry yields none. */
  lemma OverrideWarnings(cfg: Config, s: Site)
    ensures CountKind(ClassifyMethod(cfg, s).diagnostics, Css) ==
      if OverrideRefused(cfg.cssOverrides, s.fn, SelectorArgType) then 1 else 0
    ensures CountKind(ClassifyMethod(cfg, s).diagnostics, Js) ==
      if OverrideRefused(cfg.jsOverrides, s.fn, ExpressionArgType) then 1 else 0
    ensures OverrideRefused(cfg.cssOverrides, s.fn, SelectorArgType) ==>
      forall x :: x in ClassifyMethod(cfg, s).css ==> IsSelectorArg(s.fn.annotations[x.index])
    ensures OverrideRefused(cfg.jsOverrides, s.fn, ExpressionArgType) ==>
      forall x :: x in ClassifyMethod(cfg, s).js ==> IsExpressionArg(s.fn.annotations[x.index])
  {
    var jsCheck := CheckOverride(cfg.jsOverrides, s.fn, ExpressionArgType);
    var cssCheck := CheckOverride(cfg.cssOverrides, s.fn, SelectorArgType);
    var jsD := OverrideDiagnostics(Js, jsCheck, ExpressionArgType, s);
    var cssD := OverrideDiagnostics(Css, cssCheck, SelectorArgType, s);
    CountKindAppend(jsD, cssD, Css);
    CountKindAppend(jsD, cssD, Js);
  }

  // ---------------------------------------------------------------------
  // The whole surface
  // ---------------------------------------------------------------------

  /** Classification of a sequence of sites, appended site after site. */
  function ClassifySites(cfg: Config, sites: seq<Site>): Classified
  {
    if |sites| == 0 then Classified([], [], [])
    else Concat(ClassifyMethod(cfg, sites[0]), ClassifySites(cfg, sites[1..]))
  }

  /** The reasons summed over a list of sites. */
  function CssReasonsAll(cfg: Config, sites: seq<Site>, x: Record): nat
  {
    if |sites| == 0 then 0 else CssReasons(cfg, sites[0], x) + CssReasonsAll(cfg, sites[1..], x)
  }

  function JsReasonsAll(cfg: Config, sites: seq<Site>, x: Record): nat
  {
    if |sites| == 0 then 0 else JsReasons(cfg, sites[0], x) + JsReasonsAll(cfg, sites[1..], x)
  }

  /** Across sites nothing is merged either: each list holds a record once
      per reason any site has for it. */
  lemma {:induction false} ClassifySitesMultiplicity(cfg: Config, sites: seq<Site>, x: Record)
    ensures multiset(ClassifySites(cfg, sites).css)[x] == CssReasonsAll(cfg, sites, x)
    ensures multiset(ClassifySites(cfg, sites).js)[x] == JsReasonsAll(cfg, sites, x)
  {
    if |sites| != 0 {
      ClassifySitesMultiplicity(cfg, sites[1..], x);
      MethodRecordMultiplicity(cfg, sites[0], x);
      var here := ClassifyMethod(cfg, sites[0]);
      var rest := ClassifySites(cfg, sites[1..]);
      assert ClassifySites(cfg, sites) == Concat(here, rest);
      assert multiset(here.css + rest.css) == multiset(here.css) + multiset(rest.css);
      assert multiset(here.js + rest.js) == multiset(here.js) + multiset(rest.js);
    }
  }

  lemma ConcatAssoc(a: Classified, b: Classified, c: Classified)
    ensures Concat(a, Concat(b, c)) == Concat(Concat(a, b), c)
  {
    assert a.css + (b.css + c.css) == (a.css + b.css) + c.css;
    assert a.js + (b.js + c.js) == (a.js + b.js) + c.js;
    assert a.diagnostics + (b.diagnostics + c.diagnostics) == (a.diagnostics + b.diagnostics) + c.diagnostics;
  }

  /** Classifying two site lists one after the other concatenates their
      classifications. */
  lemma {:induction false} ClassifySitesAppend(cfg: Config, a: seq<Site>, b: seq<Site>)
    ensures ClassifySites(cfg, a + b) == Concat(ClassifySites(cfg, a), ClassifySites(cfg, b))
  {
    if |a| == 0 {
      assert a + b == b;
      var y := ClassifySites(cfg, b);
      assert y.css == [] + y.css && y.js == [] + y.js && y.diagnostics == [] + y.diagnostics;
    } else {
      assert (a + b)[0] == a[0];
      assert (a + b)[1..] == a[1..] + b;
      ClassifySitesAppend(cfg, a[1..], b);
      ConcatAssoc(ClassifyMethod(cfg, a[0]), ClassifySites(cfg, a[1..]), ClassifySites(cfg, b));
    }
  }

  /** A record is in the CSS list exactly when some site justifies it. */
  lemma {:induction false} ClassifySitesCss(cfg: Config, sites: seq<Site>, x: Record)
    ensures x in ClassifySites(cfg, sites).css <==> exists k :: 0 <= k < |sites| && CssJustified(cfg, sites[k], x)
  {
    if |sites| != 0 {
      ClassifySitesCss(cfg, sites[1..], x);
      if exists k :: 0 <= k < |sites| && CssJustified(cfg, sites[k], x) {
        var k :| 0 <= k < |sites| && CssJustified(cfg, sites[k], x);
        if k != 0 {
          assert sites[1..][k - 1] == sites[k];
        }
      }
      if x in ClassifySites(cfg, sites[1..]).css {
        var k :| 0 <= k < |sites[1..]| && CssJustified(cfg, sites[1..][k], x);
        assert sites[1..][k] == sites[k + 1];
      }
    }
  }

  /** A record is in the JavaScript list exactly when some site justifies it. */
  lemma {:induction false} ClassifySitesJs(cfg: Config, sites: seq<Site>, x: Record)
    ensures x in ClassifySites(cfg, sites).js <==> exists k :: 0 <= k < |sites| && JsJustified(cfg, sites[k], x)
  {
    if |sites| != 0 {
      ClassifySitesJs(cfg, sites[1..], x);
      if exists k :: 0 <= k < |sites| && JsJustified(cfg, sites[k], x) {
        var k :| 0 <= k < |sites| && JsJustified(cfg, sites[k], x);
        if k != 0 {
          assert sites[1..][k - 1] == sites[k];
        }
      }
      if x in ClassifySites(cfg, sites[1..]).js {
        var k :| 0 <= k < |sites[1..]| && JsJustified(cfg, sites[1..][k], x);
        assert sites[1..][k] == sites[k + 1];
      }
    }
  }

  /** A diagnostic is reported exactly for the sites whose own
      classification reports it. */
  lemma {:induction false} ClassifySitesDiagnostics(cfg: Config, sites: seq<Site>, d: Diagnostic)
    ensures d in ClassifySites(cfg, sites).diagnostics <==>
      exists k :: 0 <= k < |sites| && d in ClassifyMethod(cfg, sites[k]).diagnostics
  {
    if d in ClassifySites(cfg, sites).diagnostics {
      DiagnosticFromSite(cfg, sites, d);
    }
    if exists k :: 0 <= k < |sites| && d in ClassifyMethod(cfg, sites[k]).diagnostics {
      var k :| 0 <= k < |sites| && d in ClassifyMethod(cfg, sites[k]).diagnostics;
      DiagnosticOfSite(cfg, sites, k, d);
    }
  }

  /** A reported warning comes from one of the sites. */
  lemma {:induction false} DiagnosticFromSite(cfg: Config, sites: seq<Site>, d: Diagnostic)
    requires d in ClassifySites(cfg, sites).diagnostics
    ensures exists k :: 0 <= k < |sites| && d in ClassifyMethod(cfg, sites[k]).diagnostics
  {
    var here := ClassifyMethod(cfg, sites[0]).diagnostics;
    var rest := ClassifySites(cfg, sites[1..]).diagnostics;
    assert ClassifySites(cfg, sites).diagnostics == here + rest;
    if d !in here {
      DiagnosticFromSite(cfg, sites[1..], d);
      var k :| 0 <= k < |sites[1..]| && d in ClassifyMethod(cfg, sites[1..][k]).diagnostics;
      assert sites[1..][k] == sites[k + 1];
    }
  }

  /** Every warning of a site is reported. */
  lemma {:induction false} DiagnosticOfSite(cfg: Config, sites: seq<Site>, k: nat, d: Diagnostic)
    requires k < |sites| && d in ClassifyMethod(cfg, sites[k]).diagnostics
    ensures d in ClassifySites(cfg, sites).diagnostics
  {
    var here := ClassifyMethod(cfg, sites[0]).diagnostics;
    var rest := ClassifySites(cfg, sites[1..]).diagnostics;
    assert ClassifySites(cfg, sites).diagnostics == here + rest;
    if k != 0 {
      assert sites[1..][k - 1] == sites[k];
      DiagnosticOfSite(cfg, sites[1..], k - 1, d);
    }
  }

  /** `generate_css_js_injections` over an explicit surface and tables. */
  function Generate(cfg: Config, api: Api): Classified
  {
    ClassifySites(cfg, ApiSites(api))
  }

  /** Classifying two surfaces one after the other concatenates their
      classifications. */
  lemma GenerateAppend(cfg: Config, a: Api, b: Api)
    ensures Generate(cfg, a + b) == Concat(Generate(cfg, a), Generate(cfg, b))
  {
    ApiSitesAppend(a, b);
    ClassifySitesAppend(cfg, ApiSites(a), ApiSites(b));
  }

  /** A CSS record comes from method `k` of class `j` of module `i`, and that
      method justifies it; and every such justified triple is present. */
  lemma GenerateCssMembership(cfg: Config, api: Api, x: Record)
    ensures x in Generate(cfg, api).css <==>
      exists i, j, k :: 0 <= i < |api| && 0 <= j < |api[i]| && 0 <= k < |api[i][j].methods|
        && CssJustified(cfg, Site(Owner(api[i][j]), api[i][j].methods[k]), x)
  {
    var sites := ApiSites(api);
    ClassifySitesCss(cfg, sites, x);
    if x in Generate(cfg, api).css {
      var n :| 0 <= n < |sites| && CssJustified(cfg, sites[n], x);
      ApiSitesMembership(api, sites[n]);
      var i, j, k :| SiteAt(api, i, j, k, sites[n]);
    }
    if exists i, j, k :: 0 <= i < |api| && 0 <= j < |api[i]| && 0 <= k < |api[i][j].methods|
        && CssJustified(cfg, Site(Owner(api[i][j]), api[i][j].methods[k]), x) {
      var i, j, k :| 0 <= i < |api| && 0 <= j < |api[i]| && 0 <= k < |api[i][j].methods|
        && CssJustified(cfg, Site(Owner(api[i][j]), api[i][j].methods[k]), x);
      var s := Site(Owner(api[i][j]), api[i][j].methods[k]);
      ApiSitesMembership(api, s);
      assert SiteAt(api, i, j, k, s);
      var n :| 0 <= n < |sites| && sites[n] == s;
    }
  }

  /** The JavaScript counterpart of `GenerateCssMembership`. */
  lemma GenerateJsMembership(cfg: Config, api: Api, x: Record)
    ensures x in Generate(cfg, api).js <==>
      exists i, j, k :: 0 <= i < |api| && 0 <= j < |api[i]| && 0 <= k < |api[i][j].methods|
        && JsJustified(cfg, Site(Owner(api[i][j]), api[i][j].methods[k]), x)
  {
    var sites := ApiSites(api);
    ClassifySitesJs(cfg, sites, x);
    if x in Generate(cfg, api).js {
      var n :| 0 <= n < |sites| && JsJustified(cfg, sites[n], x);
      ApiSitesMembership(api, sites[n]);
      var i, j, k :| SiteAt(api, i, j, k, sites[n]);
    }
    if exists i, j, k :: 0 <= i < |api| && 0 <= j < |api[i]| && 0 <= k < |api[i][j].methods|
        && JsJustified(cfg, Site(Owner(api[i][j]), api[i][j].methods[k]), x) {
      var i, j, k :| 0 <= i < |api| && 0 <= j < |api[i]| && 0 <= k < |api[i][j].methods|
        && JsJustified(cfg, Site(Owner(api[i][j]), api[i][j].methods[k]), x);
      var s := Site(Owner(api[i][j]), api[i][j].methods[k]);
      ApiSitesMembership(api, s);
      assert SiteAt(api, i, j, k, s);
      var n :| 0 <= n < |sites| && sites[n] == s;
    }
  }

  /** Every record names a method of some class of the surface, its owner is
      that class's module name, a dot and its class name, and its index is a
      valid position in that method's annotation list. */
  lemma RecordProvenance(cfg: Config, api: Api, x: Record)
    requires x in Generate(cfg, api).css || x in Generate(cfg, api).js
    ensures exists i, j, k ::
              && 0 <= i < |api| && 0 <= j < |api[i]| && 0 <= k < |api[i][j].methods|
              && x.methodName == api[i][j].methods[k].name
              && x.owner == api[i][j].moduleName + "." + api[i][j].className
              && x.index < |api[i][j].methods[k].annotations|
  {
    GenerateCssMembership(cfg, api, x);
    GenerateJsMembership(cfg, api, x);
  }

  /** The source's `IndexError`: some listed method's override position lies
      past the end of its annotation list. */
  predicate SourceRaises(cfg: Config, api: Api)
  {
    exists i, j, k :: 0 <= i < |api| && 0 <= j < |api[i]| && 0 <= k < |api[i][j].methods|
      && OutOfRangeLookup(cfg, api[i][j].methods[k])
  }

  predicate OutOfRangeLookup(cfg: Config, m: Method)
  {
    || (m.name in cfg.jsOverrides && |m.annotations| <= cfg.jsOverrides[m.name])
    || (m.name in cfg.cssOverrides && |m.annotations| <= cfg.cssOverrides[m.name])
  }

  /** The model reports an out-of-range override exactly when the source
      would abort with `IndexError`; otherwise the two agree on every record. */
  lemma OutOfRangeDiagnosticIffSourceRaises(cfg: Config, api: Api)
    ensures (exists d :: d in Generate(cfg, api).diagnostics && d.IndexOutOfRange?) <==> SourceRaises(cfg, api)
  {
    if exists d :: d in Generate(cfg, api).diagnostics && d.IndexOutOfRange? {
      var d :| d in Generate(cfg, api).diagnostics && d.IndexOutOfRange?;
      OutOfRangeDiagnosticRaises(cfg, api, d);
    }
    if SourceRaises(cfg, api) {
      SourceRaisesDiagnostic(cfg, api);
    }
  }

  /** An out-of-range warning names a lookup that raises in the source. */
  lemma OutOfRangeDiagnosticRaises(cfg: Config, api: Api, d: Diagnostic)
    requires d in Generate(cfg, api).diagnostics && d.IndexOutOfRange?
    ensures SourceRaises(cfg, api)
  {
    var sites := ApiSites(api);
    ClassifySitesDiagnostics(cfg, sites, d);
    var n :| 0 <= n < |sites| && d in ClassifyMethod(cfg, sites[n]).diagnostics;
    MethodOutOfRange(cfg, sites[n]);
    ApiSitesMembership(api, sites[n]);
    var i, j, k :| SiteAt(api, i, j, k, sites[n]);
  }

  /** A lookup that raises in the source is reported as out of range. */
  lemma SourceRaisesDiagnostic(cfg: Config, api: Api)
    requires SourceRaises(cfg, api)
    ensures exists d :: d in Generate(cfg, api).diagnostics && d.IndexOutOfRange?
  {
    var sites := ApiSites(api);
    var i, j, k :| 0 <= i < |api| && 0 <= j < |api[i]| && 0 <= k < |api[i][j].methods|
      && OutOfRangeLookup(cfg, api[i][j].methods[k]);
    var s := Site(Owner(api[i][j]), api[i][j].methods[k]);
    ApiSitesMembership(api, s);
    assert SiteAt(api, i, j, k, s);
    var n :| 0 <= n < |sites| && sites[n] == s;
    MethodOutOfRange(cfg, s);
    var d :| d in ClassifyMethod(cfg, s).diagnostics && d.IndexOutOfRange?;
    DiagnosticOfSite(cfg, sites, n, d);
  }

  /** One method reports an out-of-range override exactly when one of its
      table lookups is out of range. */
  lemma MethodOutOfRange(cfg: Config, s: Site)
    ensures (exists d :: d in ClassifyMethod(cfg, s).diagnostics && d.IndexOutOfRange?) <==> OutOfRangeLookup(cfg, s.fn)
  {
    var jsCheck := CheckOverride(cfg.jsOverrides, s.fn, ExpressionArgType);
    var cssCheck := CheckOverride(cfg.cssOverrides, s.fn, SelectorArgType);
    var jsD := OverrideDiagnostics(Js, jsCheck, ExpressionArgType, s);
    var cssD := OverrideDiagnostics(Css, cssCheck, SelectorArgType, s);
    assert ClassifyMethod(cfg, s).diagnostics == jsD + cssD;
    if jsCheck.OutOfRange? {
      assert jsD[0] in jsD + cssD;
    }
    if cssCheck.OutOfRange? {
      assert cssD[0] in jsD + cssD;
    }
  }

  /** Within one method a triple can be in both lists only through an
      override table; the naming convention alone never puts one position
      into both. */
  lemma CrossKindOnlyViaOverride(cfg: Config, s: Site, x: Record)
    requires x in ClassifyMethod(cfg, s).css && x in ClassifyMethod(cfg, s).js
    ensures || OverrideApplies(cfg.cssOverrides, s.fn, SelectorArgType, x.index)
            || OverrideApplies(cfg.jsOverrides, s.fn, ExpressionArgType, x.index)
  {
  }
}
