/**
  `main`: classify the surface, sort both lists, render each list into its
  configuration document; plus the override tables the generator ships
  with.

  Writing the two files, the summary line and the library version in the
  file names are left to the caller; the warnings come back as data.
 */
module Pipeline {
  import opened Surface
  import opened Classifier
  import opened Ordering
  import opened Render

  /** The shipped tables: no script overrides, and `drag_and_drop`'s second
      annotation (its `target`) as a selector. */
  const ShippedConfig: Config := Config(map[], map["drag_and_drop" := 1])

  /** The two documents, the sorted lists they were rendered from (whose
      lengths the summary line reports), and the warnings. */
  datatype Output = Output(
    cssDocument: string,
    jsDocument: string,
    css: seq<Record>,
    js: seq<Record>,
    diagnostics: seq<Diagnostic>)

  function Run(cfg: Config, api: Api): (out: Output)
    ensures Sorted(out.css) && multiset(out.css) == multiset(Generate(cfg, api).css)
    ensures Sorted(out.js) && multiset(out.js) == multiset(Generate(cfg, api).js)
    ensures out.diagnostics == Generate(cfg, api).diagnostics
  {
    var found := Generate(cfg, api);
    var css := Sort(found.css);
    var js := Sort(found.js);
    Output(Document(Css, css), Document(Js, js), css, js, found.diagnostics)
  }

  /** No module, class or method name holds a double quote or a newline. */
  predicate PrintableApi(api: Api)
  {
    forall i, j :: 0 <= i < |api| && 0 <= j < |api[i]| ==>
      && '"' !in api[i][j].moduleName && '\n' !in api[i][j].moduleName
      && '"' !in api[i][j].className && '\n' !in api[i][j].className
      && forall k :: 0 <= k < |api[i][j].methods| ==>
           '"' !in api[i][j].methods[k].name && '\n' !in api[i][j].methods[k].name
  }

  lemma RecordsPrintable(cfg: Config, api: Api, xs: seq<Record>)
    requires PrintableApi(api)
    requires forall x :: x in xs ==> x in Generate(cfg, api).css || x in Generate(cfg, api).js
    ensures forall n :: 0 <= n < |xs| ==> Printable(xs[n])
  {
    forall n | 0 <= n < |xs|
      ensures Printable(xs[n])
    {
      RecordProvenance(cfg, api, xs[n]);
    }
  }

  /** The lists `Run` reports are the classified lists, sorted. */
  lemma RunLists(cfg: Config, api: Api)
    ensures Run(cfg, api).css == Sort(Generate(cfg, api).css)
    ensures Run(cfg, api).js == Sort(Generate(cfg, api).js)
    ensures Run(cfg, api).diagnostics == Generate(cfg, api).diagnostics
  {
  }

  /** Sorting neither adds nor drops a record. */
  lemma SortKeepsMembers(s: seq<Record>, x: Record)
    ensures x in Sort(s) <==> x in s
  {
    assert x in multiset(Sort(s)) <==> x in multiset(s);
  }

  /** The records of a run are those of the classification. */
  lemma RunMembers(cfg: Config, api: Api, x: Record)
    ensures x in Run(cfg, api).css <==> x in Generate(cfg, api).css
    ensures x in Run(cfg, api).js <==> x in Generate(cfg, api).js
  {
    RunLists(cfg, api);
    SortKeepsMembers(Generate(cfg, api).css, x);
    SortKeepsMembers(Generate(cfg, api).js, x);
  }

  /** Both documents decode to the sorted lists they were rendered from. */
  lemma RunDocumentsDecode(cfg: Config, api: Api)
    requires PrintableApi(api)
    ensures DecodeDocument(Css, Run(cfg, api).cssDocument) == Some(Run(cfg, api).css)
    ensures DecodeDocument(Js, Run(cfg, api).jsDocument) == Some(Run(cfg, api).js)
  {
    var out := Run(cfg, api);
    forall x | x in out.css || x in out.js
      ensures x in Generate(cfg, api).css || x in Generate(cfg, api).js
    {
      RunMembers(cfg, api, x);
    }
    RecordsPrintable(cfg, api, out.css);
    RecordsPrintable(cfg, api, out.js);
    DocumentRoundTrip(Css, out.css);
    DocumentRoundTrip(Js, out.js);
  }

  /** Sorting drops no duplicate: each reported list holds a record once per
      reason any method of the surface has for it. */
  lemma RunMultiplicity(cfg: Config, api: Api, x: Record)
    ensures multiset(Run(cfg, api).css)[x] == CssReasonsAll(cfg, ApiSites(api), x)
    ensures multiset(Run(cfg, api).js)[x] == JsReasonsAll(cfg, ApiSites(api), x)
  {
    ClassifySitesMultiplicity(cfg, ApiSites(api), x);
  }

  /** The CSS document lists, in sorted order, exactly the records the
      classifier justifies: each selector override hit and each `selector:
      str` position of each method of each class (`RunMultiplicity` says how
      often). */
  lemma CssDocumentContents(cfg: Config, api: Api)
    requires PrintableApi(api)
    ensures DecodeDocument(Css, Run(cfg, api).cssDocument) == Some(Run(cfg, api).css)
    ensures Sorted(Run(cfg, api).css)
    ensures forall x :: x in Run(cfg, api).css <==>
      exists i, j, k :: 0 <= i < |api| && 0 <= j < |api[i]| && 0 <= k < |api[i][j].methods|
        && CssJustified(cfg, Site(Owner(api[i][j]), api[i][j].methods[k]), x)
  {
    RunDocumentsDecode(cfg, api);
    forall x
      ensures x in Run(cfg, api).css <==>
        exists i, j, k :: 0 <= i < |api| && 0 <= j < |api[i]| && 0 <= k < |api[i][j].methods|
          && CssJustified(cfg, Site(Owner(api[i][j]), api[i][j].methods[k]), x)
    {
      RunMembers(cfg, api, x);
      GenerateCssMembership(cfg, api, x);
    }
  }

  /** The JavaScript counterpart of `CssDocumentContents`. */
  lemma JsDocumentContents(cfg: Config, api: Api)
    requires PrintableApi(api)
    ensures DecodeDocument(Js, Run(cfg, api).jsDocument) == Some(Run(cfg, api).js)
    ensures Sorted(Run(cfg, api).js)
    ensures forall x :: x in Run(cfg, api).js <==>
      exists i, j, k :: 0 <= i < |api| && 0 <= j < |api[i]| && 0 <= k < |api[i][j].methods|
        && JsJustified(cfg, Site(Owner(api[i][j]), api[i][j].methods[k]), x)
  {
    RunDocumentsDecode(cfg, api);
    forall x
      ensures x in Run(cfg, api).js <==>
        exists i, j, k :: 0 <= i < |api| && 0 <= j < |api[i]| && 0 <= k < |api[i][j].methods|
          && JsJustified(cfg, Site(Owner(api[i][j]), api[i][j].methods[k]), x)
    {
      RunMembers(cfg, api, x);
      GenerateJsMembership(cfg, api, x);
    }
  }

  /** Feeding the synchronous and asynchronous modules in either order
      gives the same two documents. */
  lemma ModuleOrderIrrelevant(cfg: Config, a: Api, b: Api)
    ensures Run(cfg, a + b).cssDocument == Run(cfg, b + a).cssDocument
    ensures Run(cfg, a + b).jsDocument == Run(cfg, b + a).jsDocument
  {
    ApiSitesAppend(a, b);
    ApiSitesAppend(b, a);
    ClassifySitesAppend(cfg, ApiSites(a), ApiSites(b));
    ClassifySitesAppend(cfg, ApiSites(b), ApiSites(a));
    var ga := Generate(cfg, a);
    var gb := Generate(cfg, b);
    assert multiset(ga.css + gb.css) == multiset(gb.css + ga.css);
    assert multiset(ga.js + gb.js) == multiset(gb.js + ga.js);
    SortIgnoresOrder(ga.css + gb.css, gb.css + ga.css);
    SortIgnoresOrder(ga.js + gb.js, gb.js + ga.js);
  }

  /** With the shipped tables, every script record comes from an `expression:
      str` annotation, and every CSS record from a `selector: str` annotation
      or from `drag_and_drop`'s override at position 1. */
  lemma ShippedRecords(api: Api, x: Record)
    ensures x in Generate(ShippedConfig, api).js ==>
      exists i, j, k :: 0 <= i < |api| && 0 <= j < |api[i]| && 0 <= k < |api[i][j].methods|
        && x.methodName == api[i][j].methods[k].name && x.owner == Owner(api[i][j])
        && x.index < |api[i][j].methods[k].annotations|
        && IsExpressionArg(api[i][j].methods[k].annotations[x.index])
    ensures x in Generate(ShippedConfig, api).css ==>
      exists i, j, k :: 0 <= i < |api| && 0 <= j < |api[i]| && 0 <= k < |api[i][j].methods|
        && x.methodName == api[i][j].methods[k].name && x.owner == Owner(api[i][j])
        && x.index < |api[i][j].methods[k].annotations|
        && (|| IsSelectorArg(api[i][j].methods[k].annotations[x.index])
            || (x.methodName == "drag_and_drop" && x.index == 1
                && api[i][j].methods[k].annotations[1].typ == Str))
  {
    GenerateJsMembership(ShippedConfig, api, x);
    GenerateCssMembership(ShippedConfig, api, x);
  }

  /** With the shipped tables the only warnings are about `drag_and_drop`'s
      selector override. */
  lemma ShippedDiagnostics(api: Api, d: Diagnostic)
    requires d in Generate(ShippedConfig, api).diagnostics
    ensures d.kind == Css && d.methodName == "drag_and_drop"
  {
    var sites := ApiSites(api);
    ClassifySitesDiagnostics(ShippedConfig, sites, d);
    var n :| 0 <= n < |sites| && d in ClassifyMethod(ShippedConfig, sites[n]).diagnostics;
    OverrideWarnings(ShippedConfig, sites[n]);
    assert d.kind != Js;
  }
}
