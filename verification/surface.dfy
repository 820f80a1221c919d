/**
  The API surface the classifier inspects, as explicit data.

  The generator reflects over two generated Playwright modules (the
  synchronous and the asynchronous API).  Here a surface is a sequence of
  modules, a module a sequence of classes, a class an owner name and a
  sequence of methods, and a method a name and its ordered annotation list.
  The annotation list is what the source reads from `fn.__annotations__`:
  `self` carries no annotation and is absent, unannotated parameters are
  absent, and an annotated return type is present as the last entry with
  the key "return".
 */
module Surface {

  /** A declared annotation type.  The classifier only ever compares it with
      the built-in text type, so everything else is an opaque name. */
  datatype AnnotationType = Str | Other(name: string)

  /** One (key, declared type) pair of a method's annotation dictionary. */
  datatype Annotation = Annotation(key: string, typ: AnnotationType)

  /** A method: its name and its annotation dictionary as an ordered list.
      A dictionary cannot repeat a key, but this list can: the model accepts
      more methods than Python can produce (`DistinctKeys` names the ones it
      can), and on a real method each key, `selector` and `expression`
      included, is at one position only. */
  datatype Method = Method(name: string, annotations: seq<Annotation>)

  /** No two annotations of `m` share a key, as in a real `__annotations__`. */
  predicate DistinctKeys(m: Method)
  {
    forall i, j :: 0 <= i < j < |m.annotations| ==> m.annotations[i].key != m.annotations[j].key
  }

  datatype Class = Class(moduleName: string, className: string, methods: seq<Method>)

  type ApiModule = seq<Class>

  type Api = seq<ApiModule>

  /** The qualified owner name of a class: module, a dot, then class name. */
  function Owner(c: Class): string
  {
    c.moduleName + "." + c.className
  }

  /** One method together with the qualified name of the class it was found on. */
  datatype Site = Site(owner: string, fn: Method)

  /** The sites of one class, in declaration order. */
  function ClassSites(c: Class): (r: seq<Site>)
    ensures |r| == |c.methods|
    ensures forall k :: 0 <= k < |r| ==> r[k] == Site(Owner(c), c.methods[k])
  {
    seq(|c.methods|, k requires 0 <= k < |c.methods| => Site(Owner(c), c.methods[k]))
  }

  /** The sites of every class of one module, class after class. */
  function ModuleSites(m: ApiModule): seq<Site>
  {
    if |m| == 0 then [] else ClassSites(m[0]) + ModuleSites(m[1..])
  }

  /** The sites of every module of a surface, module after module. */
  function ApiSites(api: Api): seq<Site>
  {
    if |api| == 0 then [] else ModuleSites(api[0]) + ApiSites(api[1..])
  }

  /** `s` is method `k` of class `j` of module `i` of `api`. */
  predicate SiteAt(api: Api, i: int, j: int, k: int, s: Site)
  {
    && 0 <= i < |api|
    && 0 <= j < |api[i]|
    && 0 <= k < |api[i][j].methods|
    && s == Site(Owner(api[i][j]), api[i][j].methods[k])
  }

  /** A module yields exactly the methods of its classes, each paired with
      the owner name of the class it belongs to. */
  lemma {:induction false} ModuleSitesMembership(m: ApiModule, s: Site)
    ensures s in ModuleSites(m) <==>
      exists j, k :: 0 <= j < |m| && 0 <= k < |m[j].methods| && s == Site(Owner(m[j]), m[j].methods[k])
  {
    if |m| != 0 {
      ModuleSitesMembership(m[1..], s);
      if s in ModuleSites(m) {
        if s in ClassSites(m[0]) {
          var k :| 0 <= k < |ClassSites(m[0])| && ClassSites(m[0])[k] == s;
          assert 0 <= k < |m[0].methods| && s == Site(Owner(m[0]), m[0].methods[k]);
        } else {
          assert s in ModuleSites(m[1..]);
          var j, k :| 0 <= j < |m[1..]| && 0 <= k < |m[1..][j].methods| && s == Site(Owner(m[1..][j]), m[1..][j].methods[k]);
          assert m[1..][j] == m[j + 1];
        }
      }
      if exists j, k :: 0 <= j < |m| && 0 <= k < |m[j].methods| && s == Site(Owner(m[j]), m[j].methods[k]) {
        var j, k :| 0 <= j < |m| && 0 <= k < |m[j].methods| && s == Site(Owner(m[j]), m[j].methods[k]);
        if j == 0 {
          assert ClassSites(m[0])[k] == s;
        } else {
          assert m[1..][j - 1] == m[j];
          assert s in ModuleSites(m[1..]);
        }
      }
    }
  }

  /** The enumeration visits exactly the methods of the classes of the
      modules of the surface: nothing is invented and nothing is skipped. */
  lemma {:induction false} ApiSitesMembership(api: Api, s: Site)
    ensures s in ApiSites(api) <==> exists i, j, k :: SiteAt(api, i, j, k, s)
  {
    if |api| != 0 {
      ApiSitesMembership(api[1..], s);
      ModuleSitesMembership(api[0], s);
      if s in ApiSites(api) {
        if s in ModuleSites(api[0]) {
          var j, k :| 0 <= j < |api[0]| && 0 <= k < |api[0][j].methods| && s == Site(Owner(api[0][j]), api[0][j].methods[k]);
          assert SiteAt(api, 0, j, k, s);
        } else {
          var i, j, k :| SiteAt(api[1..], i, j, k, s);
          assert api[1..][i] == api[i + 1];
          assert SiteAt(api, i + 1, j, k, s);
        }
      }
      if exists i, j, k :: SiteAt(api, i, j, k, s) {
        var i, j, k :| SiteAt(api, i, j, k, s);
        if i == 0 {
          assert s in ModuleSites(api[0]);
        } else {
          assert api[1..][i - 1] == api[i];
          assert SiteAt(api[1..], i - 1, j, k, s);
        }
      }
    }
  }

  /** Enumerating two surfaces one after the other is enumerating their
      concatenation: the synchronous and asynchronous modules go through the
      same pipeline without special treatment. */
  lemma {:induction false} ApiSitesAppend(a: Api, b: Api)
    ensures ApiSites(a + b) == ApiSites(a) + ApiSites(b)
  {
    if |a| == 0 {
      assert a + b == b;
    } else {
      assert (a + b)[0] == a[0];
      assert (a + b)[1..] == a[1..] + b;
      ApiSitesAppend(a[1..], b);
    }
  }
}
