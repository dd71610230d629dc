/**
 * Page rendering for the web application: template file names, the
 * in-place rewrite of partial names, the template cache policy, and the
 * default data every page receives. Parsing and executing a template are
 * given as functions.
 */
module Render {
  import opened Base
  import opened Strings
  import opened Calls

  const TemplatesDir := "templates/"
  const PageSuffix := ".page.gohtml"
  const PartialSuffix := ".partial.gohtml"
  const BaseLayout := "templates/base.layout.gohtml"
  const Production := "production"

  // ---------------------------------------------------------------------------
  // File names

  /** The file of a page template. */
  function PagePath(page: string): (path: string)
    ensures |path| == |TemplatesDir| + |page| + |PageSuffix|
    ensures path[..|TemplatesDir|] == TemplatesDir && path[|path| - |PageSuffix|..] == PageSuffix
    ensures path[|TemplatesDir|..|path| - |PageSuffix|] == page
  {
    TemplatesDir + page + PageSuffix
  }

  /** Different pages live in different files. */
  lemma PagePathInjective(a: string, b: string)
    ensures PagePath(a) == PagePath(b) <==> a == b
  {
    if PagePath(a) == PagePath(b) {
      assert a == PagePath(a)[|TemplatesDir|..|PagePath(a)| - |PageSuffix|];
    }
  }

  /** The file of a partial template. */
  function PartialPath(name: string): (path: string)
    ensures |path| == |TemplatesDir| + |name| + |PartialSuffix|
    ensures path[..|TemplatesDir|] == TemplatesDir && path[|path| - |PartialSuffix|..] == PartialSuffix
  {
    TemplatesDir + name + PartialSuffix
  }

  predicate IsPartialPath(path: string)
  {
    |path| >= |TemplatesDir| + |PartialSuffix|
    && path[..|TemplatesDir|] == TemplatesDir && path[|path| - |PartialSuffix|..] == PartialSuffix
  }

  /** The partial a partial-template file name stands for. */
  function PartialName(path: string): (name: string)
    requires IsPartialPath(path)
    ensures PartialPath(name) == path
  {
    var name := path[|TemplatesDir|..|path| - |PartialSuffix|];
    assert path == path[..|TemplatesDir|] + name + path[|path| - |PartialSuffix|..];
    name
  }

  lemma PartialNameOfPath(name: string)
    ensures IsPartialPath(PartialPath(name)) && PartialName(PartialPath(name)) == name
  {
    var p := PartialPath(name);
    assert p[|TemplatesDir|..|p| - |PartialSuffix|] == name;
  }

  /** The partial list after the rewrite: each name replaced by its file, same order. */
  function PartialPaths(names: seq<string>): (paths: seq<string>)
    ensures |paths| == |names|
    ensures forall i :: 0 <= i < |names| ==> paths[i] == PartialPath(names[i])
  {
    seq(|names|, i requires 0 <= i < |names| => PartialPath(names[i]))
  }

  /** The names back from a rewritten partial list. */
  function PartialNames(paths: seq<string>): (names: seq<string>)
    requires forall i :: 0 <= i < |paths| ==> IsPartialPath(paths[i])
    ensures |names| == |paths|
  {
    seq(|paths|, i requires 0 <= i < |paths| && IsPartialPath(paths[i]) => PartialName(paths[i]))
  }

  /** The rewrite loses nothing: the original names can be read back from the files. */
  lemma PartialPathsRoundTrip(names: seq<string>)
    ensures forall i :: 0 <= i < |names| ==> IsPartialPath(PartialPaths(names)[i])
    ensures PartialNames(PartialPaths(names)) == names
  {
    forall i | 0 <= i < |names|
      ensures IsPartialPath(PartialPaths(names)[i]) && PartialName(PartialPaths(names)[i]) == names[i]
    {
      PartialNameOfPath(names[i]);
    }
  }

  /** The patterns handed to the template file system: base layout, the partials joined by ",", the page. */
  function ParsePatterns(partialPaths: seq<string>, pagePath: string): (patterns: seq<string>)
    ensures |patterns| == if partialPaths == [] then 2 else 3
    ensures patterns[0] == BaseLayout && patterns[|patterns| - 1] == pagePath
    ensures partialPaths != [] ==> patterns[1] == Join(partialPaths, ',')
  {
    if |partialPaths| > 0 then [BaseLayout, Join(partialPaths, ','), pagePath]
    else [BaseLayout, pagePath]
  }

  // ---------------------------------------------------------------------------
  // Template data

  /** The values a page template is executed with. */
  datatype View = View(
    stringMap: map<string, string>, intMap: map<string, int>, floatMap: map<string, real>,
    data: map<string, string>, csrfToken: string, flash: string, warning: string, error: string,
    isAuthenticated: int, api: string, cssVersion: string,
    stripeSecretKey: string, stripePublishableKey: string)

  const EmptyView := View(map[], map[], map[], map[], "", "", "", "", 0, "", "", "", "")

  /** The view with the configuration's API address and Stripe keys filled in. */
  function WithDefaults(v: View, cfg: Config): (w: View)
    ensures w.api == cfg.api && w.stripeSecretKey == cfg.stripeSecret && w.stripePublishableKey == cfg.stripeKey
    ensures w.stringMap == v.stringMap && w.intMap == v.intMap && w.floatMap == v.floatMap && w.data == v.data
    ensures w.csrfToken == v.csrfToken && w.flash == v.flash && w.warning == v.warning && w.error == v.error
    ensures w.isAuthenticated == v.isAuthenticated && w.cssVersion == v.cssVersion
  {
    v.(api := cfg.api, stripeSecretKey := cfg.stripeSecret, stripePublishableKey := cfg.stripeKey)
  }

  /** Adding the defaults twice is adding them once. */
  lemma WithDefaultsIdempotent(v: View, cfg: Config)
    ensures WithDefaults(WithDefaults(v, cfg), cfg) == WithDefaults(v, cfg)
  {
  }

  /** Only the three default fields are touched: views that differ elsewhere still differ. */
  lemma WithDefaultsKeepsOtherFields(v: View, u: View, cfg: Config)
    ensures WithDefaults(v, cfg) == WithDefaults(u, cfg) <==>
              v.(api := "", stripeSecretKey := "", stripePublishableKey := "") ==
              u.(api := "", stripeSecretKey := "", stripePublishableKey := "")
  {
  }

  /** A page's data, filled in by the handler and completed by the renderer. */
  class TemplateData {
    var stringMap: map<string, string>
    var intMap: map<string, int>
    var floatMap: map<string, real>
    var data: map<string, string>
    var csrfToken: string
    var flash: string
    var warning: string
    var error: string
    var isAuthenticated: int
    var api: string
    var cssVersion: string
    var stripeSecretKey: string
    var stripePublishableKey: string

    /** Template data with every field at its zero value. */
    constructor()
      ensures Snapshot() == EmptyView
    {
      stringMap, intMap, floatMap, data := map[], map[], map[], map[];
      csrfToken, flash, warning, error := "", "", "", "";
      isAuthenticated := 0;
      api, cssVersion, stripeSecretKey, stripePublishableKey := "", "", "", "";
    }

    function Snapshot(): View
      reads this
    {
      View(stringMap, intMap, floatMap, data, csrfToken, flash, warning, error,
           isAuthenticated, api, cssVersion, stripeSecretKey, stripePublishableKey)
    }
  }

  /** `addDefaultData`: set the API address and the Stripe keys on `td` in place. */
  method AddDefaultData(td: TemplateData, cfg: Config)
    modifies td
    ensures td.Snapshot() == WithDefaults(old(td.Snapshot()), cfg)
  {
    td.api := cfg.api;
    td.stripeSecretKey := cfg.stripeSecret;
    td.stripePublishableKey := cfg.stripeKey;
  }

  // ---------------------------------------------------------------------------
  // Parsing and rendering

  /** A parsed template set: its name and the file patterns it was parsed from. */
  datatype Template = Parsed(name: string, patterns: seq<string>)

  /** `parseTemplate`'s loop: rewrite each partial name to its file, in place. */
  method RewritePartials(partials: array<string>)
    modifies partials
    ensures partials[..] == PartialPaths(old(partials[..]))
  {
    var i := 0;
    while i < partials.Length
      invariant 0 <= i <= partials.Length
      invariant forall j :: 0 <= j < i ==> partials[j] == PartialPath(old(partials[j]))
      invariant forall j :: i <= j < partials.Length ==> partials[j] == old(partials[j])
    {
      partials[i] := PartialPath(partials[i]);
      i := i + 1;
    }
  }

  class Renderer {
    /** Parsed templates by page file. */
    var templateCache: map<string, Template>
    const cfg: Config

    constructor(cfg: Config, templateCache: map<string, Template>)
      ensures this.cfg == cfg && this.templateCache == templateCache
    {
      this.cfg := cfg;
      this.templateCache := templateCache;
    }

    /** Whether `renderTemplate` takes the page from the cache. */
    function UsesCache(path: string): (b: bool)
      reads this
      ensures b ==> path in templateCache
      ensures cfg.env != Production ==> !b
    {
      cfg.env == Production && path in templateCache
    }

    /**
     * `parseTemplate`: rewrite the partial names in place, parse base layout,
     * partials and page, and cache the result under the page file on success.
     */
    method ParseTemplate(partials: array<string>, page: string, templateToRender: string,
                         parseFS: (string, seq<string>) -> Result<Template, string>)
      returns (t: Result<Template, string>)
      modifies this, partials
      ensures partials[..] == PartialPaths(old(partials[..]))
      ensures t == parseFS(page + PageSuffix, ParsePatterns(partials[..], templateToRender))
      ensures t.Ok? ==> templateCache == old(templateCache)[templateToRender := t.value]
      ensures t.Err? ==> templateCache == old(templateCache)
    {
      RewritePartials(partials);
      t := parseFS(page + PageSuffix, ParsePatterns(partials[..], templateToRender));
      if t.Err? {
        return;
      }
      templateCache := templateCache[templateToRender := t.value];
    }

    /**
     * `renderTemplate`: take the page from the cache in production when it is
     * there, otherwise parse it; then fill in the defaults and execute.
     */
    method RenderTemplate(page: string, td: TemplateData?, partials: array<string>,
                          parseFS: (string, seq<string>) -> Result<Template, string>,
                          execute: (Template, View) -> Outcome)
      returns (r: Outcome)
      modifies this, partials, td
      ensures var path := PagePath(page);
              var view := WithDefaults(if td == null then EmptyView else old(td.Snapshot()), cfg);
              var parsed := parseFS(page + PageSuffix, ParsePatterns(PartialPaths(old(partials[..])), path));
              if old(UsesCache(path)) then
                && templateCache == old(templateCache) && partials[..] == old(partials[..])
                && r == execute(old(templateCache)[path], view)
                && (td != null ==> td.Snapshot() == view)
              else
                && partials[..] == PartialPaths(old(partials[..]))
                && (parsed.Err? ==> r == Failed(parsed.error) && templateCache == old(templateCache)
                                    && (td != null ==> td.Snapshot() == old(td.Snapshot())))
                && (parsed.Ok? ==> r == execute(parsed.value, view)
                                   && templateCache == old(templateCache)[path := parsed.value]
                                   && (td != null ==> td.Snapshot() == view))
    {
      var templateToRender := PagePath(page);
      var t: Template;
      if UsesCache(templateToRender) {
        t := templateCache[templateToRender];
      } else {
        var parsed := ParseTemplate(partials, page, templateToRender, parseFS);
        if parsed.Err? {
          return Failed(parsed.error);
        }
        t := parsed.value;
      }
      var data := td;
      if data == null {
        data := new TemplateData();
      }
      AddDefaultData(data, cfg);
      r := execute(t, data.Snapshot());
    }
  }
}
