/** The renderer's own test scenarios, stated as lemmas about the model with
    an abstract engine `cons`, the test directory `dir` and a filesystem that
    holds the test fixtures. */
module RendererScenarios {
  import opened Values
  import opened Paths
  import opened ViewRenderer
  import opened RendererProperties

  /** The options the tests construct their renderer with. */
  function TestOptions(dir: string): Props {
    map["engine" := Str("handlebars"), "ext" := Str("html"), "views" := Str(dir)]
  }

  lemma ReadTestOptions(dir: string)
    ensures var o := TestOptions(dir);
      WellTyped(o) && TruthyAt(o, "engine") && o["engine"] == Str("handlebars") &&
      "layout" !in o && "layoutContentPlaceholder" !in o &&
      ViewsOf(o) == Single(dir) && ExtOf(o) == Some("html")
  {
  }

  predicate NoDot(s: string) {
    forall i :: 0 <= i < |s| ==> s[i] != '.'
  }

  /** The file a dot-free script name resolves to in `dir`. */
  function HtmlIn(dir: string, name: string): string {
    Format(dir, name + ".html")
  }

  lemma HtmlCandidate(name: string, dirs: seq<string>, i: nat)
    requires NoDot(name) && i < |dirs|
    ensures Candidates(BaseName(name, Some("html")), dirs)[i] == HtmlIn(dirs[i], name)
    ensures Candidates(BaseName(name, None), dirs)[i] == HtmlIn(dirs[i], name)
  {
    NoDotNoExtension(name);
    DefaultExtension(name);
    CandidatesAt(BaseName(name, Some("html")), dirs, i);
    CandidatesAt(BaseName(name, None), dirs, i);
  }

  /** `pathForScript` with no directory (so a bare file name) throws when
      neither the script nor the script with ".html" exists. This is what
      the test's title promises; the test itself never calls its function,
      so it checks nothing. */
  lemma MissingScriptThrows(fs: set<string>, script: string)
    requires NoDot(script)
    requires script !in fs && script + ".html" !in fs
    ensures ResolvePath(fs, script, Single(""), None) == Err(UnresolvedScript(script))
  {
    HtmlCandidate(script, [""], 0);
  }

  /** A script given as an existing path is rendered from that path, once. */
  lemma RendersAbsolutePath(fs: set<string>, cons: Engines, dir: string, script: string)
    requires script in fs
    ensures RenderSpec(TestOptions(dir), script, map[], fs, cons)
      == Rendered(Lift(cons(Str("handlebars"), script, map[])), map[],
                  [Probe(script), Invoke(Str("handlebars"), script, map[])])
  {
    assert Assign(TestOptions(dir), map[]) == TestOptions(dir);
    ReadTestOptions(dir);
  }

  /** A bare script name is found in the view directory with ".html" added. */
  lemma RendersResolvedPath(fs: set<string>, cons: Engines, dir: string, name: string)
    requires NoDot(name) && name !in fs && HtmlIn(dir, name) in fs
    ensures RenderSpec(TestOptions(dir), name, map[], fs, cons).result
      == Lift(cons(Str("handlebars"), HtmlIn(dir, name), map[]))
  {
    assert Assign(TestOptions(dir), map[]) == TestOptions(dir);
    ReadTestOptions(dir);
    HtmlCandidate(name, [dir], 0);
    RenderWithoutLayout(TestOptions(dir), name, map[], fs, cons);
  }

  /** The test options once the multiple-directory test has installed two
      view directories; the later tests run with these. */
  function TwoViewOptions(dir: string, views: string): Props {
    TestOptions(dir)["views" := List([Str(dir), Str(views)])]
  }

  /** With two view directories, a script found only in the second is
      taken from there, after the first has been checked. */
  lemma RendersFromSecondDirectory(fs: set<string>, cons: Engines, dir: string, views: string, name: string)
    requires NoDot(name) && name !in fs && HtmlIn(dir, name) !in fs && HtmlIn(views, name) in fs
    ensures var options := TwoViewOptions(dir, views);
      var out := RenderSpec(options, name, map[], fs, cons);
      out.result == Lift(cons(Str("handlebars"), HtmlIn(views, name), map[])) &&
      out.events == [Probe(name), Probe(HtmlIn(dir, name)), Probe(HtmlIn(views, name)),
                     Invoke(Str("handlebars"), HtmlIn(views, name), map[])]
  {
    var options := TwoViewOptions(dir, views);
    ReadTwoViewOptions(dir, views);
    ResolveSecond(fs, name, dir, views);
    assert ProbeEvents([name, HtmlIn(dir, name), HtmlIn(views, name)])
      == [Probe(name), Probe(HtmlIn(dir, name)), Probe(HtmlIn(views, name))];
    assert RenderSpec(options, name, map[], fs, cons).events
      == RenderStep(fs, cons, Str("handlebars"), name, Several([dir, views]), Some("html"), map[]).1;
  }

  lemma ReadTwoViewOptions(dir: string, views: string)
    ensures var o := Assign(TwoViewOptions(dir, views), map[]);
      o == TwoViewOptions(dir, views) &&
      WellTyped(o) && TruthyAt(o, "engine") && o["engine"] == Str("handlebars") &&
      "layout" !in o && ViewsOf(o) == Several([dir, views]) && ExtOf(o) == Some("html")
  {
    var o := TwoViewOptions(dir, views);
    assert Assign(o, map[]) == o;
    var items := [Str(dir), Str(views)];
    assert seq(|items|, i requires 0 <= i < |items| => DirOf(items[i])) == [dir, views];
  }

  lemma ReadLayoutOptions(dir: string, views: string, layout: string)
    requires layout != ""
    ensures var o := Assign(TwoViewOptions(dir, views), map["layout" := Str(layout)]);
      WellTyped(o) && TruthyAt(o, "engine") && o["engine"] == Str("handlebars") &&
      TruthyAt(o, "layout") && o["layout"] == Str(layout) && LayoutOf(o) == layout &&
      PlaceholderOf(o) == "body" && ViewsOf(o) == Several([dir, views]) && ExtOf(o) == Some("html")
  {
    var o := TwoViewOptions(dir, views);
    assert Assign(o, map["layout" := Str(layout)]) == o["layout" := Str(layout)];
    var items := [Str(dir), Str(views)];
    assert seq(|items|, i requires 0 <= i < |items| => DirOf(items[i])) == [dir, views];
  }

  /** A dot-free name present in the first view directory resolves there. */
  lemma ResolveHtml(fs: set<string>, name: string, dir: string, views: string)
    requires NoDot(name) && name !in fs && HtmlIn(dir, name) in fs
    ensures ResolvePath(fs, name, Several([dir, views]), Some("html")) == Ok(HtmlIn(dir, name))
  {
    var c := Candidates(BaseName(name, Some("html")), [dir, views]);
    HtmlCandidate(name, [dir, views], 0);
    FirstExistingAt(fs, c, 0);
  }

  /** With a layout, the content is handed to the layout as `body` in the
      caller's data, and the layout's rendering is the result; the script
      and the layout are both found in the first of the two view directories. */
  lemma RendersLayout(fs: set<string>, cons: Engines, dir: string, views: string, name: string,
                      layout: string, content: string)
    requires NoDot(name) && name !in fs && HtmlIn(dir, name) in fs
    requires NoDot(layout) && layout != "" && layout !in fs && HtmlIn(dir, layout) in fs
    requires cons(Str("handlebars"), HtmlIn(dir, name), map["layout" := Str(layout)]) == Ok(content)
    ensures var out := RenderSpec(TwoViewOptions(dir, views), name, map["layout" := Str(layout)], fs, cons);
      out.data == map["layout" := Str(layout), "body" := Str(content)] &&
      out.result == Lift(cons(Str("handlebars"), HtmlIn(dir, layout), out.data))
  {
    var data := map["layout" := Str(layout)];
    ReadLayoutOptions(dir, views, layout);
    ResolveHtml(fs, name, dir, views);
    ResolveHtml(fs, layout, dir, views);
    RenderWithLayout(TwoViewOptions(dir, views), name, data, fs, cons, HtmlIn(dir, name), content);
  }

  /** The second directory holds `name`.html and the first does not. */
  lemma ResolveSecond(fs: set<string>, name: string, dir: string, views: string)
    requires NoDot(name) && name !in fs && HtmlIn(dir, name) !in fs && HtmlIn(views, name) in fs
    ensures ResolvePath(fs, name, Several([dir, views]), Some("html")) == Ok(HtmlIn(views, name))
    ensures ResolveProbes(fs, name, Several([dir, views]), Some("html")) == [name, HtmlIn(dir, name), HtmlIn(views, name)]
  {
    var c := Candidates(BaseName(name, Some("html")), [dir, views]);
    HtmlCandidate(name, [dir, views], 0);
    HtmlCandidate(name, [dir, views], 1);
    FirstExistingAt(fs, c, 1);
    assert c[..2] == c;
  }

  lemma ReadMessageOptions(dir: string, views: string, message: string)
    ensures var o := Assign(TwoViewOptions(dir, views), map["message" := Str(message)]);
      WellTyped(o) && TruthyAt(o, "engine") && o["engine"] == Str("handlebars") &&
      !TruthyAt(o, "layout") && ViewsOf(o) == Several([dir, views]) && ExtOf(o) == Some("html")
  {
    var o := TwoViewOptions(dir, views);
    assert Assign(o, map["message" := Str(message)]) == o["message" := Str(message)];
    ReadTwoViewOptions(dir, views);
  }

  /** Extra data keys reach the engine: the script is rendered with the
      caller's `{message}` as its data. */
  lemma RendersViewData(fs: set<string>, cons: Engines, dir: string, views: string, name: string, message: string)
    requires NoDot(name) && name !in fs && HtmlIn(dir, name) !in fs && HtmlIn(views, name) in fs
    ensures var data := map["message" := Str(message)];
      var out := RenderSpec(TwoViewOptions(dir, views), name, data, fs, cons);
      out.data == data &&
      out.result == Lift(cons(Str("handlebars"), HtmlIn(views, name), data))
  {
    var data := map["message" := Str(message)];
    ReadMessageOptions(dir, views, message);
    ResolveSecond(fs, name, dir, views);
    RenderWithoutLayout(TwoViewOptions(dir, views), name, data, fs, cons);
  }

  lemma ReadTitleOptions(dir: string, views: string, layout: string, title: string)
    requires layout != ""
    ensures var o := Assign(TwoViewOptions(dir, views), map["layout" := Str(layout), "title" := Str(title)]);
      WellTyped(o) && TruthyAt(o, "engine") && o["engine"] == Str("handlebars") &&
      TruthyAt(o, "layout") && o["layout"] == Str(layout) && LayoutOf(o) == layout &&
      PlaceholderOf(o) == "body" && ViewsOf(o) == Several([dir, views]) && ExtOf(o) == Some("html")
  {
    var o := TwoViewOptions(dir, views);
    var data := map["layout" := Str(layout), "title" := Str(title)];
    assert Assign(o, data) == o["layout" := Str(layout)]["title" := Str(title)];
    ReadLayoutOptions(dir, views, layout);
  }

  /** The caller's other data keys reach the layout: the layout is rendered
      with `{layout, title}` plus the content under "body". */
  lemma PassesDataToLayout(fs: set<string>, cons: Engines, dir: string, views: string, name: string,
                           layout: string, title: string, content: string)
    requires NoDot(name) && name !in fs && HtmlIn(dir, name) in fs
    requires NoDot(layout) && layout != "" && layout !in fs && HtmlIn(dir, layout) in fs
    requires cons(Str("handlebars"), HtmlIn(dir, name), map["layout" := Str(layout), "title" := Str(title)]) == Ok(content)
    ensures var out := RenderSpec(TwoViewOptions(dir, views), name, map["layout" := Str(layout), "title" := Str(title)], fs, cons);
      out.data == map["layout" := Str(layout), "title" := Str(title), "body" := Str(content)] &&
      out.result == Lift(cons(Str("handlebars"), HtmlIn(dir, layout), out.data))
  {
    var data := map["layout" := Str(layout), "title" := Str(title)];
    ReadTitleOptions(dir, views, layout, title);
    ResolveHtml(fs, name, dir, views);
    ResolveHtml(fs, layout, dir, views);
    RenderWithLayout(TwoViewOptions(dir, views), name, data, fs, cons, HtmlIn(dir, name), content);
  }
}
