/** The view renderer: resolves a logical script name to a file through an
    ordered list of view directories, renders it with a template engine and,
    when a layout is configured, renders the layout around the result.

    The filesystem is the set of paths that exist; every existence check is
    recorded as a `Probe` event and every engine invocation as an `Invoke`
    event, so the order in which the renderer consults them can be stated. */
module ViewRenderer {
  import opened Values
  import opened Paths

  /** The errors `render` and `pathForScript` throw, and the engine's own
      failures, which `render` passes on unchanged. */
  datatype Error =
    | EngineNotFound
    | UnresolvedScript(script: string)
    | EngineFailure(reason: string)

  /** The text of each error. */
  function Message(e: Error): string {
    match e
    case EngineNotFound => "Template Engine is not found in options."
    case UnresolvedScript(script) => "Unable to resolve script path: " + script
    case EngineFailure(reason) => reason
  }

  /** The two messages `render` raises itself differ, and the resolution
      message names the script: the script can be read back from it. */
  lemma MessageNamesScript(script: string, other: string)
    ensures var m := Message(UnresolvedScript(script));
      m[..31] == "Unable to resolve script path: " && m[31..] == script
    ensures Message(EngineNotFound) != Message(UnresolvedScript(script))
    ensures Message(UnresolvedScript(script)) == Message(UnresolvedScript(other)) ==> script == other
  {
    var m := Message(UnresolvedScript(script));
    assert m[0] == 'U' && Message(EngineNotFound)[0] == 'T';
    if m == Message(UnresolvedScript(other)) {
      assert script == m[31..] == Message(UnresolvedScript(other))[31..] == other;
    }
  }

  /** The `dirs` argument of `pathForScript`: one directory or an array of
      them. A falsy directory (undefined, null, "") is written "". */
  datatype Dirs = Single(dir: string) | Several(dirs: seq<string>)

  /** The template engines: `cons[engine](file, data)` renders `file` with
      `data`, or fails with a reason. */
  type Engines = (Value, string, Props) -> Result<string, string>

  /** What the renderer asked of its collaborators, in order. */
  datatype Event =
    | Probe(path: string)
    | Invoke(engine: Value, file: string, data: Props)

  /** The outcome of one `render` call: its result, the caller's data object
      afterwards, and the events it caused. */
  datatype Rendered = Rendered(result: Result<string, Error>, data: Props, events: seq<Event>)

  // ---------------------------------------------------------------------
  // Path resolution

  /** The directories searched, in order: a single directory is searched
      as a list of one. */
  function DirList(dirs: Dirs): seq<string> {
    match dirs
    case Single(d) => [d]
    case Several(ds) => ds
  }

  /** The extension appended to a script without one: `ext` defaults to
      'html' and gets a '.' in front unless it already starts with one. */
  function NormalizeExt(ext: Option<string>): (r: string)
    ensures r != "" && r[0] == '.'
    ensures var e := if ext.Some? then ext.value else "html";
      |e| <= |r| <= |e| + 1 && r[|r| - |e|..] == e &&
      (e != "" && e[0] == '.' ==> r == e)
  {
    var e := if ext.Some? then ext.value else "html";
    if e == "" || e[0] != '.' then "." + e else e
  }

  /** The file name looked for in each directory: `script` itself when it
      has an extension, `script` plus the normalised extension otherwise. */
  function BaseName(script: string, ext: Option<string>): string {
    if HasExtension(script) then script else script + NormalizeExt(ext)
  }

  /** The path tried for `script` under `dir`. */
  function Candidate(script: string, ext: Option<string>, dir: string): string {
    Format(dir, BaseName(script, ext))
  }

  /** The path tried under each directory for the file name `base`, in
      directory order. */
  function Candidates(base: string, dirs: seq<string>): (r: seq<string>)
    ensures |r| == |dirs|
  {
    if dirs == [] then [] else [Format(dirs[0], base)] + Candidates(base, dirs[1..])
  }

  lemma {:induction false} CandidatesAt(base: string, dirs: seq<string>, i: nat)
    requires i < |dirs|
    ensures Candidates(base, dirs)[i] == Format(dirs[i], base)
  {
    if i > 0 {
      CandidatesAt(base, dirs[1..], i - 1);
    }
  }

  /** The index of the first of `paths` that exists, if any. */
  function FirstExisting(fs: set<string>, paths: seq<string>): (r: Option<nat>)
    ensures r.Some? ==> r.value < |paths| && paths[r.value] in fs
    ensures r.Some? ==> forall j :: 0 <= j < r.value ==> paths[j] !in fs
    ensures r.None? <==> forall j :: 0 <= j < |paths| ==> paths[j] !in fs
  {
    if paths == [] then None
    else if paths[0] in fs then Some(0)
    else match FirstExisting(fs, paths[1..])
      case None => None
      case Some(k) => Some(k + 1)
  }

  /** The paths checked by a search that stops at the first one that exists. */
  function ProbedUntilFound(fs: set<string>, paths: seq<string>): seq<string> {
    match FirstExisting(fs, paths)
    case Some(k) => paths[..k + 1]
    case None => paths
  }

  /** What `pathForScript(script, dirs, ext)` returns or throws. */
  function ResolvePath(fs: set<string>, script: string, dirs: Dirs, ext: Option<string>): Result<string, Error> {
    if script in fs then Ok(script)
    else
      var c := Candidates(BaseName(script, ext), DirList(dirs));
      match FirstExisting(fs, c)
      case Some(k) => Ok(c[k])
      case None => Err(UnresolvedScript(script))
  }

  /** The paths whose existence `pathForScript(script, dirs, ext)` checks, in order. */
  function ResolveProbes(fs: set<string>, script: string, dirs: Dirs, ext: Option<string>): seq<string> {
    if script in fs then [script]
    else [script] + ProbedUntilFound(fs, Candidates(BaseName(script, ext), DirList(dirs)))
  }

  function ProbeEvents(paths: seq<string>): (r: seq<Event>)
    ensures |r| == |paths| && forall i :: 0 <= i < |paths| ==> r[i] == Probe(paths[i])
  {
    seq(|paths|, i requires 0 <= i < |paths| => Probe(paths[i]))
  }

  lemma FirstExistingAt(fs: set<string>, paths: seq<string>, i: nat)
    requires i < |paths| && paths[i] in fs
    requires forall j :: 0 <= j < i ==> paths[j] !in fs
    ensures FirstExisting(fs, paths) == Some(i)
  {
    var r := FirstExisting(fs, paths);
    assert r.Some?;
    assert !(r.value < i);
  }

  lemma ResolveFound(fs: set<string>, script: string, dirs: Dirs, ext: Option<string>, k: nat)
    requires script !in fs
    requires FirstExisting(fs, Candidates(BaseName(script, ext), DirList(dirs))) == Some(k)
    ensures var c := Candidates(BaseName(script, ext), DirList(dirs));
      ResolvePath(fs, script, dirs, ext) == Ok(c[k]) &&
      ResolveProbes(fs, script, dirs, ext) == [script] + c[..k + 1]
  {
  }

  lemma ResolveNotFound(fs: set<string>, script: string, dirs: Dirs, ext: Option<string>)
    requires script !in fs
    requires FirstExisting(fs, Candidates(BaseName(script, ext), DirList(dirs))) == None
    ensures ResolvePath(fs, script, dirs, ext) == Err(UnresolvedScript(script))
    ensures ResolveProbes(fs, script, dirs, ext) == [script] + Candidates(BaseName(script, ext), DirList(dirs))
  {
  }

  lemma BaseNameNonEmpty(script: string, ext: Option<string>)
    ensures BaseName(script, ext) != ""
  {
    if HasExtension(script) {
      ExtensionNeedsText(script);
    }
  }

  /** The search checks the script first, and the last path it checks is
      the one it returns. */
  lemma ProbesEndAtResult(fs: set<string>, script: string, dirs: Dirs, ext: Option<string>)
    ensures var p := ResolveProbes(fs, script, dirs, ext);
      p != [] && p[0] == script &&
      (ResolvePath(fs, script, dirs, ext).Ok? ==> p[|p| - 1] == ResolvePath(fs, script, dirs, ext).value)
  {
    if script !in fs {
      var c := Candidates(BaseName(script, ext), DirList(dirs));
      var found := FirstExisting(fs, c);
      if found.Some? {
        var k := found.value;
        assert ProbedUntilFound(fs, c) == c[..k + 1];
        assert ResolvePath(fs, script, dirs, ext) == Ok(c[k]);
      }
    }
  }

  // ---------------------------------------------------------------------
  // Render options

  /** A value usable where a path string is expected: a string, or a falsy
      value, which the renderer treats as absent. */
  predicate PathLike(v: Value) {
    !Truthy(v) || v.Str?
  }

  /** The documented types of the options `render` reads: `views` a path or
      an array of paths, `ext` a string, `layout` and
      `layoutContentPlaceholder` strings when they are set. */
  predicate WellTyped(opts: Props) {
    && ("views" in opts ==>
          PathLike(opts["views"]) ||
          (opts["views"].List? && forall v :: v in opts["views"].items ==> PathLike(v)))
    && ("ext" in opts ==> opts["ext"].Str?)
    && ("layout" in opts ==> PathLike(opts["layout"]))
    && ("layoutContentPlaceholder" in opts ==> PathLike(opts["layoutContentPlaceholder"]))
  }

  function DirOf(v: Value): string {
    if v.Str? then v.s else ""
  }

  /** `options.views` as the `dirs` argument. */
  function ViewsOf(opts: Props): Dirs {
    if "views" !in opts then Single("")
    else match opts["views"]
      case List(items) => Several(seq(|items|, i requires 0 <= i < |items| => DirOf(items[i])))
      case v => Single(DirOf(v))
  }

  /** How `views` is read: absent or falsy means the one directory "",
      a string is the one directory it names, and an array gives one
      directory per item: the string it holds, "" for any other item. */
  lemma ReadViews(opts: Props)
    requires WellTyped(opts)
    ensures "views" !in opts || !Truthy(opts["views"]) ==> ViewsOf(opts) == Single("")
    ensures "views" in opts && opts["views"].Str? ==> ViewsOf(opts) == Single(opts["views"].s)
    ensures "views" in opts && opts["views"].List? ==>
      var items := opts["views"].items;
      var r := ViewsOf(opts);
      r.Several? && |r.dirs| == |items| &&
      forall i :: 0 <= i < |items| ==> r.dirs[i] == (if items[i].Str? then items[i].s else "")
  {
  }

  /** `options.ext` as the `ext` argument; absent means the default. */
  function ExtOf(opts: Props): Option<string> {
    if "ext" in opts && opts["ext"].Str? then Some(opts["ext"].s) else None
  }

  /** The data key the content is stored under for the layout: the
      configured placeholder when it is set, "body" otherwise. */
  function PlaceholderOf(opts: Props): (r: string)
    ensures r != ""
    ensures !TruthyAt(opts, "layoutContentPlaceholder") ==> r == "body"
    ensures TruthyAt(opts, "layoutContentPlaceholder") && opts["layoutContentPlaceholder"].Str? ==>
      r == opts["layoutContentPlaceholder"].s
  {
    if TruthyAt(opts, "layoutContentPlaceholder") && opts["layoutContentPlaceholder"].Str?
    then opts["layoutContentPlaceholder"].s
    else "body"
  }

  /** `options.layout`, when set. */
  function LayoutOf(opts: Props): (r: string)
    ensures TruthyAt(opts, "layout") && opts["layout"].Str? ==> r == opts["layout"].s && r != ""
  {
    if "layout" in opts && opts["layout"].Str? then opts["layout"].s else ""
  }

  // ---------------------------------------------------------------------
  // Render orchestration

  /** The engine's outcome as `render` reports it: a rejection becomes an
      `EngineFailure`. */
  function Lift(outcome: Result<string, string>): Result<string, Error> {
    match outcome
    case Ok(text) => Ok(text)
    case Err(reason) => Err(EngineFailure(reason))
  }

  /** One engine step of `render`: resolve `script`, then run the engine on
      the file with `data`. */
  function RenderStep(fs: set<string>, cons: Engines, engine: Value, script: string, views: Dirs,
                      ext: Option<string>, data: Props): (Result<string, Error>, seq<Event>)
  {
    var probes := ProbeEvents(ResolveProbes(fs, script, views, ext));
    match ResolvePath(fs, script, views, ext)
    case Err(e) => (Err(e), probes)
    case Ok(file) =>
      (Lift(cons(engine, file, data)), probes + [Invoke(engine, file, data)])
  }

  /** What `render(script, data)` does on a renderer whose options are `options`. */
  function RenderSpec(options: Props, script: string, data: Props, fs: set<string>, cons: Engines): Rendered
    requires WellTyped(Assign(options, data))
  {
    var opts := Assign(options, data);
    if !TruthyAt(opts, "engine") then Rendered(Err(EngineNotFound), data, [])
    else
      var engine := opts["engine"];
      var (content, first) := RenderStep(fs, cons, engine, script, ViewsOf(opts), ExtOf(opts), data);
      if content.Err? || !TruthyAt(opts, "layout") then Rendered(content, data, first)
      else
        var data' := data[PlaceholderOf(opts) := Str(content.value)];
        var (page, second) := RenderStep(fs, cons, engine, LayoutOf(opts), ViewsOf(opts), ExtOf(opts), data');
        Rendered(page, data', first + second)
  }

  /** The caller's data object, which `render` writes the content into. */
  class DataObject {
    var props: Props

    constructor (props: Props)
      ensures this.props == props
    {
      this.props := props;
    }
  }

  class Renderer {
    var options: Props

    constructor (options: Props)
      ensures this.options == options
    {
      this.options := options;
    }

    /** Resolves `script` against `dirs`, returning the path found and the
        paths whose existence it checked, in order. */
    method PathForScript(fs: set<string>, script: string, dirs: Dirs, ext: Option<string>)
      returns (r: Result<string, Error>, probes: seq<string>)
      ensures r == ResolvePath(fs, script, dirs, ext)
      ensures probes == ResolveProbes(fs, script, dirs, ext)
    {
      probes := [script];
      if script in fs {
        return Ok(script), probes;
      }
      var list := DirList(dirs);
      var base := BaseName(script, ext);
      ghost var c := Candidates(base, list);
      BaseNameNonEmpty(script, ext);
      var filepath: Option<string> := None;
      var i := 0;
      while i < |list|
        invariant 0 <= i <= |list|
        invariant filepath == None
        invariant forall j :: 0 <= j < i ==> c[j] !in fs
        invariant probes == [script] + c[..i]
      {
        var candidate := Format(list[i], base);
        CandidatesAt(base, list, i);
        probes := probes + [candidate];
        assert c[..i + 1] == c[..i] + [c[i]];
        if candidate in fs {
          FormatNonEmpty(list[i], base);
          filepath := Some(candidate);
          FirstExistingAt(fs, c, i);
          break;
        }
        i := i + 1;
      }
      if filepath == None || filepath == Some("") {
        assert i == |c|;
        assert c[..i] == c;
        ResolveNotFound(fs, script, dirs, ext);
        return Err(UnresolvedScript(script)), probes;
      }
      ResolveFound(fs, script, dirs, ext, i);
      r := Ok(filepath.value);
    }

    /** Renders `script` with the caller's `data`, then the layout around it
        when one is configured. */
    method Render(script: string, data: DataObject, fs: set<string>, cons: Engines)
      returns (r: Result<string, Error>, events: seq<Event>)
      requires WellTyped(Assign(options, data.props))
      modifies data
      ensures Rendered(r, data.props, events) == RenderSpec(options, script, old(data.props), fs, cons)
      ensures unchanged(this)
    {
      var opts := Assign(options, data.props);
      if !TruthyAt(opts, "engine") {
        return Err(EngineNotFound), [];
      }
      var engine := opts["engine"];

      // the script's own content, rendered with the caller's data
      ghost var first := RenderStep(fs, cons, engine, script, ViewsOf(opts), ExtOf(opts), data.props);
      var filename, probes := PathForScript(fs, script, ViewsOf(opts), ExtOf(opts));
      events := ProbeEvents(probes);
      if filename.Err? {
        assert first == (Err(filename.error), events);
        return Err(filename.error), events;
      }
      events := events + [Invoke(engine, filename.value, data.props)];
      var content := cons(engine, filename.value, data.props);
      if content.Err? {
        assert first == (Err(EngineFailure(content.error)), events);
        return Err(EngineFailure(content.error)), events;
      }
      assert first == (Ok(content.value), events);

      // a configured layout is rendered around that content
      if TruthyAt(opts, "layout") {
        data.props := data.props[PlaceholderOf(opts) := Str(content.value)];
        ghost var second := RenderStep(fs, cons, engine, LayoutOf(opts), ViewsOf(opts), ExtOf(opts), data.props);
        ghost var before := events;
        filename, probes := PathForScript(fs, LayoutOf(opts), ViewsOf(opts), ExtOf(opts));
        ghost var after := ProbeEvents(probes);
        events := events + ProbeEvents(probes);
        if filename.Err? {
          assert second == (Err(filename.error), after);
          return Err(filename.error), events;
        }
        after := after + [Invoke(engine, filename.value, data.props)];
        events := events + [Invoke(engine, filename.value, data.props)];
        assert events == before + after;
        content := cons(engine, filename.value, data.props);
        if content.Err? {
          assert second == (Err(EngineFailure(content.error)), after);
          return Err(EngineFailure(content.error)), events;
        }
        assert second == (Ok(content.value), after);
      }
      r := Ok(content.value);
    }
  }
}
