/** What path resolution and rendering promise, stated over the
    specification functions of `ViewRenderer`. */
module RendererProperties {
  import opened Values
  import opened Paths
  import opened ViewRenderer

  // ---------------------------------------------------------------------
  // Path resolution

  /** A script that already names an existing path comes back unchanged,
      after one existence check, whatever the directories and extension. */
  lemma ExistingScriptReturnedAsIs(fs: set<string>, script: string, dirs: Dirs, ext: Option<string>,
                                   dirs': Dirs, ext': Option<string>)
    requires script in fs
    ensures ResolvePath(fs, script, dirs, ext) == Ok(script)
    ensures ResolveProbes(fs, script, dirs, ext) == [script]
    ensures ResolvePath(fs, script, dirs, ext) == ResolvePath(fs, script, dirs', ext')
  {
  }

  /** A single directory behaves exactly like the one-element list holding it. */
  lemma SingleDirectoryIsList(fs: set<string>, script: string, dir: string, ext: Option<string>)
    ensures ResolvePath(fs, script, Single(dir), ext) == ResolvePath(fs, script, Several([dir]), ext)
    ensures ResolveProbes(fs, script, Single(dir), ext) == ResolveProbes(fs, script, Several([dir]), ext)
  {
  }

  /** The extension defaults to "html" and gets one leading '.', so
      "html", ".html" and no extension at all give the same file names. */
  lemma DefaultExtension(script: string)
    ensures NormalizeExt(None) == ".html"
    ensures NormalizeExt(Some("html")) == ".html" && NormalizeExt(Some(".html")) == ".html"
    ensures BaseName(script, None) == BaseName(script, Some("html")) == BaseName(script, Some(".html"))
  {
  }

  /** A script without an extension is looked for as `dir/script` plus the
      normalised extension in every directory. */
  lemma CandidatesWithoutExtension(script: string, ext: Option<string>, dirs: seq<string>)
    requires !HasExtension(script)
    ensures var c := Candidates(BaseName(script, ext), dirs);
      |c| == |dirs| &&
      forall i :: 0 <= i < |dirs| ==> c[i] == Format(dirs[i], script + NormalizeExt(ext))
  {
    forall i | 0 <= i < |dirs|
      ensures Candidates(BaseName(script, ext), dirs)[i] == Format(dirs[i], script + NormalizeExt(ext))
    {
      CandidatesAt(BaseName(script, ext), dirs, i);
    }
  }

  /** The file name a script without an extension is looked for under, as
      the options configure it: ".html" is appended when `ext` is not set,
      `ext` itself when it starts with '.', and '.' plus `ext` otherwise. */
  lemma ExtensionFromOptions(options: Props, data: Props, script: string)
    requires WellTyped(Assign(options, data)) && !HasExtension(script)
    ensures var opts := Assign(options, data);
      var name := BaseName(script, ExtOf(opts));
      ("ext" !in opts ==> name == script + ".html") &&
      ("ext" in opts && opts["ext"].s != "" && opts["ext"].s[0] == '.' ==> name == script + opts["ext"].s) &&
      ("ext" in opts && (opts["ext"].s == "" || opts["ext"].s[0] != '.') ==> name == script + "." + opts["ext"].s)
  {
  }

  /** A script with an extension is looked for as `dir/script`: the
      extension argument plays no part. */
  lemma CandidatesWithExtension(script: string, ext: Option<string>, ext': Option<string>, dirs: seq<string>)
    requires HasExtension(script)
    ensures Candidates(BaseName(script, ext), dirs) == Candidates(BaseName(script, ext'), dirs)
    ensures forall i :: 0 <= i < |dirs| ==> Candidates(BaseName(script, ext), dirs)[i] == Format(dirs[i], script)
  {
    forall i | 0 <= i < |dirs|
      ensures Candidates(BaseName(script, ext), dirs)[i] == Format(dirs[i], script)
    {
      CandidatesAt(BaseName(script, ext), dirs, i);
    }
  }

  /** The result is the script itself when it exists, otherwise the
      candidate under the earliest directory whose candidate exists; the
      search checks nothing after that hit. */
  lemma ResolveFirstHit(fs: set<string>, script: string, dirs: Dirs, ext: Option<string>)
    requires ResolvePath(fs, script, dirs, ext).Ok?
    ensures var p := ResolvePath(fs, script, dirs, ext).value;
      p in fs &&
      (script in fs ==> p == script) &&
      (script !in fs ==>
        var ds := DirList(dirs);
        exists k :: 0 <= k < |ds| &&
          p == Candidate(script, ext, ds[k]) &&
          (forall j :: 0 <= j < k ==> Candidate(script, ext, ds[j]) !in fs) &&
          ResolveProbes(fs, script, dirs, ext) == [script] + Candidates(BaseName(script, ext), ds[..k + 1]))
  {
    if script !in fs {
      var ds := DirList(dirs);
      var c := Candidates(BaseName(script, ext), ds);
      var k := FirstExisting(fs, c).value;
      CandidatesAt(BaseName(script, ext), ds, k);
      forall j | 0 <= j < k
        ensures Candidate(script, ext, ds[j]) !in fs
      {
        CandidatesAt(BaseName(script, ext), ds, j);
      }
      CandidatesPrefix(BaseName(script, ext), ds, k + 1);
    }
  }

  /** Resolution fails exactly when neither the script nor any candidate
      exists (so always for an empty directory list and a missing script),
      after checking every candidate; the error names the script. */
  lemma ResolveFailure(fs: set<string>, script: string, dirs: Dirs, ext: Option<string>)
    ensures var r := ResolvePath(fs, script, dirs, ext);
      var ds := DirList(dirs);
      (r.Err? <==> script !in fs && forall i :: 0 <= i < |ds| ==> Candidate(script, ext, ds[i]) !in fs) &&
      (r.Err? ==> r.error == UnresolvedScript(script) &&
                  Message(r.error) == "Unable to resolve script path: " + script &&
                  ResolveProbes(fs, script, dirs, ext) == [script] + Candidates(BaseName(script, ext), ds))
  {
    var ds := DirList(dirs);
    var c := Candidates(BaseName(script, ext), ds);
    forall i | 0 <= i < |ds|
      ensures c[i] == Candidate(script, ext, ds[i])
    {
      CandidatesAt(BaseName(script, ext), ds, i);
    }
  }

  /** Directories after the first one that holds the script change neither
      the result nor the paths checked: earlier directories shadow later ones. */
  lemma LaterDirectoriesIgnored(fs: set<string>, script: string, first: seq<string>, rest: seq<string>,
                                ext: Option<string>)
    requires ResolvePath(fs, script, Several(first), ext).Ok?
    ensures ResolvePath(fs, script, Several(first + rest), ext) == ResolvePath(fs, script, Several(first), ext)
    ensures ResolveProbes(fs, script, Several(first + rest), ext) == ResolveProbes(fs, script, Several(first), ext)
  {
    if script !in fs {
      var c1 := Candidates(BaseName(script, ext), first);
      var c := Candidates(BaseName(script, ext), first + rest);
      CandidatesAppend(BaseName(script, ext), first, rest);
      var k := FirstExisting(fs, c1).value;
      FirstExistingAt(fs, c, k);
      assert c[..k + 1] == c1[..k + 1];
    }
  }

  lemma {:induction false} CandidatesAppend(base: string, first: seq<string>, rest: seq<string>)
    ensures Candidates(base, first + rest) == Candidates(base, first) + Candidates(base, rest)
  {
    if first != [] {
      assert (first + rest)[0] == first[0];
      assert (first + rest)[1..] == first[1..] + rest;
      CandidatesAppend(base, first[1..], rest);
      calc {
        Candidates(base, first + rest);
        [Format(first[0], base)] + Candidates(base, first[1..] + rest);
        [Format(first[0], base)] + (Candidates(base, first[1..]) + Candidates(base, rest));
        ([Format(first[0], base)] + Candidates(base, first[1..])) + Candidates(base, rest);
      }
    } else {
      assert first + rest == rest;
    }
  }

  lemma CandidatesPrefix(base: string, dirs: seq<string>, n: nat)
    requires n <= |dirs|
    ensures Candidates(base, dirs)[..n] == Candidates(base, dirs[..n])
  {
    CandidatesAppend(base, dirs[..n], dirs[n..]);
    assert dirs[..n] + dirs[n..] == dirs;
  }

  // ---------------------------------------------------------------------
  // Rendering

  /** The engine invocations among `events`, in order. */
  function Invocations(events: seq<Event>): (r: seq<Event>)
    ensures |r| <= |events|
    ensures forall e :: e in r ==> e.Invoke? && e in events
    ensures forall i :: 0 <= i < |events| && events[i].Invoke? ==> events[i] in r
  {
    if events == [] then []
    else (if events[0].Invoke? then [events[0]] else []) + Invocations(events[1..])
  }

  lemma {:induction false} InvocationsAppend(a: seq<Event>, b: seq<Event>)
    ensures Invocations(a + b) == Invocations(a) + Invocations(b)
  {
    if a != [] {
      assert (a + b)[0] == a[0];
      assert (a + b)[1..] == a[1..] + b;
      InvocationsAppend(a[1..], b);
      var head := if a[0].Invoke? then [a[0]] else [];
      calc {
        Invocations(a + b);
        head + Invocations(a[1..] + b);
        head + (Invocations(a[1..]) + Invocations(b));
        (head + Invocations(a[1..])) + Invocations(b);
      }
    } else {
      assert a + b == b;
    }
  }

  lemma {:induction false} NoInvocationsInProbes(paths: seq<string>)
    ensures Invocations(ProbeEvents(paths)) == []
  {
    if paths != [] {
      assert ProbeEvents(paths)[1..] == ProbeEvents(paths[1..]);
      NoInvocationsInProbes(paths[1..]);
    }
  }

  /** Without a truthy `engine` in the merged options, `render` fails before
      resolving anything or invoking any engine, and leaves `data` alone. */
  lemma RenderWithoutEngine(options: Props, script: string, data: Props, fs: set<string>, cons: Engines)
    requires WellTyped(Assign(options, data))
    requires !TruthyAt(Assign(options, data), "engine")
    ensures RenderSpec(options, script, data, fs, cons) == Rendered(Err(EngineNotFound), data, [])
    ensures Message(EngineNotFound) == "Template Engine is not found in options."
  {
  }

  /** `render` fails for want of an engine exactly when the merged options
      have no truthy `engine`, and it changes no key of the caller's data
      other than the placeholder. */
  lemma RenderTouchesOnlyPlaceholder(options: Props, script: string, data: Props, fs: set<string>, cons: Engines)
    requires WellTyped(Assign(options, data))
    ensures var out := RenderSpec(options, script, data, fs, cons);
      var key := PlaceholderOf(Assign(options, data));
      (out.result == Err(EngineNotFound) <==> !TruthyAt(Assign(options, data), "engine")) &&
      out.data.Keys <= data.Keys + {key} &&
      forall k :: k in data && k != key ==> k in out.data && out.data[k] == data[k]
  {
    var opts := Assign(options, data);
    ResolveFailure(fs, script, ViewsOf(opts), ExtOf(opts));
    ResolveFailure(fs, LayoutOf(opts), ViewsOf(opts), ExtOf(opts));
  }

  /** When the script cannot be resolved or its rendering fails, `render`
      fails with that error whether or not a layout is set: the caller's data
      is left as it was and the layout is neither looked for nor rendered. */
  lemma RenderContentFails(options: Props, script: string, data: Props, fs: set<string>, cons: Engines)
    requires WellTyped(Assign(options, data))
    requires var opts := Assign(options, data);
      TruthyAt(opts, "engine") &&
      RenderStep(fs, cons, opts["engine"], script, ViewsOf(opts), ExtOf(opts), data).0.Err?
    ensures var opts := Assign(options, data);
      var (content, steps) := RenderStep(fs, cons, opts["engine"], script, ViewsOf(opts), ExtOf(opts), data);
      RenderSpec(options, script, data, fs, cons) == Rendered(content, data, steps) &&
      (ResolvePath(fs, script, ViewsOf(opts), ExtOf(opts)).Err? ==>
         content == ResolvePath(fs, script, ViewsOf(opts), ExtOf(opts)) &&
         Invocations(steps) == [])
  {
    var opts := Assign(options, data);
    StepCalls(fs, cons, opts["engine"], script, ViewsOf(opts), ExtOf(opts), data);
  }

  /** Per-call data overrides the renderer's options key by key: an
      `engine` given in `data` is the one used. */
  lemma DataEngineWins(options: Props, script: string, data: Props, fs: set<string>, cons: Engines)
    requires WellTyped(Assign(options, data))
    requires "engine" in data && Truthy(data["engine"])
    ensures TruthyAt(Assign(options, data), "engine") && Assign(options, data)["engine"] == data["engine"]
    ensures RenderSpec(options, script, data, fs, cons).result != Err(EngineNotFound)
  {
    var opts := Assign(options, data);
    StepCalls(fs, cons, opts["engine"], script, ViewsOf(opts), ExtOf(opts), data);
    ResolveFailure(fs, script, ViewsOf(opts), ExtOf(opts));
    ResolveFailure(fs, LayoutOf(opts), ViewsOf(opts), ExtOf(opts));
  }

  /** Without a layout, the result is the engine's rendering of the resolved
      script with the caller's own data, which stays as it was. */
  lemma RenderWithoutLayout(options: Props, script: string, data: Props, fs: set<string>, cons: Engines)
    requires WellTyped(Assign(options, data))
    requires TruthyAt(Assign(options, data), "engine") && !TruthyAt(Assign(options, data), "layout")
    ensures var opts := Assign(options, data);
      var out := RenderSpec(options, script, data, fs, cons);
      out.data == data &&
      out.result == match ResolvePath(fs, script, ViewsOf(opts), ExtOf(opts))
                    case Err(e) => Err(e)
                    case Ok(file) => Lift(cons(opts["engine"], file, data))
  {
  }

  /** With a layout, the rendered content is written into the caller's data
      under the placeholder ("body" unless configured), replacing any value
      there, and the result is the engine's rendering of the resolved layout
      with that data. */
  lemma RenderWithLayout(options: Props, script: string, data: Props, fs: set<string>, cons: Engines,
                         file: string, content: string)
    requires WellTyped(Assign(options, data))
    requires TruthyAt(Assign(options, data), "engine") && TruthyAt(Assign(options, data), "layout")
    requires var opts := Assign(options, data);
      ResolvePath(fs, script, ViewsOf(opts), ExtOf(opts)) == Ok(file) &&
      cons(opts["engine"], file, data) == Ok(content)
    ensures var opts := Assign(options, data);
      var out := RenderSpec(options, script, data, fs, cons);
      var key := PlaceholderOf(opts);
      (!TruthyAt(opts, "layoutContentPlaceholder") ==> key == "body") &&
      out.data == data[key := Str(content)] &&
      out.result == match ResolvePath(fs, opts["layout"].s, ViewsOf(opts), ExtOf(opts))
                    case Err(e) => Err(e)
                    case Ok(layoutFile) => Lift(cons(opts["engine"], layoutFile, out.data))
  {
  }

  /** The engine is invoked at most twice: first on the resolved script
      with the caller's data, then, only once that has succeeded and a
      layout is set, on the layout with the content placed in the data.
      A successful render with a layout always makes both calls. */
  lemma RenderCallOrder(options: Props, script: string, data: Props, fs: set<string>, cons: Engines)
    requires WellTyped(Assign(options, data))
    ensures var opts := Assign(options, data);
      var out := RenderSpec(options, script, data, fs, cons);
      var calls := Invocations(out.events);
      |calls| <= 2 &&
      (calls != [] ==>
        TruthyAt(opts, "engine") &&
        calls[0] == Invoke(opts["engine"], calls[0].file, data) &&
        ResolvePath(fs, script, ViewsOf(opts), ExtOf(opts)) == Ok(calls[0].file)) &&
      (|calls| == 2 ==>
        TruthyAt(opts, "layout") &&
        cons(calls[0].engine, calls[0].file, calls[0].data).Ok? &&
        calls[1].engine == calls[0].engine &&
        calls[1].data == data[PlaceholderOf(opts) := Str(cons(calls[0].engine, calls[0].file, calls[0].data).value)] &&
        Ok(calls[1].file) == ResolvePath(fs, LayoutOf(opts), ViewsOf(opts), ExtOf(opts))) &&
      (TruthyAt(opts, "layout") && out.result.Ok? ==> |calls| == 2)
  {
    var opts := Assign(options, data);
    if TruthyAt(opts, "engine") {
      var engine := opts["engine"];
      StepCalls(fs, cons, engine, script, ViewsOf(opts), ExtOf(opts), data);
      var (content, first) := RenderStep(fs, cons, engine, script, ViewsOf(opts), ExtOf(opts), data);
      if content.Ok? && TruthyAt(opts, "layout") {
        var data' := data[PlaceholderOf(opts) := Str(content.value)];
        StepCalls(fs, cons, engine, LayoutOf(opts), ViewsOf(opts), ExtOf(opts), data');
        var (page, second) := RenderStep(fs, cons, engine, LayoutOf(opts), ViewsOf(opts), ExtOf(opts), data');
        InvocationsAppend(first, second);
      }
    }
  }

  /** A step's trace opens with the check of the script itself and, once
      the script resolves, closes with the engine call on the resolved file
      with the given data; a successful step always resolved its script. */
  lemma StepTrace(fs: set<string>, cons: Engines, engine: Value, script: string, views: Dirs,
                  ext: Option<string>, data: Props)
    ensures var (result, events) := RenderStep(fs, cons, engine, script, views, ext, data);
      var resolved := ResolvePath(fs, script, views, ext);
      events != [] && events[0] == Probe(script) &&
      (result.Ok? ==> resolved.Ok?) &&
      (resolved.Ok? ==> events[|events| - 1] == Invoke(engine, resolved.value, data))
  {
    ProbesEndAtResult(fs, script, views, ext);
  }

  /** One step invokes the engine at most once, on the resolved file, and
      only a successful invocation yields text. */
  lemma StepCalls(fs: set<string>, cons: Engines, engine: Value, script: string, views: Dirs,
                  ext: Option<string>, data: Props)
    ensures var (result, events) := RenderStep(fs, cons, engine, script, views, ext, data);
      var calls := Invocations(events);
      var resolved := ResolvePath(fs, script, views, ext);
      (resolved.Err? ==> calls == [] && result == Err(resolved.error)) &&
      (resolved.Ok? ==>
        calls == [Invoke(engine, resolved.value, data)] &&
        result == Lift(cons(engine, resolved.value, data)))
  {
    var probes := ProbeEvents(ResolveProbes(fs, script, views, ext));
    NoInvocationsInProbes(ResolveProbes(fs, script, views, ext));
    var resolved := ResolvePath(fs, script, views, ext);
    if resolved.Ok? {
      InvocationsAppend(probes, [Invoke(engine, resolved.value, data)]);
      assert Invocations([Invoke(engine, resolved.value, data)]) == [Invoke(engine, resolved.value, data)];
    }
  }
}
