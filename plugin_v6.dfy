/**
 * Revision 6.0.1 (`src/index.ts`, compiled to `lib/index.js` with the same
 * behaviour). On the compiler's `emit` hook the plugin normalises the public
 * path, picks the output directory (falling back to webpack's own instead
 * of throwing), and for every entrypoint that has files sorts them into
 * styles and scripts, turns them into HTML (through the user's
 * `customFormatTags` when it is a function, checked for two non-empty
 * strings, through the templates otherwise), writes each non-empty HTML
 * string when `generateChunksFiles` is set and records the sorted files
 * under the entry's name when `generateChunksManifest` is set. The manifest
 * is not written to disk: it is added to the compilation's assets as
 * `chunks-manifest.json`, which webpack then emits.
 */
module PluginV601 {
  import opened Results
  import opened Webpack
  import opened Tags
  import opened Paths
  import opened ChunksManifest
  import JsString
  import Utils

  const CustomTagsMessage: string := "ChunksWebpackPlugin::customFormatTags return invalid object"

  /** The key of the manifest in `compilation.assets`. */
  const ManifestAssetName: string := "chunks-manifest.json"

  /** `customFormatTags(chunks, files)`: the sorted files and the entry's raw files. */
  type CustomFormat = (Chunks, seq<string>) -> CustomTags

  /** The merged options; `outputPath` is `null` (absent) unless the user gave one. */
  datatype Options = Options(outputPath: Option<string>, fileExtension: string, templateStyle: string, templateScript: string,
                             customFormatTags: FormatTagsOption<CustomFormat>,
                             generateChunksManifest: bool, generateChunksFiles: bool)

  /** The options the user passed, each present or absent; an absent `outputPath` and a `null` one are the same. */
  datatype UserOptions = UserOptions(outputPath: Option<string>, fileExtension: Option<string>, templateStyle: Option<string>,
                                     templateScript: Option<string>, customFormatTags: Option<FormatTagsOption<CustomFormat>>,
                                     generateChunksManifest: Option<bool>, generateChunksFiles: Option<bool>)

  const Defaults: Options := Options(None, ".html", "<link rel=\"stylesheet\" href=\"{{chunk}}\" />",
                                     "<script src=\"{{chunk}}\"></script>", NotAFunction, false, true)

  /** `Object.assign(defaults, options)`: a supplied option replaces its default, an absent one keeps it. */
  function MergeOptions(user: UserOptions): (o: Options)
    ensures o.outputPath == user.outputPath
    ensures o.fileExtension == user.fileExtension.GetOr(".html")
    ensures o.templateStyle == user.templateStyle.GetOr(Defaults.templateStyle)
    ensures o.templateScript == user.templateScript.GetOr(Defaults.templateScript)
    ensures o.customFormatTags == user.customFormatTags.GetOr(NotAFunction)
    ensures o.generateChunksManifest == user.generateChunksManifest.GetOr(false)
    ensures o.generateChunksFiles == user.generateChunksFiles.GetOr(true)
  {
    Options(user.outputPath, user.fileExtension.GetOr(Defaults.fileExtension),
            user.templateStyle.GetOr(Defaults.templateStyle), user.templateScript.GetOr(Defaults.templateScript),
            user.customFormatTags.GetOr(Defaults.customFormatTags),
            user.generateChunksManifest.GetOr(Defaults.generateChunksManifest),
            user.generateChunksFiles.GetOr(Defaults.generateChunksFiles))
  }

  /** `isValidOutputPath`: `!!(outputPath && isAbsolutePath(outputPath))`. */
  predicate IsValidOutputPath(o: Options) {
    o.outputPath.Some? && o.outputPath.value != "" && Utils.IsAbsolutePath(o.outputPath.value)
  }

  /**
   * `getOutputPath`: the custom directory when it is valid, webpack's
   * `output.path` otherwise. Nothing throws: a bad custom path is ignored.
   */
  function OutputPathOf(o: Options, compilationPath: string): (p: string)
    ensures p == compilationPath || (o.outputPath == Some(p) && JsString.IsAbsolute(p))
    ensures IsValidOutputPath(o) <==> o.outputPath.Some? && p == o.outputPath.value && p != "" && JsString.IsAbsolute(p)
  {
    if IsValidOutputPath(o) then o.outputPath.value else compilationPath
  }

  /**
   * `sortsChunksByType`: the files of each extension, as
   * `files.filter(...).map(...)` select and prefix them. This is the list the
   * file-by-file pushes of the older revisions build.
   */
  function SortsChunksByType(publicPath: string, files: seq<string>): Chunks {
    Chunks(Prefixed(publicPath, Select(files, StyleExtension, Utils.GetFileExtension)),
           Prefixed(publicPath, Select(files, ScriptExtension, Utils.GetFileExtension)))
  }

  /** `isValidCustomFormatTagsDatas`: an object with both keys, and neither of them the empty string. */
  predicate IsValidCustomFormatTagsDatas(t: CustomTags) {
    t.TagsObject? && t.styles.Some? && t.scripts.Some? && t.styles.value != "" && t.scripts.value != ""
  }

  /** `getHtmlTags`: the user's tags when `customFormatTags` is a function and they are valid, the templates' otherwise. */
  function HtmlTagsOf(o: Options, chunks: Chunks, files: seq<string>): (r: Result<HtmlTags>)
    ensures r.Err? <==> o.customFormatTags.Function? && !IsValidCustomFormatTagsDatas(o.customFormatTags.format(chunks, files))
    ensures r.Err? ==> r.message == CustomTagsMessage
    ensures r.Ok? && o.customFormatTags.Function? ==>
              var t := o.customFormatTags.format(chunks, files);
              r.value == HtmlTags(t.styles.value, t.scripts.value) && r.value.styles != "" && r.value.scripts != ""
    ensures o.customFormatTags.NotAFunction? ==> r == Ok(FormatTags(chunks, o.templateStyle, o.templateScript))
  {
    match o.customFormatTags
    case Function(format) =>
      var t := format(chunks, files);
      if IsValidCustomFormatTagsDatas(t) then Ok(HtmlTags(t.styles.value, t.scripts.value)) else Utils.SetError(CustomTagsMessage)
    case NotAFunction => Ok(FormatTags(chunks, o.templateStyle, o.templateScript))
  }

  /**
   * The files one entrypoint writes, or the custom-tags error. The tags are
   * computed, and checked, even when `generateChunksFiles` is off.
   */
  function EntryWrites(o: Options, publicPath: string, outputPath: string, e: Entrypoint): (r: Result<seq<FileWrite>>)
    ensures r.Err? <==> HtmlTagsOf(o, SortsChunksByType(publicPath, e.files), e.files).Err?
    ensures r.Ok? && !o.generateChunksFiles ==> r.value == []
    ensures r.Ok? && o.generateChunksFiles
            ==> r.value == NonEmptyTagWrites(outputPath, e.name, o.fileExtension, HtmlTagsOf(o, SortsChunksByType(publicPath, e.files), e.files).value)
  {
    match HtmlTagsOf(o, SortsChunksByType(publicPath, e.files), e.files)
    case Err(message) => Err(message)
    case Ok(tags) => Ok(if o.generateChunksFiles then NonEmptyTagWrites(outputPath, e.name, o.fileExtension, tags) else [])
  }

  /** The manifest after one entrypoint that did not throw: its sorted files under its name when the option is on. */
  function EntryManifest(o: Options, publicPath: string, m: Manifest, e: Entrypoint): Manifest {
    if o.generateChunksManifest then Put(m, e.name, SortsChunksByType(publicPath, e.files)) else m
  }

  /** `entryNames.filter(name => getFiles(name).length)`: the entrypoints that have files, in order. */
  function WithFiles(entrypoints: seq<Entrypoint>): (r: seq<Entrypoint>)
    ensures |r| <= |entrypoints|
    ensures forall e {:trigger e in r} :: e in r <==> e in entrypoints && e.files != []
  {
    if entrypoints == [] then []
    else
      var last := entrypoints[|entrypoints| - 1];
      WithFiles(entrypoints[..|entrypoints| - 1]) + (if last.files != [] then [last] else [])
  }

  /** The filter keeps order: filtering two runs of entrypoints one after the other is filtering each. */
  lemma {:induction false} WithFilesAppend(a: seq<Entrypoint>, b: seq<Entrypoint>)
    ensures WithFiles(a + b) == WithFiles(a) + WithFiles(b)
  {
    if b == [] {
      assert a + b == a;
    } else {
      var init, last := b[..|b| - 1], b[|b| - 1];
      WithFilesAppend(a, init);
      assert (a + b)[..|a + b| - 1] == a + init;
      assert (a + b)[|a + b| - 1] == last;
      var kept := if last.files != [] then [last] else [];
      calc {
        WithFiles(a + b);
        WithFiles(a + init) + kept;
        (WithFiles(a) + WithFiles(init)) + kept;
        { Results.AppendAssoc(WithFiles(a), WithFiles(init), kept); }
        WithFiles(a) + (WithFiles(init) + kept);
        WithFiles(a) + WithFiles(b);
      }
    }
  }

  /** The writes made by a run of entrypoints, the manifest it leaves, and the error that stopped it, if any. */
  datatype Run = Run(writes: seq<FileWrite>, manifest: Manifest, error: Option<string>)

  /**
   * `.map(name => processEntry(name))`: the entrypoints processed in order
   * from manifest `m` until the first one that throws; that one neither
   * writes nor updates the manifest, but those before it keep their updates.
   */
  function RunEntries(o: Options, publicPath: string, outputPath: string, m: Manifest, entries: seq<Entrypoint>): (run: Run)
    ensures run.error.Some? ==> run.error.value == CustomTagsMessage && o.customFormatTags.Function?
  {
    if entries == [] then Run([], m, None)
    else
      var before := RunEntries(o, publicPath, outputPath, m, entries[..|entries| - 1]);
      var e := entries[|entries| - 1];
      if before.error.Some? then before
      else
        match EntryWrites(o, publicPath, outputPath, e)
        case Err(message) => Run(before.writes, before.manifest, Some(message))
        case Ok(writes) => Run(before.writes + writes, EntryManifest(o, publicPath, before.manifest, e), None)
  }

  /** `createChunksManifestFile`: an asset whose source is the manifest's JSON and whose size is its `length`. */
  function ManifestAsset(m: Manifest): (a: Asset)
    ensures a.source == Stringify(m) && a.size == JsString.Utf16Length(a.source)
    ensures |a.source| >= 2 && a.source[0] == '{' && a.source[|a.source| - 1] == '}'
    ensures a.source == "{}" <==> m == []
    ensures |a.source| <= a.size <= 2 * |a.source|
    ensures (forall i :: 0 <= i < |a.source| ==> a.source[i] as int < 0x1_0000) ==> a.size == |a.source|
  {
    var json := Stringify(m);
    assert (forall i :: 0 <= i < |json| ==> json[i] as int < 0x1_0000) ==> JsString.Utf16Length(json) == |json| by {
      if forall i :: 0 <= i < |json| ==> json[i] as int < 0x1_0000 {
        JsString.Utf16LengthOfBmp(json);
      }
    }
    Asset(json, JsString.Utf16Length(json))
  }

  /** Once an entrypoint has thrown, the entrypoints after it change nothing. */
  lemma {:induction false} RunStopsAtFailure(o: Options, publicPath: string, outputPath: string, m: Manifest,
                                             entries: seq<Entrypoint>, k: nat)
    requires k <= |entries|
    requires RunEntries(o, publicPath, outputPath, m, entries[..k]).error.Some?
    ensures RunEntries(o, publicPath, outputPath, m, entries) == RunEntries(o, publicPath, outputPath, m, entries[..k])
  {
    if k < |entries| {
      var init := entries[..|entries| - 1];
      assert init[..k] == entries[..k];
      RunStopsAtFailure(o, publicPath, outputPath, m, init, k);
    } else {
      assert entries[..k] == entries;
    }
  }

  /** A run that did not throw did not throw on any prefix either. */
  lemma PrefixDidNotThrow(o: Options, publicPath: string, outputPath: string, m: Manifest, entries: seq<Entrypoint>, k: nat)
    requires k <= |entries|
    requires RunEntries(o, publicPath, outputPath, m, entries).error.None?
    ensures RunEntries(o, publicPath, outputPath, m, entries[..k]).error.None?
  {
    if RunEntries(o, publicPath, outputPath, m, entries[..k]).error.Some? {
      RunStopsAtFailure(o, publicPath, outputPath, m, entries, k);
    }
  }

  /**
   * One more entrypoint after a run that has not thrown: when it throws, the
   * whole run stops there with the writes and manifest so far; otherwise its
   * writes extend the run and it updates the manifest.
   */
  lemma RunStep(o: Options, publicPath: string, outputPath: string, m: Manifest, entries: seq<Entrypoint>, i: nat,
                start: seq<FileWrite>, mid: seq<FileWrite>, now: seq<FileWrite>, manifest: Manifest, thrown: bool)
    requires i < |entries| && RunEntries(o, publicPath, outputPath, m, entries[..i]).error.None?
    requires mid == start + RunEntries(o, publicPath, outputPath, m, entries[..i]).writes
    requires thrown <==> EntryWrites(o, publicPath, outputPath, entries[i]).Err?
    requires thrown ==> now == mid && manifest == RunEntries(o, publicPath, outputPath, m, entries[..i]).manifest
    requires !thrown ==> now == mid + EntryWrites(o, publicPath, outputPath, entries[i]).value
                         && manifest == EntryManifest(o, publicPath, RunEntries(o, publicPath, outputPath, m, entries[..i]).manifest, entries[i])
    ensures thrown ==> var run := RunEntries(o, publicPath, outputPath, m, entries);
                       run.error.Some? && now == start + run.writes && manifest == run.manifest
    ensures !thrown ==> var run := RunEntries(o, publicPath, outputPath, m, entries[..i + 1]);
                        run.error.None? && now == start + run.writes && manifest == run.manifest
  {
    var effect := EntryWrites(o, publicPath, outputPath, entries[i]);
    var before := RunEntries(o, publicPath, outputPath, m, entries[..i]);
    var after := RunEntries(o, publicPath, outputPath, m, entries[..i + 1]);
    assert after == if effect.Err? then Run(before.writes, before.manifest, Some(effect.message))
                    else Run(before.writes + effect.value, EntryManifest(o, publicPath, before.manifest, entries[i]), None) by {
      assert entries[..i + 1][..i] == entries[..i];
    }
    if thrown {
      RunStopsAtFailure(o, publicPath, outputPath, m, entries, i + 1);
    } else {
      AppendAssoc(start, before.writes, effect.value);
    }
  }

  /** With the default formatting nothing throws. */
  lemma DefaultFormattingNeverFails(o: Options, publicPath: string, outputPath: string, m: Manifest,
                                    entries: seq<Entrypoint>)
    requires o.customFormatTags.NotAFunction?
    ensures RunEntries(o, publicPath, outputPath, m, entries).error.None?
  {
  }

  /**
   * With `generateChunksFiles` off no file is written; with
   * `generateChunksManifest` off the manifest is left as it was. Unlike in
   * revision 3.3, the custom tags are still checked, so a run can still throw.
   */
  lemma {:induction false} OptionsOffLeaveThingsAlone(o: Options, publicPath: string, outputPath: string, m: Manifest,
                                                      entries: seq<Entrypoint>)
    ensures !o.generateChunksFiles ==> RunEntries(o, publicPath, outputPath, m, entries).writes == []
    ensures !o.generateChunksManifest ==> RunEntries(o, publicPath, outputPath, m, entries).manifest == m
  {
    if entries != [] {
      OptionsOffLeaveThingsAlone(o, publicPath, outputPath, m, entries[..|entries| - 1]);
      if !o.generateChunksFiles {
        var before := RunEntries(o, publicPath, outputPath, m, entries[..|entries| - 1]);
        assert before.writes + [] == before.writes;
      }
    }
  }

  /** A malformed custom result throws even when no HTML file is to be written. */
  lemma CustomTagsCheckedWithoutFiles(o: Options, publicPath: string, outputPath: string, m: Manifest, e: Entrypoint)
    requires !o.generateChunksFiles && o.customFormatTags.Function?
    requires !IsValidCustomFormatTagsDatas(o.customFormatTags.format(SortsChunksByType(publicPath, e.files), e.files))
    ensures RunEntries(o, publicPath, outputPath, m, [e]) == Run([], m, Some(CustomTagsMessage))
  {
    assert [e][..0] == [];
  }

  /**
   * Valid custom tags are two non-empty strings, so an entrypoint with
   * `generateChunksFiles` on writes exactly its scripts file and its styles
   * file, with the strings as given.
   */
  lemma ValidCustomTagsWriteBoth(o: Options, publicPath: string, outputPath: string, e: Entrypoint, styles: string, scripts: string)
    requires o.generateChunksFiles && o.customFormatTags.Function?
    requires o.customFormatTags.format(SortsChunksByType(publicPath, e.files), e.files) == TagsObject(Some(styles), Some(scripts))
    requires styles != "" && scripts != ""
    ensures EntryWrites(o, publicPath, outputPath, e).Ok?
    ensures var w := EntryWrites(o, publicPath, outputPath, e).value;
            |w| == 2 && FileWrite(TagFileName(outputPath, e.name, "scripts", o.fileExtension), scripts) in w
            && FileWrite(TagFileName(outputPath, e.name, "styles", o.fileExtension), styles) in w
  {
    assert HtmlTagsOf(o, SortsChunksByType(publicPath, e.files), e.files) == Ok(HtmlTags(styles, scripts));
  }

  /** An entrypoint that has no files is filtered out, so adding one to the run changes nothing. */
  lemma EntriesWithoutFilesSkipped(entrypoints: seq<Entrypoint>, name: string)
    ensures WithFiles(entrypoints + [Entrypoint(name, [])]) == WithFiles(entrypoints)
  {
    var all := entrypoints + [Entrypoint(name, [])];
    assert all[..|all| - 1] == entrypoints;
    assert WithFiles(entrypoints) + [] == WithFiles(entrypoints);
  }

  /**
   * With the default formatting and templates that hold text besides
   * `{{chunk}}`, an entrypoint's styles file is written exactly when it has
   * a `css` file, and its scripts file exactly when it has a `js` file.
   */
  lemma DefaultWritesIffTyped(o: Options, publicPath: string, outputPath: string, e: Entrypoint)
    requires o.customFormatTags.NotAFunction? && o.generateChunksFiles
    requires |o.templateStyle| > |ChunkPlaceholder| && |o.templateScript| > |ChunkPlaceholder|
    ensures var tags := FormatTags(SortsChunksByType(publicPath, e.files), o.templateStyle, o.templateScript);
            var writes := EntryWrites(o, publicPath, outputPath, e).value;
            && (FileWrite(TagFileName(outputPath, e.name, "styles", o.fileExtension), tags.styles) in writes
                <==> exists f :: f in e.files && Utils.GetFileExtension(f) == StyleExtension)
            && (FileWrite(TagFileName(outputPath, e.name, "scripts", o.fileExtension), tags.scripts) in writes
                <==> exists f :: f in e.files && Utils.GetFileExtension(f) == ScriptExtension)
  {
    var tags := FormatTags(SortsChunksByType(publicPath, e.files), o.templateStyle, o.templateScript);
    assert EntryWrites(o, publicPath, outputPath, e) == Ok(NonEmptyTagWrites(outputPath, e.name, o.fileExtension, tags));
    SortsChunksLikePushes(publicPath, e.files);
    TypedNone(publicPath, e.files, StyleExtension, Utils.GetFileExtension);
    TypedNone(publicPath, e.files, ScriptExtension, Utils.GetFileExtension);
  }

  /**
   * A build whose entrypoints have no files processes nothing: no write, no
   * throw, the manifest as it was. The manifest asset is still added when
   * the option is on (`{}` for a first build).
   */
  lemma {:induction false} NoFilesNoWork(o: Options, publicPath: string, outputPath: string, m: Manifest,
                                         entrypoints: seq<Entrypoint>)
    requires forall i :: 0 <= i < |entrypoints| ==> entrypoints[i].files == []
    ensures RunEntries(o, publicPath, outputPath, m, WithFiles(entrypoints)) == Run([], m, None)
  {
    if entrypoints != [] {
      var init := entrypoints[..|entrypoints| - 1];
      NoFilesNoWork(o, publicPath, outputPath, m, init);
      assert WithFiles(entrypoints) == WithFiles(init) + [];
      assert WithFiles(init) + [] == WithFiles(init);
    }
  }

  /** A name no processed entrypoint carries keeps its manifest entry, whatever the run did. */
  lemma {:induction false} ManifestKeepsOthers(o: Options, publicPath: string, outputPath: string, m: Manifest,
                                               entries: seq<Entrypoint>, name: string)
    requires forall i :: 0 <= i < |entries| ==> entries[i].name != name
    ensures Get(RunEntries(o, publicPath, outputPath, m, entries).manifest, name) == Get(m, name)
  {
    if entries != [] {
      var init := entries[..|entries| - 1];
      var e := entries[|entries| - 1];
      ManifestKeepsOthers(o, publicPath, outputPath, m, init, name);
      var before := RunEntries(o, publicPath, outputPath, m, init);
      if o.generateChunksManifest {
        PutGetOther(before.manifest, e.name, SortsChunksByType(publicPath, e.files), name);
      }
    }
  }

  /** In a run that did not throw, the last entrypoint did not throw either and updated the manifest left by the others. */
  lemma LastEntryUpdates(o: Options, publicPath: string, outputPath: string, m: Manifest, entries: seq<Entrypoint>)
    requires entries != [] && RunEntries(o, publicPath, outputPath, m, entries).error.None?
    ensures var before := RunEntries(o, publicPath, outputPath, m, entries[..|entries| - 1]);
            && before.error.None?
            && RunEntries(o, publicPath, outputPath, m, entries).manifest
               == EntryManifest(o, publicPath, before.manifest, entries[|entries| - 1])
  {
  }

  /**
   * With `generateChunksManifest` on and no throw, every processed
   * entrypoint's manifest entry holds its sorted files, unless a later one
   * of the same name replaced it.
   */
  lemma {:induction false} ManifestHoldsEntry(o: Options, publicPath: string, outputPath: string, m: Manifest,
                                              entries: seq<Entrypoint>, i: nat)
    requires o.generateChunksManifest && RunEntries(o, publicPath, outputPath, m, entries).error.None?
    requires i < |entries|
    requires forall j :: i < j < |entries| ==> entries[j].name != entries[i].name
    ensures Get(RunEntries(o, publicPath, outputPath, m, entries).manifest, entries[i].name)
            == Some(SortsChunksByType(publicPath, entries[i].files))
  {
    var init := entries[..|entries| - 1];
    var e := entries[|entries| - 1];
    LastEntryUpdates(o, publicPath, outputPath, m, entries);
    var before := RunEntries(o, publicPath, outputPath, m, init);
    if i == |entries| - 1 {
      PutGet(before.manifest, e.name, SortsChunksByType(publicPath, e.files));
    } else {
      ManifestHoldsEntry(o, publicPath, outputPath, m, init, i);
      PutGetOther(before.manifest, e.name, SortsChunksByType(publicPath, e.files), entries[i].name);
    }
  }

  /** The manifest never stores an entry name twice. */
  lemma {:induction false} ManifestKeysStayUnique(o: Options, publicPath: string, outputPath: string, m: Manifest,
                                                  entries: seq<Entrypoint>)
    requires UniqueKeys(m)
    ensures UniqueKeys(RunEntries(o, publicPath, outputPath, m, entries).manifest)
  {
    if entries != [] {
      var init := entries[..|entries| - 1];
      var e := entries[|entries| - 1];
      ManifestKeysStayUnique(o, publicPath, outputPath, m, init);
      var before := RunEntries(o, publicPath, outputPath, m, init);
      if o.generateChunksManifest {
        PutUnique(before.manifest, e.name, SortsChunksByType(publicPath, e.files));
      }
    }
  }

  /**
   * A file lands in the styles list, prefixed with the public path, exactly
   * when it is one of the entry's files with extension `css`; likewise for
   * scripts and `js`.
   */
  lemma SortedMembership(publicPath: string, files: seq<string>, f: string)
    ensures publicPath + f in SortsChunksByType(publicPath, files).styles <==> f in files && Utils.GetFileExtension(f) == StyleExtension
    ensures publicPath + f in SortsChunksByType(publicPath, files).scripts <==> f in files && Utils.GetFileExtension(f) == ScriptExtension
  {
    PrefixedMembership(publicPath, Select(files, StyleExtension, Utils.GetFileExtension), f);
    PrefixedMembership(publicPath, Select(files, ScriptExtension, Utils.GetFileExtension), f);
    SelectMembership(files, StyleExtension, Utils.GetFileExtension, f);
    SelectMembership(files, ScriptExtension, Utils.GetFileExtension, f);
  }

  /** Filtering and mapping gives what the file-by-file pushes of the older revisions give. */
  lemma SortsChunksLikePushes(publicPath: string, files: seq<string>)
    ensures SortsChunksByType(publicPath, files) == SortChunks(files, publicPath, Utils.GetFileExtension)
  {
    TypedIsPrefixedSelect(publicPath, files, StyleExtension, Utils.GetFileExtension);
    TypedIsPrefixedSelect(publicPath, files, ScriptExtension, Utils.GetFileExtension);
  }

  /** The same prefix in front of every element: `prefix + f` is there exactly when `f` was. */
  lemma PrefixedMembership(prefix: string, xs: seq<string>, f: string)
    ensures prefix + f in Prefixed(prefix, xs) <==> f in xs
  {
    var r := Prefixed(prefix, xs);
    if prefix + f in r {
      var i :| 0 <= i < |r| && r[i] == prefix + f;
      assert (prefix + f)[|prefix|..] == f;
      assert (prefix + xs[i])[|prefix|..] == xs[i];
    }
    if f in xs {
      var i :| 0 <= i < |xs| && xs[i] == f;
      assert r[i] == prefix + f;
    }
  }

  class ChunksWebpackPlugin {
    const options: Options
    /** `this.manifest`: entry name to sorted files, kept from one build to the next. */
    var manifest: Manifest
    /** The compilation of the latest `emit`, `undefined` before the first. */
    var compilation: Compilation?
    var entryNames: seq<string>
    var publicPath: string
    var outputPath: string
    /** The files written so far, in order; a later write to the same path replaces the file's content. */
    var written: seq<FileWrite>

    constructor(user: UserOptions)
      ensures options == MergeOptions(user)
      ensures manifest == [] && written == [] && compilation == null
    {
      options := MergeOptions(user);
      manifest := [];
      compilation := null;
      entryNames := [];
      publicPath := "";
      outputPath := "";
      written := [];
    }

    /**
     * `hookCallback`: remember the compilation and its paths and entry
     * names, process the entrypoints that have files until one throws, then,
     * when none threw and the option is on, add the manifest asset.
     */
    method HookCallback(compilation: Compilation) returns (outcome: Outcome)
      modifies this, compilation
      ensures this.compilation == compilation
      ensures publicPath == WithEndingSlash(compilation.output.publicPath)
      ensures outputPath == OutputPathOf(options, compilation.output.path)
      ensures entryNames == Names(compilation.entrypoints)
      ensures var run := RunEntries(options, publicPath, outputPath, old(manifest), WithFiles(compilation.entrypoints));
              && manifest == run.manifest
              && written == old(written) + run.writes
              && compilation.assets == (if run.error.None? && options.generateChunksManifest
                                        then old(compilation.assets)[ManifestAssetName := ManifestAsset(run.manifest)]
                                        else old(compilation.assets))
              && outcome == if run.error.Some? then Fail(CustomTagsMessage) else Pass
    {
      this.compilation := compilation;
      publicPath := GetPublicPath();
      outputPath := GetOutputPath();
      entryNames := Names(compilation.entrypoints);
      var thrown := ProcessEntries(WithFiles(compilation.entrypoints));
      if thrown {
        return Fail(CustomTagsMessage);
      }
      if options.generateChunksManifest {
        CreateChunksManifestFile();
      }
      outcome := Pass;
    }

    /** `getPublicPath`: `publicPath || ''`, with `/` appended when it is non-empty and lacks one. */
    method GetPublicPath() returns (p: string)
      requires compilation != null
      ensures p == WithEndingSlash(compilation.output.publicPath)
    {
      var configured := compilation.output.publicPath.GetOr("");
      p := configured + (if NeedsEndingSlash(configured) then "/" else "");
    }

    /** `getOutputPath`: the valid custom directory, or webpack's. */
    method GetOutputPath() returns (p: string)
      requires compilation != null
      ensures p == OutputPathOf(options, compilation.output.path)
    {
      if options.outputPath.Some? && options.outputPath.value != "" && Utils.IsAbsolutePath(options.outputPath.value) {
        p := options.outputPath.value;
      } else {
        p := compilation.output.path;
      }
    }

    /** The `map` over the entrypoints with files: each is processed in turn until one throws. */
    method ProcessEntries(entries: seq<Entrypoint>) returns (thrown: bool)
      modifies this`written, this`manifest
      ensures var run := RunEntries(options, publicPath, outputPath, old(manifest), entries);
              && (thrown <==> run.error.Some?)
              && written == old(written) + run.writes
              && manifest == run.manifest
    {
      ghost var start, m := written, manifest;
      ghost var o, pp, op := options, publicPath, outputPath;
      assert entries[..0] == [];
      var i := 0;
      while i < |entries|
        invariant 0 <= i <= |entries|
        invariant o == options && pp == publicPath && op == outputPath
        invariant RunEntries(o, pp, op, m, entries[..i]).error.None?
        invariant written == start + RunEntries(o, pp, op, m, entries[..i]).writes
        invariant manifest == RunEntries(o, pp, op, m, entries[..i]).manifest
      {
        ghost var mid := written;
        thrown := ProcessEntry(entries[i]);
        RunStep(o, pp, op, m, entries, i, start, mid, written, manifest, thrown);
        if thrown {
          return;
        }
        i := i + 1;
      }
      assert entries[..i] == entries;
      thrown := false;
    }

    /**
     * `processEntry`: sort the entry's files, get its HTML (which may throw),
     * write it when `generateChunksFiles` is set, record the sorted files
     * when `generateChunksManifest` is set.
     */
    method ProcessEntry(entry: Entrypoint) returns (thrown: bool)
      modifies this`written, this`manifest
      ensures thrown <==> EntryWrites(options, publicPath, outputPath, entry).Err?
      ensures thrown ==> written == old(written) && manifest == old(manifest)
      ensures !thrown ==> written == old(written) + EntryWrites(options, publicPath, outputPath, entry).value
                          && manifest == EntryManifest(options, publicPath, old(manifest), entry)
    {
      var chunks := SortsChunksByType(publicPath, entry.files);
      var htmlTags := GetHtmlTags(chunks, entry.files);
      if htmlTags.Err? {
        return true;
      }
      thrown := false;
      OutputEntry(entry.name, chunks, htmlTags.value);
    }

    /** The two option-gated steps of `processEntry` once the tags exist: write the HTML files, record the sorted files. */
    method OutputEntry(entryName: string, chunks: Chunks, htmlTags: HtmlTags)
      modifies this`written, this`manifest
      ensures written == old(written) + if options.generateChunksFiles
                                        then NonEmptyTagWrites(outputPath, entryName, options.fileExtension, htmlTags) else []
      ensures manifest == if options.generateChunksManifest then Put(old(manifest), entryName, chunks) else old(manifest)
    {
      if options.generateChunksFiles {
        CreateHtmlChunksFiles(entryName, htmlTags);
      } else {
        assert written == written + [];
      }
      if options.generateChunksManifest {
        UpdateManifest(entryName, chunks);
      }
    }

    /** `getHtmlTags`: the user's tags, checked, or the templates' tags. */
    method GetHtmlTags(chunks: Chunks, files: seq<string>) returns (htmlTags: Result<HtmlTags>)
      ensures htmlTags == HtmlTagsOf(options, chunks, files)
    {
      match options.customFormatTags {
        case Function(format) =>
          var t := format(chunks, files);
          if IsValidCustomFormatTagsDatas(t) {
            htmlTags := Ok(HtmlTags(t.styles.value, t.scripts.value));
          } else {
            htmlTags := Utils.SetError(CustomTagsMessage);
          }
        case NotAFunction =>
          htmlTags := Ok(FormatTags(chunks, options.templateStyle, options.templateScript));
      }
    }

    /** `updateManifest`: the entry's key gets a fresh `{styles, scripts}` object; every other key is untouched. */
    method UpdateManifest(entryName: string, chunks: Chunks)
      modifies this`manifest
      ensures manifest == Put(old(manifest), entryName, chunks)
    {
      manifest := Put(manifest, entryName, chunks);
    }

    /** `createChunksManifestFile`: the manifest's JSON becomes the `chunks-manifest.json` asset; other assets stay. */
    method CreateChunksManifestFile()
      requires compilation != null
      modifies compilation
      ensures compilation.assets == old(compilation.assets)[ManifestAssetName := ManifestAsset(manifest)]
    {
      var output := Stringify(manifest);
      compilation.assets := compilation.assets[ManifestAssetName := Asset(output, JsString.Utf16Length(output))];
    }

    /** `createHtmlChunksFiles`: the scripts file, then the styles file, each only for a non-empty HTML string. */
    method CreateHtmlChunksFiles(entryName: string, htmlTags: HtmlTags)
      modifies this`written
      ensures written == old(written) + NonEmptyTagWrites(outputPath, entryName, options.fileExtension, htmlTags)
    {
      if |htmlTags.scripts| > 0 {
        written := written + [FileWrite(TagFileName(outputPath, entryName, "scripts", options.fileExtension), htmlTags.scripts)];
      }
      if |htmlTags.styles| > 0 {
        written := written + [FileWrite(TagFileName(outputPath, entryName, "styles", options.fileExtension), htmlTags.styles)];
      }
    }
  }
}
