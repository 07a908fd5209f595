/**
 * Revision 3.3.0 (`src/index.js`). On the compiler's `done` hook the plugin
 * normalises the public path, picks the output directory (or throws), and
 * for every chunk group that has chunks sorts its files into styles and
 * scripts; when `generateChunksFiles` is set it turns them into HTML
 * (through the user's `customFormatTags` when it is a function, through the
 * templates otherwise) and writes each non-empty HTML string to its file;
 * when `generateChunksManifest` is set it records the sorted chunks under
 * the entry's name. The manifest lives on the plugin object, so it carries
 * over from one build to the next, and after all groups it is written out
 * as JSON.
 */
module PluginV330 {
  import opened Results
  import opened Webpack
  import opened Tags
  import opened Paths
  import opened ChunksManifest
  import opened LoopsV3
  import JsString
  import UtilsV3

  const OutputPathMessage: string := "ChunksWebpackPlugin::outputPath option is invalid"
  const CustomTagsMessage: string := "ChunksWebpackPlugin::customFormatTags return invalid object"

  /** The sentinel value of `outputPath` that selects webpack's own output directory. */
  const DefaultOutputPath: string := "default"

  /** The name of the manifest file inside the output directory. */
  const ManifestFileName: string := "chunks-manifest.json"

  /** `customFormatTags.call(this, chunksSorted, chunkGroup)`. */
  type CustomFormat = (Chunks, ChunkGroup) -> CustomTags

  datatype Options = Options(outputPath: string, fileExtension: string, templateStyle: string, templateScript: string,
                             customFormatTags: FormatTagsOption<CustomFormat>,
                             generateChunksManifest: bool, generateChunksFiles: bool)

  /** The options the user passed, each present or absent. */
  datatype UserOptions = UserOptions(outputPath: Option<string>, fileExtension: Option<string>, templateStyle: Option<string>,
                                     templateScript: Option<string>, customFormatTags: Option<FormatTagsOption<CustomFormat>>,
                                     generateChunksManifest: Option<bool>, generateChunksFiles: Option<bool>)

  const Defaults: Options := Options(DefaultOutputPath, ".html", "<link rel=\"stylesheet\" href=\"{{chunk}}\" />",
                                     "<script src=\"{{chunk}}\"></script>", NotAFunction, false, true)

  /** `Object.assign(defaults, options)`: a supplied option replaces its default, an absent one keeps it. */
  function MergeOptions(user: UserOptions): (o: Options)
    ensures o.outputPath == user.outputPath.GetOr("default")
    ensures o.fileExtension == user.fileExtension.GetOr(".html")
    ensures o.templateStyle == user.templateStyle.GetOr(Defaults.templateStyle)
    ensures o.templateScript == user.templateScript.GetOr(Defaults.templateScript)
    ensures o.customFormatTags == user.customFormatTags.GetOr(NotAFunction)
    ensures o.generateChunksManifest == user.generateChunksManifest.GetOr(false)
    ensures o.generateChunksFiles == user.generateChunksFiles.GetOr(true)
  {
    Options(user.outputPath.GetOr(Defaults.outputPath), user.fileExtension.GetOr(Defaults.fileExtension),
            user.templateStyle.GetOr(Defaults.templateStyle), user.templateScript.GetOr(Defaults.templateScript),
            user.customFormatTags.GetOr(Defaults.customFormatTags),
            user.generateChunksManifest.GetOr(Defaults.generateChunksManifest),
            user.generateChunksFiles.GetOr(Defaults.generateChunksFiles))
  }

  /**
   * `getOutputPath`: `'default'` selects webpack's `output.path`; any other
   * value must pass `isOutputPathValid` (non-empty and absolute), or the
   * hook throws.
   */
  function OutputPathOf(o: Options, compilationPath: string): (r: Result<string>)
    ensures r.Ok? <==> o.outputPath == DefaultOutputPath || UtilsV3.IsOutputPathValid(o.outputPath)
    ensures r.Ok? && o.outputPath == DefaultOutputPath ==> r.value == compilationPath
    ensures r.Ok? && o.outputPath != DefaultOutputPath ==> r.value == o.outputPath
    ensures r.Err? ==> r.message == OutputPathMessage
  {
    ChooseOutputPath(if o.outputPath == DefaultOutputPath then None else Some(o.outputPath), compilationPath, OutputPathMessage)
  }

  /** The HTML of one chunk group, or the error a malformed custom result throws. */
  function GroupTags(o: Options, publicPath: string, g: ChunkGroup): (r: Result<HtmlTags>)
    ensures r.Err? ==> o.customFormatTags.Function? && r.message == CustomTagsMessage
    ensures o.customFormatTags.NotAFunction? ==> r == Ok(FormatTags(Sorted(publicPath, g.chunks), o.templateStyle, o.templateScript))
    ensures o.customFormatTags.Function? ==> r == CheckCustomTags(o.customFormatTags.format(Sorted(publicPath, g.chunks), g), CustomTagsMessage)
  {
    CustomOrTemplateTags(o.customFormatTags, Sorted(publicPath, g.chunks), g, o.templateStyle, o.templateScript, CustomTagsMessage)
  }

  /**
   * The files one chunk group writes: none without chunks or with
   * `generateChunksFiles` off; otherwise each non-empty HTML string, scripts
   * first, or the custom-tags error.
   */
  function GroupWrites(o: Options, publicPath: string, outputPath: string, g: ChunkGroup): (r: Result<seq<FileWrite>>)
    ensures g.chunks == [] || !o.generateChunksFiles ==> r == Ok([])
    ensures r.Err? ==> o.customFormatTags.Function? && r.message == CustomTagsMessage
    ensures r.Err? <==> g.chunks != [] && o.generateChunksFiles && GroupTags(o, publicPath, g).Err?
    ensures r.Ok? && g.chunks != [] && o.generateChunksFiles
            ==> r.value == NonEmptyTagWrites(outputPath, g.name, o.fileExtension, GroupTags(o, publicPath, g).value)
  {
    if g.chunks == [] || !o.generateChunksFiles then Ok([])
    else
      match GroupTags(o, publicPath, g)
      case Err(message) => Err(message)
      case Ok(tags) => Ok(NonEmptyTagWrites(outputPath, g.name, o.fileExtension, tags))
  }

  /** The manifest after one chunk group: its sorted chunks under its name when it has chunks and the option is on. */
  function GroupManifest(o: Options, publicPath: string, m: Manifest, g: ChunkGroup): Manifest {
    if g.chunks != [] && o.generateChunksManifest then Put(m, g.name, Sorted(publicPath, g.chunks)) else m
  }

  /** The writes made by a run of groups, the manifest it leaves, and the error that stopped it, if any. */
  datatype Run = Run(writes: seq<FileWrite>, manifest: Manifest, error: Option<string>)

  /**
   * The chunk groups processed in order from manifest `m` until the first one
   * that throws; that group neither writes nor updates the manifest, but the
   * groups before it keep their updates.
   */
  function RunGroups(o: Options, publicPath: string, outputPath: string, m: Manifest, groups: seq<ChunkGroup>): (run: Run)
    ensures run.error.Some? ==> run.error.value == CustomTagsMessage && o.customFormatTags.Function? && o.generateChunksFiles
  {
    if groups == [] then Run([], m, None)
    else
      var before := RunGroups(o, publicPath, outputPath, m, groups[..|groups| - 1]);
      var g := groups[|groups| - 1];
      if before.error.Some? then before
      else
        match GroupWrites(o, publicPath, outputPath, g)
        case Err(message) => Run(before.writes, before.manifest, Some(message))
        case Ok(writes) => Run(before.writes + writes, GroupManifest(o, publicPath, before.manifest, g), None)
  }

  /** `createChunksManifestFile`: `JSON.stringify(manifest, null, 2)` into `<outputPath>/chunks-manifest.json`. */
  function ManifestWrite(outputPath: string, m: Manifest): (w: FileWrite)
    ensures |w.content| >= 2 && w.content[0] == '{' && w.content[|w.content| - 1] == '}'
    ensures w.content == "{}" <==> m == []
  {
    FileWrite(outputPath + "/" + ManifestFileName, Stringify(m))
  }

  /** Once a group has thrown, the groups after it change nothing. */
  lemma {:induction false} RunStopsAtFailure(o: Options, publicPath: string, outputPath: string, m: Manifest,
                                             groups: seq<ChunkGroup>, k: nat)
    requires k <= |groups|
    requires RunGroups(o, publicPath, outputPath, m, groups[..k]).error.Some?
    ensures RunGroups(o, publicPath, outputPath, m, groups) == RunGroups(o, publicPath, outputPath, m, groups[..k])
  {
    if k < |groups| {
      var init := groups[..|groups| - 1];
      assert init[..k] == groups[..k];
      RunStopsAtFailure(o, publicPath, outputPath, m, init, k);
    } else {
      assert groups[..k] == groups;
    }
  }

  /** A run that did not throw did not throw on any prefix either. */
  lemma PrefixDidNotThrow(o: Options, publicPath: string, outputPath: string, m: Manifest, groups: seq<ChunkGroup>, k: nat)
    requires k <= |groups|
    requires RunGroups(o, publicPath, outputPath, m, groups).error.None?
    ensures RunGroups(o, publicPath, outputPath, m, groups[..k]).error.None?
  {
    if RunGroups(o, publicPath, outputPath, m, groups[..k]).error.Some? {
      RunStopsAtFailure(o, publicPath, outputPath, m, groups, k);
    }
  }

  /**
   * One more group after a run that has not thrown: when it throws, the
   * whole run stops there with the writes and manifest so far; otherwise its
   * writes extend the run and it updates the manifest.
   */
  lemma RunStep(o: Options, publicPath: string, outputPath: string, m: Manifest, groups: seq<ChunkGroup>, i: nat,
                start: seq<FileWrite>, mid: seq<FileWrite>, now: seq<FileWrite>, manifest: Manifest, thrown: bool)
    requires i < |groups| && RunGroups(o, publicPath, outputPath, m, groups[..i]).error.None?
    requires mid == start + RunGroups(o, publicPath, outputPath, m, groups[..i]).writes
    requires thrown <==> GroupWrites(o, publicPath, outputPath, groups[i]).Err?
    requires thrown ==> now == mid && manifest == RunGroups(o, publicPath, outputPath, m, groups[..i]).manifest
    requires !thrown ==> now == mid + GroupWrites(o, publicPath, outputPath, groups[i]).value
                         && manifest == GroupManifest(o, publicPath, RunGroups(o, publicPath, outputPath, m, groups[..i]).manifest, groups[i])
    ensures thrown ==> var run := RunGroups(o, publicPath, outputPath, m, groups);
                       run.error.Some? && now == start + run.writes && manifest == run.manifest
    ensures !thrown ==> var run := RunGroups(o, publicPath, outputPath, m, groups[..i + 1]);
                        run.error.None? && now == start + run.writes && manifest == run.manifest
  {
    var effect := GroupWrites(o, publicPath, outputPath, groups[i]);
    var before := RunGroups(o, publicPath, outputPath, m, groups[..i]);
    var after := RunGroups(o, publicPath, outputPath, m, groups[..i + 1]);
    assert after == if effect.Err? then Run(before.writes, before.manifest, Some(effect.message))
                    else Run(before.writes + effect.value, GroupManifest(o, publicPath, before.manifest, groups[i]), None) by {
      assert groups[..i + 1][..i] == groups[..i];
    }
    if thrown {
      RunStopsAtFailure(o, publicPath, outputPath, m, groups, i + 1);
    } else {
      AppendAssoc(start, before.writes, effect.value);
    }
  }

  /** With the default formatting nothing throws. */
  lemma DefaultFormattingNeverFails(o: Options, publicPath: string, outputPath: string, m: Manifest,
                                    groups: seq<ChunkGroup>)
    requires o.customFormatTags.NotAFunction?
    ensures RunGroups(o, publicPath, outputPath, m, groups).error.None?
  {
  }

  /**
   * With `generateChunksFiles` off, no chunk group writes a file and none
   * throws, even with a malformed `customFormatTags`; with
   * `generateChunksManifest` off, the manifest is left as it was.
   */
  lemma {:induction false} OptionsOffLeaveThingsAlone(o: Options, publicPath: string, outputPath: string, m: Manifest,
                                                      groups: seq<ChunkGroup>)
    ensures !o.generateChunksFiles ==> RunGroups(o, publicPath, outputPath, m, groups).writes == []
                                       && RunGroups(o, publicPath, outputPath, m, groups).error.None?
    ensures !o.generateChunksManifest ==> RunGroups(o, publicPath, outputPath, m, groups).manifest == m
  {
    if groups != [] {
      OptionsOffLeaveThingsAlone(o, publicPath, outputPath, m, groups[..|groups| - 1]);
      if !o.generateChunksFiles {
        var before := RunGroups(o, publicPath, outputPath, m, groups[..|groups| - 1]);
        assert before.writes + [] == before.writes;
      }
    }
  }

  /** A name no group with chunks carries keeps its manifest entry, whatever the run did. */
  lemma {:induction false} ManifestKeepsOthers(o: Options, publicPath: string, outputPath: string, m: Manifest,
                                               groups: seq<ChunkGroup>, name: string)
    requires forall i :: 0 <= i < |groups| && groups[i].chunks != [] ==> groups[i].name != name
    ensures Get(RunGroups(o, publicPath, outputPath, m, groups).manifest, name) == Get(m, name)
  {
    if groups != [] {
      var init := groups[..|groups| - 1];
      var g := groups[|groups| - 1];
      ManifestKeepsOthers(o, publicPath, outputPath, m, init, name);
      var before := RunGroups(o, publicPath, outputPath, m, init);
      if g.chunks != [] && o.generateChunksManifest {
        PutGetOther(before.manifest, g.name, Sorted(publicPath, g.chunks), name);
      }
    }
  }

  /**
   * With `generateChunksManifest` on and no throw, the manifest entry of a
   * group with chunks holds that group's sorted chunks, unless a later group
   * with chunks has the same name and replaced it.
   */
  lemma {:induction false} ManifestHoldsGroup(o: Options, publicPath: string, outputPath: string, m: Manifest,
                                              groups: seq<ChunkGroup>, i: nat)
    requires o.generateChunksManifest && RunGroups(o, publicPath, outputPath, m, groups).error.None?
    requires i < |groups| && groups[i].chunks != []
    requires forall j :: i < j < |groups| && groups[j].chunks != [] ==> groups[j].name != groups[i].name
    ensures Get(RunGroups(o, publicPath, outputPath, m, groups).manifest, groups[i].name) == Some(Sorted(publicPath, groups[i].chunks))
  {
    var init := groups[..|groups| - 1];
    var g := groups[|groups| - 1];
    PrefixDidNotThrow(o, publicPath, outputPath, m, groups, |groups| - 1);
    var before := RunGroups(o, publicPath, outputPath, m, init);
    assert RunGroups(o, publicPath, outputPath, m, groups).manifest == GroupManifest(o, publicPath, before.manifest, g);
    if i == |groups| - 1 {
      PutGet(before.manifest, g.name, Sorted(publicPath, g.chunks));
    } else {
      ManifestHoldsGroup(o, publicPath, outputPath, m, init, i);
      if g.chunks != [] {
        PutGetOther(before.manifest, g.name, Sorted(publicPath, g.chunks), groups[i].name);
      }
    }
  }

  /** The manifest never stores an entry name twice. */
  lemma {:induction false} ManifestKeysStayUnique(o: Options, publicPath: string, outputPath: string, m: Manifest,
                                                  groups: seq<ChunkGroup>)
    requires UniqueKeys(m)
    ensures UniqueKeys(RunGroups(o, publicPath, outputPath, m, groups).manifest)
  {
    if groups != [] {
      var init := groups[..|groups| - 1];
      var g := groups[|groups| - 1];
      ManifestKeysStayUnique(o, publicPath, outputPath, m, init);
      var before := RunGroups(o, publicPath, outputPath, m, init);
      if g.chunks != [] && o.generateChunksManifest {
        PutUnique(before.manifest, g.name, Sorted(publicPath, g.chunks));
      }
    }
  }

  /**
   * What `customFormatTags` returns is checked for its keys only: empty
   * strings are accepted and write nothing, and a non-empty styles string is
   * written even when the group has no `css` file.
   */
  lemma CustomTagsTakenAsGiven(o: Options, publicPath: string, outputPath: string, g: ChunkGroup, styles: string, scripts: string)
    requires o.generateChunksFiles && g.chunks != [] && o.customFormatTags.Function?
    requires o.customFormatTags.format(Sorted(publicPath, g.chunks), g) == TagsObject(Some(styles), Some(scripts))
    ensures GroupWrites(o, publicPath, outputPath, g).Ok?
    ensures FileWrite(TagFileName(outputPath, g.name, "styles", o.fileExtension), styles) in GroupWrites(o, publicPath, outputPath, g).value
            <==> styles != ""
    ensures styles == "" && scripts == "" ==> GroupWrites(o, publicPath, outputPath, g).value == []
  {
    assert GroupTags(o, publicPath, g) == Ok(HtmlTags(styles, scripts));
  }

  /**
   * One chunk holding a `css` file and then a `js` file: each file lands,
   * prefixed with the public path, in its own list (with `/dist/`,
   * `css/vendors~app-a~app-b.css` and `js/vendors~app-a~app-b.js`, say).
   */
  lemma SortedStyleAndScript(publicPath: string, styleStem: string, scriptStem: string)
    ensures var css, js := styleStem + "." + StyleExtension, scriptStem + "." + ScriptExtension;
            Sorted(publicPath, [Chunk([css, js])]) == Chunks([publicPath + css], [publicPath + js])
  {
    var css, js := styleStem + "." + StyleExtension, scriptStem + "." + ScriptExtension;
    UtilsV3.LastDotCounts(styleStem, StyleExtension);
    UtilsV3.LastDotCounts(scriptStem, ScriptExtension);
    var files := [css, js];
    assert Flatten([Chunk(files)]) == files by {
      assert [Chunk(files)][..0] == [];
    }
    assert [] + [css] == [css] && [css] + [js] == files;
    UtilsV3.TypedStep(publicPath, [], css, StyleExtension);
    UtilsV3.TypedStep(publicPath, [css], js, StyleExtension);
    UtilsV3.TypedStep(publicPath, [], css, ScriptExtension);
    UtilsV3.TypedStep(publicPath, [css], js, ScriptExtension);
  }

  class ChunksWebpackPlugin {
    const options: Options
    /** `this.manifest`: entry name to sorted chunks, kept from one build to the next. */
    var manifest: Manifest
    /** The files written so far, in order; a later write to the same path replaces the file's content. */
    var written: seq<FileWrite>

    constructor(user: UserOptions)
      ensures options == MergeOptions(user)
      ensures manifest == [] && written == []
    {
      options := MergeOptions(user);
      manifest := [];
      written := [];
    }

    /**
     * `compilerDone`: the output-path check throws before anything is
     * written; then the chunk groups run in order until one throws, and the
     * manifest file is written last, only when no group threw.
     */
    method CompilerDone(stats: Stats) returns (outcome: Outcome)
      modifies this
      ensures OutputPathOf(options, stats.output.path).Err? ==>
        outcome == Fail(OutputPathMessage) && manifest == old(manifest) && written == old(written)
      ensures OutputPathOf(options, stats.output.path).Ok? ==>
        var outputPath := OutputPathOf(options, stats.output.path).value;
        var run := RunGroups(options, WithEndingSlash(stats.output.publicPath), outputPath, old(manifest), stats.chunkGroups);
        && manifest == run.manifest
        && written == old(written) + run.writes
                      + (if run.error.None? && options.generateChunksManifest then [ManifestWrite(outputPath, run.manifest)] else [])
        && outcome == if run.error.Some? then Fail(CustomTagsMessage) else Pass
    {
      var publicPath := GetPublicPath(stats);
      var outputPath := GetOutputPath(stats);
      if outputPath.Err? {
        return Fail(outputPath.message);
      }
      var thrown := ForEachChunkGroups(publicPath, outputPath.value, stats.chunkGroups);
      if thrown {
        return Fail(CustomTagsMessage);
      }
      if options.generateChunksManifest {
        CreateChunksManifestFile(outputPath.value);
      } else {
        assert written == written + [];
      }
      outcome := Pass;
    }

    /** `getPublicPath`: `publicPath || ''`, with `/` appended when it is non-empty and lacks one. */
    method GetPublicPath(stats: Stats) returns (publicPath: string)
      ensures publicPath == WithEndingSlash(stats.output.publicPath)
    {
      publicPath := stats.output.publicPath.GetOr("");
      if publicPath != "" {
        if publicPath[|publicPath| - 1] != '/' {
          publicPath := publicPath + "/";
        }
      }
      assert publicPath == WithEndingSlash(stats.output.publicPath) by {
        var configured := stats.output.publicPath.GetOr("");
        assert configured + "" == configured;
      }
    }

    /** `getOutputPath`: the chosen directory, or the error `setError` throws. */
    method GetOutputPath(stats: Stats) returns (outputPath: Result<string>)
      ensures outputPath == OutputPathOf(options, stats.output.path)
    {
      if options.outputPath == DefaultOutputPath {
        outputPath := Ok(stats.output.path);
      } else if UtilsV3.IsOutputPathValid(options.outputPath) {
        outputPath := Ok(options.outputPath);
      } else {
        outputPath := UtilsV3.SetError(OutputPathMessage);
      }
    }

    /** `stats.compilation.chunkGroups.forEach(...)`: the callback runs group after group until one throws. */
    method ForEachChunkGroups(publicPath: string, outputPath: string, groups: seq<ChunkGroup>) returns (thrown: bool)
      modifies this`written, this`manifest
      ensures var run := RunGroups(options, publicPath, outputPath, old(manifest), groups);
              && (thrown <==> run.error.Some?)
              && written == old(written) + run.writes
              && manifest == run.manifest
    {
      ghost var start, m := written, manifest;
      ghost var o := options;
      assert groups[..0] == [];
      var i := 0;
      while i < |groups|
        invariant 0 <= i <= |groups|
        invariant o == options
        invariant RunGroups(o, publicPath, outputPath, m, groups[..i]).error.None?
        invariant written == start + RunGroups(o, publicPath, outputPath, m, groups[..i]).writes
        invariant manifest == RunGroups(o, publicPath, outputPath, m, groups[..i]).manifest
      {
        ghost var mid := written;
        thrown := ForEachChunkGroup(publicPath, outputPath, groups[i]);
        RunStep(o, publicPath, outputPath, m, groups, i, start, mid, written, manifest, thrown);
        if thrown {
          return;
        }
        i := i + 1;
      }
      assert groups[..i] == groups;
      thrown := false;
    }

    /**
     * The `forEach` callback for one chunk group: a group with chunks is
     * sorted, then written when `generateChunksFiles` is set (or throws on a
     * malformed custom result), then recorded in the manifest when
     * `generateChunksManifest` is set.
     */
    method ForEachChunkGroup(publicPath: string, outputPath: string, group: ChunkGroup) returns (thrown: bool)
      modifies this`written, this`manifest
      ensures thrown <==> GroupWrites(options, publicPath, outputPath, group).Err?
      ensures thrown ==> written == old(written) && manifest == old(manifest)
      ensures !thrown ==> written == old(written) + GroupWrites(options, publicPath, outputPath, group).value
                          && manifest == GroupManifest(options, publicPath, old(manifest), group)
    {
      thrown := false;
      if group.chunks != [] {
        var chunksSorted := LoopsV3.SortsChunksByType(publicPath, group.chunks);
        if options.generateChunksFiles {
          var tagsHTML := FormatChunkGroup(publicPath, chunksSorted, group);
          if tagsHTML.Err? {
            return true;
          }
          CreateChunksFiles(group.name, tagsHTML.value, outputPath);
        } else {
          assert written == written + [];
        }
        if options.generateChunksManifest {
          UpdateManifest(group.name, chunksSorted);
        }
      } else {
        assert written == written + [];
      }
    }

    /**
     * The HTML of a group with chunks: from `customFormatTags` when that is
     * a function, checked for a well-formed object, or from the templates.
     */
    method FormatChunkGroup(publicPath: string, chunksSorted: Chunks, group: ChunkGroup) returns (tagsHTML: Result<HtmlTags>)
      requires chunksSorted == Sorted(publicPath, group.chunks)
      ensures tagsHTML == GroupTags(options, publicPath, group)
    {
      match options.customFormatTags {
        case Function(format) =>
          var custom := format(chunksSorted, group);
          if custom.NullTags? || custom.styles.None? || custom.scripts.None? {
            return UtilsV3.SetError(CustomTagsMessage);
          }
          tagsHTML := Ok(HtmlTags(custom.styles.value, custom.scripts.value));
        case NotAFunction =>
          var html := LoopsV3.GenerateTags(options.templateStyle, options.templateScript, chunksSorted);
          tagsHTML := Ok(html);
      }
    }

    /** `updateManifest`: the entry's key gets a fresh `{styles, scripts}` object; every other key is untouched. */
    method UpdateManifest(entryName: string, chunks: Chunks)
      modifies this`manifest
      ensures manifest == Put(old(manifest), entryName, chunks)
    {
      manifest := Put(manifest, entryName, chunks);
    }

    /** `createChunksFiles`: the scripts file, then the styles file, each only for a non-empty HTML string. */
    method CreateChunksFiles(entry: string, tagsHTML: HtmlTags, outputPath: string)
      modifies this`written
      ensures written == old(written) + NonEmptyTagWrites(outputPath, entry, options.fileExtension, tagsHTML)
    {
      if |tagsHTML.scripts| > 0 {
        written := written + [FileWrite(TagFileName(outputPath, entry, "scripts", options.fileExtension), tagsHTML.scripts)];
      }
      if |tagsHTML.styles| > 0 {
        written := written + [FileWrite(TagFileName(outputPath, entry, "styles", options.fileExtension), tagsHTML.styles)];
      }
    }

    /** `createChunksManifestFile`: the whole manifest, as JSON, into `<outputPath>/chunks-manifest.json`. */
    method CreateChunksManifestFile(outputPath: string)
      modifies this`written
      ensures written == old(written) + [ManifestWrite(outputPath, manifest)]
    {
      written := written + [FileWrite(outputPath + "/" + ManifestFileName, Stringify(manifest))];
    }
  }
}
