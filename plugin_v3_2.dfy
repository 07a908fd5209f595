/**
 * Revision 3.2.1 (`dist/index.js`). On the compiler's `done` hook the plugin
 * normalises the public path, picks the output directory (or throws), and
 * for every chunk group that has chunks sorts its files into styles and
 * scripts, turns them into HTML (through the user's `customFormatTags` when
 * it is a function, through the templates otherwise) and writes the styles
 * file only when the group has a style and its HTML is non-empty, and the
 * scripts file likewise.
 */
module PluginV321 {
  import opened Results
  import opened Webpack
  import opened Tags
  import opened Paths
  import JsString
  import UtilsV3
  import opened LoopsV3

  const OutputPathMessage: string := "ChunksWebpackPlugin::outputPath is incorrect"
  const CustomTagsMessage: string := "ChunksWebpackPlugin::customFormatTags return incorrect object"

  /** The sentinel value of `outputPath` that selects webpack's own output directory. */
  const DefaultOutputPath: string := "default"

  /** `customFormatTags(chunksSorted, chunkGroup)`. */
  type CustomFormat = (Chunks, ChunkGroup) -> CustomTags

  datatype Options = Options(outputPath: string, fileExtension: string, templateStyle: string, templateScript: string,
                             customFormatTags: FormatTagsOption<CustomFormat>)

  /** The options the user passed, each present or absent. */
  datatype UserOptions = UserOptions(outputPath: Option<string>, fileExtension: Option<string>, templateStyle: Option<string>,
                                     templateScript: Option<string>, customFormatTags: Option<FormatTagsOption<CustomFormat>>)

  const Defaults: Options := Options(DefaultOutputPath, ".html", "<link rel=\"stylesheet\" href=\"{{chunk}}\" />",
                                     "<script src=\"{{chunk}}\"></script>", NotAFunction)

  /** `Object.assign(defaultOptions, userOptions)`: a supplied option replaces its default, an absent one keeps it. */
  function MergeOptions(user: UserOptions): (o: Options)
    ensures o.outputPath == user.outputPath.GetOr("default")
    ensures o.fileExtension == user.fileExtension.GetOr(".html")
    ensures o.templateStyle == user.templateStyle.GetOr(Defaults.templateStyle)
    ensures o.templateScript == user.templateScript.GetOr(Defaults.templateScript)
    ensures o.customFormatTags == user.customFormatTags.GetOr(NotAFunction)
  {
    Options(user.outputPath.GetOr(Defaults.outputPath), user.fileExtension.GetOr(Defaults.fileExtension),
            user.templateStyle.GetOr(Defaults.templateStyle), user.templateScript.GetOr(Defaults.templateScript),
            user.customFormatTags.GetOr(Defaults.customFormatTags))
  }

  /**
   * The output directory: `'default'` selects webpack's `output.path`; any
   * other value must be a non-empty absolute path, or `_done` throws.
   */
  function OutputPathOf(o: Options, compilationPath: string): (r: Result<string>)
    ensures r.Ok? <==> o.outputPath == DefaultOutputPath || JsString.IsAbsolute(o.outputPath)
    ensures r.Ok? && o.outputPath == DefaultOutputPath ==> r.value == compilationPath
    ensures r.Ok? && o.outputPath != DefaultOutputPath ==> r.value == o.outputPath
    ensures r.Err? ==> r.message == OutputPathMessage
  {
    ChooseOutputPath(if o.outputPath == DefaultOutputPath then None else Some(o.outputPath), compilationPath, OutputPathMessage)
  }

  /** The HTML of one chunk group, or the error a malformed custom result throws. */
  function GroupTags(o: Options, publicPath: string, g: ChunkGroup): (r: Result<HtmlTags>)
    ensures r.Err? ==> o.customFormatTags.Function? && r.message == CustomTagsMessage
    ensures o.customFormatTags.NotAFunction? ==> r == Ok(FormatTags(Sorted(publicPath, g.chunks), o.templateStyle, o.templateScript))
    ensures o.customFormatTags.Function? ==> r == CheckCustomTags(o.customFormatTags.format(Sorted(publicPath, g.chunks), g), CustomTagsMessage)
  {
    CustomOrTemplateTags(o.customFormatTags, Sorted(publicPath, g.chunks), g, o.templateStyle, o.templateScript, CustomTagsMessage)
  }

  /**
   * What a custom function returns decides the group's tags: `null` or a
   * missing `styles` or `scripts` throws the custom-tags message; otherwise
   * its two strings are the HTML, as they are.
   */
  lemma CustomResultDecides(o: Options, publicPath: string, g: ChunkGroup)
    requires o.customFormatTags.Function?
    ensures var t := o.customFormatTags.format(Sorted(publicPath, g.chunks), g);
            var r := GroupTags(o, publicPath, g);
            && (r == Err(CustomTagsMessage) <==> t.NullTags? || t.styles.None? || t.scripts.None?)
            && (r.Ok? ==> t.TagsObject? && r.value == HtmlTags(t.styles.value, t.scripts.value))
  {
  }

  /**
   * `createFiles` as `_done` calls it: a type's HTML is passed only when the
   * group has files of that type (`false` otherwise), and a file is written
   * only for a truthy, that is non-empty, HTML string.
   */
  function GatedWrites(o: Options, outputPath: string, g: ChunkGroup, sorted: Chunks, tags: HtmlTags): seq<FileWrite> {
    NonEmptyTagWrites(outputPath, g.name, o.fileExtension,
                      HtmlTags(if sorted.styles != [] then tags.styles else "", if sorted.scripts != [] then tags.scripts else ""))
  }

  /** What one chunk group does: nothing when it has no chunks, its gated writes, or the custom-tags error. */
  function GroupEffect(o: Options, publicPath: string, outputPath: string, g: ChunkGroup): (r: Result<seq<FileWrite>>)
    ensures r.Err? ==> r.message == CustomTagsMessage
    ensures g.chunks == [] ==> r == Ok([])
  {
    if g.chunks == [] then Ok([])
    else
      match GroupTags(o, publicPath, g)
      case Err(message) => Err(message)
      case Ok(tags) => Ok(GatedWrites(o, outputPath, g, Sorted(publicPath, g.chunks), tags))
  }

  /** A group whose tags were formatted writes its gated files. */
  lemma GroupEffectOk(o: Options, publicPath: string, outputPath: string, g: ChunkGroup, sorted: Chunks, tags: HtmlTags)
    requires g.chunks != [] && sorted == Sorted(publicPath, g.chunks)
    requires GroupTags(o, publicPath, g) == Ok(tags)
    ensures GroupEffect(o, publicPath, outputPath, g) == Ok(GatedWrites(o, outputPath, g, sorted, tags))
  {
  }

  /** The writes made by a run of groups and the error that stopped it, if any. */
  datatype Run = Run(writes: seq<FileWrite>, error: Option<string>)

  /** The chunk groups processed in order until the first one that throws; its own writes never happen. */
  function RunGroups(o: Options, publicPath: string, outputPath: string, groups: seq<ChunkGroup>): (run: Run)
    ensures run.error.Some? ==> run.error.value == CustomTagsMessage && o.customFormatTags.Function?
  {
    if groups == [] then Run([], None)
    else
      var before := RunGroups(o, publicPath, outputPath, groups[..|groups| - 1]);
      if before.error.Some? then before
      else
        match GroupEffect(o, publicPath, outputPath, groups[|groups| - 1])
        case Err(message) => Run(before.writes, Some(message))
        case Ok(writes) => Run(before.writes + writes, None)
  }

  /** Once a group has thrown, the groups after it change nothing. */
  lemma {:induction false} RunStopsAtFailure(o: Options, publicPath: string, outputPath: string, groups: seq<ChunkGroup>, k: nat)
    requires k <= |groups|
    requires RunGroups(o, publicPath, outputPath, groups[..k]).error.Some?
    ensures RunGroups(o, publicPath, outputPath, groups) == RunGroups(o, publicPath, outputPath, groups[..k])
  {
    if k < |groups| {
      var init := groups[..|groups| - 1];
      assert init[..k] == groups[..k];
      RunStopsAtFailure(o, publicPath, outputPath, init, k);
    } else {
      assert groups[..k] == groups;
    }
  }

  /** A run of `i + 1` groups is the run of the first `i`, then group `i`'s effect, when those did not throw. */
  lemma RunGroupsExtend(o: Options, publicPath: string, outputPath: string, groups: seq<ChunkGroup>, i: nat)
    requires i < |groups| && RunGroups(o, publicPath, outputPath, groups[..i]).error.None?
    ensures var before := RunGroups(o, publicPath, outputPath, groups[..i]).writes;
            var effect := GroupEffect(o, publicPath, outputPath, groups[i]);
            RunGroups(o, publicPath, outputPath, groups[..i + 1])
            == if effect.Err? then Run(before, Some(effect.message)) else Run(before + effect.value, None)
  {
    assert groups[..i + 1][..i] == groups[..i];
  }

  /**
   * One more group after a run that has not thrown: when it throws, the
   * whole run stops there with the writes made so far; otherwise its writes
   * extend the run.
   */
  lemma RunStep(o: Options, publicPath: string, outputPath: string, groups: seq<ChunkGroup>, i: nat,
                start: seq<FileWrite>, mid: seq<FileWrite>, now: seq<FileWrite>, thrown: bool)
    requires i < |groups| && RunGroups(o, publicPath, outputPath, groups[..i]).error.None?
    requires mid == start + RunGroups(o, publicPath, outputPath, groups[..i]).writes
    requires thrown <==> GroupEffect(o, publicPath, outputPath, groups[i]).Err?
    requires thrown ==> now == mid
    requires !thrown ==> now == mid + GroupEffect(o, publicPath, outputPath, groups[i]).value
    ensures thrown ==> RunGroups(o, publicPath, outputPath, groups).error.Some?
                       && now == start + RunGroups(o, publicPath, outputPath, groups).writes
    ensures !thrown ==> RunGroups(o, publicPath, outputPath, groups[..i + 1]).error.None?
                        && now == start + RunGroups(o, publicPath, outputPath, groups[..i + 1]).writes
  {
    var effect := GroupEffect(o, publicPath, outputPath, groups[i]);
    var before := RunGroups(o, publicPath, outputPath, groups[..i]).writes;
    RunGroupsExtend(o, publicPath, outputPath, groups, i);
    if thrown {
      RunStopsAtFailure(o, publicPath, outputPath, groups, i + 1);
    } else {
      AppendAssoc(start, before, effect.value);
    }
  }

  /** With the default formatting nothing throws: every group that has chunks gets its writes. */
  lemma DefaultFormattingNeverFails(o: Options, publicPath: string, outputPath: string, groups: seq<ChunkGroup>)
    requires o.customFormatTags.NotAFunction?
    ensures RunGroups(o, publicPath, outputPath, groups).error.None?
  {
  }

  /**
   * The styles file of a group is written exactly when the group has a
   * style and its styles HTML is non-empty, and the scripts file likewise;
   * a group without chunks writes nothing.
   */
  lemma GroupWritesGated(o: Options, publicPath: string, outputPath: string, g: ChunkGroup, tags: HtmlTags)
    requires g.chunks != [] && GroupTags(o, publicPath, g) == Ok(tags)
    ensures var sorted := Sorted(publicPath, g.chunks);
            var writes := GroupEffect(o, publicPath, outputPath, g).value;
            && (FileWrite(TagFileName(outputPath, g.name, "styles", o.fileExtension), tags.styles) in writes
                <==> sorted.styles != [] && tags.styles != "")
            && (FileWrite(TagFileName(outputPath, g.name, "scripts", o.fileExtension), tags.scripts) in writes
                <==> sorted.scripts != [] && tags.scripts != "")
  {
    var sorted := Sorted(publicPath, g.chunks);
    var gated := HtmlTags(if sorted.styles != [] then tags.styles else "", if sorted.scripts != [] then tags.scripts else "");
    GroupEffectOk(o, publicPath, outputPath, g, sorted, tags);
    TagWritesByName(outputPath, g.name, o.fileExtension, gated, tags.styles);
    TagWritesByName(outputPath, g.name, o.fileExtension, gated, tags.scripts);
  }

  /**
   * With the default formatting and templates that hold text besides
   * `{{chunk}}`, a group's styles file is written exactly when it has a
   * `css` file, and its scripts file exactly when it has a `js` file.
   */
  lemma DefaultWritesIffTyped(o: Options, publicPath: string, outputPath: string, g: ChunkGroup)
    requires o.customFormatTags.NotAFunction? && g.chunks != []
    requires |o.templateStyle| > |ChunkPlaceholder| && |o.templateScript| > |ChunkPlaceholder|
    ensures var tags := FormatTags(Sorted(publicPath, g.chunks), o.templateStyle, o.templateScript);
            var writes := GroupEffect(o, publicPath, outputPath, g).value;
            && (FileWrite(TagFileName(outputPath, g.name, "styles", o.fileExtension), tags.styles) in writes
                <==> exists f :: f in Flatten(g.chunks) && UtilsV3.GetFileExtension(f) == StyleExtension)
            && (FileWrite(TagFileName(outputPath, g.name, "scripts", o.fileExtension), tags.scripts) in writes
                <==> exists f :: f in Flatten(g.chunks) && UtilsV3.GetFileExtension(f) == ScriptExtension)
  {
    var files := Flatten(g.chunks);
    var tags := FormatTags(Sorted(publicPath, g.chunks), o.templateStyle, o.templateScript);
    GroupWritesGated(o, publicPath, outputPath, g, tags);
    TypedNone(publicPath, files, StyleExtension, UtilsV3.GetFileExtension);
    TypedNone(publicPath, files, ScriptExtension, UtilsV3.GetFileExtension);
  }

  class ChunksWebpackPlugin {
    const options: Options
    var publicPath: string
    var outputPath: string
    /** The files written so far, in order. */
    var written: seq<FileWrite>

    constructor(user: UserOptions)
      ensures options == MergeOptions(user)
      ensures publicPath == "" && outputPath == "" && written == []
    {
      options := MergeOptions(user);
      publicPath := "";
      outputPath := "";
      written := [];
    }

    /**
     * `_done`: the public path is normalised and assigned first, so it stays
     * assigned when the output-path check throws; then the chunk groups run
     * in order until one of them throws.
     */
    method Done(stats: Stats) returns (outcome: Outcome)
      modifies this
      ensures publicPath == WithEndingSlash(stats.output.publicPath)
      ensures OutputPathOf(options, stats.output.path).Err? ==>
        outcome == Fail(OutputPathMessage) && outputPath == old(outputPath) && written == old(written)
      ensures OutputPathOf(options, stats.output.path).Ok? ==>
        outputPath == OutputPathOf(options, stats.output.path).value
        && written == old(written) + RunGroups(options, publicPath, outputPath, stats.chunkGroups).writes
        && outcome == if RunGroups(options, publicPath, outputPath, stats.chunkGroups).error.Some? then Fail(CustomTagsMessage) else Pass
    {
      publicPath := stats.output.publicPath.GetOr("");
      if publicPath != "" {
        if publicPath[|publicPath| - 1] != '/' {
          publicPath := publicPath + "/";
        }
      }
      assert publicPath == WithEndingSlash(stats.output.publicPath) by {
        var configured := stats.output.publicPath.GetOr("");
        assert configured + "" == configured;
      }
      if options.outputPath == DefaultOutputPath {
        outputPath := stats.output.path;
      } else if options.outputPath != "" && JsString.IsAbsolute(options.outputPath) {
        outputPath := options.outputPath;
      } else {
        return Fail(OutputPathMessage);
      }
      var thrown := ForEachChunkGroups(stats.chunkGroups);
      outcome := if thrown then Fail(CustomTagsMessage) else Pass;
    }

    /**
     * `stats.compilation.chunkGroups.forEach(...)`: the callback runs group
     * after group until one throws.
     */
    method ForEachChunkGroups(groups: seq<ChunkGroup>) returns (thrown: bool)
      modifies this`written
      ensures thrown <==> RunGroups(options, publicPath, outputPath, groups).error.Some?
      ensures written == old(written) + RunGroups(options, publicPath, outputPath, groups).writes
    {
      ghost var start := written;
      ghost var o, pp, op := options, publicPath, outputPath;
      assert groups[..0] == [];
      var i := 0;
      while i < |groups|
        invariant 0 <= i <= |groups|
        invariant RunGroups(o, pp, op, groups[..i]).error.None?
        invariant written == start + RunGroups(o, pp, op, groups[..i]).writes
      {
        ghost var mid := written;
        thrown := ForEachChunkGroup(groups[i]);
        RunStep(o, pp, op, groups, i, start, mid, written, thrown);
        if thrown {
          return;
        }
        i := i + 1;
      }
      assert groups[..i] == groups;
      thrown := false;
    }

    /**
     * The `forEach` callback of `_done` for one chunk group: a group with
     * chunks is sorted, formatted and written, or throws when the custom
     * formatter returns a malformed object; the throw leaves the writes as
     * they were.
     */
    method ForEachChunkGroup(group: ChunkGroup) returns (thrown: bool)
      modifies this`written
      ensures thrown <==> GroupEffect(options, publicPath, outputPath, group).Err?
      ensures thrown ==> written == old(written)
      ensures !thrown ==> written == old(written) + GroupEffect(options, publicPath, outputPath, group).value
    {
      thrown := false;
      if group.chunks != [] {
        var chunksSorted, tagsHTML := FormatChunkGroup(group);
        if tagsHTML.Err? {
          return true;
        }
        GroupEffectOk(options, publicPath, outputPath, group, chunksSorted, tagsHTML.value);
        var htmlStyles := if chunksSorted.styles != [] then Some(tagsHTML.value.styles) else None;
        var htmlScripts := if chunksSorted.scripts != [] then Some(tagsHTML.value.scripts) else None;
        CreateFiles(htmlStyles, htmlScripts, group.name);
      } else {
        assert written == written + [];
      }
    }

    /**
     * The part of the callback before the writes: the group's files sorted,
     * then its HTML from `customFormatTags` when that is a function (checked
     * for a well-formed object) or from the templates otherwise.
     */
    method FormatChunkGroup(group: ChunkGroup) returns (chunksSorted: Chunks, tagsHTML: Result<HtmlTags>)
      ensures chunksSorted == Sorted(publicPath, group.chunks)
      ensures tagsHTML == GroupTags(options, publicPath, group)
    {
      chunksSorted := LoopsV3.SortsChunksByType(publicPath, group.chunks);
      match options.customFormatTags {
        case Function(format) =>
          var custom := format(chunksSorted, group);
          if custom.NullTags? || custom.styles.None? || custom.scripts.None? {
            return chunksSorted, Err(CustomTagsMessage);
          }
          tagsHTML := Ok(HtmlTags(custom.styles.value, custom.scripts.value));
        case NotAFunction =>
          var html := LoopsV3.GenerateTags(options.templateStyle, options.templateScript, chunksSorted);
          tagsHTML := Ok(html);
      }
    }

    /** `createFiles`: the scripts file, then the styles file, each only for a truthy (present, non-empty) HTML string. */
    method CreateFiles(htmlStyles: Option<string>, htmlScripts: Option<string>, entry: string)
      modifies this`written
      ensures written == old(written) + NonEmptyTagWrites(outputPath, entry, options.fileExtension,
                                                          HtmlTags(htmlStyles.GetOr(""), htmlScripts.GetOr("")))
    {
      if htmlScripts.Some? && htmlScripts.value != "" {
        written := written + [FileWrite(TagFileName(outputPath, entry, "scripts", options.fileExtension), htmlScripts.value)];
      }
      if htmlStyles.Some? && htmlStyles.value != "" {
        written := written + [FileWrite(TagFileName(outputPath, entry, "styles", options.fileExtension), htmlStyles.value)];
      }
    }
  }
}
