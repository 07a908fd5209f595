/**
 * Revision 1.0.1 (`index.js`). On the compiler's `done` hook the plugin takes
 * the public path from the main template, picks the output directory, and
 * for every chunk group writes two files: the group's script tags and its
 * style tags, even when one of them is empty. A file is a style when the
 * text after its last dot is `css` and a script when it is `js`.
 */
module PluginV101 {
  import opened Results
  import opened Webpack
  import opened Tags
  import opened Paths
  import JsString
  import UtilsV3

  const PathMessage: string := "ChunksWebpackPlugin::path must be absolute"

  /** The merged options; `path: null` (the default) is `None`. */
  datatype Options = Options(path: Option<string>, fileExtension: string, templateStyle: string, templateScript: string)

  /** The options the user passed, each present or absent; `path: null` passed explicitly is `Some(None)`. */
  datatype UserOptions = UserOptions(path: Option<Option<string>>, fileExtension: Option<string>,
                                     templateStyle: Option<string>, templateScript: Option<string>)

  const Defaults: Options := Options(None, ".html", "<link rel=\"stylesheet\" href=\"{{chunk}}\"/>", "<script src=\"{{chunk}}\"></script>")

  /** `Object.assign(defaultOptions, userOptions)`: a supplied option replaces its default, an absent one keeps it. */
  function MergeOptions(user: UserOptions): (o: Options)
    ensures user.path.Some? ==> o.path == user.path.value
    ensures user.path.None? ==> o.path == None
    ensures o.fileExtension == user.fileExtension.GetOr(".html")
    ensures o.templateStyle == user.templateStyle.GetOr(Defaults.templateStyle)
    ensures o.templateScript == user.templateScript.GetOr(Defaults.templateScript)
  {
    Options(user.path.GetOr(Defaults.path), user.fileExtension.GetOr(Defaults.fileExtension),
            user.templateStyle.GetOr(Defaults.templateStyle), user.templateScript.GetOr(Defaults.templateScript))
  }

  /**
   * The tags of one type for a run of files, as `generateTags` builds them in
   * one pass: each file of that type appends its filled template, any other
   * file nothing.
   */
  function FilesHtml(template: string, publicPath: string, files: seq<string>, ext: string): string {
    if files == [] then ""
    else
      var file := files[|files| - 1];
      FilesHtml(template, publicPath, files[..|files| - 1], ext)
        + (if UtilsV3.GetFileExtension(file) == ext then JsString.Replace(template, ChunkPlaceholder, publicPath + file) else "")
  }

  /** The tags of one type for a chunk group, in chunk then file order. */
  function TypeHtml(template: string, publicPath: string, chunks: seq<Chunk>, ext: string): string {
    FilesHtml(template, publicPath, Flatten(chunks), ext)
  }

  /**
   * The single pass gives the same text as selecting the files of the type,
   * prefixing them and rendering each through the template.
   */
  lemma {:induction false} FilesHtmlIsRendered(template: string, publicPath: string, files: seq<string>, ext: string)
    ensures FilesHtml(template, publicPath, files, ext) == Render(template, Typed(publicPath, files, ext, UtilsV3.GetFileExtension))
  {
    if files != [] {
      var init, file := files[..|files| - 1], files[|files| - 1];
      FilesHtmlIsRendered(template, publicPath, init, ext);
      assert files == init + [file];
      var typed := Typed(publicPath, init, ext, UtilsV3.GetFileExtension);
      TypedStep(publicPath, init, file, ext, UtilsV3.GetFileExtension);
      FilesHtmlStep(template, publicPath, init, file, ext);
      if UtilsV3.GetFileExtension(file) == ext {
        var tag := JsString.Replace(template, ChunkPlaceholder, publicPath + file);
        RenderAppend(template, typed, [publicPath + file]);
        assert [publicPath + file][..0] == [];
        assert Render(template, [publicPath + file]) == "" + tag;
        assert "" + tag == tag;
      } else {
        assert typed + [] == typed;
        assert Render(template, typed) + "" == Render(template, typed);
      }
    }
  }

  /** One more file adds its filled template when it has the type, and nothing otherwise. */
  lemma FilesHtmlStep(template: string, publicPath: string, files: seq<string>, file: string, ext: string)
    ensures FilesHtml(template, publicPath, files + [file], ext)
         == FilesHtml(template, publicPath, files, ext)
            + (if UtilsV3.GetFileExtension(file) == ext then JsString.Replace(template, ChunkPlaceholder, publicPath + file) else "")
  {
    assert (files + [file])[..|files|] == files;
  }

  /** The same step, for the next file of a chunk, after the tags made before it. */
  lemma FilesHtmlPrefixStep(template: string, publicPath: string, before: string, files: seq<string>, j: nat, ext: string)
    requires j < |files|
    ensures before + FilesHtml(template, publicPath, files[..j + 1], ext)
         == (before + FilesHtml(template, publicPath, files[..j], ext))
            + (if UtilsV3.GetFileExtension(files[j]) == ext then JsString.Replace(template, ChunkPlaceholder, publicPath + files[j]) else "")
  {
    assert files[..j + 1] == files[..j] + [files[j]];
    FilesHtmlStep(template, publicPath, files[..j], files[j], ext);
    AppendAssoc(before, FilesHtml(template, publicPath, files[..j], ext),
                if UtilsV3.GetFileExtension(files[j]) == ext then JsString.Replace(template, ChunkPlaceholder, publicPath + files[j]) else "");
  }

  /** The tags of two runs of files, one after the other, are those of the first run, then those of the second. */
  lemma FilesHtmlAppend(template: string, publicPath: string, a: seq<string>, b: seq<string>, ext: string)
    ensures FilesHtml(template, publicPath, a + b, ext) == FilesHtml(template, publicPath, a, ext) + FilesHtml(template, publicPath, b, ext)
  {
    FilesHtmlIsRendered(template, publicPath, a + b, ext);
    FilesHtmlIsRendered(template, publicPath, a, ext);
    FilesHtmlIsRendered(template, publicPath, b, ext);
    TypedAppend(publicPath, a, b, ext, UtilsV3.GetFileExtension);
    RenderAppend(template, Typed(publicPath, a, ext, UtilsV3.GetFileExtension), Typed(publicPath, b, ext, UtilsV3.GetFileExtension));
  }

  /** The two writes for one chunk group: scripts first, then styles. */
  function GroupWrites(o: Options, publicPath: string, path: string, g: ChunkGroup): seq<FileWrite> {
    [FileWrite(TagFileName(path, g.name, "scripts", o.fileExtension), TypeHtml(o.templateScript, publicPath, g.chunks, ScriptExtension)),
     FileWrite(TagFileName(path, g.name, "styles", o.fileExtension), TypeHtml(o.templateStyle, publicPath, g.chunks, StyleExtension))]
  }

  /** The writes of a whole `done` call that got past the path check, group after group. */
  function DoneWrites(o: Options, publicPath: string, path: string, groups: seq<ChunkGroup>): (ws: seq<FileWrite>)
    ensures |ws| == 2 * |groups|
  {
    if groups == [] then []
    else DoneWrites(o, publicPath, path, groups[..|groups| - 1]) + GroupWrites(o, publicPath, path, groups[|groups| - 1])
  }

  /** One more group appends its two writes. */
  lemma DoneWritesStep(o: Options, publicPath: string, path: string, groups: seq<ChunkGroup>, i: nat)
    requires i < |groups|
    ensures DoneWrites(o, publicPath, path, groups[..i + 1])
         == DoneWrites(o, publicPath, path, groups[..i]) + GroupWrites(o, publicPath, path, groups[i])
  {
    assert groups[..i + 1][..i] == groups[..i];
  }

  /**
   * Every chunk group gets both of its files, whatever they hold: writes
   * `2i` and `2i + 1` are group `i`'s scripts and styles files.
   */
  lemma {:induction false} DoneWritesAt(o: Options, publicPath: string, path: string, groups: seq<ChunkGroup>, i: nat)
    requires i < |groups|
    ensures DoneWrites(o, publicPath, path, groups)[2 * i] == GroupWrites(o, publicPath, path, groups[i])[0]
    ensures DoneWrites(o, publicPath, path, groups)[2 * i + 1] == GroupWrites(o, publicPath, path, groups[i])[1]
  {
    var init := groups[..|groups| - 1];
    if i < |groups| - 1 {
      DoneWritesAt(o, publicPath, path, init, i);
      assert init[i] == groups[i];
    }
  }

  /** A group with no `css` file still gets a styles file, and it is empty. */
  lemma EmptyStylesStillWritten(o: Options, publicPath: string, path: string, groups: seq<ChunkGroup>, i: nat)
    requires i < |groups|
    requires forall f :: f in Flatten(groups[i].chunks) ==> UtilsV3.GetFileExtension(f) != StyleExtension
    ensures DoneWrites(o, publicPath, path, groups)[2 * i + 1]
         == FileWrite(TagFileName(path, groups[i].name, "styles", o.fileExtension), "")
  {
    DoneWritesAt(o, publicPath, path, groups, i);
    FilesHtmlIsRendered(o.templateStyle, publicPath, Flatten(groups[i].chunks), StyleExtension);
    TypedNone(publicPath, Flatten(groups[i].chunks), StyleExtension, UtilsV3.GetFileExtension);
  }

  class ChunksWebpackPlugin {
    const options: Options
    var publicPath: string
    var path: string
    /** The files written so far, in order; a later write to the same path replaces the file's content. */
    var written: seq<FileWrite>

    constructor(user: UserOptions)
      ensures options == MergeOptions(user)
      ensures publicPath == "" && path == "" && written == []
    {
      options := MergeOptions(user);
      publicPath := "";
      path := "";
      written := [];
    }

    /**
     * `_done`: the public path is taken as the main template gives it and
     * assigned before the path check, so it stays assigned when that check
     * throws; after the check every group writes its two files.
     */
    method Done(stats: Stats, mainTemplatePublicPath: string) returns (outcome: Outcome)
      modifies this
      ensures publicPath == mainTemplatePublicPath
      ensures ChooseOutputPath(options.path, stats.output.path, PathMessage).Err? ==>
        outcome == Fail(PathMessage) && path == old(path) && written == old(written)
      ensures ChooseOutputPath(options.path, stats.output.path, PathMessage).Ok? ==>
        outcome == Pass && path == ChooseOutputPath(options.path, stats.output.path, PathMessage).value
        && written == old(written) + DoneWrites(options, publicPath, path, stats.chunkGroups)
    {
      publicPath := mainTemplatePublicPath;
      var chosen := ChooseOutputPath(options.path, stats.output.path, PathMessage);
      if chosen.Err? {
        return Fail(chosen.message);
      }
      path := chosen.value;
      CreateGroupFiles(stats.chunkGroups);
      outcome := Pass;
    }

    /** The `forEach` over the chunk groups of `_done`: the tags of each group, then its two files. */
    method CreateGroupFiles(groups: seq<ChunkGroup>)
      modifies this`written
      ensures written == old(written) + DoneWrites(options, publicPath, path, groups)
    {
      ghost var start := written;
      ghost var o, pp, p := options, publicPath, path;
      var i := 0;
      while i < |groups|
        invariant 0 <= i <= |groups|
        invariant o == options && pp == publicPath && p == path
        invariant written == start + DoneWrites(o, pp, p, groups[..i])
      {
        var htmlStyles, htmlScripts := GenerateTags(groups[i].chunks);
        CreateFiles(htmlStyles, htmlScripts, groups[i].name);
        DoneWritesStep(o, pp, p, groups, i);
        AppendAssoc(start, DoneWrites(o, pp, p, groups[..i]), GroupWrites(o, pp, p, groups[i]));
        i := i + 1;
      }
      assert groups[..i] == groups;
    }

    /**
     * `generateTags`: one pass over the chunks and their files; a `css` file
     * adds a filled style template, a `js` file a filled script template,
     * any other file nothing.
     */
    method GenerateTags(chunks: seq<Chunk>) returns (htmlStyles: string, htmlScripts: string)
      ensures htmlStyles == TypeHtml(options.templateStyle, publicPath, chunks, StyleExtension)
      ensures htmlScripts == TypeHtml(options.templateScript, publicPath, chunks, ScriptExtension)
    {
      var templateStyle, templateScript, prefix := options.templateStyle, options.templateScript, publicPath;
      htmlScripts, htmlStyles := "", "";
      ghost var seen: seq<string> := [];
      var i := 0;
      while i < |chunks|
        invariant 0 <= i <= |chunks|
        invariant seen == Flatten(chunks[..i])
        invariant htmlStyles == FilesHtml(templateStyle, prefix, seen, StyleExtension)
        invariant htmlScripts == FilesHtml(templateScript, prefix, seen, ScriptExtension)
      {
        var chunk := chunks[i];
        htmlStyles, htmlScripts := ChunkTags(templateStyle, templateScript, prefix, chunk.files, htmlStyles, htmlScripts);
        FilesHtmlAppend(templateStyle, prefix, seen, chunk.files, StyleExtension);
        FilesHtmlAppend(templateScript, prefix, seen, chunk.files, ScriptExtension);
        FlattenStep(chunks, i);
        seen := seen + chunk.files;
        i := i + 1;
      }
      assert chunks[..i] == chunks;
    }

    /**
     * The inner `chunk.files.forEach` of `generateTags`: each `css` file of
     * one chunk appends a filled style template, each `js` file a filled
     * script template, after the tags made before it.
     */
    static method ChunkTags(templateStyle: string, templateScript: string, prefix: string, files: seq<string>,
                            stylesBefore: string, scriptsBefore: string)
      returns (htmlStyles: string, htmlScripts: string)
      ensures htmlStyles == stylesBefore + FilesHtml(templateStyle, prefix, files, StyleExtension)
      ensures htmlScripts == scriptsBefore + FilesHtml(templateScript, prefix, files, ScriptExtension)
    {
      htmlStyles, htmlScripts := stylesBefore, scriptsBefore;
      var j := 0;
      while j < |files|
        invariant 0 <= j <= |files|
        invariant htmlStyles == stylesBefore + FilesHtml(templateStyle, prefix, files[..j], StyleExtension)
        invariant htmlScripts == scriptsBefore + FilesHtml(templateScript, prefix, files[..j], ScriptExtension)
      {
        var file := files[j];
        FilesHtmlPrefixStep(templateStyle, prefix, stylesBefore, files, j, StyleExtension);
        FilesHtmlPrefixStep(templateScript, prefix, scriptsBefore, files, j, ScriptExtension);
        htmlStyles, htmlScripts := FileTag(templateStyle, templateScript, prefix, file, htmlStyles, htmlScripts);
        j := j + 1;
      }
      assert files[..j] == files;
    }

    /** The body of the inner `forEach`: a `css` file extends the styles, a `js` file the scripts. */
    static method FileTag(templateStyle: string, templateScript: string, prefix: string, file: string,
                          stylesBefore: string, scriptsBefore: string)
      returns (htmlStyles: string, htmlScripts: string)
      ensures htmlStyles == stylesBefore
        + (if UtilsV3.GetFileExtension(file) == StyleExtension then JsString.Replace(templateStyle, ChunkPlaceholder, prefix + file) else "")
      ensures htmlScripts == scriptsBefore
        + (if UtilsV3.GetFileExtension(file) == ScriptExtension then JsString.Replace(templateScript, ChunkPlaceholder, prefix + file) else "")
    {
      htmlStyles, htmlScripts := stylesBefore, scriptsBefore;
      if UtilsV3.GetFileExtension(file) == StyleExtension {
        htmlStyles := htmlStyles + JsString.Replace(templateStyle, ChunkPlaceholder, prefix + file);
      } else if UtilsV3.GetFileExtension(file) == ScriptExtension {
        htmlScripts := htmlScripts + JsString.Replace(templateScript, ChunkPlaceholder, prefix + file);
      }
    }

    /** `createFiles`: always both files, scripts first, named `<path>/<entry>-<type><fileExtension>`. */
    method CreateFiles(htmlStyles: string, htmlScripts: string, entry: string)
      modifies this`written
      ensures written == old(written) + [FileWrite(TagFileName(path, entry, "scripts", options.fileExtension), htmlScripts),
                                         FileWrite(TagFileName(path, entry, "styles", options.fileExtension), htmlStyles)]
    {
      written := written + [FileWrite(TagFileName(path, entry, "scripts", options.fileExtension), htmlScripts)];
      written := written + [FileWrite(TagFileName(path, entry, "styles", options.fileExtension), htmlStyles)];
    }
  }
}
