/**
 * The loops the 3.2.1 (`dist/index.js`) and 3.3.0 (`src/index.js`)
 * revisions share word for word: `sortsChunksByType`, which pushes each file
 * of each chunk onto the styles or the scripts, and `generateTags`, which
 * fills a template per path and concatenates the results with `+=`.
 */
module LoopsV3 {
  import opened Results
  import opened Webpack
  import opened Tags
  import JsString
  import UtilsV3

  /** The files of a chunk group sorted by type and prefixed with the public path. */
  function Sorted(publicPath: string, chunks: seq<Chunk>): Chunks {
    SortChunks(Flatten(chunks), publicPath, UtilsV3.GetFileExtension)
  }

  /**
   * `sortsChunksByType`: one pass over the chunks and their files, pushing
   * each `css` file onto the styles and each `js` file onto the scripts,
   * prefixed with the public path.
   */
  method SortsChunksByType(publicPath: string, chunks: seq<Chunk>) returns (files: Chunks)
    ensures files == Sorted(publicPath, chunks)
  {
    var prefix := publicPath;
    var styles, scripts := [], [];
    ghost var seen: seq<string> := [];
    var i := 0;
    while i < |chunks|
      invariant 0 <= i <= |chunks|
      invariant seen == Flatten(chunks[..i])
      invariant styles == Typed(prefix, seen, StyleExtension, UtilsV3.GetFileExtension)
      invariant scripts == Typed(prefix, seen, ScriptExtension, UtilsV3.GetFileExtension)
    {
      var chunk := chunks[i];
      styles, scripts := SortChunkFiles(prefix, chunk.files, styles, scripts);
      TypedAppend(prefix, seen, chunk.files, StyleExtension, UtilsV3.GetFileExtension);
      TypedAppend(prefix, seen, chunk.files, ScriptExtension, UtilsV3.GetFileExtension);
      FlattenStep(chunks, i);
      seen := seen + chunk.files;
      i := i + 1;
    }
    assert chunks[..i] == chunks;
    files := Chunks(styles, scripts);
  }

  /**
   * The inner `chunk.files.forEach` of `sortsChunksByType`: each `css` file
   * of one chunk is pushed, prefixed, onto the styles, each `js` file onto
   * the scripts, after what was pushed before it.
   */
  method SortChunkFiles(prefix: string, files: seq<string>, stylesBefore: seq<string>, scriptsBefore: seq<string>)
    returns (styles: seq<string>, scripts: seq<string>)
    ensures styles == stylesBefore + Typed(prefix, files, StyleExtension, UtilsV3.GetFileExtension)
    ensures scripts == scriptsBefore + Typed(prefix, files, ScriptExtension, UtilsV3.GetFileExtension)
  {
    styles, scripts := stylesBefore, scriptsBefore;
    var j := 0;
    while j < |files|
      invariant 0 <= j <= |files|
      invariant styles == stylesBefore + Typed(prefix, files[..j], StyleExtension, UtilsV3.GetFileExtension)
      invariant scripts == scriptsBefore + Typed(prefix, files[..j], ScriptExtension, UtilsV3.GetFileExtension)
    {
      var file := files[j];
      UtilsV3.TypedPrefixStep(prefix, stylesBefore, files, j, StyleExtension);
      UtilsV3.TypedPrefixStep(prefix, scriptsBefore, files, j, ScriptExtension);
      styles, scripts := SortFile(prefix, file, styles, scripts);
      j := j + 1;
    }
    assert files[..j] == files;
  }

  /** The body of the inner `forEach`: a `css` file is pushed onto the styles, a `js` file onto the scripts. */
  method SortFile(prefix: string, file: string, stylesBefore: seq<string>, scriptsBefore: seq<string>)
    returns (styles: seq<string>, scripts: seq<string>)
    ensures styles == stylesBefore + (if UtilsV3.GetFileExtension(file) == StyleExtension then [prefix + file] else [])
    ensures scripts == scriptsBefore + (if UtilsV3.GetFileExtension(file) == ScriptExtension then [prefix + file] else [])
  {
    styles, scripts := stylesBefore, scriptsBefore;
    if UtilsV3.GetFileExtension(file) == StyleExtension {
      styles := styles + [prefix + file];
    } else if UtilsV3.GetFileExtension(file) == ScriptExtension {
      scripts := scripts + [prefix + file];
    }
  }

  /** `generateTags`: each type's templates filled in order and concatenated with `+=`. */
  method GenerateTags(templateStyle: string, templateScript: string, chunksSorted: Chunks) returns (html: HtmlTags)
    ensures html == FormatTags(chunksSorted, templateStyle, templateScript)
  {
    html := HtmlTags("", "");
    var styles, scripts := chunksSorted.styles, chunksSorted.scripts;
    var k := 0;
    while k < |styles|
      invariant 0 <= k <= |styles|
      invariant html == HtmlTags(Render(templateStyle, styles[..k]), "")
    {
      assert styles[..k + 1][..k] == styles[..k];
      html := html.(styles := html.styles + JsString.Replace(templateStyle, ChunkPlaceholder, styles[k]));
      k := k + 1;
    }
    assert styles[..k] == styles;
    k := 0;
    while k < |scripts|
      invariant 0 <= k <= |scripts|
      invariant html == HtmlTags(Render(templateStyle, styles), Render(templateScript, scripts[..k]))
    {
      assert scripts[..k + 1][..k] == scripts[..k];
      html := html.(scripts := html.scripts + JsString.Replace(templateScript, ChunkPlaceholder, scripts[k]));
      k := k + 1;
    }
    assert scripts[..k] == scripts;
  }
}
