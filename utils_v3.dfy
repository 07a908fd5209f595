/**
 * The helpers of the 3.3.0 revision (`src/utils.js`). Its extension rule,
 * "everything after the last dot of the whole path", is also the one the
 * 1.0.1 and 3.2.1 revisions inline as their own `getFileExtension`.
 */
module UtilsV3 {
  import opened Results
  import JsString
  import Utils
  import Tags

  /** `setError(message)`: throws an `Error` carrying `message`. */
  function SetError<T>(message: string): (r: Result<T>)
    ensures !r.Ok? && r.message == message
  {
    Err(message)
  }

  /** `path.isAbsolute(currentPath)`. */
  predicate IsAbsolutePath(currentPath: string) {
    JsString.IsAbsolute(currentPath)
  }

  /** `outputPath !== '' && isAbsolutePath(outputPath)`: the empty string is never absolute, so only absoluteness matters. */
  function IsOutputPathValid(outputPath: string): (b: bool)
    ensures b <==> |outputPath| > 0 && outputPath[0] == '/'
  {
    outputPath != "" && IsAbsolutePath(outputPath)
  }

  /** `file.substr(file.lastIndexOf('.') + 1, file.length)`. */
  function GetFileExtension(file: string): (ext: string) {
    file[JsString.LastIndexOf(file, '.') + 1..]
  }

  /**
   * The extension is the longest dot-free suffix of the whole path: the
   * whole path when it has no dot at all, otherwise what follows its last dot.
   */
  lemma ExtensionIsDotFreeSuffix(file: string)
    ensures var ext := GetFileExtension(file);
            && '.' !in ext
            && |ext| <= |file| && ext == file[|file| - |ext|..]
            && (|ext| == |file| || file[|file| - |ext| - 1] == '.')
  {
    var i := JsString.LastIndexOf(file, '.');
    var ext := file[i + 1..];
    forall k | 0 <= k < |ext|
      ensures ext[k] != '.'
    {
      assert ext[k] == file[i + 1 + k];
    }
  }

  /** With no dot anywhere, the whole path comes back. */
  lemma NoDotWholePath(file: string)
    requires '.' !in file
    ensures GetFileExtension(file) == file
  {
    JsString.LastIndexOfIs(file, '.', -1);
  }

  /** Whatever precedes the last dot, directories included, is dropped. */
  lemma LastDotCounts(front: string, ext: string)
    requires '.' !in ext
    ensures GetFileExtension(front + "." + ext) == ext
  {
    var file := front + "." + ext;
    JsString.LastIndexOfAppend(front + ".", ext, '.');
    assert file == (front + ".") + ext;
    assert file[|front| + 1..] == ext;
  }

  /** `getFileExtension('css/vendors~app-a~app-b.css')` is `'css'`. */
  lemma ExtensionExample()
    ensures GetFileExtension("css/vendors~app-a~app-b.css") == "css"
  {
    LastDotCounts("css/vendors~app-a~app-b", "css");
    assert "css/vendors~app-a~app-b" + "." + "css" == "css/vendors~app-a~app-b.css";
  }

  /**
   * A dot in a directory name is taken for the extension's dot: `v1.2/app`
   * gives `2/app` here, where Node's `path.extname` rule gives nothing.
   */
  lemma DirectoryDotDiffers()
    ensures GetFileExtension("v1.2/app") == "2/app"
    ensures Utils.GetFileExtension("v1.2/app") == ""
  {
    assert "v1" + "." + "2/app" == "v1.2/app";
    assert "v1.2" + "/" + "app" == "v1.2/app";
    LastDotCounts("v1", "2/app");
    Utils.NoDotNoExtension("v1.2", "app");
  }

  /**
   * On an ordinary chunk name `dir/stem.ext` the two extension rules agree,
   * so the revisions classify such files alike.
   */
  lemma AgreesWithExtName(dir: string, stem: string, ext: string)
    requires '/' !in stem && '/' !in ext && '.' !in ext
    requires stem != "" && ext != ""
    ensures GetFileExtension(dir + stem + "." + ext) == Utils.GetFileExtension(dir + stem + "." + ext) == ext
  {
    Utils.ExtensionOfFileName(dir, stem, ext);
    LastDotCounts(dir + stem, ext);
  }

  /** The sorting loops' step under this rule: one more file adds its prefixed path to the list of its type only. */
  lemma TypedStep(prefix: string, files: seq<string>, file: string, ext: string)
    ensures Tags.Typed(prefix, files + [file], ext, GetFileExtension)
         == Tags.Typed(prefix, files, ext, GetFileExtension) + (if GetFileExtension(file) == ext then [prefix + file] else [])
  {
    Tags.TypedStep(prefix, files, file, ext, GetFileExtension);
  }

  /** The same step, for the next file of a chunk, after what was pushed before it. */
  lemma TypedPrefixStep(prefix: string, before: seq<string>, files: seq<string>, j: nat, ext: string)
    requires j < |files|
    ensures before + Tags.Typed(prefix, files[..j + 1], ext, GetFileExtension)
         == (before + Tags.Typed(prefix, files[..j], ext, GetFileExtension))
            + (if GetFileExtension(files[j]) == ext then [prefix + files[j]] else [])
  {
    assert files[..j + 1] == files[..j] + [files[j]];
    TypedStep(prefix, files[..j], files[j], ext);
    Results.AppendAssoc(before, Tags.Typed(prefix, files[..j], ext, GetFileExtension),
                        if GetFileExtension(files[j]) == ext then [prefix + files[j]] else []);
  }
}
