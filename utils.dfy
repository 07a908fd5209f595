/**
 * The helpers of the TypeScript revision (`src/utils.ts`, compiled to
 * `lib/utils.js` with the same behaviour): throwing, absolute-path test and
 * file extension through Node's `path.extname`.
 */
module Utils {
  import opened Results
  import JsString

  /** `setError(message)`: never returns a value; it throws an `Error` carrying `message`. */
  function SetError<T>(message: string): (r: Result<T>)
    ensures !r.Ok? && r.message == message
  {
    Err(message)
  }

  /** `path.isAbsolute(currentPath)`. */
  predicate IsAbsolutePath(currentPath: string) {
    JsString.IsAbsolute(currentPath)
  }

  /** `path.extname(file).substr(1)`: the extension of the basename, without its dot. */
  function GetFileExtension(file: string): (ext: string)
    ensures '.' !in ext && '/' !in ext
    ensures ext != "" ==> "." + ext <= JsString.ExtName(file) && |JsString.ExtName(file)| == |ext| + 1
  {
    var e := JsString.ExtName(file);
    if e == "" then "" else e[1..]
  }

  /**
   * A basename `stem.ext`, with any text before it: the extension is `ext`.
   * Only the last dot counts, so `a.css.map` has extension `map`.
   */
  lemma ExtensionOfFileName(dir: string, stem: string, ext: string)
    requires '/' !in stem && '/' !in ext && '.' !in ext
    requires stem != "" && ext != ""
    ensures GetFileExtension(dir + stem + "." + ext) == ext
  {
    var tail := stem + "." + ext;
    assert dir + stem + "." + ext == dir + tail by {
      Results.AppendAssoc(dir + stem, ".", ext);
      Results.AppendAssoc(dir, stem, "." + ext);
      Results.AppendAssoc(stem, ".", ext);
    }
    JsString.BasenameKeepsTail(dir, tail);
    var last := dir[JsString.LastIndexOf(dir, '/') + 1..];
    assert last + tail == last + stem + "." + ext by {
      Results.AppendAssoc(last + stem, ".", ext);
      Results.AppendAssoc(last, stem, "." + ext);
      Results.AppendAssoc(stem, ".", ext);
    }
    JsString.ExtNameOfDotted(dir + tail, last + stem, ext);
  }

  /** Source maps are neither styles nor scripts: `x.css.map` and `x.js.map` have extension `map`. */
  lemma SourceMapExtension(dir: string, stem: string, ext: string)
    requires '/' !in stem && '/' !in ext && stem != ""
    ensures GetFileExtension(dir + stem + "." + ext + ".map") == "map"
  {
    var name := stem + "." + ext;
    assert '/' !in name;
    Results.AppendAssoc(dir, stem + "." + ext, ".map");
    assert dir + stem + "." + ext + ".map" == dir + name + "." + "map";
    ExtensionOfFileName(dir, name, "map");
  }

  /** A basename without a dot has no extension, whatever dots the directories hold. */
  lemma NoDotNoExtension(dir: string, name: string)
    requires '/' !in name && '.' !in name && name != ""
    ensures GetFileExtension(dir + "/" + name) == ""
  {
    JsString.BasenameOfComponent(dir, name);
    JsString.LastIndexOfIs(name, '.', -1);
  }

  /** A dot-file such as `.env` has no extension. */
  lemma DotFileNoExtension(dir: string, name: string)
    requires '/' !in name && '.' !in name
    ensures GetFileExtension(dir + "/." + name) == ""
  {
    assert dir + "/." + name == dir + "/" + ("." + name);
    JsString.BasenameOfComponent(dir, "." + name);
    var b := "." + name;
    forall k | 0 < k < |b|
      ensures b[k] != '.'
    {
      assert b[k] == name[k - 1];
    }
    JsString.LastIndexOfIs(b, '.', 0);
  }

  /** `getFileExtension('css/vendors~app-a~app-b.css')` is `'css'`. */
  lemma ExtensionExample()
    ensures GetFileExtension("css/" + "vendors~app-a~app-b" + "." + "css") == "css"
  {
    ExtensionOfFileName("css/", "vendors~app-a~app-b", "css");
  }
}
