/**
 * Where the plugin's output goes and how its URLs start: the public-path
 * normalisation, the output-directory choice of the older revisions, the
 * names of the per-entrypoint HTML files, and which of them get written.
 */
module Paths {
  import opened Results
  import opened Webpack
  import opened Tags
  import JsString

  /** `!!(publicPath && publicPath.substr(-1) !== '/')`. */
  predicate NeedsEndingSlash(publicPath: string) {
    publicPath != "" && publicPath[|publicPath| - 1] != '/'
  }

  /**
   * `publicPath || ''`, followed by `/` when that is non-empty and does not
   * already end with one.
   */
  function WithEndingSlash(configured: Option<string>): (p: string)
    ensures p == "" <==> configured.GetOr("") == ""
    ensures p != "" ==> p[|p| - 1] == '/'
    ensures configured.GetOr("") <= p && |p| <= |configured.GetOr("")| + 1
  {
    var publicPath := configured.GetOr("");
    publicPath + (if NeedsEndingSlash(publicPath) then "/" else "")
  }

  /** A path that already ends with `/` is kept as it is, so normalising twice changes nothing. */
  lemma WithEndingSlashIdempotent(configured: Option<string>)
    ensures WithEndingSlash(Some(WithEndingSlash(configured))) == WithEndingSlash(configured)
    ensures configured.GetOr("") != "" && configured.GetOr("")[|configured.GetOr("")| - 1] == '/'
            ==> WithEndingSlash(configured) == configured.GetOr("")
  {
  }

  /**
   * The output directory of the revisions that throw: with no custom path the
   * compilation's `output.path`; a custom path only when it is non-empty and
   * absolute; otherwise `new Error(message)`.
   */
  function ChooseOutputPath(custom: Option<string>, compilationPath: string, message: string): (r: Result<string>)
    ensures r.Ok? <==> custom.None? || (custom.value != "" && JsString.IsAbsolute(custom.value))
    ensures r.Ok? ==> r.value == (if custom.Some? then custom.value else compilationPath)
    ensures r.Err? ==> r.message == message
  {
    match custom
    case None => Ok(compilationPath)
    case Some(path) =>
      if path != "" && JsString.IsAbsolute(path) then Ok(path) else Err(message)
  }

  /** `${outputPath}/${entry}-${kind}${fileExtension}`. */
  function TagFileName(outputPath: string, entry: string, kind: string, fileExtension: string): string {
    outputPath + "/" + entry + "-" + kind + fileExtension
  }

  /**
   * Within one output directory and extension, no two entrypoints and no two
   * kinds share a file: the styles file of an entry is never the scripts file
   * of another, so one write never overwrites another's file.
   */
  lemma TagFileNamesDistinct(outputPath: string, e1: string, k1: string, e2: string, k2: string, fileExtension: string)
    requires k1 in {"styles", "scripts"} && k2 in {"styles", "scripts"}
    requires TagFileName(outputPath, e1, k1, fileExtension) == TagFileName(outputPath, e2, k2, fileExtension)
    ensures e1 == e2 && k1 == k2
  {
    var s := TagFileName(outputPath, e1, k1, fileExtension);
    var lo := |outputPath| + 1;
    TagFileNameLayout(outputPath, e1, k1, fileExtension);
    TagFileNameLayout(outputPath, e2, k2, fileExtension);
    if k1 == k2 {
      assert |e1| == |e2|;
      forall i | 0 <= i < |e1|
        ensures e1[i] == e2[i]
      {
        assert s[lo + i] == e1[i] && s[lo + i] == e2[i];
      }
    }
  }

  /** Where the parts of a tag file name sit: the entry after `<outputPath>/`, then `-`, then the kind. */
  lemma TagFileNameLayout(outputPath: string, entry: string, kind: string, fileExtension: string)
    ensures |TagFileName(outputPath, entry, kind, fileExtension)| == |outputPath| + 2 + |entry| + |kind| + |fileExtension|
    ensures forall i :: 0 <= i < |entry| ==> TagFileName(outputPath, entry, kind, fileExtension)[|outputPath| + 1 + i] == entry[i]
    ensures TagFileName(outputPath, entry, kind, fileExtension)[|outputPath| + 1 + |entry|] == '-'
    ensures forall i :: 0 <= i < |kind| ==> TagFileName(outputPath, entry, kind, fileExtension)[|outputPath| + 2 + |entry| + i] == kind[i]
  {
  }

  /** A write to the styles file carries exactly the styles HTML, and only when it is non-empty; likewise for scripts. */
  lemma TagWritesByName(outputPath: string, entry: string, fileExtension: string, tags: HtmlTags, content: string)
    ensures FileWrite(TagFileName(outputPath, entry, "styles", fileExtension), content) in NonEmptyTagWrites(outputPath, entry, fileExtension, tags)
            <==> content == tags.styles && content != ""
    ensures FileWrite(TagFileName(outputPath, entry, "scripts", fileExtension), content) in NonEmptyTagWrites(outputPath, entry, fileExtension, tags)
            <==> content == tags.scripts && content != ""
  {
    TagFileNameLayout(outputPath, entry, "styles", fileExtension);
    TagFileNameLayout(outputPath, entry, "scripts", fileExtension);
  }

  /**
   * The writes of the revisions that gate on content: the scripts file, then
   * the styles file, each only when its HTML is non-empty.
   */
  function NonEmptyTagWrites(outputPath: string, entry: string, fileExtension: string, tags: HtmlTags): (writes: seq<FileWrite>)
    ensures |writes| == (if tags.scripts != "" then 1 else 0) + (if tags.styles != "" then 1 else 0)
    ensures forall w :: w in writes ==> w.content != ""
    ensures FileWrite(TagFileName(outputPath, entry, "scripts", fileExtension), tags.scripts) in writes <==> tags.scripts != ""
    ensures FileWrite(TagFileName(outputPath, entry, "styles", fileExtension), tags.styles) in writes <==> tags.styles != ""
  {
    var scripts := FileWrite(TagFileName(outputPath, entry, "scripts", fileExtension), tags.scripts);
    var styles := FileWrite(TagFileName(outputPath, entry, "styles", fileExtension), tags.styles);
    (if tags.scripts != "" then [scripts] else []) + (if tags.styles != "" then [styles] else [])
  }
}
