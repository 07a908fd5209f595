/**
 * The rendering every revision performs: keep the files of one extension,
 * prefix them with the public path, and turn each into an HTML tag through a
 * `{{chunk}}` template, concatenating the tags in order.
 */
module Tags {
  import opened Results
  import JsString

  /** Chunk paths of one entrypoint, split by type. */
  datatype Chunks = Chunks(styles: seq<string>, scripts: seq<string>)

  /** The HTML of one entrypoint, split by type. */
  datatype HtmlTags = HtmlTags(styles: string, scripts: string)

  /** What a user's `customFormatTags` returned: `null`, or an object whose `styles`/`scripts` may be missing. */
  datatype CustomTags = NullTags | TagsObject(styles: Option<string>, scripts: Option<string>)

  /** The `customFormatTags` option: a function, or any other value (`false` by default). */
  datatype FormatTagsOption<F> = NotAFunction | Function(format: F)

  const ChunkPlaceholder: string := "{{chunk}}"
  const StyleExtension: string := "css"
  const ScriptExtension: string := "js"

  /** The files whose extension, as `extOf` computes it, is exactly `ext`, in their original order. */
  function Select(files: seq<string>, ext: string, extOf: string -> string): (r: seq<string>)
    ensures |r| <= |files|
  {
    if files == [] then []
    else
      var last := files[|files| - 1];
      Select(files[..|files| - 1], ext, extOf) + (if extOf(last) == ext then [last] else [])
  }

  /** Every element of `xs` with `prefix` in front, in order. */
  function Prefixed(prefix: string, xs: seq<string>): (r: seq<string>)
    ensures |r| == |xs|
    ensures forall i :: 0 <= i < |xs| ==> r[i] == prefix + xs[i]
  {
    if xs == [] then []
    else Prefixed(prefix, xs[..|xs| - 1]) + [prefix + xs[|xs| - 1]]
  }

  /** `paths.map(p => template.replace('{{chunk}}', p)).join('')`. */
  function Render(template: string, paths: seq<string>): string {
    if paths == [] then ""
    else Render(template, paths[..|paths| - 1]) + JsString.Replace(template, ChunkPlaceholder, paths[|paths| - 1])
  }

  /**
   * The files of one extension, in order, each prefixed with `publicPath`,
   * as the sorting loops push them one file at a time.
   */
  function Typed(publicPath: string, files: seq<string>, ext: string, extOf: string -> string): seq<string> {
    if files == [] then []
    else
      var last := files[|files| - 1];
      Typed(publicPath, files[..|files| - 1], ext, extOf) + (if extOf(last) == ext then [publicPath + last] else [])
  }

  /** The styles and scripts of `files`, each prefixed with `publicPath`; every other file is dropped. */
  function SortChunks(files: seq<string>, publicPath: string, extOf: string -> string): (c: Chunks)
    ensures |c.styles| + |c.scripts| <= |files|
  {
    TypedIsPrefixedSelect(publicPath, files, StyleExtension, extOf);
    TypedIsPrefixedSelect(publicPath, files, ScriptExtension, extOf);
    SelectPartition(files, StyleExtension, ScriptExtension, extOf);
    Chunks(Typed(publicPath, files, StyleExtension, extOf), Typed(publicPath, files, ScriptExtension, extOf))
  }

  /** The default tag formatting: each type rendered through its own template. */
  function FormatTags(chunks: Chunks, templateStyle: string, templateScript: string): (t: HtmlTags)
    ensures |templateStyle| > |ChunkPlaceholder| ==> (t.styles == "" <==> chunks.styles == [])
    ensures |templateScript| > |ChunkPlaceholder| ==> (t.scripts == "" <==> chunks.scripts == [])
  {
    assert |templateStyle| > |ChunkPlaceholder| ==> (Render(templateStyle, chunks.styles) == "" <==> chunks.styles == []) by {
      if |templateStyle| > |ChunkPlaceholder| {
        RenderEmptyIff(templateStyle, chunks.styles);
      }
    }
    assert |templateScript| > |ChunkPlaceholder| ==> (Render(templateScript, chunks.scripts) == "" <==> chunks.scripts == []) by {
      if |templateScript| > |ChunkPlaceholder| {
        RenderEmptyIff(templateScript, chunks.scripts);
      }
    }
    HtmlTags(Render(templateStyle, chunks.styles), Render(templateScript, chunks.scripts))
  }

  /**
   * The check of the 3.x revisions on what `customFormatTags` returned:
   * `null` or a missing `styles` or `scripts` throws `message`; any strings,
   * empty ones included, are accepted as they are.
   */
  function CheckCustomTags(t: CustomTags, message: string): (r: Result<HtmlTags>)
    ensures r.Ok? <==> t.TagsObject? && t.styles.Some? && t.scripts.Some?
    ensures r.Ok? ==> r.value.styles == t.styles.value && r.value.scripts == t.scripts.value
    ensures r.Err? ==> r.message == message
  {
    if t.NullTags? || t.styles.None? || t.scripts.None? then Err(message)
    else Ok(HtmlTags(t.styles.value, t.scripts.value))
  }

  /**
   * The HTML of a chunk group in the 3.x revisions: when `customFormatTags`
   * is a function, its result for the sorted files and `arg` as
   * `CheckCustomTags` accepts it, which throws `message` on a malformed
   * result; otherwise the templates' rendering of the sorted files.
   */
  function CustomOrTemplateTags<X>(customFormatTags: FormatTagsOption<(Chunks, X) -> CustomTags>, sorted: Chunks, arg: X,
                                   templateStyle: string, templateScript: string, message: string): (r: Result<HtmlTags>)
    ensures r.Err? ==> customFormatTags.Function? && r.message == message
    ensures customFormatTags.NotAFunction? ==> r == Ok(FormatTags(sorted, templateStyle, templateScript))
    ensures customFormatTags.Function? ==> r == CheckCustomTags(customFormatTags.format(sorted, arg), message)
  {
    match customFormatTags
    case Function(format) => CheckCustomTags(format(sorted, arg), message)
    case NotAFunction => Ok(FormatTags(sorted, templateStyle, templateScript))
  }

  /** A file is selected exactly when it is one of the files and has the extension. */
  lemma {:induction false} SelectMembership(files: seq<string>, ext: string, extOf: string -> string, x: string)
    ensures x in Select(files, ext, extOf) <==> x in files && extOf(x) == ext
  {
    if files != [] {
      var init := files[..|files| - 1];
      SelectMembership(init, ext, extOf, x);
      assert files == init + [files[|files| - 1]];
    }
  }

  /** Nothing is selected exactly when no file has the extension. */
  lemma SelectNone(files: seq<string>, ext: string, extOf: string -> string)
    ensures Select(files, ext, extOf) == [] <==> forall f :: f in files ==> extOf(f) != ext
  {
    var r := Select(files, ext, extOf);
    if r != [] {
      SelectMembership(files, ext, extOf, r[0]);
    }
    forall f | f in files && extOf(f) == ext
      ensures r != []
    {
      SelectMembership(files, ext, extOf, f);
    }
  }

  /** Selection keeps the order of the files: selecting from two runs of files is selecting from each. */
  lemma {:induction false} SelectAppend(a: seq<string>, b: seq<string>, ext: string, extOf: string -> string)
    ensures Select(a + b, ext, extOf) == Select(a, ext, extOf) + Select(b, ext, extOf)
  {
    if b == [] {
      assert a + b == a;
    } else {
      var init := b[..|b| - 1];
      SelectAppend(a, init, ext, extOf);
      assert (a + b)[..|a + b| - 1] == a + init;
    }
  }

  /** A file with two different extensions cannot be, so two selections take at most all the files. */
  lemma {:induction false} SelectPartition(files: seq<string>, ext1: string, ext2: string, extOf: string -> string)
    requires ext1 != ext2
    ensures |Select(files, ext1, extOf)| + |Select(files, ext2, extOf)| <= |files|
  {
    if files != [] {
      SelectPartition(files[..|files| - 1], ext1, ext2, extOf);
    }
  }

  /** Prefixing two runs of paths is prefixing each. */
  lemma PrefixedAppend(prefix: string, a: seq<string>, b: seq<string>)
    ensures Prefixed(prefix, a + b) == Prefixed(prefix, a) + Prefixed(prefix, b)
  {
    var l, r := Prefixed(prefix, a + b), Prefixed(prefix, a) + Prefixed(prefix, b);
    assert |l| == |r|;
    forall i | 0 <= i < |l|
      ensures l[i] == r[i]
    {
      if i < |a| {
        assert (a + b)[i] == a[i];
      } else {
        assert (a + b)[i] == b[i - |a|];
      }
    }
  }

  /** Rendering two runs of paths is concatenating their renderings. */
  lemma {:induction false} RenderAppend(template: string, a: seq<string>, b: seq<string>)
    ensures Render(template, a + b) == Render(template, a) + Render(template, b)
  {
    if b == [] {
      assert a + b == a;
    } else {
      var init, last := b[..|b| - 1], b[|b| - 1];
      RenderAppend(template, a, init);
      assert (a + b)[..|a + b| - 1] == a + init && (a + b)[|a + b| - 1] == last;
      var tag := JsString.Replace(template, ChunkPlaceholder, last);
      assert Render(template, a + b) == Render(template, a + init) + tag;
      assert Render(template, b) == Render(template, init) + tag;
      Results.AppendAssoc(Render(template, a), Render(template, init), tag);
    }
  }

  /**
   * A template with text besides the placeholder renders to the empty string
   * exactly when there is nothing to render.
   */
  lemma RenderEmptyIff(template: string, paths: seq<string>)
    requires |template| > |ChunkPlaceholder|
    ensures Render(template, paths) == "" <==> paths == []
  {
    if paths != [] {
      var last := JsString.Replace(template, ChunkPlaceholder, paths[|paths| - 1]);
      assert |last| >= |template| - |ChunkPlaceholder|;
    }
  }

  /** The push of the loops that sort chunks: one more file adds its prefixed path when it has the extension. */
  lemma TypedStep(prefix: string, files: seq<string>, f: string, ext: string, extOf: string -> string)
    ensures Typed(prefix, files + [f], ext, extOf) == Typed(prefix, files, ext, extOf) + (if extOf(f) == ext then [prefix + f] else [])
  {
    assert (files + [f])[..|files|] == files;
  }

  /**
   * Pushing file by file gives what `files.filter(...).map(...)` gives:
   * the files of the extension, selected in order, then prefixed.
   */
  lemma {:induction false} TypedIsPrefixedSelect(prefix: string, files: seq<string>, ext: string, extOf: string -> string)
    ensures Typed(prefix, files, ext, extOf) == Prefixed(prefix, Select(files, ext, extOf))
  {
    if files != [] {
      var init, last := files[..|files| - 1], files[|files| - 1];
      TypedIsPrefixedSelect(prefix, init, ext, extOf);
      var sel := Select(init, ext, extOf);
      if extOf(last) == ext {
        PrefixedAppend(prefix, sel, [last]);
      } else {
        assert sel + [] == sel;
        assert Typed(prefix, init, ext, extOf) + [] == Typed(prefix, init, ext, extOf);
      }
    }
  }

  /** The pushes for two runs of files, one after the other, are those of the first run, then those of the second. */
  lemma TypedAppend(prefix: string, a: seq<string>, b: seq<string>, ext: string, extOf: string -> string)
    ensures Typed(prefix, a + b, ext, extOf) == Typed(prefix, a, ext, extOf) + Typed(prefix, b, ext, extOf)
  {
    TypedIsPrefixedSelect(prefix, a + b, ext, extOf);
    TypedIsPrefixedSelect(prefix, a, ext, extOf);
    TypedIsPrefixedSelect(prefix, b, ext, extOf);
    SelectAppend(a, b, ext, extOf);
    PrefixedAppend(prefix, Select(a, ext, extOf), Select(b, ext, extOf));
  }

  /** A type's list is empty exactly when no file has that extension. */
  lemma TypedNone(prefix: string, files: seq<string>, ext: string, extOf: string -> string)
    ensures Typed(prefix, files, ext, extOf) == [] <==> forall f :: f in files ==> extOf(f) != ext
  {
    TypedIsPrefixedSelect(prefix, files, ext, extOf);
    SelectNone(files, ext, extOf);
  }

  /** Default-style templates: the text before `{{chunk}}` holds no `{`, so the path lands in that hole. */
  lemma FillTemplate(pre: string, post: string, path: string)
    requires '{' !in pre
    ensures JsString.Replace(pre + ChunkPlaceholder + post, ChunkPlaceholder, path) == pre + path + post
  {
    JsString.ReplaceFirstHole(pre, ChunkPlaceholder, post, path);
  }
}
