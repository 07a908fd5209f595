# ChunksWebpackPlugin in Dafny

ChunksWebpackPlugin is a webpack plugin. After a build it takes the output
files of every entrypoint (chunk group), keeps the styles (`css`) and the
scripts (`js`) and prefixes each with the public path. It then turns each
list into HTML tags through a `{{chunk}}` template and writes
`<outputPath>/<entry>-styles<ext>` and `<outputPath>/<entry>-scripts<ext>`.
From 3.3.0 on it can also record a manifest, entry name to
`{styles, scripts}`, as `chunks-manifest.json`.

This project models four revisions of the plugin and their helper modules.

- 1.0.1, `index.js`: module `PluginV101`. A class whose nested loops append.
- 3.2.1, `dist/index.js`: modules `PluginV321` and `LoopsV3`. A class whose loops push, then gated writes.
- 3.3.0, `src/index.js` and `src/utils.js`: modules `PluginV330`, `LoopsV3` and `UtilsV3`. A class with loops and a manifest file.
- 6.0.1, `src/index.ts` and `lib/index.js` (its compiled form), with `src/utils.ts` and `lib/utils.js`: modules `PluginV601` and `Utils`. A class holds the state; filter, map and join become functions.

Shared modules:

- `Results`: `Option`, `Result`, `Outcome`. A `throw new Error(message)` is an `Err`/`Fail` carrying the message.
- `JsString`: the JavaScript and Node string operations the plugin uses.
  - `indexOf`, `lastIndexOf`
  - `replace` with a string pattern (first occurrence only)
  - POSIX `path.isAbsolute`, `path.basename` and `path.extname`
  - the UTF-16 `length` of a string
- `Webpack`: what the host hands over, as values. The `Compilation` class stands for webpack's compilation object; its `assets` table is the one host object the plugin changes.
- `Tags`: the reference definitions of sorting and rendering that every revision is proved against.
  - `Select` and `Prefixed` are filter and map.
  - `Typed` is the list that file-by-file pushes build.
  - `Render` is map-then-join.
- `Paths`: public-path normalisation, output-directory choice, HTML file names and which of them are written.
- `ChunksManifest`: the manifest as an insertion-ordered association list, and its `JSON.stringify(manifest, null, 2)` text.

How side effects are modelled:

- File writes are appended to a `written` log of `(path, content)` pairs, in the order the source performs them.
- A method that can throw returns an `Outcome` or a `Result`. Whatever it changed before the throw stays changed, as in JavaScript.
- Each plugin class's top-level method is proved against a specification function of the whole run (`DoneWrites`, `RunGroups`, `RunEntries`). The lemmas beside it prove what the run guarantees:
  - ordering
  - stopping at the first throw
  - gating by the options
  - the manifest's contents
  - key uniqueness

Two behaviours of 6.0.1 that are easy to miss are stated as they are in the code:

- The `chunks-manifest.json` asset is added whenever `generateChunksManifest` is set and no entrypoint threw, even when no entrypoint has files (src/index.ts:85-99). A first build without files registers `{}`: `PluginV601.NoFilesNoWork` with `PluginV601.ChunksWebpackPlugin.HookCallback`.
- `getHtmlTags` throws when a custom result is invalid (src/index.ts:175-190), even with `generateChunksFiles` off: `PluginV601.HtmlTagsOf` and `PluginV601.CustomTagsCheckedWithoutFiles`.

## Model

| member | source | states |
|---|---|---|
| JsString.IndexFrom | src/index.ts:221 | the first occurrence of the pattern at or after `from`, or -1 when none |
| JsString.LastIndexOf | src/utils.js:22 | `lastIndexOf`: -1 or the index of the character, with no later occurrence |
| JsString.Replace | src/index.js:204 | `replace` with a string pattern: unchanged when the pattern does not occur; otherwise the first occurrence is replaced and the text before and after it is kept, so the length changes by `\|rep\| - \|pat\|` |
| JsString.ReplaceFirstHole | src/index.ts:221 | when the pattern's first character does not occur before a hole, that hole is the one replaced and the text around it is kept |
| JsString.TrimTrailingSlashes | src/utils.ts:36 | the path without its trailing `/` run: a prefix, and it no longer ends in `/` |
| JsString.Basename | src/utils.ts:36 | the last path component, which holds no `/` |
| JsString.ExtName | src/utils.ts:36 | `path.extname`: empty, or a dot followed by dot-free and slash-free text |
| JsString.BasenameOfComponent | lib/utils.js:34 | the basename of `dir/name` is `name` |
| JsString.LastIndexOfAppend | src/utils.js:22 | the last occurrence in `a + b` is in `a` when `b` holds none |
| JsString.BasenameKeepsTail | lib/utils.js:34 | a slash-free tail not ending in `/` stays the end of the basename |
| JsString.ExtNameOfDotted | src/utils.ts:36 | a slash-free basename `front.ext` with dot-free `ext` has extname `.ext` |
| JsString.Utf16Length | lib/index.js:246-249 | the `length` of a string in UTF-16 code units: between one and two per character |
| JsString.Utf16LengthOfBmp | src/index.ts:303 | for text made of Basic Multilingual Plane characters, `length` is the number of characters |
| Utils.SetError | src/utils.ts:15-17 | never returns a value: always the error carrying the given message |
| Utils.IsAbsolutePath | src/utils.ts:24-26 | `path.isAbsolute` on POSIX, a path starting with `/`; no contract of its own: PluginV601.OutputPathOf states what the output-path check makes of it |
| Utils.GetFileExtension | src/utils.ts:35-37 | the extension never contains `.` or `/`; a non-empty one is `path.extname(file)` without its dot |
| Utils.ExtensionOfFileName | lib/utils.js:33-35 | `dir + stem + "." + ext` with a slash-free stem and a dot-free, slash-free `ext` has extension `ext` |
| Utils.SourceMapExtension | src/utils.ts:35-37 | only the last extension counts: `x.css.map` and `x.js.map` have extension `map`, never `css` or `js` |
| Utils.NoDotNoExtension | lib/utils.js:33-35 | a basename without a dot has no extension, whatever dots the directories hold |
| Utils.DotFileNoExtension | src/utils.ts:35-37 | a dot-file such as `.env` has no extension |
| Utils.ExtensionExample | src/utils.ts:35-37 | `css/vendors~app-a~app-b.css` has extension `css` |
| UtilsV3.SetError | src/utils.js:4-6 | never returns a value: always the error carrying the given message |
| UtilsV3.IsAbsolutePath | src/utils.js:8-10 | the same POSIX test; no contract of its own: UtilsV3.IsOutputPathValid states it as starting with `/` |
| UtilsV3.GetFileExtension | src/utils.js:21-23 | no contract of its own: UtilsV3.ExtensionIsDotFreeSuffix states that it is the dot-free text after the whole path's last dot, or the whole path without a dot, and UtilsV3.DirectoryDotDiffers that a dot in a directory counts |
| UtilsV3.IsOutputPathValid | src/utils.js:12-14 | valid exactly when the path is non-empty and absolute (starts with `/`); `''` and relative paths are invalid |
| UtilsV3.ExtensionIsDotFreeSuffix | src/utils.js:21-23 | the extension is a suffix of the path, holds no dot, and is everything after the last dot (the whole path when there is none) |
| UtilsV3.NoDotWholePath | dist/index.js:179-181 | with no dot anywhere, the whole path comes back |
| UtilsV3.LastDotCounts | dist/index.js:179-181 | whatever precedes the last dot is dropped: `front + "." + ext` gives `ext` |
| UtilsV3.ExtensionExample | src/utils.js:21-23 | `css/vendors~app-a~app-b.css` has extension `css` |
| UtilsV3.DirectoryDotDiffers | src/utils.js:21-23 | a dot in a directory counts: `v1.2/app` gives `2/app` here, but `''` under the `path.extname` rule of 6.0.1 |
| UtilsV3.AgreesWithExtName | index.js:124-126 | on an ordinary `dir/stem.ext` file name the `lastIndexOf` rule and the `path.extname` rule agree |
| UtilsV3.TypedStep | src/index.js:179-183 | under the `lastIndexOf` rule, one more file adds its prefixed path to its own type's list only |
| Webpack.Flatten | src/index.js:177-178 | a group's files, chunk after chunk; no contract of its own: Webpack.FlattenStep states that one more chunk appends its files |
| Webpack.FlattenStep | src/index.js:177-178 | chunks are visited in order and each chunk's files in order |
| Webpack.Names | src/index.ts:152-154 | `getEntryNames`: one name per entrypoint, in enumeration order |
| Tags.Select | lib/index.js:151-161 | the filter never yields more files than it was given |
| Tags.Prefixed | src/index.ts:203 | the map keeps the length and puts the prefix in front of each element, in order |
| Tags.SortChunks | src/index.js:171-188 | each file lands in at most one list, so the two lists together hold at most as many paths as there are files |
| Tags.FormatTags | src/index.ts:217-228 | with templates holding text besides `{{chunk}}`, a type's HTML is empty exactly when that type has no files |
| Tags.CheckCustomTags | src/index.js:70-77 | 3.x check of a custom result: `null` or a missing key throws the message; any strings, empty ones included, come back unchanged |
| Tags.CustomOrTemplateTags | src/index.js:69-81 | the 3.x choice of HTML: a `customFormatTags` function's result for the sorted files, as `CheckCustomTags` accepts or rejects it (so `null` or a missing key throws the given message, and valid strings are used as they are); otherwise the templates' rendering of the sorted files; only a function can fail |
| Tags.SelectMembership | src/index.ts:199-208 | a file is selected exactly when it is one of the files and has the extension |
| Tags.SelectNone | src/index.ts:258-260 | the selection is empty exactly when no file has the extension |
| Tags.SelectAppend | lib/index.js:151-161 | filtering distributes over concatenation, so order is preserved |
| Tags.SelectPartition | src/index.js:179-183 | two different extensions select disjoint runs: their sizes add up to at most the number of files |
| Tags.PrefixedAppend | src/index.ts:203 | mapping distributes over concatenation |
| Tags.Render | src/index.ts:217-228 | no contract of its own: Tags.RenderAppend states that it renders one path after another, and Tags.RenderEmptyIff when its result is empty |
| Tags.RenderAppend | lib/index.js:169-181 | rendering two runs of paths is rendering the first, then the second |
| Tags.RenderEmptyIff | src/index.ts:217-228 | with a template longer than `{{chunk}}`, the rendered HTML is empty exactly when there are no paths |
| Tags.Typed | src/index.js:177-185 | no contract of its own: Tags.TypedIsPrefixedSelect states that it is the files of the type, in order, each prefixed |
| Tags.TypedStep | dist/index.js:110-118 | one push: a file adds its prefixed path exactly when it has the type |
| Tags.TypedIsPrefixedSelect | src/index.ts:199-208 | file-by-file pushes build what `filter` then `map` build |
| Tags.TypedAppend | src/index.js:177-185 | the pushes for two runs of files are the first run's, then the second's |
| Tags.TypedNone | dist/index.js:90-94 | a type's list is empty exactly when no file has that type |
| Tags.FillTemplate | src/index.ts:221 | a template with no `{` before its `{{chunk}}` hole, as the default ones, receives the path in that hole |
| Paths.NeedsEndingSlash | src/index.ts:237-239 | no contract of its own: Paths.WithEndingSlash states its effect, a non-empty path ending in `/` with at most one character added |
| Paths.WithEndingSlash | src/index.ts:128-131 | `getPublicPath`: `''` for a missing or empty path; otherwise the path, ending in `/`, with at most one character added |
| Paths.WithEndingSlashIdempotent | src/index.js:127-137 | normalising twice changes nothing; a path already ending in `/` is kept as it is |
| Paths.ChooseOutputPath | index.js:46-52 | succeeds exactly when there is no custom path or it is non-empty and absolute; the result is then the custom path itself, or the compilation's path when there is none; otherwise it throws the message |
| Paths.TagFileName | src/index.ts:322 | `<outputPath>/<entry>-<kind><fileExtension>`; no contract of its own: Paths.TagFileNameLayout states where the entry and the kind sit, and Paths.TagFileNamesDistinct that distinct pairs get distinct names |
| Paths.TagFileNamesDistinct | src/index.ts:320-331 | within one directory and extension, distinct (entry, type) pairs get distinct file names, so no write clobbers another |
| Paths.TagWritesByName | src/index.ts:320-331 | a write to an entry's styles file carries exactly its styles HTML, and only when that is non-empty; the same for scripts |
| Paths.NonEmptyTagWrites | src/index.js:221-238 | one write per non-empty HTML string, and never an empty file; the scripts file is written exactly when its HTML is non-empty, and the same for styles |
| ChunksManifest.Keys | src/index.ts:297 | `Object.keys`: one key per entry, in insertion order |
| ChunksManifest.Find | src/index.ts:285 | the index where the key is stored, and no earlier entry has it; or -1 when no entry has it |
| ChunksManifest.Get | src/index.ts:285 | `manifest[key]`: absent exactly when the key was never assigned; present values are stored pairs |
| ChunksManifest.Put | lib/index.js:230-236 | assigning an existing key keeps the size; a new key adds one entry |
| ChunksManifest.PutGet | src/index.js:113-117 | reading back the key just assigned gives the value assigned |
| ChunksManifest.PutGetOther | src/index.ts:284-289 | every other key keeps its value |
| ChunksManifest.PutKeys | lib/index.js:230-236 | key order: an existing key keeps its place, a new key goes last |
| ChunksManifest.PutUnique | src/index.js:113-117 | assignment never stores a key twice |
| ChunksManifest.Quote | src/index.js:249 | a JSON string: the text between two double quotes |
| ChunksManifest.JoinLines | src/index.js:249 | no lines give `''`; the text has at least two characters for each separator between lines |
| ChunksManifest.ItemLines | src/index.js:249 | one line per array item, indented by six spaces, quoted |
| ChunksManifest.ArrayText | src/index.js:249 | an array is `[]` exactly when it is empty |
| ChunksManifest.Stringify | src/index.ts:297 | the JSON text is `{}` exactly for an empty manifest, and is otherwise enclosed in braces |
| ChunksManifest.EntryText | src/index.js:249 | one manifest entry at depth one; no contract of its own: ChunksManifest.StringifyExample fixes its length for one entry |
| ChunksManifest.StringifyExample | lib/index.js:241-250 | the manifest of one entry `app-a` with one style and one script under `/dist/` is 148 characters of JSON |
| PluginV101.MergeOptions | index.js:18-27 | an option the user passed replaces its default (`path: null`, `.html`, the two templates); an absent one keeps it |
| PluginV101.FilesHtml | index.js:81-89 | no contract of its own: PluginV101.FilesHtmlIsRendered states that it is the type's files, prefixed and rendered in order |
| PluginV101.FilesHtmlIsRendered | index.js:81-89 | the tags a chunk's files add to one type are that type's files, prefixed, each rendered through the template, in order |
| PluginV101.FilesHtmlStep | index.js:83-87 | one more file adds its filled template when it has the type, and nothing otherwise |
| PluginV101.FilesHtmlAppend | index.js:81-89 | the tags of two runs of files are those of the first run, then those of the second |
| PluginV101.GroupWrites | index.js:103-110 | one group's scripts write, then its styles write; no contract of its own: PluginV101.DoneWritesAt places them at `2i` and `2i+1` |
| PluginV101.DoneWrites | index.js:58-67 | every chunk group makes exactly two writes |
| PluginV101.DoneWritesAt | index.js:58-67 | group `i`'s two writes are writes `2i` (scripts) and `2i+1` (styles) of the build |
| PluginV101.EmptyStylesStillWritten | index.js:103-110 | a group with no `css` file still gets a styles file, and it is empty |
| PluginV101.ChunksWebpackPlugin.constructor | index.js:18-27 | options merged; nothing written |
| PluginV101.ChunksWebpackPlugin.Done | index.js:41-68 | the public path is assigned first; an invalid path throws before any write; otherwise the path is chosen and every group writes its two files, in order |
| PluginV101.ChunksWebpackPlugin.CreateGroupFiles | index.js:58-67 | the log grows by the two writes of each group, group after group |
| PluginV101.ChunksWebpackPlugin.GenerateTags | index.js:75-95 | the styles and scripts HTML are each type's files, in chunk then file order, rendered and concatenated |
| PluginV101.ChunksWebpackPlugin.ChunkTags | index.js:82-88 | the inner loop extends each HTML string by the tags of that chunk's files of its type |
| PluginV101.ChunksWebpackPlugin.FileTag | index.js:83-87 | a `css` file extends the styles and a `js` file the scripts; any other file changes neither |
| PluginV101.ChunksWebpackPlugin.CreateFiles | index.js:103-110 | always both files, scripts first, named `<path>/<entry>-<type><fileExtension>`, even when empty |
| PluginV321.MergeOptions | dist/index.js:20-31 | each supplied option, `customFormatTags` included, replaces its default (`outputPath: 'default'`, `.html`, the templates, `customFormatTags: false`) |
| PluginV321.OutputPathOf | dist/index.js:58-65 | `'default'` gives the compilation's path; a custom path only when absolute; otherwise `ChunksWebpackPlugin::outputPath is incorrect` |
| PluginV321.GroupTags | dist/index.js:76-88 | a custom function's result for the sorted files and the group goes through `CheckCustomTags`: `null` or a missing key throws `...customFormatTags return incorrect object`, valid strings are used; only a custom function can fail; the default is the templates' rendering of the sorted files |
| PluginV321.CustomResultDecides | dist/index.js:78-84 | with a custom function, the group throws the custom-tags message exactly when its result is `null` or lacks `styles` or `scripts`; otherwise its two strings are the HTML |
| PluginV321.GroupEffect | dist/index.js:72-96 | a group without chunks does nothing; a failure carries the custom-tags message |
| PluginV321.GroupEffectOk | dist/index.js:90-94 | a group whose tags were formatted writes its gated files |
| PluginV321.RunGroups | dist/index.js:72-96 | a run can only stop on a custom function, with the custom-tags message |
| PluginV321.RunStopsAtFailure | dist/index.js:72-96 | once a group has thrown, the groups after it change nothing |
| PluginV321.RunGroupsExtend | dist/index.js:72-96 | after groups that did not throw, one more group either throws, keeping the writes so far, or appends its writes |
| PluginV321.RunStep | dist/index.js:72-96 | one more group extends the run by its writes, or stops it with the writes so far |
| PluginV321.DefaultFormattingNeverFails | dist/index.js:85-88 | with the default formatting no group throws |
| PluginV321.GatedWrites | dist/index.js:90-94 | no contract of its own: PluginV321.GroupWritesGated states which of the two files it writes |
| PluginV321.GroupWritesGated | dist/index.js:90-94 | a type's file is written exactly when the group has a file of that type and its HTML is non-empty |
| PluginV321.DefaultWritesIffTyped | dist/index.js:90-94 | with the default templates a type's file is written exactly when the group has a file of that type |
| PluginV321.ChunksWebpackPlugin.constructor | dist/index.js:20-31 | options merged; nothing written |
| PluginV321.ChunksWebpackPlugin.Done | dist/index.js:47-97 | the public path is normalised first; an invalid output path throws before any write; otherwise the groups run in order until the first throw |
| PluginV321.ChunksWebpackPlugin.ForEachChunkGroups | dist/index.js:72-96 | the log grows by the run's writes; it throws exactly when the run does |
| PluginV321.ChunksWebpackPlugin.ForEachChunkGroup | dist/index.js:72-96 | a group either throws without writing or writes its whole effect |
| PluginV321.ChunksWebpackPlugin.FormatChunkGroup | dist/index.js:75-88 | the sorted files and the group's tags, or the custom-tags error |
| PluginV321.ChunksWebpackPlugin.CreateFiles | dist/index.js:149-161 | scripts file then styles file, each only for a present, non-empty HTML string |
| LoopsV3.Sorted | src/index.js:171-188 | no contract of its own: it is the specification LoopsV3.SortsChunksByType is proved against, and PluginV330.SortedStyleAndScript sorts one chunk with it |
| LoopsV3.SortsChunksByType | src/index.js:171-188 | the nested push loops build exactly the prefixed styles and scripts of the group's files, in chunk then file order |
| LoopsV3.SortChunkFiles | src/index.js:178-184 | the inner loop extends each list by that chunk's prefixed files of its type, in order |
| LoopsV3.SortFile | dist/index.js:111-116 | a `css` file is pushed onto the styles, a `js` file onto the scripts, any other file nowhere |
| LoopsV3.GenerateTags | src/index.js:197-212 | the `+=` loops build exactly the default formatting: each type's templates filled in order and concatenated |
| PluginV330.MergeOptions | src/index.js:18-30 | each supplied option, `customFormatTags` included, replaces its default; the defaults include `generateChunksManifest: false` and `generateChunksFiles: true` |
| PluginV330.OutputPathOf | src/index.js:147-161 | `'default'` gives the compilation's path; a custom path only when non-empty and absolute; otherwise `ChunksWebpackPlugin::outputPath option is invalid` |
| PluginV330.GroupTags | src/index.js:67-81 | a custom function's result for the sorted files and the group goes through `CheckCustomTags`: `null` or a missing key throws `...customFormatTags return invalid object`, valid strings are used; only a custom function can fail; the default is the templates' rendering |
| PluginV330.GroupWrites | src/index.js:58-88 | no chunks or `generateChunksFiles` off: no write; otherwise it fails exactly when the group's tags do, and writes each non-empty HTML string of those tags, scripts first; failures come only from a custom function |
| PluginV330.GroupManifest | src/index.js:90-96 | no contract of its own: PluginV330.ManifestHoldsGroup and PluginV330.ManifestKeepsOthers state what it stores and what it keeps |
| PluginV330.RunGroups | src/index.js:56-98 | a run can only stop on a custom function with `generateChunksFiles` on |
| PluginV330.ManifestWrite | src/index.js:246-251 | the manifest file's content is enclosed in braces, and is `{}` exactly for an empty manifest |
| PluginV330.RunStopsAtFailure | src/index.js:56-98 | once a group has thrown, the groups after it change nothing |
| PluginV330.PrefixDidNotThrow | src/index.js:56-98 | a run that did not throw did not throw on any prefix |
| PluginV330.RunStep | src/index.js:56-98 | one more group extends the writes and updates the manifest, or stops the run with both as they were |
| PluginV330.DefaultFormattingNeverFails | src/index.js:78-81 | with the default formatting nothing throws |
| PluginV330.OptionsOffLeaveThingsAlone | src/index.js:65-96 | `generateChunksFiles` off: no write and no throw; `generateChunksManifest` off: the manifest unchanged |
| PluginV330.ManifestKeepsOthers | src/index.js:113-117 | a name no group with chunks carries keeps its manifest entry |
| PluginV330.ManifestHoldsGroup | src/index.js:90-96 | with the manifest option on and no throw, a group's entry holds its sorted files unless a later same-named group replaced it |
| PluginV330.ManifestKeysStayUnique | src/index.js:113-117 | the manifest never stores an entry name twice |
| PluginV330.CustomTagsTakenAsGiven | src/index.js:74-77 | empty custom strings are accepted and write nothing; a non-empty styles string is written even without a `css` file |
| PluginV330.SortedStyleAndScript | src/index.js:171-188 | one chunk with a `css` file and a `js` file sorts into one prefixed style and one prefixed script |
| PluginV330.ChunksWebpackPlugin.constructor | src/index.js:18-30 | options merged; the manifest starts empty |
| PluginV330.ChunksWebpackPlugin.CompilerDone | src/index.js:46-104 | an invalid output path throws before any change; otherwise the groups run until the first throw, and the manifest file is written last, only when nothing threw and the option is on |
| PluginV330.ChunksWebpackPlugin.GetPublicPath | src/index.js:127-137 | the normalised public path |
| PluginV330.ChunksWebpackPlugin.GetOutputPath | src/index.js:147-161 | the chosen directory or the output-path error |
| PluginV330.ChunksWebpackPlugin.ForEachChunkGroups | src/index.js:56-98 | the log and the manifest become the run's; it throws exactly when the run does |
| PluginV330.ChunksWebpackPlugin.ForEachChunkGroup | src/index.js:58-97 | a group throws with nothing changed, or writes its files and updates the manifest |
| PluginV330.ChunksWebpackPlugin.FormatChunkGroup | src/index.js:69-81 | the group's tags or the custom-tags error |
| PluginV330.ChunksWebpackPlugin.UpdateManifest | src/index.js:113-117 | the entry's key gets the sorted files; the rest of the manifest is as before |
| PluginV330.ChunksWebpackPlugin.CreateChunksFiles | src/index.js:221-238 | scripts file then styles file, each only for non-empty HTML |
| PluginV330.ChunksWebpackPlugin.CreateChunksManifestFile | src/index.js:246-251 | one write of the manifest's JSON to `<outputPath>/chunks-manifest.json` |
| PluginV601.MergeOptions | src/index.ts:53-69 | each supplied option, `customFormatTags` included, replaces its default (`outputPath: null`, `.html`, the templates, `customFormatTags: false`, manifest off, files on) |
| PluginV601.IsValidOutputPath | src/index.ts:246-248 | no contract of its own: PluginV601.OutputPathOf states that it holds exactly when the custom path is non-empty and absolute, and that this path is then taken |
| PluginV601.OutputPathOf | src/index.ts:139-145 | never throws: the custom path exactly when it is non-empty and absolute, the compilation's path otherwise |
| PluginV601.SortsChunksByType | src/index.ts:199-208 | no contract of its own: PluginV601.SortedMembership states which files land in each list, and PluginV601.SortsChunksLikePushes that it equals the push loops of the older revisions |
| PluginV601.IsValidCustomFormatTagsDatas | src/index.ts:267-275 | no contract of its own: PluginV601.HtmlTagsOf states that a custom result fails exactly when it is not valid, and that valid tags are two non-empty strings |
| PluginV601.HtmlTagsOf | src/index.ts:175-190 | fails exactly for a custom function whose result is invalid, with `...customFormatTags return invalid object`; valid custom tags are two non-empty strings; otherwise the templates' rendering |
| PluginV601.EntryWrites | src/index.ts:106-114 | fails exactly when the tags fail, even with `generateChunksFiles` off; with it off there are no writes; with it on, each non-empty HTML string of the tags, scripts first |
| PluginV601.EntryManifest | src/index.ts:116-119 | no contract of its own: PluginV601.LastEntryUpdates and PluginV601.ManifestHoldsEntry state what it stores |
| PluginV601.WithFiles | lib/index.js:50-52 | the entrypoints kept are exactly those with files, never more than given; the order is kept (PluginV601.WithFilesAppend) |
| PluginV601.WithFilesAppend | src/index.ts:91-92 | the filter keeps order: filtering two runs of entrypoints one after the other gives the first run's kept ones, then the second's |
| PluginV601.RunEntries | src/index.ts:91-93 | a run can only stop on a custom function, with the custom-tags message |
| PluginV601.ManifestAsset | lib/index.js:241-250 | the asset's source is `JSON.stringify(manifest, null, 2)`, enclosed in braces and `{}` exactly when the manifest is empty; its size is always the source's UTF-16 `length`, between one and two units per character and equal to the character count for BMP text |
| PluginV601.RunStopsAtFailure | src/index.ts:91-93 | once an entrypoint has thrown, the ones after it change nothing |
| PluginV601.PrefixDidNotThrow | src/index.ts:91-93 | a run that did not throw did not throw on any prefix |
| PluginV601.RunStep | src/index.ts:106-120 | one more entrypoint extends the writes and updates the manifest, or stops the run with both as they were |
| PluginV601.DefaultFormattingNeverFails | src/index.ts:186-189 | with the default formatting nothing throws |
| PluginV601.OptionsOffLeaveThingsAlone | src/index.ts:111-119 | `generateChunksFiles` off: no write; `generateChunksManifest` off: the manifest unchanged |
| PluginV601.CustomTagsCheckedWithoutFiles | src/index.ts:106-113 | an invalid custom result throws even when no HTML file is to be written |
| PluginV601.ValidCustomTagsWriteBoth | src/index.ts:267-275 | valid custom tags make an entrypoint write exactly two files, scripts and styles, with the strings as given |
| PluginV601.EntriesWithoutFilesSkipped | src/index.ts:91-92 | an entrypoint without files is filtered out |
| PluginV601.DefaultWritesIffTyped | src/index.ts:313-332 | with the default templates an entrypoint's styles (scripts) file is written exactly when it has a `css` (`js`) file |
| PluginV601.NoFilesNoWork | src/index.ts:85-99 | when no entrypoint has files nothing is written, nothing throws and the manifest is unchanged |
| PluginV601.LastEntryUpdates | src/index.ts:116-119 | in a run that did not throw, the last entrypoint updated the manifest the others left |
| PluginV601.ManifestKeepsOthers | src/index.ts:284-289 | a name no processed entrypoint carries keeps its manifest entry |
| PluginV601.ManifestHoldsEntry | src/index.ts:116-119 | with the manifest option on and no throw, an entrypoint's entry holds its sorted files unless a later same-named one replaced it |
| PluginV601.ManifestKeysStayUnique | lib/index.js:230-236 | the manifest never stores an entry name twice |
| PluginV601.SortedMembership | src/index.ts:199-208 | `publicPath + f` is a style exactly when `f` is one of the files with extension `css`, and a script exactly when its extension is `js` |
| PluginV601.SortsChunksLikePushes | lib/index.js:151-161 | `filter` then `map` gives what the push loops of the older revisions give |
| PluginV601.PrefixedMembership | src/index.ts:203 | `prefix + f` is in the mapped list exactly when `f` was in the list |
| PluginV601.ChunksWebpackPlugin.constructor | src/index.ts:53-69 | options merged; the manifest starts empty; no compilation yet |
| PluginV601.ChunksWebpackPlugin.HookCallback | src/index.ts:85-99 | the compilation, public path, output path and entry names are stored; the entrypoints with files run until the first throw; the manifest asset is added, and the other assets kept, only when nothing threw and the option is on |
| PluginV601.ChunksWebpackPlugin.GetPublicPath | lib/index.js:82-85 | the normalised public path |
| PluginV601.ChunksWebpackPlugin.GetOutputPath | lib/index.js:92-99 | the valid custom directory or the compilation's |
| PluginV601.ChunksWebpackPlugin.ProcessEntries | lib/index.js:50-52 | the log and the manifest become the run's; it throws exactly when the run does |
| PluginV601.ChunksWebpackPlugin.ProcessEntry | src/index.ts:106-120 | an entrypoint throws with nothing changed, or writes its files and updates the manifest |
| PluginV601.ChunksWebpackPlugin.OutputEntry | src/index.ts:111-119 | files only with `generateChunksFiles`, the manifest entry only with `generateChunksManifest` |
| PluginV601.ChunksWebpackPlugin.GetHtmlTags | lib/index.js:126-143 | the checked custom tags, or the templates' tags |
| PluginV601.ChunksWebpackPlugin.UpdateManifest | lib/index.js:230-236 | the entry's key gets the sorted files; the rest of the manifest is as before |
| PluginV601.ChunksWebpackPlugin.CreateChunksManifestFile | lib/index.js:241-250 | `assets['chunks-manifest.json']` becomes the manifest asset; every other asset is unchanged |
| PluginV601.ChunksWebpackPlugin.CreateHtmlChunksFiles | lib/index.js:257-271 | scripts file then styles file, each only for non-empty HTML |

## Left out

- File-system I/O is not modelled: `fs.writeFileSync`, `writeFile`, `checkDestinationFolder` and `mkdirSync`. Writes are a log of `(path, content)` pairs. A later write to the same path replaces the file, which the log leaves to the reader.
- Webpack plumbing is not modelled: `apply` and the `hooks.*.tap` registrations are left out.
  - `mainTemplate.getPublicPath` (1.0.1) is a parameter of `Done`.
  - `compilation.entrypoints` is a sequence of `(name, files)` pairs. A `Map` has unique keys, so `get(name).getFiles()` is the files stored beside the name.
- Later revisions of the plugin, which cache the generated assets between builds, are not part of this model. It covers the four revisions listed above.
- `JSON.stringify` escaping is not modelled. Keys and paths are assumed to need no escape. Keys that look like array indices, which JavaScript objects enumerate first, are kept in insertion order.
- `$` patterns in the replacement string of `replace` are not modelled. Chunk paths are assumed to contain no `$`.
- Only POSIX paths are modelled. The Windows rules of `path.isAbsolute` and `path.extname` are left out.
- Option values of the wrong JavaScript type are left out, such as a number as a template or `undefined` passed explicitly. A truthy non-function `customFormatTags` is the default formatting, as in the source.
- `customFormatTags` is a pure function of its arguments in every revision. The model therefore leaves out two things:
  - In 3.x, `customFormatTags.call(this, ...)` gives the function access to the plugin object.
  - In 3.3.0 and 6.0.1, the function receives the same `styles` and `scripts` arrays that `updateManifest` later stores (src/index.js:72 and 92-95, src/index.ts:178 and 118). A callback that mutates them changes the manifest. The model gives the callback values, so aliasing is not captured.
- In 3.x and 6.0.1, a custom result whose `styles` or `scripts` is not a string is not modelled.
- A custom result of `undefined` makes the check read `.styles` of `undefined`, which throws a `TypeError` in every revision that checks it (dist/index.js:82, src/index.js:75, src/index.ts:270). The result type has no `undefined` case, so that throw is not modelled.
- Strings are sequences of Unicode scalar values, so lone surrogates cannot occur. UTF-16 `length` counts a character outside the Basic Multilingual Plane as two.
- Fields declared but not yet assigned (`undefined` before the first hook call) start as `""` or `[]`.
- In 6.0.1, the `&& htmlTags` test in `processEntry` is always true once `getHtmlTags` has returned. It is not modelled as a separate branch.
- PluginV330.OutputPathOf: webpack's `output.path` is always a string here, so the `|| ''` fallback for an unset path is not modelled.
- PluginV601.OutputPathOf: webpack's `output.path` is always a string here, so the `|| ''` fallback for an unset path is not modelled.
- PluginV601.ChunksWebpackPlugin.HookCallback: iterates the entrypoints with files directly instead of the names followed by `get(name)`, which agree because a `Map` has unique keys.
- The `writeFile` helpers of `src/utils.ts` and `lib/utils.js` are I/O and are not part of this model.
