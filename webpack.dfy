/**
 * What the host bundler hands the plugin, as plain values, and the one host
 * object the newest revision changes: the compilation's asset table.
 */
module Webpack {
  import opened Results

  /** `compilation.options.output`: the configured public path (unset when absent) and the output directory. */
  datatype OutputOptions = OutputOptions(publicPath: Option<string>, path: string)

  /** A chunk and the output files it produced, in order. */
  datatype Chunk = Chunk(files: seq<string>)

  /** A chunk group of the older hooks: its `options.name` and its chunks, in order. */
  datatype ChunkGroup = ChunkGroup(name: string, chunks: seq<Chunk>)

  /** What the `done` hook of the older revisions reads from `stats.compilation`. */
  datatype Stats = Stats(output: OutputOptions, chunkGroups: seq<ChunkGroup>)

  /** An entrypoint of the `emit` hook: its name and `getFiles()`. */
  datatype Entrypoint = Entrypoint(name: string, files: seq<string>)

  /** One file written to disk, in the order the writes happen. */
  datatype FileWrite = FileWrite(path: string, content: string)

  /** An entry of `compilation.assets`: what `source()` and `size()` return. */
  datatype Asset = Asset(source: string, size: nat)

  /** The files of a chunk group, chunk after chunk, each chunk's files in order. */
  function Flatten(chunks: seq<Chunk>): seq<string> {
    if chunks == [] then []
    else Flatten(chunks[..|chunks| - 1]) + chunks[|chunks| - 1].files
  }

  /** One more chunk appends its files. */
  lemma FlattenStep(chunks: seq<Chunk>, i: nat)
    requires i < |chunks|
    ensures Flatten(chunks[..i + 1]) == Flatten(chunks[..i]) + chunks[i].files
  {
    assert chunks[..i + 1][..i] == chunks[..i];
  }

  /** The names of the entrypoints, in enumeration order. */
  function Names(entrypoints: seq<Entrypoint>): (names: seq<string>)
    ensures |names| == |entrypoints|
    ensures forall i :: 0 <= i < |entrypoints| ==> names[i] == entrypoints[i].name
  {
    if entrypoints == [] then []
    else Names(entrypoints[..|entrypoints| - 1]) + [entrypoints[|entrypoints| - 1].name]
  }

  /**
   * The compilation object of the `emit` hook: fixed output options and
   * entrypoints, and an asset table that plugins may add to.
   */
  class Compilation {
    const output: OutputOptions
    const entrypoints: seq<Entrypoint>
    var assets: map<string, Asset>

    constructor(output: OutputOptions, entrypoints: seq<Entrypoint>, assets: map<string, Asset>)
      ensures this.output == output && this.entrypoints == entrypoints && this.assets == assets
    {
      this.output := output;
      this.entrypoints := entrypoints;
      this.assets := assets;
    }
  }
}
