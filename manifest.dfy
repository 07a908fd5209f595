/**
 * The chunks manifest of the 3.3.0 and 6.0.1 revisions: a plain object from
 * entrypoint name to that entry's sorted chunks, updated one key at a time,
 * and its `JSON.stringify(manifest, null, 2)` text.
 *
 * A JavaScript object keeps its string keys in insertion order, and that
 * order decides the order of the JSON text, so the manifest is an
 * association list: assigning an existing key replaces its value in place,
 * assigning a new key appends it.
 */
module ChunksManifest {
  import opened Results
  import opened Tags

  type Manifest = seq<(string, Chunks)>

  /** `Object.keys(manifest)`. */
  function Keys(m: Manifest): (ks: seq<string>)
    ensures |ks| == |m|
    ensures forall i :: 0 <= i < |m| ==> ks[i] == m[i].0
  {
    if m == [] then [] else Keys(m[..|m| - 1]) + [m[|m| - 1].0]
  }

  /** No key is stored twice, as in any JavaScript object. */
  predicate UniqueKeys(m: Manifest) {
    forall i, j :: 0 <= i < j < |m| ==> m[i].0 != m[j].0
  }

  /** Where `key` is stored, or -1. */
  function Find(m: Manifest, key: string): (i: int)
    ensures -1 <= i < |m|
    ensures i >= 0 ==> m[i].0 == key
    ensures forall j :: 0 <= j < |m| && (i < 0 || j < i) ==> m[j].0 != key
  {
    if m == [] then -1
    else
      var i := Find(m[..|m| - 1], key);
      if i >= 0 then i else if m[|m| - 1].0 == key then |m| - 1 else -1
  }

  /** `manifest[key]`, or `None` for a key never assigned. */
  function Get(m: Manifest, key: string): (r: Option<Chunks>)
    ensures r.None? <==> key !in Keys(m)
    ensures r.Some? ==> (key, r.value) in m
  {
    var i := Find(m, key);
    if i < 0 then None else Some(m[i].1)
  }

  /** `manifest[key] = value`: replaced in place when present, appended otherwise. */
  function Put(m: Manifest, key: string, value: Chunks): (r: Manifest)
    ensures |r| == |m| + (if key in Keys(m) then 0 else 1)
  {
    var i := Find(m, key);
    if i < 0 then m + [(key, value)] else m[i := (key, value)]
  }

  /** The two postconditions of Find pin its result down. */
  lemma FindIs(m: Manifest, key: string, i: int)
    requires -1 <= i < |m|
    requires i >= 0 ==> m[i].0 == key
    requires forall j :: 0 <= j < |m| && (i < 0 || j < i) ==> m[j].0 != key
    ensures Find(m, key) == i
  {
  }

  /** Reading back the key just assigned gives the value assigned. */
  lemma PutGet(m: Manifest, key: string, value: Chunks)
    ensures Get(Put(m, key, value), key) == Some(value)
  {
    var i := Find(m, key);
    var r := Put(m, key, value);
    if i < 0 {
      FindIs(r, key, |m|);
    } else {
      FindIs(r, key, i);
    }
  }

  /** Every other entry keeps its value. */
  lemma PutGetOther(m: Manifest, key: string, value: Chunks, other: string)
    requires other != key
    ensures Get(Put(m, key, value), other) == Get(m, other)
  {
    var i, o := Find(m, key), Find(m, other);
    var r := Put(m, key, value);
    if o >= 0 {
      FindIs(r, other, o);
    } else {
      FindIs(r, other, -1);
    }
  }

  /** Key order: an existing key keeps its place, a new key goes last. */
  lemma PutKeys(m: Manifest, key: string, value: Chunks)
    ensures Keys(Put(m, key, value)) == if key in Keys(m) then Keys(m) else Keys(m) + [key]
  {
    var r := Put(m, key, value);
    if key in Keys(m) {
      assert Keys(r) == Keys(m) by {
        forall j | 0 <= j < |m|
          ensures Keys(r)[j] == Keys(m)[j]
        {
        }
      }
    } else {
      assert Keys(r) == Keys(m) + [key];
    }
  }

  /** Assignment never stores a key twice. */
  lemma PutUnique(m: Manifest, key: string, value: Chunks)
    requires UniqueKeys(m)
    ensures UniqueKeys(Put(m, key, value))
  {
  }

  /** `"` + s + `"`: the JSON string of `s`, for text that needs no escape. */
  function Quote(s: string): (q: string)
    ensures |q| == |s| + 2 && q[0] == '"' && q[|q| - 1] == '"' && q[1..|q| - 1] == s
  {
    "\"" + s + "\""
  }

  /** The lines of a multi-line JSON value, separated by `,` and a line break. */
  function JoinLines(lines: seq<string>): (text: string)
    ensures lines == [] ==> text == ""
    ensures |text| >= 2 * (|lines| - 1)
  {
    if lines == [] then ""
    else if |lines| == 1 then lines[0]
    else JoinLines(lines[..|lines| - 1]) + ",\n" + lines[|lines| - 1]
  }

  /** The items of an array nested at depth three, each on its own line. */
  function ItemLines(items: seq<string>): (lines: seq<string>)
    ensures |lines| == |items|
    ensures forall i :: 0 <= i < |items| ==> lines[i] == "      " + Quote(items[i])
  {
    if items == [] then [] else ItemLines(items[..|items| - 1]) + ["      " + Quote(items[|items| - 1])]
  }

  /** An array of strings at depth two: `[]` when empty, otherwise one item per line. */
  function ArrayText(items: seq<string>): (text: string)
    ensures items == [] <==> text == "[]"
  {
    if items == [] then "[]" else "[\n" + JoinLines(ItemLines(items)) + "\n    ]"
  }

  /** One manifest entry at depth one: its key, then its `styles` and `scripts` arrays. */
  function EntryText(entry: (string, Chunks)): string {
    "  " + Quote(entry.0) + ": {\n"
      + "    \"styles\": " + ArrayText(entry.1.styles) + ",\n"
      + "    \"scripts\": " + ArrayText(entry.1.scripts) + "\n"
      + "  }"
  }

  /** The entries in key order. */
  function EntryLines(m: Manifest): seq<string> {
    seq(|m|, i requires 0 <= i < |m| => EntryText(m[i]))
  }

  /**
   * `JSON.stringify(manifest, null, 2)`: `{}` for an empty manifest,
   * otherwise one entry after another in key order, indented by two spaces
   * per level.
   */
  function Stringify(m: Manifest): (json: string)
    ensures m == [] <==> json == "{}"
    ensures |json| >= 2 && json[0] == '{' && json[|json| - 1] == '}'
  {
    if m == [] then "{}" else "{\n" + JoinLines(EntryLines(m)) + "\n}"
  }

  /**
   * The manifest of one entry `app-a` with one style and one script under
   * the public path `/dist/`: its JSON text is 148 characters long.
   */
  lemma StringifyExample()
    ensures |Stringify([("app-a", Chunks(["/dist/css/vendors~app-a~app-b.css"], ["/dist/js/vendors~app-a~app-b.js"]))])| == 148
  {
    var styles, scripts := "/dist/css/vendors~app-a~app-b.css", "/dist/js/vendors~app-a~app-b.js";
    assert |ArrayText([styles])| == |styles| + 16 by {
      assert ItemLines([styles]) == ["      " + Quote(styles)];
    }
    assert |ArrayText([scripts])| == |scripts| + 16 by {
      assert ItemLines([scripts]) == ["      " + Quote(scripts)];
    }
    var m := [("app-a", Chunks([styles], [scripts]))];
    assert EntryLines(m) == [EntryText(m[0])];
  }
}
