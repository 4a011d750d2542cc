/**
 * web/project_view/import_save.php: a zip archive imported into a project as a new
 * save. The archive must be under 50 MB, must open, and must hold bounding_boxes.json
 * and transcription.json; its .txt files and the images the boxes document names are
 * extracted into a temporary folder, which becomes the save once every image of the
 * "documents" object is there. The .txt files become generated_transcription.json and
 * post_processed_transcription.json; the save gets a new log and a new lookup table.
 */
module ImportSave {
  import opened Wrappers
  import opened SaveFiles
  import opened Site
  import opened Strings
  import Ledger
  import Utils
  import Sweep

  /** The import size limit, in bytes. */
  const MaxZipSize: int := 50000000

  const TooLarge: string := "Please upload a zip file smaller than 50MB."
  const Unopenable: string := "Error opening zip file."
  const JsonMissing: string :=
    "Please provide both a bounding_boxes.json and transcription.json file inside the imported zip file."
  const ImagesMissing: string :=
    "Please provide all the images indicated in the bounding_boxes.json inside the imported zip file."

  const PostProcessedFile: string := "post_processed_transcription.json"
  /** The text file of an image's generated transcription: "<image file name>.txt". */
  const TxtSuffix: string := ".txt"
  /** The text file of an image's post-processed transcription. */
  const PostSuffix: string := "_post_processed_transcription.txt"

  /**
   * bounding_boxes.json as the import reads it: its "image_name_mapping" object
   * (image path -> user's file name, in document order) if it has one, and the keys
   * of its "documents" object (None when it has none).
   */
  datatype BoxesJson = BoxesJson(mapping: Option<seq<(string, string)>>, documents: Option<seq<string>>)

  /**
   * The archive: its entry names in order, bounding_boxes.json decoded (None when it
   * does not decode to a JSON object) and each entry's bytes.
   */
  datatype Archive = Archive(names: seq<string>, boxes: Option<BoxesJson>, content: string -> string)

  /** $_FILES['files'][0]: its size, and the archive (None when ZipArchive::open fails). */
  datatype Upload = Upload(size: int, archive: Option<Archive>)

  /** $save_image_name_mapping: image path -> the name of its entry in the archive (None for PHP null). */
  type Pairs = seq<(string, Option<string>)>

  // ---------------------------------------------------------------------------
  // The save's image mapping
  // ---------------------------------------------------------------------------

  /**
   * The mapping of the save: the archive's own mapping, or for an archive without one
   * (an older export) each document path mapped to itself. None when neither exists:
   * array_keys of the missing "documents" throws.
   */
  function SaveMapping(b: BoxesJson): (r: Option<Pairs>)
    ensures r.None? <==> b.mapping.None? && b.documents.None?
    ensures r.Some? ==> forall i :: 0 <= i < |r.value| ==> r.value[i].1.Some?
    ensures r.Some? && b.mapping.None? ==>
              |r.value| == |b.documents.value|
              && forall i :: 0 <= i < |r.value| ==> r.value[i] == (b.documents.value[i], Some(b.documents.value[i]))
  {
    if b.mapping.Some? then Some(seq(|b.mapping.value|, i requires 0 <= i < |b.mapping.value| =>
                                      (b.mapping.value[i].0, Some(b.mapping.value[i].1))))
    else if b.documents.None? then None
    else Some(seq(|b.documents.value|, i requires 0 <= i < |b.documents.value| =>
                    (b.documents.value[i], Some(b.documents.value[i]))))
  }

  /** As written: the older-export branch maps each path to the undefined $img_name, that is to null. */
  function SaveMappingAsWritten(b: BoxesJson): (r: Option<Pairs>)
    ensures r.None? <==> b.mapping.None? && b.documents.None?
    ensures r.Some? && b.mapping.None? ==>
              |r.value| == |b.documents.value|
              && forall i :: 0 <= i < |r.value| ==> r.value[i] == (b.documents.value[i], None)
  {
    if b.mapping.Some? then SaveMapping(b)
    else if b.documents.None? then None
    else Some(seq(|b.documents.value|, i requires 0 <= i < |b.documents.value| => (b.documents.value[i], None)))
  }

  /** The entries merged into the project's mapping: the archive's mapping, or each document path to itself. */
  function ProjectAdds(b: BoxesJson): seq<(string, string)>
    requires b.mapping.Some? || b.documents.Some?
  {
    if b.mapping.Some? then b.mapping.value
    else seq(|b.documents.value|, i requires 0 <= i < |b.documents.value| => (b.documents.value[i], b.documents.value[i]))
  }

  /** The project's mapping with the archive's entries added for the paths it does not know yet. */
  function MergedProject(existing: map<string, string>, adds: seq<(string, string)>): map<string, string>
    decreases |adds|
  {
    if adds == [] then existing
    else
      var prev := MergedProject(existing, adds[..|adds| - 1]);
      var (path, name) := adds[|adds| - 1];
      if path in prev then prev else prev[path := name]
  }

  /**
   * The merge adds exactly the archive's paths, never changes an entry the project
   * had, and gives a new path the name of its first occurrence.
   */
  lemma {:induction false} MergeOnlyAdds(existing: map<string, string>, adds: seq<(string, string)>, key: string)
    ensures var r := MergedProject(existing, adds);
            && (key in r <==> key in existing || exists i :: 0 <= i < |adds| && adds[i].0 == key)
            && (key in existing ==> r[key] == existing[key])
            && (forall i :: (0 <= i < |adds| && adds[i].0 == key && key !in existing
                             && (forall j :: 0 <= j < i ==> adds[j].0 != key)) ==> r[key] == adds[i].1)
    decreases |adds|
  {
    if adds != [] {
      var m := |adds| - 1;
      MergeOnlyAdds(existing, adds[..m], key);
      forall i | 0 <= i < |adds| && adds[i].0 == key && key !in existing && (forall j :: 0 <= j < i ==> adds[j].0 != key)
        ensures MergedProject(existing, adds)[key] == adds[i].1
      {
        if i < m {
          assert adds[..m][i] == adds[i];
        } else {
          assert forall j :: 0 <= j < m ==> adds[..m][j].0 != key;
        }
      }
    }
  }

  /**
   * The merge loop over the project table held in memory: it throws when the project
   * has no image mapping and there is something to merge (array_key_exists on null).
   */
  method MergeIntoProject(existing: Option<map<string, string>>, adds: seq<(string, string)>)
    returns (merged: Option<map<string, string>>, thrown: bool)
    ensures thrown <==> existing.None? && adds != []
    ensures !thrown && existing.Some? ==> merged == Some(MergedProject(existing.value, adds))
    ensures !thrown && existing.None? ==> merged.None?
  {
    if existing.None? {
      return None, adds != [];
    }
    var m := existing.value;
    for i := 0 to |adds|
      invariant m == MergedProject(existing.value, adds[..i])
    {
      assert adds[..i + 1][..i] == adds[..i];
      if adds[i].0 !in m {
        m := m[adds[i].0 := adds[i].1];
      }
    }
    assert adds[..|adds|] == adds;
    return Some(m), false;
  }

  // ---------------------------------------------------------------------------
  // Extraction
  // ---------------------------------------------------------------------------

  /** An entry's extension, lower-cased. */
  function EntryExt(name: string): string
  {
    Lower(Extension(name))
  }

  /** The path of the first mapping entry whose name is the given entry's name. */
  function FirstPath(pairs: Pairs, name: string): (r: Option<string>)
    ensures r.Some? ==> exists i :: 0 <= i < |pairs| && pairs[i] == (r.value, Some(name))
                                    && forall j :: 0 <= j < i ==> pairs[j].1 != Some(name)
    ensures r.None? ==> forall i :: 0 <= i < |pairs| ==> pairs[i].1 != Some(name)
    decreases |pairs|
  {
    if pairs == [] then None
    else if pairs[0].1 == Some(name) then Some(pairs[0].0)
    else
      var r := FirstPath(pairs[1..], name);
      if r.Some? then
        var i :| 0 <= i < |pairs[1..]| && pairs[1..][i] == (r.value, Some(name))
                 && forall j :: 0 <= j < i ==> pairs[1..][j].1 != Some(name);
        assert pairs[i + 1] == (r.value, Some(name));
        r
      else r
  }

  /**
   * Where an entry lands in the temporary folder: a .txt entry under its basename, a
   * .jpg or .png entry under the basename of the first mapped path whose name it
   * bears; anything else is not extracted.
   */
  function Target(name: string, pairs: Pairs): Option<string>
  {
    var ext := EntryExt(name);
    if ext == "txt" then Some(Basename(name))
    else if ext == "jpg" || ext == "png" then
      var p := FirstPath(pairs, name);
      if p.Some? then Some(Basename(p.value)) else None
    else None
  }

  /**
   * The whitelist: only .txt, .jpg and .png entries land anywhere, a text file under
   * its own basename and an image only when the mapping names it, under the basename
   * of the mapped path; every .txt entry and every mapped image lands.
   */
  lemma TargetWhitelisted(name: string, pairs: Pairs)
    ensures var r := Target(name, pairs);
            && (r.Some? ==>
                  (EntryExt(name) == "txt" && r.value == Basename(name))
                  || ((EntryExt(name) == "jpg" || EntryExt(name) == "png")
                      && exists i :: 0 <= i < |pairs| && pairs[i].1 == Some(name) && r.value == Basename(pairs[i].0)))
            && (r.None? <==> EntryExt(name) != "txt" && !((EntryExt(name) == "jpg" || EntryExt(name) == "png")
                                                          && exists i :: 0 <= i < |pairs| && pairs[i].1 == Some(name)))
  {
  }

  /** Where each entry lands. */
  function Targets(names: seq<string>, pairs: Pairs): (r: seq<Option<string>>)
    ensures |r| == |names|
  {
    seq(|names|, i requires 0 <= i < |names| => Target(names[i], pairs))
  }

  /**
   * The folder after the entries were extracted, in order: each entry that lands is
   * written under its own name, then renamed onto its landing name, which overwrites
   * what was there and leaves nothing under the entry's own name.
   */
  function Landed(names: seq<string>, targets: seq<Option<string>>, content: string -> string, temp: Dir): Dir
    requires |targets| == |names|
    decreases |names|
  {
    if names == [] then temp
    else
      var prev := Landed(names[..|names| - 1], targets[..|names| - 1], content, temp);
      var t := targets[|names| - 1];
      if t.Some? then ExtractRenamed(prev, names[|names| - 1], t.value, content) else prev
  }

  /** extractTo under the entry's name, then rename onto the target (a rename onto itself changes nothing). */
  function ExtractRenamed(d: Dir, name: string, target: string, content: string -> string): (r: Dir)
    ensures r.Keys == d.Keys - {name} + {target} && r[target] == Blob(content(name))
    ensures forall k :: k in d && k != name && k != target ==> r[k] == d[k]
  {
    (d - {name})[target := Blob(content(name))]
  }

  /** The temporary folder after the extraction loop over the given entries. */
  function Extracted(names: seq<string>, pairs: Pairs, content: string -> string, temp: Dir): Dir
  {
    Landed(names, Targets(names, pairs), content, temp)
  }

  /** No entry extracted under the name `key` is renamed away from it. */
  predicate KeepsName(names: seq<string>, targets: seq<Option<string>>, key: string)
    requires |targets| == |names|
  {
    forall i :: 0 <= i < |names| && names[i] == key && targets[i].Some? ==> targets[i] == Some(key)
  }

  /**
   * A file is in the folder only when it was there or some entry lands on it; when no
   * entry of that name is renamed away, exactly then, and a file no entry touches keeps
   * its content.
   */
  lemma {:induction false} LandedKeys(names: seq<string>, targets: seq<Option<string>>, content: string -> string,
                                      temp: Dir, key: string)
    requires |targets| == |names|
    ensures key in Landed(names, targets, content, temp) ==>
              key in temp || exists i :: 0 <= i < |targets| && targets[i] == Some(key)
    ensures KeepsName(names, targets, key) && (key in temp || exists i :: 0 <= i < |targets| && targets[i] == Some(key)) ==>
              key in Landed(names, targets, content, temp)
    ensures KeepsName(names, targets, key) && (forall i :: 0 <= i < |targets| ==> targets[i] != Some(key)) && key in temp ==>
              Landed(names, targets, content, temp)[key] == temp[key]
    decreases |names|
  {
    if names != [] {
      var m := |names| - 1;
      LandedKeys(names[..m], targets[..m], content, temp, key);
      assert forall i :: 0 <= i < m ==> targets[..m][i] == targets[i] && names[..m][i] == names[i];
      if exists i :: 0 <= i < |targets| && targets[i] == Some(key) {
        var i :| 0 <= i < |targets| && targets[i] == Some(key);
        if i < m {
          assert targets[..m][i] == targets[i];
        }
      }
    }
  }

  /**
   * The crossed-name loss: when the last entry to touch `key` is one extracted under
   * that name and renamed elsewhere, the file is gone.
   */
  lemma {:induction false} LandedLoses(names: seq<string>, targets: seq<Option<string>>, content: string -> string,
                                       temp: Dir, key: string, j: nat)
    requires |targets| == |names| && j < |names|
    requires names[j] == key && targets[j].Some? && targets[j] != Some(key)
    requires forall i :: j < i < |names| ==> targets[i] != Some(key)
    ensures key !in Landed(names, targets, content, temp)
    decreases |names|
  {
    var m := |names| - 1;
    if j < m {
      assert forall i :: j < i < m ==> targets[..m][i] == targets[i];
      LandedLoses(names[..m], targets[..m], content, temp, key, j);
    }
  }

  /**
   * The extraction lets through only the whitelisted entries, and, unless an entry of
   * that name is renamed elsewhere, every file one of them lands on.
   */
  lemma ExtractedKeys(names: seq<string>, pairs: Pairs, content: string -> string, temp: Dir, key: string)
    ensures key in Extracted(names, pairs, content, temp) ==>
              key in temp || exists i :: 0 <= i < |names| && Target(names[i], pairs) == Some(key)
    ensures KeepsName(names, Targets(names, pairs), key)
            && (key in temp || exists i :: 0 <= i < |names| && Target(names[i], pairs) == Some(key)) ==>
              key in Extracted(names, pairs, content, temp)
    ensures KeepsName(names, Targets(names, pairs), key)
            && (forall i :: 0 <= i < |names| ==> Target(names[i], pairs) != Some(key)) && key in temp ==>
              Extracted(names, pairs, content, temp)[key] == temp[key]
  {
    var targets := Targets(names, pairs);
    LandedKeys(names, targets, content, temp, key);
    assert forall i :: 0 <= i < |names| ==> targets[i] == Target(names[i], pairs);
  }

  /** A name "<stem>.<ext>" without a slash is its own basename, and its extension is ext. */
  lemma NameOfExt(stem: string, ext: string)
    requires Avoids(stem, '/') && Avoids(ext, '/') && Avoids(ext, '.')
    ensures Basename(stem + "." + ext) == stem + "." + ext && Extension(stem + "." + ext) == ext
  {
    var name := stem + "." + ext;
    assert name == stem + ['.'] + ext;
    assert Avoids(name, '/') by {
      forall i | 0 <= i < |name| ensures name[i] != '/' {
        if i < |stem| { assert name[i] == stem[i]; }
        else if i > |stem| { assert name[i] == ext[i - |stem| - 1]; }
      }
    }
    BasenameOfName(name);
    LastIndexAt(stem, '.', ext);
    assert name[|stem| + 1..] == ext;
  }

  /** strtolower leaves a lower-case word as it is. */
  lemma LowerOfLowerCase(s: string)
    requires forall i :: 0 <= i < |s| ==> 'a' <= s[i] <= 'z'
    ensures Lower(s) == s
  {
  }

  /** The entry extension of a name "<stem>.<ext>", for a lower-case ext. */
  lemma EntryExtOf(name: string, stem: string, ext: string)
    requires name == stem + "." + ext
    requires Avoids(stem, '/') && forall i :: 0 <= i < |ext| ==> 'a' <= ext[i] <= 'z'
    ensures EntryExt(name) == ext && Basename(name) == name
  {
    NameOfExt(stem, ext);
    LowerOfLowerCase(ext);
  }

  /** bounding_boxes.json is a .json entry. */
  lemma BoxesEntryExt()
    ensures EntryExt(BoxesFile) == "json"
  {
    EntryExtOf(BoxesFile, "bounding_boxes", "json");
  }

  /** bounding_boxes.json is a .json entry, which the extraction never lets through. */
  lemma BoxesEntryStays(names: seq<string>, pairs: Pairs)
    ensures Target(BoxesFile, pairs).None? && KeepsName(names, Targets(names, pairs), BoxesFile)
  {
    BoxesEntryExt();
  }

  /**
   * Crossed names lose a file. With the mapping {y: x, z: y} (path to name) and the
   * entries x then y, x lands as y; then y is extracted over it and renamed to z, so
   * the folder ends with z and without y. For instance the mapping
   * {a.png: b.png, c.png: a.png} with the entries b.png and a.png leaves no a.png.
   */
  lemma {:induction false} CrossedNamesLoseFile(x: string, y: string, z: string, content: string -> string, temp: Dir)
    requires x != y && y != z && Avoids(y, '/') && Avoids(z, '/')
    requires EntryExt(x) == "jpg" || EntryExt(x) == "png"
    requires EntryExt(y) == "jpg" || EntryExt(y) == "png"
    ensures var d := Extracted([x, y], [(y, Some(x)), (z, Some(y))], content, temp);
            y !in d && z in d && d[z] == Blob(content(y))
  {
    CrossedTargets(x, y, z);
    ExtractedTwo(x, y, [(y, Some(x)), (z, Some(y))], y, z, content, temp);
  }

  /** Two entries landing on t0 and then t1: the second one's own name is gone unless it is t1. */
  lemma ExtractedTwo(n0: string, n1: string, pairs: Pairs, t0: string, t1: string, content: string -> string, temp: Dir)
    requires Target(n0, pairs) == Some(t0) && Target(n1, pairs) == Some(t1)
    ensures var d := Extracted([n0, n1], pairs, content, temp);
            (n1 != t1 ==> n1 !in d) && t1 in d && d[t1] == Blob(content(n1))
  {
    assert Targets([n0, n1], pairs) == [Some(t0), Some(t1)];
    LandedTwo(n0, n1, t0, t1, content, temp);
  }

  /** Under the mapping {y: x, z: y}, x lands on y and y on z. */
  lemma {:induction false} CrossedTargets(x: string, y: string, z: string)
    requires x != y && Avoids(y, '/') && Avoids(z, '/')
    requires EntryExt(x) == "jpg" || EntryExt(x) == "png"
    requires EntryExt(y) == "jpg" || EntryExt(y) == "png"
    ensures Target(x, [(y, Some(x)), (z, Some(y))]) == Some(y)
    ensures Target(y, [(y, Some(x)), (z, Some(y))]) == Some(z)
  {
    var pairs: Pairs := [(y, Some(x)), (z, Some(y))];
    assert FirstPath(pairs, x) == Some(y);
    ImageLandsOnPath(x, pairs, y);
    assert FirstPath(pairs[1..], y) == Some(z);
    ImageLandsOnPath(y, pairs, z);
  }

  /** A .jpg or .png entry the mapping names lands on the mapped path, when that has no directory. */
  lemma ImageLandsOnPath(name: string, pairs: Pairs, path: string)
    requires EntryExt(name) == "jpg" || EntryExt(name) == "png"
    requires FirstPath(pairs, name) == Some(path) && Avoids(path, '/')
    ensures Target(name, pairs) == Some(path)
  {
    BasenameOfName(path);
  }

  /** Two entries that both land: two extract-and-rename steps. */
  lemma LandedTwo(n0: string, n1: string, t0: string, t1: string, content: string -> string, temp: Dir)
    ensures Landed([n0, n1], [Some(t0), Some(t1)], content, temp)
            == ExtractRenamed(ExtractRenamed(temp, n0, t0, content), n1, t1, content)
  {
    assert [n0, n1][..1] == [n0] && [Some(t0), Some(t1)][..1] == [Some(t0)];
    assert [n0][..0] == [] && [Some(t0)][..0] == [];
    assert Landed([n0], [Some(t0)], content, temp) == ExtractRenamed(temp, n0, t0, content);
  }

  /** Extracting under the entry's name and renaming onto the target is one ExtractRenamed step. */
  lemma ExtractThenRename(d: Dir, name: string, target: string, content: string -> string)
    ensures (d[name := Blob(content(name))] - {name})[target := Blob(content(name))]
            == ExtractRenamed(d, name, target, content)
  {
    assert d[name := Blob(content(name))] - {name} == d - {name};
  }

  /** One more entry through the extraction. */
  lemma LandedSnoc(names: seq<string>, targets: seq<Option<string>>, content: string -> string, temp: Dir, i: int)
    requires |targets| == |names| && 0 <= i < |names|
    ensures Landed(names[..i + 1], targets[..i + 1], content, temp)
            == var prev := Landed(names[..i], targets[..i], content, temp);
               if targets[i].Some? then ExtractRenamed(prev, names[i], targets[i].value, content) else prev
  {
    assert names[..i + 1][..i] == names[..i] && targets[..i + 1][..i] == targets[..i];
  }

  /** The extraction loop: each entry through the whitelist, an image stored under its first mapped path. */
  method ExtractEntries(a: Archive, pairs: Pairs, temp: Dir) returns (d: Dir)
    ensures d == Extracted(a.names, pairs, a.content, temp)
  {
    ghost var targets := Targets(a.names, pairs);
    d := temp;
    for i := 0 to |a.names|
      invariant d == Landed(a.names[..i], targets[..i], a.content, temp)
    {
      LandedSnoc(a.names, targets, a.content, temp, i);
      var t := EntryTarget(a.names[i], pairs);
      if t.Some? {
        // extracted under its own name, then renamed onto the target
        ExtractThenRename(d, a.names[i], t.value, a.content);
        d := d[a.names[i] := Blob(a.content(a.names[i]))];
        d := (d - {a.names[i]})[t.value := Blob(a.content(a.names[i]))];
      }
    }
    assert a.names[..|a.names|] == a.names && targets[..|a.names|] == targets;
  }

  /** One entry of the extraction loop: a text file, an image looked up in the mapping, or nothing. */
  method EntryTarget(name: string, pairs: Pairs) returns (t: Option<string>)
    ensures t == Target(name, pairs)
  {
    var ext := Lower(Extension(name));
    if ext == "txt" {
      t := Some(Basename(name));
    } else if ext == "jpg" || ext == "png" {
      var path := FindPath(pairs, name);
      t := if path.Some? then Some(Basename(path.value)) else None;
    } else {
      t := None;
    }
  }

  /** The inner loop over the mapping, stopping at the first entry of that name. */
  method FindPath(pairs: Pairs, name: string) returns (path: Option<string>)
    ensures path == FirstPath(pairs, name)
  {
    var j := 0;
    while j < |pairs|
      invariant 0 <= j <= |pairs|
      invariant FirstPath(pairs, name) == FirstPath(pairs[j..], name)
    {
      if pairs[j].1 == Some(name) {
        return Some(pairs[j].0);
      }
      assert pairs[j..][1..] == pairs[j + 1..];
      j := j + 1;
    }
    return None;
  }

  // ---------------------------------------------------------------------------
  // The missing-image check
  // ---------------------------------------------------------------------------

  /** The documents' image paths that are not files of the folder, in order. */
  function MissingOf(documents: seq<string>, d: Dir): (r: seq<string>)
    ensures forall x :: x in r <==> x in documents && x !in d
    ensures r == [] <==> forall x :: x in documents ==> x in d
    decreases |documents|
  {
    if documents == [] then []
    else
      var prev := MissingOf(documents[..|documents| - 1], d);
      var x := documents[|documents| - 1];
      assert documents == documents[..|documents| - 1] + [x];
      if x in d then prev else
        assert x in prev + [x];
        prev + [x]
  }

  /** The check loop. */
  method FindMissing(documents: seq<string>, d: Dir) returns (missing: seq<string>)
    ensures missing == MissingOf(documents, d)
  {
    missing := [];
    for i := 0 to |documents|
      invariant missing == MissingOf(documents[..i], d)
    {
      assert documents[..i + 1][..i] == documents[..i];
      if documents[i] !in d {
        missing := missing + [documents[i]];
      }
    }
    assert documents[..|documents|] == documents;
  }

  // ---------------------------------------------------------------------------
  // The transcriptions, the clean-up and the save's bookkeeping
  // ---------------------------------------------------------------------------

  /** pathinfo($img_name, PATHINFO_FILENAME), with null read as "". */
  function Stem(name: Option<string>): string
  {
    if name.Some? then FileName(name.value) else ""
  }

  /** file_get_contents of a file the extraction wrote. */
  function ContentOf(f: File): string
  {
    if f.Blob? then f.content else ""
  }

  /** The transcriptions found in the folder: image path -> the text of "<stem><suffix>". */
  function TextsOf(pairs: Pairs, d: Dir, suffix: string): map<string, string>
    decreases |pairs|
  {
    if pairs == [] then map[]
    else
      var prev := TextsOf(pairs[..|pairs| - 1], d, suffix);
      var (path, name) := pairs[|pairs| - 1];
      var txt := Stem(name) + suffix;
      if txt in d then prev[path := ContentOf(d[txt])] else prev
  }

  /** Whether a mapping entry is for the path and its text file "<stem><suffix>" is in the folder. */
  predicate TextFor(entry: (string, Option<string>), d: Dir, suffix: string, key: string)
  {
    entry.0 == key && Stem(entry.1) + suffix in d
  }

  /** A path has a transcription exactly when one of its entries has a text file. */
  lemma {:induction false} TextsOfKeys(pairs: Pairs, d: Dir, suffix: string, key: string)
    ensures key in TextsOf(pairs, d, suffix) <==> exists i :: 0 <= i < |pairs| && TextFor(pairs[i], d, suffix, key)
    decreases |pairs|
  {
    if pairs == [] {
      assert TextsOf(pairs, d, suffix) == map[];
    } else {
      var m := |pairs| - 1;
      TextsOfKeys(pairs[..m], d, suffix, key);
      TextsOfLast(pairs, d, suffix, key);
      if key in TextsOf(pairs, d, suffix) {
        if key in TextsOf(pairs[..m], d, suffix) {
          var i :| 0 <= i < m && TextFor(pairs[..m][i], d, suffix, key);
          assert pairs[i] == pairs[..m][i];
        } else {
          assert TextFor(pairs[m], d, suffix, key);
        }
      }
      if exists i :: 0 <= i < |pairs| && TextFor(pairs[i], d, suffix, key) {
        var i :| 0 <= i < |pairs| && TextFor(pairs[i], d, suffix, key);
        if i < m {
          assert pairs[..m][i] == pairs[i];
          assert key in TextsOf(pairs[..m], d, suffix);
        } else {
          assert i == m;
        }
        assert key in TextsOf(pairs, d, suffix);
      }
    }
  }

  /** One step of TextsOf: the last entry adds its path when its text file is there. */
  lemma TextsOfLast(pairs: Pairs, d: Dir, suffix: string, key: string)
    requires pairs != []
    ensures key in TextsOf(pairs, d, suffix) <==>
              key in TextsOf(pairs[..|pairs| - 1], d, suffix) || TextFor(pairs[|pairs| - 1], d, suffix, key)
  {
  }

  /** The loop over the mapping that gathers both kinds of transcription. */
  method CollectTexts(pairs: Pairs, d: Dir) returns (generated: map<string, string>, post: map<string, string>)
    ensures generated == TextsOf(pairs, d, TxtSuffix) && post == TextsOf(pairs, d, PostSuffix)
  {
    generated, post := map[], map[];
    for i := 0 to |pairs|
      invariant generated == TextsOf(pairs[..i], d, TxtSuffix) && post == TextsOf(pairs[..i], d, PostSuffix)
    {
      assert pairs[..i + 1][..i] == pairs[..i];
      var (path, name) := pairs[i];
      var stem := if name.Some? then FileName(name.value) else "";
      if stem + TxtSuffix in d {
        generated := generated[path := ContentOf(d[stem + TxtSuffix])];
      }
      if stem + PostSuffix in d {
        post := post[path := ContentOf(d[stem + PostSuffix])];
      }
    }
    assert pairs[..|pairs|] == pairs;
  }

  /** The two transcription files, each written only when it has something in it. */
  function WithTexts(d: Dir, generated: map<string, string>, post: map<string, string>): (r: Dir)
    ensures generated != map[] ==> GeneratedFile in r && r[GeneratedFile] == Texts(generated)
    ensures post != map[] ==> PostProcessedFile in r && r[PostProcessedFile] == Texts(post)
    ensures forall f :: (f in d && (f == GeneratedFile ==> generated == map[]) && (f == PostProcessedFile ==> post == map[]))
                          ==> f in r && r[f] == d[f]
    ensures forall f :: f in r ==> f in d || (f == GeneratedFile && generated != map[]) || (f == PostProcessedFile && post != map[])
  {
    var d1 := if generated != map[] then d[GeneratedFile := Texts(generated)] else d;
    if post != map[] then d1[PostProcessedFile := Texts(post)] else d1
  }

  /** A name glob("*.txt") lists. */
  predicate IsTxtName(name: string)
  {
    |name| >= 4 && name[|name| - 4..] == ".txt"
  }

  /** The folder after array_map('unlink', glob("*.txt")): every other file kept. */
  function WithoutTxt(d: Dir): (r: Dir)
    ensures forall f :: f in r <==> f in d && !IsTxtName(f)
    ensures forall f :: f in r ==> r[f] == d[f]
  {
    map f | f in d && !IsTxtName(f) :: d[f]
  }

  /** The save's image mapping, as a PHP array: the named entries, a later one of the same path winning. */
  function Named(pairs: Pairs): map<string, string>
    decreases |pairs|
  {
    if pairs == [] then map[]
    else
      var prev := Named(pairs[..|pairs| - 1]);
      var (path, name) := pairs[|pairs| - 1];
      if name.Some? then prev[path := name.value] else prev
  }

  /** The lookup table create_new_lookup_table writes for the imported save. */
  function NewTable(projectId: string, projectName: string, saveId: string, saveName: string, d: Dir,
                    mapping: map<string, string>): LookupTable
  {
    LookupTable(projectId, saveId, projectName, saveName, Sweep.KnownNames(Sweep.ImagesOf(d), mapping),
                Some(Ledger.DefaultTransmission), None)
  }

  // ---------------------------------------------------------------------------
  // The request, as a function of what it is given
  // ---------------------------------------------------------------------------

  /** What the import answers: the message for the user, the new log's text and the new lookup table. */
  datatype Reply = Reply(errorToUser: string, logBody: string, table: Option<LookupTable>)

  /**
   * What a request leaves behind: the HTTP status, the answer (None when nothing was
   * echoed), the new save's folder, the temporary folder when it is not removed, and
   * what was logged to the project's error.txt.
   */
  datatype Effect = Effect(status: int, reply: Option<Reply>, save: Option<Dir>, leftover: Option<Dir>,
                           incident: Option<Incident>)

  /** A request that answers with a message and leaves nothing behind. */
  function Refused(message: string): Effect
  {
    Effect(200, Some(Reply(message, "", None)), None, None, None)
  }

  /** A request that threw: the catch logs it, nothing is echoed, the temporary folder stays. */
  function Thrown(temp: Dir): Effect
  {
    Effect(200, None, None, Some(temp), Some(Uncaught))
  }

  /** The temporary folder once the two JSON files are extracted. */
  function Opened(a: Archive): Dir
  {
    map[BoxesFile := if a.boxes.Some? && a.boxes.value.documents.Some?
                     then Boxes(a.boxes.value.documents.value, a.content(BoxesFile))
                     else Blob(a.content(BoxesFile)),
        TranscriptionFile := Blob(a.content(TranscriptionFile))]
  }

  /** The folder that becomes the save, from the folder the extraction left. */
  function Completed(d: Dir, pairs: Pairs, projectId: string, projectName: string, saveId: string, saveName: string): Dir
  {
    var cleaned := WithoutTxt(WithTexts(d, TextsOf(pairs, d, TxtSuffix), TextsOf(pairs, d, PostSuffix)));
    cleaned[LookupFile := Table(NewTable(projectId, projectName, saveId, saveName, cleaned, Named(pairs)))]
  }

  /**
   * What every request's effect satisfies: a save is created exactly when the answer
   * carries no error message, and then the answer's lookup table is the save's; the
   * temporary folder stays exactly when nothing was answered (no file, or a throw).
   */
  predicate Coherent(e: Effect)
  {
    && (e.save.Some? ==>
          && e.reply.Some? && e.reply.value.errorToUser == "" && e.reply.value.table.Some?
          && LookupFile in e.save.value && e.save.value[LookupFile] == Table(e.reply.value.table.value)
          && e.leftover.None? && e.incident.None?)
    && (e.reply.Some? && e.reply.value.errorToUser == "" ==> e.save.Some?)
    && (e.leftover.Some? <==> e.status == 400 || e.reply.None?)
  }

  /** The import, given the project's mapping and id, the upload, the names, the new save's id and the date. */
  function Outcome(pm: Option<map<string, string>>, projectId: string, file: Option<Upload>, projectName: string,
                   saveName: string, saveId: string, date: string): (e: Effect)
    ensures Coherent(e)
    ensures e.status == 400 <==> file.None?
    ensures file.Some? && file.value.size >= MaxZipSize ==> e == Refused(TooLarge)
    ensures file.Some? && file.value.size < MaxZipSize && file.value.archive.None? ==>
              e.reply == Some(Reply(Unopenable, "", None)) && e.incident == Some(ZipUnreadable)
    ensures file.Some? && file.value.size < MaxZipSize && file.value.archive.Some?
            && !(BoxesFile in file.value.archive.value.names && TranscriptionFile in file.value.archive.value.names)
            ==> e == Refused(JsonMissing)
    ensures e.save.Some? ==>
              && file.Some? && file.value.size < MaxZipSize && file.value.archive.Some?
              && BoxesFile in file.value.archive.value.names && TranscriptionFile in file.value.archive.value.names
  {
    if file.None? then Effect(400, None, None, Some(map[]), Some(NoFiles))
    else if file.value.size >= MaxZipSize then Refused(TooLarge)
    else if file.value.archive.None? then Effect(200, Some(Reply(Unopenable, "", None)), None, None, Some(ZipUnreadable))
    else
      var a := file.value.archive.value;
      if !(BoxesFile in a.names && TranscriptionFile in a.names) then Refused(JsonMissing)
      else Unpacked(pm, projectId, a, projectName, saveName, saveId, date)
  }

  /**
   * The import of an archive that holds both JSON files: it throws when the boxes
   * document is no object, when it has neither a mapping nor documents, or when there
   * is something to merge into a project without a mapping; otherwise the entries are
   * extracted.
   */
  function Unpacked(pm: Option<map<string, string>>, projectId: string, a: Archive, projectName: string,
                    saveName: string, saveId: string, date: string): (e: Effect)
    ensures Coherent(e) && e.status == 200
    ensures a.boxes.None? ==> e == Thrown(Opened(a))
    ensures (a.boxes.Some? && pm.None? && (a.boxes.value.mapping.Some? || a.boxes.value.documents.Some?)
             && ProjectAdds(a.boxes.value) != []) ==> e == Thrown(Opened(a))
  {
    if a.boxes.None? then Thrown(Opened(a))
    else
      var b := a.boxes.value;
      var pairs := SaveMapping(b);
      if pairs.None? then Thrown(Opened(a))
      else if pm.None? && ProjectAdds(b) != [] then Thrown(Opened(a))
      else Concluded(b, pairs.value, Extracted(a.names, pairs.value, a.content, Opened(a)), projectId, projectName,
                     saveName, saveId, date)
  }

  /**
   * The import once the entries are extracted into the folder `d`: it throws when the
   * boxes document has no documents, refuses when one of their images is missing, and
   * otherwise turns the folder into the save.
   */
  function Concluded(b: BoxesJson, pairs: Pairs, d: Dir, projectId: string, projectName: string,
                     saveName: string, saveId: string, date: string): (e: Effect)
    ensures Coherent(e) && e.status == 200
    ensures b.documents.None? ==> e == Thrown(d)
    ensures b.documents.Some? ==> (e.save.Some? <==> forall x :: x in b.documents.value ==> x in d)
    ensures b.documents.Some? && e.save.None? ==> e == Refused(ImagesMissing)
    ensures e.save.Some? ==> e.save.value == Completed(d, pairs, projectId, projectName, saveId, saveName)
                             && e.reply.value.logBody == Utils.WelcomeText(date, projectName, saveName)
  {
    if b.documents.None? then Thrown(d)
    else if MissingOf(b.documents.value, d) != [] then
      assert MissingOf(b.documents.value, d)[0] in MissingOf(b.documents.value, d);
      Refused(ImagesMissing)
    else
      var saved := Completed(d, pairs, projectId, projectName, saveId, saveName);
      Effect(200, Some(Reply("", Utils.WelcomeText(date, projectName, saveName), Some(saved[LookupFile].table))),
             Some(saved), None, None)
  }

  /** The mapping copied for a listing of the folder's images is the one for its image set. */
  lemma KnownOfListed(images: seq<string>, d: Dir, mapping: map<string, string>)
    requires forall f :: f in images <==> f in Sweep.ImagesOf(d)
    ensures Utils.CopyKnown(map[], images, mapping) == Sweep.KnownNames(Sweep.ImagesOf(d), mapping)
  {
  }

  /** The project's sub-directories after a request: the new save, and the temporary folder if it stayed. */
  function SavesAfter(saves: map<string, Dir>, saveId: string, tempId: string, e: Effect): map<string, Dir>
  {
    var withSave := if e.save.Some? then saves[saveId := e.save.value] else saves;
    if e.leftover.Some? then withSave[tempId := e.leftover.value] else withSave
  }

  /** The error.txt lines a request adds: the project folder exists, so they go there. */
  function ErrorsAfter(projectDir: string, e: Effect): seq<ErrorRecord>
  {
    if e.incident.Some? then [ErrorRecord(Utils.ErrorLogPath(projectDir, true), e.incident.value, None)] else []
  }

  // ---------------------------------------------------------------------------
  // The request, step by step
  // ---------------------------------------------------------------------------

  /**
   * One import into the site's project. The save's and the temporary folder's ids
   * (from generate_id) are fresh; `date` is what create_new_log stamps the log with.
   */
  method Import(site: Site, file: Option<Upload>, projectName: string, saveName: string, saveId: string,
                tempId: string, date: string) returns (status: int, reply: Option<Reply>)
    requires tempId != saveId && tempId !in site.saves && saveId !in site.saves
    modifies site
    ensures var e := Outcome(old(site.project.imageMapping), site.project.projectId, file, projectName, saveName, saveId, date);
            && status == e.status && reply == e.reply
            && site.saves == SavesAfter(old(site.saves), saveId, tempId, e)
            && site.errors == old(site.errors) + ErrorsAfter(site.projectDir, e)
            && site.logs == (if e.save.Some? then old(site.logs)[saveId := [Welcome(projectName, saveName)]] else old(site.logs))
    ensures site.project == old(site.project) && site.images == old(site.images) && site.remote == old(site.remote)
  {
    site.saves := site.saves[tempId := map[]];
    if file.None? {
      site.errors := site.errors + [ErrorRecord(Utils.ErrorLogPath(site.projectDir, true), NoFiles, None)];
      return 400, None;
    }
    status := 200;
    if file.value.size >= MaxZipSize || file.value.archive.None? {
      if file.value.size < MaxZipSize {
        site.errors := site.errors + [ErrorRecord(Utils.ErrorLogPath(site.projectDir, true), ZipUnreadable, None)];
      }
      TempRemoved(old(site.saves), tempId, map[]);
      site.saves := site.saves - {tempId};
      return 200, Some(Reply(if file.value.size >= MaxZipSize then TooLarge else Unopenable, "", None));
    }
    var a := file.value.archive.value;
    if !(BoxesFile in a.names && TranscriptionFile in a.names) {
      TempRemoved(old(site.saves), tempId, map[]);
      site.saves := site.saves - {tempId};
      return 200, Some(Reply(JsonMissing, "", None));
    }
    site.saves := site.saves[tempId := Opened(a)];
    reply := Unpack(site, old(site.saves), a, projectName, saveName, saveId, tempId, date);
  }

  /** The import of an archive with both JSON files, the temporary folder holding them. */
  method Unpack(site: Site, ghost base: map<string, Dir>, a: Archive, projectName: string, saveName: string,
                saveId: string, tempId: string, date: string) returns (reply: Option<Reply>)
    requires tempId != saveId && saveId !in base && tempId !in base
    requires site.saves == base[tempId := Opened(a)]
    modifies site
    ensures var e := Unpacked(old(site.project.imageMapping), site.project.projectId, a, projectName, saveName, saveId, date);
            && reply == e.reply
            && site.saves == SavesAfter(base, saveId, tempId, e)
            && site.errors == old(site.errors) + ErrorsAfter(site.projectDir, e)
            && site.logs == (if e.save.Some? then old(site.logs)[saveId := [Welcome(projectName, saveName)]] else old(site.logs))
    ensures site.project == old(site.project) && site.images == old(site.images) && site.remote == old(site.remote)
  {
    if a.boxes.None? || (a.boxes.value.mapping.None? && a.boxes.value.documents.None?) {
      site.errors := site.errors + [ErrorRecord(Utils.ErrorLogPath(site.projectDir, true), Uncaught, None)];
      return None;
    }
    var b := a.boxes.value;
    var pairs := SaveMapping(b).value;
    var merged, thrown := MergeIntoProject(site.project.imageMapping, ProjectAdds(b));
    if thrown {
      site.errors := site.errors + [ErrorRecord(Utils.ErrorLogPath(site.projectDir, true), Uncaught, None)];
      return None;
    }
    // the merged project table stays in memory: it is never written back
    var d := ExtractEntries(a, pairs, Opened(a));
    site.saves := site.saves[tempId := d];
    reply := Conclude(site, base, b, pairs, d, projectName, saveName, saveId, tempId, date);
  }

  /** The missing-image check on the extracted folder, and the save made of it. */
  method Conclude(site: Site, ghost base: map<string, Dir>, b: BoxesJson, pairs: Pairs, d: Dir, projectName: string,
                  saveName: string, saveId: string, tempId: string, date: string) returns (reply: Option<Reply>)
    requires tempId != saveId && saveId !in base && tempId !in base
    requires site.saves == base[tempId := d]
    modifies site
    ensures var e := Concluded(b, pairs, d, site.project.projectId, projectName, saveName, saveId, date);
            && reply == e.reply
            && site.saves == SavesAfter(base, saveId, tempId, e)
            && site.errors == old(site.errors) + ErrorsAfter(site.projectDir, e)
            && site.logs == (if e.save.Some? then old(site.logs)[saveId := [Welcome(projectName, saveName)]] else old(site.logs))
    ensures site.project == old(site.project) && site.images == old(site.images) && site.remote == old(site.remote)
  {
    if b.documents.None? {
      site.errors := site.errors + [ErrorRecord(Utils.ErrorLogPath(site.projectDir, true), Uncaught, None)];
      return None;
    }
    var missing := FindMissing(b.documents.value, d);
    if missing != [] {
      TempRemoved(base, tempId, d);
      site.saves := site.saves - {tempId};
      return Some(Reply(ImagesMissing, "", None));
    }
    reply := Finish(site, base, d, pairs, projectName, saveName, saveId, tempId, date);
  }

  /** Removing the temporary folder restores the sub-directories it was added to. */
  lemma TempRemoved(saves: map<string, Dir>, tempId: string, temp: Dir)
    requires tempId !in saves
    ensures saves[tempId := temp] - {tempId} == saves
  {
  }

  /**
   * The end of a successful import: the transcriptions written, the text files
   * deleted, the log and the lookup table created, and the folder renamed to the save.
   */
  method Finish(site: Site, ghost base: map<string, Dir>, d: Dir, pairs: Pairs, projectName: string, saveName: string,
                saveId: string, tempId: string, date: string) returns (reply: Option<Reply>)
    requires tempId != saveId && saveId !in base && tempId !in base
    requires site.saves == base[tempId := d]
    modifies site
    ensures var saved := Completed(d, pairs, site.project.projectId, projectName, saveId, saveName);
            && reply == Some(Reply("", Utils.WelcomeText(date, projectName, saveName), Some(saved[LookupFile].table)))
            && site.saves == base[saveId := saved]
            && site.logs == old(site.logs)[saveId := [Welcome(projectName, saveName)]]
    ensures site.project == old(site.project) && site.images == old(site.images) && site.remote == old(site.remote)
    ensures site.errors == old(site.errors)
  {
    var generated, post := CollectTexts(pairs, d);
    var cleaned := WithoutTxt(WithTexts(d, generated, post));
    var body := Utils.WelcomeText(date, projectName, saveName);
    var images := Sweep.ListImages(cleaned);
    var named := Named(pairs);
    KnownOfListed(images, cleaned, named);
    var table := Utils.CreateNewLookupTable(site.project.projectId, projectName, saveId, saveName, images, named);
    site.logs := site.logs[saveId := [Welcome(projectName, saveName)]];
    TempRemoved(base, tempId, d);
    site.saves := (site.saves - {tempId})[saveId := cleaned[LookupFile := Table(table)]];
    reply := Some(Reply("", body, Some(table)));
  }

  // ---------------------------------------------------------------------------
  // What an import makes
  // ---------------------------------------------------------------------------

  /**
   * The save holds the lookup table, the two transcription files when they have
   * something in them, and the extracted files except the text files; nothing else.
   */
  lemma CompletedFiles(d: Dir, pairs: Pairs, projectId: string, projectName: string, saveId: string, saveName: string,
                       key: string)
    ensures var saved := Completed(d, pairs, projectId, projectName, saveId, saveName);
            key in saved <==>
              || key == LookupFile
              || (key == GeneratedFile && TextsOf(pairs, d, TxtSuffix) != map[])
              || (key == PostProcessedFile && TextsOf(pairs, d, PostSuffix) != map[])
              || (key in d && !IsTxtName(key))
  {
    var generated, post := TextsOf(pairs, d, TxtSuffix), TextsOf(pairs, d, PostSuffix);
    assert !IsTxtName(GeneratedFile) && !IsTxtName(PostProcessedFile);
    var withTexts := WithTexts(d, generated, post);
    if key in d && !IsTxtName(key) {
      assert key in withTexts;
    }
  }

  /**
   * An imported save holds nothing the whitelist did not let through: besides the
   * bookkeeping files and the two JSON files of the archive, each file is where an
   * archive entry landed, and no file is a text file.
   */
  lemma ImportedSaveWhitelisted(pm: Option<map<string, string>>, projectId: string, size: int, a: Archive,
                                projectName: string, saveName: string, saveId: string, date: string, key: string)
    requires a.boxes.Some? && SaveMapping(a.boxes.value).Some?
    requires var e := Outcome(pm, projectId, Some(Upload(size, Some(a))), projectName, saveName, saveId, date);
             e.save.Some? && key in e.save.value
    ensures !IsTxtName(key) || key == LookupFile
    ensures || key in {LookupFile, GeneratedFile, PostProcessedFile, BoxesFile, TranscriptionFile}
            || exists i :: 0 <= i < |a.names| && Target(a.names[i], SaveMapping(a.boxes.value).value) == Some(key)
  {
    var pairs := SaveMapping(a.boxes.value).value;
    var d := Extracted(a.names, pairs, a.content, Opened(a));
    SavedFolder(pm, projectId, size, a, projectName, saveName, saveId, date);
    CompletedFiles(d, pairs, projectId, projectName, saveId, saveName, key);
    assert !IsTxtName(LookupFile);
    ExtractedKeys(a.names, pairs, a.content, Opened(a), key);
  }

  /**
   * The stored bounding_boxes.json is the archive's own entry: the image name mapping
   * the import reads out of it is not removed from the file (unset only touches the
   * decoded copy), unless an extracted entry lands on that name.
   */
  lemma StoredBoxesAsArchived(pm: Option<map<string, string>>, projectId: string, size: int, a: Archive,
                              projectName: string, saveName: string, saveId: string, date: string)
    requires a.boxes.Some? && SaveMapping(a.boxes.value).Some?
    requires forall i :: 0 <= i < |a.names| ==> Target(a.names[i], SaveMapping(a.boxes.value).value) != Some(BoxesFile)
    requires Outcome(pm, projectId, Some(Upload(size, Some(a))), projectName, saveName, saveId, date).save.Some?
    ensures var saved := Outcome(pm, projectId, Some(Upload(size, Some(a))), projectName, saveName, saveId, date).save.value;
            BoxesFile in saved && saved[BoxesFile] == Boxes(a.boxes.value.documents.value, a.content(BoxesFile))
  {
    var pairs := SaveMapping(a.boxes.value).value;
    var d := Extracted(a.names, pairs, a.content, Opened(a));
    SavedFolder(pm, projectId, size, a, projectName, saveName, saveId, date);
    BoxesEntryStays(a.names, pairs);
    ExtractedKeys(a.names, pairs, a.content, Opened(a), BoxesFile);
    assert d[BoxesFile] == Opened(a)[BoxesFile];
    CompletedKeeps(d, pairs, projectId, projectName, saveId, saveName, BoxesFile);
  }

  /** A save the import creates is the folder the extraction left, completed. */
  lemma SavedFolder(pm: Option<map<string, string>>, projectId: string, size: int, a: Archive,
                    projectName: string, saveName: string, saveId: string, date: string)
    requires a.boxes.Some? && SaveMapping(a.boxes.value).Some?
    requires Outcome(pm, projectId, Some(Upload(size, Some(a))), projectName, saveName, saveId, date).save.Some?
    ensures a.boxes.value.documents.Some?
    ensures var pairs := SaveMapping(a.boxes.value).value;
            Outcome(pm, projectId, Some(Upload(size, Some(a))), projectName, saveName, saveId, date).save.value
            == Completed(Extracted(a.names, pairs, a.content, Opened(a)), pairs, projectId, projectName, saveId, saveName)
  {
    var pairs := SaveMapping(a.boxes.value).value;
    var d := Extracted(a.names, pairs, a.content, Opened(a));
    assert Unpacked(pm, projectId, a, projectName, saveName, saveId, date)
           == Concluded(a.boxes.value, pairs, d, projectId, projectName, saveName, saveId, date);
  }

  /** A file of the folder that is no text file and no file the import writes is saved as it is. */
  lemma CompletedKeeps(d: Dir, pairs: Pairs, projectId: string, projectName: string, saveId: string, saveName: string,
                       key: string)
    requires key in d && !IsTxtName(key) && key != LookupFile && key != GeneratedFile && key != PostProcessedFile
    ensures var saved := Completed(d, pairs, projectId, projectName, saveId, saveName);
            key in saved && saved[key] == d[key]
  {
    var withTexts := WithTexts(d, TextsOf(pairs, d, TxtSuffix), TextsOf(pairs, d, PostSuffix));
    assert key in withTexts && withTexts[key] == d[key];
  }

  // ---------------------------------------------------------------------------
  // Archives exported before the image name mapping existed
  // ---------------------------------------------------------------------------

  /**
   * As written, an archive without an image name mapping whose documents name an
   * image (.jpg or .png, other than the two JSON files) is always refused: every
   * mapped name is null, so no image is extracted and the image is missing.
   */
  lemma LegacyImportRefusedAsWritten(a: Archive, b: BoxesJson, doc: string)
    requires b.mapping.None? && b.documents.Some? && doc in b.documents.value
    requires doc != BoxesFile && doc != TranscriptionFile
    requires EntryExt(doc) == "jpg" || EntryExt(doc) == "png"
    ensures var pairs := SaveMappingAsWritten(b).value;
            MissingOf(b.documents.value, Extracted(a.names, pairs, a.content, Opened(a))) != []
  {
    var pairs := SaveMappingAsWritten(b).value;
    forall i | 0 <= i < |a.names|
      ensures Target(a.names[i], pairs) != Some(doc)
    {
      var n := a.names[i];
      if EntryExt(n) == "txt" {
        BasenameOfName(n);
        assert EntryExt(Basename(n)) == "txt";
      } else {
        assert FirstPath(pairs, n).None?;
      }
    }
    ExtractedKeys(a.names, pairs, a.content, Opened(a), doc);
    assert doc in MissingOf(b.documents.value, Extracted(a.names, pairs, a.content, Opened(a)));
  }

  /** Corrected, a listed image without a directory lands under its own name. */
  lemma LegacyTarget(b: BoxesJson, doc: string)
    requires b.mapping.None? && b.documents.Some? && doc in b.documents.value
    requires Avoids(doc, '/') && (EntryExt(doc) == "jpg" || EntryExt(doc) == "png")
    ensures Target(doc, SaveMapping(b).value) == Some(doc)
  {
    var pairs := SaveMapping(b).value;
    var docs := b.documents.value;
    var j :| 0 <= j < |docs| && docs[j] == doc;
    assert pairs[j].1 == Some(doc);
    var p := FirstPath(pairs, doc);
    var i :| 0 <= i < |pairs| && pairs[i] == (p.value, Some(doc));
    assert pairs[i] == (docs[i], Some(docs[i]));
    BasenameOfName(doc);
  }

  /**
   * Corrected, such an archive is accepted when it holds every image its documents
   * name, each under its own path (a name without a directory).
   */
  lemma LegacyImportAccepted(a: Archive, b: BoxesJson)
    requires b.mapping.None? && b.documents.Some?
    requires forall doc :: doc in b.documents.value ==>
               doc in a.names && Avoids(doc, '/') && (EntryExt(doc) == "jpg" || EntryExt(doc) == "png")
    ensures var pairs := SaveMapping(b).value;
            MissingOf(b.documents.value, Extracted(a.names, pairs, a.content, Opened(a))) == []
  {
    var pairs := SaveMapping(b).value;
    var docs := b.documents.value;
    var d := Extracted(a.names, pairs, a.content, Opened(a));
    forall doc | doc in docs
      ensures doc in d
    {
      var k :| 0 <= k < |a.names| && a.names[k] == doc;
      LegacyTarget(b, doc);
      ExtractedKeys(a.names, pairs, a.content, Opened(a), doc);
    }
  }

  /**
   * And so, corrected, a well-formed older archive becomes a save whenever the
   * project has an image mapping to merge into.
   */
  lemma LegacyArchiveImported(pm: Option<map<string, string>>, projectId: string, size: int, a: Archive,
                              projectName: string, saveName: string, saveId: string, date: string)
    requires size < MaxZipSize && BoxesFile in a.names && TranscriptionFile in a.names && pm.Some?
    requires a.boxes.Some? && a.boxes.value.mapping.None? && a.boxes.value.documents.Some?
    requires forall doc :: doc in a.boxes.value.documents.value ==>
               doc in a.names && Avoids(doc, '/') && (EntryExt(doc) == "jpg" || EntryExt(doc) == "png")
    ensures Outcome(pm, projectId, Some(Upload(size, Some(a))), projectName, saveName, saveId, date).save.Some?
  {
    LegacyImportAccepted(a, a.boxes.value);
    var pairs := SaveMapping(a.boxes.value).value;
    var d := Extracted(a.names, pairs, a.content, Opened(a));
    assert Unpacked(pm, projectId, a, projectName, saveName, saveId, date)
           == Concluded(a.boxes.value, pairs, d, projectId, projectName, saveName, saveId, date);
  }
}
