/**
 * web/project_view/upload_images.php: images uploaded to a project. Each file gets a
 * generated name; a JPEG or PNG under 50 MB is moved into the project folder, gets a
 * thumbnail and a mapping entry from its generated name to the name the user gave
 * it, and any other file is reported back by its generated name. The project table
 * is written once, after the loop.
 */
module UploadImages {
  import opened Wrappers
  import opened SaveFiles
  import opened Site
  import opened Strings
  import Utils
  import Sweep
  import ProjectView

  /** One entry of $_FILES['files']: the name the user gave the file and its size in bytes. */
  datatype Upload = Upload(name: string, size: int)

  /** The upload size limit, in bytes. */
  const MaxSize: int := 50000000

  /** The file's extension, lower-cased. */
  function UploadExt(name: string): string
  {
    Lower(Extension(name))
  }

  /** Only .jpg and .png files (in any case) under 50 MB are taken. */
  predicate Accepted(f: Upload)
  {
    (UploadExt(f.name) == "jpg" || UploadExt(f.name) == "png") && f.size < MaxSize
  }

  /** generate_id("uploaded-$i") . ".$ext" */
  function GeneratedName(i: nat, f: Upload, random: seq<bv8>, now: Utils.DateTime): string
    requires now.Valid()
  {
    Utils.GenerateId(random, "uploaded-" + Decimal(i), now) + "." + UploadExt(f.name)
  }

  /** The generated names of all the files, from each file's random bytes and clock reading. */
  function Generated(files: seq<Upload>, random: seq<seq<bv8>>, clock: seq<Utils.DateTime>): (gens: seq<string>)
    requires |random| == |files| && |clock| == |files|
    requires forall i :: 0 <= i < |clock| ==> clock[i].Valid()
    ensures |gens| == |files|
  {
    seq(|files|, i requires 0 <= i < |files| => GeneratedName(i, files[i], random[i], clock[i]))
  }

  /** Files drawn with different random bytes get different names, whatever their extensions. */
  lemma GeneratedDistinct(files: seq<Upload>, random: seq<seq<bv8>>, clock: seq<Utils.DateTime>, i: int, j: int)
    requires |random| == |files| && |clock| == |files|
    requires forall k :: 0 <= k < |clock| ==> clock[k].Valid()
    requires 0 <= i < |files| && 0 <= j < |files|
    requires |random[i]| == 7 && |random[j]| == 7 && random[i] != random[j]
    ensures Generated(files, random, clock)[i] != Generated(files, random, clock)[j]
  {
    var id1 := Utils.GenerateId(random[i], "uploaded-" + Decimal(i), clock[i]);
    var id2 := Utils.GenerateId(random[j], "uploaded-" + Decimal(j), clock[j]);
    Utils.GenerateIdDistinct(random[i], random[j], "uploaded-" + Decimal(i), "uploaded-" + Decimal(j), clock[i], clock[j]);
    LowerKeepsDots(Extension(files[i].name));
    LowerKeepsDots(Extension(files[j].name));
    IdBeforeDot(id1, UploadExt(files[i].name));
    IdBeforeDot(id2, UploadExt(files[j].name));
  }

  /** The part before the last dot of "id.ext" is the id, when the extension has no dot. */
  lemma IdBeforeDot(id: string, ext: string)
    requires Avoids(ext, '.')
    ensures var g := id + "." + ext; 0 <= LastIndexOf(g, '.') && g[..LastIndexOf(g, '.')] == id
  {
    assert id + "." + ext == id + ['.'] + ext;
    LastIndexAt(id, '.', ext);
    assert (id + "." + ext)[..|id|] == id;
  }

  /** Lower-casing puts no dot into a string that had none. */
  lemma LowerKeepsDots(s: string)
    requires Avoids(s, '.')
    ensures Avoids(Lower(s), '.')
  {
    forall i | 0 <= i < |s|
      ensures Lower(s)[i] != '.'
    {
      assert s[i] != '.';
    }
  }

  // ---------------------------------------------------------------------------
  // The loop over the files
  // ---------------------------------------------------------------------------

  /** One file as the loop sees it: the name the user gave it and whether the test at line 56 admits it. */
  datatype Entry = Entry(name: string, admitted: bool)

  /** The loop's view of the uploaded files. */
  function Entries(files: seq<Upload>): (es: seq<Entry>)
    ensures |es| == |files|
    ensures forall i :: 0 <= i < |files| ==> es[i].name == files[i].name && (es[i].admitted <==> Accepted(files[i]))
  {
    seq(|files|, i requires 0 <= i < |files| => Entry(files[i].name, Accepted(files[i])))
  }

  /**
   * What the loop has built: the names reported back, the rejected files, the
   * project's mapping, the images moved into the project folder, the thumbnails
   * folder, and whether a thumbnail threw (which ends the request).
   */
  datatype Tally = Tally(names: map<string, string>, errors: seq<string>, mapping: map<string, string>,
                         moved: set<string>, thumbs: Dir, crashed: bool)

  /** One file of the loop. */
  function Step(t: Tally, f: Entry, gen: string, probe: string -> ProjectView.Probe): Tally
  {
    if t.crashed then t
    else if !f.admitted then t.(errors := t.errors + [gen])
    else if ProjectView.Rejected(t.thumbs, probe, gen) then
      t.(moved := t.moved + {gen}, names := t.names[gen := f.name], crashed := true)
    else
      t.(moved := t.moved + {gen}, names := t.names[gen := f.name],
         thumbs := if gen in t.thumbs then t.thumbs else t.thumbs[gen := ProjectView.ThumbnailOf(probe(gen))],
         mapping := t.mapping[gen := f.name])
  }

  /**
   * What one file does to one name: an accepted file's generated name is reported
   * and moved, and mapped unless its thumbnail threw; a rejected file's is listed as
   * an error; every other name is left alone; a loop that threw stays thrown.
   */
  lemma StepAt(t: Tally, f: Entry, gen: string, probe: string -> ProjectView.Probe, key: string)
    ensures var s := Step(t, f, gen, probe);
            && (t.crashed ==> s == t)
            && (s.crashed ==> t.crashed || (f.admitted && ProjectView.Rejected(t.thumbs, probe, gen)))
            && (!t.crashed && !(f.admitted && ProjectView.Rejected(t.thumbs, probe, gen)) ==> !s.crashed)
            && (key in t.errors ==> key in s.errors)
            && (key != gen || !f.admitted || t.crashed ==>
                  && (key in s.names <==> key in t.names) && (key in t.names ==> s.names[key] == t.names[key])
                  && (key in s.mapping <==> key in t.mapping) && (key in t.mapping ==> s.mapping[key] == t.mapping[key])
                  && (key in s.moved <==> key in t.moved))
            && (key == gen && !t.crashed && f.admitted ==>
                  && key in s.names && s.names[key] == f.name && key in s.moved
                  && (!s.crashed ==> key in s.mapping && s.mapping[key] == f.name))
            && (key == gen && !t.crashed && !f.admitted ==> key in s.errors)
            && (key in s.errors && key !in t.errors ==> key == gen && !f.admitted)
  {
  }

  /** The loop over the first |files| files. */
  function Tallied(t0: Tally, files: seq<Entry>, gens: seq<string>, probe: string -> ProjectView.Probe): Tally
    requires |gens| == |files|
    decreases |files|
  {
    if files == [] then t0
    else Step(Tallied(t0, files[..|files| - 1], gens[..|files| - 1], probe), files[|files| - 1], gens[|files| - 1], probe)
  }

  /** No two files got the same generated name. */
  predicate Distinct(gens: seq<string>)
  {
    forall i, j :: 0 <= i < j < |gens| ==> gens[i] != gens[j]
  }

  /** A loop that did not throw did not throw at any earlier file either. */
  lemma {:induction false} CrashSticks(t0: Tally, files: seq<Entry>, gens: seq<string>, probe: string -> ProjectView.Probe, n: nat)
    requires |gens| == |files| && n <= |files|
    requires !Tallied(t0, files, gens, probe).crashed
    ensures !Tallied(t0, files[..n], gens[..n], probe).crashed
    decreases |files|
  {
    if n < |files| {
      var m := |files| - 1;
      assert files[..m][..n] == files[..n] && gens[..m][..n] == gens[..n];
      CrashSticks(t0, files[..m], gens[..m], probe, n);
    } else {
      assert files[..n] == files && gens[..n] == gens;
    }
  }

  /**
   * An accepted file, in a loop that did not throw, is reported under its generated
   * name with the user's name, mapped to that name in the project table, and moved.
   */
  lemma {:induction false} AcceptedFileNamed(t0: Tally, files: seq<Entry>, gens: seq<string>,
                                             probe: string -> ProjectView.Probe, i: int)
    requires |gens| == |files| && Distinct(gens) && 0 <= i < |files| && files[i].admitted
    requires !Tallied(t0, files, gens, probe).crashed
    ensures var t := Tallied(t0, files, gens, probe);
            && gens[i] in t.names && t.names[gens[i]] == files[i].name
            && gens[i] in t.mapping && t.mapping[gens[i]] == files[i].name
            && gens[i] in t.moved
    decreases |files|, 1
  {
    var m := |files| - 1;
    var prev := Tallied(t0, files[..m], gens[..m], probe);
    StepAt(prev, files[m], gens[m], probe, gens[i]);
    if i < m {
      EarlierAcceptedFileNamed(t0, files, gens, probe, i);
    }
  }

  /** AcceptedFileNamed for a file before the last one. */
  lemma {:induction false} EarlierAcceptedFileNamed(t0: Tally, files: seq<Entry>, gens: seq<string>,
                                                    probe: string -> ProjectView.Probe, i: int)
    requires |gens| == |files| && Distinct(gens) && 0 <= i < |files| - 1 && files[i].admitted
    requires !Tallied(t0, files, gens, probe).crashed
    ensures var t := Tallied(t0, files, gens, probe);
            && gens[i] in t.names && t.names[gens[i]] == files[i].name
            && gens[i] in t.mapping && t.mapping[gens[i]] == files[i].name
            && gens[i] in t.moved
    decreases |files|, 0
  {
    var m := |files| - 1;
    var prev := Tallied(t0, files[..m], gens[..m], probe);
    StepAt(prev, files[m], gens[m], probe, gens[i]);
    assert gens[m] != gens[i];
    DistinctPrefix(gens, m);
    assert files[..m][i] == files[i] && gens[..m][i] == gens[i];
    AcceptedFileNamed(t0, files[..m], gens[..m], probe, i);
  }

  /** A prefix of distinct names is distinct. */
  lemma DistinctPrefix(gens: seq<string>, n: nat)
    requires Distinct(gens) && n <= |gens|
    ensures Distinct(gens[..n])
  {
  }

  /**
   * A rejected file, in a loop that did not throw, is reported as an error by its
   * generated name, and gets neither a name nor a mapping entry.
   */
  lemma {:induction false} RejectedFileListed(t0: Tally, files: seq<Entry>, gens: seq<string>,
                                              probe: string -> ProjectView.Probe, i: int)
    requires |gens| == |files| && Distinct(gens) && 0 <= i < |files| && !files[i].admitted
    requires gens[i] !in t0.names && gens[i] !in t0.mapping
    ensures var t := Tallied(t0, files, gens, probe);
            && (!t.crashed ==> gens[i] in t.errors)
            && gens[i] !in t.names && gens[i] !in t.mapping
    decreases |files|
  {
    var m := |files| - 1;
    var prev := Tallied(t0, files[..m], gens[..m], probe);
    StepAt(prev, files[m], gens[m], probe, gens[i]);
    assert Tallied(t0, files, gens, probe) == Step(prev, files[m], gens[m], probe);
    if i < m {
      DistinctPrefix(gens, m);
      assert files[..m][i] == files[i] && gens[..m][i] == gens[i];
      RejectedFileListed(t0, files[..m], gens[..m], probe, i);
    } else {
      assert gens[i] !in gens[..m];
      NeverNamed(t0, files[..m], gens[..m], probe, gens[i]);
    }
  }

  /** A name no file generated is never added to the names or the mapping. */
  lemma {:induction false} NeverNamed(t0: Tally, files: seq<Entry>, gens: seq<string>,
                                      probe: string -> ProjectView.Probe, g: string)
    requires |gens| == |files| && g !in gens && g !in t0.names && g !in t0.mapping
    ensures g !in Tallied(t0, files, gens, probe).names && g !in Tallied(t0, files, gens, probe).mapping
    decreases |files|
  {
    if files != [] {
      var m := |files| - 1;
      var prev := Tallied(t0, files[..m], gens[..m], probe);
      assert g != gens[m] && g !in gens[..m];
      NeverNamed(t0, files[..m], gens[..m], probe, g);
      StepAt(prev, files[m], gens[m], probe, g);
      assert Tallied(t0, files, gens, probe) == Step(prev, files[m], gens[m], probe);
    }
  }

  /**
   * The project's mapping only grows, and an entry changes only for an accepted
   * file's generated name; every error is the generated name of a rejected file.
   */
  lemma {:induction false} MappingOnlyGrows(t0: Tally, files: seq<Entry>, gens: seq<string>,
                                            probe: string -> ProjectView.Probe, key: string)
    requires |gens| == |files|
    ensures var t := Tallied(t0, files, gens, probe);
            && (key in t0.mapping ==> key in t.mapping)
            && (key in t0.mapping && (forall i :: 0 <= i < |files| && gens[i] == key ==> !files[i].admitted) ==>
                  t.mapping[key] == t0.mapping[key])
            && (key in t.errors && key !in t0.errors ==> exists i :: 0 <= i < |files| && gens[i] == key && !files[i].admitted)
    decreases |files|
  {
    if files != [] {
      var m := |files| - 1;
      var t := Tallied(t0, files[..m], gens[..m], probe);
      MappingOnlyGrows(t0, files[..m], gens[..m], probe, key);
      StepAt(t, files[m], gens[m], probe, key);
      assert Tallied(t0, files, gens, probe) == Step(t, files[m], gens[m], probe);
      if key in t0.mapping && (forall i :: 0 <= i < |files| && gens[i] == key ==> !files[i].admitted) {
        assert forall i :: 0 <= i < m && gens[..m][i] == key ==> !files[..m][i].admitted;
      }
      if key in Tallied(t0, files, gens, probe).errors && key !in t0.errors {
        if key in t.errors {
          var i :| 0 <= i < m && gens[..m][i] == key && !files[..m][i].admitted;
          assert gens[i] == key && !files[i].admitted;
        } else {
          assert gens[m] == key && !files[m].admitted;
        }
      }
    }
  }

  /** With every uploaded file a JPEG or PNG of at least 5 by 5 pixels, no thumbnail throws. */
  lemma {:induction false} NoCrashForImages(t0: Tally, files: seq<Entry>, gens: seq<string>, probe: string -> ProjectView.Probe)
    requires |gens| == |files| && !t0.crashed
    requires forall i :: 0 <= i < |gens| ==>
               probe(gens[i]).kind != Utils.OtherType && probe(gens[i]).width >= 5 && probe(gens[i]).height >= 5
    ensures !Tallied(t0, files, gens, probe).crashed
    decreases |files|
  {
    if files != [] {
      NoCrashForImages(t0, files[..|files| - 1], gens[..|files| - 1], probe);
    }
  }

  /**
   * An accepted JPEG or PNG under 5 pixels wide or high, with no thumbnail yet,
   * throws: it is moved and reported, but never mapped, and the loop stops.
   */
  lemma TinyImageThrows(t: Tally, f: Entry, gen: string, probe: string -> ProjectView.Probe)
    requires !t.crashed && f.admitted && gen !in t.thumbs
    requires probe(gen).kind != Utils.OtherType && (probe(gen).width < 5 || probe(gen).height < 5)
    ensures var s := Step(t, f, gen, probe);
            s.crashed && gen in s.moved && s.mapping == t.mapping && s.thumbs == t.thumbs
  {
  }

  // ---------------------------------------------------------------------------
  // The request
  // ---------------------------------------------------------------------------

  /** What the request answers: the rejected files, the accepted ones' names, the project table. */
  datatype Reply = Reply(errors: seq<string>, names: map<string, string>, table: ProjectTable)

  /** The mapping as the table holds it after the loop: a missing mapping is created by the first entry. */
  function MappingAfter(before: Option<map<string, string>>, after: map<string, string>): Option<map<string, string>>
  {
    if before.None? && after == map[] then None else Some(after)
  }

  /** The thumbnails folder, as the loop sees it (a missing folder holds no thumbnail). */
  function ThumbsOf(saves: map<string, Dir>): Dir
  {
    if Sweep.Thumbnails in saves then saves[Sweep.Thumbnails] else map[]
  }

  /** The project folder's sub-directories once the thumbnails folder holds `thumbs` (a missing folder stays missing). */
  function Placed(saves: map<string, Dir>, thumbs: Dir): map<string, Dir>
  {
    if Sweep.Thumbnails in saves then saves[Sweep.Thumbnails := thumbs] else saves
  }

  /** Placing thumbnails twice is placing the second ones. */
  lemma PlacedTwice(saves: map<string, Dir>, a: Dir, b: Dir)
    ensures Placed(Placed(saves, a), b) == Placed(saves, b)
  {
    if Sweep.Thumbnails in saves {
      assert Placed(Placed(saves, a), b) == saves[Sweep.Thumbnails := a][Sweep.Thumbnails := b];
    }
  }

  /** The loop itself, on the project folder: the images moved in, the thumbnails made, the names collected. */
  method UploadLoop(site: Site, files: seq<Entry>, gens: seq<string>, probe: string -> ProjectView.Probe) returns (t: Tally)
    requires |gens| == |files|
    modifies site
    ensures var t0 := Tally(map[], [], if old(site.project.imageMapping).Some? then old(site.project.imageMapping.value) else map[],
                            {}, ThumbsOf(old(site.saves)), false);
            t == Tallied(t0, files, gens, probe)
    ensures site.images == old(site.images) + t.moved
    ensures site.saves == Placed(old(site.saves), t.thumbs)
    ensures site.project == old(site.project) && site.logs == old(site.logs)
    ensures site.errors == old(site.errors) && site.remote == old(site.remote)
  {
    ghost var t0 := Tally(map[], [], if site.project.imageMapping.Some? then site.project.imageMapping.value else map[],
                          {}, ThumbsOf(site.saves), false);
    t := Tally(map[], [], if site.project.imageMapping.Some? then site.project.imageMapping.value else map[],
               {}, ThumbsOf(site.saves), false);
    var i := 0;
    while i < |files| && !t.crashed
      invariant 0 <= i <= |files|
      invariant t == Tallied(t0, files[..i], gens[..i], probe)
      invariant site.images == old(site.images) + t.moved
      invariant site.saves == Placed(old(site.saves), t.thumbs)
      invariant site.project == old(site.project) && site.logs == old(site.logs)
      invariant site.errors == old(site.errors) && site.remote == old(site.remote)
    {
      TalliedSnoc(t0, files, gens, probe, i);
      ghost var prev := t;
      t := UploadOne(site, t, files[i], gens[i], probe);
      PlacedTwice(old(site.saves), prev.thumbs, t.thumbs);
      i := i + 1;
    }
    LoopDone(t0, files, gens, probe, i);
  }

  /** The loop stops at the end of the files or at the first thrown thumbnail; either way it has seen them all. */
  lemma LoopDone(t0: Tally, files: seq<Entry>, gens: seq<string>, probe: string -> ProjectView.Probe, i: int)
    requires |gens| == |files| && 0 <= i <= |files|
    requires i == |files| || Tallied(t0, files[..i], gens[..i], probe).crashed
    ensures Tallied(t0, files, gens, probe) == Tallied(t0, files[..i], gens[..i], probe)
  {
    if i < |files| {
      ThrownStays(t0, files, gens, probe, i);
    } else {
      assert files[..i] == files && gens[..i] == gens;
    }
  }

  /** One turn of the loop, for a loop that has not thrown: one file moved (or listed), its thumbnail made. */
  method UploadOne(site: Site, t: Tally, f: Entry, gen: string, probe: string -> ProjectView.Probe) returns (t': Tally)
    requires !t.crashed
    requires Sweep.Thumbnails in site.saves ==> site.saves[Sweep.Thumbnails] == t.thumbs
    modifies site
    ensures t' == Step(t, f, gen, probe)
    ensures site.images == if f.admitted then old(site.images) + {gen} else old(site.images)
    ensures t'.moved == if f.admitted then t.moved + {gen} else t.moved
    ensures site.saves == Placed(old(site.saves), t'.thumbs)
    ensures site.project == old(site.project) && site.logs == old(site.logs)
    ensures site.errors == old(site.errors) && site.remote == old(site.remote)
  {
    PlacedSame(site.saves, t.thumbs);
    if !f.admitted {
      return t.(errors := t.errors + [gen]);
    }
    site.images := site.images + {gen};
    var after, rejected := ProjectView.OneThumbnail(t.thumbs, gen, probe(gen));
    if rejected {
      assert ProjectView.Rejected(t.thumbs, probe, gen);
      return t.(moved := t.moved + {gen}, names := t.names[gen := f.name], crashed := true);
    }
    assert !ProjectView.Rejected(t.thumbs, probe, gen);
    ThumbnailAdded(t.thumbs, after, gen, probe(gen));
    site.saves := Placed(site.saves, after);
    t' := t.(moved := t.moved + {gen}, names := t.names[gen := f.name], thumbs := after, mapping := t.mapping[gen := f.name]);
  }

  /** Placing the thumbnails folder's own content changes nothing. */
  lemma PlacedSame(saves: map<string, Dir>, thumbs: Dir)
    requires Sweep.Thumbnails in saves ==> saves[Sweep.Thumbnails] == thumbs
    ensures Placed(saves, thumbs) == saves
  {
  }

  /** The loop over one more file is one more step. */
  lemma TalliedSnoc(t0: Tally, files: seq<Entry>, gens: seq<string>, probe: string -> ProjectView.Probe, i: int)
    requires |gens| == |files| && 0 <= i < |files|
    ensures Tallied(t0, files[..i + 1], gens[..i + 1], probe)
            == Step(Tallied(t0, files[..i], gens[..i], probe), files[i], gens[i], probe)
  {
    assert files[..i + 1][..i] == files[..i] && gens[..i + 1][..i] == gens[..i];
  }

  /** A thumbnail that did not throw leaves the folder the step expects. */
  lemma ThumbnailAdded(thumbs: Dir, after: Dir, img: string, p: ProjectView.Probe)
    requires after.Keys == thumbs.Keys + {img}
    requires forall x :: x in thumbs ==> x in after && after[x] == thumbs[x]
    requires img in after && img !in thumbs ==> after[img] == ProjectView.ThumbnailOf(p)
    ensures after == if img in thumbs then thumbs else thumbs[img := ProjectView.ThumbnailOf(p)]
  {
  }

  /** Once a thumbnail has thrown, the later files change nothing. */
  lemma {:induction false} ThrownStays(t0: Tally, files: seq<Entry>, gens: seq<string>, probe: string -> ProjectView.Probe, n: nat)
    requires |gens| == |files| && n <= |files|
    requires Tallied(t0, files[..n], gens[..n], probe).crashed
    ensures Tallied(t0, files, gens, probe) == Tallied(t0, files[..n], gens[..n], probe)
    decreases |files| - n
  {
    if n < |files| {
      assert files[..n + 1][..n] == files[..n] && gens[..n + 1][..n] == gens[..n];
      ThrownStays(t0, files, gens, probe, n + 1);
    } else {
      assert files[..n] == files && gens[..n] == gens;
    }
  }

  /**
   * One request. `isPost` and `hasProjectId` describe the request, `projectExists`
   * whether the project folder exists, `files` the uploaded files if any; the
   * random bytes and clock readings of generate_id and what getimagesize reports for
   * each moved image are inputs.
   */
  method UploadImages(site: Site, isPost: bool, hasProjectId: bool, projectExists: bool, files: Option<seq<Upload>>,
                      random: seq<seq<bv8>>, clock: seq<Utils.DateTime>, probe: string -> ProjectView.Probe)
    returns (status: int, reply: Option<Reply>)
    requires files.Some? ==> |random| == |files.value| && |clock| == |files.value|
    requires forall i :: 0 <= i < |clock| ==> clock[i].Valid()
    modifies site
    ensures status == 400 <==> !isPost || !hasProjectId || !projectExists || files.None?
    ensures status == 400 ==> reply.None? && site.project == old(site.project) && site.images == old(site.images)
                              && site.saves == old(site.saves)
    ensures !isPost || !hasProjectId ==> site.errors == old(site.errors)
    ensures isPost && hasProjectId && !projectExists ==>
              site.errors == old(site.errors) + [ErrorRecord(Utils.ErrorLogPath(site.projectDir, false), NoProjectDir, None)]
    ensures isPost && hasProjectId && projectExists && files.None? ==>
              site.errors == old(site.errors) + [ErrorRecord(Utils.ErrorLogPath(site.projectDir, true), NoFiles, None)]
    ensures status != 400 ==>
              var gens := Generated(files.value, random, clock);
              var t0 := Tally(map[], [], if old(site.project.imageMapping).Some? then old(site.project.imageMapping.value) else map[],
                              {}, ThumbsOf(old(site.saves)), false);
              var t := Tallied(t0, Entries(files.value), gens, probe);
              && status == 200
              && site.images == old(site.images) + t.moved
              && site.saves == Placed(old(site.saves), t.thumbs)
              && (t.crashed ==> reply.None? && site.project == old(site.project)
                                && site.errors == old(site.errors) + [ErrorRecord(Utils.ErrorLogPath(site.projectDir, true), Uncaught, None)])
              && (!t.crashed ==> reply == Some(Reply(t.errors, t.names, site.project))
                                 && site.project == old(site.project).(imageMapping := MappingAfter(old(site.project.imageMapping), t.mapping))
                                 && site.errors == old(site.errors))
    ensures site.logs == old(site.logs) && site.remote == old(site.remote)
  {
    if !isPost || !hasProjectId {
      // error_log: the web server's own log
      return 400, None;
    }
    if !projectExists {
      site.errors := site.errors + [ErrorRecord(Utils.ErrorLogPath(site.projectDir, false), NoProjectDir, None)];
      return 400, None;
    }
    if files.None? {
      site.errors := site.errors + [ErrorRecord(Utils.ErrorLogPath(site.projectDir, true), NoFiles, None)];
      return 400, None;
    }
    var gens := Generated(files.value, random, clock);
    var before := site.project.imageMapping;
    var t := UploadLoop(site, Entries(files.value), gens, probe);
    status := 200;
    if t.crashed {
      site.errors := site.errors + [ErrorRecord(Utils.ErrorLogPath(site.projectDir, true), Uncaught, None)];
      return status, None;
    }
    site.project := site.project.(imageMapping := MappingAfter(before, t.mapping));
    reply := Some(Reply(t.errors, t.names, site.project));
  }
}
