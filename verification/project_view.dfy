/**
 * The project view's page load (web/index.php, from the project id check to the
 * final write of project_lookup_table.json): open or create the project table,
 * migrate an old one, settle the project name, copy incoming images into the
 * project folder, run the reconciliation sweep, make the thumbnails, and write the
 * table back.
 *
 * The image list the database (or the local configuration) supplies, the set of
 * files in the upload entry point, the directory listing of the project folder, the
 * image probe getimagesize performs and the template table shipped with the
 * application are inputs.
 */
module ProjectView {
  import opened Wrappers
  import opened Ledger
  import opened SaveFiles
  import opened Site
  import Utils
  import Sweep
  import Strings

  // ---------------------------------------------------------------------------
  // Opening the project table
  // ---------------------------------------------------------------------------

  /** The backward-compatible migration of a stored project table. */
  function Migrate(t: ProjectTable): ProjectTable
  {
    var named := if t.projectName.Some? then t.(userGivenProjectName := t.projectName, projectName := None) else t;
    if named.registry.None? then named.(registry := Some(map[]), imageMapping := Some(map[])) else named
  }

  /** $any_change: the stored table is rewritten when it still has the old layout. */
  predicate NeedsMigration(t: ProjectTable)
  {
    t.projectName.Some? || t.registry.None?
  }

  /** A stored table the page can work with: one that has the model registry also has the image mapping. */
  predicate WellFormed(t: ProjectTable)
  {
    t.registry.Some? ==> t.imageMapping.Some?
  }

  /** The migration changes the table exactly when it has the old layout, and then leaves nothing to migrate. */
  lemma MigrateChangesOnlyOldLayout(t: ProjectTable)
    ensures Migrate(t) != t <==> NeedsMigration(t)
    ensures !NeedsMigration(Migrate(t))
    ensures Migrate(Migrate(t)) == Migrate(t)
  {
  }

  /**
   * The migration keeps the project id and every registered model, carries an old
   * "project_name" over as the user-given name, and gives a well-formed table both mappings.
   */
  lemma MigrateKeeps(t: ProjectTable)
    requires WellFormed(t)
    ensures var r := Migrate(t);
            && r.projectId == t.projectId
            && r.projectName.None?
            && r.userGivenProjectName == (if t.projectName.Some? then t.projectName else t.userGivenProjectName)
            && r.imageMapping.Some? && r.registry.Some?
            && (t.registry.Some? ==> r.registry == t.registry && r.imageMapping == t.imageMapping)
            && (t.registry.None? ==> r.registry == Some(map[]) && r.imageMapping == Some(map[]))
  {
  }

  /**
   * The table the page starts from: the stored one migrated, or the template with
   * the project id and the database's project name ("" when no trdata was posted).
   */
  function Opened(stored: Option<ProjectTable>, template: ProjectTable, projectId: string, trdata: Option<string>): ProjectTable
  {
    match stored
    case Some(t) => Migrate(t)
    case None => template.(projectId := projectId, userGivenProjectName := Some(trdata.GetOr("")))
  }

  /**
   * The project name the page goes on with, and the table after the name step: a
   * name the database supplies fills an empty stored name (while the page itself
   * keeps the empty name), otherwise an empty name falls back to the project id.
   * A table without a user-given name gives PHP null, which is taken as "".
   */
  function Named(t: ProjectTable, trdata: Option<string>, projectId: string): (ProjectTable, string)
  {
    var n := t.userGivenProjectName;
    if trdata.Some? && n == Some("") && trdata.value != "" then (t.(userGivenProjectName := trdata), "")
    else if n == Some("") then (t, projectId)
    else (t, n.GetOr(""))
  }

  /** The table and the name the page has after opening, migrating and naming. */
  function Prepared(stored: Option<ProjectTable>, template: ProjectTable, projectId: string,
                    trdata: Option<string>): (ProjectTable, string)
  {
    Named(Opened(stored, template, projectId, trdata), trdata, projectId)
  }

  /**
   * The stored user-given name is left empty only when the database gave none, and
   * the page's own name is empty only when the database name was just stored.
   */
  lemma NameSettled(stored: Option<ProjectTable>, template: ProjectTable, projectId: string, trdata: Option<string>)
    requires projectId != ""
    requires stored.Some? ==> stored.value.projectName.Some? || stored.value.userGivenProjectName.Some?
    ensures var (t, name) := Prepared(stored, template, projectId, trdata);
            var before := Opened(stored, template, projectId, trdata).userGivenProjectName;
            && t.userGivenProjectName.Some?
            && (t.userGivenProjectName == Some("") <==> before == Some("") && (trdata.None? || trdata == Some("")))
            && (name == "" <==> before == Some("") && trdata.Some? && trdata.value != "")
            && (before != Some("") ==> Some(name) == before && t == Opened(stored, template, projectId, trdata))
  {
  }

  /** Opening the table leaves a table with both mappings when the stored one or the template is well formed. */
  lemma PreparedHasMappings(stored: Option<ProjectTable>, template: ProjectTable, projectId: string, trdata: Option<string>)
    requires stored.Some? ==> WellFormed(stored.value)
    requires stored.None? ==> template.imageMapping.Some? && template.registry.Some?
    ensures var t := Prepared(stored, template, projectId, trdata).0;
            t.imageMapping.Some? && t.registry.Some?
            && (stored.Some? && stored.value.registry.Some? ==> t.registry == stored.value.registry)
  {
    if stored.Some? {
      MigrateKeeps(stored.value);
    }
  }

  // ---------------------------------------------------------------------------
  // Incoming images
  // ---------------------------------------------------------------------------

  /** The project folder's files and the page's image mapping (path -> user-given name). */
  datatype Gallery = Gallery(images: set<string>, mapping: map<string, string>)

  /** glob of the project folder with the pattern *.{jpg,png,jpeg}: the files with a (case-sensitive) image extension. */
  function Globbed(files: set<string>): (r: set<string>)
    ensures forall f :: f in r <==> f in files && IsImageName(f)
  {
    set f | f in files && IsImageName(f)
  }

  /** One entry of the incoming list: copy it when it is uploaded and not yet in the project. */
  function CopyOne(g: Gallery, listed: set<string>, uploads: set<string>, path: string, name: string): Gallery
  {
    var g1 := if path in uploads && path !in listed then Gallery(g.images + {path}, g.mapping[path := name]) else g;
    if path in g1.mapping then g1 else g1.(mapping := g1.mapping[path := name])
  }

  /**
   * The incoming list processed in order; `listed` is the project listing taken
   * before the loop, which the loop does not refresh.
   */
  function CopyIncoming(g: Gallery, listed: set<string>, uploads: set<string>, incoming: seq<(string, string)>): Gallery
    decreases |incoming|
  {
    if incoming == [] then g
    else
      var last := incoming[|incoming| - 1];
      CopyOne(CopyIncoming(g, listed, uploads, incoming[..|incoming| - 1]), listed, uploads, last.0, last.1)
  }

  function Paths(incoming: seq<(string, string)>): set<string>
  {
    set i | 0 <= i < |incoming| :: incoming[i].0
  }

  /** A PHP array: every path occurs once. */
  predicate UniquePaths(incoming: seq<(string, string)>)
  {
    forall i, j :: 0 <= i < j < |incoming| ==> incoming[i].0 != incoming[j].0
  }

  /** The incoming images that get copied: uploaded and not already in the project. */
  function Copied(listed: set<string>, uploads: set<string>, incoming: seq<(string, string)>): set<string>
  {
    set p | p in Paths(incoming) && p in uploads && p !in listed
  }

  /** Appending one entry adds its path to the incoming paths; with unique paths it was not there before. */
  lemma PathsSnoc(incoming: seq<(string, string)>)
    requires incoming != []
    ensures var n := |incoming| - 1;
            Paths(incoming) == Paths(incoming[..n]) + {incoming[n].0}
            && (UniquePaths(incoming) ==> UniquePaths(incoming[..n]) && incoming[n].0 !in Paths(incoming[..n]))
  {
    var n := |incoming| - 1;
    var init := incoming[..n];
    forall p | p in Paths(incoming) ensures p in Paths(init) + {incoming[n].0} {
      var i :| 0 <= i < |incoming| && incoming[i].0 == p;
      if i < n { assert init[i] == incoming[i]; }
    }
    forall p | p in Paths(init) ensures p in Paths(incoming) {
      var i :| 0 <= i < |init| && init[i].0 == p;
      assert incoming[i] == init[i];
    }
  }

  /** The copy loop adds exactly the uploaded images not yet in the project, and a mapping entry for every incoming path. */
  lemma {:induction false} CopyIncomingFiles(g: Gallery, listed: set<string>, uploads: set<string>,
                                             incoming: seq<(string, string)>)
    ensures var r := CopyIncoming(g, listed, uploads, incoming);
            && r.images == g.images + Copied(listed, uploads, incoming)
            && r.mapping.Keys == g.mapping.Keys + Paths(incoming)
    decreases |incoming|
  {
    if incoming != [] {
      var n := |incoming| - 1;
      CopyIncomingFiles(g, listed, uploads, incoming[..n]);
      PathsSnoc(incoming);
      var last := incoming[n];
      assert Copied(listed, uploads, incoming)
             == Copied(listed, uploads, incoming[..n]) + (if last.0 in uploads && last.0 !in listed then {last.0} else {});
    }
  }

  /**
   * Against the globbed listing, an uploaded incoming file is copied unless it is an
   * image file already in the folder; a file without an image extension is always copied.
   */
  lemma CopiedUnlessListed(files: set<string>, uploads: set<string>, incoming: seq<(string, string)>, p: string)
    requires p in Paths(incoming) && p in uploads
    ensures p in Copied(Globbed(files), uploads, incoming) <==> !(p in files && IsImageName(p))
  {
  }

  /**
   * A second load with the same incoming list copies no image file, leaves the
   * folder's files as the first load left them, and lists the same images.
   */
  lemma {:induction false} ReloadCopiesNoImage(files: set<string>, mapping: map<string, string>, uploads: set<string>,
                                               incoming: seq<(string, string)>)
    ensures var g := CopyIncoming(Gallery(files, mapping), Globbed(files), uploads, incoming);
            var g2 := CopyIncoming(g, Globbed(g.images), uploads, incoming);
            && (forall p :: p in Copied(Globbed(g.images), uploads, incoming) ==> !IsImageName(p))
            && g2.images == g.images && Globbed(g2.images) == Globbed(g.images)
  {
    var g := CopyIncoming(Gallery(files, mapping), Globbed(files), uploads, incoming);
    CopyIncomingFiles(Gallery(files, mapping), Globbed(files), uploads, incoming);
    CopyIncomingFiles(g, Globbed(g.images), uploads, incoming);
    forall p | p in Copied(Globbed(g.images), uploads, incoming) ensures p in g.images && !IsImageName(p) {
      assert p !in Globbed(files);
      assert p in Copied(Globbed(files), uploads, incoming);
    }
  }

  /** A name already in the mapping survives the copy loop unless its image is copied now. */
  lemma {:induction false} CopyIncomingKeeps(g: Gallery, listed: set<string>, uploads: set<string>,
                                             incoming: seq<(string, string)>, p: string)
    requires p in g.mapping && p !in Copied(listed, uploads, incoming)
    ensures var r := CopyIncoming(g, listed, uploads, incoming);
            p in r.mapping && r.mapping[p] == g.mapping[p]
    decreases |incoming|
  {
    if incoming != [] {
      var n := |incoming| - 1;
      PathsSnoc(incoming);
      assert Copied(listed, uploads, incoming[..n]) <= Copied(listed, uploads, incoming);
      CopyIncomingKeeps(g, listed, uploads, incoming[..n], p);
    }
  }

  /**
   * An incoming image copied now, or one the mapping did not name, ends up with its
   * incoming name.
   */
  lemma {:induction false} CopyIncomingNames(g: Gallery, listed: set<string>, uploads: set<string>,
                                             incoming: seq<(string, string)>, i: nat)
    requires UniquePaths(incoming) && i < |incoming|
    requires incoming[i].0 in Copied(listed, uploads, incoming) || incoming[i].0 !in g.mapping
    ensures var r := CopyIncoming(g, listed, uploads, incoming);
            incoming[i].0 in r.mapping && r.mapping[incoming[i].0] == incoming[i].1
    decreases |incoming|
  {
    var n := |incoming| - 1;
    var init := incoming[..n];
    PathsSnoc(incoming);
    var r0 := CopyIncoming(g, listed, uploads, init);
    CopyIncomingFiles(g, listed, uploads, init);
    if i < n {
      assert init[i] == incoming[i];
      var p := incoming[i].0;
      assert p != incoming[n].0;
      if p in Copied(listed, uploads, incoming) {
        assert p in Copied(listed, uploads, init);
      }
      CopyIncomingNames(g, listed, uploads, init, i);
    }
  }

  // ---------------------------------------------------------------------------
  // Thumbnails and the path-for-name backfill
  // ---------------------------------------------------------------------------

  /** An image without a user-given name is named by its path. */
  function NameByPath(mapping: map<string, string>, images: set<string>): map<string, string>
  {
    map p | p in mapping.Keys + images :: if p in mapping then mapping[p] else p
  }

  /** The backfill names every image, keeps every existing name, and a second pass changes nothing. */
  lemma NameByPathNamesAll(mapping: map<string, string>, images: set<string>)
    ensures var r := NameByPath(mapping, images);
            && images <= r.Keys && r.Keys == mapping.Keys + images
            && (forall p :: p in mapping ==> r[p] == mapping[p])
            && (forall p :: p in r && p !in mapping ==> r[p] == p)
            && NameByPath(r, images) == r
  {
  }

  /** The folder's files and the image mapping a successful page load leaves: the copy loop, then the backfill over the globbed images. */
  function Loaded(files: set<string>, mapping: map<string, string>, uploads: set<string>,
                  incoming: seq<(string, string)>): Gallery
  {
    var g := CopyIncoming(Gallery(files, mapping), Globbed(files), uploads, incoming);
    Gallery(g.images, NameByPath(g.mapping, Globbed(g.images)))
  }

  /** On a second load, an incoming file copied again gets back the name the first load gave it. */
  lemma RecopiedNamed(files: set<string>, mapping: map<string, string>, uploads: set<string>,
                      incoming: seq<(string, string)>, i: nat)
    requires UniquePaths(incoming) && i < |incoming|
    requires var l := Loaded(files, mapping, uploads, incoming);
             incoming[i].0 in Copied(Globbed(l.images), uploads, incoming)
    ensures var l := Loaded(files, mapping, uploads, incoming);
            var g2 := CopyIncoming(l, Globbed(l.images), uploads, incoming);
            incoming[i].0 in l.mapping && incoming[i].0 in g2.mapping
            && l.mapping[incoming[i].0] == g2.mapping[incoming[i].0]
  {
    var g := CopyIncoming(Gallery(files, mapping), Globbed(files), uploads, incoming);
    var l := Loaded(files, mapping, uploads, incoming);
    var p := incoming[i].0;
    CopyIncomingFiles(Gallery(files, mapping), Globbed(files), uploads, incoming);
    assert p !in Globbed(files);
    CopyIncomingNames(Gallery(files, mapping), Globbed(files), uploads, incoming, i);
    NameByPathNamesAll(g.mapping, Globbed(g.images));
    CopyIncomingNames(l, Globbed(l.images), uploads, incoming, i);
  }

  /** The second load's copy loop leaves the first load's mapping as it was. */
  lemma RecopyKeepsMapping(files: set<string>, mapping: map<string, string>, uploads: set<string>,
                           incoming: seq<(string, string)>)
    requires UniquePaths(incoming)
    ensures var l := Loaded(files, mapping, uploads, incoming);
            CopyIncoming(l, Globbed(l.images), uploads, incoming).mapping == l.mapping
  {
    var g := CopyIncoming(Gallery(files, mapping), Globbed(files), uploads, incoming);
    var l := Loaded(files, mapping, uploads, incoming);
    var g2 := CopyIncoming(l, Globbed(l.images), uploads, incoming);
    CopyIncomingFiles(Gallery(files, mapping), Globbed(files), uploads, incoming);
    CopyIncomingFiles(l, Globbed(l.images), uploads, incoming);
    NameByPathNamesAll(g.mapping, Globbed(g.images));
    assert g2.mapping.Keys == l.mapping.Keys;
    forall p | p in g2.mapping ensures g2.mapping[p] == l.mapping[p] {
      if p in Copied(Globbed(l.images), uploads, incoming) {
        var i :| 0 <= i < |incoming| && incoming[i].0 == p;
        RecopiedNamed(files, mapping, uploads, incoming, i);
      } else {
        CopyIncomingKeeps(l, Globbed(l.images), uploads, incoming, p);
      }
    }
  }

  /**
   * A second load with the same incoming list leaves the folder and the mapping as
   * the first load left them: the files it copies again get back the names they
   * already have, and every other name is kept.
   */
  lemma ReloadIsStable(files: set<string>, mapping: map<string, string>, uploads: set<string>,
                       incoming: seq<(string, string)>)
    requires UniquePaths(incoming)
    ensures var l := Loaded(files, mapping, uploads, incoming);
            Loaded(l.images, l.mapping, uploads, incoming) == l
  {
    var g := CopyIncoming(Gallery(files, mapping), Globbed(files), uploads, incoming);
    var l := Loaded(files, mapping, uploads, incoming);
    var g2 := CopyIncoming(l, Globbed(l.images), uploads, incoming);
    assert l == Gallery(g.images, NameByPath(g.mapping, Globbed(g.images)));
    CopyIncomingFiles(Gallery(files, mapping), Globbed(files), uploads, incoming);
    CopyIncomingFiles(l, Globbed(l.images), uploads, incoming);
    forall p | p in Copied(Globbed(l.images), uploads, incoming) ensures p in l.images {
      assert p in Copied(Globbed(files), uploads, incoming);
    }
    assert g2.images == l.images;
    RecopyKeepsMapping(files, mapping, uploads, incoming);
    NameByPathNamesAll(g.mapping, Globbed(g.images));
    assert NameByPath(g2.mapping, Globbed(g2.images)) == l.mapping;
  }

  /** What getimagesize reports: the image type and the size in pixels. */
  datatype Probe = Probe(kind: Utils.ImageType, width: nat, height: nat)

  /** A thumbnail file; its pixels are not modelled, only its size. */
  function ThumbnailFile(width: int, height: int): File
  {
    Thumbnail(if width < 0 then 0 else width, if height < 0 then 0 else height)
  }

  /**
   * create_thumbnail_image throws for an image whose thumbnail is missing and which
   * is neither JPEG nor PNG, or is under 5 pixels wide or high.
   */
  predicate Rejected(thumbs: Dir, probe: string -> Probe, img: string)
  {
    img !in thumbs && (probe(img).kind == Utils.OtherType || probe(img).width < 5 || probe(img).height < 5)
  }

  /** The thumbnail made for an image, a tenth of its size. */
  function ThumbnailOf(p: Probe): File
  {
    ThumbnailFile(Utils.RoundTenth(p.width), Utils.RoundTenth(p.height))
  }

  // ---------------------------------------------------------------------------
  // The final write
  // ---------------------------------------------------------------------------

  /**
   * As written: the table written at the end of the page load is the page's own
   * copy, read before the sweep, so it carries the registry as it was before.
   */
  function FinalTableAsWritten(page: ProjectTable, onDisk: ProjectTable): ProjectTable
  {
    page
  }

  /** A model the sweep registered is gone from the table the page writes back. */
  lemma RegistrationLost()
    ensures var page := ProjectTable("p", None, Some("n"), Some(map[]), Some(map[]));
            var onDisk := page.(registry := Some(map["model_key" := Some("my model")]));
            var r := FinalTableAsWritten(page, onDisk);
            "model_key" in onDisk.registry.value && "model_key" !in r.registry.value
  {
  }

  /** Corrected: the page's copy with the registry the sweep left in the stored table. */
  function FinalTable(page: ProjectTable, onDisk: ProjectTable): ProjectTable
  {
    page.(registry := onDisk.registry)
  }

  /** The corrected write keeps every registration on disk and everything else the page computed. */
  lemma FinalTableKeepsRegistrations(page: ProjectTable, onDisk: ProjectTable)
    ensures var r := FinalTable(page, onDisk);
            && r.registry == onDisk.registry
            && r.imageMapping == page.imageMapping && r.userGivenProjectName == page.userGivenProjectName
            && r.projectId == page.projectId && r.projectName == page.projectName
  {
  }

  // ---------------------------------------------------------------------------
  // The page load
  // ---------------------------------------------------------------------------

  /** Open (or create), migrate and name the project table; the stored table is the page's copy afterwards. */
  method OpenTable(site: Site, stored: bool, template: ProjectTable, projectId: string, trdata: Option<string>)
    returns (page: ProjectTable, name: string)
    modifies site
    ensures (page, name) == Prepared(if stored then Some(old(site.project)) else None, template, projectId, trdata)
    ensures site.project == page
    ensures site.images == old(site.images) && site.saves == old(site.saves) && site.logs == old(site.logs)
    ensures site.errors == old(site.errors) && site.remote == old(site.remote)
  {
    if stored {
      page := Migrate(site.project);
      if NeedsMigration(site.project) {
        site.project := page;
      }
    } else {
      page := template.(projectId := projectId, userGivenProjectName := Some(trdata.GetOr("")));
      site.project := page;
    }
    var n := page.userGivenProjectName;
    if trdata.Some? && n == Some("") && trdata.value != "" {
      page := page.(userGivenProjectName := trdata);
      site.project := page;
      name := "";
    } else if n == Some("") {
      name := projectId;
    } else {
      name := n.GetOr("");
    }
  }

  /**
   * The copy loop over the incoming images; the project listing is taken once,
   * before it, and holds only the folder's image files, so an incoming file without
   * an image extension is copied again on every load.
   */
  method CopyImages(site: Site, mapping: map<string, string>, uploads: set<string>, incoming: seq<(string, string)>)
    returns (m: map<string, string>)
    modifies site
    ensures var g := CopyIncoming(Gallery(old(site.images), mapping), Globbed(old(site.images)), uploads, incoming);
            site.images == g.images && m == g.mapping
    ensures site.project == old(site.project) && site.saves == old(site.saves) && site.logs == old(site.logs)
    ensures site.errors == old(site.errors) && site.remote == old(site.remote)
  {
    var listed := Globbed(site.images);
    m := mapping;
    var i := 0;
    while i < |incoming|
      invariant 0 <= i <= |incoming|
      invariant site.project == old(site.project) && site.saves == old(site.saves) && site.logs == old(site.logs)
      invariant site.errors == old(site.errors) && site.remote == old(site.remote)
      invariant Gallery(site.images, m) == CopyIncoming(Gallery(old(site.images), mapping), listed, uploads, incoming[..i])
    {
      var (path, name) := incoming[i];
      assert incoming[..i + 1][..i] == incoming[..i];
      if path in uploads && path !in listed {
        site.images := site.images + {path};
        m := m[path := name];
      }
      if path !in m {
        m := m[path := name];
      }
      i := i + 1;
    }
    assert incoming[..i] == incoming;
  }

  /** Naming one more image by its path, if it has no name yet. */
  lemma NameByPathStep(mapping: map<string, string>, done: set<string>, img: string)
    ensures var m := NameByPath(mapping, done);
            NameByPath(mapping, done + {img}) == if img in m then m else m[img := img]
  {
  }

  /** create_thumbnail_image for one image: true when it throws. */
  method OneThumbnail(thumbs: Dir, img: string, p: Probe) returns (after: Dir, rejected: bool)
    ensures rejected <==> img !in thumbs && (p.kind == Utils.OtherType || p.width < 5 || p.height < 5)
    ensures !rejected ==> after.Keys == thumbs.Keys + {img}
    ensures rejected ==> after == thumbs
    ensures forall x :: x in thumbs ==> x in after && after[x] == thumbs[x]
    ensures img in after && img !in thumbs ==> after[img] == ThumbnailOf(p)
  {
    var o := Utils.Thumbnail(img in thumbs, p.kind, p.width, p.height);
    after := thumbs;
    rejected := o.Unsupported? || o.TooSmall?;
    if o.Created? {
      assert o == Utils.Created(Utils.RoundTenth(p.width), Utils.RoundTenth(p.height));
      after := thumbs[img := ThumbnailFile(o.width, o.height)];
    }
  }

  /**
   * The thumbnails folder after the images in `done` were handled: each has a
   * thumbnail, made now when it had none, and none of them was rejected.
   */
  predicate ThumbnailsFor(before: Dir, after: Dir, done: set<string>, probe: string -> Probe)
  {
    && after.Keys == before.Keys + done
    && (forall x :: x in before ==> after[x] == before[x])
    && (forall x :: x in after && x !in before ==> after[x] == ThumbnailOf(probe(x)))
    && (forall x :: x in done ==> !Rejected(before, probe, x))
  }

  lemma ThumbnailsForStep(before: Dir, after: Dir, next: Dir, done: set<string>, img: string, probe: string -> Probe)
    requires ThumbnailsFor(before, after, done, probe) && img !in done
    requires !Rejected(after, probe, img)
    requires next.Keys == after.Keys + {img}
    requires forall x :: x in after ==> next[x] == after[x]
    requires img !in after ==> next[img] == ThumbnailOf(probe(img))
    ensures ThumbnailsFor(before, next, done + {img}, probe)
  {
  }

  /**
   * The thumbnail loop on the thumbnails folder and the page's mapping: make each
   * missing thumbnail and name each unnamed image by its path. It dies on an image
   * whose thumbnail is missing and which is neither JPEG nor PNG; thumbnails made
   * before that stay.
   */
  method ThumbnailLoop(before: Dir, images: set<string>, mapping: map<string, string>, probe: string -> Probe)
    returns (after: Dir, m: map<string, string>, died: bool)
    ensures died <==> exists img :: img in images && Rejected(before, probe, img)
    ensures before.Keys <= after.Keys <= before.Keys + images
    ensures forall x :: x in before ==> after[x] == before[x]
    ensures forall x :: x in after && x !in before ==> after[x] == ThumbnailOf(probe(x))
    ensures !died ==> after.Keys == before.Keys + images && m == NameByPath(mapping, images)
  {
    after := before;
    ghost var done: set<string> := {};
    var rest := images;
    m := mapping;
    while rest != {}
      invariant rest <= images && done == images - rest
      invariant ThumbnailsFor(before, after, done, probe)
      invariant m == NameByPath(mapping, done)
      decreases rest
    {
      var img :| img in rest;
      assert img !in done;
      var next, rejected := OneThumbnail(after, img, probe(img));
      if rejected {
        assert Rejected(before, probe, img);
        return after, m, true;
      }
      ThumbnailsForStep(before, after, next, done, img, probe);
      after := next;
      NameByPathStep(mapping, done, img);
      if img !in m {
        m := m[img := img];
      }
      rest := rest - {img};
      done := done + {img};
    }
    assert done == images;
    died := false;
  }

  /**
   * Everything before the sweep: the table opened, migrated and named, the
   * thumbnails folder created when missing, and the incoming images copied.
   */
  method OpenProject(site: Site, stored: bool, template: ProjectTable, projectId: string, trdata: Option<string>,
                     uploads: set<string>, incoming: seq<(string, string)>)
    returns (page: ProjectTable, name: string, m: map<string, string>)
    requires stored ==> WellFormed(site.project)
    requires !stored ==> template.imageMapping.Some? && template.registry.Some?
    requires projectId != ""
    modifies site
    ensures (page, name) == Prepared(if stored then Some(old(site.project)) else None, template, projectId, trdata)
    ensures page.imageMapping.Some? && page.registry.Some? && site.project == page
    ensures var g := CopyIncoming(Gallery(old(site.images), page.imageMapping.value), Globbed(old(site.images)), uploads, incoming);
            site.images == g.images && m == g.mapping
    ensures site.saves == WithThumbnails(old(site.saves))
    ensures site.logs == old(site.logs) && site.errors == old(site.errors) && site.remote == old(site.remote)
  {
    ghost var storedTable := if stored then Some(site.project) else None;
    PreparedHasMappings(storedTable, template, projectId, trdata);
    page, name := OpenTable(site, stored, template, projectId, trdata);
    if Sweep.Thumbnails !in site.saves {
      site.saves := site.saves[Sweep.Thumbnails := map[]];
    }
    m := CopyImages(site, page.imageMapping.value, uploads, incoming);
  }

  /** The thumbnail loop run on the project's thumbnails folder, which it writes back. */
  method WriteThumbnails(site: Site, mapping: map<string, string>, probe: string -> Probe)
    returns (m: map<string, string>, died: bool)
    requires Sweep.Thumbnails in site.saves
    modifies site
    ensures Sweep.Thumbnails in site.saves
    ensures var before := old(site.saves[Sweep.Thumbnails]);
            var after := site.saves[Sweep.Thumbnails];
            && (died <==> exists img :: img in Globbed(site.images) && Rejected(before, probe, img))
            && site.saves == old(site.saves)[Sweep.Thumbnails := after]
            && (forall x :: x in before ==> x in after && after[x] == before[x])
            && (forall x :: x in after && x !in before ==> x in Globbed(site.images) && after[x] == ThumbnailOf(probe(x)))
            && (!died ==> after.Keys == before.Keys + Globbed(site.images) && m == NameByPath(mapping, Globbed(site.images)))
    ensures site.project == old(site.project) && site.images == old(site.images) && site.logs == old(site.logs)
    ensures site.errors == old(site.errors) && site.remote == old(site.remote)
  {
    var thumbs;
    thumbs, m, died := ThumbnailLoop(site.saves[Sweep.Thumbnails], Globbed(site.images), mapping, probe);
    site.saves := site.saves[Sweep.Thumbnails := thumbs];
  }

  /** The project's saves, logs and registry after the sweep, and whether the page died in it; a local page does not sweep. */
  function Swept(w: Sweep.World, local: bool, remote: Dir, pm: map<string, string>, projectId: string, name: string,
                 tmpId: (string, Kind) -> string, listing: seq<string>): (Sweep.World, bool)
  {
    if local then (w, false) else Sweep.SweepAll(w, remote, pm, projectId, name, tmpId, listing)
  }

  /** The sub-directories with the thumbnails folder created if it was missing (mkdir). */
  function WithThumbnails(saves: map<string, Dir>): (r: map<string, Dir>)
    ensures r.Keys == saves.Keys + {Sweep.Thumbnails}
    ensures forall s :: s in saves ==> r[s] == saves[s]
  {
    if Sweep.Thumbnails in saves then saves else saves[Sweep.Thumbnails := map[]]
  }

  /**
   * The sweep, which every deployment but the local one runs; true when the page
   * dies in it. It keeps every registered model and leaves the thumbnails folder alone.
   */
  method Sync(site: Site, local: bool, listing: seq<string>, projectId: string, name: string,
              tmpId: (string, Kind) -> string) returns (died: bool)
    requires site.Migrated()
    requires !local ==> Sweep.Lists(listing, site.saves.Keys)
    modifies site
    ensures site.Migrated() && site.saves.Keys == old(site.saves.Keys)
    ensures Sweep.Thumbnails in old(site.saves) ==> site.saves[Sweep.Thumbnails] == old(site.saves[Sweep.Thumbnails])
    ensures old(site.project.registry.value).Keys <= site.project.registry.value.Keys
    ensures site.project == old(site.project).(registry := site.project.registry)
    ensures site.images == old(site.images) && site.remote == old(site.remote) && site.errors == old(site.errors)
    ensures local ==> !died && site.project == old(site.project) && site.saves == old(site.saves)
    ensures (Sweep.WorldOf(site), died) == Swept(old(Sweep.WorldOf(site)), local, site.remote, old(site.project.imageMapping.value),
                                                  projectId, name, tmpId, listing)
  {
    if local {
      return false;
    }
    ghost var w := Sweep.WorldOf(site);
    ghost var pm := site.project.imageMapping.value;
    died := Sweep.SweepSaves(site, listing, projectId, name, tmpId);
    Sweep.SweepRegistryGrows(w, site.remote, pm, projectId, name, tmpId, listing);
    Sweep.SweepFrame(w, site.remote, pm, projectId, name, tmpId, listing);
  }

  /**
   * The page load from the project id check on. Returns the HTTP status: 404 for an
   * empty project id, 500 when the page dies in the sweep or on an unsupported
   * image, 200 otherwise. `local` is the local deployment, which runs no sweep.
   */
  method PageLoad(site: Site, projectId: string, stored: bool, template: ProjectTable, trdata: Option<string>,
                  local: bool, incoming: seq<(string, string)>, uploads: set<string>, listing: seq<string>,
                  tmpId: (string, Kind) -> string, probe: string -> Probe) returns (status: int)
    requires stored ==> WellFormed(site.project)
    requires !stored ==> template.imageMapping.Some? && template.registry.Some?
    requires !local ==> Sweep.Lists(listing, site.saves.Keys + {Sweep.Thumbnails})
    modifies site
    ensures projectId == "" ==> status == 404 && unchanged(site)
    ensures projectId != "" ==>
              var t := Prepared(if stored then Some(old(site.project)) else None, template, projectId, trdata).0;
              var g := CopyIncoming(Gallery(old(site.images), t.imageMapping.value), Globbed(old(site.images)), uploads, incoming);
              && (status == 200 || status == 500)
              && site.images == g.images
              && Sweep.Thumbnails in site.saves
              && site.project.registry.Some? && t.registry.value.Keys <= site.project.registry.value.Keys
              && (local ==> site.project.registry == t.registry)
              && (status == 500 ==> site.project == t.(registry := site.project.registry))
              && (status == 200 ==>
                    site.project == t.(imageMapping := Some(NameByPath(g.mapping, Globbed(g.images))), registry := site.project.registry)
                    && Gallery(site.images, site.project.imageMapping.value)
                       == Loaded(old(site.images), t.imageMapping.value, uploads, incoming)
                    && Globbed(site.images) <= site.saves[Sweep.Thumbnails].Keys)
    ensures projectId != "" ==>
              var pr := Prepared(if stored then Some(old(site.project)) else None, template, projectId, trdata);
              var g := CopyIncoming(Gallery(old(site.images), pr.0.imageMapping.value), Globbed(old(site.images)), uploads, incoming);
              var thumbs0 := WithThumbnails(old(site.saves))[Sweep.Thumbnails];
              var sw := Swept(Sweep.World(WithThumbnails(old(site.saves)), old(site.logs), pr.0.registry.value), local,
                              old(site.remote), pr.0.imageMapping.value, projectId, pr.1, tmpId, listing);
              // the page dies in the sweep, or on an image without a thumbnail that cannot have one
              && (status == 500 <==> sw.1 || exists img :: img in Globbed(g.images) && Rejected(thumbs0, probe, img))
              // the saves, logs and registry are the sweep's; the thumbnails folder only gains thumbnails
              && site.saves.Keys == old(site.saves.Keys) + {Sweep.Thumbnails}
              && site.saves == sw.0.saves[Sweep.Thumbnails := site.saves[Sweep.Thumbnails]]
              && site.logs == sw.0.logs && site.project.registry == Some(sw.0.registry)
              && (forall x :: x in thumbs0 ==> x in site.saves[Sweep.Thumbnails] && site.saves[Sweep.Thumbnails][x] == thumbs0[x])
              && (forall x :: x in site.saves[Sweep.Thumbnails] && x !in thumbs0 ==>
                    x in Globbed(g.images) && site.saves[Sweep.Thumbnails][x] == ThumbnailOf(probe(x)))
    ensures site.remote == old(site.remote) && site.errors == old(site.errors)
  {
    if projectId == "" {
      return 404;
    }
    var page, name, m := OpenProject(site, stored, template, projectId, trdata, uploads, incoming);
    ghost var thumbs0 := site.saves[Sweep.Thumbnails];
    ghost var w0 := Sweep.WorldOf(site);
    var died := Sync(site, local, listing, projectId, name, tmpId);
    ghost var sw := Swept(w0, local, site.remote, page.imageMapping.value, projectId, name, tmpId, listing);
    assert site.saves == sw.0.saves && site.logs == sw.0.logs && site.project.registry == Some(sw.0.registry) && died == sw.1;
    assert site.saves[Sweep.Thumbnails] == thumbs0;
    UpdatedSame(site.saves, Sweep.Thumbnails);
    if !died {
      m, died := WriteThumbnails(site, m, probe);
      UpdatedTwice(sw.0.saves, Sweep.Thumbnails, thumbs0, site.saves[Sweep.Thumbnails]);
      if !died {
        site.project := FinalTable(page.(imageMapping := Some(m)), site.project);
      }
    }
    status := if died then 500 else 200;
  }
}
