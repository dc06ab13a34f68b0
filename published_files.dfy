/**
 * The published-file rewrite of the published-data page: when the listing
 * carries a project id, every file object of every entity in its five entity
 * lists (events, model configurations, sensor lists, analyses, reports) is
 * rewritten in place to the published storage system, with the project id
 * prefixed to its path and read-only permissions, and each entity's `files`
 * list is rebuilt from its file objects.
 *
 * The rewrite prefixes a path once per occurrence of the object, so an object
 * listed twice (in one entity or in two) is prefixed twice.
 */
module PublishedFiles {

  const PublishedSystem := "designsafe.storage.published"
  const ReadPermission := "READ"

  class FileObj {
    var system: string
    var path: string
    var permissions: string

    constructor (system: string, path: string, permissions: string)
      ensures this.system == system && this.path == path && this.permissions == permissions
    {
      this.system := system;
      this.path := path;
      this.permissions := permissions;
    }
  }

  /** An entity of the publication and its file objects.  `files` stands for
      the list of file listings built from the file objects; the listing
      wrapper itself is not modelled, so it holds the objects. */
  class PubEntity {
    const fileObjs: seq<FileObj>
    var files: seq<FileObj>

    constructor (fileObjs: seq<FileObj>)
      ensures this.fileObjs == fileObjs && files == []
    {
      this.fileObjs := fileObjs;
      files := [];
    }
  }

  class PublishedListing {
    const projectId: string
    const eventsList: seq<PubEntity>
    const modelConfigs: seq<PubEntity>
    const sensorLists: seq<PubEntity>
    const analysisList: seq<PubEntity>
    const reportsList: seq<PubEntity>

    constructor (projectId: string, eventsList: seq<PubEntity>, modelConfigs: seq<PubEntity>,
                 sensorLists: seq<PubEntity>, analysisList: seq<PubEntity>, reportsList: seq<PubEntity>)
      ensures this.projectId == projectId && this.eventsList == eventsList
      ensures this.modelConfigs == modelConfigs && this.sensorLists == sensorLists
      ensures this.analysisList == analysisList && this.reportsList == reportsList
    {
      this.projectId := projectId;
      this.eventsList := eventsList;
      this.modelConfigs := modelConfigs;
      this.sensorLists := sensorLists;
      this.analysisList := analysisList;
      this.reportsList := reportsList;
    }

    /** The five entity lists in the order the page walks them. */
    function Entities(): seq<PubEntity>
    {
      eventsList + modelConfigs + sensorLists + analysisList + reportsList
    }
  }

  /** `n` copies of `s`. */
  function Repeat(s: string, n: nat): string
  {
    if n == 0 then "" else s + Repeat(s, n - 1)
  }

  /** How often `f` occurs in `xs`. */
  function Count(xs: seq<FileObj>, f: FileObj): nat
  {
    if xs == [] then 0
    else Count(xs[..|xs| - 1], f) + (if xs[|xs| - 1] == f then 1 else 0)
  }

  /** The file objects of `es`, entity after entity. */
  function Flatten(es: seq<PubEntity>): (objs: seq<FileObj>)
    ensures forall f :: f in objs ==> exists i :: 0 <= i < |es| && f in es[i].fileObjs
  {
    if es == [] then [] else Flatten(es[..|es| - 1]) + es[|es| - 1].fileObjs
  }

  lemma {:induction false} RepeatAdd(s: string, m: nat, n: nat)
    ensures Repeat(s, m) + Repeat(s, n) == Repeat(s, m + n)
    decreases m
  {
    if m > 0 {
      RepeatAdd(s, m - 1, n);
      assert Repeat(s, m) + Repeat(s, n) == s + (Repeat(s, m - 1) + Repeat(s, n));
    }
  }

  lemma {:induction false} CountConcat(a: seq<FileObj>, b: seq<FileObj>, f: FileObj)
    ensures Count(a + b, f) == Count(a, f) + Count(b, f)
    decreases |b|
  {
    if b == [] {
      assert a + b == a;
    } else {
      assert (a + b)[..|a + b| - 1] == a + b[..|b| - 1];
      CountConcat(a, b[..|b| - 1], f);
    }
  }

  /** An object occurs in a sequence iff it is counted there. */
  lemma {:induction false} CountPositive(xs: seq<FileObj>, f: FileObj)
    ensures Count(xs, f) > 0 <==> f in xs
    decreases |xs|
  {
    if xs != [] {
      CountPositive(xs[..|xs| - 1], f);
      assert xs == xs[..|xs| - 1] + [xs[|xs| - 1]];
    }
  }

  /** Every file object of a listed entity is among the flattened objects. */
  lemma {:induction false} FlattenContains(es: seq<PubEntity>, i: nat)
    requires i < |es|
    ensures forall f :: f in es[i].fileObjs ==> f in Flatten(es)
    decreases |es|
  {
    if i < |es| - 1 {
      FlattenContains(es[..|es| - 1], i);
    }
  }

  /** The `_.map` over one entity's file objects, then `files` rebuilt from them. */
  method RewriteEntity(e: PubEntity, projectId: string)
    modifies e, set f | f in e.fileObjs
    ensures e.files == e.fileObjs
    ensures forall f :: f in e.fileObjs ==>
              && f.system == PublishedSystem && f.permissions == ReadPermission
              && f.path == Repeat(projectId, Count(e.fileObjs, f)) + old(f.path)
  {
    var objs := e.fileObjs;
    for j := 0 to |objs|
      invariant forall f :: f in objs ==> f.path == Repeat(projectId, Count(objs[..j], f)) + old(f.path)
      invariant forall f :: f in objs[..j] ==> f.system == PublishedSystem && f.permissions == ReadPermission
    {
      var g := objs[j];
      assert objs[..j + 1][..j] == objs[..j];
      assert projectId + (Repeat(projectId, Count(objs[..j], g)) + old(g.path))
        == Repeat(projectId, Count(objs[..j + 1], g)) + old(g.path);
      g.system := PublishedSystem;
      g.path := projectId + g.path;
      g.permissions := ReadPermission;
    }
    assert objs[..|objs|] == objs;
    e.files := objs;
  }

  /** One more entity rewritten: its occurrences of `f` add to the prefixes
      `f` already has from the earlier entities. */
  lemma PathAfterEntity(projectId: string, orig: string, pre: string, post: string,
                        done: seq<FileObj>, objs: seq<FileObj>, f: FileObj)
    requires pre == Repeat(projectId, Count(done, f)) + orig
    requires f in objs ==> post == Repeat(projectId, Count(objs, f)) + pre
    requires f !in objs ==> post == pre
    ensures post == Repeat(projectId, Count(done + objs, f)) + orig
  {
    CountConcat(done, objs, f);
    CountPositive(objs, f);
    RepeatAdd(projectId, Count(objs, f), Count(done, f));
  }

  /** The `_.each` loops over a sequence of entities. */
  method RewriteEntities(es: seq<PubEntity>, projectId: string)
    modifies set e | e in es, set f | f in Flatten(es)
    ensures forall e :: e in es ==> e.files == e.fileObjs
    ensures forall f :: f in Flatten(es) ==>
              && f.system == PublishedSystem && f.permissions == ReadPermission
              && f.path == Repeat(projectId, Count(Flatten(es), f)) + old(f.path)
  {
    for i := 0 to |es|
      invariant forall e :: e in es[..i] ==> e.files == e.fileObjs
      invariant forall f :: f in Flatten(es) ==> f.path == Repeat(projectId, Count(Flatten(es[..i]), f)) + old(f.path)
      invariant forall f :: f in Flatten(es[..i]) ==> f.system == PublishedSystem && f.permissions == ReadPermission
    {
      var e := es[i];
      ghost var done := Flatten(es[..i]);
      assert es[..i + 1][..i] == es[..i];
      assert Flatten(es[..i + 1]) == done + e.fileObjs;
      FlattenContains(es, i);
      label Before:
      RewriteEntity(e, projectId);
      forall f | f in Flatten(es)
        ensures f.path == Repeat(projectId, Count(Flatten(es[..i + 1]), f)) + old(f.path)
      {
        PathAfterEntity(projectId, old(f.path), old@Before(f.path), f.path, done, e.fileObjs, f);
      }
      forall f | f in Flatten(es[..i + 1])
        ensures f.system == PublishedSystem && f.permissions == ReadPermission
      {
        assert f in done || f in e.fileObjs;
      }
    }
    assert es[..|es|] == es;
  }

  /** The page's rewrite: only a listing with a (non-empty) project id is rewritten. */
  method RewritePublishedFiles(listing: PublishedListing)
    modifies set e | e in listing.Entities(), set f | f in Flatten(listing.Entities())
    ensures listing.projectId == "" ==>
              && (forall e :: e in listing.Entities() ==> e.files == old(e.files))
              && (forall f :: f in Flatten(listing.Entities()) ==>
                    f.system == old(f.system) && f.path == old(f.path) && f.permissions == old(f.permissions))
    ensures listing.projectId != "" ==>
              && (forall e :: e in listing.Entities() ==> e.files == e.fileObjs)
              && (forall f :: f in Flatten(listing.Entities()) ==>
                    && f.system == PublishedSystem && f.permissions == ReadPermission
                    && f.path == Repeat(listing.projectId, Count(Flatten(listing.Entities()), f)) + old(f.path))
  {
    if listing.projectId != "" {
      RewriteEntities(listing.Entities(), listing.projectId);
    }
  }

  /** An object listed once gets the project id prefixed exactly once. */
  lemma {:induction false} OncePrefixedOnce(xs: seq<FileObj>, i: nat, projectId: string, path: string)
    requires i < |xs|
    requires forall j :: 0 <= j < |xs| && j != i ==> xs[j] != xs[i]
    ensures Repeat(projectId, Count(xs, xs[i])) + path == projectId + path
  {
    assert Count(xs, xs[i]) == 1 by {
      var before := xs[..i];
      var after := xs[i + 1..];
      assert xs == before + [xs[i]] + after;
      CountConcat(before + [xs[i]], after, xs[i]);
      CountConcat(before, [xs[i]], xs[i]);
      assert xs[i] !in before by {
        forall j | 0 <= j < |before| ensures before[j] != xs[i] {
          assert before[j] == xs[j];
        }
      }
      assert xs[i] !in after by {
        forall j | 0 <= j < |after| ensures after[j] != xs[i] {
          assert after[j] == xs[i + 1 + j];
        }
      }
      CountPositive(before, xs[i]);
      CountPositive(after, xs[i]);
      assert [xs[i]][..0] == [];
    }
  }
}
