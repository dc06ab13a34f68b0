/**
 * The `index_job_outputs` background task: when a job's status event says
 * `INDEXING`, every entry under the job's archive folder is saved to the
 * search index in walk order, then the archive folder and each of its
 * ancestor folders, and the event's status becomes `FINISHED`.
 */
module IndexTasks {
  import opened Strings

  const Indexing := "INDEXING"
  const Finished := "FINISHED"

  /** What the jobs service reports of a job: where its outputs were archived. */
  datatype Job = Job(archiveSystem: string, archivePath: string)

  /** An index document for one file or folder. */
  datatype Doc = Doc(system: string, path: string)

  /** The event payload the task receives; only its status is overwritten. */
  class JobEvent {
    const jobOwner: string
    const jobId: string
    var status: string

    constructor (jobOwner: string, jobId: string, status: string)
      ensures this.jobOwner == jobOwner && this.jobId == jobId && this.status == status
    {
      this.jobOwner := jobOwner;
      this.jobId := jobId;
      this.status := status;
    }
  }

  /** The search index, as the sequence of documents saved to it so far. */
  class SearchIndex {
    var saved: seq<Doc>

    constructor ()
      ensures saved == []
    {
      saved := [];
    }

    /** Saving a document appends it. */
    method Save(d: Doc)
      modifies this`saved
      ensures saved == old(saved) + [d]
    {
      saved := saved + [d];
    }
  }

  /** The folders the ancestor loop indexes, in order: with `parts` the
      `/`-split of `archivePath`, iteration `i` indexes the join of the first
      `|parts| - i` parts. */
  function AncestorPaths(archivePath: string): (paths: seq<string>)
    ensures |paths| == |Split(archivePath, '/')|
  {
    var parts := Split(archivePath, '/');
    seq(|parts|, i requires 0 <= i < |parts| => Join(parts[..|parts| - i], "/"))
  }

  /** The documents of the ancestor loop, all on the archive system. */
  function AncestorDocs(job: Job): (docs: seq<Doc>)
    ensures |docs| == |Split(job.archivePath, '/')|
  {
    var paths := AncestorPaths(job.archivePath);
    seq(|paths|, i requires 0 <= i < |paths| => Doc(job.archiveSystem, paths[i]))
  }

  /** `path` with its last `/`-separated component dropped. */
  function DropLastComponent(path: string): string
  {
    var parts := Split(path, '/');
    Join(parts[..|parts| - 1], "/")
  }

  /** `index_job_outputs`.  `users` are the known local usernames, `job` is what
      the jobs service returns for the event's job id, and `walk` the documents
      of the entries the recursive listing of the archive folder yields, in
      order.  An unknown job owner is caught and logged: nothing changes. */
  method IndexJobOutputs(data: JobEvent, users: set<string>, job: Job, walk: seq<Doc>, index: SearchIndex)
    modifies data`status, index`saved
    ensures old(data.status) != Indexing || data.jobOwner !in users ==>
              data.status == old(data.status) && index.saved == old(index.saved)
    ensures old(data.status) == Indexing && data.jobOwner in users ==>
              data.status == Finished && index.saved == old(index.saved) + walk + AncestorDocs(job)
  {
    if data.status != Indexing || data.jobOwner !in users {
      return;
    }
    var system := job.archiveSystem;
    ghost var start := index.saved;
    for k := 0 to |walk|
      invariant index.saved == start + walk[..k]
    {
      index.Save(walk[k]);
    }
    assert walk[..|walk|] == walk;

    var parts := Split(job.archivePath, '/');
    var paths := parts;
    var n := |paths|;
    ghost var expected := AncestorDocs(job);
    for i := 0 to n
      invariant paths == parts[..n - i]
      invariant index.saved == start + walk + expected[..i]
    {
      var path := Join(paths, "/");
      index.Save(Doc(system, path));
      assert expected[..i + 1] == expected[..i] + [Doc(system, path)];
      paths := paths[..|paths| - 1];
    }
    assert expected[..n] == expected;
    data.status := Finished;
  }

  /** The ancestor loop runs once per `/`-separated component of the archive path. */
  lemma AncestorCount(archivePath: string)
    ensures |AncestorPaths(archivePath)| == Occurrences(archivePath, '/') + 1
  {
    SplitCount(archivePath, '/');
  }

  /** The first folder indexed by the ancestor loop is the archive folder itself. */
  lemma FirstAncestorIsArchive(archivePath: string)
    ensures AncestorPaths(archivePath)[0] == archivePath
  {
    var parts := Split(archivePath, '/');
    assert AncestorPaths(archivePath)[0] == Join(parts[..|parts|], "/");
    assert parts[..|parts|] == parts;
    JoinSplit(archivePath, '/');
  }

  /** Iteration `i` indexes a folder whose components are the first `n - i`
      components of the archive path. */
  lemma AncestorComponents(archivePath: string, i: nat)
    requires i < |AncestorPaths(archivePath)|
    ensures var parts := Split(archivePath, '/');
            Split(AncestorPaths(archivePath)[i], '/') == parts[..|parts| - i]
  {
    var parts := Split(archivePath, '/');
    var prefix := parts[..|parts| - i];
    assert AncestorPaths(archivePath)[i] == Join(prefix, "/");
    assert forall j :: 0 <= j < |prefix| ==> '/' !in prefix[j] by {
      forall j | 0 <= j < |prefix| ensures '/' !in prefix[j] {
        assert prefix[j] == parts[j];
      }
    }
    SplitJoin(prefix, '/');
  }

  /** Each later folder is the previous one with its last component dropped. */
  lemma AncestorDropsLast(archivePath: string, i: nat)
    requires i + 1 < |AncestorPaths(archivePath)|
    ensures AncestorPaths(archivePath)[i + 1] == DropLastComponent(AncestorPaths(archivePath)[i])
  {
    var parts := Split(archivePath, '/');
    AncestorComponents(archivePath, i);
    assert parts[..|parts| - i][..|parts| - i - 1] == parts[..|parts| - (i + 1)];
  }

  /** Every folder indexed is a prefix of the archive path, so the loop never
      leaves the archive's own chain of ancestors. */
  lemma AncestorIsPrefix(archivePath: string, i: nat)
    requires i < |AncestorPaths(archivePath)|
    ensures AncestorPaths(archivePath)[i] <= archivePath
  {
    var parts := Split(archivePath, '/');
    JoinPrefix(parts, |parts| - i, "/");
    JoinSplit(archivePath, '/');
  }

  /** An absolute archive path (`/home/...`) ends the loop by indexing the empty path. */
  lemma AbsoluteEndsAtRoot(rest: string)
    ensures var paths := AncestorPaths("/" + rest);
            paths[|paths| - 1] == ""
  {
    SplitPrefix("", rest, '/');
    assert "" + "/" + rest == "/" + rest;
    var parts := Split("/" + rest, '/');
    assert parts[0] == "";
    assert parts[..1] == [""];
    assert AncestorPaths("/" + rest)[|parts| - 1] == Join(parts[..1], "/");
  }
}
