/**
 * The Agave file manager: every public operation resolves a file identifier,
 * then issues an ordered sequence of calls to two backends, the remote
 * storage system (Agave) and the search index (Elasticsearch), and, for
 * copies to another resource, to the manager registered for that resource.
 *
 * The backends are modelled by what their lookups answer (`Backends`) and the
 * effects of the manager by the record of the calls it makes (`Call`), in
 * order.  Each operation is specified by a function `...Run` giving the calls
 * it makes and its outcome; the methods of `FileManager` append exactly those
 * calls to the manager's log.
 */
module FileManagers {
  import opened Wrappers
  import opened Strings
  import opened FileIds

  /** A file or folder on one storage system; `path` keeps the owner segment. */
  datatype Loc = Loc(system: string, path: string)

  datatype Kind = File | Dir

  /** What a remote handle or an index document says about a file. */
  datatype Entry = Entry(name: string, ext: string, kind: Kind)

  /** The answers the backends give to lookups: the remote handles and index
      documents that exist, and the children each backend lists for a folder. */
  datatype Backends = Backends(
    remote: map<Loc, Entry>,
    remoteListings: map<Loc, seq<Entry>>,
    index: map<Loc, Entry>,
    indexListings: map<Loc, seq<Entry>>)

  /** The acting user, the manager's own resource name, the configured home
      storage system, and the registry from resource names to managers. */
  datatype Config = Config(
    username: string,
    resource: string,
    defaultSystem: string,
    registry: map<string, string>)

  /** One call the manager makes on a backend or on another manager. */
  datatype Call =
    | IndexListing(at: Loc, user: string)                 // _es_listing(system, user, path)
    | RemoteListing(at: Loc)                              // _agave_listing(system, path)
    | RemoteLookup(at: Loc, user: string)                 // AgaveFile.from_file_path
    | IndexLookup(at: Loc, user: string)                  // Object.from_file_path
    | RemoteCopy(at: Loc, destPath: string)
    | IndexCopy(at: Loc, user: string, destPath: string)
    | ImportData(systemId: string, filePath: string, urlToIngest: string)
    | DelegateImport(manager: string, destFileId: string, sourceResource: string, sourceFileId: string)
    | RemoteMove(at: Loc, destPath: string)
    | IndexMove(at: Loc, user: string, destPath: string)
    | RemoteDelete(at: Loc)
    | IndexDeleteRecursive(at: Loc)
    | RemoteRename(at: Loc, newName: string)
    | IndexRename(at: Loc, user: string, newName: string)
    | RemoteShare(at: Loc, target: string, permission: string)
    | IndexShare(at: Loc, user: string, target: string, permission: string)
    | RemoteMkdir(at: Loc, user: string, name: string)
    | IndexFromRemote(user: string, at: Loc)              // Object.from_agave_file
    | CreatePostit(at: Loc, force: bool)
    | RemoteDownload(at: Loc)
  {
    /** A call that changes the remote storage system or hands work to it. */
    predicate IsRemoteMutation() {
      RemoteCopy? || ImportData? || RemoteMove? || RemoteDelete? || RemoteRename? ||
      RemoteShare? || RemoteMkdir?
    }

    /** A call that changes the search index. */
    predicate IsIndexMutation() {
      IndexCopy? || IndexMove? || IndexDeleteRecursive? || IndexRename? || IndexShare? ||
      IndexFromRemote?
    }

    /** A call that changes anything: either backend, or another resource. */
    predicate IsMutation() {
      IsRemoteMutation() || IsIndexMutation() || DelegateImport?
    }
  }

  /** Why an operation stopped (an `ApiException` or a failed lookup). */
  datatype Failure =
    | UnknownResource(resource: string)   // copy to a resource with no registered manager
    | MoveNotSupported                    // move across systems or resources
    | NotFound(at: Loc)                   // no remote handle; nothing was changed
    | IndexMissing(at: Loc)               // remote change applied, no index document to mirror it

  /** How an operation that went through ended. */
  datatype Outcome = Applied | ImportStarted | Delegated(manager: string)

  /** The four preview strategies, by file extension. */
  datatype FileKind = Image | Text | Document | Unsupported

  datatype PreviewAction = InlineLink | Streamed | NoPreview

  /** The calls an operation makes, in order, and what it returns. */
  datatype Run<T> = Run(calls: seq<Call>, result: T)

  const IngestScheme := "agave://"
  const TrashFolder := ".Trash"

  /** The location an identifier names, as `parse_file_id` resolves it. */
  function Locate(cfg: Config, fileId: string): Loc
  {
    var f := ParseFileId(fileId, cfg.username, cfg.defaultSystem);
    Loc(f.system, f.path)
  }

  /** A backend's listing of a folder; a folder it knows nothing of lists empty. */
  function ListingOf(listings: map<Loc, seq<Entry>>, at: Loc): seq<Entry>
  {
    if at in listings then listings[at] else []
  }

  /** `listing`: the index first; the remote listing only when the index lists nothing. */
  function ListingRun(cfg: Config, be: Backends, fileId: string): Run<seq<Entry>>
  {
    var at := Locate(cfg, fileId);
    var fromIndex := ListingOf(be.indexListings, at);
    if fromIndex != [] then Run([IndexListing(at, cfg.username)], fromIndex)
    else Run([IndexListing(at, cfg.username), RemoteListing(at)], ListingOf(be.remoteListings, at))
  }

  /** The shape shared by copy (same system), move, delete, rename and share:
      fetch the remote handle and the index document of `at`, apply the change
      remotely, then mirror it in the index. */
  function MirrorRun(cfg: Config, be: Backends, at: Loc, remoteCall: Call, indexCall: Call)
    : Run<Result<Outcome, Failure>>
  {
    var u := cfg.username;
    if at !in be.remote then Run([RemoteLookup(at, u)], Failure(NotFound(at)))
    else if at !in be.index then
      Run([RemoteLookup(at, u), IndexLookup(at, u), remoteCall], Failure(IndexMissing(at)))
    else Run([RemoteLookup(at, u), IndexLookup(at, u), remoteCall, indexCall], Success(Applied))
  }

  /** `copy`: a native copy within one system, an import job across systems of
      this resource, or delegation to the manager of another resource. */
  function CopyRun(cfg: Config, be: Backends, fileId: string, destResource: string, destFileId: string)
    : Run<Result<Outcome, Failure>>
  {
    var at := Locate(cfg, fileId);
    var dest := ParseFileId(destFileId, cfg.username, cfg.defaultSystem);
    var u := cfg.username;
    if at !in be.remote then Run([RemoteLookup(at, u)], Failure(NotFound(at)))
    else if destResource == cfg.resource && dest.system == at.system then
      MirrorRun(cfg, be, at, RemoteCopy(at, dest.path), IndexCopy(at, u, dest.path))
    else if destResource == cfg.resource then
      Run([RemoteLookup(at, u), ImportData(dest.system, dest.path, IngestScheme + fileId)],
          Success(ImportStarted))
    else if destResource in cfg.registry then
      var manager := cfg.registry[destResource];
      Run([RemoteLookup(at, u), DelegateImport(manager, destFileId, cfg.resource, fileId)],
          Success(Delegated(manager)))
    else Run([RemoteLookup(at, u)], Failure(UnknownResource(destResource)))
  }

  /** `move`: only within this resource and one system; refused before any call otherwise. */
  function MoveRun(cfg: Config, be: Backends, fileId: string, destResource: string, destFileId: string)
    : Run<Result<Outcome, Failure>>
  {
    var at := Locate(cfg, fileId);
    var dest := ParseFileId(destFileId, cfg.username, cfg.defaultSystem);
    if destResource != cfg.resource || dest.system != at.system then Run([], Failure(MoveNotSupported))
    else MirrorRun(cfg, be, at, RemoteMove(at, dest.path), IndexMove(at, cfg.username, dest.path))
  }

  /** `delete`: the remote file, then its index document and every document below it. */
  function DeleteRun(cfg: Config, be: Backends, fileId: string): Run<Result<Outcome, Failure>>
  {
    var at := Locate(cfg, fileId);
    MirrorRun(cfg, be, at, RemoteDelete(at), IndexDeleteRecursive(at))
  }

  /** `rename`: remotely, then in the index on behalf of the acting user. */
  function RenameRun(cfg: Config, be: Backends, fileId: string, newName: string)
    : Run<Result<Outcome, Failure>>
  {
    var at := Locate(cfg, fileId);
    MirrorRun(cfg, be, at, RemoteRename(at, newName), IndexRename(at, cfg.username, newName))
  }

  /** `share`: the permission remotely, then the mirrored permission in the index. */
  function ShareRun(cfg: Config, be: Backends, fileId: string, target: string, permission: string)
    : Run<Result<Outcome, Failure>>
  {
    var at := Locate(cfg, fileId);
    MirrorRun(cfg, be, at, RemoteShare(at, target, permission),
              IndexShare(at, cfg.username, target, permission))
  }

  /** `mkdir`: create the folder remotely, then index the handle the remote returns. */
  function MkdirRun(cfg: Config, be: Backends, fileId: string, name: string): Run<Loc>
  {
    var parent := Locate(cfg, fileId);
    var created := Loc(parent.system, parent.path + "/" + name);
    Run([RemoteMkdir(parent, cfg.username, name), IndexFromRemote(cfg.username, created)], created)
  }

  /** `download`: a forced temporary link for a file, nothing for a folder.
      The result names the location a link was issued for. */
  function DownloadRun(cfg: Config, be: Backends, fileId: string): Run<Result<Option<Loc>, Failure>>
  {
    var at := Locate(cfg, fileId);
    var u := cfg.username;
    if at !in be.remote then Run([RemoteLookup(at, u)], Failure(NotFound(at)))
    else if be.remote[at].kind == Dir then Run([RemoteLookup(at, u)], Success(None))
    else Run([RemoteLookup(at, u), CreatePostit(at, true)], Success(Some(at)))
  }

  /** The preview strategy of an extension. */
  function KindOf(ext: string): FileKind
  {
    if ext == ".png" then Image
    else if ext == ".json" then Text
    else if ext == ".pdf" then Document
    else Unsupported
  }

  /** `preview`: an unforced temporary link for images and documents, the
      content itself for text, and no backend call at all otherwise. */
  function PreviewRun(cfg: Config, be: Backends, fileId: string): Run<Result<PreviewAction, Failure>>
  {
    var at := Locate(cfg, fileId);
    var u := cfg.username;
    if at !in be.remote then Run([RemoteLookup(at, u)], Failure(NotFound(at)))
    else match KindOf(be.remote[at].ext)
      case Image => Run([RemoteLookup(at, u), CreatePostit(at, false)], Success(InlineLink))
      case Document => Run([RemoteLookup(at, u), CreatePostit(at, false)], Success(InlineLink))
      case Text => Run([RemoteLookup(at, u), RemoteDownload(at)], Success(Streamed))
      case Unsupported => Run([RemoteLookup(at, u)], Success(NoPreview))
  }

  /** The disambiguated name under which an entry goes to the trash when the
      trash already holds its name: `stamp` (a timestamp or counter) goes in
      front of the extension. */
  function TrashName(name: string, ext: string, stamp: string): (r: string)
    ensures r != name
    ensures |r| == |name| + 1 + |stamp|
  {
    if ext != "" && |ext| < |name| && name[|name| - |ext|..] == ext
    then name[..|name| - |ext|] + "_" + stamp + ext
    else name + "_" + stamp
  }

  /** The identifier of an entry of the acting user's trash on `system`. */
  function TrashId(cfg: Config, system: string, name: string): string
  {
    system + "/" + cfg.username + "/" + TrashFolder + "/" + name
  }

  /** The acting user's trash folder on the system of `fileId`. */
  function TrashOf(cfg: Config, fileId: string): Loc
  {
    Loc(ParseFileId(fileId, cfg.username, cfg.defaultSystem).system, cfg.username + "/" + TrashFolder)
  }

  /** Where the entry named by `fileId` would land in the trash under its own name. */
  function TrashSlot(cfg: Config, fileId: string): Loc
  {
    var f := ParseFileId(fileId, cfg.username, cfg.defaultSystem);
    Loc(f.system, TrashOf(cfg, fileId).path + "/" + Last(Split(f.path, '/')))
  }

  /** The lookups `move_to_trash` makes before it changes anything: the trash
      (created when the index misses it), then the entry's name inside it. */
  function TrashProbes(cfg: Config, be: Backends, fileId: string): seq<Call>
  {
    var system := ParseFileId(fileId, cfg.username, cfg.defaultSystem).system;
    var trash := TrashOf(cfg, fileId);
    [IndexLookup(trash, cfg.username)]
    + (if trash in be.index then [] else MkdirRun(cfg, be, system + "/" + cfg.username, TrashFolder).calls)
    + [IndexLookup(TrashSlot(cfg, fileId), cfg.username)]
  }

  /** `move_to_trash`: look the trash up (creating it if the index misses it),
      look its name up inside the trash, rename the entry first if that name is
      taken, then move it into the trash. */
  function MoveToTrashRun(cfg: Config, be: Backends, fileId: string, stamp: string)
    : Run<Result<Outcome, Failure>>
  {
    var f := ParseFileId(fileId, cfg.username, cfg.defaultSystem);
    var name := Last(Split(f.path, '/'));
    var slot := TrashSlot(cfg, fileId);
    var probes := TrashProbes(cfg, be, fileId);
    if slot !in be.index then
      var move := MoveRun(cfg, be, fileId, cfg.resource, TrashId(cfg, f.system, name));
      Run(probes + move.calls, move.result)
    else
      var newName := TrashName(name, be.index[slot].ext, stamp);
      var rename := RenameRun(cfg, be, fileId, newName);
      if rename.result.Failure? then Run(probes + rename.calls, rename.result)
      else
        var move := MoveRun(cfg, be, fileId, cfg.resource, TrashId(cfg, f.system, newName));
        Run(probes + rename.calls + move.calls, move.result)
  }

  /** A file manager acting for one user.  `log` records, in order, every call
      it has made on the backends and on other managers. */
  class FileManager {
    const config: Config
    const backends: Backends
    var log: seq<Call>

    constructor (config: Config, backends: Backends)
      ensures this.config == config && this.backends == backends
      ensures log == []
    {
      this.config := config;
      this.backends := backends;
      log := [];
    }

    method Listing(fileId: string) returns (children: seq<Entry>)
      modifies this`log
      ensures log == old(log) + ListingRun(config, backends, fileId).calls
      ensures children == ListingRun(config, backends, fileId).result
    {
      var at := Locate(config, fileId);
      log := log + [IndexListing(at, config.username)];
      children := ListingOf(backends.indexListings, at);
      if children == [] {
        log := log + [RemoteListing(at)];
        children := ListingOf(backends.remoteListings, at);
      }
    }

    /** Fetch both handles of `at`, apply `remoteCall`, then `indexCall`. */
    method Mirror(at: Loc, remoteCall: Call, indexCall: Call) returns (r: Result<Outcome, Failure>)
      modifies this`log
      ensures log == old(log) + MirrorRun(config, backends, at, remoteCall, indexCall).calls
      ensures r == MirrorRun(config, backends, at, remoteCall, indexCall).result
    {
      log := log + [RemoteLookup(at, config.username)];
      if at !in backends.remote {
        return Failure(NotFound(at));
      }
      log := log + [IndexLookup(at, config.username)];
      log := log + [remoteCall];
      if at !in backends.index {
        return Failure(IndexMissing(at));
      }
      log := log + [indexCall];
      r := Success(Applied);
    }

    method Copy(fileId: string, destResource: string, destFileId: string)
      returns (r: Result<Outcome, Failure>)
      modifies this`log
      ensures log == old(log) + CopyRun(config, backends, fileId, destResource, destFileId).calls
      ensures r == CopyRun(config, backends, fileId, destResource, destFileId).result
    {
      var at := Locate(config, fileId);
      var dest := ParseFileId(destFileId, config.username, config.defaultSystem);
      if at !in backends.remote || (destResource == config.resource && dest.system == at.system) {
        r := Mirror(at, RemoteCopy(at, dest.path), IndexCopy(at, config.username, dest.path));
        return;
      }
      log := log + [RemoteLookup(at, config.username)];
      if destResource == config.resource {
        log := log + [ImportData(dest.system, dest.path, IngestScheme + fileId)];
        r := Success(ImportStarted);
      } else if destResource in config.registry {
        var manager := config.registry[destResource];
        log := log + [DelegateImport(manager, destFileId, config.resource, fileId)];
        r := Success(Delegated(manager));
      } else {
        r := Failure(UnknownResource(destResource));
      }
    }

    method Move(fileId: string, destResource: string, destFileId: string)
      returns (r: Result<Outcome, Failure>)
      modifies this`log
      ensures log == old(log) + MoveRun(config, backends, fileId, destResource, destFileId).calls
      ensures r == MoveRun(config, backends, fileId, destResource, destFileId).result
    {
      var at := Locate(config, fileId);
      var dest := ParseFileId(destFileId, config.username, config.defaultSystem);
      if destResource != config.resource || dest.system != at.system {
        return Failure(MoveNotSupported);
      }
      r := Mirror(at, RemoteMove(at, dest.path), IndexMove(at, config.username, dest.path));
    }

    method Delete(fileId: string) returns (r: Result<Outcome, Failure>)
      modifies this`log
      ensures log == old(log) + DeleteRun(config, backends, fileId).calls
      ensures r == DeleteRun(config, backends, fileId).result
    {
      var at := Locate(config, fileId);
      r := Mirror(at, RemoteDelete(at), IndexDeleteRecursive(at));
    }

    method Rename(fileId: string, newName: string) returns (r: Result<Outcome, Failure>)
      modifies this`log
      ensures log == old(log) + RenameRun(config, backends, fileId, newName).calls
      ensures r == RenameRun(config, backends, fileId, newName).result
    {
      var at := Locate(config, fileId);
      r := Mirror(at, RemoteRename(at, newName), IndexRename(at, config.username, newName));
    }

    method Share(fileId: string, target: string, permission: string) returns (r: Result<Outcome, Failure>)
      modifies this`log
      ensures log == old(log) + ShareRun(config, backends, fileId, target, permission).calls
      ensures r == ShareRun(config, backends, fileId, target, permission).result
    {
      var at := Locate(config, fileId);
      r := Mirror(at, RemoteShare(at, target, permission),
                  IndexShare(at, config.username, target, permission));
    }

    method Mkdir(fileId: string, name: string) returns (created: Loc)
      modifies this`log
      ensures log == old(log) + MkdirRun(config, backends, fileId, name).calls
      ensures created == MkdirRun(config, backends, fileId, name).result
    {
      var parent := Locate(config, fileId);
      log := log + [RemoteMkdir(parent, config.username, name)];
      created := Loc(parent.system, parent.path + "/" + name);
      log := log + [IndexFromRemote(config.username, created)];
    }

    method Download(fileId: string) returns (r: Result<Option<Loc>, Failure>)
      modifies this`log
      ensures log == old(log) + DownloadRun(config, backends, fileId).calls
      ensures r == DownloadRun(config, backends, fileId).result
    {
      var at := Locate(config, fileId);
      log := log + [RemoteLookup(at, config.username)];
      if at !in backends.remote {
        return Failure(NotFound(at));
      }
      if backends.remote[at].kind == Dir {
        return Success(None);
      }
      log := log + [CreatePostit(at, true)];
      r := Success(Some(at));
    }

    method Preview(fileId: string) returns (r: Result<PreviewAction, Failure>)
      modifies this`log
      ensures log == old(log) + PreviewRun(config, backends, fileId).calls
      ensures r == PreviewRun(config, backends, fileId).result
    {
      var at := Locate(config, fileId);
      log := log + [RemoteLookup(at, config.username)];
      if at !in backends.remote {
        return Failure(NotFound(at));
      }
      match KindOf(backends.remote[at].ext)
      case Image =>
        log := log + [CreatePostit(at, false)];
        r := Success(InlineLink);
      case Document =>
        log := log + [CreatePostit(at, false)];
        r := Success(InlineLink);
      case Text =>
        log := log + [RemoteDownload(at)];
        r := Success(Streamed);
      case Unsupported =>
        r := Success(NoPreview);
    }

    method MoveToTrash(fileId: string, stamp: string) returns (r: Result<Outcome, Failure>)
      modifies this`log
      ensures log == old(log) + MoveToTrashRun(config, backends, fileId, stamp).calls
      ensures r == MoveToTrashRun(config, backends, fileId, stamp).result
    {
      var f := ParseFileId(fileId, config.username, config.defaultSystem);
      var trash := TrashOf(config, fileId);
      log := log + [IndexLookup(trash, config.username)];
      if trash !in backends.index {
        var _ := Mkdir(f.system + "/" + config.username, TrashFolder);
      }
      var slot := TrashSlot(config, fileId);
      log := log + [IndexLookup(slot, config.username)];
      ghost var probed := log;
      assert probed == old(log) + TrashProbes(config, backends, fileId);
      var name := Last(Split(f.path, '/'));
      if slot !in backends.index {
        r := Move(fileId, config.resource, TrashId(config, f.system, name));
        ConcatAssoc(old(log), TrashProbes(config, backends, fileId),
                    MoveRun(config, backends, fileId, config.resource, TrashId(config, f.system, name)).calls);
        return;
      }
      var newName := TrashName(name, backends.index[slot].ext, stamp);
      var renamed := Rename(fileId, newName);
      ghost var rename := RenameRun(config, backends, fileId, newName);
      ConcatAssoc(old(log), TrashProbes(config, backends, fileId), rename.calls);
      if renamed.Failure? {
        return renamed;
      }
      r := Move(fileId, config.resource, TrashId(config, f.system, newName));
      ConcatAssoc(old(log), TrashProbes(config, backends, fileId) + rename.calls,
                  MoveRun(config, backends, fileId, config.resource, TrashId(config, f.system, newName)).calls);
    }
  }
}
