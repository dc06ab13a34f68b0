/**
 * What the file manager's test suite pins, stated for every identifier of the
 * shape the tests use: `"<system>/<user>/<tail>"`, built from a system and the
 * acting user's name, neither of which holds a `/`.  Each lemma gives the
 * whole sequence of backend calls an operation makes and what it returns.
 */
module FileManagerProperties {
  import opened Wrappers
  import opened Strings
  import opened FileIds
  import opened FileManagers

  /** An identifier inside the acting user's home folder on `system`. */
  function OwnedId(cfg: Config, system: string, tail: string): string
  {
    system + "/" + cfg.username + "/" + tail
  }

  /** The location such an identifier names. */
  function OwnedLoc(cfg: Config, system: string, tail: string): Loc
  {
    Loc(system, cfg.username + "/" + tail)
  }

  lemma LocateOwned(cfg: Config, system: string, tail: string)
    requires '/' !in system && '/' !in cfg.username
    ensures Locate(cfg, OwnedId(cfg, system, tail)) == OwnedLoc(cfg, system, tail)
    ensures ParseFileId(OwnedId(cfg, system, tail), cfg.username, cfg.defaultSystem).system == system
  {
    ParseThreeSegments(system, cfg.username, tail, cfg.username, cfg.defaultSystem);
  }

  // ----- listing -----

  /** An empty index listing falls back to the remote listing of exactly (system, path). */
  lemma ListingFallsBackToRemote(cfg: Config, be: Backends, system: string, tail: string)
    requires '/' !in system && '/' !in cfg.username
    requires ListingOf(be.indexListings, OwnedLoc(cfg, system, tail)) == []
    ensures var at := OwnedLoc(cfg, system, tail);
            ListingRun(cfg, be, OwnedId(cfg, system, tail))
            == Run([IndexListing(at, cfg.username), RemoteListing(at)], ListingOf(be.remoteListings, at))
  {
    LocateOwned(cfg, system, tail);
  }

  /** The index is queried with (system, user, path); a non-empty answer is
      returned as it is, and the remote is not listed. */
  lemma ListingServedByIndex(cfg: Config, be: Backends, system: string, tail: string)
    requires '/' !in system && '/' !in cfg.username
    requires ListingOf(be.indexListings, OwnedLoc(cfg, system, tail)) != []
    ensures var at := OwnedLoc(cfg, system, tail);
            ListingRun(cfg, be, OwnedId(cfg, system, tail))
            == Run([IndexListing(at, cfg.username)], ListingOf(be.indexListings, at))
  {
    LocateOwned(cfg, system, tail);
  }

  /** For every identifier: the remote is listed iff the index listed nothing. */
  lemma ListingRemoteIffIndexEmpty(cfg: Config, be: Backends, fileId: string)
    ensures var run := ListingRun(cfg, be, fileId);
            var at := Locate(cfg, fileId);
            && run.calls[0] == IndexListing(at, cfg.username)
            && (RemoteListing(at) in run.calls <==> ListingOf(be.indexListings, at) == [])
            && (forall c :: c in run.calls ==> !c.IsMutation())
  {
  }

  // ----- copy -----

  /** Same resource, same system: both handles of the source are fetched, then
      the remote copy and the index copy run with the destination's path. */
  lemma CopyWithinSystem(cfg: Config, be: Backends, system: string, tail: string, destTail: string)
    requires '/' !in system && '/' !in cfg.username
    requires OwnedLoc(cfg, system, tail) in be.remote && OwnedLoc(cfg, system, tail) in be.index
    ensures var at := OwnedLoc(cfg, system, tail);
            var u := cfg.username;
            var destPath := u + "/" + destTail;
            CopyRun(cfg, be, OwnedId(cfg, system, tail), cfg.resource, OwnedId(cfg, system, destTail))
            == Run([RemoteLookup(at, u), IndexLookup(at, u), RemoteCopy(at, destPath), IndexCopy(at, u, destPath)],
                   Success(Applied))
  {
    LocateOwned(cfg, system, tail);
    LocateOwned(cfg, system, destTail);
  }

  /** Same resource, another system: one import job on the destination system,
      ingesting from `agave://` followed by the source identifier; no copy call. */
  lemma CopyAcrossSystems(cfg: Config, be: Backends, system: string, tail: string,
                          destSystem: string, destTail: string)
    requires '/' !in system && '/' !in destSystem && '/' !in cfg.username
    requires system != destSystem
    requires OwnedLoc(cfg, system, tail) in be.remote
    ensures var fileId := OwnedId(cfg, system, tail);
            var u := cfg.username;
            CopyRun(cfg, be, fileId, cfg.resource, OwnedId(cfg, destSystem, destTail))
            == Run([RemoteLookup(OwnedLoc(cfg, system, tail), u),
                    ImportData(destSystem, u + "/" + destTail, "agave://" + fileId)],
                   Success(ImportStarted))
  {
    LocateOwned(cfg, system, tail);
    LocateOwned(cfg, destSystem, destTail);
  }

  /** Another resource: the manager registered for it is asked to import the
      source, given the destination id, this manager's resource and the source id. */
  lemma CopyToOtherResource(cfg: Config, be: Backends, system: string, tail: string,
                            destResource: string, destFileId: string)
    requires '/' !in system && '/' !in cfg.username
    requires destResource != cfg.resource && destResource in cfg.registry
    requires OwnedLoc(cfg, system, tail) in be.remote
    ensures var fileId := OwnedId(cfg, system, tail);
            var manager := cfg.registry[destResource];
            CopyRun(cfg, be, fileId, destResource, destFileId)
            == Run([RemoteLookup(OwnedLoc(cfg, system, tail), cfg.username),
                    DelegateImport(manager, destFileId, cfg.resource, fileId)],
                   Success(Delegated(manager)))
  {
    LocateOwned(cfg, system, tail);
  }

  /** A resource with no registered manager: the copy fails after only the
      source lookup. */
  lemma CopyToUnknownResource(cfg: Config, be: Backends, system: string, tail: string,
                              destResource: string, destFileId: string)
    requires '/' !in system && '/' !in cfg.username
    requires destResource != cfg.resource && destResource !in cfg.registry
    requires OwnedLoc(cfg, system, tail) in be.remote
    ensures CopyRun(cfg, be, OwnedId(cfg, system, tail), destResource, destFileId)
            == Run([RemoteLookup(OwnedLoc(cfg, system, tail), cfg.username)],
                   Failure(UnknownResource(destResource)))
  {
    LocateOwned(cfg, system, tail);
  }

  /** For every identifier: a copy to an unregistered resource changes nothing and fails. */
  lemma CopyUnknownChangesNothing(cfg: Config, be: Backends, fileId: string,
                                  destResource: string, destFileId: string)
    requires destResource != cfg.resource && destResource !in cfg.registry
    ensures var run := CopyRun(cfg, be, fileId, destResource, destFileId);
            run.result.Failure? && forall c :: c in run.calls ==> !c.IsMutation()
  {
  }

  // ----- move -----

  /** Same resource, same system: the remote move, then the index move on
      behalf of the acting user, both to the destination's path. */
  lemma MoveWithinSystem(cfg: Config, be: Backends, system: string, tail: string, destTail: string)
    requires '/' !in system && '/' !in cfg.username
    requires OwnedLoc(cfg, system, tail) in be.remote && OwnedLoc(cfg, system, tail) in be.index
    ensures var at := OwnedLoc(cfg, system, tail);
            var u := cfg.username;
            var destPath := u + "/" + destTail;
            MoveRun(cfg, be, OwnedId(cfg, system, tail), cfg.resource, OwnedId(cfg, system, destTail))
            == Run([RemoteLookup(at, u), IndexLookup(at, u), RemoteMove(at, destPath), IndexMove(at, u, destPath)],
                   Success(Applied))
  {
    LocateOwned(cfg, system, tail);
    LocateOwned(cfg, system, destTail);
  }

  /** Another system, whatever the resource: refused, and no call is made. */
  lemma MoveAcrossSystemsRefused(cfg: Config, be: Backends, system: string, tail: string,
                                 destResource: string, destSystem: string, destTail: string)
    requires '/' !in system && '/' !in destSystem && '/' !in cfg.username
    requires system != destSystem
    ensures MoveRun(cfg, be, OwnedId(cfg, system, tail), destResource, OwnedId(cfg, destSystem, destTail))
            == Run([], Failure(MoveNotSupported))
  {
    LocateOwned(cfg, system, tail);
    LocateOwned(cfg, destSystem, destTail);
  }

  // ----- delete, rename, share, mkdir -----

  /** Delete: the remote handle, then the index document and everything under it. */
  lemma DeleteRemoteThenIndex(cfg: Config, be: Backends, system: string, tail: string)
    requires '/' !in system && '/' !in cfg.username
    requires OwnedLoc(cfg, system, tail) in be.remote && OwnedLoc(cfg, system, tail) in be.index
    ensures var at := OwnedLoc(cfg, system, tail);
            DeleteRun(cfg, be, OwnedId(cfg, system, tail))
            == Run([RemoteLookup(at, cfg.username), IndexLookup(at, cfg.username),
                    RemoteDelete(at), IndexDeleteRecursive(at)], Success(Applied))
  {
    LocateOwned(cfg, system, tail);
  }

  /** Rename: remotely to the new name, then in the index on behalf of the acting user. */
  lemma RenameRemoteThenIndex(cfg: Config, be: Backends, system: string, tail: string, newName: string)
    requires '/' !in system && '/' !in cfg.username
    requires OwnedLoc(cfg, system, tail) in be.remote && OwnedLoc(cfg, system, tail) in be.index
    ensures var at := OwnedLoc(cfg, system, tail);
            var u := cfg.username;
            RenameRun(cfg, be, OwnedId(cfg, system, tail), newName)
            == Run([RemoteLookup(at, u), IndexLookup(at, u), RemoteRename(at, newName), IndexRename(at, u, newName)],
                   Success(Applied))
  {
    LocateOwned(cfg, system, tail);
  }

  /** Share: the permission for the target user remotely, then in the index
      with the acting user as grantor. */
  lemma ShareRemoteThenIndex(cfg: Config, be: Backends, system: string, tail: string,
                             target: string, permission: string)
    requires '/' !in system && '/' !in cfg.username
    requires OwnedLoc(cfg, system, tail) in be.remote && OwnedLoc(cfg, system, tail) in be.index
    ensures var at := OwnedLoc(cfg, system, tail);
            var u := cfg.username;
            ShareRun(cfg, be, OwnedId(cfg, system, tail), target, permission)
            == Run([RemoteLookup(at, u), IndexLookup(at, u), RemoteShare(at, target, permission),
                    IndexShare(at, u, target, permission)], Success(Applied))
  {
    LocateOwned(cfg, system, tail);
  }

  /** Mkdir: the folder is created remotely under (system, user, path), then
      the returned handle is indexed for the acting user. */
  lemma MkdirRemoteThenIndex(cfg: Config, be: Backends, system: string, tail: string, name: string)
    requires '/' !in system && '/' !in cfg.username
    ensures var at := OwnedLoc(cfg, system, tail);
            var created := Loc(system, at.path + "/" + name);
            MkdirRun(cfg, be, OwnedId(cfg, system, tail), name)
            == Run([RemoteMkdir(at, cfg.username, name), IndexFromRemote(cfg.username, created)], created)
  {
    LocateOwned(cfg, system, tail);
  }

  /** For every operation built on `MirrorRun`: the index is changed only after
      the remote change, and only if the remote handle was found. */
  lemma RemoteBeforeIndex(cfg: Config, be: Backends, at: Loc, remoteCall: Call, indexCall: Call)
    requires remoteCall.IsRemoteMutation() && !remoteCall.IsIndexMutation()
    requires indexCall.IsIndexMutation()
    ensures var run := MirrorRun(cfg, be, at, remoteCall, indexCall);
            && (indexCall in run.calls ==> run.calls[2] == remoteCall && run.calls[3] == indexCall)
            && (at !in be.remote ==> forall c :: c in run.calls ==> !c.IsMutation())
            && (run.result == Success(Applied) <==> at in be.remote && at in be.index)
  {
  }

  // ----- download and preview -----

  /** A file gets a forced temporary link. */
  lemma DownloadFileLinks(cfg: Config, be: Backends, system: string, tail: string)
    requires '/' !in system && '/' !in cfg.username
    requires OwnedLoc(cfg, system, tail) in be.remote && be.remote[OwnedLoc(cfg, system, tail)].kind == File
    ensures var at := OwnedLoc(cfg, system, tail);
            DownloadRun(cfg, be, OwnedId(cfg, system, tail))
            == Run([RemoteLookup(at, cfg.username), CreatePostit(at, true)], Success(Some(at)))
  {
    LocateOwned(cfg, system, tail);
  }

  /** A folder never gets a temporary link. */
  lemma DownloadFolderNoLink(cfg: Config, be: Backends, fileId: string)
    requires Locate(cfg, fileId) in be.remote && be.remote[Locate(cfg, fileId)].kind == Dir
    ensures var run := DownloadRun(cfg, be, fileId);
            run.result == Success(None) && forall c :: c in run.calls ==> !c.CreatePostit?
  {
  }

  /** An image or document preview asks for an unforced temporary link. */
  lemma PreviewInlineLinks(cfg: Config, be: Backends, system: string, tail: string)
    requires '/' !in system && '/' !in cfg.username
    requires OwnedLoc(cfg, system, tail) in be.remote
    requires be.remote[OwnedLoc(cfg, system, tail)].ext == ".png" || be.remote[OwnedLoc(cfg, system, tail)].ext == ".pdf"
    ensures var at := OwnedLoc(cfg, system, tail);
            PreviewRun(cfg, be, OwnedId(cfg, system, tail))
            == Run([RemoteLookup(at, cfg.username), CreatePostit(at, false)], Success(InlineLink))
  {
    LocateOwned(cfg, system, tail);
  }

  /** A text preview streams the content. */
  lemma PreviewTextStreams(cfg: Config, be: Backends, system: string, tail: string)
    requires '/' !in system && '/' !in cfg.username
    requires OwnedLoc(cfg, system, tail) in be.remote && be.remote[OwnedLoc(cfg, system, tail)].ext == ".json"
    ensures var at := OwnedLoc(cfg, system, tail);
            PreviewRun(cfg, be, OwnedId(cfg, system, tail))
            == Run([RemoteLookup(at, cfg.username), RemoteDownload(at)], Success(Streamed))
  {
    LocateOwned(cfg, system, tail);
  }

  /** An unrecognised extension gets no preview and no temporary link. */
  lemma PreviewUnsupportedNoLink(cfg: Config, be: Backends, system: string, tail: string)
    requires '/' !in system && '/' !in cfg.username
    requires OwnedLoc(cfg, system, tail) in be.remote && be.remote[OwnedLoc(cfg, system, tail)].ext == ".asdf"
    ensures var at := OwnedLoc(cfg, system, tail);
            PreviewRun(cfg, be, OwnedId(cfg, system, tail))
            == Run([RemoteLookup(at, cfg.username)], Success(NoPreview))
  {
    LocateOwned(cfg, system, tail);
  }

  /** For every identifier: an unsupported extension never leads to a temporary link. */
  lemma PreviewNeverLinksUnsupported(cfg: Config, be: Backends, fileId: string)
    requires Locate(cfg, fileId) in be.remote && KindOf(be.remote[Locate(cfg, fileId)].ext) == Unsupported
    ensures forall c :: c in PreviewRun(cfg, be, fileId).calls ==> !c.CreatePostit?
  {
  }

  // ----- move to trash -----

  /** The trash lookups for an entry `name` inside `dirs` of the user's home. */
  lemma TrashOfOwned(cfg: Config, system: string, dirs: string, name: string)
    requires '/' !in system && '/' !in cfg.username && '/' !in name
    ensures var fileId := OwnedId(cfg, system, dirs + "/" + name);
            && ParseFileId(fileId, cfg.username, cfg.defaultSystem).system == system
            && TrashOf(cfg, fileId) == Loc(system, cfg.username + "/.Trash")
            && TrashSlot(cfg, fileId) == Loc(system, cfg.username + "/.Trash/" + name)
            && Last(Split(ParseFileId(fileId, cfg.username, cfg.defaultSystem).path, '/')) == name
  {
    var tail := dirs + "/" + name;
    LocateOwned(cfg, system, tail);
    assert cfg.username + "/" + tail == (cfg.username + "/" + dirs) + "/" + name;
    SplitLast(cfg.username + "/" + dirs, name, '/');
  }

  /** A trash identifier is `<system>/<user>/.Trash/<name>`, and it stays on `system`. */
  lemma TrashIdOnSystem(cfg: Config, system: string, name: string)
    requires '/' !in system
    ensures TrashId(cfg, system, name) == system + "/" + cfg.username + "/.Trash/" + name
    ensures ParseFileId(TrashId(cfg, system, name), cfg.username, cfg.defaultSystem).system == system
  {
    var u := cfg.username;
    var b := system + "/";
    var a := b + u;
    assert "/" + TrashFolder + "/" == "/.Trash/";
    ConcatAssoc(a, "/", TrashFolder);
    ConcatAssoc(a, "/" + TrashFolder, "/");
    var rest := u + "/" + TrashFolder + "/" + name;
    ConcatAssoc(b, u + "/" + TrashFolder + "/", name);
    ConcatAssoc(b, u + "/" + TrashFolder, "/");
    ConcatAssoc(b, u + "/", TrashFolder);
    ConcatAssoc(b, u, "/");
    ParseUnderSystem(system, rest, u, cfg.defaultSystem);
  }

  /** No name collision: the trash, then `.Trash/<name>`, are looked up in the
      index, then the entry is moved to `<system>/<user>/.Trash/<name>`. */
  lemma TrashWithoutCollision(cfg: Config, be: Backends, system: string, dirs: string, name: string,
                              stamp: string)
    requires '/' !in system && '/' !in cfg.username && '/' !in name
    requires Loc(system, cfg.username + "/.Trash") in be.index
    requires Loc(system, cfg.username + "/.Trash/" + name) !in be.index
    ensures var fileId := OwnedId(cfg, system, dirs + "/" + name);
            var u := cfg.username;
            var move := MoveRun(cfg, be, fileId, cfg.resource, system + "/" + u + "/.Trash/" + name);
            MoveToTrashRun(cfg, be, fileId, stamp)
            == Run([IndexLookup(Loc(system, u + "/.Trash"), u), IndexLookup(Loc(system, u + "/.Trash/" + name), u)]
                   + move.calls, move.result)
  {
    TrashOfOwned(cfg, system, dirs, name);
    TrashIdOnSystem(cfg, system, name);
  }

  /** A name collision: after the same two lookups the entry is renamed to a
      name other than its own, and then moved into the trash under that name,
      so the move target differs from `.Trash/<name>`. */
  lemma TrashWithCollision(cfg: Config, be: Backends, system: string, dirs: string, name: string,
                           stamp: string)
    requires '/' !in system && '/' !in cfg.username && '/' !in name
    requires Loc(system, cfg.username + "/.Trash") in be.index
    requires Loc(system, cfg.username + "/.Trash/" + name) in be.index
    requires OwnedLoc(cfg, system, dirs + "/" + name) in be.remote
    requires OwnedLoc(cfg, system, dirs + "/" + name) in be.index
    ensures var fileId := OwnedId(cfg, system, dirs + "/" + name);
            var u := cfg.username;
            var newName := TrashName(name, be.index[Loc(system, u + "/.Trash/" + name)].ext, stamp);
            var target := system + "/" + u + "/.Trash/" + newName;
            var move := MoveRun(cfg, be, fileId, cfg.resource, target);
            && newName != name
            && target != system + "/" + u + "/.Trash/" + name
            && MoveToTrashRun(cfg, be, fileId, stamp)
               == Run([IndexLookup(Loc(system, u + "/.Trash"), u), IndexLookup(Loc(system, u + "/.Trash/" + name), u)]
                      + RenameRun(cfg, be, fileId, newName).calls + move.calls, move.result)
  {
    TrashOfOwned(cfg, system, dirs, name);
    LocateOwned(cfg, system, dirs + "/" + name);
    var u := cfg.username;
    var newName := TrashName(name, be.index[Loc(system, u + "/.Trash/" + name)].ext, stamp);
    TrashIdOnSystem(cfg, system, name);
    TrashIdOnSystem(cfg, system, newName);
    var prefix := system + "/" + u + "/.Trash/";
    assert (prefix + newName)[|prefix|..] == newName;
    assert (prefix + name)[|prefix|..] == name;
  }

  /** A missing trash is created first, as `.Trash` under the user's home, and
      the folder created is exactly the one the lookup missed. */
  lemma TrashCreatedWhenMissing(cfg: Config, be: Backends, fileId: string, stamp: string)
    requires '/' !in cfg.defaultSystem && '/' !in cfg.username
    requires TrashOf(cfg, fileId) !in be.index
    ensures var u := cfg.username;
            var trash := TrashOf(cfg, fileId);
            var home := Loc(trash.system, u);
            MoveToTrashRun(cfg, be, fileId, stamp).calls[..3]
            == [IndexLookup(trash, u), RemoteMkdir(home, u, ".Trash"), IndexFromRemote(u, trash)]
  {
    var system := ParseFileId(fileId, cfg.username, cfg.defaultSystem).system;
    ParseUnderSystem(system, cfg.username, cfg.username, cfg.defaultSystem);
    SplitWithout(cfg.username, '/');
  }

  /** The final move of `move_to_trash` stays on the entry's own system and
      resource, so it is never refused. */
  lemma TrashMoveNeverRefused(cfg: Config, be: Backends, fileId: string, stamp: string)
    requires '/' !in cfg.defaultSystem
    ensures MoveToTrashRun(cfg, be, fileId, stamp).result != Failure(MoveNotSupported)
  {
    var f := ParseFileId(fileId, cfg.username, cfg.defaultSystem);
    var name := Last(Split(f.path, '/'));
    TrashIdOnSystem(cfg, f.system, name);
    var slot := TrashSlot(cfg, fileId);
    if slot in be.index {
      TrashIdOnSystem(cfg, f.system, TrashName(name, be.index[slot].ext, stamp));
    }
  }

  /** A rename that fails stops `move_to_trash` before any move: whether the
      remote lookup missed the entry, or the remote rename was already issued
      and the index missed it, the failure is returned and nothing is moved. */
  lemma TrashRenameFailureStops(cfg: Config, be: Backends, fileId: string, stamp: string)
    requires TrashSlot(cfg, fileId) in be.index
    requires var name := Last(Split(ParseFileId(fileId, cfg.username, cfg.defaultSystem).path, '/'));
             RenameRun(cfg, be, fileId, TrashName(name, be.index[TrashSlot(cfg, fileId)].ext, stamp)).result.Failure?
    ensures var name := Last(Split(ParseFileId(fileId, cfg.username, cfg.defaultSystem).path, '/'));
            var rename := RenameRun(cfg, be, fileId, TrashName(name, be.index[TrashSlot(cfg, fileId)].ext, stamp));
            var run := MoveToTrashRun(cfg, be, fileId, stamp);
            && run.result == rename.result
            && run.calls == TrashProbes(cfg, be, fileId) + rename.calls
            && forall c :: c in run.calls ==> !c.RemoteMove? && !c.IndexMove?
  {
  }
}
