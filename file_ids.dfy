/**
 * File identifiers of the Agave file manager: the opaque string
 * `"<system>/<owner>/<path...>"`, and its parsed form.  The path keeps the
 * owner segment: `"sys/alice/a/b"` names path `"alice/a/b"` on system `"sys"`.
 */
module FileIds {
  import opened Strings

  datatype FileId = FileId(system: string, owner: string, path: string)

  /** `parse_file_id` of a manager acting for `username`, with `defaultSystem`
      the configured home storage system.  The first segment is the system and
      everything after it the path, whose first segment is the owner; the parts
      an identifier leaves out are filled in: the empty identifier resolves to
      the user's own root on the home system, and a bare system name to the
      user's own root on that system. */
  function ParseFileId(id: string, username: string, defaultSystem: string): (f: FileId)
    ensures id == "" ==> f == FileId(defaultSystem, username, username)
    ensures id != "" ==> f.system == Split(id, '/')[0]
    ensures id != "" && '/' !in id ==> f.owner == username && f.path == username
    ensures id != "" ==> '/' !in f.system
    ensures '/' in id ==> '/' !in f.owner
  {
    var parts := Split(id, '/');
    SplitSingle(id, '/');
    if id == "" then FileId(defaultSystem, username, username)
    else if |parts| == 1 then FileId(parts[0], username, username)
    else FileId(parts[0], parts[1], Join(parts[1..], "/"))
  }

  /** The identifier string of a parsed file id. */
  function FormatFileId(f: FileId): string
  {
    f.system + "/" + f.path
  }

  /** A parsed id that some identifier string produces: system and owner are
      single segments and the path is the owner's root or lies under it. */
  predicate WellFormed(f: FileId)
  {
    && '/' !in f.system
    && '/' !in f.owner
    && (f.path == f.owner || f.owner + "/" <= f.path)
  }

  /** `is_shared`: the file belongs to someone other than the acting user. */
  predicate IsShared(id: string, username: string, defaultSystem: string): (shared: bool)
    ensures '/' !in id ==> !shared
    ensures '/' in id ==> |Split(id, '/')| >= 2 && (shared <==> Split(id, '/')[1] != username)
  {
    SplitSingle(id, '/');
    ParseFileId(id, username, defaultSystem).owner != username
  }

  /** An identifier whose first segment is a system splits into that system and the rest. */
  lemma ParseUnderSystem(system: string, rest: string, username: string, defaultSystem: string)
    requires '/' !in system
    ensures ParseFileId(system + "/" + rest, username, defaultSystem)
         == FileId(system, Split(rest, '/')[0], rest)
  {
    SplitPrefix(system, rest, '/');
    var parts := Split(system + "/" + rest, '/');
    assert parts[1..] == Split(rest, '/');
    JoinSplit(rest, '/');
  }

  /** A bare system name resolves to the user's own root on that system. */
  lemma ParseBareSystem(system: string, username: string, defaultSystem: string)
    requires system != "" && '/' !in system
    ensures ParseFileId(system, username, defaultSystem) == FileId(system, username, username)
  {
    JoinSplit(system, '/');
    SplitSingle(system, '/');
  }

  /** Every identifier that holds a `/` is the formatted form of its own parse,
      and that parse is well formed. */
  lemma FormatParse(id: string, username: string, defaultSystem: string)
    requires '/' in id
    ensures WellFormed(ParseFileId(id, username, defaultSystem))
    ensures FormatFileId(ParseFileId(id, username, defaultSystem)) == id
  {
    var parts := Split(id, '/');
    JoinSplit(id, '/');
    SplitSingle(id, '/');
    assert parts == [parts[0]] + parts[1..];
    JoinCons(parts[0], parts[1..], "/");
    var rest := parts[1..];
    if |rest| >= 2 {
      assert rest == [rest[0]] + rest[1..];
      JoinCons(rest[0], rest[1..], "/");
    }
  }

  /** Parsing a formatted well-formed id gives back its three components. */
  lemma ParseFormat(f: FileId, username: string, defaultSystem: string)
    requires WellFormed(f)
    ensures ParseFileId(FormatFileId(f), username, defaultSystem) == f
  {
    ParseUnderSystem(f.system, f.path, username, defaultSystem);
    if f.path == f.owner {
      SplitWithout(f.owner, '/');
    } else {
      assert f.path == f.owner + "/" + f.path[|f.owner| + 1..];
      SplitPrefix(f.owner, f.path[|f.owner| + 1..], '/');
    }
  }

  /** The shape the tests use: `"<system>/<owner>/<tail>"` parses to the system,
      the owner, and the path `"<owner>/<tail>"`. */
  lemma ParseThreeSegments(system: string, owner: string, tail: string,
                           username: string, defaultSystem: string)
    requires '/' !in system && '/' !in owner
    ensures ParseFileId(system + "/" + owner + "/" + tail, username, defaultSystem)
         == FileId(system, owner, owner + "/" + tail)
  {
    var f := FileId(system, owner, owner + "/" + tail);
    assert FormatFileId(f) == system + "/" + owner + "/" + tail;
    ParseFormat(f, username, defaultSystem);
  }

  /** `is_shared` is false exactly for the acting user's own files and folders,
      and false for the default (empty) identifier. */
  lemma IsSharedIff(f: FileId, username: string, defaultSystem: string)
    requires WellFormed(f)
    ensures IsShared(FormatFileId(f), username, defaultSystem) <==> f.owner != username
    ensures !IsShared("", username, defaultSystem)
  {
    ParseFormat(f, username, defaultSystem);
  }
}
