/**
 * The list and string logic of the published-data page controller: related
 * entities, user details, user filtering, display names, shift-click range
 * selection and the citation author strings.
 *
 * The page reads the project either from the current listing (when the
 * listing carries a project id) or from the separately fetched publication.
 * A publication that has not arrived is `None`; reading from it throws.
 */
module Published {
  import opened Wrappers
  import opened Strings

  /** A JavaScript exception raised by a property read on `undefined`. */
  datatype Thrown = TypeError

  datatype User = User(username: string, firstName: string, lastName: string, email: string)

  /** An entity a project lists (an event, a model configuration, ...): the
      uuids of the entities it is associated with. */
  datatype Related = Related(uuid: string, associationIds: seq<string>)

  /** A project description: its users and its entity lists by attribute name. */
  datatype Source = Source(users: seq<User>, entities: map<string, seq<Related>>)

  datatype Browser = Browser(projectId: string, listing: Source, publication: Option<Source>)

  /** Where the page reads the project from: the listing when it has a
      (non-empty) project id, the publication otherwise. */
  function SourceOf(b: Browser): Option<Source>
  {
    if b.projectId != "" then Some(b.listing) else b.publication
  }

  /** `source[attrib]`; an attribute the source lacks lists nothing. */
  function EntitiesOf(s: Source, attrib: string): seq<Related>
  {
    if attrib in s.entities then s.entities[attrib] else []
  }

  predicate Distinct(xs: seq<string>)
  {
    forall i, j :: 0 <= i < j < |xs| ==> xs[i] != xs[j]
  }

  // ----- generic filter -----

  /** `_.filter(xs, p)`. */
  function Filter<T(==,!new)>(xs: seq<T>, p: T -> bool): (r: seq<T>)
    ensures |r| <= |xs|
  {
    if xs == [] then []
    else (if p(xs[0]) then [xs[0]] else []) + Filter(xs[1..], p)
  }

  /** `_.filter` keeps exactly the elements that satisfy the predicate. */
  lemma {:induction false} FilterMembers<T(!new)>(xs: seq<T>, p: T -> bool)
    ensures forall x :: x in Filter(xs, p) <==> x in xs && p(x)
    decreases |xs|
  {
    if xs != [] {
      FilterMembers(xs[1..], p);
      assert xs == [xs[0]] + xs[1..];
    }
  }

  /** Filtering keeps the order: it distributes over concatenation. */
  lemma {:induction false} FilterConcat<T(!new)>(a: seq<T>, b: seq<T>, p: T -> bool)
    ensures Filter(a + b, p) == Filter(a, p) + Filter(b, p)
    decreases |a|
  {
    if a != [] {
      assert (a + b)[0] == a[0];
      assert (a + b)[1..] == a[1..] + b;
      FilterConcat(a[1..], b, p);
      var head := if p(a[0]) then [a[0]] else [];
      assert Filter(a, p) == head + Filter(a[1..], p);
      assert Filter(a + b, p) == head + Filter(a[1..] + b, p);
      ConcatAssoc(head, Filter(a[1..], p), Filter(b, p));
    } else {
      assert a + b == b;
    }
  }

  /** A filter that keeps every element gives back the sequence. */
  lemma {:induction false} FilterAll<T(!new)>(xs: seq<T>, p: T -> bool)
    requires forall x :: x in xs ==> p(x)
    ensures Filter(xs, p) == xs
    decreases |xs|
  {
    if xs != [] {
      assert forall x :: x in xs[1..] ==> x in xs;
      FilterAll(xs[1..], p);
    }
  }

  /** A filter that keeps no element gives the empty sequence. */
  lemma {:induction false} FilterNone<T(!new)>(xs: seq<T>, p: T -> bool)
    requires forall x :: x in xs ==> !p(x)
    ensures Filter(xs, p) == []
    decreases |xs|
  {
    if xs != [] {
      assert forall x :: x in xs[1..] ==> x in xs;
      FilterNone(xs[1..], p);
    }
  }

  // ----- getRelated -----

  /** `_.intersection(a, b)`: the distinct elements of `a` that are in `b`,
      in the order of their first occurrence in `a`. */
  function Intersection(a: seq<string>, b: seq<string>): (r: seq<string>)
    ensures |r| <= |a|
    ensures forall x :: x in r <==> x in a && x in b
  {
    if a == [] then []
    else
      var front := Intersection(a[..|a| - 1], b);
      var x := a[|a| - 1];
      assert a == a[..|a| - 1] + [x];
      if x in b && x !in front then front + [x] else front
  }

  lemma DistinctSnoc(xs: seq<string>, x: string)
    ensures Distinct(xs + [x]) <==> Distinct(xs) && x !in xs
  {
    var ys := xs + [x];
    if Distinct(ys) {
      forall i, j | 0 <= i < j < |xs| ensures xs[i] != xs[j] {
        assert ys[i] == xs[i] && ys[j] == xs[j];
      }
      forall i | 0 <= i < |xs| ensures xs[i] != x {
        assert ys[i] == xs[i] && ys[|xs|] == x;
      }
    }
  }

  /** The intersection is as long as `a` iff `a` has no repeats and all of it is in `b`. */
  lemma {:induction false} IntersectionFull(a: seq<string>, b: seq<string>)
    ensures |Intersection(a, b)| == |a| <==> Distinct(a) && forall x :: x in a ==> x in b
    decreases |a|
  {
    if a != [] {
      var front := a[..|a| - 1];
      var x := a[|a| - 1];
      assert a == front + [x];
      IntersectionFull(front, b);
      DistinctSnoc(front, x);
      var f := Intersection(front, b);
      if |f| == |front| {
        assert forall y :: y in front ==> y in b;
        assert forall y :: y in f <==> y in front;
      }
    }
  }

  /** `_.isString(uuids) ? [uuids] : uuids`. */
  datatype Uuids = One(uuid: string) | Many(uuids: seq<string>)

  function UuidList(u: Uuids): seq<string>
  {
    match u
    case One(s) => [s]
    case Many(xs) => xs
  }

  /** The test `getRelated` applies to one entity. */
  predicate Matches(uuids: seq<string>, ent: Related)
  {
    |Intersection(uuids, ent.associationIds)| == |uuids|
  }

  /** The entities of `ents` that `getRelated` keeps for `uuids`. */
  function RelatedIn(ents: seq<Related>, uuids: seq<string>): (r: seq<Related>)
    ensures forall ent :: ent in r <==> ent in ents && Matches(uuids, ent)
  {
    var keep := (ent: Related) => Matches(uuids, ent);
    FilterMembers(ents, keep);
    Filter(ents, keep)
  }

  /** `$scope.getRelated(attrib, uuids)`. */
  function GetRelated(b: Browser, attrib: string, uuids: Uuids): (r: Result<seq<Related>, Thrown>)
    ensures r.Failure? <==> SourceOf(b).None?
    ensures r.Success? ==> r.value == RelatedIn(EntitiesOf(SourceOf(b).value, attrib), UuidList(uuids))
    ensures r.Success? ==>
              forall ent :: ent in r.value <==>
                ent in EntitiesOf(SourceOf(b).value, attrib) && Distinct(UuidList(uuids))
                && forall u :: u in UuidList(uuids) ==> u in ent.associationIds
  {
    match SourceOf(b)
    case None => Failure(TypeError)
    case Some(s) =>
      RelatedKeeps(EntitiesOf(s, attrib), UuidList(uuids));
      Success(RelatedIn(EntitiesOf(s, attrib), UuidList(uuids)))
  }

  /** `getRelated` keeps exactly the entities associated with every uuid, and
      only when the uuids have no repeats. */
  lemma RelatedKeeps(ents: seq<Related>, uuids: seq<string>)
    ensures forall ent :: ent in RelatedIn(ents, uuids) <==>
              ent in ents && Distinct(uuids) && forall u :: u in uuids ==> u in ent.associationIds
  {
    forall ent: Related
      ensures Matches(uuids, ent) <==> Distinct(uuids) && forall u :: u in uuids ==> u in ent.associationIds
    {
      IntersectionFull(uuids, ent.associationIds);
    }
  }

  /** A uuid list with a repeat matches nothing. */
  lemma RelatedRepeatsMatchNothing(ents: seq<Related>, uuids: seq<string>)
    requires !Distinct(uuids)
    ensures RelatedIn(ents, uuids) == []
  {
    forall ent: Related ensures !Matches(uuids, ent) {
      IntersectionFull(uuids, ent.associationIds);
    }
    FilterNone(ents, (ent: Related) => Matches(uuids, ent));
  }

  /** A single uuid, passed as a string, keeps the entities associated with it. */
  lemma RelatedOne(ents: seq<Related>, uuid: string)
    ensures forall ent :: ent in RelatedIn(ents, UuidList(One(uuid))) <==> ent in ents && uuid in ent.associationIds
  {
    RelatedKeeps(ents, [uuid]);
  }

  /** An empty uuid list keeps every entity. */
  lemma RelatedNoUuids(ents: seq<Related>)
    ensures RelatedIn(ents, []) == ents
  {
    FilterAll(ents, (ent: Related) => Matches([], ent));
  }

  /** `getRelated` keeps the entities in their listed order. */
  lemma RelatedKeepsOrder(a: seq<Related>, b: seq<Related>, uuids: seq<string>)
    ensures RelatedIn(a + b, uuids) == RelatedIn(a, uuids) + RelatedIn(b, uuids)
  {
    FilterConcat(a, b, (ent: Related) => Matches(uuids, ent));
  }

  // ----- getUserDets and filterUsers -----

  /** `_.find(users, usr => usr.username === username)`. */
  function FindUser(users: seq<User>, username: string): Option<User>
  {
    if users == [] then None
    else if users[0].username == username then Some(users[0])
    else FindUser(users[1..], username)
  }

  /** `_.find` returns the first user with the name. */
  lemma {:induction false} FindUserFirst(users: seq<User>, username: string, i: nat)
    requires i < |users| && users[i].username == username
    requires forall j :: 0 <= j < i ==> users[j].username != username
    ensures FindUser(users, username) == Some(users[i])
    decreases i
  {
    if i > 0 {
      FindUserFirst(users[1..], username, i - 1);
    }
  }

  /** What `_.find` returns is the first user with the name. */
  lemma {:induction false} FindUserFound(users: seq<User>, username: string)
    requires FindUser(users, username).Some?
    ensures exists i :: 0 <= i < |users| && users[i] == FindUser(users, username).value
              && users[i].username == username
              && forall j :: 0 <= j < i ==> users[j].username != username
    decreases |users|
  {
    if users[0].username != username {
      var rest := users[1..];
      FindUserFound(rest, username);
      var k :| 0 <= k < |rest| && rest[k] == FindUser(rest, username).value
                && rest[k].username == username
                && forall j :: 0 <= j < k ==> rest[j].username != username;
      assert users[k + 1] == rest[k];
      forall j | 0 <= j < k + 1 ensures users[j].username != username {
        if j > 0 { assert users[j] == rest[j - 1]; }
      }
    }
  }

  /** `_.find` returns `undefined` exactly when no user has the name. */
  lemma {:induction false} FindUserNone(users: seq<User>, username: string)
    ensures FindUser(users, username).None? <==> forall u :: u in users ==> u.username != username
    decreases |users|
  {
    if users != [] {
      FindUserNone(users[1..], username);
      assert users == [users[0]] + users[1..];
    }
  }

  /** `"last, first"`, the form a user takes in citations. */
  function AuthorName(u: User): string
  {
    u.lastName + ", " + u.firstName
  }

  /** `$scope.getUserDets(username, noEmail)`: `Success(None)` is `undefined`. */
  function GetUserDets(b: Browser, username: string, noEmail: bool): (r: Result<Option<string>, Thrown>)
    ensures r.Failure? <==> SourceOf(b).None?
    ensures r.Success? ==>
              (r.value.None? <==> forall u :: u in SourceOf(b).value.users ==> u.username != username)
    ensures r.Success? && r.value.Some? ==>
              var users := SourceOf(b).value.users;
              exists i :: 0 <= i < |users| && users[i].username == username
                && (forall j :: 0 <= j < i ==> users[j].username != username)
                && r.value.value
                   == (if noEmail then AuthorName(users[i]) else AuthorName(users[i]) + " <" + users[i].email + ">")
  {
    match SourceOf(b)
    case None => Failure(TypeError)
    case Some(s) =>
      FindUserNone(s.users, username);
      if FindUser(s.users, username).Some? then FindUserFound(s.users, username); GetUserDetsOf(s.users, username, noEmail)
      else GetUserDetsOf(s.users, username, noEmail)
  }

  /** The user part of `getUserDets`, once the users are known. */
  function GetUserDetsOf(users: seq<User>, username: string, noEmail: bool): Result<Option<string>, Thrown>
  {
    match FindUser(users, username)
    case None => Success(None)
    case Some(u) =>
      if !noEmail then Success(Some(u.lastName + ", " + u.firstName + " <" + u.email + ">"))
      else Success(Some(u.lastName + ", " + u.firstName))
  }

  /** `getUserDets` describes the first user with the name. */
  lemma GetUserDetsFirst(b: Browser, username: string, noEmail: bool, i: nat)
    requires SourceOf(b).Some?
    requires var users := SourceOf(b).value.users;
             i < |users| && users[i].username == username
             && forall j :: 0 <= j < i ==> users[j].username != username
    ensures var u := SourceOf(b).value.users[i];
            GetUserDets(b, username, noEmail)
            == Success(Some(if noEmail then AuthorName(u) else AuthorName(u) + " <" + u.email + ">"))
  {
    FindUserFirst(SourceOf(b).value.users, username, i);
  }

  /** `$scope.filterUsers(usernames, users)`. */
  function FilterUsers(usernames: seq<string>, users: seq<User>): (r: seq<User>)
    ensures forall u :: u in r <==> u in users && u.username in usernames
  {
    var keep := (u: User) => u.username in usernames;
    FilterMembers(users, keep);
    Filter(users, keep)
  }

  /** `filterUsers` keeps the users' order. */
  lemma FilterUsersKeepsOrder(usernames: seq<string>, a: seq<User>, b: seq<User>)
    ensures FilterUsers(usernames, a + b) == FilterUsers(usernames, a) + FilterUsers(usernames, b)
  {
    FilterConcat(a, b, (u: User) => u.username in usernames);
  }

  // ----- renderName -----

  /** A published file's metadata; `projectTitle` is `None` when the metadata
      has no project, `experimentTitles` lists its experiments' titles. */
  datatype Metadata = Metadata(projectTitle: Option<string>, experimentTitles: seq<string>)

  /** A listed file; `metadata` is `None` when it is missing, `null` or `{}`. */
  datatype PubFile = PubFile(name: string, path: string, metadata: Option<Metadata>)

  predicate Absolute(path: string)
  {
    |path| > 0 && path[0] == '/'
  }

  /** `$scope.renderName(file)`. */
  function RenderName(file: PubFile): (r: Result<string, Thrown>)
    ensures file.metadata.None? ==> r == Success(file.name)
    ensures r.Failure? ==> file.metadata.Some? && |Split(file.path, '/')| == 2
    ensures r.Success? ==>
              r.value == file.name
              || (file.metadata.Some?
                  && (file.metadata.value.projectTitle == Some(r.value)
                      || r.value in file.metadata.value.experimentTitles))
  {
    match file.metadata
    case None => Success(file.name)
    case Some(m) =>
      var comps := Split(file.path, '/');
      if Absolute(file.path) && |comps| == 2 then
        if m.projectTitle.Some? then Success(m.projectTitle.value) else Failure(TypeError)
      else if !Absolute(file.path) && |comps| == 2 && "experiment" <= Lower(file.name) then
        if |m.experimentTitles| > 0 then Success(m.experimentTitles[0]) else Failure(TypeError)
      else Success(file.name)
  }

  /** A top-level entry `/<project>` shows the project's title. */
  lemma RenderNameProject(file: PubFile, rest: string)
    requires file.path == "/" + rest && '/' !in rest
    requires file.metadata.Some? && file.metadata.value.projectTitle.Some?
    ensures RenderName(file) == Success(file.metadata.value.projectTitle.value)
  {
    SplitPrefix("", rest, '/');
    SplitWithout(rest, '/');
    assert "" + "/" + rest == file.path;
  }

  /** An entry `<dir>/<name>` named `experiment...` (in any case) shows the
      first experiment's title. */
  lemma RenderNameExperiment(file: PubFile, dir: string, rest: string)
    requires file.path == dir + "/" + rest && dir != "" && '/' !in dir && '/' !in rest
    requires "experiment" <= Lower(file.name)
    requires file.metadata.Some? && |file.metadata.value.experimentTitles| > 0
    ensures RenderName(file) == Success(file.metadata.value.experimentTitles[0])
  {
    SplitPrefix(dir, rest, '/');
    SplitWithout(rest, '/');
    assert file.path[0] == dir[0];
    assert dir[0] in dir;
  }

  /** Any other entry `<dir>/<name>` shows its own name, even with metadata. */
  lemma RenderNameRelativeOther(file: PubFile, dir: string, rest: string)
    requires file.path == dir + "/" + rest && dir != "" && '/' !in dir && '/' !in rest
    requires !("experiment" <= Lower(file.name))
    ensures RenderName(file) == Success(file.name)
  {
    SplitPrefix(dir, rest, '/');
    SplitWithout(rest, '/');
    assert file.path[0] == dir[0];
    assert dir[0] in dir;
  }

  /** An entry whose path does not hold exactly one `/` shows its own name. */
  lemma RenderNameOtherwise(file: PubFile)
    requires Occurrences(file.path, '/') != 1
    ensures RenderName(file) == Success(file.name)
  {
    SplitInTwo(file.path, '/');
  }

  // ----- onSelect -----

  datatype ClickEvent = ClickEvent(ctrlKey: bool, metaKey: bool, shiftKey: bool)

  /** What the click asks the browser service to do; `reset` replaces the
      current selection. */
  datatype SelectAction<T> = Select(files: seq<T>, reset: bool) | Deselect(files: seq<T>)

  /** `Array.prototype.indexOf`. */
  function IndexOf<T(==)>(xs: seq<T>, x: T): (i: int)
    ensures -1 <= i < |xs|
    ensures i == -1 <==> x !in xs
    ensures i >= 0 ==> xs[i] == x && x !in xs[..i]
  {
    if xs == [] then -1
    else if xs[0] == x then 0
    else
      var j := IndexOf(xs[1..], x);
      if j == -1 then -1
      else
        assert xs[..j + 1] == [xs[0]] + xs[1..][..j];
        j + 1
  }

  function Min(a: int, b: int): int { if a <= b then a else b }

  function Max(a: int, b: int): int { if a >= b then a else b }

  /** `Array.prototype.slice(start, end)`: a negative bound counts from the end. */
  function Slice<T>(xs: seq<T>, start: int, end: int): (r: seq<T>)
    ensures |r| <= |xs|
    ensures forall x :: x in r ==> x in xs
    ensures 0 <= start <= end <= |xs| ==> r == xs[start..end]
    ensures end <= start && 0 <= end ==> r == []
    ensures exists lo, hi :: 0 <= lo <= hi <= |xs| && r == xs[lo..hi]
  {
    var s := if start < 0 then Max(|xs| + start, 0) else Min(start, |xs|);
    var e := if end < 0 then Max(|xs| + end, 0) else Min(end, |xs|);
    if s < e then xs[s..e]
    else
      assert [] == xs[0..0];
      []
  }

  /** `$scope.onSelect($event, file)`; `uiSelected` is `file._ui.selected`
      (false when `file._ui` is absent). */
  function OnSelect<T(==)>(ev: ClickEvent, file: T, uiSelected: bool, selected: seq<T>, children: seq<T>)
    : (act: SelectAction<T>)
    ensures act.Deselect? <==>
              if ev.ctrlKey || ev.metaKey then file in selected
              else !(ev.shiftKey && |selected| > 0) && uiSelected
    ensures act.Deselect? ==> act.files == [file]
    ensures act.Select? && act.reset <==>
              !ev.ctrlKey && !ev.metaKey && !(ev.shiftKey && |selected| > 0) && !uiSelected
    ensures act.Select? && act.reset ==> act.files == [file]
    ensures act.Select? ==> forall f :: f in act.files ==> f == file || f in children
  {
    if ev.ctrlKey || ev.metaKey then
      if IndexOf(selected, file) > -1 then Deselect([file]) else Select([file], false)
    else if ev.shiftKey && |selected| > 0 then
      var lastIndex := IndexOf(children, selected[|selected| - 1]);
      var fileIndex := IndexOf(children, file);
      Select(Slice(children, Min(lastIndex, fileIndex), Max(lastIndex, fileIndex) + 1), false)
    else if uiSelected then Deselect([file])
    else Select([file], true)
  }

  /** Shift-click between two listed files selects every child from one to the
      other, both included, whichever comes first. */
  lemma ShiftRange<T>(ev: ClickEvent, file: T, uiSelected: bool, selected: seq<T>, children: seq<T>, a: int, b: int)
    requires !ev.ctrlKey && !ev.metaKey && ev.shiftKey && |selected| > 0
    requires selected[|selected| - 1] in children && file in children
    requires a == IndexOf(children, selected[|selected| - 1]) && b == IndexOf(children, file)
    ensures OnSelect(ev, file, uiSelected, selected, children) == Select(children[Min(a, b)..Max(a, b) + 1], false)
    ensures file in children[Min(a, b)..Max(a, b) + 1] && selected[|selected| - 1] in children[Min(a, b)..Max(a, b) + 1]
  {
    ShiftSelects(ev, file, uiSelected, selected, children, a, b);
    RangeBetween(children, a, b);
  }

  /** The shift branch of `onSelect`, between the indexes of the last selected
      file and of the clicked one. */
  lemma ShiftSelects<T>(ev: ClickEvent, file: T, uiSelected: bool, selected: seq<T>, children: seq<T>, a: int, b: int)
    requires !ev.ctrlKey && !ev.metaKey && ev.shiftKey && |selected| > 0
    requires a == IndexOf(children, selected[|selected| - 1]) && b == IndexOf(children, file)
    ensures OnSelect(ev, file, uiSelected, selected, children) == Select(Slice(children, Min(a, b), Max(a, b) + 1), false)
  {
  }

  /** The slice between two valid indexes holds both of their elements. */
  lemma RangeBetween<T>(xs: seq<T>, a: int, b: int)
    requires 0 <= a < |xs| && 0 <= b < |xs|
    ensures Slice(xs, Min(a, b), Max(a, b) + 1) == xs[Min(a, b)..Max(a, b) + 1]
    ensures xs[a] in xs[Min(a, b)..Max(a, b) + 1] && xs[b] in xs[Min(a, b)..Max(a, b) + 1]
  {
    var lo := Min(a, b);
    var range := xs[lo..Max(a, b) + 1];
    assert range[a - lo] == xs[a];
    assert range[b - lo] == xs[b];
  }

  /** Shift-click when the last selected file is not in the listing: the slice
      starts at the last child, so only a click on the last child (first found
      there) selects anything. */
  lemma ShiftFromUnlisted<T>(ev: ClickEvent, file: T, uiSelected: bool, selected: seq<T>, children: seq<T>)
    requires !ev.ctrlKey && !ev.metaKey && ev.shiftKey && |selected| > 0
    requires selected[|selected| - 1] !in children
    ensures OnSelect(ev, file, uiSelected, selected, children)
         == Select(if |children| > 0 && IndexOf(children, file) == |children| - 1 then [file] else [], false)
  {
    var b := IndexOf(children, file);
    ShiftSelects(ev, file, uiSelected, selected, children, -1, b);
    SliceFromLast(children, b);
  }

  /** The slice from index `-1` to a found or missing index `b`. */
  lemma SliceFromLast<T>(xs: seq<T>, b: int)
    requires -1 <= b < |xs|
    ensures Slice(xs, Min(-1, b), Max(-1, b) + 1) == if |xs| > 0 && b == |xs| - 1 then [xs[b]] else []
  {
    if |xs| > 0 && b == |xs| - 1 {
      assert xs[|xs| - 1..|xs|] == [xs[b]];
    }
  }

  /** Ctrl- or meta-click toggles the clicked file. */
  lemma CtrlToggles<T>(ev: ClickEvent, file: T, uiSelected: bool, selected: seq<T>, children: seq<T>)
    requires ev.ctrlKey || ev.metaKey
    ensures OnSelect(ev, file, uiSelected, selected, children)
         == if file in selected then Deselect([file]) else Select([file], false)
  {
  }

  // ----- showCitation -----

  /** The citation's entity: its type name and, for non-project entities, its authors. */
  datatype Citable = Citable(name: string, authors: seq<string>)

  /** The users credited for `ent`: the project's PI and co-PIs for the project
      itself and its analysis, the entity's authors otherwise, in the users' order. */
  function Publishers(users: seq<User>, pi: string, coPis: seq<string>, ent: Citable): (r: seq<User>)
    ensures ent.name == "designsafe.project" || ent.name == "designsafe.project.analysis" ==>
              forall u :: u in r <==> u in users && (u.username in coPis || u.username == pi)
    ensures ent.name != "designsafe.project" && ent.name != "designsafe.project.analysis" ==>
              forall u :: u in r <==> u in users && u.username in ent.authors
  {
    var keep := (u: User) =>
      if ent.name == "designsafe.project" || ent.name == "designsafe.project.analysis"
      then u.username in coPis || u.username == pi
      else u.username in ent.authors;
    FilterMembers(users, keep);
    Filter(users, keep)
  }

  function AuthorNames(users: seq<User>): (names: seq<string>)
    ensures |names| == |users|
  {
    seq(|users|, i requires 0 <= i < |users| => AuthorName(users[i]))
  }

  /** The loop building the BibTeX/Endnote and the IEEE author strings. */
  method BuildAuthorStrings(publishers: seq<User>) returns (authors: string, ieeeAuthors: string)
    ensures authors == Join(AuthorNames(publishers), " and ")
    ensures ieeeAuthors == Join(AuthorNames(publishers), "; ")
  {
    authors := "";
    ieeeAuthors := "";
    ghost var names := AuthorNames(publishers);
    var n := |publishers|;
    for index := 0 to n
      invariant index == 0 ==> authors == "" && ieeeAuthors == ""
      invariant 0 < index < n ==> authors == Join(names[..index], " and ") + " and "
      invariant 0 < index < n ==> ieeeAuthors == Join(names[..index], "; ") + "; "
      invariant index == n && n > 0 ==> authors == Join(names, " and ") && ieeeAuthors == Join(names, "; ")
    {
      var str := publishers[index].lastName + ", " + publishers[index].firstName;
      assert names[..index + 1] == names[..index] + [str];
      if index > 0 {
        JoinSnoc(names[..index], str, " and ");
        JoinSnoc(names[..index], str, "; ");
      }
      if index < n - 1 {
        authors := authors + str + " and ";
        ieeeAuthors := ieeeAuthors + str + "; ";
      } else {
        authors := authors + str;
        ieeeAuthors := ieeeAuthors + str;
        assert names[..index + 1] == names;
      }
    }
  }

  /** The author string has no trailing separator: it is the earlier authors
      joined, the separator, and the last author. */
  lemma AuthorsEndWithLast(publishers: seq<User>, sep: string)
    requires |publishers| >= 2
    ensures var names := AuthorNames(publishers);
            Join(names, sep)
            == Join(names[..|names| - 1], sep) + sep + AuthorName(publishers[|publishers| - 1])
  {
    var names := AuthorNames(publishers);
    assert names == names[..|names| - 1] + [names[|names| - 1]];
    JoinSnoc(names[..|names| - 1], names[|names| - 1], sep);
  }
}
