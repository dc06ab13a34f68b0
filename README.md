# DesignSafe portal data core, in Dafny

This project models four pieces of the DesignSafe portal's data layer and proves properties about them.

- **The Agave file manager.** It resolves opaque file identifiers (`"<system>/<owner>/<path>"`) and runs each file operation against two backends: the remote Agave storage system and the Elasticsearch search index. The implementation of the manager is not part of this model. What is modelled is the contract its mock-based test suite pins, call by call. Branches the tests do not reach are modelling choices, listed under "## Left out":
  - listing: index first, remote as fallback;
  - copy: within one system, across systems by an import job, or to another resource by delegation;
  - move: refused across systems;
  - move to trash;
  - delete, rename, share and mkdir: remote call first, then index call;
  - download and preview: whether a temporary link is issued.

  The backends are represented by what their lookups answer (`Backends`). The manager (`FileManagers.FileManager`) keeps an ordered log of every call it makes. Each method is proved to append exactly the calls of a pure specification function (`CopyRun`, `MoveToTrashRun`, ...). The test-shaped lemmas in `FileManagerProperties` then state, for every identifier of the shape the tests use, the exact call sequence and outcome.
- **The `index_job_outputs` task.** When a job status event says `INDEXING`, the task saves every entry of the job's archive walk to the index, in walk order. Then it saves the archive folder and each of its ancestors, dropping one path component at a time. Finally it sets the event status to `FINISHED`. `IndexTasks.IndexJobOutputs` keeps both loops. It is proved against `AncestorDocs`, and lemmas describe the ancestor chain.
- **The workspace `Apps` service.** `formSchema` turns an application description into a form schema. `list` merges options into shared defaults, and later calls inherit them. `AppsService.FormSchema` keeps the `_.each` loops and the type `switch`. It is proved against the `Assign` specification of repeated `properties[id] = field` assignments. Lemmas give the key set and last-duplicate-wins behaviour.
- **The published-data page controller.** This covers `getRelated`, `getUserDets`, `filterUsers`, `renderName`, the click-selection logic of `onSelect`, the citation author strings (a loop) and the in-place rewrite of published file objects (classes over mutable objects). Lodash's `_.filter`, `_.find` and `_.intersection` and JavaScript's `indexOf` and `slice` are written out with their own semantics. This includes the deduplication done by `_.intersection`, and negative `slice` bounds.

The files:

- `wrappers.dfy`: `Option` and `Result`.
- `strings.dfy`: `split`/`join` and their round trips.
- `file_ids.dfy`: `parse_file_id` and `is_shared`.
- `file_manager.dfy` and `file_manager_props.dfy`: the file manager and its test-pinned properties.
- `index_tasks.dfy`: the job-output indexing task.
- `apps_service.dfy`: the `Apps` service.
- `published.dfy` and `published_files.dfy`: the published-data page controller.

Where the intended behaviour and the test suite differ, the model follows the tests:

- The final move of `move_to_trash` is issued with the original identifier, even after a rename (`test_filemanager.py:453`, `:496`). It is not issued with the renamed entry's identifier.
- The trash folder lives under the acting user's home. The tests use the acting user for both the owner and the caller, so the two cannot be told apart.
- The parsed path keeps the owner segment: `"sys/alice/a"` has path `"alice/a"`.

Observations on the sources:

- The second `test_preview_object_file` (test_filemanager.py:562) redefines the first one (:542). The `.pdf` case is therefore never run by the suite. The model still follows it.
- The move-target inequality checks at test_filemanager.py:455 and :498 compare against the unformatted literal `'%s/.Trash/file.txt'`, so they hold vacuously. `FileManagerProperties.TrashWithCollision` states the intended inequality: the target differs from `<system>/<user>/.Trash/<name>`.
- A shift-click whose last selected file is not in the current listing is computed with index `-1`. `slice` then starts at the last child, so the click selects nothing unless it is on the last child (`Published.ShiftFromUnlisted`).

## Model

| member | source | states |
|---|---|---|
| FileIds.ParseFileId | designsafe/apps/api/data/agave/tests/test_filemanager.py:94-100 | the empty identifier resolves to the default system and the user's own root; otherwise the system is the first segment and holds no `/`, a bare system name resolves to the user's root on that system, and the owner segment of an identifier with a `/` holds no `/` |
| FileIds.ParseBareSystem | designsafe/apps/api/data/agave/tests/test_filemanager.py:94-100 | a non-empty identifier without `/` names a system: the user's own root on it |
| FileIds.ParseThreeSegments | designsafe/apps/api/data/agave/tests/test_filemanager.py:71-92 | `"sys/owner/tail"` parses to `sys`, `owner` and path `"owner/tail"`: the path keeps the owner segment |
| FileIds.ParseUnderSystem | designsafe/apps/api/data/agave/tests/test_filemanager.py:71-92 | `system + "/" + rest` parses to that system, the first segment of `rest` as owner, and `rest` as path |
| FileIds.FormatParse | designsafe/apps/api/data/agave/tests/test_filemanager.py:71-92 | every identifier holding a `/` is the formatted form of its parse, and that parse is well formed |
| FileIds.ParseFormat | designsafe/apps/api/data/agave/tests/test_filemanager.py:71-92 | parsing the formatted form of a well-formed parse gives back its system, owner and path |
| FileIds.IsSharedIff | designsafe/apps/api/data/agave/tests/test_filemanager.py:49-69 | `is_shared` is false exactly when the owner segment is the acting user, for files and folders alike, and false for the empty identifier |
| FileIds.IsShared | designsafe/apps/api/data/agave/tests/test_filemanager.py:49-69 | an identifier without `/` is never shared; otherwise it is shared exactly when its second segment is not the acting user |
| FileManagers.TrashName | designsafe/apps/api/data/agave/tests/test_filemanager.py:445-447 | the disambiguated trash name always differs from the original name |
| FileManagers.FileManager.Listing | designsafe/apps/api/data/agave/tests/test_filemanager.py:106-127 | logs the index listing with (system, user, path), then the remote listing of (system, path) only when the index listed nothing; returns that listing |
| FileManagers.FileManager.Copy | designsafe/apps/api/data/agave/tests/test_filemanager.py:132-225 | logs exactly the calls of `CopyRun` (lookup of the source, then native copy, import job, delegation or failure) and returns its outcome |
| FileManagers.FileManager.Move | designsafe/apps/api/data/agave/tests/test_filemanager.py:300-383 | logs exactly the calls of `MoveRun` (nothing when refused) and returns its outcome |
| FileManagers.FileManager.Delete | designsafe/apps/api/data/agave/tests/test_filemanager.py:230-250 | logs the remote delete, then the recursive index delete, after both lookups |
| FileManagers.FileManager.Rename | designsafe/apps/api/data/agave/tests/test_filemanager.py:606-626 | logs the remote rename, then the index rename for the acting user |
| FileManagers.FileManager.Share | designsafe/apps/api/data/agave/tests/test_filemanager.py:631-652 | logs the remote share, then the index share with the acting user as grantor |
| FileManagers.FileManager.Mkdir | designsafe/apps/api/data/agave/tests/test_filemanager.py:583-601 | logs the remote mkdir of (system, user, path, name), then indexes the created folder; returns its location |
| FileManagers.FileManager.Download | designsafe/apps/api/data/agave/tests/test_filemanager.py:255-292 | logs the lookup, and a forced temporary link only for a file |
| FileManagers.FileManager.Preview | designsafe/apps/api/data/agave/tests/test_filemanager.py:502-578 | logs the lookup, then an unforced link for images and documents, a download for text, nothing otherwise |
| FileManagers.FileManager.MoveToTrash | designsafe/apps/api/data/agave/tests/test_filemanager.py:390-498 | logs exactly the calls of `MoveToTrashRun`: trash lookup, mkdir of a missing trash, slot lookup, rename on collision, move of the original id |
| FileManagerProperties.LocateOwned | designsafe/apps/api/data/agave/tests/test_filemanager.py:71-92 | an identifier `"sys/user/tail"` names location (sys, `"user/tail"`) |
| FileManagerProperties.ListingFallsBackToRemote | designsafe/apps/api/data/agave/tests/test_filemanager.py:106-116 | an empty index listing is followed by the remote listing of exactly (system, path), which is returned |
| FileManagerProperties.ListingServedByIndex | designsafe/apps/api/data/agave/tests/test_filemanager.py:118-127 | the index is queried with (system, user, path) and a non-empty answer is returned |
| FileManagerProperties.ListingRemoteIffIndexEmpty | designsafe/apps/api/data/agave/tests/test_filemanager.py:106-127 | for every identifier the index is asked first, the remote is listed iff the index listed nothing, and no mutating call among the modelled calls is issued |
| FileManagerProperties.CopyWithinSystem | designsafe/apps/api/data/agave/tests/test_filemanager.py:132-156 | same resource and system: remote and index lookups, then the remote copy and the index copy to the destination path without its system |
| FileManagerProperties.CopyAcrossSystems | designsafe/apps/api/data/agave/tests/test_filemanager.py:159-179 | same resource, other system: one import job on the destination system and path, ingesting `agave://` plus the source id |
| FileManagerProperties.CopyToOtherResource | designsafe/apps/api/data/agave/tests/test_filemanager.py:184-202 | the registered manager of the other resource is asked to import (destination id, own resource, source id) |
| FileManagerProperties.CopyToUnknownResource | designsafe/apps/api/data/agave/tests/test_filemanager.py:207-225 | an unregistered resource fails after only the source lookup |
| FileManagerProperties.CopyUnknownChangesNothing | designsafe/apps/api/data/agave/tests/test_filemanager.py:207-225 | for every identifier, copying to an unregistered resource fails and makes no mutating call |
| FileManagerProperties.MoveWithinSystem | designsafe/apps/api/data/agave/tests/test_filemanager.py:300-325 | lookups, then the remote move and the index move for the acting user to the destination path |
| FileManagerProperties.MoveAcrossSystemsRefused | designsafe/apps/api/data/agave/tests/test_filemanager.py:332-383 | another system, under any resource: refused with no call at all |
| FileManagerProperties.DeleteRemoteThenIndex | designsafe/apps/api/data/agave/tests/test_filemanager.py:230-250 | delete on the remote handle, then recursive delete on the index document |
| FileManagerProperties.RenameRemoteThenIndex | designsafe/apps/api/data/agave/tests/test_filemanager.py:606-626 | rename remotely to the new name, then in the index for the acting user |
| FileManagerProperties.ShareRemoteThenIndex | designsafe/apps/api/data/agave/tests/test_filemanager.py:631-652 | share remotely with the target user and permission, then in the index |
| FileManagerProperties.MkdirRemoteThenIndex | designsafe/apps/api/data/agave/tests/test_filemanager.py:583-601 | remote mkdir under (system, user, path), then the created folder indexed |
| FileManagerProperties.RemoteBeforeIndex | designsafe/apps/api/data/agave/tests/test_filemanager.py:230-250 | an index change only ever follows its remote change; a remote miss changes nothing; success iff both handles exist |
| FileManagerProperties.DownloadFileLinks | designsafe/apps/api/data/agave/tests/test_filemanager.py:255-271 | a file gets a temporary link with `force=True` |
| FileManagerProperties.DownloadFolderNoLink | designsafe/apps/api/data/agave/tests/test_filemanager.py:275-292 | a folder never gets a temporary link |
| FileManagerProperties.PreviewInlineLinks | designsafe/apps/api/data/agave/tests/test_filemanager.py:502-560 | a `.png` or `.pdf` preview asks for a link with `force=False` after the lookup, and nothing else |
| FileManagerProperties.PreviewTextStreams | designsafe/apps/api/data/agave/tests/test_filemanager.py:522-540 | a `.json` preview downloads the content |
| FileManagerProperties.PreviewUnsupportedNoLink | designsafe/apps/api/data/agave/tests/test_filemanager.py:562-578 | a `.asdf` preview makes no call beyond the lookup |
| FileManagerProperties.PreviewNeverLinksUnsupported | designsafe/apps/api/data/agave/tests/test_filemanager.py:562-578 | for every identifier, an unsupported extension never gets a link |
| FileManagerProperties.TrashOfOwned | designsafe/apps/api/data/agave/tests/test_filemanager.py:405-408 | for `"sys/user/dirs/name"` the trash is `"user/.Trash"` and the slot `"user/.Trash/name"` on `sys` |
| FileManagerProperties.TrashIdOnSystem | designsafe/apps/api/data/agave/tests/test_filemanager.py:412 | a trash target is `"sys/user/.Trash/name"` and stays on `sys` |
| FileManagerProperties.TrashWithoutCollision | designsafe/apps/api/data/agave/tests/test_filemanager.py:390-412 | two index lookups (trash, then slot), then the move of the original id to `"sys/user/.Trash/name"` |
| FileManagerProperties.TrashWithCollision | designsafe/apps/api/data/agave/tests/test_filemanager.py:418-498 | after the same lookups, a rename to a name other than the original, then a move of the original id to a target other than `.Trash/name` |
| FileManagerProperties.TrashCreatedWhenMissing | designsafe/apps/api/data/agave/tests/test_filemanager.py:387-401 | a missing trash is created as `.Trash` under the user's home and indexed, right after its lookup |
| FileManagerProperties.TrashMoveNeverRefused | designsafe/apps/api/data/agave/tests/test_filemanager.py:412 | the final move stays on the entry's own system and resource, so it is never refused |
| FileManagerProperties.TrashRenameFailureStops | designsafe/apps/api/data/agave/tests/test_filemanager.py:418-457 | any failure of the collision rename (a missed remote lookup, or a missed index entry after the remote rename) is the result of `move_to_trash`; the calls are the trash probes and the rename's own calls, and no move is issued |
| IndexTasks.SearchIndex.Save | designsafe/apps/data/tasks.py:44-45 | saving appends the document to the index |
| IndexTasks.IndexJobOutputs | designsafe/apps/data/tasks.py:20-61 | unless the status is `INDEXING` and the owner is a known user nothing changes; otherwise the walk, then one document per ancestor folder on the archive system (from the archive folder up, one component dropped at a time), are appended in order and the status becomes `FINISHED` |
| IndexTasks.AncestorPaths | designsafe/apps/data/tasks.py:47-54 | the ancestor loop indexes one folder per component of the split archive path |
| IndexTasks.AncestorCount | designsafe/apps/data/tasks.py:47-48 | the loop runs once more than the archive path has `/` |
| IndexTasks.FirstAncestorIsArchive | designsafe/apps/data/tasks.py:47-50 | the first folder indexed is the archive path itself |
| IndexTasks.AncestorComponents | designsafe/apps/data/tasks.py:48-54 | iteration `i` indexes the folder whose components are the first `n - i` components |
| IndexTasks.AncestorDropsLast | designsafe/apps/data/tasks.py:49-54 | each later folder is the previous one with its last component dropped |
| IndexTasks.AncestorIsPrefix | designsafe/apps/data/tasks.py:47-54 | every folder indexed is a prefix of the archive path |
| IndexTasks.AbsoluteEndsAtRoot | designsafe/apps/data/tasks.py:47-54 | for an absolute archive path the last folder indexed is the empty path |
| Strings.Split | designsafe/apps/data/tasks.py:47 | a split has at least one part and no part holds the separator |
| Strings.JoinSplit | designsafe/apps/data/tasks.py:47-49 | joining a split with its separator gives back the string |
| Strings.SplitJoin | designsafe/apps/data/tasks.py:47-54 | splitting a join of separator-free parts gives back the parts |
| Strings.SplitCount | designsafe/apps/data/tasks.py:47-48 | a split has one more part than the string has separators |
| Strings.JoinPrefix | designsafe/apps/data/tasks.py:49-54 | joining a prefix of the parts gives a prefix of the joined string |
| Strings.SplitInTwo | designsafe/static/scripts/data-depot/controllers/published.js:185-191 | a path splits into exactly two parts iff it holds exactly one `/` |
| Strings.Lower | designsafe/static/scripts/data-depot/controllers/published.js:192 | lower-casing keeps the length and lower-cases every character |
| AppsService.FieldTypeOf | designsafe/apps/workspace/static/designsafe/apps/workspace/scripts/services/apps-service.js:57-78 | `bool` and `flag` map to `boolean`, `number` to `number`, everything else (enumerations included) to `string` |
| AppsService.EnumKeys | designsafe/apps/workspace/static/designsafe/apps/workspace/scripts/services/apps-service.js:65-67 | the `enum` list has one entry per enumeration object, its first key, in order |
| AppsService.BuildParamField | designsafe/apps/workspace/static/designsafe/apps/workspace/scripts/services/apps-service.js:53-78 | the field built by the `switch` copies the title and description from the details, takes the type `FieldTypeOf` maps to, and has an `enum` list (the `EnumKeys` of the enumeration) exactly for enumerations; it equals the reference `ParamField` the schema lemmas use |
| AppsService.ParameterProperties | designsafe/apps/workspace/static/designsafe/apps/workspace/scripts/services/apps-service.js:52-80 | the loop builds the object of the assignments `properties[param.id] = field`, in order |
| AppsService.InputProperties | designsafe/apps/workspace/static/designsafe/apps/workspace/scripts/services/apps-service.js:89-96 | the loop builds the object of the assignments `properties[input.id] = field`, in order |
| AppsService.FormSchema | designsafe/apps/workspace/static/designsafe/apps/workspace/scripts/services/apps-service.js:28-100 | type `object` and the job name field always; a parameters (inputs) section iff the list, missing counting as empty, is non-empty, holding the assigned fields |
| AppsService.AssignKeys | designsafe/apps/workspace/static/designsafe/apps/workspace/scripts/services/apps-service.js:79 | the assigned keys are exactly the keys of the assignments |
| AppsService.AssignLastWins | designsafe/apps/workspace/static/designsafe/apps/workspace/scripts/services/apps-service.js:79 | a key holds the field of its last assignment |
| AppsService.ParameterKeys | designsafe/apps/workspace/static/designsafe/apps/workspace/scripts/services/apps-service.js:46-80 | the parameters section has exactly one property per parameter id |
| AppsService.ParameterLastWins | designsafe/apps/workspace/static/designsafe/apps/workspace/scripts/services/apps-service.js:52-79 | a later parameter with the same id overwrites an earlier one |
| AppsService.InputFields | designsafe/apps/workspace/static/designsafe/apps/workspace/scripts/services/apps-service.js:83-97 | one property per input id; each is a string field with the label and description of the last input carrying that id |
| AppsService.Extend | designsafe/apps/workspace/static/designsafe/apps/workspace/scripts/services/apps-service.js:12 | `_.extend`: every key of the options with their value, every other default kept |
| AppsService.Apps.List | designsafe/apps/workspace/static/designsafe/apps/workspace/scripts/services/apps-service.js:10-18 | the options (absent counting as `{}`) are merged into the shared defaults, which are returned; the call is recorded in the history, and the defaults stay equal to `DefaultsAfter` of the history |
| AppsService.ListInherits | designsafe/apps/workspace/static/designsafe/apps/workspace/scripts/services/apps-service.js:7-12 | after any sequence of `list` calls (the history `Apps.List` keeps), a key holds the value of the last call that passed it |
| AppsService.ListAbsent | designsafe/apps/workspace/static/designsafe/apps/workspace/scripts/services/apps-service.js:7-12 | a key other than `publicOnly` that no call passed is absent from the defaults |
| AppsService.PublicOnlyDefault | designsafe/apps/workspace/static/designsafe/apps/workspace/scripts/services/apps-service.js:7-9 | `publicOnly` is `false` until some call passes it |
| Published.FilterMembers | designsafe/static/scripts/data-depot/controllers/published.js:208-212 | `_.filter` keeps exactly the elements satisfying the predicate |
| Published.FilterConcat | designsafe/static/scripts/data-depot/controllers/published.js:236-238 | filtering keeps the order: it distributes over concatenation |
| Published.FilterAll | designsafe/static/scripts/data-depot/controllers/published.js:208-212 | a filter that keeps every element gives back the sequence |
| Published.FilterNone | designsafe/static/scripts/data-depot/controllers/published.js:208-212 | a filter that keeps no element gives the empty sequence |
| Published.Intersection | designsafe/static/scripts/data-depot/controllers/published.js:209 | `_.intersection` holds exactly the elements of the first list found in the second, no more of them |
| Published.IntersectionFull | designsafe/static/scripts/data-depot/controllers/published.js:209 | the intersection is as long as the uuid list iff the list has no repeats and lies within the associations |
| Published.RelatedIn | designsafe/static/scripts/data-depot/controllers/published.js:208-212 | the entities kept are exactly the listed ones whose `_.intersection` with the uuid list is as long as that list |
| Published.GetRelated | designsafe/static/scripts/data-depot/controllers/published.js:198-214 | throws exactly when the publication is needed and absent; otherwise an entity of the source is returned iff its uuid list has no repeats and it is associated with every uuid |
| Published.RelatedKeeps | designsafe/static/scripts/data-depot/controllers/published.js:208-212 | an entity is kept iff it is associated with every uuid and the uuids have no repeats |
| Published.RelatedRepeatsMatchNothing | designsafe/static/scripts/data-depot/controllers/published.js:209 | a uuid list with a repeat matches no entity |
| Published.RelatedOne | designsafe/static/scripts/data-depot/controllers/published.js:199-201 | a single uuid string keeps the entities associated with it |
| Published.RelatedNoUuids | designsafe/static/scripts/data-depot/controllers/published.js:208-212 | an empty uuid list keeps every entity |
| Published.RelatedKeepsOrder | designsafe/static/scripts/data-depot/controllers/published.js:208-212 | related entities come in their listed order |
| Published.FindUserFirst | designsafe/static/scripts/data-depot/controllers/published.js:223-225 | `_.find` returns the first user with the name |
| Published.FindUserFound | designsafe/static/scripts/data-depot/controllers/published.js:223-225 | a user `_.find` returns has the name, and no earlier user has it |
| Published.FindUserNone | designsafe/static/scripts/data-depot/controllers/published.js:223-226 | `_.find` returns nothing exactly when no user has the name |
| Published.GetUserDets | designsafe/static/scripts/data-depot/controllers/published.js:216-233 | throws iff the publication is needed and absent; `undefined` iff no user has the name; otherwise the details of the first user with the name, `"last, first <email>"`, or `"last, first"` with `noEmail` |
| Published.GetUserDetsFirst | designsafe/static/scripts/data-depot/controllers/published.js:218-232 | the details are those of the first user with the name |
| Published.FilterUsers | designsafe/static/scripts/data-depot/controllers/published.js:235-239 | keeps exactly the users whose username is listed |
| Published.FilterUsersKeepsOrder | designsafe/static/scripts/data-depot/controllers/published.js:235-239 | the users keep their original order |
| Published.RenderName | designsafe/static/scripts/data-depot/controllers/published.js:179-196 | without metadata the name; it throws only with metadata and a path of exactly one `/`; any other result is the name, the project title or an experiment title |
| Published.RenderNameProject | designsafe/static/scripts/data-depot/controllers/published.js:185-189 | `/<project>` shows the project title |
| Published.RenderNameExperiment | designsafe/static/scripts/data-depot/controllers/published.js:190-194 | `<dir>/<name>` with a name starting `experiment` in any case shows the first experiment's title |
| Published.RenderNameOtherwise | designsafe/static/scripts/data-depot/controllers/published.js:185-195 | a path without exactly one `/` shows the file's own name |
| Published.RenderNameRelativeOther | designsafe/static/scripts/data-depot/controllers/published.js:190-195 | `<dir>/<name>` whose name does not start with `experiment` shows the file's own name, metadata or not |
| Published.IndexOf | designsafe/static/scripts/data-depot/controllers/published.js:143 | `indexOf` is `-1` iff absent, else the first position holding the element |
| Published.Slice | designsafe/static/scripts/data-depot/controllers/published.js:155 | for any bounds, negative ones included, `slice` returns a contiguous run `xs[lo..hi]` of the list; with bounds `0 <= start <= end <= length` exactly the elements between them |
| Published.OnSelect | designsafe/static/scripts/data-depot/controllers/published.js:138-162 | a deselection is asked exactly for a ctrl/meta-click on a selected file, or a plain click on a file marked selected, and names only that file; a resetting selection exactly for a plain click on an unmarked file, and names only that file; every selected file is the clicked one or a listed child |
| Published.ShiftRange | designsafe/static/scripts/data-depot/controllers/published.js:149-155 | shift-click between two listed files selects the contiguous children from the lower to the higher index, both included |
| Published.ShiftFromUnlisted | designsafe/static/scripts/data-depot/controllers/published.js:150-155 | when the last selected file is not listed, only a click on the last child selects anything |
| Published.CtrlToggles | designsafe/static/scripts/data-depot/controllers/published.js:142-148 | ctrl- or meta-click deselects a selected file and selects an unselected one |
| Published.Publishers | designsafe/static/scripts/data-depot/controllers/published.js:386-393 | the project and its analysis credit the PI and co-PIs, other entities their authors |
| Published.BuildAuthorStrings | designsafe/static/scripts/data-depot/controllers/published.js:379-403 | the BibTeX/Endnote string is the publishers' `"last, first"` names, in order, joined by `" and "`, the IEEE string the same names joined by `"; "` |
| Published.AuthorsEndWithLast | designsafe/static/scripts/data-depot/controllers/published.js:396-402 | no trailing separator: the string is the earlier authors joined, one separator, and the last author |
| PublishedFiles.RewriteEntity | designsafe/static/scripts/data-depot/controllers/published.js:45-50 | every file object of the entity gets the published system, `READ`, and the project id prefixed once per occurrence; `files` is rebuilt from them |
| PublishedFiles.RewriteEntities | designsafe/static/scripts/data-depot/controllers/published.js:44-83 | the same over a sequence of entities, counting occurrences across all of them |
| PublishedFiles.RewritePublishedFiles | designsafe/static/scripts/data-depot/controllers/published.js:43-84 | nothing changes without a project id; with one every file object of the five lists is rewritten |
| PublishedFiles.OncePrefixedOnce | designsafe/static/scripts/data-depot/controllers/published.js:47 | an object listed once gets exactly `projectId + path` |
| PublishedFiles.RepeatAdd | designsafe/static/scripts/data-depot/controllers/published.js:47 | prefixing `m` times and then `n` times is prefixing `m + n` times |
| PublishedFiles.CountConcat | designsafe/static/scripts/data-depot/controllers/published.js:44-83 | occurrences add up over consecutive lists |
| PublishedFiles.CountPositive | designsafe/static/scripts/data-depot/controllers/published.js:44-83 | an object is counted iff it is listed |

## Left out

- The file manager's own source (`filemanager.py`) is not part of this model. Beyond what its test suite asserts, only the modelling choices listed below are modelled. Index-failure handling goes no further than `IndexMissing`, and there is no rollback.
- Backend state changes: the backends are the answers their lookups give, and the effects of the manager are its ordered call log. The calls do not change those answers. For example, the move that follows a trash rename is checked against the state before the rename.
- FileManagers.FileManager.Listing: skipping the remote listing when the index answers is a modelling choice; no test asserts it. The re-indexing of a remote fallback listing (the `AgaveIndexer.index` patch) is not asserted and is not modelled.
- FileManagers.TrashName: the tests pin only "differs from the original name". The timestamp or counter is a parameter (`stamp`), because the clock is not modelled.
- FileManagers.KindOf: only the extensions the tests pin are classified (`.png`, `.json`, `.pdf`). Every other extension counts as unsupported, because the full extension table is not part of this model.
- Test plumbing: mock setup, Agave client construction, OAuth refresh (test_filemanager.py:13-47) and fixture loading.
- tasks.py:
  - the Celery decorators, the Agave HTTP client, the Django user lookup and token refresh. The set of known users is a parameter, and so is the job record.
  - the internals of `fs_walk` and `get_folder_obj`, which are not part of this model. The walk is the sequence of index documents it yields.
  - the `generic_event` broadcast at tasks.py:57-58. That line names an undefined `username`, so after the status is set to `FINISHED` the task raises a `NameError`, which the `except` clause does not catch. The model ends at the status update.
- The `share` task (tasks.py:63-111): it is a thin wrapper over an unseen manager, and its notification code cannot run (undefined `self`, `request` and `job_owner`, and a missing comma).
- apps-service.js:
  - the `$http` and `djangoUrl` requests of `list` and `get`;
  - the `formSchema` branch for a string argument, which receives a promise.
  - The schema's properties are maps, so JavaScript's key insertion order is not modelled.
  - `opts || {}` is modelled for absent options only, not for other falsy values.
- published.js:
  - the modals, `$state` navigation, the publication fetch, the breadcrumbs and `href`s;
  - the derivation of `projId` from the path (lines 17-30), and the cover image fetch;
  - the BibTeX/Endnote templates, the citation download and the `DataBrowserService` and `FileListing` services. `onSelect` returns the selection request it would make, and each entity's `files` holds the file objects themselves, not `FileListing` wrappers.
- PublishedFiles.RewritePublishedFiles: the five `_.each` loops are one loop over the five lists concatenated in the page's order. Their effect is the same.
- Published.RenderName: `_.isEmpty` metadata, `null` metadata and missing metadata are one case. A project title that is missing from a present project is not distinguished.
- FileManagers.TrashProbes: creating a missing `.Trash` (a `mkdir` of `.Trash` under the user's home, then indexing it) is a modelling choice. The tests patch `FileManager.mkdir` (test_filemanager.py:387, :401), but every trash lookup answers with an entry, so the branch is never reached. FileManagerProperties.TrashCreatedWhenMissing states this choice.
- FileManagers.MirrorRun, FileManagers.DownloadRun, FileManagers.PreviewRun, FileManagers.CopyRun: a remote lookup that finds nothing ends the operation with `NotFound` and makes no further call. This is a modelling choice, because no test has the remote lookup answer `None`. The "a remote miss changes nothing" part of FileManagerProperties.RemoteBeforeIndex rests on it.
- FileIds.ParseFileId: the tests pin only the empty identifier and three-segment identifiers. The bare system name (the user's root on that system), the two-segment `sys/owner` identifier (path `owner`) and a leading `/` (an empty system) are modelling choices.
- FileManagers.FileManager.Preview: the `format` argument of `preview` is not modelled. Every test passes `'html'`, and none asserts anything that depends on it.
- Strings.Lower: ASCII case folding only.
- notifications.js and the two `urls.py` routing tables: UI wiring and routing only.
