# panoptolite core, modelled in Dafny

This project models the logic core of the Moodle block `block_panoptolite`. The block links Moodle courses to folders and access groups on a Panopto video server, through two SOAP endpoints. The model has four parts:

- **Naming scheme** (`base_soap_client.dfy`). The strings that address remote entities from Moodle ids:
  - the user key `<instance>\<username>`;
  - the folder external id `course-id:<c>`;
  - the group external id `course-id:<c>_creators|_publishers|_viewers`;
  - the group display name `extgroup-course-id:<c>::<Role>`.

  Lemmas prove that each builder is injective (the user key for one instance), and that a course's three groups get three distinct ids.
- **Result classification** (`base_soap_client.dfy`). The class `SoapClient` holds the last result and the last request, as the PHP client does. `CallSoapMethod` sorts the transport's answer into fault, exception, void, value or empty named result. An empty named result returns null and leaves the last result in place. `SetResult` rewrites the last result.
  - The folders client (`folders_soap_client.dfy`) shapes each request and picks the answer out of the result, including the duplicate-name fault rewrite of `create_folder`.
  - The users client (`users_soap_client.dfy`) talks to `Remote.Panopto`. That class models the far end: accounts, access groups keyed by external id, and a fault oracle.
- **Listing and caching** (`lib_listing.dfy`, `lib_config.dfy`). The class `SessionCache` models the session cache. The model covers:
  - the refresh / cache-hit / AJAX-defer decision, and writing the cache only on success;
  - merging role-map and assigned folders by Id, dropping "My Folder";
  - choices built from folders;
  - grouping a user's recordings into a tree by folder name;
  - `plugin_configured` and `prune_folder_name`.
- **Enrolment reconciliation** (`lib_course.dfy`). Creating, deleting and filling a course's creators and viewers groups. `sync_user_enrollment` removes one user and adds them back. `sync_course_enrollments` removes the members of both groups from the viewers group, then adds every role holder back.

PHP values are the datatype `Php.Value`. `empty()` and loose `== null` are modelled separately, because they disagree on `"0"`. An ordered PHP array with string keys is `Assoc.Assoc`. Writing to a present key keeps that key's position.

The transport is not modelled. A folders-client operation is given the transport's answer (`Outcome`) as a parameter. A users-client operation asks the `Remote.Panopto` object, whose `faultFor` oracle decides which requests fail. The learning platform's role queries are inputs too: the course ids of a user's creator roles, a user's role ids, the assignable roles, and the users holding creator or viewer roles.

A folder name longer than 25 characters is shortened by cutting it after 16 to 24 characters, or after 22, and appending `"..."` (lib.php:174-188), so a shortened name is 19 to 27 characters long.

## Model

| member | source | states |
|---|---|---|
| Assoc.Put | lib.php:383-389 | `$a[$k] = $v`: a present key keeps its position and only its entry changes; a new key is appended |
| Assoc.PutGet | lib.php:383-389 | assignment keeps keys distinct, the key reads back the value, and other keys read as before |
| Php.Trim | lib.php:174 | `trim` strips the leading and trailing whitespace run and nothing else |
| Php.LastIndexOf | lib.php:181 | `strrpos` for one character: the last index holding it, or -1 |
| Php.Explode | lib.php:621 | `explode` gives at least one piece, and no piece contains the separator |
| BaseSoapClient.InstanceUsername | classes/soap/base_soap_client.php:264-267 | the user key is the instance, a backslash, then the username |
| BaseSoapClient.InstanceUsernameInjective | classes/soap/base_soap_client.php:264-267 | within one instance, equal user keys mean equal usernames |
| BaseSoapClient.InstanceFolderExternalId | classes/soap/base_soap_client.php:276-279 | the folder external id is `course-id:` followed by the course id |
| BaseSoapClient.FolderExternalIdInjective | classes/soap/base_soap_client.php:276-279 | distinct course ids give distinct folder external ids |
| BaseSoapClient.RoleWord | classes/soap/base_soap_client.php:289-307 | creator maps to `creators`, publisher to `publishers`, every other role to `viewers` |
| BaseSoapClient.InstanceGroupExternalId | classes/soap/base_soap_client.php:289-307 | the group external id is the folder external id, then `_creators`, `_publishers` or `_viewers` (default) |
| BaseSoapClient.GroupExternalIdInjective | classes/soap/base_soap_client.php:289-307 | a group external id determines its course id and its role word |
| BaseSoapClient.CourseGroupIdsDistinct | classes/soap/base_soap_client.php:289-307 | the creators, publishers and viewers groups of one course have three different external ids |
| BaseSoapClient.RoleTitle | classes/soap/base_soap_client.php:317-335 | creator maps to `Creators`, publisher to `Publishers`, every other role to `Viewers` |
| BaseSoapClient.InstanceGroupExternalName | classes/soap/base_soap_client.php:317-335 | the group name is `extgroup-course-id:`, the course id, `::`, then the role title |
| BaseSoapClient.GroupExternalNameInjective | classes/soap/base_soap_client.php:317-335 | a group name determines its course id and its role title |
| BaseSoapClient.Answered | classes/soap/base_soap_client.php:160-194 | a call's return value is never a non-null empty() value, and is null whenever the transport threw |
| BaseSoapClient.AfterCall | classes/soap/base_soap_client.php:160-194 | a non-null return is also the new last result; a failed last result is the thrown one, or the earlier one left in place |
| BaseSoapClient.SoapClient.constructor | classes/soap/base_soap_client.php:108-127 | a new client keeps its credentials, has no request, and reports success |
| BaseSoapClient.SoapClient.Result | classes/soap/base_soap_client.php:203-206 | `result()` is the last result |
| BaseSoapClient.SoapClient.Request | classes/soap/base_soap_client.php:228-231 | `request()` is the last request |
| BaseSoapClient.SoapClient.RequestFor | classes/soap/base_soap_client.php:152-158 | a call authenticates as the alternate user unless that name is empty(), otherwise as the API user |
| BaseSoapClient.SoapClient.SetResult | classes/soap/base_soap_client.php:241-244 | the last result becomes the given fault, and `success()` is false |
| BaseSoapClient.SoapClient.CallSoapMethod | classes/soap/base_soap_client.php:138-195 | an empty method name changes nothing and returns null. Otherwise the request is recorded. A fault or exception becomes the result and null is returned. A void response gives result null and success. An empty-object named result returns null and keeps the old result. Any other answer becomes the result and is returned |
| FoldersSoapClient.RewriteDuplicate | classes/soap/folders_soap_client.php:172-186 | only a SoapFault with exactly the null-sessionGroup fault string becomes the duplicate-name fault; the failure status is unchanged |
| FoldersSoapClient.FolderExternalIdsFaithful | classes/soap/folders_soap_client.php:237-240 | the external-id list has the course ids' length and order, and two entries agree exactly when their course ids do |
| FoldersSoapClient.ExternalIds | classes/soap/folders_soap_client.php:237-240 | the loop computes the folder external id of every course id, in order |
| FoldersSoapClient.FolderContextReply | classes/soap/folders_soap_client.php:244-247 | a folder lookup hands back null when the call threw, and otherwise only what a non-null answer carries |
| FoldersSoapClient.CreatorFoldersReply | classes/soap/folders_soap_client.php:211-216 | the creator-folder listing is null unless the answer reports a positive result count, and then it is `Results->Folder` |
| FoldersSoapClient.RecordingsReply | classes/soap/folders_soap_client.php:297-306 | a recording listing is null when the call gives nothing back, and an empty list when the count is not positive |
| FoldersSoapClient.GetFolders | classes/soap/folders_soap_client.php:133-149 | no call for an empty argument; otherwise the id list is sent and the folders of a successful answer are returned |
| FoldersSoapClient.CreateFolder | classes/soap/folders_soap_client.php:159-190 | no call for an empty name or course id. Otherwise `ProvisionExternalCourse` is sent with externalId `course-id:<c>`. A non-null answer is returned with success. On failure null is returned and the null-sessionGroup fault is rewritten to the duplicate-name fault |
| FoldersSoapClient.GetFoldersForUser | classes/soap/folders_soap_client.php:199-218 | no call for an empty username; the listing authenticates as the user; null on failure or zero results |
| FoldersSoapClient.GetFoldersByCourseIds | classes/soap/folders_soap_client.php:227-251 | no call for empty input; a scalar is wrapped; the mapped external ids and this instance's provider name are sent |
| FoldersSoapClient.GetRecordingsByFolderId | classes/soap/folders_soap_client.php:285-308 | no call for an empty folder id; otherwise the listing filtered by folder, with the reply shape of `RecordingsReply` |
| FoldersSoapClient.GetRecordingsByUsername | classes/soap/folders_soap_client.php:317-340 | no call for an empty username; the listing authenticates as the user, with the reply shape of `RecordingsReply` |
| FoldersSoapClient.SetFolderGroups | classes/soap/folders_soap_client.php:350-369 | no call for empty arguments. The access object is named and keyed `course-id:<c>`. The first reported folder is returned only when `Folder` is a non-empty array, and then it is shifted off the answer object that the last result shares; otherwise the last result is as the call left it |
| FoldersSoapClient.ShiftFolder | classes/soap/folders_soap_client.php:363-364 | `array_shift($result->Folder)` leaves the list without its first element and every other property as it was |
| UsersSoapClient.UserItem | classes/soap/users_soap_client.php:122-133 | an account record carries UserKey `<instance>\<username>`, SystemRole `None`, no UserId, and the user's email |
| UsersSoapClient.UserItems | classes/soap/users_soap_client.php:119-137 | one account record per user, in order |
| UsersSoapClient.UserKeys | classes/soap/users_soap_client.php:126 | the user key of each user, in order |
| UsersSoapClient.UserPayloads | classes/soap/users_soap_client.php:119-137 | the payload loop builds exactly one record per user, in order |
| UsersSoapClient.AccountFor | classes/soap/users_soap_client.php:80-103 | a user key that has an account is answered with that account's id |
| UsersSoapClient.CreateUser | classes/soap/users_soap_client.php:80-103 | on success the user's key has an account and its id is returned; on a fault nothing changes and null is returned |
| UsersSoapClient.CreateUsers | classes/soap/users_soap_client.php:112-146 | no call for no users. On a fault null is returned and no account is made. Otherwise every user has an account, and one record per user comes back, in order, carrying that account's id |
| UsersSoapClient.CreateGroupForCourse | classes/soap/users_soap_client.php:178-198 | no call for an empty course id. The group is named and keyed by course and role. On success the group exists with the given members. On a fault nothing changes |
| UsersSoapClient.GetGroup | classes/soap/users_soap_client.php:207-223 | no call for an empty id; a known id gives its group, an unknown one null |
| UsersSoapClient.GetUsersInGroup | classes/soap/users_soap_client.php:232-248 | no call for an empty id. A non-empty group gives a list of exactly its member ids. A fault, an unknown id or an empty group gives null |
| UsersSoapClient.DeleteGroup | classes/soap/users_soap_client.php:256-267 | no call for an empty id; on success the group and its members are gone, and other groups are kept |
| UsersSoapClient.AddUsersToGroup | classes/soap/users_soap_client.php:277-286 | the group is addressed by `instance_group_external_id(courseid, role)`, viewers by default; on success the ids are added; on a fault nothing changes |
| UsersSoapClient.RemoveUsersFromGroup | classes/soap/users_soap_client.php:296-305 | the group is addressed the same way, viewers by default; on success the ids are removed; on a fault nothing changes |
| LibConfig.PluginConfig | lib.php:49-63 | a first call answers the configuration exactly when host, instance, key and username are all non-empty, as `plugin_configured` (lib.php:143-158) tests |
| LibConfig.ConfigMemo.Get | lib.php:49-63 | with nothing stored, the settings are stored and answered only when complete; with something stored, that is answered unchecked and kept |
| LibConfig.IncompleteConfigStays | lib.php:49-63 | incomplete settings give null on the first call, and are then answered by every later call, because the stored object never compares equal to null |
| LibConfig.CompleteConfigStays | lib.php:49-63 | complete settings are answered by the first call and by every later one |
| LibConfig.PruneFolderName | lib.php:167-191 | an empty() name gives "". A trimmed name of at most 25 characters is returned. A longer one is cut at the last space among its first 25 characters when that space is past 15, otherwise after 22 characters, then `...` is appended (19 to 27 characters) |
| LibConfig.Shorten | lib.php:181-188 | a name over 25 characters is cut at its last space among the first 25 characters when that space is past position 15, else after 22 characters, and `"..."` is appended: 19 to 27 characters |
| LibListing.LastWithKey | lib.php:380-391 | the folder found is in the list, has the key and is admitted; when none is found, every folder with the key was skipped |
| LibListing.PutFoldersKeyed | lib.php:380-391 | filing folders by Id keeps Ids distinct and files each folder under its own Id |
| LibListing.PutFoldersGet | lib.php:380-391 | after filing folders by Id, a key holds the last admitted folder with that Id, or its earlier value |
| LibListing.MergedFoldersGet | lib.php:380-391 | the merge has no duplicate Ids; an Id holds the last assigned folder other than "My Folder", else the last role-map folder |
| LibListing.MergedFoldersMembers | lib.php:380-391 | every role-map folder's Id is kept, "My Folder" included. Every assigned folder other than "My Folder" is kept, and wins on a collision. No other Id appears |
| LibListing.FileFolders | lib.php:380-391 | one `foreach` that files folders by Id, skipping "My Folder" for the assigned list, computes the filing |
| LibListing.MergeFolders | lib.php:380-391 | filing the role-map folders and then the assigned folders, each only when present, computes the merge |
| LibListing.OptionsOfFolders | lib.php:423-426 | for folders filed by distinct Ids, the choices are those Ids in order, each with its folder's name |
| LibListing.FolderOptions | lib.php:423-426 | the choices loop computes `$options[$f->Id] = $f->Name` |
| LibListing.Filter | lib.php:535-544 | the recordings under a folder-name key are exactly the listed recordings with that key |
| LibListing.GroupedBranches | lib.php:535-544 | one branch per folder name. Each branch holds exactly that folder's recordings, in order, and takes its folder id and name from the first of them. Every recording has a branch |
| LibListing.GroupedPartition | lib.php:535-544 | the tree is a partition: each recording occurs in it exactly as often as in the listing |
| LibListing.AddRecordingFlatten | lib.php:535-544 | filing one recording adds exactly that recording to the tree's contents |
| LibListing.BuildTree | lib.php:535-544 | the tree-building loop computes the grouping |
| LibListing.FileRecording | lib.php:535-544 | one pass of the loop opens the recording's branch if it is new and appends the recording to it |
| LibListing.SessionCache.constructor | lib.php:123-134 | a new session cache is empty |
| LibListing.ErrorOf | lib.php:363-374 | the message of a failed last result, "" otherwise |
| LibListing.RolemapFolders | lib.php:355-366 | no role map, or no courses, gives no role-map folders, and neither does a thrown lookup |
| LibListing.RolemapResult | lib.php:355-366 | the role-map lookup leaves the last result alone when it makes no call |
| LibListing.AssignedFolders | lib.php:371-374 | an empty username or a thrown lookup gives no assigned folders |
| LibListing.AssignedResult | lib.php:371-374 | the assigned-folder lookup leaves the last result alone for an empty username |
| LibListing.RolemapLookup | lib.php:355-366 | the role-map lookup gives the role-map folders and last result, and reports the failure message only when a role map is configured |
| LibListing.AssignedLookup | lib.php:371-374 | the assigned-folder lookup gives the assigned folders and last result, and reports the failure message of the last result |
| LibListing.HealthyFetchHasNoError | lib.php:355-374 | a client without a pending failure, whose calls all return, reports no error |
| LibListing.ThrownLookupReportsError | lib.php:355-374 | a lookup that is made and throws with a non-empty message makes the error non-empty, so nothing is cached |
| LibListing.StaleFailureReported | lib.php:355-374 | with no role map and an empty username, no call is made, and a failure left by an earlier call is reported again |
| LibListing.FetchedFolders | lib.php:380-391 | a fetch's folders are filed by Id without duplicates |
| LibListing.FetchFolders | lib.php:355-391 | the fetch runs both lookups, appends each failure's message, and merges |
| LibListing.FolderObjectsForUser | lib.php:322-399 | Unless refreshing, a non-empty cached list is returned with no call. A miss defers, giving null, when ajaxfirstload is set outside AJAX. Otherwise the folders are fetched and merged, and cached only when the error message is empty() |
| LibListing.FolderOptionsForUser | lib.php:409-430 | no choices after an error or a deferral; otherwise the Id-to-name choices of the folders, in order, with distinct Ids |
| LibListing.RecordingsForFolder | lib.php:440-482 | An incomplete configuration or an empty folder id is reported with no call. Unless refreshing, any cached entry, even an empty one, is returned. A miss may defer. A failed fetch returns the message and keeps the cache. A successful one is cached and returned |
| LibListing.RecordingsForUser | lib.php:492-554 | the same policy for a user's recordings; a successful fetch is grouped into the tree, cached and returned |
| LibCourse.CreateCourseFolder | lib.php:298-312 | the provisioned folder, non-null exactly when the call's answer is, with success; null otherwise |
| LibCourse.FirstFolder | classes/soap/folders_soap_client.php:362-366 | a course-access answer reports no folder when the call threw |
| LibCourse.SetCourseFolder | lib.php:564-576 | true exactly when both ids are non-empty, the call did not fail, and it reported a folder |
| LibCourse.CreatedGroup | classes/soap/users_soap_client.php:178-198 | a created group carries the course's external id for the role and the id the service gave it |
| LibCourse.CreateCourseGroups | lib.php:242-263 | An empty course id gives `(null, null)` with no call. A creators failure gives `(null, null)` and viewers is not tried. A viewers failure gives `(creators, null)`. Otherwise both groups, with distinct ids |
| LibCourse.DeleteCourseGroups | lib.php:272-288 | deletes only non-empty ids, and a successful delete removes that id; no call when both are empty. The new state is given per argument: an empty id or a faulted delete keeps its entry, a successful delete removes the id and its group's members, and every other id and group is unchanged. The last result reports the viewers delete, or the creators delete when the viewers id is empty |
| LibCourse.Resynced | lib.php:602-643 | after the re-sync the user is a member exactly when kept, and no other member changes |
| LibCourse.ResyncedIgnoresPrior | lib.php:602-643 | the re-synced membership does not depend on prior membership, so re-syncing twice equals once |
| LibCourse.SyncUserEnrollment | lib.php:585-645 | Only the course's two groups can change, and only the user's own membership. A failed account call touches no group and no account; a successful one adds the user's account when it is missing. After a successful removal the user is back only with a creator role (creators) or an assignable non-creator role (viewers). A failed creators add stops there: both groups are as the removals left them. A service that never faults gives exactly that membership |
| LibCourse.ResyncUser | lib.php:602-643 | for the user's account id: only the course's two groups and only that id's membership change. After a successful removal the id is back only for a matching role. A failed creators add leaves both groups as the removals left them. Without faults the memberships are exactly the re-synced ones |
| LibCourse.ClearUser | lib.php:602-604 | the user leaves the creators group, then the viewers group; nothing else changes, each successful removal takes the user out, and a failed one leaves its group as it was |
| LibCourse.AddUserBack | lib.php:606-643 | nothing for no roles; groups only grow, and only by the user, and only for the matching role. A failed creators add returns with no group changed, before the viewers add. A creator is in the creators group when that add succeeds; a viewer is in the viewers group when the viewers add succeeds and any creators add before it did |
| LibCourse.Intersects | lib.php:622 | `array_intersect` is non-empty exactly when some element of the first list is in the second |
| LibCourse.Without | lib.php:636 | `array_diff` keeps exactly the elements of the first list not in the second, as a set of values |
| LibCourse.AccountIds | lib.php:700-706 | every listed key that has an account contributes its account id |
| LibCourse.DistinctUsersFaithful | lib.php:691-694 | Role holders made distinct by username: each username once, under a user with that username, every username of the listing present, skipped usernames left out |
| LibCourse.ByUsernameFiles | lib.php:691-694 | the filing loop's invariant: distinct usernames, each filed user from the listing, every unskipped username present |
| LibCourse.Distinct | lib.php:691-694 | the loop computes the distinct users; with the creators as skip list it is the viewers loop (lib.php:721-725) |
| LibCourse.UserIds | lib.php:703-706 | the `UserId` of each created record, in order |
| LibCourse.IdsOfAccounts | lib.php:703-707 | the collected ids name exactly the accounts of the sent users |
| LibCourse.ClearGroup | lib.php:665-676 | only the viewers group can change, and only shrink, because `remove_users_from_group` defaults to the viewers role. Without faults the listed group's members leave the viewers group |
| LibCourse.PutBack | lib.php:696-713 | Nothing for no users. Only the role's group changes, and only grows. The result is true exactly when there are no users or neither the `CreateUsers` call nor the add of the created accounts faults; false leaves a failed last result and the groups unchanged. Success means the accounts are exactly the old ones plus one for each user, and the group gained exactly those accounts |
| LibCourse.SyncCourseEnrollments | lib.php:656-744 | Only the course's two groups change, and the creators group never loses a member. The result is true exactly when both filling steps succeed, whatever the clearing calls did, so a service that faults no account or add call gives true; false leaves a failed last result. True means the accounts are exactly the old ones plus one for every creator-role and viewer-role user. A failed creators step stops before the viewers step: the creators group is unchanged, the viewers group only lost members, and no viewer account is made. True means every creator-role account is in the creators group and every other viewer-role account is in the viewers group. With no faults the creators group gains exactly the creator accounts, and with a viewers group id naming the viewers group, that group holds exactly the viewer accounts |
| LibCourse.ClearGroups | lib.php:665-676 | the two clearing steps take members out of the viewers group only; without faults, and with a viewers group id naming the viewers group, it ends empty |
| LibCourse.FillGroups | lib.php:677-744 | the creators step, then the viewers step only if the creators step succeeded; true exactly when both succeed, and then every creator and viewer has an account and no other account was made; a failed creators step changes no group |

## Left out

- The SOAP transport (WSDL, XML envelopes, `__soapCall`). Every call's answer is a parameter, or comes from the `Remote.Panopto` object. The far end modelled by `Remote.Panopto` is an assumption about the service. So is its deterministic `faultFor` oracle, which makes a given request always fail or always succeed.
- The authentication parameter and its SHA1 token (`classes/soap/auth_soap_param.php`), and `idpauth.php`, which is not part of this model.
- `classes/soap/list_folders_soap_param.php` is not part of this model. Its defaults are written out in `FoldersSoapClient.ListFoldersParam`.
- `classes/soap/list_recordings_soap_param.php` is not part of this model. `FoldersSoapClient.ListRecordingsParam` stands for it as an object carrying only the `FolderId`.
- Strings are sequences of characters, one character per byte: `strlen`, `substr` and `trim` are modelled on bytes, with no multibyte encoding.
- The Moodle database and role APIs (`get_user_roles`, `get_assignable_roles`, `get_role_users`, `get_courses_for_user_by_roles`, `get_config`), and `handle_role_event`. Their results are inputs.
- The client and session-cache singletons of `lib.php` are explicit parameters; the configuration singleton is `LibConfig.ConfigMemo`. The current `$USER` default is also left out: the username is a parameter.
- `error_log` calls in the sync operations are not modelled. They have no effect the model can observe.
- Rendering, the block class, forms, settings, language strings, the AJAX module, the external function and the event handler.
- `LibListing.RecordingsForUser`: the `array_multisort` calls on the tree and its branches are not applied. The model returns and caches the tree in grouping order. Its branches and their contents are characterised order-independently by `GroupedBranches` and `GroupedPartition`, so sorting would only permute them.
- Array keys are strings. A folder Id or folder name that is not a string is filed under "" (`LibListing.KeyOf`), whereas PHP would convert it to a key of its own.
- `LibListing.FolderObjectsForUser` takes a `Config` and a username. An unconfigured plugin, which the PHP dereferences as null, is not modelled.
- `UsersSoapClient.GetUsersInGroup`: the order in which the service lists a group's member ids is not specified. Only their set is stated.
- `LibCourse.SyncCourseEnrollments` takes the creator-role and viewer-role user listings as inputs, so it needs no creator role map. The `explode` of that map is never empty, so the creators step always runs, as in the code.
