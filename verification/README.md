# Sidecar template: a verified model

This project models, in Dafny, the logic at the heart of the sidecar project
generator and the template it produces:

- **API** (Fastify): the OneDrive proxy's access gate, which checks that an item
  lies inside a readable or writable folder by walking its parent references
  with a per-request cache, and that a drive is approved. Around it sit the
  request and response header rewrites, the error classes and their JSON form,
  and drive and authentication configuration. The sign-in enrichment router
  builds the user's roles, customer ids and folder claims. The webhook
  subsystem covers subscription registration, the delta-feed walk, dispatch to
  handlers, the per-folder webhook router and the heartbeat job that checks
  the registration file out and back in.
- **App** (React): the Graph request batcher, the Graph provider's batch
  resolver, the debug-level store with its expiry, the B2C sign-in store, and
  the user-role hook.
- **Infrastructure**: the Pulumi dynamic providers for OneDrive files and
  folders (create, update, diff, delete, and the shared client cache), plus the
  build and deployment scripts (appropriate build, changed directories, Pulumi
  package optimisation, Pulumi bootstrap).
- **Generator**: the project-name prompt and the escaping and restoring of
  template strings in generated files.

Pure code is modelled as datatypes and functions, with lemmas about them.
Stateful objects (the batcher, the access cache, the client cache, the
heartbeat job, the registration file, the request and header records) are
classes whose methods state their whole new state. Network calls, clocks and
foreign libraries become parameters: the drive's parent map, the delta pages,
the lock flag, the signature verifier and the current time.

## Model

| member | source | states |
|---|---|---|
| AppropriateBuild.ToNumber | template/infrastructure/scripts/appropriate-build.mjs:23 | `Number(tag)` on build-id text: blank text is 0, a decimal numeral is its value, and the result is NaN exactly when the trimmed text is not all digits |
| AppropriateBuild.FindOlder | template/infrastructure/scripts/appropriate-build.mjs:23 | `tags.find`: the first index whose tag is numerically below the build id; none exactly when no tag is |
| AppropriateBuild.SelectBuild | template/infrastructure/scripts/appropriate-build.mjs:4-29 | a missing `BUILD_ID`, a missing registry and a missing or blank first tag each give their own error; a newest tag equal to the build id is kept; otherwise the chosen tag is non-blank and is the first tag older than the build; every error is one of the script's messages |
| AppropriateBuild.FirstOlderTagChosen | template/infrastructure/scripts/appropriate-build.mjs:22-29 | past the newest tag, the first non-blank tag older than the build is the one set |
| AppropriateBuild.FoundAt | template/infrastructure/scripts/appropriate-build.mjs:23 | the search stops at the first older tag and at no other |
| AppropriateBuild.FoundTagChosen | template/infrastructure/scripts/appropriate-build.mjs:23-29 | a non-blank tag found by the search is the one set |
| AppropriateBuild.NoOlderTagFails | template/infrastructure/scripts/appropriate-build.mjs:23-26 | when no tag is older than the build, the run fails with "No appropriate tag found for" the build |
| AppropriateBuild.NonNumericBuildFails | template/infrastructure/scripts/appropriate-build.mjs:23-26 | a build id that is not a numeral is NaN, older than nothing, so the run fails |
| AppropriateBuild.BlankFoundTagFails | template/infrastructure/scripts/appropriate-build.mjs:23-26 | a blank tag found by the search is falsy and fails the run |
| AppropriateBuild.SingleDigit | template/infrastructure/scripts/appropriate-build.mjs:23 | a one-digit numeral reads as its digit |
| AppropriateBuild.FirstOlderIsNotLargest | template/infrastructure/scripts/appropriate-build.mjs:23 | the choice follows list order, not size: with tags 3, 7 and build 8, tag 3 is set although 7 is the larger older tag |
| AppropriateBuild.BlankTagStopsSearch | template/infrastructure/scripts/appropriate-build.mjs:23-26 | a blank tag reads as 0, stops the search before an older numeral and fails the run |
| DetermineChanges.ChangedFiles | template/infrastructure/scripts/determine-changes.mjs:33 | the changed paths are exactly the non-blank lines of the diff, each without a line break |
| DetermineChanges.Published | template/infrastructure/scripts/determine-changes.mjs:34-39 | a directory's variable is published exactly when some changed path starts with the directory name, and nothing else is published |
| DetermineChanges.Determine | template/infrastructure/scripts/determine-changes.mjs:5-39 | `FORCE_ALL` equal to `True` publishes both variables; otherwise the run fails exactly when `DEFINITION_ID` is missing, and else `API_CHANGED` / `APP_CHANGED` are published exactly for the directories the diff touches |
| DetermineChanges.OnePathDiff | template/infrastructure/scripts/determine-changes.mjs:33 | a diff listing one path yields that path alone; the trailing empty line is dropped |
| DetermineChanges.ApiaryTouchesApi | template/infrastructure/scripts/determine-changes.mjs:34-39 | a path under `apiary/` touches `api` and not `app` |
| DetermineChanges.PrefixNotDirectory | template/infrastructure/scripts/determine-changes.mjs:35 | the directory test is a text prefix test: a change under `apiary/` publishes `API_CHANGED` |
| DetermineChanges.ApiVariable | template/infrastructure/scripts/determine-changes.mjs:37 | the variable for `api` is `API_CHANGED` |
| DetermineChanges.ForceIsCaseSensitive | template/infrastructure/scripts/determine-changes.mjs:7-18 | `FORCE_ALL=true` is not a force: without `DEFINITION_ID` the run fails |
| OptimisePulumi.LastSegmentOfJoin | template/infrastructure/scripts/optimise-pulumi.mjs:13 | `path.split('/').pop()` of a module path gives back the module name |
| OptimisePulumi.VersionFolderNames | template/infrastructure/scripts/optimise-pulumi.mjs:19 | the version pattern accepts dated stable and preview folders, also after a prefix, and rejects short dates, plain names and other suffixes |
| OptimisePulumi.VersionFolders | template/infrastructure/scripts/optimise-pulumi.mjs:17-22 | the selected paths are exactly the module path joined with each listed name that matches the version pattern |
| OptimisePulumi.PreviousVersionFolders | template/infrastructure/scripts/optimise-pulumi.mjs:12-23 | a module with previews enabled selects nothing; any other selects exactly its version folders |
| OptimisePulumi.ModuleFolders | template/infrastructure/scripts/optimise-pulumi.mjs:36-45 | the flattened result holds every contribution of every listed module (the whole folder for a module not kept, the version folders for a kept one) and nothing else |
| OptimisePulumi.Folders | template/infrastructure/scripts/optimise-pulumi.mjs:33-46 | every listed module that is not kept is selected whole |
| OptimisePulumi.FoldersToClean | template/infrastructure/scripts/optimise-pulumi.mjs:48-52 | the folders to clean are exactly those of the root of the Pulumi package and those of its `types/enums` folder |
| OptimisePulumi.InsightsKeepsEverything | template/infrastructure/scripts/optimise-pulumi.mjs:10-15 | nothing under the insights module is selected, whatever it holds |
| OptimisePulumi.KeptModuleLosesVersions | template/infrastructure/scripts/optimise-pulumi.mjs:36-40 | a kept module other than insights contributes exactly its version folders |
| BootstrapPulumi.SecretProviderCommands | template/infrastructure/scripts/bootstrap-pulumi.mjs:40-42 | a stack is created, and needs the secrets provider, exactly when the words hold both `stack` and `init`, in any order, or hold `new` |
| BootstrapPulumi.FlagsOfOptions | template/infrastructure/scripts/bootstrap-pulumi.mjs:44-48 | the flags are exactly `--key` for the truthy options other than the positional words |
| BootstrapPulumi.FlagsAppend | template/infrastructure/scripts/bootstrap-pulumi.mjs:44-48 | the flags keep the order of the entries: flags of consecutive entries follow each other |
| BootstrapPulumi.PositionalIsNoFlag | template/infrastructure/scripts/bootstrap-pulumi.mjs:45-46 | the positional words and a falsy option give no flag |
| BootstrapPulumi.Command | template/infrastructure/scripts/bootstrap-pulumi.mjs:50-54 | the command is the positional words, then the flag list as one element, then the secrets-provider flag exactly when a stack is created and an empty word otherwise |
| BootstrapPulumi.StackInitGetsProvider | template/infrastructure/scripts/bootstrap-pulumi.mjs:40-54 | `stack init --yes` runs with `--yes` and the key-vault secrets provider |
| BootstrapPulumi.UpGetsNoProvider | template/infrastructure/scripts/bootstrap-pulumi.mjs:40-54 | `up` runs with no flags and an empty last word |
| ProjectPrompt.Validate | prompts/project.js:12-17 | a name is accepted exactly when it has four to eight characters, all ASCII letters or digits; any other name gets the one message |
| ProjectPrompt.BlankOrSpacedRejected | prompts/project.js:4-15 | an empty name, or one holding white space, is refused with the message |
| ProjectPrompt.LengthBounds | prompts/project.js:13-16 | four and eight characters pass; three and nine fail |
| TemplateStrings.CloseBrace | utils/process.js:26 | where the lazy `(.*?)}` ends: the first `}` with no line terminator before it; none when every `}` has one before it |
| TemplateStrings.CloseMark | utils/process.js:38 | where the lazy `(.*?)}%` ends: the first `}%` with no line terminator before it; none when every `}%` has one before it |
| TemplateStrings.ReplaceAll | utils/process.js:26 | the global replacement keeps the first character of non-empty text (an escape starts with the `$` it replaces) |
| TemplateStrings.Replace | utils/process.js:22-28 | contents without `${` are left as they are, and the guard never changes the outcome: the result is the global replacement of the contents |
| TemplateStrings.RestoreAsWritten | utils/process.js:34-40 | as written, contents without `$[[` are left as they are |
| TemplateStrings.Restore | utils/process.js:34-40 | with the corrected guard, contents without `$%{` are left as they are, and the guard never changes the outcome: the result is the global restoration of the contents |
| TemplateStrings.NoOpeningNoReplacement | utils/process.js:26 | text without `${` is unchanged by the replacement |
| TemplateStrings.NoMarkNoRestoration | utils/process.js:38 | text without `$%{` is unchanged by the restoration |
| TemplateStrings.MarkAfterRun | utils/process.js:38 | the `}%` the replacement writes after a run is the first one the restoration finds |
| TemplateStrings.EscapeUndone | utils/process.js:38 | an escape `$%{X}%` written by the replacement is turned back into `${X}` |
| TemplateStrings.EscapeAtFront | utils/process.js:26 | a leading `${X}` is written as `$%{X}%`, and the scan goes on after it |
| TemplateStrings.EscapeRestored | utils/process.js:26 | a leading `${X}` survives replacement then restoration, and the rest is processed on its own |
| TemplateStrings.PlainRestored | utils/process.js:26 | a first character that starts no escape passes through both passes unchanged |
| TemplateStrings.RestoreAllReplaceAll | utils/process.js:26 | restoration undoes replacement on any text that held no `$%{` beforehand |
| TemplateStrings.RoundTrip | utils/process.js:21-42 | with the corrected guard, restoring a replaced file gives back the original file |
| TemplateStrings.ReplaceAllKeepsBrackets | utils/process.js:26 | the replacement keeps every `$[[` of the text |
| TemplateStrings.RoundTripAsWritten | utils/process.js:21-42 | as written, the round trip holds only for files that hold `$[[` |
| TemplateStrings.EscapedFileStaysEscaped | utils/process.js:36 | as written, a file holding `${a}` and no `$[[` ends as `$%{a}%` |
| TemplateStrings.ReplaceTemplateStrings | utils/process.js:21-30 | returns the same files in the same order, each file's contents replaced in place and no other file changed |
| TemplateStrings.RestoreTemplateStrings | utils/process.js:33-42 | returns the same files in the same order, each file's contents restored in place under the corrected guard |
| GraphShared.CheckForChanges | template/infrastructure/pulumi/resources/graph/shared.ts:48-54 | the result holds exactly the listed properties whose old and new values differ, in the listed order |
| GraphShared.NoChangesAgainstItself | template/infrastructure/pulumi/resources/graph/shared.ts:52-54 | properties compared with themselves show no change |
| GraphShared.NoChangesWhenAllAgree | template/infrastructure/pulumi/resources/graph/shared.ts:52-54 | when every listed property agrees, no change is reported, whatever else differs |
| GraphShared.ClientCache.constructor | template/infrastructure/pulumi/resources/graph/shared.ts:10 | the cache starts empty |
| GraphShared.ClientCache.CreateOrGetClient | template/infrastructure/pulumi/resources/graph/shared.ts:13-46 | the key is client id, tenant and version (`beta` by default); a cached client under the key is returned and the cache is unchanged, whatever secret is passed; otherwise a client is built from the arguments and cached under the key; every cached client sits under its own key |
| GraphShared.EncodeURIComponent | template/infrastructure/pulumi/resources/graph/OneDriveFile.ts:43 | `encodeURIComponent` leaves only unreserved characters and `%`, and leaves text of unreserved characters unchanged |
| GraphShared.EncodedNameIsOneSegment | template/infrastructure/pulumi/resources/graph/OneDriveFile.ts:43 | an encoded name holds no `/`, `:`, `?` or `#` |
| GraphShared.DeleteCall | template/infrastructure/pulumi/resources/graph/OneDriveFolder.ts:94-97 | `delete` removes the item by id under the drive named in the recorded outputs |
| OneDriveFolder.ChildrenPathParent | template/infrastructure/pulumi/resources/graph/OneDriveFolder.ts:41 | a set folder id posts under that item, an unset or empty one under the drive root |
| OneDriveFolder.Create | template/infrastructure/pulumi/resources/graph/OneDriveFolder.ts:37-63 | `create` posts the name with the `rename` conflict behaviour, returns Graph's id, and records the five inputs plus `folderId` exactly when one is set |
| OneDriveFolder.Update | template/infrastructure/pulumi/resources/graph/OneDriveFolder.ts:64-77 | `update` renames the item found through the old outputs; the outputs keep every old key and value except the new name |
| OneDriveFolder.Diff | template/infrastructure/pulumi/resources/graph/OneDriveFolder.ts:78-93 | the replacements are exactly the changed credential and location keys, in order; a change is reported exactly when the name or one of those keys changed; the five keys are declared stable |
| OneDriveFolder.DiffAgainstItself | template/infrastructure/pulumi/resources/graph/OneDriveFolder.ts:78-93 | a folder compared with its own outputs needs nothing |
| OneDriveFolder.RenameUpdatesInPlace | template/infrastructure/pulumi/resources/graph/OneDriveFolder.ts:85-91 | a new name alone is a change without a replacement |
| OneDriveFolder.ReplacementsAreDeclaredStable | template/infrastructure/pulumi/resources/graph/OneDriveFolder.ts:80-90 | every key reported for replacement is also in the stable list |
| OneDriveFile.UploadPathKeepsName | template/infrastructure/pulumi/resources/graph/OneDriveFile.ts:43 | whatever the name, the upload path holds it encoded as one segment between the parent and `:/content` |
| OneDriveFile.Create | template/infrastructure/pulumi/resources/graph/OneDriveFile.ts:40-62 | `create` uploads the content to the upload path, returns Graph's id, and records the six inputs plus `folderId` exactly when one is set |
| OneDriveFile.Update | template/infrastructure/pulumi/resources/graph/OneDriveFile.ts:63-81 | `update` puts the new content and then renames the item found through the old outputs; the outputs keep every other old key and value |
| OneDriveFile.Diff | template/infrastructure/pulumi/resources/graph/OneDriveFile.ts:82-98 | the replacements are exactly the changed credential and location keys, in order; a change is reported exactly when the name, the content or one of those keys changed; nothing is declared stable |
| OneDriveFile.DiffAgainstItself | template/infrastructure/pulumi/resources/graph/OneDriveFile.ts:82-98 | a file compared with its own outputs needs nothing |
| OneDriveFile.ContentChangeUpdatesInPlace | template/infrastructure/pulumi/resources/graph/OneDriveFile.ts:89-96 | new content alone is a change without a replacement |
| Errors.Code | template/api/src/plugins/utils/errors.ts:9-43 | every class has a code from 400 to 500, and only the base class has 500 |
| Errors.ToJSON | template/api/src/plugins/utils/errors.ts:21-27 | the serialised error carries the class's code and the message |
| Errors.JSONRoundTrip | template/api/src/plugins/utils/errors.ts:21-27 | the serialised form identifies the error: reading it back gives the same class and message |
| Errors.NamesAndCodesDistinct | template/api/src/plugins/utils/errors.ts:9-43 | no two classes share a name or a code |
| Errors.HandleError | template/api/src/plugins/utils/errors.ts:45-56 | an error class is answered with its own code and its serialised form; a schema failure with 400 and a `ValidationError` body; anything else with 500 and `{ok: false}`; status 500 exactly for the base class and unknown errors |
| ProxyUtils.PreparePath | template/api/src/plugins/onedrive/utils.ts:24-29 | the forwarded path is the raw url before its first `?` (empty without a url); a non-empty prefix is removed at its first occurrence, wherever that is, and the path is unchanged when the prefix does not occur; it never holds a `?` |
| ProxyUtils.PrefixRemovedInside | template/api/src/plugins/onedrive/utils.ts:27 | the prefix is removed where it first occurs even when that is not the front: `a/p` under the prefix `/p` is forwarded as `a` |
| ProxyUtils.Headers.PrepareResponseHeaders | template/api/src/plugins/onedrive/utils.ts:16-22 | the transport-security and content-security headers are gone, `Cache-Control` is `max-age=30`, and every other header is kept as it was |
| ProxyUtils.Headers.PrepareRequestHeaders | template/api/src/plugins/onedrive/utils.ts:7-14 | without a token the rewrite throws `No token found` and changes nothing; with one, `authorization` becomes `Bearer` and the token, and nothing else changes |
| Middleware.VerifyDriveAccess | template/api/src/plugins/onedrive/middleware.ts:14-21 | a missing `driveId` fails the schema; otherwise the request passes exactly when the configuration lists the drive, and is refused as not authorised otherwise |
| Middleware.Request.ProcessGraphVersion | template/api/src/plugins/onedrive/middleware.ts:23-29 | a missing `version` fails the schema, an empty one is a bad request, and both leave the request as it was; a non-empty one is copied onto the request |
| DriveConfig.ResolveFlag | template/api/src/plugins/utils/index.ts:41-42 | an explicit option wins; otherwise only the exact text `true` turns the flag on |
| DriveConfig.ResolvedDrives | template/api/src/plugins/utils/index.ts:36-38 | the given drives come first and unchanged; `APPROVED_DRIVE` is appended exactly when it is set and non-empty |
| DriveConfig.ResolveDrives | template/api/src/plugins/utils/index.ts:35-45 | the caller's drives array grows in place; the call fails with `No drives configured` exactly when no drive results, and otherwise returns the resolved flags and the same drives |
| DriveConfig.NoDrivesIffNothingConfigured | template/api/src/plugins/utils/index.ts:36-39 | resolution fails exactly when no drive is given and none is approved through the environment |
| DriveConfig.ParseAuthentication | template/api/src/plugins/utils/index.ts:3-7 | the schema accepts exactly options whose three fields are present, and keeps their values |
| DriveConfig.ResolveAuthentication | template/api/src/plugins/utils/index.ts:11-22 | complete options are used as given; otherwise the client id, secret and tenant are `GRAPH_APP_CLIENT_ID`, `GRAPH_APP_CLIENT_SECRET` and `GRAPH_APP_TENANT`, and the call fails with a schema error exactly when one of them is missing |
| Ancestry.FolderList | template/api/src/plugins/onedrive/utils.ts:92 | a single folder id is looked up as a one-element list |
| Ancestry.StripColon | template/api/src/plugins/onedrive/utils.ts:86 | an id without `:` is unchanged, and one with a `:` loses exactly one character |
| Ancestry.StripColonIsReplace | template/api/src/plugins/onedrive/utils.ts:86 | the recursive definition is `id.replace(':', '')`: only the first `:` is removed |
| Ancestry.Tree.constructor | template/api/src/plugins/onedrive/utils.ts:72-77 | each top-level call starts from an empty cache |
| Ancestry.EnrichNode | template/api/src/plugins/onedrive/utils.ts:45-57 | a readable item is stored in the cache with its parent reference and returned; an unreadable one throws the no-access error and leaves the cache as it was |
| Ancestry.Walk | template/api/src/plugins/onedrive/utils.ts:96-118 | one step of the walk, reading nodes through the cache, gives the answer of the reference search; the cache only grows and always mirrors the drive |
| Ancestry.IsInFolder | template/api/src/plugins/onedrive/utils.ts:79-119 | `isInFolder` with a fresh cache answers what the reference search answers |
| Ancestry.DirectMatch | template/api/src/plugins/onedrive/utils.ts:96 | an id that is itself one of the folders is inside, even with no readable node and depth 0 |
| Ancestry.BoundedSearch | template/api/src/plugins/onedrive/utils.ts:96-115 | with depth `d`, when every node on the way is readable, the answer is true exactly when the item or one of its first `d + 1` parent references is one of the folders |
| Ancestry.DepthZero | template/api/src/plugins/onedrive/utils.ts:108-111 | depth 0 accepts exactly the item itself or its direct parent |
| Ancestry.UnboundedIsDeepBounded | template/api/src/plugins/webhook/utils.ts:53-85 | on an acyclic chain, the default infinite depth answers what any bound at least the chain's length answers |
| Ancestry.UnboundedSearch | template/api/src/plugins/webhook/utils.ts:64-88 | with the default depth, when every node is readable, the answer is true exactly when some level of the chain matches |
| Ancestry.DepthMonotone | template/api/src/plugins/webhook/utils.ts:80-85 | a deeper bound never turns a match into a non-match |
| Ancestry.BoundedMatchIsMatch | template/api/src/plugins/webhook/utils.ts:80-85 | a match within some bound is a match of the unbounded walk |
| Ancestry.NoFolders | template/api/src/plugins/webhook/utils.ts:64-88 | with no folders, nothing is inside |
| Ancestry.ColonExamples | template/api/src/plugins/webhook/utils.ts:56 | only the first `:` goes: `abc:` and `abc` share a cache entry, and `a:b:` is looked up as `ab:` |
| Ancestry.ThreeLevels | template/api/src/plugins/webhook/utils.ts:64-88 | on a three-level drive, depth 0 misses the grandparent, depth 1 finds it, and an unknown id throws |
| DriveProxy.Gate | template/api/src/plugins/onedrive/proxies/drive-proxy.ts:36-45 | a request passes exactly when the lookup answers true; a negative answer is refused as not authorised; a failed lookup propagates as a plain error |
| DriveProxy.AuthorizeItem | template/api/src/plugins/onedrive/proxies/drive-proxy.ts:28-45 | a read passes exactly when the item is inside a readable folder, a write exactly when it is inside a writable folder |
| DriveProxy.AuthorizeDrive | template/api/src/plugins/onedrive/proxies/drive-proxy.ts:66-73 | at drive level a read passes exactly when reading is configured, a write exactly when writing is; a refusal is not-authorised |
| DriveProxy.Handle | template/api/src/plugins/onedrive/proxies/drive-proxy.ts:22-91 | only GET, PUT, POST and DELETE are routed; a forwarded request is for an approved drive and goes to the prepared path; a failed drive check is returned as is; past it, an item request is forwarded exactly when the item check passes and a drive request exactly when the drive check passes |
| DriveProxy.NoProviderNoItems | template/api/src/plugins/onedrive/proxies/drive-proxy.ts:17-20 | without an access-configuration provider no item request is forwarded |
| DriveProxy.WritesIgnoreReadList | template/api/src/plugins/onedrive/proxies/drive-proxy.ts:40-45 | a write is decided by the writable folders alone |
| DriveProxy.DriveRequestsIgnoreTree | template/api/src/plugins/onedrive/proxies/drive-proxy.ts:66-78 | a drive-level request gives the same answer whatever the drive's folder tree |
| ProxyRouter.BearerToken | template/api/src/routes/proxy-router.ts:17-21 | a missing or empty header gives no token; otherwise there is a token exactly when the second space-separated word exists and is non-empty, and the token is that word, holding no space |
| ProxyRouter.BearerTokenOfHeader | template/api/src/routes/proxy-router.ts:20-21 | `<scheme> <token>` yields the token whatever the scheme word says |
| ProxyRouter.BearerTokenOfWords | template/api/src/routes/proxy-router.ts:20-21 | the token is the second space-separated word however many words follow it, whatever the scheme word says |
| ProxyRouter.ClaimList | template/api/src/routes/proxy-router.ts:38-39 | a missing or empty claim gives no ids; a present one is split into at least one id, and the ids joined with `,` give the claim back |
| ProxyRouter.ClaimListOfJoin | template/api/src/routes/proxy-router.ts:38-39 | ids joined into a claim come back unchanged when none is empty or holds a comma |
| ProxyRouter.AccessResolver.constructor | template/api/src/routes/proxy-router.ts:6 | the key store starts unloaded |
| ProxyRouter.AccessResolver.GetUserAccessConfiguration | template/api/src/routes/proxy-router.ts:15-45 | no token gives empty access without loading the key store; a token with no store and no `OPENID_CONFIGURATION_URL` throws `OPENID_CONFIGURATION_URL not set`; otherwise the store is loaded and the access is the split read and write claims of a verified token, or empty when verification fails |
| AuthPlugin.LastClaimWins | template/api/src/plugins/authentication/index.ts:49-51 | every field of the response is a base field or a claim id; a claimed field holds the value of its last claim; an unclaimed base field keeps its value |
| AuthPlugin.ContinueResponse | template/api/src/plugins/authentication/index.ts:44-51 | the response is the `Continue` fields with the claims written over them in order |
| AuthPlugin.Post | template/api/src/plugins/authentication/index.ts:40-59 | a body without an email fails validation before the handler runs; a failed handler answers 200 with the block page; claims answer 200 with the `Continue` response carrying them |
| AuthPlugin.ReservedFieldsKept | template/api/src/plugins/authentication/index.ts:44-51 | claims not named `action` or `version` leave `action` as `Continue` and the version as `1.0.0` |
| AuthPlugin.HandlerClaimsContinue | template/api/src/plugins/authentication/index.ts:43-52 | the sign-in handler's claims always continue the sign-in; the role claim lands in its own field; no claims give the bare `Continue` response |
| AuthPlugin.ClaimCanOverrideAction | template/api/src/plugins/authentication/index.ts:49-51 | a claim named `action` replaces the connector's own action |
| Authentication.SingleDomain | template/api/src/helpers/authentication.ts:1-5 | a list of one domain admits exactly the addresses ending in `@` and that domain |
| Authentication.NoSubdomainMatch | template/api/src/helpers/authentication.ts:7-11 | an address in a subdomain is not in the listed domain |
| Authentication.CustomerIds | template/api/src/routes/authentication-router.ts:14-24 | the customers are exactly the ids of the children with a folder facet |
| Authentication.GrantAllSpec | template/api/src/routes/authentication-router.ts:49-62 | merging a user list adds the customer to every listed email, only appends to existing lists, touches no other email, adds nothing else, and keeps every list free of duplicates |
| Authentication.GrantSpec | template/api/src/routes/authentication-router.ts:51-61 | one email merged in gains the customer, once, and nothing else changes |
| Authentication.MergeAllSpec | template/api/src/routes/authentication-router.ts:48-64 | after merging every customer, an email's list holds what it held before plus exactly the customers whose user lists name it, without duplicates |
| Authentication.AccessCache.constructor | template/api/src/routes/authentication-router.ts:43 | the cache starts empty |
| Authentication.AccessCache.Merge | template/api/src/routes/authentication-router.ts:51-62 | the `forEach` over one customer's emails performs exactly the merge of that list and keeps lists duplicate-free |
| Authentication.AccessCache.FoldersByEmail | template/api/src/routes/authentication-router.ts:14-16 | without `CUSTOMER_FOLDER_ID` the lookup throws `CUSTOMER_FOLDER_ID is missing` and leaves the cache alone; otherwise every customer's list is merged and the answer is the email's entry as cached before the call, or its entry after the merge on a miss |
| Authentication.CacheMissAnswer | template/api/src/routes/authentication-router.ts:66-73 | on a cache miss the answer names exactly the customers whose user lists hold the email, each once |
| Authentication.CustomerRoles | template/api/src/routes/authentication-router.ts:91 | each associated customer gives the role `CUSTOMER:` and its id, in order |
| Authentication.Assemble | template/api/src/routes/authentication-router.ts:79-145 | the handler returns either no claims or the read, write and role claims in that order |
| Authentication.AssembledFolders | template/api/src/routes/authentication-router.ts:86-137 | when claims are granted, a comma-free folder id is in the read claim exactly when it is an associated customer folder, one of `ANONYMOUS_READ_FOLDERS` with shared folders enabled, or a customer folder of an admin; the write claim likewise with `ANONYMOUS_WRITE_FOLDERS` |
| Authentication.NoRolesGuardCannotFire | template/api/src/routes/authentication-router.ts:91-132 | as written, a user with no customer folder and on no list still gets the three claims, with an empty role; with the roles spread, the guard refuses them |
| Authentication.AdminTrailingComma | template/api/src/routes/authentication-router.ts:91-138 | as written, an admin with customer folders enabled and no associated folder gets the role text `ADMIN,`; with the roles spread it is `ADMIN` |
| Authentication.ClaimsNeedARole | template/api/src/routes/authentication-router.ts:79-145 | without public access, claims are granted exactly when a role is found and nothing threw, and the role claim is then never empty |
| Authentication.AdminFirst | template/api/src/routes/authentication-router.ts:117-126 | for an admin, `ADMIN` leads the role claim and every comma-free customer folder is readable |
| Authentication.Enrich | template/api/src/routes/authentication-router.ts:76-148 | corrected handler: it merges the customer lists into the shared cache when customer folders are enabled and configured, and answers the corrected claims (customer roles spread into the role list) computed from the cache lookup and the customer listing |
| B2C.FirstEmail | template/app/src/services/authentication/B2CProvider.tsx:20 | destructuring the `emails` claim throws exactly when the claim is missing; a list gives its first element, or nothing when empty |
| B2C.AccountDetails | template/app/src/services/authentication/B2CProvider.tsx:14-31 | missing claims fail with `Invalid claims`, a missing `emails` claim throws, and otherwise the account is read exactly when the subject, given name, family name and first email are all truthy, carrying those values and the whole claims object; every failure is one of those three |
| B2C.CompleteClaims | template/app/src/services/authentication/B2CProvider.tsx:14-31 | a complete set of identity claims gives the account with the first listed email |
| B2C.CheckConfiguration | template/app/src/services/authentication/B2CProvider.tsx:55 | the provider starts exactly when the client id, policy and authority are set and non-empty, and fails with `Missing configuration` otherwise |
| B2C.Restore | template/app/src/services/authentication/B2CProvider.tsx:33-45 | no cached account restores a signed-out state with no account entry; otherwise the first cached account is signed in, and restoring fails exactly when its details cannot be read |
| B2C.AuthStore.constructor | template/app/src/services/authentication/B2CProvider.tsx:79-80 | the store starts from the restored sign-in, with no client call made |
| B2C.AuthStore.OnRedirect | template/app/src/services/authentication/B2CProvider.tsx:99-110 | a redirect response with an account signs it in and returns the response's state; bad claims throw and leave the store unchanged; anything else marks the user signed out and keeps the account entry |
| B2C.AuthStore.SignInSilent | template/app/src/services/authentication/B2CProvider.tsx:111-121 | the status turns `Authenticating` before the client is asked; an account from the client signs in; a client failure, no account (`No account found`) or bad claims throw and leave the status `Authenticating` and the account as it was |
| B2C.AuthStore.SignInUp | template/app/src/services/authentication/B2CProvider.tsx:122-129 | the interaction flag is cleared, the status becomes `Authenticating`, then the sign-in redirect carries the given state; the account is kept |
| B2C.AuthStore.SignOut | template/app/src/services/authentication/B2CProvider.tsx:130-134 | the interaction flag is cleared, the user is signed out with a null account, then the sign-out redirect follows |
| B2C.AuthStore.GetRequestToken | template/app/src/services/authentication/B2CProvider.tsx:81-98 | with no account the call throws `No account found` without asking the client; otherwise the client's token or error is passed on, and an interaction-required error first starts an interactive sign-in |
| GraphBatch.UniqueIsDistinct | template/app/src/services/graph/GraphProvider.tsx:68-73 | the de-duplicated requests never share an identifier |
| GraphBatch.UniqueCovers | template/app/src/services/graph/GraphProvider.tsx:68-73 | every request's identifier survives de-duplication |
| GraphBatch.UniqueKeepsFirst | template/app/src/services/graph/GraphProvider.tsx:68-73 | each kept request is the first one with its identifier |
| GraphBatch.UniqueOfDistinct | template/app/src/services/graph/GraphProvider.tsx:68-73 | requests with distinct identifiers are kept as they are, in order |
| GraphBatch.Steps | template/app/src/services/graph/GraphProvider.tsx:76-83 | one step per request, carrying its identifier, `/` and its path, `GET`, and its headers |
| GraphBatch.FetcherSteps | template/app/src/services/graph/GraphProvider.tsx:66-86 | the posted `$batch` body has one `GET` step for every request's identifier and repeats none |
| GraphBatch.Resolve | template/app/src/services/graph/GraphProvider.tsx:88-102 | a request with no response of its identifier throws `Response not found`; otherwise the first such response decides: a status of 400 or more throws its body, any other gives its body |
| GraphBatch.AnsweredRequestsResolve | template/app/src/services/graph/GraphProvider.tsx:66-102 | when Graph answers every posted step, no request of the batch misses its response |
| GraphBatch.UseGraph | template/app/src/services/graph/GraphProvider.tsx:109-115 | outside a provider `useGraph` throws its message; inside it returns the provider's client and batcher |
| Batch.Delay | template/app/src/services/graph/utils/batch.ts:164-177 | a window scheduler sends `ms` after the batch's first query, a buffer scheduler `ms` after the latest one |
| Batch.WindowDeadlineFixed | template/app/src/services/graph/utils/batch.ts:164-167 | under a window scheduler, later queries do not move the send time |
| Batch.Take | template/app/src/services/graph/utils/batch.ts:117 | the sent queries are the first `limit` pending ones in insertion order, all of them without a limit |
| Batch.Drop | template/app/src/services/graph/utils/batch.ts:118 | the queries left behind are exactly the rest: sent and left together give the pending set back in order |
| Batch.Batcher.constructor | template/app/src/services/graph/utils/batch.ts:89-104 | no limit means no bound and no scheduler a 10 ms window; the memory starts empty, with no timer and no start or latest time |
| Batch.Batcher.Fetch | template/app/src/services/graph/utils/batch.ts:106-114 | the start time is set only when unset, the latest time is now, the query joins the pending set once, its caller awaits the current request, and the timer is replaced by one for the scheduler's delay; a valid memory stays valid |
| Batch.Batcher.FlushAsWritten | template/app/src/services/graph/utils/batch.ts:115-138 | as written, the first `limit` pending queries are sent, the rest stay pending with no timer, and every waiting caller awaits the request just sent |
| Batch.Batcher.Flush | template/app/src/services/graph/utils/batch.ts:115-138 | corrected, the send serves exactly the callers whose query it fetches; the others wait for the next send, which a new timer schedules at once; the memory stays valid and a non-zero limit always shrinks the pending set |
| Batch.CarryOver | template/app/src/services/graph/utils/batch.ts:117-123 | what a send leaves is duplicate-free and holds the query of every caller not served, and the request sent serves the callers attached to it |
| Batch.FlushKeepsValid | template/app/src/services/graph/utils/batch.ts:115-138 | the memory after a corrected send is valid again, and a send under a limit other than 0 makes progress |
| Batch.OverflowStrandsCaller | template/app/src/services/graph/utils/batch.ts:115-138 | as written, with a limit of one and two queries, the second caller awaits a request that does not fetch its query, and that query is left pending with no timer |
| Batch.KeyResolver | template/app/src/services/graph/utils/batch.ts:152-155 | the first item whose key equals the query, and nothing exactly when no item's key does |
| DebugLevel.MapLogLevel | template/app/src/services/insights/DebugProvider.tsx:7-28 | the severity is the tslog level less two, never below verbose (0) |
| DebugLevel.AppInsightsTable | template/app/src/services/insights/DebugProvider.tsx:8-27 | fatal, error, warn, info and debug become critical, error, warning, info and verbose; trace and silly become verbose |
| DebugLevel.MapLogLevelMonotone | template/app/src/services/insights/DebugProvider.tsx:7-28 | a more severe tslog level never maps to a less severe App Insights one |
| DebugLevel.ParseIntOfDecimal | template/app/src/services/insights/DebugProvider.tsx:44 | `parseInt` reads back the decimal numeral of a natural number, whatever non-digit text follows it |
| DebugLevel.UnsignedNumeral | template/app/src/services/insights/DebugProvider.tsx:44 | text that starts with a digit reads as the number its leading numeral denotes |
| DebugLevel.ParseIntOfWord | template/app/src/services/insights/DebugProvider.tsx:44 | text that starts with a letter is NaN |
| DebugLevel.DefaultLevel | template/app/src/services/insights/DebugProvider.tsx:42-53 | an unset or empty backstage `debugLevel` gives 3 in development and 5 in production; a set one is whatever `parseInt` makes of it |
| DebugLevel.BackstageLevelWins | template/app/src/services/insights/DebugProvider.tsx:44-53 | a numeric backstage variable is the default level |
| DebugLevel.WordBackstageGivesNaN | template/app/src/services/insights/DebugProvider.tsx:44-53 | a backstage variable that is a word gives NaN, not the build's default |
| DebugLevel.UseDebugLevel | template/app/src/services/insights/DebugProvider.tsx:41-73 | while the stored override end lies in the future the level is 3; otherwise it is the stored level, or the default on first use; the override's end is returned as a date exactly when one is stored |
| DebugLevel.OverrideStaysExpired | template/app/src/services/insights/DebugProvider.tsx:69-72 | an override that has run out stays out as time goes on |
| DebugLevel.StoredLevelWins | template/app/src/services/insights/DebugProvider.tsx:50-53 | a stored level wins over the backstage variable and the build's default |
| UserRoles.TypeAndId | template/app/src/services/authentication/hooks/user.ts:23 | the type is the text before the first `:` and the id the text up to the next one, when there is a `:`; a piece without `:` is all type and no id |
| UserRoles.ParseRole | template/app/src/services/authentication/hooks/user.ts:22-28 | a piece of type `ADMIN` is an admin role, whatever follows; any other type without an id fails with `Missing id`; a customer role carries the non-empty id of a `CUSTOMER` piece; every failure is `Missing id` or `Invalid role` |
| UserRoles.ParseRoles | template/app/src/services/authentication/hooks/user.ts:21-29 | the claim parses exactly when every comma-separated piece does, giving one role per piece in order; a failure is the failure of some piece |
| UserRoles.ParseAll | template/app/src/services/authentication/hooks/user.ts:22-28 | the `map` over the pieces succeeds exactly when every piece parses, and otherwise fails with the error of the first piece that does not |
| UserRoles.CustomerRole | template/app/src/services/authentication/hooks/user.ts:23-26 | `CUSTOMER:<id>`, alone or followed by more `:`-separated text, is a customer role for that id |
| UserRoles.AdminRole | template/app/src/services/authentication/hooks/user.ts:23-24 | `ADMIN`, alone or followed by `:` and anything, is an admin role |
| UserRoles.AnonymousRejected | template/app/src/services/authentication/hooks/user.ts:21-29 | a claim holding the id-less `ANONYMOUS` role is rejected |
| UserRoles.UseUser | template/app/src/services/authentication/hooks/user.ts:31-51 | no account fails with `Missing accounts`, a missing or empty role claim with `Missing roles`, a bad claim with its piece's error; a user carries the account's identity, the parsed roles (at least one) and the first role's organisation |
| UserRoles.UseOrganisationId | template/app/src/services/authentication/hooks/user.ts:53-57 | the user's organisation when it is set and non-empty; `Missing organisation ID` when the user has none; the user's own failure otherwise |
| UserRoles.AdminFirstHasNoOrganisation | template/app/src/services/authentication/hooks/user.ts:49-56 | a user whose first role is admin has no organisation |
| Registrations.FindIndex | template/api/src/plugins/webhook/register.ts:144 | the index of the first record for the resource, and none exactly when no record is for it |
| Registrations.Get | template/api/src/plugins/webhook/register.ts:91-94 | a record of the document for the resource, and none exactly when no record is for it |
| Registrations.Update | template/api/src/plugins/webhook/register.ts:143-148 | with no record for the resource the update throws `No registration found`; otherwise only the first record for it changes, taking the new token and check time, and that record is what a lookup finds afterwards |
| Registrations.Refresh | template/api/src/plugins/webhook/register.ts:166-170 | with no record for the resource the refresh throws `No registration found`; otherwise only the first record for it changes, taking the new expiry, and that record is what a lookup finds afterwards |
| Registrations.FindIndexAfterChange | template/api/src/plugins/webhook/register.ts:144-153 | rewriting the first record of a resource with another record of it keeps it the first |
| Registrations.Without | template/api/src/plugins/webhook/register.ts:127 | after the filter no record is for the resource, every record of another resource is kept, and nothing new appears |
| Registrations.GetAfterWithout | template/api/src/plugins/webhook/register.ts:125-132 | deleting one resource's records leaves the lookup of every other resource as it was |
| Registrations.GetFirst | template/api/src/plugins/webhook/register.ts:93 | the lookup checks the first record, then the rest |
| Registrations.NotificationUrl | template/api/src/plugins/webhook/register.ts:194 | the notification url is `https://` or `http://` as the server is secure or not, followed by its host and path |
| Registrations.WebhookSubscriptionUrl | template/api/src/plugins/webhook/register.ts:58-63 | a subscription asks for updates to the resource with the fresh client state, and notifies an HTTPS url on the container app's host ending in `/webhook`; an unset app name reads as `undefined` |
| Registrations.RegistrationFile.constructor | template/api/src/plugins/webhook/register.ts:83-89 | the file holds the given document and checkout lock |
| Registrations.RegistrationFile.HasBeenCheckedOut | template/api/src/plugins/webhook/register.ts:28-35 | the file is checked out exactly when its lock id is set and not 0 |
| Registrations.RegistrationFile.Create | template/api/src/plugins/webhook/register.ts:96-123 | one record without a check time, carrying the given fields, is appended to the document and returned; the lock is untouched |
| Registrations.RegistrationFile.Delete | template/api/src/plugins/webhook/register.ts:125-132 | the document keeps exactly the records of other resources |
| Registrations.RegistrationFile.UpdateRegistration | template/api/src/plugins/webhook/register.ts:134-156 | the document is rewritten with the update and the updated record is returned; with no record for the resource the call fails and the document is untouched |
| Registrations.RegistrationFile.RefreshRegistration | template/api/src/plugins/webhook/register.ts:158-178 | the document is rewritten with the refresh and the refreshed record is returned; with no record for the resource the call fails and the document is untouched |
| Registrations.RegistrationFile.CreateOrUpdate | template/api/src/plugins/webhook/register.ts:45-81 | an existing record is renewed for thirty days from now; otherwise a subscription missing its client state or its id throws its own message and changes nothing, and a complete one is recorded with the token `latest` and returned |
| Registrations.GetAfterUpdate | template/api/src/plugins/webhook/register.ts:143-155 | after an update the resource's record has the new token and check time, and every other resource's record is unchanged |
| Registrations.FindIndexOther | template/api/src/plugins/webhook/register.ts:144 | rewriting a record of one resource does not move the first record of another |
| Webhook.RegistrationFileId | template/api/src/plugins/webhook/index.ts:49-50 | the module loads exactly when `WEBHOOK_REGISTRATION_FILE_ID` is set and non-empty, and stops with `WEBHOOK_REGISTRATION_FILE_ID not set` otherwise |
| Webhook.GetChanges | template/api/src/plugins/webhook/index.ts:52-69 | following the chain succeeds exactly when every next link carries a token and the last page has a delta link; the changes are those of all pages in page order and the delta link is the last page's |
| Webhook.EarlierDeltaLinksIgnored | template/api/src/plugins/webhook/index.ts:55-64 | a delta link on a page that has a next link makes no difference to the result |
| Webhook.AllItemsIgnoresLinks | template/api/src/plugins/webhook/index.ts:54-63 | the collected changes depend only on the pages' changes, not on their links |
| Webhook.FilterOperationalChanges | template/api/src/plugins/webhook/index.ts:71-77 | exactly the changes that are not the root, the system configuration item or the registration file are kept |
| Webhook.FilterIdempotent | template/api/src/plugins/webhook/index.ts:71-77 | filtering again removes nothing more |
| Webhook.FilterAcrossPages | template/api/src/plugins/webhook/index.ts:71-77 | filtering the changes of several pages is filtering each page's changes, in order |
| Webhook.ParseResourceOfRoot | template/api/src/plugins/webhook/index.ts:80-82 | `/drives/<id>/root` yields the drive id when the id holds no white space |
| Webhook.Classify | template/api/src/plugins/webhook/index.ts:106-115 | a deleted item is a file or folder deletion by its file facet; any other item without a creation time throws; a folder is created or updated, and otherwise a file is, as it was created strictly after the last check or not; an item that is neither gets no event |
| Webhook.Dispatch | template/api/src/plugins/webhook/index.ts:105-116 | the handler is called once for every change that classifies to an event, with that event, and for no other |
| Webhook.ReceiveAndBookmarkDelta | template/api/src/plugins/webhook/index.ts:79-98 | a resource that does not match the pattern and a resource without a registration each throw their message and leave the document alone; on success the filtered changes and the previous check time (now when never checked) are returned, and the registration takes the delta link's token and the current time exactly when some change is left; the call succeeds exactly when the resource names a drive, it has a registration, the delta chain can be followed and a token is at hand for changes to bookmark, and every failure leaves the document alone |
| Webhook.ProcessWebhook | template/api/src/plugins/webhook/index.ts:100-123 | only the first notification is processed: when its delta is received, the handler calls are exactly those of dispatching its filtered changes against the previous check time; any failure, an empty list included, ends in no handler call and leaves the document alone; every handler call is for a non-operational change of the delta |
| Webhook.WebhookEndpoint.constructor | template/api/src/plugins/webhook/index.ts:137 | no work has started |
| Webhook.WebhookEndpoint.Receive | template/api/src/plugins/webhook/index.ts:140-164 | corrected, with the status awaited: a validation token is echoed; while work is pending the notification is acknowledged and dropped; otherwise an unparsable body is rejected, and a parsed one starts the work and is acknowledged |
| Webhook.WebhookEndpoint.ReceiveAsWritten | template/api/src/plugins/webhook/index.ts:140-164 | as written: a validation token is echoed; an unparsable body is rejected; a parsed one always starts work, pending work or not |
| Webhook.OverlappingPostsAsWritten | template/api/src/plugins/webhook/index.ts:150-162 | as written, a second notification arriving while the first one's work is pending starts work of its own |
| Webhook.OverlappingPosts | template/api/src/plugins/webhook/index.ts:146-162 | corrected, a notification arriving while work is pending is dropped, and one arriving after the work settled starts new work |
| Webhook.WebhookEndpoint.Settle | template/api/src/plugins/webhook/index.ts:152-157 | pending work becomes settled, and nothing else changes |
| Heartbeat.Event | template/api/src/jobs/webhook-heartbeat.ts:36-39 | an event is posted to the parent thread exactly when there is one, and printed otherwise |
| Heartbeat.Exit | template/api/src/jobs/webhook-heartbeat.ts:31-34 | `exit()` ends the process exactly when there is no parent thread; under a worker it only posts `done` |
| Heartbeat.ScriptAsWritten | template/api/src/jobs/webhook-heartbeat.ts:68-104 | as written, the job always starts with the `started` event |
| Heartbeat.Work | template/api/src/jobs/webhook-heartbeat.ts:91-103 | the work checks the file out and registers the drive's root; a failed registration stops there, a successful one checks the file in and ends with `exit()` |
| Heartbeat.Script | template/api/src/jobs/webhook-heartbeat.ts:68-104 | corrected, a missing file id fails after the `started` event; a checked-out file retreats and exits; an abort exits; otherwise the job does the work |
| Heartbeat.RetreatDoesNotStopWorker | template/api/src/jobs/webhook-heartbeat.ts:79-91 | as written, a worker that finds the file checked out announces its retreat and then checks the file out all the same |
| Heartbeat.ExitEndsTheJob | template/api/src/jobs/webhook-heartbeat.ts:79-91 | corrected, once the job retreats or sees the abort signal it neither checks out nor registers anything |
| Heartbeat.AgreeWithoutWorker | template/api/src/jobs/webhook-heartbeat.ts:31-34 | without a parent thread the code as written and the corrected script behave alike |
| Heartbeat.CheckInAll | template/api/src/jobs/webhook-heartbeat.ts:47-59 | `cancel` takes one check-in per drive, plus one `cancelled` message per drive under a worker |
| Heartbeat.CheckInNext | template/api/src/jobs/webhook-heartbeat.ts:47-59 | one more drive appends its own check-in steps |
| Heartbeat.CheckInAllVisitsEveryDrive | template/api/src/jobs/webhook-heartbeat.ts:47-59 | every configured drive gets its check-in, in the configured order |
| Heartbeat.Job.constructor | template/api/src/jobs/webhook-heartbeat.ts:41 | the abort signal starts lowered and nothing has happened |
| Heartbeat.Job.Run | template/api/src/jobs/webhook-heartbeat.ts:68-104 | the job reaches the registration exactly when a file id is set, the file is not checked out and no abort was seen; only then may the document change; registration fails exactly when no record exists and Graph's subscription lacks a client state or id, and then the document is unchanged; an existing record is renewed for thirty days, and otherwise the new record with the token `latest` is appended; the trace is the corrected script |
| Heartbeat.Job.Cancel | template/api/src/jobs/webhook-heartbeat.ts:43-60 | the abort signal is raised and `cancelled` announced; a missing file id fails on the first drive; otherwise the file is checked in on every drive in order |
| Heartbeat.RegisteredResourceParses | template/api/src/jobs/webhook-heartbeat.ts:94 | the resource the job registers is one the webhook endpoint reads the drive id back from |
| WebhookRouter.Configure | template/api/src/routes/webhook-router.ts:13-17 | registration succeeds exactly when both folder ids are set and non-empty, and uses them; a missing shared folder id is reported first |
| WebhookRouter.InFolder | template/api/src/routes/webhook-router.ts:32 | the ancestry answer for one folder, with an unreadable item turned into the no-access error |
| WebhookRouter.Route | template/api/src/routes/webhook-router.ts:21-63 | an item without an id throws `Item ID is missing`; any event but a created folder does nothing; a created item that is not a folder throws `Item is not a folder`; sidecars are made only for a new folder that is neither configured folder; which sidecars a new folder gets by where it sits is stated, case by case, by WebhookRouter.CustomerChild, WebhookRouter.DeepCustomer, WebhookRouter.SharedChild, WebhookRouter.DeepShared and WebhookRouter.Outside |
| WebhookRouter.CustomerChild | template/api/src/routes/webhook-router.ts:32-37 | a folder created directly in the customer folder gets the customer and users sidecars |
| WebhookRouter.SharedChild | template/api/src/routes/webhook-router.ts:48-52 | a folder created directly in the shared folder, and not under the customer folder, gets the category sidecar |
| WebhookRouter.DeepCustomer | template/api/src/routes/webhook-router.ts:39-44 | a new folder under the customer folder but not directly in it gets a section sidecar |
| WebhookRouter.DeepShared | template/api/src/routes/webhook-router.ts:54-59 | a new folder under the shared folder but not directly in it, and not under the customer folder, gets a section sidecar |
| WebhookRouter.Outside | template/api/src/routes/webhook-router.ts:61-62 | a new folder under neither configured folder gets no sidecar |
| WebhookRouter.SidecarsOnlyUnderConfiguredFolders | template/api/src/routes/webhook-router.ts:30-62 | a sidecar is made only for a folder under one of the two configured folders, at some depth |

## Left out

- Microsoft Graph HTTP calls are left out: fetching items and children, delta pages, uploads, subscriptions, the `$batch` post. Their answers are parameters: the drive's parent map, the delta pages, the children list, the checkout lock id and the batch responses.
- Request forwarding (`reply.from`, `node-fetch`), JWS verification with `node-jose`, the key-store download and its failures, and MSAL are left out. The verifier is a parameter, and the MSAL client is modelled by the answers it gives.
- Application Insights telemetry, `console` logging and the tslog logger are left out. Only the level mapping and the level store are modelled.
- Concurrency is left out: `Promise.all`, `worker_threads`, Bree scheduling, `setTimeout`, deferred promises, handler order and the interleaving of `cancel` with `run`. The batcher's timer is a delay value plus an explicit `Flush` step. A worker's messages are trace entries. The webhook endpoint's map of promises is one slot that is empty, pending or settled; the `promise-status-async` package is not part of this model, and its `promiseStatus` is taken to answer asynchronously, with a promise of the status.
- Dates and ISO time strings are integers (milliseconds). Parsing a stored date is a `dateOf` parameter.
- The `localStorage` writes behind `setLevel` and `setDebugLevelUntil` are left out, as are the `useDebug` and `useLogger` context guards.
- The Graph client built by the provider (proxy base URL, custom hosts) is left out; only its batch fetcher and resolver are modelled.
- Batch.KeyResolver: uses strict equality where the source compares with `==`, because keys and queries share one type in the model.
- Batch.Batcher.constructor: does not take the optional `memory` argument; the memory always starts empty.
- DebugLevel.ParseIntOfDecimal: `parseInt` skips ASCII white space only; JavaScript also skips other Unicode spaces.
- AppropriateBuild.ToNumber: reads decimal numerals only; `Number` also accepts hexadecimal, exponents, signs and `Infinity`.
- ProjectPrompt.Validate: counts characters; JavaScript counts UTF-16 units, which decides the same for the ASCII names it accepts.
- BootstrapPulumi.FlagsOfOptions: `Flags` follows the given entry order; `Object.entries` puts integer-like keys first.
- Shell, `az`, `git`, `zx`, `spawn` and the `run` helper of the generator are left out. Registry tags, the git diff and directory listings are parameters. The commit-sha fallback, removing folders, writing `index.js` and `pulumi config set` are not modelled.
- The `setOrganisationId` setter of the user hook is left out.
- The webhook router's sidecar creation is left out; `WebhookRouter.Route` returns which sidecars a folder gets.
- `updateSubscription` in the webhook registration module is left out, since no modelled code calls it.
- The effects of checking the registration file out and in are left out; they are trace actions, and a check-in fails only when the file is not checked out.
- The drive-access lookup's failure in the sign-in router is modelled as `emailsOf` returning no list.
- DriveConfig.ParseAuthentication: checks presence only; the schema's string types are given by the model's types.
- `Webhook.ParseResource` models the resource pattern for runs without white space; other characters the pattern treats specially are not distinguished.
- TemplateStrings.ReplaceTemplateStrings: requires the file objects to be distinct, because a file listed twice would be rewritten twice through one alias.
- TemplateStrings.RestoreTemplateStrings: requires the file objects to be distinct, for the same reason.
- TemplateStrings.ReplaceTemplateStrings: file contents are modelled as decoded text; the UTF-8 decoding of the Buffer by `toString()` and the re-encoding by `Buffer.from` are not modelled, so a file whose bytes are not valid UTF-8 (whose invalid sequences decoding replaces by U+FFFD) is outside the model.
- TemplateStrings.RestoreTemplateStrings: the same decoding and re-encoding are not modelled, so TemplateStrings.RoundTrip holds for the text of a file, not for arbitrary bytes.
- DriveProxy.Handle: the access provider is present or absent; its own failure (`getUserAccessConfiguration` throwing, for example when the OpenID configuration URL is not set) is not modelled, so the handler is never shown answering that error.
- Ancestry.IsInFolder: requires that the parent chain walked with the default infinite depth ends, because the source has no cycle guard and would not terminate on a cyclic drive.
- Ancestry.Walk: requires that the parent chain walked with the default infinite depth ends, because the source has no cycle guard and would not terminate on a cyclic drive.
- Ancestry.DirectMatch: requires that the parent chain walked with the default infinite depth ends, because the source has no cycle guard and would not terminate on a cyclic drive.
- Ancestry.NoFolders: requires that the parent chain walked with the default infinite depth ends, because the source has no cycle guard and would not terminate on a cyclic drive.
- Ancestry.UnboundedIsDeepBounded: requires that the parent chain walked with the default infinite depth ends, because the source has no cycle guard and would not terminate on a cyclic drive.
- Ancestry.UnboundedSearch: requires that the parent chain walked with the default infinite depth ends, because the source has no cycle guard and would not terminate on a cyclic drive.
- Ancestry.BoundedMatchIsMatch: requires that the parent chain walked with the default infinite depth ends, because the source has no cycle guard and would not terminate on a cyclic drive.
- DriveProxy.AuthorizeItem: requires that the parent chain walked with the default infinite depth ends, because the source has no cycle guard and would not terminate on a cyclic drive.
- DriveProxy.Handle: requires that the parent chain walked with the default infinite depth ends, because the source has no cycle guard and would not terminate on a cyclic drive.
- DriveProxy.NoProviderNoItems: requires that the parent chain walked with the default infinite depth ends, because the source has no cycle guard and would not terminate on a cyclic drive.
- DriveProxy.WritesIgnoreReadList: requires that the parent chain walked with the default infinite depth ends, because the source has no cycle guard and would not terminate on a cyclic drive.
- WebhookRouter.InFolder: requires that the parent chain walked with the default infinite depth ends, because the source has no cycle guard and would not terminate on a cyclic drive.
- WebhookRouter.Route: requires that the parent chain walked with the default infinite depth ends, because the source has no cycle guard and would not terminate on a cyclic drive.
- WebhookRouter.CustomerChild: requires that the parent chain walked with the default infinite depth ends, because the source has no cycle guard and would not terminate on a cyclic drive.
- WebhookRouter.SharedChild: requires that the parent chain walked with the default infinite depth ends, because the source has no cycle guard and would not terminate on a cyclic drive.
- WebhookRouter.SidecarsOnlyUnderConfiguredFolders: requires that the parent chain walked with the default infinite depth ends, because the source has no cycle guard and would not terminate on a cyclic drive.
- WebhookRouter.DeepCustomer: requires that the parent chain walked with the default infinite depth ends, because the source has no cycle guard and would not terminate on a cyclic drive.
- WebhookRouter.DeepShared: requires that the parent chain walked with the default infinite depth ends, because the source has no cycle guard and would not terminate on a cyclic drive.
- WebhookRouter.Outside: requires that the parent chain walked with the default infinite depth ends, because the source has no cycle guard and would not terminate on a cyclic drive.
- Heartbeat.Job.Run: requires at least one drive, because drive resolution throws `No drives configured` before the job runs when there is none.
- Webhook.GetChanges: requires the pages to be linked, so that each next link leads to the following page. The URLs themselves are abstracted to links with tokens.
- Batch.Batcher.Flush: requires a pending timer, because the source only flushes from its timer.
- Batch.Batcher.FlushAsWritten: requires a pending timer, for the same reason.
- Authentication.Enrich: answers the corrected claims, with the customer roles spread. As written the roles are nested, so a user with customer folders enabled but no folder and no list still gets three claims with an empty role, and an admin with customer folders enabled but no associated folder gets the role text `ADMIN,`; `Authentication.ClaimsAsWritten` gives that answer, and `Authentication.NoRolesGuardCannotFire` and `Authentication.AdminTrailingComma` show the difference.
- The allow-list and admin-list checks (`isOnAllowlist`, `isOnAdminList`) are covered through `Authentication.SingleDomain`, `Authentication.NoSubdomainMatch` and `Authentication.AdminFirst`.

## Findings

| source | as written | input that shows it | evidently intended | confidence | as-written member | corrected member |
|---|---|---|---|---|---|---|
| template/api/src/jobs/webhook-heartbeat.ts:31-34 | under a worker thread `exit()` only posts `done`, so after announcing its retreat, or after seeing the abort signal, the job carries on and checks the file out | a worker run whose registration file is already checked out | `exit()` ends the job, so the retreat and the abort stop it before any check-out | not executed | Heartbeat.RetreatDoesNotStopWorker | Heartbeat.ExitEndsTheJob |
| template/api/src/routes/authentication-router.ts:91 | `roles.push(customerRoles)` nests the customer roles as one element, so `roles.length` is at least 1 and the no-roles guard at line 132 never fires | options with customer folders enabled, a user on no list and with no associated folders | a user with no role gets no claims | not executed | Authentication.NoRolesGuardCannotFire | Authentication.ClaimsNeedARole |
| template/app/src/services/graph/utils/batch.ts:115-140 | when more than `limit` queries are pending, every waiting caller awaits the request just sent, although the overflow queries are not in it; the overflow stays pending with no timer | limit 1, queries 1 and 2 | overflow callers await the next request, and a timer is scheduled for it | not executed | Batch.OverflowStrandsCaller | Batch.FlushKeepsValid |
| utils/process.js:36 | the restore guard tests for `$[[` rather than the `$%{` the replacement writes, so a file without `$[[` is never restored | a file holding `${a}` and no `$[[` ends as `$%{a}%` | restoring undoes replacing on every file | not executed | TemplateStrings.EscapedFileStaysEscaped | TemplateStrings.RoundTrip |
| template/api/src/plugins/webhook/index.ts:153 | `promiseStatus` from `promise-status-async` is called without `await`, so `status` is a promise and never equals the pending status; pending work never holds back a notification | a second notification posted while the first one's work is still pending starts a second run | a notification that arrives while work is pending is acknowledged and dropped, as the comment at lines 146-149 says | not executed; the source of promise-status-async is not part of this model | Webhook.OverlappingPostsAsWritten | Webhook.OverlappingPosts |
