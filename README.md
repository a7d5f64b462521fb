# GYRO_SONIC core, modelled in Dafny

This project models the core of the Unity game GYRO_SONIC and proves properties of that model.

- **The reference-counted asset loader** (`asset_loading.dfy`, `asset_catalog.dfy`, `text.dfy`).
  - Asset handlers come in three kinds: loaded from `Resources`, taken from an asset bundle, or a dummy placeholder for scenes in the editor.
  - Asset handlers share the bundle handlers. These are kept in the get-or-create table of `AssetBundleHandler`, one per `AssetBundleInfo`, with dependency edges, reference users, an asynchronous load state machine and a cascading unload.
  - The `AssetManager` façade finds or makes handlers and counts references. It queues completion callbacks and drains them in FIFO order. Each call of `LoadStartIfCan` starts at most one handler that has not started, unless the threads are saturated. It also tears down unloadable handlers.
- **The sound track pool** (`sound.dfy`). This covers the `isPlaying`/`isPause` state machine of a `SoundObject` and its `onStop`/`onDestroy` events. It also covers the track selection of `SoundObjectPool.Play` and the priority order it keeps.
- **The tube and pipe mesh index layout** (`tube_mesh.dfy`, `pipe_mesh.dfy`, `index_math.dfy`). It models ring sizes, triangle indices and the UV x coordinates of `TubeMeshData.CreateMesh`, `PipeMeshEditor.CreateMesh` and `PipeMeshEditor.Ring`.
- **`JsonUtilityEx`** (`json_list.dfy`). It models the list encoder `ToJson` and the brace-depth splitter and element-type extraction of `FromJson`.

`sequences.dfy` holds facts about the `List<T>` operations the code uses (`Remove`, `RemoveAll`, `Contains`), and `wrappers.dfy` holds `Option`.

How the model is set up:

- **Imperative code.** Code that updates objects in place is modelled as classes with `modifies` clauses. Lists are `seq` fields that the methods reassign.
- **Closures.** The source's closures are data. A `BundleCallback` is either "the bundle of this asset is ready" or "a dependency of this bundle is ready, reload it with this callback". A `UserCallback` is the caller's callback.
- **Engine requests.** `Resources.LoadAsync`, `AssetBundle.LoadFromFileAsync`, `LoadAssetAsync` and `LoadAssetWithSubAssetsAsync` become entries of the manager's `fetches`. The environment completes them in any order through `AssetManager.CompleteFetch`.
- **Deferred work.** Work deferred by `StartDelayActionCoroutine` becomes the manager's `tasks`. `AssetManager.RunNextFrame` runs it.
- **Invariants.** `AssetManager.Valid` holds the handler table, the bundle table and graph, the callback queue and the requests. The user invariant `AssetManager.UsersOk` is kept beside it. It says that `reach` is exact, that every user of a bundle is a user of its dependencies, and that every user is a known bundle asset whose bundle reaches that bundle. The operations that touch bundle users state that they keep it. The loading operations do not modify what it reads, so it holds across them unchanged.
- **Failures.** A `NullReferenceException` in the source ends the operation and is modelled as `ok == false`. `Debug.LogError` messages go to the manager's `errors` list.

Where the design description of the loader and the code differ, the model follows the code:

- **Load without bundle info.** A typed load of a path with no bundle info always makes a `Resources` handler (`AssetManager.cs:127-131`). Only a scene load in the editor degrades to a dummy. Outside the editor such a scene load logs an error and adds nothing.
- **Completed bundles.** `LoadAsync` on a completed bundle runs its callback at once, re-entrantly (`AssetBundleHandler.cs:192-197`), not on the next frame.
- **Failed loads.** A bundle file that fails to load is stored as null (`request.assetBundle`), and the asset step then dereferences it (`BundleReady`). That asset load never completes, and its callback never runs. A failed `Resources` request, or a failed asset request for a type not derived from `MonoBehaviour`, completes its handler with no asset. For a `MonoBehaviour` type, `GetComponent` on the missing object ends the step in the same way.
- **Thread limit.** `LoadStartIfCan` compares the count with `maxThreadCount` only right after the count grows. So with `maxThreadCount <= 0` one handler still starts when none is loading (`AssetLoading.Saturated`). Each call starts at most one handler, not enough to fill every free thread. A load that completes at once (its bundle is a scene bundle already loaded) runs `OnLoadedAssetHandler` re-entrantly, and that calls `LoadStartIfCan` again, so one outer call can start several handlers.
- **Payload and status.** A completed handler may still hold no asset. This happens for a dummy, for a failed `Resources` load, and for a synchronous `Load`, which the model leaves opaque.

## Model

| member | source | states |
|---|---|---|
| AssetCatalog.AssetBundleInfo.constructor | Assets/Plugins/Musha/AssetManager/AssetBundleInfo.cs:10-31 | a bundle list entry holds its name and its optional dependency names |
| AssetCatalog.ExactMatch | Assets/Plugins/Musha/AssetManager/AssetManager.cs:67-76 | the first entry whose name equals the path ignoring case, with none before it; `None` exactly when no entry matches |
| AssetCatalog.ContainedMatch | Assets/Plugins/Musha/AssetManager/AssetManager.cs:78-87 | the first entry whose name occurs in the lower-cased path; `None` exactly when no name occurs |
| AssetCatalog.BundleInfoFor | Assets/Plugins/Musha/AssetManager/AssetManager.cs:65-90 | the bundle search returns an index of the list, or `None` (null) |
| AssetCatalog.BundleInfoForChoice | Assets/Plugins/Musha/AssetManager/AssetManager.cs:65-90 | an exact match ignoring case wins and is the first such entry; with no exact match, an entry whose name the lower-cased path contains is chosen (the first one) exactly when one exists |
| AssetCatalog.FindsOwnName | Assets/Plugins/Musha/AssetManager/AssetManager.cs:70-76 | an entry is found by its own name written in any letter case, when no earlier entry has that name |
| Text.ReplaceChar | Assets/Plugins/Musha/AssetManager/AssetHandler.cs:63 | same length, each `from` character replaced by `to` and nothing else changed; no `from` remains |
| Text.ToLower | Assets/Plugins/Musha/AssetManager/AssetManager.cs:78 | same length; every ASCII capital letter lower-cased, every other character kept |
| Text.EqualsIgnoreCaseIsEquivalence | Assets/Plugins/Musha/AssetManager/AssetManager.cs:72 | equality ignoring ASCII letter case is reflexive, symmetric and transitive |
| Text.IndexOf | Assets/Plugins/Musha/AssetManager/AssetManager.cs:83 | the first position at which the substring occurs; `None` when it occurs nowhere |
| Text.ContainsMeansOccurs | Assets/Plugins/Musha/AssetManager/AssetManager.cs:83 | `Contains` holds exactly when the substring occurs at some position |
| Text.LastIndexOf | Assets/Game/Scenes/Test.cs:133-134 | the last position of the character, -1 exactly when it does not occur |
| Text.GetFileName | Assets/Plugins/Musha/AssetManager/AssetBundleAssetHandler.cs:55 | the file name is the suffix after the last '/', and contains no '/' (`IsFileNameOf`) |
| AssetLoading.FirstMatch | Assets/Plugins/Musha/AssetManager/AssetManager.cs:97-106 | the first handler whose path matches ignoring case and whose type is unspecified, equal or a subclass; `None` exactly when none matches |
| AssetLoading.FindBundle | Assets/Plugins/Musha/AssetManager/AssetBundleHandler.cs:83 | the first table entry for the info; `None` exactly when the table has none |
| AssetLoading.TableOkRemove | Assets/Plugins/Musha/AssetManager/AssetBundleHandler.cs:217 | removing a bundle from the table keeps one handler per info and removes exactly that bundle |
| AssetLoading.TableOkAdd | Assets/Plugins/Musha/AssetManager/AssetBundleHandler.cs:81-89 | adding a handler for an info the table lacks keeps one handler per info |
| AssetLoading.WithoutHandler | Assets/Plugins/Musha/AssetManager/AssetManager.cs:362 | `RemoveAll` keeps exactly the queued callbacks of other handlers |
| AssetLoading.WithoutHandlerAppend | Assets/Plugins/Musha/AssetManager/AssetManager.cs:362 | `RemoveAll` keeps the queue order: it distributes over concatenation |
| AssetLoading.WithoutHandlerNone | Assets/Plugins/Musha/AssetManager/AssetManager.cs:362 | a queue without entries of the handler is left as it is |
| AssetLoading.DrainedTransitive | Assets/Plugins/Musha/AssetManager/AssetManager.cs:334-338 | two drains from the front of the queue in a row are one drain |
| AssetLoading.LoadingCountPrefix | Assets/Plugins/Musha/AssetManager/AssetManager.cs:305-318 | a prefix of the handlers counts no more loading handlers than the whole list |
| AssetLoading.FirstNotStarted | Assets/Plugins/Musha/AssetManager/AssetManager.cs:321 | `Find` of the first handler not started; `None` exactly when every handler has started |
| AssetLoading.FirstUnfinished | Assets/Plugins/Musha/AssetManager/AssetBundleHandler.cs:154-157 | the first dependency that is not completed; `None` exactly when all are completed |
| AssetLoading.AdvanceCompose | Assets/Plugins/Musha/AssetManager/AssetManager.cs:331-342 | loader progress composes: no handler goes back to not started or leaves completed, the queue is only drained from its front, requests and tasks are only appended |
| AssetLoading.FirstStarted | Assets/Plugins/Musha/AssetManager/AssetManager.cs:303-326 | after a new handler joins, `LoadStartIfCan` has started the first handler not started (the new one if no other), unless the threads were saturated |
| AssetLoading.CascadeCompose | Assets/Plugins/Musha/AssetManager/AssetBundleHandler.cs:204-225 | two unload cascades of one user in a row are one cascade over the bundles either reached |
| AssetLoading.ResolvedGrow | Assets/Plugins/Musha/AssetManager/AssetBundleHandler.cs:69-75 | the dependencies resolved so far stay resolved while the table grows, and one more joins them in order |
| AssetLoading.LessRanked | Assets/Plugins/Musha/AssetManager/AssetBundleHandler.cs:69-75 | every dependency name of a loadable catalogue resolves to an entry of smaller rank |
| AssetLoading.AssetHandler.Resources | Assets/Plugins/Musha/AssetManager/AssetHandler.cs:46-65 | a `Resources` handler: path with '\' turned into '/', the given type, not started, no asset, one reference, not pinned |
| AssetLoading.AssetHandler.Dummy | Assets/Plugins/Musha/AssetManager/DummyAssetHandler.cs:16-19 | a dummy handler: normalised path, no type, not started, no asset, one reference, not pinned |
| AssetLoading.AssetHandler.Bundle | Assets/Plugins/Musha/AssetManager/AssetBundleAssetHandler.cs:27-33 | a bundle asset takes the existing bundle handler of its info, or a new one, and is appended once to the users of exactly the bundles that handler reaches; `isMonoBehaviour` is whether the type derives from `MonoBehaviour`; the loader's invariants, including the user invariant, are kept |
| AssetLoading.AssetHandler.Load | Assets/Plugins/Musha/AssetManager/AssetHandler.cs:70-87 | not started becomes completed; loading stays loading and logs an error; completed changes nothing |
| AssetLoading.AssetHandler.Unload | Assets/Plugins/Musha/AssetManager/AssetBundleAssetHandler.cs:91-98 | only an unloadable bundle asset acts, and then forgets its bundle handler, so a second call changes nothing. If it had one, the cascade covers exactly what that bundle reaches: each of those bundles lost this user and was released when left without users, no bundle keeps the user, and no other bundle changes. Other kinds keep the base `Unload`, which does nothing |
| AssetLoading.AssetHandler.Join | Assets/Plugins/Musha/AssetManager/AssetBundleAssetHandler.cs:31-32 | the handler becomes known and takes the table's handler for the info (the existing one if any, else a fresh one); exactly the bundles that handler reaches gain it, appended once at the end; the invariants are kept |
| AssetLoading.AssetHandler.Attach | Assets/Plugins/Musha/AssetManager/AssetBundleAssetHandler.cs:32 | the handler's bundle is set and the handler is appended once to the users of every bundle it reaches; no other bundle's users change; the user invariant is kept |
| AssetLoading.AssetHandler.Detach | Assets/Plugins/Musha/AssetManager/AssetBundleAssetHandler.cs:95-96 | the unload cascades over everything the handler's bundle reaches, after which no bundle holds the handler and it has no bundle; the user invariant is kept |
| AssetLoading.AssetHandler.LeaveBundle | Assets/Plugins/Musha/AssetManager/AssetBundleAssetHandler.cs:95-96 | the cascade over what the bundle reaches; each bundle's users lose exactly this handler and keep all others |
| AssetLoading.AssetHandler.LoadAsync | Assets/Plugins/Musha/AssetManager/AssetHandler.cs:97 | the handler leaves not started; a `Resources` handler has exactly one completion pending, a dummy one next-frame task; a bundle asset with no bundle handler fails while loading, and one on a bundle not yet completed is loading with no other status or queue changed |
| AssetLoading.AssetHandler.LoadBundleAssetAsync | Assets/Plugins/Musha/AssetManager/AssetBundleAssetHandler.cs:38-86 | the handler leaves not started; with no bundle handler it fails (null dereference) while loading; on a bundle not yet completed it is loading and no other asset status, callback or task changes |
| AssetLoading.AssetHandler.LoadResourcesAsync | Assets/Plugins/Musha/AssetManager/ResourcesAssetHandler.cs:29-73 | loading, then exactly one of: the editor asset delivered next frame, or one `Resources.LoadAsync` request |
| AssetLoading.AssetHandler.LoadDummyAsync | Assets/Plugins/Musha/AssetManager/DummyAssetHandler.cs:24-38 | loading, with one completion deferred to the next frame and no request |
| AssetLoading.AssetBundleHandler.constructor | Assets/Plugins/Musha/AssetManager/AssetBundleHandler.cs:33-58 | a bundle handler starts not started, with no file, users, dependencies or queued callbacks |
| AssetLoading.AssetBundleHandler.GetOrCreate | Assets/Plugins/Musha/AssetManager/AssetBundleHandler.cs:81-89 | the table's handler for the info, with the table unchanged; otherwise a fresh one whose dependencies are resolved; never two per info |
| AssetLoading.AssetBundleHandler.Take | Assets/Plugins/Musha/AssetManager/AssetBundleAssetHandler.cs:31 | the table's handler for the info, or a fresh one with no users; the table only grows and the loader's invariants, the user invariant among them, are kept |
| AssetLoading.AssetBundleHandler.Create | Assets/Plugins/Musha/AssetManager/AssetBundleHandler.cs:63-76 | a fresh handler in the table, not started and without users, whose dependencies are the handlers of its dependency names in order |
| AssetLoading.AssetBundleHandler.Register | Assets/Plugins/Musha/AssetManager/AssetBundleHandler.cs:65 | the new handler joins the end of the table before its dependencies are resolved |
| AssetLoading.AssetBundleHandler.ResolveDependencies | Assets/Plugins/Musha/AssetManager/AssetBundleHandler.cs:69-75 | one handler per dependency name, each the table's handler for the entry the bundle search finds, of smaller rank |
| AssetLoading.AssetBundleHandler.ResolveNext | Assets/Plugins/Musha/AssetManager/AssetBundleHandler.cs:71-73 | one more dependency name resolved to the table's handler of its entry, those before it kept; the table only grows |
| AssetLoading.AssetBundleHandler.Depend | Assets/Plugins/Musha/AssetManager/AssetBundleHandler.cs:71-74 | the dependencies are assigned, and what the bundle reaches is itself together with all its dependencies reach |
| AssetLoading.AssetBundleHandler.Resolve | Assets/Plugins/Musha/AssetManager/AssetBundleHandler.cs:71-73 | `GetOrCreate(FindAssetBundleInfo(name))` yields a table handler for the name's entry |
| AssetLoading.AssetBundleHandler.AddReferenceUser | Assets/Plugins/Musha/AssetManager/AssetBundleHandler.cs:94-106 | idempotent; a new user is appended once to this bundle and is then a user of every bundle this one reaches, through the dependencies transitively; a bundle's users change only by that one append and only within that reach; users stay distinct, and the users of a bundle stay users of its dependencies |
| AssetLoading.AssetBundleHandler.PassDown | Assets/Plugins/Musha/AssetManager/AssetBundleHandler.cs:101-104 | one turn of the `foreach`: the dependency and every one before it hold the user, and only bundles this one reaches gained it |
| AssetLoading.UsersReachDown | Assets/Plugins/Musha/AssetManager/AssetBundleHandler.cs:94-106 | users flow down the graph: a user of a bundle is a user of every bundle it reaches |
| AssetLoading.DependencyReach | Assets/Plugins/Musha/AssetManager/AssetBundleHandler.cs:69-75 | a dependency of a known bundle is known, of smaller rank, and reaches no more than its parent |
| AssetLoading.AssetBundleHandler.Load | Assets/Plugins/Musha/AssetManager/AssetBundleHandler.cs:111-139 | not started: completed with its file, and every dependency has left not started; loading: nothing changes and an error is logged; completed: nothing changes; a bundle changes only from not started to completed with its file, and none of higher rank changes |
| AssetLoading.AssetBundleHandler.LoadAsync | Assets/Plugins/Musha/AssetManager/AssetBundleHandler.cs:144-199 | not completed: loading, with no callback, drain or task changed; not started: the first unfinished dependency is now loading, or the file is requested once (with the callback) when every dependency is completed; loading: the callback is queued and nothing requested; the loader only progresses |
| AssetLoading.AssetBundleHandler.StartLoad | Assets/Plugins/Musha/AssetManager/AssetBundleHandler.cs:148-183 | the not-started case: loading, and either the wait on the first unfinished dependency or the file request |
| AssetLoading.AssetBundleHandler.Proceed | Assets/Plugins/Musha/AssetManager/AssetBundleHandler.cs:154-181 | the dependency loop: a request only when every dependency is completed, else the first unfinished one is loading |
| AssetLoading.AssetBundleHandler.WaitOn | Assets/Plugins/Musha/AssetManager/AssetBundleHandler.cs:156-165 | the unfinished dependency is now loading; no asset status, callback or task changes |
| AssetLoading.AssetBundleHandler.RequestFile | Assets/Plugins/Musha/AssetManager/AssetBundleHandler.cs:169-181 | exactly one file request for this bundle, carrying the callback |
| AssetLoading.AssetBundleHandler.FirstIncomplete | Assets/Plugins/Musha/AssetManager/AssetBundleHandler.cs:154-157 | the `foreach` finds the first dependency that is not completed |
| AssetLoading.AssetBundleHandler.Leave | Assets/Plugins/Musha/AssetManager/AssetBundleHandler.cs:207-218 | the user leaves; with no user left the file is dropped and the bundle leaves the table, otherwise both are kept |
| AssetLoading.AssetBundleHandler.DropUser | Assets/Plugins/Musha/AssetManager/AssetBundleHandler.cs:207 | `Remove` of the user drops every occurrence, as users are distinct |
| AssetLoading.AssetBundleHandler.Release | Assets/Plugins/Musha/AssetManager/AssetBundleHandler.cs:213-217 | the file is dropped and exactly this bundle leaves the table |
| AssetLoading.AssetBundleHandler.Unload | Assets/Plugins/Musha/AssetManager/AssetBundleHandler.cs:204-225 | the recursion visits exactly what this bundle reaches (this one and its dependencies, transitively); each of those lost the user and was released when left without users; no other bundle changes |
| AssetLoading.ReachWithinClosed | Assets/Plugins/Musha/AssetManager/AssetBundleHandler.cs:220-224 | a set of known bundles closed under dependencies holds all that each of them reaches, so the unload's recursion covers the whole reach |
| AssetLoading.AssetManager.constructor | Assets/Plugins/Musha/AssetManager/AssetManager.cs:26-41 | an empty manager over the bundle list: no handlers, callbacks, bundles, requests or tasks |
| AssetLoading.AssetManager.FindAssetBundleInfo | Assets/Plugins/Musha/AssetManager/AssetManager.cs:65-90 | the entry the bundle search chooses; null exactly when it finds none |
| AssetLoading.AssetManager.FindAssetHandler | Assets/Plugins/Musha/AssetManager/AssetManager.cs:95-107 | the first live handler matching path and type; `None` exactly when none matches |
| AssetLoading.AssetManager.Adopt | Assets/Plugins/Musha/AssetManager/AssetManager.cs:139 | the new handler joins the end of `handlers` |
| AssetLoading.AssetManager.Make | Assets/Plugins/Musha/AssetManager/AssetManager.cs:124-140 | a new handler of the right kind joins the end of `handlers`, or a refused scene logs a missing-info error and gets null |
| AssetLoading.AssetManager.New | Assets/Plugins/Musha/AssetManager/AssetManager.cs:126-139 | a bundle asset with bundle info, else `Resources` with a type, else a dummy; fresh, with one reference |
| AssetLoading.AssetManager.Acquire | Assets/Plugins/Musha/AssetManager/AssetManager.cs:114-140 | a matching live handler gains exactly one reference and no handler is made; else one is made; no other count changes |
| AssetLoading.AssetManager.Load | Assets/Plugins/Musha/AssetManager/AssetManager.cs:112-146 | find-or-make, one more reference for a found handler, then `Load()`; the result is the handler's asset |
| AssetLoading.AssetManager.LoadSceneAsset | Assets/Plugins/Musha/AssetManager/AssetManager.cs:203-241 | the same without a type; a dummy in the editor or an error outside it when no bundle holds the scene |
| AssetLoading.AssetManager.LoadNow | Assets/Plugins/Musha/AssetManager/AssetManager.cs:114-143 | what the synchronous loads share: a found handler gains one reference and is completed unless loading, which logs an error; otherwise a new handler of the right kind joins with one reference and completes, or a refused scene logs an error |
| AssetLoading.AssetManager.Reload | Assets/Plugins/Musha/AssetManager/AssetManager.cs:118-143 | a found handler: one more reference, completed unless loading, which logs an error |
| AssetLoading.AssetManager.LoadNew | Assets/Plugins/Musha/AssetManager/AssetManager.cs:123-143 | a new handler with one reference joins `handlers` and is completed, or a refused scene logs an error |
| AssetLoading.AssetManager.Unload | Assets/Plugins/Musha/AssetManager/AssetManager.cs:347-365 | no effect on a handler not in `handlers`; one reference fewer, never below zero; an unloadable handler is torn down, leaves `handlers` and loses all its queued callbacks; no other handler changes |
| AssetLoading.AssetManager.Discard | Assets/Plugins/Musha/AssetManager/AssetManager.cs:357-363 | the teardown: out of `handlers`, the callbacks of others kept in order; a bundle asset is detached, the cascade covered what its bundle reached (users lost, bundles left without users released), and no bundle keeps it as a user |
| AssetLoading.AssetManager.Forget | Assets/Plugins/Musha/AssetManager/AssetManager.cs:361-362 | the handler leaves `handlers` (once, and no copy remains), and exactly its queued callbacks are dropped |
| AssetLoading.AssetManager.ThreadsSaturated | Assets/Plugins/Musha/AssetManager/AssetManager.cs:305-318 | the counting loop returns early exactly when at least one handler is loading and at least `maxThreadCount` are |
| AssetLoading.AssetManager.DrainCompleted | Assets/Plugins/Musha/AssetManager/AssetManager.cs:334-338 | callbacks are invoked and removed from the front in FIFO order, only for completed handlers, stopping at the first non-completed one |
| AssetLoading.AssetManager.LoadStartIfCan | Assets/Plugins/Musha/AssetManager/AssetManager.cs:303-326 | saturated or nothing waiting: no change; otherwise the first not-started handler has started |
| AssetLoading.AssetManager.OnLoadedAssetHandler | Assets/Plugins/Musha/AssetManager/AssetManager.cs:331-342 | the loader only progresses: no handler goes back to waiting or leaves completed, the queue only drains from its front |
| AssetLoading.AssetManager.Continue | Assets/Plugins/Musha/AssetManager/AssetBundleAssetHandler.cs:44-85 | a bundle callback runs: the asset's bundle step, or the parent bundle restarted and left not started no more |
| AssetLoading.AssetManager.Reset | Assets/Plugins/Musha/AssetManager/AssetBundleHandler.cs:160 | the parent bundle is not started again; nothing else waits or completes differently |
| AssetLoading.AssetManager.Restart | Assets/Plugins/Musha/AssetManager/AssetBundleHandler.cs:158-162 | the dependency continuation reloads the parent, after which it is no longer not started |
| AssetLoading.AssetManager.BundleReady | Assets/Plugins/Musha/AssetManager/AssetBundleAssetHandler.cs:44-85 | a scene bundle completes the asset at once; another bundle gets one asset request; a missing bundle or file dereferences null |
| AssetLoading.AssetQueryOf | Assets/Plugins/Musha/AssetManager/AssetBundleAssetHandler.cs:55-66 | the asset name is the path's file name; a sub-asset load exactly when the path differs from the bundle name ignoring case; a `MonoBehaviour` type is asked for as `GameObject`, any other type as itself |
| AssetLoading.AssetManager.SceneReady | Assets/Plugins/Musha/AssetManager/AssetBundleAssetHandler.cs:46-51 | a scene bundle: the asset completes at once and the loader only progresses |
| AssetLoading.AssetManager.RequestAsset | Assets/Plugins/Musha/AssetManager/AssetBundleAssetHandler.cs:55-66 | exactly one asset request on the loaded bundle, asking for the query `AssetQueryOf` states |
| AssetLoading.AssetManager.LoadAsync | Assets/Plugins/Musha/AssetManager/AssetManager.cs:151-198 | found: one more reference, exactly one queued callback, a drain next frame if completed; new: the handler joins with its one callback, the queue only drains from the front, and the first waiting handler starts unless saturated |
| AssetLoading.AssetManager.LoadSceneAssetAsync | Assets/Plugins/Musha/AssetManager/AssetManager.cs:246-298 | the same without a type; a refused scene logs an error, gets null and queues nothing |
| AssetLoading.AssetManager.LoadAsyncWith | Assets/Plugins/Musha/AssetManager/AssetManager.cs:151-198 | what the asynchronous loads share: a found handler gains one reference and one queued callback, and a drain task exactly when completed; a new one joins with its callback queued, the queue drains from the front and the first waiting load starts unless saturated; a refused scene only logs an error |
| AssetLoading.AssetManager.LoadAsyncNew | Assets/Plugins/Musha/AssetManager/AssetManager.cs:172-195 | no match: make, queue one callback, start the first waiting load |
| AssetLoading.AssetManager.MakeTracked | Assets/Plugins/Musha/AssetManager/AssetManager.cs:174-188 | a made handler extends the handlers' statuses by one not-started entry |
| AssetLoading.AssetManager.Requeue | Assets/Plugins/Musha/AssetManager/AssetManager.cs:157-169 | one more reference, one callback appended, a drain task exactly when the handler is completed |
| AssetLoading.AssetManager.Start | Assets/Plugins/Musha/AssetManager/AssetManager.cs:190-194 | the callback is queued, then drained from the front, and unless saturated the first waiting handler started |
| AssetLoading.AssetManager.StartNext | Assets/Plugins/Musha/AssetManager/AssetManager.cs:194 | `LoadStartIfCan` after a new handler: no change when saturated or nothing waits, otherwise the first not-started handler has started; the user invariant is kept |
| AssetLoading.AssetManager.Enqueue | Assets/Plugins/Musha/AssetManager/AssetManager.cs:191 | exactly one pair appended to `callbacks` |
| AssetLoading.AssetManager.CompleteFetch | Assets/Plugins/Musha/AssetManager/ResourcesAssetHandler.cs:62-72 | the completed request leaves the list and the loader only progresses; a `Resources` or asset request stores the object (the component for a `MonoBehaviour` type, failing on null) and completes its handler; a bundle request stores the file, completes the bundle and empties its queue unless a callback failed; dummies keep no asset |
| AssetLoading.AssetManager.Resume | Assets/Plugins/Musha/AssetManager/AssetBundleAssetHandler.cs:68-83 | the continuation of a request: the asset stored (the component for a `MonoBehaviour` type, failing on null) and the handler completed, or the bundle file stored and the bundle completed with its queue emptied unless a callback failed |
| AssetLoading.AssetManager.AssetLoaded | Assets/Plugins/Musha/AssetManager/AssetBundleAssetHandler.cs:71-82 | the asset is stored and the handler completed |
| AssetLoading.AssetManager.BundleLoaded | Assets/Plugins/Musha/AssetManager/AssetBundleHandler.cs:171-181 | the file, null when missing, is stored and the bundle completed; the queued callbacks are emptied unless one failed; the loader only progresses |
| AssetLoading.AssetManager.StoreAndContinue | Assets/Plugins/Musha/AssetManager/AssetBundleHandler.cs:174-178 | the file is stored and the bundle completed, then the request's own callback runs; the loader only progresses |
| AssetLoading.AssetManager.StoreFile | Assets/Plugins/Musha/AssetManager/AssetBundleHandler.cs:174-177 | the bundle file, null when missing, is stored and the bundle completed |
| AssetLoading.AssetManager.RunQueued | Assets/Plugins/Musha/AssetManager/AssetBundleHandler.cs:179-180 | the queued bundle callbacks are emptied unless one failed; the loader only progresses |
| AssetLoading.AssetManager.RunAll | Assets/Plugins/Musha/AssetManager/AssetBundleHandler.cs:179 | running the queued bundle callbacks only progresses the loader |
| AssetLoading.AssetManager.RunNextFrame | Assets/Plugins/Musha/AssetManager/AssetManager.cs:370-382 | the callback queue only drains from its front, requests are only appended, no handler goes back to waiting or leaves completed, and the handler of every deferred load has completed |
| AssetLoading.AssetManager.RunTasks | Assets/Plugins/Musha/AssetManager/AssetManager.cs:370-382 | the tasks of a frame in order; each load task's handler is completed |
| AssetLoading.AssetManager.RunTask | Assets/Plugins/Musha/AssetManager/ResourcesAssetHandler.cs:43-53 | a deferred load completes its handler; an editor asset is stored as the asset at its path; dummies keep no asset; the loader only progresses |
| AssetLoading.AssetManager.Finish | Assets/Plugins/Musha/AssetManager/DummyAssetHandler.cs:30-37 | the handler is completed and the loader only progresses |
| Sequences.RemoveFirst | Assets/Plugins/Musha/SoundManager/SoundObjectPool.cs:52 | `List.Remove` takes one occurrence out of the multiset, or leaves the list as it is |
| Sequences.RemoveFirstNoDuplicates | Assets/Plugins/Musha/SoundManager/SoundObjectPool.cs:52 | removing from a list without duplicates keeps it so and removes exactly that element |
| Sequences.RemoveAll | Assets/Plugins/Musha/AssetManager/AssetManager.cs:362 | `RemoveAll` leaves no occurrence and keeps only elements of the list |
| Sequences.RemoveAllKeeps | Assets/Plugins/Musha/AssetManager/AssetManager.cs:362 | `RemoveAll` keeps every other element |
| Sequences.RemoveFirstOfDistinct | Assets/Plugins/Musha/AssetManager/AssetBundleHandler.cs:207 | in a list without duplicates `Remove` is `RemoveAll` |
| Sequences.RemoveTimesOfUnique | Assets/Plugins/Musha/SoundManager/SoundObjectPool.cs:39 | removing an element that occurs at most once, once or more times, removes it and keeps the rest |
| Sound.SoundObject.constructor | Assets/Plugins/Musha/SoundManager/SoundObject.cs:14-29 | a new track: not playing, not paused, position 0, no subscribers |
| Sound.SoundObject.Init | Assets/Plugins/Musha/SoundManager/SoundObject.cs:57-65 | the track takes the sound and its priority |
| Sound.SoundObject.Play | Assets/Plugins/Musha/SoundManager/SoundObject.cs:67-77 | playing and not paused afterwards; a stopped or paused track restarts its source at the saved position, a playing one is untouched; `isPause ==> isPlaying` kept |
| Sound.SoundObject.Pause | Assets/Plugins/Musha/SoundManager/SoundObject.cs:79-87 | a playing, unpaused track pauses and saves the source position; otherwise nothing changes; `isPause ==> isPlaying` kept |
| Sound.SoundObject.Stop | Assets/Plugins/Musha/SoundManager/SoundObject.cs:89-100 | a playing track clears both flags and its position, notifies each `onStop` subscriber once in order and drops them; otherwise nothing changes |
| Sound.SoundObject.InvokeOnStop | Assets/Plugins/Musha/SoundManager/SoundObject.cs:97 | each listener in order: the others are notified, the pool's handler hides the track |
| Sound.SoundObject.Deliver | Assets/Plugins/Musha/SoundManager/SoundObjectPool.cs:58-62 | the pool's stop handler deactivates the track; any other listener is notified |
| Sound.SoundObject.OnDestroy | Assets/Plugins/Musha/SoundManager/SoundObject.cs:31-35 | each `onDestroy` subscriber notified once in order, then cleared; each subscribed pool drops the track once per subscription |
| Sound.SoundObject.Notify | Assets/Plugins/Musha/SoundManager/SoundObjectPool.cs:39 | a pool's destroy handler removes the track from that pool's list; any other listener is notified |
| Sound.Wrap32 | Assets/Plugins/Musha/SoundManager/SoundObjectPool.cs:54 | 32-bit two's-complement wrap: in range and congruent modulo 2^32 |
| Sound.PriorityDifferenceNotTransitive | Assets/Plugins/Musha/SoundManager/SoundObjectPool.cs:54 | the comparer `a.priority - b.priority` is not transitive once the subtraction wraps |
| Sound.ComparePriority | Assets/Plugins/Musha/SoundManager/SoundObjectPool.cs:54 | the intended comparison: negative exactly when lower, zero exactly when equal |
| Sound.ComparePriorityIsOrder | Assets/Plugins/Musha/SoundManager/SoundObjectPool.cs:54 | the intended comparison is antisymmetric and transitive |
| Sound.SortByPriority | Assets/Plugins/Musha/SoundManager/SoundObjectPool.cs:54 | the list sorted by ascending priority, a permutation of the input |
| Sound.InsertByPriority | Assets/Plugins/Musha/SoundManager/SoundObjectPool.cs:54 | one insertion step keeps the list sorted and adds exactly the track |
| Sound.FirstPlaying | Assets/Plugins/Musha/SoundManager/SoundObjectPool.cs:21-25 | the oldest track playing the sound; `None` exactly when none plays it |
| Sound.PlayingCount | Assets/Plugins/Musha/SoundManager/SoundObjectPool.cs:21-22 | the number of tracks playing the sound, at most the list size |
| Sound.FirstIdle | Assets/Plugins/Musha/SoundManager/SoundObjectPool.cs:30 | the first track that is not playing; `None` exactly when all play |
| Sound.PickTrack | Assets/Plugins/Musha/SoundManager/SoundObjectPool.cs:19-47 | polyphony reached: the oldest track of the sound; else the first idle track; else grow exactly when below `maxSize`; else the first (lowest priority) track |
| Sound.PickFailsOnlyWhenMisconfigured | Assets/Plugins/Musha/SoundManager/SoundObjectPool.cs:21-46 | no track is found only for a non-positive polyphony or pool size |
| Sound.SoundObjectPool.constructor | Assets/Plugins/Musha/SoundManager/SoundObjectPool.cs:9-15 | an empty pool with its size bound |
| Sound.SoundObjectPool.Play | Assets/Plugins/Musha/SoundManager/SoundObjectPool.cs:17-65 | the picked track (a new one only when growing) plays the sound at the priority and is shown; it occurs once in a list sorted by priority, within `maxSize` and without duplicates; other tracks are unchanged |
| Sound.SoundObjectPool.PlayOn | Assets/Plugins/Musha/SoundManager/SoundObjectPool.cs:49-62 | the chosen track is restarted, moved into priority order and subscribed to hide after stop |
| Sound.SoundObjectPool.Restart | Assets/Plugins/Musha/SoundManager/SoundObjectPool.cs:49-50 | stopped, then given the sound and priority |
| Sound.SoundObjectPool.Launch | Assets/Plugins/Musha/SoundManager/SoundObjectPool.cs:56-62 | shown, playing, and one hide-after-stop subscription appended |
| Sound.SoundObjectPool.Reorder | Assets/Plugins/Musha/SoundManager/SoundObjectPool.cs:52-54 | `Remove`, `Add` and `Sort`: the track once, the rest kept, sorted, within the size bound |
| Sound.SoundObjectPool.Stop | Assets/Plugins/Musha/SoundManager/SoundObjectPool.cs:67-73 | only a track of this pool is stopped; any other is left untouched |
| Sound.PoolAfterPlay | Assets/Plugins/Musha/SoundManager/SoundObjectPool.cs:35-54 | after remove, add and sort the track occurs once, the list has no duplicates and stays within `maxSize` |
| TubeMesh.CreateMesh | Assets/Plugins/Musha/TubeMeshEditor/TubeMeshData.cs:35-122 | null without a curve; a negative array size for `edgeCount < -1`; an index error for a one-point path; otherwise a mesh with the tube layout |
| TubeMesh.BuildRings | Assets/Plugins/Musha/TubeMeshEditor/TubeMeshData.cs:43-66 | one ring per path point, each of `edgeCount + 1` vertices, or the exception it runs into |
| TubeMesh.FillRing | Assets/Plugins/Musha/TubeMeshEditor/TubeMeshData.cs:59-65 | ring i holds its vertices in order |
| TubeMesh.Triangles | Assets/Plugins/Musha/TubeMeshEditor/TubeMeshData.cs:71-91 | quad (i, j) is the six indices `A0, B0, B1, A0, B1, A1` for every side of every pair of neighbouring rings, in order |
| TubeMesh.NextQuad | Assets/Plugins/Musha/TubeMeshEditor/TubeMeshData.cs:81-87 | one more quad written from the running offset extends the quads laid out so far |
| TubeMesh.RunningOffsets | Assets/Plugins/Musha/TubeMeshEditor/TubeMeshData.cs:81-84 | the running offset is `i * jmax`, so `A1` wraps to the start of the same ring |
| TubeMesh.UvX | Assets/Plugins/Musha/TubeMeshEditor/TubeMeshData.cs:94-111 | every UV slot `k = i * (edgeCount + 1) + j` gets `x = j`, and the UV count is the vertex count |
| TubeMesh.Flatten | Assets/Plugins/Musha/TubeMeshEditor/TubeMeshData.cs:115 | `SelectMany`: vertex k is vertex `k % m` of ring `k / m` |
| TubeMesh.IndexBijection | Assets/Plugins/Musha/TubeMeshEditor/TubeMeshData.cs:101 | `i * m + j` is a bijection between (ring, side) pairs and the slots |
| TubeMesh.QuadJoinsNeighbourRings | Assets/Plugins/Musha/TubeMeshEditor/TubeMeshData.cs:75-87 | the two triangles of quad (i, j) join sides j and j + 1 (wrapping) of ring i and ring i + 1 |
| TubeMesh.QuadAt | Assets/Plugins/Musha/TubeMeshEditor/TubeMeshData.cs:81-87 | the indices of quad (i, j) in a tube mesh |
| TubeMesh.VertexAt | Assets/Plugins/Musha/TubeMeshEditor/TubeMeshData.cs:115 | vertex (i, j) sits at index `i * m + j` |
| TubeMesh.TriangleIndicesInRange | Assets/Plugins/Musha/TubeMeshEditor/TubeMeshData.cs:81-90 | every triangle index lies in `[0, NumPoints * (edgeCount + 1))` |
| TubeMesh.TriangleCount | Assets/Plugins/Musha/TubeMeshEditor/TubeMeshData.cs:71-91 | the triangle list has `6 * (NumPoints - 1) * (edgeCount + 1)` entries |
| PipeMesh.Ring.constructor | Assets/Game/Scenes/PipeMeshEditor.cs:264-283 | `sidesCount + 1` points, point j the j-th point of the circle around its centre, the last a copy of the first; the `sidesCount` field keeps its initial 16 |
| PipeMesh.PipeMeshEditor.constructor | Assets/Game/Scenes/PipeMeshEditor.cs:18-28 | no rings and no mesh yet |
| PipeMesh.PipeMeshEditor.CreateMesh | Assets/Game/Scenes/PipeMeshEditor.cs:92-208 | the rings cleared, then one per path point; the mesh is the pipe layout; an exception keeps the old mesh |
| PipeMesh.RingFailure | Assets/Game/Scenes/PipeMeshEditor.cs:110-119 | the ring loop fails exactly for a one-point path, or for a negative side count on a path with points |
| PipeMesh.BuildRings | Assets/Game/Scenes/PipeMeshEditor.cs:110-119 | one fresh ring per path point, ring k around point k, or the exception and no ring |
| PipeMesh.Flatten | Assets/Game/Scenes/PipeMeshEditor.cs:151 | `SelectMany`: vertex k is point `k % m` of ring `k / m` |
| PipeMesh.AppendRing | Assets/Game/Scenes/PipeMeshEditor.cs:151 | one ring's points follow the rings before it: vertex k is point `k % m` of ring `k / m` up to `(i + 1) * m` |
| PipeMesh.Triangles | Assets/Game/Scenes/PipeMeshEditor.cs:153-174 | quad (i, j) is `a, c, d, a, d, b` for every side of every pair of neighbouring rings, in order |
| PipeMesh.JoinRings | Assets/Game/Scenes/PipeMeshEditor.cs:157-169 | the quads of one pair of neighbouring rings extend those so far |
| PipeMesh.UvX | Assets/Game/Scenes/PipeMeshEditor.cs:176-201 | one UV per ring point, with `x = j` |
| PipeMesh.SeamRepeatsFirstPoint | Assets/Game/Scenes/PipeMeshEditor.cs:281-282 | the last point of each ring in the mesh repeats its first |
| PipeMesh.RingPointsDistinct | Assets/Game/Scenes/PipeMeshEditor.cs:271-283 | point j of ring i, j < sidesCount, is its own point of the circle, with `uv.x = j` |
| PipeMesh.TrianglesInRange | Assets/Game/Scenes/PipeMeshEditor.cs:155-172 | `6 * (rings.Count - 1) * (sidesCount + 1)` triangle indices, each naming a vertex |
| JsonList.ToJson | Assets/Game/Scenes/Test.cs:71-99 | a list is "[" then the items' encodings joined by "," then "]"; other values are JsonUtility's text |
| JsonList.ListIsBracketed | Assets/Game/Scenes/Test.cs:79-91 | every list text is bracketed, and the empty list is "[]" |
| JsonList.SplitObjects | Assets/Game/Scenes/Test.cs:105-130 | the splitting loop yields exactly the pieces of the brace scanner |
| JsonList.CountIsDepth | Assets/Game/Scenes/Test.cs:109-124 | the loop's `count` is the curly-brace depth of the text read |
| JsonList.PiecesAreBalanced | Assets/Game/Scenes/Test.cs:111-130 | each piece starts with '{', ends with the '}' that brings the depth back to 0, and never reaches 0 before |
| JsonList.PiecesGrow | Assets/Game/Scenes/Test.cs:127 | pieces are cut out in reading order: reading more only appends |
| JsonList.PiecesOccur | Assets/Game/Scenes/Test.cs:127 | each piece is a substring of the text |
| JsonList.BalancedScan | Assets/Game/Scenes/Test.cs:111-130 | a balanced object alone is cut out whole, its nested objects not separately |
| JsonList.SplitAfterEncode | Assets/Game/Scenes/Test.cs:71-130 | splitting the text `ToJson` writes for a list of balanced objects gives back the objects |
| JsonList.ElementTypeName | Assets/Game/Scenes/Test.cs:132-135 | the text strictly between the last '[' and the last ']'; `None` where `Substring` throws |
| JsonList.ElementTypeNameOf | Assets/Game/Scenes/Test.cs:132-135 | the element type of `Prefix[Name]` is `Name` |
| JsonList.FromJson | Assets/Game/Scenes/Test.cs:101-164 | not a list exactly when the text does not start with '['; otherwise the pieces and the element type name |
| JsonList.FromJsonAfterToJson | Assets/Game/Scenes/Test.cs:71-164 | `FromJson<List<T>>(ToJson(list))` hands each item's own text back with element type `T` |

## Left out

- Unity engine calls are not modelled beyond their effect on the loader. These are `Resources.LoadAsync`, `AssetBundle.LoadFromFile(Async)`, `LoadAssetAsync` / `LoadAssetWithSubAssetsAsync` and the editor's `AssetDatabase`. They are parameters of the manager or requests that the environment completes.
- Coroutines (`StartDelayActionCoroutine`, `DelayAction`) are modelled as a task list run by `RunNextFrame`; frame timing is not modelled.
- The callers' callbacks are only recorded, in order, in `drained`. What they do is not modelled.
- `GetAssetBundleDirectoryPath` and `Path.Combine` are left out: the bundle file of an entry is looked up by bundle name. The checksum and file size fields of `AssetBundleInfo` are not used by the core.
- The editor menu items `SetAssetBundleName` and `BuildAssetBundle` (`AssetManager.cs:384-433`) are editor tooling.
- `AssetLoading.AssetHandler.Load`: the synchronous `LoadInternal` is abstract and no shown subclass implements it. The model only sets the status and leaves the asset as it was.
- The engine call `LoadAssetAsync` / `LoadAssetWithSubAssetsAsync` is not modelled beyond the query it is asked (`AssetQueryOf`), which the bundle asset request carries.
- AssetLoading.AssetManager.OnLoadedAssetHandler: promises only that the loader progresses; its steps are stated by `DrainCompleted` and `LoadStartIfCan`.
- AssetLoading.AssetManager.RunAll: promises only that the loader progresses, not that each queued callback ran in order.
- AssetLoading.AssetManager.RunQueued: promises only progress and the emptied queue, not which callbacks ran.
- AssetLoading.AssetBundleHandler.LoadAsync: for a completed bundle it promises only that the loader progresses; the callback runs at once and is stated by `Continue`.
- AssetLoading.AssetManager.RunNextFrame: does not state that each deferred task ran exactly once in order. Their steps are stated by `DrainCompleted` and `LoadStartIfCan`, and by `BundleLoaded`'s emptied queue.
- `AssetLoading.AssetHandler.LoadAsync`: for a bundle asset whose bundle is already completed, the contract says only that the handler has started. The scene or asset step runs at once and is stated by `BundleReady`.
- The catalogue is required to be loadable (`AssetCatalog.Catalog`): every dependency name resolves, and the dependency graph is acyclic, ranked by a ghost `rank`. Without this the source dereferences null, or its synchronous load and unload recurse forever.
- A `NullReferenceException` (a bundle handler gone, a missing bundle file, a `GameObject` without the component) ends the operation, shown as `ok == false`. Exceptions are not modelled beyond that.
- `GetComponent` is modelled as `ComponentOf(object, type)`. `Type.IsSubclassOf` is a relation given with the manager.
- `Debug.Log` output in `JsonUtilityEx.FromJson` and the `LogError` messages are modelled only as the loader's `errors` list.
- `JsonUtility.ToJson`/`FromJson`, `Activator.CreateInstance` and `Type.GetType` are foreign calls. A non-list value carries JsonUtility's text. `FromJson` ends with the element type name and the pieces handed to JsonUtility.
- Floating-point geometry is not modelled: vertex positions, quaternion rotations, the UV `y` magnitudes, radius and scale. A vertex is identified by its ring and its place on the ring. The obstacle placement with `Random`, the camera `Start`/`Update`, `SaveMesh` and `OnDrawGizmos` of `PipeMeshEditor` are not modelled either.
- `SoundObject.Update` (the loop-time wrap of the audio source, and the stop when the source ends) works on floating-point audio time and is not modelled. The audio clip, loop times and re-parenting in the pool's stop handler are not modelled either.
- `Sound.SortByPriority`: `List.Sort` is not stable. The model's insertion sort keeps equal priorities in list order, and the contract states sortedness and permutation only.
- Integer widths: the asset loader's reference counts and thread counts are unbounded. Only the priority subtraction is given its 32-bit width, and only in the lemma `Sound.PriorityDifferenceNotTransitive` of the Findings; the pool itself sorts with the corrected `Sound.ComparePriority`.
- Text.ToLower: folds ASCII letters only. .NET `ToLower()` and `OrdinalIgnoreCase` fold every cased Unicode character, so for names with non-ASCII letters (`"Äb"` and `"äb"`) the bundle search and the handler search of the model can differ from the source's.
- Text.EqualsIgnoreCase: ignores ASCII letter case only, for the same reason.
- No invariant bounds the number of loading handlers by `maxThreadCount`. The throttle is stated per call of `LoadStartIfCan` only, since re-entrant completions can start further handlers.

## Findings

| source | as written | input that shows it | evidently intended | confidence | as-written member | corrected member |
|---|---|---|---|---|---|---|
| Assets/Plugins/Musha/SoundManager/SoundObjectPool.cs:54 | the sort comparer is `a.priority - b.priority`, a 32-bit subtraction that wraps | priorities `int.MinValue`, `0`, `1`: it orders MinValue < 0 and 0 < 1, yet MinValue > 1, so the comparer is not transitive and `List.Sort` may misorder or throw | compare the priorities themselves (`a.priority.CompareTo(b.priority)`), a total order | not executed | Sound.PriorityDifferenceNotTransitive | Sound.ComparePriorityIsOrder |
