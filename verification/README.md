# future_was: unit of work, lock protocol and their neighbours

A Dafny 4.11 model of the game server's request core, with proofs. A request loads a user's entities
through three layers (request store, Redis hash, MySQL), services change the loaded structs in place and
queue INSERTs and UPDATEs whose values are read only at commit, `Commit` regroups the queue by database,
runs one transaction per database and writes the store back to the cache, and `dispatch` wraps all of
this in a session check, a leased per-user lock and a sync field for the client. Around it stand the
smaller cores: weighted shard choice, sliding sessions, design versions, reloads over Pub/Sub, migration
files and `PotentialMap`.

`dafny verify dfyconfig.toml` checks everything.

## How the model is laid out

* **On values.** `Rows`, `TableRun`, `Calls`, `Queue`, `Transactions`, `Request`, `Deferred`: tables with
  unique indexes and AUTO_INCREMENT, the queued writes with their late-read values, the grouping, the
  transactions with faults, and a request as a trace of loads and service calls. `Coherence`, `Mirror`,
  `Balance`: the cache, the sync field and the balances.
* **On objects.** `Stores`, `Shards`, `Units`, `Services`, `Accounts`, `Sync`, `Finish`, `Dispatch`,
  `Leases`, `Sessions`: classes and loops in the shape of the Go code. A `Model` is a struct that
  everybody holds a pointer to; `UnitOfWork` has `store`, `dbOps` and `dirty`, and a ghost record that
  says which trace it has gone through. Its invariant says the structs, the queue and the dirty set are
  those of replaying that trace on values, so every result about traces holds of the objects. `Upkeep`
  says what has to hold between requests and that each request restores it; `Grants` says when a new
  account gets its first goods.
* **On interleavings.** `Protocol` and `Upgrades`: many servers, lock keys with token and expiry, a clock,
  evictions at any time, and one step per effect of `dispatch`. `Steps`: a try for the lock, a commit and a
  release, as the methods do them, are steps of the protocol.
* **Smaller cores.** `Designs`, `Reloads`, `Migrations`, `Decimals`, `Potential`.

What a database or Redis may do is a parameter: which statement of which transaction fails, whether the
cache write, the SET of the lock, its release or the session check fails before or after taking effect,
whether loads may go unanswered (`flaky`), what other servers have left in the lock key at each try.
Random numbers, tokens and the clock are parameters too.

## What is assumed

* A step that reads or writes a user's data happens inside the user's 10 s lease, a commit is settled
  (cache written or dropped) inside it, and lock tokens are never drawn twice. Without that the code
  itself gives no exclusion.
* A user's cache was coherent when the request began. Every kind of ending that is not a panic keeps it
  so, given that `DeleteAll` reaches Redis (the source ignores its error). When the cache is not dropped,
  after a panic or a lost DEL, `Coherence.StaleUnless` says exactly when it is coherent all the same.
* The account exists and its shard is registered. Where an account does not load, `ShardDb` returns nil,
  a list load from it panics and `Commit` panics at that group: `Dispatch.Server.Dispatch` reports both
  as `Crashed`. An account that names a shard nobody registered is not modelled.
* A transaction that reports an error has not taken effect, and a call to Redis is sent once: retries
  inside the client library are not modelled.
* Item amounts stay below 2^63. The column is a signed BIGINT while the struct's field is a uint64, so a
  larger amount makes its statement fail, which is a fault at that statement.
* A login request with user 0 in its envelope takes no lock (internal/handler/dispatch.go:86), so logins
  are not part of the interleaved runs; one after the other they are, by the contract of `Dispatch`.

## What the code does that its comments do not say

* A failed cache write makes `Commit` return an error after the databases have committed
  (internal/uow/uow.go:315-319). `Dispatch.Complete` and `Dispatch.Server.Dispatch` state it: on a failed
  commit the tables are the old ones or the fully updated ones.
* The shard id of the game database is 1 in the code, while a message in main.go says 0.
* `Baseline` seeds version 0 before it reads what is applied (the `INSERT IGNORE` of
  sql/migrations/migrator.go:260), so a file stamped with fourteen zeros is not counted although it was
  pending (`Migrations.ZeroStampNotCounted`): `Migrations.BaselineCount` gives the exact condition.
* Version directories sort by name. With majors of different length that may differ from numeric order,
  as for 10.00.00 and 9.00.00 (`Migrations.TenBeforeNine`), or not, as for 1.00.00 and 10.00.00:
  `Migrations.OrdersAgreeIff` gives the exact condition for two names and `Migrations.WalkInVersionOrderIff`
  the one for all directories of a walk.
* The use-flag index keeps a row whose NID is repeated later without the flag: `Designs.IndexMayDiffer`;
  `Designs.IndexAgrees` gives the exact condition.
* Keys such as "1" and "01" of a potential object name one id, and Go's map order decides which value
  wins: `Potential.AmbiguousKeys`. An object is decoded in one way only if and only if such keys carry one
  value: `Potential.DeterminedIff`.
* A new account is inserted before its login can fail, and its session is set before the commit. If the
  shard's transaction then fails, the account stays, with a live session, and never gets its first goods,
  since no later login takes it for new: `Grants.GrantLost`, `Grants.GoodsArrive`, `Grants.LostForGood`.
* The deferred release runs under the request's context and its error is dropped
  (internal/handler/dispatch.go:92-94), and `Acquire` does not release a key whose SET reply was lost. In
  both cases the user is locked out until the lease ends: `Leases.LeftBehindIff`.

## Model

| member | source | states |
|---|---|---|
| TableRun.DeferredRun | internal/uow/uow.go:188-253 | over one table, and with values in column range, a request's queued writes never fail, and leave exactly the loaded-and-created list in the table, with the AUTO_INCREMENT keys filled into the objects in creation order |
| TableRun.TargetLists | internal/uow/uow.go:313-319 | after that the list is again a full listing of the user's rows, so it may go into the cache |
| TableRun.TargetOthers | internal/uow/uow.go:236-253 | and no other user's row has moved |
| Calls.TableCall | internal/service/item_service.go:37-91 | a service call on the list, then written, is the same call made directly on the table by SELECT and UPDATE or INSERT |
| Queue.StepsCommute | internal/uow/uow.go:296-305 | writes to different databases from different objects commute, generated keys included |
| Queue.GroupedRun | internal/uow/uow.go:279-309 | running group by group gives the same tables, objects and keys as the queue in its own order |
| Queue.GroupsPartition | internal/uow/uow.go:279-294 | the groups are a stable partition of the queue by database |
| Queue.GroupsInFirstOrder | internal/uow/uow.go:284-294 | and come in the order in which their databases first appear |
| Transactions.CommitPartial | internal/uow/uow.go:296-309 | when the k-th transaction fails, exactly the writes of the first k-1 databases have taken effect, in queue order; with no failure, all |
| Transactions.FaultFree | internal/uow/uow.go:296-309 | without a fault, and with every database there, a queue that can run commits as a whole |
| Transactions.FirstGroupsRan | internal/uow/uow.go:296-309 | whatever databases the groups are for, nil included, exactly the groups before the failing one have run |
| Request.TraceMeansDirect | internal/uow/uow.go:107-267 | whatever a request loads and calls, its store and queue stand for the tables the same calls would make at once |
| Request.StoreIsUsers | internal/service/account_service.go:28-59 | everything in the user store is the user's, and no two objects share a unique-index entry |
| Deferred.DeferredIsDirect | internal/uow/uow.go:188-312 | deferred equals immediate: committing any trace of loads and calls gives the tables, keys included, of making the calls one by one on the tables |
| Coherence.AnswerIsListing | internal/uow/uow.go:142-173 | with a coherent cache every load answers with the table's rows, and filling the cache keeps it coherent |
| Coherence.CommitLands | internal/uow/uow.go:277-326 | after any commit each table is the one the request stands for if its database committed, else untouched |
| Coherence.CommitOthers | internal/uow/uow.go:277-326 | however a commit ends, nobody else's rows or cache change |
| Coherence.CommitCoherent | internal/handler/uow_helper.go:10-21 | success, failed transaction, partial commit and failed cache write all leave the cache coherent or empty |
| Coherence.OthersCoherent | internal/cache/user_cache.go:64-98 | another user's cache stays coherent meanwhile |
| Coherence.OneDatabaseWhole | internal/database/database.go:234-254 | with all writes for one database a commit runs the whole queue in its own order, or changes no table |
| Coherence.OneDatabaseIff | internal/database/database.go:234-254 | and the former if and only if that one transaction meets no fault |
| Coherence.StaleUnless | internal/handler/uow_helper.go:10-16 | a commit that ends without the cache being dropped leaves it coherent if and only if the store was written after all or none of the cached rows has changed |
| Coherence.EveryEnding | internal/handler/uow_helper.go:10-21 | any trace, any failing transaction, any reply of the cache: others keep rows and cache; without a database error the tables are those of the immediate calls; otherwise exactly the databases that had committed are; an error leaves the user's cache empty; short of a panic the cache is coherent |
| Mirror.ClientFollows | internal/handler/sync.go:39-61 | overwriting a client's copy of one table with the sent list gives what the table holds afterwards |
| Mirror.SyncMirrors | internal/handler/dispatch.go:128-142 | for any trace: a client that held, field by field, the user's items and assets of the old tables and nothing else holds those of the new ones after the response |
| Mirror.SentTellsAll | internal/handler/item/get_items.go:12-35 | messages made of the answer to a SELECT tell every row of the user once, with its key and values, and nothing else |
| Balance.CallFlow | internal/service/asset_service.go:38-83 | a refused call changes nothing; an accepted one moves the amount by exactly what it says, wrapped to 64 bits |
| Balance.ConsumeExact | internal/service/item_service.go:73-91 | an item is consumed if and only if there is enough, and never wraps below zero |
| Balance.Conserved | internal/service/item_service.go:37-91 | conservation over any trace: loaded amount plus accepted adds minus accepted consumes |
| Balance.ItemsExact | internal/service/item_service.go:53-91 | while an item's running total stays below 2^64 the list holds exactly that total, which is never negative |
| Balance.BalanceInDatabase | internal/service/asset_service.go:38-83 | the same in the database after the commit, for amounts the signed column holds, and the sum is exact if and only if it fits the column's Go type |
| Leases.UserLock.Acquire | internal/cache/user_lock.go:48-78 | the lock is had if and only if one of 60 tries finds the key free and is answered before a try fails or finds the client gone; then the key holds this token for ten seconds; otherwise it is set if the last try found it free and was carried out, even if its reply is lost |
| Leases.UserLock.Release | internal/cache/user_lock.go:80-85 | deletes the key only while it holds the caller's token, and not at all when the call does not reach Redis; no other key goes |
| Leases.LeftBehindIff | internal/handler/dispatch.go:86-95 | a request leaves its key behind if and only if the key was set and its reply was lost or the release did not reach Redis, and then until ten seconds after it was set |
| Protocol.EveryLockExpires | internal/cache/user_lock.go:31-36 | in every run, lost replies and releases included, no key outlives the next ten seconds |
| Protocol.LeaseSafety | internal/cache/user_lock.go:31-36 | in every run at most one request of a user is acquired and unexpired, and the stored token and expiry are its own |
| Protocol.LateRelease | internal/cache/user_lock.go:80-85 | in every run a release leaves everybody else's lock alone, and changes no lock at all once the key has passed on |
| Protocol.SixtyTries | internal/cache/user_lock.go:57-77 | in every run a request that waits for the lock has tried 60 times at most |
| Protocol.Step | internal/handler/dispatch.go:70-131 | every step of every server, of the clock and of eviction keeps exclusion, coherence and the serial log |
| Protocol.EveryRunIsSerial | internal/handler/dispatch.go:86-131 | in every interleaving the tables are those of the requests one at a time, each user's in lock-acquisition order, each as far as its transactions committed |
| Protocol.EveryRunCoherent | internal/uow/uow.go:107-173 | in every interleaving, with partial commits and with evictions at any time, a user's cache agrees with the tables whenever no commit of that user is being settled |
| Upgrades.NoLostUpgrade | internal/handler/card/upgrade_card_level.go:13-35 | over any run, a card's level is the initial level plus the upgrades of its owner's requests that committed, modulo 2^16, and nothing else of it changed |
| Steps.TryIsStep | internal/cache/user_lock.go:57-77 | one try of the loop, answered or not, is one step of the protocol, and the request runs after it exactly if the key was free and the reply arrived |
| Steps.CommitIsSteps | internal/handler/uow_helper.go:8-21 | a commit, with the cache write and the drop of the cache after an error, is a chain of steps of the protocol with the same tables and cache |
| Steps.ReleaseIsStep | internal/cache/user_lock.go:80-85 | so is a release, carried out or not |
| Stores.UserCache.Get | internal/cache/user_cache.go:52-60 | a hit is the stored field |
| Stores.UserCache.Set | internal/cache/user_cache.go:62-74 | one field is stored, or nothing happens when Redis does not answer |
| Stores.UserCache.SetMulti | internal/cache/user_cache.go:76-98 | all fields are merged into the hash, whatever the order they are sent in |
| Stores.HSetMerge | internal/cache/user_cache.go:22-30 | the script's HSET loop over every field is the merge |
| Stores.UserCache.DeleteAll | internal/cache/user_cache.go:112-116 | only this user's hash goes |
| Stores.Sql.FindList | internal/database/database.go:162-180 | answers with exactly the user's rows, in some order |
| Stores.Sql.FindOne | internal/database/database.go:154-160 | answers with a row of the user if there is one |
| Stores.Sql.Create | internal/database/database.go:182-192 | inserts under the next key or changes nothing; after an error either may be the case |
| Shards.PoolIncreases | internal/database/database.go:70-82 | cumulative weights strictly increase and end at the total |
| Shards.DrawHits | internal/database/database.go:107-114 | every draw below the total ends the scan, so the last return is never reached |
| Shards.DrawsExact | internal/database/database.go:97-115 | of all draws exactly the registered weight of a shard returns it |
| Shards.DrawResolves | internal/database/database.go:117-124 | every returned id is registered |
| Shards.Registry.RegisterShard | internal/database/database.go:70-82 | an id is mapped to its database whatever its weight; only a positive weight enters pool and total, and adds to that shard's weight alone |
| Shards.DirectoryAt | internal/database/database.go:117-124 | an id resolves if and only if some registration names it, and then to the database of the last that does |
| Shards.Registry.PickShard | internal/database/database.go:97-115 | the loop returns the draw, and fails only without a weighted shard |
| Shards.Registry.CloseAll | internal/database/database.go:130-140 | forgets every registration: no map, no pool, no weight |
| Units.UnitOfWork.constructor | internal/uow/uow.go:44-57 | starts with nothing loaded, queued or dirty |
| Units.UnitOfWork.LoadOne | internal/uow/uow.go:104-137 | the account from store, cache or game database; loaded lists stay the same objects; while Redis answers it is in the cache afterwards |
| Units.UnitOfWork.LoadList | internal/uow/uow.go:139-173 | a list from store, cache or shard, as a sound load of the trace; what was loaded stays the same objects; a nil shard only when the account was unknown and did not load; while Redis answers it is in the cache afterwards |
| Units.UnitOfWork.ShardDb | internal/uow/uow.go:89-98 | the shard the account names, or nil |
| Units.UnitOfWork.QueueOp | internal/uow/uow.go:179-182 | the write is queued for the entity's database, or for nil when the account was unknown and did not load |
| Units.UnitOfWork.Create | internal/uow/uow.go:184-207 | the new struct is the last of its list, its INSERT is queued, and the call is added to the trace |
| Units.UnitOfWork.CreateNow | internal/uow/uow.go:209-234 | inserts the account at once, and its key becomes the user of the unit of work; after an error the row may be there all the same |
| Units.UnitOfWork.SetUserId | internal/uow/uow.go:82-83 | sets the user while nothing is loaded |
| Units.UnitOfWork.Update | internal/uow/uow.go:236-253 | a struct changed in place has its UPDATE queued, and the call is added to the trace |
| Units.GroupByDb | internal/uow/uow.go:280-294 | the loop with its index map builds exactly the partition of the queue |
| Units.RunOp | internal/uow/uow.go:199-206 | a closure reads the struct as it is now; an INSERT writes the new key back into it |
| Units.Transaction | internal/database/database.go:232-254 | all statements or none, at any point of failure |
| Units.Marshal | internal/cache/user_cache.go:86-95 | the copies sent to the cache are the structs' current values |
| Units.UnitOfWork.RunQueue | internal/uow/uow.go:278-312 | one transaction per group until one fails, as specified on values |
| Units.UnitOfWork.Commit | internal/uow/uow.go:273-326 | result, tables, structs and cache are those of the specification |
| Services.ItemService.GetItem | internal/service/item_service.go:21-34 | the scan finds the first struct with the id, or none |
| Services.ItemService.AddItem | internal/service/item_service.go:36-70 | the call is accepted and queued, or refused without effect when there is neither row nor design |
| Services.ItemService.ConsumeItem | internal/service/item_service.go:72-91 | accepted, or refused without effect for a missing row or too small an amount, told apart |
| Services.AssetService.GetAsset | internal/service/asset_service.go:21-35 | the scan finds the first struct with the id, or none |
| Services.AssetService.AddAsset | internal/service/asset_service.go:37-63 | always accepted once the list is loaded |
| Services.AssetService.ConsumeAsset | internal/service/asset_service.go:65-83 | accepted, or refused without effect, the two reasons told apart |
| Services.CardService.GetCard | internal/service/card_service.go:20-34 | the scan finds the card with the key, or none |
| Accounts.FindUserId | internal/repository/account_repository.go:27-39 | an active account of the channel, or none if there is none |
| Accounts.AccountService.Login | internal/service/account_service.go:18-59 | an existing account is loaded and touched, otherwise one is inserted on the shard that the random number draws by weight, and stays whatever fails after |
| Accounts.Login | internal/handler/account/login.go:13-58 | the calls a new account gets, in order, its shard as drawn, and the session set for eight hours; after every error at most one account row is there and everybody's cache is coherent |
| Accounts.Issue | internal/cache/user_session.go:46-57 | the session is set before the commit; after an error it may be there all the same |
| Accounts.GrantGives | internal/handler/account/login.go:31-40 | a new user ends up with 100 of asset 10000 and 2 of item 25000 and no other row of either kind |
| Grants.GoodsArrive | internal/handler/account/login.go:29-40 | a new account gets its goods if and only if the one transaction of its login meets no fault; otherwise nothing has changed |
| Grants.GrantLost | internal/uow/uow.go:296-309 | an input for which they do not arrive: the shard's BEGIN fails in the login that has inserted the account |
| Grants.LostForGood | internal/service/account_service.go:28-59 | goods that did not arrive never do: later logins find the account active and only touch it |
| Grants.OneDbTables | internal/uow/uow.go:296-309 | a request with all writes on one database ends with all of its calls made or none, as the fault of that transaction says |
| Sync.Dirty | internal/uow/uow.go:59-70 | every dirty struct once, under its entity |
| Sync.Build | internal/handler/item/setup.go:24-32 | one message per struct, in order, with the struct's key, type, id and amount, or key, id, quantity and recharge time |
| Sync.BuildSyncData | internal/handler/sync.go:37-61 | one list per entity with a builder; no sync field if and only if no builder got a struct |
| Sync.CarriesBuilt | internal/handler/sync.go:39-61 | the lists hold each changed object once, with final values and assigned key |
| Finish.CommitOrRollback | internal/handler/uow_helper.go:8-21 | an error drops the user's cache, a panic does not |
| Finish.NilFails | internal/uow/uow.go:89-98 | a queue with a nil database never commits as a whole |
| Finish.HealthyCommits | internal/uow/uow.go:296-309 | a valid queue commits while the databases answer |
| Finish.EndsWhole | internal/uow/uow.go:273-326 | a queue without a nil database never panics and ends as `Coherence.EveryEnding` says |
| Finish.EndsGroupwise | internal/uow/uow.go:296-309 | with one, exactly the groups before the failure have taken effect |
| Upkeep.OpenKept | internal/handler/uow_helper.go:10-21 | after a request that looked after its own user only, every account is served as before |
| Upkeep.OpenAdded | internal/uow/uow.go:213-234 | and so it is after a new account is inserted, the new one included |
| Upkeep.AccountsKept | internal/service/account_service.go:54-58 | no calls insert, delete or move an account; they change its device at most |
| Upkeep.StillOpen | internal/uow/uow.go:107-173 | what a unit of work loads touches nobody else's cache and leaves its own coherent |
| Finish.LastingMirrors | internal/handler/dispatch.go:138-142 | the sync field of a committed request turns any client that held the old rows, field by field, into one that holds the new ones |
| Dispatch.UpgradeCardLevel | internal/handler/card/upgrade_card_level.go:13-35 | the level of the user's own card goes up by one in place and the answer shows it, or the card is not there |
| Dispatch.UpgradeRaises | internal/handler/card/upgrade_card_level.go:13-35 | on the tables an upgrade raises one level, modulo 2^16, and changes nothing else |
| Dispatch.TouchSets | internal/service/account_service.go:54-58 | on the tables a touch sets the account's device id and changes nothing else |
| Dispatch.Complete | internal/handler/dispatch.go:126-142 | success means tables, cache and sync field all follow; for any queue a failure leaves exactly the groups before it, a failed cache write everything, and no error a stale cache |
| Dispatch.Server.Act | internal/handler/dispatch.go:108-118 | the handlers queue one write at most and answer from the tables as they are; an upgrade is fine only for a card of the user, and fails while all is well only for one that is not |
| Dispatch.Server.GetList | internal/handler/item/get_items.go:12-25 | answers with every row of the user's table, once and field by field; fails only when a load does |
| Dispatch.Server.ServeUser | internal/handler/dispatch.go:97-142 | an authenticated action takes effect once and in full, or not at all, and leaves everybody else alone; the answer is the raised card or the whole list |
| Dispatch.Server.CommitLogin | internal/handler/dispatch.go:126-142 | the commit of a login makes all of its calls or none, as its one transaction's fault says, and never panics |
| Dispatch.Server.ServeLogin | internal/handler/dispatch.go:97-142 | for every code, which tables, cache and session a login leaves: the old tables or one account more, on the shard that was drawn, after a handler error, all calls or none after the commit; when a new account has its goods; and the answer with the user, whether it is new, and the token of the session |
| Dispatch.Server.Check | internal/handler/dispatch.go:58-84 | each code has its one reason, in the order of the checks; who passes has a live session, which starts its eight hours again |
| Dispatch.Server.Serve | internal/handler/dispatch.go:97-142 | runs only with the user's key set to the request's token; while nothing fails a list is answered in full, and an upgrade if and only if the card is the user's |
| Dispatch.Server.Dispatch | internal/handler/dispatch.go:40-143 | which requests pass the checks; of these exactly those that no one of 60 tries gets the lock for are busy; a request turned away touches no data; what every other answer carries and has done to the tables; every request restores what it needs to begin and leaves other users alone; and the lock is left behind exactly if a reply or the release is lost |
| Sessions.VerifiesIff | internal/cache/user_session.go:16-30 | a token verifies if and only if it was the last set, was not deleted, and attempts under eight hours apart lead from there to now |
| Sessions.UserSession.Set | internal/cache/user_session.go:46-57 | overwrites the user's session, for eight hours |
| Sessions.UserSession.VerifyAndRefresh | internal/cache/user_session.go:59-71 | true exactly when the token verifies, and then the eight hours start again; otherwise nothing changes |
| Sessions.UserSession.Delete | internal/cache/user_session.go:73-77 | ends the user's session |
| Designs.Catalog.LoadBatData | internal/design/loader.go:126-138 | the primary table has the last row of every NID, the use-flag index the last flagged one |
| Designs.IndexAgrees | internal/design/loader.go:131-138 | the index is the filtered table if and only if every NID with a flagged row ends with one; so always for distinct NIDs |
| Designs.IndexMayDiffer | internal/design/loader.go:131-138 | a repeated NID for which it is not |
| Designs.Syncer.GroupRows | internal/design/syncer.go:83-93 | server versions in order of first appearance, with their client versions |
| Designs.ClientsNamed | internal/design/syncer.go:87-93 | the clients grouped under a server version are exactly those its rows name |
| Designs.ServersAre | internal/design/syncer.go:83-93 | the server versions are exactly those of the rows, in the order of their first rows |
| Designs.KeptAre | internal/design/syncer.go:99-102 | a server version is kept if and only if it is one of the first two distinct ones of the rows |
| Designs.Syncer.LoadActive | internal/design/syncer.go:72-124 | a client is mapped if and only if some row of one of the first two distinct server versions that loaded names it, to the last such catalog, shared per version; if the newest fails nothing changes |
| Designs.Store.CatalogsByServerVersion | internal/design/store.go:72-82 | each catalog still mapped, once, under its own version |
| Reloads.AfterLatest | internal/resource/syncer.go:74-95 | after handling a message from elsewhere a server is as new as the load it caused, as long as later loads are no older |
| Reloads.AfterIs | internal/resource/syncer.go:72-95 | the snapshot is that of the last message from elsewhere whose load succeeded, or the old one if there was none |
| Reloads.Syncer.Trigger | internal/resource/syncer.go:63-70 | publishes one's own id only after a load |
| Reloads.Syncer.Subscribe | internal/resource/syncer.go:72-95 | the loop over any messages leaves that snapshot; one's own messages and failed loads change nothing |
| Reloads.NeverBack | internal/resource/syncer.go:53-61 | over any run no server's snapshot goes back |
| Reloads.EveryRunKeeps | internal/resource/syncer.go:65-95 | for every published reload each other server has it waiting, is loading because of one, or is as new |
| Reloads.Converges | internal/resource/syncer.go:65-95 | once drained, all servers are at least as new as every publisher was |
| Decimals.LessIsSmaller | sql/migrations/migrator.go:338-340 | for numerals of one length string order is numeric order |
| Decimals.LessIff | sql/migrations/migrator.go:356 | string order: a proper prefix comes first, otherwise the first difference decides |
| Decimals.ParsePrint | internal/model/potential_map.go:31-35 | parsing a printed uint32 gives it back |
| Migrations.SanitizeAuthor | sql/migrations/create.go:118-131 | the loop keeps lower-case letters, digits and underscores |
| Migrations.SanitizedRunes | sql/migrations/create.go:118-131 | rune by rune: small letters, digits and underscores stay, capitals become small, hyphens underscores, the rest goes |
| Migrations.SanitizedFixed | sql/migrations/create.go:118-131 | exactly the clean names are left alone |
| Migrations.ParseVersionId | sql/migrations/migrator.go:360-378 | succeeds if and only if 14 digits and an underscore come first, with their value |
| Migrations.CreatedNameFits | router/admin.go:97-99 | a created name parses back to its timestamp and fits the viewer's pattern |
| Migrations.NamesKeepOrder | sql/migrations/migrator.go:338-340 | ids are ordered as the timestamps are |
| Migrations.CreateMigrationFile | sql/migrations/create.go:53-88 | each refusal has its reason, failures of the disk included; otherwise one file, named by time, clean author and name, and a new one if Stat works |
| Migrations.CollectSqlFiles | sql/migrations/migrator.go:316-342 | each .sql file of a directory as often as it is there, in id order, with its 14 digits as id; nothing if and only if a name is not stamped |
| Migrations.ListVersionDirs | sql/migrations/migrator.go:344-358 | each sub-directory as often as it is there, in string order |
| Migrations.WalkMigrationFiles | sql/migrations/migrator.go:288-314 | each .sql file of the root and of the version directories as often as it is there, root first, then directories by name, each by id; nothing if and only if one is not stamped |
| Migrations.VersionOrder | sql/migrations/create.go:30-33 | for version directories with equally long majors string order is numeric order |
| Migrations.ShorterFirst | sql/migrations/migrator.go:356 | of two names with majors of different length the one with the shorter sorts first exactly if that major is at most the start of the other |
| Migrations.OrdersAgreeIff | sql/migrations/migrator.go:356 | and exactly when that agrees with the order of the versions |
| Migrations.WalkInVersionOrderIff | sql/migrations/migrator.go:301-313 | directories without leading zeros are walked in version order if and only if no longer name comes before a shorter one |
| Migrations.TenBeforeNine | sql/migrations/migrator.go:356 | one pair for which it does not |
| Migrations.CountPending | sql/migrations/migrator.go:222-235 | the number of files whose id is not among the applied ones |
| Migrations.Baseline | sql/migrations/migrator.go:237-286 | marks every pending file with one new row, keeps the old rows, returns how many, and leaves none pending; for each statement that may fail, how far it came |
| Migrations.BaselineCount | sql/migrations/migrator.go:259-286 | the number equals what was pending before if and only if seeding marked no file |
| Migrations.ZeroStampNotCounted | sql/migrations/migrator.go:259-286 | an input for which it does not: a pending file stamped with fourteen zeros |
| Migrations.SecondRun | sql/migrations/migrator.go:237-286 | a second run marks nothing |
| Potential.Decode | internal/model/potential_map.go:15-53 | null, objects and arrays are taken, anything else is an error, and so is a bad key or value |
| Potential.RoundTrip | internal/model/potential_map.go:55-61 | an encoded map decodes to itself and to nothing else |
| Potential.ArrayRoundTrip | internal/model/potential_map.go:39-48 | an array of numbers is written back as an object that decodes to the same map |
| Potential.ArrayKeys | internal/model/potential_map.go:39-61 | and, up to 2^32 elements, with exactly the keys 0 to n-1 |
| Potential.AmbiguousKeys | internal/model/potential_map.go:30-36 | two keys for one id may leave the result to the range order |
| Potential.DeterminedIff | internal/model/potential_map.go:24-37 | an object decodes in one way if and only if keys that stand for one id carry one value |

## Left out

- Units.UnitOfWork.constructor: a user whose account is missing or names an unregistered shard; every load would panic.
- Units.UnitOfWork.ShardDb: the account's shard is registered, as main.go registers all shards at the start.
- Units.UnitOfWork.LoadOne: only for the account, the one singleton of the user scope.
- Units.UnitOfWork.LoadList: the panic at a nil database is an outcome of its own, `NilDatabase`, which `Dispatch.Server.ServeUser` turns into `Crashed`.
- Units.UnitOfWork.CreateNow: only for the account, which is its one caller.
- Units.UnitOfWork.Create: the list is loaded first, as by every caller; on one that is not, the source begins a list that hides the stored rows.
- Units.UnitOfWork.Update: the struct is one of the store's, as for every caller.
- Units.UnitOfWork.SetUserId: nothing has been loaded yet, as in its one caller.
- Stores.UserCache.DeleteAll: a DEL that fails; `Coherence.StaleUnless` says what it would leave.
- Dispatch.Server.Dispatch: a login whose envelope names a user without an account is excluded; the source loads nothing for that user either.
- Protocol.Step: the transactions of one commit, on different databases, are one step of a run.
- Leases.UserLock.Acquire: that two tries are 50 ms apart; each try finds whatever moment it finds.
- Migrations.SanitizeAuthor: invalid UTF-8 is not modelled.
- Migrations.CreateMigrationFile: the text of the file.
- Potential.Decode: works on JSON values; the text layer of encoding/json is not modelled.
- Club scope, `QueryClub`, `QueryClubList` and `ClubLock`: the same code shape as the user side, and no handler calls them.
- AUTO_INCREMENT gaps: a rolled-back transaction gives its keys back in the model, so only the values of later keys could differ.
- Column ranges, lost connections and lock timeouts of MySQL: one kind of fault, at any statement.
- Wall-clock columns (`insert_time`, `update_time`) and most payload columns of cards and accounts: dropped from the rows.
- The 30-minute expiry of the cache: covered by eviction at any time.
- Panics inside handlers other than at a nil database.
- Concurrent first logins of one channel user: nothing in code or schema makes the account unique.
- GetShopList and the catalogs' other tables: they only read.
- `AllShards`: a sorted copy of the registered shards for the admin pages.
- Checksums, the CDN, Excel tools, the clock offset, the admin pages, `MigrateUp`, `MigrateDown` and `MigrateUpByOne`: decided by libraries or presentation.
