# Permissions service and shop gating, modelled in Dafny

This project models three parts of an ARK server plugin suite.

- **The Permissions service.** Two in-memory registries live in one `Service` object:
  - group-updated subscribers;
  - dynamic group providers ("permission callbacks").

  The service also covers:
  - the group resolution of a player: static groups, then tribe groups, then the synthetic `TribeSize:N` / `TribeOnline:M` groups, then callback groups, with the callback caches;
  - the permission checks with the `"*"` wildcard;
  - the mutation wrappers and the notifications each one sends.
- **Its command and text layer.** This layer covers:
  - the console/RCON command parsers, with hours turned into seconds;
  - `getTimeLeft`;
  - the chat-facing group strings of players and tribes;
  - the `GroupPermissions` and `ListGroups` renderers;
  - the success/error routing of replies;
  - the database resynchronisation timer.
- **The shop (ArkShop Store).** It covers:
  - the guards of `Buy` and the per-type purchase functions, against a points store;
  - the `ShowItems` page window and page count;
  - the `FindItems` match cap;
  - `findCaseInsensitive`.

The persistence backend is not part of this model. It is represented by an in-memory value, `Backend.Database`, that has:
- a group list;
- group→permissions;
- player and tribe records, each holding static groups, timed groups `(GroupName, ExpireAtTime, DelayUntilTime)`, callback groups and `hasCheckedCallbacks`.

Each backend mutation is a function returning the new store and the optional error. The active timed groups at `now` are those with `ExpireAtTime > now` that are not pending (`DelayUntilTime > now`). The backend's group queries return the static groups followed by these.

Inputs replace the host game:
- the online players are a list of controllers, each with an EOS id, a player id and optional tribe data (id and roster);
- the clock is a `now` parameter;
- the backend's SQL row order, the thread pool and all sending of messages are not modelled.

Callbacks are total function values `(eosId, tribeId) -> (groups, tribeId')`. The second component is what the callback wrote through its `int*`. The service keeps two logs:
- the log of subscriber calls (`deliveries`);
- the log of provider invocations by registration handle (`invocations`), so that "not invoked" can be stated.

Modules, in dependency order:
- `Wrappers`, `Text` (tokenising, joining, digits, lowercasing, `find`), `Backend`, `Host`;
- `TribeDefaults`, `Registry`, `Resolution`, `Permissions`;
- `TimeFormat`, `GroupText`, `Listing`, `Commands`, `Sync`;
- `StoreCatalog`, `StoreBrowse`, `StorePurchase`.

Where the code and the documented behaviour disagree, the model follows the code.
- **Negative hours.** A timed add with `hours = -1` is documented as rejected. The code only rejects a negative total (`hours*3600 + delayHours*3600`) or a negative delay. So `-1 2` is accepted, as a membership that expires one hour before it would activate. See `Commands.NegativeHoursAccepted` and `Commands.NegativeHoursNeverActive`.
- **Expiry filter.** The tribe text drops timed groups with `ExpireAtTime <= now`. The player text drops only those with `ExpireAtTime < now`, so a group expiring exactly now is listed with no label (`GroupText.ExpiringNowListedBare`).
- **Tribe blocks.** The player text adds one tribe block for every online controller whose tribe id is positive, not only for the player's own tribe (`GroupText.OtherPlayersTribeShown`).
- **32-bit wrap.** `BuyItem` computes `price * amount` in 32 bits. 42949673 items at 100 points are sold for 4 points (`StoreCatalog.TotalWraps`, `StorePurchase.WrappedItemTotal`).

## Model

| member | source | states |
|---|---|---|
| Registry.FirstNamed | Permissions/Permissions/Private/Permissions.cpp:56-57 | the index found is the first entry with that name; none means no entry has it |
| Registry.EraseFoundIsWithoutFirstNamed | Permissions/Permissions/Private/Permissions.cpp:56-60 | erase(remove(.., *find_if(..))) on unique identities removes exactly the first entry with the name |
| Registry.WithoutUniqueHandle | Permissions/Permissions/Private/Permissions.cpp:60 | removing a unique identity drops exactly its position |
| Registry.WithoutAbsentHandle | Permissions/Permissions/Private/Permissions.cpp:60 | removing an identity that is not registered changes nothing |
| Registry.RemovalKeepsOrder | Permissions/Permissions/Private/Permissions.cpp:54-61 | unsubscribing is a no-op without a match, otherwise removes one entry and keeps the rest in order |
| Registry.DistinctAfterAppend | Permissions/Permissions/Private/Permissions.cpp:47 | registering with a fresh handle keeps identities unique |
| Registry.DistinctAfterRemoval | Permissions/Permissions/Private/Permissions.cpp:60 | removal keeps identities unique |
| Permissions.Service.Subscribe | Permissions/Permissions/Private/Permissions.cpp:45-48 | the subscriber is appended at the end under a fresh identity |
| Permissions.Service.UnSubscribe | Permissions/Permissions/Private/Permissions.cpp:54-61 | the first subscriber with the name leaves, the others stay in order |
| Permissions.Service.AddPlayerPermissionCallback | Permissions/Permissions/Private/Permissions.cpp:78-80 | the provider with its three flags is appended at the end |
| Permissions.Service.RemovePlayerPermissionCallback | Permissions/Permissions/Private/Permissions.cpp:81-89 | the first provider with the name leaves, the others stay in order |
| Permissions.NotifyEvents | Permissions/Permissions/Private/Permissions.cpp:68-74 | one call per subscriber, in registration order, each with the given EOS id and tribe id |
| Permissions.Service.NotifySubscribers | Permissions/Permissions/Private/Permissions.cpp:68-74 | the calls made are appended to the delivery log, nothing else changes |
| Permissions.EachSubscriberOnce | Permissions/Permissions/Private/Permissions.cpp:70-73 | every registered subscriber is called exactly once per notification, an unregistered one never |
| Resolution.MergeNew | Permissions/Permissions/Private/Permissions.cpp:138-142 | the list grows by exactly the groups of the new list it lacks: after the old ones, each once, every missing one present, in the order each is first listed; a duplicate-free list stays duplicate-free |
| Resolution.MergeNewCharacterized | Permissions/Permissions/Private/Permissions.cpp:138-142 | a list meets that contract (InOrderMerge) if and only if it is MergeNew's result |
| Resolution.InOrderMergeUnique | Permissions/Permissions/Private/Permissions.cpp:138-142 | two lists that both extend the same list by the same groups in first-seen order are equal |
| Resolution.NoRepeatChain | Permissions/Permissions/Private/Permissions.cpp:160-181 | two merges in a row still append no repeated group |
| Resolution.StaticAndTribeGroups | Permissions/Permissions/Private/Permissions.cpp:147-174 | only the own groups when there is no tribe data; otherwise the own groups, then the missing tribe groups in the order the tribe lists them, then the missing synthetic tribe groups in their order, each once; nothing after the own groups is repeated |
| Resolution.AddMissing | Permissions/Permissions/Private/Permissions.cpp:160-174 | the merging loop computes MergeNew |
| Resolution.CallbackStep | Permissions/Permissions/Private/Permissions.cpp:94-142 | one provider keeps memberships unchanged, invokes at most itself and never if online-only, and only extends the list |
| Resolution.CallbackFold | Permissions/Permissions/Private/Permissions.cpp:92-143 | the loop invokes at most one provider per registration and only extends a duplicate-free list |
| Resolution.CallbackGroups | Permissions/Permissions/Private/Permissions.cpp:90-145 | the returned list has no duplicates, memberships are unchanged, `isOnline` plays no part |
| Resolution.InvokedAreEligible | Permissions/Permissions/Private/Permissions.cpp:95 | every provider invoked is a registered one without onlyCheckOnline |
| Resolution.OnlineOnlyNeverInvoked | Permissions/Permissions/Private/Permissions.cpp:95 | a provider with onlyCheckOnline is never invoked |
| Resolution.CheckedPlayerCacheReused | Permissions/Permissions/Private/Permissions.cpp:96-108 | with the player's cache checked, providers caching by player are not invoked and exactly the stored groups are merged |
| Resolution.CheckedTribeCacheReused | Permissions/Permissions/Private/Permissions.cpp:111-123 | the same for providers caching by tribe with the tribe's cache checked |
| Resolution.CachedStepReuses | Permissions/Permissions/Private/Permissions.cpp:96-123 | a provider whose player or tribe cache is checked is not invoked, writes nothing and merges its stored result, the player's first |
| Resolution.CheckedCachesReused | Permissions/Permissions/Private/Permissions.cpp:92-143 | for any mix of providers, each online-only or with a checked cache, a pass invokes and writes nothing and adds exactly the stored results served |
| Resolution.PersistRule | Permissions/Permissions/Private/Permissions.cpp:94-137 | a provider is invoked iff no checked cache applies; its result is stored, marked checked, exactly when the cache path was taken, the result is non-empty and the subject exists |
| Resolution.SecondResolutionUsesCache | Permissions/Permissions/Private/Permissions.cpp:96-137 | after one invocation with a non-empty result the next resolution invokes nothing and gives the same groups |
| Resolution.ResolvedTribeId | Permissions/Permissions/Private/Permissions.cpp:152-158 | -1 unless the player is online with tribe data, then that tribe's id |
| Resolution.ResolvePlayer | Permissions/Permissions/Private/Permissions.cpp:147-184 | the static and tribe part (StaticAndTribeGroups) is a prefix, followed by the missing callback groups in the order the callbacks produced them, each once; nothing after the backend groups repeats an earlier group; a group is resolved iff it is static, or tribe/synthetic when online with tribe data, or a callback group |
| Resolution.OfflineWithoutCallbacks | Permissions/Permissions/Private/Permissions.cpp:147-184 | an offline player with no providers has exactly the backend's groups |
| Resolution.GroupsGrantMembers | Permissions/Permissions/Private/Permissions.cpp:318-329 | the permission scan succeeds iff some listed group holds the permission or "*" |
| Resolution.PlayerGrantIff | Permissions/Permissions/Private/Permissions.cpp:318-329 | a player has a permission iff a static group, a tribe or synthetic tribe group (online with tribe data), or a callback group holds it or "*" |
| Resolution.StaticGrantHolds | Permissions/Permissions/Private/Permissions.cpp:318-329 | a backend group of the player holding the permission or "*" grants it, whatever the providers return |
| Resolution.VipFlyScenario | Permissions/Permissions/Private/Permissions.cpp:234-247 | a player added to a group granting fly has fly, and loses it when removed |
| Permissions.Service.GetCallbackGroups | Permissions/Permissions/Private/Permissions.cpp:90-145 | the loop's groups, cache writes and invocations are those of CallbackGroups |
| Permissions.Service.RunCallback | Permissions/Permissions/Private/Permissions.cpp:94-142 | one iteration of the loop is CallbackStep |
| Permissions.Service.GetPlayerGroups | Permissions/Permissions/Private/Permissions.cpp:147-184 | the result, cache writes and invocations are those of ResolvePlayer; the static and tribe groups come first, in order, then the missing callback groups in first-seen order; nothing after the backend groups is repeated |
| Permissions.Service.GetTribeGroups | Permissions/Permissions/Private/Permissions.cpp:186-189 | the tribe's static groups come first in its backend groups |
| Permissions.Service.GetGroupPermissions | Permissions/Permissions/Private/Permissions.cpp:191-196 | the empty group name has no permissions, any other is the backend's list |
| Permissions.Service.IsPlayerInGroup | Permissions/Permissions/Private/Permissions.cpp:208-219 | true iff the group is among the player's resolved groups |
| Permissions.Service.IsTribeInGroup | Permissions/Permissions/Private/Permissions.cpp:221-232 | true iff the group is among the tribe's groups |
| Permissions.Service.IsGroupHasPermission | Permissions/Permissions/Private/Permissions.cpp:302-316 | false for a missing group, otherwise exact membership of the permission |
| Permissions.Service.AnyGroupGrants | Permissions/Permissions/Private/Permissions.cpp:322-328 | true iff some group grants the permission or "*" |
| Permissions.Service.IsPlayerHasPermission | Permissions/Permissions/Private/Permissions.cpp:318-329 | true iff some resolved group of the player grants the permission or "*" |
| Permissions.Service.IsTribeHasPermission | Permissions/Permissions/Private/Permissions.cpp:331-342 | true iff some group of the tribe grants the permission or "*" |
| Permissions.Contains | Permissions/Permissions/Private/Permissions.cpp:212-218 | the early-return scan is true iff the element occurs |
| Permissions.GrantsIgnoreCaches | Permissions/Permissions/Private/Permissions.cpp:131-135 | writing callback caches never changes what groups grant |
| Permissions.Service.AddPlayerToGroup | Permissions/Permissions/Private/Permissions.cpp:234-239 | the backend's result is returned; one notification after, with tribe id 0, even on error |
| Permissions.Service.RemovePlayerFromGroup | Permissions/Permissions/Private/Permissions.cpp:241-247 | notifications before and after the backend call, with tribe id 0 |
| Permissions.Service.AddPlayerToTimedGroup | Permissions/Permissions/Private/Permissions.cpp:249-255 | notifications before and after the backend call, with tribe id 0 |
| Permissions.Service.RemovePlayerFromTimedGroup | Permissions/Permissions/Private/Permissions.cpp:257-262 | one notification after the backend call, with tribe id 0 |
| Permissions.Service.AddTribeToGroup | Permissions/Permissions/Private/Permissions.cpp:264-269 | one notification with the empty EOS id and the tribe id |
| Permissions.Service.RemoveTribeFromGroup | Permissions/Permissions/Private/Permissions.cpp:271-276 | one notification with the empty EOS id and the tribe id |
| Permissions.Service.AddTribeToTimedGroup | Permissions/Permissions/Private/Permissions.cpp:278-283 | one notification with the empty EOS id and the tribe id |
| Permissions.Service.RemoveTribeFromTimedGroup | Permissions/Permissions/Private/Permissions.cpp:285-290 | one notification with the empty EOS id and the tribe id |
| Permissions.Service.AddGroup | Permissions/Permissions/Private/Permissions.cpp:292-295 | the backend's result, no notification |
| Permissions.Service.RemoveGroup | Permissions/Permissions/Private/Permissions.cpp:297-300 | the backend's result, no notification |
| Permissions.Service.GroupGrantPermission | Permissions/Permissions/Private/Permissions.cpp:344-347 | the backend's result, no notification |
| Permissions.Service.GroupRevokePermission | Permissions/Permissions/Private/Permissions.cpp:349-352 | the backend's result, no notification |
| Backend.Hydrate | Permissions/Permissions/Private/Permissions.cpp:98 | an unknown subject has the empty record |
| Backend.SubjectGroups | Permissions/Permissions/Private/Permissions.cpp:150 | static groups first, plus exactly the timed groups active at `now` |
| Backend.AddGroup | Permissions/Permissions/Private/Permissions.cpp:292-295 | fails iff the group exists; otherwise appended with no permissions |
| Backend.RemoveGroup | Permissions/Permissions/Private/Permissions.cpp:297-300 | fails iff absent; otherwise the group and its grants are gone |
| Backend.GroupGrantPermission | Permissions/Permissions/Private/Permissions.cpp:344-347 | fails iff the group is missing or already grants it; otherwise appended, other groups unchanged |
| Backend.GroupRevokePermission | Permissions/Permissions/Private/Permissions.cpp:349-352 | fails iff group or grant missing; otherwise only that permission goes |
| Backend.AddToGroup | Permissions/Permissions/Private/Permissions.cpp:234-239 | fails iff the group is missing or already held; otherwise appended to that subject only |
| Backend.RemoveFromGroup | Permissions/Permissions/Private/Permissions.cpp:241-247 | fails iff missing or not held; otherwise only that membership goes |
| Backend.AddToTimedGroup | Permissions/Permissions/Private/Permissions.cpp:249-255 | fails iff the group is missing; otherwise one entry expiring after `secs`, activating after a positive delay |
| Backend.RemoveFromTimedGroup | Permissions/Permissions/Private/Permissions.cpp:257-262 | fails iff not held as a timed group; otherwise it goes, static groups stay |
| Backend.UpdateGroupCallbacks | Permissions/Permissions/Private/Permissions.cpp:131-135 | an existing subject's callback groups are stored and marked checked; nothing else changes |
| Backend.AddThenRemoveGroup | Permissions/Permissions/Private/Permissions.cpp:292-300 | a group added then removed leaves no grant and no membership |
| Backend.AddThenRemoveMember | Permissions/Permissions/Private/Permissions.cpp:234-247 | an added membership is reported; removing it drops it |
| Backend.TimedMembershipWindow | Permissions/Permissions/Private/Main.cpp:184-199 | a membership of `hours` with a delay is active exactly from the end of the delay to the expiry |
| Host.FindPlayerFromEOSID | Permissions/Permissions/Private/Permissions.cpp:151 | the controller found has that EOS id; none iff no online controller has it |
| TribeDefaults.OnlineTribemates | Permissions/Permissions/Private/Main.cpp:50-60 | the count of online tribemates never exceeds the online players |
| TribeDefaults.GetTribeDefaultGroups | Permissions/Permissions/Private/Main.cpp:43-67 | exactly ["TribeSize:N", "TribeOnline:M"], or [] without tribe data |
| TribeDefaults.DefaultGroupsDecode | Permissions/Permissions/Private/Main.cpp:62-64 | both numbers read back from the synthetic names |
| TribeDefaults.NobodyOnline | Permissions/Permissions/Private/Main.cpp:50-60 | no roster member online gives TribeOnline:0 |
| TribeDefaults.EverybodyOnline | Permissions/Permissions/Private/Main.cpp:50-60 | every online player in the roster counts |
| TribeDefaults.TenMembersThreeOnline | Permissions/Permissions/Private/Main.cpp:43-67 | ten members with three online gives TribeSize:10, TribeOnline:3 |
| Commands.TimedSpan | Permissions/Permissions/Private/Main.cpp:184-188 | accepted iff the hour counts parse; duration `hours*3600 + delay*3600`, delay `delay*3600`, delay 0 when absent |
| Commands.ShortCommandRejected | Permissions/Permissions/Private/Main.cpp:73-76 | too few tokens give the command's syntax message |
| Commands.AcceptedFields | Permissions/Permissions/Private/Main.cpp:70-93 | an accepted command has enough tokens and carries the tokens at their places |
| Commands.TribeIdMustBeNumeric | Permissions/Permissions/Private/Main.cpp:261-269 | a tribe id that is not digits is a parsing error |
| Commands.TimedArithmetic | Permissions/Permissions/Private/Main.cpp:168-200 | accepted exactly when the hours parse and neither total nor delay is negative, with the seconds passed; otherwise the parsing or syntax error |
| Commands.NegativeHoursAccepted | Permissions/Permissions/Private/Main.cpp:184-199 | "-1 2" is accepted as 3600 s with a 7200 s delay |
| Commands.NegativeHoursNeverActive | Permissions/Permissions/Private/Main.cpp:184-199 | that membership is never active |
| Commands.RenderTokenizes | Permissions/Permissions/Private/Main.cpp:73 | the rendered line tokenizes back into its tokens |
| Commands.ParseRender | Permissions/Permissions/Private/Main.cpp:70-545 | every request is what the command line spelling it parses to |
| Commands.ParsePlayerTokens | Permissions/Permissions/Private/Main.cpp:70-230 | the player commands parse their rendering back |
| Commands.ParseTribeTokens | Permissions/Permissions/Private/Main.cpp:249-407 | the tribe commands parse their rendering back |
| Commands.ParseGroupTokens | Permissions/Permissions/Private/Main.cpp:426-533 | the group commands parse their rendering back |
| Commands.Execute | Permissions/Permissions/Private/Main.cpp:70-533 | a rejected line changes nothing and notifies nobody; an accepted one makes its store call with its wrapper's notifications |
| Commands.ExecutePlayer | Permissions/Permissions/Private/Main.cpp:92 | player requests run their wrapper |
| Commands.ExecuteTribe | Permissions/Permissions/Private/Main.cpp:271 | tribe requests run their wrapper |
| Commands.ExecuteGroup | Permissions/Permissions/Private/Main.cpp:434-436 | group requests run their wrapper and notify nobody |
| Commands.GroupCommandsSilent | Permissions/Permissions/Private/Permissions.cpp:234-300 | no notification iff group-level or no subscribers; 2 per subscriber for Remove/AddTimed player, 1 otherwise |
| Commands.RconSuccess | Permissions/Permissions/Private/Main.cpp:120-545 | the RCON success text equals the chat one except for RemoveTribeTimed |
| Commands.RconReply | Permissions/Permissions/Private/Main.cpp:116-123 | the error if any, otherwise the success text |
| Commands.HandlePlayerMessage | Permissions/Permissions/Private/Main.cpp:94-108 | an error is shown red; a success green unless hidden; as notification iff so configured |
| Commands.MessageRouting | Permissions/Permissions/Private/Main.cpp:94-108 | nothing shown iff a hidden success; red iff error; notification iff configured |
| Commands.PlayerGroupsReply | Permissions/Permissions/Private/Main.cpp:701-722 | "" with fewer than two tokens; otherwise the player text of the second token; a non-empty reply names an existing player |
| Commands.TribeGroupsReply | Permissions/Permissions/Private/Main.cpp:739-760 | "" with fewer than two tokens or a second token that is not a number; otherwise the tribe text of that id with no defaults; a non-empty reply names an existing tribe and starts with the header |
| TimeFormat.Decompose | Permissions/Permissions/Private/Main.cpp:556-577 | days/hours/minutes/seconds add back to the total with each below its bound |
| TimeFormat.DecomposeUnique | Permissions/Permissions/Private/Main.cpp:556-577 | that decomposition is the only one in range |
| TimeFormat.Part | Permissions/Permissions/Private/Main.cpp:558-582 | a zero component has no part, a non-zero one a non-empty part |
| TimeFormat.TimeLeft | Permissions/Permissions/Private/Main.cpp:551-585 | empty iff no seconds left or nothing to show |
| TimeFormat.ShowAll | Permissions/Permissions/Private/Main.cpp:556-583 | the four guarded steps show the first `n` non-zero parts in order |
| TimeFormat.ShowComponent | Permissions/Permissions/Private/Main.cpp:558-582 | one step appends its part after ", " and takes its seconds off when shown |
| TimeFormat.GetTimeLeft | Permissions/Permissions/Private/Main.cpp:551-585 | the method computes TimeLeft |
| TimeFormat.OneDay | Permissions/Permissions/Private/Main.cpp:557-563 | 86400 s reads "1 Days", always plural |
| TimeFormat.TwoPartsShown | Permissions/Permissions/Private/Main.cpp:551-585 | 90061 s with two parts reads "1 Days, 1 Hrs" |
| TimeFormat.ZeroComponentsSkipped | Permissions/Permissions/Private/Main.cpp:551-585 | 3605 s reads "1 Hrs, 5 Secs" |
| GroupText.TimedLines | Permissions/Permissions/Private/Main.cpp:600-614 | at most one line per timed membership |
| GroupText.ListedHasLine | Permissions/Permissions/Private/Main.cpp:600-614 | every listed membership has its line |
| GroupText.LineSource | Permissions/Permissions/Private/Main.cpp:600-614 | every line comes from a listed membership |
| GroupText.TribeTextIsJoin | Permissions/Permissions/Private/Main.cpp:587-624 | "" for an unknown tribe or an empty listing; otherwise the header, then one line of the defaults and static groups joined by ", ", then one line per timed group still listed |
| GroupText.OneStaticTribeText | Permissions/Permissions/Private/Main.cpp:587-624 | a tribe with one static group and no timed ones reads as the header, the defaults, ", " and that group |
| GroupText.PlayerGroupsStr | Permissions/Permissions/Private/Main.cpp:626-699 | "" for an unknown player |
| GroupText.AppendGroups | Permissions/Permissions/Private/Main.cpp:593-614 | the two loops build the body |
| GroupText.AppendStatic | Permissions/Permissions/Private/Main.cpp:593-597 | static groups joined by ", " after the start |
| GroupText.AppendTimed | Permissions/Permissions/Private/Main.cpp:600-614 | timed lines, one per line |
| GroupText.GetTimedSuffix | Permissions/Permissions/Private/Main.cpp:606-613 | the label method computes TimedSuffix |
| GroupText.GetTribeGroupsStr | Permissions/Permissions/Private/Main.cpp:587-624 | the method computes TribeGroupsStr |
| GroupText.JoinDefaults | Permissions/Permissions/Private/Main.cpp:677-682 | the defaults are joined by ", " |
| GroupText.GetPlayerGroupsStr | Permissions/Permissions/Private/Main.cpp:626-699 | the method computes PlayerGroupsStr |
| GroupText.BodyIsJoin | Permissions/Permissions/Private/Main.cpp:593-614 | the body is the comma-joined first line and then one line per timed group, with no empty leading pieces |
| GroupText.TribeLinesLabelled | Permissions/Permissions/Private/Main.cpp:600-613 | every timed group in the tribe text carries a label |
| GroupText.ExpiringNowListedBare | Permissions/Permissions/Private/Main.cpp:600-656 | a group expiring exactly now is listed bare in the player text and dropped from the tribe text |
| GroupText.PendingLabel | Permissions/Permissions/Private/Main.cpp:606-609 | a pending group reads " - Activates in " and a non-empty duration |
| GroupText.NoTribeBlocks | Permissions/Permissions/Private/Main.cpp:660-687 | without an online controller of a positive tribe no tribe block is added |
| GroupText.LoneMemberDefaults | Permissions/Permissions/Private/Main.cpp:676-682 | a lone online member reads "TribeSize:1, TribeOnline:1" |
| GroupText.StaticBody | Permissions/Permissions/Private/Main.cpp:593-597 | one static group is appended after ", " |
| GroupText.TribeSevenText | Permissions/Permissions/Private/Main.cpp:587-624 | tribe 7 with group T reads "Tribe Permissions: TribeSize:1, TribeOnline:1, T" |
| GroupText.OtherPlayersTribeShown | Permissions/Permissions/Private/Main.cpp:660-687 | another online player's tribe is shown in the player text |
| GroupText.OneControllerText | Permissions/Permissions/Private/Main.cpp:626-699 | with one online controller the player text is the own groups, then that controller's tribe block on its own line |
| GroupText.TribeSevenBlock | Permissions/Permissions/Private/Main.cpp:660-687 | a lone online member of tribe 7 contributes the tribe header, its defaults and T |
| Listing.TerminatedIsJoin | Permissions/Permissions/Private/Main.cpp:792-798 | terminating every element is joining and terminating the last |
| Listing.JoinTerminated | Permissions/Permissions/Private/Main.cpp:792-795 | the loop appends each element and its terminator |
| Listing.GroupPermissions | Permissions/Permissions/Private/Main.cpp:778-801 | "" without the argument, otherwise the permissions joined by "," with no trailing comma |
| Listing.GroupPermissionsRoundTrip | Permissions/Permissions/Private/Main.cpp:778-801 | splitting at commas gives back the permissions |
| Listing.GroupPermissionsLast | Permissions/Permissions/Private/Main.cpp:797-798 | the text ends with the last permission, after one comma |
| Listing.ListGroups | Permissions/Permissions/Private/Main.cpp:819-840 | the loop with its counter builds one numbered line per group |
| Listing.LinesNumbered | Permissions/Permissions/Private/Main.cpp:819-840 | line k reads "first+k) group - p1; ...", one line per group |
| Listing.ListGroupsNumbered | Permissions/Permissions/Private/Main.cpp:819-840 | exactly one line per group, numbered from 1, in stored order |
| Sync.SyncFrequencyFor | Permissions/Permissions/Private/Main.cpp:946-948 | 60 by default, the configured value when at least 20, else 20 |
| Sync.SpacedFar | Permissions/Permissions/Private/Main.cpp:868-878 | consecutive resyncs at least the frequency apart make any two at least that per step |
| Sync.OneSyncPerPeriod | Permissions/Permissions/Private/Main.cpp:868-878 | no two resyncs fall within one period |
| Sync.SyncTimer.Load | Permissions/Permissions/Private/Main.cpp:938-973 | the frequency is read with its floor and the clock starts now |
| Sync.SyncTimer.DatabaseSync | Permissions/Permissions/Private/Main.cpp:868-878 | resyncs iff the frequency has elapsed, then restarts the clock; spacing preserved |
| StoreCatalog.FindItem | ArkShop/ArkShop/Private/Store.cpp:345-351 | the entry found has that key and is the first; none means no entry has it |
| StoreCatalog.ToInt32 | ArkShop/ArkShop/Private/Store.cpp:27-28 | the 32-bit conversion stays in range and keeps the bit pattern |
| StoreCatalog.IntPrice | ArkShop/ArkShop/Private/Store.cpp:128 | an `int` price is the configured one when it fits |
| StoreCatalog.TotalPrice | ArkShop/ArkShop/Private/Store.cpp:27-28 | the total is in range and equals price times amount modulo 2^32 |
| StoreCatalog.Stoi | ArkShop/ArkShop/Private/Store.cpp:509-516 | a number that fits in an `int` parses, anything else fails |
| StoreCatalog.StoiRoundTrip | ArkShop/ArkShop/Private/Store.cpp:509-516 | every `int` written out parses back |
| StoreCatalog.TotalExact | ArkShop/ArkShop/Private/Store.cpp:27-28 | without overflow the total is the product |
| StoreCatalog.TotalWraps | ArkShop/ArkShop/Private/Store.cpp:27-28 | 42949673 at 100 totals 4 |
| StoreBrowse.ListingAt | ArkShop/ArkShop/Private/Store.cpp:554-572 | a line shows the entry's 1-based number, its key, and a level only for a dino |
| StoreBrowse.FindCaseInsensitiveSpec | ArkShop/ArkShop/Private/Store.cpp:593-602 | true iff the lowered term occurs in the lowered data at or after `pos` |
| StoreBrowse.LowerIdempotent | ArkShop/ArkShop/Private/Store.cpp:598-599 | lowering twice is lowering once |
| StoreBrowse.FindIgnoresCase | ArkShop/ArkShop/Private/Store.cpp:593-602 | lowering either argument first changes nothing |
| StoreBrowse.EmptyTermFound | ArkShop/ArkShop/Private/Store.cpp:593-602 | the empty term is found iff `pos` is within the data |
| StoreBrowse.OccurrenceFound | ArkShop/ArkShop/Private/Store.cpp:593-602 | a verbatim occurrence is found |
| StoreBrowse.ShowItems | ArkShop/ArkShop/Private/Store.cpp:502-591 | the loop with its break lists the window of the requested page |
| StoreBrowse.PageCountCeil | ArkShop/ArkShop/Private/Store.cpp:583-586 | the page count is the fewest pages holding the catalogue |
| StoreBrowse.PageBeforeEnd | ArkShop/ArkShop/Private/Store.cpp:535-539 | a page starting before the end is among those announced |
| StoreBrowse.PageAfterEnd | ArkShop/ArkShop/Private/Store.cpp:535-539 | a page at or past the count starts past the end |
| StoreBrowse.EveryItemOnItsPage | ArkShop/ArkShop/Private/Store.cpp:535-552 | entry i is on page i/ipp at offset i%ipp, and that page is announced |
| StoreBrowse.PageBounded | ArkShop/ArkShop/Private/Store.cpp:524-552 | shown iff the page is not negative and starts before the end; at most ipp lines, numbered from the start |
| StoreBrowse.NoPageNumber | ArkShop/ArkShop/Private/Store.cpp:518-522 | without a number ShopUsage is sent and the first page shown |
| StoreBrowse.PageCommandTokens | ArkShop/ArkShop/Private/Store.cpp:502-503 | "cmd n" tokenizes into the two |
| StoreBrowse.PageNumberCommand | ArkShop/ArkShop/Private/Store.cpp:505-539 | "/shop n" shows page n-1, nothing past the page count |
| StoreBrowse.MatchesBelow | ArkShop/ArkShop/Private/Store.cpp:629-647 | the match positions are below the bound |
| StoreBrowse.MatchesExact | ArkShop/ArkShop/Private/Store.cpp:629-647 | exactly the matching entries, once each, in catalogue order |
| StoreBrowse.MatchesMembership | ArkShop/ArkShop/Private/Store.cpp:629-647 | an entry below the bound is among the matches iff its key or description contains the term |
| StoreBrowse.MatchesIncreasing | ArkShop/ArkShop/Private/Store.cpp:629-647 | the matches are listed in strictly increasing catalogue order |
| StoreBrowse.MatchesGrow | ArkShop/ArkShop/Private/Store.cpp:629-670 | the matches among fewer entries are a prefix of those among more |
| StoreBrowse.TooManyAt | ArkShop/ArkShop/Private/Store.cpp:647-653 | stopping at a further match means more than a page matches and the first page is listed |
| StoreBrowse.CollectMatches | ArkShop/ArkShop/Private/Store.cpp:628-670 | the notice follows iff more match than fit; the listed ones are the first page of matches |
| StoreBrowse.EntryFound | ArkShop/ArkShop/Private/Store.cpp:631-645 | an entry is found iff its key or its description contains the term, ignoring case |
| StoreBrowse.FindItems | ArkShop/ArkShop/Private/Store.cpp:604-683 | usage without a term, not-found, or the capped listing |
| StoreBrowse.FoundMatch | ArkShop/ArkShop/Private/Store.cpp:628-670 | everything listed matches on key or description, at most a page of it |
| StoreBrowse.FewMatchesAllShown | ArkShop/ArkShop/Private/Store.cpp:628-670 | all matches are listed when they fit, without the notice |
| StoreBrowse.NotFoundIffNoMatch | ArkShop/ArkShop/Private/Store.cpp:672-675 | ShopFindNotFound iff no entry matches |
| StoreBrowse.TooManyIffOverPage | ArkShop/ArkShop/Private/Store.cpp:647-653 | the notice iff more entries match than fit on a page |
| StorePurchase.Debit | ArkShop/ArkShop/Private/Store.cpp:36 | only the buyer's balance drops, by the amount |
| StorePurchase.Credit | ArkShop/ArkShop/Private/Store.cpp:246 | only the buyer's balance rises, by the amount |
| StorePurchase.RefundRestores | ArkShop/ArkShop/Private/Store.cpp:231-247 | the refund restores the balances exactly |
| StorePurchase.PointsStore.SpendPoints | ArkShop/ArkShop/Private/Store.cpp:36 | spends iff accepted, debiting the buyer only |
| StorePurchase.PointsStore.AddPoints | ArkShop/ArkShop/Private/Store.cpp:246 | credits the registered buyer |
| StorePurchase.SpendPrice | ArkShop/ArkShop/Private/Store.cpp:130-153 | pays and confirms, or sends NoPoints and pays nothing |
| StorePurchase.BuyItem | ArkShop/ArkShop/Private/Store.cpp:17-119 | amount clamped, wrapped total; nothing at all when not positive |
| StorePurchase.UnlockEngram | ArkShop/ArkShop/Private/Store.cpp:124-156 | pays the price, confirming with BoughtItem |
| StorePurchase.BuyCommand | ArkShop/ArkShop/Private/Store.cpp:161-209 | pays the price, confirming with BoughtItem |
| StorePurchase.BuyBeacon | ArkShop/ArkShop/Private/Store.cpp:255-284 | pays the price, confirming with BoughtBeacon |
| StorePurchase.BuyDino | ArkShop/ArkShop/Private/Store.cpp:214-250 | pays, then the dino or a refund with RefundError |
| StorePurchase.BuyExperience | ArkShop/ArkShop/Private/Store.cpp:289-323 | refused while riding unless for the dino, else pays |
| StorePurchase.HasPermission | ArkShop/ArkShop/Private/Store.cpp:364-376 | true iff the player is in one of the groups |
| StorePurchase.Buy | ArkShop/ArkShop/Private/Store.cpp:325-444 | the guards in order, then the type's purchase, logging the total on success |
| StorePurchase.BuyByType | ArkShop/ArkShop/Private/Store.cpp:400-427 | the dispatch on the item type leaves the outcome and balances of the matching purchase; an unknown type buys nothing |
| StorePurchase.TypeOutcomeCharges | ArkShop/ArkShop/Private/Store.cpp:17-320 | a successful purchase of any type was affordable at the logged total and debits exactly it; a failed one leaves the balances |
| StorePurchase.PurchaseCharges | ArkShop/ArkShop/Private/Store.cpp:325-444 | a success logs a total that was affordable and is debited from the buyer; a failure logs nothing and changes no balance |
| StorePurchase.DeadBuysNothing | ArkShop/ArkShop/Private/Store.cpp:327-330 | a dead player buys nothing, hears nothing, pays nothing |
| StorePurchase.AmountClamped | ArkShop/ArkShop/Private/Store.cpp:332-335 | an amount that is not positive buys as one |
| StorePurchase.SuccessPassedGuards | ArkShop/ArkShop/Private/Store.cpp:325-398 | a success was alive, registered, a known id, permitted and within the level window |
| StorePurchase.PermissionGate | ArkShop/ArkShop/Private/Store.cpp:359-384 | in none of the listed groups: NoPermissionsStore and nothing paid |
| StorePurchase.OthersUntouched | ArkShop/ArkShop/Private/Store.cpp:325-444 | only the buyer's balance can change |
| StorePurchase.FailureCostsNothing | ArkShop/ArkShop/Private/Store.cpp:229-247 | a failed purchase, a refunded dino included, leaves every balance unchanged and logs nothing |
| StorePurchase.SuccessChargesLoggedTotal | ArkShop/ArkShop/Private/Store.cpp:400-440 | a success takes exactly the logged total, which was affordable |
| StorePurchase.WrappedItemTotal | ArkShop/ArkShop/Private/Store.cpp:27-36 | 42949673 items at 100 are sold for 4 points |
| StorePurchase.ChatBuy | ArkShop/ArkShop/Private/Store.cpp:448-482 | usage without an id, silent on a bad amount, else Buy with the parsed amount or 0 |
| StorePurchase.ChatBuyDefaultsToOne | ArkShop/ArkShop/Private/Store.cpp:459-475 | "/buy id" buys one |

## Left out

- Storage backends: the SQLite and MySQL implementations, connections and `Init` are not part of this model. The in-memory `Backend.Database` stands for them. Its error texts are placeholders.
- Backend.GetGroupMembers: returned as a set, because the SQL row order is not modelled.
- Backend timed-group pruning: expired entries are kept and filtered by readers. Clean-up by the SQL layer is not modelled.
- Concurrency: the thread pool that runs the resync is not modelled. Only the elapsed-time rule is.
- Host game API: player controllers, inventory, the cheat manager, commands run by `ConsoleCommand`, and the sending of chat, notification, RCON and Discord messages are outside the model. Messages are modelled as values: text keys, colour and channel.
- Number parsing leniency. The model's parsers accept only a whole token of digits (with an optional sign for `std::stoi`). The C++ library functions are more lenient:
  - `std::stoull` (Main.cpp:263, 306, 349, 398, 751) skips leading whitespace, accepts a sign and ignores trailing characters: "12abc" reads as 12, and "-1" wraps to the largest unsigned value. The model rejects such tokens.
  - `std::stoull`'s unsigned result is stored in an `int tribe_id`, so a large id wraps. The model keeps the exact number.
  - `std::stof` (Main.cpp:184-186, 350-352) ignores trailing characters and accepts fractions: "2h" reads as 2 hours, and "1.5" as 5400 seconds. The model takes whole hours and rejects trailing characters.
  - `long secs` and `long delaySecs` (Main.cpp:176-199, 341-365) are passed as `int secs` and `int delaySecs` to AddPlayerToTimedGroup and AddTribeToTimedGroup (Permissions.cpp:249, 278), so a large duration wraps in the source. The model keeps the exact number.
  - `std::stoi` (Store.cpp:467, 511) ignores trailing characters. The model rejects them.
- Wall clock: `time(0)` and `system_clock::now()` are the `now` parameter.
- Configuration: file I/O, reloading and command registration are outside the model. Configured values (page size, message flags, the sync frequency) are parameters.
- Rich-text colour markup in the chat tribe header is a literal prefix string.
- HandlePlayerMessage: the text size and display time are not modelled.
- Lowercasing: `towlower` is modelled on ASCII letters only.
- GetTemplate and `FString::Format`: the message templates are not expanded. Listing and purchase results carry their fields and text keys instead.
- Subscribers and callbacks calling back into the service are not modelled. A subscriber is logged, not run.
- Permissions.Service.GetTribeGroups: only the static-groups prefix is stated as its contract. The full contents are `Backend.SubjectGroups`.
- GroupText.PlayerGroupsStr: its own contract only states the unknown-player case. The rest is stated by the lemmas about it (`OtherPlayersTribeShown`, `ExpiringNowListedBare`, `NoTribeBlocks`).
- StorePurchase.Purchase: `Permissions::IsPlayerInGroup` is an input predicate. It is not composed with the resolution and its cache writes.
- StorePurchase.Purchase: the dino result of `GiveDino` and "riding a dino" are inputs.
- StorePurchase.PointsStore.SpendPoints: the points store is not part of this model. It is modelled as accepting exactly a registered player and an amount between 0 and the balance.
- StoreBrowse.ShowItems: the product `page * ItemsPerPage` is unbounded here, not a 32-bit unsigned product. A page size of zero or less is excluded, because the page count divides by it.
- StoreBrowse.ShowItems: the ArkShopUI branch of the command belongs to another plugin and is not modelled.
- The `ShopMessage` "No message" switch is left out. The page count is always part of the result.
- Store enabling and use prevention (`IsStoreEnabled`, `ShouldPreventStoreUse`) are host checks and are not modelled.
- Helpers.h (item stats), WelcomePlugin and BabyStasisFix are not part of this model.
