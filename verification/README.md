# Scout, verified

A Dafny model of the parts of Scout that spend a metered debrid allowance and of the memories, caches, parsers and
orderings that guard the spending, with proofs of what they promise. `dafny verify dfyconfig.toml` checks everything.

Each part is built the same way. A specification on values says what every operation does to the state. Where the source
works by changing things in place, a class with the source's fields has methods in the source's order, and each method is
proved to do exactly what the specification says. The properties are then proved of the specification, over every run:
any number of operations, any clock that does not go back, and any answer an upstream, a disk or a client can give.

| file | what it models |
|---|---|
| `Common.dfy`, `Recency.dfy`, `ByteRuns.dfy` | optional values and clock readings; most-recently-used lists; byte buffers |
| `AddBudget.dfy` | the rolling hour of adds per account, its reserve and its give-backs |
| `AddProtocol.dfy` | one TorBox account's memory of adds: attempts, unknown outcomes, refusals, ids, queue entries; every run of resolves, status reads and cancels |
| `TorBox.dfy` | the TorBox store as it runs, against the protocol |
| `RealDebrid.dfy` | Real-Debrid's resolves, per file, and the link of a file |
| `HostLimiter.dfy` | the token bucket with refunds |
| `MemoryCache.dfy`, `LinkMemo.dfy`, `TieredCache.dfy` | the byte-bounded cache, the link memo, memory over disk with faults, sweeps and restarts |
| `RebuildLeases.dfy` | fenced leases on background rebuilds, cool-offs and outage holds |
| `Ebml.dfy`, `IsoBoxes.dfy`, `AviWalk.dfy` | the three container walks (RFC 8794 sections 4 to 6 and RFC 9559; ISO/IEC 14496-12 section 4.2; RIFF), each with the writer it inverts |
| `Listing.dfy` | the streaming reader of the account listing |
| `CheckBatcher.dfy`, `StorePool.dfy`, `StatusFanOut.dfy` | joined cache checks, three-valued cache truth up to the cached-only filter, the status fan-out and the order of stores |
| `Scores.dfy`, `StreamRanking.dfy` | the arithmetic of ranking and its tiers; filtering, ordering and capping |
| `EpisodePick.dfy` | which file of a torrent is played |
| `Freshness.dfy` | how long a list may be used, against the life of its tickets; the framed cache entry |

Where the code and what is written about it differ, the model follows the code:

- `internal/scout/rank.go:352-355` and `internal/scout/client.go:69` put the range of quality at 4860 down to -2170. It
  runs from 4890 to -4250 (`Scores.QualityRange`). The tiers still hold, with the limits on penalties that
  `PreferenceHolds` and `PlaysAsItIsFirst` state and `BoundsAreTight` shows to be exact.
- `internal/scout/rank.go:364-376` and `internal/scout/client.go:70-72` keep a sunk release above junk. One that both
  never plays in the browser and names another show may fall below it, and does exactly when its quality, cached bonus
  and preferred resolution are worth no more than 2,890 (`Scores.JunkLine`).
- `internal/scout/rank.go:370-376` puts every release that names the show and episode above every one that names another,
  "a video conversion (2 x 6000)" included, and `internal/scout/client.go:70-72` one that never plays below every one that
  can. A cost of 18,300 is reached and undoes both: `Scores.WrongShowLine` and `Scores.NeverPlaysLine` have the releases
  and the exact conditions.
- `internal/scout/client.go:69-71` has "a cached conversion still beats a download". It beats the same release, and every
  download only if its quality is above what its cost leaves of the cached bonus (`Scores.CachedConversionLine`).
- `internal/scout/ticket.go:31-38` has a list's tickets first used up to three list lifetimes after it was built, and
  `internal/scout/deps.go:266-271` warns of ticket lifetimes at or under that. Tickets are minted before the list is
  built, and their expiry is sealed in whole seconds, so three lifetimes and a second, which warn of nothing, can be too
  few (`Freshness.DeadOnATick`, `Freshness.DeadOnAGap`, `Freshness.DeadOnAFraction`; exactly when is
  `Freshness.CompleteExactly` and `Freshness.TicketsOutliveLists`).
- `internal/scout/rank.go:666-674` filters "on what we KNOW is not cached". A Premiumize list shorter than its batch
  (`internal/scout/stores.go:4368-4374`) and a TorBox body without `data` (`internal/scout/stores.go:741-763`) say nothing
  of a release and are read as a no, so a release that is held is dropped (`StorePool.ShortListDropsHeld`,
  `StorePool.NoDataDropsHeld`). `StorePool.NoesTrueExactly` and `StorePool.CachedOnlyDropsOnlyDenied` say exactly when a
  no can be trusted.
- `internal/scout/addbudget.go:128-130` gives "the most recent charge" back, which is the add's own only when it is the
  newest; `AddBudget.OutOfOrderRefundOvershoots` shows what happens otherwise. Within one resolve it always is.
- `internal/scout/hostlimit.go:86-92` refunds a cancelled wait. The bound then holds from the bucket's creation, not over
  every window (`HostLimiter.AbandonedWaitsBunch`; by how much it can fail is `HostLimiter.WindowsAreBounded`).
- `internal/scout/handler.go:228-251` turns a degraded booking into a cool-off only if the lease has not been swept by
  then (`RebuildLeases.LateCooloffIsLost`; `RebuildLeases.SweepingIsInvisible` shows that nothing else depends on it).

## Model

| member | source | states |
|---|---|---|
| AddBudget.Budget.DropDrained | internal/scout/addbudget.go:115-126 | forgets exactly the accounts whose newest charge has left the window |
| AddBudget.Budget.KeepLive | internal/scout/addbudget.go:95-101 | keeps exactly the charges still in the window, in order |
| AddBudget.Budget.Take | internal/scout/addbudget.go:87-108 | grants while fewer live charges than the ceiling for the intent; the whole new ledger, other accounts included |
| AddBudget.Budget.Refund | internal/scout/addbudget.go:130-141 | gives the newest charge back and touches no other account |
| AddBudget.Budget.Remaining | internal/scout/addbudget.go:144-158 | what is left of the hour, never below zero |
| AddBudget.Budget.FreesIn | internal/scout/addbudget.go:166-190 | how long until one more charge fits under the ceiling |
| AddBudget.ExactWait | internal/scout/addbudget.go:160-190 | with a positive ceiling and no charge in between, an add is granted at now + d if and only if d has reached the wait told |
| AddBudget.RemainingExactly | internal/scout/addbudget.go:144-158 | a remaining count is positive exactly when a viewer's add would be granted |
| AddBudget.RemainingIsHowMany | internal/scout/addbudget.go:144-158 | the count told is how many: of viewer's adds made at one instant, exactly so many are granted |
| AddBudget.ForgettingIsInvisible | internal/scout/addbudget.go:110-126 | over any later calls, forgetting drained accounts changes no grant, no remaining count and no wait |
| AddBudget.BudgetSafety | internal/scout/addbudget.go:87-141 | in every run in which a give-back follows its own add, no rolling window holds more adds the service may count than the limit |
| AddBudget.GrantedExactly | internal/scout/addbudget.go:77-108 | after every such run a prefetch is granted exactly while fewer than limit - reserve counted adds are live, a viewer's add while fewer than the limit are |
| AddBudget.RefundIsOwnExactlyWhenNewest | internal/scout/addbudget.go:128-141 | a give-back removes the charge of its own add if and only if that add was charged at the newest instant |
| AddBudget.OutOfOrderRefundOvershoots | internal/scout/addbudget.go:128-141 | a concrete run in which a give-back out of turn lets the window hold one add more than the limit |
| AddProtocol.LicensedReadd | internal/scout/stores.go:1564-1775 | in every run of resolves, status reads and cancels, from any account and under any answers, two sends of one release are more than a minute apart unless between them TorBox said the torrent is gone or the user cancelled it |
| AddProtocol.RunRemembers | internal/scout/stores.go:1538-1551 | what every step keeps: after its last send a release is guarded for a minute by its attempt, a refusal, its id or its queue entry |
| AddProtocol.OthersUntouched | internal/scout/stores.go:786-821 | a step over one release changes nothing of another, and replaces an account refusal only by a later one |
| AddProtocol.NoAddSpendsNothing | internal/scout/stores.go:1690-1695 | a resolve that may not add sends nothing, charges nothing, and leaves no refusal of the release behind |
| AddProtocol.SendsExactly | internal/scout/stores.go:1564-1775 | a resolve sends an add, and as the last thing it says, if and only if nothing remembered of the release or account stands between, the caller allows it, the clock is not spent, the hour has room and the request is built |
| AddProtocol.SendsExactlyAfterRun | internal/scout/stores.go:1697-1983 | after every run from an empty hour, an unhindered resolve that may add, has time and a request, sends if and only if fewer sends TorBox may be counting are in the window than the hour allows |
| AddProtocol.LinksExactly | internal/scout/stores.go:1564-1868 | a link is served if and only if the remembered pack gives one, or else the remembered torrent, or else the torrent a parked add has become, or else the one just added |
| AddProtocol.SaysWithoutAdding | internal/scout/stores.go:1564-1722 | what a resolve that serves and sends nothing says: turned away, waiting, would add, dead past the give-up, coming before it, refused a moment ago, busy |
| AddProtocol.SaysAfterAdding | internal/scout/stores.go:1723-1775 | what one that sends says, for each answer |
| AddProtocol.WarmLeaves | internal/scout/stores.go:1604-1648 | what a remembered pack that answers says, and the refusal it leaves |
| AddProtocol.HoldLeaves | internal/scout/stores.go:1780-1868 | what a held torrent leaves in memory for each answer: id and pack for six hours, or nothing, or a refusal for a minute |
| AddProtocol.AddLeaves | internal/scout/stores.go:1723-1994 | what an add leaves for each answer: out for ninety seconds and the first silence stamped, or settled and then refused, queued, ours or held |
| AddProtocol.StatusLeaves | internal/scout/stores.go:2527-2565 | what a status read leaves: the id, the queue entry, or the lack of either for fifteen seconds |
| AddProtocol.CancelsExactly | internal/scout/stores.go:2207-2284 | a cancel deletes if and only if TorBox accepts it, it is no reannounce, and the add is parked and ours, or its torrent is being fetched and is ours or stalled |
| AddProtocol.CancelsOnlyOurs | internal/scout/stores.go:2207-2284 | in every run that starts with nothing marked ours, a torrent is deleted only if scout sent an add of it in that run or it is stalled, and one out of the queue only while it is being fetched |
| AddProtocol.SendsWithinBudget | internal/scout/stores.go:1882-1983 | in every run from an empty hour, no rolling window holds more sends TorBox may be counting than the limit, whatever was given back |
| AddProtocol.PrefetchLeavesTheReserve | internal/scout/addbudget.go:77-108 | after every such run a prefetch sends only while fewer than limit - reserve counted sends are live |
| AddProtocol.GivesUp | internal/scout/stores.go:1004-1033 | while adds of a release stay unanswered, those sent under one unknown-outcome stamp number n with (n - 1) x 90 s < 10 min + the longest request: at most 7 for 30 s, 8 for 45 s |
| AddProtocol.SilentAfterGivingUp | internal/scout/stores.go:828-842 | between the give-up and the stamp's thirty minutes no add of the release is sent |
| TorBox.Store.RecordRefusal | internal/scout/stores.go:1538-1551 | remembers a refusal for the account or for the release, for a minute |
| TorBox.Store.TorrentId | internal/scout/stores.go:2781-2815 | the id from memory or from the listing, which settles an add in flight; a miss is remembered |
| TorBox.Store.ResolveHeldTorrent | internal/scout/stores.go:1780-1868 | the held torrent's whole path: list, remembered id, link, refusal, gone |
| TorBox.Store.TryWarm | internal/scout/stores.go:1576-1648 | the two backoff gates and the warm path, in their order |
| TorBox.Store.Spend | internal/scout/addbudget.go:239-262 | charges the account's hour exactly when the protocol says it may |
| TorBox.Store.Send | internal/scout/stores.go:1889-1917 | marks the attempt before the request and then acts on the answer |
| TorBox.Store.Silence | internal/scout/stores.go:1723-1755 | an unanswered add: the stamp, a give-up, or a refusal when the marker has lapsed |
| TorBox.Store.Settled | internal/scout/stores.go:1917-1994 | an answered add: settled first, then refunded, parked, refused or held |
| TorBox.Store.Parked | internal/scout/stores.go:1988-1994 | a queued add is remembered as ours and parked |
| TorBox.Store.JustAdded | internal/scout/stores.go:1756-1774 | a torrent just created and then denied backs off instead of being bought again |
| TorBox.Store.AddMagnet | internal/scout/stores.go:1697-1755 | the last gates before an add, the charge and the add, as one transition |
| TorBox.Store.Seek | internal/scout/stores.go:1676-1695 | a parked add is looked for by a read; else, unless forbidden, one is bought |
| TorBox.Store.Resolve | internal/scout/stores.go:1564-1775 | one resolve does exactly the protocol's step: memory, charges, outcome and events |
| TorBox.Store.Status | internal/scout/stores.go:2527-2565 | what an uncached status read remembers |
| TorBox.Store.Cancel | internal/scout/stores.go:2207-2284 | what a cancel or reannounce forgets, and when it may delete |
| RealDebrid.Store.ResolveExisting | internal/scout/stores.go:4047-4150 | a torrent already bought: only the first no-such-torrent forgets it, and a read-only caller leaves no release refusal |
| RealDebrid.Store.Silence | internal/scout/stores.go:3902-3943 | an unanswered add: the stamp, a give-up, or a refusal |
| RealDebrid.Store.Settled | internal/scout/stores.go:3944-4002 | an answered add: refunded and backed off when nothing was created, else remembered and resolved |
| RealDebrid.Store.Resolve | internal/scout/stores.go:3866-4003 | one resolve does exactly the model's step: memory, charges, outcome and events |
| RealDebrid.NoAddSpendsNothing | internal/scout/stores.go:3878-3880 | a resolve that may not add sends nothing, charges nothing and leaves no refusal of the release |
| RealDebrid.SendsExactly | internal/scout/stores.go:3866-3979 | a turn sends an add if and only if nothing remembered stands between, the caller allows it, the clock is not spent and the hour has room |
| RealDebrid.SendsExactlyAfterRun | internal/scout/stores.go:3866-3979 | after every run from an empty hour, an unhindered turn that may add and has time sends if and only if fewer adds Real-Debrid may be counting are in the window than the hour allows |
| RealDebrid.LinksExactly | internal/scout/stores.go:3866-4003 | a link is served if and only if the torrent remembered for the file gives one, or else the one just added |
| RealDebrid.HeldLeaves | internal/scout/stores.go:4047-4150 | what a held torrent says and leaves for each answer |
| RealDebrid.SilenceLeaves | internal/scout/stores.go:3898-3943 | what an unanswered add says and leaves |
| RealDebrid.NewTorrentLeaves | internal/scout/stores.go:3944-4003 | what a created torrent says and leaves: remembered for the file for six hours, refused for a minute when denied at once |
| RealDebrid.AddsWithinBudget | internal/scout/stores.go:3895-3979 | in every run from an empty hour, no rolling window holds more adds Real-Debrid may be counting than the limit |
| RealDebrid.LicensedReaddPerFile | internal/scout/stores.go:3866-4040 | two adds for one file of a release are more than a minute apart unless between them Real-Debrid said it has no such torrent |
| RealDebrid.GivesUp | internal/scout/stores.go:987-1033 | while Real-Debrid leaves the adds of a release unanswered, for however many of its files, those sent under one unknown-outcome stamp number n with (n - 1) x 90 s < 10 min + the longest request |
| RealDebrid.SilentAfterGivingUp | internal/scout/stores.go:3898-3943 | between the give-up and the stamp's thirty minutes no add of the release is sent |
| RealDebrid.LinkFor | internal/scout/stores.go:4183-4203 | the link at the file's place among the selected files; with no selection, one link only |
| RealDebrid.OwnLink | internal/scout/stores.go:4183-4203 | with one link for each selected file in order, the link taken for a selected file is its own |
| HostLimiter.Bucket.TryTake | internal/scout/hostlimit.go:118-132 | refills, then spends only a whole token |
| HostLimiter.Bucket.Take | internal/scout/hostlimit.go:145-159 | refills, spends even into debt, and tells the debt as a delay |
| HostLimiter.Bucket.Refund | internal/scout/hostlimit.go:163-169 | gives a token back below the burst |
| HostLimiter.Limiter.BucketFor | internal/scout/hostlimit.go:59-73 | the host's bucket, or a full new one, forgetting the rest at the key limit |
| HostLimiter.Limiter.Reserve | internal/scout/hostlimit.go:59-78 | spends from one host's bucket and leaves every other alone |
| HostLimiter.PassesAreBounded | internal/scout/hostlimit.go:59-169 | over any mix of waits, inbound requests and abandoned waits, the callers let through by any instant are at most the burst plus one for every interval since the bucket was made |
| HostLimiter.NeverBanks | internal/scout/hostlimit.go:161-169 | no refund banks what was not earned: a taker never sees more than the burst |
| HostLimiter.WindowsAreBounded | internal/scout/hostlimit.go:82-132 | no window of any length lets more through than the burst, one for every interval in it, and one for every wait abandoned so far ahead of another |
| HostLimiter.RefusedExactly | internal/scout/hostlimit.go:97-132 | where callers only ask, one is turned away if and only if letting it through would break the bound of some window up to then |
| HostLimiter.WaitsNoLonger | internal/scout/hostlimit.go:59-93 | where nobody gives up, one who queues passes at once or at the first instant at which it and those ahead break no window's bound |
| HostLimiter.AbandonedWaitsBunch | internal/scout/hostlimit.go:86-92 | one abandoned ahead of another lets two through in half an interval with a burst of one: a concrete run |
| MemoryCache.Cache.Get | internal/scout/cache.go:67-81 | a hit moves to the front; an expired entry is removed; the byte count stays the sum of the entries |
| MemoryCache.Cache.Put | internal/scout/cache.go:83-100 | the entry goes to the front, then the least recently used leave until the rest fit |
| MemoryCache.Cache.Evict | internal/scout/cache.go:97-99 | what stays is the longest most-recently-used run that fits, and the byte count is its sum |
| MemoryCache.Cache.Forget | internal/scout/cache.go:102-107 | list, map and byte count lose the same entry |
| MemoryCache.EvictsTheShortestTail | internal/scout/cache.go:97-99 | the n most recently used all stay if and only if together they fit |
| MemoryCache.HitsAreTheLastPut | internal/scout/cache.go:67-100 | in every run a hit is the value last put under that key, while that put lives |
| MemoryCache.HitsExactlyWhileItFits | internal/scout/cache.go:67-100 | while everything put fits together, on a clock that does not go back, a get hits if and only if what was last put under the key is alive |
| MemoryCache.StandsByUse | internal/scout/cache.go:67-100 | in every run the list stands by last use, a put or a hit, the latest first |
| MemoryCache.EvictsLeastRecentlyUsed | internal/scout/cache.go:97-99 | in every run a key that leaves to make room was last used before any that stays |
| LinkMemo.LinkMemo.Get | internal/scout/linkmemo.go:48-63 | serves a link strictly before its expiry and drops it after |
| LinkMemo.LinkMemo.Store | internal/scout/linkmemo.go:66-85 | the new link first, at most 256 kept |
| LinkMemo.LinkMemo.MarkChecked | internal/scout/linkmemo.go:89-97 | marks only that very link, and extends nothing |
| LinkMemo.LinkMemo.Forget | internal/scout/linkmemo.go:100-107 | drops the key from list and map alike |
| LinkMemo.ServesOnlyFreshLinks | internal/scout/linkmemo.go:48-107 | in every run at most 256 links are held, and one served is the last minted under its key, under ten minutes old, and checked only if that very link was |
| LinkMemo.ServesExactlyWhileFew | internal/scout/linkmemo.go:48-107 | while no more than 256 keys are in use, on a clock that does not go back, a link is served if and only if one was minted under its key less than ten minutes ago and the key not dropped since |
| LinkMemo.StandsByUse | internal/scout/linkmemo.go:48-97 | in every run the keys stand by last use, the latest first, and a check is none |
| LinkMemo.ForgetsLeastRecentlyUsed | internal/scout/linkmemo.go:66-85 | in every run a key that leaves to make room was last used before any that stays |
| TieredCache.Cache.Get | internal/scout/diskcache.go:66-94 | memory, then the file, which returns to memory for what is left of its life |
| TieredCache.Cache.Store | internal/scout/diskcache.go:100-157 | memory first; a volatile put removes the file, a durable one replaces it, a failure turns persistence off |
| TieredCache.Cache.NoteWritten | internal/scout/diskcache.go:251-263 | the written counter restarts when a sweep is due |
| TieredCache.Cache.SweepFiles | internal/scout/diskcache.go:181-248 | the expiry pass, then the budget pass oldest first, under any faults |
| TieredCache.GetLeaves | internal/scout/diskcache.go:66-94 | what a read answers and leaves: a live file goes back to memory for the rest of its life, an expired one is removed if that works |
| TieredCache.PutLeaves | internal/scout/diskcache.go:100-157 | what a put leaves: its file with the second it expires in, no file for a volatile value, or persistence off |
| TieredCache.SweepIsDueExactly | internal/scout/diskcache.go:251-263 | a sweep is due when the bytes written since the last reach the budget, and no sooner |
| TieredCache.DigitsExactly | internal/scout/diskcache.go:119-120 | the expiry in a file counts for as many bytes as its decimal notation |
| TieredCache.SweepOnlyRemoves | internal/scout/diskcache.go:181-248 | no sweep changes or invents a file, whatever fails in it |
| TieredCache.SweepMeetsBudget | internal/scout/diskcache.go:227-247 | a sweep without faults leaves the bytes within the budget and takes exactly the shortest oldest-first run of live files that achieves it |
| TieredCache.SweepSpares | internal/scout/diskcache.go:181-248 | what a sweep under faults leaves, for each file |
| TieredCache.NoResurrection | internal/scout/diskcache.go:66-157 | in every run of puts, volatile puts, reads, evictions and sweeps under any disk faults, and across restarts made while persistence was on, a hit is the last value put, unexpired |
| TieredCache.FailedWriteResurrectsAfterRestart | internal/scout/diskcache.go:121-147 | a restart after a failed write does bring the older value back: a concrete run |
| TieredCache.RestartResurrectsExactly | internal/scout/diskcache.go:66-157 | after any run, faults and restarts included, a new process can read other than the last put, alive, if and only if that put missed the disk and the older file it left is unexpired and differs or outlives it |
| TieredCache.CaughtUpIsHonest | internal/scout/diskcache.go:66-157 | where the files such puts left agree with them, a restart starts over with nothing older to bring back |
| RebuildLeases.Rebuilds.Sweep | internal/scout/handler.go:215-219 | removes exactly the leases that ended |
| RebuildLeases.Rebuilds.Book | internal/scout/handler.go:199-224 | grants when the key is free and fewer than eight run, with a new generation |
| RebuildLeases.Rebuilds.Release | internal/scout/handler.go:228-251 | the slot goes back; the lease changes only if the generation is its own |
| RebuildLeases.Rebuilds.MarkOutage | internal/scout/handler.go:174-187 | a hold with a new generation |
| RebuildLeases.SlotsConserved | internal/scout/handler.go:199-251 | with one release per grant, rebuilds counted live are grants less releases, 0 to 8 |
| RebuildLeases.StaleReleaseIsHarmless | internal/scout/handler.go:228-251 | after any run a release changes no newer booking and no outage hold |
| RebuildLeases.SecondGrantWaits | internal/scout/handler.go:199-224 | between two grants of a key the earlier lease ended, was released, or was superseded by a hold that has ended |
| RebuildLeases.SweepingIsInvisible | internal/scout/handler.go:213-251 | every answer at every point of a run is the one a map never swept would give, if and only if no degraded release finds its lease swept away with its cool-off still to come |
| RebuildLeases.OnlyRunningStay | internal/scout/handler.go:174-224 | a booking that is granted, and a hold, leave no ended lease and lose none that has not ended |
| RebuildLeases.LateCooloffIsLost | internal/scout/handler.go:228-251 | a degraded release after its lease was swept leaves no cool-off: a concrete run |
| Ebml.ScanLeading | internal/scout/probe.go:423-430 | the width marker, bit by bit |
| Ebml.ReadSizeAt | internal/scout/probe.go:390-405 | a size less its marker, and whether all its bits are set |
| Ebml.UnknownIsLargest | internal/scout/probe.go:390-405 | the unknown marker is exactly the largest value the width can say |
| Ebml.FindTracksIn | internal/scout/probe.go:257-278 | the loop finds what the walk over the Segment's children finds |
| Ebml.FindSegment | internal/scout/probe.go:229-253 | the top-level loop finds the Segment, known or unknown in size |
| Ebml.FindTracksPayload | internal/scout/probe.go:229-255 | the two loops together are the walk of the head |
| Ebml.WalkInvertsWriter | internal/scout/probe.go:229-278 | of any file, whatever its payloads spell, however its sizes are written and wherever the head is cut, the walk finds exactly the first Tracks payload that lies whole within the head |
| Ebml.WalkFindsFirstTracks | internal/scout/probe.go:229-278 | with the whole file, the bytes found are those written into the first Tracks of the Segment |
| Ebml.ChildrenReadBack | internal/scout/probe.go:191-217 | the elements written into a payload are read back one for one |
| IsoBoxes.ReadBox | internal/scout/probe_mp4.go:147-166 | one round of the walk in 64-bit arithmetic, wrap-around included |
| IsoBoxes.Boxes | internal/scout/probe_mp4.go:145-169 | the loop lists the boxes of the walk |
| IsoBoxes.FindBox | internal/scout/probe_mp4.go:121-128 | the first box of a type |
| IsoBoxes.FirstOfExactly | internal/scout/probe_mp4.go:145-169 | a box of a type is found exactly when there is one, and it is the first |
| IsoBoxes.OverflowIsHarmless | internal/scout/probe_mp4.go:151-163 | on any bytes, a size that turns negative or overflows only ever stops the walk: it reads what unbounded arithmetic would |
| IsoBoxes.WalkInvertsWriter | internal/scout/probe_mp4.go:145-169 | of boxes with 32-bit, 64-bit and to-the-end sizes, cut anywhere, the walk reads exactly those that lie whole within the head |
| IsoBoxes.NothingIsLost | internal/scout/probe_mp4.go:145-169 | with the whole in hand every box is read with its type and its very payload |
| AviWalk.Parser.Note | internal/scout/probe_avi.go:44-71 | a stream's header or format adds what it says to what is known |
| AviWalk.Parser.Enter | internal/scout/probe_avi.go:36-71 | one chunk: a list is walked, a stream chunk noted |
| AviWalk.Parser.Walk | internal/scout/probe_avi.go:22-78 | the recursive walk visits exactly the specification's visits, in bounds and to the depth allowed |
| AviWalk.Parser.Parse | internal/scout/probe_avi.go:15-79 | the walk from the top |
| AviWalk.VisitsStreams | internal/scout/probe_avi.go:36-43 | the four bytes by which a list's end is overshot never reach another chunk |
| AviWalk.WalkInvertsWriter | internal/scout/probe_avi.go:22-78 | of any tree of chunks up to the depth allowed, cut anywhere, the walk visits the stream headers and formats the head shows, each once and in document order |
| AviWalk.FactsMean | internal/scout/probe_avi.go:44-71 | what the visits come to: the codec of the first video header that names one, a count of audio headers, and the channels of the richest audio format |
| AviWalk.LayoutIsLargest | internal/scout/probe_avi.go:44-58 | a layout is the most channels, of those a layout is named for, that are there |
| Listing.Decoder.SkipValue | internal/scout/stores.go:177-197 | skips one value, no deeper than 64 |
| Listing.Decoder.DecodeEntries | internal/scout/stores.go:3347-3433 | the data array: the entry cap before the filter, the closing token before any verdict |
| Listing.Decoder.DecodeListing | internal/scout/stores.go:3292-3507 | the whole envelope, with what fault each failure leaves |
| Listing.TruncationIsNeverAnAnswer | internal/scout/stores.go:3292-3507 | whatever a body says or would go on to say, what a cut leaves of it reads as a listing only if it holds the whole object, to the token that closes it |
| Listing.ReadMeans | internal/scout/stores.go:3292-3507 | a listing is read only from one complete object with exactly one data key, which is an array and gives the listing, with booleans or nulls for success, the last that is not null not false |
| Listing.TruncationIsRetried | internal/scout/stores.go:3485-3492 | a body that reads as a listing, cut before its object ends, is to be fetched again at once; what follows the object changes nothing |
| Listing.EmptyMeansNothingArrived | internal/scout/stores.go:3347-3433 | a listing has at most 50,000 hashes of askable length, and is empty only if no entry arrived |
| Listing.EntryMeans | internal/scout/stores.go:3347-3377 | an entry is the last id and the last hash in an object whose ids are whole numbers or null and hashes text or null; a null is an empty one |
| Listing.KeptExactly | internal/scout/stores.go:3396-3432 | exactly what is kept of an entry: its id under its hash in lower case, when that has 32 to 40 characters |
| Listing.SkipExactly | internal/scout/stores.go:168-197 | skipping finds the value's end exactly when it is nested no deeper than 64 and ends within the body |
| Listing.ReadsWritten | internal/scout/stores.go:3292-3507 | a whole listing is read to its end as exactly its askable hashes |
| Listing.SmallBodies | internal/scout/stores.go:3292-3507 | a null success says nothing, one that is no boolean is remembered as a fault, a null data is no listing: concrete bodies |
| CheckBatcher.Batcher.Send | internal/scout/stores.go:644-666 | a demand is accepted while the batcher is found and its channel has room |
| CheckBatcher.Batcher.Receive | internal/scout/stores.go:668-680 | takes demands in order, 64 at most |
| CheckBatcher.Batcher.Close | internal/scout/stores.go:681-696 | drains what may still be taken, and is found no more |
| CheckBatcher.Join | internal/scout/stores.go:698-707 | the hashes of all demands, each once |
| CheckBatcher.AskAll | internal/scout/stores.go:713-764 | a hundred hashes to a request; a failed one adds nothing, and a body without data answers no for each |
| CheckBatcher.Tell | internal/scout/stores.go:728-738 | a demand's own answers, and ok only when none is missing |
| CheckBatcher.AnswerEach | internal/scout/stores.go:698-739 | every demand is replied to from one joined round |
| CheckBatcher.BatchingPreservesMeaning | internal/scout/stores.go:644-764 | a list is told of exactly its hashes that a working request covered, never a no for a failure; a yes is true, and so is a no out of a body with data; with ok and data it has what asking alone would have said |
| CheckBatcher.ToldTrulyExactly | internal/scout/stores.go:741-763 | a list can trust all it is told, whatever TorBox holds, if and only if all of it came out of bodies with data |
| CheckBatcher.NothingMissing | internal/scout/stores.go:698-764 | when every body has data every demand is told all that asking alone would tell |
| CheckBatcher.AnswersTheFirst | internal/scout/stores.go:668-696 | a closed batcher answers the first 64 it accepted, in order: all of them exactly when at most 64 were accepted |
| CheckBatcher.ActsExactly | internal/scout/stores.go:644-696 | in every run what each offer, receive and drain does, and never more than 64 waiting |
| StorePool.NoIsHeard | internal/scout/stores.go:572-612 | a store's no comes only out of a batch that worked |
| StorePool.NoesTrueExactly | internal/scout/stores.go:4343-4388 | all a store's noes can be trusted, whatever it holds, if and only if every working reply covers its batch |
| StorePool.ListsCoverExactly | internal/scout/stores.go:4361-4374 | at Premiumize that is: no list that came back is shorter than its batch |
| StorePool.HonestRoundsAreTruthful | internal/scout/stores.go:613-764 | at TorBox a store's word is as true as the bodies with data of the rounds its batches were joined into |
| StorePool.KnownNotCachedExactly | internal/scout/stores.go:4783-4859 | known and not cached holds exactly when there is a cache-truth store, every one said no, and no store said yes |
| StorePool.CachedExactly | internal/scout/stores.go:4783-4859 | a release is cached if and only if some store that can be asked confirmed it in the last minute or names it in a working reply; Real-Debrid never does |
| StorePool.CachedOnlyDropsOnlyDenied | internal/scout/rank.go:666-674 | a release the cached-only filter drops is one every cache-truth store was asked about in a working batch; none of them can hold it if and only if each one's reply denies it, as one that covers its batch always does |
| StorePool.DropsExactly | internal/scout/handler.go:1010-1053 | the ranking's cached-only filter, given what the pool learned, drops a release if and only if no other filter does, no cache-truth store is out, and it is known not to be cached |
| StorePool.FiltersExactly | internal/scout/handler.go:1044-1053 | the filter may run exactly when there is a cache-truth store and every one of them answered for something |
| StorePool.ShortListDropsHeld | internal/scout/stores.go:4368-4374 | a Premiumize list shorter than its batch drops a release it holds: a concrete reply |
| StorePool.NoDataDropsHeld | internal/scout/stores.go:741-763 | a TorBox body without data drops a release it holds: a concrete reply |
| StorePool.Pool.Count | internal/scout/stores.go:4836-4842 | one store's map adds its vote and its holders, hash by hash |
| StorePool.Pool.Merge | internal/scout/stores.go:4810-4858 | holders in configured order, what is known, and completeness |
| StorePool.Pool.CacheCheck | internal/scout/stores.go:4783-4859 | nothing to ask about is a complete answer; else the merge |
| StatusFanOut.StatusDetail | internal/scout/stores.go:5080-5122 | asks store by store within slices, with the early exit |
| StatusFanOut.EveryStoreAccountedFor | internal/scout/stores.go:5080-5122 | on a negative result every store said a definite no, or is in the retry list once and in order, also on an early exit |
| StatusFanOut.FindsTheFirst | internal/scout/stores.go:5080-5122 | a positive result names a store if and only if it is the first, of those asked in order, that is downloading |
| StatusFanOut.SlicesAreFair | internal/scout/stores.go:5098-5100 | while stores keep to their slices, every slice is at least an even share of the budget |
| StatusFanOut.Order | internal/scout/stores.go:4963-5004 | the loops build the specified order |
| StatusFanOut.OrderedIsPermutation | internal/scout/stores.go:4963-5004 | reordering drops no store and adds none |
| StatusFanOut.PreferredComeFirst | internal/scout/stores.go:4963-5004 | before a store of a preferred service come only stores of services the caller named no later |
| StatusFanOut.ServicesStayInOrder | internal/scout/stores.go:4963-5004 | within a service the configured order stands |
| StatusFanOut.TheRestStayInOrder | internal/scout/stores.go:4963-5004 | the stores nobody prefers come last, in the configured order |
| Scores.QualityScore | internal/scout/rank.go:242-326 | the score adds up as specified |
| Scores.Warned | internal/scout/rank.go:266-325 | the warnings' cost, one by one |
| Scores.QualityRange | internal/scout/rank.go:242-326 | quality runs from -4250, for sizes not negative, to 4890, and reaches both |
| Scores.RoundsToNearest | internal/scout/rank.go:302-308 | a size is rounded to the nearest point, a half away from zero |
| Scores.MoreLinesScoreHigher | internal/scout/rank.go:144-168 | alike in all else, more lines are worth more, but for a 4K under 700 MiB and a bare 4k over 3 GiB |
| Scores.BetterSoundScoresHigher | internal/scout/rank.go:283-300 | alike in all else, what is delivered as it is outranks what has to be bridged |
| Scores.WarningsScoreLower | internal/scout/rank.go:264-325 | alike in all else, more warnings are worth less |
| Scores.SizeCounts | internal/scout/rank.go:302-308 | six points a gibibyte up to 600, never less for a larger file |
| Scores.CostOf | internal/scout/client.go:85-171 | the cost adds up as specified |
| Scores.CostTiers | internal/scout/client.go:60-171 | a release that plays as it is costs at most 600, a transcoded one 6000 to 18,300, one that never plays 60,000, all reached, and the cost tells which |
| Scores.PlaysExactly | internal/scout/client.go:85-171 | exactly what plays in a browser, and what of it is transcoded, by codec, depth, level, range and tier |
| Scores.CostExactly | internal/scout/client.go:85-171 | exactly what a release costs, conversion by conversion |
| Scores.DecodingMoreCostsLess | internal/scout/client.go:85-171 | a browser that decodes more never pays more |
| Scores.RightShowFirst | internal/scout/rank.go:364-376 | with no browser's report every release naming the show and episode outranks every one naming another |
| Scores.JunkLast | internal/scout/rank.go:242-246 | a release that is not junk outranks all junk unless it both never plays and names another show |
| Scores.JunkLine | internal/scout/rank.go:364-376 | a release outranks all junk if and only if it plays, or names the show, or is worth more than 2,890; one at -94,250 that falls below |
| Scores.WrongShowLine | internal/scout/rank.go:370-376 | with a browser's report a release naming the show and episode outranks every one naming another if and only if its cost is under 8,240 or its worth makes up for it; one that does not |
| Scores.NeverPlaysLine | internal/scout/client.go:70-72 | a release that plays outranks every one that never does if and only if it names the show and episode or affords its cost; one that does not |
| Scores.CachedFirst | internal/scout/rank.go:242-250 | alike in show and resolution, a cached release with penalties under 3,210 outranks every one that is not |
| Scores.CachedBeatsPreference | internal/scout/rank.go:358-362 | even a cached 4K of the wrong resolution outranks a 1080p or less that has to be fetched |
| Scores.CachedConversionLine | internal/scout/client.go:66-71 | a cached release outranks every download if and only if its quality is above its cost less 3,110; the same release it does with a cost under 8,000 |
| Scores.PreferenceHolds | internal/scout/rank.go:346-362 | all else alike, the preferred resolution with penalties under 590 outranks every other known one |
| Scores.PlaysAsItIsFirst | internal/scout/client.go:62-78 | all else alike, a release that plays as it is with penalties under 610 outranks every transcoded one |
| Scores.BoundsAreTight | internal/scout/rank.go:346-362 | penalties go by fifties, and at 600, and 650, two releases stand the other way round |
| StreamRanking.RankStreams | internal/scout/rank.go:600-723 | filters in order with their drop counts, the stable sort, the cap |
| StreamRanking.ListIsTheBest | internal/scout/rank.go:692-708 | the list is the capped start of one total order and holds no release a filter drops; all the cap cuts off is worse |
| StreamRanking.DropsAndKeptAreTheInput | internal/scout/rank.go:600-723 | kept, cut and dropped, each under its first failing filter, are the input |
| StreamRanking.NoWrongShowBeforeTheRightOne | internal/scout/rank.go:685-700 | with no browser's report, no release whose name says another show or episode stands before one whose name says neither, in what is known of the names |
| StreamRanking.PreferredComesFirst | internal/scout/rank.go:679-684 | with no browser's report, alike in being cached and in show, no release known to be of another resolution stands before one of the preferred with penalties under 590 |
| StreamRanking.PlayableComesFirst | internal/scout/rank.go:676-678 | for a browser, all else alike, nothing it cannot play as it is stands before something it can with penalties under 610 |
| StreamRanking.TiesAreStable | internal/scout/rank.go:692-708 | alike in all that is scored, the better seeded first, else the one that came first |
| StreamRanking.KeptExactly | internal/scout/rank.go:600-675 | a release is among those ordered if and only if no filter asked for says no to something known of it |
| StreamRanking.CapKeepsTheBest | internal/scout/rank.go:210-234 | what the cap before the cache check cuts off is worse than everything it keeps |
| StreamRanking.CapBitesExactly | internal/scout/rank.go:210-234 | with no limit, or no more than it, every release is left where it was; else exactly so many are kept |
| EpisodePick.PickEpisodeFile | internal/scout/season.go:384-461 | the episode's pick, tier by tier |
| EpisodePick.FindLargest | internal/scout/season.go:478-486 | the first of the largest |
| EpisodePick.NamedEpisodeWins | internal/scout/stores.go:3722-3768 | if any playable file names the episode, all three stores play the same one, the largest that does, whatever position was given |
| EpisodePick.OnlyBareNumberWins | internal/scout/season.go:408-430 | with nothing that names the episode, a bare number that stands in one unlabelled file alone decides at every store, whatever the position |
| EpisodePick.PositionDecides | internal/scout/stores.go:3722-3768 | with nothing in the names to decide, a position in range does, each store reading it its own way; another passes through at TorBox only |
| EpisodePick.GuessIsLargest | internal/scout/season.go:488-545 | and without one every store plays the first of the largest of the files with the bare number, else of those that declare no episode, else of all |
| EpisodePick.OnlyFilePlays | internal/scout/season.go:455-461 | the only file that could be played, and that no pack speaks against, is played |
| EpisodePick.FilmPlays | internal/scout/stores.go:3722-3768 | what each store plays of a film, with and without a position: at TorBox a position counts only for a video of half the largest's size |
| EpisodePick.RefusesExactly | internal/scout/season.go:384-461 | refusal holds exactly for no match, no unique bare match, and a labelled strict majority of two or more, at every store |
| EpisodePick.NeverAnotherEpisode | internal/scout/season.go:520-545 | with no match and no position, no store plays a file labelled as another episode while an unlabelled one exists |
| EpisodePick.FallsBackToVideo | internal/scout/season.go:558-566 | with no position given no store plays a file that is not a video while the torrent has one |
| EpisodePick.RangeHoldsEpisode | internal/scout/season.go:239-287 | holds exactly when some label covers the episode |
| EpisodePick.LabelHolds | internal/scout/season.go:241-285 | one label: two numbers are a range, three or more a list, mixed widths nothing |
| Freshness.TicketsOutliveLists | internal/scout/handler.go:254-273 | for settings in whole seconds and no more than a list lifetime between minting and building: tickets outlive every use of a complete list if and only if they live three list lifetimes and the seconds begun in between; of a partial one, if and only if longer than three of its lifetimes and the seconds begun until it was cached |
| Freshness.CompleteExactly | internal/scout/handler.go:254-273 | for any lifetimes, tickets outlive a complete list if and only if its last fresh and last stale_list uses come before the second sealed in them |
| Freshness.PartialExactly | internal/scout/handler.go:429-441 | and a partial list if and only if its last use does |
| Freshness.ThreeLifetimesAndTheGap | internal/scout/ticket.go:31-38 | for any lifetimes, three list lifetimes, the time from minting to caching and a second are enough |
| Freshness.DeadOnAGap | internal/scout/deps.go:266-271 | tickets of three list lifetimes, and of a second more, dead at a use the header allows: a concrete list |
| Freshness.DeadOnAFraction | internal/scout/ticket.go:72-130 | the expiry sealed in whole seconds, dead half a second before such a use: a concrete list |
| Freshness.DeadOnATick | internal/scout/ticket.go:72-130 | a partial list used when its tickets of three minutes and a second are dead, because a second began between minting and caching: a concrete list |
| Freshness.OutageLeavesRoomToWatch | internal/scout/handler.go:269-273 | a stale_list served under the outage term leaves six hours and two list lifetimes, less what passed since minting, and a second if lifetimes are not whole ones |
| Freshness.ThreeLifetimesAreNeeded | internal/scout/handler.go:261-267 | a ticket of under three list lifetimes is dead at a use the header allows |
| Freshness.HoldCoversEveryUse | internal/scout/handler.go:1215-1225 | the cache keeps an entry for as long as it may be served |
| Freshness.AnswersExactly | internal/scout/handler.go:707-745 | what a request that finds a cached list is answered, for every instant, list and outage |
| Freshness.ShortIsNeverLonger | internal/scout/handler.go:429-441 | a partial or stale list is never kept longer than a complete one |
| Freshness.SplitInvertsJoin | internal/scout/handler.go:2339-2375 | what is framed is read back, whatever the body holds |
| Freshness.CompleteOnlyIfSaid | internal/scout/handler.go:2339-2364 | an entry cut short or of an older format is never taken for complete |

## Left out

- AddProtocol.LicensedReadd: resolves of one account run one at a time, because the source checks a marker and then sets it without holding a lock, so racing polls are outside the claim; and the cache is ideal, with no eviction, so a memory lasts its whole life.
- AddProtocol.GivesUp: an unanswered request is taken to last at most the attempt marker's ninety seconds; a resolve has 45.
- AddProtocol: putting an entry for one nanosecond, which is how the source erases it, removes it at once; the clock is read once for each burst of cache reads and writes; the thirty-second status snapshots and the add_only_if_cached flag, which change no marker, are not modelled.
- TorBox.Store.Resolve: what TorBox answers arrives already classified; requests, responses and their JSON are not part of this model.
- RealDebrid.LicensedReaddPerFile: per file, because Real-Debrid's ids are remembered per file; another file of the same release may be added at once.
- RealDebrid.Store.ResolveExisting: the chain of info, selectFiles and unrestrict calls is one classified answer.
- HostLimiter.WindowsAreBounded: a wait abandoned ahead of another widens every later window's bound by one, though it need not be used up.
- HostLimiter.PassesAreBounded: tokens are real numbers; the rounding of a delay to nanoseconds and of floating point is not modelled, and a bucket forgotten at the key limit starts over.
- MemoryCache.HitsAreTheLastPut: operations are atomic, as the source's lock makes them.
- TieredCache.NoResurrection: one operation at a time; temporary files, directory entries that are not the cache's, and files changed by others are not modelled, and distinct keys have distinct file names.
- RebuildLeases.SecondGrantWaits: generations are unbounded, where the source's have 64 bits.
- Ebml.ChildrenReadBack: the track facts inside an entry (type, language, codec) are library tables and string handling, and are left out.
- IsoBoxes: the MP4 boxes' own contents (handler kinds, sample entries, bit depths) are left out.
- AviWalk.Parser.Note: the table from a four-byte label to a codec is a parameter.
- Listing.Decoder.DecodeListing: a number or text is one token, and a token the JSON decoder would refuse where it stands ends the body, or is refused; keys are matched exactly, where the decoder folds case in an entry's fields, and its own limit on depth is not modelled; lower-casing is a parameter.
- Listing: the memo of listings (how many, and for how long) is left out; it would add only simple members.
- CheckBatcher.BatchingPreservesMeaning: hashes are in lower case, as a batch folds them; what TorBox holds does not change while one batch is asked about; the order of the joined hashes, singleflight and timers are not modelled.
- StorePool.CachedOnlyDropsOnlyDenied: a confirmation up to a minute old counts as a yes; each hash is asked about once, as seeds are merged by hash (internal/scout/scrape.go:690-712).
- StatusFanOut.StatusDetail: a store's answer and how long it takes are given; contexts are clock readings.
- Scores.QualityRange: patterns are booleans of a title, any combination of which may occur; a size is rounded exactly, where the source rounds a floating-point quotient.
- StreamRanking.RankStreams: whether a title matches a filter's pattern, year or words is given; the library's stable sort is insertion into the same order.
- EpisodePick.PickEpisodeFile: what the patterns make of a name is given.
- Freshness.TicketsOutliveLists: a list is cached before its freshness ends; where more than a list lifetime passes between minting and building, Freshness.CompleteExactly has the condition; the answer of the build itself, written at once, is covered as an answer from the cache is.
- Freshness.SplitInvertsJoin: a stamp that is not plain digits, which is never written, reads as none.
- Premiumize's resolves: their one call is both read and purchase, and its accounting is not claimed.
- Sealing, tickets' encryption, hashing, key derivation: library cryptography.
- Routes, manifests, settings, validation, metrics and logging: no hard property.
- Cinemeta, source URLs, the availability gate, minted configurations, upstream pauses: they would only add easy members.
