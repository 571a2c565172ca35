# Barrel, modelled and proved in Dafny

Barrel gives Docker containers fixed IP addresses. Hosts share one etcd store and one Calico address
manager; a record in the store says who borrows a fixed IP and whether it is in use, and the only
synchronisation between hosts is a compare-and-swap on the version of a key together with Calico's
refusal to assign an address twice. On each host a directory of owner files, tenant files, mounted
network namespaces and symlinks says which container uses which network endpoint. This project models
these two protocols, and five smaller algorithms of the program, and proves what they keep.

**Fixed IPs over etcd.** `Etcd` holds the store and its calls on versioned keys, `Codecs` the keys,
`FixedIPOps` the seven operations as one automaton whose steps are single store or Calico calls.
`FixedIPAllocator` and `Helper` are the program's objects: their methods are proved to end exactly where
the automaton ends, whatever other clients write before each call and whichever calls fail. `Protocol`
runs any number of clients of that automaton against one world, in every interleaving, and `Refinement`
joins the two levels: a finished operation of such a run is what the method does alone under the
interference the others made. `Ownership`, `History`, `Incarnations`, `Guarantees`, `RetireLock`, `Retry`
and `ABA` are theorems about the runs. `Stories` tells, for each operation, which calls and answers lead to
which report, and `Reports` proves of every run what success and each error mean. `Alone` says what every
operation does and reports when nobody interferes, and `HelperGuarantees` what the container side keeps.

**CNI endpoints.** `Endpoints` is the directory and the store over it, `EndpointHandlers` the create,
start, delete and remove handlers with their rollbacks, `EndpointInvariant` what every run of them keeps,
`EndpointReports` what each reports and what a borrower of an endpoint can rely on.

**Algorithms.** `PutMulti` (a batch write in concurrent transactions), `Pollers` (matching endpoint
notifications), `InitUnits` (memoised dependency initialisation), `Starter` (running services until the
first error), `Minify` (dropping paths that extend another path).

Some properties one would expect do not hold of the code. For each the project has a failing input and
the exact condition:

- The version of a key restarts when the key is deleted, so a compare-and-swap can succeed against a
  later record than the one it read. It replaces the record it read, and so loses nothing, exactly if nobody
  has deleted the key since its Get (`Guarantees.SwapReplacesWhatWasRead`). `ABA.LostUpdate` is a run in which
  a committed borrower is erased, `ABA.TwoAssigns` one in which two clients assign one record. What is said of
  several updates of a record - the fold, exclusion, borrowers, the lock - asks only of the updates it
  speaks of that none had a Delete of the key in its window (`Incarnations.UndisturbedIn`), which is exactly when
  each had read the record it replaced (`Incarnations.CleanIffUndisturbed`).
- An Unalloc goes on to delete when its lock update is answered with an error, and may then delete a
  record that somebody else holds: `ABA.DeletesAHeldRecord`, a run without a failed call. A Delete finds the
  record its caller locked exactly if the lock update committed and nobody has deleted the key since
  (`RetireLock.LockLivesIff`); when no lock update is answered with an error it always does
  (`RetireLock.DeleteTakesItsLock`).
- A compare-and-swap can report an error after writing: exactly that of version 0 against an absent key
  (`Etcd.SwapErrsAfterWriting`, `Etcd.FreshSwapWritesAndErrs`).
- Two different IPs can share a key: exactly the pooled IPs whose address holds `addresses/` and more
  after a slash share it with an IP of a shorter address (`Codecs.SharesKeyIffAmbiguous`,
  `Codecs.AmbiguousAddressCollides`).
- Two containers can share a key when a host name holds a slash (`Codecs.HostWithSlashCollides`); without one
  they cannot (`Codecs.ContainerKeyInjective`).
- A failed endpoint creation can remove files it did not make: `EndpointInvariant.CreateAllOrNothing` and, for a
  reachable directory, `EndpointInvariant.StartUndoesTooMuch`.
- An endpoint can be left without any reference: exactly by a handler that drops the last one and cannot
  take the lock (`EndpointInvariant.HandleKeeps`, `RemoveWithoutLock`, `DeleteWithoutLock`, and
  `RemoveLeavesDangling` for a run).
- Deleting a container with a fixed IP crashes exactly if it has no link
  (`EndpointInvariant.CrashesIffUnlinked`), which cannot happen between its start and its remove.
- What a polling round leaves can depend on the order in which maps are iterated: exactly if a container
  whose pool lookup fails has both an addition and a removal pending (`Pollers.OrderDoesNotMatterIff`,
  `Pollers.ClashDependsOnOrder`).
- With no service at all, start hangs after a signal (`Starter.NoServicesHang`); with one or more it never
  does (`Starter.NeverStuck`).

## Model

| member | source | states |
|---|---|---|
| Codecs.IPKeyInjective | vessel/codecs/codecs.go:17-25 | two IPs with non-blank, unambiguous addresses have the same store key only if pool and address are the same, for any pool ids, so no pool key shadows another |
| Codecs.SharesKeyIffAmbiguous | vessel/codecs/codecs.go:17-25 | exactly the ambiguous IPs (pooled, with a separator and more inside a slash and the address) share their key with an IP of a shorter address |
| Codecs.SlashFreeUnambiguous | vessel/codecs/codecs.go:24 | an address without a slash is never ambiguous |
| Codecs.AmbiguousAddressCollides | vessel/codecs/codecs.go:17-25 | two different IPs, one of them ambiguous, with one key |
| Codecs.KindsDisjoint | vessel/codecs/codecs.go:17-59 | an IP record and a container record never share a key |
| Codecs.ContainerKeyInjective | vessel/codecs/codecs.go:54-59 | two containers with the same non-blank key are one container, whatever their ids, as long as the host names hold no slash |
| Codecs.HostWithSlashCollides | vessel/codecs/codecs.go:54-59 | with a slash in a host name two containers share a key |
| Codecs.KeyTexts | vessel/codecs/codecs.go:17-59 | the texts of the three kinds of key, and the blank keys of records without an address, id or host |
| Etcd.EtcdStore.Get | store/etcd/etcd.go:35-50 | the codec takes the record and version found after the others' writes, or is left alone with the error of an absent key or failed call |
| Etcd.EtcdStore.Put | store/etcd/etcd.go:61-83 | writes the record at the next version; the codec's version becomes the key's new version if the key existed and 0, not 1, if it did not; a blank key changes nothing |
| Etcd.EtcdStore.Delete | store/etcd/etcd.go:87-103 | removes exactly that key, or reports a blank or absent key |
| Etcd.EtcdStore.GetAndDelete | store/etcd/etcd.go:107-124 | removes exactly that key and hands back the record removed |
| Etcd.EtcdStore.UpdateElseGet | store/etcd/etcd.go:127-177 | writes only if the key has the codec's version, else loads the current record and version; at version 0 on an absent key writes and still reports that the key does not exist |
| Etcd.SwapErrsAfterWriting | store/etcd/etcd.go:155-162 | a compare-and-swap changes the store and still reports an error exactly if it is of version 0 against an absent, non-blank key |
| Etcd.FreshSwapWritesAndErrs | store/etcd/etcd.go:155-162 | and so does the first update of a codec that was never put |
| FixedIPOps.Without | vessel/fixedippool.go:170-176 | a returned container is no longer on the list and nobody else is taken off |
| FixedIPOps.AdvanceWellFormed | vessel/fixedippool.go:56-365 | whatever a store or Calico call answers, the operation goes on in a state its code can be in: only Unalloc deletes, only the two Allocs put, and each on its own IP |
| FixedIPOps.AdvanceProgresses | vessel/fixedippool.go:132-184 | every answer brings an operation nearer to its end, so all operations, the retry loops included, terminate under any interference |
| FixedIPOps.WithoutKeepsOthers | vessel/fixedippool.go:170-176 | the other borrowers stay on the list, each as often as before |
| FixedIPAllocator.CalicoIPAllocator.AllocIP | vessel/calicoippool.go:67-85 | succeeds exactly if the call does not fail and nobody has the address, and then it is taken |
| FixedIPAllocator.CalicoIPAllocator.AllocIPFromPool | vessel/calicoippool.go:88-165 | hands out only an address of that pool that was free, or fails without effect |
| FixedIPAllocator.CalicoIPAllocator.AllocIPFromPools | vessel/calicoippool.go:168-189 | asks the pools in order, others acting between the calls, and stops at the first that hands out an address; an error only if none does |
| FixedIPAllocator.TryPoolsHandsOut | vessel/calicoippool.go:180-188 | what is handed out is from one of the given pools, and taken |
| FixedIPAllocator.CalicoIPAllocator.UnallocIP | vessel/calicoippool.go:218-228 | frees the address; freeing a free one is a no-op |
| FixedIPAllocator.FixedIPAllocator.GetFixedIP | vessel/fixedippool.go:257-284 | reads the record, creates it only when it is absent and creation was asked for, and turns absence into the not-allocated error otherwise |
| FixedIPAllocator.FixedIPAllocator.CreateFixedIP | vessel/fixedippool.go:354-365 | the two calls AllocIP and Put end where the automaton's allocation ends |
| FixedIPAllocator.FixedIPAllocator.AssignFixedIP | vessel/fixedippool.go:57-85 | refines the Assign automaton under every interference: same store, same Calico state, same error; what it reports and when is Reports.AssignReports and Alone.QuietAssign |
| FixedIPAllocator.FixedIPAllocator.UnassignFixedIP | vessel/fixedippool.go:88-123 | refines the Unassign automaton under every interference |
| FixedIPAllocator.FixedIPAllocator.BorrowFixedIP | vessel/fixedippool.go:126-152 | the retry loop refines the Borrow automaton under every interference |
| FixedIPAllocator.FixedIPAllocator.Others | vessel/fixedippool.go:170-176 | the filtering loop computes the list without the container |
| FixedIPAllocator.FixedIPAllocator.ReturnFixedIP | vessel/fixedippool.go:155-185 | the retry loop refines the Return automaton under every interference |
| FixedIPAllocator.FixedIPAllocator.UnallocFixedIP | vessel/fixedippool.go:188-251 | lock, delete and free refine the Unalloc automaton, including going on to Delete when the lock update returns an error |
| FixedIPAllocator.FixedIPAllocator.AllocFixedIP | vessel/fixedippool.go:307-329 | refines the Alloc automaton under every interference |
| FixedIPAllocator.FixedIPAllocator.AllocFixedIPFromPools | vessel/fixedippool.go:332-352 | refines its automaton, including giving the address back when the Put fails |
| Ownership.SameKeySameIP | vessel/codecs/codecs.go:17-25 | a valid record found under an IP's key is that IP's record |
| Ownership.PutKeepsOwned | vessel/fixedippool.go:341-365 | the Put that creates a record hands the address from the client to the record |
| Ownership.DeleteKeepsOwned | vessel/fixedippool.go:237-242 | the Delete hands the address from the record to the client, or changes nothing |
| Ownership.SwapKeepsOwned | vessel/fixedippool.go:76-119 | no update, won or lost, creates a record or changes whose record it is |
| Ownership.CalicoKeepsOwned | vessel/fixedippool.go:245-248 | what a client gets from Calico was nobody's, and only the caller's own address is freed |
| Ownership.RunKeepsOwned | vessel/fixedippool.go:56-365 | the ownership invariant holds in every reachable state, for any number of clients and every interleaving |
| Ownership.AtMostOneOwner | vessel/fixedippool.go:188-365 | in every reachable state the records for an address, under any pool, plus the clients between AllocIP and Put or between Delete and UnallocIP are at most one, and then the address is allocated in Calico |
| Ownership.PutsOnlyCreate | vessel/fixedippool.go:332-365 | in every run the creating Put never overwrites a record and no pool has a record of its address |
| Ownership.FreesOnlyOwn | vessel/fixedippool.go:244-248 | in every run UnallocIP is only called by the sole owner of an address that no record has |
| History.RunKeepsTraced | store/etcd/etcd.go:127-177 | in every run a version of a live incarnation names one record, whoever committed to it, every client's snapshot is the record at its version, and every commit passed its guard on what it had read |
| Incarnations.RunKeepsTracked | store/etcd/etcd.go:127-177 | in every run each client's snapshot and lock, and each committed update, are tied to the Deletes of their key in the history of writes |
| Incarnations.FacesWhatItRead | store/etcd/etcd.go:141-143 | between its Get and its last store call an operation faces the incarnation it read iff nobody has deleted the key since the Get |
| Incarnations.CleanIffUndisturbed | store/etcd/etcd.go:141-143 | committed updates had read the incarnation they were written to iff none had a Delete of the key between its Get and its swap |
| Guarantees.RecordIsFold | store/etcd/etcd.go:127-177 | in every run a record's version counts the updates committed to its incarnation, and from any point after which none is disturbed the record is the fold of those since, in version order |
| Guarantees.SwapReplacesWhatWasRead | vessel/fixedippool.go:257-284 | in every run a successful update replaces the incarnation it read iff nobody has deleted the key since its Get; and then it replaces exactly the record its caller read, by the caller's change of it at the next version, so no committed update is lost |
| Guarantees.AssignsExclude | vessel/fixedippool.go:57-123 | between any two committed updates that put a record in use, Assign or lock, there is a committed Unassign, if the second and those between are undisturbed |
| Guarantees.BorrowFoldMembers | vessel/fixedippool.go:126-185 | in the list that appending and removing make of a first list, a container is a member iff its last Borrow or Return was a Borrow, or it was on the first list and there was none |
| Guarantees.BorrowersFaithful | vessel/fixedippool.go:126-185 | in every run, from any point after which no update is disturbed (birth, with no borrower, is one if none is), the borrowers are exactly what the committed Borrows and Returns make of those then; Assign, Unassign and lock never change them |
| Guarantees.LockIsFinal | vessel/fixedippool.go:214-242 | if only the holder of an assignment unassigns, then after a retire lock no Assign, Unassign or second lock commits to that incarnation while the lock and what follows are undisturbed; the record stays in use and retired while it exists; at the lock it was not in use and, unless forced, had no borrower |
| RetireLock.LockLivesIff | vessel/fixedippool.go:229-242 | in every run the record an Unalloc is about to delete is the one it locked iff its lock update committed and nobody has deleted the key since |
| RetireLock.OneLocker | vessel/fixedippool.go:218-235 | two clients never hold live locks on one record |
| RetireLock.DeleteTakesItsLock | vessel/fixedippool.go:229-242 | if only holders unassign, no lock of the IP nor update after one is disturbed and no lock update is answered with an error, a client about to delete is the only one, the record is the one its lock committed to, in use and retired, with only Borrows and Returns since, and its Delete removes exactly that record |
| RetireLock.BorrowersSinceLock | vessel/fixedippool.go:223-242 | an unforced Delete takes with it exactly the borrowers whose last Borrow or Return after the lock was a Borrow |
| ABA.LostUpdate | store/etcd/etcd.go:141-143 | a concrete run: an update with a Delete in its window succeeds against a later record with the same version, erases its borrower and brings back an old one |
| ABA.TwoAssigns | vessel/fixedippool.go:68-84 | a concrete run without a failed call: two Assigns of two clients commit to one record with no Unassign between them, and both report success |
| ABA.DeletesAHeldRecord | vessel/fixedippool.go:229-249 | a concrete run without a failed call: an Unalloc whose lock update found no record deletes the record another client has since created and assigned, frees its address and reports success |
| Retry.LossWitnessed | store/etcd/etcd.go:167-176 | an update is lost only if another client wrote the key after the caller's Get |
| Retry.GivingUpIsForced | vessel/fixedippool.go:132-184 | in every run only a Borrow or Return ends with ErrMaxRetryCountExceeded, and only if other clients wrote its key in each of three successive windows between its Get and its update |
| Refinement.OthersAreInterference | store/etcd/etcd.go:127-177 | what others did before our next call is indistinguishable from interference met by that call |
| Refinement.WritesAreOthers | store/etcd/etcd.go:127-177 | the writes in the interference a run makes for a client are exactly those of the other events, all of them and in the order of the run |
| Refinement.CalicoMovesAreOthers | vessel/calicoippool.go:67-228 | each address freed or claimed in it was freed or claimed by an event that is not the client's |
| Refinement.FinishedOperationPerforms | vessel/fixedippool.go:56-365 | an operation begun and finished in a run of any number of clients has the outcome, and leaves the store and Calico, as the operation alone does under the interference that the other events make, which is a function of the run |
| Stories.StepTold | vessel/fixedippool.go:56-365 | after every answer the calls so far are those its operation's table lists, with the record each update writes spelt out, and a finished operation reports what its table says |
| Reports.FinishedTells | vessel/fixedippool.go:56-365 | in every run a finished operation's report follows from its own calls and answers; its swap has won iff its update stands in the history of its record, and what it put or deleted is in the log of writes |
| Reports.AssignReports | vessel/fixedippool.go:57-85 | in every run an Assign reports success iff its own update was committed, and ErrIPInUse iff the record it read was in use or its update lost |
| Reports.UnassignReports | vessel/fixedippool.go:88-123 | success iff its update was committed or the record was not in use, ErrIPInUse iff its update lost |
| Reports.RetryReports | vessel/fixedippool.go:126-185 | a Borrow reports success iff its update was committed, a Return also if nobody was left to return for; both give up with ErrMaxRetryCountExceeded iff three updates lost |
| Reports.AllocReports | vessel/fixedippool.go:307-365 | success iff it read a record not in use or its own Put created the record, ErrIPInUse iff it read one in use |
| Reports.AllocFromPoolsReports | vessel/fixedippool.go:332-352 | success iff its Put created a record, and then it reports the very IP recorded, which one of its pools offered; an IP that could not be recorded is given back and reported beside the error; no IP iff every pool refused in order |
| Reports.UnallocReports | vessel/fixedippool.go:188-251 | success iff its own Delete was committed and the address freed after it; ErrIPInUse iff it read a record in use or lost its lock, ErrFixedIPHasBorrower iff it was not forced and read borrowers |
| Reports.AssignersExclude | vessel/fixedippool.go:57-123 | two callers both told they have assigned one IP, in one life of its record: an Unassign was committed between their updates, if the later and those between are undisturbed |
| Alone.QuietAssign | vessel/fixedippool.go:57-85 | with nobody interfering a record in use is left and ErrIPInUse reported, any other is marked in use and success reported |
| Alone.QuietUnassign | vessel/fixedippool.go:88-123 | with nobody interfering exactly the in-use mark is taken off; one not in use is left and is no error |
| Alone.QuietBorrow | vessel/fixedippool.go:126-152 | with nobody interfering the container becomes the last borrower at the first attempt, or the IP has no record |
| Alone.QuietReturn | vessel/fixedippool.go:155-185 | with nobody interfering the list is left without the container at the first attempt, or nobody was on it and nothing is written |
| Alone.QuietUnalloc | vessel/fixedippool.go:188-251 | with nobody interfering the record is deleted and its address freed, unless it is in use or, not forced, borrowed: then nothing changes and that is the error |
| Alone.UnlockedUnalloc | vessel/fixedippool.go:229-248 | an Unalloc whose lock update fails comes to the same end |
| Alone.QuietAlloc | vessel/fixedippool.go:307-365 | an IP with a record is only looked at; another gets its address claimed and a blank record, or the error of a claimed address |
| Alone.QuietAllocFromPools | vessel/fixedippool.go:332-352 | the IP the first offering pool gives is recorded and reported, or given back and reported with the error |
| Helper.TrySwap | vessel/helper.go:62-64 | a missed update of the container record means somebody wrote it in between, and uses up one round of interference |
| Helper.TryDetach | vessel/helper.go:40-65 | one round of the loop, with the reasons to stop; a missed round is witnessed by a foreign write |
| Helper.Helper.DetachOnce | vessel/helper.go:41-64 | the loop body on the program's objects does what one round does, and on success releases exactly the addresses within the pools |
| Helper.Split | vessel/helper.go:54-60 | the loop splits the addresses by pool, order kept |
| Helper.Helper.ReleaseContainerAddressesByIPPools | vessel/helper.go:28-72 | the whole loop terminates and then tries to free, unforced and without returning, exactly the released addresses of the record its winning update replaced; what that does is HelperGuarantees.ReleaseByPools |
| Helper.Helper.InitContainerInfoRecord | vessel/helper.go:140-148 | borrows every IP, ignoring failures, and puts the container's record under the container's own key |
| Helper.Helper.ReleaseContainerAddresses | vessel/helper.go:75-101 | deletes the container's record and returns and frees every address that record held; an absent record is no error |
| HelperGuarantees.VersionNamesValue | store/etcd/etcd.go:141-143 | unless the key is deleted its version only grows, and an unchanged version means an unchanged record |
| HelperGuarantees.DetachReplacesWhatItRead | vessel/helper.go:40-65 | under every interference each retry is caused by a foreign write of the key, and the winning update replaces the very record it read (if nobody deleted it in between) by the same record without the pools' addresses |
| HelperGuarantees.MisfiledRecordsLoop | vessel/helper.go:40-65 | two records that sit under each other's keys send the loop round for ever with nobody interfering |
| HelperGuarantees.CallsKeepFiled | store/etcd/etcd.go:61-177 | no store call produces such a record: every write goes under the key of the record written |
| HelperGuarantees.SplitByPools | vessel/helper.go:54-61 | written addresses and releases merge back into the record, order kept, nothing lost or duplicated, membership decided by the pool list |
| HelperGuarantees.SplitUnique | vessel/helper.go:54-61 | no other two lists do that |
| HelperGuarantees.DetachEnds | vessel/helper.go:40-65 | under every interference the loop ends without a commit only when a call fails, when the record is gone or lists no addresses (no error), or when it was deleted between a Get and its update |
| HelperGuarantees.QuietDetach | vessel/helper.go:40-65 | with nobody interfering a record with addresses is committed in the first round, without the pools' addresses; without a record or addresses nothing happens and it is no error |
| HelperGuarantees.FailedDetach | vessel/helper.go:43-64 | a failing Get or update ends the loop with its error, and nothing is written |
| HelperGuarantees.UnallocAllEffect | vessel/helper.go:66-70 | of the listed IPs exactly those not in use and without a borrower are deleted and freed, the loop going on past the others; every other record, its version and every other address stay |
| HelperGuarantees.ReleaseByPools | vessel/helper.go:28-72 | end to end on the program's objects: the record keeps exactly the addresses outside the pools, of those inside exactly the unused, unborrowed IPs are deleted and freed, and no other record of either kind changes |
| HelperGuarantees.BorrowAllEffect | vessel/helper.go:142-146 | every listed record that exists gains exactly the container as last borrower, past IPs that have none; no other key and no Calico address changes |
| HelperGuarantees.ReleaseAllEffect | vessel/helper.go:92-99 | every listed IP not in use and with no other borrower is deleted and freed, every other keeps its other borrowers; nothing else changes |
| HelperGuarantees.CreateThenRemove | vessel/helper.go:75-148 | create then remove: exactly the IPs not in use that nobody else borrows are deleted and freed, the other listed records are left with their borrowers minus the container, two versions on, and no other key or address changes |
| HelperGuarantees.RecordComesAndGoes | vessel/helper.go:140-148 | the container's record holds the given addresses after create and is gone after remove; the record of every other container stays as it is throughout |
| HelperGuarantees.CreateAndRemove | vessel/helper.go:75-148 | the same end to end on the program's objects, without an error |
| Endpoints.FSStore.GetNetEndpointByIP | cni/store/filesystem/filesystem.go:61-77 | found exactly if the netns file exists, failing if its owner file does not |
| Endpoints.FSStore.GetNetEndpointByID | cni/store/filesystem/filesystem.go:31-58 | follows the container's link; a link to a missing file is not found |
| Endpoints.FSStore.ConnectNetEndpoint | cni/store/filesystem/filesystem.go:80-85 | an existing link of the container stays as it is and is no error |
| Endpoints.FSStore.DisconnectNetEndpoint | cni/store/filesystem/filesystem.go:88-93 | removes at most the container's link and nothing else; succeeds iff it is gone |
| Endpoints.FSStore.CreateNetEndpoint | cni/store/filesystem/filesystem.go:96-132 | fails on an existing owner file, changing nothing; else owner and netns file are made |
| Endpoints.FSStore.DeleteNetEndpoint | cni/store/filesystem/filesystem.go:135-152 | removes all four files of the address and no link |
| Endpoints.FSStore.OccupyNetEndpoint | cni/store/filesystem/filesystem.go:155-162 | succeeds exactly if there is no tenant yet and the file can be made and written; a file that cannot be written stays behind empty |
| Endpoints.FSStore.FreeNetEndpoint | cni/store/filesystem/filesystem.go:165-177 | only the tenant itself frees the endpoint, and only if the file can be removed |
| Endpoints.FSStore.GetNetEndpointRefcount | cni/store/filesystem/filesystem.go:180-201 | the scan, in any order, returns the number of links to the endpoint plus one for a tenant |
| Endpoints.FSStore.GetFlock | cni/store/filesystem/lock.go:29-42 | taking a lock leaves its file behind and changes nothing else |
| Endpoints.TenantStays | cni/store/filesystem/filesystem.go:80-177 | over all sequences of store calls a tenant changes only by its own free or the endpoint's deletion |
| EndpointHandlers.ContainerMeta.Save | cni/types.go:70-72 | the bundle on disk names the endpoint last joined, or is left as it was |
| EndpointHandlers.Handlers.BorrowNetEndpoint | cni/subhandler/base.go:36-50 | occupies, and frees again if the container's bundle cannot be saved; on success the bundle joins the endpoint |
| EndpointHandlers.Handlers.CreateNetEndpoint | cni/subhandler/base.go:53-83 | the deferred undo steps, in reverse order, give the directory the rollback function describes |
| EndpointHandlers.Handlers.DeleteDanglingNetwork | cni/subhandler/base.go:86-106 | deletes the endpoint only under the lock and at reference count zero |
| EndpointHandlers.Handlers.RemoveContainerNetwork | cni/subhandler/base.go:109-124 | disconnects the container, then deletes the endpoint if nothing refers to it |
| EndpointHandlers.Handlers.CreateFixed | cni/subhandler/fixed.go:24-40 | refines the create handler for a fixed IP; a container that finds an endpoint by its id has its bundle saved to join that one |
| EndpointHandlers.Handlers.StartFixed | cni/subhandler/fixed.go:43-56 | refines the start handler for a fixed IP |
| EndpointHandlers.Handlers.DeleteFixed | cni/subhandler/fixed.go:59-66 | refines the delete handler, which crashes when there is no endpoint |
| EndpointHandlers.Handlers.CreateSpecific | cni/subhandler/fixed_specific.go:29-60 | refines the create handler of the two kinds with a specific IP; an existing endpoint of that IP is the one the saved bundle joins |
| EndpointHandlers.Handlers.StartFixedSpecific | cni/subhandler/fixed_specific.go:63-76 | refines the start handler for a fixed specific IP |
| EndpointHandlers.Handlers.DeleteSpecific | cni/subhandler/specific.go:62-78 | refines the delete handler for a specific IP |
| EndpointInvariant.RefcountPositive | cni/store/filesystem/filesystem.go:180-201 | the reference count is positive exactly if a link or a tenant refers to the address |
| EndpointInvariant.DeleteDanglingEffect | cni/subhandler/base.go:86-106 | under the lock the endpoint goes exactly if nothing refers to it, and no referenced endpoint is touched |
| EndpointInvariant.CreateKeeps | cni/subhandler/base.go:53-83 | a create, failed at any point or not, keeps the directory sound, removes no link, tenant or owner, and adds no endpoint without a tenant |
| EndpointInvariant.HandleKeeps | cni/subhandler/base.go:36-124 | a handler leaves an endpoint newly without references iff it drops the last one and cannot take the lock; whatever fails, nothing comes to refer to a missing endpoint |
| EndpointInvariant.RunKeeps | cni/subhandler/base.go:36-124 | every run of create, start, delete and remove handlers, with failures at any call and locks refused, keeps the directory sound, and leaves without references only endpoints some handler let go without the lock |
| EndpointInvariant.BoundaryUnlessAbandoned | cni/subhandler/base.go:53-124 | at every handler boundary of every run no link or tenant refers to a missing endpoint, and an endpoint exists for an address iff its reference count is positive, unless a handler of the run let it go without the lock |
| EndpointInvariant.EndpointIffReferenced | cni/subhandler/base.go:53-124 | in runs in which no lock is refused an endpoint exists for an address iff its reference count is positive, at every handler boundary |
| EndpointInvariant.FoundFromStartToRemove | cni/subhandler/fixed.go:43-66 | from a successful start until its own remove a fixed-IP container finds the same endpoint by its id, whatever all handlers do in between and whichever locks are refused; its delete cannot crash in that time |
| EndpointInvariant.CrashesIffUnlinked | cni/subhandler/fixed.go:59-66 | in every reachable directory the delete handler crashes iff the container has a fixed IP and no link |
| EndpointInvariant.CreateRollsBack | cni/subhandler/base.go:53-83 | in a sound directory, for a container without a link, a failed create changes at most the lock file |
| EndpointInvariant.CreateAllOrNothing | cni/subhandler/base.go:53-83 | on success owner, link and tenant name the container (the link exactly if it had no other before); a failure restores the directory if and only if it came before anything was made or found no leftover files, link or lock file |
| EndpointInvariant.StartUndoesTooMuch | cni/subhandler/fixed_specific.go:63-76 | in a directory a create has left, a start that fails to connect removes the lock file it did not make |
| EndpointInvariant.RemoveWithoutLock | cni/subhandler/base.go:109-124 | when the lock cannot be taken the invariant survives a remove iff the link stays or another reference is left |
| EndpointInvariant.DeleteWithoutLock | cni/subhandler/specific.go:62-78 | the same for freeing a specific IP |
| EndpointInvariant.RemoveLeavesDangling | cni/subhandler/base.go:109-124 | a run in which a refused lock leaves an endpoint nobody refers to |
| EndpointReports.CreateOnEndpoint | cni/subhandler/base.go:36-50 | creating a container on an existing endpoint succeeds iff it has no tenant and no call fails; then the container is its tenant and only the lock file may change besides; a failure leaves at most a tenant file that could not be written |
| EndpointReports.CreateHooks | cni/subhandler/fixed.go:31-36 | without an endpoint a create changes nothing but the lock file and fails iff the hook, the save or the lock does |
| EndpointReports.StartReports | cni/subhandler/fixed_specific.go:63-76 | for each kind, iff-conditions of a start's success and what it changes on an existing endpoint |
| EndpointReports.MakesIff | cni/subhandler/base.go:53-83 | an endpoint is created iff the address is known, has no endpoint and no call fails; then owner, tenant, namespace and link are new and nothing else |
| EndpointReports.DeleteReports | cni/subhandler/specific.go:62-78 | for each kind, when a delete succeeds: only the tenant frees, and a specific address's endpoint goes iff nobody is linked to it and the lock is taken |
| EndpointReports.RemoveReports | cni/subhandler/base.go:109-124 | a remove drops exactly the container's link, and the endpoint iff nobody else refers to it and the lock is taken; iff-condition of its success |
| EndpointReports.HandleKeepsTenant | cni/subhandler/base.go:36-124 | no handler but the container's own delete ends its tenancy of an endpoint or removes that endpoint |
| EndpointReports.BorrowedUntilDelete | cni/subhandler/base.go:36-50 | over every run, from a successful create on an existing endpoint until its own delete the container is the tenant and the endpoint is there with its owner; a delete of its specific address then succeeds if no call fails |
| EndpointReports.MadeUntilDelete | cni/subhandler/base.go:53-83 | the same from a start that made the endpoint |
| PutMulti.ChunksPartition | store/etcd/etcd.go:262-303 | transactions hold between 1 and 125 operations and laid end to end are the operations, each once and in order |
| PutMulti.InItsChunk | store/etcd/etcd.go:290-303 | operation j is in transaction j/125 and in no other |
| PutMulti.CommitLands | store/etcd/etcd.go:276-288 | a transaction writes each of its operations' values at the next version of its key |
| PutMulti.CommitFrame | store/etcd/etcd.go:276-288 | and touches no other key |
| PutMulti.RunTransactions | store/etcd/etcd.go:271-297 | for every order in which the transactions run and every interference each slot holds its own transaction's response or error, and a key nobody else touches is written exactly if its transaction committed |
| PutMulti.Merge | store/etcd/etcd.go:306-312 | the merged responses answer the operations in operation order |
| PutMulti.DoBatchOp | store/etcd/etcd.go:248-313 | no operations is an error and does nothing; otherwise it reports an error iff a transaction failed, and else merges all responses |
| PutMulti.BatchPut | store/etcd/etcd.go:215-246 | the same outcome for every order in which the map is iterated; the response answers every entry once, exactly if no transaction failed |
| PutMulti.PutMulti | store/etcd/etcd.go:199-213 | a blank key or an empty batch is refused before anything is written; otherwise every key nobody else touches gets the last value given for it, or, only if some transaction failed, may be left as it was |
| PutMulti.PutEachAt | store/etcd/etcd.go:61-83 | what putting the records one by one leaves under a key: the last value, one version per occurrence |
| PutMulti.SameValuesAsPuts | store/etcd/etcd.go:199-313 | without failed transactions the values are those of putting the records one by one in order; versions grow by one per key instead of one per record |
| PutMulti.PutMultiAlone | store/etcd/etcd.go:199-313 | alone on the store, the whole key-to-value store is the one the single puts leave |
| InitUnits.InitCorrect | ctr/utils.go:115-137 | an error is reported iff a cycle can be reached or an init function not run before, of the unit or of anything it requires, fails; a failing function is reported iff it was the last one called, and its unit is not inited; on success every direct or indirect requirement was inited strictly before its dependents |
| InitUnits.FailedReached | ctr/utils.go:129-136 | constructs the walk of requirements to the unit whose init function is reported to fail |
| InitUnits.CircularIsReal | ctr/utils.go:124-128 | constructs the walk that comes back to itself whenever ErrCircularDependencies is reported |
| InitUnits.RequirementsCameFirst | ctr/utils.go:129-136 | along any walk of requirements from an inited unit all units are inited, each strictly before the one requiring it |
| InitUnits.InitedIsAcyclic | ctr/utils.go:115-137 | from an inited unit no cycle can be reached |
| InitUnits.EachRunsOnce | ctr/utils.go:106-113 | one init call runs each init function at most once and none that was inited before; it succeeds iff no listed unit has a cycle or a failing init function ahead, and then all are inited |
| InitUnits.Registry.InitUnitOnPath | ctr/utils.go:115-137 | the recursion on the program's objects terminates on cyclic graphs too and ends where the specification ends, stopping at a failing init function |
| InitUnits.Registry.Init | ctr/utils.go:106-113 | the loop stops at the first error |
| Starter.StartReturnsFirstError | app/services.go:29-57 | in every interleaving at most one value is sent, the channel is closed at most once and never sent on afterwards; start returns the first error in the order the services took the lock, nil iff all were nil, after all have finished |
| Starter.NeverStuck | app/services.go:43-57 | for at least one service no reachable state is stuck once a signal or an error or the close has come, the unbuffered send under the mutex included |
| Starter.EveryRunEnds | app/services.go:29-57 | every run has at most 6n + 4 steps, and one that cannot go on after a signal or an error has returned |
| Starter.NoServicesHang | app/services.go:43-49 | with no services the channel is never closed and start waits for ever after a signal |
| Starter.DecideLast | utils/channel.go:93-97 | the send that brings the count to the limit is the last of all services, and all were nil |
| Starter.StartReportsServices | app/services.go:29-88 | in every interleaving start returns nil iff every service served and was disposed of without error, and otherwise both results, readable back from its error, of the first service in lock order in which anything went wrong |
| Pollers.BuildIndex | vessel/agent.go:316-344 | the index maps each network and endpoint to the last listed container that has it |
| Pollers.MatchEvent.MatchAddPoller | vessel/agent.go:391-414 | refines one addition match, including the error of a failed pool lookup |
| Pollers.MatchEvent.MatchRemovePoller | vessel/agent.go:370-389 | refines one removal match |
| Pollers.MatchEvent.MakeRemovePollResult | vessel/agent.go:470-488 | records a removal for the container the vessel store lists, keeping an earlier result |
| Pollers.MatchEvent.Match | vessel/agent.go:363-368 | refines the match of a poller of either kind |
| Pollers.PollerTable.NewPoller | vessel/agent.go:252-274 | files a poller, or lets a removal cancel a pending addition, and keeps the counter equal to the number of entries in all nested maps |
| Pollers.PollerTable.Size | vessel/agent.go:276-281 | the counter is the number of pending pollers |
| Pollers.PollerTable.MatchEntry | vessel/agent.go:291-303 | one entry goes if it matched or timed out, stays on an error, and no other entry changes |
| Pollers.PollerTable.MatchNetwork | vessel/agent.go:291-303 | the inner loop visits each entry of the network once, in any order, while deleting from it |
| Pollers.PollerTable.Match | vessel/agent.go:283-305 | the round is the specification's round over some order that lists every poller once, and keeps the counter right |
| Pollers.VisitAllSettled | vessel/agent.go:283-305 | without a clash which pollers stay and which containers get a result is decided poller by poller |
| Pollers.OrderDoesNotMatter | vessel/agent.go:283-305 | without a clash the remaining pollers and the containers with a result are the same for every iteration order, whatever was matched before |
| Pollers.OrderDoesNotMatterIff | vessel/agent.go:283-305 | in a round of a new match event they are the same for every order iff there is no clash |
| Pollers.NoFailuresNoClash | vessel/agent.go:407-411 | there is no clash if no pool lookup fails |
| Pollers.ResultsJustified | vessel/agent.go:363-414 | every result is due to a poller of the same kind, for that container's own endpoint, that the round removed |
| Pollers.ClashDependsOnOrder | vessel/agent.go:407-411 | a round with a failing lookup whose remaining pollers depend on the order |
| Minify.ExtensionsAreContiguous | resources/resources.go:49-58 | in the sorted order everything between a string and an extension of it extends it too |
| Minify.Minify | resources/resources.go:44-60 | the result is a sorted list of paths from the input, no element a prefix of another, and every path has a prefix in it; the argument is left a permutation of itself |
| Minify.KeptIffNoShorter | resources/resources.go:44-60 | a path is kept iff no other path in the list is a prefix of it |
| Minify.MinimalIsUnique | resources/resources.go:44-60 | the result is determined by the list |

## Left out

- Docker request handlers and HTTP proxying, byte forwarding, TLS, netlink and veth setup, the CLI and logging: input and output around the modelled logic.
- etcd and Calico themselves: they appear as contracts (linearizable calls per key with versions, exclusive assignment, idempotent release); a failed call has no effect.
- JSON: a record decodes to what was encoded, and encoding never fails; the fields ContainerID and Networks of records, which the modelled code never reads, are dropped.
- The status word is a set of flags, a nil and an empty borrower list are one value, and versions are unbounded.
- Two spellings of one address (Calico parses them) are two addresses here.
- ErrUnexpectedTxnResp and ErrCriticalError: answers etcd and the code itself never produce.
- Update, GetMulti and IPInfoMultiGetCodec: the first adds only a caller-defined loop over UpdateElseGet, the others do not decode.
- ReserveAddressForContainer: no handler calls it.
- The plain-IP path of the IPAM driver and the ctr commands call AllocIP and UnallocIP outside the ownership discipline, so the ownership theorems do not cover them.
- FixedIPAllocator.CalicoIPAllocator.AllocIPFromPool: how Calico picks an address in a pool is its own; any free one may be offered, or none.
- Helper.Helper.ReleaseContainerAddressesByIPPools: assumes that records and other clients' writes sit under the key they encode, as all writes of the program put them (HelperGuarantees.CallsKeepFiled) and without which the loop need not end (HelperGuarantees.MisfiledRecordsLoop), and that interference is finite.
- Ownership.AtMostOneOwner: the IPs that callers name and Calico offers are not blank and not ambiguous; two ambiguous ones can share a record.
- Guarantees.RecordIsFold: the value is the fold of the updates since the last disturbed one, not of those before it; a disturbed update does replace the record by a change of another (ABA.LostUpdate).
- Guarantees.AssignsExclude: needs the second of the two updates and those between undisturbed; ABA.TwoAssigns shows why.
- Guarantees.BorrowersFaithful: says nothing of what a disturbed update does to the list; ABA.LostUpdate shows it.
- Guarantees.LockIsFinal: needs the lock and the updates after it undisturbed; who deletes the locked record is the subject of RetireLock.
- HelperGuarantees.RecordComesAndGoes: host names hold no slash; with one two containers can share a key (Codecs.HostWithSlashCollides).
- HelperGuarantees.CreateThenRemove: the listed IPs have different keys; an IP listed twice is borrowed twice.
- HelperGuarantees.ReleaseByPools: with nobody interfering; under interference it is HelperGuarantees.DetachReplacesWhatItRead and DetachEnds.
- The store is typed by record kind; Codecs.KindsDisjoint is what makes that sound.
- EndpointInvariant.BoundaryUnlessAbandoned: each handler call is one atomic step, because the start handlers do not take the lock and finer interleavings do not keep the invariant; container ids and IP names are disjoint, a container keeps its kind and specific IP, and the namespace of a specific-IP container has that IP.
- Endpoints.FSStore.CreateNetEndpoint: mounting succeeds; a create that fails before it leaves nothing behind, as in the code, and the cleanup after a failed mount, which dereferences nil, is not modelled.
- Endpoints.FSStore.DeleteNetEndpoint: its four files can be removed, and so can those of the undo steps.
- The flock of an address is its file only; waiting for it is part of the atomic step.
- Handlers for containers without a fixed or specific IP: they only add hooks.
- PutMulti.DoBatchOp: conditions and else-branches of transactions, which no caller supplies, are left out.
- InitUnits.Registry.InitUnitOnPath: the registry is taken as complete, with each unit's requirements already resolved; registering (Declare, Require) is not modelled.
- Starter.StartReturnsFirstError: what services do, the dispose timeout and logging are reduced to each service's result and whether it returns before being cancelled.
- Pollers.PollerTable.Match: which pools and networks a result lists is not modelled, and whether a container's pool lookup fails is fixed for the round; the notifier and the serving loop are left out.
- Minify.Minify: paths are compared as strings, as in the code, not by path component; strings are ordered by character where the code orders bytes, and the removal of the paths is left out.
