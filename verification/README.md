# libxylem, verified core

libxylem loads shared objects as modules, places each in a region of a tree of 64-bit
prefixes, and dispatches hook calls to the modules of the caller's subtree. This project
models that in-memory core in Dafny and proves what it keeps: the region tree and its
prefix allocator, the module registry with recursive load, cascading unload and
position-preserving reload, the deny lists with their upward flags, the execution context,
and the three caches that make a call fast.

The operations are modelled twice. Class `Runtime` (Runtime.dfy) is the source's form: one
object whose fields the methods update, with the source's loops along parent chains, over
module lists, hook tables and collected children. Every method is proved to compute a state
function, and the properties are proved of those functions, for all states and all runs. The
intrusive module list (ModList.dfy), the growable symbol arrays (SymbolCache.dfy) and the
slot-probing loop (RegionIds.dfy) are modelled on real links, arrays and a wrapping counter.

A program (`Prog`) is any finite nesting of calls, region scopes, loads, unloads, reloads,
denies, claim gates and hook registrations; what each callback of a call does is part of the
program. `Exec` runs it, and records every call made at any depth.

## Main results

Two regions whose ids agree above the low four bits share the keys of the module table,
because the source cuts the last hex digit off. *Apart* below means that no two regions of
the tree do; all prefixes within 60 bits is enough (`RegionIds.ShallowApart`). The table is
modelled with these keys, and every operation does to it what the source does.

- A call that is not refused runs exactly what its filter leaves of a fresh depth-first walk
  of the caller's subtree, in that order, in every state of every run in which no image was
  shared by two live modules (`Runs.EveryCallFiltered`). The filter is the caller's own
  module denies as long as no proper ancestor ever held one (`Runs.EveryCallCoherent`,
  `Runs.EveryCallOnce`), and in general it gives the documented call iff it treats every
  listening module as the denies of all ancestors do (`Limits.CallDocumentedIff`). With no
  condition at all, what runs is live, linked in the caller's subtree and not banned by the
  caller's region (`Runs.EveryCallLive`).
- Unloading, in every state, removes exactly the least set closed under "loaded by a removed
  module, last reference, has a context, in the table" and takes one reference from exactly the
  other modules it reaches (`Unloading.UnloadEffect`, `DoomedLeast`, `DoomedClosed`), in whatever
  order the table is iterated. That is the documented cascade iff no module of it is missing
  from the table (`Unloading.UnloadDocumentedIff`).
- Every live module is in the table, under its own key, in every run whose regions stay Apart
  (`Runs.EveryRun`, `Limits.RegistryExact`). A claim keeps its module in the table iff parent
  and child differ above the low four bits (`Limits.RekeyKeepsIff`).
- Loading terminates on every finite, possibly cyclic dependency graph; without claims it is
  the depth-first visit of that graph (`LoadOrder.LoadIsVisit`, `LoadOrder.LoadReaches`).
- A failed load is a frame (`Undoing.FailedLoadIsFrame`). A load that reused nothing is undone
  by unloading it iff it lost no key and registered all it brought, as it does without claims
  and in Apart trees (`Undoing.UnloadUndoesLoad`, `Undoing.UnclaimedRoundTrip`).
- Over every run a live module's count is one plus the loads that found it less the unloads
  that reached it (`Ledger.EveryCount`).
- Reloading a module with one reference goes through and replaces it in place when its image is
  there, installs and need not claim (`Reloading.ReloadKeepsPosition`). The list position that
  a reload saves outlives its unload in every state (`Programs.PredecessorSurvives`).
- Every command restores region id, region pointer and loader (`Runs.Exec`). The two agree at
  every call as long as no image is shared and no reload links a module into a region that is
  not its own (`Runs.SyncedRun`); a reload keeps all modules in their own regions iff the module
  it finds lives in the old one's (`Reloading.ReloadInStepIff`), always in an Apart tree
  (`Runs.EveryRun`).
- The allocator is exact below full width, ids are prefixes of their descendants' ids, and
  the prefix test is ancestry when every region grants one width (`RegionIds.AllocExact`, `RegionIds.PrefixTestIsAncestry`).

## Where code and documentation differ

The model follows the code.

- docs/api.md:206 allows 2^b children of width b. Slot 0 is the parent's own id, so there are
  at most 2^b - 1 below full width (`RegionIds.ChildrenBound`), and there can be more at
  full width (`RegionIds.ChildrenExceedAt64`).
- The comments in src/libxylem.c:1213-1221 say that a grant that reaches 64 bits tries one slot. The loop
  bound is 0, so it goes on past the granted slots and can leave the parent's prefix
  (`RegionIds.AllocAt64Iff`, `RegionIds.AllocEscapesAt64`).
- The repository's README.md:287 and docs/api.md:70-71 say that a deny covers all descendants. Flags and
  generations only travel up, so a descendant with a clear flag, or with a current vector,
  does not see it (`Limits.DenyNotInherited`, `Limits.WarmVectorCallsBanned`); two programs
  end in such calls (`Witnesses.DenyUnheard`, `Witnesses.DenyOvertaken`). Exactly when the
  promise is kept is `Coherence.HookVerdictExactIff` for refusals and `Limits.CallDocumentedIff`
  for what any other call runs, warm or rebuilt. The header
  include/ttypt/xy.h:372-373 says a region's own deny never blocks it; it does.
- The key buffer is one byte too short, so the registry compares 15 of the 16 hex digits of a
  region id (`Keys.KeysEqualIff`, `Limits.DeepKeysCollide`). A claim publishes its module
  under the child's key and then deletes the parent's. When the two are the same bytes,
  which takes a child of more than 60 bits, the delete takes the module out of the table
  (`Limits.RekeyKeepsIff`): it stays live and linked, an unload of it finds nothing, a new
  hook's prewarming passes it over, and loading it again makes a second one. Requiring claims
  at the root and loading a module that claims 61 bits or more is such an input, giving
  regions 0 and 8, 4, 2 or 1 (`Witnesses.ClaimIsLostIff`). Unloading the module that loaded it
  leaves it behind (`Detours.CascadePassesOverIff`).
- tests/test_unload.c:92-94 says that a reload keeps the dispatch position. When two regions share their
  keys' digits, a reload in one finds the other's module, and the new module, which lives in
  the first, is linked into the other's list. Calls in its own region no longer reach it, and its
  callbacks run with one region's id and the other's record (`Detours.ReloadStraysIff`,
  `Reloading.ReloadStaysIff`).
- tests/test_unload.c:184-186 says that install runs before the module is appended. The
  append comes first, so a module precedes what it loads (`LoadOrder.LoadReaches`).
- An image has one context for all regions it is loaded in (`Limits.BindAgreesIff`), and unloading it
  empties other users' slots but not their bits (`Symbols.ForgetAgreesIff`).

## Files

| file | content |
|---|---|
| Wrappers, Bits, Lists | options; 64-bit words as naturals; sequences without repetition |
| Keys, RegionTree, RegionIds | registry keys; the tree, ancestry, subtree walks; prefixes and slots |
| ModList, Symbols, SymbolCache | intrusive list; symbol caches as values and as arrays |
| State, Loading, LoadStages, Unloading, Dispatch | the state and what each operation makes of it |
| Invariants, Steps, Coherence, Programs, Reloading, Runs | what every step and every run keeps |
| LoadGraph, LoadOrder, Undoing, Ledger | load order, undoing, counts |
| Limits, Witnesses, Detours | exact conditions, and concrete programs that fail them |
| Runtime | the operations as methods on mutable fields |

## Model

| member | source | states |
|---|---|---|
| Keys.KeyBytes | src/libxylem.c:384-398 | the bytes compared under a key are the path, a NUL, 15 hex digits and the terminator |
| Keys.KeysEqualIff | src/libxylem.c:384-398 | two keys compare equal iff the paths agree and the region ids agree above their low four bits |
| Keys.KeyIsBytes | src/libxylem.c:384-398 | the registry's key, the path and the region above its low four bits, is the same for two modules iff the stored bytes are |
| Keys.KeyInjective | src/libxylem.c:1140-1144 | over regions with at most 60 prefix bits, measured keys are injective in path and region |
| RegionTree.ChainFits | src/libxylem.c:219-236 | the ancestor chain has depth + 1 entries, at most 65, root first, and holds exactly the ancestors |
| RegionTree.DfsMember | src/libxylem.c:323-338 | the subtree walk meets exactly the modules linked in regions of the subtree |
| RegionTree.AddLeafIsTree | src/libxylem.c:1268-1283 | prepending a claimed child keeps a well-formed tree with depth <= plen <= 64 |
| RegionIds.RegionAllocSlot | src/libxylem.c:1204-1231 | the do-while probe with its wrapping 64-bit counter returns the first unused candidate of the slot range, or INVALID |
| RegionIds.AllocExact | src/libxylem.c:1204-1231 | below full width: INVALID iff every slot is taken; otherwise the lowest free slot, fresh, aligned, with the parent's prefix |
| RegionIds.AllocAt64Iff | src/libxylem.c:1213-1228 | at full width the granted id keeps the parent's prefix iff a granted slot was free |
| RegionIds.AllocEscapesAt64 | src/libxylem.c:1213-1228 | a concrete second one-bit claim under a 63-bit prefix leaves it |
| RegionIds.AllocFresh | src/libxylem.c:1223-1225 | a granted id is never an existing region's, at any width |
| RegionIds.ClaimPrefixed | src/libxylem.c:1260-1283 | every claim keeps all ids aligned and, below full width, prefixed by their parents |
| RegionIds.AncestorsArePrefixes | src/papi.h:35-43 | every ancestor's id is the ancestor-long prefix of its descendants' ids |
| RegionIds.PrefixTestIsAncestry | src/papi.h:39-40 | with uniform widths, the mask-and-compare test holds iff ancestor-or-self |
| RegionIds.ChildrenBound | src/libxylem.c:1220-1228 | below full width, no region has more than 2^b - 1 children of width b |
| RegionIds.ChildrenExceedAt64 | src/libxylem.c:1213-1228 | at full width it can: the allocator's own grants give a 63-bit region two one-bit children |
| RegionIds.ShallowApart | src/libxylem.c:384-398 | in every tree of granted ids whose prefixes are at most 60 bits long, no two regions share the digits of their keys |
| IntrusiveList.ModList.InsertAfter | src/libxylem.c:642-668 | the rewired links are a well-formed list of the old sequence with the entry behind `after`, or in front |
| IntrusiveList.ModList.Append | src/libxylem.c:670-674 | the entry becomes the last of the sequence |
| IntrusiveList.ModList.Detach | src/libxylem.c:620-640 | the list is well-formed and the old sequence without the entry, whose links are cleared |
| IntrusiveList.ModList.AbortUnlink | src/libxylem.c:760-775 | the same, clearing the entry's region pointer instead |
| IntrusiveList.ModList.Walk | src/libxylem.c:326-329 | the forward walk meets exactly the abstract sequence |
| IntrusiveList.OneRegion | src/papi.h:86-87 | an entry is in at most one region's list |
| IntrusiveList.RegionInsertAfter | src/libxylem.c:642-668 | with many lists: an entry that no list holds goes into one, all stay well-formed, the others as they were |
| IntrusiveList.RegionAppend | src/libxylem.c:670-674 | the same at the tail |
| IntrusiveList.RegionDetach | src/libxylem.c:620-640 | the region pointer of a linked entry finds its list; all lists stay well-formed, the others as they were, and no list holds the entry |
| IntrusiveList.RegionAbort | src/libxylem.c:760-775 | the same for the unlinking of an aborted load |
| Symbols.ResolveSound | src/libxylem-dispatch.c:45-63 | a lazy resolve keeps every slot empty or what dlsym says, bits and slots agreeing, and decides the asked hook |
| Symbols.PrewarmSound | src/libxylem-dispatch.c:74-95 | prewarming keeps that and resolves every known hook to dlsym's answer |
| Symbols.ForgetSound | src/libxylem.c:676-697 | clearing an image's slots leaves a sound cache, and modules of other images untouched |
| Symbols.ForgetAgreesIff | src/libxylem.c:676-697 | after clearing, bits and slots still agree iff no slot pointed into the image |
| SymbolArrays.SymbolCache.EnsureFnCap | src/libxylem.c:155-168 | growing keeps all slots and adds empty ones |
| SymbolArrays.SymbolCache.EnsureImplWords | src/libxylem.c:126-143 | growing the word array changes no membership |
| SymbolArrays.SymbolCache.MarkImplemented | src/libxylem.c:145-153 | exactly the one hook is added to the marked set, across growth |
| SymbolArrays.SetBitMarks | src/libxylem.c:145-153 | or-ing one bit into its word leaves every other hook's membership as it was |
| SymbolArrays.SymbolCache.HasHook | src/libxylem-internal.h:119-128 | the bit test is membership in the marked set |
| SymbolArrays.SymbolCache.Lookup | src/libxylem-dispatch.c:45-63 | the array code computes the abstract resolve and returns the slot |
| SymbolArrays.SymbolCache.Warm | src/libxylem-dispatch.c:74-95 | the array loop computes the abstract prewarm |
| SymbolArrays.SymbolCache.ForgetImage | src/libxylem.c:690-695 | the array loop empties exactly the slots into the image |
| Loading.Load | src/libxylem-module.c:53-118 | terminates on cyclic graphs; keeps registry, entries and lists consistent; only adds entries, references and regions below the caller; keeps every live module in the table if the tree stays Apart; restores the context |
| Loading.AdmitFacts | src/libxylem-module.c:70-106 | before install runs, the state has exactly one entry more, appended in its home region, which is the caller's or one new child; its key was put under the caller's region, then put under the child's and deleted from the caller's |
| Loading.WithdrawFacts | src/libxylem.c:751-806 | aborting a linked load restores entries and lists up to an empty claimed region, and the registry up to the key deleted there |
| LoadStages.FlatStages | src/libxylem.c:949-1089 | publish and link, stage by stage, admit the module in the caller's region |
| LoadStages.GrantedStages | src/libxylem.c:493-553 | publish under the parent, claim, re-key by put and delete, and link admit the module in the child region, whether or not the two keys differ |
| LoadStages.ScrappedIsBind | src/libxylem.c:786-806 | aborting an unlinked load leaves only the image's context behind |
| Unloading.UnloadEntry | src/libxylem-module.c:141-216 | terminates by creation order in every consistent state; only removes entries and references, thins every list to the survivors, keeps every survivor's key, and spares all that does not descend from the entry |
| Unloading.UnloadSpares | src/libxylem-module.c:164-192 | nothing changes that does not descend from the entry through modules of the table, in every state |
| Unloading.TabledIsLive | src/libxylem-module.c:166-171 | then an iteration over the table meets exactly the live modules |
| Unloading.UnloadEffect | src/libxylem-module.c:161-200 | in every state, with modules outside the table as nobody's children: exactly the doomed entries go, every other entry that is hit loses exactly one reference, the rest are unchanged |
| Unloading.DoomedLeast | src/libxylem-module.c:161-192 | the doomed entries lie in every closed set containing the entry |
| Unloading.DoomedClosed | src/libxylem-module.c:161-192 | the doomed entries are themselves closed |
| Unloading.UnloadDocumentedIff | src/libxylem-module.c:135-140 | the removed modules are the whole closure of last-reference children iff none of it, the root aside, is missing from the table |
| Invariants.CachesRelinked | src/libxylem.c:298-304 | relinking a region and marking its ancestors keeps every cache coherent |
| Invariants.CachesClaimed | src/libxylem.c:1268-1284 | a new empty child keeps every cache coherent |
| Invariants.CachesDeny | src/libxylem.c:1366-1367 | a deny keeps every cache coherent |
| Steps.AregInv | src/libxylem-dispatch.c:361-411 | a new hook id keeps the invariant |
| Steps.SettingInv | src/libxylem.c:1317-1371 | denies and claim gates keep the invariant |
| Steps.LoadInv | src/libxylem-module.c:53-118 | a load, with everything its install loads, keeps the invariant, of which the part on registration is under Apart |
| Steps.UnloadEntryInv | src/libxylem-module.c:141-216 | an unload with its cascade keeps the invariant |
| Coherence.HoldersFlagged | src/libxylem.c:239-244 | every region holding a deny is flagged, with all its ancestors |
| Coherence.HookVerdictExactIff | src/libxylem-dispatch.c:249-264 | skipping the chain on a clear flag gives the full verdict iff the flag is set or no proper ancestor denies the hook |
| Coherence.ModVerdictExactIff | src/libxylem-dispatch.c:145-156 | the same for the module filter of a rebuild |
| Coherence.OwnDenyListed | src/libxylem-dispatch.c:145-156 | a region's own module denies are never skipped |
| Coherence.GatherIsListening | src/libxylem-dispatch.c:141-183 | while bits and slots agree, the rebuild's scan is the reference filter |
| Coherence.RefreshInv | src/libxylem-dispatch.c:270-294 | rebuilding what a call needs keeps the invariant |
| Coherence.CallIsFiltered | src/libxylem-dispatch.c:270-334 | unless an image was shared, a warm or rebuilt vector is what its filter leaves of the fresh walk: the recorded filter if the vector is current, else the denies consulted |
| Coherence.CallIsRecomputation | src/libxylem-dispatch.c:270-334 | and if no ancestor ever denied a module, that filter is the region's own denies |
| Coherence.NoStaleSlot | src/libxylem-dispatch.c:286-334 | with no hypothesis on denies or images, every slot of a call is live, linked in the caller's subtree and not banned there |
| Coherence.NoStaleList | src/libxylem.c:343-354 | every entry of a list that is not dirty is live and in the subtree |
| Programs.DescFollows | src/libxylem-module.c:255-257 | within one list a module precedes everything it loaded, directly or not |
| Programs.PredecessorSurvives | src/libxylem-module.c:255-264 | in every reachable state the predecessor a reload saves is not removed by the cascade and stays in its list |
| Reloading.ReloadKeepsPosition | src/libxylem-module.c:232-294 | with one reference, an image that is there and installs, and no claim to take, the reload succeeds and the new order of the old module's list is the old one with the entry replaced in place, doomed modules dropped, new ones at the tail, in every tree |
| Reloading.ReloadSharedIsNeutral | src/libxylem-module.c:232-294 | with more references and an image that is there, the reload succeeds and counts, lists, registry and tree are unchanged, in every tree |
| Reloading.ReloadTop | src/libxylem-module.c:232-294 | a reload keeps the invariant and the context, however it ends and wherever it links the module it finds |
| Reloading.ReloadInStepIff | src/libxylem-module.c:255-289 | from a state in which every module is linked in its own region, a reload ends in one iff it finds nothing to relink or a module that lives in the old one's region |
| Reloading.ReloadStaysIff | src/libxylem-module.c:255-289 | seen before the call, for one reference and no claim to take: iff the module found lives in the current region itself |
| Runs.Exec | src/libxylem.c:1412-1440 | every program restores region id, region pointer and loader at every exit, and keeps the invariant, whatever its reloads relink |
| Runs.EveryRun | src/libxylem-module.c:53-294 | every run from the start ends in a state that satisfies the invariant, with all counts at least one and loaders before what they loaded; if its regions are Apart or within 60 bits, every live module is registered and linked in its own region |
| Runs.EveryCallFiltered | src/libxylem-dispatch.c:186-334 | every call of every run that is not refused ran what its filter leaves of the fresh walk, unless an image was shared |
| Runs.EveryCallCoherent | src/libxylem-dispatch.c:186-334 | and is the recomputation if no proper ancestor ever held a module deny |
| Runs.EveryCallLive | src/libxylem-dispatch.c:286-334 | every callback of every run was live, in the caller's subtree and not banned there |
| Runs.EveryCallOnce | src/libxylem-dispatch.c:286-334 | no such call runs a module twice |
| Runs.CallCodes | src/libxylem-dispatch.c:217-355 | a call returns NOTFOUND for an unknown name, EPERM when denied, NOTFOUND when nothing listens, OK otherwise |
| Runs.DfsOnce | src/libxylem.c:323-338 | the subtree walk meets no module twice |
| Runs.SyncedRun | src/libxylem.c:69-74 | if no image is ever shared and no module linked outside its own region, region id and region pointer agree at every call |
| Runs.CallbackAtHome | src/libxylem-dispatch.c:303-326 | without sharing, a callback runs with its module's region id as the current one, and with that region's pointer iff it need not be entered or the module is linked in its own region |
| Runs.EverySymbolCache | src/papi.h:117-121 | after every run, each cache slot is empty or dlsym's answer, and without sharing its bit is set iff it is a function |
| LoadGraph.VisitOnce | src/libxylem-module.c:65-68 | the visit reaches no module twice and none that was loaded before |
| LoadGraph.VisitClosed | src/libxylem.c:1107-1117 | everything that can be loaded from a visited module is visited or was loaded before |
| LoadGraph.VisitLeast | src/libxylem.c:1107-1117 | nothing outside the reachable modules is visited |
| LoadOrder.LoadIsVisit | src/libxylem-module.c:53-118 | without claims, a load appends, registers and counts exactly as the depth-first visit says, and returns its code; what counts as loaded is what the caller region's keys lead to |
| LoadOrder.LoadReaches | src/libxylem-module.c:101-108 | the list grows by the newly reached modules, each once, in pre-order, and they are the least closed set |
| Undoing.FailedLoadIsFrame | src/libxylem-module.c:70-117 | a failed load changes no entry, list, walk, deny, gate or context; at most one empty child region is new, and with it goes at most what its key led to, nothing in an Apart tree |
| Undoing.LoadOffspring | src/libxylem.c:949-977 | every new entry but the first was loaded by a new entry |
| Undoing.UnloadUndoesLoad | src/libxylem-module.c:141-216 | unloading a load that made only new entries restores entries, counts, registry and every list iff the load kept every old key and registered all it brought; so it does if it made no region, or from a registered state in an Apart tree |
| Undoing.UnclaimedRoundTrip | src/libxylem-module.c:53-216 | without claims it does, in every tree |
| Undoing.UnloadLifts | src/libxylem.c:587-604 | an unload lifts exactly the module denies that name a removed module, in the region it was linked in |
| Ledger.LoadTallied | src/libxylem.c:930-947 | a load raises each count by exactly the times its loads found the module |
| Ledger.UnloadTallied | src/libxylem-module.c:161-192 | an unload lowers by one exactly the counts it reaches through the table, in every state |
| Ledger.EveryCount | src/libxylem-module.c:141-216 | over every run, count + decrements = 1 + reuses, and the count is at least one |
| Limits.RegistryExact | src/libxylem.c:979-986 | in every reachable state whose regions are Apart or within 60 bits, the registry holds exactly the live entries, each under its own key and once |
| Limits.RegistryBytesDistinct | src/libxylem.c:384-398 | in those states the stored bytes of two live modules are distinct |
| Limits.DeepKeysCollide | src/libxylem.c:384-398 | regions 0 and 8 share a key for every path |
| Limits.RekeyKeepsIff | src/libxylem.c:493-515 | a granted claim leaves its module in the table iff child and parent differ above the low four bits, that is, iff their key bytes differ |
| Witnesses.ClaimIsLostIff | src/libxylem.c:493-515 | from the start, a claim of b bits loses its module iff b > 60: live and linked in a region that shares its key with the root, not in the table, not unloadable, not asked about a new hook, and loaded twice |
| Detours.CascadePassesOverIff | src/libxylem-module.c:161-192 | from the start, unloading a module whose only child claimed b bits leaves the child, on its last reference, behind iff b > 60 |
| Detours.ReloadStraysIff | src/libxylem-module.c:255-289 | from the start, reloading in a region of b bits a module of the root links the region's new module into the root's list iff b > 60: calls in the region miss it, calls at the root reach it, and its callback runs with the region's id and the root's pointer, with nothing shared |
| Limits.BindAgreesIff | src/libxylem.c:1073-1077 | after binding an image, every context names its module's region iff no live module of the image lives elsewhere |
| Limits.DenyNotInherited | src/libxylem.c:1317-1371 | a hook denied in a region is refused there and let through in every unflagged region below |
| Limits.WarmVectorIgnoresDeny | src/libxylem.c:284-292 | a vector that is current below a region is still used after a module deny there |
| Limits.WarmVectorCallsBanned | src/libxylem.c:284-292 | so it calls any listening module its filter had not left out, though a region above has just banned it |
| Limits.CallDocumentedIff | src/libxylem-dispatch.c:125-184 | any call that is not refused, warm or rebuilt, runs what all ancestors' denies leave iff its filter treats every listening module of the subtree as they do |
| Witnesses.DenyUnheard | src/libxylem.c:1317-1371 | a program in which hook and module are denied at the root, the unflagged region below still calls the module, and the root is refused |
| Witnesses.DenyOvertaken | src/libxylem.c:284-292 | a program in which the region is flagged and its vector current, the root denies the module, and the region calls it again |
| Limits.RebuiltCall | src/libxylem-dispatch.c:125-184 | a call that rebuilds filters by exactly the denies it consults |
| Limits.RebuiltCallDocumentedIff | src/libxylem-dispatch.c:125-184 | such a call honours all ancestors' denies iff its region is flagged or no listening module is banned by an ancestor alone |
| Limits.GateHolds | src/libxylem.c:1091-1105 | under a claim gate no load, with all its installs, adds a module to the region itself, or in an Apart tree a key, and an unclaiming module gets EPERM |
| XylemRuntime.Runtime.constructor | src/libxylem.c:357-374 | starts with the root region alone |
| XylemRuntime.Runtime.RegionAncestorChain | src/libxylem.c:219-236 | fills the buffer with the root-first chain, or its lower end if it does not fit |
| XylemRuntime.Runtime.RegionPropagateDeny | src/libxylem.c:239-244 | flags exactly the region and its ancestors |
| XylemRuntime.Runtime.RegionDispatchGenBump | src/libxylem.c:284-292 | a new generation for exactly the region and its ancestors |
| XylemRuntime.Runtime.RegionMarkSubtreeDirty | src/libxylem.c:298-304 | the same, and their lists are dirty |
| XylemRuntime.Runtime.RegionCollectSubtreeMods | src/libxylem.c:323-338 | pushes exactly the depth-first walk of the node |
| XylemRuntime.Runtime.RegionRebuildSubtreeMods | src/libxylem.c:343-354 | the list becomes the walk of the region and is clean |
| XylemRuntime.Runtime.RegionEnsureHookDispatchCap | src/libxylem-dispatch.c:97-121 | the vectors are kept and empty ones added up to the hook |
| XylemRuntime.Runtime.ScanListeners | src/libxylem-dispatch.c:141-179 | the loop computes the slots and the symbol caches of the reference scan |
| XylemRuntime.Runtime.RegionRebuildHookDispatch | src/libxylem-dispatch.c:125-184 | computes the refreshed region, stamped with its generation |
| XylemRuntime.Runtime.PrepareCall | src/libxylem-dispatch.c:205-296 | computes the refusal or the refreshed vector, with a 65-slot chain that never truncates |
| XylemRuntime.Runtime.XyAreg | src/libxylem-dispatch.c:361-411 | the old id, or the next one with every module of the table asked about it |
| XylemRuntime.Runtime.XyDenyHook | src/libxylem.c:1317-1371 | lists the hook, flags and renews the region and its ancestors |
| XylemRuntime.Runtime.XyDenyModule | src/libxylem.c:1317-1371 | the same for a module path |
| XylemRuntime.Runtime.XyRequireClaim | src/libxylem.c:1170-1195 | sets or clears the current region's gate and handler |
| XylemRuntime.Runtime.ClaimIfNeeded | src/libxylem.c:1091-1105 | refuses, passes or grants as decided, with the code of each refusal |
| XylemRuntime.Runtime.ClaimForLoad | src/libxylem.c:1243-1311 | a grant creates the child, makes it current and re-keys the entry by put and delete; a refusal changes nothing |
| XylemRuntime.Runtime.Link | src/libxylem-module.c:101-106 | appends to the home region, which becomes the one it is linked in, marks it and prewarms |
| XylemRuntime.Runtime.Abort | src/libxylem.c:751-806 | unlinks, marks, unregisters and frees |
| XylemRuntime.Runtime.ModLoad | src/libxylem-module.c:53-118 | new state and code are those of the load function |
| XylemRuntime.Runtime.LoadFresh | src/libxylem-module.c:70-117 | the staged transaction with its aborts computes the same |
| XylemRuntime.Runtime.RunInstall | src/libxylem.c:1107-1117 | runs the script with the module as loader and restores the loader |
| XylemRuntime.Runtime.ModUnload | src/libxylem-module.c:141-216 | new state and code are those of the unload function |
| XylemRuntime.Runtime.CollectChildren | src/libxylem-module.c:164-180 | collects exactly the modules of the table whose parent is the entry, in table order |
| XylemRuntime.Runtime.Teardown | src/libxylem-module.c:194-214 | forgets slots and denies, detaches, unregisters |
| XylemRuntime.Runtime.ModuleClearFnCacheForHandle | src/libxylem.c:676-697 | empties the image's slots in every other module of the table |
| XylemRuntime.Runtime.XyUnload | src/libxylem-module.c:218-228 | unloads in the current region, or NOTFOUND |
| XylemRuntime.Runtime.XyReload | src/libxylem-module.c:232-294 | new state and code are those of the reload function |
| XylemRuntime.Runtime.Reinsert | src/libxylem-module.c:288-289 | the module found leaves its list and goes behind the saved predecessor in the saved region's list, whatever region it lives in |
| XylemRuntime.Runtime.XyCall | src/libxylem-dispatch.c:186-355 | new state, code and inner calls are those of the reference call |
| XylemRuntime.Runtime.RunSlots | src/libxylem-dispatch.c:296-334 | the loop delivers to every runnable slot in order and counts them |
| XylemRuntime.Runtime.RunSlot | src/libxylem-dispatch.c:310-333 | one callback runs in its context's region, and the caller's context is put back |
| XylemRuntime.Runtime.XyWithRegion | src/libxylem.c:1412-1440 | the body runs in the region, and the context is put back; NOTFOUND for an unknown region |

## Left out

- Files and the dynamic linker: a path resolves to an image, dlsym is membership in its exports, dlopen
  runs the image's hook registrations; temporary copies, `realpath`, Windows branches and debug logs are not modelled.
- src/libxylem-watch.c, the macros of the headers and the Rust bindings: plumbing and code generation.
- `mod_by_region_hd` and `xy_mod_count`: nothing in the core reads them.
- `xy_last`, return buffers, result-size checks and adapters' marshalling: what a callback returns is not modelled; a
  call is identified by its hook name, and a hook id is the position of the name.
- Runtime bootstrap beyond the root region, shutdown, `xy_region_each` and per-region module state.
- Allocation failures: every allocation succeeds. Threads: loads are serialised by the callers.
- Generations are natural numbers, so the wrap from 2^64 - 1 to 1 is not modelled.
- Region ids are natural numbers below 2^64 with `|`, `<<` and the masks written out.
- The hash tables are maps; the registry's keys are what the stored bytes tell apart (`Keys.KeyIsBytes`).
- Records are split into one map per field, and pointers are identities that are never reused, so a stale
  `parent_entry` is an identity without an entry; aliasing of freed memory is not modelled. Class
  `Runtime` keeps module lists and symbol caches as values; their links and arrays are classes of their own.
- A deny list and its hash set are one set of names or paths.
- Install scripts are finite lists of loads, claim gates and denies; claim handlers are functions of
  path and requested width; callbacks nest calls and region scopes but do not load, unload, reload or deny.
- A child is unloaded by its own path. The source uses the name last written to its image's context, which is
  the same unless two paths name one image.
- Runs.EveryCallFiltered: is stated for runs in which no image was ever shared; `Limits.BindAgreesIff` and
  `Symbols.ForgetAgreesIff` say what sharing breaks.
