# AbstractPerspective, modelled in Dafny

This project models `AbstractPerspective`, the base class of the Che IDE's
perspectives. A perspective owns three part stacks: NAVIGATION on the left,
INFORMATION below and TOOLING on the right. Each stack has a controller
that sets the size and visibility of its panel. The class does four things:

- **layout**: it maximizes the central or the bottom area and restores the
  previous sizes;
- **placement**: it finds the stack that holds a part, and adds, removes,
  hides and activates parts there;
- **tracking**: it records the active part, and stores and restores that
  part when the user switches perspective;
- **snapshot**: it writes the layout to a JSON snapshot (`getState`) and
  restores it from one (`loadState`).

Files, one module each:

- `wrappers.dfy`: `Option` and `Result`.
- `json.dfy`: the JSON tree.
  - An object is an association list. Its members stay in insertion order,
    which is also the order its keys are iterated in.
  - `put` replaces a key in place or appends it, so the objects a
    snapshot is built from never repeat a key (`DistinctKeys`). The read
    side accepts any association list and takes a key's first member.
- `workbench.dfy`: the collaborators of the perspective, and the log of
  calls made on the panel controllers.
  - the zones (`PartStackType`) and the layout modes;
  - parts, identified by class name, rules and instance;
  - part stacks and the controllers of the panels.
- `layout.dfy`: `PerspectiveState`, the perspective's fields as one value.
  It also holds a specification function for every layout, placement and
  tracking operation, and lemmas about those functions.
- `snapshot.dfy`: what `getState` writes and what `loadState` does with
  a snapshot, as functions, with lemmas that go up to a round trip.
- `perspective.dfy`: class `AbstractPerspective`.
  - It has the Java fields.
  - Every operation is a method with the Java control flow and loops.
  - Each method is proved against its specification function through
    `Model()`. A state-changing method ensures
    `Model() == F(old(Model()), ...)`. A reading method ensures its
    result equals the function.

A Java exception is modelled as an error result: a JSON accessor whose cast
fails gives `TypeMismatch(key)`, and a zone key for which
`PartStackType.valueOf` throws gives `UnknownZone(key)`. Whatever changed
before the throw stays changed, and the queued activations do not run.
An unknown zone key is meant to be skipped silently; the code
(`AbstractPerspective.java:326`) calls `valueOf`, which throws, and the
model follows the code.

The part registry is meant to keep two invariants: every stack's active
part is one of its parts (`Layout.ActivesAreMembers`), and a part sits in
at most one stack, once (`Layout.OwnedOnce`). The model proves which
operations keep them and where the code does not:

- removing, hiding and activating through the owner, the tracker, the
  layout operations, `addPart` and the whole of `loadState` keep the
  first;
- `setActivePart(part, type)` (`AbstractPerspective.java:229-230`) keeps it
  exactly when the stack holds the part, because it does not check;
- `addPart` for a part without rules checks only the target stack
  (`AbstractPerspective.java:264`), so a part that another stack holds
  ends up in two;
- `addPart` for a part whose rules name the perspective checks nothing
  (`AbstractPerspective.java:270-271`), so a part can be added to a
  stack twice.

`loadState` never assigns the perspective's own `activePart`
(`Snapshot.LoadKeepsTracker`): after a round trip that field is still
the target's, and only the stacks' active parts are restored. The
perspective-level active part is meant to match after a round trip, but
in the code only `onActivePartChanged` (`AbstractPerspective.java:144-147`)
writes it.

## Model

| member | source | states |
|---|---|---|
| Perspective.AbstractPerspective.constructor | ide/che-core-ide-app/src/main/java/org/eclipse/che/ide/workspace/perspectives/general/AbstractPerspective.java:83-114 | three stacks with their controllers; all saved sizes 0, layout `NORMAL`, no active part, nothing stored, no call logged |
| Perspective.AbstractPerspective.StoreState | ide/che-core-ide-app/src/main/java/org/eclipse/che/ide/workspace/perspectives/general/AbstractPerspective.java:127-134 | the pre-switch slot takes the active part; that part's own `storeState` is called, and only when it exists |
| Perspective.AbstractPerspective.RestoreState | ide/che-core-ide-app/src/main/java/org/eclipse/che/ide/workspace/perspectives/general/AbstractPerspective.java:136-142 | when a part was stored it is activated in its owning stack, then its own `restoreState` is called; otherwise nothing changes |
| Perspective.AbstractPerspective.OnActivePartChanged | ide/che-core-ide-app/src/main/java/org/eclipse/che/ide/workspace/perspectives/general/AbstractPerspective.java:144-147 | the active part becomes the one the event carries (possibly none) |
| Perspective.AbstractPerspective.RemovePart | ide/che-core-ide-app/src/main/java/org/eclipse/che/ide/workspace/perspectives/general/AbstractPerspective.java:150-156 | the owning stack, if any, drops every occurrence of the part; nothing else changes |
| Perspective.AbstractPerspective.HidePart | ide/che-core-ide-app/src/main/java/org/eclipse/che/ide/workspace/perspectives/general/AbstractPerspective.java:159-165 | the owning stack, if any, hides the part; nothing else changes |
| Perspective.AbstractPerspective.MaximizeCentralPart | ide/che-core-ide-app/src/main/java/org/eclipse/che/ide/workspace/perspectives/general/AbstractPerspective.java:168-183 | unless already in that mode, save the three sizes, call `setHidden(true)` on left, right and bottom in that order, and enter `MAXIMIZED_CENTRAL_PART` |
| Perspective.AbstractPerspective.MaximizeBottomPart | ide/che-core-ide-app/src/main/java/org/eclipse/che/ide/workspace/perspectives/general/AbstractPerspective.java:186-201 | unless already in that mode, save the three sizes, call `setHidden(true)` on left and right and `maximize` on the bottom, and enter `MAXIMIZED_BOTTOM_PART` |
| Perspective.AbstractPerspective.RestoreParts | ide/che-core-ide-app/src/main/java/org/eclipse/che/ide/workspace/perspectives/general/AbstractPerspective.java:204-215 | unless `NORMAL`, call `setSize` with the saved size on left, right and bottom in that order and return to `NORMAL` |
| Perspective.AbstractPerspective.Call | ide/che-core-ide-app/src/main/java/org/eclipse/che/ide/workspace/perspectives/general/AbstractPerspective.java:168-215 | one controller call: the zone's controller takes its effect, the call is appended to the log, nothing else changes |
| Perspective.AbstractPerspective.SetActivePart | ide/che-core-ide-app/src/main/java/org/eclipse/che/ide/workspace/perspectives/general/AbstractPerspective.java:218-224 | the owning stack, if any, makes the part active; nothing else changes |
| Perspective.AbstractPerspective.SetActivePartIn | ide/che-core-ide-app/src/main/java/org/eclipse/che/ide/workspace/perspectives/general/AbstractPerspective.java:227-231 | the stack of the given zone makes the part active, with no check that it holds it |
| Perspective.AbstractPerspective.FindPartStackByPart | ide/che-core-ide-app/src/main/java/org/eclipse/che/ide/workspace/perspectives/general/AbstractPerspective.java:240-249 | loop over the zones in declaration order; returns the first zone whose stack contains the part, or none exactly when no stack does |
| Perspective.AbstractPerspective.AddPart | ide/che-core-ide-app/src/main/java/org/eclipse/che/ide/workspace/perspectives/general/AbstractPerspective.java:252-273 | a part without rules is added when the stack does not hold it yet; a part whose rules name this perspective is always added; otherwise nothing changes |
| Perspective.AbstractPerspective.GetPartStack | ide/che-core-ide-app/src/main/java/org/eclipse/che/ide/workspace/perspectives/general/AbstractPerspective.java:276-280 | the stack registered for the zone |
| Perspective.AbstractPerspective.GetState | ide/che-core-ide-app/src/main/java/org/eclipse/che/ide/workspace/perspectives/general/AbstractPerspective.java:282-295 | built with `put`; equals the snapshot function: `ACTIVE_PART`, then `PART_STACKS` holding INFORMATION, NAVIGATION, TOOLING in that order |
| Perspective.AbstractPerspective.GetPartStackState | ide/che-core-ide-app/src/main/java/org/eclipse/che/ide/workspace/perspectives/general/AbstractPerspective.java:297-317 | built with `put`; an empty stack gives `SIZE` and `HIDDEN: true`; otherwise `SIZE`, the active class if any, `HIDDEN` and `PARTS` |
| Perspective.AbstractPerspective.PartsState | ide/che-core-ide-app/src/main/java/org/eclipse/che/ide/workspace/perspectives/general/AbstractPerspective.java:307-314 | the loop of `JsonArray.set(i++, …)` makes one `{CLASS: name}` per part, in stack order |
| Perspective.AbstractPerspective.LoadState | ide/che-core-ide-app/src/main/java/org/eclipse/che/ide/workspace/perspectives/general/AbstractPerspective.java:319-350 | the zone loop, then the queued activations in order, then the root `ACTIVE_PART`; final state and error are those of the load function |
| Perspective.AbstractPerspective.RestorePartController | ide/che-core-ide-app/src/main/java/org/eclipse/che/ide/workspace/perspectives/general/AbstractPerspective.java:352-394 | `SIZE`, `HIDDEN`, `PARTS`, hiding an empty stack, then queuing the zone's active class; the controller calls are logged in Java order; on a throw, the mutations and calls already made are kept |
| Perspective.AbstractPerspective.RestoreStackEntry | ide/che-core-ide-app/src/main/java/org/eclipse/che/ide/workspace/perspectives/general/AbstractPerspective.java:364-394 | the part of `restorePartController` from `PARTS` on, equal to the specification function's stage of the same name |
| Perspective.AbstractPerspective.RestoreStackParts | ide/che-core-ide-app/src/main/java/org/eclipse/che/ide/workspace/perspectives/general/AbstractPerspective.java:364-379 | the `PARTS` loop; the result equals the parts-restore function, including where it throws |
| Workbench.ZoneNamed | ide/che-core-ide-app/src/main/java/org/eclipse/che/ide/workspace/perspectives/general/AbstractPerspective.java:326 | `PartStackType.valueOf`: a name maps to the zone that has it, and to none when no zone does (then Java throws) |
| Layout.MaximizeCentralPartEffect | ide/che-core-ide-app/src/main/java/org/eclipse/che/ide/workspace/perspectives/general/AbstractPerspective.java:168-183 | sizes saved from the controllers before hiding; exactly the three `setHidden(true)` calls, in order; all three panels hidden, no other field touched; a second call changes nothing |
| Layout.MaximizeBottomPartEffect | ide/che-core-ide-app/src/main/java/org/eclipse/che/ide/workspace/perspectives/general/AbstractPerspective.java:186-201 | sizes saved before hiding; exactly `setHidden(true)` on left and right, then `maximize` on the bottom; no other field touched; a second call changes nothing |
| Layout.RestorePartsEffect | ide/che-core-ide-app/src/main/java/org/eclipse/che/ide/workspace/perspectives/general/AbstractPerspective.java:204-215 | always ends `NORMAL`; from a maximized mode it makes exactly three `setSize` calls with the saved sizes and never calls `setHidden`; each panel then has its saved size, shown and not maximized; saved sizes and the rest are unchanged; idempotent |
| Layout.MaximizeThenRestore | ide/che-core-ide-app/src/main/java/org/eclipse/che/ide/workspace/perspectives/general/AbstractPerspective.java:168-215 | maximizing from `NORMAL` (either mode) and restoring gives each panel its original size, shown and not maximized, and touches nothing outside the layout |
| Layout.NoSizeDrift | ide/che-core-ide-app/src/main/java/org/eclipse/che/ide/workspace/perspectives/general/AbstractPerspective.java:168-215 | over any sequence of layout calls with a restore between any two maximizes, the size each zone goes back to never changes, and every return to `NORMAL` shows the starting sizes |
| Layout.CrossModeRecapture | ide/che-core-ide-app/src/main/java/org/eclipse/che/ide/workspace/perspectives/general/AbstractPerspective.java:168-201 | `maximizeBottomPart` straight after `maximizeCentralPart` saves the sizes the already hidden panels report, leaves the bottom panel hidden while maximizing it, and logs six calls |
| Layout.FirstOwner | ide/che-core-ide-app/src/main/java/org/eclipse/che/ide/workspace/perspectives/general/AbstractPerspective.java:240-249 | none exactly when no listed zone's stack holds the part; otherwise the first such zone |
| Layout.FindPartStackByPartFirst | ide/che-core-ide-app/src/main/java/org/eclipse/che/ide/workspace/perspectives/general/AbstractPerspective.java:240-249 | NAVIGATION wins over INFORMATION, which wins over TOOLING; none exactly when no stack holds the part |
| Layout.DelegationsReachOnlyTheOwner | ide/che-core-ide-app/src/main/java/org/eclipse/che/ide/workspace/perspectives/general/AbstractPerspective.java:150-224 | remove, hide and activate touch only the owner's stack, and do nothing when there is no owner; activation keeps that stack's members |
| Layout.AddPartCases | ide/che-core-ide-app/src/main/java/org/eclipse/che/ide/workspace/perspectives/general/AbstractPerspective.java:258-273 | all four rule cases of `addPart`; only the target stack can change |
| Layout.SetStackKeepsActives | ide/che-core-ide-app/src/main/java/org/eclipse/che/ide/workspace/perspectives/general/AbstractPerspective.java:150-231 | replacing one stack by a stack whose active part is a member keeps every active part a member |
| Layout.DelegationsKeepActives | ide/che-core-ide-app/src/main/java/org/eclipse/che/ide/workspace/perspectives/general/AbstractPerspective.java:150-224 | remove, hide and activate through the owner keep every stack's active part one of its parts |
| Layout.TrackerKeepsActives | ide/che-core-ide-app/src/main/java/org/eclipse/che/ide/workspace/perspectives/general/AbstractPerspective.java:127-215 | `storeState`, `restoreState`, `onActivePartChanged` and the layout operations keep every active part a member |
| Layout.AddPartKeepsActives | ide/che-core-ide-app/src/main/java/org/eclipse/che/ide/workspace/perspectives/general/AbstractPerspective.java:252-273 | `addPart` keeps every active part a member |
| Layout.SetActivePartInActives | ide/che-core-ide-app/src/main/java/org/eclipse/che/ide/workspace/perspectives/general/AbstractPerspective.java:227-231 | from a state where every active part is a member, `setActivePart(part, type)` keeps that exactly when the zone's stack holds the part |
| Layout.DelegationsKeepOwnedOnce | ide/che-core-ide-app/src/main/java/org/eclipse/che/ide/workspace/perspectives/general/AbstractPerspective.java:150-224 | remove, hide and activate through the owner keep every part in at most one stack, once |
| Layout.AddPartKeepsOwnedOnce | ide/che-core-ide-app/src/main/java/org/eclipse/che/ide/workspace/perspectives/general/AbstractPerspective.java:252-273 | adding a part that no stack holds keeps every part in at most one stack, once |
| Layout.AddPartSecondStack | ide/che-core-ide-app/src/main/java/org/eclipse/che/ide/workspace/perspectives/general/AbstractPerspective.java:262-266 | a part without rules that another stack holds is added to the target stack too, so it ends up in two stacks |
| Layout.AddPartTwice | ide/che-core-ide-app/src/main/java/org/eclipse/che/ide/workspace/perspectives/general/AbstractPerspective.java:270-271 | a part whose rules name the perspective is added again to a stack that already holds it |
| Layout.TrackerEffect | ide/che-core-ide-app/src/main/java/org/eclipse/che/ide/workspace/perspectives/general/AbstractPerspective.java:127-147 | the last `onActivePartChanged` wins; what `storeState` and `restoreState` change and which part hooks they call |
| Layout.SwitchRoundTrip | ide/che-core-ide-app/src/main/java/org/eclipse/che/ide/workspace/perspectives/general/AbstractPerspective.java:127-142 | `storeState` then `restoreState`: the part active before is active again in its owning stack; its hooks are called store then restore; no stack gains or loses parts |
| Snapshot.EncodeStackShape | ide/che-core-ide-app/src/main/java/org/eclipse/che/ide/workspace/perspectives/general/AbstractPerspective.java:297-317 | what each key of a zone entry holds, for the empty and non-empty cases |
| Snapshot.EncodeStateShape | ide/che-core-ide-app/src/main/java/org/eclipse/che/ide/workspace/perspectives/general/AbstractPerspective.java:282-295 | the root holds the active class and the zone map; every zone name maps to that zone's entry |
| Snapshot.EncodedKeysDistinct | ide/che-core-ide-app/src/main/java/org/eclipse/che/ide/workspace/perspectives/general/AbstractPerspective.java:282-317 | every object of a snapshot, root, zone map, zone entry and part entry, has distinct keys |
| Json.PutKeepsDistinct | ide/che-core-ide-app/src/main/java/org/eclipse/che/ide/workspace/perspectives/general/AbstractPerspective.java:282-317 | `put` keeps an object's keys distinct |
| Snapshot.RestoredMembers | ide/che-core-ide-app/src/main/java/org/eclipse/che/ide/workspace/perspectives/general/AbstractPerspective.java:364-379 | restoring `PARTS` keeps the existing parts in front and in order, adds exactly the parts the entries resolve to, never adds one twice, and keeps the active part |
| Snapshot.RestorePartControllerEffect | ide/che-core-ide-app/src/main/java/org/eclipse/che/ide/workspace/perspectives/general/AbstractPerspective.java:352-394 | the returned size (0 without `SIZE`); the controller's size, its hidden flag (as `HIDDEN` gives it, cleared by `SIZE` otherwise, forced for an empty stack) and its maximized flag (cleared by `SIZE`); the queued part |
| Snapshot.RestoreStackEntryEffect | ide/che-core-ide-app/src/main/java/org/eclipse/che/ide/workspace/perspectives/general/AbstractPerspective.java:364-394 | from `PARTS` on: the size passes through, the controller is hidden exactly when the stack ends empty, the stack is the `PARTS` restore, and the queued part |
| Snapshot.RestoreCallsReplay | ide/che-core-ide-app/src/main/java/org/eclipse/che/ide/workspace/perspectives/general/AbstractPerspective.java:352-394 | every logged call of a zone entry is on that zone's controller, and replaying them on the old controller gives the new one, whether the zone returns or throws |
| Snapshot.OwnerFollowsMembers | ide/che-core-ide-app/src/main/java/org/eclipse/che/ide/workspace/perspectives/general/AbstractPerspective.java:240-249 | the owning zone depends only on the stacks' members, not on their active parts |
| Snapshot.ActivateAllLastWins | ide/che-core-ide-app/src/main/java/org/eclipse/che/ide/workspace/perspectives/general/AbstractPerspective.java:338-340 | the queued activations change only active parts; each stack ends with the last queued part it owns |
| Snapshot.ActivateAllKeepsActives | ide/che-core-ide-app/src/main/java/org/eclipse/che/ide/workspace/perspectives/general/AbstractPerspective.java:338-340 | the queued activations keep every active part a member of its stack |
| Snapshot.LoadKeepsTracker | ide/che-core-ide-app/src/main/java/org/eclipse/che/ide/workspace/perspectives/general/AbstractPerspective.java:319-350 | `loadState` never changes the active part, the pre-switch slot, the layout mode or the part-hook log |
| Snapshot.RootActiveWins | ide/che-core-ide-app/src/main/java/org/eclipse/che/ide/workspace/perspectives/general/AbstractPerspective.java:342-348 | a root `ACTIVE_PART` that resolves to a held part ends active in its owning stack, whatever the zones queued |
| Snapshot.RestoreStackPartsGrows | ide/che-core-ide-app/src/main/java/org/eclipse/che/ide/workspace/perspectives/general/AbstractPerspective.java:364-379 | restoring `PARTS` keeps the stack's active part and every part already there, also when it throws |
| Snapshot.RestoreZoneGrows | ide/che-core-ide-app/src/main/java/org/eclipse/che/ide/workspace/perspectives/general/AbstractPerspective.java:352-394 | a zone entry keeps the stack's active part and every part already there, also when it throws |
| Snapshot.LoadKeepsActives | ide/che-core-ide-app/src/main/java/org/eclipse/che/ide/workspace/perspectives/general/AbstractPerspective.java:319-350 | `loadState`, whether it throws or not, keeps every active part a member of its stack |
| Snapshot.LoadZonesAppend | ide/che-core-ide-app/src/main/java/org/eclipse/che/ide/workspace/perspectives/general/AbstractPerspective.java:324-337 | the zone loop over `a + b` is the loop over `a`, then over `b` unless `a` threw |
| Snapshot.UnknownZoneThrows | ide/che-core-ide-app/src/main/java/org/eclipse/che/ide/workspace/perspectives/general/AbstractPerspective.java:324-337 | an unknown zone key throws; earlier zones stay loaded; no activation runs |
| Snapshot.PartsRoundTrip | ide/che-core-ide-app/src/main/java/org/eclipse/che/ide/workspace/perspectives/general/AbstractPerspective.java:364-379 | a `PARTS` array of distinct classes appends, in order, exactly the parts the resolver gives for the classes it knows; unknown classes are skipped |
| Snapshot.ResolvableNames | ide/che-core-ide-app/src/main/java/org/eclipse/che/ide/workspace/perspectives/general/AbstractPerspective.java:364-379 | the resolved parts carry the class names of the known parts, in order; when every class is known, they carry all the names |
| Snapshot.MissingClassSkipped | ide/che-core-ide-app/src/main/java/org/eclipse/che/ide/workspace/perspectives/general/AbstractPerspective.java:370-376 | a middle class the resolver does not know is dropped and the other two come back in order |
| Snapshot.NoClassKnown | ide/che-core-ide-app/src/main/java/org/eclipse/che/ide/workspace/perspectives/general/AbstractPerspective.java:364-379 | when no class is known, no part comes back |
| Snapshot.ZoneRoundTrip | ide/che-core-ide-app/src/main/java/org/eclipse/che/ide/workspace/perspectives/general/AbstractPerspective.java:352-394 | a zone entry from `getPartStackState`, loaded into an empty stack, restores the resolvable members in order, the size, and the hidden flag (forced when nothing resolves); the controller ends not maximized |
| Snapshot.RoundTripZones | ide/che-core-ide-app/src/main/java/org/eclipse/che/ide/workspace/perspectives/general/AbstractPerspective.java:324-337 | the zone loop over a `getState` snapshot restores all three zones and throws nothing |
| Snapshot.ActivationChangesOnlyActives | ide/che-core-ide-app/src/main/java/org/eclipse/che/ide/workspace/perspectives/general/AbstractPerspective.java:338-348 | after an error-free zone loop, the rest of `loadState` changes only which part each stack has active |
| Snapshot.RoundTrip | ide/che-core-ide-app/src/main/java/org/eclipse/che/ide/workspace/perspectives/general/AbstractPerspective.java:282-394 | `loadState(getState())` into empty stacks throws nothing and restores, per zone, the resolvable members in order (same classes as the known ones, all of them when every class resolves), the size, the hidden flag (set for a zone left empty), no maximized panel and the saved size |
| Snapshot.ResolvableHas | ide/che-core-ide-app/src/main/java/org/eclipse/che/ide/workspace/perspectives/general/AbstractPerspective.java:364-379 | a part whose class the resolver knows contributes the resolved part |
| Snapshot.RoundTripActive | ide/che-core-ide-app/src/main/java/org/eclipse/che/ide/workspace/perspectives/general/AbstractPerspective.java:282-350 | after the round trip, the resolved form of the part that was active is active in the first stack holding it; the perspective's own `activePart` is left as it was |
| Snapshot.RoundTripScenario | ide/che-core-ide-app/src/main/java/org/eclipse/che/ide/workspace/perspectives/general/AbstractPerspective.java:282-394 | NAVIGATION holding `a`, `b` with `b` active, the other zones empty: it comes back exactly, and INFORMATION comes back empty and hidden |

## Left out

- Constructor wiring: the views, the factories and the `EventBus`
  registration are not modelled. The constructor takes the three stacks and
  their controllers as values.
- `openActivePart` is not modelled. It only forwards to the stack's
  `openPreviousActivePart`, whose code is not part of this model.
- The `Constraints` placement hint is not modelled. `AddPart` stands for
  both `addPart` overloads, because the two-argument one only passes
  `null`.
- The stack and controller internals are assumed, because their code is not
  part of this model:
  - `addPart` appends;
  - `removePart` drops every occurrence of the part and clears it as the
    active part;
  - `hidePart` clears it as the active part;
  - `setActivePart` sets it;
  - `setSize` resizes and is meant to clear the hidden and maximized
    state, so `restoreParts` shows the
    panels without calling `setHidden`;
  - `setHidden` and `maximize` change only their own flag. In particular
    a hidden panel still reports its size. `Layout.CrossModeRecapture`
    shows where that matters: from `MAXIMIZED_CENTRAL_PART`,
    `maximizeBottomPart` saves what the hidden panels report.
- Layout.NoSizeDrift: it covers only sequences with a restore between any
  two maximizes. Maximizing from the other maximized mode saves the sizes
  of hidden panels, and what those report is controller code outside this
  model.
- Snapshot.RestoredMembers: for an arbitrary `PARTS` array it states which
  parts are added, not their order. The order is stated by
  `Snapshot.PartsRoundTrip` for arrays `getPartStackState` writes.
- The calls on the panel controllers are recorded in a log field with
  their arguments; the controllers' effect on the screen is not modelled.
- Aliasing: stacks and controllers are values owned by the perspective. The
  model does not capture other code reaching the same objects.
- `PartStackType` is not part of this model. The zones are taken to be
  NAVIGATION, INFORMATION and TOOLING, in that declaration order.
- Types and numbers:
  - `double` is modelled as `real`.
  - A Java class name is a part's `name`.
  - A `Part`'s `instance` field distinguishes two objects of the same
    class.
- `DynaProvider` is a fixed map from class name to part. The model does not
  capture a provider that hands out new instances on each `get()`.
- The JSON library is not part of this model:
  - objects are association lists;
  - a failing cast is an error result;
  - JSON numbers are reals.
- The left and right maximized modes exist only as values of the layout
  mode, because no operation in this class enters them.
- Calls to the parts' own `storeState` and `restoreState` are recorded
  in a log field. What those hooks do is not modelled.
