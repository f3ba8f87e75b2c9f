/**
 * The perspective snapshot: what `getState` writes, and what `loadState`
 * does with a snapshot, as functions on the perspective state.
 */
module Snapshot {
  import opened Wrappers
  import opened Json
  import opened Workbench
  import opened Layout

  const ActivePartKey: string := "ACTIVE_PART"
  const PartStacksKey: string := "PART_STACKS"
  const SizeKey: string := "SIZE"
  const HiddenKey: string := "HIDDEN"
  const PartsKey: string := "PARTS"
  const ClassKey: string := "CLASS"

  /**
   * Why `loadState` throws: a value of the wrong JSON type under a key (the
   * accessor's cast fails), or a zone key that is no `PartStackType` name.
   */
  datatype LoadError = TypeMismatch(key: string) | UnknownZone(key: string)

  /** `DynaProvider.getProvider(name).get()`, as a partial map from class name to part. */
  type Resolver = map<string, Part>

  function Resolve(resolver: Resolver, name: string): Option<Part> {
    if name in resolver then Some(resolver[name]) else None
  }

  // ------------------------------------------------------------- serialize

  /** `{CLASS: <class name>}`. */
  function PartEntry(p: Part): Value {
    Object([Member(ClassKey, Str(p.name))])
  }

  function PartEntries(ps: seq<Part>): (r: seq<Value>)
    ensures |r| == |ps|
  {
    seq(|ps|, i requires 0 <= i < |ps| => PartEntry(ps[i]))
  }

  /** The object `getPartStackState` builds for a stack and its controller. */
  function EncodeStack(stack: Stack, ctrl: Controller): Obj {
    if stack.parts == [] then [Member(SizeKey, Number(ctrl.size)), Member(HiddenKey, Bool(true))]
    else [Member(SizeKey, Number(ctrl.size))]
         + (if stack.active.Some? then [Member(ActivePartKey, Str(stack.active.value.name))] else [])
         + [Member(HiddenKey, Bool(ctrl.hidden)), Member(PartsKey, Array(PartEntries(stack.parts)))]
  }

  /** The zone map of a snapshot, in the order `getState` fills it. */
  function EncodeZones(s: PerspectiveState): Obj {
    [Member(ZoneName(Information), Object(EncodeStack(s.partStacks.information, s.belowPartController))),
     Member(ZoneName(Navigation), Object(EncodeStack(s.partStacks.navigation, s.leftPartController))),
     Member(ZoneName(Tooling), Object(EncodeStack(s.partStacks.tooling, s.rightPartController)))]
  }

  /** The object `getState` builds; it dereferences the active part, so one must exist. */
  function EncodeState(s: PerspectiveState): Obj
    requires s.activePart.Some?
  {
    [Member(ActivePartKey, Str(s.activePart.value.name)), Member(PartStacksKey, Object(EncodeZones(s)))]
  }

  lemma KeysDistinct()
    ensures ActivePartKey != PartStacksKey && ActivePartKey != SizeKey && ActivePartKey != HiddenKey
    ensures ActivePartKey != PartsKey && SizeKey != HiddenKey && SizeKey != PartsKey
    ensures HiddenKey != PartsKey
    ensures forall z, z' :: z != z' ==> ZoneName(z) != ZoneName(z')
  {
    assert ActivePartKey[0] != PartStacksKey[0];
  }

  /** Every object a snapshot is made of has distinct keys. */
  lemma EncodedKeysDistinct(s: PerspectiveState, stack: Stack, ctrl: Controller, p: Part)
    ensures DistinctKeys(EncodeStack(stack, ctrl))
    ensures DistinctKeys(EncodeZones(s))
    ensures s.activePart.Some? ==> DistinctKeys(EncodeState(s))
    ensures PartEntry(p).Object? && DistinctKeys(PartEntry(p).members)
  {
    KeysDistinct();
    assert ZoneName(Information) != ZoneName(Navigation) && ZoneName(Information) != ZoneName(Tooling);
    assert ZoneName(Navigation) != ZoneName(Tooling);
  }

  /** What a zone of the snapshot holds, key by key. */
  lemma EncodeStackShape(stack: Stack, ctrl: Controller)
    ensures var o := EncodeStack(stack, ctrl);
      && Get(o, SizeKey) == Some(Number(ctrl.size))
      && (stack.parts == [] ==>
            && o == [Member(SizeKey, Number(ctrl.size)), Member(HiddenKey, Bool(true))]
            && Get(o, HiddenKey) == Some(Bool(true))
            && Get(o, PartsKey).None? && Get(o, ActivePartKey).None?)
      && (stack.parts != [] ==>
            && Get(o, HiddenKey) == Some(Bool(ctrl.hidden))
            && Get(o, PartsKey) == Some(Array(PartEntries(stack.parts)))
            && Get(o, ActivePartKey) ==
                 (if stack.active.Some? then Some(Str(stack.active.value.name)) else None))
  {
    KeysDistinct();
    var o := EncodeStack(stack, ctrl);
    if stack.parts != [] {
      var tail := [Member(HiddenKey, Bool(ctrl.hidden)), Member(PartsKey, Array(PartEntries(stack.parts)))];
      assert Get(tail, HiddenKey) == Some(Bool(ctrl.hidden));
      assert Get(tail, PartsKey) == Some(Array(PartEntries(stack.parts)));
      assert Get(tail, ActivePartKey).None?;
      if stack.active.Some? {
        var mid := [Member(ActivePartKey, Str(stack.active.value.name))] + tail;
        assert o == [Member(SizeKey, Number(ctrl.size))] + mid;
        assert o[1..] == mid && mid[1..] == tail;
      } else {
        assert o == [Member(SizeKey, Number(ctrl.size))] + tail;
        assert o[1..] == tail;
      }
    } else {
      assert o[1..] == [Member(HiddenKey, Bool(true))];
    }
  }

  /** What the root of the snapshot holds. */
  lemma EncodeStateShape(s: PerspectiveState)
    requires s.activePart.Some?
    ensures var o := EncodeState(s);
      && Get(o, ActivePartKey) == Some(Str(s.activePart.value.name))
      && Get(o, PartStacksKey) == Some(Object(EncodeZones(s)))
      && (forall z :: Get(EncodeZones(s), ZoneName(z)) ==
                        Some(Object(EncodeStack(s.partStacks.Get(z), s.ControllerOf(z)))))
  {
    KeysDistinct();
    var o := EncodeState(s);
    assert o[1..] == [Member(PartStacksKey, Object(EncodeZones(s)))];
    var zs := EncodeZones(s);
    assert zs[1..][1..] == [zs[2]];
    forall z ensures Get(zs, ZoneName(z)) == Some(Object(EncodeStack(s.partStacks.Get(z), s.ControllerOf(z)))) {
      match z
      case Information =>
      case Navigation =>
      case Tooling =>
    }
  }

  // --------------------------------------------------------------- restore

  /** The stack reached by the `PARTS` loop, and the error it threw, if any. */
  datatype PartsOutcome = PartsOutcome(stack: Stack, error: Option<LoadError>)

  /**
   * The `PARTS` loop of `restorePartController`: each entry's class is
   * resolved; a miss or an entry without `CLASS` is skipped, and a resolved
   * part is added unless the stack already contains it.
   */
  function RestoreStackParts(stack: Stack, items: seq<Value>, resolver: Resolver): PartsOutcome
    decreases |items|
  {
    if items == [] then PartsOutcome(stack, None)
    else if !items[0].Object? then PartsOutcome(stack, Some(TypeMismatch(PartsKey)))
    else
      var cls := Get(items[0].members, ClassKey);
      if cls.Some? && !cls.value.Str? then PartsOutcome(stack, Some(TypeMismatch(ClassKey)))
      else
        var next :=
          if cls.None? then stack
          else match Resolve(resolver, cls.value.s)
            case None => stack
            case Some(p) => if stack.Contains(p) then stack else stack.Add(p);
        RestoreStackParts(next, items[1..], resolver)
  }

  /** The value `restorePartController` returns and the part it queues for activation. */
  datatype Restored = Restored(size: real, queued: Option<Part>)

  /**
   * The zone's stack and controller after `restorePartController`, the
   * calls it made on the controller, and its outcome.
   */
  datatype ZoneOutcome = ZoneOutcome(stack: Stack, controller: Controller, calls: seq<ControllerCall>,
                                     result: Result<Restored, LoadError>)

  /** `restorePartController` on zone `z`'s stack, controller and snapshot entry. */
  function RestorePartController(z: Zone, stack: Stack, ctrl: Controller, entry: Obj, resolver: Resolver): ZoneOutcome {
    var sizeV := Get(entry, SizeKey);
    if sizeV.Some? && !sizeV.value.Number? then ZoneOutcome(stack, ctrl, [], Failure(TypeMismatch(SizeKey)))
    else
      var size := if sizeV.Some? then sizeV.value.n else 0.0;
      var calls1 := if sizeV.Some? then [SetSizeCall(z, size)] else [];
      var c1 := if sizeV.Some? then ctrl.SetSize(size) else ctrl;
      var hiddenV := Get(entry, HiddenKey);
      if hiddenV.Some? && !hiddenV.value.Bool? then ZoneOutcome(stack, c1, calls1, Failure(TypeMismatch(HiddenKey)))
      else
        var calls2 := calls1 + if hiddenV.Some? then [SetHiddenCall(z, hiddenV.value.b)] else [];
        var c2 := if hiddenV.Some? then c1.SetHidden(hiddenV.value.b) else c1;
        RestoreStackEntry(z, stack, c2, calls2, size, entry, resolver)
  }

  /**
   * The rest of `restorePartController`, from `PARTS` on, once `SIZE` and
   * `HIDDEN` have left the controller at `c` with the calls `calls`.
   */
  function RestoreStackEntry(z: Zone, stack: Stack, c: Controller, calls: seq<ControllerCall>, size: real,
                             entry: Obj, resolver: Resolver): ZoneOutcome {
    var partsV := Get(entry, PartsKey);
    if partsV.Some? && !partsV.value.Array? then ZoneOutcome(stack, c, calls, Failure(TypeMismatch(PartsKey)))
    else
      var restored :=
        if partsV.Some? then RestoreStackParts(stack, partsV.value.items, resolver)
        else PartsOutcome(stack, None);
      if restored.error.Some? then ZoneOutcome(restored.stack, c, calls, Failure(restored.error.value))
      else
        var calls3 := calls + if restored.stack.parts == [] then [SetHiddenCall(z, true)] else [];
        var c3 := if restored.stack.parts == [] then c.SetHidden(true) else c;
        var activeV := Get(entry, ActivePartKey);
        if activeV.Some? && !activeV.value.Str? then
          ZoneOutcome(restored.stack, c3, calls3, Failure(TypeMismatch(ActivePartKey)))
        else
          var queued := if activeV.Some? then Resolve(resolver, activeV.value.s) else None;
          ZoneOutcome(restored.stack, c3, calls3, Success(Restored(size, queued)))
  }

  /** The zone `z` of `s` after `restorePartController` gave `o`. */
  function ApplyZone(s: PerspectiveState, z: Zone, o: ZoneOutcome): PerspectiveState {
    s.(partStacks := s.partStacks.Set(z, o.stack), controllerCalls := s.controllerCalls + o.calls)
     .WithController(z, o.controller)
  }

  /** The state after the zone loop of `loadState`, the queued parts, and the error thrown, if any. */
  datatype ZonesOutcome = ZonesOutcome(state: PerspectiveState, activeParts: seq<Part>, error: Option<LoadError>)

  /** The zone loop of `loadState`, over the zone entries in key order. */
  function LoadZones(s: PerspectiveState, entries: Obj, activeParts: seq<Part>, resolver: Resolver): ZonesOutcome
    decreases |entries|
  {
    if entries == [] then ZonesOutcome(s, activeParts, None)
    else
      var key := entries[0].key;
      var value := entries[0].value;
      if !value.Object? then ZonesOutcome(s, activeParts, Some(TypeMismatch(key)))
      else match ZoneNamed(key)
        case None => ZonesOutcome(s, activeParts, Some(UnknownZone(key)))
        case Some(z) =>
          var o := RestorePartController(z, s.partStacks.Get(z), s.ControllerOf(z), value.members, resolver);
          var t := ApplyZone(s, z, o);
          match o.result
          case Failure(e) => ZonesOutcome(t, activeParts, Some(e))
          case Success(r) =>
            LoadZones(t.WithSavedSize(z, r.size), entries[1..],
                      activeParts + (if r.queued.Some? then [r.queued.value] else []), resolver)
  }

  /** The deferred activation loop: `setActivePart` on each queued part, in order. */
  function ActivateAll(s: PerspectiveState, parts: seq<Part>): PerspectiveState
    decreases |parts|
  {
    if parts == [] then s else ActivateAll(SetActivePart(s, parts[0]), parts[1..])
  }

  datatype LoadOutcome = LoadOutcome(state: PerspectiveState, error: Option<LoadError>)

  /** `loadState`. */
  function LoadState(s: PerspectiveState, snapshot: Obj, resolver: Resolver): LoadOutcome {
    var stacksV := Get(snapshot, PartStacksKey);
    if stacksV.Some? && !stacksV.value.Object? then LoadOutcome(s, Some(TypeMismatch(PartStacksKey)))
    else
      var zones :=
        if stacksV.Some? then LoadZones(s, stacksV.value.members, [], resolver)
        else ZonesOutcome(s, [], None);
      if zones.error.Some? then LoadOutcome(zones.state, zones.error)
      else
        var t := ActivateAll(zones.state, zones.activeParts);
        var activeV := Get(snapshot, ActivePartKey);
        if activeV.None? then LoadOutcome(t, None)
        else if !activeV.value.Str? then LoadOutcome(t, Some(TypeMismatch(ActivePartKey)))
        else match Resolve(resolver, activeV.value.s)
          case None => LoadOutcome(t, None)
          case Some(p) => LoadOutcome(SetActivePart(t, p), None)
  }

  // -------------------------------------------------- properties of restore

  /** The parts that the entries of a `PARTS` array resolve to. */
  function ResolvedParts(items: seq<Value>, resolver: Resolver): set<Part>
    decreases |items|
  {
    if items == [] then {}
    else
      var here :=
        match items[0]
        case Object(m) =>
          (match Get(m, ClassKey)
           case Some(Str(name)) => if name in resolver then {resolver[name]} else {}
           case _ => {})
        case _ => {};
      here + ResolvedParts(items[1..], resolver)
  }

  /**
   * Restoring `PARTS` keeps the parts already there, in front and in order,
   * adds exactly the parts the entries resolve to (a miss adds nothing), and
   * never adds a part twice.
   */
  lemma {:induction false} RestoredMembers(stack: Stack, items: seq<Value>, resolver: Resolver)
    requires RestoreStackParts(stack, items, resolver).error.None?
    ensures var r := RestoreStackParts(stack, items, resolver).stack;
      && r.active == stack.active
      && |stack.parts| <= |r.parts| && r.parts[..|stack.parts|] == stack.parts
      && (forall q :: q in r.parts <==> q in stack.parts || q in ResolvedParts(items, resolver))
      && (NoDuplicates(stack.parts) ==> NoDuplicates(r.parts))
    decreases |items|
  {
    if items != [] {
      var cls := Get(items[0].members, ClassKey);
      var next :=
        if cls.None? then stack
        else match Resolve(resolver, cls.value.s)
          case None => stack
          case Some(p) => if stack.Contains(p) then stack else stack.Add(p);
      assert RestoreStackParts(stack, items, resolver) == RestoreStackParts(next, items[1..], resolver);
      RestoredMembers(next, items[1..], resolver);
      var r := RestoreStackParts(next, items[1..], resolver).stack;
      assert next.parts[..|stack.parts|] == stack.parts;
      assert r.parts[..|stack.parts|] == r.parts[..|next.parts|][..|stack.parts|];
      var here: set<Part> := if cls.Some? && cls.value.s in resolver then {resolver[cls.value.s]} else {};
      assert ResolvedParts(items, resolver) == here + ResolvedParts(items[1..], resolver);
      assert forall q :: q in next.parts <==> q in stack.parts || q in here;
    }
  }

  /** What one zone entry does to the zone's controller, and what it returns and queues. */
  lemma RestorePartControllerEffect(z: Zone, stack: Stack, ctrl: Controller, entry: Obj, resolver: Resolver)
    requires RestorePartController(z, stack, ctrl, entry, resolver).result.Success?
    ensures var o := RestorePartController(z, stack, ctrl, entry, resolver);
      var r := o.result.value;
      && (HasKey(entry, SizeKey) ==> Get(entry, SizeKey) == Some(Number(r.size)) && o.controller.size == r.size)
      && (!HasKey(entry, SizeKey) ==> r.size == 0.0 && o.controller.size == ctrl.size)
      && o.controller.hidden ==
           (if o.stack.parts == [] then true
            else if HasKey(entry, HiddenKey) then Get(entry, HiddenKey) == Some(Bool(true))
            else if HasKey(entry, SizeKey) then false
            else ctrl.hidden)
      && o.controller.maximized == (!HasKey(entry, SizeKey) && ctrl.maximized)
      && (HasKey(entry, PartsKey) ==>
            && Get(entry, PartsKey).value.Array?
            && o.stack == RestoreStackParts(stack, Get(entry, PartsKey).value.items, resolver).stack)
      && (!HasKey(entry, PartsKey) ==> o.stack == stack)
      && (HasKey(entry, ActivePartKey) ==>
            && Get(entry, ActivePartKey).value.Str?
            && r.queued == Resolve(resolver, Get(entry, ActivePartKey).value.s))
      && (!HasKey(entry, ActivePartKey) ==> r.queued.None?)
  {
    var sizeV := Get(entry, SizeKey);
    var size := if sizeV.Some? then sizeV.value.n else 0.0;
    var calls1: seq<ControllerCall> := if sizeV.Some? then [SetSizeCall(z, size)] else [];
    var c1 := if sizeV.Some? then ctrl.SetSize(size) else ctrl;
    var hiddenV := Get(entry, HiddenKey);
    var calls2 := calls1 + if hiddenV.Some? then [SetHiddenCall(z, hiddenV.value.b)] else [];
    var c2 := if hiddenV.Some? then c1.SetHidden(hiddenV.value.b) else c1;
    assert RestorePartController(z, stack, ctrl, entry, resolver) ==
           RestoreStackEntry(z, stack, c2, calls2, size, entry, resolver);
    RestoreStackEntryEffect(z, stack, c2, calls2, size, entry, resolver);
  }

  lemma RestoreStackEntryEffect(z: Zone, stack: Stack, c: Controller, calls: seq<ControllerCall>, size: real,
                                entry: Obj, resolver: Resolver)
    requires RestoreStackEntry(z, stack, c, calls, size, entry, resolver).result.Success?
    ensures var o := RestoreStackEntry(z, stack, c, calls, size, entry, resolver);
      var r := o.result.value;
      && r.size == size
      && o.controller == (if o.stack.parts == [] then c.SetHidden(true) else c)
      && (HasKey(entry, PartsKey) ==>
            && Get(entry, PartsKey).value.Array?
            && o.stack == RestoreStackParts(stack, Get(entry, PartsKey).value.items, resolver).stack)
      && (!HasKey(entry, PartsKey) ==> o.stack == stack)
      && (HasKey(entry, ActivePartKey) ==>
            && Get(entry, ActivePartKey).value.Str?
            && r.queued == Resolve(resolver, Get(entry, ActivePartKey).value.s))
      && (!HasKey(entry, ActivePartKey) ==> r.queued.None?)
  {
  }

  lemma {:induction false} ReplayAppend(c: Controller, a: seq<ControllerCall>, b: seq<ControllerCall>)
    ensures Replay(c, a + b) == Replay(Replay(c, a), b)
    decreases |a|
  {
    if a == [] {
      assert a + b == b;
    } else {
      assert (a + b)[0] == a[0] && (a + b)[1..] == a[1..] + b;
      ReplayAppend(Perform(c, a[0]), a[1..], b);
    }
  }

  lemma ReplayOne(c: Controller, x: ControllerCall)
    ensures Replay(c, [x]) == Perform(c, x)
  {
    assert [x][1..] == [];
  }

  /**
   * The calls `restorePartController` reports are all made on the zone's own
   * controller, and replaying them on it gives the controller it leaves,
   * whether it returns or throws.
   */
  lemma RestoreCallsReplay(z: Zone, stack: Stack, ctrl: Controller, entry: Obj, resolver: Resolver)
    ensures var o := RestorePartController(z, stack, ctrl, entry, resolver);
      Replay(ctrl, o.calls) == o.controller && OnZone(o.calls, z)
  {
    RestoreCallsControllerOnly(z, stack, ctrl, entry, resolver);
    RestoreCallsReplayed(z, stack, ctrl, entry, resolver);
  }

  /** Every call in `calls` is made on zone `z`'s controller. */
  predicate OnZone(calls: seq<ControllerCall>, z: Zone) {
    forall i :: 0 <= i < |calls| ==> calls[i].zone == z
  }

  lemma RestoreCallsControllerOnly(z: Zone, stack: Stack, ctrl: Controller, entry: Obj, resolver: Resolver)
    ensures OnZone(RestorePartController(z, stack, ctrl, entry, resolver).calls, z)
  {
    var sizeV := Get(entry, SizeKey);
    if !(sizeV.Some? && !sizeV.value.Number?) {
      var size := if sizeV.Some? then sizeV.value.n else 0.0;
      var calls1: seq<ControllerCall> := if sizeV.Some? then [SetSizeCall(z, size)] else [];
      assert OnZone(calls1, z);
      var hiddenV := Get(entry, HiddenKey);
      if !(hiddenV.Some? && !hiddenV.value.Bool?) {
        var calls2 := calls1 + if hiddenV.Some? then [SetHiddenCall(z, hiddenV.value.b)] else [];
        assert OnZone(calls2, z);
        var c1 := if sizeV.Some? then ctrl.SetSize(size) else ctrl;
        var c2 := if hiddenV.Some? then c1.SetHidden(hiddenV.value.b) else c1;
        RestoreStackEntryOnZone(z, stack, c2, calls2, size, entry, resolver);
      }
    }
  }

  lemma RestoreStackEntryOnZone(z: Zone, stack: Stack, c: Controller, calls: seq<ControllerCall>,
                                size: real, entry: Obj, resolver: Resolver)
    requires OnZone(calls, z)
    ensures OnZone(RestoreStackEntry(z, stack, c, calls, size, entry, resolver).calls, z)
  {
    var o := RestoreStackEntry(z, stack, c, calls, size, entry, resolver);
    assert o.calls == calls || o.calls == calls + [SetHiddenCall(z, true)];
  }

  lemma RestoreCallsReplayed(z: Zone, stack: Stack, ctrl: Controller, entry: Obj, resolver: Resolver)
    ensures var o := RestorePartController(z, stack, ctrl, entry, resolver);
      Replay(ctrl, o.calls) == o.controller
  {
    var sizeV := Get(entry, SizeKey);
    if !(sizeV.Some? && !sizeV.value.Number?) {
      var size := if sizeV.Some? then sizeV.value.n else 0.0;
      ReplayStep(ctrl, [], sizeV.Some?, SetSizeCall(z, size));
      var calls1: seq<ControllerCall> := if sizeV.Some? then [SetSizeCall(z, size)] else [];
      assert [] + calls1 == calls1;
      var hiddenV := Get(entry, HiddenKey);
      if !(hiddenV.Some? && !hiddenV.value.Bool?) {
        ReplayStep(ctrl, calls1, hiddenV.Some?, SetHiddenCall(z, if hiddenV.Some? then hiddenV.value.b else false));
        var calls2 := calls1 + if hiddenV.Some? then [SetHiddenCall(z, hiddenV.value.b)] else [];
        var c2 := Replay(ctrl, calls2);
        RestoreStackEntryReplayed(z, stack, ctrl, c2, calls2, size, entry, resolver);
      }
    }
  }

  lemma RestoreStackEntryReplayed(z: Zone, stack: Stack, ctrl: Controller, c: Controller, calls: seq<ControllerCall>,
                                  size: real, entry: Obj, resolver: Resolver)
    requires Replay(ctrl, calls) == c
    ensures var o := RestoreStackEntry(z, stack, c, calls, size, entry, resolver);
      Replay(ctrl, o.calls) == o.controller
  {
    var o := RestoreStackEntry(z, stack, c, calls, size, entry, resolver);
    ReplayStep(ctrl, calls, o.stack.parts == [], SetHiddenCall(z, true));
  }

  /** A call made only when `made`, after `calls`. */
  lemma ReplayStep(c: Controller, calls: seq<ControllerCall>, made: bool, x: ControllerCall)
    ensures Replay(c, calls + if made then [x] else []) ==
              if made then Perform(Replay(c, calls), x) else Replay(c, calls)
  {
    ReplayAppend(c, calls, if made then [x] else []);
    ReplayOne(Replay(c, calls), x);
    assert Replay(Replay(c, calls), []) == Replay(c, calls);
  }

  /** `t` differs from `s` at most in which part each stack has active. */
  predicate SameButActives(s: PerspectiveState, t: PerspectiveState) {
    t == s.(partStacks := t.partStacks)
    && forall z :: t.partStacks.Get(z).parts == s.partStacks.Get(z).parts
  }

  /** The owner of a part depends only on the stacks' members. */
  lemma {:induction false} OwnerFollowsMembers(zones: seq<Zone>, a: PartStacks, b: PartStacks, p: Part)
    requires forall z :: a.Get(z).parts == b.Get(z).parts
    ensures FirstOwner(zones, a, p) == FirstOwner(zones, b, p)
    decreases |zones|
  {
    if zones != [] {
      OwnerFollowsMembers(zones[1..], a, b, p);
    }
  }

  /** The last part of `parts` that zone `z` owns in `stacks`. */
  function LastOwned(stacks: PartStacks, parts: seq<Part>, z: Zone): Option<Part>
    decreases |parts|
  {
    if parts == [] then None
    else
      var later := LastOwned(stacks, parts[1..], z);
      if later.Some? then later
      else if FindPartStackByPart(stacks, parts[0]) == Some(z) then Some(parts[0])
      else None
  }

  /**
   * The deferred activations change no stack's members, no controller and no
   * field of the perspective; each stack ends with the last queued part it
   * owns as its active part, owners being found on the final members.
   */
  lemma {:induction false} ActivateAllLastWins(s: PerspectiveState, parts: seq<Part>)
    ensures var t := ActivateAll(s, parts);
      && SameButActives(s, t)
      && forall z :: t.partStacks.Get(z).active ==
                       match LastOwned(s.partStacks, parts, z)
                       case Some(p) => Some(p)
                       case None => s.partStacks.Get(z).active
    decreases |parts|
  {
    if parts != [] {
      var s1 := SetActivePart(s, parts[0]);
      assert SameButActives(s, s1);
      ActivateAllLastWins(s1, parts[1..]);
      forall p | p in parts
        ensures FindPartStackByPart(s1.partStacks, p) == FindPartStackByPart(s.partStacks, p)
      {
        OwnerFollowsMembers(Zones, s1.partStacks, s.partStacks, p);
      }
      LastOwnedFollowsMembers(s1.partStacks, s.partStacks, parts[1..]);
    }
  }

  lemma {:induction false} LastOwnedFollowsMembers(a: PartStacks, b: PartStacks, parts: seq<Part>)
    requires forall z :: a.Get(z).parts == b.Get(z).parts
    ensures forall z :: LastOwned(a, parts, z) == LastOwned(b, parts, z)
    decreases |parts|
  {
    if parts != [] {
      OwnerFollowsMembers(Zones, a, b, parts[0]);
      LastOwnedFollowsMembers(a, b, parts[1..]);
    }
  }

  /** Fields that `loadState` never writes. */
  predicate TrackerKept(s: PerspectiveState, t: PerspectiveState) {
    && t.activePart == s.activePart
    && t.activePartBeforeChangePerspective == s.activePartBeforeChangePerspective
    && t.layoutState == s.layoutState
    && t.partCalls == s.partCalls
  }

  lemma {:induction false} LoadZonesKeepsTracker(s: PerspectiveState, entries: Obj, q: seq<Part>, resolver: Resolver)
    ensures TrackerKept(s, LoadZones(s, entries, q, resolver).state)
    decreases |entries|
  {
    if entries != [] && entries[0].value.Object? && ZoneNamed(entries[0].key).Some? {
      var z := ZoneNamed(entries[0].key).value;
      var o := RestorePartController(z, s.partStacks.Get(z), s.ControllerOf(z), entries[0].value.members, resolver);
      var t := ApplyZone(s, z, o);
      if o.result.Success? {
        var r := o.result.value;
        LoadZonesKeepsTracker(t.WithSavedSize(z, r.size), entries[1..],
                              q + (if r.queued.Some? then [r.queued.value] else []), resolver);
      }
    }
  }

  /**
   * `loadState` never assigns the perspective's `activePart` (only
   * `onActivePartChanged` does), nor the layout mode, nor the pre-switch slot.
   */
  lemma LoadKeepsTracker(s: PerspectiveState, snapshot: Obj, resolver: Resolver)
    ensures TrackerKept(s, LoadState(s, snapshot, resolver).state)
  {
    var stacksV := Get(snapshot, PartStacksKey);
    if stacksV.Some? && stacksV.value.Object? {
      var zones := LoadZones(s, stacksV.value.members, [], resolver);
      LoadZonesKeepsTracker(s, stacksV.value.members, [], resolver);
      ActivateAllLastWins(zones.state, zones.activeParts);
    } else {
      ActivateAllLastWins(s, []);
    }
  }

  /**
   * The root `ACTIVE_PART` is activated last: when it resolves to a part that
   * some stack holds, the first such stack ends with that part active,
   * whatever the zone entries queued.
   */
  lemma RootActiveWins(s: PerspectiveState, snapshot: Obj, resolver: Resolver, name: string, z: Zone)
    requires LoadState(s, snapshot, resolver).error.None?
    requires Get(snapshot, ActivePartKey) == Some(Str(name)) && name in resolver
    requires FindPartStackByPart(LoadState(s, snapshot, resolver).state.partStacks, resolver[name]) == Some(z)
    ensures LoadState(s, snapshot, resolver).state.partStacks.Get(z).active == Some(resolver[name])
  {
    var stacksV := Get(snapshot, PartStacksKey);
    var zones :=
      if stacksV.Some? then LoadZones(s, stacksV.value.members, [], resolver)
      else ZonesOutcome(s, [], None);
    var t := ActivateAll(zones.state, zones.activeParts);
    var p := resolver[name];
    assert LoadState(s, snapshot, resolver).state == SetActivePart(t, p);
    OwnerFollowsMembers(Zones, SetActivePart(t, p).partStacks, t.partStacks, p);
  }

  /** The deferred activations keep every active part a member of its stack. */
  lemma {:induction false} ActivateAllKeepsActives(s: PerspectiveState, parts: seq<Part>)
    requires ActivesAreMembers(s)
    ensures ActivesAreMembers(ActivateAll(s, parts))
    decreases |parts|
  {
    if parts != [] {
      DelegationsKeepActives(s, parts[0]);
      ActivateAllKeepsActives(SetActivePart(s, parts[0]), parts[1..]);
    }
  }

  /** Restoring `PARTS` keeps the active part and every part already there, error or not. */
  lemma {:induction false} RestoreStackPartsGrows(stack: Stack, items: seq<Value>, resolver: Resolver)
    ensures var r := RestoreStackParts(stack, items, resolver).stack;
      r.active == stack.active && forall q :: q in stack.parts ==> q in r.parts
    decreases |items|
  {
    if items != [] && items[0].Object? {
      var cls := Get(items[0].members, ClassKey);
      if !(cls.Some? && !cls.value.Str?) {
        var next :=
          if cls.None? then stack
          else match Resolve(resolver, cls.value.s)
            case None => stack
            case Some(p) => if stack.Contains(p) then stack else stack.Add(p);
        assert RestoreStackParts(stack, items, resolver) == RestoreStackParts(next, items[1..], resolver);
        RestoreStackPartsGrows(next, items[1..], resolver);
      }
    }
  }

  /** A zone entry keeps the stack's active part and every part already there, error or not. */
  lemma RestoreZoneGrows(z: Zone, stack: Stack, ctrl: Controller, entry: Obj, resolver: Resolver)
    ensures var o := RestorePartController(z, stack, ctrl, entry, resolver);
      o.stack.active == stack.active && forall q :: q in stack.parts ==> q in o.stack.parts
  {
    var partsV := Get(entry, PartsKey);
    if partsV.Some? && partsV.value.Array? {
      RestoreStackPartsGrows(stack, partsV.value.items, resolver);
    }
  }

  lemma {:induction false} LoadZonesKeepsActives(s: PerspectiveState, entries: Obj, q: seq<Part>, resolver: Resolver)
    requires ActivesAreMembers(s)
    ensures ActivesAreMembers(LoadZones(s, entries, q, resolver).state)
    decreases |entries|
  {
    if entries != [] && entries[0].value.Object? && ZoneNamed(entries[0].key).Some? {
      var z := ZoneNamed(entries[0].key).value;
      var o := RestorePartController(z, s.partStacks.Get(z), s.ControllerOf(z), entries[0].value.members, resolver);
      RestoreZoneGrows(z, s.partStacks.Get(z), s.ControllerOf(z), entries[0].value.members, resolver);
      SetStackKeepsActives(s, z, o.stack);
      var t := ApplyZone(s, z, o);
      assert t.partStacks == s.partStacks.Set(z, o.stack);
      if o.result.Success? {
        var r := o.result.value;
        LoadZonesKeepsActives(t.WithSavedSize(z, r.size), entries[1..],
                              q + (if r.queued.Some? then [r.queued.value] else []), resolver);
      }
    }
  }

  /**
   * `loadState` keeps every active part a member of its stack, whether it
   * throws or not: restoring only adds parts, and every activation goes
   * through the owner.
   */
  lemma LoadKeepsActives(s: PerspectiveState, snapshot: Obj, resolver: Resolver)
    requires ActivesAreMembers(s)
    ensures ActivesAreMembers(LoadState(s, snapshot, resolver).state)
  {
    var stacksV := Get(snapshot, PartStacksKey);
    if !(stacksV.Some? && !stacksV.value.Object?) {
      var zones :=
        if stacksV.Some? then LoadZones(s, stacksV.value.members, [], resolver)
        else ZonesOutcome(s, [], None);
      if stacksV.Some? {
        LoadZonesKeepsActives(s, stacksV.value.members, [], resolver);
      }
      if zones.error.None? {
        ActivateAllKeepsActives(zones.state, zones.activeParts);
        var t := ActivateAll(zones.state, zones.activeParts);
        var activeV := Get(snapshot, ActivePartKey);
        if activeV.Some? && activeV.value.Str? && activeV.value.s in resolver {
          DelegationsKeepActives(t, resolver[activeV.value.s]);
        }
      }
    }
  }

  /** The zone loop over `a + b` is the loop over `a`, then over `b` unless `a` threw. */
  lemma {:induction false} LoadZonesAppend(s: PerspectiveState, a: Obj, b: Obj, q: seq<Part>, resolver: Resolver)
    ensures var o := LoadZones(s, a, q, resolver);
      LoadZones(s, a + b, q, resolver) ==
        if o.error.Some? then o else LoadZones(o.state, b, o.activeParts, resolver)
    decreases |a|
  {
    if a == [] {
      assert a + b == b;
    } else {
      assert (a + b)[0] == a[0] && (a + b)[1..] == a[1..] + b;
      var key := a[0].key;
      var value := a[0].value;
      if value.Object? && ZoneNamed(key).Some? {
        var z := ZoneNamed(key).value;
        var o := RestorePartController(z, s.partStacks.Get(z), s.ControllerOf(z), value.members, resolver);
        var t := ApplyZone(s, z, o);
        if o.result.Success? {
          var r := o.result.value;
          LoadZonesAppend(t.WithSavedSize(z, r.size), a[1..], b,
                          q + (if r.queued.Some? then [r.queued.value] else []), resolver);
        }
      }
    }
  }

  /**
   * A zone key that names no zone throws: the zones before it stay restored,
   * no later zone is touched, and the queued activations never happen.
   */
  lemma UnknownZoneThrows(s: PerspectiveState, snapshot: Obj, resolver: Resolver, k: nat)
    requires Get(snapshot, PartStacksKey).Some? && Get(snapshot, PartStacksKey).value.Object?
    requires var entries := Get(snapshot, PartStacksKey).value.members;
      && k < |entries| && entries[k].value.Object? && ZoneNamed(entries[k].key).None?
      && LoadZones(s, entries[..k], [], resolver).error.None?
    ensures var entries := Get(snapshot, PartStacksKey).value.members;
      LoadState(s, snapshot, resolver) ==
        LoadOutcome(LoadZones(s, entries[..k], [], resolver).state, Some(UnknownZone(entries[k].key)))
  {
    var entries := Get(snapshot, PartStacksKey).value.members;
    assert entries == entries[..k] + entries[k..];
    LoadZonesAppend(s, entries[..k], entries[k..], [], resolver);
    assert entries[k..][0] == entries[k];
    var o := LoadZones(s, entries[..k], [], resolver);
    assert LoadZones(o.state, entries[k..], o.activeParts, resolver) ==
           ZonesOutcome(o.state, o.activeParts, Some(UnknownZone(entries[k].key)));
  }

  // --------------------------------------------------------------- round trip

  function Names(ps: seq<Part>): (r: seq<string>)
    ensures |r| == |ps|
  {
    seq(|ps|, i requires 0 <= i < |ps| => ps[i].name)
  }

  /** No two parts share a class name. */
  predicate NamesDistinct(ps: seq<Part>) {
    forall i, j :: 0 <= i < j < |ps| ==> ps[i].name != ps[j].name
  }

  /** Where the resolver knows a part's class, it gives back a part of that class. */
  predicate ResolvesFaithfully(ps: seq<Part>, resolver: Resolver) {
    forall p :: p in ps && p.name in resolver ==> resolver[p.name].name == p.name
  }

  /** The parts of `ps` whose class the resolver knows, in order. */
  function Known(ps: seq<Part>, resolver: Resolver): seq<Part>
    decreases |ps|
  {
    if ps == [] then []
    else (if ps[0].name in resolver then [ps[0]] else []) + Known(ps[1..], resolver)
  }

  /** The parts the resolver gives for the known classes of `ps`, in order. */
  function Resolvable(ps: seq<Part>, resolver: Resolver): seq<Part>
    decreases |ps|
  {
    if ps == [] then []
    else (if ps[0].name in resolver then [resolver[ps[0].name]] else []) + Resolvable(ps[1..], resolver)
  }

  /**
   * The resolved parts carry the class names of the known parts, in order;
   * when every class is known, those are all the parts.
   */
  lemma {:induction false} ResolvableNames(ps: seq<Part>, resolver: Resolver)
    requires ResolvesFaithfully(ps, resolver)
    ensures Names(Resolvable(ps, resolver)) == Names(Known(ps, resolver))
    ensures (forall p :: p in ps ==> p.name in resolver) ==> Known(ps, resolver) == ps
    decreases |ps|
  {
    if ps != [] {
      assert forall p :: p in ps[1..] ==> p in ps;
      ResolvableNames(ps[1..], resolver);
      var hr: seq<Part> := if ps[0].name in resolver then [resolver[ps[0].name]] else [];
      var hk: seq<Part> := if ps[0].name in resolver then [ps[0]] else [];
      assert Names(hr) == Names(hk);
      NamesAppend(hr, Resolvable(ps[1..], resolver));
      NamesAppend(hk, Known(ps[1..], resolver));
      if forall p :: p in ps ==> p.name in resolver {
        assert ps == [ps[0]] + ps[1..];
      }
    }
  }

  lemma NamesAppend(a: seq<Part>, b: seq<Part>)
    ensures Names(a + b) == Names(a) + Names(b)
  {
    assert forall i :: 0 <= i < |a + b| ==> Names(a + b)[i] == (Names(a) + Names(b))[i];
  }

  /**
   * A zone's parts whose middle class is unknown come back as the other
   * two, in order; when no class is known, nothing comes back.
   */
  lemma MissingClassSkipped(a: Part, b: Part, c: Part, resolver: Resolver)
    requires a.name in resolver && b.name !in resolver && c.name in resolver
    ensures Resolvable([a, b, c], resolver) == [resolver[a.name], resolver[c.name]]
  {
    assert [a, b, c][1..] == [b, c] && [b, c][1..] == [c] && [c][1..] == [];
    assert Resolvable([c], resolver) == [resolver[c.name]];
    assert Resolvable([b, c], resolver) == [resolver[c.name]];
  }

  lemma {:induction false} NoClassKnown(ps: seq<Part>, resolver: Resolver)
    requires forall p :: p in ps ==> p.name !in resolver
    ensures Resolvable(ps, resolver) == []
    decreases |ps|
  {
    if ps != [] {
      assert forall p :: p in ps[1..] ==> p in ps;
      NoClassKnown(ps[1..], resolver);
    }
  }

  /**
   * Restoring a `PARTS` array of distinct classes appends, in order, exactly
   * the parts the resolver gives for the classes it knows; the others are
   * skipped.
   */
  lemma {:induction false} PartsRoundTrip(stack: Stack, ps: seq<Part>, resolver: Resolver)
    requires NamesDistinct(ps) && ResolvesFaithfully(ps, resolver)
    requires forall q, i :: q in stack.parts && 0 <= i < |ps| ==> q.name != ps[i].name
    ensures RestoreStackParts(stack, PartEntries(ps), resolver) ==
              PartsOutcome(stack.(parts := stack.parts + Resolvable(ps, resolver)), None)
    decreases |ps|
  {
    if ps != [] {
      var here: seq<Part> := if ps[0].name in resolver then [resolver[ps[0].name]] else [];
      var next := stack.(parts := stack.parts + here);
      RestoreFirstEntry(stack, ps, resolver);
      assert forall p :: p in ps[1..] ==> p in ps;
      PartsRoundTrip(next, ps[1..], resolver);
      assert Resolvable(ps, resolver) == here + Resolvable(ps[1..], resolver);
      assert next.parts + Resolvable(ps[1..], resolver) == stack.parts + Resolvable(ps, resolver);
    }
  }

  /** The first entry of a `PARTS` array of fresh classes appends its part when the class is known. */
  lemma RestoreFirstEntry(stack: Stack, ps: seq<Part>, resolver: Resolver)
    requires ps != [] && NamesDistinct(ps) && ResolvesFaithfully(ps, resolver)
    requires forall q, i :: q in stack.parts && 0 <= i < |ps| ==> q.name != ps[i].name
    ensures var next := stack.(parts := stack.parts + if ps[0].name in resolver then [resolver[ps[0].name]] else []);
      && RestoreStackParts(stack, PartEntries(ps), resolver) == RestoreStackParts(next, PartEntries(ps[1..]), resolver)
      && NamesDistinct(ps[1..])
      && forall q, i :: q in next.parts && 0 <= i < |ps[1..]| ==> q.name != ps[1..][i].name
  {
    var items := PartEntries(ps);
    assert items[0] == PartEntry(ps[0]) && items[1..] == PartEntries(ps[1..]);
    assert Get(items[0].members, ClassKey) == Some(Str(ps[0].name));
    var here: seq<Part> := if ps[0].name in resolver then [resolver[ps[0].name]] else [];
    var next := stack.(parts := stack.parts + here);
    if ps[0].name in resolver {
      var q := resolver[ps[0].name];
      assert !stack.Contains(q);
      assert next == stack.Add(q);
    } else {
      assert next == stack;
    }
    forall q, i | q in next.parts && 0 <= i < |ps[1..]| ensures q.name != ps[1..][i].name {
      assert ps[1..][i] == ps[i + 1];
    }
    assert RestoreStackParts(stack, items, resolver) == RestoreStackParts(next, items[1..], resolver);
  }

  /**
   * One zone entry written by `getPartStackState`, loaded into an empty
   * stack: the resolvable members come back in order, the controller takes
   * the size (which clears its maximized state) and the hidden flag, forced
   * for a zone left empty, and the active part is queued.
   */
  lemma ZoneRoundTrip(z: Zone, target: Stack, c: Controller, stack: Stack, ctrl: Controller, resolver: Resolver)
    requires target.parts == []
    requires NamesDistinct(stack.parts) && ResolvesFaithfully(stack.parts, resolver)
    ensures var o := RestorePartController(z, target, c, EncodeStack(stack, ctrl), resolver);
      && o.result.Success? && o.result.value.size == ctrl.size
      && o.stack.parts == Resolvable(stack.parts, resolver)
      && o.controller == Controller(ctrl.size, Resolvable(stack.parts, resolver) == [] || ctrl.hidden, false)
      && o.result.value.queued ==
           (if stack.parts != [] && stack.active.Some? then Resolve(resolver, stack.active.value.name) else None)
  {
    EncodeStackShape(stack, ctrl);
    if stack.parts != [] {
      PartsRoundTrip(target, stack.parts, resolver);
    }
  }

  /** The state after the zone loop has loaded zone `z` of the snapshot of `s`. */
  function AfterZone(u: PerspectiveState, s: PerspectiveState, z: Zone, resolver: Resolver): PerspectiveState {
    var o := RestorePartController(z, u.partStacks.Get(z), u.ControllerOf(z),
                                   EncodeStack(s.partStacks.Get(z), s.ControllerOf(z)), resolver);
    ApplyZone(u, z, o).WithSavedSize(z, if o.result.Success? then o.result.value.size else 0.0)
  }

  /** What loading zone `z` of the snapshot of `s` queues for activation. */
  function QueuedAt(u: PerspectiveState, s: PerspectiveState, z: Zone, resolver: Resolver): seq<Part> {
    var o := RestorePartController(z, u.partStacks.Get(z), u.ControllerOf(z),
                                   EncodeStack(s.partStacks.Get(z), s.ControllerOf(z)), resolver);
    if o.result.Success? && o.result.value.queued.Some? then [o.result.value.queued.value] else []
  }

  /** Zone `z` of `a` holds what zone `z` of `s` was written with. */
  predicate ZoneRestored(a: PerspectiveState, s: PerspectiveState, z: Zone, resolver: Resolver) {
    && a.partStacks.Get(z).parts == Resolvable(s.partStacks.Get(z).parts, resolver)
    && a.ControllerOf(z) == Controller(s.ControllerOf(z).size,
                                       Resolvable(s.partStacks.Get(z).parts, resolver) == [] || s.ControllerOf(z).hidden,
                                       false)
    && a.SavedSize(z) == s.ControllerOf(z).size
  }

  /** One turn of the zone loop on an entry written by `getState`. */
  lemma ZoneRoundTripStep(u: PerspectiveState, s: PerspectiveState, z: Zone, rest: Obj, q: seq<Part>, resolver: Resolver)
    requires u.partStacks.Get(z).parts == []
    requires NamesDistinct(s.partStacks.Get(z).parts) && ResolvesFaithfully(s.partStacks.Get(z).parts, resolver)
    ensures var entry := Member(ZoneName(z), Object(EncodeStack(s.partStacks.Get(z), s.ControllerOf(z))));
      LoadZones(u, [entry] + rest, q, resolver) ==
        LoadZones(AfterZone(u, s, z, resolver), rest, q + QueuedAt(u, s, z, resolver), resolver)
    ensures var a := AfterZone(u, s, z, resolver);
      && a == u.(partStacks := a.partStacks, leftPartController := a.leftPartController,
                 rightPartController := a.rightPartController, belowPartController := a.belowPartController,
                 leftPartSize := a.leftPartSize, rightPartSize := a.rightPartSize, belowPartSize := a.belowPartSize,
                 controllerCalls := a.controllerCalls)
      && ZoneRestored(a, s, z, resolver)
      && forall z' :: z' != z ==>
           && a.partStacks.Get(z') == u.partStacks.Get(z')
           && a.ControllerOf(z') == u.ControllerOf(z')
           && a.SavedSize(z') == u.SavedSize(z')
  {
    ZoneRoundTrip(z, u.partStacks.Get(z), u.ControllerOf(z), s.partStacks.Get(z), s.ControllerOf(z), resolver);
    assert ZoneNamed(ZoneName(z)) == Some(z) by {
      match z
      case Navigation =>
      case Information =>
      case Tooling =>
    }
    var entry := Member(ZoneName(z), Object(EncodeStack(s.partStacks.Get(z), s.ControllerOf(z))));
    assert ([entry] + rest)[0] == entry && ([entry] + rest)[1..] == rest;
  }

  /** The zone loop of the round trip. */
  lemma RoundTripZones(s: PerspectiveState, t: PerspectiveState, resolver: Resolver)
    requires forall z :: t.partStacks.Get(z).parts == []
    requires forall z :: NamesDistinct(s.partStacks.Get(z).parts) && ResolvesFaithfully(s.partStacks.Get(z).parts, resolver)
    ensures var o := LoadZones(t, EncodeZones(s), [], resolver);
      && o.error.None?
      && ZoneRestored(o.state, s, Navigation, resolver)
      && ZoneRestored(o.state, s, Information, resolver)
      && ZoneRestored(o.state, s, Tooling, resolver)
  {
    var zs := EncodeZones(s);
    assert zs == [zs[0]] + [zs[1], zs[2]] && [zs[1], zs[2]] == [zs[1]] + [zs[2]] && [zs[2]] == [zs[2]] + [];
    ZoneRoundTripStep(t, s, Information, [zs[1], zs[2]], [], resolver);
    var t1 := AfterZone(t, s, Information, resolver);
    var q1 := [] + QueuedAt(t, s, Information, resolver);
    assert ZoneRestored(t1, s, Information, resolver);
    ZoneRoundTripStep(t1, s, Navigation, [zs[2]], q1, resolver);
    var t2 := AfterZone(t1, s, Navigation, resolver);
    var q2 := q1 + QueuedAt(t1, s, Navigation, resolver);
    assert ZoneRestored(t2, s, Information, resolver);
    assert ZoneRestored(t2, s, Navigation, resolver);
    ZoneRoundTripStep(t2, s, Tooling, [], q2, resolver);
    var t3 := AfterZone(t2, s, Tooling, resolver);
    var q3 := q2 + QueuedAt(t2, s, Tooling, resolver);
    assert ZoneRestored(t3, s, Information, resolver);
    assert ZoneRestored(t3, s, Navigation, resolver);
    assert ZoneRestored(t3, s, Tooling, resolver);
    assert LoadZones(t, zs, [], resolver) == ZonesOutcome(t3, q3, None);
  }

  /**
   * Activation is deferred: once the zone loop has run without error, the
   * rest of `loadState` (the queued activations, then the root
   * `ACTIVE_PART`) changes which part each stack has active and nothing else.
   */
  lemma ActivationChangesOnlyActives(s: PerspectiveState, snapshot: Obj, resolver: Resolver)
    requires Get(snapshot, PartStacksKey).Some? && Get(snapshot, PartStacksKey).value.Object?
    requires LoadZones(s, Get(snapshot, PartStacksKey).value.members, [], resolver).error.None?
    requires Get(snapshot, ActivePartKey).Some? ==> Get(snapshot, ActivePartKey).value.Str?
    ensures var zones := LoadZones(s, Get(snapshot, PartStacksKey).value.members, [], resolver);
      var r := LoadState(s, snapshot, resolver);
      r.error.None? && SameButActives(zones.state, r.state)
  {
    var zones := LoadZones(s, Get(snapshot, PartStacksKey).value.members, [], resolver);
    ActivateAllLastWins(zones.state, zones.activeParts);
    var t := ActivateAll(zones.state, zones.activeParts);
    var activeV := Get(snapshot, ActivePartKey);
    if activeV.Some? && activeV.value.s in resolver {
      var p := resolver[activeV.value.s];
      ActivateAllLastWins(t, [p]);
    }
  }

  /** What the round trip promises about zone `z` of the loaded state `b`. */
  predicate ZoneRoundTripped(b: PerspectiveState, s: PerspectiveState, z: Zone, resolver: Resolver) {
    var ps := s.partStacks.Get(z).parts;
    && b.partStacks.Get(z).parts == Resolvable(ps, resolver)
    && Names(b.partStacks.Get(z).parts) == Names(Known(ps, resolver))
    && ((forall p :: p in ps ==> p.name in resolver) ==> Names(b.partStacks.Get(z).parts) == Names(ps))
    && b.ControllerOf(z).size == s.ControllerOf(z).size
    && b.ControllerOf(z).hidden == (Resolvable(ps, resolver) == [] || s.ControllerOf(z).hidden)
    && !b.ControllerOf(z).maximized
    && b.SavedSize(z) == s.ControllerOf(z).size
  }

  lemma ActivationKeepsRestored(a: PerspectiveState, b: PerspectiveState, s: PerspectiveState, resolver: Resolver)
    requires SameButActives(a, b)
    requires forall z :: ResolvesFaithfully(s.partStacks.Get(z).parts, resolver)
    requires ZoneRestored(a, s, Navigation, resolver) && ZoneRestored(a, s, Information, resolver)
    requires ZoneRestored(a, s, Tooling, resolver)
    ensures forall z :: ZoneRoundTripped(b, s, z, resolver)
  {
    forall z ensures ZoneRoundTripped(b, s, z, resolver) {
      ResolvableNames(s.partStacks.Get(z).parts, resolver);
      match z
      case Navigation =>
      case Information =>
      case Tooling =>
    }
  }

  /** A part whose class the resolver knows contributes the resolved part. */
  lemma {:induction false} ResolvableHas(ps: seq<Part>, resolver: Resolver, p: Part)
    requires p in ps && p.name in resolver
    ensures resolver[p.name] in Resolvable(ps, resolver)
    decreases |ps|
  {
    if ps[0] != p {
      assert p in ps[1..];
      ResolvableHas(ps[1..], resolver, p);
    }
  }

  /**
   * Round trip: the snapshot `getState` writes, loaded into a perspective
   * whose stacks are empty, loads without error. Every zone gets back, in
   * order, parts of the same classes as its members whose class the
   * resolver knows (all of them when it knows every class), its size, not
   * maximized, and its hidden flag, which is set for a zone that comes back
   * empty; each saved size is the zone's size.
   */
  lemma RoundTrip(s: PerspectiveState, t: PerspectiveState, resolver: Resolver)
    requires s.activePart.Some?
    requires forall z :: t.partStacks.Get(z).parts == []
    requires forall z :: NamesDistinct(s.partStacks.Get(z).parts) && ResolvesFaithfully(s.partStacks.Get(z).parts, resolver)
    ensures var r := LoadState(t, EncodeState(s), resolver);
      && r.error.None?
      && forall z :: ZoneRoundTripped(r.state, s, z, resolver)
  {
    EncodeStateShape(s);
    RoundTripZones(s, t, resolver);
    ActivationChangesOnlyActives(t, EncodeState(s), resolver);
    ActivationKeepsRestored(LoadZones(t, EncodeZones(s), [], resolver).state,
                            LoadState(t, EncodeState(s), resolver).state, s, resolver);
  }

  /**
   * The active part of the round trip: when the part that was active sits
   * in zone `z` and its class resolves, the resolved part ends active in the
   * first stack that holds it. The perspective's own `activePart` is the
   * target's, since `loadState` never assigns it.
   */
  lemma RoundTripActive(s: PerspectiveState, t: PerspectiveState, resolver: Resolver, z: Zone)
    requires s.activePart.Some?
    requires forall z :: t.partStacks.Get(z).parts == []
    requires forall z :: NamesDistinct(s.partStacks.Get(z).parts) && ResolvesFaithfully(s.partStacks.Get(z).parts, resolver)
    requires s.activePart.value in s.partStacks.Get(z).parts && s.activePart.value.name in resolver
    ensures var r := LoadState(t, EncodeState(s), resolver);
      var q := resolver[s.activePart.value.name];
      && FindPartStackByPart(r.state.partStacks, q).Some?
      && r.state.partStacks.Get(FindPartStackByPart(r.state.partStacks, q).value).active == Some(q)
      && r.state.activePart == t.activePart
  {
    var r := LoadState(t, EncodeState(s), resolver);
    var name := s.activePart.value.name;
    var q := resolver[name];
    RoundTrip(s, t, resolver);
    assert ZoneRoundTripped(r.state, s, z, resolver);
    ResolvableHas(s.partStacks.Get(z).parts, resolver, s.activePart.value);
    FindPartStackByPartFirst(r.state.partStacks, q);
    EncodeStateShape(s);
    RootActiveWins(t, EncodeState(s), resolver, name, FindPartStackByPart(r.state.partStacks, q).value);
    LoadKeepsTracker(t, EncodeState(s), resolver);
  }

  /**
   * A concrete round trip: NAVIGATION holds `a` and `b` with `b` active, the
   * other zones are empty, and the resolver knows both classes. Loading the
   * snapshot into empty stacks gives NAVIGATION back as it was, and the
   * INFORMATION zone comes back empty and hidden.
   */
  lemma RoundTripScenario(s: PerspectiveState, t: PerspectiveState, a: Part, b: Part)
    requires a.name != b.name
    requires s.partStacks == PartStacks(Stack([a, b], Some(b)), EmptyStack, EmptyStack)
    requires s.activePart == Some(b)
    requires forall z :: t.partStacks.Get(z).parts == []
    ensures var r := LoadState(t, EncodeState(s), map[a.name := a, b.name := b]);
      && r.error.None?
      && r.state.partStacks.navigation == Stack([a, b], Some(b))
      && r.state.partStacks.information.parts == []
      && r.state.belowPartController.hidden
  {
    var m := map[a.name := a, b.name := b];
    var r := LoadState(t, EncodeState(s), m);
    assert [a, b][1..] == [b] && [b][1..] == [];
    assert Resolvable([b], m) == [b];
    assert Resolvable([a, b], m) == [a, b];
    assert s.partStacks.Get(Navigation).parts == [a, b];
    RoundTrip(s, t, m);
    assert ZoneRoundTripped(r.state, s, Navigation, m) && ZoneRoundTripped(r.state, s, Information, m);
    RoundTripActive(s, t, m, Navigation);
    FindPartStackByPartFirst(r.state.partStacks, b);
  }

}
