/**
 * `AbstractPerspective`: the general business logic of every perspective.
 * Each method is proved against the function of the same name in `Layout`
 * or `Snapshot`, on the state `Model()` reads off the fields.
 */
module Perspective {
  import opened Wrappers
  import opened Json
  import opened Workbench
  import Layout
  import Snapshot

  class AbstractPerspective {
    const perspectiveId: string
    /** The part resolver (`DynaProvider`). */
    const dynaProvider: Snapshot.Resolver

    var partStacks: PartStacks
    var leftPartController: Controller
    var rightPartController: Controller
    var belowPartController: Controller

    var leftPartSize: real
    var rightPartSize: real
    var belowPartSize: real

    var layoutState: LayoutState

    var activePart: Option<Part>
    var activePartBeforeChangePerspective: Option<Part>

    /** The calls made so far on parts' own `storeState`/`restoreState`. */
    var partCalls: seq<PartCall>
    /** The calls made so far on the three `WorkBenchPartController`s. */
    var controllerCalls: seq<ControllerCall>

    function Model(): Layout.PerspectiveState
      reads this
    {
      Layout.PerspectiveState(partStacks, leftPartController, rightPartController, belowPartController,
                              leftPartSize, rightPartSize, belowPartSize, layoutState,
                              activePart, activePartBeforeChangePerspective, partCalls, controllerCalls)
    }

    /** The perspective starts from its three stacks and their controllers, in `NORMAL` layout. */
    constructor (perspectiveId: string, dynaProvider: Snapshot.Resolver,
                 navigationPartStack: Stack, informationStack: Stack, toolingPartStack: Stack,
                 leftPartController: Controller, belowPartController: Controller, rightPartController: Controller)
      ensures this.perspectiveId == perspectiveId && this.dynaProvider == dynaProvider
      ensures Model() == Layout.PerspectiveState(
                PartStacks(navigationPartStack, informationStack, toolingPartStack),
                leftPartController, rightPartController, belowPartController,
                0.0, 0.0, 0.0, Normal, None, None, [], [])
    {
      this.perspectiveId := perspectiveId;
      this.dynaProvider := dynaProvider;
      partStacks := PartStacks(navigationPartStack, informationStack, toolingPartStack);
      this.leftPartController := leftPartController;
      this.belowPartController := belowPartController;
      this.rightPartController := rightPartController;
      leftPartSize, rightPartSize, belowPartSize := 0.0, 0.0, 0.0;
      layoutState := Normal;
      activePart, activePartBeforeChangePerspective := None, None;
      partCalls := [];
      controllerCalls := [];
    }

    // ------------------------------------------------------ active-part tracker

    method StoreState()
      modifies this
      ensures Model() == Layout.StoreState(old(Model()))
    {
      activePartBeforeChangePerspective := activePart;
      if activePartBeforeChangePerspective.Some? {
        partCalls := partCalls + [StoreStateCall(activePartBeforeChangePerspective.value)];
      }
    }

    method RestoreState()
      modifies this
      ensures Model() == Layout.RestoreState(old(Model()))
    {
      if activePartBeforeChangePerspective.Some? {
        var part := activePartBeforeChangePerspective.value;
        SetActivePart(part);
        partCalls := partCalls + [RestoreStateCall(part)];
      }
    }

    method OnActivePartChanged(part: Option<Part>)
      modifies this
      ensures Model() == Layout.OnActivePartChanged(old(Model()), part)
    {
      activePart := part;
    }

    // ---------------------------------------------------------------- placement

    method RemovePart(part: Part)
      modifies this
      ensures Model() == Layout.RemovePart(old(Model()), part)
    {
      var destPartStack := FindPartStackByPart(part);
      if destPartStack.Some? {
        partStacks := partStacks.Set(destPartStack.value, partStacks.Get(destPartStack.value).Remove(part));
      }
    }

    method HidePart(part: Part)
      modifies this
      ensures Model() == Layout.HidePart(old(Model()), part)
    {
      var destPartStack := FindPartStackByPart(part);
      if destPartStack.Some? {
        partStacks := partStacks.Set(destPartStack.value, partStacks.Get(destPartStack.value).Hide(part));
      }
    }

    /** `setActivePart(part)`. */
    method SetActivePart(part: Part)
      modifies this
      ensures Model() == Layout.SetActivePart(old(Model()), part)
    {
      var destPartStack := FindPartStackByPart(part);
      if destPartStack.Some? {
        partStacks := partStacks.Set(destPartStack.value, partStacks.Get(destPartStack.value).Activate(part));
      }
    }

    /** `setActivePart(part, type)`. */
    method SetActivePartIn(part: Part, zone: Zone)
      modifies this
      ensures Model() == Layout.SetActivePartIn(old(Model()), part, zone)
    {
      partStacks := partStacks.Set(zone, partStacks.Get(zone).Activate(part));
    }

    /**
     * The zone whose stack contains `part`, trying the zones in
     * `PartStackType.values()` order; None when no stack does.
     */
    method FindPartStackByPart(part: Part) returns (r: Option<Zone>)
      ensures r == Layout.FindPartStackByPart(partStacks, part)
      ensures r.Some? ==> partStacks.Get(r.value).Contains(part)
      ensures r.None? <==> forall z :: !partStacks.Get(z).Contains(part)
    {
      Layout.FindPartStackByPartFirst(partStacks, part);
      var i := 0;
      while i < |Zones|
        invariant 0 <= i <= |Zones|
        invariant Layout.FirstOwner(Zones[i..], partStacks, part) == Layout.FindPartStackByPart(partStacks, part)
      {
        if partStacks.Get(Zones[i]).Contains(part) {
          return Some(Zones[i]);
        }
        assert Zones[i..][1..] == Zones[i + 1..];
        i := i + 1;
      }
      return None;
    }

    /** `addPart(part, type)` and `addPart(part, type, constraint)`; the constraint is not modelled. */
    method AddPart(part: Part, zone: Zone)
      modifies this
      ensures Model() == Layout.AddPart(old(Model()), part, zone, perspectiveId)
    {
      var destPartStack := partStacks.Get(zone);
      var rules := part.rules;
      if |rules| == 0 && !destPartStack.Contains(part) {
        partStacks := partStacks.Set(zone, destPartStack.Add(part));
        return;
      }
      if perspectiveId in rules {
        partStacks := partStacks.Set(zone, destPartStack.Add(part));
      }
    }

    /** `getPartStack`: every modelled zone has a stack, so the result is never null. */
    method GetPartStack(zone: Zone) returns (r: Option<Stack>)
      ensures r == Some(partStacks.Get(zone))
    {
      r := Some(partStacks.Get(zone));
    }

    // -------------------------------------------------------------------- layout

    method MaximizeCentralPart()
      modifies this
      ensures Model() == Layout.MaximizeCentralPart(old(Model()))
    {
      if layoutState == MaximizedCentralPart {
        return;
      }
      leftPartSize := leftPartController.size;
      rightPartSize := rightPartController.size;
      belowPartSize := belowPartController.size;

      Call(SetHiddenCall(Navigation, true));
      Call(SetHiddenCall(Tooling, true));
      Call(SetHiddenCall(Information, true));

      layoutState := MaximizedCentralPart;
    }

    method MaximizeBottomPart()
      modifies this
      ensures Model() == Layout.MaximizeBottomPart(old(Model()))
    {
      if layoutState == MaximizedBottomPart {
        return;
      }
      leftPartSize := leftPartController.size;
      rightPartSize := rightPartController.size;
      belowPartSize := belowPartController.size;

      Call(SetHiddenCall(Navigation, true));
      Call(SetHiddenCall(Tooling, true));
      Call(MaximizeCall(Information));

      layoutState := MaximizedBottomPart;
    }

    /** One call on the controller of `call.zone`, recorded in `controllerCalls`. */
    method Call(call: ControllerCall)
      modifies this
      ensures Model() == old(Model()).Call(call)
    {
      match call.zone {
        case Navigation => leftPartController := Perform(leftPartController, call);
        case Information => belowPartController := Perform(belowPartController, call);
        case Tooling => rightPartController := Perform(rightPartController, call);
      }
      controllerCalls := controllerCalls + [call];
    }

    method RestoreParts()
      modifies this
      ensures Model() == Layout.RestoreParts(old(Model()))
    {
      if layoutState == Normal {
        return;
      }
      Call(SetSizeCall(Navigation, leftPartSize));
      Call(SetSizeCall(Tooling, rightPartSize));
      Call(SetSizeCall(Information, belowPartSize));

      layoutState := Normal;
    }

    // -------------------------------------------------------------------- codec

    /** `getState`: the active part must be set, as Java dereferences it. */
    method GetState() returns (state: Obj)
      requires activePart.Some?
      ensures state == Snapshot.EncodeState(Model())
    {
      Snapshot.KeysDistinct();
      assert partStacks.Get(Information) == partStacks.information;
      assert partStacks.Get(Navigation) == partStacks.navigation;
      assert partStacks.Get(Tooling) == partStacks.tooling;
      var information := GetPartStackState(partStacks.Get(Information), belowPartController);
      var navigation := GetPartStackState(partStacks.Get(Navigation), leftPartController);
      var tooling := GetPartStackState(partStacks.Get(Tooling), rightPartController);
      var stacks := PutAbsent([], Member(ZoneName(Information), Object(information)));
      stacks := PutAbsent(stacks, Member(ZoneName(Navigation), Object(navigation)));
      stacks := PutAbsent(stacks, Member(ZoneName(Tooling), Object(tooling)));
      assert stacks == Snapshot.EncodeZones(Model());
      // Java puts PART_STACKS before filling it through the reference; the
      // resulting tree is the same.
      state := PutAbsent([], Member(Snapshot.ActivePartKey, Str(activePart.value.name)));
      state := PutAbsent(state, Member(Snapshot.PartStacksKey, Object(stacks)));
    }

    /** The `PARTS` array of `getPartStackState`: one `{CLASS: name}` per part, in order. */
    method PartsState(parts: seq<Part>) returns (entries: seq<Value>)
      ensures entries == Snapshot.PartEntries(parts)
    {
      entries := [];
      var i := 0;
      while i < |parts|
        invariant 0 <= i <= |parts| && |entries| == i
        invariant forall j :: 0 <= j < i ==> entries[j] == Snapshot.PartEntry(parts[j])
      {
        var presenterState := Put([], Snapshot.ClassKey, Str(parts[i].name));
        entries := ArraySet(entries, i, Object(presenterState));
        i := i + 1;
      }
    }

    /** `getPartStackState`. */
    method GetPartStackState(partStack: Stack, partController: Controller) returns (state: Obj)
      ensures state == Snapshot.EncodeStack(partStack, partController)
    {
      Snapshot.KeysDistinct();
      state := PutAbsent([], Member(Snapshot.SizeKey, Number(partController.size)));
      if partStack.parts == [] {
        state := PutAbsent(state, Member(Snapshot.HiddenKey, Bool(true)));
      } else {
        if partStack.active.Some? {
          state := PutAbsent(state, Member(Snapshot.ActivePartKey, Str(partStack.active.value.name)));
        }
        state := PutAbsent(state, Member(Snapshot.HiddenKey, Bool(partController.hidden)));
        var parts := PartsState(partStack.parts);
        // Java puts PARTS before filling it through the reference; same tree.
        state := PutAbsent(state, Member(Snapshot.PartsKey, Array(parts)));
      }
    }

    /** `put` of a key the object does not have yet: the member is appended. */
    static method PutAbsent(o: Obj, m: Member) returns (r: Obj)
      requires forall i :: 0 <= i < |o| ==> o[i].key != m.key
      ensures r == o + [m]
    {
      Json.PutFresh(o, m.key, m.value);
      r := Put(o, m.key, m.value);
    }

    /** The controller of `zone`'s panel. */
    function ZoneController(zone: Zone): Controller
      reads this
    {
      Model().ControllerOf(zone)
    }

    /**
     * Stores a zone's stack and controller back into the perspective, with
     * the calls that led the controller there.
     */
    method Commit(zone: Zone, stack: Stack, c: Controller, calls: seq<ControllerCall>)
      modifies this
      ensures Model() == old(Model()).(partStacks := old(partStacks).Set(zone, stack),
                                       controllerCalls := old(controllerCalls) + calls).WithController(zone, c)
    {
      partStacks := partStacks.Set(zone, stack);
      controllerCalls := controllerCalls + calls;
      match zone {
        case Navigation => leftPartController := c;
        case Information => belowPartController := c;
        case Tooling => rightPartController := c;
      }
    }

    /** Stores the size `loadState` saves for a zone. */
    method SetSavedSize(zone: Zone, size: real)
      modifies this
      ensures Model() == old(Model()).WithSavedSize(zone, size)
    {
      match zone {
        case Navigation => leftPartSize := size;
        case Information => belowPartSize := size;
        case Tooling => rightPartSize := size;
      }
    }

    /** `loadState`; an exception Java throws is the returned error. */
    method LoadState(state: Obj) returns (error: Option<Snapshot.LoadError>)
      modifies this
      ensures Snapshot.LoadOutcome(Model(), error) == Snapshot.LoadState(old(Model()), state, dynaProvider)
    {
      error := None;
      var stacksV := Get(state, Snapshot.PartStacksKey);
      if stacksV.Some? {
        if !stacksV.value.Object? {
          return Some(Snapshot.TypeMismatch(Snapshot.PartStacksKey));
        }
        var part_stacks := stacksV.value.members;
        var activeParts: seq<Part> := [];
        var i := 0;
        while i < |part_stacks|
          invariant 0 <= i <= |part_stacks|
          invariant Snapshot.LoadZones(Model(), part_stacks[i..], activeParts, dynaProvider)
                 == Snapshot.LoadZones(old(Model()), part_stacks, [], dynaProvider)
        {
          assert part_stacks[i..][0] == part_stacks[i] && part_stacks[i..][1..] == part_stacks[i + 1..];
          var partStackType := part_stacks[i].key;
          var partStack := part_stacks[i].value;
          if !partStack.Object? {
            return Some(Snapshot.TypeMismatch(partStackType));
          }
          var zone := ZoneNamed(partStackType);
          if zone.None? {
            return Some(Snapshot.UnknownZone(partStackType));
          }
          ghost var before := Model();
          var restored := RestorePartController(zone.value, partStack.members);
          ghost var o := Snapshot.RestorePartController(zone.value, before.partStacks.Get(zone.value),
                                                        before.ControllerOf(zone.value), partStack.members, dynaProvider);
          assert Model() == Snapshot.ApplyZone(before, zone.value, o);
          if restored.Failure? {
            return Some(restored.error);
          }
          SetSavedSize(zone.value, restored.value.size);
          var queued := if restored.value.queued.Some? then [restored.value.queued.value] else [];
          activeParts := activeParts + queued;
          i := i + 1;
        }
        ghost var loaded := Model();
        var j := 0;
        while j < |activeParts|
          invariant 0 <= j <= |activeParts|
          invariant Snapshot.ActivateAll(Model(), activeParts[j..]) == Snapshot.ActivateAll(loaded, activeParts)
        {
          assert activeParts[j..][0] == activeParts[j] && activeParts[j..][1..] == activeParts[j + 1..];
          SetActivePart(activeParts[j]);
          j := j + 1;
        }
      }
      var activeV := Get(state, Snapshot.ActivePartKey);
      if activeV.Some? {
        if !activeV.value.Str? {
          return Some(Snapshot.TypeMismatch(Snapshot.ActivePartKey));
        }
        var provider := Snapshot.Resolve(dynaProvider, activeV.value.s);
        if provider.Some? {
          SetActivePart(provider.value);
        }
      }
    }

    /**
     * The `PARTS` loop of `restorePartController` on a stack: each resolved
     * class not yet in the stack is added; returns the stack reached and
     * the error thrown, if any.
     */
    method RestoreStackParts(partStack: Stack, parts: seq<Value>) returns (o: Snapshot.PartsOutcome)
      ensures o == Snapshot.RestoreStackParts(partStack, parts, dynaProvider)
    {
      var stack := partStack;
      var i := 0;
      while i < |parts|
        invariant 0 <= i <= |parts|
        invariant Snapshot.RestoreStackParts(stack, parts[i..], dynaProvider)
               == Snapshot.RestoreStackParts(partStack, parts, dynaProvider)
      {
        assert parts[i..][0] == parts[i] && parts[i..][1..] == parts[i + 1..];
        var value := parts[i];
        if !value.Object? {
          return Snapshot.PartsOutcome(stack, Some(Snapshot.TypeMismatch(Snapshot.PartsKey)));
        }
        var classV := Get(value.members, Snapshot.ClassKey);
        if classV.Some? {
          if !classV.value.Str? {
            return Snapshot.PartsOutcome(stack, Some(Snapshot.TypeMismatch(Snapshot.ClassKey)));
          }
          var provider := Snapshot.Resolve(dynaProvider, classV.value.s);
          if provider.Some? {
            var partPresenter := provider.value;
            if !stack.Contains(partPresenter) {
              stack := stack.Add(partPresenter);
            }
          }
        }
        i := i + 1;
      }
      return Snapshot.PartsOutcome(stack, None);
    }

    /**
     * `restorePartController` on the stack and controller of `zone`: returns
     * the size to save and the part to activate later, or the error thrown;
     * what it changed before throwing stays changed.
     */
    method RestorePartController(zone: Zone, partStack: Obj) returns (r: Result<Snapshot.Restored, Snapshot.LoadError>)
      modifies this
      ensures var o := Snapshot.RestorePartController(zone, old(partStacks.Get(zone)), old(ZoneController(zone)),
                                                      partStack, dynaProvider);
        && Model() == Snapshot.ApplyZone(old(Model()), zone, o)
        && r == o.result
    {
      var stack := partStacks.Get(zone);
      var controller := ZoneController(zone);
      var calls: seq<ControllerCall> := [];
      var size := 0.0;
      var sizeV := Get(partStack, Snapshot.SizeKey);
      if sizeV.Some? {
        if !sizeV.value.Number? {
          Commit(zone, stack, controller, calls);
          return Failure(Snapshot.TypeMismatch(Snapshot.SizeKey));
        }
        size := sizeV.value.n;
        controller := controller.SetSize(size);
        calls := [SetSizeCall(zone, size)];
      }

      var hiddenV := Get(partStack, Snapshot.HiddenKey);
      if hiddenV.Some? {
        if !hiddenV.value.Bool? {
          Commit(zone, stack, controller, calls);
          return Failure(Snapshot.TypeMismatch(Snapshot.HiddenKey));
        }
        controller := controller.SetHidden(hiddenV.value.b);
        calls := calls + [SetHiddenCall(zone, hiddenV.value.b)];
      }

      assert calls == (if sizeV.Some? then [SetSizeCall(zone, size)] else [])
                      + (if hiddenV.Some? then [SetHiddenCall(zone, hiddenV.value.b)] else []);
      r := RestoreStackEntry(zone, stack, controller, calls, size, partStack);
    }

    /**
     * The rest of `restorePartController`, from `PARTS` on, once `SIZE` and
     * `HIDDEN` have left the zone's controller at `controller` with the calls
     * `calls`; nothing has been stored back yet.
     */
    method RestoreStackEntry(zone: Zone, partStack0: Stack, controller0: Controller, calls0: seq<ControllerCall>,
                             size: real, partStack: Obj)
      returns (r: Result<Snapshot.Restored, Snapshot.LoadError>)
      modifies this
      ensures var o := Snapshot.RestoreStackEntry(zone, partStack0, controller0, calls0, size, partStack, dynaProvider);
        && Model() == Snapshot.ApplyZone(old(Model()), zone, o)
        && r == o.result
    {
      var stack, controller, calls := partStack0, controller0, calls0;
      var partsV := Get(partStack, Snapshot.PartsKey);
      if partsV.Some? {
        if !partsV.value.Array? {
          Commit(zone, stack, controller, calls);
          return Failure(Snapshot.TypeMismatch(Snapshot.PartsKey));
        }
        var restored := RestoreStackParts(stack, partsV.value.items);
        stack := restored.stack;
        if restored.error.Some? {
          Commit(zone, stack, controller, calls);
          return Failure(restored.error.value);
        }
      }

      // hide the stack when none of its parts could be restored
      if stack.parts == [] {
        controller := controller.SetHidden(true);
        calls := calls + [SetHiddenCall(zone, true)];
      }

      var queued: Option<Part> := None;
      var activeV := Get(partStack, Snapshot.ActivePartKey);
      if activeV.Some? {
        if !activeV.value.Str? {
          Commit(zone, stack, controller, calls);
          return Failure(Snapshot.TypeMismatch(Snapshot.ActivePartKey));
        }
        queued := Snapshot.Resolve(dynaProvider, activeV.value.s);
      }
      Commit(zone, stack, controller, calls);
      return Success(Snapshot.Restored(size, queued));
    }
  }
}
