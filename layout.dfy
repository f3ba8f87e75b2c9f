/**
 * The state of an `AbstractPerspective` as a value, and what each of its
 * layout, placement and active-part operations does to it.
 */
module Layout {
  import opened Wrappers
  import opened Workbench

  /**
   * The perspective's fields, plus two call logs, oldest first: `partCalls`,
   * the calls it has made on the `storeState` and `restoreState` hooks of
   * parts, and `controllerCalls`, the calls it has made on zone controllers.
   */
  datatype PerspectiveState = PerspectiveState(
    partStacks: PartStacks,
    leftPartController: Controller,
    rightPartController: Controller,
    belowPartController: Controller,
    leftPartSize: real,
    rightPartSize: real,
    belowPartSize: real,
    layoutState: LayoutState,
    activePart: Option<Part>,
    activePartBeforeChangePerspective: Option<Part>,
    partCalls: seq<PartCall>,
    controllerCalls: seq<ControllerCall>)
  {
    /** The controller of a zone: navigation is left, information below, tooling right. */
    function ControllerOf(z: Zone): Controller {
      match z
      case Navigation => leftPartController
      case Information => belowPartController
      case Tooling => rightPartController
    }

    function WithController(z: Zone, c: Controller): (r: PerspectiveState)
      ensures r.ControllerOf(z) == c
      ensures forall z' :: z' != z ==> r.ControllerOf(z') == ControllerOf(z')
    {
      match z
      case Navigation => this.(leftPartController := c)
      case Information => this.(belowPartController := c)
      case Tooling => this.(rightPartController := c)
    }

    /** The size field saved for a zone's controller. */
    function SavedSize(z: Zone): real {
      match z
      case Navigation => leftPartSize
      case Information => belowPartSize
      case Tooling => rightPartSize
    }

    function WithSavedSize(z: Zone, size: real): (r: PerspectiveState)
      ensures r.SavedSize(z) == size
      ensures forall z' :: z' != z ==> r.SavedSize(z') == SavedSize(z')
    {
      match z
      case Navigation => this.(leftPartSize := size)
      case Information => this.(belowPartSize := size)
      case Tooling => this.(rightPartSize := size)
    }

    /** A call on the controller of `c.zone`: performed, and logged. */
    function Call(c: ControllerCall): PerspectiveState {
      WithController(c.zone, Perform(ControllerOf(c.zone), c)).(controllerCalls := controllerCalls + [c])
    }
  }

  // ---------------------------------------------------------------- layout

  /** `maximizeCentralPart`. */
  function MaximizeCentralPart(s: PerspectiveState): PerspectiveState {
    if s.layoutState == MaximizedCentralPart then s
    else s.(leftPartSize := s.leftPartController.size,
            rightPartSize := s.rightPartController.size,
            belowPartSize := s.belowPartController.size)
          .Call(SetHiddenCall(Navigation, true))
          .Call(SetHiddenCall(Tooling, true))
          .Call(SetHiddenCall(Information, true))
          .(layoutState := MaximizedCentralPart)
  }

  /** `maximizeBottomPart`. */
  function MaximizeBottomPart(s: PerspectiveState): PerspectiveState {
    if s.layoutState == MaximizedBottomPart then s
    else s.(leftPartSize := s.leftPartController.size,
            rightPartSize := s.rightPartController.size,
            belowPartSize := s.belowPartController.size)
          .Call(SetHiddenCall(Navigation, true))
          .Call(SetHiddenCall(Tooling, true))
          .Call(MaximizeCall(Information))
          .(layoutState := MaximizedBottomPart)
  }

  /** `restoreParts`. */
  function RestoreParts(s: PerspectiveState): PerspectiveState {
    if s.layoutState == Normal then s
    else s.Call(SetSizeCall(Navigation, s.leftPartSize))
          .Call(SetSizeCall(Tooling, s.rightPartSize))
          .Call(SetSizeCall(Information, s.belowPartSize))
          .(layoutState := Normal)
  }

  /** Everything but the controllers, their call log, the saved sizes and the layout mode. */
  predicate SameOutsideLayout(s: PerspectiveState, t: PerspectiveState) {
    s.partStacks == t.partStacks && s.activePart == t.activePart
    && s.activePartBeforeChangePerspective == t.activePartBeforeChangePerspective
    && s.partCalls == t.partCalls
  }

  lemma MaximizeCentralPartEffect(s: PerspectiveState)
    ensures var r := MaximizeCentralPart(s);
      && MaximizeCentralPart(r) == r
      && (s.layoutState == MaximizedCentralPart ==> r == s)
      && (s.layoutState != MaximizedCentralPart ==>
            && r.leftPartSize == s.leftPartController.size
            && r.rightPartSize == s.rightPartController.size
            && r.belowPartSize == s.belowPartController.size
            && r.controllerCalls == s.controllerCalls +
                 [SetHiddenCall(Navigation, true), SetHiddenCall(Tooling, true), SetHiddenCall(Information, true)]
            && r.leftPartController == s.leftPartController.(hidden := true)
            && r.rightPartController == s.rightPartController.(hidden := true)
            && r.belowPartController == s.belowPartController.(hidden := true)
            && r.layoutState == MaximizedCentralPart
            && SameOutsideLayout(r, s))
  {
  }

  lemma MaximizeBottomPartEffect(s: PerspectiveState)
    ensures var r := MaximizeBottomPart(s);
      && MaximizeBottomPart(r) == r
      && (s.layoutState == MaximizedBottomPart ==> r == s)
      && (s.layoutState != MaximizedBottomPart ==>
            && r.leftPartSize == s.leftPartController.size
            && r.rightPartSize == s.rightPartController.size
            && r.belowPartSize == s.belowPartController.size
            && r.controllerCalls == s.controllerCalls +
                 [SetHiddenCall(Navigation, true), SetHiddenCall(Tooling, true), MaximizeCall(Information)]
            && r.leftPartController == s.leftPartController.(hidden := true)
            && r.rightPartController == s.rightPartController.(hidden := true)
            && r.belowPartController == s.belowPartController.(maximized := true)
            && r.layoutState == MaximizedBottomPart
            && SameOutsideLayout(r, s))
  {
  }

  /**
   * `restoreParts` only resizes: its calls are three `setSize` with the
   * saved sizes and no `setHidden`, so the panels come back through the
   * side effect of resizing.
   */
  lemma RestorePartsEffect(s: PerspectiveState)
    ensures var r := RestoreParts(s);
      && r.layoutState == Normal
      && RestoreParts(r) == r
      && (s.layoutState == Normal ==> r == s)
      && (s.layoutState != Normal ==>
            && r.controllerCalls == s.controllerCalls +
                 [SetSizeCall(Navigation, s.leftPartSize), SetSizeCall(Tooling, s.rightPartSize),
                  SetSizeCall(Information, s.belowPartSize)]
            && (forall z :: r.ControllerOf(z) == Controller(s.SavedSize(z), false, false)))
      && (forall i :: |s.controllerCalls| <= i < |r.controllerCalls| ==> r.controllerCalls[i].SetSizeCall?)
      && (forall z :: r.SavedSize(z) == s.SavedSize(z))
      && SameOutsideLayout(r, s)
  {
  }

  /**
   * Maximizing from `NORMAL` and restoring gives every panel back the size
   * it had, shown and not maximized, whatever hiding does to the sizes.
   */
  lemma MaximizeThenRestore(s: PerspectiveState, c: LayoutCall)
    requires s.layoutState == Normal && c != Restore
    ensures var r := RestoreParts(ApplyLayout(s, c));
      && r.layoutState == Normal
      && (forall z :: r.ControllerOf(z) == Controller(s.ControllerOf(z).size, false, false))
      && SameOutsideLayout(r, s)
  {
    var m := ApplyLayout(s, c);
    assert forall z :: m.SavedSize(z) == s.ControllerOf(z).size;
    RestorePartsEffect(m);
  }

  /** The three layout operations, for reasoning about sequences of calls. */
  datatype LayoutCall = MaximizeCentral | MaximizeBottom | Restore

  function ApplyLayout(s: PerspectiveState, c: LayoutCall): PerspectiveState {
    match c
    case MaximizeCentral => MaximizeCentralPart(s)
    case MaximizeBottom => MaximizeBottomPart(s)
    case Restore => RestoreParts(s)
  }

  function RunLayout(s: PerspectiveState, calls: seq<LayoutCall>): PerspectiveState
    decreases |calls|
  {
    if calls == [] then s else RunLayout(ApplyLayout(s, calls[0]), calls[1..])
  }

  /**
   * The size a zone goes back to: the controller's own in `NORMAL`, the
   * saved one while maximized.
   */
  function BaseSize(s: PerspectiveState, z: Zone): real {
    if s.layoutState == Normal then s.ControllerOf(z).size else s.SavedSize(z)
  }

  /**
   * A sequence of layout calls with a restore between any two maximizes;
   * `maximized` says whether the perspective starts maximized.
   */
  predicate RestoresBetween(maximized: bool, calls: seq<LayoutCall>)
    decreases |calls|
  {
    calls == [] ||
    if calls[0] == Restore then RestoresBetween(false, calls[1..])
    else !maximized && RestoresBetween(true, calls[1..])
  }

  /**
   * No size drifts across maximize/restore cycles: as long as every maximize
   * starts from `NORMAL`, each zone keeps the size it goes back to, so each
   * return to `NORMAL` shows the sizes of the start. This holds however
   * hiding and maximizing change the sizes the controllers report, because
   * the sizes are captured before the panels are hidden.
   */
  lemma {:induction false} NoSizeDrift(s: PerspectiveState, calls: seq<LayoutCall>)
    requires RestoresBetween(s.layoutState != Normal, calls)
    ensures var r := RunLayout(s, calls);
      && (forall z :: BaseSize(r, z) == BaseSize(s, z))
      && (s.layoutState == Normal && r.layoutState == Normal ==>
            forall z :: r.ControllerOf(z).size == s.ControllerOf(z).size)
      && SameOutsideLayout(r, s)
    decreases |calls|
  {
    if calls != [] {
      var t := ApplyLayout(s, calls[0]);
      assert t.layoutState == Normal <==> calls[0] == Restore;
      assert forall z :: BaseSize(t, z) == BaseSize(s, z);
      NoSizeDrift(t, calls[1..]);
      var r := RunLayout(t, calls[1..]);
      if s.layoutState == Normal && r.layoutState == Normal {
        forall z ensures r.ControllerOf(z).size == s.ControllerOf(z).size {
          assert BaseSize(r, z) == BaseSize(s, z);
        }
      }
    }
  }

  /**
   * The cross-mode path: `maximizeBottomPart` straight after
   * `maximizeCentralPart` saves the sizes that the panels report once
   * hidden, not the ones saved before hiding, and leaves the bottom panel
   * hidden while maximizing it. The sizes then survive only because
   * `setHidden` keeps the size in this controller model.
   */
  lemma CrossModeRecapture(s: PerspectiveState)
    requires s.layoutState == Normal
    ensures var m := MaximizeCentralPart(s);
      var r := MaximizeBottomPart(m);
      && r.layoutState == MaximizedBottomPart
      && (forall z :: r.SavedSize(z) == m.ControllerOf(z).size)
      && r.belowPartController.hidden && r.belowPartController.maximized
      && r.controllerCalls == s.controllerCalls +
           [SetHiddenCall(Navigation, true), SetHiddenCall(Tooling, true), SetHiddenCall(Information, true),
            SetHiddenCall(Navigation, true), SetHiddenCall(Tooling, true), MaximizeCall(Information)]
  {
    MaximizeCentralPartEffect(s);
    MaximizeBottomPartEffect(MaximizeCentralPart(s));
  }

  // ------------------------------------------------------------- placement

  /** The first zone of `zones` whose stack contains `p`. */
  function FirstOwner(zones: seq<Zone>, stacks: PartStacks, p: Part): (r: Option<Zone>)
    ensures r.None? <==> forall j :: 0 <= j < |zones| ==> !stacks.Get(zones[j]).Contains(p)
    ensures r.Some? ==> exists k :: && 0 <= k < |zones| && zones[k] == r.value
                                    && stacks.Get(zones[k]).Contains(p)
                                    && forall j :: 0 <= j < k ==> !stacks.Get(zones[j]).Contains(p)
    decreases |zones|
  {
    if zones == [] then None
    else if stacks.Get(zones[0]).Contains(p) then Some(zones[0])
    else
      var r := FirstOwner(zones[1..], stacks, p);
      assert r.Some? ==> forall k :: 0 <= k < |zones| - 1 && zones[1..][k] == r.value ==> zones[k + 1] == r.value;
      r
  }

  /** `findPartStackByPart`: the owning zone, in `PartStackType.values()` order. */
  function FindPartStackByPart(stacks: PartStacks, p: Part): Option<Zone> {
    FirstOwner(Zones, stacks, p)
  }

  lemma FindPartStackByPartFirst(stacks: PartStacks, p: Part)
    ensures var r := FindPartStackByPart(stacks, p);
      && (r.None? <==> forall z :: !stacks.Get(z).Contains(p))
      && (r == Some(Navigation) <==> stacks.navigation.Contains(p))
      && (r == Some(Information) <==> !stacks.navigation.Contains(p) && stacks.information.Contains(p))
      && (r == Some(Tooling) <==>
            !stacks.navigation.Contains(p) && !stacks.information.Contains(p) && stacks.tooling.Contains(p))
  {
    var r := FindPartStackByPart(stacks, p);
    assert Zones[0] == Navigation && Zones[1] == Information && Zones[2] == Tooling;
    if r.None? {
      forall z ensures !stacks.Get(z).Contains(p) {
        assert z == Zones[0] || z == Zones[1] || z == Zones[2];
      }
    }
  }

  /** Apply `f` to the owner of `p`, if any. */
  function OnOwner(s: PerspectiveState, p: Part, f: Stack -> Stack): PerspectiveState {
    match FindPartStackByPart(s.partStacks, p)
    case None => s
    case Some(z) => s.(partStacks := s.partStacks.Set(z, f(s.partStacks.Get(z))))
  }

  /** `removePart`. */
  function RemovePart(s: PerspectiveState, p: Part): PerspectiveState {
    OnOwner(s, p, (st: Stack) => st.Remove(p))
  }

  /** `hidePart`. */
  function HidePart(s: PerspectiveState, p: Part): PerspectiveState {
    OnOwner(s, p, (st: Stack) => st.Hide(p))
  }

  /** `setActivePart(part)`. */
  function SetActivePart(s: PerspectiveState, p: Part): PerspectiveState {
    OnOwner(s, p, (st: Stack) => st.Activate(p))
  }

  /** `setActivePart(part, type)`: no containment check. */
  function SetActivePartIn(s: PerspectiveState, p: Part, z: Zone): PerspectiveState {
    s.(partStacks := s.partStacks.Set(z, s.partStacks.Get(z).Activate(p)))
  }

  /** `addPart(part, type, constraint)`, the constraint being ignored. */
  function AddPart(s: PerspectiveState, p: Part, z: Zone, perspectiveId: string): PerspectiveState {
    var dest := s.partStacks.Get(z);
    if |p.rules| == 0 && !dest.Contains(p) then s.(partStacks := s.partStacks.Set(z, dest.Add(p)))
    else if perspectiveId in p.rules then s.(partStacks := s.partStacks.Set(z, dest.Add(p)))
    else s
  }

  /** Only the stacks differ, and only the one of zone `z` may. */
  predicate OnlyStackChanged(s: PerspectiveState, t: PerspectiveState, z: Zone) {
    t == s.(partStacks := t.partStacks)
    && forall z' :: z' != z ==> t.partStacks.Get(z') == s.partStacks.Get(z')
  }

  lemma DelegationsReachOnlyTheOwner(s: PerspectiveState, p: Part)
    ensures FindPartStackByPart(s.partStacks, p).None? ==>
      RemovePart(s, p) == s && HidePart(s, p) == s && SetActivePart(s, p) == s
    ensures FindPartStackByPart(s.partStacks, p).Some? ==>
      var z := FindPartStackByPart(s.partStacks, p).value;
      && OnlyStackChanged(s, RemovePart(s, p), z)
      && RemovePart(s, p).partStacks.Get(z) == s.partStacks.Get(z).Remove(p)
      && OnlyStackChanged(s, HidePart(s, p), z)
      && HidePart(s, p).partStacks.Get(z) == s.partStacks.Get(z).Hide(p)
      && OnlyStackChanged(s, SetActivePart(s, p), z)
      && SetActivePart(s, p).partStacks.Get(z).active == Some(p)
      && SetActivePart(s, p).partStacks.Get(z).parts == s.partStacks.Get(z).parts
  {
  }

  lemma AddPartCases(s: PerspectiveState, p: Part, z: Zone, perspectiveId: string)
    ensures var r := AddPart(s, p, z, perspectiveId);
      var dest := s.partStacks.Get(z);
      && OnlyStackChanged(s, r, z)
      && (|p.rules| == 0 && !dest.Contains(p) ==> r.partStacks.Get(z) == dest.Add(p))
      && (|p.rules| == 0 && dest.Contains(p) ==> r == s)
      && (|p.rules| != 0 && perspectiveId !in p.rules ==> r == s)
      && (perspectiveId in p.rules ==> r.partStacks.Get(z) == dest.Add(p))
  {
  }

  // ------------------------------------------------------ registry invariants

  /** Every stack's active part is one of its parts. */
  predicate ActivesAreMembers(s: PerspectiveState) {
    forall z :: s.partStacks.Get(z).ActiveIsMember()
  }

  /** A part is held by at most one stack, and at most once there. */
  predicate OwnedOnce(s: PerspectiveState) {
    && (forall z :: NoDuplicates(s.partStacks.Get(z).parts))
    && forall p, z, z' :: p in s.partStacks.Get(z).parts && p in s.partStacks.Get(z').parts ==> z == z'
  }

  /** Replacing one stack by a stack whose active part is a member keeps the invariant. */
  lemma SetStackKeepsActives(s: PerspectiveState, z: Zone, st: Stack)
    requires ActivesAreMembers(s) && st.ActiveIsMember()
    ensures ActivesAreMembers(s.(partStacks := s.partStacks.Set(z, st)))
  {
    var t := s.(partStacks := s.partStacks.Set(z, st));
    forall z' ensures t.partStacks.Get(z').ActiveIsMember() {
      if z' != z {
        assert t.partStacks.Get(z') == s.partStacks.Get(z');
      }
    }
  }

  /** Removing, hiding and activating a part through its owner keep every active part a member. */
  lemma DelegationsKeepActives(s: PerspectiveState, p: Part)
    requires ActivesAreMembers(s)
    ensures ActivesAreMembers(RemovePart(s, p)) && ActivesAreMembers(HidePart(s, p))
    ensures ActivesAreMembers(SetActivePart(s, p))
  {
    var owner := FindPartStackByPart(s.partStacks, p);
    if owner.Some? {
      var z := owner.value;
      var st := s.partStacks.Get(z);
      assert st.ActiveIsMember() && st.Contains(p);
      SetStackKeepsActives(s, z, st.Remove(p));
      SetStackKeepsActives(s, z, st.Hide(p));
      SetStackKeepsActives(s, z, st.Activate(p));
    }
  }

  /** The tracker and the layout operations never touch the stacks. */
  lemma TrackerKeepsActives(s: PerspectiveState)
    requires ActivesAreMembers(s)
    ensures ActivesAreMembers(StoreState(s)) && ActivesAreMembers(RestoreState(s))
    ensures forall q :: ActivesAreMembers(OnActivePartChanged(s, q))
    ensures forall c :: ActivesAreMembers(ApplyLayout(s, c))
  {
    if s.activePartBeforeChangePerspective.Some? {
      DelegationsKeepActives(s, s.activePartBeforeChangePerspective.value);
    }
    forall c ensures ActivesAreMembers(ApplyLayout(s, c)) {
      assert ApplyLayout(s, c).partStacks == s.partStacks;
    }
  }

  /** `addPart` only appends, so it keeps every active part a member. */
  lemma AddPartKeepsActives(s: PerspectiveState, p: Part, z: Zone, perspectiveId: string)
    requires ActivesAreMembers(s)
    ensures ActivesAreMembers(AddPart(s, p, z, perspectiveId))
  {
    AddPartCases(s, p, z, perspectiveId);
  }

  /**
   * `setActivePart(part, type)` does not check that the stack holds the
   * part: from a state that keeps the invariant, it keeps it exactly when
   * the part is one of the stack's parts.
   */
  lemma SetActivePartInActives(s: PerspectiveState, p: Part, z: Zone)
    requires ActivesAreMembers(s)
    ensures ActivesAreMembers(SetActivePartIn(s, p, z)) <==> s.partStacks.Get(z).Contains(p)
  {
    var r := SetActivePartIn(s, p, z);
    assert r.partStacks.Get(z).active == Some(p) && r.partStacks.Get(z).parts == s.partStacks.Get(z).parts;
  }

  /**
   * `addPart` for a part without rules checks only the target stack: a part
   * another stack holds ends up in two stacks.
   */
  lemma AddPartSecondStack(s: PerspectiveState, p: Part, z: Zone, other: Zone, perspectiveId: string)
    requires |p.rules| == 0 && other != z
    requires s.partStacks.Get(other).Contains(p) && !s.partStacks.Get(z).Contains(p)
    ensures var r := AddPart(s, p, z, perspectiveId);
      r.partStacks.Get(z).Contains(p) && r.partStacks.Get(other).Contains(p) && !OwnedOnce(r)
  {
    var r := AddPart(s, p, z, perspectiveId);
    AddPartCases(s, p, z, perspectiveId);
    assert r.partStacks.Get(z).parts == s.partStacks.Get(z).parts + [p];
  }

  /**
   * `addPart` for a part whose rules name the perspective checks nothing:
   * a part the stack already holds is added a second time.
   */
  lemma AddPartTwice(s: PerspectiveState, p: Part, z: Zone, perspectiveId: string)
    requires perspectiveId in p.rules && s.partStacks.Get(z).Contains(p)
    ensures !NoDuplicates(AddPart(s, p, z, perspectiveId).partStacks.Get(z).parts)
  {
    var ps := s.partStacks.Get(z).parts;
    var r := AddPart(s, p, z, perspectiveId).partStacks.Get(z).parts;
    assert r == ps + [p];
    var i :| 0 <= i < |ps| && ps[i] == p;
    assert r[i] == r[|ps|];
  }

  /** Removing, hiding and activating a part through its owner keep every part owned once. */
  lemma DelegationsKeepOwnedOnce(s: PerspectiveState, p: Part)
    requires OwnedOnce(s)
    ensures OwnedOnce(RemovePart(s, p)) && OwnedOnce(HidePart(s, p)) && OwnedOnce(SetActivePart(s, p))
  {
    DelegationsReachOnlyTheOwner(s, p);
    var owner := FindPartStackByPart(s.partStacks, p);
    if owner.Some? {
      var z := owner.value;
      WithoutKeepsNoDuplicates(s.partStacks.Get(z).parts, p);
      var r := RemovePart(s, p);
      assert forall q :: q in r.partStacks.Get(z).parts ==> q in s.partStacks.Get(z).parts;
    }
  }

  /** Adding a part that no stack holds keeps every part owned once. */
  lemma AddPartKeepsOwnedOnce(s: PerspectiveState, p: Part, z: Zone, perspectiveId: string)
    requires OwnedOnce(s) && FindPartStackByPart(s.partStacks, p).None?
    ensures OwnedOnce(AddPart(s, p, z, perspectiveId))
  {
    FindPartStackByPartFirst(s.partStacks, p);
    AddPartCases(s, p, z, perspectiveId);
    var r := AddPart(s, p, z, perspectiveId);
    if r != s {
      var ps := s.partStacks.Get(z).parts;
      assert r.partStacks.Get(z).parts == ps + [p];
      assert forall i :: 0 <= i < |ps| ==> ps[i] != p;
    }
  }

  // ------------------------------------------------------- active-part tracker

  /** `onActivePartChanged`: the last notification wins. */
  function OnActivePartChanged(s: PerspectiveState, p: Option<Part>): PerspectiveState {
    s.(activePart := p)
  }

  /** `storeState`. */
  function StoreState(s: PerspectiveState): PerspectiveState {
    var t := s.(activePartBeforeChangePerspective := s.activePart);
    match s.activePart
    case None => t
    case Some(p) => t.(partCalls := t.partCalls + [StoreStateCall(p)])
  }

  /** `restoreState`. */
  function RestoreState(s: PerspectiveState): PerspectiveState {
    match s.activePartBeforeChangePerspective
    case None => s
    case Some(p) =>
      var t := SetActivePart(s, p);
      t.(partCalls := t.partCalls + [RestoreStateCall(p)])
  }

  lemma TrackerEffect(s: PerspectiveState, p: Option<Part>)
    ensures OnActivePartChanged(s, p).activePart == p
    ensures OnActivePartChanged(OnActivePartChanged(s, p), None) == OnActivePartChanged(s, None)
    ensures StoreState(s).activePartBeforeChangePerspective == s.activePart
    ensures StoreState(s).partCalls ==
      s.partCalls + (if s.activePart.Some? then [StoreStateCall(s.activePart.value)] else [])
    ensures StoreState(s) == s.(activePartBeforeChangePerspective := s.activePart,
                                partCalls := StoreState(s).partCalls)
    ensures s.activePartBeforeChangePerspective.None? ==> RestoreState(s) == s
    ensures s.activePartBeforeChangePerspective.Some? ==>
      var q := s.activePartBeforeChangePerspective.value;
      RestoreState(s) == SetActivePart(s, q).(partCalls := s.partCalls + [RestoreStateCall(q)])
  {
  }

  /**
   * A perspective switch round trip: after `storeState` then `restoreState`,
   * the part that was active is active again in the stack that owns it, and
   * its own hooks were called once each, store first.
   */
  lemma SwitchRoundTrip(s: PerspectiveState)
    requires s.activePart.Some?
    ensures var q := s.activePart.value;
      var r := RestoreState(StoreState(s));
      && r.partCalls == s.partCalls + [StoreStateCall(q), RestoreStateCall(q)]
      && r.activePart == s.activePart
      && (forall z :: r.partStacks.Get(z).parts == s.partStacks.Get(z).parts)
      && (FindPartStackByPart(s.partStacks, q).Some? ==>
            r.partStacks.Get(FindPartStackByPart(s.partStacks, q).value).active == Some(q))
  {
  }
}
