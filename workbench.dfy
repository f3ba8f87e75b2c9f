/**
 * The collaborators of a perspective, reduced to the state the perspective
 * reads and changes: zones, parts, part stacks and zone controllers.
 */
module Workbench {
  import opened Wrappers

  /** `PartStackType`: the zones that own a part stack. */
  datatype Zone = Navigation | Information | Tooling

  /** `PartStackType.values()`, in declaration order. */
  const Zones: seq<Zone> := [Navigation, Information, Tooling]

  /** `PartStackType.name()`. */
  function ZoneName(z: Zone): string {
    match z
    case Navigation => "NAVIGATION"
    case Information => "INFORMATION"
    case Tooling => "TOOLING"
  }

  /** `PartStackType.valueOf`: None where Java throws `IllegalArgumentException`. */
  function ZoneNamed(name: string): (r: Option<Zone>)
    ensures r.Some? ==> ZoneName(r.value) == name
    ensures r.None? ==> forall z :: ZoneName(z) != name
  {
    if name == "NAVIGATION" then Some(Navigation)
    else if name == "INFORMATION" then Some(Information)
    else if name == "TOOLING" then Some(Tooling)
    else None
  }

  /** The layout modes of `AbstractPerspective.State`. */
  datatype LayoutState =
    | Normal
    | MaximizedLeftPart
    | MaximizedRightPart
    | MaximizedBottomPart
    | MaximizedCentralPart

  /**
   * A part presenter. `name` is its class name, the identifier a snapshot
   * stores; `rules` lists the perspectives it may be placed in; `instance`
   * tells apart two objects of the same class.
   */
  datatype Part = Part(name: string, rules: seq<string>, instance: nat)

  /** A call the perspective makes on a part's own state hooks. */
  datatype PartCall = StoreStateCall(part: Part) | RestoreStateCall(part: Part)

  /**
   * A part stack: its parts in order and its active part. Only the
   * operations the perspective delegates to are modelled.
   */
  datatype Stack = Stack(parts: seq<Part>, active: Option<Part>) {

    /** `containsPart`. */
    predicate Contains(p: Part) {
      p in parts
    }

    /** `addPart`: appends (the ordering hint is not modelled). */
    function Add(p: Part): Stack {
      this.(parts := parts + [p])
    }

    /** `removePart`: the part leaves the stack and stops being its active part. */
    function Remove(p: Part): Stack {
      Stack(Without(parts, p), if active == Some(p) then None else active)
    }

    /** `hidePart`: the part stays in the stack but is no longer its active part. */
    function Hide(p: Part): Stack {
      this.(active := if active == Some(p) then None else active)
    }

    /** `setActivePart`. */
    function Activate(p: Part): Stack {
      this.(active := Some(p))
    }

    /** The active part, if any, is one of the stack's parts. */
    predicate ActiveIsMember() {
      active.Some? ==> active.value in parts
    }
  }

  predicate NoDuplicates(ps: seq<Part>) {
    forall i, j :: 0 <= i < j < |ps| ==> ps[i] != ps[j]
  }

  /** `ps` with every occurrence of `p` dropped, the rest in order. */
  function Without(ps: seq<Part>, p: Part): (r: seq<Part>)
    ensures forall q :: q in r <==> q in ps && q != p
    ensures |r| <= |ps|
  {
    if ps == [] then []
    else if ps[0] == p then Without(ps[1..], p)
    else [ps[0]] + Without(ps[1..], p)
  }

  /** Dropping a part from a list without repeats leaves a list without repeats. */
  lemma {:induction false} WithoutKeepsNoDuplicates(ps: seq<Part>, p: Part)
    requires NoDuplicates(ps)
    ensures NoDuplicates(Without(ps, p))
    decreases |ps|
  {
    if ps != [] {
      assert NoDuplicates(ps[1..]) by {
        forall i, j | 0 <= i < j < |ps[1..]| ensures ps[1..][i] != ps[1..][j] {
          assert ps[1..][i] == ps[i + 1] && ps[1..][j] == ps[j + 1];
        }
      }
      WithoutKeepsNoDuplicates(ps[1..], p);
      if ps[0] != p {
        var t := Without(ps[1..], p);
        assert ps[0] !in ps[1..];
        assert ps[0] !in t;
        var r := [ps[0]] + t;
        forall i, j | 0 <= i < j < |r| ensures r[i] != r[j] {
          if i == 0 {
            assert r[j] == t[j - 1];
          } else {
            assert r[i] == t[i - 1] && r[j] == t[j - 1];
          }
        }
      }
    }
  }

  const EmptyStack := Stack([], None)

  /**
   * The fixed map from zone to part stack, built once: one stack per zone,
   * so a lookup never misses.
   */
  datatype PartStacks = PartStacks(navigation: Stack, information: Stack, tooling: Stack) {

    /** `partStacks.get(zone)`. */
    function Get(z: Zone): Stack {
      match z
      case Navigation => navigation
      case Information => information
      case Tooling => tooling
    }

    /** The map with zone `z`'s stack replaced. */
    function Set(z: Zone, s: Stack): (r: PartStacks)
      ensures r.Get(z) == s
      ensures forall z' :: z' != z ==> r.Get(z') == Get(z')
    {
      match z
      case Navigation => this.(navigation := s)
      case Information => this.(information := s)
      case Tooling => this.(tooling := s)
    }
  }

  /**
   * A `WorkBenchPartController`: a zone's size, its hidden flag, and whether
   * it shows maximized. Its code is not part of this model; the behaviour
   * here is the one the perspective is designed to rely on: `setSize`
   * resizes and, as a side effect, clears any hidden or maximized state;
   * `setHidden` and `maximize` leave the size as it was.
   */
  datatype Controller = Controller(size: real, hidden: bool, maximized: bool) {

    function SetSize(s: real): Controller {
      Controller(s, false, false)
    }

    function SetHidden(h: bool): Controller {
      this.(hidden := h)
    }

    function Maximize(): Controller {
      this.(maximized := true)
    }
  }

  /** A call the perspective makes on the controller of a zone. */
  datatype ControllerCall =
    | SetSizeCall(zone: Zone, size: real)
    | SetHiddenCall(zone: Zone, hidden: bool)
    | MaximizeCall(zone: Zone)

  /** What a call does to the controller it is made on. */
  function Perform(c: Controller, call: ControllerCall): Controller {
    match call
    case SetSizeCall(_, size) => c.SetSize(size)
    case SetHiddenCall(_, hidden) => c.SetHidden(hidden)
    case MaximizeCall(_) => c.Maximize()
  }

  /** The calls performed on one controller, oldest first. */
  function Replay(c: Controller, calls: seq<ControllerCall>): Controller
    decreases |calls|
  {
    if calls == [] then c else Replay(Perform(c, calls[0]), calls[1..])
  }
}
