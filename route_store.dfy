// src/store/routeStore.ts: the application's single store of route state.
// Each action merges a partial state into the store; the store is a class
// whose fields the actions update, and `Apply` is the state each action
// leaves behind, stated on a snapshot of those fields.

module RouteStore {
  import opened Types

  /** 'text' | 'shape'. */
  datatype InputType = Text | Shape

  /** A snapshot of every field of the store; `null` is `None`. */
  datatype RouteState = RouteState(
    inputType: InputType,
    inputValue: string,
    targetDistance: real,
    userLocation: Option<LatLng>,
    isGenerating: bool,
    progress: real,
    currentStep: string,
    idealPath: Option<seq<Point2D>>,
    geoPath: Option<seq<LatLng>>,
    snappedRoute: Option<seq<LatLng>>,
    routeDistance: Option<real>,
    error: Option<string>)

  /** The default target distance, 10 km in metres. */
  const DefaultTargetDistance: real := 10000.0

  /** The state the store is created with. */
  function Initial(): RouteState
  {
    RouteState(Text, "", DefaultTargetDistance, None, false, 0.0, "",
               None, None, None, None, None)
  }

  /** The actions of the store, with their arguments. */
  datatype Action =
    | SetInput(kind: InputType, value: string)
    | SetDistance(distance: real)
    | SetUserLocation(location: Option<LatLng>)
    | SetGenerating(generating: bool)
    | SetProgress(amount: real, step: string)
    | SetIdealPath(path: Option<seq<Point2D>>)
    | SetGeoPath(geo: Option<seq<LatLng>>)
    | SetSnappedRoute(route: Option<seq<LatLng>>, routeLength: Option<real>)
    | SetError(message: Option<string>)
    | ResetRoute

  /** The state after one action: the action's partial state merged into s. */
  function Apply(s: RouteState, a: Action): RouteState
  {
    match a
    case SetInput(kind, value) => s.(inputType := kind, inputValue := value, error := None)
    case SetDistance(distance) => s.(targetDistance := distance)
    case SetUserLocation(location) => s.(userLocation := location)
    case SetGenerating(generating) => s.(isGenerating := generating)
    case SetProgress(amount, step) => s.(progress := amount, currentStep := step)
    case SetIdealPath(path) => s.(idealPath := path)
    case SetGeoPath(geo) => s.(geoPath := geo)
    case SetSnappedRoute(route, distance) => s.(snappedRoute := route, routeDistance := distance)
    case SetError(message) => s.(error := message, isGenerating := false)
    case ResetRoute => Reset(s)
  }

  /** resetRoute's partial state merged into s. */
  function Reset(s: RouteState): RouteState
  {
    s.(idealPath := None, geoPath := None, snappedRoute := None, routeDistance := None,
       progress := 0.0, currentStep := "", error := None)
  }

  /** The state after a sequence of actions, applied in order. */
  function ApplyAll(s: RouteState, actions: seq<Action>): RouteState
    decreases |actions|
  {
    if |actions| == 0 then s else ApplyAll(Apply(s, actions[0]), actions[1..])
  }

  /** The actions that change what the user asked for. */
  predicate ChangesInput(a: Action)
  {
    a.SetInput? || a.SetDistance? || a.SetUserLocation?
  }

  /** The results a reset clears are all absent and progress is back at the start. */
  predicate Cleared(s: RouteState)
  {
    s.idealPath.None? && s.geoPath.None? && s.snappedRoute.None? && s.routeDistance.None?
    && s.progress == 0.0 && s.currentStep == "" && s.error.None?
  }

  /**
   * resetRoute clears the results, the progress and the error, and keeps
   * the input, the target distance, the location and the generating flag.
   */
  lemma ResetRouteClears(s: RouteState)
    ensures var t := Apply(s, ResetRoute);
            && Cleared(t)
            && t.inputType == s.inputType && t.inputValue == s.inputValue
            && t.targetDistance == s.targetDistance && t.userLocation == s.userLocation
            && t.isGenerating == s.isGenerating
  {
  }

  /** Resetting twice is resetting once, and the initial state is already reset. */
  lemma ResetRouteIdempotent(s: RouteState)
    ensures Apply(Apply(s, ResetRoute), ResetRoute) == Apply(s, ResetRoute)
    ensures Apply(Initial(), ResetRoute) == Initial()
    ensures Cleared(Initial())
  {
  }

  /** setError always stops generation; setInput always clears the error. */
  lemma ErrorAndInputActions(s: RouteState, message: Option<string>, kind: InputType, value: string)
    ensures !Apply(s, SetError(message)).isGenerating
    ensures Apply(s, SetError(message)).error == message
    ensures Apply(s, SetInput(kind, value)).error.None?
    ensures Apply(s, SetInput(kind, value)).inputType == kind
    ensures Apply(s, SetInput(kind, value)).inputValue == value
  {
  }

  /**
   * Actions other than setInput, setDistance and setUserLocation (those a
   * generation run dispatches) never change the input, the target distance
   * or the location.
   */
  lemma {:induction false} GenerationKeepsInput(s: RouteState, actions: seq<Action>)
    requires forall i :: 0 <= i < |actions| ==> !ChangesInput(actions[i])
    ensures var t := ApplyAll(s, actions);
            && t.inputType == s.inputType && t.inputValue == s.inputValue
            && t.targetDistance == s.targetDistance && t.userLocation == s.userLocation
    decreases |actions|
  {
    if |actions| > 0 {
      assert !ChangesInput(actions[0]);
      GenerationKeepsInput(Apply(s, actions[0]), actions[1..]);
    }
  }

  /** Whatever came before, a sequence that ends with resetRoute leaves a cleared state. */
  lemma {:induction false} EndsWithReset(s: RouteState, actions: seq<Action>)
    requires |actions| > 0 && actions[|actions| - 1] == ResetRoute
    ensures Cleared(ApplyAll(s, actions))
    decreases |actions|
  {
    if |actions| == 1 {
      ResetRouteClears(s);
    } else {
      assert actions[1..][|actions| - 2] == ResetRoute;
      EndsWithReset(Apply(s, actions[0]), actions[1..]);
    }
  }

  /**
   * After setError, generation stays stopped until setGenerating(true): no
   * other action turns the flag back on.
   */
  lemma {:induction false} StaysStopped(s: RouteState, actions: seq<Action>)
    requires !s.isGenerating
    requires forall i :: 0 <= i < |actions| ==> actions[i] != SetGenerating(true)
    ensures !ApplyAll(s, actions).isGenerating
    decreases |actions|
  {
    if |actions| > 0 {
      assert actions[0] != SetGenerating(true);
      StaysStopped(Apply(s, actions[0]), actions[1..]);
    }
  }

  /** The store: one field per state field, updated by its actions. */
  class Store {
    var inputType: InputType
    var inputValue: string
    var targetDistance: real
    var userLocation: Option<LatLng>
    var isGenerating: bool
    var progress: real
    var currentStep: string
    var idealPath: Option<seq<Point2D>>
    var geoPath: Option<seq<LatLng>>
    var snappedRoute: Option<seq<LatLng>>
    var routeDistance: Option<real>
    var error: Option<string>

    /** The current state of the store. */
    function State(): RouteState
      reads this
    {
      RouteState(inputType, inputValue, targetDistance, userLocation, isGenerating, progress,
                 currentStep, idealPath, geoPath, snappedRoute, routeDistance, error)
    }

    /** create(): the initial state. */
    constructor ()
      ensures State() == Initial()
    {
      inputType := Text;
      inputValue := "";
      targetDistance := DefaultTargetDistance;
      userLocation := None;
      isGenerating := false;
      progress := 0.0;
      currentStep := "";
      idealPath := None;
      geoPath := None;
      snappedRoute := None;
      routeDistance := None;
      error := None;
    }

    method SetInputAction(kind: InputType, value: string)
      modifies this
      ensures State() == Apply(old(State()), SetInput(kind, value))
    {
      inputType := kind;
      inputValue := value;
      error := None;
    }

    method SetDistanceAction(distance: real)
      modifies this
      ensures State() == Apply(old(State()), SetDistance(distance))
    {
      targetDistance := distance;
    }

    method SetUserLocationAction(location: Option<LatLng>)
      modifies this
      ensures State() == Apply(old(State()), SetUserLocation(location))
    {
      userLocation := location;
    }

    method SetGeneratingAction(generating: bool)
      modifies this
      ensures State() == Apply(old(State()), SetGenerating(generating))
    {
      isGenerating := generating;
    }

    method SetProgressAction(amount: real, step: string)
      modifies this
      ensures State() == Apply(old(State()), SetProgress(amount, step))
    {
      progress := amount;
      currentStep := step;
    }

    method SetIdealPathAction(path: Option<seq<Point2D>>)
      modifies this
      ensures State() == Apply(old(State()), SetIdealPath(path))
    {
      idealPath := path;
    }

    method SetGeoPathAction(geo: Option<seq<LatLng>>)
      modifies this
      ensures State() == Apply(old(State()), SetGeoPath(geo))
    {
      geoPath := geo;
    }

    method SetSnappedRouteAction(route: Option<seq<LatLng>>, distance: Option<real>)
      modifies this
      ensures State() == Apply(old(State()), SetSnappedRoute(route, distance))
    {
      snappedRoute := route;
      routeDistance := distance;
    }

    method SetErrorAction(message: Option<string>)
      modifies this
      ensures State() == Apply(old(State()), SetError(message))
    {
      error := message;
      isGenerating := false;
    }

    method ResetRouteAction()
      modifies this
      ensures State() == Reset(old(State()))
    {
      idealPath, geoPath, snappedRoute, routeDistance := None, None, None, None;
      progress, currentStep, error := 0.0, "", None;
    }
  }
}
