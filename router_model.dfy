/**
 * The navigation router of RouterService as a state machine over values.
 * `Router` is the whole observable state; each operation is a function from
 * the old state to the new one, and the lemmas below state what the
 * operations promise, alone and in sequence.
 *
 * Views (`V`), navigation parameters (`P`) and factory delegates (`D`) are
 * opaque. Invoking a factory is code outside the model, so its outcome is an
 * argument (`Creation`). The route name that RouterService computes for the
 * outgoing view by re-running factories (GetCurrentRouteName) is not part of
 * this model either: it is an argument, `archivedName`.
 */
module RouterModel {
  import opened Wrappers

  /** A control type handed to the `Type` overload of RegisterRoute. */
  datatype ControlType = ControlType(name: string, isUserControl: bool)

  /** What the route table stores: the caller's delegate, or the activator built from a control type. */
  datatype Factory<D> = Delegate(fn: D) | Activate(controlType: ControlType)

  /** The outcome of invoking a factory: a view, or an exception. */
  datatype Creation<V> = Created(view: V) | Threw

  /** One archived point of history (the private NavigationItem record). */
  datatype NavigationItem<V, P> = NavigationItem(routeName: string, view: V, parameter: Option<P>)

  /** The arguments of one raised Navigated event. */
  datatype NavigatedEvent<V, P> = Navigated(routeName: string, view: V, parameter: Option<P>)

  /** The exceptions the router itself throws, and the factory exception it lets through. */
  datatype RouterError = RouteNotFound(routeName: string) | NotAUserControl(controlType: ControlType) | FactoryThrew(routeName: string)

  /**
   * The router's state. The stacks are sequences whose LAST element is the top.
   * `events` is every Navigated event raised so far, in order; `resolutions`
   * is every factory NavigateTo invoked to build a new view, in order.
   */
  datatype Router<V, P, D> = Router(
    routes: map<string, Factory<D>>,
    current: Option<V>,
    back: seq<NavigationItem<V, P>>,
    forward: seq<NavigationItem<V, P>>,
    events: seq<NavigatedEvent<V, P>>,
    resolutions: seq<Factory<D>>)

  /** The state of a newly constructed router: no routes, no view, no history, nothing raised. */
  function Initial<V, P, D>(): (r: Router<V, P, D>)
    ensures r.current.None? && !CanGoBack(r) && !CanGoForward(r)
    ensures r.routes == map[] && r.events == []
  {
    Router(map[], None, [], [], [], [])
  }

  /** `CanGoBack`: the back stack holds at least one entry. */
  function CanGoBack<V, P, D>(r: Router<V, P, D>): (b: bool)
    ensures b <==> r.back != []
  {
    |r.back| > 0
  }

  /** `CanGoForward`: the forward stack holds at least one entry. */
  function CanGoForward<V, P, D>(r: Router<V, P, D>): (b: bool)
    ensures b <==> r.forward != []
  {
    |r.forward| > 0
  }

  /** The invariant every reachable state keeps: history exists only beside a current view. */
  predicate Valid<V, P, D>(r: Router<V, P, D>) {
    (r.back != [] || r.forward != []) ==> r.current.Some?
  }

  /** The navigation part of the state, which registration never touches. */
  ghost predicate SameNavigation<V, P, D>(r: Router<V, P, D>, s: Router<V, P, D>) {
    s.current == r.current && s.back == r.back && s.forward == r.forward
    && s.events == r.events && s.resolutions == r.resolutions
  }

  /** `RegisterRoute(name, factory)`: last write wins. */
  function RegisterRoute<V, P, D>(r: Router<V, P, D>, name: string, fn: D): (s: Router<V, P, D>)
    ensures name in s.routes && s.routes[name] == Delegate(fn)
    ensures forall n :: n != name ==> (n in s.routes <==> n in r.routes)
    ensures forall n :: n != name && n in r.routes ==> s.routes[n] == r.routes[n]
    ensures SameNavigation(r, s)
  {
    r.(routes := r.routes[name := Delegate(fn)])
  }

  /** `RegisterRoute(name, type)`: refuses a type that is not a user control, leaving the table as it was. */
  function RegisterRouteType<V, P, D>(r: Router<V, P, D>, name: string, t: ControlType): (res: (Router<V, P, D>, Option<RouterError>))
    ensures !t.isUserControl ==> res.0 == r && res.1 == Some(NotAUserControl(t))
    ensures t.isUserControl ==> res.1.None? && SameNavigation(r, res.0)
    ensures t.isUserControl ==> res.0.routes.Keys == r.routes.Keys + {name} && res.0.routes[name] == Activate(t)
    ensures t.isUserControl ==> forall n :: n != name && n in r.routes ==> res.0.routes[n] == r.routes[n]
  {
    if !t.isUserControl then (r, Some(NotAUserControl(t)))
    else (r.(routes := r.routes[name := Activate(t)]), None)
  }

  /** The entry for the outgoing view that a navigation archives, if there is an outgoing view. */
  function Archived<V, P>(current: Option<V>, name: string, parameter: Option<P>): (items: seq<NavigationItem<V, P>>)
    ensures current.None? ==> items == []
    ensures current.Some? ==> items == [NavigationItem(name, current.value, parameter)]
  {
    if current.Some? then [NavigationItem(name, current.value, parameter)] else []
  }

  /**
   * `NavigateTo(routeName, parameter)`.
   * An unknown route throws before anything changes. Otherwise the outgoing view
   * is archived on the back stack with THIS call's parameter, the forward stack
   * is cleared and the factory is invoked; only if it returns does the new view
   * become current and the event get raised.
   */
  function NavigateTo<V, P, D>(r: Router<V, P, D>, routeName: string, parameter: Option<P>,
                               archivedName: string, creation: Creation<V>): (res: (Router<V, P, D>, Option<RouterError>))
    ensures routeName !in r.routes ==> res == (r, Some(RouteNotFound(routeName)))
    ensures routeName in r.routes ==>
      && res.0.routes == r.routes
      && res.0.back == r.back + Archived(r.current, archivedName, parameter)
      && res.0.forward == []
      && res.0.resolutions == r.resolutions + [r.routes[routeName]]
    ensures routeName in r.routes && creation.Threw? ==>
      res.1 == Some(FactoryThrew(routeName)) && res.0.current == r.current && res.0.events == r.events
    ensures routeName in r.routes && creation.Created? ==>
      && res.1.None?
      && res.0.current == Some(creation.view)
      && res.0.events == r.events + [Navigated(routeName, creation.view, parameter)]
  {
    if routeName !in r.routes then (r, Some(RouteNotFound(routeName)))
    else
      var prepared := r.(back := r.back + Archived(r.current, archivedName, parameter),
                         forward := [],
                         resolutions := r.resolutions + [r.routes[routeName]]);
      match creation
      case Threw => (prepared, Some(FactoryThrew(routeName)))
      case Created(v) =>
        (prepared.(current := Some(v), events := prepared.events + [Navigated(routeName, v, parameter)]), None)
  }

  /**
   * `GoBack()`: a no-op on an empty back stack. Otherwise pops the top entry,
   * archives the outgoing view on the forward stack WITHOUT a parameter, makes
   * the popped view current (no factory call) and raises the popped entry.
   */
  function GoBack<V, P, D>(r: Router<V, P, D>, archivedName: string): (s: Router<V, P, D>)
    ensures r.back == [] ==> s == r
    ensures r.back != [] ==>
      && s.current == Some(r.back[|r.back| - 1].view)
      && s.back == r.back[..|r.back| - 1]
      && s.forward == r.forward + Archived(r.current, archivedName, None)
    ensures r.back != [] ==>
      var top := r.back[|r.back| - 1];
      s.events == r.events + [Navigated(top.routeName, top.view, top.parameter)]
    ensures s.routes == r.routes && s.resolutions == r.resolutions
  {
    if r.back == [] then r
    else
      var item := r.back[|r.back| - 1];
      Router(r.routes, Some(item.view), r.back[..|r.back| - 1],
             r.forward + Archived(r.current, archivedName, None),
             r.events + [Navigated(item.routeName, item.view, item.parameter)], r.resolutions)
  }

  /** `GoForward()`: the mirror image of GoBack, with the two stacks exchanged. */
  function GoForward<V, P, D>(r: Router<V, P, D>, archivedName: string): (s: Router<V, P, D>)
    ensures r.forward == [] ==> s == r
    ensures r.forward != [] ==>
      && s.current == Some(r.forward[|r.forward| - 1].view)
      && s.forward == r.forward[..|r.forward| - 1]
      && s.back == r.back + Archived(r.current, archivedName, None)
    ensures r.forward != [] ==>
      var top := r.forward[|r.forward| - 1];
      s.events == r.events + [Navigated(top.routeName, top.view, top.parameter)]
    ensures s.routes == r.routes && s.resolutions == r.resolutions
  {
    if r.forward == [] then r
    else
      var item := r.forward[|r.forward| - 1];
      Router(r.routes, Some(item.view), r.back + Archived(r.current, archivedName, None),
             r.forward[..|r.forward| - 1],
             r.events + [Navigated(item.routeName, item.view, item.parameter)], r.resolutions)
  }

  /** `ClearHistory()`: both stacks emptied; the current view stays and nothing is raised. */
  function ClearHistory<V, P, D>(r: Router<V, P, D>): (s: Router<V, P, D>)
    ensures !CanGoBack(s) && !CanGoForward(s)
    ensures s.current == r.current && s.routes == r.routes && s.events == r.events && s.resolutions == r.resolutions
  {
    r.(back := [], forward := [])
  }

  /** One call on the router's public surface. */
  datatype Call<V, P, D> =
    | Register(name: string, fn: D)
    | RegisterType(name: string, controlType: ControlType)
    | Navigate(routeName: string, parameter: Option<P>, archivedName: string, creation: Creation<V>)
    | Back(archivedName: string)
    | Forward(archivedName: string)
    | Clear

  /** The effect of one call; an exception leaves whatever state the call had reached. */
  function Apply<V, P, D>(r: Router<V, P, D>, c: Call<V, P, D>): Router<V, P, D> {
    match c
    case Register(name, fn) => RegisterRoute(r, name, fn)
    case RegisterType(name, t) => RegisterRouteType(r, name, t).0
    case Navigate(name, p, an, cr) => NavigateTo(r, name, p, an, cr).0
    case Back(an) => GoBack(r, an)
    case Forward(an) => GoForward(r, an)
    case Clear => ClearHistory(r)
  }

  /** The effect of a sequence of calls, first to last. */
  function Run<V, P, D>(r: Router<V, P, D>, calls: seq<Call<V, P, D>>): Router<V, P, D>
    decreases |calls|
  {
    if calls == [] then r else Run(Apply(r, calls[0]), calls[1..])
  }

  /** Every call keeps the invariant. */
  lemma ApplyKeepsValid<V, P, D>(r: Router<V, P, D>, c: Call<V, P, D>)
    requires Valid(r)
    ensures Valid(Apply(r, c))
  {
  }

  /** Every state reachable from a new router satisfies the invariant: a non-empty stack implies a current view. */
  lemma {:induction false} RunKeepsValid<V, P, D>(r: Router<V, P, D>, calls: seq<Call<V, P, D>>)
    requires Valid(r)
    ensures Valid(Run(r, calls))
    decreases |calls|
  {
    if calls != [] {
      ApplyKeepsValid(r, calls[0]);
      RunKeepsValid(Apply(r, calls[0]), calls[1..]);
    }
  }

  /** Every raised event stays in the log: the log of a later state extends the log of an earlier one. */
  lemma {:induction false} RunOnlyAppendsEvents<V, P, D>(r: Router<V, P, D>, calls: seq<Call<V, P, D>>)
    ensures |r.events| <= |Run(r, calls).events| && Run(r, calls).events[..|r.events|] == r.events
    decreases |calls|
  {
    if calls != [] {
      var s := Apply(r, calls[0]);
      assert |r.events| <= |s.events| && s.events[..|r.events|] == r.events;
      RunOnlyAppendsEvents(s, calls[1..]);
    }
  }

  /** After a successful NavigateTo the new view is current, nothing is redoable, and the event names the route. */
  lemma NavigateToSucceeds<V, P, D>(r: Router<V, P, D>, routeName: string, parameter: Option<P>, archivedName: string, v: V)
    requires routeName in r.routes
    ensures var s := NavigateTo(r, routeName, parameter, archivedName, Created(v)).0;
      && s.current == Some(v) && !CanGoForward(s)
      && CanGoBack(s) == (r.current.Some? || CanGoBack(r))
      && s.events[|s.events| - 1] == Navigated(routeName, v, parameter)
  {
  }

  /** A factory that throws still leaves the back push and the forward clear behind: NavigateTo is not atomic for it. */
  lemma NavigateToFactoryFailureIsPartial<V, P, D>(r: Router<V, P, D>, routeName: string, parameter: Option<P>, archivedName: string)
    requires routeName in r.routes && r.current.Some? && CanGoForward(r)
    ensures var s := NavigateTo(r, routeName, parameter, archivedName, Threw).0;
      && s.current == r.current && s.events == r.events
      && |s.back| == |r.back| + 1 && !CanGoForward(s) && s != r
  {
  }

  /**
   * GoBack then GoForward brings back the same view instance and the same
   * stacks, except that the re-archived top of the back stack has lost its
   * parameter and carries the name supplied for the returned view.
   */
  lemma BackThenForward<V, P, D>(r: Router<V, P, D>, name1: string, name2: string)
    requires r.back != [] && r.current.Some?
    ensures var s := GoForward(GoBack(r, name1), name2);
      var n := |r.back|;
      && s.current == r.current
      && s.forward == r.forward
      && |s.back| == n && s.back[..n - 1] == r.back[..n - 1]
      && s.back[n - 1] == NavigationItem(name2, r.back[n - 1].view, None)
  {
    var t := GoBack(r, name1);
    assert t.forward == r.forward + [NavigationItem(name1, r.current.value, None)];
  }

  /** The view instances held by a stack, bottom to top. */
  function Views<V, P>(items: seq<NavigationItem<V, P>>): (vs: seq<V>)
    ensures |vs| == |items|
  {
    seq(|items|, i requires 0 <= i < |items| => items[i].view)
  }

  /** Every view instance the router holds: the current one and both stacks. */
  ghost function HeldViews<V, P, D>(r: Router<V, P, D>): multiset<V> {
    multiset(Views(r.back)) + multiset(Views(r.forward)) + (if r.current.Some? then multiset{r.current.value} else multiset{})
  }

  lemma ViewsAppend<V, P>(items: seq<NavigationItem<V, P>>, item: NavigationItem<V, P>)
    ensures multiset(Views(items + [item])) == multiset(Views(items)) + multiset{item.view}
  {
    assert Views(items + [item]) == Views(items) + [item.view];
  }

  lemma ViewsDropTop<V, P>(items: seq<NavigationItem<V, P>>)
    requires items != []
    ensures multiset(Views(items)) == multiset(Views(items[..|items| - 1])) + multiset{items[|items| - 1].view}
  {
    var n := |items|;
    assert Views(items) == Views(items[..n - 1]) + [items[n - 1].view];
  }

  /** GoBack neither creates nor loses a view instance. */
  lemma GoBackKeepsViews<V, P, D>(r: Router<V, P, D>, archivedName: string)
    requires Valid(r)
    ensures HeldViews(GoBack(r, archivedName)) == HeldViews(r)
  {
    if r.back != [] {
      ViewsDropTop(r.back);
      ViewsAppend(r.forward, NavigationItem(archivedName, r.current.value, None));
    }
  }

  /** GoForward neither creates nor loses a view instance. */
  lemma GoForwardKeepsViews<V, P, D>(r: Router<V, P, D>, archivedName: string)
    requires Valid(r)
    ensures HeldViews(GoForward(r, archivedName)) == HeldViews(r)
  {
    if r.forward != [] {
      ViewsDropTop(r.forward);
      ViewsAppend(r.back, NavigationItem(archivedName, r.current.value, None));
    }
  }

  /** A call that only moves through history. */
  predicate IsMove<V, P, D>(c: Call<V, P, D>) {
    c.Back? || c.Forward?
  }

  /**
   * Any run of GoBack/GoForward calls from a valid state keeps exactly the same
   * view instances and the same total `|back| + |forward| + 1` (for a router that has a view).
   */
  lemma {:induction false} MovesConserveHistory<V, P, D>(r: Router<V, P, D>, calls: seq<Call<V, P, D>>)
    requires Valid(r) && r.current.Some?
    requires forall i :: 0 <= i < |calls| ==> IsMove(calls[i])
    ensures var s := Run(r, calls);
      && HeldViews(s) == HeldViews(r)
      && s.current.Some?
      && |s.back| + |s.forward| == |r.back| + |r.forward|
    decreases |calls|
  {
    if calls != [] {
      MoveConservesHistory(r, calls[0]);
      MovesConserveHistory(Apply(r, calls[0]), calls[1..]);
    }
  }

  lemma MoveConservesHistory<V, P, D>(r: Router<V, P, D>, c: Call<V, P, D>)
    requires Valid(r) && r.current.Some? && IsMove(c)
    ensures var s := Apply(r, c);
      && Valid(s) && HeldViews(s) == HeldViews(r) && s.current.Some?
      && |s.back| + |s.forward| == |r.back| + |r.forward|
  {
    if c.Back? {
      GoBackKeepsViews(r, c.archivedName);
    } else {
      GoForwardKeepsViews(r, c.archivedName);
    }
  }

  /** Registering a route twice: navigation uses the second factory only. */
  lemma SecondRegistrationWins<V, P, D>(r: Router<V, P, D>, name: string, f1: D, f2: D, parameter: Option<P>, archivedName: string, creation: Creation<V>)
    ensures var s := NavigateTo(RegisterRoute(RegisterRoute(r, name, f1), name, f2), name, parameter, archivedName, creation).0;
      s.resolutions == r.resolutions + [Delegate(f2)]
  {
  }
}
