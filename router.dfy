/**
 * RouterService: the route table, the current view and the two history
 * stacks, updated in place. Each method is proved against the matching
 * function of RouterModel, and keeps RouterModel.Valid.
 */
module Router {
  import opened Wrappers
  import opened RouterModel

  class RouterService<V, P, D> {
    var routes: map<string, Factory<D>>
    var currentView: Option<V>
    /** The back stack; its last element is the top. */
    var backHistory: seq<NavigationItem<V, P>>
    /** The forward stack; its last element is the top. */
    var forwardHistory: seq<NavigationItem<V, P>>
    /** Every Navigated event raised so far. */
    ghost var navigated: seq<NavigatedEvent<V, P>>
    /** Every factory NavigateTo has invoked. */
    ghost var resolutions: seq<Factory<D>>

    /** The abstract value of this router. */
    ghost function State(): Router<V, P, D>
      reads this
    {
      RouterModel.Router(routes, currentView, backHistory, forwardHistory, navigated, resolutions)
    }

    ghost predicate Valid()
      reads this
    {
      RouterModel.Valid(State())
    }

    constructor ()
      ensures Valid() && State() == Initial()
    {
      routes := map[];
      currentView := None;
      backHistory := [];
      forwardHistory := [];
      navigated := [];
      resolutions := [];
    }

    /** `CurrentView`. */
    function CurrentView(): (v: Option<V>)
      reads this
      ensures v == State().current
    {
      currentView
    }

    /** `CanGoBack`. */
    function CanGoBack(): (b: bool)
      reads this
      ensures b == RouterModel.CanGoBack(State())
    {
      |backHistory| > 0
    }

    /** `CanGoForward`. */
    function CanGoForward(): (b: bool)
      reads this
      ensures b == RouterModel.CanGoForward(State())
    {
      |forwardHistory| > 0
    }

    /** `RegisterRoute(string, Func<UserControl>)`. */
    method RegisterRoute(name: string, fn: D)
      requires Valid()
      modifies this
      ensures Valid() && State() == RouterModel.RegisterRoute(old(State()), name, fn)
    {
      routes := routes[name := Delegate(fn)];
    }

    /** `RegisterRoute(string, Type)`: the error is the ArgumentException it throws. */
    method RegisterRouteType(name: string, t: ControlType) returns (err: Option<RouterError>)
      requires Valid()
      modifies this
      ensures Valid() && (State(), err) == RouterModel.RegisterRouteType(old(State()), name, t)
    {
      if !t.isUserControl {
        return Some(NotAUserControl(t));
      }
      routes := routes[name := Activate(t)];
      err := None;
    }

    /**
     * `NavigateTo(routeName, parameter)`. `archivedName` is the name the
     * source computes for the outgoing view; `creation` is what invoking the
     * route's factory produced.
     */
    method NavigateTo(routeName: string, parameter: Option<P>, archivedName: string, creation: Creation<V>)
      returns (err: Option<RouterError>)
      requires Valid()
      modifies this
      ensures Valid()
      ensures (State(), err) == RouterModel.NavigateTo(old(State()), routeName, parameter, archivedName, creation)
    {
      if routeName !in routes {
        return Some(RouteNotFound(routeName));
      }
      ghost var before := State();
      var factory := routes[routeName];
      if currentView.Some? {
        backHistory := backHistory + [NavigationItem(archivedName, currentView.value, parameter)];
      }
      forwardHistory := [];
      resolutions := resolutions + [factory];
      ghost var prepared := State();
      assert prepared == before.(back := before.back + Archived(before.current, archivedName, parameter),
                                 forward := [], resolutions := before.resolutions + [before.routes[routeName]]);
      match creation
      case Threw =>
        return Some(FactoryThrew(routeName));
      case Created(newView) =>
        currentView := Some(newView);
        OnNavigated(routeName, newView, parameter);
        err := None;
        assert State() == prepared.(current := Some(newView), events := prepared.events + [Navigated(routeName, newView, parameter)]);
    }

    /** `GoBack()`. */
    method GoBack(archivedName: string)
      requires Valid()
      modifies this
      ensures Valid() && State() == RouterModel.GoBack(old(State()), archivedName)
    {
      if !CanGoBack() {
        return;
      }
      var backItem := backHistory[|backHistory| - 1];
      backHistory := backHistory[..|backHistory| - 1];
      if currentView.Some? {
        forwardHistory := forwardHistory + [NavigationItem(archivedName, currentView.value, None)];
      }
      currentView := Some(backItem.view);
      OnNavigated(backItem.routeName, backItem.view, backItem.parameter);
    }

    /** `GoForward()`. */
    method GoForward(archivedName: string)
      requires Valid()
      modifies this
      ensures Valid() && State() == RouterModel.GoForward(old(State()), archivedName)
    {
      if !CanGoForward() {
        return;
      }
      var forwardItem := forwardHistory[|forwardHistory| - 1];
      forwardHistory := forwardHistory[..|forwardHistory| - 1];
      if currentView.Some? {
        backHistory := backHistory + [NavigationItem(archivedName, currentView.value, None)];
      }
      currentView := Some(forwardItem.view);
      OnNavigated(forwardItem.routeName, forwardItem.view, forwardItem.parameter);
    }

    /** `ClearHistory()`. */
    method ClearHistory()
      requires Valid()
      modifies this
      ensures Valid() && State() == RouterModel.ClearHistory(old(State()))
    {
      backHistory := [];
      forwardHistory := [];
    }

    /** `OnNavigated`: raises Navigated with the route, the view and the parameter. */
    method OnNavigated(routeName: string, view: V, parameter: Option<P>)
      modifies this`navigated
      ensures navigated == old(navigated) + [Navigated(routeName, view, parameter)]
    {
      navigated := navigated + [Navigated(routeName, view, parameter)];
    }
  }
}
