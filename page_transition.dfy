/**
  The navigation controller (`PageTransition`) over an explicit browser environment.

  `Host` stands for `window`, `document` and `history`, together with a log of the calls the
  controller makes to the caller's hooks and to the store. `PageTransition` is the mounted
  component: its methods are the mount and unmount effects, the click handler, `navigateToUrl`
  and the path-change handler. The slug parser is the pure function `slugParses` (does parsing
  succeed for this string); each fetch's result is a parameter.
 */
module SoftNavigation {
  import opened PageDataModel
  import opened PageDataStore
  import opened LinkClick
  import opened MetadataSync
  import opened Navigation

  /** The hooks wiring of the host: the soft-navigation flag, the two history slots and the
      number of popstate and click listeners the controller has registered. */
  datatype Wiring = Wiring(pageTransition: bool, pushState: HistoryFn, replaceState: HistoryFn,
                           popstateListeners: nat, clickListeners: nat)

  /** Where the browser is: the session history entries, `location.pathname` and the last
      value assigned to `location.href` (a full page load). */
  datatype Location = Location(history: seq<string>, pathname: string, assignedHref: Option<string>)

  class Host {
    var history: seq<string>
    var pathname: string
    var assignedHref: Option<string>
    var title: string
    var description: Option<string>
    var robots: Option<string>
    var lang: string
    var pageTransition: bool
    var pushState: HistoryFn
    var replaceState: HistoryFn
    var popstateListeners: nat
    var clickListeners: nat
    /** Everything the controller has done that others observe, oldest first. */
    var events: seq<Event>
    /** The paths of the path-change handlers whose fetch has not settled yet. */
    var inFlight: seq<string>

    function Doc(): Document
      reads this
    {
      Document(title, description, robots, lang)
    }

    function Where(): Location
      reads this
    {
      Location(history, pathname, assignedHref)
    }

    function Hooks(): Wiring
      reads this
    {
      Wiring(pageTransition, pushState, replaceState, popstateListeners, clickListeners)
    }

    /** A freshly loaded document at `path`, nothing patched yet. */
    constructor (path: string, doc: Document)
      ensures history == [path] && pathname == path && assignedHref == None
      ensures Doc() == doc
      ensures Hooks() == Wiring(false, Native, Native, 0, 0)
      ensures events == [] && inFlight == []
    {
      history, pathname, assignedHref := [path], path, None;
      title, description, robots, lang := doc.title, doc.description, doc.robots, doc.lang;
      pageTransition, pushState, replaceState := false, Native, Native;
      popstateListeners, clickListeners := 0, 0;
      events, inFlight := [], [];
    }
  }

  /** The component's props: the server-rendered page data and which optional hooks were given. */
  datatype Props = Props(pageData: PageData, hasOnPathChange: bool, hasOnNavigate: bool)

  /** What the wrap effect's cleanup closure captured: the slots it replaced. */
  datatype Cleanup = Cleanup(pushState: HistoryFn, replaceState: HistoryFn)

  class PageTransition {
    const host: Host
    const store: Store
    const props: Props
    const slugParses: string -> bool

    ghost predicate Valid()
      reads this, store
    {
      store.Valid()
    }

    constructor (host: Host, store: Store, props: Props, slugParses: string -> bool)
      requires store.Valid()
      ensures Valid()
      ensures this.host == host && this.store == store && this.props == props && this.slugParses == slugParses
    {
      this.host, this.store, this.props, this.slugParses := host, store, props, slugParses;
    }

    /** The events of the synchronous part of a path-change handler started at `path`. */
    function StartEvents(path: string): seq<Event>
      reads this
    {
      PathChangeStart(path, slugParses(path), props.hasOnPathChange)
    }

    /** The fetch a path-change handler started at `path` leaves in flight. */
    function StartFetches(path: string): seq<string>
      reads this
    {
      if slugParses(path) then [path] else []
    }

    /** `handlePathChange` up to its `await`: it reads the current path; when parsing it
        throws, the catch logs and the hook is called at once; otherwise a fetch is in flight. */
    method StartPathChange()
      modifies host
      ensures host.events == old(host.events) + StartEvents(old(host.pathname))
      ensures host.inFlight == old(host.inFlight) + StartFetches(old(host.pathname))
      ensures host.Where() == old(host.Where()) && host.Doc() == old(host.Doc())
      ensures host.Hooks() == old(host.Hooks())
    {
      var currentPath := host.pathname;
      if slugParses(currentPath) {
        host.inFlight := host.inFlight + [currentPath];
      } else if props.hasOnPathChange {
        host.events := host.events + [PathChange(currentPath)];
      }
    }

    /** `handlePathChange` after its fetch settles, for the `i`-th fetch in flight (fetches may
        settle in any order): a success is committed, other outcomes are dropped, and the hook
        is called with the path the handler started at. It never assigns `location.href`. */
    method ResolvePathChange(i: nat, result: FetchResult)
      requires Valid()
      requires i < |host.inFlight|
      modifies host, store
      ensures Valid()
      ensures host.inFlight == old(host.inFlight[..i] + host.inFlight[i + 1..])
      ensures host.events == old(host.events) + PathChangeSettle(old(host.inFlight[i]), result, props.hasOnPathChange)
      ensures store.State() == if result.Success? then SetPageDataStep(old(store.State()), Value(result.data))
                               else old(store.State())
      ensures host.Where() == old(host.Where()) && host.Doc() == old(host.Doc())
      ensures host.Hooks() == old(host.Hooks())
    {
      var currentPath := host.inFlight[i];
      host.inFlight := host.inFlight[..i] + host.inFlight[i + 1..];
      if result.Success? {
        store.SetPageData(Value(result.data));
        host.events := host.events + [StoreUpdate(result.data)];
      }
      if props.hasOnPathChange {
        host.events := host.events + [PathChange(currentPath)];
      }
    }

    /** A call through a history slot holding `fn`: the browser's own function records the
        entry and moves the location; each wrapper around it then starts a path-change handler,
        which already sees the new path. */
    method CallHistory(fn: HistoryFn, url: string, replace: bool)
      modifies host
      decreases fn
      ensures host.history == if replace then ReplaceLast(old(host.history), url) else old(host.history) + [url]
      ensures host.pathname == ResolvePath(old(host.pathname), url)
      ensures host.assignedHref == old(host.assignedHref)
      ensures host.events == old(host.events) + [if replace then HistoryReplace(url) else HistoryPush(url)]
                             + Repeat(StartEvents(ResolvePath(old(host.pathname), url)), Layers(fn))
      ensures host.inFlight == old(host.inFlight) + Repeat(StartFetches(ResolvePath(old(host.pathname), url)), Layers(fn))
      ensures host.Doc() == old(host.Doc()) && host.Hooks() == old(host.Hooks())
    {
      match fn
      case Native =>
        host.history := if replace then ReplaceLast(host.history, url) else host.history + [url];
        host.pathname := ResolvePath(host.pathname, url);
        host.events := host.events + [if replace then HistoryReplace(url) else HistoryPush(url)];
      case Wrapped(inner) =>
        ghost var p := ResolvePath(host.pathname, url);
        CallHistory(inner, url, replace);
        StartPathChange();
        assert Layers(fn) == Layers(inner) + 1;
        assert Repeat(StartEvents(p), Layers(fn)) == Repeat(StartEvents(p), Layers(inner)) + StartEvents(p);
        assert Repeat(StartFetches(p), Layers(fn)) == Repeat(StartFetches(p), Layers(inner)) + StartFetches(p);
    }

    /** `history.pushState(null, '', url)`, by this controller or by any other code. */
    method PushState(url: string)
      modifies host
      ensures host.history == old(host.history) + [url]
      ensures host.pathname == ResolvePath(old(host.pathname), url)
      ensures host.assignedHref == old(host.assignedHref)
      ensures host.events == old(host.events) + [HistoryPush(url)]
                             + Repeat(StartEvents(host.pathname), Layers(old(host.pushState)))
      ensures host.inFlight == old(host.inFlight) + Repeat(StartFetches(host.pathname), Layers(old(host.pushState)))
      ensures host.Doc() == old(host.Doc()) && host.Hooks() == old(host.Hooks())
    {
      CallHistory(host.pushState, url, false);
    }

    /** `history.replaceState(null, '', url)`, by any code. */
    method ReplaceState(url: string)
      modifies host
      ensures host.history == ReplaceLast(old(host.history), url)
      ensures host.pathname == ResolvePath(old(host.pathname), url)
      ensures host.assignedHref == old(host.assignedHref)
      ensures host.events == old(host.events) + [HistoryReplace(url)]
                             + Repeat(StartEvents(host.pathname), Layers(old(host.replaceState)))
      ensures host.inFlight == old(host.inFlight) + Repeat(StartFetches(host.pathname), Layers(old(host.replaceState)))
      ensures host.Doc() == old(host.Doc()) && host.Hooks() == old(host.Hooks())
    {
      CallHistory(host.replaceState, url, true);
    }

    /** A back or forward traversal to an entry at `path`: the location moves, then every
        registered popstate listener starts a path-change handler. */
    method PopState(path: string)
      modifies host
      ensures host.pathname == path
      ensures host.history == old(host.history) && host.assignedHref == old(host.assignedHref)
      ensures host.events == old(host.events) + Repeat(StartEvents(path), old(host.popstateListeners))
      ensures host.inFlight == old(host.inFlight) + Repeat(StartFetches(path), old(host.popstateListeners))
      ensures host.Doc() == old(host.Doc()) && host.Hooks() == old(host.Hooks())
    {
      host.pathname := path;
      var k := 0;
      while k < host.popstateListeners
        invariant k <= host.popstateListeners
        invariant host.pathname == path
        invariant host.history == old(host.history) && host.assignedHref == old(host.assignedHref)
        invariant host.events == old(host.events) + Repeat(StartEvents(path), k)
        invariant host.inFlight == old(host.inFlight) + Repeat(StartFetches(path), k)
        invariant host.Doc() == old(host.Doc()) && host.Hooks() == old(host.Hooks())
      {
        StartPathChange();
        k := k + 1;
      }
    }

    /** What `navigateToUrl(url)` does, run to completion with fetch result `result`. */
    twostate predicate NavigatedTo(url: string, result: FetchResult)
      reads this, host, store
    {
      var path := ResolvePath(old(host.pathname), url);
      var layers := Layers(old(host.pushState));
      var committed := slugParses(url) && result.Success?;
      && host.events == old(host.events)
                        + NavigationTrace(url, slugParses(url), result, path, slugParses(path), layers, props.hasOnPathChange)
      && store.State() == (if committed then SetPageDataStep(old(store.State()), Value(result.data)) else old(store.State()))
      && host.history == (if committed then old(host.history) + [url] else old(host.history))
      && host.pathname == (if committed then path else old(host.pathname))
      && host.assignedHref == (if slugParses(url) && Ineligible(result) then Some(url) else old(host.assignedHref))
      && host.inFlight == old(host.inFlight) + (if committed then Repeat(StartFetches(path), layers) else [])
      && host.Doc() == old(host.Doc())
      && host.Hooks() == old(host.Hooks())
    }

    /** `navigateToUrl(url)`: parse, fetch, then either fall back to a full page load (`error`
        or `notFound`), or push the entry, commit the data and call the hook with the new path.
        A throw while parsing or fetching is caught and logged and nothing else happens. */
    method NavigateToUrl(url: string, result: FetchResult)
      requires Valid()
      modifies host, store
      ensures Valid()
      ensures NavigatedTo(url, result)
    {
      if !slugParses(url) {
        return;
      }
      match result
      case Rejected =>
        return;
      case Error =>
        host.assignedHref := Some(url);
        host.events := host.events + [FullNavigation(url)];
      case NotFound =>
        host.assignedHref := Some(url);
        host.events := host.events + [FullNavigation(url)];
      case Success(data) =>
        SoftNavigate(url, data);
    }

    /** The soft branch of `navigateToUrl`, once parsing and fetching have succeeded: push the
        entry, commit the data, then call the hook with the new `location.pathname`. */
    method SoftNavigate(url: string, data: PageData)
      requires Valid()
      requires slugParses(url)
      modifies host, store
      ensures Valid()
      ensures NavigatedTo(url, Success(data))
    {
      ghost var before := host.events;
      PushState(url);
      ghost var echoes := host.events[|before| + 1..];
      assert host.events == before + [HistoryPush(url)] + echoes;
      store.SetPageData(Value(data));
      host.events := host.events + [StoreUpdate(data)];
      if props.hasOnPathChange {
        host.events := host.events + [PathChange(host.pathname)];
      }
      assert host.events == before + ([HistoryPush(url)] + echoes + [StoreUpdate(data)]
                                      + HookCall(props.hasOnPathChange, host.pathname));
    }

    /** The capture-phase click listener. With no listener registered the click is not seen.
        An intercepted click has its default prevented and its propagation stopped, and goes
        either to `onNavigate` or to `navigateToUrl` (whose fetch gives `result`). */
    method HandleLinkClick(click: Click, result: FetchResult) returns (decision: ClickDecision)
      requires Valid()
      modifies host, store
      ensures Valid()
      ensures decision == if old(host.clickListeners) > 0 then DecideClick(click, props.hasOnNavigate) else PassThrough
      ensures decision.PassThrough? ==> unchanged(host, store)
      ensures decision.Intercept? && decision.viaOverride ==>
        && host.events == old(host.events) + [NavigateHook(decision.href)]
        && host.inFlight == old(host.inFlight)
        && host.Where() == old(host.Where()) && host.Doc() == old(host.Doc()) && host.Hooks() == old(host.Hooks())
        && unchanged(store)
      ensures decision.Intercept? && !decision.viaOverride ==> NavigatedTo(decision.href, result)
    {
      if host.clickListeners == 0 {
        return PassThrough;
      }
      decision := DecideClick(click, props.hasOnNavigate);
      match decision
      case PassThrough =>
      case Intercept(href, viaOverride) =>
        if viaOverride {
          host.events := host.events + [NavigateHook(href)];
        } else {
          NavigateToUrl(href, result);
        }
    }

    /** The metadata effect: writes the title, the description and robots tags and the root
        `lang` from the store's current data. */
    method SyncMetadata()
      modifies host
      ensures host.Doc() == SyncedDocument(store.pageData, old(host.Doc()))
      ensures host.Where() == old(host.Where()) && host.Hooks() == old(host.Hooks())
      ensures host.events == old(host.events) && host.inFlight == old(host.inFlight)
    {
      var current := store.pageData;
      if current.None? {
        return;
      }
      var data := current.value;
      if Present(Title(data)) {
        host.title := Title(data).value;
      }
      if host.description.Some? && Present(Description(data)) {
        host.description := Description(data);
      }
      if host.robots.Some? {
        host.robots := Some(RobotsContent(data));
      }
      if Present(data.lang) {
        host.lang := data.lang.value;
      }
    }

    /** Mounting: the render seeds the store (`usePageData`), then the effects run in order:
        `initialize` and the flag, the metadata sync, the popstate listener and the two history
        wrappers, and the click listener. The result is what the cleanup needs. */
    method Mount() returns (cleanup: Cleanup)
      requires Valid()
      modifies host, store
      ensures Valid()
      ensures store.State() == InitializeStep(SeedStep(old(store.State()), Some(props.pageData)), props.pageData)
      ensures store.initialized && store.pageData.Some?
      ensures cleanup == Cleanup(old(host.pushState), old(host.replaceState))
      ensures host.Hooks() == Wiring(true, Wrapped(old(host.pushState)), Wrapped(old(host.replaceState)),
                                     old(host.popstateListeners) + 1, old(host.clickListeners) + 1)
      ensures host.Doc() == SyncedDocument(store.pageData, old(host.Doc()))
      ensures host.Where() == old(host.Where())
      ensures host.events == old(host.events) && host.inFlight == old(host.inFlight)
    {
      var _ := store.UsePageData(Some(props.pageData));
      store.Initialize(props.pageData);
      host.pageTransition := true;
      SyncMetadata();
      host.popstateListeners := host.popstateListeners + 1;
      cleanup := Cleanup(host.pushState, host.replaceState);
      host.pushState := Wrapped(host.pushState);
      host.replaceState := Wrapped(host.replaceState);
      host.clickListeners := host.clickListeners + 1;
    }

    /** Unmounting: the cleanups clear the flag, remove the listeners and put back the history
        functions the wrap effect found. In-flight fetches are not cancelled. */
    method Unmount(cleanup: Cleanup)
      modifies host
      ensures host.Hooks() == Wiring(false, cleanup.pushState, cleanup.replaceState,
                                     if old(host.popstateListeners) > 0 then old(host.popstateListeners) - 1 else 0,
                                     if old(host.clickListeners) > 0 then old(host.clickListeners) - 1 else 0)
      ensures host.Doc() == old(host.Doc()) && host.Where() == old(host.Where())
      ensures host.events == old(host.events) && host.inFlight == old(host.inFlight)
    {
      host.pageTransition := false;
      if host.popstateListeners > 0 {
        host.popstateListeners := host.popstateListeners - 1;
      }
      host.pushState := cleanup.pushState;
      host.replaceState := cleanup.replaceState;
      if host.clickListeners > 0 {
        host.clickListeners := host.clickListeners - 1;
      }
    }

    /** A mount, a direct `history.pushState(null, '', url)` by any code while mounted, then
        the unmount. The push starts this controller's handler for the new path: its fetch is
        the latest in flight, or, when the path cannot be parsed, the hook has just been called
        with it. The unmount puts back the history functions and listener counts found at mount
        and clears the flag. */
    method MountThenUnmount(url: string)
      requires Valid()
      modifies host, store
      ensures Valid()
      ensures host.pushState == old(host.pushState) && host.replaceState == old(host.replaceState)
      ensures host.popstateListeners == old(host.popstateListeners)
      ensures host.clickListeners == old(host.clickListeners)
      ensures !host.pageTransition
      ensures host.history == old(host.history) + [url]
      ensures host.pathname == ResolvePath(old(host.pathname), url)
      ensures slugParses(host.pathname)
          ==> |host.inFlight| > |old(host.inFlight)| && host.inFlight[|host.inFlight| - 1] == host.pathname
      ensures !slugParses(host.pathname) && props.hasOnPathChange
          ==> |host.events| > |old(host.events)| && host.events[|host.events| - 1] == PathChange(host.pathname)
    {
      ghost var original := host.pushState;
      var cleanup := Mount();
      PushState(url);
      ghost var p := host.pathname;
      assert Layers(host.pushState) == Layers(original) + 1;
      assert Repeat(StartEvents(p), Layers(original) + 1) == Repeat(StartEvents(p), Layers(original)) + StartEvents(p);
      assert Repeat(StartFetches(p), Layers(original) + 1) == Repeat(StartFetches(p), Layers(original)) + StartFetches(p);
      Unmount(cleanup);
    }
  }
}
