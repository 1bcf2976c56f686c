/**
  The pure side of the navigation controller: the outcomes of the foreign fetch, the events a
  navigation leaves behind (in order), how a URL given to the history API becomes the new
  `location.pathname`, and the event sequences of the two navigation flows.
 */
module Navigation {
  import opened PageDataModel

  /** What awaiting `fetchPageData(lang, path)` gives: page data, an `{error}` or `{notFound}`
      object, or a rejected promise (`Rejected`, caught by the caller). */
  datatype FetchResult = Success(data: PageData) | Error | NotFound | Rejected

  /** `'error' in result || 'notFound' in result`: not servable by soft navigation. */
  predicate Ineligible(r: FetchResult) {
    r.Error? || r.NotFound?
  }

  /** The observable steps of a navigation, in the order they happen: a history entry pushed or
      replaced, a `setPageData` call, an `onPathChange` call, an assignment to
      `location.href` (a full page load) and an `onNavigate` call. */
  datatype Event =
    | HistoryPush(url: string)
    | HistoryReplace(url: string)
    | StoreUpdate(data: PageData)
    | PathChange(path: string)
    | FullNavigation(url: string)
    | NavigateHook(url: string)

  /** What sits in the `history.pushState` or `replaceState` slot: the browser's own function,
      or a wrapper (installed at mount) that calls the function it replaced and then starts the
      path-change handler. */
  datatype HistoryFn = Native | Wrapped(inner: HistoryFn)

  /** How many path-change handlers one call through the slot starts. */
  function Layers(fn: HistoryFn): nat {
    match fn
    case Native => 0
    case Wrapped(inner) => Layers(inner) + 1
  }

  /** `k` copies of `s`, one after another. */
  function Repeat<T>(s: seq<T>, k: nat): seq<T> {
    if k == 0 then [] else Repeat(s, k - 1) + s
  }

  lemma {:induction false} RepeatOfEmpty<T>(s: seq<T>, k: nat)
    requires s == []
    ensures Repeat(s, k) == []
  {
    if k > 0 {
      RepeatOfEmpty(s, k - 1);
    }
  }

  lemma {:induction false} RepeatOfOne<T>(x: T, k: nat)
    ensures |Repeat([x], k)| == k
    ensures forall y :: y in Repeat([x], k) ==> y == x
  {
    if k > 0 {
      RepeatOfOne(x, k - 1);
    }
  }

  /** The path part of a URL reference: everything before its query or fragment. */
  function PathOf(url: string): (p: string)
    ensures p <= url
    ensures '?' !in p && '#' !in p
    ensures |p| < |url| ==> url[|p|] == '?' || url[|p|] == '#'
  {
    if url == [] || url[0] == '?' || url[0] == '#' then []
    else [url[0]] + PathOf(url[1..])
  }

  /** A reference without query or fragment is all path. */
  lemma {:induction false} PathOfPlainPath(url: string)
    requires '?' !in url && '#' !in url
    ensures PathOf(url) == url
  {
    if url != [] {
      assert url[0] in url;
      assert forall c :: c in url[1..] ==> c in url;
      PathOfPlainPath(url[1..]);
    }
  }

  /** The directory of a path: everything up to and including its last `/`. */
  function Directory(path: string): (d: string)
    ensures d <= path
    ensures d == [] || d[|d| - 1] == '/'
    ensures '/' !in path[|d|..]
    decreases |path|
  {
    if path == [] then []
    else if path[|path| - 1] == '/' then path
    else
      var d := Directory(path[..|path| - 1]);
      assert path[|d|..] == path[..|path| - 1][|d|..] + [path[|path| - 1]];
      d
  }

  /** The new `location.pathname` after the history API is given `url` while at `current`:
      an empty path keeps the current one, an absolute path replaces it, a relative one is
      taken against the current directory. */
  function ResolvePath(current: string, url: string): string {
    var p := PathOf(url);
    if p == [] then current
    else if p[0] == '/' then p
    else Directory(current) + p
  }

  /** The resolved path keeps the current one when the reference has no path, is the
      reference's path when that is absolute, always ends with the reference's path, and
      never gains a query or fragment. */
  lemma ResolvePathShape(current: string, url: string)
    ensures var r := ResolvePath(current, url);
      && (PathOf(url) == [] ==> r == current)
      && (|url| > 0 && url[0] == '/' ==> r == PathOf(url))
      && |PathOf(url)| <= |r| && r[|r| - |PathOf(url)|..] == PathOf(url)
      && ('?' !in current && '#' !in current ==> '?' !in r && '#' !in r)
  {
    var p := PathOf(url);
    if p != [] && p[0] != '/' {
      var d := Directory(current);
      forall c | c in d
        ensures c in current
      {
        var i :| 0 <= i < |d| && d[i] == c;
        assert current[i] == c;
      }
    }
  }

  /** Navigating to an absolute path without query or fragment lands on that very path. */
  lemma AbsolutePathResolvesToItself(current: string, url: string)
    requires |url| > 0 && url[0] == '/'
    requires '?' !in url && '#' !in url
    ensures ResolvePath(current, url) == url
  {
    PathOfPlainPath(url);
  }

  /** What `history.replaceState` does to the entry list: the current (last) entry is replaced. */
  function ReplaceLast(entries: seq<string>, url: string): (r: seq<string>)
    ensures |r| == if entries == [] then 1 else |entries|
    ensures r[|r| - 1] == url
    ensures r[..|r| - 1] == if entries == [] then [] else entries[..|entries| - 1]
  {
    if entries == [] then [url] else entries[..|entries| - 1] + [url]
  }

  /** `onPathChange?.(path)`. */
  function HookCall(hasOnPathChange: bool, path: string): seq<Event> {
    if hasOnPathChange then [PathChange(path)] else []
  }

  /** What the path-change handler does before it awaits the fetch: if parsing the current
      path throws, the catch runs at once and so does the hook. */
  function PathChangeStart(path: string, parses: bool, hasOnPathChange: bool): (t: seq<Event>)
    ensures t != [] <==> !parses && hasOnPathChange
    ensures |t| <= 1
    ensures forall e :: e in t ==> e == PathChange(path)
  {
    if parses then [] else HookCall(hasOnPathChange, path)
  }

  /** What the path-change handler does once its fetch settles: commit a success, then call
      the hook whatever the outcome. */
  function PathChangeSettle(path: string, result: FetchResult, hasOnPathChange: bool): (t: seq<Event>)
    ensures |t| == (if result.Success? then 1 else 0) + (if hasOnPathChange then 1 else 0)
    ensures result.Success? ==> t[0] == StoreUpdate(result.data)
    ensures forall e :: e in t && e.StoreUpdate? ==> result == Success(e.data)
    ensures hasOnPathChange <==> t != [] && t[|t| - 1] == PathChange(path)
  {
    (if result.Success? then [StoreUpdate(result.data)] else []) + HookCall(hasOnPathChange, path)
  }

  /** A whole run of the path-change handler for `path`. */
  function PathChangeRun(path: string, parses: bool, result: FetchResult, hasOnPathChange: bool): (t: seq<Event>)
    ensures |t| == (if parses && result.Success? then 1 else 0) + (if hasOnPathChange then 1 else 0)
    ensures hasOnPathChange <==> t != [] && t[|t| - 1] == PathChange(path)
  {
    PathChangeStart(path, parses, hasOnPathChange)
      + (if parses then PathChangeSettle(path, result, hasOnPathChange) else [])
  }

  /** The handler never falls back to a full page load and never touches history, and it
      commits only a successful fetch. */
  lemma PathChangeNeverFallsBack(path: string, parses: bool, result: FetchResult, hasOnPathChange: bool)
    ensures var t := PathChangeRun(path, parses, result, hasOnPathChange);
      && (forall e :: e in t ==> e.StoreUpdate? || e == PathChange(path))
      && (forall e :: e in t && e.StoreUpdate? ==> parses && result == Success(e.data))
      && (parses && result.Success? ==> StoreUpdate(result.data) in t)
  {
    var t := PathChangeRun(path, parses, result, hasOnPathChange);
    var hook := HookCall(hasOnPathChange, path);
    if parses && result.Success? {
      assert t == [StoreUpdate(result.data)] + hook;
    } else {
      assert t == hook;
    }
  }

  /** The handler calls the hook exactly once, with the path it started at, whether the fetch
      succeeded, failed or anything threw. */
  lemma PathChangeCallsHookOnce(path: string, parses: bool, result: FetchResult, hasOnPathChange: bool)
    ensures multiset(PathChangeRun(path, parses, result, hasOnPathChange))[PathChange(path)]
         == if hasOnPathChange then 1 else 0
  {
    var t := PathChangeRun(path, parses, result, hasOnPathChange);
    var hook := HookCall(hasOnPathChange, path);
    if parses && result.Success? {
      assert t == [StoreUpdate(result.data)] + hook;
      assert multiset(t) == multiset([StoreUpdate(result.data)]) + multiset(hook);
    } else {
      assert t == hook;
    }
  }

  /** The events of `navigateToUrl(url)`, given whether parsing `url` succeeds, the fetch
      result, the path the pushed entry lands on, whether that path parses, how many wrappers
      sit in the `pushState` slot and whether the caller supplied `onPathChange`. */
  function NavigationTrace(url: string, urlParses: bool, result: FetchResult, path: string,
                           pathParses: bool, layers: nat, hasOnPathChange: bool): seq<Event>
  {
    if !urlParses || result.Rejected? then []
    else if Ineligible(result) then [FullNavigation(url)]
    else
      [HistoryPush(url)]
      + Repeat(PathChangeStart(path, pathParses, hasOnPathChange), layers)
      + [StoreUpdate(result.data)]
      + HookCall(hasOnPathChange, path)
  }

  /** The three outcomes of `navigateToUrl`: a throw leaves no trace at all; otherwise the
      first event is a full page load exactly when the result is `error` or `notFound`, and a
      push of `url` otherwise. */
  lemma NavigationOutcomes(url: string, urlParses: bool, result: FetchResult, path: string,
                           pathParses: bool, layers: nat, hasOnPathChange: bool)
    ensures var t := NavigationTrace(url, urlParses, result, path, pathParses, layers, hasOnPathChange);
      && (t == [] <==> !urlParses || result.Rejected?)
      && (t != [] ==> (t[0] == FullNavigation(url) <==> Ineligible(result)))
      && (t != [] && !Ineligible(result) ==> t[0] == HistoryPush(url))
  {
  }

  /** The handlers the wrapped `pushState` starts emit nothing but hook calls for the new path,
      and emit them only when that path cannot be parsed. */
  lemma {:induction false} EchoesAreHookCalls(path: string, parses: bool, hasOnPathChange: bool, k: nat)
    ensures var r := Repeat(PathChangeStart(path, parses, hasOnPathChange), k);
      && |r| == (if !parses && hasOnPathChange then k else 0)
      && forall e :: e in r ==> e == PathChange(path)
  {
    if !parses && hasOnPathChange {
      RepeatOfOne(PathChange(path), k);
    } else {
      RepeatOfEmpty(PathChangeStart(path, parses, hasOnPathChange), k);
    }
  }

  /** On an `error` or `notFound` result the only effect is a full page load of `url`. */
  lemma IneligibleFallsBack(url: string, result: FetchResult, path: string, pathParses: bool,
                            layers: nat, hasOnPathChange: bool)
    requires Ineligible(result)
    ensures NavigationTrace(url, true, result, path, pathParses, layers, hasOnPathChange) == [FullNavigation(url)]
  {
  }

  /** A throw while parsing or fetching is swallowed: nothing happens, not even a full load. */
  lemma FailuresAreSilent(url: string, urlParses: bool, result: FetchResult, path: string,
                          pathParses: bool, layers: nat, hasOnPathChange: bool)
    requires !urlParses || result.Rejected?
    ensures NavigationTrace(url, urlParses, result, path, pathParses, layers, hasOnPathChange) == []
  {
  }

  /** The shape of a successful soft navigation: the history push, then only the hook calls of
      the handlers the wrapped `pushState` started, then the commit, then the caller's hook. */
  lemma {:induction false} SoftNavigationShape(url: string, data: PageData, path: string,
                                               pathParses: bool, layers: nat, hasOnPathChange: bool)
    ensures var echoes := Repeat(PathChangeStart(path, pathParses, hasOnPathChange), layers);
      && NavigationTrace(url, true, Success(data), path, pathParses, layers, hasOnPathChange)
         == [HistoryPush(url)] + echoes + [StoreUpdate(data)] + HookCall(hasOnPathChange, path)
      && (forall e :: e in echoes ==> e == PathChange(path))
      && (pathParses ==> echoes == [])
  {
    EchoesAreHookCalls(path, pathParses, hasOnPathChange, layers);
  }

  /** A successful soft navigation pushes history first, commits the fetched data after it,
      and calls the hook with the new path last. */
  lemma {:induction false} SoftNavigationOrder(url: string, data: PageData, path: string,
                                               pathParses: bool, layers: nat, hasOnPathChange: bool)
    ensures var t := NavigationTrace(url, true, Success(data), path, pathParses, layers, hasOnPathChange);
      var commit := |t| - |HookCall(hasOnPathChange, path)| - 1;
      && 0 < commit < |t|
      && t[0] == HistoryPush(url)
      && t[commit] == StoreUpdate(data)
      && (forall i :: 0 < i < commit ==> t[i] == PathChange(path))
      && (hasOnPathChange ==> t[|t| - 1] == PathChange(path))
  {
    var echoes := Repeat(PathChangeStart(path, pathParses, hasOnPathChange), layers);
    var hook := HookCall(hasOnPathChange, path);
    SoftNavigationShape(url, data, path, pathParses, layers, hasOnPathChange);
    var t := [HistoryPush(url)] + echoes + [StoreUpdate(data)] + hook;
    assert |t| == 2 + |echoes| + |hook|;
    assert t[1 + |echoes|] == StoreUpdate(data);
    forall i | 0 < i < 1 + |echoes|
      ensures t[i] == PathChange(path)
    {
      assert t[i] == echoes[i - 1];
      assert echoes[i - 1] in echoes;
    }
  }

  /** A successful soft navigation pushes exactly one history entry, commits exactly once and
      never falls back to a full page load. */
  lemma {:induction false} SoftNavigationCommitsOnce(url: string, data: PageData, path: string,
                                                     pathParses: bool, layers: nat, hasOnPathChange: bool)
    ensures var t := NavigationTrace(url, true, Success(data), path, pathParses, layers, hasOnPathChange);
      && multiset(t)[HistoryPush(url)] == 1
      && multiset(t)[StoreUpdate(data)] == 1
      && (forall e :: e in t ==> !e.FullNavigation?)
  {
    var echoes := Repeat(PathChangeStart(path, pathParses, hasOnPathChange), layers);
    var hook := HookCall(hasOnPathChange, path);
    SoftNavigationShape(url, data, path, pathParses, layers, hasOnPathChange);
    var t := [HistoryPush(url)] + echoes + [StoreUpdate(data)] + hook;
    assert HistoryPush(url) !in echoes && StoreUpdate(data) !in echoes;
    assert multiset(t) == multiset([HistoryPush(url)]) + multiset(echoes) + multiset([StoreUpdate(data)]) + multiset(hook);
  }
}
