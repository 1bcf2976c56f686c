# Soft navigation: page-data store and navigation controller

A Dafny model of the client-side "soft navigation" layer of a server-rendered CMS site. The layer
has two parts.

- The **page-data store** is a process-wide singleton. It holds `{pageData, initialized}` and has
  three writers: `initialize` (seed once), `setPageData` (replace, ignored until data is present)
  and the seeding branch of `usePageData`.
- The **`PageTransition` controller** intercepts in-site link clicks. It wraps
  `history.pushState`/`replaceState` and listens to `popstate`. It fetches replacement page data
  and commits it to the store, falling back to a full page load when the fetch says the page is
  not servable. It also copies the page's SEO metadata into the document.

Modules, one per concern:

- `PageDataModel` (`page_data.dfy`): the `PageData` shape the layer reads (lang, SEO title,
  description, `allow_indexing`) and JavaScript truthiness of its optional fields.
- `PageDataStore` (`page_data_store.dfy`): the writers as pure `state -> state` transitions, the
  invariants they keep over any series of writes, and the `Store` class that applies them in place.
- `LinkClick` (`link_click.dfy`): the click handler's decision chain as a function. A
  conjunction of the exclusion rules is its reference definition.
- `MetadataSync` (`metadata_sync.dfy`): the title, description, robots and `lang` update.
- `Navigation` (`navigation.dfy`): fetch outcomes and the log of observable events. It also
  holds how a URL given to the history API becomes `location.pathname`, and the event sequences
  of `navigateToUrl` and of the path-change handler, with their ordering lemmas.
- `SoftNavigation` (`page_transition.dfy`): `Host` (window, document, history and the log of
  hook calls) and the `PageTransition` class. Its methods are the mount and unmount effects, the
  click listener, `navigateToUrl`, the path-change handler, the wrapped history functions and
  `popstate`.

Ordering is modelled by `Host.events`: history pushes, `setPageData` calls, `onPathChange` and
`onNavigate` calls, and assignments to `location.href`, oldest first.

While the controller is mounted, `history.pushState` is wrapped. So the push inside
`navigateToUrl` itself starts the path-change handler: one per wrapper layer. Each handler reads
the new path and either calls the hook at once, when parsing the path throws, or leaves a fetch in
flight. That fetch later commits and calls the hook again (`ResolvePathChange`). In-flight fetches
may be settled in any order, which is the source's last-resolved-wins behaviour.

Foreign code is given as inputs. `parseSlugForLangAndPath` becomes `slugParses`, a pure predicate
saying whether parsing a string succeeds. Each awaited `fetchPageData` gives a `FetchResult`:
`Success(data)`, `Error`, `NotFound`, or `Rejected` (the promise rejects).

Two behaviours of the code worth noting:

- The metadata effect depends on the component's `pageData` prop, not on the store. A soft
  navigation therefore does not update the title or meta tags. `NavigateToUrl` leaves
  `Host.Doc()` unchanged, and the sync runs in `Mount`.
- The `http` scheme test is a literal prefix test. A relative link such as `httpdocs/index` is
  let through like an external one.

## Model

| member | source | states |
|---|---|---|
| `PageDataStore.Store.constructor` | src/pageDataStore.ts:11-13 | the store starts with `pageData == null` and `initialized == false` |
| `PageDataStore.InitialState` | src/pageDataStore.ts:12-13 | the store is created unseeded with no data, so both invariants hold from the start |
| `PageDataStore.InitializeStep` | src/pageDataStore.ts:14-17 | after `initialize` the store is always initialized and consistent; a seeded store is returned unchanged; an unseeded one now holds the given value |
| `PageDataStore.SetPageDataStep` | src/pageDataStore.ts:18-26 | a no-op while data is null; otherwise data becomes the literal value or `f(old data)`; `initialized` and data presence are untouched; the invariant is kept |
| `PageDataStore.SeedStep` | src/pageDataStore.ts:33-38 | seeds `{initial, true}` only when unseeded and an initial value is given, else leaves the state alone; never clears `initialized`; keeps the invariant |
| `PageDataStore.Step` | src/pageDataStore.ts:14-38 | every writer keeps `!initialized ==> pageData == null`, keeps "data present iff initialized", and never clears `initialized` |
| `PageDataStore.RunKeepsInvariant` | src/pageDataStore.ts:14-38 | over any series of writes, `!initialized ==> pageData == null` holds and `initialized` is monotone |
| `PageDataStore.RunKeepsDataIffInitialized` | src/pageDataStore.ts:11-38 | from the initial state on, data is present exactly when the store is initialized |
| `PageDataStore.UpdatesBeforeSeedingAreIgnored` | src/pageDataStore.ts:18-20 | any number of `setPageData` calls before seeding leave the store `{null, false}` |
| `PageDataStore.FirstSeedWins` | src/pageDataStore.ts:14-17 | once seeded, any further `initialize` or seeding calls leave the state exactly as it was |
| `PageDataStore.InitializeTwiceKeepsFirst` | src/pageDataStore.ts:14-17 | `initialize(a)` then `initialize(b)` gives `{a, true}` |
| `PageDataStore.LaterReplacementWins` | src/pageDataStore.ts:18-26 | two literal replacements in a row leave the later value, whatever the earlier one was (last-resolved-wins) |
| `PageDataStore.Store.Initialize` | src/pageDataStore.ts:14-17 | the in-place store takes exactly the `initialize` transition and keeps its invariant |
| `PageDataStore.Store.SetPageData` | src/pageDataStore.ts:18-26 | the in-place store takes exactly the `setPageData` transition and keeps its invariant |
| `PageDataStore.Store.UsePageData` | src/pageDataStore.ts:30-43 | the in-place store takes the seeding transition; the returned snapshot is the store's new state |
| `LinkClick.DecideClick` | src/PageTransition.tsx:126-170 | a click is intercepted iff there is a link with a non-empty href not starting with `http`, `//`, `mailto:`, `tel:` or `#`, its target is empty or `_self`, no modifier is held and there is no `download`; an intercepted click carries the link's href and goes to `onNavigate` exactly when one is supplied |
| `LinkClick.SitePathLinkIsIntercepted` | src/PageTransition.tsx:128-169 | a plain click on a `/path` link (not `//`) opening in this tab is intercepted with that href |
| `LinkClick.HttpPrefixedRelativeLinkPassesThrough` | src/PageTransition.tsx:135-137 | the scheme test is a literal prefix test: `httpdocs/index` passes through |
| `MetadataSync.RobotsContent` | src/PageTransition.tsx:70-75 | the robots content is `"index, follow"` iff `allow_indexing` is truthy, `"noindex, nofollow"` iff not |
| `MetadataSync.SyncedDocument` | src/PageTransition.tsx:52-81 | no data: document unchanged; tags are never created or removed; title, description and lang change only when the field (and for description the tag) is present and then take its value; an existing robots tag gets the robots content |
| `MetadataSync.SyncIsIdempotent` | src/PageTransition.tsx:52-81 | running the sync twice with the same data gives the same document as once |
| `Navigation.PathOf` | src/PageTransition.tsx:31-33 | the path of a URL is its longest prefix without `?` or `#`, stopping at the first of them |
| `Navigation.ResolvePathShape` | src/PageTransition.tsx:107-115 | the pathname after a history call: unchanged when the URL has no path, the URL's path when it is absolute, always ending with the URL's path, never gaining a query or fragment |
| `Navigation.AbsolutePathResolvesToItself` | src/PageTransition.tsx:31-33 | after pushing `/en/about` (no query or fragment) the pathname is `/en/about` |
| `Navigation.ReplaceLast` | src/PageTransition.tsx:112-115 | `replaceState` swaps the last history entry for the URL and keeps the others |
| `Navigation.PathChangeStart` | src/PageTransition.tsx:85-99 | before its `await` the handler emits at most one event: `onPathChange(currentPath)`, exactly when parsing the path throws and the hook is supplied |
| `Navigation.PathChangeSettle` | src/PageTransition.tsx:90-99 | once the fetch settles the handler commits first, and only a successful result, then calls the hook with its path last; one event for each of these |
| `Navigation.PathChangeRun` | src/PageTransition.tsx:85-100 | a whole handler run: one commit when it parsed and succeeded, one hook call when supplied, and the hook call is the last event exactly when the hook is supplied |
| `Navigation.PathChangeNeverFallsBack` | src/PageTransition.tsx:88-94 | the path-change handler's only effects are store updates and `onPathChange(currentPath)` calls: it never assigns `location.href` or touches history; it commits a fetch exactly when it parsed and succeeded |
| `Navigation.PathChangeCallsHookOnce` | src/PageTransition.tsx:85-100 | the path-change handler calls `onPathChange(currentPath)` exactly once (when supplied), even after a caught exception |
| `Navigation.EchoesAreHookCalls` | src/PageTransition.tsx:107-110 | the handlers the wrapped `pushState` starts contribute only `onPathChange(newPath)` calls before the commit, one per wrapper and only when the new path fails to parse |
| `Navigation.NavigationOutcomes` | src/PageTransition.tsx:21-38 | `navigateToUrl` leaves no trace exactly when parsing or fetching throws; otherwise its first event is `location.href = url` exactly when the result is `error` or `notFound`, and the push of `url` otherwise |
| `Navigation.IneligibleFallsBack` | src/PageTransition.tsx:26-29 | on `error` or `notFound` the only effect is `location.href = url`: no push, no store update, no hook |
| `Navigation.FailuresAreSilent` | src/PageTransition.tsx:22-37 | a throw while parsing or fetching has no effect at all, not even a full page load |
| `Navigation.SoftNavigationShape` | src/PageTransition.tsx:31-33 | a successful navigation is: push, the wrapped handlers' hook calls, the commit, the caller's hook |
| `Navigation.SoftNavigationOrder` | src/PageTransition.tsx:31-33 | on success the history push comes first, the store update after it, and the hook with the new path last |
| `Navigation.SoftNavigationCommitsOnce` | src/PageTransition.tsx:26-33 | on success exactly one history push and one store update happen, and there is no full-page fallback |
| `SoftNavigation.PageTransition.StartPathChange` | src/PageTransition.tsx:85-99 | the handler's synchronous part: with the path it reads, a parse failure calls the hook at once, otherwise a fetch for that path is left in flight; nothing else changes |
| `SoftNavigation.PageTransition.ResolvePathChange` | src/PageTransition.tsx:88-99 | a settled fetch (any of those in flight) commits only on success, then calls the hook with the handler's path; history, location and `location.href` are untouched |
| `SoftNavigation.PageTransition.CallHistory` | src/PageTransition.tsx:107-115 | a call through a slot runs the browser's function (entry recorded, pathname moved) and then starts one path-change handler per wrapper, each seeing the new path |
| `SoftNavigation.PageTransition.PushState` | src/PageTransition.tsx:107-110 | any `pushState(url)` adds the entry, moves the pathname and, while mounted, starts a refresh of the new path |
| `SoftNavigation.PageTransition.ReplaceState` | src/PageTransition.tsx:112-115 | any `replaceState(url)` replaces the last entry, moves the pathname and, while mounted, starts a refresh of the new path |
| `SoftNavigation.PageTransition.PopState` | src/PageTransition.tsx:102 | a traversal to a path starts one path-change handler per registered popstate listener |
| `SoftNavigation.PageTransition.NavigateToUrl` | src/PageTransition.tsx:21-38 | the event log grows by the navigation trace; on success exactly one entry is pushed, the pathname moves, the store takes `setPageData(data)` and the wrapped handlers' fetches are in flight; on `error`/`notFound` only `location.href` is set; on a throw nothing changes; the document is never touched |
| `SoftNavigation.PageTransition.SoftNavigate` | src/PageTransition.tsx:31-33 | after a successful fetch: the entry is pushed through the wrapped slot, the store takes `setPageData(data)` and the hook gets the new pathname, in that order |
| `SoftNavigation.PageTransition.HandleLinkClick` | src/PageTransition.tsx:124-178 | with the listener registered the result is `DecideClick`; a passed-through click changes nothing; an intercepted one calls `onNavigate(href)` and nothing else, or runs `navigateToUrl(href)` |
| `SoftNavigation.PageTransition.SyncMetadata` | src/PageTransition.tsx:52-81 | the document becomes `SyncedDocument` of the store's data; nothing else changes |
| `SoftNavigation.PageTransition.Mount` | src/PageTransition.tsx:17-173 | render-time seeding then `initialize`, so the store is seeded; the flag is set; the metadata is synced; both history slots are wrapped around the previous functions, which the cleanup keeps; one popstate and one click listener are added |
| `SoftNavigation.PageTransition.Unmount` | src/PageTransition.tsx:47-177 | the flag is cleared, the captured history functions are put back and the listeners removed; store, location and in-flight fetches are untouched |
| `SoftNavigation.PageTransition.MountThenUnmount` | src/PageTransition.tsx:104-122 | a direct `pushState(url)` while mounted starts a refresh of the new path (its fetch is the latest in flight, or the hook is called at once when the path does not parse); unmounting then restores the original `pushState`/`replaceState` and listener counts and clears the flag |

## Left out

- React machinery: render timing and effect dependency arrays. A change of the `pageData`,
  `onPathChange` or `onNavigate` props re-runs effects; that is not modelled. Mount and unmount
  are explicit calls.
- Re-renders after a store change re-run `usePageData`. Its seeding is then a no-op, so only the
  mount-time render is modelled.
- zustand internals: subscriber notification and the `getState` snapshot identity. The store is
  two plain fields.
- `fetchPageData` and `parseSlugForLangAndPath` are foreign code that is not part of this model.
  The parser is the predicate `slugParses`. The `lang`/`path` pair it yields is not modelled; the
  fetch result is an input.
- The real DOM. `closest('a')`, `getAttribute`, `querySelector` and the event object become
  fields of `Click`, `Anchor` and `Host`. `preventDefault` and the two `stopPropagation` calls are
  represented by an `Intercept` decision. The event argument passed to `onNavigate` is not
  recorded.
- A meta tag without a `content` attribute is modelled as one with empty content.
- Async interleaving inside `navigateToUrl`: it runs to completion for one fetch result. The
  path-change handler is split at its `await`, and the fetches it leaves in flight may settle in
  any order.
- `console.error` logging in both catch blocks.
- Exceptions thrown by the caller's hooks, by an updater function, or by `pushState` itself are
  not modelled. This includes the SecurityError for a cross-origin URL.
- URL resolution is reduced to the path: the query and fragment are cut off, and a relative path
  is joined to the current directory. Dot segments, percent-encoding, origins and
  protocol-relative URLs are not modelled.
- One controller per document: every wrapper layer in a history slot and every popstate listener
  is taken to be this controller's, with its `onPathChange`. Two controllers mounted on one
  document with different hooks are not modelled.
- History traversal: `PopState` takes the destination path. Neither the history index nor the
  entries' state objects are modelled.
- `src/index.ts` only re-exports and is not part of this model.
