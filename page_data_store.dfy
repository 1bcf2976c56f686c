/**
  The process-wide page-data store. Its writers are pure transitions from one snapshot
  `{pageData, initialized}` to the next; the `Store` class holds the snapshot's two fields
  and applies those transitions in place, as the singleton does.
 */
module PageDataStore {
  import opened PageDataModel

  datatype StoreState = StoreState(pageData: Option<PageData>, initialized: bool)

  /** The argument of `setPageData`: a literal value, or a pure transformer of the current data. */
  datatype Updater = Value(data: PageData) | Transform(f: PageData -> PageData)

  /** The store's invariant: an unseeded store holds no data. */
  predicate Consistent(s: StoreState) {
    !s.initialized ==> s.pageData.None?
  }

  /** The stronger invariant of every snapshot reachable from the initial one. */
  predicate DataIffInitialized(s: StoreState) {
    s.initialized <==> s.pageData.Some?
  }

  /** The snapshot the store is created with: unseeded, and so holding no data. */
  function InitialState(): (s: StoreState)
    ensures !s.initialized
    ensures Consistent(s) && DataIffInitialized(s)
  {
    StoreState(None, false)
  }

  /** `initialize(initial)`: seeds an unseeded store; a seeded store is returned as it is. */
  function InitializeStep(s: StoreState, initial: PageData): (r: StoreState)
    ensures r.initialized && Consistent(r)
    ensures DataIffInitialized(s) ==> DataIffInitialized(r)
    ensures s.initialized ==> r == s
    ensures !s.initialized ==> r.pageData == Some(initial)
  {
    if s.initialized then s else StoreState(Some(initial), true)
  }

  /** `setPageData(updater)`: a no-op while the store holds no data; otherwise the data is
      replaced by the literal value or by the transformer applied to the current data. */
  function SetPageDataStep(s: StoreState, u: Updater): (r: StoreState)
    ensures r.initialized == s.initialized
    ensures r.pageData.Some? <==> s.pageData.Some?
    ensures s.pageData.None? ==> r == s
    ensures s.pageData.Some? && u.Value? ==> r.pageData == Some(u.data)
    ensures s.pageData.Some? && u.Transform? ==> r.pageData == Some(u.f(s.pageData.value))
    ensures Consistent(s) ==> Consistent(r)
    ensures DataIffInitialized(s) ==> DataIffInitialized(r)
  {
    if s.pageData.None? then s
    else
      var next := match u
        case Value(v) => v
        case Transform(f) => f(s.pageData.value);
      s.(pageData := Some(next))
  }

  /** The seeding branch of `usePageData(initial)`: only an unseeded store given an initial
      value is seeded; otherwise the snapshot is left alone. */
  function SeedStep(s: StoreState, initial: Option<PageData>): (r: StoreState)
    ensures !s.initialized && initial.Some? ==> r.initialized && r.pageData == initial
    ensures s.initialized || initial.None? ==> r == s
    ensures s.initialized ==> r.initialized
    ensures Consistent(s) ==> Consistent(r)
    ensures DataIffInitialized(s) ==> DataIffInitialized(r)
  {
    if !s.initialized && initial.Some? then StoreState(initial, true) else s
  }

  /** One call of one of the store's three writers. */
  datatype Write = Initialize(initial: PageData) | SetPageData(updater: Updater) | Seed(seed: Option<PageData>)

  function Step(s: StoreState, w: Write): (r: StoreState)
    ensures Consistent(s) ==> Consistent(r)
    ensures DataIffInitialized(s) ==> DataIffInitialized(r)
    ensures s.initialized ==> r.initialized
  {
    match w
    case Initialize(x) => InitializeStep(s, x)
    case SetPageData(u) => SetPageDataStep(s, u)
    case Seed(x) => SeedStep(s, x)
  }

  /** The snapshot after a series of writes, in order. */
  function Run(s: StoreState, ws: seq<Write>): StoreState
    decreases |ws|
  {
    if ws == [] then s else Run(Step(s, ws[0]), ws[1..])
  }

  /** No writer ever clears `initialized`, and every writer keeps the invariant. */
  lemma {:induction false} RunKeepsInvariant(s: StoreState, ws: seq<Write>)
    requires Consistent(s)
    ensures Consistent(Run(s, ws))
    ensures s.initialized ==> Run(s, ws).initialized
    decreases |ws|
  {
    if ws != [] {
      RunKeepsInvariant(Step(s, ws[0]), ws[1..]);
    }
  }

  /** From the initial snapshot on, data is present exactly when the store is seeded. */
  lemma {:induction false} RunKeepsDataIffInitialized(s: StoreState, ws: seq<Write>)
    requires DataIffInitialized(s)
    ensures DataIffInitialized(Run(s, ws))
    decreases |ws|
  {
    if ws != [] {
      RunKeepsDataIffInitialized(Step(s, ws[0]), ws[1..]);
    }
  }

  /** Writes made before the store is seeded that are all `setPageData` leave it at `{null, false}`. */
  lemma {:induction false} UpdatesBeforeSeedingAreIgnored(ws: seq<Write>)
    requires forall i :: 0 <= i < |ws| ==> ws[i].SetPageData?
    ensures Run(InitialState(), ws) == InitialState()
    decreases |ws|
  {
    if ws != [] {
      UpdatesBeforeSeedingAreIgnored(ws[1..]);
    }
  }

  /** Once seeded, only `setPageData` changes the data: any number of further `initialize`
      and seeding calls keep the first value. */
  lemma {:induction false} FirstSeedWins(s: StoreState, ws: seq<Write>)
    requires s.initialized
    requires forall i :: 0 <= i < |ws| ==> !ws[i].SetPageData?
    ensures Run(s, ws) == s
    decreases |ws|
  {
    if ws != [] {
      FirstSeedWins(Step(s, ws[0]), ws[1..]);
    }
  }

  /** `initialize` called twice with different values keeps the first. */
  lemma InitializeTwiceKeepsFirst(a: PageData, b: PageData)
    ensures InitializeStep(InitializeStep(InitialState(), a), b) == StoreState(Some(a), true)
  {
  }

  /** Two literal replacements in a row: the later one wins, whatever the earlier one was.
      This is why overlapping fetches commit last-resolved-wins. */
  lemma LaterReplacementWins(s: StoreState, a: PageData, b: PageData)
    requires s.pageData.Some?
    ensures SetPageDataStep(SetPageDataStep(s, Value(a)), Value(b)) == s.(pageData := Some(b))
  {
  }

  /** The singleton: a snapshot's two fields, updated in place by the writers. */
  class Store {
    var pageData: Option<PageData>
    var initialized: bool

    function State(): StoreState
      reads this
    {
      StoreState(pageData, initialized)
    }

    /** The reachable-state invariant; `Consistent` follows from it. */
    ghost predicate Valid()
      reads this
    {
      DataIffInitialized(State())
    }

    /** The state the store is created with at module load. */
    constructor ()
      ensures Valid()
      ensures pageData == None && !initialized
    {
      pageData := None;
      initialized := false;
    }

    method Initialize(initial: PageData)
      requires Valid()
      modifies this
      ensures Valid()
      ensures State() == InitializeStep(old(State()), initial)
    {
      if !initialized {
        pageData, initialized := Some(initial), true;
      }
    }

    method SetPageData(updater: Updater)
      requires Valid()
      modifies this
      ensures Valid()
      ensures State() == SetPageDataStep(old(State()), updater)
    {
      if pageData.Some? {
        var next := match updater
          case Value(v) => v
          case Transform(f) => f(pageData.value);
        pageData := Some(next);
      }
    }

    /** `usePageData(initial)`: seeds the store on first use and returns the snapshot the
        caller sees, which is the store's new state. */
    method UsePageData(initial: Option<PageData>) returns (view: StoreState)
      requires Valid()
      modifies this
      ensures Valid()
      ensures State() == SeedStep(old(State()), initial)
      ensures view == State()
    {
      if !initialized && initial.Some? {
        pageData, initialized := initial, true;
        return StoreState(initial, true);
      }
      view := State();
    }
  }
}
