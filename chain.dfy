/** The chain: feeding extracted links into the store, and the lazy walker that turns a start
    window into generated tokens. */
module Walk {
  import opened Types
  import opened Store
  import opened Sampling
  import opened LinkStream
  import Slices

  // ---------------------------------------------------------------- feeding

  /** What feeding `links` reports and leaves in the store: the increments in order, stopping at
      the first one the storage refuses. */
  function FeedOutcome<T>(chain: ChainMap<T>, fault: Fault<T>, links: seq<Link<T>>): (Result<()>, ChainMap<T>)
    decreases |links|
  {
    if links == [] then (Ok(()), chain)
    else match fault(IncrementRequest(links[0]))
      case Some(reason) => (Err(StorageError(reason)), chain)
      case None => FeedOutcome(Incremented(chain, links[0]), fault, links[1..])
  }

  /** With a store that accepts every increment, feeding succeeds and leaves the fold of the increments. */
  lemma {:induction false} FeedHealthy<T>(chain: ChainMap<T>, fault: Fault<T>, links: seq<Link<T>>)
    requires forall l :: l in links ==> fault(IncrementRequest(l)).None?
    ensures FeedOutcome(chain, fault, links) == (Ok(()), FeedAll(chain, links))
    decreases |links|
  {
    if links != [] {
      FeedHealthy(Incremented(chain, links[0]), fault, links[1..]);
    }
  }

  /** Feeding stops at the first refused increment, reports its error and keeps exactly the
      increments before it. */
  lemma {:induction false} FeedFirstError<T>(chain: ChainMap<T>, fault: Fault<T>, links: seq<Link<T>>, k: nat)
    requires k < |links| && fault(IncrementRequest(links[k])).Some?
    requires forall j :: 0 <= j < k ==> fault(IncrementRequest(links[j])).None?
    ensures FeedOutcome(chain, fault, links) ==
      (Err(StorageError(fault(IncrementRequest(links[k])).value)), FeedAll(chain, links[..k]))
    decreases k
  {
    if k > 0 {
      FeedFirstError(Incremented(chain, links[0]), fault, links[1..], k - 1);
      assert links[1..][..k - 1] == links[..k][1..];
    }
  }

  // ---------------------------------------------------------------- weight-map enumeration

  /** `es` lists every entry of `m` exactly once, in some order. */
  ghost predicate IsListing<T>(es: seq<(T, nat)>, m: WeightMap<T>)
    decreases |es|
  {
    if es == [] then m == map[] else es[0].0 in m && es[0].1 == m[es[0].0] && IsListing(es[1..], m - {es[0].0})
  }

  lemma {:induction false} ListingMembers<T>(es: seq<(T, nat)>, m: WeightMap<T>, i: nat)
    requires IsListing(es, m) && i < |es|
    ensures es[i].0 in m && es[i].1 == m[es[i].0]
    decreases |es|
  {
    if i > 0 {
      ListingMembers(es[1..], m - {es[0].0}, i - 1);
    }
  }

  /** Sum of all weights of a map. */
  ghost function Total<T>(m: WeightMap<T>): nat
    decreases |m|
  {
    if m == map[] then 0 else var k :| k in m; m[k] + Total(m - {k})
  }

  /** The total does not depend on which key is taken out first. */
  lemma {:induction false} TotalRemove<T>(m: WeightMap<T>, k: T)
    requires k in m
    ensures Total(m) == m[k] + Total(m - {k})
    decreases |m|
  {
    var j :| j in m && Total(m) == m[j] + Total(m - {j});
    if j != k {
      TotalRemove(m - {j}, k);
      TotalRemove(m - {k}, j);
      assert m - {j} - {k} == m - {k} - {j};
    }
  }

  /** Summing a listing gives the map's total weight, whatever the order. */
  lemma {:induction false} ListingSum<T>(es: seq<(T, nat)>, m: WeightMap<T>)
    requires IsListing(es, m)
    ensures Sum(es) == Total(m)
    decreases |es|
  {
    if es != [] {
      ListingSum(es[1..], m - {es[0].0});
      TotalRemove(m, es[0].0);
      assert es == [es[0]] + es[1..];
      SumCons(es[0], es[1..]);
    }
  }

  lemma TotalPositive<T>(m: WeightMap<T>, k: T)
    requires k in m && m[k] >= 1
    ensures Total(m) >= 1
  {
    TotalRemove(m, k);
  }

  /** Enumerates the entries of a weight map, in an order the model leaves open. */
  method Entries<T>(m: WeightMap<T>) returns (es: seq<(T, nat)>)
    ensures IsListing(es, m)
  {
    es := [];
    var todo := m.Keys;
    while todo != {}
      invariant todo <= m.Keys
      invariant IsListing(es, m - todo)
      decreases |todo|
    {
      var k :| k in todo;
      assert (m - (todo - {k})) - {k} == m - todo;
      es := [(k, m[k])] + es;
      todo := todo - {k};
    }
    assert m - {} == m;
  }

  // ---------------------------------------------------------------- walking

  /** The window after `t` is produced: drop the oldest token, append `t`. */
  function Slide<T>(window: State<T>, t: T): (w: State<T>)
    ensures |w| == |window|
    ensures window != [] ==> w == window[1..] + [t]
  {
    if window == [] then [] else window[1..] + [t]
  }

  /** `item` is a value the walker may yield at `window`: the store's error, or a recorded successor. */
  ghost predicate Step<T>(chain: ChainMap<T>, fault: Fault<T>, window: State<T>, item: Result<T>)
  {
    match GetOf(chain, fault, window)
    case Err(e) => item == Err(e)
    case Ok(m) => item.Ok? && item.value in m
  }

  /** The window once `item` has been yielded; an error leaves it unchanged. */
  function After<T>(window: State<T>, item: Result<T>): State<T>
  {
    if item.Ok? then Slide(window, item.value) else window
  }

  function WindowAfter<T>(window: State<T>, items: seq<Result<T>>): State<T>
    decreases |items|
  {
    if items == [] then window else WindowAfter(After(window, items[0]), items[1..])
  }

  /** `items` are the first |items| values a walker started at `window` may yield. */
  ghost predicate IsTrace<T>(chain: ChainMap<T>, fault: Fault<T>, window: State<T>, items: seq<Result<T>>)
    decreases |items|
  {
    items == [] || (Step(chain, fault, window, items[0]) && IsTrace(chain, fault, After(window, items[0]), items[1..]))
  }

  /** A trace extended by one more step taken at its final window is a trace. */
  lemma {:induction false} TraceExtend<T>(chain: ChainMap<T>, fault: Fault<T>, window: State<T>,
                                          items: seq<Result<T>>, item: Result<T>)
    requires IsTrace(chain, fault, window, items) && Step(chain, fault, WindowAfter(window, items), item)
    ensures IsTrace(chain, fault, window, items + [item])
    ensures WindowAfter(window, items + [item]) == After(WindowAfter(window, items), item)
    decreases |items|
  {
    if items == [] {
      assert IsTrace(chain, fault, After(window, item), []);
      assert [item][1..] == [];
    } else {
      TraceExtend(chain, fault, After(window, items[0]), items[1..], item);
      assert (items + [item])[1..] == items[1..] + [item];
    }
  }

  /** How many of `items` are successors, that is, how many draws the walker made for them. */
  function OkSteps<T>(items: seq<Result<T>>): nat
    decreases |items|
  {
    if items == [] then 0 else (if items[0].Ok? then 1 else 0) + OkSteps(items[1..])
  }

  /** `t` is the key that the raw draw `raw` selects from `m` when its entries are listed as `es`:
      the key whose cumulative-weight interval holds the draw reduced modulo the total weight. */
  ghost predicate Selects<T>(es: seq<(T, nat)>, m: WeightMap<T>, raw: nat, t: T)
  {
    IsListing(es, m) && Sum(es) == Total(m) && Sum(es) > 0 && t == es[PickIndex(es, raw % Sum(es))].0
  }

  /** `items` are values a walker started at `window` may yield (a trace), and they take their
      successors from the raw draws `source(draws)`, `source(draws + 1)`, ...: each successor is
      the key its draw selects from the weight map stored for its window, listed as in
      `listings`; an error consumes no draw.  `Drawn(.., [item], [listing])` is the single step. */
  ghost predicate Drawn<T>(chain: ChainMap<T>, fault: Fault<T>, source: nat -> nat, draws: nat,
                           window: State<T>, items: seq<Result<T>>, listings: seq<seq<(T, nat)>>)
    decreases |items|
  {
    && |listings| == |items|
    && (items == [] ||
        (&& Step(chain, fault, window, items[0])
         && (items[0].Ok? ==> Selects(listings[0], GetOf(chain, fault, window).value, source(draws), items[0].value))
         && Drawn(chain, fault, source, draws + (if items[0].Ok? then 1 else 0), After(window, items[0]),
                  items[1..], listings[1..])))
  }

  /** A drawn walk extended by one more value, drawn at its final window with the next draw, is a
      drawn walk. */
  lemma {:induction false} DrawnExtend<T>(chain: ChainMap<T>, fault: Fault<T>, source: nat -> nat, draws: nat,
                                          window: State<T>, items: seq<Result<T>>, listings: seq<seq<(T, nat)>>,
                                          item: Result<T>, listing: seq<(T, nat)>)
    requires Drawn(chain, fault, source, draws, window, items, listings)
    requires Drawn(chain, fault, source, draws + OkSteps(items), WindowAfter(window, items), [item], [listing])
    ensures Drawn(chain, fault, source, draws, window, items + [item], listings + [listing])
    decreases |items|
  {
    if items == [] {
      assert [] + [item] == [item] && [] + [listing] == [listing];
    } else {
      var d := draws + (if items[0].Ok? then 1 else 0);
      DrawnExtend(chain, fault, source, d, After(window, items[0]), items[1..], listings[1..], item, listing);
      assert (items + [item])[1..] == items[1..] + [item];
      assert (listings + [listing])[1..] == listings[1..] + [listing];
    }
  }

  /** One more value makes one more draw exactly when it is a successor. */
  lemma {:induction false} OkStepsExtend<T>(items: seq<Result<T>>, item: Result<T>)
    ensures OkSteps(items + [item]) == OkSteps(items) + (if item.Ok? then 1 else 0)
    decreases |items|
  {
    if items == [] {
      assert [item][1..] == [];
    } else {
      OkStepsExtend(items[1..], item);
      assert (items + [item])[1..] == items[1..] + [item];
    }
  }

  /** A drawn walk is a trace. */
  lemma {:induction false} DrawnTrace<T>(chain: ChainMap<T>, fault: Fault<T>, source: nat -> nat, draws: nat,
                                         window: State<T>, items: seq<Result<T>>, listings: seq<seq<(T, nat)>>)
    requires Drawn(chain, fault, source, draws, window, items, listings)
    ensures IsTrace(chain, fault, window, items)
    decreases |items|
  {
    if items != [] {
      DrawnTrace(chain, fault, source, draws + (if items[0].Ok? then 1 else 0), After(window, items[0]),
                 items[1..], listings[1..]);
    }
  }

  /** One more drawn step at the final window extends a drawn walk, its window and its draw count. */
  lemma WalkExtend<T>(chain: ChainMap<T>, fault: Fault<T>, source: nat -> nat, draws: nat, window: State<T>,
                      items: seq<Result<T>>, listings: seq<seq<(T, nat)>>,
                      drawn: nat, at: State<T>, item: Result<T>, listing: seq<(T, nat)>)
    requires Drawn(chain, fault, source, draws, window, items, listings)
    requires drawn == draws + OkSteps(items) && at == WindowAfter(window, items)
    requires Drawn(chain, fault, source, drawn, at, [item], [listing])
    ensures Drawn(chain, fault, source, draws, window, items + [item], listings + [listing])
    ensures WindowAfter(window, items + [item]) == After(WindowAfter(window, items), item)
    ensures OkSteps(items + [item]) == OkSteps(items) + (if item.Ok? then 1 else 0)
  {
    DrawnTrace(chain, fault, source, draws, window, items, listings);
    TraceExtend(chain, fault, window, items, item);
    DrawnExtend(chain, fault, source, draws, window, items, listings, item, listing);
    OkStepsExtend(items, item);
  }

  class Chain<T(0,==)> {
    const repository: Repository<T>
    const chooser: Chooser

    constructor (repository: Repository<T>, chooser: Chooser)
      ensures this.repository == repository && this.chooser == chooser
    {
      this.repository := repository;
      this.chooser := chooser;
    }

    /** Runs every link extracted from `input` through the store, stopping at the first storage error. */
    method Feed(input: seq<T>) returns (r: Result<()>)
      requires repository.Valid()
      modifies repository
      ensures repository.Valid()
      ensures (r, repository.chain) == FeedOutcome(old(repository.chain), repository.fault, LinksOf(repository.n, input))
    {
      var links := new Links(repository.n, input);
      while true
        invariant links.Valid() && links.n == repository.n && fresh(links) && fresh(links.from)
        invariant repository.Valid()
        invariant FeedOutcome(old(repository.chain), repository.fault, LinksOf(repository.n, input))
               == FeedOutcome(repository.chain, repository.fault, links.Pending())
        decreases |links.Pending()|
      {
        var link := links.Next();
        if link.None? {
          break;
        }
        var result := repository.IncrementWeight(link.value);
        if result.Err? {
          return Err(result.error);
        }
      }
      return Ok(());
    }

    /** A walker whose window is `start`. */
    method IterFrom(start: State<T>) returns (it: ChainIterator<T>)
      requires |start| == repository.n >= 1
      ensures fresh(it) && fresh(it.previous) && it.Valid()
      ensures it.repository == repository && it.chooser == chooser && it.previous[..] == start
    {
      it := new ChainIterator(repository, chooser, start);
    }

    /** A walker from some stored window; `None` when the store is empty. */
    method IterRandom() returns (r: Result<Option<ChainIterator<T>>>)
      requires repository.Valid() && repository.n >= 1
      ensures repository.fault(RandomRequest).Some? ==> r == Err(StorageError(repository.fault(RandomRequest).value))
      ensures repository.fault(RandomRequest).None? ==> r.Ok?
      ensures r.Ok? ==> (r.value.None? <==> repository.chain == map[])
      ensures r.Ok? && r.value.Some? ==> var it := r.value.value;
        fresh(it) && fresh(it.previous) && it.Valid() && it.repository == repository
        && it.chooser == chooser && it.previous[..] in repository.chain
    {
      var start := repository.Random();
      match start
      case Err(e) => return Err(e);
      case Ok(None) => return Ok(None);
      case Ok(Some(s)) =>
        var it := IterFrom(s);
        return Ok(Some(it));
    }

    /** A walker from some stored window that starts with `token`; `None` when there is none. */
    method IterFromState(token: T) returns (r: Result<Option<ChainIterator<T>>>)
      requires repository.Valid() && repository.n >= 1
      ensures repository.fault(StartingWithRequest(token)).Some? ==>
        r == Err(StorageError(repository.fault(StartingWithRequest(token)).value))
      ensures repository.fault(StartingWithRequest(token)).None? ==> r.Ok?
      ensures r.Ok? ==> (r.value.None? <==> !HasStart(repository.chain, token))
      ensures r.Ok? && r.value.Some? ==> var it := r.value.value;
        fresh(it) && fresh(it.previous) && it.Valid() && it.repository == repository
        && it.chooser == chooser && it.previous[..] in repository.chain && it.previous[0] == token
    {
      var start := repository.RandomStartingWith(token);
      match start
      case Err(e) => return Err(e);
      case Ok(None) => return Ok(None);
      case Ok(Some(s)) =>
        var it := IterFrom(s);
        return Ok(Some(it));
    }
  }

  /** The walker: reads the weights of its window, samples a successor, slides the window. */
  class ChainIterator<T(0,==)> {
    const repository: Repository<T>
    const chooser: Chooser
    const previous: array<T>

    ghost predicate Valid()
    {
      previous.Length == repository.n >= 1
    }

    constructor (repository: Repository<T>, chooser: Chooser, start: State<T>)
      requires |start| == repository.n >= 1
      ensures Valid() && fresh(previous) && previous[..] == start
      ensures this.repository == repository && this.chooser == chooser
    {
      this.repository := repository;
      this.chooser := chooser;
      previous := new T[|start|](i requires 0 <= i < |start| => start[i]);
    }

    /** Ends the walk (`None`) on an empty weight map; yields the store's error without moving on
        a storage failure; otherwise draws once below the total weight, yields the sampled
        successor and slides the window over it. */
    method Next() returns (item: Option<Result<T>>, ghost listing: seq<(T, nat)>)
      requires Valid() && repository.Valid()
      modifies previous, chooser
      ensures item.None? <==> GetOf(repository.chain, repository.fault, old(previous[..])) == Ok(map[])
      ensures item.None? ==> previous[..] == old(previous[..]) && unchanged(chooser)
      ensures item.Some? ==>
        && Step(repository.chain, repository.fault, old(previous[..]), item.value)
        && previous[..] == After(old(previous[..]), item.value)
        && Drawn(repository.chain, repository.fault, chooser.source, old(chooser.draws), old(previous[..]), [item.value], [listing])
        && chooser.draws == old(chooser.draws) + (if item.value.Ok? then 1 else 0)
        && chooser.bounds == old(chooser.bounds)
             + (if item.value.Ok? then [Total(Lookup(repository.chain, old(previous[..])))] else [])
      ensures item.Some? && item.value.Ok? ==> Weight(repository.chain, old(previous[..]), item.value.value) >= 1
    {
      var weights := repository.Get(previous[..]);
      match weights
      case Err(e) =>
        return Some(Err(e)), [];
      case Ok(m) =>
        if m == map[] {
          return None, [];
        }
        var entries := Entries(m);
        ListingSum(entries, m);
        var first := entries[0].0;
        ListingMembers(entries, m, 0);
        TotalPositive(m, first);
        ghost var window := previous[..];
        ghost var upcoming := chooser.Upcoming(Sum(entries));
        var state := chooser.Choose(entries);
        ghost var i :| 0 <= i < |entries| && entries[i].0 == state && entries[i].1 > 0;
        ListingMembers(entries, m, i);
        Slices.RotateLeft(previous);
        previous[previous.Length - 1] := state;
        assert previous[..] == Slide(window, state);
        assert Selects(entries, m, chooser.source(old(chooser.draws)), state);
        return Some(Ok(state)), entries;
    }
  }
}
