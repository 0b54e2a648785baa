/** The weight store: a map from a window to the successor counts observed after it.  One class
    serves as the store contract; its contents are the in-memory map, and `fault` stands for the
    storage errors a persistent implementation may report (it never reports one for the
    in-memory store). */
module Store {
  import opened Types

  type ChainMap<T> = map<State<T>, WeightMap<T>>

  /** The requests a store answers; `fault` decides, per request, whether storage fails. */
  datatype Request<T> =
    | GetRequest(from: State<T>)
    | RandomRequest
    | StartingWithRequest(token: T)
    | IncrementRequest(link: Link<T>)

  /** `Some(reason)` when the storage fails on that request. */
  type Fault<!T> = Request<T> -> Option<string>

  /** The storage of the in-memory store: it never fails. */
  function NoFaults<T>(): Fault<T>
  {
    q => None
  }

  /** Every stored window has n tokens and every stored weight is at least 1. */
  ghost predicate WellFormed<T>(n: nat, chain: ChainMap<T>)
  {
    forall s :: s in chain ==> |s| == n && forall t :: t in chain[s] ==> chain[s][t] >= 1
  }

  /** A window never inserted has the empty weight map. */
  function Lookup<T>(chain: ChainMap<T>, from: State<T>): WeightMap<T>
  {
    if from in chain then chain[from] else map[]
  }

  function Weight<T>(chain: ChainMap<T>, from: State<T>, to: T): nat
  {
    var weights := Lookup(chain, from);
    if to in weights then weights[to] else 0
  }

  function GetOf<T>(chain: ChainMap<T>, fault: Fault<T>, from: State<T>): Result<WeightMap<T>>
  {
    match fault(GetRequest(from))
    case Some(reason) => Err(StorageError(reason))
    case None => Ok(Lookup(chain, from))
  }

  /** The store after recording one more observation of `link`. */
  function Incremented<T>(chain: ChainMap<T>, link: Link<T>): ChainMap<T>
  {
    chain[link.from := Lookup(chain, link.from)[link.to := Weight(chain, link.from, link.to) + 1]]
  }

  /** Recording a link raises its weight by exactly one: an absent pair starts at 1 and its
      window becomes a key. */
  lemma IncrementedWeight<T>(chain: ChainMap<T>, link: Link<T>)
    ensures Weight(Incremented(chain, link), link.from, link.to) == Weight(chain, link.from, link.to) + 1
    ensures link.from in Incremented(chain, link) && link.to in Incremented(chain, link)[link.from]
    ensures Incremented(chain, link).Keys == chain.Keys + {link.from}
  {
  }

  /** Every other (window, token) weight is unchanged, and so is every other window. */
  lemma IncrementedFrame<T>(chain: ChainMap<T>, link: Link<T>, from: State<T>, to: T)
    requires from != link.from || to != link.to
    ensures Weight(Incremented(chain, link), from, to) == Weight(chain, from, to)
    ensures from != link.from ==> Lookup(Incremented(chain, link), from) == Lookup(chain, from)
  {
  }

  lemma IncrementedWellFormed<T>(n: nat, chain: ChainMap<T>, link: Link<T>)
    requires WellFormed(n, chain) && |link.from| == n
    ensures WellFormed(n, Incremented(chain, link))
  {
  }

  /** Folding the increments over the links, in order. */
  function FeedAll<T>(chain: ChainMap<T>, links: seq<Link<T>>): ChainMap<T>
    decreases |links|
  {
    if links == [] then chain else FeedAll(Incremented(chain, links[0]), links[1..])
  }

  /** After feeding links, a pair's weight has grown by the number of times its link occurs:
      feeding the same link k times records weight k, and no other pair moves. */
  lemma {:induction false} FeedAllWeight<T>(chain: ChainMap<T>, links: seq<Link<T>>, from: State<T>, to: T)
    ensures Weight(FeedAll(chain, links), from, to) == Weight(chain, from, to) + multiset(links)[Link(from, to)]
    decreases |links|
  {
    if links != [] {
      assert links == [links[0]] + links[1..];
      FeedAllWeight(Incremented(chain, links[0]), links[1..], from, to);
      if links[0] == Link(from, to) {
        IncrementedWeight(chain, links[0]);
      } else {
        IncrementedFrame(chain, links[0], from, to);
      }
    }
  }

  lemma {:induction false} FeedAllWellFormed<T>(n: nat, chain: ChainMap<T>, links: seq<Link<T>>)
    requires WellFormed(n, chain) && forall l :: l in links ==> |l.from| == n
    ensures WellFormed(n, FeedAll(chain, links))
    decreases |links|
  {
    if links != [] {
      IncrementedWellFormed(n, chain, links[0]);
      FeedAllWellFormed(n, Incremented(chain, links[0]), links[1..]);
    }
  }

  /** Some stored window starts with `token`. */
  predicate HasStart<T>(chain: ChainMap<T>, token: T)
  {
    exists s :: s in chain && |s| > 0 && s[0] == token
  }

  class Repository<T(==)> {
    const n: nat
    const fault: Fault<T>
    var chain: ChainMap<T>

    ghost predicate Valid()
      reads this
    {
      WellFormed(n, chain)
    }

    /** An empty in-memory store: it never fails. */
    constructor Memory(n: nat)
      ensures Valid() && this.n == n && chain == map[] && fault == NoFaults()
    {
      this.n := n;
      fault := NoFaults();
      chain := map[];
    }

    /** An empty store whose storage fails on the requests `fault` names. */
    constructor WithFaults(n: nat, fault: Fault<T>)
      ensures Valid() && this.n == n && chain == map[] && this.fault == fault
    {
      this.n := n;
      this.fault := fault;
      chain := map[];
    }

    /** The weights recorded after `from`: exactly the stored map, the empty map for a window
        never inserted; a storage failure is reported as an error. */
    function Get(from: State<T>): (r: Result<WeightMap<T>>)
      reads this
      ensures r.Ok? <==> fault(GetRequest(from)).None?
      ensures r.Err? ==> r.error == StorageError(fault(GetRequest(from)).value)
      ensures r.Ok? ==> r.value.Keys == (if from in chain then chain[from].Keys else {})
      ensures r.Ok? ==> forall t :: t in r.value ==> r.value[t] == Weight(chain, from, t)
      ensures r.Ok? && Valid() ==> forall t :: t in r.value ==> r.value[t] >= 1
    {
      GetOf(chain, fault, from)
    }

    /** Some stored window, `None` when nothing is stored. */
    method Random() returns (r: Result<Option<State<T>>>)
      ensures fault(RandomRequest).Some? ==> r == Err(StorageError(fault(RandomRequest).value))
      ensures fault(RandomRequest).None? ==> r.Ok?
      ensures r.Ok? ==> (r.value.None? <==> chain == map[])
      ensures r.Ok? && r.value.Some? ==> r.value.value in chain
    {
      match fault(RandomRequest)
      case Some(reason) =>
        return Err(StorageError(reason));
      case None =>
        if chain == map[] {
          return Ok(None);
        }
        var s :| s in chain.Keys;
        return Ok(Some(s));
    }

    /** Some stored window whose first token is `token`, `None` when there is none. */
    method RandomStartingWith(token: T) returns (r: Result<Option<State<T>>>)
      ensures fault(StartingWithRequest(token)).Some? ==>
        r == Err(StorageError(fault(StartingWithRequest(token)).value))
      ensures fault(StartingWithRequest(token)).None? ==> r.Ok?
      ensures r.Ok? ==> (r.value.None? <==> !HasStart(chain, token))
      ensures r.Ok? && r.value.Some? ==>
        r.value.value in chain && |r.value.value| > 0 && r.value.value[0] == token
    {
      match fault(StartingWithRequest(token))
      case Some(reason) =>
        return Err(StorageError(reason));
      case None =>
        if !HasStart(chain, token) {
          return Ok(None);
        }
        var s :| s in chain.Keys && |s| > 0 && s[0] == token;
        return Ok(Some(s));
    }

    /** Records one more observation of `link`: the pair is inserted at weight 1 or raised by 1. */
    method IncrementWeight(link: Link<T>) returns (r: Result<()>)
      requires Valid() && |link.from| == n
      modifies this
      ensures Valid()
      ensures fault(IncrementRequest(link)).Some? ==>
        r == Err(StorageError(fault(IncrementRequest(link)).value)) && chain == old(chain)
      ensures fault(IncrementRequest(link)).None? ==> r == Ok(()) && chain == Incremented(old(chain), link)
    {
      match fault(IncrementRequest(link))
      case Some(reason) =>
        return Err(StorageError(reason));
      case None =>
        var weights := if link.from in chain then chain[link.from] else map[];
        weights := if link.to in weights then weights[link.to := weights[link.to] + 1] else weights[link.to := 1];
        chain := chain[link.from := weights];
        IncrementedWellFormed(n, old(chain), link);
        return Ok(());
    }
  }

  /** A window never inserted reads as the empty map. */
  method GetReturnsEmptyIfMissing() returns (weights: Result<WeightMap<int>>)
    ensures weights == Ok(map[])
  {
    var repository := new Repository<int>.Memory(3);
    weights := repository.Get([1, 2, 3]);
  }

  /** A stored map is read back as stored. */
  method GetReturnsRequestedMap() returns (weights: Result<WeightMap<int>>)
    ensures weights == Ok(map[])
  {
    var repository := new Repository<int>.Memory(3);
    repository.chain := repository.chain[[1, 2, 3] := map[]];
    weights := repository.Get([1, 2, 3]);
  }

  /** An absent pair is created at weight 1. */
  method IncrementSetsWeightToOneIfMissing() returns (weight: nat)
    ensures weight == 1
  {
    var repository := new Repository<int>.Memory(3);
    var _ := repository.IncrementWeight(Link([1, 2, 3], 4));
    IncrementedWeight(map[], Link([1, 2, 3], 4));
    weight := repository.chain[[1, 2, 3]][4];
  }

  /** An existing pair is raised by exactly 1. */
  method IncrementsWeightByOne() returns (weight: nat)
    ensures weight == 2
  {
    var repository := new Repository<int>.Memory(3);
    repository.chain := repository.chain[[1, 2, 3] := map[4 := 1]];
    ghost var before := repository.chain;
    var _ := repository.IncrementWeight(Link([1, 2, 3], 4));
    IncrementedWeight(before, Link([1, 2, 3], 4));
    weight := repository.chain[[1, 2, 3]][4];
  }
}
