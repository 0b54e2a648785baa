/** The bot: learning from free text, building sentences from a start window, and choosing the
    start window for `say` and `reply`. */
module Bot {
  import opened Types
  import opened Store
  import opened Sampling
  import opened LinkStream
  import opened Walk

  /** End of utterance.  Tokenization never yields it unless the text itself contains a NUL
      character; the model, like the source, assumes it does not. */
  const END: string := "\0"

  /** The message attached when there is nothing to generate from. */
  const RandomSentenceFailure: string := "Failed to build random sentence."

  // ---------------------------------------------------------------- tokens and sentences

  /** The Unicode White_Space characters. */
  predicate IsWhitespace(c: char)
  {
    || '\t' <= c <= '\r' || c == ' ' || c == '\U{85}' || c == '\U{A0}' || c == '\U{1680}'
    || '\U{2000}' <= c <= '\U{200A}' || c == '\U{2028}' || c == '\U{2029}' || c == '\U{202F}'
    || c == '\U{205F}' || c == '\U{3000}'
  }

  predicate IsWord(w: string)
  {
    w != [] && forall i :: 0 <= i < |w| ==> !IsWhitespace(w[i])
  }

  /** Length of the leading run of non-whitespace characters. */
  function WordLength(s: string): (k: nat)
    ensures k <= |s|
    ensures forall i :: 0 <= i < k ==> !IsWhitespace(s[i])
    ensures k < |s| ==> IsWhitespace(s[k])
  {
    if s == [] || IsWhitespace(s[0]) then 0 else 1 + WordLength(s[1..])
  }

  /** The maximal runs of non-whitespace characters, in order. */
  function Words(s: string): (ws: seq<string>)
    ensures forall i :: 0 <= i < |ws| ==> IsWord(ws[i])
    decreases |s|
  {
    if s == [] then []
    else if IsWhitespace(s[0]) then Words(s[1..])
    else var k := WordLength(s); [s[..k]] + Words(s[k..])
  }

  /** The words joined with single spaces. */
  function Join(ws: seq<string>): string
  {
    if ws == [] then "" else if |ws| == 1 then ws[0] else ws[0] + " " + Join(ws[1..])
  }

  lemma {:induction false} WordLengthOfWord(w: string, rest: string)
    requires forall i :: 0 <= i < |w| ==> !IsWhitespace(w[i])
    requires rest == [] || IsWhitespace(rest[0])
    ensures WordLength(w + rest) == |w|
    decreases |w|
  {
    if w != [] {
      assert (w + rest)[1..] == w[1..] + rest;
      WordLengthOfWord(w[1..], rest);
    }
  }

  lemma WordsOfWord(w: string, rest: string)
    requires IsWord(w)
    requires rest == [] || IsWhitespace(rest[0])
    ensures Words(w + rest) == [w] + Words(rest)
  {
    WordLengthOfWord(w, rest);
    assert (w + rest)[..|w|] == w && (w + rest)[|w|..] == rest;
  }

  /** Splitting a sentence joined from words gives the words back. */
  lemma {:induction false} WordsOfJoin(ws: seq<string>)
    requires forall i :: 0 <= i < |ws| ==> IsWord(ws[i])
    ensures Words(Join(ws)) == ws
    decreases |ws|
  {
    if |ws| == 1 {
      WordsOfWord(ws[0], "");
      assert ws[0] + "" == ws[0];
    } else if |ws| > 1 {
      var tail := " " + Join(ws[1..]);
      assert Join(ws) == ws[0] + tail;
      WordsOfWord(ws[0], tail);
      assert tail[1..] == Join(ws[1..]);
      WordsOfJoin(ws[1..]);
      assert ws == [ws[0]] + ws[1..];
    }
  }

  /** The start words as the values that precede the walk. */
  function Wrap(start: seq<string>): (items: seq<Result<string>>)
    ensures |items| == |start| && forall i :: 0 <= i < |start| ==> items[i] == Ok(start[i])
  {
    seq(|start|, i requires 0 <= i < |start| => Ok(start[i]))
  }

  /** Stops the collection: a storage error, or the end-of-utterance token. */
  predicate Halts(item: Result<string>)
  {
    item.Err? || item == Ok(END)
  }

  /** Keeps the values before the first END and collects them, failing with the first error met
      before that END. */
  function Gather(items: seq<Result<string>>): (r: Result<seq<string>>)
    ensures r.Ok? ==> forall i :: 0 <= i < |r.value| ==> r.value[i] != END
    ensures r.Ok? ==> |r.value| <= |items|
    decreases |items|
  {
    if items == [] || items[0] == Ok(END) then Ok([])
    else if items[0].Err? then Err(items[0].error)
    else match Gather(items[1..])
      case Ok(ws) => Ok([items[0].value] + ws)
      case Err(e) => Err(e)
  }

  /** The values before position k, when none of them halts and position k is END or the end. */
  lemma {:induction false} GatherValues(items: seq<Result<string>>, k: nat)
    requires k <= |items| && (k == |items| || items[k] == Ok(END))
    requires forall i :: 0 <= i < k ==> !Halts(items[i])
    ensures Gather(items).Ok? && |Gather(items).value| == k
    ensures forall i :: 0 <= i < k ==> items[i] == Ok(Gather(items).value[i])
    decreases k
  {
    if k > 0 {
      GatherValues(items[1..], k - 1);
    }
  }

  /** An error met before any END is what collection reports. */
  lemma {:induction false} GatherError(items: seq<Result<string>>, k: nat)
    requires k < |items| && items[k].Err?
    requires forall i :: 0 <= i < k ==> !Halts(items[i])
    ensures Gather(items) == Err(items[k].error)
    decreases k
  {
    if k > 0 {
      GatherError(items[1..], k - 1);
    }
  }

  /** What building a sentence returns for the values it pulled. */
  function Sentence(items: seq<Result<string>>): Result<string>
  {
    match Gather(items)
    case Ok(ws) => Ok(Join(ws))
    case Err(e) => Err(e)
  }

  /** The sentence is re-tokenized into exactly the collected words, none of them END. */
  lemma SentenceWords(items: seq<Result<string>>)
    requires forall i :: 0 <= i < |items| ==> items[i].Ok? ==> IsWord(items[i].value)
    ensures Sentence(items).Ok? ==> Words(Sentence(items).value) == Gather(items).value
    ensures Sentence(items).Ok? ==> forall w :: w in Words(Sentence(items).value) ==> w != END
  {
    GatherWords(items);
    if Gather(items).Ok? {
      WordsOfJoin(Gather(items).value);
    }
  }

  lemma {:induction false} GatherWords(items: seq<Result<string>>)
    requires forall i :: 0 <= i < |items| ==> items[i].Ok? ==> IsWord(items[i].value)
    ensures Gather(items).Ok? ==> forall i :: 0 <= i < |Gather(items).value| ==> IsWord(Gather(items).value[i])
    decreases |items|
  {
    if items != [] && items[0] != Ok(END) && items[0].Ok? {
      GatherWords(items[1..]);
    }
  }

  // ---------------------------------------------------------------- outcomes of the bot's operations

  /** The pull stopped for a reason other than the step bound. */
  ghost predicate Complete(chain: ChainMap<string>, fault: Fault<string>, start: State<string>,
                           trace: seq<Result<string>>)
  {
    || END in start
    || (trace != [] && Halts(trace[|trace| - 1]))
    || GetOf(chain, fault, WindowAfter(start, trace)) == Ok(map[])
  }

  /** `r` is what building a sentence from `start` returns when the walker yields `trace`: the
      start words followed by the walk, cut before the first END and joined with single spaces,
      or the first storage error before that END; `StepLimit` when `fuel` steps did not end it. */
  ghost predicate Built(chain: ChainMap<string>, fault: Fault<string>, start: State<string>, fuel: nat,
                        trace: seq<Result<string>>, r: Result<string>)
  {
    && IsTrace(chain, fault, start, trace)
    && |trace| <= fuel
    && (END in start ==> trace == [])
    && (forall i :: 0 <= i < |trace| - 1 ==> !Halts(trace[i]))
    && ((r == Sentence(Wrap(start) + trace) && Complete(chain, fault, start, trace))
        || (r == Err(StepLimit) && |trace| == fuel && END !in start
            && forall i :: 0 <= i < |trace| ==> !Halts(trace[i])))
  }

  /** What `say` returns: the store's error, the no-data failure on an empty store, or a sentence
      built from some stored window. */
  ghost predicate Said(chain: ChainMap<string>, fault: Fault<string>, fuel: nat, r: Result<string>,
                       start: State<string>, trace: seq<Result<string>>)
  {
    match fault(RandomRequest)
    case Some(reason) => r == Err(StorageError(reason))
    case None =>
      if chain == map[] then r == Err(NoData(RandomSentenceFailure))
      else start in chain && Built(chain, fault, start, fuel, trace, r)
  }

  /** What `reply` returns when it tries `words` in the order `order`, some permutation of them:
      the error of the first failing lookup, a sentence built from a stored window starting with
      the first word that has one, or what `say` returns when no word has one. */
  ghost predicate Replied(chain: ChainMap<string>, fault: Fault<string>, words: seq<string>, fuel: nat,
                          r: Result<string>, order: seq<string>, start: State<string>, trace: seq<Result<string>>)
  {
    && multiset(order) == multiset(words)
    && match FirstSeed(chain, fault, order, 0)
      case NoSeed => Said(chain, fault, fuel, r, start, trace)
      case SeedError(e) => r == Err(e)
      case Seed(i) => start in chain && |start| > 0 && start[0] == order[i] && Built(chain, fault, start, fuel, trace, r)
  }

  datatype SeedSearch = NoSeed | SeedError(error: Error) | Seed(index: nat)

  /** The first word, from position i on, whose lookup fails or finds a stored window starting with it. */
  ghost function FirstSeed(chain: ChainMap<string>, fault: Fault<string>, order: seq<string>, i: nat): (s: SeedSearch)
    ensures s.Seed? ==> i <= s.index < |order|
    decreases |order| - i
  {
    if i >= |order| then NoSeed
    else match fault(StartingWithRequest(order[i]))
      case Some(reason) => SeedError(StorageError(reason))
      case None => if HasStart(chain, order[i]) then Seed(i) else FirstSeed(chain, fault, order, i + 1)
  }

  /** Every word of `order` in [i, k) was looked up without error and starts no stored window. */
  ghost predicate Skipped(chain: ChainMap<string>, fault: Fault<string>, order: seq<string>, i: nat, k: nat)
  {
    forall j :: i <= j < k && j < |order| ==> fault(StartingWithRequest(order[j])).None? && !HasStart(chain, order[j])
  }

  /** The search stops at the first word, from position i on, whose lookup fails or that starts a
      stored window, having skipped every word before it: `Seed` when the lookup succeeded,
      `SeedError` with that lookup's error when it failed; it finds nothing exactly when every
      word from i on is skipped. */
  lemma {:induction false} FirstSeedStops(chain: ChainMap<string>, fault: Fault<string>, order: seq<string>, i: nat)
    ensures var s := FirstSeed(chain, fault, order, i);
      && (s.Seed? ==>
            && Skipped(chain, fault, order, i, s.index)
            && fault(StartingWithRequest(order[s.index])).None? && HasStart(chain, order[s.index]))
      && (s.SeedError? ==>
            exists k :: i <= k < |order| && Skipped(chain, fault, order, i, k)
                   && fault(StartingWithRequest(order[k])).Some?
                   && s.error == StorageError(fault(StartingWithRequest(order[k])).value))
      && (s.NoSeed? <==> Skipped(chain, fault, order, i, |order|))
    decreases |order| - i
  {
    if i < |order| {
      match fault(StartingWithRequest(order[i]))
      case Some(reason) =>
        assert Skipped(chain, fault, order, i, i);
      case None =>
        if HasStart(chain, order[i]) {
          assert Skipped(chain, fault, order, i, i);
        } else {
          FirstSeedStops(chain, fault, order, i + 1);
          var s := FirstSeed(chain, fault, order, i + 1);
          if s.SeedError? {
            var k :| i + 1 <= k < |order| && Skipped(chain, fault, order, i + 1, k)
                   && fault(StartingWithRequest(order[k])).Some?
                   && s.error == StorageError(fault(StartingWithRequest(order[k])).value);
            assert Skipped(chain, fault, order, i, k);
          } else if s.Seed? {
            assert Skipped(chain, fault, order, i, s.index);
          } else {
            assert Skipped(chain, fault, order, i, |order|);
          }
        }
    }
  }

  /** With a working store and no word that starts a stored window, the search finds nothing,
      so `reply` falls back to `say`. */
  lemma {:induction false} NoSeedFallsBack(chain: ChainMap<string>, fault: Fault<string>, order: seq<string>, i: nat)
    requires forall w :: w in order ==> fault(StartingWithRequest(w)).None? && !HasStart(chain, w)
    ensures FirstSeed(chain, fault, order, i) == NoSeed
    decreases |order| - i
  {
    if i < |order| {
      NoSeedFallsBack(chain, fault, order, i + 1);
    }
  }

  /** Learning fails only when the storage fails: with a store that accepts every increment it succeeds. */
  lemma LearnSucceeds(chain: ChainMap<string>, fault: Fault<string>, n: nat, message: string)
    requires forall l :: fault(IncrementRequest(l)).None?
    ensures FeedOutcome(chain, fault, LinksOf(n, Words(message) + [END])).0 == Ok(())
  {
    FeedHealthy(chain, fault, LinksOf(n, Words(message) + [END]));
  }

  // ---------------------------------------------------------------- the bot

  /** Reorders a slice in place into some permutation of it. */
  class Shuffler {
    constructor ()
    {
    }

    method Shuffle<T>(a: array<T>)
      modifies a
      ensures multiset(a[..]) == multiset(old(a[..]))
    {
      var i := a.Length;
      while i > 1
        invariant 0 <= i <= a.Length
        invariant multiset(a[..]) == multiset(old(a[..]))
      {
        var j :| 0 <= j < i;
        i := i - 1;
        a[i], a[j] := a[j], a[i];
      }
    }
  }

  /** Pulls values from the walker until it ends, it yields a value that stops the collection
      (an error or END), or `fuel` values are pulled: the pulling half of building a sentence.
      `ended` tells the first two cases from the step bound. */
  method Pull(it: ChainIterator<string>, fuel: nat)
    returns (pulled: seq<Result<string>>, ended: bool, ghost listings: seq<seq<(string, nat)>>)
    requires it.Valid() && it.repository.Valid()
    modifies it.previous, it.chooser
    ensures |pulled| <= fuel && forall i :: 0 <= i < |pulled| - 1 ==> !Halts(pulled[i])
    ensures ended ==>
      || (pulled != [] && Halts(pulled[|pulled| - 1]))
      || GetOf(it.repository.chain, it.repository.fault, WindowAfter(old(it.previous[..]), pulled)) == Ok(map[])
    ensures !ended ==> |pulled| == fuel && forall i :: 0 <= i < |pulled| ==> !Halts(pulled[i])
    ensures Drawn(it.repository.chain, it.repository.fault, it.chooser.source, old(it.chooser.draws),
                  old(it.previous[..]), pulled, listings)
    ensures it.chooser.draws == old(it.chooser.draws) + OkSteps(pulled)
  {
    ghost var ch, f, src := it.repository.chain, it.repository.fault, it.chooser.source;
    ghost var start, d0 := it.previous[..], it.chooser.draws;
    pulled, listings := [], [];
    while |pulled| < fuel
      invariant it.Valid()
      invariant it.previous[..] == WindowAfter(start, pulled)
      invariant |pulled| <= fuel && forall i :: 0 <= i < |pulled| ==> !Halts(pulled[i])
      invariant Drawn(ch, f, src, d0, start, pulled, listings)
      invariant it.chooser.draws == d0 + OkSteps(pulled)
    {
      ghost var window, draws := it.previous[..], it.chooser.draws;
      var item, listing := it.Next();
      if item.None? {
        return pulled, true, listings;
      }
      assert && Drawn(ch, f, src, d0, start, pulled + [item.value], listings + [listing])
             && it.previous[..] == WindowAfter(start, pulled + [item.value])
             && it.chooser.draws == d0 + OkSteps(pulled + [item.value]) by {
        WalkExtend(ch, f, src, d0, start, pulled, listings, draws, window, item.value, listing);
      }
      pulled, listings := pulled + [item.value], listings + [listing];
      if Halts(item.value) {
        return pulled, true, listings;
      }
    }
    return pulled, false, listings;
  }

  class Bot {
    const chain: Chain<string>
    const shuffler: Shuffler

    constructor (chain: Chain<string>, shuffler: Shuffler)
      ensures this.chain == chain && this.shuffler == shuffler
    {
      this.chain := chain;
      this.shuffler := shuffler;
    }

    /** The whitespace-separated words of `message` followed by END, fed into the store. */
    method Learn(message: string) returns (r: Result<()>)
      requires chain.repository.Valid()
      modifies chain.repository
      ensures chain.repository.Valid()
      ensures (r, chain.repository.chain)
           == FeedOutcome(old(chain.repository.chain), chain.repository.fault,
                          LinksOf(chain.repository.n, Words(message) + [END]))
    {
      var words := Words(message) + [END];
      r := chain.Feed(words);
    }

    /** The start words followed by the walk from `start`, up to the first END, joined with
        single spaces; pulls at most `fuel` values from the walker. */
    method BuildSentence(start: State<string>, fuel: nat)
      returns (r: Result<string>, ghost trace: seq<Result<string>>, ghost listings: seq<seq<(string, nat)>>)
      requires chain.repository.Valid() && |start| == chain.repository.n >= 1
      modifies chain.chooser
      ensures Built(chain.repository.chain, chain.repository.fault, start, fuel, trace, r)
      ensures Drawn(chain.repository.chain, chain.repository.fault, chain.chooser.source, old(chain.chooser.draws),
                    start, trace, listings)
      ensures chain.chooser.draws == old(chain.chooser.draws) + OkSteps(trace)
    {
      trace, listings := [], [];
      if END in start {
        assert Wrap(start) + trace == Wrap(start);
        return Sentence(Wrap(start)), trace, listings;
      }
      var it := chain.IterFrom(start);
      var pulled, ended;
      pulled, ended, listings := Pull(it, fuel);
      DrawnTrace(chain.repository.chain, chain.repository.fault, chain.chooser.source, old(chain.chooser.draws),
                 start, pulled, listings);
      if ended {
        return Sentence(Wrap(start) + pulled), pulled, listings;
      }
      return Err(StepLimit), pulled, listings;
    }

    /** A sentence from some stored window; fails with the no-data message on an empty store. */
    method Say(fuel: nat)
      returns (r: Result<string>, ghost start: State<string>, ghost trace: seq<Result<string>>,
               ghost listings: seq<seq<(string, nat)>>)
      requires chain.repository.Valid() && chain.repository.n >= 1
      modifies chain.chooser
      ensures Said(chain.repository.chain, chain.repository.fault, fuel, r, start, trace)
      ensures Drawn(chain.repository.chain, chain.repository.fault, chain.chooser.source, old(chain.chooser.draws),
                    start, trace, listings)
      ensures chain.chooser.draws == old(chain.chooser.draws) + OkSteps(trace)
    {
      start, trace, listings := [], [], [];
      var random := chain.repository.Random();
      match random
      case Err(e) =>
        return Err(e), start, trace, listings;
      case Ok(None) =>
        return Err(NoData(RandomSentenceFailure)), start, trace, listings;
      case Ok(Some(s)) =>
        start := s;
        r, trace, listings := BuildSentence(s, fuel);
    }

    /** Tries the words of `message` in shuffled order and builds a sentence from a stored window
        starting with the first word that has one; falls back to `say` when none has. */
    method Reply(message: string, fuel: nat)
      returns (r: Result<string>, ghost order: seq<string>, ghost start: State<string>, ghost trace: seq<Result<string>>,
               ghost listings: seq<seq<(string, nat)>>)
      requires chain.repository.Valid() && chain.repository.n >= 1
      modifies chain.chooser
      ensures Replied(chain.repository.chain, chain.repository.fault, Words(message), fuel, r, order, start, trace)
      ensures Drawn(chain.repository.chain, chain.repository.fault, chain.chooser.source, old(chain.chooser.draws),
                    start, trace, listings)
      ensures chain.chooser.draws == old(chain.chooser.draws) + OkSteps(trace)
    {
      var ws := Words(message);
      var words := new string[|ws|](i requires 0 <= i < |ws| => ws[i]);
      assert words[..] == ws;
      shuffler.Shuffle(words);
      order, start, trace, listings := words[..], [], [], [];
      var i := 0;
      while i < words.Length
        invariant 0 <= i <= words.Length && words[..] == order
        invariant FirstSeed(chain.repository.chain, chain.repository.fault, order, 0)
               == FirstSeed(chain.repository.chain, chain.repository.fault, order, i)
        invariant chain.chooser.draws == old(chain.chooser.draws)
      {
        var found := chain.repository.RandomStartingWith(words[i]);
        match found
        case Err(e) =>
          return Err(e), order, start, trace, listings;
        case Ok(Some(s)) =>
          start := s;
          r, trace, listings := BuildSentence(s, fuel);
          return r, order, start, trace, listings;
        case Ok(None) =>
        i := i + 1;
      }
      r, start, trace, listings := Say(fuel);
    }
  }
}
