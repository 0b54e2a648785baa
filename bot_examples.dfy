/** A bot with windows of two words that has learned "the cat sat". */
module BotExamples {
  import opened Types
  import opened Store
  import opened Sampling
  import opened LinkStream
  import opened Walk
  import opened Bot

  /** The store after learning "the cat sat". */
  function CatSat(): ChainMap<string>
  {
    map[["the", "cat"] := map["sat" := 1], ["cat", "sat"] := map[END := 1]]
  }

  lemma CatSatWords()
    ensures Words("the cat sat") == ["the", "cat", "sat"]
  {
    var ws := ["the", "cat", "sat"];
    assert IsWord("the") && IsWord("cat") && IsWord("sat");
    assert Join(ws) == "the cat sat" by {
      assert Join(ws[2..]) == "sat";
      assert Join(ws[1..]) == "cat" + " " + "sat";
    }
    WordsOfJoin(ws);
  }

  lemma LinksOfFour(a: string, b: string, c: string, d: string)
    ensures LinksOf(2, [a, b, c, d]) == [Link([a, b], c), Link([b, c], d)]
  {
    var s := [a, b, c, d];
    assert s[1..] == [b, c, d] && s[1..][1..] == [c, d];
    assert LinksOf(2, [c, d]) == [];
    assert s[..2] == [a, b] && s[1..][..2] == [b, c];
  }

  lemma CatSatLinks()
    ensures LinksOf(2, Words("the cat sat") + [END])
         == [Link(["the", "cat"], "sat"), Link(["cat", "sat"], END)]
  {
    CatSatWords();
    assert Words("the cat sat") + [END] == ["the", "cat", "sat", END];
    LinksOfFour("the", "cat", "sat", END);
  }

  /** Learning "the cat sat" into an empty working store succeeds and records two links of weight one. */
  lemma CatSatLearned(fault: Fault<string>)
    requires fault == NoFaults()
    ensures FeedOutcome(map[], fault, LinksOf(2, Words("the cat sat") + [END])) == (Ok(()), CatSat())
  {
    CatSatLinks();
    CatSatFacts();
    FeedTwo(fault, "the", "cat", "sat", END);
  }

  /** Feeding two links with distinct windows into an empty working store. */
  lemma FeedTwo(fault: Fault<string>, a: string, b: string, c: string, d: string)
    requires fault == NoFaults() && [a, b] != [b, c]
    ensures FeedOutcome(map[], fault, [Link([a, b], c), Link([b, c], d)])
         == (Ok(()), map[[a, b] := map[c := 1], [b, c] := map[d := 1]])
  {
    var l0, l1 := Link([a, b], c), Link([b, c], d);
    assert [l0, l1][1..] == [l1] && [l1][1..] == [];
    var c0 := Incremented(map[], l0);
    assert c0 == map[[a, b] := map[c := 1]];
    assert FeedOutcome(c0, fault, [l1]) == (Ok(()), Incremented(c0, l1));
  }

  lemma CatSatFacts()
    ensures ["the", "cat"] != ["cat", "sat"]
    ensures "the" != END && "cat" != END && "sat" != END
    ensures CatSat().Keys == {["the", "cat"], ["cat", "sat"]}
    ensures CatSat()[["the", "cat"]] == map["sat" := 1] && CatSat()[["cat", "sat"]] == map[END := 1]
  {
    assert ["the", "cat"][0] != ["cat", "sat"][0] by {
      assert "the"[0] != "cat"[0];
    }
  }

  /** A walk that has not moved from a window with recorded successors is not complete. */
  lemma NotCompleteAtStart(chain: ChainMap<string>, fault: Fault<string>, start: State<string>, t: string)
    requires END !in start && GetOf(chain, fault, start).Ok? && t in GetOf(chain, fault, start).value
    ensures !Complete(chain, fault, start, [])
  {
    assert WindowAfter(start, []) == start;
  }

  /** A single word has one order. */
  lemma SingleOrder(order: seq<string>, w: string)
    requires multiset(order) == multiset([w])
    ensures order == [w]
  {
    assert |order| == |multiset(order)| == 1;
    assert order[0] in multiset(order);
  }

  lemma NoXyzzy()
    ensures !HasStart(CatSat(), "xyzzy")
  {
    CatSatFacts();
    assert "xyzzy" != "the" && "xyzzy" != "cat";
    forall w | w in CatSat() ensures w[0] != "xyzzy" {
      assert w == ["the", "cat"] || w == ["cat", "sat"];
    }
  }

  /** The walk from "cat sat" yields END, after which the sentence is complete. */
  lemma FromCatSat(fault: Fault<string>, fuel: nat, trace: seq<Result<string>>, r: Result<string>)
    requires fault == NoFaults()
    requires fuel > 1 && Built(CatSat(), fault, ["cat", "sat"], fuel, trace, r)
    ensures trace == [Ok(END)] && r == Ok("cat sat")
  {
    var start := ["cat", "sat"];
    CatSatFacts();
    assert END !in start;
    assert GetOf(CatSat(), fault, start) == Ok(map[END := 1]);
    NotCompleteAtStart(CatSat(), fault, start, END);
    assert trace != [];
    assert Step(CatSat(), fault, start, trace[0]);
    assert trace[0] == Ok(END);
    assert Halts(trace[0]);
    assert trace == [Ok(END)];
    var items := Wrap(start) + trace;
    assert items == [Ok("cat"), Ok("sat"), Ok(END)];
    GatherValues(items, 2);
    assert Gather(items).value == ["cat", "sat"];
    assert r == Sentence(items);
    assert Join(["cat", "sat"]) == "cat sat";
  }

  /** From "the cat" the only walk is "sat" then END. */
  lemma FromTheCat(fault: Fault<string>, fuel: nat, trace: seq<Result<string>>, r: Result<string>)
    requires fault == NoFaults()
    requires fuel > 2 && Built(CatSat(), fault, ["the", "cat"], fuel, trace, r)
    ensures trace == [Ok("sat"), Ok(END)]
    ensures r == Ok("the cat sat")
  {
    var start := ["the", "cat"];
    CatSatFacts();
    assert END !in start;
    assert GetOf(CatSat(), fault, start) == Ok(map["sat" := 1]);
    NotCompleteAtStart(CatSat(), fault, start, "sat");
    assert trace != [];
    assert Step(CatSat(), fault, start, trace[0]);
    assert trace[0] == Ok("sat");
    var next := After(start, trace[0]);
    assert next == ["cat", "sat"];
    assert WindowAfter(start, trace) == WindowAfter(next, trace[1..]);
    assert IsTrace(CatSat(), fault, next, trace[1..]);
    assert Built(CatSat(), fault, next, fuel - 1, trace[1..], Sentence(Wrap(next) + trace[1..]));
    FromCatSat(fault, fuel - 1, trace[1..], Sentence(Wrap(next) + trace[1..]));
    assert trace == [Ok("sat"), Ok(END)];
    var items := Wrap(start) + trace;
    assert items == [Ok("the"), Ok("cat"), Ok("sat"), Ok(END)];
    GatherValues(items, 3);
    assert Gather(items).value == ["the", "cat", "sat"];
    assert Join(["the", "cat", "sat"]) == "the cat sat";
  }

  /** Every sentence `say` can produce here. */
  lemma CatSatSaid(fault: Fault<string>, fuel: nat, r: Result<string>, start: State<string>, trace: seq<Result<string>>)
    requires fault == NoFaults()
    requires fuel > 2 && Said(CatSat(), fault, fuel, r, start, trace)
    ensures r == Ok("the cat sat") || r == Ok("cat sat")
  {
    CatSatFacts();
    assert CatSat() != map[] by {
      assert ["cat", "sat"] in CatSat();
    }
    if start == ["the", "cat"] {
      FromTheCat(fault, fuel, trace, r);
    } else {
      FromCatSat(fault, fuel, trace, r);
    }
  }

  /** A reply to "cat" can only start from "cat sat". */
  lemma CatReplied(fault: Fault<string>, fuel: nat, r: Result<string>, order: seq<string>, start: State<string>,
                   trace: seq<Result<string>>)
    requires fault == NoFaults()
    requires fuel > 2 && Replied(CatSat(), fault, Words("cat"), fuel, r, order, start, trace)
    ensures r == Ok("cat sat")
  {
    assert IsWord("cat");
    WordsOfJoin(["cat"]);
    SingleOrder(order, "cat");
    CatSatFacts();
    assert HasStart(CatSat(), "cat") by {
      assert ["cat", "sat"] in CatSat();
    }
    assert FirstSeed(CatSat(), fault, order, 0) == Seed(0);
    assert start == ["cat", "sat"];
    FromCatSat(fault, fuel, trace, r);
  }

  /** No stored window starts with "xyzzy", so the reply is what `say` produces. */
  lemma UnknownReplied(fault: Fault<string>, fuel: nat, r: Result<string>, order: seq<string>, start: State<string>,
                       trace: seq<Result<string>>)
    requires fault == NoFaults()
    requires fuel > 2 && Replied(CatSat(), fault, Words("xyzzy"), fuel, r, order, start, trace)
    ensures r == Ok("the cat sat") || r == Ok("cat sat")
  {
    assert IsWord("xyzzy");
    WordsOfJoin(["xyzzy"]);
    SingleOrder(order, "xyzzy");
    NoXyzzy();
    NoSeedFallsBack(CatSat(), fault, order, 0);
    CatSatSaid(fault, fuel, r, start, trace);
  }

  /** The only listing of a one-entry map. */
  lemma SingleListing(es: seq<(string, nat)>, k: string, w: nat)
    requires IsListing(es, map[k := w])
    ensures es == [(k, w)]
  {
    assert k in map[k := w];
    assert es != [];
    assert map[k := w] - {k} == map[];
    assert es[1..] == [];
    assert es == [es[0]] + es[1..];
  }

  /** With weights a: 2 and k: 1 the raw draw 1 selects a whichever way the entries are listed:
      listed a first it falls in a's interval [0, 2), listed k first in a's interval [1, 3). */
  lemma DrawOneSelectsHeavier(es: seq<(string, nat)>, t: string)
    requires Selects(es, map["a" := 2, "k" := 1], 1, t)
    ensures t == "a"
  {
    var m := map["a" := 2, "k" := 1];
    ListingMembers(es, m, 0);
    PrefixWhole(es);
    assert es[..1] == [es[0]] + [];
    SumCons(es[0], []);
    assert Prefix(es, 1) == es[0].1;
    if es[0].0 == "a" {
      PrefixMonotone(es, 1, |es|);
      assert 1 % Sum(es) == 1;
      PickIndexUnique(es, 1, 0);
    } else {
      assert es[0] == ("k", 1) && m - {"k"} == map["a" := 2];
      SingleListing(es[1..], "a", 2);
      assert es == [("k", 1), ("a", 2)];
      assert es[..2] == es == [es[0]] + ([es[1]] + []);
      SumCons(es[1], []);
      SumCons(es[0], [es[1]]);
      PickIndexUnique(es, 1, 1);
    }
  }

  /** The walk "sat", END makes two draws. */
  lemma CatSatDraws()
    ensures OkSteps([Ok("sat"), Ok(END)]) == 2
  {
    var walk: seq<Result<string>> := [Ok("sat"), Ok(END)];
    assert walk[1..] == [Ok(END)] && walk[1..][1..] == [];
    assert OkSteps(walk[1..]) == 1;
  }

  /** A bot with an empty in-memory store of windows of n words. */
  method MemoryBot(n: nat) returns (bot: Bot)
    ensures fresh(bot) && fresh(bot.chain) && fresh(bot.chain.repository) && fresh(bot.chain.chooser)
    ensures bot.chain.repository.Valid() && bot.chain.repository.n == n && bot.chain.repository.chain == map[]
    ensures bot.chain.repository.fault == NoFaults() && bot.chain.chooser.draws == 0
  {
    var repository := new Repository<string>.Memory(n);
    var chooser := new Chooser(k => k);
    var chain := new Chain(repository, chooser);
    var shuffler := new Shuffler();
    bot := new Bot(chain, shuffler);
  }

  /** Nothing learned: `say` fails with the no-data message. */
  method ColdStart() returns (said: Result<string>)
    ensures said == Err(NoData(RandomSentenceFailure))
  {
    var bot := MemoryBot(2);
    ghost var start, trace, listings;
    said, start, trace, listings := bot.Say(10);
  }

  /** Learning succeeds; a sentence built from "the cat" repeats what was learned, after two draws
      ("sat", then END). */
  method LearnThenBuild() returns (learned: Result<()>, sentence: Result<string>, draws: nat)
    ensures learned == Ok(()) && sentence == Ok("the cat sat") && draws == 2
  {
    var bot := MemoryBot(2);
    learned := bot.Learn("the cat sat");
    CatSatLearned(bot.chain.repository.fault);
    ghost var trace, listings;
    sentence, trace, listings := bot.BuildSentence(["the", "cat"], 10);
    FromTheCat(bot.chain.repository.fault, 10, trace, sentence);
    CatSatDraws();
    draws := bot.chain.chooser.draws;
  }

  /** `say` produces one of the two sentences the store allows. */
  method LearnThenSay() returns (said: Result<string>)
    ensures said == Ok("the cat sat") || said == Ok("cat sat")
  {
    var bot := MemoryBot(2);
    var _ := bot.Learn("the cat sat");
    CatSatLearned(bot.chain.repository.fault);
    ghost var start, trace, listings;
    said, start, trace, listings := bot.Say(10);
    CatSatSaid(bot.chain.repository.fault, 10, said, start, trace);
  }

  /** A reply to "cat" starts from the only window beginning with "cat". */
  method ReplyToKnownWord() returns (replied: Result<string>)
    ensures replied == Ok("cat sat")
  {
    var bot := MemoryBot(2);
    var _ := bot.Learn("the cat sat");
    CatSatLearned(bot.chain.repository.fault);
    ghost var order, start, trace, listings;
    replied, order, start, trace, listings := bot.Reply("cat", 10);
    CatReplied(bot.chain.repository.fault, 10, replied, order, start, trace);
  }

  /** A reply to an unknown word falls back to `say`. */
  method ReplyToUnknownWord() returns (replied: Result<string>)
    ensures replied == Ok("the cat sat") || replied == Ok("cat sat")
  {
    var bot := MemoryBot(2);
    var _ := bot.Learn("the cat sat");
    CatSatLearned(bot.chain.repository.fault);
    ghost var order, start, trace, listings;
    replied, order, start, trace, listings := bot.Reply("xyzzy", 10);
    UnknownReplied(bot.chain.repository.fault, 10, replied, order, start, trace);
  }

  /** On a store that refuses every write, learning reports the storage error and stores nothing. */
  method LearnOnFailingStore() returns (learned: Result<()>, stored: ChainMap<string>)
    ensures learned == Err(StorageError("disk full")) && stored == map[]
  {
    var repository := new Repository<string>.WithFaults(2, q => Some("disk full"));
    var chooser := new Chooser(k => k);
    var chain := new Chain(repository, chooser);
    var shuffler := new Shuffler();
    var bot := new Bot(chain, shuffler);
    learned := bot.Learn("the cat sat");
    CatSatLinks();
    stored := repository.chain;
  }
}
