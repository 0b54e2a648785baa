# A verified model of a word-level Markov chain text generator

This project models the engine of a Markov chatbot. The bot learns from messages and speaks from what it learned.

- **Learning.** A message is split on whitespace and the end-of-utterance token `END` (`"\0"`) is appended. A sliding window of `N` tokens turns the token stream into links `(window → next token)`. Each link raises the weight of that successor of that window by one in a weight store.
- **Speaking.** The walker starts from a window of `N` tokens. At each step it reads the window's weight map and stops when the map is empty. Otherwise it samples a successor, with probability proportional to its weight, and slides the window over it.
  - `build_sentence` takes the start words followed by the walk, cut before the first `END`, and joins them with single spaces.
  - `say` starts from a random stored window.
  - `reply` tries the words of a message in shuffled order and starts from a stored window that begins with one of them. It falls back to `say` when no word has one.

The model is written file by file in the source's own form:

| file | module | models |
|---|---|---|
| `types.dfy` | `Types` | links, windows, weight maps, `Option` and `Result` |
| `slices.dfy` | `Slices` | in-place `rotate_left(1)` on an array |
| `links.dfy` | `LinkStream` | the link extractor: a class with the window buffer as an array, plus the reference function `LinksOf` |
| `choose.dfy` | `Sampling` | the weighted sampler, with its random source as an injected stream and a log of the bounds it was called with |
| `repository.dfy` | `Store` | the weight store: a class over `map<seq<T>, map<T, nat>>`, with storage failure as an explicit error outcome |
| `chain.dfy` | `Walk` | feeding, the walker class with its window as an array, and a trace semantics of walks |
| `bot.dfy` | `Bot` | tokenization, sentence building, `learn`, `say` and `reply` |
| `bot_examples.dfy` | `BotExamples` | the bot on windows of two words after learning "the cat sat" |

### Nondeterminism and injected capabilities

These parts of the source are open or come from outside the core, so the model takes them as givens:

- **Random numbers.** A `Chooser` reads successive values of an injected stream `source: nat -> nat` and reduces each one modulo the bound, as the rand adapter does (`src/adapters/rand.rs:23-26`). Its ghost `bounds` log records every bound it was asked for.
- **Store choices.** The store's random picks (`random`, `random_starting_with`) are nondeterministic choices among the stored windows.
- **Map order.** The order in which a `HashMap` lists its entries is a nondeterministic enumeration, the method `Entries`.
- **Shuffling.** The shuffler performs arbitrary swaps, so it returns some permutation of its input.
- **Storage failure.** Whether storage fails on a request is a function `fault` of the request. The in-memory store never fails (`NoFaults`).

### How the properties are stated

The properties of a walk are relational, stated over ghost traces.

- `IsTrace(chain, fault, start, trace)` says that `trace` is a sequence of values the walker may yield from `start`.
- `Built`, `Said` and `Replied` state what `build_sentence`, `say` and `reply` return for a given trace.
- `Drawn(chain, fault, source, draws, start, trace, listings)` ties a trace to the random stream. The k-th successor of the trace is the key that the next unused raw draw selects, reduced modulo the total weight, from the weight map of its window listed as the k-th listing. An error consumes no draw. `OkSteps(trace)` counts the draws a trace consumes.

Walks can cycle, so sentence building carries a step bound `fuel`. When that bound runs out, the result is `Err(StepLimit)`.

### Where the sources disagree

The sources are partly refactored, so the modules do not agree on one store interface. This model follows the interface the bot uses, and the store class states the contract the bot relies on. The SQLite store has this signature but does not meet that contract in every case (see "Left out"):

- `random` and `random_starting_with` return `Result<Option<window>>` there (`src/markov/bot.rs:52-53`, `src/markov/bot.rs:65`, `src/adapters/sqlite/repository.rs:119-127`).
- The store trait in `src/markov/repository.rs:5-9` instead has `random() -> Result<[T; N]>` and no `random_starting_with`.
- `src/adapters/memory.rs:31-38` implements that older trait: on an empty store it reports the error "Failed to choose random states.". Under the chosen contract an empty store gives `Ok(None)`, and the bot turns that into its own error "Failed to build random sentence." (`src/markov/bot.rs:53`).

`bot.rs` calls `random` and `random_starting_with` on its chain; `chain.rs` does not have those methods. Here the bot calls them on the chain's store. `Chain.IterRandom` and `Chain.IterFromState` model `iter_random` and `iter_from_state` under the same `Option` contract.

## Model

| member | source | states |
|---|---|---|
| Slices.RotateLeft | src/markov/links.rs:63 | the array becomes its old contents without the first element, followed by that element |
| LinkStream.LinksCount | src/markov/links.rs:82-111 | from L input tokens a window of N ≥ 1 yields exactly L − N links when L > N; it yields none otherwise, and none at all when N = 0 |
| LinkStream.LinksAt | src/markov/links.rs:84-89 | the k-th link is (input[k..k+N], input[k+N]), in encounter order |
| LinkStream.LinksWindowSize | src/markov/links.rs:59-61 | every emitted window holds exactly N tokens |
| LinkStream.Links.constructor | src/markov/links.rs:26-44 | fills the buffer with up to N leading tokens and reads one more as `to`; the links still to come are exactly `LinksOf(N, input)` |
| LinkStream.Links.Next | src/markov/links.rs:54-72 | yields nothing iff no link is pending; otherwise yields the copy of the buffer taken before rotation, with the old `to`; the buffer becomes old[1..] + [to], `to` becomes the next input item, and the pending links lose exactly their head |
| LinkStream.SixTokens | src/markov/links.rs:84-88 | with N = 3 the tokens 0..6 give exactly ([0,1,2],3), ([1,2,3],4), ([2,3,4],5) |
| LinkStream.IteratorExample | src/markov/links.rs:82-90 | the extractor over 0..6 with N = 3 yields those three links, then nothing |
| LinkStream.NoLinkExamples | src/markov/links.rs:92-111 | an empty input, a window of 0 and a window longer than the input yield nothing |
| Sampling.PickFromBounds | src/markov/choose.rs:5-11 | the cumulative scan stops at the first index whose running sum exceeds r |
| Sampling.PickIndexBounds | src/markov/choose.rs:5-11 | for r below the total weight, the chosen index i satisfies prefix(i) ≤ r < prefix(i+1) |
| Sampling.PickIndexUnique | src/markov/choose.rs:5-11 | any index j with prefix(j) ≤ r < prefix(j+1) is the chosen index |
| Sampling.PickIndexPositive | src/markov/choose.rs:6-10 | an entry of weight 0 is never chosen |
| Sampling.Chooser.Upcoming | src/adapters/rand.rs:23-26 | the next draw is strictly below its bound |
| Sampling.Chooser.GenerateRandom | src/markov/choose.rs:15 | returns a value below the bound, consumes exactly one draw and logs the bound |
| Sampling.Chooser.Choose | src/markov/choose.rs:2-13 | draws exactly once, with the sum of all weights as bound; returns the token at the unique index whose cumulative range holds the draw; that token is one of the inputs with positive weight; the fall-through after the loop is unreachable when the sum is positive |
| Sampling.ExampleBoundaries | src/adapters/rand.rs:40-50 | on weights foo:3, bar:2, baz:1 the total is 6, and draws 0, 2 and 4 select foo, foo and bar |
| Sampling.SamplesExample | src/adapters/rand.rs:40-50 | a stepping source 0, 2, 4, 6 reduced modulo 6 picks foo, foo, bar, foo |
| Store.IncrementedWeight | src/adapters/memory.rs:40-43 | an increment raises the pair's weight by exactly one, so an absent pair starts at 1; its window becomes a key |
| Store.IncrementedFrame | src/adapters/memory.rs:40-45 | an increment leaves every other (window, token) weight and every other window unchanged |
| Store.IncrementedWellFormed | src/adapters/memory.rs:42-43 | increments keep every stored window of length N and every stored weight ≥ 1 |
| Store.FeedAllWeight | src/markov/chain.rs:28-30 | after folding links into the store, a pair's weight has grown by the number of times its link occurs |
| Store.FeedAllWellFormed | src/markov/chain.rs:28-30 | folding links of N-token windows keeps the store well formed |
| Store.Repository.Memory | src/adapters/memory.rs:16-20 | a new in-memory store is empty and never fails |
| Store.Repository.WithFaults | src/markov/repository.rs:5-9 | a new store is empty and fails exactly on the requests its fault oracle names |
| Store.Repository.Get | src/adapters/memory.rs:27-29 | is Ok iff storage does not fail; returns exactly the stored map, or the empty map for a window never inserted; every weight read from a well-formed store is ≥ 1 |
| Store.Repository.Random | src/adapters/memory.rs:31-38 | reports the storage error, or `None` iff nothing is stored, or some stored window |
| Store.Repository.RandomStartingWith | src/markov/bot.rs:65-68 | the store contract `reply` relies on, with the signature of src/adapters/sqlite/repository.rs:124-127: reports the storage error, or `None` iff no stored window starts with the token, or some stored window starting with it |
| Store.Repository.IncrementWeight | src/adapters/memory.rs:40-45 | on success the store becomes the increment of the old store and stays well formed; on storage failure it reports the error and changes nothing |
| Store.GetReturnsEmptyIfMissing | src/adapters/memory.rs:54-59 | a window never inserted reads as the empty map |
| Store.GetReturnsRequestedMap | src/adapters/memory.rs:61-68 | a stored map is read back as stored |
| Store.IncrementSetsWeightToOneIfMissing | src/adapters/memory.rs:70-77 | an absent pair is created at weight 1 |
| Store.IncrementsWeightByOne | src/adapters/memory.rs:79-89 | an existing pair of weight 1 becomes 2 |
| Walk.FeedHealthy | src/markov/chain.rs:23-32 | with a store that accepts every increment, feeding succeeds and leaves the fold of the increments over the links, in order |
| Walk.FeedFirstError | src/markov/chain.rs:29 | feeding stops at the first refused increment, reports its error and keeps exactly the increments before it |
| Walk.ListingMembers | src/markov/chain.rs:68-69 | every entry of a listing of a weight map is an entry of the map |
| Walk.TotalRemove | src/markov/choose.rs:3 | the total weight of a map does not depend on the order of summation |
| Walk.ListingSum | src/markov/choose.rs:3 | summing any listing of a map gives the map's total weight |
| Walk.TotalPositive | src/markov/chain.rs:68-69 | a map holding a weight ≥ 1 has a positive total |
| Walk.Entries | src/markov/chain.rs:68-69 | lists every entry of the weight map exactly once, in an order left open |
| Walk.OkStepsExtend | src/markov/chain.rs:68-70 | one more yielded value consumes one more draw exactly when it is a successor |
| Walk.DrawnExtend | src/markov/chain.rs:65-77 | a drawn walk followed by one value drawn at its final window with the next unused draw is a drawn walk |
| Walk.DrawnTrace | src/markov/chain.rs:65-77 | every drawn walk is a trace of the walker |
| Walk.WalkExtend | src/markov/chain.rs:65-77 | one more drawn step extends a drawn walk, slides its final window by that step and advances its draw count by one exactly for a successor |
| Walk.TraceExtend | src/markov/chain.rs:65-76 | a trace extended by one more step taken at its final window is a trace, and its final window slides by that step |
| Walk.Chain.constructor | src/markov/chain.rs:13-21 | the chain holds the given store and chooser |
| Walk.Chain.Feed | src/markov/chain.rs:23-32 | the outcome and the new store are those of running every extracted link through the store in order, stopping at the first storage error |
| Walk.Chain.IterFrom | src/markov/chain.rs:34-40 | the walker's window is exactly `start` |
| Walk.Chain.IterRandom | src/markov/chain.rs:42-44 | a walker from the window the store returns, `None` iff the store is empty, or the storage error |
| Walk.Chain.IterFromState | src/markov/chain.rs:46-50 | a walker from a stored window that starts with the token, `None` iff there is none, or the storage error |
| Walk.ChainIterator.constructor | src/markov/chain.rs:34-40 | the window array holds the start window |
| Walk.ChainIterator.Next | src/markov/chain.rs:65-77 | ends iff the window's map reads as empty, and then leaves window and chooser untouched; otherwise yields one step of the walk: a storage error, which consumes no draw, or the key of weight ≥ 1 that the next raw draw selects from the map over the listing it returns, consuming exactly that draw and logging the map's total weight as its bound; the window becomes old[1..] + [token] |
| Bot.WordLength | src/markov/bot.rs:31-32 | the leading run of non-whitespace characters ends at whitespace or at the end of the text |
| Bot.Words | src/markov/bot.rs:31-32 | every word is non-empty and free of Unicode whitespace |
| Bot.WordsOfJoin | src/markov/bot.rs:47 | splitting words joined with single spaces gives the words back |
| Bot.Gather | src/markov/bot.rs:45-46 | collection never keeps END and keeps at most as many values as it reads |
| Bot.GatherValues | src/markov/bot.rs:40-47 | when no error precedes the first END, collection keeps exactly the values before that END |
| Bot.GatherError | src/markov/bot.rs:46 | an error before the first END is what collection reports |
| Bot.SentenceWords | src/markov/bot.rs:45-47 | a built sentence re-tokenizes into exactly the collected words, none of them END |
| Bot.FirstSeed | src/markov/bot.rs:64-69 | the seed found is a word of the order at or after the search position |
| Bot.FirstSeedStops | src/markov/bot.rs:64-69 | the search returns the first word, from the search position on, whose lookup fails or finds a window: a seed when that word has a window, that word's storage error when its lookup fails, and nothing exactly when every later word is looked up without error and has no window |
| Bot.NoSeedFallsBack | src/markov/bot.rs:64-71 | when the store works and no word starts a stored window, the search finds nothing, so `reply` falls back to `say` |
| Bot.LearnSucceeds | src/markov/bot.rs:35 | learning fails only when the store fails: with a store accepting every increment it succeeds |
| Bot.Pull | src/markov/bot.rs:44-46 | pulls at most `fuel` values and stops only after a halting value (an error or END), when the walker ends, or after exactly `fuel` non-halting values; the pulled values are a drawn walk from the walker's window, consuming one draw per successor |
| Bot.Shuffler.Shuffle | src/markov/bot.rs:62 | the slice becomes a permutation of itself |
| Bot.Bot.constructor | src/markov/bot.rs:26-28 | the bot holds the given chain and shuffler |
| Bot.Bot.Learn | src/markov/bot.rs:30-37 | the outcome and the new store are those of feeding the whitespace-split words of the message followed by one END |
| Bot.Bot.BuildSentence | src/markov/bot.rs:39-48 | the result is the start words followed by a walk from `start`, cut before the first END and joined with single spaces, or the first storage error before that END; the walk is stopped exactly at a halting value, at an empty map, or after `fuel` steps (`StepLimit`); the walk is drawn from the chooser's stream from its first unused draw on, and the chooser advances by one draw per successor |
| Bot.Bot.Say | src/markov/bot.rs:50-55 | the storage error; or "Failed to build random sentence." on an empty store; or a sentence built from some stored window, by a walk drawn from the chooser's unused draws, one per successor |
| Bot.Bot.Reply | src/markov/bot.rs:57-72 | tries the words of the message in some permutation; propagates the first lookup error; builds from a stored window starting with the first word that has one; otherwise returns what `say` returns; the walk is drawn from the chooser's unused draws, one per successor, and the word lookups draw nothing |
| BotExamples.CatSatLinks | src/markov/bot.rs:30-34 | learning "the cat sat" with N = 2 extracts (the cat → sat) and (cat sat → END) |
| BotExamples.CatSatLearned | src/markov/bot.rs:30-37 | learning "the cat sat" into an empty memory store succeeds and records exactly those two links, at weight 1 |
| BotExamples.FromCatSat | src/markov/chain.rs:65-76 | the walk from "cat sat" yields END and the sentence is "cat sat" |
| BotExamples.FromTheCat | src/markov/bot.rs:39-48 | every trace building may take from "the cat" is exactly "sat" then END, and the sentence is exactly "the cat sat" |
| BotExamples.SingleListing | src/markov/chain.rs:68-69 | a map with one entry has exactly one listing |
| BotExamples.DrawOneSelectsHeavier | src/markov/choose.rs:2-13 | on weights a: 2, k: 1 the raw draw 1 selects a under either listing order |
| BotExamples.CatSatDraws | src/markov/chain.rs:68-70 | the walk "sat", END consumes two draws |
| BotExamples.CatSatSaid | src/markov/bot.rs:50-55 | `say` on that store gives "the cat sat" or "cat sat" |
| BotExamples.CatReplied | src/markov/bot.rs:61-69 | a reply to "cat" starts from "cat sat" |
| BotExamples.UnknownReplied | src/markov/bot.rs:71 | a reply to a word no window starts with is what `say` gives |
| BotExamples.ColdStart | src/markov/bot.rs:50-55 | `say` on a store that learned nothing fails with "Failed to build random sentence." |
| BotExamples.LearnThenBuild | src/markov/bot.rs:30-48 | after learning "the cat sat", building from "the cat" gives "the cat sat" and leaves the fresh chooser two draws on |
| BotExamples.LearnThenSay | src/markov/bot.rs:50-55 | after learning "the cat sat", `say` gives one of the two sentences that store allows |
| BotExamples.ReplyToKnownWord | src/markov/bot.rs:61-69 | after learning "the cat sat", replying to "cat" gives "cat sat" |
| BotExamples.ReplyToUnknownWord | src/markov/bot.rs:71 | after learning "the cat sat", replying to "xyzzy" falls back to `say` |
| BotExamples.LearnOnFailingStore | src/markov/bot.rs:35 | on a store that refuses every write, learning reports the storage error and stores nothing |

## Left out

- The SQLite store (`src/adapters/sqlite/repository.rs`, `src/adapters/sqlite/schema.rs`) is not modelled: transactions, prepared statements and SQL text are foreign library calls. Only its contract is modelled, as the store class with its fault oracle.
- The Discord adapter, the command-line entry point and the `rand` wrappers are not modelled: they are network, process and library glue. The random source is injected, and the shuffler is any permutation.
- Store.Repository.Random, Store.Repository.RandomStartingWith: do not model uniformity; a random pick is any stored key.
- Bot.Shuffler.Shuffle: does not model uniformity; any permutation is allowed.
- Sampling.Chooser.Choose: weights and sums are unbounded naturals, so the `u32` overflow of the weight sum is not modelled.
- Bot.Bot.Learn: assumes, like the source, that message text never contains a NUL character. Text that does produces an `END` token in the middle of a message; that case is not excluded or corrected.
- Bot.Bot.BuildSentence: the source walks without a bound, and a cycle in the chain makes it run forever. The model stops after `fuel` pulled values with `Err(StepLimit)`, an outcome the source does not have.
- Walk.ChainIterator.Next, Walk.Chain.IterFrom, Walk.Chain.IterRandom, Walk.Chain.IterFromState, Bot.Bot.BuildSentence, Bot.Bot.Say, Bot.Bot.Reply: require N ≥ 1. With N = 0 the source's `rotate_left(1)` on an empty window and the write to `previous[N - 1]` in `next` panic, so walking is not modelled for N = 0. Feeding with N = 0 stores nothing, so on the in-memory store `say` and `reply` would only report no data; the panic needs a store holding a non-empty map for the empty window.
- Bot.Bot.BuildSentence, Bot.Bot.Say, Bot.Bot.Reply: do not restate the chooser's ghost log of bounds. Each logged bound is the total weight of the map a successor was drawn from (stated per step by Walk.ChainIterator.Next), and `Drawn` already fixes the reduction modulo that total. Which listing order a `HashMap` uses is left open.
- Store.Repository.RandomStartingWith: states the contract the bot relies on, which the SQLite store does not always meet. Its query keeps only rows with `tf.rowid >= abs(random()) % max_rowid` (src/adapters/sqlite/schema.rs:139), so it can return no row though a matching window exists at a lower rowid. Its filter compares the INTEGER column `word_0_id` with the token text (src/adapters/sqlite/schema.rs:141), which matches no row for a word token. For `random` the threshold only skews the choice, since the row with the largest rowid always passes it.
- Store.Repository.IncrementWeight: weights are unbounded naturals. The `u32` increment `*x += 1` at src/adapters/memory.rs:43 panics (debug build) or wraps to 0 (release build) at `u32::MAX`. Wrapping would break the invariant that stored weights are ≥ 1 and could lead to `generate_random(0)`. This is not modelled.
- Store.Repository.Random: on an empty store it returns `Ok(None)`, under the contract the bot uses. The in-memory store's older code reports an error there instead.
- Walk.Entries: the order of a `HashMap`'s entries is left open, so which successor a given draw selects depends on an order the model does not fix.
- Whitespace splitting follows the Unicode White_Space property; no other Unicode processing takes place.
- `Links` is generic over any input iterator in the source; the model takes the input as a finite sequence.
