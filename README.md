# Repute: trust scores over a vouch graph

Repute writes two tables and reads a third:

- an identity table, from identifier to alias;
- a vouch table, from an ordered (source, target) pair to a weight;
- an artifact table, read-only here, giving each artifact's owner and weight.

It scores every identity with a personalised, boosted PageRank computed by
power iteration. This project models the parts of Repute that compute or
change something:

- **The scoring engine** (`compute_pagerank`). Its steps:
  - the weight transform of the vouch rows;
  - the boost table: 1.0 plus the weights of the artifacts an identity owns;
  - the out-degree table;
  - a fixed number of rounds. Each round starts from the teleport baseline,
    then does edge propagation scaled by the source's boost, then sink-mass
    routing, then normalisation.

  The engine is written as methods with loops. They update explicit current
  and next score buffers (module `PageRank`). Each loop is proved to compute
  a function of module `RankSpec`. The properties of those functions are
  proved in module `RankFacts`. Module `RowOrder` proves that the result does
  not depend on the order in which the vouch and artifact rows are read.
- **The write side.**
  - `ensure_identity` and the upserts of `cmd_vouch`, as a class holding the
    two tables (module `VouchStore`).
  - The A2A payload handler `process_repute_payload` (module `A2AHandler`):
    its validation prefix and its three upserts.
- **The ranking helpers** of `cmd_score` and `cmd_top` (module `Ranking`).

The database reads are parameters:

- the identity list, in table order;
- the vouch rows;
- the artifact rows, or `None` when the artifact table does not exist.

Scores are `real`s, so floating-point rounding is not modelled.

The model follows the code as written, including where it is lenient:

- Negative vouch and artifact weights are accepted, not rejected.
- A negative vouch age is not clamped: the decay factor `0.5 ** (age / 30)`
  is always positive, but exceeds 1 when the age is negative.
- A seed that is empty or not a known identity falls back to uniform mode
  without any error.

A vouch that propagates but whose target is not an identity makes the engine
raise a `KeyError`. That case is a precondition (`TargetsKnown`).
`VouchStore.StoreFeedsEngine` shows that tables written through the modelled
upserts always meet it.

## Model

| member | source | states |
|---|---|---|
| PageRank.ComputePageRank | repute/repute.py:43-109 | The result is `PageRank` of the transformed rows. An empty identity list gives `{}`. No iterations give the uniform 1/n table. Decay factors must be non-negative. For damping in [0, 1) and non-negative weights, stored or after decay, the result is a probability distribution over the identities. |
| PageRank.LoadVouches | repute/repute.py:53-63 | Builds the effective vouch list row by row. With decay off it is exactly the stored rows, in order. |
| RankFacts.EffectiveNonNegative | repute/repute.py:55-63 | Non-negative stored weights stay non-negative after decay by non-negative factors. |
| PageRank.BuildBoosts | repute/repute.py:67-73 | The loop builds `Boosts`: 1.0 for everyone, plus the weight of every artifact whose owner is known. A missing table leaves 1.0. |
| PageRank.BuildOutDegrees | repute/repute.py:75-78 | The loop builds `OutDegrees`: 0.0 for everyone, plus the value of every vouch whose source is known. |
| PageRank.PropagateVouches | repute/repute.py:88-92 | The edge loop computes `Propagate`: only active vouches (positive out-degree) add to their target. |
| PageRank.RouteSinkMass | repute/repute.py:95-100 | The identity loop computes `RouteSink`: all of `damping*sink` goes to a known seed, otherwise `damping*sink/n` to each identity. |
| PageRank.RunRound | repute/repute.py:81-106 | One pass of the iteration loop equals `Round`: teleport, propagation, sink routing, normalisation. |
| PageRank.RunRounds | repute/repute.py:49-106 | Starts from 1/n, and after `rounds` passes holds `Iterate(rounds)`. |
| RankSpec.Effective | repute/repute.py:53-63 | One effective vouch per stored row, with the same source and target in the same position. With decay off it is exactly the stored rows; with decay on each value is the stored value times that row's factor. |
| RankSpec.OutDegree | repute/repute.py:75-78 | No contract of its own: the running sum of the values of the identity's own vouches. Its meaning is stated by `RowOrder.OutDegreeIsTotal`, `RankFacts.OutDegreeAppend` and `RankFacts.OutDegreeOfNonSource`. |
| RankSpec.ArtifactWeight | repute/repute.py:69-71 | No contract of its own: the running sum of the weights of the identity's artifacts. Its meaning is stated by `RowOrder.ArtifactWeightIsTotal` and `RankFacts.ArtifactWeightOfNonOwner`. |
| RankSpec.Uniform | repute/repute.py:50 | The starting table has exactly the identities as keys. That it is a distribution is `RankFacts.UniformIsDistribution`. |
| RankSpec.Personalized | repute/repute.py:81 | No contract of its own: the mode test `seed_id and seed_id in identities`, shared by the teleport baseline (:81) and sink routing (:96). What each mode gives is stated by `RankFacts.TeleportAt` and `RankFacts.RouteSinkAt`. |
| RankSpec.Sum | repute/repute.py:102 | No contract of its own: `sum(new_scores.values())` taken over the identities in order. It is used by `RankSpec.Normalize`; `RankFacts.NormalizeSumsToOne` and `RankFacts.TeleportTotal` state totals with it. |
| RankSpec.Active | repute/repute.py:89 | No contract of its own: the guard `src in out_degrees and out_degrees[src] > 0`. It decides which vouches `RankSpec.Propagate` applies and which terms `RankFacts.PropagateAddsInflow` counts. |
| RankSpec.BoostOf | repute/repute.py:92 | No contract of its own: `sv_boost.get(src, 1.0)`. It is used by `RankSpec.Contribution`, whose non-negativity it feeds. |
| RankSpec.TargetsKnown | repute/repute.py:92 | No contract of its own: when at least one round runs, every vouch whose source has positive out-degree names a known target, so `new_scores[tgt] +=` never raises `KeyError`. It is the precondition of `PageRank.ComputePageRank`, and `VouchStore.StoreFeedsEngine` shows the stored tables meet it. |
| RankSpec.Contribution | repute/repute.py:92 | What one active vouch adds to its target is never negative when damping, the value, the source's score and its boost are all non-negative. |
| RankSpec.SinkSum | repute/repute.py:94 | The sink sum is 0 when every identity has a non-zero out-degree. `RankFacts.SinkSumAllDangling` gives the opposite extreme. |
| RankSpec.RouteSink | repute/repute.py:95-100 | Sink routing keeps exactly the identities as keys. The amount each identity receives is stated by `RankFacts.RouteSinkAt`. |
| RankSpec.Round | repute/repute.py:81-106 | A round yields a table keyed by exactly the identities. Its raw values are stated by `RankFacts.RawRoundScore`, and that it is a distribution by `RankFacts.RoundIsDistribution`. |
| RankSpec.OutDegrees | repute/repute.py:75 | The out-degree table has exactly the identities as keys. |
| RankSpec.Boosts | repute/repute.py:67 | The boost table has exactly the identities as keys. |
| RankSpec.Teleport | repute/repute.py:81-86 | The teleport baseline has exactly the identities as keys. |
| RankSpec.Propagate | repute/repute.py:88-92 | Propagation keeps the table's keys: it only adds to identities already present. |
| RankSpec.Normalize | repute/repute.py:102-106 | Normalisation keeps the identity keys. |
| RankSpec.Iterate | repute/repute.py:80-106 | Every iterate has exactly the identities as keys. |
| RankSpec.PageRank | repute/repute.py:43-109 | A non-empty identity list gives a table keyed by exactly those identities. |
| RankFacts.OutDegreeAppend | repute/repute.py:76-78 | An out-degree is additive over a split of the vouch rows. |
| RankFacts.UnknownSourceAddsNothing | repute/repute.py:77 | A vouch from an unknown source leaves the out-degree table unchanged. |
| RankFacts.OutDegreeOfNonSource | repute/repute.py:75-78 | An identity that vouches for nobody has out-degree 0, so it is a sink. |
| RankFacts.OutDegreeNonNegative | repute/repute.py:75-78 | Non-negative vouch values give non-negative out-degrees. |
| RankFacts.ArtifactWeightNonNegative | repute/repute.py:69-71 | Non-negative artifact weights give a non-negative added weight. |
| RankFacts.ArtifactWeightOfNonOwner | repute/repute.py:69-71 | Artifacts owned by others add nothing to an identity. |
| RankFacts.BoostsAtLeastOne | repute/repute.py:67-73 | With non-negative artifact weights every boost is at least 1.0. |
| RankFacts.BoostsWithoutKnownOwners | repute/repute.py:67-73 | Artifacts with unknown owners change nothing: the table equals the one for a missing artifact table, 1.0 everywhere. |
| RankFacts.UnknownOwnerAddsNothing | repute/repute.py:70-71 | Appending an artifact whose owner is not a known identity leaves the boost table unchanged. |
| RankFacts.PropagateAddsInflow | repute/repute.py:88-92 | Propagation adds to each identity exactly its inflow, the sum of the contributions of the active vouches aimed at it. |
| RankFacts.PropagateGrows | repute/repute.py:88-92 | With non-negative inputs propagation never lowers a score. |
| RankFacts.SinkSumNonNegative | repute/repute.py:94 | The sink sum of non-negative scores is non-negative. |
| RankFacts.SinkSumAllDangling | repute/repute.py:94 | When no identity has outgoing weight, the sink sum is the whole score total. |
| RankFacts.TeleportTotal | repute/repute.py:81-86 | The teleport baseline carries exactly `1 - damping` in total, in both modes. |
| RankFacts.TeleportNonNegative | repute/repute.py:81-86 | For damping at most 1 the baseline is non-negative. |
| RankFacts.TeleportAt | repute/repute.py:81-86 | A known seed gets `1 - damping` and everyone else 0. Otherwise each identity gets `(1 - damping)/n`. |
| RankFacts.RouteSinkAt | repute/repute.py:95-100 | Sink routing adds a known seed's full `damping*sink` and nothing elsewhere. Otherwise it adds `damping*sink/n` to each identity. |
| RankFacts.RouteSinkGrows | repute/repute.py:95-100 | Routing non-negative sink mass never lowers a score. |
| RankFacts.RawRoundScore | repute/repute.py:81-100 | An identity's score before normalisation is its teleport share, plus its inflow, plus its share of `damping*sink_sum`. |
| RankFacts.ShareTotal | repute/repute.py:81-100 | Handing out an amount by seed or uniform shares neither creates nor loses any of it. |
| RankFacts.NormalizeSumsToOne | repute/repute.py:102-106 | A positive total gives a table summing to 1, non-negative if the input was. A total at or below 0 keeps the raw table unchanged. |
| RankFacts.NormalizeAboveBaseline | repute/repute.py:102-106 | Normalising a table that dominates a non-negative baseline with positive total gives a probability distribution. |
| RankFacts.NormalizeUnitTotal | repute/repute.py:102-106 | A table that already sums to 1 is left as it is. |
| RankFacts.RoundIsDistribution | repute/repute.py:81-106 | From non-negative scores, with non-negative weights and damping in [0, 1), one round gives a probability distribution. |
| RankFacts.UniformIsDistribution | repute/repute.py:50 | The 1/n starting table is a probability distribution. |
| RankFacts.IterateStep | repute/repute.py:80-106 | Round `k + 1` is one round applied to the table after `k` rounds. |
| RankFacts.IterateIsDistribution | repute/repute.py:80-106 | After any number of rounds the scores form a probability distribution. |
| RankFacts.PageRankIsDistribution | repute/repute.py:43-109 | The engine's result is a probability distribution for non-negative weights and damping in [0, 1). |
| RankFacts.TargetsKnownRoutable | repute/repute.py:92 | With known targets, every propagating vouch hits a key of the next-score table, whatever the artifacts. |
| RankFacts.AllAtSeedIsDistribution | repute/repute.py:81-100 | All score at the seed is a probability distribution. |
| RankFacts.SeedGetsWholeUnit | repute/repute.py:81-100 | With a known seed, the baseline plus a whole unit of sink mass puts everything on the seed. |
| RankFacts.EveryoneGetsEqualShare | repute/repute.py:81-100 | Without a known seed, the baseline plus a whole unit of sink mass is the uniform 1/n. |
| RankFacts.RoundWithoutVouchesIsUniform | repute/repute.py:80-106 | With no vouches and no known seed, a round maps any distribution to the uniform 1/n. |
| RankFacts.RoundWithoutVouchesAtSeed | repute/repute.py:80-106 | With no vouches and a known seed, a round maps any distribution to all score at the seed. |
| RankFacts.NoVouchesStaysUniform | repute/repute.py:75-106 | With no vouches and no known seed, every iterate is the uniform 1/n. |
| RankFacts.NoVouchesSeedTakesAll | repute/repute.py:75-106 | With no vouches and a known seed, after one or more rounds the seed holds 1 and everyone else 0. |
| RankFacts.IterateStart | repute/repute.py:50 | Zero rounds leave the uniform 1/n table. |
| RankFacts.NoVouchesScores | repute/repute.py:43-109 | The engine's result without vouches: uniform without a known seed; with one and at least one round, all score at the seed. |
| RowOrder.TotalPermutation | repute/repute.py:55 | A per-row total is the same for every order of the rows. |
| RowOrder.OutDegreeIsTotal | repute/repute.py:75-78 | An out-degree is the total of the values of the identity's own vouches. |
| RowOrder.ArtifactWeightIsTotal | repute/repute.py:69-71 | The added boost is the total of the weights of the identity's artifacts. |
| RowOrder.InflowIsTotal | repute/repute.py:88-92 | A target's inflow is the total, over the vouch rows, of the contributions of the active vouches aimed at it. |
| RowOrder.OutDegreeIgnoresOrder | repute/repute.py:75-78 | Out-degrees do not depend on the order of the vouch rows. |
| RowOrder.BoostsIgnoreOrder | repute/repute.py:67-73 | The boost table does not depend on the order of the artifact rows. |
| RowOrder.PropagateIgnoresOrder | repute/repute.py:88-92 | Edge propagation does not depend on the order of the vouch rows. |
| RowOrder.RoundIgnoresOrder | repute/repute.py:81-106 | A whole round does not depend on the order of the vouch rows. |
| RowOrder.IterateIgnoresOrder | repute/repute.py:80-106 | No number of rounds depends on the order of the vouch rows. |
| RowOrder.PageRankIgnoresRowOrder | repute/repute.py:53-109 | The engine's result is the same for any order of the vouch rows and of the artifact rows. |
| VouchStore.Prefix8 | repute/repute.py:26 | `did[:8]` is the first eight characters, or the whole identifier when it is shorter. |
| VouchStore.Replace | repute/repute.py:24 | `INSERT OR REPLACE` stores the given alias and changes no other identity. |
| VouchStore.InsertIfAbsent | repute/repute.py:26 | `INSERT OR IGNORE` keeps an existing alias, stores the new one only for a new identity, and changes no other identity. |
| VouchStore.GivenAlias | repute/repute.py:23 | No contract of its own: the test `if alias:`, a given, non-empty alias. `VouchStore.Ensured` states what each outcome of it does. |
| VouchStore.Ensured | repute/repute.py:22-26 | A truthy alias replaces the entry. Without one, an existing identity keeps its table unchanged and a new one gets `did[:8]`. No other identity changes. |
| VouchStore.Store.ReplaceIdentity | repute/repute.py:24 | The identity table becomes `Replace` of the old one; vouches unchanged. |
| VouchStore.Store.InsertIdentity | repute/repute.py:26 | The identity table becomes `InsertIfAbsent` of the old one; vouches unchanged. |
| VouchStore.Store.EnsureIdentity | repute/repute.py:22-26 | The identity table becomes `Ensured` of the old one; vouches unchanged; every vouch still names registered identities. |
| VouchStore.Store.PutVouch | repute/repute.py:34-35 | The pair's value is set, replacing any earlier value; identities unchanged. |
| VouchStore.Store.CmdVouch | repute/repute.py:28-41 | Both endpoints are ensured without an alias, and the vouch is written. No stored alias changes, and every vouch still names registered identities. |
| VouchStore.StoreFeedsEngine | repute/repute.py:92 | Vouch rows read from tables written by these upserts only name registered targets, so the engine's `KeyError` cannot occur. |
| A2AHandler.Validate | repute/a2a_handler.py:23-36 | Returns "not for us" exactly for a non-object or a `type` other than `"repute_vouch"`. Returns "incomplete" exactly for a falsy source or target or a missing/null value, so a value of 0 passes. |
| A2AHandler.ReplyJson | repute/a2a_handler.py:23-51 | The handler returns `None` exactly when the payload is not for it. |
| A2AHandler.Get | repute/a2a_handler.py:26-33 | No contract of its own: `data.get(key)`, with `None` (here `JNull`) for a missing key. `A2AHandler.Validate` and `A2AHandler.Handle` state their contracts with it. |
| A2AHandler.Truthy | repute/a2a_handler.py:35 | No contract of its own: Python truthiness of a decoded JSON value (empty string, 0, false, null, empty array or object are falsy). It is used by `Validate` and `SourceAlias`. |
| A2AHandler.SourceAlias | repute/a2a_handler.py:42 | A falsy alias gives `source[:8]`. A truthy string alias is written as given. A truthy alias that is not a string is modelled as a failed write (see "## Left out"). |
| A2AHandler.ToFloat | repute/a2a_handler.py:48 | `float()` of a number is the number and of a boolean 1.0 or 0.0. Null, arrays and objects raise. |
| A2AHandler.Handle | repute/a2a_handler.py:11-53 | Only a recorded vouch changes the tables. The reply is `None` or missing-fields exactly when validation says so. A complete payload is recorded exactly when source and target are strings, the source alias can be stored and the value converts with `float()`. A recorded vouch replaces the source alias (given alias or `source[:8]`), inserts the target with `target[:8]` only if absent, and sets the pair to `float(value)`. Registered endpoints stay registered. |
| A2AHandler.ProcessPayload | repute/a2a_handler.py:23-51 | The three upserts on the store give the reply and tables of `Handle`. |
| A2AHandler.ZeroValueIsRecorded | repute/a2a_handler.py:35-36 | A payload with value 0 is recorded with 0.0. |
| A2AHandler.HandlerOverwritesWhereEnsureKeeps | repute/a2a_handler.py:41-42 | Without an alias, `ensure_identity` keeps an existing alias, while the handler overwrites the source alias with `source[:8]`. |
| A2AHandler.TargetAliasPreserved | repute/a2a_handler.py:43-44 | An already registered target (other than the source) keeps its alias. |
| Ranking.ScoreOf | repute/repute.py:113 | The score of an identity with no score is 0.0. |
| Ranking.Items | repute/repute.py:133 | The score table's items, one per identity, in identity order. |
| Ranking.Insert | repute/repute.py:133 | Inserting one entry into the ordering lengthens it by one. What the entry does to order and contents is stated by `InsertPermutes` and `InsertKeepsDescending`. |
| Ranking.SortByScore | repute/repute.py:133 | The ordering has as many entries as the items. That it is descending and a permutation is `SortByScoreSortsAndPermutes`. |
| Ranking.InsertPermutes | repute/repute.py:133 | Inserting an entry into the ordering adds exactly that entry. |
| Ranking.InsertBounded | repute/repute.py:133 | Insertion keeps every score under a common bound. |
| Ranking.InsertKeepsDescending | repute/repute.py:133 | Insertion keeps the ordering descending by score. |
| Ranking.SortByScoreSortsAndPermutes | repute/repute.py:133 | The ordering is descending by score and is a permutation of the items. |
| Ranking.SliceLength | repute/repute.py:141 | `[:limit]` keeps `min(limit, n)` entries. A negative limit drops that many from the end. |
| Ranking.Top | repute/repute.py:141 | The first entries of the ordering, drawn from the items. Every entry kept scores at least as high as every entry cut off. |

## Left out

- Floating-point rounding: scores, weights and damping are reals. Over
  floats the order of summation matters, so the row-order independence
  proved in `RowOrder` holds for the model, not bit for bit for the program.
- The decay factor `0.5 ** (days_old / 30.0)` and the timestamp parsing and
  clock read: each row's factor is a parameter of `LoadVouches`. The model
  requires each factor to be non-negative, which a power of 0.5 always is;
  a factor above 1, from a negative age, is allowed.
- The database connection, `init_db` and the schema script, all of
  repute/db.py, and the connect/commit/close calls of the handler: the tables
  are in-memory maps. The artifact query raising is modelled as `None`.
  The handler opens `~/.openclaw/workspace/repute.db` (a2a_handler.py:9),
  while the command line and the engine open `repute.db` in the working
  directory (repute.py:7). Both write paths act on the one `Store`, and
  `StoreFeedsEngine` speaks of the tables the engine reads. These agree
  only when the two paths name the same file.
- Schema facts the source relies on but does not show are taken as given:
  - identities are the identity table's key, hence distinct (`Distinct`);
  - a vouch is keyed by its (source, target) pair.
- Timestamps of vouches are not stored in the vouch table model.
- tools/sign_and_send.py is not part of this model: it is network
  transport and signing.
- Command-line parsing and printing: `main`, `cmd_audit`, the labels and
  formatting of `cmd_score`/`cmd_top`, the error print of `cmd_vouch`, and
  the JSON `__main__` block of repute/a2a_handler.py.
- A2AHandler.Handle: a source, target or alias that is not a string is
  modelled as raising. The source agrees in most of these cases:
  - `target[:8]` raises for a number or boolean target;
  - `source[:8]` raises for a number or boolean source when no truthy alias
    is given;
  - SQLite refuses to store an array or object.

  The model departs from the source in two cases, where SQLite would store
  the value:
  - a number or boolean source together with a truthy alias;
  - a number or boolean truthy alias.

  `float()` of a string is the parameter `parseFloat`. The text of a raised
  exception is not modelled (`Raised`).
- A2AHandler.SourceAlias: a truthy number or boolean alias, which SQLite
  would store, is modelled as `None`, a write that fails.
- A2AHandler.ReplyJson: states only that `None` is returned exactly for
  payloads that are not for the handler. The dictionaries themselves are
  the function's body.
- Ranking.SortByScore: sortedness and permutation are proved. That ties keep
  their input order (Python's sort is stable) is not proved.
- An identity whose out-degree is negative neither propagates nor counts as
  a sink. The model keeps this behaviour, and the distribution results
  assume non-negative weights.
- The engine's `KeyError` for a propagating vouch whose target is unknown is
  a precondition (`TargetsKnown`), not an error result.
