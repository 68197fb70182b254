# Product recommendation worker: a Dafny model

This project models the web worker of the e-commerce recommendation demo,
`exemplo-01/ecommerce-recomendations-with-tensorflow/src/workers/modelTrainingWorker.js`.
The worker trains a small neural network on users and a product catalogue,
then ranks the catalogue for a given user.

- **Context (`makeContext`).** One pass over the catalogue and the users
  builds the encoding context:
  - the age and price ranges;
  - category and colour indices, in first-seen order;
  - each product's normalised mean purchaser age. A product nobody bought
    gets the midpoint age.

  The purchaser tallies are accumulated by a nested loop
  (`EncodingContext.AccumulatePurchaserAges`, `RecordPurchases`), which is
  proved equal to a pure specification (`EncodingContext.ContextOf`).
- **Encoding.** A product becomes `[price, age, category one-hot, colour
  one-hot]`, each segment weighted. Two quirks of the code are reproduced as
  written:
  - Line 96: the age slot of a product holds its normalised age
    *unweighted*. Only the fallback is weighted, giving 0.05.
  - Line 129: a user without purchases is reshaped to the misspelt
    `context.dimentions`, which is `undefined`. The reshape then throws, so
    a cold-start user cannot be encoded.

  A user with purchases is the element-wise mean of the vectors of the
  products they bought.
- **Training set (`createTrainingData`).** Every (user with purchases,
  catalogue product) pair gives:
  - one row, the user's vector followed by the product's vector;
  - one label, 1 when the user bought a product of that name, else 0.

  Rows come in user-major order.
- **Session.** `trainModel` and `recommend` share the module state
  `_globalCtx` and `_model`, modelled by the class `Session.Worker`.
  Training is split at the `await` of line 210:
  - `BeginTraining` encodes the catalogue, publishes the new context and
    builds the training set;
  - `CompleteTraining` stores the fitted network.

  Between the two, `recommend` uses the new context with the previous
  network.
- **Ranking (`recommend`).** The user's vector is paired with every product
  vector and scored by the network. The scored products are then sorted in
  place by descending score. `Array.prototype.sort` is stable, so equal
  scores keep catalogue order.

Numbers are modelled as reals. The network is a parameter: any function
that returns one score per input row.

## Model

| member | source | states |
|---|---|---|
| Normalization.Normalize | exemplo-01/ecommerce-recomendations-with-tensorflow/src/workers/modelTrainingWorker.js:16 | for a non-zero range the result is `(value - min) / (max - min)`; for a zero range the divisor falls back to 1 and it is `value - min` |
| Normalization.NormalizeInUnitInterval | exemplo-01/ecommerce-recomendations-with-tensorflow/src/workers/modelTrainingWorker.js:16 | a value inside a non-degenerate range is scaled into `[0, 1]` |
| Normalization.MidpointIsHalf | exemplo-01/ecommerce-recomendations-with-tensorflow/src/workers/modelTrainingWorker.js:16 | the midpoint of a non-degenerate range is scaled to exactly 0.5 |
| Normalization.DegenerateMidpointIsZero | exemplo-01/ecommerce-recomendations-with-tensorflow/src/workers/modelTrainingWorker.js:16 | on a zero range the midpoint is scaled to 0, not 0.5 |
| Sequences.Min | exemplo-01/ecommerce-recomendations-with-tensorflow/src/workers/modelTrainingWorker.js:23-27 | `Math.min(...s)` of a non-empty list is an element of the list and no larger than any element |
| Sequences.Max | exemplo-01/ecommerce-recomendations-with-tensorflow/src/workers/modelTrainingWorker.js:24-28 | `Math.max(...s)` of a non-empty list is an element of the list and no smaller than any element |
| Sequences.Distinct | exemplo-01/ecommerce-recomendations-with-tensorflow/src/workers/modelTrainingWorker.js:31-32 | the spread `Set` holds exactly the values of the input, each once |
| Sequences.IndexMap | exemplo-01/ecommerce-recomendations-with-tensorflow/src/workers/modelTrainingWorker.js:35-42 | the index object has exactly the listed values as keys and maps each to its position in the list |
| Sequences.DistinctKeepsFirstSeenOrder | exemplo-01/ecommerce-recomendations-with-tensorflow/src/workers/modelTrainingWorker.js:31-32 | de-duplicated values appear in the order of their first occurrence |
| Sequences.IndexFollowsFirstSeen | exemplo-01/ecommerce-recomendations-with-tensorflow/src/workers/modelTrainingWorker.js:31-42 | one value has a smaller index than another if and only if it occurs first |
| EncodingContext.Assemble | exemplo-01/ecommerce-recomendations-with-tensorflow/src/workers/modelTrainingWorker.js:73-87 | the returned context is well formed: `dimensions == 2 + numCategories + numColors`, and the indices are distinct slots inside their segments |
| EncodingContext.ContextOf | exemplo-01/ecommerce-recomendations-with-tensorflow/src/workers/modelTrainingWorker.js:18-88 | the context is well formed and keeps the corpus; the index keys are exactly the catalogue's categories and colours; the age-map keys are exactly the catalogue names |
| EncodingContext.RangesCoverCorpus | exemplo-01/ecommerce-recomendations-with-tensorflow/src/workers/modelTrainingWorker.js:19-28 | every user's age lies in `[minAge, maxAge]` and every catalogue price in `[minPrice, maxPrice]`, and each of the four bounds is the age of some user or the price of some catalogue product: the ranges are `Math.min`/`Math.max` of the corpus, not looser |
| EncodingContext.AddAge | exemplo-01/ecommerce-recomendations-with-tensorflow/src/workers/modelTrainingWorker.js:56 | the name's age sum becomes its old sum (0 when absent) plus the buyer's age; every other name keeps its entry or stays absent |
| EncodingContext.AddOne | exemplo-01/ecommerce-recomendations-with-tensorflow/src/workers/modelTrainingWorker.js:57 | the name's count becomes its old count (0 when absent) plus 1; every other name keeps its entry or stays absent |
| EncodingContext.PurchaseExtendsTotals | exemplo-01/ecommerce-recomendations-with-tensorflow/src/workers/modelTrainingWorker.js:56-57 | one more purchase adds 1 to the count and the buyer's age to the age sum of its own name, and changes no other name |
| EncodingContext.TalliesIgnoreEmptyUser | exemplo-01/ecommerce-recomendations-with-tensorflow/src/workers/modelTrainingWorker.js:54-58 | a user without purchases leaves both dictionaries as they are |
| EncodingContext.TalliesAddPurchase | exemplo-01/ecommerce-recomendations-with-tensorflow/src/workers/modelTrainingWorker.js:56-57 | the two dictionary updates keep the dictionaries equal to the per-name count and age sum of the purchases seen so far |
| EncodingContext.RecordPurchases | exemplo-01/ecommerce-recomendations-with-tensorflow/src/workers/modelTrainingWorker.js:55-58 | the inner loop extends correct tallies for the users seen so far to correct tallies that include one more user |
| EncodingContext.AccumulatePurchaserAges | exemplo-01/ecommerce-recomendations-with-tensorflow/src/workers/modelTrainingWorker.js:50-59 | after the loop, `ageCounts` has an entry exactly for every bought name, holding its number of purchases; `ageSums` has the same keys, each holding the sum of the purchasers' ages |
| EncodingContext.AvgAgeNormFromTallies | exemplo-01/ecommerce-recomendations-with-tensorflow/src/workers/modelTrainingWorker.js:62-70 | the map read off correct tallies gives every catalogue name its normalised mean purchaser age, or the normalised midpoint age when the name was never bought |
| EncodingContext.AvgAgeNormFrom | exemplo-01/ecommerce-recomendations-with-tensorflow/src/workers/modelTrainingWorker.js:62-70 | `Object.fromEntries` yields a key for every catalogue product's name and no other key |
| EncodingContext.MakeContext | exemplo-01/ecommerce-recomendations-with-tensorflow/src/workers/modelTrainingWorker.js:18-88 | the context computed with the accumulation loop equals the specification `ContextOf` |
| ContextProperties.IndicesFollowFirstSeen | exemplo-01/ecommerce-recomendations-with-tensorflow/src/workers/modelTrainingWorker.js:31-42 | for any two catalogue products, category (and colour) indices are ordered as the values first occur in the catalogue, in both directions |
| ContextProperties.IndicesCoverSegments | exemplo-01/ecommerce-recomendations-with-tensorflow/src/workers/modelTrainingWorker.js:35-42 | every slot below `numCategories` (`numColors`) is the index of some catalogue category (colour) |
| ContextProperties.AgesOfBuyersCount | exemplo-01/ecommerce-recomendations-with-tensorflow/src/workers/modelTrainingWorker.js:54-59 | the purchase count of a name is the number of buyer ages recorded for it, one per purchase |
| ContextProperties.AgesOfBuyersSum | exemplo-01/ecommerce-recomendations-with-tensorflow/src/workers/modelTrainingWorker.js:54-59 | the age sum of a name is the sum of its recorded buyer ages |
| ContextProperties.AvgAgeNormEntry | exemplo-01/ecommerce-recomendations-with-tensorflow/src/workers/modelTrainingWorker.js:62-70 | every catalogue product has an age entry: its normalised mean purchaser age, or the normalised midpoint age |
| ContextProperties.AvgAgeNormIsMeanBuyerAge | exemplo-01/ecommerce-recomendations-with-tensorflow/src/workers/modelTrainingWorker.js:49-70 | a bought product's age entry is the normalised arithmetic mean of its buyers' ages; an unbought product's entry is the normalised midpoint |
| ContextProperties.UnboughtProductAgeIsHalf | exemplo-01/ecommerce-recomendations-with-tensorflow/src/workers/modelTrainingWorker.js:64-68 | an unbought catalogue product gets exactly 0.5 when the users' ages are not all equal |
| ContextProperties.MeanBuyerAgeInRange | exemplo-01/ecommerce-recomendations-with-tensorflow/src/workers/modelTrainingWorker.js:64-65 | the mean buyer age of a bought product lies in any range that holds all user ages |
| ContextProperties.AvgAgeNormInUnitInterval | exemplo-01/ecommerce-recomendations-with-tensorflow/src/workers/modelTrainingWorker.js:62-70 | when the users' ages are not all equal, every age entry lies in `[0, 1]` |
| Vectors.Mean | exemplo-01/ecommerce-recomendations-with-tensorflow/src/workers/modelTrainingWorker.js:114 | the column mean has `d` entries, and each entry times the number of rows is that column's sum |
| Vectors.MeanOfCopies | exemplo-01/ecommerce-recomendations-with-tensorflow/src/workers/modelTrainingWorker.js:109-114 | the column mean of any positive number of copies of a row is that row |
| FeatureEncoder.OneHotWeighted | exemplo-01/ecommerce-recomendations-with-tensorflow/src/workers/modelTrainingWorker.js:90-91 | `tf.oneHot` succeeds exactly when `length` is at least 2, and otherwise throws with that depth; on success the vector has `length` entries, `weight` at `index` and 0 everywhere else, and an index out of range gives all zeros |
| FeatureEncoder.AgeSlot | exemplo-01/ecommerce-recomendations-with-tensorflow/src/workers/modelTrainingWorker.js:96 | the age slot is the product's age entry when there is one, unweighted; otherwise `0.5 * WEIGHTS.age`, which is 0.05 |
| FeatureEncoder.ProductFeatures | exemplo-01/ecommerce-recomendations-with-tensorflow/src/workers/modelTrainingWorker.js:93-102 | a product vector has length `dimensions`: the weighted normalised price at 0, the unweighted age entry (0.05 fallback) at 1, then the weighted category one-hot, then the weighted colour one-hot |
| FeatureEncoder.ReshapeRow | exemplo-01/ecommerce-recomendations-with-tensorflow/src/workers/modelTrainingWorker.js:115 | `reshape([1, width])` succeeds exactly when the width is defined and equals the value count, and the values are then unchanged. An `undefined` width always throws, because tfjs checks the element count of the requested shape against the tensor's size, and such a shape never passes |
| FeatureEncoder.EncodeProduct | exemplo-01/ecommerce-recomendations-with-tensorflow/src/workers/modelTrainingWorker.js:93-102 | encoding throws exactly when the context has fewer than two categories or fewer than two colours, with the first of these depths as the error; otherwise it yields `ProductFeatures` |
| FeatureEncoder.EncodingSeparatesCategoricalValues | exemplo-01/ecommerce-recomendations-with-tensorflow/src/workers/modelTrainingWorker.js:97-98 | two products have equal category segments if and only if they share a category, and likewise for colours |
| FeatureEncoder.PurchaseVectors | exemplo-01/ecommerce-recomendations-with-tensorflow/src/workers/modelTrainingWorker.js:109-113 | one vector per purchase, in purchase order, each the `encodeProduct` vector of that purchase and of length `dimensions` |
| FeatureEncoder.UserFeatures | exemplo-01/ecommerce-recomendations-with-tensorflow/src/workers/modelTrainingWorker.js:108-115 | a user with purchases gets `dimensions` values, each of which times the number of purchases is the sum of that column over the purchase vectors: the element-wise mean, in every slot |
| FeatureEncoder.EncodeUser | exemplo-01/ecommerce-recomendations-with-tensorflow/src/workers/modelTrainingWorker.js:107-130 | encoding succeeds if and only if the user has purchases and both one-hot depths are at least 2. A user with purchases in a context with a smaller depth gets the one-hot error of `encodeProduct`; on success the result is `UserFeatures` |
| FeatureEncoder.EncodeUserIsColumnMean | exemplo-01/ecommerce-recomendations-with-tensorflow/src/workers/modelTrainingWorker.js:107-116 | a successful encoding has `dimensions` values, each of which times the number of purchases is that column's sum over the purchase vectors |
| FeatureEncoder.RepeatedPurchaseEncodesAsProduct | exemplo-01/ecommerce-recomendations-with-tensorflow/src/workers/modelTrainingWorker.js:108-116 | a user who bought one product, once or several times, is encoded exactly as that product, including when encoding that product throws |
| FeatureEncoder.CategoryColumnCounts | exemplo-01/ecommerce-recomendations-with-tensorflow/src/workers/modelTrainingWorker.js:109-114 | over the purchase vectors, the column of a category sums to the category weight times the number of purchases in that category |
| FeatureEncoder.ColorColumnCounts | exemplo-01/ecommerce-recomendations-with-tensorflow/src/workers/modelTrainingWorker.js:109-114 | over the purchase vectors, the column of a colour sums to the colour weight times the number of purchases in that colour |
| FeatureEncoder.UserVectorIsPurchaseShare | exemplo-01/ecommerce-recomendations-with-tensorflow/src/workers/modelTrainingWorker.js:108-116 | a user's category (colour) slot is the weight times the share of their purchases in that category (colour) |
| FeatureEncoder.ColdStartVector | exemplo-01/ecommerce-recomendations-with-tensorflow/src/workers/modelTrainingWorker.js:118-128 | the neutral vector has length `2 + numCategories + numColors`, the user's weighted normalised age at 1, and zeros everywhere else |
| FeatureEncoder.ColdStartReshapeFails | exemplo-01/ecommerce-recomendations-with-tensorflow/src/workers/modelTrainingWorker.js:129 | encoding a user without purchases always throws, because the misspelt key reads `undefined` |
| FeatureEncoder.ColdStartAtMidpointAge | exemplo-01/ecommerce-recomendations-with-tensorflow/src/workers/modelTrainingWorker.js:121-124 | when the users' ages are not all equal, a cold-start user at the midpoint age gets half the age weight in the age slot |
| TrainingData.WarmUsers | exemplo-01/ecommerce-recomendations-with-tensorflow/src/workers/modelTrainingWorker.js:137-138 | a user is kept if and only if they are among the users and have at least one purchase |
| TrainingData.WarmUsersCounts | exemplo-01/ecommerce-recomendations-with-tensorflow/src/workers/modelTrainingWorker.js:138 | the filter keeps each user with purchases exactly as often as it occurs, and drops every user without purchases |
| TrainingData.WarmUsersKeepOrder | exemplo-01/ecommerce-recomendations-with-tensorflow/src/workers/modelTrainingWorker.js:138 | two kept users appear in the filtered list in the same order as in the input |
| TrainingData.WarmUsersPosition | exemplo-01/ecommerce-recomendations-with-tensorflow/src/workers/modelTrainingWorker.js:138 | a user with purchases at input position `i` is the filtered list's entry right after the kept users of the first `i` inputs, so the filter places every kept occurrence, repeated records included |
| TrainingData.WarmUsersLength | exemplo-01/ecommerce-recomendations-with-tensorflow/src/workers/modelTrainingWorker.js:138 | the filtered list has one entry per input position holding a user with purchases |
| TrainingData.NoWarmUsers | exemplo-01/ecommerce-recomendations-with-tensorflow/src/workers/modelTrainingWorker.js:138 | when no user has a purchase, the filter leaves nothing |
| TrainingData.Bought | exemplo-01/ecommerce-recomendations-with-tensorflow/src/workers/modelTrainingWorker.js:143 | `some` is true if and only if some purchase carries the name |
| TrainingData.Label | exemplo-01/ecommerce-recomendations-with-tensorflow/src/workers/modelTrainingWorker.js:143 | the label is 0 or 1, and it is 1 if and only if one of the user's purchases has the product's name |
| TrainingData.PushUserPairs | exemplo-01/ecommerce-recomendations-with-tensorflow/src/workers/modelTrainingWorker.js:139-147 | one user's pass appends exactly that user's rows and labels, one per catalogue product in catalogue order, each row the user's vector followed by the product's vector |
| TrainingData.TrainingDataOf | exemplo-01/ecommerce-recomendations-with-tensorflow/src/workers/modelTrainingWorker.js:137-155 | when a user has purchases and a one-hot depth is below 2, `encodeUser` throws with that depth; otherwise the result is the collected training set when at least one row was collected, and the `tf.tensor2d([])` error when none was |
| TrainingData.TrainingDataFailsWithoutPairs | exemplo-01/ecommerce-recomendations-with-tensorflow/src/workers/modelTrainingWorker.js:137-151 | building the set throws if and only if no user has a purchase, the catalogue is empty, or a one-hot depth is below 2 |
| TrainingData.CreateTrainingData | exemplo-01/ecommerce-recomendations-with-tensorflow/src/workers/modelTrainingWorker.js:134-156 | the loops build exactly `TrainingDataOf(ctx)`: the training set, the one-hot error of the first user encoded, or the `tensor2d` error when no row was collected |
| TrainingData.TrainingSetShape | exemplo-01/ecommerce-recomendations-with-tensorflow/src/workers/modelTrainingWorker.js:134-156 | the set has (users with purchases) × (products) rows and as many labels; every row has width `inputDimension == 2 * dimensions`; every label is 0 or 1 |
| TrainingData.TrainingRowAt | exemplo-01/ecommerce-recomendations-with-tensorflow/src/workers/modelTrainingWorker.js:137-147 | row `i * products + j` is user `i`'s vector followed by product `j`'s vector, and carries that pair's label (user-major order) |
| TrainingData.LabelMeansBought | exemplo-01/ecommerce-recomendations-with-tensorflow/src/workers/modelTrainingWorker.js:143 | a label is 1 if and only if some purchase of the user has the product's name, and 0 if and only if none has |
| TrainingData.LabelCountsPurchases | exemplo-01/ecommerce-recomendations-with-tensorflow/src/workers/modelTrainingWorker.js:143 | a label is 1 if and only if the user's purchase count for the product's name is positive |
| Ranking.StableSortDesc | exemplo-01/ecommerce-recomendations-with-tensorflow/src/workers/modelTrainingWorker.js:251 | the sorted list has as many entries as the input; its order, its contents and its stability are the three lemmas below |
| Ranking.StableSortDescIsSorted | exemplo-01/ecommerce-recomendations-with-tensorflow/src/workers/modelTrainingWorker.js:251 | the sorted list has non-increasing scores |
| Ranking.StableSortDescPermutes | exemplo-01/ecommerce-recomendations-with-tensorflow/src/workers/modelTrainingWorker.js:251 | the sorted list is a permutation of its input |
| Ranking.StableSortDescIsStable | exemplo-01/ecommerce-recomendations-with-tensorflow/src/workers/modelTrainingWorker.js:251 | entries with equal scores keep their relative order |
| Ranking.StableSortIsUnique | exemplo-01/ecommerce-recomendations-with-tensorflow/src/workers/modelTrainingWorker.js:251 | any list with descending scores and the input's equal-score subsequences is exactly the stable sort, whatever stable algorithm produced it |
| Ranking.SortByScoreDescending | exemplo-01/ecommerce-recomendations-with-tensorflow/src/workers/modelTrainingWorker.js:251 | the in-place sort leaves the array holding the stable descending sort of its old contents |
| Session.ProductVectors | exemplo-01/ecommerce-recomendations-with-tensorflow/src/workers/modelTrainingWorker.js:200-206 | one entry per catalogue product, in catalogue order, holding its name, a copy of the product, and its encoded vector |
| Session.EncodeCatalogue | exemplo-01/ecommerce-recomendations-with-tensorflow/src/workers/modelTrainingWorker.js:200-206 | the `map` throws exactly when encoding some catalogue product throws, with the first product's error, and otherwise yields `ProductVectors` |
| Session.RankingInputs | exemplo-01/ecommerce-recomendations-with-tensorflow/src/workers/modelTrainingWorker.js:230-232 | one row per product vector: the user's vector followed by that product's vector |
| Session.Scored | exemplo-01/ecommerce-recomendations-with-tensorflow/src/workers/modelTrainingWorker.js:243-249 | one recommendation per product vector, in order: the product's fields and name, with the score at the same index |
| Session.RecommendFor | exemplo-01/ecommerce-recomendations-with-tensorflow/src/workers/modelTrainingWorker.js:215-251 | no model gives nothing; with a model, a user without purchases makes `encodeUser` throw; a ranking is produced exactly when the user has purchases and the network's input width is twice the context's `dimensions`, and then it holds one entry per catalogue product |
| Session.ContextKnowsCorpus | exemplo-01/ecommerce-recomendations-with-tensorflow/src/workers/modelTrainingWorker.js:199-206 | the new context indexes the category and colour of every catalogue product and of every purchase whose values occur in the catalogue |
| Session.TrainedOn | exemplo-01/ecommerce-recomendations-with-tensorflow/src/workers/modelTrainingWorker.js:199-206 | the published context exists exactly when both one-hot depths of `ContextOf(products, users)` are at least 2, and otherwise the result is that depth error; the context is then exactly `makeContext`'s, keeps that catalogue and those users, and carries the catalogue's product vectors |
| Session.PrepareContext | exemplo-01/ecommerce-recomendations-with-tensorflow/src/workers/modelTrainingWorker.js:199-206 | building the context and encoding the catalogue gives exactly `TrainedOn(products, users)`, its error included |
| Session.TrainingNeedsTwoClasses | exemplo-01/ecommerce-recomendations-with-tensorflow/src/workers/modelTrainingWorker.js:200-206 | training stops at the product vectors if and only if the catalogue has fewer than two distinct categories or fewer than two distinct colours |
| Session.SingleCategoryCatalogueFails | exemplo-01/ecommerce-recomendations-with-tensorflow/src/workers/modelTrainingWorker.js:200-206 | a catalogue whose products all share one category, such as a single-product catalogue, makes training throw with depth 1 |
| Session.TrainingWithoutPurchasesFails | exemplo-01/ecommerce-recomendations-with-tensorflow/src/workers/modelTrainingWorker.js:138-151 | when no user has a purchase and the product vectors were encoded, building the training set throws, so no network is fitted |
| Session.Worker.constructor | exemplo-01/ecommerce-recomendations-with-tensorflow/src/workers/modelTrainingWorker.js:3-4 | a fresh worker has no context and no model |
| Session.Worker.BeginTraining | exemplo-01/ecommerce-recomendations-with-tensorflow/src/workers/modelTrainingWorker.js:194-209 | when encoding the product vectors throws, the result is that error and `_globalCtx` and `_model` are unchanged; otherwise `_globalCtx` becomes the new context before the training set is built, `_model` is unchanged, and the result is `TrainingDataOf` of the new context |
| Session.Worker.CompleteTraining | exemplo-01/ecommerce-recomendations-with-tensorflow/src/workers/modelTrainingWorker.js:210 | `_model` becomes the fitted network for rows of the training set's width; `_globalCtx` is unchanged |
| Session.Worker.Recommend | exemplo-01/ecommerce-recomendations-with-tensorflow/src/workers/modelTrainingWorker.js:215-257 | the method, with its in-place sort, returns exactly `RecommendFor` of the current state |
| Session.NoModelNoRecommendations | exemplo-01/ecommerce-recomendations-with-tensorflow/src/workers/modelTrainingWorker.js:216 | before a network is trained, `recommend` yields nothing |
| Session.ColdStartRecommendFails | exemplo-01/ecommerce-recomendations-with-tensorflow/src/workers/modelTrainingWorker.js:215-219 | with a trained session, a user without purchases makes `recommend` throw in `encodeUser` |
| Session.StaleModelFails | exemplo-01/ecommerce-recomendations-with-tensorflow/src/workers/modelTrainingWorker.js:208-210 | during retraining, the old network with a context of a different width makes `recommend` throw on the input width |
| Session.RecommendRanksCatalogue | exemplo-01/ecommerce-recomendations-with-tensorflow/src/workers/modelTrainingWorker.js:230-251 | with the network fitted on the session's own training set, a user with purchases gets every catalogue product exactly once, with non-increasing scores and equal scores in catalogue order |
| Session.ScoresFollowCatalogueOrder | exemplo-01/ecommerce-recomendations-with-tensorflow/src/workers/modelTrainingWorker.js:230-249 | ranking row `i` is the user's vector followed by product `i`'s vector, and the `i`-th scored entry is product `i` with the `i`-th score |

## Left out

- The network (`configureNeuralNetAndTrain`, lines 159-192) is left out: its layers, the Adam optimiser, the loss, the 100 epochs of `fit` and their progress messages. The fitted network is a parameter of `CompleteTraining`. Its `predict` can be any function that returns one score per row. The sigmoid output range `[0, 1]` is not assumed.
- The `fetch` of `/data/products.json` (line 197) is left out: the catalogue is a parameter of `BeginTraining`.
- `postMessage`, `console.log` and the `onmessage` dispatch table (lines 195-196, 212-213, 253-268) are left out. `Recommend` returns the sorted list instead of posting it.
- Concurrency between messages is not modelled. Only the `await` of line 210 inside `trainModel` is represented, by splitting training into two methods; the `await` of the fetch at line 197 is left out with the fetch.
- Floating point is not modelled: `float32` tensors and JavaScript numbers are reals, so there is no rounding and no `NaN`.
- Tensors are modelled as sequences of reals: `tf.stack`, `mean(0)`, `concat1d`, `oneHot`, `dataSync` and `tensor2d`.
- FeatureEncoder.ReshapeRow: only models reshaping to `[1, width]`. It returns the flat row, not a rank-2 tensor, and the error carries the sizes rather than the message text.
- EncodingContext.ContextOf: requires a non-empty catalogue and user list. The source does not check this, and `Math.min()` of nothing is `Infinity`.
- FeatureEncoder.EncodeProduct: requires the product's category and colour to be in the context's indices. The source would index `oneHot` with `undefined`.
- FeatureEncoder.EncodeUser: requires the same of every purchase.
- Session.Worker.Recommend: requires the same of the user's purchases.
- Session.Worker.BeginTraining: requires every purchase's category and colour to occur in the fetched catalogue.
- `tf.oneHot` with a depth below 2 throws. A catalogue with a single category or a single colour, a one-product catalogue among them, therefore makes `trainModel` throw while encoding the product vectors. This is modelled as the error `OneHotDepth`: `BeginTraining` returns it before `_globalCtx` is replaced. The exception's message is not modelled.
- `tf.tensor2d` on an empty list of rows throws, because the rank it infers is 1. This happens when no user has a purchase. It is modelled as the error `EmptyTensor2d`: `BeginTraining` has already replaced `_globalCtx` and leaves `_model` as it was, and `CompleteTraining` is then never called. The exception's message is not modelled.
- The dictionaries `ageSums`, `ageCounts`, `productAvgAgeNorm`, `categoriesIndex` and `colorsIndex` are plain JavaScript objects and are modelled as maps. Product names, categories and colours are assumed not to be names of `Object.prototype` properties (`constructor`, `toString`, `__proto__`, …). With such a name the source reads an inherited value, which gives `NaN` or a wrong slot.
- Ranking.SortByScoreDescending: sorts by insertion, not by the engine's own algorithm. `Ranking.StableSortIsUnique` shows that every stable descending sort gives the same list.
- A recommendation is the product record with its score, `Recommendation(product, score)`, rather than an object spread of `meta` with `name` and `score` added.
- The initial `_globalCtx = {}` is modelled as no context. It is only read once a model exists, and a model is only stored after a context.
- `exemplo-00/analise-credito.js` and `exemplo-02/DuckHunt-JS/machine-learning/worker.js` are not part of this model.
