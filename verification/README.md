# Text classification with TorchText: a Dafny model of the data path

This project models the deterministic core of the AG_NEWS text-classification
tutorial, `beginner_source/text_sentiment_ngrams_tutorial.py`. The core is the
book-keeping around the neural network:

- the label and text pipelines that turn a raw `(label, text)` sample into
  integers;
- `collate_batch`, which packs a batch into a label tensor, one concatenated
  token tensor and the offsets that delimit each sample inside it (the input
  format of `nn.EmbeddingBag`);
- the accuracy counters of `train` and `evaluate`, including the windows of
  `train`'s progress log every 500 batches;
- the epoch loop's rule that decays the learning rate (StepLR, gamma 0.1)
  when validation accuracy falls below the best seen so far;
- the `+ 1` that turns `predict`'s argmax back into an AG_NEWS category.

Tensors are sequences. The tokenizer and the classifier's forward pass are
library code: the tokenizer is a function parameter, and a forward pass
enters either as a row of logits (`predict`) or as the predicted class of
each sample next to its true class (`train`, `evaluate`).

Modules:

- `Results` (results.dfy): `Option`, and `Result` with the two Python
  exceptions the model carries (`ValueError` from `int()`,
  `ZeroDivisionError` from `evaluate`); the loss's rejection of an
  out-of-range class is left out (see below).
- `IntLiteral` (int_literal.dfy): `int()` on a string, and the decimal
  rendering it inverts.
- `Vocabulary` (vocabulary.dfy): the vocabulary lookup with the `"<unk>"`
  default index.
- `Pipelines` (pipelines.dfy): `label_pipeline`, `text_pipeline`, the AG_NEWS
  label map, and `predict`'s argmax.
- `Collate` (collate.dfy): `collate_batch`.
- `Accuracy` (accuracy.dfy): the counters of `train` and `evaluate`.
- `Plateau` (plateau.dfy): the epoch loop's learning-rate schedule.

The epoch loop decays the rate only when the new accuracy is strictly below
the best (`total_accu > accu_val`). A tie therefore counts as a new best, not as a failure to
improve. `Plateau.Step` and `Plateau.DecayIffBelowBest` follow the code.

## Model

| member | source | states |
|---|---|---|
| IntLiteral.ParseShowRoundTrip | beginner_source/text_sentiment_ngrams_tutorial.py:82 | `int()` applied to the decimal rendering of any integer, negative ones included, gives that integer back |
| IntLiteral.ParseRejectsDigitless | beginner_source/text_sentiment_ngrams_tutorial.py:82 | `int()` raises ValueError, carrying the offending string, on a string that holds no digit |
| IntLiteral.ShowNat | beginner_source/text_sentiment_ngrams_tutorial.py:92-93 | `str(n)` of a natural number is a non-empty string of digits that denotes n and has no leading zero unless it is `"0"` |
| Vocabulary.WithUnkDefault | beginner_source/text_sentiment_ngrams_tutorial.py:68-69 | after `set_default_index(vocab["<unk>"])` the token table is unchanged and every token outside it looks up as the index of `"<unk>"` |
| Vocabulary.Lookup | beginner_source/text_sentiment_ngrams_tutorial.py:76-77 | `vocab(tokens)` yields one index per token, in order, each the lookup of that token |
| Vocabulary.LookupAppend | beginner_source/text_sentiment_ngrams_tutorial.py:76-77 | looking up a concatenation is the concatenation of the lookups |
| Vocabulary.LookupInRange | beginner_source/text_sentiment_ngrams_tutorial.py:68-69 | in a vocabulary built with `"<unk>"` as its first special, every index lies in `[0, len(vocab))` and unknown tokens map to 0 |
| Vocabulary.LookupInjectiveOnKnown | beginner_source/text_sentiment_ngrams_tutorial.py:68-69 | two token lists made only of known tokens that encode to the same indices are the same list |
| Vocabulary.LookupExample | beginner_source/text_sentiment_ngrams_tutorial.py:76-77 | with the documented indices, `vocab(['here', 'is', 'an', 'example'])` is `[475, 21, 30, 5286]` |
| Pipelines.TextPipeline | beginner_source/text_sentiment_ngrams_tutorial.py:81 | the text pipeline yields one vocabulary index per token of the tokenized text, in order |
| Pipelines.TextPipelineExample | beginner_source/text_sentiment_ngrams_tutorial.py:90-91 | the documented sentence encodes to `[475, 21, 2, 30, 5286]` under the documented indices |
| Pipelines.TextPipelineUnknown | beginner_source/text_sentiment_ngrams_tutorial.py:68-69 | tokens the vocabulary does not hold are encoded as the index of `"<unk>"` |
| Pipelines.LabelPipelineShift | beginner_source/text_sentiment_ngrams_tutorial.py:82 | the label pipeline maps label n to n - 1, whether n arrives as an integer or as its decimal string |
| Pipelines.LabelPipelineExample | beginner_source/text_sentiment_ngrams_tutorial.py:92-93 | `label_pipeline('10')` is 9 |
| Pipelines.LabelPipelineBijective | beginner_source/text_sentiment_ngrams_tutorial.py:172-175 | a label is an AG_NEWS key exactly when the label pipeline sends it into the class range 0..3, and distinct labels give distinct classes, so the labels 1..4 correspond one-to-one with the classes 0..3 |
| Pipelines.LabelPipelineRejects | beginner_source/text_sentiment_ngrams_tutorial.py:82 | a string label without digits makes the label pipeline raise ValueError |
| Pipelines.Argmax | beginner_source/text_sentiment_ngrams_tutorial.py:328 | `argmax` returns an index holding the maximum logit, and the first such index |
| Pipelines.Predict | beginner_source/text_sentiment_ngrams_tutorial.py:324-328 | `predict` returns a 1-based category in `1..len(logits)` whose logit is maximal, and every earlier logit is strictly smaller, so ties go to the first maximal class as `argmax` breaks them |
| Pipelines.PredictInvertsLabelPipeline | beginner_source/text_sentiment_ngrams_tutorial.py:319-328 | over four logits the prediction is an AG_NEWS key, and the label pipeline maps it back to the argmax class |
| Collate.CumSumIsRunningTotal | beginner_source/text_sentiment_ngrams_tutorial.py:122 | `cumsum` puts at position i the sum of the first i + 1 elements |
| Collate.OffsetsArePrefixSums | beginner_source/text_sentiment_ngrams_tutorial.py:115-122 | the offsets (the lengths after a leading 0, the last dropped, cumulatively summed) are the exclusive prefix sums of the lengths: one per sample, starting at 0, consecutive ones differing by the length between them |
| Collate.OffsetsMonotone | beginner_source/text_sentiment_ngrams_tutorial.py:122 | with non-negative lengths the offsets never decrease |
| Collate.FlattenAppend | beginner_source/text_sentiment_ngrams_tutorial.py:123 | concatenating two lists of runs concatenates their flattenings |
| Collate.FlattenLength | beginner_source/text_sentiment_ngrams_tutorial.py:123 | `torch.cat` yields a tensor as long as all runs together |
| Collate.FlattenRunAt | beginner_source/text_sentiment_ngrams_tutorial.py:123 | run i of the concatenation starts at the total length of the runs before it and holds exactly that run |
| Collate.OffsetsLayout | beginner_source/text_sentiment_ngrams_tutorial.py:120-122 | the computed offsets start at 0, are the exclusive prefix sums of the run lengths, and never decrease |
| Collate.RunAtOffset | beginner_source/text_sentiment_ngrams_tutorial.py:120-123 | run i lies in the concatenated text at the offset computed for it |
| Collate.TextLayout | beginner_source/text_sentiment_ngrams_tutorial.py:120-123 | the concatenated text is as long as all runs, and slicing it at offset i for the length of run i gives back run i |
| Collate.CollateBatch | beginner_source/text_sentiment_ngrams_tutorial.py:114-124 | the batch succeeds exactly when every label converts, and otherwise raises the error of the first label that does not. On success it holds one label per sample (the label pipeline's value), offsets that are the exclusive prefix sums, and a text in which each sample's encoding sits at its offset |
| Accuracy.CountCorrect | beginner_source/text_sentiment_ngrams_tutorial.py:208 | the right predictions of a batch never exceed its size, and equal it exactly when every prediction is right |
| Accuracy.CountCorrectIsMatches | beginner_source/text_sentiment_ngrams_tutorial.py:208 | the count of right predictions is the number of positions whose predicted class equals the true class |
| Accuracy.Correct | beginner_source/text_sentiment_ngrams_tutorial.py:226-227 | over the first n batches the right predictions never exceed the samples |
| Accuracy.CountsGrow | beginner_source/text_sentiment_ngrams_tutorial.py:208-209 | both counters only grow along the batches, and over any stretch of batches the right predictions grow no faster than the samples |
| Accuracy.Evaluate | beginner_source/text_sentiment_ngrams_tutorial.py:218-228 | `evaluate` succeeds exactly when the batches hold at least one sample and otherwise raises ZeroDivisionError. On success it returns the fraction of right predictions over samples across all batches, whose numerator never exceeds its positive denominator, so the accuracy lies in [0, 1] |
| Accuracy.WindowFacts | beginner_source/text_sentiment_ngrams_tutorial.py:210-215 | each logging window ends at its log index, the next window starts on the batch after it, and log indices are one interval apart |
| Accuracy.LogStepsInWindow | beginner_source/text_sentiment_ngrams_tutorial.py:210 | within a logging window the test `idx % log_interval == 0 and idx > 0` holds exactly at the window's last batch |
| Accuracy.LoggedAppend | beginner_source/text_sentiment_ngrams_tutorial.py:210-215 | printing the next line at its log index keeps every printed line at its index and its window's counters |
| Accuracy.TrainStep | beginner_source/text_sentiment_ngrams_tutorial.py:208-216 | one iteration adds the batch to the window counters and, at a logging step, prints the window's counters and restarts them, keeping the window invariant |
| Accuracy.TrainCounters | beginner_source/text_sentiment_ngrams_tutorial.py:195-216 | `train` prints at batches 500, 1000, ... that exist. Each printed line carries the right predictions and samples of the batches since the previous print, with a positive count so the printed quotient is defined. The counters left at the end cover the batches after the last print. Every printed line, and the pending counters, have no more right predictions than samples |
| Plateau.MaxOf | beginner_source/text_sentiment_ngrams_tutorial.py:280-284 | the best of a non-empty run of accuracies is one of them and at least every other |
| Plateau.Step | beginner_source/text_sentiment_ngrams_tutorial.py:280-284 | one epoch makes the best the larger of the old best and the new accuracy. It decays the rate by gamma exactly when the new accuracy is strictly below the old best; a tie does not decay |
| Plateau.RunBestIsMax | beginner_source/text_sentiment_ngrams_tutorial.py:277-284 | `total_accu` is None before any epoch and afterwards the maximum validation accuracy so far |
| Plateau.DropsExtend | beginner_source/text_sentiment_ngrams_tutorial.py:280-281 | adding an epoch adds it to the decaying epochs exactly when it is strictly below the best before it |
| Plateau.RunDecaysAreDrops | beginner_source/text_sentiment_ngrams_tutorial.py:277-284 | the number of `scheduler.step()` calls equals the number of epochs strictly below the best earlier accuracy |
| Plateau.RateIsDecayed | beginner_source/text_sentiment_ngrams_tutorial.py:261 | the learning rate is 5 times 0.1 to the power of the number of decays |
| Plateau.DecayIffBelowBest | beginner_source/text_sentiment_ngrams_tutorial.py:280-281 | epoch e decays the rate exactly when it is not the first and its accuracy is strictly below the best of the epochs before it; no epoch decays more than once |
| Plateau.BestNeverDecreases | beginner_source/text_sentiment_ngrams_tutorial.py:280-284 | the best accuracy of an earlier epoch never exceeds that of a later one |
| Plateau.DecaysBounded | beginner_source/text_sentiment_ngrams_tutorial.py:277-284 | the first epoch never decays, so a run decays at most one time fewer than it has epochs and the rate stays in (0, 5] |

## Left out

- The neural network (`TextClassificationModel`, `EmbeddingBag`, the linear layer, weight initialisation), the loss, back-propagation, `clip_grad_norm_` and SGD: floating-point library numerics. Their effect enters as logits or predicted classes.
- Tensors, dtypes and `.to(device)`: tensors are plain sequences and devices are not modelled.
- The `basic_english` tokenizer: it is a function parameter. Only the example sentence's tokenization is assumed, in `TextPipelineExample`.
- `build_vocab_from_iterator`, meaning the frequency ordering that assigns indices: the vocabulary is a token table. `Valid` states the properties the built table has (`"<unk>"` first, indices dense and distinct).
- `AG_NEWS`, `to_map_style_dataset`, `random_split`, `DataLoader` shuffling and batching: I/O and randomness. Batches enter as given sequences.
- `num_class = len(set(labels))`: computed from the dataset; the model fixes it at 4.
- Wall-clock timing and every `print` format: I/O. A progress line is modelled by its batch index and the two counters whose quotient it prints.
- Accuracy as a float: `Evaluate` returns the quotient as an exact fraction (`Ratio`), and `Value` gives its real value. Float rounding is not modelled.
- The final test-set evaluation and the long inference example text: they only reuse the modelled operations on data the model cannot see.
- IntLiteral.ParseInt: `int()` on a string is modelled as an optional sign followed by ASCII digits. Surrounding whitespace, underscores between digits and non-ASCII digits, all of which Python also accepts, are not modelled.
- Collate.CollateBatch: requires a non-empty batch. `offsets[:-1]` on a single `[0]` and `torch.cat([])` on an empty list are not modelled, because a DataLoader never forms an empty batch.
- Accuracy.TrainCounters: requires every batch to be non-empty, as a DataLoader's batches are. A logging window whose batches were all empty would make the printed quotient divide by zero. Requiring every batch to be non-empty, as every batch `collate_batch` returns is, rules that out.
- Accuracy.Evaluate: a true class outside `[0, num_class)`, such as raw label 5 or 0, makes `criterion(predited_label, label)` raise and abort `evaluate`. The model takes each sample as its predicted and true class only and counts such a sample as a wrong prediction, because the loss is library numerics that is not modelled.
- Accuracy.TrainCounters: for the same reason an out-of-range true class, which makes the loss raise inside `train`, is counted as a wrong prediction instead of aborting the loop.
- Plateau.RateIsDecayed: the learning rate is an exact real. The float rounding of repeated multiplication by 0.1 is not modelled.
