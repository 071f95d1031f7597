# Data annotation tool — verified model

This project models the `DataAnnotationTool` session of a small Python tool for
manual data-annotation work. A session keeps three append-only logs:

- image annotations (id, category, confidence on a 1–5 scale, notes);
- quality-check results, which score a data entry against the named criteria
  `completeness`, `format` and `consistency`;
- pairwise comparisons between two items.

It can also summarise the logs: a consistency report over the annotations (the
category histogram and a category-diversity score), the summary of the JSON
report, and the content of the CSV export.

Modules:

- `Wrappers` (`wrappers.dfy`): `Option` and `Result`.
- `PyValues` (`py_values.dfy`): the dynamically typed values a Python dict may
  hold (`str`, `int`, `float`, `bool`, `None`, any other object). It gives their
  truth values, their numeric view (bool is an int), and `v in range(lo, hi)`
  for these built-in types; any other object is taken never to equal a number.
- `QualityRules` (`quality_rules.dfy`): the three criteria, plus the score and
  feedback over a list of criterion names.
- `Statistics` (`statistics.dfy`): distinct values, the category histogram, the
  sum of its counts, sums, means and percentages.
- `AnnotationTool` (`annotation_tool.dfy`): the record datatypes, the
  specification functions `QualityOf` and `ConsistencyOf`, and the class
  `DataAnnotationTool`. The class has three `seq` fields and one method per
  operation. `QualityCheck` and `ConsistencyCheck` keep the source's loops and
  are proved against the specification functions.

Python floats are exact `real`s here. Timestamps are string parameters. The
winner that the source draws with `random.choice` is a `Winner` parameter. An
operation that raises returns `Err(ZeroDivisionError)` or `Err(TypeError)`.

Two details of the source worth noting:

- The consistency criterion is `confidence in range(1, 6)`, which is wider than
  "an integer from 1 to 5": it also passes for `True` (equal to 1) and for the
  floats 1.0 to 5.0 (`InRange`, `InRangeIffEqualsMember`).
- The report's average quality is a number here. The source turns it into a
  string with two decimals, and that formatting is left out.

`AnnotationEntryRoundTrip` and `WinnerRoundTrip` are side facts, not models of a
source operation: the source never reads a stored record back or parses a
winner string. They show that the stored record and the stored winner string
lose no information.

## Model

| member | source | states |
|---|---|---|
| `PyValues.InRangeIffEqualsMember` | data_annotation_tool.py:66 | `v in range(lo, hi)` holds iff `v` equals, as a number, some integer k with lo <= k < hi |
| `PyValues.Numeric` | data_annotation_tool.py:125 | a value has a number for `sum` exactly when it is an int, a float or a bool; True counts as 1 and False as 0 |
| `QualityRules.ScoreBounds` | data_annotation_tool.py:46-70 | score <= number of feedback lines == number of recognised names <= number of names (`max_score`) |
| `QualityRules.FeedbackFollowsCriteria` | data_annotation_tool.py:50-70 | exactly one feedback line per recognised criterion, in criteria order; each line is the pass or fail message of that criterion |
| `QualityRules.ScoreByOccurrences` | data_annotation_tool.py:50-70 | score == sum over the three names of (occurrences of the name) × (1 if the entry passes that rule, else 0) |
| `QualityRules.UnrecognisedIgnored` | data_annotation_tool.py:50-70 | appending an unrecognised name changes neither the score nor the feedback |
| `QualityRules.UnrecognisedCapsScore` | data_annotation_tool.py:47-76 | if any name is unrecognised, the score is strictly below `max_score`, so the percentage is below 100 |
| `QualityRules.AllRulesPassFullScore` | data_annotation_tool.py:50-70 | an entry passing all three rules scores one point per recognised name |
| `QualityRules.FalsyValueFailsCompleteness` | data_annotation_tool.py:51-56 | an entry holding a falsy value fails completeness, and its line reads "✗ Missing data" |
| `Statistics.DistinctBounds` | data_annotation_tool.py:124 | 1 <= number of distinct categories <= number of annotations (for a non-empty list) |
| `Statistics.HistogramCounts` | data_annotation_tool.py:130-132 | the distribution's keys are the distinct categories, and each count is the number of occurrences of its key |
| `Statistics.HistogramTotal` | data_annotation_tool.py:130-132 | the distribution's counts add up to the number of categories |
| `Statistics.SumBounds` | data_annotation_tool.py:125 | a sum of n numbers, each in [lo, hi], lies in [n·lo, n·hi] |
| `Statistics.MeanBounds` | data_annotation_tool.py:164 | the mean of numbers, each in [lo, hi], lies in [lo, hi] |
| `Statistics.Percent` | data_annotation_tool.py:76 | `part / whole * 100` is >= 0; it is <= 100 when part <= whole; it is > 0 iff part > 0; it is 100 iff part == whole |
| `AnnotationTool.AnnotationEntry` | data_annotation_tool.py:27-33 | the stored record has exactly the keys image_id, category, confidence, timestamp, notes |
| `AnnotationTool.AnnotationEntryRoundTrip` | data_annotation_tool.py:27-33 | side fact (no source operation reads it back): the stored dict determines the annotation, so building it loses no information |
| `AnnotationTool.AnnotationRules` | data_annotation_tool.py:51-70 | on a stored annotation: completeness iff every field is truthy; format iff image_id is a str; consistency iff confidence is in range(1, 6) |
| `AnnotationTool.DefaultNotesIncomplete` | data_annotation_tool.py:17-56 | an annotation with the default notes "" fails completeness and scores at most 2 of 3 |
| `AnnotationTool.WellFormedAnnotationFullScore` | data_annotation_tool.py:50-76 | an annotation with a str id, non-empty strings, integer confidence 1..5 and truthy notes scores 100% on the three criteria |
| `AnnotationTool.QualityOfFacts` | data_annotation_tool.py:46-81 | the check fails (division by zero) iff criteria is empty; otherwise max_score == number of names, score <= max_score, one feedback line per recognised name, and the percentage lies in [0, 100] |
| `AnnotationTool.WinnerName` | data_annotation_tool.py:99 | the recorded winner is one of "A", "B", "Tie" |
| `AnnotationTool.WinnerRoundTrip` | data_annotation_tool.py:99-105 | side fact (the source never parses it): the recorded winner string identifies the outcome that was drawn |
| `AnnotationTool.Categories` | data_annotation_tool.py:119 | the category list has one entry per annotation, in order |
| `AnnotationTool.Confidences` | data_annotation_tool.py:120 | the confidence list has one entry per annotation, in order |
| `AnnotationTool.ConsistencyOutcomes` | data_annotation_tool.py:113-125 | the result is `None` iff there are fewer than 2 annotations; it is a TypeError iff there are at least 2 and some confidence is not a number |
| `AnnotationTool.ConsistencyReportFacts` | data_annotation_tool.py:119-138 | in a report: total == number of annotations; the distribution counts sum to total; its number of keys == unique_categories; each count is the occurrence count; 1 <= unique <= total; the score lies in (0, 100] |
| `AnnotationTool.AverageConfidenceOnScale` | data_annotation_tool.py:120-125 | confidences that are all integers 1..5 give an average in [1, 5] |
| `AnnotationTool.ConsistencyExample` | data_annotation_tool.py:119-138 | categories [A, A, B] give 2 distinct categories and a score of 200/3 |
| `AnnotationTool.Percentages` | data_annotation_tool.py:164 | one percentage per quality result, in order |
| `AnnotationTool.Row` | data_annotation_tool.py:181-183 | a CSV row holds the record's values in header order |
| `AnnotationTool.DataAnnotationTool.constructor` | data_annotation_tool.py:12-15 | a new session has three empty logs |
| `AnnotationTool.DataAnnotationTool.AnnotateImage` | data_annotation_tool.py:17-36 | returns a record holding the arguments (notes default to ""); appends exactly it to the annotations; the other logs are unchanged |
| `AnnotationTool.DataAnnotationTool.QualityCheck` | data_annotation_tool.py:38-83 | the loop computes `QualityOf`; an empty criteria list fails and logs nothing; otherwise exactly one result is appended with score <= max_score == number of names; the other logs are unchanged |
| `AnnotationTool.DataAnnotationTool.PairwiseComparison` | data_annotation_tool.py:85-111 | appends exactly one record holding the items, the criterion and the drawn winner (one of "A", "B", "Tie"); the other logs are unchanged |
| `AnnotationTool.DataAnnotationTool.ConsistencyCheck` | data_annotation_tool.py:113-146 | the loop builds `ConsistencyOf`'s histogram; `None` iff fewer than 2 annotations; in a report the counts sum to the number of annotations, the key count is the unique count and the score lies in (0, 100]; nothing is modified |
| `AnnotationTool.DataAnnotationTool.GenerateReport` | data_annotation_tool.py:148-165 | the summary counts equal the three log lengths; the average quality is present iff there are quality results; it is their mean percentage, within [0, 100]; the report embeds the logs' values at the time of the call; nothing is modified |
| `AnnotationTool.DataAnnotationTool.ExportToCsv` | data_annotation_tool.py:174-185 | nothing is written iff there are no annotations; otherwise the header is the record keys and there is one row per annotation with its values in header order |

## Left out

- File output: the `open`/`json.dump` of the report, the CSV writer, the
  default file names, and write failures. `ExportToCsv` returns the table it
  would write and does not render cells as text.
- The `print` calls and the f-string formatting. This includes the `:.1f` and
  `:.2f` rounding and the average quality turned into a `"…%"` string.
- `datetime.now().isoformat()`: every timestamp is a string parameter.
- `random.choice`: the winner is an injected `Winner` argument. Uniformity is
  not modelled.
- Float rounding: percentages, averages and sums are exact `real`s.
- `demo_workflow` and `custom_annotation_example`: sample scripts that print to
  the console.
- Categories and criterion names are `string`s. In Python `annotate_image`
  accepts any value as a category. For hashable values, `1`, `True` and `1.0`
  would share one histogram key and one `set` entry. An unhashable category
  (a list, say) makes `set(categories)` in `consistency_check` raise TypeError.
  The model captures neither behaviour.
- Aliasing: the source logs the very dict it returns, and stores the caller's
  `data_entry` by reference, so later changes through those references show up
  in the logs. The model logs values.
- `GenerateReport`: the source's report holds the live lists
  `self.annotations`, `self.quality_scores` and `self.comparison_results`, not
  copies. Later appends therefore show up in an earlier report, and changes made
  through the report change the session. The model's report holds the logs' values
  at the time of the call.
- The key order of dicts is not modelled. The CSV header is the fixed key order
  in which `annotate_image` builds its records.
- `PyOther` values are never numbers here. CPython's `sum`, `==` and
  `in range(1, 6)` give numeric objects from outside the built-ins their own
  meaning. For example, `Decimal(3)`, `Fraction(3)`, `numpy.int64(3)` and
  `3+0j` are all `in range(1, 6)`, and `sum` can add them. In the model, such a
  confidence fails the consistency criterion and makes `sum` raise TypeError.
