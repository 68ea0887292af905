# CARF decision prediction: labelling, leakage filter, encoding and data selection

This project models the deterministic part of HackathonCarf, a set of Python
scripts and Streamlit applications. They predict how the Brazilian
administrative tax court (CARF) rules on an appeal, from the summary of the
case (`texto_ementa`), its tax type (`tributo`) and the panel (`turma`). The
model covers four things:

- **Outcome labelling.** `categorizar_provimento` sorts a ruling into *Provido
  Total*, *Provido Parcial*, *Negado*, *Nao Conhecido* or *Outros*.
  `criar_target_votacao` gives the voting outcome (*Unânime*, *Maioria*,
  *Qualidade* and, in the 2023/2024 script only, *Empate*) of a ruling that
  grants the appeal. Both live in module `Labels`.
- **Leakage removal.** The scripts drop every case whose summary contains a
  word that betrays the decision. The verification script rechecks the
  cleaned file with the first 27 words of that list. This is module `Leakage`.
- **Inference.** The `prever_probabilidades*` functions of the four
  applications do the following:
  - truncate the text to 1000 characters;
  - bucket the tax type into the frequent set or `OUTROS`;
  - cut the panel at its first `ª`;
  - encode both labels;
  - put the two codes in front of the TF-IDF row;
  - zip the classifier's `classes_` with its probabilities into a dictionary.

  The callers then pick the label of maximal probability and build the
  combined summary. This is module `Inference`, with the encoders in
  `Encoding`.
- **Training-data selection** (module `Training`):
  - drop incomplete rows;
  - keep the three modelled categories;
  - compute the frequent tax types (at least 30 or 50 rows);
  - take the panel token with the regular expression `\d+ª`;
  - stack the feature rows;
  - align the voting subset;
  - build `feature_names`.

  The provimento analysis script's selections are in `Analysis`.

The remaining modules hold shared helpers:

- `Wrappers`: `Option` and `Result`.
- `Text`: substring search, `lower`, `strip` and numerals.
- `Frames`: pandas-like column operations on sequences: `apply`, boolean masks,
  `dropna` and `value_counts`.
- `Records`: a case row whose cells may be missing.

A missing cell (`pd.isna`) is `None`. A data frame is a sequence of records,
and a column is a sequence aligned with it.

scikit-learn is modelled only from the outside:

- A fitted `LabelEncoder` is its table of classes, and a label it has not
  seen is an error.
- A fitted `TfidfVectorizer` is a function from texts to rows of a fixed width.
- A classifier is its `classes_`, its number of input features and an abstract
  `predict_proba`.

## Divergences between training and inference

Three places where the applications do not reproduce what the models were
trained on are stated as lemmas rather than hidden:

- **Panel normalisation.**
  - The applications keep everything up to the first `ª` (`split('ª')[0] + 'ª'`).
  - The training scripts take the first match of `\d+ª`.
  - `Encoding.PanelTokensAgree` shows that the two agree when the panel starts with digits followed by `ª`. `Encoding.OfferedPanelsAgree` shows that every panel the applications offer has that form.
  - `Encoding.PanelTokensDisagree` and `Encoding.OrdinalWithoutNumberDisagrees` exhibit panels where the two differ.
  - `Training.TrainServeConsistency` proves that a training row whose panel starts with its number is rebuilt exactly by the applications.
- **`OUTROS` may be missing.**
  - `OUTROS` is a class of the tax-type encoder only when some training row was infrequent (`Training.OtherInClassesIff`, `Training.AllFrequentMeansNoOther`).
  - Without that class, every infrequent tax type entered in an application is rejected (`Inference.MissingOtherRejectsInfrequent`).
- **Voting labels.**
  - Only the 2023/2024 script labels *Empate* (`Labels.TieLabelledCrossYear`).
  - The other scripts send the tie cell to no target (`Labels.TieOnlyCrossYear`).

## Model

| member | source | states |
|---|---|---|
| Labels.Categorize | notebooks/train_model_2023_2024.py:21-37 | a missing ruling and only a missing ruling has no category |
| Labels.CategorizeTable | notebooks/train_model_2023_2024.py:27-37 | each of the five categories holds exactly under its own condition on the lower-cased ruling; "provido" with "parcial" is a partial grant even with "negado" |
| Labels.CategorizeCaseInsensitive | notebooks/train_model_expandido.py:22-38 | the category of a ruling equals the category of its lower-cased text |
| Labels.CategorizeDependsOnLower | scripts/analise_provimento.py:23-38 | two rulings with the same lower-cased text get the same category |
| Labels.ParseProvimento | notebooks/train_model_2023_2024.py:29-37 | a parsed category label prints back to the parsed string |
| Labels.ProvimentoNameRoundTrip | notebooks/train_model_2023_2024.py:29-37 | every category label parses back to its category |
| Labels.ParseVotacao | notebooks/train_model_2023_2024.py:49-56 | a parsed voting label prints back to the parsed string |
| Labels.VotacaoNameRoundTrip | notebooks/train_model_2023_2024.py:49-56 | every voting label parses back to its outcome |
| Labels.VotacaoLabelExact | notebooks/train_model_2023_2024.py:49-58 | the stripped cell maps to an outcome exactly when it is that outcome's cell, the tie only where the script admits it |
| Labels.VotingTargetExact | notebooks/train_model_2023_2024.py:39-58 | a target exists iff both cells are present, the ruling has "provido" and no "negado", and the stripped cell is the outcome's cell; ties only in the 2023/2024 script |
| Labels.VotingTargetNone | notebooks/train_model.py:33-45 | a missing cell, a ruling without "provido" or with "negado" yields no target |
| Labels.VotingTargetIgnoresPadding | notebooks/train_model.py:36-44 | the target depends on the voting cell only through its stripped form |
| Labels.VotingImpliesGranted | notebooks/train_model_2023_2024.py:28-31 | whenever a voting target exists the ruling is categorised as a total or partial grant |
| Labels.TieOnlyCrossYear | notebooks/train_model_expandido.py:49-57 | outside the 2023/2024 script no target is a tie, and the tie cell yields no target |
| Labels.TieCellStrips | notebooks/train_model_2023_2024.py:44-55 | the tie cell is unchanged by strip |
| Labels.TieLabelledCrossYear | notebooks/train_model_2023_2024.py:55-56 | in the 2023/2024 script the tie cell of a granted ruling is labelled Empate |
| Leakage.VerificationIsPrefix | scripts/verificar_dataset_limpo.py:18-24 | the verification list has 27 words and is the first 27 of the 33 detection words |
| Leakage.DetectLeakage | scripts/detectar_vazamento.py:28-40 | the early-return loop flags a text iff some listed word occurs in its lower-cased form; a missing text is not flagged |
| Leakage.HasLeakPrefix | scripts/verificar_dataset_limpo.py:26-33 | a text flagged by a prefix of the list is flagged by the whole list |
| Leakage.RemoveLeakage | scripts/detectar_vazamento.py:44-79 | the flag column is the leak predicate per row, the removed count is the number of flagged rows, the clean frame is the unflagged rows in order, and kept plus removed is the total |
| Leakage.CleanedMembers | scripts/detectar_vazamento_2023.py:79-80 | a row is in the clean frame iff it is in the input and is not flagged |
| Leakage.CleanedIdempotent | scripts/detectar_vazamento.py:78-79 | filtering the clean frame again changes nothing and flags nothing |
| Leakage.ResidualLeakage | scripts/verificar_dataset_limpo.py:36-37 | the residual flag column is the verification predicate per row, and the count is the number of flagged rows |
| Leakage.ResidualImpliesLeak | scripts/verificar_dataset_limpo.py:26-33 | a text flagged by the verification list is flagged by the detection list |
| Leakage.CleanedHasNoResidual | scripts/verificar_dataset_limpo.py:36-37 | no row of the clean frame is flagged by the verification, so the residual count is zero |
| Leakage.TrainingCasesMembers | scripts/detectar_vazamento_2023.py:104-112 | the grant and denial cases are the rows whose ruling contains "Provido" or "Negado" (case-sensitive, missing excluded); the voting cases are the grant cases with a vote |
| Leakage.LowerCaseRulingNotAProvidoCase | scripts/verificar_dataset_limpo.py:59-60 | a lower-case "provido" ruling is not a grant case: the match is case-sensitive |
| Records.DropIncompleteSelects | notebooks/train_model.py:29 | the rows surviving `dropna` are exactly the input rows with all four cells present |
| Text.StripEmptyIffBlank | aplicacoes/app.py:193 | a text strips to "" iff it is empty or white space only |
| Text.LowerIdempotent | notebooks/train_model_2023_2024.py:26 | lower-casing twice is lower-casing once |
| Frames.Apply | scripts/analise_provimento.py:40 | the column built row by row has one entry per row, each the function of its row |
| Encoding.CleanText | aplicacoes/app_2023_2024.py:52 | the truncated text is the prefix of length min(len, 1000) of the input; the empty text gives "" |
| Encoding.CleanTextIdempotent | notebooks/train_model_2023_2024.py:117-118 | truncating a truncated text changes nothing |
| Encoding.BucketTributo | aplicacoes/app.py:89 | the bucket is a frequent value or `OUTROS`, and equals the input iff the input is frequent or `OUTROS` |
| Encoding.BucketTributoIdempotent | aplicacoes/demo.py:42 | a bucketed tax type is its own bucket |
| Encoding.SplitFirst | aplicacoes/app_2023_2024.py:59 | the first piece of a split is the longest prefix without the separator, shorter than the input iff the separator occurs |
| Encoding.PanelTokenShape | aplicacoes/app.py:93 | without `ª` the panel token is `OUTROS`; otherwise it is the prefix through the first `ª` |
| Encoding.RegexTokenLeftmost | notebooks/train_model.py:68 | the training panel token is `OUTROS` exactly when `\d+ª` matches nowhere in the panel, and otherwise the match at the leftmost matching position |
| Encoding.PanelTokensAgree | aplicacoes/app_2023_2024.py:59 | for a panel starting with digits then `ª` the application token equals the training regex token |
| Encoding.PanelTokensDisagree | notebooks/train_model_2023_2024.py:113 | the panel "TURMA 3ª" has application token "TURMA 3ª" and training token "3ª" |
| Encoding.OrdinalWithoutNumberDisagrees | notebooks/train_model_expandido.py:104 | a panel whose `ª` follows no digit gets `OUTROS` in training but not in the applications |
| Encoding.OfferedPanelsAgree | aplicacoes/app_2023_2024.py:178-187 | every panel the applications offer starts with its number, so both tokens coincide on them |
| Encoding.FitClasses | notebooks/train_model_2023_2024.py:110 | the classes are duplicate-free and are exactly the labels seen |
| Encoding.Transform | aplicacoes/app_2023_2024.py:56-60 | encoding succeeds iff the label is a class, giving its position; otherwise the unseen-label error |
| Encoding.TransformInverse | aplicacoes/demo_2023_2024.py:47-51 | in a duplicate-free table, encoding the class at a position gives that position |
| Encoding.AssembleRow | aplicacoes/app.py:100-101 | the row is the two codes followed by the TF-IDF row, of width 2 + its length |
| Encoding.FeatureNamesShape | notebooks/train_model_2023_2024.py:226 | `feature_names` has 2 + width entries, the two category columns first, then `tfidf_i`, all distinct |
| Encoding.FeatureNamesMatchRows | notebooks/train_model_expandido.py:186 | an assembled row of a well-formed vectoriser has as many columns as `feature_names` |
| Inference.PutSemantics | aplicacoes/app.py:107-109 | after `d[k] = v`, `k` maps to `v`, other keys keep their values and no other key appears |
| Inference.DictOfKeys | aplicacoes/demo.py:60-62 | the keys of the filled dictionary are the classes in order of first appearance |
| Inference.DictOfDistinct | aplicacoes/app_2023_2024.py:74-80 | with distinct classes the dictionary pairs `classes_[i]` with `probabilidades[i]` |
| Inference.LastWriteWins | aplicacoes/app.py:107-109 | the last probability written for a class is the one kept |
| Inference.ZipToDict | aplicacoes/app.py:107-109 | the loop yields the zipped dictionary, or the index error when there are fewer probabilities than classes |
| Inference.MaxIndex | aplicacoes/app.py:252 | `max` with a key picks the first position of maximal value |
| Inference.MaxValue | aplicacoes/app.py:253 | `max` of the values is a value that bounds all others |
| Inference.PredictedAttainsMaximum | aplicacoes/app_2023_2024.py:245-246 | the predicted label is a key whose probability is the confidence, and no key has a higher one |
| Inference.EncodeInputCases | aplicacoes/app_2023_2024.py:52-66 | the input is rejected exactly when the bucketed tax type or the panel token is unseen (tax type first); otherwise it decodes to both tokens followed by the TF-IDF row of the truncated text |
| Inference.EncodeInputWidth | aplicacoes/demo_2023_2024.py:57-58 | with a well-formed vectoriser an accepted row has 2 + width columns |
| Inference.MissingOtherRejectsInfrequent | aplicacoes/app_2023_2024.py:55-56 | without `OUTROS` among the classes, an infrequent tax type is rejected as unseen |
| Inference.PredictionFailsOnlyOnUnseenLabels | aplicacoes/app.py:86-114 | with models of the vectoriser's width and one probability per class, a prediction can only fail on an unseen label |
| Inference.PredictCarf | aplicacoes/app.py:74-114 | exactly one of dictionary and message is returned, the dictionary is valid, and they are the prediction's value or error |
| Inference.PredictBoth | aplicacoes/app_2023_2024.py:42-85 | both dictionaries and no message, or neither and the message; never a partial result; they are the prediction's values or error |
| Inference.ReportCarf | aplicacoes/demo.py:152-164 | after prediction the error, the crash on an empty dictionary, or the label and confidence `max` picks are shown |
| Inference.ReportPair | aplicacoes/demo_2023_2024.py:164-194 | the shared reporting of both 2023/2024 callers yields the report of the prediction |
| Inference.ShowCarf | aplicacoes/app.py:192-204 | the application shows the empty-text warning or the report of the prediction |
| Inference.Show2023 | aplicacoes/app_2023_2024.py:203-216 | the 2023/2024 application shows the empty-text warning or the combined report |
| Inference.SingleReportOf | aplicacoes/app.py:252-253 | a report after a prediction is never the empty-text warning |
| Inference.PairReportOf | aplicacoes/app_2023_2024.py:296-310 | a report after a prediction is never the empty-text warning |
| Inference.BlankScreens | aplicacoes/app_2023_2024.py:204 | both applications show the warning, and predict nothing, exactly when the text is empty or white space |
| Inference.SummaryTestsTotalGrant | aplicacoes/app_2023_2024.py:296 | the summary's test for "Provido Total" accepts exactly the label the training scripts store for a total grant |
| Inference.PairReportFacts | aplicacoes/app_2023_2024.py:288-310 | the summary names the voting label iff the predicted disposition is "Provido Total", and both labels attain their dictionary's maximum |
| Inference.SingleReportFacts | aplicacoes/demo.py:163-164 | the printed label has the maximal probability, which is the confidence |
| Inference.DemoRunShape | aplicacoes/demo.py:137-165 | the run is a prefix of the per-example outcomes that stops only after a crash |
| Inference.DemoRunStep | aplicacoes/demo_2023_2024.py:148-194 | one turn of the example loop either completes the run at a crash or leaves the rest of it |
| Inference.RunDemo | aplicacoes/demo.py:137-165 | the loop over the examples produces the run of their outcomes up to the first crash |
| Inference.RunDemo2023 | aplicacoes/demo_2023_2024.py:148-194 | the same for the two-model demonstration |
| Inference.DemoNeverBlank | aplicacoes/demo_2023_2024.py:148-167 | the demonstrations never show the empty-text warning |
| Training.FrequentValuesMembers | notebooks/train_model_2023_2024.py:104-105 | a value is frequent iff it occurs in the column at least the threshold number of times |
| Training.TrainingBucketMatchesInference | notebooks/train_model_2023_2024.py:107-109 | the training bucket of a present tax type equals the applications' bucket |
| Training.EncodedColumn | notebooks/train_model_2023_2024.py:110-114 | each code is a position of its value in the encoder's classes |
| Training.EncodeFeatures | notebooks/train_model_2023_2024.py:104-135 | the step-by-step column assignments build the feature frame of the rows |
| Training.CodifiedTributos | notebooks/train_model_2023_2024.py:104-109 | every codified tax type is frequent or `OUTROS`; a frequent value keeps itself and every other row gets `OUTROS` |
| Training.OtherInClassesIff | notebooks/train_model_2023_2024.py:107-110 | `OUTROS` is a class of the tax-type encoder iff some row was codified `OUTROS` |
| Training.AllFrequentMeansNoOther | notebooks/train_model_expandido.py:95-101 | when every row's tax type is frequent, the encoder has no `OUTROS` class |
| Training.EncodedColumns | notebooks/train_model.py:63-69 | codes are positions of the codified values in duplicate-free tables, and the panel column is the regex token |
| Training.TruncatedTexts | notebooks/train_model.py:72-73 | each cleaned text has at most 1000 characters and is a prefix of the summary |
| Training.StackedRows | notebooks/train_model_expandido.py:123-126 | each stacked row has the two codes then the TF-IDF row, with as many columns as `feature_names` |
| Training.TrainServeConsistency | notebooks/train_model_2023_2024.py:229-236 | for a training row whose panel starts with its number, the applications with the pickled preprocessors rebuild exactly the training row |
| Training.PrepareDisposition | notebooks/train_model_2023_2024.py:72-157 | the column assignments and selections build the disposition set of the table |
| Training.DispositionRows | notebooks/train_model_expandido.py:67-74 | the disposition rows are the complete rows of the three modelled categories in order, with their categories as labels |
| Training.DispositionVoting | notebooks/train_model_2023_2024.py:94-157 | `X_votacao` and `y_votacao` have equal length, are the halves of the selected (row, target) pairs, each from a granted row; Empate only in the 2023/2024 script |
| Training.PrepareSingle | notebooks/train_model.py:29-90 | the single-model steps build the voting set of the table |
| Training.SingleVoting | notebooks/train_model.py:47-52 | the single model's rows and labels are aligned, every row is complete, and no label is a tie |
| Analysis.AnalyseProvimento | scripts/analise_provimento.py:40-62 | the category column is per row, `df_clean` keeps the rows with ruling and vote, and `df_provimento` is their total and partial grants, in order |
| Analysis.ProvimentoMembers | scripts/analise_provimento.py:53-62 | `df_provimento` holds exactly the rows with ruling and vote that are total or partial grants, all of them in `df_clean` |
| Analysis.VotingRowsAreProvimento | scripts/analise_provimento.py:62 | every row with a voting target in any training script is one of the grants analysed |

## Left out

- Encoding.FitClasses: the classes are in first-appearance order. scikit-learn sorts `classes_`, but no stated property depends on the order.
- TF-IDF fitting is not modelled: n-grams, IDF weighting and `min_df`/`max_df`/`max_features`. The fitted vectoriser is a parameter, and `fit_transform` on the training texts is modelled as `transform`.
- Random forests are abstract: no fitting, and `predict_proba` is an unspecified function of the row. `train_test_split` and `classification_report` are not modelled. The 2024 test-set evaluation of notebooks/train_model_2023_2024.py (lines 174-218) is not modelled. It is not only a report: it encodes the 2024 tax types and panels with the encoders fitted on 2023 (lines 182 and 185), so an unseen 2024 label raises before the models and preprocessors are saved (lines 221-236). This is the failure `Inference.MissingOtherRejectsInfrequent` and `Encoding.Transform` model at serving time.
- Probabilities are abstract reals. Float rounding, the fact that they sum to one, percentage formatting and the combined confidence average are not modelled.
- Pickle, joblib and CSV loading and saving are not modelled. The model assumes they hand back what was stored, and a missing file is not modelled.
- Streamlit widgets, session state, CSS and plotly charts are presentation only. The launchers and smoke tests (run.py, scripts/run_carf_app.py, aplicacoes/executar_plataforma.py, teste_final.py, scripts/teste_rapido.py, aplicacoes/teste_streamlit.py) and scripts/analise_2023.py are not part of this model.
- Text.Lower: only ASCII capitals and the Latin-1 capitals U+00C0 to U+00DE are folded. Other Unicode case mappings of Python's `str.lower` are left out.
- Text.IsDigit: only the ASCII digits 0 to 9 are digits. Python's `\d` on `str` patterns matches every Unicode decimal digit (category Nd), so `Encoding.MatchesAt` and `Encoding.RegexTokenLeftmost` differ from the training scripts on panels written with other decimal digits.
- Text.Strip: the white-space set is the set `str.isspace` accepts among the characters written out. No Unicode database is consulted.
- `value_counts` orderings, printed counts and cross tables are output only and are not modelled. So are the demonstration texts themselves.
- Training.FrequentValues: the frequent tax types are in first-appearance order, not `value_counts` order. Only membership is used.
- Inference.ReportCarf, Inference.ReportPair, Inference.ShowCarf, Inference.Show2023: `if erro` treats an exception with an empty message as no error. The model keeps the failure as a value and reports it. None of the modelled failures has an empty message (the unseen-label `ValueError`, the feature-count `ValueError` and the `IndexError` all carry text), so no modelled input shows the difference.
- Data-frame columns assigned in place are modelled as sequences aligned with the rows. pandas' index and its copy semantics (the chained-assignment warning) are not modelled.
