/** The prediction side: `prever_probabilidades_carf` (aplicacoes/app.py),
    `prever_probabilidades` (aplicacoes/demo.py) and the two copies of
    `prever_probabilidades_2023_2024` (aplicacoes/app_2023_2024.py,
    aplicacoes/demo_2023_2024.py), the argmax their callers take, the summary
    the 2023/2024 versions derive from it, and the demonstration loops. */
module Inference {
  import opened Wrappers
  import opened Text
  import opened Frames
  import opened Encoding
  import Labels

  /** The dictionary pickled by the training scripts. */
  datatype Preprocessors = Preprocessors(
    leTributo: seq<string>,          // le_tributo.classes_
    leTurma: seq<string>,            // le_turma.classes_
    tfidf: Vectorizer,               // tfidf
    tributosFrequentes: seq<string>, // tributos_frequentes
    featureNames: seq<string>        // feature_names
  )

  /** A fitted random forest, seen from outside: its `classes_`, the number of
      features it was fitted on, and `predict_proba` on one row. */
  datatype Classifier = Classifier(classes: seq<string>, nFeatures: nat, predictProba: seq<real> -> seq<real>)

  // ---------------------------------------------------------------------------
  // Python dictionaries (insertion-ordered)

  datatype Dict = Dict(keys: seq<string>, values: seq<real>)

  predicate ValidDict(d: Dict) {
    |d.keys| == |d.values| && NoDuplicates(d.keys)
  }

  function Get(d: Dict, k: string): real
    requires ValidDict(d) && k in d.keys
  {
    d.values[IndexOf(d.keys, k)]
  }

  /** `d[k] = v`: overwrites the value of a present key in place, appends a new
      key at the end. */
  function Put(d: Dict, k: string, v: real): (r: Dict)
    requires ValidDict(d)
    ensures ValidDict(r)
  {
    if k in d.keys then Dict(d.keys, d.values[IndexOf(d.keys, k) := v])
    else
      var r := Dict(d.keys + [k], d.values + [v]);
      assert forall i, j :: 0 <= i < j < |r.keys| ==> r.keys[i] != r.keys[j] by {
        forall i, j | 0 <= i < j < |r.keys|
          ensures r.keys[i] != r.keys[j]
        {
          if j == |d.keys| {
            assert r.keys[i] == d.keys[i];
          }
        }
      }
      r
  }

  /** After `d[k] = v` the key is present with value `v`, every other key
      keeps its value, and no key other than `k` is added. */
  lemma PutSemantics(d: Dict, k: string, v: real)
    requires ValidDict(d)
    ensures var r := Put(d, k, v);
      && k in r.keys && Get(r, k) == v
      && (forall j :: 0 <= j < |d.keys| ==> d.keys[j] in r.keys && (d.keys[j] != k ==> Get(r, d.keys[j]) == Get(d, d.keys[j])))
      && (forall j :: 0 <= j < |r.keys| ==> r.keys[j] in d.keys || r.keys[j] == k)
  {
    var r := Put(d, k, v);
    forall j | 0 <= j < |d.keys|
      ensures r.keys[j] == d.keys[j] && IndexOf(r.keys, d.keys[j]) == j && IndexOf(d.keys, d.keys[j]) == j
    {
      IndexOfNoDuplicates(d.keys, j);
      IndexOfNoDuplicates(r.keys, j);
    }
    if k !in d.keys {
      IndexOfNoDuplicates(r.keys, |d.keys|);
    }
  }

  /** The dictionary the loop `for i, classe in enumerate(classes_):
      resultado[classe] = probabilidades[i]` builds, when no index is out of range. */
  function DictOf(classes: seq<string>, probs: seq<real>): (d: Dict)
    requires |classes| <= |probs|
    ensures ValidDict(d)
  {
    if classes == [] then Dict([], [])
    else Put(DictOf(classes[..|classes| - 1], probs), classes[|classes| - 1], probs[|classes| - 1])
  }

  /** `resultado` after the loop, or the `IndexError` it raises when there are
      fewer probabilities than classes. */
  function ClassProbabilities(classes: seq<string>, probs: seq<real>): Result<Dict, Failure> {
    if |probs| < |classes| then Err(ProbabilityIndexOutOfRange(|probs|)) else Ok(DictOf(classes, probs))
  }

  /** The keys of the result are the classes in order of first appearance. */
  lemma {:induction false} DictOfKeys(classes: seq<string>, probs: seq<real>)
    requires |classes| <= |probs|
    ensures DictOf(classes, probs).keys == Distinct(classes)
  {
    if classes != [] {
      DictOfKeys(classes[..|classes| - 1], probs);
    }
  }

  /** With distinct classes (as sklearn's `classes_` are), the result pairs
      `classes_[i]` with `probabilidades[i]`. */
  lemma {:induction false} DictOfDistinct(classes: seq<string>, probs: seq<real>)
    requires |classes| <= |probs| && NoDuplicates(classes)
    ensures DictOf(classes, probs) == Dict(classes, probs[..|classes|])
  {
    if classes != [] {
      var n := |classes| - 1;
      var init := classes[..n];
      assert NoDuplicates(init) by {
        forall i, j | 0 <= i < j < |init|
          ensures init[i] != init[j]
        {
          assert init[i] == classes[i] && init[j] == classes[j];
        }
      }
      DictOfDistinct(init, probs);
      var d := DictOf(init, probs);
      assert classes[n] !in d.keys by {
        forall i | 0 <= i < n
          ensures d.keys[i] != classes[n]
        {
          assert d.keys[i] == classes[i];
        }
      }
      PutFresh(d, classes[n], probs[n]);
      assert init + [classes[n]] == classes;
      assert probs[..n] + [probs[n]] == probs[..n + 1];
    }
  }

  lemma PutFresh(d: Dict, k: string, v: real)
    requires ValidDict(d) && k !in d.keys
    ensures Put(d, k, v) == Dict(d.keys + [k], d.values + [v])
  {
  }

  /** Whatever the classes, the last probability written for a class is the one kept. */
  lemma LastWriteWins(classes: seq<string>, probs: seq<real>)
    requires 0 < |classes| <= |probs|
    ensures Get(DictOf(classes, probs), classes[|classes| - 1]) == probs[|classes| - 1]
  {
    var n := |classes| - 1;
    PutSemantics(DictOf(classes[..n], probs), classes[n], probs[n]);
  }

  /** The loop filling the result dictionary. */
  method ZipToDict(classes: seq<string>, probs: seq<real>) returns (r: Result<Dict, Failure>)
    ensures r == ClassProbabilities(classes, probs)
    ensures r.Ok? ==> ValidDict(r.value)
  {
    var d := Dict([], []);
    for i := 0 to |classes|
      invariant i <= |probs|
      invariant d == DictOf(classes[..i], probs)
    {
      if i >= |probs| {
        return Err(ProbabilityIndexOutOfRange(i));
      }
      assert classes[..i + 1][..i] == classes[..i];
      d := Put(d, classes[i], probs[i]);
    }
    assert classes[..|classes|] == classes;
    return Ok(d);
  }

  // ---------------------------------------------------------------------------
  // Argmax

  /** `max(d, key=d.get)` looks at the values in insertion order and only
      replaces its candidate by a strictly larger value: the first maximal one. */
  function MaxIndex(vs: seq<real>): (i: nat)
    requires |vs| > 0
    ensures i < |vs|
    ensures forall j :: 0 <= j < |vs| ==> vs[j] <= vs[i]
    ensures forall j :: 0 <= j < i ==> vs[j] < vs[i]
  {
    if |vs| == 1 then 0
    else
      var m := MaxIndex(vs[..|vs| - 1]);
      if vs[|vs| - 1] > vs[m] then |vs| - 1 else m
  }

  /** `max(d.values())`. */
  function MaxValue(vs: seq<real>): (m: real)
    requires |vs| > 0
    ensures exists i :: 0 <= i < |vs| && vs[i] == m
    ensures forall j :: 0 <= j < |vs| ==> vs[j] <= m
  {
    if |vs| == 1 then vs[0]
    else
      var m := MaxValue(vs[..|vs| - 1]);
      if vs[|vs| - 1] > m then vs[|vs| - 1] else m
  }

  /** The predicted label (`predicao_*`). */
  function Predicted(d: Dict): string
    requires ValidDict(d) && |d.keys| > 0
  {
    d.keys[MaxIndex(d.values)]
  }

  /** The reported confidence (`confianca_*`). */
  function Confidence(d: Dict): real
    requires ValidDict(d) && |d.keys| > 0
  {
    MaxValue(d.values)
  }

  /** The predicted label is a key whose probability is the confidence, and no
      key has a higher probability. */
  lemma PredictedAttainsMaximum(d: Dict)
    requires ValidDict(d) && |d.keys| > 0
    ensures Predicted(d) in d.keys
    ensures Get(d, Predicted(d)) == Confidence(d)
    ensures forall k :: k in d.keys ==> Get(d, k) <= Confidence(d)
  {
    var i := MaxIndex(d.values);
    IndexOfNoDuplicates(d.keys, i);
    forall k | k in d.keys
      ensures Get(d, k) <= Confidence(d)
    {
    }
  }

  // ---------------------------------------------------------------------------
  // Prediction

  /** The encoding steps inside the `try` of every `prever_probabilidades*`,
      failing where `transform` raises. */
  function EncodeInput(texto: string, tributo: string, turma: string, pre: Preprocessors): Result<seq<real>, Failure> {
    var textoClean := CleanText(texto);
    var tributoCodificado := BucketTributo(tributo, pre.tributosFrequentes);
    var tributoEncoded :- Transform(pre.leTributo, tributoCodificado);
    var turmaSimplificada := PanelToken(turma);
    var turmaEncoded :- Transform(pre.leTurma, turmaSimplificada);
    var textoTfidf := pre.tfidf.transform(textoClean);
    Ok(AssembleRow(tributoEncoded, turmaEncoded, textoTfidf))
  }

  /** The input row is rejected exactly when the bucketed tax type or the panel
      token is not in its encoder (the tax type is looked up first); otherwise
      it is the two codes followed by the TF-IDF row of the truncated text. */
  lemma EncodeInputCases(texto: string, tributo: string, turma: string, pre: Preprocessors)
    ensures var t := BucketTributo(tributo, pre.tributosFrequentes);
      var p := PanelToken(turma);
      var r := EncodeInput(texto, tributo, turma, pre);
      && (t !in pre.leTributo ==> r == Err(UnseenLabel(t)))
      && (t in pre.leTributo && p !in pre.leTurma ==> r == Err(UnseenLabel(p)))
      && (t in pre.leTributo && p in pre.leTurma ==>
            && r.Ok?
            && |r.value| == 2 + |pre.tfidf.transform(CleanText(texto))|
            && pre.leTributo[r.value[0].Floor] == t
            && pre.leTurma[r.value[1].Floor] == p
            && r.value[2..] == pre.tfidf.transform(CleanText(texto)))
  {
  }

  /** With a well-formed vectoriser every accepted row has `2 + width` columns. */
  lemma EncodeInputWidth(texto: string, tributo: string, turma: string, pre: Preprocessors)
    requires WellFormed(pre.tfidf)
    ensures EncodeInput(texto, tributo, turma, pre).Ok? ==>
      |EncodeInput(texto, tributo, turma, pre).value| == 2 + pre.tfidf.width
  {
  }

  /** When no training row was infrequent, `OUTROS` is not a class of the tax
      type encoder, and every infrequent tax type entered in the application is
      rejected. */
  lemma MissingOtherRejectsInfrequent(texto: string, tributo: string, turma: string, pre: Preprocessors)
    requires Other !in pre.leTributo && tributo !in pre.tributosFrequentes
    ensures EncodeInput(texto, tributo, turma, pre) == Err(UnseenLabel(Other))
  {
  }

  /** `predict_proba(X_input)[0]`, which raises on a row of the wrong width. */
  function PredictProba(model: Classifier, row: seq<real>): Result<seq<real>, Failure> {
    if |row| != model.nFeatures then Err(FeatureCountMismatch(model.nFeatures, |row|))
    else Ok(model.predictProba(row))
  }

  /** The value of `prever_probabilidades_carf` / `prever_probabilidades`. */
  function CarfPrediction(texto: string, tributo: string, turma: string, model: Classifier, pre: Preprocessors): Result<Dict, Failure> {
    var row :- EncodeInput(texto, tributo, turma, pre);
    var probs :- PredictProba(model, row);
    ClassProbabilities(model.classes, probs)
  }

  /** The two dictionaries of the 2023/2024 applications. */
  datatype Pair = Pair(provimento: Dict, votacao: Dict)

  /** The value of `prever_probabilidades_2023_2024`: one row for both models,
      both probability vectors before either dictionary. */
  function BothPrediction(texto: string, tributo: string, turma: string, modelProvimento: Classifier, modelVotacao: Classifier, pre: Preprocessors): Result<Pair, Failure> {
    var row :- EncodeInput(texto, tributo, turma, pre);
    var probProvimento :- PredictProba(modelProvimento, row);
    var probVotacao :- PredictProba(modelVotacao, row);
    var resultadoProvimento :- ClassProbabilities(modelProvimento.classes, probProvimento);
    var resultadoVotacao :- ClassProbabilities(modelVotacao.classes, probVotacao);
    Ok(Pair(resultadoProvimento, resultadoVotacao))
  }

  /** When the models were fitted on rows of the vectoriser's width and return
      one probability per class, the only way a prediction can fail is an
      unseen tax type or panel. */
  lemma PredictionFailsOnlyOnUnseenLabels(texto: string, tributo: string, turma: string, model: Classifier, pre: Preprocessors)
    requires WellFormed(pre.tfidf) && model.nFeatures == 2 + pre.tfidf.width
    requires forall row :: |model.predictProba(row)| == |model.classes|
    ensures CarfPrediction(texto, tributo, turma, model, pre).Err? ==>
      CarfPrediction(texto, tributo, turma, model, pre).error.UnseenLabel?
  {
  }

  /** `prever_probabilidades_carf` (aplicacoes/app.py) and
      `prever_probabilidades` (aplicacoes/demo.py): the dictionary and no
      message, or no dictionary and the message. */
  method PredictCarf(texto: string, tributo: string, turma: string, model: Classifier, pre: Preprocessors)
    returns (resultado: Option<Dict>, erro: Option<Failure>)
    ensures resultado.Some? <==> erro.None?
    ensures resultado.Some? ==> ValidDict(resultado.value)
    ensures CarfPrediction(texto, tributo, turma, model, pre).Ok? ==>
      resultado == Some(CarfPrediction(texto, tributo, turma, model, pre).value)
    ensures CarfPrediction(texto, tributo, turma, model, pre).Err? ==>
      erro == Some(CarfPrediction(texto, tributo, turma, model, pre).error)
  {
    var row := EncodeInput(texto, tributo, turma, pre);
    if row.Err? {
      return None, Some(row.error);
    }
    var probabilidades := PredictProba(model, row.value);
    if probabilidades.Err? {
      return None, Some(probabilidades.error);
    }
    var d := ZipToDict(model.classes, probabilidades.value);
    if d.Err? {
      return None, Some(d.error);
    }
    return Some(d.value), None;
  }

  /** `prever_probabilidades_2023_2024` (both copies): two dictionaries and no
      message, or neither dictionary and the message; never a partial result. */
  method PredictBoth(texto: string, tributo: string, turma: string, modelProvimento: Classifier, modelVotacao: Classifier, pre: Preprocessors)
    returns (provimento: Option<Dict>, votacao: Option<Dict>, erro: Option<Failure>)
    ensures (provimento.Some? && votacao.Some? && erro.None?) || (provimento.None? && votacao.None? && erro.Some?)
    ensures provimento.Some? ==> ValidDict(provimento.value) && ValidDict(votacao.value)
    ensures var spec := BothPrediction(texto, tributo, turma, modelProvimento, modelVotacao, pre);
      && (spec.Ok? ==> provimento == Some(spec.value.provimento) && votacao == Some(spec.value.votacao))
      && (spec.Err? ==> erro == Some(spec.error))
  {
    var row := EncodeInput(texto, tributo, turma, pre);
    if row.Err? {
      return None, None, Some(row.error);
    }
    var probProvimento := PredictProba(modelProvimento, row.value);
    if probProvimento.Err? {
      return None, None, Some(probProvimento.error);
    }
    var probVotacao := PredictProba(modelVotacao, row.value);
    if probVotacao.Err? {
      return None, None, Some(probVotacao.error);
    }
    var resultadoProvimento := ZipToDict(modelProvimento.classes, probProvimento.value);
    if resultadoProvimento.Err? {
      return None, None, Some(resultadoProvimento.error);
    }
    var resultadoVotacao := ZipToDict(modelVotacao.classes, probVotacao.value);
    if resultadoVotacao.Err? {
      return None, None, Some(resultadoVotacao.error);
    }
    return Some(resultadoProvimento.value), Some(resultadoVotacao.value), None;
  }

  // ---------------------------------------------------------------------------
  // What the callers show

  /** What one press of the button (or one demonstration example) leads to:
      the warning about an empty text, the error message, the report, or the
      `ValueError` that `max` raises, outside any `try`, on an empty dictionary. */
  datatype Outcome<R> = Blank | Failed(error: Failure) | Shown(report: R) | Crashed

  /** The report of the single-model application and demonstration. */
  datatype SingleReport = SingleReport(predicao: string, confianca: real)

  /** The combined summary of the 2023/2024 versions: the voting label is only
      mentioned for a predicted total grant. */
  datatype Summary = ExpectedWithVote(provimento: string, votacao: string) | ExpectedWithoutVote(provimento: string)

  datatype PairReport = PairReport(provimento: string, confProvimento: real, votacao: string, confVotacao: real, summary: Summary)

  /** The label the training scripts give a total grant ("Provido Total"),
      which the applications compare the predicted disposition with. */
  const ProvidoTotalLabel: string := Labels.ProvimentoName(Labels.ProvidoTotal)

  /** The applications' test for a total grant recognises exactly the label
      the training scripts store for that category. */
  lemma SummaryTestsTotalGrant(p: string)
    ensures p == ProvidoTotalLabel <==> Labels.ParseProvimento(p) == Some(Labels.ProvidoTotal)
  {
    Labels.ProvimentoNameRoundTrip(Labels.ProvidoTotal);
  }

  function SingleReportOf(r: Result<Dict, Failure>): (o: Outcome<SingleReport>)
    ensures !o.Blank?
  {
    match r
    case Err(e) => Failed(e)
    case Ok(d) =>
      if |d.keys| == 0 || !ValidDict(d) then Crashed
      else Shown(SingleReport(Predicted(d), Confidence(d)))
  }

  function PairReportOf(r: Result<Pair, Failure>): (o: Outcome<PairReport>)
    ensures !o.Blank?
  {
    match r
    case Err(e) => Failed(e)
    case Ok(b) =>
      if |b.provimento.keys| == 0 || |b.votacao.keys| == 0 || !ValidDict(b.provimento) || !ValidDict(b.votacao) then Crashed
      else
        var p := Predicted(b.provimento);
        var v := Predicted(b.votacao);
        var summary := if p == ProvidoTotalLabel then ExpectedWithVote(p, v) else ExpectedWithoutVote(p);
        Shown(PairReport(p, Confidence(b.provimento), v, Confidence(b.votacao), summary))
  }

  /** What follows the call to the prediction function, shared by
      aplicacoes/app.py and aplicacoes/demo.py: the error message, or the
      label and probability that `max` picks. */
  method ReportCarf(texto: string, tributo: string, turma: string, model: Classifier, pre: Preprocessors)
    returns (o: Outcome<SingleReport>)
    ensures o == SingleReportOf(CarfPrediction(texto, tributo, turma, model, pre))
  {
    var probabilidades, erro := PredictCarf(texto, tributo, turma, model, pre);
    if erro.Some? {
      return Failed(erro.value);
    }
    var d := probabilidades.value;
    if |d.keys| == 0 {
      return Crashed;
    }
    return Shown(SingleReport(Predicted(d), Confidence(d)));
  }

  /** The `main` of aplicacoes/app.py after the button is pressed: a blank
      text only raises the warning. */
  method ShowCarf(texto: string, tributo: string, turma: string, model: Classifier, pre: Preprocessors)
    returns (screen: Outcome<SingleReport>)
    ensures screen == CarfScreen(texto, tributo, turma, model, pre)
  {
    if Strip(texto) == "" {
      return Blank;
    }
    screen := ReportCarf(texto, tributo, turma, model, pre);
  }

  /** What follows the call to `prever_probabilidades_2023_2024`, shared by
      aplicacoes/app_2023_2024.py and aplicacoes/demo_2023_2024.py. */
  method ReportPair(texto: string, tributo: string, turma: string, modelProvimento: Classifier, modelVotacao: Classifier, pre: Preprocessors)
    returns (o: Outcome<PairReport>)
    ensures o == PairReportOf(BothPrediction(texto, tributo, turma, modelProvimento, modelVotacao, pre))
  {
    var provimento, votacao, erro := PredictBoth(texto, tributo, turma, modelProvimento, modelVotacao, pre);
    if erro.Some? {
      return Failed(erro.value);
    }
    var dp := provimento.value;
    var dv := votacao.value;
    if |dp.keys| == 0 || |dv.keys| == 0 {
      return Crashed;
    }
    var p := Predicted(dp);
    var v := Predicted(dv);
    var summary := if p == ProvidoTotalLabel then ExpectedWithVote(p, v) else ExpectedWithoutVote(p);
    return Shown(PairReport(p, Confidence(dp), v, Confidence(dv), summary));
  }

  /** The `main` of aplicacoes/app_2023_2024.py after the button is pressed. */
  method Show2023(texto: string, tributo: string, turma: string, modelProvimento: Classifier, modelVotacao: Classifier, pre: Preprocessors)
    returns (screen: Outcome<PairReport>)
    ensures screen == PairScreen(texto, tributo, turma, modelProvimento, modelVotacao, pre)
  {
    if Strip(texto) == "" {
      return Blank;
    }
    screen := ReportPair(texto, tributo, turma, modelProvimento, modelVotacao, pre);
  }

  /** What the single-model application shows after the button is pressed. */
  function CarfScreen(texto: string, tributo: string, turma: string, model: Classifier, pre: Preprocessors): Outcome<SingleReport> {
    if Strip(texto) == "" then Blank else SingleReportOf(CarfPrediction(texto, tributo, turma, model, pre))
  }

  /** What the 2023/2024 application shows after the button is pressed. */
  function PairScreen(texto: string, tributo: string, turma: string, modelProvimento: Classifier, modelVotacao: Classifier, pre: Preprocessors): Outcome<PairReport> {
    if Strip(texto) == "" then Blank else PairReportOf(BothPrediction(texto, tributo, turma, modelProvimento, modelVotacao, pre))
  }

  /** Both applications show the empty-text warning exactly when the text is
      empty or white space only, and in that case nothing is predicted. */
  lemma BlankScreens(texto: string, tributo: string, turma: string, model: Classifier, modelProvimento: Classifier, modelVotacao: Classifier, pre: Preprocessors)
    ensures CarfScreen(texto, tributo, turma, model, pre).Blank? <==> AllSpace(texto)
    ensures PairScreen(texto, tributo, turma, modelProvimento, modelVotacao, pre).Blank? <==> AllSpace(texto)
  {
    StripEmptyIffBlank(texto);
  }

  /** The summary mentions the voting label exactly when the predicted
      disposition is a total grant, and both reported labels attain the
      maximal probability of their dictionaries. */
  lemma PairReportFacts(r: Result<Pair, Failure>)
    requires PairReportOf(r).Shown?
    ensures var rep := PairReportOf(r).report;
      && (rep.summary.ExpectedWithVote? <==> rep.provimento == ProvidoTotalLabel)
      && rep.summary.provimento == rep.provimento
      && (rep.summary.ExpectedWithVote? ==> rep.summary.votacao == rep.votacao)
      && rep.provimento in r.value.provimento.keys && Get(r.value.provimento, rep.provimento) == rep.confProvimento
      && (forall k :: k in r.value.provimento.keys ==> Get(r.value.provimento, k) <= rep.confProvimento)
      && rep.votacao in r.value.votacao.keys && Get(r.value.votacao, rep.votacao) == rep.confVotacao
      && (forall k :: k in r.value.votacao.keys ==> Get(r.value.votacao, k) <= rep.confVotacao)
  {
    PredictedAttainsMaximum(r.value.provimento);
    PredictedAttainsMaximum(r.value.votacao);
  }

  /** The single-model report names a key of maximal probability, and the
      confidence is that probability. */
  lemma SingleReportFacts(r: Result<Dict, Failure>)
    requires SingleReportOf(r).Shown?
    ensures var rep := SingleReportOf(r).report;
      && rep.predicao in r.value.keys && Get(r.value, rep.predicao) == rep.confianca
      && (forall k :: k in r.value.keys ==> Get(r.value, k) <= rep.confianca)
  {
    PredictedAttainsMaximum(r.value);
  }

  // ---------------------------------------------------------------------------
  // The demonstration loops

  /** One entry of `exemplos`. */
  datatype Example = Example(texto: string, tributo: string, turma: string)

  /** The outcomes of running the examples in order, up to and including the
      first one that crashes the script. */
  function DemoRun<R>(outcomes: seq<Outcome<R>>): seq<Outcome<R>> {
    if outcomes == [] then []
    else if outcomes[0].Crashed? then [outcomes[0]]
    else [outcomes[0]] + DemoRun(outcomes[1..])
  }

  /** The run is a prefix of the outcomes; it stops short only right after a
      crash, and no other entry is a crash. */
  lemma {:induction false} DemoRunShape<R>(outcomes: seq<Outcome<R>>)
    ensures var r := DemoRun(outcomes);
      && |r| <= |outcomes|
      && (forall k :: 0 <= k < |r| ==> r[k] == outcomes[k])
      && (forall k :: 0 <= k < |r| - 1 ==> !r[k].Crashed?)
      && (|r| < |outcomes| ==> |r| > 0 && r[|r| - 1].Crashed?)
  {
    if outcomes != [] && !outcomes[0].Crashed? {
      DemoRunShape(outcomes[1..]);
    }
  }

  /** One step of the loop over the examples: appending the outcome at `i`
      either completes the run (a crash) or leaves the rest of it to do. */
  lemma DemoRunStep<R>(outcomes: seq<Outcome<R>>, i: nat, out: seq<Outcome<R>>)
    requires i < |outcomes| && out + DemoRun(outcomes[i..]) == DemoRun(outcomes)
    ensures outcomes[i].Crashed? ==> out + [outcomes[i]] == DemoRun(outcomes)
    ensures !outcomes[i].Crashed? ==> (out + [outcomes[i]]) + DemoRun(outcomes[i + 1..]) == DemoRun(outcomes)
  {
    assert outcomes[i..][0] == outcomes[i];
    assert outcomes[i..][1..] == outcomes[i + 1..];
  }

  /** The outcome of one example in aplicacoes/demo.py. */
  function CarfOutcome(e: Example, model: Classifier, pre: Preprocessors): Outcome<SingleReport> {
    SingleReportOf(CarfPrediction(e.texto, e.tributo, e.turma, model, pre))
  }

  function CarfOutcomes(exemplos: seq<Example>, model: Classifier, pre: Preprocessors): (r: seq<Outcome<SingleReport>>)
    ensures |r| == |exemplos|
    ensures forall i :: 0 <= i < |exemplos| ==> r[i] == CarfOutcome(exemplos[i], model, pre)
  {
    seq(|exemplos|, i requires 0 <= i < |exemplos| => CarfOutcome(exemplos[i], model, pre))
  }

  /** The outcome of one example in aplicacoes/demo_2023_2024.py. */
  function PairOutcome(e: Example, modelProvimento: Classifier, modelVotacao: Classifier, pre: Preprocessors): Outcome<PairReport> {
    PairReportOf(BothPrediction(e.texto, e.tributo, e.turma, modelProvimento, modelVotacao, pre))
  }

  function PairOutcomes(exemplos: seq<Example>, modelProvimento: Classifier, modelVotacao: Classifier, pre: Preprocessors): (r: seq<Outcome<PairReport>>)
    ensures |r| == |exemplos|
    ensures forall i :: 0 <= i < |exemplos| ==> r[i] == PairOutcome(exemplos[i], modelProvimento, modelVotacao, pre)
  {
    seq(|exemplos|, i requires 0 <= i < |exemplos| => PairOutcome(exemplos[i], modelProvimento, modelVotacao, pre))
  }

  /** The `main` loop of aplicacoes/demo.py: every example in order, until
      one crashes the script. */
  method RunDemo(exemplos: seq<Example>, model: Classifier, pre: Preprocessors) returns (out: seq<Outcome<SingleReport>>)
    ensures out == DemoRun(CarfOutcomes(exemplos, model, pre))
  {
    ghost var all := CarfOutcomes(exemplos, model, pre);
    assert all[0..] == all;
    out := [];
    for i := 0 to |exemplos|
      invariant out + DemoRun(all[i..]) == DemoRun(all)
    {
      var e := exemplos[i];
      var o := ReportCarf(e.texto, e.tributo, e.turma, model, pre);
      assert o == all[i];
      DemoRunStep(all, i, out);
      out := out + [o];
      if o.Crashed? {
        return;
      }
    }
  }

  /** The `main` loop of aplicacoes/demo_2023_2024.py. */
  method RunDemo2023(exemplos: seq<Example>, modelProvimento: Classifier, modelVotacao: Classifier, pre: Preprocessors)
    returns (out: seq<Outcome<PairReport>>)
    ensures out == DemoRun(PairOutcomes(exemplos, modelProvimento, modelVotacao, pre))
  {
    ghost var all := PairOutcomes(exemplos, modelProvimento, modelVotacao, pre);
    assert all[0..] == all;
    out := [];
    for i := 0 to |exemplos|
      invariant out + DemoRun(all[i..]) == DemoRun(all)
    {
      var e := exemplos[i];
      var o := ReportPair(e.texto, e.tributo, e.turma, modelProvimento, modelVotacao, pre);
      assert o == all[i];
      DemoRunStep(all, i, out);
      out := out + [o];
      if o.Crashed? {
        return;
      }
    }
  }

  /** The demonstrations never show the empty-text warning: they predict every
      example whatever its text. */
  lemma DemoNeverBlank(exemplos: seq<Example>, model: Classifier, modelProvimento: Classifier, modelVotacao: Classifier, pre: Preprocessors)
    ensures forall k :: 0 <= k < |DemoRun(CarfOutcomes(exemplos, model, pre))| ==>
      !DemoRun(CarfOutcomes(exemplos, model, pre))[k].Blank?
    ensures forall k :: 0 <= k < |DemoRun(PairOutcomes(exemplos, modelProvimento, modelVotacao, pre))| ==>
      !DemoRun(PairOutcomes(exemplos, modelProvimento, modelVotacao, pre))[k].Blank?
  {
    DemoRunShape(CarfOutcomes(exemplos, model, pre));
    DemoRunShape(PairOutcomes(exemplos, modelProvimento, modelVotacao, pre));
  }
}
