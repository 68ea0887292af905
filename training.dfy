/** The data selection and feature construction of the three training
    scripts under notebooks/: the cleaning `dropna`, the disposition subset,
    the voting targets and the voting subset, the frequent tax types, the
    encoded columns, the stacked feature rows, `feature_names` and the
    pickled preprocessing bundle. The classifiers themselves are opaque. */
module Training {
  import opened Wrappers
  import opened Text
  import opened Frames
  import opened Records
  import opened Labels
  import opened Encoding
  import opened Inference

  /** How often a tax type must occur to keep its own code. */
  function MinSupport(script: Script): nat {
    match script
    case CrossYear => 30
    case Expanded => 50
    case Single => 50
  }

  // ---------------------------------------------------------------------------
  // Frequent tax types

  /** `tributo_counts[tributo_counts >= thr].index.tolist()`: the present
      values occurring at least `thr` times (listed in order of first
      occurrence; `value_counts` lists them by decreasing count). */
  function FrequentValues(col: seq<Option<string>>, thr: nat): seq<string> {
    var present := DropNone(col);
    Filter(Distinct(present), v => Count(present, v) >= thr)
  }

  /** A value is frequent exactly when it is present in the column at least
      `thr` times. */
  lemma FrequentValuesMembers(col: seq<Option<string>>, thr: nat)
    ensures forall v :: v in FrequentValues(col, thr) <==> Some(v) in col && Count(DropNone(col), v) >= thr
  {
    var present := DropNone(col);
    FilterMembers(Distinct(present), v => Count(present, v) >= thr);
    DropNoneMembers(col);
    assert forall v :: v in Distinct(present) <==> v in present by {
      forall v | v in present
        ensures v in Distinct(present)
      {
        var i :| 0 <= i < |present| && present[i] == v;
      }
    }
  }

  /** `x if x in tributos_frequentes else 'OUTROS'` on the training column,
      where a missing value is never in the list. */
  function TrainingBucket(tributo: Option<string>, frequentes: seq<string>): string {
    if tributo.Some? && tributo.value in frequentes then tributo.value else Other
  }

  /** The training bucket of a present value is the applications' bucket. */
  lemma TrainingBucketMatchesInference(tributo: string, frequentes: seq<string>)
    ensures TrainingBucket(Some(tributo), frequentes) == BucketTributo(tributo, frequentes)
  {
  }

  // ---------------------------------------------------------------------------
  // Columns of a record

  function TributoCell(r: Record): Option<string> {
    r.tributo
  }

  function TributoBucketOf(r: Record, frequentes: seq<string>): string {
    TrainingBucket(r.tributo, frequentes)
  }

  /** `texto_ementa.fillna('').astype(str).str[:1000]`. */
  function TextOf(r: Record): string {
    CleanText(if r.ementa.Some? then r.ementa.value else "")
  }

  function PanelOf(r: Record): string {
    RegexToken(r.turma)
  }

  // ---------------------------------------------------------------------------
  // Feature construction

  /** The columns added to the training frame and the stacked matrix. */
  datatype FeatureFrame = FeatureFrame(
    frequentes: seq<string>,          // tributos_frequentes
    tributoCodificado: seq<string>,   // tributo_codificado
    tributoClasses: seq<string>,      // le_tributo.classes_
    tributoEncoded: seq<nat>,         // tributo_encoded
    turmaSimplificada: seq<string>,   // turma_simplificada
    turmaClasses: seq<string>,        // le_turma.classes_
    turmaEncoded: seq<nat>,           // turma_encoded
    texts: seq<string>,               // texto_ementa_clean
    x: seq<seq<real>>,                // X_combined
    featureNames: seq<string>         // feature_names
  )

  /** `tributo_codificado`. */
  function CodifiedColumn(rows: seq<Record>, frequentes: seq<string>): (c: seq<string>)
    ensures |c| == |rows|
    ensures forall i :: 0 <= i < |rows| ==> c[i] == TrainingBucket(rows[i].tributo, frequentes)
  {
    Map(rows, r => TributoBucketOf(r, frequentes))
  }

  /** `le.fit_transform(col)` once `classes_` is known: each value's position. */
  function EncodedColumn(col: seq<string>, classes: seq<string>): (e: seq<nat>)
    requires forall i :: 0 <= i < |col| ==> col[i] in classes
    ensures |e| == |col|
    ensures forall i :: 0 <= i < |col| ==> e[i] < |classes| && classes[e[i]] == col[i]
  {
    Map(col, v => IndexOf(classes, v))
  }

  /** `turma_simplificada`. */
  function PanelColumn(rows: seq<Record>): (c: seq<string>)
    ensures |c| == |rows|
    ensures forall i :: 0 <= i < |rows| ==> c[i] == RegexToken(rows[i].turma)
  {
    Map(rows, PanelOf)
  }

  /** `texto_ementa_clean`. */
  function TextColumn(rows: seq<Record>): (c: seq<string>)
    ensures |c| == |rows|
    ensures forall i :: 0 <= i < |rows| ==> c[i] == TextOf(rows[i])
  {
    Map(rows, TextOf)
  }

  /** `np.hstack([X_categoricas, tfidf_matrix.toarray()])`. */
  function Stack(tributoEncoded: seq<nat>, turmaEncoded: seq<nat>, texts: seq<string>, tfidf: Vectorizer): (x: seq<seq<real>>)
    requires |tributoEncoded| == |turmaEncoded| == |texts|
    ensures |x| == |texts|
    ensures forall i :: 0 <= i < |texts| ==> x[i] == AssembleRow(tributoEncoded[i], turmaEncoded[i], tfidf.transform(texts[i]))
  {
    seq(|texts|, i requires 0 <= i < |texts| => AssembleRow(tributoEncoded[i], turmaEncoded[i], tfidf.transform(texts[i])))
  }

  /** The feature frame the training scripts build on `rows`. */
  function Features(rows: seq<Record>, thr: nat, tfidf: Vectorizer): FeatureFrame {
    var frequentes := FrequentValues(Map(rows, TributoCell), thr);
    var codificado := CodifiedColumn(rows, frequentes);
    var tributoClasses := FitClasses(codificado);
    var turma := PanelColumn(rows);
    var turmaClasses := FitClasses(turma);
    var texts := TextColumn(rows);
    var tributoEncoded := EncodedColumn(codificado, tributoClasses);
    var turmaEncoded := EncodedColumn(turma, turmaClasses);
    FeatureFrame(frequentes, codificado, tributoClasses, tributoEncoded, turma, turmaClasses, turmaEncoded,
                 texts, Stack(tributoEncoded, turmaEncoded, texts, tfidf), FeatureNames(tfidf.width))
  }

  /** The feature part of each training `main`, column by column; the
      TF-IDF vectoriser is the one fitted on `texto_ementa_clean`. */
  method EncodeFeatures(rows: seq<Record>, thr: nat, tfidf: Vectorizer) returns (f: FeatureFrame)
    ensures f == Features(rows, thr, tfidf)
  {
    var frequentes := FrequentValues(Map(rows, TributoCell), thr);
    var codificado := Apply(rows, r => TributoBucketOf(r, frequentes));
    assert codificado == CodifiedColumn(rows, frequentes);
    var tributoClasses := FitClasses(codificado);
    var tributoEncoded := EncodedColumn(codificado, tributoClasses);
    var turma := PanelColumn(rows);
    var turmaClasses := FitClasses(turma);
    var turmaEncoded := EncodedColumn(turma, turmaClasses);
    var texts := TextColumn(rows);
    var x := Stack(tributoEncoded, turmaEncoded, texts, tfidf);
    f := FeatureFrame(frequentes, codificado, tributoClasses, tributoEncoded, turma, turmaClasses, turmaEncoded, texts, x, FeatureNames(tfidf.width));
  }

  /** Every codified tax type is frequent or `OUTROS`; a frequent value keeps
      itself, every other row (missing value included) gets `OUTROS`. */
  lemma CodifiedTributos(rows: seq<Record>, thr: nat, tfidf: Vectorizer)
    ensures var f := Features(rows, thr, tfidf);
      && |f.tributoCodificado| == |rows|
      && (forall i :: 0 <= i < |rows| ==> f.tributoCodificado[i] in f.frequentes || f.tributoCodificado[i] == Other)
      && (forall i :: 0 <= i < |rows| && rows[i].tributo.Some? && rows[i].tributo.value in f.frequentes ==>
            f.tributoCodificado[i] == rows[i].tributo.value)
      && (forall i :: 0 <= i < |rows| && (rows[i].tributo.None? || rows[i].tributo.value !in f.frequentes) ==>
            f.tributoCodificado[i] == Other)
      && (forall v :: v in f.frequentes <==> Some(v) in Map(rows, TributoCell) && Count(DropNone(Map(rows, TributoCell)), v) >= thr)
  {
    FrequentValuesMembers(Map(rows, TributoCell), thr);
  }

  /** `OUTROS` is a class of the tax type encoder exactly when some training
      row was codified as `OUTROS`. */
  lemma OtherInClassesIff(rows: seq<Record>, thr: nat, tfidf: Vectorizer)
    ensures var f := Features(rows, thr, tfidf);
      Other in f.tributoClasses <==> exists i :: 0 <= i < |rows| && f.tributoCodificado[i] == Other
  {
    var f := Features(rows, thr, tfidf);
    if Other in f.tributoClasses {
      var k :| 0 <= k < |f.tributoClasses| && f.tributoClasses[k] == Other;
      var i :| 0 <= i < |f.tributoCodificado| && f.tributoCodificado[i] == Other;
    }
  }

  /** When every training row has a frequent tax type other than `OUTROS`, the
      tax type encoder has no `OUTROS` class. */
  lemma AllFrequentMeansNoOther(rows: seq<Record>, thr: nat, tfidf: Vectorizer)
    requires forall i :: 0 <= i < |rows| ==> rows[i].tributo.Some? && rows[i].tributo.value != Other
    requires forall i :: 0 <= i < |rows| ==> rows[i].tributo.value in Features(rows, thr, tfidf).frequentes
    ensures Other !in Features(rows, thr, tfidf).tributoClasses
  {
    OtherInClassesIff(rows, thr, tfidf);
  }

  /** The codes are positions in the encoders' tables of the codified values,
      and the panel column is the regular-expression token of each row. */
  lemma EncodedColumns(rows: seq<Record>, thr: nat, tfidf: Vectorizer)
    ensures var f := Features(rows, thr, tfidf);
      && |f.tributoEncoded| == |rows| && |f.turmaEncoded| == |rows| && |f.turmaSimplificada| == |rows|
      && (forall i :: 0 <= i < |rows| ==>
            f.tributoEncoded[i] < |f.tributoClasses| && f.tributoClasses[f.tributoEncoded[i]] == f.tributoCodificado[i])
      && (forall i :: 0 <= i < |rows| ==>
            f.turmaSimplificada[i] == RegexToken(rows[i].turma)
            && f.turmaEncoded[i] < |f.turmaClasses| && f.turmaClasses[f.turmaEncoded[i]] == f.turmaSimplificada[i])
      && NoDuplicates(f.tributoClasses) && NoDuplicates(f.turmaClasses)
  {
  }

  /** Each text column entry is a prefix of at most 1000 characters of the
      summary (the empty text for a missing one). */
  lemma TruncatedTexts(rows: seq<Record>, thr: nat, tfidf: Vectorizer)
    ensures var f := Features(rows, thr, tfidf);
      && |f.texts| == |rows|
      && forall i :: 0 <= i < |rows| ==>
           && |f.texts[i]| <= MaxTextLength
           && (rows[i].ementa.Some? ==> f.texts[i] == rows[i].ementa.value[..|f.texts[i]|])
           && (rows[i].ementa.None? ==> f.texts[i] == "")
  {
  }

  /** Every stacked row has the two codes first and then the TF-IDF row of
      its text, `2 + width` columns in all, as many as `feature_names`. */
  lemma StackedRows(rows: seq<Record>, thr: nat, tfidf: Vectorizer)
    requires WellFormed(tfidf)
    ensures var f := Features(rows, thr, tfidf);
      && |f.x| == |rows|
      && |f.featureNames| == 2 + tfidf.width
      && forall i :: 0 <= i < |rows| ==>
           && |f.x[i]| == 2 + tfidf.width == |f.featureNames|
           && f.x[i][0] == f.tributoEncoded[i] as real
           && f.x[i][1] == f.turmaEncoded[i] as real
           && f.x[i][2..] == tfidf.transform(f.texts[i])
  {
    FeatureNamesShape(tfidf.width);
  }

  /** The dictionary pickled beside the models. */
  function Bundle(f: FeatureFrame, tfidf: Vectorizer): Preprocessors {
    Preprocessors(f.tributoClasses, f.turmaClasses, tfidf, f.frequentes, f.featureNames)
  }

  /** Training and serving agree on a training row whose panel starts with
      its number: the applications, given the row's summary, tax type and
      panel, rebuild exactly the stacked training row. */
  lemma TrainServeConsistency(rows: seq<Record>, thr: nat, tfidf: Vectorizer, i: nat)
    requires i < |rows|
    requires rows[i].ementa.Some? && rows[i].tributo.Some? && rows[i].turma.Some?
    requires StartsWithOrdinal(rows[i].turma.value)
    ensures var f := Features(rows, thr, tfidf);
      EncodeInput(rows[i].ementa.value, rows[i].tributo.value, rows[i].turma.value, Bundle(f, tfidf)) == Ok(f.x[i])
  {
    var f := Features(rows, thr, tfidf);
    EncodedColumns(rows, thr, tfidf);
    PanelTokensAgree(rows[i].turma.value);
    var t := BucketTributo(rows[i].tributo.value, f.frequentes);
    assert t == f.tributoCodificado[i];
    TransformInverse(f.tributoClasses, f.tributoEncoded[i]);
    var p := PanelToken(rows[i].turma.value);
    assert p == f.turmaSimplificada[i];
    TransformInverse(f.turmaClasses, f.turmaEncoded[i]);
  }

  // ---------------------------------------------------------------------------
  // The two disposition scripts (notebooks/train_model_2023_2024.py and
  // notebooks/train_model_expandido.py)

  /** `categoria_provimento.isin(['Provido Total', 'Provido Parcial', 'Negado'])`. */
  predicate ModelledCategory(c: Option<Provimento>) {
    c == Some(ProvidoTotal) || c == Some(ProvidoParcial) || c == Some(Negado)
  }

  function CategoryOf(r: Record): Option<Provimento> {
    Categorize(r.resultado)
  }

  predicate Modelled(r: Record) {
    ModelledCategory(CategoryOf(r))
  }

  predicate CompleteAndModelled(r: Record) {
    Complete(r) && Modelled(r)
  }

  function TargetOf(r: Record, script: Script): Option<Votacao> {
    VotingTarget(r.votacao, r.resultado, script)
  }

  /** What a disposition script hands to the two classifiers. */
  datatype DispositionSet = DispositionSet(
    rows: seq<Record>,                 // df_train_provimento / df_provimento
    yProvimento: seq<Option<Provimento>>, // its categoria_provimento column
    target: seq<Option<Votacao>>,      // its target_votacao column
    features: FeatureFrame,
    xVotacao: seq<seq<real>>,          // X_votacao
    yVotacao: seq<Votacao>             // y_votacao
  )

  /** `categoria_provimento` of the cleaned frame. */
  function Categories(clean: seq<Record>): (c: seq<Option<Provimento>>)
    ensures |c| == |clean|
    ensures forall i :: 0 <= i < |clean| ==> c[i] == Categorize(clean[i].resultado)
  {
    Map(clean, CategoryOf)
  }

  /** The `isin` mask. */
  function ModelledMask(categoria: seq<Option<Provimento>>): (m: seq<bool>)
    ensures |m| == |categoria|
    ensures forall i :: 0 <= i < |categoria| ==> m[i] == ModelledCategory(categoria[i])
  {
    Map(categoria, ModelledCategory)
  }

  /** `target_votacao` of a frame under the given script's rule. */
  function Targets(rows: seq<Record>, script: Script): (t: seq<Option<Votacao>>)
    ensures |t| == |rows|
    ensures forall i :: 0 <= i < |rows| ==> t[i] == VotingTarget(rows[i].votacao, rows[i].resultado, script)
  {
    Map(rows, r => TargetOf(r, script))
  }

  function Disposition(df: seq<Record>, script: Script, tfidf: Vectorizer): DispositionSet {
    var clean := DropIncomplete(df);
    var categoria := Categories(clean);
    var mask := ModelledMask(categoria);
    var rows := Mask(clean, mask);
    var target := Targets(rows, script);
    var f := Features(rows, MinSupport(script), tfidf);
    DispositionSet(rows, Mask(categoria, mask), target, f, Mask(f.x, PresentMask(target)), DropNone(target))
  }

  /** The selection and feature part of the `main` of the two disposition
      scripts, step by step. */
  method PrepareDisposition(df: seq<Record>, script: Script, tfidf: Vectorizer) returns (d: DispositionSet)
    requires script == CrossYear || script == Expanded
    ensures d == Disposition(df, script, tfidf)
  {
    var clean := DropIncomplete(df);
    var categoria := Apply(clean, CategoryOf);
    assert categoria == Categories(clean);
    var mask := ModelledMask(categoria);
    var rows := Mask(clean, mask);
    var target := Apply(rows, r => TargetOf(r, script));
    assert target == Targets(rows, script);
    var f := EncodeFeatures(rows, MinSupport(script), tfidf);
    var xVotacao := Mask(f.x, PresentMask(target));
    var yVotacao := DropNone(target);
    d := DispositionSet(rows, Mask(categoria, mask), target, f, xVotacao, yVotacao);
  }

  /** The disposition subset is the complete rows of the three modelled
      categories, in their original order; its label column is their category. */
  lemma DispositionRows(df: seq<Record>, script: Script, tfidf: Vectorizer)
    ensures var d := Disposition(df, script, tfidf);
      && d.rows == Filter(df, CompleteAndModelled)
      && (forall r :: r in d.rows <==> r in df && Complete(r) && Modelled(r))
      && |d.yProvimento| == |d.rows|
      && (forall i :: 0 <= i < |d.rows| ==> d.yProvimento[i] == Categorize(d.rows[i].resultado) && ModelledCategory(d.yProvimento[i]))
  {
    var d := Disposition(df, script, tfidf);
    SelectModelled(df);
    FilterMembers(df, CompleteAndModelled);
    forall i | 0 <= i < |d.rows|
      ensures d.yProvimento[i] == Categorize(d.rows[i].resultado) && ModelledCategory(d.yProvimento[i])
    {
      assert d.rows[i] in d.rows;
      assert CompleteAndModelled(d.rows[i]);
      assert d.yProvimento[i] == CategoryOf(d.rows[i]);
    }
  }

  /** Helper: the `isin` selection on the cleaned frame, rows and labels. */
  lemma SelectModelled(df: seq<Record>)
    ensures var clean := DropIncomplete(df);
      var mask := ModelledMask(Categories(clean));
      && Mask(clean, mask) == Filter(df, CompleteAndModelled)
      && Mask(Categories(clean), mask) == Categories(Mask(clean, mask))
  {
    var clean := DropIncomplete(df);
    var categoria := Categories(clean);
    var mask := ModelledMask(categoria);
    MaskByPredicate(clean, mask, Modelled);
    FilterFilter(df, Complete, Modelled, CompleteAndModelled);
    MaskMap(clean, CategoryOf, mask);
  }

  /** The voting subset: `X_votacao` and `y_votacao` have equal length and are
      the two halves of the pairs (row, target) of the disposition rows that
      have a target; each pair comes from one disposition row, granted in
      full or in part, and the `Empate` label only occurs in the 2023/2024
      script. */
  lemma DispositionVoting(df: seq<Record>, script: Script, tfidf: Vectorizer)
    ensures var d := Disposition(df, script, tfidf);
      && |d.xVotacao| == |d.yVotacao|
      && d.xVotacao == Firsts(Selected(d.features.x, d.target))
      && d.yVotacao == Seconds(Selected(d.features.x, d.target))
      && (forall k :: 0 <= k < |d.yVotacao| ==> FromGrantedRow(d, k))
      && (script != CrossYear ==> Empate !in d.yVotacao)
  {
    var d := Disposition(df, script, tfidf);
    DispositionRows(df, script, tfidf);
    assert |d.features.x| == |d.rows| == |d.target|;
    MaskAndDropAligned(d.features.x, d.target);
    VotingPairs(d, script);
    if script != CrossYear {
      NoTie(d.rows, d.target, script);
    }
  }

  /** The `k`-th voting pair is the stacked row and the target of one
      disposition row, and that row is a total or partial grant. */
  predicate FromGrantedRow(d: DispositionSet, k: nat)
    requires k < |d.xVotacao| && k < |d.yVotacao|
  {
    exists i :: 0 <= i < |d.rows| && i < |d.features.x| && i < |d.target| && i < |d.yProvimento| &&
      d.xVotacao[k] == d.features.x[i] && d.target[i] == Some(d.yVotacao[k]) &&
      (d.yProvimento[i] == Some(ProvidoTotal) || d.yProvimento[i] == Some(ProvidoParcial))
  }

  /** Helper: each voting pair comes from one granted disposition row. */
  lemma VotingPairs(d: DispositionSet, script: Script)
    requires |d.features.x| == |d.rows| && |d.target| == |d.rows| && |d.yProvimento| == |d.rows|
    requires forall i :: 0 <= i < |d.rows| ==> d.target[i] == VotingTarget(d.rows[i].votacao, d.rows[i].resultado, script)
    requires forall i :: 0 <= i < |d.rows| ==> d.yProvimento[i] == Categorize(d.rows[i].resultado)
    requires d.xVotacao == Firsts(Selected(d.features.x, d.target)) && d.yVotacao == Seconds(Selected(d.features.x, d.target))
    requires |d.xVotacao| == |d.yVotacao|
    ensures forall k :: 0 <= k < |d.yVotacao| ==> FromGrantedRow(d, k)
  {
    var s := Selected(d.features.x, d.target);
    SelectedPairs(d.features.x, d.target);
    FirstsSecondsIndex(s);
    forall k | 0 <= k < |d.yVotacao|
      ensures FromGrantedRow(d, k)
    {
      assert s[k] in s;
      var i :| 0 <= i < |d.features.x| && d.features.x[i] == s[k].0 && d.target[i] == Some(s[k].1);
      VotingImpliesGranted(d.rows[i].votacao, d.rows[i].resultado, script);
    }
  }

  /** Helper: outside the 2023/2024 script no row gets the tie label. */
  lemma NoTie(rows: seq<Record>, target: seq<Option<Votacao>>, script: Script)
    requires script != CrossYear && |target| == |rows|
    requires forall i :: 0 <= i < |rows| ==> target[i] == VotingTarget(rows[i].votacao, rows[i].resultado, script)
    ensures Empate !in DropNone(target)
  {
    DropNoneMembers(target);
  }

  // ---------------------------------------------------------------------------
  // The single-model script (notebooks/train_model.py)

  /** What notebooks/train_model.py hands to its classifier. */
  datatype VotingSet = VotingSet(
    clean: seq<Record>,           // df_clean
    target: seq<Option<Votacao>>, // its target_votacao column
    rows: seq<Record>,            // df_votacao
    features: FeatureFrame,
    y: seq<Votacao>               // y
  )

  function VotingOnly(df: seq<Record>, tfidf: Vectorizer): VotingSet {
    var clean := DropIncomplete(df);
    var target := Targets(clean, Single);
    var rows := Mask(clean, PresentMask(target));
    VotingSet(clean, target, rows, Features(rows, MinSupport(Single), tfidf), DropNone(target))
  }

  /** The `main` of notebooks/train_model.py up to the stacked matrix; the
      frequent tax types are counted on the voting subset. */
  method PrepareSingle(df: seq<Record>, tfidf: Vectorizer) returns (v: VotingSet)
    ensures v == VotingOnly(df, tfidf)
  {
    var clean := DropIncomplete(df);
    var target := Apply(clean, r => TargetOf(r, Single));
    assert target == Targets(clean, Single);
    var rows := Mask(clean, PresentMask(target));
    var f := EncodeFeatures(rows, MinSupport(Single), tfidf);
    var y := DropNone(target);
    v := VotingSet(clean, target, rows, f, y);
  }

  /** The rows and labels of the single model are aligned: the `k`-th label
      is the voting target of the `k`-th row, every row is complete, and the
      label is one of the three outcomes without the tie. */
  lemma SingleVoting(df: seq<Record>, tfidf: Vectorizer)
    ensures var v := VotingOnly(df, tfidf);
      && |v.rows| == |v.y| == |v.features.x|
      && (forall k :: 0 <= k < |v.y| ==> TargetOf(v.rows[k], Single) == Some(v.y[k]) && Complete(v.rows[k]))
      && Empate !in v.y
  {
    var v := VotingOnly(df, tfidf);
    MaskAndDropAligned(v.clean, v.target);
    var s := Selected(v.clean, v.target);
    SelectedPairs(v.clean, v.target);
    FirstsSecondsIndex(s);
    FilterMembers(df, Complete);
    forall k | 0 <= k < |v.y|
      ensures TargetOf(v.rows[k], Single) == Some(v.y[k]) && Complete(v.rows[k])
    {
      assert s[k] in s;
      var i :| 0 <= i < |v.clean| && v.clean[i] == s[k].0 && v.target[i] == Some(s[k].1);
      assert v.clean[i] in v.clean;
    }
    NoTie(v.clean, v.target, Single);
  }
}
