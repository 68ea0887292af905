/** The selection part of scripts/analise_provimento.py: the category column
    of the whole table, the rows with a ruling and a voting record, and among
    those the total and partial grants. The printed counts and cross tables
    only describe these frames. */
module Analysis {
  import opened Wrappers
  import opened Frames
  import opened Records
  import opened Labels
  import opened Training

  /** The row survives `dropna(subset=['resultado_julgamento', 'votacao'])`. */
  predicate RulingAndVote(r: Record) {
    r.resultado.Some? && r.votacao.Some?
  }

  /** `isin(['Provido Total', 'Provido Parcial'])`. */
  predicate GrantCategory(c: Option<Provimento>) {
    c == Some(ProvidoTotal) || c == Some(ProvidoParcial)
  }

  predicate Grant(r: Record) {
    GrantCategory(CategoryOf(r))
  }

  predicate GrantWithVote(r: Record) {
    RulingAndVote(r) && Grant(r)
  }

  /** The `main` of scripts/analise_provimento.py: the `categoria_provimento`
      column is computed row by row on the whole table, `df_clean` keeps the
      rows with both cells, and `df_provimento` selects the grants of
      `df_clean` by the category column, all in the original order. */
  method AnalyseProvimento(df: seq<Record>) returns (categoria: seq<Option<Provimento>>, clean: seq<Record>, provimento: seq<Record>)
    ensures |categoria| == |df|
    ensures forall i :: 0 <= i < |df| ==> categoria[i] == Categorize(df[i].resultado)
    ensures clean == Filter(df, RulingAndVote)
    ensures provimento == Filter(df, GrantWithVote)
  {
    categoria := Apply(df, CategoryOf);
    var cleanMask := Map(df, RulingAndVote);
    clean := Mask(df, cleanMask);
    var categoriaClean := Mask(categoria, cleanMask);
    var grantMask := Map(categoriaClean, GrantCategory);
    provimento := Mask(clean, grantMask);
    MaskByPredicate(df, cleanMask, RulingAndVote);
    assert categoria == Map(df, CategoryOf);
    MaskMap(df, CategoryOf, cleanMask);
    assert forall i :: 0 <= i < |clean| ==> grantMask[i] == Grant(clean[i]);
    MaskByPredicate(clean, grantMask, Grant);
    FilterFilter(df, RulingAndVote, Grant, GrantWithVote);
  }

  /** `df_provimento` holds exactly the rows with a ruling and a vote that are
      total or partial grants; denials, rulings not heard and others are out. */
  lemma ProvimentoMembers(df: seq<Record>)
    ensures forall r :: r in Filter(df, GrantWithVote) <==>
      r in df && r.resultado.Some? && r.votacao.Some? &&
      (Categorize(r.resultado) == Some(ProvidoTotal) || Categorize(r.resultado) == Some(ProvidoParcial))
    ensures forall r :: r in Filter(df, GrantWithVote) ==> r in Filter(df, RulingAndVote)
  {
    FilterMembers(df, GrantWithVote);
    FilterMembers(df, RulingAndVote);
  }

  /** Every row to which a training script gives a voting target is one of
      the grants this analysis counts. */
  lemma VotingRowsAreProvimento(df: seq<Record>, r: Record, script: Script)
    requires r in df && VotingTarget(r.votacao, r.resultado, script).Some?
    ensures r in Filter(df, GrantWithVote)
  {
    VotingImpliesGranted(r.votacao, r.resultado, script);
    FilterMembers(df, GrantWithVote);
  }
}
