/** One row of the CARF rulings tables. Every column the pipeline reads may be
    missing in the CSV files, so every field is optional. */
module Records {
  import opened Wrappers
  import opened Frames

  datatype Record = Record(
    resultado: Option<string>,  // resultado_julgamento
    votacao: Option<string>,    // votacao
    ementa: Option<string>,     // texto_ementa
    tributo: Option<string>,    // tributo
    turma: Option<string>       // turma (not part of the dropna subset)
  )

  /** The row survives `dropna(subset=['resultado_julgamento', 'votacao',
      'texto_ementa', 'tributo'])`. */
  predicate Complete(r: Record) {
    r.resultado.Some? && r.votacao.Some? && r.ementa.Some? && r.tributo.Some?
  }

  /** The basic cleaning step shared by the three training scripts. */
  function DropIncomplete(df: seq<Record>): seq<Record> {
    Filter(df, Complete)
  }

  /** A row is kept by the cleaning step exactly when it is a row of the table
      with the four fields present. */
  lemma DropIncompleteSelects(df: seq<Record>)
    ensures forall r :: r in DropIncomplete(df) <==> r in df && Complete(r)
    ensures |DropIncomplete(df)| <= |df|
  {
    FilterMembers(df, Complete);
    FilterLength(df, Complete);
  }
}
