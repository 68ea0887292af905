/** Removal of summaries that give the decision away ("data leakage"):
    `detectar_vazamento` and the clean-dataset filter of
    scripts/detectar_vazamento.py and scripts/detectar_vazamento_2023.py, and
    the residual check `verificar_vazamento` of scripts/verificar_dataset_limpo.py. */
module Leakage {
  import opened Wrappers
  import opened Text
  import opened Frames
  import opened Records

  /** The words that betray the decision, as listed by both detection scripts. */
  const DetectionTerms: seq<string> := [
    "provido", "negado", "mantém-se", "mantem-se", "improcedente", "procedente",
    "dar provimento", "nega-se", "recurso conhecido", "decide-se", "não se conhece",
    "voto de qualidade", "unânime", "maioria", "qualidade", "acordam os membros",
    "por unanimidade", "por maioria", "votaram", "conclusões", "julgamento",
    "decisão", "acórdão", "sentença", "resultado", "provimento", "negação",
    "acordam", "votação", "votou", "deliberou", "julgou", "decidiu"
  ]

  /** The list the verification script checks the cleaned file against. */
  const VerificationTerms: seq<string> := [
    "provido", "negado", "mantém-se", "mantem-se", "improcedente", "procedente",
    "dar provimento", "nega-se", "recurso conhecido", "decide-se", "não se conhece",
    "voto de qualidade", "unânime", "maioria", "qualidade", "acordam os membros",
    "por unanimidade", "por maioria", "votaram", "conclusões", "julgamento",
    "decisão", "acórdão", "sentença", "resultado", "provimento", "negação"
  ]

  /** The verification list is the detection list without its last six words. */
  lemma VerificationIsPrefix()
    ensures |DetectionTerms| == 33 && |VerificationTerms| == 27
    ensures VerificationTerms == DetectionTerms[..27]
  {
  }

  /** A present text whose lower-cased form contains one of `terms`. A missing
      text is never flagged. */
  predicate HasLeak(terms: seq<string>, texto: Option<string>) {
    texto.Some? && exists k :: 0 <= k < |terms| && Contains(Lower(texto.value), terms[k])
  }

  /** `detectar_vazamento` / `verificar_vazamento`: the loop over the word list
      that returns as soon as one word occurs. */
  method DetectLeakage(terms: seq<string>, texto: Option<string>) returns (flagged: bool)
    ensures flagged == HasLeak(terms, texto)
  {
    if texto.None? {
      return false;
    }
    var lowered := Lower(texto.value);
    for k := 0 to |terms|
      invariant forall j :: 0 <= j < k ==> !Contains(lowered, terms[j])
    {
      if Contains(lowered, terms[k]) {
        return true;
      }
    }
    return false;
  }

  /** A list that checks a subset of the words flags no more texts. */
  lemma {:induction false} HasLeakPrefix(terms: seq<string>, n: nat, texto: Option<string>)
    requires n <= |terms|
    ensures HasLeak(terms[..n], texto) ==> HasLeak(terms, texto)
  {
    if HasLeak(terms[..n], texto) {
      var k :| 0 <= k < n && Contains(Lower(texto.value), terms[..n][k]);
      assert terms[..n][k] == terms[k];
    }
  }

  // ---------------------------------------------------------------------------
  // The clean dataset

  /** The row is flagged by the detection scripts. */
  predicate Leaks(r: Record) {
    HasLeak(DetectionTerms, r.ementa)
  }

  predicate NoLeak(r: Record) {
    !Leaks(r)
  }

  /** `df[df['possivel_vazamento'] == False]` with the helper column dropped. */
  function Cleaned(df: seq<Record>): seq<Record> {
    Filter(df, NoLeak)
  }

  /** The `main` of both detection scripts: the `possivel_vazamento` column is
      filled row by row, summed into the removed count, and the unflagged rows
      are kept in their original order, unchanged. */
  method RemoveLeakage(df: seq<Record>) returns (flags: seq<bool>, removed: nat, clean: seq<Record>)
    ensures |flags| == |df|
    ensures forall i :: 0 <= i < |df| ==> flags[i] == Leaks(df[i])
    ensures removed == |Filter(df, Leaks)|
    ensures clean == Cleaned(df)
    ensures |clean| + removed == |df|
  {
    flags := [];
    for i := 0 to |df|
      invariant |flags| == i
      invariant forall j :: 0 <= j < i ==> flags[j] == Leaks(df[j])
    {
      var f := DetectLeakage(DetectionTerms, df[i].ementa);
      flags := flags + [f];
    }
    removed := CountTrue(flags);
    var keep := seq(|flags|, i requires 0 <= i < |flags| => !flags[i]);
    clean := Mask(df, keep);
    CountTrueByPredicate(df, flags, Leaks);
    MaskByPredicate(df, keep, NoLeak);
    MaskComplementCount(df, flags, keep);
  }

  /** A row is in the clean dataset exactly when it is an unflagged row. */
  lemma CleanedMembers(df: seq<Record>)
    ensures forall r :: r in Cleaned(df) <==> r in df && !Leaks(r)
  {
    FilterMembers(df, NoLeak);
  }

  /** Running the filter again on the clean dataset removes nothing. */
  lemma CleanedIdempotent(df: seq<Record>)
    ensures Cleaned(Cleaned(df)) == Cleaned(df)
    ensures |Filter(Cleaned(df), Leaks)| == 0
  {
    FilterIdempotent(df, NoLeak);
    CleanedMembers(df);
    NothingSelected(Cleaned(df), Leaks);
  }

  lemma {:induction false} NothingSelected<A>(s: seq<A>, p: A -> bool)
    requires forall i :: 0 <= i < |s| ==> !p(s[i])
    ensures Filter(s, p) == []
  {
    if s != [] {
      NothingSelected(s[1..], p);
    }
  }

  // ---------------------------------------------------------------------------
  // The verification script

  predicate ResidualLeak(r: Record) {
    HasLeak(VerificationTerms, r.ementa)
  }

  /** The `main` of scripts/verificar_dataset_limpo.py: the `tem_vazamento`
      column and its sum, the residual leakage count. */
  method ResidualLeakage(df: seq<Record>) returns (flags: seq<bool>, residual: nat)
    ensures |flags| == |df|
    ensures forall i :: 0 <= i < |df| ==> flags[i] == ResidualLeak(df[i])
    ensures residual == |Filter(df, ResidualLeak)|
  {
    flags := [];
    for i := 0 to |df|
      invariant |flags| == i
      invariant forall j :: 0 <= j < i ==> flags[j] == ResidualLeak(df[j])
    {
      var f := DetectLeakage(VerificationTerms, df[i].ementa);
      flags := flags + [f];
    }
    residual := CountTrue(flags);
    CountTrueByPredicate(df, flags, ResidualLeak);
  }

  /** A text the verification list flags is flagged by the detection list. */
  lemma ResidualImpliesLeak(r: Record)
    ensures ResidualLeak(r) ==> Leaks(r)
  {
    VerificationIsPrefix();
    HasLeakPrefix(DetectionTerms, 27, r.ementa);
  }

  /** The file written by the detection script shows zero residual leakage. */
  lemma CleanedHasNoResidual(df: seq<Record>)
    ensures forall r :: r in Cleaned(df) ==> !ResidualLeak(r)
    ensures |Filter(Cleaned(df), ResidualLeak)| == 0
  {
    CleanedMembers(df);
    forall r | r in Cleaned(df)
      ensures !ResidualLeak(r)
    {
      ResidualImpliesLeak(r);
    }
    NothingSelected(Cleaned(df), ResidualLeak);
  }

  // ---------------------------------------------------------------------------
  // Cases left for training (`str.contains(..., na=False)`, case-sensitive)

  predicate ResultadoMentions(r: Record, word: string) {
    r.resultado.Some? && Contains(r.resultado.value, word)
  }

  predicate MentionsProvido(r: Record) {
    ResultadoMentions(r, "Provido")
  }

  predicate MentionsNegado(r: Record) {
    ResultadoMentions(r, "Negado")
  }

  predicate ProvidoWithVotacao(r: Record) {
    MentionsProvido(r) && r.votacao.Some?
  }

  predicate HasVotacao(r: Record) {
    r.votacao.Some?
  }

  /** `casos_provimento`. */
  function ProvidoCases(df: seq<Record>): seq<Record> {
    Filter(df, MentionsProvido)
  }

  /** `casos_negacao`. */
  function NegadoCases(df: seq<Record>): seq<Record> {
    Filter(df, MentionsNegado)
  }

  /** `casos_votacao = casos_provimento.dropna(subset=['votacao'])`. */
  function VotingCases(df: seq<Record>): seq<Record> {
    Filter(ProvidoCases(df), HasVotacao)
  }

  /** The three subsets hold exactly the rows their conditions describe; a
      missing ruling is in none of them. */
  lemma TrainingCasesMembers(df: seq<Record>)
    ensures forall r :: r in ProvidoCases(df) <==> r in df && r.resultado.Some? && Contains(r.resultado.value, "Provido")
    ensures forall r :: r in NegadoCases(df) <==> r in df && r.resultado.Some? && Contains(r.resultado.value, "Negado")
    ensures VotingCases(df) == Filter(df, ProvidoWithVotacao)
    ensures forall r :: r in VotingCases(df) ==> r in ProvidoCases(df) && r.votacao.Some?
  {
    FilterMembers(df, MentionsProvido);
    FilterMembers(df, MentionsNegado);
    FilterFilter(df, MentionsProvido, HasVotacao, ProvidoWithVotacao);
    FilterMembers(ProvidoCases(df), HasVotacao);
  }

  /** The subsets are case-sensitive, unlike `categorizar_provimento`: a ruling
      written "Recurso provido" is not a `casos_provimento` row. */
  lemma LowerCaseRulingNotAProvidoCase()
    ensures !MentionsProvido(Record(Some("Recurso provido"), None, None, None, None))
  {
    var s := "Recurso provido";
    assert 'P' !in s;
    OccurrenceStartsWithFirst(s, "Provido");
  }
}
