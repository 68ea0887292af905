/** The two labelling rules of the training scripts: `categorizar_provimento`
    (the disposition of a ruling) and `criar_target_votacao` (how the panel
    voted, for rulings that granted the appeal). */
module Labels {
  import opened Wrappers
  import opened Text

  /** The five disposition categories. */
  datatype Provimento = ProvidoTotal | ProvidoParcial | Negado | NaoConhecido | Outros

  /** The voting outcomes a voting target can take. */
  datatype Votacao = Unanime | Maioria | Qualidade | Empate

  /** The three training scripts, which differ in the voting labels they admit
      and in how frequent a tax type must be to keep its own code. */
  datatype Script =
    | CrossYear  // notebooks/train_model_2023_2024.py
    | Expanded   // notebooks/train_model_expandido.py
    | Single     // notebooks/train_model.py

  /** Only the 2023/2024 script knows the tie broken under Lei 13.988/2020. */
  predicate AdmitsTie(script: Script) {
    script == CrossYear
  }

  // ---------------------------------------------------------------------------
  // Label strings

  /** The label stored in `categoria_provimento` (and learnt by the classifier). */
  function ProvimentoName(c: Provimento): string {
    match c
    case ProvidoTotal => "Provido Total"
    case ProvidoParcial => "Provido Parcial"
    case Negado => "Negado"
    case NaoConhecido => "Nao Conhecido"
    case Outros => "Outros"
  }

  function ParseProvimento(s: string): (c: Option<Provimento>)
    ensures c.Some? ==> ProvimentoName(c.value) == s
  {
    if s == "Provido Total" then Some(ProvidoTotal)
    else if s == "Provido Parcial" then Some(ProvidoParcial)
    else if s == "Negado" then Some(Negado)
    else if s == "Nao Conhecido" then Some(NaoConhecido)
    else if s == "Outros" then Some(Outros)
    else None
  }

  /** Every category is read back from its label: the labels are distinct. */
  lemma ProvimentoNameRoundTrip(c: Provimento)
    ensures ParseProvimento(ProvimentoName(c)) == Some(c)
  {
  }

  /** The label stored in `target_votacao`. */
  function VotacaoName(v: Votacao): string {
    match v
    case Unanime => "Unânime"
    case Maioria => "Maioria"
    case Qualidade => "Qualidade"
    case Empate => "Empate"
  }

  function ParseVotacao(s: string): (v: Option<Votacao>)
    ensures v.Some? ==> VotacaoName(v.value) == s
  {
    if s == "Unânime" then Some(Unanime)
    else if s == "Maioria" then Some(Maioria)
    else if s == "Qualidade" then Some(Qualidade)
    else if s == "Empate" then Some(Empate)
    else None
  }

  lemma VotacaoNameRoundTrip(v: Votacao)
    ensures ParseVotacao(VotacaoName(v)) == Some(v)
  {
  }

  /** The exact (stripped) `votacao` cell that yields each voting outcome. */
  function VotacaoCell(v: Votacao): string {
    match v
    case Unanime => "Unânime"
    case Maioria => "Maioria"
    case Qualidade => "Qualidade"
    case Empate => "Empate - Lei 13.988/2020"
  }

  // ---------------------------------------------------------------------------
  // categorizar_provimento

  /** The ordered substring rules, on the already lower-cased ruling text. */
  function Classify(s: string): Provimento {
    if Contains(s, "provido") && !Contains(s, "parcial") && !Contains(s, "negado") then ProvidoTotal
    else if Contains(s, "provido") && Contains(s, "parcial") then ProvidoParcial
    else if Contains(s, "negado") then Negado
    else if Contains(s, "nao conhecido") || Contains(s, "não conhecido") then NaoConhecido
    else Outros
  }

  /** `categorizar_provimento(resultado)`: `None` for a missing cell, otherwise
      the rules applied to `str(resultado).lower()`. */
  function Categorize(resultado: Option<string>): (c: Option<Provimento>)
    ensures c.None? <==> resultado.None?
  {
    if resultado.None? then None else Some(Classify(Lower(resultado.value)))
  }

  /** The first-match-wins chain as a decision table whose rows exclude each
      other: each category holds exactly under its own condition on the
      lower-cased text. In particular "provido" with "parcial" is a partial
      grant even when "negado" also occurs. */
  lemma CategorizeTable(s: string)
    ensures var l := Lower(s);
      var provido := Contains(l, "provido");
      var parcial := Contains(l, "parcial");
      var negado := Contains(l, "negado");
      var naoConhecido := Contains(l, "nao conhecido") || Contains(l, "não conhecido");
      && (Categorize(Some(s)) == Some(ProvidoTotal) <==> provido && !parcial && !negado)
      && (Categorize(Some(s)) == Some(ProvidoParcial) <==> provido && parcial)
      && (Categorize(Some(s)) == Some(Negado) <==> negado && !(provido && parcial))
      && (Categorize(Some(s)) == Some(NaoConhecido) <==> !provido && !negado && naoConhecido)
      && (Categorize(Some(s)) == Some(Outros) <==> !provido && !negado && !naoConhecido)
  {
  }

  /** The category depends on the ruling text only through its lower-cased
      form: the original and the lower-cased text get the same category. */
  lemma CategorizeCaseInsensitive(s: string)
    ensures Categorize(Some(Lower(s))) == Categorize(Some(s))
  {
    LowerIdempotent(s);
  }

  /** Rulings with the same lower-cased text get the same category. */
  lemma CategorizeDependsOnLower(s: string, t: string)
    requires Lower(s) == Lower(t)
    ensures Categorize(Some(s)) == Categorize(Some(t))
  {
  }

  // ---------------------------------------------------------------------------
  // criar_target_votacao

  /** The condition on the ruling under which a voting target is produced:
      the lower-cased text mentions "provido" and not "negado". */
  predicate Granted(resultado: string) {
    Contains(Lower(resultado), "provido") && !Contains(Lower(resultado), "negado")
  }

  /** The comparison chain on the stripped voting cell. */
  function VotacaoLabel(v: string, script: Script): Option<Votacao> {
    if v == "Unânime" then Some(Unanime)
    else if v == "Maioria" then Some(Maioria)
    else if v == "Qualidade" then Some(Qualidade)
    else if AdmitsTie(script) && v == "Empate - Lei 13.988/2020" then Some(Empate)
    else None
  }

  /** `criar_target_votacao(votacao, resultado)` of the given script. */
  function VotingTarget(votacao: Option<string>, resultado: Option<string>, script: Script): Option<Votacao> {
    if votacao.None? || resultado.None? then None
    else if Granted(resultado.value) then VotacaoLabel(Strip(votacao.value), script)
    else None
  }

  /** The chain recognises exactly the cell of each outcome, the tie only in
      the script that admits it. */
  lemma VotacaoLabelExact(v: string, script: Script, w: Votacao)
    ensures VotacaoLabel(v, script) == Some(w) <==> v == VotacaoCell(w) && (w == Empate ==> AdmitsTie(script))
  {
    assert "Unânime"[0] == 'U' && "Maioria"[0] == 'M' && "Qualidade"[0] == 'Q' && "Empate - Lei 13.988/2020"[0] == 'E';
  }

  /** Exact characterisation of the voting target: both cells present, the
      ruling granted, and the stripped voting cell equal to the cell of the
      outcome; a tie only in the script that admits it. */
  lemma VotingTargetExact(votacao: Option<string>, resultado: Option<string>, script: Script, v: Votacao)
    ensures VotingTarget(votacao, resultado, script) == Some(v) <==>
      && votacao.Some? && resultado.Some?
      && Granted(resultado.value)
      && Strip(votacao.value) == VotacaoCell(v)
      && (v == Empate ==> AdmitsTie(script))
  {
    if votacao.Some? && resultado.Some? && Granted(resultado.value) {
      VotacaoLabelExact(Strip(votacao.value), script, v);
    }
  }

  /** A missing cell, a ruling without "provido" or one with "negado" never
      yields a voting target. */
  lemma VotingTargetNone(votacao: Option<string>, resultado: Option<string>, script: Script)
    requires votacao.None? || resultado.None? || !Granted(resultado.value)
    ensures VotingTarget(votacao, resultado, script).None?
  {
  }

  /** The voting target is a function of the stripped voting cell: surrounding
      white space does not matter. */
  lemma VotingTargetIgnoresPadding(votacao: string, padded: string, resultado: Option<string>, script: Script)
    requires Strip(padded) == Strip(votacao)
    ensures VotingTarget(Some(padded), resultado, script) == VotingTarget(Some(votacao), resultado, script)
  {
  }

  /** A voting target exists only for rulings that `categorizar_provimento`
      files as a total or partial grant, never for denials. */
  lemma VotingImpliesGranted(votacao: Option<string>, resultado: Option<string>, script: Script)
    requires VotingTarget(votacao, resultado, script).Some?
    ensures Categorize(resultado) == Some(ProvidoTotal) || Categorize(resultado) == Some(ProvidoParcial)
  {
    var l := Lower(resultado.value);
    assert Contains(l, "provido") && !Contains(l, "negado");
  }

  /** Only the 2023/2024 script produces the `Empate` label; the other two give
      `None` for the tie cell, so their voting labels are the three others. */
  lemma TieOnlyCrossYear(votacao: Option<string>, resultado: Option<string>, script: Script)
    requires script != CrossYear
    ensures VotingTarget(votacao, resultado, script) != Some(Empate)
    ensures votacao == Some("Empate - Lei 13.988/2020") ==> VotingTarget(votacao, resultado, script).None?
  {
    if votacao == Some("Empate - Lei 13.988/2020") {
      TieCellStrips();
      var v := Strip(votacao.value);
      assert |v| == 24;
    }
  }

  /** The tie cell is its own stripped form. */
  lemma TieCellStrips()
    ensures Strip("Empate - Lei 13.988/2020") == "Empate - Lei 13.988/2020"
  {
    var s := "Empate - Lei 13.988/2020";
    assert !IsSpace(s[0]);
    assert TrimStart(s) == s;
    assert !IsSpace(s[|s| - 1]);
  }

  /** On a granted ruling the 2023/2024 script labels the tie cell `Empate`. */
  lemma TieLabelledCrossYear(resultado: string)
    requires Granted(resultado)
    ensures VotingTarget(Some("Empate - Lei 13.988/2020"), Some(resultado), CrossYear) == Some(Empate)
  {
    TieCellStrips();
  }
}
