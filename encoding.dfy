/** How a ruling becomes a feature row: the text truncation, the tax-type
    bucket, the two panel normalisations (the regular expression of the
    training scripts and the `split` of the applications), the fitted label
    encoders as lookup tables, the TF-IDF vectoriser as an opaque function of
    fixed width, and the row `[tributo_code, turma_code] ++ tfidf_row`. */
module Encoding {
  import opened Wrappers
  import opened Text
  import opened Frames

  /** Texts are cut to their first 1000 characters before vectorisation. */
  const MaxTextLength: nat := 1000

  /** The shared bucket for infrequent tax types and unrecognised panels. */
  const Other: string := "OUTROS"

  /** The feminine ordinal indicator (U+00AA) that ends a panel number, as in "3ª". */
  const Ordinal: char := '\U{AA}'

  /** Why a prediction fails and returns its error message instead. */
  datatype Failure =
    | UnseenLabel(value: string)                       // LabelEncoder.transform: label not in classes_
    | FeatureCountMismatch(expected: nat, actual: nat)  // predict_proba: wrong number of features
    | ProbabilityIndexOutOfRange(index: nat)            // probabilidades[i] past the end

  // ---------------------------------------------------------------------------
  // Text

  /** `str(texto)[:1000]`: the longest prefix of at most 1000 characters.
      The empty text (the falsy case of the applications) gives "". */
  function CleanText(texto: string): (r: string)
    ensures |r| <= MaxTextLength
    ensures |r| == if |texto| <= MaxTextLength then |texto| else MaxTextLength
    ensures r == texto[..|r|]
  {
    if |texto| <= MaxTextLength then texto else texto[..MaxTextLength]
  }

  /** Truncating an already truncated text changes nothing. */
  lemma CleanTextIdempotent(texto: string)
    ensures CleanText(CleanText(texto)) == CleanText(texto)
  {
  }

  // ---------------------------------------------------------------------------
  // Tax type

  /** `tributo if tributo in tributos_frequentes else 'OUTROS'`. */
  function BucketTributo(tributo: string, frequentes: seq<string>): (r: string)
    ensures r in frequentes || r == Other
    ensures r == tributo <==> tributo in frequentes || tributo == Other
  {
    if tributo in frequentes then tributo else Other
  }

  /** Bucketing is idempotent: a bucketed value is its own bucket. */
  lemma BucketTributoIdempotent(tributo: string, frequentes: seq<string>)
    ensures BucketTributo(BucketTributo(tributo, frequentes), frequentes) == BucketTributo(tributo, frequentes)
  {
  }

  // ---------------------------------------------------------------------------
  // Panel: the applications' `split`

  /** `s.split(c)[0]`: everything before the first `c`, or all of `s`. */
  function SplitFirst(s: string, c: char): (r: string)
    ensures c !in r
    ensures |r| <= |s| && r == s[..|r|]
    ensures |r| < |s| <==> c in s
    ensures |r| < |s| ==> s[|r|] == c
  {
    s[..IndexOf(s, c)]
  }

  /** `str(turma).split('ª')[0] + 'ª' if 'ª' in str(turma) else 'OUTROS'`. */
  function PanelToken(turma: string): string {
    if Ordinal in turma then SplitFirst(turma, Ordinal) + [Ordinal] else Other
  }

  /** The panel token is the prefix of the panel up to and including its first
      'ª', or `OUTROS` when there is none. */
  lemma PanelTokenShape(turma: string)
    ensures Ordinal !in turma ==> PanelToken(turma) == Other
    ensures Ordinal in turma ==>
      var r := PanelToken(turma);
      && 1 <= |r| <= |turma| && r == turma[..|r|]
      && r[|r| - 1] == Ordinal && Ordinal !in r[..|r| - 1]
  {
    if Ordinal in turma {
      var p := SplitFirst(turma, Ordinal);
      var r := PanelToken(turma);
      assert r[..|r| - 1] == p;
      assert turma[..|r|] == turma[..|p|] + [turma[|p|]];
    }
  }

  // ---------------------------------------------------------------------------
  // Panel: the training scripts' `str.extract(r'(\d+ª)')[0].fillna('OUTROS')`

  /** The end of the run of digits that starts at `i`. */
  function DigitRunEnd(s: string, i: nat): (j: nat)
    requires i <= |s|
    ensures i <= j <= |s|
    ensures forall k :: i <= k < j ==> IsDigit(s[k])
    ensures j == |s| || !IsDigit(s[j])
    decreases |s| - i
  {
    if i < |s| && IsDigit(s[i]) then DigitRunEnd(s, i + 1) else i
  }

  /** `\d+ª` matches at `i`. The greedy digit run can only be followed by the
      'ª' where the run ends, because a digit is not 'ª'. */
  predicate MatchesAt(s: string, i: nat) {
    i < |s| && IsDigit(s[i]) && DigitRunEnd(s, i) < |s| && s[DigitRunEnd(s, i)] == Ordinal
  }

  /** The leftmost position at or after `i` where the pattern matches. */
  function FirstMatch(s: string, i: nat): (k: Option<nat>)
    requires i <= |s|
    ensures k.Some? ==> i <= k.value && MatchesAt(s, k.value)
    ensures k.Some? ==> forall j :: i <= j < k.value ==> !MatchesAt(s, j)
    ensures k.None? ==> forall j :: i <= j ==> !MatchesAt(s, j)
    decreases |s| - i
  {
    if i == |s| then None
    else if MatchesAt(s, i) then Some(i)
    else FirstMatch(s, i + 1)
  }

  /** A panel number: one or more digits followed by 'ª'. */
  predicate IsOrdinalToken(t: string) {
    |t| >= 2 && t[|t| - 1] == Ordinal && forall k :: 0 <= k < |t| - 1 ==> IsDigit(t[k])
  }

  /** The training-time panel token: the leftmost match of `\d+ª`, or `OUTROS`
      when the panel is missing or has no match. */
  function RegexToken(turma: Option<string>): (r: string)
    ensures r == Other || IsOrdinalToken(r)
    ensures r != Other ==> turma.Some? && Contains(turma.value, r)
  {
    if turma.None? then Other
    else
      var s := turma.value;
      match FirstMatch(s, 0)
      case None => Other
      case Some(i) =>
        var r := s[i..DigitRunEnd(s, i) + 1];
        assert OccursAt(s, r, i);
        assert r[|r| - 1] == s[DigitRunEnd(s, i)];
        r
  }

  /** `str.extract` with `fillna`: the token is `OUTROS` exactly when the
      pattern matches nowhere, and otherwise it is the match at the leftmost
      position where the pattern matches. */
  lemma RegexTokenLeftmost(s: string)
    ensures RegexToken(Some(s)) == Other <==> forall j :: 0 <= j < |s| ==> !MatchesAt(s, j)
    ensures RegexToken(Some(s)) != Other ==>
      exists i :: 0 <= i < |s| && MatchesAt(s, i) && (forall j :: 0 <= j < i ==> !MatchesAt(s, j)) &&
        RegexToken(Some(s)) == s[i..DigitRunEnd(s, i) + 1]
  {
    match FirstMatch(s, 0)
    case None =>
    case Some(i) =>
      var r := s[i..DigitRunEnd(s, i) + 1];
      assert RegexToken(Some(s)) == r;
      assert r[|r| - 1] == Ordinal;
      assert Other[|Other| - 1] != Ordinal;
  }

  /** A panel that starts with its number. */
  predicate StartsWithOrdinal(turma: string) {
    MatchesAt(turma, 0)
  }

  /** The two normalisations agree on a panel that starts with digits followed
      by 'ª': both give that prefix. */
  lemma PanelTokensAgree(turma: string)
    requires StartsWithOrdinal(turma)
    ensures PanelToken(turma) == RegexToken(Some(turma)) == turma[..DigitRunEnd(turma, 0) + 1]
  {
    var j := DigitRunEnd(turma, 0);
    var k := IndexOf(turma, Ordinal);
    assert turma[j] == Ordinal;
    assert k == j;
    assert FirstMatch(turma, 0) == Some(0);
    assert turma[..j + 1] == turma[..j] + [Ordinal];
  }

  /** Helper: a digit run of known length. */
  lemma {:induction false} DigitRunOf(s: string, i: nat, n: nat)
    requires i <= n < |s|
    requires forall k :: i <= k < n ==> IsDigit(s[k])
    requires !IsDigit(s[n])
    ensures DigitRunEnd(s, i) == n
    decreases n - i
  {
    if i < n {
      DigitRunOf(s, i + 1, n);
    }
  }

  /** Helper: a panel whose first `n` characters are digits and whose next one
      is 'ª' starts with its number. */
  lemma OrdinalPrefix(s: string, n: nat)
    requires 1 <= n < |s|
    requires forall k :: 0 <= k < n ==> IsDigit(s[k])
    requires s[n] == Ordinal
    ensures StartsWithOrdinal(s) && DigitRunEnd(s, 0) == n
  {
    DigitRunOf(s, 0, n);
  }

  /** The normalisations disagree when the number is not at the start: the
      applications keep everything up to the 'ª', the training scripts only
      the number, so the encoder fitted in training has not seen the token. */
  lemma PanelTokensDisagree()
    ensures PanelToken("TURMA 3\U{AA}") == "TURMA 3\U{AA}"
    ensures RegexToken(Some("TURMA 3\U{AA}")) == "3\U{AA}"
  {
    SplitWhole("TURMA 3\U{AA}");
    RegexTokenOfTurma3();
  }

  /** Helper: a panel whose only 'ª' is its last character is its own token. */
  lemma SplitWhole(s: string)
    requires |s| >= 1 && s[|s| - 1] == Ordinal && Ordinal !in s[..|s| - 1]
    ensures PanelToken(s) == s
  {
    var p := SplitFirst(s, Ordinal);
    assert |p| == |s| - 1;
    assert s == s[..|s| - 1] + [Ordinal];
  }

  lemma RegexTokenOfTurma3()
    ensures RegexToken(Some("TURMA 3\U{AA}")) == "3\U{AA}"
  {
    var s := "TURMA 3\U{AA}";
    DigitRunOf(s, 6, 7);
    assert FirstMatch(s, 6) == Some(6);
    assert FirstMatch(s, 5) == Some(6);
    assert FirstMatch(s, 4) == Some(6);
    assert FirstMatch(s, 3) == Some(6);
    assert FirstMatch(s, 2) == Some(6);
    assert FirstMatch(s, 1) == Some(6);
    assert FirstMatch(s, 0) == Some(6);
  }

  /** And a panel whose 'ª' follows no digit is `OUTROS` in training but not in
      the applications. */
  lemma OrdinalWithoutNumberDisagrees()
    ensures PanelToken("TE-\U{AA}") == "TE-\U{AA}"
    ensures RegexToken(Some("TE-\U{AA}")) == Other
  {
    var s := "TE-\U{AA}";
    assert IndexOf(s, Ordinal) == 3 by {
      assert Ordinal !in s[..3];
    }
    assert !MatchesAt(s, 3);
    assert FirstMatch(s, 4) == None;
    assert FirstMatch(s, 3) == None;
    assert FirstMatch(s, 2) == None;
    assert FirstMatch(s, 1) == None;
    assert FirstMatch(s, 0) == None;
  }

  /** The panels offered by the 2023/2024 application (its selection list also
      covers every panel of the 2023/2024 demonstration). */
  const OfferedPanels2023: seq<string> := [
    "3\U{AA} TE-2\U{AA}SE\U{C7}\U{C3}O-2003-CARF-MF-DF",
    "02\U{AA} TO-04\U{AA}C\U{C2}MARA-02\U{AA}SE\U{C7}\U{C3}O-CARF-MF-DF",
    "02\U{AA} TO-04\U{AA}C\U{C2}MARA-03\U{AA}SE\U{C7}\U{C3}O-CARF-MF-DF",
    "01\U{AA} TO-03\U{AA}C\U{C2}MARA-03\U{AA}SE\U{C7}\U{C3}O-CARF-MF-DF",
    "01\U{AA} TO-02\U{AA}C\U{C2}MARA-03\U{AA}SE\U{C7}\U{C3}O-CARF-MF-DF",
    "01\U{AA} TO-02\U{AA}C\U{C2}MARA-02\U{AA}SE\U{C7}\U{C3}O-CARF-MF-DF",
    "1\U{AA} TE-2\U{AA}SE\U{C7}\U{C3}O-2001-CARF-MF-DF",
    "01\U{AA} TO-04\U{AA}C\U{C2}MARA-03\U{AA}SE\U{C7}\U{C3}O-CARF-MF-DF",
    "02\U{AA} TO-03\U{AA}C\U{C2}MARA-03\U{AA}SE\U{C7}\U{C3}O-CARF-MF-DF",
    "03\U{AA} TURMA-CSRF-CARF-MF-DF"
  ]

  /** The panels offered by the first application (its list also covers every
      panel of the first demonstration). */
  const OfferedPanels: seq<string> := [
    "1\U{AA} TE-1\U{AA}SE\U{C7}\U{C3}O-1001-CARF-MF-DF",
    "2\U{AA} TE-1\U{AA}SE\U{C7}\U{C3}O-1002-CARF-MF-DF",
    "01\U{AA} TO-02\U{AA}C\U{C2}MARA-02\U{AA}SE\U{C7}\U{C3}O-CARF-MF-DF",
    "02\U{AA} TO-02\U{AA}CAMARA-02\U{AA}SE\U{C7}\U{C3}O-CARF-MF-DF",
    "03\U{AA} TURMA-CSRF-CARF-MF-DF",
    "1\U{AA} TE-3\U{AA}SE\U{C7}\U{C3}O-3001-CARF-MF-DF"
  ]

  /** Every panel the applications offer starts with its number, so for those
      the application token equals the training token. */
  lemma OfferedPanelsAgree()
    ensures forall k :: 0 <= k < |OfferedPanels2023| ==>
      PanelToken(OfferedPanels2023[k]) == RegexToken(Some(OfferedPanels2023[k]))
    ensures forall k :: 0 <= k < |OfferedPanels| ==>
      PanelToken(OfferedPanels[k]) == RegexToken(Some(OfferedPanels[k]))
  {
    forall k | 0 <= k < |OfferedPanels2023|
      ensures StartsWithOrdinal(OfferedPanels2023[k])
    {
      var s := OfferedPanels2023[k];
      if k == 0 || k == 6 { OrdinalPrefix(s, 1); } else { OrdinalPrefix(s, 2); }
    }
    forall k | 0 <= k < |OfferedPanels|
      ensures StartsWithOrdinal(OfferedPanels[k])
    {
      var s := OfferedPanels[k];
      if k == 2 || k == 3 || k == 4 { OrdinalPrefix(s, 2); } else { OrdinalPrefix(s, 1); }
    }
    forall k | 0 <= k < |OfferedPanels2023|
      ensures PanelToken(OfferedPanels2023[k]) == RegexToken(Some(OfferedPanels2023[k]))
    {
      PanelTokensAgree(OfferedPanels2023[k]);
    }
    forall k | 0 <= k < |OfferedPanels|
      ensures PanelToken(OfferedPanels[k]) == RegexToken(Some(OfferedPanels[k]))
    {
      PanelTokensAgree(OfferedPanels[k]);
    }
  }

  // ---------------------------------------------------------------------------
  // Label encoders

  /** `LabelEncoder.fit`: the table of the distinct labels seen. */
  function FitClasses(labels: seq<string>): (classes: seq<string>)
    ensures NoDuplicates(classes)
    ensures forall i :: 0 <= i < |labels| ==> labels[i] in classes
    ensures forall i :: 0 <= i < |classes| ==> classes[i] in labels
  {
    Distinct(labels)
  }

  /** `LabelEncoder.transform([v])[0]`: the position of `v` in the table, or
      the error sklearn raises for a label it has not seen. */
  function Transform(classes: seq<string>, v: string): (r: Result<nat, Failure>)
    ensures r.Ok? <==> v in classes
    ensures r.Ok? ==> r.value < |classes| && classes[r.value] == v
    ensures r.Err? ==> r.error == UnseenLabel(v)
  {
    if v in classes then Ok(IndexOf(classes, v)) else Err(UnseenLabel(v))
  }

  /** In a duplicate-free table the code of a label is its only position:
      `inverse_transform` and `transform` are inverse to each other. */
  lemma TransformInverse(classes: seq<string>, code: nat)
    requires NoDuplicates(classes) && code < |classes|
    ensures Transform(classes, classes[code]) == Ok(code)
  {
  }

  // ---------------------------------------------------------------------------
  // Feature rows

  /** A fitted TF-IDF vectoriser, seen from outside: every text maps to a row
      of `width` weights (the vocabulary size). */
  datatype Vectorizer = Vectorizer(width: nat, transform: string -> seq<real>)

  ghost predicate WellFormed(v: Vectorizer) {
    forall t :: |v.transform(t)| == v.width
  }

  /** `np.hstack([[tributo_encoded, turma_encoded], texto_tfidf[0]])`. */
  function AssembleRow(tributoCode: nat, turmaCode: nat, tfidfRow: seq<real>): (row: seq<real>)
    ensures |row| == 2 + |tfidfRow|
    ensures row[0] == tributoCode as real && row[1] == turmaCode as real
    ensures row[2..] == tfidfRow
  {
    [tributoCode as real, turmaCode as real] + tfidfRow
  }

  /** `features_categoricas + [f'tfidf_{i}' for i in range(width)]`. */
  function FeatureNames(width: nat): seq<string> {
    ["tributo_encoded", "turma_encoded"] + seq(width, i requires 0 <= i < width => "tfidf_" + NatToString(i))
  }

  /** The feature names are as many as the columns of a row, the two category
      columns first, then one name per TF-IDF column, all distinct. */
  lemma FeatureNamesShape(width: nat)
    ensures |FeatureNames(width)| == 2 + width
    ensures FeatureNames(width)[0] == "tributo_encoded" && FeatureNames(width)[1] == "turma_encoded"
    ensures forall i :: 0 <= i < width ==> FeatureNames(width)[2 + i] == "tfidf_" + NatToString(i)
    ensures NoDuplicates(FeatureNames(width))
  {
    var names := FeatureNames(width);
    forall i, j | 0 <= i < j < |names|
      ensures names[i] != names[j]
    {
      if i >= 2 {
        if names[i] == names[j] {
          var a := NatToString(i - 2);
          var b := NatToString(j - 2);
          assert a == names[i][6..];
          assert b == names[j][6..];
          NatToStringInjective(i - 2, j - 2);
        }
      } else if j >= 2 {
        assert names[j][1] == 'f';
        assert names[i][1] != 'f';
      }
    }
  }

  /** The feature names describe the rows `AssembleRow` builds. */
  lemma FeatureNamesMatchRows(v: Vectorizer, tributoCode: nat, turmaCode: nat, texto: string)
    requires WellFormed(v)
    ensures |FeatureNames(v.width)| == |AssembleRow(tributoCode, turmaCode, v.transform(texto))|
  {
    FeatureNamesShape(v.width);
  }
}
