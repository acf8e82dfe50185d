/**
 * The keyword classifier `classificar_fallback`: blank text is unproductive;
 * otherwise the lowered text is searched for the productive keywords, then for
 * the courtesy keywords, and text matching neither is unproductive by default.
 * Every exit appends exactly one entry to the audit log.
 */
module Keywords {
  import opened Text
  import opened Audit

  const Produtivo := "Produtivo"
  const Improdutivo := "Improdutivo"

  /** A category with its suggested reply. */
  datatype Classification = Classification(category: string, reply: string)

  /** Reply to blank text. */
  const BlankReply := "Obrigado pela mensagem!"
  /** Standard acknowledgment for text that asks for action. */
  const AckReply := "Olá, recebemos seu e-mail. Agradecemos o contato e iremos verificar sua solicitação. "
                  + "Retornaremos no prazo de um dia útil. Se possível, envie mais detalhes ou anexe arquivos relevantes."
  /** Reply to a courtesy message. */
  const CourtesyReply := "Agradeço a mensagem e o contato!"
  /** Reply when no keyword matches. */
  const DefaultReply := "Agradeço o contato!"

  /** `palavras_produtivas`, in scan order. */
  const Produtivas: seq<string> := [
    "status", "erro", "problema", "ajuda", "solicitação", "solicitacao",
    "anexo", "relatório", "relatorio", "suporte", "ticket", "falha",
    "incidente", "reunião", "reuniao", "agendar", "urgente", "pendente"
  ]

  /** `palavras_improdutivas`, the courtesy keywords, in scan order. */
  const Cortesias: seq<string> := [
    "obrigado", "obrigada", "feliz natal", "boas festas", "parabéns", "parabens", "abraços"
  ]

  /** `not texto or not texto.strip()`. */
  predicate IsBlank(texto: string) {
    texto == "" || Strip(texto) == ""
  }

  /** Some keyword of `keywords` occurs in `t`. */
  predicate MentionsAny(t: string, keywords: seq<string>) {
    exists j | 0 <= j < |keywords| :: Contains(t, keywords[j])
  }

  /** What `classificar_fallback(texto)` returns. */
  function Fallback(texto: string): (r: Classification)
    ensures r.category == Produtivo || r.category == Improdutivo
  {
    if IsBlank(texto) then Classification(Improdutivo, BlankReply)
    else if MentionsAny(Lower(texto), Produtivas) then Classification(Produtivo, AckReply)
    else if MentionsAny(Lower(texto), Cortesias) then Classification(Improdutivo, CourtesyReply)
    else Classification(Improdutivo, DefaultReply)
  }

  /**
   * One of the two `for p in palavras: if p in t` scans of
   * `classificar_fallback`: walks `keywords` in order and stops at the first
   * one that occurs in `t`.
   */
  method ScanKeywords(t: string, keywords: seq<string>) returns (found: bool)
    ensures found <==> MentionsAny(t, keywords)
  {
    for k := 0 to |keywords|
      invariant forall j :: 0 <= j < k ==> !Contains(t, keywords[j])
    {
      if Contains(t, keywords[k]) {
        return true;
      }
    }
    return false;
  }

  /**
   * `classificar_fallback(texto)`: returns `Fallback(texto)` and appends one
   * log entry carrying the returned category.
   */
  method ClassifyFallback(texto: string, log: Log) returns (r: Classification)
    modifies log
    ensures r == Fallback(texto)
    ensures log.entries == old(log.entries) + [LogEntry(texto, r.category)]
  {
    if texto == "" || Strip(texto) == "" {
      log.Register(texto, Improdutivo);
      return Classification(Improdutivo, BlankReply);
    }

    var t := Lower(texto);

    var productive := ScanKeywords(t, Produtivas);
    if productive {
      log.Register(texto, Produtivo);
      return Classification(Produtivo, AckReply);
    }

    var courteous := ScanKeywords(t, Cortesias);
    if courteous {
      log.Register(texto, Improdutivo);
      return Classification(Improdutivo, CourtesyReply);
    }

    log.Register(texto, Improdutivo);
    return Classification(Improdutivo, DefaultReply);
  }

  /** Every keyword begins with a character that is not white space. */
  predicate StartsWithText(keywords: seq<string>) {
    forall j :: 0 <= j < |keywords| ==> |keywords[j]| > 0 && !IsSpace(keywords[j][0])
  }

  lemma KeywordListsStartWithText()
    ensures StartsWithText(Produtivas) && StartsWithText(Cortesias)
  {
  }

  /** Text in which some keyword occurs, in any letter case, is not blank. */
  lemma {:induction false} MentionIsNotBlank(texto: string, keywords: seq<string>)
    requires StartsWithText(keywords) && MentionsAny(Lower(texto), keywords)
    ensures !IsBlank(texto)
  {
    var j :| 0 <= j < |keywords| && Contains(Lower(texto), keywords[j]);
    var i :| 0 <= i <= |Lower(texto)| - |keywords[j]| && OccursAt(Lower(texto), keywords[j], i);
    assert Lower(texto)[i] == keywords[j][0] by {
      assert Lower(texto)[i..i + |keywords[j]|][0] == keywords[j][0];
    }
    LowerCharKeepsSpace(texto[i]);
    StripEmptyIffAllSpace(texto);
  }

  /** The blank-text reply is none of the other three. */
  lemma BlankReplyDistinct()
    ensures BlankReply != AckReply && BlankReply != CourtesyReply && BlankReply != DefaultReply
  {
    assert |BlankReply| == 23 && |CourtesyReply| == 32 && |DefaultReply| == 19;
    assert |AckReply| > 23;
  }

  /** Blank text, and only blank text, gets the blank-text reply. */
  lemma BlankIff(texto: string)
    ensures AllSpace(texto) ==> Fallback(texto) == Classification(Improdutivo, BlankReply)
    ensures Fallback(texto).reply == BlankReply <==> AllSpace(texto)
  {
    StripEmptyIffAllSpace(texto);
    BlankReplyDistinct();
    if !IsBlank(texto) {
      assert Fallback(texto).reply in {AckReply, CourtesyReply, DefaultReply};
    }
  }

  /**
   * A productive keyword anywhere in the lowered text makes it productive,
   * whatever courtesy keywords it also holds, since that list is scanned first.
   */
  lemma ProductiveWins(texto: string, p: string)
    requires p in Produtivas && Contains(Lower(texto), p)
    ensures Fallback(texto) == Classification(Produtivo, AckReply)
  {
    KeywordListsStartWithText();
    MentionIsNotBlank(texto, Produtivas);
  }

  /** Text is productive exactly when it mentions a productive keyword. */
  lemma ProductiveIff(texto: string)
    ensures Fallback(texto).category == Produtivo <==> MentionsAny(Lower(texto), Produtivas)
  {
    if MentionsAny(Lower(texto), Produtivas) {
      KeywordListsStartWithText();
      MentionIsNotBlank(texto, Produtivas);
    }
  }

  /** With no productive keyword, a courtesy keyword gives the courtesy reply. */
  lemma CourtesyReplied(texto: string, p: string)
    requires p in Cortesias && Contains(Lower(texto), p)
    requires !MentionsAny(Lower(texto), Produtivas)
    ensures Fallback(texto) == Classification(Improdutivo, CourtesyReply)
  {
    KeywordListsStartWithText();
    MentionIsNotBlank(texto, Cortesias);
  }

  /** Text that is not blank and mentions no keyword gets the conservative default. */
  lemma DefaultReplied(texto: string)
    requires !AllSpace(texto)
    requires !MentionsAny(Lower(texto), Produtivas) && !MentionsAny(Lower(texto), Cortesias)
    ensures Fallback(texto) == Classification(Improdutivo, DefaultReply)
  {
    StripEmptyIffAllSpace(texto);
  }

  /** Texts that lower to the same text are blank together. */
  lemma {:induction false} SameLowerSameBlank(s1: string, s2: string)
    requires Lower(s1) == Lower(s2)
    ensures IsBlank(s1) <==> IsBlank(s2)
  {
    StripEmptyIffAllSpace(s1);
    StripEmptyIffAllSpace(s2);
    assert |s1| == |Lower(s1)| == |s2|;
    forall i | 0 <= i < |s1| ensures IsSpace(s1[i]) <==> IsSpace(s2[i]) {
      LowerCharKeepsSpace(s1[i]);
      LowerCharKeepsSpace(s2[i]);
      assert Lower(s1)[i] == Lower(s2)[i];
    }
  }

  /** The classification only depends on the lowered text. */
  lemma FallbackIgnoresCase(s1: string, s2: string)
    requires Lower(s1) == Lower(s2)
    ensures Fallback(s1) == Fallback(s2)
  {
    SameLowerSameBlank(s1, s2);
  }

  /** A keyword written in capitals is still found. */
  lemma ProductiveInCapitals(texto: string, q: string, i: int)
    requires OccursAt(texto, q, i) && Lower(q) in Produtivas
    ensures Fallback(texto) == Classification(Produtivo, AckReply)
  {
    OccursAtLower(texto, q, i);
    ProductiveWins(texto, Lower(q));
  }

  /** A productive keyword, in any letter case, between any two texts makes them productive. */
  lemma ProductiveAround(before: string, q: string, after: string)
    requires Lower(q) in Produtivas
    ensures Fallback(before + q + after) == Classification(Produtivo, AckReply)
  {
    assert (before + q + after)[|before|..|before| + |q|] == q;
    ProductiveInCapitals(before + q + after, q, |before|);
  }

  /** An urgent request for help about an error is productive. */
  lemma UrgentErrorExample()
    ensures Fallback("Preciso de ajuda com um erro urgente no sistema") == Classification(Produtivo, AckReply)
  {
    UrgentAt29();
    assert Lower("urgente") == "urgente";
    ProductiveInCapitals("Preciso de ajuda com um erro urgente no sistema", "urgente", 29);
  }

  /** Where "urgente" stands in the example text above. */
  lemma UrgentAt29()
    ensures OccursAt("Preciso de ajuda com um erro urgente no sistema", "urgente", 29)
  {
    var s := "Preciso de ajuda com um erro urgente no sistema";
    assert s[29] == 'u' && s[30] == 'r' && s[31] == 'g' && s[32] == 'e';
    assert s[33] == 'n' && s[34] == 't' && s[35] == 'e';
  }

  /** Thanks for help mention "ajuda", a productive keyword, so they are productive too. */
  lemma ThanksForHelpExample()
    ensures Fallback("Muito obrigado pela ajuda, feliz natal!") == Classification(Produtivo, AckReply)
  {
    assert "Muito obrigado pela " + "ajuda" + ", feliz natal!" == "Muito obrigado pela ajuda, feliz natal!";
    assert Lower("ajuda") == "ajuda";
    ProductiveAround("Muito obrigado pela ", "ajuda", ", feliz natal!");
  }

  /** A keyword in capitals counts: "URGENTE" is productive. */
  lemma CapitalsExample()
    ensures Fallback("URGENTE") == Classification(Produtivo, AckReply)
  {
    assert "" + "URGENTE" + "" == "URGENTE";
    assert Lower("URGENTE") == "urgente";
    ProductiveAround("", "URGENTE", "");
  }

  /** The Kelvin sign lowers to `k`, so "TIC\u212AET" holds the keyword "ticket". */
  lemma KelvinSignExample()
    ensures Fallback("TIC\U{212A}ET") == Classification(Produtivo, AckReply)
  {
    assert "" + "TIC\U{212A}ET" + "" == "TIC\U{212A}ET";
    assert Lower("TIC\U{212A}ET") == "ticket";
    ProductiveAround("", "TIC\U{212A}ET", "");
  }

  /** Every productive keyword holds one of the letters e, o, t, u, f, j. */
  lemma NoProductiveLetters(t: string)
    requires 'e' !in t && 'o' !in t && 't' !in t && 'u' !in t && 'f' !in t && 'j' !in t
    ensures !MentionsAny(t, Produtivas)
  {
    forall j | 0 <= j < |Produtivas| ensures !Contains(t, Produtivas[j]) {
      var p := Produtivas[j];
      if 'e' in p { MissingCharNotContained(t, p, 'e'); }
      else if 'o' in p { MissingCharNotContained(t, p, 'o'); }
      else if 't' in p { MissingCharNotContained(t, p, 't'); }
      else if 'u' in p { MissingCharNotContained(t, p, 'u'); }
      else if 'f' in p { MissingCharNotContained(t, p, 'f'); }
      else { MissingCharNotContained(t, p, 'j'); }
    }
  }

  /** Congratulations alone are a courtesy message. */
  lemma CongratulationsExample()
    ensures Fallback("Parabéns!") == Classification(Improdutivo, CourtesyReply)
  {
    assert Lower("Parabéns!") == "parabéns!";
    assert !MentionsAny("parabéns!", Produtivas) by {
      NoProductiveLetters("parabéns!");
    }
    assert OccursAt("parabéns!", "parabéns", 0);
    CourtesyReplied("Parabéns!", "parabéns");
  }
}
