/** The prompt builder: `get_procedure_specific_prompt` and the prompt
    f-string of `get_gpt_estimate` (app.py). */
module PromptBuilder {
  import opened PyValue
  import opened Schema

  /** The elaboration table: exact procedure names and their guidance text. */
  const Procedures: map<string, string> := map[
    "Appendectomy" :=
      "Include information about laparoscopic vs. open "
      + "procedures, typical hospital stay duration, and potential "
      + "complications such as infection or abscess.",
    "Colonoscopy" :=
      "Include information about sedation options, polyp removal "
      + "costs, and the importance of follow-up appointments.",
    "Hip Replacement" :=
      "Discuss different types of implants (ceramic, metal, "
      + "plastic), rehabilitation costs, and potential "
      + "complications like dislocation or infection.",
    "Knee Replacement" :=
      "Include information about partial vs. total knee "
      + "replacement, rehabilitation costs, and potential "
      + "complications like blood clots or infection.",
    "MRI Scan" :=
      "Discuss differences in costs for various body parts, "
      + "contrast vs. non-contrast scans, and potential additional "
      + "readings or interpretations.",
    "CT Scan" :=
      "Include information about contrast vs. non-contrast scans, "
      + "radiation exposure, and potential additional costs for "
      + "specialized CT procedures.",
    "Cataract Surgery" :=
      "Discuss different types of intraocular lenses, potential "
      + "need for glasses post-surgery, and follow-up care costs.",
    "Childbirth (Vaginal Delivery)" :=
      "Include information about epidural costs, potential "
      + "complications like C-section conversion, and postpartum "
      + "care.",
    "Childbirth (C-Section)" :=
      "Discuss planned vs. emergency C-section costs, longer "
      + "hospital stay, and potential complications like infection "
      + "or blood loss.",
    "Dental Cleaning" :=
      "Include information about basic cleaning vs. deep "
      + "cleaning, potential X-ray costs, and frequency "
      + "recommendations.",
    "Root Canal" :=
      "Discuss costs for different types of teeth (molars vs. "
      + "front teeth), potential need for a crown, and follow-up "
      + "visits.",
    "Dental Crown" :=
      "Include information about different materials (porcelain, "
      + "metal, ceramic), preparation costs, and temporary crown "
      + "expenses.",
    "Tooth Extraction" :=
      "Discuss simple vs. surgical extraction costs, potential "
      + "need for sedation, and post-extraction care.",
    "Physical Therapy Initial Evaluation" :=
      "Include information about assessment duration, potential "
      + "tests or measurements, and treatment plan development.",
    "Physical Therapy Follow-up Session" :=
      "Discuss typical session duration, potential equipment or "
      + "modality costs, and at-home exercise recommendations.",
    "Annual Physical Exam" :=
      "Include information about routine lab work, potential "
      + "vaccinations, and preventive screenings based on age and "
      + "gender.",
    "Mammogram" :=
      "Discuss 2D vs. 3D mammography costs, potential need for "
      + "additional imaging, and frequency recommendations.",
    "Flu Shot" :=
      "Include information about different vaccine types "
      + "(standard, high-dose for seniors), potential side effects, "
      + "and effectiveness.",
    "Cholesterol Screening" :=
      "Discuss fasting vs. non-fasting tests, additional lipid "
      + "panel components, and frequency recommendations based on "
      + "risk factors."
  ]

  /** The guidance for every procedure name the table does not hold. */
  const Fallback :=
    "Provide detailed information about the procedure, "
    + "including common variations, potential complications, and "
    + "factors that might affect the cost."

  /** `get_procedure_specific_prompt`: an exact, case-sensitive dict lookup
      with a fixed fallback. A key that is not a string never matches. */
  function Elaboration(procedure: Json): (r: string)
    ensures procedure.JStr? && procedure.s in Procedures ==> r == Procedures[procedure.s]
    ensures !(procedure.JStr? && procedure.s in Procedures) ==> r == Fallback
  {
    if procedure.JStr? && procedure.s in Procedures then Procedures[procedure.s] else Fallback
  }

  /** Only the hip replacement text is as long as the fallback text. */
  lemma OnlyHipMatchesLength(k: string)
    requires k in Procedures && k != "Hip Replacement"
    ensures |Procedures[k]| != |Fallback|
  {
    assert |Fallback| == 143;
  }

  /** The hip replacement text ends in "infection." where the fallback
      ends in "cost.". */
  lemma HipDiffersFromFallback()
    ensures Procedures["Hip Replacement"] != Fallback
  {
    assert Fallback[141] == 't';
    assert Procedures["Hip Replacement"][141] == 'n';
  }

  /** The fallback text is not the guidance of any listed procedure. */
  lemma FallbackIsNoEntry()
    ensures Fallback !in Procedures.Values
  {
    forall k | k in Procedures ensures Procedures[k] != Fallback {
      if k == "Hip Replacement" {
        HipDiffersFromFallback();
      } else {
        OnlyHipMatchesLength(k);
      }
    }
  }

  /** The fallback is given exactly to the values the table does not list. */
  lemma FallbackIff(procedure: Json)
    ensures Elaboration(procedure) == Fallback <==> !(procedure.JStr? && procedure.s in Procedures)
  {
    FallbackIsNoEntry();
  }

  /** ASCII lower-casing, to state what a case variant of a name is. */
  function AsciiLower(s: string): (r: string)
    ensures |r| == |s|
    ensures forall i :: 0 <= i < |s| ==> r[i] == if 'A' <= s[i] <= 'Z' then s[i] - 'A' + 'a' else s[i]
  {
    seq(|s|, i requires 0 <= i < |s| => if 'A' <= s[i] <= 'Z' then s[i] - 'A' + 'a' else s[i])
  }

  /** Every listed name starts with a capital letter. */
  lemma NamesAreCapitalised()
    ensures forall k :: k in Procedures ==> |k| > 0 && 'A' <= k[0] <= 'Z'
  {
  }

  /** A name that starts with a small letter is never listed. */
  lemma SmallInitialFallsBack(s: string)
    requires |s| > 0 && 'a' <= s[0] <= 'z'
    ensures s !in Procedures
    ensures Elaboration(JStr(s)) == Fallback
  {
    NamesAreCapitalised();
  }

  /** Matching is case-sensitive: the lower-cased form of a capitalised
      name, as every listed name is (NamesAreCapitalised), is not listed, so it gets the fallback and never another entry's text. */
  lemma CaseVariantFallsBack(name: string)
    requires |name| > 0 && 'A' <= name[0] <= 'Z'
    ensures AsciiLower(name) !in Procedures
    ensures Elaboration(JStr(AsciiLower(name))) == Fallback
  {
    var lower := AsciiLower(name);
    assert 'a' <= lower[0] <= 'z';
    SmallInitialFallsBack(lower);
  }

  /** Any name outside the table, and any non-string value, gets the
      fallback text, which differs from every table entry. */
  lemma UnlistedFallsBack(procedure: Json)
    requires !(procedure.JStr? && procedure.s in Procedures)
    ensures Elaboration(procedure) == Fallback
    ensures forall k :: k in Procedures ==> Elaboration(procedure) != Procedures[k]
  {
    FallbackIsNoEntry();
  }

  /* ---- The prompt text ---- */

  /** The line break and indentation that the triple-quoted f-string keeps
      between its lines. */
  const Indent := "\n        "

  function Quote(k: string): string {
    "'" + k + "'"
  }

  /** The fixed schema instructions that close the prompt, line by line,
      each line as the pieces it is made of. */
  const KeysLine1: seq<string> := [
    Quote(ProcedureNameKey), ", ", Quote(ProcedureCodeKey), ", ", Quote(ZipCodeKey), ", ",
    Quote(LowEstimateKey), ", ", Quote(HighEstimateKey), ", ", Quote(InsuranceCostKey), ","
  ]

  const KeysLine2: seq<string> := [
    Quote(ComplicationsKey), ", ", Quote(AlternativesKey), ", ", Quote(RecoveryInfoKey), ", ",
    Quote(AdditionalInfoKey), "."
  ]

  const ComplicationsLine: seq<string> := [
    "For ", Quote(ComplicationsKey), ", provide an array of objects, each containing ",
    Quote(NameKey), " and ", Quote(EstimatedCostKey), "."
  ]

  const AlternativesLine: seq<string> := [
    "For ", Quote(AlternativesKey), ", provide an array of objects, each containing ",
    Quote(NameKey), " and ", Quote(CostRangeKey), " (an array with two numbers)."
  ]

  const RecoveryLine: seq<string> := [
    "For ", Quote(RecoveryInfoKey), ", provide an object with ",
    Quote(EstimatedTimeKey), " and ", Quote(AssociatedCostsKey), "."
  ]

  const SchemaLines: seq<string> := [
    "Provide the estimate as a JSON object with the following keys:", Indent,
    Concat(KeysLine1), Indent,
    Concat(KeysLine2), Indent,
    Concat(ComplicationsLine), Indent,
    Concat(AlternativesLine), Indent,
    Concat(RecoveryLine), Indent,
    "All cost values should be positive numbers without currency symbols.", Indent,
    "Use null for any information that is not applicable or cannot be determined."
  ]

  function Concat(segments: seq<string>): string {
    if segments == [] then "" else segments[0] + Concat(segments[1..])
  }

  /** `s` holds `t` at offset `k`. */
  predicate OccursAt(t: string, s: string, k: nat) {
    k + |t| <= |s| && s[k..k + |t|] == t
  }

  /** `t` occurs in `s` as a contiguous substring. */
  predicate Occurs(t: string, s: string) {
    exists k: nat | k <= |s| :: OccursAt(t, s, k)
  }

  lemma OccursInAppend(t: string, a: string, b: string)
    ensures Occurs(t, a) ==> Occurs(t, a + b)
    ensures Occurs(t, b) ==> Occurs(t, a + b)
  {
    if Occurs(t, a) {
      var k: nat :| k <= |a| && OccursAt(t, a, k);
      assert (a + b)[k..k + |t|] == t;
      assert OccursAt(t, a + b, k);
    }
    if Occurs(t, b) {
      var k: nat :| k <= |b| && OccursAt(t, b, k);
      assert (a + b)[|a| + k..|a| + k + |t|] == t;
      assert OccursAt(t, a + b, |a| + k);
    }
  }

  /** What occurs in a piece occurs in the joined text. */
  lemma {:induction false} ConcatContains(segments: seq<string>, i: nat, t: string)
    requires i < |segments| && Occurs(t, segments[i])
    ensures Occurs(t, Concat(segments))
  {
    if i == 0 {
      OccursInAppend(t, segments[0], Concat(segments[1..]));
    } else {
      ConcatContains(segments[1..], i - 1, t);
      OccursInAppend(t, segments[0], Concat(segments[1..]));
    }
  }

  lemma OccursTransitive(t: string, m: string, s: string)
    requires Occurs(t, m) && Occurs(m, s)
    ensures Occurs(t, s)
  {
    var i: nat :| i <= |m| && OccursAt(t, m, i);
    var j: nat :| j <= |s| && OccursAt(m, s, j);
    forall x | 0 <= x < |t|
      ensures s[j + i..j + i + |t|][x] == t[x]
    {
      assert s[j + i + x] == s[j..j + |m|][i + x];
      assert t[x] == m[i..i + |t|][x];
    }
    assert s[j + i..j + i + |t|] == t;
    assert OccursAt(t, s, j + i);
  }

  lemma OccursInItself(t: string)
    ensures Occurs(t, t)
  {
    assert OccursAt(t, t, 0);
  }

  /** The schema instructions as one text. */
  const SchemaText := Concat(SchemaLines)

  lemma DropPrefix(a: string, b: string)
    ensures (a + b)[|a|..] == b
    ensures (a + b)[..|a|] == a
  {
  }

  /** The first line: "Estimate the cost of {procedure} in ZIP code {zip_code}." */
  function Opening(procedure: Json, zipCode: Json, lib: Builtins): string
    requires Hashable(procedure) && Hashable(zipCode)
  {
    "Estimate the cost of " + Str(procedure, lib) + " in ZIP code " + Str(zipCode, lib) + "."
  }

  /** The clause that names the procedure code. */
  function CodeSentence(code: Json, lib: Builtins): string
    requires Hashable(code)
  {
    "The procedure code is " + Str(code, lib) + "."
  }

  /** The second line: the code sentence only when `procedure_code` is truthy. */
  function CodeClause(code: Json, lib: Builtins): string
    requires Hashable(code)
  {
    if Truthy(code) then CodeSentence(code, lib) else ""
  }

  /** The f-string's lines joined: opening, code clause, elaboration, schema. */
  function Layout(opening: string, clause: string, elaboration: string, schema: string): (text: string)
    ensures |text| == |opening| + |clause| + |elaboration| + |schema| + 3 * |Indent|
  {
    opening + (Indent + (clause + (Indent + (elaboration + (Indent + schema)))))
  }

  /** The prompt the f-string of `get_gpt_estimate` builds around the
      elaboration it has looked up. */
  function Prompt(procedure: Json, zipCode: Json, code: Json, elaboration: string, lib: Builtins): (r: string)
    requires Hashable(procedure) && Hashable(zipCode) && Hashable(code)
    ensures |r| >= |Opening(procedure, zipCode, lib)| + |Indent|
  {
    Layout(Opening(procedure, zipCode, lib), CodeClause(code, lib), elaboration, SchemaText)
  }

  /** The first two steps of `get_gpt_estimate`: look up the elaboration,
      then build the prompt around it. */
  function RequestPrompt(procedure: Json, zipCode: Json, code: Json, lib: Builtins): string
    requires Hashable(procedure) && Hashable(zipCode) && Hashable(code)
  {
    Prompt(procedure, zipCode, code, Elaboration(procedure), lib)
  }

  /** Where the second line of the prompt starts. */
  function CodeLineStart(procedure: Json, zipCode: Json, lib: Builtins): nat
    requires Hashable(procedure) && Hashable(zipCode)
  {
    |Opening(procedure, zipCode, lib)| + |Indent|
  }

  predicate StartsWith(s: string, prefix: string) {
    |prefix| <= |s| && s[..|prefix|] == prefix
  }

  /** The parts of a layout, found where they were put. */
  lemma LayoutParts(opening: string, clause: string, elaboration: string, schema: string)
    ensures var text := Layout(opening, clause, elaboration, schema);
      && StartsWith(text, opening)
      && text[|opening| + |Indent|..] == clause + (Indent + (elaboration + (Indent + schema)))
      && Occurs(elaboration, text)
      && Occurs(schema, text)
  {
    var text := Layout(opening, clause, elaboration, schema);
    var rest := Indent + (clause + (Indent + (elaboration + (Indent + schema))));
    DropPrefix(opening, rest);
    DropPrefix(Indent, clause + (Indent + (elaboration + (Indent + schema))));
    var before := opening + (Indent + (clause + Indent));
    assert text == before + (elaboration + (Indent + schema));
    OccursInItself(elaboration);
    OccursInAppend(elaboration, elaboration, Indent + schema);
    OccursInAppend(elaboration, before, elaboration + (Indent + schema));
    var head := before + (elaboration + Indent);
    assert text == head + schema;
    OccursInItself(schema);
    OccursInAppend(schema, head, schema);
  }

  /** A text that starts with a line break does not start with `sentence`,
      whose first character is not one. */
  lemma NotStartsWith(line: string, sentence: string)
    requires |line| > 0 && line[0] == '\n'
    requires |sentence| > 0 && sentence[0] != '\n'
    ensures !StartsWith(line, sentence)
  {
    if |sentence| <= |line| {
      assert line[..|sentence|][0] != sentence[0];
    }
  }

  /** The second line of a layout whose clause is either `sentence` or
      empty: it starts with `sentence` exactly when that is the clause, and
      with the next line break otherwise. */
  lemma LayoutClauseLine(opening: string, clause: string, elaboration: string, schema: string, sentence: string)
    requires clause == sentence || clause == ""
    requires |sentence| > 0 && sentence[0] != '\n'
    ensures var text := Layout(opening, clause, elaboration, schema);
      var line := text[|opening| + |Indent|..];
      && (StartsWith(line, sentence) <==> clause == sentence)
      && (clause == "" ==> StartsWith(line, Indent))
      && (clause == sentence ==> OccursAt(sentence, text, |opening| + |Indent|))
  {
    var text := Layout(opening, clause, elaboration, schema);
    var at := |opening| + |Indent|;
    var rest := Indent + (elaboration + (Indent + schema));
    LayoutParts(opening, clause, elaboration, schema);
    DropPrefix(clause, rest);
    DropPrefix(Indent, elaboration + (Indent + schema));
    if clause == "" {
      assert text[at..] == rest;
      NotStartsWith(rest, sentence);
    } else {
      assert text[at..][..|sentence|] == text[at..at + |sentence|];
    }
  }

  /** The code sentence opens with "The". */
  lemma SentenceInitial(code: Json, lib: Builtins)
    requires Hashable(code)
    ensures |CodeSentence(code, lib)| > 0 && CodeSentence(code, lib)[0] == 'T'
  {
  }

  /** The second line of the prompt begins with "The procedure code is X."
      if and only if `procedure_code` is truthy; otherwise the line is empty
      and the next line break follows at once. */
  lemma CodeSentenceIff(procedure: Json, zipCode: Json, code: Json, elaboration: string, lib: Builtins)
    requires Hashable(procedure) && Hashable(zipCode) && Hashable(code)
    ensures var line := Prompt(procedure, zipCode, code, elaboration, lib)[CodeLineStart(procedure, zipCode, lib)..];
      && (StartsWith(line, CodeSentence(code, lib)) <==> Truthy(code))
      && (!Truthy(code) ==> StartsWith(line, Indent))
  {
    SentenceInitial(code, lib);
    LayoutClauseLine(Opening(procedure, zipCode, lib), CodeClause(code, lib), elaboration,
                     SchemaText, CodeSentence(code, lib));
  }

  /** A truthy code is named in the prompt; all falsy codes (an empty
      string, null, false, 0) give the same prompt. */
  lemma CodeMentionedWhenTruthy(procedure: Json, zipCode: Json, code: Json, elaboration: string, lib: Builtins)
    requires Hashable(procedure) && Hashable(zipCode) && Hashable(code)
    ensures Truthy(code) ==> Occurs(CodeSentence(code, lib), Prompt(procedure, zipCode, code, elaboration, lib))
    ensures !Truthy(code) ==> Prompt(procedure, zipCode, code, elaboration, lib) == Prompt(procedure, zipCode, JStr(""), elaboration, lib)
  {
    if Truthy(code) {
      SentenceInitial(code, lib);
      LayoutClauseLine(Opening(procedure, zipCode, lib), CodeClause(code, lib), elaboration,
                       SchemaText, CodeSentence(code, lib));
    }
  }

  /** The prompt opens with the procedure and the ZIP code and carries the
      procedure's elaboration and the schema instructions. */
  lemma PromptEmbedsRequest(procedure: Json, zipCode: Json, code: Json, elaboration: string, lib: Builtins)
    requires Hashable(procedure) && Hashable(zipCode) && Hashable(code)
    ensures var prompt := Prompt(procedure, zipCode, code, elaboration, lib);
      && StartsWith(prompt, "Estimate the cost of " + Str(procedure, lib) + " in ZIP code " + Str(zipCode, lib) + ".")
      && Occurs(elaboration, prompt)
      && Occurs(SchemaText, prompt)
  {
    LayoutParts(Opening(procedure, zipCode, lib), CodeClause(code, lib), elaboration, SchemaText);
  }

  /** The prompt a request gets carries the procedure's own paragraph when
      the name is listed exactly, and the generic paragraph otherwise. */
  lemma RequestPromptGuidance(procedure: Json, zipCode: Json, code: Json, lib: Builtins)
    requires Hashable(procedure) && Hashable(zipCode) && Hashable(code)
    ensures procedure.JStr? && procedure.s in Procedures ==>
      Occurs(Procedures[procedure.s], RequestPrompt(procedure, zipCode, code, lib))
    ensures !(procedure.JStr? && procedure.s in Procedures) ==>
      Occurs(Fallback, RequestPrompt(procedure, zipCode, code, lib))
  {
    PromptEmbedsRequest(procedure, zipCode, code, Elaboration(procedure), lib);
  }

  /** A piece of a line that is a quoted key puts the key, quoted, in the
      schema text. */
  lemma PieceQuoted(line: nat, pieces: seq<string>, i: nat, k: string)
    requires line < |SchemaLines| && SchemaLines[line] == Concat(pieces)
    requires i < |pieces| && pieces[i] == Quote(k)
    ensures Occurs(Quote(k), SchemaText)
  {
    OccursInItself(Quote(k));
    ConcatContains(pieces, i, Quote(k));
    ConcatContains(SchemaLines, line, Quote(k));
  }

  /** The two key lines quote each of the ten top-level keys. */
  lemma SchemaQuotesTopLevelKey(k: string)
    requires k in TopLevelKeys
    ensures Occurs(Quote(k), SchemaText)
  {
    if k == ProcedureNameKey { PieceQuoted(2, KeysLine1, 0, k); }
    else if k == ProcedureCodeKey { PieceQuoted(2, KeysLine1, 2, k); }
    else if k == ZipCodeKey { PieceQuoted(2, KeysLine1, 4, k); }
    else if k == LowEstimateKey { PieceQuoted(2, KeysLine1, 6, k); }
    else if k == HighEstimateKey { PieceQuoted(2, KeysLine1, 8, k); }
    else if k == InsuranceCostKey { PieceQuoted(2, KeysLine1, 10, k); }
    else if k == ComplicationsKey { PieceQuoted(4, KeysLine2, 0, k); }
    else if k == AlternativesKey { PieceQuoted(4, KeysLine2, 2, k); }
    else if k == RecoveryInfoKey { PieceQuoted(4, KeysLine2, 4, k); }
    else { PieceQuoted(4, KeysLine2, 6, k); }
  }

  /** The lines for the nested objects quote each of their five keys. */
  lemma SchemaQuotesNestedKey(k: string)
    requires k in NestedKeys
    ensures Occurs(Quote(k), SchemaText)
  {
    if k == NameKey { PieceQuoted(6, ComplicationsLine, 3, k); }
    else if k == EstimatedCostKey { PieceQuoted(6, ComplicationsLine, 5, k); }
    else if k == CostRangeKey { PieceQuoted(8, AlternativesLine, 5, k); }
    else if k == EstimatedTimeKey { PieceQuoted(10, RecoveryLine, 3, k); }
    else { PieceQuoted(10, RecoveryLine, 5, k); }
  }

  /** The prompt asks, by quoted name, for every key the normalizer reads:
      the ten top-level keys and the five nested ones. */
  lemma PromptRequestsEveryKey(procedure: Json, zipCode: Json, code: Json, elaboration: string, lib: Builtins, k: string)
    requires Hashable(procedure) && Hashable(zipCode) && Hashable(code)
    requires k in TopLevelKeys || k in NestedKeys
    ensures Occurs(Quote(k), Prompt(procedure, zipCode, code, elaboration, lib))
  {
    if k in TopLevelKeys {
      SchemaQuotesTopLevelKey(k);
    } else {
      SchemaQuotesNestedKey(k);
    }
    PromptEmbedsRequest(procedure, zipCode, code, elaboration, lib);
    OccursTransitive(Quote(k), SchemaText, Prompt(procedure, zipCode, code, elaboration, lib));
  }
}
