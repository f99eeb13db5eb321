// The constant code tables used by the lung-function mappers.  Each table is
// a dictionary built once in a constructor and never changed afterwards, so
// it is a map constant here; each lookup returns the table entry or a fixed
// default string.

module LoincLookup {
  import opened Common

  const NoCode := "No Code"
  const NoDisplay := "No Code-Display Value"

  /** Item name -> LOINC code. */
  const CodeTable: map<string, string> := map[
    "SP_PRE_bp_vc_actual" := "82615-6",
    "SP_POST_bpl_vc_actual" := "82616-4",
    "SP_bp_vc_actual" := "19866-3",
    "SP_PRE_bp_fvcex_actual" := "19876-2",
    "SP_POST_bpl_fvcex_actual" := "19874-7",
    "SP_bp_fvcex_actual" := "19868-9",
    "SP_PRE_bp_fev1_actual" := "20157-4",
    "SP_POST_bpl_fev1_actual" := "20155-8",
    "SP_bp_fev1_actual" := "20150-9",
    "SP_bp_ic_actual" := "19852-3",
    "B_PRE_bp_srawtot_actual" := "91980-3",
    "B_bp_srawtot_actual" := "91980-3",
    "B_PRE_bp_rv_actual" := "81452-5",
    "B_POST_bpl_rv_actual" := "81453-3",
    "B_bp_rv_actual" := "20146-7",
    "B_PRE_bp_tlc_actual" := "81450-9",
    "B_POST_bpl_tlc_actual" := "81451-7",
    "B_bp_tlc_actual" := "19859-8",
    "TRA_bp_dlcosb_actual" := "19911-7",
    "TRA_bp_kco_actual" := "19916-6"
  ]

  /** LOINC code -> display text. */
  const DisplayTable: map<string, string> := map[
    "82615-6" := "Vital capacity [Volume] Respiratory system by Spirometry --pre bronchodilation",
    "82616-4" := "Vital capacity [Volume] Respiratory system by Spirometry --post bronchodilation",
    "19866-3" := "Vital capacity [Volume] Respiratory system by Spirometry",
    "19876-2" := "Forced vital capacity [Volume] Respiratory system by Spirometry --pre bronchodilation",
    "19874-7" := "Forced vital capacity [Volume] Respiratory system by Spirometry --post bronchodilation",
    "20157-4" := "FEV1 --pre bronchodilation",
    "20155-8" := "FEV1 --post bronchodilation",
    "91980-3" := "Specific airway resactualance by Plethysmograph body box",
    "81452-5" := "Residual volume --pre bronchodilation",
    "81453-3" := "Residual volume --post bronchodilation",
    "81450-9" := "Total lung capacity --pre bronchodilation",
    "81451-7" := "Total lung capacity --post bronchodilation",
    "19911-7" := "Diffusion capacity.carbon monoxide",
    "19916-6" := "Diffusion capacity/Alveolar volume",
    "19859-8" := "Total lung capacity by Plethysmograph body box",
    "20146-7" := "Residual volume",
    "20150-9" := "FEV1",
    "19868-9" := "Forced vital capacity [Volume] Respiratory system by Spirometry",
    "19852-3" := "Inspiratory capacity by Spirometry"
  ]

  /** `codeLookup`: the listed code, or "No Code", which is no listed code. */
  function CodeLookup(item: string): (code: string)
    ensures item in CodeTable ==> code == CodeTable[item]
    ensures code == NoCode <==> item !in CodeTable
  {
    Lookup(CodeTable, item, NoCode)
  }

  /** `displayLookup`: the listed display, or "No Code-Display Value", which is no listed display. */
  function DisplayLookup(code: string): (display: string)
    ensures code in DisplayTable ==> display == DisplayTable[code]
    ensures display == NoDisplay <==> code !in DisplayTable
  {
    Lookup(DisplayTable, code, NoDisplay)
  }

  /** Every code the code table yields has a display. */
  lemma DisplayCoversCodes(item: string)
    requires item in CodeTable
    ensures DisplayLookup(CodeLookup(item)) != NoDisplay
  {
  }

  /** Two different item names share one LOINC code, so the code table is not injective. */
  lemma CodeTableNotInjective()
    ensures exists a, b :: a in CodeTable && b in CodeTable && a != b && CodeTable[a] == CodeTable[b]
  {
    var a, b := "B_PRE_bp_srawtot_actual", "B_bp_srawtot_actual";
    assert a in CodeTable && b in CodeTable && CodeTable[a] == CodeTable[b];
  }
}

module I2b2Lookup {
  import opened Common

  const NoCode := "No Code"
  const Prefix := "LCS-MRCM:pul:"

  /** Item name -> i2b2 base code without the common pulmonary prefix. */
  const CodeSuffixes: map<string, string> := map[
    "SP_PRE_bp_vc_actual" := "vc:prebd",
    "SP_POST_bpl_vc_actual" := "vc:postbd",
    "SP_bp_vc_actual" := "vc:best",
    "SP_PRE_bp_fvcex_actual" := "fvc:prebd",
    "SP_POST_bpl_fvcex_actual" := "fvc:postbd",
    "SP_bp_fvcex_actual" := "fvc:best",
    "SP_PRE_bp_fev1_actual" := "fev1:prebd",
    "SP_POST_bpl_fev1_actual" := "fev1:postbd",
    "SP_bp_fev1_actual" := "fev1:best",
    "SP_PRE_bp_ic_actual" := "ic:prebd",
    "SP_POST_bpl_ic_actual" := "ic:postbd",
    "SP_bp_ic_actual" := "ic:best",
    "B_PRE_bp_rawtot_actual" := "sreff:prebd",
    "B_POST_bpl_rawtot_actual" := "sreff:postbd",
    "B_bp_rawtot_actual" := "sreff:best",
    "B_PRE_bp_srawtot_actual" := "srtot:prebd",
    "B_POST_bpl_srawtot_actual" := "srtot:postbd:prdc",
    "B_bp_srawtot_actual" := "srtot:best",
    "B_PRE_bp_rv_actual" := "rv:prebd",
    "B_POST_bpl_rv_actual" := "rv:postbd",
    "B_bp_rv_actual" := "rv:best",
    "B_PRE_bp_tlc_actual" := "tlc:prebd",
    "B_POST_bpl_tlc_actual" := "tlc:postbd",
    "B_bp_tlc_actual" := "tlc:best",
    "TRA_bp_dlcosb_actual" := "dlco:best",
    "TRA_bp_kco_actual" := "dlcova:best"
  ]

  /** Item name -> i2b2 base code: every listed code is the prefix followed by its suffix. */
  const CodeTable: map<string, string> := map k | k in CodeSuffixes :: Prefix + CodeSuffixes[k]

  /** `codeLookup`: the listed base code, which carries the pulmonary prefix, or "No Code". */
  function CodeLookup(item: string): (code: string)
    ensures item in CodeTable ==> code == CodeTable[item] && StartsWith(code, Prefix)
    ensures code == NoCode <==> item !in CodeTable
  {
    if item in CodeTable then
      var code := CodeTable[item];
      assert code[..|Prefix|] == Prefix && code[0] != NoCode[0];
      code
    else NoCode
  }

  /** The spirometry items ("SP_...") share their base code suffix with no other item. */
  lemma SpirometrySuffixesDistinct()
    ensures forall a, b :: a in CodeSuffixes && b in CodeSuffixes && |a| > 0 && a[0] == 'S' && a != b ==>
              CodeSuffixes[a] != CodeSuffixes[b]
  {
  }

  /** The body plethysmography items ("B_...") share their base code suffix with no other item. */
  lemma PlethysmographySuffixesDistinct()
    ensures forall a, b :: a in CodeSuffixes && b in CodeSuffixes && |a| > 0 && a[0] == 'B' && a != b ==>
              CodeSuffixes[a] != CodeSuffixes[b]
  {
  }

  /** The transfer factor items ("TRA_...") share their base code suffix with no other item. */
  lemma TransferSuffixesDistinct()
    ensures forall a, b :: a in CodeSuffixes && b in CodeSuffixes && |a| > 0 && a[0] == 'T' && a != b ==>
              CodeSuffixes[a] != CodeSuffixes[b]
  {
  }

  /** No two listed item names share a base code suffix. */
  lemma SuffixesDistinct()
    ensures forall a, b :: a in CodeSuffixes && b in CodeSuffixes && a != b ==> CodeSuffixes[a] != CodeSuffixes[b]
  {
    assert forall a :: a in CodeSuffixes ==> |a| > 0 && a[0] in {'S', 'B', 'T'};
    SpirometrySuffixesDistinct();
    PlethysmographySuffixesDistinct();
    TransferSuffixesDistinct();
  }

  /** The i2b2 base codes are pairwise distinct: a code names one item. */
  lemma CodeTableInjective()
    ensures forall a, b :: a in CodeTable && b in CodeTable && a != b ==> CodeTable[a] != CodeTable[b]
  {
    SuffixesDistinct();
    forall a, b | a in CodeTable && b in CodeTable && CodeTable[a] == CodeTable[b]
      ensures a == b
    {
      assert CodeSuffixes[a] == CodeTable[a][|Prefix|..];
      assert CodeSuffixes[b] == CodeTable[b][|Prefix|..];
    }
  }

  /** Every listed item name ends in "_actual"; a "_target" item name is never listed. */
  lemma {:induction false} TargetItemsUnlisted(item: string)
    requires EndsWith(item, "_target")
    ensures CodeLookup(item) == NoCode
  {
    KeysEndInActual();
    assert item[|item| - 1] == item[|item| - 7..][6] == 't';
    NotListedByLastChar(CodeTable, item, 'l');
  }

  lemma KeysEndInActual()
    ensures forall k :: k in CodeTable ==> |k| > 0 && k[|k| - 1] == 'l'
  {
  }

  lemma NotListedByLastChar(m: map<string, string>, item: string, c: char)
    requires forall k :: k in m ==> |k| > 0 && k[|k| - 1] == c
    requires |item| > 0 && item[|item| - 1] != c
    ensures item !in m
  {
  }
}

module SnomedLookup {
  import opened Common

  const NoText := "No Text"
  const NoDisplay := "No Code-Display Value"

  /** Section key -> SNOMED CT procedure code. */
  const CodeTable: map<string, string> := map[
    "B_PRE" := "28275007",
    "B_POST" := "28275007",
    "B_" := "28275007",
    "SP_PRE" := "127783003",
    "SP_POST" := "767906009",
    "SP_" := "127783003",
    "TRA_" := "87529006"
  ]

  const DisplayTable: map<string, string> := map[
    "28275007" := "Total body plethysmography (procedure)",
    "127783003" := "Spirometry (procedure)",
    "767906009" := "Post bronchodilator spirometry (procedure)",
    "87529006" := "Membrane diffusion capacity (procedure)"
  ]

  /** `codeLookup`: the section's code, or "No Text" for an unlisted section key. */
  function CodeLookup(section: string): (code: string)
    ensures section in CodeTable ==> code == CodeTable[section]
    ensures code == NoText <==> section !in CodeTable
  {
    Lookup(CodeTable, section, NoText)
  }

  /** `displayLookup`: the code's display, or "No Code-Display Value" for an unlisted code. */
  function DisplayLookup(code: string): (display: string)
    ensures code in DisplayTable ==> display == DisplayTable[code]
    ensures display == NoDisplay <==> code !in DisplayTable
  {
    Lookup(DisplayTable, code, NoDisplay)
  }

  /** The section codes: body plethysmography, spirometry before and after bronchodilation, diffusion. */
  lemma SectionCodes()
    ensures CodeLookup("B_PRE") == CodeLookup("B_POST") == CodeLookup("B_") == "28275007"
    ensures CodeLookup("SP_PRE") == CodeLookup("SP_") == "127783003"
    ensures CodeLookup("SP_POST") == "767906009"
    ensures CodeLookup("TRA_") == "87529006"
  {
  }

  /** Every code of the code table has a display. */
  lemma DisplayCoversCodes(section: string)
    requires section in CodeTable
    ensures DisplayLookup(CodeLookup(section)) != NoDisplay
  {
  }
}

module OpsLookup {
  import opened Common

  const NoText := "No Text"
  const NoDisplay := "No Code-Display Value"

  /** OPS code -> German procedure text. */
  const CodeTable: map<string, string> := map[
    "1-71" := "Pneumologische Funktionsuntersuchungen",
    "1-715" := "Sechs-Minuten-Gehtest nach Guyatt",
    "1-710" := "Ganzkörperplethysmographie",
    "1-712" := "Spiroergometrie",
    "1-713" := "Messung der funktionellen Residualkapazität [FRC] mit der Helium-Verdünnungsmethode"
  ]

  /** The display dictionary of this lookup is empty. */
  const DisplayTable: map<string, string> := map[]

  /** `codeLookup`: the OPS text, or "No Text" for an unlisted code. */
  function CodeLookup(code: string): (text: string)
    ensures code in CodeTable ==> text == CodeTable[code]
    ensures text == NoText <==> code !in CodeTable
  {
    Lookup(CodeTable, code, NoText)
  }

  /** `displayLookup` on an empty table: always the default. */
  function DisplayLookup(code: string): (display: string)
    ensures display == NoDisplay
  {
    Lookup(DisplayTable, code, NoDisplay)
  }

  lemma ProcedureTexts()
    ensures CodeLookup("1-71") == "Pneumologische Funktionsuntersuchungen"
    ensures CodeLookup("1-710") == "Ganzkörperplethysmographie"
    ensures CodeLookup("1-712") == "Spiroergometrie"
    ensures CodeLookup("1-715") == "Sechs-Minuten-Gehtest nach Guyatt"
  {
  }
}
