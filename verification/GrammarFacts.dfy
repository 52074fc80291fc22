/** The scanner accepts exactly the texts of the grammar. */
module GrammarFacts {
  import opened Text
  import opened Validate
  import opened Grammar

  /** The scanner accepts exactly the texts of the grammar, whatever line it starts counting at. */
  lemma ScannerAcceptsGrammar(spec: LanguageSpec, text: string, line: nat)
    ensures Scan(spec, text, Config([Validate.Code], [], line)).Accept? <==> InGrammar(spec, text)
  {
    var cfg := Config([Validate.Code], [], line);
    var line' := ScanRead(spec, text, cfg);
    var r := ReadCode(spec, text);
    if r.Read? {
      ReadCodeSound(spec, text);
      if r.rest != "" {
        ScanToken(spec, r.rest, cfg.(line := line'));
      }
    }
    forall tree | CodeOk(spec, tree, "") && CodeText(spec, tree, "") == text ensures r == Read(tree, "") {
      ReadCodeComplete(spec, tree, "");
    }
  }

  /** The grammar is unambiguous. */
  lemma TreeIsUnique(spec: LanguageSpec, tree1: Code, tree2: Code)
    requires CodeOk(spec, tree1, "") && CodeOk(spec, tree2, "") && CodeText(spec, tree1, "") == CodeText(spec, tree2, "")
    ensures tree1 == tree2
  {
    ReadCodeComplete(spec, tree1, "");
    ReadCodeComplete(spec, tree2, "");
  }

  /** What a structural verdict means. */
  lemma ValidIffGrammar(content: string, language: string)
    ensures var spec := SpecFor(language);
            StructuralVerdict(content, language).Valid? <==>
            spec.family.Unknown? || (InGrammar(spec, content) && (spec.checkIndentation ==> Coherent(SplitLines(content))))
  {
    ScannerAcceptsGrammar(SpecFor(language), content, 1);
    FirstIssueIs(SplitLines(content), 0);
  }
}
