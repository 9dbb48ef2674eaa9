/** The strengths/weaknesses sentence shown under "Why this stock?", and a
    reader for it showing that the sentence determines both groups. */
module Narrative {
  import opened Optional
  import opened Strings

  /** The text shown when no metric could be compared. */
  // Written as two literals so that the verifier can index its characters.
  const Neutral: string := "The stock performs broadly " + "in line with sector peers."
  const StrengthsLead: string := "Strengths: "
  const WeaknessesLead: string := "Weaknesses: "

  /** A label that can sit in a `", "`-joined list ended by a full stop
      without being misread: it holds neither a comma nor a full stop. */
  predicate Plain(labels: seq<string>) {
    AllFree(labels, ',') && AllFree(labels, '.')
  }

  /** The sentence for the given groups: the neutral text when both are
      empty; otherwise "Strengths: a, b." and/or "Weaknesses: c.", joined by
      one blank, strengths first. */
  function Render(positives: seq<string>, negatives: seq<string>): (text: string)
    ensures text == Neutral <==> positives == [] && negatives == []
  {
    if positives == [] && negatives == [] then Neutral
    else
      var sentences :=
        (if positives != [] then [StrengthsLead + Join(positives, ", ") + "."] else []) +
        (if negatives != [] then [WeaknessesLead + Join(negatives, ", ") + "."] else []);
      assert sentences[0][0] == 'S' || sentences[0][0] == 'W';
      assert sentences[0] <= Join(sentences, " ");
      assert Join(sentences, " ")[0] == sentences[0][0];
      assert Neutral[0] == 'T';
      Join(sentences, " ")
  }

  /** Pairs two read lists; `None` when either could not be read. */
  function Both(positives: Option<seq<string>>, negatives: Option<seq<string>>): (r: Option<(seq<string>, seq<string>)>)
    ensures r.Some? <==> positives.Some? && negatives.Some?
    ensures r.Some? ==> r.value.0 == positives.value && r.value.1 == negatives.value
  {
    if positives.Some? && negatives.Some? then Some((positives.value, negatives.value)) else None
  }

  /** Reads a rendered sentence back into its two groups; `None` for text
      that `Render` cannot produce in this shape. */
  function Parse(text: string): Option<(seq<string>, seq<string>)> {
    if text == Neutral then Some(([], []))
    else
      var sentences := SplitOn(text, '.');
      if |sentences| == 2 && sentences[1] == "" then
        var s := sentences[0];
        if StrengthsLead <= s then Both(SplitList(s[|StrengthsLead|..]), Some([]))
        else if WeaknessesLead <= s then Both(Some([]), SplitList(s[|WeaknessesLead|..]))
        else None
      else if |sentences| == 3 && sentences[2] == ""
              && StrengthsLead <= sentences[0] && " " + WeaknessesLead <= sentences[1] then
        Both(SplitList(sentences[0][|StrengthsLead|..]),
             SplitList(sentences[1][|WeaknessesLead| + 1..]))
      else None
  }

  /** The body of one sentence: a lead-in followed by the joined labels,
      free of full stops. */
  lemma SentenceBody(lead: string, labels: seq<string>)
    requires '.' !in lead
    requires Plain(labels)
    ensures '.' !in lead + Join(labels, ", ")
    ensures (lead + Join(labels, ", "))[|lead|..] == Join(labels, ", ")
  {
    JoinFree(labels, ", ", '.');
  }

  /** With both groups present the text is the strengths sentence, one
      blank, and the weaknesses sentence. */
  lemma RenderBoth(positives: seq<string>, negatives: seq<string>)
    requires positives != [] && negatives != []
    ensures var a := StrengthsLead + Join(positives, ", ");
            var b := WeaknessesLead + Join(negatives, ", ");
            Render(positives, negatives) == a + ". " + b + "."
  {
    var a := StrengthsLead + Join(positives, ", ");
    var b := WeaknessesLead + Join(negatives, ", ");
    RenderTwoSentences(positives, negatives);
    JoinPair(a + ".", b + ".", " ");
  }

  /** With both groups present `Render` joins exactly two sentences. */
  lemma RenderTwoSentences(positives: seq<string>, negatives: seq<string>)
    requires positives != [] && negatives != []
    ensures Render(positives, negatives) ==
              Join([StrengthsLead + Join(positives, ", ") + ".", WeaknessesLead + Join(negatives, ", ") + "."], " ")
  {
  }

  /** Joining two pieces puts the separator between them. */
  lemma JoinPair(x: string, y: string, sep: string)
    ensures Join([x, y], sep) == x + sep + y
  {
    assert [x, y][1..] == [y];
  }

  /** Both sentences split at full stops into the strengths body, the
      weaknesses body behind its blank, and an empty tail. */
  lemma SplitBoth(positives: seq<string>, negatives: seq<string>)
    requires positives != [] && negatives != []
    requires Plain(positives) && Plain(negatives)
    ensures SplitOn(Render(positives, negatives), '.') ==
              [StrengthsLead + Join(positives, ", "), " " + (WeaknessesLead + Join(negatives, ", ")), ""]
  {
    var a := StrengthsLead + Join(positives, ", ");
    var b := WeaknessesLead + Join(negatives, ", ");
    RenderBoth(positives, negatives);
    assert a + ". " + b + "." == a + ['.'] + ((" " + b) + ['.'] + "");
    SentenceBody(StrengthsLead, positives);
    SentenceBody(WeaknessesLead, negatives);
    SplitOnCons(a, '.', (" " + b) + ['.'] + "");
    SplitOnCons(" " + b, '.', "");
  }

  /** Parsing both sentences: strengths, then weaknesses. */
  lemma ParseBoth(positives: seq<string>, negatives: seq<string>)
    requires positives != [] && negatives != []
    requires Plain(positives) && Plain(negatives)
    ensures Parse(Render(positives, negatives)) == Some((positives, negatives))
  {
    var a := StrengthsLead + Join(positives, ", ");
    var b := " " + (WeaknessesLead + Join(negatives, ", "));
    SplitBoth(positives, negatives);
    assert a[|StrengthsLead|..] == Join(positives, ", ");
    assert b[|WeaknessesLead| + 1..] == Join(negatives, ", ");
    assert " " + WeaknessesLead <= b;
    SplitListJoin(positives);
    SplitListJoin(negatives);
  }

  /** Parsing a lone strengths sentence. */
  lemma ParseStrengthsOnly(positives: seq<string>)
    requires positives != []
    requires Plain(positives)
    ensures Parse(Render(positives, [])) == Some((positives, []))
  {
    var a := StrengthsLead + Join(positives, ", ");
    var text := Render(positives, []);
    assert text == a + ['.'] + "";
    SentenceBody(StrengthsLead, positives);
    SplitOnCons(a, '.', "");
    assert SplitOn(text, '.') == [a, ""];
    SplitListJoin(positives);
  }

  /** Parsing a lone weaknesses sentence. */
  lemma ParseWeaknessesOnly(negatives: seq<string>)
    requires negatives != []
    requires Plain(negatives)
    ensures Parse(Render([], negatives)) == Some(([], negatives))
  {
    var b := WeaknessesLead + Join(negatives, ", ");
    var text := Render([], negatives);
    assert text == b + ['.'] + "";
    SentenceBody(WeaknessesLead, negatives);
    SplitOnCons(b, '.', "");
    assert SplitOn(text, '.') == [b, ""];
    assert !(StrengthsLead <= b) by { assert b[0] == 'W'; }
    SplitListJoin(negatives);
  }

  /** The rendered sentence determines both groups, in order: parsing it
      gives back exactly the labels that went in. */
  lemma ParseRender(positives: seq<string>, negatives: seq<string>)
    requires Plain(positives) && Plain(negatives)
    ensures Parse(Render(positives, negatives)) == Some((positives, negatives))
  {
    if positives != [] && negatives != [] {
      ParseBoth(positives, negatives);
    } else if positives != [] {
      ParseStrengthsOnly(positives);
    } else if negatives != [] {
      ParseWeaknessesOnly(negatives);
    }
  }

  /** The reader is strict about the separator: a list whose items are cut
      by a bare comma is not a rendered sentence. */
  lemma ParseRejectsBareComma()
    ensures Parse(StrengthsLead + "a,b.") == None
  {
    var body := StrengthsLead + "a,b";
    var text := StrengthsLead + "a,b.";
    assert text == body + ['.'] + "";
    assert '.' !in body;
    SplitOnCons(body, '.', "");
    assert SplitOn(text, '.') == [body, ""];
    assert text != Neutral by { assert text[0] == 'S'; }
    assert body[|StrengthsLead|..] == "a,b";
    SplitListNeedsBlank();
  }
}
