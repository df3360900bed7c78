/**
 * The floor-plans input of the property form: the list of URLs is shown as
 * one line of text, and the text typed into it is read back as a list.
 */
module FloorPlansField {
  import opened Wrappers
  import opened Text
  import opened Sequences

  /** `field.value?.join(', ') || ''`: an absent list shows as the empty text. */
  function Display(plans: Option<seq<string>>): string {
    if plans.None? then "" else Join(plans.value, ", ")
  }

  /** `text ? text.split(',').map(url => url.trim()) : []` */
  function Parse(text: string): seq<string> {
    if text == "" then [] else Map(Split(text, ','), Trim)
  }

  /** Non-empty text gives one trimmed entry per comma-separated piece, empty pieces included. */
  lemma ParsePieces(text: string)
    ensures text == "" ==> Parse(text) == []
    ensures text != "" ==> |Parse(text)| == Count(text, ',') + 1
    ensures forall i :: 0 <= i < |Parse(text)| ==>
      Trimmed(Parse(text)[i]) && ',' !in Parse(text)[i] && Parse(text)[i] == Trim(Split(text, ',')[i])
  {
    if text != "" {
      var pieces := Split(text, ',');
      forall i | 0 <= i < |pieces| ensures Trimmed(Trim(pieces[i])) && ',' !in Trim(pieces[i]) {
        TrimProperties(pieces[i]);
      }
    }
  }

  /** Empty pieces are kept: `"a,,b"` reads as three entries. */
  lemma EmptyPieceKept()
    ensures Parse("a,,b") == ["a", "", "b"]
  {
    var pieces := Split("a,,b", ',');
    SplitWithoutSeparator("b", ',');
    assert ",b" == "" + [','] + "b";
    SplitAfterPiece("", ',', "b");
    assert "a,,b" == "a" + [','] + ",b";
    SplitAfterPiece("a", ',', ",b");
    assert pieces == ["a", "", "b"];
    assert Trim("a") == "a" && Trim("") == "" && Trim("b") == "b";
  }

  /** Splitting text that starts with a space gives the same trimmed pieces as without it. */
  lemma LeadingSpacePieces(t: string)
    ensures Map(Split([' '] + t, ','), Trim) == Map(Split(t, ','), Trim)
  {
    var s := [' '] + t;
    assert s[1..] == t;
    var rest := Split(t, ',');
    assert Split(s, ',') == [[' '] + rest[0]] + rest[1..];
    TrimLeadingSpace(rest[0]);
  }

  /** Splitting the shown text of comma-free entries gives the entries back, up to spaces at their ends. */
  lemma {:induction false} SplitDisplayed(plans: seq<string>)
    requires |plans| >= 1
    requires forall i :: 0 <= i < |plans| ==> ',' !in plans[i]
    ensures Map(Split(Join(plans, ", "), ','), Trim) == Map(plans, Trim)
  {
    if |plans| > 1 {
      var rest := Join(plans[1..], ", ");
      assert Join(plans, ", ") == plans[0] + [','] + ([' '] + rest);
      SplitAfterPiece(plans[0], ',', [' '] + rest);
      LeadingSpacePieces(rest);
      SplitDisplayed(plans[1..]);
      assert Map(plans, Trim) == [Trim(plans[0])] + Map(plans[1..], Trim);
    } else {
      SplitWithoutSeparator(plans[0], ',');
    }
  }

  /** Showing a list of non-empty, trimmed, comma-free URLs and reading the text back gives the list. */
  lemma ParseDisplay(plans: seq<string>)
    requires forall i :: 0 <= i < |plans| ==> plans[i] != "" && Trimmed(plans[i]) && ',' !in plans[i]
    ensures Parse(Display(Some(plans))) == plans
  {
    if |plans| > 0 {
      var text := Join(plans, ", ");
      assert |text| >= |plans[0]| > 0 by {
        if |plans| > 1 {
          assert text == plans[0] + ", " + Join(plans[1..], ", ");
        }
      }
      SplitDisplayed(plans);
      forall i | 0 <= i < |plans| ensures Trim(plans[i]) == plans[i] {
        TrimOfTrimmed(plans[i]);
      }
    }
  }

  /** An absent list and an empty list both show as the empty text, which reads back as the empty list. */
  lemma NothingShowsEmpty()
    ensures Display(None) == "" && Display(Some([])) == "" && Parse("") == []
  {
  }
}
