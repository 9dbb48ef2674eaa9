/** Joining and splitting strings, as the narrative text is built with
    Python's `str.join` and read back by splitting at punctuation. */
module Strings {
  import opened Optional

  /** `sep.join(parts)`: the parts with `sep` between consecutive ones. */
  function Join(parts: seq<string>, sep: string): string
    decreases |parts|
  {
    if |parts| == 0 then ""
    else if |parts| == 1 then parts[0]
    else parts[0] + sep + Join(parts[1..], sep)
  }

  /** `s.split(c)` for a one-character separator: the maximal pieces of `s`
      free of `c`, always at least one. */
  function SplitOn(s: string, c: char): (pieces: seq<string>)
    ensures |pieces| >= 1
    decreases |s|
  {
    if |s| == 0 then [""]
    else
      var tail := SplitOn(s[1..], c);
      if s[0] == c then [""] + tail
      else [[s[0]] + tail[0]] + tail[1..]
  }

  /** True when no element of `parts` contains `c`. */
  predicate AllFree(parts: seq<string>, c: char) {
    forall i :: 0 <= i < |parts| ==> c !in parts[i]
  }

  /** Each piece is prefixed by one blank, as every item after the first is
      in a `", "`-joined list once the commas are cut away. */
  function Blanked(items: seq<string>): (r: seq<string>)
    ensures |r| == |items|
    decreases |items|
  {
    if |items| == 0 then [] else [" " + items[0]] + Blanked(items[1..])
  }

  /** Drops the leading blank of every piece; `None` when some piece does
      not start with one, as then the text was not a `", "`-joined list. */
  function Unblanked(pieces: seq<string>): (r: Option<seq<string>>)
    ensures r.Some? ==> |r.value| == |pieces|
    decreases |pieces|
  {
    if |pieces| == 0 then Some([])
    else
      var p := pieces[0];
      var rest := Unblanked(pieces[1..]);
      if " " <= p && rest.Some? then Some([p[1..]] + rest.value) else None
  }

  /** `Unblanked` succeeds exactly when every piece starts with a blank, and
      then each piece is a blank followed by the matching item. */
  lemma {:induction false} UnblankedMeaning(pieces: seq<string>)
    ensures var r := Unblanked(pieces);
            && (r.Some? <==> forall i :: 0 <= i < |pieces| ==> " " <= pieces[i])
            && (r.Some? ==> forall i :: 0 <= i < |pieces| ==> pieces[i] == " " + r.value[i])
    decreases |pieces|
  {
    if |pieces| > 0 {
      var tail := pieces[1..];
      UnblankedMeaning(tail);
      assert forall i :: 1 <= i < |pieces| ==> pieces[i] == tail[i - 1];
      var r := Unblanked(pieces);
      if r.Some? {
        assert pieces[0] == " " + pieces[0][1..];
        assert forall i :: 1 <= i < |pieces| ==> r.value[i] == Unblanked(tail).value[i - 1];
      }
    }
  }

  /** Reads a `", "`-joined list back into its items: the text is cut at
      every comma, and every piece after the first must start with the
      blank that followed the comma. */
  function SplitList(s: string): (items: Option<seq<string>>)
    ensures items.Some? ==> |items.value| >= 1
  {
    var pieces := SplitOn(s, ',');
    var rest := Unblanked(pieces[1..]);
    if rest.Some? then Some([pieces[0]] + rest.value) else None
  }

  /** A string without the separator splits into itself alone. */
  lemma {:induction false} SplitOnFree(x: string, c: char)
    requires c !in x
    ensures SplitOn(x, c) == [x]
    decreases |x|
  {
    if |x| > 0 {
      SplitOnFree(x[1..], c);
      assert [x[0]] + x[1..] == x;
    }
  }

  /** Cutting at the first separator: everything before it is the first
      piece, the rest splits on its own. */
  lemma {:induction false} SplitOnCons(x: string, c: char, y: string)
    requires c !in x
    ensures SplitOn(x + [c] + y, c) == [x] + SplitOn(y, c)
    decreases |x|
  {
    var s := x + [c] + y;
    if |x| == 0 {
      assert s[1..] == y;
    } else {
      assert s[1..] == x[1..] + [c] + y;
      SplitOnCons(x[1..], c, y);
      assert [x[0]] + x[1..] == x;
    }
  }

  /** A join of pieces none of which holds `c`, with a separator free of
      `c`, holds no `c`. */
  lemma {:induction false} JoinFree(parts: seq<string>, sep: string, c: char)
    requires AllFree(parts, c)
    requires c !in sep
    ensures c !in Join(parts, sep)
    decreases |parts|
  {
    if |parts| > 1 {
      JoinFree(parts[1..], sep, c);
    }
  }

  /** Splitting `pre + ", ".join(items)` at commas yields `pre + items[0]`
      followed by each later item behind one blank. */
  lemma {:induction false} SplitCommaJoin(pre: string, items: seq<string>)
    requires |items| >= 1
    requires ',' !in pre
    requires AllFree(items, ',')
    ensures SplitOn(pre + Join(items, ", "), ',') == [pre + items[0]] + Blanked(items[1..])
    decreases |items|
  {
    if |items| == 1 {
      assert pre + Join(items, ", ") == pre + items[0];
      SplitOnFree(pre + items[0], ',');
    } else {
      var rest := items[1..];
      assert pre + Join(items, ", ") == (pre + items[0]) + [','] + (" " + Join(rest, ", "));
      SplitOnCons(pre + items[0], ',', " " + Join(rest, ", "));
      SplitCommaJoin(" ", rest);
      assert rest[1..] == items[2..];
    }
  }

  /** Removing the blanks that `Blanked` put in front gives the items back. */
  lemma {:induction false} UnblankedBlanked(items: seq<string>)
    ensures Unblanked(Blanked(items)) == Some(items)
    decreases |items|
  {
    if |items| > 0 {
      UnblankedBlanked(items[1..]);
      assert (" " + items[0])[1..] == items[0];
      assert Blanked(items)[1..] == Blanked(items[1..]);
      assert [items[0]] + items[1..] == items;
    }
  }

  /** `SplitList` inverts `", ".join` on a non-empty list of comma-free items. */
  lemma SplitListJoin(items: seq<string>)
    requires |items| >= 1
    requires AllFree(items, ',')
    ensures SplitList(Join(items, ", ")) == Some(items)
  {
    var text := Join(items, ", ");
    assert "" + text == text;
    SplitCommaJoin("", items);
    var pieces := SplitOn(text, ',');
    assert SplitOn("" + text, ',') == pieces;
    assert "" + items[0] == items[0];
    assert pieces == [items[0]] + Blanked(items[1..]);
    assert pieces[0] == items[0];
    assert pieces[1..] == Blanked(items[1..]);
    UnblankedBlanked(items[1..]);
    SplitListPieces(text, items[0], items[1..]);
    assert [items[0]] + items[1..] == items;
  }

  /** `SplitList` from the pieces of the split. */
  lemma SplitListPieces(s: string, first: string, rest: seq<string>)
    requires SplitOn(s, ',')[0] == first
    requires Unblanked(SplitOn(s, ',')[1..]) == Some(rest)
    ensures SplitList(s) == Some([first] + rest)
  {
  }

  /** A later item not preceded by a blank is rejected: `"a,b"` is not read
      as the list `a`, `b`. */
  lemma SplitListNeedsBlank()
    ensures SplitList("a,b") == None
  {
    assert "a,b" == "a" + [','] + "b";
    SplitOnCons("a", ',', "b");
    SplitOnFree("b", ',');
    assert !(" " <= "b");
  }
}
