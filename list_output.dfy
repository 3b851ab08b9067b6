/**
 * The rule that turns a model's list answer into items, shared by
 * `generate_topics` and `generate_ideas`: strip the response, split it
 * into lines, keep the lines longer than two characters, delete every
 * `"- "` in them, and keep at most the requested number.
 */
module ListOutput {
  import opened Wrappers
  import opened Text
  import Utils

  /** The marker the prompts ask the model to put before each item. */
  const Marker: string := "- "

  /** The lines of the stripped response. */
  function ResponseLines(response: string): (r: seq<string>)
    ensures |r| >= 1
  {
    Split(Strip(response), "\n")
  }

  /** The lines longer than two characters, in order (`if len(i) > 2`). */
  function KeptLines(lines: seq<string>): (r: seq<string>)
    ensures |r| <= |lines|
    ensures forall k :: 0 <= k < |r| ==> |r[k]| > 2
  {
    if lines == [] then []
    else
      var last := lines[|lines| - 1];
      KeptLines(lines[..|lines| - 1]) + (if |last| > 2 then [last] else [])
  }

  /** A line is kept exactly when it is one of the input lines and is longer than two characters. */
  lemma {:induction false} KeptLinesMembers(lines: seq<string>, line: string)
    ensures line in KeptLines(lines) <==> line in lines && |line| > 2
  {
    if lines != [] {
      var init := lines[..|lines| - 1];
      KeptLinesMembers(init, line);
      assert lines == init + [lines[|lines| - 1]];
    }
  }

  /** Every line passes the filter: nothing is dropped. */
  lemma {:induction false} KeptLinesAll(lines: seq<string>)
    requires forall k :: 0 <= k < |lines| ==> |lines[k]| > 2
    ensures KeptLines(lines) == lines
  {
    if lines != [] {
      KeptLinesAll(lines[..|lines| - 1]);
    }
  }

  /** `i.replace("- ", "")`: every marker is deleted, wherever it stands. */
  function RemoveMarkers(line: string): string {
    ReplaceAll(line, Marker, "")
  }

  /** Python's `xs[:count]`, negative counts included. */
  function SliceTo<T>(xs: seq<T>, count: int): (r: seq<T>)
    ensures |r| <= |xs| && r == xs[..|r|]
    ensures count >= 0 ==> |r| == (if count < |xs| then count else |xs|)
    ensures count < 0 ==> |r| == (if |xs| + count > 0 then |xs| + count else 0)
  {
    if count >= 0 then (if count < |xs| then xs[..count] else xs)
    else if |xs| + count > 0 then xs[..|xs| + count]
    else []
  }

  /** The items the generators return for a response and a requested count. */
  function ParseList(response: string, count: int): seq<string> {
    var kept := KeptLines(ResponseLines(response));
    SliceTo(seq(|kept|, k requires 0 <= k < |kept| => RemoveMarkers(kept[k])), count)
  }

  /** The items are the kept lines with their markers deleted, in order, and
      there are as many as were asked for when the response has that many. */
  lemma ParseListItems(response: string, count: int)
    ensures count >= 0 ==> |ParseList(response, count)| <= count
    ensures |ParseList(response, count)| <= |KeptLines(ResponseLines(response))|
    ensures count >= 0 ==>
      |ParseList(response, count)| ==
      (if count < |KeptLines(ResponseLines(response))| then count else |KeptLines(ResponseLines(response))|)
    ensures forall k :: 0 <= k < |ParseList(response, count)| ==>
      ParseList(response, count)[k] == RemoveMarkers(KeptLines(ResponseLines(response))[k])
  {
  }

  /** An empty or all-whitespace response yields no items, for any count. */
  lemma BlankResponse(response: string, count: int)
    requires AllSpace(response)
    ensures ParseList(response, count) == []
  {
    StripAllSpace(response);
    assert ResponseLines(response) == [""];
  }

  /** A line without markers is left as it is. */
  lemma NoMarkerUnchanged(line: string)
    requires !Contains(line, Marker)
    ensures RemoveMarkers(line) == line
  {
  }

  /** A marker between two marker-free parts is deleted, wherever it stands. */
  lemma RemoveInnerMarker(a: string, b: string)
    requires !Contains(a, Marker) && !Contains(b, Marker)
    ensures RemoveMarkers(a + Marker + b) == a + b
  {
    var line := a + Marker + b;
    assert line[|a|..|a| + 2] == Marker;
    forall k: nat | k < |a|
      ensures !OccursAt(line, Marker, k)
    {
      if k + 2 <= |a| {
        assert line[k..k + 2] == a[k..k + 2];
        NotContains(a, Marker, k);
      } else {
        assert line[k..k + 2][1] == line[|a|] == '-' != Marker[1];
      }
    }
    FindFirst(line, Marker, |a|);
    assert line[..|a|] == a;
    assert line[|a| + 2..] == b;
    NoMarkerUnchanged(b);
  }

  /** Removing markers from `"- " + item` leaves the item. */
  lemma RemoveLeadingMarker(item: string)
    requires !Contains(item, Marker)
    ensures RemoveMarkers(Marker + item) == item
  {
    RemoveInnerMarker("", item);
    assert "" + Marker + item == Marker + item;
  }

  /** The item shapes that the format survives: non-empty, on one line,
      no marker inside, and not ending in whitespace. */
  predicate Listable(item: string) {
    item != [] && Lacks(item, '\n') && !Contains(item, Marker) && !IsSpace(item[|item| - 1])
  }

  /** The stripped text of a formatted list splits back into its bullet lines. */
  lemma FormattedLines(items: seq<string>)
    requires |items| >= 1
    requires forall k :: 0 <= k < |items| ==> Listable(items[k])
    ensures ResponseLines(Utils.FormatList(items)) == seq(|items|, i requires 0 <= i < |items| => Utils.Bullet(items[i]))
  {
    var text := Utils.FormatList(items);
    var bullets := seq(|items|, i requires 0 <= i < |items| => Utils.Bullet(items[i]));
    JoinEnds(bullets, "\n");
    assert text[0] == '-' by {
      assert text[..|bullets[0]|] == bullets[0];
    }
    var lastItem := items[|items| - 1];
    assert text[|text| - 1] == lastItem[|lastItem| - 1] by {
      assert text[|text| - |bullets[|bullets| - 1]|..] == bullets[|bullets| - 1];
    }
    StripTrimmed(text);
    Utils.FormatListLines(items);
  }

  /** Formatting items as a `"- "` list and parsing the text gives the items
      back, cut to the requested count. */
  lemma FormatThenParse(items: seq<string>, count: int)
    requires |items| >= 1
    requires forall k :: 0 <= k < |items| ==> Listable(items[k])
    ensures ParseList(Utils.FormatList(items), count) == SliceTo(items, count)
  {
    var bullets := seq(|items|, i requires 0 <= i < |items| => Utils.Bullet(items[i]));
    FormattedLines(items);
    KeptLinesAll(bullets);
    var rewritten := seq(|bullets|, k requires 0 <= k < |bullets| => RemoveMarkers(bullets[k]));
    forall k | 0 <= k < |items|
      ensures rewritten[k] == items[k]
    {
      RemoveLeadingMarker(items[k]);
    }
    assert rewritten == items;
  }

  /** A single `"- item"` line parses to the item. */
  lemma SingleMarkedLine(item: string, count: int)
    requires Listable(item) && count >= 1
    ensures ParseList(Marker + item, count) == [item]
  {
    FormatThenParse([item], count);
  }

  /** The length filter looks at the raw line: `"- a"` is kept and becomes `"a"`. */
  lemma ShortItemKept()
    ensures ParseList("- a", 1) == ["a"]
  {
    var a := "a";
    assert !Contains(a, Marker);
    assert Listable(a);
    SingleMarkedLine(a, 1);
    assert Marker + a == "- a";
  }

  /** A line made of markers alone passes the length filter and becomes an
      empty item: the items are not all non-empty. */
  lemma MarkersOnlyLineGivesEmptyItem()
    ensures ParseList("- - \nabc", 2) == ["", "abc"]
  {
    MarkersOnlyLines();
    ParseTwoLines("- - \nabc", Marker + Marker, "abc");
    DoubleMarkerRemoved();
    assert Find("abc", Marker) == None;
    NoMarkerUnchanged("abc");
  }

  lemma ParseTwoLines(response: string, a: string, b: string)
    requires ResponseLines(response) == [a, b] && |a| > 2 && |b| > 2
    ensures ParseList(response, 2) == [RemoveMarkers(a), RemoveMarkers(b)]
  {
    KeptLinesAll([a, b]);
    ParseListItems(response, 2);
  }

  lemma MarkersOnlyLines()
    ensures ResponseLines("- - \nabc") == [Marker + Marker, "abc"]
  {
    var response := "- - \nabc";
    var first := Marker + Marker;
    var second := "abc";
    StripTrimmed(response);
    assert response == first + "\n" + second;
    assert Lacks(first, '\n') && Lacks(second, '\n');
    LacksNotContains(first, '\n');
    CleanSingleChar(first, "\n");
    SplitCons(first, "\n", second);
    LacksNotContains(second, '\n');
    SplitNoSeparator(second, "\n");
  }

  lemma DoubleMarkerRemoved()
    ensures RemoveMarkers(Marker + Marker) == ""
  {
    var first := Marker + Marker;
    assert first[..2] == Marker;
    assert Find(first, Marker) == Some(0);
    assert first[2..] == Marker;
    assert ReplaceAll(first, Marker, "") == first[..0] + "" + ReplaceAll(Marker, Marker, "");
    assert Marker[..2] == Marker;
    assert Find(Marker, Marker) == Some(0);
    assert ReplaceAll(Marker, Marker, "") == Marker[..0] + "" + ReplaceAll(Marker[2..], Marker, "");
    assert Marker[2..] == "";
  }
}
