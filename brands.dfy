/**
 * Brands and their cache files (brands.py).
 *
 * A brand is cached as two records, `"title - description"` in the
 * descriptions file and `"title - style1, style2"` in the styles file,
 * each followed by a `---` line. Reading a file back strips and
 * concatenates the lines of each record, splits every record at `" - "`,
 * and fills a dict from title to value; the brands are the titles of the
 * descriptions dict that the styles dict also holds.
 */
module Brands {
  import opened Wrappers
  import opened Text
  import opened Content
  import Utils

  datatype Brand = Brand(title: string, description: string, style: seq<string>)

  /** The styles a new brand gets when none are given (style.py). */
  const DefaultStyles: seq<string> := ["Profesional", "Informativo", "Atractivo"]

  const FieldSeparator: string := " - "
  const StyleSeparator: string := ", "
  /** The `"1. "` numbering a title may carry. */
  const TitleNumbering: string := ". "
  const RecordEnd: string := "---"

  // ---------------------------------------------------------------------
  // Record texts

  /** `to_description_cache_text`. */
  function ToDescriptionCacheText(b: Brand): string {
    b.title + FieldSeparator + b.description
  }

  /** `to_style_cache_text`. */
  function ToStyleCacheText(b: Brand): string {
    b.title + FieldSeparator + Join(b.style, StyleSeparator)
  }

  datatype TitleContent = TitleContent(title: string, content: string)

  /** `split_file_text`: the title is the text before the first `" - "`,
      reduced to its second `". "` piece when it holds a `". "`; the content
      is the text between the first and the second `" - "`. None stands for
      the IndexError raised when there is no `" - "`. */
  function SplitFileText(text: string): (r: Option<TitleContent>)
    ensures r.Some? <==> Contains(text, FieldSeparator)
    ensures r.Some? ==> !Contains(r.value.title, TitleNumbering) && !Contains(r.value.content, FieldSeparator)
  {
    var parts := Split(text, FieldSeparator);
    SplitPiecesLackSeparator(text, FieldSeparator);
    if |parts| < 2 then None
    else
      var head := parts[0];
      SplitPiecesLackSeparator(head, TitleNumbering);
      var title := if Contains(head, TitleNumbering) then Split(head, TitleNumbering)[1] else head;
      Some(TitleContent(title, parts[1]))
  }

  /** The titles that survive a write and a read: one line, not starting
      with whitespace, no `" - "`, not ending with `" -"`, no `". "`. */
  predicate CacheTitle(t: string) {
    t != [] && !IsSpace(t[0]) && Lacks(t, '\n') &&
    !Contains(t, FieldSeparator) && !EndsWith(t, " -") && !Contains(t, TitleNumbering)
  }

  /** The values that survive a write and a read: non-empty, one line, no
      `" - "`, not ending with whitespace. */
  predicate CacheValue(v: string) {
    v != [] && Lacks(v, '\n') && !Contains(v, FieldSeparator) && !IsSpace(v[|v| - 1])
  }

  /** Splitting a written record gives the title and the value back. */
  lemma SplitRecordText(t: string, v: string)
    requires CacheTitle(t) && CacheValue(v)
    ensures SplitFileText(t + FieldSeparator + v) == Some(TitleContent(t, v))
  {
    CleanSpacedDash(t);
    SplitCons(t, FieldSeparator, v);
    SplitNoSeparator(v, FieldSeparator);
  }

  /** A title ending with `" -"` is cut short: the record's first `" - "`
      then starts inside the title. */
  lemma TitleEndingWithDashIsCut()
    ensures SplitFileText(ToDescriptionCacheText(Brand("A -", "d", DefaultStyles))) == Some(TitleContent("A", "- d"))
  {
    var text := ToDescriptionCacheText(Brand("A -", "d", DefaultStyles));
    assert text == "A - - d";
    assert OccursAt(text, FieldSeparator, 1);
    assert text[0..3][0] != FieldSeparator[0];
    FindFirst(text, FieldSeparator, 1);
    var rest := text[4..];
    assert rest == "- d";
    forall k: nat
      ensures !OccursAt(rest, FieldSeparator, k)
    {
      if k == 0 {
        assert rest[0] != FieldSeparator[0];
      }
    }
    FindIsFirstOccurrence(rest, FieldSeparator);
    assert Split(rest, FieldSeparator) == [rest];
    assert Split(text, FieldSeparator) == [text[..1]] + Split(rest, FieldSeparator);
    assert text[..1] == "A";
    assert !Contains("A", TitleNumbering);
  }

  /** A second `" - "` in the description cuts it short. */
  lemma DescriptionCutAtSecondSeparator(t: string, d1: string, d2: string)
    requires CacheTitle(t) && CacheValue(d1) && !EndsWith(d1, " -")
    ensures SplitFileText(t + FieldSeparator + d1 + FieldSeparator + d2) == Some(TitleContent(t, d1))
  {
    CleanSpacedDash(t);
    CleanSpacedDash(d1);
    var text := t + FieldSeparator + d1 + FieldSeparator + d2;
    assert text == t + FieldSeparator + (d1 + FieldSeparator + d2);
    SplitCons(t, FieldSeparator, d1 + FieldSeparator + d2);
    SplitCons(d1, FieldSeparator, d2);
    var parts := Split(text, FieldSeparator);
    assert parts == [t] + ([d1] + Split(d2, FieldSeparator));
    assert parts[0] == t && parts[1] == d1;
  }

  /** The numbering of a title: one word with no spaces or dots, like `"1"`. */
  predicate Numbering(n: string) {
    Lacks(n, ' ') && Lacks(n, '.')
  }

  /** A numbered title loses its numbering. */
  lemma NumberedTitle(n: string, t: string, v: string)
    requires Numbering(n) && CacheTitle(t) && t[0] != '-' && CacheValue(v)
    ensures SplitFileText(n + TitleNumbering + t + FieldSeparator + v) == Some(TitleContent(t, v))
  {
    var head := n + TitleNumbering + t;
    NumberedTitleClean(n, t);
    CleanSpacedDash(head);
    SplitCons(head, FieldSeparator, v);
    SplitNoSeparator(v, FieldSeparator);
    assert n + TitleNumbering + t + FieldSeparator + v == head + FieldSeparator + v;
    NumberingSplitsCleanly(n);
    SplitCons(n, TitleNumbering, t);
    SplitNoSeparator(t, TitleNumbering);
    assert head[|n|..|n| + 2] == TitleNumbering;
    ContainsAt(head, TitleNumbering, |n|);
  }

  lemma NumberingSplitsCleanly(n: string)
    requires Numbering(n)
    ensures SplitsCleanly(n, TitleNumbering)
  {
    var s := n + TitleNumbering;
    assert s[|n|..|n| + 2] == TitleNumbering;
    forall k: nat | k < |n|
      ensures !OccursAt(s, TitleNumbering, k)
    {
      assert s[k..k + 2][0] == n[k];
    }
    FindFirst(s, TitleNumbering, |n|);
  }

  lemma NumberedTitleClean(n: string, t: string)
    requires Numbering(n) && CacheTitle(t) && t[0] != '-'
    ensures !Contains(n + TitleNumbering + t, FieldSeparator) && !EndsWith(n + TitleNumbering + t, " -")
  {
    NumberedTitleNoDashEnd(n, t);
    var head := n + TitleNumbering + t;
    forall k: nat
      ensures !OccursAt(head, FieldSeparator, k)
    {
      NumberedTitleNoSeparatorAt(n, t, k);
    }
    FindIsFirstOccurrence(head, FieldSeparator);
  }

  lemma NumberedTitleNoDashEnd(n: string, t: string)
    requires CacheTitle(t) && t[0] != '-'
    ensures !EndsWith(n + TitleNumbering + t, " -")
  {
    var head := n + TitleNumbering + t;
    if |t| >= 2 {
      assert head[|head| - 2..] == t[|t| - 2..];
    } else {
      assert head[|head| - 2..][1] == t[0];
    }
  }

  lemma NumberedTitleNoSeparatorAt(n: string, t: string, k: nat)
    requires Numbering(n) && CacheTitle(t) && t[0] != '-'
    ensures !OccursAt(n + TitleNumbering + t, FieldSeparator, k)
  {
    var head := n + TitleNumbering + t;
    if k + 3 <= |head| {
      var w := head[k..k + 3];
      if k < |n| {
        assert w[0] == n[k];
      } else if k == |n| {
        assert w[0] == '.';
      } else if k == |n| + 1 {
        assert w[1] == t[0];
      } else {
        assert w == t[k - |n| - 2..k - |n| + 1];
        NotContains(t, FieldSeparator, k - |n| - 2);
      }
    }
  }

  // ---------------------------------------------------------------------
  // Python dicts

  /** A dict from str to str: its values, and its keys in insertion order. */
  datatype Dict = Dict(keys: seq<string>, values: map<string, string>)

  const EmptyDict: Dict := Dict([], map[])

  ghost predicate ValidDict(d: Dict) {
    Distinct(d.keys) && forall k :: k in d.values <==> k in d.keys
  }

  /** `d[key] = value`: a new key goes last, an existing key keeps its place
      and only its value changes. */
  function Put(d: Dict, key: string, value: string): (r: Dict)
    ensures ValidDict(d) ==> ValidDict(r)
    ensures key in r.values && r.values[key] == value
    ensures forall k :: k != key ==> (k in r.values <==> k in d.values)
    ensures forall k :: k != key && k in d.values ==> r.values[k] == d.values[k]
    ensures key in d.values ==> r.keys == d.keys
    ensures key !in d.values ==> r.keys == d.keys + [key]
  {
    Dict(if key in d.values then d.keys else d.keys + [key], d.values[key := value])
  }

  // ---------------------------------------------------------------------
  // parse_brand_file

  /** The records of the remaining lines, `acc` holding the record read so
      far: a line that strips to `---` closes it, any other line adds its
      stripped text; an unclosed last record is dropped. */
  function Records(lines: seq<string>, acc: string): seq<string>
  {
    if lines == [] then []
    else if Strip(lines[0]) == RecordEnd then [acc] + Records(lines[1..], "")
    else Records(lines[1..], acc + Strip(lines[0]))
  }

  /** The dict built from the records: those with a `" - "`, title to content, later ones winning. */
  function MapRecords(texts: seq<string>): (r: Dict)
    ensures ValidDict(r)
  {
    if texts == [] then EmptyDict
    else
      var d := MapRecords(texts[..|texts| - 1]);
      match SplitFileText(texts[|texts| - 1])
      case None => d
      case Some(tc) => Put(d, tc.title, tc.content)
  }

  /** What `parse_brand_file` returns for the lines of a file. */
  function LoadDict(lines: seq<string>): (r: Dict)
    ensures ValidDict(r)
  {
    MapRecords(Records(lines, ""))
  }

  /** The record-collecting loop of `parse_brand_file`. */
  method CollectRecords(lines: seq<string>) returns (brandTexts: seq<string>)
    ensures brandTexts == Records(lines, "")
  {
    brandTexts := [];
    var lastLine := "";
    for i := 0 to |lines|
      invariant brandTexts + Records(lines[i..], lastLine) == Records(lines, "")
    {
      assert lines[i..][1..] == lines[i + 1..];
      var stripped := Strip(lines[i]);
      if stripped == RecordEnd {
        brandTexts := brandTexts + [lastLine];
        lastLine := "";
      } else {
        lastLine := lastLine + stripped;
      }
    }
    assert lines[|lines|..] == [];
  }

  /** The dict-filling loop of `parse_brand_file`. */
  method MapRecordTexts(brandTexts: seq<string>) returns (mapped: Dict)
    ensures mapped == MapRecords(brandTexts)
  {
    mapped := EmptyDict;
    for j := 0 to |brandTexts|
      invariant mapped == MapRecords(brandTexts[..j])
    {
      assert brandTexts[..j + 1][..j] == brandTexts[..j];
      var split := SplitFileText(brandTexts[j]);
      if split.Some? {
        mapped := Put(mapped, split.value.title, split.value.content);
      }
    }
    assert brandTexts[..|brandTexts|] == brandTexts;
  }

  /** `parse_brand_file` over the lines of an open file. */
  method ParseBrandFile(lines: seq<string>) returns (mapped: Dict)
    ensures mapped == LoadDict(lines)
  {
    var brandTexts := CollectRecords(lines);
    mapped := MapRecordTexts(brandTexts);
  }

  /** Lines after the last `---` are dropped. */
  lemma {:induction false} UnclosedRecordDropped(lines: seq<string>, acc: string)
    requires forall k :: 0 <= k < |lines| ==> Strip(lines[k]) != RecordEnd
    ensures Records(lines, acc) == []
  {
    if lines != [] {
      UnclosedRecordDropped(lines[1..], acc + Strip(lines[0]));
    }
  }

  /** The stripped lines of a record, concatenated with no separator. */
  function Concat(lines: seq<string>): string {
    if lines == [] then "" else Strip(lines[0]) + Concat(lines[1..])
  }

  /** A closed record is its stripped lines run together. */
  lemma {:induction false} RecordIsConcatenation(lines: seq<string>, acc: string, rest: seq<string>)
    requires forall k :: 0 <= k < |lines| ==> Strip(lines[k]) != RecordEnd
    requires Strip(RecordEnd) == RecordEnd
    ensures Records(lines + [RecordEnd] + rest, acc) == [acc + Concat(lines)] + Records(rest, "")
    decreases |lines|
  {
    var all := lines + [RecordEnd] + rest;
    if lines == [] {
      assert all == [RecordEnd] + rest;
      assert all[0] == RecordEnd;
      assert all[1..] == rest;
      assert Concat(lines) == "";
      assert acc + Concat(lines) == acc;
    } else {
      assert all[0] == lines[0];
      assert all[1..] == lines[1..] + [RecordEnd] + rest;
      RecordIsConcatenation(lines[1..], acc + Strip(lines[0]), rest);
      assert acc + Strip(lines[0]) + Concat(lines[1..]) == acc + Concat(lines);
    }
  }

  /** `---` and the empty line are their own strips. */
  lemma StrippedConstants()
    ensures Strip(RecordEnd) == RecordEnd && Strip("") == ""
  {
    StripTrimmed(RecordEnd);
    StripTrimmed("");
  }

  /** A later record with the same title replaces the value and keeps the title's place. */
  lemma LaterRecordWins(texts: seq<string>, text: string, tc: TitleContent)
    requires SplitFileText(text) == Some(tc)
    requires tc.title in MapRecords(texts).values
    ensures MapRecords(texts + [text]).values[tc.title] == tc.content
    ensures MapRecords(texts + [text]).keys == MapRecords(texts).keys
  {
    assert (texts + [text])[..|texts|] == texts;
  }

  /** A record without `" - "` adds nothing. */
  lemma RecordWithoutSeparatorSkipped(texts: seq<string>, text: string)
    requires !Contains(text, FieldSeparator)
    ensures MapRecords(texts + [text]) == MapRecords(texts)
  {
    assert (texts + [text])[..|texts|] == texts;
  }

  // ---------------------------------------------------------------------
  // get_cached_brands

  /** The brands of the titles listed, in order: those the styles dict also holds. */
  function MatchBrands(titles: seq<string>, descriptions: map<string, string>, styles: map<string, string>): (r: seq<Brand>)
    requires forall k :: 0 <= k < |titles| ==> titles[k] in descriptions
    ensures |r| <= |titles|
  {
    if titles == [] then []
    else
      var t := titles[|titles| - 1];
      MatchBrands(titles[..|titles| - 1], descriptions, styles) +
        (if t in styles then [Brand(t, descriptions[t], Split(styles[t], StyleSeparator))] else [])
  }

  /** What `get_cached_brands` returns for the two files' lines, None for a
      file that cannot be opened. */
  function CachedBrands(descriptionLines: Option<seq<string>>, styleLines: Option<seq<string>>): seq<Brand>
  {
    if descriptionLines.None? || styleLines.None? then []
    else
      var d := LoadDict(descriptionLines.value);
      var s := LoadDict(styleLines.value);
      MatchBrands(d.keys, d.values, s.values)
  }

  /** `get_cached_brands`: [] when a file is missing, else one brand per title
      in both dicts, in the descriptions file's order. */
  method GetCachedBrands(descriptions: Utils.TextFile, styles: Utils.TextFile) returns (brands: seq<Brand>)
    ensures brands == CachedBrands(descriptions.Lines(), styles.Lines())
  {
    if !descriptions.present || !styles.present {
      return [];
    }
    var descriptionLines := Split(descriptions.content, "\n");
    var styleLines := Split(styles.content, "\n");
    assert descriptions.Lines() == Some(descriptionLines) && styles.Lines() == Some(styleLines);
    var descriptionMap := ParseBrandFile(descriptionLines);
    var styleMap := ParseBrandFile(styleLines);
    assert CachedBrands(descriptions.Lines(), styles.Lines()) == MatchBrands(descriptionMap.keys, descriptionMap.values, styleMap.values);
    brands := [];
    for i := 0 to |descriptionMap.keys|
      invariant brands == MatchBrands(descriptionMap.keys[..i], descriptionMap.values, styleMap.values)
    {
      var title := descriptionMap.keys[i];
      assert descriptionMap.keys[..i + 1][..i] == descriptionMap.keys[..i];
      if title in styleMap.values {
        brands := brands + [Brand(title, descriptionMap.values[title], Split(styleMap.values[title], StyleSeparator))];
      }
    }
    assert descriptionMap.keys[..|descriptionMap.keys|] == descriptionMap.keys;
  }

  /** A brand is listed exactly for the titles of both dicts, with the
      description of one and the split style of the other. */
  lemma {:induction false} MatchBrandsMembers(titles: seq<string>, descriptions: map<string, string>, styles: map<string, string>, b: Brand)
    requires forall k :: 0 <= k < |titles| ==> titles[k] in descriptions
    ensures b in MatchBrands(titles, descriptions, styles) <==>
      b.title in titles && b.title in styles &&
      b.description == descriptions[b.title] && b.style == Split(styles[b.title], StyleSeparator)
  {
    if titles != [] {
      var init := titles[..|titles| - 1];
      MatchBrandsMembers(init, descriptions, styles, b);
      assert titles == init + [titles[|titles| - 1]];
    }
  }

  /** Listed brands keep the descriptions file's title order, so no title is listed twice. */
  lemma {:induction false} MatchBrandsOrdered(titles: seq<string>, descriptions: map<string, string>, styles: map<string, string>)
    requires forall k :: 0 <= k < |titles| ==> titles[k] in descriptions
    requires Distinct(titles)
    ensures forall i, j :: 0 <= i < j < |MatchBrands(titles, descriptions, styles)| ==>
      MatchBrands(titles, descriptions, styles)[i].title != MatchBrands(titles, descriptions, styles)[j].title
  {
    if titles != [] {
      var init := titles[..|titles| - 1];
      var t := titles[|titles| - 1];
      MatchBrandsOrdered(init, descriptions, styles);
      var r := MatchBrands(init, descriptions, styles);
      forall b | b in r
        ensures b.title != t
      {
        MatchBrandsMembers(init, descriptions, styles, b);
        var k :| 0 <= k < |init| && init[k] == b.title;
        assert titles[k] == init[k];
      }
    }
  }

  // ---------------------------------------------------------------------
  // from_title, create_new_brand, save_in_cache, request_brand

  /** `from_title`: the first cached brand with the title, or None. */
  method FromTitle(descriptions: Utils.TextFile, styles: Utils.TextFile, title: string) returns (r: Option<Brand>)
    ensures r.Some? ==> r.value.title == title && r.value in CachedBrands(descriptions.Lines(), styles.Lines())
    ensures r.Some? ==> exists i :: (0 <= i < |CachedBrands(descriptions.Lines(), styles.Lines())| &&
      CachedBrands(descriptions.Lines(), styles.Lines())[i] == r.value &&
      forall j :: 0 <= j < i ==> CachedBrands(descriptions.Lines(), styles.Lines())[j].title != title)
    ensures r.None? <==> forall b :: b in CachedBrands(descriptions.Lines(), styles.Lines()) ==> b.title != title
  {
    var brands := GetCachedBrands(descriptions, styles);
    for i := 0 to |brands|
      invariant forall j :: 0 <= j < i ==> brands[j].title != title
    {
      if brands[i].title == title {
        assert brands[i] in brands;
        assert forall j :: 0 <= j < i ==> brands[j].title != title;
        return Some(brands[i]);
      }
    }
    assert forall b :: b in brands ==> b.title != title;
    return None;
  }

  /** `save_in_cache`: append the description record, then the style record. */
  method SaveInCache(b: Brand, descriptions: Utils.TextFile, styles: Utils.TextFile)
    requires descriptions != styles
    modifies descriptions, styles
    ensures descriptions.present && styles.present
    ensures descriptions.content == (if old(descriptions.present) then old(descriptions.content) else "") + Utils.Record(ToDescriptionCacheText(b))
    ensures styles.content == (if old(styles.present) then old(styles.content) else "") + Utils.Record(ToStyleCacheText(b))
  {
    Utils.AddItemToFile(descriptions, ToDescriptionCacheText(b));
    Utils.AddItemToFile(styles, ToStyleCacheText(b));
  }

  /** `create_new_brand`: the default styles stand in for missing ones, and the brand is cached. */
  method CreateNewBrand(title: string, description: string, styles: Option<seq<string>>,
                        descriptionFile: Utils.TextFile, styleFile: Utils.TextFile) returns (b: Brand)
    requires descriptionFile != styleFile
    modifies descriptionFile, styleFile
    ensures b == Brand(title, description, if styles.None? then DefaultStyles else styles.value)
    ensures descriptionFile.present && styleFile.present
    ensures descriptionFile.content == (if old(descriptionFile.present) then old(descriptionFile.content) else "") + Utils.Record(ToDescriptionCacheText(b))
    ensures styleFile.content == (if old(styleFile.present) then old(styleFile.content) else "") + Utils.Record(ToStyleCacheText(b))
  {
    var chosen := if styles.None? then DefaultStyles else styles.value;
    b := Brand(title, description, chosen);
    SaveInCache(b, descriptionFile, styleFile);
  }

  const ExampleTitle: string := "Marca de ejemplo"
  const ExampleDescription: string := "Esta es una marca de ejemplo creada automáticamente."

  /** `request_brand`: the first cached brand, or a newly created example brand when there is none. */
  method RequestBrand(descriptions: Utils.TextFile, styles: Utils.TextFile) returns (b: Brand)
    requires descriptions != styles
    modifies descriptions, styles
    ensures old(CachedBrands(descriptions.Lines(), styles.Lines())) != [] ==>
      b == old(CachedBrands(descriptions.Lines(), styles.Lines()))[0] &&
      unchanged(descriptions) && unchanged(styles)
    ensures old(CachedBrands(descriptions.Lines(), styles.Lines())) == [] ==>
      b == Brand(ExampleTitle, ExampleDescription, DefaultStyles) &&
      descriptions.content == (if old(descriptions.present) then old(descriptions.content) else "") + Utils.Record(ToDescriptionCacheText(b)) &&
      styles.content == (if old(styles.present) then old(styles.content) else "") + Utils.Record(ToStyleCacheText(b))
  {
    var cached := GetCachedBrands(descriptions, styles);
    if cached == [] {
      b := CreateNewBrand(ExampleTitle, ExampleDescription, Some(DefaultStyles), descriptions, styles);
    } else {
      b := cached[0];
    }
  }

  // ---------------------------------------------------------------------
  // Round trips through the cache files

  /** The lines of a file holding one record of a single line. */
  lemma OneRecordFile(x: string)
    requires Lacks(x, '\n')
    ensures Split(Utils.Record(x), "\n") == [x, RecordEnd, ""]
  {
    var pieces := [x, RecordEnd, ""];
    forall k | 0 <= k < 3
      ensures SplitsCleanly(pieces[k], "\n")
    {
      assert Lacks(pieces[k], '\n');
      LacksNotContains(pieces[k], '\n');
      CleanSingleChar(pieces[k], "\n");
    }
    assert Join(pieces[2..], "\n") == "";
    assert Join(pieces[1..], "\n") == RecordEnd + "\n" + Join(pieces[2..], "\n");
    assert Join(pieces, "\n") == x + "\n" + Join(pieces[1..], "\n");
    assert "\n" + RecordEnd + "\n" + "" == "\n---\n";
    assert Join(pieces, "\n") == Utils.Record(x);
    SplitJoin(pieces, "\n");
  }

  /** The lines of one record and its `---` line read back as that record, stripped. */
  lemma OneRecordLines(x: string)
    requires Strip(x) != RecordEnd
    ensures Records([x, RecordEnd, ""], "") == [Strip(x)]
  {
    StrippedConstants();
    var lines := [x, RecordEnd, ""];
    assert lines[0] == x;
    assert lines[1..] == [RecordEnd, ""];
    assert Records(lines, "") == Records(lines[1..], "" + Strip(x));
    assert lines[1..][0] == RecordEnd;
    assert "" + Strip(x) == Strip(x);
    assert Records(lines[1..], "" + Strip(x)) == [Strip(x)] + Records(lines[1..][1..], "");
    assert lines[1..][1..] == [""];
    assert Records([""], "") == Records([], Strip(""));
  }

  /** A file holding one written record reads back as that record, stripped. */
  lemma OneRecordRead(x: string)
    requires Lacks(x, '\n') && Strip(x) != RecordEnd
    ensures Records(Split(Utils.Record(x), "\n"), "") == [Strip(x)]
  {
    OneRecordFile(x);
    OneRecordLines(x);
  }

  /** The dict of a single record. */
  lemma MapOneRecord(x: string)
    ensures SplitFileText(x).None? ==> MapRecords([x]) == EmptyDict
    ensures SplitFileText(x).Some? ==>
      MapRecords([x]) == Dict([SplitFileText(x).value.title], map[SplitFileText(x).value.title := SplitFileText(x).value.content])
  {
    assert [x][..0] == [];
  }

  /** The description record of a cacheable title and value reads back as a one-entry dict. */
  lemma RecordRoundTrip(t: string, v: string)
    requires CacheTitle(t) && CacheValue(v)
    ensures LoadDict(Split(Utils.Record(t + FieldSeparator + v), "\n")) == Dict([t], map[t := v])
  {
    var x := t + FieldSeparator + v;
    assert Lacks(x, '\n');
    assert x[0] == t[0] && x[|x| - 1] == v[|v| - 1];
    StripTrimmed(x);
    assert |x| > 3;
    OneRecordRead(x);
    SplitRecordText(t, v);
    MapOneRecord(x);
  }

  /** What survives a save and a reload: a cacheable title, a cacheable
      description, and a non-empty style list whose items hold no `", "`
      and whose joined text is cacheable. */
  predicate Cacheable(b: Brand) {
    CacheTitle(b.title) && CacheValue(b.description) && |b.style| >= 1 &&
    (forall k :: 0 <= k < |b.style| ==> !Contains(b.style[k], StyleSeparator)) &&
    CacheValue(Join(b.style, StyleSeparator))
  }

  /** Saving a cacheable brand to empty caches and reading them back gives the brand. */
  lemma SaveThenLoad(b: Brand)
    requires Cacheable(b)
    ensures CachedBrands(Some(Split(Utils.Record(ToDescriptionCacheText(b)), "\n")),
                         Some(Split(Utils.Record(ToStyleCacheText(b)), "\n"))) == [b]
  {
    RecordRoundTrip(b.title, b.description);
    RecordRoundTrip(b.title, Join(b.style, StyleSeparator));
    forall k | 0 <= k < |b.style|
      ensures SplitsCleanly(b.style[k], StyleSeparator)
    {
      CleanCommaSpace(b.style[k]);
    }
    SplitJoin(b.style, StyleSeparator);
    assert [b.title][..0] == [];
  }

  /** `"T -"` holds no `" - "` for a cacheable title. */
  lemma TitleDashLacksSeparator(t: string)
    requires CacheTitle(t)
    ensures !Contains(t + " -", FieldSeparator)
  {
    var x := t + FieldSeparator;
    var y := t + " -";
    CleanSpacedDash(t);
    FindIsFirstOccurrence(x, FieldSeparator);
    forall k: nat
      ensures !OccursAt(y, FieldSeparator, k)
    {
      if k + 3 <= |y| {
        assert k < Find(x, FieldSeparator).value;
        assert !OccursAt(x, FieldSeparator, k);
        assert y[k..k + 3] == x[k..k + 3];
      }
    }
    FindIsFirstOccurrence(y, FieldSeparator);
  }

  /** A record with an empty value, `"T - "`, strips to `"T -"` and is skipped. */
  lemma EmptyValueRecordSkipped(t: string)
    requires CacheTitle(t)
    ensures LoadDict(Split(Utils.Record(t + FieldSeparator), "\n")) == EmptyDict
  {
    var x := t + FieldSeparator;
    var y := t + " -";
    assert x == y + " ";
    assert Lacks(x, '\n');
    StripTrailingSpace(y);
    assert y != RecordEnd by {
      assert y[|y| - 2] == ' ';
    }
    OneRecordRead(x);
    TitleDashLacksSeparator(t);
    MapOneRecord(y);
  }

  /** A brand saved with an empty description disappears on reload. */
  lemma EmptyDescriptionDisappears(b: Brand)
    requires CacheTitle(b.title) && b.description == ""
    ensures CachedBrands(Some(Split(Utils.Record(ToDescriptionCacheText(b)), "\n")),
                         Some(Split(Utils.Record(ToStyleCacheText(b)), "\n"))) == []
  {
    assert ToDescriptionCacheText(b) == b.title + FieldSeparator;
    EmptyValueRecordSkipped(b.title);
  }

  /** A brand saved with no styles disappears on reload. */
  lemma EmptyStylesDisappear(b: Brand)
    requires CacheTitle(b.title) && CacheValue(b.description) && b.style == []
    ensures CachedBrands(Some(Split(Utils.Record(ToDescriptionCacheText(b)), "\n")),
                         Some(Split(Utils.Record(ToStyleCacheText(b)), "\n"))) == []
  {
    assert ToStyleCacheText(b) == b.title + FieldSeparator;
    EmptyValueRecordSkipped(b.title);
    RecordRoundTrip(b.title, b.description);
    assert [b.title][..0] == [];
  }

  /** A non-empty style list whose items hold no `", "` survives joining and splitting. */
  lemma StyleListRoundTrip(style: seq<string>)
    requires |style| >= 1
    requires forall k :: 0 <= k < |style| ==> !Contains(style[k], StyleSeparator)
    ensures Split(Join(style, StyleSeparator), StyleSeparator) == style
  {
    forall k | 0 <= k < |style|
      ensures SplitsCleanly(style[k], StyleSeparator)
    {
      CleanCommaSpace(style[k]);
    }
    SplitJoin(style, StyleSeparator);
  }
}
