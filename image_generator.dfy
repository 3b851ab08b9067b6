/**
 * generators/image_generator.py: the complexity classifier of an image
 * prompt, the quality fallback, the request sent to the image API and the
 * path the downloaded image is saved under. The API, the download, the
 * clock and the directory listing are parameters.
 */
module ImageGenerator {
  import opened Wrappers
  import opened Text
  import opened Llm

  // ---------------------------------------------------------------------
  // analyze_image_complexity

  /** The terms that suggest a complex picture; "photorealistic" is listed twice. */
  const ComplexityTerms: seq<string> := [
    "detailed", "intricate", "complex", "multiple", "scene",
    "realistic", "photorealistic", "high-quality", "specific layout",
    "particular arrangement", "precise", "exact", "photorealistic",
    "perspective", "angle", "composition"]

  /** `term.lower() in text.lower()`: the lowercased term occurs somewhere in the lowercased text. */
  predicate Matches(text: string, term: string) {
    exists i: nat | i <= |text| :: OccursAt(Lower(text), Lower(term), i)
  }

  /** The occurrence test is Python's `in`. */
  lemma MatchesIsContains(text: string, term: string)
    ensures Matches(text, term) <==> Contains(Lower(text), Lower(term))
  {
    FindIsFirstOccurrence(Lower(text), Lower(term));
    if Contains(Lower(text), Lower(term)) {
      assert OccursAt(Lower(text), Lower(term), Find(Lower(text), Lower(term)).value);
    }
  }

  /** How many of the first `n` entries of `terms` occur in `text`, each
      entry counted once, duplicates included. */
  function CountMatches(terms: seq<string>, text: string, n: nat): (r: nat)
    requires n <= |terms|
    ensures r <= n
  {
    if n == 0 then 0
    else CountMatches(terms, text, n - 1) + (if Matches(text, terms[n - 1]) then 1 else 0)
  }

  /** The sum over the term list in `analyze_image_complexity`. */
  function ComplexityCount(prompt: string): (r: nat)
    ensures r <= 16
  {
    CountMatches(ComplexityTerms, prompt, |ComplexityTerms|)
  }

  datatype Complexity = LowComplexity | MediumComplexity | HighComplexity

  /** The level's name as the function returns it. */
  function ComplexityName(c: Complexity): string {
    match c
    case LowComplexity => "low"
    case MediumComplexity => "medium"
    case HighComplexity => "high"
  }

  function ComplexityRank(c: Complexity): nat {
    match c
    case LowComplexity => 0
    case MediumComplexity => 1
    case HighComplexity => 2
  }

  /** The thresholds: at most 2 terms is low, 3 to 5 is medium, 6 or more is high. */
  function LevelOf(count: nat): (r: Complexity)
    ensures r == LowComplexity <==> count <= 2
    ensures r == MediumComplexity <==> 3 <= count <= 5
    ensures r == HighComplexity <==> count >= 6
  {
    if count <= 2 then LowComplexity
    else if count <= 5 then MediumComplexity
    else HighComplexity
  }

  function AnalyzeImageComplexity(prompt: string): Complexity {
    LevelOf(ComplexityCount(prompt))
  }

  /** The level never falls as the count grows. */
  lemma LevelMonotone(c1: nat, c2: nat)
    requires c1 <= c2
    ensures ComplexityRank(LevelOf(c1)) <= ComplexityRank(LevelOf(c2))
  {
  }

  /** A term found in a prompt is still found once text is added around it. */
  lemma {:induction false} CountMatchesGrows(terms: seq<string>, a: string, prompt: string, b: string, n: nat)
    requires n <= |terms|
    ensures CountMatches(terms, prompt, n) <= CountMatches(terms, a + prompt + b, n)
  {
    if n > 0 {
      CountMatchesGrows(terms, a, prompt, b, n - 1);
      var last := terms[n - 1];
      if Matches(prompt, last) {
        var i: nat :| i <= |prompt| && OccursAt(Lower(prompt), Lower(last), i);
        assert |Lower(last)| == |last| && |Lower(prompt)| == |prompt|;
        LowerConcat(a, prompt);
        LowerConcat(a + prompt, b);
        var whole := Lower(a) + Lower(prompt) + Lower(b);
        assert whole[|a| + i..|a| + i + |last|] == Lower(prompt)[i..i + |last|];
        assert OccursAt(Lower(a + prompt + b), Lower(last), |a| + i);
      }
    }
  }

  /** Extending a prompt on either side never lowers its complexity level. */
  lemma ExtendingKeepsLevel(a: string, prompt: string, b: string)
    ensures ComplexityRank(AnalyzeImageComplexity(prompt)) <= ComplexityRank(AnalyzeImageComplexity(a + prompt + b))
  {
    CountMatchesGrows(ComplexityTerms, a, prompt, b, |ComplexityTerms|);
    LevelMonotone(ComplexityCount(prompt), ComplexityCount(a + prompt + b));
  }

  /** A term holding a character that the text lacks does not match. */
  lemma NoMatchByChar(text: string, term: string, k: nat, c: char)
    requires k < |term| && Lower(term)[k] == c && Lacks(Lower(text), c)
    ensures !Matches(text, term)
  {
    forall i: nat
      ensures !OccursAt(Lower(text), Lower(term), i)
    {
      if i + |term| <= |text| {
        assert Lower(text)[i..i + |term|][k] == Lower(text)[i + k];
      }
    }
  }

  const Photorealistic: string := "photorealistic"

  /** The letters of "photorealistic"; only the first is a 'p'. */
  lemma PhotorealisticLetters()
    ensures Lower(Photorealistic) == Photorealistic
    ensures forall k :: 0 <= k < |Photorealistic| ==>
      Photorealistic[k] in {'p', 'h', 'o', 't', 'r', 'e', 'a', 'l', 'i', 's', 'c'}
    ensures forall k :: 1 <= k < |Photorealistic| ==> Photorealistic[k] != 'p'
  {
  }

  /** The entries "photorealistic" matches: "realistic" and both "photorealistic"s. */
  lemma PhotorealisticMatches()
    ensures Matches(Photorealistic, ComplexityTerms[5])
    ensures Matches(Photorealistic, ComplexityTerms[6])
    ensures Matches(Photorealistic, ComplexityTerms[12])
  {
    var p := Photorealistic;
    PhotorealisticLetters();
    assert Lower(ComplexityTerms[5]) == p[5..];
    assert OccursAt(Lower(p), Lower(ComplexityTerms[5]), 5);
    assert Lower(ComplexityTerms[6]) == p;
    assert OccursAt(Lower(p), Lower(ComplexityTerms[6]), 0);
  }

  /** An entry holding a letter that "photorealistic" lacks is not matched by it. */
  lemma PhotorealisticMisses(i: nat, k: nat, c: char)
    requires i < |ComplexityTerms| && k < |ComplexityTerms[i]|
    requires ComplexityTerms[i][k] == c && 'a' <= c <= 'z'
    requires c !in {'p', 'h', 'o', 't', 'r', 'e', 'a', 'l', 'i', 's', 'c'}
    ensures !Matches(Photorealistic, ComplexityTerms[i])
  {
    PhotorealisticLetters();
    NoMatchByChar(Photorealistic, ComplexityTerms[i], k, c);
  }

  lemma PhotorealisticMissesFirstFive()
    ensures forall i :: 0 <= i < 5 ==> !Matches(Photorealistic, ComplexityTerms[i])
  {
    PhotorealisticMisses(0, 0, 'd');
    PhotorealisticMisses(1, 1, 'n');
    PhotorealisticMisses(2, 2, 'm');
    PhotorealisticMisses(3, 0, 'm');
    PhotorealisticMisses(4, 3, 'n');
  }

  lemma PhotorealisticMissesMiddle()
    ensures forall i :: 7 <= i < 10 ==> !Matches(Photorealistic, ComplexityTerms[i])
  {
    PhotorealisticMisses(7, 2, 'g');
    PhotorealisticMisses(8, 5, 'f');
    PhotorealisticMisses(9, 6, 'u');
  }

  lemma PhotorealisticMissesLast()
    ensures !Matches(Photorealistic, ComplexityTerms[11])
    ensures forall i :: 13 <= i < 16 ==> !Matches(Photorealistic, ComplexityTerms[i])
  {
    PhotorealisticMisses(11, 1, 'x');
    PhotorealisticMisses(13, 9, 'v');
    PhotorealisticMisses(14, 1, 'n');
    PhotorealisticMisses(15, 2, 'm');
  }

  /** "precise" uses only letters of "photorealistic", but "pr" never occurs in it. */
  lemma PhotorealisticMissesPrecise()
    ensures !Matches(Photorealistic, ComplexityTerms[10])
  {
    var p := Photorealistic;
    var t := ComplexityTerms[10];
    PhotorealisticLetters();
    assert Lower(t)[0] == 'p' && Lower(t)[1] == 'r';
    forall i: nat
      ensures !OccursAt(Lower(p), Lower(t), i)
    {
      if i + |t| <= |p| {
        assert p[i..i + |t|][0] == p[i];
        assert p[i..i + |t|][1] == p[i + 1];
      }
    }
  }

  /** "photorealistic" on its own counts three matches, so the level is medium. */
  lemma PhotorealisticIsMedium()
    ensures ComplexityCount(Photorealistic) == 3
    ensures AnalyzeImageComplexity(Photorealistic) == MediumComplexity
  {
    var p := Photorealistic;
    var t := ComplexityTerms;
    PhotorealisticMatches();
    PhotorealisticMissesFirstFive();
    PhotorealisticMissesMiddle();
    PhotorealisticMissesLast();
    PhotorealisticMissesPrecise();
    assert CountMatches(t, p, 5) == 0;
    assert CountMatches(t, p, 7) == 2;
    assert CountMatches(t, p, 12) == 2;
    assert CountMatches(t, p, 16) == 3;
  }

  /** Counting over more entries never gives less. */
  lemma {:induction false} CountMatchesPrefix(terms: seq<string>, text: string, m: nat, n: nat)
    requires m <= n <= |terms|
    ensures CountMatches(terms, text, m) <= CountMatches(terms, text, n)
    decreases n - m
  {
    if m < n {
      CountMatchesPrefix(terms, text, m, n - 1);
    }
  }

  /** Any prompt that mentions "photorealistic" matches three entries and is at least medium. */
  lemma MentioningPhotorealistic(prompt: string)
    requires Matches(prompt, Photorealistic)
    ensures ComplexityCount(prompt) >= 3
    ensures AnalyzeImageComplexity(prompt) != LowComplexity
  {
    var t := ComplexityTerms;
    var p := Photorealistic;
    var low := Lower(prompt);
    PhotorealisticLetters();
    var i: nat :| i <= |prompt| && OccursAt(low, Lower(p), i);
    assert low[i..i + |p|] == p;
    assert Lower(t[5]) == p[5..];
    assert low[i + 5..i + |p|] == p[5..];
    assert OccursAt(low, Lower(t[5]), i + 5);
    assert Lower(t[6]) == p && Lower(t[12]) == p;
    assert Matches(prompt, t[5]) && Matches(prompt, t[6]) && Matches(prompt, t[12]);
    CountMatchesPrefix(t, prompt, 0, 5);
    CountMatchesPrefix(t, prompt, 7, 12);
    CountMatchesPrefix(t, prompt, 13, 16);
  }

  // ---------------------------------------------------------------------
  // generate_image_with_openai

  const StandardQuality: string := "standard"
  const HdQuality: string := "hd"

  /** The quality sent: a valid one is kept; any other becomes "hd" in HIGH mode and "standard" otherwise. */
  function EffectiveQuality(quality: string, mode: GenerationMode): (r: string)
    ensures r == StandardQuality || r == HdQuality
    ensures quality == StandardQuality || quality == HdQuality ==> r == quality
    ensures quality != StandardQuality && quality != HdQuality ==> (r == HdQuality <==> mode == High)
  {
    if quality == StandardQuality || quality == HdQuality then quality
    else if mode == High then HdQuality
    else StandardQuality
  }

  /** The arguments of `openai.images.generate`. */
  datatype ImageRequest = ImageRequest(model: string, prompt: string, size: string, quality: string, n: nat)

  function BuildImageRequest(prompt: string, mode: GenerationMode, size: string, quality: string): (r: ImageRequest)
    ensures r.model == ModelFor(Image, mode) && r.n == 1
    ensures r.prompt == prompt && r.size == size
    ensures r.quality == EffectiveQuality(quality, mode)
  {
    ImageRequest(ImageModel, prompt, size, EffectiveQuality(quality, mode), 1)
  }

  const ImagesDir: string := "results/images"
  const FilePrefix: string := "post_"
  const FileSuffix: string := ".png"

  /** `results/images/post_{existing_images + 1}_{timestamp}.png`. */
  function ImagePath(existingImages: nat, timestamp: string): (r: string)
    ensures StartsWith(r, ImagesDir + "/" + FilePrefix)
    ensures EndsWith(r, FileSuffix)
  {
    var r := ImagesDir + "/" + FilePrefix + NatToString(existingImages + 1) + "_" + timestamp + FileSuffix;
    assert r[..|ImagesDir + "/" + FilePrefix|] == ImagesDir + "/" + FilePrefix;
    assert r[|r| - |FileSuffix|..] == FileSuffix;
    r
  }

  /** In digits followed by `_`, the first `_` stands right after the digits. */
  lemma UnderscoreAfterDigits(d: string, x: string)
    requires forall k :: 0 <= k < |d| ==> IsDigit(d[k])
    ensures (d + "_" + x)[|d|] == '_'
    ensures forall k :: 0 <= k < |d| ==> (d + "_" + x)[k] != '_'
  {
  }

  /** The number before the first `_` of a digits-then-underscore string is determined by it. */
  lemma {:induction false} DigitsBeforeUnderscore(d1: string, d2: string, x1: string, x2: string)
    requires forall k :: 0 <= k < |d1| ==> IsDigit(d1[k])
    requires forall k :: 0 <= k < |d2| ==> IsDigit(d2[k])
    requires d1 + "_" + x1 == d2 + "_" + x2
    ensures d1 == d2 && x1 == x2
  {
    var s := d1 + "_" + x1;
    UnderscoreAfterDigits(d1, x1);
    UnderscoreAfterDigits(d2, x2);
    assert |d1| == |d2|;
    assert d1 == s[..|d1|] == d2;
    assert x1 == s[|d1| + 1..] == x2;
  }

  /** Two saves never share a path unless both the file count and the timestamp agree. */
  lemma ImagePathInjective(e1: nat, t1: string, e2: nat, t2: string)
    requires ImagePath(e1, t1) == ImagePath(e2, t2)
    ensures e1 == e2 && t1 == t2
  {
    var p := ImagesDir + "/" + FilePrefix;
    var n1 := NatToString(e1 + 1);
    var n2 := NatToString(e2 + 1);
    var s1 := n1 + "_" + (t1 + FileSuffix);
    var s2 := n2 + "_" + (t2 + FileSuffix);
    assert ImagePath(e1, t1) == p + s1;
    assert ImagePath(e2, t2) == p + s2;
    assert s1 == (p + s1)[|p|..];
    assert s2 == (p + s2)[|p|..];
    DigitsBeforeUnderscore(n1, n2, t1 + FileSuffix, t2 + FileSuffix);
    NatToStringInjective(e1 + 1, e2 + 1);
    assert t1 == (t1 + FileSuffix)[..|t1|];
    assert t2 == (t2 + FileSuffix)[..|t2|];
  }

  /** What the call ends with: the saved path, or the exception it re-raises. */
  datatype ImageResult = Saved(path: string) | Raised

  /**
   * `generate_image_with_openai`. `keySet` says whether an API key is
   * configured or found in the environment; `images` is the image API
   * (the URL of the first image, or None when it raises); `download` gives
   * the HTTP status of fetching a URL; `existingImages` is the number of
   * files already in results/images and `timestamp` the formatted clock.
   */
  function GenerateImageWithOpenAI(
    prompt: string, mode: GenerationMode, size: string, quality: string,
    keySet: bool, images: ImageRequest -> Option<string>, download: string -> int,
    existingImages: nat, timestamp: string): (r: ImageResult)
    ensures r.Saved? <==>
      keySet && images(BuildImageRequest(prompt, mode, size, quality)).Some? &&
      download(images(BuildImageRequest(prompt, mode, size, quality)).value) == 200
    ensures r.Saved? ==> r.path == ImagePath(existingImages, timestamp)
  {
    if !keySet then Raised
    else
      match images(BuildImageRequest(prompt, mode, size, quality))
      case None => Raised
      case Some(url) =>
        if download(url) != 200 then Raised
        else Saved(ImagePath(existingImages, timestamp))
  }

  /** `generate_image_with_hf`: the same call with the default mode, size
      and quality, so it asks dall-e-3 for one standard 1024x1024 image and
      saves it under the naming rule exactly when that request succeeds. */
  function GenerateImageWithHf(
    prompt: string, keySet: bool, images: ImageRequest -> Option<string>, download: string -> int,
    existingImages: nat, timestamp: string): (r: ImageResult)
    ensures r.Saved? <==>
      keySet && images(ImageRequest(ImageModel, prompt, "1024x1024", StandardQuality, 1)).Some? &&
      download(images(ImageRequest(ImageModel, prompt, "1024x1024", StandardQuality, 1)).value) == 200
    ensures r.Saved? ==> r.path == ImagePath(existingImages, timestamp)
  {
    DefaultRequest(prompt);
    GenerateImageWithOpenAI(prompt, Medium, "1024x1024", StandardQuality, keySet, images, download, existingImages, timestamp)
  }

  /** The default call sends standard quality to dall-e-3. */
  lemma DefaultRequest(prompt: string)
    ensures BuildImageRequest(prompt, Medium, "1024x1024", StandardQuality) ==
      ImageRequest(ImageModel, prompt, "1024x1024", StandardQuality, 1)
  {
  }
}
