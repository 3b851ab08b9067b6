/**
 * The content-generation run of app.py: the promotional keyword test, the
 * instructions each generator receives, and the loop over topics, ideas,
 * platforms and images that fills the generated-content record and counts
 * progress. The model's answers, the posts and the image outcomes are
 * parameters; the Streamlit widgets are not part of this model.
 */
module App {
  import opened Wrappers
  import opened Text
  import opened Llm
  import opened Content
  import ListOutput
  import Brands
  import TopicGenerator
  import IdeaGenerator
  import ImagePromptGenerator
  import Prompts

  // ---------------------------------------------------------------------
  // Quality selection

  /** The Spanish quality options mapped to the English labels `from_string` expects. */
  function QualityMapping(option: string): Option<string> {
    if option == ModeToString(Low) then Some(EnglishLabel(Low))
    else if option == ModeToString(Medium) then Some(EnglishLabel(Medium))
    else if option == ModeToString(High) then Some(EnglishLabel(High))
    else None
  }

  /** Every quality option selects its own mode through the mapping. */
  lemma QualityOptionSelectsMode(m: GenerationMode)
    ensures QualityMapping(GetModeStrings()[Rank(m)]).Some?
    ensures FromString(QualityMapping(GetModeStrings()[Rank(m)]).value) == Some(m)
  {
    ModeStringRoundTrip(m);
  }

  // ---------------------------------------------------------------------
  // Promotional requests

  const PromoKeywords: seq<string> :=
    ["promocion", "promoción", "venta", "producto", "servicio", "app", "aplicación", "lanzamiento", "nueva"]

  /** `any(keyword in expansion.lower() for keyword in [...])`. */
  predicate IsPromotional(expansion: string) {
    exists k :: 0 <= k < |PromoKeywords| && Contains(Lower(expansion), PromoKeywords[k])
  }

  /** The keywords are written in lowercase, so lowercasing leaves them as they are. */
  lemma KeywordsAreLowercase()
    ensures forall k :: 0 <= k < |PromoKeywords| ==> Lower(PromoKeywords[k]) == PromoKeywords[k]
  {
  }

  /** A keyword anywhere in the text, even inside a longer word and in any
      case, makes the request promotional. */
  lemma KeywordAnywhere(a: string, word: string, b: string, k: nat)
    requires k < |PromoKeywords| && Lower(word) == PromoKeywords[k]
    ensures IsPromotional(a + word + b)
  {
    LowerConcat(a, word);
    LowerConcat(a + word, b);
    OccursBetween(Lower(a), Lower(word), Lower(b));
    ContainsAt(Lower(a + word + b), PromoKeywords[k], |Lower(a)|);
  }

  /** "app" is a keyword, so any word holding it, such as "WhatsApp", counts. */
  lemma WhatsAppIsPromotional()
    ensures IsPromotional("Usa WhatsApp")
  {
    assert Lower("App") == PromoKeywords[5];
    KeywordAnywhere("Usa Whats", "App", "", 5);
    assert "Usa Whats" + "App" + "" == "Usa WhatsApp";
  }

  /** An empty expansion is never promotional. */
  lemma EmptyIsNotPromotional()
    ensures !IsPromotional("")
  {
    forall k | 0 <= k < |PromoKeywords|
      ensures !Contains(Lower(""), PromoKeywords[k])
    {
      assert |PromoKeywords[k]| > 0;
      FindIsFirstOccurrence(Lower(""), PromoKeywords[k]);
    }
  }

  const TopicPromoPrefix: string :=
    "IMPORTANTE: Este contenido debe promocionar " +
    "o vender un producto/servicio. "
  const IdeaPromoPrefix: string :=
    "IMPORTANTE: Estas ideas deben promocionar " +
    "directamente el producto/servicio mencionado: "
  const PostPromoPrefix: string := "IMPORTANTE - PROMOCIÓN: "
  const PostStyleLabel: string := "\nEstilo específico: "
  const ImagePromoPrefix: string := "PROMOCIONAL: "

  /** The extra instructions each generator receives. */
  datatype RunInstructions = RunInstructions(topics: string, ideas: string, posts: string, image: Option<string>)

  /** Promotional runs prefix the user's text with a fixed demand for each
      generator; other runs pass it through, with no image instructions. */
  function SelectInstructions(expansion: string, postsExpansion: string): (r: RunInstructions)
    ensures IsPromotional(expansion) ==>
      r.topics == TopicPromoPrefix + expansion && r.ideas == IdeaPromoPrefix + expansion &&
      r.posts == PostPromoPrefix + expansion + PostStyleLabel + postsExpansion &&
      r.image == Some(ImagePromoPrefix + expansion)
    ensures !IsPromotional(expansion) ==>
      r.topics == expansion && r.ideas == expansion && r.posts == postsExpansion && r.image == None
  {
    if IsPromotional(expansion) then
      RunInstructions(TopicPromoPrefix + expansion, IdeaPromoPrefix + expansion,
                      PostPromoPrefix + expansion + PostStyleLabel + postsExpansion,
                      Some(ImagePromoPrefix + expansion))
    else
      RunInstructions(expansion, expansion, postsExpansion, None)
  }

  /** The image prompt generator sees a promotional request exactly when the
      run is promotional, and a promotional run always sends the topic and
      idea generators their priority paragraph. */
  lemma InstructionsAgree(expansion: string, postsExpansion: string)
    ensures ImagePromptGenerator.IsPromotionalRequest(SelectInstructions(expansion, postsExpansion).image)
      <==> IsPromotional(expansion)
    ensures IsPromotional(expansion) ==>
      SelectInstructions(expansion, postsExpansion).topics != "" &&
      SelectInstructions(expansion, postsExpansion).ideas != ""
  {
    if IsPromotional(expansion) {
      var imagePrefix := "";
      assert ImagePromoPrefix == "PROMOCIONAL" + ": ";
      assert ImagePromoPrefix + expansion == imagePrefix + ImagePromptGenerator.PromoKeyword + (": " + expansion);
      ImagePromptGenerator.KeywordMakesPromotional(imagePrefix, ": " + expansion);
    }
  }

  // ---------------------------------------------------------------------
  // Progress accounting

  /** `items_per_idea`: one per platform, plus one for the image. */
  function ItemsPerIdea(platformCount: nat, images: bool): nat {
    platformCount + (if images then 1 else 0)
  }

  /** `total_items`, computed once the topics are known. */
  function TotalItems(topicCount: nat, ideasPerTopic: int, platformCount: nat, images: bool): int {
    1 + topicCount * ideasPerTopic * (1 + ItemsPerIdea(platformCount, images))
  }

  /** The counter's moves for `ideaCount` ideas of `perIdea` items each,
      counted one idea at a time as the loop does. */
  function IdeaSteps(ideaCount: nat, perIdea: nat): nat {
    if ideaCount == 0 then 0 else IdeaSteps(ideaCount - 1, perIdea) + perIdea
  }

  /** One idea at a time adds up to the product. */
  lemma {:induction false} IdeaStepsProduct(ideaCount: nat, perIdea: nat)
    ensures IdeaSteps(ideaCount, perIdea) == ideaCount * perIdea
  {
    if ideaCount > 0 {
      IdeaStepsProduct(ideaCount - 1, perIdea);
      assert (ideaCount - 1) * perIdea + perIdea == ideaCount * perIdea;
    }
  }

  /** The moves for two runs of ideas add up. */
  lemma {:induction false} IdeaStepsAdd(a: nat, b: nat, perIdea: nat)
    ensures IdeaSteps(a + b, perIdea) == IdeaSteps(a, perIdea) + IdeaSteps(b, perIdea)
  {
    if b > 0 {
      IdeaStepsAdd(a, b - 1, perIdea);
    }
  }

  /** One pass of the topic loop keeps the counter at one for the topics,
      one per topic and the moves for the ideas so far. */
  lemma CounterStep(completed: nat, t: nat, base: nat, count: nat, perIdea: nat, steps: nat)
    requires completed == 1 + t + IdeaSteps(base, perIdea)
    requires steps == 1 + IdeaSteps(count, perIdea)
    ensures completed + steps == 1 + (t + 1) + IdeaSteps(base + count, perIdea)
  {
    IdeaStepsAdd(base, count, perIdea);
  }

  /** `items_completed` at the end: one for the topics, one per topic, and
      one per idea and platform or image. */
  function FinalCompleted(topicCount: nat, ideaCount: nat, platformCount: nat, images: bool): nat {
    1 + topicCount + IdeaSteps(ideaCount, ItemsPerIdea(platformCount, images))
  }

  /** When no topic yields more ideas than asked for, the count never
      passes the total, so the `min(..., 1.0)` clamp never acts. */
  lemma CompletedWithinTotal(topicCount: nat, ideaCount: nat, ideasPerTopic: int, platformCount: nat, images: bool)
    requires ideasPerTopic >= 1 && ideaCount <= topicCount * ideasPerTopic
    ensures FinalCompleted(topicCount, ideaCount, platformCount, images) <= TotalItems(topicCount, ideasPerTopic, platformCount, images)
  {
    var k := ItemsPerIdea(platformCount, images);
    var tm := topicCount * ideasPerTopic;
    IdeaStepsProduct(ideaCount, k);
    assert topicCount <= tm by {
      assert topicCount * ideasPerTopic >= topicCount * 1;
    }
    assert ideaCount * k <= tm * k;
    assert tm * (1 + k) == tm + tm * k;
    assert topicCount * ideasPerTopic * (1 + k) == tm * (1 + k);
  }

  /** With every topic returning all its ideas, the final count reaches the
      total only when one idea per topic was asked for; the bar is therefore
      set to 1.0 by hand at the end. */
  lemma FullRunReachesTotal(topicCount: nat, ideasPerTopic: int, platformCount: nat, images: bool)
    requires topicCount >= 1 && ideasPerTopic >= 1
    ensures FinalCompleted(topicCount, topicCount * ideasPerTopic, platformCount, images) == TotalItems(topicCount, ideasPerTopic, platformCount, images)
      <==> ideasPerTopic == 1
  {
    var k := ItemsPerIdea(platformCount, images);
    var tm := topicCount * ideasPerTopic;
    IdeaStepsProduct(tm, k);
    assert topicCount * ideasPerTopic * (1 + k) == tm + tm * k;
    if ideasPerTopic > 1 {
      assert tm >= topicCount * 2;
    }
  }

  /** The values the counter takes when it moves `n` times from `c`, one
      step at a time: each is passed to the progress bar as it is reached. */
  function Counts(c: int, n: nat): seq<int> {
    seq(n, i requires 0 <= i < n => c + 1 + i)
  }

  /** One more move adds the next value at the end. */
  lemma CountsSnoc(c: int, n: nat)
    ensures Counts(c, n + 1) == Counts(c, n) + [c + n + 1]
  {
    assert Counts(c, n + 1)[n] == c + n + 1;
  }

  /** Moving `a` times and then `b` times passes the values of `a + b` moves. */
  lemma CountsAppend(c: int, a: nat, b: nat)
    ensures Counts(c, a) + Counts(c + a, b) == Counts(c, a + b)
  {
    var whole := Counts(c, a + b);
    assert forall i :: a <= i < a + b ==> whole[i] == Counts(c + a, b)[i - a];
  }

  /** The value shown first, followed by the values shown after it. */
  lemma CountsCons(c: int, n: nat)
    ensures [c + 1] + Counts(c + 1, n) == Counts(c, 1 + n)
  {
    assert Counts(c, 1) == [c + 1];
    CountsAppend(c, 1, n);
  }

  /** The values since the start, at 1, followed by the next `steps` moves. */
  lemma CountsExtend(c: int, steps: nat, shown: seq<int>, more: seq<int>)
    requires c >= 1 && shown == Counts(1, c - 1) && more == Counts(c, steps)
    ensures shown + more == Counts(1, c + steps - 1)
  {
    CountsAppend(1, c - 1, steps);
  }

  // ---------------------------------------------------------------------
  // The requests the generators send

  /** `IdeaGenerator(brand, number_of_ideas, prompt_expansion, generation_mode).generate_ideas(topic)`:
      the arguments one idea request is made with. `IdeaGenerator.GenerateIdeas`
      states the request they produce. */
  datatype IdeaCall = IdeaCall(brand: Brands.Brand, numberOfIdeas: int, instructions: string,
                               mode: GenerationMode, topic: string)

  /** The selected instructions reach the topic and idea prompts: a
      promotional run ends both with the priority paragraph and its fixed
      demand followed by the user's text; any other run with the user's
      text alone; and an empty text leaves both prompts at their base. */
  lemma PromptsCarryInstructions(brand: Brands.Brand, topicCount: int, ideasPerTopic: int,
                                 expansion: string, postsExpansion: string, topic: string)
    ensures IsPromotional(expansion) ==>
      EndsWith(TopicGenerator.UserPrompt(topicCount, SelectInstructions(expansion, postsExpansion).topics),
               Prompts.PriorityHeader + (TopicPromoPrefix + expansion)) &&
      EndsWith(IdeaGenerator.UserPrompt(ideasPerTopic, topic, brand.style, SelectInstructions(expansion, postsExpansion).ideas),
               Prompts.PriorityHeader + (IdeaPromoPrefix + expansion))
    ensures !IsPromotional(expansion) && expansion != "" ==>
      EndsWith(TopicGenerator.UserPrompt(topicCount, SelectInstructions(expansion, postsExpansion).topics),
               Prompts.PriorityHeader + expansion) &&
      EndsWith(IdeaGenerator.UserPrompt(ideasPerTopic, topic, brand.style, SelectInstructions(expansion, postsExpansion).ideas),
               Prompts.PriorityHeader + expansion)
    ensures expansion == "" ==>
      TopicGenerator.UserPrompt(topicCount, SelectInstructions(expansion, postsExpansion).topics) ==
        TopicGenerator.BasePrompt(topicCount) &&
      IdeaGenerator.UserPrompt(ideasPerTopic, topic, brand.style, SelectInstructions(expansion, postsExpansion).ideas) ==
        IdeaGenerator.BasePrompt(ideasPerTopic, topic, brand.style)
  {
    var r := SelectInstructions(expansion, postsExpansion);
    if expansion == "" {
      EmptyIsNotPromotional();
    }
    InstructionsAgree(expansion, postsExpansion);
    Prompts.PriorityInstructionsShape(TopicGenerator.BasePrompt(topicCount), r.topics);
    Prompts.PriorityInstructionsShape(IdeaGenerator.BasePrompt(ideasPerTopic, topic, brand.style), r.ideas);
  }

  // ---------------------------------------------------------------------
  // The generated content, as functions of the inputs

  /** The `(topic, idea)` pairs one topic contributes. */
  function Pairs(topic: string, ideas: seq<string>): (r: seq<IdeaEntry>)
    ensures |r| == |ideas|
    ensures forall i :: 0 <= i < |r| ==> r[i] == IdeaEntry(topic, ideas[i])
  {
    seq(|ideas|, i requires 0 <= i < |ideas| => IdeaEntry(topic, ideas[i]))
  }

  /** The ideas of the first `n` topics, where `lists(t)` are the ideas the
      `t`-th topic's request returned. */
  function IdeasFrom(topics: seq<string>, lists: nat -> seq<string>, n: nat): seq<IdeaEntry>
    requires n <= |topics|
  {
    if n == 0 then []
    else IdeasFrom(topics, lists, n - 1) + Pairs(topics[n - 1], lists(n - 1))
  }

  /** The idea lists the generator returns: the parse of each answer. */
  function ParsedIdeas(answers: nat -> string, ideasPerTopic: int): nat -> seq<string> {
    (t: nat) => ListOutput.ParseList(answers(t), ideasPerTopic)
  }

  /** The ideas of fewer topics are a prefix of the ideas of more. */
  lemma {:induction false} IdeasFromPrefix(topics: seq<string>, lists: nat -> seq<string>, m: nat, n: nat)
    requires m <= n <= |topics|
    ensures |IdeasFrom(topics, lists, m)| <= |IdeasFrom(topics, lists, n)|
    ensures IdeasFrom(topics, lists, m) ==
            IdeasFrom(topics, lists, n)[..|IdeasFrom(topics, lists, m)|]
    decreases n - m
  {
    if m < n {
      IdeasFromPrefix(topics, lists, m, n - 1);
    }
  }

  /** No topic gives more than `ideasPerTopic` ideas, so `n` topics give at most `n * ideasPerTopic`. */
  lemma {:induction false} IdeasFromBound(topics: seq<string>, lists: nat -> seq<string>, ideasPerTopic: int, n: nat)
    requires n <= |topics| && ideasPerTopic >= 0
    requires forall t: nat :: t < n ==> |lists(t)| <= ideasPerTopic
    ensures |IdeasFrom(topics, lists, n)| <= n * ideasPerTopic
  {
    if n > 0 {
      IdeasFromBound(topics, lists, ideasPerTopic, n - 1);
      assert (n - 1) * ideasPerTopic + ideasPerTopic == n * ideasPerTopic;
    }
  }

  /** Every idea is filed under one of the topics. */
  lemma {:induction false} IdeasFromTopics(topics: seq<string>, lists: nat -> seq<string>, n: nat)
    requires n <= |topics|
    ensures forall e :: e in IdeasFrom(topics, lists, n) ==> e.topic in topics
  {
    if n > 0 {
      IdeasFromTopics(topics, lists, n - 1);
      var last := Pairs(topics[n - 1], lists(n - 1));
      forall e | e in last
        ensures e.topic == topics[n - 1]
      {
      }
    }
  }

  /** The platforms the loop has a generator for. */
  predicate KnownPlatform(platform: string) {
    platform in {"Twitter", "Facebook", "Instagram", "LinkedIn"}
  }

  /** The list of one platform after the first `n` ideas: one post per idea
      for a known platform, none for any other. `posts(k, platform)` is the
      post written for the `k`-th idea. */
  function PostsFor(platform: string, ideas: seq<IdeaEntry>, posts: (nat, string) -> string, n: nat): seq<PostEntry>
    requires n <= |ideas|
  {
    if n == 0 then []
    else
      PostsFor(platform, ideas, posts, n - 1) +
      (if KnownPlatform(platform) then [PostEntry(ideas[n - 1].topic, ideas[n - 1].idea, posts(n - 1, platform))] else [])
  }

  /** A known platform's list holds one post per idea, in idea order, each
      tagged with that idea's topic and text; an unknown platform's list stays empty. */
  lemma {:induction false} PostsForShape(platform: string, ideas: seq<IdeaEntry>, posts: (nat, string) -> string, n: nat)
    requires n <= |ideas|
    ensures KnownPlatform(platform) ==> |PostsFor(platform, ideas, posts, n)| == n
    ensures KnownPlatform(platform) ==> forall k :: 0 <= k < n ==>
      PostsFor(platform, ideas, posts, n)[k] == PostEntry(ideas[k].topic, ideas[k].idea, posts(k, platform))
    ensures !KnownPlatform(platform) ==> PostsFor(platform, ideas, posts, n) == []
  {
    if n > 0 {
      PostsForShape(platform, ideas, posts, n - 1);
    }
  }

  /** The images after the first `n` ideas: none when images are off;
      otherwise `images(k)` is the saved path for the `k`-th idea, or None
      when the prompt or the image call raised. */
  function ImagesOf(ideas: seq<IdeaEntry>, generateImages: bool, images: nat -> Option<string>, n: nat): seq<ImageEntry>
    requires n <= |ideas|
  {
    if n == 0 then []
    else
      ImagesOf(ideas, generateImages, images, n - 1) +
      (if generateImages && images(n - 1).Some?
       then [ImageEntry(ideas[n - 1].topic, ideas[n - 1].idea, images(n - 1).value)]
       else [])
  }

  /** Every image belongs to an idea and there is at most one per idea;
      with images off there are none, and with images on there is one per
      idea exactly when no image call failed. */
  lemma {:induction false} ImagesOfShape(ideas: seq<IdeaEntry>, generateImages: bool, images: nat -> Option<string>, n: nat)
    requires n <= |ideas|
    ensures |ImagesOf(ideas, generateImages, images, n)| <= n
    ensures forall e :: e in ImagesOf(ideas, generateImages, images, n) ==> IdeaEntry(e.topic, e.idea) in ideas[..n]
    ensures !generateImages ==> ImagesOf(ideas, generateImages, images, n) == []
    ensures generateImages ==> (|ImagesOf(ideas, generateImages, images, n)| == n <==> forall k :: 0 <= k < n ==> images(k).Some?)
  {
    if n > 0 {
      ImagesOfShape(ideas, generateImages, images, n - 1);
      assert ideas[..n] == ideas[..n - 1] + [ideas[n - 1]];
    }
  }

  // ---------------------------------------------------------------------
  // The run

  /** The post lists after the first `n` ideas, keyed by the selected platforms. */
  function PostListsFor(platforms: seq<string>, all: seq<IdeaEntry>, posts: (nat, string) -> string, n: nat): map<string, seq<PostEntry>>
    requires n <= |all|
  {
    map p | p in platforms :: PostsFor(p, all, posts, n)
  }


  /** A platform's list after `n` ideas depends on the first `n` ideas only. */
  lemma {:induction false} PostsForPrefix(platform: string, a: seq<IdeaEntry>, b: seq<IdeaEntry>,
                                          posts: (nat, string) -> string, n: nat)
    requires n <= |a|
    ensures PostsFor(platform, a, posts, n) == PostsFor(platform, a + b, posts, n)
  {
    if n > 0 {
      PostsForPrefix(platform, a, b, posts, n - 1);
      assert (a + b)[n - 1] == a[n - 1];
    }
  }

  /** The post lists after the ideas so far stay the same when more ideas follow. */
  lemma PostListsForPrefix(platforms: seq<string>, a: seq<IdeaEntry>, b: seq<IdeaEntry>, posts: (nat, string) -> string)
    ensures PostListsFor(platforms, a, posts, |a|) == PostListsFor(platforms, a + b, posts, |a|)
  {
    forall p | p in platforms
      ensures PostsFor(p, a, posts, |a|) == PostsFor(p, a + b, posts, |a|)
    {
      PostsForPrefix(p, a, b, posts, |a|);
    }
  }

  /** The images after `n` ideas depend on the first `n` ideas only. */
  lemma {:induction false} ImagesOfPrefix(a: seq<IdeaEntry>, b: seq<IdeaEntry>, generateImages: bool,
                                          images: nat -> Option<string>, n: nat)
    requires n <= |a|
    ensures ImagesOf(a, generateImages, images, n) == ImagesOf(a + b, generateImages, images, n)
  {
    if n > 0 {
      ImagesOfPrefix(a, b, generateImages, images, n - 1);
      assert (a + b)[n - 1] == a[n - 1];
    }
  }

  /** The platform loop for the `idx`-th idea: each known platform's list
      gains this idea's post, and the counter, at `completed` before the
      loop, moves once per platform; `shown` lists the values it passes to
      the progress bar. */
  method PostToPlatforms(postLists: map<string, seq<PostEntry>>, platforms: seq<string>,
                         ghost all: seq<IdeaEntry>, posts: (nat, string) -> string, idx: nat,
                         topic: string, idea: string, completed: int)
    returns (updated: map<string, seq<PostEntry>>, steps: nat, shown: seq<int>)
    requires Distinct(platforms) && idx < |all| && all[idx] == IdeaEntry(topic, idea)
    requires postLists == PostListsFor(platforms, all, posts, idx)
    ensures updated == PostListsFor(platforms, all, posts, idx + 1)
    ensures steps == |platforms|
    ensures shown == Counts(completed, steps)
  {
    updated := postLists;
    steps := 0;
    shown := [];
    for q := 0 to |platforms|
      invariant updated.Keys == postLists.Keys
      invariant forall i :: 0 <= i < q ==> updated[platforms[i]] == PostsFor(platforms[i], all, posts, idx + 1)
      invariant forall i :: q <= i < |platforms| ==> updated[platforms[i]] == postLists[platforms[i]]
      invariant steps == q
      invariant shown == Counts(completed, steps)
    {
      var platform := platforms[q];
      assert platform in postLists;
      forall i | 0 <= i < |platforms| && i != q
        ensures platforms[i] != platform
      {
        if i < q { DistinctAt(platforms, i, q); } else { DistinctAt(platforms, q, i); }
      }
      ghost var next := PostsFor(platform, all, posts, idx + 1);
      if KnownPlatform(platform) {
        assert next == updated[platform] + [PostEntry(topic, idea, posts(idx, platform))];
        updated := updated[platform := updated[platform] + [PostEntry(topic, idea, posts(idx, platform))]];
      } else {
        assert next == updated[platform];
      }
      CountsSnoc(completed, steps);
      steps := steps + 1;
      shown := shown + [completed + steps];
    }
    forall p | p in platforms
      ensures updated[p] == PostsFor(p, all, posts, idx + 1)
    {
      var i :| 0 <= i < |platforms| && platforms[i] == p;
    }
    assert updated.Keys == PostListsFor(platforms, all, posts, idx + 1).Keys;
  }

  /** One pass of the idea loop: the idea's post on every platform, then
      its image when images are on; the counter moves once per platform
      and once for the image, whether or not the image call failed. */
  method ProcessIdea(postLists: map<string, seq<PostEntry>>, imageList: seq<ImageEntry>,
                     platforms: seq<string>, generateImages: bool,
                     ghost all: seq<IdeaEntry>, posts: (nat, string) -> string, images: nat -> Option<string>,
                     idx: nat, topic: string, idea: string, completed: int)
    returns (updatedPosts: map<string, seq<PostEntry>>, updatedImages: seq<ImageEntry>, steps: nat, shown: seq<int>)
    requires Distinct(platforms) && idx < |all| && all[idx] == IdeaEntry(topic, idea)
    requires postLists == PostListsFor(platforms, all, posts, idx)
    requires imageList == ImagesOf(all, generateImages, images, idx)
    ensures updatedPosts == PostListsFor(platforms, all, posts, idx + 1)
    ensures updatedImages == ImagesOf(all, generateImages, images, idx + 1)
    ensures steps == ItemsPerIdea(|platforms|, generateImages)
    ensures shown == Counts(completed, steps)
  {
    updatedPosts, steps, shown := PostToPlatforms(postLists, platforms, all, posts, idx, topic, idea, completed);
    updatedImages := imageList;
    if generateImages {
      var outcome := images(idx);
      if outcome.Some? {
        updatedImages := updatedImages + [ImageEntry(topic, idea, outcome.value)];
      }
      CountsSnoc(completed, steps);
      steps := steps + 1;
      shown := shown + [completed + steps];
    }
  }

  /** The idea loop of one topic, after the ideas of the earlier topics:
      the posts and the image of each idea, in order. */
  method ProcessIdeas(postLists: map<string, seq<PostEntry>>, imageList: seq<ImageEntry>,
                      platforms: seq<string>, generateImages: bool,
                      before: seq<IdeaEntry>, posts: (nat, string) -> string, images: nat -> Option<string>,
                      topic: string, ideas: seq<string>, completed: int)
    returns (updatedPosts: map<string, seq<PostEntry>>, updatedImages: seq<ImageEntry>, steps: nat, shown: seq<int>)
    requires Distinct(platforms)
    requires postLists == PostListsFor(platforms, before, posts, |before|)
    requires imageList == ImagesOf(before, generateImages, images, |before|)
    ensures updatedPosts == PostListsFor(platforms, before + Pairs(topic, ideas), posts, |before + Pairs(topic, ideas)|)
    ensures updatedImages == ImagesOf(before + Pairs(topic, ideas), generateImages, images, |before + Pairs(topic, ideas)|)
    ensures steps == IdeaSteps(|ideas|, ItemsPerIdea(|platforms|, generateImages))
    ensures shown == Counts(completed, steps)
  {
    ghost var all := before + Pairs(topic, ideas);
    PostListsForPrefix(platforms, before, Pairs(topic, ideas), posts);
    ImagesOfPrefix(before, Pairs(topic, ideas), generateImages, images, |before|);
    updatedPosts, updatedImages, steps, shown := postLists, imageList, 0, [];
    var perIdea := ItemsPerIdea(|platforms|, generateImages);
    var idx := |before|;
    for j := 0 to |ideas|
      invariant idx == |before| + j
      invariant updatedPosts == PostListsFor(platforms, all, posts, idx)
      invariant updatedImages == ImagesOf(all, generateImages, images, idx)
      invariant steps == IdeaSteps(j, perIdea)
      invariant shown == Counts(completed, steps)
    {
      assert all[idx] == IdeaEntry(topic, ideas[j]);
      var ideaSteps, ideaShown;
      updatedPosts, updatedImages, ideaSteps, ideaShown :=
        ProcessIdea(updatedPosts, updatedImages, platforms, generateImages, all, posts, images, idx, topic, ideas[j],
                    completed + steps);
      CountsAppend(completed, steps, ideaSteps);
      steps := steps + ideaSteps;
      shown := shown + ideaShown;
      idx := idx + 1;
    }
  }

  /** `posts[platform] = []` for each selected platform, in order. */
  method EmptyPostLists(platforms: seq<string>) returns (postLists: map<string, seq<PostEntry>>)
    ensures postLists.Keys == set p | p in platforms
    ensures forall p :: p in postLists ==> postLists[p] == []
  {
    postLists := map[];
    for i := 0 to |platforms|
      invariant postLists.Keys == set p | p in platforms[..i]
      invariant forall p :: p in postLists ==> postLists[p] == []
    {
      assert platforms[..i + 1] == platforms[..i] + [platforms[i]];
      postLists := postLists[platforms[i] := []];
    }
    assert platforms[..|platforms|] == platforms;
  }

  /** The parsed answers hold at most `ideasPerTopic` ideas per topic. */
  lemma ParsedIdeasBound(topics: seq<string>, answers: nat -> string, ideasPerTopic: int)
    requires ideasPerTopic >= 0
    ensures |IdeasFrom(topics, ParsedIdeas(answers, ideasPerTopic), |topics|)| <= |topics| * ideasPerTopic
  {
    var lists := ParsedIdeas(answers, ideasPerTopic);
    forall t: nat | t < |topics|
      ensures |lists(t)| <= ideasPerTopic
    {
      assert lists(t) == ListOutput.ParseList(answers(t), ideasPerTopic);
      ListOutput.ParseListItems(answers(t), ideasPerTopic);
    }
    IdeasFromBound(topics, lists, ideasPerTopic, |topics|);
  }

  /** Empty lists under the selected platforms are the post lists before the first idea. */
  lemma NoPostsYet(postLists: map<string, seq<PostEntry>>, platforms: seq<string>,
                   all: seq<IdeaEntry>, posts: (nat, string) -> string)
    requires postLists.Keys == set p | p in platforms
    requires forall p :: p in postLists ==> postLists[p] == []
    ensures postLists == PostListsFor(platforms, all, posts, 0)
  {
  }

  /** The progress of the run besides the content: the announced total,
      the final count and every value the bar was given on the way. */
  datatype Progress = Progress(total: int, completed: int, shown: seq<int>)

  /** One pass of the topic loop: the idea request for `topic`, then the
      posts and the image of each idea it returned, after the ideas of the
      earlier topics. The counter moves once for the ideas and once per
      idea and platform or image. */
  method ProcessTopic(call: IdeaCall, answer: string,
                      postLists: map<string, seq<PostEntry>>, imageList: seq<ImageEntry>,
                      platforms: seq<string>, generateImages: bool,
                      before: seq<IdeaEntry>, posts: (nat, string) -> string, images: nat -> Option<string>,
                      completed: int)
    returns (ideas: seq<string>, after: seq<IdeaEntry>, updatedPosts: map<string, seq<PostEntry>>,
             updatedImages: seq<ImageEntry>, steps: nat, shown: seq<int>)
    requires Distinct(platforms)
    requires postLists == PostListsFor(platforms, before, posts, |before|)
    requires imageList == ImagesOf(before, generateImages, images, |before|)
    ensures ideas == ListOutput.ParseList(answer, call.numberOfIdeas)
    ensures after == before + Pairs(call.topic, ideas)
    ensures updatedPosts == PostListsFor(platforms, after, posts, |after|)
    ensures updatedImages == ImagesOf(after, generateImages, images, |after|)
    ensures steps == 1 + IdeaSteps(|ideas|, ItemsPerIdea(|platforms|, generateImages))
    ensures shown == Counts(completed, steps)
  {
    var _, parsed := IdeaGenerator.GenerateIdeas(call.brand, call.numberOfIdeas, call.instructions, call.mode, call.topic, answer);
    ideas := parsed;
    after := before + Pairs(call.topic, ideas);
    var ideaSteps, ideaShown;
    updatedPosts, updatedImages, ideaSteps, ideaShown :=
      ProcessIdeas(postLists, imageList, platforms, generateImages, before, posts, images, call.topic, ideas, completed + 1);
    steps := 1 + ideaSteps;
    CountsCons(completed, ideaSteps);
    shown := [completed + 1] + ideaShown;
  }

  /** One pass of the topic loop on its running state: the ideas of the
      topics before `t`, the post lists and images made for them, the
      counter and what the bar was given so far. Returns the same state
      with topic `t` added and the idea call that was made for it. */
  method TopicStep(brand: Brands.Brand, topics: seq<string>, t: nat, ideasPerTopic: int, ideaInstructions: string,
                   mode: GenerationMode, ideaAnswers: nat -> string,
                   platforms: seq<string>, generateImages: bool,
                   posts: (nat, string) -> string, images: nat -> Option<string>,
                   ideas: seq<IdeaEntry>, postLists: map<string, seq<PostEntry>>, imageList: seq<ImageEntry>,
                   completed: nat, shown: seq<int>)
    returns (call: IdeaCall, nextIdeas: seq<IdeaEntry>, nextPosts: map<string, seq<PostEntry>>,
             nextImages: seq<ImageEntry>, nextCompleted: nat, nextShown: seq<int>)
    requires t < |topics| && Distinct(platforms)
    requires ideas == IdeasFrom(topics, ParsedIdeas(ideaAnswers, ideasPerTopic), t)
    requires postLists == PostListsFor(platforms, ideas, posts, |ideas|)
    requires imageList == ImagesOf(ideas, generateImages, images, |ideas|)
    requires completed == 1 + t + IdeaSteps(|ideas|, ItemsPerIdea(|platforms|, generateImages))
    requires shown == Counts(1, completed - 1)
    ensures call == IdeaCall(brand, ideasPerTopic, ideaInstructions, mode, topics[t])
    ensures nextIdeas == IdeasFrom(topics, ParsedIdeas(ideaAnswers, ideasPerTopic), t + 1)
    ensures nextPosts == PostListsFor(platforms, nextIdeas, posts, |nextIdeas|)
    ensures nextImages == ImagesOf(nextIdeas, generateImages, images, |nextIdeas|)
    ensures nextCompleted == 1 + (t + 1) + IdeaSteps(|nextIdeas|, ItemsPerIdea(|platforms|, generateImages))
    ensures nextShown == Counts(1, nextCompleted - 1)
  {
    call := IdeaCall(brand, ideasPerTopic, ideaInstructions, mode, topics[t]);
    var topicIdeas, steps, topicShown;
    topicIdeas, nextIdeas, nextPosts, nextImages, steps, topicShown :=
      ProcessTopic(call, ideaAnswers(t), postLists, imageList, platforms, generateImages, ideas, posts, images, completed);
    assert ParsedIdeas(ideaAnswers, ideasPerTopic)(t) == topicIdeas;
    CounterStep(completed, t, |ideas|, |topicIdeas|, ItemsPerIdea(|platforms|, generateImages), steps);
    CountsExtend(completed, steps, shown, topicShown);
    nextCompleted := completed + steps;
    nextShown := shown + topicShown;
  }

  /** The topic loop over the parsed topics: the ideas of every topic in
      order, each platform's posts and the images, the idea call made for
      each topic, and the progress counter with every value it showed. */
  method RunTopics(brand: Brands.Brand, topics: seq<string>, ideasPerTopic: int, ideaInstructions: string,
                   mode: GenerationMode, ideaAnswers: nat -> string,
                   platforms: seq<string>, generateImages: bool,
                   posts: (nat, string) -> string, images: nat -> Option<string>)
    returns (ideas: seq<IdeaEntry>, postLists: map<string, seq<PostEntry>>, imageList: seq<ImageEntry>, completed: nat,
             shown: seq<int>, calls: seq<IdeaCall>)
    requires Distinct(platforms) && ideasPerTopic >= 1
    ensures ideas == IdeasFrom(topics, ParsedIdeas(ideaAnswers, ideasPerTopic), |topics|)
    ensures postLists == PostListsFor(platforms, ideas, posts, |ideas|)
    ensures imageList == ImagesOf(ideas, generateImages, images, |ideas|)
    ensures completed == FinalCompleted(|topics|, |ideas|, |platforms|, generateImages)
    ensures shown == Counts(1, completed - 1)
    ensures |calls| == |topics|
    ensures forall t :: 0 <= t < |topics| ==> calls[t] == IdeaCall(brand, ideasPerTopic, ideaInstructions, mode, topics[t])
  {
    completed := 1;
    shown, calls := [], [];
    ideas := [];
    postLists := EmptyPostLists(platforms);
    NoPostsYet(postLists, platforms, ideas, posts);
    imageList := [];

    for t := 0 to |topics|
      invariant ideas == IdeasFrom(topics, ParsedIdeas(ideaAnswers, ideasPerTopic), t)
      invariant postLists == PostListsFor(platforms, ideas, posts, |ideas|)
      invariant imageList == ImagesOf(ideas, generateImages, images, |ideas|)
      invariant completed == 1 + t + IdeaSteps(|ideas|, ItemsPerIdea(|platforms|, generateImages))
      invariant shown == Counts(1, completed - 1)
      invariant |calls| == t
      invariant forall i :: 0 <= i < t ==> calls[i] == IdeaCall(brand, ideasPerTopic, ideaInstructions, mode, topics[i])
    {
      var call;
      call, ideas, postLists, imageList, completed, shown :=
        TopicStep(brand, topics, t, ideasPerTopic, ideaInstructions, mode, ideaAnswers, platforms, generateImages,
                  posts, images, ideas, postLists, imageList, completed, shown);
      calls := calls + [call];
    }
  }

  /**
   * The generation run of app.py, from the topic request to the last image.
   * `topicAnswer` is the model's answer to the topic request, `ideaAnswers(t)`
   * its answer for the `t`-th topic, `posts(k, platform)` the post written
   * for the `k`-th idea and `images(k)` the outcome of its image. The
   * platforms come from the multiselect widget, so they are listed once
   * each, and the run stops before this point when none is selected; the
   * idea count widget starts at 1.
   */
  method GenerateContent(
    brand: Brands.Brand, topicCount: int, expansion: string, postsExpansion: string,
    platforms: seq<string>, ideasPerTopic: int, generateImages: bool, mode: GenerationMode,
    topicAnswer: string, ideaAnswers: nat -> string,
    posts: (nat, string) -> string, images: nat -> Option<string>)
    returns (content: GeneratedContent, progress: Progress, topicRequest: ChatRequest, ideaCalls: seq<IdeaCall>)
    requires platforms != [] && Distinct(platforms) && ideasPerTopic >= 1
    ensures topicRequest.model == ModelFor(Topics, mode)
    ensures topicRequest.messages ==
      [Dict(Message("system", TopicGenerator.SystemContent(brand.description))),
       Dict(Message("user", TopicGenerator.UserPrompt(topicCount, SelectInstructions(expansion, postsExpansion).topics)))]
    ensures |ideaCalls| == |content.topics|
    ensures forall t :: 0 <= t < |content.topics| ==>
      ideaCalls[t] == IdeaCall(brand, ideasPerTopic, SelectInstructions(expansion, postsExpansion).ideas, mode, content.topics[t])
    ensures content.topics == ListOutput.ParseList(topicAnswer, topicCount)
    ensures content.ideas == IdeasFrom(content.topics, ParsedIdeas(ideaAnswers, ideasPerTopic), |content.topics|)
    ensures content.platforms == platforms
    ensures content.posts.Keys == set p | p in platforms
    ensures ValidContent(content)
    ensures forall p :: p in platforms ==> content.posts[p] == PostsFor(p, content.ideas, posts, |content.ideas|)
    ensures content.images == ImagesOf(content.ideas, generateImages, images, |content.ideas|)
    ensures progress.total == TotalItems(|content.topics|, ideasPerTopic, |platforms|, generateImages)
    ensures progress.completed == FinalCompleted(|content.topics|, |content.ideas|, |platforms|, generateImages)
    ensures progress.completed <= progress.total
    ensures |progress.shown| == progress.completed - 1
    ensures forall i :: 0 <= i < |progress.shown| ==> progress.shown[i] == 2 + i && progress.shown[i] <= progress.total
  {
    var instructions := SelectInstructions(expansion, postsExpansion);
    var topics;
    topicRequest, topics := TopicGenerator.GenerateTopics(brand, topicCount, instructions.topics, mode, topicAnswer);
    var total := TotalItems(|topics|, ideasPerTopic, |platforms|, generateImages);
    var ideas, postLists, imageList, completed, shown;
    ideas, postLists, imageList, completed, shown, ideaCalls :=
      RunTopics(brand, topics, ideasPerTopic, instructions.ideas, mode, ideaAnswers, platforms, generateImages, posts, images);
    ParsedIdeasBound(topics, ideaAnswers, ideasPerTopic);
    CompletedWithinTotal(|topics|, |ideas|, ideasPerTopic, |platforms|, generateImages);
    content := GeneratedContent(topics, ideas, platforms, postLists, imageList);
    progress := Progress(total, completed, shown);
  }
}
