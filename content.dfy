/**
 * The generated-content record that app.py builds during a run and the
 * exporters in utils.py read: `{"topics": [...], "ideas": [(topic, idea)],
 * "posts": {platform: [(topic, idea, post)]}, "images": [(topic, idea, path)]}`.
 */
module Content {

  datatype IdeaEntry = IdeaEntry(topic: string, idea: string)
  datatype PostEntry = PostEntry(topic: string, idea: string, post: string)
  datatype ImageEntry = ImageEntry(topic: string, idea: string, path: string)

  /** `platforms` is the insertion order of the `posts` dict's keys. */
  datatype GeneratedContent = GeneratedContent(
    topics: seq<string>,
    ideas: seq<IdeaEntry>,
    platforms: seq<string>,
    posts: map<string, seq<PostEntry>>,
    images: seq<ImageEntry>)

  /** No element is listed twice: the last one is not among those before
      it, and the same holds for those. */
  predicate Distinct(xs: seq<string>) {
    xs == [] || (xs[|xs| - 1] !in xs[..|xs| - 1] && Distinct(xs[..|xs| - 1]))
  }

  /** Two positions of a list without repeats hold different elements. */
  lemma {:induction false} DistinctAt(xs: seq<string>, i: nat, j: nat)
    requires Distinct(xs) && i < j < |xs|
    ensures xs[i] != xs[j]
  {
    var init := xs[..|xs| - 1];
    if j < |xs| - 1 {
      DistinctAt(init, i, j);
    } else {
      assert xs[i] == init[i];
    }
  }

  /** The posts dict: its keys, listed once each in insertion order. */
  ghost predicate ValidContent(c: GeneratedContent) {
    Distinct(c.platforms) && c.posts.Keys == set p | p in c.platforms
  }
}
