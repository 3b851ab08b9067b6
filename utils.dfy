/**
 * Helpers of utils.py: list formatting, the append-only record files,
 * the retry loop, and the row building and grouping of the exporters.
 */
module Utils {
  import opened Wrappers
  import opened Text
  import opened Content

  // ---------------------------------------------------------------------
  // format_list

  /** The `"- item"` line of one list entry. */
  function Bullet(item: string): string {
    "- " + item
  }

  /** `format_list`: one `"- item"` line per item, joined by newlines. */
  function FormatList(items: seq<string>): (r: string)
    ensures items == [] ==> r == ""
    ensures |items| == 1 ==> r == Bullet(items[0])
  {
    Join(seq(|items|, i requires 0 <= i < |items| => Bullet(items[i])), "\n")
  }

  /** n items give n lines, line i being `"- " + items[i]`, when no item holds a newline. */
  lemma FormatListLines(items: seq<string>)
    requires |items| >= 1
    requires forall i :: 0 <= i < |items| ==> Lacks(items[i], '\n')
    ensures Split(FormatList(items), "\n") == seq(|items|, i requires 0 <= i < |items| => Bullet(items[i]))
  {
    var lines := seq(|items|, i requires 0 <= i < |items| => Bullet(items[i]));
    forall i | 0 <= i < |lines|
      ensures SplitsCleanly(lines[i], "\n")
    {
      assert Lacks(lines[i], '\n');
      LacksNotContains(lines[i], '\n');
      CleanSingleChar(lines[i], "\n");
    }
    SplitJoin(lines, "\n");
  }

  // ---------------------------------------------------------------------
  // Record files

  /** What one `add_item_to_file` call appends: the item, then a `---` line. */
  function Record(item: string): string {
    item + "\n---\n"
  }

  /** A text file on disk: whether it exists, and its text. */
  class TextFile {
    var present: bool
    var content: string

    /** A file that does not exist yet. */
    constructor Missing()
      ensures !present && content == ""
    {
      present := false;
      content := "";
    }

    /** A file holding `text`. */
    constructor Holding(text: string)
      ensures present && content == text
    {
      present := true;
      content := text;
    }

    /** The lines `for line in f` reads (newline-separated), or None when
        the file does not exist and `open` would raise. */
    function Lines(): (r: Option<seq<string>>)
      reads this
      ensures r.Some? <==> present
    {
      if present then Some(Split(content, "\n")) else None
    }
  }

  /** `add_item_to_file` (and `write_to_file`, whose body is the same): create
      the file if missing, then append the item and a `---` separator line. */
  method AddItemToFile(file: TextFile, item: string)
    modifies file
    ensures file.present
    ensures file.content == (if old(file.present) then old(file.content) else "") + Record(item)
  {
    if !file.present {
      file.present := true;
      file.content := "";
    }
    file.content := file.content + Record(item);
  }

  // ---------------------------------------------------------------------
  // retry_n_times

  /** The outcome of one call of the retried callable. */
  datatype Attempt<T> = Returned(value: T) | Raised

  /** `retry_n_times(n, fn)`: call `fn` until it returns, at most `n` times,
      waiting between attempts. `fn(k)` is what the (k+1)-th call does;
      `calls` and `waits` count the calls made and the two-second sleeps. */
  method RetryNTimes<T>(n: int, fn: nat -> Attempt<T>) returns (r: Option<T>, calls: nat, waits: nat)
    ensures calls <= (if n > 0 then n else 0)
    ensures waits == (if calls > 0 then calls - 1 else 0)
    ensures forall k :: 0 <= k < calls - 1 ==> fn(k).Raised?
    ensures r.Some? ==> calls >= 1 && fn(calls - 1) == Returned(r.value)
    ensures r.None? <==> forall k :: 0 <= k < n ==> fn(k).Raised?
    ensures r.None? ==> calls == (if n > 0 then n else 0)
  {
    calls, waits := 0, 0;
    var i := 0;
    while i < n
      invariant 0 <= i <= (if n > 0 then n else 0)
      invariant calls == i
      invariant waits == (if i == n && n > 0 then n - 1 else i)
      invariant forall k :: 0 <= k < i ==> fn(k).Raised?
    {
      calls := calls + 1;
      var attempt := fn(i);
      if attempt.Returned? {
        r := Some(attempt.value);
        return;
      }
      if i < n - 1 {
        waits := waits + 1;
      }
      i := i + 1;
    }
    r := None;
  }

  // ---------------------------------------------------------------------
  // export_content_to_csv

  /** One row of the exported table: Type, Topic, Idea, Platform, Content. */
  datatype Row = Row(kind: string, topic: string, idea: string, platform: string, content: string)

  function TopicRow(topic: string): Row {
    Row("Topic", topic, "", "", "")
  }

  function IdeaRow(e: IdeaEntry): Row {
    Row("Idea", e.topic, e.idea, "", "")
  }

  function PostRow(platform: string, e: PostEntry): Row {
    Row("Post", e.topic, e.idea, platform, e.post)
  }

  /** The post rows of the first platforms, platform after platform. */
  function PostRows(platforms: seq<string>, posts: map<string, seq<PostEntry>>): (rows: seq<Row>)
    requires forall p :: p in platforms ==> p in posts
  {
    if platforms == [] then []
    else
      var p := platforms[|platforms| - 1];
      PostRows(platforms[..|platforms| - 1], posts) + seq(|posts[p]|, k requires 0 <= k < |posts[p]| => PostRow(p, posts[p][k]))
  }

  /** The number of posts held for the given platforms. */
  function PostCount(platforms: seq<string>, posts: map<string, seq<PostEntry>>): nat
    requires forall p :: p in platforms ==> p in posts
  {
    if platforms == [] then 0
    else PostCount(platforms[..|platforms| - 1], posts) + |posts[platforms[|platforms| - 1]]|
  }

  /** Post rows come platform by platform, one per post, in each list's order. */
  lemma {:induction false} PostRowsShape(platforms: seq<string>, posts: map<string, seq<PostEntry>>)
    requires forall p :: p in platforms ==> p in posts
    ensures |PostRows(platforms, posts)| == PostCount(platforms, posts)
    ensures forall r :: r in PostRows(platforms, posts) ==> r.kind == "Post" && r.platform in platforms
  {
    if platforms != [] {
      PostRowsShape(platforms[..|platforms| - 1], posts);
    }
  }

  /** `export_content_to_csv` up to the DataFrame: topic rows, then idea rows,
      then the post rows of each platform in the dict's order. */
  method ExportRows(c: GeneratedContent) returns (rows: seq<Row>)
    requires ValidContent(c)
    ensures |rows| == |c.topics| + |c.ideas| + |PostRows(c.platforms, c.posts)|
    ensures forall k :: 0 <= k < |c.topics| ==> rows[k] == TopicRow(c.topics[k])
    ensures forall k :: 0 <= k < |c.ideas| ==> rows[|c.topics| + k] == IdeaRow(c.ideas[k])
    ensures rows[|c.topics| + |c.ideas|..] == PostRows(c.platforms, c.posts)
  {
    rows := [];
    for i := 0 to |c.topics|
      invariant |rows| == i
      invariant forall k :: 0 <= k < i ==> rows[k] == TopicRow(c.topics[k])
    {
      rows := rows + [TopicRow(c.topics[i])];
    }
    for i := 0 to |c.ideas|
      invariant |rows| == |c.topics| + i
      invariant forall k :: 0 <= k < |c.topics| ==> rows[k] == TopicRow(c.topics[k])
      invariant forall k :: 0 <= k < i ==> rows[|c.topics| + k] == IdeaRow(c.ideas[k])
    {
      rows := rows + [IdeaRow(c.ideas[i])];
    }
    ghost var head := rows;
    for q := 0 to |c.platforms|
      invariant rows == head + PostRows(c.platforms[..q], c.posts)
    {
      var platform := c.platforms[q];
      var entries := c.posts[platform];
      ghost var before := rows;
      for k := 0 to |entries|
        invariant rows == before + seq(k, j requires 0 <= j < k => PostRow(platform, entries[j]))
      {
        rows := rows + [PostRow(platform, entries[k])];
      }
      assert c.platforms[..q + 1][..q] == c.platforms[..q];
    }
    assert c.platforms[..|c.platforms|] == c.platforms;
  }

  // ---------------------------------------------------------------------
  // export_content_to_txt: ideas grouped by topic

  /** The topic of every entry, duplicates included. */
  function TopicsOf(ideas: seq<IdeaEntry>): (r: seq<string>)
    ensures |r| == |ideas|
    ensures forall k :: 0 <= k < |ideas| ==> r[k] == ideas[k].topic
  {
    if ideas == [] then [] else TopicsOf(ideas[..|ideas| - 1]) + [ideas[|ideas| - 1].topic]
  }

  /** Topics of the entries, each once, in order of first appearance. */
  function FirstAppearances(ideas: seq<IdeaEntry>): (order: seq<string>)
    ensures Distinct(order)
    ensures forall t :: t in order <==> t in TopicsOf(ideas)
  {
    if ideas == [] then []
    else
      var order := FirstAppearances(ideas[..|ideas| - 1]);
      var t := ideas[|ideas| - 1].topic;
      if t in order then order else order + [t]
  }

  /** The ideas listed under `topic`, in their original order. */
  function IdeasUnder(ideas: seq<IdeaEntry>, topic: string): seq<string>
  {
    if ideas == [] then []
    else
      var e := ideas[|ideas| - 1];
      IdeasUnder(ideas[..|ideas| - 1], topic) + (if e.topic == topic then [e.idea] else [])
  }

  /** `groups` holds the ideas of `ideas` by topic, keyed by the topics of `order`. */
  ghost predicate Grouped(ideas: seq<IdeaEntry>, order: seq<string>, groups: map<string, seq<string>>) {
    order == FirstAppearances(ideas) &&
    (forall t :: t in groups <==> t in order) &&
    (forall t :: t in groups ==> groups[t] == IdeasUnder(ideas, t))
  }

  /** One more entry: its topic is added if new, and its idea goes to the end of the topic's group. */
  lemma GroupStep(ideas: seq<IdeaEntry>, e: IdeaEntry, order: seq<string>, groups: map<string, seq<string>>)
    requires Grouped(ideas, order, groups)
    ensures e.topic in groups ==> Grouped(ideas + [e], order, groups[e.topic := groups[e.topic] + [e.idea]])
    ensures e.topic !in groups ==> Grouped(ideas + [e], order + [e.topic], groups[e.topic := [e.idea]])
  {
    FirstAppearancesSnoc(ideas, e);
    if e.topic in groups {
      var updated := groups[e.topic := groups[e.topic] + [e.idea]];
      assert e.topic in order;
      forall t | t in updated
        ensures updated[t] == IdeasUnder(ideas + [e], t)
      {
        IdeasUnderSnoc(ideas, e, t);
      }
    } else {
      IdeasUnderAbsent(ideas, e.topic);
      var updated := groups[e.topic := [e.idea]];
      assert e.topic !in order;
      forall t
        ensures t in updated <==> t in order + [e.topic]
      {
      }
      forall t | t in updated
        ensures updated[t] == IdeasUnder(ideas + [e], t)
      {
        IdeasUnderSnoc(ideas, e, t);
      }
    }
  }

  /** The `ideas_by_topic` loop: a dict from topic to its ideas, keyed in
      first-appearance order. */
  method GroupIdeasByTopic(ideas: seq<IdeaEntry>) returns (order: seq<string>, groups: map<string, seq<string>>)
    ensures order == FirstAppearances(ideas)
    ensures forall t :: t in groups <==> t in order
    ensures forall t :: t in groups ==> groups[t] == IdeasUnder(ideas, t)
  {
    order, groups := [], map[];
    for i := 0 to |ideas|
      invariant Grouped(ideas[..i], order, groups)
    {
      var e := ideas[i];
      PrefixSnoc(ideas, i);
      GroupStep(ideas[..i], e, order, groups);
      if e.topic in groups {
        groups := groups[e.topic := groups[e.topic] + [e.idea]];
      } else {
        order := order + [e.topic];
        groups := groups[e.topic := [e.idea]];
      }
    }
    assert ideas[..|ideas|] == ideas;
  }

  lemma FirstAppearancesSnoc(ideas: seq<IdeaEntry>, e: IdeaEntry)
    ensures FirstAppearances(ideas + [e]) ==
      if e.topic in FirstAppearances(ideas) then FirstAppearances(ideas) else FirstAppearances(ideas) + [e.topic]
  {
    assert (ideas + [e])[..|ideas|] == ideas;
  }

  lemma IdeasUnderSnoc(ideas: seq<IdeaEntry>, e: IdeaEntry, topic: string)
    ensures IdeasUnder(ideas + [e], topic) == IdeasUnder(ideas, topic) + (if e.topic == topic then [e.idea] else [])
  {
    assert (ideas + [e])[..|ideas|] == ideas;
  }

  /** The sizes of the groups, summed over the listed topics. */
  function GroupSizes(order: seq<string>, ideas: seq<IdeaEntry>): nat
  {
    if order == [] then 0 else GroupSizes(order[..|order| - 1], ideas) + |IdeasUnder(ideas, order[|order| - 1])|
  }

  lemma {:induction false} GroupSizesOfAbsent(order: seq<string>, ideas: seq<IdeaEntry>, e: IdeaEntry)
    requires e.topic !in order
    ensures GroupSizes(order, ideas + [e]) == GroupSizes(order, ideas)
  {
    if order != [] {
      GroupSizesOfAbsent(order[..|order| - 1], ideas, e);
      assert (ideas + [e])[..|ideas|] == ideas;
    }
  }

  lemma {:induction false} GroupSizesOfPresent(order: seq<string>, ideas: seq<IdeaEntry>, e: IdeaEntry)
    requires Distinct(order) && e.topic in order
    ensures GroupSizes(order, ideas + [e]) == GroupSizes(order, ideas) + 1
  {
    var init := order[..|order| - 1];
    assert (ideas + [e])[..|ideas|] == ideas;
    if order[|order| - 1] == e.topic {
      assert e.topic !in init by {
        assert forall k :: 0 <= k < |init| ==> init[k] == order[k];
      }
      GroupSizesOfAbsent(init, ideas, e);
    } else {
      assert e.topic in init by {
        var k :| 0 <= k < |order| && order[k] == e.topic;
        assert init[k] == e.topic;
      }
      GroupSizesOfPresent(init, ideas, e);
    }
  }

  /** Every idea is listed exactly once: the group sizes add up to the number of ideas. */
  lemma {:induction false} GroupingKeepsEveryIdea(ideas: seq<IdeaEntry>)
    ensures GroupSizes(FirstAppearances(ideas), ideas) == |ideas|
  {
    if ideas != [] {
      var prefix := ideas[..|ideas| - 1];
      var e := ideas[|ideas| - 1];
      assert ideas == prefix + [e];
      GroupingKeepsEveryIdea(prefix);
      var order := FirstAppearances(prefix);
      if e.topic in order {
        GroupSizesOfPresent(order, prefix, e);
      } else {
        GroupSizesOfPresent(order + [e.topic], prefix, e);
        GroupSizesOfAbsent(order, prefix, e);
        assert (order + [e.topic])[..|order|] == order;
        assert IdeasUnder(prefix, e.topic) == [] by {
          IdeasUnderAbsent(prefix, e.topic);
        }
      }
    }
  }

  /** Each idea is listed under its own topic. */
  lemma {:induction false} EveryIdeaListedUnderItsTopic(ideas: seq<IdeaEntry>, k: nat)
    requires k < |ideas|
    ensures ideas[k].idea in IdeasUnder(ideas, ideas[k].topic)
  {
    var prefix := ideas[..|ideas| - 1];
    if k < |prefix| {
      EveryIdeaListedUnderItsTopic(prefix, k);
      assert prefix[k] == ideas[k];
    }
  }

  lemma {:induction false} IdeasUnderAbsent(ideas: seq<IdeaEntry>, topic: string)
    requires topic !in FirstAppearances(ideas)
    ensures IdeasUnder(ideas, topic) == []
  {
    if ideas != [] {
      var prefix := ideas[..|ideas| - 1];
      assert TopicsOf(ideas) == TopicsOf(prefix) + [ideas[|ideas| - 1].topic];
      IdeasUnderAbsent(prefix, topic);
    }
  }
}
