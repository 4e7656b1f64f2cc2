/**
 * The editable rows of the batch form (components/batch-generator.tsx) and
 * the request body built from them. Every list operation produces a new
 * sequence from the old one, as the component's `filter`, `map` and spread
 * expressions do.
 */
module PostRows {
  import opened Wrappers
  import Text

  /** One row of the form. */
  datatype PostInput = PostInput(
    id: string,
    title: string,
    topic: string,
    brief: string,
    generateImage: bool,
    generateCaption: bool)

  /** The campaign the batch belongs to, as far as the generator reads it. */
  datatype Campaign = Campaign(id: string, name: string, brandName: string, toneId: string)

  /** A new empty row; both generation flags start on. */
  function BlankPost(id: string): PostInput {
    PostInput(id, "", "", "", true, true)
  }

  /** The form starts with one empty row whose id is "1". */
  const InitialPosts := [BlankPost("1")]

  // ----- ids -----

  /** The ids in use. */
  function Ids(posts: seq<PostInput>): set<string> {
    set i | 0 <= i < |posts| :: posts[i].id
  }

  /** No two rows share an id. */
  predicate UniqueIds(posts: seq<PostInput>) {
    forall i, j :: 0 <= i < j < |posts| ==> posts[i].id != posts[j].id
  }

  /** Rows with the given id. */
  function Occurrences(posts: seq<PostInput>, id: string): (n: nat)
    ensures n <= |posts|
    ensures n == 0 <==> id !in Ids(posts)
    decreases |posts|
  {
    if posts == [] then 0
    else (if posts[0].id == id then 1 else 0) + Occurrences(posts[1..], id)
  }

  lemma {:induction false} UniqueOccursAtMostOnce(posts: seq<PostInput>, id: string)
    requires UniqueIds(posts)
    ensures Occurrences(posts, id) <= 1
    decreases |posts|
  {
    if posts != [] {
      var tail := posts[1..];
      UniqueOccursAtMostOnce(tail, id);
      if posts[0].id == id {
        forall j | 0 <= j < |tail| ensures tail[j].id != id {
          assert tail[j] == posts[j + 1];
        }
        assert id !in Ids(tail);
      }
    }
  }

  /** Two lists with unique ids and no id in common concatenate to a list with unique ids. */
  lemma UniqueAppend(a: seq<PostInput>, b: seq<PostInput>)
    requires UniqueIds(a) && UniqueIds(b) && Ids(a) !! Ids(b)
    ensures UniqueIds(a + b)
    decreases |a|
  {
    forall i, j | 0 <= i < j < |a + b| ensures (a + b)[i].id != (a + b)[j].id {
      if i < |a| && j >= |a| {
        assert a[i].id in Ids(a) && b[j - |a|].id in Ids(b);
      }
    }
  }

  // ----- addPost -----

  /** `[...posts, blank]`, the new row's id being `Date.now().toString()` for the clock reading `now`. */
  function AddPost(posts: seq<PostInput>, now: nat): seq<PostInput> {
    posts + [BlankPost(Text.Decimal(now))]
  }

  /** Adding a row keeps every existing row, and an id not yet used keeps the ids unique. */
  lemma AddPostKeepsRows(posts: seq<PostInput>, now: nat)
    ensures var r := AddPost(posts, now);
      |r| == |posts| + 1 && r[..|posts|] == posts && r[|posts|] == BlankPost(Text.Decimal(now))
    ensures UniqueIds(posts) && Text.Decimal(now) !in Ids(posts) ==> UniqueIds(AddPost(posts, now))
  {
    if UniqueIds(posts) && Text.Decimal(now) !in Ids(posts) {
      UniqueAppend(posts, [BlankPost(Text.Decimal(now))]);
    }
  }

  // ----- removePost -----

  /** `posts.filter(p => p.id !== id)`. */
  function WithoutId(posts: seq<PostInput>, id: string): (r: seq<PostInput>)
    ensures |r| + Occurrences(posts, id) == |posts|
    ensures forall p :: p in r <==> p in posts && p.id != id
    decreases |posts|
  {
    if posts == [] then []
    else (if posts[0].id != id then [posts[0]] else []) + WithoutId(posts[1..], id)
  }

  /** Filtering keeps the order of what remains: it distributes over concatenation. */
  lemma {:induction false} WithoutIdKeepsOrder(a: seq<PostInput>, b: seq<PostInput>, id: string)
    ensures WithoutId(a + b, id) == WithoutId(a, id) + WithoutId(b, id)
    decreases |a|
  {
    if a == [] {
      assert a + b == b;
    } else {
      assert (a + b)[0] == a[0] && (a + b)[1..] == a[1..] + b;
      WithoutIdKeepsOrder(a[1..], b, id);
    }
  }

  lemma {:induction false} WithoutIdKeepsUnique(posts: seq<PostInput>, id: string)
    requires UniqueIds(posts)
    ensures UniqueIds(WithoutId(posts, id))
    decreases |posts|
  {
    if posts != [] {
      var tail := posts[1..];
      assert UniqueIds(tail) by {
        forall i, j | 0 <= i < j < |tail| ensures tail[i].id != tail[j].id {
          assert tail[i] == posts[i + 1] && tail[j] == posts[j + 1];
        }
      }
      WithoutIdKeepsUnique(tail, id);
      var rest := WithoutId(tail, id);
      if posts[0].id != id {
        var r := [posts[0]] + rest;
        assert WithoutId(posts, id) == r;
        forall j | 0 < j < |r| ensures r[0].id != r[j].id {
          assert r[j] in rest;
          assert r[j] in tail;
          var k :| 0 <= k < |tail| && tail[k] == r[j];
          assert tail[k] == posts[k + 1];
        }
      } else {
        assert WithoutId(posts, id) == rest;
      }
    }
  }

  /** `removePost`: the last remaining row is never removed. */
  function RemovePost(posts: seq<PostInput>, id: string): seq<PostInput> {
    if |posts| > 1 then WithoutId(posts, id) else posts
  }

  /**
   * A single row stays; otherwise exactly the rows with that id go, the rest
   * keep their order. With unique ids at most one row goes, so a non-empty
   * list stays non-empty and its ids stay unique.
   */
  lemma RemovePostKeepsARow(posts: seq<PostInput>, id: string)
    requires |posts| >= 1 && UniqueIds(posts)
    ensures var r := RemovePost(posts, id);
      && |r| >= 1 && |r| >= |posts| - 1
      && UniqueIds(r)
      && (|posts| == 1 ==> r == posts)
      && (|posts| > 1 ==> forall p :: p in r <==> p in posts && p.id != id)
  {
    UniqueOccursAtMostOnce(posts, id);
    if |posts| > 1 {
      WithoutIdKeepsUnique(posts, id);
    }
  }

  /** Without unique ids the guard does not protect the list: two rows sharing the id both go. */
  lemma RemovePostCanEmptyWithSharedId()
    ensures RemovePost([BlankPost("x"), BlankPost("x")], "x") == []
  {
  }

  // ----- updatePost -----

  /** The field edits the form makes: text inputs set strings, checkboxes set flags. */
  datatype Edit =
    | SetTitle(text: string)
    | SetTopic(text: string)
    | SetBrief(text: string)
    | SetGenerateImage(flag: bool)
    | SetGenerateCaption(flag: bool)

  /** A field of a row, and a field's value. */
  datatype Field = Id | Title | Topic | Brief | GenerateImage | GenerateCaption
  datatype Value = Str(s: string) | Flag(b: bool)

  function Get(p: PostInput, f: Field): Value {
    match f
    case Id => Str(p.id)
    case Title => Str(p.title)
    case Topic => Str(p.topic)
    case Brief => Str(p.brief)
    case GenerateImage => Flag(p.generateImage)
    case GenerateCaption => Flag(p.generateCaption)
  }

  function FieldOf(e: Edit): Field {
    match e
    case SetTitle(_) => Title
    case SetTopic(_) => Topic
    case SetBrief(_) => Brief
    case SetGenerateImage(_) => GenerateImage
    case SetGenerateCaption(_) => GenerateCaption
  }

  function ValueOf(e: Edit): Value {
    match e
    case SetTitle(t) => Str(t)
    case SetTopic(t) => Str(t)
    case SetBrief(t) => Str(t)
    case SetGenerateImage(b) => Flag(b)
    case SetGenerateCaption(b) => Flag(b)
  }

  /** `{ ...p, [field]: value }`. */
  function ApplyEdit(p: PostInput, e: Edit): PostInput {
    match e
    case SetTitle(t) => p.(title := t)
    case SetTopic(t) => p.(topic := t)
    case SetBrief(t) => p.(brief := t)
    case SetGenerateImage(b) => p.(generateImage := b)
    case SetGenerateCaption(b) => p.(generateCaption := b)
  }

  /** An edit sets its own field to its value and leaves every other field as it was. */
  lemma EditChangesOnlyItsField(p: PostInput, e: Edit, f: Field)
    ensures Get(ApplyEdit(p, e), f) == if f == FieldOf(e) then ValueOf(e) else Get(p, f)
  {
  }

  /** `posts.map(p => p.id === id ? { ...p, [field]: value } : p)`. */
  function UpdatePost(posts: seq<PostInput>, id: string, e: Edit): (r: seq<PostInput>)
    ensures |r| == |posts|
    ensures forall i :: 0 <= i < |posts| && posts[i].id == id ==> r[i] == ApplyEdit(posts[i], e)
    ensures forall i :: 0 <= i < |posts| && posts[i].id != id ==> r[i] == posts[i]
    ensures forall i :: 0 <= i < |posts| ==> r[i].id == posts[i].id
    decreases |posts|
  {
    if posts == [] then []
    else [if posts[0].id == id then ApplyEdit(posts[0], e) else posts[0]] + UpdatePost(posts[1..], id, e)
  }

  lemma UpdatePostKeepsIds(posts: seq<PostInput>, id: string, e: Edit)
    ensures Ids(UpdatePost(posts, id, e)) == Ids(posts)
    ensures UniqueIds(posts) ==> UniqueIds(UpdatePost(posts, id, e))
  {
  }

  // ----- addMultiplePosts -----

  /** `${Date.now()}_${i}`, with the clock reading `now`. */
  function SampleId(now: nat, i: nat): string {
    Text.Decimal(now) + "_" + Text.Decimal(i)
  }

  /** The i-th generated sample row when the list already holds `base` rows. */
  function SamplePost(now: nat, base: nat, i: nat): PostInput {
    PostInput(SampleId(now, i), "Post " + Text.Decimal(base + i + 1),
              "Sample Topic", "Sample brief for quick testing", true, true)
  }

  /**
   * The rows `Array.from` builds when the list holds `base` rows; the clock
   * is read once per row, `clock[k]` for row k.
   */
  function SamplePosts(clock: seq<nat>, base: nat): (r: seq<PostInput>)
    ensures |r| == |clock|
    ensures forall k :: 0 <= k < |clock| ==> r[k] == SamplePost(clock[k], base, k)
  {
    seq(|clock|, k requires 0 <= k < |clock| => SamplePost(clock[k], base, k))
  }

  /** `[...posts, ...newPosts]` with one sample row per clock reading. */
  function AddMultiplePosts(posts: seq<PostInput>, clock: seq<nat>): seq<PostInput> {
    posts + SamplePosts(clock, |posts|)
  }

  /** Existing rows are kept; the new rows are titled "Post k" for k = |posts|+1 .. |posts|+|clock|. */
  lemma AddMultiplePostsTitles(posts: seq<PostInput>, clock: seq<nat>, k: nat)
    requires k < |clock|
    ensures var r := AddMultiplePosts(posts, clock);
      && |r| == |posts| + |clock|
      && r[..|posts|] == posts
      && r[|posts| + k].title == "Post " + Text.Decimal(|posts| + k + 1)
  {
  }

  /**
   * A sample id determines its clock reading and its index, whatever the
   * readings: the only `_` in it follows the numeral of the reading.
   */
  lemma {:induction false} SampleIdsDistinct(a: nat, i: nat, b: nat, j: nat)
    requires SampleId(a, i) == SampleId(b, j)
    ensures a == b && i == j
  {
    var x, y, s := Text.Decimal(a), Text.Decimal(b), SampleId(a, i);
    assert |x| == |y| by {
      UnderscoreAfterDigits(x, Text.Decimal(i));
      UnderscoreAfterDigits(y, Text.Decimal(j));
    }
    assert x == s[..|x|] == y;
    assert Text.Decimal(i) == s[|x| + 1..] == Text.Decimal(j);
    Text.DecimalInjective(a, b);
    Text.DecimalInjective(i, j);
  }

  /** In `d + "_" + t` with `d` all digits, the first `_` is at position `|d|`. */
  lemma UnderscoreAfterDigits(d: string, t: string)
    requires forall k :: 0 <= k < |d| ==> '0' <= d[k] <= '9'
    ensures (d + "_" + t)[|d|] == '_'
    ensures forall k :: 0 <= k < |d| ==> (d + "_" + t)[k] != '_'
  {
  }

  /** The sample rows of one call have pairwise different ids, however the clock readings fall. */
  lemma SamplePostsUnique(clock: seq<nat>, base: nat)
    ensures UniqueIds(SamplePosts(clock, base))
  {
    var all := SamplePosts(clock, base);
    forall i, j | 0 <= i < j < |clock| ensures all[i].id != all[j].id {
      if all[i].id == all[j].id {
        SampleIdsDistinct(clock[i], i, clock[j], j);
      }
    }
  }

  /** When no existing row has one of the new ids, adding sample rows keeps the ids unique. */
  lemma AddMultiplePostsKeepsUnique(posts: seq<PostInput>, clock: seq<nat>)
    requires UniqueIds(posts)
    requires forall k :: 0 <= k < |clock| ==> SampleId(clock[k], k) !in Ids(posts)
    ensures UniqueIds(AddMultiplePosts(posts, clock))
  {
    var added := SamplePosts(clock, |posts|);
    SamplePostsUnique(clock, |posts|);
    assert Ids(posts) !! Ids(added) by {
      forall x | x in Ids(added) ensures x !in Ids(posts) {
        var k :| 0 <= k < |clock| && added[k].id == x;
      }
    }
    UniqueAppend(posts, added);
  }

  // ----- validation -----

  /** `!s.trim()`. */
  predicate IsBlank(s: string) {
    Text.Trim(s) == ""
  }

  /** `!p.title.trim() || !p.brief.trim()`. */
  predicate IsInvalid(p: PostInput) {
    IsBlank(p.title) || IsBlank(p.brief)
  }

  /**
   * `posts.filter(isInvalid)`: every invalid row, as often as it occurs, and
   * no other row, so that its length is the number the alert shows.
   */
  function InvalidPosts(posts: seq<PostInput>): (r: seq<PostInput>)
    ensures |r| <= |posts|
    ensures forall p :: p in r <==> p in posts && IsInvalid(p)
    ensures forall p :: multiset(r)[p] == if IsInvalid(p) then multiset(posts)[p] else 0
    decreases |posts|
  {
    if posts == [] then []
    else
      assert posts == [posts[0]] + posts[1..];
      (if IsInvalid(posts[0]) then [posts[0]] else []) + InvalidPosts(posts[1..])
  }

  /**
   * The alert counts the rows with a title or brief made only of whitespace:
   * none exactly when every row has a non-blank title and brief.
   */
  lemma {:induction false} InvalidPostsCountsBlankRows(posts: seq<PostInput>)
    ensures |InvalidPosts(posts)| == 0 <==>
      forall i :: 0 <= i < |posts| ==> !Text.AllWhitespace(posts[i].title) && !Text.AllWhitespace(posts[i].brief)
  {
    forall i | 0 <= i < |posts|
      ensures IsInvalid(posts[i]) <==> Text.AllWhitespace(posts[i].title) || Text.AllWhitespace(posts[i].brief)
    {
      Text.TrimEmptyIff(posts[i].title);
      Text.TrimEmptyIff(posts[i].brief);
    }
    if |InvalidPosts(posts)| != 0 {
      var q := InvalidPosts(posts)[0];
      assert q in InvalidPosts(posts);
    } else {
      forall i | 0 <= i < |posts| ensures !IsInvalid(posts[i]) {
        assert posts[i] in posts;
      }
    }
  }

  /** A string whose first character is not whitespace does not trim to the empty string. */
  lemma StartsWithTextNotBlank(s: string)
    requires s != [] && !Text.IsWhitespace(s[0])
    ensures !IsBlank(s)
  {
    Text.TrimEmptyIff(s);
  }

  /** The alert text. */
  function ValidationAlert(count: nat): string {
    Text.Decimal(count) + " posts are missing title or brief"
  }

  /** The sample rows always pass validation. */
  lemma SamplePostsAreValid(clock: seq<nat>, base: nat)
    ensures InvalidPosts(SamplePosts(clock, base)) == []
  {
    var r := SamplePosts(clock, base);
    forall k | 0 <= k < |clock| ensures !IsInvalid(r[k]) {
      var p := SamplePost(clock[k], base, k);
      assert p.title[0] == 'P' && p.brief[0] == 'S';
      StartsWithTextNotBlank(p.title);
      StartsWithTextNotBlank(p.brief);
    }
    if InvalidPosts(r) != [] {
      var q := InvalidPosts(r)[0];
      assert q in InvalidPosts(r);
    }
  }

  // ----- the request body -----

  /** One entry of `posts` in the request body. */
  datatype PostRequest = PostRequest(
    title: string,
    topic: string,
    brief: string,
    brandName: string,
    tone: string,
    generateImage: bool,
    generateCaption: bool)

  datatype GenerationOptions = GenerationOptions(
    maxCaptionWords: int,
    includeHashtags: bool,
    includeEmojis: bool,
    useCache: bool)

  /** `POST /campaigns/{id}/generate-batch` body. */
  datatype BatchRequest = BatchRequest(name: string, posts: seq<PostRequest>, options: GenerationOptions)

  /** The fixed generation options of every batch. */
  const Options := GenerationOptions(150, true, true, true)

  /** One row's entry: topic falls back to the title; brand and tone come from the campaign. */
  function ToRequest(campaign: Campaign, p: PostInput): PostRequest {
    PostRequest(p.title, if p.topic != "" then p.topic else p.title, p.brief,
                campaign.brandName, campaign.toneId, p.generateImage, p.generateCaption)
  }

  /** `posts.map(toRequest)`. */
  function RequestPosts(campaign: Campaign, posts: seq<PostInput>): (r: seq<PostRequest>)
    ensures |r| == |posts|
    ensures forall i :: 0 <= i < |posts| ==> r[i] == ToRequest(campaign, posts[i])
    decreases |posts|
  {
    if posts == [] then [] else [ToRequest(campaign, posts[0])] + RequestPosts(campaign, posts[1..])
  }

  /** The request body; `when` is `new Date().toLocaleString()`. */
  function BatchBody(campaign: Campaign, posts: seq<PostInput>, when: string): BatchRequest {
    BatchRequest("Batch " + when, RequestPosts(campaign, posts), Options)
  }

  /**
   * Entry i of the body is built from row i alone: title, brief and flags
   * copied, topic the row's topic unless empty and then its title, brand and
   * tone the campaign's; the options are always the fixed ones.
   */
  lemma BatchBodyEntries(campaign: Campaign, posts: seq<PostInput>, when: string, i: nat)
    requires i < |posts|
    ensures var b := BatchBody(campaign, posts, when);
      && |b.posts| == |posts|
      && b.options == GenerationOptions(150, true, true, true)
      && b.posts[i].title == posts[i].title
      && b.posts[i].brief == posts[i].brief
      && b.posts[i].topic == (if posts[i].topic == "" then posts[i].title else posts[i].topic)
      && b.posts[i].brandName == campaign.brandName
      && b.posts[i].tone == campaign.toneId
      && b.posts[i].generateImage == posts[i].generateImage
      && b.posts[i].generateCaption == posts[i].generateCaption
  {
  }

  /** Rows that pass validation give entries whose title, brief and topic are all non-empty. */
  lemma ValidatedBodyHasText(campaign: Campaign, posts: seq<PostInput>, when: string)
    requires InvalidPosts(posts) == []
    ensures forall e :: e in BatchBody(campaign, posts, when).posts ==>
      !IsBlank(e.title) && !IsBlank(e.brief) && e.topic != ""
  {
    var b := BatchBody(campaign, posts, when).posts;
    forall e | e in b ensures !IsBlank(e.title) && !IsBlank(e.brief) && e.topic != "" {
      var i :| 0 <= i < |b| && b[i] == e;
      assert posts[i] in posts;
      assert !IsInvalid(posts[i]);
    }
  }
}
