/**
 * Feed items as the author feed returns them, the normalised post record the
 * review queue holds, and the three filter predicates the skip scan consults.
 */
module Posts {

  datatype Option<+T> = None | Some(value: T)

  /** JavaScript truthiness of an optional string: present and not empty. */
  predicate Truthy(o: Option<string>) {
    o.Some? && o.value != ""
  }

  /** `x || fallback` for an optional string. */
  function OrElse(o: Option<string>, fallback: string): string {
    if Truthy(o) then o.value else fallback
  }

  /** `x || 0` for an optional metric; a present 0 and a missing value both give 0. */
  function CountOrZero(o: Option<int>): (r: int)
    ensures o.None? ==> r == 0
    ensures o.Some? ==> r == o.value
  {
    if o.Some? && o.value != 0 then o.value else 0
  }

  /** The `$type` a feed item's `reason` carries when the item is a repost. */
  const ReasonRepost: string := "app.bsky.feed.defs#reasonRepost"

  const NormalType: string := "Normal Post"
  const RepostPrefix: string := "Repost of "
  const ReplyPrefix: string := "Reply to "
  const NoContent: string := "No content available"
  const Unknown: string := "unknown"

  /** The reply reference of a post record: who the parent post's author is, if known. */
  datatype ReplyRef = ReplyRef(parentAuthorHandle: Option<string>)

  /**
   * One item of an author feed page. Every optional-chained field of the raw
   * record is an Option; `createdAt` is kept as an opaque string.
   */
  datatype FeedItem = FeedItem(
    uri: string,
    authorDid: string,
    text: Option<string>,
    createdAt: string,
    reply: Option<ReplyRef>,
    recordAuthorHandle: Option<string>,
    reasonType: Option<string>,
    likes: Option<int>,
    reposts: Option<int>,
    replies: Option<int>)

  /** A post as the review queue holds it; `kind` is the source's `type` field, the display string the filters test. */
  datatype Post = Post(
    uri: string,
    content: string,
    createdAt: string,
    kind: string,
    likes: int,
    reposts: int,
    replies: int,
    blueskyUrl: string)

  predicate StartsWith(s: string, prefix: string) {
    |prefix| <= |s| && s[..|prefix|] == prefix
  }

  predicate IsRepostItem(item: FeedItem) {
    item.reasonType.Some? && item.reasonType.value == ReasonRepost
  }

  predicate IsReplyItem(item: FeedItem) {
    item.reply.Some?
  }

  /** The part of `s` after its last '/', or all of `s` when it has none (`split('/').pop()`). */
  function LastSegment(s: string): (r: string)
    ensures |r| <= |s| && r == s[|s| - |r|..]
    ensures '/' !in r
    ensures |r| < |s| ==> s[|s| - |r| - 1] == '/'
  {
    if |s| == 0 then ""
    else if s[|s| - 1] == '/' then ""
    else LastSegment(s[..|s| - 1]) + [s[|s| - 1]]
  }

  const ProfileUrlPrefix: string := "https://bsky.app/profile/"
  const PostPathSegment: string := "/post/"

  /** The web link of a post: the author's profile, then the record key, the last segment of the URI. */
  function BlueskyUrl(did: string, uri: string): string {
    ProfileUrlPrefix + did + PostPathSegment + LastSegment(uri)
  }

  /** The display type of a feed item: a repost wins over a reply. */
  function Classify(item: FeedItem): string {
    if IsRepostItem(item) then
      RepostPrefix + "@" + OrElse(item.recordAuthorHandle, Unknown)
    else if IsReplyItem(item) then
      ReplyPrefix + "@" + OrElse(item.reply.value.parentAuthorHandle, Unknown)
    else
      NormalType
  }

  /** The feed-item normalising map of one page. */
  function Normalize(item: FeedItem): (p: Post)
    ensures p.uri == item.uri
    ensures item.likes.None? ==> p.likes == 0
    ensures item.reposts.None? ==> p.reposts == 0
    ensures item.replies.None? ==> p.replies == 0
    ensures !Truthy(item.text) ==> p.content == NoContent
  {
    Post(
      item.uri,
      OrElse(item.text, NoContent),
      item.createdAt,
      Classify(item),
      CountOrZero(item.likes),
      CountOrZero(item.reposts),
      CountOrZero(item.replies),
      BlueskyUrl(item.authorDid, item.uri))
  }

  function NormalizeAll(feed: seq<FeedItem>): (ps: seq<Post>)
    ensures |ps| == |feed|
    ensures forall i :: 0 <= i < |feed| ==> ps[i] == Normalize(feed[i])
  {
    if feed == [] then [] else [Normalize(feed[0])] + NormalizeAll(feed[1..])
  }

  predicate IsReplyPost(p: Post) {
    p.kind != "" && StartsWith(p.kind, ReplyPrefix)
  }

  predicate IsRepostPost(p: Post) {
    p.kind != "" && StartsWith(p.kind, RepostPrefix)
  }

  predicate HasZeroLikes(p: Post) {
    p.likes == 0
  }

  /**
   * The filter flags. `filterReplies` and `filterReposts` mean "show": replies
   * and reposts are skipped when they are false. `filterZeroLikes` means
   * "show only posts with no likes".
   */
  datatype Filters = Filters(filterReplies: bool, filterReposts: bool, filterZeroLikes: bool)

  const DefaultFilters: Filters := Filters(true, true, false)

  /** The skip-scan condition: the post is hidden by at least one active filter. */
  predicate Excluded(p: Post, f: Filters) {
    (!f.filterReplies && IsReplyPost(p)) ||
    (!f.filterReposts && IsRepostPost(p)) ||
    (f.filterZeroLikes && !HasZeroLikes(p))
  }

  lemma {:induction false} PrefixOfConcat(s: string, t: string, prefix: string)
    requires StartsWith(s, prefix)
    ensures StartsWith(s + t, prefix)
  {
    assert (s + t)[..|prefix|] == s[..|prefix|];
  }

  lemma {:induction false} MismatchOfConcat(s: string, t: string, prefix: string, k: nat)
    requires k < |s| && k < |prefix| && s[k] != prefix[k]
    ensures !StartsWith(s + t, prefix)
  {
    assert (s + t)[k] == s[k];
  }

  /** A repost's type string starts with the repost prefix and not with the reply prefix. */
  lemma RepostTypeHasRepostPrefix(handle: string)
    ensures var t := RepostPrefix + "@" + handle;
            t != "" && StartsWith(t, RepostPrefix) && !StartsWith(t, ReplyPrefix)
  {
    var h := "@" + handle;
    assert RepostPrefix + "@" + handle == RepostPrefix + h;
    PrefixOfConcat(RepostPrefix, h, RepostPrefix);
    MismatchOfConcat(RepostPrefix, h, ReplyPrefix, 3);
  }

  /** A reply's type string starts with the reply prefix and not with the repost prefix. */
  lemma ReplyTypeHasReplyPrefix(handle: string)
    ensures var t := ReplyPrefix + "@" + handle;
            t != "" && StartsWith(t, ReplyPrefix) && !StartsWith(t, RepostPrefix)
  {
    var h := "@" + handle;
    assert ReplyPrefix + "@" + handle == ReplyPrefix + h;
    PrefixOfConcat(ReplyPrefix, h, ReplyPrefix);
    MismatchOfConcat(ReplyPrefix, h, RepostPrefix, 3);
  }

  /**
   * Classification: an item is shown as a repost exactly when its reason is a
   * repost, and as a reply exactly when it has a reply reference and is not a
   * repost; the type strings carry exactly the prefixes the predicates test.
   */
  lemma ClassifyMatchesPredicates(item: FeedItem)
    ensures IsRepostPost(Normalize(item)) <==> IsRepostItem(item)
    ensures IsReplyPost(Normalize(item)) <==> IsReplyItem(item) && !IsRepostItem(item)
    ensures !IsRepostItem(item) && !IsReplyItem(item) ==> Normalize(item).kind == NormalType
  {
    var t := Classify(item);
    assert Normalize(item).kind == t;
    if IsRepostItem(item) {
      RepostTypeHasRepostPrefix(OrElse(item.recordAuthorHandle, Unknown));
    } else if IsReplyItem(item) {
      ReplyTypeHasReplyPrefix(OrElse(item.reply.value.parentAuthorHandle, Unknown));
    } else {
      assert t == NormalType;
      assert t[0] != ReplyPrefix[0];
      assert t[0] != RepostPrefix[0];
    }
  }

  /** Missing metrics read as zero, and a post without likes passes the zero-likes test. */
  lemma MissingLikesPassZeroLikes(item: FeedItem)
    requires item.likes.None?
    ensures HasZeroLikes(Normalize(item))
    ensures !Excluded(Normalize(item), Filters(true, true, true))
  {
  }

  /** With the default flags nothing is excluded. */
  lemma DefaultFiltersShowEverything(p: Post)
    ensures !Excluded(p, DefaultFilters)
  {
  }
}
