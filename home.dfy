/**
 * The home feed (src/pages/home/index.tsx): the tweets and their comments,
 * the like and retweet toggles, posting a tweet or a comment, the two
 * per-tweet open/closed maps, and logging out.
 *
 * Every new state is computed by a pure function of the old one, as the
 * page's `map` and spread expressions compute it; the HomePage class holds
 * the page's three state cells and replaces them through those functions.
 */
module Home {
  import opened Optional
  import opened Forms
  import Decimal
  import TokenStorage

  datatype User = User(id: string, name: string, username: string, avatar: Option<string>)

  datatype Comment = Comment(
    id: string,
    content: string,
    author: User,
    createdAt: string,
    likes: int,
    retweets: int,
    isLiked: bool,
    isRetweeted: bool)

  datatype Tweet = Tweet(
    id: string,
    content: string,
    author: User,
    createdAt: string,
    likes: int,
    retweets: int,
    comments: seq<Comment>,
    isLiked: bool,
    isRetweeted: bool)

  /** The two reactions, each a flag with a counter beside it. */
  datatype Reaction = Like | Retweet

  const CurrentUser := User("1", "John Doe", "johndoe", None)

  /** The feed the page starts with. */
  const SeedFeed: seq<Tweet> := [
    Tweet("1", "Just launched my new project! Excited to share it with everyone. #coding #webdev",
      User("2", "Jane Smith", "janesmith", None), "2h", 42, 12,
      [Comment("1-1", "Congratulations! This looks amazing!", User("3", "Bob Johnson", "bobjohnson", None),
        "1h", 5, 1, false, false)],
      false, false),
    Tweet("2", "Beautiful sunset today! \U{F0}\U{178}\U{152}\U{2026} Nature never fails to amaze me.",
      User("4", "Alice Williams", "alicew", None), "5h", 89, 23, [], true, false),
    Tweet("3", "Working on a new feature for the app. Can't wait to show you all! Stay tuned.",
      User("5", "Charlie Brown", "charlieb", None), "1d", 156, 45,
      [Comment("3-1", "Looking forward to it!", CurrentUser, "12h", 3, 0, true, false),
       Comment("3-2", "Can you give us a sneak peek?", User("6", "Diana Prince", "dianap", None),
        "10h", 8, 2, false, false)],
      false, true)]

  // ---------------------------------------------------------------------------
  // Reactions

  function CommentFlag(c: Comment, r: Reaction): bool {
    match r
    case Like => c.isLiked
    case Retweet => c.isRetweeted
  }

  function CommentCount(c: Comment, r: Reaction): int {
    match r
    case Like => c.likes
    case Retweet => c.retweets
  }

  /** The comment with the flag and counter of `r` blanked: what a toggle of `r` must not change. */
  function CommentRest(c: Comment, r: Reaction): Comment {
    match r
    case Like => c.(isLiked := false, likes := 0)
    case Retweet => c.(isRetweeted := false, retweets := 0)
  }

  function TweetFlag(t: Tweet, r: Reaction): bool {
    match r
    case Like => t.isLiked
    case Retweet => t.isRetweeted
  }

  function TweetCount(t: Tweet, r: Reaction): int {
    match r
    case Like => t.likes
    case Retweet => t.retweets
  }

  function TweetRest(t: Tweet, r: Reaction): Tweet {
    match r
    case Like => t.(isLiked := false, likes := 0)
    case Retweet => t.(isRetweeted := false, retweets := 0)
  }

  /** One toggle of a comment: the flag flips and the counter follows it. */
  function ToggleComment(c: Comment, r: Reaction): (d: Comment)
    ensures CommentFlag(d, r) == !CommentFlag(c, r)
    ensures CommentCount(d, r) == CommentCount(c, r) + (if CommentFlag(c, r) then -1 else 1)
    ensures CommentRest(d, r) == CommentRest(c, r)
  {
    match r
    case Like => c.(isLiked := !c.isLiked, likes := if c.isLiked then c.likes - 1 else c.likes + 1)
    case Retweet => c.(isRetweeted := !c.isRetweeted, retweets := if c.isRetweeted then c.retweets - 1 else c.retweets + 1)
  }

  /** One toggle of a tweet's own reaction: the flag flips and the counter follows it. */
  function ToggleTweet(t: Tweet, r: Reaction): (u: Tweet)
    ensures TweetFlag(u, r) == !TweetFlag(t, r)
    ensures TweetCount(u, r) == TweetCount(t, r) + (if TweetFlag(t, r) then -1 else 1)
    ensures TweetRest(u, r) == TweetRest(t, r)
  {
    match r
    case Like => t.(isLiked := !t.isLiked, likes := if t.isLiked then t.likes - 1 else t.likes + 1)
    case Retweet => t.(isRetweeted := !t.isRetweeted, retweets := if t.isRetweeted then t.retweets - 1 else t.retweets + 1)
  }

  /** `isComment && commentId`: the handler aims at a comment. */
  predicate AimsAtComment(isComment: bool, commentId: Option<string>) {
    isComment && commentId.Some? && commentId.value != ""
  }

  /** Every comment with id `cid` toggled, the others kept. */
  function ToggleMatching(cs: seq<Comment>, r: Reaction, cid: string): seq<Comment> {
    seq(|cs|, j requires 0 <= j < |cs| => if cs[j].id == cid then ToggleComment(cs[j], r) else cs[j])
  }

  /** What the handler's `map` callback makes of one tweet. */
  function ReactTweet(t: Tweet, r: Reaction, tweetId: string, isComment: bool, commentId: Option<string>): Tweet {
    if AimsAtComment(isComment, commentId) then t.(comments := ToggleMatching(t.comments, r, commentId.value))
    else if t.id == tweetId then ToggleTweet(t, r)
    else t
  }

  /** `handleLike` (r = Like) and `handleRetweet` (r = Retweet): the new feed. */
  function React(ts: seq<Tweet>, r: Reaction, tweetId: string, isComment: bool, commentId: Option<string>): (u: seq<Tweet>)
    ensures |u| == |ts|
    ensures forall i | 0 <= i < |ts| ::
      u[i].id == ts[i].id && u[i].content == ts[i].content && u[i].author == ts[i].author
      && |u[i].comments| == |ts[i].comments|
  {
    seq(|ts|, i requires 0 <= i < |ts| => ReactTweet(ts[i], r, tweetId, isComment, commentId))
  }

  /**
   * Aimed at a tweet, a reaction toggles the tweets with that id and leaves
   * every other tweet, and every comment, as it was; the feed keeps its length
   * and order.
   */
  lemma TweetReaction(ts: seq<Tweet>, r: Reaction, tweetId: string, isComment: bool, commentId: Option<string>)
    requires !AimsAtComment(isComment, commentId)
    ensures |React(ts, r, tweetId, isComment, commentId)| == |ts|
    ensures forall i | 0 <= i < |ts| ::
      React(ts, r, tweetId, isComment, commentId)[i] == (if ts[i].id == tweetId then ToggleTweet(ts[i], r) else ts[i])
    ensures forall i | 0 <= i < |ts| :: React(ts, r, tweetId, isComment, commentId)[i].comments == ts[i].comments
  {
  }

  /**
   * Aimed at a comment, a reaction toggles every comment with that id in every
   * tweet and changes nothing else; the tweets' own fields stay as they were.
   */
  lemma CommentReaction(ts: seq<Tweet>, r: Reaction, tweetId: string, cid: string, i: nat, j: nat)
    requires cid != "" && i < |ts| && j < |ts[i].comments|
    ensures var after := React(ts, r, tweetId, true, Some(cid));
      |after| == |ts| && after[i].(comments := ts[i].comments) == ts[i]
      && |after[i].comments| == |ts[i].comments|
      && after[i].comments[j] == if ts[i].comments[j].id == cid then ToggleComment(ts[i].comments[j], r) else ts[i].comments[j]
  {
  }

  /** A comment-level reaction does not look at the tweet id it is given. */
  lemma CommentReactionIgnoresTweetId(ts: seq<Tweet>, r: Reaction, a: string, b: string, cid: string)
    requires cid != ""
    ensures React(ts, r, a, true, Some(cid)) == React(ts, r, b, true, Some(cid))
  {
  }

  lemma ToggleCommentTwice(c: Comment, r: Reaction)
    ensures ToggleComment(ToggleComment(c, r), r) == c
  {
  }

  lemma {:induction false} ReactTweetTwice(t: Tweet, r: Reaction, tweetId: string, isComment: bool, commentId: Option<string>)
    ensures ReactTweet(ReactTweet(t, r, tweetId, isComment, commentId), r, tweetId, isComment, commentId) == t
  {
    if AimsAtComment(isComment, commentId) {
      var cid := commentId.value;
      var once := ToggleMatching(t.comments, r, cid);
      var twice := ToggleMatching(once, r, cid);
      forall j | 0 <= j < |t.comments|
        ensures twice[j] == t.comments[j]
      {
        ToggleCommentTwice(t.comments[j], r);
      }
      assert twice == t.comments;
    }
  }

  /** Reacting twice with the same arguments gives back the feed. */
  lemma ReactTwice(ts: seq<Tweet>, r: Reaction, tweetId: string, isComment: bool, commentId: Option<string>)
    ensures React(React(ts, r, tweetId, isComment, commentId), r, tweetId, isComment, commentId) == ts
  {
    var twice := React(React(ts, r, tweetId, isComment, commentId), r, tweetId, isComment, commentId);
    forall i | 0 <= i < |ts|
      ensures twice[i] == ts[i]
    {
      ReactTweetTwice(ts[i], r, tweetId, isComment, commentId);
    }
  }

  // ---------------------------------------------------------------------------
  // The counter invariant

  /** A counter is never negative, and is at least one while its flag is set. */
  predicate CounterOk(flag: bool, count: int) {
    count >= 0 && (flag ==> count >= 1)
  }

  predicate CommentOk(c: Comment) {
    CounterOk(c.isLiked, c.likes) && CounterOk(c.isRetweeted, c.retweets)
  }

  predicate TweetOk(t: Tweet) {
    CounterOk(t.isLiked, t.likes) && CounterOk(t.isRetweeted, t.retweets)
    && forall j | 0 <= j < |t.comments| :: CommentOk(t.comments[j])
  }

  predicate FeedOk(ts: seq<Tweet>) {
    forall i | 0 <= i < |ts| :: TweetOk(ts[i])
  }

  lemma SeedFeedOk()
    ensures FeedOk(SeedFeed)
  {
    assert TweetOk(SeedFeed[0]) && TweetOk(SeedFeed[1]) && TweetOk(SeedFeed[2]);
  }

  /** Toggles keep the counters consistent with their flags. */
  lemma ReactKeepsCounters(ts: seq<Tweet>, r: Reaction, tweetId: string, isComment: bool, commentId: Option<string>)
    requires FeedOk(ts)
    ensures FeedOk(React(ts, r, tweetId, isComment, commentId))
  {
    var after := React(ts, r, tweetId, isComment, commentId);
    forall i | 0 <= i < |ts|
      ensures TweetOk(after[i])
    {
      var t := ts[i];
      assert TweetOk(t);
      if AimsAtComment(isComment, commentId) {
        var cs := ToggleMatching(t.comments, r, commentId.value);
        forall j | 0 <= j < |cs|
          ensures CommentOk(cs[j])
        {
          assert CommentOk(t.comments[j]);
        }
      }
    }
  }

  // ---------------------------------------------------------------------------
  // Posting

  /** `Date.now().toString()` for a clock reading of `now` milliseconds. */
  function NowId(now: nat): string {
    Decimal.Digits(now)
  }

  function NewTweetOf(content: string, now: nat): Tweet {
    Tweet(NowId(now), content, CurrentUser, "now", 0, 0, [], false, false)
  }

  /** `onCreateTweet`: the new tweet goes first. */
  function CreateTweet(ts: seq<Tweet>, content: string, now: nat): (r: seq<Tweet>)
    ensures |r| == |ts| + 1 && r[1..] == ts
    ensures r[0].content == content && r[0].author == CurrentUser && r[0].id == NowId(now) && r[0].createdAt == "now"
    ensures r[0].likes == 0 && r[0].retweets == 0 && r[0].comments == [] && !r[0].isLiked && !r[0].isRetweeted
  {
    [NewTweetOf(content, now)] + ts
  }

  function NewCommentOf(tweetId: string, content: string, now: nat): Comment {
    Comment(tweetId + "-" + NowId(now), content, CurrentUser, "now", 0, 0, false, false)
  }

  /** The comment form's submit: the new comment goes last under every tweet with that id. */
  function AddComment(ts: seq<Tweet>, tweetId: string, content: string, now: nat): (u: seq<Tweet>)
    ensures |u| == |ts|
    ensures forall i | 0 <= i < |ts| ::
      u[i].id == ts[i].id
      && |u[i].comments| == |ts[i].comments| + (if ts[i].id == tweetId then 1 else 0)
      && u[i].comments[..|ts[i].comments|] == ts[i].comments
  {
    seq(|ts|, i requires 0 <= i < |ts| =>
      if ts[i].id == tweetId then ts[i].(comments := ts[i].comments + [NewCommentOf(tweetId, content, now)]) else ts[i])
  }

  /**
   * Only tweets with the id change, and only by one more comment at the end,
   * whose id is the tweet id and the clock reading joined by a dash.
   */
  lemma AddCommentEffect(ts: seq<Tweet>, tweetId: string, content: string, now: nat, i: nat)
    requires i < |ts|
    ensures var after := AddComment(ts, tweetId, content, now);
      |after| == |ts|
      && (ts[i].id != tweetId ==> after[i] == ts[i])
      && (ts[i].id == tweetId ==>
            after[i].(comments := ts[i].comments) == ts[i]
            && |after[i].comments| == |ts[i].comments| + 1
            && after[i].comments[..|ts[i].comments|] == ts[i].comments
            && var c := after[i].comments[|ts[i].comments|];
               c.content == content && c.author == CurrentUser && c.id == tweetId + "-" + NowId(now) && c.createdAt == "now"
               && c.likes == 0 && c.retweets == 0 && !c.isLiked && !c.isRetweeted)
  {
  }

  lemma PostingKeepsCounters(ts: seq<Tweet>, tweetId: string, content: string, now: nat)
    requires FeedOk(ts)
    ensures FeedOk(CreateTweet(ts, content, now))
    ensures FeedOk(AddComment(ts, tweetId, content, now))
  {
    var created := CreateTweet(ts, content, now);
    forall i | 0 <= i < |created|
      ensures TweetOk(created[i])
    {
      if i > 0 {
        assert created[i] == ts[i - 1];
      }
    }
    var after := AddComment(ts, tweetId, content, now);
    forall i | 0 <= i < |after|
      ensures TweetOk(after[i])
    {
      assert TweetOk(ts[i]);
      if ts[i].id == tweetId {
        var cs := after[i].comments;
        forall j | 0 <= j < |cs|
          ensures CommentOk(cs[j])
        {
          if j < |ts[i].comments| {
            assert cs[j] == ts[i].comments[j];
          }
        }
      }
    }
  }

  const TweetMax := 280

  function TweetIssues(content: string): (r: set<Issue>)
    ensures r == {} <==> 1 <= |content| <= TweetMax
    ensures forall i | i in r :: i.path == "content"
  {
    MinLength("content", content, 1, "Tweet cannot be empty")
    + MaxLength("content", content, TweetMax, "Tweet cannot exceed 280 characters")
  }

  function CommentIssues(content: string): (r: set<Issue>)
    ensures r == {} <==> 1 <= |content| <= TweetMax
    ensures forall i | i in r :: i.path == "content"
  {
    MinLength("content", content, 1, "Comment cannot be empty")
    + MaxLength("content", content, TweetMax, "Comment cannot exceed 280 characters")
  }

  /** A tweet or a comment is accepted exactly when it has one to 280 characters. */
  lemma ContentAccepted(content: string)
    ensures TweetIssues(content) == {} <==> 1 <= |content| <= 280
    ensures CommentIssues(content) == {} <==> 1 <= |content| <= 280
    ensures content == "" ==> TweetIssues(content) == {Issue("content", "Tweet cannot be empty")}
    ensures |content| > 280 ==> CommentIssues(content) == {Issue("content", "Comment cannot exceed 280 characters")}
  {
  }

  // ---------------------------------------------------------------------------
  // Open/closed maps

  /** `!!m[k]`: a key the map lacks reads as closed. */
  predicate IsOpen(m: map<string, bool>, k: string) {
    k in m && m[k]
  }

  /** `{...m, [k]: !m[k]}` */
  function Toggle(m: map<string, bool>, k: string): (r: map<string, bool>)
    ensures r.Keys == m.Keys + {k}
    ensures IsOpen(r, k) == !IsOpen(m, k)
    ensures forall j | j in m && j != k :: r[j] == m[j]
  {
    m[k := !IsOpen(m, k)]
  }

  /** Toggling a key twice leaves every key open or closed as before. */
  lemma ToggleTwice(m: map<string, bool>, k: string, j: string)
    ensures IsOpen(Toggle(Toggle(m, k), k), j) == IsOpen(m, j)
  {
  }

  // ---------------------------------------------------------------------------
  // The page

  class HomePage {
    var tweets: seq<Tweet>
    var expandedComments: map<string, bool>
    var commentForms: map<string, bool>

    /** The page keeps every counter consistent with its flag. */
    ghost predicate Valid()
      reads this
    {
      FeedOk(tweets)
    }

    constructor ()
      ensures Valid()
      ensures tweets == SeedFeed && expandedComments == map[] && commentForms == map[]
    {
      tweets := SeedFeed;
      expandedComments := map[];
      commentForms := map[];
      SeedFeedOk();
    }

    method HandleLike(tweetId: string, isComment: bool, commentId: Option<string>)
      requires Valid()
      modifies this`tweets
      ensures Valid()
      ensures tweets == React(old(tweets), Like, tweetId, isComment, commentId)
    {
      ReactKeepsCounters(tweets, Like, tweetId, isComment, commentId);
      tweets := React(tweets, Like, tweetId, isComment, commentId);
    }

    method HandleRetweet(tweetId: string, isComment: bool, commentId: Option<string>)
      requires Valid()
      modifies this`tweets
      ensures Valid()
      ensures tweets == React(old(tweets), Retweet, tweetId, isComment, commentId)
    {
      ReactKeepsCounters(tweets, Retweet, tweetId, isComment, commentId);
      tweets := React(tweets, Retweet, tweetId, isComment, commentId);
    }

    method ToggleComments(tweetId: string)
      modifies this`expandedComments
      ensures expandedComments == Toggle(old(expandedComments), tweetId)
    {
      expandedComments := Toggle(expandedComments, tweetId);
    }

    method ToggleCommentForm(tweetId: string)
      modifies this`commentForms
      ensures commentForms == Toggle(old(commentForms), tweetId)
    {
      commentForms := Toggle(commentForms, tweetId);
    }

    /** The tweet form's submit: the schema's issues, and the tweet posted only when there are none. */
    method SubmitTweet(content: string, now: nat) returns (issues: set<Issue>)
      requires Valid()
      modifies this`tweets
      ensures Valid()
      ensures issues == TweetIssues(content)
      ensures tweets == if issues == {} then CreateTweet(old(tweets), content, now) else old(tweets)
    {
      issues := TweetIssues(content);
      if issues == {} {
        PostingKeepsCounters(tweets, "", content, now);
        tweets := CreateTweet(tweets, content, now);
      }
    }

    /** A comment form's submit: on success the comment is added and that tweet's form closes. */
    method SubmitComment(tweetId: string, content: string, now: nat) returns (issues: set<Issue>)
      requires Valid()
      modifies this`tweets, this`commentForms
      ensures Valid()
      ensures issues == CommentIssues(content)
      ensures tweets == if issues == {} then AddComment(old(tweets), tweetId, content, now) else old(tweets)
      ensures commentForms == if issues == {} then old(commentForms)[tweetId := false] else old(commentForms)
    {
      issues := CommentIssues(content);
      if issues == {} {
        PostingKeepsCounters(tweets, tweetId, content, now);
        tweets := AddComment(tweets, tweetId, content, now);
        commentForms := commentForms[tweetId := false];
      }
    }

    /** `handleLogout`: the session is removed whether the logout call completes or throws. */
    method HandleLogout(tokens: TokenStorage.TokenService)
      modifies tokens
      ensures tokens.storage == old(tokens.storage) - {TokenStorage.UserKey}
    {
      // the try block and the catch block both remove the user; what the
      // logout request does in between changes nothing here
      tokens.RemoveUser();
    }
  }
}
