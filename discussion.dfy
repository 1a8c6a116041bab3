// The discussion thread under a lesson: like and dislike flags and counters
// on comments and on replies, new comments and replies, the expanded-replies
// set, the sort and filter of the list, the comment count and the age text.

module Discussion {
  import opened Wrappers
  import opened Strings
  import opened Lists
  import opened Sorting
  import opened Clock

  /** The vote fields every comment and reply carries. */
  datatype Votes = Votes(likes: int, dislikes: int, isLiked: bool, isDisliked: bool)

  /** The two flags are never both raised. */
  predicate Exclusive(v: Votes)
  {
    !(v.isLiked && v.isDisliked)
  }

  /** Counters that agree with the flags: none negative, and a raised flag is counted. */
  predicate Consistent(v: Votes)
  {
    Exclusive(v) && v.likes >= (if v.isLiked then 1 else 0) && v.dislikes >= (if v.isDisliked then 1 else 0)
  }

  /** The like button: it flips the like flag, moves the like count with it and withdraws a dislike. */
  function Like(v: Votes): (r: Votes)
    ensures r.isLiked == !v.isLiked && !r.isDisliked && Exclusive(r)
    ensures r.likes == v.likes + (if v.isLiked then -1 else 1)
    ensures r.dislikes == v.dislikes - (if v.isDisliked then 1 else 0)
  {
    Votes(if v.isLiked then v.likes - 1 else v.likes + 1,
          if v.isDisliked then v.dislikes - 1 else v.dislikes,
          !v.isLiked, false)
  }

  /** The dislike button, the mirror image of the like button. */
  function Dislike(v: Votes): (r: Votes)
    ensures r.isDisliked == !v.isDisliked && !r.isLiked && Exclusive(r)
    ensures r.dislikes == v.dislikes + (if v.isDisliked then -1 else 1)
    ensures r.likes == v.likes - (if v.isLiked then 1 else 0)
  {
    Votes(if v.isLiked then v.likes - 1 else v.likes,
          if v.isDisliked then v.dislikes - 1 else v.dislikes + 1,
          false, !v.isDisliked)
  }

  /** Exchanges the like and dislike sides. */
  function Swap(v: Votes): Votes
  {
    Votes(v.dislikes, v.likes, v.isDisliked, v.isLiked)
  }

  /** Dislike is like with the two sides exchanged. */
  lemma DislikeMirrorsLike(v: Votes)
    ensures Dislike(v) == Swap(Like(Swap(v)))
  {
  }

  /** Both buttons keep the counters in agreement with the flags. */
  lemma VotesStayConsistent(v: Votes)
    requires Consistent(v)
    ensures Consistent(Like(v)) && Consistent(Dislike(v))
  {
  }

  /** A second click on the same button undoes the first, unless the first withdrew the other vote. */
  lemma ClickTwiceRestores(v: Votes)
    ensures !v.isDisliked ==> Like(Like(v)) == v
    ensures !v.isLiked ==> Dislike(Dislike(v)) == v
  {
  }

  /** From a neutral post, like then dislike moves the vote across: the like is withdrawn and one dislike counted. */
  lemma LikeThenDislike(v: Votes)
    requires !v.isLiked && !v.isDisliked
    ensures Dislike(Like(v)) == Votes(v.likes, v.dislikes + 1, false, true)
  {
  }

  datatype Reaction = LikeIt | DislikeIt

  function React(x: Reaction, v: Votes): Votes
  {
    match x
    case LikeIt => Like(v)
    case DislikeIt => Dislike(v)
  }

  datatype Reply = Reply(id: int, role: string, content: string, timestamp: int, votes: Votes, isInstructor: bool)

  datatype Comment = Comment(id: int, role: string, content: string, timestamp: int, votes: Votes, replies: seq<Reply>)

  /** What a vote is for: a comment by its id, or a reply by its id inside the comment with the parent id. */
  datatype Target = OnComment(id: int) | OnReply(parentId: int, id: int)

  /** The reply list after a vote: only the replies with the id are touched. */
  function ReactReplies(rs: seq<Reply>, id: int, x: Reaction): (r: seq<Reply>)
    ensures |r| == |rs|
    ensures forall j :: 0 <= j < |rs| ==> r[j] == if rs[j].id == id then rs[j].(votes := React(x, rs[j].votes)) else rs[j]
  {
    seq(|rs|, j requires 0 <= j < |rs| => if rs[j].id == id then rs[j].(votes := React(x, rs[j].votes)) else rs[j])
  }

  /** One comment after a vote on the target. */
  function Reacted(c: Comment, t: Target, x: Reaction): Comment
  {
    match t
    case OnComment(id) => if c.id == id then c.(votes := React(x, c.votes)) else c
    case OnReply(parentId, id) => if c.id == parentId then c.(replies := ReactReplies(c.replies, id, x)) else c
  }

  /**
   * `handleLike` / `handleDislike`: a vote on a comment changes only that
   * comment's vote fields; a vote on a reply changes only the replies with
   * that id inside the comments with the parent id. Every other field and
   * every other comment is kept.
   */
  function ReactIn(cs: seq<Comment>, t: Target, x: Reaction): (r: seq<Comment>)
    ensures |r| == |cs|
    ensures forall i :: 0 <= i < |cs| ==>
      (r[i].id == cs[i].id && r[i].content == cs[i].content && r[i].role == cs[i].role
       && r[i].timestamp == cs[i].timestamp && |r[i].replies| == |cs[i].replies|)
    ensures forall i :: 0 <= i < |cs| && !Addresses(cs[i], t) ==> r[i] == cs[i]
    ensures forall i :: 0 <= i < |cs| && t.OnComment? && cs[i].id == t.id ==>
      r[i] == cs[i].(votes := React(x, cs[i].votes))
    ensures forall i :: 0 <= i < |cs| && t.OnReply? ==> r[i].votes == cs[i].votes
    ensures forall i :: 0 <= i < |cs| && t.OnReply? && cs[i].id == t.parentId ==>
      r[i] == cs[i].(replies := ReactReplies(cs[i].replies, t.id, x))
  {
    seq(|cs|, i requires 0 <= i < |cs| => Reacted(cs[i], t, x))
  }

  /** Whether the vote reaches this comment at all. */
  predicate Addresses(c: Comment, t: Target)
  {
    match t
    case OnComment(id) => c.id == id
    case OnReply(parentId, _) => c.id == parentId
  }

  /** Every vote pair in the thread, on comments and replies, agrees with its flags. */
  predicate ThreadConsistent(cs: seq<Comment>)
  {
    forall i :: 0 <= i < |cs| ==>
      (Consistent(cs[i].votes) && forall j :: 0 <= j < |cs[i].replies| ==> Consistent(cs[i].replies[j].votes))
  }

  /** Votes keep every post of the thread consistent, so no post is ever both liked and disliked. */
  lemma ReactKeepsConsistent(cs: seq<Comment>, t: Target, x: Reaction)
    requires ThreadConsistent(cs)
    ensures ThreadConsistent(ReactIn(cs, t, x))
  {
    var r := ReactIn(cs, t, x);
    forall i | 0 <= i < |cs|
      ensures Consistent(r[i].votes) && forall j :: 0 <= j < |r[i].replies| ==> Consistent(r[i].replies[j].votes)
    {
      assert r[i] == Reacted(cs[i], t, x);
      VotesStayConsistent(cs[i].votes);
      forall j | 0 <= j < |cs[i].replies| {
        VotesStayConsistent(cs[i].replies[j].votes);
      }
    }
  }

  /** The posts a target reaches are none of them disliked. */
  predicate TargetNotDisliked(cs: seq<Comment>, t: Target)
  {
    match t
    case OnComment(id) => forall i :: 0 <= i < |cs| && cs[i].id == id ==> !cs[i].votes.isDisliked
    case OnReply(parentId, id) => forall i :: 0 <= i < |cs| && cs[i].id == parentId ==>
      forall j :: 0 <= j < |cs[i].replies| && cs[i].replies[j].id == id ==> !cs[i].replies[j].votes.isDisliked
  }

  /** Liking a post twice gives back the thread as it was when the post was not disliked. */
  lemma LikeTwiceRestoresThread(cs: seq<Comment>, t: Target)
    requires TargetNotDisliked(cs, t)
    ensures ReactIn(ReactIn(cs, t, LikeIt), t, LikeIt) == cs
  {
    var once := ReactIn(cs, t, LikeIt);
    var twice := ReactIn(once, t, LikeIt);
    forall i | 0 <= i < |cs| ensures twice[i] == cs[i] {
      assert once[i] == Reacted(cs[i], t, LikeIt);
      assert twice[i] == Reacted(once[i], t, LikeIt);
      match t
      case OnComment(id) =>
      case OnReply(parentId, id) =>
        if cs[i].id == parentId {
          var rs := cs[i].replies;
          assert ReactReplies(ReactReplies(rs, id, LikeIt), id, LikeIt) == rs;
        }
    }
  }

  /** The comment `handleSubmitComment` builds: posted as a student, text as typed, no votes, no replies. */
  function NewComment(id: int, text: string, now: int): Comment
  {
    Comment(id, "Student", text, now, Votes(0, 0, false, false), [])
  }

  function NewReply(id: int, text: string, now: int): Reply
  {
    Reply(id, "Student", text, now, Votes(0, 0, false, false), false)
  }

  /** `handleSubmitReply`'s update: the reply goes at the end of every comment with the parent id. */
  function AddReply(cs: seq<Comment>, parentId: int, reply: Reply): (r: seq<Comment>)
    ensures |r| == |cs|
    ensures forall i :: 0 <= i < |cs| && cs[i].id == parentId ==> r[i] == cs[i].(replies := cs[i].replies + [reply])
    ensures forall i :: 0 <= i < |cs| && cs[i].id != parentId ==> r[i] == cs[i]
  {
    seq(|cs|, i requires 0 <= i < |cs| => if cs[i].id == parentId then cs[i].(replies := cs[i].replies + [reply]) else cs[i])
  }

  /** The header count: each comment and each of its replies. */
  function CommentCount(cs: seq<Comment>): (n: nat)
    ensures n >= |cs|
  {
    if cs == [] then 0 else 1 + |cs[0].replies| + CommentCount(cs[1..])
  }

  /** The number of comments with an id. */
  function WithId(cs: seq<Comment>, id: int): nat
  {
    if cs == [] then 0 else (if cs[0].id == id then 1 else 0) + WithId(cs[1..], id)
  }

  lemma {:induction false} CountConcat(a: seq<Comment>, b: seq<Comment>)
    ensures CommentCount(a + b) == CommentCount(a) + CommentCount(b)
  {
    if a == [] {
      assert a + b == b;
    } else {
      assert (a + b)[1..] == a[1..] + b;
      CountConcat(a[1..], b);
    }
  }

  /** A new comment adds one to the count. */
  lemma CommentAddsOne(c: Comment, cs: seq<Comment>)
    requires c.replies == []
    ensures CommentCount([c] + cs) == CommentCount(cs) + 1
  {
    assert ([c] + cs)[1..] == cs;
  }

  /** A new reply adds one to the count for each comment with the parent id: one when ids are unique. */
  lemma {:induction false} ReplyAddsOne(cs: seq<Comment>, parentId: int, reply: Reply)
    ensures CommentCount(AddReply(cs, parentId, reply)) == CommentCount(cs) + WithId(cs, parentId)
  {
    if cs != [] {
      ReplyAddsOne(cs[1..], parentId, reply);
      assert AddReply(cs, parentId, reply)[1..] == AddReply(cs[1..], parentId, reply);
    }
  }

  /** Votes never change the count. */
  lemma {:induction false} ReactKeepsCount(cs: seq<Comment>, t: Target, x: Reaction)
    ensures CommentCount(ReactIn(cs, t, x)) == CommentCount(cs)
  {
    if cs != [] {
      ReactKeepsCount(cs[1..], t, x);
      assert ReactIn(cs, t, x)[1..] == ReactIn(cs[1..], t, x);
    }
  }

  /** `formatTimeAgo` from the age in milliseconds: whole days if any, else whole hours, else whole minutes, else "Just now". */
  function TimeAgo(diff: int): (a: Ago)
    ensures a == JustNow <==> diff < MinuteMs
    ensures a.Minutes? <==> MinuteMs <= diff < HourMs
    ensures a.Hours? <==> HourMs <= diff < DayMs
    ensures a.Days? <==> DayMs <= diff
    ensures a.Minutes? ==> a.m * MinuteMs <= diff < (a.m + 1) * MinuteMs
    ensures a.Hours? ==> a.h * HourMs <= diff < (a.h + 1) * HourMs
    ensures a.Days? ==> a.d * DayMs <= diff < (a.d + 1) * DayMs
  {
    var minutes := diff / MinuteMs;
    var hours := diff / HourMs;
    var days := diff / DayMs;
    if days > 0 then Days(days)
    else if hours > 0 then Hours(hours)
    else if minutes > 0 then Minutes(minutes)
    else JustNow
  }

  function FormatTimeAgo(now: int, timestamp: int): string
  {
    AgoText(TimeAgo(now - timestamp))
  }

  function Timestamp(c: Comment): int
  {
    c.timestamp
  }

  /** The 'popular' key: likes minus dislikes. */
  function Score(c: Comment): int
  {
    c.votes.likes - c.votes.dislikes
  }

  /** The sort menu: 'oldest' first by time, 'popular' by score, anything else newest first. */
  function Arranged(cs: seq<Comment>, sortBy: string): (r: seq<Comment>)
    ensures multiset(r) == multiset(cs)
    ensures sortBy == "oldest" ==> SortedBy(r, Timestamp)
    ensures sortBy == "popular" ==> SortedDesc(r, Score)
    ensures sortBy != "oldest" && sortBy != "popular" ==> SortedDesc(r, Timestamp)
  {
    if sortBy == "oldest" then SortBy(cs, Timestamp)
    else if sortBy == "popular" then SortDesc(cs, Score)
    else SortDesc(cs, Timestamp)
  }

  /** A comment by an instructor, or one with a reply flagged as the instructor's. */
  predicate InstructorThread(c: Comment)
  {
    c.role == "Instructor" || exists j :: 0 <= j < |c.replies| && c.replies[j].isInstructor
  }

  /** The filter menu: 'instructor' threads, 'questions' (a '?' in the text), anything else keeps all. */
  function Keep(filterBy: string): Comment -> bool
  {
    (c: Comment) =>
      if filterBy == "instructor" then InstructorThread(c)
      else if filterBy == "questions" then Contains(c.content, "?")
      else true
  }

  /** What is listed: sorted first, then filtered. */
  function Visible(cs: seq<Comment>, sortBy: string, filterBy: string): seq<Comment>
  {
    Filter(Arranged(cs, sortBy), Keep(filterBy))
  }

  /** The listed comments are the comments that pass the filter, each as often as in the thread, in the chosen order. */
  lemma VisibleIsSortedSelection(cs: seq<Comment>, sortBy: string, filterBy: string)
    ensures multiset(Visible(cs, sortBy, filterBy)) == multiset(Filter(cs, Keep(filterBy)))
    ensures forall c :: c in Visible(cs, sortBy, filterBy) <==> c in cs && Keep(filterBy)(c)
    ensures sortBy == "oldest" ==> SortedBy(Visible(cs, sortBy, filterBy), Timestamp)
    ensures sortBy == "popular" ==> SortedDesc(Visible(cs, sortBy, filterBy), Score)
    ensures sortBy != "oldest" && sortBy != "popular" ==> SortedDesc(Visible(cs, sortBy, filterBy), Timestamp)
  {
    var a := Arranged(cs, sortBy);
    FilterPermutation(a, cs, Keep(filterBy));
    FilterMembers(a, Keep(filterBy));
    forall c ensures c in a <==> c in cs {
      assert c in a <==> multiset(a)[c] > 0;
      assert c in cs <==> multiset(cs)[c] > 0;
    }
    if sortBy == "oldest" {
      FilterKeepsSorted(a, Timestamp, Keep(filterBy));
    } else if sortBy == "popular" {
      FilterKeepsSortedDesc(a, Score, Keep(filterBy));
    } else {
      FilterKeepsSortedDesc(a, Timestamp, Keep(filterBy));
    }
  }

  /** A questions filter keeps exactly the comments with a question mark in their text. */
  lemma QuestionsFilter(c: Comment)
    ensures Keep("questions")(c) <==> '?' in c.content
  {
    ContainsIff(c.content, "?");
    if '?' in c.content {
      var k :| 0 <= k < |c.content| && c.content[k] == '?';
      OccurrenceContained(c.content, "?", k);
    } else {
      ContainedHead(c.content, "?");
    }
  }

  /** The discussion component's state. */
  class Thread {
    var discussions: seq<Comment>
    var newComment: string
    var replyingTo: Option<int>
    var replyText: string
    var sortBy: string
    var filterBy: string
    var expandedComments: set<int>

    constructor ()
      ensures discussions == [] && newComment == "" && replyingTo == None && replyText == ""
      ensures sortBy == "newest" && filterBy == "all" && expandedComments == {}
    {
      discussions := [];
      newComment := "";
      replyingTo := None;
      replyText := "";
      sortBy := "newest";
      filterBy := "all";
      expandedComments := {};
    }

    /** The list drawn on the page. */
    function Shown(): seq<Comment>
      reads this
    {
      Visible(discussions, sortBy, filterBy)
    }

    /** The lesson effect loads the fixed list of comments. */
    method Load(mock: seq<Comment>)
      modifies this
      ensures discussions == mock
      ensures newComment == old(newComment) && replyingTo == old(replyingTo) && replyText == old(replyText)
      ensures sortBy == old(sortBy) && filterBy == old(filterBy) && expandedComments == old(expandedComments)
    {
      discussions := mock;
    }

    method Vote(t: Target, x: Reaction)
      modifies this
      ensures discussions == ReactIn(old(discussions), t, x)
      ensures newComment == old(newComment) && replyingTo == old(replyingTo) && replyText == old(replyText)
      ensures sortBy == old(sortBy) && filterBy == old(filterBy) && expandedComments == old(expandedComments)
    {
      discussions := ReactIn(discussions, t, x);
    }

    method EditComment(text: string)
      modifies this
      ensures newComment == text && discussions == old(discussions) && replyText == old(replyText)
      ensures replyingTo == old(replyingTo) && expandedComments == old(expandedComments)
      ensures sortBy == old(sortBy) && filterBy == old(filterBy)
    {
      newComment := text;
    }

    /**
     * `handleSubmitComment`: a draft of white space only is ignored;
     * otherwise the comment, untrimmed, goes in front and the draft is cleared.
     */
    method SubmitComment(id: int, now: int)
      modifies this
      ensures Trim(old(newComment)) == "" ==> discussions == old(discussions) && newComment == old(newComment)
      ensures Trim(old(newComment)) != "" ==>
        discussions == [NewComment(id, old(newComment), now)] + old(discussions) && newComment == ""
      ensures replyingTo == old(replyingTo) && replyText == old(replyText)
      ensures sortBy == old(sortBy) && filterBy == old(filterBy) && expandedComments == old(expandedComments)
    {
      if Trim(newComment) != "" {
        discussions := [NewComment(id, newComment, now)] + discussions;
        newComment := "";
      }
    }

    /** The Reply button opens the form under a comment, or closes it when it is already open there. */
    method ClickReply(commentId: int)
      modifies this
      ensures replyingTo == if old(replyingTo) == Some(commentId) then None else Some(commentId)
      ensures discussions == old(discussions) && replyText == old(replyText) && newComment == old(newComment)
      ensures expandedComments == old(expandedComments)
      ensures sortBy == old(sortBy) && filterBy == old(filterBy)
    {
      replyingTo := if replyingTo == Some(commentId) then None else Some(commentId);
    }

    method EditReply(text: string)
      modifies this
      ensures replyText == text && discussions == old(discussions) && replyingTo == old(replyingTo)
      ensures newComment == old(newComment) && expandedComments == old(expandedComments)
      ensures sortBy == old(sortBy) && filterBy == old(filterBy)
    {
      replyText := text;
    }

    method CancelReply()
      modifies this
      ensures replyingTo == None && replyText == ""
      ensures discussions == old(discussions) && newComment == old(newComment) && expandedComments == old(expandedComments)
      ensures sortBy == old(sortBy) && filterBy == old(filterBy)
    {
      replyingTo := None;
      replyText := "";
    }

    /**
     * `handleSubmitReply`: a reply of white space only is ignored; otherwise
     * it is appended to the parent's replies and the form is closed and cleared.
     */
    method SubmitReply(parentId: int, id: int, now: int)
      modifies this
      ensures Trim(old(replyText)) == "" ==>
        discussions == old(discussions) && replyText == old(replyText) && replyingTo == old(replyingTo)
      ensures Trim(old(replyText)) != "" ==>
        discussions == AddReply(old(discussions), parentId, NewReply(id, old(replyText), now))
        && replyText == "" && replyingTo == None
      ensures newComment == old(newComment) && expandedComments == old(expandedComments)
      ensures sortBy == old(sortBy) && filterBy == old(filterBy)
    {
      if Trim(replyText) != "" {
        discussions := AddReply(discussions, parentId, NewReply(id, replyText, now));
        replyText := "";
        replyingTo := None;
      }
    }

    /** `toggleExpanded`: the id leaves the set if present and joins it otherwise. */
    method ToggleExpanded(commentId: int)
      modifies this
      ensures commentId in expandedComments <==> commentId !in old(expandedComments)
      ensures expandedComments - {commentId} == old(expandedComments) - {commentId}
      ensures discussions == old(discussions) && newComment == old(newComment)
      ensures replyingTo == old(replyingTo) && replyText == old(replyText)
      ensures sortBy == old(sortBy) && filterBy == old(filterBy)
    {
      if commentId in expandedComments {
        expandedComments := expandedComments - {commentId};
      } else {
        expandedComments := expandedComments + {commentId};
      }
    }

    method ChangeSort(s: string)
      modifies this
      ensures sortBy == s && discussions == old(discussions) && filterBy == old(filterBy)
      ensures newComment == old(newComment) && replyText == old(replyText) && expandedComments == old(expandedComments)
      ensures replyingTo == old(replyingTo)
    {
      sortBy := s;
    }

    method ChangeFilter(f: string)
      modifies this
      ensures filterBy == f && discussions == old(discussions) && sortBy == old(sortBy)
      ensures newComment == old(newComment) && replyText == old(replyText) && expandedComments == old(expandedComments)
      ensures replyingTo == old(replyingTo)
    {
      filterBy := f;
    }
  }

  /** The replies are drawn only under an expanded comment that has some. */
  function RepliesDrawn(c: Comment, expanded: set<int>): bool
  {
    c.id in expanded && |c.replies| > 0
  }

  /** The "No discussions yet" note is drawn exactly when the filter leaves nothing, which needs an empty thread under 'all'. */
  lemma EmptyNoteOnlyForEmptyThread(cs: seq<Comment>, sortBy: string, filterBy: string)
    requires filterBy != "instructor" && filterBy != "questions"
    ensures Visible(cs, sortBy, filterBy) == [] <==> cs == []
  {
    var a := Arranged(cs, sortBy);
    FilterKeepsAll(a, Keep(filterBy));
    if cs != [] {
      assert multiset(a) == multiset(cs);
      assert cs[0] in multiset(a);
      assert |a| > 0;
    }
  }
}
