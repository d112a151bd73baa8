/** The relay toggle of onSet: up to five posts to the node's relay
    endpoint, stopping at the first one answered with status 200. */
module CommandIssuer {

  /** How many posts onSet makes at most. */
  const MaxAttempts: nat := 5

  /** The status that acknowledges a post. */
  const StatusOk: int := 200

  /** The HTTP client is created with its default status validation, which
      resolves a request only for a status in 200..299 and rejects (throws)
      for every other status. */
  predicate ClientAccepts(status: int) {
    200 <= status < 300
  }

  /** What the relay endpoint does with one post: answer with a status, or
      give no answer at all (a network failure). */
  datatype PostReply = Answered(status: int) | Unanswered

  /** The client throws for this reply: there was no answer, or its status
      is outside 200..299. */
  predicate Rejected(reply: PostReply) {
    reply.Unanswered? || !ClientAccepts(reply.status)
  }

  /** A post the client resolved, but with a status other than 200: the
      only kind of post the loop retries. */
  predicate Refused(reply: PostReply) {
    reply.Answered? && ClientAccepts(reply.status) && reply.status != StatusOk
  }

  /** How the toggle ended: acknowledged by the given attempt, all five
      attempts refused, or ended by the client throwing at the given attempt. */
  datatype CommandReport = Acknowledged(attempt: nat) | Exhausted | Aborted(attempt: nat)
  {
    /** The number of posts made. */
    function Posts(): nat {
      match this
      case Acknowledged(k) => k
      case Aborted(k) => k
      case Exhausted => MaxAttempts
    }
  }

  /** The first `n` posts were all refused. */
  predicate AllRefused(replies: seq<PostReply>, n: nat)
    requires n <= |replies|
  {
    forall j :: 0 <= j < n ==> Refused(replies[j])
  }

  /** The report describes what the endpoint's replies make the loop do:
      every post before the last one was refused, and the last one was
      acknowledged, was rejected by the client, or was the fifth. */
  predicate Describes(replies: seq<PostReply>, r: CommandReport)
    requires MaxAttempts <= |replies|
  {
    match r
    case Acknowledged(k) => 1 <= k <= MaxAttempts && AllRefused(replies, k - 1) && replies[k - 1] == Answered(StatusOk)
    case Aborted(k) => 1 <= k <= MaxAttempts && AllRefused(replies, k - 1) && Rejected(replies[k - 1])
    case Exhausted => AllRefused(replies, MaxAttempts)
  }

  /** The outcome of the retry loop once `made` posts have been refused;
      `replies[i]` is the endpoint's answer to post `i + 1`. The loop makes
      at least one more post, and never more than five in all. */
  function IssueFrom(replies: seq<PostReply>, made: nat): (r: CommandReport)
    requires MaxAttempts <= |replies| && made <= MaxAttempts
    ensures made < MaxAttempts ==> made < r.Posts() <= MaxAttempts
    ensures made == MaxAttempts ==> r == Exhausted
    ensures AllRefused(replies, made) ==> Describes(replies, r)
    decreases MaxAttempts - made
  {
    if made == MaxAttempts then Exhausted
    else if Rejected(replies[made]) then Aborted(made + 1)
    else if replies[made].status == StatusOk then Acknowledged(made + 1)
    else
      assert AllRefused(replies, made) ==> AllRefused(replies, made + 1);
      IssueFrom(replies, made + 1)
  }

  /** The outcome of the whole retry loop: one to five posts, as the
      replies describe. */
  function Issue(replies: seq<PostReply>): (r: CommandReport)
    requires MaxAttempts <= |replies|
    ensures 1 <= r.Posts() <= MaxAttempts
    ensures Describes(replies, r)
  {
    IssueFrom(replies, 0)
  }

  /** At most one report describes a given list of replies. */
  lemma DescribesUnique(replies: seq<PostReply>, r1: CommandReport, r2: CommandReport)
    requires MaxAttempts <= |replies|
    requires Describes(replies, r1) && Describes(replies, r2)
    ensures r1 == r2
  {
  }

  /** The toggle makes between one and five posts, stops right after the
      first status 200, and reports exhaustion only when five posts were
      all refused. Together with DescribesUnique this fixes the outcome. */
  lemma IssueSpec(replies: seq<PostReply>)
    requires MaxAttempts <= |replies|
    ensures Describes(replies, Issue(replies))
    ensures 1 <= Issue(replies).Posts() <= MaxAttempts
    ensures forall j :: 0 <= j < Issue(replies).Posts() - 1 ==> replies[j] != Answered(StatusOk)
    ensures Issue(replies).Acknowledged? <==> replies[Issue(replies).Posts() - 1] == Answered(StatusOk)
  {
  }

  /** A post the client rejects is not retried: it ends the toggle at once,
      whatever the later replies would have been. */
  lemma RejectedPostEndsToggle(replies: seq<PostReply>, made: nat)
    requires MaxAttempts <= |replies| && made < MaxAttempts
    requires AllRefused(replies, made) && Rejected(replies[made])
    ensures Issue(replies) == Aborted(made + 1)
  {
    DescribesUnique(replies, Issue(replies), Aborted(made + 1));
  }

  /** Posts the toggle until one is acknowledged, at most five times, as the
      loop of onSet does; a post the client rejects throws out of the loop. */
  method ToggleRelay(replies: seq<PostReply>) returns (report: CommandReport)
    requires MaxAttempts <= |replies|
    ensures report == Issue(replies)
  {
    report := Exhausted;
    var i := 1;
    while i <= MaxAttempts
      invariant 1 <= i <= MaxAttempts + 1
      invariant IssueFrom(replies, i - 1) == Issue(replies)
      invariant report == Exhausted
      decreases MaxAttempts + 1 - i
    {
      var reply := replies[i - 1];
      if Rejected(reply) {
        report := Aborted(i);
        return;
      }
      if reply.status != StatusOk {
        i := i + 1;
        continue;
      }
      report := Acknowledged(i);
      break;
    }
  }
}
