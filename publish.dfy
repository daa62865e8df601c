/**
 * The caption both scripts post. Its literal "Full Time" is also the marker
 * the duplicate checks look for in the account's own feed.
 */
module Publish {
  import opened Wrappers
  import opened Strings

  const Marker: string := "Full Time"

  /** `f"Full Time: Arsenal {ars_score} - {opp_score} {opponent}. #COYG #Arsenal"` */
  function Caption(teamScore: string, oppScore: string, opponent: string): (c: string)
    ensures StartsWith(c, Marker)
    ensures Contains(c, Marker)
    ensures Contains(c, opponent)
  {
    var head := "Full Time: Arsenal " + teamScore + " - " + oppScore + " ";
    var c := head + opponent + ". #COYG #Arsenal";
    assert c[..|Marker|] == Marker;
    ContainsInfix([], Marker, c[|Marker|..]);
    assert [] + Marker + c[|Marker|..] == c;
    ContainsInfix(head, opponent, ". #COYG #Arsenal");
    c
  }

  /** The caption names its opponent even once both are lower-cased. */
  lemma CaptionNamesOpponentCaseless(teamScore: string, oppScore: string, opponent: string)
    ensures Contains(Lower(Caption(teamScore, oppScore, opponent)), Lower(opponent))
  {
    LowerKeepsContains(Caption(teamScore, oppScore, opponent), opponent);
  }

  /**
   * One item of `getAuthorFeed`: the text at `post.record.text`, or None when
   * the item lacks that path.
   */
  datatype Post = Post(text: Option<string>)

  /**
   * The account's own posts, newest first, or Unreachable when the request
   * fails (an error status or an exception).
   */
  datatype History = Feed(posts: seq<Post>) | Unreachable

  /** The page `getAuthorFeed` returns for `limit`: the newest `limit` posts. */
  function Recent(posts: seq<Post>, limit: nat): (r: seq<Post>)
    ensures |r| == if |posts| < limit then |posts| else limit
    ensures forall i :: 0 <= i < |r| ==> r[i] == posts[i]
  {
    if |posts| < limit then posts else posts[..limit]
  }
}
