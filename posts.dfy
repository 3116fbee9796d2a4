/** The like counter shown under a post on the feed and on a user's profile. */
module Posts {
  import opened ListSet

  /** `post.likes + (likedPosts.includes(post.id) ? 1 : 0)`. */
  function DisplayedLikes(likes: nat, liked: seq<int>, postId: int): nat
  {
    likes + (if postId in liked then 1 else 0)
  }

  /**
    The counter reads one above the stored count exactly when the viewer likes the post, and
    toggling a like moves that post's counter by one in the right direction and leaves every
    other post's counter as it was.
  */
  lemma ToggleLikeMovesCounter(likes: nat, liked: seq<int>, postId: int, other: int)
    ensures DisplayedLikes(likes, liked, postId) == likes + 1 <==> postId in liked
    ensures DisplayedLikes(likes, Toggle(liked, postId), postId)
              == if postId in liked then likes else likes + 1
    ensures other != postId ==>
              DisplayedLikes(likes, Toggle(liked, postId), other) == DisplayedLikes(likes, liked, other)
  {
    ToggleSpec(liked, postId);
  }
}
