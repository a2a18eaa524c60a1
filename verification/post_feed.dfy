/** The post feed component of the browser client: the list of posts shown,
    the loading flag, and the local effect of creating and liking a post. */
module FeedClient {
  import opened Wrappers

  /** The user id the client writes into the likes it adds locally. */
  const CurrentUser: string := "current-user"

  datatype Like = Like(userId: string)

  /** A post as the feed holds it; fields the feed never touches are left out. */
  datatype Post = Post(id: string, author: string, content: string, likes: seq<Like>)

  /** `posts.map(post => post._id === postId ? { ...post, likes: [...post.likes, like] } : post)`. */
  function WithLike(posts: seq<Post>, postId: string): (r: seq<Post>)
    ensures |r| == |posts|
    ensures forall i :: 0 <= i < |posts| && posts[i].id != postId ==> r[i] == posts[i]
    ensures forall i :: 0 <= i < |posts| && posts[i].id == postId ==>
              r[i] == posts[i].(likes := posts[i].likes + [Like(CurrentUser)])
  {
    if posts == [] then []
    else
      var p := posts[0];
      var rest := WithLike(posts[1..], postId);
      [if p.id == postId then p.(likes := p.likes + [Like(CurrentUser)]) else p] + rest
  }

  /** No duplicate check: liking the same post twice adds two likes by the
      current user, whatever its likes were. */
  lemma LikeTwice(posts: seq<Post>, postId: string, i: nat)
    requires i < |posts| && posts[i].id == postId
    ensures WithLike(WithLike(posts, postId), postId)[i].likes
         == posts[i].likes + [Like(CurrentUser), Like(CurrentUser)]
  {
    var once := WithLike(posts, postId);
    assert once[i].id == postId;
  }

  /** Liking a post no other entry shares an id with leaves the list alone. */
  lemma LikeUnknownPost(posts: seq<Post>, postId: string)
    requires forall i :: 0 <= i < |posts| ==> posts[i].id != postId
    ensures WithLike(posts, postId) == posts
  {
  }

  class PostFeed {
    var posts: seq<Post>
    var loading: bool

    constructor ()
      ensures posts == [] && loading
    {
      posts := [];
      loading := true;
    }

    /** `fetchPosts`: loading always ends; a successful fetch replaces the list
        wholesale, a failed one leaves it untouched. */
    method FetchPosts(fetched: HttpOutcome<seq<Post>>)
      modifies this
      ensures !loading
      ensures posts == if fetched.Ok? then fetched.body else old(posts)
    {
      if fetched.Ok? {
        posts := fetched.body;
      }
      loading := false;
    }

    /** `handleNewPost`: the new post goes first, the previous ones follow in order. */
    method HandleNewPost(post: Post)
      modifies this
      ensures posts == [post] + old(posts)
      ensures posts[0] == post && posts[1..] == old(posts)
      ensures loading == old(loading)
    {
      posts := [post] + posts;
    }

    /** `handleLike`: after a successful like request, every post with that id
        gains one like by the current user; a failed request changes nothing. */
    method HandleLike(postId: string, liked: HttpOutcome<()>)
      modifies this
      ensures |posts| == |old(posts)| && loading == old(loading)
      ensures liked.Failed? ==> posts == old(posts)
      ensures liked.Ok? ==> posts == WithLike(old(posts), postId)
      ensures forall i :: 0 <= i < |posts| && posts[i].id != postId ==> posts[i] == old(posts)[i]
    {
      if liked.Ok? {
        posts := WithLike(posts, postId);
      }
    }
  }
}
