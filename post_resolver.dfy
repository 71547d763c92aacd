/** The post resolvers. The queries are filters over the stored posts; the
    mutations check the caller (token, then existence, then ownership, or
    `token && isAdmin` on the admin paths) before changing the store. */
module PostResolver {
  import opened Types
  import opened PostModel

  type Store = map<PostId, Post>

  // Error values, with the messages the resolvers raise.
  const NotAuthorizedToPublish := GqlError("You are not authorized to publish a blog", NotAuthorized)
  const NotAuthorizedToUpdate := GqlError("You are not authorized to update a blog", NotAuthorized)
  const NotAuthorizedToUpdateThis := GqlError("You are not authorized to update this blog", NotAuthorized)
  const NotAuthorizedToDelete := GqlError("You are not authorized to delete a blog", NotAuthorized)
  const NotAuthorizedToDeleteThis := GqlError("You are not authorized to delete this blog", NotAuthorized)
  const NotAuthorizedToUnlike := GqlError("You are not authorized to unlike a post", NotAuthorized)
  const PostValidationFailed := GqlError("Post validation failed", InternalServerError)
  const PostNotFound := GqlError("Post not found", NotFound)
  const AlreadyLiked := GqlError("Post already liked", BadRequest)
  const NotLiked := GqlError("Post not liked", BadRequest)

  // Queries

  /** `posts`: every stored post. */
  function Posts(s: Store): (r: Store)
    ensures r.Keys == s.Keys
    ensures forall k :: k in r ==> r[k] == s[k]
  {
    s
  }

  /** `postById`: the post, or null (not an error) when there is none. */
  function PostById(s: Store, id: PostId): (r: Option<Doc>)
    ensures r.Some? <==> id in s
    ensures r.Some? ==> r.value == Doc(id, s[id])
  {
    if id in s then Some(Doc(id, s[id])) else None
  }

  /** `postsByAuthorId`: exactly the posts whose author is `authorId`. */
  function PostsByAuthorId(s: Store, authorId: UserId): (r: Store)
    ensures forall k :: k in r <==> k in s && s[k].author == authorId
    ensures forall k :: k in r ==> r[k] == s[k]
  {
    map k | k in s && s[k].author == authorId :: s[k]
  }

  /** `postsLikedByUserId`: exactly the posts whose likes contain `userId`. */
  function PostsLikedByUserId(s: Store, userId: UserId): (r: Store)
    ensures forall k :: k in r <==> k in s && userId in s[k].likes
    ensures forall k :: k in r ==> r[k] == s[k]
  {
    map k | k in s && userId in s[k].likes :: s[k]
  }

  /** The stored posts, with the generator of fresh post ids. */
  class PostStore {
    var posts: Store
    var nextId: PostId

    /** Ids below the counter are taken, and no post is liked twice by one user. */
    ghost predicate Valid()
      reads this
    {
      forall k :: k in posts ==> k < nextId && NoDup(posts[k].likes)
    }

    constructor ()
      ensures Valid() && posts == map[]
    {
      posts := map[];
      nextId := 0;
    }

    /** `createPost` */
    method CreatePost(ctx: Identity, args: PostArgs) returns (r: Result<Doc>)
      requires Valid()
      modifies this
      ensures Valid()
      ensures !HasToken(ctx) ==> r == Fail(NotAuthorizedToPublish) && posts == old(posts)
      ensures HasToken(ctx) && !HasRequiredFields(Spread(args, ctx.id)) ==>
                r == Fail(PostValidationFailed) && posts == old(posts)
      ensures HasToken(ctx) && HasRequiredFields(Spread(args, ctx.id)) ==>
                && r.Ok? && r.value.id !in old(posts)
                && r.value.post == Spread(args, ctx.id)
                && posts == old(posts)[r.value.id := r.value.post]
    {
      if !HasToken(ctx) {
        return Fail(NotAuthorizedToPublish);
      }
      var newPost := Spread(args, ctx.id);
      if !HasRequiredFields(newPost) {
        // save() rejects the document
        return Fail(PostValidationFailed);
      }
      var id := nextId;
      posts := posts[id := newPost];
      nextId := nextId + 1;
      return Ok(Doc(id, newPost));
    }

    /** `updatePost` */
    method UpdatePost(ctx: Identity, patch: PostPatch) returns (r: Result<Doc>)
      requires Valid()
      modifies this
      ensures Valid()
      ensures !HasToken(ctx) ==> r == Fail(NotAuthorizedToUpdate) && posts == old(posts)
      ensures HasToken(ctx) && patch.id !in old(posts) ==> r == Fail(PostNotFound) && posts == old(posts)
      ensures HasToken(ctx) && patch.id in old(posts) && old(posts)[patch.id].author != ctx.id ==>
                r == Fail(NotAuthorizedToUpdateThis) && posts == old(posts)
      ensures HasToken(ctx) && patch.id in old(posts) && old(posts)[patch.id].author == ctx.id ==>
                && posts == old(posts)[patch.id := ApplyPatch(old(posts)[patch.id], patch)]
                && r == Ok(Doc(patch.id, posts[patch.id]))
    {
      if !HasToken(ctx) {
        return Fail(NotAuthorizedToUpdate);
      }
      if patch.id !in posts {
        return Fail(PostNotFound);
      }
      var post := posts[patch.id];
      if post.author != ctx.id {
        return Fail(NotAuthorizedToUpdateThis);
      }
      var updated := ApplyPatch(post, patch);
      posts := posts[patch.id := updated];
      return Ok(Doc(patch.id, updated));
    }

    /** `deletePost` */
    method DeletePost(ctx: Identity, id: PostId) returns (r: Result<Doc>)
      requires Valid()
      modifies this
      ensures Valid()
      ensures !HasToken(ctx) ==> r == Fail(NotAuthorizedToDelete) && posts == old(posts)
      ensures HasToken(ctx) && id !in old(posts) ==> r == Fail(PostNotFound) && posts == old(posts)
      ensures HasToken(ctx) && id in old(posts) && old(posts)[id].author != ctx.id ==>
                r == Fail(NotAuthorizedToDeleteThis) && posts == old(posts)
      ensures HasToken(ctx) && id in old(posts) && old(posts)[id].author == ctx.id ==>
                posts == old(posts) - {id} && r == Ok(Doc(id, old(posts)[id]))
    {
      if !HasToken(ctx) {
        return Fail(NotAuthorizedToDelete);
      }
      if id !in posts {
        return Fail(PostNotFound);
      }
      var post := posts[id];
      if post.author != ctx.id {
        return Fail(NotAuthorizedToDeleteThis);
      }
      posts := posts - {id};
      return Ok(Doc(id, post));
    }

    /** `updatePostAsAdmin`: no existence or ownership check; a missing
        post gives a null result and no error. */
    method UpdatePostAsAdmin(ctx: Identity, patch: PostPatch) returns (r: Result<Option<Doc>>)
      requires Valid()
      modifies this
      ensures Valid()
      ensures !IsAdmin(ctx) ==> r == Fail(NotAuthorizedToUpdate) && posts == old(posts)
      ensures IsAdmin(ctx) && patch.id !in old(posts) ==> r == Ok(None) && posts == old(posts)
      ensures IsAdmin(ctx) && patch.id in old(posts) ==>
                && posts == old(posts)[patch.id := ApplyPatch(old(posts)[patch.id], patch)]
                && r == Ok(Some(Doc(patch.id, posts[patch.id])))
    {
      if !HasToken(ctx) || !ctx.isAdmin {
        return Fail(NotAuthorizedToUpdate);
      }
      if patch.id !in posts {
        return Ok(None);
      }
      var updated := ApplyPatch(posts[patch.id], patch);
      posts := posts[patch.id := updated];
      return Ok(Some(Doc(patch.id, updated)));
    }

    /** `deletePostAsAdmin`: no existence or ownership check; a missing
        post gives a null result and no error. */
    method DeletePostAsAdmin(ctx: Identity, id: PostId) returns (r: Result<Option<Doc>>)
      requires Valid()
      modifies this
      ensures Valid()
      ensures !IsAdmin(ctx) ==> r == Fail(NotAuthorizedToDelete) && posts == old(posts)
      ensures IsAdmin(ctx) && id !in old(posts) ==> r == Ok(None) && posts == old(posts)
      ensures IsAdmin(ctx) && id in old(posts) ==>
                posts == old(posts) - {id} && r == Ok(Some(Doc(id, old(posts)[id])))
    {
      if !HasToken(ctx) || !ctx.isAdmin {
        return Fail(NotAuthorizedToDelete);
      }
      if id !in posts {
        return Ok(None);
      }
      var post := posts[id];
      posts := posts - {id};
      return Ok(Some(Doc(id, post)));
    }

    /** `likePost`: no token check; the caller's id is appended once. */
    method LikePost(ctx: Identity, postId: PostId) returns (r: Result<Doc>)
      requires Valid()
      modifies this
      ensures Valid()
      ensures postId !in old(posts) ==> r == Fail(PostNotFound) && posts == old(posts)
      ensures postId in old(posts) && ctx.id in old(posts)[postId].likes ==>
                r == Fail(AlreadyLiked) && posts == old(posts)
      ensures postId in old(posts) && ctx.id !in old(posts)[postId].likes ==>
                && posts == old(posts)[postId := old(posts)[postId].(likes := old(posts)[postId].likes + [ctx.id])]
                && r == Ok(Doc(postId, posts[postId]))
                && postId in PostsLikedByUserId(posts, ctx.id)
    {
      if postId !in posts {
        return Fail(PostNotFound);
      }
      var post := posts[postId];
      var userId := ctx.id;
      if userId in post.likes {
        return Fail(AlreadyLiked);
      }
      NoDupAppend(post.likes, userId);
      var liked := post.(likes := post.likes + [userId]);
      posts := posts[postId := liked];
      return Ok(Doc(postId, liked));
    }

    /** `unlikePost`: token check first; every occurrence of the caller's id
        is filtered out. */
    method UnlikePost(ctx: Identity, postId: PostId) returns (r: Result<Doc>)
      requires Valid()
      modifies this
      ensures Valid()
      ensures !HasToken(ctx) ==> r == Fail(NotAuthorizedToUnlike) && posts == old(posts)
      ensures HasToken(ctx) && postId !in old(posts) ==> r == Fail(PostNotFound) && posts == old(posts)
      ensures HasToken(ctx) && postId in old(posts) && ctx.id !in old(posts)[postId].likes ==>
                r == Fail(NotLiked) && posts == old(posts)
      ensures HasToken(ctx) && postId in old(posts) && ctx.id in old(posts)[postId].likes ==>
                && posts == old(posts)[postId := old(posts)[postId].(likes := RemoveAll(old(posts)[postId].likes, ctx.id))]
                && r == Ok(Doc(postId, posts[postId]))
                && postId !in PostsLikedByUserId(posts, ctx.id)
    {
      if !HasToken(ctx) {
        return Fail(NotAuthorizedToUnlike);
      }
      var userId := ctx.id;
      if postId !in posts {
        return Fail(PostNotFound);
      }
      var post := posts[postId];
      if userId !in post.likes {
        return Fail(NotLiked);
      }
      NoDupRemoveAll(post.likes, userId);
      var unliked := post.(likes := RemoveAll(post.likes, userId));
      posts := posts[postId := unliked];
      return Ok(Doc(postId, unliked));
    }
  }

  /** A user likes a fresh post once, fails to like it again, unlikes it,
      and fails to unlike it again; the likes go [] -> [u] -> [u] -> [] -> []. */
  method LikeUnlikeScenario(u: UserId, token: string)
    returns (liked: Result<Doc>, likedAgain: Result<Doc>, unliked: Result<Doc>, unlikedAgain: Result<Doc>)
    requires token != ""
    ensures liked.Ok? && liked.value.post.likes == [u]
    ensures likedAgain == Fail(AlreadyLiked)
    ensures unliked.Ok? && unliked.value.post.likes == []
    ensures unlikedAgain == Fail(NotLiked)
  {
    var store := new PostStore();
    var caller := Identity(u, token, false);
    var created := store.CreatePost(caller, PostArgs("t", "c", None));
    var id := created.value.id;
    assert PostById(store.posts, id) == Some(Doc(id, Post("t", "c", u, [])));

    liked := store.LikePost(caller, id);
    assert [] + [u] == [u];
    likedAgain := store.LikePost(caller, id);
    assert |store.posts[id].likes| == 1;

    unliked := store.UnlikePost(caller, id);
    LikeThenUnlike([], u);
    unlikedAgain := store.UnlikePost(caller, id);
  }

  /** Somebody else's post can be neither updated nor deleted by them, and
      stays as it was; an admin deletes it, and deleting it again gives null. */
  method OwnershipScenario(author: UserId, other: UserId, token: string)
    returns (id: PostId, update: Result<Doc>, delete: Result<Doc>, kept: Post,
             adminDelete: Result<Option<Doc>>, adminAgain: Result<Option<Doc>>)
    requires token != "" && author != other
    ensures update == Fail(NotAuthorizedToUpdateThis)
    ensures delete == Fail(NotAuthorizedToDeleteThis)
    ensures kept == Post("t", "c", author, [])
    ensures adminDelete == Ok(Some(Doc(id, kept)))
    ensures adminAgain == Ok(None)
  {
    var store := new PostStore();
    var created := store.CreatePost(Identity(author, token, false), PostArgs("t", "c", Some(other)));
    id := created.value.id;

    var intruder := Identity(other, token, false);
    update := store.UpdatePost(intruder, PostPatch(id, Some("x"), None));
    delete := store.DeletePost(intruder, id);
    kept := store.posts[id];

    var admin := Identity(other, token, true);
    adminDelete := store.DeletePostAsAdmin(admin, id);
    adminAgain := store.DeletePostAsAdmin(admin, id);
  }
}
