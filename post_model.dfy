/** The stored post document and the pure list and record operations the
    post mutations apply to it. */
module PostModel {
  import opened Types

  type PostId = nat

  /** A stored post: the Mongoose schema's fields (timestamps aside). */
  datatype Post = Post(title: string, content: string, author: UserId, likes: seq<UserId>)

  /** A post as a resolver returns it: the document with its id. */
  datatype Doc = Doc(id: PostId, post: Post)

  /** The arguments of `createPost`; `author` is whatever the caller put in
      (a field the spread `{...args, author}` overrides). */
  datatype PostArgs = PostArgs(title: string, content: string, author: Option<UserId>)

  /** An `UpdatePostInput`: the target post and the fields to change. */
  datatype PostPatch = PostPatch(id: PostId, title: Option<string>, content: Option<string>)

  /** Each user id occurs at most once. */
  predicate NoDup(s: seq<UserId>)
  {
    |s| == 0 || (s[0] !in s[1..] && NoDup(s[1..]))
  }

  /** `new postModel({...args, author})`: the later `author` key wins over
      one in `args`, and a new post starts with no likes. */
  function Spread(args: PostArgs, author: UserId): (p: Post)
    ensures p.author == author
    ensures p.title == args.title && p.content == args.content
    ensures p.likes == [] && NoDup(p.likes)
  {
    Post(args.title, args.content, author, [])
  }

  /** The schema's `required: true` on `title` and `content`, checked when a
      new document is saved: a missing or empty string fails it. */
  predicate HasRequiredFields(p: Post)
    ensures HasRequiredFields(p) ==> |p.title| > 0 && |p.content| > 0
    ensures p.title == "" || p.content == "" ==> !HasRequiredFields(p)
  {
    p.title != "" && p.content != ""
  }

  /** `findByIdAndUpdate` with a patch: the supplied fields replace the
      stored ones, nothing else changes. */
  function ApplyPatch(p: Post, patch: PostPatch): (q: Post)
    ensures q.author == p.author && q.likes == p.likes
    ensures patch.title.Some? ==> q.title == patch.title.value
    ensures patch.title.None? ==> q.title == p.title
    ensures patch.content.Some? ==> q.content == patch.content.value
    ensures patch.content.None? ==> q.content == p.content
  {
    Post(if patch.title.Some? then patch.title.value else p.title,
         if patch.content.Some? then patch.content.value else p.content,
         p.author, p.likes)
  }

  /** `likes.filter(likeId => likeId !== u)`: every occurrence of `u` goes,
      the other ids stay in their order. */
  function RemoveAll(s: seq<UserId>, u: UserId): (r: seq<UserId>)
    ensures |r| <= |s|
    ensures forall v :: v in r <==> v in s && v != u
  {
    if s == [] then []
    else (if s[0] == u then [] else [s[0]]) + RemoveAll(s[1..], u)
  }

  /** `a` is `b` with some elements left out, the rest in order. */
  predicate IsSubsequence(a: seq<UserId>, b: seq<UserId>)
    decreases |b|
  {
    a == [] ||
    (b != [] && ((a[0] == b[0] && IsSubsequence(a[1..], b[1..])) || IsSubsequence(a, b[1..])))
  }

  /** The filter keeps every other id as often as it occurred, drops `u`
      entirely, and keeps the survivors in their original order. */
  lemma {:induction false} RemoveAllCounts(s: seq<UserId>, u: UserId)
    ensures multiset(RemoveAll(s, u)) == multiset(s)[u := 0]
    ensures IsSubsequence(RemoveAll(s, u), s)
  {
    if s != [] {
      RemoveAllCounts(s[1..], u);
      assert s == [s[0]] + s[1..];
      var r := RemoveAll(s, u);
      if s[0] == u {
        assert r == RemoveAll(s[1..], u);
      } else {
        assert r == [s[0]] + RemoveAll(s[1..], u);
        assert r[0] == s[0] && r[1..] == RemoveAll(s[1..], u);
      }
    }
  }

  /** Filtering a list without `u` leaves it as it was. */
  lemma {:induction false} RemoveAllAbsent(s: seq<UserId>, u: UserId)
    requires u !in s
    ensures RemoveAll(s, u) == s
  {
    if s != [] {
      RemoveAllAbsent(s[1..], u);
      assert s == [s[0]] + s[1..];
    }
  }

  /** The filter distributes over concatenation. */
  lemma {:induction false} RemoveAllConcat(a: seq<UserId>, b: seq<UserId>, u: UserId)
    ensures RemoveAll(a + b, u) == RemoveAll(a, u) + RemoveAll(b, u)
  {
    if a != [] {
      RemoveAllConcat(a[1..], b, u);
      assert (a + b)[0] == a[0] && (a + b)[1..] == a[1..] + b;
    } else {
      assert a + b == b;
    }
  }

  /** `likePost` then `unlikePost` by the same user restores the likes. */
  lemma LikeThenUnlike(likes: seq<UserId>, u: UserId)
    requires u !in likes
    ensures RemoveAll(likes + [u], u) == likes
  {
    RemoveAllConcat(likes, [u], u);
    RemoveAllAbsent(likes, u);
    assert RemoveAll([u], u) == [] + RemoveAll([], u);
  }

  /** Appending an id that is not there keeps the ids distinct. */
  lemma {:induction false} NoDupAppend(s: seq<UserId>, u: UserId)
    requires NoDup(s) && u !in s
    ensures NoDup(s + [u])
  {
    if s != [] {
      NoDupAppend(s[1..], u);
      assert (s + [u])[1..] == s[1..] + [u];
    }
  }

  /** Filtering keeps the ids distinct. */
  lemma {:induction false} NoDupRemoveAll(s: seq<UserId>, u: UserId)
    requires NoDup(s)
    ensures NoDup(RemoveAll(s, u))
  {
    if s != [] {
      NoDupRemoveAll(s[1..], u);
      if s[0] != u {
        assert RemoveAll(s, u) == [s[0]] + RemoveAll(s[1..], u);
        assert RemoveAll(s, u)[1..] == RemoveAll(s[1..], u);
      } else {
        assert RemoveAll(s, u) == RemoveAll(s[1..], u);
      }
    }
  }
}
