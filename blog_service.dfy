/** BlogServiceImpl.likeBlog and isBlogLiked: each blog keeps, in the store,
    the set of ids of the users who liked it, and in the database a `liked`
    counter that a like raises and an unlike lowers. */
module BlogService {
  import opened Text
  import opened Common
  import opened Redis

  /** The prefix isBlogLiked writes out as a literal. likeBlog uses
      BLOG_LIKED_KEY instead, a separate parameter of the service. */
  const LikedLiteral := "blog:liked:"

  /** The key of blog `id`'s liked set under `prefix`. */
  function LikedKey(prefix: string, id: int): string
  {
    prefix + LongText(id)
  }

  /** The state likeBlog touches: the `liked` column of each blog row (a blog
      id absent from the map has no row) and the store's sets. */
  datatype Likes = Likes(liked: map<int, int>, sets: map<string, set<string>>)

  /** likeBlog(id) by user `userId`: the UPDATE succeeds exactly when the
      row exists, and only then does the set change. */
  function Like(blogLikedKey: string, s: Likes, id: int, userId: int): Likes
  {
    var key := LikedKey(blogLikedKey, id);
    var member := LongText(userId);
    if member !in Members(s.sets, key) then
      if id in s.liked then Likes(s.liked[id := s.liked[id] + 1], WithMember(s.sets, key, member)) else s
    else
      if id in s.liked then Likes(s.liked[id := s.liked[id] - 1], WithoutMember(s.sets, key, member)) else s
  }

  /** isBlogLiked's test for user `userId` on blog `blogId`. */
  predicate IsLiked(sets: map<string, set<string>>, blogId: int, userId: int)
  {
    LongText(userId) in Members(sets, LikedKey(LikedLiteral, blogId))
  }

  /** When the blog's row exists, a like flips the user's membership and moves
      the counter by one in the same direction. */
  lemma LikeToggles(blogLikedKey: string, s: Likes, id: int, userId: int)
    requires id in s.liked
    ensures var after := Like(blogLikedKey, s, id, userId);
            var key := LikedKey(blogLikedKey, id);
            var member := LongText(userId);
            && id in after.liked
            && (member in Members(after.sets, key) <==> member !in Members(s.sets, key))
            && after.liked[id] == s.liked[id] + (if member in Members(after.sets, key) then 1 else -1)
  {
  }

  /** When the UPDATE matches no row, nothing changes. */
  lemma LikeMissingBlogChangesNothing(blogLikedKey: string, s: Likes, id: int, userId: int)
    requires id !in s.liked
    ensures Like(blogLikedKey, s, id, userId) == s
  {
  }

  /** A like changes no other blog's counter and no membership but the
      caller's in this blog's set. */
  lemma LikeTouchesOnlyCaller(blogLikedKey: string, s: Likes, id: int, userId: int, k: string, m: string,
                              other: int)
    requires k != LikedKey(blogLikedKey, id) || m != LongText(userId)
    requires other != id
    ensures var after := Like(blogLikedKey, s, id, userId);
            && (m in Members(after.sets, k) <==> m in Members(s.sets, k))
            && (other in after.liked <==> other in s.liked)
            && (other in s.liked ==> after.liked[other] == s.liked[other])
  {
  }

  /** Liking twice restores both the set and the counter. */
  lemma LikeTwiceRestores(blogLikedKey: string, s: Likes, id: int, userId: int)
    requires NoEmptySets(s.sets)
    ensures Like(blogLikedKey, Like(blogLikedKey, s, id, userId), id, userId) == s
  {
    var key := LikedKey(blogLikedKey, id);
    var member := LongText(userId);
    if id in s.liked {
      var once := Like(blogLikedKey, s, id, userId);
      var twice := Like(blogLikedKey, once, id, userId);
      assert twice.liked == s.liked;
      if member !in Members(s.sets, key) {
        if key in s.sets {
          assert s.sets[key] != {};
          assert Members(s.sets, key) + {member} - {member} == s.sets[key];
        } else {
          assert twice.sets == s.sets;
        }
      } else {
        assert Members(s.sets, key) - {member} + {member} == s.sets[key];
        if Members(s.sets, key) - {member} == {} {
          assert s.sets[key] == {member};
        }
      }
    }
  }

  /** Counter and set in step: the counter equals the number of members. */
  ghost predicate InStep(blogLikedKey: string, s: Likes, id: int)
  {
    id in s.liked && s.liked[id] == |Members(s.sets, LikedKey(blogLikedKey, id))|
  }

  /** A like keeps the counter in step with the set. */
  lemma LikeKeepsInStep(blogLikedKey: string, s: Likes, id: int, userId: int)
    requires InStep(blogLikedKey, s, id)
    ensures InStep(blogLikedKey, Like(blogLikedKey, s, id, userId), id)
  {
    var key := LikedKey(blogLikedKey, id);
    var member := LongText(userId);
    var after := Like(blogLikedKey, s, id, userId);
    if member !in Members(s.sets, key) {
      assert Members(after.sets, key) == Members(s.sets, key) + {member};
    } else {
      var rest := Members(s.sets, key) - {member};
      assert Members(after.sets, key) == rest;
      assert Members(s.sets, key) == rest + {member};
    }
  }

  /** When likeBlog's prefix is the literal isBlogLiked reads, a like on an
      existing blog flips what isBlogLiked reports for that user. */
  lemma LikeFlipsIsLiked(s: Likes, id: int, userId: int)
    requires id in s.liked
    ensures IsLiked(Like(LikedLiteral, s, id, userId).sets, id, userId) == !IsLiked(s.sets, id, userId)
  {
  }

  /** A blog as isBlogLiked sees it: its id and the isLike field it sets. */
  class Blog {
    const id: int
    var isLike: bool

    constructor (id: int)
      ensures this.id == id
    {
      this.id := id;
      isLike := false;
    }
  }

  /** The service: the store, BLOG_LIKED_KEY, and the blog table's `liked`
      column. The logged-in user's id is an argument. */
  class Service {
    const redis: Store
    const blogLikedKey: string
    var liked: map<int, int>

    constructor (redis: Store, blogLikedKey: string, liked: map<int, int>)
      ensures this.redis == redis && this.blogLikedKey == blogLikedKey && this.liked == liked
    {
      this.redis := redis;
      this.blogLikedKey := blogLikedKey;
      this.liked := liked;
    }

    /** UPDATE tb_blog SET liked = liked + delta WHERE id = ...: whether a row
        was updated. */
    method UpdateLiked(id: int, delta: int) returns (isSuccess: bool)
      modifies this`liked
      ensures isSuccess == (id in old(liked))
      ensures liked == if isSuccess then old(liked)[id := old(liked)[id] + delta] else old(liked)
    {
      isSuccess := id in liked;
      if isSuccess {
        liked := liked[id := liked[id] + delta];
      }
    }

    method LikeBlog(id: int, userId: int) returns (r: Reply<()>)
      requires redis.Valid()
      modifies this`liked, redis`sets
      ensures redis.Valid()
      ensures r == Ok(())
      ensures Likes(liked, redis.sets) == Like(blogLikedKey, Likes(old(liked), old(redis.sets)), id, userId)
    {
      var key := blogLikedKey + LongText(id);
      var isMember := redis.IsMember(key, LongText(userId));
      if !isMember {
        var isSuccess := UpdateLiked(id, 1);
        if isSuccess {
          redis.Add(key, LongText(userId));
        }
      } else {
        var isSuccess := UpdateLiked(id, -1);
        if isSuccess {
          redis.Remove(key, LongText(userId));
        }
      }
      return Ok(());
    }

    method IsBlogLiked(blog: Blog, userId: int)
      modifies blog
      ensures blog.isLike == IsLiked(redis.sets, blog.id, userId)
    {
      var key := LikedLiteral + LongText(blog.id);
      var isMember := redis.IsMember(key, LongText(userId));
      blog.isLike := isMember;
    }
  }
}
