/** The post handlers: create and read a post, delete it, like and unlike
    it, add and remove a comment. Each checks its ids and the stored post,
    mutates the loaded document in place and saves it. */
module PostController {
  import opened Http
  import opened JsArray
  import opened Models
  import opened PostValidation

  /** What a handler sends when the post is not in the store. */
  const NoPost: Errors := map["nopost" := "Unable to find post"]

  /** The message of the TypeError thrown by `profile._user` when the caller
      has no profile. */
  const NullProfileRead: string := "Cannot read properties of null (reading '_user')"

  /** `getPost`: a malformed id is a 400, a missing post a 404, otherwise the
      stored post. Nothing is written. */
  method GetPost(lib: Lib, db: Db, postId: Id) returns (r: Response<Post>)
    ensures !lib.isMongoId(postId) ==> r == BadRequest(map["post_id" := "Unable to find Post"])
    ensures lib.isMongoId(postId) && postId !in db.posts ==> r == NotFound(map["nopost" := "Unable to find Post"])
    ensures lib.isMongoId(postId) && postId in db.posts ==> r == Ok(db.posts[postId])
  {
    var errors: Errors := map[];
    if !lib.isMongoId(postId) {
      errors := errors["post_id" := "Unable to find Post"];
      return BadRequest(errors);
    }
    if postId !in db.posts {
      errors := errors["nopost" := "Unable to find Post"];
      return NotFound(errors);
    }
    r := Ok(db.posts[postId]);
  }

  /** `createPost`: an invalid text is rejected with the validator's errors
      before anything is stored; otherwise a post by the caller, with no
      likes and no comments, is stored under the fresh id. */
  method CreatePost(lib: Lib, db: Db, caller: Id, body: Body, newId: Id) returns (r: Response<Post>)
    requires db.Valid() && newId !in db.posts
    modifies db
    ensures db.Valid()
    ensures db.users == old(db.users) && db.profiles == old(db.profiles)
    ensures PostErrors(lib, body) != map[] ==> r == BadRequest(PostErrors(lib, body)) && db.posts == old(db.posts)
    ensures PostErrors(lib, body) == map[] ==>
      var data := PostData(lib, body);
      var p := Post(newId, caller, data["text"], Get(data, "name"), Get(data, "avatar"), [], []);
      r == Ok(p) && db.posts == old(db.posts)[newId := p]
  {
    var data, errors, isValid := ValidatePostInput(lib, body);
    if !isValid {
      return BadRequest(errors);
    }
    var doc := new PostDocument.Load(Post(newId, caller, data["text"], Get(data, "name"), Get(data, "avatar"), [], []));
    db.SavePost(doc);
    r := Ok(doc.Snapshot());
  }

  /** `deletePost`: only the author may delete a post. The caller's profile
      is read first; without one, the comparison of owners throws. */
  method DeletePost(lib: Lib, db: Db, caller: Id, postId: Id) returns (r: Response<bool>)
    requires db.Valid()
    modifies db
    ensures db.Valid()
    ensures db.users == old(db.users) && db.profiles == old(db.profiles)
    ensures !lib.isMongoId(postId) ==> r == Failed(ErrorsNotDefined) && db.posts == old(db.posts)
    ensures lib.isMongoId(postId) && postId !in old(db.posts) ==> r == NotFound(NoPost) && db.posts == old(db.posts)
    ensures lib.isMongoId(postId) && postId in old(db.posts) && caller !in old(db.profiles) ==>
      r == Failed(NullProfileRead) && db.posts == old(db.posts)
    ensures lib.isMongoId(postId) && postId in old(db.posts) && caller in old(db.profiles) ==>
      if old(db.posts[postId].user) == caller
      then r == Ok(true) && db.posts == old(db.posts) - {postId}
      else r == BadRequest(map["unauthorized" := "User not authorized"]) && db.posts == old(db.posts)
  {
    if !lib.isMongoId(postId) {
      // `errors.post_id = ...` with `errors` never declared
      return Failed(ErrorsNotDefined);
    }
    var profile := if caller in db.profiles then Some(db.profiles[caller]) else None;
    if postId !in db.posts {
      return NotFound(NoPost);
    }
    var post := db.posts[postId];
    if profile.None? {
      return Failed(NullProfileRead);
    }
    if post.user != profile.value.fields.user {
      return BadRequest(map["unauthorized" := "User not authorized"]);
    }
    db.posts := db.posts - {postId};
    r := Ok(true);
  }

  /** `likePost`: a caller already in `likes` is rejected and nothing
      changes; otherwise the caller is put in front of the old likes. */
  method LikePost(lib: Lib, db: Db, caller: Id, postId: Id) returns (r: Response<Post>)
    requires db.Valid()
    modifies db
    ensures db.Valid()
    ensures db.users == old(db.users) && db.profiles == old(db.profiles)
    ensures !lib.isMongoId(postId) ==> r == Failed(ErrorsNotDefined) && db.posts == old(db.posts)
    ensures lib.isMongoId(postId) && postId !in old(db.posts) ==> r == NotFound(NoPost) && db.posts == old(db.posts)
    ensures lib.isMongoId(postId) && postId in old(db.posts) ==>
      var p := old(db.posts[postId]);
      if caller in p.likes
      then r == BadRequest(map["alreadyliked" := "User already liked this post"]) && db.posts == old(db.posts)
      else
        var q := p.(likes := [caller] + p.likes);
        r == Ok(q) && db.posts == old(db.posts)[postId := q]
  {
    if !lib.isMongoId(postId) {
      return Failed(ErrorsNotDefined);
    }
    if postId !in db.posts {
      return NotFound(NoPost);
    }
    var doc := new PostDocument.Load(db.posts[postId]);
    if CountOf(doc.likes, caller) > 0 {
      return BadRequest(map["alreadyliked" := "User already liked this post"]);
    }
    PrependKeepsNoDuplicates(doc.likes, caller);
    doc.UnshiftLike(caller);
    db.SavePost(doc);
    r := Ok(doc.Snapshot());
  }

  /** `unlikePost`: a caller absent from `likes` is rejected and nothing
      changes; otherwise exactly the caller's first like is removed and the
      other likes keep their order. */
  method UnlikePost(lib: Lib, db: Db, caller: Id, postId: Id) returns (r: Response<Post>)
    requires db.Valid()
    modifies db
    ensures db.Valid()
    ensures db.users == old(db.users) && db.profiles == old(db.profiles)
    ensures !lib.isMongoId(postId) ==> r == Failed(ErrorsNotDefined) && db.posts == old(db.posts)
    ensures lib.isMongoId(postId) && postId !in old(db.posts) ==> r == NotFound(NoPost) && db.posts == old(db.posts)
    ensures lib.isMongoId(postId) && postId in old(db.posts) ==>
      var p := old(db.posts[postId]);
      if caller !in p.likes
      then r == BadRequest(map["notliked" := "You have not yet liked this post"]) && db.posts == old(db.posts)
      else
        var i := IndexOf(p.likes, caller);
        var q := p.(likes := RemoveFirst(p.likes, caller));
        && q.likes == p.likes[..i] + p.likes[i + 1..]
        && r == Ok(q) && db.posts == old(db.posts)[postId := q]
  {
    if !lib.isMongoId(postId) {
      return Failed(ErrorsNotDefined);
    }
    if postId !in db.posts {
      return NotFound(NoPost);
    }
    var p := db.posts[postId];
    var doc := new PostDocument.Load(p);
    if CountOf(doc.likes, caller) == 0 {
      return BadRequest(map["notliked" := "You have not yet liked this post"]);
    }
    var removeIndex := IndexOf(doc.likes, caller);
    UnlikeRemovesFirst(p.likes, caller);
    doc.SpliceLike(removeIndex);
    assert doc.Snapshot() == p.(likes := RemoveFirst(p.likes, caller));
    db.SavePost(doc);
    r := Ok(doc.Snapshot());
  }

  /** The removal of `unlikePost` on a duplicate-free list holding the
      caller: `splice(indexOf(caller), 1)` is the removal of the caller's
      first like, that is the list without the entry at that index, and it
      stays duplicate-free. */
  lemma UnlikeRemovesFirst(likes: seq<Id>, caller: Id)
    requires caller in likes && NoDuplicates(likes)
    ensures var i := IndexOf(likes, caller);
      && SpliceOne(likes, i) == RemoveFirst(likes, caller) == likes[..i] + likes[i + 1..]
      && NoDuplicates(RemoveFirst(likes, caller))
  {
    var i := IndexOf(likes, caller);
    SpliceIndexOfPresent(likes, caller);
    SpliceKeepsNoDuplicates(likes, i);
  }

  /** `commentPost`: an invalid text is rejected before any id is looked
      at; otherwise a comment by the caller goes in front of the old ones. */
  method CommentPost(lib: Lib, db: Db, caller: Id, postId: Id, body: Body, commentId: Id) returns (r: Response<Post>)
    requires db.Valid()
    modifies db
    ensures db.Valid()
    ensures db.users == old(db.users) && db.profiles == old(db.profiles)
    ensures PostErrors(lib, body) != map[] ==> r == BadRequest(PostErrors(lib, body)) && db.posts == old(db.posts)
    ensures PostErrors(lib, body) == map[] && !lib.isMongoId(postId) ==>
      r == BadRequest(map["post_id" := "Unable to find Post"]) && db.posts == old(db.posts)
    ensures PostErrors(lib, body) == map[] && lib.isMongoId(postId) && postId !in old(db.posts) ==>
      r == NotFound(NoPost) && db.posts == old(db.posts)
    ensures PostErrors(lib, body) == map[] && lib.isMongoId(postId) && postId in old(db.posts) ==>
      var data := PostData(lib, body);
      var c := Comment(commentId, data["text"], Get(data, "name"), Get(data, "avatar"), caller);
      var p := old(db.posts[postId]);
      var q := p.(comments := [c] + p.comments);
      r == Ok(q) && db.posts == old(db.posts)[postId := q]
  {
    var data, errors, isValid := ValidatePostInput(lib, body);
    if !isValid {
      return BadRequest(errors);
    }
    if !lib.isMongoId(postId) {
      errors := errors["post_id" := "Unable to find Post"];
      return BadRequest(errors);
    }
    if postId !in db.posts {
      return NotFound(NoPost);
    }
    var doc := new PostDocument.Load(db.posts[postId]);
    var newComment := Comment(commentId, data["text"], Get(data, "name"), Get(data, "avatar"), caller);
    doc.UnshiftComment(newComment);
    db.SavePost(doc);
    r := Ok(doc.Snapshot());
  }

  /** The guard `(comments.filter(c => c._id.toString() === id).length = 0)`
      of `deleteCommentPost`: an assignment, whose value is the 0 assigned,
      and 0 is falsy. The guard does not fire, whatever the comments. */
  function CommentNotFoundGuard(comments: seq<Comment>, id: Id): (fires: bool)
    ensures !fires
  {
    var assignedValue := 0;
    assignedValue != 0
  }

  /** `deleteCommentPost`: the comment is never reported missing. With a
      present id exactly that comment is removed; with an absent id the
      last comment is removed, and an empty list stays empty. The author of
      the comment is not checked. */
  method DeleteCommentPost(lib: Lib, db: Db, caller: Id, postId: Id, commentId: Id) returns (r: Response<Post>)
    requires db.Valid()
    modifies db
    ensures db.Valid()
    ensures db.users == old(db.users) && db.profiles == old(db.profiles)
    ensures !lib.isMongoId(postId) || !lib.isMongoId(commentId) ==> r == Failed(ErrorsNotDefined) && db.posts == old(db.posts)
    ensures lib.isMongoId(postId) && lib.isMongoId(commentId) && postId !in old(db.posts) ==>
      r == NotFound(NoPost) && db.posts == old(db.posts)
    ensures lib.isMongoId(postId) && lib.isMongoId(commentId) && postId in old(db.posts) ==>
      var p := old(db.posts[postId]);
      var q := p.(comments := RemoveComment(p.comments, commentId));
      r == Ok(q) && db.posts == old(db.posts)[postId := q]
  {
    if !lib.isMongoId(postId) {
      return Failed(ErrorsNotDefined);
    }
    if !lib.isMongoId(commentId) {
      return Failed(ErrorsNotDefined);
    }
    if postId !in db.posts {
      return NotFound(NoPost);
    }
    var doc := new PostDocument.Load(db.posts[postId]);
    if CommentNotFoundGuard(doc.comments, commentId) {
      return NotFound(map["commentnotexixts" := "Unable to find comment"]);
    }
    var removeIndex := IndexOf(CommentIds(doc.comments), commentId);
    doc.SpliceComment(removeIndex);
    db.SavePost(doc);
    r := Ok(doc.Snapshot());
  }

  /** Unliking right after a successful like gives back the stored posts. */
  method LikeThenUnlike(lib: Lib, db: Db, caller: Id, postId: Id) returns (liked: Response<Post>, unliked: Response<Post>)
    requires db.Valid()
    requires lib.isMongoId(postId) && postId in db.posts && caller !in db.posts[postId].likes
    modifies db
    ensures db.Valid()
    ensures liked.Ok? && unliked.Ok?
    ensures db.posts == old(db.posts) && db.users == old(db.users) && db.profiles == old(db.profiles)
  {
    ghost var p := db.posts[postId];
    liked := LikePost(lib, db, caller, postId);
    assert db.posts == old(db.posts)[postId := p.(likes := [caller] + p.likes)];
    assert RemoveFirst([caller] + p.likes, caller) == p.likes;
    unliked := UnlikePost(lib, db, caller, postId);
    assert db.posts[postId] == p;
  }

  /** Liking twice: the second like is rejected and changes nothing. */
  method LikeTwice(lib: Lib, db: Db, caller: Id, postId: Id) returns (first: Response<Post>, second: Response<Post>)
    requires db.Valid()
    requires lib.isMongoId(postId) && postId in db.posts && caller !in db.posts[postId].likes
    modifies db
    ensures db.Valid()
    ensures first.Ok? && second == BadRequest(map["alreadyliked" := "User already liked this post"])
    ensures postId in db.posts && db.posts[postId].likes == [caller] + old(db.posts[postId].likes)
  {
    first := LikePost(lib, db, caller, postId);
    second := LikePost(lib, db, caller, postId);
  }
}
