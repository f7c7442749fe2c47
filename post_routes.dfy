/**
 * The handlers of the post routes: create, list, get and delete. The caller
 * id is what the authentication middleware supplies; the new post's id and
 * creation time are what the store generates.
 */
module PostRoutes {
  import opened Js
  import opened Http
  import opened Models

  const TextRequired := FieldError("text", "Text is required")

  /** The validation errors of `POST /posts`. */
  function PostErrors(text: Value): (errors: seq<FieldError>)
    ensures errors == [] <==> Truthy(text)
    ensures errors != [] ==> errors == [TextRequired]
  {
    Require(text, "text", "Text is required")
  }

  /**
   * `POST /posts`. Empty text is refused before the store is touched. A
   * caller without a user record makes `user.name` throw inside the promise
   * chain: 500 and no post. Otherwise the new post carries the text, the
   * author's name and avatar, the caller as owner, and no likes or comments.
   */
  method CreatePost(db: Database, caller: UserId, text: Value, newId: PostId, now: int)
    returns (resp: Response<Post>)
    requires db.Valid() && newId !in db.posts
    modifies db
    ensures db.Valid()
    ensures db.users == old(db.users) && db.profiles == old(db.profiles)
    ensures PostErrors(text) != [] ==> resp == Invalid(PostErrors(text)) && db.posts == old(db.posts)
    ensures PostErrors(text) == [] && caller !in old(db.users) ==>
      resp == ServerError("Server error") && db.posts == old(db.posts)
    ensures PostErrors(text) == [] && caller in old(db.users) ==>
      && resp.Ok?
      && resp.body.id == newId && resp.body.text == text.s
      && resp.body.name == old(db.users)[caller].name && resp.body.avatar == old(db.users)[caller].avatar
      && resp.body.user == caller && resp.body.likes == [] && resp.body.comments == []
      && resp.body.date == now
      && db.posts == old(db.posts)[newId := resp.body]
  {
    var errors := PostErrors(text);
    if errors != [] {
      return Invalid(errors);
    }
    if caller !in db.users {
      return ServerError("Server error");
    }
    var user := db.users[caller];
    var newPost := Post(newId, caller, text.s, user.name, user.avatar, [], [], now);
    db.InsertPost(newPost);
    resp := Ok(newPost);
  }

  /** Every post is stored under its own id. */
  ghost predicate IdsMatch(posts: map<PostId, Post>) {
    forall id :: id in posts ==> posts[id].id == id
  }

  /** Among the posts under `keys`, the one under `k` is a newest. */
  ghost predicate IsLatest(posts: map<PostId, Post>, keys: set<PostId>, k: PostId)
    requires keys <= posts.Keys
  {
    k in keys && forall id :: id in keys ==> posts[id].date <= posts[k].date
  }

  lemma {:induction false} LatestExists(posts: map<PostId, Post>, keys: set<PostId>)
    requires keys <= posts.Keys && keys != {}
    ensures exists k :: IsLatest(posts, keys, k)
    decreases keys
  {
    var k0 :| k0 in keys;
    var rest := keys - {k0};
    if rest == {} {
      assert keys == {k0};
      assert IsLatest(posts, keys, k0);
    } else {
      LatestExists(posts, rest);
      var k1 :| IsLatest(posts, rest, k1);
      var k := if posts[k0].date <= posts[k1].date then k1 else k0;
      assert IsLatest(posts, keys, k);
    }
  }

  /** The posts of `r`, newest first (ties in any order). */
  ghost predicate NewestFirst(r: seq<Post>) {
    forall i, j :: 0 <= i < j < |r| ==> r[i].date >= r[j].date
  }

  /** `r` holds each post stored under `keys` exactly once. */
  ghost predicate Enumerates(posts: map<PostId, Post>, keys: set<PostId>, r: seq<Post>)
    requires keys <= posts.Keys
  {
    && |r| == |keys|
    && (forall i :: 0 <= i < |r| ==> r[i].id in keys && posts[r[i].id] == r[i])
    && (forall i, j :: 0 <= i < j < |r| ==> r[i].id != r[j].id)
    && (forall id :: id in keys ==> posts[id] in r)
  }

  /** Putting the post under `k` in front of a listing of the other keys lists every key once. */
  lemma ConsEnumerates(posts: map<PostId, Post>, keys: set<PostId>, k: PostId, tail: seq<Post>)
    requires keys <= posts.Keys && IdsMatch(posts) && k in keys
    requires Enumerates(posts, keys - {k}, tail)
    ensures Enumerates(posts, keys, [posts[k]] + tail)
  {
  }

  /** A newest post in front of a newest-first listing of the others keeps the order. */
  lemma ConsNewestFirst(posts: map<PostId, Post>, keys: set<PostId>, k: PostId, tail: seq<Post>)
    requires keys <= posts.Keys && IsLatest(posts, keys, k)
    requires Enumerates(posts, keys - {k}, tail) && NewestFirst(tail)
    ensures NewestFirst([posts[k]] + tail)
  {
  }

  /** The posts under `keys`, newest first: the query behind ListPosts. */
  ghost function ListKeys(posts: map<PostId, Post>, keys: set<PostId>): (r: seq<Post>)
    requires keys <= posts.Keys && IdsMatch(posts)
    ensures Enumerates(posts, keys, r)
    ensures NewestFirst(r)
    decreases keys
  {
    if keys == {} then []
    else
      LatestExists(posts, keys);
      var k :| IsLatest(posts, keys, k);
      var tail := ListKeys(posts, keys - {k});
      ConsEnumerates(posts, keys, k, tail);
      ConsNewestFirst(posts, keys, k, tail);
      [posts[k]] + tail
  }

  /**
   * `GET /posts`: `Post.find().sort({date: -1})`. Every stored post appears
   * exactly once, and the list is ordered by date, newest first.
   */
  ghost function ListPosts(posts: map<PostId, Post>): (r: seq<Post>)
    requires IdsMatch(posts)
    ensures |r| == |posts|
    ensures forall i :: 0 <= i < |r| ==> r[i].id in posts && posts[r[i].id] == r[i]
    ensures forall i, j :: 0 <= i < j < |r| ==> r[i].id != r[j].id
    ensures forall id :: id in posts ==> posts[id] in r
    ensures NewestFirst(r)
  {
    ListKeys(posts, posts.Keys)
  }

  /** `GET /posts/:id`: the post, or 404. */
  function GetPost(posts: map<PostId, Post>, id: PostId): (r: Response<Post>)
    ensures r.Ok? <==> id in posts
    ensures r.Ok? ==> r.body == posts[id]
    ensures !r.Ok? ==> r == NotFound("Post not found")
  {
    if id in posts then Ok(posts[id]) else NotFound("Post not found")
  }

  /**
   * `DELETE /posts/:id`. An unknown id: 404, nothing changes. A caller who
   * does not own the post: 401, nothing changes and the post can still be
   * read. The owner: exactly that post goes, every other one stays as it was.
   */
  method DeletePost(db: Database, caller: UserId, id: PostId) returns (resp: Response<string>)
    requires db.Valid()
    modifies db
    ensures db.Valid()
    ensures db.users == old(db.users) && db.profiles == old(db.profiles)
    ensures id !in old(db.posts) ==> resp == NotFound("Post not found") && db.posts == old(db.posts)
    ensures id in old(db.posts) && old(db.posts)[id].user != caller ==>
      && resp == Unauthorized("User is not Authorized!")
      && db.posts == old(db.posts)
      && GetPost(db.posts, id) == Ok(old(db.posts)[id])
    ensures id in old(db.posts) && old(db.posts)[id].user == caller ==>
      && resp == Ok("Post removed")
      && id !in db.posts && GetPost(db.posts, id).NotFound?
      && (forall other :: other in old(db.posts) && other != id ==> other in db.posts && db.posts[other] == old(db.posts)[other])
      && db.posts.Keys == old(db.posts).Keys - {id}
  {
    if id !in db.posts {
      return NotFound("Post not found");
    }
    var post := db.posts[id];
    if post.user != caller {
      return Unauthorized("User is not Authorized!");
    }
    db.RemovePost(id);
    resp := Ok("Post removed");
  }
}
