/** The post routes: list with pagination, get by id, create, update and
    delete, over the post table. Every route sits behind the authentication
    middleware; the handlers receive the verified claims as `caller`. */
module Posts {
  import opened Http
  import opened Schema

  /** A row of the post table, keyed by its id. */
  datatype Post = Post(title: string, content: string, authorId: string, createdAt: Time)

  type PostTable = map<string, Post>

  function View(id: string, p: Post): PostView
  {
    PostView(id, p.title, p.content, p.authorId, p.createdAt)
  }

  // ---------------------------------------------------------------------
  // Schemas

  /** The fields `createPostSchema` accepts. */
  datatype NewPost = NewPost(title: string, content: string)

  /** The fields `updatePostSchema` accepts; an absent key is `None`. */
  datatype PostPatch = PostPatch(title: Option<string>, content: Option<string>)

  /** `createPostSchema`: title and content, both non-empty strings. Any
      other key of the body, `authorId` included, is dropped. */
  function ParseNewPost(body: RequestBody): (r: Parsed<NewPost>)
    requires !body.Unparsable?
    ensures r.Ok? <==> body.Object? && HasString(body.fields, "title", 1) && HasString(body.fields, "content", 1)
    ensures r.Ok? ==> r.value == NewPost(body.fields["title"].s, body.fields["content"].s)
    ensures r.Rejected? ==> |r.issues| > 0
  {
    match body
    case NotAnObject => Rejected(NotAnObjectIssues)
    case Object(fields) =>
      var issues := RequiredString(fields, "title", 1) + RequiredString(fields, "content", 1);
      if issues == [] then Ok(NewPost(fields["title"].s, fields["content"].s)) else Rejected(issues)
  }

  function Supplied(fields: map<string, Json>, key: string): Option<string>
  {
    if key in fields && fields[key].JString? then Some(fields[key].s) else None
  }

  /** `updatePostSchema`: title and content each optional, each non-empty
      when supplied. */
  function ParsePatch(body: RequestBody): (r: Parsed<PostPatch>)
    requires !body.Unparsable?
    ensures r.Ok? <==> body.Object? && ("title" in body.fields ==> HasString(body.fields, "title", 1))
                                    && ("content" in body.fields ==> HasString(body.fields, "content", 1))
    ensures r.Ok? ==> r.value == PostPatch(Supplied(body.fields, "title"), Supplied(body.fields, "content"))
    ensures r.Ok? && r.value.title.Some? ==> |r.value.title.value| >= 1
    ensures r.Ok? && r.value.content.Some? ==> |r.value.content.value| >= 1
    ensures r.Rejected? ==> |r.issues| > 0
  {
    match body
    case NotAnObject => Rejected(NotAnObjectIssues)
    case Object(fields) =>
      var issues := OptionalString(fields, "title", 1) + OptionalString(fields, "content", 1);
      if issues == [] then Ok(PostPatch(Supplied(fields, "title"), Supplied(fields, "content"))) else Rejected(issues)
  }

  /** What `prisma.post.update` writes: the supplied fields only. */
  function ApplyPatch(p: Post, patch: PostPatch): (q: Post)
    ensures q.authorId == p.authorId && q.createdAt == p.createdAt
    ensures patch.title.None? ==> q.title == p.title
    ensures patch.content.None? ==> q.content == p.content
    ensures patch.title.Some? ==> q.title == patch.title.value
    ensures patch.content.Some? ==> q.content == patch.content.value
  {
    var title := if patch.title.Some? then patch.title.value else p.title;
    var content := if patch.content.Some? then patch.content.value else p.content;
    p.(title := title, content := content)
  }

  // ---------------------------------------------------------------------
  // GET /posts

  const DefaultPage := 1
  const DefaultLimit := 10

  /** `parseInt(c.req.query(name) || default)`: an absent or empty query
      parameter takes the default. */
  function QueryOr(query: Option<int>, default: int): int
  {
    if query.Some? then query.value else default
  }

  /** The number of posts the pages before `page` hold. */
  function Offset(page: int, limit: int): int
  {
    (page - 1) * limit
  }

  /** `Math.ceil(total / limit)` for a positive limit: the least number of
      pages of `limit` posts that hold `total` posts. */
  function CeilDiv(total: nat, limit: int): (pages: nat)
    requires limit > 0
    ensures pages * limit >= total
    ensures pages == 0 || (pages - 1) * limit < total
    decreases total
  {
    if total == 0 then 0
    else if total <= limit then 1
    else
      var rest := CeilDiv(total - limit, limit);
      assert (rest + 1) * limit == rest * limit + limit;
      rest + 1
  }

  /** No smaller page count holds them all. */
  lemma CeilDivIsLeast(total: nat, limit: int, pages: int)
    requires limit > 0 && pages * limit >= total
    ensures CeilDiv(total, limit) <= pages
  {
    var c := CeilDiv(total, limit);
    if c > pages {
      assert c - 1 >= pages;
      assert (c - 1) * limit >= pages * limit by {
        MultiplyMonotone(pages, c - 1, limit);
      }
      assert false;
    }
  }

  lemma MultiplyMonotone(a: int, b: int, k: int)
    requires a <= b && k >= 0
    ensures a * k <= b * k
  {
    assert b * k - a * k == (b - a) * k;
  }

  /** `k` is a post no other post was created after. */
  ghost predicate IsNewest(posts: PostTable, k: string)
  {
    k in posts && forall j :: j in posts ==> posts[j].createdAt <= posts[k].createdAt
  }

  lemma {:induction false} NewestExists(posts: PostTable)
    requires |posts| > 0
    ensures exists k :: IsNewest(posts, k)
    decreases |posts|
  {
    var k0 :| k0 in posts;
    var rest := posts - {k0};
    assert rest.Keys == posts.Keys - {k0};
    if |rest| == 0 {
      assert posts.Keys == {k0};
      assert IsNewest(posts, k0);
    } else {
      NewestExists(rest);
      var k1 :| IsNewest(rest, k1);
      var newest := if posts[k0].createdAt <= posts[k1].createdAt then k1 else k0;
      forall j | j in posts
        ensures posts[j].createdAt <= posts[newest].createdAt
      {
        if j != k0 { assert j in rest; }
      }
      assert IsNewest(posts, newest);
    }
  }

  ghost predicate AllStored(posts: PostTable, ids: seq<string>)
  {
    forall i :: 0 <= i < |ids| ==> ids[i] in posts
  }

  ghost predicate Distinct(ids: seq<string>)
  {
    forall i, j :: 0 <= i < j < |ids| ==> ids[i] != ids[j]
  }

  /** Along `ids`, creation times never increase. */
  ghost predicate Descending(posts: PostTable, ids: seq<string>)
    requires AllStored(posts, ids)
  {
    forall i, j :: 0 <= i < j < |ids| ==> posts[ids[j]].createdAt <= posts[ids[i]].createdAt
  }

  /** `ids` lists every post of the table exactly once, newest first. */
  ghost predicate NewestFirstOrder(posts: PostTable, ids: seq<string>)
  {
    && |ids| == |posts|
    && AllStored(posts, ids)
    && (forall k :: k in posts ==> k in ids)
    && Distinct(ids)
    && Descending(posts, ids)
  }

  lemma NewestInFrontStored(posts: PostTable, k: string, tail: seq<string>)
    requires k in posts && AllStored(posts - {k}, tail)
    ensures AllStored(posts, [k] + tail)
    ensures forall i :: 0 <= i < |tail| ==> tail[i] != k && posts[tail[i]] == (posts - {k})[tail[i]]
  {
  }

  lemma NewestInFrontCovers(posts: PostTable, k: string, tail: seq<string>)
    requires forall x :: x in posts - {k} ==> x in tail
    ensures forall x :: x in posts ==> x in [k] + tail
  {
    forall x | x in posts
      ensures x in [k] + tail
    {
      if x != k {
        assert x in posts - {k};
      }
    }
  }

  lemma NewestInFrontSorted(posts: PostTable, k: string, tail: seq<string>)
    requires IsNewest(posts, k)
    requires AllStored(posts - {k}, tail) && Distinct(tail) && Descending(posts - {k}, tail)
    ensures AllStored(posts, [k] + tail) && Distinct([k] + tail) && Descending(posts, [k] + tail)
  {
    NewestInFrontStored(posts, k, tail);
    var ids := [k] + tail;
    forall i, j | 0 <= i < j < |ids|
      ensures ids[i] != ids[j] && posts[ids[j]].createdAt <= posts[ids[i]].createdAt
    {
      assert ids[j] == tail[j - 1];
      if i > 0 {
        assert ids[i] == tail[i - 1];
      }
    }
  }

  /** Putting a newest post in front of the order of the others orders them all. */
  lemma NewestInFront(posts: PostTable, k: string, tail: seq<string>)
    requires IsNewest(posts, k)
    requires NewestFirstOrder(posts - {k}, tail)
    ensures NewestFirstOrder(posts, [k] + tail)
  {
    assert (posts - {k}).Keys == posts.Keys - {k};
    NewestInFrontCovers(posts, k, tail);
    NewestInFrontSorted(posts, k, tail);
  }

  /** The ids of all posts, newest first (`orderBy: { createdAt: 'desc' }`);
      posts created at the same instant are put in one fixed order, chosen
      once per table, and every page query is taken to use that same order. */
  ghost function NewestFirst(posts: PostTable): (ids: seq<string>)
    ensures NewestFirstOrder(posts, ids)
    decreases |posts|
  {
    if |posts| == 0 then []
    else
      NewestExists(posts);
      var k :| IsNewest(posts, k);
      var rest := posts - {k};
      assert rest.Keys == posts.Keys - {k};
      var tail := NewestFirst(rest);
      NewestInFront(posts, k, tail);
      [k] + tail
  }

  /** The part of `s` a query with `skip` and `take` returns. */
  function Window<T>(s: seq<T>, skip: nat, take: nat): (w: seq<T>)
    ensures |w| <= take
    ensures skip >= |s| ==> w == []
    ensures |w| == if skip >= |s| then 0 else if |s| - skip < take then |s| - skip else take
    ensures forall i :: 0 <= i < |w| ==> skip + i < |s| && w[i] == s[skip + i]
  {
    if skip >= |s| then [] else if |s| - skip < take then s[skip..] else s[skip..skip + take]
  }

  function Views(posts: PostTable, ids: seq<string>): (vs: seq<PostView>)
    requires forall i :: 0 <= i < |ids| ==> ids[i] in posts
    ensures |vs| == |ids|
    ensures forall i :: 0 <= i < |ids| ==> vs[i] == View(ids[i], posts[ids[i]])
  {
    seq(|ids|, i requires 0 <= i < |ids| => View(ids[i], posts[ids[i]]))
  }

  /** The posts a query with offset `skip` and `take: limit` returns. */
  ghost function PagePosts(posts: PostTable, skip: nat, limit: nat): seq<PostView>
  {
    Views(posts, Window(NewestFirst(posts), skip, limit))
  }

  /** A page holds at most `limit` posts, each as stored, none twice,
      newest first; an offset past the last post gives an empty page. */
  lemma PagePostsShape(posts: PostTable, skip: nat, limit: nat)
    ensures var vs := PagePosts(posts, skip, limit);
      && |vs| <= limit
      && (skip >= |posts| ==> vs == [])
      && (forall i :: 0 <= i < |vs| ==> vs[i].id in posts && vs[i] == View(vs[i].id, posts[vs[i].id]))
      && (forall i, j :: 0 <= i < j < |vs| ==> vs[i].id != vs[j].id && vs[j].createdAt <= vs[i].createdAt)
  {
    var ids := NewestFirst(posts);
    var w := Window(ids, skip, limit);
    var vs := Views(posts, w);
    forall i, j | 0 <= i < j < |vs|
      ensures vs[i].id != vs[j].id && vs[j].createdAt <= vs[i].createdAt
    {
      assert w[i] == ids[skip + i] && w[j] == ids[skip + j];
    }
  }

  /** GET /posts?page&limit. A page before the first one gives a negative
      offset, which the store refuses. */
  ghost function ListPosts(posts: PostTable, pageQuery: Option<int>, limitQuery: Option<int>): (r: Response)
    requires QueryOr(limitQuery, DefaultLimit) > 0
    ensures r.status != 200 ==> r == InternalError
    ensures r.status == 200 ==>
      var page, limit := QueryOr(pageQuery, DefaultPage), QueryOr(limitQuery, DefaultLimit);
      && r.payload.PostPage?
      && r.payload.pagination == Pagination(page, limit, |posts|, CeilDiv(|posts|, limit))
      && |r.payload.posts| <= limit
  {
    var page := QueryOr(pageQuery, DefaultPage);
    var limit := QueryOr(limitQuery, DefaultLimit);
    var skip := Offset(page, limit);
    if skip < 0 then InternalError
    else Response(200, PostPage(PagePosts(posts, skip, limit), Pagination(page, limit, |posts|, CeilDiv(|posts|, limit))))
  }

  /** With a positive limit the offset is negative exactly before page 1. */
  lemma OffsetSign(page: int, limit: int)
    requires limit > 0
    ensures Offset(page, limit) >= 0 <==> page >= 1
  {
    if page >= 1 {
      MultiplyMonotone(0, page - 1, limit);
    } else {
      MultiplyMonotone(page - 1, -1, limit);
    }
  }

  /** Absent query parameters mean page 1 of 10 posts: the ten newest. */
  lemma ListDefaults(posts: PostTable)
    ensures ListPosts(posts, None, None) == ListPosts(posts, Some(1), Some(10))
    ensures ListPosts(posts, None, None) ==
      Response(200, PostPage(Views(posts, NewestFirst(posts)[..if |posts| < 10 then |posts| else 10]),
                             Pagination(1, 10, |posts|, CeilDiv(|posts|, 10))))
  {
    var ids := NewestFirst(posts);
    assert Offset(1, 10) == 0;
    assert Window(ids, 0, 10) == ids[..if |posts| < 10 then |posts| else 10];
  }

  /** A listing succeeds exactly from page 1 on; it then holds at most
      `limit` posts, each as stored, none twice, newest first, and reports
      the page, the limit, the number of posts and the page count. */
  lemma ListShape(posts: PostTable, pageQuery: Option<int>, limitQuery: Option<int>)
    requires QueryOr(limitQuery, DefaultLimit) > 0
    ensures var page, limit, r := QueryOr(pageQuery, DefaultPage), QueryOr(limitQuery, DefaultLimit), ListPosts(posts, pageQuery, limitQuery);
      && (r.status == 200 <==> page >= 1)
      && (r.status != 200 ==> r == InternalError)
      && (r.status == 200 ==>
            && r.payload.PostPage?
            && r.payload.pagination == Pagination(page, limit, |posts|, CeilDiv(|posts|, limit))
            && |r.payload.posts| <= limit
            && (forall i :: 0 <= i < |r.payload.posts| ==>
                  r.payload.posts[i].id in posts && r.payload.posts[i] == View(r.payload.posts[i].id, posts[r.payload.posts[i].id]))
            && (forall i, j :: 0 <= i < j < |r.payload.posts| ==>
                  r.payload.posts[i].id != r.payload.posts[j].id && r.payload.posts[j].createdAt <= r.payload.posts[i].createdAt))
  {
    var page, limit := QueryOr(pageQuery, DefaultPage), QueryOr(limitQuery, DefaultLimit);
    OffsetSign(page, limit);
    if page >= 1 {
      PagePostsShape(posts, Offset(page, limit), limit);
    }
  }

  /** A page past the last one is not an error: it is an empty list with
      the pagination data. */
  lemma ListBeyondLastPage(posts: PostTable, page: int, limit: int)
    requires limit > 0 && page > CeilDiv(|posts|, limit)
    ensures ListPosts(posts, Some(page), Some(limit)) ==
      Response(200, PostPage([], Pagination(page, limit, |posts|, CeilDiv(|posts|, limit))))
  {
    MultiplyMonotone(CeilDiv(|posts|, limit), page - 1, limit);
    PagePostsShape(posts, Offset(page, limit), limit);
  }

  /** The listing has no author filter: with any positive limit, every post
      appears on one of the pages 1 to `totalPages`. */
  lemma ListReachesEveryPost(posts: PostTable, limit: int, id: string)
    requires limit > 0 && id in posts
    ensures exists page :: 1 <= page <= CeilDiv(|posts|, limit)
              && ListPosts(posts, Some(page), Some(limit)).payload.PostPage?
              && View(id, posts[id]) in ListPosts(posts, Some(page), Some(limit)).payload.posts
  {
    var ids := NewestFirst(posts);
    var i :| 0 <= i < |ids| && ids[i] == id;
    PageWithinCount(i, |posts|, limit);
    PageOfIndex(i, limit);
    ListedOnItsPage(posts, i / limit + 1, limit, i);
  }

  /** A post whose position in the order lies within a page's offset
      range is listed on that page. */
  lemma ListedOnItsPage(posts: PostTable, page: int, limit: int, i: nat)
    requires limit > 0 && i < |posts|
    requires 0 <= Offset(page, limit) <= i < Offset(page, limit) + limit
    ensures var id := NewestFirst(posts)[i];
      && id in posts
      && ListPosts(posts, Some(page), Some(limit)).payload.PostPage?
      && View(id, posts[id]) in ListPosts(posts, Some(page), Some(limit)).payload.posts
  {
    var ids := NewestFirst(posts);
    var skip := Offset(page, limit);
    var w := Window(ids, skip, limit);
    assert w[i - skip] == ids[i];
    var vs := Views(posts, w);
    assert vs[i - skip] == View(ids[i], posts[ids[i]]);
    assert ListPosts(posts, Some(page), Some(limit))
        == Response(200, PostPage(vs, Pagination(page, limit, |posts|, CeilDiv(|posts|, limit))));
  }

  /** A position before `total` falls on a page no later than the last. */
  lemma PageWithinCount(i: nat, total: nat, limit: int)
    requires limit > 0 && i < total
    ensures 1 <= i / limit + 1 <= CeilDiv(total, limit)
  {
    var pages := CeilDiv(total, limit);
    PageOfIndex(i, limit);
    if pages < i / limit + 1 {
      MultiplyMonotone(pages, i / limit, limit);
    }
  }

  /** Position `i` falls on page `i / limit + 1`. */
  lemma PageOfIndex(i: nat, limit: int)
    requires limit > 0
    ensures 0 <= Offset(i / limit + 1, limit) <= i < Offset(i / limit + 1, limit) + limit
  {
    assert Offset(i / limit + 1, limit) == (i / limit) * limit;
    assert i == (i / limit) * limit + i % limit;
  }

  // ---------------------------------------------------------------------
  // GET /posts/:id

  const NotFound := Response(404, Failure("Post not found"))

  /** GET /posts/:id: the stored post, or 404 exactly when the id is absent. */
  function GetPost(posts: PostTable, id: string): (r: Response)
    ensures r.status == 404 <==> id !in posts
    ensures id !in posts ==> r == NotFound
    ensures id in posts ==> r == Response(200, PostFound(View(id, posts[id])))
  {
    if id in posts then Response(200, PostFound(View(id, posts[id]))) else NotFound
  }

  // ---------------------------------------------------------------------
  // POST, PUT and DELETE /posts

  const EditForbidden := Response(403, Failure("Forbidden - You can only edit your own posts"))
  const DeleteForbidden := Response(403, Failure("Forbidden - You can only delete your own posts"))

  /** POST /posts. `newId` is the id the store assigns and `now` its
      timestamp; an id already in use is refused by the store. */
  function CreatePost(posts: PostTable, caller: Claims, body: RequestBody, newId: string, now: Time): (out: Step<PostTable>)
    ensures body.Unparsable? ==> out.response == InternalError
    ensures !body.Unparsable? && ParseNewPost(body).Ok? && newId in posts ==> out.response == InternalError
    ensures out.response.status == 201 <==> !body.Unparsable? && ParseNewPost(body).Ok? && newId !in posts
    ensures !body.Unparsable? && ParseNewPost(body).Rejected? ==> out.response == ValidationError(ParseNewPost(body).issues)
    ensures out.response.status != 201 ==> out.state == posts
    ensures out.response.status == 201 ==>
      var created := Post(body.fields["title"].s, body.fields["content"].s, caller.userId, now);
      && out.state == posts[newId := created]
      && out.state[newId].authorId == caller.userId
      && out.response.payload == PostSaved("Post created successfully", View(newId, created))
  {
    if body.Unparsable? then Step(InternalError, posts)
    else match ParseNewPost(body)
      case Rejected(issues) => Step(ValidationError(issues), posts)
      case Ok(input) =>
        if newId in posts then Step(InternalError, posts)
        else
          var post := Post(input.title, input.content, caller.userId, now);
          Step(Response(201, PostSaved("Post created successfully", View(newId, post))), posts[newId := post])
  }

  /** PUT /posts/:id: the body is validated first, then the post is looked
      up, then ownership is checked; only a success changes the table, and
      then only the supplied fields of that one post. */
  function UpdatePost(posts: PostTable, caller: Claims, id: string, body: RequestBody): (out: Step<PostTable>)
    ensures body.Unparsable? ==> out.response == InternalError
    ensures !body.Unparsable? && ParsePatch(body).Rejected? ==> out.response == ValidationError(ParsePatch(body).issues)
    ensures !body.Unparsable? && ParsePatch(body).Ok? && id !in posts ==> out.response == NotFound
    ensures !body.Unparsable? && ParsePatch(body).Ok? && id in posts && posts[id].authorId != caller.userId ==> out.response == EditForbidden
    ensures out.response.status == 200 <==> !body.Unparsable? && ParsePatch(body).Ok? && id in posts && posts[id].authorId == caller.userId
    ensures out.response.status != 200 ==> out.state == posts
    ensures out.response.status == 200 ==>
      && out.state.Keys == posts.Keys
      && (forall other :: other in posts && other != id ==> out.state[other] == posts[other])
      && out.state[id] == ApplyPatch(posts[id], ParsePatch(body).value)
      && out.response.payload == PostSaved("Post updated successfully", View(id, out.state[id]))
  {
    if body.Unparsable? then Step(InternalError, posts)
    else match ParsePatch(body)
      case Rejected(issues) => Step(ValidationError(issues), posts)
      case Ok(patch) =>
        if id !in posts then Step(NotFound, posts)
        else if posts[id].authorId != caller.userId then Step(EditForbidden, posts)
        else
          var post := ApplyPatch(posts[id], patch);
          Step(Response(200, PostSaved("Post updated successfully", View(id, post))), posts[id := post])
  }

  /** DELETE /posts/:id: look-up, then ownership, then removal of that one post. */
  function DeletePost(posts: PostTable, caller: Claims, id: string): (out: Step<PostTable>)
    ensures id !in posts ==> out.response == NotFound
    ensures id in posts && posts[id].authorId != caller.userId ==> out.response == DeleteForbidden
    ensures out.response.status == 200 <==> id in posts && posts[id].authorId == caller.userId
    ensures out.response.status != 200 ==> out.state == posts
    ensures out.response.status == 200 ==>
      && out.state.Keys == posts.Keys - {id}
      && (forall other :: other in out.state ==> out.state[other] == posts[other])
      && out.response.payload == Notice("Post deleted successfully")
  {
    if id !in posts then Step(NotFound, posts)
    else if posts[id].authorId != caller.userId then Step(DeleteForbidden, posts)
    else Step(Response(200, Notice("Post deleted successfully")), posts - {id})
  }

  /** The author of a new post is the caller whatever the body says: an
      `authorId` key in the body, whatever its value, changes nothing. */
  lemma CreateIgnoresBodyAuthor(posts: PostTable, caller: Claims, fields: map<string, Json>, v: Json, newId: string, now: Time)
    ensures CreatePost(posts, caller, Object(fields["authorId" := v]), newId, now)
         == CreatePost(posts, caller, Object(fields - {"authorId"}), newId, now)
  {
    var with, without := fields["authorId" := v], fields - {"authorId"};
    assert forall key :: key != "authorId" ==> (key in with <==> key in without);
    assert forall key :: key != "authorId" && key in with ==> with[key] == without[key];
    assert "title" != "authorId" && "content" != "authorId";
  }

  /** An update whose body supplies no field leaves the post as it was. */
  lemma EmptyPatchChangesNothing(posts: PostTable, caller: Claims, id: string)
    requires id in posts && posts[id].authorId == caller.userId
    ensures UpdatePost(posts, caller, id, Object(map[])).state == posts
    ensures UpdatePost(posts, caller, id, Object(map[])).response.status == 200
  {
    var out := UpdatePost(posts, caller, id, Object(map[]));
    assert out.state[id] == posts[id];
    assert out.state == posts;
  }

  /** A post just created reads back with the title and content sent and
      the creator as its author. */
  lemma CreateThenGet(posts: PostTable, caller: Claims, title: string, content: string, newId: string, now: Time)
    requires |title| >= 1 && |content| >= 1 && newId !in posts
    ensures var body := Object(map["title" := JString(title), "content" := JString(content)]);
      var out := CreatePost(posts, caller, body, newId, now);
      && out.response.status == 201
      && GetPost(out.state, newId) == Response(200, PostFound(PostView(newId, title, content, caller.userId, now)))
  {
    var body := Object(map["title" := JString(title), "content" := JString(content)]);
    assert HasString(body.fields, "title", 1) && HasString(body.fields, "content", 1);
  }

  /** The post table as the handlers change it in place. */
  class PostStore {
    var posts: PostTable

    constructor ()
      ensures posts == map[]
    {
      posts := map[];
    }

    method Create(caller: Claims, body: RequestBody, newId: string, now: Time) returns (r: Response)
      modifies this
      ensures Step(r, posts) == CreatePost(old(posts), caller, body, newId, now)
    {
      if body.Unparsable? {
        return InternalError;
      }
      var parsed := ParseNewPost(body);
      if parsed.Rejected? {
        return ValidationError(parsed.issues);
      }
      if newId in posts {
        return InternalError;
      }
      var post := Post(parsed.value.title, parsed.value.content, caller.userId, now);
      posts := posts[newId := post];
      r := Response(201, PostSaved("Post created successfully", View(newId, post)));
    }

    method Update(caller: Claims, id: string, body: RequestBody) returns (r: Response)
      modifies this
      ensures Step(r, posts) == UpdatePost(old(posts), caller, id, body)
    {
      if body.Unparsable? {
        return InternalError;
      }
      var parsed := ParsePatch(body);
      if parsed.Rejected? {
        return ValidationError(parsed.issues);
      }
      if id !in posts {
        return NotFound;
      }
      var existing := posts[id];
      if existing.authorId != caller.userId {
        return EditForbidden;
      }
      var post := ApplyPatch(existing, parsed.value);
      posts := posts[id := post];
      r := Response(200, PostSaved("Post updated successfully", View(id, post)));
    }

    method Delete(caller: Claims, id: string) returns (r: Response)
      modifies this
      ensures Step(r, posts) == DeletePost(old(posts), caller, id)
    {
      if id !in posts {
        return NotFound;
      }
      if posts[id].authorId != caller.userId {
        return DeleteForbidden;
      }
      posts := posts - {id};
      r := Response(200, Notice("Post deleted successfully"));
    }
  }
}
