/**
 * index.js: `handleTumblrPost`, which walks the fetched posts in order and
 * dispatches each published one to the adapter handler named after its type,
 * and the `async.waterfall` that runs author lookup, fetch, transform and save
 * and turns the outcome into the process exit code.
 *
 * The database, the Tumblr client and Cloudinary are not called: what they
 * answer is part of the `Environment` the run is given.
 */
module Importer {
  import opened Common
  import opened Wrappers
  import opened TumblrAdapter

  // ------------------------------------------------------------ dispatch

  /** `"handle[POST-TYPE]Post".replace("[POST-TYPE]", lib.ucFirst(type))`. */
  function HandlerName(postType: string): string {
    "handle" + UcFirst(postType) + "Post"
  }

  /** The post type, as Tumblr spells it, that each handler is meant for. */
  function TypeName(h: Handler): string {
    match h
    case PhotoHandler => "photo"
    case SinglePhotoHandler => "singlePhoto"
    case TextHandler => "text"
    case QuoteHandler => "quote"
    case VideoHandler => "video"
  }

  /** The same type name with a capital initial. */
  function CapitalName(h: Handler): string {
    match h
    case PhotoHandler => "Photo"
    case SinglePhotoHandler => "SinglePhoto"
    case TextHandler => "Text"
    case QuoteHandler => "Quote"
    case VideoHandler => "Video"
  }

  /** The fixed text around the capitalised type can be cancelled. */
  lemma HandlerNameCancels(t: string, c: string)
    ensures HandlerName(t) == "handle" + c + "Post" <==> UcFirst(t) == c
  {
    var u := UcFirst(t);
    if HandlerName(t) == "handle" + c + "Post" {
      assert |u| == |c|;
      assert u == ("handle" + u + "Post")[6..6 + |u|];
      assert c == ("handle" + c + "Post")[6..6 + |c|];
    }
  }

  /** Two type names give the same capitalised form exactly when they differ at most in the case of their initial. */
  lemma UcFirstSame(t: string, s: string)
    requires s != [] && 'a' <= s[0] <= 'z'
    ensures UcFirst(t) == UcFirst(s) <==> t == s || t == UcFirst(s)
  {
    if UcFirst(t) == UcFirst(s) {
      assert t[1..] == UcFirst(t)[1..] == UcFirst(s)[1..] == s[1..];
      assert t == [t[0]] + t[1..] && s == [s[0]] + s[1..];
      assert UcFirst(s) == [UcFirst(s)[0]] + s[1..];
    }
  }

  /**
   * A published post reaches handler `h` exactly when its type is the type
   * `h` is meant for, with or without a capital initial.
   */
  lemma {:induction false} DispatchReaches(t: string, h: Handler)
    ensures AdapterMember(HandlerName(t)) == Some(h) <==> t == TypeName(h) || t == CapitalName(h)
  {
    NamesAgree(h);
    HandlerNameCancels(t, CapitalName(h));
    UcFirstSame(t, TypeName(h));
    assert AdapterMember(HandlerName(t)) == Some(h) <==> HandlerName(t) == MemberName(h);
  }

  /** The three spellings of a handler fit together. */
  predicate SpellingsFit(h: Handler) {
    && TypeName(h) != [] && 'a' <= TypeName(h)[0] <= 'z'
    && UcFirst(TypeName(h)) == CapitalName(h)
    && MemberName(h) == "handle" + CapitalName(h) + "Post"
  }

  /** The three spellings of each handler fit together. */
  lemma NamesAgree(h: Handler)
    ensures TypeName(h) != [] && 'a' <= TypeName(h)[0] <= 'z'
    ensures UcFirst(TypeName(h)) == CapitalName(h)
    ensures MemberName(h) == "handle" + CapitalName(h) + "Post"
  {
    match h
    case PhotoHandler => PhotoSpellings();
    case SinglePhotoHandler => SinglePhotoSpellings();
    case TextHandler => TextSpellings();
    case QuoteHandler => QuoteSpellings();
    case VideoHandler => VideoSpellings();
  }

  /** ucFirst of a lower-case initial followed by the tail of `c` is `c`. */
  lemma CapitalisedFrom(n: string, c: string)
    requires |n| == |c| > 0 && 'a' <= n[0] <= 'z' && ToUpperAscii(n[0]) == c[0] && n[1..] == c[1..]
    ensures UcFirst(n) == c
  {
    assert c == [c[0]] + c[1..];
  }

  lemma PhotoSpellings()
    ensures SpellingsFit(PhotoHandler)
  {
    CapitalisedFrom("photo", "Photo");
  }

  lemma SinglePhotoSpellings()
    ensures SpellingsFit(SinglePhotoHandler)
  {
    CapitalisedFrom("singlePhoto", "SinglePhoto");
  }

  lemma TextSpellings()
    ensures SpellingsFit(TextHandler)
  {
    CapitalisedFrom("text", "Text");
  }

  lemma QuoteSpellings()
    ensures SpellingsFit(QuoteHandler)
  {
    CapitalisedFrom("quote", "Quote");
  }

  lemma VideoSpellings()
    ensures SpellingsFit(VideoHandler)
  {
    CapitalisedFrom("video", "Video");
  }

  /** Every other type (link, answer, audio, chat, ...) reaches no handler. */
  lemma DispatchFails(t: string)
    ensures AdapterMember(HandlerName(t)) == None <==>
            forall h :: t != TypeName(h) && t != CapitalName(h)
  {
    forall h ensures AdapterMember(HandlerName(t)) == Some(h) <==> t == TypeName(h) || t == CapitalName(h) {
      DispatchReaches(t, h);
    }
    if AdapterMember(HandlerName(t)).Some? {
      assert AdapterMember(HandlerName(t)) == Some(AdapterMember(HandlerName(t)).value);
    }
  }

  // ------------------------------------------------------------ one post

  /**
   * The iteratee of `async.forEachOfSeries`: an unpublished post is passed
   * over; a published one goes to `adapter[HandlerName(type)]`, and an
   * undefined member throws a TypeError when called.
   */
  function PostResult(post: RawPost, author: User, upload: string -> Asset): (r: HandlerResult)
    ensures post.state != "published" ==> r == Skipped
    ensures post.state == "published" && AdapterMember(HandlerName(post.postType)).None? ==>
              r == Failed(NoHandler(HandlerName(post.postType)))
    ensures r.Produced? ==> CommonFields(r.record, post, author)
  {
    if post.state != "published" then Skipped
    else
      var name := HandlerName(post.postType);
      match AdapterMember(name)
      case None => Failed(NoHandler(name))
      case Some(h) => HandlerOutcome(h, post, author, upload)
  }

  // ------------------------------------------------------------ the loop

  /**
   * `async.forEachOfSeries` over handler outcomes: from the left, the first
   * failure ends the walk with that error, otherwise each outcome's 0 or 1
   * records are appended.
   */
  function Walk(results: seq<HandlerResult>): Result<seq<Record>, Fault>
    decreases |results|
  {
    if results == [] then Ok([])
    else
      match Walk(results[..|results| - 1])
      case Err(f) => Err(f)
      case Ok(rs) =>
        var last := results[|results| - 1];
        if last.Failed? then Err(last.fault) else Ok(rs + last.Emitted())
  }

  /** Each post's handler outcome, in post order. */
  function Outcomes(posts: seq<RawPost>, author: User, upload: string -> Asset): (rs: seq<HandlerResult>)
    ensures |rs| == |posts|
    ensures forall i :: 0 <= i < |posts| ==> rs[i] == PostResult(posts[i], author, upload)
  {
    seq(|posts|, i requires 0 <= i < |posts| => PostResult(posts[i], author, upload))
  }

  lemma OutcomesConcat(a: seq<RawPost>, b: seq<RawPost>, author: User, upload: string -> Asset)
    ensures Outcomes(a + b, author, upload) == Outcomes(a, author, upload) + Outcomes(b, author, upload)
  {
    var l, r := Outcomes(a, author, upload), Outcomes(b, author, upload);
    forall i | 0 <= i < |a + b| ensures Outcomes(a + b, author, upload)[i] == (l + r)[i] {
      if i < |a| { assert (a + b)[i] == a[i]; } else { assert (a + b)[i] == b[i - |a|]; }
    }
  }

  /** What `handleTumblrPost` passes to its callback for `posts`. */
  function TransformPosts(posts: seq<RawPost>, author: User, upload: string -> Asset): Result<seq<Record>, Fault> {
    Walk(Outcomes(posts, author, upload))
  }

  /** Reference: every outcome's records, in order. */
  function Collected(results: seq<HandlerResult>): seq<Record> {
    if results == [] then [] else results[0].Emitted() + Collected(results[1..])
  }

  predicate NoneFails(results: seq<HandlerResult>) {
    forall i :: 0 <= i < |results| ==> !results[i].Failed?
  }

  lemma {:induction false} CollectedSnoc(results: seq<HandlerResult>, r: HandlerResult)
    ensures Collected(results + [r]) == Collected(results) + r.Emitted()
  {
    if results == [] {
      assert [] + [r] == [r];
      assert [r][1..] == [];
    } else {
      CollectedSnoc(results[1..], r);
      assert (results + [r])[0] == results[0];
      assert (results + [r])[1..] == results[1..] + [r];
    }
  }

  /**
   * The walk succeeds exactly when no outcome is a failure, and then it
   * yields the concatenation, in order, of every outcome's records.
   */
  lemma {:induction false} WalkSucceeds(results: seq<HandlerResult>)
    ensures Walk(results).Ok? <==> NoneFails(results)
    ensures Walk(results).Ok? ==> Walk(results).value == Collected(results)
    decreases |results|
  {
    if results != [] {
      var init, last := results[..|results| - 1], results[|results| - 1];
      assert results == init + [last];
      WalkSucceeds(init);
      CollectedSnoc(init, last);
      if !NoneFails(init) {
        var i :| 0 <= i < |init| && init[i].Failed?;
        assert results[i] == init[i];
      }
    }
  }

  /**
   * The walk fails with `f` exactly when some outcome is the failure `f` and
   * no earlier outcome is a failure: the first error stops it.
   */
  lemma {:induction false} WalkFailsAtFirstError(results: seq<HandlerResult>, f: Fault)
    ensures Walk(results) == Err(f) <==>
            exists i :: 0 <= i < |results| && results[i] == Failed(f) && NoneFails(results[..i])
    decreases |results|
  {
    if results != [] {
      var n := |results| - 1;
      var init := results[..n];
      WalkFailsAtFirstError(init, f);
      WalkSucceeds(init);
      if Walk(results) == Err(f) {
        if Walk(init) == Err(f) {
          var i :| 0 <= i < |init| && init[i] == Failed(f) && NoneFails(init[..i]);
          assert results[i] == init[i] && results[..i] == init[..i];
        } else {
          assert results[n] == Failed(f) && results[..n] == init;
        }
      }
      if exists i :: 0 <= i < |results| && results[i] == Failed(f) && NoneFails(results[..i]) {
        var i :| 0 <= i < |results| && results[i] == Failed(f) && NoneFails(results[..i]);
        if i < n {
          assert init[i] == results[i] && init[..i] == results[..i];
        } else {
          assert results[..i] == init;
        }
      }
    }
  }

  /**
   * Walking `a + b` is walking `a` and then `b`: a failure in `a` ends the walk
   * before `b` is looked at, otherwise the records of `b` follow those of `a`.
   */
  lemma {:induction false} WalkConcat(a: seq<HandlerResult>, b: seq<HandlerResult>)
    ensures Walk(a + b) ==
            match Walk(a)
            case Err(f) => Err(f)
            case Ok(rs) =>
              match Walk(b)
              case Err(f) => Err(f)
              case Ok(ts) => Ok(rs + ts)
    decreases |b|
  {
    if b == [] {
      assert a + b == a;
      match Walk(a)
      case Err(f) =>
      case Ok(rs) => assert rs + [] == rs;
    } else {
      var n := |b| - 1;
      var init := b[..n];
      assert (a + b)[..|a + b| - 1] == a + init;
      assert (a + b)[|a + b| - 1] == b[n];
      WalkConcat(a, init);
      match Walk(a)
      case Err(f) =>
      case Ok(rs) =>
        match Walk(init)
        case Err(f) =>
        case Ok(ts) =>
          assert (rs + ts) + b[n].Emitted() == rs + (ts + b[n].Emitted());
    }
  }

  /** An unpublished post anywhere in the list changes nothing, and does not stop the walk. */
  lemma UnpublishedPostIgnored(a: seq<RawPost>, p: RawPost, b: seq<RawPost>, author: User, upload: string -> Asset)
    requires p.state != "published"
    ensures TransformPosts(a + [p] + b, author, upload) == TransformPosts(a + b, author, upload)
  {
    var oa, ob := Outcomes(a, author, upload), Outcomes(b, author, upload);
    OutcomesConcat(a, [p], author, upload);
    OutcomesConcat(a + [p], b, author, upload);
    OutcomesConcat(a, b, author, upload);
    assert Outcomes([p], author, upload) == [Skipped];
    assert Walk([Skipped]) == Ok([]) by {
      assert [Skipped][..0] == [];
      assert Skipped.Emitted() == [];
      assert [] + Skipped.Emitted() == [];
    }
    WalkConcat(oa, [Skipped]);
    WalkConcat(oa + [Skipped], ob);
    WalkConcat(oa, ob);
    match Walk(oa)
    case Err(f) =>
    case Ok(rs) => assert rs + [] == rs;
  }

  /** A walk over outcomes that only skip yields an empty list. */
  lemma {:induction false} WalkOfSkips(results: seq<HandlerResult>)
    requires forall i :: 0 <= i < |results| ==> results[i] == Skipped
    ensures Walk(results) == Ok([])
    decreases |results|
  {
    if results != [] {
      WalkOfSkips(results[..|results| - 1]);
      assert results[|results| - 1].Emitted() == [];
      assert [] + results[|results| - 1].Emitted() == [];
    }
  }

  /** With no published post the walk succeeds with an empty list. */
  lemma NothingPublished(posts: seq<RawPost>, author: User, upload: string -> Asset)
    requires forall i :: 0 <= i < |posts| ==> posts[i].state != "published"
    ensures TransformPosts(posts, author, upload) == Ok([])
  {
    WalkOfSkips(Outcomes(posts, author, upload));
  }

  /** Every record the walk yields was produced by one of the outcomes, and there are no more records than outcomes. */
  lemma {:induction false} WalkRecords(results: seq<HandlerResult>)
    requires Walk(results).Ok?
    ensures |Walk(results).value| <= |results|
    ensures forall r :: r in Walk(results).value ==>
              exists i :: 0 <= i < |results| && results[i] == Produced(r)
    decreases |results|
  {
    if results != [] {
      var n := |results| - 1;
      var init := results[..n];
      WalkRecords(init);
      forall r | r in Walk(results).value
        ensures exists i :: 0 <= i < |results| && results[i] == Produced(r)
      {
        if r in Walk(init).value {
          var i :| 0 <= i < |init| && init[i] == Produced(r);
          assert results[i] == Produced(r);
        } else {
          assert results[n] == Produced(r);
        }
      }
    }
  }

  /**
   * Every record the transform yields is published, unpinned and attributed
   * to the run's author, and no post yields more than one record.
   */
  lemma TransformedRecords(posts: seq<RawPost>, author: User, upload: string -> Asset)
    ensures TransformPosts(posts, author, upload).Ok? ==>
              |TransformPosts(posts, author, upload).value| <= |posts|
    ensures TransformPosts(posts, author, upload).Ok? ==>
              forall r :: r in TransformPosts(posts, author, upload).value ==>
                r.state == "published" && !r.pinned && r.author == author
  {
    if TransformPosts(posts, author, upload).Ok? {
      WalkRecords(Outcomes(posts, author, upload));
    }
  }

  /**
   * The iteratee body for one post `tpost`: what it appends to `postsToSave`
   * and what it passes to `postCallback`.
   */
  method HandleOnePost(tpost: RawPost, author: User, upload: string -> Asset, postsToSave: PostList)
    returns (err: Option<Fault>)
    modifies postsToSave
    ensures err == PostResult(tpost, author, upload).FaultOf()
    ensures postsToSave.items == old(postsToSave.items) + PostResult(tpost, author, upload).Emitted()
  {
    if tpost.state == "published" {
      var handlePostCallbackName := HandlerName(tpost.postType);
      match AdapterMember(handlePostCallbackName) {
        case None =>
          err := Some(NoHandler(handlePostCallbackName));
        case Some(h) =>
          err := CallHandler(h, tpost, author, upload, postsToSave);
      }
    } else {
      err := None;
    }
  }

  /** One more outcome after a prefix of the walk that has not failed. */
  lemma WalkStep(results: seq<HandlerResult>, i: nat, rs: seq<Record>)
    requires i < |results| && Walk(results[..i]) == Ok(rs)
    ensures Walk(results[..i + 1]) ==
            if results[i].Failed? then Err(results[i].fault) else Ok(rs + results[i].Emitted())
  {
    assert results[..i + 1][..i] == results[..i];
  }

  /** Once a prefix of the walk has failed, the rest of the outcomes is never looked at. */
  lemma WalkStopsAtError(results: seq<HandlerResult>, n: nat)
    requires n <= |results| && Walk(results[..n]).Err?
    ensures Walk(results) == Walk(results[..n])
  {
    assert results == results[..n] + results[n..];
    WalkConcat(results[..n], results[n..]);
  }

  /**
   * handleTumblrPost: a fresh `postsToSave`, the posts walked in order, the
   * first handler error passed on instead of the list.
   */
  method HandleTumblrPost(data: Response, author: User, upload: string -> Asset)
    returns (result: Result<seq<Record>, Fault>)
    ensures result == TransformPosts(data.posts, author, upload)
  {
    var postsToSave := new PostList();
    ghost var outcomes := Outcomes(data.posts, author, upload);
    var i := 0;
    while i < |data.posts|
      invariant 0 <= i <= |data.posts|
      invariant Walk(outcomes[..i]) == Ok(postsToSave.items)
    {
      var tpost := data.posts[i];
      ghost var before := postsToSave.items;
      var err := HandleOnePost(tpost, author, upload, postsToSave);
      WalkStep(outcomes, i, before);
      if err.Some? {
        WalkStopsAtError(outcomes, i + 1);
        return Err(err.value);
      }
      i := i + 1;
    }
    assert outcomes[..i] == outcomes;
    return Ok(postsToSave.items);
  }

  // ------------------------------------------------------------ the waterfall

  /** The Tumblr API answer; only `posts` is read. */
  datatype Response = Response(posts: seq<RawPost>)

  /** How `User.model.findOne().where('email', ...).exec()` settles. */
  datatype LookupReply = Rejected(reason: Fault) | Resolved(user: Option<User>)

  /** The `(err, data)` pair `client.posts` calls back with. */
  datatype FetchReply = FetchReply(err: Option<Fault>, data: Option<Response>)

  /** What the outside world answers during one run. */
  datatype Environment = Environment(
    connection: Option<Fault>,      // the `error` event of the database connection, if any
    lookup: LookupReply,
    fetch: FetchReply,
    upload: string -> Asset,        // cloudinary.uploader.upload
    save: Record -> Option<Fault>)  // post.save: the error it calls back with, if any

  /** Waterfall step 1: the author, or "User not found". */
  function AuthorStage(reply: LookupReply): (r: Result<User, Fault>)
    ensures r.Ok? <==> reply.Resolved? && reply.user.Some?
    ensures r.Ok? ==> r.value == reply.user.value
    ensures reply == Resolved(None) ==> r == Err(Message("User not found"))
    ensures reply.Rejected? ==> r == Err(reply.reason)
  {
    match reply
    case Rejected(reason) => Err(reason)
    case Resolved(None) => Err(Message("User not found"))
    case Resolved(Some(user)) => Ok(user)
  }

  /** Waterfall step 2: `err ? err : "Can't find any post"` when either is falsy. */
  function FetchStage(reply: FetchReply): (r: Result<Response, Fault>)
    ensures r.Ok? <==> reply.err.None? && reply.data.Some?
    ensures r.Ok? ==> r.value == reply.data.value
    ensures reply.err.Some? ==> r == Err(reply.err.value)
    ensures reply.err.None? && reply.data.None? ==> r == Err(Message("Can't find any post"))
  {
    if reply.err.Some? then Err(reply.err.value)
    else if reply.data.None? then Err(Message("Can't find any post"))
    else Ok(reply.data.value)
  }

  /**
   * Waterfall step 4, as seen by the final callback: no error exactly when
   * every save succeeds; otherwise the error of the first record whose save fails.
   */
  function FirstSaveError(posts: seq<Record>, save: Record -> Option<Fault>): (err: Option<Fault>)
    ensures err.None? <==> forall i :: 0 <= i < |posts| ==> save(posts[i]).None?
    ensures err.Some? ==> exists i :: 0 <= i < |posts| && err == save(posts[i])
                                      && forall k :: 0 <= k < i ==> save(posts[k]).None?
  {
    if posts == [] then None
    else if save(posts[0]).Some? then save(posts[0])
    else
      var rest := FirstSaveError(posts[1..], save);
      assert forall i :: 1 <= i < |posts| ==> posts[i] == posts[1..][i - 1];
      if rest.Some? then
        var i :| 0 <= i < |posts[1..]| && rest == save(posts[1..][i])
                 && forall k :: 0 <= k < i ==> save(posts[1..][k]).None?;
        assert rest == save(posts[i + 1]);
        rest
      else rest
  }

  /**
   * The save stage: `post.save` is called for every record, in list order
   * (a failure does not stop the others), `saved` lists the records it was
   * called on, and the stage reports the first failure.
   */
  method SavePosts(posts: seq<Record>, save: Record -> Option<Fault>)
    returns (saved: seq<Record>, err: Option<Fault>)
    ensures saved == posts
    ensures err == FirstSaveError(posts, save)
  {
    err := None;
    saved := [];
    var i := 0;
    while i < |posts|
      invariant 0 <= i <= |posts|
      invariant saved == posts[..i]
      invariant err.None? ==> forall k :: 0 <= k < i ==> save(posts[k]).None?
      invariant err.Some? ==> exists j :: 0 <= j < i && err == save(posts[j])
                                          && forall k :: 0 <= k < j ==> save(posts[k]).None?
    {
      var outcome := save(posts[i]);
      saved := saved + [posts[i]];
      if outcome.Some? && err.None? {
        err := outcome;
      }
      i := i + 1;
    }
    assert posts[..i] == posts;
    var first := FirstSaveError(posts, save);
    if err.Some? {
      var j :| 0 <= j < |posts| && err == save(posts[j]) && forall k :: 0 <= k < j ==> save(posts[k]).None?;
      var j' :| 0 <= j' < |posts| && first == save(posts[j']) && forall k :: 0 <= k < j' ==> save(posts[k]).None?;
      assert j == j';
    }
  }

  /** Everything a run needs to go right for it to succeed. */
  predicate ImportSucceeds(env: Environment) {
    && env.connection.None?
    && env.lookup.Resolved? && env.lookup.user.Some?
    && env.fetch.err.None? && env.fetch.data.Some?
    && var out := TransformPosts(env.fetch.data.value.posts, env.lookup.user.value, env.upload);
       out.Ok? && forall i :: 0 <= i < |out.value| ==> env.save(out.value[i]).None?
  }

  /** The error the waterfall's final callback receives, stage by stage. */
  function Waterfall(env: Environment): (err: Option<Fault>)
    ensures err.None? <==> ImportSucceeds(env.(connection := None))
    ensures env.lookup == Resolved(None) ==> err == Some(Message("User not found"))
    ensures env.lookup.Resolved? && env.lookup.user.Some? && env.fetch.err.None? && env.fetch.data.None? ==>
              err == Some(Message("Can't find any post"))
  {
    match AuthorStage(env.lookup)
    case Err(e) => Some(e)
    case Ok(author) =>
      match FetchStage(env.fetch)
      case Err(e) => Some(e)
      case Ok(data) =>
        match TransformPosts(data.posts, author, env.upload)
        case Err(e) => Some(e)
        case Ok(posts) => FirstSaveError(posts, env.save)
  }

  /** `process.exit(2)` on a connection error, else 1 on any waterfall error, else 0. */
  function ExitCode(env: Environment): (code: int)
    ensures code == 0 || code == 1 || code == 2
    ensures code == 2 <==> env.connection.Some?
    ensures code == 0 <==> ImportSucceeds(env)
  {
    if env.connection.Some? then 2
    else if Waterfall(env).Some? then 1
    else 0
  }

  /**
   * The run: exit 2 if the database reports an error, otherwise the waterfall
   * and exit 1 or 0; `reported` is what is written to the console on failure.
   */
  method RunImport(env: Environment) returns (exitCode: int, reported: Option<Fault>)
    ensures exitCode == ExitCode(env)
    ensures reported == if env.connection.Some? then env.connection else Waterfall(env)
  {
    if env.connection.Some? {
      return 2, env.connection;
    }
    var author := AuthorStage(env.lookup);
    if author.Err? {
      return 1, Some(author.error);
    }
    var data := FetchStage(env.fetch);
    if data.Err? {
      return 1, Some(data.error);
    }
    var posts := HandleTumblrPost(data.value, author.value, env.upload);
    if posts.Err? {
      return 1, Some(posts.error);
    }
    var saved, err := SavePosts(posts.value, env.save);
    if err.Some? {
      return 1, err;
    }
    return 0, None;
  }

  // ------------------------------------------------------------ scenarios

  /** A run whose only fetched post is unpublished saves nothing and exits 0. */
  lemma OnlyUnpublishedPostSucceeds(env: Environment, u: User, p: RawPost)
    requires env.connection.None? && env.lookup == Resolved(Some(u))
    requires env.fetch == FetchReply(None, Some(Response([p])))
    requires p.state != "published"
    ensures TransformPosts([p], u, env.upload) == Ok([])
    ensures ExitCode(env) == 0
  {
    NothingPublished([p], u, env.upload);
  }

  /** A run whose author lookup finds no user reports "User not found" and exits 1. */
  lemma MissingAuthorFails(env: Environment)
    requires env.connection.None? && env.lookup == Resolved(None)
    ensures Waterfall(env) == Some(Message("User not found"))
    ensures ExitCode(env) == 1
  {
  }

  /**
   * A published quote post whose source is two plain texts joined by an
   * escaped apostrophe (`A\\'s blog`) gives a `quote` record that copies the
   * quote text and whose caption holds the entity instead (`A&apos;s blog`).
   */
  lemma QuoteWithEscapedApostrophe(post: RawPost, author: User, upload: string -> Asset, x: string, y: string)
    requires post.state == "published" && post.postType == "quote"
    requires Plain(x) && Plain(y) && post.source == Present(x + [Backslash, '\''] + y)
    ensures PostResult(post, author, upload).Produced?
    ensures PostResult(post, author, upload).record.content == QuoteContent(post.text, x + "&apos;" + y)
    ensures PostResult(post, author, upload).record.publishedDate == UnixSeconds(post.timestamp)
  {
    DispatchReaches(post.postType, QuoteHandler);
    EscapedApostropheBecomesEntity(x, y);
  }
}
