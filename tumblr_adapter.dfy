/**
 * lib/tumblrAdapater.js: the handlers that turn one raw Tumblr post into zero
 * or one Keystone `Post` record appended to the caller's `postsToSave` list.
 *
 * The Cloudinary upload is the parameter `upload`, a total function from an
 * image URL to the descriptor the service returns; `moment.unix(t)` is the
 * constructor `UnixSeconds(t)`.
 */
module TumblrAdapter {
  import opened Common
  import opened Wrappers

  /** The descriptor Cloudinary returns for one uploaded image; the handlers store it without reading it. */
  datatype Asset = Asset(publicId: string)

  /** `moment.unix(t)`: the moment `t` seconds after the Unix epoch. */
  datatype Moment = UnixSeconds(seconds: int)

  /** The Keystone `User` document the records are attributed to. */
  datatype User = User(id: string, email: string)

  /** One entry of `post.photos`; only `original_size.url` is read. */
  datatype Photo = Photo(originalSizeUrl: string)

  /** One entry of `post.player`; only `embed_code` is read. */
  datatype Player = Player(embedCode: MaybeString)

  /** A post as the Tumblr API returns it, restricted to the fields the handlers read. */
  datatype RawPost = RawPost(
    id: int,
    slug: MaybeString,
    state: string,
    postType: string,
    timestamp: int,
    tags: seq<string>,
    photos: seq<Photo>,
    caption: MaybeString,
    title: MaybeString,
    body: MaybeString,
    text: MaybeString,
    source: MaybeString,
    player: seq<Player>)

  /** The `key` of a record: the post's slug, or its numeric id. */
  datatype PostKey = SlugKey(slug: MaybeString) | IdKey(id: int)

  /** The type-specific part of a record; the variant is the record's `type`. */
  datatype Content =
    | PhotoContent(image: Asset, caption: string)
    | GalleryContent(images: seq<Asset>, caption: string)
    | TextContent(title: MaybeString, content: string, brief: string)
    | QuoteContent(quote: MaybeString, caption: string)
    | MediumContent(medium: string, caption: string)

  /** A Keystone `Post` document as the handlers construct it. */
  datatype Record = Record(
    key: PostKey,
    state: string,
    publishedDate: Moment,
    pinned: bool,
    tags: seq<string>,
    author: User,
    content: Content)
  {
    function Type(): string {
      match content
      case PhotoContent(_, _) => "photo"
      case GalleryContent(_, _) => "gallery"
      case TextContent(_, _, _) => "text"
      case QuoteContent(_, _) => "quote"
      case MediumContent(_, _) => "medium"
    }
  }

  /** A value passed to a callback as its error argument. */
  datatype Fault =
    | Message(text: string)      // a string error, such as "Photo post bad format"
    | NoHandler(name: string)    // `adapter[name]` is undefined: calling it throws a TypeError
    | MissingField(path: string) // reading a property of `undefined` throws a TypeError

  const BadPhotoFormat: Fault := Message("Photo post bad format")

  /** What one handler does: append nothing, append one record, or report an error. */
  datatype HandlerResult = Skipped | Produced(record: Record) | Failed(fault: Fault)
  {
    /** The records appended to `postsToSave`. */
    function Emitted(): (rs: seq<Record>)
      ensures |rs| <= 1
      ensures |rs| == 1 <==> Produced?
    {
      if Produced? then [record] else []
    }

    /** The argument passed to `postCallback`. */
    function FaultOf(): Option<Fault> {
      if Failed? then Some(fault) else None
    }
  }

  /** The five members of the adapter object. */
  datatype Handler = PhotoHandler | SinglePhotoHandler | TextHandler | QuoteHandler | VideoHandler

  /** The name under which the adapter object holds each handler. */
  function MemberName(h: Handler): string {
    match h
    case PhotoHandler => "handlePhotoPost"
    case SinglePhotoHandler => "handleSinglePhotoPost"
    case TextHandler => "handleTextPost"
    case QuoteHandler => "handleQuotePost"
    case VideoHandler => "handleVideoPost"
  }

  /** Property lookup `adapter[name]`: a handler, or `undefined`. */
  function AdapterMember(name: string): (r: Option<Handler>)
    ensures forall h :: r == Some(h) <==> name == MemberName(h)
  {
    if name == "handlePhotoPost" then Some(PhotoHandler)
    else if name == "handleSinglePhotoPost" then Some(SinglePhotoHandler)
    else if name == "handleTextPost" then Some(TextHandler)
    else if name == "handleQuotePost" then Some(QuoteHandler)
    else if name == "handleVideoPost" then Some(VideoHandler)
    else None
  }

  // ------------------------------------------------------------ record building

  /** `flib.removeEOL(flib.unescapeQuote(x))`, the cleaning of every caption and body. */
  function Clean(m: MaybeString): (r: string)
    ensures NoEol(r)
    ensures !Truthy(m) ==> r == ""
  {
    RemoveEOL(Present(UnescapeQuote(m)))
  }

  /** `!post.slug ? post.id : post.slug`. */
  function SlugOrId(post: RawPost): PostKey {
    if Truthy(post.slug) then SlugKey(post.slug) else IdKey(post.id)
  }

  /** `new Post.model({...})` with the fields every handler sets the same way. */
  function NewRecord(key: PostKey, post: RawPost, author: User, content: Content): Record {
    Record(key, "published", UnixSeconds(post.timestamp), false, post.tags, author, content)
  }

  /** The fields every produced record shares with its post and author. */
  predicate CommonFields(r: Record, post: RawPost, author: User) {
    && r.state == "published"
    && !r.pinned
    && r.publishedDate == UnixSeconds(post.timestamp)
    && r.tags == post.tags
    && r.author == author
  }

  function PhotoRecord(post: RawPost, author: User, image: Asset): Record {
    NewRecord(SlugOrId(post), post, author, PhotoContent(image, Clean(post.caption)))
  }

  function GalleryRecord(post: RawPost, author: User, images: seq<Asset>): Record {
    NewRecord(SlugOrId(post), post, author, GalleryContent(images, Clean(post.caption)))
  }

  function TextRecord(post: RawPost, author: User): Record {
    NewRecord(SlugKey(post.slug), post, author, TextContent(post.title, Clean(post.body), ""))
  }

  function QuoteRecord(post: RawPost, author: User): Record {
    NewRecord(SlugKey(post.slug), post, author, QuoteContent(post.text, Clean(post.source)))
  }

  function MediumRecord(post: RawPost, author: User): Record
    requires |post.player| >= 3
  {
    NewRecord(SlugKey(post.slug), post, author,
              MediumContent(UnescapeQuote(post.player[2].embedCode), Clean(post.caption)))
  }

  // ------------------------------------------------------------ handler outcomes

  /** handleSinglePhotoPost: upload `photos[0]` and produce a `photo` record. */
  function SinglePhotoResult(post: RawPost, author: User, upload: string -> Asset): (r: HandlerResult)
    requires |post.photos| >= 1
    ensures r.Produced? && CommonFields(r.record, post, author) && r.record.key == SlugOrId(post)
    ensures r.record.Type() == "photo"
    ensures r.record.content == PhotoContent(upload(post.photos[0].originalSizeUrl), Clean(post.caption))
  {
    Produced(PhotoRecord(post, author, upload(post.photos[0].originalSizeUrl)))
  }

  /** The uploads of `photos`' URLs, one per photo, in order. */
  function UploadedImages(photos: seq<Photo>, upload: string -> Asset): seq<Asset> {
    seq(|photos|, i requires 0 <= i < |photos| => upload(photos[i].originalSizeUrl))
  }

  /**
   * handlePhotoPost: no photo is an error, one photo gives a `photo` record,
   * several give one `gallery` record holding their uploads in source order.
   */
  function PhotoPostResult(post: RawPost, author: User, upload: string -> Asset): (r: HandlerResult)
    ensures |post.photos| == 0 <==> r.Failed?
    ensures r.Failed? ==> r.fault == BadPhotoFormat
    ensures r.Produced? ==> CommonFields(r.record, post, author) && r.record.key == SlugOrId(post)
    ensures |post.photos| == 1 ==>
      r.Produced? && r.record.content == PhotoContent(upload(post.photos[0].originalSizeUrl), Clean(post.caption))
    ensures |post.photos| > 1 ==>
      && r.Produced? && r.record.Type() == "gallery"
      && r.record.content.caption == Clean(post.caption)
      && |r.record.content.images| == |post.photos|
      && forall i :: 0 <= i < |post.photos| ==>
           r.record.content.images[i] == upload(post.photos[i].originalSizeUrl)
  {
    if |post.photos| == 1 then SinglePhotoResult(post, author, upload)
    else if |post.photos| > 1 then Produced(GalleryRecord(post, author, UploadedImages(post.photos, upload)))
    else Failed(BadPhotoFormat)
  }

  /** handleTextPost: a post without a (truthy) title is skipped without error. */
  function TextPostResult(post: RawPost, author: User): (r: HandlerResult)
    ensures !r.Failed?
    ensures r.Skipped? <==> !Truthy(post.title)
    ensures r.Produced? ==>
      && CommonFields(r.record, post, author)
      && r.record.key == SlugKey(post.slug)
      && r.record.Type() == "text"
      && r.record.content == TextContent(post.title, Clean(post.body), "")
      && Truthy(r.record.content.title)
  {
    var postDoc := TextRecord(post, author);
    if !Truthy(postDoc.content.title) then Skipped else Produced(postDoc)
  }

  /** handleQuotePost: always one `quote` record, the quote text copied verbatim. */
  function QuotePostResult(post: RawPost, author: User): (r: HandlerResult)
    ensures r.Produced? && CommonFields(r.record, post, author)
    ensures r.record.key == SlugKey(post.slug) && r.record.Type() == "quote"
    ensures r.record.content == QuoteContent(post.text, Clean(post.source))
  {
    Produced(QuoteRecord(post, author))
  }

  /** handleVideoPost: one `medium` record from the third player's embed code. */
  function VideoPostResult(post: RawPost, author: User): (r: HandlerResult)
    requires |post.player| >= 3
    ensures r.Produced? && CommonFields(r.record, post, author)
    ensures r.record.key == SlugKey(post.slug) && r.record.Type() == "medium"
    ensures r.record.content == MediumContent(UnescapeQuote(post.player[2].embedCode), Clean(post.caption))
  {
    Produced(MediumRecord(post, author))
  }

  /**
   * Calling `adapter[...]` with a post: the handlers above, where the two that
   * index into the post without a check throw a TypeError on a post that is
   * too short (a single-photo call with no photo, a video with fewer than
   * three players).
   */
  function HandlerOutcome(h: Handler, post: RawPost, author: User, upload: string -> Asset): (r: HandlerResult)
    ensures r.Produced? ==> CommonFields(r.record, post, author)
    ensures h == SinglePhotoHandler && |post.photos| == 0 ==> r == Failed(MissingField("photos[0]"))
    ensures h == VideoHandler && |post.player| < 3 ==> r == Failed(MissingField("player[2]"))
    ensures r.Failed? <==>
      || (h == PhotoHandler && |post.photos| == 0)
      || (h == SinglePhotoHandler && |post.photos| == 0)
      || (h == VideoHandler && |post.player| < 3)
  {
    match h
    case PhotoHandler => PhotoPostResult(post, author, upload)
    case SinglePhotoHandler =>
      if |post.photos| == 0 then Failed(MissingField("photos[0]"))
      else SinglePhotoResult(post, author, upload)
    case TextHandler => TextPostResult(post, author)
    case QuoteHandler => QuotePostResult(post, author)
    case VideoHandler =>
      if |post.player| < 3 then Failed(MissingField("player[2]"))
      else VideoPostResult(post, author)
  }

  // ------------------------------------------------------------ the handlers

  /** The `postsToSave` array that the handlers push onto. */
  class PostList {
    var items: seq<Record>

    constructor ()
      ensures items == []
    {
      items := [];
    }

    method Push(r: Record)
      modifies this
      ensures items == old(items) + [r]
    {
      items := items + [r];
    }
  }

  /** `post.photos.forEach(p => photos.push(p.original_size.url))`. */
  method CollectPhotoUrls(photos: seq<Photo>) returns (urls: seq<string>)
    ensures |urls| == |photos|
    ensures forall i :: 0 <= i < |photos| ==> urls[i] == photos[i].originalSizeUrl
  {
    urls := [];
    for i := 0 to |photos|
      invariant |urls| == i
      invariant forall j :: 0 <= j < i ==> urls[j] == photos[j].originalSizeUrl
    {
      urls := urls + [photos[i].originalSizeUrl];
    }
  }

  /**
   * The `async.eachSeries` upload loop: one upload per URL, strictly in order,
   * each result pushed onto `cloudinaryPhotos`.
   */
  method UploadInSeries(urls: seq<string>, upload: string -> Asset) returns (cloudinaryPhotos: seq<Asset>)
    ensures |cloudinaryPhotos| == |urls|
    ensures forall i :: 0 <= i < |urls| ==> cloudinaryPhotos[i] == upload(urls[i])
  {
    cloudinaryPhotos := [];
    var k := 0;
    while k < |urls|
      invariant 0 <= k <= |urls|
      invariant |cloudinaryPhotos| == k
      invariant forall j :: 0 <= j < k ==> cloudinaryPhotos[j] == upload(urls[j])
    {
      var result := upload(urls[k]);
      cloudinaryPhotos := cloudinaryPhotos + [result];
      k := k + 1;
    }
  }

  method HandleSinglePhotoPost(post: RawPost, author: User, upload: string -> Asset, postsToSave: PostList)
    returns (err: Option<Fault>)
    requires |post.photos| >= 1
    modifies postsToSave
    ensures err == None
    ensures postsToSave.items == old(postsToSave.items) + SinglePhotoResult(post, author, upload).Emitted()
  {
    var result := upload(post.photos[0].originalSizeUrl);
    var photo := PhotoRecord(post, author, result);
    postsToSave.Push(photo);
    err := None;
  }

  method HandlePhotoPost(post: RawPost, author: User, upload: string -> Asset, postsToSave: PostList)
    returns (err: Option<Fault>)
    modifies postsToSave
    ensures err == PhotoPostResult(post, author, upload).FaultOf()
    ensures postsToSave.items == old(postsToSave.items) + PhotoPostResult(post, author, upload).Emitted()
  {
    if |post.photos| == 1 {
      err := HandleSinglePhotoPost(post, author, upload, postsToSave);
    } else if |post.photos| > 1 {
      var photos := CollectPhotoUrls(post.photos);
      var cloudinaryPhotos := UploadInSeries(photos, upload);
      assert cloudinaryPhotos == UploadedImages(post.photos, upload);
      var gallery := GalleryRecord(post, author, cloudinaryPhotos);
      postsToSave.Push(gallery);
      err := None;
    } else {
      err := Some(BadPhotoFormat);
    }
  }

  method HandleTextPost(post: RawPost, author: User, postsToSave: PostList)
    returns (err: Option<Fault>)
    modifies postsToSave
    ensures err == None
    ensures postsToSave.items == old(postsToSave.items) + TextPostResult(post, author).Emitted()
  {
    var postDoc := TextRecord(post, author);
    if !Truthy(postDoc.content.title) {
      // the source only logs the post and dumps it to a debug file here
    } else {
      postsToSave.Push(postDoc);
    }
    err := None;
  }

  method HandleQuotePost(post: RawPost, author: User, postsToSave: PostList)
    returns (err: Option<Fault>)
    modifies postsToSave
    ensures err == None
    ensures postsToSave.items == old(postsToSave.items) + QuotePostResult(post, author).Emitted()
  {
    var quote := QuoteRecord(post, author);
    postsToSave.Push(quote);
    err := None;
  }

  method HandleVideoPost(post: RawPost, author: User, postsToSave: PostList)
    returns (err: Option<Fault>)
    requires |post.player| >= 3
    modifies postsToSave
    ensures err == None
    ensures postsToSave.items == old(postsToSave.items) + VideoPostResult(post, author).Emitted()
  {
    var medium := MediumRecord(post, author);
    postsToSave.Push(medium);
    err := None;
  }

  /**
   * `adapter[name](tpost, author, postCallback, postsToSave)` for a name that
   * resolves: the handler's callback argument and what it appended.
   */
  method CallHandler(h: Handler, post: RawPost, author: User, upload: string -> Asset, postsToSave: PostList)
    returns (err: Option<Fault>)
    modifies postsToSave
    ensures err == HandlerOutcome(h, post, author, upload).FaultOf()
    ensures postsToSave.items == old(postsToSave.items) + HandlerOutcome(h, post, author, upload).Emitted()
  {
    match h
    case PhotoHandler =>
      err := HandlePhotoPost(post, author, upload, postsToSave);
    case SinglePhotoHandler =>
      if |post.photos| == 0 {
        err := Some(MissingField("photos[0]"));
      } else {
        err := HandleSinglePhotoPost(post, author, upload, postsToSave);
      }
    case TextHandler =>
      err := HandleTextPost(post, author, postsToSave);
    case QuoteHandler =>
      err := HandleQuotePost(post, author, postsToSave);
    case VideoHandler =>
      if |post.player| < 3 {
        err := Some(MissingField("player[2]"));
      } else {
        err := HandleVideoPost(post, author, postsToSave);
      }
  }
}
