# Tumblr to Keystone importer: a Dafny model

This project models the command-line importer. It reads the posts of a Tumblr blog and saves them as Keystone `Post` documents. The model covers three parts:

- **Common** (`lib/common.js`) holds the string helpers the handlers use:
  - `removeEOL` deletes every CR LF, LF and CR. It is modelled as the left-to-right scan of the regex `/\r?\n|\r/g` and proved equal to a per-character filter.
  - `unescapeQuote` makes two global passes of a two-character replacement. The first turns `\'` into `&apos;`; the second turns `\"` into `"`.
  - `ucFirst` upper-cases the first character of a string.
- **TumblrAdapter** (`lib/tumblrAdapater.js`) holds the five handlers. Each one turns a raw Tumblr post into zero or one record on the caller's `postsToSave` list, or reports an error through its callback:
  - `postsToSave` is the class `PostList`; the handlers are methods that modify it.
  - Each handler method is proved equal to a specification function that returns `Skipped`, `Produced(record)` or `Failed(fault)`.
  - The Cloudinary upload is the parameter `upload`, a function from image URL to asset.
  - `moment.unix(t)` is the constructor `UnixSeconds(t)`.
- **Importer** (`index.js`) holds `handleTumblrPost` and the `async.waterfall` around it:
  - `handleTumblrPost` walks the posts in order. It dispatches each published post to the adapter member `"handle" + ucFirst(type) + "Post"` and stops at the first handler error.
  - The waterfall runs four stages in turn: look up the author, fetch the posts, transform them, save them.
  - The process exit code is 2 on a database connection error, 1 on any waterfall error, and 0 otherwise.
  - The database, the Tumblr client and Cloudinary are not called. Their answers form the `Environment` a run is given.
  - The loop `HandleTumblrPost` is proved equal to the function `TransformPosts`. The save loop `SavePosts` is proved equal to `FirstSaveError`. The straight-line run `RunImport` is proved equal to `ExitCode` and `Waterfall`.

`wrappers.dfy` defines `Option` and `Result`. A Node-style callback `callback(err)` / `callback(null, value)` is modelled as a `Result`, or as an `Option` of the error.

## Model

| member | source | states |
|---|---|---|
| Common.RemoveEOL | lib/common.js:81-86 | A falsy argument gives `""`. Otherwise the result is the argument with every CR and LF removed and nothing else changed, so it holds no CR or LF. |
| Common.StripEolIsWithoutEol | lib/common.js:85 | The regex scan, which tries CR LF, then LF, then CR at each position, deletes exactly the CR and LF characters, whatever the order of CRs and LFs. |
| Common.WithoutEolCounts | lib/common.js:85 | Each character other than CR and LF occurs in the result as often as in the input. CR and LF do not occur in it at all. |
| Common.WithoutEolKeepsEolFree | lib/common.js:85 | A string without CR or LF comes back unchanged. |
| Common.RemoveEOLNotLonger | lib/common.js:81-86 | The result is never longer than the string passed in. |
| Common.RemoveEOLIdempotent | lib/common.js:81-86 | Applying removeEOL twice gives the same result as applying it once. |
| Common.UnescapeQuote | lib/common.js:68-73 | A falsy argument gives `""`. No backslash-apostrophe pair is left in any result. A string without a backslash comes back unchanged. |
| Common.UnescapeQuoteUndoesEscapeQuotes | lib/common.js:72 | Round trip: take a backslash-free text and backslash-escape its `'` and `"`. unescapeQuote then gives the text back, except that each apostrophe becomes `&apos;`. |
| Common.UnescapeQuoteNotIdempotent | lib/common.js:72 | On the input `\\"`, a first call gives `\"` and a second call gives `"`. So unescapeQuote is not idempotent. |
| Common.EscapedApostropheBecomesEntity | lib/common.js:68-86 | Take two texts without backslash, quotes, CR or LF, joined by `\'`. The caption cleaning `removeEOL(unescapeQuote(...))` gives the same two texts joined by `&apos;`. |
| Common.UcFirst | lib/common.js:94-96 | The result has the length of the input. Its first character is the upper-cased first character of the input, so it is never a lower-case ASCII letter. The rest is unchanged. `""` gives `""`. |
| Common.UcFirstIdempotent | lib/common.js:94-96 | Capitalising an already capitalised string changes nothing. |
| TumblrAdapter.AdapterMember | lib/tumblrAdapater.js:16-185 | A property lookup on the adapter finds handler `h` exactly when the name is that handler's member name. Every other name is `undefined`. |
| TumblrAdapter.Clean | lib/tumblrAdapater.js:63 | The cleaned caption or body holds no CR or LF. It is `""` when the field is missing or empty. |
| TumblrAdapter.SinglePhotoResult | lib/tumblrAdapater.js:84-101 | Produces one `photo` record: keyed by slug, or by id when the slug is falsy; image is the upload of the first photo's original-size URL; caption is cleaned; published, unpinned, dated at the post's timestamp, with the post's tags and the given author. |
| TumblrAdapter.PhotoPostResult | lib/tumblrAdapater.js:25-76 | No photo fails with "Photo post bad format". One photo gives the single-photo record. Several photos give one `gallery` record; its i-th image is the upload of the i-th photo's URL, with one image per photo. |
| TumblrAdapter.TextPostResult | lib/tumblrAdapater.js:110-133 | Never an error. Skipped exactly when the title is missing or empty. Otherwise one `text` record keyed by the slug, with the title, the cleaned body and an empty brief. |
| TumblrAdapter.QuotePostResult | lib/tumblrAdapater.js:142-158 | Always one `quote` record keyed by the slug. The quote text is copied verbatim; the caption is the cleaned source. |
| TumblrAdapter.VideoPostResult | lib/tumblrAdapater.js:167-183 | One `medium` record keyed by the slug. The embed code of the third player is unescaped but not EOL-cleaned; the caption is cleaned. |
| TumblrAdapter.HandlerOutcome | lib/tumblrAdapater.js:25-183 | Calling a handler directly. A record it produces always carries the post's common fields. A single-photo call without photos fails with a missing `photos[0]`; a video post with fewer than three players fails with a missing `player[2]`. These two, and a photo post without photos, are the only failures. |
| TumblrAdapter.PostList.constructor | index.js:118 | `postsToSave` starts empty. |
| TumblrAdapter.PostList.Push | lib/tumblrAdapater.js:68 | `push` appends exactly one record at the end. |
| TumblrAdapter.CollectPhotoUrls | lib/tumblrAdapater.js:36-41 | One URL per photo, in photo order, each the photo's original-size URL. |
| TumblrAdapter.UploadInSeries | lib/tumblrAdapater.js:43-50 | One upload per URL, in order. The i-th asset is the upload of the i-th URL. |
| TumblrAdapter.HandleSinglePhotoPost | lib/tumblrAdapater.js:84-101 | Reports no error and appends exactly the record of SinglePhotoResult. Nothing else in the list changes. |
| TumblrAdapter.HandlePhotoPost | lib/tumblrAdapater.js:25-76 | Reports the error of PhotoPostResult and appends exactly its records. |
| TumblrAdapter.HandleTextPost | lib/tumblrAdapater.js:110-133 | Reports no error and appends exactly the records of TextPostResult: none when the title is falsy. |
| TumblrAdapter.HandleQuotePost | lib/tumblrAdapater.js:142-158 | Reports no error and appends exactly the record of QuotePostResult. |
| TumblrAdapter.HandleVideoPost | lib/tumblrAdapater.js:167-183 | Reports no error and appends exactly the record of VideoPostResult. |
| TumblrAdapter.CallHandler | index.js:129 | Calling a resolved adapter member reports HandlerOutcome's error and appends exactly its records. |
| Importer.HandlerNameCancels | index.js:125-128 | The member name built from a type is `handle<C>Post` exactly when ucFirst of the type is `C`. |
| Importer.NamesAgree | index.js:125-129 | For every handler, the type it serves starts with a lower-case letter. Capitalising that type gives the capitalised name, and the member name is `handle` + capitalised name + `Post`. |
| Importer.DispatchReaches | index.js:125-129 | A published post reaches handler `h` exactly when its type is the one `h` serves, with or without a capital initial. For example, both `photo` and `Photo` reach handlePhotoPost, and `singlePhoto` reaches handleSinglePhotoPost. |
| Importer.DispatchFails | index.js:125-129 | The member lookup is `undefined` exactly when the type matches none of the five handlers. |
| Importer.PostResult | index.js:122-133 | A post whose state is not `published` is skipped. A published post whose type has no handler fails with that member name. A produced record carries the post's common fields. |
| Importer.WalkSucceeds | index.js:120-142 | The walk succeeds exactly when no post's handler fails. It then yields every post's records, concatenated in post order. |
| Importer.WalkFailsAtFirstError | index.js:120-142 | The walk fails with `f` exactly when some post's handler fails with `f` and no earlier post's handler fails. |
| Importer.WalkConcat | index.js:120-142 | Walking `a + b` is walking `a`, then `b`. An error in `a` ends the walk; otherwise the records of `b` follow those of `a`. |
| Importer.UnpublishedPostIgnored | index.js:123-133 | Inserting an unpublished post anywhere in the list does not change the outcome. |
| Importer.NothingPublished | index.js:116-143 | With no published post, the transform succeeds with an empty list. |
| Importer.WalkRecords | index.js:120-142 | Every record the walk yields was produced by one of the outcomes. There are no more records than outcomes. |
| Importer.TransformedRecords | index.js:116-143 | A successful transform yields at most one record per post. Each record is published, unpinned and attributed to the run's author. |
| Importer.HandleOnePost | index.js:122-134 | The loop body for one post reports PostResult's error and appends exactly its records. |
| Importer.HandleTumblrPost | index.js:116-143 | The loop over the fetched posts passes on exactly TransformPosts of those posts: the first error, or every record in order. |
| Importer.AuthorStage | index.js:49-61 | Succeeds exactly when the lookup resolves to a user. A null user gives "User not found"; a rejection passes its reason on. |
| Importer.FetchStage | index.js:63-76 | Succeeds exactly when there is no error and there is data. An error is passed on; missing data gives "Can't find any post". |
| Importer.FirstSaveError | index.js:80-99 | No error exactly when every record saves. Otherwise the error is that of the first record whose save fails. |
| Importer.SavePosts | index.js:80-99 | `post.save` is called on every record, in list order: the list of saved records is the list passed in. The stage reports exactly FirstSaveError. |
| Importer.Waterfall | index.js:47-108 | The final callback gets no error exactly when the author is found, posts are fetched, every handler succeeds and every save succeeds. The two stage messages are reported as such. |
| Importer.ExitCode | index.js:41-107 | The exit code is 0, 1 or 2. It is 2 exactly on a connection error, and 0 exactly when the whole import succeeds. |
| Importer.RunImport | index.js:41-108 | The run exits with ExitCode. It reports the connection error, or otherwise the waterfall's error. |
| Importer.OnlyUnpublishedPostSucceeds | index.js:116-143 | A run that fetches only one unpublished post saves nothing and exits with 0. |
| Importer.MissingAuthorFails | index.js:54-55 | A run whose author lookup finds no user reports "User not found" and exits with 1. |
| Importer.QuoteWithEscapedApostrophe | lib/tumblrAdapater.js:142-158 | A published quote post whose source holds an escaped apostrophe between plain texts gives a `quote` record. Its caption has `&apos;` in place of the escape. Its quote text and date come from the post. |

## Left out

- Network, database and file I/O are not modelled. This covers `mongoose.connect`, the Tumblr client, `cloudinary.uploader.upload`, `post.save`, `flib.writeFile`, `flib.download`, `flib.clearCloudinary` and the environment variables. Their answers are fields of `Environment` or the parameter `upload`.
- Console logging is not modelled. It does not affect what is saved or the exit code.
- The other helpers of `lib/common.js` (`cleanQuoteTitle`, `download`, `writeFile`, `clearCloudinary`) are not part of this model. `writeFile` is called only as a debug dump in handleTextPost's no-title branch (lib/tumblrAdapater.js:127); that file write is left out, and the branch is modelled as appending nothing. The other three are not called on the import path.
- Common.UcFirst: `toUpperCase` is modelled for ASCII letters only. Other characters, and upper-casing that changes a string's length (such as `ß`), are not modelled.
- Importer.HandlerName: `String.prototype.replace` with a string pattern treats `$` sequences in the replacement specially. A post type holding `$&`, `$'` or similar is outside the model.
- Importer.FirstSaveError: `async.each` starts every save at once and reports whichever failure completes first. The model reports the first failure in list order, which is one of the orders the source allows. The records that were saved before the process exits are not modelled.
- Importer.Waterfall: the `! "save" in post` guard at index.js:83 parses as `(!"save") in post`, which is always false for a Keystone document. The "No save method" branch is therefore left out.
- TumblrAdapter.HandlePhotoPost: the error branch of the upload series (lib/tumblrAdapater.js:51-55) is unreachable, because the upload callback never passes an error to `photosCallback`. It is not modelled.
- TumblrAdapter.HandlerOutcome: a TypeError thrown by a handler is modelled as a `Failed` outcome with a `MissingField` fault. An undefined adapter member is modelled the same way, with a `NoHandler` fault. In the source these escape as uncaught exceptions, and the process also ends with exit code 1.
- TumblrAdapter.HandleSinglePhotoPost and TumblrAdapter.HandleVideoPost require the photo or player they index into. CallHandler models the error path when it is missing.
- TumblrAdapter.TextPostResult: the title check reads the title of the constructed Keystone document. The model takes that title to be the post's own title, and does not model Keystone's field casting.
- Importer.ExitCode: a connection error raised after the `open` event, while the waterfall is running, is not modelled. The model decides the exit code 2 before the waterfall starts.
- Importer.AuthorStage: a lookup rejected with a falsy reason would make the waterfall call the fetch stage with its own next-callback in the `user` slot. That stage's `callback` parameter is then undefined, and index.js:70 or 72 throws. Every rejection is modelled with a fault that the waterfall reports.
- Keystone's model construction, mongoose document behaviour, and the configuration objects (`queryParams`, `cloudinary.config`, `keystone.init`) are not modelled. Records are plain values.
