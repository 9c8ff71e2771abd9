# Val-X TV backend core, modelled in Dafny

This project models the request handlers and utilities under `functions/` of the Val-X TV streaming backend. The backend is a set of Hono routes over a MinIO object store.

- **Upload.** An admin uploads a video or audio file. The handler validates it and transcodes it into HLS renditions with ffmpeg. It then publishes the renditions, a thumbnail and a metadata document to the store.
- **Reads.** Stream URLs, media metadata and course details are read back. Each is gated by the premium rule: premium content is refused unless the caller is an admin or has a premium subscription.
- **Listings.** Media and courses are listed and sorted newest first. The TV handler picks a playlist and the FM handler lists channels.
- **Users.** Users register, log in, read and change their subscription tier, merge their profile and read their own record.
- **Gates.** A fixed-window rate limiter and the JWT gates sit in front of the routes.

The external world enters only as values and parameters:

- **Store.** The object store is a map from `(bucket, key)` to stored objects. Write failures and read failures are two separate key sets. A bucket listing is a function from bucket to object names; the media and course listings require it to name exactly the stored keys.
- **Presigning.** A presigned URL is the value `SignedUrl(bucket, key, ttl)`.
- **ffmpeg.** Its outcome is a function from argument vector to exit code and output chunks.
- **Libraries.** sha256, token verification, the zod e-mail and URL checks, and the number parser are function-typed parameters.
- **Nondeterminism.** The clock, the fresh media id and the 1% cleanup gate are plain inputs.

Modules, one per component:

| module | file | what it holds |
|---|---|---|
| `Common` | common.dfy | Option, Result, and the handler response `Reply(body) \| Refuse(status, error)` |
| `Text` | text.dfy | the string operations the handlers use: prefix and suffix tests, split and join, first-occurrence removal |
| `Records` | records.dfy | the metadata documents |
| `Store` | store.dfy | the object store: a snapshot value, and an `ObjectStore` class whose `Put` logs every write that succeeds |
| `Metadata` | metadata.dfy | the key mapping, `getMetadata`, `saveMetadata` and `listMetadataIds` |
| `Auth` | auth.dfy | `extractToken` and the middleware gates over a request context |
| `RateLimit` | ratelimit.dfy | the limiter, as a class over the shared map |
| `Transcode` | ffmpeg.dfy | argument vectors, the sequential rendition loops and the process runner |
| `Upload` | upload.dfy | form defaults, the validation chain, the output-tree walk, the publish order and the workspace cleanup |
| `Delivery` | delivery.dfy | the stream, metadata and course-detail resolvers |
| `Listing` | listing.dfy | the media and course listing loops and the newest-first sort |
| `Channels` | channels.dfy | the TV playlist and the FM channel list |
| `Users` | users.dfy | register, login, subscription, profile and me |

## Model

| member | source | states |
|---|---|---|
| Text.JoinSplit | functions/media/upload.ts:29 | Splitting on a separator and joining back gives the original string. So the languages field is split without losing or trimming anything. |
| Text.SplitJoin | functions/utils/metadata.ts:159 | Joining pieces that do not contain the separator and splitting again gives the pieces back. |
| Text.Split | functions/utils/metadata.ts:159 | A split yields at least one piece, and no piece contains the separator. |
| Text.FindFrom | functions/utils/metadata.ts:156 | Finds the first occurrence of a pattern at or after a position: no earlier match exists, and when nothing is found there is no match at all. |
| Text.RemoveAppended | functions/utils/metadata.ts:156 | Removing the first `.json` from `id + ".json"` gives `id` back, when the id cannot hide an earlier occurrence. |
| Store.ObjectStore.constructor | functions/utils/minio.ts:59-76 | A store starts with the given objects, write-fault keys and read-fault keys, and an empty write log. |
| Store.ObjectStore.Put | functions/utils/minio.ts:59-76 | A put succeeds exactly when its key is not write-faulty. On success the object replaces the key's entry and is appended to the log; on failure nothing changes. |
| Store.FirstFault | functions/utils/minio.ts:59-76 | The index of the first write in a sequence that fails: every earlier write succeeds and the one at the index fails. |
| Metadata.GetMetadata | functions/utils/metadata.ts:89-127 | Yields a document exactly when the mapped object exists, is readable and holds a document, and then yields that document. Absence and a read error both give nothing. |
| Metadata.GetMedia | functions/utils/metadata.ts:89-127 | A media read yields the stored media document; any other outcome is treated as absent. |
| Metadata.GetUser | functions/utils/metadata.ts:89-127 | A user read yields the stored user document; any other outcome is treated as absent. |
| Metadata.GetCourse | functions/utils/metadata.ts:89-127 | A course read yields the stored course document; any other outcome is treated as absent. |
| Metadata.SaveMetadata | functions/utils/metadata.ts:55-84 | Writes exactly one JSON object at the mapped key. It succeeds iff that key is not write-faulty, and the log grows by that one write or by nothing. |
| Metadata.GetAfterSave | functions/utils/metadata.ts:96-122 | Get after save at the same collection and id returns the saved document. |
| Metadata.SaveKeepsOthers | functions/utils/metadata.ts:63-83 | A save changes no read at any other key. |
| Metadata.RecordKeyInjective | functions/utils/metadata.ts:63-80 | Outside the subscription collection, distinct (collection, id) pairs map to distinct object keys. Media lives in the videos bucket even for audio. |
| Metadata.SubscriptionIdsCollide | functions/utils/metadata.ts:76-78 | Saving a subscription document under any id makes a read under every id return it, because all ids share `plans.json`. |
| Metadata.ListMetadataIds | functions/utils/metadata.ts:132-168 | The loop over the listed names yields the id sequence of the collection's bucket. Media uses the bucket override when one is given. |
| Metadata.CollectIdsMembership | functions/utils/metadata.ts:153-165 | An id is listed iff it is non-empty and derived from some listed object name. |
| Metadata.CollectIdsDistinct | functions/utils/metadata.ts:159-162 | Media and course ids are listed without duplicates. |
| Metadata.IdOfRecordKey | functions/utils/metadata.ts:155-162 | Deriving an id from the object name its own record is saved under gives the id back. |
| Metadata.SavedIsListed | functions/utils/metadata.ts:132-168 | Every id whose record is in the bucket listing appears among the listed ids. |
| Metadata.ObjectUnderIdIsListed | functions/utils/metadata.ts:150-162 | When the listing names exactly the stored keys, any object stored under `<id>/` in a media or course bucket puts `id` among that bucket's ids. |
| Auth.ExtractToken | functions/utils/jwt.ts:38-43 | A token exists iff the header starts with exactly `Bearer `. The header is then `Bearer ` followed by the token, and the token is 7 characters shorter. |
| Auth.Authenticated | functions/utils/middleware.ts:14-29 | The caller is authenticated iff a non-empty token is extracted and the verifier accepts it. The claims are then the verifier's payload. |
| Auth.OptionalUser | functions/utils/middleware.ts:81-99 | With no token the user is the guest; otherwise the user is whatever the verifier returns. |
| Auth.RequestContext.constructor | functions/utils/middleware.ts:14-29 | A request starts with its Authorization header and no user set. |
| Auth.RequestContext.Authenticate | functions/utils/middleware.ts:14-29 | Continues iff authenticated, and then sets the user to the claims. Otherwise it halts with 401 "No token provided" or 401 "Invalid token" and leaves the user unset. |
| Auth.RequestContext.OptionalAuth | functions/utils/middleware.ts:81-99 | Sets the guest or the verified claims. An invalid token leaves the user as it was. |
| Auth.RequireRole | functions/utils/middleware.ts:34-48 | Continues iff a user is set and its role is allowed. Otherwise it gives 401 when unset and 403 when the role is not allowed. |
| Auth.RequireAdmin | functions/utils/middleware.ts:53 | Continues iff the user is an admin. |
| Auth.RequirePremium | functions/utils/middleware.ts:58-76 | Continues iff the user is an admin or premium. Otherwise it gives 401 when unset and 403 "Premium subscription required". |
| Auth.RequirePremiumMatchesReadRule | functions/utils/middleware.ts:58-76 | The premium gate and the inline premium rule of the read handlers agree on every caller. |
| Auth.StandardNeverDenied | functions/media/stream.ts:25 | The premium rule never refuses content that is not premium. |
| Auth.BareBearerIsNoToken | functions/utils/jwt.ts:42 | The header `Bearer ` yields the empty token. It fails authentication, makes the optional user the guest, and the guest is refused premium content. |
| Auth.OtherSchemeIsNoToken | functions/utils/jwt.ts:38-41 | A lower-case `bearer` or another scheme yields no token. |
| RateLimit.ClientIp | functions/utils/rateLimit.ts:13 | The client address is the first non-empty of `x-forwarded-for` and `x-real-ip`, else `unknown`. |
| RateLimit.CeilSeconds | functions/utils/rateLimit.ts:34 | Rounds milliseconds up to whole seconds: `1000(s-1) < ms <= 1000s`. |
| RateLimit.Decide | functions/utils/rateLimit.ts:17-38 | Admits iff the entry is absent, expired (strictly past `resetAt`) or under the maximum. A refusal carries the seconds left in the window, rounded up. |
| RateLimit.Advance | functions/utils/rateLimit.ts:19-41 | An absent or expired entry restarts at count 1 with a new window. An admitted entry counts up by one and keeps its reset time. A refused entry is unchanged. |
| RateLimit.RateLimiter.constructor | functions/utils/rateLimit.ts:4-7 | The shared map starts empty, with the configured window and maximum. |
| RateLimit.RateLimiter.Hit | functions/utils/rateLimit.ts:17-41 | One check returns the decision on the old entry and updates only the checked key, as `Record` describes. |
| RateLimit.RateLimiter.Cleanup | functions/utils/rateLimit.ts:44-51 | The cleanup loop deletes exactly the expired entries and keeps all others. |
| RateLimit.RateLimiter.CheckGeneral | functions/utils/rateLimit.ts:12-54 | The general limiter checks `rate_limit:<ip>` against its own window and maximum. When the gate fires on the counting path, the map is then swept. |
| RateLimit.RateLimiter.CheckUpload | functions/utils/rateLimit.ts:59-91 | The upload limiter checks `upload_rate_limit:<ip>` with a 10-minute window and 5 uploads, and never sweeps. |
| RateLimit.RecordTouchesOnlyItsKey | functions/utils/rateLimit.ts:17-41 | A check leaves every other key's entry alone, and a refused check changes nothing. |
| RateLimit.PrefixesSeparate | functions/utils/rateLimit.ts:14 | The general and upload keys never coincide, whatever the addresses. |
| RateLimit.RetryAfterBounded | functions/utils/rateLimit.ts:34 | Inside the current window, the retry hint lies between 0 and the window length in seconds. |
| RateLimit.CleanupUnobservable | functions/utils/rateLimit.ts:44-51 | At any later time, cleanup changes neither a key's decision nor its next entry. |
| RateLimit.Verdicts | functions/utils/rateLimit.ts:17-41 | A run of checks on one key gives one verdict per request. |
| RateLimit.EntryWithinWindow | functions/utils/rateLimit.ts:19-41 | Requests within one window leave the count at the smaller of the request count and the maximum, with the window set by the first request. |
| RateLimit.OneWindow | functions/utils/rateLimit.ts:29-41 | Within one window, request i is admitted iff i is below the maximum. |
| RateLimit.HundredAndFirstRefused | functions/utils/rateLimit.ts:6-7 | With the defaults, the first 100 requests in a minute pass and the 101st is refused. |
| Transcode.VideoRuns | functions/utils/ffmpeg.ts:25-45 | One argument vector per quality, in order. |
| Transcode.AudioRuns | functions/utils/ffmpeg.ts:64-80 | One argument vector per bitrate, in order. |
| Transcode.Manifests | functions/utils/ffmpeg.ts:28 | One manifest per label, in order, each `outputDir/<label>/playlist.m3u8`. |
| Transcode.RunResult | functions/utils/ffmpeg.ts:126-152 | A run resolves iff it exits with code 0. It yields the captured output when capture is asked for, else the empty string. |
| Transcode.FirstFailure | functions/utils/ffmpeg.ts:25-49 | The index of the first failing run: all earlier runs succeed. |
| Transcode.Started | functions/utils/ffmpeg.ts:25-49 | The runs started are a leading part of the planned runs, never empty when a run is planned. Every started run but the last succeeded, and the last one failed unless every run started. |
| Transcode.StartedUnique | functions/utils/ffmpeg.ts:25-49 | Those properties determine the started runs: any leading part of the runs that has them is `Started`. |
| Transcode.Ffmpeg.constructor | functions/utils/ffmpeg.ts:126-131 | A runner starts with nothing spawned. |
| Transcode.Ffmpeg.Run | functions/utils/ffmpeg.ts:126-152 | Spawns one process with the given arguments and returns its exit-code result. |
| Transcode.Ffmpeg.RunRenditions | functions/utils/ffmpeg.ts:25-49 | Runs the vectors in order and stops at the first failure, with no retry. It succeeds iff every run succeeds, and then returns the manifests. |
| Transcode.Ffmpeg.TranscodeVideo | functions/utils/ffmpeg.ts:18-52 | Spawns the started video runs. It succeeds iff every quality's run succeeds, and then returns one manifest per quality. |
| Transcode.Ffmpeg.TranscodeAudio | functions/utils/ffmpeg.ts:57-87 | Spawns the started audio runs. It succeeds iff every bitrate's run succeeds, and then returns one manifest per bitrate. |
| Transcode.Ffmpeg.ExtractThumbnail | functions/utils/ffmpeg.ts:92-106 | Spawns the one thumbnail run; it succeeds iff that run does. |
| Transcode.Ffmpeg.GetDuration | functions/utils/ffmpeg.ts:111-121 | Spawns the probe. On success the duration is the parsed output, or 0 when it does not parse. |
| Transcode.CheckFFmpegAvailable | functions/utils/ffmpeg.ts:158-164 | Always reports ffmpeg available. |
| Transcode.ArgsShape | functions/utils/ffmpeg.ts:26-103 | Every rendition vector has `-hls_time 10`, `-hls_list_size 0` and the label's segment pattern, and ends with `-f hls <manifest>`. `480p` gives `854:480` at `1000k` and every other label `1280:720` at `2500k`. An audio label is also its `-b:a` value. The thumbnail run takes one frame at `00:00:01` and writes the output path. |
| Transcode.RunsWriteManifests | functions/utils/ffmpeg.ts:25-51 | The manifest the i-th video or audio run writes is the i-th manifest the transcoder returns, and distinct labels write distinct manifests. |
| Transcode.ManifestPathInjective | functions/utils/ffmpeg.ts:28 | Distinct labels give distinct manifest paths. |
| Upload.TitleOf | functions/media/upload.ts:26 | A missing or empty title becomes `Untitled`. |
| Upload.LanguagesOf | functions/media/upload.ts:29 | The language list is never empty. |
| Upload.LanguagesKeepField | functions/media/upload.ts:29 | The languages field is split without trimming. An empty field gives one empty language; only a missing field gives `en`. |
| Upload.Validate | functions/media/upload.ts:31-64 | Accepts iff there is a file, its size is at most the maximum, and its type is in its family's allow-list. The checks run in order: no file is 400, too large is 413, neither family is 400, otherwise 400. |
| Upload.AllowedHavePrefix | functions/media/upload.ts:19-20 | Every allowed video type has the `video/` prefix and every allowed audio type the `audio/` prefix, never both. |
| Upload.SizeLimitInclusive | functions/media/upload.ts:36 | A file of exactly the maximum size is accepted. |
| Upload.DetectType | functions/media/upload.ts:78 | The declared kind wins, unchecked against the file type. Otherwise the kind is `movie` for `video/*` and `audio` for everything else. |
| Upload.RenditionsOf | functions/media/upload.ts:89-98 | movie/tv gives `480p, 720p`, audio gives `96k, 128k`, and any other kind gives no labels. |
| Upload.TargetBucket | functions/media/upload.ts:108 | Renditions go to the videos bucket iff the kind is movie or tv, otherwise to the audio bucket. |
| Upload.HlsWritesShape | functions/media/upload.ts:111-125 | The walk writes one object per regular file in the tree, each in the target bucket under `<mediaId>/hls/` as an octet stream. |
| Upload.FileIsPut | functions/media/upload.ts:114-123 | Every file entry is written at `<mediaId>/hls/<relative path>` with its bytes. |
| Upload.DirectoryIsWalked | functions/media/upload.ts:114-123 | Everything written for a sub-directory, under its extended prefix, is written by the walk. |
| Upload.HlsKeyIsNotRecordKey | functions/media/upload.ts:121 | No rendition object can overwrite the media record. |
| Upload.Scratch.constructor | functions/media/upload.ts:68-69 | No workspace exists at first. |
| Upload.Scratch.Create | functions/media/upload.ts:69 | Creating a workspace adds exactly that path. |
| Upload.Scratch.Remove | functions/media/upload.ts:156-159 | Removing a workspace deletes exactly that path. |
| Upload.UploadDirectory | functions/media/upload.ts:111-125 | The recursive walk issues the tree's writes in order, stopping at the first failing put. It succeeds iff none fails. |
| Upload.UploadEntry | functions/media/upload.ts:114-123 | One loop iteration: a file is put, a directory is walked, and anything else is skipped. |
| Upload.PlannedRuns | functions/media/upload.ts:83-105 | The probe is always the first ffmpeg run. |
| Upload.NewMetadata | functions/media/upload.ts:136-146 | The record carries the new id, the time, the duration, the detected kind, its labels and the form defaults. The thumbnail path is `<id>/thumbnail.jpg` iff the kind is a video kind. |
| Upload.PublishWrites | functions/media/upload.ts:127-149 | The media record is the last write of the publish sequence. |
| Upload.TranscodeStage | functions/media/upload.ts:89-105 | The renditions and then the thumbnail run in order, stopping at the first failure. |
| Upload.RunTools | functions/media/upload.ts:83-105 | Probe, renditions, thumbnail in that order. It succeeds iff all started runs succeed, and then yields the probed duration. |
| Upload.PublishAssets | functions/media/upload.ts:127-133 | Writes the rendition tree, then the thumbnail when it exists, stopping at the first failing put. |
| Upload.PublishObjects | functions/media/upload.ts:127-149 | Writes the assets and then the record, stopping at the first failing put. |
| Upload.Publish | functions/media/upload.ts:71-149 | The protected block. It runs the tools only if the raw copy was written, and publishes only if every run succeeded. It succeeds iff every run and every put succeeds, and then returns the record. |
| Upload.HandleUpload | functions/media/upload.ts:22-163 | A rejected form gets its validation status with nothing spawned, written or created. An accepted form creates the workspace and always removes it. It replies with the record iff every run and put succeeds, and otherwise returns 500 "Upload failed". |
| Upload.NoRecordBeforeLast | functions/media/upload.ts:127-149 | No write before the last one touches the media record. So any failure earlier in the publish leaves the record unwritten. |
| Upload.UploadReadsBack | functions/media/upload.ts:149 | After a publish whose last write is the record, reading the media id returns the new record. |
| Delivery.CheckAccess | functions/media/stream.ts:25 | Premium content is denied to a caller that is neither admin nor premium. With no user set, it throws. Content that is not premium is always granted. |
| Delivery.StreamBucket | functions/media/stream.ts:30 | The stream bucket is audio iff the kind is audio, else videos. |
| Delivery.Stream | functions/media/stream.ts:10-53 | Gives 404 iff the media is unknown, 403 iff access is denied, and 500 iff no user is set for premium media. Otherwise it returns the one-hour URL of the quality's manifest (default 720p), with the language echoed (default en). |
| Delivery.StreamIgnoresLanguage | functions/media/stream.ts:15 | The language never changes the outcome or the URL. |
| Delivery.StandardMediaAlwaysStreams | functions/media/stream.ts:25 | Known media that is not premium always streams. |
| Delivery.AnyQualityStreams | functions/media/stream.ts:14 | A quality the media was never transcoded to still gets a URL. |
| Delivery.StreamFindsPublishedManifest | functions/media/stream.ts:30-34 | The manifest key a stream asks for is among the keys the upload walk writes, for every rendition directory with a playlist. |
| Delivery.ThumbnailUrl | functions/media/metadata.ts:28-31 | A thumbnail URL exists iff the record names a thumbnail. It is then a one-hour URL in the thumbnails bucket. |
| Delivery.ReadMetadata | functions/media/metadata.ts:10-42 | Gives 404, 403 and 500 under the same conditions as the stream. Otherwise it returns the whole record plus the thumbnail URL. |
| Delivery.ReadPathsAgree | functions/media/metadata.ts:16-25 | The metadata read and the stream succeed together and fail with the same status. |
| Delivery.ThumbnailUrlFindsUpload | functions/media/metadata.ts:28-31 | For an uploaded video, the thumbnail URL names the object the upload wrote. |
| Delivery.ThumbnailUrlDangles | functions/media/upload.ts:129-146 | A video whose thumbnail file was not produced still records `<id>/thumbnail.jpg`, and no write of the upload puts that object. |
| Delivery.LessonUrl | functions/courses/detail.ts:31-38 | A lesson URL exists iff the lesson's media record exists. It is always the videos-bucket 720p manifest for one hour. |
| Delivery.WithUrls | functions/courses/detail.ts:28-45 | One view per lesson, in order, each keeping the lesson and adding its URL. |
| Delivery.CourseDetail | functions/courses/detail.ts:10-63 | Gives 404, 403 and 500 by the course's own premium flag. Otherwise it returns the course with its lesson views and thumbnail URL. |
| Delivery.CourseIgnoresLessonPremium | functions/courses/detail.ts:23-39 | A course that is not premium is served, and every lesson with a media record gets a URL, even when that media is premium. |
| Delivery.AudioLessonUrlDiffersFromStream | functions/courses/detail.ts:35-36 | An audio lesson gets a videos-bucket URL, which differs from the URL its own stream gives. |
| Listing.SortNewestFirst | functions/media/list.ts:41 | The in-place sort leaves the array ordered by non-increasing `createdAt` and is a permutation of its input. |
| Listing.InsertAt | functions/media/list.ts:41 | One insertion step extends the sorted prefix by one element and keeps the contents. |
| Listing.PickMedia | functions/media/list.ts:23-34 | A record is kept only if it matches the type query and the premium rule. The loop aborts iff premium media matches with no user set. |
| Listing.MediaSelectionMembership | functions/media/list.ts:22-38 | A record is selected iff some listed id loads it and it passes both filters. |
| Listing.CollectMedia | functions/media/list.ts:22-38 | The loop aborts iff some record throws, and otherwise builds the selection. |
| Listing.MediaListingBucket | functions/media/list.ts:16 | Ids come from the audio bucket iff the query type is audio. |
| Listing.ListMedia | functions/media/list.ts:10-52 | Gives 500 iff the loop throws. Otherwise `count` is the list length, and the list is newest first and a permutation of the selection. |
| Listing.ListedMediaIsVisible | functions/media/list.ts:26-34 | A listed item matches the type query, and it is premium only for an admin or premium caller. |
| Listing.StoredMediaIsListed | functions/media/list.ts:16-36 | With a listing of the store's own keys, a stored media record is among the walked ids for any query but `type=audio`. It is in the answer whenever the loop keeps it. |
| Listing.PublishedMediaIsListed | functions/media/upload.ts:136-149 | After a complete publish of a non-audio upload, the media appears in the default listing and in the listing of its own type for every caller the premium rule admits. |
| Listing.PickCourse | functions/courses/list.ts:20-26 | A course is kept only if it passes the premium rule. The loop aborts iff it is premium with no user set. |
| Listing.CourseSelectionMembership | functions/courses/list.ts:19-30 | A course is selected iff some listed id loads it and it passes the premium rule. |
| Listing.CollectCourses | functions/courses/list.ts:19-30 | The loop aborts iff some record throws, and otherwise builds the selection. |
| Listing.ListCourses | functions/courses/list.ts:9-44 | Gives 500 iff the loop throws. Otherwise `count` is the list length, and the list is newest first and a permutation of the selection. |
| Listing.ListedCoursesAreVisible | functions/courses/list.ts:23-28 | A listed course is premium only for an admin or premium caller. |
| Listing.StoredCourseIsListed | functions/courses/list.ts:14-29 | With a listing of the store's own keys, a stored course record is among the walked ids and is in the answer whenever the loop keeps it. |
| Channels.FindPlaylist | functions/tv/list.ts:27-29 | Yields the first name that is the requested one, or a `.m3u` name when it is the only object. Yields nothing iff no name qualifies. |
| Channels.TvList | functions/tv/list.ts:9-52 | Every answer has the HLS playlist content type. An empty bucket gives exactly `#EXTM3U\n`, and only a failing read gives 500. |
| Channels.TvSelection | functions/tv/list.ts:12-47 | For a non-empty listing, the served playlist is the requested one (default `default.m3u`) when listed, else the first object. It is returned as read, and the last fallback is never reached. |
| Channels.ChannelNamesFilter | functions/fm/list.ts:15-16 | Exactly the `.m3u8` and `.json` names are kept, in listing order. |
| Channels.StripExtension | functions/fm/list.ts:32 | Removes a trailing `.m3u8` or `.json` and nothing else. |
| Channels.ListedChannelShape | functions/fm/list.ts:29-36 | The id is the name less its extension. The type is `hls` iff the name is `.m3u8`, and the display name is never empty. The URL is the name's, in the FM bucket for an hour. A `.json` name falls through to this only when its local copy is missing. |
| Channels.FmList | functions/fm/list.ts:9-49 | `count` equals the number of kept names, and each kept name gives its channel in order. The listing fails with 500 iff some name's channel throws. |
| Channels.FmFailsOnlyOnBadJson | functions/fm/list.ts:18-26 | Only a `.json` name whose local copy does not parse fails the listing. |
| Users.UserIdOf | functions/auth/register.ts:22 | The user id is the first 16 characters of the e-mail's hash. |
| Users.AccountOf | functions/auth/register.ts:52-61 | The account view carries id, e-mail, role, tier and profile. |
| Users.ViewOf | functions/auth/me.ts:17-24 | The profile view carries id, e-mail, role, tier, profile and creation time. |
| Users.ProjectionsHideHash | functions/auth/me.ts:17-24 | Neither view depends on the password hash. |
| Users.RoleOf | functions/auth/register.ts:11 | The requested role is taken as given, admin included, and defaults to user. |
| Users.NewUser | functions/auth/register.ts:33-40 | A new record stores only the password's hash, the requested role, the free tier and the time, with no profile. |
| Users.Register | functions/auth/register.ts:16-69 | A schema failure is 400 "Validation failed", and an existing id is 400 "User already exists", both with no write. Otherwise the record is written once. It replies with a token matching the record iff the write succeeds, else 500 "Registration failed". |
| Users.Login | functions/auth/login.ts:14-58 | Replies iff the request passes the schema, the user exists, and the stored hash equals the password's hash. An unknown user and a wrong password give the same 401. The token carries the stored role and tier. |
| Users.RegisterThenLogin | functions/auth/login.ts:20-38 | Logging in with the credentials just registered returns the new account and its token. |
| Users.SubscriptionGet | functions/user/subscription.ts:14-31 | Gives 404 iff the record is absent, and otherwise exactly the tier and role. |
| Users.ParseTier | functions/user/subscription.ts:6-8 | Only `free` and `premium` are accepted tiers. |
| Users.SubscriptionPost | functions/user/subscription.ts:33-65 | A bad tier is 400 and an absent record 404, both with no write. Otherwise the record is saved with only the tier changed, with no role gate. A failed save is 500. |
| Users.UpgradeNeedsNewToken | functions/user/subscription.ts:44-56 | After a free user upgrades, the stored tier is premium, but the unchanged token is still refused premium content. |
| Users.MergeProfile | functions/user/profile.ts:51-54 | Provided fields override and missing fields keep the old values. |
| Users.MergeProfileIdempotent | functions/user/profile.ts:51-54 | Merging the same update twice equals merging it once, and an empty update changes nothing. |
| Users.ProfileGet | functions/user/profile.ts:15-36 | Gives 404 iff the record is absent, and otherwise the profile view. |
| Users.ProfilePost | functions/user/profile.ts:38-75 | A non-URL avatar is 400 and an absent record 404, both with no write. Otherwise the record is saved with only the merged profile changed. A failed save is 500. |
| Users.Me | functions/auth/me.ts:7-29 | Unauthenticated callers get 401. Authenticated ones get the profile read of their token's user id. |
| Users.ProfileUpdateVisibleToMe | functions/auth/me.ts:9-24 | After a profile update, `/me` returns the merged profile with every other field unchanged. |

## Left out

- Middleware composition and the gateway are not modelled. The upload handler is modelled as reached by an admin. The order in which Hono applies `requireAdmin` and `uploadRateLimitMiddleware` is not modelled.
- functions/utils/minio.ts is reduced to an abstract store. `put` fails on the write-faulty keys and `getMetadata` fails on the read-faulty keys. A presigned URL is a value and never fails. Bucket initialisation is not part of this model.
- JSON stringify and parse are the identity on documents. A stored object that is not a document of the expected shape reads as absent.
- The `message` texts of error bodies and the zod `details` are not modelled; statuses and `error` texts are.
- Floating point is not modelled. The probed duration is a real chosen by an oracle parser, with `|| 0` as "no parse gives 0".
- Hashing, token signing and verification, and the zod e-mail and URL checks are uninterpreted parameters. So are the clock, `randomUUID` and the 1% cleanup gate.
- File-system effects of the upload are reduced to two things. One flag says whether the raw copy into the workspace was written. A set of live workspace paths records the `finally` removal. The ffmpeg output tree is a value handed to the walk. `existsSync` on the thumbnail is a second input.
- `Promise.all` in the course detail and FM listing is modelled as an in-order map. Concurrent use of the rate-limit map is not modelled.
- Listing.SortNewestFirst: the contract states order and permutation, not the stability of the JavaScript sort, because equal timestamps may appear in any order.
- Transcode.Ffmpeg.GetDuration: the probe is sent to the ffmpeg binary with an ffprobe-style `-show_entries` argument, kept as written. Whether it succeeds, and what it prints, comes from the process oracle like every other run. The `trim` and `parseFloat` are folded into the parser parameter.
- Subscription plans are only written and read through the shared `plans.json` key; no handler of this core uses them further.
- `listObjects` is a parameter. Media and course listings require it to name exactly the stored keys (`ListsStore`). The TV and FM handlers take their object names as given, because no handler of this core writes those buckets.
- A failing `listObjects` is not modelled. The model's listings always succeed, so the 500 answers of the TV, FM, media and course listings on a rejected listing are missing.
- A request body that `c.req.json()` or `c.req.formData()` cannot parse is not modelled. Nor is a field of the wrong JSON type. The source answers 500 or 400 there, while the model's request values start from a parsed body.
- `path.join` is modelled as concatenation with `/` (`PathJoin`). The normalisation of `.`, `..` and repeated separators is not modelled. The labels the upload handler passes (`480p`, `720p`, `96k`, `128k`) are single plain segments that normalisation leaves unchanged.
- Transcode.ManifestPathInjective: holds for every pair of labels only because `PathJoin` does not normalise. In the source, labels such as `x/../480p` and `480p` share one manifest.
- Listing.StoredMediaIsListed: a `type=audio` query lists the ids found in the audio bucket, which come from rendition objects rather than records. Only `Metadata.ObjectUnderIdIsListed` covers that bucket. The lemmas take ids without `/`, as `randomUUID` gives.
- The web front-ends are not part of this model.
