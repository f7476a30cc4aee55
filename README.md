# Rhythm backend, modelled in Dafny

Rhythm is a music-streaming backend built on Django REST Framework. This project models the core of it:

- **Home feed.** The personalised home feed is built from seven section builders. It produces an id-keyed map of normalised tracks, is kept in a five-minute cache, and has a per-section pager.
- **Customer actions.** Favourites, playlist track edits and the recently-played list.
- **Music catalogue actions.** The catalogue's listing filters, `stream`, upload (`create`), `trending`, `discover` and `search`, with the broadcaster counters they bump.
- **Serializers.** Localised titles, `is_favorited`, the three related-track lists, and the either-file-or-URL validators.
- **Advertisements.** Serving (active, date window, priority order), impression and click tracking, and analytics.
- **Accounts.** Roles, the user manager, broadcaster profiles and their verification, registration and the login token claims.
- **Permissions and envelopes.** The permission classes and the per-action permission lists; the `success_response` / `error_response` envelopes; the upload size validators.

The database is replaced by in-memory tables:

- The catalogue tables are sequences of records held by the class `Catalog.MusicDb`, which the views update in place.
- The account tables are held by `Accounts.AccountDb`; the ad and event tables by `Ads.AdStore`.
- An advertisement is the class `Ads.Advertisement`, whose counters the tracking actions increment.
- The feed cache is `FeedCache.HomeCache`, a map from keys to entries with an expiry instant.
- An ORM query becomes a function over a snapshot (`Catalog.Library`) built from the generic `Ranking.Filter`, `Ranking.SortDesc` (a stable sort by a descending key) and `Ranking.Cap`.
- Clocks are integer parameters (`now`). The configured language list of the translation layer and the upload size limits are parameters too.

Each module follows one source file:

| module | source |
|---|---|
| `Envelope` | `api/response.py` |
| `Validators` | `music/validators.py` |
| `Accounts` | `accounts/models.py` |
| `Permissions` | `accounts/permissions.py` and the `get_permissions` methods of the view sets |
| `AccountViews` | `accounts/views.py` |
| `AccountSerializers` | `accounts/serializers.py` |
| `Catalog` | `music/models.py` |
| `MusicSerializers` | `music/serializers.py` |
| `MusicViews` | `music/views.py` |
| `HomeFeed`, `FeedCache`, `SectionPager`, `CustomerViews` | `music/customer_views.py` |
| `Ads` | `music/ads_models.py` and `music/ads_views.py` |

Three modules are shared infrastructure: `Wrappers` (`Option`, `Result`), `Ranking` (query building blocks and their lemmas) and `Text` (decimal ids, split/join/strip, ASCII lower-casing, substring search).

Where the code and its documentation disagree, the model follows the code:

- **Cache-hit message.** A feed served from the cache answers with the default message "Success"; only a freshly built feed says "Home feed loaded successfully".
- **Pager order.** The pager's `recently_played` and `favorites` queries filter by id and so come in the catalogue's default order, newest track first, not in play or favourite order.
- **Pager `recommended_for_you`.** It does not exclude recently played tracks, unlike the feed's section. Its missing `.distinct()` is listed under Findings: `SectionPager.ForYouRowsAsWritten` is the query as written, and the pager's dispatch `SectionPager.SectionQuery` serves the corrected query.
- **Missing profile.** A user without a profile gets the key language 'en' from `list`, but `get_home_sections` then fails on `user.profile`. This is modelled as the error `ProfileMissing`, a server error. The pager's two profile-reading slugs fail the same way (`NoProfile`).
- **`discover`.** It looks the tag up with a case-insensitive `get`. Tag names are unique only case-sensitively, so two tags can match; the unhandled `MultipleObjectsReturned` is a server error (500).
- **`stream`.** The action is not in any of the anonymous lists of `get_permissions`, so it is reachable only by a signed-in user. The model still keeps the anonymous branch of the method.
- **`by_placement` and `analytics`.** Neither is in the ad view set's anonymous list, so both are admin-only as written.

## Model

| member | source | states |
|---|---|---|
| Envelope.SuccessResponse | api/response.py:6-25 | the dictionary has exactly `success`, `message`, plus `data` iff data is given; `success` is true and the message is the one given |
| Envelope.ErrorResponse | api/response.py:28-47 | exactly `success`, `message`, plus `errors` iff errors are given; `success` is false |
| Envelope.SuccessRoundTrip | api/response.py:22-23 | a client reads back exactly the data it was sent, and a success has no `errors` key |
| Envelope.ErrorRoundTrip | api/response.py:44-45 | a client reads back exactly the errors sent, and an error has no `data` key |
| Envelope.SuccessAndErrorDiffer | api/response.py:17-20 | no success dictionary equals an error dictionary |
| Validators.CheckFileSize | music/validators.py:6-13 | the file is refused iff its size exceeds the limit; the reported limit is the whole number of MB in it (floor division by 1024*1024) |
| Validators.ValidateAudioFileSize | music/validators.py:6-13 | an audio file passes iff size <= limit, otherwise the audio error with `max_size // MB` |
| Validators.ValidateImageFileSize | music/validators.py:16-23 | an image passes iff size <= limit, otherwise the image error with `max_size // MB` |
| Validators.LimitIsInclusive | music/validators.py:9 | a file exactly at the limit passes, one byte more fails |
| Accounts.ParseProfileLanguage | accounts/models.py:83-85 | a code is read only as the profile language whose stored code it is |
| Accounts.ProfileLanguageRoundTrip | accounts/models.py:83-85 | each profile language is read back from its code, which is 'en' or 'ar' |
| Accounts.NewProfile | accounts/models.py:93-98 | a new profile has language 'en' and no favourite artists |
| Accounts.NewBroadcaster | accounts/models.py:143-157 | a new broadcaster profile is PENDING, not verified, with zero uploads and plays |
| Accounts.BroadcasterOf | accounts/models.py:137-142 | the profile found belongs to the user; none is found iff no profile has that user |
| Accounts.NewUser | accounts/models.py:44-50 | the new user keeps the given fields; the role defaults to CUSTOMER, staff and superuser to false, active to true; email not verified |
| Accounts.SuperuserFields | accounts/models.py:21-29 | staff, superuser and active default to true and role to ADMIN; an explicit false for staff (first) or superuser is refused with that error |
| Accounts.DefaultSuperuserIsAdmin | accounts/models.py:19-31 | a superuser created without extra fields is an active staff superuser with the admin role |
| Accounts.AccountDb.constructor | accounts/models.py:6 | the user and broadcaster tables start empty |
| Accounts.AccountDb.CreateUser | accounts/models.py:9-17 | an empty email (or one already registered, the unique column) creates nothing and fails; otherwise exactly the new user is appended |
| Accounts.AccountDb.CreateSuperuser | accounts/models.py:19-31 | the superuser checks come first, then `create_user`; a created superuser is staff and superuser, and the user id counter advances by one exactly when a user is created |
| Permissions.IsVerifiedBroadcasterGrant | accounts/permissions.py:53-66 | anonymous: no; admin: yes; broadcaster: iff they have a verified profile; customer: no |
| Permissions.IsOwnerOrAdminGrant | accounts/permissions.py:72-82 | an admin always passes; an owned object passes iff owned by the requester; a user record iff it is the requester |
| Permissions.BroadcasterOrAdminIsDisjunction | accounts/permissions.py:40-45 | the broadcaster-or-admin check is the disjunction of the two role checks |
| Permissions.RoleGrantsExclusive | accounts/permissions.py:7-34 | no request passes two of the role checks; an anonymous one passes none |
| Permissions.MusicAccess | music/views.py:139-146 | create needs a verified broadcaster (or admin); update/destroy a broadcaster or admin; list/trending/discover/search anyone; other actions a signed-in user |
| Permissions.BroadcasterAccess | accounts/views.py:91-98 | verify/reject need an admin; update/destroy need the owner or an admin; the rest a signed-in user |
| Permissions.AdAccess | music/ads_views.py:22-25 | list, retrieve and both tracking actions are open to anyone; every other ad action needs an admin |
| AccountViews.ProfileQueryset | accounts/views.py:60-63 | an admin sees every profile; anyone else exactly their own |
| AccountViews.BroadcasterQueryset | accounts/views.py:100-105 | an admin sees all broadcaster profiles, a broadcaster exactly their own, a customer none |
| AccountViews.PromoteToBroadcaster | accounts/serializers.py:116-118 | only the requesting user's row changes, and only its role becomes BROADCASTER |
| AccountViews.WithStatus | accounts/views.py:134-135 | only the profile with that key changes, and only its status |
| AccountViews.CreateBroadcaster | accounts/views.py:107-128 | a user who already has a profile gets 400 and nothing changes; otherwise the user becomes a broadcaster and one pending profile linked to them is added (201); the profile id counter advances by one only then |
| AccountViews.SetVerificationStatus | accounts/views.py:131-156 | an unknown key gives 404 and no change; otherwise the profile gets the new status from any prior status and is returned with 200 |
| AccountViews.VerifyBroadcaster | accounts/views.py:131-142 | after `verify` the returned profile is verified |
| AccountViews.RejectBroadcaster | accounts/views.py:145-156 | after `reject` the returned profile is rejected |
| AccountViews.VerifiedAfterVerify | accounts/views.py:134 | the verified profile passes `is_verified`; a rejected one does not |
| AccountViews.BroadcasterMe | accounts/views.py:159-168 | 404 iff the user has no broadcaster profile; otherwise that user's own profile |
| AccountSerializers.ValidateRegistration | accounts/serializers.py:53-58 | refused iff the passwords differ, with the error under `password`; otherwise the attributes unchanged |
| AccountSerializers.ManagerArguments | accounts/serializers.py:60-63 | `create` passes names and role on and no staff, superuser or active flag (`password2` is dropped) |
| AccountSerializers.Register | accounts/views.py:35-46 | registration succeeds iff the passwords match and the email is non-empty and new; the user is created with the first password, and the user id counter advances by one only then |
| AccountSerializers.RegistrationMayChooseAnyRole | accounts/serializers.py:45-47 | the role is a writable registration field, so a registrant obtains any role (admin included), without staff flags |
| AccountSerializers.TokenClaims | accounts/serializers.py:70-78 | the token gains `email`, `role`, `is_email_verified` equal to the user's fields and keeps every other claim |
| AccountSerializers.ClaimsDetermineFields | accounts/serializers.py:74-76 | equal custom claims mean equal email, role and verification flag |
| AccountSerializers.LoginUserDict | accounts/serializers.py:84-91 | the login `user` dictionary has exactly the six keys, each equal to the user's field |
| Catalog.ParseLanguage | music/models.py:120-129 | a code is read only as the track language whose stored code it is |
| Catalog.LanguageRoundTrip | music/models.py:120-129 | every language is read back from its code, so the codes are distinct |
| Catalog.NewTrack | music/models.py:159-184 | a new track has play count 0, duration 0 and language ENGLISH unless given, its creation time and its uploader |
| Catalog.FindTrack | music/views.py:197 | the track found has the id; none is found iff no track has it |
| Catalog.UpsertPlay | music/views.py:204-208 | the existing (user, track) row gets the new time, otherwise one row is appended |
| Catalog.UpsertPlayProperties | music/models.py:266 | the upsert keeps one row per (user, track), stamps that pair's row with now, keeps every other row, and adds a row iff the pair had none |
| Catalog.MusicDb.IncrementPlayCount | music/models.py:202-205 | play count rises by exactly one on that row and nothing else changes |
| Catalog.MusicDb.RecordPlay | music/views.py:203-208 | the play table becomes the upsert and no other table changes |
| MusicSerializers.RequireFileOrUrl | music/serializers.py:208-214 | the data passes unchanged iff the file or the URL is present and non-empty |
| MusicSerializers.ValidateArtist | music/serializers.py:15-21 | an artist passes unchanged iff it has an image or an image URL; otherwise the stated message |
| MusicSerializers.ValidateAlbum | music/serializers.py:51-57 | an album passes unchanged iff it has a cover image or a cover URL |
| MusicSerializers.ValidateUpload | music/serializers.py:208-214 | an upload passes unchanged iff it has an audio file or an audio URL |
| MusicSerializers.CreatedAlbum | music/serializers.py:59-64 | a created album gets the artists given, or none |
| MusicSerializers.UpdatedAlbum | music/serializers.py:66-71 | the artist set is replaced only when an artist list is given; given fields replace the stored ones |
| MusicSerializers.UpdateWithoutArtistsKeepsArtists | music/serializers.py:67-70 | repeated updates without an artist list never change the album's artists |
| MusicSerializers.LocalizedTitle | music/serializers.py:313-316 | the translated title when the field exists and is non-empty, the base title otherwise |
| MusicSerializers.Titles | music/serializers.py:307-317 | one entry per configured language code |
| MusicSerializers.GetTitles | music/serializers.py:307-317 | the loop builds exactly the titles dictionary; each value is the base title or that language's translation |
| MusicSerializers.TitlesNeverEmpty | music/serializers.py:314 | a track with a title has a non-empty title in every language |
| MusicSerializers.EnglishFallsBackToTitle | music/serializers.py:315-316 | without an English translation field the English entry is the base title |
| MusicSerializers.IsFavorited | music/serializers.py:322-326 | false without a request or for an anonymous one; otherwise true iff the user has a favourite row for the track |
| MusicSerializers.ArtistNames | music/serializers.py:319-320 | every name listed is the name of one of the track's artists |
| MusicSerializers.AlbumTitle | music/serializers.py:295 | null without an album; with one, present iff some album row has the track's album id, and then the title of the first such row |
| MusicSerializers.Normalize | music/serializers.py:291-305 | the projection keeps id, play count, duration, language and media URLs; its titles, artist names and album title are those of `get_titles`, the artists' names and the album's title; it is favourited iff the requester is signed in and has a favourite row for the track |
| MusicSerializers.RelatedByAlbumProperties | music/serializers.py:125-130 | empty without an album; otherwise other tracks of the same album, newest first, at most 10, each once |
| MusicSerializers.RelatedByArtistProperties | music/serializers.py:132-139 | other tracks sharing an artist and not on the track's album, at most 10, each once |
| MusicSerializers.NoArtistsNoRelatedByArtist | music/serializers.py:134-135 | a track without artists has no related-by-artist tracks |
| MusicSerializers.RelatedByTagsProperties | music/serializers.py:141-152 | empty without tags; otherwise other tracks sharing a tag, sharing no artist and not on the album, at most 10, each once |
| MusicSerializers.RelatedByAlbumComplete | music/serializers.py:125-130 | no qualifying track left out is newer than a listed one; every qualifying track is listed unless the list is full at 10 |
| MusicSerializers.RelatedByArtistComplete | music/serializers.py:132-139 | no qualifying track left out is newer than a listed one; every qualifying track is listed unless the list is full at 10 |
| MusicSerializers.RelatedByTagsComplete | music/serializers.py:141-152 | no qualifying track left out is newer than a listed one; every qualifying track is listed unless the list is full at 10 |
| MusicSerializers.RelatedListsDisjoint | music/serializers.py:125-152 | the three related lists share no track and none holds the track itself |
| MusicViews.TagNamesOfJoin | music/views.py:159 | names without commas or outer spaces, joined with commas, are read back one by one |
| MusicViews.MusicQuerysetProperties | music/views.py:148-172 | a track is listed iff it is in the catalogue and meets every filter whose parameter is given; newest first |
| MusicViews.MusicQuerysetRows | music/views.py:148-172 | each catalogue row is listed at most once; with no parameter the listing is the whole catalogue |
| MusicViews.TrendingProperties | music/views.py:226 | at most 20 tracks (all when fewer), most played first, none left out played more than one listed |
| MusicViews.DiscoverErrorReply | music/views.py:234-249 | a missing tag answers 400, an unknown tag 404, several matching tags 500; none succeeds |
| MusicViews.MatchingTags | music/views.py:241 | exactly the tags whose name equals the parameter ignoring case |
| MusicViews.Discover | music/views.py:231-249 | refused as required iff the tag is missing or empty; not found iff no tag name matches ignoring case; the multiple-tags error iff more than one tag matches; succeeds iff exactly one tag matches, and then answers the top tracks of that tag |
| MusicViews.TaggedTopProperties | music/views.py:242 | at most 50 tracks carrying the tag, most played first, none left out played more than one listed |
| MusicViews.DiscoverNeedsOneTag | music/views.py:241 | a name matching two tags fails with the multiple-tags error |
| MusicViews.Search | music/views.py:254-260 | refused with "Search query is required" iff the query is empty |
| MusicViews.ContainsItself | music/views.py:264 | a title contains itself ignoring case |
| MusicViews.SearchProperties | music/views.py:263-277 | a track is found iff its title, an artist name or its album title contains the query ignoring case and the language and tag filters hold; newest first; each once |
| MusicViews.SearchFindsTitle | music/views.py:263-267 | a track is always found by its own full title |
| MusicViews.BroadcasterOfTail | accounts/models.py:137-142 | the user's profile is the first one or lies in the rest, and only once |
| MusicViews.BumpCounterTotal | music/views.py:211-214 | the counter's total over all profiles rises by one iff the user has a profile; the other counter is unchanged |
| MusicViews.FindListedProperties | music/views.py:148-172 | a found track is a catalogue row with the key that passes every given filter; nothing is found iff every row with the key fails a filter |
| MusicViews.FindListedInQueryset | music/views.py:148-172 | the detail lookup finds a track iff the filtered listing holds one with the key, and the track found is a listed one |
| MusicViews.Stream | music/views.py:195-220 | a track that is unknown or filtered out by the `language`, `tags`, `artist_id` or `album_id` parameters: 404 and no change; otherwise play count +1, the play upserted for a signed-in listener, and, for a signed-in listener, the uploader's `total_plays` +1 when the uploader has a broadcaster profile |
| MusicViews.PlayAt | music/views.py:199-214 | the found track's play count +1, the listener's play upserted when signed in, and the uploader's `total_plays` +1 when signed in; nothing else changes |
| MusicViews.Credit | music/views.py:181-184 | the user's broadcaster profile counter is bumped in place; users and identifiers are untouched and the store stays valid |
| MusicViews.Create | music/views.py:174-192 | an invalid upload is refused with 400 and no change; otherwise one new track and the uploader's `total_uploads` +1 when they have a profile; the artist, album, tag, play, favourite and playlist tables are unchanged either way |
| HomeFeed.ParseSlug | music/customer_views.py:334-356 | a slug name is read iff it is one of the seven names |
| HomeFeed.SlugRoundTrip | music/customer_views.py:334-356 | every slug is read back from its name |
| HomeFeed.FeedLanguage | music/customer_views.py:275-276 | ARABIC exactly for a profile in 'ar', ENGLISH exactly for 'en' |
| HomeFeed.EmitPolicy | music/customer_views.py:202-285 | the feed is the seven builders' outputs concatenated in the fixed order |
| HomeFeed.StepValue | music/customer_views.py:204-210 | a builder contributes its section iff it runs and finds something, and its ids then join the set |
| HomeFeed.AddRecentlyPlayed | music/customer_views.py:203-210 | appends the recently-played section and its ids exactly when non-empty |
| HomeFeed.AddFavorites | music/customer_views.py:213-220 | appends the favourites section and its ids exactly when non-empty |
| HomeFeed.AddRecommendedForYou | music/customer_views.py:223-236 | appends the for-you section when the profile names favourite artists and a track qualifies |
| HomeFeed.AddRecommendedMood | music/customer_views.py:239-250 | appends the mood section when the user has plays, their tags are non-empty and a track qualifies |
| HomeFeed.AddTrending | music/customer_views.py:253-261 | appends the trending section when the catalogue is non-empty |
| HomeFeed.AddNewReleases | music/customer_views.py:264-272 | appends the new-releases section when the catalogue is non-empty |
| HomeFeed.AddPopularLanguage | music/customer_views.py:275-285 | appends the language section when a track is in the profile's language |
| HomeFeed.BuildHomeSections | music/customer_views.py:197-287 | the step-by-step build equals the specification of the feed, and the gathered id set is the union of the sections' items |
| HomeFeed.EmitSound | music/customer_views.py:199-285 | every emitted section is one its own builder produced |
| HomeFeed.EmitComplete | music/customer_views.py:199-285 | every section a builder produces is emitted |
| HomeFeed.EmitOrdered | music/customer_views.py:199-285 | builders run in increasing position emit sections in that order |
| HomeFeed.ItemIdsMembers | music/customer_views.py:210-285 | the gathered ids are exactly the ids some section lists |
| HomeFeed.BuildersShape | music/customer_views.py:204-285 | each builder emits at most one non-empty section, titled and slugged as its own, exactly when it runs and finds something |
| HomeFeed.PolicyOrderRanks | music/customer_views.py:202-285 | the seven builders run once each, in the fixed order |
| HomeFeed.HomeFeedShape | music/customer_views.py:197-287 | with a profile: sections in the fixed order, none empty, a slug appears iff its builder runs and finds something, ids = union of items; without one the feed fails |
| HomeFeed.SectionsShape | music/customer_views.py:197-287 | the sections built for a profiled user are in the fixed order, none is empty, each lists its builder's items, a slug appears iff its builder runs and finds something, and the ids are the union of the items |
| HomeFeed.RecentlyPlayedSection | music/customer_views.py:203 | at most 10 of the user's plays, latest first, none left out later than one listed, each track once |
| HomeFeed.RecentPlaysMaximal | music/customer_views.py:203 | no play of the user left out of the section is later than one listed |
| HomeFeed.RecentlyPlayedDistinct | music/customer_views.py:203 | with one play row per (user, track), the section lists each track once |
| HomeFeed.FavoritesSection | music/customer_views.py:213 | at most 15 of the user's favourites, newest first, none left out newer than one listed, each track once |
| HomeFeed.RecentFavoritesMaximal | music/customer_views.py:213 | no favourite of the user left out of the section is newer than one listed |
| HomeFeed.FavoriteIdsDistinct | music/customer_views.py:213 | with one favourite row per (user, track), the section lists each track once |
| HomeFeed.FilteredTopTracks | music/customer_views.py:225-278 | a filtered, ordered, sliced query holds at most k matching catalogue tracks, ordered, none left out ranking above one listed, each once |
| HomeFeed.TopTracks | music/customer_views.py:253-265 | an ordered, sliced query holds the first k tracks (all when fewer), ordered, none left out ranking above one listed, each once |
| HomeFeed.RecommendedForYouSection | music/customer_views.py:225-229 | at most 15 distinct tracks by a favourite artist, none recently played, most played first, none left out played more |
| HomeFeed.RecommendedMoodSection | music/customer_views.py:240-243 | at most 15 distinct tracks sharing a tag with the first five plays, none recently played, most played first |
| HomeFeed.TrendingSection | music/customer_views.py:253-254 | the 15 most played tracks (all when fewer), most played first, each once |
| HomeFeed.NewReleasesSection | music/customer_views.py:264-265 | the 15 newest tracks (all when fewer), newest first, each once |
| HomeFeed.PopularLanguageSection | music/customer_views.py:275-278 | at most 15 tracks in ARABIC for 'ar' and ENGLISH for 'en', most played first, each once |
| HomeFeed.PopularTracks | music/customer_views.py:275-278 | for one catalogue language: at most 15 tracks of that language, most played first, none left out that was played more than one kept, each once |
| HomeFeed.FeedSectionsAreCandidates | music/customer_views.py:204-285 | every feed section lists exactly what its builder found |
| HomeFeed.FeedExcludesRecent | music/customer_views.py:225-243 | neither recommendation section lists a recently played track |
| HomeFeed.FeedSectionsDistinct | music/customer_views.py:203-278 | over a well-formed database no section lists a track twice |
| HomeFeed.KeyedByDecimal | music/customer_views.py:311-312 | keying the map by `str(id)` loses no entry: the keys are exactly the decimal forms of the ids, and each entry is read back under its id's decimal key |
| HomeFeed.MusicMapReadBack | music/customer_views.py:311-312 | every key is a decimal gathered catalogue id, and its entry is that track's projection |
| HomeFeed.MusicMapCoversIds | music/customer_views.py:311-312 | every gathered id naming a catalogue track has an entry |
| FeedCache.Lookup | music/customer_views.py:304-305 | a read returns the stored value iff the key is stored and not yet expired |
| FeedCache.HomeCache.constructor | music/customer_views.py:304 | the cache starts empty |
| FeedCache.HomeCache.Get | music/customer_views.py:304 | `cache.get` is the lookup |
| FeedCache.HomeCache.Set | music/customer_views.py:320 | `cache.set` stores the value under the key with its expiry and changes no other key |
| FeedCache.StoredFeedServed | music/customer_views.py:319-320 | a stored feed is served for 300 seconds and not after, other keys unaffected |
| FeedCache.FeedLanguageCode | music/customer_views.py:296-299 | the key language is the profile's code, or 'en' without a profile |
| FeedCache.CacheKeyInjective | music/customer_views.py:301 | distinct users or languages never share a cache key |
| FeedCache.ListHome | music/customer_views.py:291-325 | a hit returns the stored data unchanged with "Success" and writes nothing; a miss without a profile fails and writes nothing; a miss with one builds the feed and map, stores it for 300 s and answers "Home feed loaded successfully" |
| SectionPager.InvalidSlugReply | music/customer_views.py:356 | an unknown slug answers 404 with `success` false |
| SectionPager.PagerErrorReply | music/customer_views.py:343-356 | an unknown slug answers 404, a profile-reading slug for a user without a profile a server error; neither succeeds |
| SectionPager.Repeat | music/customer_views.py:346 | n copies of a row |
| SectionPager.MatchingArtistsPositive | music/customer_views.py:346 | a track joins at least once iff one of its artists is a favourite |
| SectionPager.ArtistJoinMembers | music/customer_views.py:346 | the undistinct join lists exactly the tracks by a favourite artist |
| SectionPager.UnknownSlugRefused | music/customer_views.py:334-356 | a slug is refused iff it is none of the seven names, and the pager's reply to it is the 404 with "Invalid section slug" |
| SectionPager.SectionRows | music/customer_views.py:334-354 | per slug, exactly which catalogue tracks are listed and in which order, uncapped |
| SectionPager.PagerNeedsProfile | music/customer_views.py:345-352 | without a profile exactly the two profile-reading slugs fail |
| SectionPager.PagerForYouKeepsRecent | music/customer_views.py:344-346 | the pager lists a recently played track by a favourite artist that the feed's section excludes |
| SectionPager.ForYouRowsDistinct | music/customer_views.py:344-346 | the corrected query lists each track once |
| SectionPager.DuetJoin | music/customer_views.py:346 | a track by two favourite artists joins twice |
| SectionPager.ForYouAsWrittenDuplicates | music/customer_views.py:344-346 | as written, that track is listed twice; the corrected query lists it once |
| CustomerViews.FavoriteErrorReply | music/customer_views.py:128-176 | unknown music and not-favourited answer 404, the other refusals 400; none succeeds |
| CustomerViews.AddFavorite | music/customer_views.py:124-155 | music-id-required iff `music_id` is missing or 0; music-not-found iff no such track; already-favourited iff the pair has a row; otherwise exactly one row appended |
| CustomerViews.RemoveFavorite | music/customer_views.py:158-176 | music-id-required iff `music_id` is missing or 0; not-favourited iff the pair has no row; otherwise the pair's row is gone and every other row stays |
| CustomerViews.PairCountAbsent | music/models.py:292 | a pair with no favourite has no row |
| CustomerViews.AddFavoriteOnce | music/customer_views.py:143-149 | after an add the pair has exactly one row, the table keeps one row per pair, and a second add is refused |
| CustomerViews.RemoveUndoesAdd | music/customer_views.py:149-170 | removing a favourite just added restores the table |
| CustomerViews.RemoveFavoriteOne | music/customer_views.py:169-170 | a removal deletes exactly one row and leaves the pair unfavourited |
| CustomerViews.FilterKeepsUniqueFavorites | music/models.py:292 | removing rows keeps one row per pair |
| CustomerViews.CreateFavorite | music/customer_views.py:124-155 | the favourite table changes exactly as the add specifies (201 with the new row), or not at all with the refusal's reply |
| CustomerViews.DestroyFavorite | music/customer_views.py:158-176 | the favourite table changes exactly as the removal specifies, or not at all with the refusal's reply |
| CustomerViews.PlaylistQueryset | music/customer_views.py:27-34 | a playlist is visible iff it is the requester's own or public |
| CustomerViews.MyPlaylists | music/customer_views.py:105-111 | exactly the requester's own playlists |
| CustomerViews.EditTracksProperties | music/customer_views.py:59-102 | not found iff no visible playlist has the key; not-owner only for a public playlist of someone else; success needs an existing track and success changes only that playlist's track set by adding or removing the track |
| CustomerViews.EditTracksOnFound | music/customer_views.py:59-102 | given the first visible playlist with the key: a non-owner is always refused as not owner; for the owner the track error happens iff the track id is missing or unknown, and otherwise the edit succeeds with exactly that playlist's track set changed |
| CustomerViews.RemoveUndoesAddTrack | music/customer_views.py:74-97 | removing a track just added restores the playlists |
| CustomerViews.TrackCountAfterEdit | music/models.py:238-240 | `track_count` moves by one exactly when the edit changes the set |
| CustomerViews.EditPlaylistTracks | music/customer_views.py:59-102 | the playlist table changes exactly as the edit specifies and a refusal changes nothing; when the first visible playlist with the key belongs to someone else the answer is the not-owner refusal (403); when it is the requester's and the track exists the reply succeeds and that playlist's track set gains or loses the track |
| CustomerViews.RecentlyPlayedListProperties | music/customer_views.py:183-190 | at most 50 of the user's plays, latest first, none left out later than one listed |
| Ads.Advertisement.constructor | music/ads_models.py:67-77 | a new ad has the given fields and zero impressions and clicks |
| Ads.Advertisement.Default | music/ads_models.py:24-77 | a default ad is a banner at HOME_TOP, active, priority 0, with no window and zero counts |
| Ads.Advertisement.IncrementImpression | music/ads_models.py:91-94 | impressions rise by exactly one; clicks unchanged |
| Ads.Advertisement.IncrementClick | music/ads_models.py:96-99 | clicks rise by exactly one; impressions unchanged |
| Ads.Advertisement.ClickThroughRate | music/ads_models.py:102-106 | 0 with no impressions; otherwise the fraction equal to clicks / impressions * 100 |
| Ads.ActiveAdsProperties | music/ads_views.py:27-44 | an ad is served iff active, at the given placement (when one is given) and inside its date window; priority descending, then newest first |
| Ads.ByPlacement | music/ads_views.py:47-55 | refused with "placement parameter is required" iff the placement is missing or empty |
| Ads.ByPlacementServesTopFive | music/ads_views.py:57 | the first five served ads, each active, in its window and at that placement |
| Ads.EventUser | music/ads_views.py:71-90 | the event's user is the requester iff signed in, null otherwise |
| Ads.CleanSessionIdProperties | music/ads_serializers.py:17-26 | a session id is accepted iff, once stripped of surrounding whitespace, it is non-blank, at most 100 characters and free of NUL; the value kept is that stripped value: non-empty, at most 100 characters, no longer than the one sent, with no whitespace at either end |
| Ads.CleanSessionIdKeepsClean | music/ads_serializers.py:17-26 | a session id that is already non-blank, at most 100 characters, NUL-free and without surrounding whitespace is kept exactly as sent |
| Ads.CleanSessionIdStable | music/ads_serializers.py:17-26 | cleaning is idempotent: an accepted session id, once cleaned, is accepted again unchanged |
| Ads.AdStore.constructor | music/ads_models.py:6 | the store starts empty |
| Ads.AdStore.Lookup | music/ads_views.py:65-84 | the ad found has the key and is served by the query; none found iff no served ad has the key |
| Ads.AdStore.ImpressAd | music/ads_views.py:66-79 | with the ad found: accepted iff `ad_id` is given and the session id is accepted; a refusal changes nothing; otherwise one impression row with the cleaned session id and that ad's impressions +1 |
| Ads.AdStore.ClickAd | music/ads_views.py:85-101 | with the ad found: accepted iff `ad_id` is given and the session id is accepted; a refusal changes nothing; otherwise one click row with the cleaned session id, that ad's clicks +1 and its click URL returned |
| Ads.AdStore.TrackImpression | music/ads_views.py:63-79 | not found for an ad the query does not serve; invalid data for a missing `ad_id` or a `session_id` the field refuses; succeeds iff neither; otherwise exactly one impression row carrying the cleaned session id, and impressions +1 on that ad only |
| Ads.AdStore.TrackClick | music/ads_views.py:82-101 | as for impressions, with one click row carrying the cleaned session id, clicks +1, and the click URL returned |
| Ads.AdStore.Analytics | music/ads_views.py:104-121 | exactly one row per ad, in the default order, each holding that ad's fields and rate |
| Text.ParseNatToString | music/customer_views.py:312 | a track id written with `str` is read back |
| Text.NatToStringInjective | music/customer_views.py:301-312 | two ids with the same decimal text are equal |
| Text.StripIsMiddle | music/views.py:159 | the stripped text is a slice of the input with only whitespace before and after it; `Text.Strip` itself ensures the slice neither starts nor ends with whitespace |
| Text.StripIdempotent | music/ads_serializers.py:20 | text without whitespace at either end is left unchanged by stripping, so stripping twice is stripping once |

## Left out

- Django's ORM, database and migrations: querysets are functions over in-memory sequences; database order among equal sort keys is taken to be table order (a stable sort).
- Pagination internals: the pager returns the whole ordered query; `PageNumberPagination` is not part of this model.
- The cache backend, its failures and concurrent writers: the cache is a map with integer expiry instants.
- Concurrency: the check-then-create race around favourites and the database's resolution of it are not modelled.
- Floating point: `click_through_rate` is modelled as an exact fraction, with its zero-impression guard.
- JWT and Google login, password hashing, `validate_password` and `normalize_email`: passwords are kept as given, without the serializer's trimming (see `AccountSerializers.Register` below), and emails are compared as given.
- Translation machinery: the configured language codes and the translated title fields are inputs.
- Case-insensitive matching folds ASCII letters only.
- Media files and storage: file and URL fields are optional strings; a file's size is a number.
- Framework-generated error texts: for the 404 "Not found." and for the field checks the model does model, it gives the status and marks the reply unsuccessful. One exception is `BroadcasterViewSet`'s 404, whose text "No Broadcaster matches the given query." is kept. The field checks named in the three lines below are not modelled at all, so the model neither refuses nor reports them.
- MusicViews.Create: the upload serializer's field checks are not modelled (music/serializers.py:180-214, music/models.py:120-160). These are the refusal of unknown `artist_ids`, `album_id` and `tag_ids`; the `audio_file` `FileExtensionValidator` and `validate_audio_file_size` (music/models.py:146-155); a missing, blank or over-200-character `title`; and URL validation of `audio_url` and `thumb_url`. The model refuses only when neither a file nor a URL is given.
- AccountViews.CreateBroadcaster: `bio` is stored as given. The serializer's `CharField(max_length=1000, allow_blank=True)` (accounts/serializers.py:110) trims it and refuses more than 1000 characters with a 400; neither is modelled.
- AccountSerializers.Register: `password` and `password2` are compared and stored as given. Their `CharField` defaults (accounts/serializers.py:33-43) trim both values and refuse a blank one, and the `EmailField` (accounts/models.py:43) refuses a malformed email with a 400; none of these is modelled.
- The playlist `create` action, `my_playlists`' `track_count` annotation, and the serializer output of the favourite, playlist and recently-played lists: the model returns the records.
- SearchFilter/OrderingFilter query parameters on the music list, and the plain CRUD of artists, albums and tags.
- MusicViews.Stream: the `search` parameter, which also narrows the detail lookup, is not applied; the model applies only the `get_queryset` filters.
- `PositiveIntegerField` upper bounds: counters and ids are unbounded naturals.
- Query parameters that are not numbers (`artist_id`, `album_id`, `music_id`) are taken to be numbers or absent.
- Admin classes, URL routing, settings, celery, wsgi/asgi and the exception handler wrapper are not part of this model.
- MusicSerializers.ArtistNames: states that every listed name is a name of one of the track's artists, not the full list in name order.
- MusicViews.Search: the contract states the error case; the found tracks are stated by MusicViews.SearchProperties.
- Ads.ByPlacement: the contract states the error case; the served ads are stated by Ads.ByPlacementServesTopFive.

## Findings

| source | as written | input that shows it | evidently intended | confidence | as-written member | corrected member |
|---|---|---|---|---|---|---|
| music/customer_views.py:344-346 | the pager's `recommended_for_you` filters on `artist__in=favorite_artists` without `.distinct()`, so the many-to-many join yields one row per matching artist | a catalogue with one track credited to artists 1 and 2, and a user whose favourite artists are 1 and 2: the track is listed twice | each qualifying track listed once, as the feed's own query at music/customer_views.py:225-227 does with `.distinct()` | not executed | SectionPager.ForYouAsWrittenDuplicates | SectionPager.ForYouRowsDistinct |
