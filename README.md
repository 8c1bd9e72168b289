# Huevify in Dafny

This project models the logic kernels of Huevify, a browser music-streaming app written in React/TypeScript. It covers:

- **The library and player store** (`StoreProvider`). This is one object whose actions update its fields:
  - playlists, with add, remove, like, create, edit and a confirmed delete;
  - a navigation history stack;
  - the bounded, de-duplicated recently-played list;
  - follow and album-like toggles, and the repeat-mode cycle;
  - next/previous queue selection;
  - per-artist play totals and global rank;
  - the listen-credit state machine that adds plays to a track after 30 seconds of listening.
- **The release wizards of the two artist hubs.** Both share the draft-track editor:
  - field update, reorder, artist tags and HUEQ autofill;
  - the step gates, the payload and store call a submit makes, and what the reset clears.
  - The newer hub also has the release listing of the moderator and artist dashboards.
  - The older hub also has the artist-pick search and the detail-modal derivations.
- **The two seed-catalogue generators.** They build 20 tracks and 4 albums, and every track belongs to exactly one album.
- **The read views of the pages:**
  - charts and an artist's popular tracks;
  - latest releases, the greeting and artist de-duplication of the home page;
  - the search filter;
  - the item, cover and control derivations of the playlist and album pages.
- **The sign-in screen and the playlist dialog.**
- **The `formatDuration` and `formatTime` renderers.**

## How it is organised

- **Shared modules:**
  - `Wrappers` (Option);
  - `Text` (decimal strings, `padStart`, ASCII lowering, substring search, JavaScript whitespace);
  - `Seqs` (filter, remove-all, order-preserving de-duplication, a stable descending insertion sort, take, sums, subsequences);
  - `Types` (the records of `types.ts` and `src/types.ts`).
- **Pure page logic** is datatypes, functions and lemmas, one module per page.
- **Stateful components are classes:**
  - the store `Store.Store`;
  - the wizards `ReleaseWizard.Wizard` and `LegacyReleaseWizard.LegacyWizard`;
  - the draft editor `DraftTracks.DraftEditor`;
  - the sign-in screen `Auth.AuthScreen`;
  - the playlist dialog `PlaylistModal.Dialog`.

  Each action method states its new state through a specification function. The properties of those functions are proved as lemmas.
- **Loops are imperative methods with invariants.** These are the seed generators' loops, the store's play-map loop and the array copy of the draft editor.

Randomness, clocks, the audio element and the store's login/register are parameters. An action takes `rand` in [0, 1), a clock in milliseconds, `audioPaused`, `playSucceeds`, or an outcome function.

## Model

| member | source | states |
|---|---|---|
| TimeFormat.Trunc | components/Player.tsx:9 | truncation toward zero: the floor for non-negative numbers, within one above for negative ones |
| TimeFormat.TwoDigitsFacts | components/Player.tsx:9-10 | a seconds field below 60 is padded to exactly two digits that read back as the number |
| TimeFormat.FloorSplit | pages/Home.tsx:5-9 | the minute field is floor(s)/60 and the seconds field floor(s) mod 60 for every non-negative s |
| TimeFormat.FormatDurationFields | src/pages/Home.tsx:5-9 | formatDuration renders floor(s/60), ":" and the two-digit seconds field, which is below 60 |
| TimeFormat.FormatDurationInjective | pages/Library.tsx:5-9 | two non-negative durations render the same exactly when their whole seconds agree |
| TimeFormat.FormatTimeAgrees | components/FullScreenPlayer.tsx:9-14 | formatTime, including its falsy-zero case, renders the same string as formatDuration on every input |
| TimeFormat.MinuteBoundary | components/Player.tsx:6-11 | 59 seconds render "0:59" and 60 seconds "1:00" |
| Text.NatToString | components/Player.tsx:10 | a number's decimal text is a non-empty digit string, one digit exactly below 10 |
| Text.ParseNatToString | components/Player.tsx:10 | reading a number's decimal text back gives the number |
| Text.NatToStringInjective | components/Player.tsx:10 | different numbers have different decimal texts |
| Text.Lower | pages/Search.tsx:10 | lowering keeps the length and lowers every character on its own |
| Text.IncludesMeansSubstring | pages/Search.tsx:10-12 | `includes` holds exactly when the pattern occurs at some position |
| Types.FindTrack | pages/Library.tsx:210 | finds a track with the id exactly when one exists, and returns a catalogue track carrying it |
| Types.FindTrackFirst | pages/Library.tsx:210 | the track found is the first one carrying the id |
| Preferences.ToggleMember | context/StoreContext.tsx:247-255 | the item's membership flips, no other item's changes, an absent item is appended and removal keeps the order |
| Preferences.ToggleKeepsNoDup | context/StoreContext.tsx:501-507 | toggling keeps a duplicate-free list duplicate-free |
| Preferences.ToggleTwice | context/StoreContext.tsx:247-255 | toggling an absent item twice restores the list; toggling twice never changes membership |
| Preferences.NextMode | context/StoreContext.tsx:404-408 | the repeat mode always changes |
| Preferences.RepeatCycle | context/StoreContext.tsx:404-408 | three toggles restore the mode and two never do |
| Navigation.SetView | context/StoreContext.tsx:205-211 | the new view is shown, and the old view is pushed only when it differs |
| Navigation.GoBack | context/StoreContext.tsx:218-226 | pops and shows the last view, or goes HOME with an empty history |
| Navigation.GoBackUndoesSetView | context/StoreContext.tsx:205-226 | going to a different view and back restores view and history |
| Playlists.FindPlaylist | context/StoreContext.tsx:486 | finds a playlist with the id exactly when one exists |
| Playlists.Apply | context/StoreContext.tsx:467-483 | every matching playlist is transformed, every other one kept |
| Playlists.AddToPlaylist | context/StoreContext.tsx:467-474 | each target that lacks the id gets it appended to its tracks and nothing else changes; a target already holding it is kept whole; other playlists are untouched |
| Playlists.RemoveFromPlaylist | context/StoreContext.tsx:476-483 | each target's tracks become the list with every occurrence of the id filtered out, every other id keeping its copies and order; no other field and no other playlist changes |
| Playlists.AddIdempotent | context/StoreContext.tsx:467-474 | adding twice is adding once |
| Playlists.RemoveUndoesAdd | context/StoreContext.tsx:467-483 | removing a just-added id restores the playlists when no target held it |
| Playlists.FindAfterApply | context/StoreContext.tsx:485-499 | the first playlist with an id is still the first after an id-keyed change, and carries the change |
| Playlists.ToggleLikeFlips | context/StoreContext.tsx:485-499 | the track's liked state flips when a 'liked' playlist exists, nothing changes otherwise, and no other track's liked state changes |
| Playlists.ToggleLikeTwice | context/StoreContext.tsx:485-494 | liking and unliking a track 'liked' did not hold restores the playlists |
| Playlists.CreatePlaylist | context/StoreContext.tsx:416-425 | appends one empty, non-system playlist `pl_<now>` with the given fields and keeps the others |
| Playlists.CreateThenFind | context/StoreContext.tsx:416-425 | a lookup of the fresh id finds the created playlist |
| Playlists.FindAppend | context/StoreContext.tsx:416-425 | a lookup that misses the front of a list searches the rest |
| Playlists.EditPlaylist | context/StoreContext.tsx:427-434 | replaces name, description and cover of the matching playlists, keeps their tracks and the other playlists |
| Playlists.EditIdempotent | context/StoreContext.tsx:427-434 | editing twice with the same values is editing once |
| Playlists.DeletePlaylist | context/StoreContext.tsx:446-461 | keeps exactly the playlists with another id, in order, so the id is no longer found |
| Playlists.DeleteUndoesCreate | context/StoreContext.tsx:416-461 | deleting a freshly created playlist gives back the playlists before it |
| Playback.Recent | context/StoreContext.tsx:324-329 | the played track heads the list, no other entry carries its id, the rest is a prefix of the other entries, at most 10 |
| Playback.RecentKeepsOrder | context/StoreContext.tsx:324-329 | the entries after the head are a subsequence of the previous list |
| Playback.RecentReplay | context/StoreContext.tsx:324-329 | playing the same track again leaves the list unchanged |
| Playback.IndexOfId | context/StoreContext.tsx:377 | the first index whose id is the current track's, or -1 when none or no current track |
| Playback.RandomIndex | context/StoreContext.tsx:373 | a random index is inside the queue |
| Playback.NextChoice | context/StoreContext.tsx:370-387 | in order: the next entry, at the end the first entry only in CONTEXT mode, otherwise stop; shuffle picks an in-range entry; an empty queue is a fault |
| Playback.PrevChoice | context/StoreContext.tsx:389-402 | restart after 3 seconds, otherwise the previous entry or the last one when at the head or absent |
| Playback.IndexOfDistinct | context/StoreContext.tsx:377 | with distinct ids the current track's index is its position |
| Playback.NextThenPrev | context/StoreContext.tsx:370-402 | next then previous (within 3 seconds) returns to the starting track |
| Playback.PrevThenNext | context/StoreContext.tsx:370-402 | previous then next returns to the starting track |
| ArtistStats.ArtistsOf | context/StoreContext.tsx:231-233 | the artist column of the catalogue, position by position |
| ArtistStats.TotalAbsent | context/StoreContext.tsx:238 | an artist without tracks has total 0 |
| ArtistStats.TotalIsFilterSum | context/StoreContext.tsx:231-233 | the play-map total is the sum of plays of the artist's tracks |
| ArtistStats.Order | context/StoreContext.tsx:235 | the map's keys in first-appearance order: duplicate-free, exactly the catalogue's artists |
| ArtistStats.Entries | context/StoreContext.tsx:235 | one pair per key, in key order, holding the artist's total |
| ArtistStats.Ranked | context/StoreContext.tsx:235 | the entries permuted into non-increasing total order |
| ArtistStats.FindName | context/StoreContext.tsx:236 | the first index with the name, or -1 exactly when none |
| ArtistStats.RankedEntry | context/StoreContext.tsx:229-245 | every ranked entry is a catalogue artist paired with its own total |
| ArtistStats.RankedHas | context/StoreContext.tsx:229-245 | every catalogue artist is in the ranking |
| ArtistStats.RankOfAbsent | context/StoreContext.tsx:243 | an artist with no track gets rank 999 and 0 monthly plays |
| ArtistStats.RankBounds | context/StoreContext.tsx:236-243 | a catalogue artist's rank lies between 1 and the number of artists, and different artists get different ranks |
| ArtistStats.RankRespectsTotals | context/StoreContext.tsx:235-243 | a strictly larger total ranks strictly higher |
| ArtistStats.MonthlyPlaysIsFloor | context/StoreContext.tsx:239 | total*45/100 is exactly floor(0.45 total), and at most the total |
| ListenCredit.Tick | context/StoreContext.tsx:270-277 | only a forward step below 1.5 s adds to the heard time, so it never decreases, and the last position becomes the new one |
| ListenCredit.Step | context/StoreContext.tsx:270-282 | a credit is attempted exactly when more than 30 s are heard, none was counted and a track is current; the counted flag is set by it |
| ListenCredit.AtMostOneCredit | context/StoreContext.tsx:260-282 | a run of updates with no track change attempts at most one credit, none once counted |
| ListenCredit.RunBounds | context/StoreContext.tsx:270-282 | heard time grows by less than 1.5 s per update, and a credit needs more than 30 s heard |
| ListenCredit.CreditNeedsTwentyOneUpdates | context/StoreContext.tsx:260-282 | from a fresh session a credit needs more than 20 position updates |
| ListenCredit.AddedPlays | context/StoreContext.tsx:313 | a credit adds between 100 and 9999 plays |
| ListenCredit.CreditPlays | context/StoreContext.tsx:313-316 | only the tracks carrying the id get the added plays, and only their plays change |
| ListenCredit.CreditPlaysSum | context/StoreContext.tsx:313-316 | the catalogue total grows by the added plays per matching track |
| ListenCredit.ListenCount | context/StoreContext.tsx:308-321 | nothing changes within the cooldown; after it the plays are credited and the credit time stored |
| ListenCredit.CooldownBlocksRecredit | context/StoreContext.tsx:308-321 | a second credit within one track duration of the first changes nothing |
| Store.MergePlays | context/StoreContext.tsx:121-124 | each track takes its stored play counter when there is one; nothing else changes |
| Store.SavedPlays | context/StoreContext.tsx:189-194 | the saved map has exactly the catalogue's ids as keys |
| Store.SavedPlaysLookup | context/StoreContext.tsx:189-194 | with distinct ids each id maps to its track's plays |
| Store.RestorePlays | context/StoreContext.tsx:116-194 | merging the saved counters over the same catalogue restores every counter |
| Store.PlayedSession | context/StoreContext.tsx:260-340 | after playTrack, the track is current and heads the list; a new track starts a fresh session; replaying keeps it, so no second credit |
| Store.Store.constructor | context/StoreContext.tsx:116-146 | the initial state: merged plays, the stored lists or a default 'liked' playlist, HOME, nothing playing |
| Store.Store.SetView | context/StoreContext.tsx:205-211 | the navigation is Navigation.SetView of the old one and the mobile player closes |
| Store.Store.GoToArtist | context/StoreContext.tsx:213-216 | navigates to the artist's view |
| Store.Store.GoBack | context/StoreContext.tsx:218-226 | the navigation is Navigation.GoBack of the old one |
| Store.Store.ArtistPlayMap | context/StoreContext.tsx:229-233 | the loop's map holds exactly the catalogue's artists, each with its total, keys in first-appearance order |
| Store.Store.GetArtistStats | context/StoreContext.tsx:229-245 | returns the ranking and floor result specified by ArtistStats.GetArtistStats |
| Store.Store.ToggleFollowArtist | context/StoreContext.tsx:247-257 | the followed list is toggled and the artist's followed state flips |
| Store.Store.ToggleAlbumLike | context/StoreContext.tsx:501-509 | the liked-album list is toggled and the album's liked state flips |
| Store.Store.ToggleRepeat | context/StoreContext.tsx:404-408 | the mode moves to the next in the cycle |
| Store.Store.ToggleShuffle | context/StoreContext.tsx:410-412 | shuffle flips |
| Store.Store.TogglePlay | context/StoreContext.tsx:342-350 | playing becomes whether the audio was paused |
| Store.Store.PlayTrack | context/StoreContext.tsx:323-340 | the player state is Played of the old one and the store stays valid |
| Store.Store.Seek | context/StoreContext.tsx:357-361 | position and last position jump to the target, so the next update adds nothing |
| Store.Store.NextTrack | context/StoreContext.tsx:370-387 | does what NextChoice picks: plays that entry, stops, or changes nothing |
| Store.Store.PrevTrack | context/StoreContext.tsx:389-402 | does what PrevChoice picks: rewinds, plays that entry, or changes nothing |
| Store.Store.Ended | context/StoreContext.tsx:284-291 | in ONE mode no player field changes, since only the audio rewinds; otherwise it acts as NextTrack |
| Store.Store.HandleListenCount | context/StoreContext.tsx:308-321 | for the current track, the catalogue and credit times are ListenCount of the old ones, the listen is marked counted, and the store stays valid |
| Store.Store.TimeUpdate | context/StoreContext.tsx:270-282 | the session advances by Step; a credit runs exactly when Step calls for it; a counted session changes no plays |
| Store.Store.CreatePlaylist | context/StoreContext.tsx:416-425 | the playlists are Playlists.CreatePlaylist of the old ones |
| Store.Store.EditPlaylist | context/StoreContext.tsx:427-434 | the playlists are Playlists.EditPlaylist of the old ones |
| Store.Store.AddToPlaylist | context/StoreContext.tsx:467-474 | the playlists are Playlists.AddToPlaylist of the old ones |
| Store.Store.RemoveFromPlaylist | context/StoreContext.tsx:476-483 | the playlists are Playlists.RemoveFromPlaylist of the old ones |
| Store.Store.ToggleLike | context/StoreContext.tsx:485-499 | the playlists are Playlists.ToggleLike of the old ones and the track's liked state flips when 'liked' exists |
| Store.Store.OpenDeleteModal | context/StoreContext.tsx:436-439 | the modal opens on the playlist |
| Store.Store.CloseDeleteModal | context/StoreContext.tsx:441-444 | the modal closes with no playlist |
| Store.Store.ConfirmDeletePlaylist | context/StoreContext.tsx:446-461 | without a target nothing happens; otherwise the playlist is deleted, an open page of it goes to the library, and the modal closes |
| Charts.TopOfSorted | pages/Library.tsx:34 | nothing left after the first k of a descending list outranks an entry kept |
| Charts.Top | pages/Library.tsx:34 | the smaller of n and the input length in entries of the input, descending, with no left-out entry ranking above a kept one |
| Charts.TopPrefix | pages/Home.tsx:14-15 | the first n of the top m are the top n |
| Charts.TopCharts | pages/Home.tsx:14 | the smaller of 25 and the catalogue size, a sub-multiset of the catalogue, by non-increasing plays, no left-out track above a kept one |
| LegacyHome.PreviewIsChartHead | pages/Home.tsx:15 | the preview is the first five chart entries: a sub-multiset of the catalogue, most played first, none outside above one inside |
| Home.PreviewCharts | src/pages/Home.tsx:14 | the first five entries of the daily chart, or all of a shorter one, in order |
| Home.LatestReleases | src/pages/Home.tsx:16-20 | at most 5 albums, a sub-multiset of the catalogue, newest first, with 1 January of the year as the date of an album without one, none left out newer |
| Home.Greeting | src/pages/Home.tsx:22-39 | the phrase for the hour's band in the chosen language |
| Home.PhrasesDistinct | src/pages/Home.tsx:26-34 | the six phrases differ from each other |
| Home.GreetingBands | src/pages/Home.tsx:36-38 | morning below 12, afternoon from 12 to 17, evening from 18, Russian exactly for 'Russian' |
| Home.AllArtists | src/pages/Home.tsx:100 | primary artist first, no duplicates, exactly the primary and main artists |
| Home.AllArtistsOrder | src/pages/Home.tsx:141 | names keep the order of their first occurrence |
| Search.FilteredTracks | pages/Search.tsx:9-13 | an order-preserving subsequence holding a track exactly when the lowered query occurs in its lowered title, artist or album |
| Search.EmptyQueryKeepsAll | pages/Search.tsx:9-13 | the empty query keeps every track |
| Search.PanelChoice | pages/Search.tsx:29-64 | categories exactly for an empty query, "no results" exactly for a query with no match, songs otherwise |
| LibraryPage.ArtistTracks | pages/Library.tsx:72 | exactly the catalogue tracks by the artist, in catalogue order |
| LibraryPage.TopTracks | pages/Library.tsx:73 | at most 5 of the artist's tracks, a sub-multiset of them, most played first, none left out above one kept |
| LibraryPage.TotalPlaysAgree | pages/Library.tsx:76-77 | the page's total equals the store's artist total, and monthly plays are 45% of it |
| LibraryPage.Resolve | pages/Library.tsx:210 | every resolved item is what a lookup of its id finds |
| LibraryPage.ResolveIds | pages/Library.tsx:210 | the items carry exactly the known ids, in listed order, and come from the catalogue |
| LibraryPage.ResolveAllKnown | pages/Library.tsx:219 | when every id is known every id gets its track, in order |
| LibraryPage.CoversAgree | pages/Library.tsx:204-209 | a grid tile shows an image exactly when the page header has a cover, the same one; a custom cover wins except on 'liked' |
| LibraryPage.FindAlbum | pages/Library.tsx:213 | finds an album with the id exactly when one exists |
| LibraryPage.PageControls | pages/Library.tsx:265-350 | edit and delete on non-system playlists, removal on playlists other than 'liked' and history, album like on album pages |
| LibraryPage.LikedPageLocked | pages/Library.tsx:265-350 | the default 'liked' page offers neither edit nor removal |
| LibraryPage.TotalMinutes | pages/Library.tsx:224-225 | the whole minutes of the summed durations |
| LibraryPage.TotalReleasePlays | pages/Library.tsx:226 | never negative and at least each item's plays |
| LibraryPage.PlaysBound | pages/Library.tsx:226 | the plays sum is never negative and bounds each item |
| SeedCatalog.Frac | services/data.ts:4-7 | the fractional part lies in [0, 1) |
| SeedCatalog.SeededRandom | services/data.ts:4-7 | the seeded fraction lies in [0, 1) |
| SeedCatalog.SeedDuration | services/data.ts:39 | a whole number of seconds from 180 to 299 |
| SeedCatalog.SeedPlays | services/data.ts:41 | at most 499999 plays |
| SeedCatalog.NamesInjective | services/data.ts:29-58 | different numbers give different track ids and album titles |
| SeedCatalog.MembersHas | services/data.ts:47-48 | album k lists track i exactly when i is generated and (i mod 4)+1 = k |
| SeedCatalog.MembersStep | src/services/data.ts:63 | one more track appends its id to its own album and no other |
| SeedCatalog.Partition | services/data.ts:47-59 | every track is in exactly one album, albums list only tracks, 5 per album |
| SeedData.AlbumCovers | src/services/data.ts:23-27 | three covers with seeds 10k+1 to 10k+3 |
| SeedData.SeedAlbums | src/services/data.ts:21-38 | albums a1 to a4 with their fields and no tracks |
| SeedData.PushTrackStep | src/services/data.ts:63 | appending track i extends each album's list to tracks 1..i |
| SeedData.SeedTracks | src/services/data.ts:41-64 | 20 tracks with their fields, each appended to its album in order |
| SeedData.GenerateInitialData | src/services/data.ts:41-64 | 20 tracks, 4 albums of 5, every track in exactly one album, whose title and first cover it carries |
| SeedData.ApiGetTracks | src/services/data.ts:70-77 | resolves to no tracks |
| SeedData.ApiGetAlbums | src/services/data.ts:70-77 | resolves to no albums |
| LegacySeedData.FilterOne | services/data.ts:48 | the title filter of album k keeps track n exactly when k is its album |
| LegacySeedData.AlbumFilter | services/data.ts:48 | filtering the first n tracks by album k's title gives its members |
| LegacySeedData.AlbumGroup | services/data.ts:48 | over the catalogue the filter gives exactly album k's members |
| LegacySeedData.SeedTracks | services/data.ts:29-44 | tracks t1 to t20 with artist, genre, cover, album, duration and plays of their number |
| LegacySeedData.PushAlbum | services/data.ts:47-58 | the album pushed for k extends the generated prefix |
| LegacySeedData.GroupAlbums | services/data.ts:47-58 | albums a1 to a4, each holding exactly its grouped tracks |
| LegacySeedData.GenerateInitialData | services/data.ts:29-58 | 20 tracks, 4 albums of 5, every track in exactly the album named by its title |
| DraftTracks.SetField | src/components/ArtistHub.tsx:187-193 | only the chosen field changes, to the new value |
| DraftTracks.ReplaceAt | components/ArtistHub.tsx:173-179 | the slot is replaced, length and every other slot kept |
| DraftTracks.SetFieldLaws | components/ArtistHub.tsx:173-179 | setting an unchanged value is a no-op; setting twice keeps the last |
| DraftTracks.Moved | src/components/ArtistHub.tsx:195-209 | a permutation swapping with the neighbour in the direction, or the same list at an edge |
| DraftTracks.Swapped | src/components/ArtistHub.tsx:205 | the two slots exchanged, all else kept, same multiset |
| DraftTracks.SwapMultiset | src/components/ArtistHub.tsx:205 | a swap keeps the multiset |
| DraftTracks.SwapTwice | src/components/ArtistHub.tsx:205 | swapping twice restores the list |
| DraftTracks.MoveUpThenDown | src/components/ArtistHub.tsx:195-209 | up then down restores the order |
| DraftTracks.MoveDownThenUp | src/components/ArtistHub.tsx:195-209 | down then up restores the order |
| DraftTracks.WithArtist | src/components/ArtistHub.tsx:212-227 | the name is appended to the main artists, nothing else changes |
| DraftTracks.WithoutArtist | components/ArtistHub.tsx:199-209 | every occurrence of the name leaves, the others stay in order, nothing else changes |
| DraftTracks.UntagUndoesTag | src/components/ArtistHub.tsx:212-239 | adding a new name and removing it restores the track |
| DraftTracks.Autofilled | components/ArtistHub.tsx:211-235 | title, explicit, feat, file, duration, genre and main artists come from the found track; the code is set |
| DraftTracks.AfterHueqBlur | src/components/ArtistHub.tsx:241-265 | an empty code changes nothing; any code is stored; a found one autofills; other slots are kept |
| DraftTracks.HueqBlurIdempotent | src/components/ArtistHub.tsx:241-265 | blurring the same code twice is blurring once |
| DraftTracks.DraftEditor.constructor | src/components/ArtistHub.tsx:54-61 | no tracks and no tag inputs |
| DraftTracks.DraftEditor.CopyTracks | src/components/ArtistHub.tsx:188-190 | a fresh array holding the track list |
| DraftTracks.DraftEditor.UpdateTrack | src/components/ArtistHub.tsx:187-193 | the list is the slot replaced by SetField of it |
| DraftTracks.DraftEditor.MoveTrack | src/components/ArtistHub.tsx:195-209 | the list is Moved of the old one |
| DraftTracks.DraftEditor.AddTrackArtist | components/ArtistHub.tsx:182-197 | an empty input changes nothing; otherwise the name is tagged on the track and its input cleared |
| DraftTracks.DraftEditor.RemoveTrackArtist | src/components/ArtistHub.tsx:229-239 | the track is WithoutArtist of the old one |
| DraftTracks.DraftEditor.HueqBlur | components/ArtistHub.tsx:211-235 | the list is AfterHueqBlur of the old one |
| DraftTracks.DraftEditor.Clear | src/components/ArtistHub.tsx:339-343 | no tracks and no tag inputs |
| ReleaseWizard.StepCheck | src/components/ArtistHub.tsx:267-285 | passes exactly when the step's gate holds; each error names its failing check, the moderator's artist check after the fields |
| ReleaseWizard.ReleaseLabel | src/components/ArtistHub.tsx:305 | the label, else the artist's name, else the entered name, else "Independent"; never empty |
| ReleaseWizard.FindRequest | src/components/ArtistHub.tsx:297 | finds a request with the id exactly when one exists |
| ReleaseWizard.Override | src/components/ArtistHub.tsx:296-299 | an override exactly for a moderator, named the entered artist or "Various Artists" |
| ReleaseWizard.SubmitCall | src/components/ArtistHub.tsx:287-323 | no call without date or time; an update exactly when editing with an id; otherwise a submission with the override; both carry the payload |
| ReleaseWizard.SubmitPromises | src/components/ArtistHub.tsx:296-323 | every call has a non-empty label and the draft tracks; edits are never submissions; the update's artist name |
| ReleaseWizard.PendingReleases | src/components/ArtistHub.tsx:1066 | exactly the artist's requests that are not live, in order |
| ReleaseWizard.LegacyAlbums | src/components/ArtistHub.tsx:553-554 | exactly the albums neither prefixed 'dist_alb_' nor requested, in order |
| ReleaseWizard.AsRelease | src/components/ArtistHub.tsx:555-575 | a live release with the album's id and one track per listed id |
| ReleaseWizard.AllDisplayReleases | src/components/ArtistHub.tsx:577 | a permutation of requests then legacy releases, newest first |
| ReleaseWizard.RequestsListed | src/components/ArtistHub.tsx:577 | every request is listed |
| ReleaseWizard.LegacyListed | src/components/ArtistHub.tsx:553-577 | every legacy album is listed as a release |
| ReleaseWizard.OnlyListed | src/components/ArtistHub.tsx:553-577 | nothing else is listed |
| ReleaseWizard.Wizard.constructor | src/components/ArtistHub.tsx:45-65 | step 1, "Pop", "00:00", empty fields, the sign-in view |
| ReleaseWizard.Wizard.NextStep | src/components/ArtistHub.tsx:267-285 | returns the gate's error, and the step advances by one exactly when there is none |
| ReleaseWizard.Wizard.ResetDistForm | src/components/ArtistHub.tsx:335-346 | step 1, and title, artist, tracks, covers, message, main artists, tag inputs and editing state cleared |
| ReleaseWizard.Wizard.BuildCall | src/components/ArtistHub.tsx:293-323 | with date and time, the call SubmitCall specifies |
| ReleaseWizard.Wizard.SubmitRelease | src/components/ArtistHub.tsx:287-346 | the call SubmitCall specifies and its notice; nothing changes without date or time; then the moderator or artist view and a reset that keeps type, genre, label, date and time |
| LegacyReleaseWizard.StepCheck | components/ArtistHub.tsx:237-251 | passes exactly when the step's gate holds, with no moderator check |
| LegacyReleaseWizard.StepCheckAgrees | components/ArtistHub.tsx:237-251 | agrees with the newer gate for non-moderators |
| LegacyReleaseWizard.ReleaseLabel | components/ArtistHub.tsx:265 | the label, else the artist's name; empty exactly when both are missing |
| LegacyReleaseWizard.SubmitPayload | components/ArtistHub.tsx:253-271 | no payload exactly without date or time; otherwise the form's fields |
| LegacyReleaseWizard.LabelsDiffer | components/ArtistHub.tsx:265 | without label or artist the older hub sends "" where the newer never sends an empty label |
| LegacyReleaseWizard.PickTracks | components/ArtistHub.tsx:994 | an order-preserving subsequence holding a track exactly when the lowered query is in its lowered title or artist |
| LegacyReleaseWizard.PickAlbums | components/ArtistHub.tsx:996 | the same for albums |
| LegacyReleaseWizard.SearchResults | components/ArtistHub.tsx:990-999 | empty for an empty query; otherwise at most 5 of each, the first matches, all matches when fewer than 5 |
| LegacyReleaseWizard.AllMainArtists | components/ArtistHub.tsx:693 | the release artist followed by its additional main artists |
| LegacyReleaseWizard.DurationBound | components/ArtistHub.tsx:717 | with non-negative durations the total is non-negative and bounds each track |
| LegacyReleaseWizard.TotalDurationSplit | components/ArtistHub.tsx:717 | the total is the first duration plus the rest's total |
| LegacyReleaseWizard.ShownHueq | components/ArtistHub.tsx:745 | the generated code, else the existing one, else "---"; never empty |
| LegacyReleaseWizard.LegacyWizard.constructor | components/ArtistHub.tsx:44-59 | step 1, "Pop", "00:00", empty fields, the sign-in view |
| LegacyReleaseWizard.LegacyWizard.NextStep | components/ArtistHub.tsx:237-251 | returns the gate's error, and the step advances by one exactly when there is none |
| LegacyReleaseWizard.LegacyWizard.BuildPayload | components/ArtistHub.tsx:259-271 | with date and time, the payload SubmitPayload specifies |
| LegacyReleaseWizard.LegacyWizard.SubmitRelease | components/ArtistHub.tsx:253-277 | the payload and notice; nothing changes without date or time; then the dashboard, step 1, title, tracks, covers, message, main artists and inputs cleared |
| Auth.RegisterCheck | components/Auth.tsx:38-46 | no error exactly for a complete, matching form; fill-all-fields for an incomplete one; mismatch only after completeness |
| Auth.RegistrationOf | components/Auth.tsx:48-53 | the request carries the form's fields, an empty avatar as absent |
| Auth.RegisterErrorOrder | components/Auth.tsx:34-58 | missing fields win over mismatch, which wins over refusal; no error exactly on success |
| Auth.NoIncompleteRegistration | components/Auth.tsx:38-41 | register never gets an empty display name, username or password |
| Auth.AuthScreen.constructor | components/Auth.tsx:9-22 | the landing mode with every field empty |
| Auth.AuthScreen.ShowLogin | components/Auth.tsx:86 | the mode is LOGIN |
| Auth.AuthScreen.ShowRegister | components/Auth.tsx:92 | the mode is REGISTER |
| Auth.AuthScreen.Cancel | components/Auth.tsx:131 | the mode is LANDING |
| Auth.AuthScreen.HandleLogin | components/Auth.tsx:25-32 | the error is cleared, and set exactly when login fails |
| Auth.AuthScreen.HandleRegister | components/Auth.tsx:34-58 | register is called exactly when the checks pass, with RegistrationOf the form, and the error is RegisterError |
| PlaylistModal.SentCover | components/CreatePlaylistModal.tsx:50 | an empty cover is sent as absent, any other as is |
| PlaylistModal.SaveAction | components/CreatePlaylistModal.tsx:46-56 | nothing for a blank name; an edit of the same id in edit mode; a creation otherwise; the form's values |
| PlaylistModal.SaveEffect | components/CreatePlaylistModal.tsx:46-56 | create appends one playlist with the values; edit changes only the edited playlist; blank changes nothing |
| PlaylistModal.Dialog.constructor | components/CreatePlaylistModal.tsx:11-13 | an empty form |
| PlaylistModal.Dialog.OnOpen | components/CreatePlaylistModal.tsx:16-31 | create mode empties the form; edit mode fills it from the found playlist or leaves it |
| PlaylistModal.Dialog.HandleSave | components/CreatePlaylistModal.tsx:46-56 | the call SaveAction specifies, closing exactly for a non-blank name |

## Left out

- React rendering, effects scheduling, notification toasts and JSX are not modelled. Notifications appear only as returned message strings.
- Store.Store.Ended: the source's `ended` listener is a closure registered by an effect whose dependencies leave out `view` (context/StoreContext.tsx:306). Its `nextTrack` call therefore reads the queue of the view at the effect's last run. The model reads the current view's queue. For example, after opening the 'history' playlist while a catalogue track plays on, the source picks the next track from the catalogue and the model from the recently-played list. This stale closure is not modelled.
- The `Audio` element is not modelled. Its pause state, its position and whether `play()` succeeds are inputs to the actions.
- `Math.random` is not modelled. It becomes a `rand` parameter in [0, 1).
- `Date.now`, `new Date(...)` parsing, `getHours`, `toISOString` and `new Date(year, 0, 1)` are not modelled. They become parameters: integer clocks, a `parse` function, a `toIso` function, and the `yearIso` and `yearStart` functions. Invalid dates, and `NaN` in the release sort, are left out.
- `Math.sin` in `seededRandom` is foreign. It is a `sinScaled` parameter; the fractional part, and so the [0, 1) bound, is computed and proved.
- Persistence is not modelled: `StorageService`, localStorage, JSON and the persistence effects. Stored values are constructor parameters of the store, and `last_listen_<id>` is a map field.
- The recommendation engine (context/StoreContext.tsx:148-180) is left out. It uses floating-point `Math.log` scoring and a random sort.
- JavaScript numbers are modelled as exact reals (durations, audio positions) or integers (plays, clocks). Float rounding is not modelled.
- ArtistStats.MonthlyPlaysIsFloor: `Math.floor(total * 0.45)` is modelled as `total * 45 / 100` on exact numbers. Its lemma proves that this equals the exact floor; the floating-point product could differ at boundaries.
- `toLowerCase` is modelled for ASCII letters only. Unicode case mapping is left out.
- `Object.entries` insertion order is modelled as first appearance. JavaScript lists integer-like keys first; this ordering is left out.
- Playback.NextChoice: with an empty queue, the source reads `queue[0]` of an empty array. The model returns a `Fault` choice and leaves the state unchanged.
- Playback.PrevChoice: for an empty queue the same `Fault` choice is used.
- The moderation lifecycle is not part of this model: `submitRelease`, `updateReleaseRequest`, approval, rejection, deletion, HUEQ generation, artist and moderator login, and the daily-chart rollover. Their implementation is not among the source files. The wizards return the call they make as a value.
- Uploads are left out: `FileReader` covers, audio files, metadata durations and `handleEditRelease` of the newer hub. The artist hubs' sign-in, profile and moderation screens are also left out.
- The store's `login` and `register` are given as outcome functions of the sign-in screen.
- The "Name is required" alert of the playlist dialog is modelled only as the dialog staying open.
- DraftTracks.DraftEditor.UpdateTrack requires an index inside the list. JavaScript would create a sparse slot; the handlers are only called with existing indices. The same holds for MoveTrack, AddTrackArtist, RemoveTrackArtist and HueqBlur.
- The `!distType` check of the step gates is never false: the type is always one of the release types. It is not a separate error case.
- services/data.ts writes `cover: COVERS[i]` on albums, while types.ts declares `covers`. The older generator's albums therefore carry that `cover` and an empty `covers`.
- The Library page does not model the cover of a followed-artist tile (pages/Library.tsx:415) or the liked-albums grid (pages/Library.tsx:437). `formatPlays` and `Intl.NumberFormat` are left out too.
- ListenCredit.Run is a helper without its own contract. Its properties are the lemmas AtMostOneCredit and RunBounds.
- The progress-bar percentages, the volume control and the sidebar, mobile navigation, profile, add-to-playlist and delete-playlist components are rendering only and are left out.
- The artist-pick search of src/components/ArtistHub.tsx is left out; only the older hub's search is modelled.
