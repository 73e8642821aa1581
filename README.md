# Portfolio core, modelled in Dafny

This project models the logic inside a React/TypeScript portfolio site: a single-page app
with hero, projects, blog, album and contact sections. Most of that app is rendering. What
is modelled here is its small state machines and its pure list and string helpers:

- the hero carousel's rotation scheduler;
- the background-music transport with its 60-step gain fade and stored preferences;
- the interface sound effects with their per-type throttle and envelope, and the sound
  context's mute gate;
- the app-wide state container: cursor, active section, toasts, navbar flag, device flags;
- the custom cursor's preset table, hover handlers and frame coalescing;
- the section observer and scroll direction;
- the navigation island's derived state and handlers;
- the content helpers: the data lookups, the blog grid and featured selection,
  `formatCategory`, `deriveTechCategories`, the tech icon lookup, the Hashnode record
  mapping, the project modal's media carousel, the contact form, and the animated counter.

One Dafny module per source file. Code that changes state step by step is modelled as a
class whose methods state the whole new state, directly or as a function of the old one. Pure code is modelled as functions, with
lemmas for the properties that relate several calls. Timers, intervals and browser
callbacks are explicit events: a method such as `Tick`, `CooldownExpired` or
`SendResolved` is what happens when that timer fires. Volumes, gains and pixel positions
are `real`, so clamps and linear steps are exact. Two shared modules hold helpers, and
neither has a source file of its own:

- `Seqs`: an order-preserving filter, subsequences, a first-match search;
- `Text`: JavaScript string operations such as `toLowerCase`, `includes`, `split`, `join`,
  the first-occurrence `replace`, and decimal rendering and parsing. Case mapping is ASCII.

## Model

| member | source | states |
|---|---|---|
| HeroRotation.Advance | src/components/hero/hooks/useHeroRotation.ts:45 | the next variant is in [0, N): 0 after the last, otherwise one more |
| HeroRotation.Retreat | src/components/hero/hooks/useHeroRotation.ts:69 | the previous variant is in [0, N): N - 1 before the first, otherwise one less |
| HeroRotation.RetreatAdvance | src/components/hero/hooks/useHeroRotation.ts:64-70 | `previous` undoes `next` and `next` undoes `previous` |
| HeroRotation.Rotation.constructor | src/components/hero/hooks/useHeroRotation.ts:29-37 | rotation starts at variant 0 with both pause flags false and nothing scheduled |
| HeroRotation.Rotation.ReportedPaused | src/components/hero/hooks/useHeroRotation.ts:82 | the reported pause holds exactly when the rotation interval is not installed |
| HeroRotation.Rotation.Tick | src/components/hero/hooks/useHeroRotation.ts:40-49 | a tick advances the variant only when reduced motion, the manual pause and the user pause are all off; otherwise nothing changes |
| HeroRotation.Rotation.SetVariant | src/components/hero/hooks/useHeroRotation.ts:52-61 | out-of-range indices change nothing; an in-range index is selected and, with pause-on-interaction, sets the user pause and adds one clear event due 10000 ms later to the pending multiset |
| HeroRotation.Rotation.CooldownExpired | src/components/hero/hooks/useHeroRotation.ts:58 | one scheduled clear fires, clears the user pause and is removed; the others stay pending |
| HeroRotation.Rotation.Next | src/components/hero/hooks/useHeroRotation.ts:64-66 | moves to `Advance` and leaves both pause flags as they were |
| HeroRotation.Rotation.Previous | src/components/hero/hooks/useHeroRotation.ts:68-70 | moves to `Retreat` and leaves both pause flags as they were |
| HeroRotation.Rotation.Pause | src/components/hero/hooks/useHeroRotation.ts:73 | sets only the manual pause |
| HeroRotation.Rotation.Resume | src/components/hero/hooks/useHeroRotation.ts:74-77 | clears both pause flags and keeps the variant |
| MusicPlayer.Clamp01 | src/hooks/useMusicPlayer.ts:274 | the result lies in [0, 1], equals the input inside it, and is the nearer bound outside |
| MusicPlayer.JsRem | src/hooks/useMusicPlayer.ts:242 | JavaScript's truncating `%`: `a` is a whole multiple of `n` plus the result, the result has the sign of `a` and is smaller than `n` in magnitude |
| MusicPlayer.NextIndex | src/hooks/useMusicPlayer.ts:242 | a valid index moves to the next one, wrapping from the last to 0 |
| MusicPlayer.PreviousIndex | src/hooks/useMusicPlayer.ts:258 | a valid index stays valid; with `PreviousNextInverse`, 0 goes to n - 1 and every other index to the one before |
| MusicPlayer.PreviousNextInverse | src/hooks/useMusicPlayer.ts:241-267 | on valid indices `previousTrack` and `nextTrack` undo each other |
| MusicPlayer.FadeGain | src/hooks/useMusicPlayer.ts:158-169 | every intermediate gain of a fade is clamped to [0, 1] |
| MusicPlayer.FadeGainFinal | src/hooks/useMusicPlayer.ts:158-175 | the linear step reaches a target in [0, 1] exactly at step 60 |
| MusicPlayer.FadeGainMonotone | src/hooks/useMusicPlayer.ts:161-169 | a fade up never lowers the gain from one step to a later one, and a fade down never raises it |
| MusicPlayer.Merge | src/hooks/useMusicPlayer.ts:116-121 | each stored field that is present is taken as stored; each missing one falls back to the current value |
| MusicPlayer.LoadFrom | src/hooks/useMusicPlayer.ts:111-126 | a parsed stored record is merged into the settings; an absent or unparsable entry leaves them unchanged |
| MusicPlayer.SaveTo | src/hooks/useMusicPlayer.ts:131-144 | a save writes exactly volume, mute and track index under the key and leaves every other key alone; a failed write leaves the store as it was |
| MusicPlayer.SaveLoadRoundTrip | src/hooks/useMusicPlayer.ts:111-144 | loading after a successful save gives back exactly the saved settings |
| MusicPlayer.Player.CurrentTrack | src/hooks/useMusicPlayer.ts:329 | the current track exists exactly when the index is in range |
| MusicPlayer.Player.constructor | src/hooks/useMusicPlayer.ts:46-54 | index 0, not playing, volume 0.3, muted, duration 0, time 0, no audio graph, no fade |
| MusicPlayer.Player.FadeVolume | src/hooks/useMusicPlayer.ts:149-162 | without a gain node nothing happens; otherwise any fade in flight is replaced by one starting from the current gain |
| MusicPlayer.Player.FadeTick | src/hooks/useMusicPlayer.ts:164-182 | one step writes the clamped linear gain; the 60th writes the target, stops the fade, and pauses the element when the target is 0 |
| MusicPlayer.Player.RunFade | src/hooks/useMusicPlayer.ts:164-182 | running a fade to the end leaves the gain at the target and no fade in flight |
| MusicPlayer.PlayOutcome | src/hooks/useMusicPlayer.ts:190-213 | after `play` the audio graph exists; playing exactly when it already was or the start resolves with a valid track index; no other state field changes; the element holds the indexed track; a resolved start plays it and fades to 0 when muted, else to the volume |
| MusicPlayer.PauseOutcome | src/hooks/useMusicPlayer.ts:218-225 | `pause` keeps the audio graph; with audio it clears the playing flag and fades to 0; no other state field changes |
| MusicPlayer.Player.Play | src/hooks/useMusicPlayer.ts:190-213 | the new state, audio and fade are `PlayOutcome` of the old ones; pending restarts are unchanged |
| MusicPlayer.Player.Pause | src/hooks/useMusicPlayer.ts:218-225 | the new state, audio and fade are `PauseOutcome` of the old ones; pending restarts are unchanged |
| MusicPlayer.Player.TogglePlay | src/hooks/useMusicPlayer.ts:230-236 | while playing the new state, audio and fade are `PauseOutcome` of the old ones, otherwise `PlayOutcome`; pending restarts are unchanged |
| MusicPlayer.Player.NextTrack | src/hooks/useMusicPlayer.ts:241-252 | moves the index with JavaScript `%`, stops, and schedules a restart only if it was playing |
| MusicPlayer.Player.PreviousTrack | src/hooks/useMusicPlayer.ts:257-267 | moves the index back, stops, and schedules a restart only if it was playing |
| MusicPlayer.Player.RestartFired | src/hooks/useMusicPlayer.ts:248-250 | one scheduled restart is consumed, and the new state, audio and fade are `PlayOutcome` of the old ones |
| MusicPlayer.Player.SetVolume | src/hooks/useMusicPlayer.ts:272-282 | stores the clamped volume; the live gain follows only while playing and unmuted |
| MusicPlayer.Player.ToggleMute | src/hooks/useMusicPlayer.ts:287-294 | flips the mute flag; while playing, fades over 300 ms to the volume when unmuting and to 0 when muting |
| MusicPlayer.Player.ToggleMuteAudible | src/hooks/useMusicPlayer.ts:287-294 | the corrected toggle: the same state and fade as `ToggleMute`, and unmuting while playing also resumes an element that the fade to 0 paused |
| MusicPlayer.Player.Seek | src/hooks/useMusicPlayer.ts:299-304 | sets the position when the element exists, and nothing else |
| MusicPlayer.Player.TimeUpdate | src/hooks/useMusicPlayer.ts:83-90 | the element's time update changes only the current time |
| MusicPlayer.Player.LoadedMetadata | src/hooks/useMusicPlayer.ts:92-99 | the element's metadata changes only the duration |
| MusicPlayer.Player.LoadPreferences | src/hooks/useMusicPlayer.ts:111-126 | the persisted fields become `LoadFrom` of the store; every other field is unchanged |
| MusicPlayer.Player.SavedStore | src/hooks/useMusicPlayer.ts:131-144 | after a successful save, loading into the initial state gives back the current settings |
| MusicPlayer.Player.Teardown | src/hooks/useMusicPlayer.ts:309-322 | unmount stops the fade, pauses the element and empties its source |
| SoundEffects.Config | src/hooks/useSoundEffects.ts:18-49 | every configured sound lasts 30 to 200 ms with a peak gain in (0, 0.15] |
| SoundEffects.ReleaseSeconds | src/hooks/useSoundEffects.ts:105-106 | every release time is at least 20 ms, so each sound outlasts its 10 ms attack |
| SoundEffects.LastPlayed | src/hooks/useSoundEffects.ts:84 | a missing ledger entry counts as 0 |
| SoundEffects.Accept | src/hooks/useSoundEffects.ts:83-86 | a throttled call leaves the ledger unchanged; otherwise only that type's entry becomes `now` |
| SoundEffects.ThrottleWindow | src/hooks/useSoundEffects.ts:59-86 | after an accepted sound the same type is dropped for exactly 100 ms, and other types are unaffected |
| SoundEffects.ScheduleTone | src/hooks/useSoundEffects.ts:97-118 | gain 0 at start, the configured peak 10 ms later, 0 at stop; the oscillator runs for the configured duration; the envelope times increase |
| SoundEffects.Effects.constructor | src/hooks/useSoundEffects.ts:55-56 | no audio context yet, an empty ledger, no tones |
| SoundEffects.Effects.Mount | src/hooks/useSoundEffects.ts:64-66 | the mount effect creates the audio context |
| SoundEffects.Effects.PlaySound | src/hooks/useSoundEffects.ts:78-119 | a muted call, or one before the context exists, touches nothing, not even the ledger; otherwise the ledger is `Accept`ed and one tone is scheduled when not throttled |
| SoundProvider.Provider.constructor | src/context/SoundProvider.tsx:29-30 | starts unmuted |
| SoundProvider.Provider.ToggleMute | src/context/SoundProvider.tsx:38-40 | negates the flag |
| SoundProvider.Provider.SetMuted | src/context/SoundProvider.tsx:42-44 | sets the flag whatever it was |
| SoundProvider.Provider.PlaySound | src/context/SoundProvider.tsx:32-36 | muted, or before the hook's context exists, it changes nothing; otherwise the hook's ledger is `Accept`ed and one tone is appended unless the call is throttled |
| AppContext.SectionIds | src/context/AppContext.tsx:62-68 | the ids of the section list, in order |
| AppContext.DefaultSectionIds | src/context/AppContext.tsx:62-68 | the sections are home, projects, blogs, album, contact, in that order, with distinct ids |
| AppContext.WithoutId | src/context/AppContext.tsx:138 | removes exactly the toasts with that id, keeps every other one as often as before and in order |
| AppContext.WithoutAbsentId | src/context/AppContext.tsx:137-139 | dismissing an id no toast carries changes nothing |
| AppContext.DismissUndoesShow | src/context/AppContext.tsx:125-139 | dismissing a freshly shown toast restores the earlier list |
| AppContext.App.constructor | src/context/AppContext.tsx:85-91 | cursor at (0, 0), type default, invisible; section home; no toasts; nav collapsed; both device flags false |
| AppContext.App.Mount | src/context/AppContext.tsx:94-113 | the once-only mount effects read the reduced-motion query and the touch check and attach the one-shot touch listener; a touch flag that was set stays set |
| AppContext.App.ReducedMotionChanged | src/context/AppContext.tsx:98-99 | the query's change event sets the preference |
| AppContext.App.TouchStart | src/context/AppContext.tsx:112 | the first touch after mount sets the touch flag and detaches the listener; the flag never goes back to false |
| AppContext.App.SetCursorType | src/context/AppContext.tsx:116-118 | replaces type and text and keeps position and visibility |
| AppContext.App.UpdateCursorPosition | src/context/AppContext.tsx:120-122 | sets the position and makes the cursor visible, keeping type and text |
| AppContext.App.SetActiveSection | src/context/AppContext.tsx:87 | sets the active section |
| AppContext.App.SetNavExpanded | src/context/AppContext.tsx:89 | sets the navbar flag |
| AppContext.App.ShowToast | src/context/AppContext.tsx:125-135 | appends one toast, with type info and 3000 ms by default, and schedules its dismissal only for a positive duration |
| AppContext.App.DismissToast | src/context/AppContext.tsx:137-139 | the list becomes `WithoutId` of the old list |
| AppContext.App.DismissTimerFired | src/context/AppContext.tsx:131-133 | a scheduled dismissal fires and removes that id |
| CustomCursor.GetCursorConfig | src/components/cursor/CustomCursor.tsx:52-100 | the hidden preset is all zero; a ring exists only for button, link and hover; text and default share the default preset |
| CustomCursor.Draw | src/components/cursor/CustomCursor.tsx:104-152 | nothing is drawn on a touch device; a ring is drawn exactly when its size is positive; a hidden cursor has the dot scaled to 0; an invisible one has opacity 0 |
| CustomCursor.UseCursorHandlers | src/components/cursor/CustomCursor.tsx:158-169 | no handlers on a touch device; otherwise enter asks for the given type (hover by default) with its text, and leave asks for default with no text |
| CustomCursor.MouseEnter | src/components/cursor/CustomCursor.tsx:166 | without handlers the cursor is unchanged; otherwise it takes the enter request |
| CustomCursor.MouseLeave | src/components/cursor/CustomCursor.tsx:167 | without handlers the cursor is unchanged; otherwise it returns to default |
| CustomCursor.HoverScenario | src/components/cursor/CustomCursor.tsx:158-169 | hovering in and out changes nothing on a touch device and leaves the default cursor elsewhere |
| CustomCursor.Tracker.constructor | src/components/cursor/CustomCursor.tsx:9-18 | motion values and the last sample start at 0; no frame; no listener |
| CustomCursor.Tracker.Attach | src/components/cursor/CustomCursor.tsx:26-38 | the move listener is attached only off touch devices |
| CustomCursor.Tracker.MouseMove | src/components/cursor/CustomCursor.tsx:29-36 | records the sample, cancels the pending frame, and leaves exactly one new frame pending |
| CustomCursor.Tracker.FrameFired | src/components/cursor/CustomCursor.tsx:20-24 | the frame publishes the latest recorded sample to the motion values and the app cursor |
| CustomCursor.Tracker.Detach | src/components/cursor/CustomCursor.tsx:40-45 | cleanup removes the listener and leaves no frame pending |
| ScrollObserver.LastQualifying | src/hooks/useScrollObserver.ts:20-28 | the section of the last entry that intersects and names a section, or none when no entry does |
| ScrollObserver.Observers.constructor | src/hooks/useScrollObserver.ts:9-12 | threshold 0 and root margin "-10% 0px -80% 0px" by default; no observer |
| ScrollObserver.Observers.Observe | src/hooks/useScrollObserver.ts:14-36 | the previous observer is disconnected, exactly one is live, and it watches every element given |
| ScrollObserver.Observers.Deliver | src/hooks/useScrollObserver.ts:20-28 | the callback leaves the active section at `LastQualifying`, or unchanged when nothing qualifies |
| ScrollObserver.Observers.SectionTimeoutFired | src/hooks/useScrollObserver.ts:52-62 | the delayed call observes only when some section was selected |
| ScrollObserver.Observers.Teardown | src/hooks/useScrollObserver.ts:38-44 | unmount leaves no observer live |
| ScrollObserver.ScrollDirection.constructor | src/hooks/useScrollObserver.ts:67-68 | last position 0, direction down |
| ScrollObserver.ScrollDirection.HandleScroll | src/hooks/useScrollObserver.ts:71-75 | down exactly for a strict increase, so ties read as up; the last position is updated on every event |
| DynamicIsland.EffectiveActiveSection | src/components/navbar/DynamicIsland.tsx:188 | on an article page home reads as blogs; otherwise the active section is kept |
| DynamicIsland.CurrentSection | src/components/navbar/DynamicIsland.tsx:186 | the first section with the active id, else the first section; always an element of the list; none only for an empty list |
| DynamicIsland.GetNavState | src/components/navbar/DynamicIsland.tsx:194-198 | expanded exactly when the nav is expanded or the pointer is near |
| DynamicIsland.CollapsedContentMatchesState | src/components/navbar/DynamicIsland.tsx:274 | the collapsed content shows exactly when the nav state is collapsed |
| DynamicIsland.NavLinkActiveCases | src/components/navbar/DynamicIsland.tsx:337 | off article pages a link is lit exactly for the active section; on one the blog link is always lit and the home link never is |
| DynamicIsland.CollapsedLabel | src/components/navbar/DynamicIsland.tsx:313 | "Blogs" on article pages, else the navigation label of `CurrentSection` |
| DynamicIsland.DefaultSectionsLabel | src/components/navbar/DynamicIsland.tsx:186 | with the app's sections a current section always exists, and a known id finds its own section |
| DynamicIsland.IsScrolled | src/components/navbar/DynamicIsland.tsx:107 | scrolled exactly beyond 50 px |
| DynamicIsland.Island.constructor | src/components/navbar/DynamicIsland.tsx:84-91 | not near, not scrolled, nothing scrolled to or pending |
| DynamicIsland.Island.HandleScroll | src/components/navbar/DynamicIsland.tsx:105-111 | the scrolled flag follows the 50 px threshold |
| DynamicIsland.Island.ProximityChanged | src/components/navbar/DynamicIsland.tsx:130-131 | the proximity verdict is stored |
| DynamicIsland.Island.HandleToggle | src/components/navbar/DynamicIsland.tsx:165 | the toggle negates the expansion |
| DynamicIsland.Island.IslandClick | src/components/navbar/DynamicIsland.tsx:232 | a click on the island expands it when collapsed and does nothing when expanded |
| DynamicIsland.Island.IslandCursorHandlers | src/components/navbar/DynamicIsland.tsx:82 | the island's cursor handlers: none on touch devices; otherwise entering requests the button cursor without text and leaving the default cursor |
| DynamicIsland.Island.PointerEnter | src/components/navbar/DynamicIsland.tsx:233-235 | as written: on touch devices entering expands the island; elsewhere the spread cursor handler replaces that one, so entering sets the button cursor and leaves the island as it was |
| DynamicIsland.Island.PointerLeave | src/components/navbar/DynamicIsland.tsx:233-235 | as written: on touch devices leaving collapses the island; elsewhere it only restores the default cursor |
| DynamicIsland.Island.PointerEnterExpanding | src/components/navbar/DynamicIsland.tsx:233-235 | the corrected enter handler: it always expands the island, and off touch devices it also sets the button cursor |
| DynamicIsland.Island.PointerLeaveCollapsing | src/components/navbar/DynamicIsland.tsx:233-235 | the corrected leave handler: it always collapses the island, and off touch devices it also restores the default cursor |
| DynamicIsland.Island.DocumentClick | src/components/navbar/DynamicIsland.tsx:149-160 | a click outside the open island closes it; any other click changes nothing |
| DynamicIsland.Island.HandleNavClick | src/components/navbar/DynamicIsland.tsx:167-184 | closes the island; on the home page it scrolls at once when the element exists; elsewhere it navigates home and queues the scroll |
| DynamicIsland.Island.NavLinkClick | src/components/navbar/DynamicIsland.tsx:21-27 | the link scrolls to its own target when it exists and then runs `handleNavClick`, so on the home page an existing section is scrolled to twice |
| DynamicIsland.Island.PendingScrollFired | src/components/navbar/DynamicIsland.tsx:172-177 | the oldest queued scroll is consumed and runs when the element exists |
| DynamicIsland.Island.NavState | src/components/navbar/DynamicIsland.tsx:194-198 | collapsed exactly when neither expanded nor near |
| ProjectPage.Capitalize | src/pages/ProjectPage.tsx:342 | same length; the first character is upper-cased and the rest kept |
| ProjectPage.CapitalizeAll | src/pages/ProjectPage.tsx:341-343 | each piece capitalised, in order |
| ProjectPage.FormatCategory | src/pages/ProjectPage.tsx:340-344 | the result has no hyphen, and for a category without spaces its space-separated words are exactly the capitalised hyphen-separated pieces |
| ProjectPage.FormatSingleWord | src/pages/ProjectPage.tsx:340-344 | a category without hyphens is one capitalised word |
| ProjectPage.FormatWordPair | src/pages/ProjectPage.tsx:340-344 | `a-b` becomes the two capitalised words with one space between |
| ProjectPage.BucketOf | src/pages/ProjectPage.tsx:355-369 | frontend exactly when a frontend keyword occurs in the lower-cased name; else backend, else database, each by its keywords; else tools |
| ProjectPage.InBucket | src/pages/ProjectPage.tsx:359-370 | a bucket holds only techs that belong to it |
| ProjectPage.InBucketSelects | src/pages/ProjectPage.tsx:359-370 | each bucket keeps its techs in input order, each as often as in the input |
| ProjectPage.BucketsPartition | src/pages/ProjectPage.tsx:359-370 | together the four buckets are a permutation of the input |
| ProjectPage.DeriveTechCategories | src/pages/ProjectPage.tsx:347-373 | the loop builds exactly the four `InBucket` lists |
| ProjectPage.CategoryBadge | src/pages/ProjectPage.tsx:53 | only the first hyphen is replaced by " / ": a hyphen-free id is kept, and `a-b` with a hyphen-free `a` becomes `a / b`; no badge has a hyphen |
| ProjectPage.BadgeHyphens | src/pages/ProjectPage.tsx:53 | no category id has a second hyphen, so no badge keeps one |
| ProjectPage.RoleLabel | src/pages/ProjectPage.tsx:100 | the role, or "Full-Stack Engineer" when it is missing or empty |
| ProjectPage.TimelineLabel | src/pages/ProjectPage.tsx:106 | the duration, or the year when it is missing or empty |
| ProjectPage.ProjectPageView | src/pages/ProjectPage.tsx:14-36 | not found for a missing, empty or unknown id; otherwise the first project with that id, with its category badge, year, title and tagline in the header, its title in the document title, and the role and timeline fallbacks |
| Projects.GetFeaturedProjects | src/data/projects.ts:125 | exactly the featured projects, in order |
| Projects.GetProjectsByCategory | src/data/projects.ts:126-127 | "all" is the whole catalogue; any other category the projects with it, in order |
| Projects.GetProjectById | src/data/projects.ts:128 | the first project with that id, or none exactly when no project has it |
| Projects.UnusedCategoryIsEmpty | src/data/projects.ts:126-127 | a category no project carries selects nothing |
| Projects.CatalogueFacts | src/data/projects.ts:59-128 | the ids are distinct, both projects are featured, and an id finds its own record |
| Blogs.GetFeaturedBlogs | src/data/blogs.ts:291 | exactly the featured posts, in order |
| Blogs.GetBlogBySlug | src/data/blogs.ts:293 | the first post with that slug, or none exactly when no post has it |
| Blogs.GetBlogsByTag | src/data/blogs.ts:294-295 | "all" is the whole list; any other tag the posts carrying it, in order |
| Blogs.LocalDataFacts | src/data/blogs.ts:25-286 | every slug equals its id, no slug occurs twice, and every tag is a filter tag other than "all" |
| Blogs.LocalFeatured | src/data/blogs.ts:37-291 | the featured local posts are the first three |
| Album.GetPhotosByCategory | src/data/album.ts:75-76 | "all" is the whole album; any other category the photos in it, in order |
| Album.UnknownCategoryIsEmpty | src/data/album.ts:75-76 | a string naming no category selects nothing |
| Album.PhotoIdsDistinct | src/data/album.ts:16-73 | the photo ids are distinct |
| TechStackIcon.LookupKey | src/components/ui/TechStackIcon.tsx:58-61 | the first key, in map order, equal to the name or contained in it after lower-casing both; none exactly when no key matches |
| TechStackIcon.Resolve | src/components/ui/TechStackIcon.tsx:58-63 | the default path is taken exactly when no key matches or the first match is the empty (falsy) key |
| TechStackIcon.TechIcon | src/components/ui/TechStackIcon.tsx:58-63 | the icon of the first non-empty matching key, and the default icon when nothing matches |
| TechStackIcon.DefaultIffNoMatch | src/components/ui/TechStackIcon.tsx:48-63 | with non-empty keys the default icon is used exactly when no key matches |
| TechStackIcon.CaseBlind | src/components/ui/TechStackIcon.tsx:58-61 | names equal up to letter case get the same key, path and icon |
| TechStackIcon.LowerCaseSameIcon | src/components/ui/TechStackIcon.tsx:58-61 | a name and its lower-cased form get the same icon |
| TechStackIcon.ExactKeyNotDefault | src/components/ui/TechStackIcon.tsx:59 | a name equal to a key up to case never takes the default path |
| TechStackIcon.IconMapKeysNonEmpty | src/components/ui/TechStackIcon.tsx:9-45 | every key of the icon map is non-empty |
| Hashnode.TagNames | src/services/hashnode.ts:172 | the tag names in order, or empty when tags are absent |
| Hashnode.ReadingTime | src/services/hashnode.ts:174 | the label ends with " min read" |
| Hashnode.ReadingTimeRoundTrip | src/services/hashnode.ts:174 | stripping the suffix leaves the decimal digits of the minutes, which parse back to them |
| Hashnode.MapPostToBlog | src/services/hashnode.ts:164-178 | id, slug and title copied; subtitle and excerpt the brief; content the HTML; tags the names; featured exactly for a tag named "featured" in any case; the cover only when its url is non-empty |
| Hashnode.FeaturedTagAnyCase | src/services/hashnode.ts:175 | a tag that lower-cases to "featured" marks the post featured |
| Hashnode.Edges | src/services/hashnode.ts:97 | the edges exist exactly when every link of the optional chain is present, and they are the response's own edge list |
| Hashnode.MapEdges | src/services/hashnode.ts:104 | one mapped post per edge, in order |
| Hashnode.FetchPosts | src/services/hashnode.ts:96-108 | an empty list on a failed request or missing edges; otherwise the mapped edges |
| Hashnode.SinglePost | src/services/hashnode.ts:150 | the post exists exactly when every link of the optional chain is present, and it is the response's own post |
| Hashnode.FetchPost | src/services/hashnode.ts:149-158 | null on a failed request or a missing post; otherwise the mapped post |
| Hashnode.SlugsKept | src/services/hashnode.ts:104 | the fetched list keeps every post's slug in place |
| Hashnode.SlugLookupMisses | src/services/hashnode.ts:104 | looking up a slug in the fetched list fails exactly when no post has it |
| Hashnode.SlugLookupFindsFirst | src/services/hashnode.ts:104 | otherwise the lookup finds the first post with it |
| BlogsGrid.GridBlogs | src/sections/blogs/BlogsGrid.tsx:73-75 | "all" shows exactly the unfeatured posts; any other tag the unfeatured posts carrying it, in order |
| BlogsGrid.GridMembership | src/sections/blogs/BlogsGrid.tsx:73-75 | a post is shown exactly when it is unfeatured and matches the tag, so no featured post is ever shown |
| BlogsGrid.GridMembershipAll | src/sections/blogs/BlogsGrid.tsx:73-75 | the membership rule for every post at once |
| BlogsGrid.TagGridWithinAll | src/sections/blogs/BlogsGrid.tsx:73-75 | each tag's grid is a subsequence of the "all" grid |
| BlogsGrid.GridIsUnfeaturedByTag | src/sections/blogs/BlogsGrid.tsx:73-75 | a tag's grid is `getBlogsByTag` without its featured posts |
| BlogsGrid.Render | src/sections/blogs/BlogsGrid.tsx:77-178 | six placeholders while loading; otherwise the grid, with the empty-state message exactly when it is empty |
| BlogsGrid.Grid.constructor | src/sections/blogs/BlogsGrid.tsx:67 | the tag starts as "all" |
| BlogsGrid.Grid.SelectTag | src/sections/blogs/BlogsGrid.tsx:37 | a tag button selects its tag |
| BlogsGrid.Grid.View | src/sections/blogs/BlogsGrid.tsx:147-178 | placeholders exactly while loading; otherwise the cards are the grid under the selected tag, with the empty state exactly when it is empty, and a post is shown exactly when it is an input post that is not featured and carries the tag |
| FeaturedBlogs.DisplayBlogs | src/sections/blogs/FeaturedBlogs.tsx:11-14 | the featured posts when there are any, else the first min(3, n); non-empty for a non-empty list |
| FeaturedBlogs.SomeFeatured | src/sections/blogs/FeaturedBlogs.tsx:11-14 | the featured list is non-empty exactly when some post is featured |
| FeaturedBlogs.DisplaysExactlyFeatured | src/sections/blogs/FeaturedBlogs.tsx:11-14 | when a post is featured, exactly the featured posts are displayed, in order |
| FeaturedBlogs.Render | src/sections/blogs/FeaturedBlogs.tsx:16-47 | three skeleton cards while loading; nothing for an empty list; otherwise the displayed posts |
| ProjectModal.MediaItems | src/components/cards/ProjectModal.tsx:39-42 | the image, then the video exactly when one is present; one or two items, none without a project |
| ProjectModal.IsVideoByExtension | src/components/cards/ProjectModal.tsx:98 | an item is a video exactly when its URL is some name followed by ".mp4" or ".webm" |
| ProjectModal.NextMedia | src/components/cards/ProjectModal.tsx:44-46 | stays in [0, n), wrapping from the last item to the first |
| ProjectModal.PrevMedia | src/components/cards/ProjectModal.tsx:48-50 | stays in [0, n), wrapping from the first item to the last |
| ProjectModal.PrevNextInverse | src/components/cards/ProjectModal.tsx:44-50 | the two moves undo each other |
| ProjectModal.Visibility | src/components/cards/ProjectModal.tsx:104-106 | only the item at the index is opaque and takes pointer events |
| ProjectModal.VisibleItems | src/components/cards/ProjectModal.tsx:97-106 | exactly one item is visible when the index is in range, none otherwise |
| ProjectModal.Render | src/components/cards/ProjectModal.tsx:52-160 | nothing without a project; arrows and dots exactly when there are two items, that is, when there is a video |
| ProjectModal.Modal.MediaCount | src/components/cards/ProjectModal.tsx:39-42 | one or two items while a project is set |
| ProjectModal.Modal.constructor | src/components/cards/ProjectModal.tsx:13-32 | index 0; the Escape listener and scroll lock are present exactly when a project is set |
| ProjectModal.Modal.ChangeProjectAsWritten | src/components/cards/ProjectModal.tsx:14-32 | a new project reinstalls the listener and lock and keeps the media index |
| ProjectModal.Modal.ChangeProject | src/components/cards/ProjectModal.tsx:14-32 | the corrected change also resets the index, so an item is always shown |
| ProjectModal.Modal.KeyDown | src/components/cards/ProjectModal.tsx:19-21 | Escape asks to close, only while the listener is installed |
| ProjectModal.Modal.BackdropClick | src/components/cards/ProjectModal.tsx:34-36 | a click closes only while a project is shown and only when its target is the outer layer that carries the handler, not any element inside it |
| ProjectModal.Modal.CloseButton | src/components/cards/ProjectModal.tsx:82 | the close button asks to close |
| ProjectModal.Modal.Next | src/components/cards/ProjectModal.tsx:44-46 | the index becomes `NextMedia` and stays in range |
| ProjectModal.Modal.Previous | src/components/cards/ProjectModal.tsx:48-50 | the index becomes `PrevMedia` and stays in range |
| ProjectModal.Modal.SelectDot | src/components/cards/ProjectModal.tsx:150-155 | a dot selects its item |
| ProjectModal.Modal.Unmount | src/components/cards/ProjectModal.tsx:28-31 | cleanup removes the listener and the scroll lock |
| ProjectModal.Modal.View | src/components/cards/ProjectModal.tsx:52-160 | closed exactly without a project; otherwise the project's items with exactly the item at the current index visible, so one item while the index is in range and none out of it, and arrows and dots exactly when the project has a video |
| ContactForm.FormData.Set | src/sections/contact/ContactForm.tsx:92-124 | sets one field and leaves the other two |
| ContactForm.AllFilledFields | src/sections/contact/ContactForm.tsx:21 | the form passes validation exactly when no field is empty |
| ContactForm.LabelFloats | src/sections/contact/ContactForm.tsx:61-62 | a label floats exactly when its field is focused or non-empty |
| ContactForm.Highlighted | src/sections/contact/ContactForm.tsx:50-55 | only the focused field is highlighted |
| ContactForm.Form.SubmitDisabled | src/sections/contact/ContactForm.tsx:139 | the button is disabled exactly while loading or successful |
| ContactForm.Form.constructor | src/sections/contact/ContactForm.tsx:10-17 | not loading, not successful, all fields empty, nothing focused |
| ContactForm.Form.Submit | src/sections/contact/ContactForm.tsx:19-26 | an empty field shows the error toast and changes neither loading nor success; otherwise loading starts and the send is in flight |
| ContactForm.Form.SendResolved | src/sections/contact/ContactForm.tsx:29-36 | after the send, loading ends, success shows with its toast, and the reset is scheduled |
| ContactForm.Form.ResetFired | src/sections/contact/ContactForm.tsx:36-39 | the reset clears success and all three fields |
| ContactForm.Form.Focus | src/sections/contact/ContactForm.tsx:42 | focus records the field |
| ContactForm.Form.Blur | src/sections/contact/ContactForm.tsx:43 | blur clears it |
| ContactForm.Form.Edit | src/sections/contact/ContactForm.tsx:92-124 | typing changes that field only |
| AnimatedNumber.DigitRun | src/sections/about/AboutExperience.tsx:28 | the first maximal run of digits, or none exactly when there is no digit |
| AnimatedNumber.ReplaceRun | src/sections/about/AboutExperience.tsx:46 | the run is replaced by the text, and everything before and after it is kept |
| AnimatedNumber.Target | src/sections/about/AboutExperience.tsx:34 | `parseInt` of the first digit run: a run of n digits gives a number below 10^n, and the rendering of a number parses back to that number |
| AnimatedNumber.CountAfter | src/sections/about/AboutExperience.tsx:37-41 | the count, which adds target / 30 at every step, is never negative |
| AnimatedNumber.CountClosedForm | src/sections/about/AboutExperience.tsx:37-41 | after k steps the count is exactly k * target / 30 |
| AnimatedNumber.CountMonotone | src/sections/about/AboutExperience.tsx:40-41 | the count never decreases from one step to a later one |
| AnimatedNumber.ReachedIff | src/sections/about/AboutExperience.tsx:41-42 | the count reaches the target exactly at step 30, or at once for a target of 0 |
| AnimatedNumber.ShownCounts | src/sections/about/AboutExperience.tsx:40-47 | the numbers shown before the end never decrease and stay below the target |
| AnimatedNumber.StepLabel | src/sections/about/AboutExperience.tsx:42-47 | the label a step writes: the label as given at step 30, or at once for a target of 0; before that the label with its first number replaced by k * target / 30 rounded down |
| AnimatedNumber.Counter.constructor | src/sections/about/AboutExperience.tsx:18 | the label is shown as given |
| AnimatedNumber.Counter.Effect | src/sections/about/AboutExperience.tsx:21-51 | out of view, with reduced motion, or without a digit the label is shown as given; otherwise counting starts from 0 towards the parsed first number |
| AnimatedNumber.Counter.Tick | src/sections/about/AboutExperience.tsx:40-48 | one step adds target / 30; the label is shown and counting stops exactly once the target is reached; before that the shown number does not decrease and stays below the target; the counted run and target are kept |
| AnimatedNumber.Counter.Unmount | src/sections/about/AboutExperience.tsx:50 | cleanup stops the interval |

## Left out

- Rendering: JSX, styles, framer-motion springs and variants are not modelled. The model keeps only the values the markup is derived from, such as the views and labels above.
- Browser audio graph: creating the audio element, the audio context, the source and gain nodes, the awaited `resume` and `load`, and `AudioContext.close` are abstract effects. `Play` takes whether the browser lets playback start as a parameter.
- The music element's `ended` listener is left out. It captures the first render's `nextTrack`, and closures over stale state are not modelled: every operation is a transition on the current state.
- The sound hook's `click`, `hover`, `transition`, `success` and `error` wrappers are left out; each is `playSound` with a fixed type.
- The sound hook's unmount, which closes the audio context, is left out; the context is an abstract effect.
- The navigation island's cursor-proximity geometry is left out. The square-root distance, the magnetic pull and the glow are floating-point visual effects; `isNear` is an input to `ProximityChanged`.
- Network I/O: the Hashnode requests are not modelled. A request is an input, either failed or carrying a parsed body.
- The Hashnode post's `content` field is assumed present; an answer without it would throw in the mapping.
- Non-integer `readTimeInMinutes` is left out; the model renders whole numbers only.
- Platform APIs become inputs or events: `matchMedia`, the touch check, IntersectionObserver geometry (its entries are inputs), `getElementById` (whether the element exists is an input), `scrollIntoView` (recorded as a list of scrolled-to ids) and `Date.now`. The random toast id is a parameter of `ShowToast`.
- Timers: `setTimeout`, `setInterval` and animation frames are explicit events, so real-time ordering between them is not modelled.
- localStorage is a map from keys to either a parsed record or an unparsable value. A failed write is a parameter.
- Loaded preferences are not validated in the source: `??` takes any stored value that is not null or undefined. A stored volume outside [0, 1] or an out-of-range track index is taken as is; `CurrentTrack` and `Play` model the out-of-range case. A stored value of the wrong type, such as a string volume, a non-boolean `isMuted` or a fractional `currentTrackIndex`, is also taken as is. `MusicPlayer.StoredPrefs` types its fields as real, bool and int, so it cannot hold those values.
- Case mapping is ASCII only; JavaScript's `toLowerCase` and `toUpperCase` are Unicode-aware.
- The prose fields of the data are not part of the model: descriptions, problem and solution statements, learnings, blog bodies and excerpts.
- `getAllBlogs` returns the constant list itself; the model uses that list, `AllBlogs`, directly.
- `MusicPlayer.Player.constructor`: requires at least one track. With none, the source's `%` and indexing give NaN and undefined.
- `HeroRotation.Rotation.constructor`: requires at least one variant. With none, the source's `%` gives NaN.
- `CustomCursor.Draw`: the text cursor uses the default preset with no label shown, as in the source's switch; the text itself is not drawn.
- `DynamicIsland.CollapsedLabel`: with an empty section list the source throws a TypeError reading `navLabel` of `undefined`; the model returns no label. The app's list is the constant `defaultSections`, which is not empty.
- `ProjectModal.Modal.BackdropClick`: whether the click's target is the outer layer is an input. Hit testing is not modelled: the layer's `absolute inset-0` child, whose comment calls it the backdrop, covers the whole layer, so a pointer click may never be able to target the layer itself.
- `TechStackIcon.TechIcon`: the icon map is an ordered list of pairs in the order of its keys, and the keys are assumed distinct.
- `AnimatedNumber.Target`: parsing is exact for any number of digits. JavaScript's `parseInt` loses precision beyond 2^53.
- `AnimatedNumber.Counter.Tick`: the count is an exact real. With IEEE floating point the source may need a 31st step, so no exact step count is claimed for floats.
- `ContactForm.Form.Submit`: `Consistent` is kept only when the button is enabled. A submit while loading or successful is not possible through the disabled button, and the model does not constrain it.

## Findings

| source | as written | input that shows it | evidently intended | confidence | as-written member | corrected member |
|---|---|---|---|---|---|---|
| src/components/cards/ProjectModal.tsx:14-50 | the media index survives a change of project | open a project with a video, press next (index 1), close, open a project with an image only: nothing is visible, and the single item shows neither arrows nor dots to recover | the index restarts at the first item for each project | not executed | ProjectModal.Modal.ChangeProjectAsWritten | ProjectModal.Modal.ChangeProject |
| src/hooks/useMusicPlayer.ts:176-180 | a fade to 0 pauses the element, and `toggleMute` (lines 287-294) fades the gain back up on unmute but never resumes the element | start muted, play (the gain fades to 0 and the element pauses), then unmute while the player still shows playing: the gain reaches the volume over a paused, silent element | unmuting while playing makes the track audible again | not executed | MusicPlayer.Player.ToggleMute | MusicPlayer.Player.ToggleMuteAudible |
| src/components/navbar/DynamicIsland.tsx:233-235 | `{...cursorHandlers}` follows `onMouseEnter` and `onMouseLeave` on the island, and off touch devices it holds handlers of the same names, so it replaces them | on a desktop, with the island collapsed, move the pointer over it: the cursor becomes the button cursor and the island stays collapsed until clicked | hovering expands the island and leaving collapses it, with the cursor change as well | not executed | DynamicIsland.Island.PointerEnter | DynamicIsland.Island.PointerEnterExpanding |
