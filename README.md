# Litloom client state, in Dafny

Litloom is an Angular reading app: a book shop with a cart, a personal library of
books with a reading status and a favourite flag, reading goals, a reading tracker
(sessions, a daily minutes goal, a streak and a heat map), a statistics page, quotes
of the day, a user profile and a sign-in session. Everything it keeps lives in the
browser's local storage and is pushed to the pages through observable streams.

This project models that client-side state layer and the pages that compute on it:

- the stores (shop cart, the two library services, goals, tracker, intents, per-user
  storage, profile, authentication session, quotes) as classes whose fields are the
  in-memory list and the storage cell they write, and whose methods state the new
  list as a function of the old one, together with the order of "publish" and
  "store" effects the source performs;
- the pure logic those methods use (merging a patch, finding, removing, sorting
  newest-first, sanitising stored records, totals and cart sums) as functions with
  contracts, and the lemmas that connect them (save-then-load round trips, toggling
  twice, read-after-write on the per-user key space, expiry of an intent);
- the pages (statistics, goals, tracker, shop, my books) as classes whose fields
  mirror the component fields, with their derived views (bars, week columns, the top
  books donut and its gradient, goal rings, heat map intensities, search and paging,
  shelves, slugs) specified by functions and proved against them.

Conventions used throughout:

- Dates are whole day numbers (`Day = int`), so an ISO `yyyy-mm-dd` comparison is an
  integer comparison. Months are passed as their first and last day.
- The clock, generated ids, `Math.random()` and HTTP responses are parameters.
- Storage cells are `Slot<T>`: absent, unreadable (JSON that fails to parse), or
  present.
- JavaScript numbers read from forms or storage are `Num` (NaN or a finite real).
  `Math.round` rounds half up, and a truncating `%` is written out where the source
  relies on it.
- `trim` and `\s` (in the shop's fallback id) use JavaScript's white-space set
  (`Js.IsSpace`); `toLowerCase` maps ASCII letters only.

## Model

| member | source | states |
|---|---|---|
| BookModel.Merge | src/app/shared/book.model.ts:2-12 | an empty patch leaves a book unchanged; a patch that does not set `id` keeps the id |
| BookModel.Find | src/app/library/tracker/tracker.ts:126-128 | `find` by id returns a book exactly when one has that id, and the one it returns is the first entry of the list with that id |
| BookModel.FindUnique | src/app/library/tracker/tracker.ts:126-128 | with distinct ids, finding the id of the i-th book returns that book |
| BookModel.RemoveId | src/app/library-service.ts:62-65 | removing an id leaves no book with that id, keeps every other book in order, and keeps ids distinct |
| BookModel.UpdateWhere | src/app/library-service.ts:84-89 | the books with the id get the patch merged in, all others are untouched, an unknown id changes nothing, and ids stay distinct when the patch keeps the id |
| BookModel.CountsOf | src/app/library-service.ts:29-35 | total is the list length, reading, finished and favourites count the books with that status or flag, and no count exceeds the total |
| BookModel.ToBook | src/app/shared/book.model.ts:15-31 | a product becomes a library book with its id as text, its title, author or "Unknown", thumbnail before image as cover, the description copied, status unread, not a favourite |
| BookModel.ToBookNumericIdsDistinct | src/app/shared/book.model.ts:15-31 | two products with different numeric ids map to books with different ids |
| CartStore.IndexOf | src/app/store-service.ts:44-52 | the index of the first cart line for a book id, or -1 when no line has it |
| CartStore.Count | src/app/store-service.ts:146-147 | the count published after every change: the quantities of all lines added up (its additivity and bounds are in SumsAppend and SumsBounds) |
| CartStore.Total | src/app/store-service.ts:104-106 | `getTotal`: each line's price times its quantity, added up, with a missing or non-numeric price as 0 (stated in TotalSkipsUnpriced) |
| CartStore.SumsAppend | src/app/store-service.ts:141-152 | the item count and the total of two carts joined are the sums of each |
| CartStore.SumsWithQty | src/app/store-service.ts:58-68 | setting a line's quantity moves the count by the quantity change and the total by price times that change |
| CartStore.RemoveLine | src/app/store-service.ts:110-113 | removing by id leaves no line for it, keeps the other lines in order, keeps lines unique and positive, and changes nothing for an unknown id |
| CartStore.SumsRemoveLine | src/app/store-service.ts:110-113 | removing a line takes its quantity off the count and its cost off the total |
| CartStore.AddLine | src/app/store-service.ts:44-52 | adding a book already in the cart raises that line's quantity, otherwise appends a line; count and total grow by the quantity and its price; lines stay unique |
| CartStore.QtySet | src/app/store-service.ts:58-68 | a quantity of 0 or less removes the line, an unknown id is ignored, otherwise the line gets the quantity and the count moves by the difference |
| CartStore.Incremented | src/app/store-service.ts:70-76 | the line for the id gains one, the count grows by one, an unknown id is ignored |
| CartStore.Decremented | src/app/store-service.ts:78-87 | a line above one loses one and the count drops by one; a line at one or less is removed; an unknown id is ignored |
| CartStore.TotalSkipsUnpriced | src/app/store-service.ts:141-152 | the total equals the total of the lines that have a price (a missing or NaN price counts as 0) |
| CartStore.SumsBounds | src/app/store-service.ts:141-152 | with positive quantities the count is at least the number of lines, and with non-negative prices the total is non-negative |
| CartStore.StoreService.constructor | src/app/store-service.ts:30-40 | a signed-in user's cart is read from storage (empty when absent or unreadable), a signed-out user's cart is empty; count and total are published |
| CartStore.StoreService.Recalc | src/app/store-service.ts:141-152 | republishes count and total for the unchanged cart |
| CartStore.StoreService.LoadCart | src/app/store-service.ts:126-138 | loads the stored cart for a signed-in user, or an empty one, and republishes |
| CartStore.StoreService.SaveCart | src/app/store-service.ts:115-121 | writes the cart to storage only when signed in, and republishes |
| CartStore.StoreService.AddToCart | src/app/store-service.ts:44-52 | the cart becomes `AddLine` of the old cart, is saved when signed in, and is republished |
| CartStore.StoreService.RemoveById | src/app/store-service.ts:110-113 | the cart becomes `RemoveLine` of the old cart, saved and republished |
| CartStore.StoreService.SetQty | src/app/store-service.ts:58-68 | the cart becomes `QtySet` of the old cart; a positive quantity for an unknown id changes nothing at all |
| CartStore.StoreService.Increment | src/app/store-service.ts:70-76 | the cart becomes `Incremented` of the old cart; an unknown id changes nothing |
| CartStore.StoreService.Decrement | src/app/store-service.ts:78-87 | the cart becomes `Decremented` of the old cart; an unknown id changes nothing |
| CartStore.StoreService.RemoveFromCart | src/app/store-service.ts:89-92 | removes the line of the item's book id, saved and republished |
| CartStore.StoreService.ClearCart | src/app/store-service.ts:94-97 | empties the cart and saves the empty cart when signed in |
| CartStore.StoreService.ClearCartInMemory | src/app/store-service.ts:99-102 | empties the cart without touching storage |
| LegacyCart.CartService.constructor | src/app/cart-service.ts:7 | the cart starts empty |
| LegacyCart.CartService.AddToCart | src/app/cart-service.ts:13-15 | appends the book at the end and keeps the earlier entries |
| LegacyCart.CartService.GetCartCount | src/app/cart-service.ts:17-19 | the count is the number of entries |
| UserLibrary.Added | src/app/library-service.ts:52-59 | a book whose id is present changes nothing; otherwise it is appended at the end; ids stay distinct |
| UserLibrary.FavoriteToggled | src/app/library-service.ts:68-73 | the book with the id has its favourite flag flipped, every other book is unchanged, ids are kept |
| UserLibrary.ToggleTwice | src/app/library-service.ts:68-73 | toggling the same id twice restores every favourite flag |
| UserLibrary.LibraryService.constructor | src/app/library-service.ts:38-44 | the list is the stored list of the current user, or empty when absent or unreadable |
| UserLibrary.LibraryService.Reload | src/app/library-service.ts:38-44 | on a user change the list is re-read from that user's cell and published |
| UserLibrary.LibraryService.Commit | src/app/library-service.ts:97-100 | the new list is published, then stored |
| UserLibrary.LibraryService.Add | src/app/library-service.ts:52-59 | the list becomes `Added` of the old list; a duplicate id publishes and stores nothing |
| UserLibrary.LibraryService.Remove | src/app/library-service.ts:62-65 | the list becomes `RemoveId` of the old list, published then stored |
| UserLibrary.LibraryService.ToggleFavorite | src/app/library-service.ts:68-73 | the list becomes `FavoriteToggled` of the old list, published then stored |
| UserLibrary.LibraryService.SetStatus | src/app/library-service.ts:76-81 | the books with the id get the status, published then stored |
| UserLibrary.LibraryService.Update | src/app/library-service.ts:84-89 | the books with the id get the patch merged in, published then stored |
| UserLibrary.LibraryService.Clear | src/app/library-service.ts:92-94 | the list becomes empty, published then stored |
| SharedLibrary.Added | src/app/shared/library.ts:14-20 | a duplicate id changes nothing; otherwise the given book itself goes first, with only its status defaulted to unread and `addedAt` set to now, followed by the old list; ids stay distinct |
| SharedLibrary.Toggled | src/app/shared/library.ts:40-44 | toggling keeps length and ids, and an unknown id changes nothing |
| SharedLibrary.ToggledAgrees | src/app/shared/library.ts:40-44 | with distinct ids, this toggle gives the same list as the per-user library's toggle |
| SharedLibrary.LibraryService.constructor | src/app/shared/library.ts:61-68 | the list is the stored list, or empty when absent or unreadable |
| SharedLibrary.LibraryService.Publish | src/app/shared/library.ts:70-76 | the new list is published, then stored |
| SharedLibrary.LibraryService.Add | src/app/shared/library.ts:14-20 | the list becomes `Added` of the old one; a duplicate id publishes and stores nothing |
| SharedLibrary.LibraryService.Remove | src/app/shared/library.ts:22-26 | the list becomes `RemoveId` of the old one, published then stored |
| SharedLibrary.LibraryService.Update | src/app/shared/library.ts:28-32 | the books with the id get the patch merged in |
| SharedLibrary.LibraryService.Clear | src/app/shared/library.ts:34-37 | the list becomes empty |
| SharedLibrary.LibraryService.ToggleFavorite | src/app/shared/library.ts:40-44 | the list becomes `Toggled` of the old one; an unknown id publishes and stores nothing |
| SharedLibrary.LibraryService.SetStatus | src/app/shared/library.ts:46-48 | the books with the id get the status |
| GoalsStore.ParseKind | src/app/goals-service.ts:137-146 | a goal is monthly pages exactly when its stored type is "pagesMonthly", daily minutes otherwise |
| GoalsStore.UntitledIsTrimmed | src/app/goals-service.ts:129-135 | the "Untitled goal" fallback is its own trim |
| GoalsStore.TitleOrUntitled | src/app/goals-service.ts:129-135 | a title is trimmed, and a blank or missing one becomes "Untitled goal"; the result is never empty |
| GoalsStore.NewGoal | src/app/goals-service.ts:50-59 | a new goal has the given id and creation time, the cleaned title, the parsed type, a whole target of at least 1, and is archived only when asked |
| GoalsStore.Sanitize | src/app/goals-service.ts:137-146 | a stored goal keeps its id and creation time when non-empty (fresh ones otherwise), its trimmed title, its type, a target of at least 1 |
| GoalsStore.KindRoundTrip | src/app/goals-service.ts:137-146 | writing a goal type and parsing it back gives the same type |
| GoalsStore.ClampWhole | src/app/goals-service.ts:129-135 | a whole target of at least 1 passes the clamp unchanged |
| GoalsStore.SanitizeToRaw | src/app/goals-service.ts:103-117 | a well-formed goal with an id and a creation time survives saving and sanitising unchanged |
| GoalsStore.NewestFirstIsPreorder | src/app/goals-service.ts:119-127 | the newest-first order is total and transitive, so the sort is defined |
| GoalsStore.NewestFirst | src/app/goals-service.ts:119-127 | the `_sort` comparator: later `createdAt` first, then larger id first, a missing value as the empty text (a total preorder by NewestFirstIsPreorder) |
| GoalsStore.Sort | src/app/goals-service.ts:119-127 | the sorted list is a permutation of the input, newest first, and an already sorted list is unchanged |
| GoalsStore.Added | src/app/goals-service.ts:50-59 | adding puts exactly one new goal into the list and keeps it sorted newest first |
| GoalsStore.Patched | src/app/goals-service.ts:66-76 | the patch overrides each field it sets, a set title is trimmed when non-empty, and the target is clamped to a whole number of at least 1 |
| GoalsStore.PatchWhere | src/app/goals-service.ts:66-76 | the goals with the id are patched, all others are unchanged |
| GoalsStore.Updated | src/app/goals-service.ts:66-76 | the updated list is a permutation of the patched list, sorted newest first |
| GoalsStore.UpdateUnknownId | src/app/goals-service.ts:66-76 | updating an id no goal has leaves a sorted list unchanged |
| GoalsStore.ArchiveOnlyFlag | src/app/goals-service.ts:85-86 | archiving or unarchiving changes the archived flag and nothing else |
| GoalsStore.TitlePatch | src/app/goals-service.ts:87 | renaming sets the trimmed title, or "Untitled goal" for a blank one |
| GoalsStore.UpdateTitleNonEmpty | src/app/goals-service.ts:87 | after renaming, a goal's title is never empty |
| GoalsStore.TargetPatch | src/app/goals-service.ts:88 | a new target is the floor of the input, at least 1 (NaN counts as 0) |
| GoalsStore.SetTargetClamps | src/app/goals-service.ts:88 | after setting a target, the goal's target is that clamped value |
| GoalsStore.Removed | src/app/goals-service.ts:78-81 | no goal with the id remains, every other goal is kept in order, and the list stays sorted |
| GoalsStore.Cleaned | src/app/goals-service.ts:91-94 | every replacing goal is sanitised and well formed |
| GoalsStore.Replaced | src/app/goals-service.ts:91-94 | replacing gives the sanitised goals, newest first |
| GoalsStore.Load | src/app/goals-service.ts:108-117 | a loaded list is sorted newest first, and an absent or unreadable cell loads as empty |
| GoalsStore.SaveLoadRoundTrip | src/app/goals-service.ts:103-117 | saving a sorted list of well-formed goals and loading it back gives the same list |
| GoalsStore.ActiveCompletedPartition | src/app/goals-service.ts:38-45 | every goal is in exactly one of the active and completed streams, as often as in the list |
| GoalsStore.Active | src/app/goals-service.ts:38-40 | `active$` holds every goal that is not archived and nothing else |
| GoalsStore.Completed | src/app/goals-service.ts:43-45 | `completed$` holds every archived goal and nothing else |
| GoalsStore.GoalsService.constructor | src/app/goals-service.ts:33 | the initial list is `Load` of the stored cell |
| GoalsStore.GoalsService.Save | src/app/goals-service.ts:103-106 | the list is stored, then published |
| GoalsStore.GoalsService.Add | src/app/goals-service.ts:50-64 | the list becomes `Added` of the old list, stored then published |
| GoalsStore.GoalsService.Update | src/app/goals-service.ts:66-76 | the list becomes `Updated` of the old list, stored then published |
| GoalsStore.GoalsService.Remove | src/app/goals-service.ts:78-81 | the list becomes `Removed` of the old list, stored then published |
| GoalsStore.GoalsService.Archive | src/app/goals-service.ts:85 | the goal's archived flag is set |
| GoalsStore.GoalsService.Unarchive | src/app/goals-service.ts:86 | the goal's archived flag is cleared |
| GoalsStore.GoalsService.UpdateTitle | src/app/goals-service.ts:87 | the goal gets the renaming patch |
| GoalsStore.GoalsService.SetTarget | src/app/goals-service.ts:88 | the goal gets the clamped target |
| GoalsStore.GoalsService.ReplaceAll | src/app/goals-service.ts:91-94 | the list becomes the sanitised and sorted replacement |
| GoalsStore.GoalsService.ClearAll | src/app/goals-service.ts:97-99 | the list becomes empty, stored then published |
| Intents.Stamped | src/app/intent-service.ts:16-20 | a stored intent expires `ttl` minutes after now and otherwise keeps its kind, data and redirect |
| Intents.Peeked | src/app/intent-service.ts:23-37 | peeking returns the stored intent exactly when one is stored, readable and not expired |
| Intents.AfterPeek | src/app/intent-service.ts:23-37 | peeking removes an expired or unreadable intent and leaves a live one in place |
| Intents.PeekRepeats | src/app/intent-service.ts:23-37 | peeking twice at the same instant returns the same thing and leaves the same storage |
| Intents.ExpiryBoundary | src/app/intent-service.ts:16-37 | an intent is still returned at its expiry instant and is gone one millisecond later |
| Intents.Consumed | src/app/intent-service.ts:40-44 | consuming returns what peeking returns and always empties the cell |
| Intents.ConsumeOnce | src/app/intent-service.ts:40-44 | a second consume returns nothing |
| Intents.IntentService.constructor | src/app/intent-service.ts:11 | the service starts with whatever the cell holds |
| Intents.IntentService.Set | src/app/intent-service.ts:16-20 | the cell holds the intent stamped with its expiry |
| Intents.IntentService.Peek | src/app/intent-service.ts:23-37 | returns `Peeked` and leaves `AfterPeek` in the cell |
| Intents.IntentService.Consume | src/app/intent-service.ts:40-44 | returns what `Consumed` returns and empties the cell |
| Intents.IntentService.Clear | src/app/intent-service.ts:46-48 | the cell is empty |
| UserStorage.Space | src/app/user-storage-service.ts:12-15 | the key space is the lower-cased e-mail, or "guest" when signed out or the e-mail is empty |
| UserStorage.Prefix | src/app/user-storage-service.ts:12-15 | the prefix is the app prefix, the space and two colons |
| UserStorage.Key | src/app/user-storage-service.ts:12-15 | a user's key is the user's prefix followed by the plain key |
| UserStorage.KeyInjective | src/app/user-storage-service.ts:12-15 | different keys of one user never share a storage key |
| UserStorage.OtherSpaceOutsidePrefix | src/app/user-storage-service.ts:37-48 | when neither space has a colon, another user's keys never start with this user's prefix |
| UserStorage.SpacesDisjoint | src/app/user-storage-service.ts:12-15 | when neither space has a colon, two users never share a storage key |
| UserStorage.ColonCollision | src/app/user-storage-service.ts:12-15 | an e-mail with a colon can share a storage key with another user's different key |
| UserStorage.Lookup | src/app/user-storage-service.ts:17-24 | a read returns the stored value when the key holds readable JSON, and the fallback otherwise |
| UserStorage.Written | src/app/user-storage-service.ts:26-30 | a write adds the user's key holding the value, adds no other key, and keeps the value of every other entry |
| UserStorage.Erased | src/app/user-storage-service.ts:32-34 | a remove drops the user's key and no other, and keeps the value of every other entry |
| UserStorage.WithoutPrefix | src/app/user-storage-service.ts:37-48 | clearing keeps exactly the entries outside the user's prefix, unchanged |
| UserStorage.ReadAfterWrite | src/app/user-storage-service.ts:17-30 | a write is read back by the same user, and other keys of the user and keys of other users read as before |
| UserStorage.ReadAfterErase | src/app/user-storage-service.ts:17-34 | after a remove the key reads as the fallback, the user's other keys read as before, and so does every key of another user with a different colon-free space |
| UserStorage.ReadAfterClear | src/app/user-storage-service.ts:17-48 | after clearing, every key of the user reads as the fallback, and other users' keys read as before |
| UserStorage.UserStorageService.constructor | src/app/user-storage-service.ts:9-15 | the service holds the storage and the current user |
| UserStorage.UserStorageService.Get | src/app/user-storage-service.ts:17-24 | a read is `Lookup` under the current user |
| UserStorage.UserStorageService.Set | src/app/user-storage-service.ts:26-30 | the storage becomes `Written` for the current user |
| UserStorage.UserStorageService.Remove | src/app/user-storage-service.ts:32-34 | the storage becomes `Erased` for the current user |
| UserStorage.UserStorageService.ClearUserSpace | src/app/user-storage-service.ts:37-48 | the storage loses exactly the keys under the current user's prefix |
| Profiles.CleanField | src/app/profile-service.ts:67-72 | a field is kept, trimmed, exactly when it is a non-empty string |
| Profiles.Clean | src/app/profile-service.ts:67-72 | both name and avatar are cleaned |
| Profiles.CleanFieldTwice | src/app/profile-service.ts:67-72 | cleaning twice equals cleaning once unless the field is blank, which cleans to an empty string first and is dropped second |
| Profiles.Spread | src/app/profile-service.ts:50-52 | each field of the patch overrides the profile's field |
| Profiles.NamePatch | src/app/profile-service.ts:54-56 | a name patch sets the trimmed name, or nothing when blank, and leaves the avatar |
| Profiles.AvatarPatch | src/app/profile-service.ts:58-60 | an avatar patch sets the URL when non-empty, or nothing, and leaves the name |
| Profiles.SetNameEffect | src/app/profile-service.ts:54-56 | after setting a name the profile has the trimmed name, or none for a blank one, and the avatar is cleaned |
| Profiles.SetAvatarKeepsBlank | src/app/profile-service.ts:58-72 | a blank avatar URL is stored as an empty string, while a blank name is dropped |
| Profiles.ProfileService.constructor | src/app/profile-service.ts:23-35 | the profile is read from the user's storage, empty when absent, and published |
| Profiles.ProfileService.UserChanged | src/app/profile-service.ts:29-35 | on a user change the profile is re-read under the new user and published |
| Profiles.ProfileService.Set | src/app/profile-service.ts:43-47 | the cleaned profile is published, then written under the user's key |
| Profiles.ProfileService.Update | src/app/profile-service.ts:50-52 | the profile becomes the cleaned spread of the patch over the current one |
| Profiles.ProfileService.SetName | src/app/profile-service.ts:54-56 | the profile gets the name patch |
| Profiles.ProfileService.SetAvatarUrl | src/app/profile-service.ts:58-60 | the profile gets the avatar patch |
| Profiles.ProfileService.Clear | src/app/profile-service.ts:62-64 | the profile becomes empty, published and written |
| Profiles.ProfileSurvivesReload | src/app/profile-service.ts:29-47 | a profile that was set is what the next load under the same user reads |
| Auth.Fresh | src/app/auth-service.ts:14-24 | a new service has no token and no user |
| Auth.Persisted | src/app/auth-service.ts:77-81 | persisting publishes the token and user and stores the session; signed in exactly when the token is non-empty |
| Auth.LoggedOut | src/app/auth-service.ts:59-63 | logging out clears token, user and the stored session |
| Auth.Restored | src/app/auth-service.ts:65-75 | no stored session changes nothing, an unreadable one logs out, a stored one is published |
| Auth.LoginSession | src/app/auth-service.ts:37-41 | a login gives a user with only the e-mail, and the server token |
| Auth.RegisterSession | src/app/auth-service.ts:50-54 | a registration gives a user with the server id, the e-mail and the name, and the server token |
| Auth.ReloadAfterPersist | src/app/auth-service.ts:29-32 | after persisting, a reload restores the same token and user |
| Auth.ReloadAfterLogout | src/app/auth-service.ts:29-32 | after logging out, a reload is signed out |
| Auth.RestoreIdempotent | src/app/auth-service.ts:65-75 | restoring twice is restoring once, and an unreadable session ends signed out with the cell emptied |
| Auth.AuthService.IsAuthenticated | src/app/auth-service.ts:24 | authenticated exactly when a non-empty token is held |
| Auth.AuthService.constructor | src/app/auth-service.ts:29-32 | the service starts with the restored session |
| Auth.AuthService.Login | src/app/auth-service.ts:34-44 | login persists the login session and returns its user |
| Auth.AuthService.Register | src/app/auth-service.ts:47-57 | registration persists the registration session and returns its user |
| Auth.AuthService.Logout | src/app/auth-service.ts:59-63 | the state becomes `LoggedOut` |
| Auth.AuthService.RestoreSession | src/app/auth-service.ts:65-75 | the state becomes `Restored` |
| Auth.AuthService.Persist | src/app/auth-service.ts:77-81 | the state becomes `Persisted` |
| Quotes.Shown | src/app/quotes-service.ts:21-27 | an empty list shows the placeholder, a non-negative index shows a quote of the list, and a negative index shows nothing unless it is a multiple of the length |
| Quotes.NextIndex | src/app/quotes-service.ts:50 | the next index of an index in range wraps from the last to the first |
| Quotes.PrevIndex | src/app/quotes-service.ts:51 | the previous index of an index in range wraps from the first to the last |
| Quotes.WrapOnce | src/app/quotes-service.ts:51 | below the list length, adding the length once leaves the remainder unchanged |
| Quotes.NextPrevInverse | src/app/quotes-service.ts:50-51 | next and previous undo each other on indices in range |
| Quotes.NextTimesAdd | src/app/quotes-service.ts:55-60 | `a` rotation ticks then `b` ticks are `a + b` ticks |
| Quotes.NextTimes | src/app/quotes-service.ts:55-58 | the index after a number of rotation ticks, each a call of `next` (stated in NextTimesAdd, NextTimesCounts, NextTimesCycle, NextTimesInRange) |
| Quotes.NextTimesCounts | src/app/quotes-service.ts:55-60 | ticks that do not reach the end advance the index by their number |
| Quotes.NextTimesCycle | src/app/quotes-service.ts:55-60 | as many ticks as there are quotes bring the index back |
| Quotes.NextTimesInRange | src/app/quotes-service.ts:55-60 | rotation keeps the index in range |
| Quotes.RandomIndex | src/app/quotes-service.ts:52 | a random pick is an index in range |
| Quotes.QuotesService.constructor | src/app/quotes-service.ts:15-18 | no quotes, index 0, not rotating |
| Quotes.QuotesService.Init | src/app/quotes-service.ts:30-47 | the fetched quotes (or none) are shown from the saved index, which is saved again, and rotation starts unless muted was saved |
| Quotes.QuotesService.Next | src/app/quotes-service.ts:50 | with quotes, the index moves to the next and is saved; without, nothing changes |
| Quotes.QuotesService.Prev | src/app/quotes-service.ts:51 | with quotes, the index moves to the previous and is saved; without, nothing changes |
| Quotes.QuotesService.Random | src/app/quotes-service.ts:52 | with quotes, the index becomes the random pick and is saved |
| Quotes.QuotesService.Tick | src/app/quotes-service.ts:58 | while rotating with quotes, a tick moves to the next index |
| Quotes.QuotesService.StartAutoRotate | src/app/quotes-service.ts:55-60 | rotation is on; "not muted" is saved only when it was off |
| Quotes.QuotesService.StopAutoRotate | src/app/quotes-service.ts:61-66 | rotation is off; "muted" is saved only when it was on |
| Quotes.QuotesService.SetIndex | src/app/quotes-service.ts:70 | the index is set and saved |
| TrackerStore.TrimmedOrNone | src/app/tracker-service.ts:90-98 | an optional text is kept trimmed when non-blank, dropped otherwise |
| TrackerStore.NewSession | src/app/tracker-service.ts:90-98 | a new session has the given id, the date or today, whole non-negative minutes and pages, and trimmed title and notes |
| TrackerStore.LatestFirstIsPreorder | src/app/tracker-service.ts:101 | latest date first, then larger id first, is a total and transitive order |
| TrackerStore.WithSession | src/app/tracker-service.ts:81-105 | adding puts exactly the new session into the list and keeps it latest first |
| TrackerStore.PatchWhere | src/app/tracker-service.ts:107-111 | sessions with the id get the patch, the others are unchanged, the order is kept |
| TrackerStore.Removed | src/app/tracker-service.ts:113-117 | no session with the id remains and every other session is kept in order |
| TrackerStore.TotalsOf | src/app/tracker-service.ts:132-136 | the session count is the list length, and non-negative minutes give non-negative total minutes |
| TrackerStore.TotalsAfterAdd | src/app/tracker-service.ts:81-136 | adding a session adds its minutes, its pages and one session to the totals |
| TrackerStore.PagesForMonthSumsRange | src/app/tracker-service.ts:213-225 | the month's pages are the pages of the sessions dated in the month, a missing count as 0 |
| TrackerStore.MinutesOn | src/app/tracker-service.ts:202-210 | `minutesForDate$`: the minutes of the sessions dated that day, added up |
| TrackerStore.PagesForMonth | src/app/tracker-service.ts:213-225 | `pagesForMonth$`: the pages of the sessions in the month that have a page count, added up (equal to counting a missing count as 0, by PagesForMonthSumsRange) |
| TrackerStore.LoadSessions | src/app/tracker-service.ts:47-57 | an absent or unreadable cell loads as empty; otherwise the loaded sessions are exactly the stored entries with an id, a date and minutes of at least 0, in stored order and unchanged, and every such entry is loaded |
| TrackerStore.SessionsRoundTrip | src/app/tracker-service.ts:47-61 | saving valid sessions and loading them back gives the same list |
| TrackerStore.LoadGoal | src/app/tracker-service.ts:63-74 | a stored goal above 0 loads as its floor, anything else as the default 30 |
| TrackerStore.ClampGoal | src/app/tracker-service.ts:125-129 | a new daily goal is a whole number of at least 5, the floor of the input when that is at least 5 |
| TrackerStore.GoalRoundTrip | src/app/tracker-service.ts:63-78 | a clamped goal that was saved loads back unchanged |
| TrackerStore.ProgressFor | src/app/tracker-service.ts:177-185 | progress keeps goal and minutes, its percent is at most 100, 0 for no goal, and 100 once the goal is met |
| TrackerStore.ProgressBounds | src/app/tracker-service.ts:177-185 | the rounded share of a goal is non-negative for non-negative minutes and at least 100 once reached |
| TrackerStore.TrackerService.constructor | src/app/tracker-service.ts:40-44 | sessions and goal are loaded from their cells |
| TrackerStore.TrackerService.Commit | src/app/tracker-service.ts:59-61 | the list is published and stored; the goal is untouched |
| TrackerStore.TrackerService.AddSession | src/app/tracker-service.ts:81-105 | returns the new session and the list becomes `WithSession` of the old one |
| TrackerStore.TrackerService.UpdateSession | src/app/tracker-service.ts:107-111 | the list becomes `PatchWhere` of the old one, not re-sorted |
| TrackerStore.TrackerService.RemoveSession | src/app/tracker-service.ts:113-117 | the list becomes `Removed` of the old one |
| TrackerStore.TrackerService.ClearAll | src/app/tracker-service.ts:119-122 | the list becomes empty and is stored |
| TrackerStore.TrackerService.SetDailyGoalMinutes | src/app/tracker-service.ts:125-129 | the goal becomes the clamped value, published and stored; sessions untouched |
| TrackerStore.TrackerService.DailyMinutes | src/app/tracker-service.ts:139-155 | one entry per day of the window ending today, in order, each with that day's minutes |
| TrackerStore.TrackerService.CurrentStreak | src/app/tracker-service.ts:158-175 | the streak is the number of days up to today that all have minutes, and the day before it has none (unless the window is exhausted) |
| TrackerStore.TrackerService.GetTotals | src/app/tracker-service.ts:132-136 | the totals of the current sessions, with the session count their number |
| TrackerStore.TrackerService.GoalProgressToday | src/app/tracker-service.ts:177-185 | today's minutes against the current goal: at most 100 percent, 0 without a positive goal, 100 once the goal is met |
| DayWindow.Walk | src/app/tracker-service.ts:142-145 | the walk visits each whole day after the start that is not past the end |
| DayWindow.WalkFromWholeDays | src/app/tracker-service.ts:139-155 | a walk from `k` whole days before the end visits `k + 1` instants |
| DayWindow.WalkFromLateStart | src/app/tracker-service.ts:139-155 | a walk from one millisecond later visits only `k` |
| DayWindow.MapDaysAsWritten | src/app/tracker-service.ts:139-155 | the window as written, from two clock readings, never passes the end reading and equals the intended window when the readings agree |
| DayWindow.LateStartDropsADay | src/app/tracker-service.ts:139-155 | when the second reading is later, the map has one day fewer and misses today |
| DayWindow.MapDays | src/app/tracker-service.ts:139-155 | the corrected window has exactly `days` entries, one a day, the last at the end reading |
| DayWindow.MapDaysAreWholeDays | src/app/tracker-service.ts:139-155 | the corrected window's days are the `days` day numbers ending with today's |
| DayWindow.DayOfShift | src/app/tracker-service.ts:139-155 | going back `k` whole days moves the day number back by `k` |
| Stats.AvgDailyMinutesOver | src/app/library/stats/stats.ts:102-134 | with filling, the window's minutes divided by its length, rounded; without, divided by the number of days with minutes, or by the length when there are none |
| Stats.CountPositive | src/app/library/stats/stats.ts:129-130 | the count of the map's days that have minutes |
| Stats.PeakOf | src/app/library/stats/stats.ts:154 | the peak is at least 1, no value exceeds it, and it is a value unless it is 1 |
| Stats.Columns | src/app/library/stats/stats.ts:155-159 | each bar keeps its value and gets its rounded share of the peak |
| Stats.ColumnsScale | src/app/library/stats/stats.ts:153-159 | non-negative values give shares from 0 to 100, a zero value a zero share, and the highest a full share |
| Stats.Last7DaysBars | src/app/library/stats/stats.ts:136-160 | seven bars, one per day ending today, each with that day's minutes, with the scaling properties above |
| Stats.MondayOf | src/app/library/stats/stats.ts:259-266 | a day's week starts on the Monday on or before it |
| Stats.Last12WeeksBars | src/app/library/stats/stats.ts:162-193 | twelve columns, Monday to Sunday, oldest first, each with its week's minutes, together the minutes of the twelve weeks |
| Stats.WeekBuckets | src/app/library/stats/stats.ts:176-185 | each week's sum holds exactly the minutes of the sessions dated in it |
| Stats.FirstWeek | src/app/library/stats/stats.ts:178-184 | the first week a date falls in, or none when it is outside all twelve |
| Stats.WeekStep | src/app/library/stats/stats.ts:177-185 | adding one session to its week keeps every week sum exact |
| Stats.UnknownIsTrimmed | src/app/library/stats/stats.ts:199 | "Unknown" is its own trim |
| Stats.TitleKey | src/app/library/stats/stats.ts:199 | a session's key is its trimmed title, or "Unknown" when missing or blank; never empty |
| Stats.IndexOfTitle | src/app/library/stats/stats.ts:200 | the position of the first group with the title, or -1 |
| Stats.AddToGroups | src/app/library/stats/stats.ts:199-200 | one step of the per-title `Map`: a known title gains the minutes in place, a new one is added at the end (stated in AddToGroupsOrder, AddToGroupsMinutes, AddToGroupsUnique, AddToGroupsSum) |
| Stats.AddToGroupsOrder | src/app/library/stats/stats.ts:200 | adding minutes keeps titles in first-seen order and makes the title present, adding a group at the end exactly when the title is new |
| Stats.AddToGroupsMinutes | src/app/library/stats/stats.ts:200 | with distinct titles, only the group of the title gains the minutes, and a new group starts from nothing |
| Stats.AddToGroupsUnique | src/app/library/stats/stats.ts:200 | adding minutes keeps every title once |
| Stats.AddToGroupsSum | src/app/library/stats/stats.ts:200 | adding minutes grows the total of all groups by exactly those minutes |
| Stats.GroupedUnique | src/app/library/stats/stats.ts:197-201 | grouping lists every title once |
| Stats.Grouped | src/app/library/stats/stats.ts:197-201 | the per-title map after every session, in first-seen order (stated in GroupedUnique, GroupedTotal, GroupedCovers, GroupedMinutes) |
| Stats.GroupedTotal | src/app/library/stats/stats.ts:197-201 | the groups' minutes add up to the sessions' minutes |
| Stats.GroupedCovers | src/app/library/stats/stats.ts:197-201 | every session's title has a group |
| Stats.GroupedMinutes | src/app/library/stats/stats.ts:197-201 | each group holds the minutes of exactly the sessions with its title |
| Stats.AddSessionMinutes | src/app/library/stats/stats.ts:198-201 | one more session keeps every group holding the minutes of exactly the sessions with its title |
| Stats.SumZeroWithoutTitle | src/app/library/stats/stats.ts:197-201 | a title no session has sums to zero minutes |
| Stats.GroupByTitle | src/app/library/stats/stats.ts:197-201 | the grouping loop computes the grouping function |
| Stats.FindTitle | src/app/library/stats/stats.ts:200 | the loop finds the first group with the title, or reports the end |
| Stats.ByMinutesIsPreorder | src/app/library/stats/stats.ts:202 | most-minutes-first is total and transitive |
| Stats.TopCount | src/app/library/stats/stats.ts:203 | the donut shows five books, or all when fewer |
| Stats.SlicesOf | src/app/library/stats/stats.ts:209-226 | the slices are the top books with their minutes, plus "Other" with the rest when the rest is above 0; at most six |
| Stats.TopSlices | src/app/library/stats/stats.ts:210-215 | each top slice has the book's title and minutes, its palette colour, and its rounded share of the total |
| Stats.DonutTopTitles | src/app/library/stats/stats.ts:195-215 | the top slices are in non-increasing minutes with distinct titles, each holding the minutes of the sessions with its title |
| Stats.DonutShowsTopTitles | src/app/library/stats/stats.ts:202-204 | the titled slices are the titles with the most minutes: a title without a slice of its own has no more minutes than any titled slice |
| Stats.DonutBy | src/app/library/stats/stats.ts:202-226 | the slices for sessions grouped by a key: the groups ranked by minutes, the top five and "Other" (stated in DonutTopTitles, DonutShowsTopTitles, DonutSum) |
| Stats.Donut | src/app/library/stats/stats.ts:197-226 | DonutBy with the trimmed title or "Unknown" as key |
| Stats.TopSlicesOrdered | src/app/library/stats/stats.ts:202-215 | ranked groups with distinct titles give top slices in non-increasing minutes under distinct titles |
| Stats.TopSlicesMinutes | src/app/library/stats/stats.ts:202-215 | top slices drawn from a reordering of the groups keep each title's session minutes |
| Stats.GroupedNonNegative | src/app/library/stats/stats.ts:197-201 | non-negative session minutes give non-negative groups |
| Stats.RankedNonNegative | src/app/library/stats/stats.ts:202 | ranking keeps the groups non-negative |
| Stats.TopAndOther | src/app/library/stats/stats.ts:203-204 | the top books and "Other" together hold all the minutes |
| Stats.SlicesKeepMinutes | src/app/library/stats/stats.ts:203-226 | the slices' minutes add up to all grouped minutes |
| Stats.SlicesShares | src/app/library/stats/stats.ts:206-226 | every slice's share is between 0 and 100 |
| Stats.DonutSum | src/app/library/stats/stats.ts:195-226 | the donut's minutes add up to all sessions' minutes, and every share is between 0 and 100 |
| Stats.GradientContiguous | src/app/library/stats/stats.ts:229-236 | the gradient stops are in slice order, each starting where the previous ends, from 0, each spanning its slice's share in its colour |
| Stats.Gradient | src/app/library/stats/stats.ts:229-236 | the stop of each slice, from the running cursor to the cursor plus its share (stated in GradientContiguous, GradientArc, GradientEnds) |
| Stats.GradientArc | src/app/library/stats/stats.ts:229-236 | arc k runs from the shares before slice k to the shares up to it, in slice k's colour |
| Stats.GradientEnds | src/app/library/stats/stats.ts:229-236 | the first arc starts at 0 and the last ends at the sum of all shares |
| Stats.GradientStops | src/app/library/stats/stats.ts:229-236 | the stop loop computes the gradient |
| Stats.BuildDonutBy | src/app/library/stats/stats.ts:195-238 | the donut of a grouping key, with the gradient text of its slices |
| Stats.StopsText | src/app/library/stats/stats.ts:234-238 | each stop as `color start% end%`, joined with ", " |
| Stats.BuildTopBooksDonut | src/app/library/stats/stats.ts:195-238 | the top books donut by title key, with its gradient text |
| StatsPage.GoalPercent | src/app/library/stats/stats.ts:79 | the 7-day average as a rounded share of the goal, capped at 100 |
| StatsPage.Avg7 | src/app/library/stats/stats.ts:77 | the seven-day average without filling: the window's minutes over its days with minutes, or over 7 when none has |
| StatsPage.DailyGoalOf | src/app/library/stats/stats.ts:64 | the daily goal setting, 30 when missing, at least 1 |
| StatsPage.ComputeFigures | src/app/library/stats/stats.ts:62-84 | every figure of the page from the sessions, the goal setting, the streak and today |
| StatsPage.StatsComponent.constructor | src/app/library/stats/stats.ts:40-57 | the page starts empty with the 7-day frame and a goal of 30 |
| StatsPage.StatsComponent.Refresh | src/app/library/stats/stats.ts:60-88 | on new sessions or settings, all figures are recomputed and the frame is kept |
| StatsPage.StatsComponent.SwitchFrame | src/app/library/stats/stats.ts:95-97 | only the time frame changes |
| GoalsPage.ToPercent | src/app/library/goals/goals.ts:157-160 | a share from 0 to 100: 0 without a target or progress, 100 once reached, the rounded share in between |
| GoalsPage.RoundedShare | src/app/library/goals/goals.ts:157-160 | the rounded share is at most 0 for no progress and at least 100 once reached |
| GoalsPage.ToPercentMonotone | src/app/library/goals/goals.ts:157-160 | more progress never lowers the share |
| GoalsPage.Clamp | src/app/library/goals/goals.ts:112-114 | a value inside the bounds is kept, outside it is moved to the nearer bound |
| GoalsPage.DashOffset | src/app/library/goals/goals.ts:107-111 | a full ring has offset 0, an empty ring the full circumference, and the offset stays within it |
| GoalsPage.DisplayOf | src/app/library/goals/goals.ts:122-155 | an active goal shows its share of its target and "Today" for a daily goal, the month's name for a monthly one |
| GoalsPage.DisplayAgreesWithTracker | src/app/library/goals/goals.ts:122-155 | a daily goal shows the tracker's minutes for today, a monthly one the tracker's pages for the month |
| GoalsPage.DailyGoalReached | src/app/library/goals/goals.ts:122-138 | a daily goal met today shows 100 |
| GoalsPage.FormTitle | src/app/library/goals/goals.ts:73 | the form title is trimmed, or "Untitled goal" when blank |
| GoalsPage.FormInput | src/app/library/goals/goals.ts:72-76 | the form gives a title and a whole target of at least 1 |
| GoalsPage.FormInputStored | src/app/library/goals/goals.ts:72-76 | a goal added from the form has the form's title, type and clamped target, and is active |
| GoalsPage.GoalsComponent.constructor | src/app/library/goals/goals.ts:27-43 | an empty page with a closed form for a 30-minute daily goal |
| GoalsPage.GoalsComponent.ActiveChanged | src/app/library/goals/goals.ts:51-55 | the shown goals are the active goals, each with its display |
| GoalsPage.GoalsComponent.CompletedChanged | src/app/library/goals/goals.ts:59-63 | the completed list is replaced |
| GoalsPage.GoalsComponent.AddGoal | src/app/library/goals/goals.ts:72-83 | the store gets the form's goal, and the form is reset and closed |
| GoalsPage.GoalsComponent.TakeForm | src/app/library/goals/goals.ts:72-83 | returns the form fields and resets the form |
| GoalsPage.GoalsComponent.EditTitle | src/app/library/goals/goals.ts:85-87 | the store renames the goal |
| GoalsPage.GoalsComponent.Archive | src/app/library/goals/goals.ts:89-91 | the store archives the goal |
| GoalsPage.GoalsComponent.Unarchive | src/app/library/goals/goals.ts:93-95 | the store unarchives the goal |
| GoalsPage.GoalsComponent.Remove | src/app/library/goals/goals.ts:97-99 | the store removes the goal |
| TrackerPage.Intensity | src/app/library/tracker/tracker.ts:178-186 | no minutes is level 0, any minutes level 1 to 4; every day is level 1 when the peak is 10 or less, and the peak day is level 4 otherwise |
| TrackerPage.IntensityMonotone | src/app/library/tracker/tracker.ts:178-186 | more minutes never lower the level |
| TrackerPage.IntensityByRatio | src/app/library/tracker/tracker.ts:178-186 | above a peak of 10, levels 1 to 4 are the quarters of the share of the peak |
| TrackerPage.Peak | src/app/library/tracker/tracker.ts:176-177 | the peak is the largest day's minutes, or 0 |
| TrackerPage.BuildHeatmap | src/app/library/tracker/tracker.ts:173-191 | one cell per day, with its date, minutes and level against the peak |
| TrackerPage.BusiestDayFull | src/app/library/tracker/tracker.ts:178-186 | the busiest day is level 4 when its minutes exceed 10 |
| TrackerPage.FormSession | src/app/library/tracker/tracker.ts:97-109 | the form gives the date, minutes, pages and the chosen book's id and title |
| TrackerPage.FormNotesStored | src/app/library/tracker/tracker.ts:97-109 | a session added from the form has the form's date and its trimmed notes |
| TrackerPage.TrackerComponent.constructor | src/app/library/tracker/tracker.ts:24-58 | an empty page with a goal of 30, the form dated today and the menu closed |
| TrackerPage.TrackerComponent.BooksChanged | src/app/library/tracker/tracker.ts:63-68 | the book list is replaced and a selection of a missing book is cleared |
| TrackerPage.StaleSelection | src/app/library/tracker/tracker.ts:65-67 | a selected id is stale when it is set and no book of the library has it |
| TrackerPage.TrackerComponent.RefreshDerived | src/app/library/tracker/tracker.ts:167-171 | today's progress, the streak and a 42-day heat map with that day's minutes per cell |
| TrackerPage.TrackerComponent.SessionsChanged | src/app/library/tracker/tracker.ts:73-80 | the page shows the sessions, their totals and refreshed figures |
| TrackerPage.TrackerComponent.SettingsChanged | src/app/library/tracker/tracker.ts:85-88 | the page shows the daily goal and refreshed figures |
| TrackerPage.TrackerComponent.AddSession | src/app/library/tracker/tracker.ts:97-115 | no or non-positive minutes changes nothing; otherwise the tracker gets the form's session and the form is reset |
| TrackerPage.TrackerComponent.TakeForm | src/app/library/tracker/tracker.ts:97-114 | returns the form fields and the chosen book, and resets the form |
| TrackerPage.TrackerComponent.RemoveSession | src/app/library/tracker/tracker.ts:117-119 | the tracker removes the session |
| TrackerPage.TrackerComponent.SetDailyGoal | src/app/library/tracker/tracker.ts:121-123 | the tracker gets the clamped goal |
| TrackerPage.TrackerComponent.SelectedBook | src/app/library/tracker/tracker.ts:126-128 | the selected book exactly when one has the selected id |
| TrackerPage.TrackerComponent.BookCover | src/app/library/tracker/tracker.ts:153-157 | the cover of the book with the id, nothing for no id or an unknown one |
| TrackerPage.TrackerComponent.ToggleBookMenu | src/app/library/tracker/tracker.ts:130-132 | the menu flips |
| TrackerPage.TrackerComponent.CloseBookMenu | src/app/library/tracker/tracker.ts:134-136 | the menu closes |
| TrackerPage.TrackerComponent.OpenBookMenu | src/app/library/tracker/tracker.ts:139-143 | the menu opens |
| TrackerPage.TrackerComponent.ChooseBook | src/app/library/tracker/tracker.ts:145-150 | the book is selected and the menu closes |
| StorePage.Searched | src/app/store/store.ts:103-111 | the result keeps catalogue order and holds exactly the books whose title, genre or an author includes the lower-cased term |
| StorePage.EmptySearchKeepsAll | src/app/store/store.ts:103-111 | an empty term keeps every book |
| StorePage.PageOf | src/app/store/store.ts:113-116 | a page is at most twelve books: the slice of the results for that page |
| StorePage.TotalPages | src/app/store/store.ts:118-120 | at least one page, and just enough pages for the results |
| StorePage.PagesCoverResult | src/app/store/store.ts:113-120 | every result is on exactly the page its position says, within the page count |
| StorePage.PagesBeyondLastAreEmpty | src/app/store/store.ts:113-120 | a page past the last is empty and a page up to the last is not |
| StorePage.OrElse | src/app/store/store.ts:176-186 | the first value when it is a non-empty string, the second otherwise |
| StorePage.DashSpaces | src/app/store/store.ts:172-175 | runs of white space become dashes, and a text without any is unchanged |
| StorePage.FallbackId | src/app/store/store.ts:172-175 | the fallback id has no white space |
| StorePage.CoverOf | src/app/store/store.ts:176-181 | the cover is empty exactly when all four image fields are missing or empty, and otherwise is one of them and non-empty |
| StorePage.ToLibraryBook | src/app/store/store.ts:171-197 | the id is the numeric id, else the ISBN, else the SKU, else the fallback; the author is the joined authors, else the author, else "Unknown"; the cover is the first non-empty image field; status unread, not a favourite |
| StorePage.NumericIdsStayDistinct | src/app/store/store.ts:171-175 | books with different numeric ids get different library ids |
| StorePage.CartIntent | src/app/store/store.ts:139-150 | a signed-out cart click records an add-to-cart intent for the book, redirecting to the cart |
| StorePage.LibraryIntent | src/app/store/store.ts:153-168 | a signed-out library click records an add-to-library intent for the mapped book, redirecting to the library |
| StorePage.StoreComponent.constructor | src/app/store/store.ts:26-44 | an empty shop on page 1 with an empty term |
| StorePage.StoreComponent.BooksLoaded | src/app/store/store.ts:46-51 | the catalogue (or nothing) is shown unfiltered |
| StorePage.StoreComponent.SearchBooks | src/app/store/store.ts:103-111 | the results become `Searched` and the page goes back to 1 |
| StorePage.StoreComponent.GoToPage | src/app/store/store.ts:122-124 | the page changes and nothing else |
| StorePage.StoreComponent.PaginatedBooks | src/app/store/store.ts:113-116 | at most twelve books, the first twelve results on page 1 |
| StorePage.StoreComponent.PageCount | src/app/store/store.ts:118-120 | enough pages for the results, at least one |
| StorePage.StoreComponent.AddToCart | src/app/store/store.ts:139-150 | signed out, the cart intent is recorded and the cart is untouched; signed in, one copy is added to the cart and saved |
| StorePage.StoreComponent.AddToLibrary | src/app/store/store.ts:153-168 | signed out, the library intent is recorded; signed in, the mapped book is added to the library |
| MyBooksPage.Filtered | src/app/library/my-books/my-books.ts:53-63 | each shelf keeps library order and holds exactly its books, every matching one and no other: all, unread (no status or unread), favourites, reading, finished |
| MyBooksPage.CountsMatchShelves | src/app/library/my-books/my-books.ts:43-63 | cross-reference: each chip count is the size of the shelf it labels, whose meaning is stated by Filtered |
| MyBooksPage.StatusShelvesPartition | src/app/library/my-books/my-books.ts:53-63 | reading, finished and unread shelves together hold every book once |
| MyBooksPage.SkipOthers | src/app/library/my-books/my-books.ts:117 | skipping non-slug characters leaves a suffix that starts with a slug character |
| MyBooksPage.Dashed | src/app/library/my-books/my-books.ts:117 | each run of other characters becomes one dash: only slug characters and single dashes remain |
| MyBooksPage.ConsSlugOrDash | src/app/library/my-books/my-books.ts:117 | a slug character, or a dash before a non-dash, in front of slug text leaves slug text without double dashes |
| MyBooksPage.StripDashes | src/app/library/my-books/my-books.ts:117 | removing a leading and a trailing dash only shortens the text |
| MyBooksPage.Slug | src/app/library/my-books/my-books.ts:117 | a slug is lower-case letters, digits and single dashes, not starting or ending with a dash |
| MyBooksPage.SlugShape | src/app/library/my-books/my-books.ts:117 | stripping edge dashes from a dashed text gives the slug shape |
| MyBooksPage.DashedOfSlugChars | src/app/library/my-books/my-books.ts:117 | text of slug characters is unchanged by dashing |
| MyBooksPage.DashedOfSlug | src/app/library/my-books/my-books.ts:117 | a slug is unchanged by dashing |
| MyBooksPage.LowerOfSlug | src/app/library/my-books/my-books.ts:117 | a slug is unchanged by lower-casing |
| MyBooksPage.SlugIdempotent | src/app/library/my-books/my-books.ts:117 | slugging a slug changes nothing |
| MyBooksPage.Base36Digit | src/app/library/my-books/my-books.ts:118 | a base-36 digit is a slug character |
| MyBooksPage.Base36 | src/app/library/my-books/my-books.ts:118 | the base-36 text of a time is non-empty slug characters |
| MyBooksPage.MakeId | src/app/library/my-books/my-books.ts:116-119 | an id is slug characters and dashes, ends with the time in base 36, and never ends with a dash |
| MyBooksPage.Submission | src/app/library/my-books/my-books.ts:92-101 | a blank title adds nothing; otherwise the book has the trimmed title, the author or "Unknown", the preview as cover when there is one and else the trimmed typed address or none when it is blank, the trimmed description or none when blank, status unread, not a favourite, and the generated id |
| MyBooksPage.BlankTitleAddsNothing | src/app/library/my-books/my-books.ts:92-95 | a title of white space adds no book |
| MyBooksPage.MyBooksComponent.constructor | src/app/library/my-books/my-books.ts:26-41 | the page starts on the "all" shelf with an empty closed form and no dialog |
| MyBooksPage.MyBooksComponent.Counts | src/app/library/my-books/my-books.ts:43-50 | the counts of the library, total being its length |
| MyBooksPage.MyBooksComponent.Visible | src/app/library/my-books/my-books.ts:53-63 | the shown books are the current shelf of the library |
| MyBooksPage.MyBooksComponent.SetFilter | src/app/library/my-books/my-books.ts:67 | the shelf changes |
| MyBooksPage.MyBooksComponent.ToggleFavorite | src/app/library/my-books/my-books.ts:70 | the library toggles the book's favourite flag |
| MyBooksPage.MyBooksComponent.SetStatus | src/app/library/my-books/my-books.ts:71 | the library sets the book's status |
| MyBooksPage.MyBooksComponent.Remove | src/app/library/my-books/my-books.ts:72 | the library removes the book |
| MyBooksPage.MyBooksComponent.AddNewBook | src/app/library/my-books/my-books.ts:75 | the add form opens or closes |
| MyBooksPage.MyBooksComponent.SubmitNewBook | src/app/library/my-books/my-books.ts:92-108 | a blank title changes nothing; otherwise the library gets the submitted book and the form is reset and closed |
| MyBooksPage.MyBooksComponent.ResetForm | src/app/library/my-books/my-books.ts:103-107 | the form fields and preview are cleared and the form closes |
| MyBooksPage.MyBooksComponent.OpenDetails | src/app/library/my-books/my-books.ts:111 | the dialog shows the book |
| MyBooksPage.MyBooksComponent.CloseDetails | src/app/library/my-books/my-books.ts:112 | the dialog closes |
| MyBooksPage.MyBooksComponent.AddToLibraryFromDialog | src/app/library/my-books/my-books.ts:113 | the book is marked as reading and the dialog closes |
| MyBooksPage.MyBooksComponent.AddToCartFromDialog | src/app/library/my-books/my-books.ts:114 | the dialog closes |

## Left out

- HTTP calls (the catalogue fetch, quotes fetch, login and registration requests) are
  parameters: the response is passed in, and request errors are not modelled.
- RxJS plumbing (subjects, `combineLatest`, subscriptions, unsubscribing) is modelled as
  the order of "publish" and "store" effects and as methods the pages call on change.
- Timers: the quote rotation interval is a `Tick` method; its period is not modelled.
- Routing and navigation after adding to cart or library, and the store's dialog
  handlers (`openDetails`, `onAddToLibraryFromDialog`, `onAddToCartFromDialog` in
  store.ts) and the image placeholder swap, which touch only the router and the DOM.
- The my-books file picker (`onFileChosen`, a `FileReader`) and the alert on a blank
  title; the preview it produces is an input of the model.
- The tracker page's document click handler, which only closes the menu on a click
  outside an element (DOM hit testing).
- Calendar arithmetic: days are 24-hour day numbers, so time zones, summer time, week
  labels ("Wk NN") and localised day names are not modelled; months are passed as
  their first and last day.
- `getCart` (cart-service.ts:9-11 and store-service.ts:54-56), `getTotal`
  (store-service.ts:104-106) and `list` (library-service.ts:47-49) only return the
  field or sum they read, which the classes expose directly.
- `addGoal` (goals-service.ts:62-64) is `add` with its three arguments packed into one
  record, so GoalsService.Add covers it.
- `minutesForDate$` and `minutesToday$` are the function `TrackerStore.MinutesOn`, and
  `goalProgressToday` is `TrackerStore.ProgressFor` applied to it.
- The goals page's `circumference` (`2 * Math.PI * r`) is an input of DashOffset.
- Floating point: minutes, pages and targets are whole or real numbers; binary rounding
  of `x / y * 100` is not modelled.
- Quotes.Shown: an index that is NaN or fractional (a corrupt saved index) is not
  modelled; the index is an integer.
- UserStorage.Space: lower-casing maps ASCII letters only, so e-mail addresses with
  other letters are not folded as `toLowerCase` would fold them.
- StorePage.Searched: the search lower-cases ASCII letters only, as above.
- TrackerStore.TrackerService.DailyMinutes: states the corrected day window; the two
  clock readings of the source are modelled separately in DayWindow.
- GoalsStore.GoalsService.Remove requires the class invariant (the list is sorted),
  which every other method establishes; the source has no such guard, and without it
  removal still filters but the sortedness result would not hold.

- TrackerStore.LoadSessions: a stored session whose minutes are JSON `null` is kept by
  the source (`null >= 0` holds in JavaScript) but dropped by the model, which reads
  stored minutes as a number or nothing; such sessions would count as 0 minutes.
- GoalsStore.NewestFirst and TrackerStore.LatestFirst: the source breaks ties with
  `localeCompare` (locale collation, which for example puts `_` before digits and `a`
  before `B`); the model compares texts by code unit (`Js.LexLe`), so ids or creation
  times that differ only in such characters may be ordered differently.

## Findings

| source | as written | input that shows it | evidently intended | confidence | as-written member | corrected member |
|---|---|---|---|---|---|---|
| src/app/tracker-service.ts:139-155 | `end` and `start` are two separate `new Date()` readings; the day loop runs while `d <= end` from `start` moved `days - 1` days back | the second reading falls 1 ms after the first: the loop stops one day early, so today's key is missing, the streak reads 0 and the heat map has 41 cells | `days` entries ending with today, from one clock reading | not executed | DayWindow.LateStartDropsADay | DayWindow.MapDays |
