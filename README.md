# Missing-persons frontend: a Dafny model of its page logic

The system is a React frontend for a missing-persons service. It has:

- two listing boards (missing persons and family posts) with a search bar and a 10-page pager;
- a cascading region selector (province, city, sub-district);
- a face-similarity page and an attribute ("multimodal") similarity search, whose results are ranked cards;
- enrolment forms for missing-person and family posts, in register and edit mode;
- an admin approval queue;
- an e-mail modal for contacting a poster.

This project models the rules inside those pages in Dafny 4. Each page or component is one module.

- Pure code (the page window, query composition, label lookup, image URLs, the form payloads) is modelled as functions with contracts and lemmas.
- Component state that handlers update (`useState` fields) is a class. Its fields are those state variables. Each handler is a method with `modifies` on the fields it sets.
- Every HTTP call is an outcome the method receives: `Http.Response<T>`, either `Ok(data)` or `Error(status)`. So is every browser input: `window.confirm` is a `bool`, the DOM form values are a `Forms.FormInput`, and the `FileReader` data URL and the object URL are strings.
- Navigation is returned as a route string. Alerts are modelled only where they are the outcome of a guard: the search bar's missing-filter alert and the e-mail modal's two alerts are returned as values. The alerts of the other pages are dropped (see "## Left out").

Supporting modules:

- `Js`: nullable strings, truthiness, `||`, `parseInt(s, 10)`, number to string, `startsWith`, and the whitespace `trim` removes.
- `Http`: the response outcome.
- `Posts`: the post record, `mp_id || fp_id`, card keys, id-based deletion, the image host.
- `Listing`: the page window, the current page, and filter maps.
- `Forms`: multipart `FormData` as an ordered sequence of entries. Field names are a `Field` datatype with their wire names.

## Model

| member | source | states |
|---|---|---|
| Listing.PageGroup | src/pages/MissingPage.jsx:78-88 | The window starts at a page that is 1 mod 10. The start lies within 10 pages below the current page. The end is start+9, clipped to `totalPages` when that is known. While `totalPages` is unset, the end is always start+9. |
| Listing.WindowContainsCurrentPage | src/pages/MissingPage.jsx:78-88 | For 1 ≤ current ≤ total: start ≤ current ≤ end, end − start ≤ 9, and start % 10 == 1. |
| Listing.SameWindowIffSameBlock | src/pages/FamilyPage.jsx:85-94 | Two pages get the same window iff they lie in the same block of ten. |
| Listing.CurrentPage | src/pages/MissingPage.jsx:27 | An absent or empty `page` parameter gives page 1. Otherwise the page is `parseInt` of the parameter. |
| Listing.PageParamRoundTrip | src/pages/MissingPage.jsx:65-67 | A page written into the URL by a page change is read back as the same number. |
| Listing.Get | src/pages/MissingPage.jsx:34-36 | Reading a key the filter object lacks gives null. |
| Js.OrNull | src/components/Searchbar.jsx:45 | `s \|\| null` is truthy iff `s` is non-empty, and then it is `s`. |
| Js.NullIfFalsy | src/components/Searchbar.jsx:46-47 | `v \|\| null` keeps a truthy value and maps a falsy one to null. |
| Js.Or | src/pages/FaceSimilarityPage.jsx:56 | `a \|\| b` is `a` when `a` is truthy, else `b`. |
| Js.DigitPrefixLength | src/pages/MissingPage.jsx:27 | `parseInt` reads the longest digit prefix: all digits, followed by a non-digit or the end. |
| Js.ParseInt | src/pages/FamilyPage.jsx:43 | A string with no leading sign or digit parses to NaN. |
| Js.NatToString | src/pages/MissingPage.jsx:66 | The decimal form of a number is a non-empty digit string with no leading zero. |
| Js.IntToString | src/pages/MissingPage.jsx:66 | `String(i)` is non-empty. |
| Js.DigitsValueOfNatToString | src/pages/MissingPage.jsx:66 | Reading the digits of `String(n)` gives `n`. |
| Js.DigitPrefixOfAllDigits | src/pages/MissingPage.jsx:27 | On a digit string, the digit prefix is the whole string. |
| Js.ParseIntOfIntToString | src/pages/MissingPage.jsx:27 | `parseInt(String(i), 10) == i` for every model integer. JavaScript numbers agree only below 10^21 in magnitude (see "## Left out"). |
| Js.ParseIntOfOne | src/pages/MissingPage.jsx:27 | The default `'1'` parses to 1. |
| MissingPage.SearchParams | src/pages/MissingPage.jsx:32-37 | `pageNum` is the current page. Each of the three filter keys is present iff its value is truthy, and then the value is unchanged. No other key is present. |
| MissingPage.ToRows | src/pages/MissingPage.jsx:42-52 | The rows map the posts one to one, in order. |
| MissingPage.RowsProjectPosts | src/pages/MissingPage.jsx:42-52 | Row i has `id = mp_id` and the fields of post i. |
| MissingPage.Controller.constructor | src/pages/MissingPage.jsx:15-22 | No rows, `totalPages` unset, and all three filters null. |
| MissingPage.Controller.PageGroup | src/pages/MissingPage.jsx:78-90 | There is no window when the page is NaN. Otherwise the window is `Listing.PageGroup` of the current page. For a page within range, the window holds it. |
| MissingPage.Controller.FetchMissingPersons | src/pages/MissingPage.jsx:29-63 | The request is `SearchParams` of the current page and filters. On success the rows are `ToRows(posts)` and `totalPages` is taken from the response. On failure the rows are empty and `totalPages` keeps its old value. |
| MissingPage.Controller.HandlePageChange | src/pages/MissingPage.jsx:65-67 | The URL page becomes the chosen number, and the current page reads back as it. |
| MissingPage.Controller.RenderSearchbar | src/pages/MissingPage.jsx:126-130 | The search bar gets the page's filters, `onSearch` and `onFilterChange`. |
| MissingPage.Controller.HandleSearch | src/pages/MissingPage.jsx:69-72 | The filters are replaced and the page becomes 1. |
| MissingPage.Controller.HandleFilterChange | src/pages/MissingPage.jsx:74-76 | The filters are replaced and the page is left alone. |
| FamilyPage.SearchParams | src/pages/FamilyPage.jsx:35-47 | The `hasFilters` guard changes nothing. The query is `pageNum` plus each of the five keys whose value is truthy, and only those. `gender_id` is sent as `parseInt` of its value, and the others unchanged. |
| FamilyPage.ForeignKeysIgnored | src/pages/FamilyPage.jsx:35-47 | Changing a key outside the five leaves the query unchanged. |
| FamilyPage.SearchbarSearchSendsOnlyPage | src/components/Searchbar.jsx:44-48 | A filter object built by the search bar yields only `pageNum`. Its `missing_name` has no effect on the family board. |
| FamilyPage.ToRows | src/pages/FamilyPage.jsx:52-63 | The rows map the posts one to one, in order. |
| FamilyPage.RowsProjectPosts | src/pages/FamilyPage.jsx:52-63 | Row i has `id = fp_id`, `genImage = face_img_aging` and the fields of post i. |
| FamilyPage.Controller.constructor | src/pages/FamilyPage.jsx:15-24 | No rows, `totalPages` unset, and all five filters null. |
| FamilyPage.Controller.PageGroup | src/pages/FamilyPage.jsx:85-96 | Same window rule as on the missing board. |
| FamilyPage.Controller.FetchFamilyPosts | src/pages/FamilyPage.jsx:31-74 | The request is `SearchParams`. On success the rows are the projected posts. A failed fetch empties the rows and keeps `totalPages`. |
| FamilyPage.Controller.HandlePageChange | src/pages/FamilyPage.jsx:76-78 | The page becomes the chosen number. |
| FamilyPage.Controller.RenderSearchbar | src/pages/FamilyPage.jsx:133-136 | The search bar gets `onSearch` but no `onFilterChange`. |
| FamilyPage.Controller.HandleSearch | src/pages/FamilyPage.jsx:80-83 | The filters are replaced and the page becomes 1. |
| Searchbar.SearchFilters | src/components/Searchbar.jsx:44-48 | Exactly the three keys `missing_name`, `missing_situation` and `missing_extra_evidence`. Each is its value or null, and never the empty string. |
| Searchbar.HasAnyFilter | src/components/Searchbar.jsx:51 | `hasAnyFilter`: one of the three built values is truthy. `SearchEffectOf` alerts exactly when it fails. |
| Searchbar.SearchEffectOf | src/components/Searchbar.jsx:43-61 | It alerts iff all three built values are null. Otherwise it calls `onSearch` once, with the built filters, when `onSearch` is given. |
| Searchbar.MergeFilter | src/components/Searchbar.jsx:35-38 | The old filters, with only the named field replaced. An empty value becomes null. |
| Searchbar.EditedFilterIsSearched | src/components/Searchbar.jsx:33-48 | A situation or evidence value merged by a filter edit is the value the next search sends. |
| Searchbar.Searchbar.constructor | src/components/Searchbar.jsx:7-9 | The menu is closed and the name field empty. |
| Searchbar.Searchbar.Rerender | src/components/Searchbar.jsx:7 | New `searchFilters` props replace the old ones. |
| Searchbar.Searchbar.HandleNameSearch | src/components/Searchbar.jsx:28-31 | The name field becomes the typed value. |
| Searchbar.Searchbar.ToggleFilterMenu | src/components/Searchbar.jsx:82 | The filter menu flips between open and closed. |
| Searchbar.Searchbar.HandleFilterChange | src/components/Searchbar.jsx:33-41 | It emits nothing without `onFilterChange`. Otherwise it emits `MergeFilter` of the props. |
| Searchbar.Searchbar.HandleSearch | src/components/Searchbar.jsx:43-61 | The effect is `SearchEffectOf` of the current state. |
| Searchbar.Searchbar.HandleKeyPress | src/components/Searchbar.jsx:63-67 | Enter has the same effect as the button. Any other key does nothing. |
| RegionSelector.Split | src/components/RegionSelector.jsx:13 | `split(' ')` gives at least one part, and no part holds a space. |
| RegionSelector.JoinSplit | src/components/RegionSelector.jsx:13 | Joining the parts with single spaces gives back the string. |
| RegionSelector.NonEmpty | src/components/RegionSelector.jsx:13 | `filter(p => p)` keeps only non-empty parts and never lengthens the list. |
| RegionSelector.Parts | src/components/RegionSelector.jsx:13 | The parsed words are non-empty and hold no space. |
| RegionSelector.NonEmptyKeepsSpaceFree | src/components/RegionSelector.jsx:13 | Filtering keeps parts free of spaces. |
| RegionSelector.NonEmptyOfWords | src/components/RegionSelector.jsx:13 | Filtering leaves a list of non-empty parts unchanged. |
| RegionSelector.SplitWord | src/components/RegionSelector.jsx:13 | A space-free word splits into itself. |
| RegionSelector.SplitWordThen | src/components/RegionSelector.jsx:13 | Splitting `a + " " + b` gives `a`, then the parts of `b`. |
| RegionSelector.ParseValue | src/components/RegionSelector.jsx:11-28 | A falsy value clears all three levels. Otherwise the words fill the levels in order. A level with no word keeps its prior value, and words past the third are ignored. |
| RegionSelector.DistrictPlaceRoundTrip | src/components/RegionSelector.jsx:50-61 | Selecting non-empty, space-free P, C and D emits `"P C D"`, which parses back to (P, C, D) from any prior state. |
| RegionSelector.CityPlaceRoundTrip | src/components/RegionSelector.jsx:40-48 | The emitted `"P C"` parses back to the selector's own state. |
| RegionSelector.ProvincePlaceRoundTrip | src/components/RegionSelector.jsx:30-38 | The emitted province parses back to the selector's own state. This includes the empty province, which clears. |
| RegionSelector.CityOptions | src/components/RegionSelector.jsx:64 | The city options are the keys of `table[P]`, or empty without a province. |
| RegionSelector.DistrictOptions | src/components/RegionSelector.jsx:65-67 | The sub-district options are `table[P][C]`, or empty. |
| RegionSelector.DisabledSelectsAreEmpty | src/components/RegionSelector.jsx:85-96 | A disabled select, which has no province or no city, offers no options. |
| RegionSelector.CityDisabled | src/components/RegionSelector.jsx:85 | The city select is disabled iff no province is selected. |
| RegionSelector.DistrictDisabled | src/components/RegionSelector.jsx:96 | The sub-district select is disabled iff no city is selected. |
| RegionSelector.Selector.constructor | src/components/RegionSelector.jsx:6-8 | All three levels start empty. |
| RegionSelector.Selector.ApplyValue | src/components/RegionSelector.jsx:11-28 | The new state is `ParseValue` of the old state and the value. |
| RegionSelector.Selector.HandleDoChange | src/components/RegionSelector.jsx:30-38 | It sets the province, clears city and sub-district, and emits the province. |
| RegionSelector.Selector.HandleSiChange | src/components/RegionSelector.jsx:40-48 | It sets the city, clears the sub-district, and emits `"P C"` with a province, else `C`. |
| RegionSelector.Selector.HandleDongChange | src/components/RegionSelector.jsx:50-61 | It sets only the sub-district. It emits `"P C D"`, `"P D"` or `D`. |
| RegionSelector.Selector.SiList | src/components/RegionSelector.jsx:64 | `siList` is `CityOptions` of the current selection. |
| RegionSelector.Selector.DongList | src/components/RegionSelector.jsx:65-67 | `dongList` is `DistrictOptions` of the current selection. |
| Posts.PostId | src/pages/MultimodalSearchPage.jsx:375 | `mp_id \|\| fp_id`. |
| Posts.CardKey | src/pages/MultimodalSearchPage.jsx:355 | `mp_id \|\| fp_id \|\| index`. It is a text key iff one of the ids is truthy, and otherwise the index. |
| Posts.RemoveKey | src/pages/MultimodalSearchPage.jsx:372-378 | No kept row has the deleted id, and the list never grows. |
| Posts.RemoveKeyMembers | src/pages/MultimodalSearchPage.jsx:372-378 | A row survives iff it was in the list and its id differs from the deleted one. |
| Posts.RemoveKeyAppend | src/pages/MultimodalSearchPage.jsx:372-378 | The filter works piece by piece, so the kept rows stay in order. |
| Posts.RemoveKeyNoMatch | src/pages/MultimodalSearchPage.jsx:372-378 | Deleting an id no row has leaves the list unchanged. |
| Posts.RemoveKeyUniqueMatch | src/pages/MultimodalSearchPage.jsx:372-378 | When exactly row j has the id, deleting removes just row j. |
| Posts.IndexKeyRemovesNothing | src/pages/MultimodalSearchPage.jsx:370-376 | A card keyed by its index passes a number to `onDelete`. That never equals a string id, so nothing is removed. |
| Posts.ImageUrl | src/pages/MultimodalSearchPage.jsx:168-171 | Null iff the path is falsy. Otherwise the fixed host prefix followed by the path. |
| MultimodalSearchPage.GetLabel | src/pages/MultimodalSearchPage.jsx:106-108 | The table entry when there is one, else the value itself. |
| MultimodalSearchPage.TypeCode | src/pages/MultimodalSearchPage.jsx:137 | 2 iff the type is `'실종자'`, and 1 otherwise. |
| MultimodalSearchPage.GenderLabel | src/pages/MultimodalSearchPage.jsx:365 | `'남'` iff `gender_id === 1`, else `'여'`. |
| MultimodalSearchPage.Cards | src/pages/MultimodalSearchPage.jsx:354-371 | One card per result, in order. Card i has rank i+1 and key `CardKey`. Its images come from `ImageUrl`. `showGenImage` holds iff the type is `'가족'`. |
| MultimodalSearchPage.DeletingCardRemovesIt | src/pages/MultimodalSearchPage.jsx:355-378 | The `onDelete` of a card with a text key removes a row iff that row has the card's id. |
| MultimodalSearchPage.CardsShowAgingImage | src/pages/MultimodalSearchPage.jsx:363-369 | On the `'가족'` tab no card shows the aging image. On the other tab a card shows it iff its post has a truthy `face_img_aging`. |
| MultimodalSearchPage.Page.constructor | src/pages/MultimodalSearchPage.jsx:16-103 | Type `'실종자'`, gender 1, no results, not loading, no error, and the initial attributes. |
| MultimodalSearchPage.Page.HandleTypeClick | src/pages/MultimodalSearchPage.jsx:111-114 | It sets the type and empties the results. |
| MultimodalSearchPage.Page.HandleGenderChange | src/pages/MultimodalSearchPage.jsx:117-121 | The gender becomes `parseInt` of the value, and the results are emptied. |
| MultimodalSearchPage.Page.HandleAttributeChange | src/pages/MultimodalSearchPage.jsx:124-129 | Only the given key changes. Every other attribute keeps its value. |
| MultimodalSearchPage.Page.HandleSearch | src/pages/MultimodalSearchPage.jsx:132-165 | The body carries the type code, the attributes and the gender unchanged. A success with `similarPosts` stores them. A success without them empties the list. An error empties the list and sets the message. `loading` is false afterwards. |
| MultimodalSearchPage.Page.OnDelete | src/pages/MultimodalSearchPage.jsx:372-378 | The list becomes `RemoveKey` of the old list. |
| MultimodalSearchPage.Page.Display | src/pages/MultimodalSearchPage.jsx:349-386 | One clause per branch. While loading it shows the loading text. Otherwise a truthy error shows that error. Otherwise a non-empty list shows `Cards(similarityLists, activeType)`. Otherwise it shows the search prompt. |
| FaceSimilarityPage.FindById | src/pages/FaceSimilarityPage.jsx:94-103 | A found post is the FIRST post of the list whose `mp_id` or `fp_id` matches, as `Array.find` returns. The result is undefined iff no post matches. It is never null. |
| FaceSimilarityPage.IdOf | src/pages/FaceSimilarityPage.jsx:97-101 | A pick is matched on `mp_id` in the missing list and on `fp_id` in the family list. |
| FaceSimilarityPage.FirstMatchAt | src/pages/FaceSimilarityPage.jsx:97-101 | Post i matches the id and no earlier post does. |
| FaceSimilarityPage.HasPosts | src/pages/FaceSimilarityPage.jsx:37-39 | `list && list.length > 0`. |
| FaceSimilarityPage.Page.constructor | src/pages/FaceSimilarityPage.jsx:16-22 | Type `'실종자'`, two empty lists, no selection, and no results. |
| FaceSimilarityPage.Page.UserList | src/pages/FaceSimilarityPage.jsx:111 | The missing list under `'실종자'`, else the family list. |
| FaceSimilarityPage.Page.UserSelectDisabled | src/pages/FaceSimilarityPage.jsx:133 | Disabled iff the current list is absent or empty. |
| FaceSimilarityPage.Page.SelectionInList | src/pages/FaceSimilarityPage.jsx:80-103 | A selected post belongs to the active list. The type click and the user pick establish this. |
| FaceSimilarityPage.Page.LoadInitial | src/pages/FaceSimilarityPage.jsx:25-49 | On success it stores the data. It selects the first missing post if there is one. Otherwise it selects the first family post and switches the type to `'가족'`. Otherwise nothing is selected. An error changes nothing. |
| FaceSimilarityPage.Page.HandleTypeClick | src/pages/FaceSimilarityPage.jsx:80-91 | It sets the type and empties the results. It selects the first post of the chosen list, or null when that list is empty. The selection lies in the shown list. |
| FaceSimilarityPage.Page.HandleUserSelect | src/pages/FaceSimilarityPage.jsx:94-103 | The selection becomes `FindById` on the active list, by `mp_id` or `fp_id`. An absent list leaves it unchanged. |
| FaceSimilarityPage.Page.FetchSimilarity | src/pages/FaceSimilarityPage.jsx:52-77 | A request goes out iff a user is selected, with `id = mp_id \|\| fp_id`. A missing `similarPosts` or an error empties the list. |
| FaceSimilarityPage.Page.Display | src/pages/FaceSimilarityPage.jsx:173-193 | Ranked cards iff there are results, keyed by `CardKey`. Then "no results" if a user is selected. Otherwise the prompt. |
| FaceSimilarityCard.PostType | src/components/FaceSimilarityCard.jsx:65 | `'missing'` iff the id is a non-empty string starting with `'m'`, else `'family'`. |
| FaceSimilarityCard.DetailPath | src/components/FaceSimilarityCard.jsx:96 | `"/" + postType + "/" + postId`. It starts with `/missing/` iff the post type is missing. |
| FaceSimilarityCard.MissingDetailPath | src/components/FaceSimilarityCard.jsx:65-96 | An `m…` id routes to `/missing/<id>`. |
| FaceSimilarityCard.IsMyPost | src/components/FaceSimilarityCard.jsx:64 | `currentUserId && userId && currentUserId === userId`: both ids are truthy and equal. |
| FaceSimilarityCard.DeleteShown | src/components/FaceSimilarityCard.jsx:100 | The delete button shows iff the card is logged in and `isMyPost` holds. |
| FaceSimilarityCard.NoOwnerNoDelete | src/components/FaceSimilarityCard.jsx:64-100 | A card without a `userId` never shows the delete button. |
| FaceSimilarityCard.ShowsAgingImage | src/components/FaceSimilarityCard.jsx:91 | The aging image shows iff `showGenImage` is false and `genImage` is truthy. |
| FaceSimilarityCard.FormatSimilarity | src/components/FaceSimilarityCard.jsx:63 | A non-number score passes through. A number is scaled by 100. |
| FaceSimilarityCard.Card.constructor | src/components/FaceSimilarityCard.jsx:22-23 | Logged out, with no current user. |
| FaceSimilarityCard.Card.CheckLoginStatus | src/components/FaceSimilarityCard.jsx:25-42 | The current user is asked for iff the status is true. The card is logged in iff both calls succeed and the status is true. |
| FaceSimilarityCard.Card.DeleteButtonShown | src/components/FaceSimilarityCard.jsx:64-100 | Shown only to the logged-in owner: both ids present and equal. |
| FaceSimilarityCard.Card.HandleDelete | src/components/FaceSimilarityCard.jsx:44-61 | The request is sent iff the user confirms. `onDelete` fires iff the user confirmed, the delete succeeded and a callback is given. |
| AdminPage.AdminImageUrl | src/pages/AdminPage.jsx:110-114 | A falsy path gives `/no-image.jpg`. A path starting with `http` is returned unchanged. Any other path gets the host prefix. |
| AdminPage.AdminImageUrlAgreesForRelativePaths | src/pages/AdminPage.jsx:110-114 | For a relative path it agrees with the listing boards' `getImageUrl`. |
| AdminPage.AdminImageUrlIdempotent | src/pages/AdminPage.jsx:110-114 | A built URL starts with `http`, so building it again leaves it unchanged. |
| AdminPage.Page.constructor | src/pages/AdminPage.jsx:7-10 | Empty lists, loading, and the `missing` tab. |
| AdminPage.Page.LoadPendingPosts | src/pages/AdminPage.jsx:46-57 | On success each list is taken from the response, or empty when the key is absent. An error keeps the lists. |
| AdminPage.Page.CheckAdminAndLoadPosts | src/pages/AdminPage.jsx:17-44 | Pending posts are loaded iff the check says admin, and only then is there no route. A non-admin goes to `/`. A 401 goes to `/login`. Any other error goes to `/`. `loading` is false on every path. |
| AdminPage.Page.HandleApprove | src/pages/AdminPage.jsx:59-76 | After a confirm it sends `/api/posts/approve` with `missing_id`, and nothing without one. The lists reload only when the request succeeded. |
| AdminPage.Page.HandleReject | src/pages/AdminPage.jsx:78-95 | After a confirm it sends `/api/posts/reject` with `post_id`. The lists reload only when the request succeeded. |
| AdminPage.Page.HandleLogout | src/pages/AdminPage.jsx:97-108 | It routes to `/` iff the logout succeeded. |
| AdminPage.Page.SetActiveTab | src/pages/AdminPage.jsx:135-142 | It sets the tab. |
| AdminPage.Page.ShownPosts | src/pages/AdminPage.jsx:149-196 | The missing list on the `missing` tab, else the family list. |
| AdminPage.Page.ActionId | src/pages/AdminPage.jsx:175-231 | The buttons pass `mp_id` on the `missing` tab and `fp_id` on the other. |
| Forms.Field.Wire | src/pages/FamilyEnrolPage.jsx:132-149 | Every form field has a non-empty wire name. |
| Forms.FieldNamedWire | src/pages/MissingEnrolPage.jsx:95-138 | The wire name of a field leads back to that field. |
| Forms.WireInjective | src/pages/MissingEnrolPage.jsx:95-138 | Distinct fields have distinct wire names. |
| Forms.IsEditMode | src/pages/MissingEnrolPage.jsx:13-14 | `!!editId`: edit mode iff the `edit` parameter is present and non-empty. |
| Forms.Keys | src/pages/FamilyEnrolPage.jsx:131-149 | The field names of a form, in the order they were appended. |
| Forms.Get | src/pages/FamilyEnrolPage.jsx:131-149 | The part a form carries under a field name: the first one appended under it. |
| Forms.KeysAppend | src/pages/FamilyEnrolPage.jsx:131-149 | Appending a block of parts appends its field names. |
| Forms.GetNone | src/pages/FamilyEnrolPage.jsx:131-149 | A form carries nothing under a name iff that name was never appended. |
| Forms.GetAppend | src/pages/FamilyEnrolPage.jsx:131-149 | Reading a name from two blocks of appends reads the first block if it has the name, else the second. |
| Forms.GetFirst | src/pages/FamilyEnrolPage.jsx:131-149 | The part appended at position i is read back under its name when no earlier append used that name. |
| Forms.FormData.constructor | src/pages/FamilyEnrolPage.jsx:131 | A new form has no entries. |
| Forms.FormData.Append | src/pages/FamilyEnrolPage.jsx:132-149 | `formData.append` adds exactly one entry at the end. |
| FamilyEnrolPage.PhotoAgeText | src/pages/FamilyEnrolPage.jsx:149 | `parseInt(photoAge) \|\| 0` becomes `"0"` when the age does not parse. |
| FamilyEnrolPage.PhotoAgeTextParses | src/pages/FamilyEnrolPage.jsx:149 | The sent `photo_age` reads back as `parseInt(photoAge)`, or 0. |
| FamilyEnrolPage.RequiredFilled | src/pages/FamilyEnrolPage.jsx:123 | Name, birth, missing date and `photoAge` are all non-empty. |
| FamilyEnrolPage.RegisterReady | src/pages/FamilyEnrolPage.jsx:166 | Registration also needs a chosen file and a generated image. |
| FamilyEnrolPage.IsBlobUrl | src/pages/FamilyEnrolPage.jsx:138 | `resultImageSrc && resultImageSrc.startsWith('blob:')`. |
| FamilyEnrolPage.EditEntries | src/pages/FamilyEnrolPage.jsx:131-149 | The parts of an edit in append order. Its key and value lemmas state what they are. |
| FamilyEnrolPage.RegisterEntries | src/pages/FamilyEnrolPage.jsx:171-189 | The parts of a registration in append order. Its key and value lemmas state what they are. |
| FamilyEnrolPage.EditEntriesKeys | src/pages/FamilyEnrolPage.jsx:132-149 | The edit form has these fields in order: `missing_id`, `type`, `missing_name`, then `img_origin` and `img_aging` when present, then `gender`, `missing_birth`, `missing_date`, `missing_situation`, `missing_extra_evidence`, `missing_place` and `photo_age`. |
| FamilyEnrolPage.EditSendsChangedImagesOnly | src/pages/FamilyEnrolPage.jsx:135-142 | `img_origin` is sent iff a new file was chosen, and `img_aging` iff the result src starts with `blob:`. |
| FamilyEnrolPage.EditEntriesValues | src/pages/FamilyEnrolPage.jsx:132-149 | The edit form sends the edit id, `type` 1, and `photo_age` as parsed. |
| FamilyEnrolPage.RegisterEntriesKeys | src/pages/FamilyEnrolPage.jsx:172-189 | The register form has these fields in order: `type`, `name`, `img_origin`, `img_aging`, `gender`, `birth`, `missingDate`, `missing_situation`, `missing_extra_evidence`, `missing_place` and `photo_age`. |
| FamilyEnrolPage.RegisterEntriesValues | src/pages/FamilyEnrolPage.jsx:172-189 | The register form sends `type` 1, the chosen file, the generated image as `aged_image.png`, and `photo_age` as parsed. |
| FamilyEnrolPage.AppendDetails | src/pages/FamilyEnrolPage.jsx:143-149 | It appends the seven trailing fields, under the birth and date names of the mode. |
| FamilyEnrolPage.BuildEditForm | src/pages/FamilyEnrolPage.jsx:131-149 | The appended sequence is exactly `EditEntries`. |
| FamilyEnrolPage.BuildRegisterForm | src/pages/FamilyEnrolPage.jsx:171-189 | The appended sequence is exactly `RegisterEntries`. |
| FamilyEnrolPage.Page.constructor | src/pages/FamilyEnrolPage.jsx:12-23 | Empty fields. `loading` holds iff the page is in edit mode. |
| FamilyEnrolPage.Page.LoadForEdit | src/pages/FamilyEnrolPage.jsx:27-65 | The post is fetched only in edit mode. On success it fills the text state, e.g. `missing_place \|\| ''`, and the two previews. `loading` ends false. |
| FamilyEnrolPage.Page.HandleImageChange | src/pages/FamilyEnrolPage.jsx:67-80 | A chosen file sets the file and its preview. Clearing the input clears both. |
| FamilyEnrolPage.Page.ClearResultImage | src/pages/FamilyEnrolPage.jsx:317 | The generated image is removed. |
| FamilyEnrolPage.Page.HandleImageGeneration | src/pages/FamilyEnrolPage.jsx:82-110 | A request (`img`, `missing_birth`, `photo_age`) goes out iff the file, birth date and age are all present. On success the result becomes a `blob:` URL. Otherwise the result is unchanged. |
| FamilyEnrolPage.Page.HandleFormSubmit | src/pages/FamilyEnrolPage.jsx:112-204 | It submits iff name, birth, date and age are non-empty and, in register mode, also the file and a generated image are present. Edit sends `EditEntries` to `update_post` and goes to `/mypage` only on success. Register sends `RegisterEntries` to `upload` and goes to `/family` on success and on failure alike. |
| MissingEnrolPage.RequiredFilled | src/pages/MissingEnrolPage.jsx:86 | Name, birth and missing date are all non-empty. |
| MissingEnrolPage.EditEntries | src/pages/MissingEnrolPage.jsx:94-106 | The parts of an edit in append order. Its key and value lemmas state what they are. |
| MissingEnrolPage.RegisterEntries | src/pages/MissingEnrolPage.jsx:128-138 | The parts of a registration in append order. Its key and value lemmas state what they are. |
| MissingEnrolPage.EditEntriesKeys | src/pages/MissingEnrolPage.jsx:95-106 | The edit form is `missing_id`, `type`, `missing_name`, then `img_origin` iff a new file was chosen, then the six detail fields. It has no `photo_age`. |
| MissingEnrolPage.EditEntriesValues | src/pages/MissingEnrolPage.jsx:95-96 | The edit form sends the edit id and `type` 2. |
| MissingEnrolPage.RegisterEntriesKeys | src/pages/MissingEnrolPage.jsx:129-138 | The register form is `type`, `name`, `img_origin`, `gender`, `birth`, `missingDate`, `missing_situation`, `missing_extra_evidence`, `missing_place` and `photo_age`. |
| MissingEnrolPage.RegisterEntriesValues | src/pages/MissingEnrolPage.jsx:129-138 | The register form sends `type` 2, the chosen file, and `photo_age` 0. |
| MissingEnrolPage.BuildEditForm | src/pages/MissingEnrolPage.jsx:94-106 | The appended sequence is exactly `EditEntries`. |
| MissingEnrolPage.BuildRegisterForm | src/pages/MissingEnrolPage.jsx:128-138 | The appended sequence is exactly `RegisterEntries`. |
| MissingEnrolPage.Page.constructor | src/pages/MissingEnrolPage.jsx:12-21 | Empty fields. `loading` holds iff the page is in edit mode. |
| MissingEnrolPage.Page.LoadForEdit | src/pages/MissingEnrolPage.jsx:25-58 | The post is fetched only in edit mode. On success it fills the text state and the preview. `loading` ends false. |
| MissingEnrolPage.Page.HandleImageChange | src/pages/MissingEnrolPage.jsx:60-73 | A chosen file sets the file and its preview. Clearing the input clears both. |
| MissingEnrolPage.Page.HandleFormSubmit | src/pages/MissingEnrolPage.jsx:75-153 | It submits iff name, birth and date are non-empty and, in register mode, a file is present. It routes only on success: `/mypage` for edit and `/missing` for register. |
| EmailModal.Modal.constructor | src/components/EmailModal.jsx:5-6 | Empty text, not sending. |
| EmailModal.Modal.HandleTextChange | src/components/EmailModal.jsx:65 | The text becomes the typed value. |
| EmailModal.Modal.BeginSubmit | src/components/EmailModal.jsx:10-18 | Whitespace-only text alerts, sends nothing and leaves `sending` alone. Any other text is sent with the post id, and `sending` is set. |
| EmailModal.Modal.FinishSubmit | src/components/EmailModal.jsx:19-34 | `sending` is false afterwards. Success clears the text and closes. Only the timeout message alerts. Other failures are silent and keep the text. |
| EmailModal.Modal.HandleSubmit | src/components/EmailModal.jsx:10-34 | Both steps together: blank text changes nothing. A send ends with `sending` false and closes iff it was delivered. |
| EmailModal.Modal.HandleClose | src/components/EmailModal.jsx:36-41 | Close is ignored while sending. Otherwise it clears the text and closes. |
| EmailModal.Modal.Render | src/components/EmailModal.jsx:8-78 | Nothing is rendered when the modal is closed. The inputs are disabled while sending, and the button reads `전송 중...` while sending and `보내기` otherwise. |

## Left out

- HTTP (axios), cookies and the server: every call is an `Http.Response` parameter. Request URLs appear only where a page chooses between them: approve or reject, `update_post` or `upload`.
- DOM and browser APIs: `document.getElementById` reads become a `FormInput` parameter. The prefill writes into the DOM in the enrol pages' edit effect are not modelled; only the state they set is. `FileReader` gives its data URL as a parameter. `URL.createObjectURL` is modelled as `"blob:"` followed by an opaque id. `window.confirm` is a `bool`.
- `fetch(resultImageSrc).blob()` in the family enrol submit is assumed to succeed. The generated image is sent as a `Blob` part naming its URL and `aged_image.png`.
- Concurrency: overlapping effects and the last-response-wins order are not modelled. Each fetch is one atomic method with its outcome. React's batching of state updates is collapsed into sequential field updates.
- EmailModal.Modal.HandleSubmit: the 15-second `Promise.race` is modelled only by its outcome (delivered, the timeout message, or another failure).
- FaceSimilarityCard.FormatSimilarity: `toFixed(2)` is not modelled. A numeric score is kept as a real scaled by 100 rather than rounded to a two-decimal string.
- Js.IntToString, Js.ParseInt: JavaScript numbers are modelled as unbounded integers. `String(n)` switches to exponent notation from 10^21 (`"1e+21"`, which `parseInt` reads as 1), and integers beyond 2^53 lose precision. So `Js.ParseIntOfIntToString` matches JavaScript only for magnitudes below 10^21; page numbers are far below that.
- Alerts outside the search bar and the e-mail modal are not modelled. A guard that alerts and returns shows up only as "no request and no route". This covers the admin page's error and confirmation alerts, the card's delete alerts, and the enrol pages' validation, success and failure alerts. A success alert is always paired with a route or a reload, and those are modelled.
- Js.ParseInt: models `parseInt(s, 10)` on an optional sign and a digit prefix. Leading whitespace is not skipped.
- `Object.keys` order, prototype keys and other JavaScript object details: filters and attributes are finite maps. The region table is a `map<string, map<string, seq<string>>>` parameter.
- RegionSelector.Selector: `doList` (the province keys) is the table's key set. The option order is not modelled.
- Searchbar: the click-outside listener that closes the filter menu is not modelled.
- The plain state setters bound directly to inputs (`setMissingSituation`, `setMissingExtraEvidence`, `setMissingPlace`, `setPhotoAge`) just assign a field. Apart from `HandleTextChange` and `SetActiveTab`, they have no method.
- The enrol-button login check on the listing boards (`handleEnrolClick`), and the rendering of the selected user and of the card texts, are not modelled.
- FamilyEnrolPage.BuildRegisterForm: requires a non-empty generated image. This is the guard its only caller has already passed, and the model keeps the source's inner `if (resultImageSrc)`.
- JSX, CSS and react-router: navigation is a returned route string.
- Navbar, LoginPage, MyPage, the two detail pages, FamilyCard and MissingCard are presentational or authentication plumbing. They are not part of this model. Neither are the `Pagination` and `Footer` components or the `koreaRegions` table.
- Locale date formatting is not modelled.

## Notes on the code

- Edit mode is `!!editId` in both enrol pages (src/pages/MissingEnrolPage.jsx:13-14). An empty `?edit=` therefore means register mode. The model follows the code (`Forms.IsEditMode` is "present and non-empty"), not "the parameter is present".
- A failed listing fetch empties the rows but leaves `totalPages` as it was (src/pages/MissingPage.jsx:56-59). The model keeps that.
- The multimodal page keys a card by its index when a post has neither id. Its `onDelete` then receives a number, which never equals a string id, so such a card's delete removes nothing (`Posts.IndexKeyRemovesNothing`).
