# ImmoNext functional core in Dafny

ImmoNext is a Next.js application for real-estate agencies. Agencies have
staff accounts, listings with images, and a public gallery. The code exists in
two generations:

- the `app/` routes run without authentication;
- the `app1/` routes are scoped by role. A SUPER_ADMIN sees everything. Agency
  staff see their own agency. A user without an agency sees nothing.

This project models the pure decisions under the React, ORM and storage plumbing:

- the `slugify` helper;
- the route handlers for registration, login, agencies, listings and image
  upload. Each handler is a function from the caller, the request body and the
  store to a status, a body, a new store and an optional session cookie;
- the session token and the server-side current-user lookup;
- the client-side logic of the pages: image-URL text parsing, payload
  construction, per-agency visibility, the gallery filters and sort, the image
  viewer, the navigation menus and the page gates.

The database is an in-memory `Store` of sequences. Creating a record hands out
the next free id, and a reference to a missing agency or listing is refused.
Password hashing and comparison, JWT signing and verification, the storage
service, its public URLs and the clock are oracles passed in as parameters.

Layout: one module per source file. `Values`, `Strings`, `Lists`, `UrlList`,
`Records`, `Session` and `Client` hold the shared vocabulary. `Flows` chains
requests across routes.

## Model

| member | source | states |
|---|---|---|
| Slug.Slugify | app/api/auth/register/route.js:7-15 | The slug has only a-z, 0-9 and single dashes, and never starts or ends with a dash; a null, absent or empty value gives ""; its a-z and 0-9 characters are exactly those of the trimmed, lower-cased text without diacritics, in the same order |
| Slug.SlugifyIdempotent | app1/api/agencies/route.js:5-13 | Slugifying a slug gives the same slug |
| Slug.SlugFixedPoint | app1/api/auth/register/route.js:7-15 | Every non-empty text of slug shape is its own slug |
| Slug.Collapse | app/api/auth/register/route.js:13 | The result never holds two dashes in a row, keeps a leading slug character and turns a leading run of other characters into a dash |
| Slug.CollapseRun | app/api/auth/register/route.js:13 | For slug characters `x`, a non-empty run `w` of other characters and a rest `y` that is empty or starts with a slug character, `x + w + y` collapses to `x + "-"` followed by the collapse of `y`: each run becomes exactly one dash, in place |
| Slug.CollapsePrefix | app/api/auth/register/route.js:13 | Slug characters in front of any text are kept as they are |
| Slug.CollapseAtRun | app/api/auth/register/route.js:13 | A non-empty run of characters outside a-z0-9 in front of a slug character or the end becomes one dash |
| Slug.DropRunOfRun | app/api/auth/register/route.js:13 | The whole run of characters outside a-z0-9 is consumed and nothing after it |
| Slug.CollapseSlugChars | app/api/auth/register/route.js:13 | The replacement keeps every a-z and 0-9 character, in order |
| Slug.TrimDashes | app/api/auth/register/route.js:14 | Exactly one leading dash and one trailing dash are removed when present, and nothing else |
| Slug.TrimDashesSlugChars | app/api/auth/register/route.js:14 | Removing the end dashes removes no a-z or 0-9 character |
| Slug.SlugOfChars | app/api/auth/register/route.js:7-15 | The slug's a-z and 0-9 characters are those of the trimmed, lower-cased, mark-free text, in order |
| Slug.SlugifyExample | app/api/auth/register/route.js:7-15 | "Agence Lyon" gives "agence-lyon" |
| Slug.SlugifyText | app/api/auth/register/route.js:8 | A non-empty name is slugified as its own text |
| Slug.CollapseOfSlugShaped | app/api/auth/register/route.js:13 | Text already made of slug characters and single dashes passes through the replacement unchanged |
| Slug.TrimDashesOfSlugShaped | app/api/auth/register/route.js:14 | Removing one leading and one trailing dash from slug-shaped text leaves a text that neither starts nor ends with a dash |
| Slug.SlugOfSlug | app/api/auth/register/route.js:8-14 | Every step of the slug pipeline leaves a slug unchanged |
| Strings.Trim | app/api/listings/route.js:69 | The trimmed text has no white space at either end, is an infix of the input with only white space before and after it, and equals the input when that was already trimmed |
| Strings.TrimInfix | app/api/listings/route.js:69 | Trimming drops white space only, at the front and at the back, and keeps the infix between |
| Strings.StripMarks | app/galerie/page.js:162 | A character survives exactly when it is in the input and is not a combining mark U+0300 to U+036F |
| Strings.Split | app/annonces/page.js:67 | Splitting gives at least one piece, and no piece contains the separator |
| Strings.SplitJoin | app/annonces/page.js:267-268 | Joining pieces that avoid the separator and splitting the result again gives the pieces back |
| Strings.IndexOfAfter | app/annonces/page.js:67 | The first separator after a prefix without one is the one right after the prefix |
| Strings.DigitsRoundTrip | app/api/uploads/listing-images/route.js:29 | The decimal text of a natural number reads back as that number |
| Strings.ParseNumber | app/api/listings/route.js:58 | `Number` of a text: blank text is 0, a run of digits with white space around it is its value, a leading `+` or `-` gives the signed value, and every other text is NaN |
| Strings.ParseNumberOfInt | app/api/listings/route.js:58 | `Number` reads back every integer written out in decimal |
| Strings.TextOrEmpty | app/api/listings/route.js:69 | `String(u \|\| "")`: a falsy value gives "", and a string gives itself |
| Lists.Filter | app/annonces/page.js:450 | The result keeps exactly the elements that pass, is no longer than the input, and is a sub-multiset of it |
| Lists.FilterAppend | app/annonces/page.js:450 | Filtering a concatenation concatenates the filtered parts, so kept elements stay in input order |
| Lists.FilterAll | app/galerie/page.js:146-184 | A filter that every element passes returns the whole sequence |
| Lists.FilterIdempotent | app/galerie/page.js:84 | Filtering twice with the same test is filtering once |
| UrlList.CleanPieces | app/api/listings/route.js:67-71 | After trimming and dropping empty pieces, each remaining piece is non-empty and trimmed, and there are no more pieces than before |
| UrlList.CleanPiecesSingleton | app/api/listings/route.js:67-71 | One piece is kept as its trimmed text, or dropped when that is empty; with CleanPiecesAppend this fixes the result for every list |
| UrlList.CleanPiecesMembers | app/api/listings/route.js:67-71 | Every kept piece is the trimmed text of an input piece, and every input piece whose trimmed text is not empty is kept in that trimmed form |
| UrlList.CleanPiecesAppend | app/api/listings/route.js:67-71 | Cleaning keeps the input order: cleaning a concatenation concatenates the cleaned parts |
| UrlList.CleanPiecesOfClean | app/api/listings/route.js:67-71 | Pieces that are already non-empty and trimmed come through unchanged |
| UrlList.CleanPiecesAvoid | app/annonces/page.js:65-70 | Cleaning never introduces the separator into a piece |
| UrlList.ParseList | app1/annonces/page.js:61-64 | Every parsed URL is non-empty, trimmed and free of the separator. The URLs are exactly the trimmed pieces between separators that are not empty |
| UrlList.JoinParseRoundTrip | app/annonces/page.js:267-268 | Clean URLs joined with the separator parse back to the same list, the empty list included |
| Records.ParseStatus | app/api/listings/route.js:83 | The database accepts exactly the three enum names, and reading a name back gives it again |
| Records.StatusNameRoundTrip | app/api/listings/route.js:83 | Every status survives being written as its name and read back |
| Records.FindUserByEmail | app/api/auth/register/route.js:59 | The lookup finds a stored user with that e-mail, or reports that no stored user has it |
| Records.FindUserById | lib/auth.js:34-35 | The lookup finds a stored user with that id, or reports that no stored user has it |
| Records.FindAgency | app1/api/agencies/route.js:34-36 | The lookup finds a stored agency with that id, or reports that none has it |
| Records.CreateAgency | app/api/agencies/route.js:34-42 | The agency is appended under the next free id; nothing else changes and the store stays valid |
| Records.CreateUser | app/api/auth/register/route.js:97-112 | The user is appended under the next free id; the store stays valid when the e-mail is new and the agency exists |
| Records.ImageRows | app1/api/listings/route.js:87-92 | There is one image row per URL, in order, with positions 0 to n-1, all attached to the listing |
| Records.CreateListing | app/api/listings/route.js:75-99 | A listing whose agency does not exist is refused. Otherwise the listing and its image rows are appended, and the store stays valid |
| Records.TouchLogin | app/api/auth/login/route.js:40-43 | Only the logged-in user's `lastLoginAt` changes |
| Records.TouchLoginValid | app/api/auth/login/route.js:40-43 | Recording a login keeps the store valid |
| Records.FindAppendedUser | app/api/auth/register/route.js:59 | A user appended under a new e-mail is the one that the e-mail lookup finds |
| Session.Fail | app/api/agencies/route.js:27-32 | A failure reply stores nothing and sets no cookie |
| Session.SignAuthToken | lib/auth.js:13-23 | The token carries exactly the user's id, role and agency id, and is valid for 604800 seconds (7 days) |
| Session.AuthCookie | app/api/auth/login/route.js:45-54 | The cookie `auth_token` is httpOnly, sameSite lax, has path "/", and lives as long as the token inside it |
| Session.ViewOf | lib/auth.js:34-51 | The projection leaves out the password hash. A user without an agency gets no agency. A brief shown is always the brief of a stored agency with the user's agency id, and for a stored user of a valid store with an agency the brief is always shown |
| Session.CurrentUser | lib/auth.js:26-57 | No cookie, a token that does not verify, and an unknown user all give null, never an error. Otherwise the result is the view of the stored user the token names |
| Session.SessionRoundTrip | lib/auth.js:13-57 | A cookie issued for a stored user leads back to that user's view |
| Client.LoadMe | app/NavBar.jsx:24-35 | A page knows a user only after an ok reply, and then it knows the user in that reply |
| Client.MeRoute | app1/api/auth/me/route.js:4-10 | The me route answers 401 exactly when there is no current user |
| Client.PagesSeeTheSessionUser | app1/api/auth/me/route.js:4-10 | What a page learns from the me route is exactly the server-side current user |
| Client.CardOf | app/api/listings/route.js:12-21 | The listing JSON keeps the id, agency and price, and its status text reads back as the stored status |
| AppRegisterRoute.LocalPart | app/api/auth/register/route.js:74 | `email.split("@")[0]` is the prefix of the e-mail up to its first "@", or the whole e-mail when it has none |
| AppRegisterRoute.DefaultName | app/api/auth/register/route.js:73-74 | The name is the typed name, else the agency name, else the e-mail's local part, else "Utilisateur"; it is never empty |
| AppRegisterRoute.OwnerRole | app/api/auth/register/route.js:67-83 | An owner is SUPER_ADMIN exactly when no user exists yet, and AGENCY_ADMIN otherwise |
| AppRegisterRoute.RegisterOwner | app/api/auth/register/route.js:79-118 | 201 with a cookie for the new owner. One agency is appended, with the given name, city, country and phone, the slug of its name and the owner's e-mail. One user is appended, linked to that agency, with the hashed password and the default name, SUPER_ADMIN exactly when no user existed before and AGENCY_ADMIN otherwise. Listings and images are unchanged and the store stays valid |
| AppRegisterRoute.RegisterUserOnly | app/api/auth/register/route.js:119-143 | 201 with a cookie for the new user. One user is appended, an AGENT without agency, with the hashed password and the default name. No agency is created, listings and images are unchanged, and the store stays valid |
| AppRegisterRoute.Post | app/api/auth/register/route.js:17-172 | The checks run in order and the first failure wins, each with its own message: credentials, then agency fields for anything but USER_ONLY, then a free e-mail. The reply is 201 exactly for accepted bodies; every failure leaves the store unchanged and sets no cookie |
| AppRegisterRoute.OwnerRegistration | app/api/auth/register/route.js:79-118 | An owner gets a new agency whose slug comes from its name and whose e-mail is the user's. The user is linked to that agency, is SUPER_ADMIN exactly when no user existed before, is active, and receives the cookie |
| AppRegisterRoute.UserOnlyRegistration | app/api/auth/register/route.js:119-143 | A USER_ONLY account is an AGENT without an agency, even as the first user, and no agency is created |
| App1RegisterRoute.Register | app1/api/auth/register/route.js:37-86 | 201 with a cookie for the new user. One agency is appended with the given fields and the slug of its name. One user is appended, linked to it, with the hashed password and the name or else the agency name, SUPER_ADMIN exactly when no user existed before. Listings and images are unchanged and the store stays valid |
| App1RegisterRoute.Post | app1/api/auth/register/route.js:17-94 | Any missing field gives 400, then a taken e-mail gives 400, each with its own message, and both leave the store unchanged. On success the user belongs to the new agency, is SUPER_ADMIN exactly when no user existed before, and gets the cookie |
| App1RegisterRoute.AgreesWithAppOwner | app1/api/auth/register/route.js:22-86 | For every body, this route agrees with the `app/` route for an agency owner on status, store, cookie, user and agency |
| AppAgenciesRoute.Get | app/api/agencies/route.js:5-19 | Anyone gets every agency |
| AppAgenciesRoute.NewAgency | app/api/agencies/route.js:34-42 | Name, city and country are copied; a falsy e-mail or phone is stored as null, and a given one is kept |
| AppAgenciesRoute.Post | app/api/agencies/route.js:22-52 | A missing name, city or country gives 400 with its message and creates nothing. Otherwise 201 with a new agency that has no slug; the store is the old one with that agency appended and the id counter advanced by one, and nothing else changes |
| App1AgenciesRoute.Get | app1/api/agencies/route.js:15-46 | No session gives 401. SUPER_ADMIN gets every agency. Anyone else gets at most their own agency, and gets it whenever it exists |
| App1AgenciesRoute.Post | app1/api/agencies/route.js:48-94 | The checks run in order, each with its own message: 401, then 403 for anyone but SUPER_ADMIN, then 400 for missing fields; none of these changes the store. A created agency carries the slug of its name; the store is the old one with that agency appended and the id counter advanced by one, and nothing else changes |
| App1AgenciesRoute.DiffersFromAppOnlyInSlug | app1/api/agencies/route.js:73-86 | For a SUPER_ADMIN the two generations reply alike and store the same agency under the same id, except for the slug |
| AppListingsRoute.Get | app/api/listings/route.js:5-29 | With an agency id, exactly that agency's listings; without one, every listing |
| AppListingsRoute.CleanImageUrls | app/api/listings/route.js:67-71 | A non-array gives []. Otherwise every URL is non-empty and trimmed, there are no more URLs than entries, and the URLs are exactly the trimmed texts of the entries that are not empty |
| AppListingsRoute.CleanImageUrlsSingleton | app/api/listings/route.js:67-71 | One entry is kept as its trimmed text, or dropped when that is empty; with CleanImageUrlsAppend this fixes the result for every array |
| AppListingsRoute.CleanImageUrlsAppend | app/api/listings/route.js:67-71 | Cleaning keeps the order of the entries |
| AppListingsRoute.CleanImageUrlsOfClean | app/api/listings/route.js:67-71 | URLs that are already clean come through unchanged |
| AppListingsRoute.StatusOf | app/api/listings/route.js:83 | An absent status is ACTIVE; a given one must be an enum name |
| AppListingsRoute.Post | app/api/listings/route.js:32-109 | The checks run in order, each with its own message: missing fields give 400, then a price that is NaN or negative gives 400 (0 is accepted), then the database may refuse with 500. A created listing has the defaults null description, "EUR" and ACTIVE, and one image per cleaned URL with positions 0 to n-1 |
| App1ListingsRoute.Get | app1/api/listings/route.js:5-37 | No session gives 401. SUPER_ADMIN reads every listing, a user without an agency reads none, anyone else reads exactly their agency's listings |
| App1ListingsRoute.TargetAgency | app1/api/listings/route.js:72-75 | Only SUPER_ADMIN can name the agency; every other caller's listing goes to their own agency |
| App1ListingsRoute.Post | app1/api/listings/route.js:39-108 | The checks run in order, each with its own message: 401, then 403 for a caller without an agency who is not SUPER_ADMIN (before the body is read), then 400 for a missing field where a price of 0 counts as missing. Images get positions 0 to n-1 in the order sent |
| App1ListingsRoute.StaffCannotChooseAgency | app1/api/listings/route.js:72-75 | For a caller who is not SUPER_ADMIN, the agency named in the body changes nothing, and the listing goes to the caller's agency |
| LoginRoute.Post | app/api/auth/login/route.js:7-83 | The reply is 400, then 401 for an unknown e-mail, then 403 for a disabled account (checked before the password), then 401 with the same message for a wrong password. Only success records the login time and sets the cookie; its body is the user's projection |
| LoginRoute.WrongPasswordLooksLikeUnknownEmail | app/api/auth/login/route.js:24-38 | A wrong password gets exactly the reply that an unknown e-mail gets |
| UploadRoute.DashSpaces | app/api/uploads/listing-images/route.js:27 | White space is gone, every other character is kept, and nothing but dashes is added |
| UploadRoute.DashSpacesRun | app/api/uploads/listing-images/route.js:27 | The replacement works in place, one run at a time: text without white space is kept, and the whole white-space run after it becomes exactly one dash |
| UploadRoute.DashSpacesOfSpaceless | app/api/uploads/listing-images/route.js:27 | A name without white space is left as it is |
| UploadRoute.SafeName | app/api/uploads/listing-images/route.js:27 | The safe name is the dashed name with every ASCII capital lowered, character by character. It has no white space and no capital, and is no longer than the file name |
| UploadRoute.SafeNameIdempotent | app/api/uploads/listing-images/route.js:27 | Sanitising a safe name changes nothing |
| UploadRoute.StoragePath | app/api/uploads/listing-images/route.js:29 | The path starts with "listings/" and ends with the safe name |
| UploadRoute.StoragePathsDistinct | app/api/uploads/listing-images/route.js:23-29 | Two entries of one request never share a storage path, whatever the clock reads |
| UploadRoute.Answers | app/api/uploads/listing-images/route.js:24-37 | Only file entries reach the storage service: a non-file gets no request, and a file gets exactly the request built from its index and the time read for it |
| UploadRoute.RefusedFromMeans | app/api/uploads/listing-images/route.js:39-49 | The recursive "some later upload was refused" holds exactly when a refused index exists |
| UploadRoute.FileIndices | app/api/uploads/listing-images/route.js:25 | The listed indices are in range, strictly increasing, and are all file entries |
| UploadRoute.FileIndicesComplete | app/api/uploads/listing-images/route.js:25 | No file entry is missing from the list |
| UploadRoute.Uploads | app/api/uploads/listing-images/route.js:23-57 | The loop fails exactly when some file is refused; otherwise there is one URL per file |
| UploadRoute.UploadsInOrder | app/api/uploads/listing-images/route.js:52-56 | When every upload succeeds, the k-th URL is the public URL of the k-th file's stored path |
| UploadRoute.UploadAt | app/api/uploads/listing-images/route.js:52-56 | In a successful loop, the file at the k-th position was stored, and its public URL is the k-th URL |
| UploadRoute.LoopStep | app/api/uploads/listing-images/route.js:23-57 | One iteration: a non-file changes nothing, a stored file moves its URL into the gathered list, and a refused file ends the loop with its error |
| UploadRoute.LoopEnds | app/api/uploads/listing-images/route.js:21-61 | Nothing is gathered before the loop, and nothing is left after it |
| UploadRoute.UploadAll | app/api/uploads/listing-images/route.js:21-57 | The loop returns the first storage error, or the public URLs of all files in order |
| UploadRoute.Post | app/api/uploads/listing-images/route.js:7-73 | No entries give 400. Otherwise the reply is 200 exactly when every file was stored and 500 on the first refusal, with at most one URL per entry |
| AnnoncesPage.ParseImageUrls | app/annonces/page.js:65-70 | A missing text gives no URL. Otherwise the URLs are exactly the trimmed lines that are not empty, and each is non-empty, trimmed and on one line |
| AnnoncesPage.EditRoundTrip | app/annonces/page.js:264-269 | Saving an edit without touching the URL text keeps the listing's image list, when its URLs are clean |
| AnnoncesPage.SubmittedUrls | app/annonces/page.js:211-214 | The typed URLs come first, then the uploaded ones, each group in its own order |
| AnnoncesPage.PayloadAgency | app/annonces/page.js:226 | Only SUPER_ADMIN chooses the agency; anyone else sends their own agency |
| AnnoncesPage.CreatePayload | app/annonces/page.js:216-228 | The body names the agency that PayloadAgency picks and carries the submitted URLs |
| AnnoncesPage.SubmittedUrlsClean | app/annonces/page.js:211-214 | Every submitted URL is clean when the uploaded ones are |
| AnnoncesPage.ServerKeepsSubmittedUrls | app/annonces/page.js:211-228 | The listing route's URL cleanup leaves the page's submitted URLs unchanged |
| AnnoncesPage.CreateFromPage | app/annonces/page.js:216-246 | A listing created from the page by anyone but SUPER_ADMIN belongs to that user's agency. Its images are the typed URLs and then the uploaded ones, in order |
| AnnoncesPage.ResetForm | app/annonces/page.js:248-252 | After creation the form is blank again, except that a user who is not SUPER_ADMIN keeps their agency |
| AnnoncesPage.QueryOf | app/annonces/page.js:92-95 | The agency query parameter is sent exactly when one agency is chosen |
| AnnoncesPage.InitialFilter | app/annonces/page.js:125-137 | A user who is not SUPER_ADMIN and has an agency is pinned to it; everyone else starts on every agency |
| AnnoncesPage.ChangeFilter | app/annonces/page.js:157-163 | A filter change is ignored unless the user is SUPER_ADMIN |
| AnnoncesPage.VisibleListings | app/annonces/page.js:446-450 | SUPER_ADMIN and users without an agency see every listing; anyone else sees exactly their agency's listings, and nothing is added |
| AnnoncesPage.StaffStaysOnOwnAgency | app/annonces/page.js:125-163 | Whatever filter a staff member picks, the page stays pinned to their agency and shows only its listings |
| App1AnnoncesPage.ParseImageUrls | app1/annonces/page.js:61-64 | The URLs are exactly the trimmed comma-separated pieces that are not empty, and each is non-empty, trimmed and free of commas |
| App1AnnoncesPage.PriceJson | app1/annonces/page.js:71 | `Number(price)` goes out as that number, or as null when it is NaN |
| App1AnnoncesPage.Payload | app1/annonces/page.js:66-73 | The body keeps every form field, except that the price becomes `Number(price)` and the image text becomes the parsed list |
| App1AnnoncesPage.AfterSubmit | app1/annonces/page.js:76-82 | The form is reset to the initial form only after a successful POST |
| App1AnnoncesPage.ZeroPriceSent | app1/annonces/page.js:71 | A blank price and "0" are both sent as the number 0 |
| App1AnnoncesPage.ZeroPriceRefused | app1/annonces/page.js:61-82 | For a caller allowed to create listings, a blank or zero price makes the server answer 400, and the form keeps what was typed |
| App1AnnoncesPage.ImagesFromForm | app1/annonces/page.js:61-73 | A listing created from the form has the typed URLs as its images, in order, at positions 0 to n-1 |
| GaleriePage.ActiveOnly | app/galerie/page.js:82-85 | A reply that is not an array gives nothing; otherwise exactly the ACTIVE listings are kept |
| GaleriePage.ModeOf | app/galerie/page.js:185-199 | "PRICE_ASC" and "PRICE_DESC" are recognised, and every other value sorts by date |
| GaleriePage.ComparatorAgreesWithKey | app/galerie/page.js:185-200 | The page's comparator, with the infinities written out, is the order of a sort key in which a missing price is infinite; it is antisymmetric |
| GaleriePage.ExtLeTrans | app/galerie/page.js:185-200 | The key order is transitive |
| GaleriePage.SortedCons | app/galerie/page.js:185-200 | An element no greater than every element of a sorted list may head it |
| GaleriePage.HeadIsLeast | app/galerie/page.js:185-200 | Anything no greater than the head of a sorted list is no greater than every element |
| GaleriePage.InsertedAfterHead | app/galerie/page.js:185-200 | When `x` goes after the head, the head is no greater than anything in the rest with `x` inserted |
| GaleriePage.Insert | app/galerie/page.js:185-200 | Inserting into a sorted list keeps it sorted and adds exactly the new element |
| GaleriePage.Sort | app/galerie/page.js:185-200 | The sort returns a sorted permutation of its input |
| GaleriePage.Visible | app/galerie/page.js:146-200 | The gallery shows a permutation of exactly the listings that pass every filter, sorted in the chosen mode |
| GaleriePage.PriceAscOrder | app/galerie/page.js:186-190 | Ascending price: prices never decrease, and unpriced listings come after every priced one |
| GaleriePage.PriceDescOrder | app/galerie/page.js:191-195 | Descending price: prices never increase, and unpriced listings still come last |
| GaleriePage.DateDescOrder | app/galerie/page.js:196-199 | Newest first, with an undated listing counted as time 0 |
| GaleriePage.InitialFiltersKeepAll | app/galerie/page.js:38-43 | With the controls as the page starts, every listing is shown |
| GaleriePage.BlankFiltersMatch | app/galerie/page.js:149-181 | A blank search, "ALL" city and type, and empty price bounds let every listing through |
| Strings.StripMarksAppend | app/galerie/page.js:162 | Removing marks distributes over concatenation |
| GaleriePage.FoldAppend | app/galerie/page.js:160-162 | Case and mark folding distributes over concatenation |
| GaleriePage.LowerIdempotent | app/galerie/page.js:164 | Lowering case twice is lowering it once |
| GaleriePage.SearchFindsTitle | app/galerie/page.js:149-167 | A search for text that the title contains, ignoring white space around it, finds the listing |
| GaleriePage.HaystackSplit | app/galerie/page.js:151-159 | The haystack splits around an occurrence in the title: what comes before it, the occurrence, and the rest |
| GaleriePage.FoldedOccurrence | app/galerie/page.js:160-167 | Folding keeps an occurrence: the folded middle occurs in the folded whole |
| Lightbox.Open | app/annonces/page.js:421-426 | Opening does nothing for a listing without images; otherwise the viewer opens on that listing at the given index |
| Lightbox.Close | app/annonces/page.js:428-432 | Closing clears the listing and resets the index to 0 |
| Lightbox.Next | app/galerie/page.js:116-120 | The index moves one forward, wrapping from the last image to the first, and stays in range |
| Lightbox.Prev | app/galerie/page.js:122-126 | The index moves one back, wrapping from the first image to the last, and stays in range |
| Lightbox.NextPrevInverse | app/annonces/page.js:434-444 | Next and previous undo each other |
| Lightbox.Tick | app/galerie/page.js:129-143 | The auto-slide steps forward only while the viewer is open on more than one image |
| NavBar.CheckAuth | app/NavBar.jsx:16-42 | An ok reply counts as logged in, even without a user; anything else counts as logged out. Either way the check is then done |
| NavBar.Links | app/NavBar.jsx:59-102 | The hrefs are exactly "/", "/galerie", "/annonces", "/agences", "/admin/agences" for SUPER_ADMIN; "/", "/galerie", "/annonces" for anyone else with an agency; and "/galerie" alone otherwise. Hrefs are distinct |
| NavBar.DiffersAt | app/NavBar.jsx:119 | A text that differs from a prefix within both does not start with it |
| NavBar.OnlyOneAdminLink | app/NavBar.jsx:97-119 | Only the admin agencies link begins with "/admin" |
| NavBar.ActiveIsPageOrAdmin | app/NavBar.jsx:117-119 | A highlighted link is the current page's, or the admin link on an admin page |
| NavBar.AtMostOneActive | app/NavBar.jsx:116-128 | Whatever the page, at most one menu link is highlighted |
| NavBar.Footer | app/NavBar.jsx:133-164 | Login and register show while logged out, logout shows while logged in, none of them before the check, and settings always show last |
| NavBar.Logout | app/NavBar.jsx:44-54 | Whether or not the request succeeds, the user is forgotten and the browser goes to /login |
| NavBar.LogoutShowsLogin | app/NavBar.jsx:44-102 | After logout the footer offers login again, and the menu is down to the gallery |
| NavBar.EmptyOkReply | app/NavBar.jsx:24-28 | An ok reply without a user shows logout but only the gallery link |
| ComponentsNavBar.Links | components/NavBar.jsx:74-81 | The fixed list keeps its order; "/" and "/annonces" always show, and "/agences" shows exactly for SUPER_ADMIN |
| ComponentsNavBar.AtMostOneActive | components/NavBar.jsx:86 | With exact-match highlighting, at most one link is highlighted |
| ComponentsNavBar.AdminButton | components/NavBar.jsx:98-109 | The admin button shows exactly for SUPER_ADMIN, and is highlighted exactly on /admin/agences |
| ComponentsNavBar.Footer | components/NavBar.jsx:112-135 | Login shows while logged out and logout while logged in, neither before the check; there is no register button, and settings always show last |
| ComponentsNavBar.LoginLogoutExclusive | components/NavBar.jsx:114-128 | Login and logout never show together |
| RegisterPage.Submit | app/register/page.js:25-64 | The checks run in order: credentials, then a matching confirmation, then agency fields for an owner; only the first failure is shown, and nothing is sent. An owner's agency fields go out nested under `agency`; every other account type sends `agency: null` |
| RegisterPage.ServerBody | app/register/page.js:51-64 | Read with the route's top-level destructuring, the page's body has no agency name, city, country, phone or name |
| RegisterPage.OwnerSignUpRefused | app/register/page.js:55-63 | As written, every owner sign-up that passes the page's checks is refused by the route with 400, and nothing is created |
| RegisterPage.OwnerSignUpRefusedExample | app/register/page.js:51-64 | A fully filled-in owner form still gets 400 |
| RegisterPage.FlatServerBody | app/api/auth/register/route.js:21-32 | A body with the agency fields at the top level, where the route reads them |
| RegisterPage.FlatSignUpAccepted | app/api/auth/register/route.js:43-118 | With the flat body, every sign-up that passes the page's checks is accepted exactly when the e-mail is new; an owner then gets the agency typed in the form |
| RegisterPage.UserOnlySignUpAccepted | app/register/page.js:39-63 | A USER_ONLY sign-up, sent as written, is accepted exactly when the e-mail is new |
| RegisterPage.AfterReply | app/register/page.js:75-92 | Only a successful reply sends the browser to /login |
| App1RegisterPage.OnArrival | app1/register/page.js:26-43 | A visitor who is already logged in is sent to the dashboard |
| App1RegisterPage.NameOrAgency | app1/register/page.js:69 | The name falls back to the agency name when empty |
| App1RegisterPage.Submit | app1/register/page.js:49-74 | A password shorter than 6 is refused first, then a confirmation that differs, and nothing is sent. Otherwise the body carries the fields, the defaulted name, and no phone when it is empty |
| App1RegisterPage.SentBodyAccepted | app1/register/page.js:66-74 | A body that the page sends is accepted exactly when e-mail, agency name, city and country are filled in and the e-mail is new; the account gets the page's defaulted name |
| App1RegisterPage.AppRegisterRouteName | app1/api/auth/register/route.js:59 | The stored name is the body's name when it is not empty, and the agency name otherwise |
| App1RegisterPage.AfterReply | app1/register/page.js:83-88 | Only a successful reply goes to the dashboard |
| AgencesPage.LoadAuth | app/agences/page.js:28-51 | After the session check the page knows the user from the reply, and the check counts as done |
| AgencesPage.Decide | app/agences/page.js:54-71 | No decision is taken before the check. Without a user the page replaces with /login, for anyone but SUPER_ADMIN it replaces with /galerie, and SUPER_ADMIN is allowed |
| AgencesPage.Arrival | app/agences/page.js:28-129 | Only SUPER_ADMIN gets the agencies, and the placeholder shows exactly when they are not fetched. Without a user the page goes to /login, and any other user goes to /galerie |
| AgencesPage.NothingBeforeCheck | app/agences/page.js:54-118 | Before the check answers, nothing is decided or fetched and the placeholder shows |
| AdminAgencesPage.AgencyList | app/admin/agences/page.js:51-52 | A reply that is not an array becomes [] |
| AdminAgencesPage.CheckAuthAndLoad | app/admin/agences/page.js:14-59 | A reply that is not ok goes to /login, and a user who is not SUPER_ADMIN goes to "/". A failed request or an empty body stays put with a runtime error. Only SUPER_ADMIN is marked checked and fetches the agencies; an error reply shows its message or the default, and otherwise the list is empty |
| AdminAgencesPage.PlanLabel | app/admin/agences/page.js:156 | An absent plan shows as "FREE" |
| AdminAgencesPage.StatusLabel | app/admin/agences/page.js:159 | The status column depends on `isActive` alone and tells the two states apart |
| AdminAgencesPage.SuperAdminSeesAll | app/admin/agences/page.js:37-52 | When the page loads the agencies route's reply, a SUPER_ADMIN sees a row for every stored agency and no other row, with no error; a reply whose body is not an array lists nothing |
| AdminAgencesPage.RowOf | app/admin/agences/page.js:136-160 | A row shows the agency's own id, name, city, country, e-mail and phone, with its plan and active flag |
| Flows.RegisteredUserFound | app/api/auth/register/route.js:97-112 | After a registration, the e-mail lookup finds the new active user with the password's hash |
| Flows.RegisterThenLogin | app/api/auth/login/route.js:19-38 | A fresh account can log in at once with the password it registered |
| Flows.LoginThenSession | lib/auth.js:26-57 | The cookie a login sets leads back to the user the login returned |

## Left out

- React state, effects, rendering and `fetch` are not modelled. Each page handler is a function from the replies it receives to the state and navigation it produces.
- The store is a set of in-memory sequences. Transactions are atomic by construction, and ORM failures other than a refused foreign key or enum value are not modelled. The catch-all 500 branches appear only for a request body that is not JSON or is `null` (a `None` body); any other JSON value, an array or a number say, reads every field as absent and so meets the 400 checks.
- `bcrypt`, `jsonwebtoken` (signing, verification and expiry), the storage service and `Date.now` are oracle parameters. The cookie's `secure` flag depends on `NODE_ENV` and is left out.
- lib/auth.js:8-10: the module-load check for `AUTH_SECRET` is environment configuration.
- Ids are natural numbers handed out by the store. A falsy id (`agencyId || null`) is taken to be an absent one.
- Database defaults are not visible in the source:
  - a new account is taken to be active;
  - the `app1/` listing status is the parameter `defaultStatus`;
  - `createdAt` and `plan` are inputs;
  - the admin overview's `plan` and `isActive` are not columns of the modelled agency record, so AdminAgencesPage.RowOf takes them as lookups by agency id.
- Strings.Lower: only ASCII letters are folded. `toLowerCase` of other letters is not modelled.
- Slug.Slugify: NFD normalisation is the identity, so input is taken to be already decomposed, and lowercasing is ASCII only.
- GaleriePage.Visible: the same normalisation and lowercasing assumptions apply to the search text.
- app1/api/listings/route.js: an `imageUrls` field that is truthy but not an array makes `.map` throw a TypeError, which the route answers with 500; the model reads the field as an optional array of scalars and cannot hold such a value.
- app/admin/agences/page.js: an ok agencies reply whose body is not JSON makes `res.json()` throw; CheckAuthAndLoad does not tell that case apart from a well-formed reply.
- Strings.ParseNumber: only an optional sign and decimal digits are read. Decimals, exponents, hexadecimal and "Infinity" are NaN in the model, and prices are integers.
- AppAgenciesRoute.Get: the newest-first `orderBy` is not modelled; the result is stated as a multiset. The same holds for App1AgenciesRoute.Get, AppListingsRoute.Get and App1ListingsRoute.Get, stated as sets or multisets in store order.
- GaleriePage.Sort: sortedness and permutation are proved. The stability of the engine's sort, which fixes the order of ties, is not stated.
- GaleriePage.DateDescOrder: dates are integer milliseconds; an unparsable date (NaN) is not modelled.
- App1RegisterPage.Submit: the password length counts characters, not UTF-16 code units.
- App1ListingsRoute.Post: a price that is not a number is stored as `None`, standing for NaN; what the database does with NaN is not modelled. Array entries in `imageUrls` are taken to be strings.
- UploadRoute.Post: the catch block for exceptions thrown by the form parser or the storage client is not modelled. An entry that is not a `File` is a `TextEntry`.
- AnnoncesPage: `handleUpdate` and `handleDelete` call the `[id]` listing routes, which are not part of this model. Only the edit text's join/parse round trip is covered. The lightbox is shared with the gallery.
- Listing cards carry image URLs instead of image objects. Date and price formatting (`toLocaleDateString`, `toLocaleString`) is left out.
- The gallery's auto-slide timer is not modelled; only its step (`Lightbox.Tick`) is.

## Findings

| source | as written | input that shows it | evidently intended | confidence | as-written member | corrected member |
|---|---|---|---|---|---|---|
| app/register/page.js:55-63 | The page sends the agency fields nested under `agency`, but the route reads `agencyName`, `city` and `country` at the top level (app/api/auth/register/route.js:21-32, 46-56). Every agency-owner sign-up from the page is refused with 400 "Pour un compte agence, agencyName, city et country sont obligatoires" | the form accountType "AGENCY_OWNER", email "a@b.fr", password and confirmation "secret", agency "Agence", "Lyon", "France", phone "" | the body carries `agencyName`, `city`, `country` and `phone` at the top level, so that a valid owner sign-up creates the agency and its owner | not executed | RegisterPage.OwnerSignUpRefused | RegisterPage.FlatSignUpAccepted |
