# TravelTrove front end: the itinerary editor and the page rules around it

This project models, in Dafny, the client-side logic of the TravelTrove
travel-planning web application and proves properties of it.

The centre of the model is the day-by-day itinerary draft editor of the
create-itinerary page. A draft has a title, a destination, a duration,
start and end dates, a budget, a visibility flag and `activities`: a
sequence of days, each holding rows `{time, activity, location, notes}`.
The model covers every handler that changes the draft: the form fields, the
two date pickers, the duration box, the row editor, adding and removing
rows, importing a guide recommendation, and adding and removing days. It
also covers the three submit checks and the request body. Across all of
these it proves two things. Days stay numbered `1..n` with
`durationDays == n`, and no day ever loses its last row. The date pickers
keep a set end date from falling before a set start date, so the third
submit check can never fire from the page.

Around the editor, the model states the small rules of the other pages:

- the review list's checks, tag parsing and edit prefill, with the
  join/parse round trip of tag lists;
- a guide page's quick facts, image list, carousel steps and local review
  list updates;
- the public itinerary list's filter, search, three sort orders and like
  updates;
- the groups page's discover list, join dialog and invitation bookkeeping;
- the admin dashboard's role toggle and guide form;
- a group page's membership tests, e-mail invitation check, reply flags and
  reply target;
- the search page's URL parameters;
- the registration, profile and new-group form checks;
- the dashboard's removals by id;
- the application's route table and route guard.

How the model is built:

- **Shared helpers.** `Optional`, `Server` (the outcome of a request,
  `Ok(data)` or `Failed(message)`), `Strings` (the JavaScript string
  operations the pages use) and `Lists` (`filter` and removal by id).
- **Pages that keep state and change it field by field** are classes whose
  methods change only the fields they name:
  - the itinerary editor (`CreateItinerary.Editor`);
  - the review list (`ReviewList.ReviewListState`);
  - a group page (`GroupDetails.GroupPage`);
  - the search page (`SearchResults.SearchPage`);
  - the profile page (`MyProfile.ProfilePage`).

  Each method is tied to a function of the old state, and the properties
  are proved about those functions.
- **Pages whose updates are expressions** (`filter`, `map`, spread) are
  functions from the old state to the new one.
- **Network requests** are a `Reply` parameter carrying the server's answer
  or its error message. A failed request with no message shows the page's
  fallback text, as `err.response?.data?.message || '…'` does.

## Model

| member | source | states |
|---|---|---|
| CreateItinerary.InitialDraftConsistent | src/pages/CreateItinerary.jsx:70-79 | the starting draft has one day numbered 1 holding one blank 09:00 row, `durationDays` 1, and no dates, so it meets the editor invariant |
| CreateItinerary.WithInput | src/pages/CreateItinerary.jsx:102-116 | a title input sets only the title, a dotted budget input sets only that budget field, the public switch stores `checked`; the invariant is kept |
| CreateItinerary.Editor.HandleChange | src/pages/CreateItinerary.jsx:102-116 | the draft becomes `WithInput` of the old draft and the invariant holds afterwards |
| CreateItinerary.Editor.HandleDestinationChange | src/pages/CreateItinerary.jsx:118-126 | a picked guide puts its title in `destination` and becomes the selected guide; clearing the box stores "" |
| CreateItinerary.WithStartDate | src/pages/CreateItinerary.jsx:129-139 | the new start date is stored; a set end date earlier than it is raised to it, otherwise the end date is kept; nothing else changes and the dates end up ordered |
| CreateItinerary.Editor.HandleStartDateChange | src/pages/CreateItinerary.jsx:129-139 | the draft becomes `WithStartDate` of the old one and the invariant is kept |
| CreateItinerary.EndDateChange | src/pages/CreateItinerary.jsx:142-151 | an end date before a set start date is refused with 'End date must be same or after start date' and the draft is unchanged; otherwise it is stored and the error cleared; ordered dates stay ordered |
| CreateItinerary.ClearingEndDateRefused | src/pages/CreateItinerary.jsx:142-151 | once a start date is set, clearing the end date is refused, because "" compares below every date |
| CreateItinerary.Editor.HandleEndDateChange | src/pages/CreateItinerary.jsx:142-151 | draft and error become `EndDateChange` of the old ones; the invariant is kept |
| CreateItinerary.FreshDays | src/pages/CreateItinerary.jsx:160-162 | the appended days are numbered consecutively from `first` to `last`, each a new day with one blank row |
| CreateItinerary.ParsedDuration | src/pages/CreateItinerary.jsx:154 | `parseInt(value) \|\| 1`: a non-number or 0 gives 1 day, any other number is kept |
| CreateItinerary.SliceEnd | src/pages/CreateItinerary.jsx:164 | where `slice(0, end)` stops: at `end` within the list, at the list's end beyond it, and for a negative `end` that many elements before the end, but not before the start |
| CreateItinerary.Resized | src/pages/CreateItinerary.jsx:153-169 | for `days >= 0` the result has exactly `days` days; a negative `days` drops that many from the end, as `slice` does; the kept days are unchanged, the added ones are new blank days numbered `old+1..days`; numbering and non-empty days are kept |
| CreateItinerary.NegativeDurationBreaksConsistent | src/pages/CreateItinerary.jsx:154-167 | a typed negative duration is stored as it is while days are cut, so the draft's duration no longer matches its days |
| CreateItinerary.ResizeDays | src/pages/CreateItinerary.jsx:153-169 | the updater's loop of pushes and its `slice` produce exactly `Resized(prev, days)` |
| CreateItinerary.Editor.HandleDurationChange | src/pages/CreateItinerary.jsx:153-169 | `durationDays` becomes the parsed duration and the activities are resized to it; for a parsed duration of at least 1 the draft stays consistent with `durationDays == \|activities\| >= 1`, and a negative one leaves it inconsistent |
| CreateItinerary.WithField | src/pages/CreateItinerary.jsx:171-177 | exactly the chosen column of the row takes the value and the other three columns keep theirs |
| CreateItinerary.WithItemField | src/pages/CreateItinerary.jsx:171-177 | only row `itemIndex` of day `dayIndex` changes, and only in the chosen column; every other day and row is unchanged; numbering and non-empty days are kept |
| CreateItinerary.Editor.HandleActivityChange | src/pages/CreateItinerary.jsx:171-177 | the activities become `WithItemField` of the old ones; the invariant is kept |
| CreateItinerary.WithActivityAdded | src/pages/CreateItinerary.jsx:179-185 | the chosen day gains one blank 09:00 row at its end, its old rows are kept in front, and every other day is unchanged |
| CreateItinerary.Editor.AddActivity | src/pages/CreateItinerary.jsx:179-185 | the activities become `WithActivityAdded` of the old ones; the invariant is kept |
| CreateItinerary.WithActivityRemoved | src/pages/CreateItinerary.jsx:187-195 | a day with one row is left as it is; otherwise exactly the row at `itemIndex` goes, the others keep their order; no day drops below one row and other days are unchanged |
| CreateItinerary.Editor.RemoveActivity | src/pages/CreateItinerary.jsx:187-195 | the activities become `WithActivityRemoved` of the old ones; the invariant is kept |
| CreateItinerary.Editor.AddRecommendationClick | src/pages/CreateItinerary.jsx:198-203 | the clicked recommendation is remembered and the day picker opens |
| CreateItinerary.Editor.CloseAddDialog | src/pages/CreateItinerary.jsx:712-735 | Cancel or closing the dialog only closes it; the chosen recommendation and day are kept |
| CreateItinerary.Editor.SelectDayToAdd | src/pages/CreateItinerary.jsx:722-723 | the picked day number is stored |
| CreateItinerary.RecommendationItem | src/pages/CreateItinerary.jsx:209-214 | the imported row is timed 09:00, named after the recommendation, located in the selected guide's city ('' without one) and noted "kind: description" |
| CreateItinerary.Imported | src/pages/CreateItinerary.jsx:216-228 | a day holding only the untouched placeholder row has it replaced by the new row, any other day gets the row appended; other days are unchanged and the invariant is kept |
| CreateItinerary.Editor.ConfirmAddRecommendation | src/pages/CreateItinerary.jsx:205-232 | without a chosen recommendation nothing changes; otherwise it is imported into the picked day, the dialog closes and the choice is cleared |
| CreateItinerary.WithDayAdded | src/pages/CreateItinerary.jsx:234-246 | one new blank day numbered `\|activities\|+1` is appended and the existing days are unchanged |
| CreateItinerary.AddDayIsGrowByOne | src/pages/CreateItinerary.jsx:234-246 | adding a day is the same as raising the duration by one |
| CreateItinerary.Editor.HandleAddDay | src/pages/CreateItinerary.jsx:234-246 | the activities become `WithDayAdded` of the old ones and `durationDays` their new length |
| CreateItinerary.Renumbered | src/pages/CreateItinerary.jsx:250-252 | the days are numbered `1..n` in order and keep their rows |
| CreateItinerary.WithDayRemoved | src/pages/CreateItinerary.jsx:248-260 | exactly the day at `dayIndex` goes; the days before and after it keep their rows and order and are renumbered `1..n-1` without gaps; no day is left empty |
| CreateItinerary.Editor.HandleRemoveDay | src/pages/CreateItinerary.jsx:248-260 | the activities become `WithDayRemoved` of the old ones and `durationDays` their new length |
| CreateItinerary.ScenarioGrowAddRemove | src/pages/CreateItinerary.jsx:153-260 | grow the initial draft to three days, add a row to day 2, remove day 1: two days remain, numbered 1 and 2, and the first has two rows |
| CreateItinerary.SubmitError | src/pages/CreateItinerary.jsx:265-279 | the three checks in order: missing title or destination, then a start date before today, then an end date before the start date; each message is given exactly when its check is the first to fail, and none when all pass |
| CreateItinerary.ThirdCheckUnreachable | src/pages/CreateItinerary.jsx:129-151 | every draft the date handlers leave passes the end-before-start check |
| CreateItinerary.SubmitExamples | src/pages/CreateItinerary.jsx:265-279 | a draft without a title is refused; a titled trip from today to today is accepted |
| CreateItinerary.Unless | src/pages/CreateItinerary.jsx:288-289 | an empty field is left out of the request, a set one is sent unchanged |
| CreateItinerary.ToPayload | src/pages/CreateItinerary.jsx:285-290 | the budget is left out exactly when its amount is empty, empty dates are left out, every other field is copied unchanged |
| CreateItinerary.PayloadRoundTrip | src/pages/CreateItinerary.jsx:285-290 | the request body loses nothing of the draft but the currency of an empty budget |
| CreateItinerary.Editor.HandleSubmit | src/pages/CreateItinerary.jsx:262-297 | a failed check sets its message and sends nothing; otherwise the error is cleared and `ToPayload` of the draft is sent, and a rejection shows the server's message or 'Error creating itinerary'; the draft is not changed |
| ReviewList.CreateCheck | src/components/ReviewList.jsx:35-42 | a blank comment is refused with 'Please enter a comment' before the rating is looked at; then a missing or zero rating with 'Please select a rating'; the form passes exactly when neither holds |
| ReviewList.EditCheck | src/components/ReviewList.jsx:80-83 | an edit is refused exactly when its comment is blank; the rating is not checked |
| ReviewList.BodyOf | src/components/ReviewList.jsx:48-59 | rating and comment are sent as typed, the tags as the comma list parsed from the text |
| ReviewList.EditFormOf | src/components/ReviewList.jsx:69-77 | the edit form is prefilled with the review's rating and comment and its tags joined with ", ", no tags giving "" |
| ReviewList.UnchangedEditKeepsTags | src/components/ReviewList.jsx:69-89 | saving the prefilled form unchanged sends back the review's own tags, when each is non-empty, trimmed and comma-free |
| ReviewList.OwnerWhenBothAbsent | src/components/ReviewList.jsx:217 | with nobody signed in and no author on the review, both ids are undefined and the owner controls show |
| ReviewList.ReviewListState.constructor | src/components/ReviewList.jsx:26-31 | both forms start at five stars, empty comment and no tags; no error, no review being edited, dialog closed |
| ReviewList.ReviewListState.HandleSubmit | src/components/ReviewList.jsx:33-67 | a failed `CreateCheck` sets its message and sends nothing; otherwise the request for the target with `BodyOf` the form is sent; once created the form resets and the review is handed on; a failure keeps the form and shows the server's message or the fallback |
| ReviewList.ReviewListState.HandleEditClick | src/components/ReviewList.jsx:69-77 | the review becomes the one being edited, the edit form is `EditFormOf` it, and the dialog opens |
| ReviewList.EditSubmitted | src/components/ReviewList.jsx:79-103 | the update goes out exactly when the comment is not blank and a review is being edited, carrying that review's id and `BodyOf` the form; the review is handed on and the dialog closed exactly when that update is accepted, otherwise dialog and edited review stay; the error is the blank-comment message, the fallback when nothing is edited, or the server's message on a failed update |
| ReviewList.ReviewListState.HandleEditSubmit | src/components/ReviewList.jsx:79-103 | the request sent, the review handed on and the new error, dialog and editing state are exactly `EditSubmitted` of the old form, edited review, error and dialog flag |
| ReviewList.ReviewListState.HandleDelete | src/components/ReviewList.jsx:105-114 | the id is handed on exactly when the delete is confirmed and accepted; a failed delete shows the server's message or the fallback |
| GuideDetails.LocationText | src/pages/GuideDetails.jsx:71 | "city, country", a missing part printed as "undefined" |
| GuideDetails.CategoryTips | src/pages/GuideDetails.jsx:83-110 | always three tips, those of Adventure for a missing or unknown category |
| GuideDetails.PushNumbered | src/pages/GuideDetails.jsx:78-80 | the pushed items follow the facts already there, which are kept, each in order under the label numbered from 1 |
| GuideDetails.QuickFacts | src/pages/GuideDetails.jsx:69-117 | Location, Category and Attractions come first; then the first `min(n, 3)` interesting facts labelled "Fun Fact 1".., or, with none, the three category tips labelled "Tip 1".., giving six entries |
| GuideDetails.AttractionImages | src/pages/GuideDetails.jsx:152 | the attractions' images in order, repeats kept, with the missing and empty ones filtered out; so exactly the non-empty images of the attractions |
| GuideDetails.ImagesFromAttractions | src/pages/GuideDetails.jsx:152 | a string is among the filtered images exactly when it is non-empty and some attraction has it as its image |
| GuideDetails.AttractionImagesAppend | src/pages/GuideDetails.jsx:152 | the images of two runs of attractions are the images of the first followed by those of the second |
| GuideDetails.CombinedImages | src/pages/GuideDetails.jsx:150-153 | the guide's own truthy images followed by the attractions' images |
| GuideDetails.AllImages | src/pages/GuideDetails.jsx:150-158 | no guide gives no images; for a guide the list is never empty and holds no empty entry: the combined images, or the single default picture when none remain |
| GuideDetails.AllImagesFromGuide | src/pages/GuideDetails.jsx:150-153 | every image shown is non-empty and is one of the guide's or one of an attraction's |
| GuideDetails.Next | src/pages/GuideDetails.jsx:164 | for any index, even one left from another guide, the next index is below `n`; within range it steps forward and wraps from the last picture to the first |
| GuideDetails.Prev | src/pages/GuideDetails.jsx:301 | the previous index steps back by one and wraps from the first picture to the last; it is below `n` when the index was at most `n` |
| GuideDetails.NextPrevInverse | src/pages/GuideDetails.jsx:732-738 | previous undoes next and next undoes previous, for the carousel and the lightbox alike |
| GuideDetails.WithReviewAdded | src/pages/GuideDetails.jsx:224-229 | the new review is put in front of the list |
| GuideDetails.WithReviewUpdated | src/pages/GuideDetails.jsx:231-236 | every review with the updated one's id is replaced by it, all others stay in place |
| GuideDetails.WithReviewDeleted | src/pages/GuideDetails.jsx:238-243 | exactly the reviews with that id go |
| GuideDetails.DeleteUndoesAdd | src/pages/GuideDetails.jsx:224-243 | deleting a just-added review whose id was new restores the list |
| GuideDetails.DeleteAfterUpdate | src/pages/GuideDetails.jsx:231-243 | an update leaves no trace once that review is deleted |
| GuideDetails.UpdateIdempotent | src/pages/GuideDetails.jsx:231-236 | applying the same update twice is applying it once |
| ItinerariesList.PublicOnly | src/pages/ItinerariesList.jsx:57 | exactly the public itineraries of the fetched list are kept |
| ItinerariesList.Searched | src/pages/ItinerariesList.jsx:121-125 | an itinerary is kept exactly when its lower-cased title or destination contains the lower-cased query |
| ItinerariesList.EmptyQueryKeepsNamed | src/pages/ItinerariesList.jsx:121-125 | an empty query keeps exactly the itineraries that have a title or a destination |
| ItinerariesList.Insert | src/pages/ItinerariesList.jsx:126-135 | inserting adds exactly one copy of the itinerary to the list |
| ItinerariesList.InsertKeepsOrder | src/pages/ItinerariesList.jsx:126-135 | inserting into a list sorted largest key first keeps it sorted |
| ItinerariesList.Sorted | src/pages/ItinerariesList.jsx:126-135 | the sort is a permutation of its input with keys non-increasing |
| ItinerariesList.Displayed | src/pages/ItinerariesList.jsx:121-135 | the list shown is a permutation of the search result, ordered by likes, duration or creation time (largest first, missing as 0) as the sort choice says |
| ItinerariesList.DisplayedAreMatches | src/pages/ItinerariesList.jsx:121-135 | an itinerary is shown exactly when it is in the list and passes the search |
| ItinerariesList.NewLikes | src/pages/ItinerariesList.jsx:81-83 | a like appends the user to the likes, an unlike leaves exactly the other users |
| ItinerariesList.WithLike | src/pages/ItinerariesList.jsx:78-87 | only the itinerary with the liked id changes, and only in its likes |
| ItinerariesList.UnlikeUndoesLike | src/pages/ItinerariesList.jsx:78-87 | liking then unliking restores the likes of a user not yet among them |
| ItinerariesList.LikeKeepsSearch | src/pages/ItinerariesList.jsx:78-125 | a like never changes which itineraries the search keeps |
| Groups.GroupIds | src/pages/Groups.jsx:182 | the ids of the user's groups, one per group, in order |
| Groups.DiscoverGroups | src/pages/Groups.jsx:182-186 | exactly the groups whose id is not the id of one of the user's groups |
| Groups.DiscoverAllWhenNoGroups | src/pages/Groups.jsx:182-186 | a user in no group is offered every group, in the original order |
| Groups.DiscoverKeepsOrder | src/pages/Groups.jsx:182-186 | the discover list of two batches is the discover list of each in turn, so the original order is kept |
| Groups.JoinPrivateGroup | src/pages/Groups.jsx:98-107 | signed out, the user is sent to log in and nothing changes; signed in, the dialog opens for the group with the code and error reset |
| Groups.SubmitJoin | src/pages/Groups.jsx:109-139 | a blank code is refused with 'Please enter the invite code' and nothing is sent; otherwise the trimmed code is sent for the selected group, a success brings in the refreshed lists and resets the dialog, a failure shows the server's message or the fallback |
| Groups.SentCodeIsTrimmed | src/pages/Groups.jsx:119 | a non-blank code for a selected group is sent, and the code sent is non-empty and neither starts nor ends with white space |
| Groups.AcceptInvite | src/pages/Groups.jsx:141-163 | the invitation is marked while the request is out and unmarked afterwards whatever the outcome; a success brings in the refreshed lists, invitations defaulting to none |
| Groups.RejectInvite | src/pages/Groups.jsx:165-178 | the same marking and unmarking; a success replaces only the invitations |
| Groups.InviteHandlingReturnsToIdle | src/pages/Groups.jsx:141-178 | handling an invitation changes nothing but the lists it refreshes, so the page is idle again |
| AdminDashboard.ToggledRole | src/pages/AdminDashboard.jsx:402 | the target role is 'user' exactly when the role is 'admin', and 'admin' otherwise |
| AdminDashboard.ToggleTwice | src/pages/AdminDashboard.jsx:402 | pressing the button twice restores 'admin' or 'user'; any other role ends as 'user' |
| AdminDashboard.WithRole | src/pages/AdminDashboard.jsx:100-107 | once accepted, only the users with that id take the new role; a refusal changes nothing |
| AdminDashboard.PromoteThenDemote | src/pages/AdminDashboard.jsx:100-107 | promoting then demoting a plain user restores the user list |
| AdminDashboard.ImagesText | src/pages/AdminDashboard.jsx:120 | the images joined with ", ", or "" without images |
| AdminDashboard.OpenGuideForm | src/pages/AdminDashboard.jsx:109-136 | for a guide every field is copied, '' standing for a missing one and 'Adventure' for a missing category; without one the form is blank; the dialog opens either way |
| AdminDashboard.GuideDataOf | src/pages/AdminDashboard.jsx:140-151 | the flat country and city keys become a nested location, the images text is parsed into a list of non-empty trimmed entries, the other fields are copied |
| AdminDashboard.SaveRequestOf | src/pages/AdminDashboard.jsx:138-157 | the save updates the edited guide's id, or creates a guide when none is being edited |
| AdminDashboard.SaveGuide | src/pages/AdminDashboard.jsx:158-163 | the dialog closes once the server accepts and stays open on a refusal |
| AdminDashboard.UnchangedFormSavesGuide | src/pages/AdminDashboard.jsx:109-151 | a fully filled guide opened and saved unchanged is sent back as it was, images included |
| GroupDetails.MemberIffListed | src/pages/GroupDetails.jsx:79 | a signed-in user is a member exactly when one listed member has their id |
| GroupDetails.CreatorWhenBothAbsent | src/pages/GroupDetails.jsx:80 | with no creator and nobody signed in both ids are undefined and the creator test holds |
| GroupDetails.EmailPatternMeaning | src/pages/GroupDetails.jsx:194 | the pattern accepts exactly the strings with no white space, exactly one '@' with something before it, and a '.' after it that is neither first nor last of the domain |
| GroupDetails.PaddedEmailRefused | src/pages/GroupDetails.jsx:194-205 | an address with leading or trailing white space is refused by the pattern, though the send step would trim it |
| GroupDetails.AcceptedEmailIsTrimmed | src/pages/GroupDetails.jsx:194-205 | what the pattern accepts is already trimmed, so the address sent is the one checked |
| GroupDetails.EmailCheck | src/pages/GroupDetails.jsx:187-198 | a blank address is refused with 'Please enter an email address' before the format check; a badly formed one with 'Please enter a valid email address'; the address passes exactly when it has the e-mail shape |
| GroupDetails.Toggled | src/pages/GroupDetails.jsx:232-237 | only the given post's flag flips, a missing flag counting as false |
| GroupDetails.ToggleTwice | src/pages/GroupDetails.jsx:232-237 | toggling a post twice shows every post as before |
| GroupDetails.ReplyTarget | src/pages/GroupDetails.jsx:500-503 | pressing Reply on the post being answered closes the box; on any other post opens it there |
| GroupDetails.ReplyButtonTwice | src/pages/GroupDetails.jsx:500-503 | pressing Reply twice on the same post closes the box again |
| GroupDetails.GroupPage.constructor | src/pages/GroupDetails.jsx:55-77 | all text fields empty, no dialogs, no reply target and no expanded replies |
| GroupDetails.GroupPage.HandleJoin | src/pages/GroupDetails.jsx:95-117 | signed out the user is sent to log in and nothing changes; a private group with nothing typed opens the code dialog and sends nothing; otherwise the join is sent with the code only for a private group, success closing the dialog and a failure showing the message |
| GroupDetails.GroupPage.HandlePost | src/pages/GroupDetails.jsx:142-156 | blank content is ignored; otherwise it is sent and cleared once accepted, kept with the error shown on failure |
| GroupDetails.GroupPage.HandleSendEmailInvite | src/pages/GroupDetails.jsx:187-212 | a failed `EmailCheck` shows its message and sends nothing; otherwise both messages are cleared and the address sent trimmed, which is the typed one; success shows the server's text and clears the box |
| GroupDetails.Replied | src/pages/GroupDetails.jsx:214-230 | a blank reply sends nothing and changes nothing; otherwise the trimmed, non-empty text is sent, and an accepted reply clears the box and the target and shows that post's replies leaving the others as they were, while a refused one keeps everything but the error |
| GroupDetails.GroupPage.HandleReply | src/pages/GroupDetails.jsx:214-230 | the text sent and the new reply box, target, shown replies and error are exactly `Replied` of the old ones |
| GroupDetails.GroupPage.ToggleReplies | src/pages/GroupDetails.jsx:232-237 | the flags become `Toggled` of the old ones |
| GroupDetails.GroupPage.PressReply | src/pages/GroupDetails.jsx:500-503 | the reply target becomes `ReplyTarget` of the old one and the reply text is cleared |
| SearchResults.QueryParams | src/pages/SearchResults.jsx:64-67 | `q` is present exactly when the query is not blank, and holds the trimmed query; `category` is present exactly when it is not 'All' |
| SearchResults.SearchThenSync | src/pages/SearchResults.jsx:31-67 | after a search, the state read back from the URL holds the trimmed query and the same category |
| SearchResults.FetchParamsOf | src/pages/SearchResults.jsx:45-49 | `search` is present exactly when `q` is present and non-empty, `category` exactly when it is present, non-empty and not 'All' |
| SearchResults.SearchReachesFetch | src/pages/SearchResults.jsx:45-67 | the guide request asks for the trimmed query exactly when it is not blank, and for the category exactly when it is not 'All' |
| SearchResults.SearchPage.constructor | src/pages/SearchResults.jsx:31-32 | the local query and category start from the URL, '' and 'All' when absent |
| SearchResults.SearchPage.Sync | src/pages/SearchResults.jsx:35-38 | the local query and category are read back from the URL |
| SearchResults.SearchPage.FetchParams | src/pages/SearchResults.jsx:45-49 | the parameters built key by key are `FetchParamsOf` the URL |
| SearchResults.SearchPage.HandleSearch | src/pages/SearchResults.jsx:62-68 | the URL becomes `QueryParams` of the local query and category |
| SearchResults.SearchPage.HandleCategoryChange | src/pages/SearchResults.jsx:70-76 | the category becomes the new one and the URL `QueryParams` of the query and that category |
| SearchResults.SearchPage.HandleClearSearch | src/pages/SearchResults.jsx:78-83 | the query is emptied and `q` dropped, the category kept |
| SearchResults.SearchPage.ViewAll | src/pages/SearchResults.jsx:187-191 | query '' and category 'All', and the URL has no parameters |
| Register.PasswordCheck | src/pages/Register.jsx:47-55 | a mismatch is reported exactly when the two differ; too short exactly when they agree and have fewer than 6 characters; nothing otherwise |
| Register.HandleChange | src/pages/Register.jsx:39-42 | only the named field takes the value, and the error is cleared |
| Register.HandleSubmit | src/pages/Register.jsx:44-67 | the account request is sent exactly when the passwords pass the check; a failed check shows its message; the user goes home exactly when the request is accepted, and a failure shows the server's message or 'Registration failed' |
| Register.SentPasswordsAreValid | src/pages/Register.jsx:47-61 | every password sent equals its confirmation and has at least 6 characters |
| Register.MismatchReportedFirst | src/pages/Register.jsx:47-55 | a mismatched password is reported as a mismatch even when it is also too short |
| MyProfile.ChangePasswordCheck | src/pages/MyProfile.jsx:64-71 | 'New passwords do not match' exactly on a mismatch, the length message exactly when they agree but are short, and nothing exactly when registration's rule passes |
| MyProfile.SameRuleAsRegistration | src/pages/MyProfile.jsx:64-71 | a new password is accepted exactly when it matches its confirmation and has at least 6 characters |
| MyProfile.ProfilePage.constructor | src/pages/MyProfile.jsx:35-45 | no message, the user's bio or '', not editing, password section hidden and empty |
| MyProfile.ProfilePage.SaveBio | src/pages/MyProfile.jsx:49-61 | the bio is sent; success leaves edit mode with the success message, failure shows the server's message or the fallback |
| MyProfile.ProfilePage.CancelBio | src/pages/MyProfile.jsx:174 | edit mode ends and the user's bio (or '') comes back |
| MyProfile.ProfilePage.DismissMessage | src/pages/MyProfile.jsx:98 | the message is cleared |
| MyProfile.ProfilePage.ChangePassword | src/pages/MyProfile.jsx:63-86 | a failed check shows its message and sends nothing, fields untouched; otherwise the change is sent, and success clears the three fields and hides the section |
| Dashboard.UnsaveGuide | src/pages/Dashboard.jsx:69-74 | exactly the saved guides with that id go; saved itineraries are untouched |
| Dashboard.UnsaveItinerary | src/pages/Dashboard.jsx:76-81 | exactly the saved itineraries with that id go; saved guides are untouched |
| Dashboard.RemoveTwice | src/pages/Dashboard.jsx:69-81 | removing an id a second time changes nothing |
| Dashboard.UnsaveGuideTwice | src/pages/Dashboard.jsx:69-74 | unsaving a guide is idempotent |
| Dashboard.UnsavesCommute | src/pages/Dashboard.jsx:69-81 | unsaving a guide and unsaving an itinerary commute |
| Dashboard.DeleteItinerary | src/pages/Dashboard.jsx:83-92 | the list loses exactly the itineraries with that id after a confirmed, accepted delete, and is unchanged otherwise |
| Dashboard.DeleteAbsentItinerary | src/pages/Dashboard.jsx:83-92 | deleting an id the list does not hold changes nothing |
| Dashboard.LikedItineraries | src/pages/Dashboard.jsx:60 | a response without data gives no liked itineraries |
| CreateGroup.HandleChange | src/pages/CreateGroup.jsx:28-34 | a text input sets only its field to the text, the checkbox stores `checked` |
| CreateGroup.FormCheck | src/pages/CreateGroup.jsx:39-42 | the form passes exactly when name and description are both non-empty; otherwise 'Please fill in all fields' |
| CreateGroup.BlankNamePasses | src/pages/CreateGroup.jsx:39 | a name of spaces only passes, since the check reads the raw text |
| CreateGroup.HandleSubmit | src/pages/CreateGroup.jsx:36-54 | a failed check shows its message and sends nothing; otherwise the form is sent, success opens the new group with the error cleared, failure shows the server's message or the fallback |
| CreateGroup.FilledFormIsSent | src/pages/CreateGroup.jsx:20-54 | filling both text fields of a fresh form is enough to send it, as a public group |
| AppRoutes.Protect | src/App.jsx:25-45 | an open page always shows; a guarded one shows a spinner while loading, sends a signed-out visitor to /login, a non-administrator on an admin page to /; the page shows exactly when none of these holds |
| AppRoutes.FirstMatch | src/App.jsx:53-94 | the first route whose pattern matches the path, none before it matching |
| AppRoutes.Resolve | src/App.jsx:53-94 | a path matching a route shows that route's page behind its guard; a path matching none redirects to / |
| AppRoutes.RoutesDisjoint | src/App.jsx:53-93 | no path matches two routes |
| AppRoutes.DashboardNeedsSignIn | src/App.jsx:65-72 | a signed-out visitor to /dashboard is sent to /login |
| AppRoutes.CreateGroupNeedsSignIn | src/App.jsx:74-81 | a signed-out visitor to /create-group is sent to /login |
| AppRoutes.CreateItineraryIsOpen | src/App.jsx:73 | /create-itinerary shows for anyone, even while the session loads |
| AppRoutes.AdminRoute | src/App.jsx:84-91 | /admin shows a spinner while loading, sends the signed-out to /login and non-administrators to /, and shows the dashboard to administrators |
| AppRoutes.EditItineraryPathGoesHome | src/App.jsx:94 | the dashboard's edit button leads to `/edit-itinerary/<id>`, which no route matches, so the visitor lands on the home page |
| Strings.Trim | src/components/ReviewList.jsx:35 | `trim()`: the result neither starts nor ends with white space, and is empty exactly when the input is blank |
| Strings.TrimStartUnique | src/components/ReviewList.jsx:35 | the start trim drops exactly the leading white space: it stops at the first other character |
| Strings.TrimEndUnique | src/components/ReviewList.jsx:35 | the end trim drops exactly the trailing white space: it stops after the last other character |
| Strings.TrimIsPadded | src/components/ReviewList.jsx:35 | every string splits into a blank start, a middle that neither starts nor ends with white space, and a blank end |
| Strings.TrimOfPadded | src/components/ReviewList.jsx:35 | `trim()` of a blank start, such a middle and a blank end is that middle; with the row above this fixes the value of `trim()` on every string |
| Strings.Split | src/components/ReviewList.jsx:48-49 | `split(',')`: at least one piece, none holding a comma, joined back with commas giving the input |
| Strings.ParseCommaList | src/components/ReviewList.jsx:48-51 | every parsed entry is non-empty, trimmed and free of commas |
| Strings.SplitAppend | src/components/ReviewList.jsx:48 | `split(',')` of two parts joined by a comma is the split of the first followed by the split of the second |
| Strings.ParseCommaPiece | src/components/ReviewList.jsx:48-51 | a piece without commas parses to its trimmed self, or to nothing when it is blank |
| Strings.ParseCommaListAppend | src/components/ReviewList.jsx:48-51 | a comma separates two parts of the list: the entries of the first part followed by those of the second; with the row above this fixes the parsed list of every input |
| Strings.ParseJoinRoundTrip | src/components/ReviewList.jsx:48-74 | joining a list with ", " and parsing it back gives the same list when every entry is non-empty, trimmed and comma-free |
| Strings.LessTotal | src/pages/CreateItinerary.jsx:134 | any two different date strings are ordered one way or the other |
| Strings.LessAsymmetric | src/pages/CreateItinerary.jsx:145 | two date strings are never each before the other |
| Lists.Filter | src/pages/Dashboard.jsx:72 | `filter` keeps exactly the elements that pass |
| Lists.FilterAppend | src/pages/Groups.jsx:183-186 | filtering a concatenation filters each part in turn, so the kept elements keep their order |
| Lists.RemoveKey | src/pages/Dashboard.jsx:72 | removal by id keeps exactly the elements with another id and never lengthens the list |
| Lists.RemoveKeyAbsent | src/pages/Dashboard.jsx:72 | removing an id no element has changes nothing |
| Lists.RemoveKeyAppend | src/pages/GuideDetails.jsx:238-243 | removal by id distributes over concatenation, so the survivors keep their order |

## Left out

- Network requests, the refetches after them, and the `localStorage` token: each request is a `Reply` parameter holding the server's answer or error message.
- Rendering, styling and markup-only pages are left out. So are the presentation-only files: Home, Login, Footer, the cards and ItineraryDetails.
- Navigation: `navigate(...)` is not modelled. Only the flags saying where a handler sends the user are (`toLogin`, `toHome`, `openGroup`).
- Loading, submitting and processing flags used as guards against double submits are left out, as are the order in which effects re-run. The exception is Groups' `processingInvite`, whose marking is modelled.
- Timers (the five-second carousel advance, the copy-confirmation timeout), `navigator.clipboard`, `navigator.share` and `window.location` are left out. `confirm` and `alert` are reduced to a `confirmed` flag or dropped.
- Today's date is a parameter instead of a clock read, and locale date formatting is left out.
- The floating-point average rating and its `toFixed(1)` are left out.
- CreateItinerary.Editor: in the source, rows are changed in place through nested arrays shared with the previous React state. The model replaces the day's rows by value, so that aliasing is not modelled.
- CreateItinerary.Editor.HandleDurationChange keeps the draft consistent only for a parsed duration of at least 1. The number box's minimum of 1 only bounds its arrow buttons, so a typed "-2" reaches the handler. The source then stores -2 as the duration and `slice(0, -2)` drops two days, and a later submit sends the -2. The model follows this (NegativeDurationBreaksConsistent), but the other editor handlers require a consistent draft, so what they do after such an input is not modelled.
- CreateItinerary.Editor.ConfirmAddRecommendation requires the selected day to lie within the current days. The source reads it as a string minus 1 and would fail on a selection left stale by a shorter duration.
- Strings.Lower lower-cases ASCII letters only, not the full Unicode case mapping of `toLowerCase`.
- String lengths count characters, where JavaScript `.length` counts UTF-16 code units. This matters only for the six-character password rule on text outside the Basic Multilingual Plane. Likewise Strings.Less compares characters where JavaScript `<` compares UTF-16 code units. The two orders differ only between characters outside the Basic Multilingual Plane and those from U+E000 up, and the dates it compares are ASCII.
- ItinerariesList.Sorted proves a permutation sorted by the chosen key. It does not prove the stability of `Array.prototype.sort` among equal keys.
- ItinerariesList.Itinerary: `createdAt` is the creation time in milliseconds, so `new Date(...)` parsing of the server's date text is not modelled.
- GuideDetails.CategoryTips and GroupDetails.Toggled look keys up in a map of their own. Inherited object keys such as `constructor`, which `defaultFacts[category]` and `prev[postId]` would find on a JavaScript object, are not modelled.
- AppRoutes.Resolve takes the path as its list of non-empty segments. How the router splits URLs and ranks routes is not modelled; that no path matches two routes makes the ranking irrelevant.
- GuideDetails: the save, share and copy handlers, the lightbox opening and the map link are left out; only the index steps are modelled.
- SearchResults: `handleKeyPress` only forwards Enter to `handleSearch`, which is modelled.
- Groups: the create and view handlers are left out, since they only navigate.
- GroupDetails: leaving and deleting a group, fetching the invite code and editing the group are left out. They are a request followed by a refetch, with no rule of their own.
- AdminDashboard: the delete handlers for guides, itineraries and reviews are left out. They are a confirmed request followed by a refetch.
- Groups.DiscoverGroups compares ids as given. The source passes both sides through `?.toString() || _id`, which is the identity on the string or missing ids modelled here; an id of another type is not modelled.
- GuideDetails.LocationText: a missing key prints "undefined". A key stored as null, which prints "null", is not modelled.
- GuideDetails.Prev: the carousel index is not reset when another guide loads, so it may be left past the end of a shorter picture list. Next brings such an index back in range; Prev only steps it back by one, and its bound is stated for indices up to `n`.
