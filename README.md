# Rental listings client: offers, listing form, bid inbox, profile and session

A Dafny model of the decision logic and screen state of a React Native
rental-listing client. Renters browse listings and make monthly offers
("bids"); owners list properties and answer the bids they receive; every
user has a profile and a signed-in session. The model covers five parts:

- **Offer flow** of the listing detail screen (`ListingDetail`).
  - The four-way check of the typed amount against the asking rent: invalid, too low (below 60%), above the asking price (asks for confirmation), or submitted directly.
  - The submission that raises and lowers `submittingBid` around the create-bid call, and the alerts that follow.
  - The owner gate on the offer bar and the phone-number fallback of the call button.
- **Listing form** (`AddListing`).
  - The photo list: append one photo, append several, remove one by position.
  - The property-type choice among four card ids.
  - The submit guard: fields first, then photos. Submitting sends nothing anywhere.
- **Bid inbox** of one listing (`ListingBids`).
  - Status badge colours and icons, each with a default.
  - The total, pending and accepted counters.
  - Accept/Reject offered only on pending bids; the confirmed status update, followed by a refetch.
  - The fetch flags, and the precedence of spinner, error, empty state and list.
- **Profile editor** (`EditProfile`).
  - The name must not be blank after `trim()`.
  - The email must contain a match of the unanchored pattern `\S+@\S+\.\S+`. An executable left-to-right matcher is proved equal to an existential description of a match.
  - The `loading` flag is raised exactly while `updateUser` runs.
- **Session** held by `AuthProvider` (`AuthContext`): `loadStoredUser`, `register`, `login`, `logout` and `updateUser` over `user`, `loading` and `isAuthenticated`.

`JsRuntime` holds the JavaScript behaviour the screens rely on:

- An optional value.
- A thrown value: a string, an error object, or null/undefined.
- `err.toString()`, which itself throws on null/undefined.
- The ECMAScript whitespace set and `String.prototype.trim`.

Backend, device-storage and device-permission calls are parameters of the operation that makes them. A parameter of type `Outcome<T>` is `Ok(value)` when the call resolves and `Fail(thrown)` when it rejects. `parseFloat` is a function-valued field of the bid form, with `None` standing for NaN. An awaited call splits an operation in two where the screen's state during the call matters: `BeginSubmit`/`FinishSubmit` for offers, `HandleSave`/`FinishSave` for the profile. Money is `real`.

The offer check first tests the typed text and then compares `parseFloat` of it. Text that does not parse gives NaN, and NaN fails every comparison. Such text is therefore neither invalid, too low nor too high, and it is submitted directly (`ListingDetail.UnparsableAmountIsSubmitted`).

## Model

| member | source | states |
|---|---|---|
| ListingDetail.ClassifyBid | screens/ListingDetailScreen.js:59-90 | Each of the four decisions holds exactly under its condition. Invalid: the text is empty, or the amount parses to a value ≤ 0. Too low: below 60% of the rent, quoting the minimum and the bid. Confirmation: above the rent. Direct submission: in [minimum, rent], or text that does not parse. |
| ListingDetail.SubmittedAmountIsInRange | screens/ListingDetailScreen.js:60-89 | A parsed amount that reaches submission is positive and at least the minimum. An amount above the rent is submitted only after "Continue". |
| ListingDetail.UnparsableAmountIsSubmitted | screens/ListingDetailScreen.js:60-89 | Non-empty text that `parseFloat` cannot read passes every guard and is submitted without a prompt. |
| ListingDetail.BoundsAreInclusive | screens/ListingDetailScreen.js:66-77 | An amount equal to 60% of the rent, or equal to the rent, is submitted without a prompt. |
| ListingDetail.OffersAgainstAThousand | screens/ListingDetailScreen.js:60-89 | Against a rent of 1000: 700 and 600 go straight through, 500 is too low with minimum 600, 1200 asks for confirmation, 0 is invalid. |
| ListingDetail.PhoneToCall | screens/ListingDetailScreen.js:139-145 | The listing's own number if it is non-empty, else the owner's number if that is non-empty, else none (the "No Phone Number" case). A returned number is never empty. |
| ListingDetail.CallButtonFindsANumber | screens/ListingDetailScreen.js:270-273 | The call button is rendered exactly when the viewer is not the owner and `handleCallOwner` would find a number. |
| ListingDetail.BidForm.constructor | screens/ListingDetailScreen.js:37-40 | The modal starts closed, both fields empty, nothing submitting, no alert, nothing sent. |
| ListingDetail.BidForm.Payload | screens/ListingDetailScreen.js:60-99 | A payload sent without the prompt carries NaN or an amount that is positive and within [minimum, rent]. One sent after the "High Bid" prompt carries an amount above the rent. |
| ListingDetail.BidForm.OpenModal | screens/ListingDetailScreen.js:370-378 | "Make an Offer" exists only for a viewer who is not the owner, and it opens the modal. |
| ListingDetail.BidForm.CloseModal | screens/ListingDetailScreen.js:391-472 | Closing the modal keeps the typed fields. |
| ListingDetail.BidForm.SetAmount | screens/ListingDetailScreen.js:433-434 | The amount field holds the typed text. |
| ListingDetail.BidForm.SetMessage | screens/ListingDetailScreen.js:450-451 | The message field holds the typed text. |
| ListingDetail.BidForm.BeginSubmit | screens/ListingDetailScreen.js:92-99 | `submittingBid` is true while the create call runs. Exactly one call is appended, with the current payload. |
| ListingDetail.BidForm.HandleSubmitBid | screens/ListingDetailScreen.js:59-90 | The decision is the one for the typed amount. Only a direct submission starts a call. Every other decision leaves `sent` and the flag unchanged and shows its own alert. |
| ListingDetail.BidForm.ContinueHighBid | screens/ListingDetailScreen.js:83 | "Continue" on the high-bid prompt submits the payload unchanged. |
| ListingDetail.BidForm.CancelHighBid | screens/ListingDetailScreen.js:82 | "Cancel" dismisses the prompt and submits nothing. |
| ListingDetail.BidForm.FinishSubmit | screens/ListingDetailScreen.js:100-119 | `submittingBid` ends false on success and on failure. Success shows the success alert. A failure shows the error's text; there is no alert when the error has no text because `toString` throws. |
| ListingDetail.BidForm.AcknowledgeSuccess | screens/ListingDetailScreen.js:105-111 | "OK" after a success closes the modal and clears the amount and the message. |
| ListingDetail.BidForm.DismissAlert | screens/ListingDetailScreen.js:61-116 | "OK" on the invalid, too-low or error alert removes it and changes nothing else. |
| AddListing.WithoutIndexDropsOnlyThatPosition | screens/AddListingScreen.js:81-84 | Filtering out position `i` gives `s[..i] + s[i+1..]` when `i` is in range, and the list unchanged otherwise. |
| AddListing.WithoutIndex | screens/AddListingScreen.js:82 | The filtered list is one shorter exactly when the index is in range. |
| AddListing.CheckListing | screens/AddListingScreen.js:107-123 | Missing fields exactly when one of the four fields is empty. No photos exactly when all are filled and there are no photos. Ready otherwise. |
| AddListing.FieldsAreCheckedFirst | screens/AddListingScreen.js:108-116 | An empty form reports missing fields, whatever the number of photos. |
| AddListing.ListingForm.constructor | screens/AddListingScreen.js:15-20 | Empty fields, no photos, type "apartment". |
| AddListing.ListingForm.SelectPropertyType | screens/AddListingScreen.js:141-148 | The type becomes the id of the tapped card, so it is always one of the four ids. |
| AddListing.ListingForm.SetText | screens/AddListingScreen.js:171-212 | The edited field holds the text; the other three are unchanged. |
| AddListing.ListingForm.TakePhoto | screens/AddListingScreen.js:47-61 | With permission and a capture, exactly that URI is appended at the end. Otherwise the list is unchanged. |
| AddListing.ListingForm.PickImage | screens/AddListingScreen.js:63-79 | With permission and a selection, all selected URIs are appended in order. Otherwise the list is unchanged. |
| AddListing.ListingForm.RemoveImage | screens/AddListingScreen.js:81-84 | Drops exactly position `index`, keeping the order of the rest. An out-of-range index changes nothing. |
| AddListing.ListingForm.HandleSubmit | screens/AddListingScreen.js:107-123 | The result is the guard chain on the current form, with fields checked before photos. Success exactly when all four fields are filled and there is a photo. Reads the form and changes nothing. |
| ListingBids.StatusColor | screens/ListingBidsScreen.js:75-88 | An unknown status gets `#666`, and only an unknown status does. |
| ListingBids.StatusIcon | screens/ListingBidsScreen.js:90-103 | An unknown status gets `help-circle-outline`, and only an unknown status does. |
| ListingBids.BadgesTellKnownStatusesApart | screens/ListingBidsScreen.js:75-103 | The four known statuses have four different colours and four different icons. |
| ListingBids.CountStatus | screens/ListingBidsScreen.js:161-167 | A filter count is at most the number of bids. It is zero exactly when no bid has that status. |
| ListingBids.CountIsMultiplicity | screens/ListingBidsScreen.js:161-167 | The filter count equals the number of occurrences of the status among the bids' statuses. |
| ListingBids.DistinctCountsFit | screens/ListingBidsScreen.js:156-167 | The counts of two different statuses add up to at most the number of bids. |
| ListingBids.StatsOf | screens/ListingBidsScreen.js:154-171 | Total is the number of bids. Pending and accepted are the occurrence counts of those statuses, and pending + accepted ≤ total. |
| ListingBids.ActionStatus | screens/ListingBidsScreen.js:236-255 | Only "accepted" or "rejected" is ever sent, and "accepted" exactly for Accept. |
| ListingBids.ActionsFor | screens/ListingBidsScreen.js:232-261 | A card has actions exactly when its bid is pending, and then they are Accept and Reject. |
| ListingBids.Render | screens/ListingBidsScreen.js:105-261 | Spinner exactly while loading. Error panel exactly when not loading and the error is non-empty. Empty state exactly when neither holds and there are no bids. Otherwise the list: its counters are the filter counts, and there is one card per bid in order, carrying that bid's badge colour, icon and actions (actions exactly when pending). |
| ListingBids.BidsScreen.constructor | screens/ListingBidsScreen.js:19-22 | No bids, loading, not refreshing, no error. |
| ListingBids.BidsScreen.FetchBids | screens/ListingBidsScreen.js:28-40 | Both flags end false. On success the fetched list replaces the bids and the error is cleared. On failure the bids are kept and the error is the caught value's text. |
| ListingBids.BidsScreen.OnRefresh | screens/ListingBidsScreen.js:42-45 | Pull to refresh ends like a fetch, with both flags false. |
| ListingBids.BidsScreen.UpdateBidStatus | screens/ListingBidsScreen.js:47-73 | Without confirmation nothing changes. With it, one update for that bid and status is sent. Success shows the success alert and refetches. Failure shows the error's text and keeps the bids, the error and both flags. |
| EditProfile.EmailPatternTestIsShape | screens/EditProfileScreen.js:27 | The matcher accepts exactly the strings with an '@' at `a` and a '.' at `d > a+1`, and no whitespace from `a-1` through `d+1`. |
| EditProfile.RunTracks | screens/EditProfileScreen.js:27 | After reading any text, each flag of the matcher's state holds exactly when that partial match ends at the last character read. |
| EditProfile.ShapeStep | screens/EditProfileScreen.js:27 | Appending a character makes a match exactly when there was one, or the character is non-whitespace right after `\S+@\S+\.`. |
| EditProfile.DomainStep | screens/EditProfileScreen.js:27 | `\S+@\S+` ends at the new character exactly when it is non-whitespace and `\S+@` or `\S+@\S+` ended just before it. |
| EditProfile.ShapeIsNotBlank | screens/EditProfileScreen.js:27 | A matching email is never blank, so `!email.trim()` decides nothing on its own. |
| JsRuntime.TrimEmptyIffBlank | screens/EditProfileScreen.js:22-27 | `!s.trim()` holds exactly when every character of `s` is whitespace. |
| JsRuntime.TrimStart | screens/EditProfileScreen.js:22 | The result is a suffix, not starting with whitespace, and everything removed is whitespace. |
| JsRuntime.TrimEnd | screens/EditProfileScreen.js:22 | The result is a prefix, not ending with whitespace, and everything removed is whitespace. |
| EditProfile.CheckProfile | screens/EditProfileScreen.js:21-30 | Name empty exactly when the name is blank. Email invalid exactly when the name is not blank and the email has no match. Valid exactly when the name is not blank and the email matches. |
| EditProfile.ProfileExamples | screens/EditProfileScreen.js:22-30 | The name "Ana" is not blank and "ana@example.com" matches, so the pair passes both checks. |
| EditProfile.RejectedProfileExamples | screens/EditProfileScreen.js:22-30 | "ana@example" has no match, and a name of two spaces is blank. |
| EditProfile.ReopeningShowsSavedFields | screens/EditProfileScreen.js:17-33 | After a saved update, a reopened editor shows the saved name and email, and every other field of the user is kept. |
| EditProfile.ProfileEditor.constructor | screens/EditProfileScreen.js:17-19 | The fields start as the user's name and email (or empty), not loading, with no update in flight. |
| EditProfile.ProfileEditor.SetName | screens/EditProfileScreen.js:65 | The name field holds the typed text. |
| EditProfile.ProfileEditor.SetEmail | screens/EditProfileScreen.js:75 | The email field holds the typed text. |
| EditProfile.ProfileEditor.HandleSave | screens/EditProfileScreen.js:21-33 | The result is the check's meaning (blank name, then email match). A failed check shows its message and starts no call. A passing one raises `loading` with the untrimmed name and email in flight. |
| EditProfile.ProfileEditor.FinishSave | screens/EditProfileScreen.js:33-42 | `loading` ends false and nothing stays in flight. A written update makes the user the merge of the old user with the fields and shows success. A rejected write keeps the user and shows "Failed to update user". |
| EditProfile.ProfileEditor.AcknowledgeSaved | screens/EditProfileScreen.js:37-39 | "OK" on the success alert navigates back. |
| EditProfile.ProfileEditor.DismissError | screens/EditProfileScreen.js:21-43 | "OK" on an error alert removes it. |
| JsRuntime.ToStringOf | screens/ListingBidsScreen.js:33-35 | A caught string keeps its text. Only null or undefined has no text, because its `toString` throws. |
| AuthContext.Merge | context/AuthContext.js:84 | The keys are those of the update and of the user. Each updated key takes the new value. Each other key of the user keeps its value. A null user contributes nothing. |
| AuthContext.MergeIsIdempotent | context/AuthContext.js:84 | Applying the same update twice gives the same user as applying it once. |
| AuthContext.EmptyUpdateKeepsUser | context/AuthContext.js:84 | An empty update leaves the user as it was. |
| AuthContext.RegisterFailureMessage | context/AuthContext.js:46 | The message is the error when it is a string, and "Registration failed" otherwise. |
| AuthContext.LoginFailureMessage | context/AuthContext.js:64 | The message is the error when it is truthy, and "Login failed" otherwise; it is always truthy. |
| AuthContext.RegisterMessageCanBeEmpty | context/AuthContext.js:46-64 | A thrown empty string is reported as an empty register message, but as "Login failed" on login. |
| AuthContext.AuthSession.constructor | context/AuthContext.js:8-10 | No user, loading, not authenticated. |
| AuthContext.AuthSession.LoadStoredUser | context/AuthContext.js:17-30 | With a token and a stored-user read that resolves, the session takes that user and is authenticated. Otherwise user and flag are unchanged. `loading` ends false on every path. |
| AuthContext.AuthSession.Register | context/AuthContext.js:32-49 | Success exactly when both calls resolve, and then the stored user is signed in. A failure leaves the state unchanged and carries the register message of the first rejection. |
| AuthContext.AuthSession.Login | context/AuthContext.js:51-67 | Success exactly when both calls resolve, and then the stored user is signed in. A failure leaves the state unchanged and carries the login message of the first rejection. |
| AuthContext.AuthSession.Logout | context/AuthContext.js:69-80 | Always ends with no user and not authenticated, whether or not the storage call rejects. |
| AuthContext.AuthSession.UpdateUser | context/AuthContext.js:82-92 | A written update makes the user the merge and succeeds. A rejected write keeps the user and fails with "Failed to update user". The flags are unchanged. |

## Left out

- `parseFloat` is not modelled: it is a function parameter of the bid form, with `None` for NaN. `Infinity` and the partial parse of text such as `"12abc"` are whatever that parameter returns.
- Floating-point rounding of `monthlyRent * 0.6` and of the comparisons: money is `real`, so the minimum is exact.
- `toFixed(2)` formatting of the amounts in the "Bid Too Low" message: the alert carries the two numbers unformatted.
- `fetchListing`, `handleContactOwner` (a "Coming Soon" alert), the image pager and the map of the listing detail screen: loading and display only, outside the offer flow.
- Opening the dialer (`Linking.openURL`) and its failure alert: device I/O.
- Camera and gallery permission prompts and pickers: their answers are parameters of `TakePhoto` and `PickImage`.
- AddListing.ListingForm.TakePhoto: the source appends to the `images` captured when the button was pressed, so another photo added while the picker is open could be overwritten. The model runs operations one after another and does not capture this.
- AddListing.ListingForm.PickImage: the same stale `images` capture as `TakePhoto`.
- Interleavings of asynchronous calls, for example a refetch overtaking a status update, or two saves: operations run one after another.
- ListingBids.BidsScreen.UpdateBidStatus: the refetch after a successful update is not awaited in the source; the model completes it within the same operation.
- ListingBids.BidsScreen.FetchBids: a rejection whose value is null or undefined makes `err.toString()` throw inside the catch. The model then sets no error text, but does not model the unhandled rejection that results.
- ListingDetail.BidForm.FinishSubmit: the same `toString` rejection on a null error is modelled only as "no alert".
- The bidder's name and email, the message, the date and the amount text on a bid card: display only.
- AuthContext.AuthSession.LoadStoredUser: the stored-token check is modelled as a boolean, not as any truthy value.
- AuthContext.UserRecord: stored users are maps from field names to strings. Non-string JSON values, and the `JSON.stringify` written to storage, are not modelled.
- AuthContext.AuthSession.UpdateUser: not part of the invariant that a signed-out session holds no user, because on a signed-out session it creates a user.
- The `useAuth` guard outside a provider, React context plumbing, navigation, styling and console logging.
- Proximity or text search: the explore screen holds no such filtering.
- The REST wrappers and storage helpers behind `api.*` are not part of this model: every call is a resolved-or-rejected parameter.
- The remaining screens (map, home, profile, settings, connection test, my listings, my bids) render hard-coded or fetched data only.
