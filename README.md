# AgriLink frontend rules in Dafny

AgriLink is a marketplace that connects farmers and buyers. Its web frontend is mostly
presentation code around a remote API. Under the presentation sit a few small rules, and
this project models them and proves what they guarantee:

- the direct-messaging page (`Messages`): chat channels, the rule that admits a socket
  broadcast into the feed, sending, selecting a conversation, loading the conversation
  list and the new-chat modal;
- the orders page (`Orders`) and the incoming-offers page (`Offers`): records bucketed
  into tabs by status (`Buckets`), id-to-name tables (`Lookup`), paying for an order,
  and accepting or declining an offer;
- the payment dialog (`Payment`): the transport table, the fee and the bill;
- the marketplace buy dialog (`Marketplace`): the trade unit of a crop, the quantity
  stepper and the simulated checkout;
- the farmer's product page (`Farmer`): the standard product table, the owner filter,
  the product form and saving or deleting;
- the signed-in layout (`LoggedIn`) and the desktop bar (`TopNav`): link lists by role,
  the active link, session start-up and logout.

Pure rules are functions and lemmas. React state becomes a class per component: each
handler becomes a method with a `modifies` frame. An `async` handler is split at its
`await` into a `Begin…` method and a method that takes the settled response as a
parameter. `handleStartNewChat` is the exception: it changes state only after its
`await`, so `Messages.MessagesPage.StartNewChat` is one method that logs the request and
takes the outcome as a `bool`. Two handlers await twice and are still split only once: `handlePaymentSubmit`
(the post, then the refetch) ends in `Orders.OrdersPage.FinishPaymentSubmit`, and
`fetchConversations` (the chat list, then the profiles) in
`Messages.MessagesPage.ConversationsLoaded`, so the state between their two awaits is not
represented. The HTTP requests a page sends and the socket events it emits are recorded,
in order, in its `requests` and `emitted` fields. JavaScript values the rules depend on
are modelled explicitly:

- `Common.Field` tells `undefined`, `null` and a string apart;
- `Common.Flag` separates truthiness from strict `=== true`;
- `Payment.Amount` is `parseFloat` of a field that may be missing or unparseable;
- `TopNav.NavLink.EmptyEntry` is the `{}` that a commented-out array entry leaves.

`Array.prototype.sort` on strings is modelled as lexicographic order of characters (`Text.LexLe`).

Where the code and the design disagree, the model follows the code:

- A late history response replaces the feed of whichever conversation is open by then
  (`Messages.LateHistoryIsApplied`).
- The current user's own broadcasts are dropped by sender alone, whatever their content
  (`Messages.OwnBroadcastDropped`).
- With no conversation open, the channel test is `message.chatId === null`, so a
  broadcast whose `chatId` is `null` is accepted (`Messages.IdleAcceptsOnlyNullChannel`).
- The bottom navigation trims and lower-cases the role; the top bar compares it
  exactly (`LoggedIn.RoleComparedDifferently`).
- The farmer's bottom "My Products" link goes to `/marketplace`; the top bar's goes to
  `/farmermarketplace`.
- `PaymentModal.handleConfirm` has no `finally`, so a rejected `onSubmit` would leave the
  dialog submitting (`Payment.PaymentModal.FinishConfirm`). The one `onSubmit` in this
  model, the orders page's `handlePaymentSubmit` (order.jsx:84-103), catches every error
  and never rejects, so there the dialog always ends not submitting.
- A stored user that parses to `null` leaves the layout loading forever, with no
  redirect (`LoggedIn.Layout.Mount`).
- A later successful fetch does not clear an earlier error message on the orders and
  offers pages.

## Model

| member | source | states |
|---|---|---|
| Text.IsSpace | src/pages/messages.jsx:150 | the characters `trim` removes: the JavaScript white-space and line-terminator set |
| Text.Trim | src/components/loggedin.jsx:39 | `.trim()`: both ends' white space removed, as TrimStart and TrimEnd state |
| Text.IsBlank | src/pages/messages.jsx:150 | `!newMessage.trim()`: the trimmed text is empty |
| Text.Contains | src/pages/marketplace.jsx:7-11 | `.includes(sub)`: `sub` is a prefix of some suffix |
| Text.LexLe | src/pages/messages.jsx:137 | the order `.sort()` puts the two ids in: character by character, a proper prefix first |
| Text.LexLeTotal | src/pages/messages.jsx:119 | any two ids are ordered one way or the other by the string sort |
| Text.LexLeAntisymmetric | src/pages/messages.jsx:137 | two ids each sorted no later than the other are equal |
| Text.TrimStart | src/pages/messages.jsx:150 | the result is a suffix of the input; everything dropped is whitespace; it does not start with whitespace |
| Text.TrimEnd | src/components/loggedin.jsx:39 | the result is a prefix of the input; everything dropped is whitespace; it does not end with whitespace |
| Text.BlankIffAllSpace | src/pages/messages.jsx:150 | `!text.trim()` holds exactly when every character is whitespace |
| Text.ToLower | src/pages/marketplace.jsx:6 | same length; each character lower-cased on its own |
| Text.ToLowerIdempotent | src/pages/marketplace.jsx:6 | lower-casing twice is lower-casing once |
| Seqs.Filter | src/pages/messages.jsx:22-26 | the result is no longer than the input and holds exactly the input elements that pass the test |
| Seqs.FilterMultiset | src/pages/messages.jsx:22-26 | each passing element keeps its multiplicity; failing ones vanish |
| Seqs.FilterConcat | src/pages/farmer.jsx:90 | filtering keeps input order: the filter of a concatenation is the concatenation of the filters |
| Seqs.FindIndex | src/pages/farmer.jsx:159 | the position of the first passing element, and absent exactly when none passes |
| Seqs.Find | src/components/payment.jsx:14 | the result is the first element passing the test, and is absent exactly when none passes |
| Messages.ChatId | src/pages/messages.jsx:137 | `[a, b].sort().join('-')`: the lesser id, a dash, the greater one; the three derivation sites (118-120, 137, 152) all use it, and its properties are the lemmas below |
| Messages.ChatIdSymmetric | src/pages/messages.jsx:137 | both participants derive the same channel, whoever starts the conversation |
| Messages.ChatIdSortedJoin | src/pages/messages.jsx:118-120 | the channel is the lesser id, a dash, then the greater id |
| Messages.ChatIdInjective | src/pages/messages.jsx:152 | for ids without dashes, different pairs of participants never share a channel |
| Messages.ChatIdCollidesWithDashes | src/pages/messages.jsx:137 | ids containing a dash can collide: ("a-b","c") and ("a","b-c") share "a-b-c" |
| Messages.CurrentChatId | src/pages/messages.jsx:118-120 | the channel of the active conversation, or `null` without one |
| Messages.Accepts | src/pages/messages.jsx:122-124 | a broadcast is admitted when its `chatId` strictly equals the current channel and its sender is not the current user |
| Messages.OwnBroadcastDropped | src/pages/messages.jsx:124 | a broadcast sent by the current user is never admitted, whatever its content or channel |
| Messages.ForeignChannelDropped | src/pages/messages.jsx:122 | with a conversation open, a broadcast for another channel is dropped |
| Messages.CounterpartMessageAccepted | src/pages/messages.jsx:117-126 | a message the counterpart sends on the channel it derives on its side is admitted |
| Messages.IdleAcceptsOnlyNullChannel | src/pages/messages.jsx:118-122 | with no conversation open, exactly the broadcasts whose `chatId` is `null` and that come from someone else are admitted |
| Messages.MessagesPage.Receive | src/pages/messages.jsx:117-127 | an admitted broadcast is appended at the end of the feed; otherwise the feed is unchanged |
| Messages.HistoryFeed | src/pages/messages.jsx:141-144 | the feed a history response installs: `chats`, `[]` when it is missing, `[]` after a failure |
| Messages.Directory | src/pages/messages.jsx:90-99 | the conversation list after a chat-list response and its profile requests |
| Messages.ResolveProfiles | src/pages/messages.jsx:93-95 | `Promise.all` gives one profile per id, in id order, and fails exactly when some profile request fails |
| Messages.ChatListIds | src/pages/messages.jsx:90 | `res.data.chatList \|\| []`: the listed ids, none when the list is missing or the request failed |
| Messages.ProfileRequests | src/pages/messages.jsx:90-93 | one profile request per listed id, in order; a missing `chatList` lists none |
| Messages.DirectoryOutcome | src/pages/messages.jsx:86-105 | an empty id list gives no conversations; otherwise one profile per id in id order; any failure keeps the previous list |
| Messages.MessagesPage.constructor | src/pages/messages.jsx:65-71 | empty list, no active chat, empty feed and input, loading, modal closed; the chat list is requested |
| Messages.MessagesPage.BeginFetchConversations | src/pages/messages.jsx:86-89 | loading starts and the chat list is requested |
| Messages.MessagesPage.ConversationsLoaded | src/pages/messages.jsx:89-104 | the list becomes the directory outcome, the profile requests are logged, loading ends in every case |
| Messages.MessagesPage.SelectConversation | src/pages/messages.jsx:135-140 | the user becomes active, `joinChat` is emitted with the derived channel, and the history of that channel is requested |
| Messages.MessagesPage.HistoryLoaded | src/pages/messages.jsx:140-145 | the feed is replaced wholesale: by `chats`, by `[]` when it is missing, by `[]` when the request failed |
| Messages.MessagesPage.Type | src/pages/messages.jsx:219 | the input holds the typed text |
| Messages.MessagesPage.Send | src/pages/messages.jsx:148-171 | with blank input or no active chat nothing changes and nothing is emitted; otherwise exactly one `sendMessage` {channel, self, counterpart, untrimmed text, no image} is emitted, exactly one optimistic message is appended after the earlier ones, and the input is cleared |
| Messages.MessagesPage.OpenModal | src/pages/messages.jsx:190 | the new-chat modal opens |
| Messages.MessagesPage.CloseModal | src/pages/messages.jsx:185 | the new-chat modal closes |
| Messages.MessagesPage.StartNewChat | src/pages/messages.jsx:173-181 | on success the modal closes and the chat list is requested again; on failure only the `addchat` request happened |
| Messages.IsCandidate | src/pages/messages.jsx:22-25 | the filter's test: another role, another user, and an id not in the existing-chat list |
| Messages.Candidates | src/pages/messages.jsx:20-29 | a non-array body gives none; otherwise exactly the users of another role, other than the current user, not in the id list, with their multiplicities |
| Messages.CandidatesKeepOrder | src/pages/messages.jsx:22-26 | candidates keep the order of the fetched users |
| Messages.ExistingIdsAsPassed | src/pages/messages.jsx:185 | mapping `_id` over the names the page passes gives one `undefined` per conversation |
| Messages.AsCalledIgnoresConversations | src/pages/messages.jsx:21-25 | as called, the candidates are the users of another role other than the current user; open conversations exclude no one |
| Messages.AsCalledOffersOpenConversation | src/pages/messages.jsx:185 | a counterpart already in the conversation list is offered again |
| Messages.CandidatesAsCalled | src/pages/messages.jsx:185 | the filter as the page's call runs it, over the ids `_id` yields on the passed names |
| Messages.ConversationIds | src/pages/messages.jsx:21 | one id per conversation, in order |
| Messages.CandidatesFor | src/pages/messages.jsx:21-25 | the filter with the open conversations' ids, as evidently intended |
| Messages.CandidatesForExcludesOpenConversations | src/pages/messages.jsx:20-26 | passed the ids, the candidates are exactly the fetched users of another role, other than the current user, with no open conversation |
| Messages.NewChatModal.constructor | src/pages/messages.jsx:10-11 | no users, loading, no request yet |
| Messages.NewChatModal.BeginFetch | src/pages/messages.jsx:15-19 | opening the modal starts loading and requests the users |
| Messages.NewChatModal.UsersLoaded | src/pages/messages.jsx:19-35 | with a body the list becomes the candidates for the explicit id list `existingChats.map(c => c._id)`; after a failure it is kept; loading ends in both cases |
| Messages.ModalOffersOpenConversation | src/pages/messages.jsx:185 | opened with the page's conversations passed as the page passes them, the modal lists a counterpart whose conversation is already open |
| Messages.LateHistoryIsApplied | src/pages/messages.jsx:135-141 | the history of an earlier selection, arriving late, becomes the feed of the later conversation, so that feed holds only messages of another channel |
| Messages.SendThenOwnEcho | src/pages/messages.jsx:161-169 | after a send and the server's echo of it, the feed holds exactly the one optimistic copy, and `joinChat` then `sendMessage` were emitted |
| Buckets.Collect | src/pages/order.jsx:54-72 | the reduce yields the initial tabs plus every tab a record needs, each holding exactly that tab's records in input order |
| Buckets.ExactlyOneBucket | src/pages/order.jsx:56-70 | a record is in the array of its own tab and in no other |
| Buckets.BucketConcat | src/pages/offers.jsx:54-63 | each array keeps input order: the bucket of a concatenation is the concatenation of the buckets |
| Buckets.SizesSumToLength | src/pages/order.jsx:54-72 | counting each tab once, bucket sizes add up to the number of records |
| Buckets.PartitionSizes | src/pages/offers.jsx:52-63 | listing each key of the accumulator once, its array sizes add up to the number of records |
| Lookup.NameMap | src/pages/order.jsx:36 | the spread-reduce `{ ...acc, [r._id]: r.name }` over the records, in order |
| Lookup.NameMapSpec | src/pages/order.jsx:36 | the table has an entry for exactly the records' ids, and each entry is the name of the last record with that id |
| Lookup.Get | src/pages/order.jsx:78-79 | `table[key]`: the entry, or `undefined` when the key is absent |
| Lookup.LaterDuplicateWins | src/pages/offers.jsx:23 | a later record with the same id overrides an earlier one |
| Orders.OrderTab | src/pages/order.jsx:57-69 | the tab an order is pushed to: `paid`/`accepted` for a paid order by truthy `transporting`, `rejected` for `declined`, otherwise its status |
| Orders.PaidOrderTab | src/pages/order.jsx:57-64 | a paid order goes to `paid` exactly when `transporting` is truthy, and to `accepted` otherwise |
| Orders.UnpaidOrderTab | src/pages/order.jsx:66-69 | `declined` goes to `rejected`; any other status goes to the tab of that name |
| Orders.GroupOrders | src/pages/order.jsx:54-73 | the grouping is a partition of the orders by tab that includes the five initial tabs |
| Orders.OrdersLandOnce | src/pages/order.jsx:54-72 | every order lands in exactly one array, and the array sizes add up to the number of orders |
| Orders.UnknownStatusHidden | src/pages/order.jsx:176-180 | an order whose tab is not one of the five shown is under none of them |
| Orders.Ref.Key | src/pages/order.jsx:78-79 | the property key `productsMap[order.product]` looks up: the id, or `"[object Object]"` for an object |
| Orders.SelectForPayment | src/pages/order.jsx:76-80 | the selected order is the clicked one with only `product` and `farmer` replaced by `{ name: lookup }` |
| Orders.PaymentPayload | src/pages/order.jsx:88-91 | the payload is {order id, option name}, and there is none for an `undefined` option |
| Orders.OrdersPage.constructor | src/pages/order.jsx:13-23 | empty orders and tables, loading; the tab is `accepted`; the three fetches are requested |
| Orders.OrdersPage.BeginFetch | src/pages/order.jsx:25-32 | loading starts and orders, products and users are requested |
| Orders.OrdersPage.DataLoaded | src/pages/order.jsx:33-46 | success replaces the orders and both tables; failure keeps them and sets the error; loading ends either way |
| Orders.OrdersPage.Grouped | src/pages/order.jsx:54-73 | the page's tabs partition its current orders |
| Orders.OrdersPage.SelectTab | src/pages/order.jsx:166-170 | the tab is the one clicked |
| Orders.OrdersPage.OpenPaymentModal | src/pages/order.jsx:75-82 | the dialog opens on the order as selected for payment |
| Orders.OrdersPage.ClosePaymentModal | src/pages/order.jsx:155 | the dialog closes |
| Orders.OrdersPage.BeginPaymentSubmit | src/pages/order.jsx:84-92 | with no selected order nothing happens; an `undefined` option ends submitting without a request; otherwise the payload is posted |
| Orders.OrdersPage.FinishPaymentSubmit | src/pages/order.jsx:92-103 | on success the dialog closes, the banner shows, the tab becomes `paid` and the data is fetched again; on failure nothing else changes; submitting ends |
| Orders.OrdersPage.ClearSuccess | src/pages/order.jsx:97 | the banner is cleared |
| Orders.PayForOrder | src/pages/order.jsx:75-98 | paying with the default option posts the order id with "Boda Boda Express" and ends on the `paid` tab with the dialog closed |
| Offers.OfferTab | src/pages/offers.jsx:55-58 | the tab an offer is pushed to: `inTransit` for a paid offer strictly transporting, `rejected` for `declined`, otherwise its status |
| Offers.InTransitIff | src/pages/offers.jsx:55-60 | an offer is in the `inTransit` array exactly when it is paid and `transporting` is strictly `true`, or its status is itself `inTransit` |
| Offers.OtherOfferTabs | src/pages/offers.jsx:57-60 | `declined` goes to `rejected`; any other offer not in transit goes to the tab of its status, `paid` included |
| Offers.GroupOffers | src/pages/offers.jsx:52-64 | the grouping is a partition of the offers by tab that includes the five initial tabs |
| Offers.PaidNotTransportingHidden | src/pages/offers.jsx:135-139 | a paid offer not strictly transporting sits in a `paid` array that no displayed tab shows |
| Offers.OffersLandOnce | src/pages/offers.jsx:52-63 | every offer lands in exactly one array, and the array sizes add up to the number of offers |
| Offers.Route | src/pages/offers.jsx:40 | `/api/acceptoffer/{id}` for `accept`, `/api/declineoffer/{id}` for any other action |
| Offers.ParseRoute | src/pages/offers.jsx:40 | reads a route back into its kind and offer id, the inverse RouteRoundTrip proves |
| Offers.RouteRoundTrip | src/pages/offers.jsx:40 | the route names the offer; `accept` accepts and every other action declines |
| Offers.SuccessMessage | src/pages/offers.jsx:43 | "Offer successfully ", then the action, then "ed!" |
| Offers.ErrorMessage | src/pages/offers.jsx:47 | "Failed to ", then the action, then " offer." |
| Offers.DeclineMessage | src/pages/offers.jsx:43 | declining reads "declineed" |
| Offers.AcceptAndErrorMessages | src/pages/offers.jsx:43-47 | accepting reads "accepted"; a failed decline reads "Failed to decline offer." |
| Offers.MessagesDistinguishActions | src/pages/offers.jsx:43-47 | different actions give different banners and different errors |
| Offers.OffersPage.constructor | src/pages/offers.jsx:6-12 | empty offers and tables, loading; the tab is `pending`; the three fetches are requested |
| Offers.OffersPage.DataLoaded | src/pages/offers.jsx:17-32 | success replaces the offers and both tables; failure keeps them and sets the error; loading ends either way |
| Offers.OffersPage.Grouped | src/pages/offers.jsx:52-64 | the page's tabs partition its current offers |
| Offers.OffersPage.SelectTab | src/pages/offers.jsx:126-130 | the tab is the one clicked |
| Offers.OffersPage.BeginOfferUpdate | src/pages/offers.jsx:39-42 | the `PUT` goes to the action's route |
| Offers.OffersPage.FinishOfferUpdate | src/pages/offers.jsx:42-48 | on success the banner shows and the data is fetched again; on failure only the error is set |
| Offers.OffersPage.ClearSuccess | src/pages/offers.jsx:45 | the banner is cleared |
| Payment.Amount.OrElse | src/components/payment.jsx:16-17 | a non-zero parsed number is kept; anything else gives the default |
| Payment.FindTransport | src/components/payment.jsx:14 | an option is found exactly for `boda`, `g4s` and `pickup`, and it is the table entry with that id |
| Payment.TransportFee | src/components/payment.jsx:14-15 | 250 for `boda`, 800 for `g4s`, 0 otherwise |
| Payment.DefaultTransport | src/components/payment.jsx:10 | the default selection names the first option |
| Payment.Price | src/components/payment.jsx:16 | `parseFloat(price) \|\| 0` |
| Payment.Quantity | src/components/payment.jsx:17 | `parseFloat(quantity) \|\| 1` |
| Payment.TotalBill | src/components/payment.jsx:18 | `price * quantity + fee` with the `||` defaults |
| Payment.BillIsCostPlusFee | src/components/payment.jsx:13-19 | the bill is price times quantity plus the selected option's fee, without a fee when no option matches |
| Payment.PickupCostsNothingExtra | src/components/payment.jsx:18 | with self pickup the bill is the produce cost |
| Payment.BillDefaults | src/components/payment.jsx:16-18 | a missing or unparseable price bills as 0; a missing, unparseable or zero quantity as one unit |
| Payment.PaymentModal.constructor | src/components/payment.jsx:10-11 | the dialog starts on `boda` and is not submitting |
| Payment.PaymentModal.Fee | src/components/payment.jsx:14-15 | the fee of the selected option, or 0 |
| Payment.PaymentModal.Bill | src/components/payment.jsx:16-18 | the produce cost plus the fee shown |
| Payment.PaymentModal.ChooseTransport | src/components/payment.jsx:46 | clicking an option changes only the selected id |
| Payment.PaymentModal.BeginConfirm | src/components/payment.jsx:24-30 | the dialog is submitting and hands over the option record whose id is the selection |
| Payment.PaymentModal.FinishConfirm | src/components/payment.jsx:30-31 | submitting ends when `onSubmit` resolved, and would stay on if it rejected; the orders page's `onSubmit` never rejects |
| Marketplace.UnitName | src/pages/marketplace.jsx:5-13 | `getUnitName`: the if-chain over the lower-cased name |
| Marketplace.FirstMatch | src/pages/marketplace.jsx:7-12 | the unit of the first applicable rule, or "Unit" when none applies |
| Marketplace.UnitNameFollowsRules | src/pages/marketplace.jsx:5-13 | the if-chain is the unit table read in priority order over the lower-cased name |
| Marketplace.UnitNameIgnoresCase | src/pages/marketplace.jsx:6 | the unit does not depend on letter case |
| Marketplace.FallbackIff | src/pages/marketplace.jsx:12 | the unit is "Unit" exactly when the name contains none of the keywords |
| Marketplace.PotatoWins | src/pages/marketplace.jsx:7 | a name mentioning "potato" is a 50kg bag whatever else it mentions |
| Marketplace.BuyDialog.constructor | src/pages/marketplace.jsx:16-18 | one unit, not loading, reviewing |
| Marketplace.BuyDialog.TotalCost | src/pages/marketplace.jsx:21 | with one unit the total is the price; with a valid quantity it is at least the price |
| Marketplace.BuyDialog.Decrement | src/pages/marketplace.jsx:80 | one unit less, never below one |
| Marketplace.BuyDialog.Increment | src/pages/marketplace.jsx:87 | exactly one unit more, so the quantity stays at least one |
| Marketplace.BuyDialog.BeginBuy | src/pages/marketplace.jsx:24-25 | the checkout is loading |
| Marketplace.BuyDialog.FinishBuy | src/pages/marketplace.jsx:30-31 | loading ends and the step is `success` |
| Marketplace.StepperScenario | src/pages/marketplace.jsx:80-87 | minus on a fresh dialog keeps one unit; two pluses make three, at three times the price |
| Farmer.EntryNamed | src/pages/farmer.jsx:159 | the table entry with that display name, absent exactly when no entry has it |
| Farmer.EntryKeyed | src/pages/farmer.jsx:28-29 | the table entry under that key, present exactly for the five keys of the table |
| Farmer.ImageForProduct | src/pages/farmer.jsx:158-165 | `getImageForProduct`: the image of the entry with that display name, or the placeholder |
| Farmer.ImageLookup | src/pages/farmer.jsx:158-165 | a standard product's name shows its own image; any other name the placeholder |
| Farmer.NamesIdentifyEntries | src/pages/farmer.jsx:6-12 | no two entries of the table share a display name |
| Farmer.MyProducts | src/pages/farmer.jsx:90 | `response.data.filter(p => p.farmer === loggedInUser._id)` |
| Farmer.MyProductsExact | src/pages/farmer.jsx:90 | the listings are exactly the fetched products whose `farmer` is the user, in input order |
| Farmer.ChangeField | src/pages/farmer.jsx:20-22 | exactly the named field takes the new value |
| Farmer.TypeChange | src/pages/farmer.jsx:24-31 | name and image come from the chosen entry and every other field is kept; an unknown key gives no form |
| Farmer.AddModalForm | src/pages/farmer.jsx:104-109 | the new-product form holds only the first type's name ("Fresh Tomatoes") and image |
| Farmer.IsEditing | src/pages/farmer.jsx:18 | `product && product._id`: a form exists and has a non-empty `_id`; the same test picks the update at farmer.jsx:142 |
| Farmer.PayloadImage | src/pages/farmer.jsx:139 | a non-empty `imageUrl` is kept, otherwise the image of the standard product with the form's name, otherwise `undefined` |
| Farmer.SetOrDrop | src/pages/farmer.jsx:136-140 | a field set to a string is written, and one set to `undefined` is left out of the JSON body |
| Farmer.AddFormIsNew | src/pages/farmer.jsx:18 | the new-product form is not in edit mode, and its image is the one its name shows |
| Farmer.SubmitPayload | src/pages/farmer.jsx:136-140 | the body is the form with `location` from the user and a non-empty image kept or else looked up by name; `undefined` fields are dropped |
| Farmer.SaveRequest | src/pages/farmer.jsx:142-146 | an update of the form's `_id` exactly in edit mode, and a creation otherwise, both with the payload |
| Farmer.FarmerPage.constructor | src/pages/farmer.jsx:75-80 | no listings, loading, no error, modal closed, no form, not submitting |
| Farmer.MountFarmerPage | src/pages/farmer.jsx:99-101 | the mount effect: with a stored user the listings are requested once, without one the fetch error shows and loading ends |
| Farmer.FarmerPage.BeginFetch | src/pages/farmer.jsx:82-88 | without a stored user the fetch fails at once; otherwise the products are requested |
| Farmer.FarmerPage.ProductsLoaded | src/pages/farmer.jsx:88-97 | the listings become the user's products, or the error is set; loading ends |
| Farmer.FarmerPage.OpenAdd | src/pages/farmer.jsx:104-111 | the modal opens on the new-product form |
| Farmer.FarmerPage.OpenEdit | src/pages/farmer.jsx:113-116 | the modal opens on the product itself |
| Farmer.FarmerPage.Close | src/pages/farmer.jsx:171 | the modal closes |
| Farmer.FarmerPage.Change | src/pages/farmer.jsx:20-22 | the form with exactly the named field changed |
| Farmer.FarmerPage.ChangeType | src/pages/farmer.jsx:24-31 | the form after a type change; an unknown key leaves it as it was |
| Farmer.FarmerPage.BeginSubmit | src/pages/farmer.jsx:129-146 | with a stored user and a form the save request is sent; otherwise the save error shows and no request is sent |
| Farmer.FarmerPage.FinishSubmit | src/pages/farmer.jsx:147-153 | on success the modal closes and the listings are fetched again; on failure the save error shows; submitting ends |
| Farmer.FarmerPage.BeginDelete | src/pages/farmer.jsx:118-121 | only a confirmed delete sends the request |
| Farmer.FarmerPage.FinishDelete | src/pages/farmer.jsx:121-125 | after a delete the listings are fetched again; a failure sets the delete error |
| TopNav.TopNavLinks | src/components/topnav.jsx:10-20 | the farmer's list for `userType === 'farmer'`, the buyer's otherwise |
| TopNav.IsActive | src/components/topnav.jsx:32 | a link is active when the pathname equals its path; the empty entry never is |
| TopNav.TopNavChoice | src/components/topnav.jsx:10-20 | the farmer's bar exactly for the role string "farmer", the buyer's bar for any other string |
| TopNav.AtMostOneActive | src/components/topnav.jsx:32 | with distinct paths at most one link is active |
| TopNav.TopNavHighlight | src/components/topnav.jsx:12-19 | both bars have distinct paths, and their third entry, the empty one, is never active |
| LoggedIn.IsFarmerRole | src/components/loggedin.jsx:39 | `role.trim().toLowerCase() === 'farmer'` |
| LoggedIn.BottomNavLinks | src/components/loggedin.jsx:39-45 | the farmer's list for a farmer role, the buyer's otherwise |
| LoggedIn.BottomNavChoice | src/components/loggedin.jsx:39-45 | the farmer's links exactly for a role that trims and lower-cases to "farmer" |
| LoggedIn.BottomNavEntries | src/components/loggedin.jsx:40-45 | three entries each; the buyer's third is the empty entry; the farmer's are all links with distinct paths |
| LoggedIn.RoleComparedDifferently | src/components/loggedin.jsx:39 | " Farmer" is a farmer to the bottom navigation and a buyer to the top bar |
| LoggedIn.Layout.constructor | src/components/loggedin.jsx:64 | no user and no navigation before the effect |
| LoggedIn.Layout.Logout | src/components/loggedin.jsx:87-91 | exactly `user` and `token` are removed, then the page goes to /login |
| LoggedIn.Layout.Mount | src/components/loggedin.jsx:67-85 | a parsed stored user becomes the user; none stored goes to /login; a corrupt one logs out |
| LoggedIn.Layout.View | src/components/loggedin.jsx:93-106 | only the loading placeholder without a user; with one, both bars chosen by the user's role |
| LoggedIn.FarmerSession | src/components/loggedin.jsx:67-75 | a readable stored farmer profile shows the farmer's bottom links, with no redirect |

## Left out

- Socket connection, disconnection and `off` (messages.jsx:109-111, 131) are left out. The model records only the events emitted.
- HTTP calls are left out. Each response arrives as a method parameter, with success or failure. The requests sent are recorded in `requests`.
- `JSON.parse` of the stored user is a parameter (`LoggedIn.Layout.Mount`, the `storedUser` of `Farmer.FarmerPage`).
- Each component's own reading of the stored user at render time is left out, including the new-chat modal's. The current user is a constructor argument.
- `Farmer.FarmerPage.ProductsLoaded` takes the user id as a parameter. It is the id of the user the fetch started with.
- React mechanics are left out: effect scheduling and dependencies, `useMemo` caching, `scrollIntoView` and JSX rendering. `activeChatRef` is taken to equal `activeChatUser`.
- The timers behind the success banners and the simulated delays are left out (order.jsx:97, offers.jsx:45, payment.jsx:29, marketplace.jsx:28). The banner timers appear only as the `ClearSuccess` methods; the delays are the split between a `Begin…` method and its completion.
- Dates, `getFutureDate` and locale formatting are left out.
- Floating-point totals are left out (order.jsx:117, offers.jsx:77, the display at payment.jsx:58). Money is whole numbers.
- Payment.Amount: `parseFloat` of a price or quantity is modelled as an integer, missing or unparseable. Fractional amounts are not modelled.
- `alert` is left out. `window.confirm` is a parameter of `Farmer.FarmerPage.BeginDelete`.
- `toLowerCase` is modelled on ASCII letters only; full Unicode case mapping is not modelled. `trim` removes the full set of JavaScript white space and line terminators (`Text.IsSpace`). The string sort compares `char` values, not UTF-16 code units, so ids outside the Basic Multilingual Plane may sort differently.
- Protocol-typed responses are not modelled. Non-array order, offer and product bodies, and non-string statuses are taken to be well-formed; only the users body of the new-chat modal has a modelled non-array case. Status strings that name object prototype properties (such as "constructor") are treated as ordinary tab names.
- The offers page's product and buyer name tables are built by `DataLoaded` but read only in rendering, which is left out. The orders page's tables are read by `Orders.SelectForPayment`.
- Messages.MessagesPage.Send: the socket events and the feed are kept as two separate logs, so the model does not state that `sendMessage` is emitted (messages.jsx:161) before the optimistic message is appended (messages.jsx:169).
- Profile, offer-modal and edit-modal forms (profile.jsx, offermodal.jsx, editmodal.jsx) are form plumbing over API calls and are left out.
- home.jsx, terms.jsx and navbar.jsx are static markup; App.jsx is the router table. All four are left out.
- Behaviour the code does not have is not modelled: no stale-history guard, no reconnection, no echo deduplication by content.
- Farmer.SubmitPayload: a stored user's `location` is an optional string, so a `null` location is dropped like `undefined`; `JSON.stringify` would send it as `"location": null` (farmer.jsx:138). A `Record` holds strings only.

## Findings

| source | as written | input that shows it | evidently intended | confidence | as-written member | corrected member |
|---|---|---|---|---|---|---|
| src/pages/messages.jsx:185 | the page passes `conversations.map(c => c.name)` as `existingChats`, and the modal reads `c._id` from each entry (messages.jsx:21), so every id is `undefined` | current user u1 (buyer), one open conversation with u2 (farmer), `/api/users` returning [u2]: u2 is offered again | the ids of the open conversations, so that users already in a conversation are not offered | high, not executed | Messages.CandidatesAsCalled, shown by Messages.AsCalledOffersOpenConversation, Messages.AsCalledIgnoresConversations and Messages.ModalOffersOpenConversation | Messages.CandidatesFor, proved by Messages.CandidatesForExcludesOpenConversations |
