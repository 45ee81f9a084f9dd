# Cafe-Engine in Dafny

A model of the logic of Cafe-Engine, a React web app for a café. Customers
order from a table and track their order. The kitchen advances orders through
the lifecycle new → preparing → ready → served. Administrators manage orders,
staff roles and table QR codes. Each café's landing page is assembled from
configurable content blocks.

The model has one Dafny module per source file, plus five shared modules:

- `Wrappers`: Option and Result.
- `Seqs`: JavaScript's `filter`, `map` and `slice`, subsequences, counts and sums.
- `Text`: the JavaScript string operations the components use (`includes`,
  `startsWith`, `trim`, `toLowerCase`, `join`, `split`, number printing,
  digit extraction).
- `Orders`: the order record and its status lifecycle, shared by three screens.
- `Links`: the choice between an external link and a router link, shared by
  the hero and call-to-action blocks.

State that a component changes step by step becomes a class:

- `Kitchen.KitchenDisplay`
- `OrdersManagement.OrdersPanel`
- `OrderTracking.OrderTracker`
- `TrackOrder.TrackOrderPage`
- `PlaceOrder.OrderPage`
- `StaffManagement.StaffPanel`
- `QRCodes.TableSelection`

Each class method states the component's whole new state. Rendering decisions
and string building are functions, and the properties the app relies on are
lemmas.

Everything outside the app is a parameter or an input:

- The database, the realtime channels, the clock and `encodeURIComponent` are
  parameters.
- The result of each query is an input: the rows the query returns, or
  whether it failed.
- The `user_roles` table is a map from user to role.
- The orders table is a sequence of rows.
- Elapsed times are whole minutes.
- Prices are whole rupees.

## Model

| member | source | states |
|---|---|---|
| Orders.Parse | src/pages/Kitchen.tsx:136-142 | reading a stored status string gives a canonical status whose stored name is that string; unknown names become `Other` |
| Orders.ParseName | src/pages/Kitchen.tsx:136-142 | reading back the stored name of a canonical status gives the status back |
| Orders.NameInjective | src/pages/Kitchen.tsx:206 | for canonical statuses, comparing stored strings is the same as comparing statuses |
| Orders.FromRow | src/hooks/useOrderTracking.ts:44-52 | a row becomes an order with every field kept; items that are not an array become the empty list |
| Orders.SetStatus | src/pages/Kitchen.tsx:74-78 | the update sets the status of exactly the rows with that id and leaves every other row and field unchanged |
| Kitchen.NextStatus | src/pages/Kitchen.tsx:136-143 | a successor exists exactly for new, preparing and ready, and it is one lifecycle step further |
| Kitchen.NextStatusIsOneStep | src/pages/Kitchen.tsx:136-142 | the successor table is exactly new→preparing, preparing→ready, ready→served |
| Kitchen.AdvanceTimesRank | src/pages/Kitchen.tsx:136-143 | n successive advances move exactly n lifecycle steps forward |
| Kitchen.NewReachesServed | src/pages/Kitchen.tsx:136-143 | from new, three advances reach served, and served offers no further advance |
| Kitchen.AdvanceTerminates | src/pages/Kitchen.tsx:136-143 | no status can be advanced four times |
| Kitchen.AdvanceNeverBackward | src/pages/Kitchen.tsx:136-143 | an advance never returns to new and always raises the rank |
| Kitchen.Label | src/pages/Kitchen.tsx:35-40 | the four lifecycle statuses have real labels ("New Order" for new), and only unknown statuses print "undefined" |
| Kitchen.Caption | src/pages/Kitchen.tsx:259-261 | a button caption exists exactly for the three statuses an order can advance to |
| Kitchen.CaptionsDistinct | src/pages/Kitchen.tsx:259-261 | the three captions differ, so a caption identifies the status it requests |
| Kitchen.AdvanceButtonFor | src/pages/Kitchen.tsx:254-262 | the button appears exactly when a successor exists, requests exactly that successor with that successor's caption, and never appears for served |
| Kitchen.BuildStatusQuery | src/pages/Kitchen.tsx:54-58 | the query admits a status exactly when the filter does: active is {new, preparing, ready}, all is everything, anything else is equality |
| Kitchen.Visible | src/pages/Kitchen.tsx:54-70 | every fetched order passes the filter, and the list is no longer than the table |
| Kitchen.VisibleAll | src/pages/Kitchen.tsx:54-58 | the all filter shows every row, in order |
| Kitchen.VisibleActive | src/pages/Kitchen.tsx:54-55 | the active filter shows a row exactly when its status is new, preparing or ready |
| Kitchen.VisibleByName | src/pages/Kitchen.tsx:56-58 | any filter other than all and active shows a row exactly when its stored status equals the filter |
| Kitchen.Elapsed | src/pages/Kitchen.tsx:89-98 | under one minute gives "Just now", under sixty gives "{m}m ago", otherwise hours and remaining minutes |
| Kitchen.KitchenDisplay.constructor | src/pages/Kitchen.tsx:43-45 | starts with no orders, loading, and the active filter |
| Kitchen.KitchenDisplay.FetchOrders | src/pages/Kitchen.tsx:47-72 | a failed fetch keeps the old list; otherwise the list is exactly the visible rows; loading ends false |
| Kitchen.KitchenDisplay.SetFilter | src/pages/Kitchen.tsx:101-134 | changing the filter refetches under the new filter |
| Kitchen.KitchenDisplay.UpdateOrderStatus | src/pages/Kitchen.tsx:74-87 | a failure leaves table and list unchanged with "Failed to update order status"; success updates that order, reports "Order marked as" and its label, and refetches |
| Kitchen.KitchenDisplay.Advance | src/pages/Kitchen.tsx:254-257 | the advance button writes exactly the successor status of that order and reports its label; a failed write changes nothing and reports the failure |
| Kitchen.KitchenDisplay.OnOrderChange | src/pages/Kitchen.tsx:114-127 | every change event refetches; only an insert raises the new-order alert naming the table |
| Kitchen.Board | src/pages/Kitchen.tsx:186-200 | spinner only while loading with no orders, the empty notice with none, otherwise one card per order |
| OrdersManagement.BuildStatusQuery | src/components/admin/OrdersManagement.tsx:78-81 | the query admits a status exactly when the filter is all or equals its stored name |
| OrdersManagement.SearchMatchesOccurs | src/components/admin/OrdersManagement.tsx:117-123 | a non-empty term matches exactly when its lower-cased form occurs in the lower-cased id or table, or in the phone as written |
| OrdersManagement.FilteredOrders | src/components/admin/OrdersManagement.tsx:116-124 | the shown orders all match, keep their order as a subsequence, and an empty term shows everything |
| OrdersManagement.SearchKeepsMatches | src/components/admin/OrdersManagement.tsx:116-124 | no matching order is dropped |
| OrdersManagement.Summarize | src/components/admin/OrdersManagement.tsx:263-277 | count is the number shown, revenue the sum of totals, active the number not served; active and served add up to the count |
| OrdersManagement.RevenueAppend | src/components/admin/OrdersManagement.tsx:270 | revenue adds up over any split of the list |
| OrdersManagement.RevenuePositive | src/components/admin/OrdersManagement.tsx:270 | with positive totals, revenue is positive exactly when some order is shown |
| OrdersManagement.Label | src/components/admin/OrdersManagement.tsx:41-46 | every lifecycle status has a real label, and only unknown statuses print "undefined" |
| OrdersManagement.SelectorOptions | src/components/admin/OrdersManagement.tsx:237-251 | the selector is hidden exactly for served orders and otherwise offers all four statuses |
| OrdersManagement.SelectorAllowsBackward | src/components/admin/OrdersManagement.tsx:245-250 | the selector lets a ready order go back to new |
| OrdersManagement.Elapsed | src/components/admin/OrdersManagement.tsx:126-132 | no "Just now": under sixty minutes (negative included) gives "{m}m ago", otherwise hours and remaining minutes |
| OrdersManagement.Fetched | src/components/admin/OrdersManagement.tsx:78-93 | every fetched order passes the status filter |
| OrdersManagement.FetchedAll | src/components/admin/OrdersManagement.tsx:79 | the all filter fetches every row of the window, in order |
| OrdersManagement.FetchedByName | src/components/admin/OrdersManagement.tsx:79-81 | any other filter fetches a row exactly when its stored status equals the filter |
| OrdersManagement.OrdersPanel.constructor | src/components/admin/OrdersManagement.tsx:49-53 | starts loading, with an empty search, status filter all and date filter today |
| OrdersManagement.OrdersPanel.FetchOrders | src/components/admin/OrdersManagement.tsx:55-96 | a failed fetch keeps the old list; otherwise the list is the fetched rows; loading ends false |
| OrdersManagement.OrdersPanel.SetDateFilter | src/components/admin/OrdersManagement.tsx:98-100 | choosing a date window refetches and keeps the other filters |
| OrdersManagement.OrdersPanel.SetSearchTerm | src/components/admin/OrdersManagement.tsx:151 | typing changes only the search term; the filters and the list stay as they were |
| OrdersManagement.OrdersPanel.SetStatusFilter | src/components/admin/OrdersManagement.tsx:98-100 | choosing a status filter refetches under it; the search term and the date filter stay |
| OrdersManagement.OrdersPanel.SetOrderStatus | src/components/admin/OrdersManagement.tsx:102-114 | a failure changes nothing and reports it; success writes the chosen status to that order, reports its label and refetches; the search term and both filters stay |
| OrderTracking.Matching | src/hooks/useOrderTracking.ts:35-39 | every matching row has the id and comes from the table |
| OrderTracking.FetchSingle | src/hooks/useOrderTracking.ts:35-39 | `single()` returns a row exactly when one row matches, and that row has the id |
| OrderTracking.FetchSingleFindsPresent | src/hooks/useOrderTracking.ts:35-39 | with unique ids, a present order is always found |
| OrderTracking.UniqueMatch | src/hooks/useOrderTracking.ts:38 | with unique ids, exactly the one row with the id matches |
| OrderTracking.NoMatch | src/hooks/useOrderTracking.ts:38 | an absent id matches no row |
| OrderTracking.FetchSingleAbsent | src/hooks/useOrderTracking.ts:35-43 | an absent id finds nothing |
| OrderTracking.OrderTracker.constructor | src/hooks/useOrderTracking.ts:21-23 | starts with no order, not loading, no error |
| OrderTracking.OrderTracker.SetOrderId | src/hooks/useOrderTracking.ts:25-33 | an empty id clears the order and leaves loading and error alone; any other id starts loading, clears the error and subscribes to that id |
| OrderTracking.OrderTracker.CompleteFetch | src/hooks/useOrderTracking.ts:41-54 | a failure sets the fixed not-found message and no order; success stores the parsed order; loading ends false |
| OrderTracking.OrderTracker.Track | src/hooks/useOrderTracking.ts:25-57 | an order is shown exactly when one row matches, and it is that row; otherwise the not-found error is set |
| OrderTracking.OrderTracker.OnUpdate | src/hooks/useOrderTracking.ts:60-79 | an update for the tracked id replaces the whole order; others are ignored |
| TrackOrder.StepsFollowLifecycle | src/pages/TrackOrder.tsx:12-17 | the four steps are the lifecycle statuses in order |
| TrackOrder.FindIndex | src/pages/TrackOrder.tsx:20 | `findIndex` returns the first step with that status, or none |
| TrackOrder.StatusIndex | src/pages/TrackOrder.tsx:19-22 | a lifecycle name gives its step; any other string gives 0 |
| TrackOrder.StatusIndexIsRank | src/pages/TrackOrder.tsx:19-22 | the step index is the lifecycle rank, and an unknown status shows as new |
| TrackOrder.CurrentIndex | src/pages/TrackOrder.tsx:37 | −1 exactly when there is no order, otherwise a valid step |
| TrackOrder.Connector | src/pages/TrackOrder.tsx:139-145 | every step but the last is followed by a connector |
| TrackOrder.TimelineShape | src/pages/TrackOrder.tsx:122-145 | exactly one step is current, completion is closed downward, and the connector after a step is highlighted exactly when the next step is completed |
| TrackOrder.TimelineEnds | src/pages/TrackOrder.tsx:122-123 | a served order completes every step; a new order completes only the first |
| TrackOrder.TrackOrderPage.constructor | src/pages/TrackOrder.tsx:26-28 | the search box and the tracked id both start from the `id` parameter, or empty |
| TrackOrder.TrackOrderPage.Type | src/pages/TrackOrder.tsx:62 | typing changes only the search box |
| TrackOrder.TrackOrderPage.HandleSearch | src/pages/TrackOrder.tsx:32-35 | submitting tracks the trimmed input, which has no white space at either end |
| TrackOrder.TrackDisabledIff | src/pages/TrackOrder.tsx:65 | the Track button is disabled exactly when the input is all white space |
| TrackOrder.Shown | src/pages/TrackOrder.tsx:73-90 | the spinner shows exactly while loading; the error card and the details only when not loading |
| TrackOrder.ShortId | src/pages/TrackOrder.tsx:97 | the id is shown as its first eight characters, upper-cased |
| TrackOrder.ItemLineOf | src/pages/TrackOrder.tsx:169-176 | each item line shows the name, "×" with the quantity, and "₹" with price times quantity |
| TrackOrder.ItemLinesAgree | src/pages/TrackOrder.tsx:169-176 | two item lines look the same exactly when name, quantity and line amount agree |
| PlaceOrder.TableNumbersAreOneToTwelve | src/pages/Order.tsx:11 | the selectable tables are "1" to "12" in order |
| PlaceOrder.Validate | src/pages/Order.tsx:28-35 | placement proceeds exactly with a table and a non-empty cart; the table is checked first |
| PlaceOrder.OrderPage.constructor | src/pages/Order.tsx:24-25 | starts neither placing nor placed |
| PlaceOrder.OrderPage.SelectTable | src/pages/Order.tsx:18-19 | choosing a table changes only the table |
| PlaceOrder.OrderPage.HandlePlaceOrder | src/pages/Order.tsx:27-49 | invalid input reports its message and changes nothing else; valid input marks the order placing and placed and schedules the redirect |
| PlaceOrder.OrderPage.RedirectTimerFired | src/pages/Order.tsx:45-48 | the redirect timer empties the cart only after placement |
| PlaceOrder.ViewOf | src/pages/Order.tsx:51-80 | the confirmation wins over the empty-cart view, which shows only for an empty cart |
| PlaceOrder.SummaryLineOf | src/pages/Order.tsx:150-157 | each summary line shows the item's name, a multiplication sign and the quantity, and the amount price times quantity |
| PlaceOrder.SummaryCaptionsAgree | src/pages/Order.tsx:150-157 | two summary captions are equal exactly when name and quantity agree |
| CafeWebsite.BlockTagsClosed | src/hooks/useCafeWebsite.ts:5 | the five block tags are distinct and every tag names a block type |
| CafeWebsite.FetchCafeWebsite | src/hooks/useCafeWebsite.ts:21-37 | the no-row code gives "not configured", any other error is raised, and a row is returned unchanged |
| CafeWebsite.WebsiteQuery | src/hooks/useCafeWebsite.ts:39-47 | without a café id the query is idle with no data; with one it carries the fetch result |
| CafeWebsite.MissingRowIsNotConfigured | src/hooks/useCafeWebsite.ts:30-32 | a missing row is a successful query with no website |
| LayoutEngine.GetBlockComponent | src/components/LayoutEngine.tsx:15-25 | a component exists exactly for the five block tags, and it is that tag's component |
| LayoutEngine.RenderAll | src/components/LayoutEngine.tsx:41-54 | never renders more components than there are blocks |
| LayoutEngine.Engine | src/components/LayoutEngine.tsx:27-57 | non-array blocks log one error and render nothing; an empty array renders nothing; any array renders the known blocks and warns about the unknown ones, in order, each block once |
| LayoutEngine.SkippedAndRendered | src/components/LayoutEngine.tsx:41-54 | known blocks are rendered and unknown blocks warned about, and together they are all the blocks |
| LayoutEngine.RenderCount | src/components/LayoutEngine.tsx:41-54 | N blocks with k unknown render N−k components |
| LayoutEngine.RenderAllIsKnownBlocks | src/components/LayoutEngine.tsx:41-53 | the components are the known blocks in order, each with its own block's data |
| LayoutEngine.WarningsAreUnknownTags | src/components/LayoutEngine.tsx:44-47 | the warnings name the unknown tags in order |
| LayoutEngine.UnknownSkippedOnly | src/components/LayoutEngine.tsx:44-47 | an unknown block is skipped without affecting any other block |
| LayoutEngine.LayoutIrrelevant | src/components/LayoutEngine.tsx:27-57 | the layout argument does not affect the output |
| LayoutEngine.SingleBlock | src/components/LayoutEngine.tsx:41-53 | a single known block renders its component with its data; a single unknown one renders nothing and warns |
| AromaLayout.Sections | src/layouts/AromaLayout.tsx:11-22 | one section per block, padding py-20, background by index parity, the 7xl container, and the engine run on that block alone |
| AromaLayout.Alternates | src/layouts/AromaLayout.tsx:13-14 | neighbouring sections differ in background, and the first uses the page background |
| AromaLayout.SectionContent | src/layouts/AromaLayout.tsx:19 | a known block's section holds its component; an unknown block leaves an empty section that still counts for parity |
| LuxuryLayout.Sections | src/layouts/LuxuryLayout.tsx:11-21 | one section per block, padding py-12, a bottom border on all but the last, the 6xl container, and the engine run on that block alone |
| LuxuryLayout.BorderOnAllButLast | src/layouts/LuxuryLayout.tsx:13 | a section has the border exactly when it is not the last |
| LuxuryLayout.EmptyHasNoSections | src/layouts/LuxuryLayout.tsx:10-11 | no blocks give no sections |
| LuxuryLayout.SameContentAsEngine | src/layouts/LuxuryLayout.tsx:18 | a section's content does not depend on the layout name it passes |
| TenantLanding.LayoutName | src/pages/TenantLanding.tsx:107 | a non-empty layout name is kept, and the result is never empty (absent or empty becomes aroma) |
| TenantLanding.ChooseLayout | src/pages/TenantLanding.tsx:108 | luxury selects the luxury layout and every other name the aroma layout |
| TenantLanding.LayoutWarning | src/pages/TenantLanding.tsx:111-113 | a warning is logged exactly for names other than aroma and luxury |
| TenantLanding.Decide | src/pages/TenantLanding.tsx:14-123 | loading wins, then a café error, then a website error; once settled, the fallback shows exactly when the website, its blocks or their entries are missing, a non-array blocks value crashes, and otherwise the page gets the blocks unchanged with the chosen layout and warning |
| TenantLanding.ConfiguredPage | src/pages/TenantLanding.tsx:106-119 | a website with blocks is rendered with its own layout choice and blocks |
| TenantLanding.CafeErrorFirst | src/pages/TenantLanding.tsx:36-54 | a café error is shown even when the website query failed too |
| TenantLanding.NoWebsiteFallback | src/pages/TenantLanding.tsx:75-104 | a café without a website row gets the not-configured fallback |
| TenantLanding.EmptyBlocksFallback | src/pages/TenantLanding.tsx:75 | missing or empty blocks give the same fallback as a missing website |
| Links.LinkTo | src/components/blocks/CTABlock.tsx:29 | a target starting with "http" becomes an external link, anything else a router link, with the text kept |
| Links.LinkToKeepsTarget | src/components/blocks/HeroBlock.tsx:58-70 | the link points at its target whichever kind it is |
| HeroBlock.FirstTruthy | src/components/blocks/HeroBlock.tsx:18-19 | the first non-empty value wins, else the fallback |
| HeroBlock.Render | src/components/blocks/HeroBlock.tsx:15-80 | heading and subheading fall back through the café to the defaults; the photo shows exactly with a background image and uses the heading as alt; the call to action shows exactly when text and link are both non-empty |
| HeroBlock.EmptyHeadingFallsThrough | src/components/blocks/HeroBlock.tsx:18 | an empty heading behaves like a missing one |
| GalleryBlock.GridClass | src/components/blocks/GalleryBlock.tsx:21-26 | 3 and every value outside 1 to 4 give the three-column class; 1, 2 and 4 give other classes |
| GalleryBlock.GridClassInjective | src/components/blocks/GalleryBlock.tsx:21-25 | the classes for 1 to 4 columns are distinct |
| GalleryBlock.Render | src/components/blocks/GalleryBlock.tsx:12-56 | nothing without images; otherwise one tile per image in order, the heading only when given, and three columns by default |
| MenuItems.CategoriesShape | src/hooks/useMenuItems.ts:24-31 | six categories, each with id equal to name, ids distinct |
| MenuItems.ToMenuItem | src/hooks/useMenuItems.ts:45-55 | fields are copied, and an empty or absent image URL becomes no image |
| MenuItems.RequestedRows | src/hooks/useMenuItems.ts:34-38 | exactly the available rows are requested, in table order |
| MenuItems.FetchMenuItems | src/hooks/useMenuItems.ts:33-56 | an error is raised unchanged; otherwise one item per row, in order |
| MenuItems.FetchedAreAvailable | src/hooks/useMenuItems.ts:37-55 | every fetched item is available |
| MenuItems.GetItemsByCategory | src/hooks/useMenuItems.ts:66-67 | exactly the items of that category, in order |
| MenuItems.GetPopularItems | src/hooks/useMenuItems.ts:69-70 | exactly the popular items, in order |
| MenuItems.CategoryOfListed | src/hooks/useMenuItems.ts:66-67 | an item is listed under a category exactly when it belongs to it |
| MenuPreviewBlock.SettingsOf | src/components/blocks/MenuPreviewBlock.tsx:17 | defaults apply only to absent values: heading "Our Popular Dishes", six items, popular only |
| MenuPreviewBlock.Selection | src/components/blocks/MenuPreviewBlock.tsx:60-62 | a prefix of the popular items (or of all items), in catalog order, at most showCount long |
| MenuPreviewBlock.SelectionLength | src/components/blocks/MenuPreviewBlock.tsx:60-62 | the selection has exactly min(showCount, pool size) items |
| MenuPreviewBlock.HeaderOf | src/components/blocks/MenuPreviewBlock.tsx:72-80 | the header shows exactly when the heading is non-empty |
| MenuPreviewBlock.CardOf | src/components/blocks/MenuPreviewBlock.tsx:87-108 | the Popular badge shows exactly for popular items that have an image |
| MenuPreviewBlock.Render | src/components/blocks/MenuPreviewBlock.tsx:16-67 | loading shows three skeleton cards under the header; then an error hides the block; then the block is hidden exactly when the selection is empty, and otherwise shows the header and one card per selected item, in order |
| MenuPreviewBlock.DefaultPreview | src/components/blocks/MenuPreviewBlock.tsx:17 | with no settings, the preview appears exactly when some item is popular, and shows the first six popular items (or all of them) under "Our Popular Dishes" |
| CTABlock.BackgroundClass | src/components/blocks/CTABlock.tsx:20-27 | only gradient gives the gradient class; anything else, the solid default included, gives the muted class |
| CTABlock.Render | src/components/blocks/CTABlock.tsx:14-66 | a missing button link fails; otherwise the button links externally exactly for "http" targets and the description shows only when non-empty |
| MenuData.GetItemsByCategory | src/lib/menuData.ts:77-78 | exactly the static items of that category, in order |
| MenuData.GetPopularItems | src/lib/menuData.ts:80-81 | exactly the popular static items, in order |
| MenuData.CategoryIdsMatch | src/lib/menuData.ts:19-26 | the six category ids |
| MenuData.EveryItemHasCategory | src/lib/menuData.ts:28-75 | all 35 items belong to one of the six categories |
| MenuData.PricesPositive | src/lib/menuData.ts:28-75 | every price is positive |
| MenuData.IdsDistinct | src/lib/menuData.ts:28-75 | item ids are pairwise distinct |
| MenuData.PopularItems | src/lib/menuData.ts:80-81 | the popular items are one starter, one burger, one pizza, two beverages and one dessert |
| MenuData.PopularIds | src/lib/menuData.ts:80-81 | the popular ids are s1, b2, p4, d1, d2 and ds1, in that order |
| ProtectedRoute.Decide | src/components/auth/ProtectedRoute.tsx:14-54 | loading first, then the sign-in redirect, then the admin and staff denials, otherwise the page |
| ProtectedRoute.ChildrenIff | src/components/auth/ProtectedRoute.tsx:30-54 | the page shows exactly for a signed-in user who meets the required role, staff being met by admin or staff |
| ProtectedRoute.MonotoneInRoles | src/components/auth/ProtectedRoute.tsx:30-51 | gaining a role never takes access away |
| StaffManagement.FindProfile | src/components/admin/StaffManagement.tsx:76 | the first profile with the user's id, or none when there is no such profile |
| StaffManagement.MemberOf | src/components/admin/StaffManagement.tsx:76-83 | the entry keeps id, role and date; its email is "Unknown" exactly when there is no profile, the profile has no non-empty email, or the email is itself "Unknown", and otherwise it is the profile's email; the name is absent exactly when there is no profile or its name is empty, and otherwise it is the profile's name |
| StaffManagement.Merge | src/components/admin/StaffManagement.tsx:75-84 | one entry per role row, in the same order |
| StaffManagement.MergeMatchesTable | src/components/admin/StaffManagement.tsx:75-84 | when the rows list the role table, each role holder appears once with their role |
| StaffManagement.FailureNotice | src/components/admin/StaffManagement.tsx:152 | the error's message, or "Failed to add staff member" when it has none |
| StaffManagement.LookupByEmail | src/components/admin/StaffManagement.tsx:104-112 | the lookup answers nothing exactly when no profile has that email, an error exactly when two do, and otherwise the id of a profile with that email |
| StaffManagement.LookupFindsUnique | src/components/admin/StaffManagement.tsx:104-112 | when exactly one profile has the email, the lookup answers its id |
| StaffManagement.StaffPanel.constructor | src/components/admin/StaffManagement.tsx:33-39 | starts loading with an empty list, closed dialog, empty email and role staff |
| StaffManagement.StaffPanel.FetchStaff | src/components/admin/StaffManagement.tsx:41-88 | a failed role query keeps the list and reports "Failed to load staff"; no rows give an empty list; otherwise the merge |
| StaffManagement.StaffPanel.OpenDialog | src/components/admin/StaffManagement.tsx:33-39 | opens the dialog and changes nothing else |
| StaffManagement.StaffPanel.SetNewEmail | src/components/admin/StaffManagement.tsx:33-39 | sets the dialog's email and role and nothing else |
| StaffManagement.StaffPanel.AddStaff | src/components/admin/StaffManagement.tsx:94-156 | a blank email is rejected first; a failed lookup, an unknown user or a failed write leave the roles unchanged; otherwise the user ends with exactly the chosen role, by update or insert, and the dialog resets |
| StaffManagement.StaffPanel.Enroll | src/components/admin/StaffManagement.tsx:101-156 | after the email check: a failed lookup, an unknown user or a failed write change no role; otherwise the user ends with exactly the chosen role, by update or insert, and the dialog resets; creating ends lowered |
| StaffManagement.StaffPanel.RemoveRole | src/components/admin/StaffManagement.tsx:158-174 | nothing without confirmation; a failure is reported; otherwise exactly that user's role is removed |
| StaffManagement.StaffPanel.UpdateRole | src/components/admin/StaffManagement.tsx:176-188 | sets the role of that user only if they hold one; no user gains or loses a role |
| WhatsApp.FormatPhoneNumber | src/lib/whatsapp.ts:13-23 | only digits; exactly ten digits get the 91 prefix; the result never has ten digits |
| WhatsApp.FormatPhoneIdempotent | src/lib/whatsapp.ts:13-23 | formatting twice is formatting once |
| WhatsApp.WaLink | src/lib/whatsapp.ts:51 | the link is the wa.me address of the formatted number followed by the encoded text |
| WhatsApp.WaLinkParts | src/lib/whatsapp.ts:51 | a link determines its formatted number and its encoded text |
| WhatsApp.ShortId | src/lib/whatsapp.ts:38 | the order id is cut to its first eight characters |
| WhatsApp.KitchenLineOmitsPrice | src/lib/whatsapp.ts:61-63 | the kitchen line is the customer line without the amount, and does not depend on the price |
| WhatsApp.CustomerItemsListLines | src/lib/whatsapp.ts:32-34 | the customer item list splits back into one line per item, in order |
| WhatsApp.KitchenItemsListLines | src/lib/whatsapp.ts:61-63 | the kitchen item list splits back into one line per item, in order |
| WhatsApp.CustomerNote | src/lib/whatsapp.ts:46 | the note line is empty exactly when there are no instructions or they are empty |
| WhatsApp.CustomerMessageShows | src/lib/whatsapp.ts:36-49 | the confirmation shows the short id, table, items and total, and the note exactly when instructions are non-empty |
| WhatsApp.KitchenNote | src/lib/whatsapp.ts:74 | the instructions line is empty exactly when there are no instructions or they are empty |
| WhatsApp.KitchenMessageShows | src/lib/whatsapp.ts:65-70 | the alert opens with the table and shows the short id and the items |
| WhatsApp.KitchenMessageEnding | src/lib/whatsapp.ts:72-74 | the alert ends with the instructions line when given, and with an empty line otherwise |
| WhatsApp.ReadyMessageNamesTable | src/lib/whatsapp.ts:93-99 | the ready notice names the table |
| WhatsApp.CustomerConfirmationLink | src/lib/whatsapp.ts:26-52 | the confirmation link is the wa.me link of the customer's number with the confirmation text |
| WhatsApp.KitchenAlertLink | src/lib/whatsapp.ts:55-77 | the alert link is the wa.me link of the staff number with the alert text |
| WhatsApp.OrderReadyLink | src/lib/whatsapp.ts:87-102 | the ready link is the wa.me link of the customer's number with the ready text |
| QRCodes.Labels | src/pages/QRCodes.tsx:8 | the labels are the decimal numbers 1 to n in order |
| QRCodes.TableNumbersDistinct | src/pages/QRCodes.tsx:8 | twenty labels "1" to "20", no two alike |
| QRCodes.Toggled | src/pages/QRCodes.tsx:14-20 | toggling flips the label's membership, keeps every other label, and never creates a duplicate |
| QRCodes.ToggleTwiceAbsent | src/pages/QRCodes.tsx:14-20 | toggling an unselected label twice restores the selection |
| QRCodes.ToggleTwicePresent | src/pages/QRCodes.tsx:14-20 | toggling a selected label twice moves it to the end |
| QRCodes.PrintSet | src/pages/QRCodes.tsx:68 | printing uses the selection, or every table when nothing is selected |
| QRCodes.PrintCaption | src/pages/QRCodes.tsx:170 | the button reads "Print All" exactly when nothing is selected |
| QRCodes.OrderUrl | src/pages/QRCodes.tsx:108 | the URL is the origin, "/order?table=" and the label |
| QRCodes.OrderUrlInjective | src/pages/QRCodes.tsx:178 | under one origin, different tables get different URLs |
| QRCodes.TableSelection.constructor | src/pages/QRCodes.tsx:10 | starts with nothing selected |
| QRCodes.TableSelection.Toggle | src/pages/QRCodes.tsx:14-20 | the selection becomes the toggled selection and stays free of duplicates |
| QRCodes.TableSelection.SelectAll | src/pages/QRCodes.tsx:22-24 | every table is selected, in order |
| QRCodes.TableSelection.Clear | src/pages/QRCodes.tsx:26-28 | nothing is selected |

## Left out

- Queries, realtime channels, toasts' display, sounds, `window.open`, the
  print window, canvas downloads and timers. Their results are inputs and
  their effects are the returned notices and states.
- Dates. The today/week/month windows of the orders panel are computed from
  the clock, so the fetch methods receive the rows the window admits. Elapsed
  times are whole minutes, and `toLocaleTimeString` is not modelled.
- `encodeURIComponent` is the parameter `encode`.
- Prices, totals and quantities are whole numbers. `Number(...)` coercion and
  floating point are not modelled.
- `toLowerCase` and `toUpperCase` are modelled for ASCII letters only. Other
  characters are unchanged.
- The database's row order (by creation time, by category) is part of the
  input sequence.
- The React Query loading state of the website and menu queries is reduced
  to its settled outcome, plus a loading flag where a component reads one.
- The cart (CartContext) and the auth and café contexts are not part of this
  model. Their values are inputs, and clearing the cart is modelled as
  emptying the items.
- Block `data` is one record of optional fields, with the types the
  components read. Values of other JSON types are not modelled.
- Kitchen.Visible: the kitchen casts stored items without checking that they
  are an array. The model applies the same array check as the other screens,
  so a non-array item column shows as no items rather than failing.
- Kitchen.NextStatus, Kitchen.Label, OrdersManagement.Label: the source looks
  statuses up in plain JavaScript objects, so a stored status such as
  "toString" or "constructor" would find an inherited member. The model gives
  every status outside the lifecycle no successor and the label "undefined".
- LayoutEngine.GetBlockComponent: the JavaScript lookup by block type would
  also find inherited object members (a block typed "toString", say). The
  model treats every tag outside the five block types as unknown.
- StaffManagement.StaffPanel.AddStaff: the lookup result is an input; it is
  what LookupByEmail gives for the trimmed email. The
  check for an existing role is membership in the role map, so its own query
  error, which the source ignores, is not modelled. The refetch after a
  successful add, remove or update is a separate call to FetchStaff.
- Fetch error toasts in the kitchen and the orders panel ("Failed to fetch
  orders", "Failed to load orders") are not returned by FetchOrders, which
  keeps the previous list on failure.
- sendWhatsAppMessage only opens a window with the link WaLink describes.
- Races between overlapping fetches, and between concurrent staff sessions,
  are not modelled. Each method is one settled step.
- Markup and styling beyond the classes and texts the model names.
