# pokeXchange trading core, modelled in Dafny

pokeXchange is a small React front end for trading Pokémon game goods: event
codes, creatures, items and friend codes. This project models the logic
behind its pages and proves properties of that model:

- the listing page (`App`): the trading-post record, creating a post (it goes
  first), attaching a submitted proof to the selected post, and the visible-post
  filter (a category match and a case-insensitive search over title,
  description and tags);
- the create form (`CreatePost`): tags kept as an insertion-ordered set,
  removing a tag, and mapping the form to a new post (an empty price means
  "no price");
- the proof modal (`ProofModal`): the draft's screenshot list (a class whose
  `HandleFiles` loop appends image files one by one), removal by index, and
  the always-unverified proof it submits;
- the payment modal (`PaymentModal`): the step machine confirm → processing →
  complete → confirm, driven by the pay button and two timers, the pay and
  close guards, and the numeric price obtained by stripping everything but
  digits and dots (computed but never displayed: the modal shows the raw
  listing price);
- the listing card (`TradingPost`): the `hasProof` / `isVerified` flags and the
  badge and proof button they select, and the price and pay button, which
  depend on the price alone.

`Array.prototype.filter` with an element test selects the visible posts, the
remaining tags and the image files of a batch. It is modelled once,
generically, in `JsArray`, with its laws proved there: order-preserving
selection, multiplicities, concatenation and idempotence. The price's
`String.prototype.replace(/[^0-9.]/g, '')` deletes exactly the characters
such a test would drop, so it is modelled with the same `Filter`. The fourth
`filter` in the source, `removeScreenshot`'s test on the index, is modelled
separately by `ProofModal.WithoutIndex`. `JsString` models `toLowerCase`
(ASCII only), `includes` and `startsWith`.

What the source does not have, and so the model does not either:

- there is no proof `verify` operation;
- there is no `failed` payment state, no payment-attempt record and no
  in-flight uniqueness check;
- the only check on a new listing is the browser's `required` test on title
  and description; categories are not validated;
- `hasProof` needs at least one screenshot, not just an attached proof;
- resubmitting a proof replaces the old one and resets the proof's
  `verified` flag to false; the post-level `verified` flag is kept, and the
  card never reads it.

Module order: `Wrappers`, `JsString`, `JsArray`, `ProofModal`, `App`,
`TradingPost`, `CreatePost`, `PaymentModal`. In the source, `TradingPostData`
is declared in `src/App.tsx` and imported by the card, which App renders.
Dafny refuses that import cycle. So the record stays in `App`, and the lemmas
that span components live in `TradingPost` and `CreatePost`.

## Model

| member | source | states |
|---|---|---|
| JsString.ToLowerCase | src/App.tsx:160-162 | lower-casing keeps the length, turns each ASCII upper-case letter into the letter 32 code points above it ('A' to 'a') and keeps every other character |
| JsString.ToLowerCaseEqualIff | src/App.tsx:160-162 | two strings lower-case to the same string iff they have the same length and agree position by position up to ASCII case |
| JsString.Includes | src/App.tsx:160-162 | `includes` holds for the empty needle and only when the needle is no longer than the text |
| JsString.IncludesIsSubstring | src/App.tsx:160-162 | `includes` holds exactly when the needle occurs at some position of the text |
| JsArray.Filter | src/App.tsx:158 | every element of a filter result passes the test and the result is never longer than the input |
| JsArray.FilterMember | src/App.tsx:158-164 | a value is in the result iff it is in the input and passes the test |
| JsArray.FilterAppend | src/App.tsx:158 | filtering a concatenation is the concatenation of the filtered parts |
| JsArray.FilterKeepsAll | src/App.tsx:158 | when every element passes, filtering returns the input unchanged |
| JsArray.FilterDropsAll | src/components/PaymentModal.tsx:39 | when no element passes, filtering returns the empty sequence |
| JsArray.FilterIdempotent | src/components/PaymentModal.tsx:39 | filtering twice with the same test equals filtering once |
| JsArray.FilterCount | src/components/CreatePost.tsx:68 | each passing value keeps its multiplicity and each failing value has none |
| JsArray.FilterIsOrderedSelection | src/App.tsx:158 | the result lists the passing elements at strictly increasing input positions, exactly those positions: no reordering, no duplicates, no omissions |
| JsArray.KeptPositionsIncreasing | src/App.tsx:158 | the positions a filter keeps are strictly increasing and within the input |
| JsArray.KeptPositionsPick | src/App.tsx:158 | the k-th result element is the input element at the k-th kept position |
| JsArray.KeptPositionsExact | src/App.tsx:158 | a position is kept iff its element passes the test |
| ProofModal.WithoutIndex | src/components/ProofModal.tsx:79-84 | removing an in-range index yields `s[..i] + s[i+1..]`; an out-of-range index leaves the list unchanged |
| ProofModal.ImageFiles | src/components/ProofModal.tsx:58 | the image files of a batch all have a MIME type starting with `image/`, and there are no more of them than files |
| ProofModal.BatchSplits | src/components/ProofModal.tsx:57-71 | a batch contributes the screenshots of its first part followed by those of the rest, so reading it file by file gives the same list |
| ProofModal.ScreenshotsComeFromImages | src/components/ProofModal.tsx:57-67 | every screenshot a batch contributes is the data URL of a file in the batch whose type starts with `image/` |
| ProofModal.ProofDraft.constructor | src/components/ProofModal.tsx:30-33 | the draft starts with no screenshots and an empty description |
| ProofModal.ProofDraft.HandleFiles | src/components/ProofModal.tsx:57-71 | the old screenshot list is a prefix of the new one, which appends the image files' data URLs in file order; the description is unchanged |
| ProofModal.ProofDraft.SetDescription | src/components/ProofModal.tsx:252 | only the description changes |
| ProofModal.ProofDraft.RemoveScreenshot | src/components/ProofModal.tsx:79-84 | the screenshot at the index is removed, the list shrinks by one when the index is valid, and the description is kept |
| ProofModal.ProofDraft.SubmitEnabled | src/components/ProofModal.tsx:261 | the submit button is enabled iff a screenshot is uploaded; stated by `ProofModal.ProofDraft.HandleSubmit` and `TradingPost.SubmittedDraftShowsPending` |
| ProofModal.ProofDraft.HandleSubmit | src/components/ProofModal.tsx:86-96 | the submitted proof is unverified, has no notes, carries exactly the draft's screenshots and description, and has a screenshot whenever the submit button is enabled (line 261) |
| App.CreatedPost | src/App.tsx:119-125 | the created post takes the given id, timestamp "just now" and 0 replies, and copies every other field of the new post |
| App.HandleCreatePost | src/App.tsx:119-128 | the list grows by one, its head is the created post and its tail is the old list unchanged |
| App.HandleProofSubmit | src/App.tsx:147-156 | length is kept; without a selected post nothing changes; otherwise exactly the posts with the selected id get the new proof and nothing else changes |
| App.ReplaceProof | src/App.tsx:149-153 | the id-conditional map replaces `proof` exactly on the posts with the given id |
| App.ProofSubmitKeepsIdentity | src/App.tsx:147-155 | proof submission keeps every post's id, its post-level `verified` flag and all fields other than `proof` |
| App.MatchesCategory | src/App.tsx:159 | the category test: "all" or the post's own category; its meaning is stated by `App.VisibleIff` and `App.FilteredPosts` |
| App.MatchesSearch | src/App.tsx:160-162 | the empty query matches every post; the full meaning is stated by `App.MatchesSearchIsSubstring` and `App.SearchIgnoresQueryCase` |
| App.FilteredPosts | src/App.tsx:158-164 | every visible post passes both the category and the search test, and the visible list is never longer than the list; `App.FilterSelectsMatching` and `App.VisibleIff` give the converse |
| App.SearchIgnoresQueryCase | src/App.tsx:160-162 | two queries that differ only in ASCII case select exactly the same posts |
| App.LowerCasesZacian | src/App.tsx:160 | lower-casing turns an occurrence of "Zacian" in a title into an occurrence of "zacian" at the same position |
| App.SearchFindsZacian | src/App.tsx:30 | a listing whose title contains "Zacian", as this seed title does, is found by the queries "zacian" and "ZACIAN" and is visible under category "all" with either |
| App.MatchesSearchIsSubstring | src/App.tsx:160-162 | a post matches the search iff the lower-cased query is a substring of the lower-cased title, description or some tag |
| App.MatchesAllEmpty | src/App.tsx:158-164 | every post passes category "all" with the empty query |
| App.FilterAllEmptyIsIdentity | src/App.tsx:158-164 | with "all" and the empty query the visible list is the whole list, in order |
| App.FilterSelectsMatching | src/App.tsx:158-164 | the visible posts are exactly the matching posts, at strictly increasing positions of the list |
| App.VisibleIff | src/App.tsx:159-163 | a post is visible iff it is listed, the category is "all" or equals the post's, and the search matches |
| App.CreatedPostFilteredFirst | src/App.tsx:119-128 | after creating a post, the visible list is the new post (if it matches) followed by the previous visible list |
| TradingPost.HasProof | src/components/TradingPost.tsx:13 | `hasProof`: a proof is attached and has at least one screenshot; the badge and button it selects are stated by `TradingPost.ProofBadge` and `TradingPost.ProofButtonFor` |
| TradingPost.IsVerified | src/components/TradingPost.tsx:14 | `isVerified`: a proof is attached and marked verified; stated by `TradingPost.ProofBadge` and `TradingPost.ResubmissionResetsVerification` |
| TradingPost.ShowsPayment | src/components/TradingPost.tsx:81 | the pay button (and the price, line 58) show iff the price is present and non-empty; stated for a created listing by `CreatePost.CreatedListingCard` |
| TradingPost.ProofBadge | src/components/TradingPost.tsx:13-31 | the verified badge shows iff the proof is verified; the pending badge shows iff it is not verified but has screenshots; otherwise no badge |
| TradingPost.ProofButtonFor | src/components/TradingPost.tsx:65-79 | "View Proof" is offered iff `hasProof`, otherwise "Add Proof": exactly one of the two |
| TradingPost.VerifiedWithoutScreenshots | src/components/TradingPost.tsx:13-14 | `isVerified` does not depend on screenshots: a verified proof with none shows the verified badge next to "Add Proof" |
| TradingPost.ResubmissionResetsVerification | src/components/ProofModal.tsx:92 | submitting an unverified proof makes the selected post unverified even after a verified proof; its badge becomes pending or none; other posts keep their flags |
| TradingPost.SubmittedDraftShowsPending | src/components/ProofModal.tsx:261 | a proof submitted while the submit button is enabled turns the post's card to "Pending verification" with "View Proof" |
| CreatePost.AddTag | src/components/CreatePost.tsx:55-63 | the old tags are a prefix of the new ones, at most one tag is added, distinctness is preserved, the tag set gains exactly the non-empty new tag, and no other field changes |
| CreatePost.AddTagNoOp | src/components/CreatePost.tsx:56 | an empty or already present tag leaves the form unchanged |
| CreatePost.AddTagAppends | src/components/CreatePost.tsx:57-61 | otherwise the tag is appended at the end and the tag input is reset to empty |
| CreatePost.RemoveTag | src/components/CreatePost.tsx:65-70 | the removed tag no longer occurs and no other field changes |
| CreatePost.RemoveTagKeepsOthers | src/components/CreatePost.tsx:68 | every other tag keeps its multiplicity and order; only the removed tag goes |
| CreatePost.RemoveTagKeepsDistinct | src/components/CreatePost.tsx:65-70 | removing a tag from distinct tags leaves them distinct |
| CreatePost.TagEditsKeepDistinct | src/components/CreatePost.tsx:55-70 | any sequence of add and remove actions keeps distinct tags distinct |
| CreatePost.InitialFormValid | src/components/CreatePost.tsx:11-38 | the initial form's category and game are among the offered ones, it has no tags, it cannot be submitted, and its tags stay distinct under any tag actions |
| CreatePost.RemoveAbsentTag | src/components/CreatePost.tsx:65-70 | removing a tag that is absent changes nothing |
| CreatePost.RemoveUndoesAdd | src/components/CreatePost.tsx:55-70 | adding a fresh tag and removing it gives back the original tags |
| CreatePost.SubmitAllowed | src/components/CreatePost.tsx:88-141 | the browser's `required` check: title and description non-empty; stated by `CreatePost.Submit` |
| CreatePost.HandleSubmit | src/components/CreatePost.tsx:40-53 | an empty price becomes absent and a non-empty one is kept; author "CurrentUser" with flair "Great Ball", unverified, no proof; title, category, game, description and tags copied |
| CreatePost.Submit | src/components/CreatePost.tsx:85-145 | a post is handed over iff title and description are non-empty, and it is the one `handleSubmit` builds |
| CreatePost.CreatedListingCard | src/components/TradingPost.tsx:58-88 | the listing created from the form heads the list and shows the pay button iff a price was typed; it has no badge, offers "Add Proof" and has 0 replies |
| PaymentModal.PriceValue | src/components/PaymentModal.tsx:39 | the normalised price consists of ASCII digits and dots only and is no longer than the price |
| PaymentModal.PriceValueKeepsExactly | src/components/PaymentModal.tsx:39 | every digit and dot is kept as often as it occurs, in order; every other character is deleted |
| PaymentModal.PriceValueIdempotent | src/components/PaymentModal.tsx:39 | normalising twice equals normalising once |
| PaymentModal.PriceValueOfNumber | src/components/PaymentModal.tsx:39 | a price made only of digits and dots is its own value |
| PaymentModal.PriceValueCons | src/components/PaymentModal.tsx:39 | normalisation works character by character: a leading digit or dot is kept, any other leading character dropped |
| PaymentModal.PriceValueOfDollars | src/App.tsx:35 | "$35" normalises to "35" |
| PaymentModal.PriceValueOfEach | src/App.tsx:82 | "$15 each" normalises to "15" |
| PaymentModal.PayEnabled | src/components/PaymentModal.tsx:117-119 | the pay button exists in the confirm step and is enabled iff an email is typed; stated by `PaymentModal.PaymentFlow.ClickPay` |
| PaymentModal.CloseEnabled | src/components/PaymentModal.tsx:50 | the close button is disabled while processing; stated by `PaymentModal.PaymentFlow.ClickClose` |
| PaymentModal.PaymentFlow.constructor | src/components/PaymentModal.tsx:21-22 | the flow starts at confirm with an empty email, no timers and no callbacks |
| PaymentModal.PaymentFlow.SetEmail | src/components/PaymentModal.tsx:95 | only the email changes |
| PaymentModal.PaymentFlow.HandlePayment | src/components/PaymentModal.tsx:26-29 | the step becomes processing and the 3000 ms timer is scheduled |
| PaymentModal.PaymentFlow.ClickPay | src/components/PaymentModal.tsx:117-119 | the payment starts iff the step is confirm and the email is non-empty |
| PaymentModal.PaymentFlow.FireTimer | src/components/PaymentModal.tsx:29-36 | processing moves to complete; complete calls `onPaymentComplete`, then `onClose`, then returns to confirm; every payment completes exactly once (Valid) |
| PaymentModal.PaymentFlow.ClickClose | src/components/PaymentModal.tsx:47-50 | closing calls `onClose` iff the step is not processing; the step is unchanged |
| PaymentModal.PayAndWait | src/components/PaymentModal.tsx:26-37 | a full cycle from confirm with an email returns to confirm, and reports `onPaymentComplete` exactly once followed by `onClose` |

## Left out

- Rendering: JSX, CSS classes, icons and the drag-over highlight (`dragActive`). So is the proof modal's view mode, which only displays an existing proof.
- `src/components/Header.tsx`, `src/components/TradingCategories.tsx` and `src/components/UserProfile.tsx` hold navigation callbacks and static data. Only the filter value "all" is used (`App.AllCategory`).
- The page's view switch and modal bookkeeping (`currentView`, the `paymentModal` / `proofModal` objects, `isOpen`) are left out. The selected post is passed to `App.HandleProofSubmit` as an `Option`.
- The 3000 ms and 2000 ms delays are not timed. They are scheduled timers that `FireTimer` fires in order.
- ProofModal.ProofDraft.HandleFiles: the `FileReader` reads are asynchronous. Their `onload` callbacks may finish out of file order, and a remove, a description edit or a submit may happen before all reads of a batch have landed, so a proof can be submitted with only part of a batch. `HandleFiles` appends a whole batch at once, in file order. An interleaving in file order is expressed by calling it on each part in turn (`ProofModal.BatchSplits`); out-of-order completion is not modelled. The data URL of each file is an opaque field of `File`.
- `Date.now()` ids and `toLocaleString()` timestamps are caller-supplied parameters.
- The `samplePosts` seed data is left out. Its two prices appear only in the price examples.
- JsString.ToLowerCase: folds ASCII letters only, not the full Unicode `toLowerCase`. Search is therefore case-insensitive for ASCII only.
- The PayPal integration is simulated text in the source and is left out.
- PaymentModal.PaymentFlow.ClickPay: a second `handlePayment` from the same click burst before re-render is not modelled. The pay button exists only in the confirm step.
- Form field setters other than the email and the proof description (title, price, category, game, tag input, proof checkbox) are plain field replacements. They are not modelled as operations; `CreatePost.FormData` is a value.
- `replies` is a JavaScript number, modelled as an integer.
- `priceValue` is computed but never displayed or passed on in the source (the confirm and processing steps show the raw listing price), so no lemma ties it to the payment flow.
