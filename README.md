# Shop progression and shopkeeper replies, modelled in Dafny

The shop demo has four surfaces: the 2D room, the voice-avatar shopkeeper, the chat shopkeeper and the older standalone voice shopkeeper. Each one carries its own copy of two small rules.

The first rule is how a player's progression record changes. The record holds coins, experience, level, achievement labels and (in the client) an inventory of products. It changes on a purchase, on a conversation turn and on a try-on. The second rule is how a scripted shopkeeper picks its reply to a typed or spoken message: a first-match search over the shop's shelves, then fixed keyword groups, then a random line of the shop's theme.

The copies differ from surface to surface, and each is modelled as it is written:

- Purchases level up with one `if` and `experience % 100`.
- Chat and simulated voice turns level up with one `if` and reset experience to 0.
- The avatar's voice turn adds experience with no level check.
- The chat and voice shops charge a fixed 50 coins and record an achievement label.

Each handler is a method. It copies the incoming stats, updates the copy field by field as the source does, and returns what the source passes to `onStatsUpdate`. A `None` or `NotEnoughCoins` result means `onStatsUpdate` is not called.

The looped reference rule `Leveling.Resolve` subtracts the level's threshold (`level * 100`) and advances for as long as experience reaches it. It keeps every point of experience. The lemmas in `Leveling` say exactly when each handler's single-step rule agrees with it:

- The `% 100` purchase rule always agrees when the record was normalized and the award is at most 100.
- The reset rule agrees only while the award lands at or below the threshold.
- The unchecked voice turn agrees only while it stays below the threshold.

The reply rules are stated as predicates (`SelectsReply`), proved unambiguous, and met by the loop-based selectors.

JavaScript behaviour the handlers rely on is written out in `Js`:

- `%` truncates toward zero.
- `toLowerCase` is modelled as ASCII-only.
- `includes` is the substring test.
- `trim` removes the ECMAScript white space and line terminators.
- `Math.floor(Math.random() * n)` takes the random draw `roll` in `[0, 1)` as a parameter.

Files:

- `shop_types.dfy`: the records, the starting stats and the achievement key and label.
- `js.dfy`: the JavaScript built-ins.
- `leveling.dfy`: thresholds, the three level-up rules and `Resolve`.
- One file per surface.
- `scenarios.dfy`: concrete runs whose outcomes follow from the contracts.

## Model

| member | source | states |
|---|---|---|
| ShopTypes.LabelIsNeverKey | client/src/components/AIShopkeeper.tsx:135-138 | the label `First <name> Purchase` never equals the key `first-<theme>-purchase`, so the membership test never finds a stored label |
| ShopTypes.RecordPurchaseAsWritten | src/components/VoiceShopkeeper.tsx:151-158 | the achievement step as written: the earlier list is kept as a prefix and at most one entry is added; unchanged if the key is present; otherwise the key stays absent and the label's count rises by one, so the result is the old list with exactly one label pushed |
| ShopTypes.RepeatedPurchaseDuplicatesLabel | client/src/components/AIShopkeeper.tsx:135-138 | two purchases in one shop, from no achievements, store the label twice |
| ShopTypes.RecordFirstPurchase | client/src/components/AIShopkeeper.tsx:131-138 | corrected step: the earlier list is kept as a prefix and at most one entry is added; the label is present afterwards; the label's count becomes 1 if it was absent and is unchanged if it was present, so the result is the old list or the old list plus the label |
| ShopTypes.RecordFirstPurchaseIdempotent | client/src/components/AIShopkeeper.tsx:135-138 | the corrected step applied twice equals applied once, and the label occurs exactly once |
| ShopTypes.CountAppend | src/components/VoiceShopkeeper.tsx:157 | appending `y` raises the count of `x` by one exactly when `y == x` |
| Js.Remainder | client/src/components/Shop2DRoom.tsx:41 | JavaScript `%`: for a non-negative dividend the result is the Euclidean remainder in `[0, b)`; for a negative dividend it lies in `(-b, 0]` |
| Js.ToLower | client/src/components/VoiceAvatarShopkeeper.tsx:133 | same length, each character lower-cased independently (ASCII letters shifted by 32, everything else kept) |
| Js.IncludesAt | client/src/components/VoiceAvatarShopkeeper.tsx:138 | `includes` holds exactly when the pattern occurs at some offset |
| Js.Includes | client/src/components/VoiceAvatarShopkeeper.tsx:138 | `includes`: a prefix is always included, and an included string is no longer than the text; `Js.IncludesAt` states that it is exactly the substring relation |
| Js.TrimStart | client/src/components/AIShopkeeper.tsx:94 | the result is a suffix, everything removed is white space, and it does not start with white space |
| Js.TrimEnd | client/src/components/AIShopkeeper.tsx:94 | the result is a prefix, everything removed is white space, and it does not end with white space |
| Js.Trim | client/src/components/AIShopkeeper.tsx:92-94 | `trim` is `Js.TrimEnd` after `Js.TrimStart`: never longer than the input, and a non-empty result neither starts nor ends with white space; `Js.TrimEmptyIffBlank` states when it is empty |
| Js.TrimEmptyIffBlank | client/src/components/AIShopkeeper.tsx:92 | `message.trim()` is empty exactly when every character is white space or a line terminator |
| Js.RandomIndex | client/src/components/VoiceAvatarShopkeeper.tsx:184 | `Math.floor(roll * n)` is a valid index into a non-empty list of length `n` |
| Leveling.Resolve | client/src/components/Shop2DRoom.tsx:39-41 | reference rule: the level never drops, the result is normalized (`0 <= experience < level * 100`), and total experience is preserved |
| Leveling.ModuloLevelUp | client/src/components/Shop2DRoom.tsx:39-41 | the purchases' rule: the level rises by one exactly when experience reaches `level * 100` and is kept otherwise, with experience unchanged; after a level-up from non-negative experience, less than 100 remains. `Leveling.ModuloMatchesResolve` compares it with the reference rule |
| Leveling.ResetLevelUp | client/src/components/AIShopkeeper.tsx:111-115 | the chat and voice-turn rule: the level rises by one exactly when experience reaches `level * 100` and is kept otherwise, with experience unchanged; a level-up leaves experience 0. `Leveling.ResetMatchesResolveIff` compares it with the reference rule |
| Leveling.ResolveSingleCrossing | client/src/components/Shop2DRoom.tsx:39-41 | from a normalized record, an award of at most 100 crosses at most one threshold |
| Leveling.RemainderAfterThresholds | client/src/components/Shop2DRoom.tsx:41 | `(level * 100 + k) % 100 == k` for `0 <= k < 100` |
| Leveling.ModuloMatchesResolve | client/src/components/Shop2DRoom.tsx:39-41 | from a normalized record, the `% 100` purchase rule equals the reference rule for every award up to 100 |
| Leveling.ModuloKeepsNormalized | client/src/components/AIShopkeeper.tsx:141-145 | the `% 100` rule yields a normalized record from any positive level and non-negative experience |
| Leveling.ModuloMissesLargeAward | src/components/VoiceShopkeeper.tsx:161-165 | the `% 100` rule diverges on awards over 100: 250 from level 1 gives (2, 50) against (2, 150); 300 gives (2, 0) against (3, 0) |
| Leveling.ModuloDivergesWhenDenormalized | client/src/components/VoiceAvatarShopkeeper.tsx:207-209 | after unchecked turns left 180 at level 1, a purchase gives (2, 0) where the reference rule gives (2, 100) |
| Leveling.ResetMatchesResolveIff | client/src/components/AIShopkeeper.tsx:111-115 | from a normalized record, the reset rule equals the reference rule if and only if the award lands at or below the threshold |
| Leveling.ResetDiscardsOverflow | src/components/VoiceShopkeeper.tsx:130-134 | the reset rule loses exactly the overflow past the threshold from the total experience |
| Leveling.ResetKeepsNormalized | src/components/VoiceShopkeeper.tsx:130-134 | the reset rule yields a normalized record from any positive level and non-negative experience |
| Leveling.UncheckedMatchesResolveIff | client/src/components/VoiceAvatarShopkeeper.tsx:125-129 | with no level check, the record is normalized, and equals the reference rule, if and only if experience stays below the threshold |
| Shop2DRoom.HandlePurchase | client/src/components/Shop2DRoom.tsx:22-53 | rejected, reporting price and coins, exactly when coins < price; otherwise: coins drop by the price and stay non-negative; the product is appended to the inventory; achievements are unchanged; experience +20 under the `% 100` rule; level rises by at most 1 and the notice flag says whether it did; a normalized record stays normalized and matches the reference rule |
| Shop2DRoom.HandleTryOn | client/src/components/Shop2DRoom.tsx:55-60 | never commits stats |
| VoiceAvatarShopkeeper.GenerateReply | client/src/components/VoiceAvatarShopkeeper.tsx:132-185 | the reply meets `SelectsReply`, in priority order: the first named product in shelf-then-product order; else the first named shelf with its product count; else help, buy, try-on keywords; else the drawn theme line. Each branch is an if-and-only-if |
| VoiceAvatarShopkeeper.FirstProductNamedUnique | client/src/components/VoiceAvatarShopkeeper.tsx:136-142 | the first named product position is unique |
| VoiceAvatarShopkeeper.SelectsReplyDeterministic | client/src/components/VoiceAvatarShopkeeper.tsx:132-185 | at most one reply meets the rule for a given input and draw |
| VoiceAvatarShopkeeper.SelectsReplyIgnoresCase | client/src/components/VoiceAvatarShopkeeper.tsx:133 | an input and its lower-cased form select the same replies |
| VoiceAvatarShopkeeper.HandleVoiceInput | client/src/components/VoiceAvatarShopkeeper.tsx:111-130 | the reply meets the reply rule; the stats gain exactly 3 experience and nothing else; from a normalized record the result is normalized, and matches the reference rule, if and only if experience stays below the threshold |
| VoiceAvatarShopkeeper.HandlePurchase | client/src/components/VoiceAvatarShopkeeper.tsx:187-226 | the same contract as the 2D room's purchase: rejection iff coins < price; price paid; product appended; achievements unchanged; `% 100` level-up; the invariant kept |
| VoiceAvatarShopkeeper.HandleTryOn | client/src/components/VoiceAvatarShopkeeper.tsx:228-237 | never commits stats |
| AIShopkeeper.Recommendation | client/src/components/AIShopkeeper.tsx:59-63 | there is no answer exactly when the shop has no shelves; otherwise the answer is one of the shop's shelves together with that shelf's first item (none on an empty shelf) |
| AIShopkeeper.SimulateReply | client/src/components/AIShopkeeper.tsx:39-89 | the reply meets `SelectsReply`, in priority order: the first named item, with its shelf; else the first named shelf with its items; else help (a drawn shelf, or no reply when there are no shelves); else buy; else the drawn theme line. Each branch is an if-and-only-if |
| AIShopkeeper.SelectsReplyDeterministic | client/src/components/AIShopkeeper.tsx:39-89 | at most one outcome meets the reply rule |
| AIShopkeeper.AwardChatTurn | client/src/components/AIShopkeeper.tsx:105-117 | only level and experience change, +5 under the reset rule; a normalized record stays normalized and matches the reference rule iff the award stays at or below the threshold |
| AIShopkeeper.HandleSendMessage | client/src/components/AIShopkeeper.tsx:91-119 | a blank draft changes nothing; otherwise: the trimmed message and the reply join the transcript and the draft is cleared; stats are committed exactly when a reply was produced, changing only level and experience, +5 under the reset rule |
| AIShopkeeper.HandlePurchase | client/src/components/AIShopkeeper.tsx:121-155 | rejected, with the transcript unchanged, exactly when coins < 50; otherwise: 50 coins paid; the inventory is untouched; achievements follow the as-written step, so the key stays absent and the label's count rises by one; experience +20 under the `% 100` rule; the request and thanks join the transcript |
| VoiceShopkeeper.VoicePanel.constructor | src/components/VoiceShopkeeper.tsx:44-50 | starts with an empty key, the key form shown, disconnected and not listening |
| VoiceShopkeeper.VoicePanel.EditApiKey | src/components/VoiceShopkeeper.tsx:188 | typing replaces the key and keeps the panel invariant |
| VoiceShopkeeper.VoicePanel.SubmitApiKey | src/components/VoiceShopkeeper.tsx:55-80 | accepted if and only if the key is not blank; a refused key changes nothing; an accepted one hides the form and connects |
| VoiceShopkeeper.VoicePanel.ToggleListening | src/components/VoiceShopkeeper.tsx:82-97 | does nothing while disconnected; otherwise flips listening and schedules a turn exactly when it was not listening before |
| VoiceShopkeeper.VoicePanel.FinishListening | src/components/VoiceShopkeeper.tsx:92-95 | the scheduled turn stops listening, keeping the invariant |
| VoiceShopkeeper.AwardVoiceTurn | src/components/VoiceShopkeeper.tsx:124-136 | only level and experience change, +10 under the reset rule; a normalized record stays normalized and matches the reference rule iff the award stays at or below the threshold |
| VoiceShopkeeper.SimulateResponse | src/components/VoiceShopkeeper.tsx:99-139 | the line is the theme's line at the drawn index; the stats are those of the voice-turn award |
| VoiceShopkeeper.HandlePurchase | src/components/VoiceShopkeeper.tsx:141-174 | rejected exactly when coins < 50; otherwise: 50 coins paid; achievements follow the as-written step, with the label's count rising by one; experience +20 under the `% 100` rule; the invariant kept |

## Left out

- JSX rendering, styling, the 3D scenes and the mall and entrance screens: display only.
- Toasts and message text other than the reply chosen: display only.
- Speech recognition and synthesis, and the ElevenLabs connection: foreign browser and network I/O. `initializeVoiceChat` is modelled only by the flag it sets.
- `setTimeout` delays: each handler, including its delayed part, is taken as one synchronous step. Turns that interleave with a pending timer are not modelled. Neither is the stale `playerStats` a delayed callback reads, which can drop a purchase committed in between.
- VoiceAvatarShopkeeper.HandleVoiceInput: takes the current `stats` as a parameter. In the source, the speech-recognition handler is installed once by an effect with an empty dependency list (client/src/components/VoiceAvatarShopkeeper.tsx:35-71). Its `handleVoiceInput` therefore spreads the `playerStats` of the panel's first render. A voice turn after a purchase in the same panel would commit the mount-time coins and inventory plus 3 experience, undoing the purchase. The model does not capture this stale snapshot.
- The speaking flag, the displayed message and the avatar's spoken conversation log (`isSpeaking`, `currentMessage`, `conversationLog`): UI state with no effect on progression. The chat transcript is modelled.
- The chat transcript's initial greeting entry: set by an effect on mount, outside the handlers.
- The server routes and the virtual try-on modal: network, file and foreign calls.
- Number precision: coins and experience are unbounded integers. JavaScript doubles are exact on the integer ranges these handlers reach.
- Js.ToLower: maps only `A`-`Z`, where JavaScript lower-cases every cased letter. Non-ASCII letters in names or messages therefore compare case-sensitively in the model; the catalog names are ASCII.
- `Math.random`: the draw is the parameter `roll`, and randomness itself is not modelled.
- The chat shopkeeper's shop type: it reads `section.items` (names), while the client's shop type declares `products`. It is modelled over the item lists it actually reads.
- The catalog data in `client/src/data/products.ts` is not part of this model. The scenarios use a few products of their own.

## Findings

| source | as written | input that shows it | evidently intended | confidence | as-written member | corrected member |
|---|---|---|---|---|---|---|
| client/src/components/AIShopkeeper.tsx:135-138 (and src/components/VoiceShopkeeper.tsx:155-158) | tests for `first-<theme>-purchase` but stores `First <name> Purchase`, so the test never succeeds | two purchases in one shop from no achievements store the label twice | record the first-purchase achievement once per shop | high, not executed | ShopTypes.RepeatedPurchaseDuplicatesLabel | ShopTypes.RecordFirstPurchaseIdempotent |
