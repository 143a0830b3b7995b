# Daily Rewards — a Dafny model

This project models the logic at the core of the Daily Rewards demo screen, a UI Toolkit sample for Unity:

- **Reward economy.** A row of day cards, each holding a reward of coins, gems, tokens or XP. Claiming a card credits the player's coin or gem balance. A limited number of rerolls rewrite every unclaimed card's reward.
- **`SimpleListView`.** It reconciles a list of visual elements with a data source.
- **`MultiDependencyBinding`.** It watches several property paths and fires a callback or converter when their values change.
- **UI controls.** The state machines and class-list mappings of the reroll button, the premium claim button and the reward card.

One Dafny module models each core source file. Modules over pure code, such as the enums and icon tables, are datatypes, functions and lemmas. Code that updates fields becomes classes with `modifies` frames. Examples are the currency service, the view model, the list view, the binding and the controls. Every state-changing method states its whole new state. It is proved against specification functions, and lemmas about those functions state the properties.

| file | module | models |
|---|---|---|
| `optional.dfy` | `Optional` | nullable references (`Option`) |
| `rewards.dfy` | `Rewards` | `ERewardType`, `RewardData` |
| `cards.dfy` | `Cards` | `ECardType`, `CardData`, `List.Find` over cards |
| `reward_icons.dfy` | `RewardIcons` | `RewardIconUtils` |
| `currency.dfy` | `Currency` | `CurrencyService` and its change events |
| `data_service.dfy` | `RewardsDataService` | `DailyRewardsDataService` |
| `view_model.dfy` | `RewardsViewModel` | `DailyRewardsViewModel` |
| `list_view.dfy` | `ListView` | `SimpleListView` |
| `binding.dfy` | `Binding` | `MultiDependencyBinding` |
| `reroll_button.dfy` | `RerollButton` | `RewardsRerollButton` |
| `premium_button.dfy` | `PremiumButton` | `PremiumButtonControl` |
| `reward_card.dfy` | `RewardCard` | `DailyRewardCardControl` |

Conventions:
- **Events.**
  - A raised C# event becomes an entry appended to a log: `CurrencyService.events`, the view model's `log`, the list view's `log`, the binding's `fired`, and the controls' click counters and logs.
  - The view model is the only subscriber of the currency events. After a claim it replays the newly logged events through its handlers, in order.
- **Randomness.** The two `System.Random` calls of each reroll become a nondeterministic choice (`:|`) of a legal draw (`RerollDraw`): a kind index, then an amount in that kind's range.
- **Host calls.** Host reflection (`PropertyContainer.TryGetValue`, `ConverterGroups.TrySetValueGlobal`) is a function parameter. Element class lists are `set<string>`, and the class names are the literals of `Assets/Scripts/Utilities/UISelectors.cs`.
- **Integers** are mathematical (see "Left out").

## Model

| member | source | states |
|---|---|---|
| `Rewards.Ordinal` | Assets/Scripts/Data/RewardData.cs:6-12 | every reward type has exactly one position in the declaration order Coins, Gems, Tokens, XP that the reroll draws from; it is the index that draws that type |
| `Cards.CardData.constructor` | Assets/Scripts/Data/CardData.cs:28-34 | day, type and reward are stored as given, unchecked; claimed is stored as given and defaults to false |
| `Cards.FindCard` | Assets/Scripts/Data/DailyRewardsDataService.cs:69 | `List.Find` by day: null exactly when no card has the day, otherwise the first card with that day |
| `RewardIcons.GetIconTypeForReward` | Assets/Scripts/Utilities/RewardIconUtils.cs:34-49 | Coins and XP map to Star, Gems to Gem, Tokens to Crown; Lock is never returned |
| `RewardIcons.GetEmojiForIconType` | Assets/Scripts/Utilities/RewardIconUtils.cs:56-72 | every icon has an emoji of one Unicode code point, and none is the unknown one |
| `RewardIcons.EmojiInjective` | Assets/Scripts/Utilities/RewardIconUtils.cs:56-72 | different icons get different emoji |
| `RewardIcons.RewardEmoji` | Assets/Scripts/UI/Components/DailyRewardCardControl.cs:467-480 | a card's icon emoji is never the lock or unknown one; it is the gem emoji exactly for Gems and the crown exactly for Tokens |
| `Currency.ReplayAppend` | Assets/Scripts/Data/CurrencyService.cs:27-54 | replaying two event runs one after the other is replaying their concatenation, and each is a real change exactly when both are |
| `Currency.NonNegative` | Assets/Scripts/Data/CurrencyService.cs:73-77 | a negative amount counts as 0; any other amount is kept |
| `Currency.ClampedSubtract` | Assets/Scripts/Data/CurrencyService.cs:101-133 | the new balance is never negative and is the difference or 0 |
| `Currency.CurrencyService.constructor` | Assets/Scripts/Data/CurrencyService.cs:61-65 | starts at the given balances (1000 and 25 by default) with no event raised |
| `Currency.CurrencyService.SetCoins` | Assets/Scripts/Data/CurrencyService.cs:27-38 | stores the value; raises OnCoinsChanged(value) exactly when it differs from the old one; gems are untouched |
| `Currency.CurrencyService.SetGems` | Assets/Scripts/Data/CurrencyService.cs:43-54 | the same for gems; coins are untouched |
| `Currency.CurrencyService.AddCoins` | Assets/Scripts/Data/CurrencyService.cs:71-80 | coins grow by the amount clamped at 0, one event exactly for a positive amount; gems are untouched |
| `Currency.CurrencyService.AddGems` | Assets/Scripts/Data/CurrencyService.cs:86-95 | the same for gems |
| `Currency.CurrencyService.SubtractCoins` | Assets/Scripts/Data/CurrencyService.cs:101-114 | coins become max(0, coins − amount) with a negative amount counting as 0; never negative, never larger; an event exactly on change |
| `Currency.CurrencyService.SubtractGems` | Assets/Scripts/Data/CurrencyService.cs:120-133 | the same for gems |
| `RewardsDataService.RerollRange` | Assets/Scripts/Data/DailyRewardsDataService.cs:146-164 | every reward type's reroll range is a non-empty range of positive amounts |
| `RewardsDataService.Credit` | Assets/Scripts/Data/DailyRewardsDataService.cs:93-110 | a claim credits the amount to coins for Coins and to gems for Gems, and nothing for Tokens and XP |
| `RewardsDataService.DailyRewardsDataService.constructor` | Assets/Scripts/Data/DailyRewardsDataService.cs:34 | the current day is 2 |
| `RewardsDataService.DailyRewardsDataService.GetRewardData` | Assets/Scripts/Data/DailyRewardsDataService.cs:43-52 | exactly four rewards, in order: Coins 100, Gems 10, Tokens 5, XP 50, each inside its reroll range |
| `RewardsDataService.DailyRewardsDataService.ClaimReward` | Assets/Scripts/Data/DailyRewardsDataService.cs:61-114 | with no currency service, no card for the day, a claimed card or a null reward, nothing changes; otherwise the first card of the day is marked claimed, no other card changes, and the balances grow by the reward's credit |
| `RewardsDataService.DrawnReward` | Assets/Scripts/Data/DailyRewardsDataService.cs:142-161 | the reward built from a draw has a declared type and the drawn amount |
| `RewardsDataService.DrawsCoverRerollRange` | Assets/Scripts/Data/DailyRewardsDataService.cs:142-161 | the rewards the two random calls can build are exactly the in-range rewards: every legal draw lands in its type's range, and every type with every amount in its range comes from some draw |
| `RewardsDataService.DailyRewardsDataService.RerollUnclaimedRewards` | Assets/Scripts/Data/DailyRewardsDataService.cs:120-175 | every unclaimed card gets the reward of a legal draw, so one inside its type's range; claimed cards keep theirs; no day, type or claimed flag changes; a null list is a no-op |
| `RewardsViewModel.InitialCardType` | Assets/Scripts/Data/DailyRewardsViewModel.cs:135-145 | a card is Free exactly up to the current day and Locked after it; never Premium |
| `RewardsViewModel.DailyRewardsViewModel.constructor` | Assets/Scripts/Data/DailyRewardsViewModel.cs:98-155 | three rerolls, none used; balances copied from the service; one fresh unclaimed card per reward, card d holding reward d−1, day d, typed and flagged from the current day |
| `RewardsViewModel.DailyRewardsViewModel.HandleCoinsChanged` | Assets/Scripts/Data/DailyRewardsViewModel.cs:226-230 | mirrors the new coin balance and notifies; nothing else changes |
| `RewardsViewModel.DailyRewardsViewModel.HandleGemsChanged` | Assets/Scripts/Data/DailyRewardsViewModel.cs:237-241 | mirrors the new gem balance and notifies; nothing else changes |
| `RewardsViewModel.HandlerNotes` | Assets/Scripts/Data/DailyRewardsViewModel.cs:226-241 | each delivered currency event yields two notifications, the second the state change |
| `RewardsViewModel.DailyRewardsViewModel.Deliver` | Assets/Scripts/Data/DailyRewardsViewModel.cs:112-117 | handing a run of currency events to the handlers leaves the balances at the replay of those events and logs each handler's notifications in order |
| `RewardsViewModel.DailyRewardsViewModel.ClaimReward` | Assets/Scripts/Data/DailyRewardsViewModel.cs:167-192 | an unknown day, a claimed card or a missing data service changes nothing and notifies nothing; with a data service but no currency service the cards and balances stay but Cards and the state change are notified; otherwise only that card becomes claimed, the mirrored balances grow by its credit, and the log gains the handlers' notifications, then Cards and the state change |
| `RewardsViewModel.DailyRewardsViewModel.DelegateClaim` | Assets/Scripts/Data/DailyRewardsViewModel.cs:180-186 | the delegated claim marks the card claimed and leaves the view model's balances equal to the service's; without a currency service the balances stay; the log ends with Cards and the state change |
| `RewardsViewModel.DailyRewardsViewModel.SyncBalances` | Assets/Scripts/Data/DailyRewardsViewModel.cs:226-241 | delivering the events raised during a claim brings the mirrored balances to the service's, with the handlers' notifications logged |
| `RewardsViewModel.DailyRewardsViewModel.Reroll` | Assets/Scripts/Data/DailyRewardsViewModel.cs:197-219 | below the limit the count grows by one (even without a data service) and unclaimed cards are rerolled; at the limit nothing changes and nothing is notified; below it RerollCount is notified, then Cards and the state change when there is a data service; the budget RerollCount ≤ MaxRerolls is kept |
| `ListView.BoundOncePerSlot` | Assets/Scripts/UI/Controls/SimpleListView.cs:143-164 | a refresh binds every index below the count exactly once and no other index |
| `ListView.MadeOnlyForMissing` | Assets/Scripts/UI/Controls/SimpleListView.cs:147-155 | makeItem runs only for slots past the old list or holding null, and what it made fills that slot |
| `ListView.RefreshAgainMakesNothing` | Assets/Scripts/UI/Controls/SimpleListView.cs:126-165 | refreshing a full list at an unchanged count creates and destroys nothing |
| `ListView.ExcessRemovesAll` | Assets/Scripts/UI/Controls/SimpleListView.cs:131-141 | every element of the cut slots is removed from the hierarchy |
| `ListView.SimpleListView.constructor` | Assets/Scripts/UI/Controls/SimpleListView.cs:94-106 | an empty list in column direction with no source or delegates |
| `ListView.SimpleListView.SetLayoutDirection` | Assets/Scripts/UI/Controls/SimpleListView.cs:22-33 | the new direction reaches the container; items, log, delegates and the disposed flag untouched |
| `ListView.SimpleListView.SetDestroyItem` | Assets/Scripts/UI/Controls/SimpleListView.cs:82-86 | stores the delegate; the frame allows no other field to change |
| `ListView.SimpleListView.SetUnbindItem` | Assets/Scripts/UI/Controls/SimpleListView.cs:88-92 | stores the delegate; the frame allows no other field to change |
| `ListView.SimpleListView.DestroyItem` | Assets/Scripts/UI/Controls/SimpleListView.cs:114-124 | a non-null element is removed and then passed to destroyItem when set; null does nothing |
| `ListView.SimpleListView.DestroyFrom` | Assets/Scripts/UI/Controls/SimpleListView.cs:131-141 | the slots from the new count on are unbound and destroyed in index order |
| `ListView.SimpleListView.DestroyAllItems` | Assets/Scripts/UI/Controls/SimpleListView.cs:177-190 | every element is destroyed in order and the list is emptied |
| `ListView.SimpleListView.CreateOrUpdate` | Assets/Scripts/UI/Controls/SimpleListView.cs:143-164 | the list reaches the count; kept slots keep their element; missing or null slots get a fresh one; the log gains exactly the slot calls |
| `ListView.SimpleListView.RefreshItems` | Assets/Scripts/UI/Controls/SimpleListView.cs:126-165 | a no-op without source, makeItem or bindItem; otherwise the list is resized in place to the source count: the excess is torn down, missing slots are made, every slot is bound |
| `ListView.SimpleListView.SetItemsSource` | Assets/Scripts/UI/Controls/SimpleListView.cs:36-54 | the same source does nothing; null destroys every element and empties the list; a new source refreshes; delegates, direction and the disposed flag are kept |
| `ListView.SimpleListView.SetMakeItem` | Assets/Scripts/UI/Controls/SimpleListView.cs:56-67 | the same delegate does nothing; a different one triggers a refresh, which changes nothing without a source or bindItem; the other delegates, direction and the disposed flag are kept |
| `ListView.SimpleListView.SetBindItem` | Assets/Scripts/UI/Controls/SimpleListView.cs:69-80 | the same delegate does nothing; a different one triggers a refresh, which changes nothing without a source or makeItem; the other delegates, direction and the disposed flag are kept |
| `ListView.SimpleListView.Dispose` | Assets/Scripts/UI/Controls/SimpleListView.cs:177-190 | the first call destroys every element and empties the list; later calls do nothing; delegates and direction are kept |
| `Binding.Split` | Assets/Scripts/Data/MultiDependencyBinding.cs:289 | splitting on '.' gives at least one segment and no segment holds a dot |
| `Binding.JoinSplit` | Assets/Scripts/Data/MultiDependencyBinding.cs:289 | splitting loses nothing: joining the segments with dots gives the path back |
| `Binding.SplitDotted` | Assets/Scripts/Data/MultiDependencyBinding.cs:289 | a dot splits a path into its two sides' segments |
| `Binding.ResolveNull` | Assets/Scripts/Data/MultiDependencyBinding.cs:291-294 | a null met along the path stays null |
| `Binding.ResolveAppend` | Assets/Scripts/Data/MultiDependencyBinding.cs:291-306 | resolving segments in two runs is resolving them in one |
| `Binding.DottedPath` | Assets/Scripts/Data/MultiDependencyBinding.cs:282-313 | a dotted path resolves its head and then its tail from there |
| `Binding.NonEmpty` | Assets/Scripts/Data/MultiDependencyBinding.cs:277 | keeps exactly the non-empty paths |
| `Binding.NonEmptyAppend` | Assets/Scripts/Data/MultiDependencyBinding.cs:277 | filtering keeps the order |
| `Binding.CacheAfterContents` | Assets/Scripts/Data/MultiDependencyBinding.cs:224-228 | after the scan the cache holds each resolved path's value and every other entry as before |
| `Binding.CacheChanged` | Assets/Scripts/Data/MultiDependencyBinding.cs:224-232 | the cache changes exactly when some path resolves to a value that is new or different |
| `Binding.CacheAfterIdempotent` | Assets/Scripts/Data/MultiDependencyBinding.cs:213-235 | a second scan of an unchanged source changes nothing, so the second Update fires nothing |
| `Binding.ResolvedCount` | Assets/Scripts/Data/MultiDependencyBinding.cs:237-240 | all values are present exactly when every path resolves |
| `Binding.ResolvedInOrder` | Assets/Scripts/Data/MultiDependencyBinding.cs:213-243 | when every path resolves, the values are the paths' values in path order |
| `Binding.Fire` | Assets/Scripts/Data/MultiDependencyBinding.cs:27-88 | the callback runs at most once, exactly when it is set and there are enough values, with the first arity values |
| `Binding.ConverterOutcome` | Assets/Scripts/Data/MultiDependencyBinding.cs:246-265 | the binding fails only when the converter's non-null result, for an id not starting with "__", is refused by the target |
| `Binding.MultiDependencyBinding.constructor` | Assets/Scripts/Data/MultiDependencyBinding.cs:14-25 | no paths, callback, converter or cached value |
| `Binding.MultiDependencyBinding.GetPaths` | Assets/Scripts/Data/MultiDependencyBinding.cs:274-280 | the source path if non-empty, then the non-empty dependency paths in order |
| `Binding.MultiDependencyBinding.AddCallback` | Assets/Scripts/Data/MultiDependencyBinding.cs:27-88 | records the callback's arity; paths, converter, cache, dirty flag and subscription are kept |
| `Binding.MultiDependencyBinding.SetConverter` | Assets/Scripts/Data/MultiDependencyBinding.cs:90-131 | records the converter; paths, callback, cache, dirty flag and subscription are kept |
| `Binding.MultiDependencyBinding.OnDataSourceChanged` | Assets/Scripts/Data/MultiDependencyBinding.cs:133-148 | subscribes exactly when the new source notifies; the dirty flag is kept |
| `Binding.MultiDependencyBinding.OnDeactivated` | Assets/Scripts/Data/MultiDependencyBinding.cs:150-177 | unsubscribes and drops callback, converter and cache; the dirty flag is kept |
| `Binding.MultiDependencyBinding.OnSourcePropertyChanged` | Assets/Scripts/Data/MultiDependencyBinding.cs:179-197 | a watched name (some path starts with it) marks dirty and drops that exact cache key; any other name changes nothing; the subscription is kept |
| `Binding.MultiDependencyBinding.GetValue` | Assets/Scripts/Data/MultiDependencyBinding.cs:282-313 | the left-to-right resolution of the path's segments; null for a null source or an empty path |
| `Binding.MultiDependencyBinding.ScanPaths` | Assets/Scripts/Data/MultiDependencyBinding.cs:213-229 | the loop writes every resolved value into the cache, collects the values in order and reports whether the cache changed |
| `Binding.MultiDependencyBinding.Update` | Assets/Scripts/Data/MultiDependencyBinding.cs:199-272 | no paths: success, nothing fired; no change in a non-empty cache: success, nothing fired; some path unresolved: failure before any callback; otherwise the callback and converter run on the values |
| `Binding.MultiDependencyBinding.RunCallbackAndConverter` | Assets/Scripts/Data/MultiDependencyBinding.cs:241-265 | the callback fires as `Fire` says, then the converter's outcome is returned |
| `RerollButton.StateClasses` | Assets/Scripts/UI/Components/RewardsRerollButton.cs:123-142 | "pressed" exactly in Pressed, "hovered" exactly in Hovered, no other class |
| `RerollButton.StateClassesRemoved` | Assets/Scripts/UI/Components/RewardsRerollButton.cs:120-122 | clearing both state classes leaves none of a state's classes |
| `RerollButton.StatePicking` | Assets/Scripts/UI/Components/RewardsRerollButton.cs:134-142 | picking is ignored exactly in Disabled and Animating |
| `RerollButton.CompletesAtDuration` | Assets/Scripts/UI/Components/RewardsRerollButton.cs:313-343 | for a positive duration the animation completes exactly when the elapsed time reaches it |
| `RerollButton.StepPreservesInv` | Assets/Scripts/UI/Components/RewardsRerollButton.cs:113-380 | every input keeps "Animating implies the animation runs" and "Disabled implies not enabled" |
| `RerollButton.RunPreservesInv` | Assets/Scripts/UI/Components/RewardsRerollButton.cs:113-380 | the same over any run of inputs |
| `RerollButton.BlockedIgnoresUsers` | Assets/Scripts/UI/Components/RewardsRerollButton.cs:207-275 | in Animating or Disabled, pointer input and clicks change nothing |
| `RerollButton.OneRerollPerAnimation` | Assets/Scripts/UI/Components/RewardsRerollButton.cs:207-291 | with user input only, at most one reroll is raised, however many clicks follow |
| `RerollButton.CompletionIgnoresEnabled` | Assets/Scripts/UI/Components/RewardsRerollButton.cs:338-380 | completion lands in Normal even when disabled, while a stop alone lands in Disabled |
| `RerollButton.RewardsRerollButton.constructor` | Assets/Scripts/UI/Components/RewardsRerollButton.cs:63-86 | starts Normal, enabled, not animating, with no state class and callbacks registered |
| `RerollButton.RewardsRerollButton.SetState` | Assets/Scripts/UI/Components/RewardsRerollButton.cs:113-143 | the same state is a no-op; otherwise classes and picking follow the new state |
| `RerollButton.RewardsRerollButton.SetEnabled` | Assets/Scripts/UI/Components/RewardsRerollButton.cs:148-161 | disabling leads to Disabled; enabling leads to Normal unless Animating |
| `RerollButton.RewardsRerollButton.OnDetachFromPanel` | Assets/Scripts/UI/Components/RewardsRerollButton.cs:180-184 | stops the animation and unregisters the callbacks |
| `RerollButton.RewardsRerollButton.InternalRerollClicked` | Assets/Scripts/UI/Components/RewardsRerollButton.cs:207-219 | ignored while Animating or Disabled; otherwise one reroll event and the animation starts |
| `RerollButton.RewardsRerollButton.OnPointerDownRoll` | Assets/Scripts/UI/Components/RewardsRerollButton.cs:225-232 | Pressed unless Disabled or Animating |
| `RerollButton.RewardsRerollButton.OnPointerUp` | Assets/Scripts/UI/Components/RewardsRerollButton.cs:238-249 | ignored while blocked; otherwise Hovered if the pointer is inside, else Normal |
| `RerollButton.RewardsRerollButton.OnPointerOver` | Assets/Scripts/UI/Components/RewardsRerollButton.cs:255-262 | only Normal moves, to Hovered |
| `RerollButton.RewardsRerollButton.OnPointerOut` | Assets/Scripts/UI/Components/RewardsRerollButton.cs:268-275 | only Hovered moves, to Normal |
| `RerollButton.RewardsRerollButton.StartDiceAnimation` | Assets/Scripts/UI/Components/RewardsRerollButton.cs:281-291 | already animating: no-op; otherwise Animating from elapsed 0 |
| `RerollButton.RewardsRerollButton.StopDiceAnimation` | Assets/Scripts/UI/Components/RewardsRerollButton.cs:351-380 | clears the animation, then Normal if enabled, else Disabled |
| `RerollButton.RewardsRerollButton.AnimationTick` | Assets/Scripts/UI/Components/RewardsRerollButton.cs:313-343 | advances the elapsed time; at completion stops and lands in Normal |
| `PremiumButton.ShadowClass` | Assets/Scripts/Utilities/UISelectors.cs:75-78 | each state's class is one of the four shadow classes |
| `PremiumButton.ShadowClassBijective` | Assets/Scripts/Utilities/UISelectors.cs:75-78 | states and shadow classes correspond one to one |
| `PremiumButton.EnableInClass` | Assets/Scripts/UI/Components/PremiumButtonControl.cs:209-212 | EnableInClassList: the class is present exactly when asked; no other class moves |
| `PremiumButton.ShowStateExactlyOne` | Assets/Scripts/UI/Components/PremiumButtonControl.cs:209-212 | after showing a state exactly its shadow class is on among the four; other classes are untouched |
| `PremiumButton.ShowStateLastWins` | Assets/Scripts/UI/Components/PremiumButtonControl.cs:201-213 | only the last state shown matters |
| `PremiumButton.InnerButton.constructor` | Assets/Scripts/UI/Components/PremiumButtonControl.cs:19 | the inner button's enabled flag and text |
| `PremiumButton.ShadowElement.constructor` | Assets/Scripts/UI/Components/PremiumButtonControl.cs:20 | the shadow's class list |
| `PremiumButton.PremiumButtonControl.constructor` | Assets/Scripts/UI/Components/PremiumButtonControl.cs:67-107 | label "CLAIM", duration 0.5; with the tree loaded the label reaches the button and the shadow shows Default exactly when the button exists and is enabled, else Disabled |
| `PremiumButton.PremiumButtonControl.SetButtonState` | Assets/Scripts/UI/Components/PremiumButtonControl.cs:201-213 | without a shadow nothing changes; otherwise exactly the state's shadow class is on |
| `PremiumButton.PremiumButtonControl.SetText` | Assets/Scripts/UI/Components/PremiumButtonControl.cs:236-247 | the text reaches the button when there is one |
| `PremiumButton.PremiumButtonControl.SetLabel` | Assets/Scripts/UI/Components/PremiumButtonControl.cs:27-35 | stores the label and copies it to the button text |
| `PremiumButton.PremiumButtonControl.OnButtonClicked` | Assets/Scripts/UI/Components/PremiumButtonControl.cs:137-142 | raises OnClickedEvent once |
| `PremiumButton.PremiumButtonControl.OnPointerEnter` | Assets/Scripts/UI/Components/PremiumButtonControl.cs:148-155 | Hover when the button exists and is enabled; otherwise nothing |
| `PremiumButton.PremiumButtonControl.OnPointerLeave` | Assets/Scripts/UI/Components/PremiumButtonControl.cs:161-168 | Default when the button exists and is enabled; otherwise nothing |
| `PremiumButton.PremiumButtonControl.OnPointerDown` | Assets/Scripts/UI/Components/PremiumButtonControl.cs:174-181 | Pressed for mouse button 0 on an enabled button; otherwise nothing |
| `PremiumButton.PremiumButtonControl.OnPointerUp` | Assets/Scripts/UI/Components/PremiumButtonControl.cs:187-194 | Hover for mouse button 0 on an enabled button; otherwise nothing |
| `PremiumButton.PremiumButtonControl.UpdateButtonStateFromEnabled` | Assets/Scripts/UI/Components/PremiumButtonControl.cs:220-229 | Default on an enabled button, Disabled on a disabled one; without a button nothing |
| `PremiumButton.PremiumButtonControl.SetPremiumButtonEnabled` | Assets/Scripts/UI/Components/PremiumButtonControl.cs:255-267 | sets the flag and shows Default if enabled, else Disabled; without a button nothing |
| `PremiumButton.PremiumButtonControl.OnDetachFromPanel` | Assets/Scripts/UI/Components/PremiumButtonControl.cs:113-132 | unregisters the callbacks when there is a button |
| `RewardCard.ClassNamesDistinct` | Assets/Scripts/Utilities/UISelectors.cs:26-40 | the class names of each group are distinct |
| `RewardCard.AnimationClassesApart` | Assets/Scripts/Utilities/UISelectors.cs:26-45 | the animation classes are not state classes; `StopAllAnimations`, `Reveal`, `OnRewardChanged` and `OnCardStateChanged` rely on it to keep the other group's classes |
| `RewardCard.ExclusiveClass` | Assets/Scripts/UI/Components/DailyRewardCardControl.cs:256-278 | the first class exactly when its condition holds, the second only when the first does not |
| `RewardCard.DayTextClasses` | Assets/Scripts/UI/Components/DailyRewardCardControl.cs:256-279 | "locked" exactly when Locked, "claimed" exactly when not Locked and claimed |
| `RewardCard.HeaderClasses` | Assets/Scripts/UI/Components/DailyRewardCardControl.cs:256-279 | the same for the header |
| `RewardCard.CardClasses` | Assets/Scripts/UI/Components/DailyRewardCardControl.cs:423-438 | "locked" exactly when Locked, "current" exactly when not Locked and the current day |
| `RewardCard.GradientClasses` | Assets/Scripts/UI/Components/DailyRewardCardControl.cs:323-347 | "locked" exactly when Locked, else gems or tokens by type; Coins and XP get none |
| `RewardCard.AmountClasses` | Assets/Scripts/UI/Components/DailyRewardCardControl.cs:349-375 | "locked" exactly when Locked, else gems, tokens or coins by type; XP gets none |
| `RewardCard.GlowClasses` | Assets/Scripts/UI/Components/DailyRewardCardControl.cs:377-396 | gems or tokens glow by type, none when Locked |
| `RewardCard.AtMostOneStateClass` | Assets/Scripts/UI/Components/DailyRewardCardControl.cs:256-396 | no element ever carries two state classes of its group |
| `RewardCard.SwapShowsChosen` | Assets/Scripts/UI/Components/DailyRewardCardControl.cs:256-396 | removing a group and adding the chosen classes leaves exactly those of the group; other classes stay |
| `RewardCard.GradientText` | Assets/Scripts/UI/Components/DailyRewardCardControl.cs:308-321 | the locked text exactly when Locked, with no arguments |
| `RewardCard.RewardTypeKey` | Assets/Scripts/UI/Components/DailyRewardCardControl.cs:313-320 | a reward type's key is never the locked one |
| `RewardCard.GradientTextDistinguishes` | Assets/Scripts/UI/Components/DailyRewardCardControl.cs:308-321 | on an unlocked card different reward types get different texts |
| `RewardCard.AmountText` | Assets/Scripts/UI/Components/DailyRewardCardControl.cs:406-411 | the locked text without arguments, else the format with the amount |
| `RewardCard.DayTextDistinguishes` | Assets/Scripts/UI/Components/DailyRewardCardControl.cs:239-242 | different days get different day labels |
| `RewardCard.ClaimLabel` | Assets/Scripts/UI/Components/DailyRewardCardControl.cs:451-453 | the claimed text exactly for a claimed card |
| `RewardCard.RevealStaggered` | Assets/Scripts/UI/Components/DailyRewardCardControl.cs:526-531 | cards are revealed in day order: one card's delay is below another's exactly when its day is earlier, by 100 ms per day |
| `RewardCard.RevealDelayFitsInLong` | Assets/Scripts/UI/Components/DailyRewardCardControl.cs:526-531 | for any 32-bit day the delay 1280 + day·100 fits the 64-bit long it is computed in |
| `RewardCard.ClickOutcomeAsWritten` | Assets/Scripts/UI/Components/DailyRewardCardControl.cs:171-181 | the click handler as written: it raises a claim for an enabled card and dereferences null without data |
| `RewardCard.ClickWithoutDataDereferences` | Assets/Scripts/UI/Components/DailyRewardCardControl.cs:179 | a click with no card data reaches the dereference |
| `RewardCard.ClickOutcomeOf` | Assets/Scripts/UI/Components/DailyRewardCardControl.cs:171-176 | a claim is raised, for the card's day, exactly when data is present and the card is not Locked and not claimed |
| `RewardCard.ClickOutcomeAgreesWithData` | Assets/Scripts/UI/Components/DailyRewardCardControl.cs:171-181 | with data present the corrected handler behaves as written |
| `RewardCard.ClaimGuardMatchesButton` | Assets/Scripts/UI/Components/DailyRewardCardControl.cs:460-463 | a click raises a claim exactly when the claim button is enabled |
| `RewardCard.DailyRewardCardControl.constructor` | Assets/Scripts/UI/Components/DailyRewardCardControl.cs:67-91 | no data, not initialised, no state class, the string database set; the click and detach callbacks are not registered yet (only the attach callback is) |
| `RewardCard.DailyRewardCardControl.OnAttachToPanel` | Assets/Scripts/UI/Components/DailyRewardCardControl.cs:93-98 | registers the click and detach callbacks and sets up the bindings |
| `RewardCard.DailyRewardCardControl.OnClaimButtonClicked` | Assets/Scripts/UI/Components/DailyRewardCardControl.cs:171-181 | raises OnClaimEvent(day) exactly when the click outcome is a claim |
| `RewardCard.DailyRewardCardControl.UpdateDayTextClasses` | Assets/Scripts/UI/Components/DailyRewardCardControl.cs:256-279 | the day-text and header groups show their chosen classes |
| `RewardCard.DailyRewardCardControl.UpdateRewardGradientClasses` | Assets/Scripts/UI/Components/DailyRewardCardControl.cs:323-347 | the gradient group shows its chosen class |
| `RewardCard.DailyRewardCardControl.UpdateRewardAmountClasses` | Assets/Scripts/UI/Components/DailyRewardCardControl.cs:349-375 | the amount group shows its chosen class; a Locked card also shows the locked amount text |
| `RewardCard.DailyRewardCardControl.UpdateCardGlowClasses` | Assets/Scripts/UI/Components/DailyRewardCardControl.cs:377-396 | the glow group shows its chosen class |
| `RewardCard.DailyRewardCardControl.OnRewardTypeChanged` | Assets/Scripts/UI/Components/DailyRewardCardControl.cs:299-304 | gradient, amount and glow follow the card type and reward type |
| `RewardCard.DailyRewardCardControl.OnCardStateChanged` | Assets/Scripts/UI/Components/DailyRewardCardControl.cs:423-438 | the card group shows its chosen class; the animation chain invariant is kept |
| `RewardCard.DailyRewardCardControl.OnClaimStateChanged` | Assets/Scripts/UI/Components/DailyRewardCardControl.cs:460-463 | the claim button is enabled exactly when the card is not Locked and not claimed |
| `RewardCard.DailyRewardCardControl.StopAllAnimations` | Assets/Scripts/UI/Components/DailyRewardCardControl.cs:560-595 | cancels the three stored schedules and removes every animation class; the state classes and the loose schedules are kept |
| `RewardCard.DailyRewardCardControl.Reveal` | Assets/Scripts/UI/Components/DailyRewardCardControl.cs:526-541 | stops animations and schedules the reveal after 1280 + day·100 ms; the state classes and the loose schedules are kept |
| `RewardCard.DailyRewardCardControl.OnRewardChanged` | Assets/Scripts/UI/Components/DailyRewardCardControl.cs:202-214 | on an initialised card a reward change starts the reroll-out animation; otherwise nothing; the state classes are kept either way |
| `RewardCard.DailyRewardCardControl.OnRerollOutElapsed` | Assets/Scripts/UI/Components/DailyRewardCardControl.cs:496-500 | a pending reroll-out turns into a pending reroll-in, with the card's class moving from out to in; otherwise nothing; the chain invariant is kept |
| `RewardCard.DailyRewardCardControl.OnRerollInElapsed` | Assets/Scripts/UI/Components/DailyRewardCardControl.cs:507-519 | a pending reroll-in ends in the settle class, and the settle's end is scheduled without a handle; otherwise nothing |
| `RewardCard.DailyRewardCardControl.OnRevealElapsed` | Assets/Scripts/UI/Components/DailyRewardCardControl.cs:536-540 | a pending reveal adds the settle class and schedules the glow start without a handle; otherwise nothing |
| `RewardCard.DailyRewardCardControl.OnSettleEndElapsed` | Assets/Scripts/UI/Components/DailyRewardCardControl.cs:518 | a pending settle end takes the settle class off; otherwise nothing; the chain invariant is kept |
| `RewardCard.DailyRewardCardControl.OnGlowStartElapsed` | Assets/Scripts/UI/Components/DailyRewardCardControl.cs:548-554 | a pending glow start pops the glow and schedules the pop's end; otherwise nothing |
| `RewardCard.DailyRewardCardControl.OnGlowPopEndElapsed` | Assets/Scripts/UI/Components/DailyRewardCardControl.cs:551-552 | a pending pop end takes the pop class off; otherwise nothing |
| `RewardCard.DailyRewardCardControl.SetData` | Assets/Scripts/UI/Components/DailyRewardCardControl.cs:189-200 | stores the data; only the first call after construction or ClearData reveals |
| `RewardCard.DailyRewardCardControl.ClearData` | Assets/Scripts/UI/Components/DailyRewardCardControl.cs:614-620 | drops the data and the string database and resets the initialised flag |
| `RewardCard.DailyRewardCardControl.OnDetachFromPanel` | Assets/Scripts/UI/Components/DailyRewardCardControl.cs:100-106 | unregisters the callbacks, stops the stored schedules and animation classes, clears the bindings, the data and the string database; the loose schedules stay pending |

## Left out

- `Currency.CurrencyService.AddCoins`: does not model 32-bit wrap-around. Balances are mathematical integers, and C# `int` addition is unchecked.
- `Currency.CurrencyService.AddGems`: does not model 32-bit wrap-around, for the same reason.
- `Currency.CurrencyService.SubtractCoins`: the difference is taken on mathematical integers, so the wrap of `_coins - amount` for extreme values is not modelled. `SubtractGems` is the same.
- `RewardCard.RevealDelay`: computed on mathematical integers. The source multiplies `int` by `long`, which cannot overflow; `RevealDelayFitsInLong` states this.
- Logging (`Debug.Log`, `Debug.LogWarning`) is not modelled; it has no effect on state.
- Resource and UXML loading. `RewardsRerollButton` and `DailyRewardCardControl` assume their elements are found. `PremiumButtonControl` takes the loaded tree's elements, or null, as constructor parameters.
- Localisation: strings are modelled as key plus arguments (`LocalizedText`), and the string table lookup is not modelled.
- Animation timing belongs to the host scheduler and is not modelled: the dice keyframe interpolation and the delays of the card's chains. A schedule firing is a method call (`OnRerollOutElapsed`, `OnRerollInElapsed`, `OnRevealElapsed`, `OnSettleEndElapsed`, `OnGlowStartElapsed`, `OnGlowPopEndElapsed`), and the model does not order these calls by their delays. `Time.deltaTime` is a parameter of `AnimationTick`. Float durations are reals, without float rounding.
- The card keeps no handle to the settle-end, glow-start and glow-pop-end schedules (DailyRewardCardControl.cs:518, 548, 551). `StopAllAnimations` therefore cannot cancel them. The model keeps them in `looseSchedules`, which every stop leaves as it was, so a glow started before a stop can still pop after it.
- `RerollButton.RewardsRerollButton.InternalRerollClicked`: the reroll event runs the screen's handler synchronously, before `StartDiceAnimation` (RewardsRerollButton.cs:217-218). That handler rerolls, and the view model's state change makes the screen call `SetEnabled(RerollCount < MaxRerolls)` (DailyRewardsScreen.cs:235). So the last reroll's animation starts with the button already disabled. The screen is not part of this model, and the contract, which keeps `enabledSelf`, does not show this.
- Host event registration: `RegisterCallback` and `UnregisterCallback` are recorded as a `callbacksRegistered` flag, and binding set-up and `ClearBindings` as `bindingsActive`. Event dispatch is not modelled; the raised events go to logs.
- `RewardCard.DailyRewardCardControl.ClearData`: it also nulls the string database, which nothing sets again. A card detached and attached again then dereferences null when it writes the locked amount text or runs its localised converters. The model records this as `stringDatabaseSet` becoming false, but does not model the exception.
- Strings are sequences of Unicode code points, not UTF-16 code units. `RewardIcons.GetEmojiForIconType` states that each emoji is one code point; in C# the crown, gem and lock emoji have `Length` 2.
- `DailyRewardsViewModel`: `OnStateChangedEvent` is invoked without a null check, so it throws when nobody subscribes. The model assumes the screen subscribes, as it does, and logs the event instead.
- `DailyRewardsViewModel`: the public field `CurrentGemsFrem` is never read or written, and is not modelled.
- `DailyRewardsViewModel`: the view model handles currency events in order right after the data-service call returns, not inside the setter. The final balances are the same, because the handlers touch only the mirrored balances.
- The global `RewardData` class declared in `Assets/Scripts/Data/DailyRewardsDataService.cs:8-22`, which has an extra `day` field, is not modelled. It is shadowed inside the `Scripts.Data` namespace and nothing uses it.
- `RewardsDataService.DailyRewardsDataService.ClaimReward`: `List.Find` throws on a null entry it meets before the match. The model requires that no null entry comes before the matching card (`FindIsSafe`), and does not model the exception.
- `RewardCard.DailyRewardCardControl.SetData`: the first call with a null card throws in the source, because the reveal reads the day. It is required to have a card.
- `Binding.MultiDependencyBinding.Update`: `Convert.ChangeType` and any exception from the callback or converter (the catch branch) are not modelled. Values are compared with `==` as `Equals` stands for. `MarkDirty` is the `dirty` flag; the `updateTrigger` setting and the binding id type are reduced to a string.
- `Binding.MultiDependencyBinding.SetConverter`: the one-, two- and three-argument overloads are one converter over the value list. The arity checks and the casts inside them are not modelled.
- `Binding`: null strings and null path arrays behave like empty ones in `GetPaths`, so they are modelled as `""` and `[]`.
- `ListView.SimpleListView`: `makeItem` is modelled as returning a fresh element. `bindItem`, `unbindItem` and `destroyItem` are recorded in the call log, without running user code. `MarkDirtyRepaint` and `GC.SuppressFinalize` are not modelled.
- Unity's `Button.SetEnabled` is modelled as setting `enabledSelf` only.
- Wiring and visual-only code is not part of this model: `Assets/Scripts/UI/GameScreens/DailyRewardsScreen.cs`, `Assets/Scripts/Infrastructure/UIScreensBootstrapper.cs`, `Assets/Scripts/Infrastructure/ServiceLocator.cs`, `Assets/Scripts/Utilities/UIToolkitCoroutineHelper.cs`, `Assets/Scripts/UI/Components/CurrencyDisplayControl.cs`, `Assets/Scripts/UI/Components/DynamicBackground.cs` and `Assets/Scripts/Data/AnimateBinding.cs`.
- Unreachable `default` branches of the enum switches are not modelled, since Dafny datatypes have no undeclared values. This covers the unknown-emoji branch of `GetEmojiForIconType` (`RewardIcons.GetEmojiForIconType` states that it is never taken).

## Findings

| source | as written | input that shows it | evidently intended | confidence | as-written member | corrected member |
|---|---|---|---|---|---|---|
| Assets/Scripts/UI/Components/DailyRewardCardControl.cs:171-181 | when the claim guard fails, the handler logs a warning that reads `_cardData.type` and `_cardData.claimed`, even when `_cardData` is null | a claim-button click on an attached card that never received `SetData`, such as a card declared in UXML: the click callback is registered on attach (line 152), and the warning dereferences null and throws | a click without data is ignored | high, not executed | `RewardCard.ClickOutcomeAsWritten`, `RewardCard.ClickWithoutDataDereferences` | `RewardCard.ClickOutcomeOf`, `RewardCard.DailyRewardCardControl.OnClaimButtonClicked` |
