# Shrouk princess taps: a Dafny model of the client-side game logic

This project models the game rules that live in the client of a
"tap-to-earn" mini-game. A player taps to mine SHROUK or TON, buys and
upgrades princess cards that pay per hour, follows tasks grouped into tabs,
reads the interface in English, Arabic or Russian, and an administrator
fills in an add-card form. Everything else in the repository is markup,
notifications, backend access or wallet plumbing.

The model has one module per component:

- `wrappers.dfy` (`Wrappers`): `Option`, for `null`, `undefined` and NaN.
- `mining.dfy` (`Mining`): the mining dashboard.
  - The class `MiningDashboard` holds the six state fields and the three
    handlers, which update the fields in place.
  - Each handler is specified by a pure step function on a `Miner` snapshot
    (`Tap`, `Refill`, `UpgradeCapacity`).
  - `Run` replays a sequence of user actions.
  - The source spells the SHROUK balance field `shrougEarned`; here it is
    `shroukEarned`.
- `princess_cards.dfy` (`Cards`): the seeded catalog of six cards.
  - The class `PrincessCards` holds the card list. Its buy and upgrade
    handlers replace the list through `Bought` and `Upgraded`.
  - It also models the hourly totals per currency and the rarity styling
    maps.
- `tasks_page.dfy` (`Tasks`): tasks by tab, completed counts, the progress
  bar width, and the claim notification.
- `language_context.dfy` (`Language`): the translation table and the `t`
  lookup with its fallback chain.
  - The class `LanguageProvider` holds the current language and the stored
    preference.
  - It applies the start-up preference and switches the language.
- `admin_panel.dfy` (`Admin`): the add-card form.
  - The class `AdminPanel` holds the form and its open flag, with one setter
    per input.
  - Saving is specified by `AddCard`.

Inputs from the environment become parameters:

- the clock reading (`Date.now()`) is `now: int`;
- the random draw (`Math.random()`) is `roll: real`, and the source's test
  `roll > 0.7` is kept;
- the browser's language tag is `browserTag`;
- the result of parsing a numeric input is `Option<real>`, where `None` is
  NaN.

The browser's stored language entry is the field `LanguageProvider.storage`.
Balances and the tap value are `real`, so `tapValue * 0.1` is exact. All
card quantities in the catalog are integers, so cards use `int`.

What the code does, in the places where it matters most:

- Refilling taps and upgrading capacity are free; neither reads a balance.
- One capacity upgrade adds 500 taps to both the capacity and the taps
  remaining.
- A tap has a one-second cooldown after the last accepted tap.
- Buying and upgrading cards never read or debit a balance.
- The buy and upgrade handlers do not check ownership. The interface offers
  Buy only on unowned cards and Upgrade only on owned ones.
- An upgrade doubles the card's current yield and price, so after `k`
  upgrades they are the seeded values times 2^k.

## Model

| member | source | states |
|---|---|---|
| `Mining.Initial` | src/components/MiningDashboard.tsx:13-18 | the dashboard starts with 1000 of 1000 taps, nothing earned, tap value 0.001, last tap at 0, and satisfies the capacity invariant |
| `Mining.Tap` | src/components/MiningDashboard.tsx:21-54 | a tap within 1000 ms of the last accepted tap is refused and changes nothing; otherwise, with no taps left, it is refused and changes nothing; otherwise it uses exactly one tap, sets the last tap time to `now`, keeps capacity and tap value, and credits exactly one currency: TON by a tenth of the tap value when the draw exceeds 0.7, else SHROUK by the tap value, leaving the other balance as it was; it keeps `0 <= tapsRemaining <= maxTaps` and, for a non-negative tap value, never lowers a balance |
| `Mining.Refill` | src/components/MiningDashboard.tsx:56-62 | remaining taps become the capacity, nothing else changes, and the capacity invariant holds afterwards |
| `Mining.UpgradeCapacity` | src/components/MiningDashboard.tsx:64-71 | capacity and remaining taps both grow by 500, so the taps used are unchanged; nothing else changes; the capacity invariant is kept |
| `Mining.RefillIdempotent` | src/components/MiningDashboard.tsx:56-57 | refilling twice is the same as refilling once |
| `Mining.CooldownAfterAcceptedTap` | src/components/MiningDashboard.tsx:22-36 | after an accepted tap at `t1`, any tap at `t2` with `t2 - t1 < 1000` is refused by the cooldown and changes nothing |
| `Mining.RunKeepsCapacity` | src/components/MiningDashboard.tsx:13-66 | every sequence of taps, refills and upgrades preserves `0 <= tapsRemaining <= maxTaps` |
| `Mining.RunKeepsTapValue` | src/components/MiningDashboard.tsx:17 | no action changes the tap value |
| `Mining.RunKeepsEarnings` | src/components/MiningDashboard.tsx:40-46 | with a non-negative tap value, no sequence of actions lowers the SHROUK or TON balance |
| `Mining.ReachableFromInitial` | src/components/MiningDashboard.tsx:13-71 | every state reachable from the initial one satisfies the capacity invariant and has non-negative balances |
| `Mining.TapsOnlyUseRemaining` | src/components/MiningDashboard.tsx:25-35 | over taps alone, remaining taps fall by exactly the number of accepted taps, which never exceeds the taps that were remaining |
| `Mining.MiningDashboard.constructor` | src/components/MiningDashboard.tsx:13-18 | the component's fields start in the initial state |
| `Mining.MiningDashboard.HandleTap` | src/components/MiningDashboard.tsx:21-54 | the fields and the returned outcome are exactly those of `Tap` on the old fields |
| `Mining.MiningDashboard.RefillTaps` | src/components/MiningDashboard.tsx:56-62 | the fields become `Refill` of the old fields |
| `Mining.MiningDashboard.UpgradeTapCapacity` | src/components/MiningDashboard.tsx:64-71 | the fields become `UpgradeCapacity` of the old fields |
| `Cards.SeedCatalog` | src/components/PrincessCards.tsx:25-98 | the catalog has six cards with ids '1' to '6', in order |
| `Cards.SeedIdsDistinct` | src/components/PrincessCards.tsx:27-87 | the seeded ids are pairwise distinct |
| `Cards.SeedCardsFresh` | src/components/PrincessCards.tsx:32-93 | every seeded card is unowned at level 1 |
| `Cards.SeedCardKinds` | src/components/PrincessCards.tsx:29-89 | the catalog's first five cards pay SHROUK and the sixth pays TON |
| `Cards.Bought` | src/components/PrincessCards.tsx:120-124 | buying keeps the length and order; the card with the id becomes owned with all else equal; every other card is unchanged |
| `Cards.Upgraded` | src/components/PrincessCards.tsx:126-137 | upgrading keeps the length and order; the card with the id gains one level and has its hourly yield and price doubled; every other card is unchanged |
| `Cards.BuyUnknownId` | src/components/PrincessCards.tsx:121-123 | buying an id that no card has leaves the list unchanged |
| `Cards.BuyIdempotent` | src/components/PrincessCards.tsx:121-123 | buying twice gives the same list as buying once |
| `Cards.BuyAndUpgradeKeepIds` | src/components/PrincessCards.tsx:120-137 | buying and upgrading keep the list of ids, in order |
| `Cards.UpgradedTimesCompose` | src/components/PrincessCards.tsx:126-134 | upgrading `a` times and then `b` times is the same as upgrading `a + b` times |
| `Cards.UpgradesMultiply` | src/components/PrincessCards.tsx:126-134 | `a` upgrades and then `b` more multiply the card's yield and price by 2^a * 2^b |
| `Cards.UpgradedTimesFormula` | src/components/PrincessCards.tsx:130-133 | after `k` upgrades the card with the id is `k` levels higher with yield and price times 2^k; other cards are unchanged |
| `Cards.SeedUpgradedTimes` | src/components/PrincessCards.tsx:126-137 | from the seed, `k` upgrades of a card give level 1 + k and its seeded yield and price times 2^k |
| `Cards.OwnedOfKind` | src/components/PrincessCards.tsx:150-157 | the cards summed for a currency are exactly the owned cards of that currency, and there are no more of them than cards in the list |
| `Cards.OwnedOfKindAppend` | src/components/PrincessCards.tsx:150-157 | the filter distributes over concatenation, so it keeps every qualifying card in order and as many times as it occurs |
| `Cards.SumYield` | src/components/PrincessCards.tsx:150-157 | the `reduce` from 0 over the yields: it is never negative when no yield is |
| `Cards.HourlyTotal` | src/components/PrincessCards.tsx:150-157 | the per-currency total shown: one card earns its contribution (its yield when owned and paying that currency, else 0), a list with no owned card of that currency earns 0, and non-negative yields give a non-negative total |
| `Cards.HourlyTotalSplits` | src/components/PrincessCards.tsx:150-157 | the hourly total of a concatenated list is the sum of the parts' totals |
| `Cards.HourlyTotalCons` | src/components/PrincessCards.tsx:150-151 | a card adds its yield to its currency's total when owned and nothing otherwise |
| `Cards.NoOwnedNoEarnings` | src/components/PrincessCards.tsx:150-157 | a list with no owned card has total 0 in both currencies |
| `Cards.SeedEarnsNothing` | src/components/PrincessCards.tsx:150-157 | the seeded collection earns nothing per hour |
| `Cards.BuyKeepsOtherTotal` | src/components/PrincessCards.tsx:155-157 | buying a card of one currency leaves the other currency's total unchanged |
| `Cards.BuyAddsYield` | src/components/PrincessCards.tsx:150-152 | with distinct ids, buying an unowned card raises its currency's total by exactly its yield |
| `Cards.RarityColor` | src/components/PrincessCards.tsx:100-108 | rare, epic and legendary get blue, purple and gold badges; exactly every other string, 'common' included, gets grey |
| `Cards.RarityBorder` | src/components/PrincessCards.tsx:110-118 | rare, epic and legendary get blue, purple and gold borders; exactly every other string gets the grey border |
| `Cards.PrincessCards.constructor` | src/components/PrincessCards.tsx:25-98 | the card list starts as the seeded catalog |
| `Cards.PrincessCards.BuyCard` | src/components/PrincessCards.tsx:120-124 | the list becomes `Bought` of the old list |
| `Cards.PrincessCards.UpgradeCard` | src/components/PrincessCards.tsx:126-137 | the list becomes `Upgraded` of the old list |
| `Tasks.WithCategory` | src/components/TasksPage.tsx:53 | the result holds exactly the tasks of the given category and is no longer than the input |
| `Tasks.WithCategoryAppend` | src/components/TasksPage.tsx:53 | filtering distributes over concatenation, so the original order is kept |
| `Tasks.Loaded` | src/components/TasksPage.tsx:53 | `tasks ?? []`: an absent list reads as empty, a present one as itself |
| `Tasks.TasksByCategory` | src/components/TasksPage.tsx:52-54 | a tab lists exactly the loaded tasks of its category; an absent task list gives no tasks |
| `Tasks.UncategorisedTaskHidden` | src/components/TasksPage.tsx:52-54 | a task whose category is not daily, main or partner appears in no tab |
| `Tasks.IsCompleted` | src/components/TasksPage.tsx:58 | the truthiness of `completed`: an absent (`null`) flag is not completed, a present one is completed exactly when it is `true` |
| `Tasks.CompletedIn` | src/components/TasksPage.tsx:58 | the count is at most the number of tasks; it equals it exactly when all are completed and is 0 exactly when none is (`null` is not completed) |
| `Tasks.CompletedInAppend` | src/components/TasksPage.tsx:58 | the count of a concatenation is the sum of the counts, so with the one-task cases above each completed task adds exactly one |
| `Tasks.CompletedCount` | src/components/TasksPage.tsx:56-59 | a tab's completed count never exceeds its number of tasks |
| `Tasks.ProgressPercent` | src/components/TasksPage.tsx:109-126 | the bar's width lies in [0, 100]; it is 0 for an empty tab and exactly when no task is completed, and 100 exactly when the tab has tasks and all are completed; for a non-empty tab it is `Percent` of the completed count out of the tab's size |
| `Tasks.ProgressPercentValue` | src/components/TasksPage.tsx:124 | a non-empty tab's width is its completed count divided by its size, times 100 |
| `Tasks.Percent` | src/components/TasksPage.tsx:124 | the result times the total is 100 times the part done, so it is done/total·100; it lies in [0, 100], is 0 only for none done and 100 only for all done |
| `Tasks.FindTask` | src/components/TasksPage.tsx:45 | finds nothing exactly when no task has the id; otherwise returns the first task with the id |
| `Tasks.CompleteTask` | src/components/TasksPage.tsx:44-50 | the claim toast is titled with the 'taskCompleted' text and names the reward of the first task with the id, or nothing when there is none or its reward is null; the task list is only read |
| `Tasks.ClaimToastShowsKeys` | src/components/TasksPage.tsx:46-49 | the claim toast is the same in every language, titled 'taskCompleted' with a description starting 'rewardReceived ' |
| `Language.Table` | src/contexts/LanguageContext.tsx:124 | `translations[lang]`: a table exists exactly for "en", "ar" and "ru" |
| `Language.T` | src/contexts/LanguageContext.tsx:135-137 | returns the current language's entry when present and non-empty; else the English entry when present and non-empty; else the key itself; the result is always the key or some table entry for it |
| `Language.SameKeys` | src/contexts/LanguageContext.tsx:12-112 | the Arabic and Russian tables define the same keys as the English one |
| `Language.NoEmptyEntries` | src/contexts/LanguageContext.tsx:12-112 | no table entry is empty |
| `Language.SupportedNeverFallsBack` | src/contexts/LanguageContext.tsx:135-137 | for a supported language, `t` either translates in that language or echoes the key, never falling back to English |
| `Language.UnsupportedReadsAsEnglish` | src/contexts/LanguageContext.tsx:136 | an unsupported language reads exactly as English |
| `Language.UntranslatedKeyEchoes` | src/contexts/LanguageContext.tsx:136 | a key missing from the English table is shown as itself in every language |
| `Language.TaskPageKeysUntranslated` | src/contexts/LanguageContext.tsx:136 | 'taskCenter', 'taskCompleted' and 'rewardReceived' are shown as themselves in every language |
| `Language.PrimarySubtag` | src/contexts/LanguageContext.tsx:123 | the result is the prefix of the tag up to, not including, its first '-' (the whole tag when it has none) |
| `Language.PreferredLanguage` | src/contexts/LanguageContext.tsx:117-128 | a non-empty saved language is adopted as is; otherwise the browser tag's primary subtag is adopted exactly when the table has it; otherwise the language is left alone |
| `Language.StartupLanguageSupported` | src/contexts/LanguageContext.tsx:115-128 | with no saved value, the start-up language is always a supported one |
| `Language.SavedLanguageRestored` | src/contexts/LanguageContext.tsx:118-133 | a language set by the user is restored at the next start whatever the browser says, unless it is empty, which counts as nothing saved |
| `Language.LanguageProvider.constructor` | src/contexts/LanguageContext.tsx:115 | the language starts as 'en' and the stored entry is the given one |
| `Language.LanguageProvider.LoadPreference` | src/contexts/LanguageContext.tsx:117-128 | the language becomes the preferred one, or stays as it was; storage is unchanged |
| `Language.LanguageProvider.SetLanguage` | src/contexts/LanguageContext.tsx:130-133 | the language and the stored entry both become the given language |
| `Language.LanguageProvider.Translate` | src/contexts/LanguageContext.tsx:135-137 | returns `T` of the current language and the key |
| `Admin.NumberField` | src/components/AdminPanel.tsx:116 | a numeric input reads as its parsed value, and as 0 exactly when it does not parse or parses to 0 |
| `Admin.AddCard` | src/components/AdminPanel.tsx:26-52 | saving is refused exactly when the name is empty or the yield or the price is 0, and then nothing changes; otherwise the form is returned as the added card, reset to ('', 'shrouk', 0, 0, '', 'common') and closed |
| `Admin.NegativeAmountsAccepted` | src/components/AdminPanel.tsx:27 | a named form with negative yield and price is accepted |
| `Admin.UnparseableRejected` | src/components/AdminPanel.tsx:116-128 | a yield or price that does not parse is refused at save |
| `Admin.SaveNotRepeated` | src/components/AdminPanel.tsx:43-51 | right after a successful save, saving again is refused and changes nothing |
| `Admin.AdminPanel.constructor` | src/components/AdminPanel.tsx:16-24 | the panel starts closed with the initial form |
| `Admin.AdminPanel.ToggleAddCard` | src/components/AdminPanel.tsx:67 | the add button flips the open flag and keeps the form |
| `Admin.AdminPanel.Cancel` | src/components/AdminPanel.tsx:76-175 | on the open form (the only place the button exists), cancel closes the form without clearing it |
| `Admin.AdminPanel.SetName` | src/components/AdminPanel.tsx:84 | on the open form (its inputs exist only then), only the name changes and the form stays open |
| `Admin.AdminPanel.SetRarity` | src/components/AdminPanel.tsx:93 | on the open form (its inputs exist only then), only the rarity changes and the form stays open |
| `Admin.AdminPanel.SetHourlyYield` | src/components/AdminPanel.tsx:116 | on the open form (its inputs exist only then), only the yield changes, to the input read as a number and the form stays open |
| `Admin.AdminPanel.SetPrice` | src/components/AdminPanel.tsx:128 | on the open form (its inputs exist only then), only the price changes, to the input read as a number and the form stays open |
| `Admin.AdminPanel.SetCurrency` | src/components/AdminPanel.tsx:138 | on the open form (its inputs exist only then), only the currency changes and the form stays open |
| `Admin.AdminPanel.SetDescription` | src/components/AdminPanel.tsx:155 | on the open form (its inputs exist only then), only the description changes and the form stays open |
| `Admin.AdminPanel.HandleAddCard` | src/components/AdminPanel.tsx:26-52 | on the open form (Save exists only then), the fields and the returned card are exactly those of `AddCard` on the old fields |

## Left out

- Rendering is not modelled: markup, icons, animations, progress-bar
  rendering and `toFixed` formatting.
- Notifications are modelled only for the claim button. Elsewhere they are
  side effects with no state.
- The `isTapping` animation flag and its 200 ms `setTimeout` reset are not
  modelled.
- Floating-point behaviour is not modelled. Balances, the tap value and the
  form's numbers are exact reals, so rounding of `0.001`-sized amounts does
  not arise.
- Card quantities are unbounded integers. Precision loss above 2^53 after
  many doublings is not modelled.
- The card record has no `image` field. The catalog's image paths are
  presentation only.
- JavaScript prototype properties are not modelled. A language code or key
  such as 'constructor' would find an inherited property in the source's
  plain objects.
- The task list's loading and error states are not modelled, only the
  list's absence.
- The backend query behind the task list is not modelled.
- The admin panel's static list of example cards and its edit and delete
  buttons are not modelled; they do nothing.
- `handleAddCard` writes the new card to the console. That is modelled as
  returning it.
- The tap button is disabled in the interface when no taps remain. Only the
  guard inside the handler is modelled.
- `Cards.Bought` and `Cards.Upgraded` do not carry the interface's button
  guard (Buy shown only on unowned cards, Upgrade only on owned ones); they
  model the handlers, which apply to any card with the given id.
- `Admin.AddCard` is defined on a closed panel too, where it would save a
  valid form. Only `Admin.AdminPanel.HandleAddCard` carries the open-form
  guard, as `requires isAddingCard`, like the other handlers of the form.
- `Tasks.CompleteTask` takes any id. The interface shows Claim only on
  tasks that are not completed; that button guard is not modelled.
- Database and HTTP services, the on-chain send form, the wallet connection,
  the referral page, the splash screen, navigation and the application shell
  are not part of this model. They are I/O against foreign libraries, or
  static presentation.
