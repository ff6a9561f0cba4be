# loft-algerie: a verified model of the application's own rules

loft-algerie is a property-management web application (Next.js and TypeScript). Most of its code forwards data between the database, server actions and the UI. This project models the small set of rules the application writes itself and proves properties about them:

- the per-loft revenue, expense and net-profit report;
- the case-insensitive tables that choose an icon and a badge colour for internet connection types and payment methods;
- the language handling:
  - the selector's table, its current-entry lookup and its change handler;
  - the i18n provider's saved-language whitelist, readiness gating and `changeLanguage` guard;
  - the option builder;
- the display decisions of the transactions list;
- the client state machines:
  - the zone-area editor;
  - the transactions page list and its role checks;
  - the payment-method, team and forgot-password forms.

There is one Dafny module per source file. `Common` holds the shared vocabulary. `Consistency` relates the three places that list languages.

Conventions used throughout:

- JavaScript truthiness is explicit. A possibly-undefined string is truthy when it is present and non-empty (`Common.Truthy`). A number is truthy when it is non-zero.
- Awaited server calls and library calls are inputs. Each becomes an outcome datatype: a value, an error result, or a thrown value. A thrown value is an `Error` instance with a message, or anything else.
- Handlers that await are split in two. One method runs before the await and one after; a combined method runs both. This makes "the flag is set while the call is pending" a stated postcondition.
- Navigation, toasts and persistence are recorded as effects in a sequence field, or as a field standing for the storage entry.
- Amounts are integers, for example centimes.

## Model

| member | source | states |
|---|---|---|
| Common.OrEmpty | components/forms/payment-method-form.tsx:49 | `s \|\| ""`: the string when present and non-empty, otherwise the empty string |
| Common.OrElse | components/auth/forgot-password-form.tsx:44 | `s \|\| fallback`: the string when present and non-empty, otherwise the fallback |
| Common.ToLower | app/settings/internet-connections/page.tsx:14 | lower-casing keeps the length, maps each character by itself, and yields a string without capitals |
| Common.ToLowerIdempotent | app/settings/payment-methods/page.tsx:15 | lower-casing a lower-cased string changes nothing, which is what makes the `switch` on `toLowerCase()` case-insensitive |
| Common.LowerOfLowerIsIdentity | app/settings/payment-methods/page.tsx:15-28 | a string without capitals (every `case` label) is its own lower-case form |
| Common.MessageOf | components/forms/payment-method-form.tsx:77 | a caught value gives its message when it is an `Error`, otherwise the fallback text |
| Reports.Filter | app/reports/page.tsx:25 | an element is in the filtered list exactly when it is in the input and satisfies the predicate; the result is no longer than the input |
| Reports.FilterAppend | app/reports/page.tsx:25 | filtering keeps the input order: the filter of a concatenation is the concatenation of the filters |
| Reports.ReduceAmounts | app/reports/page.tsx:26 | the `reduce` callback as a left fold from the initial accumulator; its meaning is stated by `Reports.ReduceIsSum` |
| Reports.Revenue | app/reports/page.tsx:24-26 | filter on completed income, then reduce from 0; its meaning is stated by `Reports.RevenueIsSumWhere` |
| Reports.Expenses | app/reports/page.tsx:27-29 | filter on completed expenses, then reduce from 0; its meaning is stated by `Reports.ExpensesIsSumWhere` |
| Reports.Summarize | app/reports/page.tsx:23-36 | the summary copies the loft's name; revenue is the sum of completed income amounts, expenses the sum of completed expense amounts, net profit their difference |
| Reports.LoftRevenues | app/reports/page.tsx:23 | one summary per loft, in the same order |
| Reports.LoftRevenuesSpec | app/reports/page.tsx:23-36 | every entry of the report names its loft and obeys the three totals |
| Reports.ReduceIsSum | app/reports/page.tsx:26 | `reduce((acc, t) => acc + t.amount, acc0)` equals `acc0` plus the sum of the amounts |
| Reports.SumOfFilter | app/reports/page.tsx:24-26 | summing the filtered list equals summing the matching elements of the whole list |
| Reports.RevenueIsSumWhere | app/reports/page.tsx:24-26 | the filter-then-reduce revenue equals the conditional sum over completed income |
| Reports.ExpensesIsSumWhere | app/reports/page.tsx:27-29 | the filter-then-reduce expenses equal the conditional sum over completed expenses |
| Reports.SumWhereAppend | app/reports/page.tsx:24-29 | the conditional sum distributes over concatenation |
| Reports.EmptyLoftIsZero | app/reports/page.tsx:23-36 | a loft without transactions reports revenue, expenses and net profit 0 |
| Reports.TotalsAreAdditive | app/reports/page.tsx:24-29 | revenue and expenses of a concatenation are the sums of the parts |
| Reports.PendingTransactionIsIgnored | app/reports/page.tsx:25-28 | inserting a transaction whose status is not "completed" anywhere changes neither total |
| Reports.TotalsAreExclusive | app/reports/page.tsx:25-28 | revenue plus expenses is the sum over transactions that are completed income or completed expense, so none counts twice |
| Reports.TotalsNonNegative | app/reports/page.tsx:24-29 | with non-negative amounts, every total is non-negative |
| InternetConnections.GetConnectionIcon | app/settings/internet-connections/page.tsx:13-27 | signal icon exactly for fiber/fibre, globe exactly for adsl/dsl, in any case; everything else, an absent type included, gets Wi-Fi |
| InternetConnections.GetConnectionColor | app/settings/internet-connections/page.tsx:29-42 | green exactly for active/actif, red exactly for inactive/inactif, yellow exactly for maintenance, in any case; gray otherwise |
| InternetConnections.ClassificationIgnoresCase | app/settings/internet-connections/page.tsx:13-42 | icon and colour of a string equal those of its lower-case form |
| InternetConnections.FiberGroup | app/settings/internet-connections/page.tsx:15-17 | fiber and fibre, in any case, give the signal icon |
| InternetConnections.DslGroup | app/settings/internet-connections/page.tsx:18-20 | adsl and dsl, in any case, give the globe icon |
| InternetConnections.WifiIsTheDefault | app/settings/internet-connections/page.tsx:21-25 | wifi, wireless, every other type and a missing one give the Wi-Fi icon |
| InternetConnections.ActiveIsGreen | app/settings/internet-connections/page.tsx:31-33 | active and actif, in any case, are green |
| InternetConnections.InactiveIsRed | app/settings/internet-connections/page.tsx:34-36 | inactive and inactif, in any case, are red |
| InternetConnections.MaintenanceIsYellow | app/settings/internet-connections/page.tsx:37-38 | maintenance, in any case, is yellow |
| InternetConnections.OtherStatusIsGray | app/settings/internet-connections/page.tsx:30-40 | any other status, and a missing one, is gray |
| InternetConnections.ConnectionCard | app/settings/internet-connections/page.tsx:145-182 | the card's icon follows the type; the status badge appears exactly when the status is truthy and then has the status colour; a non-zero cost shows the cost block and a zero cost leaves a bare "0" |
| InternetConnections.ConnectionList | app/settings/internet-connections/page.tsx:113-135 | the count is the list length, the empty state appears exactly for an empty list, and there is one card per connection in order |
| InternetConnections.PageAfterLoad | app/settings/internet-connections/page.tsx:50-73 | after loading the page is never the loading view; a successful load shows exactly the list built from the data (or from `[]` for missing data): one card per connection, in order, with the empty state only when there are none; an error result with a non-empty message shows that message, one with a missing or empty message leaves the initial empty list; a throw shows the fixed failure text; a shown error is never empty |
| PaymentMethods.GetPaymentMethodIcon | app/settings/payment-methods/page.tsx:14-32 | banknote exactly for cash/especes, smartphone exactly for mobile/mobile_payment, building exactly for bank/bank_transfer, in any case; the card icon otherwise |
| PaymentMethods.GetPaymentMethodColor | app/settings/payment-methods/page.tsx:34-52 | blue exactly for the card group, green for cash, purple for mobile, orange for bank, in any case; gray otherwise |
| PaymentMethods.PaymentClassificationIgnoresCase | app/settings/payment-methods/page.tsx:15-35 | icon and colour of a type equal those of its lower-case form |
| PaymentMethods.CardGroup | app/settings/payment-methods/page.tsx:16-19 | card, credit_card and debit_card, in any case, give the card icon and blue |
| PaymentMethods.CashGroup | app/settings/payment-methods/page.tsx:20-22 | cash and especes give the banknote icon and green |
| PaymentMethods.MobileGroup | app/settings/payment-methods/page.tsx:23-25 | mobile and mobile_payment give the smartphone icon and purple |
| PaymentMethods.BankGroup | app/settings/payment-methods/page.tsx:26-28 | bank and bank_transfer give the building icon and orange |
| PaymentMethods.UnknownTypeDefaults | app/settings/payment-methods/page.tsx:29-50 | an unknown type gets the card's icon but gray, which differs from the card's blue |
| PaymentMethods.PaymentMethodCard | app/settings/payment-methods/page.tsx:136-162 | the icon is looked up on `type \|\| ''`, so a missing type gets the card icon; the type badge appears exactly when the type is truthy, with its colour; details appear exactly when truthy |
| PaymentMethods.PaymentMethodList | app/settings/payment-methods/page.tsx:104-108 | the count is the list length, the empty state appears exactly for an empty list, one card per method in order |
| PaymentMethods.ListAfterLoad | app/settings/payment-methods/page.tsx:59-72 | a failed load is only logged, so the list stays empty; a successful one shows exactly the list built from the loaded methods, one card each, in order |
| LanguageSelector.Codes | components/ui/language-selector.tsx:15-19 | the codes of the table, position by position |
| LanguageSelector.LanguageTable | components/ui/language-selector.tsx:15-19 | the table has three entries with codes fr, en, ar in that order, no code twice |
| LanguageSelector.FindByCode | components/ui/language-selector.tsx:44 | `find` returns the first entry with the code, and nothing exactly when no entry has it |
| LanguageSelector.CurrentLanguage | components/ui/language-selector.tsx:44 | the shown entry is from the table: the active code's entry when supported, otherwise the first entry (fr) |
| LanguageSelector.CheckMarks | components/ui/language-selector.tsx:76 | an entry carries the check mark exactly when its code is the active language |
| LanguageSelector.AtMostOneCheckMark | components/ui/language-selector.tsx:66-80 | at most one entry is checked, and one is exactly when the active language is in the table |
| LanguageSelector.Trigger | components/ui/language-selector.tsx:49-63 | the trigger is disabled and spinning exactly while changing; otherwise it shows the current entry's flag |
| LanguageSelector.Selector.constructor | components/ui/language-selector.tsx:27 | `isChanging` starts false; the saved choice is whatever storage held |
| LanguageSelector.Selector.BeginChange | components/ui/language-selector.tsx:29-32 | choosing the active code is a no-op; otherwise `isChanging` is set; the saved choice is untouched |
| LanguageSelector.Selector.CompleteChange | components/ui/language-selector.tsx:33-41 | the choice is saved only when the change resolved; `isChanging` is cleared on every outcome |
| LanguageSelector.Selector.HandleLanguageChange | components/ui/language-selector.tsx:29-42 | the change is called exactly for a different code; then the flag ends cleared and the choice is saved only on success; otherwise nothing changes |
| TransactionsList.LocaleTag | components/transactions/transactions-list.tsx:54-57 | "ar-DZ" exactly for ar, "fr-FR" exactly for fr, "en-US" for every other language |
| TransactionsList.AmountSign | components/transactions/transactions-list.tsx:63 | "-" exactly for an expense, "+" otherwise |
| TransactionsList.PaymentMethodLabel | components/transactions/transactions-list.tsx:43-45 | empty without a payment method, the translator's text otherwise |
| TransactionsList.EquivalentSlotAsWritten | components/transactions/transactions-list.tsx:69-74 | as written: a present non-zero equivalent shows the block, and an equivalent of 0 leaves the text "0" |
| TransactionsList.EquivalentSlotIntended | components/transactions/transactions-list.tsx:69-74 | the equivalent block appears exactly for a present, non-zero equivalent, and nothing stray is ever rendered |
| TransactionsList.ZeroEquivalentLeavesStrayText | components/transactions/transactions-list.tsx:69 | as written, an equivalent of 0 renders the text "0"; the intended slot is empty |
| TransactionsList.EquivalentSlotsAgreeOtherwise | components/transactions/transactions-list.tsx:69-74 | on every input other than 0 the written and the intended slot agree |
| TransactionsList.RenderItem | components/transactions/transactions-list.tsx:48-80 | an item as written: keyed by the id, one locale tag for date and amount, the sign, the equivalent slot of line 69 (a bare "0" exactly for an equivalent of 0), and the payment-method block exactly when its label is non-empty |
| TransactionsList.RenderItemIntended | components/transactions/transactions-list.tsx:48-80 | the item with the corrected equivalent slot: never stray text, the block exactly for a non-zero equivalent, every other decision as in the written item |
| TransactionsList.ItemsDifferOnlyAtZeroEquivalent | components/transactions/transactions-list.tsx:69 | the written and the intended item are equal exactly when the equivalent is not 0 |
| TransactionsList.RenderItems | components/transactions/transactions-list.tsx:39-82 | one item per transaction, in input order |
| TransactionsList.RenderList | components/transactions/transactions-list.tsx:38-84 | the written items of `RenderItems`, in input order, followed by the children; node i is the item of transaction i; the sign is "-" exactly on expenses |
| ZoneAreas.ZoneAreasEditor.constructor | app/settings/zone-areas/zone-areas-client-wrapper.tsx:19-21 | the list starts as the initial areas, nothing is edited, the form is hidden |
| ZoneAreas.ZoneAreasEditor.HandleEdit | app/settings/zone-areas/zone-areas-client-wrapper.tsx:23-26 | the chosen area is edited and the form shown; the list is unchanged |
| ZoneAreas.ZoneAreasEditor.HandleCancel | app/settings/zone-areas/zone-areas-client-wrapper.tsx:51-54 | editing is cleared and the form hidden; the list is unchanged |
| ZoneAreas.ZoneAreasEditor.OpenAddForm | app/settings/zone-areas/zone-areas-client-wrapper.tsx:68-70 | the add button shows the form and does not set an edited area |
| ZoneAreas.ZoneAreasEditor.HandleFormSuccess | app/settings/zone-areas/zone-areas-client-wrapper.tsx:28-49 | editing is cleared and the form hidden on every outcome; a fetch replaces the list and raises the update toast exactly when an area was being edited before the call; a failed fetch keeps the list and raises the error toast |
| ZoneAreas.Screen | app/settings/zone-areas/zone-areas-client-wrapper.tsx:68-115 | the add button shows exactly when the form is hidden; the header is the update one exactly when editing; count and empty state follow the list |
| ZoneAreas.EditThenSave | app/settings/zone-areas/zone-areas-client-wrapper.tsx:23-49 | editing an area and saving it raises exactly the update toast and closes the form |
| TransactionsPage.ShowsReferenceAmounts | app/transactions/transactions-page-client.tsx:53 | the reference-amounts link is shown for the roles admin and manager |
| TransactionsPage.ShowsAddTransaction | app/transactions/transactions-page-client.tsx:61 | the add-transaction link is shown for the role admin |
| TransactionsPage.ShowsCreateForm | app/transactions/transactions-page-client.tsx:72 | the inline create form is shown for the role admin |
| TransactionsPage.ListIsAdmin | app/transactions/transactions-page-client.tsx:88 | the list receives `isAdmin` for the role admin |
| TransactionsPage.RoleVisibility | app/transactions/transactions-page-client.tsx:53-88 | the add link, the create form and the list's admin flag all mean role "admin"; admin implies the reference-amounts link; a manager sees that link but cannot create; other roles see neither |
| TransactionsPage.TransactionsState.constructor | app/transactions/transactions-page-client.tsx:30 | the list starts empty |
| TransactionsPage.TransactionsState.SyncWithProps | app/transactions/transactions-page-client.tsx:32-34 | the list becomes the props' list |
| TransactionsPage.TransactionsState.HandleCreateTransaction | app/transactions/transactions-page-client.tsx:36-43 | a created transaction goes to the front and the previous entries follow in order; a failure leaves the list unchanged |
| PaymentMethodForm.SchemaAccepts | components/forms/payment-method-form.tsx:20-24 | the schema accepts a name of at least two characters; type and details are optional |
| PaymentMethodForm.DefaultValues | components/forms/payment-method-form.tsx:46-56 | editing copies the name and turns a missing type or details into "" (present details are serialised); a new record starts with all three empty |
| PaymentMethodForm.NewRecordDefaultsRejected | components/forms/payment-method-form.tsx:20-56 | the new-record defaults fail the two-character name rule |
| PaymentMethodForm.BuildFormData | components/forms/payment-method-form.tsx:64-67 | the form data starts with the name and holds only the keys name, type and details |
| PaymentMethodForm.Get | components/forms/payment-method-form.tsx:64-67 | reading a key gives the first entry's value, and nothing exactly when the key is absent |
| PaymentMethodForm.FormDataRoundTrip | components/forms/payment-method-form.tsx:64-67 | reading the built data back gives the name, and type and details exactly when they were non-empty |
| PaymentMethodForm.FormState.constructor | components/forms/payment-method-form.tsx:35-36 | not loading, no error, no effects |
| PaymentMethodForm.FormState.BeginSubmit | components/forms/payment-method-form.tsx:60-61 | loading is set and the error cleared |
| PaymentMethodForm.FormState.CompleteSubmit | components/forms/payment-method-form.tsx:69-80 | an error result sets the error without navigating; a result without error refreshes, then navigates to /settings/payment-methods; a throw sets the thrown message or "An error occurred"; loading ends cleared |
| PaymentMethodForm.FormState.HandleFormSubmit | components/forms/payment-method-form.tsx:20-81 | values the schema rejects change nothing; otherwise the built form data is sent and each outcome ends as above, with loading cleared |
| TeamForm.DefaultName | components/forms/team-form.tsx:96 | the team's name, or "" without a team |
| TeamForm.DefaultDescription | components/forms/team-form.tsx:107 | the team's description when truthy, otherwise "" |
| TeamForm.SuccessMessage | components/forms/team-form.tsx:41-51 | the success text `Team "<name>" updated\|created successfully`; what it determines is stated by `TeamForm.SuccessMessageDetermines` |
| TeamForm.SuccessMessageDetermines | components/forms/team-form.tsx:41-51 | the success message determines both the team name it quotes and whether it says "updated" |
| TeamForm.RouteOf | components/forms/team-form.tsx:29-66 | a throw or an error result goes to the error branch with its message; a team result goes to the team branch exactly when there is no error, and that branch carries the returned `result.team`, whose name the toast shows and whose id the navigation uses; otherwise the fallback branch |
| TeamForm.TeamFormState.constructor | components/forms/team-form.tsx:21-23 | the team prop is kept, the error starts empty, no effects |
| TeamForm.TeamFormState.HandleSubmit | components/forms/team-form.tsx:27-68 | an error sets the error and raises a destructive toast with that text; a team result toasts its name and navigates to /teams/{id}; otherwise the submitted name is toasted and navigation goes to /teams; "updated" exactly when a team was given |
| ForgotPassword.ErrorAfter | components/auth/forgot-password-form.tsx:40-47 | a throw leaves "An unexpected error occurred"; a failed result its error or "Failed to send reset email"; success leaves no error; a left error is never empty |
| ForgotPassword.ForgotPasswordState.constructor | components/auth/forgot-password-form.tsx:23-25 | not loading, not succeeded, no error |
| ForgotPassword.ForgotPasswordState.BeginSubmit | components/auth/forgot-password-form.tsx:36-37 | loading is set and the error cleared |
| ForgotPassword.ForgotPasswordState.CompleteSubmit | components/auth/forgot-password-form.tsx:39-50 | success is set only by a successful result; a failure sets its error; loading ends cleared |
| ForgotPassword.ForgotPasswordState.OnSubmit | components/auth/forgot-password-form.tsx:35-51 | an address the email check rejects changes nothing; otherwise loading ends cleared, success and error follow the outcome |
| ForgotPassword.Render | components/auth/forgot-password-form.tsx:53-103 | the confirmation replaces the form exactly when success is set; input and button are disabled exactly while loading; the alert appears exactly for a non-empty error |
| ForgotPassword.FailureShowsAlert | components/auth/forgot-password-form.tsx:43-88 | after a failed request the form is back, enabled, and shows the error |
| I18nContext.AppliesSavedLanguage | lib/i18n/context.tsx:37 | a saved language is applied when it is non-empty and one of en, fr, ar |
| I18nContext.InstanceLanguageAfterInit | lib/i18n/context.tsx:36-38 | a saved language is applied only when it is non-empty and one of en, fr, ar; otherwise the detected language stays |
| I18nContext.ContextValue | lib/i18n/context.tsx:59-84 | the translator is the stub exactly without an instance; ready exactly when the flag is set and an instance exists; children render exactly when ready |
| I18nContext.Translate | lib/i18n/context.tsx:60 | before an instance exists every key translates to "" |
| I18nContext.I18nProvider.constructor | lib/i18n/context.tsx:22-24 | not ready, no instance, language "en" |
| I18nContext.I18nProvider.Initialize | lib/i18n/context.tsx:26-53 | the flag is set on every outcome; on failure instance and language stay; on success the instance carries the whitelisted saved language or the detected one, and the current language is that, or "fr" when empty |
| I18nContext.I18nProvider.ChangeLanguage | lib/i18n/context.tsx:64-78 | nothing happens without an instance or when the instance's change throws; otherwise instance and current language become the new one |
| I18nContext.InitFailureIsNotReady | lib/i18n/context.tsx:49-84 | after an initialisation that threw, the context is not ready, does not render its children, and translates with the stub |
| I18nContext.NormaliseNamespaces | lib/i18n/context.tsx:97-98 | a list stays as it is, a non-empty string becomes a one-element list, and a missing or empty argument loads nothing |
| I18nContext.NamespacesToLoad | lib/i18n/context.tsx:99-103 | a namespace is requested exactly when it was asked for and lacks a bundle for the current language |
| I18nContext.UseTranslation | lib/i18n/context.tsx:90-106 | outside a provider the hook fails; inside, it returns the context and requests exactly the missing namespaces |
| I18nContext.LoadsSkipBundled | lib/i18n/context.tsx:97-103 | no namespace with a bundle is ever requested, filtering again changes nothing, and with no bundle present every namespace is requested as given |
| I18nContext.LoadsKeepRequestOrder | lib/i18n/context.tsx:99-103 | the loads follow the order asked, one per occurrence: the loads for two lists in sequence are the loads of each, concatenated |
| I18nSettings.GetOptions | lib/i18n/settings.ts:1-14 | lng defaults to "ar" and ns to the five default namespaces, given values pass through; supported languages en, fr, ar; fallback "ar"; default and fallback namespace "common" |
| I18nSettings.DefaultOptions | lib/i18n/settings.ts:1-9 | with no arguments the language is "ar", which is supported, and the default namespace is among those loaded |
| I18nSettings.OptionsDifferOnlyInParameters | lib/i18n/settings.ts:2-13 | two calls agree on every option other than lng and ns |
| Consistency.SameLanguageSets | lib/i18n/context.tsx:37 | the selector's menu, the supported languages and the saved-language whitelist are the same set {en, fr, ar} |
| Consistency.MenuChoiceIsRestorable | components/ui/language-selector.tsx:15-36 | every language chosen from the menu is accepted as a saved language on the next start |
| Consistency.DefaultsDiffer | lib/i18n/context.tsx:24-42 | the defaults disagree: the provider starts with "en" and falls back to "fr", the options default to "ar", the selector shows fr for an unknown code |

## Left out

- Data access and server actions are not modelled; each appears only as the outcome it produces. This covers the Supabase queries of the report page and calls such as `getInternetConnectionTypes`, `getPaymentMethods`, `requireRole`, `getZoneAreas`, `createTransaction`, the form actions and `requestPasswordReset`.
- The i18next library is foreign code and is not modelled. `init`, the language detector, the HTTP/FS backends, `reloadResources`, `removeResourceBundle`, `loadNamespaces` and the `languageChanged` listener are left out. The instance is reduced to its current language, and its `t` enters as a parameter.
- The reloads that follow a successful language change in the provider are left out. The current language is already set when they run, so a throw there does not undo it.
- Translation helpers, `toLocaleString` / `toLocaleDateString`, `JSON.stringify` and zod's email check are foreign. They enter as function parameters or as a boolean (`emailAccepted`).
- Common.ToLower: maps only the ASCII letters A-Z. Unicode case mapping is not modelled. JavaScript also lower-cases some non-ASCII characters to ASCII letters: U+212A KELVIN SIGN becomes "k", so "BAN\u212A" is a bank type for the payment-method icon and colour (building, orange), while the model gives the card icon and gray. The connection labels contain no "k" and are not affected.
- PaymentMethodForm.SchemaAccepts: counts Dafny characters, not the UTF-16 code units zod counts.
- Amounts, costs and equivalents are integers. The floating-point arithmetic of JavaScript numbers, and a `NaN` amount, are not modelled.
- TeamForm.TeamFormState.HandleSubmit: takes the submitted name as a string. A form without a name field, where `formData.get` returns null, is not modelled.
- Asynchronous interleaving and React batching are not modelled. Each handler runs as one sequential step, or as two steps around its single await.
- JSX markup, CSS class strings (only the colour family is kept), animation delays, the one-second `setTimeout` before navigating, `router` internals, `console` logging and `localStorage` are not modelled. Navigation and storage appear as effects or as a field.
- The provider's `changeLanguage` catches every error itself and never rejects. The selector's `catch` branch is reached only when `localStorage.setItem` throws (storage full or disabled). That leaves the selector in the same state as `ChangeRejected`: nothing is saved and the flag is cleared, although the provider has already switched language. The storage failure is not a separate outcome, and the selector is modelled against any outcome.
- The connection's `cost` type is declared in `lib/types`, which is not part of this model. It is taken to be a number, and under that reading a cost of 0 renders a bare "0" (`InternetConnections.ConnectionCard`).
- The presentational wrappers, layouts, the debug form, the static fixtures and the configuration file hold no rule of their own and are not modelled.

## Findings

| source | as written | input that shows it | evidently intended | confidence | as-written member | corrected member |
|---|---|---|---|---|---|---|
| components/transactions/transactions-list.tsx:69 | `{transaction.equivalent && (<div>…</div>)}` renders the falsy number itself when the equivalent is 0 | a transaction with `equivalent: 0` shows a stray "0" in its item | show the equivalent block for a non-zero equivalent and nothing otherwise | medium, not executed | TransactionsList.EquivalentSlotAsWritten | TransactionsList.EquivalentSlotIntended |
