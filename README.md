# myfinances core, modelled in Dafny

The app is a personal-finance mobile client. Three pieces of logic sit inside its React
screens, and this project models them apart from rendering and storage I/O:

- **Dashboard ledger load** (`ledger.dfy`, module `Ledger`, for the records, the walk
  and the totals; `dashboard.dfy`, module `Dashboard`, for the screen). The screen reads the
  transaction list stored under the fixed key `@myfinances:transactions`. A missing entry
  counts as an empty list. It walks the list once: a record whose `type` is exactly
  `"positive"` adds its amount to the entries total, and every other record adds to the
  expenses total. Each record becomes a display row in which only the amount and the date
  are turned into text. The screen then publishes the rows, the three highlight amounts
  (entries, expenses, entries minus expenses) and `isLoading = false`.
  `SummarizeLedger` is the loop. It is proved against the specification functions
  `EntriesTotal` and `ExpensesTotal`. Lemmas relate those functions to reference
  definitions (filtered sums, the sum of all amounts) and show they ignore record order.
  `DashboardScreen` holds the screen state.
- **Register form** (`register.dfy`, module `Register`). `RegisterScreen` holds
  `transactionType`, `categoryModalOpen` and `category`, with the handlers that set them.
  Submission checks the type first, then the placeholder category. If both checks pass,
  it builds the record. It changes no state.
- **Session provider** (`auth.dfy`, module `Auth`). `AuthProvider` holds `user`,
  `userStorageLoading` and the storage slot `@myfinances:user`. The operations are restore,
  Google sign-in and Apple sign-in. Each awaited foreign call is an input `Attempt<T>`:
  either the value it produced or the text it threw. The Google profile endpoint is a
  function of the access token. Both sign-ins write the user held *before* the call
  (lines 79 and 102 stringify the captured `user`, not the one just set); the model keeps
  that behaviour and the finding below shows its effect.

`outcomes.dfy` (module `Outcomes`) holds the shared `Option`, `Unit` and `Attempt` types.

Amounts are exact integers (cents). The locale formatters
(`toLocaleString('pt-BR', …)`, `Intl.DateTimeFormat`) are parameters of the load:
`formatCurrency: int -> string` and `formatDate: string -> Option<string>`, where `None`
stands for the RangeError thrown on a date that does not parse. The same
`formatCurrency` formats the rows and the highlight cards, as in the source.

The code reads the ledger under one fixed key for every user, skips no malformed record,
has no sign-out, and its "last transaction" texts are fixed strings in the markup. A failed
storage write after a successful sign-in leaves the new user in memory and rethrows.
A stored date that the date formatter cannot parse throws a RangeError out of the load,
so the screen keeps its previous list, cards and loading flag.

## Model

| member | source | states |
|---|---|---|
| `Ledger.SummarizeLedger` | src/screens/Dashboard/index.tsx:56-87 | the walk completes exactly when every stored date formats; then there is one display row per record, same order, each keeping id, name, type and category and formatting amount and date, and the two accumulators end equal to the entries total and the expenses total |
| `Dashboard.DashboardScreen.constructor` | src/screens/Dashboard/index.tsx:44-46 | a new screen is loading, with no rows and no highlight data |
| `Dashboard.DashboardScreen.LoadTransactions` | src/screens/Dashboard/index.tsx:50-106 | when every stored date formats, the screen afterwards shows the stored ledger: loading is false, rows match the records, cards show entries, expenses and entries minus expenses; the new state is a function of the storage alone, so totals never carry over from an earlier load and loading again from the same storage changes nothing; nothing stored gives no rows and three zero amounts; a date that does not format leaves the whole state (list, cards, loading flag) unchanged |
| `Ledger.AppendTotals` | src/screens/Dashboard/index.tsx:56-65 | the totals of two lists joined are the sums of their totals |
| `Ledger.TotalsAreFilteredSums` | src/screens/Dashboard/index.tsx:61-65 | the entries total is the sum of the records typed exactly "positive"; the expenses total is the sum of all other records |
| `Ledger.FiltersPartition` | src/screens/Dashboard/index.tsx:61-65 | every record falls in exactly one of the two groups (as multisets, entries plus expenses is the whole list) and each group holds only its own kind |
| `Ledger.TotalsCoverEveryAmount` | src/screens/Dashboard/index.tsx:59-65 | entries total plus expenses total is the sum of every amount: each is counted once |
| `Ledger.TotalsIgnoreOrder` | src/screens/Dashboard/index.tsx:59-89 | two lists with the same records in any order give the same entries and expenses totals, hence the same net |
| `Ledger.RegisterTypesCountAsExpenses` | src/screens/Dashboard/index.tsx:61-65 | records typed "up" or "down" (the Register screen's values) never count as entries: the entries total is zero and everything is an expense |
| `Register.RegisterScreen.constructor` | src/screens/Register/index.tsx:18-24 | a fresh screen has no type, a closed modal and the placeholder category `category`/`Categoria` |
| `Register.RegisterScreen.HandleTransactionsTypeSelect` | src/screens/Register/index.tsx:28-30 | the type becomes exactly "up" or "down", matching the button; category and modal are unchanged |
| `Register.RegisterScreen.HandleCloseSelectCategoryModal` | src/screens/Register/index.tsx:32-34 | the modal is closed whatever it was, other fields unchanged |
| `Register.RegisterScreen.HandleOpenSelectCategoryModal` | src/screens/Register/index.tsx:36-38 | the modal is open whatever it was, other fields unchanged |
| `Register.RegisterScreen.SetCategory` | src/screens/Register/index.tsx:21-24 | the category the picker hands back replaces the current one; nothing else changes |
| `Register.RegisterScreen.HandleSubmitRegister` | src/screens/Register/index.tsx:40-56 | a record is produced exactly when a type is chosen and the category is not the placeholder; no type gives the type alert whatever the category; a type with the placeholder gives the category alert; the record carries form name and amount, the type and the category key |
| `Register.SubmitOnFreshScreen` | src/screens/Register/index.tsx:18-43 | a submission on a fresh screen gets the type alert for every form |
| `Register.SubmitWithoutCategory` | src/screens/Register/index.tsx:28-47 | choosing a type (and opening and closing the picker) without a category gets the category alert |
| `Register.SubmitWithoutType` | src/screens/Register/index.tsx:40-43 | choosing a category but no type still gets the type alert: the type is checked first |
| `Register.SubmitComplete` | src/screens/Register/index.tsx:28-54 | type plus a real category gives the record of form name, form amount, "up"/"down" and the category key |
| `Auth.AuthProvider.constructor` | src/hooks/auth.tsx:35-39 | a new provider has the empty user and is loading the persisted user |
| `Auth.AuthProvider.LoadUserStorageData` | src/hooks/auth.tsx:42-51 | the user becomes the persisted one when the key is present and is unchanged otherwise; loading ends false either way; storage is untouched |
| `Auth.AuthProvider.CommitSignIn` | src/hooks/auth.tsx:73-79 | the user becomes the new identity; a successful write stores the user held before the call under the fixed key, leaving other keys alone; a failed write leaves storage alone and is rethrown |
| `Auth.AuthProvider.CommitSignInPersistingNewUser` | src/hooks/auth.tsx:73-79 | corrected tail: a successful write stores the new identity under the fixed key |
| `Auth.AuthProvider.SignInWithGoogle` | src/hooks/auth.tsx:56-84 | a thrown redirect or profile fetch is rethrown with nothing changed; a result type other than "success" changes nothing; on success the user is {id, email, given_name as name, picture as photo} and storage gets the previous user; the user changes only on a "success" result |
| `Auth.AuthProvider.SignInWithApple` | src/hooks/auth.tsx:86-108 | a thrown prompt is rethrown and a null credential changes nothing; a null full name throws before the user is set; otherwise the user is {credential.user, full name's given name, email, no photo} and storage gets the previous user |
| `Auth.RelaunchAfterGoogleSignIn` | src/hooks/auth.tsx:42-79 | first Google sign-in on an empty device, then relaunch: the session held the new identity but the restore finds the empty user |
| `Auth.SecondSignInPersistsFirst` | src/hooks/auth.tsx:73-102 | a Google sign-in followed by an Apple sign-in leaves the Google identity persisted |
| `Auth.RelaunchAfterPersistingNewUser` | src/hooks/auth.tsx:42-79 | with the corrected tail, a relaunch restores exactly the identity that signed in, whatever was stored before |

## Left out

- Rendering: all markup in the three files, `App.tsx`, `HighlightCard` and `Button`. The "last transaction" texts are fixed strings in the markup, and the logout button does nothing.
- Locale formatting (`toLocaleString`, `Intl.DateTimeFormat`, `new Date`) is replaced by the two formatter parameters; the model says which value each one formats and when the date formatter throws, not what text it produces. A record with no `date` field at all (an invalid date in the source) is not representable; the model's stored date is always text, which the date formatter may reject.
- `Ledger.SummarizeLedger`: amounts are exact integers. It does not model `Number(...)` coercion of a stored text amount or IEEE floating-point addition.
- `JSON.parse` and `JSON.stringify`: storage holds already-decoded values. A stored empty string is falsy in the source and reads like a missing entry. A blob that is not a list would make `.map` throw. Neither case is modelled.
- Storage reads that reject: `AsyncStorage.getItem` failing in either load is not modelled. In the restore, such a failure leaves `userStorageLoading` true.
- Effect scheduling (`useEffect`, `useFocusEffect`), overlapping loads and React's deferred state updates are not modelled. A `setUser` takes effect at once in the model. The stale value the handlers persist is modelled explicitly.
- The OAuth URL assembly and the environment variables `CLIENT_ID`/`REDIRECT_ID`. Each provider exchange is an input. An HTTP error from the profile endpoint is whatever profile the input supplies.
- `Auth.AuthProvider.SignInWithApple`: a null `email` or `givenName` passes the source's non-null assertions and stores null. The model's user fields are strings, so it does not capture that.
- The form library (`useForm`, `control`) and the category picker component. The picker is reduced to the setter it receives. `Alert.alert` and `console.log` become the returned `SubmitResult`.

## Findings

| source | as written | input that shows it | evidently intended | confidence | as-written member | corrected member |
|---|---|---|---|---|---|---|
| src/hooks/auth.tsx:79 (and :102) | after `setUser(new)` the handler writes `JSON.stringify(user)`, the user captured when the handler was created | a first Google sign-in on a device with nothing stored, then a relaunch: the restore reads `{}` and the user is empty again | persist the identity that just signed in, so a relaunch restores it | high; not executed | `Auth.RelaunchAfterGoogleSignIn` | `Auth.RelaunchAfterPersistingNewUser` |

The corrected tail is `Auth.AuthProvider.CommitSignInPersistingNewUser`. The sign-in methods
keep the as-written tail `CommitSignIn`, because that is what the program does. No other
part of the model reads the persisted user.
