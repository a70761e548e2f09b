# Epsilon trading simulator: a verified model of its core

Epsilon is a paper-trading web application. A registered user holds a cash
balance. The user buys and sells shares at quoted prices, deposits cash, and
follows the portfolio's value and return. This project models the parts of
the back end that decide what happens to the user's money and account:

- **The ledger engine** of the investment controller (`ledger.dfy`, module
  `Ledger`). It covers one user's cash balance, holdings and append-only
  BUY/SELL log, and the operations buy, sell, deposit and delete.
  - Each operation is a transition function on a `Book` value.
  - The class `Ledger.Account` carries out the same steps on its fields.
  - Each `Account` method is proved to move its fields exactly as the
    function moves the book.
  - The consistency invariant `BookValid` is proved to be preserved.
  - Cash is proved to be conserved across any sequence of requests.
- **Portfolio aggregation** (`portfolio.dfy`, module `Portfolio`): net
  investment, cash flow and portfolio details. The quote lookup is a partial
  price function, and the loops are methods proved against the sums they
  compute.
- **Stock search** of the finance service (`stock_search.dfy`, module
  `StockSearch`): the case-insensitive filter over the stock list and the
  alias table, the four-level relevance order, and truncation to 15 results.
  `searchStocks(q)` is `Search(Database, q)`.
- **The quote cache** of the finance service (`stock_cache.dfy`, module
  `StockCache`): the state `initializeStockData` creates, and
  `updateBasePrice`.
- **The `User` model** (`user_model.dfy`, module `UserModel`): column
  validators, the password-hashing hooks, `comparePassword`, and the `toJSON`
  filter.
- **Account rules** of the authentication controller (`auth.dfy`, module
  `Auth`): the validation chains of `register` and `changePassword`, login by
  normalised email, and the reset-token lifecycle. Each is a function on the
  `users` table. The class `Auth.UserStore` implements each one.
- **String primitives** (`text.dfy`, module `Text`): `toLowerCase`,
  `toUpperCase`, `trim`, `startsWith` and `includes`.
- `outcomes.dfy` (module `Outcomes`) holds the `Option` and `Result` types.

These parts are parameters rather than code:

- the quote service: a price argument for buy and sell, a partial function
  for the portfolio;
- bcrypt: an uninterpreted function `hash`;
- the email syntax check: an uninterpreted predicate `isEmail`;
- the reset token: an input string;
- the clock: an input `now` in milliseconds.

Money is exact: `real` in the model. The two-decimal rounding of the database
columns and of `toFixed(2)` is not modelled.

Where the code and its description differ, the model follows the code:

- A holding's average cost is the column `purchasePrice`, recomputed as
  `totalInvested / quantity` on every buy. It is left unchanged by a partial
  sale.
- The sale's `profitLoss` is computed from `totalInvested / quantity`. In a
  consistent book this equals `purchasePrice`.
- The existence check of `register` compares the email and username as
  given. Only the unique indexes see the normalised values, so a duplicate
  that differs in case or white space is caught later with the same answer.
- In stock search, `localeCompare` is replaced by code-unit order. Case
  mapping is ASCII only.

## Model

| member | source | states |
|---|---|---|
| Ledger.NetSpentAppend | src/controllers/investmentController.js:176-183 | appending a record changes BUY totals minus SELL totals by that record's signed amount |
| Ledger.HoldingFor | src/controllers/investmentController.js:138-142 | the lookup by symbol returns an id holding that symbol, or none when no holding has it |
| Ledger.HoldingForUnique | src/controllers/investmentController.js:138-142 | in a consistent book the holding with a given symbol is the one the lookup finds |
| Ledger.Buy | src/controllers/investmentController.js:104-200 | accepted iff the symbol is given, quantity > 0, price × quantity ≤ cash and the symbol fits the 10-character `symbol` column; a missing field gives InvalidOrder, a shortfall gives InsufficientFunds, a longer symbol gives StorageError (the insert fails and the transaction rolls back); on success the book stays consistent, cash drops by exactly price × quantity and exactly one BUY record with that total is appended |
| Ledger.UpsertKeepsHoldings | src/controllers/investmentController.js:144-164 | writing the upserted holding at its id keeps ids below the next id, every holding valid and symbols unique |
| Ledger.UpsertValid | src/controllers/investmentController.js:144-164 | the holding a buy leaves has shares, a positive average cost and totalInvested = quantity × average cost, under the upper-cased symbol |
| Ledger.BuyKeepsValid | src/controllers/investmentController.js:138-183 | a buy that passes its checks keeps the book consistent |
| Ledger.BoughtExistingValid | src/controllers/investmentController.js:144-152 | buying more of a held symbol keeps the book consistent |
| Ledger.BoughtNewValid | src/controllers/investmentController.js:153-164 | buying a symbol not yet held keeps the book consistent |
| Ledger.LogAppendValid | src/controllers/investmentController.js:176-183 | appending a record of positive quantity and price with total = price × quantity keeps every log record valid |
| Ledger.Sell | src/controllers/investmentController.js:205-311 | accepted iff quantity > 0, the holding exists and quantity ≤ its shares; otherwise InvalidOrder, InvestmentNotFound or InsufficientShares in that order; on success the book stays consistent, cash rises by exactly price × quantity (the reported new balance), and exactly one SELL record is appended |
| Ledger.SellKeepsValid | src/controllers/investmentController.js:259-289 | a sale that passes its checks keeps the book consistent |
| Ledger.ReducedValid | src/controllers/investmentController.js:262-272 | the holding a partial sale leaves keeps its symbol and a consistent cost basis |
| Ledger.ReplaceKeepsHoldings | src/controllers/investmentController.js:268-272 | replacing a holding in place by a valid one with the same symbol keeps the holdings consistent |
| Ledger.Deposit | src/controllers/investmentController.js:376-419 | accepted iff amount > 0, otherwise InvalidAmount; on success only the cash changes, by exactly the amount, and consistency is kept |
| Ledger.Delete | src/controllers/investmentController.js:314-343 | accepted iff the holding exists, otherwise InvestmentNotFound; removes exactly that holding, leaves the others, the cash and the log alone, and keeps consistency |
| Ledger.History | src/controllers/investmentController.js:422-430 | the min(50, n) most recent records, newest first |
| Ledger.NewestFirst | src/controllers/investmentController.js:426-429 | the last n records of the log in reverse order |
| Ledger.BuyUpsertsHolding | src/controllers/investmentController.js:138-167 | after a buy the upper-cased symbol has exactly one holding: the old one with quantity + q, totalInvested + cost and average = total / quantity, or a new one at the quoted price with totalInvested = cost; no other holding changes |
| Ledger.BuyWeightedAverage | src/controllers/investmentController.js:143-150 | the new average cost is the quantity-weighted mean of the old average and the quote |
| Ledger.UpsertWeightedAverage | src/controllers/investmentController.js:146-148 | adding q shares at the quote to a consistent holding gives the average (old quantity × old average + q × quote) / (old quantity + q) |
| Ledger.SellAdjustsHolding | src/controllers/investmentController.js:259-273 | a full sale deletes the holding; a partial sale sets quantity to old − q, scales totalInvested by 1 − q/old, leaves purchasePrice and totalInvested/quantity unchanged; other holdings stay |
| Ledger.SoldAdjusts | src/controllers/investmentController.js:259-273 | the same adjustment stated on the book a sale leaves, for any holding whose shares cover the sale |
| Ledger.ReducedKeepsAverage | src/controllers/investmentController.js:264-272 | a partial sale keeps the average cost per share |
| Ledger.SellReportsProfit | src/controllers/investmentController.js:245-257 | saleAmount = price × q and profitLoss = saleAmount − average cost × q, computed before the holding changes |
| Ledger.Apply | src/controllers/investmentController.js:104-419 | every request, accepted or rejected, leaves a consistent book of the same user |
| Ledger.Run | src/controllers/investmentController.js:104-419 | any sequence of requests leaves a consistent book |
| Ledger.ApplyConservesCash | src/controllers/investmentController.js:170-183 | one request grows the log and moves cash by the accepted deposit minus the net amount it logged |
| Ledger.RunConservesCash | src/controllers/investmentController.js:170-183 | over any request sequence: starting cash + deposits − current cash = BUY totals − SELL totals added, and the log only grows |
| Ledger.OpeningConservesCash | src/controllers/investmentController.js:276-289 | from an empty book: initial cash + deposits − current cash = all BUY totals − all SELL totals |
| Text.ParseIntOfNumber | src/controllers/investmentController.js:146 | `parseInt` of a positive number: its integer part when JavaScript prints it in decimal notation; otherwise a single digit 1–9, which is more than the number below 1e-6 and less than it from 1e21 on |
| Ledger.ParseInt | src/controllers/investmentController.js:146 | `parseInt(quantity)`: a JSON number printed in decimal notation reads as its integer part, a numeric string as the integer at the head of its text |
| Ledger.BuyAsWritten | src/controllers/investmentController.js:111-183 | the code as written on the quantity as the request carries it, a JSON number or a numeric string: accepted iff the symbol is given, the value is > 0, the cost is covered and the symbol fits the column, with the same errors as `Buy`; debits price × value but logs `parseInt(quantity)` shares |
| Ledger.AsWrittenAgreesOnWhole | src/controllers/investmentController.js:111-183 | whenever `parseInt` reads the quantity as its own value, the code as written is exactly `Buy` on that value |
| Ledger.BoughtAsWrittenAgrees | src/controllers/investmentController.js:144-183 | when the shares credited are the shares charged for, the writes as written give the book `Bought` gives |
| Ledger.JsonWholeNumberAgrees | src/controllers/investmentController.js:111-183 | on a whole JSON number below 1e21 the code as written is exactly `Buy` |
| Ledger.FractionalBuyCreditsNoShares | src/controllers/investmentController.js:111-166 | 0.5 shares at 10.00 from 100.00: accepted, cash 95.00, a holding of 0 shares, a BUY record of 0 shares for 5.00, and an inconsistent book |
| Ledger.TinyBuyCreditsFiveShares | src/controllers/investmentController.js:111-183 | 0.0000005 shares at 10.00, printed "5e-7": accepted, cash drops by 0.000005, and the new holding and the BUY record get 5 shares; the book is inconsistent |
| Ledger.ExponentStringBuyCreditsOneShare | src/controllers/investmentController.js:111-183 | the form field "1e3" at 10.00 from 100000.00: cash drops by 10000.00 for 1000 shares, but the holding and the BUY record get 1 share |
| Ledger.BuyWhole | src/controllers/investmentController.js:111-117 | the corrected guard rejects a quantity whose value is not whole and buys the value itself, not what `parseInt` reads; an accepted buy keeps the book consistent and every share paid for is logged |
| Ledger.SellAsWritten | src/controllers/investmentController.js:213-289 | the sale on a quantity that is a JSON number or a numeric string: accepted iff its value is > 0 and at most the shares held, with the same error order as `Sell`; credits price × value and records value shares; destroys the holding only when the quantity is a number equal to the shares held, otherwise writes back held − value shares |
| Ledger.SellAsWrittenAgreesOnWhole | src/controllers/investmentController.js:213-289 | on whole JSON numbers the as-written sale gives the same error, balance, recorded shares, deletion and remaining holding as `Sell` |
| Ledger.FractionalSellLeavesFractionalShares | src/controllers/investmentController.js:213-276 | selling 0.5 of 2 shares at 12.00 is accepted, credits 6.00, leaves 1.5 shares and records 0.5 shares |
| Ledger.StringFullSaleKeepsEmptyHolding | src/controllers/investmentController.js:259-272 | selling "2" of 2 shares is accepted and credits 24.00, but keeps the holding with 0 shares and 0 invested |
| Ledger.SellWhole | src/controllers/investmentController.js:213-219 | the corrected guard rejects a non-whole quantity and sells a numeric string as its number; an accepted sale keeps the book consistent, credits price × quantity and logs the whole share count |
| Ledger.SellWholeClosesPosition | src/controllers/investmentController.js:259-261 | under the corrected sale, selling every share removes the holding, whether the quantity came as a number or a string |
| Ledger.Account.constructor | src/models/User.js:51-59 | a new account is the empty consistent book with the given non-negative balance |
| Ledger.Account.FindBySymbol | src/controllers/investmentController.js:138-142 | the scan over the holdings returns what the symbol lookup specifies |
| Ledger.Account.CreateInvestment | src/controllers/investmentController.js:104-200 | the fields move exactly as `Buy` moves the book; a rejected buy, including one whose symbol is too wide for the column, changes nothing; the remaining cash is returned |
| Ledger.Account.Credit | src/controllers/investmentController.js:144-183 | the writes of an accepted buy move the fields exactly as `Bought` moves the book |
| Ledger.Account.SellInvestment | src/controllers/investmentController.js:205-311 | the fields move exactly as `Sell` moves the book; a rejected sale changes nothing; the sale report is returned |
| Ledger.Account.AddCash | src/controllers/investmentController.js:376-419 | the fields move exactly as `Deposit` moves the book; a rejected deposit changes nothing |
| Ledger.Account.DeleteInvestment | src/controllers/investmentController.js:314-343 | the fields move exactly as `Delete` moves the book; a rejected delete changes nothing |
| Portfolio.SumInvestedAppend | src/controllers/portfolioController.js:13-15 | the sum over a concatenation is the sum of the sums |
| Portfolio.SumInvestedRemove | src/controllers/portfolioController.js:13-15 | removing one row takes exactly its totalInvested off the sum |
| Portfolio.SumInvestedPermutation | src/controllers/portfolioController.js:9-15 | the net investment does not depend on the order of the rows |
| Portfolio.SumInvestedPositive | src/controllers/portfolioController.js:13-21 | with positive cost bases the net investment is non-negative, and positive iff there is a holding |
| Portfolio.FallbackPrice | src/controllers/portfolioController.js:51-53 | a failed quote values a holding at its stored currentPrice (a DECIMAL string, truthy even when "0.00"), and at purchasePrice only when currentPrice is null |
| Portfolio.ValueAtCost | src/controllers/portfolioController.js:45-54 | with every quote failing and no stored current price, consistent holdings are valued at exactly their cost |
| Portfolio.CashFlow | src/controllers/portfolioController.js:42-62 | inflow = current value of the holdings, outflow = net investment, net = inflow − outflow; all zero for no holdings |
| Portfolio.ReturnPercentage | src/controllers/portfolioController.js:104-105 | 0 when nothing is invested, otherwise r × invested = return × 100, with the sign of the return |
| Portfolio.Refreshed | src/controllers/portfolioController.js:92-98 | each row is refreshed in place, same length and order |
| Portfolio.RefreshedKeepsInvested | src/controllers/portfolioController.js:96-98 | writing back quotes leaves the net investment unchanged |
| Portfolio.RefreshedValuation | src/controllers/portfolioController.js:93-101 | with positive quotes, a later request whose quotes all fail values the refreshed rows as this request valued them |
| Portfolio.PortfolioDetails | src/controllers/portfolioController.js:86-113 | each quoted holding's currentPrice becomes the quote and the others are untouched; totals, return and percentage as specified |
| StockSearch.AlternativeNames | src/services/financeAPI.js:410-456 | a symbol outside the table has no alternative names; a listed one has its non-empty list |
| StockSearch.Filter | src/services/financeAPI.js:364-376 | an entry is kept iff it is in the list and the query occurs in its symbol, name or an alternative name; a sub-multiset of the list |
| StockSearch.Rank | src/services/financeAPI.js:383-396 | level 0 iff exact symbol match, ≤ 2 iff symbol prefix, odd iff name prefix among the rest |
| StockSearch.BeforeIrreflexive | src/services/financeAPI.js:379-400 | no entry precedes itself |
| StockSearch.BeforeAsymmetric | src/services/financeAPI.js:379-400 | the order is asymmetric |
| StockSearch.NotBeforeTransitive | src/services/financeAPI.js:379-400 | "not after" is transitive |
| StockSearch.BeforeTotal | src/services/financeAPI.js:379-400 | of two entries with different symbols one comes first |
| StockSearch.CompareAgrees | src/services/financeAPI.js:379-400 | the comparator returns < 0 exactly when the first entry precedes and > 0 exactly when the second does |
| StockSearch.Insert | src/services/financeAPI.js:379-400 | inserting into a sorted list keeps it sorted and adds exactly that entry |
| StockSearch.InsertLater | src/services/financeAPI.js:379-400 | inserting after the head keeps the list sorted and a permutation |
| StockSearch.HeadPrecedes | src/services/financeAPI.js:379-400 | nothing in the rest of a sorted list precedes its head |
| StockSearch.InsertFirst | src/services/financeAPI.js:379-400 | an entry not after the head may go first |
| StockSearch.Sort | src/services/financeAPI.js:379-400 | a sorted permutation of its input |
| StockSearch.SortedUnique | src/services/financeAPI.js:379-400 | when symbols identify entries, two sorted permutations are equal, so any correct sort gives the same order |
| StockSearch.SameTails | src/services/financeAPI.js:379-400 | dropping an equal head from two permutations leaves permutations |
| StockSearch.SortedTail | src/services/financeAPI.js:379-400 | the tail of a sorted list is sorted |
| StockSearch.SortedSameHead | src/services/financeAPI.js:379-400 | two sorted permutations of entries with distinct symbols start with the same entry |
| StockSearch.Take | src/services/financeAPI.js:402 | the first 15 entries, or all of them when there are fewer |
| StockSearch.Search | src/services/financeAPI.js:265-407 | at most 15 results, each from the list and matching the query, sorted by relevance; a matching entry is left out only when 15 results that do not come after it are returned |
| StockSearch.SearchKeeps | src/services/financeAPI.js:379-402 | sorting and truncating keeps only filtered entries |
| StockSearch.SearchRanks | src/services/financeAPI.js:379-402 | the truncated result is sorted and no dropped match ranks ahead of a kept one |
| StockSearch.ExactMatches | src/services/financeAPI.js:364-384 | an exact symbol match passes the filter at level 0 |
| StockSearch.SearchExactFirst | src/services/financeAPI.js:383-384 | when some entry's symbol equals the query, the first result is such an entry |
| StockSearch.SearchComplete | src/services/financeAPI.js:364-402 | with at most 15 matches, every match is returned exactly once |
| StockSearch.SearchDeterminate | src/services/financeAPI.js:379-402 | with distinct symbols the result does not depend on the sorting algorithm |
| StockCache.Initial | src/services/financeAPI.js:119-133 | an initial entry has price = basePrice, change = 0, changePercent = 0 and the seed's name and volatility |
| StockCache.BasePriceUpdated | src/services/financeAPI.js:486-492 | only the basePrice of an existing entry changes; an unknown symbol leaves the cache as it was |
| StockCache.BasePriceUpdatedTwice | src/services/financeAPI.js:486-492 | only the last of two updates of a symbol is visible |
| StockCache.BasePriceUpdatesCommute | src/services/financeAPI.js:486-492 | updates of different symbols commute |
| StockCache.BasePriceUpdateKeepsQuote | src/services/financeAPI.js:486-492 | a base-price update leaves every price, change and percentage as it was |
| StockCache.FinanceApi.constructor | src/services/financeAPI.js:4-14 | the cache holds exactly the seed symbols, each at its base price with no change |
| StockCache.FinanceApi.InitializeStockData | src/services/financeAPI.js:16-134 | every seed symbol is written at its base price; other entries stay |
| StockCache.FinanceApi.Load | src/services/financeAPI.js:119-133 | the loop writes the initial entry of every row of the table and leaves other entries alone |
| StockCache.FinanceApi.UpdateBasePrice | src/services/financeAPI.js:486-492 | the cache after the call is the specified base-price update of the one before |
| Text.LowerChar | src/services/financeAPI.js:365 | the result is not upper case; an upper-case letter maps to its lower-case form, anything else to itself |
| Text.UpperChar | src/controllers/investmentController.js:120 | the result is not lower case; a lower-case letter maps to its upper-case form, anything else to itself |
| Text.ToLower | src/services/financeAPI.js:365-367 | same length, every character lower-cased |
| Text.ToUpper | src/controllers/investmentController.js:120 | same length, every character upper-cased |
| Text.LowerIdempotent | src/controllers/authController.js:66 | lower-casing twice is lower-casing once |
| Text.UpperIdempotent | src/controllers/investmentController.js:139 | upper-casing twice is upper-casing once |
| Text.SkipSpace | src/controllers/authController.js:65-66 | the first non-space position from i; everything skipped is white space |
| Text.SkipSpaceBack | src/controllers/authController.js:65-66 | the end once trailing white space is dropped; everything dropped is white space |
| Text.Trim | src/controllers/authController.js:65-66 | a slice of the input with only white space cut off either side and no white space at its ends |
| Text.TrimFixed | src/controllers/authController.js:127 | a text with no white space at its ends is its own trim |
| Text.TrimIdempotent | src/controllers/authController.js:127 | trimming twice is trimming once |
| Text.IncludesIff | src/services/financeAPI.js:366-372 | `includes` holds iff the text occurs at some position |
| Text.LexLessIrreflexive | src/services/financeAPI.js:399 | no symbol sorts before itself |
| Text.LexLessTransitive | src/services/financeAPI.js:399 | the symbol order is transitive |
| Text.LexLessTotal | src/services/financeAPI.js:399 | of two different symbols one sorts first |
| UserModel.NotEmptyIff | src/models/User.js:17 | `notEmpty` holds iff some character is not white space |
| UserModel.BlankFailsNotEmpty | src/models/User.js:11-36 | a white-space-only username or password fails validation |
| UserModel.HashOnCreate | src/models/User.js:76-80 | a non-empty password is stored as its hash |
| UserModel.HashOnUpdate | src/models/User.js:81-85 | the password is re-hashed iff it changed |
| UserModel.CreatedPasswordCompares | src/models/User.js:76-96 | a password set on create is accepted by `comparePassword` |
| UserModel.UpdatedPasswordCompares | src/models/User.js:81-96 | a changed password is accepted by `comparePassword` |
| UserModel.OnlySetPasswordCompares | src/models/User.js:90-96 | with an injective hash only the password that was set is accepted (bcrypt itself is not injective, see Left out) |
| UserModel.ToJSON | src/models/User.js:98-104 | password, reset token and expiry are dropped; every other column is kept with its value |
| UserModel.ToJSONIgnoresSecrets | src/models/User.js:98-104 | the serialised user does not depend on the password or the reset token |
| Auth.NormalizeEmail | src/controllers/authController.js:66 | the stored email has no upper-case letter and no white space at its ends |
| Auth.TrimKeepsLower | src/controllers/authController.js:66 | trimming a lower-case text keeps it lower case |
| Auth.NormalEmailFixed | src/controllers/authController.js:127 | an email in normal form normalises to itself, so login finds a stored email as given |
| Auth.NormalizeEmailIdempotent | src/controllers/authController.js:66 | normalising twice is normalising once |
| Auth.FindOne | src/controllers/authController.js:30-37 | the first row the where clause selects, or none when no row is selected |
| Auth.FindFrom | src/controllers/authController.js:30-37 | the first selected row at or after k, or none |
| Auth.SameIdentityValid | src/controllers/authController.js:148 | updates of password, token, expiry or last login keep the table invariant |
| Auth.SignUp | src/controllers/authController.js:17-111 | missing fields are rejected first, then in order: a row matching the raw email or username gives UserExists, a password under 6 gives PasswordTooShort, a negative balance NegativeBalance, a failed validator InvalidData, a clash of the stored values UserExists; an accepted registration passed the raw existence check, a password of at least 6 and a non-negative balance, and appends one row with the next id, trimmed username, normalised email, hashed password, and last login now |
| Auth.SignUpAccepts | src/controllers/authController.js:17-111 | when every check passes, the table grows by exactly the inserted row |
| Auth.SignUpOutcome | src/controllers/authController.js:22-71 | an accepted registration passed every check of the chain |
| Auth.SignUpRejectsExponentBalance | src/models/User.js:51-58 | a balance of 0.0000001 passes the controller's non-negative check, but `isDecimal` refuses its printed form "1e-7", so registration gives InvalidData |
| Auth.AppendKeepsValid | src/controllers/authController.js:64-71 | appending a valid row with fresh id, username and email keeps the table invariant |
| Auth.InsertedKeepsValid | src/controllers/authController.js:64-77 | inserting the candidate row keeps the table invariant |
| Auth.SignUpKeepsValid | src/controllers/authController.js:17-111 | registration keeps the table invariant (unique usernames and emails, normalised emails, valid columns) |
| Auth.SignIn | src/controllers/authController.js:114-166 | missing fields are rejected; success finds a row by normalised email whose password compares, and sets only its last login; otherwise InvalidCredentials |
| Auth.SignUpThenSignIn | src/controllers/authController.js:64-148 | a user who just registered can log in with the same email and password |
| Auth.FindsFirstEmail | src/controllers/authController.js:127 | the first row with an email is the one `findOne` returns |
| Auth.FindsStoredEmail | src/controllers/authController.js:127 | looking up a stored email finds its row |
| Auth.StoredEmailSignsIn | src/controllers/authController.js:127-148 | any stored user logs in with its stored email and a matching password |
| Auth.PasswordChange | src/controllers/authController.js:260-317 | missing fields, then mismatch, rejected first; then a new password under 6 gives PasswordTooShort, an unknown user UserNotFound, a current password that does not compare WrongCurrentPassword, a changed password failing the validators ServerError, and otherwise the result is Ok with the password set by the update hook; success needs a new password of at least 6 and a matching current one, and changes only that user's password to one the new password compares with |
| Auth.ResetRequest | src/controllers/authController.js:320-366 | a missing email is rejected and a given one always gets a success answer; an unknown email changes nothing; a known one gets the token with expiry now + 3600000 |
| Auth.TokenCheck | src/controllers/authController.js:369-403 | succeeds iff some row holds the token unexpired, returning its email; otherwise InvalidToken |
| Auth.PasswordReset | src/controllers/authController.js:406-466 | missing fields, then PasswordMismatch, then PasswordTooShort for a new password under 6; with a row holding the token unexpired, a changed password failing the validators gives ServerError and otherwise the result is Ok with that row's password set by the update hook and its token and expiry cleared; success sets a row holding the token unexpired to the new password and clears token and expiry; with valid fields and no such row, InvalidToken |
| Auth.ResetWithinLifetime | src/controllers/authController.js:342-452 | a freshly issued token resets the password strictly before an hour has passed and is refused from then on |
| Auth.ResetTokenSingleUse | src/controllers/authController.js:431-452 | after a reset the token is held by no row and fails verification and a second reset |
| Auth.UserStore.constructor | src/models/User.js:5-10 | an empty, valid table |
| Auth.UserStore.Register | src/controllers/authController.js:17-111 | the fields move exactly as `SignUp` moves the table, keeping the invariant; a rejection changes nothing |
| Auth.UserStore.Login | src/controllers/authController.js:114-166 | the fields move exactly as `SignIn` moves the table; a rejection changes nothing |
| Auth.UserStore.ChangePassword | src/controllers/authController.js:260-317 | the fields move exactly as `PasswordChange` moves the table; a rejection changes nothing |
| Auth.UserStore.RequestPasswordReset | src/controllers/authController.js:320-366 | the fields move exactly as `ResetRequest` moves the table |
| Auth.UserStore.VerifyResetToken | src/controllers/authController.js:369-403 | returns what `TokenCheck` specifies for the current table |
| Auth.UserStore.ResetPassword | src/controllers/authController.js:406-466 | the fields move exactly as `PasswordReset` moves the table; a rejection changes nothing |

## Findings

| source | as written | input that shows it | evidently intended | confidence | as-written member | corrected member |
|---|---|---|---|---|---|---|
| src/controllers/investmentController.js:111 | the guard `!symbol \|\| !quantity \|\| quantity <= 0` admits any positive quantity; the cost and the debit use its value, while the holding and the BUY record get `parseInt(quantity)` shares, read from the head of the quantity's printed form | quantity 0.5 at price 10.00 with 100.00 in cash: cash becomes 95.00, the holding gets 0 shares, the record reads 0 shares for 5.00. The number 0.0000005 prints as "5e-7": 5 shares are credited for 0.000005. The form field "1e3": 10000.00 is charged and 1 share credited | only whole positive quantities are accepted and the share count is the quantity's value, so every share paid for is credited and logged | not executed | Ledger.BuyAsWritten, Ledger.FractionalBuyCreditsNoShares, Ledger.TinyBuyCreditsFiveShares, Ledger.ExponentStringBuyCreditsOneShare | Ledger.BuyWhole |
| src/controllers/investmentController.js:213 | the guard `!quantity \|\| quantity <= 0` admits a fractional quantity, which the sale subtracts from the holding and records as is | 0.5 of 2 shares at 12.00: 6.00 is credited, the holding is written back with 1.5 shares and the SELL record says 0.5 shares, in `INTEGER` columns | only whole positive quantities are sold | not executed | Ledger.SellAsWritten, Ledger.FractionalSellLeavesFractionalShares | Ledger.SellWhole |
| src/controllers/investmentController.js:259 | the full-sale test `quantity === investment.quantity` is strict, so a quantity that arrives as a numeric string from a form-encoded body (src/app.js:17) or a string field of a JSON body (src/app.js:16) never matches | "2" of 2 shares: 24.00 is credited, the holding is not destroyed but kept with 0 shares and 0 invested | selling every share closes the position whatever form the quantity has | not executed | Ledger.SellAsWritten, Ledger.StringFullSaleKeepsEmptyHolding | Ledger.SellWhole, Ledger.SellWholeClosesPosition |

## Left out

- Rounding: the two-decimal `toFixed(2)` and `DECIMAL(12, 2)` rounding and floating-point error are not modelled. Money is an exact `real`, and the `DECIMAL` column ranges are not enforced.
- Persistence: Sequelize transactions, row locks and commit/rollback are left out. Each operation is one atomic step, and a rejection has no effect. Concurrency is out of scope.
- A failed insert still consumes an auto-increment id in the database. The model's `nextId` moves only on success.
- HTTP: the routing, middleware and JSON response shapes are not modelled. Errors are the `LedgerError` and `AuthError` values.
- Quote network calls, the random price walk, `volume`, `marketCap` and cache freshness (`getStockPrice`, `simulateRealTimeMovement`, `generateStockData`, `getMarketData`) are I/O and randomness. Buy and sell take the quoted price as an input greater than 0, and the portfolio takes a partial price function.
- bcrypt, JWT signing and `crypto.randomBytes` are external libraries. Hashing is an uninterpreted function, no tokens are signed, and the reset token is an input.
- `isEmail` is an uninterpreted predicate.
- `parseFloat` parsing is an input: the initial balance arrives already parsed, and `None` stands for `NaN`.
- The `isDecimal` check on `cashBalance` is modelled on the exact value: a number is refused when JavaScript would print it in exponent form (below 1e-6 or from 1e21 on). Rounding to the nearest double before printing is not modelled.
- A quantity that is not a number (a string such as "abc") is out of scope. `Buy` takes an integer quantity. `BuyAsWritten` takes a JSON number or a numeric string. A numeric string is compared and multiplied as its number, but `parseInt` reads only the digits at its head ("1e3" reads as 1, "1.5e1" as 1). The model does not parse text: a numeric string comes with that integer as an input. A string that `parseInt` reads as `NaN`, such as ".5", is left out.
- Text.ParseIntOfNumber: the leading digit of the exponent form is taken from the exact value. JavaScript prints the shortest decimal that rounds to the same double, and that rounding is not modelled.
- StorageError stands only for a symbol too wide for its `STRING(10)` column (src/models/Investment.js:19, src/models/Transaction.js:19), assuming MySQL's strict mode. Other database failures, which the source also answers with a rollback and 500, are not modelled.
- Ledger.Sell: takes a whole number of shares. A fractional quantity or a numeric string is accepted by the source's guard and sold as `SellAsWritten` describes: a fraction is subtracted from the holding and recorded as is, and a numeric string equal to the shares held leaves a 0-share holding instead of destroying it (see Findings). `Sell` is the corrected behaviour on whole quantities, and `SellWhole` extends it to both forms.
- Ledger.Account.SellInvestment: takes a whole number of shares, like `Sell`, for the same reason.
- Ledger.SellAsWritten: what MySQL then stores for a fractional share count in the `INTEGER` columns (it rounds) is not modelled. The value reports what the code writes.
- Auth.SignUp, Auth.PasswordChange, Auth.PasswordReset: the model counts a password's length in characters (Unicode scalar values), while JavaScript's `length` counts UTF-16 code units. A password of 3 characters outside the Basic Multilingual Plane, such as 3 emoji, passes the source's check of 6 but fails the model's.
- UserModel.OnlySetPasswordCompares: assumes an injective hash. bcrypt reads only the first 72 bytes of its input, so two passwords that share those bytes both compare.
- Case mapping covers ASCII letters only, and `localeCompare` is code-unit order.
- MySQL's case-insensitive collation is not modelled. Email and username uniqueness are exact string comparisons.
- `createdAt`, `updatedAt`, `purchaseDate` and `transactionDate` are not stored. The log is in insertion order, and `History` takes that order as the timestamp order.
- `getAllInvestments`, `getInvestmentById`, `getCashBalance`, `getProfile`, `refreshToken`, `logout` and `verify` are read-only lookups or token plumbing, so they are not modelled.
- `getAllCachedStocks` is a read-only lookup and is not modelled.
- StockSearch.SearchDeterminate: the lemma assumes the list has distinct symbols. It is not proved for the 67-entry `Database` constant, because unfolding the list literal is too costly for the solver.
- StockSearch.AlternativeNames: a symbol that names an `Object.prototype` member (such as "constructor") would make the source return a function. The model returns the empty list.
