# Contractor Pro data layer, in Dafny

A model of the local data layer of Contractor Pro, a job-management app for a
contracting business, and of the screen-side rules that feed it:

- **Entity shapes** (`types.dfy`, module `Types`): `Client`, `LineItem`,
  `Estimate` with its four-valued `EstimateStatus`, and `Photo` with its
  optional `PhotoType`. Each add operation takes a `...Fields` record, which is
  the entity without its id and timestamps. `Stamp` builds the stored record
  from it, and `Fields` projects the record back.
- **Persistence adapter** (`storage.dfy`, module `Storage`): the seven
  `StorageKey`s. `LoadItem` is the best-effort read over a snapshot of the
  device store: it falls back when the read is rejected, when the key is absent,
  when the text is empty or when parsing fails. `DeviceStore.SaveItem` overwrites one key. JSON is a
  `Codec` parameter: a serialiser, plus a parser that returns `None` where
  `JSON.parse` throws.
- **Repository** (`repository.dfy`, module `Repository`): the `DataProvider`
  class.
  - It holds the three collections in `seq` fields, plus the store and one
    codec per collection.
  - `Load` is load-on-mount, followed by the write-back that the state change
    triggers.
  - `AddClient` and `AddEstimate` append; `AddPhoto` prepends.
  - Each add rewrites only its own key. `Persisted` is the invariant that the
    store holds each collection's serialisation.
  - `UseData` is the provider guard.
- **Ids** (`ids.dfy`, module `Ids`): `` `${Date.now()}` `` is the decimal
  rendering of a millisecond reading. It is proved injective, so two records
  share an id exactly when they were created in the same millisecond.
- **Estimate screen** (`estimates.dfy`, module `Estimates`): the subtotal, the
  8% tax and the total. `NewLineItem` holds the line-item acceptance rules,
  `WithoutId` is removal by id, and `CanSave` is the save gate. The class
  `EstimateDraft` holds the draft state the handlers mutate.
- **Client screen** (`clients.dfy`, module `Clients`): the case-insensitive
  name filter and the `ClientForm` Save handler.
- **Helpers**: `text.dfy` (JavaScript `trim`, ASCII `toLowerCase`, `includes`)
  and `sequences.dfy` (subsequences).

The app has two UI variants: `app/*.tsx` and `src/screens/*.tsx`. Their
estimate and client logic is identical line for line, so one model serves both.
The table cites each variant for different members.

The clock is an input. Each add reads it twice: `new Date()` gives `now`, the
record's timestamp(s), and `Date.now()` gives `tick`, from which the id is made.
Both readings are parameters. `parseFloat` is also a parameter; `None` stands
for NaN. Money and quantities are `real`.

Facts about the code that the model makes explicit:

- A line item's quantity may be negative: `parseFloat(itemQty) || 1` keeps any
  non-zero number. `NegativeQuantityAccepted` exhibits one.
- Ids are not unique: they are the decimal rendering of the millisecond clock,
  and `MillisIdCollidesIffSameTick` shows two ids are equal exactly when their
  ticks are.
- Save then load returns parse(serialise(v)), not v: JSON turns dates into
  strings. `SaveThenLoad` states that; `SaveThenLoadRoundTrip` returns v itself
  only for a codec that round-trips.
- Each add reads the clock twice, once for the timestamps and once for the id.
- A rejected device read makes `loadItem` return its fallback, and the
  write-back that follows the load then stores the serialisation of [] under
  that key (`Load`).

## Model

| member | source | states |
|---|---|---|
| `Types.ClientFields.Stamp` | src/types/index.ts:3-12 | the stored client carries exactly the caller's fields back (`Fields()`); id is the given id; createdAt and updatedAt are the same given instant |
| `Types.EstimateFields.Stamp` | src/types/index.ts:22-34 | the stored estimate carries the caller's clientId, title, line items, totals and status unchanged; id and both timestamps are stamped |
| `Types.PhotoFields.Stamp` | src/types/index.ts:36-44 | the stored photo carries the caller's uri and optional references unchanged; only id and createdAt are stamped (a photo has no updatedAt) |
| `Types.ParseStatus` | src/types/index.ts:31 | a text is accepted as a status only if it is that status's name |
| `Types.StatusNameRoundTrip` | src/types/index.ts:31 | every status is recovered from its name, so the four names draft, sent, accepted, rejected are distinct and exactly the accepted ones |
| `Types.ParsePhotoType` | src/types/index.ts:42 | a text is accepted as a photo type only if it is that type's name |
| `Types.PhotoTypeNameRoundTrip` | src/types/index.ts:42 | before, after, progress are each recovered from their names |
| `Storage.ParseKeyName` | src/services/storage.ts:3-10 | a text names a storage key only if it is that key's name |
| `Storage.KeyNamesDistinct` | src/services/storage.ts:3-10 | the seven key names are pairwise distinct |
| `Storage.LoadItem` | src/services/storage.ts:12-20 | fallback when the device read is rejected, when the key is absent, when the stored text is empty, or when parsing fails; otherwise exactly the parsed value |
| `Storage.DeviceStore.SaveItem` | src/services/storage.ts:22-24 | the key now holds the serialised value; every other key keeps its presence and text |
| `Storage.DeviceStore.constructor` | src/services/storage.ts:14 | the store holds exactly the given key-to-text entries, which is what `getItem` reads |
| `Storage.SaveThenLoad` | src/services/storage.ts:12-24 | loading a key just saved yields parse(serialise(v)), or the fallback if that text is empty or unparsable |
| `Storage.SaveThenLoadRoundTrip` | src/services/storage.ts:12-24 | for a codec that round-trips v to a non-empty text, save then load returns v |
| `Storage.SaveKeepsOtherKeys` | src/services/storage.ts:22-24 | saving one key does not change what loading any other key returns |
| `Repository.DataProvider.constructor` | src/services/DataContext.tsx:17-19 | before loading, clients, estimates and photos are all empty |
| `Repository.DataProvider.Load` | src/services/DataContext.tsx:22-39 | each collection becomes loadItem of its own key with fallback [], [] wherever the read was rejected; each is then written back under its key, so a rejected read leaves the serialisation of [] in the store; afterwards the store is in sync; with no rejected read, reloading a synced, round-tripping state changes nothing |
| `Repository.DataProvider.AddClient` | src/services/DataContext.tsx:41-47 | clients grows by exactly the stamped client, placed last, earlier clients unchanged and in order; id from the tick, both dates equal to now; estimates and photos untouched; only the 'clients' key is rewritten; store sync is preserved |
| `Repository.DataProvider.AddEstimate` | src/services/DataContext.tsx:49-55 | appends the estimate with the caller's items, totals and status unchanged; other collections untouched; only 'estimates' is rewritten; store sync preserved |
| `Repository.DataProvider.AddPhoto` | src/services/DataContext.tsx:57-62 | the new photo is first and the previous photos follow in their old order; only createdAt is stamped; only 'photos' is rewritten; store sync preserved |
| `Repository.UseData` | src/services/DataContext.tsx:72-76 | fails with the provider message exactly when there is no provider, otherwise yields that provider |
| `Ids.MillisId` | src/services/DataContext.tsx:45 | an id is a non-empty string of decimal digits with no leading zero |
| `Ids.MillisIdRoundTrip` | src/services/DataContext.tsx:59 | the id reads back as the clock reading it was made from |
| `Ids.MillisIdCollidesIffSameTick` | src/services/DataContext.tsx:53 | two ids are equal exactly when their clock readings are, so ids are not unique across adds in one millisecond |
| `Text.TrimStart` | app/estimates.tsx:41 | the result is a suffix of the input that does not start with whitespace, and everything removed is whitespace |
| `Text.TrimEnd` | app/estimates.tsx:46 | the result is a prefix of the input that does not end with whitespace, and everything removed is whitespace |
| `Text.Trim` | app/estimates.tsx:61 | the trimmed text is the middle slice of the input between a whitespace-only prefix and a whitespace-only suffix; it neither starts nor ends with whitespace, and it is empty exactly when the input is all whitespace |
| `Text.TrimStrips` | src/screens/EstimatesScreen.tsx:51 | cutting leading whitespace and then trailing whitespace leaves the middle slice at the offset of the first non-blank character |
| `Text.TrimIdempotent` | src/screens/EstimatesScreen.tsx:41 | trimming a trimmed description changes nothing |
| `Text.TrimUnpadded` | src/screens/EstimatesScreen.tsx:38 | a text without leading or trailing whitespace is its own trim |
| `Text.ToLowerAscii` | app/clients.tsx:29 | same length; no upper-case ASCII letter remains; other characters are kept; upper-case letters map to their lower-case forms |
| `Text.ToLowerIdempotent` | src/screens/ClientsScreen.tsx:21 | lower-casing twice is lower-casing once |
| `Text.Includes` | app/clients.tsx:29 | the empty query is always included, and an included query is no longer than the text |
| `Text.IncludesIffOccurs` | app/clients.tsx:29 | includes holds exactly when the query occurs at some position of the name |
| `Text.IncludesEmpty` | app/clients.tsx:26-32 | every name includes the empty query |
| `Sequences.SubsequenceNoLonger` | src/screens/ClientsScreen.tsx:20-23 | a filtered list is never longer than its source list |
| `Sequences.SubsequenceMembers` | app/estimates.tsx:58 | everything a filter keeps comes from the source list |
| `Estimates.Subtotal` | app/estimates.tsx:34 | an empty draft sums to 0, and line totals that are all non-negative give a non-negative subtotal |
| `Estimates.Tax` | app/estimates.tsx:35 | the tax is 0 exactly on a zero subtotal, and on a non-negative subtotal it lies between 0 and the subtotal |
| `Estimates.GrandTotal` | src/screens/EstimatesScreen.tsx:32-33 | total = subtotal + tax = 1.08 x subtotal, with tax = subtotal x 0.08 |
| `Estimates.SubtotalConcat` | app/estimates.tsx:34 | the reduce-sum of the line totals is additive over concatenation, so appending an item adds its total, and the empty draft sums to 0 |
| `Estimates.SubtotalCons` | src/screens/EstimatesScreen.tsx:31 | the subtotal is the first item's total plus the subtotal of the rest |
| `Estimates.WorkedExample` | app/estimates.tsx:34-36 | items 2 x 10 and 1 x 5 give subtotal 25, tax 2, total 27 |
| `Estimates.EffectiveQuantity` | app/estimates.tsx:39 | an unparsable or zero quantity becomes 1; any other parsed value, negative included, is kept; the result is never 0 |
| `Estimates.EffectivePrice` | app/estimates.tsx:40 | an unparsable price counts as 0; a parsed price is kept |
| `Estimates.LineTotal` | app/estimates.tsx:49 | at a positive price the line total has the sign of the quantity, and one unit costs exactly the price |
| `Estimates.NewLineItem` | app/estimates.tsx:38-51 | an item is produced exactly when the trimmed description is non-empty and the price is > 0; it has the trimmed description, the tick's id, and total = quantity x price |
| `Estimates.NegativeQuantityAccepted` | src/screens/EstimatesScreen.tsx:36 | a quantity of -2 at price 5 is accepted, with total -10 |
| `Estimates.WithoutId` | app/estimates.tsx:57-58 | removal keeps exactly the items whose id differs, as a subsequence in the original order; with the removed items it makes up the original items, every occurrence counted once |
| `Estimates.WithoutIdConcat` | app/estimates.tsx:58 | removal by id distributes over concatenation, so every kept occurrence stays, in order |
| `Estimates.WithoutIdSingle` | src/screens/EstimatesScreen.tsx:48 | a single item is kept exactly when it does not carry the id |
| `Estimates.WithId` | src/screens/EstimatesScreen.tsx:48 | the removed part is exactly the items that carry the id, as a subsequence in the original order |
| `Estimates.WithoutAbsentId` | src/screens/EstimatesScreen.tsx:48 | removing an id no item has leaves the draft unchanged |
| `Estimates.SubtotalSplitsById` | app/estimates.tsx:57 | removal lowers the subtotal by exactly the totals of the removed items |
| `Estimates.CanSave` | app/estimates.tsx:61 | saving is allowed exactly when the title is not all whitespace and there is at least one line item |
| `Estimates.Submission` | app/estimates.tsx:62-70 | the submitted estimate has status draft, the trimmed title, the given client and items, no description, and subtotal, tax and total computed from those items with total = subtotal + tax; past the gate its title is non-empty with no surrounding whitespace |
| `Estimates.EstimateDraft.constructor` | app/estimates.tsx:24-32 | a new form has empty title, client and items; the item inputs are "", "1", "" |
| `Estimates.EstimateDraft.SelectClient` | app/estimates.tsx:253-256 | picking a client sets clientId and nothing else |
| `Estimates.EstimateDraft.AddLineItem` | src/screens/EstimatesScreen.tsx:35-46 | an accepted item is appended last and the inputs reset to "", "1", ""; a rejected one changes nothing; title and client are untouched; stored items stay well-formed |
| `Estimates.EstimateDraft.RemoveLineItem` | src/screens/EstimatesScreen.tsx:48 | the items become the draft without that id; nothing else changes |
| `Estimates.EstimateDraft.SaveEstimate` | src/screens/EstimatesScreen.tsx:50-66 | without a non-blank title and at least one item nothing changes; otherwise one estimate is submitted with status draft, the trimmed title, the current clientId (possibly ""), the items and the current totals; then title, client and items are cleared and the item inputs are kept |
| `Clients.NameMatches` | app/clients.tsx:29 | a name matches exactly when the lower-cased query occurs at some position of the lower-cased name; the empty query matches every name |
| `Clients.FilterClients` | app/clients.tsx:26-32 | the filtered list is a subsequence of the clients and keeps exactly those whose lower-cased name includes the lower-cased query |
| `Clients.FilterClientsConcat` | src/screens/ClientsScreen.tsx:20-23 | filtering distributes over concatenation, so every matching occurrence is kept, in order |
| `Clients.FilterClientsSingle` | src/screens/ClientsScreen.tsx:21 | a single client is kept exactly when its name matches |
| `Clients.EmptyQueryKeepsAll` | app/clients.tsx:28-29 | an empty query keeps every client |
| `Clients.FilterClientsNoLonger` | app/clients.tsx:27-30 | the filtered list is never longer than the client list |
| `Clients.QueryCaseInsensitive` | app/clients.tsx:29 | lower-casing the query first selects the same clients |
| `Clients.CanSaveClient` | app/clients.tsx:156 | saving is allowed exactly when the draft name is not all whitespace |
| `Clients.Submission` | app/clients.tsx:157-161 | the submitted client has the trimmed name, the email and phone as typed (possibly ""), and no address or notes; past the gate its name is non-empty with no surrounding whitespace |
| `Clients.ClientForm.constructor` | app/clients.tsx:18-24 | the search text and the draft name, email and phone start empty |
| `Clients.ClientForm.Shown` | src/screens/ClientsScreen.tsx:20-22 | the shown list keeps exactly the repository's clients that match the form's query, and is no longer than the client list |
| `Clients.ClientForm.SaveClient` | app/clients.tsx:155-165 | a blank trimmed name changes nothing; otherwise one client is added with the trimmed name and the email and phone as typed (possibly ""), and the draft resets to empty name, email and phone |

## Left out

- Rendering, styles, modals, the client picker's visibility, empty states and display formatting (`toFixed`, `toLocaleString`, `toLocaleDateString`): presentation only.
- The text-input handlers (`onChangeText` for the title, description, quantity, price, search and draft fields): each is a plain field assignment.
- The photo screens (app/photos.tsx, src/screens/PhotosScreen.tsx): camera, image library and alerts are device I/O. Their only data effect is one `addPhoto` per picked image, which `AddPhoto` models.
- The dashboards, navigation, layouts and theme: they only display collection sizes and navigate.
- The device store's asynchrony:
  - The mount-time save effects can write [] before the load resolves. The model runs load and each save as one atomic step.
  - Rejected writes are unhandled. Rejected reads are modelled (`Load`'s `failedReads`).
  - React batches several adds in one event into a single write. The model writes after every add, which leaves the same final store.
- `JSON.stringify`/`JSON.parse` are the `Codec` parameters. The source casts whatever `JSON.parse` returns with an unchecked `as T`; the model's parser returns a `T` or `None`.
- `parseFloat` is a parameter. Money is exact `real`, so IEEE-754 rounding is not modelled.
- Text.ToLowerAscii: lower-cases ASCII letters only, because the Unicode case tables are foreign library behaviour. JavaScript also lower-cases non-ASCII letters, some of them into longer strings.
- Ids.MillisId: assumes `Date.now()` is a non-negative whole number below 10^21, since larger numbers print in exponent notation.
- The Job, Employee, TimeEntry and PayPeriod shapes and their reserved keys: nothing reads or writes them. Only the keys exist, as `StorageKey` values.
