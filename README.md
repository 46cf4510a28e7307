# PUNoted-API core, modelled in Dafny

PUNoted-API collects game data from the space-trading game Prosperous
Universe and stores it in a database. It also plans production
expansions. This project models the parts of it that compute, not
the parts that talk to the network or the database:

- **Production expansion planner** (`simulation/production_planner.py`). It computes:
  - the current production rate of a material;
  - the recipe and building that produce it, and their COGC categories;
  - the planet selector;
  - the recursive make-or-buy cost resolver;
  - `run_simulation`, which places the chain buildings under the per-site area budget, plans housing, counts permits and sums the costs.
- **Static-data loader** (`simulation/data_loader.py`): the recipe-name parser, the per-building grouping of costs and workforces, the recipe catalogue, and the linking of production orders to buildings.
- **Payload converters** (`data_converter.py`): game payloads become table rows.
- **Three database handlers** (`db_message_handlers/planet_data.py`, `storage_data.py`, `sites_data.py`), with their SQL taken out. What is left is:
  - the changed-field diff;
  - the placeholder numbering of their UPDATE statements;
  - the insert/update/delete partitions of keys;
  - the chunked upserts with their conflict clauses;
  - the platform-material deletions.

  Each handler takes its query results as inputs and returns a plan of what it would write.
- **Two small string functions:** the ship-price parser `parse_ship_type` (`main.py`) and the number formatters of the Discord notifier (`discord_bot/webhook.py`).

The modelling rules:

- A Python dict is an insertion-ordered list of entries (`PyValues`, `KeyedLists`):
  - assigning a key keeps its position;
  - a new key goes last;
  - `d.get` finds the entry stored under its key.
- Rates, costs and areas are `real`, and `float('inf')` is the `Inf` case of `Cost`.
- Every loop of the source is a `method` with a `while` or `for` loop. Each such method's result is stated through functions of its inputs, and the properties are lemmas about those functions:
  - most methods are proved equal to one function (the placement loops to `FirstExisting`, `NewFrom`, `Choose`, `Place` and `PlaceAll`);
  - the housing and permit loops are proved equal to one function per planet;
  - the grouping loops of the loader are proved equal to one function per key, and `LoadRecipes` to the last recipe per key.
- The clock, `random.choice`, `random.shuffle` and `uuid4` are fields of an `Env` input. The planet a `random.choice` of the resolver picks is keyed by the recipe's position among the candidates (see "Left out").

Where the code and its documentation disagree, the code is followed:

- The recipe parser splits items on '-' only, although its docstring mentions '+'.
- The sites handler's docstring promises a single transaction. `handle_sites_data_message` opens it on a connection it acquires, but passes the `Database` wrapper on to `process_all_site_data` (`db_message_handlers/sites_data.py:26-28`). The wrapper takes a fresh pool connection for every statement (`db.py:57`, 84, 101), so no statement is in that transaction, and a message that raises keeps what it wrote before the raise (`SitesRaiseCommits`).
- `int(x + 0.99)` is not a ceiling: a need below a hundredth of a unit rounds down, so a site of area 501 buys no permit.
- An AGRICULTURE building may be placed on an infertile planet. The planet selector refuses such a planet.

## Model

| member | source | states |
|---|---|---|
| `PyStrings.StripLeftSpec` | main.py:148 | `lstrip()` removes exactly the leading whitespace: the result is a suffix of the input, everything cut off is whitespace, and it starts with a non-space |
| `PyStrings.StripRightSpec` | main.py:148 | `rstrip()` removes exactly the trailing whitespace: the result is a prefix, everything cut off is whitespace, and it ends with a non-space |
| `PyStrings.StripEnds` | main.py:148 | a stripped string has no whitespace at either end |
| `PyStrings.StripNoSpaceEnds` | main.py:152 | a string with no whitespace at its ends is its own strip |
| `PyStrings.StripNoSpace` | main.py:175 | a string with no whitespace at all is its own strip |
| `PyStrings.StripIdempotent` | main.py:152 | stripping twice is stripping once (the cell is stripped again after the first strip) |
| `PyStrings.Lower` | main.py:148 | `lower()` maps every character through the ASCII lower-case map and keeps the length |
| `PyStrings.Upper` | main.py:148 | the ASCII upper-case map, character by character, used to state case-insensitivity |
| `PyStrings.Find` | main.py:149 | `sub in s` holds exactly when a first occurrence exists; the position found is an occurrence with none before it |
| `PyStrings.FindFrom` | main.py:149 | the search from position `i` finds the first occurrence at or after `i`, or reports that there is none |
| `PyStrings.ContainsChar` | main.py:149 | containing the one-character string `c` is the same as `c` being a character of `s` |
| `PyStrings.SplitOnce` | main.py:150 | `split(sep, 1)` gives one part, the input itself, exactly when `sep` is absent; otherwise two parts that rebuild the input around the first `sep` |
| `PyStrings.SplitOnceChar` | simulation/data_loader.py:25 | for a one-character separator the two parts are the text before and after its first occurrence |
| `PyStrings.SplitOnceFirst` | simulation/data_loader.py:30 | when no character of the left text starts the separator, the split cuts right after the left text |
| `PyStrings.IndexOf` | simulation/data_loader.py:39 | the index of the first occurrence of a character: it holds that character and none comes before it |
| `PyStrings.IndexOfAt` | simulation/data_loader.py:39 | a position holding `c` with no `c` before it is the first occurrence |
| `PyStrings.Split` | simulation/data_loader.py:36 | `split(c)` gives at least one part, no part contains `c`, and joining the parts with `c` gives back the input |
| `PyStrings.RemoveChar` | main.py:172 | `replace(c, "")` leaves no `c` and never lengthens the text |
| `PyStrings.RemoveCharFrom` | main.py:172 | removing a character keeps only characters that were there |
| `PyStrings.RemoveAbsentChar` | main.py:180 | removing a character that does not occur changes nothing |
| `PyStrings.DigitsOnly` | main.py:156 | `re.sub(r'[^0-9]', '', s)` keeps only decimal digits and never lengthens the text |
| `PyStrings.NatToDigits` | discord_bot/webhook.py:37 | `str(n)` of a natural number is a non-empty run of digits without a leading zero (except for 0 itself) |
| `PyStrings.IntToStringChars` | discord_bot/webhook.py:37 | `str(n)` holds only digits and a '-', no whitespace, and no '-' when `n >= 0` |
| `PyStrings.DigitsValueOfNatToDigits` | main.py:157 | the digits of `n` read back as `n` |
| `PyStrings.ParseDigits` | simulation/data_loader.py:41 | a digit string is read as a number exactly when it is well formed |
| `PyStrings.ParseInt` | simulation/data_loader.py:41 | a blank string is not a number |
| `PyStrings.ParseDigitsOfNat` | simulation/data_loader.py:41 | the digits Python prints for `n` read back as `n` |
| `PyStrings.IntRoundTrip` | simulation/data_loader.py:41 | `int(str(n)) == n` for every integer, negative ones included |
| `ShipTypes.PriceOf` | main.py:156-157 | the price is the value of the decimal digits of the price text, in order, and 0 when there are none |
| `ShipTypes.DigitsOfStrip` | main.py:155-156 | stripping the price text keeps all its digits, so the price does not depend on its surrounding whitespace |
| `ShipTypes.SpaceRunSpec` | main.py:160 | a greedy `\s*` from position `i` covers only whitespace and stops at the end or at a non-space |
| `ShipTypes.LineEndSpec` | main.py:160 | a greedy `.*` from position `k` covers no newline and stops at the end or at a newline |
| `ShipTypes.TailSound` | main.py:160 | the `\)\s+-\s+(.*)` tail found after a ')' is a valid layout of that part of the pattern |
| `ShipTypes.TailUnique` | main.py:160 | the tail after a given ')' can be laid out in only one way |
| `ShipTypes.CloseFromSound` | main.py:160 | the ')' the lazy modifier group stops at is valid: no newline before it and a valid tail after it |
| `ShipTypes.CloseFromLeast` | main.py:160 | the lazy modifier group stops at the first ')' that has a valid tail |
| `ShipTypes.MatchHereSound` | main.py:160 | a match found with the name group ending at `i` is a valid match |
| `ShipTypes.MatchHereLeast` | main.py:160 | if any valid match has its name group ending at `i`, the search there succeeds with the earliest ')' |
| `ShipTypes.OpenFromSound` | main.py:160 | a match found from position `i` on is valid and its name group ends at or after `i` |
| `ShipTypes.OpenFromLeast` | main.py:160 | the search from `i` finds a match no later valid match precedes |
| `ShipTypes.MatchSpec` | main.py:160-161 | `re.search` finds a match exactly when the pattern can match, and then the one backtracking reaches first: the shortest name group, then the shortest modifier group |
| `ShipTypes.NoMatchWithoutDashOrBracket` | main.py:160 | a cell without a '-' or without a '(' never matches the bracket pattern |
| `ShipTypes.MatchDetermined` | main.py:160 | two valid matches with the same name end and the same ')' are the same match |
| `ShipTypes.FirstMatch` | main.py:160 | a valid match no other valid match precedes is the one the search returns |
| `ShipTypes.BracketChars` | main.py:160 | the layout of a cell written `name (modifier) - price`, character by character |
| `ShipTypes.NoEarlierName` | main.py:160 | with no '(' before position `n`, no valid match ends its name group before `n` |
| `ShipTypes.OpenAfterName` | main.py:160 | a valid match's '(' follows its name group directly when the next character is '(' |
| `ShipTypes.NoEarlierClose` | main.py:160 | no valid match closes its modifier before the first ')' after its '(' |
| `ShipTypes.BracketValid` | main.py:160 | a cell `name (modifier) - price` matches the pattern in its intended layout |
| `ShipTypes.BracketMatch` | main.py:160-164 | on a cell `name (modifier) - price` the search finds exactly the intended name, modifier and price |
| `ShipTypes.StripLeftCase` | main.py:148 | texts equal up to case stay equal up to case after `lstrip()` |
| `ShipTypes.StripRightCase` | main.py:148 | texts equal up to case stay equal up to case after `rstrip()` |
| `ShipTypes.SameUpToCase` | main.py:148 | two cells that differ only in letter case normalize to the same text |
| `ShipTypes.CaseInsensitive` | main.py:148 | the cell is stripped and lower-cased before any test: upper- or lower-casing it first changes no result |
| `ShipTypes.NormalizeIdempotent` | main.py:148 | normalizing twice equals normalizing once, and parsing a normalized cell gives the same result |
| `ShipTypes.ParseShipType` | main.py:146-180 | (no contract of its own) the ship-type cell parser; the lemmas beside it state its cases |
| `ShipTypes.ShipTypeOf` | main.py:149-180 | (no contract of its own) the type and price of a stripped, lower-cased cell; the lemmas beside it state its cases |
| `ShipTypes.NoDashForm` | main.py:173-180 | with no '-' in the cell, the type is the cell without its spaces and the price is 0 |
| `ShipTypes.DashForm` | main.py:173-179 | for `name - price` without brackets or "starter ship", the type is the stripped name less "shipwcb" with spaces kept, and the price comes from the digits after the '-' |
| `ShipTypes.StarterForm` | main.py:149-158 | a cell with "starter ship" and a '-' yields "starter" + the left part stripped, lower-cased and without "starter ship wcb ", with the price after the first '-' |
| `ShipTypes.BracketForm` | main.py:160-172 | for `name (modifier) - price` the type is the name + "ftl" when the modifier contains it, else + "stl" when it contains that, spaces removed; ftl wins; the price comes from the price text's digits |
| `NumberFormat.UngroupDigits` | discord_bot/webhook.py:37 | grouping digits only inserts commas: deleting them gives back the digits |
| `NumberFormat.CommaPositions` | discord_bot/webhook.py:37 | in grouped digits the commas stand exactly at every fourth place from the end, every other character is a digit, and the grouped text never starts with a comma |
| `NumberFormat.FormatAmount` | discord_bot/webhook.py:34-37 | None and non-int values give "N/A"; an int gives its grouped formatting |
| `NumberFormat.FormatInt` | discord_bot/webhook.py:37 | (no contract of its own) `f"{amount:,}"` for an int; `FormatIntSpec` states its digits and separators |
| `NumberFormat.FormatIntSpec` | discord_bot/webhook.py:37 | for an int `n`, deleting every ',' gives `str(n)`; the text starts with '-' exactly when `n < 0`; past the sign, commas stand exactly at every fourth place from the end |
| `NumberFormat.FormatPrice` | discord_bot/webhook.py:21-22 | None and values that are neither int nor float give "N/A ICA" |
| `NumberFormat.PriceOfWhole` | discord_bot/webhook.py:24-25 | a whole-number price (int, bool or integral float) is `format_amount(int(price)) + " ICA"` |
| `NumberFormat.WholeTrunc` | discord_bot/webhook.py:24 | `int(x)` of an integral float is `x` itself |
| `NumberFormat.FractionIsNotExact` | discord_bot/webhook.py:26-27 | a fractional float takes the two-decimal branch |
| `DataLoader.ItemOfSplit` | simulation/data_loader.py:38-43 | an item `a + "x" + t` with no 'x' in `a` is the ticker `t.strip()` with the amount `int(a.strip())`, or is dropped when that amount is not an integer |
| `DataLoader.ParseItemFound` | simulation/data_loader.py:37-41 | a kept item is cut at its first 'x' into an integer amount and a stripped ticker |
| `DataLoader.ParseItemDropped` | simulation/data_loader.py:38-43 | an item is dropped exactly when it has no 'x' or the text before its first 'x' is not an integer |
| `DataLoader.ParsedItems` | simulation/data_loader.py:36-43 | the kept items of one side all come from its '-'-separated parts, and there are no more of them than parts |
| `DataLoader.ParseRecipeName` | simulation/data_loader.py:22-23 | a value that is not a string gives `("", {}, {})` |
| `DataLoader.EmptyBody` | simulation/data_loader.py:28-32 | an empty body splits into one empty side, so both sides are empty |
| `DataLoader.EmptySide` | simulation/data_loader.py:36-43 | an empty side has no items |
| `DataLoader.NoItems` | simulation/data_loader.py:28-56 | a name whose two side texts are empty has the ticker and no items |
| `DataLoader.ParseRecipeNameTicker` | simulation/data_loader.py:25-28 | the ticker is the stripped text before the first ':'; without a ':' the whole stripped string is the ticker and both sides are empty |
| `DataLoader.ParseRecipeNameNoArrow` | simulation/data_loader.py:30-32 | without "=>" in the body, the whole body is the inputs side and there are no outputs |
| `DataLoader.ParseRecipeNameArrow` | simulation/data_loader.py:30-32 | the body is cut at its first "=>": the stripped left text is the inputs side and the stripped right text the outputs side |
| `DataLoader.StripOfStripped` | simulation/data_loader.py:28-31 | the body is already stripped, so the inputs side of a body without "=>" is the body |
| `DataLoader.ParseWrittenItem` | simulation/data_loader.py:37-41 | `str(n) + "x" + t`, with `t` free of whitespace, parses back to the item (t, n) |
| `DataLoader.SingleItemSide` | simulation/data_loader.py:36-43 | a side without '-' is one item: the side holds that item when it parses, and nothing otherwise |
| `DataLoader.ParseWrittenSide` | simulation/data_loader.py:36-43 | a side holding one written item parses to that item alone |
| `DataLoader.WrittenChars` | simulation/data_loader.py:36-43 | a written item is free of whitespace, ':', '-' and '=' when its ticker is |
| `DataLoader.PartsOfWritten` | simulation/data_loader.py:25-32 | `ticker:<left>=><right>` with nothing to strip splits into exactly those three texts |
| `DataLoader.ParseWrittenRecipe` | simulation/data_loader.py:14-56 | a name written `ticker:<n>x<t>=><m>x<u>` parses back to its ticker, its one input (t, n) and its one output (u, m) |
| `DataLoader.ParseEmptyRecipe` | simulation/data_loader.py:19 | a name written `ticker:=>` has that ticker and no inputs or outputs |
| `DataLoader.FoodProcessorExample` | simulation/data_loader.py:18 | 'FP:20xH2O=>14xDW' parses to ('FP', {'H2O': 20}, {'DW': 14}) |
| `DataLoader.RigExample` | simulation/data_loader.py:19 | 'RIG:=>' parses to ('RIG', {}, {}) |
| `DataLoader.PlusIsNotASeparator` | simulation/data_loader.py:20 | '+' does not separate items, contrary to the docstring: '1xA+2xB' is one item with ticker 'A+2xB' |
| `DataLoader.ParseSide` | simulation/data_loader.py:34-43 | (no contract of its own) one side of a recipe string; `ParseSideItems` and `ParseSideLastAmount` state what it yields |
| `DataLoader.ParseSideLastAmount` | simulation/data_loader.py:41 | on one side a repeated ticker keeps its last amount, and the side's tickers are distinct |
| `DataLoader.ParseSideItems` | simulation/data_loader.py:36-43 | the loop over one side's items builds that side's dict, with distinct tickers |
| `DataLoader.ParseRecipeNameComponents` | simulation/data_loader.py:14-56 | the imperative parser returns the ticker and the two sides the functional definition gives, each with distinct tickers |
| `DataLoader.GroupOf` | simulation/data_loader.py:137-144 | the values filed under a key, in input order, are no more than the entries |
| `DataLoader.GroupOfMembers` | simulation/data_loader.py:137-144 | a value is in a key's group exactly when some entry filed it under that key |
| `DataLoader.GroupOfSnoc` | simulation/data_loader.py:139-141 | one more entry appends its value to its own key's group only |
| `DataLoader.GroupEntries` | simulation/data_loader.py:137-144 | the `if k not in m: m[k] = []; m[k].append(x)` loop maps exactly the keys that occur, each to its values in input order |
| `DataLoader.GroupOfAbsent` | simulation/data_loader.py:139-140 | a key no entry is filed under has an empty group |
| `DataLoader.CostEntries` | simulation/data_loader.py:137-144 | one (building, cost item) entry per cost record |
| `DataLoader.RequirementEntries` | simulation/data_loader.py:146-153 | one (building, workforce requirement) entry per requirement record |
| `DataLoader.LevelEntries` | simulation/data_loader.py:198-206 | one (building, workforce level) entry per building workforce record |
| `DataLoader.LoadBuildingCosts` | simulation/data_loader.py:137-144 | `building_costs_map` holds exactly the buildings with a cost record, each with its cost items in input order |
| `DataLoader.LoadWorkforceRequirements` | simulation/data_loader.py:146-153 | `building_workforce_req_map` holds exactly the buildings with a requirement record, each with its requirements in input order |
| `DataLoader.LoadBuildingWorkforces` | simulation/data_loader.py:197-206 | `static_building_workforces` holds exactly the buildings with a workforce record, each with its levels in input order and tagged with that building |
| `DataLoader.RecipesOf` | simulation/data_loader.py:165-174 | one recipe per recipe record |
| `DataLoader.LoadRecipes` | simulation/data_loader.py:164-174 | the catalogue has one recipe per standard name, built from the last record with that name, and every recipe comes from a record |
| `DataLoader.RecipeOfFields` | simulation/data_loader.py:166-171 | a recipe keeps its standard name, takes its building ticker from the parser, and has duration `TimeMs`, or 0 when it is missing |
| `DataLoader.FirstSite` | simulation/data_loader.py:489-492 | the first site with the line's `SiteId`, or none when no site has it |
| `DataLoader.FirstNamed` | simulation/data_loader.py:495-500 | the first building instance whose `BuildingName` is the line's `Type`, or none |
| `DataLoader.LineBuilding` | simulation/data_loader.py:482-500 | a line's building id is set only when `SiteId` and `Type` are both set, and is then the `SiteBuildingId` of an instance named `Type` on a site with that `SiteId`; with both set, a site with that id, and an instance of that name on every such site, it is found |
| `DataLoader.FindSite` | simulation/data_loader.py:489-492 | the loop with `break` finds the first site with the id |
| `DataLoader.FirstSiteUnique` | simulation/data_loader.py:489-492 | any index that is the first site with the id is the one `FirstSite` gives |
| `DataLoader.FindBuildingNamed` | simulation/data_loader.py:495-500 | the loop with `break` finds the first instance with the name |
| `DataLoader.FirstNamedUnique` | simulation/data_loader.py:495-500 | any index that is the first instance with the name is the one `FirstNamed` gives |
| `DataLoader.Stamp` | simulation/data_loader.py:509-525 | every order of a line becomes a production order carrying the line's building id |
| `DataLoader.LineOrders` | simulation/data_loader.py:509-525 | no contract of its own; the orders of every line in turn, each stamped with its line's building id; `LineOrdersFrom` states where each comes from |
| `DataLoader.LineOrdersFrom` | simulation/data_loader.py:509-525 | each linked order comes from one line's order record, stamped with that line's building id |
| `DataLoader.LineBuildingId` | simulation/data_loader.py:482-500 | the imperative lookup computes the line's building id |
| `DataLoader.LinkOrders` | simulation/data_loader.py:480-525 | `parsed_production_orders` has one order per `ProductionLineOrderId`, each from some line's record with that line's building id |
| `DataLoader.LinkedOrderLookup` | simulation/data_loader.py:510-511 | for each order id the map keeps the last order read with that id |
| `DataConverter.OrElse` | data_converter.py:241 | `v if v is not None else d` is `v` whenever `v` is not None, and None only when the default is |
| `DataConverter.TimeOf` | data_converter.py:804-808 | a `{"timestamp": ms}` period becomes a time or None, nothing else |
| `DataConverter.ConvertWorldMaterials` | data_converter.py:229-269 | the loops build one category row per category, in order, and the material rows of each category, category after category |
| `DataConverter.WorldMaterialDefaults` | data_converter.py:240-264 | no value of a category or material row is None: ids, names and tickers default to 'null', weight and volume to 0.0, resource to False |
| `DataConverter.MaterialCategory` | data_converter.py:260 | a material row's `category` is its category's id, as written in the category row |
| `DataConverter.MaterialsInCategoryOrder` | data_converter.py:234-264 | the `j`-th material of the `i`-th category has its row right after the rows of the earlier categories and materials, naming that category |
| `DataConverter.MaterialCount` | data_converter.py:246-264 | there are as many material rows as materials in all categories |
| `DataConverter.ItemRowsFor` | data_converter.py:315-323 | one item row per kept item of a store, in order |
| `DataConverter.ItemRowsSnoc` | data_converter.py:315 | one more kept item appends its row |
| `DataConverter.ConvertStorages` | data_converter.py:284-328 | the loop builds one storage record per store, in order |
| `DataConverter.KeptItemsPass` | data_converter.py:303-310 | every item a store keeps is one of its items, not of type 'BLOCKED' and with a quantity |
| `DataConverter.PassingItemsKept` | data_converter.py:303-310 | no item that is not 'BLOCKED' and has a quantity is dropped |
| `DataConverter.ItemRowIds` | data_converter.py:316 | every item row carries its parent store's id as `storageid` |
| `DataConverter.StorageRecordId` | data_converter.py:289-324 | the storage record carries the store's id; its item rows are added under `storage_items`, a key the plain row lacks |
| `DataConverter.AppendVertexRows` | data_converter.py:976-983 | the inner `enumerate` loop appends one row per vertex of the subsector |
| `DataConverter.ConvertSectors` | data_converter.py:948-989 | the nested loops build one row per sector, the subsector rows sector after sector, and the vertex rows subsector after subsector |
| `DataConverter.SubsectorParent` | data_converter.py:967-973 | a subsector row names its own id and its parent sector's id |
| `DataConverter.SubsectorsInSectorOrder` | data_converter.py:966-973 | the `j`-th subsector of the `i`-th sector has its row after those of the earlier sectors, naming that sector |
| `DataConverter.VertexRowFields` | data_converter.py:977-979 | a vertex row holds its index and its subsector's id |
| `DataConverter.VertexIndex` | data_converter.py:976-979 | the `k`-th vertex row of a subsector has `index` equal to `k`, its 0-based position |
| `DataConverter.VerticesInSubsectorOrder` | data_converter.py:966-983 | a sector's vertex rows are its subsectors' vertex rows in turn, each kept whole and in order |
| `DataConverter.ConvertSystems` | data_converter.py:993-1024 | the loop builds one system row per star and the connection rows star after star |
| `DataConverter.ConnectionEnds` | data_converter.py:997-1001 | the `j`-th connection row of a star goes from the star's systemId to its `j`-th listed connection |
| `DataConverter.ConnectionsInStarOrder` | data_converter.py:995-1001 | one connection row per listed connection, star after star, each with `systemidorigin` = its star's systemId |
| `DataConverter.SystemNaturalId` | data_converter.py:1004-1013 | `naturalid` is the first address line's entity naturalId, or None when there are no lines |
| `DataConverter.ConvertAccounting` | data_converter.py:1683-1695 | the loop builds one row per liquid-asset item, in input order |
| `DataConverter.AccountsAreLiquid` | data_converter.py:1687 | every row comes from an item whose accountCategory is 'LIQUID_ASSETS' |
| `DataConverter.LiquidAccountsKept` | data_converter.py:1687 | no item whose accountCategory is 'LIQUID_ASSETS' is dropped |
| `DataConverter.AccountOrder` | data_converter.py:1686-1694 | the rows keep the items' order: an earlier liquid item's row comes before a later one's |
| `DataConverter.ShipRecords` | data_converter.py:557-559 | the records go on to be converted only when there is something to process |
| `DataConverter.ShipShapes` | data_converter.py:543-559 | a dict with 'ships' gives that list, a dict with 'id' a one-element list, a list itself; nothing to process gives None |
| `DataConverter.CleanId` | data_converter.py:787 | a cleaned id is a string or None |
| `DataConverter.CleanIdSpec` | data_converter.py:787 | `replace('\x00', '')` leaves no NUL character, keeps an id without one as it is, and cleaning twice is cleaning once |
| `DataConverter.ConvertOptionMaterials` | data_converter.py:752-757 | the loop builds the material rows of a build option |
| `DataConverter.ConvertWorkforces` | data_converter.py:761-766 | the loop builds the workforce capacity rows of a build option |
| `DataConverter.ConvertBuildOption` | data_converter.py:749-780 | the loop body builds a build option's row with its nested lists |
| `DataConverter.ConvertPlatformMaterials` | data_converter.py:785-801 | the loop builds the reclaimable or repair material rows of a platform |
| `DataConverter.ConvertPlatform` | data_converter.py:782-829 | the loop body builds a platform's row with its nested lists |
| `DataConverter.ConvertSiteOptions` | data_converter.py:749-780 | the loop over a site's build options builds their rows and the list of their ids, both in order |
| `DataConverter.ConvertSitePlatforms` | data_converter.py:782-829 | the loop over a site's platforms builds their rows in order |
| `DataConverter.ConvertSite` | data_converter.py:744-849 | the loop body builds one site's row |
| `DataConverter.ConvertSites` | data_converter.py:735-850 | one site row per selected record, in order |
| `DataConverter.SiteSelection` | data_converter.py:738-742 | the 'sites' list is converted when present, else the payload alone when it has a siteId, else nothing |
| `DataConverter.PlatformIdClean` | data_converter.py:818 | a platform row carries the cleaned id, with no NUL left in it |
| `DataConverter.PlatformMaterialIdClean` | data_converter.py:787-800 | a platform material row carries the cleaned platform id and is tagged 'reclaimable' or 'repair' by its list |
| `DataConverter.SiteOptionIds` | data_converter.py:846 | a site row's `buildingoptions` lists its build options' ids in order |
| `DataConverter.OptionIdMatchesRow` | data_converter.py:768-771 | the `j`-th listed id is the `buildingid` of the `j`-th build option row |
| `DataConverter.ConvertResources` | data_converter.py:1079-1086 | the loop builds one resource row per resource |
| `DataConverter.ConvertPlanetOptions` | data_converter.py:1089-1095 | the loop builds one build option row per option |
| `DataConverter.ConvertProjects` | data_converter.py:1098-1104 | the loop builds one project row per project |
| `DataConverter.ConvertFees` | data_converter.py:1107-1115 | the loop builds one fee row per production fee |
| `DataConverter.ConvertPlanets` | data_converter.py:1036-1123 | the planet row and its resource, build option, project and fee rows |
| `DataConverter.ResourceFactorDefault` | data_converter.py:1085 | a None resource factor becomes 0.0, any other is kept |
| `DataConverter.FeeDefault` | data_converter.py:1113-1114 | a fee without a `fee` record has amount 0 and currency 'null' |
| `DataConverter.PlanetRowId` | data_converter.py:1060 | the planet row's id is the payload's planetId, or 'null' when that is None, so it is never None |
| `DataConverter.PlanetIdInResources` | data_converter.py:1080-1095 | every resource and build option row names the planet id |
| `DataConverter.PlanetIdInProjects` | data_converter.py:1099-1115 | every project and fee row names the planet id |
| `PlannerModel.ApproxCeil` | simulation/production_planner.py:650 | no contract of its own; the `int(x + 0.99)` rounding idiom; `ApproxCeilBounds` and `ApproxCeilMissesSmallFraction` state what it gives |
| `PlannerModel.ApproxCeilBounds` | simulation/production_planner.py:650 | `int(x + 0.99)` for a non-negative x lies between floor(x) and floor(x)+1, within (x - 0.01, x + 0.99]: a ceiling except for fractions below 0.01 |
| `PlannerModel.ApproxCeilMissesSmallFraction` | simulation/production_planner.py:922 | the rounding idiom is not a ceiling: a need of 1/250 of a building rounds to 0 before the `max(1, ...)` |
| `PlannerModel.FindRecipe` | simulation/production_planner.py:123 | a recipe lookup by standard name finds a recipe of that name from the catalogue, and None only when no recipe has it |
| `PlannerModel.FirstQuote` | simulation/production_planner.py:385 | the first market entry for a ticker: an entry with that ticker and none before it, None exactly when there is none |
| `PlannerModel.BuyPrice` | simulation/production_planner.py:384-399 | the buy cost is finite exactly when a quote exists with an Ask, Bid or average price, and is then that price; otherwise infinite |
| `PlannerModel.ItemPrice` | simulation/production_planner.py:487-495 | a building-material price is the first quote's Ask, else its Bid, else its PriceAverage, and 0.0 without a quote or without any of the three |
| `PlannerModel.NoMarketNoCost` | simulation/production_planner.py:485-496 | with no market data any list of building cost items adds up to 0 |
| `PlannerModel.CostItemsNonNegative` | simulation/production_planner.py:485-496 | non-negative amounts and prices give a non-negative construction cost |
| `ProductionRates.OutputsRateNonNegative` | simulation/production_planner.py:127-131 | the per-day rate of a recipe's matching outputs is non-negative when their amounts are |
| `ProductionRates.OrdersRateNonNegative` | simulation/production_planner.py:121-136 | the rates of a building's orders add up to a non-negative total |
| `ProductionRates.BuildingsRateNonNegative` | simulation/production_planner.py:104-136 | the rates of a site's buildings add up to a non-negative total |
| `ProductionRates.SitesRateNonNegative` | simulation/production_planner.py:92-136 | the rates of the sites add up to a non-negative total |
| `ProductionRates.CurrentProduction` | simulation/production_planner.py:73-142 | no contract of its own; the summed rate over the sites, restricted to the target site; `CurrentProductionNonNegative` and `SiteRateAtMostTotal` state its bounds and `CalculateCurrentProduction` is proved equal to it |
| `ProductionRates.CurrentProductionNonNegative` | simulation/production_planner.py:73-142 | the current production rate of a material is never negative |
| `ProductionRates.SitesRateMonotone` | simulation/production_planner.py:92-95 | filtering to one target site never raises the sum over the sites |
| `ProductionRates.SiteRateAtMostTotal` | simulation/production_planner.py:73-142 | the rate on a target site is at most the company-wide rate |
| `ProductionRates.OrderOutput` | simulation/production_planner.py:121-136 | the innermost loop computes the rate of one order: zero for a halted or unfinished order, an unknown recipe or a zero duration, else the matching outputs times cycles per day |
| `ProductionRates.BuildingOutput` | simulation/production_planner.py:110-136 | one building's loops compute its rate: zero for an unknown building, else the sum over the orders linked to it |
| `ProductionRates.CalculateCurrentProduction` | simulation/production_planner.py:73-142 | the nested loops compute the company's current rate for a material, restricted to the target site when one is given |
| `RecipeCatalog.FirstUsable` | simulation/production_planner.py:167-173 | the first recipe in catalogue order that yields the material and whose building is known; None exactly when there is none |
| `RecipeCatalog.FindBestRecipeAndBuilding` | simulation/production_planner.py:144-174 | recipe and building are both present or both None; a valid preferred pair wins; otherwise the first usable recipe with its own building, or none when no recipe is usable |
| `RecipeCatalog.BuildingCategory` | simulation/production_planner.py:206-221 | a category exactly for a known building with a non-empty expertise, and it is that expertise upper-cased |
| `RecipeCatalog.Producers` | simulation/production_planner.py:185-189 | the collected tickers are exactly the non-empty building tickers of recipes that yield the material |
| `RecipeCatalog.FirstCategory` | simulation/production_planner.py:196-204 | the category found belongs to one of the producers; None exactly when no producer has a category |
| `RecipeCatalog.MaterialCategory` | simulation/production_planner.py:176-204 | a material's category is the non-empty category of some building producing it; None exactly when no producing building has one |
| `RecipeCatalog.FindUsable` | simulation/production_planner.py:167-173 | the fallback loop returns at the first usable recipe, which is the one `FirstUsable` names |
| `RecipeCatalog.SearchRecipeAndBuilding` | simulation/production_planner.py:144-174 | the preferred pair when valid, else the fallback loop's recipe with its building, computes `FindBestRecipeAndBuilding` |
| `RecipeCatalog.ProducersSnoc` | simulation/production_planner.py:186-189 | one more recipe adds its building ticker at the end exactly when it yields the material in a named building |
| `RecipeCatalog.CollectProducers` | simulation/production_planner.py:185-189 | the loop over the recipes collects the producing building tickers, in recipe order |
| `RecipeCatalog.FindCategory` | simulation/production_planner.py:196-204 | the loop over the producers returns the first category found, or None |
| `RecipeCatalog.GetMaterialProductionCategory` | simulation/production_planner.py:176-204 | the two loops compute the material's category; the imperative resolver uses this method |
| `PlanetSelection.ExtractedMaterial` | simulation/production_planner.py:273-278 | what an extraction building yields: the first output ticker of some recipe of that building with outputs; None exactly when it has no such recipe |
| `PlanetSelection.MaterialIdOf` | simulation/production_planner.py:281 | the id of a material carrying the ticker; None exactly when no material carries it |
| `PlanetSelection.SuitablePlanets` | simulation/production_planner.py:242-333 | the candidate list holds exactly the planets of the input that pass the suitability test, and no more of them |
| `PlanetSelection.ActivePlanets` | simulation/production_planner.py:339 | the preferred list holds exactly the candidates running the `ADVERTISING_<category>` program at the given time on an ACTIVE planet |
| `PlanetSelection.SelectPlanet` | simulation/production_planner.py:335-351 | the pick is found exactly when the candidate list is non-empty, is one of the candidates, and is one of the program-running candidates when there are any |
| `PlanetSelection.SelectPlanetSound` | simulation/production_planner.py:335-351 | a planet is found exactly when some planet is suitable; it is a suitable planet of the input; and when a suitable planet runs the boosting program, the one picked runs it too |
| `PlanetSelection.PlacementIgnoresFertility` | simulation/production_planner.py:708 | the placement loop accepts an AGRICULTURE building on every planet, while the planet selector demands positive fertility |
| `PlanetSelection.SelectorStricterThanPlacement` | simulation/production_planner.py:705-751 | a planet the selector accepts is accepted by the placement test too, provided an extraction building's yield is known |
| `PlanetSelection.CheckActiveProgram` | simulation/production_planner.py:251-258 | the loop over a planet's programs answers whether one of the expected type is running at the given time on an ACTIVE planet |
| `PlanetSelection.FindExtractedMaterial` | simulation/production_planner.py:273-278 | the recipe loop stops at the first recipe of the building with outputs and returns its first output ticker |
| `PlanetSelection.FindResource` | simulation/production_planner.py:283-293 | the resource loop finds a resource exactly when one has the material id, a positive factor and the kind the building extracts (RIG liquid, EXT mineral, COL gaseous) |
| `PlanetSelection.CheckSpecificResource` | simulation/production_planner.py:280-299 | the precise extraction check, with its failure when the material or its id is unknown |
| `PlanetSelection.CheckSelectorSuitable` | simulation/production_planner.py:243-329 | the loop body decides candidacy per category: fertility for AGRICULTURE, resources for extraction (with the general fallback), program or infrastructure for processing, otherwise suitable |
| `PlanetSelection.FindBestExpansionPlanet` | simulation/production_planner.py:224-351 | the whole selector, with the clock and random draw as inputs, yields the modelled pick |
| `CostResolver.PossibleRecipes` | simulation/production_planner.py:408 | the candidate recipes are exactly the catalogue recipes with an output of the material |
| `CostResolver.OutputAmount` | simulation/production_planner.py:519 | the amount of the first output of the material, 0 when the recipe has none |
| `CostResolver.FindPlanet` | simulation/production_planner.py:501 | the planet looked up for the program check carries the id; None only when no planet does |
| `CostResolver.CogcNeverRaisesCost` | simulation/production_planner.py:514-525 | the 10% faster duration under an active program never makes the unit cost higher |
| `CostResolver.Assign` | simulation/production_planner.py:469-471 | a sub-building keeps its planet when it has one, otherwise takes the input's production planet when that is set, else this recipe's planet |
| `CostResolver.Reassign` | simulation/production_planner.py:469-471 | the sub-building loop applies that rule to every sub-building and keeps their number and order |
| `CostResolver.DepthLimitFallsBack` | simulation/production_planner.py:372-379 | past the depth limit the material is a BUY at the first quote's average price with no buildings and no planet, or UNKNOWN at infinite cost when that price is missing |
| `CostResolver.ScanFindsMinimum` | simulation/production_planner.py:413-536 | the recipe loop's best cost never rises, is at most every candidate's unit cost, and is the unit cost of one of them unless no candidate improved on the start |
| `CostResolver.Decide` | simulation/production_planner.py:538-580 | the final comparison: the final material is never bought and is PRODUCE exactly when a recipe was chosen; an intermediate is never UNKNOWN and is BUY exactly when buying costs at most the best recipe; BUY carries the buy price, no buildings and no planet, PRODUCE the best cost and its planet, UNKNOWN infinite cost and nothing else |
| `CostResolver.Step` | simulation/production_planner.py:529-534 | one recipe of the loop: the best cost never rises, ends at most the recipe's unit cost, and changes only to that unit cost, taking the recipe's building |
| `CostResolver.ResolveDecision` | simulation/production_planner.py:538-580 | the final material is never bought, and UNKNOWN only at infinite cost with nothing else; an intermediate is never UNKNOWN, is bought at the buy price and produced only when strictly cheaper than buying; a produced material has a finite cost and an infinite cost has no buildings |
| `CostResolver.FinalProducedWhenCosted` | simulation/production_planner.py:539-556 | the final material is PRODUCE whenever some candidate recipe was costed |
| `CostResolver.BoughtOnlyWhenNoCheaperRecipe` | simulation/production_planner.py:560-562 | an intermediate is bought only when buying costs at most every costed recipe |
| `CostResolver.BoughtWhenNoCheaperRecipe` | simulation/production_planner.py:560-562 | an intermediate is bought whenever buying costs at most every costed recipe, in particular when none was costed |
| `CostResolver.ProduceIsCheapestRecipe` | simulation/production_planner.py:529-534 | a produced material costs exactly the cheapest costed recipe: at most every candidate's unit cost and equal to one of them |
| `CostResolver.ResolveChain` | simulation/production_planner.py:542-580 | every recommended building is defined, counts one per chain set, has a planet and no site, and sits on the preferred planet when one is passed down |
| `CostResolver.ComputeConstructionCost` | simulation/production_planner.py:483-496 | the cost-item loop adds each building material's amount times its market price (0 when unpriced) |
| `CostResolver.ReassignPlanets` | simulation/production_planner.py:469-472 | the loop over an input's sub-buildings fills in missing planets by the assignment rule |
| `CostResolver.ComputeEffectiveDuration` | simulation/production_planner.py:499-516 | the recipe duration, times 0.9 when the production planet runs the program for the material's category |
| `CostResolver.Resolve` | simulation/production_planner.py:353-580 | (no contract of its own; recursion over the input depth) the resolver itself, whose results `ResolveCost` states |
| `CostResolver.ResolveCost` | simulation/production_planner.py:353-580 | the recursive resolver computes the modelled resolution: cost, BUY/PRODUCE/UNKNOWN, the sub-buildings and the planet |
| `CostResolver.EvaluateRecipe` | simulation/production_planner.py:413-536 | one candidate recipe is skipped without a planet, an acquirable input or a defined building, and otherwise costed |
| `CostResolver.AddInputCost` | simulation/production_planner.py:467-472 | one input: its amount times its unit cost is added to the total, and its sub-buildings, with any missing planet filled in, are appended |
| `CostResolver.CostInputs` | simulation/production_planner.py:451-475 | the input loop adds amount times unit cost per input and collects sub-buildings, stopping with nothing at the first input of infinite cost |
| `Placement.FitKeepsArea` | simulation/production_planner.py:778-784 | the units that fit on a planet, when positive, keep its used area within the production area (1000 minus the site's base 25) |
| `Placement.LookupPlanet` | simulation/production_planner.py:753 | a planet's entry in the recommendation map is found by its id; none exactly when no entry has it |
| `Placement.Shuffled` | simulation/production_planner.py:702-703 | the shuffled planets are as many as the planets and each is one of them |
| `Placement.AddDemand` | simulation/production_planner.py:821-823 | storing `get(k, 0.0) + amount` under a type keeps every existing key in place and at most appends the new one |
| `Placement.AddDemandAdds` | simulation/production_planner.py:821-823 | the update raises that type's demand by the amount and leaves every other type's demand alone |
| `Placement.PlanValid` | simulation/production_planner.py:753-815 | no contract of its own; the invariant the placement keeps: distinct planet ids, each a known planet whose buildings fit in the production area, are placed on its new site and add up to its cost; `PlanValidUpdate`, `AddEntryValid` and `PlaceTemplate` preserve it |
| `Placement.PlaceUnits` | simulation/production_planner.py:795-813 | recording units keeps the planet's id, name and site and its earlier buildings, and appends one building of the template with those units on the planet and its site, adding its cost to the planet |
| `Placement.PlanValidUpdate` | simulation/production_planner.py:804-815 | replacing one recommended planet with a valid one under the same id keeps the plan valid |
| `Placement.PlaceUnitsValid` | simulation/production_planner.py:795-823 | recording units that fit keeps the planet within its area, its id and its recorded costs |
| `Placement.MatchesExpertise` | simulation/production_planner.py:675-680 | the loop answers whether the planet already holds a building of the same expertise |
| `Placement.FirstExisting` | simulation/production_planner.py:672-697 | step 1's answer from a position on is a recommended planet there or later, of matching expertise and with room |
| `Placement.FindExisting` | simulation/production_planner.py:672-697 | the loop over the recommended planets returns step 1's answer and the units that fit on the planet found |
| `Placement.FirstExistingNone` | simulation/production_planner.py:672-697 | step 1 finds nothing only when no recommended planet has matching expertise and room |
| `Placement.FirstExistingLeast` | simulation/production_planner.py:693-697 | step 1 takes the first recommended planet, in map order, of matching expertise with room |
| `Placement.CheckPlacementSuitable` | simulation/production_planner.py:705-751 | the placement loop's own suitability test, program and resource loops included |
| `Placement.AddEntryValid` | simulation/production_planner.py:753-768 | a new empty entry for a known planet without one keeps the plan valid and only extends it |
| `Placement.NewFrom` | simulation/production_planner.py:699-788 | step 2 from a shuffled position on: a chosen entry is in the plan with a positive fit, and that fit is the units that fit there |
| `Placement.FindNew` | simulation/production_planner.py:699-788 | the loop over the shuffled planets returns step 2's answer: the plan with the entries it added, the entry chosen, its fit and the ids drawn; the plan stays valid and only gains empty entries |
| `Placement.VisitPlanet` | simulation/production_planner.py:705-788 | one pass of that loop either chooses the planet, giving step 2's answer, or leaves step 2's answer to the rest of the shuffle |
| `Placement.NewFromGrows` | simulation/production_planner.py:757-768 | step 2 only appends empty entries to the plan |
| `Placement.PlanCostGrew` | simulation/production_planner.py:757-768 | new empty entries leave the cost of the plan unchanged |
| `Placement.NewFromKeepsNoRoom` | simulation/production_planner.py:757-788 | step 2 never gives room to an entry that had none |
| `Placement.NewFromVisited` | simulation/production_planner.py:757-771 | a suitable planet visited by step 2 has its entry in the plan afterwards |
| `Placement.NewFromNone` | simulation/production_planner.py:705-790 | step 2 finds nothing only when every suitable planet of the shuffle has an entry without room |
| `Placement.NewFromFirst` | simulation/production_planner.py:784-788 | step 2 chooses the first suitable planet of the shuffle whose entry has room: every suitable planet before it is full |
| `Placement.ShuffledCovers` | simulation/production_planner.py:702-703 | `random.shuffle` loses no planet: every planet is in the shuffled list |
| `Placement.PermutationOnto` | simulation/production_planner.py:703 | a permutation of n positions names each of them |
| `Placement.PrefixImageSize` | simulation/production_planner.py:703 | the first m entries of a permutation are m distinct positions |
| `Placement.AccumulateWorkforce` | simulation/production_planner.py:818-823 | the requirement loop adds each workforce need times the units placed to the planet's demand |
| `Placement.Choose` | simulation/production_planner.py:666-792 | one placement step's choice: step 1 when it finds a planet, else step 2 over a fresh shuffle; a chosen entry has a positive fit that is the units that fit there |
| `Placement.ChoosePlanet` | simulation/production_planner.py:666-792 | the two steps compute that choice, with the shuffles drawn; the plan stays valid and only gains empty entries |
| `Placement.ChooseGrows` | simulation/production_planner.py:666-792 | a placement step only appends empty entries to the plan |
| `Placement.ChoosePrefersExisting` | simulation/production_planner.py:671-700 | step 1 takes precedence: when a recommended planet of the expertise has room, the first such is chosen, nothing is shuffled and the plan is unchanged |
| `Placement.ChooseFirstFit` | simulation/production_planner.py:699-788 | without a step-1 planet, the step draws one shuffle and takes its first suitable planet with room |
| `Placement.ChooseNone` | simulation/production_planner.py:790-792 | a step finds no planet only after a shuffle in which the building is stuck: no recommended planet of its expertise has room and every suitable shuffled planet is full |
| `Placement.StuckEverywhere` | simulation/production_planner.py:702-790 | a stuck building has no room on any known planet that suits it, shuffled or not |
| `Placement.Place` | simulation/production_planner.py:662-831 | the `while remaining > 0` loop as a function; its properties are `PlaceTotal` and `PlaceStuck` |
| `Placement.PlaceByChoice` | simulation/production_planner.py:790-830 | one turn of that loop: stop with the rest unplaced when no planet is found, else place min(remaining, fit) units and go on with the rest |
| `Placement.PlaceTemplate` | simulation/production_planner.py:660-831 | the loop returns that function's plan, shuffles, ids and unplaced units for `amount * sets`; the plan stays valid and the running total is its cost |
| `Placement.PlaceOnce` | simulation/production_planner.py:662-831 | one turn of the loop stops exactly as that function does, or places units and leaves less to place |
| `Placement.PlaceUnitsAdds` | simulation/production_planner.py:795-813 | recording units on an entry adds exactly those units to the plan |
| `Placement.TotalUnitsGrew` | simulation/production_planner.py:757-768 | new empty entries add no units |
| `Placement.PlaceTotal` | simulation/production_planner.py:660-831 | every unit asked for is placed or left unplaced: placed plus unplaced is the units asked for, when positive |
| `Placement.PlaceStuck` | simulation/production_planner.py:790-792 | units stay unplaced only when the last step drew a shuffle in which the building is stuck |
| `Placement.PlaceStep` | simulation/production_planner.py:795-831 | one step records the units on the chosen planet and adds their cost to the planet and the total |
| `Placement.PlaceChain` | simulation/production_planner.py:654-831 | the loop over the chain buildings returns the plan of the whole placement; the plan is valid and the running total is its cost |
| `Placement.PlaceChainStep` | simulation/production_planner.py:654-831 | one chain building placed `amount * sets` times extends the placement by one chain building |
| `Placement.PlacePrefixTotal` | simulation/production_planner.py:654-831 | the units placed over the first n chain buildings plus those left unplaced are the units they ask for |
| `Placement.PlaceAll` | simulation/production_planner.py:654-831 | no contract of its own; the placement of every chain building in turn; `PlaceAllTotal` states its accounting and `PlaceChain` is proved equal to it |
| `Placement.PlaceAllTotal` | simulation/production_planner.py:654-831 | the whole placement puts every unit of every chain building on some planet, except the units left unplaced; with none left, every unit is placed |
| `Housing.TypeCapacityPositive` | simulation/production_planner.py:878-883 | a housing building's capacity for a type is positive exactly when one of its entries houses that type |
| `Housing.Candidates` | simulation/production_planner.py:872-904 | every housing candidate has a positive capacity |
| `Housing.CandidatesFromTable` | simulation/production_planner.py:872-904 | each candidate is a defined housing building with its capacity for the type, its build cost per worker and its area per worker |
| `Housing.TableEntryIsCandidate` | simulation/production_planner.py:872-904 | every defined housing building that houses the type is a candidate |
| `Housing.FirstMinimum` | simulation/production_planner.py:906-914 | the head of the stable sort has the least key (cost or area per worker by goal) and comes first among those with it |
| `Housing.CountFor` | simulation/production_planner.py:921-922 | `max(1, int(need / per_unit + 0.99))` is at least 1; `CountForCovers` states how much it covers |
| `Housing.CountForCovers` | simulation/production_planner.py:921-922 | at least one housing unit, and together they cover the demand short of at most a hundredth of one unit's capacity |
| `Housing.HousingFrom` | simulation/production_planner.py:866-956 | a housing recommendation, when there is one, names the planet and site it is for |
| `Housing.HousingFromSound` | simulation/production_planner.py:866-956 | no housing for a non-positive demand or no candidate; otherwise a least-key candidate with enough units |
| `Housing.HousePlanet` | simulation/production_planner.py:941-956 | no contract of its own; one planet with its housing appended and its cost added; `HousePlanetKeeps` and `HousingAddedOnSite` state what changes |
| `Housing.HousePlanetKeeps` | simulation/production_planner.py:941-956 | housing is appended: the planet's placed buildings, id, site and workforce stay as they were |
| `Housing.HousingAddedOnSite` | simulation/production_planner.py:947-956 | each planned housing building sits on the planet and its site, with at least one unit, at most one per workforce type |
| `Housing.ComputeTypeCapacity` | simulation/production_planner.py:878-881 | the capacity loop adds the positive capacities for the type |
| `Housing.CollectCandidates` | simulation/production_planner.py:872-904 | the loop over the housing table builds the candidates in table order |
| `Housing.ChooseCandidate` | simulation/production_planner.py:906-914 | picking the first of the stably sorted candidates |
| `Housing.HousingStep` | simulation/production_planner.py:861-956 | the housing decision for one workforce type, with its unit count and price |
| `Housing.HouseOneType` | simulation/production_planner.py:861-956 | one workforce entry: the housing planned for it, if any, is appended to the planet's housing and its cost added, so the list is the housing of every entry up to this one |
| `Housing.HouseOnePlanet` | simulation/production_planner.py:858-958 | the loop over one planet's workforce demand appends the planned housing and adds its cost |
| `Housing.HouseNextPlanet` | simulation/production_planner.py:858-958 | one planet: it is housed, and the running total changes by exactly the housing cost added to that planet |
| `Housing.PlanHousing` | simulation/production_planner.py:858-959 | the housing pass houses every recommended planet in order and adds the housing cost to the total |
| `Housing.Permits` | simulation/production_planner.py:974-993 | the extra permits are between 0 and the maximum |
| `Housing.PermitsBounds` | simulation/production_planner.py:974-993 | between zero and MAX_ADDITIONAL_PERMITS permits, and none while the site fits the base area |
| `Housing.PermitsTable` | simulation/production_planner.py:984-992 | zero permits below 502.5 area, one up to 752.5, two beyond: the `+ 0.99` rounding is short of a ceiling |
| `Housing.PlacedSiteWithinPermits` | simulation/production_planner.py:976-981 | a site holding only buildings placed under the area bound never takes the over-capacity branch |
| `Housing.ComputeSiteArea` | simulation/production_planner.py:966-972 | the site's area is the base cost plus units times area of every defined building |
| `Housing.WithPermits` | simulation/production_planner.py:974-997 | the permit pass on one planet changes only its total cost, by between nothing and the fee for the maximum of additional permits |
| `Housing.ApplyPermits` | simulation/production_planner.py:965-999 | the permit pass adds each planet's permit fee to it and to the total |
| `Simulation.ChainSetsCoverGap` | simulation/production_planner.py:648-650 | the chain is built in at least one set, enough to close the gap short of a hundredth of one set's output |
| `Simulation.PassesKeepIds` | simulation/production_planner.py:1003 | the housing and permit passes keep the recommended planets' ids distinct |
| `Simulation.RatePerBuilding` | simulation/production_planner.py:631-645 | (no contract of its own) the top-level rate: the output amount over the duration, times a day, or 0 without a recipe or duration |
| `Simulation.RunSimulation` | simulation/production_planner.py:583-1017 | the recommendation carries the current production and gap; nothing when the target is met; the planets placed are exactly the whole placement of the chain in `CountFor(gap, rate)` sets when the gap is positive, the resolver says PRODUCE and the rate is positive, and none otherwise; then housing and permits, distinct ids, and a total that is the sum of the planets' costs |
| `Reconcile.ChangedFields` | db_message_handlers/planet_data.py:8-17 | every entry of the diff is an entry of the new dict |
| `Reconcile.GetChangedFields` | db_message_handlers/planet_data.py:13-17 | the loop over the new dict's items computes the diff |
| `Reconcile.ChangedFieldsSpec` | db_message_handlers/planet_data.py:8-17 | a key is in the diff exactly when the new dict has it with a value different from `existing.get(key)`, and it carries the new value |
| `Reconcile.NoChanges` | db_message_handlers/planet_data.py:14-16 | the diff is empty exactly when every new value equals the existing one |
| `Reconcile.UnchangedAgainstItself` | db_message_handlers/planet_data.py:8-17 | a dict compared with itself has no changed fields |
| `Reconcile.UserIdOf` | db_message_handlers/storage_data.py:35-40 | a user row yields its `userdataid` when that is not None, else its `xata_id`; no user row yields nothing |
| `Reconcile.Values` | db_message_handlers/planet_data.py:54 | `dict.values()` lists the values in key order |
| `Reconcile.KeyFirstUpdate` | db_message_handlers/planet_data.py:108-111 | the placeholders of a nested UPDATE: each changed key is set from an argument after the key values, each key column is matched against its key value |
| `Reconcile.AssignedColumns` | db_message_handlers/planet_data.py:108 | an UPDATE sets exactly the columns of its changed data |
| `Reconcile.KeyLastUpdate` | db_message_handlers/storage_data.py:170-176 | an UPDATE with the key value last: each key is set from its own argument and the WHERE placeholder is the last argument, holding the key |
| `Reconcile.WriteOf` | db_message_handlers/planet_data.py:48-63 | no stored row means an insert of the whole row; a stored row is unchanged exactly when the diff is empty, and an update is addressed to the key in `$1` |
| `Reconcile.WriteRow` | db_message_handlers/planet_data.py:48-63 | the insert-or-update step computes that write |
| `Reconcile.UpdateColumns` | db_message_handlers/planet_data.py:49-54 | an update sets exactly the fields whose value differs from the stored row's |
| `Reconcile.UnchangedIff` | db_message_handlers/planet_data.py:56-57 | a row is reported unchanged exactly when a stored row exists and agrees with every field |
| `Reconcile.KeyOf` | db_message_handlers/planet_data.py:88 | the record key is the tuple of `rec.get(k)` over the key fields |
| `PlanetHandler.KeyFields` | db_message_handlers/planet_data.py:70-77 | each known nested table has its two key columns, planetid first; any other table has none |
| `PlanetHandler.KeyedRows` | db_message_handlers/planet_data.py:79-82 | each fetched row is paired with its key tuple |
| `PlanetHandler.Stored` | db_message_handlers/planet_data.py:79-82 | the dict comprehension keeps, for each key, the last fetched row with it; a key no row has is absent |
| `PlanetHandler.StoredFound` | db_message_handlers/planet_data.py:79-82 | every key some fetched row has is in the dict |
| `PlanetHandler.NestedInserts` | db_message_handlers/planet_data.py:94-95 | the records to insert are exactly the records whose key is not stored, in order |
| `PlanetHandler.NestedUpdates` | db_message_handlers/planet_data.py:89-93 | one UPDATE per record whose key is stored and whose fields changed, addressed by its key and setting at least one column |
| `PlanetHandler.PlanTable` | db_message_handlers/planet_data.py:84-95 | the loop over one table's records builds its inserts and updates |
| `PlanetHandler.NestedPlaced` | db_message_handlers/planet_data.py:87-95 | a record with a new key is inserted; one with a stored key and changed fields is an UPDATE of exactly those fields |
| `PlanetHandler.NestedCounts` | db_message_handlers/planet_data.py:87-95 | each record is inserted, updated or kept, exactly one of them, so the counts add up to the records |
| `PlanetHandler.TablePlanOf` | db_message_handlers/planet_data.py:66-77 | a table is written exactly when its list in the message is non-empty and the table has key fields, and the plan is for that table |
| `PlanetHandler.TablePlans` | db_message_handlers/planet_data.py:66-68 | the loop yields at most one plan per nested table it visits |
| `PlanetHandler.PlanTables` | db_message_handlers/planet_data.py:66-113 | the loop over the nested tables computes their plans |
| `PlanetHandler.HandlePlanetData` | db_message_handlers/planet_data.py:19-121 | an invalid planet is a failure with no writes; otherwise the planet row's write and the nested tables' plans |
| `PlanetHandler.PlannedFrom` | db_message_handlers/planet_data.py:66-68 | every table written is visited and planned from its own records |
| `PlanetHandler.PlannedTables` | db_message_handlers/planet_data.py:33-37 | the tables written are among planet_resources, planet_build_options and planet_projects, each from its own payload list |
| `StorageHandler.FieldPairs` | db_message_handlers/storage_data.py:139 | the query's rows become (key, value) pairs, one per row, in order |
| `StorageHandler.StampFields` | db_message_handlers/storage_data.py:127-129 | a stamped item holds the composite key `storageid-materialid` and the storage id, and every other field as it was |
| `StorageHandler.StampedEntries` | db_message_handlers/storage_data.py:124-130 | one entry per item with a truthy `materialid`, in order |
| `StorageHandler.StampedEntryFrom` | db_message_handlers/storage_data.py:125-130 | every entry comes from an item with a truthy `materialid`, stamped, under its composite key |
| `StorageHandler.StampedEntryOf` | db_message_handlers/storage_data.py:125-130 | no item with a truthy `materialid` is dropped |
| `StorageHandler.StampedLast` | db_message_handlers/storage_data.py:126-130 | the last item, when its `materialid` is truthy, is stored stamped |
| `StorageHandler.BuildItemsMap` | db_message_handlers/storage_data.py:123-130 | the loop fills the items map with the last stamped item per composite key |
| `StorageHandler.ItemsMapLast` | db_message_handlers/storage_data.py:130 | the map holds, for each composite key, the last item stored under it, and no other entry |
| `StorageHandler.SplitKeys` | db_message_handlers/storage_data.py:141-143 | insert, update and delete keys are the set differences and intersection: pairwise disjoint, together every key of either side |
| `StorageHandler.ItemUpdate` | db_message_handlers/storage_data.py:165-176 | an item UPDATE sets every column but compositekey, storageid and xata_id, and addresses the row by the composite key in the last placeholder |
| `StorageHandler.ItemUpdateColumns` | db_message_handlers/storage_data.py:165-169 | an item UPDATE sets only columns of the item, none of the three excluded ones |
| `StorageHandler.ItemSyncOf` | db_message_handlers/storage_data.py:116-186 | (no contract of its own) the item sync as a function; `SyncStorageItems` is proved equal to it |
| `StorageHandler.SyncStorageItems` | db_message_handlers/storage_data.py:116-186 | the sync yields the stamped inserts, the updates and the stale ids to delete |
| `StorageHandler.MapEntryFields` | db_message_handlers/storage_data.py:127-130 | every map entry holds its own composite key and the storage id |
| `StorageHandler.InsertedItemsAreNew` | db_message_handlers/storage_data.py:141-145 | an inserted item carries the storage id and a composite key the database lacks |
| `StorageHandler.LastItemPlaced` | db_message_handlers/storage_data.py:141-146 | the last incoming item for each key is inserted when the database lacks the key and updated when it holds it |
| `StorageHandler.DeletedIdsAreStale` | db_message_handlers/storage_data.py:143-147 | every deleted id is the `xata_id` of a stored item whose key is no longer incoming |
| `StorageHandler.StaleItemsDeleted` | db_message_handlers/storage_data.py:143-147 | every stored item whose key is no longer incoming has its `xata_id` deleted |
| `StorageHandler.StorageRowFields` | db_message_handlers/storage_data.py:63-67 | the written copy lacks `storage_items`, holds the user id and keeps every other field |
| `StorageHandler.StorageIds` | db_message_handlers/storage_data.py:42 | the ids collected are the truthy `storageid`s, in order |
| `StorageHandler.StorageSplitCounts` | db_message_handlers/storage_data.py:58-73 | every record with a truthy id is inserted or updated, never both; the others are skipped |
| `StorageHandler.StoragePlaced` | db_message_handlers/storage_data.py:69-73 | a new id goes among the inserts; a known id among the updates, carrying the stored `xata_id` |
| `StorageHandler.InsertedStoragesAreNew` | db_message_handlers/storage_data.py:69-70 | an inserted row keeps its truthy `storageid`, which the database lacks |
| `StorageHandler.StorageUpdateOf` | db_message_handlers/storage_data.py:88-93 | a storage UPDATE is addressed by `xata_id = $1`, with the other fields from `$2` on |
| `StorageHandler.StorageUpdateColumns` | db_message_handlers/storage_data.py:89-91 | a storage UPDATE never sets `storageid`; it sets the other columns of the row |
| `StorageHandler.StorageUpdateStatements` | db_message_handlers/storage_data.py:88-93 | the loop builds one UPDATE per record to update |
| `StorageHandler.StorageSyncs` | db_message_handlers/storage_data.py:96-101 | one item sync per record with a truthy id, over its `storage_items` or none |
| `StorageHandler.SyncAll` | db_message_handlers/storage_data.py:96-101 | the loop over the records runs those syncs |
| `StorageHandler.SplitStorages` | db_message_handlers/storage_data.py:55-73 | the split loop computes the inserts and updates |
| `StorageHandler.StorageOutcomeOf` | db_message_handlers/storage_data.py:13-109 | nothing to process exactly when `storages` is falsy; user not found exactly when it is truthy and no user row is found |
| `StorageHandler.HandleStorageData` | db_message_handlers/storage_data.py:13-109 | the handler yields the early result, or the storage writes and the item syncs |
| `StorageHandler.EarlyResults` | db_message_handlers/storage_data.py:25-44 | no records is a success with no work; a missing user, then a payload without one truthy `storageid`, are failures |
| `StorageHandler.StorageIdsEmpty` | db_message_handlers/storage_data.py:42-44 | no id is collected exactly when no record has a truthy `storageid` |
| `SitesHandler.ChunksSpec` | db_message_handlers/sites_data.py:263-265 | the chunks give back the records in order, each holds between 1 and the chunk size, and all but the last hold exactly the chunk size |
| `SitesHandler.Chunks` | db_message_handlers/sites_data.py:263-264 | the loop over `range(0, len(records), chunk_size)` slices the records into those chunks |
| `SitesHandler.ClauseFor` | db_message_handlers/sites_data.py:244-249 | `capacity` and `amount` are only assigned when distinct from the stored value; any other column is assigned unconditionally |
| `SitesHandler.SetClausesOf` | db_message_handlers/sites_data.py:240-249 | each SET entry names a column of the first record that is not a conflict key, and is conditional exactly for capacity and amount |
| `SitesHandler.SetClausesComplete` | db_message_handlers/sites_data.py:242-243 | every column that is not a conflict key gets its SET entry |
| `SitesHandler.NoSetClauses` | db_message_handlers/sites_data.py:255-258 | there is no SET entry, hence DO NOTHING, exactly when every column is a conflict key |
| `SitesHandler.SetClauses` | db_message_handlers/sites_data.py:240-249 | the loop over the columns builds those entries |
| `SitesHandler.UpsertOf` | db_message_handlers/sites_data.py:231-260 | no statement for no records; otherwise the columns are the first record's keys and the conflict target the unique fields |
| `SitesHandler.UpsertRecords` | db_message_handlers/sites_data.py:219-271 | the helper computes that upsert with its chunks |
| `SitesHandler.UpsertSpec` | db_message_handlers/sites_data.py:231-267 | every record is sent once and in order, in batches of at most the chunk size; on conflict every non-key column is updated, or nothing when there is none |
| `SitesHandler.DeletionOf` | db_message_handlers/sites_data.py:284-302 | no deletion without platform ids or when no stored key is missing from the payload; otherwise exactly the stored keys the payload lacks |
| `SitesHandler.PayloadKeyKept` | db_message_handlers/sites_data.py:296-299 | the key of a payload record is never deleted |
| `SitesHandler.CleanRows` | db_message_handlers/sites_data.py:122-126 | one cleaned copy per record, in order |
| `SitesHandler.CleanRowFields` | db_message_handlers/sites_data.py:123-125 | a cleaned copy lacks every popped key and keeps every other field |
| `SitesHandler.CleanRecords` | db_message_handlers/sites_data.py:121-126 | the loop collects the cleaned copies |
| `SitesHandler.ListsOf` | db_message_handlers/sites_data.py:137-148 | one contribution per row: its nested list when its id is truthy, nothing otherwise |
| `SitesHandler.GatheredFrom` | db_message_handlers/sites_data.py:137-148 | every gathered record belongs to the list of a row whose id is truthy |
| `SitesHandler.GatheredAll` | db_message_handlers/sites_data.py:137-148 | the list of every row with a truthy id is gathered whole |
| `SitesHandler.GatherLists` | db_message_handlers/sites_data.py:180-191 | the loop extends the two lists with those of each row with a truthy id |
| `SitesHandler.PlatformRecords` | db_message_handlers/sites_data.py:150-156 | every platform's id, None included, and its row without the two material lists |
| `SitesHandler.NestedPlanOf` | db_message_handlers/sites_data.py:102-212 | the nested writes: one building row per option, one platform row per platform, and the four upserts |
| `SitesHandler.ScheduledOf` | db_message_handlers/sites_data.py:121-197 | the buildings insert exists when `gather` is called exactly when the site has a `building_options` key and some option |
| `SitesHandler.NestedOutcomeOf` | db_message_handlers/sites_data.py:121-197 | the nested pass writes only when the site has options and platforms, and then writes at least one building and one platform row; a raise leaves a scheduled buildings insert exactly when there are options and no platforms |
| `SitesHandler.HandleNestedData` | db_message_handlers/sites_data.py:102-212 | the nested pass raises when `building_options` is missing (`KeyError`) or the options or platforms are empty (`asyncio.gather` of a None task), with the buildings insert already scheduled when only the platforms are empty; otherwise it yields the building and platform rows, the four upserts and the platform-material deletion |
| `SitesHandler.SiteRowFields` | db_message_handlers/sites_data.py:57-71 | the sites row holds the user id, keeps every other field and has no nested list |
| `SitesHandler.Candidates` | db_message_handlers/sites_data.py:55-98 | each site's would-be result carries its id and its row's write |
| `SitesHandler.HasSiteId` | db_message_handlers/sites_data.py:58-60 | the sites processed are those with a truthy `siteid` |
| `SitesHandler.SiteStatus` | db_message_handlers/sites_data.py:73-95 | updated exactly when a stored row exists and a field differs; unchanged exactly when one exists and all agree; inserted exactly when none exists |
| `SitesHandler.ResultsPerSite` | db_message_handlers/sites_data.py:55-60 | every result is that of a site with a truthy id |
| `SitesHandler.SiteReported` | db_message_handlers/sites_data.py:55-95 | every site with a truthy id has its result |
| `SitesHandler.ProcessSite` | db_message_handlers/sites_data.py:56-98 | one site with a truthy id fails exactly when its nested pass raises, and then reports its `sites` row write and the scheduled buildings insert; otherwise its row write and nested writes |
| `SitesHandler.SiteStep` | db_message_handlers/sites_data.py:55-98 | one pass of the site loop skips a site without an id, stops with that site's writes when it raises, and otherwise adds its result |
| `SitesHandler.FirstSet` | db_message_handlers/sites_data.py:55-98 | the first raising site: it raises and no site before it does, or no site raises |
| `SitesHandler.SiteResultsPrefix` | db_message_handlers/sites_data.py:55-98 | the results of the first j sites are the loop's results after j passes |
| `SitesHandler.ProcessSites` | db_message_handlers/sites_data.py:53-98 | the loop over the sites stops at the first site that raises; it reports the results of the sites before it and what that site wrote, or, when none raises, all results in order |
| `SitesHandler.SitesOutcomeOf` | db_message_handlers/sites_data.py:33-100 | no sites exactly when the list is empty; user not found exactly when the list is non-empty and no user row is found |
| `SitesHandler.ProcessAllSiteData` | db_message_handlers/sites_data.py:33-100 | an empty list and a missing user are failures; a site that raises fails the message, which keeps the writes made before the raise; otherwise the per-site results |
| `SitesHandler.SitesRaiseWhen` | db_message_handlers/sites_data.py:25-100 | the message raises exactly when it has sites and a user and some site with a truthy id raises in its nested pass |
| `SitesHandler.SitesRaiseAt` | db_message_handlers/sites_data.py:55-98 | a failed message fails at the first site that raises, and that site's `sites` row write was made as for a site that does not raise |
| `SitesHandler.SitesRaiseCommits` | db_message_handlers/sites_data.py:25-98 | a failed message keeps the result of every site with a truthy id before the first raising one: the handler's transaction covers none of the statements |
| `SitesHandler.ProcessedSitesWrite` | db_message_handlers/sites_data.py:128-177 | every site of a processed message wrote at least one building option and one platform |
| `PyValues.GetOr` | db_message_handlers/sites_data.py:142 | `d.get(k, default)` is the default when the dict lacks the key |
| `PyValues.GetAt` | db_message_handlers/planet_data.py:15 | in a dict with distinct keys, the value stored at each position is what `d.get` finds for its key |
| `PyValues.Put` | db_message_handlers/planet_data.py:16 | `d[k] = v` keeps an existing key in its place and appends a new one |
| `PyValues.PutGet` | db_message_handlers/planet_data.py:16 | after `d[k] = v` the key reads v and every other key reads as before |
| `PyValues.Remove` | db_message_handlers/sites_data.py:70 | `pop(k, None)` drops the key and keeps the other entries in order |
| `PyValues.RemoveGet` | db_message_handlers/sites_data.py:70-71 | popping a key leaves every other key's value as it was |
| `PyValues.RemoveAll` | db_message_handlers/sites_data.py:123-125 | popping several keys leaves none of them and keeps the other entries |
| `PyValues.RemoveAllGet` | db_message_handlers/sites_data.py:123-125 | every kept key reads as before |
| `PyValues.DictRows` | db_message_handlers/sites_data.py:122 | a loop over a list of dicts visits one dict per element |
| `KeyedLists.PutAllLast` | db_message_handlers/storage_data.py:130 | filling a dict keeps, for every key, the last value written under it, and nothing else |
| `KeyedLists.PutEach` | db_message_handlers/storage_data.py:124-130 | the loop `d[key(x)] = x` over the items computes that dict |
| `KeyedLists.LastKeyed` | db_message_handlers/storage_data.py:52 | `{k: v for k, v in pairs}` reads, at a key, the value of the last pair with it |
| `KeyedLists.LastKeyedFound` | db_message_handlers/storage_data.py:52-53 | every key of some pair is in the dict |

## Left out

- CostResolver.Resolve: every `random.choice` of the planet selector for the recipe at position k among the candidates takes the draw `env.choose(k)`, whatever the material and the depth. Python draws afresh on each call (`simulation/production_planner.py:342`, 346, reached through 431), so runs in which two selections at the same position choose differently are not represented.
- CostResolver.ResolveCost: the same shared draw, since it is proved equal to `Resolve`.
- CostResolver.EvaluateRecipe: the same shared draw `c.env.choose(k)` for the recipe at position k.
- CostResolver.Decide: the BUY result of an intermediate material has the planet None, where `simulation/production_planner.py:562` returns the empty list `[]`. Both are falsy, and the only reader of an intermediate's planet (line 470) tests nothing but its truth.
- The clock (`time.time()`), `random.choice`, `random.shuffle` and `uuid4` are not modelled. They are `Env` inputs. A shuffle is an index list, and it falls back to catalogue order when it is not a permutation.
- The text of `simulation_log`, and every `logger` call, are left out. They are diagnostics only.
- Floating point is left out. Rates, costs and areas are exact reals, so IEEE rounding of `0.90`, `+ 0.99` and the rate divisions is not captured.
- `NumberFormat.FormatPrice`: its own contract states only the "N/A ICA" case. The whole-number case is `PriceOfWhole`. The fractional `f"{price:,.2f}"` branch is returned unevaluated, as float formatting.
- DataLoader.RecipeOfFields: a `TimeMs` present as null reads as 0. `recipe_data.get('TimeMs', 0)` at `simulation/data_loader.py:170` keeps None there, and the duration arithmetic that follows would raise.
- DataLoader.RecipeOf: the same point. Its `timeMs.UnwrapOr(0)` gives 0 for a null `TimeMs`, where the Python `get('TimeMs', 0)` gives None.
- PyStrings.ParseInt: accepts ASCII digits only. Python `int()` also accepts the other Unicode decimal digits (`simulation/data_loader.py:41`, 52).
- `datetime.fromtimestamp` is not modelled. A converted timestamp is kept as the milliseconds it came from.
- Only the shape dispatch of `convert_ships_data` is modelled, not the ship rows it then builds.
- Python's `lower` and `upper` are modelled on ASCII letters only; other letters keep their case. `strip` removes Python's whitespace characters.
- Python `==` on JSON values is `Same`: numbers compare by value, `True == 1`, and dicts ignore key order. The keys of a `set` or dict are compared with Dafny equality. So `True` and `1` are two keys here but one key in Python; JSON payload ids are not mixed that way.
- A Python `set` is iterated in hash order. Here it is iterated in list order: the producing buildings in `_get_material_production_category`, and the insert/update keys of `sync_storage_items`. The properties stated hold for every order.
- Nothing is executed against a database. Query results are inputs, so a row listed twice in one payload is checked against the state before the run, not against the first copy's write.
- The SQL text, `executemany` and transactions are not modelled. The buildings and platforms INSERT statements are modelled by the rows they send.
- Exceptions are modelled only in the sites handler, as its `NestedRaises` and `SitesRaise` outcomes:
  - a site without `building_options` raises a `KeyError` (`db_message_handlers/sites_data.py:121-122`);
  - a site with no options or no platforms raises from `asyncio.gather` of a None task (lines 194-197).
  The statements run outside the handler's transaction, so the writes made before the raise stay: the results of the earlier sites, the failing site's `sites` row write, and an insert `gather` had already scheduled (`SitesRaise`).
- SitesHandler.NestedOutcomeOf: a buildings insert that `asyncio.gather` scheduled before it raised is reported as left behind; whether the event loop runs it to completion is not modelled.
- Other payloads that would raise in Python are read as None or as empty values:
  - a platform-material record without one of the key fields (`rec[field]` at line 296) has None in that position;
  - a list element that is not a dict reads as the empty dict.
- The handlers take the converted payload as a well-formed value: dict keys are distinct. Ids are compared as values; the `str()` of an id is not modelled.
- The loader's constructor calls that do not match their dataclasses (`simulation/data_loader.py` lines 128-131 and 150-153) are modelled as the records they evidently build.
- The loader passes `static_building_costs={}` to the planner. The planner takes building costs as an input, and `NoMarketNoCost` states what it computes without market data.
- `RESOURCE_TYPE_TO_BUILDING_TICKER` is not used by the code, and is not modelled. The literal "RIG"/"EXT"/"COL" tests are.
- `overall_total_additional_workforce_demand` is filled but never read by `run_simulation`. Only the per-planet demand is modelled.
- The top-level BUY branch of `run_simulation` (`simulation/production_planner.py:836-839`) is not modelled separately. The final material is resolved with `is_final_material=True` at depth 0, so that call never yields BUY (`ResolveDecision`). The branch cannot run.
- The JSON file reading of the loader, the FastAPI app, the scheduler, the Discord bot, authentication, configuration and the other database handlers are I/O. None of them is part of this model.
