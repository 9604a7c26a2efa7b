# ZonaCounter ledger and command line, in Dafny

ZonaCounter is a command-line purchase tally. It keeps a small ledger in a JSON file. The ledger is an ordered list of products, each with a running count, a running cost and a standing unit price, plus the name of a default product. Every run loads the ledger, reads the command line, changes the ledger, and then saves it or not.

This project models that logic and proves properties about it:

- `wrappers.dfy`, module `Wrappers`: `Option` (the program's `null`) and `Result` (a value, or the exception a step throws).
- `ledger.dfy`, module `Ledger`, from `ZonaData.cs`:
  - the `Product` datatype and the `ZonaData` class, with fields `products: seq<Product>` and `defaultProduct`; its methods `IncrementProduct` and `ChangePrice` update `products` in place and leave `defaultProduct` alone, which only `default_product` (in `HandleCommands`) sets;
  - pure specifications of lookup (`FindProduct`), the two sums, increment (`Incremented`) and repricing (`Repriced`), with lemmas about them.
- `cli.dfy`, module `Cli`, from `Program.cs`:
  - the pure decision `Dispatch` from arguments to an `Action` or an `Error`;
  - its effect on the ledger, `Apply`, and whether the path saves, `EffectOf`;
  - one whole run, `Run`, from the stored file's content to the exit code and what happens to the file;
  - the imperative `HandleCommands`, `HandleArguments` and `Execute` methods, which act on a `ZonaData` object and are proved equal to those functions.

Costs and prices are exact `real`s. The literal sentinel is kept: a cost of `-1` means "charge the standing price" (`UseStandingPrice`). The number parsers of the .NET runtime are passed in as a `NumberFormat` parameter (two total functions returning `Option`), so every property holds for any parser, except the four walk-through lemmas (`FirstPurchaseSetsPrice` to `ThirdPurchaseUsesNewPrice`). Those require `ReadsExampleNumbers(nf)`, which says the parsers read the few literals they use.

Two behaviours of the code worth knowing:

- `ChangePrice` on an unknown name builds a fallback product, sets its price and never adds it to the list (`ZonaData.cs:57`). Repricing an unknown name therefore changes nothing. A later purchase of that name is still charged the 0.99 default, as `RepriceEffect` states.
- `stats` breaks out of the switch and reaches `Save` (`Program.cs:76-78`, `Program.cs:108`), so it saves the ledger unchanged.

## Model

| member | source | states |
|---|---|---|
| `Ledger.FindProduct` | ZonaCounter/ZonaData.cs:29 | returns the first index whose name matches exactly (case-sensitive); returns None exactly when no product has that name |
| `Ledger.SumBounds` | ZonaCounter/ZonaData.cs:23-24 | `SumCount` and `SumCost` (which carry no contract of their own; this lemma, `SumsOfAppend` and `SumsOfUpdate` state their properties) are nonnegative when every entry is, and each then bounds every single product's count or cost |
| `Ledger.SumsOfAppend` | ZonaCounter/ZonaData.cs:23-24 | appending a product adds its count to `SumCount` and its cost to `SumCost` |
| `Ledger.SumsOfUpdate` | ZonaCounter/ZonaData.cs:23-24 | replacing one product changes each sum by the difference between old and new product |
| `Ledger.Incremented` | ZonaCounter/ZonaData.cs:27-52 | unseen name: exactly one product is appended, with the count, the charge, and price `cost` (0.99 when cost is -1), and the earlier products are kept; known name: the length is kept, count and charge are added to that product only, its name and unit price stay, and no other product changes |
| `Ledger.IncrementSums` | ZonaCounter/ZonaData.cs:27-52 | an increment adds exactly `count` to the total count, whatever its sign, and adds that purchase's charge (override price or standing price, times count) to the total cost |
| `Ledger.IncrementKeepsNames` | ZonaCounter/ZonaData.cs:29-41 | names keep their order, and `name` is appended only when it was absent; afterwards `name` is found at its old place or at the end; distinct names stay distinct |
| `Ledger.Repriced` | ZonaCounter/ZonaData.cs:55-59 | lengths, names, counts and costs are unchanged; a known name's first product takes the new price and every other product is kept; an unknown name leaves the products unchanged |
| `Ledger.RepriceEffect` | ZonaCounter/ZonaData.cs:55-59 | repricing keeps both sums and the names; a later purchase without a price is charged the new price if the name was known, and the 0.99 default if it was not |
| `Ledger.IncrementAllSums` | ZonaCounter/ZonaData.cs:23-52 | after any sequence of increments, the total count grows by the sum of the counts, and the total cost by the sum of the charges, each priced at call time; distinct names stay distinct |
| `Ledger.ZonaData.constructor` | ZonaCounter/ZonaData.cs:18-21 | a missing (null) product list becomes the empty list; the default product is "Ginseng and Honey" |
| `Ledger.ZonaData.IncrementProduct` | ZonaCounter/ZonaData.cs:27-52 | the new product list is `Incremented` of the old one and the default product is kept; the returned product is the one now stored under the name; the sums change by the count and the charge; distinct names stay distinct |
| `Ledger.ZonaData.ChangePrice` | ZonaCounter/ZonaData.cs:55-59 | the new product list is `Repriced` of the old one and the default product is kept; for an unknown name the list is unchanged |
| `Cli.Lower` | ZonaCounter/Program.cs:63 | keeps the length, turns each upper-case ASCII letter into its lower-case letter, and keeps every other character |
| `Cli.LowerIdempotent` | ZonaCounter/Program.cs:63 | lower-casing an already lower-cased word changes nothing |
| `Cli.CommandWord` | ZonaCounter/Program.cs:69-88 | each command's case label is one of the five command words |
| `Cli.IsCommandLine` | ZonaCounter/Program.cs:61-65 | the test that sends a run to the command switch, which holds only when there is a first argument; `Dispatch` and `HandleCommands` state what follows from it |
| `Cli.CommandOf` | ZonaCounter/Program.cs:63-105 | the command switch: fails with `UnknownCommand` exactly when the lower-cased word is not one of the five commands, and on success chooses the command whose word it is; it never fails with `UnknownArguments` |
| `Cli.PurchaseOf` | ZonaCounter/Program.cs:122-153 | the positional switch: always yields a purchase when it succeeds, fails with `UnknownArguments` exactly when there are four or more arguments, and otherwise can fail only on a number that does not parse |
| `Cli.Dispatch` | ZonaCounter/Program.cs:59-153 | each error holds exactly when its condition does: unknown command word, four or more positional arguments, a missing argument of `default_product` or `change_unit_price`, an unparseable count or price; a command is chosen exactly when the first argument is present and does not parse as an integer, and its word is the lower-cased first argument; commands read `args[1]`/`args[2]`; otherwise count (1 by default), name (the default product by default) and price (-1 by default) are read by position |
| `Cli.Apply` | ZonaCounter/Program.cs:79-87 | the ledger after an action: only `default_product` changes the default product name; only repricing and purchases change the products, and only a purchase can change the names; the total count grows by a purchase's count and by nothing else |
| `Cli.EffectOf` | ZonaCounter/Program.cs:69-108 | the file's fate: deleted exactly for `clear`, untouched exactly for `help`, and otherwise written with the ledger as the action left it (`stats` included) |
| `Cli.Loaded` | ZonaCounter/Program.cs:24-25 | a null document, or a document without a product list, gives the empty list; a missing default product name gives "Ginseng and Honey"; values present in the document are kept |
| `Cli.LoadReloaded` | ZonaCounter/Program.cs:24-25 | a definitional fact, following from `Loaded`'s contract and the definition of `Reloaded`: a ledger read back as a document with both fields present loads as itself |
| `Cli.Run` | ZonaCounter/Program.cs:9-42 | a malformed file gives exactly exit code -1 with the file untouched; the run crashes exactly when dispatch fails; the ledger is written exactly when dispatch succeeds and the word is not `clear` or `help`; the file is deleted exactly for `clear` |
| `Cli.StatsRun` | ZonaCounter/Program.cs:76-109 | `stats` saves the loaded ledger unchanged |
| `Cli.DefaultProductRun` | ZonaCounter/Program.cs:79-82 | `default_product <name>` saves the ledger with only the default product name changed |
| `Cli.ChangeUnitPriceRun` | ZonaCounter/Program.cs:83-87 | `change_unit_price <name> <price>` saves `Repriced` products with the sums, the names and the default product kept; an unknown name leaves the products unchanged |
| `Cli.PositionalRun` | ZonaCounter/Program.cs:122-153 | a positional run saves the ledger with one increment of `args[1]`, or of the default product when no name is given; the total count grows by exactly the count read, and the total cost by that purchase's charge |
| `Cli.CommandsIgnoreCase` | ZonaCounter/Program.cs:63-67 | a command line runs exactly as it would with its first word lower-cased |
| `Cli.ExplicitMinusOneIsStandingPrice` | ZonaCounter/Program.cs:142-148 | three positional arguments whose price parses as -1 run exactly like the same two arguments without a price |
| `Cli.FirstPurchaseSetsPrice` | ZonaCounter/Program.cs:142-148 | on the empty ledger, `3 "Sweet Tea" 1.50` saves one product with count 3, cost 4.50 and price 1.50 |
| `Cli.SecondPurchaseUsesStandingPrice` | ZonaCounter/Program.cs:135-141 | `2 "Sweet Tea"` then gives count 5 and cost 7.50, with the price unchanged |
| `Cli.RepricingKeepsTotals` | ZonaCounter/Program.cs:83-87 | `change_unit_price "Sweet Tea" 2.00` then changes only the price |
| `Cli.ThirdPurchaseUsesNewPrice` | ZonaCounter/Program.cs:135-141 | `1 "Sweet Tea"` then gives count 6 and cost 9.50 |
| `Cli.HandleCommands` | ZonaCounter/Program.cs:59-114 | returns None and changes nothing exactly when the first argument is absent or parses as an integer; fails exactly when dispatch fails, and then changes nothing; otherwise applies the command to the object and reports the file effect: deleted, untouched, or written with the new state |
| `Cli.HandleArguments` | ZonaCounter/Program.cs:122-153 | records the positional purchase on the object, or fails with the dispatch error and changes nothing |
| `Cli.Execute` | ZonaCounter/Program.cs:9-42 | the imperative entry point, which loads the ledger, falls back to a fresh ledger for a null document, handles a command or the positional arguments, and saves; its outcome equals `Run` |

## Left out

- File I/O is not modelled: opening the file (which creates it even on runs that then crash), `Save`'s truncate-and-write, and `clear`'s deletion of the file and its directory. It appears only as the `FileEffect` of a run.
- The JSON serialiser and deserialiser are library code and are not part of this model. `Stored` stands for what deserialising delivers. `Reloaded` assumes a saved ledger reads back unchanged, which the model cannot check.
- Explicit JSON nulls are not represented in `Stored`. A document holding `"DefaultProduct": null` would make a bare run add a product with a null name; a product whose name is null cannot be written either. Both names here are always strings.
- The text of `DisplayStats` and of the help message, and which paths print the report, are not modelled.
- The storage path and the operating-system detection (`GetStorageDirectory`, `GetStorageFileName`, `NotLinux`) depend on the environment and are left out.
- Number parsing (`int.TryParse`, `Convert.ToInt32`, `float.Parse`, `Convert.ToSingle`) is a `NumberFormat` parameter. The model does not assume that `TryParse` on the lower-cased word and `Convert.ToInt32` on the original word agree.
- Cli.Lower: only ASCII letters are lower-cased; the culture-dependent Unicode case mapping of `ToLower` is not modelled.
- Ledger.ZonaData.IncrementProduct: counts are unbounded integers, so the 32-bit wrap-around of `TotalCount += count`, and the overflow exception LINQ's integer `Sum` would throw, are not modelled.
- Ledger.SumCost: costs are exact reals, so single-precision rounding of costs and prices is not modelled.
- Ledger.SumCount: returns the exact integer total, where the source widens it to `float`.
- Ledger.ZonaData.IncrementProduct: products are values in a sequence, not shared objects. The returned product is a copy, so aliasing through the returned reference is not modelled.
- Exception messages and the process's exit status on an exception are not modelled; a thrown exception is `Crashed(error)`.
