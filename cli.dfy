/** The command line: how the arguments choose a ledger operation, whether the ledger is saved
    afterwards, and one whole run of the program from the stored ledger to its exit. */
module Cli {
  import opened Wrappers
  import opened Ledger

  /** Why a run stops with an exception. */
  datatype Error =
    | UnknownCommand    // a first argument that is neither an integer nor a command
    | UnknownArguments  // four or more positional arguments
    | MissingArgument   // a command without an argument it reads
    | NotANumber        // a count or price the runtime's parser rejects

  /** The runtime's number parsers, whose code is not part of this model: `toInt` stands for
      int.TryParse and Convert.ToInt32, `toFloat` for float.Parse and Convert.ToSingle. None is
      a string the parser rejects. */
  datatype NumberFormat = NumberFormat(toInt: string -> Option<int>, toFloat: string -> Option<real>)

  /** Lower-casing of one character (ASCII letters only). */
  function LowerChar(c: char): char
  {
    if 'A' <= c <= 'Z' then (c as int - 'A' as int + 'a' as int) as char else c
  }

  /** Lower-casing of a string, as `ToLower` does to the first argument: each upper-case ASCII
      letter becomes its lower-case letter, and every other character is kept. */
  function Lower(s: string): (r: string)
    ensures |r| == |s|
    ensures forall i :: 0 <= i < |s| ==> !('A' <= r[i] <= 'Z')
    ensures forall i :: 0 <= i < |s| && 'A' <= s[i] <= 'Z' ==>
      r[i] as int == s[i] as int - 'A' as int + 'a' as int
    ensures forall i :: 0 <= i < |s| && !('A' <= s[i] <= 'Z') ==> r[i] == s[i]
  {
    seq(|s|, i requires 0 <= i < |s| => LowerChar(s[i]))
  }

  /** Lower-casing twice is lower-casing once. */
  lemma LowerIdempotent(s: string)
    ensures Lower(Lower(s)) == Lower(s)
  {
    var t := Lower(s);
    assert forall i :: 0 <= i < |s| ==> LowerChar(t[i]) == t[i];
    assert Lower(t) == t;
  }

  /** The command words, as they are matched after lower-casing. */
  const CommandWords: set<string> := {"clear", "stats", "default_product", "change_unit_price", "help"}

  /** A named command with the arguments it has read. */
  datatype Command =
    | Clear
    | Stats
    | SetDefaultProduct(name: string)
    | ChangeUnitPrice(name: string, price: real)
    | Help

  /** The word that selects a command. */
  function CommandWord(c: Command): (w: string)
    ensures w in CommandWords
  {
    match c
    case Clear => "clear"
    case Stats => "stats"
    case SetDefaultProduct(_) => "default_product"
    case ChangeUnitPrice(_, _) => "change_unit_price"
    case Help => "help"
  }

  /** What the arguments ask of the ledger: a named command, or a purchase of `count` units of
      `target` (None: the default product) at `cost` (-1: the standing price). */
  datatype Action =
    | RunCommand(command: Command)
    | Record(target: Option<string>, count: int, cost: real)

  /** The test of HandleCommands: a first argument is present and, lower-cased, does not parse
      as an integer. */
  predicate IsCommandLine(args: seq<string>, nf: NumberFormat): (b: bool)
    ensures b ==> |args| > 0
  {
    |args| > 0 && nf.toInt(Lower(args[0])).None?
  }

  /** The command selected by the lower-cased first argument, reading `args[1]` and `args[2]`
      where the command needs them. */
  function CommandOf(args: seq<string>, nf: NumberFormat): (r: Result<Command, Error>)
    requires |args| > 0
    ensures r == Err(UnknownCommand) <==> Lower(args[0]) !in CommandWords
    ensures r.Ok? ==> CommandWord(r.value) == Lower(args[0])
    ensures r.Err? ==> r.error in {UnknownCommand, MissingArgument, NotANumber}
  {
    var word := Lower(args[0]);
    if word == "clear" then Ok(Clear)
    else if word == "stats" then Ok(Stats)
    else if word == "default_product" then
      if |args| < 2 then Err(MissingArgument) else Ok(SetDefaultProduct(args[1]))
    else if word == "change_unit_price" then
      if |args| < 3 then Err(MissingArgument)
      else match nf.toFloat(args[2])
        case None => Err(NotANumber)
        case Some(price) => Ok(ChangeUnitPrice(args[1], price))
    else if word == "help" then Ok(Help)
    else Err(UnknownCommand)
  }

  /** The purchase the positional arguments `[count [name [unit price]]]` stand for. */
  function PurchaseOf(args: seq<string>, nf: NumberFormat): (r: Result<Action, Error>)
    ensures r.Ok? ==> r.value.Record?
    ensures r == Err(UnknownArguments) <==> |args| > 3
    ensures r.Err? ==> r.error in {UnknownArguments, NotANumber}
  {
    if |args| == 0 then Ok(Record(None, 1, UseStandingPrice))
    else if |args| > 3 then Err(UnknownArguments)
    else match nf.toInt(args[0])
      case None => Err(NotANumber)
      case Some(count) =>
        if |args| == 1 then Ok(Record(None, count, UseStandingPrice))
        else if |args| == 2 then Ok(Record(Some(args[1]), count, UseStandingPrice))
        else match nf.toFloat(args[2])
          case None => Err(NotANumber)
          case Some(price) => Ok(Record(Some(args[1]), count, price))
  }

  /** What the arguments ask for, or the error the program stops with. */
  function Dispatch(args: seq<string>, nf: NumberFormat): (r: Result<Action, Error>)
    // the error cases, each exactly
    ensures r == Err(UnknownCommand) <==> IsCommandLine(args, nf) && Lower(args[0]) !in CommandWords
    ensures r == Err(UnknownArguments) <==> !IsCommandLine(args, nf) && |args| > 3
    ensures r == Err(MissingArgument) <==>
      IsCommandLine(args, nf) &&
      ((Lower(args[0]) == "default_product" && |args| < 2) ||
       (Lower(args[0]) == "change_unit_price" && |args| < 3))
    ensures r == Err(NotANumber) <==>
      (IsCommandLine(args, nf) && Lower(args[0]) == "change_unit_price" && |args| >= 3 &&
       nf.toFloat(args[2]).None?) ||
      (!IsCommandLine(args, nf) && 1 <= |args| <= 3 &&
       (nf.toInt(args[0]).None? || (|args| == 3 && nf.toFloat(args[2]).None?)))
    // a command line selects a command by its lower-cased first word
    ensures r.Ok? ==> (r.value.RunCommand? <==> IsCommandLine(args, nf))
    ensures r.Ok? && r.value.RunCommand? ==> CommandWord(r.value.command) == Lower(args[0])
    ensures r.Ok? && r.value.RunCommand? && r.value.command.SetDefaultProduct? ==>
      r.value.command.name == args[1]
    ensures r.Ok? && r.value.RunCommand? && r.value.command.ChangeUnitPrice? ==>
      r.value.command.name == args[1] && nf.toFloat(args[2]) == Some(r.value.command.price)
    // otherwise the arguments are read by position
    ensures r.Ok? && r.value.Record? ==>
      |args| <= 3 &&
      (|args| == 0 ==> r.value.count == 1) &&
      (|args| > 0 ==> nf.toInt(args[0]) == Some(r.value.count)) &&
      r.value.target == (if |args| >= 2 then Some(args[1]) else None) &&
      (|args| < 3 ==> r.value.cost == UseStandingPrice) &&
      (|args| == 3 ==> nf.toFloat(args[2]) == Some(r.value.cost))
  {
    if IsCommandLine(args, nf) then
      match CommandOf(args, nf)
      case Ok(c) => Ok(RunCommand(c))
      case Err(e) => Err(e)
    else PurchaseOf(args, nf)
  }

  /** The ledger after an action. Only `default_product` changes the default product name;
      only repricing and purchases change the products; the total count grows by the count of a
      purchase and by nothing otherwise, and only a purchase can add a name. */
  function Apply(s: Snapshot, a: Action): (r: Snapshot)
    ensures r.defaultProduct ==
      if a.RunCommand? && a.command.SetDefaultProduct? then a.command.name else s.defaultProduct
    ensures !a.Record? && !(a.RunCommand? && a.command.ChangeUnitPrice?) ==> r.products == s.products
    ensures SumCount(r.products) == SumCount(s.products) + (if a.Record? then a.count else 0)
    ensures !a.Record? ==> Names(r.products) == Names(s.products)
  {
    match a
    case RunCommand(SetDefaultProduct(name)) => s.(defaultProduct := name)
    case RunCommand(ChangeUnitPrice(name, price)) =>
      RepriceEffect(s.products, name, price);
      s.(products := Repriced(s.products, name, price))
    case RunCommand(_) => s
    case Record(target, count, cost) =>
      IncrementSums(s.products, target.GetOr(s.defaultProduct), count, cost);
      s.(products := Incremented(s.products, target.GetOr(s.defaultProduct), count, cost))
  }

  /** What a run does to the storage file. */
  datatype FileEffect = Untouched | Written(saved: Snapshot) | Deleted

  /** The storage file's fate after action `a` left the ledger at `s`: `clear` deletes it,
      `help` leaves it alone, and every other path ends by saving `s`. */
  function EffectOf(a: Action, s: Snapshot): (e: FileEffect)
    ensures e == Deleted <==> a == RunCommand(Clear)
    ensures e == Untouched <==> a == RunCommand(Help)
    ensures e.Written? ==> e.saved == s
  {
    match a
    case RunCommand(Clear) => Deleted
    case RunCommand(Help) => Untouched
    case _ => Written(s)
  }

  /** The storage file's content as the JSON reader delivers it: unreadable, null (for an
      empty file), or a document whose product list and default product name may be absent. */
  datatype Stored =
    | Malformed
    | Null
    | Document(products: Option<seq<Product>>, defaultProduct: Option<string>)

  /** The ledger a readable file gives: a null document or list becomes the empty ledger, and
      an absent default product name keeps the initial one. */
  function Loaded(st: Stored): (s: Snapshot)
    requires !st.Malformed?
    ensures st.Null? || st.products == None ==> s.products == []
    ensures st.Null? || st.defaultProduct == None ==> s.defaultProduct == InitialDefaultProduct
    ensures st.Document? && st.products.Some? ==> s.products == st.products.value
    ensures st.Document? && st.defaultProduct.Some? ==> s.defaultProduct == st.defaultProduct.value
  {
    match st
    case Null => Snapshot([], InitialDefaultProduct)
    case Document(ps, dp) => Snapshot(ps.GetOr([]), dp.GetOr(InitialDefaultProduct))
  }

  /** How a run ends: with an exit code and what it did to the file, or with an exception. */
  datatype Outcome = Exited(code: int, file: FileEffect) | Crashed(error: Error)

  /** One run of the program on a stored ledger and a command line. */
  function Run(st: Stored, args: seq<string>, nf: NumberFormat): (r: Outcome)
    ensures r.Exited? && r.code != 0 <==> st.Malformed?
    ensures st.Malformed? ==> r == Exited(-1, Untouched)
    ensures r.Crashed? <==> !st.Malformed? && Dispatch(args, nf).Err?
    ensures r.Crashed? ==> r.error == Dispatch(args, nf).error
    // which paths save
    ensures r.Exited? && r.file.Written? <==>
      !st.Malformed? && Dispatch(args, nf).Ok? &&
      !(IsCommandLine(args, nf) && Lower(args[0]) in {"clear", "help"})
    ensures r.Exited? && r.file.Deleted? <==>
      !st.Malformed? && IsCommandLine(args, nf) && Lower(args[0]) == "clear"
  {
    if st.Malformed? then Exited(-1, Untouched)
    else match Dispatch(args, nf)
      case Err(e) => Crashed(e)
      case Ok(a) => Exited(0, EffectOf(a, Apply(Loaded(st), a)))
  }

  /** `stats` saves the ledger as it was loaded. */
  lemma StatsRun(st: Stored, args: seq<string>, nf: NumberFormat)
    requires !st.Malformed? && IsCommandLine(args, nf) && Lower(args[0]) == "stats"
    ensures Run(st, args, nf) == Exited(0, Written(Loaded(st)))
  {
  }

  /** `default_product <name>` saves the ledger with only its default product name changed. */
  lemma DefaultProductRun(st: Stored, args: seq<string>, nf: NumberFormat)
    requires !st.Malformed? && IsCommandLine(args, nf) && Lower(args[0]) == "default_product"
    requires |args| >= 2
    ensures Run(st, args, nf) == Exited(0, Written(Loaded(st).(defaultProduct := args[1])))
  {
  }

  /** `change_unit_price <name> <price>` saves the ledger with the named product repriced: sums,
      names and default product are kept, and an unknown name leaves the products as they were. */
  lemma ChangeUnitPriceRun(st: Stored, args: seq<string>, nf: NumberFormat)
    requires !st.Malformed? && IsCommandLine(args, nf) && Lower(args[0]) == "change_unit_price"
    requires |args| >= 3 && nf.toFloat(args[2]).Some?
    ensures Run(st, args, nf).Exited? && Run(st, args, nf).file.Written?
    ensures var s, s' := Loaded(st), Run(st, args, nf).file.saved;
      s'.products == Repriced(s.products, args[1], nf.toFloat(args[2]).value) &&
      s'.defaultProduct == s.defaultProduct &&
      SumCount(s'.products) == SumCount(s.products) && SumCost(s'.products) == SumCost(s.products) &&
      Names(s'.products) == Names(s.products) &&
      (FindProduct(s.products, args[1]).None? ==> s'.products == s.products)
  {
    RepriceEffect(Loaded(st).products, args[1], nf.toFloat(args[2]).value);
  }

  /** A positional run saves the ledger with one purchase recorded: of the product named by
      `args[1]`, or of the default product; the total count grows by exactly the count read,
      the total cost by that purchase's charge, and the default product is kept. */
  lemma PositionalRun(st: Stored, args: seq<string>, nf: NumberFormat)
    requires !st.Malformed? && !IsCommandLine(args, nf) && Dispatch(args, nf).Ok?
    ensures Run(st, args, nf).Exited? && Run(st, args, nf).file.Written?
    ensures var s, s', a := Loaded(st), Run(st, args, nf).file.saved, Dispatch(args, nf).value;
      var name := if |args| >= 2 then args[1] else s.defaultProduct;
      s'.defaultProduct == s.defaultProduct &&
      s'.products == Incremented(s.products, name, a.count, a.cost) &&
      SumCount(s'.products) == SumCount(s.products) + a.count &&
      SumCost(s'.products) == SumCost(s.products) + Charge(s.products, name, a.count, a.cost)
  {
    var s, a := Loaded(st), Dispatch(args, nf).value;
    IncrementSums(s.products, a.target.GetOr(s.defaultProduct), a.count, a.cost);
  }

  /** Commands are matched ignoring case: a command line runs exactly as it would with its first
      word lower-cased. */
  lemma CommandsIgnoreCase(st: Stored, word: string, rest: seq<string>, nf: NumberFormat)
    requires nf.toInt(Lower(word)).None?
    ensures Run(st, [word] + rest, nf) == Run(st, [Lower(word)] + rest, nf)
  {
    LowerIdempotent(word);
    var args, args' := [word] + rest, [Lower(word)] + rest;
    assert args[1..] == args'[1..];
    assert Lower(args[0]) == Lower(args'[0]);
  }

  /** An explicit unit price that parses as -1 is indistinguishable from giving no price. */
  lemma ExplicitMinusOneIsStandingPrice(st: Stored, args: seq<string>, nf: NumberFormat)
    requires !IsCommandLine(args, nf) && |args| == 3 && nf.toFloat(args[2]) == Some(UseStandingPrice)
    ensures Run(st, args, nf) == Run(st, args[..2], nf)
  {
    assert args[..2][0] == args[0] && args[..2][1] == args[1];
  }

  /** The document a saved ledger reads back as. */
  function Reloaded(s: Snapshot): Stored
  {
    Document(Some(s.products), Some(s.defaultProduct))
  }

  /** A saved ledger reads back as itself. */
  lemma LoadReloaded(s: Snapshot)
    ensures Loaded(Reloaded(s)) == s
  {
  }

  /** Parsers that read the numbers of the walk-through below as a user expects. */
  predicate ReadsExampleNumbers(nf: NumberFormat)
  {
    nf.toInt("3") == Some(3) && nf.toInt("2") == Some(2) && nf.toInt("1") == Some(1) &&
    nf.toInt("change_unit_price") == None &&
    nf.toFloat("1.50") == Some(1.5) && nf.toFloat("2.00") == Some(2.0)
  }

  /** The four steps of a walk-through, each run on what the step before saved. */
  const SweetTea := "Sweet Tea"
  const AfterFirstPurchase := Snapshot([Product(SweetTea, 3, 4.5, 1.5)], InitialDefaultProduct)
  const AfterSecondPurchase := Snapshot([Product(SweetTea, 5, 7.5, 1.5)], InitialDefaultProduct)
  const AfterRepricing := Snapshot([Product(SweetTea, 5, 7.5, 2.0)], InitialDefaultProduct)
  const AfterThirdPurchase := Snapshot([Product(SweetTea, 6, 9.5, 2.0)], InitialDefaultProduct)

  /** From the empty ledger, `3 "Sweet Tea" 1.50` creates the product with count 3, cost 4.50
      and standing price 1.50. */
  lemma FirstPurchaseSetsPrice(nf: NumberFormat)
    requires ReadsExampleNumbers(nf)
    ensures Run(Null, ["3", SweetTea, "1.50"], nf) == Exited(0, Written(AfterFirstPurchase))
  {
    var args := ["3", SweetTea, "1.50"];
    assert Lower("3") == "3";
    assert !IsCommandLine(args, nf);
    assert Dispatch(args, nf) == Ok(Record(Some(SweetTea), 3, 1.5));
    assert FindProduct([], SweetTea) == None;
  }

  /** Then `2 "Sweet Tea"` charges the standing price: count 5, cost 7.50, price still 1.50. */
  lemma SecondPurchaseUsesStandingPrice(nf: NumberFormat)
    requires ReadsExampleNumbers(nf)
    ensures Run(Reloaded(AfterFirstPurchase), ["2", SweetTea], nf) == Exited(0, Written(AfterSecondPurchase))
  {
    var args := ["2", SweetTea];
    assert Lower("2") == "2";
    assert !IsCommandLine(args, nf);
    assert Dispatch(args, nf) == Ok(Record(Some(SweetTea), 2, UseStandingPrice));
    assert FindProduct(AfterFirstPurchase.products, SweetTea) == Some(0);
  }

  /** Then `change_unit_price "Sweet Tea" 2.00` sets the standing price to 2.00 only. */
  lemma RepricingKeepsTotals(nf: NumberFormat)
    requires ReadsExampleNumbers(nf)
    ensures Run(Reloaded(AfterSecondPurchase), ["change_unit_price", SweetTea, "2.00"], nf) ==
            Exited(0, Written(AfterRepricing))
  {
    var args := ["change_unit_price", SweetTea, "2.00"];
    assert Lower("change_unit_price") == "change_unit_price";
    assert IsCommandLine(args, nf);
    assert Dispatch(args, nf) == Ok(RunCommand(ChangeUnitPrice(SweetTea, 2.0)));
    assert FindProduct(AfterSecondPurchase.products, SweetTea) == Some(0);
  }

  /** Then `1 "Sweet Tea"` charges the new price: count 6, cost 9.50. */
  lemma ThirdPurchaseUsesNewPrice(nf: NumberFormat)
    requires ReadsExampleNumbers(nf)
    ensures Run(Reloaded(AfterRepricing), ["1", SweetTea], nf) == Exited(0, Written(AfterThirdPurchase))
  {
    var args := ["1", SweetTea];
    assert Lower("1") == "1";
    assert !IsCommandLine(args, nf);
    assert Dispatch(args, nf) == Ok(Record(Some(SweetTea), 1, UseStandingPrice));
    assert FindProduct(AfterRepricing.products, SweetTea) == Some(0);
  }

  /** HandleCommands: when the first argument is a command, performs it on `data` and reports
      what happens to the file; otherwise reports None and changes nothing. */
  method HandleCommands(data: ZonaData, args: seq<string>, nf: NumberFormat)
    returns (r: Result<Option<FileEffect>, Error>)
    modifies data
    ensures r.Ok? && r.value.None? <==> !IsCommandLine(args, nf)
    ensures r.Err? <==> IsCommandLine(args, nf) && Dispatch(args, nf).Err?
    ensures r.Err? ==> r.error == Dispatch(args, nf).error
    ensures !IsCommandLine(args, nf) || r.Err? ==> data.State() == old(data.State())
    ensures IsCommandLine(args, nf) && r.Ok? ==>
      data.State() == Apply(old(data.State()), Dispatch(args, nf).value) &&
      r.value == Some(EffectOf(Dispatch(args, nf).value, data.State()))
  {
    if |args| > 0 {
      var firstArg := Lower(args[0]);
      if nf.toInt(firstArg).None? {
        if firstArg == "clear" {
          return Ok(Some(Deleted));
        } else if firstArg == "stats" {
        } else if firstArg == "default_product" {
          if |args| < 2 {
            return Err(MissingArgument);
          }
          data.defaultProduct := args[1];
        } else if firstArg == "change_unit_price" {
          if |args| < 3 {
            return Err(MissingArgument);
          }
          var newPrice := nf.toFloat(args[2]);
          if newPrice.None? {
            return Err(NotANumber);
          }
          data.ChangePrice(args[1], newPrice.value);
        } else if firstArg == "help" {
          return Ok(Some(Untouched));
        } else {
          return Err(UnknownCommand);
        }
        return Ok(Some(Written(data.State())));
      }
    }
    return Ok(None);
  }

  /** HandleArguments: records the purchase the positional arguments stand for, or fails
      without changing anything. */
  method HandleArguments(data: ZonaData, args: seq<string>, nf: NumberFormat) returns (r: Result<(), Error>)
    modifies data
    ensures r.Ok? <==> PurchaseOf(args, nf).Ok?
    ensures r.Err? ==> r.error == PurchaseOf(args, nf).error && data.State() == old(data.State())
    ensures r.Ok? ==> data.State() == Apply(old(data.State()), PurchaseOf(args, nf).value)
  {
    if |args| == 0 {
      var _ := data.IncrementProduct(data.defaultProduct, 1, UseStandingPrice);
      return Ok(());
    }
    if |args| > 3 {
      return Err(UnknownArguments);
    }
    var count := nf.toInt(args[0]);
    if count.None? {
      return Err(NotANumber);
    }
    if |args| == 1 {
      var _ := data.IncrementProduct(data.defaultProduct, count.value, UseStandingPrice);
    } else if |args| == 2 {
      var _ := data.IncrementProduct(args[1], count.value, UseStandingPrice);
    } else {
      var unitPrice := nf.toFloat(args[2]);
      if unitPrice.None? {
        return Err(NotANumber);
      }
      var _ := data.IncrementProduct(args[1], count.value, unitPrice.value);
    }
    return Ok(());
  }

  /** The program's entry point: loads the ledger (a null document gives the fresh ledger),
      handles a command or else the positional arguments, and saves where the path saves. */
  method Execute(st: Stored, args: seq<string>, nf: NumberFormat) returns (o: Outcome)
    ensures o == Run(st, args, nf)
  {
    if st.Malformed? {
      return Exited(-1, Untouched);
    }
    var data: ZonaData;
    if st.Null? {
      data := new ZonaData(Some([]));
    } else {
      data := new ZonaData(st.products);
      if st.defaultProduct.Some? {
        data.defaultProduct := st.defaultProduct.value;
      }
    }
    assert data.State() == Loaded(st);
    var handled := HandleCommands(data, args, nf);
    if handled.Err? {
      return Crashed(handled.error);
    }
    if handled.value.Some? {
      return Exited(0, handled.value.value);
    }
    var recorded := HandleArguments(data, args, nf);
    if recorded.Err? {
      return Crashed(recorded.error);
    }
    return Exited(0, Written(data.State()));
  }
}
