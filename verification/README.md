# The shop's data server, modelled and proved

A multithreaded data server keeps five comma-separated files: buyers, sellers, products, bills and
order lines. Every connection gets a thread that executes commands; a command takes semaphores,
loads tables into arrays, edits them and prints them back. This project models three linked parts and
proves what they are for.

**Locks** (`Locks.dfy`, `Loads.dfy`, `Progress.dfy`, `DoubleExit.dfy`, `DsModel.dfy`). Each table has a binary `wrt`
semaphore, a binary mutex and a reader counter. The protocol is a step machine over any number of
threads, one semaphore or counter operation per step; `sem_wait` and `sem_post` follow IEEE Std
1003.1-2017. The path of `validateID` that does not find its id leaves the reader section twice, so the
counter of a table loses one reader for each missed lookup; `Inv` accounts for that: the mutex is 1 less
its holder, `wrt` is 1 less its writer and less the reader group, which owns it while it has more members
than have been lost. From it come writer exclusion, deadlock freedom for any programs whose nested waits
rise in a common rank, and completion with no fairness assumption, all with or without missed lookups;
reader/writer exclusion on every table whose lookups do not miss; and the exact condition for a reader
and a writer to overlap.

**Tables** (`Shop.dfy`, `Meaning.dfy`, `Books.dfy`, `Stock.dfy`, `Handlers.dfy`). `Shop.Apply` says what each
command does to the files, and `Meaning` states it field by field in terms of the rows before. `Handlers` has the algorithms themselves, on sentinel-terminated arrays changed in
place, and a `DataServer` class whose methods are proved to do exactly `Apply`. `Books` and `Stock`
prove what `Apply` keeps over whole runs: the bill totals, the denormalised names and addresses, and
the stock; and, where the code does not keep them, the exact condition under which it does.

**Interleavings** (`Serial.dfy`, `Interleave.dfy`, `Serialisable.dfy`, `LockOrder.dfy`, `Bookkeeping.dfy`).
The lock machine with the files attached, one file load or store per step. A command counts when it has its
last write lock, except that a completed order counts when it loads the buyers, on which it holds no lock.
Every interleaving leaves the files as if the commands had run one at a time in that order. In the order of
the last write locks this is true if and only if each order that the shelves allow has its buyer in the
file at the start or registered earlier, or is for buyer 0: an order may lock its tables first and find a
buyer who is registered after that. One thing is asked of a run: the search for the buyer of an accepted
order ends. It ends at the buyer's row, or for buyer 0 at the zero row after the table, and it always does
when all buyers are in the file at the start.

**Text** (`Numbers.dfy`, `TableText.dfy`, `Reading.dfy`, `OrderMessage.dfy`). The number printer, the table
printers, the loaders and the order message; `Reading` states what the loaders make of any text. `strtok` and `atoi` follow sections 7.24.5.8 and 7.22.1.2 of ISO/IEC
9899:2011. `strtok` merges adjacent commas and `intToCharArray` prints nothing for 0, so a table reads
back if and only if every string is non-empty and every number positive, a row's last number being
allowed to be 0.

**Text files over runs** (`TextFiles.dfy`, `TextStock.dfy`, `TextRuns.dfy`, `TextPrograms.dfy`). The commands
over the files as text: load, work, print. The text goes the way of the rows if and only if every command
meets a condition that a caller can check before it; for an order that is that nothing sells out. The
interleaved machine over text does what the one over rows does as long as the rows are fine, and a
condition on the programs alone guarantees that.

## Results that show the code failing

- A return deducts the price of the order's first line and drops the product from every order:
  `Books.ReturnKeepsLedgerIff` says when the ledger survives, `Books.ReturnOfSecondLineBreaksLedger`
  gives an order for which it does not.
- An accepted order for buyer 0, which any buyer id that is not a number is read as, finds the zero row after
  the buyers and posts a bill and lines for nobody: `Books.ApplyKeepsBooks`, `Books.RunKeepsBooksIff` and
  `Books.OrderForNobodyBreaksBooks`; and the bill file no longer loads: `TextStock.NobodysBillDoesNotLoad`.
  A return of order 0 deducts nothing and drops the product from every order.
- An order that names a product twice is checked line by line: `Stock.NoOversellingIff`,
  `Stock.RepeatedProductOversells`.
- A product that sells out comes back from its file with its price as its quantity and price 0:
  `TextStock.SoldOutProductIsCorrupted`. So selling conserves stock over the files exactly as long as
  nothing sells out: `TextStock.OrderConservesTextStockIff`, `TextStock.TextStockIff`.
- A buyer registered with `[NEW_CLIENT]` has no phone number in the file, so that by
  `TextFiles.CommandKeepsFilesIff` no registration leaves a file that reads back.
- A missed lookup leaves the reader counter one short, and a later reader enters without `wrt`:
  `DoubleExit.CountersExactIff`, `DoubleExit.OverlapIff`.
- The order in which commands obtain their locks does not explain every run:
  `LockOrder.LateRegistrationBreaksLockOrder`, `LockOrder.LockOrderIff`.

## Model

| member | source | states |
|---|---|---|
| Locks.StepKeepsInv | Roden.c:780-792 | every operation of a reader section, left once or twice, and of every write section keeps the invariant that ties the ten semaphores and five counters to the threads' positions |
| Locks.StartInv | dataServer.c:55-74 | ten semaphores at 1 and five counters at 0 establish it |
| Locks.LostSoFar | Roden.c:249-277 | in every reachable state, each missed lookup that is over has cost its table's counter exactly one |
| Locks.WriterExclusion | Demos/5_All_Fixed/dsModel_All_Fix.c:147-163 | in every reachable state, missed lookups or not: at most one writer, both semaphores 0 or 1, the mutex 0 exactly when held |
| Locks.ReaderWriterExclusion | Demos/5_All_Fixed/dsModel_All_Fix.c:147-163 | on a table whose lookups do not miss, in every reachable state of any number of threads: at most one writer, never a writer with a member of the reader group, counter = threads between the critical sections, each semaphore 0 exactly when owned |
| Loads.LoadsInside | Demos/5_All_Fixed/dsModel_All_Fix.c:147-163 | a load happens inside the reader group, and a writer's file accesses while it holds all it waited for |
| Loads.NobodyWritesDuringLoad | Demos/5_All_Fixed/dsModel_All_Fix.c:147-163 | in every reachable state no thread holds a table for writing while another is about to load it, if its lookups do not miss |
| Progress.MutexHolderMoves | Demos/5_All_Fixed/dsModel_All_Fix.c:147-163 | a mutex holder can step, or waits for `wrt` with the counter at 1 and a writer owns the table |
| Progress.WrtProgress | misc/databaseActions.txt:1-8 | if a `wrt` semaphore is 0, whoever owns it, some thread can step |
| Progress.DeadlockFreedom | Demos/5_All_Fixed/dsModel_All_Fix.c:125-604 | for any programs whose nested waits rise in one rank, missed lookups included, every reachable unfinished state has a thread that can step |
| Progress.Completion | Demos/5_All_Fixed/dsModel_All_Fix.c:125-604 | a run is stuck exactly when it is finished; then it took exactly the programs' operations, all ten semaphores are 1 and each counter is minus the missed lookups of its table |
| Progress.RunToCompletion | dataServer.c:30-37 | a loop that runs any enabled thread, picked arbitrarily, ends with every program finished and every semaphore free |
| DsModel.SectionsFollowTheOrder | misc/databaseActions.txt:1-8 | every command's write locks rise in the published resource order |
| DsModel.LocksCoverAccesses | misc/databaseActions.txt:10-126 | a command write-locks what it stores and locks exactly what it reads, except that a completed order reads the buyers unlocked |
| DsModel.ServerAlwaysCompletes | Demos/5_All_Fixed/dsModel_All_Fix.c:125-604 | whatever commands any number of clients send, every run is bounded, never stuck early, exclusive in every state, and ends with all locks free |
| DsModel.TwoWritersDeadlockIff | Demos/3_DeadLock_Scenarios/dl_compOrderNU.c:278-303 | two writers can deadlock if and only if their lock lists cross with disjoint prefixes |
| DsModel.ReversedOrderDeadlocks | Demos/3_DeadLock_Scenarios/dl_compOrderNU.c:278-303 | Product-Billing-Order with Order-Billing-Product admits no common rank and reaches a deadlock |
| DoubleExit.MissBreaksCounter | Roden.c:241-277 | any program set with a missed lookup has a run after which a counter is wrong |
| DoubleExit.CountersExactIff | Roden.c:241-277 | the counters are right in every reachable state if and only if no lookup misses |
| DoubleExit.OverlapIff | Roden.c:241-277 | a reader can be inside while a writer owns the table if and only if some thread misses a lookup of it, and another reader section and another thread's writer section of it are not ahead of that miss |
| DoubleExit.MissLetsReaderOverlapWriter | Roden.c:241-277 | the smallest such programs: a miss and a reader against a writer |
| Shop.FindRow | Roden.c:635-637 | the first row with the id, or the number of rows when there is none |
| Shop.RegistrationKeepsFound | Roden.c:706-713 | what the search for a buyer comes to, the zero row for buyer 0 included, no registration changes |
| Meaning.AcceptedIff | Roden.c:600-625 | with unique product ids an order is accepted if and only if each ordered product is there and each line is for no more than its row has |
| Meaning.RefusedIff | Roden.c:612-622 | in any table an order is refused if and only if some line's product has no row, or a row with less |
| Meaning.WholeStockSells | Roden.c:617 | an order for all there is of a product is accepted and leaves none |
| Meaning.CostIsAdded | Roden.c:656-659 | an order costs the sum of quantity times unit cost over its items |
| Meaning.OrderMeans | Roden.c:627-704 | after an accepted order: the bill, each line and each product row, field by field |
| Meaning.RefusedMeans | Roden.c:738-761 | a refused order changes nothing |
| Meaning.EditMeans | Roden.c:1347-1535 | after an edit the buyer's row, the buyer's bills and those orders' lines have exactly the given fields, and everything else is as before |
| Meaning.NumberEditMeans | Roden.c:1323-1345 | the buyer's row has the given number, and everything else is as before |
| Meaning.NewRowsMean | Roden.c:437-459 | a registration and a new product append the given row, the registration without a number |
| Meaning.QuantityMeans | Roden.c:1002-1026 | the first row with the id gets the quantity if it is the seller's, and nothing else changes |
| Meaning.OwnerSetsStock | Roden.c:1022 | the owner's change leaves that quantity on the shelf |
| Meaning.PriceMeans | Roden.c:1058-1082 | likewise for the price |
| Meaning.ReturnMeans | Roden.c:1564-1594 | the order's bill loses its first line's price, every line of the product goes, and the rest is as before |
| Meaning.ReturnOfNothingMeans | Roden.c:1564-1594 | a return of order 0 only drops the product's lines |
| Books.OrderKeepsLedger | Roden.c:646-704 | with a fresh order id, each bill's total stays the sum of its order's lines |
| Books.OrderKeepsCopiesIff | Roden.c:646-704 | an order bills its lines; bill and lines carry the buyer's name and address unless it is accepted for buyer 0, and then they do not |
| Books.EditKeepsCopies | Roden.c:1366-1420 | an edit changes the buyer, the buyer's bills and those orders' lines alike |
| Books.EditKeepsLedger | Roden.c:1480-1527 | an edit changes no total |
| Books.ReturnKeepsCopies | Roden.c:1571-1594 | a return leaves every remaining line with its bill and the buyer's details |
| Books.ReturnKeepsLedgerIff | Roden.c:1564-1594 | the ledger survives a return if and only if the order's removed lines cost what its first line costs, nothing for order 0, and no other billed order loses anything |
| Books.SingleLineReturnKeepsLedger | Roden.c:1564-1594 | the intended return, of a first line nobody else bought, keeps it |
| Books.ReturnOfSecondLineBreaksLedger | Roden.c:1564-1594 | an order whose ledger a return breaks |
| Books.ApplyKeepsAccounts | Roden.c:715-769 | any command keeps order numbers unique and lines billed, and keeps the ledger exactly when it is not an unbalanced return |
| Books.ApplyKeepsBooks | Roden.c:715-769 | any command keeps the books exactly when it is neither an unbalanced return nor an accepted order for buyer 0 |
| Books.OrderForNobodyBreaksBooks | Roden.c:706-713 | balanced books and an order for buyer 0 that breaks them |
| Books.RunKeepsBooksIff | Roden.c:1722-1917 | over whole runs of balanced commands the books hold exactly when no order was posted for buyer 0; a bill of nobody's stays |
| Stock.SellRows | Roden.c:635-641 | each row loses exactly what the order sums to for its product, first matching row only |
| Stock.SoldLeavesStock | Roden.c:635-641 | stock falls by the ordered quantity, for every product |
| Stock.RunConservesStock | Roden.c:677-702 | over rows, on the shelf plus sold never changes over runs that only sell, refused orders included; what the files do to it is TextStock.TextStockIff |
| Stock.NoOversellingIff | Roden.c:600-641 | an accepted order leaves no negative stock if and only if each product's summed quantity fits |
| Stock.DistinctOrderNeverOversells | Roden.c:600-641 | it does when the order names each product once |
| Stock.RepeatedProductOversells | Roden.c:612-620 | an accepted order that leaves negative stock |
| Handlers.ValidateBuyerOrder | Roden.c:600-625 | the loops, sentinel rows included, accept exactly when every ordered product exists and each line's quantity is at most that of each matching row |
| Handlers.FindOrderedProduct | Roden.c:635-637 | the search without a sentinel test ends at the product's first row when the product is there |
| Handlers.WriteNewProductQuantityFromOrder | Roden.c:627-641 | on an accepted order the array ends up holding the sold table; the inner search stays inside it |
| Handlers.WriteOrderToBillingInfo | Roden.c:646-675 | appends one bill with the order's cost, which Meaning.CostIsAdded states, and the buyer's details, and returns its id |
| Handlers.WriteOrderToCustomerOrder | Roden.c:677-704 | appends one line per ordered item, at quantity times unit cost |
| Handlers.EditBillingRows | Roden.c:1384-1398 | edits the buyer's bills, as Meaning.EditMeans states, and collects exactly their order numbers |
| Handlers.EditOrderRows | Roden.c:1403-1418 | the nested loop edits exactly the lines of the collected orders, as Meaning.EditMeans states |
| Handlers.CopyOthers | Roden.c:1571-1581 | the read-index and trailing-index loop leaves exactly the compacted rows, every write index within the rows read |
| Handlers.KeptInOrder | Roden.c:956-964 | compaction keeps rows of other products in their old order |
| Handlers.KeepsAllOthers | Roden.c:956-964 | and all of them, and none of the product |
| Handlers.DataServer.CompleteAnOrder | Roden.c:706-769 | the handler does what `Apply` says, for buyer 0 too, and confirms exactly the accepted orders |
| Handlers.DataServer.BuyerEditsContact | Roden.c:1347-1535 | so do the two edits of name and address, of buyer 0's bills and lines too |
| Handlers.DataServer.BuyerEditsNumber | Roden.c:1323-1345 | so does the number edit |
| Handlers.DataServer.RegisterBuyer | Roden.c:437-459 | so does registration, which stores no phone number |
| Handlers.DataServer.AddNewProduct | Roden.c:868-904 | so does a new product |
| Handlers.DataServer.ModifyQuantity | Roden.c:1002-1026 | so does a quantity change, refused exactly when the row found has another seller; Meaning.QuantityMeans states the row |
| Handlers.DataServer.ModifyPrice | Roden.c:1058-1082 | so does a price change |
| Handlers.DataServer.DeleteProduct | Roden.c:931-973 | an unknown product changes nothing, the owner's deletion leaves the other products in order, anybody else's empties the file |
| Handlers.DataServer.BuyerModifiesOrder | Roden.c:1537-1600 | so does a return, of order 0 too |
| Serial.AloneIsApply | Roden.c:736-761 | a command's loads and stores with nobody in between are the command |
| Serial.FinishAgrees | Roden.c:736-761 | once an order has looked its buyer up, what a command stores depends only on its locked tables |
| Interleave.ContactCommitted | Roden.c:746-750 | the name and address an order finds are those the committed commands leave, although another thread may be halfway through the buyer file |
| Interleave.AccessKeepsContact | Roden.c:1329-1343 | no command that shares no lock with an order changes a known buyer's name or address |
| Interleave.RunKeepsSysInv | Roden.c:729-768 | along every run, finishing a pending command from here gives its tables what the commands logged so far give them |
| Serialisable.SameLocksAsTheModel | Demos/5_All_Fixed/dsModel_All_Fix.c:276-301 | the data server's write sections take and post the demonstration server's locks in its order |
| Serialisable.EveryRunIsSerial | Roden.c:729-768 | every interleaving that cannot go on has finished and left the files the commands leave one at a time in commit order; every log entry belongs to a thread, and each thread's are its commands in its own order |
| LockOrder.LockOrderIff | Roden.c:729-768 | the order of the last write locks leaves the same files if and only if each order the shelves allow has its buyer in the file at the start or registered earlier in it, or is for buyer 0 |
| LockOrder.KnownBuyersAlwaysInLockOrder | Roden.c:729-768 | if every order's buyer is in the file at the start or 0, every schedule of the locks is a run and ends as in lock order |
| LockOrder.LateRegistrationBreaksLockOrder | Roden.c:443-459 | a run that ends otherwise: an order takes its locks, its buyer is registered, then it finds the buyer |
| Serialisable.ReadersSeeCommitted | Roden.c:780-792 | a reader in the group of a table whose lookups do not miss sees exactly the committed commands' table |
| Serialisable.UnlockedReadStaysCurrent | Roden.c:730-768 | from an order's last wait to its last release no other thread's step changes its buyer's name and address, and what it copied is what the buyer file says |
| Serialisable.SellersChangeOnlyTheirRows | Roden.c:1002-1026 | under any interleaving a quantity or price change touches one field of at most one row, which is the seller's in the file it overwrites |
| Bookkeeping.BooksBalanceAfterEveryRun | Roden.c:1385-1420 | if the programs take no returns and every order has a number of its own, the books hold after an interleaving exactly when no accepted order was for buyer 0, and after every one if none names buyer 0 |
| Bookkeeping.BooksBalanceAfterGoodRuns | Roden.c:1564-1594 | the same equivalence with returns, for every log of admissible commands and balanced returns |
| Bookkeeping.StockIsConservedByEveryRun | Roden.c:738-761 | stock is conserved over rows by every interleaving that only sells |
| Numbers.DigitLoop | JacobWilson.c:8-55 | the switch loop leaves the digits in reverse, skipping negative remainders |
| Numbers.IntToCharArray | JacobWilson.c:8-65 | with the reversal, the buffer holds the printed number |
| Numbers.PrintedIsDecimal | JacobWilson.c:8-65 | for a positive number that is its decimal numeral |
| Numbers.DecimalReadsBack | Roden.c:138-142 | the numeral has no leading zero and `atoi` gives the number back |
| Numbers.NumberRoundTripIff | JacobWilson.c:8-65 | printing and `atoi` give back a number if and only if it is not negative |
| Numbers.NegativePrintsZeros | JacobWilson.c:8-65 | a negative number prints as the zeros of its numeral |
| Numbers.DecimalMeans | JacobWilson.c:8-65 | what the numeral is: one digit, or the numeral of a tenth and one digit more |
| Numbers.AtoiMeans | Roden.c:138-142 | `atoi` of a numeral after white space, signed or not, with anything after it |
| Numbers.AtoiOfOtherText | Roden.c:138-142 | `atoi` of text that does not start like a number is 0 |
| TableText.WriteBack | JacobWilson.c:87-114 | the printers produce the printed table |
| Reading.PrintedClient | JacobWilson.c:209-241 | the text of a client's row, field after field |
| Reading.PrintedProduct | JacobWilson.c:87-114 | the text of a product's row |
| Reading.PrintedBill | JacobWilson.c:142-181 | the text of a bill's row |
| Reading.PrintedOrderLine | JacobWilson.c:269-313 | the text of an order line's row |
| TableText.Tokenizer.Next | Roden.c:138-142 | `strtok(NULL, ",")` skips commas, returns the next token and moves past its delimiter |
| TableText.LoadFile | Roden.c:124-148 | the loaders compute `Load`, line by line and token by token |
| Reading.FgetsMeans | Roden.c:135 | `fgets` takes the first line, ended or not, or as much as fits |
| Reading.NextWord | Roden.c:138-142 | `strtok` returns the longest runs without commas, one after the other |
| Reading.LineMeans | Roden.c:136-142 | a line gives the conversions of its first words, or nothing if it has too few |
| Reading.LoadMeans | Roden.c:124-148 | any text whose lines fit the buffer loads as one row per line with a word, in order, the last line ended or not, unless one has too few words |
| Reading.FilesMean | Roden.c:92-208 | in each of the four files, which word of a line is which field |
| Reading.UnendedTableIff | Roden.c:103-122 | a printed table without its last line end loads as the same rows if and only if they are printable and the last row has no 0 |
| TableText.PrintedTokens | Roden.c:136-142 | what `strtok` finds in a printed row are its non-empty fields and the line end |
| TableText.RowRoundTripIff | Roden.c:136-142 | a row reads back if and only if it is printable |
| TableText.TableRoundTripIff | Roden.c:92-208 | so does a table of any number of rows |
| TableText.ProductFileSurvivesIff | JacobWilson.c:87-114 | products survive if and only if ids, sellers and quantities are positive, names non-empty, prices not negative |
| TableText.BillFileSurvivesIff | JacobWilson.c:142-181 | bills survive if and only if ids are positive, contacts full, totals not negative |
| TableText.ClientFileSurvivesIff | JacobWilson.c:209-241 | clients survive if and only if every field is there |
| TableText.LineFileSurvivesIff | JacobWilson.c:269-313 | order lines survive if and only if ids and quantities are positive, contacts full, prices not negative |
| TextFiles.ReloadsIffStorable | JacobWilson.c:87-313 | four printed files load back as the same rows if and only if every row is storable |
| TextFiles.SoldProductsStorableIff | Roden.c:635-641 | after an order the product file reloads if and only if every product keeps some stock |
| TextFiles.CommandKeepsFilesIff | Roden.c:722-769 | for every command, the files it leaves reload if and only if a condition on its arguments and the rows before it holds |
| TextFiles.TextRunIff | Roden.c:124-148 | over any commands, loading after each gives the rows of the replay if and only if each command meets its condition |
| TextStock.ProductFileReloads | JacobWilson.c:87-114 | what a product file with any quantities comes back as, product by product |
| TextStock.SoldOutProductIsCorrupted | JacobWilson.c:87-114 | a product with quantity 0 comes back with its price as quantity and price 0 |
| TextStock.NobodysBillDoesNotLoad | JacobWilson.c:142-181 | after an accepted order for buyer 0 the bill file has a line with too few fields |
| TextStock.OrderConservesTextStockIff | Roden.c:738-761 | an order conserves every product's stock over its files if and only if it is refused, or is for somebody and sells nothing out |
| TextStock.TextStockIff | Roden.c:738-761 | over runs of orders, the files conserve stock after each one if and only if no accepted order is for buyer 0 or sells anything out |
| TextStock.TextKeepsBooks | Roden.c:646-704 | commands that keep their files keep the books in them |
| TextRuns.TextRunsLikeRows | Roden.c:729-768 | an interleaving over text files, each load parsing one file and each store printing one, is the one over rows as long as the committed rows are fine |
| TextRuns.TextFollowsIff | Roden.c:729-768 | a complete interleaving over text files is the one over rows at every step if and only if every command, in commit order, keeps its files |
| TextPrograms.TextFilesConserveStockAndBooks | Roden.c:729-768 | every interleaving of plain programs that together leave some of every product conserves stock in the text files, and keeps the books in them |
| TextPrograms.EveryScheduleConservesStockAndBooks | Demos/5_All_Fixed/dsModel_All_Fix.c:125-604 | the same of every finished schedule of the locks, with conditions on the programs and the start alone |
| OrderMessage.ExtractBuyerOrder | Roden.c:582-598 | fills the order list with the message's triples, up to a zero product id |
| OrderMessage.ExtractMeans | Roden.c:582-598 | any message gives its words three by three, up to a product id that converts to 0 |
| OrderMessage.MessageRoundTripIff | Roden.c:582-598 | a printed order reads back if and only if no product id is 0 |

## Left out

- Sockets, message queues, client menus and replies: only file contents, locks and return values are modelled.
- Command selection by substring: `extractCommand` and the two-level `strstr` dispatch are not part of this model; a command is a value.
- Sellers' rows: edits and registration of sellers lock SellerInfo in the lock model, but their row changes are not modelled; registration skips a row.
- Handlers.DataServer.DeleteProduct: the list that is printed for somebody who is not the owner is taken to be zeroed, as all locals are, and a table to be printed up to its zero rows, where the source prints a line of commas for each row the file had; deletion is not among the interleaved commands, and the global list of deleted products is not modelled.
- The lookup loop of `validateOrderIsBuyers`, whose index never advances.
- Handlers.StoreTable: prints up to the sentinel row, because the number of rows that the printers take from the file's newlines is not modelled.
- Handlers.DataServer.CompleteAnOrder: requires the buyer, unless it is 0, and room in the tables if the order is accepted, because the source then searches the buyers and fills the arrays without bounds; where `Shop.Apply` meets another missing buyer or order it changes nothing.
- Handlers.DataServer.BuyerEditsContact: requires the buyer or buyer 0, like Handlers.DataServer.BuyerEditsNumber, and Handlers.DataServer.BuyerModifiesOrder requires the order's line and bill or order 0: for other ids the source's searches run off the arrays.
- Handlers.DataServer.ModifyQuantity: the result says whether the refusal is sent; the source sends the confirmation in either case.
- Interleave.Runs: an accepted order for any buyer but 0 finds the buyer when it loads them; without the row the source's search runs off the array.
- Serial.Access: one file load or store is one step; that loads are atomic is an assumption, because all loaders share the position that `strtok` keeps, and loads of different tables can run at the same time. A refused order goes through its remaining accesses as steps that do nothing.
- LockOrder.LockOrderIff: asks that no two orders and no bill of the start share a number, which `generateUID` is meant to see to; two orders with one number and one content could stand in for each other.
- TextPrograms.TextFilesConserveStockAndBooks: registrations, new products, quantity changes and returns are not plain; for them TextFiles.TextRunIff gives the exact condition, command by command.
- `generateUID`: the id is a parameter; `Books.Admissible` asks for order ids that no bill has.
- Values outside a C `int`, uninitialised locals, the size of the `putBack` buffer and overlapping `sprintf`: integers are unbounded apart from the 32-bit range in the text results, tables end in all-zero rows, and texts are taken to fit.
- Fairness and writer starvation: the protocol does not promise them.
- The toy programs in Demos/1 and Demos/2 and the near-copies in Demos/3, Demos/4 and Demos/5.
- Lock steps as statements: the protocol is a state machine on values, one operation per step, since its operations interleave; the C `while(1)` loop around the commands is the list of sections.
