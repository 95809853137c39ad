# Design patterns in Go — a verified Dafny model

This project models the sequential pattern demonstrations of the Go
repository *design-patterns-in-go* and proves what each one promises.

The covered patterns are:

- behavioural: interpreter, strategy, command, memento, iterator, visitor, chain of
  responsibility, mediator and observer;
- data access: the repository, the data access object and the service locator;
- structural: the flyweight, the caching proxy, the composite, the decorator and the
  prototype.

Each Go source file becomes one Dafny file holding one module of the same name.

- Where the Go code updates fields in place, the module has a `class` with those
  fields. Its methods carry `modifies` clauses, and their `ensures` clauses state
  the whole new state.
- Where the Go code only computes, the module has datatypes, functions and lemmas.
- Each method with a loop is proved against a specification function, such as
  `Strategy.SortedCopy`, `Mediator.Others` or `Observer.Notifications`. The
  lemmas then state the pattern's promise about that function.

Conventions of the model:

- A Go `string` is a byte string. It is modelled as `seq<char>`, one `char` per byte.
- A Go `int` is a mathematical integer. Overflow is not modelled: see "Left out".
- A Go panic becomes an error outcome. Examples are division by zero, indexing an
  empty slice, and calling through a nil interface; the error value carries the
  runtime's message.
- The printed lines that a demo's result depends on (`fmt.Print*`) become
  returned values: the line that would be printed, or the list of recipients
  and lines. The other printed lines are dropped; "Left out" lists both.
- Ranging over a Go map visits the keys in an unspecified order. This is modelled by
  `GoMaps.EnumeratesKeys`, which says a sequence lists every key exactly once. No
  result depends on a particular order.
- Reading a missing key from a Go map yields the zero value. `Iterator.MapIterator.Lookup`
  models that explicitly.

Shared modules:

| file | module | models |
|---|---|---|
| wrappers.dfy | Wrappers | `Option`, `Result` (value or error message) and `Status` (nil or error) |
| decimal.dfy | Decimal | decimal printing and parsing of integers (`strconv.Itoa`, `strconv.Atoi`) |
| gomaps.dfy | GoMaps | ranging over a Go map: an enumeration of its keys, each exactly once |

Pattern modules: interpreter.dfy, strategy.dfy, command.dfy, memento.dfy,
iterator.dfy, repository.dfy, user_dao.dfy, service_locator.dfy, flyweight.dfy,
proxy.dfy, composite.dfy, visitor.dfy, chain_of_responsibility.dfy, mediator.dfy,
observer.dfy, decorator.dfy and prototype.dfy.

## Model

| member | source | states |
|---|---|---|
| Decimal.NatToDigits | behavioral/visitor/main.go:41 | the decimal form of a natural number is non-empty, all digits, and has no leading zero |
| Decimal.AtoiAccepts | behavioral/interpreter/main.go:62 | strconv.Atoi succeeds exactly on a non-empty run of digits, optionally preceded by one sign |
| Decimal.AtoiValue | behavioral/interpreter/main.go:62 | strconv.Atoi gives an accepted token the value of its digits, negated after '-' |
| Decimal.DigitsRoundTrip | behavioral/visitor/main.go:41 | the digits of n read back as n |
| Decimal.AtoiItoa | behavioral/visitor/main.go:41 | strconv.Atoi of strconv.Itoa of any integer gives that integer back |
| Decimal.ItoaShape | behavioral/visitor/main.go:41 | strconv.Itoa gives a digit string, or '-' followed by digits, and nothing but digits and '-' |
| Interpreter.GoDiv | behavioral/interpreter/main.go:38 | the quotient truncates toward zero: the remainder is smaller than the divisor in absolute value and takes the dividend's sign |
| Interpreter.GoDivTruncates | behavioral/interpreter/main.go:38 | Go's -7/2 is -3 while Euclidean division gives -4; the sign cases of truncation |
| Interpreter.Interpret | behavioral/interpreter/main.go:19-41 | the only error is division by zero, and an expression without a division always evaluates |
| Interpreter.InterpretNumber | behavioral/interpreter/main.go:19-21 | a Number interprets to its stored value |
| Interpreter.InterpretOperation | behavioral/interpreter/main.go:29-41 | with both operands evaluated, `+ - * /` give left op right, `/` by zero panics, and any other operator gives 0 |
| Interpreter.TokenValue | behavioral/interpreter/main.go:62 | a run of digits, optionally after one '+' or '-', becomes the value of those digits, negated after '-'; any other token becomes 0, since the Atoi error is dropped |
| Interpreter.TokenValueItoa | behavioral/interpreter/main.go:62 | the decimal form of any integer is read back as that integer |
| Interpreter.Step | behavioral/interpreter/main.go:50-63 | a token panics exactly when it is an operator and fewer than two entries are stacked; otherwise an operator shrinks the stack by one and an operand grows it by one |
| Interpreter.StepOperator | behavioral/interpreter/main.go:50-60 | an operator pops the right operand, then the left one, and pushes one Operation: the stack shrinks by one and nothing below changes |
| Interpreter.StepUnderflow | behavioral/interpreter/main.go:51-54 | an operator on fewer than two entries panics |
| Interpreter.StepOperand | behavioral/interpreter/main.go:61-63 | any other token pushes exactly one Number, 0 for a non-numeric token |
| Interpreter.FeedAppend | behavioral/interpreter/main.go:49-65 | feeding two token runs in turn equals feeding their concatenation, and a panic stops the run |
| Interpreter.FeedLength | behavioral/interpreter/main.go:49-65 | a run that does not panic leaves the old entries plus the tokens minus two per operator |
| Interpreter.TopIsLastPushed | behavioral/interpreter/main.go:66 | the parse returns the last entry pushed; an empty or panicked stack gives an error |
| Interpreter.FeedRpn | behavioral/interpreter/main.go:49-65 | feeding the postfix tokens of an expression pushes exactly that expression onto any stack |
| Interpreter.ParseRpnRoundTrip | behavioral/interpreter/main.go:48-67 | parsing the postfix tokens of an expression on an empty stack returns that expression |
| Interpreter.Context.constructor | behavioral/interpreter/main.go:44-46 | a fresh context has an empty stack |
| Interpreter.Context.Parse | behavioral/interpreter/main.go:48-67 | the loop leaves the stack produced by running the tokens from the old stack (leftovers stay for the next call), and returns its top or the panic |
| Interpreter.SampleParse | behavioral/interpreter/main.go:71 | "3 4 + 2 * 7 /" parses to ((3 + 4) * 2) / 7 |
| Interpreter.SampleValue | behavioral/interpreter/main.go:73 | that expression interprets to 2 |
| Interpreter.Demo | behavioral/interpreter/main.go:69-73 | the program's result is 2 |
| Strategy.SortedCopy | behavioral/strategy/main.go:35-40 | the reference sort: a sorted permutation of its input |
| Strategy.SortedUnique | behavioral/strategy/main.go:16-40 | two sorted permutations of one multiset are equal, so both strategies must agree |
| Strategy.SortedPermutationIsSortedCopy | behavioral/strategy/main.go:35-40 | any sorted permutation of s is the reference sort of s |
| Strategy.BubbleStep | behavioral/strategy/main.go:23-25 | one compare-and-swap keeps the sorted suffix and carries the maximum of the prefix forward |
| Strategy.MaxExtendsSuffix | behavioral/strategy/main.go:21-27 | when a pass ends, the largest remaining value joins the sorted suffix |
| Strategy.CompareAndSwap | behavioral/strategy/main.go:23-25 | the pair at j and j + 1 is swapped exactly when out of order and every other position is kept; the suffix stays done and the running maximum moves to j + 1 |
| Strategy.BubblePass | behavioral/strategy/main.go:22-26 | outer pass i puts the final values in the last i+1 positions, permuting the array |
| Strategy.BubbleSort | behavioral/strategy/main.go:16-30 | on a copy of the input, the result is sorted, has the same length and multiset, and equals the reference sort; the input array is not modified |
| Strategy.QuickSort | behavioral/strategy/main.go:35-40 | the library sort on a copy: a sorted permutation of the same length; the input is not modified |
| Strategy.SortingContext.constructor | behavioral/strategy/main.go:43-45 | a new context has no strategy |
| Strategy.SortingContext.SetStrategy | behavioral/strategy/main.go:47-49 | the strategy is replaced by the one given |
| Strategy.SortingContext.ExecuteStrategy | behavioral/strategy/main.go:51-53 | without a strategy the call panics; otherwise the result is the sorted permutation of the input, whichever strategy was last set |
| Strategy.SampleSorted | behavioral/strategy/main.go:55-65 | the only sorted permutation of the demo data is 11 12 22 25 34 64 90 |
| Strategy.SortSample | behavioral/strategy/main.go:58-64 | setting either strategy and running it on the demo data returns 11 12 22 25 34 64 90 |
| Strategy.Demo | behavioral/strategy/main.go:55-65 | both runs of the program give the same sorted data |
| Command.Appended | behavioral/command/main.go:16-18 | the old text is a prefix of the result and the added string its suffix |
| Command.Truncated | behavioral/command/main.go:20-24 | with n <= length, exactly the last n bytes go; with n > length, the text is unchanged |
| Command.TruncateUndoesAppend | behavioral/command/main.go:36-42 | deleting as many bytes as were added restores the text |
| Command.TextEditor.constructor | behavioral/command/main.go:63 | a new editor holds the empty text |
| Command.TextEditor.Add | behavioral/command/main.go:16-18 | the text becomes old text + s |
| Command.TextEditor.Delete | behavioral/command/main.go:20-24 | the text becomes Truncated(old text, n) |
| Command.AddTextCommand.Execute | behavioral/command/main.go:36-38 | the command appends its text to its editor |
| Command.AddTextCommand.Unexecute | behavioral/command/main.go:40-42 | the command deletes as many bytes as its text has |
| Command.CommandInvoker.Execute | behavioral/command/main.go:49-52 | the command runs and is pushed on the history, which grows by one |
| Command.CommandInvoker.Undo | behavioral/command/main.go:54-60 | an empty history changes nothing; otherwise only the last command is popped and unexecuted, in LIFO order |
| Command.Demo | behavioral/command/main.go:62-75 | "Hello, " then "world!", then one undo leaves "Hello, " |
| Memento.EditAndRestore | behavioral/memento/main.go:10-29 | a snapshot taken before an edit reads back the old text, and restoring it undoes the edit |
| Memento.Editor.SetText | behavioral/memento/main.go:10-12 | the text is replaced |
| Memento.Editor.CreateSnapshot | behavioral/memento/main.go:14-16 | the snapshot holds the current text |
| Memento.Editor.RestoreSnapshot | behavioral/memento/main.go:18-20 | the text becomes the snapshot's, so restoring a fresh snapshot changes nothing |
| Memento.UndoResult | behavioral/memento/main.go:40-51 | with fewer than two snapshots there is no result and the history is kept; otherwise the second-to-last snapshot is returned and only the last is removed |
| Memento.UndoReturnsNewestRemaining | behavioral/memento/main.go:47-50 | after an undo, the returned snapshot is the newest one still in the history |
| Memento.History.AddSnapshot | behavioral/memento/main.go:36-38 | the snapshot is appended at the end |
| Memento.History.Undo | behavioral/memento/main.go:40-51 | the result and the new history are UndoResult of the old history |
| Memento.Demo | behavioral/memento/main.go:53-81 | the undos give "Second line.", then "First line.", then no snapshot with the text kept |
| Iterator.SliceIterator.constructor | behavioral/iterator/main.go:26-28 | a new slice iterator starts at index 0 |
| Iterator.SliceIterator.Next | behavioral/iterator/main.go:39-46 | while HasNext, returns the element at the index and advances by one; when exhausted returns nil and keeps the index |
| Iterator.UserProfileSlice.CreateIterator | behavioral/iterator/main.go:26-28 | a fresh iterator over the profiles at index 0 |
| Iterator.DrainSlice | behavioral/iterator/main.go:98-102 | draining yields the remaining profiles in slice order and exhausts the iterator |
| Iterator.SnapshotLookups | behavioral/iterator/main.go:54-75 | on a key snapshot of the map, every key is present, so the lookup gives its stored profile and never the zero profile |
| Iterator.DrainedFreshMap | behavioral/iterator/main.go:54-80 | draining a fresh snapshot gives as many profiles as the map holds, each the stored profile of its key, and every stored profile appears |
| Iterator.SliceHasNextIffRemaining | behavioral/iterator/main.go:35-37 | HasNext holds exactly when profiles remain past the index |
| Iterator.MapHasNextIffRemaining | behavioral/iterator/main.go:68-70 | HasNext holds exactly when keys remain past the index |
| Iterator.MapIterator.Next | behavioral/iterator/main.go:72-80 | while HasNext, returns the profile under keys[index] and advances by one; when exhausted returns nil |
| Iterator.UserProfileMap.CreateIterator | behavioral/iterator/main.go:54-60 | the key snapshot lists each map key exactly once, in some order, and the index is 0 |
| Iterator.DrainMap | behavioral/iterator/main.go:105-109 | draining yields, in key-snapshot order, the profile of each remaining key |
| Iterator.TwoKeys | behavioral/iterator/main.go:55-59 | an enumeration of the demo's two keys is one of the two orders |
| Iterator.Demo | behavioral/iterator/main.go:82-109 | the slice gives Alice then Bob; the map gives Charlie and Dave in either order |
| GoMaps.Keys | behavioral/iterator/main.go:55-59 | the loop collects each key of the map exactly once |
| GoMaps.Values | other/repository/main.go:50-54 | the loop collects the value of each key, each key exactly once |
| GoMaps.EnumerationLength | other/repository/main.go:49-55 | an enumeration of the keys is exactly as long as the map |
| Repository.FindAfterAdd | other/repository/main.go:32-45 | after adding a book, FindById of its id returns it |
| Repository.FindAfterRemove | other/repository/main.go:37-46 | after removing an id, FindById reports "Book not found" |
| Repository.OtherIdsUnchanged | other/repository/main.go:33-38 | adding or removing one id leaves every other id as it was, and removing twice equals removing once |
| Repository.InMemoryBookRepository.constructor | other/repository/main.go:26-30 | a new repository is empty |
| Repository.InMemoryBookRepository.Add | other/repository/main.go:32-35 | the book is stored under its id, overwriting, with no error |
| Repository.InMemoryBookRepository.Remove | other/repository/main.go:37-40 | the id is deleted, with no error even when absent |
| Repository.InMemoryBookRepository.FindById | other/repository/main.go:42-47 | the stored book, or "Book not found" exactly when the id is absent |
| Repository.InMemoryBookRepository.FindAll | other/repository/main.go:49-55 | every stored book exactly once and nothing else: as many books as ids, distinct ids |
| Repository.Demo | other/repository/main.go:57-94 | book 1 is found, two books are listed, and after removal book 1 is not found |
| UserDao.Delete | data_access_object/main.go:46-53 | succeeds exactly when the id is present, then removing only that key; otherwise reports "User not found" and keeps the map |
| UserDao.SaveDeleteGet | data_access_object/main.go:25-53 | a saved user is found, a deleted one is not, and other ids are unaffected |
| UserDao.DeleteTwice | data_access_object/main.go:46-50 | deleting a second time reports "User not found" and changes nothing |
| UserDao.UserDaoImpl.constructor | data_access_object/main.go:68-70 | a new store is empty |
| UserDao.UserDaoImpl.GetUser | data_access_object/main.go:25-31 | the stored user, or "User not found" exactly when absent |
| UserDao.UserDaoImpl.GetAllUsers | data_access_object/main.go:33-39 | every stored user exactly once, as many as the map holds |
| UserDao.UserDaoImpl.SaveUser | data_access_object/main.go:41-44 | the user is stored under its id, overwriting, with no error |
| UserDao.UserDaoImpl.DeleteUser | data_access_object/main.go:46-53 | the new map and the error are those of Delete |
| UserDao.UserService.constructor | data_access_object/main.go:59-61 | the service uses the given store |
| UserDao.UserService.GetUserDetails | data_access_object/main.go:63-65 | the same answer as the store's GetUser |
| UserDao.Demo | data_access_object/main.go:67-84 | user 1 is Giga Chad |
| ServiceLocator.NamesDistinct | other/service_locator/main.go:16-28 | the two services have different names, so both can be registered |
| ServiceLocator.ConnectNamesService | other/service_locator/main.go:16-32 | each service's connection message names that same service |
| ServiceLocator.RegisterThenLookup | other/service_locator/main.go:39-49 | a registered service is found under its own name, and other names are unaffected |
| ServiceLocator.DatabaseServiceLocator.constructor | other/service_locator/main.go:52-54 | a new locator is empty |
| ServiceLocator.DatabaseServiceLocator.GetService | other/service_locator/main.go:39-45 | the service under that name, or "Service Not Found" exactly when none is registered; a found service's own name is the one asked for |
| ServiceLocator.DatabaseServiceLocator.RegisterService | other/service_locator/main.go:47-49 | the service is stored under its GetName(), overwriting |
| ServiceLocator.Demo | other/service_locator/main.go:51-74 | both lookups connect to the right database |
| Flyweight.TextStyle.Format | structural/flyweight/main.go:14-16 | the result is '[', the style name, a space, the text, then ']' |
| Flyweight.FormatInjective | structural/flyweight/main.go:14-16 | one style formats different texts differently |
| Flyweight.TextStyleFactory.constructor | structural/flyweight/main.go:61-63 | a new factory has no styles |
| Flyweight.TextStyleFactory.GetTextStyle | structural/flyweight/main.go:25-36 | a known name returns the identical instance and keeps the map; a new name adds exactly one fresh style with that name |
| Flyweight.SharedStyleRanges | structural/flyweight/main.go:46-58 | two ranges made with one style share that style, and they format alike exactly when their texts are equal |
| Flyweight.TextRange.Format | structural/flyweight/main.go:56-58 | the range's line is '[', its style's name, a space, its text and ']', the same line its style gives the text |
| Flyweight.Demo | structural/flyweight/main.go:60-70 | the two ranges share one style and read "[Bold Hello]" and "[Bold World]" |
| Proxy.RealAnswer | structural/proxy/main.go:19-23 | the real backend always succeeds, with a user whose id is the requested one and whose name is "John Doe" |
| Proxy.RealAnswerInjective | structural/proxy/main.go:19-23 | different ids get different answers |
| Proxy.CachedUsersKeepTheirIds | structural/proxy/main.go:31-44 | in front of the real backend, every cached user carries the id it is cached under |
| Proxy.Backend.GetUser | structural/proxy/main.go:19-23 | the backend's answer, and the request is recorded |
| Proxy.CachedUserService.constructor | structural/proxy/main.go:46-51 | a new proxy has an empty cache |
| Proxy.CachedUserService.GetUser | structural/proxy/main.go:31-44 | a hit returns the cached user without calling the backend; a miss calls it once, caches a success under the id only, and caches no error |
| Proxy.Demo | structural/proxy/main.go:53-60 | two calls for "123" return the same user, and the backend is asked once |
| Composite.FileSize | composite/main.go:16-18 | a file's size is the size it was made with |
| Composite.SumSizesAppend | composite/main.go:26-37 | adding a child adds its size to the sum |
| Composite.EmptyFolder | composite/main.go:26-32 | an empty directory has size 0 |
| Composite.TotalAppend | composite/main.go:26-32 | totals add over concatenation |
| Composite.SizeIsLeafTotal | composite/main.go:16-32 | a node's size is the total of the file sizes in its subtree |
| Composite.SumSizesIsLeafTotal | composite/main.go:26-32 | a directory's children sum to the total of their leaves |
| Composite.Directory.constructor | composite/main.go:42 | a new directory has no children |
| Composite.Directory.GetSize | composite/main.go:26-32 | the loop sums the sizes of the children |
| Composite.Directory.AddChild | composite/main.go:35-37 | the child is appended at the end and the size grows by its size |
| Composite.Demo | composite/main.go:39-46 | files of 200 and 300 give 500 |
| Visitor.AcceptCases | behavioral/visitor/main.go:24-61 | a literal gives its decimal form, and an addition gives "(" + left + " + " + right + ")", for either visitor |
| Visitor.VisitLiteralReadsBack | behavioral/visitor/main.go:40-55 | a literal's string parses back to the literal's value |
| Visitor.VisitAdditionLayout | behavioral/visitor/main.go:44-61 | an addition's string is '(', the left operand's string, " + ", the right operand's string and ')', with nothing else |
| Visitor.EvaluatorIsRenderer | behavioral/visitor/main.go:40-61 | the evaluator and the renderer give the same string for every expression: the evaluator does not add |
| Visitor.CountAppend | behavioral/visitor/main.go:47 | character counts add over concatenation |
| Visitor.CountNotInDecimal | behavioral/visitor/main.go:41 | a character outside digits and '-' never occurs in a decimal form |
| Visitor.ParenthesesPerAddition | behavioral/visitor/main.go:44-61 | the output holds exactly one '(' and one ')' per addition node |
| Visitor.SampleRendering | behavioral/visitor/main.go:63-78 | the sample tree reads "(1 + (2 + 3))" under both visitors |
| ChainOfResponsibility.LevelsOrdered | behavioral/chain_of_responsibility/main.go:6-10 | Info < Warning < Error |
| ChainOfResponsibility.Logger.constructor | behavioral/chain_of_responsibility/main.go:58-59 | a new logger has its kind and threshold and no successor |
| ChainOfResponsibility.Logger.SetNext | behavioral/chain_of_responsibility/main.go:24-26 | the successor is replaced |
| ChainOfResponsibility.Logger.LogMessage | behavioral/chain_of_responsibility/main.go:28-35 | the recursion down the successors writes exactly Written(chain, level, message) |
| ChainOfResponsibility.Logger.LineLayout | behavioral/chain_of_responsibility/main.go:28-50 | a console line is "Writing to console: " then the message, an error-log line "Writing to error log: " then the message, so one logger writes different messages differently |
| ChainOfResponsibility.KindsWriteDifferently | behavioral/chain_of_responsibility/main.go:28-50 | no console line equals an error-log line |
| ChainOfResponsibility.WrittenByOne | behavioral/chain_of_responsibility/main.go:29-31 | a logger writes iff its threshold is at most the message level |
| ChainOfResponsibility.AllWrite | behavioral/chain_of_responsibility/main.go:28-35 | when every threshold is met, every logger writes once, in chain order |
| ChainOfResponsibility.NoneWrite | behavioral/chain_of_responsibility/main.go:28-35 | when no threshold is met, nothing is written |
| ChainOfResponsibility.WrittenAppend | behavioral/chain_of_responsibility/main.go:32-34 | every logger forwards whether or not it wrote: a chain's output is its parts' output in order |
| ChainOfResponsibility.WrittenMonotone | behavioral/chain_of_responsibility/main.go:29-31 | a higher level is written by at least as many loggers |
| ChainOfResponsibility.DemoInfo | behavioral/chain_of_responsibility/main.go:64 | an Info message is written by the console logger only |
| ChainOfResponsibility.DemoError | behavioral/chain_of_responsibility/main.go:65 | an Error message is written by the console logger, then the error logger |
| ChainOfResponsibility.Demo | behavioral/chain_of_responsibility/main.go:56-65 | the program's two messages produce those lines |
| Mediator.Receipts | behavioral/mediator/main.go:48-50 | one line per recipient, each that recipient's receipt of the unchanged message |
| Mediator.OthersAppend | behavioral/mediator/main.go:26-30 | the recipients of a list are the recipients of its parts, in registration order |
| Mediator.OthersMembers | behavioral/mediator/main.go:27 | a user receives iff registered and not the sender |
| Mediator.SenderExcluded | behavioral/mediator/main.go:27 | the sender never receives its own message |
| Mediator.UnregisteredSenderReachesAll | behavioral/mediator/main.go:25-31 | an unregistered sender reaches every registered user |
| Mediator.RegisteredSenderMissesOne | behavioral/mediator/main.go:25-31 | a sender registered once reaches all others, one fewer than registered |
| Mediator.ChatRoom.constructor | behavioral/mediator/main.go:53 | a new room has no users |
| Mediator.ChatRoom.Register | behavioral/mediator/main.go:21-23 | the user is appended at the end |
| Mediator.ChatRoom.SendMessage | behavioral/mediator/main.go:25-31 | the loop delivers to every user but the sender, in registration order, leaving the user list unchanged |
| Mediator.User.constructor | behavioral/mediator/main.go:39-41 | a user has its name and its room |
| Mediator.User.Receive | behavioral/mediator/main.go:48-50 | the line starts with the receiver's name, then " received message: ", and ends with the unchanged message |
| Mediator.User.Send | behavioral/mediator/main.go:43-46 | announces the message, then routes it through its own room with itself as sender |
| Mediator.DemoDeliveries | behavioral/mediator/main.go:59-65 | each of the three users reaches exactly the two others |
| Mediator.Demo | behavioral/mediator/main.go:52-65 | the three messages reach the two other users each |
| Observer.JobSeeker.Notify | observer/main.go:20-22 | the line starts with "Hi " and the seeker's name, then "! New job posted: ", and ends with the post's title; it is 21 bytes longer than name and title together |
| Observer.Notifications | observer/main.go:33-37 | one line per subscriber, in order, each about the same post |
| Observer.NotificationsAppend | observer/main.go:33-37 | notifying a list notifies its parts in order |
| Observer.NotifyDistinguishesPosts | observer/main.go:20-22 | different posts give a seeker different lines |
| Observer.JobBoard.constructor | observer/main.go:45 | a new board has no subscribers |
| Observer.JobBoard.Subscribe | observer/main.go:29-31 | the observer is appended at the end |
| Observer.JobBoard.AddJob | observer/main.go:33-37 | the loop notifies each subscriber once, in order, with the same post, nobody when there are none, and leaves the list unchanged |
| Observer.Demo | observer/main.go:39-50 | both seekers hear of the post |
| Decorator.ReadIsPrefixesThenData | structural/decorator/main.go:15-37 | every reader stack reads its decorators' prefixes, outermost first, followed by the file's data |
| Decorator.DecoratorKeepsSuffix | structural/decorator/main.go:26-36 | each decorator keeps the inner output as a suffix and adds exactly its prefix's length |
| Decorator.EndsWithFileData | structural/decorator/main.go:15-37 | every stack of decorators ends with the file's data |
| Decorator.LengthBounds | structural/decorator/main.go:24-37 | the length grows by 9 to 10 bytes per decorator |
| Decorator.DemoReads | structural/decorator/main.go:43-48 | "buffered data from file" and "decrypted buffered data from file" |
| Decorator.Demo | structural/decorator/main.go:39-48 | the program reads those two strings |
| Prototype.RegistrationForm.constructor | prototype/main.go:10-13 | a form holds its name and email |
| Prototype.RegistrationForm.Clone | prototype/main.go:17-22 | a newly allocated form with exactly the same name and email |
| Prototype.EditClone | prototype/main.go:17-22 | editing a clone's fields leaves the prototype unchanged, since they are separate objects |
| Prototype.Demo | prototype/main.go:24-42 | the clone's printed name and email are the prototype's "Default Name" and "default@example.com" |

## Left out

- The singleton worker pool (singleton/main.go) is not modelled. Its goroutines, channels, wait group and `sync.Once` are about concurrency.
- Dependency injection, the factory and the builder are not modelled. They write to files, create files, or depend on `net/http` and Unicode case mapping.
- The adapter, facade, template method, bridge, abstract factory and state demos are not modelled. They only print constant strings, and the state demo never changes its state from inside a state method.
- The console is not modelled. Some printed lines become returned values; the others are dropped.
  - Returned, as the printed values: the flyweight's formatted ranges, the service locator's connection messages, the chain's, mediator's and observer's lines, the decorators' reads, the interpreter's result, the strategy's sorted slices, the composite's total size, the iterator's profiles, the visitor's evaluated and rendered strings, the command editor's three displayed texts, the memento editor's text after each undo, the repository's found book, listed books and not-found error, the data access object's retrieved user, and the prototype demo's name and email.
  - Dropped: the proxy's "Returning user from cache..." line, the memento demo's "Current Text:" line, and the fixed labels printed before values ("Undo n: ", "Found book:", "Error:", "Retrieved User:", "Name: ..., Email: ...", "Evaluation: ", "Rendering: ", "Result:", and the iterator's "Iterating over ..." headings).
  - Recorded as a request instead: the real proxy backend's "Fetching user from API..." line.
- The mutexes of the flyweight factory and the caching proxy are not modelled. Both are treated as sequential.
- Go map iteration order is not fixed. `FindAll`, `GetAllUsers` and the map iterator are stated for every enumeration of the keys, each key exactly once.
- UserDao.UserDaoImpl.SaveUser, Repository.InMemoryBookRepository.Add, Repository.InMemoryBookRepository.FindById, Proxy.CachedUserService.GetUser, Iterator.SliceIterator.Next and Iterator.UserProfileMap.CreateIterator: Go stores, caches or returns pointers here. These are the saved `*User`, the stored `*Book`, the cached `*User`, a pointer into the iterated slice, and the map shared with the iterator. The model stores and returns values instead. Their invariants hold only if nobody writes through those pointers. These invariants are `Valid()`, the ensures of `GetAllUsers` and `FindAll`, and "a cache hit is the backend's answer for that id".
- Pointer aliasing is not modelled. Expression trees (interpreter, visitor), file-system trees (composite) and reader stacks (decorator) are datatype values. A directory added as a child is therefore a snapshot: changing it afterwards does not change its parent.
- Interpreter.GoDiv: 64-bit overflow is not modelled, because integers are unbounded. In particular, Go's minimum int divided by -1 wraps, and that wrap is not modelled. The same holds for `+`, `-` and `*` in Interpreter.Interpret.
- Decimal.Atoi: range errors are not modelled. Every digit string parses, however long. Only ASCII digits and an optional sign are accepted, as the Go library accepts them. Underscores and base prefixes are rejected, as Go's base-10 `Atoi` rejects them.
- Interpreter.Context.Parse: receives its tokens as a sequence. The whitespace splitting of `strings.Fields` is not modelled. After a panic the program stops, and the model then leaves an empty stack.
- Strategy.QuickSort: is specified as the library sort's promise (a sorted permutation) and not as the steps of a quicksort, since the Go code only calls `sort.Ints`.
- Command.TextEditor.Delete: takes a natural number. A negative count makes Go panic on the slice expression, and that case is not modelled.
- Iterator.UserProfileMap: the unused `keys` field of the Go struct is not modelled. The snapshot lives in the iterator.
- Proxy.Backend: the real service is a parameter, a deterministic function from id to answer, with its requests recorded. Its console line is not modelled.
- ChainOfResponsibility.Logger: the two Go logger types become one class with a kind. Each kind writes its own line.
- ChainOfResponsibility.Logger.LogMessage: requires the successors to form a finite chain ending in nil. On a cyclic chain the Go recursion never stops; that case is not modelled.
- Memento.Editor.RestoreSnapshot: takes a snapshot value. A nil snapshot, which makes Go panic, is not modelled. The Go demo restores the first two undos unchecked (behavioral/memento/main.go:69, 73). This is safe there because both return a snapshot, and the model proves they do. Only the third undo is checked for nil (77-80), and the model proves it yields none.
- Prototype.RegistrationForm.Clone: returns a `RegistrationForm` and not the `Form` interface. The type assertion in the Go demo therefore always holds, and it is not modelled as a separate step.
- Iterator.SliceIterator, Iterator.MapIterator, Repository.InMemoryBookRepository, UserDao.UserDaoImpl, ServiceLocator.DatabaseServiceLocator, Flyweight.TextStyleFactory and Proxy.CachedUserService: their methods require the object's `Valid()` invariant. This invariant bounds the iterator index, or ties every map key to the entry stored under it. Every constructor establishes it.
