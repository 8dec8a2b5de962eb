# IOC: a verified model of a tiny dependency injector

The repository wires a small object graph by dependency injection.
`DependencyInjector.getService` takes a class and reads the classes of its
constructor parameters from reflection metadata. It resolves each of them
recursively, left to right, and constructs the class with the results. A
class without metadata is constructed with no arguments. The graph it builds
for the demo holds a `WareService` (a stock counter starting at 10), a
`CartService` (a cart count starting at 0) and a `WareComponent` whose
`addToCart` moves one ware from the stock to the cart.

This project models that core in Dafny:

- `di_server.dfy`, module `DiServer` (diServer.ts). The reflection metadata
  is an explicit `Registry`, a map from a class to the ordered list of its
  parameter types. A missing entry reads as an empty list, as in the source.
  An object is an `Instance(id, cls, args)`. Its `id` is its allocation
  number: every construction takes the next free number, so object identity
  and construction order can be stated. `Resolve` and `ResolveAll` are the
  resolver as functions; `GetService` is the same resolver written as the
  source writes it, a `for` loop that pushes each recursively resolved
  argument, proved equal to `Resolve`. Termination is witnessed by a ghost
  `rank` that strictly falls along dependency edges. The source has no cycle
  check, so `CycleIsUnranked` shows that no class on a cycle can meet the
  resolver's precondition.
- `class_server.dfy`, module `ClassServer` (classServer.ts). `WareService`,
  `CartService` and `WareComponent` are classes whose methods update fields
  in place. The getters `WareService.Stock` and `CartService.WareCount` are
  functions that only read their object. `AddToCart` is tied to the
  specification function `AfterAddToCart`; the lemmas about repeated calls
  are proved about that function. The decorator `Injectablexxx` is a method
  with an empty body, no result and no `modifies` clause, so it changes
  nothing.
- `driver.dfy`, module `Driver` (index.ts, as scenarios only). The demo's
  registry, the tree that resolving `Index` yields, and the status values
  printed by the hand-wired run (9/1, then 8/2) and by the injected run
  (9/1 twice, because every resolution builds fresh services).

## Model

| member | source | states |
|---|---|---|
| `DiServer.ParamTypes` | diServer.ts:12-16 | the metadata lookup: a class with no entry and a class with an empty entry both read as the empty list, the two cases that the source's test for absent or zero-length metadata sends to zero-argument construction |
| `DiServer.Resolve` | diServer.ts:9-30 | the root has the requested class; it is constructed last (its identity is the last one allocated); it has one argument per parameter type and the i-th argument has the i-th parameter type; with no or empty metadata the result is the class built with zero arguments |
| `DiServer.ResolveAll` | diServer.ts:21-26 | the argument loop yields exactly one argument per parameter type, each of the class named at that position, and never moves the allocation counter backwards |
| `DiServer.GetService` | diServer.ts:9-30 | the loop that resolves and pushes each parameter returns exactly the object graph and allocation state of `Resolve` |
| `DiServer.ArgumentIsResolution` | diServer.ts:22-25 | the i-th pushed argument is the resolution of the i-th parameter type, started where the arguments before it left off |
| `DiServer.ArgumentsInOrder` | diServer.ts:21-29 | the arguments the class is constructed with are, in order, the resolutions of its parameter types |
| `DiServer.ConstructionIsPostOrder` | diServer.ts:22-29 | construction is depth-first and left to right: the k-th object built is the k-th object of the result in post-order, so every argument subtree is complete before the object that receives it |
| `DiServer.ArgumentsArePostOrder` | diServer.ts:21-26 | the objects built by the argument loop, listed argument by argument in post-order, are exactly the identities the loop allocated, in allocation order |
| `DiServer.FreshGraph` | diServer.ts:16-29 | every object of the returned graph is newly allocated by this call, and no object occurs twice in it, even when a class is needed twice |
| `DiServer.ShapeIgnoresHeap` | diServer.ts:9-30 | the shape of the graph depends only on the metadata and the class, never on earlier allocations: the resolver keeps no state between calls |
| `DiServer.ArgumentShapesIgnoreHeap` | diServer.ts:21-26 | the shapes of the resolved arguments likewise do not depend on earlier allocations |
| `DiServer.IndependentCalls` | diServer.ts:9-30 | two successive calls for the same class give graphs of equal shape that share no object: there is no caching |
| `DiServer.RankFallsAlongPath` | diServer.ts:22-24 | along any chain of dependency edges from a ranked class the rank falls by at least one per edge |
| `DiServer.CycleIsUnranked` | diServer.ts:24 | a class on a dependency cycle admits no rank, so the recursion that has no cycle guard is only defined on acyclic metadata |
| `ClassServer.WareService.constructor` | classServer.ts:4 | a new WareService has stock 10 |
| `ClassServer.WareService.Stock` | classServer.ts:6-8 | the `stock` getter: a function that reads only its own object, so it returns the current stock and changes nothing |
| `ClassServer.WareService.DecreaseStock` | classServer.ts:10-12 | stock falls by exactly one, with no lower bound |
| `ClassServer.CartService.constructor` | classServer.ts:17 | a new CartService has ware count 0 |
| `ClassServer.CartService.WareCount` | classServer.ts:19-21 | the `wareCount` getter: a function that reads only its own object, so it returns the current count and changes nothing |
| `ClassServer.CartService.IncreaseWareCount` | classServer.ts:23-25 | the ware count rises by exactly one |
| `ClassServer.WareComponent.constructor` | classServer.ts:35-36 | the component holds the two services it is given |
| `ClassServer.WareComponent.AddToCart` | classServer.ts:39-46 | stock becomes old stock minus one and ware count old count plus one, only the two held services change, and the reported values are the state after both updates |
| `ClassServer.Injectablexxx` | classServer.ts:28-29 | the decorator: a method with an empty body, no result and no `modifies` clause, so applying it to a class has no effect |
| `ClassServer.AddToCartTimesFromFresh` | classServer.ts:39-41 | from fresh services, n calls of addToCart leave stock 10 - n and ware count n |
| `ClassServer.AddToCartKeepsTotal` | classServer.ts:39-41 | any number of addToCart calls keeps stock + ware count unchanged and raises the ware count by the number of calls |
| `Driver.DemoRegistryIsRanked` | index.ts:21-25 | the demo metadata (WareComponent needs WareService and CartService, Index needs WareComponent) is acyclic |
| `Driver.IndexResolution` | index.ts:34 | resolving Index builds WareService, CartService, WareComponent and Index in that order, as Index(WareComponent(WareService, CartService)) |
| `Driver.WareComponentResolution` | index.ts:17 | resolving WareComponent, whatever was allocated before, gives WareComponent(WareService, CartService) |
| `Driver.NewWareComponent` | classServer.ts:33-36 | constructing a WareComponent from its resolved graph gives a fresh component with fresh services at stock 10 and count 0 |
| `Driver.Index.constructor` | index.ts:24-25 | an Index holds the component it is given |
| `Driver.Index.Run` | index.ts:28-30 | run has exactly the effect of one addToCart on the held component |
| `Driver.ManualWiring` | index.ts:5-11 | hand-wired services and component report 9/1 after the first addToCart and 8/2 after the second |
| `Driver.InjectedWiring` | index.ts:17-35 | the injected WareComponent reports 9/1, and so does the one inside the injected Index, because each resolution builds its own services |

## Left out

- The `reflect-metadata` runtime and the compiler's emission of `design:paramtypes` for decorated classes are replaced by the explicit `Registry` parameter.
- JavaScript's `new constructor(...args)` is modelled as building an `Instance` node. Arity or type mismatches between the metadata and the real constructor are not modelled: JavaScript itself does not check argument counts, and the resolver performs no validation.
- Non-termination on a dependency cycle is not modelled as a run that never returns. The resolver instead requires a rank, and `CycleIsUnranked` shows that a cycle rules one out. That every acyclic registry has a rank is not proved.
- The `console.log` status line of `addToCart` is I/O. Only the two values it shows are modelled, as the `report` result.
- Stock and cart counts are JavaScript numbers (doubles); they are modelled as unbounded integers, so loss of precision beyond 2^53 is not modelled.
- The order inside `addToCart` (decrease the stock, then increase the count) cannot be observed from the final state, because the two updates touch different objects and neither can fail.
- A class with no metadata whose constructor needs arguments is built with no arguments, as diServer.ts:16-17 does. JavaScript's `new` does not check argument counts, so construction raises no error; a later use of a missing argument may fail, and that is not modelled.
- Counter underflow is not guarded, as in the code: stock may go negative.
