# garlicsim stepping loop and module tasting, modelled in Dafny

This project models two pieces of the python_toolbox / garlicsim repository.

**Synchronous simulation** (`simulate.dfy`, module `Simulation`). `simulate`
takes a world state, an iteration count and a step profile. A state with no
clock is first replaced by a copy whose clock is 0. The work then goes to one
of two drivers. The non-history driver pulls states from the simpack's step
iterator, capped at `iterations` items, and returns the last one. The history
driver does the same, and also records the start state as the root of a tree
and every pulled state as a child of the node added before it. Both drivers
stop quietly when the iterator signals that the world has ended.

States are objects (`State`), so "the state is used unchanged and not copied"
is reference equality, and the copy is a fresh object. The step iterator is a
`StepRun`: the states it yields, and whether it then ends the world or simply
runs out. The specification function `FinalState` gives the result: the last
of the first min(`iterations`, available) states, or the start state when
there are none. `ChainTree` gives the tree the history driver builds.

**Module tasting** (`module_tasting.dfy`, module `ModuleTasting`).
`MockImporter` is the import hook used while a module is tasted. It is a
counter-driven state machine: with `skipFirstImport`, the first request goes
to the original import, and every other request gets a stand-in named after
the requested module. `TasteModule` covers the surrounding checks. A path
containing `.zip` is a zip module, imported with no generated name and with
the first import let through. After the import, the module names that are new
in the table of loaded modules must all be known false positives.

`wrappers.dfy` holds the `Option` and `Result` datatypes.

## Model

| member | source | states |
|---|---|---|
| `Simulation.Simulate` | garlicsim/garlicsim/synchronous_crunching/simulate.py:22-52 | A state with a clock is the start state itself, not a copy. A clockless state is replaced by a fresh copy with the same world and clock 0. The result is `FinalState` of the iterator started from that state, with its clock, and with the given profile. A history tree exists exactly when the simpack is history-dependent, and then it is the chain of the pulled states. |
| `Simulation.State.Copy` | garlicsim/garlicsim/synchronous_crunching/simulate.py:40-45 | The deep copy is a new object with the same world and clock as the original. |
| `Simulation.CappedPull` | garlicsim/garlicsim/synchronous_crunching/simulate.py:77 | The capped iterator yields the `i`-th state exactly when `i` is below both the cap and the number of available states; it raises the world-end signal only when the states run out before the cap and the iterator ends the world. |
| `Simulation.Taken` | garlicsim/garlicsim/synchronous_crunching/simulate.py:112 | The number of states the capped iterator yields is at most the cap and at most the number available, and equals one of them. |
| `Simulation.NonHistorySimulate` | garlicsim/garlicsim/synchronous_crunching/simulate.py:94-124 | With no step profile, the iterator runs with the simpack's default step function and no arguments; otherwise with the given profile. The pulling loop stops on exhaustion or on the world-end signal and returns `FinalState`: the last of the first min(`iterations`, available) states, or the start state when there are none. No error leaves the loop. |
| `Simulation.HistorySimulate` | garlicsim/garlicsim/synchronous_crunching/simulate.py:55-91 | The profile is chosen as in the non-history driver, with the default step function when none is given. The result is the same as the non-history driver's. The new tree holds exactly the start state as root, then one node per pulled state, each the child of the node added just before it (`ChainTree`). |
| `Simulation.Tree.constructor` | garlicsim/garlicsim/synchronous_crunching/simulate.py:71 | A new tree has no nodes. |
| `Simulation.Tree.AddState` | garlicsim/garlicsim/synchronous_crunching/simulate.py:72-84 | Adding a state appends exactly one node with the given parent and returns its index; parent links keep pointing to earlier nodes. |
| `Simulation.ChainTree` | garlicsim/garlicsim/synchronous_crunching/simulate.py:71-84 | The chain built from `k` states has `k + 1` nodes. |
| `Simulation.ChainTreeShape` | garlicsim/garlicsim/synchronous_crunching/simulate.py:71-84 | The root node holds the start state and has no parent; node `i` holds the `i`-th pulled state and its parent is node `i - 1`. |
| `Simulation.ChainIsSinglePath` | garlicsim/garlicsim/synchronous_crunching/simulate.py:79-84 | The tree is a single path: the start-state node is its only root, no two nodes share a parent, and the path from the root to the last node is the start state followed by every pulled state in order. |
| `Simulation.ChainPathPrefix` | garlicsim/garlicsim/synchronous_crunching/simulate.py:83-84 | The path from the root to node `k` is the start state followed by the first `k` pulled states. |
| `Simulation.LastNodeHoldsFinalState` | garlicsim/garlicsim/synchronous_crunching/simulate.py:84-91 | The last node added to the tree holds the state the history driver returns. |
| `Simulation.WorldEndedIsAbsorbed` | garlicsim/garlicsim/synchronous_crunching/simulate.py:115-121 | The drivers' result does not depend on how the iterator ends: a run that ends the world gives the same result as one that simply runs out after the same states. |
| `Simulation.FinalIsStartWhenNothingYielded` | garlicsim/garlicsim/synchronous_crunching/simulate.py:113-121 | With zero iterations, or an iterator that yields nothing, the result is the start state. |
| `ModuleTasting.MockImporter.constructor` | garlicsim/garlicsim/general_misc/module_tasting/module_tasting.py:48-51 | A new importer has been called 0 times; its original import and skip flag are the ones given, and stay fixed (`const`). |
| `ModuleTasting.MockImporter.Call` | garlicsim/garlicsim/general_misc/module_tasting/module_tasting.py:53-59 | Each call raises the call count by exactly 1, also when a delegated original import fails. With the skip flag, the first call goes to the original import and returns its module or its error. Every other call returns a stand-in named after the request. The answers so far grow by this answer. |
| `ModuleTasting.OriginalImportAtMostOnce` | garlicsim/garlicsim/general_misc/module_tasting/module_tasting.py:51-59 | Over any sequence of requests, the original import is reached exactly once if the skip flag is set and there was at least one request, and never otherwise. |
| `ModuleTasting.ReplayAnswers` | garlicsim/garlicsim/general_misc/module_tasting/module_tasting.py:54-59 | The `i`-th request reaches the original import exactly when it is the first and the skip flag is set, and then gets its module if that import succeeds. Every other request gets a stand-in named after that request. |
| `ModuleTasting.ContainsSubstring` | garlicsim/garlicsim/general_misc/module_tasting/module_tasting.py:71 | The substring test holds exactly when the substring occurs at some position of the string. |
| `ModuleTasting.ArchiveMemberIsZipModule` | garlicsim/garlicsim/general_misc/module_tasting/module_tasting.py:71 | Every path through a `.zip` archive counts as a zip module. |
| `ModuleTasting.PlanTasting` | garlicsim/garlicsim/general_misc/module_tasting/module_tasting.py:79-84 | The first import is let through exactly when the path contains `.zip`. A zip module gets no name; any other module gets the generated `tasted_module_` name. |
| `ModuleTasting.NewModuleNames` | garlicsim/garlicsim/general_misc/module_tasting/module_tasting.py:94-95 | Walking the listing of loaded names taken after tasting, the result holds exactly the names that were not loaded before, and is no longer than the listing. |
| `ModuleTasting.NewModuleNamesAreTheDifference` | garlicsim/garlicsim/general_misc/module_tasting/module_tasting.py:94-96 | The set of the new names equals the names loaded after tasting minus those loaded before. |
| `ModuleTasting.TasteModule` | garlicsim/garlicsim/general_misc/module_tasting/module_tasting.py:62-100 | Tasting fails with `PathDoesNotExist` exactly on a non-zip path that does not exist. Otherwise the import runs with the planned name and skip flag. Tasting succeeds, returning the imported module, exactly when every name loaded after tasting but not before is a known false positive. |
| `ModuleTasting.ToleratedImportsPass` | garlicsim/garlicsim/general_misc/module_tasting/module_tasting.py:94-98 | An import that leaves only names that were already loaded, or the known false positive, passes the check. |

## Left out

- Simulation.Simulate: the simpack grokker (`SimpackGrokker.create_from_state`) and the parsing of extra arguments into a step profile (`StepProfile.build_parser`) are not part of this model; `Simulate` takes the grokker and an already parsed profile.
- Simulation.Simulate: the clock is an integer; the source accepts any number as a clock.
- Simulation.Simulate: the step iterator sees the start state only through the object itself, its clock at the start and its (unchanging) world; later changes to the state are not visible to it.
- Simulation.State.Copy: `copy.deepcopy` with `DontCopyPersistent` is modelled as a new object holding the same world value; sharing of persistent sub-objects is not modelled.
- Simulation.HistorySimulate: the history browser is not part of this model. In the source the history-dependent iterator reads the growing tree through it; here both drivers get the iterator as a function of the start state, its clock and the step profile.
- Simulation.HistorySimulate: the tree is a plain list of nodes with parent links, not the source's `Tree` class (no branching API, no paths as objects); the driver returns it so that its shape can be stated, where the source discards it.
- Only non-negative iteration counts are modelled (`iterations` is a natural number). An iteration count of infinity, which `shorten` accepts, is not modelled, and neither is a negative count, which the Python signature also accepts.
- `cute_iter_tools.shorten` is not part of this model; it is taken to yield at most `n` items and to stop without pulling the underlying iterator again after the `n`-th item.
- The step function itself, and exceptions other than `WorldEnded` that it may raise (those propagate in the source), are not modelled.
- ModuleTasting.TasteModule: the address branch (`address_tools.is_address`, `import_tools.find_module`) is not modelled; the argument is always a path.
- ModuleTasting.TasteModule: the import machinery (`import_tools.import_by_path`, `TempImportHookSetter`) is a parameter mapping path, name and skip flag to the module and the loaded names afterwards; `os.path.exists` is a boolean parameter; the uuid in the generated name is a parameter.
- ModuleTasting.TasteModule: both checks are Python `assert` statements with no message; the model tells the two failures apart (`PathDoesNotExist`, `UnexpectedNewModules`) and treats the asserts as always enabled, whereas under `python -O` they are skipped.
- ModuleTasting.TasteModule: an exception raised by the import itself propagates in the source; here the import is a total parameter and cannot fail.
- ModuleTasting.MockImporter.Call: extra positional and keyword arguments to the hook are not modelled, and the stand-in `Mock` object is represented only by its name.
- The table of loaded modules (`sys.modules`) is represented by its names only: a set of names for the copy taken before tasting, and a listing in iteration order for the table afterwards. The module objects in it are not modelled.
- Thread safety of the import hook (a to-do in the source) is not modelled.
