# PureShell in Dafny

PureShell is a Python pattern for stateful entities whose behaviour lives in
pure functions. An entity class declares *shell methods*. Each shell method is
a `PureShellMethod` descriptor that names a pure function and a list of *live
attributes*. When the method is looked up on an instance, the descriptor
resolves the function:

- a function given directly is used as it is;
- a function given by name is found on the instance-level override
  `_instance_rules` when that is not None, and otherwise on the class-level
  default `_rules` that `@ruleset_provider` installs.

Calling the resulting wrapper reads the live attributes in declared order and
passes them to the function, followed by the caller's arguments. It then
either returns the result or, with `mutates=True`, writes the result into the
first live attribute and returns None. Two declaration-time checks guard the
pattern:

- the `Ruleset` check rejects a plain function or a nested class whose name
  is not a `__dunder__`;
- the `StatefulEntity` check rejects an untagged plain function, staticmethod
  or nested class whose name does not start with an underscore.
  Shell methods, `@side_effect_method`-tagged members and properties pass.

Neither check looks at members that are not callable, so classmethods (with
any logic) and data attributes pass both.

This project models that core and proves its properties:

- `wrappers.dfy`: `Option` and `Result`.
- `strings.dfy` (module `Strings`): the `str` operations the code uses
  (`startswith`, `strip`, `lower`, `in`, `join`). Whitespace and case are
  those of the characters below U+0080.
- `enforcement.dfy` (module `Enforcement`): the two `__init_subclass__` checks
  over a class body. The body is given as the ordered list of its attributes,
  each with a `MemberKind` standing for what Python finds in `vars(cls)`.
- `pureshell.dfy` (module `PureShell`), in three layers:
  - values: targets, providers, bindings and errors;
  - specification functions: resolution (`Resolve`, `Lookup`), the wrapper
    (`LiveValues`, `CallBound`) and the whole call (`Dispatch`);
  - classes: `EntityType` holds the class-level `_rules` that all instances
    share, and `Entity` holds an instance's fields and its `_instance_rules`.
    Their methods are proved against the specification functions.
- `shopping_cart.dfy` (module `ShoppingCartExample`): `CartRules` and the
  `ShoppingCart` shell, which resolves through its class default.
- `dynamic_behavior.dfy` (module `DynamicBehaviorExample`): two rulesets with
  the same function names, and a `ConfigurableBot` with no class default whose
  bindings resolve through the injected instance override. The rules exist in
  two forms:
  - value functions;
  - methods that change a `BotState` object in place and return that same
    object.
- `readme_examples.dfy` (module `ReadmeExamples`):
  `group_code_blocks_by_heading` from the test harness, as written, as a loop
  over lines. It is proved equal to a scanner over values, and the scanner's
  properties are proved.

The value type an entity holds is a type parameter `V`. Each example supplies
its own (`CartValue`, `BotValue`). A pure function is `seq<V> -> Return<V>`:
it returns a value or raises an exception. Each rule adapter accepts only the
typed argument shape its entity passes and raises `TypeError` on every other
shape. Python would accept some of those shapes and fail on others with
`AttributeError` rather than `TypeError`.

Details of the code that the model keeps:

- An empty tuple of live attributes is accepted. A mutating call with one
  then runs the function and fails with `IndexError` on the write
  (`self.live_attr_names[0]`), writing nothing.
- `pure_func or name`: a `pure_func` given as the empty string is falsy, so
  the method's own name is used.
- The aggressive `respond` lowercases the stimulus before looking for
  "hello", just as the friendly one does.
- The README grouper joins lines with the two characters backslash and `n`,
  and blocks with two such pairs. It never uses real newlines. The model
  keeps those literal separators.

## Model

| member | source | states |
|---|---|---|
| PureShell.NewPureShellMethod | pureshell/__init__.py:56-77 | a single-string live attribute spec becomes a one-element list; a tuple is kept in order; target and `mutates` are stored unchanged |
| PureShell.ShellMethod | pureshell/__init__.py:216-236 | the target is `pure_func` when it is truthy, otherwise the decorated method's own name (also for an empty-string `pure_func`); the descriptor is built from it and the given live attributes and flag |
| PureShell.ActiveProvider | pureshell/__init__.py:106-118 | a non-None instance override is the provider; only when it is None is the class default used |
| PureShell.Resolve | pureshell/__init__.py:101-146 | a direct function bypasses resolution; with no provider at either tier a named lookup is exactly the `RulesetProviderError` for the class and name; otherwise the active provider alone decides, returning its function when it has the name and the `PureFunctionError` naming the function, the provider and the class when it does not; every error is a PureShell error |
| PureShell.OverrideWins | pureshell/__init__.py:108-112 | an override that has the name wins whatever the class default holds |
| PureShell.NoFallthroughToClassDefault | pureshell/__init__.py:129-144 | an override lacking the name is a `PureFunctionError` naming the override, even when the class default has the name |
| PureShell.FindIn | pureshell/__init__.py:129-144 | `getattr(rules_source, name)`: the provider's function when it has the name, otherwise the `PureFunctionError` naming the function, the provider and the class |
| PureShell.Lookup | pureshell/__init__.py:89-146 | attribute access fails exactly when resolution fails, with resolution's error; otherwise the wrapper carries the resolved function with the descriptor's live attribute names and `mutates` flag |
| PureShell.LookupIgnoresFields | pureshell/__init__.py:101-146 | attribute access resolves without reading any field |
| PureShell.LiveValues | pureshell/__init__.py:154-159 | succeeds exactly when every live attribute is present, then yields their values in declared order; otherwise the error is the `LiveAttributeError` for the first absent name and the class |
| PureShell.CallBound | pureshell/__init__.py:148-184 | a call succeeds exactly when all live attributes are present, the function returns and a mutating binding has a first attribute; a missing attribute is reported before the function runs; a failed call writes nothing; non-mutating calls return the value and write nothing; mutating calls return None, set the first live attribute to the value and leave every other field |
| PureShell.ArgumentOrder | pureshell/__init__.py:169-180 | the function receives the live values in declared order, then the caller's arguments in order |
| PureShell.MissingLiveAttributeSkipsFunction | pureshell/__init__.py:156-158 | with an absent live attribute the outcome does not depend on the function at all, and no field changes |
| PureShell.Dispatch | pureshell/__init__.py:101-184 | a resolution error is the outcome whatever the fields hold, and writes nothing; otherwise the call is the wrapper's call with the resolved function |
| PureShell.DispatchWritesAtMostFirstAttribute | pureshell/__init__.py:181-184 | a call keeps the set of fields, changes none but the first live attribute of a mutating binding, and a successful mutating call returns None |
| PureShell.ProviderErrorBeforeLiveAttributes | pureshell/__init__.py:120-128 | with no provider the call fails with the provider error even if live attributes are missing too, and writes nothing |
| PureShell.EntityType.constructor | pureshell/__init__.py:263-267 | a new entity class has no class-level provider |
| PureShell.DeclareStatefulEntity | pureshell/__init__.py:292-322 | declaring an entity class fails exactly when the entity check reports an offender, with that error; otherwise a new class with no provider |
| PureShell.DeclareRuleset | pureshell/__init__.py:246-260 | for a provider that exposes only staticmethods of the class body, declaring succeeds exactly when every member passes the Ruleset check, giving that provider; a failure is the non-static-member error naming the class and the first offender in class-body order |
| PureShell.RulesetProvider | pureshell/__init__.py:205-213 | `ruleset_provider(R)` sets the class's `_rules` to R and returns the same class |
| PureShell.Entity.constructor | pureshell/__init__.py:269-290 | after `__init__` the fields are exactly `initial_state` and the override is the given ruleset instance, or None |
| PureShell.Entity.SetField | pureshell/__init__.py:283-285 | `setattr` replaces one field and leaves the override |
| PureShell.Entity.SetInstanceRules | pureshell/__init__.py:287-290 | assigning `_instance_rules` leaves the fields |
| PureShell.Entity.Get | pureshell/__init__.py:89-146 | on an instance, access fails exactly when resolution against its override, its class default and its class name fails, with that error; otherwise the wrapper carries the resolved function with the descriptor's live attribute names and flag |
| PureShell.Entity.GatherLiveValues | pureshell/__init__.py:154-159 | the loop collects exactly `LiveValues`: the values in order, or the error for the first absent attribute |
| PureShell.Entity.CallBoundMethod | pureshell/__init__.py:148-184 | the wrapper's result and the fields afterwards are those of `CallBound` on the fields before; the override is unchanged |
| PureShell.Entity.Invoke | pureshell/__init__.py:89-184 | look-up then call: result and new fields are those of `Dispatch` on the entity before the call |
| Enforcement.SideEffectMethod | pureshell/__init__.py:239-243 | the function is tagged as side-effecting and otherwise handed back unchanged |
| Enforcement.RulesetCheck | pureshell/__init__.py:249-260 | no error exactly when every member is a dunder, not callable, or a staticmethod; otherwise the `TypeError` names the class and the first offender |
| Enforcement.EntityCheck | pureshell/__init__.py:292-322 | no error exactly when every member is skipped by name, a shell method, tagged, a property or not callable; otherwise the `TypeError` names the class and the first offender |
| Enforcement.SkippedNamesAreUnderscored | pureshell/__init__.py:296-301 | the three name-based skips amount to "starts with an underscore" |
| Enforcement.EntityCheckRejectsOnlyUntaggedPublicCallables | pureshell/__init__.py:295-322 | a member is rejected exactly when its name has no leading underscore, it is untagged and it is a plain function, staticmethod or class |
| Enforcement.ClassMethodsAndDataPassBothChecks | pureshell/__init__.py:249-322 | a class body of classmethods and data attributes, under any names, passes both the Ruleset and the StatefulEntity check, since neither inspects non-callable members |
| Enforcement.RulesetChecksSingleUnderscoreNames | pureshell/__init__.py:252-256 | a single-underscore plain function is refused by the Ruleset check but skipped by the entity check |
| Enforcement.RogueRulesRejected | pureshell/__init__.py:252-260 | a ruleset with an undecorated method is refused, naming it |
| Enforcement.RogueEntityRejected | pureshell/__init__.py:295-322 | an entity with an undecorated public method is refused, naming it |
| Strings.StartsWithCharwise | tests/test_readme_examples.py:32 | `startswith` holds exactly when the prefix is no longer than the string and matches its first characters one by one |
| Strings.ContainsIffOccurs | examples/dynamic_behavior_example.py:42 | `sub in s` holds exactly when `sub` occurs at some position of `s` |
| Strings.JoinAppend | tests/test_readme_examples.py:27 | joining one more part adds the separator and that part at the end |
| Strings.StripLeftRemovesLeadingSpace | tests/test_readme_examples.py:40-43 | `lstrip` removes a prefix of whitespace only, and the rest does not start with whitespace |
| Strings.StripRightRemovesTrailingSpace | tests/test_readme_examples.py:40-43 | `rstrip` removes a suffix of whitespace only, and the rest does not end with whitespace |
| Strings.StripTrims | tests/test_readme_examples.py:40-43 | a stripped string has no whitespace at either end |
| Strings.StripKeepsUnpadded | tests/test_readme_examples.py:40-43 | a string with no whitespace at either end is its own strip |
| Strings.Lower | examples/dynamic_behavior_example.py:42 | `lower` keeps the length and maps each character, leaving no upper-case letter |
| Strings.JoinAvoids | tests/test_readme_examples.py:27 | a character in no part and not in the separator is not in the joined string |
| ShoppingCartExample.AddItem | examples/shopping_cart_example.py:34-36 | the result is one longer, the old items come first unchanged and the new item is last |
| ShoppingCartExample.AnyRequiresAgeCheck | examples/shopping_cart_example.py:46 | true exactly when some item requires the age check |
| ShoppingCartExample.IsValid | examples/shopping_cart_example.py:43-48 | valid exactly when no item requires the age check or the user is 21 or older; an empty cart is valid |
| ShoppingCartExample.CartRules | examples/shopping_cart_example.py:31-48 | the `CartRules` provider is named `CartRules` and exposes exactly `add_item` and `is_valid` |
| ShoppingCartExample.AddItemBinding | examples/shopping_cart_example.py:68-71 | `add_item` targets the function named after the method, reads `_items` only and mutates |
| ShoppingCartExample.IsValidForCheckoutBinding | examples/shopping_cart_example.py:73-76 | `is_valid_for_checkout` targets `is_valid`, reads `_items` then `_profile`, and does not mutate |
| ShoppingCartExample.AddItemRule | examples/shopping_cart_example.py:33-36 | called with a list and an item, returns the list with the item appended; any other arguments raise |
| ShoppingCartExample.IsValidRule | examples/shopping_cart_example.py:43-48 | called with a list and a profile, returns `is_valid`'s answer; any other arguments raise |
| ShoppingCartExample.CartRulesAccepted | examples/shopping_cart_example.py:31-48 | `CartRules` passes the Ruleset check, its provider exposes only staticmethods of its class body, and declaring it yields that provider |
| ShoppingCartExample.ShoppingCartAccepted | examples/shopping_cart_example.py:54-87 | `ShoppingCart` passes the StatefulEntity check |
| ShoppingCartExample.CartResolvesThroughClassDefault | examples/shopping_cart_example.py:54-76 | without an override, both bindings resolve to `CartRules` functions with their declared live attributes and flags |
| ShoppingCartExample.AddItemBindingAppends | examples/shopping_cart_example.py:68-71 | `add_item` returns None and replaces `_items` by the list with the item appended; `_profile` is untouched |
| ShoppingCartExample.AddItemOnce | examples/shopping_cart_example.py:68-71 | on a cart object: returns None, appends the item to `_items` and changes no other field |
| ShoppingCartExample.AddItems | examples/shopping_cart_example.py:68-71 | after n calls `_items` holds the n items in insertion order after the old ones, `_profile` and every other field are untouched, and every call returned None |
| ShoppingCartExample.IsValidForCheckoutPassesThrough | examples/shopping_cart_example.py:73-76 | `is_valid_for_checkout` passes `(_items, _profile)` in that order and returns `is_valid`'s answer unchanged, writing nothing |
| ShoppingCartExample.DeclareShoppingCart | examples/shopping_cart_example.py:54-55 | the declared class has `CartRules` as its class default |
| ShoppingCartExample.NewShoppingCart | examples/shopping_cart_example.py:57-60 | a new cart holds an empty item list and the user's profile, and no override |
| ShoppingCartExample.CheckoutWithRestrictedItem | examples/shopping_cart_example.py:57-76 | a fresh cart with one age-restricted item is valid for checkout exactly when the user is 21 or older |
| DynamicBehaviorExample.InitialBotState | examples/dynamic_behavior_example.py:13-20 | a fresh state has energy 100, mood "neutral" and an empty log |
| DynamicBehaviorExample.FriendlyRespond | examples/dynamic_behavior_example.py:29-47 | appends "Friendly response to: " + stimulus to the log; happy if the lowercased stimulus contains "hello", else curious; name and energy unchanged |
| DynamicBehaviorExample.FriendlyPerformAction | examples/dynamic_behavior_example.py:49-63 | appends one log line and lowers energy by 5, with no lower bound; name and mood unchanged |
| DynamicBehaviorExample.AggressiveRespond | examples/dynamic_behavior_example.py:69-86 | appends "Aggressive response to: " + stimulus; annoyed if the lowercased stimulus contains "hello", else hostile; name and energy unchanged |
| DynamicBehaviorExample.AggressivePerformAction | examples/dynamic_behavior_example.py:88-102 | appends one log line and lowers energy by 15, with no lower bound; name and mood unchanged |
| DynamicBehaviorExample.BotState.constructor | examples/dynamic_behavior_example.py:13-20 | a new state object holds the default values |
| DynamicBehaviorExample.FriendlyRespondInPlace | examples/dynamic_behavior_example.py:41-47 | mutates the state object to the friendly response's value and returns that same object |
| DynamicBehaviorExample.FriendlyPerformActionInPlace | examples/dynamic_behavior_example.py:60-63 | mutates the state object to the friendly action's value and returns that same object |
| DynamicBehaviorExample.AggressiveRespondInPlace | examples/dynamic_behavior_example.py:81-86 | mutates the state object to the aggressive response's value and returns that same object |
| DynamicBehaviorExample.AggressivePerformActionInPlace | examples/dynamic_behavior_example.py:99-102 | mutates the state object to the aggressive action's value and returns that same object |
| DynamicBehaviorExample.RulesInstanceExposes | examples/dynamic_behavior_example.py:26-102 | an instance of either ruleset is a provider named after its class that exposes exactly `respond` and `perform_action`, each bound to its ruleset's rule |
| DynamicBehaviorExample.BotRulesetsAccepted | examples/dynamic_behavior_example.py:26-102 | both rulesets pass the Ruleset check, their providers expose only staticmethods of the class body, and declaring them yields those providers |
| DynamicBehaviorExample.RespondRuleAdapts | examples/dynamic_behavior_example.py:30-86 | called with a state and a stimulus, `respond` of either ruleset returns the ruleset's next state; any other arguments raise `TypeError` |
| DynamicBehaviorExample.PerformActionRuleAdapts | examples/dynamic_behavior_example.py:50-102 | called with a state, `perform_action` of either ruleset returns the ruleset's next state; any other arguments raise `TypeError` |
| DynamicBehaviorExample.RespondBinding | examples/dynamic_behavior_example.py:124-137 | `respond` targets the function named after the method, reads `state` only and mutates |
| DynamicBehaviorExample.PerformActionBinding | examples/dynamic_behavior_example.py:139-147 | `perform_action` targets the function named after the method, reads `state` only and mutates |
| DynamicBehaviorExample.ConfigurableBotDeclarationAccepted | examples/dynamic_behavior_example.py:108-156 | `ConfigurableBot` passes the entity check |
| DynamicBehaviorExample.BotWithoutOverrideFails | examples/dynamic_behavior_example.py:108-147 | without the injected override both bindings fail with the provider error, writing nothing: the class has no default |
| DynamicBehaviorExample.RespondStoresBack | examples/dynamic_behavior_example.py:124-137 | `respond` resolves through the override, returns None and stores the ruleset's new state back into `state` |
| DynamicBehaviorExample.PerformActionStoresBack | examples/dynamic_behavior_example.py:139-147 | `perform_action` resolves through the override, returns None and stores the ruleset's new state back into `state` |
| DynamicBehaviorExample.InjectedRulesetDecides | examples/dynamic_behavior_example.py:122-137 | under the same binding, a friendly bot's mood becomes happy or curious and an aggressive bot's annoyed or hostile |
| DynamicBehaviorExample.RepeatedActionCost | examples/dynamic_behavior_example.py:60-102 | n actions cost n times the ruleset's energy, add n log lines, and keep name and mood |
| DynamicBehaviorExample.PerformActionOnce | examples/dynamic_behavior_example.py:139-147 | on a bot object: `state` becomes the ruleset's next state and nothing else changes |
| DynamicBehaviorExample.PerformActions | examples/dynamic_behavior_example.py:139-147 | after n calls `state` is n runs of the ruleset's action on the old state and nothing else changes |
| DynamicBehaviorExample.OpeningHelloGreets | examples/dynamic_behavior_example.py:42 | a stimulus starting with "Hello" contains "hello" once lowercased |
| DynamicBehaviorExample.NewConfigurableBot | examples/dynamic_behavior_example.py:111-122 | a new bot holds a fresh state of its name and the injected override |
| DynamicBehaviorExample.DeclareConfigurableBot | examples/dynamic_behavior_example.py:108 | the declared class has no class default |
| DynamicBehaviorExample.RespondAndAct | examples/dynamic_behavior_example.py:165-183 | a fresh bot that responds to any stimulus and then acts once holds the ruleset's action applied to its response, both stored back through the bindings |
| DynamicBehaviorExample.FriendlyGreeted | examples/dynamic_behavior_example.py:164-170 | greeted with "Hello there!", Buddy keeps energy 100, turns happy and logs one line |
| DynamicBehaviorExample.FriendlyGreetingOutcome | examples/dynamic_behavior_example.py:164-173 | greeted with "Hello there!" and acting once, Buddy has energy 95, mood happy and two log lines |
| DynamicBehaviorExample.AggressiveGreeted | examples/dynamic_behavior_example.py:175-180 | greeted with "Hello?", Spike keeps energy 100, turns annoyed and logs one line |
| DynamicBehaviorExample.AggressiveGreetingOutcome | examples/dynamic_behavior_example.py:175-183 | greeted with "Hello?" and acting once, Spike has energy 85, mood annoyed and two log lines |
| DynamicBehaviorExample.DemonstrateFriendly | examples/dynamic_behavior_example.py:164-173 | the friendly half of the demonstration ends in that state |
| DynamicBehaviorExample.DemonstrateAggressive | examples/dynamic_behavior_example.py:175-183 | the aggressive half of the demonstration ends in that state |
| ReadmeExamples.Step | tests/test_readme_examples.py:31-61 | one line never takes back a finalized section; a `#` line finalizes the previous heading with its blocks (an open block included, nothing if it has none), sets the stripped heading and leaves nothing collected and no block open; any other line keeps sections and heading; an opening fence keeps the open block and opens an empty one; a closing fence closes an open block and is dropped outside one; a code line is collected inside a block and dropped outside |
| ReadmeExamples.ScanAll | tests/test_readme_examples.py:31-61 | after any lines, no lines are pending outside a block and every finalized section collected a block |
| ReadmeExamples.Finish | tests/test_readme_examples.py:63-68 | after the loop the finalized sections stay; one more is emitted exactly when the last heading collected a block or one is still open, and it holds those blocks, with the unterminated one last |
| ReadmeExamples.Sections | tests/test_readme_examples.py:14-68 | no emitted section is without a block |
| ReadmeExamples.Groups | tests/test_readme_examples.py:14-70 | one group per section, in order, under the section's heading |
| ReadmeExamples.Finalize | tests/test_readme_examples.py:24-29 | the current heading becomes a section only if it collected a block; the block list is emptied |
| ReadmeExamples.JoinedBlocks | tests/test_readme_examples.py:35 | each block becomes its lines joined by the literal backslash-n |
| ReadmeExamples.RenderAll | tests/test_readme_examples.py:27-28 | one group per section, in order |
| ReadmeExamples.FinalizeCurrentHeadingGroup | tests/test_readme_examples.py:24-29 | appends the merged group only when blocks were collected, and empties the blocks |
| ReadmeExamples.GroupCodeBlocksByHeading | tests/test_readme_examples.py:14-70 | the loop returns exactly the groups the scanner specification gives for the lines |
| ReadmeExamples.ScanSound | tests/test_readme_examples.py:31-61 | after any prefix of the lines the scanner's sections, heading and block lines all come from the document |
| ReadmeExamples.SectionsAreSound | tests/test_readme_examples.py:14-70 | every emitted group collected at least one block; its heading is the top-level one or a stripped `#` line; every code line is a document line that is neither a heading nor a fence |
| ReadmeExamples.ScanExtends | tests/test_readme_examples.py:31-61 | reading more lines only appends finalized sections |
| ReadmeExamples.GroupsInDocumentOrder | tests/test_readme_examples.py:14-70 | groups finalized after any prefix begin the final result: groups come in document order |
| ReadmeExamples.NoRealNewline | tests/test_readme_examples.py:27-65 | when no line holds a newline, no merged code does: the separators are literal |
| ReadmeExamples.EmptyBlockIsEmitted | tests/test_readme_examples.py:49-57 | an empty fenced block yields an empty-string block and its group is still emitted |
| ReadmeExamples.UnterminatedBlockIsKept | tests/test_readme_examples.py:63-68 | a block still open at the end is kept |
| ReadmeExamples.LinesJoinLiterally | tests/test_readme_examples.py:53-57 | two lines of a block are joined by the literal backslash-n |
| ReadmeExamples.CommentClosesBlock | tests/test_readme_examples.py:32-41 | a `#` line inside a block closes it, keeping the lines so far, and never lands in code |
| ReadmeExamples.NestedOpenFenceScan | tests/test_readme_examples.py:43-58 | after an opening fence nested in a block and a closing fence, the scanner holds two one-line blocks and is outside any block |
| ReadmeExamples.RenderTwoOneLineBlocks | tests/test_readme_examples.py:27-28 | a section of two one-line blocks renders as the two lines joined by the block separator |
| ReadmeExamples.NestedOpenFenceSplitsBlock | tests/test_readme_examples.py:43-51 | an opening fence inside a block ends the prior block; both are merged with the block separator |
| ReadmeExamples.StrayCloseFenceDropped | tests/test_readme_examples.py:53-61 | a closing fence outside a block, like every line there, is dropped |
| ReadmeExamples.HeadingNamesGroup | tests/test_readme_examples.py:32-41 | code under a heading is emitted under the stripped heading |

## Left out

- The asyncio path (`iscoroutinefunction`, `async_runner`, `async_wrapper`) is left out. It is concurrency machinery, and once awaited its semantics match the synchronous path that is modelled.
- Python reflection is replaced by explicit structures: the descriptor protocol, `getattr`/`hasattr`/`setattr`, `vars()`, `callable()` and `isinstance`.
  - Fields are a map, and providers are maps from names to functions.
  - A class body is a list of members with a `MemberKind`.
  - Which kinds are callable is fixed by `Enforcement.IsCallable`.
  - A live attribute found only on the class, not on the instance, is not modelled.
- Keyword arguments (`**kwargs`) are not forwarded; positional arguments suffice.
- Error messages are not modelled as text. Errors carry their kind plus the names of the function, attribute, provider and class they mention. The `(type: …)` part of the `PureFunctionError` message, `type(rules_source).__name__`, is left out: it is `type` for a class provider and the provider's class name for an instance.
- A provider's non-callable attributes, and its inheritance from base classes, are not modelled.
- Inheritance between entity classes is not modelled. In the source, `getattr(instance.__class__, "_rules")` follows the class hierarchy, so a subclass of a `@ruleset_provider`-decorated entity inherits its class default. `DeclareStatefulEntity` always makes a class with no base and no class default.
- `initial_state` keys that name the framework's own attributes (`_instance_rules`, `_rules`) are treated as ordinary fields.
- PureShell.Entity.SetField: likewise treats `_instance_rules` and `_rules` as ordinary fields. In the source, `setattr(obj, "_instance_rules", x)` changes resolution; in the model only `Entity.SetInstanceRules` does.
- ShoppingCartExample.AddItemRule: raises `TypeError` for every argument shape but a list and an item, although `items + [new_item]` accepts any second object.
- ShoppingCartExample.IsValidRule: raises `TypeError` for every argument shape but a list and a profile, although `is_valid` on a list with no restricted item returns True without looking at the profile.
- DynamicBehaviorExample.RespondRule and PerformActionRule likewise accept only a state (and a stimulus), raising `TypeError` otherwise. These shapes are the only ones the entities pass. In Python, other shapes fail differently. A string passed as the state raises `AttributeError` at `.log`. A `BotState` passed as the stimulus raises `AttributeError` at `.lower()`, after `respond` has already appended to the log.
- The bot's `state` is a value in the entity's field map. Inside `Dispatch` the model therefore does not capture the aliasing between the object the rule mutates and the object stored back; both are the same object in the source. The in-place methods on the `BotState` class model the mutation and the returned identity separately.
- PureShell.DeclareRuleset: the provider passed in may omit staticmethods of the class body. In the source `getattr` on the provider finds every one of them; the model only requires that each function it exposes is one. `CartRules` relies on this to leave out `calculate_total`.
- `calculate_total`/`get_total` are left out because they sum floats.
- `examples/game_example.py` is not part of this model: it uses float positions, random spawning and pygame.
- All printing and display methods (`display`, `display_status`, `main`'s output) are left out. The demonstrations in `main` are modelled as methods without output.
- `examples/run.py`, `examples/__init__.py` and `docs/conf.py` are not part of this model; they contain no logic.
- In the README test, the following are left out:
  - `extract_python_code_blocks` (regular expressions);
  - `test_readme_examples` (file reading and `subprocess`);
  - `splitlines`: the document is given as its list of lines.
- `str.strip` and `str.lower` are modelled below U+0080 only. Whitespace from U+0080 upwards (such as U+0085, U+00A0 and U+2000-U+200A) and non-ASCII case mapping are not modelled.
