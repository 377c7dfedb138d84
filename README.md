# purified.js core, modelled in Dafny

This project models the reactive core of purified.js and three sequential
pieces that sit beside it. It proves the properties those pieces promise.

- **Signal graph, hot/cold variant** (`packages/purified-js/dist/signals.js`),
  module `PurifiedSignals`.
  - A `Graph` object holds every signal, the module-level `trackerStack` and
    a trace of the calls made to outside followers.
  - A `State` stores its value and notifies only when the value changes.
  - A `Compute` is cold while nobody follows it: it evaluates its callback
    on every read, without caching, and is transparent to tracking.
  - Once followed, a `Compute` is hot: it recomputes under a tracker frame and
    reconciles its dependency map against the signals it read.
  - When its last follower leaves, a hot `Compute` unfollows every
    dependency and becomes dirty again.
- **Signal graph, older variant** (`packages/cherry-js/lib/signals.js`),
  module `CherrySignals`. It has the same shape, with three differences:
  - a dirty `Compute` always recomputes under tracking when read;
  - `follow` calls the follower at once when `immediate` is set or when
    the set was empty;
  - `notify` reads the value once and passes it to every follower.
- **Shared store**, module `SignalStore`. It holds what both graphs have in
  common:
  - the signal records, addressed by id;
  - insertion-ordered follower sets;
  - the callback language a `Compute` runs;
  - the tracker frames;
  - the well-formedness of the dependency maps.
- **Template tokenizer of `library/template/parts.ts`**, module
  `TemplateParts`. A character state machine runs over the strings of a
  tagged template and has these behaviours:
  - white space collapses outside tags;
  - a `:ref` attribute with a fresh id is injected after a tag name;
  - a copy of the state is kept per string;
  - an unquoted attribute-value character is a parse error.
- **Tokenizer of the `Template` constructor** (`src/master/template.ts`),
  module `MasterTemplate`. An 8-state machine copies every character. Each
  interpolated value is spliced in by the state the machine is in:
  - escaped for the quote it sits in;
  - wrapped in quotes when unquoted;
  - as an outlet marker between tags;
  - as an error elsewhere.
- **Keyed list reconciliation** (`packages/master-ts/each.ts`), module
  `KeyedEach`. A cache from key to result is updated in place against a
  new array:
  - results of surviving keys are reused;
  - the mapper runs only for new keys;
  - keys that left the array are evicted.
- **String helpers**, module `Text`:
  - JavaScript's `/\s/` class;
  - `trim` and `trimEnd`;
  - `replace(/c/g, rep)`;
  - decimal printing of an index.

### How the model is built

**Signal ids.** Signals are ids into a `seq<Sig>`.

**Callbacks.** A callback is a small expression language: literals,
additions, conditionals, and reads of other signals. The signals a run
reads therefore depend on the values it meets.

**Followers.** An outside follower is a number whose calls are appended to
the trace. A dependency listener is a `Listener(owner, serial)`, where the
serial stands for the identity of its closure.

**Hot/cold graph (`PurifiedSignals`).**
- It needs no fuel. In this model a dependency is always older than its
  dependent, and a dirty `Compute` never has followers (`Consistent`).
- Notification therefore climbs towards newer signals, and the recomputation
  of a cold dependency goes towards older ones. The rank `Heat` makes that
  recursion terminate.

**Older graph (`CherrySignals`).**
- Its recursion need not end: a followed `Compute` that starts reading an
  unfollowed signal re-enters its own `#update` through `follow`'s implicit
  call.
- The model therefore carries `fuel`, the number of nested recomputations
  the JavaScript call stack still has room for. Each `#update` takes one
  level and gives it back when it returns.
- When the fuel runs out, `overflow` is raised and every call unwinds, as
  the engine's `RangeError` would.

**Ids from `randomId()`.** They are read from a source `ids: nat -> string`
at a counter.

**Operations and loops.** Each operation is a method on the object whose
fields the source updates, proved against a specification function on
values. Each loop of the source is a `while` loop with its invariants.

## Model

| member | source | states |
|---|---|---|
| SignalStore.InsertMembers | packages/purified-js/dist/signals.js:43 | `followers.add(f)` leaves the set alone when `f` is already in it, and otherwise appends `f` at the end of the insertion order |
| SignalStore.InsertOrdered | packages/purified-js/dist/signals.js:43 | adding a follower keeps the follower set duplicate-free and in insertion order, and the follower is then a member |
| SignalStore.DeleteMembers | packages/purified-js/dist/signals.js:44 | after `followers.delete(f)` the members are exactly the old members other than `f`, in their old order |
| SignalStore.DeleteIdempotent | packages/purified-js/dist/signals.js:44 | the unfollower `() => followers.delete(f)` called twice has the effect of calling it once |
| SignalStore.DeleteAbsent | packages/cherry-js/lib/signals.js:163 | deleting a follower that is not in the set changes nothing |
| SignalStore.NextAfterVisits | packages/purified-js/dist/signals.js:47-49 | iterating the set from a cursor yields the next follower in insertion order |
| SignalStore.NextAfterEnds | packages/purified-js/dist/signals.js:47-49 | iteration ends after the last follower |
| SignalStore.CallsOfExternal | packages/cherry-js/lib/signals.js:166-170 | notifying outside followers with a value makes exactly one call per follower, in insertion order, each with that value |
| SignalStore.CallsOfNext | packages/cherry-js/lib/signals.js:166-170 | notifying one more outside follower appends exactly its own call, with the value, after the calls already made |
| SignalStore.TrackedOnce | packages/purified-js/dist/signals.js:30-33 | a read adds the signal to the top tracker frame when there is one, keeps the stack depth, adds nothing else, and a second read of the same signal changes nothing (set semantics) |
| SignalStore.WithoutElements | packages/purified-js/dist/signals.js:122 | `trackedSet.delete(self)` removes exactly `self` from the tracked set |
| SignalStore.SubscribedConsistent | packages/purified-js/dist/signals.js:133-145 | following a new, older, clean dependency and recording its unfollower keeps the store consistent; the listener is appended to the dependency's followers |
| SignalStore.UnsubscribedConsistent | packages/purified-js/dist/signals.js:129-130 | calling a stored unfollower and deleting the dependency keeps the store consistent, and a dependency is always older than its owner |
| SignalStore.FollowedConsistent | packages/purified-js/dist/signals.js:95-107 | adding an outside follower to a signal that is not dirty keeps the store consistent |
| SignalStore.UnfollowedConsistent | packages/purified-js/dist/signals.js:44 | removing an outside follower keeps the store consistent |
| SignalStore.FlagsConsistent | packages/purified-js/dist/signals.js:113 | setting a value or the dirty flag keeps the store consistent, provided a `Compute` made dirty has no followers |
| SignalStore.AppendConsistent | packages/purified-js/dist/signals.js:153-158 | creating a `State`, or a `Compute` whose callback reads only existing signals, keeps the store consistent |
| SignalStore.NoSelfDependency | packages/purified-js/dist/signals.js:122 | in a consistent store no signal depends on itself: every dependency is older than its owner |
| SignalStore.NoListenersLeft | packages/purified-js/dist/signals.js:108-114 | once a `Compute`'s dependency map is empty, none of its listeners is left on any signal (no leaked subscription) |
| SignalStore.StateValueKept | packages/purified-js/dist/signals.js:24-29 | a `State` whose entry among the `State` values is unchanged, in a store of the same kinds, still holds its value: only its own `#set` writes it |
| SignalStore.ComputeWriteKeepsStates | packages/cherry-js/lib/signals.js:137-141 | `#set` on a `Compute` leaves the values of all `State`s as they were |
| SignalStore.ColdUnfollowed | packages/purified-js/dist/signals.js:103-113 | in a consistent store a dirty `Compute` has no followers: it goes dirty only once its last follower has left |
| SignalStore.DependencyOlder | packages/purified-js/dist/signals.js:133-145 | in a consistent store every dependency of a signal is older than the signal |
| PurifiedSignals.TracksGrows | packages/purified-js/dist/signals.js:30-33 | reading a signal only adds to the tracker frame, and what it adds is the signal itself or something older |
| PurifiedSignals.TracksExprGrows | packages/purified-js/dist/signals.js:120 | a callback run only adds to the tracker frame, and only signals older than its `Compute` |
| PurifiedSignals.ColdReadUntracked | packages/purified-js/dist/signals.js:84-86 | reading a cold `Compute` does not register the `Compute` itself: it is transparent |
| PurifiedSignals.PlainReadTracked | packages/purified-js/dist/signals.js:30-33 | reading a `State` or a clean `Compute` registers it, and registers it once however often it is read |
| PurifiedSignals.Graph.constructor | packages/purified-js/dist/signals.js:12 | the program starts with no signals, an empty `trackerStack` and no calls made |
| PurifiedSignals.Graph.UnfollowListener | packages/purified-js/dist/signals.js:101-106 | the unfollower stored for dependency `d` of `c` removes `d` from `c`'s map and changes no newer signal |
| PurifiedSignals.Graph.UnfollowDependencies | packages/purified-js/dist/signals.js:108-114 | `#unfollowDependencies` empties the dependency map, sets the dirty flag, keeps the value and followers, and leaves newer signals, the trace and the stack alone |
| PurifiedSignals.Graph.MarkDirty | packages/purified-js/dist/signals.js:113 | `#dirty = true` on a `Compute` left without followers keeps the store consistent and changes only that flag |
| PurifiedSignals.Graph.Val | packages/purified-js/dist/signals.js:81-90 | `val` returns the stored value of a `State` or clean `Compute` and tracks it. A dirty (cold) `Compute` returns its callback's value uncached: the store is unchanged, it stays dirty, no frame of its own is pushed, and its reads go to the caller's frame |
| PurifiedSignals.Graph.Eval | packages/purified-js/dist/signals.js:120 | a callback run returns the callback's value over current values, records its reads in the top frame, and changes nothing in the store |
| PurifiedSignals.Graph.Notify | packages/purified-js/dist/signals.js:46-50 | `notify` keeps the store consistent; with only outside followers it calls each once, in insertion order, with the current value, and changes nothing else |
| PurifiedSignals.Graph.Visit | packages/purified-js/dist/signals.js:47-49 | one step of `notify`: an outside follower receives the current value |
| PurifiedSignals.Graph.SetValue | packages/purified-js/dist/signals.js:24-29 | `#set` on a `State` leaves the new value stored whatever its followers do, and no other `State` changes value. An unchanged value is a no-op; with outside followers, they are called once each with the new value exactly when it differs from the old |
| PurifiedSignals.Graph.UpdateAndTrack | packages/purified-js/dist/signals.js:115-146 | after `#updateAndTrack` the tracker stack has its old depth and the values of the `State`s are unchanged. With outside followers, the `Compute` is clean, its value is the callback's, its dependency keys equal the tracked set (so it is not its own dependency), newer signals are untouched, and followers were notified only if the value changed |
| PurifiedSignals.Graph.RunTracked | packages/purified-js/dist/signals.js:116-122 | running the callback inside a fresh tracker frame returns the callback's value and the set it read without the `Compute` itself, all older than it, and leaves the store, the calls and the stack as they were |
| PurifiedSignals.Graph.MarkClean | packages/purified-js/dist/signals.js:123 | `#dirty = false` changes only that flag of the `Compute`, keeps the store consistent and makes no call |
| PurifiedSignals.Graph.Reconcile | packages/purified-js/dist/signals.js:124-145 | `#set(value)` followed by the two reconciliation loops leaves the dependency keys equal to the tracked set |
| PurifiedSignals.Graph.ListenerFire | packages/purified-js/dist/signals.js:136-143 | the dependency listener of a `Compute` without followers empties its dependency map and marks it dirty; with followers it recomputes |
| PurifiedSignals.Graph.DropStale | packages/purified-js/dist/signals.js:125-131 | the first loop leaves exactly the old dependencies that were tracked again; the trace is unchanged |
| PurifiedSignals.Graph.FollowNew | packages/purified-js/dist/signals.js:132-145 | the second loop adds every tracked signal to the dependency keys, and calls no outside follower |
| PurifiedSignals.Graph.Subscribe | packages/purified-js/dist/signals.js:133-144 | following a new dependency brings a dirty dependency up to date first, then records the dependency in the map; the trace is unchanged |
| PurifiedSignals.Graph.Ref | packages/purified-js/dist/signals.js:153 | `ref(v)` adds a new `State` holding `v`, with no followers |
| PurifiedSignals.Graph.Awaited | packages/purified-js/dist/signals.js:166-170 | `awaited(promise, until)` returns a new `State` holding `until` |
| PurifiedSignals.Graph.Computed | packages/purified-js/dist/signals.js:71-80 | `computed(cb)` adds a dirty `Compute` with no followers and no dependencies; the callback does not run |
| PurifiedSignals.Graph.SetState | packages/purified-js/dist/signals.js:58-60 | the `State` setter leaves the new value stored whatever its followers do, and no other `State` changes value. Its outside followers are notified only when the value differs from the old one |
| PurifiedSignals.Graph.Follow | packages/purified-js/dist/signals.js:95-100 | `follow(f, immediate)` computes a dirty `Compute` first (ending clean, with the dependencies its run read), calls `f` once with the value only when `immediate`, then adds `f` once |
| PurifiedSignals.Graph.Join | packages/purified-js/dist/signals.js:43 | `followers.add(f)` on a signal that is not cold inserts the outside follower with the next stamp, keeps the store consistent and makes no call |
| PurifiedSignals.Graph.Unfollow | packages/purified-js/dist/signals.js:101-106 | the unfollower removes exactly that follower and leaves the signal settled. A `Compute` left without followers has dropped its dependencies and is dirty, and a second call changes nothing |
| PurifiedSignals.Graph.Effect | packages/purified-js/dist/signals.js:175 | `effect(cb)` runs `cb` once at creation: the new `Compute` is clean, holds the callback's value, depends on exactly what the run read, and is followed by the no-op follower |
| CherrySignals.ReadsOfGrows | packages/cherry-js/lib/signals.js:146-149 | a callback run only adds to its tracker frame, and only signals older than its `Compute` |
| CherrySignals.JoinedWired | packages/cherry-js/lib/signals.js:162 | `followers.add(f)` keeps the store well formed, and `f` is then a member |
| CherrySignals.HookedWired | packages/cherry-js/lib/signals.js:103-116 | `dependencies.set(d, unfollow)` keeps the store well formed when the listener is on `d` |
| CherrySignals.UnsubscribedWired | packages/cherry-js/lib/signals.js:93-97 | calling a stored unfollower and deleting the dependency keeps the store well formed, removes that listener, and the dependency is never the signal itself |
| CherrySignals.FlagsWired | packages/cherry-js/lib/signals.js:137-141 | storing a value or a dirty flag keeps the store well formed |
| CherrySignals.UnfollowedWired | packages/cherry-js/lib/signals.js:163 | removing an outside follower keeps the store well formed |
| CherrySignals.AppendWired | packages/cherry-js/lib/signals.js:177-183 | creating a signal keeps the store well formed |
| CherrySignals.UnfollowedTwice | packages/cherry-js/lib/signals.js:163 | the unfollower returned by `follow` is idempotent |
| CherrySignals.Graph.constructor | packages/cherry-js/lib/signals.js:33 | the program starts with no signals, an empty `trackerStack`, no calls and the given stack depth: the number of `#update`s that can be nested at once, a budget every returning call gives back |
| CherrySignals.Graph.TearDown | packages/cherry-js/lib/signals.js:108-114 | the listener's branch for a `Compute` without followers marks it dirty, empties its dependency map, and leaves none of its listeners on its former dependencies |
| CherrySignals.Graph.Unlink | packages/cherry-js/lib/signals.js:110-113 | one stored unfollower plus `delete`: the dependency leaves the map, its listener leaves the dependency's followers, and nothing else changes |
| CherrySignals.Graph.Get | packages/cherry-js/lib/signals.js:75-80 | `get()` of a plain signal tracks it and returns the stored value. A dirty `Compute` always runs `#update` first (there is no cold path). Without overflow, the stack level it took is given back. In the quiet case it then holds its callback's value, is clean, and is tracked |
| CherrySignals.Graph.Eval | packages/cherry-js/lib/signals.js:87 | a callback run over plain signals returns the callback's value over stored values and records its reads in the top frame |
| CherrySignals.Graph.Update | packages/cherry-js/lib/signals.js:82-119 | `#update` restores the tracker stack depth and, unless the stack overflowed, gives back the stack level it took, and keeps the values of all `State`s. In the quiet case the `Compute` is clean, holds the callback's value, depends on exactly the signals read (so not on itself), and its followers were called once each if the value changed |
| CherrySignals.Graph.Finish | packages/cherry-js/lib/signals.js:87-119 | `#set(value)` inside the pushed frame, then the pop and reconciliation, complete a quiet `#update` |
| CherrySignals.Graph.Close | packages/cherry-js/lib/signals.js:88-119 | popping the frame, deleting `self` from it and reconciling leaves the dependency keys equal to the tracked set without `self`, and the `Compute` clean |
| CherrySignals.Graph.SetValue | packages/cherry-js/lib/signals.js:137-141 | `#set` on a `State` leaves the new value stored whatever its followers do, and no other `State` changes value. It notifies only when the value changed. An unchanged value is a no-op; for a plain signal with outside followers, they are called once each with the new value |
| CherrySignals.Graph.Notify | packages/cherry-js/lib/signals.js:166-170 | `notify` reads the value once and hands that same value to every outside follower, in insertion order |
| CherrySignals.Graph.Broadcast | packages/cherry-js/lib/signals.js:167-169 | the loop of `notify` calls each outside follower once, in insertion order, with the value read before the loop |
| CherrySignals.Graph.VisitEntry | packages/cherry-js/lib/signals.js:167-169 | one pass of the loop of `notify`: an outside follower found in the set is called once with the value and nothing else changes; any follower keeps the store well formed and the `State` values |
| CherrySignals.FollowersWired | packages/cherry-js/lib/signals.js:160-163 | in a well-formed store a follower set is duplicate-free, in insertion order, and each listener in it belongs to an existing `Compute` |
| CherrySignals.Graph.Visit | packages/cherry-js/lib/signals.js:168 | `follower(value)`: an outside follower records exactly that call; a listener of a `Compute` without followers tears it down |
| CherrySignals.Graph.ListenerFire | packages/cherry-js/lib/signals.js:105-115 | the dependency listener recomputes a followed `Compute` (its result stated in the quiet case, as for `Update`); one without followers becomes dirty, with every dependency unfollowed and removed |
| CherrySignals.Graph.FollowWith | packages/cherry-js/lib/signals.js:160-164 | `follow(f, immediate)` calls `f` with the value exactly when `immediate` is set or the set was empty, then adds `f` once. A new listener on an unfollowed signal whose owner has no followers tears the owner down at once |
| CherrySignals.Graph.Greet | packages/cherry-js/lib/signals.js:161 | the immediate call reads the signal (tracked by an enclosing run) and calls an outside follower once with the stored value; a listener whose owner has no followers makes that owner dirty and drops its dependencies |
| CherrySignals.Graph.Join | packages/cherry-js/lib/signals.js:162 | the follower becomes a member of the set, stamped with the clock, which then advances by one; no other signal changes |
| CherrySignals.Graph.Subscribe | packages/cherry-js/lib/signals.js:101-117 | `dependencies.set(d, d.follow(listener))` records `d` as a dependency. When `d` already has followers nothing is called; when neither `d` nor the `Compute` has followers, the `Compute` ends dirty and depends on `d` alone |
| CherrySignals.Graph.Settle | packages/cherry-js/lib/signals.js:90-118 | after the pop, the `Compute` is clean and its dependency keys equal the tracked set |
| CherrySignals.Graph.DropStale | packages/cherry-js/lib/signals.js:92-98 | the first loop leaves exactly the old dependencies that were tracked again, and touches only `self` and its former dependencies |
| CherrySignals.Graph.FollowNew | packages/cherry-js/lib/signals.js:100-118 | the second loop adds every tracked signal to the dependency keys |
| CherrySignals.Graph.Ref | packages/cherry-js/lib/signals.js:177 | `ref(v)` adds a new `State` holding `v` |
| CherrySignals.Graph.Computed | packages/cherry-js/lib/signals.js:62-73 | `computed(cb)` adds a dirty `Compute` with value 0, no followers and no dependencies |
| CherrySignals.Graph.Set | packages/cherry-js/lib/signals.js:45-50 | `set(v)` and `val = v` leave the value stored whatever the followers do, and no other `State` changes value. They call the outside followers once each only when it changed |
| CherrySignals.Graph.Follow | packages/cherry-js/lib/signals.js:160-164 | an outside follower of a plain signal is called with the stored value when `immediate` is set or nobody followed, then it is added once |
| CherrySignals.Graph.Unfollow | packages/cherry-js/lib/signals.js:163 | the unfollower removes exactly that follower and does nothing else (no dependency teardown in this variant) |
| TemplateParts.CharKept | library/template/parts.ts:95-171 | the html only grows by the step. It stays the same exactly when, in `Outer`, a non-`<` white-space character follows white space; otherwise it ends with the character |
| TemplateParts.OpenTag | library/template/parts.ts:87-94 | `<` in `Outer` enters `TagName`, clears the tag, attribute name and value, and takes a fresh `tag_ref` |
| TemplateParts.TagNameSteps | library/template/parts.ts:97-114 | in `TagName`, `/` first enters `TagClose`; white space enters `TagInner` with ` :ref="<tag_ref>"` inserted before it; `>` returns to `Outer`; anything else extends the tag |
| TemplateParts.UnexpectedIff | library/template/parts.ts:142-160 | a character is rejected exactly when it is an unquoted attribute-value character other than `>`, white space or a quote |
| TemplateParts.QuotedStep | library/template/parts.ts:161-168 | in a quoted value the matching quote returns to `TagInner`; any other character is added to `attribute_value` |
| TemplateParts.QuotedRun | library/template/parts.ts:161-168 | a run of characters without the closing quote accumulates verbatim into both the attribute value and the html |
| TemplateParts.FeedQuoted | library/template/parts.ts:161-168 | inside a quoted attribute value, a character other than the closing quote is appended to the value and to the html, and nothing else changes |
| TemplateParts.FeedPart | library/template/parts.ts:59-72 | a failed scan of a string stops at a character inside it |
| TemplateParts.StuckStays | library/template/parts.ts:62-71 | the first rejected character ends the scan of a string |
| TemplateParts.FeedPartExtends | library/template/parts.ts:57-64 | within one string the html only grows |
| TemplateParts.ErrorMessage | library/template/parts.ts:66-71 | a re-raised error message begins with `Parsing error:` |
| TemplateParts.PartsPerString | library/template/parts.ts:54-78 | there is one part per string, in order, earlier parts never change, and the last part's state is the live state |
| TemplateParts.FailureStays | library/template/parts.ts:62-71 | once a string fails, parsing fails with the same `Parsing error:` message |
| TemplateParts.ParseNext | library/template/parts.ts:56-77 | a string scanned to its end adds the part (its html, a copy of the state) and carries the state over to the next string |
| TemplateParts.ParseStuck | library/template/parts.ts:59-71 | a rejected character makes the whole parse fail with the message built from the html so far, the character and the rest of the string |
| TemplateParts.StateObject.constructor | library/template/parts.ts:46-52 | the shared state starts in `Outer` with empty fields |
| TemplateParts.StateObject.ProcessChar | library/template/parts.ts:82-172 | `processChar` updates the shared state object in place as the step function says and returns the new html. On a rejected character it raises the error and leaves the state as it was |
| TemplateParts.ParseTemplateParts | library/template/parts.ts:42-80 | `parseTemplateParts` returns the parts the string-by-string parse yields, or its error |
| MasterTemplate.StepKeepsFieldsSet | src/master/template.ts:58-189 | a step keeps non-null every field it may append to |
| MasterTemplate.ScanKeepsFieldsSet | src/master/template.ts:56-191 | scanning a string keeps non-null every field it may append to, so `null` is never concatenated |
| MasterTemplate.TagOpening | src/master/template.ts:60-72 | `<` in `Outer` enters `TagName` with an empty tag; `/` as the first tag-name character enters `TagClose` |
| MasterTemplate.TagEnd | src/master/template.ts:73-183 | `>` in any tag state returns to `Outer` with `tag = null` |
| MasterTemplate.AttributeValueOpening | src/master/template.ts:115-148 | `=` after an attribute name enters `AttributeValueUnquoted` with an empty value; a following quote enters the matching quoted state |
| MasterTemplate.AttributeValueClosing | src/master/template.ts:154-177 | the matching quote returns to `TagInner` and clears the attribute name and value; any other character extends the value |
| MasterTemplate.Interpolate | src/master/template.ts:193-254 | splicing a value never changes the machine's state and only appends to the html and to `$_nodes` |
| MasterTemplate.PartsCopied | src/master/template.ts:52-191 | every character of every string reaches the html unchanged and in order |
| MasterTemplate.DoubleQuotedEscape | src/master/template.ts:206-209 | in a double-quoted attribute no `"` of the value survives. Without `&` in the value, the text is recovered by undoing `&quot;` |
| MasterTemplate.SingleQuotedEscape | src/master/template.ts:210-213 | in a single-quoted attribute no `'` of the value survives. Without `&` in the value, the text is recovered by undoing `&#39;` |
| MasterTemplate.UnquotedWrapped | src/master/template.ts:228-229 | any value other than a signal or a function in an unquoted attribute is emitted between `"` with no `"` inside |
| MasterTemplate.OuterOutlet | src/master/template.ts:231-252 | a value between tags is pushed to `$_nodes`, and `<x :outlet="N">` names its index |
| MasterTemplate.RejectedIff | src/master/template.ts:197-254 | a value is rejected exactly in `TagName`, `TagClose` or `AttributeName`, or in `TagInner` unless it completes a `<x` component outlet |
| MasterTemplate.ScanPart | src/master/template.ts:56-191 | the character loop ends in the state of the step function and appends the string to the html |
| MasterTemplate.Template.constructor | src/master/template.ts:23-51 | `$_nodes`, `$_listeners`, `$_signals` and the html start empty |
| MasterTemplate.Template.Tokenize | src/master/template.ts:51-256 | the tokenizer loop fills the html, `$_nodes`, `$_signals` and `$_listeners` as the string-by-string run says, or throws its error |
| MasterTemplate.Template.TokenizePart | src/master/template.ts:54-255 | one string and its value advance the run by one step, or end it with the error |
| MasterTemplate.Template.Splice | src/master/template.ts:193-255 | the interpolation branch updates the fields as `Interpolate` says |
| MasterTemplate.RunNext | src/master/template.ts:52-255 | after a string is scanned, the value that follows it is spliced into the build |
| MasterTemplate.RunNextLast | src/master/template.ts:193 | the last string has no value after it |
| MasterTemplate.RunFailureStays | src/master/template.ts:254 | a thrown error ends the constructor: later strings do not change it |
| Text.TrimEnd | src/master/template.ts:197 | `trimEnd()` returns a prefix of the string that does not end in white space |
| Text.TrimEndRemovesSpace | src/master/template.ts:197 | `trimEnd()` removes only white space |
| Text.TrimStart | library/template/parts.ts:68 | the start half of `trim()` returns a suffix that does not begin with white space |
| Text.TrimStartRemovesSpace | library/template/parts.ts:68 | the start half of `trim()` removes only white space |
| Text.Trim | library/template/parts.ts:68 | `trim()` returns a substring with white space at neither end |
| Text.LastN | src/master/template.ts:254 | `html.slice(-256)` is the last 256 characters, or all of a shorter string |
| Text.Replace | src/master/template.ts:208 | `replace(/c/g, rep)` leaves no `c` when `rep` holds none |
| Text.UnreplaceReplace | src/master/template.ts:208-212 | the replacement can be undone when the text does not contain the replacement's first character |
| Text.NatToString | src/master/template.ts:252 | an index prints as a non-empty string without leading zeros |
| Text.NatToStringDigits | src/master/template.ts:252 | an index prints as decimal digits only |
| Text.NatToStringRoundTrip | src/master/template.ts:252 | reading the printed index back gives the index |
| KeyedEach.Each.constructor | packages/master-ts/each.ts:8 | the cache starts empty and the mapper has not been called |
| KeyedEach.Each.Reconcile | packages/master-ts/each.ts:13-35 | the results have the input's length. Entry `i` is the cached result of `arr[i]`'s key if it was cached, else the mapper's. The mapper runs once for each new key and for no other. The cache's keys equal the new array's keys, and each entry holds the value and index of its key's last occurrence |
| KeyedEach.Each.MapArray | packages/master-ts/each.ts:16-33 | one pass over the array yields the updated cache, the keys to evict (cached keys absent from the array), the mapper calls for new keys only, and one result per entry |
| KeyedEach.Each.Evict | packages/master-ts/each.ts:35 | deleting the keys of `toRemove` one at a time, in any order, leaves exactly the cache without those keys; the mapper calls are unchanged |
| KeyedEach.Each.ReconciledCache | packages/master-ts/each.ts:14-35 | after eviction the cache's key set equals the new array's key set, and every stale key is gone |
| KeyedEach.Each.CacheAfterSpec | packages/master-ts/each.ts:16-32 | after each element the cache holds the old keys and the keys seen so far; unseen old keys keep their entry, and a seen key holds its cached result (or the mapper's, made at its first occurrence) with the value and index of its last occurrence |
| KeyedEach.Each.CachedStep | packages/master-ts/each.ts:17-32 | a cached key keeps its result and gets the new value and index; a new key gets the mapper's result |
| KeyedEach.Each.ResultAtStep | packages/master-ts/each.ts:18-32 | the result for element `n` is the cached one if its key was cached, else the mapper's |
| KeyedEach.Each.ResultsAfterSpec | packages/master-ts/each.ts:16-33 | the mapped array has one entry per element, each the result for that element's key |
| KeyedEach.Each.ResultStable | packages/master-ts/each.ts:18-26 | once a key has a result, later elements with the same key reuse it |
| KeyedEach.Each.CacheAfterKeys | packages/master-ts/each.ts:14-31 | before eviction the cache's keys are the old keys plus the new array's keys |
| KeyedEach.Each.NewKeysAreNew | packages/master-ts/each.ts:28-31 | the mapper is called only for keys not cached before and present in the array, at most once per key |
| KeyedEach.Each.NewKeysComplete | packages/master-ts/each.ts:28-31 | every array key that was not cached gets a mapper call |
| KeyedEach.Each.LastInIsLast | packages/master-ts/each.ts:22-24 | the value and index a reused key keeps are those of its last occurrence in the array |
| KeyedEach.Each.FirstInIsFirst | packages/master-ts/each.ts:28-31 | a new key's result is made at its first occurrence |

## Left out

- The callbacks of `Compute` signals are side-effect-free expressions over integer values. Outside followers only record their calls. A callback that writes a signal, or a follower that calls back into the graph, is not modelled.
- Callbacks read only signals created before their `Compute`, a precondition of `computed`. Reading a newer signal (a cycle) makes the source recurse without end and is not modelled.
- In the hot/cold graph the operations run only from outside code, with an empty tracker stack.
- Exceptions thrown by a callback are not modelled. In the source such an exception leaves the tracker frame pushed and the flags as they were.
- The promise continuation of `awaited` (packages/purified-js/dist/signals.js:168) is asynchronous. The model covers only the initial `State`.
- The order in which JavaScript `Map`s iterate the dependency entries is not modelled. The dependency map is a Dafny `map`, so the two reconciliation loops take entries in an arbitrary order.
- Followers added to a set while it is being notified are not visited. The model visits only the followers present when `notify` started, and skips those removed meanwhile. A JavaScript `Set` iterator would also visit the later additions.
- The branch of `Compute.val` for a dirty `Compute` with followers (packages/purified-js/dist/signals.js:87) cannot be taken in this model. A dirty `Compute` never has followers here, so the model proves that branch unreachable instead of modelling it.
- In the hot/cold graph, `effect` follows without `immediate`. The callback's single run comes from `follow` updating a dirty `Compute`, not from an immediate call. The model follows the code. `Effect` returns the `Compute`; its disposer is `Unfollow`.
- In the older graph, a `follow` on a signal without followers calls the follower at once even without `immediate`. The model follows this code.
- The older graph's call stack is modelled by `fuel`, the number of nested recomputations left. How deep a JavaScript engine actually lets the stack grow is engine-dependent. A `RangeError` is modelled as `overflow`, which unwinds every call and leaves the store as it was at that moment.
- CherrySignals.Graph.Update: states its result only in the quiet case. Quiet means:
  - the run reads only plain, already-followed signals;
  - the `Compute`'s followers are outside functions;
  - fuel remains for the nested recomputation a changed value causes.

  Otherwise the source may tear the `Compute` down while subscribing, or recurse without end. Then only these are stated: the kept invariants, the unchanged values of the `State`s and, unless the stack overflowed, the restored tracker stack and fuel.
- CherrySignals.Graph.Get: the strong contract for a dirty `Compute` is stated only in the quiet case, as for `Update`.
- CherrySignals.Graph.SetValue: for a dirty `Compute` the strong contract is stated only in the quiet case. For a plain signal it is stated only when all followers are outside ones. On a `Compute`, the value is not stated after a listener runs.
- CherrySignals.Graph.Notify: the strong contract is stated only for outside followers, and for a dirty `Compute` only in the quiet case.
- CherrySignals.Graph.Broadcast: the strong contract is stated only when all followers are outside ones.
- CherrySignals.Graph.FollowNew: states the dependency keys only when every tracked signal is already a dependency or already followed.
- CherrySignals.Graph.Settle: states its result only under the same condition as `FollowNew`.
- CherrySignals.Graph.Close: states its result only under the same condition as `FollowNew`.
- CherrySignals.Graph.Set: states the notification only when all followers are outside ones. With a listener among the followers, the calls made and the `Compute`s recomputed are not stated.
- CherrySignals.Graph.Follow: states the call and the insertion only for a plain signal. On a dirty `Compute` the first `get()` runs `#update`.
- CherrySignals.Graph.Subscribe: states the whole new store only for a dependency that already has followers. When neither `d` nor the owner has followers, the owner ends dirty, depending on `d` alone: its listener on `d` fired at once and tore it down before `dependencies.set`. An owner that is followed re-runs `#update` from inside the subscription.
- PurifiedSignals.Graph.UpdateAndTrack: the clean flag, the value, the dependency keys and the notification are stated only when the `Compute`'s followers are all outside ones. With a listener among them, the notification can re-enter the graph, and the source itself can end with the `Compute` dirty. Example: `E1 = S + 1` is kept hot only by the listener of `E2 = S ? E1 : 0`, and `S` goes from 1 to 0. `E1`'s recomputation notifies `E2`, which drops `E1` and tears it down. `E1`'s own `#updateAndTrack` then follows `S` again while `E1` is dirty. The source's live `Set` iteration visits that re-added listener, which tears `E1` down once more. The model's `notify` visits only the followers present when it started, so it keeps the re-added listener on `S`.
- PurifiedSignals.Graph.Reconcile: stated under the same condition as `UpdateAndTrack`.
- PurifiedSignals.Graph.ListenerFire: stated under the same condition as `UpdateAndTrack`.
- CherrySignals.Graph.ListenerFire: the recomputation of a followed `Compute` is stated only in the quiet case, as for `Update`. Otherwise only the kept invariants, the `State` values and the returned stack and fuel are stated.
- PurifiedSignals.Graph.Notify: the calls are stated only when all followers are outside ones.
- PurifiedSignals.Graph.SetValue: the calls are stated only when all followers are outside ones. On a clean `Compute` (the call from `#updateAndTrack`), the value is not stated after a listener runs.
- PurifiedSignals.Graph.SetState: the calls are stated only when all followers are outside ones.
- The JavaScript `!==` comparison is integer inequality. `NaN` and object identity are not modelled.
- `randomId()` is an opaque source of ids. Their freshness and format are not modelled.
- The template tokenizers work on `seq<char>`. UTF-16 surrogate pairs, which `for...of` over a string would join, are not modelled.
- library/template/parts.ts:70 (`Unknown parsing error`) cannot be reached. `processChar` throws only `Error`s, so the model has no such branch.
- `&` is not escaped when a value is interpolated in src/master/template.ts. The escape therefore round-trips only for text without `&`.
- The DOM side of src/master/template.ts is not modelled:
  - `parseValue`;
  - the `template` element;
  - `$_signal_texts`;
  - `$mount`, `$_insertNodes`, `$_listenToEvents` and `$_subscribeToSignals`.

  Signal fragments and parsed nodes are tokens in `$_nodes`.
- `ping` on the value and index signals in packages/master-ts/each.ts is external code, as are `signal` and `signalFrom`. A cache entry holds the signals' contents. The `set` call and the outer `follow` are not modelled.
- packages/cherry-js/lib/css.js uses `CSSStyleSheet`, a browser API, and is not part of this model.
