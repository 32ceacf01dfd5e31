# duffman request engine and navigator in Dafny

duffman is an API fuzzer. It reads a request collection, a tree of folders
and request templates, together with its variables. This project models two
of its parts and proves what they do:

- **Request materialisation** (`internal/req/req.go`).
  - `CreateEndpoint` builds a URL from a template. It substitutes `:name` path
    parameters, then appends `?` and one `name=value&` pair per query
    parameter.
  - `ResolveVars` replaces every `{{key}}` placeholder in place. The
    placeholders may sit in the URL, the body, the header keys and values,
    and the keys and values of the three parameter maps.
  - `DeepCopyReq` clones a request into newly made maps, so the stored
    template is never resolved.
- **The folder-tree navigator** (`internal/interactive/list.go`). This is a
  terminal list of the current level, a stack of the folders entered, and a
  breadcrumb path. Enter descends into a folder or picks a request. Backspace
  or Esc goes back. `q` quits.

## Files

- `strings.dfy` (module `GoStrings`) models Go's `strings.ReplaceAll`,
  `strings.Count` and `strings.Join`. `ReplaceAll` finds occurrences left
  to right and never overlaps them. It never searches the text it inserts
  again. With an empty pattern, it inserts the replacement around every
  character.
- `gomaps.dfy` (module `GoMaps`) models the order in which Go's `range`
  visits the keys of a map:
  - `IsEnumeration` lists every key exactly once.
  - `Keys` produces such a list and leaves open which one.
- `collection.dfy` (module `PCollection`) holds the collection's entities:
  - `KeyValue` holds one variable.
  - `StringMap` models a Go `map[string]string`. A Go map is a reference to
    shared, mutable contents, so it is an object here.
  - `Parameters` holds three map references.
  - `Req` is a class, because `ResolveVars` updates it in place.
  - `Node` and its child list `NodeList`. `NodeList` keeps Go's nil and empty
    lists apart, because `Render` tests for nil and Enter tests for length.
- `req.dfy` (module `Request`) has the three operations of `req.go` as
  methods with loops. Each method is proved against a specification
  function, and there are lemmas about those functions.
  - The map loops of `ResolveVars` rewrite a map while ranging over it. Each
    loop is specified by `Pass`: a fold over the order in which Go visits the
    keys present when the loop starts. A visit reads the current value of its
    key, which an earlier visit in the same loop may have overwritten.
  - `ResolveMap` chains one pass per variable. The visiting orders are ghost
    results of the methods.
- `list.dfy` (module `Interactive`) has the navigator:
  - `Nav` is the state as a value, and `Next` is the step `Update` takes.
    `Model` is the Go `model` as a class. `Model.Update` is proved to take
    exactly the step `Next` describes.
  - `View` and `Label` are the screen text as functions.

## Behaviour of the code as written

These results follow the code as written.

- **Collection variables win over environment values.** `ResolveVars`
  substitutes `vars ++ env` in that order, so on a duplicated key the
  earlier entry is substituted first. When the text around the placeholder
  and the first value hold no `{`, the placeholder is gone after that first
  substitution and the later entry has nothing left to replace
  (`EarlierEntryWins`, `DuplicateKeyExample`). It is then the collection
  variable, not the environment value, that takes effect, although the
  precedence intended for duplicated keys is that the environment
  overrides. A first value that brings the placeholder back, such as
  `K = {{K}}` before `K = B`, lets the later entry replace it too.
- **A resolved string can still hold a placeholder.** Replacing a
  placeholder can join the text on its two sides into a new placeholder:
  `"{{{{K}}K}}"` with `K = ""` becomes `"{{K}}"` (`ResolveCanLeavePlaceholder`).
- **Back does not go back to the previous list.** Back after entering folder
  `F` restores the stack and the path. The list then shows `F`'s own
  children, not the level `F` was listed in (`EnterThenBack`,
  `BackShowsPoppedLevel`).
- **A resolved map's values can depend on Go's random iteration order**
  when a rewritten key lands on another key (`PassDependsOnOrder`). For
  loops that visit only the keys present at their start, the key set does
  not depend on the order (`ResolveMapKeys`). Go may also visit a key the
  loop has just inserted; visiting the inserted `{{K}}` (from the key
  `{{{{K}}K}}` with `K = ""`) then adds the key `""` as well, so in Go even
  the key set can vary from run to run.

## Model

| member | source | states |
|---|---|---|
| GoStrings.ReplaceAll | internal/req/req.go:14 | Definition of Go's `strings.ReplaceAll`: occurrences are found left to right, never overlap, and inserted text is not searched again; an empty pattern puts the replacement around every character. Its properties are the `ReplaceAll...` lemmas below. |
| GoStrings.Count | internal/req/req.go:14 | Definition of Go's `strings.Count`: the non-overlapping occurrences found left to right, or one more than the length for an empty pattern. `ReplaceAll` makes exactly this many replacements (`ReplaceAllLength`). |
| GoStrings.Join | internal/interactive/list.go:116 | Definition of Go's `strings.Join`: the elements with one separator between each two neighbours; `JoinAppend` and `JoinSingle` state its shape. |
| GoStrings.ReplaceAllLength | internal/req/req.go:14 | Each of the `Count(s, pat)` replacements changes the length of the string by the length of `rep` minus the length of `pat`. |
| GoStrings.ReplaceAllUnchangedIff | internal/req/req.go:14 | For a non-empty pattern, `ReplaceAll` returns its input unchanged if and only if the pattern does not occur in it, or is replaced by itself. |
| GoStrings.ReplaceAllSkipsPrefix | internal/req/req.go:32 | A prefix that lacks the first character of the pattern is copied as it is, and replacement goes on after it. |
| GoStrings.ReplaceAllLeading | internal/req/req.go:32 | A string that starts with the pattern gets that occurrence replaced first, and the rest is replaced independently. |
| GoStrings.JoinAppend | internal/interactive/list.go:116 | Joining one more element adds exactly one separator and that element. |
| GoMaps.Keys | internal/req/req.go:12 | A `range` over a map visits every key exactly once, in some order. |
| PCollection.StringMap.constructor | internal/req/req.go:64 | `make(map[string]string)` is an empty map. |
| PCollection.Req.constructor | internal/req/req.go:61-72 | A request literal holds exactly the six field values given. |
| Request.PathSubs | internal/req/req.go:12-14 | The path substitution steps are one `":" + k` to `pathParam[k]` step per key, in visiting order. |
| Request.SubstitutePathParams | internal/req/req.go:12-15 | The loop visits the path parameters in some order and leaves the URL with all their substitutions applied in that order. |
| Request.AppendQuery | internal/req/req.go:17-21 | The loop visits the query parameters in some order and appends `k=v&` for each, in that order. Whatever the order, the result starts with the given prefix and the appended part holds the `k=v&` pair of every query parameter. |
| Request.QueryPrefixStep | internal/req/req.go:17-21 | Appending the pair of the next visited key extends the query part of the keys visited so far by exactly that key's pair. |
| Request.QueryHoldsAllPairs | internal/req/req.go:17-21 | For any visiting order of all query parameters, the prefix followed by the query part keeps the prefix and holds the pair of every parameter. |
| Request.CreateEndpoint | internal/req/req.go:10-23 | The endpoint is the path-substituted URL, then `?`, then the query pairs, for the orders in which Go visits the two maps. Whatever those orders are, it ends in `?` when there are no query parameters and in `&` otherwise, and it contains every `key=value&` pair. |
| Request.Endpoint | internal/req/req.go:10-23 | Definition of the URL `CreateEndpoint` returns for given visiting orders: the URL with the path steps applied in order, then `?`, then the query pairs in order. `CreateEndpoint` is proved to return it. |
| Request.EndpointWithoutQuery | internal/req/req.go:10-17 | With no query parameters, the endpoint is the path-substituted URL followed by one `?`. |
| Request.EndpointLastChar | internal/req/req.go:17-22 | The endpoint ends in `?` exactly when there are no query parameters, and in `&` otherwise. |
| Request.EndpointLength | internal/req/req.go:17-22 | The endpoint's length is that of the substituted URL, plus 1, plus the lengths of key and value plus 2 for each query parameter. |
| Request.EndpointHoldsEachPair | internal/req/req.go:18-20 | Every query parameter appears in the endpoint as `k=v&`, whatever the visiting order. |
| Request.PathWithoutParams | internal/req/req.go:12-15 | With no path parameters, the URL passes through verbatim. |
| Request.PathWithoutTokens | internal/req/req.go:12-15 | A URL that holds no `:k` token of any path parameter is unchanged. |
| Request.EndpointExample | internal/req/req.go:10-23 | `/users/:id` with `id = 42` and no query gives `/users/42?`. |
| Request.VarSubsConcat | internal/req/req.go:27-31 | The substitution steps of `vars ++ env` are the steps of `vars` followed by those of `env`, one `{{key}}` step per entry in list order. |
| Request.Resolve | internal/req/req.go:29-33 | Definition of a string field after the loop over `allVars`: each entry's `{{key}}` replaced by its value, first entry to last. `ResolveVars` is proved to leave the URL and body equal to it. |
| Request.ResolveMap | internal/req/req.go:29-49 | Definition of a map after the whole loop over `allVars`: one `Pass` per entry, each over the keys present when that map loop starts, in the order chosen for it. `ResolveVars` is proved to leave each of the four maps equal to it. |
| Request.Pass | internal/req/req.go:35-37 | One map loop keeps every key present before it, and adds exactly the rewritten forms of the keys it visits. |
| Request.RewriteMap | internal/req/req.go:35-37 | The loop visits the keys present at its start, in some order, and leaves the map as `Pass` over that order describes. |
| Request.ResolveOne | internal/req/req.go:31-49 | One iteration substitutes one variable into the URL and the body. It gives each of the four maps one pass over the keys present at its start, in the order Go visits them. |
| Request.ResolveVars | internal/req/req.go:25-52 | The URL and body are the left fold of the placeholder replacements over `vars ++ env`. Each of the four maps is the chain of one pass per variable, for the orders Go visits them in. Method and content type are untouched. |
| Request.CopyEntries | internal/req/req.go:75-77 | Copying one map into another leaves the target holding its old entries overridden by all the source's entries. |
| Request.DeepCopyReq | internal/req/req.go:55-91 | Nil is copied as nil. Otherwise the copy and its four maps are newly allocated and distinct, with equal strings and equal map contents; no existing object changes. |
| Request.ResolveCopy | internal/req/req.go:25-91 | Resolving a deep copy leaves the template and its four maps unchanged, and gives the resolved request in the copy. |
| Request.ResolveVarsBeforeEnv | internal/req/req.go:27-33 | Resolving with `vars ++ env` is resolving with `vars`, then with `env`. |
| Request.ResolveWithoutTokens | internal/req/req.go:29-33 | A field that holds no `{{key}}` placeholder of any of the variables comes back unchanged. |
| Request.ResolveWithoutBraces | internal/req/req.go:32-33 | A field that holds no `{` holds no placeholder and is returned unchanged. |
| Request.EarlierEntryWins | internal/req/req.go:27-32 | With a key defined twice, the first value replaces the placeholder, and the second finds nothing left. |
| Request.DuplicateKeyExample | internal/req/req.go:27-32 | `/u/{{K}}` with `K = A` then `K = B` resolves to `/u/A`. |
| Request.SplicedPlaceholder | internal/req/req.go:32 | Replacing `{{K}}` by nothing in `{{{{K}}K}}` leaves `{{K}}`. |
| Request.ResolveCanLeavePlaceholder | internal/req/req.go:29-33 | A resolved field can still hold the placeholder of a variable that was substituted. |
| Request.PassKeepsValue | internal/req/req.go:35-37 | A key that no other key is rewritten to stays. It holds its rewritten value when it rewrites to itself, and its old value otherwise. |
| Request.PassNewKey | internal/req/req.go:35-37 | When no other key collides with a key or with its rewritten form, the rewritten key holds the rewritten value. |
| Request.PassPlainKeys | internal/req/req.go:35-37 | When the step leaves every key alone, the pass keeps the keys and rewrites every value. |
| Request.PlaceholderVisitedFirst | internal/req/req.go:35-37 | Visiting `{{K}}` before `""` leaves `""` at key `""`, because the value written there is rewritten again. |
| Request.EmptyKeyVisitedFirst | internal/req/req.go:35-37 | Visiting `""` before `{{K}}` leaves `{{K}}` at key `""`, because the rewrite of `{{K}}` there comes last. |
| Request.PassDependsOnOrder | internal/req/req.go:35-37 | On `{"{{K}}": "{{{{K}}K}}", "": "z"}` with `K = ""`, both key orders are possible range orders, and they leave different values at `""`. |
| Request.ResolveMapKeys | internal/req/req.go:35-49 | The keys after resolution are the same for every visiting order. |
| Request.ResolveMapKeepsKeys | internal/req/req.go:35-49 | Resolution never deletes a key. Each original key stays, and so does its fully substituted form. |
| Request.ResolveMapPlainKeys | internal/req/req.go:35-49 | When no token occurs in any key, the map keeps exactly its keys, and each value is substituted in full. |
| Request.ResolvedMapKeys | internal/req/req.go:35-49 | After `ResolveVars`, every original key and its resolved form are in the map. |
| Request.ResolvedPlainMap | internal/req/req.go:35-49 | After `ResolveVars`, a map whose keys hold no `{` has the same keys, and each value is resolved. |
| Interactive.Initial | internal/interactive/list.go:131-147 | Definition of the state `RenderList` starts in: the given nodes listed, cursor 0, not quitting, an empty stack and the path `Main List`. `ReachableConsistent` proves it consistent. |
| Interactive.Descend | internal/interactive/list.go:82-86 | Definition of entering a folder: push its node and its name, then list its children. `EnterFolder` states what Enter does with it. |
| Interactive.Back | internal/interactive/list.go:92-102 | Definition of going back: with a non-empty stack, drop the last path entry and stack entry and list the children of the dropped node; otherwise nothing changes. `BackAtRoot` and `BackPops` state both cases. |
| Interactive.Next | internal/interactive/list.go:68-109 | The step of `Update` keeps the navigator consistent. The path stays one longer than the stack, it starts at `Main List` and names each folder entered, and only folders with children are on the stack. |
| Interactive.Run | internal/interactive/list.go:68-109 | Any number of steps keeps the navigator consistent. |
| Interactive.ReachableConsistent | internal/interactive/list.go:147 | Every state reached from `RenderList`'s starting state is consistent. |
| Interactive.EnterFolder | internal/interactive/list.go:80-86 | Enter on a folder with children pushes it and its name, and shows its children in order. It keeps the cursor. |
| Interactive.EnterLeaf | internal/interactive/list.go:87-89 | Enter on an item without children quits and changes nothing. |
| Interactive.EnterNothing | internal/interactive/list.go:81-82 | Enter with no item selected changes nothing. |
| Interactive.BackAtRoot | internal/interactive/list.go:92-93 | Back with an empty stack changes nothing. |
| Interactive.BackPops | internal/interactive/list.go:93-101 | Back drops exactly the last folder and the last breadcrumb, and shows the dropped folder's children. |
| Interactive.EnterThenBack | internal/interactive/list.go:80-101 | Enter into a folder, then Back, restores the stack and the path, and leaves the folder's children displayed. |
| Interactive.BackShowsPoppedLevel | internal/interactive/list.go:95-101 | On a one-folder tree, Enter then Back does not show the starting list again. |
| Interactive.QuitKey | internal/interactive/list.go:76-113 | `q` and `ctrl+c` set the quitting flag and quit, and change nothing else. The view is then the farewell text. |
| Interactive.WindowSizeKeepsState | internal/interactive/list.go:70-72 | A resize changes no navigator state. |
| Interactive.Header | internal/interactive/list.go:116 | Definition of the breadcrumb line: `Current Path:` and the path joined by ` > `, between newlines. `HeaderAtStart` and `HeaderAfterEnter` state it for the start and after Enter. |
| Interactive.View | internal/interactive/list.go:111-118 | The view is the farewell exactly when quitting. Otherwise it shows one label per displayed item. |
| Interactive.HeaderAtStart | internal/interactive/list.go:116-147 | At the start, the header reads `\nCurrent Path: Main List\n`. |
| Interactive.HeaderAfterEnter | internal/interactive/list.go:84-116 | Entering a folder adds ` > ` and its name to the breadcrumb line. |
| Interactive.Label | internal/interactive/list.go:35-55 | Definition of one item's rendered text: `[ ] `, the folder icon for a non-nil child list, the name, and under the cursor every `[ ]` ticked. `LabelParts`, `LabelMark` and `TickedLabel` state its shape. |
| Interactive.TickedLabel | internal/interactive/list.go:49-51 | Under the cursor, the box becomes `[x]`, and every `[ ]` in the name is ticked. |
| Interactive.LabelParts | internal/interactive/list.go:41-51 | A label is the box, then a folder icon when the child list is not nil, then the name. Under the cursor, every `[ ]` inside the name is ticked too. |
| Interactive.LabelMark | internal/interactive/list.go:45-51 | A label starts with `[x] ` exactly at the cursor, and with `[ ] ` everywhere else. |
| Interactive.ListItems | internal/interactive/list.go:122-126 | The item list is the nodes of the child list, in order. |
| Interactive.Model.constructor | internal/interactive/list.go:131-147 | `RenderList` starts with the top level shown, the cursor at 0, an empty stack and the path `Main List`. |
| Interactive.Model.UpdateList | internal/interactive/list.go:121-129 | `updateList` replaces the shown items by the nodes of the list, and changes nothing else. |
| Interactive.Model.Update | internal/interactive/list.go:68-109 | `Update` changes the model and returns the command exactly as `Next` describes. |

## Left out

- Terminal output: the lipgloss styles, the list title, pagination and the
  help line are not modelled. `View` gives the header and the item labels
  as text. The styled list rendering is not modelled.
- The runtime loop: `tea.NewProgram(...).Run()`, its error exit, the
  console prints (`Selected sublist item`) and the writer in `Render`.
- The list component is not modelled. Its cursor is an index, `cursor`.
  - The component's reaction to keys (moving, paging) is the separate
    `Highlight` message.
  - Every command it returns is `ListCmd`.
  - Its page clamping after `SetItems` is not modelled. The cursor is kept,
    and selection fails when the cursor is past the end.
- The window width given to the list on a resize.
- Interactive.Next: it requires a non-empty path whenever the stack is
  non-empty. That is the only case in which Go's `m.path[:len(m.path)-1]`
  would panic, and it never arises in a consistent state.
- Request.ResolveVars: `req` is a non-null `Req`. Go's `ResolveVars` on a
  nil request panics at the first field access (`req.go:32`); that panic is
  not modelled.
- Request.ResolveVars: requires the four maps of the request to be distinct
  objects. A request whose maps alias each other is not modelled.
  `DeepCopyReq` always yields distinct maps.
- Map iteration: each loop that writes the map it ranges over visits only
  the keys present when the loop starts. Go may or may not also visit keys
  the loop inserts; that is not modelled. Nil maps are empty maps.
- Strings are sequences of characters. UTF-8 and rune boundaries are not
  modelled, and neither is Go's empty-pattern `ReplaceAll` at rune
  boundaries. No call site uses an empty pattern.
- `append(vars, env...)` may write into spare capacity of `vars`. This is
  not visible within the slices' lengths and is not modelled.
- `cmd/root.go` is command-line wiring and is not part of this model.
- The `Collection` struct of `internal/pcollection/collection.go` is not
  modelled.
- `KeyValue` and `Node` are not declared in the shown type file. Their
  fields come from their uses: `Key` and `Value`; `Name` and the child list
  `Node`. The node's request is an opaque reference.
