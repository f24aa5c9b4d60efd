# mold: the template-tree rewriter and the per-view composer

mold is a Go library that builds one self-contained `html/template` set
per view. It starts from a layout, the views, and the partials those views
include.

Two pieces do the work:

- **The rewriter** (`process.go`) walks the parse tree of one template. It
  replaces each `{{render ...}}` or `{{partial ...}}` action with a call of a
  named template and collects the names it references. It rejects:
  - a self-reference;
  - a marker the template's role may not use;
  - a partial without a target.
- **The composer** (`engine.go`) does three things:
  - It rewrites the layout and grafts the templates the layout references.
  - For every template file, it clones the layout and rewrites the file as a
    view. It then grafts each referenced partial (rewritten as a partial)
    and every template the file defines, with its own tree stored as `body`.
  - `Render` looks up the set built for a view.

`tree.go` and `layout.go` are older variants of these two pieces. Each is
modelled in its own module.

Modules:

- `ParseTree` (`parse_tree.dfy`): the part of Go's `text/template/parse`
  tree that the rewriters read and write.
  - `Node` is one of text, action, if, range, with, or a template call.
  - An else branch is either absent (a nil `ElseList`) or a node list.
  - An argument is an identifier, a string literal, a field, dot, or
    something else.
- `GoStrings` (`text.dfy`): the `strings` and `path/filepath` helpers the
  source calls: `ToLower`, `HasPrefix`/`HasSuffix`, `TrimPrefix`/`TrimSuffix`
  and `Ext`, on ASCII.
- `Process` (`process.dfy`), modelling `process.go`:
  - The rewrite as pure functions: `RewriteNode`, `RewriteBranch`,
    `RewriteList` and `Processed`.
  - Reference definitions: the reachable actions in depth-first order, each
    action's fault, and each action's reference.
  - Lemmas tying the two together.
  - Methods that do what the source does step by step: each action is
    replaced at its index in its parent list, and `pos` is a loop over the
    body. Each method is proved equal to the functions.
- `Engine` (`engine.dfy`), modelling `engine.go`:
  - `hasExt`, `validateLayoutFile`, the walk filter, `placeholderFuncs`, and
    `setup` as a method on the `Config` class.
  - The composer as functions over the registry (a map from path to
    template file): `ComposeLayout`, `ComposeView`, `BuildViews`,
    `Construct` and `Render`.
  - The `Registry` class, whose methods stamp roles on its entries and
    rewrite their trees in place, as the source does. They are proved equal
    to those functions.
- `EngineExamples` (`engine_examples.dfy`): the error cases of the
  repository's tests as lemmas about small registries, and the
  order-dependence finding below.
- `TreeRewrite` (`tree.dfy`), modelling `tree.go`: a flag-driven rewriter
  with no validation. It reports every string target, is idempotent, and
  does not descend into `with`.
- `LayoutComposer` (`layout.dfy`), modelling `layout.go`:
  - Every file is parsed into one namespace.
  - Views and the layout graft its trees by reference. This is modelled as
    `Shared(name)` grafts that are resolved when a set is rendered.
  - A view starts from a clone of the layout, which copies the layout's
    trees as they stand at that moment (`Clone`). So under the view's own
    name, a view holds the layout's copy of the tree from before the
    view's rewrite, while its other names share the namespace's trees.
  - Each view's own tree is rewritten in place.
  - The proofs show that the final state does not depend on the order the
    views are composed in, and that `Render` reads the rewritten trees.

Interfaces the model takes as parameters:

- The file system is a map from path to source.
- The embedded default layout is a string.
- html/template's parse result is a `Parse` value.
- The order in which `newEngine` visits the registry (Go map order) is a
  sequence.
- Function values in a FuncMap are opaque identifiers.

## Model

| member | source | states |
|---|---|---|
| Process.GetActionArgs | process.go:128-145 | the callee is the first argument when it is an identifier, the target the second when it is a string literal, the field the third when it is a field; otherwise each is empty |
| Process.AbsorbSummarises | process.go:24-31 | appendResult: a child's error replaces the current one, and references are appended only while there is no error; summaries of two runs of actions combine into the summary of their concatenation |
| Process.NodeSummary | process.go:22-66 | the error of rewriting a node is the fault of its last faulty reachable action; with no error its references are those of its reachable actions in source order |
| Process.BranchSummary | process.go:49-62 | the same for an else list, a nil one finding nothing |
| Process.ListSummary | process.go:51-55 | the same for a list: every child in order |
| Process.RewriteFailsIff | process.go:33-63 | a rewrite fails if and only if some action reachable through list, if/else, range/else and with/else bodies is faulty |
| Process.ViewRejectsRender | process.go:117-120 | a view with a reachable render action fails |
| Process.PartialRejectsMarkers | process.go:121-122 | a partial with a reachable render or partial action fails |
| Process.LayoutFaults | process.go:117-126 | a layout fails exactly when some reachable action names the layout itself or is a partial without a target: both markers are allowed |
| Process.SelfReferenceFirst | process.go:73-75 | an action, of any callee, whose string target is the file's own name fails with "cyclic reference" before the role is checked, and is left in place |
| Process.MarkerReplaced | process.go:82-113 | a valid marker becomes a template call with the action's Pos and Line, the target (or "body" for a bare render), and one command whose one argument is the field given to partial or else dot; it records (target, kind) unless the target is empty |
| Process.OtherActionKept | process.go:97-98 | an action whose callee is neither render nor partial is left as it is and records nothing |
| Process.RewriteInPlace | process.go:51-54 | the rewritten list has the same length, and position i holds the rewrite of child i |
| Process.NodeActionsRewritten | process.go:101-113 | after a successful rewrite of a node, its reachable actions are exactly the original ones minus the markers, in order |
| Process.BranchActionsRewritten | process.go:56-63 | the same for an else branch |
| Process.ListActionsRewritten | process.go:51-55 | the same for a list |
| Process.NodeSettled | process.go:68-115 | rewriting a successfully rewritten node again, under any role, changes nothing and finds nothing |
| Process.BranchSettled | process.go:56-63 | the same for an else branch |
| Process.ListSettled | process.go:51-55 | the same for a list |
| Process.ProcessActionNode | process.go:68-115 | writes the replacement of parent[index] at that index and returns the action's error |
| Process.ProcessNode | process.go:22-66 | the parent list with the node at index rewritten, and the references and error the rewrite finds |
| Process.ProcessBlock | process.go:47-63 | an if, range or with node: body then else are rewritten and their results absorbed in that order |
| Process.ProcessList | process.go:51-55 | the loop over a list's children equals the list rewrite |
| Process.Pos | process.go:157-173 | the loop returns the line and column of the offset: one plus the newlines before it, and the distance from the last of them |
| Process.PosStart | process.go:157-159 | offset 0 (or less) is line 1, column 1 |
| Process.PosStep | process.go:160-171 | passing a newline moves to the next line at column 1; any other character moves one column right |
| Process.ProcessTree | process.go:10-20 | processTree rewrites the root list; on error it reports the file's name, the line and column of the error's offset, the role and the message |
| Process.ProcessedSettled | process.go:10-20 | a template processed without error, processed again under any role, is unchanged and reports nothing |
| Process.ProcessedRefs | process.go:39-43 | without error, the references are those of the reachable actions in order, and none is "" or the file's own name |
| Process.ProcessedUnmarked | process.go:101-113 | without error, no reachable action calls render or partial |
| Process.PartialActionReferenced | process.go:39-40 | without error, every reachable partial action records its target as a partial reference |
| Engine.HasExt | engine.go:257-270 | false for "", otherwise true if and only if some listed extension equals it after dropping one leading dot and lower-casing |
| Engine.LayoutFileFault | engine.go:272-284 | no error if and only if the extension passes hasExt and the name without it ends in "layout" in any case; the unsupported-extension error comes first |
| Engine.ValidateLayoutFile | engine.go:272-284 | returns exactly that error |
| Engine.LastElement | engine.go:94 | d.Name(): a suffix of the path without '/' |
| Engine.ExtOfLastElement | engine.go:94 | the extension of the last path element is the extension of the path |
| Engine.Admits | engine.go:82-102 | walk keeps a file if and only if no path element is hidden, its extension passes hasExt and it is not a layout file |
| Engine.PlaceholderFuncs | engine.go:286-291 | exactly render and partial, bound to their placeholders |
| Engine.MergeFuncs | engine.go:157-162 | the keys of both maps; the caller's function wins on a shared key |
| Engine.Config.constructor | engine.go:28-30 | a configuration holds the options as given |
| Engine.Config.Create | engine.go:27-33 | setup's failure, an invalid or unreadable layout file, is returned wrapped as "error creating new engine" and is not ErrNotFound; it succeeds exactly when no layout is set or the set one passes validation and is present; the extensions, layout and layout source are as setup leaves them |
| Engine.Config.Setup | engine.go:121-166 | default extensions when unset; a set layout is validated, then read from the file system, each failure reported, success when it passes validation and is present, a failure leaving the layout source and functions as they were; an unset one becomes "default_layout" with the embedded source; the func map is the placeholders overlaid with the caller's functions |
| Engine.Templates | engine.go:232-238 | body.Templates(): the file's defined templates plus its own tree under its own name |
| Engine.AsPartialSettled | engine.go:195-196 | stamping partial and rewriting a template that rewrites without error a second time changes nothing |
| Engine.GraftRefs | engine.go:185-201 | the reference loop keeps the registry's keys and names; an ErrNotFound comes only from a required reference missing from the registry |
| Engine.GraftRefsFiles | engine.go:223-226 | entries no reference names are untouched; on success every named entry is stamped partial and rewritten once |
| Engine.GraftRefsTemplates | engine.go:185-201 | on success each referenced name is grafted: a present entry's rewritten tree, a layout's missing render target as an empty tree; nothing else changes |
| Engine.GraftRefsResolved | engine.go:186-190 | on success no missing reference was a partial of the layout or any reference of a view |
| Engine.ComposeLayout | engine.go:168-204 | parseLayout keeps the registry's keys and each entry's name |
| Engine.ComposeView | engine.go:206-241 | parseView keeps the registry's keys and each entry's name |
| Engine.BuildViews | engine.go:49-58 | the view loop keeps the registry's keys, each entry under its own name |
| Engine.Render | engine.go:61-73 | ErrNotFound exactly when the view was not built; otherwise the view's composed set |
| Engine.ComposeViewParts | engine.go:206-241 | a successful parseView: the view's own rewrite succeeds, it references neither itself nor a missing file, and the result is the grafted layout plus the view's templates |
| Engine.ComposeViewContents | engine.go:206-241 | the composed set: the layout, each referenced partial as its rewritten tree, each defined template, and the view's own rewritten tree as "body"; the view's entry is left stamped view |
| Engine.ComposeViewUnmarked | engine.go:213-229 | a composed view holds no marker in its own tree nor in any partial it grafted |
| Engine.GraftRefsPartialsSucceeded | engine.go:223-227 | on success every grafted entry was rewritten as a partial without error |
| Engine.ComposeLayoutContents | engine.go:168-204 | the composed layout: its own rewritten tree, marker free, as "layout"; its defined templates; each partial reference as its rewritten tree; each missing render reference as an empty tree |
| Engine.BuildViewsKeys | engine.go:49-58 | the loop builds one view per name it visits, or nothing at all |
| Engine.ConstructBuildsEveryView | engine.go:27-59 | newEngine builds one view per registry key or fails as a whole; a layout failure is reported as "error parsing layout" |
| Engine.GraftRefsRejectsMarked | engine.go:223-226 | grafting a file that still holds a marker fails, since it is checked as a partial |
| Engine.ComposeViewRejectsRef | engine.go:217-226 | a view including a file that holds a marker fails |
| Engine.ComposeViewKeepsMarked | engine.go:217-229 | a successful view leaves every marked file it did not include untouched |
| Engine.BuildViewsRejectsMutual | engine.go:49-58 | two files including each other make the view loop fail whenever it visits either |
| Engine.MutualPartialsRejected | mold_test.go:255-264 | two files including each other are rejected, in any visiting order |
| Engine.Composable | engine.go:206-241 | the views a registry composes on their own, one per name |
| Engine.BuildViewsFromRegistrySucceeds | engine.go:49-58 | corrected loop: it succeeds if and only if every visited view composes against the registry as the layout left it |
| Engine.BuildViewsFromRegistryViews | engine.go:49-58 | corrected loop: on success it holds exactly each visited view's own composition |
| Engine.ConstructFromRegistryOrderFree | engine.go:49-58 | corrected loop: success and the views built do not depend on the visiting order |
| Engine.Registry.constructor | engine.go:22-25 | the registry holds the files walk found |
| Engine.Registry.ParsePartial | engine.go:243-246 | the entry's tree is replaced by its rewrite, even when that fails, and the error is returned |
| Engine.Registry.GraftOne | engine.go:186-200 | one turn of the reference loop equals the function |
| Engine.Registry.GraftAll | engine.go:185-201 | the reference loop leaves the registry and template set that GraftRefs computes |
| Engine.Registry.ParseLayout | engine.go:168-204 | equals ComposeLayout on the registry |
| Engine.Registry.AddTemplates | engine.go:231-238 | adds every defined template, the own one as "body" |
| Engine.Registry.ParseView | engine.go:206-241 | equals ComposeView on the registry, including the role and rewrite left on shared entries |
| Engine.Registry.NewEngine | engine.go:43-58 | equals Construct for the given visiting order |
| EngineExamples.LayoutPartialNotFound | mold_test.go:207-213 | a layout with a partial the registry lacks fails with ErrNotFound, wrapped as a layout error |
| EngineExamples.ViewPartialNotFound | mold_test.go:215-221 | a view with a partial the registry lacks fails with ErrNotFound |
| EngineExamples.ViewFaults | mold_test.go:234-242 | a view using render fails with "render not supported"; a target-less partial fails with "path to partial file is not specified"; both at line 1, column 3, the offset of the action's first token where the template parser places the node |
| EngineExamples.PartialInvalidPartial | mold_test.go:255-264 | view.html and partial.html including each other are rejected in either order |
| EngineExamples.ChainAcceptedBFirst | engine.go:49-58 | as written: a.html → b.html → c.html is accepted when b.html is visited first |
| EngineExamples.ChainSetLacksC | engine.go:49-58 | as written, with b.html visited first: a.html's accepted set holds the layout, b.html and "body" only, while the b.html it grafts calls c.html, so the view names a template its set lacks |
| EngineExamples.ChainRejectedAFirst | engine.go:49-58 | as written: the same registry is rejected when a.html is visited first |
| EngineExamples.ChainRejectedFromRegistry | engine.go:49-58 | corrected loop: the chain is rejected in every order that visits a.html |
| TreeRewrite.GetActionArgs | tree.go:79-91 | callee and target as process.go reads them; "" when argument 0 is not an identifier or argument 1 not a string |
| TreeRewrite.Swapped | tree.go:37-77 | with its flag off, or for another callee, the action stays; otherwise a call of the target ("body" for a bare render) with the action's Pos and Line and one command whose only argument is dot |
| TreeRewrite.NodeTargets | tree.go:9-18 | the targets reported for a node are the string targets of every reachable action, whatever its callee and whether it was swapped |
| TreeRewrite.BranchTargets | tree.go:27-31 | the same for an else branch |
| TreeRewrite.ListTargets | tree.go:20-24 | the same for a list, in source order |
| TreeRewrite.NodeKept | tree.go:47-62 | the actions reachable after the walk are exactly those the flags leave in place, in order |
| TreeRewrite.BranchKept | tree.go:25-32 | the same for an else branch |
| TreeRewrite.ListKept | tree.go:20-32 | the same for a list; with blocks are not entered |
| TreeRewrite.SwapInPlace | tree.go:20-24 | the walked list keeps its length, and position i holds the swap of child i |
| TreeRewrite.NoMarkersLeft | tree.go:47-76 | with both flags set, no reachable action calls render or partial afterwards |
| TreeRewrite.NodeIdempotent | tree.go:7-35 | walking a walked node again changes nothing |
| TreeRewrite.BranchIdempotent | tree.go:25-32 | the same for an else branch |
| TreeRewrite.ListIdempotent | tree.go:20-24 | the same for a list |
| TreeRewrite.NodeAsWrittenPanics | tree.go:25-32 | as written, the walk panics if and only if it reaches an if or range without else; otherwise it equals the corrected walk |
| TreeRewrite.ListAsWrittenPanics | tree.go:20-32 | the same for a list |
| TreeRewrite.IfWithoutElse | tree.go:25-28 | {{if .Name}}{{.Name}}{{end}} panics as written and is kept as it is by the corrected walk |
| TreeRewrite.ProcessActionNode | tree.go:37-77 | parent[index] is replaced by its swap |
| TreeRewrite.ProcessTree | tree.go:7-35 | the parent with the node at index walked, and the targets found |
| TreeRewrite.ProcessBlock | tree.go:25-32 | an if or range node: body then else walked and their targets concatenated |
| TreeRewrite.ProcessList | tree.go:20-24 | the loop over a list's children equals the list walk |
| LayoutComposer.ValidExt | layout.go:244-256 | false for "", otherwise true if and only if some listed extension equals it after dropping one leading dot on each side, case-sensitively |
| LayoutComposer.ValidExtIsCaseSensitive | layout.go:249-251 | ".HTML" is none of the default extensions |
| LayoutComposer.HasExtIgnoresCase | engine.go:261-265 | the canonical hasExt accepts ".HTML" |
| LayoutComposer.ValidExtDropsOneDot | layout.go:250 | ".html" and "html" both match, but "..html" does not match ".html" |
| LayoutComposer.Admits | layout.go:90-105 | walk keeps a file if and only if no path element is hidden and validExt accepts its extension; layout files are not skipped |
| LayoutComposer.Placeholders.constructor | layout.go:258-261 | the package-level map holds exactly the render and partial placeholders |
| LayoutComposer.Setup | layout.go:128-167 | no options give the defaults; an unreadable layout is an error that changes nothing; otherwise the layout source, the extensions (when non-empty) and the caller's functions written into the shared map |
| LayoutComposer.CreateLayout | layout.go:34-40 | setup's failure, an unreadable layout file, is returned wrapped as "error creating new layout" and is not ErrNotFound; setup succeeds, writing the caller's functions into the shared map, exactly when there are no options, no layout file is named or it can be read |
| LayoutComposer.GraftTargetsSucceeds | layout.go:180-189 | the reference loop succeeds if and only if every target not passed over is in the namespace; any failure is ErrNotFound |
| LayoutComposer.GraftTargetsAdds | layout.go:180-189 | on success it adds a shared graft per target not passed over, and nothing else |
| LayoutComposer.WithHead | layout.go:227-230 | an empty "head" is added exactly when the set has none |
| LayoutComposer.Clone | layout.go:195 | html/template's Clone: the same names, every tree owned by the copy, owned trees kept as they were |
| LayoutComposer.CloneDetached | layout.go:195 | a clone reads the same against any later namespace as the layout read when it was cloned, so later rewrites do not reach it |
| LayoutComposer.ViewSetOwnName | layout.go:195-225 | under its own name, unless it targets itself, a view holds the layout's copy of that template from before the rewrite |
| LayoutComposer.ComposeLayoutSelfShared | layout.go:179-188 | on success, parseLayout files every graft under the name of the tree it shares |
| LayoutComposer.ComposeView | layout.go:194-233 | parseView keeps the namespace's names |
| LayoutComposer.BuildViews | layout.go:55-61 | the view loop keeps the namespace's names |
| LayoutComposer.Render | layout.go:66-78 | ErrNotFound exactly when the view was not built; otherwise its set, read against the namespace |
| LayoutComposer.ComposeLayoutResult | layout.go:169-192 | parseLayout succeeds if and only if every target other than body and head exists, failing with ErrNotFound; each is grafted by reference; the layout's own tree is rewritten with both flags; its defined templates are kept |
| LayoutComposer.ComposeLayoutUnmarked | layout.go:176 | the composed layout's own tree calls neither render nor partial |
| LayoutComposer.ComposeViewResult | layout.go:194-233 | an unknown view is ErrNotFound; otherwise its tree is rewritten in place with partial swapped (even when grafting then fails), it succeeds if and only if every target exists, and the set is the view set, built on a clone of the layout taken before the rewrite |
| LayoutComposer.ViewSetKeys | layout.go:210-230 | the view set's names: the layout's, every namespace name, "body" and "head" |
| LayoutComposer.ViewSetShares | layout.go:219-225 | "body" shares the view's own tree, and every other namespace template is shared under its name |
| LayoutComposer.ViewSetHead | layout.go:227-230 | "head" is the namespace's, else the layout's as cloned, else an empty placeholder |
| LayoutComposer.ComposeViewLeavesOthers | layout.go:206 | rewriting one view's tree changes neither whether another view composes nor, for a layout that files each graft under its own name, its set: the clone differs only under the rewritten view's name, which the defined-templates loop overwrites |
| LayoutComposer.BuildViewsSucceeds | layout.go:55-61 | the view loop succeeds if and only if every visited view composes against the namespace walk built; any failure is ErrNotFound |
| LayoutComposer.BuildViewsState | layout.go:55-61 | on success, the namespace holds every visited view rewritten, and the views are each one's own set; the layout files each graft under its own name, as `ComposeLayoutSelfShared` proves of parseLayout |
| LayoutComposer.RenderReadsFinalTrees | layout.go:66-78 | a built view renders its own rewritten tree as "body", every other namespace template as it stands after all views were composed, and, under its own name when the layout grafted it and the view does not target itself, the tree as walk parsed it, copied by the clone |
| LayoutComposer.ConstructOrderFree | layout.go:34-64 | success, the views and the final namespace do not depend on the walk order |
| LayoutComposer.Namespace.constructor | layout.go:84 | the namespace holds the trees walk parsed |
| LayoutComposer.Namespace.GraftAll | layout.go:180-189 | the loop's set and error equal the reference loop function |
| LayoutComposer.Namespace.ParseLayout | layout.go:169-192 | equals ComposeLayout |
| LayoutComposer.Namespace.AddTemplates | layout.go:219-225 | every namespace template is grafted, the view's own as "body" |
| LayoutComposer.Namespace.ParseView | layout.go:194-233 | equals ComposeView, the view's tree rewritten in the namespace |
| LayoutComposer.Namespace.NewLayout | layout.go:34-64 | equals Construct for the walk order |

## Left out

- File system I/O is not modelled:
  - `fs.WalkDir`, `readFile` and `fs.Sub` are replaced by parameters: a map from path to source, and the registry or namespace that walk produces.
  - The embedded default layout is a string parameter.
  - Only walk's per-path filter is modelled (`Engine.Admits`, `LayoutComposer.Admits`).
  - A walk failure is not modelled, because walk is a parameter. newEngine wraps it as "error creating new engine" (engine.go:37-40) and newLayout as "error creating new layout" (layout.go:43-46), as they wrap a setup failure.
- html/template and text/template parsing and `Execute` are foreign code.
  - A parse result is a given `Parse` value, and a template set is a map from name to tree.
  - Rendered output is not modelled.
  - Template-level errors such as Clone failing are not modelled.
- `AddParseTree` is modelled as a plain map update. text/template keeps an existing template when the new tree is empty, and that rule is not modelled.
- `Engine.Templates` stores the file's own tree under its own name after the defined ones. Go returns `Templates()` in map order, and a `{{define}}` of the file's own name is not modelled.
- `LayoutComposer.AddAll` and `Engine.AddDefined` always let the view's own tree take the "body" slot. In Go, a template named "body" also competes for that slot: a namespace `{{define "body"}}` in layout.go:219-225, the view's own `{{define "body"}}` in engine.go:231-237. Both are added with `AddParseTree` in `Templates()` map order, so which one Go keeps depends on that order; the model does not capture this collision.
- `ParseTree.Action` and `ParseTree.Call` keep an action's commands but not its variable declarations. Go keeps the action's whole pipe in the new template node (process.go:109, tree.go:72), so in `{{$x := partial "p"}}` the declaration of `$x` survives the rewrite; the model drops it.
- `Engine.Config.Setup` and `LayoutComposer.Setup`: the root option (`fs.Sub` on a sub-directory) is not modelled, because it only selects the file system.
- Function values in a FuncMap are opaque identifiers, because closures cannot be compared.
- `Process.Pos` counts characters, where Go's `range` over a string counts byte offsets of runes. The two agree on ASCII, which is all the model handles. `ToLower` in `hasExt` and `validateLayoutFile` is ASCII-only too.
- Error values are datatypes with a context, not formatted strings. Only the messages the tests or the rewriter check are kept as text.
- Concurrent calls to `Render` are not modelled.
- layout.go calls a four-argument `processTree(tree, raw, render, partial)` that returns an error. Its definition is not part of this model, so `LayoutComposer` uses tree.go's flag-driven rewriter with an absent else list walked as empty (`TreeRewrite.SwapList`, the corrected walk), which cannot fail. Rewriting errors of the layout variant are therefore absent.
- tree.go's panic on a nil parent (tree.go:38-41) cannot happen in this model: a tree root is always a list, so every action has a parent.
- `LayoutComposer.BuildViewsState`, `LayoutComposer.RenderReadsFinalTrees` and `LayoutComposer.ConstructOrderFree` assume the walk order names each file once. `fs.WalkDir` guarantees this.
- Behaviour of the code worth noting; the model follows the code:
  - The caller's functions override `render` and `partial` in the func map.
  - engine.go adds no `head` placeholder, while layout.go does.
  - The cyclic-reference check comes before the role check.
  - process.go records a string-literal second argument as a reference only for render and partial. tree.go records it for every callee, and `LayoutComposer` composes with tree.go's rewriter. So in this model, a layout.go view containing `{{printf "%s" .X}}` fails with ErrNotFound unless a template named `%s` exists.

## Findings

| source | as written | input that shows it | evidently intended | confidence | as-written member | corrected member |
|---|---|---|---|---|---|---|
| tree.go:25-32 | the walk recurses into `ElseList` of every if and range node; for one without else that is a nil `*parse.ListNode`, whose `Nodes` the list case reads, a nil dereference panic | `{{if .Name}}{{.Name}}{{end}}` (the template of mold_test.go:267) | an absent else branch is skipped, as process.go:56-63 does with its nil checks | high, not executed | TreeRewrite.IfWithoutElse | TreeRewrite.ListKept |
| engine.go:49-58 | the view loop visits the registry in Go map order and stamps roles and rewrites onto shared entries, so a later view sees the rewrites of earlier ones; acceptance depends on the random order | a.html = `{{partial "b.html"}}`, b.html = `{{partial "c.html"}}`, c.html plain: accepted when b.html is visited before a.html, with a set for a.html that calls c.html but lacks it; rejected when a.html comes first | the outcome is the same for every order: each view is composed against the registry as the layout left it, which rejects this chain (a partial may not include a partial, mold_test.go:255-264) | high, not executed | EngineExamples.ChainAcceptedBFirst | Engine.ConstructFromRegistryOrderFree |
