/** The older composer of layout.go. Every template file is parsed into
    one shared namespace; the layout and each view graft the namespace's
    trees by reference, and composing a view rewrites its own tree in
    place, so every composed set sees the rewrites of all views. Templates
    are rewritten by the flag-driven rewriter of tree.go, which checks
    nothing. */
module LayoutComposer {
  import opened ParseTree
  import opened GoStrings
  import opened TreeRewrite
  import Engine

  /** defaultExts: without leading dots. */
  const DefaultExts: seq<string> := ["html", "gohtml", "tpl", "tmpl"]
  /** The name a view's own tree is grafted under. */
  const BodySection: string := "body"
  /** The section every composed view holds, empty when no template
      provides it. */
  const HeadSection: string := "head"
  /** The name parseLayout gives the layout template. */
  const LayoutName: string := "layout"

  /** The layout is rewritten with both markers swapped, a view with
      partial only: a render left in a view calls the placeholder. */
  const LayoutFlags := Flags(true, true)
  const ViewFlags := Flags(false, true)

  // ---------------------------------------------------------------------
  // Errors

  /** The context fmt.Errorf adds in front of a wrapped error. */
  datatype Context =
    | CreatingLayout                // "error creating new layout"
    | ParsingLayout                 // "error parsing layout"
    | ReadingLayoutFile(name: string)
    | ParsingTemplate(name: string) // "error parsing template '<name>'"

  datatype Error =
    | NotFound                  // ErrNotFound
    | ReadFailed(name: string)  // a file the file system could not read
    | ParseFailed(name: string) // html/template could not parse a source
    | Wrapped(context: Context, inner: Error)

  /** errors.Is(err, ErrNotFound). */
  predicate IsNotFound(e: Error)
  {
    match e
    case NotFound => true
    case Wrapped(_, inner) => IsNotFound(inner)
    case _ => false
  }

  datatype Result<T> = Success(value: T) | Failure(error: Error)

  // ---------------------------------------------------------------------
  // Extensions

  /** validExt's match: one leading dot dropped on either side, letters
      compared as they are. */
  predicate Accepts(exts: seq<string>, ext: string)
  {
    ext != "" && exists i :: 0 <= i < |exts| && TrimPrefix(exts[i], ".") == TrimPrefix(ext, ".")
  }

  /** validExt. */
  method ValidExt(exts: seq<string>, ext: string) returns (ok: bool)
    ensures ok == Accepts(exts, ext)
  {
    if ext == "" {
      return false;
    }
    for i := 0 to |exts|
      invariant forall j :: 0 <= j < i ==> TrimPrefix(exts[j], ".") != TrimPrefix(ext, ".")
    {
      if TrimPrefix(exts[i], ".") == TrimPrefix(ext, ".") {
        return true;
      }
    }
    return false;
  }

  /** validExt compares letters as they are: an upper-case extension is
      none of the defaults. */
  lemma ValidExtIsCaseSensitive()
    ensures !Accepts(DefaultExts, ".HTML")
  {
    assert "html"[..1] == "h" && "gohtml"[..1] == "g" && "tpl"[..1] == "t" && "tmpl"[..1] == "t";
    assert TrimPrefix("html", ".") == "html";
    assert TrimPrefix("gohtml", ".") == "gohtml";
    assert TrimPrefix("tpl", ".") == "tpl";
    assert TrimPrefix("tmpl", ".") == "tmpl";
    assert TrimPrefix(".HTML", ".") == "HTML";
  }

  /** The engine's hasExt lower-cases both sides and accepts it. */
  lemma HasExtIgnoresCase()
    ensures Engine.Listed(Engine.DefaultExts, ".HTML")
  {
    assert Engine.Sanitize(Engine.DefaultExts[0]) == "html";
    assert Engine.Sanitize(".HTML") == "html";
  }

  /** validExt accepts an extension with or without its dot, but drops
      only one leading dot. */
  lemma ValidExtDropsOneDot()
    ensures Accepts(DefaultExts, ".html") && Accepts(DefaultExts, "html")
    ensures !Accepts(["..html"], ".html")
  {
    assert "html"[..1] == "h";
    assert TrimPrefix("html", ".") == "html";
    assert TrimPrefix("..html", ".") == ".html";
    assert TrimPrefix(".html", ".") == "html";
    assert TrimPrefix(DefaultExts[0], ".") == TrimPrefix(".html", ".");
    assert TrimPrefix(DefaultExts[0], ".") == TrimPrefix("html", ".");
  }

  /** The filter of walk: a file whose path has no hidden element and
      whose extension validExt accepts. */
  method Admits(exts: seq<string>, path: string) returns (ok: bool)
    ensures ok <==> !Engine.Hidden(path) && Accepts(exts, Ext(path))
  {
    if Engine.Hidden(path) {
      return false;
    }
    Engine.ExtOfLastElement(path);
    ok := ValidExt(exts, Ext(Engine.LastElement(path)));
  }

  // ---------------------------------------------------------------------
  // Configuration

  /** The options setup reads; the file system and the root option are
      not part of this model. */
  datatype Options = Options(layout: string, exts: seq<string>, funcMap: Engine.FuncMap)

  /** What setup returns: the layout source and the extensions. */
  datatype Setting = Setting(layout: string, exts: seq<string>)

  /** placeholderFuncs: a package-level map that every setup writes the
      caller's functions into. */
  class Placeholders {
    var funcs: Engine.FuncMap

    constructor ()
      ensures funcs == Engine.PlaceholderFuncs()
    {
      funcs := Engine.PlaceholderFuncs();
    }
  }

  /** setup: the defaults, then the options when there are any: the
      layout file read from fsys, the extensions when not empty, and the
      caller's functions written into the shared placeholders, where they
      stay for every later layout. */
  method Setup(fsys: map<string, string>, defaultLayout: string, c: Option<Options>, p: Placeholders)
    returns (conf: Setting, err: Option<Error>)
    modifies p
    ensures c.None? ==> conf == Setting(defaultLayout, DefaultExts) && err.None? && p.funcs == old(p.funcs)
    ensures c.Some? && c.value.layout != "" && c.value.layout !in fsys ==>
      err == Some(Wrapped(ReadingLayoutFile(c.value.layout), ReadFailed(c.value.layout))) && p.funcs == old(p.funcs)
    ensures c.Some? && (c.value.layout == "" || c.value.layout in fsys) ==> err.None?
    ensures c.Some? && err.None? ==>
      && conf.layout == (if c.value.layout == "" then defaultLayout else fsys[c.value.layout])
      && conf.exts == (if |c.value.exts| > 0 then c.value.exts else DefaultExts)
      && p.funcs == old(p.funcs) + c.value.funcMap
  {
    conf := Setting(defaultLayout, DefaultExts);
    if c.None? {
      return conf, None;
    }
    var opts := c.value;
    if opts.layout != "" {
      if opts.layout !in fsys {
        return conf, Some(Wrapped(ReadingLayoutFile(opts.layout), ReadFailed(opts.layout)));
      }
      conf := conf.(layout := fsys[opts.layout]);
    }
    if |opts.exts| > 0 {
      conf := conf.(exts := opts.exts);
    }
    var merged := Engine.MergeFuncs(p.funcs, opts.funcMap);
    p.funcs := merged;
    return conf, None;
  }

  /** The first step of newLayout: setup, with its failure wrapped as
      "error creating new layout". */
  method CreateLayout(fsys: map<string, string>, defaultLayout: string, c: Option<Options>, p: Placeholders)
    returns (conf: Setting, err: Option<Error>)
    modifies p
    ensures err.None? <==> c.None? || c.value.layout == "" || c.value.layout in fsys
    ensures err.Some? ==>
      err == Some(Wrapped(CreatingLayout, Wrapped(ReadingLayoutFile(c.value.layout), ReadFailed(c.value.layout))))
      && !IsNotFound(err.value) && p.funcs == old(p.funcs)
    ensures err.None? && c.Some? ==> p.funcs == old(p.funcs) + c.value.funcMap
  {
    var e;
    conf, e := Setup(fsys, defaultLayout, c, p);
    if e.Some? {
      assert !IsNotFound(e.value.inner);
      return conf, Some(Wrapped(CreatingLayout, e.value));
    }
    return conf, None;
  }

  // ---------------------------------------------------------------------
  // Composition, as functions

  /** The root namespace walk builds: every template of every file, its
      own tree under its path and the templates it defines. */
  type Trees = map<string, seq<Node>>

  /** An entry of a composed set: a tree of its own, or the namespace's
      tree of that name, shared by reference. */
  datatype Graft = Own(tree: seq<Node>) | Shared(name: string)

  type Set = map<string, Graft>

  /** The targets the rewriter reports for a tree. */
  function Targets(tree: seq<Node>): seq<string>
  {
    TargetsOf(ReachedIn(tree))
  }

  /** parseLayout passes over the two sections. */
  predicate Skip(ref: string, fromLayout: bool)
  {
    fromLayout && (ref == BodySection || ref == HeadSection)
  }

  datatype Grafted = Grafted(tmpl: Set, err: Option<Error>)

  /** The reference loop of parseLayout (fromLayout) and parseView: each
      target is looked up in the namespace and grafted by reference; a
      missing one is ErrNotFound and ends the loop. */
  function GraftTargets(trees: Trees, tmpl: Set, refs: seq<string>, fromLayout: bool): Grafted
    decreases |refs|
  {
    if refs == [] then Grafted(tmpl, None)
    else if Skip(refs[0], fromLayout) then GraftTargets(trees, tmpl, refs[1..], fromLayout)
    else if refs[0] !in trees then Grafted(map[], Some(Wrapped(ParsingTemplate(refs[0]), NotFound)))
    else GraftTargets(trees, tmpl[refs[0] := Shared(refs[0])], refs[1..], fromLayout)
  }

  /** The grafts of the targets a loop does not pass over. */
  function Grafts(refs: seq<string>, fromLayout: bool): (r: Set)
    ensures forall k :: k in r <==> k in refs && !Skip(k, fromLayout)
    ensures forall k :: k in r ==> r[k] == Shared(k)
  {
    map r | r in refs && !Skip(r, fromLayout) :: Shared(r)
  }

  /** Every target must be in the namespace. */
  predicate Resolvable(trees: Trees, refs: seq<string>, fromLayout: bool)
  {
    forall i :: 0 <= i < |refs| && !Skip(refs[i], fromLayout) ==> refs[i] in trees
  }

  lemma GraftsCons(refs: seq<string>, fromLayout: bool)
    requires refs != []
    ensures Grafts(refs, fromLayout) ==
      if Skip(refs[0], fromLayout) then Grafts(refs[1..], fromLayout)
      else Grafts(refs[1..], fromLayout)[refs[0] := Shared(refs[0])]
  {
    assert forall k :: k in refs <==> k == refs[0] || k in refs[1..];
  }

  /** The reference loop succeeds exactly when every target it does not
      pass over is in the namespace, and fails with ErrNotFound. */
  lemma {:induction false} GraftTargetsSucceeds(trees: Trees, tmpl: Set, refs: seq<string>, fromLayout: bool)
    ensures var g := GraftTargets(trees, tmpl, refs, fromLayout);
      && (g.err.None? <==> Resolvable(trees, refs, fromLayout))
      && (g.err.Some? ==> IsNotFound(g.err.value))
    decreases |refs|
  {
    if refs != [] {
      var r := refs[0];
      assert forall i :: 1 <= i < |refs| ==> refs[i] == refs[1..][i - 1];
      if Skip(r, fromLayout) {
        GraftTargetsSucceeds(trees, tmpl, refs[1..], fromLayout);
      } else if r in trees {
        GraftTargetsSucceeds(trees, tmpl[r := Shared(r)], refs[1..], fromLayout);
      }
    }
  }

  /** On success the loop adds one shared graft per target. */
  lemma {:induction false} GraftTargetsAdds(trees: Trees, tmpl: Set, refs: seq<string>, fromLayout: bool)
    requires GraftTargets(trees, tmpl, refs, fromLayout).err.None?
    ensures GraftTargets(trees, tmpl, refs, fromLayout).tmpl == tmpl + Grafts(refs, fromLayout)
    decreases |refs|
  {
    if refs != [] {
      var r := refs[0];
      GraftsCons(refs, fromLayout);
      if Skip(r, fromLayout) {
        GraftTargetsAdds(trees, tmpl, refs[1..], fromLayout);
      } else {
        GraftTargetsAdds(trees, tmpl[r := Shared(r)], refs[1..], fromLayout);
      }
    }
  }

  /** The defined-templates loop of parseView: every template of the
      namespace grafted by reference, the view's own under "body". */
  function AddAll(tmpl: Set, names: set<string>, name: string): Set
  {
    (tmpl + map k | k in names - {name} :: Shared(k))[BodySection := Shared(name)]
  }

  /** The head placeholder: an empty template when the set has none. */
  function WithHead(tmpl: Set): (r: Set)
    ensures HeadSection in r
    ensures HeadSection in tmpl ==> r == tmpl
    ensures HeadSection !in tmpl ==> r == tmpl[HeadSection := Own([])]
  {
    if HeadSection in tmpl then tmpl else tmpl[HeadSection := Own([])]
  }

  datatype LayoutResult = LayoutResult(tmpl: Set, err: Option<Error>)

  /** parseLayout: the layout source parsed as "layout", rewritten with
      both markers swapped, and its targets other than body and head
      grafted from the namespace. */
  function ComposeLayout(trees: Trees, parsed: Engine.Parse): LayoutResult
  {
    match parsed
    case ParseError => LayoutResult(map[], Some(ParseFailed(LayoutName)))
    case Parsed(root, defines) =>
      var w := SwapList(LayoutFlags, root);
      var own := (map k | k in defines :: Own(defines[k]))[LayoutName := Own(w.nodes)];
      var g := GraftTargets(trees, own, w.ts, true);
      LayoutResult(g.tmpl, g.err)
  }

  datatype ViewResult = ViewResult(trees: Trees, view: Set, err: Option<Error>)

  /** html/template's Clone: every tree of the set copied as the
      namespace holds it now, so later rewrites of the namespace do not
      reach the copy. */
  function Clone(trees: Trees, tmpl: Set): (r: Set)
    ensures r.Keys == tmpl.Keys
    ensures forall k :: k in r ==> r[k].Own?
    ensures forall k :: k in tmpl && tmpl[k].Own? ==> r[k] == tmpl[k]
  {
    map k | k in tmpl :: Own(Resolve(trees, tmpl)[k])
  }

  /** A clone reads the same against any later namespace as the
      original set read when it was taken. */
  lemma CloneDetached(trees: Trees, tmpl: Set, later: Trees)
    ensures Resolve(later, Clone(trees, tmpl)) == Resolve(trees, tmpl)
  {
    var c := Clone(trees, tmpl);
    assert Resolve(later, c).Keys == Resolve(trees, tmpl).Keys;
    forall k | k in tmpl
      ensures Resolve(later, c)[k] == Resolve(trees, tmpl)[k]
    {
      assert c[k] == Own(Resolve(trees, tmpl)[k]);
    }
  }

  /** The set parseView composes for a view whose targets resolve: a
      copy of the layout taken before the view's rewrite, a graft per
      target, every namespace template by reference with the view's own
      as "body", and a head. */
  function ViewSet(layout: Set, trees: Trees, name: string): Set
    requires name in trees
  {
    WithHead(AddAll(Clone(trees, layout) + Grafts(Targets(trees[name]), false), trees.Keys, name))
  }

  /** parseView: the layout cloned, the view's tree looked up, rewritten
      in place with partial swapped, its targets grafted, then every
      template. */
  function ComposeView(trees: Trees, layout: Set, name: string): (r: ViewResult)
    ensures r.trees.Keys == trees.Keys
  {
    if name !in trees then ViewResult(trees, map[], Some(NotFound))
    else
      var w := SwapList(ViewFlags, trees[name]);
      var trees1 := trees[name := w.nodes];
      var g := GraftTargets(trees1, Clone(trees, layout), w.ts, false);
      if g.err.Some? then ViewResult(trees1, map[], g.err)
      else ViewResult(trees1, WithHead(AddAll(g.tmpl, trees1.Keys, name)), None)
  }

  datatype Built = Built(trees: Trees, views: map<string, Set>, err: Option<Error>)

  /** The view loop of newLayout over the files walk found, in walk
      order; the first error ends it. */
  function BuildViews(trees: Trees, layout: Set, order: seq<string>, views: map<string, Set>): (b: Built)
    ensures b.trees.Keys == trees.Keys
    decreases |order|
  {
    if order == [] then Built(trees, views, None)
    else
      var c := ComposeView(trees, layout, order[0]);
      if c.err.Some? then Built(c.trees, map[], c.err)
      else BuildViews(c.trees, layout, order[1..], views[order[0] := c.view])
  }

  /** newLayout after setup and walk: the layout, then every view. */
  function Construct(trees: Trees, parsed: Engine.Parse, order: seq<string>): Built
  {
    var l := ComposeLayout(trees, parsed);
    if l.err.Some? then Built(trees, map[], Some(Wrapped(ParsingLayout, l.err.value)))
    else BuildViews(trees, l.tmpl, order, map[])
  }

  /** A composed set with its shared grafts read from the namespace as
      it stands when the set is executed. */
  function Resolve(trees: Trees, tmpl: Set): (r: map<string, seq<Node>>)
    ensures r.Keys == tmpl.Keys
  {
    map k | k in tmpl :: match tmpl[k]
      case Own(t) => t
      case Shared(n) => if n in trees then trees[n] else []
  }

  /** Render's lookup: the set of a view built at construction, read
      against the namespace, or ErrNotFound. Executing it is not
      modelled. */
  function Render(trees: Trees, views: map<string, Set>, view: string): (r: Result<map<string, seq<Node>>>)
    ensures r.Failure? <==> view !in views
    ensures r.Failure? ==> r.error == NotFound
    ensures r.Success? ==> r.value == Resolve(trees, views[view])
  {
    if view in views then Success(Resolve(trees, views[view])) else Failure(NotFound)
  }

  // ---------------------------------------------------------------------
  // Properties of composition

  /** parseLayout fails only on a parse error or on a target, other than
      body and head, that the namespace lacks. On success the layout's own
      tree holds no render or partial, every other target is grafted by
      reference, and the templates it defines keep their trees. */
  lemma ComposeLayoutResult(trees: Trees, root: seq<Node>, defines: map<string, seq<Node>>)
    ensures var l := ComposeLayout(trees, Engine.Parsed(root, defines));
      && (l.err.None? <==> Resolvable(trees, Targets(root), true))
      && (l.err.Some? ==> IsNotFound(l.err.value))
      && (l.err.None? ==> forall k :: k in Targets(root) && !Skip(k, true) ==> k in l.tmpl && l.tmpl[k] == Shared(k))
      && (l.err.None? && LayoutName !in Targets(root) ==>
            LayoutName in l.tmpl && l.tmpl[LayoutName] == Own(SwapList(LayoutFlags, root).nodes))
      && (l.err.None? ==> forall k :: k in defines && k != LayoutName && k !in Targets(root) ==>
            k in l.tmpl && l.tmpl[k] == Own(defines[k]))
  {
    var w := SwapList(LayoutFlags, root);
    ListTargets(LayoutFlags, root);
    var own := (map k | k in defines :: Own(defines[k]))[LayoutName := Own(w.nodes)];
    GraftTargetsSucceeds(trees, own, w.ts, true);
    if GraftTargets(trees, own, w.ts, true).err.None? {
      GraftTargetsAdds(trees, own, w.ts, true);
    }
  }

  /** parseLayout files every target it grafts under the target's own
      name. */
  lemma ComposeLayoutSelfShared(trees: Trees, parsed: Engine.Parse)
    ensures ComposeLayout(trees, parsed).err.None? ==> SelfShared(ComposeLayout(trees, parsed).tmpl)
  {
    if parsed.Parsed? {
      var w := SwapList(LayoutFlags, parsed.root);
      var own := (map k | k in parsed.defines :: Own(parsed.defines[k]))[LayoutName := Own(w.nodes)];
      if GraftTargets(trees, own, w.ts, true).err.None? {
        GraftTargetsAdds(trees, own, w.ts, true);
      }
    }
  }

  /** The layout's own tree holds no render or partial action once it is
      rewritten. */
  lemma ComposeLayoutUnmarked(trees: Trees, root: seq<Node>, defines: map<string, seq<Node>>)
    requires ComposeLayout(trees, Engine.Parsed(root, defines)).err.None?
    requires LayoutName !in Targets(root)
    ensures var l := ComposeLayout(trees, Engine.Parsed(root, defines));
      && LayoutName in l.tmpl && l.tmpl[LayoutName].Own?
      && forall a :: a in ReachedIn(l.tmpl[LayoutName].tree) ==> Callee(a) != "render" && Callee(a) != "partial"
  {
    ComposeLayoutResult(trees, root, defines);
    NoMarkersLeft(root);
  }

  /** parseView fails with ErrNotFound for a name the namespace lacks or
      a target it lacks, and otherwise composes ViewSet; either way the
      view's tree is left rewritten when it was found. */
  lemma ComposeViewResult(trees: Trees, layout: Set, name: string)
    ensures var c := ComposeView(trees, layout, name);
      && (c.err.Some? ==> IsNotFound(c.err.value))
      && (name !in trees ==> c.err == Some(NotFound) && c.trees == trees)
      && (name in trees ==> c.trees == trees[name := SwapList(ViewFlags, trees[name]).nodes])
      && (name in trees ==> (c.err.None? <==> Resolvable(trees, Targets(trees[name]), false)))
      && (c.err.None? ==> c.view == ViewSet(layout, trees, name))
  {
    if name in trees {
      var w := SwapList(ViewFlags, trees[name]);
      ListTargets(ViewFlags, trees[name]);
      var clone := Clone(trees, layout);
      GraftTargetsSucceeds(trees[name := w.nodes], clone, w.ts, false);
      if GraftTargets(trees[name := w.nodes], clone, w.ts, false).err.None? {
        GraftTargetsAdds(trees[name := w.nodes], clone, w.ts, false);
      }
    }
  }

  lemma TargetsIn(trees: Trees, ts: seq<string>)
    requires Resolvable(trees, ts, false)
    ensures forall k :: k in ts ==> k in trees
  {
    forall k | k in ts ensures k in trees {
      var i :| 0 <= i < |ts| && ts[i] == k;
    }
  }

  /** A composed view holds the layout's templates, every template of the
      namespace, "body" and "head"; the view's own name only when the
      layout has it or the view references itself. */
  lemma ViewSetKeys(layout: Set, trees: Trees, name: string)
    requires name in trees && Resolvable(trees, Targets(trees[name]), false)
    ensures ViewSet(layout, trees, name).Keys ==
      (layout.Keys + trees.Keys - {name}) + {BodySection, HeadSection} +
      (if name in Targets(trees[name]) || name in layout then {name} else {})
  {
    TargetsIn(trees, Targets(trees[name]));
  }

  /** A composed view holds the view's own tree as "body" and every other
      template of the namespace by reference. */
  lemma ViewSetShares(layout: Set, trees: Trees, name: string)
    requires name in trees
    ensures var v := ViewSet(layout, trees, name);
      && BodySection in v && v[BodySection] == Shared(name)
      && (forall k :: k in trees && k != name && k != BodySection ==> k in v && v[k] == Shared(k))
  {
  }

  /** Under the view's own name, unless the view targets itself, a
      composed view holds the layout's copy of that template, taken
      before the view's tree was rewritten. */
  lemma ViewSetOwnName(layout: Set, trees: Trees, name: string)
    requires name in trees && name in layout && name !in Targets(trees[name])
    ensures var v := ViewSet(layout, trees, name);
      name != BodySection ==> name in v && v[name] == Own(Resolve(trees, layout)[name])
  {
  }

  /** The head of a composed view: the namespace's when it has one, else
      the layout's, else an empty one. */
  lemma ViewSetHead(layout: Set, trees: Trees, name: string)
    requires name in trees && Resolvable(trees, Targets(trees[name]), false)
    ensures var v := ViewSet(layout, trees, name);
      && HeadSection in v
      && (HeadSection !in layout && HeadSection !in trees ==> v[HeadSection] == Own([]))
      && (HeadSection in layout && HeadSection !in trees ==> v[HeadSection] == Own(Resolve(trees, layout)[HeadSection]))
      && (HeadSection in trees && HeadSection != name ==> v[HeadSection] == Shared(HeadSection))
  {
    TargetsIn(trees, Targets(trees[name]));
    var g := Clone(trees, layout) + Grafts(Targets(trees[name]), false);
    assert HeadSection !in trees ==> HeadSection !in Grafts(Targets(trees[name]), false);
  }

  // ---------------------------------------------------------------------
  // The view loop

  predicate Distinct(order: seq<string>)
  {
    forall i, j :: 0 <= i < j < |order| ==> order[i] != order[j]
  }

  /** A view composes when its name and all its targets resolve. */
  predicate Composes(trees: Trees, name: string)
  {
    name in trees && Resolvable(trees, Targets(trees[name]), false)
  }

  /** The namespace once the views named have been rewritten. */
  function Rewritten(trees: Trees, names: set<string>): (r: Trees)
    ensures r.Keys == trees.Keys
  {
    map k | k in trees :: if k in names then SwapList(ViewFlags, trees[k]).nodes else trees[k]
  }

  /** The sets of the views named, each composed from the namespace as
      walk left it. */
  function ViewSets(layout: Set, trees: Trees, names: set<string>): (r: map<string, Set>)
    ensures r.Keys == names * trees.Keys
  {
    map v | v in names && v in trees :: ViewSet(layout, trees, v)
  }

  /** Composing one view changes only its own tree, so whether another
      view composes and what it composes are as before. */
  lemma ComposeViewLeavesOthers(trees: Trees, layout: Set, name: string, other: string)
    requires name in trees && other != name
    ensures var t1 := trees[name := SwapList(ViewFlags, trees[name]).nodes];
      && (Composes(t1, other) <==> Composes(trees, other))
      && (other in trees && SelfShared(layout) ==> ViewSet(layout, t1, other) == ViewSet(layout, trees, other))
  {
    var t1 := trees[name := SwapList(ViewFlags, trees[name]).nodes];
    assert t1.Keys == trees.Keys;
    if other in trees && SelfShared(layout) {
      assert t1[other] == trees[other];
      var c1, c := Clone(t1, layout), Clone(trees, layout);
      forall k | k in c1 && k !in trees.Keys - {other}
        ensures c1[k] == c[k]
      {
        if layout[k].Shared? {
          assert layout[k].name == k;
        }
      }
      AddAllOverwrites(c1, c, Grafts(Targets(trees[other]), false), trees.Keys, other);
    }
  }

  /** Every graft of a set by reference is filed under the name of the
      tree it shares, as parseLayout files its targets. */
  predicate SelfShared(tmpl: Set)
  {
    forall k :: k in tmpl && tmpl[k].Shared? ==> tmpl[k].name == k
  }

  /** The defined-templates loop overwrites every namespace name but the
      view's own, so sets that differ only there compose alike. */
  lemma AddAllOverwrites(a: Set, b: Set, g: Set, names: set<string>, name: string)
    requires a.Keys == b.Keys
    requires forall k :: k in a && k !in names - {name} ==> a[k] == b[k]
    ensures AddAll(a + g, names, name) == AddAll(b + g, names, name)
  {
    var l, r := AddAll(a + g, names, name), AddAll(b + g, names, name);
    assert l.Keys == r.Keys;
    forall k | k in l
      ensures l[k] == r[k]
    {
    }
  }

  lemma RewrittenCons(trees: Trees, name: string, rest: set<string>)
    requires name in trees && name !in rest
    ensures Rewritten(trees[name := SwapList(ViewFlags, trees[name]).nodes], rest) == Rewritten(trees, {name} + rest)
  {
  }

  lemma ViewSetsCons(layout: Set, trees: Trees, name: string, rest: set<string>, views: map<string, Set>)
    requires name in trees && name !in rest && SelfShared(layout)
    ensures var t1 := trees[name := SwapList(ViewFlags, trees[name]).nodes];
      views[name := ViewSet(layout, trees, name)] + ViewSets(layout, t1, rest) == views + ViewSets(layout, trees, {name} + rest)
  {
    ViewSetsLeave(layout, trees, name, rest);
    ViewSetsAdd(layout, trees, name, rest);
    OverrideMoves(views, ViewSets(layout, trees, rest), name, ViewSet(layout, trees, name));
  }

  /** An entry set before a merge that does not touch its key is the same
      as one set in the merged map. */
  lemma OverrideMoves<V>(m: map<string, V>, s: map<string, V>, k: string, x: V)
    requires k !in s
    ensures m[k := x] + s == m + s[k := x]
  {
  }

  /** The sets of views other than the one just composed are as before. */
  lemma ViewSetsLeave(layout: Set, trees: Trees, name: string, rest: set<string>)
    requires name in trees && name !in rest && SelfShared(layout)
    ensures ViewSets(layout, trees[name := SwapList(ViewFlags, trees[name]).nodes], rest) == ViewSets(layout, trees, rest)
  {
    var t1 := trees[name := SwapList(ViewFlags, trees[name]).nodes];
    assert t1.Keys == trees.Keys;
    forall v | v in rest && v in trees
      ensures ViewSet(layout, t1, v) == ViewSet(layout, trees, v)
    {
      ComposeViewLeavesOthers(trees, layout, name, v);
    }
  }

  lemma ViewSetsAdd(layout: Set, trees: Trees, name: string, rest: set<string>)
    requires name in trees
    ensures ViewSets(layout, trees, {name} + rest) == ViewSets(layout, trees, rest)[name := ViewSet(layout, trees, name)]
  {
  }

  /** The view loop over distinct names succeeds exactly when every view
      composes against the namespace as walk left it, and fails with
      ErrNotFound otherwise. */
  lemma {:induction false} BuildViewsSucceeds(trees: Trees, layout: Set, order: seq<string>, views: map<string, Set>)
    requires Distinct(order)
    ensures var b := BuildViews(trees, layout, order, views);
      && (b.err.None? <==> forall i :: 0 <= i < |order| ==> Composes(trees, order[i]))
      && (b.err.Some? ==> IsNotFound(b.err.value))
    decreases |order|
  {
    if order != [] {
      var name := order[0];
      var rest := order[1..];
      assert forall i :: 1 <= i < |order| ==> order[i] == rest[i - 1];
      ComposeViewResult(trees, layout, name);
      var c := ComposeView(trees, layout, name);
      if c.err.None? {
        BuildViewsSucceeds(c.trees, layout, rest, views[name := c.view]);
        forall i | 0 <= i < |rest|
          ensures Composes(c.trees, rest[i]) <==> Composes(trees, rest[i])
        {
          ComposeViewLeavesOthers(trees, layout, name, rest[i]);
        }
      }
    }
  }

  /** On success every view's tree is rewritten once and each view's set
      is its ViewSet, so neither depends on the order of the loop. */
  lemma {:induction false} BuildViewsState(trees: Trees, layout: Set, order: seq<string>, views: map<string, Set>)
    requires Distinct(order) && SelfShared(layout)
    requires BuildViews(trees, layout, order, views).err.None?
    ensures var b := BuildViews(trees, layout, order, views);
      && b.trees == Rewritten(trees, Engine.Elements(order))
      && b.views == views + ViewSets(layout, trees, Engine.Elements(order))
    decreases |order|
  {
    if order == [] {
      assert Engine.Elements(order) == {};
      assert Rewritten(trees, {}) == trees;
    } else {
      var name := order[0];
      var rest := order[1..];
      Engine.ElementsCons(order);
      assert forall i :: 1 <= i < |order| ==> order[i] == rest[i - 1];
      assert name !in Engine.Elements(rest);
      ComposeViewResult(trees, layout, name);
      var c := ComposeView(trees, layout, name);
      BuildViewsState(c.trees, layout, rest, views[name := c.view]);
      RewrittenCons(trees, name, Engine.Elements(rest));
      ViewSetsCons(layout, trees, name, Engine.Elements(rest), views);
    }
  }

  /** With the views rendered after construction, each one reads its own
      rewritten tree as "body" and every other namespace template as the
      loop left it: a partial that is also a view is rendered rewritten,
      whether it was composed before or after the view that grafts it. */
  lemma RenderReadsFinalTrees(trees: Trees, parsed: Engine.Parse, order: seq<string>, v: string)
    requires Distinct(order) && v in order
    requires Construct(trees, parsed, order).err.None?
    ensures var b := Construct(trees, parsed, order);
      var r := Render(b.trees, b.views, v);
      && r.Success? && v in trees && BodySection in r.value
      && r.value[BodySection] == SwapList(ViewFlags, trees[v]).nodes
      && (forall k :: k in trees && k != v && k != BodySection ==>
            k in r.value && r.value[k] == if k in order then SwapList(ViewFlags, trees[k]).nodes else trees[k])
      && (var layout := ComposeLayout(trees, parsed).tmpl;
          v in layout && layout[v] == Shared(v) && v !in Targets(trees[v]) && v != BodySection ==>
            v in r.value && r.value[v] == trees[v])
  {
    var l := ComposeLayout(trees, parsed);
    BuildViewsSucceeds(trees, l.tmpl, order, map[]);
    ComposeLayoutSelfShared(trees, parsed);
    BuildViewsState(trees, l.tmpl, order, map[]);
    var i :| 0 <= i < |order| && order[i] == v;
    assert Composes(trees, v);
    assert v in Engine.Elements(order);
    ResolveViewSet(l.tmpl, trees, Engine.Elements(order), v);
    assert forall k :: k in order <==> k in Engine.Elements(order) by {
      forall k | k in order ensures k in Engine.Elements(order) {
        var j :| 0 <= j < |order| && order[j] == k;
      }
    }
  }

  /** A view's set read against the namespace once the views named are
      rewritten: its own tree as "body", every other template as it then
      stands, and under its own name the layout's copy of the tree as walk
      parsed it. */
  lemma ResolveViewSet(layout: Set, trees: Trees, names: set<string>, v: string)
    requires v in trees && v in names
    ensures var r := Resolve(Rewritten(trees, names), ViewSet(layout, trees, v));
      && BodySection in r && r[BodySection] == SwapList(ViewFlags, trees[v]).nodes
      && (forall k :: k in trees && k != v && k != BodySection ==>
            k in r && r[k] == if k in names then SwapList(ViewFlags, trees[k]).nodes else trees[k])
      && (v in layout && layout[v] == Shared(v) && v !in Targets(trees[v]) && v != BodySection ==>
            v in r && r[v] == trees[v])
  {
    ViewSetShares(layout, trees, v);
    if v in layout && v !in Targets(trees[v]) {
      ViewSetOwnName(layout, trees, v);
    }
  }

  /** Whether newLayout succeeds, the views it builds and the namespace
      it leaves do not depend on the order walk visits the files in. */
  lemma ConstructOrderFree(trees: Trees, parsed: Engine.Parse, order1: seq<string>, order2: seq<string>)
    requires Distinct(order1) && Distinct(order2)
    requires Engine.Elements(order1) == Engine.Elements(order2)
    ensures var b1 := Construct(trees, parsed, order1);
      var b2 := Construct(trees, parsed, order2);
      && (b1.err.None? <==> b2.err.None?)
      && (b1.err.None? ==> b1.views == b2.views && b1.trees == b2.trees)
  {
    var l := ComposeLayout(trees, parsed);
    if l.err.None? {
      BuildViewsSucceeds(trees, l.tmpl, order1, map[]);
      BuildViewsSucceeds(trees, l.tmpl, order2, map[]);
      forall i | 0 <= i < |order1| ensures order1[i] in Engine.Elements(order2) {
        assert order1[i] in Engine.Elements(order1);
      }
      forall i | 0 <= i < |order2| ensures order2[i] in Engine.Elements(order1) {
        assert order2[i] in Engine.Elements(order2);
      }
      if BuildViews(trees, l.tmpl, order1, map[]).err.None? {
        ComposeLayoutSelfShared(trees, parsed);
        BuildViewsState(trees, l.tmpl, order1, map[]);
        BuildViewsState(trees, l.tmpl, order2, map[]);
      }
    }
  }

  // ---------------------------------------------------------------------
  // Composition, as the source performs it

  /** The root namespace. Its trees are shared with every set that
      grafts them, and composing a view rewrites the view's tree in it. */
  class Namespace {
    var trees: Trees

    constructor (trees: Trees)
      ensures this.trees == trees
    {
      this.trees := trees;
    }

    /** The reference loop of parseLayout and parseView. */
    method GraftAll(tmpl: Set, refs: seq<string>, fromLayout: bool) returns (out: Set, err: Option<Error>)
      ensures Grafted(out, err) == GraftTargets(trees, tmpl, refs, fromLayout)
    {
      out := tmpl;
      for i := 0 to |refs|
        invariant GraftTargets(trees, out, refs[i..], fromLayout) == GraftTargets(trees, tmpl, refs, fromLayout)
      {
        assert refs[i..][1..] == refs[i + 1..];
        if Skip(refs[i], fromLayout) {
          continue;
        }
        if refs[i] !in trees {
          return map[], Some(Wrapped(ParsingTemplate(refs[i]), NotFound));
        }
        out := out[refs[i] := Shared(refs[i])];
      }
      assert refs[|refs|..] == [];
      return out, None;
    }

    /** parseLayout. */
    method ParseLayout(parsed: Engine.Parse) returns (layout: Set, err: Option<Error>)
      ensures LayoutResult(layout, err) == ComposeLayout(trees, parsed)
    {
      if parsed.ParseError? {
        return map[], Some(ParseFailed(LayoutName));
      }
      var root, refs := ProcessList(LayoutFlags, parsed.root);
      var own := (map k | k in parsed.defines :: Own(parsed.defines[k]))[LayoutName := Own(root)];
      layout, err := GraftAll(own, refs, true);
    }

    /** The defined-templates loop of parseView. */
    method AddTemplates(view: Set, name: string) returns (out: Set)
      ensures out == AddAll(view, trees.Keys, name)
    {
      out := view;
      var todo := trees.Keys - {name};
      while todo != {}
        invariant todo <= trees.Keys - {name}
        invariant out == view + map k | k in trees.Keys - {name} - todo :: Shared(k)
        decreases todo
      {
        var k :| k in todo;
        out := out[k := Shared(k)];
        todo := todo - {k};
      }
      out := out[BodySection := Shared(name)];
    }

    /** parseView. */
    method ParseView(layout: Set, name: string) returns (view: Set, err: Option<Error>)
      modifies this
      ensures ViewResult(trees, view, err) == ComposeView(old(trees), layout, name)
    {
      view := Clone(trees, layout);
      if name !in trees {
        return map[], Some(NotFound);
      }
      var root, refs := ProcessList(ViewFlags, trees[name]);
      trees := trees[name := root];
      view, err := GraftAll(view, refs, false);
      if err.Some? {
        return map[], err;
      }
      view := AddTemplates(view, name);
      if HeadSection !in view {
        view := view[HeadSection := Own([])];
      }
    }

    /** The layout and view steps of newLayout, over the files in walk
        order. */
    method NewLayout(parsed: Engine.Parse, order: seq<string>) returns (views: map<string, Set>, err: Option<Error>)
      modifies this
      ensures Built(trees, views, err) == Construct(old(trees), parsed, order)
    {
      var layout;
      layout, err := ParseLayout(parsed);
      if err.Some? {
        return map[], Some(Wrapped(ParsingLayout, err.value));
      }
      views := map[];
      for i := 0 to |order|
        invariant BuildViews(trees, layout, order[i..], views) == Construct(old(trees), parsed, order)
      {
        assert order[i..][1..] == order[i + 1..];
        var view, e := ParseView(layout, order[i]);
        if e.Some? {
          return map[], e;
        }
        views := views[order[i] := view];
      }
      assert order[|order|..] == [];
      return views, None;
    }
  }
}
