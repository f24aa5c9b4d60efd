/** The composer on small registries: the error cases the repository's
    tests exercise, and the order dependence of newEngine's view loop. */
module EngineExamples {
  import opened ParseTree
  import opened Process
  import opened Engine

  /** {{partial "target"}} at the byte offset of its first token on line 1
      (2 when the action opens the body), as the template parser places it. */
  function PartialAction(pos: nat, target: string): Node
  {
    Action(pos, 1, [Command([Ident("partial"), Str(target)])])
  }

  /** A registry entry as walk leaves it: parsed, no role yet. */
  function Entry(name: string, root: seq<Node>, body: string): TemplateFile
  {
    TemplateFile(name, root, map[], UnsetType, body)
  }

  /** A tree whose only node is a partial action with a target, rewritten
      under a role that allows partial. */
  lemma PartialRewrite(t: TemplateFile, target: string)
    requires t.root == [PartialAction(2, target)] && t.name != target && target != "" && t.typ != PartialType
    ensures Processed(t) == Processing([Call(target, 2, 1, [Command([Dot])])], [NestedFile(target, PartialFunc)], None)
  {
    var a := PartialAction(2, target);
    assert ActionsIn(t.root) == [a];
    ListSummary(t, t.root);
    RewriteInPlace(t, t.root);
    MarkerReplaced(t, a);
    assert [a][..0] == [];
  }

  /** A tree whose only node is a faulty action fails with that fault,
      placed at its line and column. */
  lemma SingleFault(t: TemplateFile, a: Node)
    requires t.root == [a] && a.Action? && Fault(t, a).Some?
    ensures var f := Fault(t, a).value;
      Processed(t).err == Some(PositionError(t.name, LineCol(t.body, f.pos).0, LineCol(t.body, f.pos).1, t.typ, f))
  {
    assert ActionsIn(t.root) == [a];
    assert [a][..0] == [];
    assert FaultsOf(t, [a]) == [Fault(t, a).value];
    ListSummary(t, t.root);
  }

  /** A view whose own rewrite fails fails with that error. */
  lemma ViewOwnFault(files: Files, layout: TemplateSet, name: string)
    requires name in files && files[name].name == name
    requires Processed(files[name].(typ := ViewType)).err.Some?
    ensures ComposeView(files, layout, name).err ==
      Some(Wrapped(ParsingView(name), Positioned(Processed(files[name].(typ := ViewType)).err.value)))
  {
  }

  /** A view whose only reference is missing from the registry fails
      with ErrNotFound. */
  lemma ViewMissingRef(files: Files, layout: TemplateSet, name: string, target: string)
    requires name in files && files[name].name == name && target !in files
    requires Processed(files[name].(typ := ViewType)).err.None?
    requires Processed(files[name].(typ := ViewType)).ts == [NestedFile(target, PartialFunc)]
    ensures ComposeView(files, layout, name).err == Some(Wrapped(ParsingTemplate(target), NotFound))
  {
  }

  /** A layout whose only reference is a partial the registry lacks
      fails with ErrNotFound (the layout file itself is not registered). */
  lemma LayoutPartialNotFound()
    ensures var b := Construct(map[], Parsed([PartialAction(2, "invalid.html")], map[]), "{{partial \"invalid.html\"}}", []);
      b.err.Some? && IsNotFound(b.err.value)
  {
    var t := TemplateFile(LayoutName, [PartialAction(2, "invalid.html")], map[], LayoutType, "{{partial \"invalid.html\"}}");
    PartialRewrite(t, "invalid.html");
  }

  /** A view whose partial is not registered fails with ErrNotFound,
      whatever the layout. */
  lemma ViewPartialNotFound(layout: TemplateSet)
    ensures var files := map["view.html" := Entry("view.html", [PartialAction(2, "invalid.html")], "{{partial \"invalid.html\"}}")];
      var c := ComposeView(files, layout, "view.html");
      c.err.Some? && IsNotFound(c.err.value)
  {
    var files := map["view.html" := Entry("view.html", [PartialAction(2, "invalid.html")], "{{partial \"invalid.html\"}}")];
    PartialRewrite(files["view.html"].(typ := ViewType), "invalid.html");
    ViewMissingRef(files, layout, "view.html", "invalid.html");
  }

  /** A view may not use render, and a partial action needs a target:
      both views fail, at line 1, column 3, where the parser places
      the action's first token. */
  lemma ViewFaults(layout: TemplateSet)
    ensures var render := Action(2, 1, [Command([Ident("render")])]);
      var files := map["view.html" := Entry("view.html", [render], "{{render}}")];
      ComposeView(files, layout, "view.html").err ==
        Some(Wrapped(ParsingView("view.html"),
          Positioned(PositionError("view.html", 1, 3, ViewType, PosErr(2, "render not supported")))))
    ensures var partial := Action(2, 1, [Command([Ident("partial")])]);
      var files := map["parse.html" := Entry("parse.html", [partial], "{{partial}}")];
      ComposeView(files, layout, "parse.html").err ==
        Some(Wrapped(ParsingView("parse.html"),
          Positioned(PositionError("parse.html", 1, 3, ViewType, PosErr(2, "path to partial file is not specified")))))
  {
    ViewRender(layout, Action(2, 1, [Command([Ident("render")])]));
    ViewPartialWithoutTarget(layout, Action(2, 1, [Command([Ident("partial")])]));
  }

  lemma ViewRender(layout: TemplateSet, render: Node)
    requires render == Action(2, 1, [Command([Ident("render")])])
    ensures var files := map["view.html" := Entry("view.html", [render], "{{render}}")];
      ComposeView(files, layout, "view.html").err ==
        Some(Wrapped(ParsingView("view.html"),
          Positioned(PositionError("view.html", 1, 3, ViewType, PosErr(2, "render not supported")))))
  {
    var files := map["view.html" := Entry("view.html", [render], "{{render}}")];
    var t := files["view.html"].(typ := ViewType);
    assert GetActionArgs(render.cmds[0]).fn == "render";
    assert "render" + " not supported" == "render not supported";
    assert Fault(t, render) == Some(PosErr(2, "render not supported"));
    SingleFault(t, render);
    PosStart("{{render}}", 0);
    PosStep("{{render}}", 0);
    PosStep("{{render}}", 1);
    ViewOwnFault(files, layout, "view.html");
  }

  lemma ViewPartialWithoutTarget(layout: TemplateSet, partial: Node)
    requires partial == Action(2, 1, [Command([Ident("partial")])])
    ensures var files := map["parse.html" := Entry("parse.html", [partial], "{{partial}}")];
      ComposeView(files, layout, "parse.html").err ==
        Some(Wrapped(ParsingView("parse.html"),
          Positioned(PositionError("parse.html", 1, 3, ViewType, PosErr(2, "path to partial file is not specified")))))
  {
    var files := map["parse.html" := Entry("parse.html", [partial], "{{partial}}")];
    var u := files["parse.html"].(typ := ViewType);
    assert Fault(u, partial) == Some(PosErr(2, "path to partial file is not specified"));
    SingleFault(u, partial);
    PosStart("{{partial}}", 0);
    PosStep("{{partial}}", 0);
    PosStep("{{partial}}", 1);
    ViewOwnFault(files, layout, "parse.html");
  }

  /** A view and a partial that include each other are rejected, in
      every order newEngine may visit them. */
  lemma PartialInvalidPartial(parsed: Parse, raw: string, order: seq<string>)
    requires forall i :: 0 <= i < |order| ==> order[i] == "view.html" || order[i] == "partial.html"
    requires "view.html" in order && "partial.html" in order
    ensures var files := map[
        "view.html" := Entry("view.html", [PartialAction(2, "partial.html")], "{{partial \"partial.html\"}}"),
        "partial.html" := Entry("partial.html", [PartialAction(2, "view.html")], "{{partial \"view.html\"}}")];
      Construct(files, parsed, raw, order).err.Some?
  {
    var files := map[
      "view.html" := Entry("view.html", [PartialAction(2, "partial.html")], "{{partial \"partial.html\"}}"),
      "partial.html" := Entry("partial.html", [PartialAction(2, "view.html")], "{{partial \"view.html\"}}")];
    PairKeyed(files);
    assert forall i :: 0 <= i < |order| ==> order[i] in files;
    assert forall k :: k in files ==> k in order;
    PartialOnlyRef(files["view.html"].root, "partial.html");
    PartialOnlyRef(files["partial.html"].root, "view.html");
    MutualPartialsRejected(files, parsed, raw, order, "view.html", "partial.html");
  }

  lemma PairKeyed(files: Files)
    requires files == map[
        "view.html" := Entry("view.html", [PartialAction(2, "partial.html")], "{{partial \"partial.html\"}}"),
        "partial.html" := Entry("partial.html", [PartialAction(2, "view.html")], "{{partial \"view.html\"}}")]
    ensures Keyed(files) && files.Keys == {"view.html", "partial.html"}
    ensures files["view.html"].root == [PartialAction(2, "partial.html")]
    ensures files["partial.html"].root == [PartialAction(2, "view.html")]
  {
  }

  /** a.html includes b.html, which includes c.html, plain text. */
  function Chain(): Files
  {
    map[
      "a.html" := Entry("a.html", [PartialAction(2, "b.html")], "{{partial \"b.html\"}}"),
      "b.html" := Entry("b.html", [PartialAction(2, "c.html")], "{{partial \"c.html\"}}"),
      "c.html" := Entry("c.html", [Text("c")], "c")]
  }

  /** A layout with no reference. */
  function PlainLayout(): Parse
  {
    Parsed([Text("x")], map[])
  }

  lemma PlainLayoutComposes(files: Files)
    ensures ComposeLayout(files, PlainLayout(), "x") == Composed(files, map[LayoutName := [Text("x")]], None)
  {
    var t := TemplateFile(LayoutName, [Text("x")], map[], LayoutType, "x");
    assert ActionsIn(t.root) == [];
    ListSummary(t, t.root);
    RewriteInPlace(t, t.root);
    assert RewriteList(t, t.root).nodes == [Text("x")];
  }

  /** A tree without actions is left as it is, under any role. */
  lemma PlainRewrite(t: TemplateFile)
    requires forall i :: 0 <= i < |t.root| ==> t.root[i].Text? || t.root[i].Call?
    ensures Processed(t) == Processing(t.root, [], None)
  {
    ListSummary(t, t.root);
    RewriteInPlace(t, t.root);
    assert ActionsIn(t.root) == [] by {
      ActionsInLeaves(t.root);
    }
    assert RewriteList(t, t.root).nodes == t.root;
  }

  lemma {:induction false} ActionsInLeaves(ns: seq<Node>)
    requires forall i :: 0 <= i < |ns| ==> ns[i].Text? || ns[i].Call?
    ensures ActionsIn(ns) == []
  {
    if ns != [] {
      ActionsInLeaves(ns[..|ns| - 1]);
    }
  }

  /** The layout composed for the chain. */
  function ChainLayout(): TemplateSet
  {
    map[LayoutName := [Text("x")]]
  }

  /** The registry once b.html is composed as a view: b.html rewritten
      as a view, c.html as a partial. */
  function ChainAfterB(): Files
  {
    var files := Chain();
    files["b.html" := AsView(files["b.html"])]["c.html" := AsPartial(files["c.html"])]
  }

  /** The registry once a.html is composed next: a.html rewritten as a
      view, b.html, now free of markers, as a partial. */
  function ChainAfterA(): Files
  {
    var files := ChainAfterB();
    files["a.html" := AsView(files["a.html"])]["b.html" := AsPartial(files["b.html"])]
  }

  /** A view whose only reference is one partial that rewrites without
      error: both entries are rewritten in the registry. */
  lemma OneRefView(files: Files, layout: TemplateSet, name: string, target: string, root: seq<Node>)
    requires name in files && files[name].name == name && target in files && target != name
    requires Processed(files[name].(typ := ViewType)) == Processing(root, [NestedFile(target, PartialFunc)], None)
    requires Processed(files[target].(typ := PartialType)).err.None?
    ensures ComposeView(files, layout, name).err.None?
    ensures ComposeView(files, layout, name).files == files[name := AsView(files[name])][target := AsPartial(files[target])]
  {
    var files1 := files[name := AsView(files[name])];
    assert files1[target] == files[target];
    GraftRefsSingle(files1, layout, NestedFile(target, PartialFunc), false);
  }

  lemma ChainComposeB()
    ensures ComposeView(Chain(), ChainLayout(), "b.html").err.None?
    ensures ComposeView(Chain(), ChainLayout(), "b.html").files == ChainAfterB()
  {
    var files := Chain();
    PartialRewrite(files["b.html"].(typ := ViewType), "c.html");
    PlainRewrite(files["c.html"].(typ := PartialType));
    OneRefView(files, ChainLayout(), "b.html", "c.html", [Call("c.html", 2, 1, [Command([Dot])])]);
  }

  lemma ChainComposeA()
    ensures ComposeView(ChainAfterB(), ChainLayout(), "a.html").err.None?
    ensures ComposeView(ChainAfterB(), ChainLayout(), "a.html").files == ChainAfterA()
  {
    var files := ChainAfterB();
    PartialRewrite(Chain()["b.html"].(typ := ViewType), "c.html");
    assert files["a.html"] == Chain()["a.html"];
    PartialRewrite(files["a.html"].(typ := ViewType), "b.html");
    assert files["b.html"].root == [Call("c.html", 2, 1, [Command([Dot])])];
    PlainRewrite(files["b.html"].(typ := PartialType));
    OneRefView(files, ChainLayout(), "a.html", "b.html", [Call("b.html", 2, 1, [Command([Dot])])]);
  }

  /** A composed view with no definitions and one partial reference:
      its set is the layout, the rewritten partial and "body". */
  lemma OneRefViewSet(files: Files, layout: TemplateSet, name: string, target: string)
    requires name in files && files[name].name == name && files[name].defines == map[]
    requires ComposeView(files, layout, name).err.None?
    requires Processed(files[name].(typ := ViewType)).ts == [NestedFile(target, PartialFunc)]
    requires target != BodyName
    ensures var c := ComposeView(files, layout, name);
      && c.tmpl.Keys == layout.Keys + {target, BodyName}
      && c.tmpl[target] == AsPartial(files[target]).root
  {
    ComposeViewContents(files, layout, name);
    var refs := [NestedFile(target, PartialFunc)];
    assert Names(refs) == {target} by {
      assert refs[0].name == target;
    }
  }

  /** When b.html was composed first, a.html's set holds the layout,
      b.html and "body", and no c.html; yet the b.html it grafts calls
      c.html: the view is accepted with a set that names a template it
      lacks. */
  lemma ChainSetLacksC(files: Files)
    requires files == ChainAfterB()
    ensures var c := ComposeView(files, ChainLayout(), "a.html");
      && c.err.None? && c.tmpl.Keys == {LayoutName, "b.html", BodyName} && "c.html" !in c.tmpl
      && c.tmpl["b.html"] == [Call("c.html", 2, 1, [Command([Dot])])]
  {
    ChainViewAComposes(files);
    ChainAfterBEntries(files);
    OneRefViewSet(files, ChainLayout(), "a.html", "b.html");
    assert ChainLayout().Keys == {LayoutName};
  }

  lemma ChainViewAComposes(files: Files)
    requires files == ChainAfterB()
    ensures ComposeView(files, ChainLayout(), "a.html").err.None?
  {
    ChainComposeA();
  }

  /** a.html and b.html in the registry b.html's composition left. */
  lemma ChainAfterBEntries(files: Files)
    requires files == ChainAfterB()
    ensures "a.html" in files && files["a.html"].name == "a.html" && files["a.html"].defines == map[]
      && Processed(files["a.html"].(typ := ViewType)).ts == [NestedFile("b.html", PartialFunc)]
      && "b.html" in files && AsPartial(files["b.html"]).root == [Call("c.html", 2, 1, [Command([Dot])])]
  {
    PartialRewrite(Chain()["b.html"].(typ := ViewType), "c.html");
    assert files["a.html"] == Chain()["a.html"];
    PartialRewrite(files["a.html"].(typ := ViewType), "b.html");
    assert files["b.html"].root == [Call("c.html", 2, 1, [Command([Dot])])];
    PlainRewrite(files["b.html"].(typ := PartialType));
  }

  lemma ChainComposeC()
    ensures ComposeView(ChainAfterA(), ChainLayout(), "c.html").err.None?
  {
    var files := ChainAfterA();
    PlainRewrite(Chain()["c.html"].(typ := PartialType));
    assert files["c.html"].root == [Text("c")];
    PlainRewrite(files["c.html"].(typ := ViewType));
  }

  /** As written, newEngine accepts the chain when it composes b.html
      before a.html: by then b.html's tree holds a template call, not a
      partial action. */
  lemma ChainAcceptedBFirst()
    ensures Construct(Chain(), PlainLayout(), "x", ["b.html", "a.html", "c.html"]).err.None?
  {
    PlainLayoutComposes(Chain());
    ChainViewsBFirst();
  }

  lemma ChainViewsBFirst()
    ensures BuildViews(Chain(), ChainLayout(), ["b.html", "a.html", "c.html"], map[]).err.None?
  {
    ChainKeyed(Chain());
    ChainComposeB();
    ChainComposeA();
    ChainComposeC();
    ThreeViews(Chain(), ChainLayout(), "b.html", "a.html", "c.html");
  }

  lemma ChainKeyed(files: Files)
    requires files == Chain()
    ensures Keyed(files) && "a.html" in files && "b.html" in files && "c.html" in files
    ensures files["a.html"].root == [PartialAction(2, "b.html")]
    ensures files["b.html"].root == [PartialAction(2, "c.html")]
  {
  }

  /** A tree whose only node is {{partial "target"}} references target
      and holds a marker. */
  lemma PartialOnlyRef(ns: seq<Node>, target: string)
    requires ns == [PartialAction(2, target)]
    ensures PartialRef(ns, target) && HasMarker(ns)
  {
    assert ActionsIn(ns) == [PartialAction(2, target)];
    assert IsMarker(ActionsIn(ns)[0]);
  }

  /** Three turns of the view loop, when each view composes. */
  lemma ThreeViews(files: Files, layout: TemplateSet, x: string, y: string, z: string)
    requires Keyed(files) && x in files && y in files && z in files
    requires var c1 := ComposeView(files, layout, x);
      && c1.err.None?
      && ComposeView(c1.files, layout, y).err.None?
      && ComposeView(ComposeView(c1.files, layout, y).files, layout, z).err.None?
    ensures BuildViews(files, layout, [x, y, z], map[]).err.None?
  {
    var c1 := ComposeView(files, layout, x);
    BuildViewsStep(files, layout, [x, y, z], map[]);
    assert [x, y, z][1..] == [y, z];
    TwoViews(c1.files, layout, y, z, map[x := c1.tmpl]);
  }

  /** Two turns of the view loop, when each view composes. */
  lemma TwoViews(files: Files, layout: TemplateSet, y: string, z: string, views: map<string, TemplateSet>)
    requires Keyed(files) && y in files && z in files
    requires var c2 := ComposeView(files, layout, y);
      c2.err.None? && ComposeView(c2.files, layout, z).err.None?
    ensures BuildViews(files, layout, [y, z], views).err.None?
  {
    var c2 := ComposeView(files, layout, y);
    BuildViewsStep(files, layout, [y, z], views);
    assert [y, z][1..] == [z];
    BuildViewsStep(c2.files, layout, [z], views[y := c2.tmpl]);
  }

  /** Visiting a.html first, the same registry is rejected: b.html is
      rewritten as a partial while it still holds {{partial "c.html"}}. */
  lemma ChainRejectedAFirst()
    ensures Construct(Chain(), PlainLayout(), "x", ["a.html", "b.html", "c.html"]).err.Some?
  {
    var files := Chain();
    ChainKeyed(files);
    PlainLayoutComposes(files);
    PartialOnlyRef(files["a.html"].root, "b.html");
    PartialOnlyRef(files["b.html"].root, "c.html");
    ComposeViewRejectsRef(files, ChainLayout(), "a.html", "b.html");
  }

  /** Composing every view against the registry, the chain is rejected in
      every order: a.html always meets b.html's partial action. */
  lemma ChainRejectedFromRegistry(order: seq<string>)
    requires forall i :: 0 <= i < |order| ==> order[i] in Chain()
    requires "a.html" in order
    ensures ConstructFromRegistry(Chain(), PlainLayout(), "x", order).err.Some?
  {
    var files := Chain();
    ChainKeyed(files);
    PlainLayoutComposes(files);
    PartialOnlyRef(files["a.html"].root, "b.html");
    PartialOnlyRef(files["b.html"].root, "c.html");
    ComposeViewRejectsRef(files, ChainLayout(), "a.html", "b.html");
    BuildViewsFromRegistrySucceeds(files, ChainLayout(), order, map[]);
  }
}
