/** The template-tree rewriter of process.go: it walks a parsed template,
    checks every render/partial action against the template's role and
    replaces it, in its parent list, with a named-template call. */
module Process {
  import opened ParseTree

  /** nestingFunc: the two marker functions. */
  datatype NestingFunc = RenderFunc | PartialFunc {
    function String(): string
    {
      if RenderFunc? then "render" else "partial"
    }
  }

  /** templateType; UnsetType is the zero value a file has before it is
      first stamped with a role. */
  datatype TemplateType = UnsetType | LayoutType | ViewType | PartialType {
    function String(): string
    {
      match this
      case UnsetType => ""
      case LayoutType => "layout"
      case ViewType => "view"
      case PartialType => "partial"
    }
  }

  /** A reference found while rewriting: the target and the marker used. */
  datatype NestedFile = NestedFile(name: string, typ: NestingFunc)

  /** posErr: a rewrite error at a byte offset of the template source. */
  datatype PosErr = PosErr(pos: int, message: string)

  /** templateFile: a parsed template (its name, the root list of its own
      tree and the other templates its source defines), its role and its
      source text. */
  datatype TemplateFile = TemplateFile(
    name: string,
    root: seq<Node>,
    defines: map<string, seq<Node>>,
    typ: TemplateType,
    body: string)

  /** The error processTree returns: "name:line:col: role: message". */
  datatype PositionError = PositionError(file: string, line: nat, col: nat, typ: TemplateType, cause: PosErr) {
    function Text(): string
    {
      file + ":" + Decimal(line) + ":" + Decimal(col) + ": " + typ.String() + ": " + cause.message
    }
  }

  /** The decimal digits of a number, as %d prints it. */
  function Decimal(n: nat): string
  {
    if n < 10 then [DigitChar(n)] else Decimal(n / 10) + [DigitChar(n % 10)]
  }

  function DigitChar(d: nat): char
    requires d < 10
  {
    "0123456789"[d]
  }

  datatype ActionArgs = ActionArgs(fn: string, file: string, field: Option<seq<string>>)

  // ---------------------------------------------------------------------
  // Reading an action

  /** getActionArgs: the callee identifier, the string target and the
      field argument of a command; "" and None when absent or of another kind. */
  function GetActionArgs(cmd: Command): (r: ActionArgs)
    ensures r.fn != "" ==> |cmd.args| > 0 && cmd.args[0] == Ident(r.fn)
    ensures r.file != "" ==> |cmd.args| > 1 && cmd.args[1] == Str(r.file)
    ensures |cmd.args| > 0 && cmd.args[0].Ident? ==> r.fn == cmd.args[0].ident
    ensures |cmd.args| > 1 && cmd.args[1].Str? ==> r.file == cmd.args[1].text
    ensures r.field.Some? <==> |cmd.args| > 2 && cmd.args[2].Field?
    ensures r.field.Some? ==> cmd.args[2] == Field(r.field.value)
  {
    ActionArgs(
      if |cmd.args| > 0 && cmd.args[0].Ident? then cmd.args[0].ident else "",
      if |cmd.args| > 1 && cmd.args[1].Str? then cmd.args[1].text else "",
      if |cmd.args| > 2 && cmd.args[2].Field? then Some(cmd.args[2].path) else None)
  }

  /** invalidFuncType: whether a role forbids a function. */
  predicate InvalidFuncType(typ: TemplateType, fn: string)
  {
    match typ
    case ViewType => fn == RenderFunc.String()
    case PartialType => fn == RenderFunc.String() || fn == PartialFunc.String()
    case _ => false
  }

  /** A marker action: an action whose first command calls render or partial. */
  predicate IsMarker(a: Node)
  {
    a.Action? && |a.cmds| > 0 && (Callee(a) == "render" || Callee(a) == "partial")
  }

  lemma CalleeIsActionFn(a: Node)
    requires a.Action? && |a.cmds| > 0
    ensures GetActionArgs(a.cmds[0]).fn == Callee(a)
  {
  }

  /** The error processActionNode reports for a node, checked in the order
      of the source: self-reference, then the role, then a partial
      without a target. Nodes other than actions with a command never fail. */
  function Fault(file: TemplateFile, a: Node): Option<PosErr>
  {
    if !a.Action? || |a.cmds| == 0 then None
    else
      var args := GetActionArgs(a.cmds[0]);
      if args.file == file.name then Some(PosErr(a.pos, "cyclic reference"))
      else if InvalidFuncType(file.typ, args.fn) then Some(PosErr(a.pos, args.fn + " not supported"))
      else if args.fn == PartialFunc.String() && args.file == "" then
        Some(PosErr(a.pos, "path to partial file is not specified"))
      else None
  }

  /** The reference processNode records for an action that did not fail. */
  function RefOf(a: Node): seq<NestedFile>
  {
    if !a.Action? || |a.cmds| == 0 then []
    else
      var args := GetActionArgs(a.cmds[0]);
      if args.fn == PartialFunc.String() && args.file != "" then [NestedFile(args.file, PartialFunc)]
      else if args.fn == RenderFunc.String() && args.file != "" then [NestedFile(args.file, RenderFunc)]
      else []
  }

  /** The node that takes an action's place: a template call for a marker,
      the action itself otherwise. */
  function Replacement(a: Node): Node
  {
    if !a.Action? || |a.cmds| == 0 then a
    else
      var args := GetActionArgs(a.cmds[0]);
      if args.fn == PartialFunc.String() then
        var arg := if args.field.Some? then Field(args.field.value) else Dot;
        Call(args.file, a.pos, a.line, [Command([arg])])
      else if args.fn == RenderFunc.String() then
        Call(if args.file == "" then "body" else args.file, a.pos, a.line, [Command([Dot])])
      else a
  }

  // ---------------------------------------------------------------------
  // The rewrite, as functions

  /** What a walk has found so far: references and the current error. */
  datatype Found = Found(ts: seq<NestedFile>, err: Option<PosErr>) {
    /** appendResult: a child's error replaces the current one, and the
        child's references are kept only while there is no error. */
    function Absorb(child: Found): Found
    {
      var e := if child.err.Some? then child.err else err;
      Found(if e.None? then ts + child.ts else ts, e)
    }
  }

  const NothingFound := Found([], None)

  datatype Step = Step(node: Node, found: Found)
  datatype Walk = Walk(nodes: seq<Node>, found: Found)
  datatype BranchWalk = BranchWalk(branch: ElseBranch, found: Found)

  function RewriteAction(file: TemplateFile, a: Node): Step
    requires a.Action?
  {
    var f := Fault(file, a);
    if f.Some? then Step(a, Found([], f)) else Step(Replacement(a), Found(RefOf(a), None))
  }

  /** processNode on one node: an action is checked and replaced; the
      bodies of if, range and with are walked body first, then else. */
  function RewriteNode(file: TemplateFile, n: Node): Step
    decreases n
  {
    match n
    case Action(_, _, _) => RewriteAction(file, n)
    case If(list, e) =>
      var w := RewriteList(file, list);
      var b := RewriteBranch(file, e);
      Step(If(w.nodes, b.branch), NothingFound.Absorb(w.found).Absorb(b.found))
    case Range(list, e) =>
      var w := RewriteList(file, list);
      var b := RewriteBranch(file, e);
      Step(Range(w.nodes, b.branch), NothingFound.Absorb(w.found).Absorb(b.found))
    case With(list, e) =>
      var w := RewriteList(file, list);
      var b := RewriteBranch(file, e);
      Step(With(w.nodes, b.branch), NothingFound.Absorb(w.found).Absorb(b.found))
    case Text(_) => Step(n, NothingFound)
    case Call(_, _, _, _) => Step(n, NothingFound)
  }

  /** processNode on an else list; a nil list finds nothing. */
  function RewriteBranch(file: TemplateFile, e: ElseBranch): BranchWalk
    decreases e
  {
    match e
    case NoElse => BranchWalk(NoElse, NothingFound)
    case Else(ns) =>
      var w := RewriteList(file, ns);
      BranchWalk(Else(w.nodes), w.found)
  }

  /** processNode on a list node: every child in order, each result
      absorbed into the list's own. */
  function RewriteList(file: TemplateFile, ns: seq<Node>): Walk
    decreases ns
  {
    if ns == [] then Walk([], NothingFound)
    else
      var w := RewriteList(file, ns[..|ns| - 1]);
      var s := RewriteNode(file, ns[|ns| - 1]);
      Walk(w.nodes + [s.node], w.found.Absorb(s.found))
  }

  // ---------------------------------------------------------------------
  // Reference definitions: the reachable actions in depth-first order

  /** The actions reachable from a node through list, if/else, range/else
      and with/else bodies, in source order. */
  function ActionsOf(n: Node): (r: seq<Node>)
    decreases n
    ensures forall i :: 0 <= i < |r| ==> r[i].Action?
  {
    match n
    case Action(_, _, _) => [n]
    case If(list, e) => ActionsIn(list) + BranchActions(e)
    case Range(list, e) => ActionsIn(list) + BranchActions(e)
    case With(list, e) => ActionsIn(list) + BranchActions(e)
    case Text(_) => []
    case Call(_, _, _, _) => []
  }

  function BranchActions(e: ElseBranch): (r: seq<Node>)
    decreases e
    ensures forall i :: 0 <= i < |r| ==> r[i].Action?
  {
    match e
    case NoElse => []
    case Else(ns) => ActionsIn(ns)
  }

  function ActionsIn(ns: seq<Node>): (r: seq<Node>)
    decreases ns
    ensures forall i :: 0 <= i < |r| ==> r[i].Action?
  {
    if ns == [] then [] else ActionsIn(ns[..|ns| - 1]) + ActionsOf(ns[|ns| - 1])
  }

  /** The faults of a sequence of actions, in order. */
  function FaultsOf(file: TemplateFile, acts: seq<Node>): seq<PosErr>
  {
    if acts == [] then []
    else
      var f := Fault(file, acts[|acts| - 1]);
      FaultsOf(file, acts[..|acts| - 1]) + (if f.Some? then [f.value] else [])
  }

  /** The references of a sequence of actions, in order. */
  function RefsOf(acts: seq<Node>): seq<NestedFile>
  {
    if acts == [] then [] else RefsOf(acts[..|acts| - 1]) + RefOf(acts[|acts| - 1])
  }

  /** The actions that are not markers, in order. */
  function Unmarked(acts: seq<Node>): (r: seq<Node>)
    ensures forall i :: 0 <= i < |r| ==> !IsMarker(r[i])
  {
    if acts == [] then []
    else Unmarked(acts[..|acts| - 1]) + (if IsMarker(acts[|acts| - 1]) then [] else [acts[|acts| - 1]])
  }

  function LastOf<T>(s: seq<T>): Option<T>
  {
    if s == [] then None else Some(s[|s| - 1])
  }

  // ---------------------------------------------------------------------
  // Properties of the rewrite

  lemma FaultsAppend(file: TemplateFile, a: seq<Node>, b: seq<Node>)
    ensures FaultsOf(file, a + b) == FaultsOf(file, a) + FaultsOf(file, b)
    decreases |b|
  {
    if b == [] {
      assert a + b == a;
    } else {
      assert (a + b)[..|a + b| - 1] == a + b[..|b| - 1];
      assert (a + b)[|a + b| - 1] == b[|b| - 1];
      FaultsAppend(file, a, b[..|b| - 1]);
    }
  }

  lemma RefsAppend(a: seq<Node>, b: seq<Node>)
    ensures RefsOf(a + b) == RefsOf(a) + RefsOf(b)
    decreases |b|
  {
    if b == [] {
      assert a + b == a;
    } else {
      assert (a + b)[..|a + b| - 1] == a + b[..|b| - 1];
      assert (a + b)[|a + b| - 1] == b[|b| - 1];
      RefsAppend(a, b[..|b| - 1]);
    }
  }

  lemma UnmarkedAppend(a: seq<Node>, b: seq<Node>)
    ensures Unmarked(a + b) == Unmarked(a) + Unmarked(b)
    decreases |b|
  {
    if b == [] {
      assert a + b == a;
    } else {
      assert (a + b)[..|a + b| - 1] == a + b[..|b| - 1];
      assert (a + b)[|a + b| - 1] == b[|b| - 1];
      UnmarkedAppend(a, b[..|b| - 1]);
    }
  }

  /** A Found summarises a run of actions when its error is the fault of
      the last faulty one and, when none failed, its references are theirs. */
  predicate Summarises(file: TemplateFile, f: Found, acts: seq<Node>)
  {
    && f.err == LastOf(FaultsOf(file, acts))
    && (f.err.None? ==> f.ts == RefsOf(acts))
  }

  lemma AbsorbSummarises(file: TemplateFile, f: Found, a: seq<Node>, c: Found, b: seq<Node>)
    requires Summarises(file, f, a) && Summarises(file, c, b)
    ensures Summarises(file, f.Absorb(c), a + b)
  {
    FaultsAppend(file, a, b);
    RefsAppend(a, b);
    var fa, fb := FaultsOf(file, a), FaultsOf(file, b);
    if fb == [] {
      assert fa + fb == fa;
    } else {
      assert (fa + fb)[|fa + fb| - 1] == fb[|fb| - 1];
    }
  }

  /** The error of rewriting a node is the fault of its last faulty
      reachable action; with no error, its references are those of its
      reachable actions in depth-first source order. */
  lemma {:induction false} NodeSummary(file: TemplateFile, n: Node)
    ensures Summarises(file, RewriteNode(file, n).found, ActionsOf(n))
    decreases n
  {
    match n
    case Action(_, _, _) =>
      assert [n][..0] == [];
    case If(list, e) =>
      ListSummary(file, list);
      BranchSummary(file, e);
      BlockSummary(file, list, e);
    case Range(list, e) =>
      ListSummary(file, list);
      BranchSummary(file, e);
      BlockSummary(file, list, e);
    case With(list, e) =>
      ListSummary(file, list);
      BranchSummary(file, e);
      BlockSummary(file, list, e);
    case Text(_) =>
    case Call(_, _, _, _) =>
  }

  /** A block's findings are those of its list followed by its else
      list. */
  lemma BlockSummary(file: TemplateFile, list: seq<Node>, e: ElseBranch)
    requires Summarises(file, RewriteList(file, list).found, ActionsIn(list))
    requires Summarises(file, RewriteBranch(file, e).found, BranchActions(e))
    ensures Summarises(file, NothingFound.Absorb(RewriteList(file, list).found).Absorb(RewriteBranch(file, e).found),
                       ActionsIn(list) + BranchActions(e))
  {
    AbsorbSummarises(file, NothingFound, [], RewriteList(file, list).found, ActionsIn(list));
    assert [] + ActionsIn(list) == ActionsIn(list);
    AbsorbSummarises(file, NothingFound.Absorb(RewriteList(file, list).found), ActionsIn(list),
      RewriteBranch(file, e).found, BranchActions(e));
  }

  lemma {:induction false} BranchSummary(file: TemplateFile, e: ElseBranch)
    ensures Summarises(file, RewriteBranch(file, e).found, BranchActions(e))
    decreases e
  {
    match e
    case NoElse =>
    case Else(ns) => ListSummary(file, ns);
  }

  lemma {:induction false} ListSummary(file: TemplateFile, ns: seq<Node>)
    ensures Summarises(file, RewriteList(file, ns).found, ActionsIn(ns))
    decreases ns
  {
    if ns != [] {
      ListSummary(file, ns[..|ns| - 1]);
      NodeSummary(file, ns[|ns| - 1]);
      AbsorbSummarises(file, RewriteList(file, ns[..|ns| - 1]).found, ActionsIn(ns[..|ns| - 1]),
        RewriteNode(file, ns[|ns| - 1]).found, ActionsOf(ns[|ns| - 1]));
    }
  }

  lemma FaultsEmptyIff(file: TemplateFile, acts: seq<Node>)
    ensures FaultsOf(file, acts) == [] <==> forall i :: 0 <= i < |acts| ==> Fault(file, acts[i]).None?
  {
    if acts != [] {
      FaultsEmptyIff(file, acts[..|acts| - 1]);
      assert forall i :: 0 <= i < |acts| - 1 ==> acts[..|acts| - 1][i] == acts[i];
    }
  }

  /** A rewrite fails exactly when some reachable action is faulty. */
  lemma RewriteFailsIff(file: TemplateFile, ns: seq<Node>)
    ensures RewriteList(file, ns).found.err.Some?
        <==> exists i :: 0 <= i < |ActionsIn(ns)| && Fault(file, ActionsIn(ns)[i]).Some?
  {
    ListSummary(file, ns);
    FaultsEmptyIff(file, ActionsIn(ns));
    assert RewriteList(file, ns).found.err.Some? <==> FaultsOf(file, ActionsIn(ns)) != [];
  }

  /** A view may not call render: one reachable render action fails it. */
  lemma ViewRejectsRender(file: TemplateFile, ns: seq<Node>, i: nat)
    requires file.typ == ViewType
    requires i < |ActionsIn(ns)| && IsMarker(ActionsIn(ns)[i]) && Callee(ActionsIn(ns)[i]) == "render"
    ensures RewriteList(file, ns).found.err.Some?
  {
    CalleeIsActionFn(ActionsIn(ns)[i]);
    RewriteFailsIff(file, ns);
  }

  /** A partial may call neither render nor partial. */
  lemma PartialRejectsMarkers(file: TemplateFile, ns: seq<Node>, i: nat)
    requires file.typ == PartialType
    requires i < |ActionsIn(ns)| && IsMarker(ActionsIn(ns)[i])
    ensures RewriteList(file, ns).found.err.Some?
  {
    CalleeIsActionFn(ActionsIn(ns)[i]);
    RewriteFailsIff(file, ns);
  }

  /** A layout may use both markers: it fails only on a self-reference or
      a partial without a target. */
  lemma LayoutFaults(file: TemplateFile, ns: seq<Node>)
    requires file.typ == LayoutType
    ensures RewriteList(file, ns).found.err.Some? <==>
      exists i :: 0 <= i < |ActionsIn(ns)| && |ActionsIn(ns)[i].cmds| > 0 &&
        var args := GetActionArgs(ActionsIn(ns)[i].cmds[0]);
        args.file == file.name || (args.fn == "partial" && args.file == "")
  {
    RewriteFailsIff(file, ns);
  }

  /** A self-reference is reported as such, whatever the callee and
      before the role is checked. */
  lemma SelfReferenceFirst(file: TemplateFile, a: Node)
    requires a.Action? && |a.cmds| > 0 && GetActionArgs(a.cmds[0]).file == file.name
    ensures RewriteNode(file, a) == Step(a, Found([], Some(PosErr(a.pos, "cyclic reference"))))
  {
  }

  /** The template call that replaces a marker action: the target (a bare
      render calls "body"), the action's position and line, and a pipe of
      one command with one argument, the field given to partial or dot. */
  lemma MarkerReplaced(file: TemplateFile, a: Node)
    requires IsMarker(a) && Fault(file, a).None?
    ensures var r := RewriteNode(file, a);
      var args := GetActionArgs(a.cmds[0]);
      && r.node.Call? && r.node.pos == a.pos && r.node.line == a.line
      && r.node.name == (if args.file == "" then "body" else args.file)
      && r.node.cmds == [Command([if Callee(a) == "partial" && args.field.Some? then Field(args.field.value) else Dot])]
      && r.found == Found(if args.file == "" then [] else [NestedFile(args.file, if Callee(a) == "render" then RenderFunc else PartialFunc)], None)
  {
    CalleeIsActionFn(a);
  }

  /** Any other action is left as it is and records nothing. */
  lemma OtherActionKept(file: TemplateFile, a: Node)
    requires a.Action? && !IsMarker(a) && Fault(file, a).None?
    ensures RewriteNode(file, a) == Step(a, NothingFound)
  {
    if |a.cmds| > 0 {
      CalleeIsActionFn(a);
    }
  }

  /** Each node is rewritten in its own place in the list. */
  lemma {:induction false} RewriteInPlace(file: TemplateFile, ns: seq<Node>)
    ensures |RewriteList(file, ns).nodes| == |ns|
    ensures forall i :: 0 <= i < |ns| ==> RewriteList(file, ns).nodes[i] == RewriteNode(file, ns[i]).node
  {
    if ns != [] {
      RewriteInPlace(file, ns[..|ns| - 1]);
      assert forall i :: 0 <= i < |ns| - 1 ==> ns[..|ns| - 1][i] == ns[i];
    }
  }

  /** After a rewrite without error the reachable actions are the
      non-marker actions of the original, in order: no render or partial
      call is left anywhere in the walked bodies. */
  lemma {:induction false} NodeActionsRewritten(file: TemplateFile, n: Node)
    requires RewriteNode(file, n).found.err.None?
    ensures ActionsOf(RewriteNode(file, n).node) == Unmarked(ActionsOf(n))
    decreases n
  {
    match n
    case Action(_, _, _) =>
      assert [n][..0] == [];
      if |n.cmds| > 0 {
        CalleeIsActionFn(n);
      }
    case If(list, e) =>
      ListActionsRewritten(file, list);
      BranchActionsRewritten(file, e);
      UnmarkedAppend(ActionsIn(list), BranchActions(e));
    case Range(list, e) =>
      ListActionsRewritten(file, list);
      BranchActionsRewritten(file, e);
      UnmarkedAppend(ActionsIn(list), BranchActions(e));
    case With(list, e) =>
      ListActionsRewritten(file, list);
      BranchActionsRewritten(file, e);
      UnmarkedAppend(ActionsIn(list), BranchActions(e));
    case Text(_) =>
    case Call(_, _, _, _) =>
  }

  lemma {:induction false} BranchActionsRewritten(file: TemplateFile, e: ElseBranch)
    requires RewriteBranch(file, e).found.err.None?
    ensures BranchActions(RewriteBranch(file, e).branch) == Unmarked(BranchActions(e))
    decreases e
  {
    match e
    case NoElse =>
    case Else(ns) => ListActionsRewritten(file, ns);
  }

  lemma {:induction false} ListActionsRewritten(file: TemplateFile, ns: seq<Node>)
    requires RewriteList(file, ns).found.err.None?
    ensures ActionsIn(RewriteList(file, ns).nodes) == Unmarked(ActionsIn(ns))
    decreases ns
  {
    if ns != [] {
      var init, last := ns[..|ns| - 1], ns[|ns| - 1];
      var w, s := RewriteList(file, init), RewriteNode(file, last);
      ListActionsRewritten(file, init);
      NodeActionsRewritten(file, last);
      assert (w.nodes + [s.node])[..|w.nodes|] == w.nodes;
      UnmarkedAppend(ActionsIn(init), ActionsOf(last));
    }
  }

  /** A tree rewritten without error is settled: rewriting it again, under
      any role, changes nothing, records nothing and cannot fail. */
  lemma {:induction false} NodeSettled(file: TemplateFile, other: TemplateFile, n: Node)
    requires other.name == file.name
    requires RewriteNode(file, n).found.err.None?
    ensures RewriteNode(other, RewriteNode(file, n).node) == Step(RewriteNode(file, n).node, NothingFound)
    decreases n
  {
    match n
    case Action(_, _, _) =>
      if |n.cmds| > 0 {
        CalleeIsActionFn(n);
      }
    case If(list, e) =>
      ListSettled(file, other, list);
      BranchSettled(file, other, e);
    case Range(list, e) =>
      ListSettled(file, other, list);
      BranchSettled(file, other, e);
    case With(list, e) =>
      ListSettled(file, other, list);
      BranchSettled(file, other, e);
    case Text(_) =>
    case Call(_, _, _, _) =>
  }

  lemma {:induction false} BranchSettled(file: TemplateFile, other: TemplateFile, e: ElseBranch)
    requires other.name == file.name
    requires RewriteBranch(file, e).found.err.None?
    ensures RewriteBranch(other, RewriteBranch(file, e).branch) == BranchWalk(RewriteBranch(file, e).branch, NothingFound)
    decreases e
  {
    match e
    case NoElse =>
    case Else(ns) => ListSettled(file, other, ns);
  }

  lemma {:induction false} ListSettled(file: TemplateFile, other: TemplateFile, ns: seq<Node>)
    requires other.name == file.name
    requires RewriteList(file, ns).found.err.None?
    ensures RewriteList(other, RewriteList(file, ns).nodes) == Walk(RewriteList(file, ns).nodes, NothingFound)
    decreases ns
  {
    if ns != [] {
      var init, last := ns[..|ns| - 1], ns[|ns| - 1];
      var w, s := RewriteList(file, init), RewriteNode(file, last);
      var nodes := w.nodes + [s.node];
      assert RewriteList(file, ns) == Walk(nodes, w.found.Absorb(s.found));
      assert w.found.err.None? && s.found.err.None?;
      ListSettled(file, other, init);
      NodeSettled(file, other, last);
      assert nodes[..|nodes| - 1] == w.nodes && nodes[|nodes| - 1] == s.node;
      assert RewriteList(other, nodes) == Walk(nodes, NothingFound.Absorb(NothingFound));
    }
  }

  // ---------------------------------------------------------------------
  // The rewrite, as the source performs it: each action is replaced in
  // its parent list at its own index

  /** processActionNode: checks the action at parent[index] and, for a
      marker, puts a template call in its place. */
  method ProcessActionNode(file: TemplateFile, parent: seq<Node>, index: nat) returns (out: seq<Node>, err: Option<PosErr>)
    requires index < |parent| && parent[index].Action? && |parent[index].cmds| > 0
    ensures out == parent[index := RewriteAction(file, parent[index]).node]
    ensures err == RewriteAction(file, parent[index]).found.err
  {
    var actionNode := parent[index];
    var cmd := actionNode.cmds[0];
    var args := GetActionArgs(cmd);
    var name := args.file;
    out := parent;

    if name == file.name {
      return out, Some(PosErr(actionNode.pos, "cyclic reference"));
    }
    if InvalidFuncType(file.typ, args.fn) {
      return out, Some(PosErr(actionNode.pos, args.fn + " not supported"));
    }

    var arg := Dot;
    if args.fn == PartialFunc.String() {
      if args.field.Some? {
        arg := Field(args.field.value);
      }
      if name == "" {
        return out, Some(PosErr(actionNode.pos, "path to partial file is not specified"));
      }
    } else if args.fn == RenderFunc.String() {
      if name == "" {
        name := "body";
      }
    } else {
      return out, None;
    }

    cmd := Command([arg]);
    var pipe := [cmd];
    out := parent[index := Call(name, actionNode.pos, actionNode.line, pipe)];
    err := None;
  }

  /** processNode on the child parent[index]: an action is checked and
      replaced in place, and the bodies of if, range and with are walked. */
  method ProcessNode(file: TemplateFile, parent: seq<Node>, index: nat)
    returns (out: seq<Node>, ts: seq<NestedFile>, err: Option<PosErr>)
    requires index < |parent|
    ensures out == parent[index := RewriteNode(file, parent[index]).node]
    ensures Found(ts, err) == RewriteNode(file, parent[index]).found
    decreases parent[index], 1
  {
    var node := parent[index];
    out, ts, err := parent, [], None;
    match node
    case Action(_, _, cmds) =>
      if |cmds| > 0 {
        var args := GetActionArgs(cmds[0]);
        out, err := ProcessActionNode(file, parent, index);
        if err.Some? {
          return;
        }
        if args.fn == PartialFunc.String() && args.file != "" {
          ts := ts + [NestedFile(args.file, PartialFunc)];
        } else if args.fn == RenderFunc.String() && args.file != "" {
          ts := ts + [NestedFile(args.file, RenderFunc)];
        }
      }
    case If(_, _) =>
      var list, elseList;
      list, elseList, ts, err := ProcessBlock(file, node);
      out := parent[index := If(list, elseList)];
    case Range(_, _) =>
      var list, elseList;
      list, elseList, ts, err := ProcessBlock(file, node);
      out := parent[index := Range(list, elseList)];
    case With(_, _) =>
      var list, elseList;
      list, elseList, ts, err := ProcessBlock(file, node);
      out := parent[index := With(list, elseList)];
    case Text(_) =>
    case Call(_, _, _, _) =>
  }

  /** The two appendResult calls of processNode for an if, range or with
      node: its list, then its else list. */
  method ProcessBlock(file: TemplateFile, node: Node)
    returns (list: seq<Node>, elseList: ElseBranch, ts: seq<NestedFile>, err: Option<PosErr>)
    requires node.If? || node.Range? || node.With?
    ensures Walk(list, RewriteList(file, node.list).found) == RewriteList(file, node.list)
    ensures BranchWalk(elseList, RewriteBranch(file, node.elseList).found) == RewriteBranch(file, node.elseList)
    ensures Found(ts, err) == NothingFound.Absorb(RewriteList(file, node.list).found).Absorb(RewriteBranch(file, node.elseList).found)
    decreases node, 0
  {
    ts, err := [], None;
    var cts, cerr;
    list, cts, cerr := ProcessList(file, node.list);
    if cerr.Some? {
      err := cerr;
    }
    if err.None? {
      ts := ts + cts;
    }
    match node.elseList
    case NoElse =>
      elseList := NoElse;
    case Else(nodes) =>
      var nodes';
      nodes', cts, cerr := ProcessList(file, nodes);
      elseList := Else(nodes');
      if cerr.Some? {
        err := cerr;
      }
      if err.None? {
        ts := ts + cts;
      }
  }

  /** processNode on a list node: every child in turn, each one replaced
      in place, the results gathered as appendResult does. */
  method ProcessList(file: TemplateFile, nodes: seq<Node>) returns (out: seq<Node>, ts: seq<NestedFile>, err: Option<PosErr>)
    ensures Walk(out, Found(ts, err)) == RewriteList(file, nodes)
    decreases nodes
  {
    out, ts, err := nodes, [], None;
    var i := 0;
    while i < |nodes|
      invariant 0 <= i <= |nodes| && |out| == |nodes|
      invariant out[..i] == RewriteList(file, nodes[..i]).nodes
      invariant out[i..] == nodes[i..]
      invariant Found(ts, err) == RewriteList(file, nodes[..i]).found
    {
      assert out[i] == nodes[i];
      assert nodes[..i + 1][..i] == nodes[..i];
      var cts, cerr;
      out, cts, cerr := ProcessNode(file, out, i);
      if cerr.Some? {
        err := cerr;
      }
      if err.None? {
        ts := ts + cts;
      }
      assert out[..i + 1] == out[..i] + [out[i]];
      i := i + 1;
    }
    assert nodes[..i] == nodes && out[..i] == out;
  }

  // ---------------------------------------------------------------------
  // Positions

  function NewlineCount(s: string): nat
  {
    if s == [] then 0 else NewlineCount(s[..|s| - 1]) + (if s[|s| - 1] == '\n' then 1 else 0)
  }

  /** The index of the last newline of s, or -1 when there is none. */
  function LastNewline(s: string): (k: int)
    ensures -1 <= k < |s|
    ensures k >= 0 ==> s[k] == '\n'
    ensures forall j :: k < j < |s| ==> s[j] != '\n'
  {
    if s == [] then -1 else if s[|s| - 1] == '\n' then |s| - 1 else LastNewline(s[..|s| - 1])
  }

  /** The part of the source before a byte offset (all of it for an offset
      past its end, none of it for a negative one). */
  function Before(body: string, p: int): string
  {
    if p <= 0 then [] else if p >= |body| then body else body[..p]
  }

  /** The 1-based line and column of a byte offset: one line more than the
      newlines before it, and the column one past the characters since the
      last of them. */
  function LineCol(body: string, p: int): (nat, nat)
  {
    var prefix := Before(body, p);
    (1 + NewlineCount(prefix), |prefix| - LastNewline(prefix))
  }

  /** pos: the line and column of a byte offset, counted character by character. */
  method Pos(body: string, p: int) returns (line: int, col: int)
    ensures (line, col) == LineCol(body, p)
  {
    line, col := 1, 1;
    var i := 0;
    while i < |body|
      invariant 0 <= i <= |body|
      invariant i <= |Before(body, p)|
      invariant line == 1 + NewlineCount(body[..i])
      invariant col == i - LastNewline(body[..i])
    {
      if i >= p {
        break;
      }
      assert body[..i + 1][..i] == body[..i];
      if body[i] == '\n' {
        line := line + 1;
        col := 1;
      } else {
        col := col + 1;
      }
      i := i + 1;
    }
    assert body[..i] == Before(body, p);
  }

  /** Offset 0, and any offset before it, is line 1, column 1. */
  lemma PosStart(body: string, p: int)
    requires p <= 0
    ensures LineCol(body, p) == (1, 1)
  {
  }

  /** Moving the offset over one character: a newline starts the next line
      at column 1, any other character moves one column right. */
  lemma PosStep(body: string, p: nat)
    requires p < |body|
    ensures LineCol(body, p + 1) ==
      if body[p] == '\n' then (LineCol(body, p).0 + 1, 1) else (LineCol(body, p).0, LineCol(body, p).1 + 1)
  {
    var prefix := body[..p + 1];
    assert prefix[..p] == Before(body, p);
    assert Before(body, p + 1) == prefix;
  }

  // ---------------------------------------------------------------------
  // processTree

  datatype Processing = Processing(root: seq<Node>, ts: seq<NestedFile>, err: Option<PositionError>)

  /** What processTree does to a template: its rewritten root, the
      references it found and, on failure, the error placed at the line and
      column of the last faulty action. */
  function Processed(t: TemplateFile): Processing
  {
    var w := RewriteList(t, t.root);
    Processing(w.nodes, w.found.ts,
      if w.found.err.None? then None
      else
        var lc := LineCol(t.body, w.found.err.value.pos);
        Some(PositionError(t.name, lc.0, lc.1, t.typ, w.found.err.value)))
  }

  /** processTree: rewrites the root list of a template and, on an error,
      prefixes it with the template's name, line, column and role. */
  method ProcessTree(t: TemplateFile) returns (root: seq<Node>, ts: seq<NestedFile>, err: Option<PositionError>)
    ensures Processing(root, ts, err) == Processed(t)
  {
    var e;
    root, ts, e := ProcessList(t, t.root);
    if e.Some? {
      var line, col := Pos(t.body, e.value.pos);
      return root, ts, Some(PositionError(t.name, line, col, t.typ, e.value));
    }
    return root, ts, None;
  }

  /** A template processed without error is settled: processing its new
      tree again, under any role, leaves it as it is. */
  lemma ProcessedSettled(t: TemplateFile, typ: TemplateType)
    requires Processed(t).err.None?
    ensures var again := t.(root := Processed(t).root, typ := typ);
      Processed(again) == Processing(again.root, [], None)
  {
    ListSettled(t, t.(root := Processed(t).root, typ := typ), t.root);
  }

  /** The references of a run of actions none of which failed name
      neither "" nor the file itself. */
  lemma {:induction false} RefsOfFaultless(file: TemplateFile, acts: seq<Node>)
    requires FaultsOf(file, acts) == []
    ensures forall r :: r in RefsOf(acts) ==> r.name != file.name && r.name != ""
  {
    if acts != [] {
      var init := acts[..|acts| - 1];
      FaultsAppend(file, init, [acts[|acts| - 1]]);
      assert init + [acts[|acts| - 1]] == acts;
      RefsOfFaultless(file, init);
    }
  }

  /** Every reference an action yields is among the references of a run
      that holds the action. */
  lemma {:induction false} RefOfIn(acts: seq<Node>, i: nat)
    requires i < |acts|
    ensures forall r :: r in RefOf(acts[i]) ==> r in RefsOf(acts)
  {
    if i < |acts| - 1 {
      RefOfIn(acts[..|acts| - 1], i);
    }
  }

  /** The references processTree returns on success are those of the
      reachable actions, and none of them names the template itself. */
  lemma ProcessedRefs(t: TemplateFile)
    requires Processed(t).err.None?
    ensures FaultsOf(t, ActionsIn(t.root)) == []
    ensures Processed(t).ts == RefsOf(ActionsIn(t.root))
    ensures forall r :: r in Processed(t).ts ==> r.name != t.name && r.name != ""
  {
    ListSummary(t, t.root);
    RefsOfFaultless(t, ActionsIn(t.root));
  }

  /** No reachable action of a tree is a marker. */
  predicate NoMarkers(ns: seq<Node>)
  {
    forall a :: a in ActionsIn(ns) ==> !IsMarker(a)
  }

  /** A tree processTree rewrote without error holds no marker. */
  lemma ProcessedUnmarked(t: TemplateFile)
    requires Processed(t).err.None?
    ensures NoMarkers(Processed(t).root)
  {
    ListActionsRewritten(t, t.root);
  }

  /** A reachable partial action with a target yields that target as a
      partial reference once processTree succeeds. */
  lemma PartialActionReferenced(t: TemplateFile, i: nat)
    requires Processed(t).err.None?
    requires i < |ActionsIn(t.root)| && IsMarker(ActionsIn(t.root)[i]) && Callee(ActionsIn(t.root)[i]) == PartialFunc.String()
    ensures NestedFile(GetActionArgs(ActionsIn(t.root)[i].cmds[0]).file, PartialFunc) in Processed(t).ts
  {
    var acts := ActionsIn(t.root);
    ProcessedRefs(t);
    FaultsEmptyIff(t, acts);
    CalleeIsActionFn(acts[i]);
    RefOfIn(acts, i);
  }
}
