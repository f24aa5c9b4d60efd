/** The older, flag-driven rewriter of tree.go: render and partial actions
    are swapped for template calls only when their flag is set, nothing
    is validated, and every string target met is reported. */
module TreeRewrite {
  import opened ParseTree
  import Process

  /** Which of the two marker functions a walk swaps. */
  datatype Flags = Flags(render: bool, partial: bool)

  /** The callee and the string target of a command. */
  datatype ActionArgs = ActionArgs(fn: string, file: string)

  /** getActionArgs: the identifier that starts a command and its
      string-literal second argument, "" when absent or of another kind.
      It agrees with the canonical rewriter's reading. */
  function GetActionArgs(cmd: Command): (r: ActionArgs)
    ensures r.fn == Process.GetActionArgs(cmd).fn && r.file == Process.GetActionArgs(cmd).file
    ensures !(|cmd.args| > 0 && cmd.args[0].Ident?) ==> r.fn == ""
    ensures !(|cmd.args| > 1 && cmd.args[1].Str?) ==> r.file == ""
  {
    ActionArgs(
      if |cmd.args| > 0 && cmd.args[0].Ident? then cmd.args[0].ident else "",
      if |cmd.args| > 1 && cmd.args[1].Str? then cmd.args[1].text else "")
  }

  /** Whether processActionNode swaps an action under the flags. */
  predicate Swaps(flags: Flags, a: Node)
  {
    a.Action? && |a.cmds| > 0 &&
      var fn := GetActionArgs(a.cmds[0]).fn;
      (fn == "render" && flags.render) || (fn == "partial" && flags.partial)
  }

  /** processActionNode: the node that takes the action's place. A swapped
      action becomes a call of its target, a bare render a call of
      "body"; the call keeps the action's position and its pipe keeps one
      command whose only argument is dot. Any other node stays. */
  function Swapped(flags: Flags, a: Node): (r: Node)
    ensures !Swaps(flags, a) ==> r == a
    ensures Swaps(flags, a) ==> r.Call? && r.pos == a.pos && r.line == a.line && r.cmds == [Command([Dot])]
    ensures Swaps(flags, a) && GetActionArgs(a.cmds[0]).file != "" ==> r.name == GetActionArgs(a.cmds[0]).file
    ensures Swaps(flags, a) && GetActionArgs(a.cmds[0]).file == "" && Callee(a) == "render" ==> r.name == "body"
  {
    if !Swaps(flags, a) then a
    else
      var args := GetActionArgs(a.cmds[0]);
      var name := if args.fn == "render" && args.file == "" then "body" else args.file;
      Call(name, a.pos, a.line, [Command([Dot])])
  }

  /** The target processTree records for an action: its string target,
      whatever its callee and whether it was swapped. */
  function Named(a: Node): seq<string>
  {
    if a.Action? && |a.cmds| > 0 && GetActionArgs(a.cmds[0]).file != "" then [GetActionArgs(a.cmds[0]).file] else []
  }

  // ---------------------------------------------------------------------
  // The walk, with a nil else list read as an empty one

  datatype Step = Step(node: Node, ts: seq<string>)
  datatype Walk = Walk(nodes: seq<Node>, ts: seq<string>)
  datatype BranchWalk = BranchWalk(branch: ElseBranch, ts: seq<string>)

  /** processTree on one node: an action is swapped and its target
      recorded; the bodies of if and range are walked, list then else;
      with blocks and every other node are left alone. */
  function SwapNode(flags: Flags, n: Node): Step
    decreases n
  {
    match n
    case Action(_, _, _) => Step(Swapped(flags, n), Named(n))
    case If(list, e) =>
      var w := SwapList(flags, list);
      var b := SwapBranch(flags, e);
      Step(If(w.nodes, b.branch), w.ts + b.ts)
    case Range(list, e) =>
      var w := SwapList(flags, list);
      var b := SwapBranch(flags, e);
      Step(Range(w.nodes, b.branch), w.ts + b.ts)
    case With(_, _) => Step(n, [])
    case Text(_) => Step(n, [])
    case Call(_, _, _, _) => Step(n, [])
  }

  function SwapBranch(flags: Flags, e: ElseBranch): BranchWalk
    decreases e
  {
    match e
    case NoElse => BranchWalk(NoElse, [])
    case Else(ns) =>
      var w := SwapList(flags, ns);
      BranchWalk(Else(w.nodes), w.ts)
  }

  /** processTree on a list node: every child in turn. */
  function SwapList(flags: Flags, ns: seq<Node>): Walk
    decreases ns
  {
    if ns == [] then Walk([], [])
    else
      var w := SwapList(flags, ns[..|ns| - 1]);
      var s := SwapNode(flags, ns[|ns| - 1]);
      Walk(w.nodes + [s.node], w.ts + s.ts)
  }

  // ---------------------------------------------------------------------
  // Reference definitions: the actions the walk reaches

  /** The actions reachable through list, if/else and range/else bodies
      (not with), in source order. */
  function ReachedOf(n: Node): (r: seq<Node>)
    decreases n
    ensures forall i :: 0 <= i < |r| ==> r[i].Action?
  {
    match n
    case Action(_, _, _) => [n]
    case If(list, e) => ReachedIn(list) + BranchReached(e)
    case Range(list, e) => ReachedIn(list) + BranchReached(e)
    case With(_, _) => []
    case Text(_) => []
    case Call(_, _, _, _) => []
  }

  function BranchReached(e: ElseBranch): (r: seq<Node>)
    decreases e
    ensures forall i :: 0 <= i < |r| ==> r[i].Action?
  {
    match e
    case NoElse => []
    case Else(ns) => ReachedIn(ns)
  }

  function ReachedIn(ns: seq<Node>): (r: seq<Node>)
    decreases ns
    ensures forall i :: 0 <= i < |r| ==> r[i].Action?
  {
    if ns == [] then [] else ReachedIn(ns[..|ns| - 1]) + ReachedOf(ns[|ns| - 1])
  }

  /** The string targets of a sequence of actions, in order. */
  function TargetsOf(acts: seq<Node>): seq<string>
  {
    if acts == [] then [] else TargetsOf(acts[..|acts| - 1]) + Named(acts[|acts| - 1])
  }

  /** The actions the flags leave in place, in order. */
  function Kept(flags: Flags, acts: seq<Node>): (r: seq<Node>)
    ensures forall i :: 0 <= i < |r| ==> !Swaps(flags, r[i])
  {
    if acts == [] then []
    else Kept(flags, acts[..|acts| - 1]) + (if Swaps(flags, acts[|acts| - 1]) then [] else [acts[|acts| - 1]])
  }

  lemma TargetsAppend(a: seq<Node>, b: seq<Node>)
    ensures TargetsOf(a + b) == TargetsOf(a) + TargetsOf(b)
    decreases |b|
  {
    if b != [] {
      assert (a + b)[..|a + b| - 1] == a + b[..|b| - 1];
      TargetsAppend(a, b[..|b| - 1]);
    } else {
      assert a + b == a;
    }
  }

  lemma KeptAppend(flags: Flags, a: seq<Node>, b: seq<Node>)
    ensures Kept(flags, a + b) == Kept(flags, a) + Kept(flags, b)
    decreases |b|
  {
    if b != [] {
      assert (a + b)[..|a + b| - 1] == a + b[..|b| - 1];
      KeptAppend(flags, a, b[..|b| - 1]);
    } else {
      assert a + b == a;
    }
  }

  // ---------------------------------------------------------------------
  // Properties of the walk

  /** The walk records the string target of every action it reaches, in
      source order, whatever the callee and the flags. */
  lemma {:induction false} NodeTargets(flags: Flags, n: Node)
    ensures SwapNode(flags, n).ts == TargetsOf(ReachedOf(n))
    decreases n
  {
    match n
    case Action(_, _, _) =>
      assert [n][..0] == [];
    case If(list, e) =>
      ListTargets(flags, list);
      BranchTargets(flags, e);
      TargetsAppend(ReachedIn(list), BranchReached(e));
    case Range(list, e) =>
      ListTargets(flags, list);
      BranchTargets(flags, e);
      TargetsAppend(ReachedIn(list), BranchReached(e));
    case With(_, _) =>
    case Text(_) =>
    case Call(_, _, _, _) =>
  }

  lemma {:induction false} BranchTargets(flags: Flags, e: ElseBranch)
    ensures SwapBranch(flags, e).ts == TargetsOf(BranchReached(e))
    decreases e
  {
    match e
    case NoElse =>
    case Else(ns) => ListTargets(flags, ns);
  }

  lemma {:induction false} ListTargets(flags: Flags, ns: seq<Node>)
    ensures SwapList(flags, ns).ts == TargetsOf(ReachedIn(ns))
    decreases ns
  {
    if ns != [] {
      ListTargets(flags, ns[..|ns| - 1]);
      NodeTargets(flags, ns[|ns| - 1]);
      TargetsAppend(ReachedIn(ns[..|ns| - 1]), ReachedOf(ns[|ns| - 1]));
    }
  }

  /** After the walk, the actions it reaches are those of the original
      the flags leave alone, in order: every swapped marker is gone. */
  lemma {:induction false} NodeKept(flags: Flags, n: Node)
    ensures ReachedOf(SwapNode(flags, n).node) == Kept(flags, ReachedOf(n))
    decreases n
  {
    match n
    case Action(_, _, _) =>
      assert [n][..0] == [];
    case If(list, e) =>
      ListKept(flags, list);
      BranchKept(flags, e);
      KeptAppend(flags, ReachedIn(list), BranchReached(e));
    case Range(list, e) =>
      ListKept(flags, list);
      BranchKept(flags, e);
      KeptAppend(flags, ReachedIn(list), BranchReached(e));
    case With(_, _) =>
    case Text(_) =>
    case Call(_, _, _, _) =>
  }

  lemma {:induction false} BranchKept(flags: Flags, e: ElseBranch)
    ensures BranchReached(SwapBranch(flags, e).branch) == Kept(flags, BranchReached(e))
    decreases e
  {
    match e
    case NoElse =>
    case Else(ns) => ListKept(flags, ns);
  }

  lemma {:induction false} ListKept(flags: Flags, ns: seq<Node>)
    ensures ReachedIn(SwapList(flags, ns).nodes) == Kept(flags, ReachedIn(ns))
    decreases ns
  {
    if ns != [] {
      var init, last := ns[..|ns| - 1], ns[|ns| - 1];
      var w, s := SwapList(flags, init), SwapNode(flags, last);
      ListKept(flags, init);
      NodeKept(flags, last);
      assert (w.nodes + [s.node])[..|w.nodes|] == w.nodes;
      KeptAppend(flags, ReachedIn(init), ReachedOf(last));
    }
  }

  /** The walk is in place: the list keeps its length and each child is
      replaced by its own rewrite, at its own index. */
  lemma {:induction false} SwapInPlace(flags: Flags, ns: seq<Node>)
    ensures |SwapList(flags, ns).nodes| == |ns|
    ensures forall i :: 0 <= i < |ns| ==> SwapList(flags, ns).nodes[i] == SwapNode(flags, ns[i]).node
  {
    if ns != [] {
      SwapInPlace(flags, ns[..|ns| - 1]);
      assert forall i :: 0 <= i < |ns| - 1 ==> ns[..|ns| - 1][i] == ns[i];
    }
  }

  /** With both flags set, no render or partial action is left where the
      walk reaches. */
  lemma NoMarkersLeft(ns: seq<Node>)
    ensures forall a :: a in ReachedIn(SwapList(Flags(true, true), ns).nodes) ==>
      Callee(a) != "render" && Callee(a) != "partial"
  {
    ListKept(Flags(true, true), ns);
    forall a | a in ReachedIn(SwapList(Flags(true, true), ns).nodes)
      ensures Callee(a) != "render" && Callee(a) != "partial"
    {
      var acts := Kept(Flags(true, true), ReachedIn(ns));
      var i :| 0 <= i < |acts| && acts[i] == a;
      assert !Swaps(Flags(true, true), a);
      if |a.cmds| > 0 {
        Process.CalleeIsActionFn(a);
      }
    }
  }

  /** Walking a walked tree again under the same flags changes nothing. */
  lemma {:induction false} NodeIdempotent(flags: Flags, n: Node)
    ensures SwapNode(flags, SwapNode(flags, n).node).node == SwapNode(flags, n).node
    decreases n
  {
    match n
    case Action(_, _, _) =>
    case If(list, e) =>
      ListIdempotent(flags, list);
      BranchIdempotent(flags, e);
    case Range(list, e) =>
      ListIdempotent(flags, list);
      BranchIdempotent(flags, e);
    case With(_, _) =>
    case Text(_) =>
    case Call(_, _, _, _) =>
  }

  lemma {:induction false} BranchIdempotent(flags: Flags, e: ElseBranch)
    ensures SwapBranch(flags, SwapBranch(flags, e).branch).branch == SwapBranch(flags, e).branch
    decreases e
  {
    match e
    case NoElse =>
    case Else(ns) => ListIdempotent(flags, ns);
  }

  lemma {:induction false} ListIdempotent(flags: Flags, ns: seq<Node>)
    ensures SwapList(flags, SwapList(flags, ns).nodes).nodes == SwapList(flags, ns).nodes
    decreases ns
  {
    if ns != [] {
      var init, last := ns[..|ns| - 1], ns[|ns| - 1];
      var w, s := SwapList(flags, init), SwapNode(flags, last);
      ListIdempotent(flags, init);
      NodeIdempotent(flags, last);
      assert (w.nodes + [s.node])[..|w.nodes|] == w.nodes;
    }
  }

  // ---------------------------------------------------------------------
  // The walk as written: a nil else list is dereferenced

  datatype Outcome<T> = Done(value: T) | Panic

  /** processTree as tree.go writes it: the else list of an if or range
      node is walked whether or not it exists, and reading the nodes of a
      nil list panics. */
  function NodeAsWritten(flags: Flags, n: Node): Outcome<Step>
    decreases n
  {
    match n
    case Action(_, _, _) => Done(Step(Swapped(flags, n), Named(n)))
    case If(list, e) =>
      var w := ListAsWritten(flags, list);
      var b := BranchAsWritten(flags, e);
      if w.Panic? || b.Panic? then Panic
      else Done(Step(If(w.value.nodes, b.value.branch), w.value.ts + b.value.ts))
    case Range(list, e) =>
      var w := ListAsWritten(flags, list);
      var b := BranchAsWritten(flags, e);
      if w.Panic? || b.Panic? then Panic
      else Done(Step(Range(w.value.nodes, b.value.branch), w.value.ts + b.value.ts))
    case With(_, _) => Done(Step(n, []))
    case Text(_) => Done(Step(n, []))
    case Call(_, _, _, _) => Done(Step(n, []))
  }

  function BranchAsWritten(flags: Flags, e: ElseBranch): Outcome<BranchWalk>
    decreases e
  {
    match e
    case NoElse => Panic
    case Else(ns) =>
      var w := ListAsWritten(flags, ns);
      if w.Panic? then Panic else Done(BranchWalk(Else(w.value.nodes), w.value.ts))
  }

  function ListAsWritten(flags: Flags, ns: seq<Node>): Outcome<Walk>
    decreases ns
  {
    if ns == [] then Done(Walk([], []))
    else
      var w := ListAsWritten(flags, ns[..|ns| - 1]);
      var s := NodeAsWritten(flags, ns[|ns| - 1]);
      if w.Panic? || s.Panic? then Panic
      else Done(Walk(w.value.nodes + [s.value.node], w.value.ts + s.value.ts))
  }

  /** Some if or range node the walk reaches has no else branch. */
  predicate BareOf(n: Node)
    decreases n
  {
    match n
    case If(list, e) => e.NoElse? || BareIn(list) || (e.Else? && BareIn(e.nodes))
    case Range(list, e) => e.NoElse? || BareIn(list) || (e.Else? && BareIn(e.nodes))
    case _ => false
  }

  predicate BareIn(ns: seq<Node>)
    decreases ns
  {
    ns != [] && (BareIn(ns[..|ns| - 1]) || BareOf(ns[|ns| - 1]))
  }

  /** As written, the walk panics exactly on a tree with an if or range
      without else where the walk reaches it; on every other tree it does
      what the corrected walk does. */
  lemma {:induction false} NodeAsWrittenPanics(flags: Flags, n: Node)
    ensures NodeAsWritten(flags, n).Panic? <==> BareOf(n)
    ensures NodeAsWritten(flags, n).Done? ==> NodeAsWritten(flags, n).value == SwapNode(flags, n)
    decreases n
  {
    match n
    case Action(_, _, _) =>
    case If(list, e) =>
      ListAsWrittenPanics(flags, list);
      if e.Else? {
        ListAsWrittenPanics(flags, e.nodes);
      }
    case Range(list, e) =>
      ListAsWrittenPanics(flags, list);
      if e.Else? {
        ListAsWrittenPanics(flags, e.nodes);
      }
    case With(_, _) =>
    case Text(_) =>
    case Call(_, _, _, _) =>
  }

  lemma {:induction false} ListAsWrittenPanics(flags: Flags, ns: seq<Node>)
    ensures ListAsWritten(flags, ns).Panic? <==> BareIn(ns)
    ensures ListAsWritten(flags, ns).Done? ==> ListAsWritten(flags, ns).value == SwapList(flags, ns)
    decreases ns
  {
    if ns != [] {
      ListAsWrittenPanics(flags, ns[..|ns| - 1]);
      NodeAsWrittenPanics(flags, ns[|ns| - 1]);
    }
  }

  /** {{if .Name}}{{.Name}}{{end}}, the if of the repository's own
      tests, makes the walk as written panic; the corrected walk keeps
      the if and its body. */
  lemma IfWithoutElse(flags: Flags)
    ensures var name := Action(5, 1, [Command([Field(["Name"])])]);
      var tree := [If([name], NoElse)];
      ListAsWritten(flags, tree).Panic? && SwapList(flags, tree) == Walk(tree, [])
  {
    var name := Action(5, 1, [Command([Field(["Name"])])]);
    var tree := [If([name], NoElse)];
    assert tree[..0] == [] && [name][..0] == [];
    assert BareOf(tree[0]);
    ListAsWrittenPanics(flags, tree);
    assert !Swaps(flags, name) && Named(name) == [];
    assert SwapList(flags, [name]) == Walk([name], []);
    assert SwapNode(flags, tree[0]) == Step(tree[0], []);
  }

  // ---------------------------------------------------------------------
  // The walk, as the source performs it: each action is replaced in its
  // parent list at its own index

  /** processActionNode on parent[index]: the swapped node is written in
      the action's place. */
  method ProcessActionNode(flags: Flags, parent: seq<Node>, index: nat) returns (out: seq<Node>)
    requires index < |parent| && parent[index].Action? && |parent[index].cmds| > 0
    ensures out == parent[index := Swapped(flags, parent[index])]
  {
    var actionNode := parent[index];
    var cmd := actionNode.cmds[0];
    var args := GetActionArgs(cmd);
    var name := args.file;
    out := parent;

    if args.fn == "partial" {
      if !flags.partial {
        return;
      }
    } else if args.fn == "render" {
      if !flags.render {
        return;
      }
      if name == "" {
        name := "body";
      }
    } else {
      return;
    }

    cmd := Command([Dot]);
    out := parent[index := Call(name, actionNode.pos, actionNode.line, [cmd])];
  }

  /** processTree on the child parent[index]: an action is swapped in
      place and its target recorded; if and range bodies are walked. A
      missing else list is walked as an empty one. */
  method ProcessTree(flags: Flags, parent: seq<Node>, index: nat) returns (out: seq<Node>, ts: seq<string>)
    requires index < |parent|
    ensures out == parent[index := SwapNode(flags, parent[index]).node]
    ensures ts == SwapNode(flags, parent[index]).ts
    decreases parent[index], 1
  {
    var node := parent[index];
    out, ts := parent, [];
    match node
    case Action(_, _, cmds) =>
      if |cmds| > 0 {
        var args := GetActionArgs(cmds[0]);
        if args.fn == "render" || args.fn == "partial" {
          out := ProcessActionNode(flags, parent, index);
        }
        if args.file != "" {
          ts := ts + [args.file];
        }
      }
    case If(list, e) =>
      var list', e', cts := ProcessBlock(flags, node);
      ts := ts + cts;
      out := parent[index := If(list', e')];
    case Range(list, e) =>
      var list', e', cts := ProcessBlock(flags, node);
      ts := ts + cts;
      out := parent[index := Range(list', e')];
    case With(_, _) =>
    case Text(_) =>
    case Call(_, _, _, _) =>
  }

  /** The list, then the else list, of an if or range node. */
  method ProcessBlock(flags: Flags, node: Node) returns (list: seq<Node>, elseList: ElseBranch, ts: seq<string>)
    requires node.If? || node.Range?
    ensures list == SwapList(flags, node.list).nodes
    ensures elseList == SwapBranch(flags, node.elseList).branch
    ensures ts == SwapList(flags, node.list).ts + SwapBranch(flags, node.elseList).ts
    decreases node, 0
  {
    list, ts := ProcessList(flags, node.list);
    match node.elseList
    case NoElse =>
      elseList := NoElse;
    case Else(nodes) =>
      var nodes', cts := ProcessList(flags, nodes);
      elseList := Else(nodes');
      ts := ts + cts;
  }

  /** processTree on a list node: every child in turn, each replaced in
      place, the targets gathered in order. */
  method ProcessList(flags: Flags, nodes: seq<Node>) returns (out: seq<Node>, ts: seq<string>)
    ensures Walk(out, ts) == SwapList(flags, nodes)
    decreases nodes
  {
    out, ts := nodes, [];
    var i := 0;
    while i < |nodes|
      invariant 0 <= i <= |nodes| && |out| == |nodes|
      invariant out[..i] == SwapList(flags, nodes[..i]).nodes
      invariant out[i..] == nodes[i..]
      invariant ts == SwapList(flags, nodes[..i]).ts
    {
      assert out[i] == nodes[i];
      assert nodes[..i + 1][..i] == nodes[..i];
      var cts;
      out, cts := ProcessTree(flags, out, i);
      ts := ts + cts;
      assert out[..i + 1] == out[..i] + [out[i]];
      i := i + 1;
    }
    assert nodes[..i] == nodes && out[..i] == out;
  }
}
