/** The part of Go's text/template/parse tree that the rewriters look at.
    A template's Tree.Root is a list node, so a tree is a sequence of nodes;
    the bodies of if, range and with are list nodes too, and an absent
    else branch is a nil list (NoElse). */
module ParseTree {

  datatype Option<+T> = None | Some(value: T)

  /** An argument of a command: an identifier (a function name), a string
      literal, a field chain such as .User.Name, the dot, or anything else
      (variables, numbers, nested pipelines, ...). */
  datatype Arg =
    | Ident(ident: string)
    | Str(text: string)
    | Field(path: seq<string>)
    | Dot
    | Other

  /** A command of a pipeline: its arguments in order. */
  datatype Command = Command(args: seq<Arg>)

  /** Text stands for every leaf node the rewriters never inspect (text,
      comments, break, continue). Call is a {{template "name" pipe}} node. */
  datatype Node =
    | Text(text: string)
    | Action(pos: nat, line: nat, cmds: seq<Command>)
    | If(list: seq<Node>, elseList: ElseBranch)
    | Range(list: seq<Node>, elseList: ElseBranch)
    | With(list: seq<Node>, elseList: ElseBranch)
    | Call(name: string, pos: nat, line: nat, cmds: seq<Command>)

  /** The ElseList of an if, range or with node: nil, or a list node. */
  datatype ElseBranch = NoElse | Else(nodes: seq<Node>)

  /** The callee of an action: the identifier that starts its first
      command, or "" when there is none. */
  function Callee(a: Node): string
  {
    if a.Action? && |a.cmds| > 0 && |a.cmds[0].args| > 0 && a.cmds[0].args[0].Ident? then
      a.cmds[0].args[0].ident
    else
      ""
  }
}
