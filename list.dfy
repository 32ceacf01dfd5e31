/**
 * The interactive folder-tree navigator: the list of the current level,
 * a stack of the folders entered and the breadcrumb path shown above it.
 * The list component's own machinery is reduced to a cursor index.
 */
module Interactive {
  import opened GoStrings
  import opened PCollection

  datatype Option<T> = None | Some(value: T)

  /** The first breadcrumb. */
  const RootLabel: string := "Main List"

  /** The text shown after quitting. */
  const Farewell: string := "Not hungry? That\U{2019}s cool."

  /** The icon put before the name of a node whose child list is not nil. */
  const FolderIcon: string := "\U{1F4C1} "

  /** The messages the model reacts to. */
  datatype Msg =
    | KeyPress(key: string)
    | WindowSize(width: int, height: int)
      /** The list component moved its cursor to `index` (arrow keys, paging). */
    | Highlight(index: nat)

  /** What `Update` hands back to the runtime: nothing, quit, or the list component's own command. */
  datatype Cmd = NoCmd | QuitCmd | ListCmd

  /** The state of the navigator as a value. */
  datatype Nav = Nav(items: seq<Node>, cursor: nat, quitting: bool, stack: seq<Node>, path: seq<string>)

  datatype Step = Step(state: Nav, cmd: Cmd)

  /** The state `RenderList` starts from: the top level, an empty stack, the root breadcrumb. */
  function Initial(nl: NodeList): Nav
  {
    Nav(Elems(nl), 0, false, [], [RootLabel])
  }

  /**
   * What the navigator keeps true: one breadcrumb per folder entered plus the
   * root one, each naming its folder, and only folders with children on the stack.
   */
  predicate Consistent(s: Nav)
  {
    && |s.path| == |s.stack| + 1
    && s.path[0] == RootLabel
    && (forall i :: 0 <= i < |s.stack| ==>
          s.path[i + 1] == s.stack[i].name && |Elems(s.stack[i].children)| > 0)
  }

  /** The item under the cursor, if the cursor is on one. */
  function Selected(s: Nav): Option<Node>
  {
    if s.cursor < |s.items| then Some(s.items[s.cursor]) else None
  }

  /** Enter a folder: push it, extend the path, show its children. */
  function Descend(s: Nav, n: Node): Nav
  {
    s.(stack := s.stack + [n], path := s.path + [n.name], items := Elems(n.children))
  }

  /** Pop the stack and the path, and show the children of the node popped. */
  function Back(s: Nav): Nav
    requires s.stack != [] ==> s.path != []
  {
    if s.stack == [] then s
    else
      s.(path := s.path[..|s.path| - 1],
         stack := s.stack[..|s.stack| - 1],
         items := Elems(s.stack[|s.stack| - 1].children))
  }

  predicate IsQuitKey(k: string)
  {
    k == "q" || k == "ctrl+c"
  }

  predicate IsBackKey(k: string)
  {
    k == "backspace" || k == "esc"
  }

  /** The step `Update` takes on `msg`. */
  function Next(s: Nav, msg: Msg): (r: Step)
    requires s.stack != [] ==> s.path != []
    ensures Consistent(s) ==> Consistent(r.state)
  {
    match msg
    case WindowSize(_, _) => Step(s, NoCmd)
    case Highlight(i) => Step(s.(cursor := i), ListCmd)
    case KeyPress(k) =>
      if IsQuitKey(k) then Step(s.(quitting := true), QuitCmd)
      else if k == "enter" then
        match Selected(s)
        case Some(n) =>
          if |Elems(n.children)| > 0 then Step(Descend(s, n), ListCmd) else Step(s, QuitCmd)
        case None => Step(s, ListCmd)
      else if IsBackKey(k) then Step(Back(s), ListCmd)
      else Step(s, ListCmd)
  }

  /** The state after the messages `msgs`, one after the other. */
  function Run(s: Nav, msgs: seq<Msg>): (r: Nav)
    requires Consistent(s)
    ensures Consistent(r)
    decreases |msgs|
  {
    if msgs == [] then s else Run(Next(s, msgs[0]).state, msgs[1..])
  }

  /** Every state reachable from the start is consistent. */
  lemma ReachableConsistent(nl: NodeList, msgs: seq<Msg>)
    ensures Consistent(Run(Initial(nl), msgs))
  {
  }

  /** Enter on a folder pushes it, extends the path and shows its children, in order. */
  lemma EnterFolder(s: Nav, n: Node)
    requires s.stack != [] ==> s.path != []
    requires Selected(s) == Some(n) && |Elems(n.children)| > 0
    ensures var r := Next(s, KeyPress("enter"));
            && r.cmd == ListCmd
            && r.state.stack == s.stack + [n]
            && r.state.path == s.path + [n.name]
            && r.state.items == Elems(n.children)
            && r.state.cursor == s.cursor && r.state.quitting == s.quitting
  {
  }

  /** Enter on a node without children ends the session and changes nothing. */
  lemma EnterLeaf(s: Nav, n: Node)
    requires s.stack != [] ==> s.path != []
    requires Selected(s) == Some(n) && |Elems(n.children)| == 0
    ensures Next(s, KeyPress("enter")) == Step(s, QuitCmd)
  {
  }

  /** Enter with the cursor on no item is left to the list component. */
  lemma EnterNothing(s: Nav)
    requires s.stack != [] ==> s.path != []
    requires s.cursor >= |s.items|
    ensures Next(s, KeyPress("enter")) == Step(s, ListCmd)
  {
  }

  /** Back at the top level changes nothing. */
  lemma BackAtRoot(s: Nav, k: string)
    requires s.stack == [] && IsBackKey(k)
    ensures Next(s, KeyPress(k)) == Step(s, ListCmd)
  {
  }

  /**
   * Back below the top level drops exactly the last folder and the last
   * breadcrumb, and shows the children of the folder dropped.
   */
  lemma BackPops(s: Nav, k: string)
    requires s.stack != [] && s.path != [] && IsBackKey(k)
    ensures var r := Next(s, KeyPress(k)).state;
            && s.stack == r.stack + [s.stack[|s.stack| - 1]]
            && s.path == r.path + [s.path[|s.path| - 1]]
            && r.items == Elems(s.stack[|s.stack| - 1].children)
  {
    var r := Next(s, KeyPress(k)).state;
    assert s.stack == s.stack[..|s.stack| - 1] + [s.stack[|s.stack| - 1]];
    assert s.path == s.path[..|s.path| - 1] + [s.path[|s.path| - 1]];
  }

  /**
   * Enter into a folder and straight back restores the stack and the path,
   * but the list then shows the folder's own children, not the level it was
   * entered from.
   */
  lemma EnterThenBack(s: Nav, n: Node, k: string)
    requires s.stack != [] ==> s.path != []
    requires Selected(s) == Some(n) && |Elems(n.children)| > 0 && IsBackKey(k)
    ensures var r := Next(Next(s, KeyPress("enter")).state, KeyPress(k)).state;
            && r.stack == s.stack && r.path == s.path
            && r.items == Elems(n.children)
  {
    var d := Descend(s, n);
    assert d.stack[..|d.stack| - 1] == s.stack;
    assert d.path[..|d.path| - 1] == s.path;
  }

  /** A concrete tree on which Enter then Back does not come back to the list it started from. */
  lemma BackShowsPoppedLevel(k: string)
    requires IsBackKey(k)
    ensures var leaf := Node("leaf", Nil, null);
            var folder := Node("F", List([leaf]), null);
            var s := Initial(List([folder]));
            var r := Next(Next(s, KeyPress("enter")).state, KeyPress(k)).state;
            r.path == s.path && r.items == [leaf] && r.items != s.items
  {
    var leaf := Node("leaf", Nil, null);
    var folder := Node("F", List([leaf]), null);
    var s := Initial(List([folder]));
    EnterThenBack(s, folder, k);
  }

  /** "q" and "ctrl+c" set the quitting flag and quit, and change nothing else. */
  lemma QuitKey(s: Nav, k: string)
    requires s.stack != [] ==> s.path != []
    requires IsQuitKey(k)
    ensures Next(s, KeyPress(k)) == Step(s.(quitting := true), QuitCmd)
    ensures View(Next(s, KeyPress(k)).state) == Goodbye(Farewell)
  {
  }

  /** Resizing the window leaves the state alone. */
  lemma WindowSizeKeepsState(s: Nav, w: int, h: int)
    requires s.stack != [] ==> s.path != []
    ensures Next(s, WindowSize(w, h)) == Step(s, NoCmd)
  {
  }

  // ---------------------------------------------------------------------
  // View (list.go:111-118) and the item label (list.go:35-55)
  // ---------------------------------------------------------------------

  /** The breadcrumb line above the list. */
  function Header(path: seq<string>): string
  {
    "\nCurrent Path: " + Join(path, " > ") + "\n"
  }

  /** What the navigator shows: the farewell, or the header over one label per item. */
  datatype Screen = Goodbye(text: string) | Listing(header: string, labels: seq<string>)

  function View(s: Nav): (r: Screen)
    ensures s.quitting <==> r.Goodbye?
    ensures r.Listing? ==> |r.labels| == |s.items|
  {
    if s.quitting then Goodbye(Farewell)
    else Listing(Header(s.path), seq(|s.items|, i requires 0 <= i < |s.items| => Label(s.items[i], i, s.cursor)))
  }

  /** The header of the starting state. */
  lemma HeaderAtStart(nl: NodeList)
    ensures View(Initial(nl)) == Listing("\nCurrent Path: Main List\n", View(Initial(nl)).labels)
  {
    JoinSingle(RootLabel, " > ");
  }

  /** Entering a folder adds ` > ` and its name to the breadcrumb line. */
  lemma HeaderAfterEnter(s: Nav, n: Node)
    requires s.stack != [] ==> s.path != []
    requires s.path != [] && !s.quitting
    requires Selected(s) == Some(n) && |Elems(n.children)| > 0
    ensures View(Next(s, KeyPress("enter")).state).header
            == "\nCurrent Path: " + Join(s.path, " > ") + " > " + n.name + "\n"
  {
    JoinAppend(s.path, n.name, " > ");
  }

  /** The name as listed: folders (a non-nil child list) get an icon. */
  function DisplayName(n: Node): string
  {
    if n.children.List? then FolderIcon + n.name else n.name
  }

  /** The text `Render` writes for item `index` when the cursor is at `cursor`. */
  function Label(n: Node, index: int, cursor: int): string
  {
    var str := "[ ] " + DisplayName(n);
    if index == cursor then ReplaceAll(Join([str], " "), "[ ]", "[x]") else str
  }

  /** The check box of the item, ticked under the cursor. */
  function Mark(index: int, cursor: int): string
  {
    if index == cursor then "[x] " else "[ ] "
  }

  /** Ticking the box of `"[ ] " + icon + name`, where the icon holds no `[`. */
  lemma TickedLabel(icon: string, name: string)
    requires '[' !in icon
    ensures ReplaceAll(Join(["[ ] " + icon + name], " "), "[ ]", "[x]")
            == "[x] " + icon + ReplaceAll(name, "[ ]", "[x]")
  {
    var rest := " " + icon;
    assert "[ ]" + " " == "[ ] " && "[x]" + " " == "[x] ";
    JoinSingle("[ ] " + icon + name, " ");
    Regroup("[ ]", " ", icon, name);
    ReplaceAllLeading(rest + name, "[ ]", "[x]");
    assert '[' !in rest;
    ReplaceAllSkipsPrefix(rest, name, "[ ]", "[x]");
    Regroup("[x]", " ", icon, ReplaceAll(name, "[ ]", "[x]"));
  }

  /** The two spellings of a four-part concatenation used by the labels. */
  lemma Regroup(a: string, b: string, c: string, d: string)
    ensures (a + b) + c + d == a + ((b + c) + d)
  {
  }

  /**
   * A label is the check box, the icon of a folder, and the name; under the
   * cursor, every `[ ]` inside the name is ticked too.
   */
  lemma LabelParts(n: Node, index: int, cursor: int)
    ensures Label(n, index, cursor)
            == Mark(index, cursor) + (if n.children.List? then FolderIcon else "")
               + (if index == cursor then ReplaceAll(n.name, "[ ]", "[x]") else n.name)
  {
    var icon := if n.children.List? then FolderIcon else "";
    assert DisplayName(n) == icon + n.name;
    assert "[ ] " + DisplayName(n) == "[ ] " + icon + n.name;
    if index == cursor {
      assert '[' !in icon;
      TickedLabel(icon, n.name);
    }
  }

  /** The label starts with a ticked box exactly under the cursor. */
  lemma LabelMark(n: Node, index: int, cursor: int)
    ensures |Label(n, index, cursor)| >= 4
    ensures Label(n, index, cursor)[..4] == if index == cursor then "[x] " else "[ ] "
  {
    LabelParts(n, index, cursor);
  }

  // ---------------------------------------------------------------------
  // The model object (list.go:57-62, 68-109, 121-147)
  // ---------------------------------------------------------------------

  /** The list items made from a child list, one per node, in order. */
  method ListItems(nl: NodeList) returns (items: seq<Node>)
    ensures items == Elems(nl)
  {
    var nodes := Elems(nl);
    items := [];
    for i := 0 to |nodes|
      invariant items == nodes[..i]
    {
      items := items + [nodes[i]];
    }
  }

  /** Go's `model`, updated in place through a pointer receiver. */
  class Model {
    var items: seq<Node>
    var cursor: nat
    var quitting: bool
    var stack: seq<Node>
    var path: seq<string>

    function State(): Nav
      reads this
    {
      Nav(items, cursor, quitting, stack, path)
    }

    /** The model `RenderList` hands to the runtime. */
    constructor (nl: NodeList)
      ensures State() == Initial(nl)
    {
      var top := ListItems(nl);
      items := top;
      cursor := 0;
      quitting := false;
      stack := [];
      path := [RootLabel];
    }

    /** Go's `updateList`: show the nodes of `nl`, keeping everything else. */
    method UpdateList(nl: NodeList)
      modifies this
      ensures items == Elems(nl)
      ensures cursor == old(cursor) && quitting == old(quitting)
      ensures stack == old(stack) && path == old(path)
    {
      var shown := ListItems(nl);
      items := shown;
    }

    /** Go's `Update`. */
    method Update(msg: Msg) returns (cmd: Cmd)
      requires stack != [] ==> path != []
      modifies this
      ensures Step(State(), cmd) == Next(old(State()), msg)
    {
      match msg {
        case WindowSize(_, _) =>
          return NoCmd;
        case Highlight(i) =>
          cursor := i;
          return ListCmd;
        case KeyPress(k) =>
          if k == "q" || k == "ctrl+c" {
            quitting := true;
            return QuitCmd;
          } else if k == "enter" {
            if cursor < |items| {
              var n := items[cursor];
              if |Elems(n.children)| > 0 {
                stack := stack + [n];
                path := path + [n.name];
                UpdateList(n.children);
              } else {
                return QuitCmd;
              }
            }
          } else if k == "backspace" || k == "esc" {
            if |stack| > 0 {
              path := path[..|path| - 1];
              var last := stack[|stack| - 1];
              stack := stack[..|stack| - 1];
              UpdateList(last.children);
            }
          }
          return ListCmd;
      }
    }
  }
}
