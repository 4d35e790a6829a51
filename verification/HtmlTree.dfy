/** The tolerant HTML tree builder of the schedule page, and the searches and texts taken from its
    tree. Nodes live in a sequence and refer to each other by position. */
module HtmlTree {
  import opened Wrappers
  import opened Whitespace

  datatype Item = Element(id: nat) | Data(text: string)

  datatype Node = Node(tag: string, attrs: map<string, string>, children: seq<Item>)

  datatype Event =
    | StartTag(tag: string, attrs: map<string, string>)
    | StartEndTag(tag: string, attrs: map<string, string>)
    | EndTag(tag: string)
    | Text(text: string)

  datatype State = State(nodes: seq<Node>, stack: seq<nat>)
  {
    function Top(): nat
      requires stack != []
    {
      stack[|stack| - 1]
    }
  }

  predicate Void(tag: string) {
    tag in {"br", "img", "input", "link", "meta", "hr"}
  }

  // ---------------------------------------------------------------- the stack is a path

  predicate Below(items: seq<Item>, above: int, length: nat) {
    forall i | 0 <= i < |items| && items[i].Element? :: above < items[i].id < length
  }

  /** Children come after their parent, so the tree has no cycle. */
  predicate Ordered(nodes: seq<Node>) {
    forall i | 0 <= i < |nodes| :: Below(nodes[i].children, i, |nodes|)
  }

  predicate LastChild(nodes: seq<Node>, parent: nat, child: nat)
    requires parent < |nodes|
  {
    var items := nodes[parent].children;
    items != [] && items[|items| - 1] == Element(child)
  }

  /** The stack starts at the root, each entry is the last child of the one below it, and no entry
      but the root is of a kind that takes no content. */
  predicate IsPath(nodes: seq<Node>, stack: seq<nat>) {
    && stack != [] && stack[0] == 0
    && (forall k | 0 <= k < |stack| :: stack[k] < |nodes|)
    && (forall k | 1 <= k < |stack| :: LastChild(nodes, stack[k - 1], stack[k]) && !Void(nodes[stack[k]].tag))
  }

  predicate Sound(s: State) {
    && s.nodes != [] && s.nodes[0].tag == "root"
    && Ordered(s.nodes) && IsPath(s.nodes, s.stack)
  }

  const Initial := State([Node("root", map[], [])], [0])

  function Append(s: State, item: Item): State
    requires Sound(s)
  {
    var top := s.nodes[s.Top()];
    s.(nodes := s.nodes[s.Top() := top.(children := top.children + [item])])
  }

  function Start(s: State, tag: string, attrs: map<string, string>): State
    requires Sound(s)
  {
    var id := |s.nodes|;
    var top := s.nodes[s.Top()];
    State(s.nodes[s.Top() := top.(children := top.children + [Element(id)])] + [Node(tag, attrs, [])],
          if Void(tag) then s.stack else s.stack + [id])
  }

  /** The stack below its highest entry with the tag; the root and an unknown tag are left alone. */
  function Closed(nodes: seq<Node>, stack: seq<nat>, tag: string, index: nat): seq<nat>
    requires index < |stack| && forall k | 0 <= k < |stack| :: stack[k] < |nodes|
  {
    if index == 0 then stack
    else if nodes[stack[index]].tag == tag then stack[..index]
    else Closed(nodes, stack, tag, index - 1)
  }

  function Step(s: State, e: Event): State
    requires Sound(s)
  {
    match e
    case StartTag(tag, attrs) => Start(s, tag, attrs)
    case StartEndTag(tag, attrs) => Start(s, tag, attrs).(stack := s.stack)
    case EndTag(tag) => s.(stack := Closed(s.nodes, s.stack, tag, |s.stack| - 1))
    case Text(text) => Append(s, Data(text))
  }

  lemma {:induction false} ClosedIsPrefix(nodes: seq<Node>, stack: seq<nat>, tag: string, index: nat)
    requires index < |stack| && forall k | 0 <= k < |stack| :: stack[k] < |nodes|
    ensures Closed(nodes, stack, tag, index) <= stack && Closed(nodes, stack, tag, index) != []
  {
    if index > 0 && nodes[stack[index]].tag != tag {
      ClosedIsPrefix(nodes, stack, tag, index - 1);
    }
  }

  /** Positions grow along the stack. */
  lemma {:induction false} StackGrows(s: State, j: nat, k: nat)
    requires Sound(s) && j < k < |s.stack|
    ensures s.stack[j] < s.stack[k]
  {
    assert LastChild(s.nodes, s.stack[k - 1], s.stack[k]);
    assert Below(s.nodes[s.stack[k - 1]].children, s.stack[k - 1], |s.nodes|);
    if j < k - 1 {
      StackGrows(s, j, k - 1);
    }
  }

  lemma AppendKeepsValid(s: State, item: Item)
    requires Sound(s) && item.Data?
    ensures Sound(Append(s, item))
  {
    var r := Append(s, item);
    forall i | 0 <= i < |r.nodes| ensures Below(r.nodes[i].children, i, |r.nodes|) {
      assert Below(s.nodes[i].children, i, |s.nodes|);
    }
    forall k | 1 <= k < |r.stack| ensures LastChild(r.nodes, r.stack[k - 1], r.stack[k]) && !Void(r.nodes[r.stack[k]].tag) {
      StackGrows(s, k - 1, |s.stack| - 1);
      assert LastChild(s.nodes, s.stack[k - 1], s.stack[k]);
    }
  }

  lemma StartKeepsOrdered(s: State, tag: string, attrs: map<string, string>)
    requires Sound(s)
    ensures Ordered(Start(s, tag, attrs).nodes)
  {
  }

  lemma StartKeepsPath(s: State, tag: string, attrs: map<string, string>)
    requires Sound(s)
    ensures Void(tag) ==> IsPath(Start(s, tag, attrs).nodes, s.stack)
    ensures !Void(tag) ==> IsPath(Start(s, tag, attrs).nodes, s.stack + [|s.nodes|])
  {
    var r := Start(s, tag, attrs);
    forall k | 1 <= k < |s.stack| ensures LastChild(r.nodes, s.stack[k - 1], s.stack[k]) && !Void(r.nodes[s.stack[k]].tag) {
      StackGrows(s, k - 1, |s.stack| - 1);
      assert LastChild(s.nodes, s.stack[k - 1], s.stack[k]);
    }
  }

  lemma StartKeepsValid(s: State, tag: string, attrs: map<string, string>)
    requires Sound(s)
    ensures Sound(Start(s, tag, attrs)) && Sound(Start(s, tag, attrs).(stack := s.stack))
  {
    StartKeepsOrdered(s, tag, attrs);
    StartKeepsPath(s, tag, attrs);
    var stack := Start(s, tag, attrs).stack;
    assert forall k | 0 <= k < |s.stack| :: stack[k] == s.stack[k];
  }

  /** Whatever the page sends, the stack stays a root-to-node path that holds the root. */
  lemma StepKeepsValid(s: State, e: Event)
    requires Sound(s)
    ensures Sound(Step(s, e))
  {
    match e
    case StartTag(tag, attrs) => StartKeepsValid(s, tag, attrs);
    case StartEndTag(tag, attrs) => StartKeepsValid(s, tag, attrs);
    case EndTag(tag) =>
      ClosedIsPrefix(s.nodes, s.stack, tag, |s.stack| - 1);
      var stack := Closed(s.nodes, s.stack, tag, |s.stack| - 1);
      forall k | 1 <= k < |stack| ensures LastChild(s.nodes, stack[k - 1], stack[k]) && !Void(s.nodes[stack[k]].tag) {
        assert stack[k] == s.stack[k] && stack[k - 1] == s.stack[k - 1];
      }
    case Text(text) => AppendKeepsValid(s, Data(text));
  }

  /** Text after a start tag goes into the new element, or beside it if it is one that takes no content. */
  lemma WhereTextGoes(s: State, tag: string, attrs: map<string, string>, text: string)
    requires Sound(s)
    ensures Sound(Step(s, StartTag(tag, attrs)))
    ensures var after := Step(Step(s, StartTag(tag, attrs)), Text(text));
            var empty := tag in {"br", "hr", "img", "input", "link", "meta"};
            && |after.nodes| == |s.nodes| + 1
            && after.nodes[|s.nodes|] == Node(tag, attrs, if empty then [] else [Data(text)])
            && after.nodes[s.Top()].children ==
                 s.nodes[s.Top()].children + [Element(|s.nodes|)] + (if empty then [Data(text)] else [])
  {
    StepKeepsValid(s, StartTag(tag, attrs));
  }

  /** A self-closing tag is a start tag followed by its end tag. */
  lemma SelfClosingIsStartThenEnd(s: State, tag: string, attrs: map<string, string>)
    requires Sound(s)
    ensures Sound(Start(s, tag, attrs))
    ensures Step(s, StartEndTag(tag, attrs)) == Step(Step(s, StartTag(tag, attrs)), EndTag(tag))
  {
    StartKeepsValid(s, tag, attrs);
    var r := Start(s, tag, attrs);
    if Void(tag) {
      UnknownTagIsIgnored(r, tag, |r.stack| - 1);
    } else {
      assert r.stack[..|s.stack|] == s.stack;
    }
  }

  lemma {:induction false} UnknownTagIsIgnored(s: State, tag: string, index: nat)
    requires Sound(s) && Void(tag) && index < |s.stack|
    ensures Closed(s.nodes, s.stack, tag, index) == s.stack
  {
    if index > 0 {
      UnknownTagIsIgnored(s, tag, index - 1);
    }
  }

  function Run(s: State, events: seq<Event>): (r: State)
    requires Sound(s)
    ensures Sound(r)
    decreases |events|
  {
    if events == [] then s
    else
      StepKeepsValid(s, events[0]);
      Run(Step(s, events[0]), events[1..])
  }

  lemma RunOne(s: State, e: Event, rest: seq<Event>)
    requires Sound(s)
    ensures Sound(Step(s, e)) && Run(s, [e] + rest) == Run(Step(s, e), rest)
  {
    StepKeepsValid(s, e);
    assert ([e] + rest)[1..] == rest;
  }

  lemma {:induction false} RunInTwoParts(s: State, a: seq<Event>, b: seq<Event>)
    requires Sound(s)
    ensures Run(s, a + b) == Run(Run(s, a), b)
    decreases |a|
  {
    if a == [] {
      assert a + b == b;
    } else {
      var e, rest := a[0], a[1..];
      assert a == [e] + rest && a + b == [e] + (rest + b);
      RunOne(s, e, rest);
      RunOne(s, e, rest + b);
      RunInTwoParts(Step(s, e), rest, b);
    }
  }

  // ---------------------------------------------------------------- the builder

  class ScheduleHtmlParser {
    var nodes: seq<Node>
    var stack: seq<nat>

    ghost predicate Valid()
      reads this
    {
      Sound(Value())
    }

    ghost function Value(): State
      reads this
    {
      State(nodes, stack)
    }

    constructor ()
      ensures Valid() && Value() == Initial
    {
      nodes := [Node("root", map[], [])];
      stack := [0];
    }

    method HandleStartTag(tag: string, attrs: map<string, string>)
      requires Valid()
      modifies this
      ensures Valid() && Value() == Step(old(Value()), StartTag(tag, attrs))
    {
      StepKeepsValid(Value(), StartTag(tag, attrs));
      var id := |nodes|;
      var top := stack[|stack| - 1];
      nodes := nodes[top := nodes[top].(children := nodes[top].children + [Element(id)])] + [Node(tag, attrs, [])];
      if !Void(tag) {
        stack := stack + [id];
      }
    }

    method HandleStartEndTag(tag: string, attrs: map<string, string>)
      requires Valid()
      modifies this
      ensures Valid() && Value() == Step(old(Value()), StartEndTag(tag, attrs))
    {
      StepKeepsValid(Value(), StartEndTag(tag, attrs));
      HandleStartTag(tag, attrs);
      if !Void(tag) {
        stack := stack[..|stack| - 1];
      }
      assert stack == old(stack);
    }

    method HandleEndTag(tag: string)
      requires Valid()
      modifies this
      ensures Valid() && Value() == Step(old(Value()), EndTag(tag))
    {
      StepKeepsValid(Value(), EndTag(tag));
      for index := |stack| downto 1
        invariant nodes == old(nodes) && stack == old(stack)
        invariant index >= 1 && Closed(nodes, stack, tag, |stack| - 1) == Closed(nodes, stack, tag, index - 1)
      {
        if nodes[stack[index]].tag == tag {
          stack := stack[..index];
          return;
        }
      }
    }

    method HandleData(text: string)
      requires Valid()
      modifies this
      ensures Valid() && Value() == Step(old(Value()), Text(text))
    {
      StepKeepsValid(Value(), Text(text));
      var top := stack[|stack| - 1];
      nodes := nodes[top := nodes[top].(children := nodes[top].children + [Data(text)])];
    }
  }

  // ---------------------------------------------------------------- the tree as a value

  /** A list of siblings: a text or an element with its children, and the siblings after it. */
  datatype Forest =
    | Nil
    | Leaf(text: string, rest: Forest)
    | Branch(tag: string, attrs: map<string, string>, children: Forest, rest: Forest)

  function ForestOf(nodes: seq<Node>, above: nat, items: seq<Item>): Forest
    requires Ordered(nodes) && Below(items, above, |nodes|)
    decreases |nodes| - above, |items|
  {
    if items == [] then Nil
    else
      match items[0]
      case Data(text) => Leaf(text, ForestOf(nodes, above, items[1..]))
      case Element(id) =>
        Branch(nodes[id].tag, nodes[id].attrs, ForestOf(nodes, id, nodes[id].children), ForestOf(nodes, above, items[1..]))
  }

  function Serialized(f: Forest): seq<Event> {
    match f
    case Nil => []
    case Leaf(text, rest) => [Text(text)] + Serialized(rest)
    case Branch(tag, attrs, children, rest) =>
      [StartTag(tag, attrs)] + (Serialized(children) + ([EndTag(tag)] + Serialized(rest)))
  }

  function Joined(f: Forest, g: Forest): Forest {
    match f
    case Nil => g
    case Leaf(text, rest) => Leaf(text, Joined(rest, g))
    case Branch(tag, attrs, children, rest) => Branch(tag, attrs, children, Joined(rest, g))
  }

  /** The content of an element that takes none follows it. */
  function Hoisted(f: Forest): Forest {
    match f
    case Nil => Nil
    case Leaf(text, rest) => Leaf(text, Hoisted(rest))
    case Branch(tag, attrs, children, rest) =>
      if Void(tag) then Branch(tag, attrs, Nil, Joined(Hoisted(children), Hoisted(rest)))
      else Branch(tag, attrs, Hoisted(children), Hoisted(rest))
  }

  lemma {:induction false} ForestOfParts(nodes: seq<Node>, above: nat, a: seq<Item>, b: seq<Item>)
    requires Ordered(nodes) && Below(a, above, |nodes|) && Below(b, above, |nodes|)
    ensures Below(a + b, above, |nodes|)
    ensures ForestOf(nodes, above, a + b) == Joined(ForestOf(nodes, above, a), ForestOf(nodes, above, b))
    decreases |a|
  {
    if a == [] {
      assert a + b == b;
    } else {
      ForestOfParts(nodes, above, a[1..], b);
      assert (a + b)[1..] == a[1..] + b;
    }
  }

  /** A forest only depends on the nodes above its position, not on those added later. */
  lemma {:induction false} SameForest(nodes: seq<Node>, nodes': seq<Node>, above: nat, above': nat, items: seq<Item>)
    requires Ordered(nodes) && Ordered(nodes') && |nodes| <= |nodes'|
    requires Below(items, above, |nodes|) && above' <= above
    requires forall i | above < i < |nodes| :: nodes'[i] == nodes[i]
    ensures Below(items, above', |nodes'|)
    ensures ForestOf(nodes', above', items) == ForestOf(nodes, above, items)
    decreases |nodes| - above, |items|
  {
    if items != [] {
      SameForest(nodes, nodes', above, above', items[1..]);
      if items[0].Element? {
        var id := items[0].id;
        assert Below(nodes[id].children, id, |nodes|);
        SameForest(nodes, nodes', id, id, nodes[id].children);
      }
    }
  }

  /** `s'` is `s` with some items added at the top of the stack, and nothing else. */
  ghost predicate Grew(s: State, s': State, items: seq<Item>)
    requires Sound(s)
  {
    && Sound(s') && s'.stack == s.stack && |s.nodes| <= |s'.nodes|
    && (forall i | 0 <= i < |s.nodes| && i != s.Top() :: s'.nodes[i] == s.nodes[i])
    && s'.nodes[s.Top()] == s.nodes[s.Top()].(children := s.nodes[s.Top()].children + items)
    && Below(items, |s.nodes| - 1, |s'.nodes|)
  }

  lemma GrewOn(s: State, s1: State, s2: State, a: seq<Item>, b: seq<Item>)
    requires Sound(s) && Grew(s, s1, a) && Grew(s1, s2, b)
    ensures Grew(s, s2, a + b)
  {
  }

  lemma StillThere(s: State, s1: State, s2: State, a: seq<Item>, b: seq<Item>)
    requires Sound(s) && Grew(s, s1, a) && Grew(s1, s2, b)
    ensures Below(a, s.Top(), |s1.nodes|) && Below(a, s.Top(), |s2.nodes|)
    ensures ForestOf(s2.nodes, s.Top(), a) == ForestOf(s1.nodes, s.Top(), a)
  {
    SameForest(s1.nodes, s2.nodes, |s.nodes| - 1, s.Top(), a);
    SameForest(s1.nodes, s1.nodes, |s.nodes| - 1, s.Top(), a);
  }

  lemma GrewTwice(s: State, s1: State, s2: State, a: seq<Item>, b: seq<Item>)
    requires Sound(s) && Grew(s, s1, a) && Grew(s1, s2, b)
    ensures Grew(s, s2, a + b)
    ensures Below(a, s.Top(), |s2.nodes|) && Below(b, s.Top(), |s2.nodes|) && Below(a, s.Top(), |s1.nodes|)
    ensures ForestOf(s2.nodes, s.Top(), a + b) == Joined(ForestOf(s1.nodes, s.Top(), a), ForestOf(s2.nodes, s.Top(), b))
  {
    GrewOn(s, s1, s2, a, b);
    StillThere(s, s1, s2, a, b);
    ForestOfParts(s2.nodes, s.Top(), a, b);
  }

  /** A text adds one item. */
  lemma TextGrows(s: State, text: string)
    requires Sound(s)
    ensures Grew(s, Append(s, Data(text)), [Data(text)])
    ensures ForestOf(Append(s, Data(text)).nodes, s.Top(), [Data(text)]) == Leaf(text, Nil)
  {
    AppendKeepsValid(s, Data(text));
  }

  /** An element that takes no content adds one item and stays closed. */
  lemma VoidGrows(s: State, tag: string, attrs: map<string, string>)
    requires Sound(s) && Void(tag)
    ensures Grew(s, Start(s, tag, attrs), [Element(|s.nodes|)])
    ensures ForestOf(Start(s, tag, attrs).nodes, s.Top(), [Element(|s.nodes|)]) == Branch(tag, attrs, Nil, Nil)
  {
    StartKeepsValid(s, tag, attrs);
  }

  /** An element whose content was added at the top of the stack is closed by its end tag. */
  lemma ElementGrows(s: State, tag: string, attrs: map<string, string>, s2: State, content: seq<Item>)
    requires Sound(s) && !Void(tag) && Sound(Start(s, tag, attrs)) && Grew(Start(s, tag, attrs), s2, content)
    ensures Below(content, |s.nodes|, |s2.nodes|)
    ensures Grew(s, Step(s2, EndTag(tag)), [Element(|s.nodes|)])
    ensures ForestOf(s2.nodes, s.Top(), [Element(|s.nodes|)]) == Branch(tag, attrs, ForestOf(s2.nodes, |s.nodes|, content), Nil)
  {
    var id := |s.nodes|;
    var s1 := Start(s, tag, attrs);
    assert s1.nodes[id] == Node(tag, attrs, []) && s1.Top() == id;
    assert s2.nodes[id] == Node(tag, attrs, [] + content);
    assert [] + content == content;
    StepKeepsValid(s2, EndTag(tag));
    assert s2.stack[..|s.stack|] == s.stack;
  }

  lemma ElementThenRest(s: State, tag: string, attrs: map<string, string>, s2: State, content: seq<Item>, s3: State, s4: State, more: seq<Item>)
    requires Sound(s) && !Void(tag) && Sound(Start(s, tag, attrs)) && Grew(Start(s, tag, attrs), s2, content)
    requires Sound(s3) && s3 == Step(s2, EndTag(tag)) && Grew(s3, s4, more)
    ensures Below(content, |s.nodes|, |s2.nodes|)
    ensures Below(more, s.Top(), |s4.nodes|) && Below([Element(|s.nodes|)] + more, s.Top(), |s4.nodes|)
    ensures Grew(s, s4, [Element(|s.nodes|)] + more)
    ensures ForestOf(s4.nodes, s.Top(), [Element(|s.nodes|)] + more) ==
            Branch(tag, attrs, ForestOf(s2.nodes, |s.nodes|, content), ForestOf(s4.nodes, s.Top(), more))
  {
    ElementGrows(s, tag, attrs, s2, content);
    GrewTwice(s, s3, s4, [Element(|s.nodes|)], more);
  }

  /** Reading a written forest adds it at the top of the stack, with the content of elements that
      take none moved behind them. */
  lemma {:induction false} ReadsForest(s: State, f: Forest) returns (items: seq<Item>)
    requires Sound(s)
    ensures Grew(s, Run(s, Serialized(f)), items)
    ensures Below(items, s.Top(), |Run(s, Serialized(f)).nodes|)
    ensures ForestOf(Run(s, Serialized(f)).nodes, s.Top(), items) == Hoisted(f)
    decreases f
  {
    match f
    case Nil =>
      items := [];
      assert s.nodes[s.Top()].children + [] == s.nodes[s.Top()].children;
    case Leaf(text, rest) =>
      RunOne(s, Text(text), Serialized(rest));
      var s1 := Append(s, Data(text));
      TextGrows(s, text);
      var more := ReadsForest(s1, rest);
      GrewTwice(s, s1, Run(s1, Serialized(rest)), [Data(text)], more);
      items := [Data(text)] + more;
    case Branch(tag, attrs, children, rest) =>
      if Void(tag) {
        items := ReadsVoid(s, tag, attrs, children, rest);
      } else {
        items := ReadsElement(s, tag, attrs, children, rest);
      }
  }

  lemma RunElement(s: State, tag: string, attrs: map<string, string>, children: Forest, rest: Forest)
    requires Sound(s)
    ensures Sound(Start(s, tag, attrs))
    ensures var s2 := Run(Start(s, tag, attrs), Serialized(children));
            Sound(Step(s2, EndTag(tag))) &&
            Run(s, Serialized(Branch(tag, attrs, children, rest))) == Run(Step(s2, EndTag(tag)), Serialized(rest))
  {
    var after := [EndTag(tag)] + Serialized(rest);
    RunOne(s, StartTag(tag, attrs), Serialized(children) + after);
    var s1 := Start(s, tag, attrs);
    RunInTwoParts(s1, Serialized(children), after);
    RunOne(Run(s1, Serialized(children)), EndTag(tag), Serialized(rest));
  }

  lemma {:induction false} ReadsVoid(s: State, tag: string, attrs: map<string, string>, children: Forest, rest: Forest) returns (items: seq<Item>)
    requires Sound(s) && Void(tag)
    ensures Grew(s, Run(s, Serialized(Branch(tag, attrs, children, rest))), items)
    ensures Below(items, s.Top(), |Run(s, Serialized(Branch(tag, attrs, children, rest))).nodes|)
    ensures ForestOf(Run(s, Serialized(Branch(tag, attrs, children, rest))).nodes, s.Top(), items) ==
            Branch(tag, attrs, Nil, Joined(Hoisted(children), Hoisted(rest)))
    decreases Branch(tag, attrs, children, rest), 0
  {
    RunElement(s, tag, attrs, children, rest);
    var s1 := Start(s, tag, attrs);
    var s2 := Run(s1, Serialized(children));
    UnknownTagIsIgnored(s2, tag, |s2.stack| - 1);
    var s3 := Run(s2, Serialized(rest));
    VoidGrows(s, tag, attrs);
    var inner := ReadsForest(s1, children);
    var more := ReadsForest(s2, rest);
    GrewTwice(s1, s2, s3, inner, more);
    GrewTwice(s, s1, s3, [Element(|s.nodes|)], inner + more);
    items := [Element(|s.nodes|)] + (inner + more);
  }

  lemma {:induction false} ReadsElement(s: State, tag: string, attrs: map<string, string>, children: Forest, rest: Forest) returns (items: seq<Item>)
    requires Sound(s) && !Void(tag)
    ensures Grew(s, Run(s, Serialized(Branch(tag, attrs, children, rest))), items)
    ensures Below(items, s.Top(), |Run(s, Serialized(Branch(tag, attrs, children, rest))).nodes|)
    ensures ForestOf(Run(s, Serialized(Branch(tag, attrs, children, rest))).nodes, s.Top(), items) ==
            Branch(tag, attrs, Hoisted(children), Hoisted(rest))
    decreases Branch(tag, attrs, children, rest), 0
  {
    RunElement(s, tag, attrs, children, rest);
    var s1 := Start(s, tag, attrs);
    var s2 := Run(s1, Serialized(children));
    var s3 := Step(s2, EndTag(tag));
    var inner := ReadsForest(s1, children);
    var more := ReadsForest(s3, rest);
    ElementThenRest(s, tag, attrs, s2, inner, s3, Run(s3, Serialized(rest)), more);
    items := [Element(|s.nodes|)] + more;
  }

  /** Reading a written document gives it back, up to the content of elements that take none. */
  lemma WrittenDocumentReadsBack(f: Forest)
    ensures Sound(Initial)
    ensures var r := Run(Initial, Serialized(f));
            r.stack == [0] && ForestOf(r.nodes, 0, r.nodes[0].children) == Hoisted(f)
  {
    assert Sound(Initial);
    var items := ReadsForest(Initial, f);
    assert [] + items == items;
  }

  predicate VoidsAreEmpty(f: Forest) {
    match f
    case Nil => true
    case Leaf(_, rest) => VoidsAreEmpty(rest)
    case Branch(tag, _, children, rest) =>
      (Void(tag) ==> children == Nil) && VoidsAreEmpty(children) && VoidsAreEmpty(rest)
  }

  /** The document comes back unchanged exactly when no element that takes no content has any. */
  lemma {:induction false} HoistedIsSameIff(f: Forest)
    ensures Hoisted(f) == f <==> VoidsAreEmpty(f)
  {
    match f
    case Nil =>
    case Leaf(_, rest) => HoistedIsSameIff(rest);
    case Branch(tag, attrs, children, rest) =>
      HoistedIsSameIff(children);
      HoistedIsSameIff(rest);
  }

  // ---------------------------------------------------------------- texts

  function RawText(f: Forest): string {
    match f
    case Nil => ""
    case Leaf(text, rest) => text + RawText(rest)
    case Branch(_, _, children, rest) => RawText(children) + RawText(rest)
  }

  function Count(f: Forest): nat {
    match f
    case Nil => 0
    case Leaf(_, rest) => 1 + Count(rest)
    case Branch(_, _, children, rest) => 1 + Count(children) + Count(rest)
  }

  lemma {:induction false} JoinedText(f: Forest, g: Forest)
    ensures RawText(Joined(f, g)) == RawText(f) + RawText(g)
    ensures Count(Joined(f, g)) == Count(f) + Count(g)
  {
    match f
    case Nil => assert "" + RawText(g) == RawText(g);
    case Leaf(_, rest) => JoinedText(rest, g);
    case Branch(_, _, _, rest) => JoinedText(rest, g);
  }

  /** No text of a document is lost or moved by hoisting. */
  lemma {:induction false} HoistingKeepsText(f: Forest)
    ensures RawText(Hoisted(f)) == RawText(f)
  {
    match f
    case Nil =>
    case Leaf(_, rest) => HoistingKeepsText(rest);
    case Branch(_, _, children, rest) =>
      HoistingKeepsText(children);
      HoistingKeepsText(rest);
      JoinedText(Hoisted(children), Hoisted(rest));
      assert "" + RawText(Joined(Hoisted(children), Hoisted(rest))) == RawText(children) + RawText(rest);
  }

  function Reversed(items: seq<Item>): seq<Item> {
    if items == [] then [] else Reversed(items[1..]) + [items[0]]
  }

  lemma {:induction false} ReversedParts(a: seq<Item>, b: seq<Item>)
    ensures Reversed(a + b) == Reversed(b) + Reversed(a)
  {
    if a == [] {
      assert a + b == b;
    } else {
      ReversedParts(a[1..], b);
      assert (a + b)[1..] == a[1..] + b;
    }
  }

  lemma {:induction false} ReversedTwice(items: seq<Item>)
    ensures Reversed(Reversed(items)) == items && |Reversed(items)| == |items|
    ensures forall i | 0 <= i < |items| :: Reversed(items)[i] == items[|items| - 1 - i]
  {
    if items != [] {
      ReversedTwice(items[1..]);
      ReversedParts(Reversed(items[1..]), [items[0]]);
      assert [items[0]] + items[1..] == items;
    }
  }

  /** The content of a node as a value. */
  function Content(nodes: seq<Node>, id: nat): Forest
    requires Ordered(nodes) && id < |nodes|
  {
    ForestOf(nodes, id, nodes[id].children)
  }

  lemma ContentBelow(nodes: seq<Node>, id: nat)
    requires Ordered(nodes) && id < |nodes|
    ensures Below(nodes[id].children, 0, |nodes|)
    ensures ForestOf(nodes, 0, nodes[id].children) == Content(nodes, id)
  {
    assert Below(nodes[id].children, id, |nodes|);
    SameForest(nodes, nodes, id, 0, nodes[id].children);
  }

  /** Taking an element off the stack of pending items and putting its children on keeps the text
      that is still to come, and makes the pending forest smaller. */
  lemma {:induction false} TakeElement(nodes: seq<Node>, rest: seq<Item>, id: nat)
    requires Ordered(nodes) && Below(rest, 0, |nodes|) && 0 < id < |nodes|
    ensures Below([Element(id)] + rest, 0, |nodes|) && Below(nodes[id].children + rest, 0, |nodes|)
    ensures RawText(ForestOf(nodes, 0, [Element(id)] + rest)) == RawText(ForestOf(nodes, 0, nodes[id].children + rest))
    ensures Count(ForestOf(nodes, 0, [Element(id)] + rest)) == 1 + Count(ForestOf(nodes, 0, nodes[id].children + rest))
  {
    ContentBelow(nodes, id);
    var f := ForestOf(nodes, 0, rest);
    assert ([Element(id)] + rest)[1..] == rest;
    ForestOfParts(nodes, 0, nodes[id].children, rest);
    JoinedText(Content(nodes, id), f);
  }

  lemma TakeData(nodes: seq<Node>, rest: seq<Item>, text: string)
    requires Ordered(nodes) && Below(rest, 0, |nodes|)
    ensures Below([Data(text)] + rest, 0, |nodes|)
    ensures ForestOf(nodes, 0, [Data(text)] + rest) == Leaf(text, ForestOf(nodes, 0, rest))
  {
  }

  lemma ReversedLast(items: seq<Item>)
    requires items != []
    ensures Reversed(items) == [items[|items| - 1]] + Reversed(items[..|items| - 1])
  {
    var init, last := items[..|items| - 1], items[|items| - 1];
    assert items == init + [last];
    ReversedParts(init, [last]);
    assert Reversed([last]) == [last];
  }

  /** The text of a node, collected with an explicit stack, is its recursive left-to-right text. */
  method NodeText(nodes: seq<Node>, id: nat) returns (text: string)
    requires Ordered(nodes) && id < |nodes|
    ensures text == Normalized(RawText(Content(nodes, id)))
  {
    var parts := "";
    var pending := Reversed(nodes[id].children);
    ContentBelow(nodes, id);
    ReversedTwice(nodes[id].children);
    while pending != []
      invariant Below(Reversed(pending), 0, |nodes|)
      invariant parts + RawText(ForestOf(nodes, 0, Reversed(pending))) == RawText(Content(nodes, id))
      decreases Count(ForestOf(nodes, 0, Reversed(pending)))
    {
      var item := pending[|pending| - 1];
      ReversedLast(pending);
      pending := pending[..|pending| - 1];
      ghost var rest := Reversed(pending);
      assert Below(rest, 0, |nodes|) by {
        assert forall i | 0 <= i < |rest| :: rest[i] == ([item] + rest)[i + 1];
      }
      match item
      case Data(data) =>
        TakeData(nodes, rest, data);
        assert parts + (data + RawText(ForestOf(nodes, 0, rest))) == parts + data + RawText(ForestOf(nodes, 0, rest));
        parts := parts + data;
      case Element(child) =>
        assert ([item] + rest)[0] == item;
        TakeElement(nodes, rest, child);
        ReversedParts(pending, Reversed(nodes[child].children));
        ReversedTwice(nodes[child].children);
        pending := pending + Reversed(nodes[child].children);
    }
    assert parts + "" == parts;
    text := Normalized(parts);
  }

  // ---------------------------------------------------------------- searches

  function Classes(n: Node): seq<string> {
    if "class" in n.attrs then WordsFrom("", n.attrs["class"]) else []
  }

  /** A node has the classes that its attribute names between white space, and none without it. */
  lemma ClassesOfANode(n: Node, a: string, b: string)
    requires IsWord(a) && IsWord(b)
    ensures Classes(n.(attrs := map["class" := a])) == [a]
    ensures Classes(n.(attrs := map["class" := a + ([' '] + b)])) == [a, b]
    ensures Classes(n.(attrs := n.attrs - {"class"})) == []
  {
    WordIsOneWord(a);
    WordIsOneWord(b);
    SpaceSeparates("", a, ' ', b);
  }

  /** The elements below a node that have a class, parents before children and left before right. */
  function NodesWithClass(nodes: seq<Node>, above: nat, items: seq<Item>, c: string): seq<nat>
    requires Ordered(nodes) && Below(items, above, |nodes|)
    decreases |nodes| - above, |items|
  {
    if items == [] then []
    else
      (match items[0]
       case Data(_) => []
       case Element(id) => (if c in Classes(nodes[id]) then [id] else []) + NodesWithClass(nodes, id, nodes[id].children, c))
      + NodesWithClass(nodes, above, items[1..], c)
  }

  function FirstNodeWithClass(nodes: seq<Node>, above: nat, items: seq<Item>, c: string): Option<nat>
    requires Ordered(nodes) && Below(items, above, |nodes|)
    decreases |nodes| - above, |items|
  {
    if items == [] then None
    else
      match items[0]
      case Data(_) => FirstNodeWithClass(nodes, above, items[1..], c)
      case Element(id) =>
        if c in Classes(nodes[id]) then Some(id)
        else
          var nested := FirstNodeWithClass(nodes, id, nodes[id].children, c);
          if nested.Some? then nested else FirstNodeWithClass(nodes, above, items[1..], c)
  }

  /** The search for one element stops at the first of all the elements with the class. */
  lemma {:induction false} FirstIsFirstOfAll(nodes: seq<Node>, above: nat, items: seq<Item>, c: string)
    requires Ordered(nodes) && Below(items, above, |nodes|)
    ensures var all := NodesWithClass(nodes, above, items, c);
            FirstNodeWithClass(nodes, above, items, c) == if all == [] then None else Some(all[0])
    decreases |nodes| - above, |items|
  {
    if items != [] {
      FirstIsFirstOfAll(nodes, above, items[1..], c);
      if items[0].Element? {
        var id := items[0].id;
        assert Below(nodes[id].children, id, |nodes|);
        FirstIsFirstOfAll(nodes, id, nodes[id].children, c);
      }
    }
  }
}
