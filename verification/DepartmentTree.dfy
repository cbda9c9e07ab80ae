/** The department tree of the office-automation system, and its flattening into a list of departments. */
module DepartmentTree {
  import opened Stripping
  import opened Wrappers

  /** A node as received: a missing id is 0, a missing code or name is empty. */
  datatype OaNode = OaNode(id: int, treeCode: string, treeName: string, children: seq<OaNode>)
  {
    function Code(): string {
      Strip(treeCode)
    }

    function Name(): string {
      Strip(treeName)
    }

    predicate Complete() {
      id != 0 && Code() != "" && Name() != ""
    }

    predicate Blank() {
      id == 0 && Code() == "" && Name() == ""
    }

    function Department(parent: Option<int>): OaDepartment {
      OaDepartment(id, Code(), Name(), parent)
    }

    /** A node without an id passes its own parent on to its children. */
    function ParentOfChildren(parent: Option<int>): Option<int> {
      if id != 0 then Some(id) else parent
    }
  }

  datatype OaDepartment = OaDepartment(oaId: int, code: string, name: string, parent: Option<int>)

  datatype TreeError = IncompleteNode

  type Flat = Result<seq<OaDepartment>, TreeError>

  function Joined(first: seq<OaDepartment>, rest: Flat): (joined: Flat)
    ensures first == [] ==> joined == rest
  {
    assert rest.Success? && first == [] ==> first + rest.value == rest.value;
    if rest.Success? then Success(first + rest.value) else rest
  }

  function Flattened(nodes: seq<OaNode>, parent: Option<int>): Flat {
    if nodes == [] then Success([])
    else
      var node := nodes[0];
      if !node.Complete() && !node.Blank() then Failure(IncompleteNode)
      else
        var children := Flattened(node.children, node.ParentOfChildren(parent));
        if children.Failure? then children
        else
          Joined((if node.Complete() then [node.Department(parent)] else []) + children.value,
                 Flattened(nodes[1..], parent))
  }

  /** One turn of the loop of Flatten: node i and its children go from the rest to the result. */
  lemma {:induction false} OneNodeMore(before: seq<OaDepartment>, nodes: seq<OaNode>, i: nat, parent: Option<int>)
    requires i < |nodes|
    requires nodes[i].Complete() || nodes[i].Blank()
    ensures
      var children := Flattened(nodes[i].children, nodes[i].ParentOfChildren(parent));
      var own := if nodes[i].Complete() then before + [nodes[i].Department(parent)] else before;
      Joined(before, Flattened(nodes[i..], parent))
      == if children.Failure? then children else Joined(own + children.value, Flattened(nodes[i + 1..], parent))
  {
    var rest := nodes[i..];
    assert rest[0] == nodes[i] && rest[1..] == nodes[i + 1..];
    var own := if nodes[i].Complete() then [nodes[i].Department(parent)] else [];
    var children := Flattened(nodes[i].children, nodes[i].ParentOfChildren(parent));
    if children.Success? {
      JoinedTwice(before, own, children.value, Flattened(nodes[i + 1..], parent));
      hide Joined;
    }
  }

  lemma {:induction false} JoinedTwice(before: seq<OaDepartment>, own: seq<OaDepartment>, children: seq<OaDepartment>, rest: Flat)
    ensures Joined(before, Joined(own + children, rest)) == Joined((before + own) + children, rest)
    ensures own == [] ==> before + own == before
  {
    if rest.Success? {
      assert before + ((own + children) + rest.value) == ((before + own) + children) + rest.value;
    }
  }

  method Flatten(nodes: seq<OaNode>, parent: Option<int>) returns (r: Flat)
    ensures r == Flattened(nodes, parent)
    decreases nodes
  {
    hide OaNode.Complete, OaNode.Blank, OaNode.ParentOfChildren, OaNode.Department;
    var result: seq<OaDepartment> := [];
    var i := 0;
    assert nodes[0..] == nodes;
    while i < |nodes|
      invariant i <= |nodes|
      invariant Flattened(nodes, parent) == Joined(result, Flattened(nodes[i..], parent))
    {
      var node := nodes[i];
      ghost var before := result;
      if node.Complete() {
        result := result + [node.Department(parent)];
      } else if !node.Blank() {
        assert nodes[i..][0] == node;
        return Failure(IncompleteNode);
      }
      var children := Flatten(node.children, node.ParentOfChildren(parent));
      if children.Failure? {
        OneNodeMore(before, nodes, i, parent);
        return children;
      }
      result := result + children.value;
      OneNodeMore(before, nodes, i, parent);
      i := i + 1;
    }
    assert nodes[i..] == [] && result + [] == result;
    return Success(result);
  }

  // ---- What the list says of the tree ------------------------------------------------------------

  /** Every parent comes before its children. */
  predicate TopDown(departments: seq<OaDepartment>, root: Option<int>) {
    forall i :: 0 <= i < |departments| ==>
      departments[i].parent == root || Listed(departments[..i], departments[i].parent)
  }

  predicate Listed(departments: seq<OaDepartment>, parent: Option<int>) {
    exists j :: 0 <= j < |departments| && Some(departments[j].oaId) == parent
  }

  lemma {:induction false} ListedLonger(before: seq<OaDepartment>, departments: seq<OaDepartment>, parent: Option<int>)
    requires Listed(departments, parent)
    ensures Listed(before + departments, parent)
  {
    var j :| 0 <= j < |departments| && Some(departments[j].oaId) == parent;
    assert (before + departments)[|before| + j] == departments[j];
  }

  lemma {:induction false} TopDownJoined(first: seq<OaDepartment>, second: seq<OaDepartment>, root: Option<int>, inner: Option<int>)
    requires TopDown(first, root) && TopDown(second, inner)
    requires inner == root || Listed(first, inner)
    ensures TopDown(first + second, root)
  {
    var all := first + second;
    forall i | 0 <= i < |all| ensures all[i].parent == root || Listed(all[..i], all[i].parent) {
      if i < |first| {
        assert all[..i] == first[..i];
      } else {
        var k := i - |first|;
        assert all[..i] == first + second[..k];
        if second[k].parent == inner {
          if inner != root {
            var j :| 0 <= j < |first| && Some(first[j].oaId) == inner;
            assert all[..i][j] == first[j];
          }
        } else {
          ListedLonger(first, second[..k], second[k].parent);
        }
      }
    }
  }

  /** Flattening a tree of complete or blank nodes lists parents first. */
  lemma {:induction false} FlattenIsTopDown(nodes: seq<OaNode>, parent: Option<int>)
    requires Flattened(nodes, parent).Success?
    ensures TopDown(Flattened(nodes, parent).value, parent)
    decreases nodes
  {
    if nodes != [] {
      var node := nodes[0];
      var inner := node.ParentOfChildren(parent);
      var own := if node.Complete() then [node.Department(parent)] else [];
      var children, rest := Flattened(node.children, inner).value, Flattened(nodes[1..], parent).value;
      FlattenIsTopDown(node.children, inner);
      FlattenIsTopDown(nodes[1..], parent);
      assert inner == parent || own[0].oaId == inner.value;
      TopDownJoined(own, children, parent, inner);
      TopDownJoined(own + children, rest, parent, parent);
    }
  }

  /** Department d is a complete node of the forest, and its parent the nearest ancestor with an id. */
  ghost predicate Hangs(nodes: seq<OaNode>, parent: Option<int>, d: OaDepartment) {
    exists i :: 0 <= i < |nodes| && HangsAt(nodes[i], parent, d)
  }

  ghost predicate HangsAt(node: OaNode, parent: Option<int>, d: OaDepartment) {
    (node.Complete() && d == node.Department(parent)) || Hangs(node.children, node.ParentOfChildren(parent), d)
  }

  ghost predicate HasIncomplete(nodes: seq<OaNode>) {
    exists i :: 0 <= i < |nodes| && IsIncomplete(nodes[i])
  }

  ghost predicate IsIncomplete(node: OaNode) {
    (!node.Complete() && !node.Blank()) || HasIncomplete(node.children)
  }

  function CompleteNodes(nodes: seq<OaNode>): nat {
    if nodes == [] then 0
    else (if nodes[0].Complete() then 1 else 0) + CompleteNodes(nodes[0].children) + CompleteNodes(nodes[1..])
  }

  lemma {:induction false} HeadOrTail(nodes: seq<OaNode>, parent: Option<int>, d: OaDepartment)
    requires nodes != []
    ensures Hangs(nodes, parent, d) <==> HangsAt(nodes[0], parent, d) || Hangs(nodes[1..], parent, d)
    ensures HasIncomplete(nodes) <==> IsIncomplete(nodes[0]) || HasIncomplete(nodes[1..])
  {
    assert forall i :: 0 < i < |nodes| ==> nodes[i] == nodes[1..][i - 1];
    assert forall i :: 0 <= i < |nodes| - 1 ==> nodes[1..][i] == nodes[i + 1];
  }

  /** The list is refused exactly when some node is filled in only in part; else it holds each complete node once. */
  lemma {:induction false} FlattenListsTheTree(nodes: seq<OaNode>, parent: Option<int>, d: OaDepartment)
    ensures Flattened(nodes, parent).Failure? <==> HasIncomplete(nodes)
    ensures Flattened(nodes, parent).Success? ==>
              var list := Flattened(nodes, parent).value;
              (d in list <==> Hangs(nodes, parent, d)) && |list| == CompleteNodes(nodes)
    decreases nodes
  {
    if nodes != [] {
      var node := nodes[0];
      HeadOrTail(nodes, parent, d);
      FlattenListsTheTree(node.children, node.ParentOfChildren(parent), d);
      FlattenListsTheTree(nodes[1..], parent, d);
    }
  }

  predicate IsComplete(d: OaDepartment) {
    d.oaId != 0 && d.code != "" && d.name != "" && Strip(d.name) == d.name
  }

  lemma {:induction false} FlattenedAreComplete(nodes: seq<OaNode>, parent: Option<int>)
    requires Flattened(nodes, parent).Success?
    ensures forall d :: d in Flattened(nodes, parent).value ==> IsComplete(d)
    decreases nodes
  {
    if nodes != [] {
      var node := nodes[0];
      StripIsIdempotent(node.treeName);
      FlattenedAreComplete(node.children, node.ParentOfChildren(parent));
      FlattenedAreComplete(nodes[1..], parent);
    }
  }
}
