/**
 annotateComments of `internal/config/config.go`: it walks a YAML node tree in
 place and sets the head comment of every mapping key whose dotted path is
 documented.
 */
module Annotate {
  import opened Common

  datatype Kind = Document | Mapping | Sequence | Scalar | Alias

  /** The value of a node tree. */
  datatype Tree = Tree(kind: Kind, value: string, comment: string, children: seq<Tree>)

  function Path(prefix: string, key: string): string { if prefix != "" then prefix + "." + key else key }

  /** Paths are keys joined by dots. */
  lemma PathExact(prefix: string, key: string)
    ensures Path("", key) == key
    ensures prefix != "" ==> Path(prefix, key) == prefix + "." + key
  {
  }

  /** A key node with the comment documented for its path, if any. */
  function Documented(key: Tree, path: string, docs: map<string, string>): Tree {
    if path in docs then key.(comment := docs[path]) else key
  }

  /** The tree after the walk: documents and mappings get new children, everything else stays. */
  function Annotated(t: Tree, prefix: string, docs: map<string, string>): Tree
    decreases t, 1
  {
    if t.kind.Document? || t.kind.Mapping? then
      t.(children := seq(|t.children|, i requires 0 <= i < |t.children| => AnnotatedChild(t, i, prefix, docs)))
    else t
  }

  /** In a mapping the odd children are the values, and the even ones that a value follows are the keys. */
  function AnnotatedChild(t: Tree, i: nat, prefix: string, docs: map<string, string>): Tree
    requires i < |t.children|
    decreases t, 0
  {
    match t.kind
    case Document => Annotated(t.children[i], prefix, docs)
    case Mapping =>
      if i % 2 == 1 then Annotated(t.children[i], Path(prefix, t.children[i - 1].value), docs)
      else if i + 1 < |t.children| then Documented(t.children[i], Path(prefix, t.children[i].value), docs)
      else t.children[i]
    case _ => t.children[i]
  }

  lemma ChildIs(t: Tree, i: nat, prefix: string, docs: map<string, string>)
    requires i < |t.children|
    ensures var r := Annotated(t, prefix, docs);
            |r.children| == |t.children| && r.children[i] == AnnotatedChild(t, i, prefix, docs)
  {}

  // ----- properties of the walk -----

  function Erase(t: Tree): Tree
    decreases t
  {
    Tree(t.kind, t.value, "", seq(|t.children|, i requires 0 <= i < |t.children| => Erase(t.children[i])))
  }

  /** Without its comments the tree is the one it was. */
  lemma {:induction false} OnlyComments(t: Tree, prefix: string, docs: map<string, string>)
    ensures Erase(Annotated(t, prefix, docs)) == Erase(t)
    decreases t, 1
  {
    var r := Annotated(t, prefix, docs);
    forall i | 0 <= i < |t.children| ensures Erase(r.children[i]) == Erase(t.children[i]) {
      ChildIs(t, i, prefix, docs);
      OnlyCommentsOfChild(t, i, prefix, docs);
    }
    assert Erase(r).children == Erase(t).children;
  }

  lemma {:induction false} OnlyCommentsOfChild(t: Tree, i: nat, prefix: string, docs: map<string, string>)
    requires i < |t.children|
    ensures Erase(AnnotatedChild(t, i, prefix, docs)) == Erase(t.children[i])
    decreases t, 0
  {
    if t.kind.Document? { OnlyComments(t.children[i], prefix, docs); }
    else if t.kind.Mapping? && i % 2 == 1 { OnlyComments(t.children[i], Path(prefix, t.children[i - 1].value), docs); }
  }

  /** A second pass changes nothing. */
  lemma {:induction false} SecondPass(t: Tree, prefix: string, docs: map<string, string>)
    ensures Annotated(Annotated(t, prefix, docs), prefix, docs) == Annotated(t, prefix, docs)
    decreases t, 1
  {
    var r := Annotated(t, prefix, docs);
    var q := Annotated(r, prefix, docs);
    forall i | 0 <= i < |t.children| ensures q.children[i] == r.children[i] {
      ChildIs(t, i, prefix, docs);
      ChildIs(r, i, prefix, docs);
      SecondPassOfChild(t, i, prefix, docs);
    }
    assert q.children == r.children;
  }

  lemma {:induction false} SecondPassOfChild(t: Tree, i: nat, prefix: string, docs: map<string, string>)
    requires i < |t.children|
    ensures i < |Annotated(t, prefix, docs).children|
    ensures AnnotatedChild(Annotated(t, prefix, docs), i, prefix, docs) == AnnotatedChild(t, i, prefix, docs)
    decreases t, 0
  {
    ChildIs(t, i, prefix, docs);
    if t.kind.Document? { SecondPass(t.children[i], prefix, docs); }
    else if t.kind.Mapping? && i % 2 == 1 {
      ChildIs(t, i - 1, prefix, docs);
      SecondPass(t.children[i], Path(prefix, t.children[i - 1].value), docs);
    }
  }

  // ----- which comments -----

  /** Whether an address, a list of child numbers from the root, leads to a node. */
  predicate Leads(t: Tree, address: seq<nat>)
    decreases |address|
  {
    address == [] || (address[0] < |t.children| && Leads(t.children[address[0]], address[1..]))
  }

  function CommentAt(t: Tree, address: seq<nat>): string
    requires Leads(t, address)
    decreases |address|
  {
    if address == [] then t.comment else CommentAt(t.children[address[0]], address[1..])
  }

  /**
   The dotted path of the mapping key at an address that is reached through
   documents and mapping values; None for every other node.
   */
  function KeyPath(t: Tree, prefix: string, address: seq<nat>): Option<string>
    requires Leads(t, address)
    decreases |address|
  {
    if address == [] then None
    else
      var i := address[0];
      match t.kind
      case Document => KeyPath(t.children[i], prefix, address[1..])
      case Mapping =>
        if i % 2 == 1 then KeyPath(t.children[i], Path(prefix, t.children[i - 1].value), address[1..])
        else if i + 1 < |t.children| && |address| == 1 then Some(Path(prefix, t.children[i].value))
        else None
      case _ => None
  }

  /**
   After the walk, the comment of every node is the documented one if the node
   is a mapping key with a documented path, and its old one otherwise.
   */
  lemma {:induction false} CommentsExact(t: Tree, prefix: string, docs: map<string, string>, address: seq<nat>)
    requires Leads(t, address)
    ensures Leads(Annotated(t, prefix, docs), address)
    ensures var path := KeyPath(t, prefix, address);
            CommentAt(Annotated(t, prefix, docs), address) ==
            if path.Some? && path.value in docs then docs[path.value] else CommentAt(t, address)
    decreases |address|
  {
    if address != [] {
      var i, rest := address[0], address[1..];
      ChildIs(t, i, prefix, docs);
      if t.kind.Document? {
        CommentsExact(t.children[i], prefix, docs, rest);
      } else if t.kind.Mapping? && i % 2 == 1 {
        CommentsExact(t.children[i], Path(prefix, t.children[i - 1].value), docs, rest);
      } else {
        assert AnnotatedChild(t, i, prefix, docs).children == t.children[i].children;
      }
    }
  }

  /** The keys on the way to the mapping key at an address, if it is reached through documents and mapping values. */
  function KeysTo(t: Tree, address: seq<nat>): Option<seq<string>>
    requires Leads(t, address)
    decreases |address|
  {
    if address == [] then None
    else
      var i, rest := address[0], address[1..];
      match t.kind
      case Document => KeysTo(t.children[i], rest)
      case Mapping =>
        if i % 2 == 1 then
          match KeysTo(t.children[i], rest)
          case None => None
          case Some(keys) => Some([t.children[i - 1].value] + keys)
        else if i + 1 < |t.children| && rest == [] then Some([t.children[i].value])
        else None
      case _ => None
  }

  /** prefix.k1.k2 and so on; no dot where nothing stands before it. */
  function Dotted(prefix: string, keys: seq<string>): string
    decreases |keys|
  {
    if keys == [] then prefix
    else Dotted(if prefix == "" then keys[0] else prefix + "." + keys[0], keys[1..])
  }

  /** The path by which a comment is looked up is the keys on the way, joined by dots. */
  lemma {:induction false} KeyPathExact(t: Tree, prefix: string, address: seq<nat>)
    requires Leads(t, address)
    ensures KeyPath(t, prefix, address) ==
            match KeysTo(t, address) case None => None case Some(keys) => Some(Dotted(prefix, keys))
    decreases |address|
  {
    if address != [] {
      var i, rest := address[0], address[1..];
      match t.kind {
        case Document => KeyPathExact(t.children[i], prefix, rest);
        case Mapping =>
          if i % 2 == 1 {
            var path := Path(prefix, t.children[i - 1].value);
            KeyPathExact(t.children[i], path, rest);
            if KeysTo(t.children[i], rest).Some? {
              var keys := KeysTo(t.children[i], rest).value;
              assert ([t.children[i - 1].value] + keys)[1..] == keys;
            }
          } else {
            assert [t.children[i].value][1..] == [];
          }
        case _ =>
      }
    }
  }

  /** The kind, value and number of children of the node at an address. */
  function ShapeAt(t: Tree, address: seq<nat>): (Kind, string, nat)
    requires Leads(t, address)
    decreases |address|
  {
    if address == [] then (t.kind, t.value, |t.children|) else ShapeAt(t.children[address[0]], address[1..])
  }

  /** The walk adds and removes no node and changes no kind or value anywhere. */
  lemma {:induction false} ShapesKept(t: Tree, prefix: string, docs: map<string, string>, address: seq<nat>)
    ensures Leads(Annotated(t, prefix, docs), address) <==> Leads(t, address)
    ensures Leads(t, address) ==> ShapeAt(Annotated(t, prefix, docs), address) == ShapeAt(t, address)
    decreases |address|
  {
    if address != [] && address[0] < |t.children| {
      var i, rest := address[0], address[1..];
      ChildIs(t, i, prefix, docs);
      if t.kind.Document? {
        ShapesKept(t.children[i], prefix, docs, rest);
      } else if t.kind.Mapping? && i % 2 == 1 {
        ShapesKept(t.children[i], Path(prefix, t.children[i - 1].value), docs, rest);
      } else {
        assert AnnotatedChild(t, i, prefix, docs).children == t.children[i].children;
      }
    }
  }

  // ----- the nodes -----

  class Node {
    var kind: Kind
    var value: string
    var headComment: string
    var content: seq<Node>
    ghost var Repr: set<Node>

    /** A finite tree: no node occurs twice. */
    ghost predicate Valid()
      reads this`content, this`Repr, Repr`content, Repr`Repr
      decreases Repr
    {
      && this in Repr
      && (forall i :: 0 <= i < |content| ==>
            content[i] in Repr && content[i].Repr < Repr && this !in content[i].Repr && content[i].Valid())
      && (forall i, j :: 0 <= i < j < |content| ==> content[i].Repr !! content[j].Repr)
    }

    ghost function Value(): (t: Tree)
      requires Valid()
      reads this, Repr
      ensures t.kind == kind && t.value == value && t.comment == headComment && |t.children| == |content|
      ensures forall i :: 0 <= i < |content| ==> t.children[i] == content[i].Value()
      decreases Repr
    {
      Tree(kind, value, headComment,
        seq(|content|, i requires Valid() && 0 <= i < |content| reads this, Repr => content[i].Value()))
    }

    method SetHeadComment(text: string)
      requires Valid()
      modifies this`headComment
      ensures Valid() && headComment == text && Value() == old(Value()).(comment := text)
    {
      ghost var was := Value();
      headComment := text;
      assert Value().children == was.children;
    }
  }

  /** The children of a tree node after the walk has done the first done of them. */
  ghost predicate DoneUpTo(n: Node, was: Tree, done: nat, prefix: string, docs: map<string, string>)
    requires n.Valid()
    reads n, n.Repr
  {
    && n.kind == was.kind && n.value == was.value && n.headComment == was.comment
    && |n.content| == |was.children|
    && forall k :: 0 <= k < |n.content| ==>
         n.content[k].Value() == if k < done then AnnotatedChild(was, k, prefix, docs) else was.children[k]
  }

  lemma AllDone(n: Node, was: Tree, prefix: string, docs: map<string, string>)
    requires n.Valid() && DoneUpTo(n, was, |n.content|, prefix, docs) && (was.kind.Document? || was.kind.Mapping?)
    ensures n.Value() == Annotated(was, prefix, docs)
  {
    assert n.Value().children == Annotated(was, prefix, docs).children;
  }

  lemma NothingDone(n: Node, was: Tree, prefix: string, docs: map<string, string>)
    requires n.Valid() && was == n.Value()
    ensures DoneUpTo(n, was, 0, prefix, docs)
  {
  }

  /** In a mapping a last key without a value is left alone. */
  lemma MappingDone(n: Node, was: Tree, i: nat, prefix: string, docs: map<string, string>)
    requires n.Valid() && DoneUpTo(n, was, i, prefix, docs) && was.kind.Mapping?
    requires i % 2 == 0 && i <= |n.content| <= i + 1
    ensures n.Value() == Annotated(was, prefix, docs)
  {
    forall k | i <= k < |n.content| ensures AnnotatedChild(was, k, prefix, docs) == was.children[k] {}
    AllDone(n, was, prefix, docs);
  }

  /** The walk itself: it writes head comments in the given tree and nothing else anywhere. */
  method AnnotateComments(n: Node?, prefix: string, docs: map<string, string>)
    requires n != null ==> n.Valid()
    modifies (if n == null then {} else n.Repr)`headComment
    ensures n != null ==> n.Valid() && n.Value() == Annotated(old(n.Value()), prefix, docs)
    decreases if n == null then {} else n.Repr, 3
  {
    if n == null { return; }
    if n.kind == Document {
      AnnotateDocument(n, prefix, docs);
      return;
    }
    if n.kind != Mapping { return; }
    AnnotateMapping(n, prefix, docs);
  }

  /** The loop over the content of a document. */
  method AnnotateDocument(n: Node, prefix: string, docs: map<string, string>)
    requires n.Valid() && n.kind == Document
    modifies n.Repr`headComment
    ensures n.Valid() && n.Value() == Annotated(old(n.Value()), prefix, docs)
    decreases n.Repr, 2
  {
    ghost var was := n.Value();
    NothingDone(n, was, prefix, docs);
    var i := 0;
    while i < |n.content|
      invariant i <= |n.content| && n.Valid() && DoneUpTo(n, was, i, prefix, docs)
    {
      AnnotateUnder(n, i, prefix, prefix, docs, was);
      i := i + 1;
    }
    AllDone(n, was, prefix, docs);
  }

  /** The loop over the keys and values of a mapping. */
  method AnnotateMapping(n: Node, prefix: string, docs: map<string, string>)
    requires n.Valid() && n.kind == Mapping
    modifies n.Repr`headComment
    ensures n.Valid() && n.Value() == Annotated(old(n.Value()), prefix, docs)
    decreases n.Repr, 2
  {
    ghost var was := n.Value();
    NothingDone(n, was, prefix, docs);
    var i := 0;
    while i + 1 < |n.content|
      invariant i <= |n.content| && i % 2 == 0 && n.Valid() && DoneUpTo(n, was, i, prefix, docs)
    {
      AnnotatePair(n, i, prefix, docs, was);
      i := i + 2;
    }
    MappingDone(n, was, i, prefix, docs);
  }

  /** One turn of the loop over a mapping: the key at i and the value after it. */
  method AnnotatePair(n: Node, i: nat, prefix: string, docs: map<string, string>, ghost was: Tree)
    requires n.Valid() && was.kind == Mapping && i % 2 == 0 && i + 1 < |n.content|
    requires DoneUpTo(n, was, i, prefix, docs)
    modifies n.Repr`headComment
    ensures n.Valid() && DoneUpTo(n, was, i + 2, prefix, docs)
    decreases n.Repr, 1
  {
    var keyNode := n.content[i];
    var path := keyNode.value;
    if prefix != "" { path := prefix + "." + keyNode.value; }
    assert path == Path(prefix, was.children[i].value);
    if path in docs {
      CommentKey(n, i, docs[path], prefix, docs, was);
    }
    AnnotateUnder(n, i + 1, path, prefix, docs, was);
  }

  method CommentKey(n: Node, i: nat, text: string, prefix: string, docs: map<string, string>, ghost was: Tree)
    requires n.Valid() && i < |n.content| && DoneUpTo(n, was, i, prefix, docs)
    requires AnnotatedChild(was, i, prefix, docs) == was.children[i].(comment := text)
    modifies {n.content[i]}`headComment
    ensures n.Valid() && DoneUpTo(n, was, i + 1, prefix, docs)
  {
    n.content[i].SetHeadComment(text);
  }

  /** The walk into the child at i. */
  method AnnotateUnder(n: Node, i: nat, path: string, prefix: string, docs: map<string, string>, ghost was: Tree)
    requires n.Valid() && i < |n.content| && DoneUpTo(n, was, i, prefix, docs)
    requires AnnotatedChild(was, i, prefix, docs) == Annotated(was.children[i], path, docs)
    modifies n.content[i].Repr`headComment
    ensures n.Valid() && DoneUpTo(n, was, i + 1, prefix, docs)
    decreases n.Repr, 0
  {
    AnnotateComments(n.content[i], path, docs);
  }
}
