/** The client's replica as it is built: node objects edited in place. Each method is tied to
    the function of module Replicas that says what it does to the replica as a value. */
module ClientReplica {
  import opened Protocol
  import opened TreeShape
  import opened Replicas
  import opened ClientNodes
  import R = Responders

  /** Inventing the parent, then adding the entry, is adding the entry. */
  lemma {:induction false} AddOneSteps(before: Replica, middle: Replica, e: NamedNode)
    requires Fitted(before) && middle == Reshape(before, WithParent(before.shape, e.parentUuid))
    requires e.uuid != e.parentUuid
    ensures Reshape(middle, AddNode(middle.shape, e)) == Reshape(before, AddNode(before.shape, e))
    ensures e.uuid in middle.shape <==> e.uuid in before.shape
  {
    if e.parentUuid !in before.shape { GhostFirst(before.shape, e); }
    ReshapeTwice(before, middle.shape, AddNode(before.shape, e));
  }

  lemma {:induction false} ReshapeAddedTwice(r: Replica, list: seq<NamedNode>, e: NamedNode)
    requires Fitted(r)
    ensures var shape := Replicas.AddNodes(r.shape, list);
            Reshape(Reshape(r, shape), AddNode(shape, e)) == Reshape(r, AddNode(shape, e))
  {
    var shape := Replicas.AddNodes(r.shape, list);
    forall u | u in r.data ensures u in shape { AddNodesKeeps(r.shape, list, u); }
    ReshapeTwice(r, shape, AddNode(shape, e));
  }

  lemma {:induction false} ReshapeRemovedTwice(r: Replica, uuids: seq<U64>, u: U64)
    ensures var shape := Replicas.RemoveNodes(r.shape, uuids);
            Reshape(Reshape(r, shape), Remove(shape, u)) == Reshape(r, Remove(shape, u))
  {
    var shape := Replicas.RemoveNodes(r.shape, uuids);
    ReshapeTwice(r, shape, Remove(shape, u));
  }

  lemma {:induction false} ReshapeAddRemove(r: Replica, adds: seq<NamedNode>, deletes: seq<U64>)
    ensures var shape := Replicas.AddNodes(r.shape, adds);
            Reshape(Reshape(r, shape), Replicas.RemoveNodes(shape, deletes))
            == Reshape(r, Replicas.RemoveNodes(shape, deletes))
  {
    var shape := Replicas.AddNodes(r.shape, adds);
    RemoveNodesShrinks(shape, deletes);
    ReshapeTwice(r, shape, Replicas.RemoveNodes(shape, deletes));
  }

  lemma AcceptedKnown(before: Replica, name: Name, parent: U64, uuid: U64)
    ensures uuid in Reshape(before, Replicas.AcceptCreate(before.shape, name, parent, uuid)).shape
  {
  }

  lemma {:induction false} AlreadyAccepted(before: Replica, name: Name, parent: U64, uuid: U64)
    requires uuid in before.shape && Fitted(before)
    ensures Reshape(before, Replicas.AcceptCreate(before.shape, name, parent, uuid)) == before
  {
    ReshapeSame(before);
  }

  lemma {:induction false} ListedKnown(before: Replica, list: seq<NamedNode>)
    requires list != []
    ensures list[0].uuid in Reshape(before, Replicas.AddNodes(before.shape, list)).shape
  {
    AddNodesKeeps(AddNode(before.shape, list[0]), list[1..], list[0].uuid);
  }

  class Client {
    var mTree: map<U64, Node>

    ghost predicate Closed()
      reads this`mTree, mTree.Values
    {
      ClosedIndex(mTree)
    }

    /** The abstract replica. */
    ghost function View(): Replica
      reads this`mTree, mTree.Values
    {
      ReplicaOf(RecordsOf(mTree))
    }

    constructor ()
      ensures Closed() && View() == INITIAL
      ensures fresh(mTree.Values)
    {
      var root := new Node("", null, ROOT);
      mTree := map[ROOT := root];
      new;
      assert RecordsOf(mTree) == map[ROOT := Record("", null, [], map[])];
      Fresh("", null);
      assert View().shape == INITIAL.shape && View().data == INITIAL.data;
    }

    // ----- addNodes

    /** The parent of an entry: known, or invented as a ghost. */
    method ParentOf(uuid: U64) returns (parent: Node)
      requires Closed()
      modifies this`mTree
      ensures Closed() && Indexed(mTree, parent) && parent.uuid == uuid
      ensures mTree == (if uuid in old(mTree) then old(mTree) else old(mTree)[uuid := parent])
      ensures parent in old(mTree.Values) || fresh(parent)
      ensures View() == Reshape(old(View()), WithParent(old(View()).shape, uuid))
    {
      hide AllWithin, ShapeOf, DataOf, VertexOf;
      ghost var before := RecordsOf(mTree);
      At(before, uuid);
      if uuid in mTree {
        parent := mTree[uuid];
        RecordsFit(before);
        ReshapeSame(View());
      } else {
        parent := new Node("ghost", null, uuid);
        mTree := mTree[uuid := parent];
        ghost var r := Record("ghost", null, [], map[]);
        assert RecordsOf(mTree) == before[uuid := r];
        With(before, uuid, r);
        Fresh("ghost", null);
        RecordsFit(before);
        ReshapeGhost(ReplicaOf(before), uuid);
        GhostWithin(old(mTree), before, parent, r);
      }
    }

    /** Links the entry's node, known or new, under its parent. */
    method Adopt(e: NamedNode, parent: Node, known: bool) returns (node: Node)
      requires Closed() && Indexed(mTree, parent) && parent.uuid == e.parentUuid != e.uuid
      requires known == (e.uuid in mTree)
      modifies this`mTree, mTree.Values
      ensures node in old(mTree.Values) || fresh(node)
      ensures mTree == old(mTree)[e.uuid := node] && node.uuid == e.uuid && (known ==> node == old(mTree)[e.uuid])
      ensures RecordsOf(mTree) == Adopted(old(RecordsOf(mTree)), e, parent, node)
    {
      hide AllWithin;
      ghost var before := RecordsOf(mTree);
      node := Place(e, parent, known);
      parent.children := parent.children[e.name := node];
      ghost var target := Adopted(before, e, parent, node);
      assert RecordsOf(mTree).Keys == target.Keys;
      forall u | u in mTree ensures RecordsOf(mTree)[u] == target[u] { }
    }

    /** The entry's node, with the entry's name and parent. */
    method Place(e: NamedNode, parent: Node, known: bool) returns (node: Node)
      requires Closed() && known == (e.uuid in mTree)
      modifies this`mTree, mTree.Values
      ensures node in old(mTree.Values) || fresh(node)
      ensures mTree == old(mTree)[e.uuid := node] && node.uuid == e.uuid && (known ==> node == old(mTree)[e.uuid])
      ensures forall u | u in mTree :: mTree[u].uuid == u
      ensures RecordsOf(mTree)
           == old(RecordsOf(mTree))[e.uuid := Placed(old(RecordsOf(mTree)), e, parent)]
    {
      hide AllWithin;
      ghost var before := RecordsOf(mTree);
      if known {
        node := mTree[e.uuid];
        node.name := e.name;
        node.parent := parent;
      } else {
        node := new Node(e.name, parent, e.uuid);
        mTree := mTree[e.uuid := node];
      }
      ghost var target := before[e.uuid := Placed(before, e, parent)];
      assert RecordsOf(mTree).Keys == target.Keys;
      forall u | u in mTree ensures RecordsOf(mTree)[u] == target[u] { }
    }

    /** One round of the loop in `addNodes`. */
    method AddOne(e: NamedNode)
      requires Closed() && e.uuid != e.parentUuid
      modifies this`mTree, mTree.Values
      ensures Closed() && fresh(mTree.Values - old(mTree.Values))
      ensures View() == Reshape(old(View()), AddNode(old(View()).shape, e))
    {
      hide AllWithin, ReplicaOf, Adopted, Reshape, AddNode, WithParent;
      ghost var before := View();
      RecordsFit(RecordsOf(mTree));
      var known := e.uuid in mTree;
      var parent := ParentOf(e.parentUuid);
      ghost var index, records := mTree, RecordsOf(mTree);
      var node := Adopt(e, parent, known);
      AdoptedReplica(records, e, parent, node);
      AdoptedWithin(index, records, e, parent, node);
      AddOneSteps(before, ReplicaOf(records), e);
    }

    method AddNodes(list: seq<NamedNode>)
      requires Closed() && Proper(list)
      modifies this`mTree, mTree.Values
      ensures Closed() && fresh(mTree.Values - old(mTree.Values))
      ensures View() == Reshape(old(View()), Replicas.AddNodes(old(View()).shape, list))
    {
      hide ClosedIndex, RecordsOf, ReplicaOf, Refit, AddNode;
      ghost var before := View();
      ViewFitted();
      ReshapeSame(before);
      for i := 0 to |list|
        invariant Closed() && fresh(mTree.Values - old(mTree.Values))
        invariant View() == Reshape(before, Replicas.AddNodes(before.shape, list[..i]))
      {
        AddOne(list[i]);
        assert list[..i + 1] == list[..i] + [list[i]];
        AddNodesSnoc(before.shape, list[..i], list[i]);
        ReshapeAddedTwice(before, list[..i], list[i]);
      }
      assert list[..|list|] == list;
    }

    lemma ViewFitted()
      ensures Fitted(View())
    {
      RecordsFit(RecordsOf(mTree));
    }

    // ----- removeNodes

    /** One round of the loop in `removeNodes`. */
    method RemoveOne(uuid: U64)
      requires Closed() && Detachable(View().shape, uuid)
      modifies this`mTree, mTree.Values
      ensures Closed() && mTree == old(mTree) - {uuid}
      ensures View() == Reshape(old(View()), Remove(old(View()).shape, uuid))
    {
      hide AllWithin, ReplicaOf, Reshape, Remove, Detachable;
      ghost var index, before := mTree, RecordsOf(mTree);
      if uuid !in mTree {
        NothingRemoved(before, uuid);
        assert mTree == mTree - {uuid};
        return;
      }
      DroppedReplica(before, uuid);
      DroppedIndex(index, before, uuid);
      Drop(mTree[uuid]);
    }

    method Drop(node: Node)
      requires Closed() && Indexed(mTree, node)
      requires node.parent != null ==> Indexed(mTree, node.parent) && node.parent != node
      modifies this`mTree, mTree.Values
      ensures mTree == old(mTree) - {node.uuid}
      ensures RecordsOf(mTree) == Dropped(old(RecordsOf(mTree)), node.uuid)
    {
      hide AllWithin;
      ghost var target := Dropped(RecordsOf(mTree), node.uuid);
      var parent := node.parent;
      if parent != null {
        parent.children := parent.children - {node.name};
      }
      mTree := mTree - {node.uuid};
      assert RecordsOf(mTree).Keys == target.Keys;
      forall u | u in mTree ensures RecordsOf(mTree)[u] == target[u] { }
    }

    method RemoveNodes(uuids: seq<U64>)
      requires Closed() && AllDetachable(View().shape, uuids)
      modifies this`mTree, mTree.Values
      ensures Closed() && mTree.Values <= old(mTree.Values)
      ensures View() == Reshape(old(View()), Replicas.RemoveNodes(old(View()).shape, uuids))
    {
      hide ClosedIndex, RecordsOf, ReplicaOf, Refit, Remove, Detachable;
      ghost var before := View();
      ViewFitted();
      ReshapeSame(before);
      for i := 0 to |uuids|
        invariant Closed() && mTree.Values <= old(mTree.Values)
        invariant View() == Reshape(before, Replicas.RemoveNodes(before.shape, uuids[..i]))
        invariant AllDetachable(View().shape, uuids[i..])
      {
        assert uuids[i..][0] == uuids[i] && uuids[i..][1..] == uuids[i + 1..];
        RemoveOne(uuids[i]);
        assert uuids[..i + 1] == uuids[..i] + [uuids[i]];
        RemoveNodesSnoc(before.shape, uuids[..i], uuids[i]);
        ReshapeRemovedTwice(before, uuids[..i], uuids[i]);
      }
      assert uuids[..|uuids|] == uuids;
    }

    // ----- responses and notifications

    /** The CreateAccept branch of `create`. */
    method AcceptCreate(name: Name, parent: Node, uuid: U64)
      requires Closed() && Indexed(mTree, parent)
      modifies this`mTree, mTree.Values
      ensures Closed() && fresh(mTree.Values - old(mTree.Values))
      ensures View() == Reshape(old(View()), Replicas.AcceptCreate(old(View()).shape, name, parent.uuid, uuid))
    {
      hide AllWithin, ReplicaOf, Reshape, Accepted;
      ghost var index, before := mTree, RecordsOf(mTree);
      if uuid in mTree {
        NothingAccepted(before, name, parent.uuid, uuid);
        return;
      }
      var newNode := Enter(name, parent, uuid);
      AcceptedReplica(before, name, parent, newNode);
      AcceptedWithin(index, before, name, parent, newNode);
    }

    method Enter(name: Name, parent: Node, uuid: U64) returns (newNode: Node)
      requires Closed() && Indexed(mTree, parent) && uuid !in mTree
      modifies this`mTree, parent`children
      ensures fresh(newNode) && newNode.uuid == uuid && mTree == old(mTree)[uuid := newNode]
      ensures RecordsOf(mTree) == Accepted(old(RecordsOf(mTree)), name, parent, newNode)
    {
      hide AllWithin;
      ghost var before := RecordsOf(mTree);
      newNode := Index(name, parent, uuid);
      assert RecordsOf(mTree)[parent.uuid] == before[parent.uuid];
      if name !in parent.children {
        List(parent, name, newNode);
      }
    }

    /** One more child in a node's own map. */
    method List(parent: Node, name: Name, child: Node)
      requires Indexed(mTree, parent) && forall u | u in mTree :: mTree[u].uuid == u
      modifies parent`children
      ensures RecordsOf(mTree)
           == old(RecordsOf(mTree)[parent.uuid := RecordsOf(mTree)[parent.uuid]
                                   .(children := RecordsOf(mTree)[parent.uuid].children[name := child])])
    {
      ghost var before := RecordsOf(mTree);
      ghost var r := before[parent.uuid];
      parent.children := parent.children[name := child];
      ghost var target := before[parent.uuid := r.(children := r.children[name := child])];
      assert RecordsOf(mTree).Keys == target.Keys;
      forall u | u in mTree ensures RecordsOf(mTree)[u] == target[u] { }
    }

    /** A new node in the index. */
    method Index(name: Name, parent: Node, uuid: U64) returns (newNode: Node)
      requires Closed() && uuid !in mTree
      modifies this`mTree
      ensures fresh(newNode) && newNode.uuid == uuid && mTree == old(mTree)[uuid := newNode]
      ensures forall u | u in mTree :: mTree[u].uuid == u
      ensures RecordsOf(mTree) == old(RecordsOf(mTree))[uuid := Record(name, parent, [], map[])]
    {
      hide AllWithin;
      newNode := new Node(name, parent, uuid);
      mTree := mTree[uuid := newNode];
    }

    /** What `destroy` does when the server answered OK. It works on the node its `Property`
        kept, whether or not the index still holds it, and erases by name. */
    method Destroyed(node: Node)
      requires Closed()
      modifies mTree.Values, if node.parent == null then {} else {node.parent}
      ensures Closed()
      ensures old(node.parent) == null || !Indexed(mTree, old(node.parent)) ==> View() == old(View())
      ensures old(node.parent) != null && Indexed(mTree, old(node.parent)) ==>
                View()
                == old(View()).(shape := EraseChild(old(View()).shape, old(node.parent).uuid, old(node.name)))
    {
      hide AllWithin, ReplicaOf;
      ghost var before := RecordsOf(mTree);
      var parent := node.parent;
      if parent == null {
        return;
      }
      ghost var target := if Indexed(mTree, parent) then Erased(before, parent.uuid, node.name) else before;
      parent.children := parent.children - {node.name};
      assert RecordsOf(mTree).Keys == target.Keys;
      forall u | u in mTree ensures RecordsOf(mTree)[u] == target[u] { }
      assert RecordsOf(mTree) == target;
      if Indexed(mTree, parent) {
        ErasedReplica(before, parent.uuid, node.name);
        ErasedWithin(mTree, before, parent.uuid, node.name);
      }
    }

    /** At its stream position the answer finds the node in the index. */
    method Unlink(uuid: U64)
      requires Closed()
      modifies mTree.Values
      ensures Closed() && View() == old(View()).(shape := Replicas.Unlink(old(View()).shape, uuid))
    {
      hide AllWithin, ReplicaOf, EraseChild;
      ghost var before := RecordsOf(mTree);
      ViewIndexed(uuid);
      if uuid in mTree {
        NodeVertex(before, uuid);
        ParentIndexed(mTree, before, uuid);
        Destroyed(mTree[uuid]);
      }
    }

    /** An update notification, or the answer to a fetch. */
    method StoreData(uuid: U64, data: Bytes)
      requires Closed()
      modifies mTree.Values
      ensures Closed() && View() == old(View()).(data := Store(old(View()).data, uuid, data))
    {
      hide AllWithin, ReplicaOf;
      ghost var before := RecordsOf(mTree);
      if uuid !in mTree {
        NothingStored(before, uuid, data);
        return;
      }
      var node := mTree[uuid];
      node.data := data;
      assert RecordsOf(mTree) == before[uuid := before[uuid].(data := data)];
      StoredReplica(before, uuid, data);
      StoredWithin(mTree, before, uuid, data);
    }

    // ----- create and get

    /** The lookup that `create` and a flat `get` begin with. */
    method FindChild(parent: Node, name: Name) returns (found: Node?)
      ensures name in parent.children ==> found == parent.children[name]
      ensures name !in parent.children ==> found == null
      ensures Closed() && Indexed(mTree, parent) && found != null ==> Indexed(mTree, found)
    {
      hide AllWithin;
      if Closed() && Indexed(mTree, parent) { ChildrenIndexed(parent); }
      found := if name in parent.children then parent.children[name] else null;
    }

    /** `create` once the response is there: the node it returns is the one the server made, or
        after a rejection a child of that name if the replica has one by now. */
    method FinishCreate(parent: Node, name: Name, response: Message) returns (node: Node?)
      requires Closed() && (response.CreateAccept? || response.CreateReject?)
      requires response.CreateAccept? && response.uuid !in mTree ==> Indexed(mTree, parent)
      modifies this`mTree, mTree.Values
      ensures Closed() && fresh(mTree.Values - old(mTree.Values))
      ensures response.CreateReject? ==>
                && View() == old(View())
                && node == if name in parent.children then parent.children[name] else null
      ensures response.CreateAccept? ==>
                && View()
                == Reshape(old(View()), Replicas.AcceptCreate(old(View()).shape, name, parent.uuid, response.uuid))
                && node != null && Indexed(mTree, node) && node.uuid == response.uuid
    {
      hide ClosedIndex, RecordsOf, ReplicaOf, Refit;
      match response
      case CreateReject(_) => node := FindChild(parent, name);
      case CreateAccept(uuid) =>
        ghost var before := View();
        ViewIndexed(uuid);
        if uuid in mTree {
          ViewFitted();
          AlreadyAccepted(before, name, parent.uuid, uuid);
        } else {
          AcceptCreate(name, parent, uuid);
        }
        AcceptedKnown(before, name, parent.uuid, uuid);
        ViewIndexed(uuid);
        node := mTree[uuid];
    }

    /** `get` once the response is there: for a named query the first entry is the node asked
        for. */
    method FinishGet(parent: Node, name: Name, response: Message) returns (node: Node?)
      requires Closed()
      requires response.TreeInfoResponse? || response.TreeInfoErrorResponse?
      requires response.TreeInfoResponse? ==>
                 Proper(response.nodeToAddList) && (name != "." ==> response.nodeToAddList != [])
      modifies this`mTree, mTree.Values
      ensures Closed() && fresh(mTree.Values - old(mTree.Values))
      ensures response.TreeInfoErrorResponse? ==> View() == old(View()) && node == null
      ensures response.TreeInfoResponse? ==>
                && var list := response.nodeToAddList;
                && View() == Reshape(old(View()), Replicas.AddNodes(old(View()).shape, list))
                && node != null
                && (name == "." ==> node == parent)
                && (name != "." ==> Indexed(mTree, node) && node.uuid == list[0].uuid)
    {
      hide ClosedIndex, RecordsOf, ReplicaOf, Refit;
      match response
      case TreeInfoErrorResponse(_) => node := null;
      case TreeInfoResponse(list) =>
        ghost var before := View();
        AddNodes(list);
        if name == "." {
          node := parent;
        } else {
          ListedKnown(before, list);
          ViewIndexed(list[0].uuid);
          node := mTree[list[0].uuid];
        }
    }

    lemma ChildrenIndexed(parent: Node)
      requires Closed() && Indexed(mTree, parent)
      ensures forall n | n in parent.children :: Indexed(mTree, parent.children[n])
    {
      var r := RecordsOf(mTree)[parent.uuid];
      assert RecordWithin(mTree, r);
      forall n | n in parent.children ensures Indexed(mTree, parent.children[n]) {
        assert r.children[n] == parent.children[n];
      }
    }

    /** A call forwarded by the server; the node's handler is looked up by uuid, and the answer is
        sent under the id the call came with. */
    method HandleCall(trId: U16, uuid: U64, param: Bytes, handlers: R.Handlers) returns (id: U16, answer: Message)
      requires Closed()
      ensures id == trId && answer == R.Respond(View().shape, handlers, uuid, param)
      ensures answer == if uuid !in View().shape then RpcReject(NOT_FOUND)
                        else if uuid !in handlers then RpcReject(NO_HANDLER)
                        else RpcAccept(handlers[uuid](param))
    {
      ViewIndexed(uuid);
      if uuid !in mTree {
        return trId, RpcReject(NOT_FOUND);
      }
      var node := mTree[uuid];
      if node.uuid in handlers {
        return trId, RpcAccept(handlers[node.uuid](param));
      }
      return trId, RpcReject(NO_HANDLER);
    }

    lemma ViewIndexed(uuid: U64)
      requires Closed()
      ensures uuid in View().shape <==> uuid in mTree
      ensures uuid in mTree ==> Indexed(mTree, mTree[uuid]) && mTree[uuid].uuid == uuid
    {
    }

    /** One message, at its position in the stream. */
    method Consume(p: Packet)
      requires Closed() && Consumable(View(), p)
      modifies this`mTree, mTree.Values
      ensures Closed() && View() == ApplySignedIn(old(View()), p)
    {
      hide ClosedIndex, RecordsOf, ReplicaOf, Refit, AllDetachable, Replicas.Unlink, Store;
      match (p.answers, p.message)
      case (Some(CreateRequest(name, parent)), CreateAccept(uuid)) =>
        ViewIndexed(parent);
        AcceptCreate(name, mTree[parent], uuid);
      case (Some(TreeInfoRequest(_, _, _)), TreeInfoResponse(list)) => AddNodes(list);
      case (Some(DeleteRequest(uuid)), DeleteResponse(OK)) => Unlink(uuid);
      case (Some(GetRequest(uuid)), GetAccept(data)) => StoreData(uuid, data);
      case (None, TreeUpdateNotification(adds, deletes)) =>
        ghost var before := View();
        AddNodes(adds);
        RemoveNodes(deletes);
        ReshapeAddRemove(before, adds, deletes);
      case (None, UpdateNotification(uuid, data)) => StoreData(uuid, data);
      case _ =>
    }
  }
}
