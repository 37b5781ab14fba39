# PropertyTree: a verified model

PropertyTree keeps one tree of named properties on a server and a replica of it in every
client. This project models both sides of that protocol in Dafny and proves what the two
sides owe each other, over every run.

## How the model is built

**Server.** `ServerSpec` is the server as a value (`Server`: the fields of all nodes, the
session tables, the rpc translation, and for each connection everything ever sent to it) with
one function per message handler. `Runs` makes it a state machine: an `Event` is a connection
accepted, a message received or a connection closed, `After(run)` is the state a run leads to,
and `Invariant` holds in each of them. `ProtocolHandling.ProtocolHandler` is the handler class as
it is written in the repository, with node objects, maps and counters that its methods edit in
place, loops over sessions and listeners, and the explicit stack of the snapshot walk; each
method is proved to do exactly what the function of `ServerSpec` says.

**Client.** `Replicas` is the replica as a value and the effect of each message on it; `Replay`
folds a stream. `ClientReplica.Client` is the client's tree of node objects (ghost parents,
adoption, unlinking) proved against it. `Transactions` is the table of pending requests.

**Channel.** A stream is the sequence of packets sent to one connection, in order; a client has
consumed some prefix of it. Interleaving is therefore total: a run fixes the order of server
steps, and every prefix length of every stream is a possible client state.

**Main theorem.** `ReplicaTheorems.ReplicaRefinesServer`: in every run and for every number of
messages a client has consumed, its replica is a faithful projection (`Replicas.Faithful`) of the
server tree at the step that sent the last of them. One intermediate state is weaker, and exactly
described by `Refinement.Consistent`: between the OK answer to a client's own delete and the
announcement of that delete, the doomed node is no longer linked but still indexed.

**Progress.** `Exchanges.EachRequestAnswered` fixes what every step puts on every stream: one answer to
the sender under its own id, the right one for the tables at that moment (`Exchanges.RightAnswer`),
unless the request is one of the few silent ones (`Exchanges.Silent`), and the announcements that are
due (`Exchanges.Announced`). These are stated in messages, tables and literals, not through the
handlers; a listing in turn is the only list with its properties (`Listings.ListingUnique`).

**End to end.** `Packet.answers` records which request a reply answers. It is not on the wire: a
client has the transaction id only. `EndToEnd` joins the two halves. A `World` is a server run, the
requests the client has issued, its transaction table and the replica it builds from
(id, message) pairs; an `Act` is a server step of somebody else, a request, its arrival, a message
read, or a wait. `EndToEnd.ReplicaFromIds` proves that this replica is the one of the main theorem,
`EndToEnd.MessageRecognised` that the table entry under the id names the very request in
`Packet.answers` and that exactly the other messages go to the handlers, and
`EndToEnd.AnsweredAtMostOnce` that over a whole history no request is answered twice. The
hypotheses (`EndToEnd.Allowed`) are those the code needs: a request takes a free id, and a forwarded
call does not carry the id of an open request.

| files | contents |
|---|---|
| `Protocol`, `Names`, `Shape` | integer widths, messages, name order, the tree and its two views |
| `Snapshot`, `PostOrder` | recursive specifications of the three walks |
| `Server`, `Runs`, `Emission`, `Addressing` | the server as a state machine, its invariant, what each step sends, and under which id |
| `Listing`, `Exchange`, `Connection` | what each request is answered with, told by messages and tables alone: listings, the progress law, sign-in and hang-up |
| `NodeRecords`, `Broadcasts`, `ProtocolHandler` | the server's handler class |
| `Replica`, `ClientNodes`, `Client` | the replica as a value and as objects |
| `Refinement`, `ReplicaTheorems`, `History`, `Subscribers`, `Sessions`, `Rpc`, `Responder` | theorems over runs |
| `LateResponses` | responses applied after later notifications |
| `WalkStack`, `WalkSteps`, `Walks` | the two deletion walks |
| `Transactions`, `Framing`, `Codec`, `PerContext` | request matching, the framed reader, the wire form |
| `Ledger`, `EndToEnd` | which request each message answers, recovered from ids alone |
| `Example`, `SampleKit` | runs that meet the premises of the theorems, runs that reach each failure, a lawful kit of codecs |

## Findings about the code

Each finding has an exact condition, and a run or an input that reaches the failing side.

- Sessions: a connection that signs in twice breaks the correspondence of the two session
  tables for good; without that they always correspond (`Sessions.InverseIffSignsInOnce`; reached in
  `Examples.SecondSignin`).
- Hanging up: a connection that signed in twice stays referenced by its stray session, so
  announcements and calls go on being sent to it; one that did not is sent nothing more
  (`Connections.GoneIffOnce`, `Connections.StreamEnds`; reached in `Examples.HangupLeavesStray`).
- Responses applied by the calling thread after later notifications. A late create answer or a
  late snapshot brings a dead vertex back exactly if the deletion of a vertex it names was announced
  to the client in between (`LateResponses.LateCreateHarmlessIff`, `LateResponses.LateSnapshotHarmlessIff`;
  reached in `Examples.LateAnswersRevive`).
- A late `destroy` erases by name under the parent its node was kept with: if another vertex of that
  name has been announced there meanwhile, the live one is unlinked (`ReplicaTheorems.LateErase`;
  reached in `Examples.LateEraseUnlinksAnother`).
- A late root: an announcement handled between the sign-in and the constructor's `emplace` makes the
  root a "ghost" for good exactly if it names the root as a parent (`LateResponses.LateRootHarmlessIff`;
  reached in `Examples.LateRootIsGhost`).
- Rpc ids: an answer resolves its own call if and only if fewer than 2^16 calls were forwarded
  after it (`Rpc.AnswerResolvesIffRecent`); with 2^16 it comes back as the answer to another call
  (`Examples.AnswerToWrongCall`).
- Transactions: a request that timed out keeps its table entry; 65535 allocations later the next
  user of that id is given the old answer (`Transactions.StaleAnswerReturned`; reached in
  `Transactions.StaleAnswerReached`), and a forwarded call whose id equals a pending one is taken for
  the answer (`Transactions.CallReachesHandlerIff`; reached in `Transactions.CallTakenForAnswer`).
- Framing: an empty body is taken for a disconnect (`Framing.DeliverableIffNoneEmpty`), and a
  header split between two reads puts the reader out of step (`Framing.HeaderNeedsOneRead`,
  `Framing.SplitHeaderMisreads`).

## Hypotheses

`Runs.Admissible` and `Refinement.ClientEvent` say what the code relies on without checking: the
root is not deleted while it is empty, no call is aimed at the root, the 32-bit uuid and session
counters do not wrap, a connection identity is not reused, and a client creates only under
properties it has met in its replica. Nothing is assumed about the order or the content of other
messages, sign-ins included.

## Model

| member | source | states |
|---|---|---|
| `Names.SortedNames` | server/src/Node.hpp:31 | the keys of a `children` map in iteration order: each once, ascending |
| `Names.LessAtFirstDifference` | server/src/Node.hpp:31 | names are ordered at their first difference |
| `Names.PrefixLess` | server/src/Node.hpp:31 | and a proper prefix comes first |
| `Names.SortedNamesUnique` | server/src/Node.hpp:31 | no other ascending enumeration exists, so walk order is determined by the names |
| `TreeShape.IndexedIffReachable` | server/src/ProtocolHandler.hpp:77 | a uuid is in `mTree` exactly if some path of names leads to it from the root, and that path is unique |
| `TreeShape.BelowIsYounger` | server/src/ProtocolHandler.cpp:116-127 | descent leads to larger uuids only; the parent relation has no cycle |
| `TreeShape.SiblingsDisjoint` | server/src/Node.hpp:31 | subtrees of two children of one node have no vertex in common |
| `TreeShape.InsertKeepsWellFormed` | server/src/ProtocolHandler.cpp:116-129 | a create under a live parent with a free name and a fresh uuid keeps index and `children` in agreement and changes no other node's name or parent |
| `TreeShape.RemoveKeepsWellFormed` | server/src/ProtocolHandler.cpp:423-434 | removing a childless node other than the root keeps them in agreement; the index loses that uuid only |
| `Runs.StepKeepsInvariant` | server/src/ProtocolHandler.cpp:29-526 | every step of every handler keeps tree agreement, session tables, creators and listeners sound |
| `Runs.After` | server/src/ProtocolHandler.cpp:21-72 | every reachable state satisfies the invariant |
| `Emission.CreateEmits` | server/src/ProtocolHandler.cpp:126-152 | an accepted create sends its sender the new uuid, then announces the true edge once per session of each connection |
| `Emission.DeleteEmits` | server/src/ProtocolHandler.cpp:429-455 | an accepted delete is answered OK, then announced once per session of each connection |
| `Emission.QuietStep` | server/src/ProtocolHandler.cpp:200-402 | every other step leaves the tree alone and sends nothing untrue of the tree or of the data |
| `Emission.StreamsGrow` | server/src/ProtocolHandler.cpp:563-587 | streams are only appended to |
| `Exchanges.EachRequestAnswered` | server/src/ProtocolHandler.cpp:74-546 | every request is answered exactly once, under its own id, with the message its kind and the tables call for, but for the silent cases named; announcements go out once per session, listener entry or creator; nothing else is sent to anyone |
| `Exchanges.CreateRefused` | server/src/ProtocolHandler.cpp:97-124 | a create under an unknown parent is answered NOT_FOUND, one with a taken name ALREADY_EXIST; nobody else hears of it and nothing changes |
| `Exchanges.StopsIff` | server/src/ProtocolHandler.cpp:250-260 | the server stops exactly on the bytes 9, 0, 0, 0 written to uuid 0 |
| `Exchanges.WriteAccepted` | server/src/ProtocolHandler.cpp:262-307 | any other write to a live vertex, those bytes included, is stored, accepted under its id and sent to every subscriber |
| `Exchanges.SubscribedIff` | server/src/ProtocolHandler.cpp:335-402 | a subscription begins by subscribing with a session to a live vertex, and ends by unsubscribing, hanging up or the vertex's death, and by nothing else |
| `Exchanges.SubscribeAnswered` | server/src/ProtocolHandler.cpp:335-365 | a signed-in client is told OK exactly if the vertex lives, and is subscribed exactly then |
| `Exchanges.UnsubscribeAnswered` | server/src/ProtocolHandler.cpp:367-402 | it is told OK exactly if it was subscribed, and no longer is afterwards |
| `Connections.SigninOpens` | server/src/ProtocolHandler.cpp:82-84 | a sign-in opens a session under a fresh number; a second one leaves the connection's own entry as it was |
| `Connections.HangupEnds` | server/src/ProtocolHandler.cpp:29-41 | hanging up takes the connection out of both tables, its session then leads nowhere, all other entries stay; it is still live exactly if a stray session led to it |
| `Connections.GoneIffOnce` | server/src/ProtocolHandler.cpp:29-41 | over runs: no trace of it is left if and only if it never signed in while it had a session |
| `Connections.StreamEnds` | server/src/ProtocolHandler.cpp:563-587 | and then nothing is ever sent to it again |
| `Connections.CallsEnd` | server/src/ProtocolHandler.cpp:486-493 | a call of a vertex it created changes nothing and is sent to nobody, ever after |
| `Listings.QueryListing` | server/src/ProtocolHandler.cpp:235-244 | the list of a query, for both values of the flag: true edges without repetition, the named node first, then what lies below it or only its children, in path order |
| `Listings.ListingUnique` | server/src/ProtocolHandler.cpp:155-198 | there is only one such list |
| `Listings.BelowIffResolves` | server/src/Node.hpp:31 | the strict descendants of a node are those that a path of names leads to |
| `Addressing.EachAnsweredOnce` | server/src/ProtocolHandler.cpp:74-546 | a step answers at most one request, first of all, to its sender and under its transaction id (an rpc answer under the id noted for the call); whatever is not an answer carries 0xFFFF or is a forwarded call |
| `ProtocolHandling.ProtocolHandler.constructor` | server/src/ProtocolHandler.cpp:21-27 | the object starts in the initial state, the root indexed as uuid 0 |
| `ProtocolHandling.ProtocolHandler.OnMsg` | server/src/ProtocolHandler.cpp:59-64 | handling one message in place is the transition of the state machine, and keeps the invariant |
| `ProtocolHandling.ProtocolHandler.OnConnect` | server/src/Server.cpp:89-93 | accepting a connection is the corresponding transition |
| `ProtocolHandling.ProtocolHandler.OnDisconnect` | server/src/ProtocolHandler.cpp:29-41 | closing a connection is the corresponding transition |
| `ProtocolHandling.ProtocolHandler.HandleSignin` | server/src/ProtocolHandler.cpp:74-87 | `emplace` into both tables and the reply, as the state machine says |
| `ProtocolHandling.ProtocolHandler.HandleCreate` | server/src/ProtocolHandler.cpp:89-153 | the three refusals and the accepting branch, on node objects, are the state machine's create |
| `ProtocolHandling.ProtocolHandler.HandleDelete` | server/src/ProtocolHandler.cpp:404-456 | the refusals and the accepting branch, on node objects, are the state machine's delete |
| `ProtocolHandling.ProtocolHandler.HandleTreeInfo` | server/src/ProtocolHandler.cpp:200-245 | the reply holds the specified list, named node first, or NOT_FOUND |
| `ProtocolHandling.ProtocolHandler.FillToAddListFromTree` | server/src/ProtocolHandler.cpp:155-198 | the explicit-stack walk terminates and lists exactly the recursive pre-order by name |
| `ProtocolHandling.ProtocolHandler.HandleSetValue` | server/src/ProtocolHandler.cpp:247-308 | terminate value, unknown uuid, write, reply and notification of the listeners, as the state machine says |
| `ProtocolHandling.ProtocolHandler.SendToListeners` | server/src/ProtocolHandler.cpp:288-307 | whatever the order of the loop, each connection gets one copy per listener entry that still leads to it |
| `ProtocolHandling.ProtocolHandler.SendToAll` | server/src/ProtocolHandler.cpp:148-151 | whatever the order of the loop, each connection gets one copy per session it owns |
| `ProtocolHandling.ProtocolHandler.HandleGet` | server/src/ProtocolHandler.cpp:310-333 | answers with the stored data or NOT_FOUND; nothing changes |
| `ProtocolHandling.ProtocolHandler.HandleSubscribe` | server/src/ProtocolHandler.cpp:335-365 | the listener table of that node, and nothing else, gains the caller's session |
| `ProtocolHandling.ProtocolHandler.HandleUnsubscribe` | server/src/ProtocolHandler.cpp:367-402 | the listener table of that node, and nothing else, loses the caller's session |
| `ProtocolHandling.ProtocolHandler.HandleRpcRequest` | server/src/ProtocolHandler.cpp:458-500 | refusals, silent drops and the forward under the truncated counter, as the state machine says |
| `ProtocolHandling.ProtocolHandler.HandleRpcAnswer` | server/src/ProtocolHandler.cpp:502-536 | the translation entry is consumed and the answer sent back under the caller's id |
| `ProtocolHandling.ProtocolHandler.HandleHeartbeat` | server/src/ProtocolHandler.cpp:538-546 | the reply carries the request's id; nothing else changes |
| `Snapshot.SnapshotExact` | server/src/ProtocolHandler.cpp:155-198 | a recursive list holds each strict descendant exactly once, with its true name and parent, parents first; a flat one exactly the children |
| `Replicas.FaithfulUnique` | client/src/Client.cpp:612-667 | a faithful replica is determined by which uuids it holds and which of them it can name |
| `Replicas.AddNodesFaithful` | client/src/Client.cpp:612-667 | true entries keep a replica faithful; it then holds the old uuids, the entries and their parents, and can name the old ones and the entries |
| `Replicas.AdoptionOrderIrrelevant` | client/src/Client.cpp:612-667 | for any tree with unique uuids and sibling names: two lists with the same true entries, in any order and with repetitions, lead to the same replica; ghosts remain exactly for parents mentioned but never described |
| `Replicas.KnownChildren` | client/src/Node.hpp:25 | a faithful replica shows exactly the children it can name, under their true uuids |
| `Replicas.RemoveFaithful` | client/src/Client.cpp:581-610 | removing a childless vertex keeps faithfulness to the shrunken tree and forgets nothing else |
| `Replicas.ChildlessDetachable` | client/src/Client.cpp:598-608 | nothing in a faithful replica refers to such a vertex but its parent, under its own name |
| `ClientReplica.Client.constructor` | client/src/Client.cpp:66-67 | a client starts with the root alone |
| `ClientReplica.Client.AddNodes` | client/src/Client.cpp:612-667 | the loop over node objects (ghosts, adoption, overwriting) has the effect of `Replicas.AddNodes` |
| `ClientReplica.Client.RemoveNodes` | client/src/Client.cpp:581-610 | the loop over node objects has the effect of `Replicas.RemoveNodes`; unknown uuids are skipped |
| `ClientReplica.Client.FindChild` | client/src/Client.cpp:88-93 | a child is found exactly if the node lists one of that name |
| `ClientReplica.Client.FinishCreate` | client/src/Client.cpp:106-132 | a retained parent node may have left the index already; after a CreateAccept the replica holds the vertex, gained now or by its announcement, and its node is returned; after a CreateReject nothing changes and a child of that name is returned if there is one |
| `ClientReplica.Client.FinishGet` | client/src/Client.cpp:164-185 | the snapshot is added and the node asked for returned; on an error nothing changes |
| `ClientReplica.Client.Destroyed` | client/src/Client.cpp:380-391 | works on the retained node, indexed or not: whatever its parent lists under its name at that moment is unlinked, and nothing leaves the index |
| `ClientReplica.Client.Unlink` | client/src/Client.cpp:387-391 | at the stream position of the answer that is the deleted node itself |
| `ClientReplica.Client.HandleCall` | client/src/Client.cpp:228-265 | a forwarded call is answered under its own transaction id, by the node's handler or with NOT_FOUND or NO_HANDLER, as `Responders.Respond` says |
| `ClientReplica.Client.StoreData` | client/src/Client.cpp:197-226 | a value for a known node replaces its data; for an unknown one nothing happens |
| `ClientReplica.Client.Consume` | client/src/Client.cpp:191-226 | handling one message in place is `Replicas.ApplySignedIn` |
| `Replicas.ReplayFitted` | client/src/Client.cpp:197-226 | whatever a client is sent, it keeps data for exactly the nodes it holds; a value for any other is lost |
| `Refinement.LiveTail` | server/src/ProtocolHandler.cpp:59-546 | what one server step sends a live client keeps its replica consistent packet by packet, and faithful at the end |
| `Refinement.TracksStep` | server/src/ProtocolHandler.cpp:59-546 | with its stream drained a live client's replica is faithful, before and after every step |
| `Refinement.KnownPersists` | client/src/Client.cpp:581-610 | a vertex a client ever knew is still in its replica while it lives on the server |
| `ReplicaTheorems.LogPointEmits` | server/src/ProtocolHandler.cpp:563-587 | each position of a stream belongs to exactly the step that sent that message |
| `ReplicaTheorems.ReplicaRefinesServer` | client/src/Client.cpp:581-667 | in every run and at every stream position the replica is consistent with the server tree at the step that sent the last consumed message, and faithful to the current tree once drained |
| `ReplicaTheorems.SnapshotCompletes` | client/src/Client.cpp:139-195 | a recursive "." snapshot of the root, applied at its stream position, makes the replica equal to the server tree |
| `ReplicaTheorems.WholeStaysWhole` | client/src/Client.cpp:191-195 | from then on it equals the server tree after every later message, but for the moment between its own delete's answer and announcement |
| `ReplicaTheorems.NoGhostsInvented` | client/src/Client.cpp:619-624 | no prefix of a snapshot of a known node makes `addNodes` invent a ghost |
| `ReplicaTheorems.SnapshotRoundTrip` | server/src/ProtocolHandler.cpp:235-244 | any recursive query on a known node rebuilds that subtree exactly, without ghosts; for a named query entry 0 is the node asked for |
| `ReplicaTheorems.LocalHitIsLive` | client/src/Client.cpp:88-93 | a child that `create` or `get` finds locally is the vertex a query would have returned |
| `ReplicaTheorems.CreateRaceCommutes` | client/src/Client.cpp:115-131 | answer first or announcement first, a replica that knows the parent ends up the same |
| `ReplicaTheorems.LateCreateAccept` | client/src/Client.cpp:115-131 | applied after its announcement, a create answer leaves a faithful replica if and only if the vertex still lives, whatever became of its parent; it never takes a name from the vertex that has it |
| `ReplicaTheorems.LateSnapshot` | client/src/Client.cpp:161-167 | applied late, a snapshot leaves a faithful replica if and only if all its entries are still true |
| `ReplicaTheorems.LateErase` | client/src/Client.cpp:387-391 | applied after the announcement, the erase by name leaves a faithful replica if and only if the parent lists no child of that name again |
| `LateResponses.DeathIsAnnounced` | client/src/Client.cpp:581-610 | over runs: a vertex that lived at an earlier step lives now if and only if its deletion has not been announced to the live client since |
| `LateResponses.LateCreateHarmlessIff` | client/src/Client.cpp:115-131 | over runs: a late create answer does no harm if and only if the deletion of its vertex has not been announced since |
| `LateResponses.LateSnapshotHarmlessIff` | client/src/Client.cpp:161-167 | over runs: a late snapshot, flat or recursive, named or not, does no harm if and only if no listed vertex has been announced as deleted since it was sent |
| `LateResponses.LateRootHarmlessIff` | client/src/Client.cpp:59-67 | announcements handled before the root is entered do no harm if and only if none names the root as a parent; otherwise the root keeps the name "ghost" |
| `ReplicaTheorems.StreamIsConsumable` | client/src/Client.cpp:191-195 | whatever a signed-in client is sent meets what its replica methods require |
| `History.OneLifetime` | server/src/ProtocolHandler.cpp:116-144 | in every run each uuid is added at most once and deleted at most once, after its add; the tree holds exactly the added and not deleted ones |
| `History.Lifetime` | server/src/ProtocolHandler.cpp:126-129 | a vertex keeps name and parent for life, and once dead stays dead |
| `History.LifetimesNested` | server/src/ProtocolHandler.cpp:423-434 | a vertex lives only while its parent does, and no two same-named siblings are alive together |
| `History.RemoveUnlinksOnlyIt` | client/src/Client.cpp:600-608 | on an announced deletion, removal by name never unlinks a different vertex, be the replica faithful or the node already unlinked by the client's own delete |
| `History.DataStep` | server/src/ProtocolHandler.cpp:262-270 | only an accepted write to a vertex changes its data; a new vertex starts empty |
| `History.GetReturnsLastWrite` | server/src/ProtocolHandler.cpp:262-270 | in every run the stored data is that of the latest accepted write since creation, empty if none |
| `History.GetAnswer` | server/src/ProtocolHandler.cpp:310-333 | and that is what a get returns; NOT_FOUND for a vertex that does not live |
| `Sessions.InverseIffSignsInOnce` | server/src/ProtocolHandler.cpp:82-84 | over whole runs the session tables are mutually inverse if and only if no connection signed in twice |
| `Sessions.SessionsPersist` | server/src/ProtocolHandler.cpp:29-41 | session ids never disappear and never change hands |
| `Sessions.CreatorLookup` | server/src/ProtocolHandler.cpp:486-487 | the session lookup of a call's target succeeds exactly for the vertices other than the root |
| `Rpc.LatestWithinWindow` | server/src/ProtocolHandler.hpp:73-75 | a forward is the latest under its 16-bit key if and only if fewer than 2^16 followed |
| `Rpc.RunCalls` | server/src/ProtocolHandler.cpp:494-512 | in every run an entry of the translation table stands for the latest unanswered forward under its key, despite the truncation of the 32-bit counter |
| `Rpc.CallIsForwarded` | server/src/ProtocolHandler.cpp:486-499 | a call reaches the creator of the vertex, and nobody else, under the low 16 bits of its number |
| `Rpc.AnswerReturnsToCaller` | server/src/ProtocolHandler.cpp:502-526 | within the window an answer goes to the connection that called, under the call's own id, and to nobody else; a second answer is dropped |
| `Rpc.AnswerResolvesIffRecent` | server/src/ProtocolHandler.cpp:502-526 | an answer resolves its own forward if and only if fewer than 2^16 calls followed |
| `Responders.CallRoundTrip` | client/src/Client.cpp:228-265 | a call goes to the creator of the vertex and its answer back: within the window the caller gets the handler's value, or NO_HANDLER, under the id of its own call |
| `Responders.CalledVertexIsHeld` | client/src/Client.cpp:228-265 | when a forwarded call arrives, the client it was sent to has the vertex, so its answer is never NOT_FOUND |
| `Subscribers.SubscriberAgrees` | server/src/ProtocolHandler.cpp:247-308 | a subscribed client that drains its stream after at least one later write has the server's data |
| `Subscribers.UnsubscribeEndsListening` | server/src/ProtocolHandler.cpp:392-401 | after an answered unsubscribe no listener entry leads to that connection |
| `Subscribers.SilentAfterUnsubscribe` | server/src/ProtocolHandler.cpp:367-402 | and until it subscribes again no write to that node is sent to it |
| `Examples.SecondSignin` | server/src/ProtocolHandler.cpp:82-84 | a run with two sign-ins on one connection after which the tables are not inverse |
| `Examples.HangupLeavesStray` | server/src/ProtocolHandler.cpp:29-41 | a run with two sign-ins and a hang-up after which the connection is still live |
| `Examples.LateAnswersRevive` | client/src/Client.cpp:115-131 | a run of create, query and delete after which either late answer leaves an unfaithful replica |
| `Examples.LateEraseUnlinksAnother` | client/src/Client.cpp:387-391 | a run of create, delete and create after which the late erase unlinks the new vertex |
| `Examples.LateRootIsGhost` | client/src/Client.cpp:66-67 | a run of two clients in which a create precedes the entry of the other client's root, which stays a ghost |
| `Examples.AnswerToWrongCall` | server/src/ProtocolHandler.cpp:502-526 | a run with 2^16 forwards after the first, whose answer is handed to the last of them |
| `Examples.CreateFromIds` | client/src/Client.cpp:550-571 | a history of sign-in and create in which the client takes two messages for the answers to its two requests and the third for an announcement, from the ids alone |
| `Examples.FirstCreate` | server/src/ProtocolHandler.cpp:74-153 | a client that connects, signs in and creates a property is live, and its stream holds exactly the sign-in, the answer and the announcement |
| `PostOrders.PostOrderMembers` | E2ETest/Utils.hpp:7-50 | the post-order of a subtree holds exactly the strict descendants |
| `PostOrders.PostDistinct` | E2ETest/Utils.hpp:7-50 | each of them once |
| `PostOrders.ChildrenFirst` | E2ETest/Utils.hpp:35-45 | everything below a vertex comes before it |
| `Listings.PostOrdered` | E2ETest/Utils.hpp:7-50 | siblings are deleted by name, what is below a node before it: the order of the paths |
| `PostOrders.PruneRemove` | server/src/ProtocolHandler.cpp:431-434 | deleting one more vertex leaves the tree pruned by one more vertex |
| `WalkSteps.DeleteAccepted` | client/src/Client.cpp:368-392 | a delete of a childless vertex is answered OK and vanishes from server and replica alike |
| `WalkSteps.DeleteRefused` | client/src/Client.cpp:380-386 | any other delete is answered NOT_FOUND or NOT_EMPTY and changes neither |
| `WalkSteps.QueryAnswered` | client/src/Client.cpp:153-173 | after `loadChildren(true)` the replica names everything below the node |
| `WalkSteps.AnswerShowsChildren` | client/src/Client.cpp:387-391 | once a delete is answered all other nodes already show the children they will have after its announcement |
| `WalkSteps.LateNoticeCommutes` | client/src/Client.cpp:191-195 | an announcement that arrives after the answer to the next delete makes no difference |
| `WalkSteps.RequestMoves` | client/src/Client.cpp:191-195 | after each request a replica that has consumed the answer, and however many further messages, already shows every vertex of the drained replica with the children it will have |
| `Walks.Walker.Destroy` | client/src/Client.cpp:368-392 | true exactly if the server deleted the vertex; server and drained replica change together |
| `Walks.Walker.Clean` | E2ETest/Utils.hpp:7-50 | with any number of announcements still unread at each step: terminates, deletes everything below the root in post-order, every delete answered OK, and leaves the root alone on both sides |
| `Walks.Walker.DeleteBelow` | monitor/src/main.cpp:222-287 | with any number of announcements still unread at each step: terminates and deletes exactly the same post-order below its node, every delete answered OK, although its index advances at another point |
| `Transactions.IdsInWindow` | client/src/Client.cpp:669-677 | two requests share an id exactly if they are a multiple of 65535 allocations apart |
| `Transactions.OrderlyStep` | client/src/Client.cpp:669-717 | entries and open requests stay in bijection through every fair step |
| `Transactions.MatchesOwnRequest` | client/src/Client.cpp:550-571 | an answer satisfies its own request and no other; notifications and calls satisfy none and reach their handler |
| `Transactions.ResultsAreOwnAnswers` | client/src/Client.cpp:689-717 | in every fair run a request returns only what was sent in answer to it, and the handlers see the notifications and calls in order and nothing else |
| `Transactions.FreshIdIff` | client/src/Client.cpp:672-683 | a new request gets an entry of its own if and only if no open request is a multiple of 65535 allocations older |
| `Transactions.StaleAnswerReturned` | client/src/Client.cpp:682-713 | otherwise it is given the answer that was left in the old entry |
| `Transactions.CallReachesHandlerIff` | client/src/Client.cpp:550-571 | a forwarded call reaches its handler if and only if no open request has its id |
| `Transactions.TransactionTable.AddTransaction` | client/src/Client.cpp:669-687 | the wrapping 16-bit counter with its skip yields the ids 0 to 65534 in turn |
| `Transactions.TransactionTable.Handle` | client/src/Client.cpp:550-571 | satisfies the entry of that id, or reports that the message must be dispatched |
| `Transactions.TransactionTable.WaitTransaction` | client/src/Client.cpp:689-717 | returns and removes the response; without one the entry stays |
| `Transactions.CallTakenForAnswer` | client/src/Client.cpp:550-571 | a fair run whose one pending request is given a forwarded call for its answer |
| `Transactions.StaleAnswerReached` | client/src/Client.cpp:682-713 | a fair run of 65535 requests after which the next one is given the late answer to the first |
| `EndToEnd.ReplicaFromIds` | client/src/Client.cpp:550-571 | in every history the replica built from ids and messages alone is the one that knows which request each message answers, so it refines the server tree |
| `EndToEnd.MessageRecognised` | client/src/Client.cpp:550-571 | the entry under a message's id stands for the very request it answers, and exactly the messages that answer none are dispatched |
| `EndToEnd.ArrivalAnswered` | server/src/ProtocolHandler.cpp:74-546 | when a request that is not silent arrives, its answer is the next message its client is sent, under the client's id for it |
| `EndToEnd.AnsweredAtMostOnce` | client/src/Client.cpp:669-717 | over a whole history each request is answered at most once, under its own id and after it arrived, and what a request returned is such an answer |
| `Framing.FramingRoundTrip` | server/src/ConnectionSession.cpp:36-76 | however the bodies are split into reads, the reader delivers exactly the bodies sent, in order |
| `Framing.WantsWithinMessage` | server/src/ConnectionSession.cpp:38-48 | the reader never asks for bytes beyond the current message, and asks for some while there are any |
| `Framing.DeliverableIffNoneEmpty` | server/src/ConnectionSession.cpp:50-55 | a list of messages can get through if and only if none of them is empty |
| `Framing.HeaderNeedsOneRead` | server/src/ConnectionSession.cpp:59-64 | a header read keeps the reader in step if and only if it returns both bytes |
| `Framing.SplitHeaderMisreads` | server/src/ConnectionSession.cpp:59-64 | a header split in two delivers a body that was never sent |
| `Framing.HeaderFitsBuffer` | server/src/ConnectionSession.hpp:28-32 | with bodies of at most 510 bytes to the server and 65534 to the client, the announced size fits the receiving buffer |
| `Framing.Frame` | server/src/ProtocolHandler.cpp:548-561 | the size arithmetic of both senders writes exactly the framed body |
| `Framing.FrameReader.HandleRead` | client/src/Client.cpp:464-509 | one call on the fixed buffer is one step of the reader, with the index in bounds |
| `Codecs.BuildFields` | interface/protocol.hpp:1258-1515 | the 27 kinds have distinct indices, and each is rebuilt from its fields in wire order |
| `Codecs.WireForm` | interface/protocol.hpp:272 | each kind is sent as its index in the variant and its fields in the interface's order, spelled out for all 27 |
| `Codecs.MessageRoundTrip` | interface/protocol.hpp:1258-1515 | decoding an encoded message of any kind, followed by anything, returns it and the rest |
| `Codecs.TransactionLawful` | interface/protocol.hpp:1798-1810 | the same for a message with its transaction id |
| `Codecs.ProtocolRoundTrip` | interface/protocol.hpp:1834-1866 | the same for protocol values, arrays included |
| `Codecs.EncodingUnambiguous` | interface/protocol.hpp:1834-1848 | no protocol value's wire form is a prefix of another's |
| `SampleKits.LawfulKitExists` | interface/protocol.hpp:307-321 | codecs of numbers, text and vectors that decode their own encoding exist, so the round trips are not void |
| `PerContexts.Context.EncodeProtocol` | interface/protocol.hpp:1834-1848 | encoding into a context appends the wire form |
| `PerContexts.Context.DecodeProtocol` | interface/protocol.hpp:1850-1866 | decoding from a context takes the wire form off its front, or fails with a primitive codec |
| `PerContexts.Context.EncodeMessage` | interface/protocol.hpp:1258-1372 | the chain over the 27 alternatives appends the fields each kind's table row lists |
| `PerContexts.Context.DecodeMessage` | interface/protocol.hpp:1374-1515 | the chain over the 27 indices fills the fields each kind's table row lists; an unknown index decodes nothing |
| `PerContexts.Context.EncodeNode` | interface/protocol.hpp:307-313 | appends name, uuid and parent uuid |
| `PerContexts.Context.DecodeNode` | interface/protocol.hpp:315-321 | takes name, uuid and parent uuid |

## Left out

- Sockets, the epoll reactor, signals, logging and the JSON printers: input and output only.
- Mutexes, condition variables and the 500 ms timeout: each handler is one atomic step; a wait that times out is a wait that finds no response.
- Responses applied by calling threads: they take effect at their stream position, except in `LateResponses` and the lemmas about late answers, the late erase and the create race.
- ProtocolHandling.ProtocolHandler.OnMsg: one message at a time; an array of messages is that many receive events.
- ProtocolHandling.ProtocolHandler.HandleCreate: the new node object is made with its uuid once the name is known to be free, where the code makes it with the placeholder -1 and assigns the uuid after `emplace`.
- ProtocolHandling.ProtocolHandler.SendToListeners: the branch that looks a lost connection up again in the session table and stores it back is left out; a listener entry is keyed by the session its connection signed in with, so that lookup finds nothing once the connection is gone.
- ProtocolHandling.ProtocolHandler.HandleSetValue: the terminate value ends the run; the terminator callback is not part of this model.
- Connection identities: a connection object is an integer that is never reused.
- ClientReplica.Client.AddNodes: the iterator of a node found before a ghost parent is inserted is taken to stay valid; a rehash of the hash map in between is not modelled. No entry may be its own parent.
- ClientReplica.Client.RemoveNodes: requires that no other node held still refers to a removed uuid, which every stream of the server ensures (`ReplicaTheorems.StreamIsConsumable`); the dangling references the code would leave otherwise are not modelled.
- ClientReplica.Client.Consume: requires the same of the uuids in a notification.
- ClientReplica.Client.FinishCreate: a CreateAccept under a parent node that has left the index is covered on values only (`ReplicaTheorems.LateCreateAccept`); other answers may find the parent gone.
- ClientReplica.Client.StoreData: the call of the application's update handler after the store is not part of this model.
- ClientReplica.Client.AcceptCreate: the add and remove handlers of the application are not called.
- Client operations `commit`, `fetch`, `subscribe`, `unsubscribe`, `beat` and `call` beyond the effect of their answers: they send one request and wait.
- Walks.Walker.Clean: one active client; a second one that creates or deletes during the walk is not modelled.
- Walks.Walker.DeleteBelow: only the delete action of the monitor; the fetch of each node and the printed lines are left out.
- Framing.FrameReader.HandleRead: requires that an announced size fits the buffer, which the senders' limits ensure.
- Codecs.LawfulKit: the codecs of primitives and vectors are assumed to decode their own encoding; their source is not part of this model, and the kit of `SampleKits` only shows that the assumption can be met.
- Framing.Frame: a body longer than the buffer is not modelled, since the codec that would report it is not part of this model.
- The monitor's command line, path lookup and printing, `Property` wrappers, the vendored test framework and the design notes.
