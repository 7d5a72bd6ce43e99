# matrix-octopus: a verified model

matrix-octopus bridges Matrix users to remote agents that are connected over websockets. This project
models the core of the bridge in Dafny and proves what it keeps over whole runs:

* **Agent scheduler** (`HeapSpec`, `PriorityQueue`, `Scheduler`, `SchedulerRuns`, `Balance`, `Service`).
  `HeapSpec.dfy` is Go's published `container/heap` algorithm as functions; class `PriorityQueue` runs it
  in place on the agents' slice and back pointers, and every method is proved equal to its function.
  `Scheduler.dfy` is the service's bookkeeping as a value (queue, the agents' client maps, `clients`,
  `clientToAgent`, `mxid`), with one function per critical section; class `OctopusService` is proved to do
  exactly that to its fields. `SchedulerRuns` and `Balance` reason about any sequence of events.
* **Locks** (`Threads`, `Refinement`, `Deadlock`, `Progress`). Any number of goroutines; a step is one lock
  operation or one write, `heap.up` climbs a level at a time, and only the deletion loop and the `heap.Remove`
  of a disconnect, and the making of an agent together with its append to the queue, are one step each. A
  reader may pass a writer that is still waiting, so the steps allow more than Go does; who blocks whom counts
  waiting writers. `Refinement` proves that every interleaving is one growing run of whole critical sections,
  that transmits are sticky and that packets and refusals reach the right caller; `Deadlock` characterises who
  can wait forever, and `Progress` that nobody else can.
* **Request/response protocol** (`Transmit`, `TransmitTheorems`, `TransmitOutcomes`, `Agents`). One agent
  connection with any number of callers and response handlers and an agent that may answer late, twice, out
  of order or unasked. Lookup and send are separate steps; request IDs are explicit wrapping int64 numbers.
  `TransmitOutcomes` says how every call ends and with which response, in terms of the steps of the run.
* **Packets and typed calls** (`Json`, `Protocol`, `Rpc`, `Calls`, `WireForms`, `Attachments`). Go's
  `encoding/json` on JSON trees, driven by descriptors of the structs, tags and `UnmarshalJSON` methods; every
  type assertion that relies on them. `Calls` ties the typed calls to the runs of the transmit protocol;
  `WireForms` writes out what every request and answer looks like.
* **Supporting pieces** (`MessageIds`, `Replies`, `Geo`, `GeoNumbers`, `Heartbeats`, `Resync`, `ResyncRuns`,
  `ResyncRefines`).

## What turned out not to hold

The model follows the code, and where the code does less than its comments or names suggest, there is a
lemma with the exact condition or a concrete run:

* `assignAgent` calls `os.queue.Pop()`, not `heap.Pop(os.queue)`: it takes the agent in the last slot
  (`Balance.LastSlotGetsAll`, `Balance.NewcomerStarves`, `Balance.OneAgentTakesAll`). That agent is a least
  loaded one exactly if it serves no more clients than the root (`Balance.LeastIsChosenIff`), and a balanced
  fleet stays balanced exactly if the new clients bring it to at most one above the root, or it is the only
  agent (`Balance.StaysBalancedIff`). With `heap.Pop` both always hold.
* A disconnect and `assignAgent` can deadlock (`Deadlock.DeadlockIsReachable`, `Deadlock.StuckIff`).
* `handleResponse` can send on a closed channel (`TransmitTheorems.CrashIsReachable`, `TransmitTheorems.CrashIff`).
* A response whose type is not that of the request can make a typed call panic (`Rpc.PanicIff`), or return
  nil without an error (`Rpc.NoDataIff`). Sending a message, a background resync and the QR login then
  dereference nil (`pkg/connector/handle_matrix.go:62`, `pkg/connector/chatinfo.go:217`,
  `pkg/connector/login.go:78`; `Replies.StoredIff`, `Calls.ContactIff`).
* User information whose avatar is not empty and does not parse as a URL crashes a background resync, which
  dereferences the nil URL (`pkg/connector/chatinfo.go:374-375`; `Calls.ContactIff`, `Calls.BadAvatarIsFatal`).
* A message of a kind without a conversion, a media message with a null blob or a blob of unknown type, or a
  sticker, audio, video or file message without a blob makes the conversion panic (`Attachments.UnfitIff`).
* The check interval wraps for large announced intervals (`Heartbeats.IntervalIff`), and a disposed client
  stays logged in exactly if the last signal before was a true one (`Heartbeats.LastSignalDecides`,
  `Heartbeats.StaysTrueAfterDispose`).
* Message IDs of chats with a colon collide, and a chat named `fake` cannot be parsed back
  (`MessageIds.CollideIff`, `MessageIds.ParseMakeIff`).

## Assumptions

* A client transmits only after `NewClient` made it; the type system cannot say so, the models do.
* A bridge ghost's `UpdateInfo` runs the `ExtraUpdates` it is given.
* A timer fires at its deadline or up to a stated lag later; the clock does not go backwards.
* Go's runtime: mutexes exclude, a waiting writer of a `RWMutex` keeps new readers out, `select` with a
  default never blocks, JSON object members match field names up to case, an unmatched interface field
  holding a pointer to an empty `json.RawMessage` keeps it, and decoding an empty raw message fails.

## Model

| member | source | states |
|---|---|---|
| HeapSpec.PushIsHeap | pkg/octopus/service.go:150 | pushing onto a heap gives a heap of the same agents and the new one |
| HeapSpec.PushHeavyStays | pkg/octopus/service.go:250 | an agent no lighter than its parent stays in the slot it was appended to |
| HeapSpec.PushLightestIsRoot | pkg/octopus/service.go:150 | an agent lighter than all others ends at the root |
| HeapSpec.RemoveIsHeap | pkg/octopus/priority_queue.go:37-39 | whatever happened to the weight of one item, removing its slot takes exactly that item out and leaves a heap of the others |
| HeapSpec.PopRootIsHeap | pkg/octopus/priority_queue.go:28-35 | heap.Pop takes out the root and leaves a heap of the others |
| HeapSpec.RootIsLightest | pkg/octopus/priority_queue.go:11-13 | the root of a heap is no heavier than any slot |
| HeapSpec.UpOrders | pkg/octopus/priority_queue.go:11-26 | climbing mends a heap whose one slot may be too light |
| HeapSpec.DownOrders | pkg/octopus/priority_queue.go:11-39 | sinking mends a heap whose one slot may be too heavy |
| HeapSpec.SiftOrders | pkg/octopus/priority_queue.go:37-39 | sinking, or climbing if nothing sank, mends a heap one slot of which holds anything at all |
| HeapSpec.LightChildIff | pkg/octopus/priority_queue.go:11-13 | the child an agent may sink to is a lightest one, and of two equal ones the left one |
| HeapSpec.SinksIff | pkg/octopus/priority_queue.go:11-13 | an agent sinks exactly if some child serves strictly fewer clients |
| HeapSpec.DownLightStays | pkg/octopus/priority_queue.go:37-39 | above children that are as heavy it stays in its slot |
| PriorityQueues.PriorityQueue.Swap | pkg/octopus/priority_queue.go:15-19 | exchanges two slots and keeps every back pointer exact, also for i = j |
| PriorityQueues.PriorityQueue.Push | pkg/octopus/priority_queue.go:21-26 | appends the agent with its index, all other indexes stay exact |
| PriorityQueues.PriorityQueue.Pop | pkg/octopus/priority_queue.go:28-35 | takes the last slot, whatever it holds, and sets that agent's index to -1 |
| PriorityQueues.PriorityQueue.Up | pkg/octopus/priority_queue.go:11-19 | the in-place climb equals HeapSpec.Up and keeps the indexes exact |
| PriorityQueues.PriorityQueue.Down | pkg/octopus/priority_queue.go:11-19 | the in-place sinking of the first n slots equals HeapSpec.Down, says whether anything moved, and leaves the rest alone |
| PriorityQueues.PriorityQueue.PickChild | pkg/octopus/priority_queue.go:11-13 | the child chosen is the right one exactly if there is one and it serves fewer clients than the left one, else the left one, on a tie too |
| PriorityQueues.PriorityQueue.HeapPush | pkg/octopus/service.go:250 | heap.Push equals HeapSpec.Push with exact indexes |
| PriorityQueues.PriorityQueue.HeapPop | pkg/octopus/priority_queue.go:28-35 | heap.Pop, which line 242 of service.go does not call: returns the old root, leaves HeapSpec.PopRoot |
| PriorityQueues.PriorityQueue.HeapRemove | pkg/octopus/priority_queue.go:37-39 | heap.Remove returns the item of the slot, sets its index to -1 and leaves HeapSpec.Remove with exact indexes |
| PriorityQueues.PriorityQueue.Remove | pkg/octopus/priority_queue.go:37-39 | the agent's own index is a valid slot and holds that agent; exactly it is removed |
| Scheduler.NewClientKeepsInv | pkg/octopus/service.go:74-96 | NewClient keeps the service invariant |
| Scheduler.ConnectKeepsInv | pkg/octopus/service.go:147-151 | connecting keeps the invariant and adds exactly the new agent to the heap |
| Scheduler.AssignShape | pkg/octopus/service.go:241-251 | Pop, one more client, heap.Push leaves every agent in its slot and gives the client to the agent in the last one |
| Scheduler.AssignKeepsInv | pkg/octopus/service.go:229-254 | assigning keeps the invariant and the order of the queue |
| Scheduler.DisownExact | pkg/octopus/service.go:161-163 | the deletion loop removes exactly the mappings to this agent |
| Scheduler.ReleaseOrderedAround | pkg/octopus/service.go:165 | emptying a queued agent leaves the heap ordered around its slot |
| Scheduler.ReleaseBreaksOrderIff | pkg/octopus/service.go:165 | the heap is out of order then exactly if the agent is not the root and its parent still serves somebody |
| Scheduler.UnqueueOk | pkg/octopus/service.go:167 | from that state Remove restores a heap of exactly the other agents |
| Scheduler.DisconnectKeepsInv | pkg/octopus/service.go:153-172 | the whole disconnect keeps the invariant; exactly the agent leaves and exactly its clients become unassigned |
| Scheduler.ServedAreOwned | pkg/octopus/service.go:190-212 | a packet dispatched to an mxid finds a receiver exactly when the mxid is assigned to this agent, and it is the one client object of that mxid |
| Scheduler.OwnedIsServed | pkg/octopus/service.go:247-248 | an assigned mxid's agent is queued and serves it |
| SchedulerRuns.QueueHoldsConnected | pkg/octopus/service.go:149-167 | after any run the heap holds exactly the connected agents, each once |
| SchedulerRuns.StickyRun | pkg/octopus/service.go:219-236 | in runs of whole critical sections, between its assignment and its agent's disconnect every transmit of an mxid goes to that agent; `Refinement.StickyThreads` lifts it to interleaved goroutines |
| SchedulerRuns.NoAgentIff | pkg/octopus/service.go:221-224 | NoAgentError exactly if the mxid is unassigned and every agent has disconnected again |
| SchedulerRuns.Conservation | pkg/octopus/service.go:160-168 | the client counts of the queued agents add up to the size of clientToAgent |
| SchedulerRuns.RunOneMore | pkg/octopus/service.go:126-254 | runs extend by one event at the end |
| Balance.LastSlotGetsAll | pkg/octopus/service.go:241-251 | with no connect or disconnect all new clients go to the same last-slot agent, nobody else's change |
| Balance.NewcomerIsNextIff | pkg/octopus/service.go:149-151 | a new agent gets the next new client exactly if it is the only agent or the parent of its slot serves nobody |
| Balance.NewcomerStarves | pkg/octopus/service.go:149-151 | a new agent among loaded ones becomes the root and is given none of the clients that follow |
| Balance.LeastIsChosenIff | pkg/octopus/service.go:241-242 | as written the chosen agent is the one in the last slot, and has minimal load exactly if it serves no more than the root |
| Balance.StaysBalancedIff | pkg/octopus/service.go:241-251 | as written a fleet whose loads differ by at most one stays so over any assignments exactly if it is a single agent or the unserved clients bring the last slot's agent to at most one above the root |
| Balance.LastGetsAllUnserved | pkg/octopus/service.go:241-251 | the last slot's agent gains exactly the number of clients that were unserved |
| Balance.LightestIsChosen | pkg/octopus/service.go:241-242 | with heap.Pop the chosen agent has minimal load |
| Balance.AssignLightestBalances | pkg/octopus/service.go:241-251 | with heap.Pop one assignment keeps all loads within one of each other |
| Balance.BalanceKept | pkg/octopus/service.go:241-251 | so does any run of assignments |
| Balance.OneAgentTakesAll | pkg/octopus/service.go:241-251 | for every n, as written one of two agents serves all n clients, while the variant stays balanced |
| Services.OctopusService.constructor | pkg/octopus/service.go:54-72 | a new service is the empty value and satisfies the invariant |
| Services.OctopusService.NewClient | pkg/octopus/service.go:74-96 | returns the client object of the mxid, new or old, with the new functions; no other client changes |
| Services.OctopusService.Connect | pkg/octopus/service.go:147-151 | a fresh agent is queued; the fields change as Scheduler.Connect says |
| Services.OctopusService.AssignAgent | pkg/octopus/service.go:229-254 | the fields and the returned agent are Scheduler.Assign's, the invariant is kept |
| Services.OctopusService.UnmapClients | pkg/octopus/service.go:161-163 | the loop over the agent's clients deletes what Scheduler.Disown says |
| Services.OctopusService.EmptyAndRemove | pkg/octopus/service.go:164-167 | the agent is emptied in place, then removed with a valid index, and ends with index -1 |
| Services.OctopusService.Disconnect | pkg/octopus/service.go:153-172 | the fields change as Scheduler.Disconnect says and the invariant is kept |
| Services.OctopusService.Route | pkg/octopus/service.go:219-227 | fails exactly if unassigned and the queue is empty; otherwise the agent serves this very client, and an assigned mxid changes nothing |
| Services.OctopusService.Receiver | pkg/octopus/service.go:190-212 | a receiver is found exactly if the mxid is assigned to this agent, and is os.clients[mxid] |
| Threads.LocksTaken | pkg/octopus/service.go:149-251 | a thread holds after a step only what it held before or was about to take |
| Threads.StepKeepsExclusive | pkg/octopus/service.go:149-251 | locks stay exclusive over every step of every thread |
| Deadlock.OnlyAssignerDescends | pkg/octopus/service.go:230-239 | only assignAgent waits for a lock ranked below one it holds |
| Deadlock.SomeAssigner | pkg/octopus/service.go:230-239 | every set of threads blocked only on each other contains such an assigner |
| Deadlock.StuckSetHasBoth | pkg/octopus/service.go:153-158 | and a disconnecter that holds queueLock and waits for clientsLock |
| Deadlock.StuckIff | pkg/octopus/service.go:153-239 | a reachable configuration has a stuck set exactly if an assigner and a disconnecter face each other |
| Deadlock.CommonOrderNeverStuck | pkg/octopus/service.go:230-239 | with one common order of the two locks no reachable configuration has a stuck set |
| Deadlock.StuckForever | pkg/octopus/service.go:153-239 | two threads that face each other never move again |
| Deadlock.DeadlockIsReachable | pkg/octopus/service.go:126-239 | a run with one agent and one client ends in a deadlock |
| Progress.SomebodyGoes | pkg/octopus/service.go:74-254 | in every reachable configuration without that pair, and with the common order in every one, some goroutine that nobody blocks has a step unless all are done |
| Progress.ThreadGoes | pkg/octopus/service.go:74-254 | as far as the data goes every goroutine that is not done has a next step |
| Refinement.WritesAreGuarded | pkg/octopus/service.go:149-251 | the queue is written under queueLock, the client tables under clientsLock, an agent's clients under both and its own lock |
| Refinement.HeapIsStable | pkg/octopus/service.go:149-251 | while a thread has queueLock no other thread's step moves the queue or changes a heap key |
| Refinement.StepRefines | pkg/octopus/service.go:74-254 | every step of every thread is nothing or one whole critical section of the service's value |
| Refinement.RunRefines | pkg/octopus/service.go:74-254 | for every interleaving there is one legal run of whole critical sections, growing by at most one at each step, whose beginnings the configurations stand for, including the agent that each assignAgent returns |
| Refinement.RunGrows | pkg/octopus/service.go:74-254 | what an earlier configuration stands for is a beginning of what a later one stands for |
| Refinement.GotIsOwner | pkg/octopus/service.go:219-236 | in every reachable configuration the agent a goroutine is about to transmit through is the one its mxid is mapped to |
| Refinement.LeavesFrom | pkg/octopus/service.go:219-227 | assignAgent is left only from its release of clientsLock: to transmit through the agent it got, or to fail without one |
| Refinement.TransmitsToOwner | pkg/octopus/service.go:219-236 | over every interleaving, the agent a goroutine goes on to transmit through is the one its mxid is mapped to, in the tables and in the run they stand for |
| Refinement.FailsWithoutAgent | pkg/octopus/service.go:221-254 | over every interleaving, a transmit fails for want of an agent only if its mxid is still unmapped, and was when the queue was empty |
| Refinement.ReceiverIsRight | pkg/octopus/service.go:190-212 | in every reachable configuration, also in the middle of an assign or a disconnect, a reader under the agent's lock finds a receiver exactly if the mxid is mapped to this agent, and it is the one client object of the mxid |
| Refinement.RefusalIsRight | pkg/octopus/service.go:229-254 | in every reachable configuration a goroutine that found no agent sees its mxid unmapped and the queue empty while it has both locks |
| Refinement.StickyThreads | pkg/octopus/service.go:160-236 | over every interleaving, if two goroutines go on to transmit for one mxid they do so through the same agent, unless between the two steps a disconnect of the first one's agent deletes its mappings |
| Refinement.QuietDataIsAtomic | pkg/octopus/service.go:149-254 | whenever nobody has queueLock the data itself is the end of such a run and satisfies the invariant |
| Refinement.NewClientBesideConnect | pkg/octopus/service.go:75-151 | NewClient may run in the middle of a connect, which does not take clientsLock, without disturbing it |
| Transmit.RunInv | pkg/octopus/agent.go:44-123 | the protocol invariant holds in every reachable state |
| TransmitTheorems.Correlated | pkg/octopus/agent.go:55-82 | a response that transmit returns carries that call's own ID, which no other call has drawn |
| TransmitTheorems.NoWaiterLeft | pkg/octopus/agent.go:45-90 | at most one waiter is registered, and none whenever writeLock is free or a call is past its deferred removal, on every exit |
| TransmitTheorems.SameIdIff | pkg/octopus/agent.go:56 | two requests share an int64 ID exactly if a multiple of 2^64 lies between them |
| TransmitTheorems.WireOrder | pkg/octopus/agent.go:45-67 | requests are written in the order of their numbers, with strictly increasing IDs below 2^63 |
| TransmitTheorems.IdDropsIff | pkg/octopus/agent.go:56 | the one wrap-around where an ID is followed by a smaller one |
| TransmitTheorems.LateResponseMisses | pkg/octopus/agent.go:93-123 | a response that arrives after its request is over finds no waiter or one at least 2^64 requests younger |
| TransmitTheorems.LateResponseDropped | pkg/octopus/agent.go:93-123 | so with fewer than 2^64 requests it is never delivered |
| TransmitTheorems.ClosedIff | pkg/octopus/agent.go:94-122 | a handler's channel is closed exactly if removeResponseWaiter closed it after the lookup |
| TransmitTheorems.CrashIff | pkg/octopus/agent.go:94-122 | the send panics exactly if that happened before it |
| TransmitTheorems.AtomicSendNeverCrashes | pkg/octopus/agent.go:94-122 | with lookup and send as one step no run sends on a closed channel |
| TransmitTheorems.CrashIsReachable | pkg/octopus/agent.go:94-122 | as written a run does |
| TransmitTheorems.AcceptsOneBeyondTaken | pkg/octopus/agent.go:61-100 | a waiter accepts at most one response beyond the one its call consumed |
| TransmitOutcomes.OutcomeIff | pkg/octopus/agent.go:48-90 | over every interleaving a call is answered exactly if it took a response, has timed out exactly if its timeout fired, and likewise for a failed write and a missing connection; a call that is not on its way out did none of these |
| TransmitOutcomes.AnsweredWithFirst | pkg/octopus/agent.go:72-107 | a call that took a response is answered with the first one that a handler sent into its channel, whatever was sent after it |
| TransmitOutcomes.TakeIff | pkg/octopus/agent.go:72-73 | a waiting call can take a response exactly if one was sent into its channel |
| TransmitOutcomes.LookupIff | pkg/octopus/agent.go:93-96 | a response finds a channel exactly if a call with its ID has registered its waiter and not removed it yet, and then that call's channel |
| TransmitOutcomes.AnswerIsReachable | pkg/octopus/agent.go:44-107 | for every response with the first ID there is a run that returns it |
| TransmitOutcomes.ConnectedIff | pkg/octopus/agent.go:48-50 | a call ends without a connection only after the connection was closed |
| TransmitOutcomes.WrittenIff | pkg/octopus/agent.go:67 | a call's request is among those written exactly if its write succeeded |
| Agents.FirstFor | pkg/octopus/agent.go:93-107 | finds the first response with an ID, and none exactly if there is none |
| Agents.FirstForMore | pkg/octopus/agent.go:98-103 | a further response counts only if none with the ID came before |
| Agents.Agent.AddResponseWaiter | pkg/octopus/agent.go:109-113 | registers the waiter |
| Agents.Agent.RemoveResponseWaiter | pkg/octopus/agent.go:115-123 | deletes the entry only if it is this waiter's, and closes the waiter either way |
| Agents.Agent.HandleResponse | pkg/octopus/agent.go:93-107 | the waiter of the response's ID keeps it if it has none yet; every other waiter is untouched |
| Agents.Agent.Transmit | pkg/octopus/agent.go:48-90 | answers with the first response carrying its own ID, or times out, or fails; no waiter is left and the next call gets the next ID |
| Json.FindEncoded | pkg/octopus/protocol.go:19-24 | a field looked up in the encoding of its struct is its own encoding, and absent exactly if it was omitted |
| Json.RoundTrip | pkg/octopus/protocol.go:276-472 | decoding an encoding gives the value back up to Norm, for every well-formed descriptor and value of its type |
| Json.NormLossless | pkg/octopus/protocol.go:144-177 | Norm changes nothing if omitted fields are zero and every payload is typed |
| Json.ExactRoundTrip | pkg/octopus/protocol.go:276-472 | such a value comes back exactly |
| Json.DecodedBody | pkg/octopus/protocol.go:276-472 | whatever was sent, if it decodes the payload was decoded as the type its tag asks for from a member that was there and not null, and is raw or nil exactly if the tag asks for none |
| Json.BytesEitherWay | pkg/octopus/protocol.go:267 | bytes sent as an array of numbers decode as the same bytes in base64 do |
| Json.BodyFails | pkg/octopus/protocol.go:286-311 | a payload that is nil, or does not decode, where the tag asks for a type fails the whole struct |
| Json.MemberDecoded | pkg/octopus/protocol.go:276-472 | a field holds what the member of its name decodes to, and zero without one |
| Json.FindLast | pkg/octopus/protocol.go:276-472 | of several members of one name the last one counts |
| Json.FindNone | pkg/octopus/protocol.go:276-472 | a member is missing exactly if no key is its name up to case |
| Json.NullIsZero | pkg/octopus/protocol.go:276-472 | a null decodes as the zero value: empty text, false, zero, nil |
| Json.IntegerIff | pkg/octopus/protocol.go:20 | a number decodes as an integer exactly if it is one, is written as one and is in range |
| Protocol.NumberRanges | pkg/octopus/protocol.go:20 | the ranges are those of int64 and, for the interval of a heartbeat, uint32 |
| Protocol.MessageWf | pkg/octopus/protocol.go:218-268 | the Message tags, its parts and attachments are a well-formed descriptor |
| Protocol.NoticeWf | pkg/octopus/protocol.go:167-177 | so are Notice and Heartbeat |
| Protocol.RequestWf | pkg/octopus/protocol.go:144-147 | so is Request |
| Protocol.ResponseWf | pkg/octopus/protocol.go:149-159 | so is Response |
| Protocol.PacketWf | pkg/octopus/protocol.go:19-24 | so is Packet: no two fields of any struct share a name up to case |
| Rpc.DecoderMeetsCallers | pkg/octopus/protocol.go:364-413 | each branch of Response.UnmarshalJSON builds the type the client method of that name asserts, and there is a branch for exactly those methods |
| Rpc.PanicIff | pkg/octopus/client.go:42-160 | for every response that decodes, a data-returning call panics exactly if there is no error and the type is of a method with other data, or of none while data is absent or not null |
| Rpc.NoDataIff | pkg/octopus/client.go:42-160 | it returns nil without an error exactly if there is no error, the type is of no data-returning method and data is null |
| Rpc.GotIff | pkg/octopus/client.go:42-160 | it returns data exactly if there is no error and the type is of a method with the same data; the data is the response's and not nil |
| Rpc.EchoIsSafe | pkg/octopus/client.go:42-160 | an agent that echoes the request's type never makes the call panic, for every response that decodes |
| Rpc.DispatchIsSafe | pkg/octopus/service.go:190-215 | the assertions on *Notice, *Message and *Response hold for every packet that decodes, and the pointers are not nil |
| Rpc.HeartbeatIsSafe | pkg/octopus/client.go:199-201 | the assertion on *Heartbeat holds for every heartbeat notice that decodes |
| Rpc.IntervalIsFound | pkg/octopus/protocol.go:167-170 | in spite of its mistyped tag the heartbeat interval is decoded from the name that was meant |
| Rpc.PacketRoundTrip | pkg/octopus/protocol.go:276-314 | every packet whose payload agrees with its tags comes back up to Norm |
| Rpc.PacketExactRoundTrip | pkg/octopus/protocol.go:276-314 | and unchanged if nothing in it is omitted or untyped |
| Rpc.AnswerArrives | pkg/octopus/protocol.go:350-416 | a successful typed response comes back as sent, up to Norm, exactly if its data is not nil; with nil data the packet does not decode |
| Rpc.EndToEnd | pkg/octopus/agent.go:72-82 | every data-returning method gets, as the type it asserts, the data of the first response with its ID, whatever else arrives before and after |
| Rpc.BrokenPacketEnds | pkg/octopus/service.go:175-188 | behind a packet that does not decode nothing is heard: the call fails |
| Calls.AllArrived | pkg/octopus/agent.go:93-107 | every response a handler, a channel or a finished call of any run holds has arrived from the agent |
| Calls.AnsweredFromOwn | pkg/octopus/agent.go:44-107 | in every interleaving a call that took a response returns what the client method makes of the first one sent into its channel, which carries the call's own ID |
| Calls.AnsweredCallGets | pkg/octopus/client.go:42-160 | so if the agent answers the request with data of its type under its own name, however often or late, a call that took a response gets that data as the type it asserts |
| Calls.UnansweredFails | pkg/octopus/agent.go:48-90 | a call that returns without having taken a response returns an error, and its timeout fired, its write failed or there was no connection |
| Calls.ContactIff | pkg/connector/chatinfo.go:212-217 | a background GetUserInfo is skipped exactly on a refusal, used exactly on user information whose avatar is empty or parses as a URL, and fatal on any other response that decodes |
| Calls.BadAvatarIsFatal | pkg/connector/chatinfo.go:370-375 | for every avatar that does not parse there is a response that decodes, carries user information and is fatal |
| Rpc.RequestsMeetDecoder | pkg/octopus/protocol.go:326-345 | Request.UnmarshalJSON decodes every method's parameters as the type the client sends, and leaves them raw exactly where it sends none |
| Rpc.RequestArrives | pkg/octopus/client.go:26-169 | every request the client methods send decodes to the same method and parameters, exactly unless Login or SendMessage was given nil |
| WireForms.PacketOnWire | pkg/octopus/protocol.go:19-24 | a packet is written with its id, mxid, type and payload under these names, in this order |
| WireForms.RequestOnWire | pkg/octopus/client.go:26-169 | what each of the twelve client methods writes, as a JSON tree: its method name, and its parameters in place or none |
| WireForms.AnswerOnWire | pkg/octopus/protocol.go:149-153 | a successful response is written as its type and its data, without an error member |
| WireForms.RefusalOnWire | pkg/octopus/protocol.go:149-159 | a refusal is written with its code and message; the HTTP status stays behind |
| WireForms.HeartbeatOnWire | pkg/octopus/protocol.go:167-170 | a heartbeat is written with the Go name of its interval, as the tag is misspelt |
| WireForms.NoticeOnWire | pkg/octopus/protocol.go:172-177 | a notice that carries one, with all its names |
| WireForms.TextOnWire | pkg/connector/handle_matrix.go:26-53 | a text message from Matrix as a JSON tree, with sender, chat and reply, and without what is empty |
| WireForms.UserRead | pkg/octopus/protocol.go:179-200 | under which names user, member and sender information is read |
| WireForms.GroupRead | pkg/octopus/protocol.go:186-193 | so for a group |
| WireForms.LocationRead | pkg/octopus/protocol.go:257-262 | so for a location |
| WireForms.AppRead | pkg/octopus/protocol.go:251-255 | so for a shared app |
| WireForms.LoginRead | pkg/octopus/protocol.go:95-103 | so for a login step |
| WireForms.DisplayRead | pkg/octopus/protocol.go:60-64 | so for what a login shows |
| WireForms.InputRead | pkg/octopus/protocol.go:79-85 | so for what a login asks for |
| Attachments.UnfitIff | pkg/msgconv/from_octopus.go:22-75 | no assertion on a decoded attachment ever fails; the conversion of a decoded message panics exactly for a kind without a conversion, a null blob or one whose unknown type is looked up, or no blob where one part is taken |
| Attachments.DecodedPointers | pkg/octopus/protocol.go:451-456 | a decoded list of blobs has a nil exactly where the array has a null, and elsewhere the decoded item |
| MessageIds.SplitOnce | pkg/octopusid/ids.go:32 | splits at the first colon, and only there |
| MessageIds.ParseMakeIff | pkg/octopusid/ids.go:18-41 | parsing undoes making, for every id, exactly for chats without a colon that are not "fake" |
| MessageIds.ParseIff | pkg/octopusid/ids.go:31-41 | what is accepted is exactly what was made from such a chat |
| MessageIds.RejectIff | pkg/octopusid/ids.go:31-41 | what is rejected: as fake exactly what starts with "fake:", as invalid exactly what has no colon |
| MessageIds.MakeInjective | pkg/octopusid/ids.go:18-20 | chats without a colon: different messages have different IDs |
| MessageIds.CollideIff | pkg/octopusid/ids.go:18-20 | two chats share a message ID exactly if one is the other, a colon and more |
| MessageIds.FakeIsRejected | pkg/octopusid/ids.go:22-36 | every fake ID is rejected, and is an ID of the chat "fake" |
| MessageIds.FakeIsNeverReal | pkg/octopusid/ids.go:18-24 | no chat that can be parsed back has a message with a fake ID |
| Replies.OctopusMessage.ConvertRevoke | pkg/msgconv/from_octopus.go:203-206 | overwrites the reply with the message's own id |
| Replies.OctopusMessage.ToMatrix | pkg/msgconv/from_octopus.go:22-75 | ReplyTo names the replied-to message in the same chat, for a revoke the revoked one |
| Replies.HandleMatrixMessage | pkg/connector/handle_matrix.go:16-69 | which message is sent with which reply, its fields those of the event; what is stored under which ID, and every error exit, for every way SendMessage can end |
| Replies.OutgoingIff | pkg/connector/handle_matrix.go:16-53 | a message is sent exactly for a logged-in user, convertible content, a private or group chat and no reply or one to a message of a clean chat; id, timestamp, sender, chat, chat type and reply are those of the event |
| Replies.NotSentIff | pkg/connector/handle_matrix.go:17-53 | which error exit is taken, exactly when |
| Replies.StoredIff | pkg/connector/handle_matrix.go:57-67 | for every response that decodes: the message is stored, under the id and timestamp of the message in the response, exactly if the response carries one, nil is dereferenced exactly if its type is of no data-returning method and its data is null, and a refusal is reported |
| Replies.ReplyCarriesIdIff | pkg/connector/handle_matrix.go:45-53 | a Matrix reply carries back the original Octopus id exactly if the chat is clean and the message is no revoke notice |
| Replies.RevokeNotice | pkg/connector/events.go:130-147 | a revoke notice cannot be replied to, shares its ID with no message of a chat that can be parsed back, and replies to exactly the message GetTargetMessage names |
| Replies.RevokesDiffer | pkg/connector/events.go:130-147 | in chats without a colon the notices of different revoked messages are stored under different IDs |
| Replies.BridgedReplies | pkg/connector/handle_matrix.go:62 | replies to a bridged message meet its stored ID from both sides |
| Replies.ReplyReturns | pkg/connector/handle_matrix.go:45-53 | a reply that goes to Octopus and comes back still names the same message |
| Geo.Nearest | pkg/msgconv/from_octopus.go:173 | rounds to the nearest unit, ties to the even one |
| Geo.PrintedIsParsed | pkg/msgconv/from_matrix.go:176-192 | for all signed coordinates parseGeoURI accepts the printed URI, with or without parameters, and returns the rounded coordinates with their signs |
| Geo.RoundTripIsClose | pkg/msgconv/from_matrix.go:176-192 | which are within 0.5e-5 of the originals and have the same signs |
| Geo.AcceptedIff | pkg/msgconv/from_matrix.go:176-192 | what is accepted: exactly two numbers between the prefix and the first semicolon |
| GeoNumbers.NumberValue | pkg/msgconv/from_matrix.go:186-188 | the value of every decimal number, with a sign, a point and an exponent or without |
| GeoNumbers.NumberIff | pkg/msgconv/from_matrix.go:186-188 | a coordinate is accepted exactly if it is such a number |
| Geo.Reprint | pkg/msgconv/from_octopus.go:173 | printing the number that was read back gives the same string for every number, negative zero included |
| Geo.ReprintUri | pkg/msgconv/from_octopus.go:173 | printing the location that was read back gives the same URI for every location |
| Geo.SameUriIff | pkg/msgconv/from_octopus.go:173 | two locations have the same URI exactly if their signs agree and they round alike |
| Geo.RoundTripIsStable | pkg/msgconv/from_matrix.go:176-192 | a second round trip changes nothing |
| Heartbeats.IntervalIff | pkg/octopus/client.go:215 | the check interval is three announced intervals exactly up to 1431655765 ms, and never overflows a Duration |
| Heartbeats.TooShortIff | pkg/octopus/client.go:215 | for which announced intervals it is shorter than a single one |
| Heartbeats.ClientStatus.ProcessHeartbeat | pkg/octopus/client.go:198-209 | sets the flag, starts a checker only if there is none, and restarts its timer |
| Heartbeats.ClientStatus.StartChecker | pkg/octopus/client.go:211-224 | a checker with the announced interval waits from now |
| Heartbeats.ClientStatus.TakeStatus | pkg/octopus/client.go:221-224 | the flag becomes the status and the timer starts again |
| Heartbeats.ClientStatus.TimeOut | pkg/octopus/client.go:224-225 | the flag becomes false and the timer starts again |
| Heartbeats.ClientStatus.GetLoginInfo | pkg/octopus/client.go:59-71 | the flag says whether there was data; the timer is not touched |
| Heartbeats.ClientStatus.Stop | pkg/octopus/client.go:171-175 | Dispose stops the checker and leaves the flag |
| Heartbeats.LoggedInIsFresh | pkg/octopus/client.go:198-232 | while the checker runs, logged in means a true heartbeat or a GetLoginInfo answer within the last check interval and the timer's lag, and nothing to the contrary since |
| Heartbeats.LastSignalDecides | pkg/octopus/client.go:59-71 | at every moment the flag is what the last heartbeat, answer or timeout said |
| Heartbeats.NoEarlyTimeout | pkg/octopus/client.go:219-225 | a timeout comes a full check interval after every earlier heartbeat |
| Heartbeats.IntervalStays | pkg/octopus/client.go:204-215 | the interval is that of the notice that started the checker, until Dispose |
| Heartbeats.StaysTrueAfterDispose | pkg/octopus/client.go:171-175 | after Dispose the flag may stay true for any length of time |
| Resync.KeyInjective | pkg/connector/chatinfo.go:88-106 | different ghosts and portals have different queue keys |
| Resync.ResyncQueue.EnqueueGhost | pkg/connector/chatinfo.go:82-97 | the ghost is left out exactly if its last sync was less than 604800000000000 ns ago, else it is queued under its key |
| Resync.ResyncQueue.EnqueuePortal | pkg/connector/chatinfo.go:99-115 | so for portals, of which only groups are queued |
| Resync.ResyncQueue.Rotate | pkg/connector/chatinfo.go:140-150 | hands out the whole queue, empties it and sets the next rotation 14400000000000 ns on |
| Resync.ResyncQueue.SortBatch | pkg/connector/chatinfo.go:162-184 | in whatever order the map is walked, the ghosts and portals never synced or not in the last seven days are listed, each once and nothing else |
| Resync.ResyncQueue.DoGhostResync | pkg/connector/chatinfo.go:152-219 | logged out, nothing happens; otherwise exactly the due portals are queued, and exactly the due ghosts that could be fetched get a new LastSync, unless it crashes, which it does exactly if what comes of a due ghost's GetUserInfo, its avatar included, is fatal |
| ResyncRuns.EnqueueIsCode | pkg/connector/chatinfo.go:82-115 | the timed steps enqueue what the methods enqueue |
| ResyncRefines.RotateIsCode | pkg/connector/chatinfo.go:140-150 | the timed rotation hands out, empties and sets what the method does |
| ResyncRefines.SortIsCode | pkg/connector/chatinfo.go:165-184 | looking once at every key of a batch, in any order and with nothing in between, lists exactly the ghosts and portals that the method lists |
| ResyncRefines.FetchIsCode | pkg/connector/chatinfo.go:210-218 | fetching ghost after ghost sets the times that the method sets, and crashes exactly if a contact is fatal |
| ResyncRefines.EndsAreCode | pkg/connector/chatinfo.go:152-157 | logged out, the batch is dropped; after the last ghost the loop waits again; neither touches a time |
| ResyncRuns.RunInv | pkg/connector/chatinfo.go:117-219 | tickets, reports, times and rotations are in order after every timed run |
| ResyncRuns.RefreshesAreSpaced | pkg/connector/chatinfo.go:165-218 | two successful background refreshes of one ghost are at least seven days apart |
| ResyncRuns.CheckIff | pkg/connector/chatinfo.go:165-184 | a ghost that is looked at is listed exactly if it was never synced or seven days have gone since |
| ResyncRuns.RefreshAgain | pkg/connector/chatinfo.go:82-218 | from every moment when the loop waits and nothing is queued, a ghost not synced in the last seven days can be refreshed at the next rotation |
| ResyncRuns.RotationsAreSpaced | pkg/connector/chatinfo.go:130-150 | two rotations are at least four hours apart |
| ResyncRuns.EnqueuedOnce | pkg/connector/chatinfo.go:90-149 | every accepted enqueue is in exactly one of the queue and one rotated batch |
| ResyncRuns.BatchesAreSorted | pkg/connector/chatinfo.go:154-184 | a finished batch was dropped whole, or each of its items is exactly one of ghost, portal and too recent |

## Left out

- Websocket reads and writes, HTTP upgrade and authorization, `Shutdown`, logging and media transfer: the protocol models have steps for them that succeed or fail at will.
- JSON text, base64 text and string escapes: JSON trees instead; a base64 string is its own kind of leaf, neither decoded as text nor text decoded as bytes.
- Values that encode to no valid JSON (raw messages with broken text, infinite floats): no descriptor value stands for them.
- Binary floating point: a coordinate is a sign and a real magnitude, and a JSON number a real; NaN and the infinities are not modelled.
- Geo.AcceptedIff: decimal numbers with or without an exponent; the names of NaN and infinity, hexadecimal forms, underscores and the range check of `strconv.ParseFloat` are not modelled, and the printer produces none of them.
- Json.DecodedBody: of repeated members of one name only the last is decoded, where Go decodes each into what the ones before left.
- Number text: a number leaf holds its value and whether it was written as a plain integer, not its digits.
- `Stop` and `Agent.close`: their locks are in `Threads`, and losing the connection is a step of `Transmit`.
- Agents.Agent.Transmit: sequential, with the responses that are handled during the wait as a parameter; every interleaving is in `Transmit`.
- Rpc.EndToEnd: takes the response by its ID from a list of packets; the interleavings with other calls, late handlers and timeouts are those of `Calls.AnsweredCallGets`.
- Calls.AnsweredCallGets: about calls that took a response; that one comes within three minutes is not claimed.
- Progress.SomebodyGoes: a read of the websocket and a wait for a response count as steps, which the network may delay; that they end is not claimed.
- Rpc.RequestArrives: a remote agent in another language may decode less strictly than this decoder.
- "Every client of a lost agent is disposed": not claimed; a client assigned between the read error and the disconnect is unmapped without being disposed.
- Services.OctopusService.Receiver: between critical sections; lookups in the middle of one are those of `Refinement.ReceiverIsRight`.
- Attachments.UnfitIff: mentions and uploading are left out; which MIME types the library knows is a parameter.
- Concurrent heartbeats of one client: `processNotice` is one step, so two notices that both find no checker are not modelled.
- Heartbeats.LoggedInIsFresh: a `GetLoginInfo` answer is one step at the time it is stored.
- Replies.HandleMatrixMessage: how SendMessage ends is a parameter, which `Replies.StoredIff` and the `Calls` module tie to responses; content conversion, media and mentions are a parameter that succeeds or fails.
- Replies.OctopusMessage.ToMatrix: of the conversions only what they do to the reply is modelled, and that other message kinds have no conversion at all.
- `addMentions`, display names, fetching avatars, the login user interface and configuration; which avatars parse as URLs is a parameter.
- ResyncRuns.RefreshesAreSpaced: one login; two logins' loops may both pass the recency check for a ghost they share. A stored LastSync is reloaded in whole seconds, which may shorten a spacing across a restart by less than a second.
- Portal resyncs: queued as bridge events; when these run, and so how far apart portal syncs are, is not modelled.
