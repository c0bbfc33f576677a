# lafrpc in Dafny

lafrpc carries remote procedure calls, file transfers and sub-streams over one byte stream. This project models its
core and proves what it is for:

- **The channel multiplexer** (`Wire`, `WireFormat`, `ChannelTree`, `Routing`, `Framing`, `SendingQueue`, `Cascade`,
  `Multiplexer`, `EndToEnd`). A socket channel and the tree of virtual channels below it: framing, one 4-byte header per level,
  MAKE/DESTROY commands, SLOW_DOWN/GO_THROUGH, the sending queue with selective removal, the cascade of a close.
  `ChannelTree` says on values what each operation does; `Multiplexer.SocketDataChannel` is the object whose methods
  update the tables in place, down to the bytes, and each method is proved to do what `ChannelTree` says.
- **The two-party protocol** (`TreeInvariant`, `ChannelLog`, `EndHistory`, `EndChange`, `EndClose`, `Transport`,
  `Protocol`, `ProtocolTheorems`, `WireOrder`, `NewChannels`, `CloseReasons`). Two ends joined by two FIFO links, any interleaving of make, take, send, receive,
  close, transmit, deliver, lost connection. Each end carries the history of what it emitted, accepted and handed out;
  one inductive invariant relates the two histories, and the theorems about tables, order, flow control, DESTROY and
  the channels that wait to be taken are read off it for every reachable state.
- **The blocking queue** (`BlockingQueue`, `BlockingQueueTurns`), **directory and file transfer** (`DirTransfer`,
  `DirSession`, `FileTransfer`, `DirTree`, `DirState`), **the RPC correlator** (`RpcPeer`, `RpcPeerTheorems`,
  `RpcPeerOutcomes`, `RpcPeerAnswers`, `RpcPeerChannels`, `RpcPeerHandling`, `RpcPeerObject`), **single-flight connect**
  (`Connect`) and **serialization with the packet forms** (`Serialization`, `PacketForms`).

Where the source runs several coroutines, the model is a state machine whose steps are the pieces of code between two
points where control can pass to another coroutine; a theorem about runs holds for every order of these steps. Objects
of the source are classes here, their methods are those pieces, and every method's new state is given by the step
function that the theorems speak about.

Some properties one would expect are false of the code. They are kept as they are, with an input that shows it and the
exact condition under which they hold:

- `send_packet` admits packets that the other side refuses, closing the whole connection
  (`EndToEnd.AdmittedIsAccepted`, `EndToEnd.AdmittedAndRejected`).
- Raising the capacity of a channel while packets are queued can leave a sender blocked for good
  (`ProtocolTheorems.RaisingCapacity`; a run that gets there is `ProtocolTheorems.RaisingCapacityStrands`).
- In the blocking queue a put can overtake puts that wait, although the comment at
  `python/lafrpc/scheduler/queue.py:65-67` promises the order of the calls. A greenlet's put does so exactly when it
  finds room while others wait (`BlockingQueue.OvertakenIffRoom`, `BlockingQueue.OvertakingHappens`), a put of the hub
  into a full queue exactly when a put and a real get wait (`BlockingQueue.HubPutKeepsOrder`). In the same way a new get
  passes waiting ones exactly when it finds an item before them (`BlockingQueueTurns.GetPassesIffItems`).
- A directory can be sent only when every file is shorter than 2^63 bytes (`DirSession.RpcDir.ReadFrom`,
  `DirSession.HugeIsRefused`), and the receiver's boundary test is exact only for sizes that leave room for one more
  packet in 64 bits (`DirTransfer.BoundaryTestExact`).
- A file received without a digest has the declared size only when a packet ends there
  (`FileTransfer.ExactIffBoundary`, `FileTransfer.LongerThanDeclared`).
- A call that is killed leaves the sub-channel of its response pending for good, unless it is killed before it sends, or
  in its wait while no response naming a pending sub-channel has come (`RpcPeerHandling.KillLeavesOwner`; runs that leak
  are `RpcPeerHandling.KilledWhileSendingLeaks` and `RpcPeerHandling.KilledAfterWakingLeaks`).
- A coroutine that asks for a peer by name is sure to get that name, if it gets a peer, exactly when no attempt for the
  address is under way at the call (`Connect.ByNameExactly`, `Connect.ByNameGetsAnother`).
- A value comes back from `restore_state` exactly when the reserved key occurs nowhere in it and its objects are
  registered (`Serialization.ComesBackIffSavable`, `Serialization.ReservedKey`).

## Model

| member | source | states |
|---|---|---|
| Wire.U32RoundTrip | python/lafrpc/network.py:54-64 | a 32-bit number packed big-endian is read back unchanged |
| Wire.CommandRoundTrip | python/lafrpc/network.py:46-94 | every command packet is parsed back to the command and number it was packed from |
| WireFormat.BigEndian | python/lafrpc/network.py:54-64 | a number is packed into its four digits to the base 256, the most significant first, and read from them |
| WireFormat.CommandFormat | python/lafrpc/network.py:46-94 | which packets are commands, and the code, length and number of each |
| WireFormat.FrameFormat | python/lafrpc/network.py:530-535 | the header of a frame is the size of the payload, then the channel number |
| WireFormat.PacketFormat | python/lafrpc/network.py:686-690 | the bytes of a packet: size, the numbers of the channels from the outermost to its own, 1 for data or 0 for a command, the packet |
| Routing.UnwrapWrap | python/lafrpc/network.py:686-690 | the headers that all parents of a channel put in front are stripped again level by level, giving back channel, number and packet |
| Routing.EncodeInjective | python/lafrpc/network.py:724-728 | two different packets, by channel, kind or content, never have the same frame |
| Routing.NestedRouting | python/lafrpc/network.py:243-274 | a packet of the channel at any path, wrapped by every parent and routed on arrival, does to the receiving end exactly what the packet means at that path, and nothing when a channel on the way is closed or unknown |
| Routing.IncomingKeeps | python/lafrpc/network.py:243-334 | handling any frame keeps the structure of the tree, and a frame that cannot be parsed leaves all that closing the connection needs |
| Routing.EncodeSize | python/lafrpc/network.py:686-690 | a packet at depth d travels in a frame that is 4 bytes longer per level |
| Routing.CleanTestIsUnder | python/lafrpc/network.py:692-722 | the nested packet tests of a cleaning pick out exactly the packets of the closed channel and of the channels below it, and no command of a parent |
| Framing.FramingRoundTrip | python/lafrpc/network.py:552-588 | any sequence of frames within the limit is read back exactly from its bytes, whatever follows |
| Framing.TruncatedStream | python/lafrpc/network.py:552-588 | a stream cut off anywhere yields exactly the frames that were complete, in order, and ends as a receiving error |
| Framing.Connection.RecvAll | python/lafrpc/network.py:22-30 | for every way the stream is cut into pieces: exactly the requested bytes in order, and failure exactly when the stream ends before them |
| Framing.Connection.NextFrame | python/lafrpc/network.py:552-575 | one turn of the receive loop takes the first frame of the remaining stream, or ends with the error the stream gives |
| SendingQueue.FailedExactly | python/lafrpc/network.py:615-625 | a cleaning resolves exactly the waiting senders whose packets it removes, with a failure; all other outcomes and all other packets stay, in order |
| SendingQueue.Queue.Put | python/lafrpc/network.py:492-507 | a packet joins the queue at its end; a waiting sender gets a ticket nobody had before |
| SendingQueue.Queue.Clean | python/lafrpc/network.py:615-625 | the picked packets leave, their senders fail, the others keep their order and their tickets |
| SendingQueue.Queue.Drain | python/lafrpc/network.py:467-490 | closing drops every queued packet and fails every sender that waits in the queue |
| SendingQueue.Queue.Begin | python/lafrpc/network.py:509-530 | the send loop takes the oldest packet |
| SendingQueue.Queue.End | python/lafrpc/network.py:530-550 | the sender of the packet just written gets its one outcome |
| SendingQueue.Queue.NobodyLeftWaiting | python/lafrpc/scheduler/base.py:92-113 | once the queue is drained and nothing is being written, every ticket ever handed out has exactly one outcome |
| TreeInvariant.MakeKeeps | python/lafrpc/network.py:170-177 | making a channel with a free number keeps the structure of the tree |
| TreeInvariant.TakeChannelKeeps | python/lafrpc/network.py:179-195 | taking a pending channel keeps the structure, the channel stays in the table |
| TreeInvariant.CloseKeeps | python/lafrpc/network.py:662-674 | closing any channel keeps the structure of the tree |
| TreeInvariant.DestroyedKeeps | python/lafrpc/network.py:302-316 | a DESTROY of the other end keeps the structure, known or not |
| TreeInvariant.CloseRootKeeps | python/lafrpc/network.py:467-490 | closing the socket channel keeps the structure and leaves no channel open |
| ProtocolTheorems.CloseCascade | python/lafrpc/network.py:358-370 | closing a channel puts it and everything below it in error with empty tables, changes nothing elsewhere but the parent's table, removes exactly their packets from the queue and adds the one DESTROY of the channel itself |
| CloseReasons.StepReasoned | python/lafrpc/network.py:358-370 | in every run each step closes exactly the channels it is about, each with the reason of that step, and no step changes the error of a channel that has ended |
| CloseReasons.BadFrameReasoned | python/lafrpc/network.py:252-274 | a frame that cannot be handled closes the channel it went into, and all below, with InvalidPacket, and nothing else |
| CloseReasons.StreamEndsWith | python/lafrpc/network.py:552-588 | the socket channel ends with the error that ended its stream exactly when every frame could be handled, and with InvalidCommand otherwise |
| Multiplexer.ReturnManyForcely | python/lafrpc/scheduler/base.py:74-81 | the items go back to the front of the queue in their own order |
| Multiplexer.SocketDataChannel.MakeSubChannel | python/lafrpc/network.py:170-177 | the number handed out is the next one of this pole, the channel and its MAKE exist afterwards |
| Multiplexer.SocketDataChannel.TakeSubChannel | python/lafrpc/network.py:179-195 | found exactly when pending, the other pending channels keep their order |
| Multiplexer.SocketDataChannel.SendPacket | python/lafrpc/network.py:228-234 | refused over the size limit, nothing happens behind a shut gate, else the packet is queued on its channel with a fresh ticket |
| Multiplexer.SocketDataChannel.RecvPacket | python/lafrpc/network.py:215-226 | the oldest packet of the channel, GO_THROUGH queued exactly when the queue stops being full |
| Multiplexer.SocketDataChannel.ReceiveData | python/lafrpc/network.py:243-250 | the packet is appended to the receiving queue, SLOW_DOWN queued exactly when that fills it |
| Multiplexer.SocketDataChannel.CleanSendingPacket | python/lafrpc/network.py:711-722 | the recursion through the parents removes from the sending queue exactly the packets of the channel and below |
| Multiplexer.SocketDataChannel.CleanChannel | python/lafrpc/network.py:692-709 | the table entry goes, DESTROY is queued if asked for, the packets of the channel leave the queue |
| Multiplexer.SocketDataChannel.CloseBase | python/lafrpc/network.py:358-370 | the recursion that pops and closes children terminates with the whole subtree closed, for every order of the table |
| Multiplexer.SocketDataChannel.CloseChannel | python/lafrpc/network.py:662-674 | close() of a virtual channel is the closing of its subtree; a second close does nothing |
| Multiplexer.SocketDataChannel.CloseConnection | python/lafrpc/network.py:467-490 | close() of the socket channel closes every channel, empties the sending queue, fails its waiting senders, queues nothing |
| Multiplexer.SocketDataChannel.HandleDestroy | python/lafrpc/network.py:302-316 | the named channel leaves table and pending queue, its subtree is closed, its packets are dropped, no packet is added |
| Multiplexer.SocketDataChannel.HandleCommandPacket | python/lafrpc/network.py:276-334 | a command does what it means at its channel; False exactly for packets that cannot be parsed |
| Multiplexer.SocketDataChannel.HandleIncomingPacket | python/lafrpc/network.py:243-274 | one frame has exactly the effect of the routed packet, recursion included |
| Multiplexer.SocketDataChannel.DoReceive | python/lafrpc/network.py:552-588 | the receive loop turns a byte stream, in whatever pieces, into the effects of its frames in order and closes the connection with the error that ended it |
| Multiplexer.SocketDataChannel.BeginSend | python/lafrpc/network.py:509-530 | the frame handed to the socket is the encoding of the oldest queued packet |
| Multiplexer.SocketDataChannel.EndSend | python/lafrpc/network.py:509-550 | the sender of the frame gets its one outcome, true exactly when the frame was written on a connection still open; after a failed write the connection is closed |
| EndToEnd.StreamMeansPackets | python/lafrpc/network.py:509-588 | the bytes of any list of packets within the limit, however cut, do to the receiving tree what the packets mean in order |
| EndToEnd.AdmittedIsAccepted | python/lafrpc/network.py:228-232 | the receiver refuses a packet exactly when it is longer than max_payload_size, which is 4 less per level; send_packet admits 8 bytes more at the socket channel and 4 more elsewhere |
| EndToEnd.AdmittedAndRejected | python/lafrpc/network.py:409-430 | with the default limit a packet passes send_packet and is refused as too large |
| EndToEnd.SizeLimits.SetMaxPacketSize | python/lafrpc/network.py:416-426 | the new limit on every branch; the hint follows it down, so that 56 <= hint <= limit is kept |
| EndToEnd.SizeLimits.SetHint | python/lafrpc/network.py:435-443 | the new hint on every branch, cut to the limit, so that 56 <= hint <= limit is kept |
| EndToEnd.RangesStayApart | python/lafrpc/network.py:123-130 | numbers counted up from 2 and down from 2^32-1 never meet and are never 0 or 1 exactly while both ends together made at most 2^32-2 channels |
| Protocol.MakeIsFresh | python/lafrpc/network.py:170-177 | the number about to be handed out is unknown at both ends |
| Protocol.MakeConforms | python/lafrpc/network.py:284-289 | every MAKE that arrives is for an unknown number of the other pole |
| Protocol.StepAtAKeepsInv | python/lafrpc/network.py:243-334 | every step of an end keeps the invariant that relates trees, links and histories of both ends |
| Protocol.RunKeepsInv | python/lafrpc/network.py:243-334 | every state of every run of two new ends satisfies that invariant |
| ProtocolTheorems.TablesExplained | python/lafrpc/network.py:284-316 | in every reachable state, for a channel open at both ends: a number in one end's table and not in the other's has its MAKE or its DESTROY under way |
| ProtocolTheorems.TreesConverge | python/lafrpc/network.py:284-316 | with nothing under way both ends have the same channels and the same tables |
| NewChannels.PendingExactly | python/lafrpc/network.py:284-316 | in every reachable state the pending queue of an open channel is the announced numbers in the order of arrival, less those taken or destroyed |
| NewChannels.PendingOrClaimed | python/lafrpc/network.py:179-195 | an open announced channel is pending or was taken, exactly one of these; a channel made here is neither |
| NewChannels.TakeAfterMake | python/lafrpc/network.py:284-289 | a take right after the MAKE arrived finds the new channel, which stands last in the pending queue |
| NewChannels.CapacityRun | python/lafrpc/network.py:341-345 | in every run, until a capacity is changed, all channels of an end have the capacity of its socket channel |
| ProtocolTheorems.DataInOrder | python/lafrpc/network.py:215-274 | on every channel what one end received is a prefix of what the other sent, and the rest is under way in order while the channel is open at both ends |
| ProtocolTheorems.NoFrameTooEarly | python/lafrpc/network.py:252-274 | a packet at the head of a link finds its channel, unless the receiving end closed that channel or one above it |
| ProtocolTheorems.FlowControl | python/lafrpc/network.py:215-250 | once flow commands have arrived the sender's gate is shut only while the receiver is full, and, with unchanged capacity, exactly then |
| ProtocolTheorems.FlowCommandsAlternate | python/lafrpc/network.py:215-250 | SLOW_DOWN and GO_THROUGH alternate, the last one is SLOW_DOWN exactly while the receiving queue is full |
| ProtocolTheorems.DrainGate | python/lafrpc/network.py:215-226 | a receiver that empties its queue has reopened the gate, also after the capacity was lowered |
| ProtocolTheorems.RaisingCapacity | python/lafrpc/network.py:215-226 | after raising the capacity from c to c2 the emptied receiver has reopened the gate unless the queue held at least c and less than c2 packets, and then it has not |
| ProtocolTheorems.RaisingCapacityStrands | python/lafrpc/network.py:215-250 | a run in which one packet fills a queue of capacity 1; raised to 2 and emptied, the queue leaves the gate shut |
| ProtocolTheorems.DestroyOnce | python/lafrpc/network.py:605-613 | at most one DESTROY and one MAKE per number and end, and the channel is closed after its DESTROY |
| ProtocolTheorems.DestroyIsNotAnswered | python/lafrpc/network.py:302-316 | handling a DESTROY sends nothing |
| WireOrder.WiredInOrder | python/lafrpc/network.py:509-550 | in every run what an end has put on the wire, followed by what it has queued, is what it queued ever, in the same order, less what was purged |
| WireOrder.SilentOnWire | python/lafrpc/network.py:692-709 | in every run no packet of a channel, or of one below it, is on the wire, or still queued, behind the end's own DESTROY of it |
| WireOrder.LinkIsLastWired | python/lafrpc/network.py:552-588 | what is on the link went on the wire last, and what the other end accepted is what went before, in order, less what found its channel closed |
| BlockingQueue.AwakeAlways | python/lafrpc/scheduler/queue.py:310-332 | in every run a waiter that could go on has an unlock pass scheduled or running |
| BlockingQueueTurns.ServedInTurn | python/lafrpc/scheduler/queue.py:310-328 | in every run, when a waiting getter is served, nobody who called before it still waits |
| BlockingQueueTurns.GetPassesIffItems | python/lafrpc/scheduler/queue.py:224-275 | a new get is served before waiting ones exactly when it finds an item |
| BlockingQueueTurns.TurnStep | python/lafrpc/scheduler/queue.py:173-332 | a step, of a greenlet or of the hub, keeps the order of the calls of get exactly when it passes no waiting getter in this way |
| BlockingQueueTurns.TurnsAlways | python/lafrpc/scheduler/queue.py:65-72 | gets are served in the order of the calls all through a run exactly when every step of the run is such a step |
| BlockingQueueTurns.HeadsAlways | python/lafrpc/scheduler/queue.py:224-275 | in every run each get and each peek is handed the oldest item that nobody has taken |
| BlockingQueueTurns.OnlyWithNeed | python/lafrpc/scheduler/queue.py:173-275 | a call waits only when it cannot be served, and Full or Empty is raised only for a call that can neither be served nor wait |
| BlockingQueueTurns.BoundKept | python/lafrpc/scheduler/queue.py:54-63 | the bound is the one the queue was made with, every bound up to 0 is none |
| BlockingQueue.SoundAlways | python/lafrpc/scheduler/queue.py:173-275 | every run keeps first-in first-out, the bound, and that every put and every get is in exactly as many places as it was called |
| BlockingQueue.EveryRun | python/lafrpc/scheduler/queue.py:173-332 | no lost wakeup; items come out in the order in which they entered; the bound holds; each put that was called has entered, or waits, or is in the hands of the hub, or was refused or dropped, exactly one of these, and nothing else is anywhere; each get was served, or waits, or is the hub's own under way, or was refused or dropped |
| BlockingQueue.Pass | python/lafrpc/scheduler/queue.py:310-328 | an undisturbed unlock pass ends with no waiter that could move and nothing scheduled |
| BlockingQueue.PassIsRun | python/lafrpc/scheduler/queue.py:310-328 | the pass is a run of at most 2 * (putters + getters) + 1 hub turns |
| BlockingQueue.HubPutAll | python/lafrpc/scheduler/queue.py:188-197 | a put by the hub into a full queue succeeds exactly when a real get is waiting |
| BlockingQueue.HubPutKeepsOrder | python/lafrpc/scheduler/queue.py:188-197 | a put by the hub into a full queue keeps the order of the calls exactly when no put waits or every waiting getter is a peek |
| BlockingQueue.OvertakenIffRoom | python/lafrpc/scheduler/queue.py:173-198 | a put keeps the order of the calls exactly when it does not find room while others wait |
| BlockingQueue.OvertakingHappens | python/lafrpc/scheduler/queue.py:65-72 | a run of four calls in which the third put enters before the second |
| BlockingQueue.InOrderStep | python/lafrpc/scheduler/queue.py:173-332 | a step, of a greenlet or of the hub, keeps the order of the calls exactly when no put finds room past waiting ones and a put held by the hub enters in its place |
| BlockingQueue.InOrderAlways | python/lafrpc/scheduler/queue.py:65-72 | puts enter in the order of the calls all through a run exactly when every step of the run is such a step |
| BlockingQueue.Queue.Put | python/lafrpc/scheduler/queue.py:173-213 | put by a greenlet: outcome and new state on every branch |
| BlockingQueue.Queue.PutFromHub | python/lafrpc/scheduler/queue.py:188-197 | put by the hub, with its loop over waiting getters |
| BlockingQueue.Queue.Get | python/lafrpc/scheduler/queue.py:224-275 | get and peek by a greenlet: outcome and new state on every branch |
| BlockingQueue.Queue.GetFromHub | python/lafrpc/scheduler/queue.py:230-239 | get and peek by the hub: a waiting put is let in and its item is the one returned |
| BlockingQueue.Queue.Unlock | python/lafrpc/scheduler/queue.py:310-328 | the loop terminates and is the undisturbed pass |
| DirTransfer.ToReadExact | cpp/src/senddir.cpp:251-252 | below 2^63 bytes to go the two casts are exact and ask for at least one byte |
| DirTransfer.ToReadHuge | cpp/src/senddir.cpp:251-252 | with 2^63 bytes or more to go no read brings the rest below 2^63 |
| DirTransfer.BoundaryTestExact | cpp/src/senddir.cpp:183-187 | the 64-bit boundary test recognises every packet that exceeds the file exactly for sizes up to 2^64 - 2^31 + 1 |
| DirTransfer.TransferExact | cpp/src/senddir.cpp:129-279 | for every entry list, block sizes and short reads: the receiver ends with exactly the first size bytes of each file, takes every packet, leaves what follows, never fails its boundary test |
| DirTransfer.DeliverySafe | cpp/src/senddir.cpp:175-209 | against any stream: a success means that the packets taken, joined, are the files joined in order, each of its declared size |
| DirSession.RpcDir.TakePacket | cpp/src/senddir.cpp:176-203 | one turn of the receive loop goes on exactly with a non-empty packet within the file, if nothing else fails, and is cancelled exactly when the callback asks to stop |
| DirSession.RpcDir.WriteFile | cpp/src/senddir.cpp:175-203 | the file gets exactly the packets the boundary rule assigns to it and never more than its size |
| DirSession.RpcDir.WriteTo | cpp/src/senddir.cpp:129-211 | the whole receiver against any stream, provider and callback: success is the delivery of the stream with all directories, paths and times; with working parts and no answer that asks to stop it succeeds exactly when the stream delivers; it is cancelled exactly when the last answer asked to stop, and none did before; failure or cancelling closes the channel; no file is ever longer than declared |
| DirSession.RpcDir.ReadFile | cpp/src/senddir.cpp:235-274 | what is sent for one file is its first size bytes in non-empty blocks; with working parts it succeeds exactly when the file is long enough and shorter than 2^63 |
| DirSession.RpcDir.ReadFrom | cpp/src/senddir.cpp:213-279 | a success has sent a stream of exactly the declared contents and taken one more packet; with working parts and no answer that asks to stop it succeeds exactly when every file can be sent; it is cancelled exactly when the last answer asked to stop |
| DirSession.HugeIsRefused | cpp/src/senddir.cpp:251-252 | a file of 2^63 bytes or more that is all there and cannot be sent |
| DirSession.Transfer | cpp/src/senddir.cpp:129-279 | sender and receiver together: the receiver holds the declared part of every file and nothing is left in the channel |
| FileTransfer.AbsorbWhole | cpp/src/sendfile.cpp:110-189 | a stream of the declared bytes is received exactly, what follows stays in the channel |
| FileTransfer.ExactIffBoundary | cpp/src/sendfile.cpp:125-175 | against any stream the received file has the declared size exactly when a packet ends there, and is longer otherwise |
| FileTransfer.LongerThanDeclared | cpp/src/sendfile.cpp:157-178 | one packet of two bytes for a declared size of one is a success with a longer file |
| FileTransfer.RpcFile.SendViaChannel | cpp/src/sendfile.cpp:48-108 | both loops send exactly the first size bytes; with working parts a file of at least one byte is a success exactly when it is long enough, below 2^63, and the callback does not ask to stop; then one more packet is taken |
| FileTransfer.RpcFile.SendReporting | cpp/src/sendfile.cpp:63-86 | the loop with a callback sends exactly the first size bytes; when it succeeds; an answer that asks to stop is the last one and is heeded |
| FileTransfer.RpcFile.SendQuietly | cpp/src/sendfile.cpp:87-104 | the loop without a callback sends exactly the first size bytes, and when it succeeds |
| FileTransfer.RpcFile.ReceiveReporting | cpp/src/sendfile.cpp:129-156 | the loop with a callback writes exactly what it takes; it succeeds exactly when the stream fills the file and the callback does not ask to stop |
| FileTransfer.RpcFile.ReceiveQuietly | cpp/src/sendfile.cpp:157-178 | the loop without a callback writes exactly what it takes, and when it succeeds |
| FileTransfer.RpcFile.ReceiveViaChannel | cpp/src/sendfile.cpp:110-189 | success means the stream filled the file and, with a digest, that the digest of everything written is the announced one; when it succeeds, with and without a callback |
| FileTransfer.Transfer | cpp/src/sendfile.cpp:48-189 | sender and receiver together: the receiver writes exactly the declared part, leaves nothing in the channel, and fails exactly when the announced digest is another |
| DirTree.PathsDistinct | cpp/src/senddir.cpp:320-350 | no two collected entries have the same path |
| DirTree.DirectoriesFirst | cpp/src/senddir.cpp:320-350 | every entry lies in the root or in a directory that was listed before it |
| DirTree.CollectsAll | cpp/src/senddir.cpp:320-350 | the entries are exactly the items of the tree reached by names without a slash, each with its path, size, kind and times |
| DirTree.SizeSumIsTotal | cpp/src/senddir.cpp:343-345 | the announced size is the total that both sides of the transfer count up to |
| DirTree.Populate | cpp/src/senddir.cpp:320-350 | the recursion fills the shared result with the entries of the tree and their size |
| DirState.RoundTrip | cpp/src/senddir.cpp:484-554 | the object comes back from its saved state exactly when it has a name |
| DirState.SavedForm | cpp/src/senddir.cpp:484-518 | the keys of the saved state and of each entry in it: dates only where they are valid, entries in their order |
| DirState.RpcDirState.SaveState | cpp/src/senddir.cpp:484-518 | the loop builds the state the round trip speaks about |
| DirState.RpcDirState.RestoreState | cpp/src/senddir.cpp:520-554 | succeeds exactly on states with a name, a size and well-formed entries, and then has their values |
| RpcPeerTheorems.CoreStep | cpp/src/peer.cpp:180-411 | every step, whatever the other side sends and whoever is killed, keeps: each waiting call is in the waiter table or woken, each table entry belongs to its call, a woken call has its own response or an empty one |
| RpcPeerTheorems.HandlerFrame | cpp/src/peer.cpp:474-640 | a handler turn claims at most the sub-channel of its request, certainly when it ends, and sends at most one response, a conforming one |
| RpcPeerAnswers.EveryAnswer | cpp/src/peer.cpp:474-640 | in every run each response sent is the right answer to one of the requests received, under its identifier: the exception or the result of its method, or "bad channel"; no request is answered twice; exactly the requests are answered whose handler ended uncut, authorized, unkilled and with a response that can be packed |
| RpcPeerAnswers.EveryRequest | cpp/src/peer.cpp:420-472 | every valid request received while the peer is up is in the hands of a handler that has not answered it, or its handling has ended |
| RpcPeerAnswers.AuthorizedTurn | cpp/src/peer.cpp:492-560 | the method is called after the authorization, with the sub-channel of the request claimed, unless the sub-channel of a stream argument is missing; without authorization, or after a shutdown, the handler ends and sends nothing |
| RpcPeerAnswers.CallingTurn | cpp/src/peer.cpp:560-630 | what the handler does with the outcome of the method |
| RpcPeerAnswers.SocketTurn | cpp/src/peer.cpp:600-640 | the response with a raw socket is sent after the socket was made |
| RpcPeerAnswers.RequestStarts | cpp/src/peer.cpp:443-446 | a valid request starts one handler of its own |
| RpcPeerOutcomes.OutcomeExactly | cpp/src/peer.cpp:318-411 | in every run each call has exactly the outcome that its own events and its response give it: an exception is a remote error, a stream without a number an internal one, a stream whose sub-channel is gone a remote one; nothing else ends it |
| RpcPeerOutcomes.Begins | cpp/src/peer.cpp:237-243 | a call that begins is disconnected at once exactly when the peer is gone |
| RpcPeerOutcomes.ReturnTakes | cpp/src/peer.cpp:371-411 | a call that returns has taken exactly the sub-channel that its response names, one that fails has taken none |
| RpcPeerOutcomes.FailedSend | cpp/src/peer.cpp:327-335 | a failed send shuts the peer down and wakes everybody with an empty response |
| RpcPeerOutcomes.ResponseWakes | cpp/src/peer.cpp:446-457 | a response wakes the call that waits under its identifier and no other; without one, or if it is not valid, its sub-channel is dropped |
| RpcPeerOutcomes.InvalidRequest | cpp/src/peer.cpp:458-468 | a request that is not valid starts nothing and its sub-channel is dropped |
| RpcPeerTheorems.CorrelatedResults | cpp/src/peer.cpp:322-411 | in every interleaving, with doubled, reordered and unknown responses, kills and shutdown, a returned value is the result of a received response with the call's own identifier |
| RpcPeerTheorems.ShutdownReleases | cpp/src/peer.cpp:180-195 | in all these runs broken means an empty waiter table and pending queue, and everyone who waits has been woken |
| RpcPeerTheorems.NothingAfterShutdown | cpp/src/peer.cpp:180-411 | whatever happens after shutdown, a waiting call that is not killed ends as disconnected and no call returns a value any more |
| RpcPeerTheorems.ResponsesConform | cpp/src/peer.cpp:513-640 | a response of this end never carries both an exception and a channel; a channel comes exactly with a stream |
| RpcPeerHandling.PendingIsExplained | cpp/src/peer.cpp:371-492 | a pending sub-channel is still to be named or closed by the other side, or on its way, or held by a handler or a woken call |
| RpcPeerHandling.NoPendingLeak | cpp/src/peer.cpp:371-492 | with nothing under way the pending queue is empty: malformed packets, unknown identifiers, refused authorization and unused channels included |
| RpcPeerHandling.NeverPendingAgain | cpp/src/peer.cpp:371-492 | once the handling of a packet that names a sub-channel has ended, the sub-channel is not pending, then and in every later state |
| RpcPeerHandling.UntilHandled | cpp/src/peer.cpp:371-492 | no step short of shutdown loses a packet that names a sub-channel: it stays queued, or in the hands of a handler or a call, until its handling has ended |
| RpcPeerHandling.KillLeavesOwner | cpp/src/peer.cpp:318-360 | after a kill every response that has come or may come still has somebody to claim its sub-channel, exactly when the call had not begun to send, or waited and was not woken with a pending sub-channel |
| RpcPeerHandling.AttendedMeans | cpp/src/peer.cpp:443-457 | what that says of the next response: its pending sub-channel is claimed, dropped or handed to a call that waits, exactly when its identifier is attended |
| RpcPeerHandling.SendingKillLeaks | cpp/src/peer.cpp:327-344 | every call killed in the middle of its send leaks the sub-channel of the response that then comes |
| RpcPeerHandling.WokenKillLeaks | cpp/src/peer.cpp:344-384 | every call killed when it was woken with a sub-channel nobody else holds leaks it at once |
| RpcPeerHandling.KilledWhileSendingLeaks | cpp/src/peer.cpp:327-344 | a run in which the first of these happens |
| RpcPeerHandling.KilledAfterWakingLeaks | cpp/src/peer.cpp:344-360 | a run in which the second of these happens |
| RpcPeerObject.PeerPrivate.Shutdown | cpp/src/peer.cpp:180-195 | every waiter of the table is sent an empty response, then the table is empty, for every order of the loop |
| RpcPeerObject.PeerPrivate.SendRequest | cpp/src/peer.cpp:318-327 | the waiter is in the table before the request is sent |
| RpcPeerObject.PeerPrivate.RequestSent | cpp/src/peer.cpp:327-335 | a failed send shuts the peer down and ends the call |
| RpcPeerObject.PeerPrivate.CallKilled | cpp/src/peer.cpp:318-360 | a kill removes the waiter only in the wait for the event |
| RpcPeerObject.PeerPrivate.FinishCall | cpp/src/peer.cpp:344-411 | every outcome of a woken call, with its sub-channel claimed or dropped |
| RpcPeerObject.PeerPrivate.HandlePacket | cpp/src/peer.cpp:420-472 | every branch of the receive loop, claim and drop included |
| RpcPeerObject.PeerPrivate.HandleRequest | cpp/src/peer.cpp:474-640 | every branch of a handler, the response built field by field, the cleaner on every exit |
| Connect.SingleFlight | cpp/src/rpc.cpp:258-294 | in every interleaving at most one attempt per address is under way, and an address is in the table exactly while there is one |
| Connect.NobodyStuck | cpp/src/rpc.cpp:258-294 | a waiter can go on, or an attempt for its address is under way with the event it waits on |
| Connect.AttemptEnds | cpp/src/rpc.cpp:273-294 | success, failure and exception all set the event, clear the table and release all waiters; a success has registered the peer under the address first, with the wanted name |
| Connect.WaiterFinds | cpp/src/rpc.cpp:259-269 | as long as no peer is removed, a waiter whose address has a peer returns a peer at that address |
| Connect.AskFinds | cpp/src/rpc.cpp:222-245 | from every reachable state a connect to the name of a present peer ends at once with the newest peer of that name, one to an address, not a known name, with a present peer ends at once with a peer there; no attempt and no waiter is added |
| Connect.AskSeeks | cpp/src/rpc.cpp:232-273 | every other connect ends at once with no peer exactly when there is no address or no transport, and otherwise waits for the attempt under way for the address or begins one with the name it wants |
| Connect.GreetExactly | cpp/src/rpc.cpp:376-444 | an attempt succeeds exactly with a header of another name than ours, and of the wanted one; the new peer has that name and the address, is the newest, and its address is learnt |
| Connect.StepEnds | cpp/src/rpc.cpp:258-294 | how every other step ends the one coroutine it is about, and no other |
| Connect.ByNameExactly | cpp/src/rpc.cpp:222-294 | from every reachable state, connecting by a known name of no present peer can only return a peer of that name, in every run, exactly when no attempt for the address is under way at the call |
| Connect.ByNameGetsAnother | cpp/src/rpc.cpp:230-269 | a run in which the peer asked for by name is not the peer returned |
| Connect.WaiterGetsAnswer | cpp/src/rpc.cpp:258-288 | a waiter woken by the answer to the attempt it waited for is given the peer that answered, with the name the attempt wanted if it wanted one |
| Connect.RpcPrivate.Connect | cpp/src/rpc.cpp:222-273 | connect up to its first block, on every branch |
| Connect.RpcPrivate.EndAttempt | cpp/src/rpc.cpp:283-288 | the event is set and removed, the address of the peer is learnt |
| Connect.RpcPrivate.HeaderDone | cpp/src/rpc.cpp:376-444 | a peer is registered exactly for a readable header with an acceptable name |
| Connect.RpcPrivate.TransportDone | cpp/src/rpc.cpp:274-288 | an attempt whose transport gives no channel ends, with its event set and removed; otherwise it goes on to the header |
| Connect.RpcPrivate.WaiterResumes | cpp/src/rpc.cpp:258-269 | a woken waiter returns the first peer at its address, or none |
| Connect.RpcPrivate.AttemptThrew | cpp/src/rpc.cpp:289-293 | an exception sets and removes the event |
| Connect.RpcPrivate.RemovePeer | cpp/src/rpc.cpp:460-469 | only the given peer leaves the table |
| Serialization.ComesBackIffSavable | python/lafrpc/serialization/base.py:51-128 | restore_state(save_state(v)) is v with lists for tuples exactly when keys are strings, the reserved key occurs nowhere, and all objects are of registered classes that take their state back |
| Serialization.ReservedKey | python/lafrpc/serialization/base.py:73-128 | a dictionary that holds the reserved key loses it, becomes an object, or cannot be restored, and never comes back |
| Serialization.StampsUndone | python/lafrpc/serialization/msgpack.py:14-45 | the second timestamp pass undoes the first on everything save_state can give |
| Serialization.SavedAsIs | python/lafrpc/serialization/base.py:51-90 | data without tuples and objects is saved as it is |
| Serialization.PackRoundTrip | python/lafrpc/serialization/msgpack.py:48-55 | the same exact condition with the timestamp passes in between |
| Serialization.RequestRoundTrip | python/lafrpc/peer.py:29-100 | a packed request is received as it was sent, the one-way flag lost below version 2, exactly when it is valid for the receiver, and is rejected otherwise |
| PacketForms.ReceivedForms | python/lafrpc/peer.py:69-100 | exactly which lists are taken as requests and as responses, and the place of each field; everything else is rejected |
| PacketForms.SentForms | python/lafrpc/peer.py:29-66 | the place of each field in the lists that are sent, with the one-way flag from version 2 on |
| PacketForms.RequestArrives | python/lafrpc/base.py:98-138 | a request that can be saved arrives as it was sent exactly when its own fields have the right types and lengths |
| Serialization.ResponseRoundTrip | python/lafrpc/peer.py:51-100 | the same for responses |
| Serialization.BaseSerialization.RegisterClass | python/lafrpc/serialization/base.py:22-30 | a class is registered exactly when it has an identifier and both state methods |
| Serialization.BaseSerialization.UnregisterClass | python/lafrpc/serialization/base.py:32-34 | exactly the given identifier is removed; an unknown one is an error |
| Serialization.BaseSerialization.SaveState | python/lafrpc/serialization/base.py:51-90 | the loops of save_state compute what the round trip speaks about, errors included |
| Serialization.BaseSerialization.RestoreState | python/lafrpc/serialization/base.py:92-128 | the loops of restore_state compute what the round trip speaks about, errors included |

## Left out

- Channel objects are held in one table by path: weak references, garbage collection and aliasing are ownership here,
  and dropping a channel is closing it.
- Routing.IncomingKeeps: a MAKE for a number that is already known, or out of range, is excluded; between two conforming
  ends `Protocol.MakeConforms` shows that it does not occur.
- Multiplexer.SocketDataChannel.HandleCommandPacket: excludes the same MAKE.
- Multiplexer.SocketDataChannel.HandleIncomingPacket: excludes frames that hold such a MAKE.
- Multiplexer.SocketDataChannel.DoReceive: excludes streams that hold such a MAKE.
- TreeInvariant.MakeKeeps: the next number must be free, as it is in every run (`Protocol.MakeIsFresh`) in which both ends
  together make at most 2^32-2 channels below one channel; what happens beyond is `EndToEnd.RangesStayApart`.
- Multiplexer.SocketDataChannel.MakeSubChannel: the same, and a channel made on a closed parent is not modelled.
- TreeInvariant.CloseKeeps: closing a channel that still waits to be taken is excluded; the application has no hold of it
  before it takes it, except by `peek_channel`.
- Multiplexer.SocketDataChannel.RecvPacket: a receiver that is already blocked when its channel closes is not modelled.
- Capacities are at least 1. Raising a capacity in the middle of a run is no step of the runs; its effect is
  `ProtocolTheorems.RaisingCapacity`.
- Limits of a socket channel are fixed during a run; its setters are modelled alone (`EndToEnd.SizeLimits`).
- `take_channel` and `peek_channel` without a number.
- Each check followed by a put is one step, as the cooperative schedulers run it; threads, killing of greenlets inside
  the multiplexer and keepalive timing are not modelled, and the overrides in `python/lafrpc/scheduler/gevent.py` are not either.
- The blocking queue keeps its `maxsize`; its setter, iteration and copying are not modelled. A timeout or a kill is
  the removal of the waiter.
- BlockingQueue.Queue.Unlock: speaks of a pass during which the woken greenlets only do what they waited for; what the
  queue keeps when they do anything else is the claim of `BlockingQueue.EveryRun`.
- BlockingQueue.Queue.PutFromHub: speaks of a loop during which the woken getters do nothing else; in the runs of
  `BlockingQueue.EveryRun` and `BlockingQueue.InOrderAlways` anything may happen between its turns.
- BlockingQueue.Queue.GetFromHub: the same for the woken putter.
- Transfers over raw sockets, directory providers beyond success and failure (paths, permissions), the buffer object of
  the senders, and the calculation of SHA-256, which is a function parameter.
- The numbers told to progress callbacks are those of the source, but no claim is made about them.
- DirSession.RpcDir.WriteTo: the limit on each file is stated for sizes up to 2^64 - 2^31 + 1; beyond them the boundary
  test itself is not exact (`DirTransfer.BoundaryTestExact`).
- DirState.RpcDirState.RestoreState: a value of another kind reads as the default; the implicit conversions of QVariant
  are not modelled.
- DirTree.Populate: a tree has no cyclic symbolic links, which the recursion of the source would follow.
- RpcPeerTheorems.CorrelatedResults: the identifiers that `createUuid` makes for calls are taken to be distinct.
- RpcPeerHandling.PendingIsExplained: the other side names a sub-channel once, never beside an exception, and answers an
  identifier once; every kill is one of those that `RpcPeerHandling.KillLeavesOwner` allows; the owner of the peer is
  alive or has shut it down. `NoPendingLeak` and `NeverPendingAgain` have the same conditions.
- RpcPeerTheorems.ShutdownReleases: the empty pending queue is the modelling of `channel->abort()`, which closes the
  parent channel and with it what waits there.
- Serialization.BaseSerialization.SaveState: values are not shared; the source writes the identifier and the saved values
  into the dictionary that `__getstate__` returned.
- Method lookup and invocation, header callbacks beyond their verdict, raw sockets of streams, signals and proxies,
  servers, transports, address parsing.
- Serializer extensions, integer widths of msgpack, and the byte encodings of pickle, msgpack and JSON, which are taken
  as exact; a datetime and its timestamp correspond one to one.
- `python/lafrpc/senddir.py`, an unfinished port of the C++ code.
