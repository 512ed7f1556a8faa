# Audio server: send pipeline and packaging, modelled in Dafny

The server cuts WAV files and song lists into packets, queues them for its clients, and sends them through an I/O
completion port. This project models that path from the received message to the bytes given to `BeginSend`, and proves
what arrives.

Two kinds of model are used.

* The byte-level code keeps the form of the source: classes with fields, arrays and loops (`Packets`, `Songs`, `Wav`,
  `Handlers`, `Clients.Client`, `Server`). Each method is proved against a specification function or predicate, about
  which the lemmas then prove what the source is for.
* The concurrent code is a step machine (`Monitor`, `Pipeline`, `Pool`, `Clients`, `Shutdown`). A thread has a program
  counter, one event is one atomic action of one thread or of the environment, a schedule is any sequence of events,
  and `Runs.Exec` is the state it leads to. A theorem about `Exec(Next, Init(...), es)` therefore speaks of every
  schedule of any number of threads. Fields such as `pushed`, `returned`, `sent` and the counters only record history.

Main results: the monitor queue is linearizable, loses no wakeup and falls quiet within a computed number of actions;
what a client was given to read is always decodable and always a prefix of the file it asked for, and all of it from
the very moment sendTask has settled the request, if no other request uses the same id; sending is gap-free and
throttled by notifications, and a pipeline that has come to a stop is drained exactly when its last wait was answered
after it had begun or the queue is empty all the same; posted reads obey a conservation law; the thread pool conserves tasks,
never finishes while it has a worker, and starts every endless task of the server; list packing is complete and
minimal; shutdown terminates, locks and wakeups of the queue included.

Where the code and its comments disagree the model follows the code:

* `openFile` counts 44 bytes as extracted and `getHeader` reads 44 more, so the first 44 data bytes are never sent.
  `Wav.WholeFileOnlyWithoutData` states that the whole file arrives exactly when there is no data.
* `Deserialize` reads size, id, type, while the struct sent is size, type, id; and it tests the old type, so on a fresh
  packet neither the upper limit nor the single bit is enforced (`Packets.FreshAccepts`, `Packets.OutboundImageSwapped`).
* `sendTask` waits without a predicate, and any completion wakes it. So more than one send can be in flight
  (`Waits.SecondSendInFlight`). At most one is throughout a run exactly when at each call of `BeginSend` the completion
  of the send before has been dequeued (`Waits.OneInFlightIff`, `Waits.OvertakenIff`). And a notification that comes
  before the wait has begun is lost, though it be that of the very send (`Waits.NotificationLost`). A pipeline that has
  come to a stop leaves packets behind exactly when the queue holds some and the last wait was not answered after it
  had begun (`Waits.DrainedIff`).
* Ids are the clients' own choice. Two requests of one client with the same id and type are mixed up on arrival
  (`Sharing.ToldApartIff`); everything that does not turn on ids holds all the same.
* With a 32-bit `size_t` the chunk loop does not end for data sizes above 2^32 - 980 (`Wav.ChunkLoopTermination`).
* A pool with a worker never finishes: `JoinAll` waits for threads that wait for the flag `JoinAll` sets
  (`Pool.NeverFinishes`, `Pool.FinishesIff`).
* With a hardware concurrency of 0 the bound of the loop in `listen` wraps around (`Server.TaskCount`).

The WAV header has the canonical 44-byte layout of "Multimedia Programming Interface and Data Specifications 1.0",
chapter 3, "Waveform Audio File Format (WAVE)".

| file | content |
|---|---|
| Seqs, Runs, Bytes | sequences, schedules, integers and their images |
| Monitor, ConcurrentQueue | the queue as a monitor, and as its callers see it |
| Packets, Packing, Songs, Wav | packets and parsers, record packing, songs and lists, WAV files |
| Handlers, Browsing | answering requests, and using the answers |
| Pipeline, Delivery, Sharing | requests, queue and `sendTask` together; what arrives; requests with the same id |
| Waits, Progress | the wait of `sendTask`; bounded work |
| Pool, Clients, Server, Shutdown | thread pool, completion-port client, server manager, client manager |

## Model

| member | source | states |
|---|---|---|
| Monitor.Linearizable | Server/ConcurrentQueue.h:15-48 | For any number of threads and every schedule, with spurious wakeups: pop returns the items in the order of their insertion, each once; whatever is pushed and not returned is in the queue, but for at most one item held by the mutex owner |
| Monitor.MutualExclusion | Server/ConcurrentQueue.h:17-46 | At most one thread is in a critical section, and the front of an empty queue is never read |
| Monitor.SizeExact | Server/ConcurrentQueue.h:32-38 | The reported size is the length of the queue while the mutex is held |
| Monitor.WakeupNotLost | Server/ConcurrentQueue.h:19-48 | A non-empty queue with a sleeping popper implies a pusher that has inserted and not yet notified, although notify_all follows the unlock |
| Monitor.NotDeadlocked | Server/ConcurrentQueue.h:15-48 | With a non-empty queue and a waiting popper some thread can act, without new calls or spurious wakeups |
| Monitor.FallsQuiet | Server/ConcurrentQueue.h:15-48 | Without new calls every schedule stops within Measure actions, and five more for each spurious wakeup; then nobody waits to pop beside a non-empty queue |
| Monitor.StepKeepsInv | Server/ConcurrentQueue.h:15-48 | Each atomic action keeps mutual exclusion, the history equation, the owner's knowledge of the queue, and the wakeup obligation |
| Monitor.RunLowersMeasure | Server/ConcurrentQueue.h:15-48 | Each action lowers the measure, a notification that wakes every thread included |
| ConcurrentQueue.UndisturbedPush | Server/ConcurrentQueue.h:43-48 | At the grain of locks and notifications an undisturbed push appends its item, wakes whoever sleeps, and changes nothing else |
| ConcurrentQueue.UndisturbedPop | Server/ConcurrentQueue.h:15-28 | An undisturbed pop of a non-empty queue takes the front off, returns it, and changes nothing else |
| ConcurrentQueue.UndisturbedWait | Server/ConcurrentQueue.h:19-21 | On an empty queue the popper goes to sleep without the mutex, and nothing else changes |
| ConcurrentQueue.UndisturbedSize | Server/ConcurrentQueue.h:32-38 | An undisturbed size reports the length of the queue and changes nothing |
| Packets.Packet.FromData | Server/Packet.h:52-56 | Only the first size data bytes are initialised, from the buffer |
| Packets.Packet.Deserialize | Server/Packet.h:60-101 | A wrong length or null message changes nothing and does not throw; otherwise it throws and changes nothing, or sets every field as Deserialized says |
| Packets.ExtractPacket | Server/PacketExtracter.h:8-40 | The older parser returns the packet Extracted describes, and a fresh one for a wrong length |
| Packets.Serialize | Server/ServerManager.cpp:55-62 | The buffer is the 12 + size byte image of the packet |
| Bytes.IntBytes | Server/ServerManager.cpp:62-62 | The image of an integer is its two's complement pattern, the lowest byte first |
| Bytes.BytesOfInt | Server/Packet.h:67-79 | And it is read back so |
| Bytes.AndBits | Server/Packet.h:21-21 | And is what it says, bit by bit |
| Packets.FreshAccepts | Server/Packet.h:65-99 | On a fresh packet a message is accepted exactly when its size is in range and its type positive |
| Packets.ReuseAccepts | Server/Packet.h:84-84 | On a packet with a positive type a message is accepted exactly when, besides, the old type is a single bit up to 64 |
| Packets.InboundRoundTrip | Server/Packet.h:60-101 | Deserialize on a fresh packet inverts the size, id, type, payload image for every payload and padding |
| Packets.OutboundImageSwapped | Server/Packet.h:39-48 | The padded outbound image comes back with type and id exchanged if the id is positive, and is rejected otherwise |
| Packets.ExtractAccepts | Server/PacketExtracter.h:13-36 | extractPacket accepts exactly the types that are a single bit up to 64, with a size in range |
| Packets.ExtractRoundTrip | Server/PacketExtracter.h:13-36 | extractPacket inverts the size, type, payload image of a single-bit type up to 64 for every payload and padding, with id 0; of any other type it returns a fresh packet |
| Packets.ParsersAgreeIff | Server/Packet.h:84-84 | For the same size and type the two parsers agree whether to accept, if and only if the size is out of range, the type is not positive, or it is a single bit up to 64 |
| Packets.ParsersDisagree | Server/PacketExtracter.h:27-27 | They do disagree, on a type of two bits |
| Packets.DecodeEncode | Server/ServerManager.cpp:55-62 | The concatenated images of any sequence of packets decode back to that sequence |
| Packets.EncodeDecode | Server/ServerManager.cpp:55-62 | Whatever decodes is the concatenation of the images of what it decodes to |
| Songs.StrNCpyS | Server/Song.h:37-42 | The copy has the same characters and a NUL; what follows is indeterminate |
| Songs.CopySong | Server/Song.h:37-42 | A copied song is equal under operator== |
| Songs.StrCmp | Server/Song.h:71-77 | Zero exactly when the characters before the NUL agree |
| Songs.CompareSongs | Server/Song.h:69-84 | operator== decides whether the characters before the NULs of both names agree, and the lengths |
| Songs.FileList.IndexOf | Server/FileList.h:69-80 | The first index whose song has the argument's names, before each NUL, and its length; -1 exactly when there is none |
| Songs.FromMemoryOfMemory | Server/AudioServerHandler.cpp:23-28 | A song copied out of the bytes of a song is that song |
| Songs.MemoryLayout | Server/Song.h:7-16 | The name is in bytes 0 to 63 of the record, the artist in 64 to 127, the length in 128 to 131, the lowest byte first |
| Songs.SameTextIff | Server/Song.h:71-77 | Two names are the same C string exactly when they have the same characters up to the NUL of each |
| Wav.WavFilePackager.Read | Server/WavFilePackager.cpp:108-108 | A read delivers what is there, and a short one fails the stream |
| Wav.WavFilePackager.ProcessWavFile | Server/WavFilePackager.cpp:147-188 | For any file: ok exactly for the letters RIFF at byte 0 and WAVE at byte 8; then the header is the file's first 44 bytes, padded with zeros, and the total the number in bytes 40 to 43, the lowest first; otherwise both are zero; and reading stops at byte 44, 12 or 4 as the code does |
| Wav.WavFilePackager.OpenFile | Server/WavFilePackager.cpp:53-71 | The state after opening any file or a missing one; 44 bytes count as extracted |
| Wav.WavFilePackager.GetHeader | Server/WavFilePackager.cpp:128-137 | The buffer gets the stored header while the cursor moves on past further bytes |
| Wav.WavFilePackager.GetNextChunk | Server/WavFilePackager.cpp:96-118 | The chunk is the next part of the stream, its size computed with wrapping addition, never more than the buffer |
| Wav.LoopEndsIff | Server/WavFilePackager.cpp:96-112 | For a size_t of m * 1024 values the chunk loop ends if and only if the total is at most 980 below that |
| Wav.ChunkLoopTermination | Server/AudioServerHandler.cpp:75-92 | With 64 bits the loop ends for every 32-bit data size; with 32 bits if and only if the size is at most 2^32 - 980 |
| Wav.Cycles | Server/WavFilePackager.cpp:22-24 | Above the bound mExtracted runs through 44 + 1024 r for ever, below the total |
| Wav.DeliveredIsChunk | Server/WavFilePackager.cpp:96-117 | With the cursor 44 ahead of mExtracted, what is read is the k-th kilobyte of the data from byte 88 of the file |
| Wav.Reassembled | Server/AudioServerHandler.cpp:62-92 | The payloads of a well-formed file concatenate to its header and its data from offset 44 to the end of the data chunk; only the header if there are fewer than 44 data bytes |
| Wav.ReassembledFromBytes | Server/AudioServerHandler.cpp:62-92 | The same in terms of the bytes of the file alone: with n the number in bytes 40 to 43, the packets of type 4 concatenate to the header and bytes 88 to 44 + n |
| Wav.DataSizeBytes | Server/WavFilePackager.cpp:168-181 | The data size is the number in bytes 40 to 43; 0 for a file that is not RIFF/WAVE |
| Wav.OtherFilesSendZeros | Server/WavFilePackager.cpp:182-185 | Of a file that is not RIFF/WAVE, 44 zeros are sent and nothing else |
| Wav.ChunksFull | Server/AudioServerHandler.cpp:75-92 | Every data packet but the last is full, and none is empty |
| Wav.WholeFileOnlyWithoutData | Server/WavFilePackager.cpp:66-68 | The whole file is delivered if and only if it has no data |
| Packing.GreedyCount | Server/AudioServerHandler.cpp:107-136 | Greedy packing of n records uses max(1, ceil(n / per)) packets |
| Packing.GreedyFits | Server/AudioServerHandler.cpp:110-110 | For any record size, no greedy packet exceeds the packet size |
| Packing.PackingOptimal | Server/AudioServerHandler.cpp:107-136 | For any record size up to the packet size, no packing that keeps records whole uses fewer packets |
| Packing.SplitFlatten | Server/AudioServerHandler.cpp:128-130 | Cutting a payload into records gives back the records packed into it |
| Handlers.AudioServerHandler.RequestFile | Server/AudioServerHandler.cpp:44-97 | Queues the packets of the file of the first equal song, for any file content; nothing for an absent song, a missing file, or an expired queue |
| Handlers.AudioServerHandler.SendFile | Server/AudioServerHandler.cpp:60-93 | For an open file of any content: the header packet and 1024-byte chunks, all in order and all tagged with the request's id; reading ends exactly where the data chunk ends, or the file |
| Handlers.AudioServerHandler.ReadChunk | Server/AudioServerHandler.cpp:76-79 | A round of the loop keeps the cursor 44 bytes ahead of mExtracted and yields the next chunk |
| Handlers.AudioServerHandler.RequestFileList | Server/AudioServerHandler.cpp:100-140 | Queues FILELIST packets whose records are copies of all songs in order, greedily packed; nothing if the queue has expired |
| Handlers.AudioServerHandler.HandlePacket | Server/AudioServerHandler.cpp:17-38 | A FILELIST packet is answered with the list under its id; a TRACK packet of song size with the file of the first entry with its names and length, under its id; anything else changes nothing |
| Handlers.AudioServerHandler.OnReceived | Server/AudioClientHandlerFactory.cpp:17-30 | The receive handler answers exactly the request RequestOf reads from the received bytes |
| Handlers.RequestBytes | Server/AudioServerHandler.cpp:17-38 | What a received message asks for, read off its bytes: size, id and type at 0, 4 and 8; type 8 for the list, type 2 with size 132 for the song in bytes 12 to 143 |
| Handlers.MessageAsks | Server/AudioServerHandler.cpp:17-38 | For every packet in the inbound layout, however padded: its request with its id, and nothing for a TRACK of another size or any other type |
| Handlers.ListensIff | Server/InputHandler.h:19-21 | The handler listens to a type exactly when the bit of TRACK or of FILELIST is set in it |
| Browsing.ListFaithful | Server/AudioServerHandler.cpp:100-140 | The received records are equal to the songs, complete and in order, in max(1, ceil(n / 7)) packets |
| Browsing.WholeRecords | Server/AudioServerHandler.cpp:110-130 | No record straddles packets; every packet but the last holds seven |
| Browsing.ListOptimal | Server/AudioServerHandler.cpp:107-136 | No other way to send the same records whole uses fewer packets |
| Browsing.BrowseThenPlay | Server/AudioServerHandler.cpp:20-53 | A record received in a list, sent back as a TRACK packet however padded, asks for a song with the same names and length, and the look-up finds the first entry with these |
| Pipeline.StepKeepsInv | Server/ServerManager.cpp:45-78 | Every action of requests, queue, sendTask, workers and expiring clients keeps the pipeline invariant |
| Pipeline.Reachable | Server/ServerManager.cpp:45-78 | Every schedule of every set of requests stays inside it |
| Pipeline.ActKeepsProducers | Server/AudioServerHandler.cpp:71-89 | Each request holds only packets of its own, and one that is alone with its client, type and id has pushed exactly the beginning of its packets |
| Delivery.GapFree | Server/ServerManager.cpp:45-78 | The packets given to BeginSend for a client are a prefix of the non-INVALID packets pushed for it |
| Delivery.ExpiredForGood | Server/ServerManager.cpp:64-68 | An expired client is sent nothing more and never makes sendTask wait |
| Delivery.Throttled | Server/ServerManager.cpp:64-68 | BeginSend is called at most once more often than workers notify and sendTask wakes spuriously |
| Delivery.ReceivedIsEncoded | Server/ServerManager.cpp:57-66 | The buffers a client is given are the encoding of the packets it is given |
| Delivery.TaggedFramesPrefix | Server/ServerManager.cpp:45-78 | In every reachable state the frames received with the tag of a request alone with it are a prefix of the request's packets, whatever other requests are interleaved |
| Delivery.ArrivedIff | Server/ServerManager.cpp:45-78 | At every moment, whatever other requests are in progress: a live client has received all packets of a request alone with its client, type and id if and only if sendTask has taken that many packets with them off the queue |
| Delivery.DrainedIsSettled | Server/ServerManager.cpp:45-78 | When everything pushed has been sent or dropped and no request holds anything back, every such request is settled |
| Delivery.StuckIsDrainedIff | Server/ServerManager.cpp:45-78 | When no thread of the pipeline can act, everything was pushed and sent or dropped if and only if the queue is empty, and it is unless sendTask waits for a notification |
| Delivery.TrackIsRequest | Server/AudioServerHandler.cpp:68-73 | What requestFile queues is a request of the pipeline |
| Delivery.ListIsRequest | Server/AudioServerHandler.cpp:133-136 | What requestFileList queues is a request of the pipeline |
| Delivery.FileArriving | Server/ServerManager.cpp:45-78 | At every moment of every schedule the stream decodes, and the AUDIO payloads with one id are a prefix of that file's stream, if no other request of the client uses the id for AUDIO |
| Delivery.FileDelivered | Server/AudioServerHandler.cpp:44-97 | At every moment of every schedule a live client can reassemble a file requested with an id of its own from the bytes given to BeginSend if and only if sendTask has settled the request, whatever else is interleaved or still in progress and whatever ids other requests share |
| Delivery.ListDelivered | Server/AudioServerHandler.cpp:100-140 | Likewise every list requested with an id of its own; an empty list has nothing to wait for |
| Delivery.TrackAnswered | Server/AudioClientHandlerFactory.cpp:17-30 | From the bytes received to the bytes sent: a message of type 2 that names a song of the list is answered with the file of the first entry with its names and length; what the handler queued for it brings a live client this file under the id in the message, from the moment it is settled |
| Delivery.ListAnswered | Server/AudioClientHandlerFactory.cpp:17-30 | And a message of type 8 a record equal to each song, under its id |
| Sharing.SharesConserved | Server/AudioServerHandler.cpp:71-89 | For every client, type and id: the packets inserted with them and those its requests still hold are, in number, what these requests were to push |
| Sharing.ToldApartIff | Server/AudioServerHandler.cpp:44-97 | Once the pipeline is drained, what a live client has received with the tag of a request is that request's packets if and only if no other request pushes packets with the same client, type and id |
| Waits.OneInFlightIff | Server/ServerManager.cpp:64-67 | For every run: at no moment are two sends in flight if and only if at each call of BeginSend the completion of the send before has been dequeued |
| Waits.OvertakenIff | Server/ServerManager.cpp:64-67 | At the end of a wait, with a packet to be sent, some schedule leads to the next BeginSend with an earlier send outstanding if and only if some send is outstanding now; a wait ended by the notification for its own send leaves that send complete |
| Waits.SecondSendInFlight | Server/ServerManager.cpp:189-192 | The schedules, for all requests with two packets to send, in which BeginSend is called again before the first send has completed |
| Waits.NotificationLost | Server/ServerManager.cpp:66-67 | The schedule in which the notification for the send comes before the wait: everything sent is complete, a packet is queued, and no thread of the pipeline can act |
| Waits.DrainedIff | Server/ServerManager.cpp:45-78 | When no thread of the pipeline can act, everything was pushed and sent or dropped if and only if the last wait was answered after it had begun or the queue is empty |
| Waits.DropNow | Server/ServerManager.cpp:53-77 | A packet of type 0 or for a client that is gone is dropped, and sendTask is back at the top of its loop without a wait |
| Waits.GoneClientIsSkipped | Server/ServerManager.cpp:64-64 | A client may go at any time while sendTask does not keep it, and then its next packet is dropped |
| Progress.StepLowersWork | Server/ServerManager.cpp:45-78 | Every action of the server's own threads lowers the work left, and of the others only a spurious wakeup raises it, by five |
| Progress.WorkBounded | Server/ServerManager.cpp:45-78 | In every run the server's own threads act a bounded number of times per packet requested, and five times per spurious wakeup |
| Pool.StepKeepsInv | Server/ThreadPool.h:35-57 | Every action of workers, enqueuers and JoinAll keeps the pool invariant |
| Pool.TasksConserved | Server/ThreadPool.h:35-79 | Tasks enqueued, in order, are those that left the queue and those in it; what has left has returned or is in the hands of the worker that popped it; a running worker runs the task its ticket stands for; each is started at most once; running tasks never exceed the workers |
| Pool.JobsCounted | Server/ThreadPool.h:54-56 | mJobsRemaining is its initial value less the completed tasks |
| Pool.NeverFinishes | Server/ThreadPool.h:83-98 | mFinished implies no live worker; with a worker it never becomes true and JoinAll never gets past its first join; no worker calls an empty function |
| Pool.FinishesIff | Server/ThreadPool.h:83-94 | Some schedule sets mFinished if and only if there is no worker and somebody to call JoinAll |
| Pool.SomeWorkerFree | Server/ThreadPool.h:46-57 | With endless tasks, no more than workers, a queued task finds a free worker |
| Pool.EveryTaskStarts | Server/ThreadPool.h:35-79 | However scheduled, the pool falls quiet within Measure actions, and then every such task is running in a worker of its own |
| Clients.Client.BeginRead | Server/Client.cpp:39-52 | mState becomes READ and one read is posted |
| Clients.Client.BeginSend | Server/Client.cpp:65-82 | mState becomes SEND and the buffer is posted, no read |
| Clients.Client.BeginIOEvent | Server/Client.cpp:96-109 | mState alone decides: READ calls the receive handler and posts a read, SEND calls the sent handler |
| Clients.ReadsConserved | Server/ServerManager.cpp:168-199 | Reads posted, owed and lost make up one, plus the send completions dequeued, plus the dispatches in state READ, under every interleaving |
| Clients.CompletionsConserved | Server/ServerManager.cpp:178-197 | Every completion is dispatched, lost or still held; mState is never unset at a dispatch; every send posted is dequeued or still posted |
| Clients.NeverDeaf | Server/ServerManager.cpp:183-192 | A client without a failed or zero-byte completion stays in the map and is never without a read posted or owed |
| Clients.RemovedForGood | Server/ServerManager.cpp:105-114 | Once a completion is lost the client is out of the map for good, and only completions already looked up are still dispatched |
| Clients.UndisturbedRound | Server/ServerManager.cpp:183-199 | At the grain of single actions an undisturbed round posts two reads if mState was READ and one if it was SEND, removes the client after a bad completion, and does nothing for an unknown one |
| Clients.SendLeavesSend | Server/Client.cpp:65-82 | At the grain of single actions, BeginSend leaves mState SEND and one more send posted |
| Clients.AcceptLeavesRead | Server/ServerManager.cpp:101-101 | And acceptConnection leaves mState READ and one more read posted |
| Clients.SendThenCompletion | Server/Client.cpp:96-109 | After BeginSend the next good completion, though it be that of a read, goes to the sent handler and not to the receive handler |
| Server.ServerManager.Listen | Server/ServerManager.cpp:31-35 | Enqueues the connection task first, the send task second, and then max(0, 2h - 4) worker tasks, written out by position |
| Server.ServerManager.AcceptConnection | Server/ServerManager.cpp:83-103 | If the socket could be associated with the completion port the client enters the map and its first read is posted; otherwise nothing changes |
| Server.ServerManager.RemoveConnection | Server/ServerManager.cpp:107-114 | The client leaves the map |
| Server.ServerManager.WorkerRound | Server/ServerManager.cpp:178-199 | A good completion of a known client is dispatched on mState alone: the read handler or the sent handler is called, one read is posted, two if mState was READ, and sendTask is notified; a bad one removes the client; an unknown one does nothing |
| Server.RoundsAgree | Server/ServerManager.cpp:178-199 | An undisturbed worker of the machine of all threads leaves the client as WorkerRound does |
| Server.ServerManager.SendRound | Server/ServerManager.cpp:46-67 | One packet is popped, and sent as its image unless it is INVALID or the client is gone |
| Server.TaskCount | Server/ServerManager.cpp:31-35 | listen enqueues 2 + max(0, 2h - 4) tasks, at most the 2h threads of the pool, for h >= 1; for h = 0 the bound wraps |
| Server.ListenGivesItsTasks | Server/ServerManager.cpp:31-35 | Undisturbed, the enqueueing thread leaves the pool's queue with exactly the tasks of listen, in order |
| Server.ServerTasksStart | Server/ServerManager.cpp:9-35 | In every schedule that enqueues the tasks of listen, once the pool is quiet each of them is being run by a worker of its own: some worker runs getConnections, some sendTask |
| Shutdown.StepKeepsInv | Server/ClientManager.cpp:26-136 | Every action of start, recvTask, sendTask, other pushers and the monitor queue keeps the protocol invariant: while start waits to join sendTask, a sendTask waiting to pop has a non-empty queue |
| Shutdown.OneMorePop | Server/ClientManager.cpp:77-104 | After recvTask has returned at most one more pop of sendTask returns |
| Shutdown.NeverRunsAgain | Server/ClientManager.cpp:26-41 | mIsRunning, once false, stays false |
| Shutdown.ShutdownTerminates | Server/ClientManager.cpp:32-40 | Whenever recvTask has returned, start and sendTask perform a bounded number of actions inside and outside the queue, three more for each spurious wakeup, whatever is pushed meanwhile; and unless both have returned one of them can act, or a pusher inside push can |
| Shutdown.EmptyReadEnds | Server/ClientManager.cpp:108-136 | After a read that throws or returns nothing, recvTask returns within four actions, without reading again, and mIsRunning is false |
| Shutdown.FailedSendEnds | Server/ClientManager.cpp:93-99 | After a send that throws, sendTask returns within two actions, without popping again, and mIsRunning is false |
| Shutdown.RunsWhileAllIsWell | Server/ClientManager.cpp:77-136 | While no read fails or ends and no send fails, mIsRunning stays true and both tasks go on |
| Shutdown.StartsUp | Server/ClientManager.cpp:26-30 | start sets both tasks to work: one reads, the other is inside pop |
| Shutdown.SocketGets | Server/ClientManager.cpp:80-94 | The socket is given the packets popped, in order, but for those of type 0; the sentinel is one of these, and has been pushed when start waits for sendTask |

## Left out

- Winsock, the completion port, events and socket lifetime are foreign calls: an operation is posted, and the environment completes it whenever it likes. Posting always succeeds.
- The matching of a completion to its operation, and the lifetime of send buffers: the code does not keep these under all schedules. The look-up of a client after its validity check is a step of its own that may fail; nothing is claimed about it.
- ServerManager, ThreadPool and ClientManager as interleaved objects: their threads are step machines on values. The classes `Server.ServerManager`, `Clients.Client` and `ConcurrentQueue.Queue` show each member function without interference; the Undisturbed lemmas and `Server.ListenGivesItsTasks` tie the queue, the worker and listen to the machines.
- ConcurrentQueue.Queue.Pop: asks for a non-empty queue, since alone a thread would wait for ever; `ConcurrentQueue.UndisturbedWait` and `Monitor` model the wait.
- Server.ServerManager.Listen: failures of the set-up calls before it, and the constructor's pool and running flag.
- Server.ServerManager.AcceptConnection: the attaching of handlers by the factory.
- Server.ServerManager.WorkerRound: the removal of the client after a runtime_error. The receive handler catches what it throws and the sent handler is empty, so none reaches this place.
- Server.ServerManager.SendRound: ends where the wait begins; the wait is part of the pipeline machine.
- Handlers.AudioServerHandler: is given its list, which the source reads from a directory.
- Wav.WavFilePackager.GetNextChunk: asks that no more is extracted than the total, as its caller tests first; otherwise the subtraction would wrap around and the read run past the buffer.
- Pipeline.Complete: says only that a worker has dequeued the completion of a send. Which thread dequeues it, and what it takes it for, is the client machine's part.
- Pipeline.Next: mSendMutex is left out, since only sendTask takes it; and mIsRunning is true throughout, since nothing called in the loop throws what the model contains.
- Clients.Next: follows one client; workers busy with others are idle to it, and the wait of sendTask is part of the pipeline machine only.
- Shutdown.Next: takes packets by their type only, and spawning and joining threads as single actions. Its queue has no other consumer than sendTask.
- Handlers.AudioServerHandler.RequestFile: asks that the chunk loop ends for the file it finds, which `Wav.ChunkLoopTermination` decides; beyond that the source does not return. HandlePacket and OnReceived ask the same, for a TRACK request only. The queue is either there or gone for the whole of a call. The byte vector the source also fills is never read and is left out.
- Handlers.AudioServerHandler.HandlePacket: a TRACK packet whose names lack a NUL makes the C runtime's invalid-parameter handler stop the program; the model changes nothing.
- Songs.FileList.IndexOf: returns -1 where the source leaves the result unset.
- Pool.Init: takes mFinished as false, since the source does not initialise it.
- `FileList::populate`, `getFileName`, `getFullFilePath`, `SongFileConverter`, `Settings`, `SettingsHandler`, `Buffer`: file system access, unfinished code, or plain copies.
- `ConcurrentQueue::clear`: never instantiated, and calls a method `std::queue` lacks.
- The packet header arithmetic and handler loop of `ClientManager`: older than the id field.
- Memory exhaustion, console output, and exceptions thrown by libraries.
