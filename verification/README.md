# Epimone: a verified model

Epimone is a persistent terminal: a single-threaded daemon owns the PTY
sessions, and the GTK program is only a view of them. This project models the
parts of both whose correctness is decided by the code itself, and proves it.

| module | models | main results |
|---|---|---|
| Bytes, Ring | the growing scrollback ring, on an array | the ring refines an append-only history |
| Wire, Codec | the wire primitives, requests and replies | every encoding round-trips, cursors land where they should |
| Framing, Endpoints | the frame parser, connection and session byte queues | frames do not depend on how reads cut the stream; no byte lost, repeated or reordered |
| Channel | a connection bound to a session | what a client sees is a gap-free stretch of the output |
| History | the daemon over time, as snapshots | over every run: taps fixed, no gap, no loss without a failure, ids never reused |
| Lists | lists without repetition | the unlink loop |
| Registry | group membership on values | invariants over every run |
| Requests | what each request does to sessions and books and is answered | one reply to each frame, from the state it found; each effect stated by itself |
| Events | what the kernel reports and what each event does to a snapshot | a client stays bound until an event is about its session; every session was spawned by a request |
| Daemon | the daemon's objects, handlers and event loop | one invariant kept by every step; the objects refine the registry; every event has its effect; every run is one of History's |
| GroupSync | the GUI's enrolled cache and its periodic pass | the cache agrees with the daemon over any interleaving |
| Geometry | blob trees, pruning, the geometry walk, grids and ratios | exact tiling; the fast walk is the plain layout of the pruned tree |
| SplitTree | the widget tree, its surgery and zoom | pointers refine shapes; split, close, move and zoom do what they say |
| Coverage | the overview's reconciliation and reload | each live session on exactly one card |
| RenderQueue | the thumbnail pipeline | termination, bounded retries |
| Winsize | coalescing of size changes | no size is lost |
| Hsl | the chrome's colour arithmetic | a true inverse, agreement with the CSS standard |

Objects the program updates in place are classes; their methods carry loop
invariants and state their whole effect, usually by a function on values about
which the lemmas speak. Ghost fields hold histories: everything a PTY has put
out, everything queued and sent, everything received and the frames cut from it.

Where the code and its own comments differ, the model follows the code:

- The overview's comment says every live session is on exactly one card. A
  session whose group another window shows is on none, and a blob naming an id
  of 2^32 or more passes the 32-bit table test; both have their exact condition.
- `epimone_page_remove_terminal` does not remove the last pane of a page: it
  clears the focus and asks for the page to be closed.
- A GROUP_SET that fails for any reason, a lost reply included, makes the tab
  forget its group; the old group then lives until its members have moved.
- A resize request is sent once, and its failure is not noticed.

## Model

| member | source | states |
|---|---|---|
| `History.OutputInEveryRun` | src/daemon/server.c:476-524 | In every run in which no allocation on an output path fails, and at every moment between batches, the last frame a bound client sent was the ATTACH for its session, the ATTACHED frame about that session stands directly ahead of its raw output, and what it has been sent behind that frame and has still to be sent is the session's output from max(0, length when it joined minus the ring ceiling) to its end, with no gap and no repeat |
| `History.AllGreeted` | src/daemon/server.c:476-524 | In every run, failures or not, the last frame of every raw channel was the ATTACH that opened it, naming the session it is bound to, and what stands directly ahead of its raw output is the ATTACHED frame about that session, or nothing for want of memory |
| `History.InputInEveryRun` | src/daemon/server.c:907-915 | In every run in which no input allocation and no write to a PTY fails, what a bound client sent is its frames spelled out and then its raw bytes, and those are the end of what the PTY has taken and what waits for it, in order and once, as long as the PTY is open |
| `History.TapStays` | src/daemon/server.c:476-524 | While a connection stays a listed raw channel its tap never moves, it never parses another frame, a detached client stays detached, and everything sent, queued and received stays so and only grows |
| `History.NothingRefused` | src/daemon/server.c:63-104 | In such a run no connection ever loses an output byte, no ring starves, no bound client has a short replay, and no raw channel goes without its ATTACHED frame |
| `History.NothingDiscarded` | src/daemon/session.c:195-259 | In a run without failures on the input path no session with an open PTY has lost a typed byte |
| `History.BooksInEveryRun` | src/daemon/server.c:705-712 | Over every run of the daemon a session id names one session for ever, a group id once passed or given up never names a group again, a group nobody has joined yet stays, and the counters and the set of populated groups only grow |
| `History.ProgressTrans` | src/daemon/server.c:1388-1436 | Two stretches of a run make one: taps fixed, histories growing, nothing refused or discarded, one run of registry steps |
| `Daemon.Server.Serve` | src/daemon/server.c:1371-1438 | A fresh daemon served any reports for any number of rounds, each naming what is in its lists by then, goes round after round until it is told to stop; in each round every event collected has its whole effect, in order, and the round is cleared up; and the states between the rounds form a run in the sense of those theorems |
| `Events.BoundInEveryRun` | src/daemon/server.c:1388-1436 | In every such run a client that stays listed stays bound to its session until an event is about that session: the exit of its child, its PTY, or a request that attaches to it, kills it or detaches its client |
| `Events.EffectSpares` | src/daemon/server.c:1388-1436 | No event unbinds a client of a session, closes its master, kills it or unlists it but one about that session |
| `Events.CollectedFrom` | src/daemon/server.c:1377-1391 | The batch collected from any reports names only listed objects and no connection twice |
| `Events.CollectedAll` | src/daemon/server.c:1377-1391 | When every report is about something listed and none repeats a connection, nothing is passed over |
| `Events.ExitsUnnoticed` | src/daemon/server.c:1150-1178 | Whatever children exit, no session with another pid changes, no client but theirs is unbound or told to close, no stream moves and no book changes |
| `Events.ExitsEnd` | src/daemon/server.c:1150-1178 | The first listed session with each pid that exited is dead afterwards, and listed exactly if it had not been killed |
| `Events.ChildExits` | src/daemon/server.c:1150-1178 | Right after a spawn the exit of its child ends exactly the new session, even when an older listed session has the same pid |
| `Events.SpawnedInEveryRun` | src/daemon/server.c:390-448 | In every run from an empty daemon each session ever listed was brought by a CREATE that some client sent in some round, whose fork, ring and registration succeeded, and no other event brings any |
| `Events.EffectBrings` | src/daemon/server.c:390-448 | One event lists a new session only through a CREATE frame that it served and whose spawn succeeded |
| `Events.BoutTakes` | src/daemon/server.c:1107-1148 | One bout of reading takes exactly the chunks before the first block, error or end of file, passes on exactly those that found memory, and hangs up exactly at an error or an end of file |
| `Events.HandedOrPending` | src/daemon/server.c:1107-1148 | Over a bout the bytes handed to the client's socket and the bytes still pending are those pending before and those passed on |
| `Events.ChokesWhere` | src/daemon/server.c:63-104 | A bout makes the client's connection close exactly when one of its chunks finds no memory, exceeds the backlog limit or meets a failing write |
| `Daemon.Server.SnapHeard` | src/daemon/server.c:917-1014 | Between events a raw channel has handed on every byte it received behind its frames, and a control connection that is not to be closed has been parsed up to its last complete frame |
| `Daemon.Server.GapFree` | src/daemon/server.c:476-524 | In any valid state, for a bound client that has lost nothing, closing or not: sent plus pending behind the ATTACHED frame are the session's output from one index to its end, and that index is one ceiling before the client joined unless an allocation cut the replay short |
| `Daemon.Server.TypedInOrder` | src/daemon/server.c:907-915 | In any valid state the bytes received on a bound connection are its frames, its raw bytes and what is still buffered, and unless something was discarded the raw bytes are the end of what the PTY took and what is queued for it |
| `Channel.BecomeChannel` | src/daemon/server.c:476-524 | ATTACH queues the ATTACHED frame and behind it, when memory allows, exactly the ring's contents, so that the new raw stream is such a stretch of output and of input; with memory nothing is lost and the replay is whole |
| `Channel.PassOutput` | src/daemon/server.c:1107-1128 | One chunk of PTY output goes to the ring and, when memory allows, whole to the client's queue; what is written are the first bytes of what was pending and the chunk; the stretch stays gap-free, ring and client lose something only on a failed allocation, and the close flag is raised exactly for a failed allocation, a backlog over the limit or a failing write |
| `Channel.PassInput` | src/daemon/server.c:907-915 | Raw client bytes extend the typed and the raw history, and unless an allocation or a write fails or the PTY is closed the PTY's share and the queue together grow by exactly those bytes, in order and once |
| `Daemon.Server.DataToPty` | src/daemon/server.c:907-915 | The same on the daemon, with every other session untouched; bytes for a session that is gone lead nowhere |
| `Daemon.Server.Dispatch` | src/daemon/server.c:849-878 | Every request from a control connection has its own effect: a CREATE that spawns brings exactly one session, first in the list, with the child's pid, the time, its directory, alive, with an open PTY and nothing put out, typed or attached; a KILL ends exactly its session, a DETACH cuts off exactly its client, an ATTACH takes exactly that session over, and no other request changes any session or list; GROUP_ADD files exactly its session under exactly its group, GROUP_REMOVE ungroups exactly its own, GROUP_SET stores its blob under its id alone, GROUP_NEW under the next id, and a refused request changes no book; a group disappears exactly when its last member leaves; one reply belonging to the request is queued; nobody's tap moves and, with memory, nobody's bytes are lost; the whole invariant is kept |
| `Daemon.Server.GroupsDestroyed` | src/daemon/server.c:241-247 | On the daemon's books a request destroys a group exactly when it takes away its last member |
| `Requests.RegAfterReaches` | src/daemon/server.c:849-878 | Every request is one registry step or none |
| `Requests.RegAfterHonours` | src/daemon/server.c:849-878 | The books after a request in terms of membership and blobs alone: which session is filed where, which groups exist and which blob each has, and that a request that is not granted changes nothing |
| `Requests.RepliesTell` | src/daemon/server.c:849-878 | A reply has the type that belongs to its request exactly when the request was granted and is an ERROR otherwise, so every OK goes with the effect above |
| `Requests.PeekRoundTrip` | src/epimone-client.c:783-787 | Decoding a PEEK reply gives back the id, the tail and the total, and a reply without the trailing total reads as total 0 |
| `Requests.ReadPeek` | src/epimone-client.c:747-794 | The client's stepwise reading of a PEEK reply is the function of that round trip |
| `Requests.ErrorRoundTrip` | src/epimone-client.c:200-220 | Decoding an ERROR reply gives back its code and its message, character for character |
| `Daemon.Server.DispatchFront` | src/daemon/server.c:930-975 | The frame cut off the front of the buffer is the one decoded and dispatched, from the state it found; it opens the raw channel behind what was queued, or its one reply joins the queue; and the bytes behind it are what is left |
| `Daemon.Server.ParseLoop` | src/daemon/server.c:917-1014 | One read dispatches the frames in order, each from the state those before it left; what joins the queue is exactly one reply for each and behind the last the error for an illegal length, or the head of the raw output the last one opened; the registry ends as the fold of those requests, new sessions are exactly those of its CREATEs, and nobody is disturbed but by them; dispatching stops exactly behind the ATTACH that opened the channel, at an incomplete frame, or with the connection marked for closing, as an illegal length does |
| `Requests.ConversedMore` | src/daemon/server.c:930-1005 | One more round of the loop, whether it waits, refuses or serves, makes one longer conversation of the same kind |
| `Daemon.Server.ReadConn` | src/daemon/server.c:917-1014 | For every outcome of read: exactly the bytes read join the received history, a failed allocation or the peer's end marks the connection for closing, the frames newly cut are answered as above and fold the registry, a raw connection's bytes reach the PTY's share and queue in order, and input is lost only on a failed allocation, a failed write or a closed PTY |
| `Daemon.Server.HandleAttach` | src/daemon/server.c:475-524 | The session's incumbent is detached and told to close, no other session and no other session's client changes, and the caller becomes the channel with the ATTACHED frame and, with memory, the whole ring behind what was queued; an unknown or removed id is refused |
| `Daemon.Server.HandleKill` | src/daemon/server.c:526-567 | The session stops being a member at once and its group goes with its last member; a living child leaves a hidden session, a dead one is unlinked; nobody stays attached to it, and no other session and no client of one changes |
| `Daemon.Server.HandleDetach` | src/daemon/server.c:592-620 | The session's client is cut off and the session runs on; no other session and no client of one changes |
| `Daemon.Server.HandlePeek` | src/daemon/server.c:621-672 | PEEK answers with the last min(k, size) bytes the ring holds and the ring's size, and changes nothing but the asker's queue |
| `Daemon.Server.HandleList` | src/daemon/server.c:450-473 | LIST encodes exactly the sessions not removed, in list order, with the instance id |
| `Daemon.Server.WriteList` | src/daemon/server.c:455-472 | The counting and writing loops over the frame writer yield that encoding, or a frame marked out of memory |
| `Daemon.Server.HandleCreate` | src/daemon/server.c:390-448 | A spawned session is numbered next, put first in the list, and is the child: its pid, the time of the call, the asked-for directory or else the home one, alive, PTY open, nobody attached, no output and no input; no other session changes; one whose descriptor cannot be registered leaves nothing but a used number, and a failed fork or ring nothing at all |
| `Daemon.Server.HandleGroupNew` | src/daemon/server.c:673-722 | GROUP_NEW is refused over the blob or group limits and otherwise stores the blob under a new id, as a group created now at the front of the list |
| `Daemon.Server.HandleGroupSet` | src/daemon/server.c:724-760 | GROUP_SET replaces the blob of an existing group and nothing else |
| `Daemon.Server.HandleGroupAdd` | src/daemon/server.c:762-796 | GROUP_ADD is one atomic move in the registry |
| `Daemon.Server.HandleGroupRemove` | src/daemon/server.c:798-822 | GROUP_REMOVE leaves the session ungrouped and collects its old group if that was its last member |
| `Daemon.Server.HandleGroupList` | src/daemon/server.c:824-846 | GROUP_LIST encodes each stored group once with its members in list order |
| `Daemon.Server.WriteGroupList` | src/daemon/server.c:824-846 | The nested writing loops over the frame writer yield that encoding, or a frame marked out of memory |
| `Daemon.Server.ListingsAgree` | src/epimone-protocol.h:91-103 | In one state LIST names every session that counts once, the member lists of GROUP_LIST are pairwise disjoint, have no repeats and name only sessions that LIST shows, and both agree with the registry |
| `Daemon.Server.ListingIs` | src/daemon/server.c:450-473 | The listing of the objects is the listing of the snapshot: each session not removed, in list order, with its id, pid, flags, time and directory |
| `Daemon.Server.InfosInOrder` | src/daemon/server.c:455-472 | Listing one run of sessions and then another is listing both in order; a removed session has no entry, any other one has exactly its own fields |
| `Daemon.Server.SightSees` | src/daemon/server.c:849-878 | What a request's reply is computed from is what the snapshot shows: ids, rings, groups, blobs, members and counters |
| `Daemon.Server.DecodedListingsAgree` | src/epimone-protocol.h:91-103 | The same of what a client decodes from the two replies, with both instance ids the daemon's, for any numbers that fit their fields; and each decoded entry has its session's pid, alive flag, directory and creation time, and says attached exactly when a client is bound to the session |
| `Daemon.Server.MembersAre` | src/daemon/server.c:211-226 | A group's member list is exactly the sessions the registry files under it, and is empty exactly when the registry has no member |
| `Daemon.Server.GcGroup` | src/daemon/server.c:237-263 | Collecting a group on the objects is collecting it in the registry |
| `Daemon.Server.RemoveSession` | src/daemon/server.c:267-306 | A session is unlinked once, joins the deferred-free list, its client is unbound and told to close, and the registry drops it; a second call changes nothing |
| `Daemon.Server.ReapDead` | src/daemon/server.c:308-319 | The deferred frees happen only here, and free every queued session |
| `Daemon.Server.DetachClient` | src/daemon/server.c:321-333 | After a detach neither end refers to the other |
| `Daemon.Server.CloseConn` | src/daemon/server.c:1016-1042 | A closed connection is off the list and no session names it |
| `Daemon.Server.AcceptConn` | src/daemon/server.c:1044-1090 | A registered client is a fresh control connection at the front of the list; a failed registration leaves no trace; nothing else changes |
| `Daemon.Server.PtyHangup` | src/daemon/server.c:1092-1148 | At the PTY's end of file a killed session is unlinked and any other stays listed with its client told to close; no group changes |
| `Daemon.Server.PtyChunk` | src/daemon/server.c:1107-1128 | One chunk on the daemon: the output grows by it, the client's queue by it when memory allows, the client is written its share, and no other ring, tap or byte changes |
| `Daemon.Server.PtyReadable` | src/daemon/server.c:1107-1148 | Reading a PTY appends to its output exactly the bytes read up to the block, the error or the end of file, closes the master exactly at the latter two, queues for the client exactly the chunks that found memory, writes it exactly as many bytes as the writes took, tells it to close exactly when a chunk choked it or the PTY hung up, and changes no group |
| `Daemon.Server.OnPty` | src/daemon/server.c:1394-1412 | A ready PTY takes its share of the keyboard queue and gives its output, which is queued for the client as memory allows and written as its socket takes it; at the end of file the master closes and a killed session goes; a session removed earlier in the batch is left alone; no other session and no other client changes |
| `Daemon.Server.OnConn` | src/daemon/server.c:1413-1434 | A ready connection sends its share of what is pending, receives exactly what was read, has the frames newly cut answered one by one and the registry and the sessions run through them, is told to close only for one of the reasons that arose, and is freed exactly when it is to be closed and has drained; everyone else stays as they were or are detached by one of those frames; nothing is lost but by a failed allocation, a failed write or a closed PTY |
| `Daemon.Server.Handle` | src/daemon/server.c:1388-1436 | One event of any kind has its whole effect: the clients accepted, the children reaped and the stop, the PTY served, or the connection served as above; taps stay, histories only grow, ids are never reused, and bytes are lost only on a failed allocation, a failed write or a closed PTY |
| `Daemon.Server.ReapChild` | src/daemon/server.c:1150-1178 | The first listed session with that pid ends dead: it stays listed unless it was killed, when its client is told to close and it ends in the deferred-free list; no other session, no other client and no group changes |
| `Daemon.Server.ReapAll` | src/daemon/server.c:1180-1205 | A signal reaps the exited children one after the other, and stops the daemon exactly if it says so |
| `Daemon.Server.ProcessDeadlines` | src/daemon/server.c:1239-1262 | A killed session that is due is escalated once |
| `Daemon.Server.RunBatch` | src/daemon/server.c:1388-1436 | Over a whole event batch with at most one event per connection every event finds its object still allocated and has its effect in order; at the end the deferred list is empty and the kill deadlines that are due are done with; and the batch is one stretch of a run |
| `Daemon.Server.constructor` | src/daemon/server.c:1284-1369 | The daemon starts in the invariant with nothing listed |
| `Registry.RunKeeps` | src/daemon/server.c:237-263 | Over every run of operations each stored group is unpopulated so far or has a member, and every session's group exists |
| `Registry.StepKeeps` | src/daemon/server.c:557-566 | Every single operation keeps that |
| `Registry.DestroyedIffLastMemberLeft` | src/daemon/server.c:241-247 | A group disappears in a step exactly when the step takes its last member |
| `Registry.MoveSparesDestination` | src/daemon/server.c:782-796 | GROUP_ADD never destroys its destination, moves only that session, and destroys the source exactly when it was its last member |
| `Registry.UnseededSurvives` | src/daemon/server.c:241-247 | A group that has never been populated survives any step |
| `Registry.IdsNeverReused` | src/daemon/server.c:705-712 | An id the counter has passed that names no group never names one again |
| `Registry.RunForward` | src/daemon/server.c:705-712 | Over any run the counter and the set of populated groups only grow, and a group still unpopulated at the end was not destroyed |
| `Endpoints.Connection.ReceivedParsed` | src/daemon/server.c:917-1014 | However the stream was cut into reads, the frames dispatched and the leftover are those of parsing all received bytes at once, and the leftover is shorter than 4 + MAX_FRAME |
| `Endpoints.Connection.ReceivedSpelled` | src/daemon/server.c:917-1014 | Every received byte is in exactly one dispatched frame or behind them all, in order |
| `Endpoints.Connection.Queue` | src/daemon/server.c:63-104 | Queueing compacts and appends without changing what is sent plus pending, and raises the close flag exactly on a refused allocation or a backlog over the limit |
| `Endpoints.Connection.Flush` | src/daemon/server.c:880-905 | Under any partial writes the bytes sent are the first of what was pending, as many as the accepted counts before the first other outcome come to, and the rest stays pending; the close flag is raised exactly when that outcome is an error or takes nothing while bytes are left |
| `Endpoints.Session.FlushInput` | src/daemon/session.c:224-259 | The PTY takes from the front of the keyboard queue what the accepted counts before the first other outcome come to, and the rest stays in order; an error or a closed PTY discards the queue |
| `Endpoints.Session.QueueInput` | src/daemon/session.c:195-222 | Typed bytes are written at once as far as the accepted counts go and the rest queued, in order and exactly once, unless an allocation or a write failed |
| `Endpoints.DrainOffers` | src/daemon/server.c:880-905 | A write loop takes the smaller of what is left and the sum of the accepted counts before the first outcome that is neither a positive count nor an interrupt, and fails exactly when bytes are left and that outcome is there and is an error or a count of 0 |
| `Framing.ParseAppend` | src/daemon/server.c:930-1005 | Parsing can be interrupted at any byte |
| `Framing.CutIndependence` | src/daemon/server.c:930-1005 | Feeding a stream chunk by chunk gives the frames and leftover of the whole stream |
| `Framing.ParseKeepsBytes` | src/daemon/server.c:930-1005 | The frames and the leftover spell the stream |
| `Framing.ParseOfFrames` | src/daemon/server.c:930-1005 | Legal frames sent back to back parse to exactly those frames |
| `Framing.LeftoverBound` | src/daemon/server.c:940-965 | Less than one maximal frame is ever buffered between reads |
| `Ring.Ring.Write` | src/daemon/ring.c:100-143 | For any sequence of write sizes the contents stay a suffix of everything written, and are exactly its last min(length, ceiling) bytes while no allocation has failed |
| `Ring.Ring.Grow` | src/daemon/ring.c:46-98 | Growing succeeds, is refused or fails, and never changes the contents |
| `Ring.Ring.Relayout` | src/daemon/ring.c:72-98 | Re-laying out a wrapped buffer loses nothing |
| `Ring.Ring.Append` | src/daemon/ring.c:118-143 | Copying at the tail and advancing the head keeps the newest bytes |
| `Ring.Ring.Snapshot` | src/daemon/ring.c:145-171 | The snapshot is the contents, oldest first |
| `Ring.Ring.SnapshotTail` | src/daemon/ring.c:173-206 | The tail snapshot is the last min(k, size) bytes of the snapshot |
| `Ring.OverlayKeepsNewest` | src/daemon/ring.c:118-143 | After a wrapped overlay the read from the new head is the old contents and the new data less what no longer fits |
| `Ring.UnrollTail` | src/daemon/ring.c:190-206 | Reading n bytes from the advanced head is the last n bytes read from the head |
| `Ring.TracksWrite` | src/daemon/ring.c:100-143 | The step that keeps the last-N-bytes relation |
| `Ring.Ring.ReplayStart` | src/daemon/server.c:510-522 | A replay starts at max(0, bytes written minus ceiling) |
| `Wire.ReadsU64` | src/epimone-protocol.h:300-305 | Reading back a 64-bit word |
| `Wire.LittleEndian` | src/epimone-protocol.h:7-14 | 16-bit and 32-bit words stand with the lowest byte first |
| `Wire.LittleEndian64` | src/epimone-protocol.h:7-14 | and so do 64-bit words |
| `Wire.ReadsStr` | src/epimone-protocol.h:422-447 | Reading back a string, cursor just behind it |
| `Wire.ReadsBlob` | src/epimone-protocol.h:450-473 | Reading back a blob; an empty one reads as none |
| `Wire.Reader.U64` | src/epimone-protocol.h:412-419 | The reader's two-word read, including a failure in its second half |
| `Wire.Reader.Str` | src/epimone-protocol.h:422-447 | The bounds-checked string read with its sticky error |
| `Wire.Reader.Blob` | src/epimone-protocol.h:450-473 | The bounds-checked blob read with its sticky error |
| `Wire.Writer.Reserve` | src/epimone-protocol.h:245-267 | Growing the frame buffer or marking it out of memory |
| `Wire.Writer.PutBytes` | src/epimone-protocol.h:270-276 | A put appends its bytes or marks the frame unusable |
| `Wire.Writer.End` | src/epimone-protocol.h:337-347 | An unspoiled frame carries its own length, type and body |
| `Codec.ListRoundTrip` | src/daemon/server.c:450-473 | Decoding a LIST reply gives back any number of sessions, and the cursor lands exactly on the trailing instance id |
| `Codec.OldListRoundTrip` | src/epimone-client.c:1103-1119 | A reply without the trailing field lists the same sessions and reads as instance 0 |
| `Codec.GroupListRoundTrip` | src/daemon/server.c:824-846 | Decoding a GROUP_LIST reply gives back any number of groups and members and consumes every byte |
| `Codec.CreateRoundTrip` | src/epimone-client.c:540-549 | CREATE round-trips with its optional executable path and without it |
| `Codec.RequestRoundTrip` | src/daemon/server.c:849-878 | The daemon decodes every request the client can build to that request |
| `Codec.CutRequest` | src/daemon/server.c:390-846 | A request cut short anywhere is malformed, except a PEEK of an id alone, which asks for the default number of bytes, an empty GROUP_NEW, which has an empty blob, and a CREATE that ends behind its environment, which has no path |
| `Codec.ShortBodies` | src/daemon/server.c:475-846 | For any bytes, well-formed or not: exactly which lengths make a request with fixed fields malformed |
| `Codec.CutCreate` | src/daemon/server.c:390-420 | The same of CREATE, at every byte of its strings and arrays |
| `Codec.AbsurdCount` | src/daemon/server.c:335-388 | A CREATE announcing more strings than the limit is malformed whatever follows |
| `Codec.RequestLayout` | src/epimone-protocol.h:30-83 | Which field stands at which offset of a request |
| `Codec.InfoLayout` | src/daemon/server.c:134-144 | Which field stands at which offset of a LIST entry |
| `Codec.GroupLayout` | src/daemon/server.c:824-846 | Which field stands at which offset of a GROUP_LIST entry and of both replies |
| `Codec.ListSessions` | src/epimone-client.c:616-664 | The client's loop over a LIST reply decodes what the cursor function says |
| `Codec.InstanceId` | src/epimone-client.c:1103-1119 | Skipping the array reaches the trailing instance id, or 0 when there is none |
| `Codec.ListGroups` | src/epimone-client.c:891-957 | The client's loop over a GROUP_LIST reply decodes what the cursor function says |
| `Codec.ReadCreate` | src/daemon/server.c:390-420 | The daemon's CREATE decoder, with its optional trailing field |
| `GroupSync.Gui.SyncPageGroup` | src/epimone-layout.c:287-377 | After a pass with its requests answered the tab's group exists, holds the new blob and has every pane session the daemon still counts, also when GROUP_SET failed and the group was made anew; the group is kept when GROUP_SET succeeds, and then a pass with every pane enrolled only replaces the blob; only the tab's panes move, and only to its group; no other group's blob changes; sessions of other tabs keep their group; a zoomed or empty tab changes nothing; the enrolled caches stay sound |
| `GroupSync.Gui.UpdateGroup` | src/epimone-layout.c:308-350 | A group is kept exactly when GROUP_SET succeeds; otherwise the cache is emptied and a new group minted or none kept |
| `GroupSync.Gui.EnrollPanes` | src/epimone-layout.c:352-376 | The loop enrolls by atomic moves only, marks only what was confirmed, and never loses the destination |
| `GroupSync.Gui.EnrollPane` | src/epimone-layout.c:356-376 | A pane known to be enrolled costs no request; any other costs one, which moves exactly that session, and is marked exactly when it was answered with success |
| `GroupSync.Gui.SplitPane` | src/epimone-page.c:2323-2381 | A split adds one fresh session right behind the split pane and keeps every cache sound and every settled tab settled |
| `GroupSync.Gui.ClosePane` | src/epimone-page.c:2459-2467 | Closing a pane keeps the caches sound |
| `GroupSync.Gui.OpenInNewTab` | src/epimone-window.c:718-762 | Moving a pane to a tab without a group keeps the caches sound and the source tab settled |
| `GroupSync.Gui.Kill` | src/daemon/server.c:526-567 | A kill keeps every cache sound and every settled tab settled |
| `GroupSync.MoveSpares` | src/daemon/server.c:782-796 | A GROUP_ADD seen from its destination |
| `GroupSync.SettledGroupExists` | src/epimone-layout.c:316-335 | A settled tab with a live pane has an existing group |
| `GroupSync.Tab.SetGroupId` | src/epimone-page.c:2818-2829 | Another group id empties the enrolled cache |
| `Geometry.Canvas.WalkNode` | src/epimone-layout.c:1426-1534 | The append, truncate and re-walk recursion appends exactly the plain layout of the pruned tree to both arrays and leaves what they held in front |
| `Geometry.DrawingTiles` | src/epimone-layout.c:1426-1534 | If a pane survives: every point of the half-open square lies in exactly one pane and no point outside it in any, areas sum to 1, panes follow the tree's order, one seam fewer than panes, and no seam runs across a pane |
| `Geometry.DrawingDivided` | src/epimone-layout.c:1426-1534 | Every pane of the first side of the drawn tree ends at or before the recorded ratio of the square, every pane of the second starts at or after it; a ratio not between 0 and 1 counts as one half |
| `Geometry.PanesDivided` | src/epimone-layout.c:1480-1495 | The same of any split over any rectangle, along its own direction |
| `Geometry.SplitShares` | src/epimone-layout.c:1480-1527 | A split's panes are those of the first side over the ratio's share of the rectangle and then those of the second side over the rest, and its seam stands exactly between |
| `Geometry.PanesTile` | src/epimone-layout.c:1484-1524 | Each point of a rectangle is in exactly one pane of its layout |
| `Geometry.PanesInside` | src/epimone-layout.c:1484-1495 | Every pane has a positive size inside the rectangle |
| `Geometry.PanesFill` | src/epimone-layout.c:1484-1495 | The panes have the rectangle's whole area |
| `Geometry.SeamsJoinPanes` | src/epimone-layout.c:1507-1527 | One seam fewer than panes |
| `Geometry.SeamsAvoidPanes` | src/epimone-layout.c:1507-1527 | No seam is drawn across a pane |
| `Geometry.PruneFilters` | src/epimone-layout.c:594-645 | Pruning keeps exactly the wanted sessions in their order and leaves no half-empty split |
| `Geometry.PruneTwice` | src/epimone-layout.c:594-645 | Pruning by one set and then another is pruning by the intersection |
| `Geometry.PruneIdempotent` | src/epimone-layout.c:594-645 | Pruning twice is pruning once |
| `Geometry.BuildMatchesDrawing` | src/epimone-layout.c:1429-1434 | When every recorded session is alive the rebuilt tab has the picture's leaves and splits |
| `Geometry.BuildPrunesDrawing` | src/epimone-layout.c:594-645 | In general the rebuilt tab is the picture with the dead panes pruned, and rebuilding it again changes nothing |
| `Geometry.BlobGeometry` | src/epimone-layout.c:1536-1610 | The drawing of a blob, its panes and on request its seams; the first pane of the recorded focused session gets its recorded grid exactly and every pane at least 1 by 1 when a grid is recorded, none otherwise; an unreadable blob draws nothing |
| `Geometry.Canvas.AssignGrids` | src/epimone-layout.c:1563-1596 | One total grid is recovered from the focused pane, or is the recorded grid when that pane is not drawn, every pane gets its rounded share of it, and the focused one exactly what was recorded |
| `Geometry.CellsExact` | src/epimone-layout.c:1570-1578 | Dividing by a pane's fraction and multiplying back is exact |
| `Geometry.CellsGrow` | src/epimone-layout.c:1588-1596 | More of the tab never means fewer cells |
| `Geometry.RatioDrift` | src/epimone-layout.c:649-668 | Restoring a ratio in [0,1] puts the divider within half a pixel of it, and saving it again moves the ratio by at most 1/(2*dim) |
| `Geometry.PositionSurvives` | src/epimone-layout.c:105-120 | Saving and restoring a divider position is exact, and the saved ratio is the position's share of the size |
| `Geometry.RatiosDoNotDrift` | src/epimone-layout.c:105-128 | Over a whole tree at a fixed size one round trip stays within half a pixel and later ones are exact |
| `SplitTree.Page.Split` | src/epimone-page.c:2323-2381 | The pointers become those of the tree with a new divider, lying as asked, at the focused pane; exactly one pane is added, right behind it, focused; parent links, visible flags and distinctness hold; the page is unzoomed |
| `SplitTree.Page.RemoveTerminal` | src/epimone-page.c:2383-2457 | Exactly that pane goes, its sibling takes its divider's place, focus moves to the sibling's first pane only if it was on the removed one; the last pane stays and the page asks to be closed |
| `SplitTree.Page.ClosePane` | src/epimone-page.c:2459-2467 | Closing the focused pane |
| `SplitTree.Page.TakeFocusedLeaf` | src/epimone-page.c:2469-2546 | The focused pane comes out alive and loose and the split heals around it; a lone pane stays |
| `SplitTree.Page.AdoptLeaf` | src/epimone-page.c:2548-2571 | An empty page roots a loose pane and focuses it |
| `SplitTree.OpenInNewTab` | src/epimone-window.c:718-762 | Taking and adopting conserves the panes across two valid pages with no widget in both |
| `SplitTree.Page.PutInPlace` | src/epimone-page.c:2356-2367 | Hanging a widget in another's place redirects one link and leaves every other alone |
| `SplitTree.Relinked` | src/epimone-page.c:2356-2372 | When only the divider above a part was redirected the links are those of the replaced shape |
| `SplitTree.GraftedTips` | src/epimone-page.c:2323-2381 | A split inserts one pane right behind the split one in the in-order sequence |
| `SplitTree.InsertedAt` | src/epimone-page.c:2323-2381 | Behind means directly behind: the new pane stands at the next position and no other pane moves past another |
| `SplitTree.HealedTips` | src/epimone-page.c:2411-2455 | A close deletes one pane and keeps the order of the others |
| `Lists.WithoutAt` | src/daemon/server.c:267-290 | Unlinking takes out the first occurrence of an element and joins what is before and behind it |
| `SplitTree.HealedReplaces` | src/epimone-page.c:2411-2455 | Closing a pane puts its sibling's subtree where their divider was |
| `SplitTree.HealedLinks` | src/epimone-page.c:2411-2455 | The links after a close are those of the healed tree, which has the other widgets |
| `SplitTree.SplitThenClose` | src/epimone-page.c:2323-2457 | Closing the pane a split made gives back the very tree |
| `SplitTree.SplitThenCloseFocus` | src/epimone-page.c:771-786 | and the focus returns to the pane that was split |
| `SplitTree.HeirOf` | src/epimone-page.c:2415-2420 | The focus of a closed pane goes to the first pane of its sibling |
| `SplitTree.HeirStays` | src/epimone-page.c:2415-2420 | The pane that inherits the focus is in the healed tree |
| `SplitTree.Page.ApplyZoom` | src/epimone-page.c:845-880 | After zooming exactly the zoomed pane can be seen; a single pane does not zoom |
| `SplitTree.Page.Unzoom` | src/epimone-page.c:882-893 | After unzooming every widget is visible |
| `SplitTree.Page.ToggleZoom` | src/epimone-page.c:901-910 | Toggling goes between the two states the invariant knows |
| `SplitTree.Page.ToggleTwice` | src/epimone-page.c:901-910 | Toggling twice restores every flag exactly when the page was not zoomed or is zoomed on the focused pane; otherwise the second toggle zooms on the focused one |
| `SplitTree.OnlyZoomedSeen` | src/epimone-page.c:845-880 | Hiding the siblings along the path leaves exactly one pane effectively visible |
| `SplitTree.AllSeen` | src/epimone-page.c:828-843 | With every flag set every pane is effectively visible, in order |
| `SplitTree.Page.FirstTerminal` | src/epimone-page.c:771-786 | The first pane of a subtree |
| `SplitTree.Page.CollectTerminals` | src/epimone-page.c:788-805 | The panes of a subtree, in order, appended |
| `SplitTree.Page.PaneCount` | src/epimone-page.c:807-827 | The number of panes |
| `Hsl.RgbRoundTrip` | src/epimone-chrome.c:55-125 | RGB to HSL to RGB is the identity for every colour with channels in [0,1], across all sectors and boundaries |
| `Hsl.HslRoundTrip` | src/epimone-chrome.c:55-125 | HSL to RGB to HSL is the identity exactly for colours that have a hue and for greys recorded with hue 0 |
| `Hsl.ToRgbIsCss` | src/epimone-chrome.c:87-125 | The conversion back is the one of section 4.2.4 of CSS Color Module Level 3 |
| `Hsl.ToHslProper` | src/epimone-chrome.c:55-85 | Hue in [0,360), saturation and lightness in [0,1], saturation 0 exactly for greys |
| `Hsl.ToRgbProper` | src/epimone-chrome.c:100-125 | Channels stay in [0,1] and the lightness is kept |
| `Hsl.FromRgba` | src/epimone-chrome.c:55-85 | The stepwise conversion computes the function the round trips are about |
| `Hsl.Channel` | src/epimone-chrome.c:87-98 | The two loops bring any hue onto the wheel by whole turns |
| `Hsl.FromHsla` | src/epimone-chrome.c:100-125 | The stepwise conversion back computes the function the round trips are about |
| `Hsl.Shade` | src/epimone-chrome.c:127-143 | The shade method computes the function below |
| `Hsl.ShadeByOne` | src/epimone-chrome.c:127-143 | Factor 1 keeps the colour and makes it opaque |
| `Hsl.ShadeScales` | src/epimone-chrome.c:127-143 | Any factor keeps channels in [0,1] and greys grey and makes the colour opaque; the lightness becomes the product with the factor, or the end of the unit interval that it lies beyond; a result that has a hue keeps it, with the saturation scaled in the same way |
| `Coverage.Reload` | src/epimone-overview.c:3274-3544 | This window's tabs each have their card, in order and first, then each group no window shows, then orphans; for ids the tables can tell apart a group has its card exactly when its id is one of this window's or no member is listed as attached, and a live session is on no card only when a group without a card lists it; no card draws a session that is not alive in the 32-bit tables; with member lists that do not overlap each live session is on exactly one card, or on none exactly when its group is attached in another window; and for listed and member ids below 2^32 every drawn session is listed alive exactly when no shown group's blob names a wider id the tables take for a live member |
| `Coverage.TableIsList` | src/epimone-overview.c:3321-3333 | For ids the tables can tell apart the table says attached of an id exactly when some listed session with that id is attached |
| `Coverage.TableSays` | src/epimone-overview.c:3321-3333 | Without that: an entry is what the last listed session with that key says |
| `Coverage.CardIffHere` | src/epimone-overview.c:3386-3490 | A group has a card exactly when it is one of this window's or no member of it is attached by the table |
| `Coverage.GroupsInOrder` | src/epimone-overview.c:3386-3490 | Both passes over the groups keep the list's order |
| `Coverage.KeptInOrder` | src/epimone-overview.c:3102-3109 | Dropping stale panes keeps the others' order |
| `Coverage.FirstLiveIs` | src/epimone-overview.c:3115-3146 | The session a card falls back on is the first live member in list order |
| `Coverage.BuildCard` | src/epimone-overview.c:3076-3162 | A card draws what the drawing of the blob's tree and the live members agree on, with its rectangles and grids, else one live member; never another session, never nothing when a member lives, and every pane has a grid |
| `Coverage.ReconciledIsLive` | src/epimone-overview.c:3083-3146 | Whatever the blob names, only live members of the group are drawn |
| `Coverage.DropStale` | src/epimone-overview.c:3102-3109 | Removing from the last index down keeps exactly the live panes in order |
| `Coverage.GroupPass` | src/epimone-overview.c:3386-3490 | Each group not shown elsewhere gets exactly its own card, in list order, this window's tabs apart from the others; afterwards each accounted session is on one card or shown elsewhere, never both |
| `Coverage.OrphanPass` | src/epimone-overview.c:3501-3539 | After the safety net every live session is accounted for |
| `Coverage.GroupOf` | src/epimone-overview.c:3249-3262 | The navigation target is a group that lists the session |
| `Coverage.CardListed` | src/epimone-overview.c:3094-3146 | For listed and member ids below 2^32 a card draws only sessions listed alive exactly when no pane its blob draws, nor the focused id when the card falls back on it, is 2^32 or more with the key of a live member |
| `Coverage.WideIdSlips` | src/epimone-overview.c:3102-3109 | A group with one live session and a blob drawing 2^32 + 1: whatever the live grid, its card draws that id, which is no session |
| `RenderQueue.Overview.Run` | src/epimone-overview.c:2434-2506 | From any queue, under every outcome of allocation and drawing and every interleaving of content changes and quiet periods with the chain's timers, the chain terminates with an empty queue and not rendering, every card has been composed, and no card was retried more than 4 times |
| `RenderQueue.Overview.Finish` | src/epimone-overview.c:2273-2361 | A settled pane is retried, or recorded with its signature before the next one starts, or completes its card, each exactly when the code does; the measure gets smaller and exactly one progress timer stays armed |
| `RenderQueue.Overview.PopAndCompose` | src/epimone-overview.c:2343-2357 | The head card leaves the queue or goes to its end for a retry, and a signature is recorded exactly when it was rendered, with one entry per pane |
| `RenderQueue.Overview.Compose` | src/epimone-overview.c:2122-2266 | A card is re-queued exactly when a renderer found nothing to draw and attempts are left, and rendered exactly when a texture came out |
| `RenderQueue.Overview.Start` | src/epimone-overview.c:2434-2480 | A pane of another grid sets the grid and waits a frame, any other is fed at once with what was peeked and the same grid; the measure gets smaller |
| `RenderQueue.Overview.FinishQuiet` | src/epimone-overview.c:2482-2506 | A quiet period that finds the pane still blank declines and leaves the backstop armed; any other finishes the pane |
| `RenderQueue.Overview.Pump` | src/epimone-overview.c:2583-2617 | The chain rests exactly when the queue is empty |
| `RenderQueue.Overview.Enqueue` | src/epimone-overview.c:2644-2704 | A card is queued at most once and starts a resting chain |
| `RenderQueue.Overview.Abort` | src/epimone-overview.c:2088-2099 | Aborting leaves no timer armed and nothing queued |
| `RenderQueue.RetriesAppend` | src/epimone-overview.c:2225-2230 | A re-queued card counts with the attempts it has left |
| `Winsize.Settled` | src/epimone-page.c:916-1006 | With the button up and no timer armed every live pane whose size was announced has had exactly that size pushed last |
| `Winsize.Page.MaybeResize` | src/epimone-page.c:955-978 | An announcement pushes nothing by itself, and leaves the push to the timer or, exactly during a drag, to its end |
| `Winsize.Page.FlushPendingResizes` | src/epimone-page.c:980-1006 | A drag's end pushes the current size exactly once to each pane that waits and has not had it, and leaves the others alone |
| `Winsize.Page.Button` | src/epimone-page.c:1008-1054 | Press and release keep the invariant that a drag implies the button is down, and end a missed drag |
| `Winsize.Page.PositionChanged` | src/epimone-page.c:2277-2305 | A divider moving is a drag exactly while the button is down |
| `Winsize.Bridge.ResizeFlush` | src/epimone-page.c:916-939 | A flush pushes the current grid once and never the same size twice in a row |
| `Winsize.Page.MovePane` | src/epimone-window.c:718-762 | Moved out of a drag, a pane keeps its pending size exactly if a timer still owes it |
| `Hsl.TurnsAgree` | src/epimone-chrome.c:87-98 | The value read does not depend on how many turns were taken off |
| `GroupSync.Gui.OpenTab` | src/epimone-page.c:2984-2996 | A new tab shows one fresh session, has no group, and leaves every settled tab settled |
| `SplitTree.Page.OpenFirst` | src/epimone-page.c:2984-2996 | A fresh pane becomes the whole tree and is focused |
| `SplitTree.Page.FocusPane` | src/epimone-page.c:752-769 | Focus may move to any pane, zoomed or not, without touching the invariant |
| `RenderQueue.Overview.ContentsChanged` | src/epimone-overview.c:2508-2525 | The quiet timer is armed exactly by a change after a feed while rendering, and the measure is unchanged |
| `Winsize.Page.TimerFires` | src/epimone-page.c:916-939 | The timer pushes the current size once unless it was pushed last, and nothing is owed on that pane afterwards |
| `Winsize.Page.RemovePane` | src/epimone-page.c:600-625 | A dying bridge owes nothing, and exactly it leaves the page |
| `Wire.Writer.PutU64` | src/epimone-protocol.h:300-305 | A 64-bit put appends the word or marks the frame unusable |
| `Wire.Writer.PutBlob` | src/epimone-protocol.h:319-326 | A blob put appends length and bytes or marks the frame unusable |
| `Wire.Writer.Start` | src/epimone-protocol.h:328-335 | A started frame has its type and an empty body |
| `Wire.ReadsU32` | src/epimone-protocol.h:395-409 | Reading back a 32-bit word |
| `Framing.OneFrame` | src/daemon/server.c:930-975 | The bytes of exactly one frame parse to that frame and nothing more |

## Left out

- GTK, libadwaita and VTE drawing, CSS text, menus, palettes, preferences: no logic beyond the toolkit's.
- System calls, clocks, signals, fork and exec: their outcomes (bytes, errors, end of file, exited children, allocation results) are parameters.
- Blob text: printing and parsing the variant text is library code; a blob is its parsed tree and fields, or unreadable.
- Daemon.Server.HandleResize: the window size handed to the PTY is not modelled, because the daemon only forwards it.
- Daemon.Server.HandleCreate: the spawned command and environment are not modelled beyond decoding them, nor the directory beyond its recorded name, because exec interprets them.
- Daemon.Server.Serve: a failing epoll_wait, which ends the loop, and the limit of 64 events to a batch are not modelled; a report that names nothing listed, or a connection a second time, is passed over, because the kernel makes none.
- Daemon.Server.RunBatch: that a connection marked for closing is eventually freed is not claimed, because the code does not free one whose buffer a write error left undrained (src/daemon/server.c:895-897, 1428).
- Daemon.Server.ProcessDeadlines: that every killed child is eventually killed or reaped while listed is not claimed, because an end of file on its PTY can unlink the session first (src/daemon/server.c:1138-1139).
- Daemon.Server.ParseLoop: nothing is claimed about bytes behind the first illegal length, because what is parsed there depends on how the stream was cut.
- Wire.Writer.Reserve: size_t overflow of the doubling is not modelled, because a frame is bounded far below it.
- Wire.Reader.U64: values are naturals; that a C read truncates nothing follows from the range of the encoding.
- Codec.ListSessions: the client's own allocations are taken to succeed, because GLib aborts otherwise.
- GroupSync.Gui.SyncPageGroup: panes marked enrolled by a layout restore or adoption, and group changes by other clients of the daemon, are not modelled, because the code trusts them without asking.
- GroupSync.Tab.SetGroupId: the panes of a tab are a sequence of session ids here, because the tree's pointers are the subject of SplitTree.
- Geometry.Canvas.WalkNode: coordinates are exact reals and a ratio that is not a number, which the code also draws as an even split, is not a value here.
- Geometry.RatiosDoNotDrift: the toolkit's own clamping of divider positions is not modelled.
- SplitTree.Page.Split: the divider's position, titles, scrims and the new session's failure are not modelled, because they do not touch the tree.
- SplitTree.Page.FirstTerminal: the second attempt in the right side is left out, because the left side of a linked divider always has a pane.
- Focus movement by direction picks a pane by on-screen geometry and does not restructure; any pane may be focused at any time in the model.
- RenderQueue.Overview.Start: the branches for an empty queue or a card without panes are left out, because the chain invariant excludes them; the same holds for Feed and Finish.
- RenderQueue.Overview.PopAndCompose: a signature is the sequence of pane signatures, not its hash, because hash collisions are not the subject.
- Coverage.Reload: titles, process names, geometry of the grid and the texture cache are not modelled; the grid a live page reports is a parameter.
- Winsize.Bridge.ResizeFlush: the answer to the resize request is ignored by the code, so a push that the daemon did not get is not repeated; the record says which were delivered.
- Hsl.Shade: channels are exact reals, so float rounding is not modelled.
- src/ctl/main.c repeats the client codec; logging, paths, shell selection and daemonising would only add easy members.
