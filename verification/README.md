# Verified model of the NetworkBase library

NetworkBase is an event-driven network library: sockets with growing send and
receive buffers, one engine thread that sweeps a table of sockets, a small
asynchronous DNS resolver on top, and a thread base class. This project models
these parts in Dafny and proves what they promise.

## How the model is built

* **Classes and values.** Where the C++ updates fields or arrays in place, the
  model has a class with the same fields and methods, and every method is
  proved equal to a function on values. The properties of whole runs are
  lemmas about those functions.
  * `AutoGrowBuffer.dfy` is the class over one array; `BufferSpec.dfy` is its
    value view and its runs.
  * `Transmission.dfy` is Socket and Transmission in one class;
    `SocketSpec.dfy` has one function per event; `SocketStatus.dfy` says what
    each does to the status, and `StreamLink.dfy`, `SocketSession.dfy` and
    `DnsLookup.dfy` prove runs of events.
  * `TlsReceive.dfy` is the receive feed of the TLS transmission.
  * `DnsRequest.dfy`, `DnsResponse.dfy` and `DottedQuad.dfy` are the codec,
    over arrays and octet sequences; `Text.dfy` holds dots and decimals.
  * `Engine.dfy` is the socket table as a class; `EngineProtocol.dfy` is the
    engine thread and the user threads as a state machine. `EngineSweep.dfy`
    shows that the two sweep alike, `EngineSocket.dfy` that both change a
    status as the socket does, `EngineTorn.dfy` which Connects the sweep
    survives, `EngineClose.dfy` which Closes last.
  * `ThreadLifecycle.dfy` is the Start/Stop protocol as a state machine.
* **The environment.** Results of system calls, the handler's answers, the
  kernel's chunking and the order of threads are parameters of the events, so
  every lemma about a run holds for all of them.
* **Atomicity.** A method under a buffer's mutex is one step. The engine's
  lines 52 to 105 lock the same mutex twice without unlocking; they are one
  critical section here. Flag and status accesses are sequentially consistent.
  Connect's test and store are one step (`Connect`) or two (`SeeInit`,
  `Store`). A safe run has no store to the socket under the sweep's tests after
  its second test; every run in which Connect is one step is safe
  (`AtomicIsSafe`), and no other store needs to be excluded
  (`FailsAfterHarmfulStore`).
* **Driver discipline.** `RealConnect` tests for START_CONNECT but its guard has
  no return. `SocketSession` and `DnsLookup` therefore let a driver call
  anything in any status until RealDisconnect, except a RealConnect that
  succeeds after OnConnect has been called (after a result has been reported,
  for a lookup); `RealConnectIsSafe` and `ConnectIsSafe` show that exactly this
  exception is needed. The engine as written stays within it for a socket that is
  added once: it calls nothing on an id after RealDisconnect
  (`NothingAfterDisconnect`), and never gets as far as OnConnect
  (`EngineNeverConnects`).
* **Characters.** `char` is signed, as on x86; octets are 0 to 255. Positions in
  a DNS message are 32-bit and wrap.

## What the code does not do

These promises fail, and the lemma named says exactly when they hold.

* Copying by reallocation is bounded by growth for every run if and only if the
  initial capacity is a power of two or one less (`AmortisedCopying`). The
  64 KiB and 16 KiB buffers of the library qualify (`BuffersCopyLittle`,
  `BufferCopiesLittle`).
* When everything a peer has queued is read at once, the handler is called if
  and only if the amount is not a multiple of 16384 (`GreedyReadOffers`).
* A QNAME decodes to the domain's labels if and only if every label has 1 to 63
  octets (`QnameDecodes`); the response parser's skip finds the end of such a
  question, with labels up to 127, if and only if no label is empty
  (`SkipFindsQuestionEnd`).
* The loop over a response goes record after record to the first address if and
  only if every RDLENGTH up to it has both octets below 128
  (`ResponseReadStraight`), and then the answer is right
  (`ResponseYieldsFirstAddress`). Otherwise it may jump back into data, and the
  lengths alone do not decide: of two responses with the same lengths one is
  answered rightly and one never (`LengthsDoNotDecide`). It stays at a record it
  has come to for ever if and only if the low RDLENGTH octet is 244
  (`LoopNeverEnds`).
* An accepted address is a dotted quad if and only if it has four parts and no
  superfluous leading zero (`AcceptedQuads`); "1.2.3.4.5" is accepted
  (`AcceptsFiveParts`).
* A Close lasts, whatever all threads do afterwards, if and only if at that
  moment the engine has not filed the socket to connect and no Connect of it is
  between test and store (`CloseLastsIffUnclaimed`); a run can get there
  (`CloseCanBeLost`).
* The sweep can reach its error branch after a step if and only if the step is
  the late store of a Connect to the socket under test
  (`FailsAfterHarmfulStore`); a run can get there (`HarmfulStoreHappens`).
* The engine as written never connects a socket (`EngineNeverConnects`).
* Start succeeds at once if and only if a worker is alive, and starts nothing
  then (`StartSucceedsAtOnce`). That is in vain, whatever follows short of
  another Start, if and only if `running_` is clear or the worker has seen a hook
  fail and is about to clear it (`VainStart`). Runs get to both
  (`StartCanSucceedInVain`).
* Every descriptor a socket obtains is given back if and only if RealConnect is
  never called on a socket that holds one, and never obtains descriptor 0
  (`AllGivenBackIffLeakFree`).

## Model

| member | source | states |
|---|---|---|
| AutoGrowBuffer.AutoGrowBuffer.constructor | src/utils/tool/f_auto_grow_buffer.cpp:10-16 | an empty buffer whose capacity is the asked-for length clamped to 4 KiB and 1 MiB |
| AutoGrowBuffer.AutoGrowBuffer.AddTailData | src/utils/tool/f_auto_grow_buffer.cpp:22-55 | in all three layouts the bytes go behind the live ones; the bytes move to the front only when the tail is too short; the array is replaced exactly when live bytes plus new bytes exceed capacity, by one of a power of two at most twice what it holds; more than 1 MiB is refused and changes nothing |
| AutoGrowBuffer.AutoGrowBuffer.MoveToFront | src/utils/tool/f_auto_grow_buffer.cpp:34-37 | the overlapping move keeps the live bytes |
| AutoGrowBuffer.AutoGrowBuffer.Grow | src/utils/tool/f_auto_grow_buffer.cpp:38-48 | a fresh array of the realloc size holds the same live bytes, and room for the new ones |
| AutoGrowBuffer.AutoGrowBuffer.PopHeadData | src/utils/tool/f_auto_grow_buffer.cpp:57-68 | the callback is offered exactly the live bytes; exactly the prefix it accepts goes; a bad answer returns -1 and changes nothing |
| AutoGrowBuffer.AutoGrowBuffer.GetSize | src/utils/tool/f_auto_grow_buffer.cpp:70-75 | number of live bytes |
| AutoGrowBuffer.AutoGrowBuffer.GetReallocLen | src/utils/tool/f_auto_grow_buffer.cpp:77-85 | the least power of two strictly above the argument, a positive int |
| BufferSpec.ReallocLenIsLeast | src/utils/tool/f_auto_grow_buffer.cpp:77-85 | no smaller power of two is above the argument |
| BufferSpec.ReallocLenFitsInt | src/utils/tool/f_auto_grow_buffer.cpp:84 | the int shift is representable exactly below 2^30 bytes |
| BufferSpec.RunIsFifo | src/utils/tool/f_auto_grow_buffer.cpp:22-68 | over any interleaving of appends and pops: bytes out, then live bytes, are the initial bytes, then the accepted bytes |
| BufferSpec.RunCapacity | src/utils/tool/f_auto_grow_buffer.cpp:32-48 | over any run capacity never shrinks and stays within its start or twice the peak demand |
| BufferSpec.RunCopies | src/utils/tool/f_auto_grow_buffer.cpp:38-48 | from a capacity that is a power of two or one less, bytes copied by reallocations are at most the growth of capacity |
| BufferSpec.AmortisedCopying | src/utils/tool/f_auto_grow_buffer.cpp:10-48 | that bound holds for all runs of a buffer if and only if its initial capacity is of that form |
| Transmission.BuffersCopyLittle | src/base/transport/f_transmission.h:44-45 | the bound holds for every run of the 64 KiB send and read buffers |
| Transmission.Transmission.constructor | src/base/transport/f_transmission.cpp:10-14 | INIT, no descriptor, two empty buffers that share nothing |
| Transmission.Transmission.Connect | src/base/transport/f_socket.cpp:44-60 | a valid address sets or clears the deadline in any status and moves INIT to START_CONNECT; anything else changes nothing |
| Transmission.Transmission.Close | src/base/transport/f_socket.cpp:62-64 | the status becomes DISCONNECTED, the buffers stay |
| Transmission.Transmission.Send | src/base/transport/f_transmission.cpp:21-23 | the bytes are queued, or refused as a whole |
| Transmission.Transmission.OnRead | src/base/transport/f_transmission.cpp:33-43 | the chunk is stored; a final chunk offers the whole read buffer to the handler once, drops what it takes, and queues what it sends meanwhile |
| Transmission.Transmission.OnWrite | src/base/transport/f_transmission.cpp:45-60 | queued bytes go to the kernel, otherwise the handler is asked; fails exactly when a write of queued bytes takes none |
| Transmission.Transmission.RealConnect | src/base/transport/f_socket.cpp:66-105 | whatever the status was, CONNECTING when every call succeeds and DISCONNECTED otherwise |
| Transmission.Transmission.RealRead | src/base/transport/f_socket.cpp:114-167 | for any answers of the kernel the loop reaches the state of `SocketSpec.ReadLoop`, whose meaning is `SocketSpec.ReadLoopEffect`: chunks stored in order, one offer, errors close |
| Transmission.Transmission.RealWrite | src/base/transport/f_socket.cpp:169-200 | finishes a connection, calls OnConnect once, then writes; an unconnected socket is closed |
| Transmission.Transmission.RealDisconnect | src/base/transport/f_socket.cpp:107-112 | calls OnDisconnect, then gives back the descriptor if it is not zero |
| SocketStatus.StateDiagram | src/base/transport/f_socket.cpp:44-200 | for every event and every status: exactly when it leads there |
| SocketStatus.ReadStatus | src/base/transport/f_socket.cpp:114-167 | RealRead closes a connected socket if and only if full chunks are followed by an error, the end of the stream or too much, or by a short chunk whose handler closes; a connecting socket is left alone, any other is closed unread |
| SocketStatus.LoopCalls | src/base/transport/f_socket.cpp:149-164 | each chunk goes to OnRead, marked as the last one exactly when it is short, and the offer stands behind that |
| SocketStatus.ConnectedWrite | src/base/transport/f_socket.cpp:194-227 | on a connected socket one OnWrite; queued bytes lose exactly what was written, a write of none or too much closes, and with nothing queued the handler decides |
| SocketStatus.PendingWrite | src/base/transport/f_socket.cpp:176-199 | from a pending connection: still in progress changes nothing, failure closes without a callback, success reports OnConnect once and writes |
| SocketStatus.PendingEnds | src/base/transport/f_socket.cpp:120-192 | the same after any number of reads and writes that find it still pending |
| SocketStatus.ClosedStaysSilent | src/base/transport/f_socket.cpp:62-200 | over any run without a RealConnect that succeeds a closed socket stays closed, is not read, written or offered to, and calls nothing but OnDisconnect |
| SocketStatus.ConnectAgainIsHarmless | src/base/transport/f_socket.cpp:44-60 | a Connect after INIT, inserted anywhere in any run, changes nothing but the deadline, then and ever after |
| SocketStatus.DeadlineIsTheLastConnects | src/base/transport/f_socket.cpp:50-55 | over any run the deadline is the one of the last valid Connect, none for a timeout of 0 |
| SocketSpec.ReadLoopEffect | src/base/transport/f_socket.cpp:126-166 | a read loop stores all usable chunks in order and offers the buffer once, exactly when it ends on a short chunk |
| SocketSpec.GreedyReadOffers | src/base/transport/f_socket.cpp:126-166 | when all queued bytes are read, the handler is offered them if and only if their number is not a multiple of 16384 |
| StreamLink.SendSide | src/base/transport/f_socket.cpp:215-227 | per event: bytes written, then the send buffer, are the old buffer, then the bytes accepted |
| StreamLink.ReceiveSide | src/base/transport/f_transmission.cpp:33-43 | per event: bytes consumed, then the read buffer, are the old buffer, then the bytes received |
| StreamLink.RunConserves | src/base/transport/f_transmission.cpp:21-60 | after any run of two endpoints: consumed, read buffer, in flight, send buffer, in this order, are the accepted stream |
| StreamLink.OffersAreTheUnconsumedStream | src/base/transport/f_transmission.cpp:58-60 | each OnData is offered exactly the accepted stream from the first unconsumed byte to the last received one |
| SocketSession.RealConnectKeepsOrder | src/base/transport/f_socket.cpp:66-105 | RealConnect, in any status, keeps callback order and status consistent if and only if it does not succeed after OnConnect |
| SocketSession.EventKeepsOrder | src/base/transport/f_socket.cpp:44-200 | every event of the discipline keeps callback order and status consistent |
| SocketSession.CallbacksAreWellOrdered | src/base/transport/f_socket.cpp:107-200 | for every allowed event sequence OnConnect occurs at most once, every data callback comes after it, and OnDisconnect is last and occurs exactly when the socket is gone |
| SocketSession.RealConnectIsSafe | src/base/transport/f_socket.cpp:66-105 | after a RealConnect every continuation keeps the callbacks well ordered if and only if it did not reopen a reported connection |
| SocketSession.RunClosesOneDescriptor | src/base/transport/f_socket.cpp:107-112 | over every allowed run the last descriptor is given back once, at disconnection, and no other |
| SocketSession.AllGivenBackIffLeakFree | src/base/transport/f_socket.cpp:72-112 | over every allowed run to disconnection all descriptors obtained are given back if and only if no RealConnect overwrites one or obtains 0 |
| DnsLookup.EventKeepsOneResult | src/base/dns/f_dns_service.cpp:38-87 | every event of the discipline keeps the handler's flag, the reported results and the status in agreement |
| DnsLookup.ExactlyOneResult | src/base/dns/f_dns_service.cpp:38-87 | over every allowed event sequence at most one OnResult at any moment and exactly one once disconnected |
| DnsLookup.Requested | src/base/dns/f_dns_service.cpp:38-53 | once connected, a full write puts exactly the request on the wire |
| DnsLookup.ConnectedSends | src/base/dns/f_dns_service.cpp:38-53 | when the connection is reported, a domain of at most 1005 octets has exactly its request queued; a longer one has nothing queued, is reported as failed, and closes |
| DnsLookup.OnlyTheRequest | src/base/dns/f_dns_service.cpp:38-91 | the handler queues one request for each connection reported and nothing else, whatever the driver does |
| DnsLookup.LookupReportsAnswer | src/base/dns/f_dns_service.cpp:38-87 | over every allowed run OnData is offered bytes at most once; then the one result is what the parser makes of them and the socket is closed, and without an offer at most failure is reported |
| DnsLookup.GoodRunAnswers | src/base/dns/f_dns_service.cpp:38-87 | for every short answer there is an allowed run that offers exactly it |
| DnsLookup.LookupResolves | src/base/dns/f_connector_dns.cpp:24-31 | with the real parser, over every allowed run in which OnData is offered a readable response, the first address record is reported and the waiting socket, if still in the table, is connected to that address; without an address it is closed; no other socket is touched |
| DnsLookup.DeliverDrops | src/f_connector.cpp:85-117 | a result for a socket that has left the table, or one that is no address, is dropped |
| DnsLookup.DeadlineIsInherited | src/base/dns/f_dns_service.cpp:66-78 | the waiting socket gets the lookup's deadline, moved to 1000 ms from now when less is left, and none if the lookup had none |
| DnsLookup.BadServerWaits | src/base/dns/f_dns_service.cpp:189-206 | when the name server is no address and the driver connects only what it has seen to connect, the lookup reports nothing until it is disconnected, and then failure |
| DnsLookup.BeginAsks | src/base/dns/f_dns_service.cpp:189-206 | a new lookup asks for a connection if and only if its server is an address, and has reported nothing |
| DnsLookup.RevivingReportsTwice | src/base/transport/f_socket.cpp:66-105 | from any lookup that has reported, reconnecting its socket leads to a second result |
| DnsLookup.ConnectIsSafe | src/base/transport/f_socket.cpp:66-105 | after a RealConnect every continuation reports at most once if and only if it did not revive a lookup that has reported |
| DnsRequest.RequestConstruct | src/base/dns/f_dns_protocol.cpp:20-66 | the buffer holds header, length-prefixed labels of the dot-split domain, zero, type and class; length is the domain's plus 18; the rest of the buffer is untouched |
| DnsRequest.WriteLabels | src/base/dns/f_dns_protocol.cpp:41-56 | the scan writes exactly the labels of the split |
| DnsRequest.LengthOctet | src/base/dns/f_dns_protocol.cpp:46 | a label is announced by its length in one octet, so one of 256 octets or more too short |
| DnsRequest.RequestLength | src/base/dns/f_dns_protocol.cpp:41-65 | length is the domain's plus 18 wherever the dots are |
| DnsRequest.RequestFields | src/base/dns/f_dns_protocol.cpp:11-39 | for every domain the request is a standard query with id 0x6666 and recursion desired, one question and no records, of type 1 and class 1 |
| DnsRequest.QnameDecodes | src/base/dns/f_dns_protocol.cpp:41-65 | by section 3.1 of RFC 1035 the name reads back as the domain's labels if and only if each has 1 to 63 octets |
| DnsRequest.RequestIsInjective | src/base/dns/f_dns_protocol.cpp:20-66 | different valid domains make different requests |
| DnsResponse.SkipQuestionName | src/base/dns/f_dns_protocol.cpp:73-75 | on any message on which the code stays inside and ends, jumping forwards or back, the skip loop ends in bounds on a zero octet, the one forward hops reach when they reach one |
| DnsResponse.SkipFindsQuestionEnd | src/base/dns/f_dns_protocol.cpp:71-81 | on a request with labels up to 127 octets the skip plus 5 is the request length if and only if no label is empty |
| DnsResponse.NameJumpsBack | src/base/dns/f_dns_protocol.cpp:73-75 | a name octet of 128 or more jumps back by 255 less its value, and 255 keeps the parser for ever |
| DnsResponse.RdLenIsSigned | src/base/dns/f_dns_protocol.cpp:89-90 | the length is put together from signed octets in 32-bit arithmetic, the sign of the low one covering the high one |
| DnsResponse.RecordLeadsOn | src/base/dns/f_dns_protocol.cpp:85-104 | in a message, one turn of the loop at a record with data that is no address goes to the next record if and only if both length octets are below 128, and back to the record itself if and only if the low one is 244 |
| DnsResponse.LoopNeverEnds | src/base/dns/f_dns_protocol.cpp:85-104 | on a response the loop comes through plain records, none an address, to any record behind them; it stays there for ever if and only if that record's low length octet is 244 |
| DnsResponse.FindAddress | src/base/dns/f_dns_protocol.cpp:83-105 | on any message on which the loop, jumping forwards or back, stays inside and ends, all reads are in bounds, it ends, and finds the octets `DnsResponse.After` ends with, or none |
| DnsResponse.ResponseParse | src/base/dns/f_dns_protocol.cpp:68-112 | on any message on which the code stays inside and ends, all reads are in bounds, it ends, and returns the dotted quad of the address it stops at or -1 |
| DnsResponse.StraightIffWalkable | src/base/dns/f_dns_protocol.cpp:83-105 | over the records of a message each turn of the loop goes from one record to the next, up to the first four-octet RDATA, if and only if every length up to it has both octets below 128 |
| DnsResponse.ResponseReadStraight | src/base/dns/f_dns_protocol.cpp:68-112 | the same of a response that echoes the question (labels of 1 to 127 octets), from its first record on |
| DnsResponse.ResponseYieldsFirstAddress | src/base/dns/f_dns_protocol.cpp:68-112 | such a response yields its first four-octet RDATA, or nothing, when all lengths up to it have both octets below 128; without an address also when a misread length leads past the end |
| DnsResponse.LengthsDoNotDecide | src/base/dns/f_dns_protocol.cpp:89-104 | of two responses with the same lengths, the first misread, one yields the first address although the loop jumps back, and the other never ends |
| DnsResponse.DetourIsResponse | src/base/dns/f_dns_protocol.cpp:68-112 | both responses exist, for every domain of at most 65535 octets |
| DnsResponse.ParsedAddressIsAccepted | src/f_connector.cpp:109-117 | whenever the parser ends with an address, on whatever message and whatever way its loops have gone, the text passes the address check of the connect that follows |
| DottedQuad.DigitsBackwards | src/base/dns/f_dns_protocol.cpp:122-128 | the division loop yields the decimal digits, last first, at most three |
| DottedQuad.AppendOctet | src/base/dns/f_dns_protocol.cpp:130-133 | backward writes at the string length append the numeral and a dot |
| DottedQuad.IntToStr | src/base/dns/f_dns_protocol.cpp:114-136 | on a zeroed buffer of 32 the result is the canonical dotted quad, at most 15 characters |
| DottedQuad.QuadReadsBack | src/base/dns/f_dns_protocol.cpp:96-101 | a printed address is accepted by the address check and scans back to the same octets |
| DottedQuad.QuadInAscii | src/base/dns/f_dns_protocol.cpp:114-136 | 192, 0, 2, 1 prints as "192.0.2.1" in ASCII |
| DottedQuad.QuadIsInjective | src/base/dns/f_dns_protocol.cpp:114-136 | different octets print differently |
| DottedQuad.ScanIsSplit | src/base/transport/f_socket_assistant.cpp:59-62 | on digits and dots, greedy scanning of n fields is splitting on dots up to the first empty part |
| DottedQuad.IpValid | src/base/transport/f_socket_assistant.cpp:56-75 | accepts exactly the digit-and-dot strings whose first four parts are numbers up to 255 |
| DottedQuad.AcceptedQuads | src/base/transport/f_socket_assistant.cpp:56-75 | an accepted string is a dotted quad if and only if it has four parts and no superfluous leading zero |
| DottedQuad.AcceptsFiveParts | src/base/transport/f_socket_assistant.cpp:56-75 | "1.2.3.4.5" is accepted and is no dotted quad |
| TlsReceive.TlsReceive.Feed | src/base/transport/f_transmission_security.cpp:114-125 | ciphertext goes behind what is pending; refused before initialisation |
| TlsReceive.TlsReceive.NetRecv | src/base/transport/f_transmission_security.cpp:240-264 | "want read" if and only if fewer bytes than asked for are pending, and then nothing changes; otherwise exactly the asked count leaves the front |
| TlsReceive.RunConserves | src/base/transport/f_transmission_security.cpp:114-264 | over any run delivered pieces, then pending bytes, are all ciphertext received |
| TlsReceive.EnoughServesAll | src/base/transport/f_transmission_security.cpp:240-264 | any receive calls in a row are all served if and only if together they ask for no more than is pending |
| TlsReceive.BufferCopiesLittle | src/base/transport/f_transmission_security.h:75 | the amortised copying bound holds for every run of the 16 KiB buffer |
| Engine.Engine.Add | src/base/engine/f_engine.cpp:23-31 | a fresh id, one above the last, maps to the socket |
| Engine.Engine.Query | src/base/engine/f_engine.cpp:33-46 | the socket under the id when there is one, failure when there is none |
| Engine.Engine.Sweep | src/base/engine/f_engine.cpp:78-105 | for any five status reads per socket the sweep succeeds if and only if every socket passes some test; each socket is filed by the first one it passes, and exactly the disconnected leave the table |
| Engine.LeavesWhenClosed | src/base/engine/f_engine.cpp:85-104 | a socket closed before its first status read leaves the table in that sweep, and only a socket seen closed leaves |
| Engine.Engine.AfterThread | src/base/engine/f_engine.cpp:166-179 | the table empties; every id of it is closed exactly once and disconnected exactly once, right after its Close, and no other call is made |
| EngineProtocol.StepKeepsInv | src/base/engine/f_engine.cpp:23-179 | a step of any thread keeps ids accounted for, the sweep on track, what is filed in the table, and nothing connected, if and only if it is not a harmful store |
| EngineProtocol.ExactlyOnceDisconnect | src/base/engine/f_engine.cpp:23-179 | over every safe interleaving an id is disconnected at most once, exactly when it has left table and outgoing maps; once afterThread has ended, exactly once if it was added before the table was taken, and otherwise it is untouched and in the table |
| EngineProtocol.NothingAfterDisconnect | src/base/engine/f_engine.cpp:108-177 | after RealDisconnect of an id the engine makes no further call on it, over every safe interleaving |
| EngineProtocol.ThreadGoesItsWay | src/base/engine/f_engine.cpp:48-179 | every step of the thread leads where the code goes on, and only the end of the thread or the error branch leaves the loop |
| EngineProtocol.LoopIsOver | src/base/engine/f_engine.cpp:101-104 | past the error branch no run comes back to the loop without a restart |
| EngineSocket.ConnectAgrees | src/base/transport/f_socket.cpp:57-58 | Connect changes the status of its socket as the socket's own Connect does, and of no other |
| EngineSocket.CloseAgrees | src/base/transport/f_socket.cpp:62-64 | the same of Close |
| EngineSocket.RealConnectAgrees | src/base/transport/f_socket.cpp:66-105 | guard and end of RealConnect leave the status the socket's own RealConnect does, for every outcome of its calls |
| EngineSocket.GuardShows | src/base/transport/f_socket.cpp:66-70 | while RealConnect is under way its socket reads as START_CONNECT if it was that, and as DISCONNECTED otherwise |
| EngineSocket.ShutdownAgrees | src/base/engine/f_engine.cpp:173-176 | afterThread closes each socket as its own Close does, then disconnects it |
| EngineSocket.ServeAgrees | src/base/transport/f_socket.cpp:114-200 | the statuses a served socket may be left in are exactly those a read or a write can lead to |
| EngineProtocol.AtomicIsSafe | src/base/transport/f_socket.cpp:57-58 | every run in which Connect tests and stores in one step is safe |
| EngineProtocol.QueryFindsWhatWasAdded | src/base/engine/f_engine.cpp:33-46 | Query yields only the socket added under the id, and fails only for ids never added or taken out |
| EngineTorn.SweepNeverFails | src/base/engine/f_engine.cpp:85-104 | the error branch, which drops sockets, is never enabled in a safe run |
| EngineProtocol.EngineNeverConnects | src/base/engine/f_engine.cpp:91-93 | because connecting sockets are filed to connect again, none is ever connected and the extra disconnect at line 127 is dead |
| EngineTorn.FailsAfterHarmfulStore | src/base/transport/f_socket.cpp:57-58 | after any step of any thread the error branch stays out of reach if and only if the step is not the late store of a Connect to the socket under test, after two tests |
| EngineTorn.ErrorLosesSockets | src/base/engine/f_engine.cpp:101-104 | a socket swept out before the error branch is never disconnected, in any later run |
| EngineTorn.HarmfulStoreHappens | src/base/transport/f_socket.cpp:57-58 | a run from the start leads to such a store |
| EngineSweep.SweepAgrees | src/base/engine/f_engine.cpp:84-105 | over a whole sweep within any safe run, every socket passes a test, and the maps and the table are those of the table's own sweep over the same reads; the reads rise when Connect is one step |
| EngineClose.ClosedForGoodIffUnclaimed | src/base/transport/f_socket.cpp:62-72 | a closed socket stays closed in every run if and only if the engine has not filed it to connect and no Connect of it is between test and store |
| EngineClose.CloseLastsIffUnclaimed | src/base/transport/f_socket.cpp:62-64 | the same of a call of Close after any safe run, as a condition on the state at the call |
| EngineClose.CloseCanBeLost | src/base/engine/f_engine.cpp:115-118 | a run in which a Close between the sweep and RealConnect is lost |
| ThreadLifecycle.RunKeepsInv | src/utils/system/f_thread.cpp:23-83 | every run keeps at most one worker alive, exactly while quit is clear after the spawn, and in its script |
| ThreadLifecycle.HooksFollowTheScript | src/utils/system/f_thread.cpp:64-83 | over any restarts the trace is whole generations: beforeThread, any number of readThread, afterThread once; and at most one under way |
| ThreadLifecycle.StopReturnsQuiet | src/utils/system/f_thread.cpp:48-61 | whenever Stop returns no worker hook is in flight |
| ThreadLifecycle.StepWindsDown | src/utils/system/f_thread.cpp:48-83 | with running clear, nobody sets it before quit, and each worker step lowers the measure |
| ThreadLifecycle.StopEnds | src/utils/system/f_thread.cpp:55-58 | such a worker sets quit within the measured number of its own steps, whatever the controller does |
| ThreadLifecycle.StopReturns | src/utils/system/f_thread.cpp:48-61 | whenever Stop waits, after any run, seven steps of the worker set quit, in every continuation |
| ThreadLifecycle.StopReturnsAtOnce | src/utils/system/f_thread.cpp:48-51 | after any run Stop returns at once, changing nothing, if and only if no worker is left |
| ThreadLifecycle.ControlGoesItsWay | src/utils/system/f_thread.cpp:23-61 | Start and Stop go line by line and leave only where they return |
| ThreadLifecycle.FailedStartLeavesNothing | src/utils/system/f_thread.cpp:28-42 | after any run in which the last Start failed, no worker is left but one that winds down |
| ThreadLifecycle.StartAnswersItsHooks | src/utils/system/f_thread.cpp:23-46 | after any run with no Start under way the last one has failed if and only if one of its hooks refused |
| ThreadLifecycle.RunsUntilStopped | src/utils/system/f_thread.cpp:23-76 | after any run in which nobody calls Stop and every hook succeeds, a started worker runs, and each three of its further steps call readThread again |
| ThreadLifecycle.AtMostOneMoreRead | src/utils/system/f_thread.cpp:72-76 | meanwhile readThread is called at most once more, and only by a worker already past its loop test |
| ThreadLifecycle.NoReadAfterFailure | src/utils/system/f_thread.cpp:67-76 | from the moment beforeThread or readThread fails, the worker calls readThread no more before it quits |
| ThreadLifecycle.StartSucceedsAtOnce | src/utils/system/f_thread.cpp:23-26 | after every run Start succeeds at once, changing nothing, if and only if a worker is alive |
| ThreadLifecycle.VainStart | src/utils/system/f_thread.cpp:23-83 | such a Start comes to nothing (no worker is spawned without a further Start, and the one alive is gone after seven steps of its own) if and only if at the call `running_` is clear or the worker is between a failed hook and clearing it |
| ThreadLifecycle.StartCanSucceedInVain | src/utils/system/f_thread.cpp:23-83 | runs from the start lead to such a success, one with `running_` set and one with it clear |

## Left out

- AutoGrowBuffer.AutoGrowBuffer.AddTailData: a reallocation for 2^30 bytes or more overflows the int shift and is outside the precondition; `BufferSpec.ReallocLenFitsInt` is exact.
- AutoGrowBuffer.AutoGrowBuffer.PopHeadData: the callback's pointer is writable in C++; here it reads the live bytes and answers a number.
- DnsRequest.RequestConstruct: domains that do not fit the caller's buffer overflow it in C++ and are outside the precondition; the lookup's own test for a full buffer comes after the write.
- DnsResponse.ResponseParse: messages on which the code reads outside the message or never ends, since it does not check first; `DnsResponse.Parse` says which. The record type is not looked at, as in the code.
- DnsResponse.ResponseYieldsFirstAddress: one way only; with other lengths the answer depends on the data the loop jumps into (`LengthsDoNotDecide`). Records whose names are not compressed to two octets.
- DottedQuad.IpValid: numbers that overflow int are undefined under sscanf; here they are unbounded.
- DnsLookup.ExactlyOneResult: events are atomic; a user's Close inside RealWrite between its status test and its status write acts like a Close that never came.
- Engine.Engine.AfterThread: the order in which the sockets are taken is left open; the code goes by id. Ids are unbounded.
- TlsReceive.TlsReceive.NetRecv: the null context test; a count above the int range.
- Transmission.Transmission.RealDisconnect: what a handler does inside OnDisconnect; and a Connect from inside any callback, which could change only the deadline.
- Transmission.Transmission.RealRead: buffers that grow to 2^30 bytes, and a handler that sends that much, are outside the precondition, as for AddTailData.
- EngineSweep.SweepAgrees: sweeps with a harmful store, which fail.
- EngineProtocol.ExactlyOnceDisconnect: which bytes RealRead and RealWrite move; only the statuses they may leave.
- The TLS library, its handshake and the TLS send path: foreign code, and a partial write is reported as a full one.
- select and epoll wrappers, the wake-up socket pair, logging, clocks and memory release.
- The parser for resolv.conf, the gating of the resolver service and the start, stop and create calls of Connector are not modelled.
- Connection timeouts: Connect sets the deadline, but the check of it is a stub in the code.
